/** components/resume-editor.tsx: the editor's state transitions. Each handler builds a
    new résumé from the current one and hands it to `setResume`; nothing happens while
    no résumé is loaded. Edits made through `updateResume` (personal info and skills)
    also hand the new résumé to the debounced autosave; the education, experience and
    project handlers call `setResume` directly and schedule no save. */
module ResumeEditor {
  import opened Collections
  import opened ResumeTypes

  /** The editor's `resume` state: `None` until the résumé has been fetched. */
  type EditorState = Option<Resume>

  /** The state an edit leaves, and the résumé it passes to the autosave, if any. */
  datatype Step = Step(resume: EditorState, autosave: Option<Resume>)

  /** `updateResume(updates)`: `{ ...resume, ...updates }`, stored and queued for saving. */
  function UpdateResume(st: EditorState, updates: ResumePatch): (r: Step)
    ensures st.None? ==> r == Step(None, None)
    ensures st.Some? ==> r.resume == Some(MergeResume(st.value, updates)) && r.autosave == r.resume
  {
    match st
    case None => Step(None, None)
    case Some(x) =>
      var y := MergeResume(x, updates);
      Step(Some(y), Some(y))
  }

  /** The parts of a résumé an education edit must leave alone. */
  function OutsideEducation(x: Resume): Resume {
    x.(data := x.data.(education := []))
  }

  function OutsideExperience(x: Resume): Resume {
    x.(data := x.data.(experience := []))
  }

  function OutsideProjects(x: Resume): Resume {
    x.(data := x.data.(projects := []))
  }

  function OutsideSkills(x: Resume): Resume {
    x.(data := x.data.(skills := []))
  }

  function OutsidePersonalInfo(x: Resume): Resume {
    x.(data := x.data.(personalInfo := EmptyPersonalInfo))
  }

  // ---------------------------------------------------------------- education

  datatype EducationField = School | Degree | Field | StartDate | EndDate

  function EducationGet(e: Education, f: EducationField): string {
    match f
    case School => e.school
    case Degree => e.degree
    case Field => e.field
    case StartDate => e.startDate
    case EndDate => e.endDate
  }

  /** `{ ...entry, [field]: value }`: only that field changes. */
  function EducationPut(e: Education, f: EducationField, v: string): (r: Education)
    ensures EducationGet(r, f) == v
    ensures forall g :: g != f ==> EducationGet(r, g) == EducationGet(e, g)
    ensures r.id == e.id
  {
    match f
    case School => e.(school := v)
    case Degree => e.(degree := v)
    case Field => e.(field := v)
    case StartDate => e.(startDate := v)
    case EndDate => e.(endDate := v)
  }

  /** The entry `addEducation` appends: a fresh id and every other field empty. */
  function BlankEducation(id: string): (e: Education)
    ensures e.id == id && forall f :: EducationGet(e, f) == ""
  {
    Education(id, "", "", "", "", "")
  }

  function WithEducation(x: Resume, es: seq<Education>): Resume {
    x.(data := x.data.(education := es))
  }

  /** `addEducation`: one blank entry at the end; nothing else changes. */
  function AddEducation(st: EditorState, newId: string): (r: Step)
    ensures st.None? ==> r == Step(None, None)
    ensures st.Some? ==> r.resume.Some? && r.autosave.None?
    ensures st.Some? ==> r.resume.value.data.education == st.value.data.education + [BlankEducation(newId)]
    ensures st.Some? ==> OutsideEducation(r.resume.value) == OutsideEducation(st.value)
  {
    match st
    case None => Step(None, None)
    case Some(x) => Step(Some(WithEducation(x, x.data.education + [BlankEducation(newId)])), None)
  }

  /** `updateEducation(index, field, value)`: the entry at `index` gets the new value in
      that field; the list keeps its length and every other entry. The form only passes
      the indices of existing entries. */
  function UpdateEducation(st: EditorState, index: int, f: EducationField, v: string): (r: Step)
    requires st.Some? ==> 0 <= index < |st.value.data.education|
    ensures st.None? ==> r == Step(None, None)
    ensures st.Some? ==> r.resume.Some? && r.autosave.None?
    ensures st.Some? ==>
      var before := st.value.data.education;
      var after := r.resume.value.data.education;
      |after| == |before| && after[index] == EducationPut(before[index], f, v) &&
      forall j :: 0 <= j < |before| && j != index ==> after[j] == before[j]
    ensures st.Some? ==> OutsideEducation(r.resume.value) == OutsideEducation(st.value)
  {
    match st
    case None => Step(None, None)
    case Some(x) =>
      var es := x.data.education;
      Step(Some(WithEducation(x, es[index := EducationPut(es[index], f, v)])), None)
  }

  /** `deleteEducation(index)`: `filter((_, i) => i !== index)`. */
  function DeleteEducation(st: EditorState, index: int): (r: Step)
    ensures st.None? ==> r == Step(None, None)
    ensures st.Some? ==> r.resume.Some? && r.autosave.None?
    ensures st.Some? ==> r.resume.value.data.education == RemoveAt(st.value.data.education, index)
    ensures st.Some? ==> OutsideEducation(r.resume.value) == OutsideEducation(st.value)
  {
    match st
    case None => Step(None, None)
    case Some(x) => Step(Some(WithEducation(x, RemoveAt(x.data.education, index))), None)
  }

  /** Deleting the entry just added restores the résumé. */
  lemma DeleteAddedEducation(st: EditorState, newId: string)
    requires st.Some?
    ensures DeleteEducation(AddEducation(st, newId).resume, |st.value.data.education|).resume == st
  {
    RemoveLastAppended(st.value.data.education, BlankEducation(newId));
  }

  /** The last edit of a field wins, and writing back a field's own value changes nothing. */
  lemma EducationEditsOverwrite(st: EditorState, index: int, f: EducationField, v: string, w: string)
    requires st.Some? && 0 <= index < |st.value.data.education|
    ensures UpdateEducation(UpdateEducation(st, index, f, v).resume, index, f, w) == UpdateEducation(st, index, f, w)
    ensures UpdateEducation(st, index, f, EducationGet(st.value.data.education[index], f)).resume == st
  {
    var es := st.value.data.education;
    assert EducationPut(EducationPut(es[index], f, v), f, w) == EducationPut(es[index], f, w) by {
      match f
      case School => case Degree => case Field => case StartDate => case EndDate =>
    }
    var once := es[index := EducationPut(es[index], f, v)];
    assert once[index := EducationPut(once[index], f, w)] == es[index := EducationPut(es[index], f, w)];
    assert WithEducation(WithEducation(st.value, once), once[index := EducationPut(once[index], f, w)])
        == WithEducation(st.value, es[index := EducationPut(es[index], f, w)]);
    assert es[index := EducationPut(es[index], f, EducationGet(es[index], f))] == es;
  }

  // ---------------------------------------------------------------- experience

  datatype ExperienceField = Company | Position | StartDate | EndDate | Current | Description

  /** `updateExperience` takes `string | boolean`: the checkbox sends a boolean for
      `current`, the inputs send text for the rest. */
  datatype FieldValue = TextValue(text: string) | FlagValue(flag: bool)

  predicate Fits(f: ExperienceField, v: FieldValue) {
    (f == Current) == v.FlagValue?
  }

  function ExperienceGet(e: Experience, f: ExperienceField): (v: FieldValue)
    ensures Fits(f, v)
  {
    match f
    case Company => TextValue(e.company)
    case Position => TextValue(e.position)
    case StartDate => TextValue(e.startDate)
    case EndDate => TextValue(e.endDate)
    case Current => FlagValue(e.current)
    case Description => TextValue(e.description)
  }

  /** `{ ...entry, [field]: value }`: only that field changes. */
  function ExperiencePut(e: Experience, f: ExperienceField, v: FieldValue): (r: Experience)
    requires Fits(f, v)
    ensures ExperienceGet(r, f) == v
    ensures forall g :: g != f ==> ExperienceGet(r, g) == ExperienceGet(e, g)
    ensures r.id == e.id
  {
    match f
    case Company => e.(company := v.text)
    case Position => e.(position := v.text)
    case StartDate => e.(startDate := v.text)
    case EndDate => e.(endDate := v.text)
    case Current => e.(current := v.flag)
    case Description => e.(description := v.text)
  }

  /** The entry `addExperience` appends: empty text and not current. */
  function BlankExperience(id: string): (e: Experience)
    ensures e.id == id && !e.current
    ensures forall f :: f != Current ==> ExperienceGet(e, f) == TextValue("")
  {
    Experience(id, "", "", "", "", false, "")
  }

  function WithExperience(x: Resume, es: seq<Experience>): Resume {
    x.(data := x.data.(experience := es))
  }

  /** `addExperience`: one blank entry at the end; nothing else changes. */
  function AddExperience(st: EditorState, newId: string): (r: Step)
    ensures st.None? ==> r == Step(None, None)
    ensures st.Some? ==> r.resume.Some? && r.autosave.None?
    ensures st.Some? ==> r.resume.value.data.experience == st.value.data.experience + [BlankExperience(newId)]
    ensures st.Some? ==> OutsideExperience(r.resume.value) == OutsideExperience(st.value)
  {
    match st
    case None => Step(None, None)
    case Some(x) => Step(Some(WithExperience(x, x.data.experience + [BlankExperience(newId)])), None)
  }

  /** `updateExperience(index, field, value)`: only that field of that entry changes. */
  function UpdateExperience(st: EditorState, index: int, f: ExperienceField, v: FieldValue): (r: Step)
    requires Fits(f, v)
    requires st.Some? ==> 0 <= index < |st.value.data.experience|
    ensures st.None? ==> r == Step(None, None)
    ensures st.Some? ==> r.resume.Some? && r.autosave.None?
    ensures st.Some? ==>
      var before := st.value.data.experience;
      var after := r.resume.value.data.experience;
      |after| == |before| && after[index] == ExperiencePut(before[index], f, v) &&
      forall j :: 0 <= j < |before| && j != index ==> after[j] == before[j]
    ensures st.Some? ==> OutsideExperience(r.resume.value) == OutsideExperience(st.value)
  {
    match st
    case None => Step(None, None)
    case Some(x) =>
      var es := x.data.experience;
      Step(Some(WithExperience(x, es[index := ExperiencePut(es[index], f, v)])), None)
  }

  /** `deleteExperience(index)`. */
  function DeleteExperience(st: EditorState, index: int): (r: Step)
    ensures st.None? ==> r == Step(None, None)
    ensures st.Some? ==> r.resume.Some? && r.autosave.None?
    ensures st.Some? ==> r.resume.value.data.experience == RemoveAt(st.value.data.experience, index)
    ensures st.Some? ==> OutsideExperience(r.resume.value) == OutsideExperience(st.value)
  {
    match st
    case None => Step(None, None)
    case Some(x) => Step(Some(WithExperience(x, RemoveAt(x.data.experience, index))), None)
  }

  lemma DeleteAddedExperience(st: EditorState, newId: string)
    requires st.Some?
    ensures DeleteExperience(AddExperience(st, newId).resume, |st.value.data.experience|).resume == st
  {
    RemoveLastAppended(st.value.data.experience, BlankExperience(newId));
  }

  lemma ExperienceEditsOverwrite(st: EditorState, index: int, f: ExperienceField, v: FieldValue, w: FieldValue)
    requires st.Some? && 0 <= index < |st.value.data.experience| && Fits(f, v) && Fits(f, w)
    ensures UpdateExperience(UpdateExperience(st, index, f, v).resume, index, f, w) == UpdateExperience(st, index, f, w)
    ensures UpdateExperience(st, index, f, ExperienceGet(st.value.data.experience[index], f)).resume == st
  {
    var es := st.value.data.experience;
    assert ExperiencePut(ExperiencePut(es[index], f, v), f, w) == ExperiencePut(es[index], f, w) by {
      match f
      case Company => case Position => case StartDate => case EndDate => case Current => case Description =>
    }
    var once := es[index := ExperiencePut(es[index], f, v)];
    assert once[index := ExperiencePut(once[index], f, w)] == es[index := ExperiencePut(es[index], f, w)];
    assert WithExperience(WithExperience(st.value, once), once[index := ExperiencePut(once[index], f, w)])
        == WithExperience(st.value, es[index := ExperiencePut(es[index], f, w)]);
    assert es[index := ExperiencePut(es[index], f, ExperienceGet(es[index], f))] == es;
  }

  // ---------------------------------------------------------------- projects

  datatype ProjectField = Name | Description | Link

  function ProjectGet(p: Project, f: ProjectField): string {
    match f
    case Name => p.name
    case Description => p.description
    case Link => p.link
  }

  function ProjectPut(p: Project, f: ProjectField, v: string): (r: Project)
    ensures ProjectGet(r, f) == v
    ensures forall g :: g != f ==> ProjectGet(r, g) == ProjectGet(p, g)
    ensures r.id == p.id
  {
    match f
    case Name => p.(name := v)
    case Description => p.(description := v)
    case Link => p.(link := v)
  }

  function BlankProject(id: string): (p: Project)
    ensures p.id == id && forall f :: ProjectGet(p, f) == ""
  {
    Project(id, "", "", "")
  }

  function WithProjects(x: Resume, ps: seq<Project>): Resume {
    x.(data := x.data.(projects := ps))
  }

  /** `addProject`: one blank entry at the end; nothing else changes. */
  function AddProject(st: EditorState, newId: string): (r: Step)
    ensures st.None? ==> r == Step(None, None)
    ensures st.Some? ==> r.resume.Some? && r.autosave.None?
    ensures st.Some? ==> r.resume.value.data.projects == st.value.data.projects + [BlankProject(newId)]
    ensures st.Some? ==> OutsideProjects(r.resume.value) == OutsideProjects(st.value)
  {
    match st
    case None => Step(None, None)
    case Some(x) => Step(Some(WithProjects(x, x.data.projects + [BlankProject(newId)])), None)
  }

  /** `updateProject(index, field, value)`: only that field of that entry changes. */
  function UpdateProject(st: EditorState, index: int, f: ProjectField, v: string): (r: Step)
    requires st.Some? ==> 0 <= index < |st.value.data.projects|
    ensures st.None? ==> r == Step(None, None)
    ensures st.Some? ==> r.resume.Some? && r.autosave.None?
    ensures st.Some? ==>
      var before := st.value.data.projects;
      var after := r.resume.value.data.projects;
      |after| == |before| && after[index] == ProjectPut(before[index], f, v) &&
      forall j :: 0 <= j < |before| && j != index ==> after[j] == before[j]
    ensures st.Some? ==> OutsideProjects(r.resume.value) == OutsideProjects(st.value)
  {
    match st
    case None => Step(None, None)
    case Some(x) =>
      var ps := x.data.projects;
      Step(Some(WithProjects(x, ps[index := ProjectPut(ps[index], f, v)])), None)
  }

  /** `deleteProject(index)`. */
  function DeleteProject(st: EditorState, index: int): (r: Step)
    ensures st.None? ==> r == Step(None, None)
    ensures st.Some? ==> r.resume.Some? && r.autosave.None?
    ensures st.Some? ==> r.resume.value.data.projects == RemoveAt(st.value.data.projects, index)
    ensures st.Some? ==> OutsideProjects(r.resume.value) == OutsideProjects(st.value)
  {
    match st
    case None => Step(None, None)
    case Some(x) => Step(Some(WithProjects(x, RemoveAt(x.data.projects, index))), None)
  }

  lemma DeleteAddedProject(st: EditorState, newId: string)
    requires st.Some?
    ensures DeleteProject(AddProject(st, newId).resume, |st.value.data.projects|).resume == st
  {
    RemoveLastAppended(st.value.data.projects, BlankProject(newId));
  }

  lemma ProjectEditsOverwrite(st: EditorState, index: int, f: ProjectField, v: string, w: string)
    requires st.Some? && 0 <= index < |st.value.data.projects|
    ensures UpdateProject(UpdateProject(st, index, f, v).resume, index, f, w) == UpdateProject(st, index, f, w)
    ensures UpdateProject(st, index, f, ProjectGet(st.value.data.projects[index], f)).resume == st
  {
    var ps := st.value.data.projects;
    assert ProjectPut(ProjectPut(ps[index], f, v), f, w) == ProjectPut(ps[index], f, w) by {
      match f
      case Name => case Description => case Link =>
    }
    var once := ps[index := ProjectPut(ps[index], f, v)];
    assert once[index := ProjectPut(once[index], f, w)] == ps[index := ProjectPut(ps[index], f, w)];
    assert WithProjects(WithProjects(st.value, once), once[index := ProjectPut(once[index], f, w)])
        == WithProjects(st.value, ps[index := ProjectPut(ps[index], f, w)]);
    assert ps[index := ProjectPut(ps[index], f, ProjectGet(ps[index], f))] == ps;
  }

  // ---------------------------------------------------------------- skills

  /** "Add Skill": an empty skill at the end, through `updateResume`. */
  function AddSkill(st: EditorState): (r: Step)
    ensures st.None? ==> r == Step(None, None)
    ensures st.Some? ==> r.resume.Some? && r.autosave == r.resume
    ensures st.Some? ==> r.resume.value.data.skills == st.value.data.skills + [""]
    ensures st.Some? ==> OutsideSkills(r.resume.value) == OutsideSkills(st.value)
  {
    match st
    case None => Step(None, None)
    case Some(x) => UpdateResume(st, DataPatch(x.data.(skills := x.data.skills + [""])))
  }

  /** Typing in the skill at `index`: `newSkills[index] = value`. */
  function EditSkill(st: EditorState, index: int, v: string): (r: Step)
    requires st.Some? ==> 0 <= index < |st.value.data.skills|
    ensures st.None? ==> r == Step(None, None)
    ensures st.Some? ==> r.resume.Some? && r.autosave == r.resume
    ensures st.Some? ==>
      var before := st.value.data.skills;
      var after := r.resume.value.data.skills;
      |after| == |before| && after[index] == v && forall j :: 0 <= j < |before| && j != index ==> after[j] == before[j]
    ensures st.Some? ==> OutsideSkills(r.resume.value) == OutsideSkills(st.value)
  {
    match st
    case None => Step(None, None)
    case Some(x) => UpdateResume(st, DataPatch(x.data.(skills := x.data.skills[index := v])))
  }

  /** The delete button of the skill at `index`: `filter((_, i) => i !== index)`. */
  function DeleteSkill(st: EditorState, index: int): (r: Step)
    ensures st.None? ==> r == Step(None, None)
    ensures st.Some? ==> r.resume.Some? && r.autosave == r.resume
    ensures st.Some? ==> r.resume.value.data.skills == RemoveAt(st.value.data.skills, index)
    ensures st.Some? ==> OutsideSkills(r.resume.value) == OutsideSkills(st.value)
  {
    match st
    case None => Step(None, None)
    case Some(x) => UpdateResume(st, DataPatch(x.data.(skills := RemoveAt(x.data.skills, index))))
  }

  lemma DeleteAddedSkill(st: EditorState)
    requires st.Some?
    ensures DeleteSkill(AddSkill(st).resume, |st.value.data.skills|).resume == st
  {
    RemoveLastAppended(st.value.data.skills, "");
  }

  /** The last edit of a skill wins, and writing back its own text changes nothing. */
  lemma SkillEditsOverwrite(st: EditorState, index: int, v: string, w: string)
    requires st.Some? && 0 <= index < |st.value.data.skills|
    ensures EditSkill(EditSkill(st, index, v).resume, index, w) == EditSkill(st, index, w)
    ensures EditSkill(st, index, st.value.data.skills[index]).resume == st
  {
    var ks := st.value.data.skills;
    assert ks[index := v][index := w] == ks[index := w];
    assert ks[index := ks[index]] == ks;
  }

  // ---------------------------------------------------------------- personal info

  datatype PersonalField = Name | Email | Phone | Location | Summary

  function PersonalGet(p: PersonalInfo, f: PersonalField): string {
    match f
    case Name => p.name
    case Email => p.email
    case Phone => p.phone
    case Location => p.location
    case Summary => p.summary
  }

  function PersonalPut(p: PersonalInfo, f: PersonalField, v: string): (r: PersonalInfo)
    ensures PersonalGet(r, f) == v
    ensures forall g :: g != f ==> PersonalGet(r, g) == PersonalGet(p, g)
  {
    match f
    case Name => p.(name := v)
    case Email => p.(email := v)
    case Phone => p.(phone := v)
    case Location => p.(location := v)
    case Summary => p.(summary := v)
  }

  /** The five personal-info inputs: `{ ...personalInfo, [field]: value }` through
      `updateResume`; the other four fields keep their values. */
  function EditPersonalInfo(st: EditorState, f: PersonalField, v: string): (r: Step)
    ensures st.None? ==> r == Step(None, None)
    ensures st.Some? ==> r.resume.Some? && r.autosave == r.resume
    ensures st.Some? ==> PersonalGet(r.resume.value.data.personalInfo, f) == v
    ensures st.Some? ==> forall g :: g != f ==>
      PersonalGet(r.resume.value.data.personalInfo, g) == PersonalGet(st.value.data.personalInfo, g)
    ensures st.Some? ==> OutsidePersonalInfo(r.resume.value) == OutsidePersonalInfo(st.value)
  {
    match st
    case None => Step(None, None)
    case Some(x) =>
      UpdateResume(st, DataPatch(x.data.(personalInfo := PersonalPut(x.data.personalInfo, f, v))))
  }

  /** The last edit of a personal-info field wins, and writing back its own value changes
      nothing. */
  lemma PersonalEditsOverwrite(st: EditorState, f: PersonalField, v: string, w: string)
    requires st.Some?
    ensures EditPersonalInfo(EditPersonalInfo(st, f, v).resume, f, w) == EditPersonalInfo(st, f, w)
    ensures EditPersonalInfo(st, f, PersonalGet(st.value.data.personalInfo, f)).resume == st
  {
    var p := st.value.data.personalInfo;
    assert PersonalPut(PersonalPut(p, f, v), f, w) == PersonalPut(p, f, w) by {
      match f
      case Name => case Email => case Phone => case Location => case Summary =>
    }
    assert PersonalPut(p, f, PersonalGet(p, f)) == p by {
      match f
      case Name => case Email => case Phone => case Location => case Summary =>
    }
  }
}
