/** The record shapes of lib/localDb.ts and components/resume-editor.tsx: a user, and a
    résumé with its personal info, ordered entry lists and string lists. `Partial<T>`
    updates are patches with one optional value per top-level field, merged the way
    `Object.assign` / object spread merge them. */
module ResumeTypes {
  import opened Collections

  /** An ISO-8601 time as produced by `new Date().toISOString()`. */
  type Timestamp = string

  datatype User = User(id: string, email: string, name: string, passwordHash: string, createdAt: Timestamp)

  datatype PersonalInfo = PersonalInfo(name: string, email: string, phone: string, location: string, summary: string)

  datatype Education = Education(id: string, school: string, degree: string, field: string,
                                 startDate: string, endDate: string)

  datatype Experience = Experience(id: string, company: string, position: string, startDate: string,
                                   endDate: string, current: bool, description: string)

  datatype Project = Project(id: string, name: string, description: string, link: string)

  /** The résumé payload (`Resume.data`). */
  datatype ResumeContent = ResumeContent(
    personalInfo: PersonalInfo,
    education: seq<Education>,
    experience: seq<Experience>,
    skills: seq<string>,
    projects: seq<Project>,
    achievements: seq<string>)

  /** `template` is declared as "minimal" | "modern" | "professional" but nothing checks it,
      so any text can be stored. */
  datatype Resume = Resume(
    id: string,
    userId: string,
    title: string,
    template: string,
    data: ResumeContent,
    createdAt: Timestamp,
    updatedAt: Timestamp)

  /** The payload every new résumé starts with. */
  const EmptyPersonalInfo := PersonalInfo("", "", "", "", "")
  const EmptyContent := ResumeContent(EmptyPersonalInfo, [], [], [], [], [])

  /** `Partial<Resume>`: the fields an update supplies. */
  datatype ResumePatch = ResumePatch(
    id: Option<string>,
    userId: Option<string>,
    title: Option<string>,
    template: Option<string>,
    data: Option<ResumeContent>,
    createdAt: Option<Timestamp>,
    updatedAt: Option<Timestamp>)

  const NoResumeChanges := ResumePatch(None, None, None, None, None, None, None)

  /** A patch that replaces only the payload, as the editor's field edits send. */
  function DataPatch(d: ResumeContent): ResumePatch {
    NoResumeChanges.(data := Some(d))
  }

  function Pick<T>(o: Option<T>, v: T): T {
    if o.Some? then o.value else v
  }

  /** `{ ...r, ...u }`: every field the patch supplies overwrites the record's. */
  function MergeResume(r: Resume, u: ResumePatch): (m: Resume)
    ensures u.id.None? ==> m.id == r.id
    ensures u.id.Some? ==> m.id == u.id.value
    ensures u.userId.None? ==> m.userId == r.userId
    ensures u.userId.Some? ==> m.userId == u.userId.value
    ensures u.title.None? ==> m.title == r.title
    ensures u.title.Some? ==> m.title == u.title.value
    ensures u.template.None? ==> m.template == r.template
    ensures u.template.Some? ==> m.template == u.template.value
    ensures u.data.None? ==> m.data == r.data
    ensures u.data.Some? ==> m.data == u.data.value
    ensures u.createdAt.None? ==> m.createdAt == r.createdAt
    ensures u.createdAt.Some? ==> m.createdAt == u.createdAt.value
    ensures u.updatedAt.None? ==> m.updatedAt == r.updatedAt
    ensures u.updatedAt.Some? ==> m.updatedAt == u.updatedAt.value
  {
    Resume(Pick(u.id, r.id), Pick(u.userId, r.userId), Pick(u.title, r.title), Pick(u.template, r.template),
           Pick(u.data, r.data), Pick(u.createdAt, r.createdAt), Pick(u.updatedAt, r.updatedAt))
  }

  /** `{ ...u, ...v }`: two successive updates combined, the later one winning. */
  function ThenResumePatch(u: ResumePatch, v: ResumePatch): ResumePatch {
    ResumePatch(if v.id.Some? then v.id else u.id,
                if v.userId.Some? then v.userId else u.userId,
                if v.title.Some? then v.title else u.title,
                if v.template.Some? then v.template else u.template,
                if v.data.Some? then v.data else u.data,
                if v.createdAt.Some? then v.createdAt else u.createdAt,
                if v.updatedAt.Some? then v.updatedAt else u.updatedAt)
  }

  /** Last writer wins: applying two patches in turn is applying their combination. */
  lemma MergeResumeTwice(r: Resume, u: ResumePatch, v: ResumePatch)
    ensures MergeResume(MergeResume(r, u), v) == MergeResume(r, ThenResumePatch(u, v))
  {
  }

  /** A patch read back from the record it produced is already in place: merging it
      again changes nothing. */
  lemma MergeResumeIdempotent(r: Resume, u: ResumePatch)
    ensures MergeResume(MergeResume(r, u), u) == MergeResume(r, u)
  {
  }

  /** `Partial<User>`. */
  datatype UserPatch = UserPatch(
    id: Option<string>,
    email: Option<string>,
    name: Option<string>,
    passwordHash: Option<string>,
    createdAt: Option<Timestamp>)

  /** `Object.assign(user, updates)`. */
  function MergeUser(x: User, u: UserPatch): (m: User)
    ensures u.id.None? ==> m.id == x.id
    ensures u.id.Some? ==> m.id == u.id.value
    ensures u.email.None? ==> m.email == x.email
    ensures u.email.Some? ==> m.email == u.email.value
    ensures u.name.None? ==> m.name == x.name
    ensures u.name.Some? ==> m.name == u.name.value
    ensures u.passwordHash.None? ==> m.passwordHash == x.passwordHash
    ensures u.passwordHash.Some? ==> m.passwordHash == u.passwordHash.value
    ensures u.createdAt.None? ==> m.createdAt == x.createdAt
    ensures u.createdAt.Some? ==> m.createdAt == u.createdAt.value
  {
    User(Pick(u.id, x.id), Pick(u.email, x.email), Pick(u.name, x.name),
         Pick(u.passwordHash, x.passwordHash), Pick(u.createdAt, x.createdAt))
  }
}
