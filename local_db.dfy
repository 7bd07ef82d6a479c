/** lib/localDb.ts: the file-backed store of users and résumés. Every operation reads
    the whole database, changes the arrays in place and writes it back; here the two
    arrays are the fields of one object, `Load` is what `readDb` yields and `Snapshot`
    is what `writeDb` stores. */
module LocalDb {
  import opened Collections
  import opened ResumeTypes

  datatype Database = Database(users: seq<User>, resumes: seq<Resume>)

  class Store {
    var users: seq<User>
    var resumes: seq<Resume>

    constructor ()
      ensures users == [] && resumes == []
    {
      users := [];
      resumes := [];
    }

    /** `readDb`: the parsed file, or the empty database when reading or parsing fails
        (`file` is `None`). */
    method Load(file: Option<Database>)
      modifies this
      ensures file.None? ==> users == [] && resumes == []
      ensures file.Some? ==> users == file.value.users && resumes == file.value.resumes
    {
      match file
      case None =>
        users, resumes := [], [];
      case Some(db) =>
        users, resumes := db.users, db.resumes;
    }

    /** What `writeDb` serialises. */
    function Snapshot(): (db: Database)
      reads this
      ensures db.users == users && db.resumes == resumes
    {
      Database(users, resumes)
    }

    method GetUsers() returns (r: seq<User>)
      ensures r == users
    {
      r := users;
    }

    /** `users.find(u => u.email === email)`: the first user with that email. */
    method GetUserByEmail(email: string) returns (r: Option<User>)
      ensures r.None? <==> forall i :: 0 <= i < |users| ==> users[i].email != email
      ensures r.Some? ==> exists i :: 0 <= i < |users| && users[i] == r.value && r.value.email == email &&
                                      forall j :: 0 <= j < i ==> users[j].email != email
    {
      r := Find(users, (u: User) => u.email == email);
    }

    /** `users.find(u => u.id === id)`: the first user with that id. */
    method GetUserById(id: string) returns (r: Option<User>)
      ensures r.None? <==> forall i :: 0 <= i < |users| ==> users[i].id != id
      ensures r.Some? ==> exists i :: 0 <= i < |users| && users[i] == r.value && r.value.id == id &&
                                      forall j :: 0 <= j < i ==> users[j].id != id
    {
      r := Find(users, (u: User) => u.id == id);
    }

    /** `users.push(user)`: no check that the id or email is new. */
    method SaveUser(user: User)
      modifies this
      ensures users == old(users) + [user]
      ensures resumes == old(resumes)
    {
      users := users + [user];
    }

    /** `Object.assign` on the first user with that id; nothing changes when there is none. */
    method UpdateUser(id: string, updates: UserPatch)
      modifies this
      ensures resumes == old(resumes)
      ensures FirstIndex(old(users), (u: User) => u.id == id).None? ==> users == old(users)
      ensures FirstIndex(old(users), (u: User) => u.id == id).Some? ==>
        var k := FirstIndex(old(users), (u: User) => u.id == id).value;
        users == old(users)[k := MergeUser(old(users)[k], updates)]
    {
      match FirstIndex(users, (u: User) => u.id == id)
      case None =>
      case Some(k) =>
        users := users[k := MergeUser(users[k], updates)];
    }

    /** Removes every user with that id and, cascading, every résumé they own. */
    method DeleteUser(id: string)
      modifies this
      ensures users == Filter(old(users), (u: User) => u.id != id)
      ensures resumes == Filter(old(resumes), (r: Resume) => r.userId != id)
      ensures forall u | u in users :: u.id != id
      ensures forall r | r in resumes :: r.userId != id
      ensures forall u | u in old(users) && u.id != id :: multiset(users)[u] == multiset(old(users))[u]
      ensures forall r | r in old(resumes) && r.userId != id :: multiset(resumes)[r] == multiset(old(resumes))[r]
    {
      users := Filter(users, (u: User) => u.id != id);
      resumes := Filter(resumes, (r: Resume) => r.userId != id);
    }

    /** `resumes.filter(r => r.userId === userId)`: exactly that user's résumés, each as
        often as it is stored, in stored order. */
    method GetResumesByUser(userId: string) returns (r: seq<Resume>)
      ensures r == Filter(resumes, (x: Resume) => x.userId == userId)
      ensures forall x | x in r :: x.userId == userId
      ensures forall x | x in resumes && x.userId == userId :: multiset(r)[x] == multiset(resumes)[x]
    {
      r := Filter(resumes, (x: Resume) => x.userId == userId);
    }

    /** `resumes.find(r => r.id === id)`: the first résumé with that id. */
    method GetResume(id: string) returns (r: Option<Resume>)
      ensures r.None? <==> forall i :: 0 <= i < |resumes| ==> resumes[i].id != id
      ensures r.Some? ==> exists i :: 0 <= i < |resumes| && resumes[i] == r.value && r.value.id == id &&
                                      forall j :: 0 <= j < i ==> resumes[j].id != id
    {
      r := Find(resumes, (x: Resume) => x.id == id);
    }

    /** `resumes.push(resume)`: no check that the id is new. */
    method SaveResume(resume: Resume)
      modifies this
      ensures resumes == old(resumes) + [resume]
      ensures users == old(users)
    {
      resumes := resumes + [resume];
    }

    /** `Object.assign(resume, { ...updates, updatedAt: now })` on the first résumé with
        that id: every supplied field is merged, `id` included, and `updatedAt` is the
        current time whatever the update says. Nothing changes when there is no such résumé. */
    method UpdateResume(id: string, updates: ResumePatch, now: Timestamp)
      modifies this
      ensures users == old(users)
      ensures FirstIndex(old(resumes), (x: Resume) => x.id == id).None? ==> resumes == old(resumes)
      ensures FirstIndex(old(resumes), (x: Resume) => x.id == id).Some? ==>
        var k := FirstIndex(old(resumes), (x: Resume) => x.id == id).value;
        resumes == old(resumes)[k := StampedMerge(old(resumes)[k], updates, now)]
    {
      match FirstIndex(resumes, (x: Resume) => x.id == id)
      case None =>
      case Some(k) =>
        resumes := resumes[k := StampedMerge(resumes[k], updates, now)];
    }

    /** `resumes.filter(r => r.id !== id)`: every résumé with that id goes; users stay. */
    method DeleteResume(id: string)
      modifies this
      ensures resumes == Filter(old(resumes), (x: Resume) => x.id != id)
      ensures forall x | x in resumes :: x.id != id
      ensures forall x | x in old(resumes) && x.id != id :: multiset(resumes)[x] == multiset(old(resumes))[x]
      ensures users == old(users)
    {
      resumes := Filter(resumes, (x: Resume) => x.id != id);
    }
  }

  /** The record `updateResume` leaves behind: the update merged in, then stamped. */
  function StampedMerge(r: Resume, updates: ResumePatch, now: Timestamp): (m: Resume)
    ensures m.updatedAt == now
    ensures m == MergeResume(r, updates.(updatedAt := Some(now)))
  {
    MergeResume(r, updates).(updatedAt := now)
  }

  /** A supplied id is taken over: the update can rename the résumé. */
  lemma UpdateCanChangeId(r: Resume, updates: ResumePatch, now: Timestamp)
    requires updates.id.Some?
    ensures StampedMerge(r, updates, now).id == updates.id.value
  {
  }

  /** An update that supplies nothing still refreshes the timestamp, and only it. */
  lemma EmptyUpdateOnlyStamps(r: Resume, now: Timestamp)
    ensures StampedMerge(r, NoResumeChanges, now) == r.(updatedAt := now)
  {
  }
}
