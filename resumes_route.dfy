/** app/api/resumes/route.ts: listing a user's résumés and creating a new one. The
    Mongo collection is a sequence of documents keyed by `_id`; the API shows each
    document with `id` in place of `_id`. Failures of the request body, of the
    connection or of the driver are inputs, and all of them end in a 500. */
module ResumesRoute {
  import opened Collections
  import opened ResumeTypes
  import opened AiRules

  /** A stored document. `userId` and `title` are whatever the creating request sent,
      so either may be absent. */
  datatype Document = Document(
    mongoId: string,
    userId: Option<string>,
    title: Option<string>,
    template: string,
    data: ResumeContent,
    createdAt: Timestamp,
    updatedAt: Timestamp)

  /** A document as the API returns it: `{ ...doc, id: doc._id, _id: undefined }`;
      the undefined `_id` is dropped when the body is serialised. */
  datatype ApiResume = ApiResume(
    id: string,
    userId: Option<string>,
    title: Option<string>,
    template: string,
    data: ResumeContent,
    createdAt: Timestamp,
    updatedAt: Timestamp)

  datatype Body = Error(message: string) | ResumeList(resumes: seq<ApiResume>) | Created(resume: ApiResume)

  datatype Response = Response(status: int, body: Body)

  const UserIdRequired := Response(400, Error("User ID required"))
  const InternalError := Response(500, Error("Internal server error"))

  function ToApi(d: Document): (a: ApiResume)
    ensures a.id == d.mongoId
  {
    ApiResume(d.mongoId, d.userId, d.title, d.template, d.data, d.createdAt, d.updatedAt)
  }

  /** The document an API view came from. */
  function FromApi(a: ApiResume): Document {
    Document(a.id, a.userId, a.title, a.template, a.data, a.createdAt, a.updatedAt)
  }

  /** The transform loses nothing: every field but the id's name survives it. */
  lemma ApiRoundTrip(d: Document, a: ApiResume)
    ensures FromApi(ToApi(d)) == d
    ensures ToApi(FromApi(a)) == a
  {
  }

  /** `userResumes.map(...)`: one view per document, in order. */
  function ToApiAll(ds: seq<Document>): (r: seq<ApiResume>)
    ensures |r| == |ds|
    ensures forall i :: 0 <= i < |ds| ==> r[i] == ToApi(ds[i])
  {
    if |ds| == 0 then [] else [ToApi(ds[0])] + ToApiAll(ds[1..])
  }

  lemma {:induction false} ToApiAllAppend(a: seq<Document>, b: seq<Document>)
    ensures ToApiAll(a + b) == ToApiAll(a) + ToApiAll(b)
  {
    if |a| == 0 {
      assert a + b == b;
    } else {
      assert (a + b)[1..] == a[1..] + b;
      ToApiAllAppend(a[1..], b);
    }
  }

  /** The query `{ userId }`: documents whose `userId` is the requested one. */
  function Owner(userId: string): Document -> bool {
    (d: Document) => d.userId == Some(userId)
  }

  /** `template || "modern"`: an absent or empty template falls back to "modern". */
  function TemplateOrDefault(t: Option<string>): (r: string)
    ensures t.Some? && t.value != "" ==> r == t.value
    ensures t.None? || t.value == "" ==> r == "modern"
    ensures r != ""
  {
    if t.Some? && t.value != "" then t.value else "modern"
  }

  /** The fields the POST body is destructured into. */
  datatype CreateBody = CreateBody(userId: Option<string>, title: Option<string>, template: Option<string>)

  /** The new document: the generated id, the body's owner and title, the template or
      its default, an empty payload, and the two clock readings. */
  function NewDocument(id: string, body: CreateBody, createdAt: Timestamp, updatedAt: Timestamp): (d: Document)
    ensures d.mongoId == id && d.userId == body.userId && d.title == body.title
    ensures d.template == TemplateOrDefault(body.template) && d.template != ""
    ensures d.data == EmptyContent
    ensures d.createdAt == createdAt && d.updatedAt == updatedAt
  {
    Document(id, body.userId, body.title, TemplateOrDefault(body.template), EmptyContent, createdAt, updatedAt)
  }

  /** A fresh résumé scores the ATS baseline of 50 and gets all four pieces of advice. */
  lemma NewResumeAtsBaseline(id: string, body: CreateBody, createdAt: Timestamp, updatedAt: Timestamp)
    ensures AtsReport(NewDocument(id, body, createdAt, updatedAt).data) == AtsResult(50, Advice)
  {
    EmptyContentScore();
  }

  /** The résumés collection. */
  class Collection {
    var docs: seq<Document>

    constructor (docs: seq<Document>)
      ensures this.docs == docs
    {
      this.docs := docs;
    }

    /** `GET /api/resumes?userId=…`. `userId` is the query parameter (`None` when it is
        missing); `available` says whether the connection and the query succeed. */
    method Get(userId: Option<string>, available: bool) returns (r: Response)
      ensures userId.None? || userId.value == "" ==> r == UserIdRequired
      ensures userId.Some? && userId.value != "" && !available ==> r == InternalError
      ensures userId.Some? && userId.value != "" && available ==>
        r.status == 200 && r.body.ResumeList? &&
        r.body.resumes == ToApiAll(Filter(docs, Owner(userId.value)))
      ensures r.status == 200 ==> forall a | a in r.body.resumes :: a.userId == userId && FromApi(a) in docs
    {
      if userId.None? || userId.value == "" {
        return UserIdRequired;
      }
      if !available {
        return InternalError;
      }
      var owned := Filter(docs, Owner(userId.value));
      var views := ToApiAll(owned);
      forall a | a in views
        ensures a.userId == userId && FromApi(a) in docs
      {
        var i :| 0 <= i < |views| && views[i] == a;
        assert owned[i] in owned;
      }
      r := Response(200, ResumeList(views));
    }

    /** `POST /api/resumes`. `body` is the parsed request (`None` when parsing fails),
        `newId` the generated UUID, `createdAt`/`updatedAt` the two clock readings and
        `available` whether the connection and the insert succeed. */
    method Post(body: Option<CreateBody>, newId: string, createdAt: Timestamp, updatedAt: Timestamp, available: bool)
      returns (r: Response)
      modifies this
      ensures body.None? || !available ==> r == InternalError && docs == old(docs)
      ensures body.Some? && available ==>
        var d := NewDocument(newId, body.value, createdAt, updatedAt);
        docs == old(docs) + [d] && r == Response(201, Created(ToApi(d)))
    {
      if body.None? || !available {
        return InternalError;
      }
      var d := NewDocument(newId, body.value, createdAt, updatedAt);
      docs := docs + [d];
      r := Response(201, Created(ToApi(d)));
    }
  }

  /** After a successful POST, the owner's listing is the old listing followed by the
      new résumé, exactly as the POST returned it. */
  lemma PostedResumeIsListed(docs: seq<Document>, userId: string, newId: string, body: CreateBody,
                             createdAt: Timestamp, updatedAt: Timestamp)
    requires body.userId == Some(userId)
    ensures var d := NewDocument(newId, body, createdAt, updatedAt);
      ToApiAll(Filter(docs + [d], Owner(userId))) == ToApiAll(Filter(docs, Owner(userId))) + [ToApi(d)]
  {
    var d := NewDocument(newId, body, createdAt, updatedAt);
    FilterConcat(docs, [d], Owner(userId));
    assert Filter([d], Owner(userId)) == [d];
    ToApiAllAppend(Filter(docs, Owner(userId)), [d]);
  }

  /** Another user's POST leaves a listing unchanged. */
  lemma OthersPostsAreNotListed(docs: seq<Document>, userId: string, newId: string, body: CreateBody,
                                createdAt: Timestamp, updatedAt: Timestamp)
    requires body.userId != Some(userId)
    ensures var d := NewDocument(newId, body, createdAt, updatedAt);
      ToApiAll(Filter(docs + [d], Owner(userId))) == ToApiAll(Filter(docs, Owner(userId)))
  {
    var d := NewDocument(newId, body, createdAt, updatedAt);
    FilterConcat(docs, [d], Owner(userId));
    assert Filter([d], Owner(userId)) == [];
    assert Filter(docs, Owner(userId)) + [] == Filter(docs, Owner(userId));
  }
}
