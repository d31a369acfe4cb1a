/**
 * The chapter service (src/services/chapter.service.ts): every call goes
 * straight to `fetch` at `API_BASE_URL`, with the headers built from the
 * access token kept in session storage.
 */
module ChapterService {
  import opened Wrappers
  import Json
  import Storage
  import Http

  const AccessTokenKey := "accessToken"
  const FailedToFetch := "Failed to fetch chapters"
  const NotAList := "API did not return a list of chapters"
  const FailedToCreate := "Failed to create chapter"
  const FailedToUpdate := "Failed to update chapter"
  const NotFound := "Chapter not found"

  /** The fields a new chapter is created from. */
  datatype ChapterInput = ChapterInput(title: string, description: string)

  /** The fields an update may carry; each one is optional. */
  datatype ChapterPatch = ChapterPatch(title: Option<string>, description: Option<string>, isPublished: Option<bool>)

  /**
   * Lines 10-17: the JSON content type always, and the bearer authorisation
   * exactly when the session's access token is present and non-empty.
   */
  method GetAuthHeaders(session: Storage.Store) returns (headers: map<string, string>)
    ensures Http.BearerHeaders(headers, Storage.GetItem(session, AccessTokenKey))
  {
    var accessToken := Storage.GetItem(session, AccessTokenKey);
    headers := Http.TokenHeaders(accessToken);
  }

  /** Line 40: the body is the object with exactly the title and the description. */
  function ChapterBody(d: ChapterInput): (v: Json.Value)
    ensures v.Obj? && v.fields.Keys == {"title", "description"}
    ensures v.fields["title"] == Json.Str(d.title) && v.fields["description"] == Json.Str(d.description)
  {
    Json.Obj(map["title" := Json.Str(d.title), "description" := Json.Str(d.description)])
  }

  /**
   * Line 54: `JSON.stringify` of a partial object; a field that was not given
   * is absent from the body, and each given field is carried as it is.
   */
  function PatchBody(p: ChapterPatch): (v: Json.Value)
    ensures v.Obj?
    ensures ("title" in v.fields <==> p.title.Some?) && (p.title.Some? ==> v.fields["title"] == Json.Str(p.title.value))
    ensures ("description" in v.fields <==> p.description.Some?)
      && (p.description.Some? ==> v.fields["description"] == Json.Str(p.description.value))
    ensures ("isPublished" in v.fields <==> p.isPublished.Some?)
      && (p.isPublished.Some? ==> v.fields["isPublished"] == Json.Bool(p.isPublished.value))
    ensures v.fields.Keys <= {"title", "description", "isPublished"}
  {
    var m0: map<string, Json.Value> := map[];
    var m1 := if p.title.Some? then m0["title" := Json.Str(p.title.value)] else m0;
    var m2 := if p.description.Some? then m1["description" := Json.Str(p.description.value)] else m1;
    var m3 := if p.isPublished.Some? then m2["isPublished" := Json.Bool(p.isPublished.value)] else m2;
    Json.Obj(m3)
  }

  /** An update that gives no field sends the empty object. */
  lemma EmptyPatchSendsEmptyObject()
    ensures PatchBody(ChapterPatch(None, None, None)) == Json.Obj(map[])
  {
  }

  /**
   * Lines 19-30: list the chapters. A non-2xx status throws before the body
   * is read; a bare array is the list; otherwise a truthy body whose
   * `chapters` is an array holds it; anything else throws.
   */
  method GetChapters(base: string, session: Storage.Store, res: Http.Response) returns (x: Http.Exchange<seq<Json.Value>>)
    ensures x.request.transport == Http.PlainFetch && x.request.verb == Http.GET
    ensures x.request.url == base + "/chapters" && x.request.withCredentials && x.request.body.None?
    ensures Http.BearerHeaders(x.request.headers, Storage.GetItem(session, AccessTokenKey))
    ensures !Http.IsOk(res.status) ==> x.result == Err(FailedToFetch)
    ensures Http.IsOk(res.status) && res.body.Arr? ==> x.result == Ok(res.body.items)
    ensures Http.IsOk(res.status) && !res.body.Arr? ==>
      (x.result.Ok? <==> res.body.Obj? && "chapters" in res.body.fields && res.body.fields["chapters"].Arr?)
    ensures Http.IsOk(res.status) && !res.body.Arr? && x.result.Ok? ==> x.result.value == res.body.fields["chapters"].items
    ensures Http.IsOk(res.status) && x.result.Err? ==> x.result.message == NotAList
  {
    var headers := GetAuthHeaders(session);
    var request := Http.Request(Http.PlainFetch, Http.GET, base + "/chapters", headers, true, None);
    x := Http.Exchange(request, Http.ListResult(res, "chapters", FailedToFetch, NotAList));
  }

  /** Lines 32-44: create a chapter from exactly its title and description. */
  method CreateChapter(base: string, session: Storage.Store, d: ChapterInput, res: Http.Response) returns (x: Http.Exchange<Json.Value>)
    ensures x.request.transport == Http.PlainFetch && x.request.verb == Http.POST
    ensures x.request.url == base + "/chapters" && x.request.withCredentials
    ensures Http.BearerHeaders(x.request.headers, Storage.GetItem(session, AccessTokenKey))
    ensures x.request.body == Some(ChapterBody(d))
    ensures x.result.Ok? <==> Http.IsOk(res.status)
    ensures x.result.Ok? ==> x.result.value == res.body
    ensures x.result.Err? ==> x.result.message == FailedToCreate
  {
    var headers := GetAuthHeaders(session);
    var request := Http.Request(Http.PlainFetch, Http.POST, base + "/chapters", headers, true, Some(ChapterBody(d)));
    x := Http.Exchange(request, Http.BodyResult(res, FailedToCreate));
  }

  /** Lines 46-58: PUT only the given fields to `/chapters/<chapterId>`. */
  method UpdateChapter(base: string, session: Storage.Store, chapterId: string, p: ChapterPatch, res: Http.Response)
    returns (x: Http.Exchange<Json.Value>)
    ensures x.request.transport == Http.PlainFetch && x.request.verb == Http.PUT
    ensures x.request.url == base + "/chapters/" + chapterId && x.request.withCredentials
    ensures Http.BearerHeaders(x.request.headers, Storage.GetItem(session, AccessTokenKey))
    ensures x.request.body == Some(PatchBody(p))
    ensures x.result.Ok? <==> Http.IsOk(res.status)
    ensures x.result.Ok? ==> x.result.value == res.body
    ensures x.result.Err? ==> x.result.message == FailedToUpdate
  {
    var headers := GetAuthHeaders(session);
    var request := Http.Request(Http.PlainFetch, Http.PUT, base + "/chapters/" + chapterId, headers, true, Some(PatchBody(p)));
    x := Http.Exchange(request, Http.BodyResult(res, FailedToUpdate));
  }

  /** Lines 60-68: GET `/chapters/<chapterId>`; any non-2xx status reads as "not found". */
  method GetChapterById(base: string, session: Storage.Store, chapterId: string, res: Http.Response)
    returns (x: Http.Exchange<Json.Value>)
    ensures x.request.transport == Http.PlainFetch && x.request.verb == Http.GET
    ensures x.request.url == base + "/chapters/" + chapterId && x.request.withCredentials && x.request.body.None?
    ensures Http.BearerHeaders(x.request.headers, Storage.GetItem(session, AccessTokenKey))
    ensures x.result.Ok? <==> Http.IsOk(res.status)
    ensures x.result.Ok? ==> x.result.value == res.body
    ensures x.result.Err? ==> x.result.message == NotFound
  {
    var headers := GetAuthHeaders(session);
    var request := Http.Request(Http.PlainFetch, Http.GET, base + "/chapters/" + chapterId, headers, true, None);
    x := Http.Exchange(request, Http.BodyResult(res, NotFound));
  }
}
