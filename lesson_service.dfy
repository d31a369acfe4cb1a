/**
 * The lesson service (src/services/lesson.service.ts): listing a chapter's
 * lessons and creating one, straight through `fetch` at `API_BASE_URL`, with
 * the headers built from the access token kept in local storage.
 */
module LessonService {
  import opened Wrappers
  import Json
  import Storage
  import Http
  import LessonSchema

  const AccessTokenKey := "accessToken"
  const FailedToFetch := "Failed to fetch lessons"
  const NotAList := "API did not return a list of lessons"
  const FailedToCreate := "Failed to create lesson"

  /**
   * Lines 13-17 and 34-38: the JSON content type always, and the bearer
   * authorisation exactly when the local access token is present and
   * non-empty.
   */
  method AuthHeaders(local: Storage.Store) returns (headers: map<string, string>)
    ensures Http.BearerHeaders(headers, Storage.GetItem(local, AccessTokenKey))
  {
    var accessToken := Storage.GetItem(local, AccessTokenKey);
    headers := Http.TokenHeaders(accessToken);
  }

  /**
   * Lines 10-28: list a chapter's lessons from `/lessons/chapter/<chapterId>`.
   * A non-2xx status throws before the body is read; a bare array is the
   * list; otherwise a truthy body whose `lessons` is an array holds it;
   * anything else throws.
   */
  method GetLessonsByChapter(base: string, local: Storage.Store, chapterId: string, res: Http.Response)
    returns (x: Http.Exchange<seq<Json.Value>>)
    ensures x.request.transport == Http.PlainFetch && x.request.verb == Http.GET
    ensures x.request.url == base + "/lessons/chapter/" + chapterId && x.request.withCredentials && x.request.body.None?
    ensures Http.BearerHeaders(x.request.headers, Storage.GetItem(local, AccessTokenKey))
    ensures !Http.IsOk(res.status) ==> x.result == Err(FailedToFetch)
    ensures Http.IsOk(res.status) && res.body.Arr? ==> x.result == Ok(res.body.items)
    ensures Http.IsOk(res.status) && !res.body.Arr? ==>
      (x.result.Ok? <==> res.body.Obj? && "lessons" in res.body.fields && res.body.fields["lessons"].Arr?)
    ensures Http.IsOk(res.status) && !res.body.Arr? && x.result.Ok? ==> x.result.value == res.body.fields["lessons"].items
    ensures Http.IsOk(res.status) && x.result.Err? ==> x.result.message == NotAList
  {
    var headers := AuthHeaders(local);
    var request := Http.Request(Http.PlainFetch, Http.GET, base + "/lessons/chapter/" + chapterId, headers, true, None);
    x := Http.Exchange(request, Http.ListResult(res, "lessons", FailedToFetch, NotAList));
  }

  /**
   * Line 43: `{ ...data, chapterId }`. The body has every field of the data
   * and `chapterId`; the argument wins over a `chapterId` the data may hold,
   * and every other field is the data's.
   */
  function CreateLessonBody(data: map<string, Json.Value>, chapterId: string): (v: Json.Value)
    ensures v.Obj? && v.fields.Keys == data.Keys + {"chapterId"}
    ensures v.fields["chapterId"] == Json.Str(chapterId)
    ensures forall k :: k in data && k != "chapterId" ==> v.fields[k] == data[k]
  {
    Json.Obj(data["chapterId" := Json.Str(chapterId)])
  }

  /** For the lesson form's values the body carries exactly the three form fields and the chapter. */
  lemma CreateLessonBodyFromForm(v: LessonSchema.LessonValues, chapterId: string)
    ensures CreateLessonBody(LessonSchema.Fields(v), chapterId).fields.Keys == {"title", "description", "order", "chapterId"}
  {
  }

  /**
   * Lines 30-47: POST the merged body to `/lessons`; a non-2xx status
   * throws, otherwise the decoded body is the created lesson.
   */
  method CreateLesson(base: string, local: Storage.Store, chapterId: string, data: map<string, Json.Value>, res: Http.Response)
    returns (x: Http.Exchange<Json.Value>)
    ensures x.request.transport == Http.PlainFetch && x.request.verb == Http.POST
    ensures x.request.url == base + "/lessons" && x.request.withCredentials
    ensures Http.BearerHeaders(x.request.headers, Storage.GetItem(local, AccessTokenKey))
    ensures x.request.body == Some(CreateLessonBody(data, chapterId))
    ensures x.result.Ok? <==> Http.IsOk(res.status)
    ensures x.result.Ok? ==> x.result.value == res.body
    ensures x.result.Err? ==> x.result.message == FailedToCreate
  {
    var headers := AuthHeaders(local);
    var request := Http.Request(Http.PlainFetch, Http.POST, base + "/lessons", headers, true, Some(CreateLessonBody(data, chapterId)));
    x := Http.Exchange(request, Http.BodyResult(res, FailedToCreate));
  }
}
