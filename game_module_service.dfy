/**
 * Game modules of a lesson (src/services/game-module.service.ts): the closed
 * three-variant request envelope `{ gameType, contract }` built from a
 * module's form values, the create call, and the decoding of a lesson's
 * module list.
 */
module GameModuleService {
  import opened Wrappers
  import Json
  import Http

  /** A choice of a multiple-choice question, or a candidate word for a blank. */
  datatype Choice = Choice(text: string, isCorrect: bool, correctionMessage: string)

  /** The three kinds of game module; the set is closed. */
  datatype GameType = Mcq | FillInTheBlank | TrueOrFalse

  /** The `gameType` tag each kind travels under. */
  function Tag(t: GameType): string
  {
    match t
    case Mcq => "MCQ"
    case FillInTheBlank => "FILL_IN_THE_BLANK"
    case TrueOrFalse => "TRUE_OR_FALSE"
  }

  /** The form values of a game module, one variant per kind. */
  datatype FormValues =
    | McqForm(question: string, choices: seq<Choice>)
    | FillInTheBlankForm(firstText: string, secondText: string, blanks: seq<Choice>)
    | TrueOrFalseForm(sentence: string, isTrue: bool)
  {
    /** The form's own `gameType`. */
    function GameType(): GameType
    {
      match this
      case McqForm(_, _) => Mcq
      case FillInTheBlankForm(_, _, _) => FillInTheBlank
      case TrueOrFalseForm(_, _) => TrueOrFalse
    }
  }

  /** The fields a kind's `contract` object holds. */
  function ContractKeys(t: GameType): set<string>
  {
    match t
    case Mcq => {"question", "choices"}
    case FillInTheBlank => {"firstText", "secondText", "blanks"}
    case TrueOrFalse => {"sentence", "isTrue"}
  }

  /** A choice as the object `{ text, isCorrect, correctionMessage }`. */
  function EncodeChoice(c: Choice): Json.Value
  {
    Json.Obj(map["text" := Json.Str(c.text), "isCorrect" := Json.Bool(c.isCorrect),
                 "correctionMessage" := Json.Str(c.correctionMessage)])
  }

  /** A list of choices as an array of choice objects, in order. */
  function EncodeChoices(cs: seq<Choice>): (vs: seq<Json.Value>)
    ensures |vs| == |cs| && forall i :: 0 <= i < |cs| ==> vs[i] == EncodeChoice(cs[i])
  {
    seq(|cs|, i requires 0 <= i < |cs| => EncodeChoice(cs[i]))
  }

  /** Reads a choice object back; anything else is no choice. */
  function DecodeChoice(v: Json.Value): Option<Choice>
  {
    if && v.Obj?
       && "text" in v.fields && v.fields["text"].Str?
       && "isCorrect" in v.fields && v.fields["isCorrect"].Bool?
       && "correctionMessage" in v.fields && v.fields["correctionMessage"].Str?
    then Some(Choice(v.fields["text"].s, v.fields["isCorrect"].b, v.fields["correctionMessage"].s))
    else None
  }

  /** Reads an array of choice objects back, or nothing if one of them is no choice. */
  function DecodeChoices(vs: seq<Json.Value>): (r: Option<seq<Choice>>)
    ensures r.Some? ==> |r.value| == |vs|
  {
    if vs == [] then Some([])
    else match (DecodeChoice(vs[0]), DecodeChoices(vs[1..]))
      case (Some(c), Some(rest)) => Some([c] + rest)
      case _ => None
  }

  /** Choices survive the trip into the request and back, in order. */
  lemma {:induction false} ChoicesRoundTrip(cs: seq<Choice>)
    ensures DecodeChoices(EncodeChoices(cs)) == Some(cs)
  {
    if cs != [] {
      assert EncodeChoices(cs)[1..] == EncodeChoices(cs[1..]);
      ChoicesRoundTrip(cs[1..]);
      assert [cs[0]] + cs[1..] == cs;
    }
  }

  /**
   * Lines 139-165: the request envelope of `createGameModule`. Its
   * `gameType` is the form's tag, and its `contract` holds exactly the fields
   * of that kind, copied from the form.
   */
  function Payload(form: FormValues): (p: Json.Value)
    ensures p.Obj? && p.fields.Keys == {"gameType", "contract"}
    ensures p.fields["gameType"] == Json.Str(Tag(form.GameType()))
    ensures p.fields["contract"].Obj? && p.fields["contract"].fields.Keys == ContractKeys(form.GameType())
  {
    var contract := match form
      case McqForm(question, choices) =>
        map["question" := Json.Str(question), "choices" := Json.Arr(EncodeChoices(choices))]
      case FillInTheBlankForm(firstText, secondText, blanks) =>
        map["firstText" := Json.Str(firstText), "secondText" := Json.Str(secondText),
            "blanks" := Json.Arr(EncodeChoices(blanks))]
      case TrueOrFalseForm(sentence, isTrue) =>
        map["sentence" := Json.Str(sentence), "isTrue" := Json.Bool(isTrue)];
    Json.Obj(map["gameType" := Json.Str(Tag(form.GameType())), "contract" := Json.Obj(contract)])
  }

  /**
   * Reads an envelope the way its receiver would: the tag selects the
   * variant and the contract's fields fill it.
   */
  function DecodePayload(p: Json.Value): Option<FormValues>
  {
    if !(p.Obj? && "gameType" in p.fields && "contract" in p.fields && p.fields["contract"].Obj?) then None
    else
      var tag, c := p.fields["gameType"], p.fields["contract"].fields;
      if tag == Json.Str(Tag(Mcq)) then
        if "question" in c && c["question"].Str? && "choices" in c && c["choices"].Arr? then
          match DecodeChoices(c["choices"].items)
          case Some(choices) => Some(McqForm(c["question"].s, choices))
          case None => None
        else None
      else if tag == Json.Str(Tag(FillInTheBlank)) then
        if && "firstText" in c && c["firstText"].Str? && "secondText" in c && c["secondText"].Str?
           && "blanks" in c && c["blanks"].Arr?
        then
          match DecodeChoices(c["blanks"].items)
          case Some(blanks) => Some(FillInTheBlankForm(c["firstText"].s, c["secondText"].s, blanks))
          case None => None
        else None
      else if tag == Json.Str(Tag(TrueOrFalse)) then
        if "sentence" in c && c["sentence"].Str? && "isTrue" in c && c["isTrue"].Bool? then
          Some(TrueOrFalseForm(c["sentence"].s, c["isTrue"].b))
        else None
      else None
  }

  /** The envelope loses nothing: every form value is copied unchanged and can be read back. */
  lemma PayloadRoundTrip(form: FormValues)
    ensures DecodePayload(Payload(form)) == Some(form)
  {
    match form
    case McqForm(_, choices) => ChoicesRoundTrip(choices);
    case FillInTheBlankForm(_, _, blanks) => ChoicesRoundTrip(blanks);
    case TrueOrFalseForm(_, _) =>
  }

  const FailedToCreate := "Failed to create game module"
  const FailedToFetch := "Failed to fetch lesson"
  const NotAList := "API did not return a list of modules"

  /**
   * Lines 132-179: POST the envelope to `<base>/lessons/<lessonId>/modules`
   * through the authenticated client; a non-2xx status throws, otherwise the
   * decoded body is the created module.
   */
  function CreateGameModule(base: string, lessonId: string, form: FormValues, res: Http.Response): (x: Http.Exchange<Json.Value>)
    ensures x.request.transport == Http.AuthClient && x.request.verb == Http.POST
    ensures x.request.url == base + "/lessons/" + lessonId + "/modules"
    ensures x.request.headers == Http.JsonHeaders && x.request.withCredentials
    ensures x.request.body == Some(Payload(form)) && DecodePayload(x.request.body.value) == Some(form)
    ensures x.result.Ok? <==> Http.IsOk(res.status)
    ensures x.result.Ok? ==> x.result.value == res.body
    ensures x.result.Err? ==> x.result.message == FailedToCreate
  {
    PayloadRoundTrip(form);
    var request := Http.Request(Http.AuthClient, Http.POST, base + "/lessons/" + lessonId + "/modules",
                                Http.JsonHeaders, true, Some(Payload(form)));
    Http.Exchange(request, Http.BodyResult(res, FailedToCreate))
  }

  /**
   * Lines 115-130: GET `<base>/lessons/<lessonId>` through the authenticated
   * client. A non-2xx status throws before the body is inspected. The list is
   * the body's `modules` exactly when that is an array; a bare array, `null`
   * or a missing or non-array `modules` throws. The second test of
   * `getGameModulesByLesson` (line 126) is implied by the first (line 123), so
   * the outcome depends on the first alone.
   */
  function GetGameModulesByLesson(base: string, lessonId: string, res: Http.Response): (x: Http.Exchange<seq<Json.Value>>)
    ensures x.request == Http.Request(Http.AuthClient, Http.GET, base + "/lessons/" + lessonId, map[], false, None)
    ensures !Http.IsOk(res.status) ==> x.result == Err(FailedToFetch)
    ensures Http.IsOk(res.status) ==>
      (x.result.Ok? <==> res.body.Obj? && "modules" in res.body.fields && res.body.fields["modules"].Arr?)
    ensures Http.IsOk(res.status) && x.result.Err? ==> x.result.message == NotAList
    ensures x.result.Ok? ==> x.result.value == res.body.fields["modules"].items
  {
    var request := Http.Request(Http.AuthClient, Http.GET, base + "/lessons/" + lessonId, map[], false, None);
    var data := res.body;
    var modules := Json.Member(data, "modules");
    // Both tests of `getGameModulesByLesson` (lines 123 and 126) return the same list, so they read as one disjunction.
    var firstTest := Json.Truthy(data) && Json.IsArray(modules);
    var secondTest := Json.Truthy(data) && Json.TruthyMember(modules) && Json.IsArray(modules);
    var result :=
      if !Http.IsOk(res.status) then Err(FailedToFetch)
      else if firstTest || secondTest then Ok(modules.value.items)
      else Err(NotAList);
    Http.Exchange(request, result)
  }
}
