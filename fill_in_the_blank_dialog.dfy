/**
 * The fill-in-the-blank creation dialog
 * (src/components/fill-in-the-blank-module-create-dialog.tsx): the list of
 * blank entries the user edits, the submit-time trimming and validation, and
 * the error line the dialog shows.
 */
module FillInTheBlankDialog {
  import opened Wrappers
  import opened Text
  import GameModuleService

  type Choice = GameModuleService.Choice
  type FormValues = GameModuleService.FormValues

  /** A blank entry as the form holds it; its correction message may be absent. */
  datatype BlankField = BlankField(text: string, isCorrect: bool, correctionMessage: Option<string>)

  /** The dialog's form values. */
  datatype Values = Values(firstText: string, secondText: string, blanks: seq<BlankField>)

  /** The entry `{ text: '', isCorrect: false, correctionMessage: '' }` that a new blank starts as. */
  const EmptyBlank := BlankField("", false, Some(""))

  /** Lines 21-29: empty texts and two empty blank entries. */
  const DefaultValues := Values("", "", [EmptyBlank, EmptyBlank])

  const TooFewChoices := "Ajoutez au moins deux choix non vides."
  const NoCorrectChoice := "Marquez au moins une bonne réponse."

  /**
   * Lines 56-60: an entry with its text and correction message trimmed, an
   * absent message read as `""`, and its correctness kept.
   */
  function TrimBlank(b: BlankField): (c: Choice)
    ensures c.text == Trim(b.text) && c.isCorrect == b.isCorrect
    ensures b.correctionMessage.None? ==> c.correctionMessage == ""
    ensures b.correctionMessage.Some? ==> c.correctionMessage == Trim(b.correctionMessage.value)
  {
    GameModuleService.Choice(Trim(b.text),
                             b.isCorrect,
                             if b.correctionMessage.Some? then Trim(b.correctionMessage.value) else "")
  }

  /** Lines 56-60 over the whole list, entry by entry. */
  function TrimBlanks(bs: seq<BlankField>): (cs: seq<Choice>)
    ensures |cs| == |bs| && forall i :: 0 <= i < |bs| ==> cs[i] == TrimBlank(bs[i])
  {
    seq(|bs|, i requires 0 <= i < |bs| => TrimBlank(bs[i]))
  }

  /**
   * Line 61: the entries whose text is non-empty. Only such entries are kept,
   * every such entry is kept, and nothing is added.
   */
  function NonEmpty(cs: seq<Choice>): (r: seq<Choice>)
    ensures |r| <= |cs|
    ensures forall i :: 0 <= i < |r| ==> r[i].text != "" && r[i] in cs
    ensures forall c :: c in cs && c.text != "" ==> c in r
  {
    if cs == [] then []
    else if cs[0].text != "" then [cs[0]] + NonEmpty(cs[1..])
    else NonEmpty(cs[1..])
  }

  /** The filter keeps the relative order: filtering a concatenation concatenates the filtered parts. */
  lemma {:induction false} NonEmptyAppend(a: seq<Choice>, b: seq<Choice>)
    ensures NonEmpty(a + b) == NonEmpty(a) + NonEmpty(b)
  {
    if a == [] {
      assert a + b == b;
    } else {
      assert (a + b)[0] == a[0];
      assert (a + b)[1..] == a[1..] + b;
      NonEmptyAppend(a[1..], b);
      if a[0].text != "" {
        calc {
          NonEmpty(a + b);
          [a[0]] + NonEmpty(a[1..] + b);
          [a[0]] + (NonEmpty(a[1..]) + NonEmpty(b));
          ([a[0]] + NonEmpty(a[1..])) + NonEmpty(b);
        }
      }
    }
  }

  /** A list of entries that all have text passes the filter unchanged. */
  lemma {:induction false} NonEmptyKeepsFilled(cs: seq<Choice>)
    requires forall i :: 0 <= i < |cs| ==> cs[i].text != ""
    ensures NonEmpty(cs) == cs
  {
    if cs != [] {
      NonEmptyKeepsFilled(cs[1..]);
    }
  }

  /** Lines 56-61: the trimmed entries that still have text, in their original order. */
  function Survivors(bs: seq<BlankField>): (r: seq<Choice>)
    ensures |r| <= |bs|
    ensures forall i :: 0 <= i < |r| ==> r[i].text != "" && Trim(r[i].text) == r[i].text
  {
    TrimmedTexts(bs);
    NonEmpty(TrimBlanks(bs))
  }

  /** Every trimmed entry's text is its own trim. */
  lemma TrimmedTexts(bs: seq<BlankField>)
    ensures forall c :: c in TrimBlanks(bs) ==> Trim(c.text) == c.text
  {
    var cs := TrimBlanks(bs);
    forall i | 0 <= i < |cs|
      ensures Trim(cs[i].text) == cs[i].text
    {
      TrimIdempotent(bs[i].text);
    }
  }

  /** Some entry is marked correct (`.some(c => c.isCorrect)`). */
  predicate SomeCorrect(cs: seq<Choice>)
  {
    exists i :: 0 <= i < |cs| && cs[i].isCorrect
  }

  /**
   * What the dialog may send: a fill-in-the-blank form with at least two
   * blanks, each with non-empty trimmed text, and at least one of them correct.
   */
  predicate Submittable(f: FormValues)
  {
    && f.FillInTheBlankForm?
    && |f.blanks| >= 2
    && (forall i :: 0 <= i < |f.blanks| ==> f.blanks[i].text != "" && Trim(f.blanks[i].text) == f.blanks[i].text)
    && SomeCorrect(f.blanks)
  }

  /**
   * Lines 54-75: the payload `onSubmit` builds, or the message it shows
   * instead. Fewer than two surviving entries is refused first; then no
   * correct entry; otherwise the payload carries the trimmed texts and the
   * survivors.
   */
  function CheckSubmission(v: Values): (r: Result<FormValues>)
    ensures var s := Survivors(v.blanks);
      && (|s| < 2 ==> r == Err(TooFewChoices))
      && (|s| >= 2 && !SomeCorrect(s) ==> r == Err(NoCorrectChoice))
      && (|s| >= 2 && SomeCorrect(s) ==> r == Ok(GameModuleService.FillInTheBlankForm(Trim(v.firstText), Trim(v.secondText), s)))
    ensures r.Ok? ==> Submittable(r.value)
  {
    var nonEmpty := Survivors(v.blanks);
    if |nonEmpty| < 2 then Err(TooFewChoices)
    else if !SomeCorrect(nonEmpty) then Err(NoCorrectChoice)
    else Ok(GameModuleService.FillInTheBlankForm(Trim(v.firstText), Trim(v.secondText), nonEmpty))
  }

  /**
   * The `required` rules of the inputs (lines 104-106, 121-123, 161-163),
   * which `handleSubmit` checks before it calls `onSubmit`: both texts and
   * every entry's text are non-empty (whitespace counts as content here).
   */
  predicate RequiredFilled(v: Values)
  {
    v.firstText != "" && v.secondText != "" && forall i :: 0 <= i < |v.blanks| ==> v.blanks[i].text != ""
  }

  /** The dialog's form state and its error line. */
  class Dialog {
    var values: Values
    var formError: Option<string>

    /** The blank list never has fewer than two entries. */
    ghost predicate Valid()
      reads this
    {
      |values.blanks| >= 2
    }

    /** The form starts from its default values, with no error shown. */
    constructor ()
      ensures Valid() && values == DefaultValues && formError == None
    {
      values := DefaultValues;
      formError := None;
    }

    /** The user types into the inputs; entries are only added or removed by the buttons. */
    method Input(newValues: Values)
      requires Valid() && |newValues.blanks| == |values.blanks|
      modifies this
      ensures Valid() && values == newValues && formError == old(formError)
    {
      values := newValues;
    }

    /** Lines 199-201: "+ Ajouter un choix" appends an empty entry. */
    method AppendBlank()
      requires Valid()
      modifies this
      ensures Valid() && formError == old(formError)
      ensures values == old(values).(blanks := old(values.blanks) + [EmptyBlank])
    {
      values := values.(blanks := values.blanks + [EmptyBlank]);
    }

    /**
     * Lines 187-188: "Supprimer le choix" on entry `idx` removes it, except
     * that the button is disabled while there are two entries or fewer.
     */
    method RemoveBlank(idx: nat)
      requires Valid() && idx < |values.blanks|
      modifies this
      ensures Valid() && formError == old(formError)
      ensures old(|values.blanks|) <= 2 ==> values == old(values)
      ensures old(|values.blanks|) > 2 ==>
        values == old(values).(blanks := old(values.blanks[..idx] + values.blanks[idx + 1..]))
    {
      if |values.blanks| > 2 {
        values := values.(blanks := values.blanks[..idx] + values.blanks[idx + 1..]);
      }
    }

    /**
     * Submitting the form: `handleSubmit` stops at an empty required input and
     * leaves the error line alone; otherwise `onSubmit` clears the error line,
     * then either shows the refusal message and issues no request, or issues
     * the create request with the checked payload.
     */
    method Submit() returns (request: Option<FormValues>)
      requires Valid()
      modifies this
      ensures Valid() && values == old(values)
      ensures !RequiredFilled(values) ==> request == None && formError == old(formError)
      ensures RequiredFilled(values) ==>
        match CheckSubmission(values)
        case Ok(payload) => request == Some(payload) && formError == None
        case Err(message) => request == None && formError == Some(message)
      ensures request.Some? ==> Submittable(request.value)
    {
      if !RequiredFilled(values) {
        return None;
      }
      formError := None;
      match CheckSubmission(values)
      case Err(message) =>
        formError := Some(message);
        request := None;
      case Ok(payload) =>
        request := Some(payload);
    }

    /** Lines 47-52: closing the dialog resets the form to its defaults and clears the error line. */
    method Close()
      modifies this
      ensures Valid() && values == DefaultValues && formError == None
    {
      values := DefaultValues;
      formError := None;
    }
  }
}
