/**
 * The true-or-false creation dialog
 * (src/components/true-or-false-module-create-dialog.tsx): the payload built
 * on submit and the reset on close.
 */
module TrueOrFalseDialog {
  import opened Wrappers
  import opened Text
  import GameModuleService

  type FormValues = GameModuleService.FormValues

  /** The dialog's form values. */
  datatype Values = Values(sentence: string, isTrue: bool)

  /** Lines 21-25: an empty sentence, marked false. */
  const DefaultValues := Values("", false)

  /**
   * Lines 48-52: the payload is a true-or-false form with the sentence
   * trimmed and the truth value as entered.
   */
  function Payload(v: Values): (f: FormValues)
    ensures f.TrueOrFalseForm? && f.GameType() == GameModuleService.TrueOrFalse
    ensures f.sentence == Trim(v.sentence) && f.isTrue == v.isTrue
    ensures Trim(f.sentence) == f.sentence
  {
    TrimIdempotent(v.sentence);
    GameModuleService.TrueOrFalseForm(Trim(v.sentence), v.isTrue)
  }

  /** The dialog's form state and its error line. */
  class Dialog {
    var values: Values
    var formError: Option<string>

    /** The form starts from its default values, with no error shown. */
    constructor ()
      ensures values == DefaultValues && formError == None
    {
      values := DefaultValues;
      formError := None;
    }

    /** The user edits the sentence or the checkbox. */
    method Input(newValues: Values)
      modifies this
      ensures values == newValues && formError == old(formError)
    {
      values := newValues;
    }

    /**
     * Submitting the form: `handleSubmit` stops at an empty sentence (its
     * `required` rule, lines 81-83) and leaves the error line alone;
     * otherwise `onSubmit` clears the error line and always issues the create
     * request, adding no check of its own.
     */
    method Submit() returns (request: Option<FormValues>)
      modifies this
      ensures values == old(values)
      ensures values.sentence == "" ==> request == None && formError == old(formError)
      ensures values.sentence != "" ==> request == Some(Payload(values)) && formError == None
    {
      if values.sentence == "" {
        return None;
      }
      formError := None;
      request := Some(Payload(values));
    }

    /** Lines 39-44: closing the dialog resets the form to its defaults and clears the error line. */
    method Close()
      modifies this
      ensures values == DefaultValues && formError == None
    {
      values := DefaultValues;
      formError := None;
    }
  }
}
