/** The save pattern every entry form follows: validate, then add one document,
    then report the outcome in two feedback lines. The store's `add` is not
    modelled; its outcome is a parameter. */
module Forms {
  import opened Models

  /** How the store's `add` call ended. */
  datatype AddOutcome = Stored | Failed

  const RequiredFieldsMessage: string := "Please fill the required fields."

  /** Angular's `Validators.required` on a text control: only the empty string fails. */
  predicate Required(s: string)
  {
    s != ""
  }

  /** The state every master screen keeps around its form. */
  datatype FormScreen<F> = FormScreen(form: F, showForm: bool, isSaving: bool, formMessage: string, formError: string)

  /** The screen after `save`, and the document written, if any. */
  datatype SaveResult<F, R> = SaveResult(screen: FormScreen<F>, added: Option<R>)

  /** `save` on a master screen. An invalid form writes nothing and only sets the
      error line. A valid form is submitted; if the store accepts it the form is
      reset to `defaults` and closed, and if it refuses the form is kept for a retry.
      The whole save is one step: a second save issued while the store's `add` is
      still pending, which the screen does not prevent, is outside this model. */
  function SaveForm<F, R>(st: FormScreen<F>, valid: bool, record: R, defaults: F,
                          outcome: AddOutcome, success: string, failure: string): (r: SaveResult<F, R>)
    ensures r.added.Some? <==> valid && outcome == Stored
    ensures r.added.Some? ==> r.added.value == record
    ensures !valid ==> r.screen.form == st.form && r.screen.showForm == st.showForm && r.screen.isSaving == st.isSaving
    ensures !valid ==> r.screen.formError == RequiredFieldsMessage && r.screen.formMessage == ""
    ensures valid ==> !r.screen.isSaving
    ensures valid && outcome == Stored ==>
      r.screen.form == defaults && !r.screen.showForm && r.screen.formMessage == success && r.screen.formError == ""
    ensures valid && outcome == Failed ==>
      r.screen.form == st.form && r.screen.showForm == st.showForm && r.screen.formMessage == "" && r.screen.formError == failure
  {
    if !valid then
      SaveResult(st.(formError := RequiredFieldsMessage, formMessage := ""), None)
    else
      match outcome
      case Stored =>
        SaveResult(st.(form := defaults, showForm := false, isSaving := false, formMessage := success, formError := ""), Some(record))
      case Failed =>
        SaveResult(st.(isSaving := false, formMessage := "", formError := failure), None)
  }
}
