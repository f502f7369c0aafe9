/** The suggestion dialog of the last step: requesting help for a narrative
    field stages a suggestion in a single shared dialog, which the applicant
    may edit, accept into the field (and the store) or discard. Requests are
    taken one at a time. */
module AssistDialog {
  import opened Wrappers
  import opened FormContext
  import opened Suggestions

  /** The component state: staged text, its target field, whether the
      dialog is open, the field whose request is in flight, and whether the
      error notice is showing. */
  datatype Dialog = Dialog(
    suggestion: string, target: Option<Field>, open: bool,
    loading: Option<Field>, errorOpen: bool)

  const InitialDialog := Dialog("", None, false, None, false)

  /** The step's form values, its dialog, and the shared store. */
  datatype Page = Page(values: Situations, dialog: Dialog, store: Store)

  /** How the awaited suggestion settled. */
  datatype Outcome = Resolved(text: string) | Rejected

  function Get(v: Situations, f: Field): string {
    match f
    case FinancialSituation => v.financialSituation
    case EmploymentCircumstances => v.employmentCircumstances
    case ReasonForApplying => v.reasonForApplying
  }

  /** `setValue(f, text)` on the form. */
  function SetField(v: Situations, f: Field, text: string): (r: Situations)
    ensures Get(r, f) == text
    ensures forall g: Field | g != f :: Get(r, g) == Get(v, g)
  {
    match f
    case FinancialSituation => v.(financialSituation := text)
    case EmploymentCircumstances => v.(employmentCircumstances := text)
    case ReasonForApplying => v.(reasonForApplying := text)
  }

  // ---------------------------------------------------------------------
  // requestHelp

  /** Entering `requestHelp(f)`: the field's help button is disabled. */
  function BeginRequest(d: Dialog, f: Field): (r: Dialog)
    ensures r.loading == Some(f)
    ensures r.(loading := d.loading) == d
  {
    d.(loading := Some(f))
  }

  /** Settling `requestHelp(f)`: success stages the text and opens the
      dialog; failure clears the staging, keeps the dialog closed and shows
      the error notice; either way nothing is in flight afterwards. */
  function FinishRequest(d: Dialog, f: Field, outcome: Outcome): (r: Dialog)
    ensures r.loading.None?
    ensures outcome.Resolved? ==>
      r == Dialog(outcome.text, Some(f), true, None, d.errorOpen)
    ensures outcome.Rejected? ==>
      r == Dialog("", None, false, None, true)
  {
    match outcome
    case Resolved(text) => d.(suggestion := text, target := Some(f), open := true, loading := None)
    case Rejected => d.(suggestion := "", target := None, open := false, errorOpen := true, loading := None)
  }

  /** A whole request through the suggestion service, whose result is
      decided by `remote`. The service never rejects, so the dialog always
      opens on a non-empty text for `f` and the error notice is untouched. */
  function RequestHelp(d: Dialog, f: Field, remote: Remote): (r: Dialog)
    ensures r.open && r.target == Some(f) && r.loading.None?
    ensures |r.suggestion| > 0
    ensures r.suggestion == GetSuggestion(BuildPrompt(FieldName(f)), remote).text
    ensures r.errorOpen == d.errorOpen
  {
    var text := GetSuggestion(BuildPrompt(FieldName(f)), remote).text;
    FinishRequest(BeginRequest(d, f), f, Resolved(text))
  }

  // ---------------------------------------------------------------------
  // Dialog actions

  /** Typing in the dialog's text box. */
  function Edit(d: Dialog, text: string): (r: Dialog)
    ensures r.suggestion == text
    ensures r.(suggestion := d.suggestion) == d
  {
    d.(suggestion := text)
  }

  /** Discard, or closing the dialog: the form and the store are kept. */
  function Discard(pg: Page): (r: Page)
    ensures !r.dialog.open
    ensures r.values == pg.values && r.store == pg.store
    ensures r.dialog.(open := pg.dialog.open) == pg.dialog
  {
    pg.(dialog := pg.dialog.(open := false))
  }

  /** Accept: close the dialog; when there is a target, write the staged
      text into that field and store all three current values as the
      situations section. */
  function Accept(pg: Page, writeOk: bool): (r: Page)
    ensures !r.dialog.open
    ensures r.dialog.(open := pg.dialog.open) == pg.dialog
    ensures pg.dialog.target.None? ==> r.values == pg.values && r.store == pg.store
    ensures pg.dialog.target.Some? ==>
      var f := pg.dialog.target.value;
      && Get(r.values, f) == pg.dialog.suggestion
      && (forall g: Field | g != f :: Get(r.values, g) == Get(pg.values, g))
      && r.store.data == pg.store.data.(situations := r.values)
      && (writeOk ==> Synced(r.store))
  {
    var closed := pg.dialog.(open := false);
    match pg.dialog.target
    case None => pg.(dialog := closed)
    case Some(f) =>
      var values := SetField(pg.values, f, pg.dialog.suggestion);
      Page(values, closed, Update(pg.store, OnlySituations(values), writeOk))
  }

  /** Closing the error notice. */
  function DismissError(d: Dialog): (r: Dialog)
    ensures !r.errorOpen
    ensures r.(errorOpen := d.errorOpen) == d
  {
    d.(errorOpen := false)
  }

  // ---------------------------------------------------------------------
  // The whole sub-flow

  /** Request, optionally edit, accept: the field ends up holding the
      (edited) suggestion, the other fields are kept, and the store's
      situations section equals the form. */
  lemma RequestEditAccept(pg: Page, f: Field, remote: Remote, edit: Option<string>, writeOk: bool)
    ensures
      var d1 := RequestHelp(pg.dialog, f, remote);
      var d2 := if edit.Some? then Edit(d1, edit.value) else d1;
      var r := Accept(pg.(dialog := d2), writeOk);
      && Get(r.values, f) == (if edit.Some? then edit.value
                              else GetSuggestion(BuildPrompt(FieldName(f)), remote).text)
      && (forall g: Field | g != f :: Get(r.values, g) == Get(pg.values, g))
      && r.store.data.situations == r.values
      && r.store.data.personal == pg.store.data.personal
      && r.store.data.family == pg.store.data.family
  {}

  /** Request then discard: the form and the store are unchanged. */
  lemma RequestDiscard(pg: Page, f: Field, remote: Remote)
    ensures
      var r := Discard(pg.(dialog := RequestHelp(pg.dialog, f, remote)));
      r.values == pg.values && r.store == pg.store && !r.dialog.open
  {}

  /** With no key configured, accepting help for the financial situation
      stores the canned financial text. */
  lemma NoKeyFinancialAccept(pg: Page, writeOk: bool)
    ensures
      var r := Accept(pg.(dialog := RequestHelp(pg.dialog, FinancialSituation, NoKey)), writeOk);
      r.values.financialSituation == FinancialMock
      && r.store.data.situations.financialSituation == FinancialMock
  {
    NoKeySuggestions();
  }
}
