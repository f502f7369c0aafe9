/** The step controller: each step's submit handler runs only when every
    field of the step passes, merges the step's section into the store and
    moves on; Back only navigates; the last step stores its section and
    hands the whole record to the submission service. */
module Steps {
  import opened Wrappers
  import opened FormContext
  import opened Validation
  import Wizard

  /** The current path and the shared store. */
  datatype App = App(path: string, store: Store)

  /** The last step's result: the new state and the record passed to the
      submission service, if the step was submitted. */
  datatype Submission = Submission(app: App, payload: Option<ApplicationData>)

  function ActiveStep(app: App): nat {
    Wizard.GetStepIndex(app.path)
  }

  /** Step 1's submit: `update({ personal: values })` then `onNext`. The age
      check needs the birth year and the current year. */
  function SubmitPersonal(app: App, values: PersonalInfo, birthYear: int, currentYear: int, writeOk: bool): (r: App)
    ensures !PersonalValid(values, birthYear, currentYear) ==> r == app
    ensures PersonalValid(values, birthYear, currentYear) ==>
      && r.store.data == app.store.data.(personal := values)
      && (writeOk ==> Synced(r.store))
      && (ActiveStep(app) < Wizard.LastStep ==> ActiveStep(r) == ActiveStep(app) + 1)
  {
    if PersonalValid(values, birthYear, currentYear) then
      Wizard.NextMovesOneStep(app.path);
      App(Wizard.Next(app.path), Update(app.store, OnlyPersonal(values), writeOk))
    else app
  }

  /** Step 2's submit: `update({ family: values })` then `onNext`. */
  function SubmitFamily(app: App, values: FamilyFinancial, writeOk: bool): (r: App)
    ensures !FamilyValid(values) ==> r == app
    ensures FamilyValid(values) ==>
      && r.store.data == app.store.data.(family := values)
      && (writeOk ==> Synced(r.store))
      && (ActiveStep(app) < Wizard.LastStep ==> ActiveStep(r) == ActiveStep(app) + 1)
  {
    if FamilyValid(values) then
      Wizard.NextMovesOneStep(app.path);
      App(Wizard.Next(app.path), Update(app.store, OnlyFamily(values), writeOk))
    else app
  }

  /** Step 3's submit: `update({ situations: values })`, then submit the
      record as it was with its situations replaced by `values`. The path
      does not change. */
  function SubmitSituations(app: App, values: Situations, writeOk: bool): (r: Submission)
    ensures r.app.path == app.path
    ensures !SituationsValid(values) ==> r.app == app && r.payload.None?
    ensures SituationsValid(values) ==>
      && r.payload == Some(ApplicationData(app.store.data.personal, app.store.data.family, values))
      && r.app.store.data == r.payload.value
      && (writeOk ==> Synced(r.app.store))
  {
    if SituationsValid(values) then
      var payload := app.store.data.(situations := values);
      Submission(App(app.path, Update(app.store, OnlySituations(values), writeOk)), Some(payload))
    else Submission(app, None)
  }

  /** The Back button: navigation only, so unsaved edits on the step being
      left are dropped and the store is untouched. */
  function GoBack(app: App): (r: App)
    ensures r.store == app.store
    ensures ActiveStep(app) > 0 ==> ActiveStep(r) == ActiveStep(app) - 1
    ensures ActiveStep(app) == 0 ==> r == app
  {
    Wizard.BackMovesOneStep(app.path);
    app.(path := Wizard.Back(app.path))
  }

  /** Starting on the first step, three valid submits deliver exactly the
      entered sections to the submission service, and the store holds the
      same record. */
  lemma EndToEnd(storage: Storage, p: PersonalInfo, f: FamilyFinancial, s: Situations,
                 birthYear: int, currentYear: int)
    requires PersonalValid(p, birthYear, currentYear) && FamilyValid(f) && SituationsValid(s)
    ensures
      var a0 := App(Wizard.StepPaths[0], Mount(storage, true));
      var a1 := SubmitPersonal(a0, p, birthYear, currentYear, true);
      var a2 := SubmitFamily(a1, f, true);
      var r := SubmitSituations(a2, s, true);
      && ActiveStep(a1) == 1 && ActiveStep(a2) == 2 && ActiveStep(r.app) == 2
      && r.payload == Some(ApplicationData(p, f, s))
      && Synced(r.app.store)
  {}

  /** Going back from step 2 to step 1 and submitting the stored personal
      values again leaves the record as it was. */
  lemma BackAndForthKeepsPersonal(app: App, p: PersonalInfo, birthYear: int, currentYear: int)
    requires ActiveStep(app) == 0
    requires PersonalValid(p, birthYear, currentYear)
    ensures
      var a1 := SubmitPersonal(app, p, birthYear, currentYear, true);
      var back := GoBack(a1);
      var again := SubmitPersonal(back, back.store.data.personal, birthYear, currentYear, true);
      && ActiveStep(back) == 0
      && back.store.data.personal == p
      && again.store.data == a1.store.data
      && ActiveStep(again) == 1
  {}
}
