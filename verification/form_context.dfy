/** The application record store: the three record sections, their defaults,
    the shallow-merge `update`, `reset`, the initial load from storage and
    the write that follows every state change. Storage is a map from keys to
    stored blobs; JSON encoding is not modelled (a stored record reads back
    as itself). */
module FormContext {
  import opened Wrappers

  datatype PersonalInfo = PersonalInfo(
    name: string, nationalId: string, dateOfBirth: string, gender: string,
    address: string, city: string, state: string, country: string,
    phone: string, email: string)

  datatype FamilyFinancial = FamilyFinancial(
    maritalStatus: string, dependents: real, employmentStatus: string,
    monthlyIncome: real, housingStatus: string)

  datatype Situations = Situations(
    financialSituation: string, employmentCircumstances: string,
    reasonForApplying: string)

  datatype ApplicationData = ApplicationData(
    personal: PersonalInfo, family: FamilyFinancial, situations: Situations)

  /** `Partial<ApplicationData>`: each section present or absent. */
  datatype Partial = Partial(
    personal: Option<PersonalInfo>, family: Option<FamilyFinancial>,
    situations: Option<Situations>)

  const NoSections := Partial(None, None, None)

  function OnlyPersonal(p: PersonalInfo): Partial { Partial(Some(p), None, None) }
  function OnlyFamily(f: FamilyFinancial): Partial { Partial(None, Some(f), None) }
  function OnlySituations(s: Situations): Partial { Partial(None, None, Some(s)) }

  const DefaultData := ApplicationData(
    PersonalInfo("", "", "", "", "", "", "", "", "", ""),
    FamilyFinancial("", 0.0, "", 0.0, ""),
    Situations("", "", ""))

  const StorageKey := "ssa_application_data_v1"

  /** What `getItem` yields for a key that is present: the empty string
      (falsy, so treated as absent), a text that parses, or one on which
      reading or parsing throws. */
  datatype Blob = EmptyText | Json(record: ApplicationData) | Malformed

  type Storage = map<string, Blob>

  /** The in-memory record together with the storage it is mirrored to. */
  datatype Store = Store(data: ApplicationData, storage: Storage)

  // ---------------------------------------------------------------------
  // Pure record operations

  /** `{ ...prev, ...partial }`: every section present in `p` replaces the
      corresponding section of `d` wholesale. */
  function Merge(d: ApplicationData, p: Partial): (r: ApplicationData)
    ensures p.personal.Some? ==> r.personal == p.personal.value
    ensures p.personal.None? ==> r.personal == d.personal
    ensures p.family.Some? ==> r.family == p.family.value
    ensures p.family.None? ==> r.family == d.family
    ensures p.situations.Some? ==> r.situations == p.situations.value
    ensures p.situations.None? ==> r.situations == d.situations
  {
    ApplicationData(
      p.personal.GetOr(d.personal),
      p.family.GetOr(d.family),
      p.situations.GetOr(d.situations))
  }

  /** The partial holding every section of `p` and of `q`, `q` winning where
      both have one. */
  function Combine(p: Partial, q: Partial): Partial {
    Partial(
      if q.personal.Some? then q.personal else p.personal,
      if q.family.Some? then q.family else p.family,
      if q.situations.Some? then q.situations else p.situations)
  }

  /** `p` and `q` name no section in common. */
  predicate Disjoint(p: Partial, q: Partial) {
    && (p.personal.None? || q.personal.None?)
    && (p.family.None? || q.family.None?)
    && (p.situations.None? || q.situations.None?)
  }

  lemma MergeNothing(d: ApplicationData)
    ensures Merge(d, NoSections) == d
  {}

  lemma MergeIdempotent(d: ApplicationData, p: Partial)
    ensures Merge(Merge(d, p), p) == Merge(d, p)
  {}

  lemma MergeTwice(d: ApplicationData, p: Partial, q: Partial)
    ensures Merge(Merge(d, p), q) == Merge(d, Combine(p, q))
  {}

  lemma MergeCommutesOnDisjoint(d: ApplicationData, p: Partial, q: Partial)
    requires Disjoint(p, q)
    ensures Merge(Merge(d, p), q) == Merge(Merge(d, q), p)
  {}

  // ---------------------------------------------------------------------
  // Storage

  /** `getItem(StorageKey)`: `None` models `null`. */
  function Read(storage: Storage): Option<Blob> {
    if StorageKey in storage then Some(storage[StorageKey]) else None
  }

  /** The initial state: the stored record if there is one, the defaults
      when the key is absent, holds the empty text, or fails to parse. */
  function Load(stored: Option<Blob>): (d: ApplicationData)
    ensures stored == Some(Json(d)) || d == DefaultData
    ensures (stored.Some? && stored.value.Json?) ==> d == stored.value.record
  {
    match stored
    case Some(Json(record)) => record
    case _ => DefaultData
  }

  /** The effect that runs after each state change: write `d` under the
      storage key; a write that throws is ignored and leaves storage as it
      was. */
  function Persist(storage: Storage, d: ApplicationData, writeOk: bool): (r: Storage)
    ensures writeOk ==> Read(r) == Some(Json(d))
    ensures !writeOk ==> r == storage
    ensures forall k | k in storage && k != StorageKey :: k in r && r[k] == storage[k]
    ensures r.Keys <= storage.Keys + {StorageKey}
  {
    if writeOk then storage[StorageKey := Json(d)] else storage
  }

  /** The storage key holds exactly the in-memory record. */
  predicate Synced(st: Store) {
    Read(st.storage) == Some(Json(st.data))
  }

  // ---------------------------------------------------------------------
  // Store transitions

  /** Mount: load the initial record, then run the write effect once. */
  function Mount(storage: Storage, writeOk: bool): (st: Store)
    ensures st.data == Load(Read(storage))
    ensures writeOk ==> Synced(st)
  {
    var d := Load(Read(storage));
    Store(d, Persist(storage, d, writeOk))
  }

  /** `update(partial)` followed by its write. */
  function Update(st: Store, p: Partial, writeOk: bool): (r: Store)
    ensures r.data == Merge(st.data, p)
    ensures writeOk ==> Synced(r)
    ensures !writeOk ==> r.storage == st.storage
  {
    var d := Merge(st.data, p);
    Store(d, Persist(st.storage, d, writeOk))
  }

  /** `reset()` followed by its write. */
  function Reset(st: Store, writeOk: bool): (r: Store)
    ensures r.data == DefaultData
    ensures writeOk ==> Synced(r)
    ensures !writeOk ==> r.storage == st.storage
  {
    Store(DefaultData, Persist(st.storage, DefaultData, writeOk))
  }

  /** A failed write never changes the in-memory record. */
  lemma WriteFailureInvisible(st: Store, p: Partial)
    ensures Update(st, p, false).data == Update(st, p, true).data
    ensures Reset(st, false).data == Reset(st, true).data
  {}

  /** After a successful write, reloading yields the record in memory. */
  lemma ReloadRestores(st: Store, writeOk: bool)
    requires Synced(st)
    ensures Mount(st.storage, writeOk).data == st.data
  {}

  /** Two updates then a reload: each merged section holds its last value and
      an untouched section keeps its value (the store's round trip). */
  lemma UpdateUpdateReload(st: Store, a: Partial, b: Partial)
    ensures var r := Update(Update(st, a, true), b, true);
      Mount(r.storage, true).data == Merge(st.data, Combine(a, b))
  {}

  /** Reset from any state, persisted, reloads as the defaults. */
  lemma ResetReloadsDefault(st: Store)
    ensures Mount(Reset(st, true).storage, true).data == DefaultData
  {}
}
