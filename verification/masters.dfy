/** The devotee register and the three master tables (tax rules, donation types,
    petty-cash issue types): the status toggle each list offers, and each entry
    form's validation, saved document and reset. */
module Masters {
  import opened Models
  import opened Forms

  // ---------------------------------------------------------------------------
  // Status toggle

  /** `update(collection, id, { status })`: a partial write of one field of one document. */
  datatype StatusUpdate = StatusUpdate(id: string, status: Status)

  /** `toggleStatus(item)`: the write the button sends, targeting the item's own document. */
  function ToggleStatus<T>(item: WithId<T>, status: T -> Status): (u: StatusUpdate)
    ensures u.id == item.id
    ensures status(item.data) == Active ==> u.status == Inactive
    ensures status(item.data) == Inactive ==> u.status == Active
  {
    StatusUpdate(item.id, Toggle(status(item.data)))
  }

  /** The store applying a partial update to a snapshot: every document with the
      update's id takes the new status through `put`; every other document is untouched. */
  function ApplyUpdate<T>(docs: seq<WithId<T>>, u: StatusUpdate, put: (T, Status) -> T): (r: seq<WithId<T>>)
    ensures |r| == |docs|
    ensures forall i | 0 <= i < |docs| :: r[i].id == docs[i].id
    ensures forall i | 0 <= i < |docs| && docs[i].id != u.id :: r[i] == docs[i]
    ensures forall i | 0 <= i < |docs| && docs[i].id == u.id :: r[i].data == put(docs[i].data, u.status)
  {
    if docs == [] then []
    else
      var d := docs[0];
      [if d.id == u.id then WithId(d.id, put(d.data, u.status)) else d] + ApplyUpdate(docs[1..], u, put)
  }

  ghost predicate UniqueIds<T>(docs: seq<WithId<T>>)
  {
    forall i, j | 0 <= i < |docs| && 0 <= j < |docs| && docs[i].id == docs[j].id :: i == j
  }

  /** Toggling a document and then toggling what the store returns restores the
      snapshot, for any status field that reads back what was written into it and
      keeps the rest of the record. */
  lemma {:induction false} ToggleTwiceRestores<T(!new)>(docs: seq<WithId<T>>, i: int, status: T -> Status, put: (T, Status) -> T)
    requires UniqueIds(docs) && 0 <= i < |docs|
    requires forall d, s :: status(put(d, s)) == s
    requires forall d, s, s' :: put(put(d, s), s') == put(d, s')
    requires forall d :: put(d, status(d)) == d
    ensures var once := ApplyUpdate(docs, ToggleStatus(docs[i], status), put);
            ApplyUpdate(once, ToggleStatus(once[i], status), put) == docs
  {
    var u := ToggleStatus(docs[i], status);
    var once := ApplyUpdate(docs, u, put);
    var u' := ToggleStatus(once[i], status);
    var twice := ApplyUpdate(once, u', put);
    forall j | 0 <= j < |docs| ensures twice[j] == docs[j] {
      if docs[j].id == u.id {
        assert j == i;
        var d := docs[i].data;
        assert once[i].data == put(d, Toggle(status(d)));
        ToggleInvolution(status(d));
        assert twice[i].data == put(put(d, Toggle(status(d))), Toggle(Toggle(status(d))));
      }
    }
  }

  // Each record type's status field.

  function DevoteeStatus(d: Devotee): Status { d.status }
  function TaxMasterStatus(t: TaxMaster): Status { t.status }
  function DonationMasterStatus(m: DonationMaster): Status { m.status }
  function PettyCashMasterStatus(m: PettyCashMaster): Status { m.status }

  /** Writing a devotee's status changes that field alone. */
  function PutDevoteeStatus(d: Devotee, s: Status): (r: Devotee)
    ensures r.status == s && r.(status := d.status) == d
  {
    d.(status := s)
  }

  function PutTaxMasterStatus(t: TaxMaster, s: Status): (r: TaxMaster)
    ensures r.status == s && r.(status := t.status) == t
  {
    t.(status := s)
  }

  function PutDonationMasterStatus(m: DonationMaster, s: Status): (r: DonationMaster)
    ensures r.status == s && r.(status := m.status) == m
  {
    m.(status := s)
  }

  function PutPettyCashMasterStatus(m: PettyCashMaster, s: Status): (r: PettyCashMaster)
    ensures r.status == s && r.(status := m.status) == m
  {
    m.(status := s)
  }

  /** Toggling a devotee writes only its status, only on its own document. */
  lemma ToggleDevoteeOnlyStatus(docs: seq<WithId<Devotee>>, i: int)
    requires 0 <= i < |docs|
    ensures var r := ApplyUpdate(docs, ToggleStatus(docs[i], DevoteeStatus), PutDevoteeStatus);
            && r[i].data.status != docs[i].data.status
            && r[i].data.(status := docs[i].data.status) == docs[i].data
            && (forall j | 0 <= j < |docs| && docs[j].id != docs[i].id :: r[j] == docs[j])
  {
  }

  lemma DevoteeToggleTwice(docs: seq<WithId<Devotee>>, i: int)
    requires UniqueIds(docs) && 0 <= i < |docs|
    ensures var once := ApplyUpdate(docs, ToggleStatus(docs[i], DevoteeStatus), PutDevoteeStatus);
            ApplyUpdate(once, ToggleStatus(once[i], DevoteeStatus), PutDevoteeStatus) == docs
  {
    ToggleTwiceRestores(docs, i, DevoteeStatus, PutDevoteeStatus);
  }

  lemma TaxMasterToggleTwice(docs: seq<WithId<TaxMaster>>, i: int)
    requires UniqueIds(docs) && 0 <= i < |docs|
    ensures var once := ApplyUpdate(docs, ToggleStatus(docs[i], TaxMasterStatus), PutTaxMasterStatus);
            ApplyUpdate(once, ToggleStatus(once[i], TaxMasterStatus), PutTaxMasterStatus) == docs
  {
    ToggleTwiceRestores(docs, i, TaxMasterStatus, PutTaxMasterStatus);
  }

  lemma DonationMasterToggleTwice(docs: seq<WithId<DonationMaster>>, i: int)
    requires UniqueIds(docs) && 0 <= i < |docs|
    ensures var once := ApplyUpdate(docs, ToggleStatus(docs[i], DonationMasterStatus), PutDonationMasterStatus);
            ApplyUpdate(once, ToggleStatus(once[i], DonationMasterStatus), PutDonationMasterStatus) == docs
  {
    ToggleTwiceRestores(docs, i, DonationMasterStatus, PutDonationMasterStatus);
  }

  lemma PettyCashMasterToggleTwice(docs: seq<WithId<PettyCashMaster>>, i: int)
    requires UniqueIds(docs) && 0 <= i < |docs|
    ensures var once := ApplyUpdate(docs, ToggleStatus(docs[i], PettyCashMasterStatus), PutPettyCashMasterStatus);
            ApplyUpdate(once, ToggleStatus(once[i], PettyCashMasterStatus), PutPettyCashMasterStatus) == docs
  {
    ToggleTwiceRestores(docs, i, PettyCashMasterStatus, PutPettyCashMasterStatus);
  }

  // ---------------------------------------------------------------------------
  // Devotee form

  datatype DevoteeForm = DevoteeForm(
    villageName: string,
    taxpersonName: string,
    fatherName: string,
    taxType: TaxType,
    status: Status,
    splName: string,
    currentLocation: string)

  /** Village and taxperson name are required; the other text fields are optional. */
  predicate DevoteeFormValid(f: DevoteeForm)
  {
    Required(f.villageName) && Required(f.taxpersonName)
  }

  function DevoteeFormDefaults(): (f: DevoteeForm)
    ensures f.taxType == Full && f.status == Active
    ensures !DevoteeFormValid(f)
  {
    DevoteeForm("", "", "", Full, Active, "", "")
  }

  /** The document `add` receives: the raw form value plus its creation time. */
  function DevoteeRecord(f: DevoteeForm, now: string): Devotee
  {
    Devotee(f.villageName, f.taxpersonName, f.fatherName, f.taxType, f.status, f.splName, f.currentLocation, now)
  }

  /** The form fields of a stored devotee. */
  function DevoteeFormOf(d: Devotee): DevoteeForm
  {
    DevoteeForm(d.villageName, d.taxpersonName, d.fatherName, d.taxType, d.status, d.splName, d.currentLocation)
  }

  function SaveDevotee(st: FormScreen<DevoteeForm>, outcome: AddOutcome, now: string): (r: SaveResult<DevoteeForm, Devotee>)
    ensures r.added.Some? <==> DevoteeFormValid(st.form) && outcome == Stored
    ensures r.added.Some? ==> DevoteeFormOf(r.added.value) == st.form && r.added.value.createdAt == now
    ensures r.added.Some? ==> r.screen.form == DevoteeFormDefaults() && !r.screen.showForm
    ensures r.added.None? ==> r.screen.form == st.form
  {
    SaveForm(st, DevoteeFormValid(st.form), DevoteeRecord(st.form, now), DevoteeFormDefaults(),
             outcome, "Devotee saved successfully.", "Unable to save devotee right now.")
  }

  /** After a stored devotee the reset form is invalid, so a save started after this one completed adds nothing. */
  lemma DevoteeNoDoubleAdd(st: FormScreen<DevoteeForm>, outcome: AddOutcome, outcome': AddOutcome, now: string, now': string)
    ensures SaveDevotee(st, outcome, now).added.Some? ==>
            SaveDevotee(SaveDevotee(st, outcome, now).screen, outcome', now').added.None?
  {
  }

  // ---------------------------------------------------------------------------
  // Tax master form

  /** `taxType` is the form's `type` control. */
  datatype TaxMasterForm = TaxMasterForm(taxAmount: int, taxType: TaxType, interestPercentage: int, status: Status)

  /** The amount must be at least 1; the interest percentage is unchecked. */
  predicate TaxMasterFormValid(f: TaxMasterForm)
  {
    f.taxAmount >= 1
  }

  function TaxMasterFormDefaults(): (f: TaxMasterForm)
    ensures f.taxAmount == 0 && f.taxType == Full && f.interestPercentage == 0 && f.status == Active
    ensures !TaxMasterFormValid(f)
  {
    TaxMasterForm(0, Full, 0, Active)
  }

  function TaxMasterRecord(f: TaxMasterForm, now: string): TaxMaster
  {
    TaxMaster(f.taxAmount, f.taxType, f.interestPercentage, f.status, now)
  }

  function TaxMasterFormOf(t: TaxMaster): TaxMasterForm
  {
    TaxMasterForm(t.taxAmount, t.taxType, t.interestPercentage, t.status)
  }

  function SaveTaxMaster(st: FormScreen<TaxMasterForm>, outcome: AddOutcome, now: string): (r: SaveResult<TaxMasterForm, TaxMaster>)
    ensures r.added.Some? <==> st.form.taxAmount >= 1 && outcome == Stored
    ensures r.added.Some? ==> TaxMasterFormOf(r.added.value) == st.form && r.added.value.createdAt == now
    ensures r.added.Some? ==> r.screen.form == TaxMasterFormDefaults() && !r.screen.showForm
    ensures r.added.None? ==> r.screen.form == st.form
  {
    SaveForm(st, TaxMasterFormValid(st.form), TaxMasterRecord(st.form, now), TaxMasterFormDefaults(),
             outcome, "Tax configuration saved successfully.", "Unable to save tax configuration right now.")
  }

  lemma TaxMasterNoDoubleAdd(st: FormScreen<TaxMasterForm>, outcome: AddOutcome, outcome': AddOutcome, now: string, now': string)
    ensures SaveTaxMaster(st, outcome, now).added.Some? ==>
            SaveTaxMaster(SaveTaxMaster(st, outcome, now).screen, outcome', now').added.None?
  {
  }

  // ---------------------------------------------------------------------------
  // Donation master form

  datatype DonationMasterForm = DonationMasterForm(donationType: string, description: string, status: Status)

  predicate DonationMasterFormValid(f: DonationMasterForm)
  {
    Required(f.donationType)
  }

  function DonationMasterFormDefaults(): (f: DonationMasterForm)
    ensures f.donationType == "" && f.description == "" && f.status == Active
    ensures !DonationMasterFormValid(f)
  {
    DonationMasterForm("", "", Active)
  }

  function DonationMasterRecord(f: DonationMasterForm, now: string): DonationMaster
  {
    DonationMaster(f.donationType, f.description, f.status, now)
  }

  function DonationMasterFormOf(m: DonationMaster): DonationMasterForm
  {
    DonationMasterForm(m.donationType, m.description, m.status)
  }

  function SaveDonationMaster(st: FormScreen<DonationMasterForm>, outcome: AddOutcome, now: string): (r: SaveResult<DonationMasterForm, DonationMaster>)
    ensures r.added.Some? <==> st.form.donationType != "" && outcome == Stored
    ensures r.added.Some? ==> DonationMasterFormOf(r.added.value) == st.form && r.added.value.createdAt == now
    ensures r.added.Some? ==> r.screen.form == DonationMasterFormDefaults() && !r.screen.showForm
    ensures r.added.None? ==> r.screen.form == st.form
  {
    SaveForm(st, DonationMasterFormValid(st.form), DonationMasterRecord(st.form, now), DonationMasterFormDefaults(),
             outcome, "Donation type saved successfully.", "Unable to save donation type right now.")
  }

  lemma DonationMasterNoDoubleAdd(st: FormScreen<DonationMasterForm>, outcome: AddOutcome, outcome': AddOutcome, now: string, now': string)
    ensures SaveDonationMaster(st, outcome, now).added.Some? ==>
            SaveDonationMaster(SaveDonationMaster(st, outcome, now).screen, outcome', now').added.None?
  {
  }

  // ---------------------------------------------------------------------------
  // Petty-cash master form

  datatype PettyCashMasterForm = PettyCashMasterForm(issueType: string, description: string, status: Status)

  predicate PettyCashMasterFormValid(f: PettyCashMasterForm)
  {
    Required(f.issueType)
  }

  function PettyCashMasterFormDefaults(): (f: PettyCashMasterForm)
    ensures f.issueType == "" && f.description == "" && f.status == Active
    ensures !PettyCashMasterFormValid(f)
  {
    PettyCashMasterForm("", "", Active)
  }

  function PettyCashMasterRecord(f: PettyCashMasterForm, now: string): PettyCashMaster
  {
    PettyCashMaster(f.issueType, f.description, f.status, now)
  }

  function PettyCashMasterFormOf(m: PettyCashMaster): PettyCashMasterForm
  {
    PettyCashMasterForm(m.issueType, m.description, m.status)
  }

  function SavePettyCashMaster(st: FormScreen<PettyCashMasterForm>, outcome: AddOutcome, now: string): (r: SaveResult<PettyCashMasterForm, PettyCashMaster>)
    ensures r.added.Some? <==> st.form.issueType != "" && outcome == Stored
    ensures r.added.Some? ==> PettyCashMasterFormOf(r.added.value) == st.form && r.added.value.createdAt == now
    ensures r.added.Some? ==> r.screen.form == PettyCashMasterFormDefaults() && !r.screen.showForm
    ensures r.added.None? ==> r.screen.form == st.form
  {
    SaveForm(st, PettyCashMasterFormValid(st.form), PettyCashMasterRecord(st.form, now), PettyCashMasterFormDefaults(),
             outcome, "Issue type saved successfully.", "Unable to save issue type right now.")
  }

  lemma PettyCashMasterNoDoubleAdd(st: FormScreen<PettyCashMasterForm>, outcome: AddOutcome, outcome': AddOutcome, now: string, now': string)
    ensures SavePettyCashMaster(st, outcome, now).added.Some? ==>
            SavePettyCashMaster(SavePettyCashMaster(st, outcome, now).screen, outcome', now').added.None?
  {
  }
}
