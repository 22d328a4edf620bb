/** The tax-entry form: choosing a village narrows the devotee list, choosing a
    devotee copies its village and tax type into the form, and saving adds one
    tax entry and clears the per-devotee fields. */
module TaxEntryForm {
  import opened Models
  import opened Aggregate
  import opened Forms

  datatype EntryForm = EntryForm(
    villageName: string,
    devoteeName: string,
    taxType: TaxType,
    year: int,
    amount: int,
    paymentDate: string,
    paid: bool)

  /** Village, devotee and payment date are required and the amount must be at
      least 1. Year, tax type and the paid flag are taken to hold a value: the
      `null` of a cleared number input is not represented. */
  predicate EntryFormValid(f: EntryForm)
  {
    Required(f.villageName) && Required(f.devoteeName) && f.amount >= 1 && Required(f.paymentDate)
  }

  /** The form as first built: the current year and today's date come from the clock. */
  function NewEntryForm(currentYear: int, today: string): (f: EntryForm)
    ensures f.year == currentYear && f.paymentDate == today
    ensures f.amount == 0 && !f.paid && f.taxType == Full
    ensures !EntryFormValid(f)
  {
    EntryForm("", "", Full, currentYear, 0, today, false)
  }

  datatype TaxEntryScreen = TaxEntryScreen(
    devotees: seq<WithId<Devotee>>,
    filteredDevotees: seq<WithId<Devotee>>,
    form: EntryForm,
    isSaving: bool,
    formMessage: string,
    formError: string)

  function InVillage(v: string): WithId<Devotee> -> bool
  {
    (d: WithId<Devotee>) => d.data.villageName == v
  }

  /** `onVillageChange(v)`: the devotees of that village, and the devotee choice cleared. */
  function OnVillageChange(st: TaxEntryScreen, v: string): (r: TaxEntryScreen)
    ensures forall d :: d in r.filteredDevotees <==> d in st.devotees && d.data.villageName == v
    ensures r.form.devoteeName == "" && r.form.taxType == Full
    ensures r.form.villageName == st.form.villageName && r.form.year == st.form.year
    ensures r.form.amount == st.form.amount && r.form.paymentDate == st.form.paymentDate && r.form.paid == st.form.paid
    ensures r.devotees == st.devotees && r.formMessage == st.formMessage && r.formError == st.formError
  {
    st.(filteredDevotees := Filter(st.devotees, InVillage(v)), form := st.form.(devoteeName := "", taxType := Full))
  }

  /** The narrowed list keeps the order of the devotee snapshot. */
  lemma VillageListKeepsOrder(st: TaxEntryScreen, v: string)
    ensures IsSubsequence(OnVillageChange(st, v).filteredDevotees, st.devotees)
  {
    FilterIsSubsequence(st.devotees, InVillage(v));
  }

  /** `find`: the first devotee with that name, if any. */
  function FindByName(s: seq<WithId<Devotee>>, name: string): (r: Option<WithId<Devotee>>)
    ensures r.None? <==> forall i | 0 <= i < |s| :: s[i].data.taxpersonName != name
    ensures r.Some? ==> exists i | 0 <= i < |s| :: s[i] == r.value && s[i].data.taxpersonName == name &&
                          forall j | 0 <= j < i :: s[j].data.taxpersonName != name
  {
    if s == [] then None
    else if s[0].data.taxpersonName == name then Some(s[0])
    else
      var r := FindByName(s[1..], name);
      if r.Some? then
        var i :| 0 <= i < |s[1..]| && s[1..][i] == r.value && s[1..][i].data.taxpersonName == name &&
                 forall j | 0 <= j < i :: s[1..][j].data.taxpersonName != name;
        assert s[i + 1] == r.value;
        r
      else r
  }

  /** `onDevoteeChange(name)`: only the narrowed list is searched; a match copies
      its village and tax type into the form, and no match changes nothing. */
  function OnDevoteeChange(st: TaxEntryScreen, name: string): (r: TaxEntryScreen)
    ensures r.devotees == st.devotees && r.filteredDevotees == st.filteredDevotees
    ensures r.form.devoteeName == st.form.devoteeName && r.form.year == st.form.year && r.form.amount == st.form.amount
    ensures r.form.paymentDate == st.form.paymentDate && r.form.paid == st.form.paid
    ensures (forall d | d in st.filteredDevotees :: d.data.taxpersonName != name) ==> r == st
    ensures FindByName(st.filteredDevotees, name).Some? ==>
      var d := FindByName(st.filteredDevotees, name).value;
      r.form.villageName == d.data.villageName && r.form.taxType == d.data.taxType
  {
    match FindByName(st.filteredDevotees, name)
    case None => st
    case Some(d) => st.(form := st.form.(villageName := d.data.villageName, taxType := d.data.taxType))
  }

  /** Choosing a village and then one of its devotees leaves that village in the
      form, with the tax type of the first devotee of that name there. */
  lemma VillageThenDevotee(st: TaxEntryScreen, v: string, name: string)
    ensures var r := OnDevoteeChange(OnVillageChange(st, v), name);
            (exists d | d in st.devotees :: d.data.villageName == v && d.data.taxpersonName == name) ==>
              r.form.villageName == v &&
              exists d | d in st.devotees :: d.data.villageName == v && d.data.taxpersonName == name && r.form.taxType == d.data.taxType
  {
    var mid := OnVillageChange(st, v);
    var m := FindByName(mid.filteredDevotees, name);
    if m.Some? {
      var i :| 0 <= i < |mid.filteredDevotees| && mid.filteredDevotees[i] == m.value;
      assert m.value in mid.filteredDevotees;
    }
  }

  /** A devotee of that name elsewhere is not found: the form stays as the
      village change left it. */
  lemma DevoteeOfOtherVillageIgnored(st: TaxEntryScreen, v: string, name: string)
    requires forall d | d in st.devotees && d.data.taxpersonName == name :: d.data.villageName != v
    ensures OnDevoteeChange(OnVillageChange(st, v), name) == OnVillageChange(st, v)
  {
  }

  /** The document `add` receives: the raw form value plus its creation time. */
  function EntryRecord(f: EntryForm, now: string): TaxEntry
  {
    TaxEntry(f.devoteeName, f.villageName, f.taxType, f.year, f.amount, f.paymentDate, f.paid, now)
  }

  function EntryFormOf(e: TaxEntry): EntryForm
  {
    EntryForm(e.villageName, e.devoteeName, e.taxType, e.year, e.amount, e.paymentDate, e.paid)
  }

  datatype EntrySave = EntrySave(screen: TaxEntryScreen, added: Option<TaxEntry>)

  /** `save`: an invalid form only sets the error line. A stored entry clears
      village, devotee, amount and paid (tax type back to Full) but keeps year and
      payment date for the next entry, and empties the narrowed list. A refused
      add keeps the form for a retry. */
  function SaveEntry(st: TaxEntryScreen, outcome: AddOutcome, now: string): (r: EntrySave)
    ensures r.added.Some? <==> EntryFormValid(st.form) && outcome == Stored
    ensures r.added.Some? ==> EntryFormOf(r.added.value) == st.form && r.added.value.createdAt == now
    ensures !EntryFormValid(st.form) ==>
      r.screen.form == st.form && r.screen.formError == RequiredFieldsMessage && r.screen.formMessage == ""
    ensures r.added.Some? ==>
      && r.screen.form.villageName == "" && r.screen.form.devoteeName == "" && r.screen.form.taxType == Full
      && r.screen.form.amount == 0 && !r.screen.form.paid
      && r.screen.form.year == st.form.year && r.screen.form.paymentDate == st.form.paymentDate
      && r.screen.filteredDevotees == [] && r.screen.formError == ""
    ensures EntryFormValid(st.form) && outcome == Failed ==>
      r.screen.form == st.form && r.screen.formError != "" && r.screen.formMessage == ""
    ensures EntryFormValid(st.form) ==> !r.screen.isSaving
    ensures r.screen.devotees == st.devotees
  {
    if !EntryFormValid(st.form) then
      EntrySave(st.(formError := RequiredFieldsMessage, formMessage := ""), None)
    else
      match outcome
      case Stored =>
        var cleared := st.form.(villageName := "", devoteeName := "", taxType := Full, amount := 0, paid := false);
        EntrySave(st.(form := cleared, filteredDevotees := [], isSaving := false,
                      formMessage := "Tax entry saved successfully.", formError := ""),
                  Some(EntryRecord(st.form, now)))
      case Failed =>
        EntrySave(st.(isSaving := false, formMessage := "", formError := "Unable to save tax entry right now."), None)
  }

  /** After a stored entry the cleared form is invalid, so a save started after this one completed adds nothing. */
  lemma EntryNoDoubleAdd(st: TaxEntryScreen, outcome: AddOutcome, outcome': AddOutcome, now: string, now': string)
    ensures SaveEntry(st, outcome, now).added.Some? ==>
            SaveEntry(SaveEntry(st, outcome, now).screen, outcome', now').added.None?
  {
  }
}
