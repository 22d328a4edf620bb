/** The tax report: tax entries restricted to devotees that are currently
    Active and, optionally, to one year, with paid and pending sub-totals and
    the list of selectable years. */
module TaxReport {
  import opened Models
  import opened Aggregate
  import opened Text

  /** `activeDevoteeNames`: the names of devotees whose status is Active. */
  function ActiveNames(devotees: seq<WithId<Devotee>>): (r: set<string>)
    ensures forall n :: n in r <==> exists d | d in devotees :: d.data.status == Active && d.data.taxpersonName == n
  {
    if devotees == [] then {}
    else
      assert devotees == [devotees[0]] + devotees[1..];
      (if devotees[0].data.status == Active then {devotees[0].data.taxpersonName} else {}) + ActiveNames(devotees[1..])
  }

  /** `selectedYear === null || item.year === selectedYear`. */
  predicate MatchesYear(e: WithId<TaxEntry>, year: Option<int>)
  {
    year.None? || e.data.year == year.value
  }

  /** The report's row test: the year matches and the devotee is Active. */
  function VisibleTest(year: Option<int>, activeNames: set<string>): WithId<TaxEntry> -> bool
  {
    (e: WithId<TaxEntry>) => MatchesYear(e, year) && e.data.devoteeName in activeNames
  }

  function VisibleEntries(all: seq<WithId<TaxEntry>>, year: Option<int>, activeNames: set<string>): (r: seq<WithId<TaxEntry>>)
    ensures forall e | e in r :: e in all && e.data.devoteeName in activeNames
    ensures forall e | e in r :: year.Some? ==> e.data.year == year.value
    ensures forall e | e in all && e.data.devoteeName in activeNames && MatchesYear(e, year) :: e in r
  {
    Filter(all, VisibleTest(year, activeNames))
  }

  /** The visible rows keep the order of the snapshot. */
  lemma VisibleKeepsOrder(all: seq<WithId<TaxEntry>>, year: Option<int>, activeNames: set<string>)
    ensures IsSubsequence(VisibleEntries(all, year, activeNames), all)
  {
    FilterIsSubsequence(all, VisibleTest(year, activeNames));
  }

  /** Every visible row belongs to a devotee record that is Active right now;
      rows whose name resolves to no Active devotee are silently dropped. */
  lemma VisibleRowsResolve(all: seq<WithId<TaxEntry>>, year: Option<int>, devotees: seq<WithId<Devotee>>)
    ensures forall e | e in VisibleEntries(all, year, ActiveNames(devotees)) ::
      exists d | d in devotees :: d.data.status == Active && d.data.taxpersonName == e.data.devoteeName
    ensures forall e | e in all && MatchesYear(e, year) ::
      e !in VisibleEntries(all, year, ActiveNames(devotees)) <==>
      forall d | d in devotees && d.data.taxpersonName == e.data.devoteeName :: d.data.status == Inactive
  {
  }

  // ---------------------------------------------------------------------------
  // Year options

  /** One entry of the year drop-down (`label` in the screen); `value = None` is "All Years". */
  datatype YearOption = YearOption(caption: string, value: Option<int>)

  function AllYears(): YearOption
  {
    YearOption("All Years", None)
  }

  ghost predicate StrictlyDescending(s: seq<int>)
  {
    forall i, j | 0 <= i < j < |s| :: s[i] > s[j]
  }

  /** Adds `y` to a strictly descending list of distinct years. */
  function InsertYear(y: int, s: seq<int>): (r: seq<int>)
    requires StrictlyDescending(s)
    ensures StrictlyDescending(r)
    ensures forall x :: x in r <==> x == y || x in s
  {
    if s == [] then [y]
    else if y > s[0] then [y] + s
    else if y == s[0] then s
    else
      var t := InsertYear(y, s[1..]);
      assert forall k | 0 <= k < |t| :: t[k] in t;
      assert forall k | 1 <= k < |s| :: s[k] in s[1..];
      [s[0]] + t
  }

  /** `Array.from(new Set(years)).sort((a, b) => b - a)`. */
  function DistinctYears(entries: seq<WithId<TaxEntry>>): (r: seq<int>)
    ensures StrictlyDescending(r)
    ensures forall y :: y in r <==> exists e | e in entries :: e.data.year == y
  {
    if entries == [] then []
    else
      assert entries == [entries[0]] + entries[1..];
      InsertYear(entries[0].data.year, DistinctYears(entries[1..]))
  }

  /** A set of years has one strictly descending arrangement, so the
      deduplicate-then-sort the screen performs gives exactly `DistinctYears`. */
  lemma {:induction false} DescendingUnique(a: seq<int>, b: seq<int>)
    requires StrictlyDescending(a) && StrictlyDescending(b)
    requires forall y :: y in a <==> y in b
    ensures a == b
  {
    if a != [] && b != [] {
      assert a[0] in b && b[0] in a;
      assert a[0] == b[0];
      forall y ensures y in a[1..] <==> y in b[1..] {
        if y in a[1..] { assert y < a[0]; }
        if y in b[1..] { assert y < b[0]; }
        assert y in a <==> y == a[0] || y in a[1..];
        assert y in b <==> y == b[0] || y in b[1..];
      }
      DescendingUnique(a[1..], b[1..]);
      assert a == [a[0]] + a[1..];
      assert b == [b[0]] + b[1..];
    } else {
      HeadIsMember(a);
      HeadIsMember(b);
    }
  }

  lemma HeadIsMember(s: seq<int>)
    ensures s != [] ==> s[0] in s
  {
  }

  function OptionForYear(y: int): YearOption
  {
    YearOption(IntToString(y), Some(y))
  }

  /** `yearOptions`: the "All Years" sentinel, then each year present, newest first. */
  function YearOptions(entries: seq<WithId<TaxEntry>>): (r: seq<YearOption>)
    ensures |r| >= 1 && r[0] == AllYears()
    ensures forall i | 1 <= i < |r| :: r[i].value.Some? && r[i].caption == IntToString(r[i].value.value)
    ensures forall i, j | 1 <= i < j < |r| :: r[i].value.value > r[j].value.value
    ensures forall y :: (exists i | 1 <= i < |r| :: r[i].value == Some(y)) <==> exists e | e in entries :: e.data.year == y
  {
    var years := DistinctYears(entries);
    var r := [AllYears()] + Map(years, OptionForYear);
    YearsListed(years, r);
    r
  }

  /** The options after the sentinel list exactly the given years. */
  lemma YearsListed(years: seq<int>, r: seq<YearOption>)
    requires r == [AllYears()] + Map(years, OptionForYear)
    ensures forall y :: (exists i | 1 <= i < |r| :: r[i].value == Some(y)) <==> y in years
  {
    forall y ensures (exists i | 1 <= i < |r| :: r[i].value == Some(y)) <==> y in years {
      if y in years {
        var k :| 0 <= k < |years| && years[k] == y;
        assert r[k + 1].value == Some(y);
      }
    }
  }

  // ---------------------------------------------------------------------------
  // The component

  datatype TaxReportScreen = TaxReportScreen(
    entries: seq<WithId<TaxEntry>>,
    allEntries: seq<WithId<TaxEntry>>,
    activeNames: set<string>,
    totalPaid: int,
    totalPending: int,
    selectedYear: Option<int>,
    yearOptions: seq<YearOption>)

  /** The displayed rows, totals and options agree with the last snapshots and the chosen year. */
  ghost predicate Consistent(st: TaxReportScreen)
  {
    && st.entries == VisibleEntries(st.allEntries, st.selectedYear, st.activeNames)
    && st.totalPaid == SumWhere(st.entries, IsPaid, TaxAmount)
    && st.totalPending == SumWhere(st.entries, IsPending, TaxAmount)
    && st.yearOptions == YearOptions(st.allEntries)
  }

  function InitialTaxReport(): (st: TaxReportScreen)
    ensures Consistent(st)
  {
    TaxReportScreen([], [], {}, 0, 0, None, [AllYears()])
  }

  /** `recompute`: filter, then the paid and pending sub-totals of what is visible. */
  function Recompute(st: TaxReportScreen): (r: TaxReportScreen)
    ensures r.allEntries == st.allEntries && r.activeNames == st.activeNames
    ensures r.selectedYear == st.selectedYear && r.yearOptions == st.yearOptions
    ensures r.totalPaid == SumWhere(r.entries, IsPaid, TaxAmount)
    ensures r.totalPending == SumWhere(r.entries, IsPending, TaxAmount)
    ensures r.totalPaid + r.totalPending == Sum(r.entries, TaxAmount)
    ensures st.yearOptions == YearOptions(st.allEntries) ==> Consistent(r)
  {
    var entries := Filter(st.allEntries, VisibleTest(st.selectedYear, st.activeNames));
    SumOfFilter(entries, IsPaid, TaxAmount);
    SumOfFilter(entries, IsPending, TaxAmount);
    SumSplit(entries, IsPaid, IsPending, TaxAmount);
    st.(entries := entries,
        totalPaid := Sum(Filter(entries, IsPaid), TaxAmount),
        totalPending := Sum(Filter(entries, IsPending), TaxAmount))
  }

  /** The devotees feed: refresh the Active name set and recompute. */
  function OnDevotees(st: TaxReportScreen, devotees: seq<WithId<Devotee>>): (r: TaxReportScreen)
    ensures r.activeNames == ActiveNames(devotees)
    ensures r.allEntries == st.allEntries && r.selectedYear == st.selectedYear
    ensures Consistent(st) ==> Consistent(r)
  {
    Recompute(st.(activeNames := ActiveNames(devotees)))
  }

  /** The tax-entries feed: keep the snapshot, rebuild the year options and recompute. */
  function OnTaxEntries(st: TaxReportScreen, items: seq<WithId<TaxEntry>>): (r: TaxReportScreen)
    ensures r.allEntries == items && r.activeNames == st.activeNames && r.selectedYear == st.selectedYear
    ensures Consistent(r)
  {
    Recompute(st.(allEntries := items, yearOptions := YearOptions(items)))
  }

  /** `onYearChange`: only the selected year changes among the inputs. */
  function OnYearChange(st: TaxReportScreen, year: Option<int>): (r: TaxReportScreen)
    ensures r.selectedYear == year
    ensures r.allEntries == st.allEntries && r.activeNames == st.activeNames && r.yearOptions == st.yearOptions
    ensures forall e | e in r.entries :: MatchesYear(e, year) && e.data.devoteeName in st.activeNames
    ensures Consistent(st) ==> Consistent(r)
  {
    Recompute(st.(selectedYear := year))
  }

  /** Nothing to show, or nobody Active, gives an empty view with zero totals. */
  lemma EmptyView(st: TaxReportScreen)
    requires st.allEntries == [] || st.activeNames == {}
    ensures Recompute(st).entries == []
    ensures Recompute(st).totalPaid == 0 && Recompute(st).totalPending == 0
  {
    FilterNone(st.allEntries, VisibleTest(st.selectedYear, st.activeNames));
  }
}
