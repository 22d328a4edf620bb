/** The dashboard cards: two counts and four totals, each written by its own
    feed, and how they relate to the tax report over the same snapshots. */
module Dashboard {
  import opened Models
  import opened Aggregate
  import opened Totals
  import TaxReport
  import opened Masters

  datatype DashboardStats = DashboardStats(
    devoteesCount: nat,
    villagesCount: nat,
    taxTotal: int,
    donationTotal: int,
    interestTotal: int,
    expenseTotal: int)

  /** Before any feed delivers, every card shows 0. */
  function InitialDashboard(): (d: DashboardStats)
    ensures d.devoteesCount == 0 && d.villagesCount == 0
    ensures d.taxTotal == 0 && d.donationTotal == 0 && d.interestTotal == 0 && d.expenseTotal == 0
  {
    DashboardStats(0, 0, 0, 0, 0, 0)
  }

  // One handler per feed; each writes its own card and no other.

  function OnDevotees(st: DashboardStats, items: seq<WithId<Devotee>>): (r: DashboardStats)
    ensures r.devoteesCount == |items| && r.(devoteesCount := st.devoteesCount) == st
  {
    st.(devoteesCount := |items|)
  }

  function OnVillages(st: DashboardStats, items: seq<WithId<Village>>): (r: DashboardStats)
    ensures r.villagesCount == |items| && r.(villagesCount := st.villagesCount) == st
  {
    st.(villagesCount := |items|)
  }

  /** Paid entries only, and no devotee-status filter. */
  function OnTaxEntries(st: DashboardStats, items: seq<WithId<TaxEntry>>): (r: DashboardStats)
    ensures r.taxTotal == SumWhere(items, IsPaid, TaxAmount) && r.(taxTotal := st.taxTotal) == st
  {
    st.(taxTotal := PaidTaxTotal(items))
  }

  function OnDonationEntries(st: DashboardStats, items: seq<WithId<DonationEntry>>): (r: DashboardStats)
    ensures r.donationTotal == DonationTotal(items) && r.(donationTotal := st.donationTotal) == st
  {
    st.(donationTotal := DonationTotal(items))
  }

  function OnInterestEntries(st: DashboardStats, items: seq<WithId<InterestEntry>>): (r: DashboardStats)
    ensures r.interestTotal == InterestTotal(items) && r.(interestTotal := st.interestTotal) == st
  {
    st.(interestTotal := InterestTotal(items))
  }

  function OnPaymentEntries(st: DashboardStats, items: seq<WithId<PaymentEntry>>): (r: DashboardStats)
    ensures r.expenseTotal == PaymentTotal(items) && r.(expenseTotal := st.expenseTotal) == st
  {
    st.(expenseTotal := PaymentTotal(items))
  }

  /** Once all six feeds have delivered, the cards depend on the snapshots only:
      not on the earlier state and not on which feed came first. */
  lemma FeedOrderIrrelevant(st: DashboardStats, st': DashboardStats,
    devotees: seq<WithId<Devotee>>, villages: seq<WithId<Village>>, tax: seq<WithId<TaxEntry>>,
    donations: seq<WithId<DonationEntry>>, interest: seq<WithId<InterestEntry>>, payments: seq<WithId<PaymentEntry>>)
    ensures
      OnPaymentEntries(OnInterestEntries(OnDonationEntries(OnTaxEntries(OnVillages(OnDevotees(st,
        devotees), villages), tax), donations), interest), payments)
      ==
      OnDevotees(OnVillages(OnTaxEntries(OnDonationEntries(OnInterestEntries(OnPaymentEntries(st',
        payments), interest), donations), tax), villages), devotees)
  {
  }

  /** Empty snapshots leave every card at 0. */
  lemma EmptySnapshotsShowZero(st: DashboardStats)
    ensures OnPaymentEntries(OnInterestEntries(OnDonationEntries(OnTaxEntries(OnVillages(OnDevotees(st,
              []), []), []), []), []), []) == InitialDashboard()
  {
  }

  // ---------------------------------------------------------------------------
  // Dashboard against tax report

  /** With non-negative amounts, the report's paid total never exceeds the
      dashboard's tax card over the same tax snapshot. */
  lemma ReportPaidWithinDashboard(report: TaxReport.TaxReportScreen, st: DashboardStats)
    requires TaxReport.Consistent(report)
    requires forall i | 0 <= i < |report.allEntries| :: report.allEntries[i].data.amount >= 0
    ensures report.totalPaid <= OnTaxEntries(st, report.allEntries).taxTotal
  {
    FilteredTotalAtMost(report.allEntries, TaxReport.VisibleTest(report.selectedYear, report.activeNames), IsPaid, TaxAmount);
  }

  /** With no year chosen and every entry's devotee Active, the two agree. */
  lemma ReportPaidEqualsDashboard(report: TaxReport.TaxReportScreen, st: DashboardStats)
    requires TaxReport.Consistent(report) && report.selectedYear.None?
    requires forall i | 0 <= i < |report.allEntries| :: report.allEntries[i].data.devoteeName in report.activeNames
    ensures report.totalPaid == OnTaxEntries(st, report.allEntries).taxTotal
  {
    FilterAll(report.allEntries, TaxReport.VisibleTest(report.selectedYear, report.activeNames));
  }

  /** Deactivating the only Active devotee of a name removes every tax entry of
      that name from the report, whatever year is chosen, while the dashboard
      card, which never reads devotees, keeps counting them. */
  lemma DeactivationHidesFromReport(devotees: seq<WithId<Devotee>>, i: int, tax: seq<WithId<TaxEntry>>, year: Option<int>,
                                    st: DashboardStats)
    requires 0 <= i < |devotees| && devotees[i].data.status == Active
    requires forall j | 0 <= j < |devotees| && j != i && devotees[j].data.taxpersonName == devotees[i].data.taxpersonName ::
      devotees[j].data.status == Inactive
    ensures var after := ApplyUpdate(devotees, ToggleStatus(devotees[i], DevoteeStatus), PutDevoteeStatus);
            forall e | e in TaxReport.VisibleEntries(tax, year, TaxReport.ActiveNames(after)) ::
              e.data.devoteeName != devotees[i].data.taxpersonName
    ensures OnTaxEntries(st, tax).taxTotal == SumWhere(tax, IsPaid, TaxAmount)
  {
    var name := devotees[i].data.taxpersonName;
    var after := ApplyUpdate(devotees, ToggleStatus(devotees[i], DevoteeStatus), PutDevoteeStatus);
    assert name !in TaxReport.ActiveNames(after) by {
      forall d | d in after && d.data.taxpersonName == name ensures d.data.status == Inactive {
        var j :| 0 <= j < |after| && after[j] == d;
        if devotees[j].id == devotees[i].id {
          assert d.data.status == Toggle(Active);
        } else {
          assert after[j] == devotees[j];
        }
      }
    }
  }
}
