/** The overall report: tax, donation and payment entries merged into one
    signed ledger, newest first, beside a net balance computed from the
    screen's own totals. */
module Ledger {
  import opened Models
  import opened Aggregate
  import opened LexOrder
  import opened Totals

  datatype Kind = TaxKind | DonationKind | PaymentKind

  /** The `type` text each row shows and exports. */
  function KindLabel(k: Kind): string
  {
    match k
    case TaxKind => "Tax"
    case DonationKind => "Donation"
    case PaymentKind => "Payment"
  }

  /** One ledger row: `{ date, type, name, amount }`. */
  datatype Transaction = Transaction(date: string, kind: Kind, name: string, amount: int)

  function Abs(x: int): (r: int)
    ensures r >= 0 && (r == x || r == -x)
  {
    if x < 0 then -x else x
  }

  /** Tax entries enter the ledger whether or not they are paid, with their stored amount. */
  function TaxRow(e: WithId<TaxEntry>): Transaction
  {
    Transaction(e.data.paymentDate, TaxKind, e.data.devoteeName, e.data.amount)
  }

  function DonationRow(e: WithId<DonationEntry>): Transaction
  {
    Transaction(e.data.paymentDate, DonationKind, e.data.devoteeName, e.data.amount)
  }

  /** Payments are always outflows: `-Math.abs(amount)`. */
  function PaymentRow(e: WithId<PaymentEntry>): (t: Transaction)
    ensures t.amount <= 0
    ensures t.amount == e.data.amount || t.amount == -e.data.amount
  {
    Transaction(e.data.paymentDate, PaymentKind, e.data.payeeName, -Abs(e.data.amount))
  }

  /** The stored sign of a payment does not matter to its ledger row. */
  lemma PaymentSignIgnored(e: WithId<PaymentEntry>)
    ensures PaymentRow(e.(data := e.data.(amount := -e.data.amount))) == PaymentRow(e)
  {
  }

  function TxAmount(t: Transaction): int { t.amount }
  function PaymentMagnitude(e: WithId<PaymentEntry>): int { Abs(e.data.amount) }

  /** `[...tax, ...donation, ...payments]` before sorting. */
  function Merged(tax: seq<WithId<TaxEntry>>, donations: seq<WithId<DonationEntry>>, payments: seq<WithId<PaymentEntry>>): seq<Transaction>
  {
    Map(tax, TaxRow) + Map(donations, DonationRow) + Map(payments, PaymentRow)
  }

  // ---------------------------------------------------------------------------
  // Sorting by date, newest first. The comparator `b.date.localeCompare(a.date)`
  // is handed to a stable sort, so rows with the same date keep their merged order.

  ghost predicate NewestFirst(s: seq<Transaction>)
  {
    forall i, j | 0 <= i < j < |s| :: LexLe(s[j].date, s[i].date)
  }

  /** Selects the rows dated `d`. */
  function OnDate(d: string): Transaction -> bool
  {
    (t: Transaction) => t.date == d
  }

  /** Places `x` ahead of the first row that is not newer than it. */
  function Insert(x: Transaction, s: seq<Transaction>): (r: seq<Transaction>)
    ensures |r| == |s| + 1
    ensures multiset(r) == multiset(s) + multiset{x}
  {
    if s == [] then [x]
    else if LexLe(s[0].date, x.date) then [x] + s
    else
      assert s == [s[0]] + s[1..];
      [s[0]] + Insert(x, s[1..])
  }

  function SortNewestFirst(s: seq<Transaction>): (r: seq<Transaction>)
    ensures |r| == |s|
    ensures multiset(r) == multiset(s)
  {
    if s == [] then []
    else
      assert s == [s[0]] + s[1..];
      Insert(s[0], SortNewestFirst(s[1..]))
  }

  lemma {:induction false} InsertKeepsOrder(x: Transaction, s: seq<Transaction>)
    requires NewestFirst(s)
    ensures NewestFirst(Insert(x, s))
  {
    if s == [] {
    } else if LexLe(s[0].date, x.date) {
      var r := [x] + s;
      forall i, j | 0 <= i < j < |r| ensures LexLe(r[j].date, r[i].date) {
        if i == 0 {
          if j > 1 {
            LexTransitive(s[j - 1].date, s[0].date, x.date);
          }
        }
      }
    } else {
      LexTotal(s[0].date, x.date);
      InsertKeepsOrder(x, s[1..]);
      var t := Insert(x, s[1..]);
      var r := [s[0]] + t;
      forall j | 0 <= j < |t| ensures LexLe(t[j].date, s[0].date) {
        assert t[j] in multiset(s[1..]) + multiset{x};
        if t[j] != x {
          assert t[j] in s[1..];
        }
      }
      assert NewestFirst(r);
    }
  }

  lemma {:induction false} SortIsNewestFirst(s: seq<Transaction>)
    ensures NewestFirst(SortNewestFirst(s))
  {
    if s != [] {
      SortIsNewestFirst(s[1..]);
      InsertKeepsOrder(s[0], SortNewestFirst(s[1..]));
    }
  }

  lemma {:induction false} InsertOnDate(x: Transaction, s: seq<Transaction>, d: string)
    ensures Filter(Insert(x, s), OnDate(d)) == (if x.date == d then [x] else []) + Filter(s, OnDate(d))
  {
    var p := OnDate(d);
    if s == [] {
      assert Insert(x, s) == [x] + s;
      FilterCons(x, s, p);
    } else if LexLe(s[0].date, x.date) {
      assert Insert(x, s) == [x] + s;
      FilterCons(x, s, p);
    } else {
      LexReflexive(x.date);
      assert s[0].date != x.date;
      var t := Insert(x, s[1..]);
      InsertOnDate(x, s[1..], d);
      FilterCons(s[0], t, p);
      FilterCons(s[0], s[1..], p);
      assert Insert(x, s) == [s[0]] + t;
      assert s == [s[0]] + s[1..];
      var fs := Filter(s[1..], p);
      if x.date == d {
        assert !p(s[0]);
        assert Filter(Insert(x, s), p) == Filter(t, p) == [x] + fs;
        assert Filter(s, p) == fs;
      } else {
        assert Filter(t, p) == fs;
      }
    }
  }


  /** Stability: for every date, the rows of that date appear in merged order. */
  lemma {:induction false} SortKeepsTies(s: seq<Transaction>, d: string)
    ensures Filter(SortNewestFirst(s), OnDate(d)) == Filter(s, OnDate(d))
  {
    if s != [] {
      SortKeepsTies(s[1..], d);
      InsertOnDate(s[0], SortNewestFirst(s[1..]), d);
    }
  }

  /** What any stable newest-first sort of `s` must produce. */
  ghost predicate StableSortOf(r: seq<Transaction>, s: seq<Transaction>)
  {
    NewestFirst(r) && forall d :: Filter(r, OnDate(d)) == Filter(s, OnDate(d))
  }

  lemma {:induction false} StableSortMembers(r: seq<Transaction>, s: seq<Transaction>, x: Transaction)
    requires forall d :: Filter(r, OnDate(d)) == Filter(s, OnDate(d))
    ensures x in r <==> x in s
  {
    assert Filter(r, OnDate(x.date)) == Filter(s, OnDate(x.date));
  }

  /** Two stable sorts of the same rows start with rows of the same date. */
  lemma {:induction false} StableSortHeadDates(r: seq<Transaction>, r': seq<Transaction>, s: seq<Transaction>)
    requires StableSortOf(r, s) && StableSortOf(r', s)
    requires r != [] && r' != []
    ensures r[0].date == r'[0].date
  {
    var x, x' := r[0], r'[0];
    StableSortMembers(r, s, x');
    StableSortMembers(r', s, x');
    StableSortMembers(r, s, x);
    StableSortMembers(r', s, x);
    var i :| 0 <= i < |r| && r[i] == x';
    var i' :| 0 <= i' < |r'| && r'[i'] == x;
    if i == 0 || i' == 0 {
      LexReflexive(x.date);
    } else {
      assert LexLe(x'.date, x.date);
      assert LexLe(x.date, x'.date);
      LexAntisymmetric(x.date, x'.date);
    }
  }

  /** Two stable sorts of the same rows start with the same row. */
  lemma {:induction false} StableSortHeads(r: seq<Transaction>, r': seq<Transaction>, s: seq<Transaction>)
    requires StableSortOf(r, s) && StableSortOf(r', s)
    requires r != [] && r' != []
    ensures r[0] == r'[0]
  {
    StableSortHeadDates(r, r', s);
    var x, x' := r[0], r'[0];
    var p := OnDate(x.date);
    assert r == [x] + r[1..];
    assert r' == [x'] + r'[1..];
    FilterCons(x, r[1..], p);
    FilterCons(x', r'[1..], p);
    assert Filter(r, p)[0] == x;
    assert Filter(r', p)[0] == x';
    assert Filter(r, p) == Filter(s, p) == Filter(r', p);
  }

  /** Dropping the common first row leaves two stable sorts of the same rows. */
  lemma {:induction false} StableSortTails(r: seq<Transaction>, r': seq<Transaction>, s: seq<Transaction>)
    requires StableSortOf(r, s) && StableSortOf(r', s)
    requires r != [] && r' != [] && r[0] == r'[0]
    ensures StableSortOf(r[1..], r[1..]) && StableSortOf(r'[1..], r[1..])
  {
    var x := r[0];
    assert r == [x] + r[1..];
    assert r' == [x] + r'[1..];
    forall e ensures Filter(r[1..], OnDate(e)) == Filter(r'[1..], OnDate(e)) {
      var p := OnDate(e);
      FilterCons(x, r[1..], p);
      FilterCons(x, r'[1..], p);
      var pre := if p(x) then [x] else [];
      assert Filter(r, p) == Filter(s, p) == Filter(r', p);
      assert pre + Filter(r[1..], p) == pre + Filter(r'[1..], p);
      assert Filter(r[1..], p) == (pre + Filter(r[1..], p))[|pre|..];
    }
  }

  /** The newest-first stable order is unique: any stable sort gives these rows in this order. */
  lemma {:induction false} StableSortUnique(r: seq<Transaction>, r': seq<Transaction>, s: seq<Transaction>)
    requires StableSortOf(r, s) && StableSortOf(r', s)
    ensures r == r'
    decreases |r|
  {
    if r == [] {
      if r' != [] {
        StableSortMembers(r', s, r'[0]);
        StableSortMembers(r, s, r'[0]);
      }
    } else if r' == [] {
      StableSortMembers(r, s, r[0]);
      StableSortMembers(r', s, r[0]);
    } else {
      StableSortHeads(r, r', s);
      StableSortTails(r, r', s);
      StableSortUnique(r[1..], r'[1..], r[1..]);
      assert r == [r[0]] + r[1..];
      assert r' == [r'[0]] + r'[1..];
    }
  }

  // ---------------------------------------------------------------------------
  // The ledger

  /** `buildTransactions`: map, concatenate, sort newest first. */
  function BuildTransactions(tax: seq<WithId<TaxEntry>>, donations: seq<WithId<DonationEntry>>, payments: seq<WithId<PaymentEntry>>): (r: seq<Transaction>)
    ensures |r| == |tax| + |donations| + |payments|
    ensures multiset(r) == multiset(Merged(tax, donations, payments))
  {
    SortNewestFirst(Merged(tax, donations, payments))
  }

  /** The ledger is the one newest-first arrangement that keeps same-date rows in
      merged order: tax rows, then donations, then payments, each in feed order. */
  lemma LedgerOrder(tax: seq<WithId<TaxEntry>>, donations: seq<WithId<DonationEntry>>, payments: seq<WithId<PaymentEntry>>)
    ensures StableSortOf(BuildTransactions(tax, donations, payments), Merged(tax, donations, payments))
  {
    var m := Merged(tax, donations, payments);
    SortIsNewestFirst(m);
    forall d ensures Filter(SortNewestFirst(m), OnDate(d)) == Filter(m, OnDate(d)) {
      SortKeepsTies(m, d);
    }
  }

  /** Where a ledger row comes from: tax and donation rows carry an entry's
      date, devotee name and stored amount (paid or not); payment rows are never
      positive and carry a payment's date, payee and negated magnitude. */
  ghost predicate FromEntries(t: Transaction, tax: seq<WithId<TaxEntry>>, donations: seq<WithId<DonationEntry>>,
                              payments: seq<WithId<PaymentEntry>>)
  {
    match t.kind
    case TaxKind =>
      exists e | e in tax :: t.date == e.data.paymentDate && t.name == e.data.devoteeName && t.amount == e.data.amount
    case DonationKind =>
      exists e | e in donations :: t.date == e.data.paymentDate && t.name == e.data.devoteeName && t.amount == e.data.amount
    case PaymentKind =>
      t.amount <= 0 &&
      exists e | e in payments :: t.date == e.data.paymentDate && t.name == e.data.payeeName && t.amount == -Abs(e.data.amount)
  }

  /** Every merged row comes from an entry of its own kind. */
  lemma MergedRowFromEntries(tax: seq<WithId<TaxEntry>>, donations: seq<WithId<DonationEntry>>,
                             payments: seq<WithId<PaymentEntry>>, t: Transaction)
    requires t in Merged(tax, donations, payments)
    ensures FromEntries(t, tax, donations, payments)
  {
    var a, b, c := Map(tax, TaxRow), Map(donations, DonationRow), Map(payments, PaymentRow);
    assert t in a + b + c;
    if t in a {
      var i :| 0 <= i < |a| && a[i] == t;
      assert tax[i] in tax;
    } else if t in b {
      var i :| 0 <= i < |b| && b[i] == t;
      assert donations[i] in donations;
    } else {
      assert t in c;
      var i :| 0 <= i < |c| && c[i] == t;
      assert payments[i] in payments;
    }
  }

  /** Each ledger row comes from one entry, as `FromEntries` describes. */
  lemma LedgerRows(tax: seq<WithId<TaxEntry>>, donations: seq<WithId<DonationEntry>>, payments: seq<WithId<PaymentEntry>>)
    ensures forall t | t in BuildTransactions(tax, donations, payments) :: FromEntries(t, tax, donations, payments)
  {
    var l := BuildTransactions(tax, donations, payments);
    forall t | t in l
      ensures FromEntries(t, tax, donations, payments)
    {
      assert t in multiset(Merged(tax, donations, payments));
      MergedRowFromEntries(tax, donations, payments, t);
    }
  }

  /** Sorting does not change the ledger's total, so it is the total of the merged rows. */
  lemma MergedTotal(tax: seq<WithId<TaxEntry>>, donations: seq<WithId<DonationEntry>>, payments: seq<WithId<PaymentEntry>>)
    ensures Sum(Merged(tax, donations, payments), TxAmount)
         == Sum(tax, TaxAmount) + Sum(donations, DonationAmount) - Sum(payments, PaymentMagnitude)
  {
    var a, b, c := Map(tax, TaxRow), Map(donations, DonationRow), Map(payments, PaymentRow);
    SumAppend(a + b, c, TxAmount);
    SumAppend(a, b, TxAmount);
    SumOfMap(tax, TaxRow, TxAmount, TaxAmount);
    SumOfMap(donations, DonationRow, TxAmount, DonationAmount);
    var neg := (e: WithId<PaymentEntry>) => -PaymentMagnitude(e);
    SumOfMap(payments, PaymentRow, TxAmount, neg);
    SumNegate(payments, PaymentMagnitude, neg);
  }

  /** The ledger's own total counts every tax entry and the magnitude of every payment. */
  lemma LedgerTotal(tax: seq<WithId<TaxEntry>>, donations: seq<WithId<DonationEntry>>, payments: seq<WithId<PaymentEntry>>)
    ensures Sum(BuildTransactions(tax, donations, payments), TxAmount)
         == Sum(tax, TaxAmount) + Sum(donations, DonationAmount) - Sum(payments, PaymentMagnitude)
  {
    SumPermutation(BuildTransactions(tax, donations, payments), Merged(tax, donations, payments), TxAmount);
    MergedTotal(tax, donations, payments);
  }

  lemma {:induction false} SumNegate<T>(s: seq<T>, f: T -> int, g: T -> int)
    requires forall x :: g(x) == -f(x)
    ensures Sum(s, g) == -Sum(s, f)
  {
    if s != [] {
      SumNegate(s[1..], f, g);
    }
  }

  /** `recomputeNet`: realised tax plus donations minus stored payment amounts. */
  function Net(tax: seq<WithId<TaxEntry>>, donations: seq<WithId<DonationEntry>>, payments: seq<WithId<PaymentEntry>>): int
  {
    PaidTaxTotal(tax) + DonationTotal(donations) - PaymentTotal(payments)
  }

  /** Net and ledger diverge by the pending tax and by any payment stored with a negative sign. */
  lemma NetVersusLedger(tax: seq<WithId<TaxEntry>>, donations: seq<WithId<DonationEntry>>, payments: seq<WithId<PaymentEntry>>)
    ensures Sum(BuildTransactions(tax, donations, payments), TxAmount)
         == Net(tax, donations, payments) + SumWhere(tax, IsPending, TaxAmount)
            + PaymentTotal(payments) - Sum(payments, PaymentMagnitude)
    ensures (forall i | 0 <= i < |tax| :: tax[i].data.paid) &&
            (forall i | 0 <= i < |payments| :: payments[i].data.amount >= 0)
            ==> Sum(BuildTransactions(tax, donations, payments), TxAmount) == Net(tax, donations, payments)
  {
    LedgerTotal(tax, donations, payments);
    SumSplit(tax, IsPaid, IsPending, TaxAmount);
    if (forall i | 0 <= i < |tax| :: tax[i].data.paid) &&
       (forall i | 0 <= i < |payments| :: payments[i].data.amount >= 0) {
      NothingPending(tax);
      NonNegativeMagnitudes(payments);
    }
  }

  lemma {:induction false} NothingPending(tax: seq<WithId<TaxEntry>>)
    requires forall i | 0 <= i < |tax| :: tax[i].data.paid
    ensures SumWhere(tax, IsPending, TaxAmount) == 0
  {
    if tax != [] {
      NothingPending(tax[1..]);
    }
  }

  lemma {:induction false} NonNegativeMagnitudes(payments: seq<WithId<PaymentEntry>>)
    requires forall i | 0 <= i < |payments| :: payments[i].data.amount >= 0
    ensures Sum(payments, PaymentMagnitude) == Sum(payments, PaymentAmount)
  {
    if payments != [] {
      NonNegativeMagnitudes(payments[1..]);
    }
  }

  // ---------------------------------------------------------------------------
  // The component: three independent feeds, each recomputing from the last
  // snapshots of the others.

  datatype OverallReport = OverallReport(
    taxEntries: seq<WithId<TaxEntry>>,
    donationEntries: seq<WithId<DonationEntry>>,
    paymentEntries: seq<WithId<PaymentEntry>>,
    totalTax: int,
    totalDonations: int,
    totalPayments: int,
    net: int,
    transactions: seq<Transaction>)

  /** Every displayed figure agrees with the snapshots last received. */
  ghost predicate Consistent(st: OverallReport)
  {
    && st.totalTax == PaidTaxTotal(st.taxEntries)
    && st.totalDonations == DonationTotal(st.donationEntries)
    && st.totalPayments == PaymentTotal(st.paymentEntries)
    && st.net == Net(st.taxEntries, st.donationEntries, st.paymentEntries)
    && st.transactions == BuildTransactions(st.taxEntries, st.donationEntries, st.paymentEntries)
  }

  /** Before any feed delivers: zero totals and an empty ledger. */
  function InitialOverall(): (st: OverallReport)
    ensures Consistent(st)
  {
    OverallReport([], [], [], 0, 0, 0, 0, [])
  }

  function RecomputeNet(st: OverallReport): OverallReport
  {
    st.(net := st.totalTax + st.totalDonations - st.totalPayments)
  }

  function Rebuild(st: OverallReport): OverallReport
  {
    st.(transactions := BuildTransactions(st.taxEntries, st.donationEntries, st.paymentEntries))
  }

  function OnTaxEntries(st: OverallReport, items: seq<WithId<TaxEntry>>): (r: OverallReport)
    ensures r.taxEntries == items
    ensures r.donationEntries == st.donationEntries && r.paymentEntries == st.paymentEntries
    ensures r.totalDonations == st.totalDonations && r.totalPayments == st.totalPayments
    ensures Consistent(st) ==> Consistent(r)
  {
    Rebuild(RecomputeNet(st.(taxEntries := items, totalTax := Sum(Filter(items, IsPaid), TaxAmount))))
  }

  function OnDonationEntries(st: OverallReport, items: seq<WithId<DonationEntry>>): (r: OverallReport)
    ensures r.donationEntries == items
    ensures r.taxEntries == st.taxEntries && r.paymentEntries == st.paymentEntries
    ensures r.totalTax == st.totalTax && r.totalPayments == st.totalPayments
    ensures Consistent(st) ==> Consistent(r)
  {
    Rebuild(RecomputeNet(st.(donationEntries := items, totalDonations := Sum(items, DonationAmount))))
  }

  function OnPaymentEntries(st: OverallReport, items: seq<WithId<PaymentEntry>>): (r: OverallReport)
    ensures r.paymentEntries == items
    ensures r.taxEntries == st.taxEntries && r.donationEntries == st.donationEntries
    ensures r.totalTax == st.totalTax && r.totalDonations == st.totalDonations
    ensures Consistent(st) ==> Consistent(r)
  {
    Rebuild(RecomputeNet(st.(paymentEntries := items, totalPayments := Sum(items, PaymentAmount))))
  }

  // Re-delivering a snapshot changes nothing: recomputation keeps no hidden state.

  // What each handler produces from an arbitrary earlier state.

  lemma TaxDelivery(st: OverallReport, tax: seq<WithId<TaxEntry>>)
    ensures var t := Sum(Filter(tax, IsPaid), TaxAmount);
      OnTaxEntries(st, tax) == OverallReport(tax, st.donationEntries, st.paymentEntries, t, st.totalDonations,
        st.totalPayments, t + st.totalDonations - st.totalPayments, BuildTransactions(tax, st.donationEntries, st.paymentEntries))
  {
  }

  lemma DonationDelivery(st: OverallReport, donations: seq<WithId<DonationEntry>>)
    ensures var t := Sum(donations, DonationAmount);
      OnDonationEntries(st, donations) == OverallReport(st.taxEntries, donations, st.paymentEntries, st.totalTax, t,
        st.totalPayments, st.totalTax + t - st.totalPayments, BuildTransactions(st.taxEntries, donations, st.paymentEntries))
  {
  }

  lemma PaymentDelivery(st: OverallReport, payments: seq<WithId<PaymentEntry>>)
    ensures var t := Sum(payments, PaymentAmount);
      OnPaymentEntries(st, payments) == OverallReport(st.taxEntries, st.donationEntries, payments, st.totalTax,
        st.totalDonations, t, st.totalTax + st.totalDonations - t, BuildTransactions(st.taxEntries, st.donationEntries, payments))
  {
  }

  /** The tax feed's result depends on the earlier state only through the other
      two snapshots and their totals: its own earlier snapshot, tax total, net and
      ledger are all recomputed. */
  lemma TaxFeedForgetsEarlierState(st: OverallReport, st': OverallReport, tax: seq<WithId<TaxEntry>>)
    requires st.donationEntries == st'.donationEntries && st.paymentEntries == st'.paymentEntries
    requires st.totalDonations == st'.totalDonations && st.totalPayments == st'.totalPayments
    ensures OnTaxEntries(st, tax) == OnTaxEntries(st', tax)
  {
    TaxDelivery(st, tax);
    TaxDelivery(st', tax);
  }

  lemma DonationFeedForgetsEarlierState(st: OverallReport, st': OverallReport, donations: seq<WithId<DonationEntry>>)
    requires st.taxEntries == st'.taxEntries && st.paymentEntries == st'.paymentEntries
    requires st.totalTax == st'.totalTax && st.totalPayments == st'.totalPayments
    ensures OnDonationEntries(st, donations) == OnDonationEntries(st', donations)
  {
    DonationDelivery(st, donations);
    DonationDelivery(st', donations);
  }

  lemma PaymentFeedForgetsEarlierState(st: OverallReport, st': OverallReport, payments: seq<WithId<PaymentEntry>>)
    requires st.taxEntries == st'.taxEntries && st.donationEntries == st'.donationEntries
    requires st.totalTax == st'.totalTax && st.totalDonations == st'.totalDonations
    ensures OnPaymentEntries(st, payments) == OnPaymentEntries(st', payments)
  {
    PaymentDelivery(st, payments);
    PaymentDelivery(st', payments);
  }

  lemma TaxRedeliveryIdempotent(st: OverallReport, tax: seq<WithId<TaxEntry>>)
    ensures OnTaxEntries(OnTaxEntries(st, tax), tax) == OnTaxEntries(st, tax)
  {
    TaxDelivery(st, tax);
    TaxDelivery(OnTaxEntries(st, tax), tax);
  }

  lemma DonationRedeliveryIdempotent(st: OverallReport, donations: seq<WithId<DonationEntry>>)
    ensures OnDonationEntries(OnDonationEntries(st, donations), donations) == OnDonationEntries(st, donations)
  {
    DonationDelivery(st, donations);
    DonationDelivery(OnDonationEntries(st, donations), donations);
  }

  lemma PaymentRedeliveryIdempotent(st: OverallReport, payments: seq<WithId<PaymentEntry>>)
    ensures OnPaymentEntries(OnPaymentEntries(st, payments), payments) == OnPaymentEntries(st, payments)
  {
    PaymentDelivery(st, payments);
    PaymentDelivery(OnPaymentEntries(st, payments), payments);
  }
}
