/** The scalar reducers the dashboard, the overall report and the donation and
    payment reports run over their snapshots. A feed that has not delivered
    yet is an empty snapshot, so every total starts at 0. */
module Totals {
  import opened Models
  import opened Aggregate

  /** Realised tax income: `filter(x => x.paid).reduce(+ amount)`. */
  function PaidTaxTotal(tax: seq<WithId<TaxEntry>>): (r: int)
    ensures r == SumWhere(tax, IsPaid, TaxAmount)
  {
    SumOfFilter(tax, IsPaid, TaxAmount);
    Sum(Filter(tax, IsPaid), TaxAmount)
  }

  /** Every donation counts; there is no paid flag on donations. */
  function DonationTotal(donations: seq<WithId<DonationEntry>>): int
  {
    Sum(donations, DonationAmount)
  }

  /** Interest collected; principal amounts are not part of it. */
  function InterestTotal(interest: seq<WithId<InterestEntry>>): int
  {
    Sum(interest, InterestAmount)
  }

  /** Expenses as stored, without taking absolute values. */
  function PaymentTotal(payments: seq<WithId<PaymentEntry>>): int
  {
    Sum(payments, PaymentAmount)
  }

  /** An unpaid entry adds nothing to the paid tax total, wherever it sits in the snapshot. */
  lemma {:induction false} PendingEntryAddsNothing(before: seq<WithId<TaxEntry>>, e: WithId<TaxEntry>, after: seq<WithId<TaxEntry>>)
    requires !e.data.paid
    ensures PaidTaxTotal(before + [e] + after) == PaidTaxTotal(before + after)
  {
    assert [e][1..] == [];
    assert Filter([e], IsPaid) == [];
    FilterAppend(before + [e], after, IsPaid);
    FilterAppend(before, [e], IsPaid);
    FilterAppend(before, after, IsPaid);
    assert Filter(before + [e], IsPaid) == Filter(before, IsPaid) + [] == Filter(before, IsPaid);
    assert Filter(before + [e] + after, IsPaid) == Filter(before + after, IsPaid);
  }

  /** A paid entry raises the paid tax total by exactly its amount. */
  lemma {:induction false} PaidEntryAddsAmount(before: seq<WithId<TaxEntry>>, e: WithId<TaxEntry>, after: seq<WithId<TaxEntry>>)
    requires e.data.paid
    ensures PaidTaxTotal(before + [e] + after) == PaidTaxTotal(before + after) + e.data.amount
  {
    assert [e][1..] == [];
    assert Filter([e], IsPaid) == [e];
    FilterAppend(before + [e], after, IsPaid);
    FilterAppend(before, [e], IsPaid);
    FilterAppend(before, after, IsPaid);
    SumAppend(Filter(before, IsPaid) + [e], Filter(after, IsPaid), TaxAmount);
    SumAppend(Filter(before, IsPaid), [e], TaxAmount);
    SumAppend(Filter(before, IsPaid), Filter(after, IsPaid), TaxAmount);
  }

  /** Interest totals ignore the principal: rewriting every principal leaves the total unchanged. */
  lemma {:induction false} InterestIgnoresPrincipal(a: seq<WithId<InterestEntry>>, b: seq<WithId<InterestEntry>>)
    requires |a| == |b|
    requires forall i | 0 <= i < |a| :: a[i].data.interestAmount == b[i].data.interestAmount
    ensures InterestTotal(a) == InterestTotal(b)
  {
    if a != [] {
      InterestIgnoresPrincipal(a[1..], b[1..]);
    }
  }

  /** No reducer depends on the order in which the store delivered the documents. */
  lemma ArrivalOrderIrrelevant(
    tax: seq<WithId<TaxEntry>>, tax': seq<WithId<TaxEntry>>,
    donations: seq<WithId<DonationEntry>>, donations': seq<WithId<DonationEntry>>,
    interest: seq<WithId<InterestEntry>>, interest': seq<WithId<InterestEntry>>,
    payments: seq<WithId<PaymentEntry>>, payments': seq<WithId<PaymentEntry>>)
    requires multiset(tax) == multiset(tax')
    requires multiset(donations) == multiset(donations')
    requires multiset(interest) == multiset(interest')
    requires multiset(payments) == multiset(payments')
    ensures PaidTaxTotal(tax) == PaidTaxTotal(tax')
    ensures DonationTotal(donations) == DonationTotal(donations')
    ensures InterestTotal(interest) == InterestTotal(interest')
    ensures PaymentTotal(payments) == PaymentTotal(payments')
  {
    var f, f' := Filter(tax, IsPaid), Filter(tax', IsPaid);
    assert multiset(f) == multiset(f') by {
      forall x ensures multiset(f)[x] == multiset(f')[x] {
        FilterCounts(tax, IsPaid, x);
        FilterCounts(tax', IsPaid, x);
      }
    }
    SumPermutation(f, f', TaxAmount);
    SumPermutation(donations, donations', DonationAmount);
    SumPermutation(interest, interest', InterestAmount);
    SumPermutation(payments, payments', PaymentAmount);
  }
}
