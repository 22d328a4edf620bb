/** The temple administration records, as the collection store delivers them.
    Every document read from a collection carries the identifier the store gave it. */
module Models {

  /** An optional value: a missing document, an unset filter, an absent stored setting. */
  datatype Option<T> = None | Some(value: T)

  /** Reference-data lifecycle flag; masters are deactivated, never deleted. */
  datatype Status = Active | Inactive

  /** Tax category of a devotee, a tax rule and a tax entry. */
  datatype TaxType = Full | Half

  /** A stored document: the record fields plus the store's string identifier. */
  datatype WithId<T> = WithId(id: string, data: T)

  datatype Village = Village(
    name: string,
    post: string,
    taluk: string,
    district: string,
    representative: string,
    createdAt: string)

  /** A devotee refers to its village by name, not by identifier. */
  datatype Devotee = Devotee(
    villageName: string,
    taxpersonName: string,
    fatherName: string,
    taxType: TaxType,
    status: Status,
    splName: string,
    currentLocation: string,
    createdAt: string)

  /** `taxType` is the stored field `type`, renamed because `type` is a Dafny keyword. */
  datatype TaxMaster = TaxMaster(
    taxAmount: int,
    taxType: TaxType,
    interestPercentage: int,
    status: Status,
    createdAt: string)

  datatype DonationMaster = DonationMaster(
    donationType: string,
    description: string,
    status: Status,
    createdAt: string)

  datatype PettyCashMaster = PettyCashMaster(
    issueType: string,
    description: string,
    status: Status,
    createdAt: string)

  /** A tax entry names its devotee by `taxpersonName`; `paid = false` marks it pending. */
  datatype TaxEntry = TaxEntry(
    devoteeName: string,
    villageName: string,
    taxType: TaxType,
    year: int,
    amount: int,
    paymentDate: string,
    paid: bool,
    createdAt: string)

  datatype DonationEntry = DonationEntry(
    devoteeName: string,
    donationType: string,
    amount: int,
    paymentDate: string,
    notes: string,
    createdAt: string)

  /** Interest is recorded beside, not inside, the principal it was charged on. */
  datatype InterestEntry = InterestEntry(
    devoteeName: string,
    principalAmount: int,
    interestAmount: int,
    paymentDate: string,
    notes: string,
    createdAt: string)

  /** An outflow; the stored amount is taken as recorded, whatever its sign. */
  datatype PaymentEntry = PaymentEntry(
    payeeName: string,
    category: string,
    amount: int,
    paymentDate: string,
    notes: string,
    createdAt: string)

  /** The status flip behind every "toggle status" button. */
  function Toggle(s: Status): (r: Status)
    ensures r != s
  {
    match s
    case Active => Inactive
    case Inactive => Active
  }

  lemma ToggleInvolution(s: Status)
    ensures Toggle(Toggle(s)) == s
  {
  }

  // Field accessors handed to the generic reductions.

  function TaxAmount(e: WithId<TaxEntry>): int { e.data.amount }
  predicate IsPaid(e: WithId<TaxEntry>) { e.data.paid }
  predicate IsPending(e: WithId<TaxEntry>) { !e.data.paid }
  function DonationAmount(e: WithId<DonationEntry>): int { e.data.amount }
  function InterestAmount(e: WithId<InterestEntry>): int { e.data.interestAmount }
  function PaymentAmount(e: WithId<PaymentEntry>): int { e.data.amount }
}
