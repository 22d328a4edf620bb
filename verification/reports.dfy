/** The donation and payment reports (the snapshot as it arrives, with an
    unfiltered total), and the records and columns every report hands to the
    exporter. */
module Reports {
  import opened Models
  import opened Aggregate
  import opened Totals
  import opened Export
  import Ledger
  import Dashboard

  /** A report screen: the rows shown and their total. */
  datatype EntryReport<T> = EntryReport(entries: seq<WithId<T>>, total: int)

  function InitialReport<T>(): (r: EntryReport<T>)
    ensures r.entries == [] && r.total == 0
  {
    EntryReport([], 0)
  }

  /** The donations feed: every entry is shown, in the order delivered, and every
      amount counts. */
  function OnDonationEntries(st: EntryReport<DonationEntry>, items: seq<WithId<DonationEntry>>): (r: EntryReport<DonationEntry>)
    ensures r.entries == items
    ensures r.total == DonationTotal(items)
    ensures items == [] ==> r.total == 0
  {
    EntryReport(items, Sum(items, DonationAmount))
  }

  /** The payments feed: amounts are summed as stored, without taking magnitudes. */
  function OnPaymentEntries(st: EntryReport<PaymentEntry>, items: seq<WithId<PaymentEntry>>): (r: EntryReport<PaymentEntry>)
    ensures r.entries == items
    ensures r.total == PaymentTotal(items)
    ensures items == [] ==> r.total == 0
  {
    EntryReport(items, Sum(items, PaymentAmount))
  }

  /** Over one donations snapshot, the report, the dashboard card and the overall
      report show the same figure. */
  lemma DonationFiguresAgree(st: EntryReport<DonationEntry>, dash: Dashboard.DashboardStats,
                             overall: Ledger.OverallReport, items: seq<WithId<DonationEntry>>)
    ensures OnDonationEntries(st, items).total == Dashboard.OnDonationEntries(dash, items).donationTotal
    ensures Ledger.Consistent(overall) ==>
      OnDonationEntries(st, items).total == Ledger.OnDonationEntries(overall, items).totalDonations
  {
  }

  /** Over one payments snapshot, the report, the dashboard expense card and the
      overall report show the same figure; the ledger's payment rows instead sum
      to minus the magnitudes. */
  lemma PaymentFiguresAgree(st: EntryReport<PaymentEntry>, dash: Dashboard.DashboardStats,
                            overall: Ledger.OverallReport, items: seq<WithId<PaymentEntry>>)
    ensures OnPaymentEntries(st, items).total == Dashboard.OnPaymentEntries(dash, items).expenseTotal
    ensures Ledger.Consistent(overall) ==>
      OnPaymentEntries(st, items).total == Ledger.OnPaymentEntries(overall, items).totalPayments
  {
  }

  // ---------------------------------------------------------------------------
  // Records as the exporter reads them, field by field

  function TaxTypeText(t: TaxType): string
  {
    match t
    case Full => "Full"
    case Half => "Half"
  }

  function DonationRecord(e: WithId<DonationEntry>): Row
  {
    map["id" := Str(e.id), "devoteeName" := Str(e.data.devoteeName), "donationType" := Str(e.data.donationType),
        "amount" := Num(e.data.amount), "paymentDate" := Str(e.data.paymentDate), "notes" := Str(e.data.notes),
        "createdAt" := Str(e.data.createdAt)]
  }

  function PaymentRecord(e: WithId<PaymentEntry>): Row
  {
    map["id" := Str(e.id), "payeeName" := Str(e.data.payeeName), "category" := Str(e.data.category),
        "amount" := Num(e.data.amount), "paymentDate" := Str(e.data.paymentDate), "notes" := Str(e.data.notes),
        "createdAt" := Str(e.data.createdAt)]
  }

  function TaxEntryRecord(e: WithId<TaxEntry>): Row
  {
    map["id" := Str(e.id), "devoteeName" := Str(e.data.devoteeName), "villageName" := Str(e.data.villageName),
        "taxType" := Str(TaxTypeText(e.data.taxType)), "year" := Num(e.data.year), "amount" := Num(e.data.amount),
        "paymentDate" := Str(e.data.paymentDate), "paid" := Bool(e.data.paid), "createdAt" := Str(e.data.createdAt)]
  }

  function TransactionRecord(t: Ledger.Transaction): Row
  {
    map["date" := Str(t.date), "type" := Str(Ledger.KindLabel(t.kind)), "name" := Str(t.name), "amount" := Num(t.amount)]
  }

  function DonationColumns(): seq<Column>
  {
    [Column("Devotee", "devoteeName"), Column("Donation Type", "donationType"), Column("Amount", "amount"),
     Column("Date", "paymentDate"), Column("Notes", "notes")]
  }

  function PaymentColumns(): seq<Column>
  {
    [Column("Payee", "payeeName"), Column("Category", "category"), Column("Amount", "amount"),
     Column("Date", "paymentDate"), Column("Notes", "notes")]
  }

  function TaxReportColumns(): seq<Column>
  {
    [Column("Devotee", "devoteeName"), Column("Village", "villageName"), Column("Year", "year"),
     Column("Amount", "amount"), Column("Paid", "paid")]
  }

  function OverallColumns(): seq<Column>
  {
    [Column("Date", "date"), Column("Type", "type"), Column("Name", "name"), Column("Amount", "amount")]
  }

  // ---------------------------------------------------------------------------
  // What each report exports

  /** Every PDF body row is the row of cells of one record. */
  lemma PdfRowsAreRecordCells(title: string, rows: seq<Row>, columns: seq<Column>)
    ensures var t := ExportPdf(title, rows, columns);
      |t.body| == |rows| && forall i | 0 <= i < |rows| :: t.body[i] == RowCells(rows[i], columns)
  {
    var t := ExportPdf(title, rows, columns);
    forall i | 0 <= i < |rows|
      ensures t.body[i] == RowCells(rows[i], columns)
    {
      var c := RowCells(rows[i], columns);
      assert |t.body[i]| == |c|;
      assert forall j | 0 <= j < |columns| :: t.body[i][j] == c[j];
    }
  }

  lemma DonationCells(e: WithId<DonationEntry>)
    ensures RowCells(DonationRecord(e), DonationColumns()) ==
      [CellStr(e.data.devoteeName), CellStr(e.data.donationType), CellNum(e.data.amount),
       CellStr(e.data.paymentDate), CellStr(e.data.notes)]
  {
  }

  lemma PaymentCells(e: WithId<PaymentEntry>)
    ensures RowCells(PaymentRecord(e), PaymentColumns()) ==
      [CellStr(e.data.payeeName), CellStr(e.data.category), CellNum(e.data.amount),
       CellStr(e.data.paymentDate), CellStr(e.data.notes)]
  {
  }

  lemma TaxEntryCells(e: WithId<TaxEntry>)
    ensures RowCells(TaxEntryRecord(e), TaxReportColumns()) ==
      [CellStr(e.data.devoteeName), CellStr(e.data.villageName), CellNum(e.data.year),
       CellNum(e.data.amount), CellBool(e.data.paid)]
  {
  }

  lemma TransactionCells(x: Ledger.Transaction)
    ensures RowCells(TransactionRecord(x), OverallColumns()) ==
      [CellStr(x.date), CellStr(Ledger.KindLabel(x.kind)), CellStr(x.name), CellNum(x.amount)]
  {
  }

  /** The donation report's PDF: per shown entry the devotee, type, amount, date
      and notes. */
  lemma DonationPdf(st: EntryReport<DonationEntry>)
    ensures var t := ExportPdf("Donation Report", Map(st.entries, DonationRecord), DonationColumns());
      && |t.body| == |st.entries|
      && forall i | 0 <= i < |st.entries| ::
           var e := st.entries[i].data;
           t.body[i] == [CellStr(e.devoteeName), CellStr(e.donationType), CellNum(e.amount), CellStr(e.paymentDate), CellStr(e.notes)]
  {
    var rows := Map(st.entries, DonationRecord);
    PdfRowsAreRecordCells("Donation Report", rows, DonationColumns());
    forall i | 0 <= i < |st.entries| {
      DonationCells(st.entries[i]);
    }
  }

  /** The payment report's PDF shows each amount as stored, sign included. */
  lemma PaymentPdf(st: EntryReport<PaymentEntry>)
    ensures var t := ExportPdf("Payment Report", Map(st.entries, PaymentRecord), PaymentColumns());
      && |t.body| == |st.entries|
      && forall i | 0 <= i < |st.entries| ::
           var e := st.entries[i].data;
           t.body[i] == [CellStr(e.payeeName), CellStr(e.category), CellNum(e.amount), CellStr(e.paymentDate), CellStr(e.notes)]
  {
    var rows := Map(st.entries, PaymentRecord);
    PdfRowsAreRecordCells("Payment Report", rows, PaymentColumns());
    forall i | 0 <= i < |st.entries| {
      PaymentCells(st.entries[i]);
    }
  }

  /** The tax report exports only the visible entries; the paid flag is a boolean cell. */
  lemma TaxReportPdf(entries: seq<WithId<TaxEntry>>)
    ensures var t := ExportPdf("Tax Report", Map(entries, TaxEntryRecord), TaxReportColumns());
      && |t.body| == |entries|
      && forall i | 0 <= i < |entries| ::
           var e := entries[i].data;
           t.body[i] == [CellStr(e.devoteeName), CellStr(e.villageName), CellNum(e.year), CellNum(e.amount), CellBool(e.paid)]
  {
    var rows := Map(entries, TaxEntryRecord);
    PdfRowsAreRecordCells("Tax Report", rows, TaxReportColumns());
    forall i | 0 <= i < |entries| {
      TaxEntryCells(entries[i]);
    }
  }

  /** The overall report exports the ledger rows: date, kind label, name, signed amount. */
  lemma OverallPdf(transactions: seq<Ledger.Transaction>)
    ensures var t := ExportPdf("Overall Transactions", Map(transactions, TransactionRecord), OverallColumns());
      && |t.body| == |transactions|
      && forall i | 0 <= i < |transactions| ::
           var x := transactions[i];
           t.body[i] == [CellStr(x.date), CellStr(Ledger.KindLabel(x.kind)), CellStr(x.name), CellNum(x.amount)]
  {
    var rows := Map(transactions, TransactionRecord);
    PdfRowsAreRecordCells("Overall Transactions", rows, OverallColumns());
    forall i | 0 <= i < |transactions| {
      TransactionCells(transactions[i]);
    }
  }

  /** Each report's headers are distinct and none is `__proto__` (the next
      lemma), so its spreadsheet carries the same cells as its PDF. */
  lemma ReportHeadersDistinct()
    ensures DistinctHeaders(DonationColumns()) && DistinctHeaders(PaymentColumns())
    ensures DistinctHeaders(TaxReportColumns()) && DistinctHeaders(OverallColumns())
  {
  }

  /** No report has a `__proto__` or array-index header, so every header becomes a
      spreadsheet key and the keys keep column order (`ExcelKeyOrderIsHead`). */
  lemma ReportHeadersAreKeys()
    ensures NoProtoHeader(DonationColumns()) && NoProtoHeader(PaymentColumns())
    ensures NoProtoHeader(TaxReportColumns()) && NoProtoHeader(OverallColumns())
    ensures NoIndexHeader(DonationColumns()) && NoIndexHeader(PaymentColumns())
    ensures NoIndexHeader(TaxReportColumns()) && NoIndexHeader(OverallColumns())
  {
  }
}
