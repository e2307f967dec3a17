/** The content of an invoice document as `generate_pdf` assembles it: the
    invoice number, the issue date, the item table and the optional notes and
    payment-status lines. Layout, fonts, logo and watermark are not modelled. */
module Rendering {
  import opened Wrappers
  import opened Storage
  import opened Text
  import opened Calendar
  import opened Money
  import opened Numbering
  import opened Records

  /** One row of the item table; amounts in paise. */
  datatype ItemRow =
    | HeaderRow
    | PlanRow(particular: string, baseAmount: int, cgst: int, sgst: int, lineTotal: int)
    | DiscountRow(discount: int)
    | LateFeeRow(lateFee: int)
    | TotalRow(total: int)

  const HsnSac: string := "998422"
  const RateText: string := "9.0%"

  /** The "Particular" cell: plan, months and "Month" in the plural unless
      the months text is exactly "1". */
  function Particular(plan: string, months: string): (s: string)
    ensures s == plan + " - " + months + " Month" || s == plan + " - " + months + " Months"
    ensures (s == plan + " - " + months + " Month") <==> months == "1"
  {
    plan + " - " + months + " Month" + (if months != "1" then "s" else "")
  }

  /** The item table for a total, a discount and a late fee (paise). */
  function ItemRows(plan: string, months: string, total: int, discount: int, lateFee: int): (rows: seq<ItemRow>)
    ensures |rows| == 3 + (if discount != 0 then 1 else 0) + (if lateFee != 0 then 1 else 0)
    ensures rows[0] == HeaderRow
    ensures rows[1] == PlanRow(Particular(plan, months), CalculateAmounts(total).0,
                               CalculateAmounts(total).1, CalculateAmounts(total).1, total)
    ensures (exists i :: 0 <= i < |rows| && rows[i] == DiscountRow(discount)) <==> discount != 0
    ensures (exists i :: 0 <= i < |rows| && rows[i] == LateFeeRow(lateFee)) <==> lateFee != 0
    ensures discount != 0 ==> rows[2] == DiscountRow(discount)
    ensures lateFee != 0 ==> rows[|rows| - 2] == LateFeeRow(lateFee)
    ensures rows[|rows| - 1] == TotalRow(total - discount + lateFee)
  {
    var (base, gst) := CalculateAmounts(total);
    var d: seq<ItemRow> := if discount != 0 then [DiscountRow(discount)] else [];
    var l: seq<ItemRow> := if lateFee != 0 then [LateFeeRow(lateFee)] else [];
    var rows := [HeaderRow, PlanRow(Particular(plan, months), base, gst, gst, total)] + d + l
      + [TotalRow(total - discount + lateFee)];
    assert discount != 0 ==> rows[2] == DiscountRow(discount);
    assert lateFee != 0 ==> rows[2 + |d|] == LateFeeRow(lateFee);
    assert forall i :: 0 <= i < |rows| && rows[i].DiscountRow? ==> i == 2 && discount != 0;
    assert forall i :: 0 <= i < |rows| && rows[i].LateFeeRow? ==> i == 2 + |d| && lateFee != 0;
    rows
  }

  /** The signed contribution of the rows above the total: the plan's line
      total, less each discount, plus each late fee. */
  function Contribution(rows: seq<ItemRow>): int
  {
    if rows == [] then 0
    else
      (match rows[0]
       case PlanRow(_, _, _, _, t) => t
       case DiscountRow(d) => -d
       case LateFeeRow(l) => l
       case _ => 0) + Contribution(rows[1..])
  }

  lemma {:induction false} ContributionAppend(a: seq<ItemRow>, b: seq<ItemRow>)
    ensures Contribution(a + b) == Contribution(a) + Contribution(b)
  {
    if a == [] {
      assert a + b == b;
    } else {
      assert (a + b)[1..] == a[1..] + b;
      ContributionAppend(a[1..], b);
    }
  }

  /** The table adds up: the grand total is the sum of the rows above it. */
  lemma ItemRowsAddUp(plan: string, months: string, total: int, discount: int, lateFee: int)
    ensures var rows := ItemRows(plan, months, total, discount, lateFee);
      rows[|rows| - 1].total == Contribution(rows[..|rows| - 1])
  {
    var rows := ItemRows(plan, months, total, discount, lateFee);
    var (base, gst) := CalculateAmounts(total);
    var head := [HeaderRow, PlanRow(Particular(plan, months), base, gst, gst, total)];
    var d: seq<ItemRow> := if discount != 0 then [DiscountRow(discount)] else [];
    var l: seq<ItemRow> := if lateFee != 0 then [LateFeeRow(lateFee)] else [];
    assert rows[..|rows| - 1] == head + d + l;
    ContributionAppend(head, d);
    ContributionAppend(head + d, l);
    assert Contribution(head) == total by {
      assert head[1..][1..] == [];
    }
  }

  /** Base and tax come from the total alone: the discount and late fee only
      change the rows below the plan row. */
  lemma TaxIgnoresAdjustments(plan: string, months: string, total: int, d1: int, l1: int, d2: int, l2: int)
    ensures ItemRows(plan, months, total, d1, l1)[1] == ItemRows(plan, months, total, d2, l2)[1]
    ensures ItemRows(plan, months, total, d1, l1)[..2] == ItemRows(plan, months, total, d2, l2)[..2]
  {
  }

  /** Rs. 1000.00 with Rs. 100.00 off and a Rs. 20.00 late fee: the plan row
      keeps base Rs. 847.46 and Rs. 76.27 per tax component, and the grand
      total is Rs. 920.00. */
  lemma ItemRowsExample()
    ensures ItemRows("Basic", "1", 100000, 10000, 2000) ==
      [HeaderRow, PlanRow("Basic - 1 Month", 84746, 7627, 7627, 100000),
       DiscountRow(10000), LateFeeRow(2000), TotalRow(92000)]
  {
    RoundHalfUpUnique(100 * 100000, 118, 84746);
    RoundHalfUpUnique(GstPercent * 84746, 100, 7627);
    assert CalculateAmounts(100000) == (84746, 7627);
    assert Particular("Basic", "1") == "Basic - 1 Month";
  }

  /** The eight printed cells of a row. */
  function Cells(row: ItemRow): (cells: seq<string>)
    ensures |cells| == 8
  {
    match row
    case HeaderRow => ["S.No", "Particular", "HSN/SAC", "Amount", "Rate", "CGST", "SGST", "Total"]
    case PlanRow(p, b, c, s, t) =>
      ["1", p, HsnSac, "Rs. " + FormatAmount(b), RateText, "Rs. " + FormatAmount(c),
       "Rs. " + FormatAmount(s), "Rs. " + FormatAmount(t)]
    case DiscountRow(d) => ["", "Discount", "", "", "", "", "", "-Rs. " + FormatAmount(d)]
    case LateFeeRow(l) => ["", "Late Fee", "", "", "", "", "", "+Rs. " + FormatAmount(l)]
    case TotalRow(t) => ["", "Total Invoice Amount", "", "", "", "", "", "Rs. " + FormatAmount(t)]
  }

  /** The amount a row prints in its last column. */
  function RowAmount(row: ItemRow): Option<int>
  {
    match row
    case HeaderRow => None
    case PlanRow(_, _, _, _, t) => Some(t)
    case DiscountRow(d) => Some(d)
    case LateFeeRow(l) => Some(l)
    case TotalRow(t) => Some(t)
  }

  /** The last cell of every amount row reads back, after its currency
      prefix, as exactly the row's figure. */
  lemma LastCellReadsBack(row: ItemRow)
    requires !row.HeaderRow?
    ensures var cell := Cells(row)[7];
      var skip := if row.DiscountRow? || row.LateFeeRow? then 5 else 4;
      |cell| >= skip && ParseAmount(cell[skip..]) == RowAmount(row)
  {
    var p := RowAmount(row).value;
    var cell := Cells(row)[7];
    ParseFormatAmount(p);
    if row.DiscountRow? || row.LateFeeRow? {
      assert cell[5..] == FormatAmount(p);
    } else {
      assert cell[4..] == FormatAmount(p);
    }
  }

  // ---------------------------------------------------------------------------
  // Payment-status line

  /** Position of the first ledger entry for document `filename`. */
  function FirstWithFilename(logs: seq<Entry>, filename: string): (r: Option<nat>)
    ensures r.Some? ==> r.value < |logs| && logs[r.value].filename == filename
    ensures r.Some? ==> forall j :: 0 <= j < r.value ==> logs[j].filename != filename
    ensures r.None? ==> forall j :: 0 <= j < |logs| ==> logs[j].filename != filename
  {
    if logs == [] then None
    else if logs[0].filename == filename then Some(0)
    else
      match FirstWithFilename(logs[1..], filename)
      case None =>
        assert forall j :: 1 <= j < |logs| ==> logs[j] == logs[1..][j - 1];
        None
      case Some(k) => Some(k + 1)
  }

  /** The line an entry contributes: one for Paid and one for Partial,
      naming its payment date and method; none for any other status. */
  function StatusText(e: Entry): (r: Option<string>)
    ensures r.Some? <==> e.status == Paid || e.status == Partial
  {
    if e.status == Paid then
      Some("<b>Payment Status:</b> Paid on " + e.paymentDate + " (" + e.paymentMethod + ")")
    else if e.status == Partial then
      Some("<b>Payment Status:</b> Partial payment on " + e.paymentDate + " (" + e.paymentMethod + ")")
    else None
  }

  /** The payment-status line of a document: taken from the FIRST ledger
      entry with the document's filename; no line when the ledger is absent
      or unreadable or has no such entry. */
  function PaymentStatusLine(ledger: Stored<Entry>, filename: string): (r: Option<string>)
    ensures r.Some? ==> ledger.Present? && FirstWithFilename(ledger.items, filename).Some?
    ensures ledger.Present? && FirstWithFilename(ledger.items, filename).Some? ==>
      r == StatusText(ledger.items[FirstWithFilename(ledger.items, filename).value])
  {
    match ledger
    case Present(logs) =>
      (match FirstWithFilename(logs, filename)
       case None => None
       case Some(k) => StatusText(logs[k]))
    case _ => None
  }

  /** Entries after the first one for a filename never affect its line. */
  lemma StatusLineIgnoresLaterEntries(before: seq<Entry>, e: Entry, after: seq<Entry>)
    requires forall j :: 0 <= j < |before| ==> before[j].filename != e.filename
    ensures PaymentStatusLine(Present(before + [e] + after), e.filename) == StatusText(e)
  {
    var logs := before + [e] + after;
    assert logs[|before|] == e;
    assert forall j :: 0 <= j < |before| ==> logs[j] == before[j];
  }

  // ---------------------------------------------------------------------------
  // The document

  /** What a rendered invoice shows, apart from the fixed supplier text. */
  datatype Document = Document(
    path: string,
    invoiceNumber: string,
    invoiceDate: string,
    data: InvoiceData,
    rows: seq<ItemRow>,
    notes: Option<string>,
    statusLine: Option<string>)

  /** Why rendering failed before any file was written. */
  datatype RenderError = BadFigure(field: string)

  /** `float(data.get(key, 0) or 0)`: an empty text counts as zero. */
  function FigureOf(text: string): (r: Option<int>)
    ensures text == "" ==> r == Some(0)
    ensures text != "" ==> r == ParseAmount(text)
  {
    if text == "" then Some(0) else ParseAmount(text)
  }

  /** A figure printed with two decimals reads back as the same figure,
      so an amount the app wrote itself is never taken as blank. */
  lemma FigureOfFormat(p: int)
    ensures FormatAmount(p) != "" && FigureOf(FormatAmount(p)) == Some(p)
  {
    ParseFormatAmount(p);
  }

  /** The "0" that an empty discount or late fee is replaced by reads as
      the same figure as the empty text itself. */
  lemma ZeroTextIsBlankFigure()
    ensures FigureOf("0") == FigureOf("") == Some(0)
  {
  }

  /** `generate_pdf(data)` up to building the file: the figures are read
      (total, then discount, then late fee), the table is assembled from
      them, and the status line is looked up in the ledger as it stands. */
  function Render(data: InvoiceData, ledger: Stored<Entry>, today: Date): (r: Result<Document, RenderError>)
    requires ValidDate(today)
    ensures r.Ok? <==> ParseAmount(data.totalAmount).Some? && FigureOf(data.discount).Some? &&
                       FigureOf(data.lateFee).Some?
    ensures r.Ok? ==> r.value.invoiceNumber == InvoiceNumberText(data.invoiceNum)
    ensures r.Ok? ==> r.value.path == "output_invoices/" + data.pdfFilename
    ensures r.Ok? ==> r.value.invoiceDate == FormatLongDate(today)
    ensures r.Ok? ==> r.value.rows == ItemRows(data.plan, data.months, ParseAmount(data.totalAmount).value,
                                               FigureOf(data.discount).value, FigureOf(data.lateFee).value)
    ensures r.Ok? ==> (r.value.notes.Some? <==> data.customNotes != "")
    ensures r.Ok? ==> r.value.statusLine == PaymentStatusLine(ledger, data.pdfFilename)
  {
    match ParseAmount(data.totalAmount)
    case None => Err(BadFigure("total_amount"))
    case Some(total) =>
      match FigureOf(data.discount)
      case None => Err(BadFigure("discount"))
      case Some(discount) =>
        match FigureOf(data.lateFee)
        case None => Err(BadFigure("late_fee"))
        case Some(lateFee) =>
          Ok(Document("output_invoices/" + data.pdfFilename,
                      InvoiceNumberText(data.invoiceNum),
                      FormatLongDate(today),
                      data,
                      ItemRows(data.plan, data.months, total, discount, lateFee),
                      if data.customNotes != "" then Some(data.customNotes) else None,
                      PaymentStatusLine(ledger, data.pdfFilename)))
  }
}
