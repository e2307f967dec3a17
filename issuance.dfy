/** `validate_and_submit`: the invoice form is checked field by field, a
    number is read from the counter, the document is rendered, and only then
    is the number stored and the invoice logged. */
module Issuance {
  import opened Wrappers
  import opened Storage
  import opened Text
  import opened Calendar
  import opened Money
  import opened Numbering
  import opened Records
  import opened InvoiceLog
  import opened Rendering

  /** What the invoice form holds when Generate is pressed. */
  datatype InvoiceForm = InvoiceForm(
    name: string,
    customerId: string,
    tenantName: string,
    customerAddress: string,
    customerGstin: string,
    billingFrom: string,
    billingTo: string,
    plan: string,
    months: string,
    totalAmount: string,
    discount: string,
    lateFee: string,
    notes: string,
    paymentStatus: string,
    paymentMethod: string)

  /** Why an issuance was refused or abandoned. */
  datatype IssueError =
    | FieldRequired(field: string)
    | BadDateFormat
    | BadDateRange
    | BadAmountFormat
    | NonPositiveAmount
    | MissingPaymentMethod
    | RenderFailed

  /** The required fields, in the order they are checked. */
  function Required(f: InvoiceForm): seq<(string, string)>
  {
    [("Name", f.name), ("Customer ID", f.customerId), ("Tenant Name", f.tenantName),
     ("Customer Address", f.customerAddress), ("Plan", f.plan), ("Total Amount", f.totalAmount)]
  }

  /** A form the checks let through, stated condition by condition. */
  predicate Acceptable(f: InvoiceForm)
  {
    && f.name != "" && f.customerId != "" && f.tenantName != "" && f.customerAddress != ""
    && f.plan != "" && f.totalAmount != ""
    && ParseDate(f.billingFrom).Some? && ParseDate(f.billingTo).Some?
    && DayRank(ParseDate(f.billingFrom).value) <= DayRank(ParseDate(f.billingTo).value)
    && ParseAmount(f.totalAmount).Some? && ParseAmount(f.totalAmount).value > 0
    && !(f.paymentStatus == Paid && f.paymentMethod == "")
  }

  /** The required-field check passes exactly when all six fields are
      filled, and a field it reports is one of them, left empty. */
  lemma RequiredChecked(f: InvoiceForm)
    ensures FirstEmpty(Required(f)).None? <==>
      f.name != "" && f.customerId != "" && f.tenantName != "" && f.customerAddress != "" &&
      f.plan != "" && f.totalAmount != ""
    ensures FirstEmpty(Required(f)).Some? ==> (FirstEmpty(Required(f)).value, "") in Required(f)
  {
    var req, missing := Required(f), FirstEmpty(Required(f));
    if missing.Some? {
      var i :| 0 <= i < |req| && FirstEmptyAt(req, i, missing.value);
      assert req[i] == (missing.value, "");
    } else {
      assert req[0].1 != "" && req[1].1 != "" && req[2].1 != "";
      assert req[3].1 != "" && req[4].1 != "" && req[5].1 != "";
    }
  }

  /** The checks before the amount's: every required field is filled and
      both billing dates parse, "from" no later than "to". */
  predicate DatesChecked(f: InvoiceForm)
  {
    && FirstEmpty(Required(f)).None?
    && ParseDate(f.billingFrom).Some? && ParseDate(f.billingTo).Some?
    && DayRank(ParseDate(f.billingFrom).value) <= DayRank(ParseDate(f.billingTo).value)
  }

  /** The checks of `validate_and_submit`, in order; the first that fails
      gives the error, None means the form is accepted. */
  function Validate(f: InvoiceForm): (r: Option<IssueError>)
    ensures r.None? <==> Acceptable(f)
    ensures r.Some? ==> !r.value.RenderFailed?
    ensures r.Some? && r.value.FieldRequired? ==> (r.value.field, "") in Required(f)
    ensures FirstEmpty(Required(f)).Some? ==> r == Some(FieldRequired(FirstEmpty(Required(f)).value))
    ensures FirstEmpty(Required(f)).None? ==>
      (r == Some(BadDateFormat) <==> ParseDate(f.billingFrom).None? || ParseDate(f.billingTo).None?)
    ensures r == Some(BadDateRange) ==>
      FirstEmpty(Required(f)).None? && ParseDate(f.billingFrom).Some? && ParseDate(f.billingTo).Some? &&
      DayRank(ParseDate(f.billingTo).value) < DayRank(ParseDate(f.billingFrom).value)
    ensures r == Some(BadAmountFormat) ==> DatesChecked(f) && ParseAmount(f.totalAmount).None?
    ensures r == Some(NonPositiveAmount) ==>
      DatesChecked(f) && ParseAmount(f.totalAmount).Some? && ParseAmount(f.totalAmount).value <= 0
    ensures r == Some(MissingPaymentMethod) ==>
      DatesChecked(f) && ParseAmount(f.totalAmount).Some? && ParseAmount(f.totalAmount).value > 0 &&
      f.paymentStatus == Paid && f.paymentMethod == ""
  {
    var missing := FirstEmpty(Required(f));
    RequiredChecked(f);
    if missing.Some? then
      Some(FieldRequired(missing.value))
    else
      var from, to := ParseDate(f.billingFrom), ParseDate(f.billingTo);
      if from.None? || to.None? then Some(BadDateFormat)
      else if DayRank(to.value) < DayRank(from.value) then Some(BadDateRange)
      else
        match ParseAmount(f.totalAmount)
        case None => Some(BadAmountFormat)
        case Some(amount) =>
          if amount <= 0 then Some(NonPositiveAmount)
          else if f.paymentStatus == Paid && f.paymentMethod == "" then Some(MissingPaymentMethod)
          else None
  }

  /** The document's file name: the customer name with spaces turned into
      `_`, then the month abbreviation and the four-digit year of `now`. */
  function FileName(name: string, now: Timestamp): (r: string)
    requires ValidTimestamp(now)
    ensures |r| == |name| + 13
    ensures r[..|name|] == ReplaceChar(name, ' ', '_')
    ensures r[|name|..] == "_" + MonthAbbrev(now.date.month) + "_" + Pad4(now.date.year) + ".pdf"
  {
    ReplaceChar(name, ' ', '_') + "_" + MonthAbbrev(now.date.month) + "_" + Pad4(now.date.year) + ".pdf"
  }

  /** The file name depends on the time only through the month and the
      year: invoices for one name in one month share a file name, and
      invoices in different months never do. */
  lemma FileNameSameMonthIff(name: string, t1: Timestamp, t2: Timestamp)
    requires ValidTimestamp(t1) && ValidTimestamp(t2)
    ensures FileName(name, t1) == FileName(name, t2) <==>
      t1.date.month == t2.date.month && t1.date.year == t2.date.year
  {
    if FileName(name, t1) == FileName(name, t2) {
      var a, b := FileName(name, t1), FileName(name, t2);
      var k := |name|;
      assert a[k + 1..k + 4] == MonthAbbrev(t1.date.month);
      assert b[k + 1..k + 4] == MonthAbbrev(t2.date.month);
      MonthAbbrevInjective(t1.date.month, t2.date.month);
      assert a[k + 5..k + 9] == Pad4(t1.date.year);
      assert b[k + 5..k + 9] == Pad4(t2.date.year);
      Pad4RoundTrip(t1.date.year);
      Pad4RoundTrip(t2.date.year);
    }
  }

  /** The `invoice_data` dictionary: an empty discount or late fee becomes
      "0", and the payment method is kept only for a Paid invoice. */
  function BuildInvoiceData(f: InvoiceForm, n: int, pdfFilename: string): (data: InvoiceData)
    ensures data.invoiceNum == n && data.pdfFilename == pdfFilename
    ensures data.name == f.name && data.totalAmount == f.totalAmount
    ensures data.customerId == f.customerId && data.tenantName == f.tenantName
    ensures data.customerAddress == f.customerAddress && data.customerGstin == f.customerGstin
    ensures data.billingFrom == f.billingFrom && data.billingTo == f.billingTo
    ensures data.plan == f.plan && data.months == f.months && data.customNotes == f.notes
    ensures data.paymentStatus == f.paymentStatus
    ensures f.discount != "" ==> data.discount == f.discount
    ensures f.lateFee != "" ==> data.lateFee == f.lateFee
    ensures FigureOf(data.discount) == FigureOf(f.discount) && data.discount != ""
    ensures FigureOf(data.lateFee) == FigureOf(f.lateFee) && data.lateFee != ""
    ensures data.paymentMethod != "" ==> data.paymentStatus == Paid
    ensures data.paymentStatus == Paid ==> data.paymentMethod == f.paymentMethod
  {
    assert ParseAmount("0") == Some(0) by {
      assert IndexOf("0", '.') == 1;
      assert "0"[..1] == "0";
    }
    InvoiceData(
      f.name, f.customerId, f.tenantName, f.customerAddress, f.customerGstin,
      f.billingFrom, f.billingTo, f.plan, f.months, f.totalAmount,
      if f.discount == "" then "0" else f.discount,
      if f.lateFee == "" then "0" else f.lateFee,
      n, pdfFilename, f.notes, f.paymentStatus,
      if f.paymentStatus == Paid then f.paymentMethod else "")
  }

  /** The invoice data for number `n` issued at `now`. */
  function Draft(f: InvoiceForm, n: int, now: Timestamp): InvoiceData
    requires ValidTimestamp(now)
  {
    BuildInvoiceData(f, n, FileName(f.name, now))
  }

  /** The document for number `n` can be rendered and its file written. */
  predicate Issuable(f: InvoiceForm, n: int, now: Timestamp, ledgerFile: Stored<Entry>, built: bool)
    requires ValidTimestamp(now)
  {
    built && Render(Draft(f, n, now), ledgerFile, now.date).Ok?
  }

  /** `validate_and_submit`. `built` says whether writing the document file
      succeeded; the document's content is `Render` of the draft against
      the ledger as it stood before this invoice was logged. */
  method ValidateAndSubmit(counter: InvoiceCounter, ledger: InvoiceLedger, f: InvoiceForm,
                           now: Timestamp, built: bool)
    returns (r: Result<Document, IssueError>)
    requires ValidTimestamp(now)
    modifies counter, ledger
    ensures Validate(f).Some? ==>
      r == Err(Validate(f).value) && counter.file == old(counter.file) && ledger.file == old(ledger.file)
    ensures Validate(f).None? && !Issuable(f, old(counter.Next()), now, old(ledger.file), built) ==>
      && r == Err(RenderFailed) && counter.file == Initialized(old(counter.file))
      && counter.Next() == old(counter.Next()) && ledger.file == old(ledger.file)
    ensures r.Ok? ==>
      var n := old(counter.Next());
      var data := Draft(f, n, now);
      && Validate(f).None? && built
      && r == Ok(Render(data, old(ledger.file), now.date).value)
      && counter.file == TrackerRecord(Some(n)) && counter.Next() == n + 1
      && ledger.file == Present(old(ledger.Entries()) + [NewEntry(data, data.pdfFilename, now)])
    ensures r.Ok? ==> r.value.invoiceNumber == ledger.Entries()[|ledger.Entries()| - 1].invoiceNum
    ensures r.Ok? <==> Validate(f).None? && Issuable(f, old(counter.Next()), now, old(ledger.file), built)
  {
    var invalid := Validate(f);
    if invalid.Some? {
      return Err(invalid.value);
    }
    var n := counter.LoadInvoiceNumber();
    var pdfFilename := FileName(f.name, now);
    var data := BuildInvoiceData(f, n, pdfFilename);
    var doc := Render(data, ledger.file, now.date);
    if doc.Err? || !built {
      return Err(RenderFailed);
    }
    counter.SaveInvoiceNumber(n);
    ledger.LogInvoice(data, data.pdfFilename, now);
    r := Ok(doc.value);
  }

  /** A Paid invoice that is issued is logged with its payment method and
      today's date as payment date. */
  lemma PaidIssueIsLoggedPaid(f: InvoiceForm, n: int, now: Timestamp)
    requires ValidTimestamp(now) && Acceptable(f) && f.paymentStatus == Paid
    ensures var e := NewEntry(Draft(f, n, now), FileName(f.name, now), now);
      e.status == Paid && e.paymentMethod == f.paymentMethod && e.paymentMethod != "" &&
      ParseDate(e.paymentDate) == Some(now.date)
  {
  }
}
