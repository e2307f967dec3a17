/** The invoice-number counter kept in `invoice_tracker.json`
    (`initialize_tracker`, `load_invoice_number`, `save_invoice_number`) and
    the printed form of an invoice number. */
module Numbering {
  import opened Wrappers
  import opened Text

  /** The value the tracker file is created with. */
  const Seed: int := 2058

  /** What `load_invoice_number` returns when the tracker cannot be parsed. */
  const FallbackNumber: int := 2059

  /** Fixed prefix and fiscal-year tag of every printed invoice number. */
  const InvoicePrefix: string := "TF/25-26/HR/"

  /** The tracker file: absent, not parseable JSON, or a JSON object that may
      or may not hold the key `last_invoice_number`. */
  datatype TrackerFile = NoTracker | CorruptTracker | TrackerRecord(last: Option<int>)

  /** `initialize_tracker`: an absent file is created holding the seed. */
  function Initialized(f: TrackerFile): (g: TrackerFile)
    ensures f.NoTracker? ==> g == TrackerRecord(Some(Seed))
    ensures !f.NoTracker? ==> g == f
  {
    if f.NoTracker? then TrackerRecord(Some(Seed)) else f
  }

  /** The number `load_invoice_number` returns for a given tracker file:
      the stored last number plus one, or 2059 when the file is absent,
      unparseable or lacks the key. */
  function NextNumber(f: TrackerFile): (n: int)
    ensures f.TrackerRecord? && f.last.Some? ==> n == f.last.value + 1
    ensures !(f.TrackerRecord? && f.last.Some?) ==> n == FallbackNumber
  {
    match Initialized(f)
    case NoTracker => FallbackNumber
    case CorruptTracker => FallbackNumber
    case TrackerRecord(last) => (if last.Some? then last.value else Seed) + 1
  }

  /** Creating the tracker file does not change which number comes next. */
  lemma InitializeKeepsNext(f: TrackerFile)
    ensures NextNumber(Initialized(f)) == NextNumber(f)
  {
  }

  /** The printed invoice number, `f"TF/25-26/HR/{n}"`, as it appears both on
      the PDF and in the ledger. */
  function InvoiceNumberText(n: int): (s: string)
    ensures |s| > |InvoicePrefix| && s[..|InvoicePrefix|] == InvoicePrefix
    ensures ParseInt(s[|InvoicePrefix|..]) == Some(n)
  {
    var s := InvoicePrefix + IntToString(n);
    assert s[|InvoicePrefix|..] == IntToString(n);
    IntToStringRoundTrip(n);
    s
  }

  /** Distinct numbers print as distinct invoice numbers. */
  lemma InvoiceNumberTextInjective(a: int, b: int)
    requires InvoiceNumberText(a) == InvoiceNumberText(b)
    ensures a == b
  {
    assert InvoiceNumberText(a)[|InvoicePrefix|..] == InvoiceNumberText(b)[|InvoicePrefix|..];
  }

  /** The tracker after one successful issuance: the loaded number was saved. */
  function AfterIssue(f: TrackerFile): (g: TrackerFile)
    ensures NextNumber(g) == NextNumber(f) + 1
  {
    TrackerRecord(Some(NextNumber(f)))
  }

  /** The tracker after `k` successful issuances in a row. */
  function AfterIssues(f: TrackerFile, k: nat): TrackerFile
  {
    if k == 0 then f else AfterIssue(AfterIssues(f, k - 1))
  }

  /** The numbers handed out by `k` successful issuances in a row. */
  function IssuedNumbers(f: TrackerFile, k: nat): seq<int>
  {
    if k == 0 then [] else IssuedNumbers(f, k - 1) + [NextNumber(AfterIssues(f, k - 1))]
  }

  /** `k` issuances in a row hand out next, next+1, ..., next+k-1 (2059, 2060,
      ... from a fresh tracker), with no gap and no repeat, and leave
      next+k as the following number. */
  lemma {:induction false} IssuedNumbersConsecutive(f: TrackerFile, k: nat)
    ensures |IssuedNumbers(f, k)| == k
    ensures forall i :: 0 <= i < k ==> IssuedNumbers(f, k)[i] == NextNumber(f) + i
    ensures NextNumber(AfterIssues(f, k)) == NextNumber(f) + k
  {
    if k > 0 {
      IssuedNumbersConsecutive(f, k - 1);
    }
  }

  /** The counter as the billing code holds it: the contents of the tracker
      file. */
  class InvoiceCounter {
    var file: TrackerFile

    constructor (file: TrackerFile)
      ensures this.file == file
    {
      this.file := file;
    }

    /** The number the next `load_invoice_number` will return. */
    function Next(): int
      reads this
    {
      NextNumber(file)
    }

    /** `initialize_tracker`. */
    method InitializeTracker()
      modifies this
      ensures file == Initialized(old(file))
    {
      if file.NoTracker? {
        file := TrackerRecord(Some(Seed));
      }
    }

    /** `load_invoice_number`: creates the file if absent, then reads it. */
    method LoadInvoiceNumber() returns (n: int)
      modifies this
      ensures file == Initialized(old(file))
      ensures n == NextNumber(old(file)) && Next() == n
    {
      InitializeTracker();
      match file
      case TrackerRecord(last) =>
        n := (if last.Some? then last.value else Seed) + 1;
      case CorruptTracker =>
        n := FallbackNumber;
    }

    /** `save_invoice_number`: overwrites the file with the given number. */
    method SaveInvoiceNumber(number: int)
      modifies this
      ensures file == TrackerRecord(Some(number))
      ensures Next() == number + 1
    {
      file := TrackerRecord(Some(number));
    }
  }
}
