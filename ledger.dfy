/** The invoice ledger `invoice_log.json`: appending an issued invoice
    (`log_invoice`), rewriting payment status (`save_status` inside
    `update_payment_status`), the filtered view with its summary totals
    (`filter_logs_impl`, `update_summary`) and the sorted view of
    `refresh_logs`. */
module InvoiceLog {
  import opened Wrappers
  import opened Storage
  import opened Text
  import opened Calendar
  import opened Money
  import opened Numbering
  import opened Records
  import opened Sequences

  // ---------------------------------------------------------------------------
  // Appending

  /** The entry `log_invoice` writes for an issued invoice at time `now`. */
  function NewEntry(data: InvoiceData, pdfFilename: string, now: Timestamp): (e: Entry)
    requires ValidTimestamp(now)
    ensures e.filename == pdfFilename
    ensures e.invoiceNum == InvoiceNumberText(data.invoiceNum)
    ensures ParseStamp(e.datetime) == Some(now)
    ensures e.customerName == data.name && e.customerId == data.customerId
    ensures e.amount == data.totalAmount
    ensures e.status == data.paymentStatus && e.paymentMethod == data.paymentMethod
    ensures e.paymentDate != "" <==> data.paymentStatus == Paid
    ensures data.paymentStatus == Paid ==> ParseDate(e.paymentDate) == Some(now.date)
  {
    ParseFormatStamp(now);
    ParseFormatDate(now.date);
    Entry(pdfFilename, FormatStamp(now), InvoiceNumberText(data.invoiceNum), data.name,
          data.customerId, data.totalAmount, data.paymentStatus,
          if data.paymentStatus == Paid then FormatDate(now.date) else "",
          data.paymentMethod)
  }

  // ---------------------------------------------------------------------------
  // Payment status

  /** One entry after `save_status`: entries with another number are left
      alone; a matching entry takes the new status, keeps the chosen payment
      method only when the status is Paid, and gets today's date as payment
      date when Paid and an empty one otherwise. */
  function Restamped(e: Entry, invoiceNo: string, newStatus: string, chosenMethod: string, today: Date): Entry
    requires ValidDate(today)
  {
    if e.invoiceNum != invoiceNo then e
    else e.(status := newStatus,
            paymentMethod := if newStatus == Paid then chosenMethod else "",
            paymentDate := if newStatus == Paid then FormatDate(today) else "")
  }

  /** The whole ledger after `save_status`: every entry with the number is
      rewritten (the loop has no break), nothing is added, removed or moved,
      and no field other than status, payment method and payment date changes. */
  function UpdateStatus(entries: seq<Entry>, invoiceNo: string, newStatus: string, chosenMethod: string,
                        today: Date): (r: seq<Entry>)
    requires ValidDate(today)
    ensures |r| == |entries|
    ensures forall i :: 0 <= i < |r| && entries[i].invoiceNum != invoiceNo ==> r[i] == entries[i]
    ensures forall i :: 0 <= i < |r| && entries[i].invoiceNum == invoiceNo ==>
      && r[i].status == newStatus
      && r[i].paymentMethod == (if newStatus == Paid then chosenMethod else "")
      && (newStatus == Paid ==> ParseDate(r[i].paymentDate) == Some(today))
      && (newStatus != Paid ==> r[i].paymentDate == "")
    ensures forall i :: 0 <= i < |r| ==>
      r[i].(status := entries[i].status, paymentMethod := entries[i].paymentMethod,
            paymentDate := entries[i].paymentDate) == entries[i]
  {
    ParseFormatDate(today);
    seq(|entries|, i requires 0 <= i < |entries| => Restamped(entries[i], invoiceNo, newStatus, chosenMethod, today))
  }

  /** Marking an invoice Paid by cash and then Unpaid again leaves every
      matching entry Unpaid with no payment method and no payment date, and
      every other entry as it was. */
  lemma PaidThenUnpaid(entries: seq<Entry>, invoiceNo: string, today: Date)
    requires ValidDate(today)
    ensures var paid := UpdateStatus(entries, invoiceNo, Paid, "Cash", today);
      var back := UpdateStatus(paid, invoiceNo, Unpaid, "", today);
      && |back| == |entries|
      && (forall i :: 0 <= i < |entries| && entries[i].invoiceNum == invoiceNo ==>
            paid[i].status == Paid && paid[i].paymentMethod == "Cash" && paid[i].paymentDate != ""
            && back[i].status == Unpaid && back[i].paymentMethod == "" && back[i].paymentDate == "")
      && (forall i :: 0 <= i < |entries| && entries[i].invoiceNum != invoiceNo ==> back[i] == entries[i])
  {
    var paid := UpdateStatus(entries, invoiceNo, Paid, "Cash", today);
    forall i | 0 <= i < |entries| && entries[i].invoiceNum == invoiceNo
      ensures paid[i].invoiceNum == invoiceNo && paid[i].paymentDate != ""
    {
      assert paid[i].(status := entries[i].status, paymentMethod := entries[i].paymentMethod,
                      paymentDate := entries[i].paymentDate) == entries[i];
    }
  }

  // ---------------------------------------------------------------------------
  // Filtering and summary

  /** The status filter value that lets every status through. */
  const AllStatuses: string := "All"

  /** The filter widgets: search text, status, and "from"/"to" dates as
      "%d-%m-%Y" text (empty for no bound). */
  datatype LogQuery = LogQuery(search: string, status: string, fromDate: string, toDate: string)

  /** The date range of a query as timestamps; None for no bound. */
  datatype Bounds = Bounds(lower: Option<Timestamp>, upper: Option<Timestamp>)

  /** Summary labels of the log view. */
  datatype Summary = Summary(count: nat, total: int, paid: int, pending: int)

  /** What the log view shows after filtering: the rows, and the summary, or
      None when the summary labels are left as they were. */
  datatype LogView = LogView(rows: seq<Entry>, summary: Option<Summary>)

  /** Rows kept so far and whether the scan went through the whole ledger. */
  datatype ScanResult = ScanResult(rows: seq<Entry>, complete: bool)

  /** The range from midnight of the "from" day to midnight of the day after
      the "to" day; None when a date does not parse or the day after does not
      exist, where the source raises and shows nothing. */
  function QueryBounds(q: LogQuery): (r: Option<Bounds>)
    ensures r.Some? <==>
      && (q.fromDate == "" || ParseDate(q.fromDate).Some?)
      && (q.toDate == "" || (ParseDate(q.toDate).Some? && NextDay(ParseDate(q.toDate).value).Some?))
    ensures r.Some? ==> (r.value.lower.Some? <==> q.fromDate != "") && (r.value.upper.Some? <==> q.toDate != "")
    ensures r.Some? && q.fromDate != "" ==>
      ParseDate(q.fromDate).Some? && r.value.lower == Some(Midnight(ParseDate(q.fromDate).value))
    ensures r.Some? && q.toDate != "" ==>
      ParseDate(q.toDate).Some? && NextDay(ParseDate(q.toDate).value).Some? &&
      r.value.upper == Some(Midnight(NextDay(ParseDate(q.toDate).value).value))
  {
    var lower: Option<Option<Timestamp>> :=
      if q.fromDate == "" then Some(None)
      else match ParseDate(q.fromDate)
        case None => None
        case Some(d) => Some(Some(Midnight(d)));
    var upper: Option<Option<Timestamp>> :=
      if q.toDate == "" then Some(None)
      else match ParseDate(q.toDate)
        case None => None
        case Some(d) =>
          match NextDay(d)
          case None => None
          case Some(n) => Some(Some(Midnight(n)));
    if lower.None? || upper.None? then None else Some(Bounds(lower.value, upper.value))
  }

  predicate InRange(t: Timestamp, b: Bounds)
  {
    && !(b.lower.Some? && Rank(t) < Rank(b.lower.value))
    && !(b.upper.Some? && Rank(t) > Rank(b.upper.value))
  }

  /** The six values a log row displays, in column order. */
  function DisplayValues(e: Entry): (v: seq<string>)
    ensures |v| == 6
  {
    [e.datetime, e.invoiceNum, e.customerName, e.amount, e.status, e.paymentMethod]
  }

  /** The lower-cased search text occurs in one of the lower-cased displayed
      values, or the search text is empty. */
  predicate MatchesSearch(e: Entry, search: string)
  {
    Lower(search) == [] ||
    exists i :: 0 <= i < 6 && Contains(Lower(DisplayValues(e)[i]), Lower(search))
  }

  /** The per-entry test of `filter_logs_impl`, given its parsed timestamp. */
  predicate Keeps(e: Entry, t: Timestamp, q: LogQuery, b: Bounds)
  {
    InRange(t, b) && (q.status == AllStatuses || e.status == q.status) && MatchesSearch(e, q.search)
  }

  /** The loop of `filter_logs_impl`: entries are tested in ledger order; an
      entry whose timestamp does not parse raises, which ends the scan with
      the rows inserted so far. */
  function ScanLogs(logs: seq<Entry>, q: LogQuery, b: Bounds): ScanResult
  {
    if logs == [] then ScanResult([], true)
    else match ParseStamp(logs[0].datetime)
      case None => ScanResult([], false)
      case Some(t) =>
        var rest := ScanLogs(logs[1..], q, b);
        if Keeps(logs[0], t, q, b) then ScanResult([logs[0]] + rest.rows, rest.complete) else rest
  }

  /** One entry off the front of the scan. */
  lemma ScanCons(logs: seq<Entry>, q: LogQuery, b: Bounds)
    requires logs != []
    ensures ParseStamp(logs[0].datetime).None? ==> ScanLogs(logs, q, b) == ScanResult([], false)
    ensures ParseStamp(logs[0].datetime).Some? && Keeps(logs[0], ParseStamp(logs[0].datetime).value, q, b) ==>
      ScanLogs(logs, q, b) == ScanResult([logs[0]] + ScanLogs(logs[1..], q, b).rows, ScanLogs(logs[1..], q, b).complete)
    ensures ParseStamp(logs[0].datetime).Some? && !Keeps(logs[0], ParseStamp(logs[0].datetime).value, q, b) ==>
      ScanLogs(logs, q, b) == ScanLogs(logs[1..], q, b)
  {
  }

  /** The entry's timestamp parses and the entry passes the filter. */
  predicate Passes(e: Entry, q: LogQuery, b: Bounds)
  {
    ParseStamp(e.datetime).Some? && Keeps(e, ParseStamp(e.datetime).value, q, b)
  }

  /** The rows of a completed scan, one entry off the front. */
  lemma ScanCountCons(logs: seq<Entry>, q: LogQuery, b: Bounds)
    requires logs != [] && ScanLogs(logs, q, b).complete
    ensures ScanLogs(logs[1..], q, b).complete
    ensures multiset(ScanLogs(logs, q, b).rows) ==
      (if Passes(logs[0], q, b) then multiset{logs[0]} else multiset{}) + multiset(ScanLogs(logs[1..], q, b).rows)
  {
    ScanCons(logs, q, b);
  }

  /** A completed scan keeps duplicate entries as often as they occur: each
      entry that passes the filter is kept as many times as the ledger holds
      it, any other never. */
  lemma {:induction false} ScanKeepsDuplicates(logs: seq<Entry>, q: LogQuery, b: Bounds)
    requires ScanLogs(logs, q, b).complete
    ensures forall e :: multiset(ScanLogs(logs, q, b).rows)[e] == if Passes(e, q, b) then multiset(logs)[e] else 0
  {
    if logs != [] {
      ScanCountCons(logs, q, b);
      ScanKeepsDuplicates(logs[1..], q, b);
      var head := if Passes(logs[0], q, b) then multiset{logs[0]} else multiset{};
      var rows, rest := multiset(ScanLogs(logs, q, b).rows), multiset(ScanLogs(logs[1..], q, b).rows);
      assert multiset(logs) == multiset{logs[0]} + multiset(logs[1..]) by {
        assert logs == [logs[0]] + logs[1..];
      }
      forall e ensures rows[e] == if Passes(e, q, b) then multiset(logs)[e] else 0 {
        assert rows[e] == head[e] + rest[e];
      }
    }
  }

  /** One step of the scan loop at index `i`. */
  lemma ScanStep(logs: seq<Entry>, i: nat, q: LogQuery, b: Bounds)
    requires i < |logs|
    ensures ParseStamp(logs[i].datetime).None? ==> ScanLogs(logs[i..], q, b) == ScanResult([], false)
    ensures ParseStamp(logs[i].datetime).Some? && Keeps(logs[i], ParseStamp(logs[i].datetime).value, q, b) ==>
      ScanLogs(logs[i..], q, b) ==
      ScanResult([logs[i]] + ScanLogs(logs[i + 1..], q, b).rows, ScanLogs(logs[i + 1..], q, b).complete)
    ensures ParseStamp(logs[i].datetime).Some? && !Keeps(logs[i], ParseStamp(logs[i].datetime).value, q, b) ==>
      ScanLogs(logs[i..], q, b) == ScanLogs(logs[i + 1..], q, b)
  {
    var rest, tail := logs[i..], logs[i + 1..];
    assert rest[0] == logs[i] && rest[1..] == tail;
    ScanCons(rest, q, b);
  }

  /** `update_summary` applied to one more row of `amount` paise. */
  function AddRow(s: Summary, status: string, amount: int): Summary
  {
    Summary(s.count + 1, s.total + amount,
            s.paid + (if status == Paid then amount else 0),
            s.pending + (if status == Paid then 0 else amount))
  }

  /** Totals over displayed rows; None when an amount does not parse, where
      the source raises and leaves the labels as they were. */
  function Totals(rows: seq<Entry>): Option<Summary>
  {
    if rows == [] then Some(Summary(0, 0, 0, 0))
    else match ParseAmount(rows[0].amount)
      case None => None
      case Some(a) =>
        match Totals(rows[1..])
        case None => None
        case Some(s) => Some(AddRow(s, rows[0].status, a))
  }

  /** `update_summary`: nothing is updated when no row is displayed. */
  function SummaryOf(rows: seq<Entry>): Option<Summary>
  {
    if rows == [] then None else Totals(rows)
  }

  /** What the log view shows after `filter_logs_impl` for a ledger file. */
  function FilterView(file: Stored<Entry>, q: LogQuery): LogView
  {
    if !file.Present? then LogView([], None)
    else match QueryBounds(q)
      case None => LogView([], None)
      case Some(b) =>
        var s := ScanLogs(file.items, q, b);
        LogView(s.rows, if s.complete then SummaryOf(s.rows) else None)
  }

  /** Every entry the scan keeps passes the filter, in ledger order; and when
      the scan completes, every entry that passes is kept. */
  lemma {:induction false} ScanSound(logs: seq<Entry>, q: LogQuery, b: Bounds)
    ensures IsSubsequence(ScanLogs(logs, q, b).rows, logs)
    ensures forall e :: e in ScanLogs(logs, q, b).rows ==>
      ParseStamp(e.datetime).Some? && Keeps(e, ParseStamp(e.datetime).value, q, b)
    ensures ScanLogs(logs, q, b).complete ==> forall e :: e in logs ==>
      ParseStamp(e.datetime).Some? &&
      (Keeps(e, ParseStamp(e.datetime).value, q, b) ==> e in ScanLogs(logs, q, b).rows)
  {
    if logs != [] {
      ScanSound(logs[1..], q, b);
      ScanCons(logs, q, b);
      InHeadOrTail(logs);
      var rest := ScanLogs(logs[1..], q, b);
      match ParseStamp(logs[0].datetime)
      case None =>
      case Some(t) =>
        if Keeps(logs[0], t, q, b) {
          var rows := [logs[0]] + rest.rows;
          assert rows[0] == logs[0] && rows[1..] == rest.rows;
          InHeadOrTail(rows);
        } else {
          SubsequenceOfTail(rest.rows, logs);
        }
    }
  }

  /** The candidate rows of the log view: in ledger order, each with a
      timestamp no earlier than midnight of "from" and no later than midnight
      after "to", the chosen status unless "All", and the search text in one
      of its six displayed values. */
  lemma FilterViewSound(file: Stored<Entry>, q: LogQuery)
    ensures IsSubsequence(FilterView(file, q).rows, Loaded(file))
    ensures forall e :: e in FilterView(file, q).rows ==>
      && ParseStamp(e.datetime).Some?
      && (q.fromDate != "" ==>
            && ParseDate(q.fromDate).Some?
            && Rank(Midnight(ParseDate(q.fromDate).value)) <= Rank(ParseStamp(e.datetime).value))
      && (q.toDate != "" ==>
            && ParseDate(q.toDate).Some? && NextDay(ParseDate(q.toDate).value).Some?
            && Rank(ParseStamp(e.datetime).value) <= Rank(Midnight(NextDay(ParseDate(q.toDate).value).value)))
      && (q.status == AllStatuses || e.status == q.status)
      && MatchesSearch(e, q.search)
  {
    if file.Present? && QueryBounds(q).Some? {
      ScanSound(file.items, q, QueryBounds(q).value);
    }
  }

  /** The "to" bound is midnight AFTER the "to" day and is itself inside
      the range: an entry stamped exactly 00:00:00 on the following day is
      still shown. */
  lemma ToBoundIncludesNextMidnight(q: LogQuery, e: Entry)
    requires q.search == "" && q.status == AllStatuses && q.fromDate == "" && q.toDate != ""
    requires ParseDate(q.toDate).Some? && NextDay(ParseDate(q.toDate).value).Some?
    requires ParseStamp(e.datetime) == Some(Midnight(NextDay(ParseDate(q.toDate).value).value))
    ensures FilterView(Present([e]), q).rows == [e]
  {
    var to := Midnight(NextDay(ParseDate(q.toDate).value).value);
    var b := QueryBounds(q).value;
    assert b == Bounds(None, Some(to));
    assert Lower(q.search) == [];
    assert InRange(to, b);
    assert Keeps(e, to, q, b);
    assert [e][1..] == [];
    assert ScanLogs([e], q, b) == ScanResult([e], true);
  }

  /** With no search text, status "All" and no dates, every entry of a
      well-formed ledger is shown, in ledger order. */
  lemma {:induction false} ScanEverything(logs: seq<Entry>)
    requires AllStamped(logs)
    ensures ScanLogs(logs, LogQuery("", AllStatuses, "", ""), Bounds(None, None)) == ScanResult(logs, true)
  {
    if logs != [] {
      var q, b := LogQuery("", AllStatuses, "", ""), Bounds(None, None);
      AllStampedTail(logs);
      ScanEverything(logs[1..]);
      EverythingKept(logs[0], ParseStamp(logs[0].datetime).value);
      ScanCons(logs, q, b);
      var tail := ScanLogs(logs[1..], q, b);
      assert tail == ScanResult(logs[1..], true);
      assert ScanLogs(logs, q, b) == ScanResult([logs[0]] + tail.rows, tail.complete);
      assert [logs[0]] + logs[1..] == logs;
    }
  }

  lemma AllStampedTail(logs: seq<Entry>)
    requires logs != [] && AllStamped(logs)
    ensures ParseStamp(logs[0].datetime).Some? && AllStamped(logs[1..])
  {
    assert forall i :: 0 <= i < |logs| - 1 ==> logs[1..][i] == logs[i + 1];
  }

  /** The empty query keeps every entry. */
  lemma EverythingKept(e: Entry, t: Timestamp)
    ensures Keeps(e, t, LogQuery("", AllStatuses, "", ""), Bounds(None, None))
  {
    assert Lower("") == [];
  }

  lemma FilterEverything(logs: seq<Entry>)
    requires AllStamped(logs)
    ensures FilterView(Present(logs), LogQuery("", AllStatuses, "", "")).rows == logs
  {
    ScanEverything(logs);
  }

  /** The summary counts every displayed row and splits the total exactly
      into paid and pending. */
  lemma {:induction false} TotalsBalance(rows: seq<Entry>)
    requires Totals(rows).Some?
    ensures Totals(rows).value.count == |rows|
    ensures Totals(rows).value.total == Totals(rows).value.paid + Totals(rows).value.pending
  {
    if rows != [] {
      TotalsBalance(rows[1..]);
    }
  }

  /** Rows that are all Paid have nothing pending. */
  lemma {:induction false} TotalsAllPaid(rows: seq<Entry>)
    requires Totals(rows).Some?
    requires forall e :: e in rows ==> e.status == Paid
    ensures Totals(rows).value.pending == 0
  {
    if rows != [] {
      assert rows[0] in rows;
      assert forall e :: e in rows[1..] ==> e in rows;
      TotalsAllPaid(rows[1..]);
    }
  }

  /** Filtering on status Paid yields a summary with nothing pending, and its
      total is its paid amount. */
  lemma PaidFilterHasNothingPending(file: Stored<Entry>, q: LogQuery)
    requires q.status == Paid
    requires FilterView(file, q).summary.Some?
    ensures FilterView(file, q).summary.value.pending == 0
    ensures FilterView(file, q).summary.value.total == FilterView(file, q).summary.value.paid
  {
    var v := FilterView(file, q);
    FilterViewSound(file, q);
    TotalsAllPaid(v.rows);
    TotalsBalance(v.rows);
  }

  /** Adds a partial summary to the summary of the remaining rows. */
  function Combine(acc: Summary, rest: Option<Summary>): Option<Summary>
  {
    match rest
    case None => None
    case Some(s) => Some(Summary(acc.count + s.count, acc.total + s.total, acc.paid + s.paid, acc.pending + s.pending))
  }

  /** One row off the front of the totals. */
  lemma TotalsCons(rows: seq<Entry>)
    requires rows != []
    ensures ParseAmount(rows[0].amount).None? || Totals(rows[1..]).None? ==> Totals(rows).None?
    ensures ParseAmount(rows[0].amount).Some? && Totals(rows[1..]).Some? ==>
      Totals(rows) == Some(AddRow(Totals(rows[1..]).value, rows[0].status, ParseAmount(rows[0].amount).value))
  {
  }

  lemma TotalsStep(rows: seq<Entry>, i: nat, acc: Summary)
    requires i < |rows|
    ensures ParseAmount(rows[i].amount).None? ==> Combine(acc, Totals(rows[i..])) == None
    ensures ParseAmount(rows[i].amount).Some? ==>
      Combine(acc, Totals(rows[i..])) ==
      Combine(AddRow(acc, rows[i].status, ParseAmount(rows[i].amount).value), Totals(rows[i + 1..]))
  {
    var rest, tail := rows[i..], rows[i + 1..];
    assert rest[0] == rows[i] && rest[1..] == tail;
    TotalsCons(rest);
    CombineAddRow(acc, rows[i].status, ParseAmount(rows[i].amount), Totals(tail));
  }

  /** Adding a row before or after combining gives the same totals. */
  lemma CombineAddRow(acc: Summary, status: string, amount: Option<int>, tail: Option<Summary>)
    ensures amount.Some? && tail.Some? ==>
      Combine(acc, Some(AddRow(tail.value, status, amount.value))) == Combine(AddRow(acc, status, amount.value), tail)
  {
  }

  /** `update_summary` over the rows the view displays. */
  method UpdateSummary(rows: seq<Entry>) returns (summary: Option<Summary>)
    ensures summary == SummaryOf(rows)
    ensures summary.Some? ==> summary.value.count == |rows| > 0
    ensures summary.Some? ==> summary.value.total == summary.value.paid + summary.value.pending
  {
    if rows == [] {
      return None;
    }
    ghost var whole := Totals(rows);
    var acc := Summary(0, 0, 0, 0);
    var i := 0;
    assert rows[0..] == rows;
    while i < |rows|
      invariant 0 <= i <= |rows|
      invariant whole == Combine(acc, Totals(rows[i..]))
    {
      TotalsStep(rows, i, acc);
      var amount := ParseAmount(rows[i].amount);
      if amount.None? {
        return None;
      }
      acc := AddRow(acc, rows[i].status, amount.value);
      i := i + 1;
    }
    assert rows[i..] == [];
    summary := Some(acc);
    TotalsBalance(rows);
  }

  /** The loop of `filter_logs_impl`, inserting the kept rows one by one. */
  method ScanLedger(logs: seq<Entry>, q: LogQuery, b: Bounds) returns (res: ScanResult)
    ensures res == ScanLogs(logs, q, b)
  {
    var shown: seq<Entry> := [];
    var i := 0;
    while i < |logs|
      invariant 0 <= i <= |logs|
      invariant ScanLogs(logs, q, b) ==
        ScanResult(shown + ScanLogs(logs[i..], q, b).rows, ScanLogs(logs[i..], q, b).complete)
    {
      ScanStep(logs, i, q, b);
      var stamp := ParseStamp(logs[i].datetime);
      if stamp.None? {
        return ScanResult(shown, false);
      }
      if Keeps(logs[i], stamp.value, q, b) {
        assert shown + ([logs[i]] + ScanLogs(logs[i + 1..], q, b).rows)
            == (shown + [logs[i]]) + ScanLogs(logs[i + 1..], q, b).rows;
        shown := shown + [logs[i]];
      }
      i := i + 1;
    }
    assert logs[i..] == [];
    res := ScanResult(shown, true);
  }

  // ---------------------------------------------------------------------------
  // Refreshing: timestamp normalisation and newest-first order

  /** A timestamp as `refresh_logs` rewrites it: the ledger format is kept,
      the older "%Y-%m-%d %H:%M:%S" format is reprinted in the ledger format,
      and anything else is left as it is. */
  function Normalized(s: string): (r: string)
    ensures ParseStamp(s).Some? ==> r == s
    ensures ParseStamp(s).None? && ParseIsoStamp(s).Some? ==> ParseStamp(r) == ParseIsoStamp(s)
    ensures ParseStamp(s).None? && ParseIsoStamp(s).None? ==> r == s
  {
    match ParseStamp(s)
    case Some(t) => FormatParseStamp(s); FormatStamp(t)
    case None =>
      match ParseIsoStamp(s)
      case Some(t) => ParseFormatStamp(t); FormatStamp(t)
      case None => s
  }

  /** Sort key: the rank of the entry's timestamp. */
  function StampKey(e: Entry): int
  {
    match ParseStamp(e.datetime)
    case Some(t) => Rank(t)
    case None => 0
  }

  /** `s` is in descending order of `key`. */
  predicate Descending<T>(key: T -> int, s: seq<T>)
  {
    forall i, j :: 0 <= i < j < |s| ==> key(s[i]) >= key(s[j])
  }

  /** Inserts `x` in front of the first element whose key is not larger, so
      that among equal keys earlier insertions stay in front. */
  function InsertDescending<T>(key: T -> int, x: T, s: seq<T>): (r: seq<T>)
    requires Descending(key, s)
    ensures Descending(key, r)
    ensures multiset(r) == multiset(s) + multiset{x}
  {
    if s == [] || key(x) >= key(s[0]) then [x] + s
    else
      var tail := InsertDescending(key, x, s[1..]);
      InsertBehindHead(key, x, s, tail);
      [s[0]] + tail
  }

  lemma InsertBehindHead<T>(key: T -> int, x: T, s: seq<T>, tail: seq<T>)
    requires s != [] && Descending(key, s) && key(x) < key(s[0])
    requires Descending(key, tail) && multiset(tail) == multiset(s[1..]) + multiset{x}
    ensures Descending(key, [s[0]] + tail)
    ensures multiset([s[0]] + tail) == multiset(s) + multiset{x}
  {
    forall j | 0 <= j < |tail| ensures key(tail[j]) <= key(s[0]) {
      assert tail[j] in multiset(tail);
      if tail[j] != x {
        assert tail[j] in multiset(s[1..]);
        var k :| 0 <= k < |s[1..]| && s[1..][k] == tail[j];
        assert s[k + 1] == tail[j];
      }
    }
    assert s == [s[0]] + s[1..];
  }

  /** Python's stable `sort(key=key, reverse=True)`, as an insertion sort. */
  function SortDescending<T>(key: T -> int, s: seq<T>): (r: seq<T>)
    ensures Descending(key, r)
    ensures multiset(r) == multiset(s)
  {
    if s == [] then []
    else
      assert s == [s[0]] + s[1..];
      InsertDescending(key, s[0], SortDescending(key, s[1..]))
  }

  /** An entry with its timestamp normalised and every other field kept. */
  function Renormalized(e: Entry): Entry
  {
    e.(datetime := Normalized(e.datetime))
  }

  function NormalizeAll(logs: seq<Entry>): (r: seq<Entry>)
    ensures |r| == |logs|
    ensures forall i :: 0 <= i < |logs| ==> r[i] == Renormalized(logs[i])
  {
    seq(|logs|, i requires 0 <= i < |logs| => Renormalized(logs[i]))
  }

  predicate AllStamped(logs: seq<Entry>)
  {
    forall i :: 0 <= i < |logs| ==> ParseStamp(logs[i].datetime).Some?
  }

  /** The rows `refresh_logs` displays: the normalised entries newest first,
      or nothing when a timestamp is in neither format (the sort raises). */
  function RefreshView(file: Stored<Entry>): seq<Entry>
  {
    var logs := NormalizeAll(Loaded(file));
    if AllStamped(logs) then SortDescending(StampKey, logs) else []
  }

  /** A stored timestamp in the ledger format or in the older ISO format. */
  predicate StampReadable(s: string)
  {
    ParseStamp(s).Some? || ParseIsoStamp(s).Some?
  }

  /** Every stored timestamp is in one of the two formats. */
  predicate AllReadable(logs: seq<Entry>)
  {
    forall i :: 0 <= i < |logs| ==> StampReadable(logs[i].datetime)
  }

  /** After normalising, every stamp is in the ledger format exactly when
      every stored stamp was in one of the two formats. */
  lemma NormalizedStampedIff(logs: seq<Entry>)
    ensures AllStamped(NormalizeAll(logs)) <==> AllReadable(logs)
  {
    var n := NormalizeAll(logs);
    forall i | 0 <= i < |logs|
      ensures ParseStamp(n[i].datetime).Some? <==> StampReadable(logs[i].datetime)
    {
      assert n[i].datetime == Normalized(logs[i].datetime);
    }
  }

  /** When every stored stamp is readable, the refreshed view holds every
      normalised ledger entry exactly once, newest first, each with a
      ledger-format timestamp; otherwise it shows nothing. */
  lemma RefreshViewOrdered(file: Stored<Entry>)
    ensures Descending(StampKey, RefreshView(file))
    ensures forall e :: e in RefreshView(file) ==> ParseStamp(e.datetime).Some?
    ensures RefreshView(file) != [] ==> multiset(RefreshView(file)) == multiset(NormalizeAll(Loaded(file)))
    ensures AllReadable(Loaded(file)) ==> multiset(RefreshView(file)) == multiset(NormalizeAll(Loaded(file)))
    ensures !AllReadable(Loaded(file)) ==> RefreshView(file) == []
  {
    var logs := NormalizeAll(Loaded(file));
    NormalizedStampedIff(Loaded(file));
    if AllStamped(logs) {
      PermutationStamped(SortDescending(StampKey, logs), logs);
    }
  }

  lemma PermutationStamped(r: seq<Entry>, logs: seq<Entry>)
    requires multiset(r) == multiset(logs) && AllStamped(logs)
    ensures forall e :: e in r ==> ParseStamp(e.datetime).Some?
  {
    forall e | e in r ensures ParseStamp(e.datetime).Some? {
      assert e in multiset(r);
      assert e in logs;
    }
  }

  /** A ledger entry read as the view displays it after the older format has
      been rewritten: same instant, ledger format. */
  lemma NormalizedKeepsInstant(s: string)
    requires ParseStamp(s).Some? || ParseIsoStamp(s).Some?
    ensures ParseStamp(Normalized(s)) == (if ParseStamp(s).Some? then ParseStamp(s) else ParseIsoStamp(s))
  {
  }

  // ---------------------------------------------------------------------------
  // The ledger file

  /** The ledger as the billing code holds it: the contents of
      `invoice_log.json`. */
  class InvoiceLedger {
    var file: Stored<Entry>

    constructor (file: Stored<Entry>)
      ensures this.file == file
    {
      this.file := file;
    }

    function Entries(): seq<Entry>
      reads this
    {
      Loaded(file)
    }

    /** `log_invoice`: reads the ledger (an absent or unreadable file counts
        as empty), appends one entry and writes the whole list back. */
    method LogInvoice(data: InvoiceData, pdfFilename: string, now: Timestamp)
      requires ValidTimestamp(now)
      modifies this
      ensures file == Present(old(Entries()) + [NewEntry(data, pdfFilename, now)])
      ensures |Entries()| == |old(Entries())| + 1
      ensures Entries()[..|old(Entries())|] == old(Entries())
    {
      var logs := Loaded(file);
      var entry := NewEntry(data, pdfFilename, now);
      logs := logs + [entry];
      file := Present(logs);
      assert logs[..|logs| - 1] == old(Entries());
    }

    /** `save_status`: rewrites every entry carrying `invoiceNo`. Returns
        false, changing nothing, when the file is unreadable (the source shows
        an error); an absent file is left absent. */
    method SaveStatus(invoiceNo: string, newStatus: string, chosenMethod: string, today: Date)
      returns (saved: bool)
      requires ValidDate(today)
      modifies this
      ensures saved <==> old(file).Present?
      ensures !old(file).Present? ==> file == old(file)
      ensures old(file).Present? ==>
        file == Present(UpdateStatus(old(file).items, invoiceNo, newStatus, chosenMethod, today))
    {
      match file
      case Missing => return false;
      case Unreadable => return false;
      case Present(items) =>
        var paymentMethod := if newStatus == Paid then chosenMethod else "";
        var logs := items;
        var i := 0;
        while i < |logs|
          invariant 0 <= i <= |logs| == |items|
          invariant forall j :: 0 <= j < i ==> logs[j] == Restamped(items[j], invoiceNo, newStatus, chosenMethod, today)
          invariant forall j :: i <= j < |logs| ==> logs[j] == items[j]
        {
          if logs[i].invoiceNum == invoiceNo {
            var paymentDate := if newStatus == Paid then FormatDate(today) else "";
            logs := logs[i := logs[i].(status := newStatus, paymentMethod := paymentMethod, paymentDate := paymentDate)];
          }
          i := i + 1;
        }
        file := Present(logs);
        saved := true;
    }

    /** `filter_logs_impl`, followed by `update_summary` when the scan
        completes. */
    method FilterLogs(q: LogQuery) returns (view: LogView)
      ensures view == FilterView(file, q)
    {
      if !file.Present? {
        return LogView([], None);
      }
      var bounds := QueryBounds(q);
      if bounds.None? {
        return LogView([], None);
      }
      var scan := ScanLedger(file.items, q, bounds.value);
      if !scan.complete {
        return LogView(scan.rows, None);
      }
      var summary := UpdateSummary(scan.rows);
      view := LogView(scan.rows, summary);
    }

    /** `refresh_logs`: normalises each timestamp in a loop, then sorts newest
        first; shows nothing when a timestamp is in neither format. */
    method RefreshLogs() returns (rows: seq<Entry>)
      ensures rows == RefreshView(file)
    {
      var loaded := Loaded(file);
      var logs := loaded;
      var i := 0;
      while i < |logs|
        invariant 0 <= i <= |logs| == |loaded|
        invariant forall j :: 0 <= j < i ==> logs[j] == Renormalized(loaded[j])
        invariant forall j :: i <= j < |logs| ==> logs[j] == loaded[j]
      {
        logs := logs[i := Renormalized(logs[i])];
        i := i + 1;
      }
      assert logs == NormalizeAll(loaded);
      if AllStamped(logs) {
        rows := SortDescending(StampKey, logs);
      } else {
        rows := [];
      }
    }
  }
}
