/** The activity log of the log service: entries are appended and the oldest dropped beyond
    1000, read back through two order-preserving filters, and exported as CSV text. Storage is
    the class field `logs`; ids and timestamps come in as parameters, and the text renderings
    of a timestamp and of an amount are parameters of the CSV functions. */
module LogService {
  import opened Wrappers
  import opened Seqs
  import opened MessageParser
  import opened ContributionService

  /** A stored log entry. `timestamp` is the clock reading taken when it was added. */
  datatype LogEntry = LogEntry(
    id: string,
    timestamp: int,
    senderName: string,
    amount: Amount,
    memberId: string,
    source: Source,
    status: ParseStatus,
    message: string,
    parseError: Option<string>)

  /** What a caller hands to `addLog`: every field except `id` and `timestamp`. */
  datatype NewLogEntry = NewLogEntry(
    senderName: string,
    amount: Amount,
    memberId: string,
    source: Source,
    status: ParseStatus,
    message: string,
    parseError: Option<string>)

  /** The fields of an entry that its creator supplied. */
  function SuppliedLog(e: LogEntry): NewLogEntry {
    NewLogEntry(e.senderName, e.amount, e.memberId, e.source, e.status, e.message, e.parseError)
  }

  /** `{ ...log, id, timestamp }`. */
  function Logged(n: NewLogEntry, id: string, timestamp: int): (e: LogEntry)
    ensures e.id == id && e.timestamp == timestamp
    ensures SuppliedLog(e) == n
  {
    LogEntry(id, timestamp, n.senderName, n.amount, n.memberId, n.source, n.status, n.message, n.parseError)
  }

  /** The most entries the log keeps. */
  const MaxLogs: nat := 1000

  /** `s.splice(0, s.length - max)` when `s` is longer than `max`: the last `max` elements. */
  function KeepLast<T>(s: seq<T>, max: nat): (r: seq<T>)
    ensures |r| <= max && |r| <= |s|
    ensures |r| == if |s| > max then max else |s|
    ensures r == s[|s| - |r|..]
    ensures |s| <= max ==> r == s
  {
    if |s| > max then s[|s| - max..] else s
  }

  /** What `addLog` does to the stored list: below the cap the entry is simply appended; at the
      cap the oldest entry makes room for it; over the cap the list is cut back to the last
      entries before it; either way the new entry is last. */
  lemma AddLogCases(logs: seq<LogEntry>, e: LogEntry)
    ensures var r := KeepLast(logs + [e], MaxLogs);
      |r| > 0 && r[|r| - 1] == e &&
      (|logs| < MaxLogs ==> r == logs + [e]) &&
      (|logs| == MaxLogs ==> r == logs[1..] + [e]) &&
      (|logs| >= MaxLogs ==> |r| == MaxLogs && r == logs[|logs| + 1 - MaxLogs..] + [e])
  {
    var r := KeepLast(logs + [e], MaxLogs);
    assert (logs + [e])[|logs + [e]| - 1] == e;
    if |logs| >= MaxLogs {
      var d := |logs| + 1 - MaxLogs;
      assert (logs + [e])[d..] == logs[d..] + [e];
    }
  }

  function LogHasStatus(status: ParseStatus): LogEntry -> bool {
    (e: LogEntry) => e.status == status
  }

  function LoggedWithin(start: int, end: int): LogEntry -> bool {
    (e: LogEntry) => InWindow(e.timestamp, start, end)
  }

  /** `getLogsByStatus`: the entries with that status, in stored order. */
  function LogsByStatus(logs: seq<LogEntry>, status: ParseStatus): (r: seq<LogEntry>)
    ensures forall j :: 0 <= j < |r| ==> r[j] in logs && r[j].status == status
    ensures forall j :: 0 <= j < |logs| && logs[j].status == status ==> logs[j] in r
  {
    Filter(logs, LogHasStatus(status))
  }

  /** `getLogsByDateRange`: the entries logged within the window, both ends included. */
  function LogsByDateRange(logs: seq<LogEntry>, start: int, end: int): (r: seq<LogEntry>)
    ensures forall j :: 0 <= j < |r| ==> r[j] in logs && InWindow(r[j].timestamp, start, end)
    ensures forall j :: 0 <= j < |logs| && InWindow(logs[j].timestamp, start, end) ==> logs[j] in r
    ensures start > end ==> r == []
  {
    FilterTrivial(logs, LoggedWithin(start, end));
    Filter(logs, LoggedWithin(start, end))
  }

  /** The filters keep stored order: an entry appended last comes last in every filter it
      passes. */
  lemma LogFiltersAfterAdd(logs: seq<LogEntry>, e: LogEntry, status: ParseStatus, start: int, end: int)
    ensures LogsByStatus(logs + [e], status) ==
              LogsByStatus(logs, status) + (if e.status == status then [e] else [])
    ensures LogsByDateRange(logs + [e], start, end) ==
              LogsByDateRange(logs, start, end) + (if InWindow(e.timestamp, start, end) then [e] else [])
  {
    FilterAppend(logs, [e], LogHasStatus(status));
    FilterAppend(logs, [e], LoggedWithin(start, end));
  }

  /** The summed lengths of the parts. */
  function TotalLength(parts: seq<string>): nat
    decreases |parts|
  {
    if parts == [] then 0 else TotalLength(parts[..|parts| - 1]) + |parts[|parts| - 1]|
  }

  /** `parts.join(sep)`: no parts give the empty text, one part is itself, and otherwise every
      part is kept with one separator between each neighbouring pair. */
  function Join(parts: seq<string>, sep: string): (r: string)
    ensures parts == [] ==> r == ""
    ensures |parts| == 1 ==> r == parts[0]
    ensures parts != [] ==> |r| == TotalLength(parts) + (|parts| - 1) * |sep|
    decreases |parts|
  {
    if parts == [] then ""
    else if |parts| == 1 then parts[0]
    else Join(parts[..|parts| - 1], sep) + sep + parts[|parts| - 1]
  }

  /** A joined list starts with its first part and ends with its last. */
  lemma {:induction false} JoinEnds(parts: seq<string>, sep: string)
    requires parts != []
    ensures |parts[0]| <= |Join(parts, sep)| && Join(parts, sep)[..|parts[0]|] == parts[0]
    ensures |parts[|parts| - 1]| <= |Join(parts, sep)|
    ensures Join(parts, sep)[|Join(parts, sep)| - |parts[|parts| - 1]|..] == parts[|parts| - 1]
    decreases |parts|
  {
    if |parts| > 1 {
      var init := parts[..|parts| - 1];
      JoinEnds(init, sep);
      assert init[0] == parts[0];
      var j := Join(init, sep);
      assert Join(parts, sep) == j + sep + parts[|parts| - 1];
      assert (j + sep + parts[|parts| - 1])[..|parts[0]|] == j[..|parts[0]|];
    }
  }

  /** How many double quotes `m` holds. */
  function QuoteCount(m: string): nat {
    if m == [] then 0 else (if m[0] == '"' then 1 else 0) + QuoteCount(m[1..])
  }

  /** `m.replace(/"/g, '""')`: one more character per quote, and a message without quotes is
      left as it is. */
  function DoubleQuotes(m: string): (r: string)
    ensures |r| == |m| + QuoteCount(m)
    ensures (forall i :: 0 <= i < |m| ==> m[i] != '"') ==> r == m
  {
    if m == [] then []
    else (if m[0] == '"' then "\"\"" else [m[0]]) + DoubleQuotes(m[1..])
  }

  /** The inverse reading of a quoted CSV field's inside: `""` is one quote, and a lone quote
      makes the text unreadable. */
  function UndoubleQuotes(t: string): Option<string>
    decreases |t|
  {
    if t == [] then Some([])
    else if t[0] != '"' then
      match UndoubleQuotes(t[1..])
      case Some(rest) => Some([t[0]] + rest)
      case None => None
    else if |t| >= 2 && t[1] == '"' then
      match UndoubleQuotes(t[2..])
      case Some(rest) => Some("\"" + rest)
      case None => None
    else None
  }

  lemma {:induction false} UndoubleDoubled(m: string)
    ensures UndoubleQuotes(DoubleQuotes(m)) == Some(m)
  {
    if m != [] {
      UndoubleDoubled(m[1..]);
      var d := DoubleQuotes(m[1..]);
      if m[0] == '"' {
        assert DoubleQuotes(m) == "\"\"" + d;
        assert ("\"\"" + d)[2..] == d;
      } else {
        assert DoubleQuotes(m) == [m[0]] + d;
        assert ([m[0]] + d)[1..] == d;
      }
      assert m == [m[0]] + m[1..];
    }
  }

  /** The Message column: the message in double quotes with every quote doubled. */
  function QuoteField(m: string): (f: string)
    ensures |f| >= 2 && f[0] == '"' && f[|f| - 1] == '"'
  {
    "\"" + DoubleQuotes(m) + "\""
  }

  /** Reads a quoted field back. */
  function UnquoteField(f: string): Option<string> {
    if |f| >= 2 && f[0] == '"' && f[|f| - 1] == '"' then UndoubleQuotes(f[1..|f| - 1]) else None
  }

  /** Un-doubling the quoted Message column gives back the message. */
  lemma MessageRoundTrip(m: string)
    ensures UnquoteField(QuoteField(m)) == Some(m)
  {
    var f := QuoteField(m);
    assert f[1..|f| - 1] == DoubleQuotes(m);
    UndoubleDoubled(m);
  }

  function SourceName(s: Source): string {
    match s
    case SMS => "SMS"
    case Email => "Email"
  }

  function StatusName(s: ParseStatus): string {
    match s
    case Success => "success"
    case Failed => "failed"
    case Pending => "pending"
  }

  const Headers: seq<string> := ["Timestamp", "Sender", "Amount", "Member ID", "Source", "Status", "Message"]

  function HeaderRow(): string {
    Join(Headers, ",")
  }

  /** The seven columns of an entry's row, in header order. `iso` renders a clock reading as
      the stored timestamp text, `show` an amount as `toString` does. */
  function RowFields(log: LogEntry, iso: int -> string, show: Amount -> string): (f: seq<string>)
    ensures |f| == |Headers|
  {
    [iso(log.timestamp), log.senderName, show(log.amount), log.memberId,
     SourceName(log.source), StatusName(log.status), QuoteField(log.message)]
  }

  /** An entry's row: the seven columns joined by commas. It starts with the entry's timestamp
      and ends with its quoted message. */
  function CsvRow(log: LogEntry, iso: int -> string, show: Amount -> string): (r: string)
    ensures |iso(log.timestamp)| <= |r| && r[..|iso(log.timestamp)|] == iso(log.timestamp)
    ensures |QuoteField(log.message)| <= |r| && r[|r| - |QuoteField(log.message)|..] == QuoteField(log.message)
  {
    JoinEnds(RowFields(log, iso, show), ",");
    Join(RowFields(log, iso, show), ",")
  }

  /** The message of an entry reads back from the end of its row. */
  lemma RowMessageReadsBack(log: LogEntry, iso: int -> string, show: Amount -> string)
    ensures var r, q := CsvRow(log, iso, show), QuoteField(log.message);
      UnquoteField(r[|r| - |q|..]) == Some(log.message)
  {
    MessageRoundTrip(log.message);
  }

  /** The rows of the export: the header row, then one row per entry in input order. */
  function CsvRows(logs: seq<LogEntry>, iso: int -> string, show: Amount -> string): (rows: seq<string>)
    ensures |rows| == |logs| + 1 && rows[0] == HeaderRow()
    ensures forall i :: 0 <= i < |logs| ==> rows[i + 1] == CsvRow(logs[i], iso, show)
    decreases |logs|
  {
    if logs == [] then [HeaderRow()]
    else
      var init := logs[..|logs| - 1];
      assert forall i :: 0 <= i < |init| ==> init[i] == logs[i];
      CsvRows(init, iso, show) + [CsvRow(logs[|logs| - 1], iso, show)]
  }

  /** `convertToCSV`: pushes one row per entry after the header row, then joins with '\n'. */
  method ConvertToCsv(logs: seq<LogEntry>, iso: int -> string, show: Amount -> string) returns (csv: string)
    ensures csv == Join(CsvRows(logs, iso, show), "\n")
    ensures |HeaderRow()| <= |csv| && csv[..|HeaderRow()|] == HeaderRow()
  {
    var rows := [HeaderRow()];
    var i := 0;
    while i < |logs|
      invariant 0 <= i <= |logs|
      invariant rows == CsvRows(logs[..i], iso, show)
    {
      assert logs[..i + 1][..i] == logs[..i];
      rows := rows + [CsvRow(logs[i], iso, show)];
      i := i + 1;
    }
    assert logs[..i] == logs;
    csv := Join(rows, "\n");
    JoinEnds(rows, "\n");
  }

  /** The header row, spelled out. */
  lemma HeaderRowText()
    ensures HeaderRow() == "Timestamp,Sender,Amount,Member ID,Source,Status,Message"
  {
    var h := Headers;
    assert h[..1] == ["Timestamp"];
    assert h[..2][..1] == h[..1] && Join(h[..2], ",") == "Timestamp,Sender";
    assert h[..3][..2] == h[..2] && Join(h[..3], ",") == "Timestamp,Sender,Amount";
    assert h[..4][..3] == h[..3] && Join(h[..4], ",") == "Timestamp,Sender,Amount,Member ID";
    assert h[..5][..4] == h[..4] && Join(h[..5], ",") == "Timestamp,Sender,Amount,Member ID,Source";
    assert h[..6][..5] == h[..5];
    assert Join(h[..6], ",") == "Timestamp,Sender,Amount,Member ID,Source,Status";
    assert h[..6] == h[..|h| - 1];
  }

  /** The storage of the log service. */
  class LogStore {
    /** What `getAllLogs` returns. */
    var logs: seq<LogEntry>

    constructor ()
      ensures logs == []
    {
      logs := [];
    }

    /** `addLog`: the entry goes last, and only the last 1000 entries are kept. */
    method AddLog(n: NewLogEntry, id: string, timestamp: int)
      modifies this
      ensures logs == KeepLast(old(logs) + [Logged(n, id, timestamp)], MaxLogs)
      ensures |logs| <= MaxLogs && |logs| > 0 && logs[|logs| - 1] == Logged(n, id, timestamp)
    {
      logs := logs + [Logged(n, id, timestamp)];
      if |logs| > MaxLogs {
        logs := logs[|logs| - MaxLogs..];
      }
    }

    /** `clearLogs`: the stored entry is removed, so the list reads back empty. */
    method ClearLogs()
      modifies this
      ensures logs == []
    {
      logs := [];
    }
  }
}
