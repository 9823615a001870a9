/** The export of the collected history as a CSV document. Fields are joined with
    commas and rows with newlines; nothing is quoted or escaped. */
module Csv {
  import opened Records

  /** The column names, in the order every row lists its fields. */
  const Columns: seq<string> :=
    ["id", "timestamp", "risk_level", "confidence", "position_x", "position_y", "session_id"]

  /** The first line of every export,
      "id,timestamp,risk_level,confidence,position_x,position_y,session_id". */
  const HeaderRow: string := Join(Columns, ',')

  /** `parts.join(sep)`: the empty list joins to the empty string. */
  function Join(parts: seq<string>, sep: char): string
    decreases |parts|
  {
    if parts == [] then ""
    else if |parts| == 1 then parts[0]
    else parts[0] + [sep] + Join(parts[1..], sep)
  }

  /** Cutting a text at every `sep`; the inverse of `Join` on parts free of `sep`. */
  function Split(s: string, sep: char): (parts: seq<string>)
    ensures |parts| >= 1
    decreases |s|
  {
    if s == [] then [""]
    else if s[0] == sep then [""] + Split(s[1..], sep)
    else var rest := Split(s[1..], sep); [[s[0]] + rest[0]] + rest[1..]
  }

  /** No part contains the separator. */
  predicate Clean(parts: seq<string>, sep: char) {
    forall k :: 0 <= k < |parts| ==> sep !in parts[k]
  }

  lemma {:induction false} SplitPlain(s: string, sep: char)
    requires sep !in s
    ensures Split(s, sep) == [s]
    decreases |s|
  {
    if s != [] {
      SplitPlain(s[1..], sep);
      assert [s[0]] + s[1..] == s;
    }
  }

  lemma {:induction false} SplitAtFirst(a: string, b: string, sep: char)
    requires sep !in a
    ensures Split(a + [sep] + b, sep) == [a] + Split(b, sep)
    decreases |a|
  {
    if a == [] {
      assert a + [sep] + b == [sep] + b;
      assert ([sep] + b)[1..] == b;
    } else {
      SplitAtFirst(a[1..], b, sep);
      assert (a + [sep] + b)[1..] == a[1..] + [sep] + b;
      assert [a[0]] + a[1..] == a;
    }
  }

  /** Round trip: parts without the separator come back from their join unchanged. */
  lemma {:induction false} SplitJoin(parts: seq<string>, sep: char)
    requires |parts| >= 1
    requires Clean(parts, sep)
    ensures Split(Join(parts, sep), sep) == parts
    decreases |parts|
  {
    if |parts| == 1 {
      SplitPlain(parts[0], sep);
    } else {
      SplitJoin(parts[1..], sep);
      SplitAtFirst(parts[0], Join(parts[1..], sep), sep);
      assert [parts[0]] + parts[1..] == parts;
    }
  }

  /** The seven fields of one row, in header order; numbers are printed by `showNum`,
      JavaScript's number-to-text conversion. */
  function Fields(r: Pedestrian, showNum: real -> string): (f: seq<string>)
    ensures |f| == 7
    ensures f[0] == r.id && f[1] == r.timestamp && f[6] == r.sessionId
    ensures f[2] == RiskText(r.risk) && f[3] == showNum(r.confidence)
    ensures f[4] == showNum(r.positionX) && f[5] == showNum(r.positionY)
  {
    [r.id, r.timestamp, RiskText(r.risk), showNum(r.confidence),
     showNum(r.positionX), showNum(r.positionY), r.sessionId]
  }

  /** The template literal for one history record: it reads back as the record's seven
      fields when none of them holds a comma. */
  function Row(r: Pedestrian, showNum: real -> string): (row: string)
    ensures Clean(Fields(r, showNum), ',') ==> Split(row, ',') == Fields(r, showNum)
  {
    var f := Fields(r, showNum);
    if Clean(f, ',') then SplitJoin(f, ','); Join(f, ',') else Join(f, ',')
  }

  /** `pedestrianHistory.map(...)`, in history order. */
  function Rows(h: seq<Pedestrian>, showNum: real -> string): (rows: seq<string>)
    ensures |rows| == |h|
    ensures forall k :: 0 <= k < |h| ==> rows[k] == Row(h[k], showNum)
  {
    seq(|h|, k requires 0 <= k < |h| => Row(h[k], showNum))
  }

  /** `headers + csvContent`: the header line always comes first. */
  function Document(h: seq<Pedestrian>, showNum: real -> string): (d: string)
    ensures HeaderRow + "\n" <= d
    ensures h == [] ==> d == HeaderRow + "\n"
  {
    HeaderRow + "\n" + Join(Rows(h, showNum), '\n')
  }

  /** What the download button yields: a notice when there is nothing to export, or the
      file `pedestrian-data-<session id>.csv` with its contents. */
  datatype Export = NothingToExport | Download(fileName: string, content: string)

  /** `downloadSessionData` */
  function ExportHistory(h: seq<Pedestrian>, sessionId: string, showNum: real -> string): (e: Export)
    ensures e.NothingToExport? <==> h == []
    ensures e.Download? ==> e.fileName == "pedestrian-data-" + sessionId + ".csv"
    ensures e.Download? ==> e.content == Document(h, showNum)
  {
    if h == [] then NothingToExport
    else Download("pedestrian-data-" + sessionId + ".csv", Document(h, showNum))
  }

  /** No field of any record holds a comma or a newline. */
  predicate Printable(h: seq<Pedestrian>, showNum: real -> string) {
    forall k :: 0 <= k < |h| ==> Clean(Fields(h[k], showNum), ',') && Clean(Fields(h[k], showNum), '\n')
  }

  lemma {:induction false} JoinKeepsOut(parts: seq<string>, sep: char, c: char)
    requires Clean(parts, c)
    requires c != sep
    ensures c !in Join(parts, sep)
    decreases |parts|
  {
    if |parts| > 1 {
      JoinKeepsOut(parts[1..], sep, c);
    }
  }

  /** The header is a single line. */
  lemma HeaderOneLine()
    ensures '\n' !in HeaderRow
  {
    assert Clean(Columns, '\n');
    JoinKeepsOut(Columns, ',', '\n');
  }

  /** The document read line by line: the header, then one line per record in history
      order, provided no field holds a comma or newline; each line splits back into that
      record's seven fields. */
  lemma {:induction false} DocumentLines(h: seq<Pedestrian>, showNum: real -> string)
    requires h != []
    requires Printable(h, showNum)
    ensures Split(Document(h, showNum), '\n') == [HeaderRow] + Rows(h, showNum)
  {
    var rows := Rows(h, showNum);
    forall k | 0 <= k < |rows| ensures '\n' !in rows[k] {
      JoinKeepsOut(Fields(h[k], showNum), ',', '\n');
    }
    assert Join([HeaderRow] + rows, '\n') == Document(h, showNum) by {
      assert ([HeaderRow] + rows)[1..] == rows;
    }
    HeaderOneLine();
    SplitJoin([HeaderRow] + rows, '\n');
  }

  /** Exporting a non-empty history whose fields hold no comma or newline gives the
      header line followed by exactly one line per record, in history order, and each
      line splits back into that record's seven fields. */
  lemma {:induction false} ExportLines(h: seq<Pedestrian>, sessionId: string, showNum: real -> string)
    requires h != []
    requires Printable(h, showNum)
    ensures var lines := Split(ExportHistory(h, sessionId, showNum).content, '\n');
      && |lines| == |h| + 1
      && lines[0] == HeaderRow
      && forall k :: 0 <= k < |h| ==> Split(lines[k + 1], ',') == Fields(h[k], showNum)
  {
    var rows := Rows(h, showNum);
    var lines := Split(ExportHistory(h, sessionId, showNum).content, '\n');
    DocumentLines(h, showNum);
    assert lines == [HeaderRow] + rows;
    forall k | 0 <= k < |h| ensures Split(lines[k + 1], ',') == Fields(h[k], showNum) {
      assert lines[k + 1] == Row(h[k], showNum);
    }
  }
}
