/** The classifier's CSV export: one header line holding every key of every
    row, in order of first appearance, then one line per row with each
    header's value wrapped in double quotes and every inner double quote
    doubled, as section 2 of RFC 4180 prescribes for quoted fields. */
module CsvExport {
  import opened ClassifierTypes
  import opened UniqueLists

  /** One exported record: its own keys in enumeration order and the text of
      each value (`String(v ?? "")`). */
  datatype Row = Row(keys: seq<string>, cells: map<string, string>)

  /** `r[h]` as text: a key the row does not have reads as the empty text. */
  function Cell(r: Row, h: string): string {
    if h in r.cells then r.cells[h] else ""
  }

  /** `rows.flatMap(r => Object.keys(r))`. */
  function AllKeys(rows: seq<Row>): seq<string> {
    if rows == [] then [] else AllKeys(rows[..|rows| - 1]) + rows[|rows| - 1].keys
  }

  /** The distinct keys, in order of first appearance. */
  function Headers(rows: seq<Row>): seq<string> {
    Dedup(AllKeys(rows))
  }

  /** Every `"` written twice. */
  function DoubleQuotes(v: string): string {
    if v == [] then []
    else (if v[0] == '"' then "\"\"" else [v[0]]) + DoubleQuotes(v[1..])
  }

  /** `esc`: the value as one quoted field. */
  function Escape(v: string): string {
    "\"" + DoubleQuotes(v) + "\""
  }

  /** `parts.join(sep)`. */
  function Join(parts: seq<string>, sep: char): string {
    if parts == [] then []
    else if |parts| == 1 then parts[0]
    else parts[0] + [sep] + Join(parts[1..], sep)
  }

  /** The fields of one row, one per header. */
  function EscapedCells(r: Row, headers: seq<string>): seq<string> {
    if headers == [] then [] else [Escape(Cell(r, headers[0]))] + EscapedCells(r, headers[1..])
  }

  /** The values of one row, one per header. */
  function Cells(r: Row, headers: seq<string>): seq<string> {
    if headers == [] then [] else [Cell(r, headers[0])] + Cells(r, headers[1..])
  }

  function RowLine(r: Row, headers: seq<string>): string {
    Join(EscapedCells(r, headers), ',')
  }

  function DataLines(rows: seq<Row>, headers: seq<string>): seq<string> {
    if rows == [] then [] else [RowLine(rows[0], headers)] + DataLines(rows[1..], headers)
  }

  /** The header line is the keys joined as they are; the data lines follow. */
  function Lines(rows: seq<Row>): (lines: seq<string>)
    ensures |lines| == |rows| + 1
    ensures lines[0] == Join(Headers(rows), ',')
    ensures forall i :: 0 <= i < |rows| ==> lines[i + 1] == RowLine(rows[i], Headers(rows))
  {
    DataLinesSpec(rows, Headers(rows));
    [Join(Headers(rows), ',')] + DataLines(rows, Headers(rows))
  }

  function ToCSV(rows: seq<Row>): string {
    Join(Lines(rows), '\n')
  }

  lemma {:induction false} DataLinesSpec(rows: seq<Row>, headers: seq<string>)
    ensures |DataLines(rows, headers)| == |rows|
    ensures forall i :: 0 <= i < |rows| ==> DataLines(rows, headers)[i] == RowLine(rows[i], headers)
  {
    if rows != [] {
      DataLinesSpec(rows[1..], headers);
    }
  }

  // ---------- Headers ----------

  /** A key is among all keys exactly when some row has it. */
  lemma {:induction false} AllKeysSpec(rows: seq<Row>, h: string)
    ensures h in AllKeys(rows) <==> exists i :: 0 <= i < |rows| && h in rows[i].keys
  {
    if rows != [] {
      var pre := rows[..|rows| - 1];
      AllKeysSpec(pre, h);
      if h in rows[|rows| - 1].keys {
        assert h in AllKeys(rows);
      }
      if exists i :: 0 <= i < |rows| && h in rows[i].keys {
        var i :| 0 <= i < |rows| && h in rows[i].keys;
        if i < |rows| - 1 {
          assert pre[i] == rows[i];
        }
      }
      if h in AllKeys(pre) {
        var i :| 0 <= i < |pre| && h in pre[i].keys;
        assert rows[i] == pre[i];
      }
    }
  }

  lemma {:induction false} AllKeysAppend(rows: seq<Row>, more: seq<Row>)
    ensures AllKeys(rows + more) == AllKeys(rows) + AllKeys(more)
    decreases |more|
  {
    if more == [] {
      assert rows + more == rows;
    } else {
      var pre := more[..|more| - 1];
      AllKeysAppend(rows, pre);
      assert (rows + more)[..|rows + more| - 1] == rows + pre;
    }
  }

  /** The headers name no column twice, name exactly the keys some row has,
      and exporting further rows only appends columns: the columns already
      there keep their order. */
  lemma HeadersSpec(rows: seq<Row>, more: seq<Row>, h: string)
    ensures NoDuplicates(Headers(rows))
    ensures h in Headers(rows) <==> exists i :: 0 <= i < |rows| && h in rows[i].keys
    ensures |Headers(rows)| <= |Headers(rows + more)|
    ensures Headers(rows + more)[..|Headers(rows)|] == Headers(rows)
  {
    DedupSpec(AllKeys(rows));
    AllKeysSpec(rows, h);
    AllKeysAppend(rows, more);
    DedupExtends(AllKeys(rows), AllKeys(more));
  }

  // ---------- Reading a quoted line back ----------

  /** Reads the rest of a quoted field whose opening `"` has been consumed: a
      doubled `""` stands for one `"`, a single `"` closes the field. Yields
      the value and the text after the closing quote. */
  function ReadQuoted(s: string): (r: Option<(string, string)>)
    ensures r.Some? ==> |r.value.1| < |s|
  {
    if s == [] then None
    else if s[0] == '"' then
      if |s| >= 2 && s[1] == '"' then
        match ReadQuoted(s[2..])
        case None => None
        case Some(p) => Some(("\"" + p.0, p.1))
      else Some(("", s[1..]))
    else
      match ReadQuoted(s[1..])
      case None => None
      case Some(p) => Some(([s[0]] + p.0, p.1))
  }

  /** Reads a line of comma-separated quoted fields. */
  function ReadFields(s: string): Option<seq<string>>
    decreases |s|
  {
    if s == [] || s[0] != '"' then None
    else
      match ReadQuoted(s[1..])
      case None => None
      case Some(p) =>
        if p.1 == [] then Some([p.0])
        else if p.1[0] != ',' then None
        else
          match ReadFields(p.1[1..])
          case None => None
          case Some(vs) => Some([p.0] + vs)
  }

  /** The doubled value followed by a closing quote reads back as the value,
      whatever follows that does not itself start with a quote. */
  lemma {:induction false} ReadQuotedDoubled(v: string, rest: string)
    requires rest == [] || rest[0] != '"'
    ensures ReadQuoted(DoubleQuotes(v) + "\"" + rest) == Some((v, rest))
  {
    if v == [] {
      var s := DoubleQuotes(v) + "\"" + rest;
      assert s == "\"" + rest;
      assert s[1..] == rest;
    } else {
      ReadQuotedDoubled(v[1..], rest);
      var tail := DoubleQuotes(v[1..]) + "\"" + rest;
      if v[0] == '"' {
        assert DoubleQuotes(v) + "\"" + rest == "\"\"" + tail;
        assert ("\"\"" + tail)[2..] == tail;
      } else {
        assert DoubleQuotes(v) + "\"" + rest == [v[0]] + tail;
        assert ([v[0]] + tail)[1..] == tail;
      }
      assert [v[0]] + v[1..] == v;
    }
  }

  /** An escaped value reads back as the value, and the field ends exactly
      where the escaped text ends (when the next character is not a quote,
      as the separator never is). */
  lemma EscapeRoundTrip(v: string, rest: string)
    requires rest == [] || rest[0] != '"'
    ensures Escape(v)[0] == '"'
    ensures ReadQuoted((Escape(v) + rest)[1..]) == Some((v, rest))
  {
    ReadQuotedDoubled(v, rest);
    assert (Escape(v) + rest)[1..] == DoubleQuotes(v) + "\"" + rest;
  }

  /** Every data line reads back, field by field, as the row's values under
      the headers, whatever commas, quotes or line breaks the values hold. */
  lemma {:induction false} RowLineRoundTrip(r: Row, headers: seq<string>)
    requires headers != []
    ensures ReadFields(RowLine(r, headers)) == Some(Cells(r, headers))
  {
    var v := Cell(r, headers[0]);
    var tail := headers[1..];
    var more := RowLineTail(r, headers);
    EscapeRoundTrip(v, more);
    if tail != [] {
      RowLineRoundTrip(r, tail);
      assert more[1..] == RowLine(r, tail);
    }
  }

  /** A data line is its first field followed by a comma and the rest of the
      line, or by nothing for the last field. */
  lemma RowLineTail(r: Row, headers: seq<string>) returns (more: string)
    requires headers != []
    ensures RowLine(r, headers) == Escape(Cell(r, headers[0])) + more
    ensures headers[1..] == [] ==> more == [] && Cells(r, headers) == [Cell(r, headers[0])]
    ensures headers[1..] != [] ==>
      && more == [','] + RowLine(r, headers[1..])
      && Cells(r, headers) == [Cell(r, headers[0])] + Cells(r, headers[1..])
  {
    var cells := EscapedCells(r, headers);
    assert cells == [Escape(Cell(r, headers[0]))] + EscapedCells(r, headers[1..]);
    if headers[1..] == [] {
      more := [];
      assert cells == [Escape(Cell(r, headers[0]))];
    } else {
      more := [','] + RowLine(r, headers[1..]);
      assert EscapedCells(r, headers[1..]) != [];
      assert cells[1..] == EscapedCells(r, headers[1..]);
    }
  }

  /** Each row's line in the export reads back as that row's values, one per
      column, with the empty text where the row lacks the column. */
  lemma ToCSVRowsReadBack(rows: seq<Row>, i: nat)
    requires i < |rows| && Headers(rows) != []
    ensures var line := Lines(rows)[i + 1];
      && ReadFields(line) == Some(Cells(rows[i], Headers(rows)))
      && |Cells(rows[i], Headers(rows))| == |Headers(rows)|
      && forall j :: 0 <= j < |Headers(rows)| ==> Cells(rows[i], Headers(rows))[j] == Cell(rows[i], Headers(rows)[j])
  {
    RowLineRoundTrip(rows[i], Headers(rows));
    CellsSpec(rows[i], Headers(rows));
  }

  lemma {:induction false} CellsSpec(r: Row, headers: seq<string>)
    ensures |Cells(r, headers)| == |headers|
    ensures forall j :: 0 <= j < |headers| ==> Cells(r, headers)[j] == Cell(r, headers[j])
  {
    if headers != [] {
      CellsSpec(r, headers[1..]);
    }
  }
}
