/**
 * The CSV cell escaping of the randomised exporter and a decoder for the
 * field grammar of section 2 (items 5 to 7) of RFC 4180: a field holding a
 * comma, a double quote or a line break is enclosed in double quotes, and a
 * double quote inside it is written twice. Records end with a single line
 * feed, as the exporter writes them, where the RFC uses CRLF.
 */
module Csv {
  import opened Text

  /** `s.includes(',') || s.includes('"') || s.includes('\n')` */
  predicate NeedsQuoting(s: string) {
    ',' in s || '"' in s || '\n' in s
  }

  /** `s.replace(/"/g, '""')` */
  function DoubleQuotes(s: string): (r: string)
    ensures |r| >= |s|
  {
    if s == [] then []
    else (if s[0] == '"' then "\"\"" else [s[0]]) + DoubleQuotes(s[1..])
  }

  /**
   * The per-cell escape: quoted exactly when the text holds a comma, a double
   * quote or a newline; otherwise written as it is.
   */
  function EscapeCell(s: string): (e: string)
    ensures NeedsQuoting(s) <==> |e| > 0 && e[0] == '"'
    ensures !NeedsQuoting(s) ==> e == s
    ensures NeedsQuoting(s) ==> |e| >= |s| + 2 && e[|e| - 1] == '"'
  {
    if NeedsQuoting(s) then "\"" + DoubleQuotes(s) + "\"" else s
  }

  /** `cells.map(escape)` */
  function EscapeAll(cells: seq<string>): (escaped: seq<string>)
    ensures |escaped| == |cells|
    ensures forall k :: 0 <= k < |cells| ==> escaped[k] == EscapeCell(cells[k])
  {
    if cells == [] then [] else [EscapeCell(cells[0])] + EscapeAll(cells[1..])
  }

  /** `cells.map(escape).join(',')` */
  function EncodeRow(cells: seq<string>): string {
    Join(EscapeAll(cells), ',')
  }

  /** A CSV body: one encoded row per line, each line ended by a newline. */
  function EncodeRows(rows: seq<seq<string>>): string {
    Terminated(MapLines(rows, EncodeRow))
  }

  // ---------------------------------------------------------------------
  // Decoder
  // ---------------------------------------------------------------------

  /** The body of a quoted field, read after its opening quote, up to and including the closing quote. */
  function ParseQuoted(s: string): (r: Option<(string, string)>)
    ensures r.Some? ==> |r.value.1| < |s|
  {
    if s == [] then None
    else if s[0] == '"' then
      if |s| > 1 && s[1] == '"' then
        match ParseQuoted(s[2..])
        case None => None
        case Some((f, rest)) => Some(("\"" + f, rest))
      else Some(([], s[1..]))
    else
      match ParseQuoted(s[1..])
      case None => None
      case Some((f, rest)) => Some(([s[0]] + f, rest))
  }

  /**
   * An unquoted field: everything up to the next comma or line break. It also
   * stops at a double quote, which item 5 of section 2 of RFC 4180 does not
   * allow in an unquoted field; the record parser then rejects the text.
   */
  function ParseUnquoted(s: string): (r: (string, string))
    ensures |r.1| <= |s|
  {
    if s == [] || s[0] == ',' || s[0] == '\n' || s[0] == '"' then ([], s)
    else
      var (f, rest) := ParseUnquoted(s[1..]);
      ([s[0]] + f, rest)
  }

  /** One field: quoted if it starts with a double quote, unquoted otherwise. */
  function ParseField(s: string): (r: Option<(string, string)>)
    ensures r.Some? ==> |r.value.1| <= |s|
  {
    if |s| > 0 && s[0] == '"' then ParseQuoted(s[1..]) else Some(ParseUnquoted(s))
  }

  /** One record: comma-separated fields ended by a line break or the end of the text. */
  function ParseRecord(s: string): (r: Option<(seq<string>, string)>)
    ensures r.Some? ==> |r.value.0| >= 1 && |r.value.1| <= |s|
    ensures r.Some? && |s| > 0 ==> |r.value.1| < |s|
    decreases |s|
  {
    match ParseField(s)
    case None => None
    case Some((f, rest)) =>
      if rest == [] then Some(([f], []))
      else if rest[0] == '\n' then Some(([f], rest[1..]))
      else if rest[0] == ',' then
        match ParseRecord(rest[1..])
        case None => None
        case Some((fs, tail)) => Some(([f] + fs, tail))
      else None
  }

  /** A whole CSV text as its records. */
  function ParseRows(s: string): Option<seq<seq<string>>>
    decreases |s|
  {
    if s == [] then Some([])
    else match ParseRecord(s)
      case None => None
      case Some((fields, rest)) =>
        match ParseRows(rest)
        case None => None
        case Some(more) => Some([fields] + more)
  }

  // ---------------------------------------------------------------------
  // Round trip
  // ---------------------------------------------------------------------

  lemma {:induction false} UnquotedRoundTrip(c: string, rest: string)
    requires !NeedsQuoting(c)
    requires rest == [] || rest[0] == ',' || rest[0] == '\n'
    ensures ParseUnquoted(c + rest) == (c, rest)
    decreases |c|
  {
    if c != [] {
      assert c[0] in c;
      assert (c + rest)[0] == c[0] && (c + rest)[1..] == c[1..] + rest;
      UnquotedRoundTrip(c[1..], rest);
      assert [c[0]] + c[1..] == c;
    } else {
      assert c + rest == rest;
    }
  }

  lemma {:induction false} QuotedRoundTrip(c: string, rest: string)
    requires rest == [] || rest[0] != '"'
    ensures ParseQuoted(DoubleQuotes(c) + "\"" + rest) == Some((c, rest))
    decreases |c|
  {
    if c == [] {
      var s := DoubleQuotes(c) + "\"" + rest;
      assert s == "\"" + rest;
      assert s[1..] == rest;
    } else {
      QuotedRoundTrip(c[1..], rest);
      if c[0] == '"' {
        QuotedStepEscaped(c, rest);
      } else {
        QuotedStepPlain(c, rest);
      }
    }
  }

  /** A double quote inside the cell is read back from its doubled form. */
  lemma QuotedStepEscaped(c: string, rest: string)
    requires c != [] && c[0] == '"'
    requires ParseQuoted(DoubleQuotes(c[1..]) + "\"" + rest) == Some((c[1..], rest))
    ensures ParseQuoted(DoubleQuotes(c) + "\"" + rest) == Some((c, rest))
  {
    var more := DoubleQuotes(c[1..]) + "\"" + rest;
    assert DoubleQuotes(c) == "\"\"" + DoubleQuotes(c[1..]);
    var s := DoubleQuotes(c) + "\"" + rest;
    assert s == "\"\"" + more;
    assert s[0] == '"' && s[1] == '"' && s[2..] == more;
    assert ParseQuoted(s) == Some(("\"" + c[1..], rest));
    assert c == "\"" + c[1..];
  }

  /** Any other character is read back as itself. */
  lemma QuotedStepPlain(c: string, rest: string)
    requires c != [] && c[0] != '"'
    requires ParseQuoted(DoubleQuotes(c[1..]) + "\"" + rest) == Some((c[1..], rest))
    ensures ParseQuoted(DoubleQuotes(c) + "\"" + rest) == Some((c, rest))
  {
    var more := DoubleQuotes(c[1..]) + "\"" + rest;
    assert DoubleQuotes(c) == [c[0]] + DoubleQuotes(c[1..]);
    var s := DoubleQuotes(c) + "\"" + rest;
    assert s == [c[0]] + more;
    assert s[0] == c[0] && s[1..] == more;
    assert ParseQuoted(s) == Some(([c[0]] + c[1..], rest));
    assert c == [c[0]] + c[1..];
  }

  /** An escaped cell reads back as the cell, whatever follows it as a separator. */
  lemma FieldRoundTrip(c: string, rest: string)
    requires rest == [] || rest[0] == ',' || rest[0] == '\n'
    ensures ParseField(EscapeCell(c) + rest) == Some((c, rest))
  {
    if NeedsQuoting(c) {
      QuotedFieldRoundTrip(c, rest);
    } else {
      UnquotedFieldRoundTrip(c, rest);
    }
  }

  lemma QuotedFieldRoundTrip(c: string, rest: string)
    requires NeedsQuoting(c)
    requires rest == [] || rest[0] == ',' || rest[0] == '\n'
    ensures ParseField(EscapeCell(c) + rest) == Some((c, rest))
  {
    EscapedQuoted(c, rest);
    QuotedRoundTrip(c, rest);
  }

  /** A quoted cell opens with a double quote, followed by its body and the closing quote. */
  lemma EscapedQuoted(c: string, rest: string)
    requires NeedsQuoting(c)
    ensures var s := EscapeCell(c) + rest;
      |s| > 0 && s[0] == '"' && s[1..] == DoubleQuotes(c) + "\"" + rest
  {
    var body := DoubleQuotes(c) + "\"" + rest;
    assert EscapeCell(c) + rest == ['"'] + body;
  }

  lemma UnquotedFieldRoundTrip(c: string, rest: string)
    requires !NeedsQuoting(c)
    requires rest == [] || rest[0] == ',' || rest[0] == '\n'
    ensures ParseField(EscapeCell(c) + rest) == Some((c, rest))
  {
    assert EscapeCell(c) == c;
    UnquotedRoundTrip(c, rest);
    if c != [] {
      assert c[0] in c;
      assert (c + rest)[0] == c[0];
    } else {
      assert c + rest == rest;
    }
  }

  /** An encoded row followed by a newline reads back as exactly its cells. */
  lemma {:induction false} RecordRoundTrip(cells: seq<string>, rest: string)
    requires |cells| >= 1
    ensures ParseRecord(EncodeRow(cells) + "\n" + rest) == Some((cells, rest))
    decreases |cells|
  {
    if |cells| == 1 {
      LastFieldRoundTrip(cells, rest);
    } else {
      RecordRoundTrip(cells[1..], rest);
      NextFieldRoundTrip(cells, rest);
    }
  }

  /** A one-cell row: the field, then the line break. */
  lemma LastFieldRoundTrip(cells: seq<string>, rest: string)
    requires |cells| == 1
    ensures ParseRecord(EncodeRow(cells) + "\n" + rest) == Some((cells, rest))
  {
    var after := "\n" + rest;
    var s := EscapeCell(cells[0]) + after;
    assert EscapeAll(cells) == [EscapeCell(cells[0])];
    assert EncodeRow(cells) + "\n" + rest == s;
    FieldRoundTrip(cells[0], after);
    assert after[0] == '\n' && after[1..] == rest;
    assert ParseRecord(s) == Some(([cells[0]], rest));
    assert cells == [cells[0]];
  }

  /** A longer row: the first field, a comma, then the rest of the row. */
  lemma NextFieldRoundTrip(cells: seq<string>, rest: string)
    requires |cells| >= 2
    requires ParseRecord(EncodeRow(cells[1..]) + "\n" + rest) == Some((cells[1..], rest))
    ensures ParseRecord(EncodeRow(cells) + "\n" + rest) == Some((cells, rest))
  {
    var tail := cells[1..];
    var first := EscapeCell(cells[0]);
    var more := EncodeRow(tail) + "\n" + rest;
    var after := [','] + more;
    EncodeRowCons(cells);
    ConcatShift(first, EncodeRow(tail), rest);
    FieldRoundTrip(cells[0], after);
    assert after[1..] == more;
    RecordCons(first + after, cells[0], after, tail, rest);
    assert cells == [cells[0]] + tail;
  }

  /** A row of two or more cells is its first escaped cell, a comma and the encoding of the rest. */
  lemma EncodeRowCons(cells: seq<string>)
    requires |cells| >= 2
    ensures EncodeRow(cells) == EscapeCell(cells[0]) + [','] + EncodeRow(cells[1..])
  {
    assert EscapeAll(cells) == [EscapeCell(cells[0])] + EscapeAll(cells[1..]);
  }

  /** Regrouping a row: a field, then a comma and the rest of the row with its line break. */
  lemma ConcatShift(a: string, b: string, c: string)
    ensures a + [','] + b + "\n" + c == a + ([','] + (b + "\n" + c))
  {
  }

  /** A field followed by a comma and a record that parses is a record one field longer. */
  lemma RecordCons(s: string, f: string, after: string, fs: seq<string>, rest: string)
    requires ParseField(s) == Some((f, after))
    requires after != [] && after[0] == ',' && ParseRecord(after[1..]) == Some((fs, rest))
    ensures ParseRecord(s) == Some(([f] + fs, rest))
  {
  }

  /**
   * The CSV body of any table whose rows are non-empty decodes back to the
   * table: every cell is recovered exactly, including commas, double quotes
   * and line breaks inside cells.
   */
  lemma {:induction false} RowsRoundTrip(rows: seq<seq<string>>)
    requires forall k :: 0 <= k < |rows| ==> |rows[k]| >= 1
    ensures ParseRows(EncodeRows(rows)) == Some(rows)
    decreases |rows|
  {
    if rows != [] {
      RowsRoundTrip(rows[1..]);
      RowsStep(rows);
    }
  }

  /** The body of a table is its first row's line followed by the body of the remaining rows. */
  lemma EncodeRowsCons(rows: seq<seq<string>>)
    requires |rows| >= 1
    ensures EncodeRows(rows) == EncodeRow(rows[0]) + "\n" + EncodeRows(rows[1..])
  {
    var tailLines := MapLines(rows[1..], EncodeRow);
    assert MapLines(rows, EncodeRow) == [EncodeRow(rows[0])] + tailLines;
    TerminatedCons(EncodeRow(rows[0]), tailLines);
  }

  lemma RowsStep(rows: seq<seq<string>>)
    requires |rows| >= 1 && |rows[0]| >= 1
    requires ParseRows(EncodeRows(rows[1..])) == Some(rows[1..])
    ensures ParseRows(EncodeRows(rows)) == Some(rows)
  {
    EncodeRowsCons(rows);
    var rest := EncodeRows(rows[1..]);
    var line := EncodeRow(rows[0]);
    RecordRoundTrip(rows[0], rest);
    RowsCons(line + "\n" + rest, rows[0], rest, rows[1..]);
    assert rows == [rows[0]] + rows[1..];
  }

  /** A non-empty text whose first record parses, followed by rows that parse, parses to that record and those rows. */
  lemma RowsCons(s: string, fields: seq<string>, rest: string, more: seq<seq<string>>)
    requires s != [] && ParseRecord(s) == Some((fields, rest))
    requires ParseRows(rest) == Some(more)
    ensures ParseRows(s) == Some([fields] + more)
  {
  }
}
