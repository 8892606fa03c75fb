/**
 The CSV export of the transaction log, and a reader for the grammar of RFC 4180 section 2 with a bare
 line feed as the only record end. Reading undoes the export.
 */
module Csv {
  import opened Wrappers
  import opened Utf16
  import Decimal

  const QUOTE: CodeUnit := 0x22
  const COMMA: CodeUnit := 0x2C
  const LF: CodeUnit := 0x0A

  datatype Row = Row(
    id: nat,
    moduleName: Text,
    dealRef: Text,
    action: Text,
    counterparty: Option<Text>,
    amount: Option<Text>,
    currency: Option<Text>,
    txId: Option<Text>,
    timestamp: int)

  const COLUMNS: seq<Text> := [
    Ascii("id"), Ascii("module"), Ascii("dealRef"), Ascii("action"), Ascii("counterparty"), Ascii("amount"),
    Ascii("currency"), Ascii("txId"), Ascii("timestamp")
  ]

  // ---- writing ----

  predicate NeedsQuotes(s: Text) {
    QUOTE in s || COMMA in s || LF in s
  }

  function DoubleQuotes(s: Text): Text {
    if s == [] then []
    else (if s[0] == QUOTE then [QUOTE, QUOTE] else [s[0]]) + DoubleQuotes(s[1..])
  }

  function Escape(value: Option<Text>): Text {
    match value
    case None => []
    case Some(s) => if NeedsQuotes(s) then [QUOTE] + DoubleQuotes(s) + [QUOTE] else s
  }

  /** The columns of a row in order, `String(value)` for the two numbers. */
  function Cells(r: Row): seq<Option<Text>> {
    [Some(Decimal.Print(r.id)), Some(r.moduleName), Some(r.dealRef), Some(r.action), r.counterparty, r.amount,
     r.currency, r.txId, Some(Decimal.Print(r.timestamp))]
  }

  function Join(parts: seq<Text>, separator: CodeUnit): Text {
    if parts == [] then []
    else if |parts| == 1 then parts[0]
    else parts[0] + ([separator] + Join(parts[1..], separator))
  }

  function EscapeAll(values: seq<Option<Text>>): (r: seq<Text>)
    ensures |r| == |values|
  {
    if values == [] then [] else [Escape(values[0])] + EscapeAll(values[1..])
  }

  function Lines(rows: seq<Row>): (r: seq<Text>)
    ensures |r| == |rows|
  {
    if rows == [] then [] else [Join(EscapeAll(Cells(rows[0])), COMMA)] + Lines(rows[1..])
  }

  function Export(rows: seq<Row>): Text {
    Join([Join(COLUMNS, COMMA)] + Lines(rows), LF)
  }

  // ---- reading ----

  /** The content of a quoted field up to its closing quote, and the text behind the quote. */
  function ReadQuoted(t: Text): (r: Option<(Text, Text)>)
    ensures r.Some? ==> |r.value.1| < |t|
  {
    if t == [] then None
    else if t[0] == QUOTE && |t| > 1 && t[1] == QUOTE then
      (match ReadQuoted(t[2..]) case None => None case Some((s, rest)) => Some(([QUOTE] + s, rest)))
    else if t[0] == QUOTE then Some(([], t[1..]))
    else
      (match ReadQuoted(t[1..]) case None => None case Some((s, rest)) => Some(([t[0]] + s, rest)))
  }

  /** The longest prefix free of commas, quotes and line feeds. */
  function ReadPlain(t: Text): (r: (Text, Text))
    ensures |r.1| <= |t|
  {
    if t == [] || t[0] in {COMMA, QUOTE, LF} then ([], t)
    else
      var (s, rest) := ReadPlain(t[1..]);
      ([t[0]] + s, rest)
  }

  predicate AtFieldEnd(t: Text) {
    t == [] || t[0] == COMMA || t[0] == LF
  }

  function ReadField(t: Text): (r: Option<(Text, Text)>)
    ensures r.Some? ==> |r.value.1| <= |t|
  {
    var field := if t != [] && t[0] == QUOTE then ReadQuoted(t[1..]) else Some(ReadPlain(t));
    match field
    case None => None
    case Some((s, rest)) => if AtFieldEnd(rest) then Some((s, rest)) else None
  }

  function ReadRecord(t: Text): (r: Option<(seq<Text>, Text)>)
    ensures r.Some? ==> |r.value.1| <= |t|
    decreases |t|
  {
    match ReadField(t)
    case None => None
    case Some((s, rest)) =>
      if rest != [] && rest[0] == COMMA then
        (match ReadRecord(rest[1..]) case None => None case Some((fields, after)) => Some(([s] + fields, after)))
      else Some(([s], rest))
  }

  /** All records; the last one may do without its line feed. */
  function Read(t: Text): Option<seq<seq<Text>>>
    decreases |t|
  {
    match ReadRecord(t)
    case None => None
    case Some((fields, rest)) =>
      if rest == [] || rest == [LF] then Some([fields])
      else if rest[0] == LF then
        (match Read(rest[1..]) case None => None case Some(records) => Some([fields] + records))
      else None
  }

  // ---- reading undoes writing ----

  lemma Assoc(a: Text, b: Text, c: Text)
    ensures (a + b) + c == a + (b + c)
  {
  }

  lemma {:induction false} ReadQuotedUndoes(s: Text, rest: Text)
    requires rest == [] || rest[0] != QUOTE
    ensures ReadQuoted(DoubleQuotes(s) + ([QUOTE] + rest)) == Some((s, rest))
  {
    var end := [QUOTE] + rest;
    if s == [] {
      assert DoubleQuotes(s) + end == end;
      assert end[1..] == rest;
    } else {
      ReadQuotedUndoes(s[1..], rest);
      var tail := DoubleQuotes(s[1..]) + end;
      assert s == [s[0]] + s[1..];
      if s[0] == QUOTE {
        Assoc([QUOTE, QUOTE], DoubleQuotes(s[1..]), end);
        assert ([QUOTE, QUOTE] + tail)[2..] == tail;
      } else {
        Assoc([s[0]], DoubleQuotes(s[1..]), end);
        assert ([s[0]] + tail)[1..] == tail;
      }
    }
  }

  lemma {:induction false} ReadPlainUndoes(s: Text, rest: Text)
    requires !NeedsQuotes(s) && AtFieldEnd(rest)
    ensures ReadPlain(s + rest) == (s, rest)
  {
    if s == [] {
      assert s + rest == rest;
    } else {
      assert s[0] in s && s == [s[0]] + s[1..];
      ReadPlainUndoes(s[1..], rest);
      assert (s + rest)[1..] == s[1..] + rest;
    }
  }

  /** What a reader sees of a cell: null and the empty string look the same. */
  function Seen(value: Option<Text>): Text {
    if value.Some? then value.value else []
  }

  lemma QuotedFieldUndoes(value: Option<Text>, rest: Text)
    requires AtFieldEnd(rest) && NeedsQuotes(Seen(value))
    ensures ReadField(Escape(value) + rest) == Some((Seen(value), rest))
  {
    var s := Seen(value);
    ReadQuotedUndoes(s, rest);
    var body := DoubleQuotes(s) + ([QUOTE] + rest);
    assert Escape(value) + rest == [QUOTE] + body;
    assert ([QUOTE] + body)[1..] == body;
  }

  lemma PlainFieldUndoes(value: Option<Text>, rest: Text)
    requires AtFieldEnd(rest) && !NeedsQuotes(Seen(value))
    ensures ReadField(Escape(value) + rest) == Some((Seen(value), rest))
  {
    var s := Seen(value);
    ReadPlainUndoes(s, rest);
    assert Escape(value) == s;
    if s != [] {
      assert s[0] in s;
    }
  }

  lemma ReadFieldUndoes(value: Option<Text>, rest: Text)
    requires AtFieldEnd(rest)
    ensures ReadField(Escape(value) + rest) == Some((Seen(value), rest))
  {
    if NeedsQuotes(Seen(value)) {
      QuotedFieldUndoes(value, rest);
    } else {
      PlainFieldUndoes(value, rest);
    }
  }

  function SeenAll(values: seq<Option<Text>>): (r: seq<Text>)
    ensures |r| == |values|
  {
    if values == [] then [] else [Seen(values[0])] + SeenAll(values[1..])
  }

  lemma {:induction false} ReadRecordUndoes(values: seq<Option<Text>>, rest: Text)
    requires values != [] && (rest == [] || rest[0] == LF)
    ensures ReadRecord(Join(EscapeAll(values), COMMA) + rest) == Some((SeenAll(values), rest))
  {
    var first := Escape(values[0]);
    if |values| == 1 {
      ReadFieldUndoes(values[0], rest);
      assert EscapeAll(values) == [first];
      assert SeenAll(values) == [Seen(values[0])];
    } else {
      var more := Join(EscapeAll(values[1..]), COMMA);
      var tail := [COMMA] + (more + rest);
      ReadRecordUndoes(values[1..], rest);
      ReadFieldUndoes(values[0], tail);
      assert EscapeAll(values)[1..] == EscapeAll(values[1..]);
      Assoc(first, [COMMA] + more, rest);
      Assoc([COMMA], more, rest);
      assert tail[1..] == more + rest;
    }
  }

  function SeenRows(rows: seq<Row>): seq<seq<Text>> {
    if rows == [] then [] else [SeenAll(Cells(rows[0]))] + SeenRows(rows[1..])
  }

  lemma {:induction false} JoinNonEmpty(values: seq<Option<Text>>)
    requires |values| > 1
    ensures Join(EscapeAll(values), COMMA) != []
  {
    assert EscapeAll(values)[1..] == EscapeAll(values[1..]);
  }

  lemma {:induction false} ReadLinesUndoes(rows: seq<Row>)
    requires rows != []
    ensures Read(Join(Lines(rows), LF)) == Some(SeenRows(rows))
  {
    var line := Join(EscapeAll(Cells(rows[0])), COMMA);
    if |rows| == 1 {
      ReadRecordUndoes(Cells(rows[0]), []);
      assert Lines(rows) == [line] && line + [] == line;
      assert SeenRows(rows) == [SeenAll(Cells(rows[0]))];
    } else {
      var rest := Join(Lines(rows[1..]), LF);
      ReadLinesUndoes(rows[1..]);
      ReadRecordUndoes(Cells(rows[0]), [LF] + rest);
      assert Lines(rows)[1..] == Lines(rows[1..]);
      LinesNonEmpty(rows[1..]);
      ReadStep(line, SeenAll(Cells(rows[0])), rest, SeenRows(rows[1..]));
    }
  }

  /** One record, its line feed, and more records. */
  lemma ReadStep(line: Text, fields: seq<Text>, rest: Text, records: seq<seq<Text>>)
    requires ReadRecord(line + ([LF] + rest)) == Some((fields, [LF] + rest))
    requires rest != [] && Read(rest) == Some(records)
    ensures Read(line + ([LF] + rest)) == Some([fields] + records)
  {
    assert ([LF] + rest)[1..] == rest;
    assert |[LF] + rest| > 1;
  }

  lemma LinesNonEmpty(rows: seq<Row>)
    requires rows != []
    ensures Join(Lines(rows), LF) != []
  {
    JoinNonEmpty(Cells(rows[0]));
  }

  /** The header is written as it stands. */
  lemma {:induction false} PlainCells(cells: seq<Text>)
    requires forall i :: 0 <= i < |cells| ==> !NeedsQuotes(cells[i])
    ensures EscapeAll(Somes(cells)) == cells && SeenAll(Somes(cells)) == cells
  {
    if cells != [] {
      assert Somes(cells)[1..] == Somes(cells[1..]);
      PlainCells(cells[1..]);
      assert cells == [cells[0]] + cells[1..];
    }
  }

  function Somes(cells: seq<Text>): (r: seq<Option<Text>>)
    ensures |r| == |cells|
  {
    seq(|cells|, i requires 0 <= i < |cells| => Some(cells[i]))
  }

  lemma ColumnsArePlain()
    ensures forall i :: 0 <= i < |COLUMNS| ==> !NeedsQuotes(COLUMNS[i])
  {
  }

  /** Reading an export gives the header and every field of every row, null as the empty field. */
  lemma ReadUndoesExport(rows: seq<Row>)
    ensures Read(Export(rows)) == Some([COLUMNS] + SeenRows(rows))
  {
    ColumnsArePlain();
    PlainCells(COLUMNS);
    ReadUndoesLines(COLUMNS, rows);
  }

  lemma ReadUndoesLines(columns: seq<Text>, rows: seq<Row>)
    requires columns != [] && EscapeAll(Somes(columns)) == columns && SeenAll(Somes(columns)) == columns
    ensures Read(Join([Join(columns, COMMA)] + Lines(rows), LF)) == Some([columns] + SeenRows(rows))
  {
    var header := Join(columns, COMMA);
    var all := [header] + Lines(rows);
    if rows == [] {
      ReadRecordUndoes(Somes(columns), []);
      assert all == [header] && header + [] == header;
      assert [columns] + SeenRows(rows) == [columns];
    } else {
      var rest := Join(Lines(rows), LF);
      ReadRecordUndoes(Somes(columns), [LF] + rest);
      ReadLinesUndoes(rows);
      LinesNonEmpty(rows);
      ReadStep(header, columns, rest, SeenRows(rows));
      assert all[1..] == Lines(rows);
    }
  }

  /** Two exports are the same text exactly when their rows differ in nothing but null for the empty string. */
  lemma ExportInjective(a: seq<Row>, b: seq<Row>)
    ensures Export(a) == Export(b) <==> SeenRows(a) == SeenRows(b)
  {
    ReadUndoesExport(a);
    ReadUndoesExport(b);
    if SeenRows(a) == SeenRows(b) {
      SeenDeterminesLines(a, b);
    } else {
      assert ([COLUMNS] + SeenRows(a))[1..] == SeenRows(a);
      assert ([COLUMNS] + SeenRows(b))[1..] == SeenRows(b);
    }
  }

  lemma {:induction false} SeenDeterminesEscapes(a: seq<Option<Text>>, b: seq<Option<Text>>)
    requires SeenAll(a) == SeenAll(b)
    ensures EscapeAll(a) == EscapeAll(b)
  {
    assert |a| == |SeenAll(a)| == |b|;
    if a != [] {
      assert SeenAll(a)[1..] == SeenAll(a[1..]) && SeenAll(b)[1..] == SeenAll(b[1..]);
      SeenDeterminesEscapes(a[1..], b[1..]);
    }
  }

  lemma {:induction false} SeenDeterminesLines(a: seq<Row>, b: seq<Row>)
    requires SeenRows(a) == SeenRows(b)
    ensures Lines(a) == Lines(b)
  {
    if a != [] && b != [] {
      assert SeenRows(a)[1..] == SeenRows(a[1..]) && SeenRows(b)[1..] == SeenRows(b[1..]);
      SeenDeterminesEscapes(Cells(a[0]), Cells(b[0]));
      SeenDeterminesLines(a[1..], b[1..]);
    }
  }
}
