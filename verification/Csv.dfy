/**
 The CSV download of valuation snapshots, and a reader for the format of section 2 of RFC 4180.
 */
module Csv {
  import opened Base

  // ---------- Printing ----------

  const QUOTE: char := '\"'

  predicate Digits(s: string) {
    s != "" && forall i :: 0 <= i < |s| ==> '0' <= s[i] <= '9'
  }

  predicate UnsignedDecimal(s: string) {
    Digits(s) || exists i :: 0 < i < |s| && s[i] == '.' && Digits(s[..i]) && Digits(s[i + 1..])
  }

  predicate NegativeDecimal(s: string) {
    s != "" && s[0] == '-' && UnsignedDecimal(s[1..])
  }

  // Text that a spreadsheet may take for a formula.
  predicate Dangerous(s: string) {
    s != "" && (s[0] in "=+@\t\r" || (s[0] == '-' && !NegativeDecimal(s)))
  }

  function Guard(text: string): string {
    if Dangerous(text) then "'" + text else text
  }

  function Escape(text: string): string {
    if text == "" then ""
    else (if text[0] == QUOTE then [QUOTE, QUOTE] else [text[0]]) + Escape(text[1..])
  }

  function Cell(text: string): string {
    [QUOTE] + (if Dangerous(text) then "'" else "") + Escape(text) + [QUOTE]
  }

  function Join(parts: seq<string>, separator: string): string {
    if parts == [] then ""
    else if |parts| == 1 then parts[0]
    else parts[0] + separator + Join(parts[1..], separator)
  }

  function Cells(row: seq<string>): seq<string> {
    seq(|row|, i requires 0 <= i < |row| => Cell(row[i]))
  }

  function Lines(rows: seq<seq<string>>): seq<string> {
    seq(|rows|, i requires 0 <= i < |rows| => Join(Cells(rows[i]), ","))
  }

  function Print(rows: seq<seq<string>>): string {
    Join(Lines(rows), "\r\n") + "\r\n"
  }

  // ---------- Reading ----------

  datatype Parsed<T> = Parsed(value: T, rest: string)

  // The inside of a quoted field, up to its closing quote.
  function ReadQuoted(s: string): (r: Option<Parsed<string>>)
    ensures r.Some? ==> |r.value.rest| < |s|
  {
    if s == "" then None
    else if s[0] != QUOTE then Prepend(s[0], ReadQuoted(s[1..]))
    else if |s| > 1 && s[1] == QUOTE then Prepend(QUOTE, ReadQuoted(s[2..]))
    else Some(Parsed("", s[1..]))
  }

  // A field without quotes, up to a comma, a line break or the end.
  function ReadPlain(s: string): (r: Option<Parsed<string>>)
    ensures r.Some? ==> |r.value.rest| <= |s|
  {
    if s == "" || s[0] in ",\r\n" then Some(Parsed("", s))
    else if s[0] == QUOTE then None
    else Prepend(s[0], ReadPlain(s[1..]))
  }

  function Prepend(c: char, parsed: Option<Parsed<string>>): Option<Parsed<string>> {
    if parsed.Some? then Some(Parsed([c] + parsed.value.value, parsed.value.rest)) else None
  }

  function ReadField(s: string): (r: Option<Parsed<string>>)
    ensures r.Some? ==> |r.value.rest| <= |s|
  {
    if s != "" && s[0] == QUOTE then ReadQuoted(s[1..]) else ReadPlain(s)
  }

  function ReadRecord(s: string): (r: Option<Parsed<seq<string>>>)
    ensures r.Some? ==> |r.value.rest| <= |s|
    decreases |s|
  {
    var field := ReadField(s);
    if field == None then None
    else
      var rest := field.value.rest;
      if rest != "" && rest[0] == ',' then
        var others := ReadRecord(rest[1..]);
        if others == None then None
        else Some(Parsed([field.value.value] + others.value.value, others.value.rest))
      else Some(Parsed([field.value.value], rest))
  }

  // Records separated by CRLF; the last one may end with it.
  function Read(s: string): Option<seq<seq<string>>>
    decreases |s|
  {
    var record := ReadRecord(s);
    if record == None then None
    else
      var rest := record.value.rest;
      if rest == "" || rest == "\r\n" then Some([record.value.value])
      else if |rest| < 2 || rest[..2] != "\r\n" then None
      else
        var others := Read(rest[2..]);
        if others == None then None else Some([record.value.value] + others.value)
  }

  // ---------- The round trip ----------

  // What a row reads back as: its guarded texts; a row without cells reads back as one empty text.
  function Recovered(row: seq<string>): seq<string> {
    if row == [] then [""] else GuardedRow(row)
  }

  function GuardedRow(row: seq<string>): seq<string> {
    seq(|row|, i requires 0 <= i < |row| => Guard(row[i]))
  }

  function RecoveredRows(rows: seq<seq<string>>): seq<seq<string>> {
    seq(|rows|, i requires 0 <= i < |rows| => Recovered(rows[i]))
  }

  function Guarded(rows: seq<seq<string>>): seq<seq<string>> {
    seq(|rows|, i requires 0 <= i < |rows| => GuardedRow(rows[i]))
  }

  lemma {:induction false} QuotedIsRead(text: string, rest: string)
    requires rest == "" || rest[0] != QUOTE
    ensures ReadQuoted(Escape(text) + [QUOTE] + rest) == Some(Parsed(text, rest))
  {
    var s := Escape(text) + [QUOTE] + rest;
    if text == "" {
      assert s == [QUOTE] + rest;
    } else {
      QuotedIsRead(text[1..], rest);
      var tail := Escape(text[1..]) + [QUOTE] + rest;
      if text[0] == QUOTE {
        assert s == [QUOTE, QUOTE] + tail && s[2..] == tail;
      } else {
        assert s == [text[0]] + tail && s[1..] == tail;
      }
      assert [text[0]] + text[1..] == text;
    }
  }

  lemma CellEscapesGuard(text: string)
    ensures Cell(text) == [QUOTE] + Escape(Guard(text)) + [QUOTE]
  {
    assert ("'" + text)[1..] == text;
  }

  lemma CellIsRead(text: string, rest: string)
    requires rest == "" || rest[0] != QUOTE
    ensures ReadField(Cell(text) + rest) == Some(Parsed(Guard(text), rest))
  {
    QuotedIsRead(Guard(text), rest);
    CellEscapesGuard(text);
    var inside := Escape(Guard(text)) + [QUOTE] + rest;
    assert Cell(text) + rest == [QUOTE] + inside;
  }

  lemma FirstCellIsRead(text: string, tail: string)
    ensures ReadRecord(Cell(text) + ("," + tail)) ==
            match ReadRecord(tail)
            case None => None
            case Some(others) => Some(Parsed([Guard(text)] + others.value, others.rest))
  {
    CellIsRead(text, "," + tail);
    assert ("," + tail)[1..] == tail;
  }

  lemma EmptyRecordIsRead(rest: string)
    requires rest != "" && rest[0] == '\r'
    ensures ReadRecord(rest) == Some(Parsed([""], rest))
  {
  }

  lemma LastCellIsRead(text: string, rest: string)
    requires rest != "" && rest[0] == '\r'
    ensures ReadRecord(Cell(text) + rest) == Some(Parsed([Guard(text)], rest))
  {
    hide Cell, Guard, ReadField;
    CellIsRead(text, rest);
  }

  lemma {:induction false} RecordIsRead(row: seq<string>, rest: string)
    requires rest != "" && rest[0] == '\r'
    ensures ReadRecord(Join(Cells(row), ",") + rest) == Some(Parsed(Recovered(row), rest))
    decreases |row|
  {
    hide Cell, Guard, ReadRecord;
    var s := Join(Cells(row), ",") + rest;
    if row == [] {
      assert s == rest;
      EmptyRecordIsRead(rest);
    } else if |row| == 1 {
      assert s == Cell(row[0]) + rest;
      LastCellIsRead(row[0], rest);
      assert Recovered(row) == [Guard(row[0])];
    } else {
      assert Cells(row)[1..] == Cells(row[1..]);
      var tail := Join(Cells(row[1..]), ",") + rest;
      assert s == Cell(row[0]) + ("," + tail);
      RecordIsRead(row[1..], rest);
      FirstCellIsRead(row[0], tail);
      assert Recovered(row) == [Guard(row[0])] + Recovered(row[1..]);
    }
  }

  lemma FirstRecordIsRead(row: seq<string>, tail: string)
    ensures var s := Join(Cells(row), ",") + ("\r\n" + tail);
            Read(s) == if tail == "" then Some([Recovered(row)])
                       else if Read(tail) == None then None
                       else Some([Recovered(row)] + Read(tail).value)
  {
    var rest := "\r\n" + tail;
    RecordIsRead(row, rest);
    assert rest[2..] == tail && rest[..2] == "\r\n";
    assert rest == "\r\n" ==> |tail| == 0;
    assert tail == "" ==> rest == "\r\n";
  }

  lemma PrintSplits(rows: seq<seq<string>>)
    requires rows != []
    ensures Print(rows) == Join(Cells(rows[0]), ",") + ("\r\n" + if |rows| == 1 then "" else Print(rows[1..]))
  {
    assert Lines(rows)[1..] == Lines(rows[1..]);
    var first := Join(Cells(rows[0]), ",");
    if |rows| > 1 {
      var others := Join(Lines(rows[1..]), "\r\n");
      assert first + "\r\n" + others + "\r\n" == first + ("\r\n" + (others + "\r\n"));
    } else {
      assert "\r\n" + "" == "\r\n";
    }
  }

  // Every table reads back as its guarded texts, whatever quotes, commas and line breaks they contain.
  lemma {:induction false} RoundTrip(rows: seq<seq<string>>)
    requires rows != []
    ensures Read(Print(rows)) == Some(RecoveredRows(rows))
  {
    hide Recovered, Join, ReadRecord;
    PrintSplits(rows);
    if |rows| == 1 {
      FirstRecordIsRead(rows[0], "");
      assert RecoveredRows(rows) == [Recovered(rows[0])];
    } else {
      RoundTrip(rows[1..]);
      FirstRecordIsRead(rows[0], Print(rows[1..]));
      assert RecoveredRows(rows) == [Recovered(rows[0])] + RecoveredRows(rows[1..]);
    }
  }

  // The guarded texts come back exactly, unless there are no rows or a row has no cells.
  lemma RoundTripIsExact(rows: seq<seq<string>>)
    ensures Read(Print(rows)) == Some(Guarded(rows)) <==> rows != [] && forall i :: 0 <= i < |rows| ==> rows[i] != []
  {
    if rows == [] {
      NoRowsReadAsOne();
    } else {
      RoundTrip(rows);
      var read := RecoveredRows(rows);
      if i :| 0 <= i < |rows| && rows[i] == [] {
        assert read[i] == [""] && Guarded(rows)[i] == [];
      } else {
        assert read == Guarded(rows);
      }
    }
  }

  lemma NoRowsReadAsOne()
    ensures Read(Print([])) == Some([[""]])
  {
    assert Print([]) == "\r\n";
    assert ReadRecord("\r\n") == Some(Parsed([""], "\r\n"));
  }

  // ---------- The guard ----------

  // Digits with at most one point, which is neither first nor last.
  ghost predicate PlainNumber(s: string) {
    && s != "" && s[0] != '.' && s[|s| - 1] != '.'
    && (forall i :: 0 <= i < |s| ==> s[i] == '.' || '0' <= s[i] <= '9')
    && forall i, j :: 0 <= i < j < |s| && s[i] == '.' ==> s[j] != '.'
  }

  lemma UnsignedIsPlain(s: string)
    ensures UnsignedDecimal(s) <==> PlainNumber(s)
  {
    if PlainNumber(s) && !Digits(s) {
      var i :| 0 <= i < |s| && s[i] == '.';
      assert forall k :: i < k < |s| ==> s[k] != '.';
      assert forall k :: 0 <= k < i ==> s[k] != '.';
      assert Digits(s[..i]) && Digits(s[i + 1..]);
    }
    if UnsignedDecimal(s) && !Digits(s) {
      var i :| 0 < i < |s| && s[i] == '.' && Digits(s[..i]) && Digits(s[i + 1..]);
      assert s[0] == s[..i][0] && s[|s| - 1] == s[i + 1..][|s| - i - 2];
      forall k | 0 <= k < |s| && k != i ensures '0' <= s[k] <= '9' {
        assert s[k] == if k < i then s[..i][k] else s[i + 1..][k - i - 1];
      }
    }
  }

  // No exported text starts with one of the five characters that open a formula, and a leading minus is left
  // only on a plain number.  A text is changed exactly when it would, and then only by an apostrophe before it.
  lemma GuardedIsHarmless(text: string)
    ensures var g := Guard(text);
            g == "" || (g[0] !in {'=', '+', '@', '\t', '\r'} && (g[0] == '-' ==> PlainNumber(g[1..])))
    ensures var changed := text != "" && (text[0] in {'=', '+', '@', '\t', '\r'}
                                          || (text[0] == '-' && !PlainNumber(text[1..])));
            Guard(text) == if changed then "'" + text else text
    ensures !Dangerous(Guard(text)) && (Guard(text) == text <==> !Dangerous(text))
  {
    if text != "" { UnsignedIsPlain(text[1..]); }
    assert Dangerous(text) ==> Guard(text)[0] == '\'';
  }

  // Plain decimals of either sign come back unchanged.
  lemma DecimalsAreUnchanged(text: string)
    requires UnsignedDecimal(text) || NegativeDecimal(text)
    ensures Guard(text) == text
  {
    if UnsignedDecimal(text) && !Digits(text) {
      var i :| 0 < i < |text| && text[i] == '.' && Digits(text[..i]) && Digits(text[i + 1..]);
      assert text[0] == text[..i][0];
    }
  }

  // Two texts export alike only when one is the guarded form of the other.
  lemma GuardCollision(a: string, b: string)
    ensures Guard(a) == Guard(b) <==> a == b || (Dangerous(a) && b == "'" + a) || (Dangerous(b) && a == "'" + b)
  {
    if Dangerous(a) && Dangerous(b) {
      assert ("'" + a)[1..] == a && ("'" + b)[1..] == b;
      assert a[0] != '\'' && b[0] != '\'';
      assert b != "'" + a && a != "'" + b;
    }
    assert Dangerous(a) ==> !Dangerous("'" + a);
    assert Dangerous(b) ==> !Dangerous("'" + b);
  }

  // ---------- The download ----------

  // One valuation snapshot, with its amounts as decimal text.
  datatype Snapshot = Snapshot(at: string, sleeve: string, cash: string, marketValue: string, equity: string,
                               liquidationEquity: string, unrealizedPnl: string)

  const HEADER: seq<string> := ["observation_utc", "sleeve", "cash_usd", "market_value_usd", "equity_usd",
                                "liquidation_equity_usd", "unrealized_pnl_usd"]

  function Row(s: Snapshot): seq<string> {
    [s.at, s.sleeve, s.cash, s.marketValue, s.equity, s.liquidationEquity, s.unrealizedPnl]
  }

  predicate Decimal(text: string) {
    UnsignedDecimal(text) || NegativeDecimal(text)
  }

  predicate Table(snapshots: seq<Snapshot>, rows: seq<seq<string>>) {
    && |rows| == |snapshots| + 1 && rows[0] == HEADER
    && forall i :: 0 <= i < |snapshots| ==> rows[i + 1] == Row(snapshots[i])
  }

  // A reader of the format sees the header and the guarded texts of each snapshot, in order.
  method Download(snapshots: seq<Snapshot>) returns (text: string)
    ensures exists rows :: Table(snapshots, rows) && Read(text) == Some(Guarded(rows))
    ensures Read(text).Some?
    ensures var table := Read(text).value;
            && |table| == |snapshots| + 1
            && table[0] == ["observation_utc", "sleeve", "cash_usd", "market_value_usd", "equity_usd",
                            "liquidation_equity_usd", "unrealized_pnl_usd"]
            && forall i :: 0 <= i < |snapshots| ==> ShowsSnapshot(table[0], table[i + 1], snapshots[i])
  {
    var rows := [HEADER];
    for i := 0 to |snapshots|
      invariant Table(snapshots[..i], rows)
    {
      var s := snapshots[i];
      rows := rows + [[s.at, s.sleeve, s.cash, s.marketValue, s.equity, s.liquidationEquity, s.unrealizedPnl]];
    }
    assert snapshots[..|snapshots|] == snapshots;
    text := Print(rows);
    TableHasNoEmptyRow(snapshots, rows);
    RoundTripIsExact(rows);
    TableShowsSnapshots(snapshots, rows);
  }

  // The row shows a text under a column of this name, guarded.
  ghost predicate Shows(header: seq<string>, row: seq<string>, name: string, text: string) {
    exists k :: 0 <= k < |header| && k < |row| && header[k] == name && row[k] == Guard(text)
  }

  ghost predicate ShowsSnapshot(header: seq<string>, row: seq<string>, s: Snapshot) {
    && |row| == |header| == 7
    && Shows(header, row, "observation_utc", s.at) && Shows(header, row, "sleeve", s.sleeve)
    && Shows(header, row, "cash_usd", s.cash) && Shows(header, row, "market_value_usd", s.marketValue)
    && Shows(header, row, "equity_usd", s.equity)
    && Shows(header, row, "liquidation_equity_usd", s.liquidationEquity)
    && Shows(header, row, "unrealized_pnl_usd", s.unrealizedPnl)
  }

  lemma TableShowsSnapshots(snapshots: seq<Snapshot>, rows: seq<seq<string>>)
    requires Table(snapshots, rows)
    ensures Guarded(rows)[0] == HEADER
    ensures forall i :: 0 <= i < |snapshots| ==> ShowsSnapshot(HEADER, Guarded(rows)[i + 1], snapshots[i])
  {
    HeaderIsUnchanged();
    hide Guard;
    forall i | 0 <= i < |snapshots| ensures ShowsSnapshot(HEADER, Guarded(rows)[i + 1], snapshots[i]) {
      RowShowsSnapshot(snapshots[i]);
    }
  }

  lemma HeaderIsUnchanged()
    ensures GuardedRow(HEADER) == HEADER
  {
  }

  lemma RowShowsSnapshot(s: Snapshot)
    ensures ShowsSnapshot(HEADER, GuardedRow(Row(s)), s)
  {
    hide Guard;
    var row := GuardedRow(Row(s));
    assert HEADER[0] == "observation_utc" && row[0] == Guard(s.at);
    assert HEADER[1] == "sleeve" && row[1] == Guard(s.sleeve);
    assert HEADER[2] == "cash_usd" && row[2] == Guard(s.cash);
    assert HEADER[3] == "market_value_usd" && row[3] == Guard(s.marketValue);
    assert HEADER[4] == "equity_usd" && row[4] == Guard(s.equity);
    assert HEADER[5] == "liquidation_equity_usd" && row[5] == Guard(s.liquidationEquity);
    assert HEADER[6] == "unrealized_pnl_usd" && row[6] == Guard(s.unrealizedPnl);
  }

  lemma TableHasNoEmptyRow(snapshots: seq<Snapshot>, rows: seq<seq<string>>)
    requires Table(snapshots, rows)
    ensures forall i :: 0 <= i < |rows| ==> rows[i] != []
  {
    forall i | 0 <= i < |rows| ensures rows[i] != [] {
      if i > 0 { assert rows[i - 1 + 1] == Row(snapshots[i - 1]); }
    }
  }

  // Every amount of the downloaded table is the amount of the snapshot.
  lemma AmountsAreUnchanged(s: Snapshot)
    requires Decimal(s.cash) && Decimal(s.marketValue) && Decimal(s.equity) && Decimal(s.liquidationEquity)
      && Decimal(s.unrealizedPnl)
    ensures GuardedRow(Row(s))[2..] == Row(s)[2..]
  {
    DecimalsAreUnchanged(s.cash);
    DecimalsAreUnchanged(s.marketValue);
    DecimalsAreUnchanged(s.equity);
    DecimalsAreUnchanged(s.liquidationEquity);
    DecimalsAreUnchanged(s.unrealizedPnl);
  }
}
