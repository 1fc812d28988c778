/**
Rows of a CSV segment at the level of framing, and the recovery of a torn tail. A cell may hold line breaks within
quotes; the last cell, which is a number, holds none.
*/
module CsvFraming {
  import opened Values

  predicate IsBreak(c: char) { c == '\r' || c == '\n' }

  const QUOTE := '\"'

  // ---------------------------------------------------------------- Quoting

  /** Before a cell's first character, in a plain cell, within quotes, or after a quote that may close them. */
  datatype Mode = AtCell | Plain | Quoted | Closing

  function Advance(m: Mode, c: char): Mode {
    match m
    case AtCell => if c == QUOTE then Quoted else if c == ',' then AtCell else Plain
    case Plain => if c == ',' then AtCell else Plain
    case Quoted => if c == QUOTE then Closing else Quoted
    case Closing => if c == QUOTE then Quoted else if c == ',' then AtCell else Plain
  }

  /** Where reading stands after this much of a record. */
  function ModeAfter(line: string): Mode {
    if line == [] then AtCell else Advance(ModeAfter(line[..|line| - 1]), line[|line| - 1])
  }

  /** The commas that end cells. */
  function Separators(line: string): nat {
    if line == [] then 0
    else
      var front, last := line[..|line| - 1], line[|line| - 1];
      Separators(front) + (if last == ',' && ModeAfter(front) != Quoted then 1 else 0)
  }

  predicate HasNoBreak(line: string) { forall i :: 0 <= i < |line| ==> !IsBreak(line[i]) }

  /** Part of one record, or all of it: every line break stands within quotes. */
  predicate IsRecord(line: string) {
    line == [] ||
    var front, last := line[..|line| - 1], line[|line| - 1];
    IsRecord(front) && (IsBreak(last) ==> ModeAfter(front) == Quoted)
  }

  /** Every line break comes before the last of so many cells. */
  predicate BreaksEarly(line: string, cells: nat) {
    line == [] ||
    var front, last := line[..|line| - 1], line[|line| - 1];
    BreaksEarly(front, cells) && (IsBreak(last) ==> Separators(front) + 1 < cells)
  }

  predicate IsRow(line: string, cells: nat) {
    && IsRecord(line) && line != [] && ModeAfter(line) != Quoted && Separators(line) + 1 == cells
    && BreaksEarly(line, cells)
  }

  predicate AreRows(lines: seq<string>, cells: nat) {
    forall i :: 0 <= i < |lines| ==> IsRow(lines[i], cells)
  }

  // ---------------------------------------------------------------- Rows from cells

  predicate IsSpecial(c: char) { c == QUOTE || c == ',' || IsBreak(c) }

  predicate NeedsQuotes(cell: string) { exists i :: 0 <= i < |cell| && IsSpecial(cell[i]) }

  function Doubled(cell: string): string {
    if cell == [] then []
    else Doubled(cell[..|cell| - 1]) + (if cell[|cell| - 1] == QUOTE then [QUOTE, QUOTE] else [cell[|cell| - 1]])
  }

  function EncodeCell(cell: string): string {
    if NeedsQuotes(cell) then [QUOTE] + Doubled(cell) + [QUOTE] else cell
  }

  function EncodeCells(cells: seq<string>): string
    requires cells != []
  {
    if |cells| == 1 then EncodeCell(cells[0])
    else EncodeCells(cells[..|cells| - 1]) + [','] + EncodeCell(cells[|cells| - 1])
  }

  lemma OneMore(line: string, c: char)
    ensures ModeAfter(line + [c]) == Advance(ModeAfter(line), c)
    ensures Separators(line + [c]) == Separators(line) + (if c == ',' && ModeAfter(line) != Quoted then 1 else 0)
    ensures IsRecord(line + [c]) <==> IsRecord(line) && (IsBreak(c) ==> ModeAfter(line) == Quoted)
  {
    assert (line + [c])[..|line|] == line;
  }

  lemma {:induction false} RecordPrefix(line: string, k: nat, cells: nat)
    requires k <= |line|
    ensures IsRecord(line) ==> IsRecord(line[..k])
    ensures BreaksEarly(line, cells) ==> BreaksEarly(line[..k], cells)
    decreases |line|
  {
    if k == |line| {
      assert line[..k] == line;
    } else {
      RecordPrefix(line[..|line| - 1], k, cells);
      assert line[..|line| - 1][..k] == line[..k];
    }
  }

  /** So many separators, and where reading stands. */
  predicate Reads(line: string, separators: nat, mode: Mode) {
    IsRecord(line) && Separators(line) == separators && ModeAfter(line) == mode
  }

  lemma ReadsOn(line: string, n: nat, m: Mode, c: char)
    requires Reads(line, n, m) && (IsBreak(c) ==> m == Quoted)
    ensures Reads(line + [c], n + (if c == ',' && m != Quoted then 1 else 0), Advance(m, c))
  {
    OneMore(line, c);
  }

  lemma {:induction false} PlainCell(line: string, n: nat, cell: string)
    requires Reads(line, n, AtCell) && forall i :: 0 <= i < |cell| ==> !IsSpecial(cell[i])
    ensures Reads(line + cell, n, if cell == [] then AtCell else Plain)
    decreases |cell|
  {
    if cell == [] {
      assert line + cell == line;
    } else {
      var front, last := cell[..|cell| - 1], cell[|cell| - 1];
      PlainCell(line, n, front);
      ReadsOn(line + front, n, if front == [] then AtCell else Plain, last);
      assert line + cell == line + front + [last];
    }
  }

  lemma {:induction false} WithinQuotes(line: string, n: nat, cell: string)
    requires Reads(line, n, Quoted)
    ensures Reads(line + Doubled(cell), n, Quoted)
    decreases |cell|
  {
    if cell == [] {
      assert line + Doubled(cell) == line;
    } else {
      var front, last := cell[..|cell| - 1], cell[|cell| - 1];
      WithinQuotes(line, n, front);
      var so := line + Doubled(front);
      ReadsOn(so, n, Quoted, last);
      if last == QUOTE {
        ReadsOn(so + [QUOTE], n, Closing, QUOTE);
        assert line + Doubled(cell) == so + [QUOTE] + [QUOTE];
      } else {
        assert line + Doubled(cell) == so + [last];
      }
    }
  }

  lemma QuotedCell(line: string, n: nat, cell: string)
    requires Reads(line, n, AtCell)
    ensures Reads(line + ([QUOTE] + Doubled(cell) + [QUOTE]), n, Closing)
  {
    ReadsOn(line, n, AtCell, QUOTE);
    WithinQuotes(line + [QUOTE], n, cell);
    ReadsOn(line + [QUOTE] + Doubled(cell), n, Quoted, QUOTE);
    QuotedTail(line, Doubled(cell));
  }

  lemma QuotedTail(line: string, middle: string)
    ensures line + ([QUOTE] + middle + [QUOTE]) == line + [QUOTE] + middle + [QUOTE]
  {
  }

  /** A cell's text is read back as one cell. */
  lemma OneCell(line: string, n: nat, cell: string) returns (m: Mode)
    requires Reads(line, n, AtCell)
    ensures m != Quoted && Reads(line + EncodeCell(cell), n, m)
  {
    if NeedsQuotes(cell) {
      m := Closing;
      QuotedCell(line, n, cell);
    } else {
      m := if cell == [] then AtCell else Plain;
      PlainCell(line, n, cell);
    }
  }

  lemma {:induction false} EncodedCells(cells: seq<string>) returns (m: Mode)
    requires cells != []
    ensures m != Quoted && Reads(EncodeCells(cells), |cells| - 1, m)
    decreases |cells|
  {
    if |cells| == 1 {
      m := OneCell([], 0, cells[0]);
      assert [] + EncodeCell(cells[0]) == EncodeCell(cells[0]);
    } else {
      var front := EncodeCells(cells[..|cells| - 1]);
      m := EncodedCells(cells[..|cells| - 1]);
      ReadsOn(front, |cells| - 2, m, ',');
      m := OneCell(front + [','], |cells| - 1, cells[|cells| - 1]);
    }
  }

  lemma {:induction false} FewCellsBreakEarly(line: string, cells: nat)
    requires Separators(line) + 1 < cells
    ensures BreaksEarly(line, cells)
  {
    if line != [] {
      FewCellsBreakEarly(line[..|line| - 1], cells);
    }
  }

  lemma {:induction false} UnbrokenBreaksEarly(line: string, more: string, cells: nat)
    requires BreaksEarly(line, cells) && HasNoBreak(more)
    ensures BreaksEarly(line + more, cells)
    decreases |more|
  {
    if more == [] {
      assert line + more == line;
    } else {
      UnbrokenBreaksEarly(line, more[..|more| - 1], cells);
      assert (line + more)[..|line + more| - 1] == line + more[..|more| - 1];
    }
  }

  lemma UnbrokenCell(cell: string)
    requires HasNoBreak(cell)
    ensures HasNoBreak(EncodeCell(cell))
  {
    UnbrokenDoubled(cell);
  }

  lemma {:induction false} UnbrokenDoubled(cell: string)
    requires HasNoBreak(cell)
    ensures HasNoBreak(Doubled(cell))
    decreases |cell|
  {
    if cell != [] {
      UnbrokenDoubled(cell[..|cell| - 1]);
      assert !IsBreak(cell[|cell| - 1]);
    }
  }

  lemma LastCellBreaksEarly(front: string, last: string, cells: nat)
    requires Separators(front) + 1 < cells && HasNoBreak(last)
    ensures BreaksEarly(front + ([','] + EncodeCell(last)), cells)
  {
    UnbrokenCell(last);
    FewCellsBreakEarly(front, cells);
    UnbrokenBreaksEarly(front, [','] + EncodeCell(last), cells);
  }

  lemma FromCellsOn(front: string, last: string)
    ensures front + ([','] + EncodeCell(last)) == front + [','] + EncodeCell(last)
  {
  }

  /** Whatever the cells hold, their encoding is one row of so many, as long as the last holds no line break. */
  lemma EncodedIsRow(cells: seq<string>)
    requires |cells| >= 2 && HasNoBreak(cells[|cells| - 1])
    ensures IsRow(EncodeCells(cells), |cells|)
  {
    var m := EncodedCells(cells);
    var m' := EncodedCells(cells[..|cells| - 1]);
    LastCellBreaksEarly(EncodeCells(cells[..|cells| - 1]), cells[|cells| - 1], |cells|);
    FromCellsOn(EncodeCells(cells[..|cells| - 1]), cells[|cells| - 1]);
  }

  // ---------------------------------------------------------------- Segments

  const CRLF := ['\r', '\n']

  function EncodeRow(line: string): string { line + CRLF }

  function EncodeRows(lines: seq<string>): string {
    if lines == [] then [] else EncodeRows(lines[..|lines| - 1]) + EncodeRow(lines[|lines| - 1])
  }

  lemma {:induction false} EncodeConcat(a: seq<string>, b: seq<string>)
    ensures EncodeRows(a + b) == EncodeRows(a) + EncodeRows(b)
    decreases |b|
  {
    if b == [] {
      assert a + b == a;
    } else {
      assert (a + b)[..|a + b| - 1] == a + b[..|b| - 1];
      EncodeConcat(a, b[..|b| - 1]);
    }
  }

  // ---------------------------------------------------------------- Reading records

  function SkipBreaks(text: string, p: nat): (q: nat)
    requires p <= |text|
    ensures p <= q <= |text|
    decreases |text| - p
  {
    if p < |text| && IsBreak(text[p]) then SkipBreaks(text, p + 1) else p
  }

  /** The first line break outside quotes, or the end. */
  function RecordEnd(text: string, p: nat, m: Mode): (q: nat)
    requires p <= |text|
    ensures p <= q <= |text|
    decreases |text| - p
  {
    if p < |text| && (m == Quoted || !IsBreak(text[p])) then RecordEnd(text, p + 1, Advance(m, text[p])) else p
  }

  /** A record, and where reading goes on: after one line break character, so between the two of a pair. */
  datatype Record = Record(line: string, end: nat)

  function ReadRecord(text: string, p: nat): (r: Option<Record>)
    requires p <= |text|
    ensures r.Some? ==> p < r.value.end <= |text|
  {
    var start := SkipBreaks(text, p);
    if start == |text| then None
    else
      NotABreak(text, p);
      var end := RecordEnd(text, start, AtCell);
      Some(Record(text[start..end], if end < |text| then end + 1 else end))
  }

  lemma {:induction false} NotABreak(text: string, p: nat)
    requires p <= |text|
    ensures SkipBreaks(text, p) < |text| ==> !IsBreak(text[SkipBreaks(text, p)])
    ensures SkipBreaks(text, p) < |text| ==> RecordEnd(text, SkipBreaks(text, p), AtCell) > SkipBreaks(text, p)
    decreases |text| - p
  {
    if p < |text| && IsBreak(text[p]) {
      NotABreak(text, p + 1);
    }
  }

  lemma {:induction false} RecordEndIs(text: string, start: nat, p: nat, e: nat)
    requires start <= p <= e <= |text| && IsRecord(text[start..e])
    requires e < |text| ==> IsBreak(text[e]) && ModeAfter(text[start..e]) != Quoted
    ensures RecordEnd(text, p, ModeAfter(text[start..p])) == e
    decreases e - p
  {
    if p < e {
      var line := text[start..e];
      assert line[p - start] == text[p] && line[..p - start] == text[start..p];
      assert text[start..p + 1] == text[start..p] + [text[p]];
      RecordPrefix(line, p + 1 - start, 0);
      assert line[..p + 1 - start] == text[start..p] + [text[p]];
      OneMore(text[start..p], text[p]);
      RecordEndIs(text, start, p + 1, e);
    }
  }

  // ---------------------------------------------------------------- Recovery

  predicate Terminated(text: string) { text != [] && IsBreak(text[|text| - 1]) }

  datatype Scanned = Whole | TornAt(offset: nat) | Malformed

  datatype Scanning = Done(result: Scanned) | Continue(p: nat)

  /** One record: an unterminated last one is torn, any other of the wrong width is malformed. */
  function ScanRecord(text: string, cells: nat, p: nat, number: nat): (r: Scanning)
    requires p <= |text|
    ensures r.Continue? ==> p < r.p <= |text|
    ensures r.Done? && r.result.TornAt? ==> r.result.offset <= |text|
  {
    match ReadRecord(text, p)
    case None => Done(Whole)
    case Some(record) =>
      if number > 0 && !Terminated(text) && record.end == |text| then Done(TornAt(p))
      else if number > 0 && Separators(record.line) + 1 != cells then Done(Malformed)
      else Continue(record.end)
  }

  /** Record by record, to the end of the text or the first that is not in order. */
  function Scan(text: string, cells: nat, p: nat, number: nat): (r: Scanned)
    requires p <= |text|
    ensures r.TornAt? ==> r.offset <= |text|
    decreases |text| - p
  {
    var r := ScanRecord(text, cells, p, number);
    if r.Done? then r.result else Scan(text, cells, r.p, number + 1)
  }

  datatype Outcome = Kept(text: string) | Corrupt

  /** A cut offset may lie between the two characters of the line break before it; both stay. */
  function CutAt(text: string, offset: nat): string
    requires offset <= |text|
  {
    text[..if offset < |text| && text[offset] == '\n' then offset + 1 else offset]
  }

  function Recovered(text: string, header: string, cells: nat): Outcome {
    if |text| == |header| then Kept(text + CRLF)
    else
      match Scan(text, cells, 0, 0)
      case Whole => Kept(text)
      case TornAt(offset) => Kept(CutAt(text, offset))
      case Malformed => Corrupt
  }

  method RecoverTrailingRecord(text: string, header: string, cells: nat) returns (r: Outcome)
    ensures r == Recovered(text, header, cells)
  {
    if |text| == |header| {
      return Kept(text + CRLF);
    }
    var terminated := Terminated(text);
    var p: nat, number: nat := 0, 0;
    var record := ReadRecord(text, p);
    while record.Some?
      invariant p <= |text| && record == ReadRecord(text, p)
      invariant Scan(text, cells, p, number) == Scan(text, cells, 0, 0)
      decreases |text| - p
    {
      var end := record.value.end;
      if number > 0 && !terminated && end == |text| {
        return Kept(CutAt(text, p));
      }
      if number > 0 && Separators(record.value.line) + 1 != cells {
        return Corrupt;
      }
      p, number := end, number + 1;
      record := ReadRecord(text, p);
    }
    r := Kept(text);
  }

  // ---------------------------------------------------------------- What recovery keeps

  /** Where reading goes on after these rows: before the last line feed. */
  function After(lines: seq<string>): nat
    requires lines != []
  {
    |EncodeRows(lines)| - 1
  }

  lemma RecordStarts(line: string)
    requires IsRecord(line) && line != []
    ensures !IsBreak(line[0])
  {
    RecordPrefix(line, 1, 0);
    assert line[..1] == [] + [line[0]];
    OneMore([], line[0]);
  }

  lemma SkipsTo(text: string, p: nat, start: nat)
    requires p <= start < |text| && (start == p || (start == p + 1 && IsBreak(text[p]))) && !IsBreak(text[start])
    ensures SkipBreaks(text, p) == start
  {
    assert SkipBreaks(text, start) == start;
  }

  lemma ReadsRecord(text: string, start: nat, line: string)
    requires start + |line| <= |text| && text[start..start + |line|] == line && IsRecord(line)
    requires start + |line| < |text| ==> IsBreak(text[start + |line|]) && ModeAfter(line) != Quoted
    ensures RecordEnd(text, start, AtCell) == start + |line|
  {
    assert text[start..start] == [];
    RecordEndIs(text, start, start, start + |line|);
  }

  lemma ReadsAs(text: string, p: nat, start: nat, e: nat)
    requires p <= start < e <= |text| && SkipBreaks(text, p) == start && RecordEnd(text, start, AtCell) == e
    ensures ReadRecord(text, p) == Some(Record(text[start..e], if e < |text| then e + 1 else e))
  {
  }

  lemma ReadFrom(text: string, p: nat, start: nat, line: string)
    requires p <= start <= |text| && (start == p || (start == p + 1 && IsBreak(text[p])))
    requires start + |line| <= |text| && text[start..start + |line|] == line && line != [] && IsRecord(line)
    requires start + |line| < |text| ==> IsBreak(text[start + |line|]) && ModeAfter(line) != Quoted
    ensures var e := start + |line|; ReadRecord(text, p) == Some(Record(line, if e < |text| then e + 1 else e))
  {
    RecordStarts(line);
    assert line[0] == text[start];
    SkipsTo(text, p, start);
    ReadsRecord(text, start, line);
    ReadsAs(text, p, start, start + |line|);
  }

  lemma EndsInLineFeed(lines: seq<string>)
    requires lines != []
    ensures |EncodeRows(lines)| >= 2 && EncodeRows(lines)[After(lines)] == '\n'
  {
  }

  /** Where reading goes on after these rows, the first time at the start; the next line starts behind it. */
  lemma NextLineIs(text: string, before: seq<string>, line: string)
    requires EncodeRows(before) + line <= text
    ensures var start := |EncodeRows(before)|;
            && start + |line| <= |text| && text[start..start + |line|] == line
            && (before == [] ==> start == 0)
            && (before != [] ==> start >= 2 && After(before) == start - 1 && IsBreak(text[start - 1]))
  {
    if before != [] {
      EndsInLineFeed(before);
      assert text[|EncodeRows(before)| - 1] == (EncodeRows(before) + line)[|EncodeRows(before)| - 1];
    }
  }

  /** Reading on after some rows finds the next line, complete or not. */
  lemma ReadNext(text: string, before: seq<string>, line: string)
    requires IsRecord(line) && line != []
    requires EncodeRows(before) + line <= text
    requires |EncodeRows(before) + line| < |text| ==> IsBreak(text[|EncodeRows(before) + line|]) && ModeAfter(line) != Quoted
    ensures var p := if before == [] then 0 else After(before);
            var e := |EncodeRows(before) + line|;
            p <= |text| && ReadRecord(text, p) == Some(Record(line, if e < |text| then e + 1 else e))
  {
    NextLineIs(text, before, line);
    ReadFrom(text, if before == [] then 0 else After(before), |EncodeRows(before)|, line);
  }

  lemma ScanFrom(text: string, cells: nat, p: nat, number: nat, record: Record)
    requires p <= |text| && ReadRecord(text, p) == Some(record)
    requires record.end < |text| && Separators(record.line) + 1 == cells
    ensures Scan(text, cells, p, number) == Scan(text, cells, record.end, number + 1)
  {
  }

  /** Where reading goes on after these rows, the first time at the start. */
  function Resume(before: seq<string>): nat { if before == [] then 0 else After(before) }

  /** A complete row is passed over: reading goes on before its line feed, so it never ends the text. */
  lemma ScanOne(text: string, before: seq<string>, line: string, cells: nat, e: nat)
    requires IsRow(line, cells) && EncodeRows(before) + line + CRLF <= text && e == |EncodeRows(before) + line|
    ensures Resume(before) <= |text| && e + 1 < |text|
    ensures Scan(text, cells, Resume(before), |before|) == Scan(text, cells, e + 1, |before| + 1)
  {
    assert EncodeRows(before) + line <= text;
    assert text[e] == (EncodeRows(before) + line + CRLF)[e] == '\r';
    ReadNext(text, before, line);
    ScanFrom(text, cells, Resume(before), |before|, Record(line, e + 1));
  }

  lemma FrontRows(rows: seq<string>)
    requires rows != []
    ensures var front, last := rows[..|rows| - 1], rows[|rows| - 1];
            EncodeRows(rows) == EncodeRows(front) + last + CRLF && EncodeRows(front) <= EncodeRows(rows)
            && |EncodeRows(front) + last| + 1 == After(rows)
  {
  }

  /** Complete rows are passed over. */
  lemma {:induction false} ScanPasses(text: string, rows: seq<string>, cells: nat)
    requires rows != [] && AreRows(rows, cells) && EncodeRows(rows) <= text
    ensures After(rows) <= |text|
    ensures Scan(text, cells, 0, 0) == Scan(text, cells, After(rows), |rows|)
    decreases |rows|
  {
    var front, last := rows[..|rows| - 1], rows[|rows| - 1];
    FrontRows(rows);
    ScanOne(text, front, last, cells, |EncodeRows(front) + last|);
    if front != [] {
      ScanPasses(text, front, cells);
    }
  }

  /** A whole text is left as it is. */
  lemma WholeIsKept(lines: seq<string>, header: string, cells: nat)
    requires lines != [] && lines[0] == header && AreRows(lines, cells)
    ensures Recovered(EncodeRows(lines), header, cells) == Kept(EncodeRows(lines))
  {
    var text := EncodeRows(lines);
    LongerThanHeader(lines, header);
    ScanPasses(text, lines, cells);
    assert SkipBreaks(text, |text| - 1) == |text|;
  }

  lemma LongerThanHeader(lines: seq<string>, header: string)
    requires lines != [] && lines[0] == header
    ensures |EncodeRows(lines)| >= |header| + 2
  {
    assert lines == [header] + lines[1..];
    EncodeConcat([header], lines[1..]);
    assert EncodeRows([header]) == EncodeRows([]) + EncodeRow(header);
  }

  /** The scan comes to the torn row, which is the last record. */
  lemma ScanReachesTorn(lines: seq<string>, torn: string, header: string, cells: nat)
    requires lines != [] && lines[0] == header && AreRows(lines, cells) && IsRecord(torn) && torn != []
    ensures var text := EncodeRows(lines) + torn;
            && |text| > |header| && text[|text| - 1] == torn[|torn| - 1]
            && After(lines) <= |text| && Scan(text, cells, 0, 0) == Scan(text, cells, After(lines), |lines|)
            && ReadRecord(text, After(lines)) == Some(Record(torn, |text|))
  {
    var text := EncodeRows(lines) + torn;
    LongerThanHeader(lines, header);
    ScanPasses(text, lines, cells);
    ReadNext(text, lines, torn);
  }

  /** A torn row is dropped, unless the cut falls right after a line break. */
  lemma TornRowIsCut(lines: seq<string>, torn: string, header: string, cells: nat)
    requires lines != [] && lines[0] == header && AreRows(lines, cells)
    requires IsRecord(torn) && torn != [] && !IsBreak(torn[|torn| - 1])
    ensures Recovered(EncodeRows(lines) + torn, header, cells) == Kept(EncodeRows(lines))
  {
    ScanReachesTorn(lines, torn, header, cells);
    CutAfterRows(lines, torn);
  }

  lemma CutAfterRows(lines: seq<string>, torn: string)
    requires lines != []
    ensures After(lines) <= |EncodeRows(lines) + torn|
    ensures CutAt(EncodeRows(lines) + torn, After(lines)) == EncodeRows(lines)
  {
    var text := EncodeRows(lines) + torn;
    EndsInLineFeed(lines);
    assert text[After(lines)] == EncodeRows(lines)[After(lines)];
    assert text[..After(lines) + 1] == EncodeRows(lines);
  }

  /** After a line break within quotes the row looks terminated, and has too few cells. */
  lemma BrokenRowIsRefused(lines: seq<string>, torn: string, header: string, cells: nat)
    requires lines != [] && lines[0] == header && AreRows(lines, cells)
    requires IsRecord(torn) && torn != [] && IsBreak(torn[|torn| - 1]) && Separators(torn) + 1 != cells
    ensures Recovered(EncodeRows(lines) + torn, header, cells) == Corrupt
  {
    ScanReachesTorn(lines, torn, header, cells);
  }

  /** A row that lacks only its line feed counts, and stays as it is. */
  lemma LineFeedMayLack(lines: seq<string>, row: string, header: string, cells: nat)
    requires lines != [] && lines[0] == header && AreRows(lines, cells) && IsRow(row, cells)
    ensures var text := EncodeRows(lines) + row + ['\r']; Recovered(text, header, cells) == Kept(text)
  {
    var text := EncodeRows(lines) + row + ['\r'];
    LongerThanHeader(lines, header);
    ScanPasses(text, lines, cells);
    assert EncodeRows(lines) + row <= text;
    ReadNext(text, lines, row);
    assert SkipBreaks(text, |text|) == |text|;
  }

  /** The rows, with or without the last line feed. */
  predicate Complete(text: string, lines: seq<string>) {
    text == EncodeRows(lines) || (lines != [] && text + ['\n'] == EncodeRows(lines))
  }

  lemma CompleteIsKept(text: string, lines: seq<string>, header: string, cells: nat)
    requires |lines| > 1 && lines[0] == header && AreRows(lines, cells) && Complete(text, lines)
    ensures Recovered(text, header, cells) == Kept(text)
  {
    if text == EncodeRows(lines) {
      WholeIsKept(lines, header, cells);
    } else {
      var front, row := lines[..|lines| - 1], lines[|lines| - 1];
      assert EncodeRows(lines) == EncodeRows(front) + row + ['\r'] + ['\n'];
      assert text == (text + ['\n'])[..|text|];
      assert text == EncodeRows(front) + row + ['\r'];
      LineFeedMayLack(front, row, header, cells);
    }
  }

  /** Any part of a batch is some whole rows and part of the next. */
  lemma {:induction false} BatchPrefix(batch: seq<string>, k: nat) returns (n: nat, tail: string)
    requires k <= |EncodeRows(batch)|
    ensures n <= |batch| && EncodeRows(batch)[..k] == EncodeRows(batch[..n]) + tail
    ensures n == |batch| ==> tail == []
    ensures n < |batch| ==> tail <= EncodeRow(batch[n]) && |tail| < |EncodeRow(batch[n])|
    decreases |batch|
  {
    if k == |EncodeRows(batch)| {
      n, tail := |batch|, [];
      assert batch[..n] == batch;
    } else {
      var front := batch[..|batch| - 1];
      var done := |EncodeRows(front)|;
      if k >= done {
        n, tail := |front|, EncodeRow(batch[|batch| - 1])[..k - done];
      } else {
        n, tail := BatchPrefix(front, k);
        assert EncodeRows(batch)[..k] == EncodeRows(front)[..k];
        assert front[..n] == batch[..n];
      }
    }
  }

  lemma RowPrefix(row: string, cells: nat, k: nat)
    requires IsRow(row, cells) && 0 < k <= |row|
    ensures IsRecord(row[..k])
    ensures IsBreak(row[k - 1]) ==> ModeAfter(row[..k]) == Quoted && Separators(row[..k]) + 1 < cells
  {
    RecordPrefix(row, k, cells);
    assert row[..k] == row[..k - 1] + [row[k - 1]];
    OneMore(row[..k - 1], row[k - 1]);
  }

  /** Part of a row after whole ones is dropped, or refused if it ends in a line break. */
  lemma PartIsCutOrRefused(whole: seq<string>, row: string, tail: string, header: string, cells: nat)
    requires whole != [] && whole[0] == header && AreRows(whole, cells) && IsRow(row, cells)
    requires [] < tail <= EncodeRow(row) && |tail| <= |row|
    ensures Recovered(EncodeRows(whole) + tail, header, cells) ==
            if IsBreak(tail[|tail| - 1]) then Corrupt else Kept(EncodeRows(whole))
    ensures BrokenInQuotes(EncodeRows(whole) + tail) <==> IsBreak(tail[|tail| - 1])
  {
    assert tail == row[..|tail|];
    RowPrefix(row, cells, |tail|);
    TextModeOfRows(whole, cells);
    TextModeOfRecord(EncodeRows(whole), tail);
    var text := EncodeRows(whole) + tail;
    assert text[|text| - 1] == tail[|tail| - 1];
    if IsBreak(tail[|tail| - 1]) {
      BrokenRowIsRefused(whole, tail, header, cells);
    } else {
      TornRowIsCut(whole, tail, header, cells);
    }
  }

  /** A row that lacks its line feed is kept. */
  lemma RowInBreakIsKept(whole: seq<string>, row: string, tail: string, header: string, cells: nat)
    requires whole != [] && whole[0] == header && AreRows(whole, cells) && IsRow(row, cells)
    requires tail <= EncodeRow(row) && |row| < |tail| < |EncodeRow(row)|
    ensures Recovered(EncodeRows(whole) + tail, header, cells) == Kept(EncodeRows(whole) + tail)
    ensures EncodeRows(whole) + tail + ['\n'] == EncodeRows(whole + [row])
  {
    assert EncodeRow(row) == row + ['\r'] + ['\n'];
    assert tail == row + ['\r'];
    assert EncodeRows(whole) + tail == EncodeRows(whole) + row + ['\r'];
    LineFeedMayLack(whole, row, header, cells);
    assert (whole + [row])[..|whole|] == whole;
  }

  // ---------------------------------------------------------------- Texts that end within quotes

  /** Where reading stands after a whole text, in which line breaks outside quotes end records. */
  function TextMode(text: string): Mode {
    if text == [] then AtCell
    else
      var m, c := TextMode(text[..|text| - 1]), text[|text| - 1];
      if m != Quoted && IsBreak(c) then AtCell else Advance(m, c)
  }

  /** The text ends in a line break within quotes that are still open. */
  predicate BrokenInQuotes(text: string) { Terminated(text) && TextMode(text) == Quoted }

  lemma {:induction false} TextModeOfRecord(before: string, line: string)
    requires TextMode(before) == AtCell && IsRecord(line)
    ensures TextMode(before + line) == ModeAfter(line)
    decreases |line|
  {
    if line == [] {
      assert before + line == before;
    } else {
      var front, c := line[..|line| - 1], line[|line| - 1];
      assert line == front + [c];
      OneMore(front, c);
      TextModeOfRecord(before, front);
      assert (before + line)[..|before + line| - 1] == before + front;
    }
  }

  lemma {:induction false} TextModeConcat(a: string, b: string)
    requires TextMode(a) == AtCell
    ensures TextMode(a + b) == TextMode(b)
    decreases |b|
  {
    if b == [] {
      assert a + b == a;
    } else {
      TextModeConcat(a, b[..|b| - 1]);
      assert (a + b)[..|a + b| - 1] == a + b[..|b| - 1];
    }
  }

  /** After whole rows, and within the line break after the last, no quotes are open. */
  lemma {:induction false} TextModeOfRows(lines: seq<string>, cells: nat)
    requires AreRows(lines, cells)
    ensures TextMode(EncodeRows(lines)) == AtCell
    ensures lines != [] ==> TextMode(EncodeRows(lines)[..|EncodeRows(lines)| - 1]) == AtCell
    decreases |lines|
  {
    if lines != [] {
      var front, row := lines[..|lines| - 1], lines[|lines| - 1];
      TextModeOfRows(front, cells);
      TextModeOfRecord(EncodeRows(front), row);
      var text := EncodeRows(lines);
      assert text == EncodeRows(front) + row + ['\r'] + ['\n'];
      assert text[..|text| - 1] == EncodeRows(front) + row + ['\r'];
      assert text[..|text| - 1][..|text| - 2] == EncodeRows(front) + row;
    }
  }

  lemma CompleteIsNotBroken(text: string, lines: seq<string>, cells: nat)
    requires AreRows(lines, cells) && Complete(text, lines)
    ensures !BrokenInQuotes(text)
  {
    TextModeOfRows(lines, cells);
    if text != EncodeRows(lines) {
      assert text == (text + ['\n'])[..|text|];
    }
  }

  // ---------------------------------------------------------------- Recovering an interrupted append

  /** Some rows of a batch after the earlier ones, as recovery leaves them. */
  predicate Settled(text: string, lines: seq<string>, batch: seq<string>, n: nat) {
    n <= |batch| && Complete(text, lines + batch[..n]) && EncodeRows(lines) <= text <= EncodeRows(lines) + EncodeRows(batch)
  }

  lemma EarlierRowsStay(lines: seq<string>, batch: seq<string>, n: nat)
    requires n <= |batch|
    ensures EncodeRows(lines + batch[..n]) == EncodeRows(lines) + EncodeRows(batch[..n])
    ensures EncodeRows(lines + batch[..n]) <= EncodeRows(lines) + EncodeRows(batch)
  {
    EncodeConcat(lines, batch[..n]);
    assert batch == batch[..n] + batch[n..];
    EncodeConcat(batch[..n], batch[n..]);
  }

  lemma RowAfter(lines: seq<string>, batch: seq<string>, m: nat)
    requires m < |batch|
    ensures lines + batch[..m + 1] == (lines + batch[..m]) + [batch[m]]
  {
    assert batch[..m + 1] == batch[..m] + [batch[m]];
  }

  /** The text ends with a whole row, or a torn one that is dropped. */
  lemma SettledAtRow(lines: seq<string>, batch: seq<string>, m: nat, kept: string)
    requires m <= |batch| && kept == EncodeRows(lines + batch[..m])
    ensures Settled(kept, lines, batch, m)
  {
    EarlierRowsStay(lines, batch, m);
  }

  /** The text ends with a row that lacks its line feed. */
  lemma SettledInBreak(lines: seq<string>, batch: seq<string>, m: nat, kept: string)
    requires m < |batch| && EncodeRows(lines + batch[..m]) <= kept <= EncodeRows(lines) + EncodeRows(batch)
    requires kept + ['\n'] == EncodeRows(lines + batch[..m] + [batch[m]])
    ensures Settled(kept, lines, batch, m + 1)
  {
    EarlierRowsStay(lines, batch, m);
    RowAfter(lines, batch, m);
  }

  /**
  Recovery of this text refuses it, exactly if it ends in a line break within quotes, or else keeps it or some of it,
  settled after `n` rows of the batch.
  */
  predicate Settles(text: string, lines: seq<string>, batch: seq<string>, n: nat, header: string, cells: nat) {
    match Recovered(text, header, cells)
    case Corrupt => BrokenInQuotes(text)
    case Kept(kept) => !BrokenInQuotes(text) && kept <= text && Settled(kept, lines, batch, n)
  }

  lemma SettlesWhole(lines: seq<string>, batch: seq<string>, m: nat, header: string, cells: nat)
    requires lines != [] && lines[0] == header && AreRows(lines, cells) && AreRows(batch, cells) && m <= |batch|
    ensures Settles(EncodeRows(lines + batch[..m]), lines, batch, m, header, cells)
  {
    var whole := lines + batch[..m];
    assert whole[0] == header && AreRows(whole, cells);
    WholeIsKept(whole, header, cells);
    CompleteIsNotBroken(EncodeRows(whole), whole, cells);
    SettledAtRow(lines, batch, m, EncodeRows(whole));
  }

  lemma SettlesTorn(lines: seq<string>, batch: seq<string>, m: nat, tail: string, header: string, cells: nat)
    requires lines != [] && lines[0] == header && AreRows(lines, cells) && AreRows(batch, cells) && m < |batch|
    requires [] < tail <= EncodeRow(batch[m]) && |tail| <= |batch[m]|
    ensures Settles(EncodeRows(lines + batch[..m]) + tail, lines, batch, m, header, cells)
  {
    var whole := lines + batch[..m];
    assert whole[0] == header && AreRows(whole, cells);
    PartIsCutOrRefused(whole, batch[m], tail, header, cells);
    SettledAtRow(lines, batch, m, EncodeRows(whole));
  }

  lemma SettlesInBreak(lines: seq<string>, batch: seq<string>, m: nat, tail: string, header: string, cells: nat)
    requires lines != [] && lines[0] == header && AreRows(lines, cells) && AreRows(batch, cells) && m < |batch|
    requires tail <= EncodeRow(batch[m]) && |batch[m]| < |tail| < |EncodeRow(batch[m])|
    requires EncodeRows(lines + batch[..m]) + tail <= EncodeRows(lines) + EncodeRows(batch)
    ensures Settles(EncodeRows(lines + batch[..m]) + tail, lines, batch, m + 1, header, cells)
  {
    var whole := lines + batch[..m];
    assert whole[0] == header && AreRows(whole, cells);
    RowInBreakIsKept(whole, batch[m], tail, header, cells);
    SettledInBreak(lines, batch, m, EncodeRows(whole) + tail);
    RowAfter(lines, batch, m);
    assert AreRows(whole + [batch[m]], cells);
    CompleteIsNotBroken(EncodeRows(whole) + tail, whole + [batch[m]], cells);
  }

  lemma SettlesPrefix(lines: seq<string>, batch: seq<string>, m: nat, tail: string, header: string, cells: nat) returns (n: nat)
    requires lines != [] && lines[0] == header && AreRows(lines, cells) && AreRows(batch, cells) && m <= |batch|
    requires if m == |batch| then tail == [] else tail <= EncodeRow(batch[m]) && |tail| < |EncodeRow(batch[m])|
    requires EncodeRows(lines + batch[..m]) + tail <= EncodeRows(lines) + EncodeRows(batch)
    ensures Settles(EncodeRows(lines + batch[..m]) + tail, lines, batch, n, header, cells)
  {
    n := m;
    if tail == [] {
      assert EncodeRows(lines + batch[..m]) + tail == EncodeRows(lines + batch[..m]);
      SettlesWhole(lines, batch, m, header, cells);
    } else if |tail| <= |batch[m]| {
      SettlesTorn(lines, batch, m, tail, header, cells);
    } else {
      n := m + 1;
      SettlesInBreak(lines, batch, m, tail, header, cells);
    }
  }

  lemma PrefixText(lines: seq<string>, batch: seq<string>, k: nat, m: nat, tail: string)
    requires k <= |EncodeRows(batch)| && m <= |batch| && EncodeRows(batch)[..k] == EncodeRows(batch[..m]) + tail
    ensures EncodeRows(lines) + EncodeRows(batch)[..k] == EncodeRows(lines + batch[..m]) + tail
    ensures EncodeRows(lines + batch[..m]) + tail <= EncodeRows(lines) + EncodeRows(batch)
  {
    EarlierRowsStay(lines, batch, m);
    assert EncodeRows(lines) + EncodeRows(batch)[..k] <= EncodeRows(lines) + EncodeRows(batch);
  }

  /**
  After an interrupted append, recovery keeps every earlier row and some whole rows of the batch, never part of a
  row, and only cuts; or else it refuses the segment, exactly if the cut fell right after a line break within quotes.
  */
  lemma RecoveryKeepsWholeRows(lines: seq<string>, batch: seq<string>, k: nat, header: string, cells: nat) returns (n: nat)
    requires lines != [] && lines[0] == header && AreRows(lines, cells) && AreRows(batch, cells) && k <= |EncodeRows(batch)|
    ensures Settles(EncodeRows(lines) + EncodeRows(batch)[..k], lines, batch, n, header, cells)
  {
    var m, tail := BatchPrefix(batch, k);
    PrefixText(lines, batch, k, m, tail);
    n := SettlesPrefix(lines, batch, m, tail, header, cells);
  }

  /** What recovery leaves it would leave again. */
  lemma SettledIsKept(text: string, lines: seq<string>, batch: seq<string>, n: nat, header: string, cells: nat)
    requires lines != [] && lines[0] == header && AreRows(lines, cells) && AreRows(batch, cells)
    requires Settled(text, lines, batch, n)
    ensures Recovered(text, header, cells) == Kept(text) && !BrokenInQuotes(text)
  {
    var all := lines + batch[..n];
    assert all[0] == header && AreRows(all, cells);
    CompleteIsNotBroken(text, all, cells);
    if text == EncodeRows(all) {
      WholeIsKept(all, header, cells);
    } else {
      assert n == 0 ==> all == lines;
      assert |text| + 1 == |text + ['\n']|;
      CompleteIsKept(text, all, header, cells);
    }
  }

  // ---------------------------------------------------------------- The header

  /** The first line, up to its line feed, without the breaks at its end. */
  function Stripped(line: string): string {
    if line != [] && IsBreak(line[|line| - 1]) then Stripped(line[..|line| - 1]) else line
  }

  function FirstLine(text: string): string {
    if text == [] || text[0] == '\n' then [] else [text[0]] + FirstLine(text[1..])
  }

  predicate HasHeader(text: string, header: string) { Stripped(FirstLine(text)) == header }

  lemma {:induction false} FirstLineOf(line: string, rest: string)
    requires forall i :: 0 <= i < |line| ==> line[i] != '\n'
    ensures FirstLine(line + ['\n'] + rest) == line
    decreases |line|
  {
    if line != [] {
      FirstLineOf(line[1..], rest);
      assert (line + ['\n'] + rest)[1..] == line[1..] + ['\n'] + rest;
    }
  }

  lemma StartsWithHeader(text: string, header: string)
    requires HasNoBreak(header) && header != [] && EncodeRow(header) <= text
    ensures HasHeader(text, header)
  {
    var rest := text[|EncodeRow(header)|..];
    assert text == (header + ['\r']) + ['\n'] + rest;
    FirstLineOf(header + ['\r'], rest);
    assert Stripped(header + ['\r']) == Stripped(header);
  }
}
