/** Collecting extracted text into limited blocks, and turning a table into one block per written cell. */
module Extraction {
  import opened Options
  import opened CellLabels
  import Csv
  import Decimal

  datatype Limits = Limits(blocks: nat, blockCharacters: nat, textCharacters: nat, textBytes: nat, cells: nat)

  datatype Block = Block(id: nat, text: string, position: Position, cell: string)

  /** `row` is the row whose width differs from the first row's; none for a document without text. */
  datatype Issue = InconsistentColumns(row: nat) | NoExtractableText

  datatype Status = Unreadable | Partial | Complete

  datatype Output = Output(blocks: seq<Block>, issues: seq<Issue>, characters: nat, bytes: nat)

  const EMPTY := Output([], [], 0, 0)
  const LIMIT := "DOCUMENT_LIMIT"

  predicate IsSpace(c: char) {
    c in "\t\n\r \U{0B}\U{0C}\U{A0}\U{1680}\U{2028}\U{2029}\U{202F}\U{205F}\U{3000}\U{FEFF}" || '\U{2000}' <= c <= '\U{200A}'
  }

  function TrimStart(s: string): (r: string)
    ensures r != [] ==> !IsSpace(r[0])
  {
    if s != [] && IsSpace(s[0]) then TrimStart(s[1..]) else s
  }

  function TrimEnd(s: string): (r: string)
    ensures r != [] ==> !IsSpace(r[|r| - 1])
    ensures r <= s
  {
    if s != [] && IsSpace(s[|s| - 1]) then TrimEnd(s[..|s| - 1]) else s
  }

  function Clean(text: string): string { TrimEnd(TrimStart(Csv.Normalize(text))) }

  function CharBytes(c: char): nat {
    if c < '\U{80}' then 1 else if c < '\U{800}' then 2 else if c <= '\U{FFFF}' then 3 else 4
  }

  function Bytes(s: string): nat { if s == [] then 0 else Bytes(s[..|s| - 1]) + CharBytes(s[|s| - 1]) }

  // ---------------------------------------------------------------- adding blocks and issues

  function Add(o: Output, limits: Limits, text: string, position: Position): Result<Output> {
    var clean := Clean(text);
    if clean == "" then Ok(o)
    else if |clean| > limits.blockCharacters || o.characters + |clean| > limits.textCharacters
              || o.bytes + Bytes(clean) > limits.textBytes || |o.blocks| >= limits.blocks then Err(LIMIT)
    else Ok(o.(blocks := o.blocks + [Block(|o.blocks| + 1, clean, position, CellLabel(position))],
               characters := o.characters + |clean|, bytes := o.bytes + Bytes(clean)))
  }

  function Flag(o: Output, limits: Limits, issue: Issue): Result<Output> {
    if |o.issues| >= limits.blocks then Err(LIMIT) else Ok(o.(issues := o.issues + [issue]))
  }

  /** The cells of one row from `column` on, counted from 0. */
  function AddCells(o: Output, limits: Limits, cells: seq<string>, row: nat, column: nat): Result<Output>
    requires column <= |cells|
    decreases |cells| - column
  {
    if column == |cells| then Ok(o)
    else
      var next := Add(o, limits, cells[column], Position(row + 1, column + 1));
      if next.Err? then next else AddCells(next.value, limits, cells, row, column + 1)
  }

  function AddRow(o: Output, limits: Limits, cells: seq<string>, width: nat, row: nat): Result<Output> {
    var flagged := if |cells| != width then Flag(o, limits, InconsistentColumns(row + 1)) else Ok(o);
    if flagged.Err? then flagged else AddCells(flagged.value, limits, cells, row, 0)
  }

  function AddRows(o: Output, limits: Limits, rows: seq<seq<string>>, row: nat): Result<Output>
    requires row <= |rows|
    decreases |rows| - row
  {
    if row == |rows| then Ok(o)
    else
      var next := AddRow(o, limits, rows[row], |rows[0]|, row);
      if next.Err? then next else AddRows(next.value, limits, rows, row + 1)
  }

  function ExtractCsv(text: string, limits: Limits): Result<Output> {
    var parsed := Csv.Parse(text, Csv.Limits(limits.cells, limits.blockCharacters));
    if parsed.Err? then Err(parsed.code) else AddRows(EMPTY, limits, parsed.value, 0)
  }

  function StatusOf(o: Output): Status {
    if o.blocks == [] then Unreadable else if o.issues != [] then Partial else Complete
  }

  lemma NextCell(o: Output, limits: Limits, cells: seq<string>, row: nat, column: nat)
    requires column < |cells|
    ensures var next := Add(o, limits, cells[column], Position(row + 1, column + 1));
            AddCells(o, limits, cells, row, column) == if next.Err? then next else AddCells(next.value, limits, cells, row, column + 1)
  {
  }

  // ---------------------------------------------------------------- the collector

  class Collector {
    const limits: Limits
    var blocks: seq<Block>
    var issues: seq<Issue>
    var characters: nat
    var bytes: nat

    function View(): Output
      reads this
    {
      Output(blocks, issues, characters, bytes)
    }

    constructor (limits: Limits)
      ensures this.limits == limits && View() == EMPTY && Kept(View(), limits)
    {
      this.limits := limits;
      blocks, issues, characters, bytes := [], [], 0, 0;
    }

    method AddIssue(issue: Issue) returns (ok: bool)
      requires Kept(View(), limits)
      modifies this`issues
      ensures ok <==> Flag(old(View()), limits, issue).Ok?
      ensures ok ==> Ok(View()) == Flag(old(View()), limits, issue) && Kept(View(), limits)
    {
      if |issues| >= limits.blocks {
        return false;
      }
      issues := issues + [issue];
      ok := true;
    }

    /** A failure abandons the whole extraction, so the counters are not put back. */
    method AddBlock(text: string, position: Position) returns (ok: bool)
      requires Kept(View(), limits)
      modifies this
      ensures ok <==> Add(old(View()), limits, text, position).Ok?
      ensures ok ==> Ok(View()) == Add(old(View()), limits, text, position) && Kept(View(), limits)
    {
      ghost var was := View();
      var normalized := Clean(text);
      if normalized == "" {
        return true;
      }
      characters := characters + |normalized|;
      bytes := bytes + Bytes(normalized);
      if |normalized| > limits.blockCharacters || characters > limits.textCharacters || bytes > limits.textBytes || |blocks| >= limits.blocks {
        return false;
      }
      blocks := blocks + [Block(|blocks| + 1, normalized, position, CellLabel(position))];
      AddingKeeps(was, limits, text, position);
      ok := true;
    }

    /** The body of the loop over the rows: a row of another width is an issue, then each cell is added. */
    method AddTableRow(cells: seq<string>, width: nat, row: nat) returns (ok: bool)
      requires Kept(View(), limits)
      modifies this
      ensures ok <==> AddRow(old(View()), limits, cells, width, row).Ok?
      ensures ok ==> Ok(View()) == AddRow(old(View()), limits, cells, width, row) && Kept(View(), limits)
    {
      ghost var before := View();
      if |cells| != width {
        var flagged := AddIssue(InconsistentColumns(row + 1));
        if !flagged {
          return false;
        }
      }
      var column := 0;
      while column < |cells|
        invariant column <= |cells| && Kept(View(), limits)
        invariant AddRow(before, limits, cells, width, row) == AddCells(View(), limits, cells, row, column)
      {
        NextCell(View(), limits, cells, row, column);
        var added := AddBlock(cells[column], Position(row + 1, column + 1));
        if !added {
          return false;
        }
        column := column + 1;
      }
      ok := true;
    }

    method AddTable(rows: seq<seq<string>>) returns (ok: bool)
      requires View() == EMPTY && Kept(EMPTY, limits)
      modifies this
      ensures ok <==> AddRows(EMPTY, limits, rows, 0).Ok?
      ensures ok ==> Ok(View()) == AddRows(EMPTY, limits, rows, 0) && Kept(View(), limits)
    {
      var row := 0;
      while row < |rows|
        invariant row <= |rows| && Kept(View(), limits)
        invariant AddRows(EMPTY, limits, rows, 0) == AddRows(View(), limits, rows, row)
      {
        var added := AddTableRow(rows[row], |rows[0]|, row);
        if !added {
          return false;
        }
        row := row + 1;
      }
      ok := true;
    }

    method Finish() returns (status: Status, ok: bool)
      requires Kept(View(), limits)
      modifies this`issues
      ensures ok <==> old(blocks) != [] || old(issues) != [] || limits.blocks > 0
      ensures ok ==> (blocks == [] ==> issues != []) && status == StatusOf(View())
      ensures ok && (blocks != [] || old(issues) != []) ==> issues == old(issues)
    {
      ok := true;
      if blocks == [] && issues == [] {
        ok := AddIssue(NoExtractableText);
      }
      status := StatusOf(View());
    }
  }

  // ---------------------------------------------------------------- what every output keeps

  function SumCharacters(blocks: seq<Block>): nat {
    if blocks == [] then 0 else SumCharacters(blocks[..|blocks| - 1]) + |blocks[|blocks| - 1].text|
  }

  function SumBytes(blocks: seq<Block>): nat {
    if blocks == [] then 0 else SumBytes(blocks[..|blocks| - 1]) + Bytes(blocks[|blocks| - 1].text)
  }

  /** Counters agree with the blocks, limits are kept, and blocks are numbered from one. */
  predicate Kept(o: Output, limits: Limits) {
    && o.characters == SumCharacters(o.blocks) <= limits.textCharacters
    && o.bytes == SumBytes(o.blocks) <= limits.textBytes
    && |o.blocks| <= limits.blocks && |o.issues| <= limits.blocks
    && forall k :: 0 <= k < |o.blocks| ==> o.blocks[k].id == k + 1 && o.blocks[k].text != "" && |o.blocks[k].text| <= limits.blockCharacters
  }

  lemma AddingKeeps(o: Output, limits: Limits, text: string, position: Position)
    requires Kept(o, limits) && Add(o, limits, text, position).Ok?
    ensures Kept(Add(o, limits, text, position).value, limits)
  {
    var clean := Clean(text);
    if clean != "" {
      BlockKeeps(o, limits, Block(|o.blocks| + 1, clean, position, CellLabel(position)));
    }
  }

  lemma BlockKeeps(o: Output, limits: Limits, b: Block)
    requires Kept(o, limits) && b.id == |o.blocks| + 1 && b.text != "" && |b.text| <= limits.blockCharacters
    requires o.characters + |b.text| <= limits.textCharacters && o.bytes + Bytes(b.text) <= limits.textBytes && |o.blocks| < limits.blocks
    ensures Kept(o.(blocks := o.blocks + [b], characters := o.characters + |b.text|, bytes := o.bytes + Bytes(b.text)), limits)
  {
    assert (o.blocks + [b])[..|o.blocks|] == o.blocks;
  }

  // ---------------------------------------------------------------- every written cell is found

  predicate Earlier(p: Position, q: Position) { p.row < q.row || (p.row == q.row && p.column < q.column) }

  predicate InTable(rows: seq<seq<string>>, p: Position) { 1 <= p.row <= |rows| && 1 <= p.column <= |rows[p.row - 1]| }

  function CellText(rows: seq<seq<string>>, p: Position): string
    requires InTable(rows, p)
  {
    Clean(rows[p.row - 1][p.column - 1])
  }

  predicate BlockOk(b: Block, rows: seq<seq<string>>, end: Position) {
    && InTable(rows, b.position) && Earlier(b.position, end)
    && b.text == CellText(rows, b.position) && b.text != "" && b.cell == CellLabel(b.position)
  }

  predicate Found(blocks: seq<Block>, p: Position) { exists k :: 0 <= k < |blocks| && blocks[k].position == p }

  /** The blocks are exactly the written cells before `end`, row by row and from left to right. */
  ghost predicate Covers(blocks: seq<Block>, rows: seq<seq<string>>, end: Position) {
    && (forall k :: 0 <= k < |blocks| ==> BlockOk(blocks[k], rows, end))
    && (forall i, j :: 0 <= i < j < |blocks| ==> Earlier(blocks[i].position, blocks[j].position))
    && (forall p: Position :: InTable(rows, p) && Earlier(p, end) && CellText(rows, p) != "" ==> Found(blocks, p))
  }

  /** The issues are exactly the rows before `end` whose width differs from the first row's. */
  predicate Flags(issues: seq<Issue>, rows: seq<seq<string>>, end: nat) {
    && (forall k :: 0 <= k < |issues| ==> issues[k].InconsistentColumns? && 1 <= issues[k].row <= end <= |rows|
                                          && |rows[issues[k].row - 1]| != |rows[0]|)
    && (forall i, j :: 0 <= i < j < |issues| ==> issues[i].InconsistentColumns? && issues[j].InconsistentColumns? && issues[i].row < issues[j].row)
    && (forall r :: 0 <= r < end <= |rows| && |rows[r]| != |rows[0]| ==> InconsistentColumns(r + 1) in issues)
  }

  lemma FoundGrows(blocks: seq<Block>, b: Block, p: Position)
    requires Found(blocks, p) || b.position == p
    ensures Found(blocks + [b], p)
  {
    var all := blocks + [b];
    if b.position == p {
      assert all[|blocks|].position == p;
    } else {
      var k :| 0 <= k < |blocks| && blocks[k].position == p;
      assert all[k].position == p;
    }
  }

  /** Adding leaves the blocks alone or appends the one block of its position. */
  lemma AddingAppends(o: Output, limits: Limits, text: string, here: Position)
    requires Add(o, limits, text, here).Ok?
    ensures Add(o, limits, text, here).value.issues == o.issues
    ensures Add(o, limits, text, here).value.blocks ==
              if Clean(text) == "" then o.blocks else o.blocks + [Block(|o.blocks| + 1, Clean(text), here, CellLabel(here))]
  {
  }

  lemma AddingCovers(o: Output, limits: Limits, rows: seq<seq<string>>, here: Position, next: seq<Block>)
    requires InTable(rows, here) && Covers(o.blocks, rows, here)
    requires next == if CellText(rows, here) == "" then o.blocks
                     else o.blocks + [Block(|o.blocks| + 1, CellText(rows, here), here, CellLabel(here))]
    ensures Covers(next, rows, here.(column := here.column + 1))
  {
    if CellText(rows, here) == "" {
      SkippingCovers(o.blocks, rows, here);
    } else {
      JoiningCovers(o.blocks, rows, here, Block(|o.blocks| + 1, CellText(rows, here), here, CellLabel(here)));
    }
  }

  lemma EndMoves(b: Block, rows: seq<seq<string>>, here: Position)
    requires BlockOk(b, rows, here)
    ensures BlockOk(b, rows, here.(column := here.column + 1))
  {
  }

  lemma SkippingCovers(blocks: seq<Block>, rows: seq<seq<string>>, here: Position)
    requires Covers(blocks, rows, here) && InTable(rows, here) && CellText(rows, here) == ""
    ensures Covers(blocks, rows, here.(column := here.column + 1))
  {
    var end := here.(column := here.column + 1);
    forall k | 0 <= k < |blocks| ensures BlockOk(blocks[k], rows, end) {
      EndMoves(blocks[k], rows, here);
    }
    forall p: Position | InTable(rows, p) && Earlier(p, end) && CellText(rows, p) != "" ensures Found(blocks, p) {
      assert p == here || Earlier(p, here);
    }
  }

  lemma JoiningCovers(blocks: seq<Block>, rows: seq<seq<string>>, here: Position, b: Block)
    requires Covers(blocks, rows, here) && InTable(rows, here) && b.position == here
    requires b.text == CellText(rows, here) && b.text != "" && b.cell == CellLabel(here)
    ensures Covers(blocks + [b], rows, here.(column := here.column + 1))
  {
    var end, all := here.(column := here.column + 1), blocks + [b];
    forall k | 0 <= k < |all| ensures BlockOk(all[k], rows, end) && (k < |blocks| ==> Earlier(all[k].position, here)) {
      if k < |blocks| {
        EndMoves(blocks[k], rows, here);
      }
    }
    forall p: Position | InTable(rows, p) && Earlier(p, end) && CellText(rows, p) != "" ensures Found(all, p) {
      assert p == here || Earlier(p, here);
      FoundGrows(blocks, b, p);
    }
  }

  lemma CellTextOf(rows: seq<seq<string>>, row: nat, column: nat)
    requires row < |rows| && column < |rows[row]|
    ensures InTable(rows, Position(row + 1, column + 1))
    ensures CellText(rows, Position(row + 1, column + 1)) == Clean(rows[row][column])
  {
  }

  lemma CellCovers(o: Output, limits: Limits, rows: seq<seq<string>>, row: nat, column: nat, next: Result<Output>)
    requires row < |rows| && column < |rows[row]| && Covers(o.blocks, rows, Position(row + 1, column + 1))
    requires next == Add(o, limits, rows[row][column], Position(row + 1, column + 1)) && next.Ok?
    ensures Covers(next.value.blocks, rows, Position(row + 1, column + 2)) && next.value.issues == o.issues
  {
    var here := Position(row + 1, column + 1);
    AddingAppends(o, limits, rows[row][column], here);
    CellTextOf(rows, row, column);
    AddingCovers(o, limits, rows, here, next.value.blocks);
  }

  lemma {:induction false} CellsCover(o: Output, limits: Limits, rows: seq<seq<string>>, row: nat, column: nat)
    requires row < |rows| && column <= |rows[row]| && Covers(o.blocks, rows, Position(row + 1, column + 1))
    requires AddCells(o, limits, rows[row], row, column).Ok?
    ensures Covers(AddCells(o, limits, rows[row], row, column).value.blocks, rows, Position(row + 1, |rows[row]| + 1))
    ensures AddCells(o, limits, rows[row], row, column).value.issues == o.issues
    decreases |rows[row]| - column
  {
    if column < |rows[row]| {
      var next := Add(o, limits, rows[row][column], Position(row + 1, column + 1));
      CellCovers(o, limits, rows, row, column, next);
      CellsCover(next.value, limits, rows, row, column + 1);
    }
  }

  lemma NextRowCovers(blocks: seq<Block>, rows: seq<seq<string>>, row: nat)
    requires row < |rows| && Covers(blocks, rows, Position(row + 1, |rows[row]| + 1))
    ensures Covers(blocks, rows, Position(row + 2, 1))
  {
    var end, next := Position(row + 1, |rows[row]| + 1), Position(row + 2, 1);
    forall k | 0 <= k < |blocks| ensures BlockOk(blocks[k], rows, next) {
      assert BlockOk(blocks[k], rows, end);
    }
    forall p: Position | InTable(rows, p) && Earlier(p, next) && CellText(rows, p) != "" ensures Found(blocks, p) {
      assert Earlier(p, end);
    }
  }

  lemma {:induction false} RowsCover(o: Output, limits: Limits, rows: seq<seq<string>>, row: nat)
    requires row <= |rows| && Covers(o.blocks, rows, Position(row + 1, 1)) && Flags(o.issues, rows, row)
    requires AddRows(o, limits, rows, row).Ok?
    ensures Covers(AddRows(o, limits, rows, row).value.blocks, rows, Position(|rows| + 1, 1))
    ensures Flags(AddRows(o, limits, rows, row).value.issues, rows, |rows|)
    decreases |rows| - row
  {
    if row < |rows| {
      var flagged := if |rows[row]| != |rows[0]| then o.(issues := o.issues + [InconsistentColumns(row + 1)]) else o;
      FlaggingFlags(o.issues, rows, row);
      CellsCover(flagged, limits, rows, row, 0);
      var next := AddRow(o, limits, rows[row], |rows[0]|, row).value;
      NextRowCovers(next.blocks, rows, row);
      RowsCover(next, limits, rows, row + 1);
    }
  }

  lemma FlaggingFlags(issues: seq<Issue>, rows: seq<seq<string>>, row: nat)
    requires row < |rows| && Flags(issues, rows, row)
    ensures Flags(if |rows[row]| != |rows[0]| then issues + [InconsistentColumns(row + 1)] else issues, rows, row + 1)
  {
    var all := issues + [InconsistentColumns(row + 1)];
    assert all[|issues|] == InconsistentColumns(row + 1);
    forall r | 0 <= r < row && |rows[r]| != |rows[0]| ensures InconsistentColumns(r + 1) in all {
      assert InconsistentColumns(r + 1) in issues;
    }
  }

  /** Extracting a table finds every cell with text, once, under its own label, and flags every row of another width. */
  lemma TableIsExtracted(text: string, limits: Limits)
    requires ExtractCsv(text, limits).Ok?
    ensures var parsed := Csv.Parse(text, Csv.Limits(limits.cells, limits.blockCharacters));
            && parsed.Ok?
            && Covers(ExtractCsv(text, limits).value.blocks, parsed.value, Position(|parsed.value| + 1, 1))
            && Flags(ExtractCsv(text, limits).value.issues, parsed.value, |parsed.value|)
  {
    var rows := Csv.Parse(text, Csv.Limits(limits.cells, limits.blockCharacters)).value;
    RowsCover(EMPTY, limits, rows, 0);
  }

  /** No two positions share a label, in any table. */
  lemma CellLabelIsInjective(p: Position, q: Position)
    requires CellLabel(p) == CellLabel(q)
    ensures p == q
  {
    var a, b := Label(p.column), Label(q.column);
    var m, n := Decimal.Print(p.row), Decimal.Print(q.row);
    LettersOfLabel(a, m);
    LettersOfLabel(b, n);
    assert a == (a + m)[..|a|] && b == (b + n)[..|b|];
    assert m == (a + m)[|a|..] && n == (b + n)[|b|..];
    LabelIsInjective(p.column, q.column);
    Decimal.PrintIsInjective(p.row, q.row);
  }

  /** So a block is found by its label. */
  lemma BlocksAreFoundByLabel(text: string, limits: Limits, i: nat, j: nat)
    requires ExtractCsv(text, limits).Ok?
    requires i < |ExtractCsv(text, limits).value.blocks| && j < |ExtractCsv(text, limits).value.blocks|
    requires ExtractCsv(text, limits).value.blocks[i].cell == ExtractCsv(text, limits).value.blocks[j].cell
    ensures i == j
  {
    var blocks := ExtractCsv(text, limits).value.blocks;
    TableIsExtracted(text, limits);
    CellLabelIsInjective(blocks[i].position, blocks[j].position);
    assert i < j ==> Earlier(blocks[i].position, blocks[j].position);
    assert j < i ==> Earlier(blocks[j].position, blocks[i].position);
  }

  /** Extraction never exceeds its limits, and its counters are the true sums. */
  lemma {:induction false} RowsKeep(o: Output, limits: Limits, rows: seq<seq<string>>, row: nat)
    requires row <= |rows| && Kept(o, limits) && AddRows(o, limits, rows, row).Ok?
    ensures Kept(AddRows(o, limits, rows, row).value, limits)
    decreases |rows| - row
  {
    if row < |rows| {
      var flagged := if |rows[row]| != |rows[0]| then o.(issues := o.issues + [InconsistentColumns(row + 1)]) else o;
      CellsKeep(flagged, limits, rows[row], row, 0);
      RowsKeep(AddRow(o, limits, rows[row], |rows[0]|, row).value, limits, rows, row + 1);
    }
  }

  lemma {:induction false} CellsKeep(o: Output, limits: Limits, cells: seq<string>, row: nat, column: nat)
    requires column <= |cells| && Kept(o, limits) && AddCells(o, limits, cells, row, column).Ok?
    ensures Kept(AddCells(o, limits, cells, row, column).value, limits)
    decreases |cells| - column
  {
    if column < |cells| {
      AddingKeeps(o, limits, cells[column], Position(row + 1, column + 1));
      CellsKeep(Add(o, limits, cells[column], Position(row + 1, column + 1)).value, limits, cells, row, column + 1);
    }
  }

  lemma ExtractionKeepsLimits(text: string, limits: Limits)
    requires ExtractCsv(text, limits).Ok?
    ensures Kept(ExtractCsv(text, limits).value, limits)
  {
    RowsKeep(EMPTY, limits, Csv.Parse(text, Csv.Limits(limits.cells, limits.blockCharacters)).value, 0);
  }

  // ---------------------------------------------------------------- status, trimming, and when extraction fails

  /** The status tells the table: unreadable without any text, complete when there is some and all rows are equally wide, else partial. */
  lemma StatusTellsTheTable(text: string, limits: Limits)
    requires ExtractCsv(text, limits).Ok?
    ensures var parsed := Csv.Parse(text, Csv.Limits(limits.cells, limits.blockCharacters));
            && parsed.Ok? && var rows, status := parsed.value, StatusOf(ExtractCsv(text, limits).value);
               var blank := forall p: Position :: InTable(rows, p) ==> CellText(rows, p) == "";
               var even := forall r :: 0 <= r < |rows| ==> |rows[r]| == |rows[0]|;
               && (status == Unreadable <==> blank)
               && (status == Complete <==> !blank && even)
               && (status == Partial <==> !blank && !even)
  {
    TableIsExtracted(text, limits);
    var o, rows := ExtractCsv(text, limits).value, Csv.Parse(text, Csv.Limits(limits.cells, limits.blockCharacters)).value;
    NoBlocksExactlyWhen(o.blocks, rows);
    NoIssuesExactlyWhen(o.issues, rows);
  }

  lemma NoBlocksExactlyWhen(blocks: seq<Block>, rows: seq<seq<string>>)
    requires Covers(blocks, rows, Position(|rows| + 1, 1))
    ensures blocks == [] <==> forall p: Position :: InTable(rows, p) ==> CellText(rows, p) == ""
  {
    if blocks == [] {
      forall p: Position | InTable(rows, p) ensures CellText(rows, p) == "" {
        assert Earlier(p, Position(|rows| + 1, 1)) && !Found(blocks, p);
      }
    } else {
      assert BlockOk(blocks[0], rows, Position(|rows| + 1, 1));
    }
  }

  lemma NoIssuesExactlyWhen(issues: seq<Issue>, rows: seq<seq<string>>)
    requires Flags(issues, rows, |rows|)
    ensures issues == [] <==> forall r :: 0 <= r < |rows| ==> |rows[r]| == |rows[0]|
  {
    if issues == [] {
      forall r | 0 <= r < |rows| ensures |rows[r]| == |rows[0]| {
        assert InconsistentColumns(r + 1) !in issues;
      }
    } else {
      assert |rows[issues[0].row - 1]| != |rows[0]|;
    }
  }

  predicate AllSpace(s: string) { forall i :: 0 <= i < |s| ==> IsSpace(s[i]) }

  lemma {:induction false} TrimmedStart(s: string) returns (before: string)
    ensures AllSpace(before) && s == before + TrimStart(s)
  {
    before := "";
    if s != [] && IsSpace(s[0]) {
      var rest := TrimmedStart(s[1..]);
      before := [s[0]] + rest;
    }
  }

  lemma {:induction false} TrimmedEnd(s: string) returns (after: string)
    ensures AllSpace(after) && s == TrimEnd(s) + after
  {
    after := "";
    if s != [] && IsSpace(s[|s| - 1]) {
      var front, last := s[..|s| - 1], s[|s| - 1];
      var rest := TrimmedEnd(front);
      after := rest + [last];
      SpaceGrows(rest, last);
      assert s == front + [last];
    }
  }

  lemma SpaceGrows(s: string, c: char)
    requires AllSpace(s) && IsSpace(c)
    ensures AllSpace(s + [c])
  {
  }

  /** A cleaned text is its normal form without the space around it, and no more. */
  lemma CleanTakesSpaceAround(text: string) returns (before: string, after: string)
    ensures Csv.Normalize(text) == before + Clean(text) + after && AllSpace(before) && AllSpace(after)
    ensures Clean(text) != "" ==> !IsSpace(Clean(text)[0]) && !IsSpace(Clean(text)[|Clean(text)| - 1])
  {
    var s := Csv.Normalize(text);
    before := TrimmedStart(s);
    after := TrimmedEnd(TrimStart(s));
  }

  /** A block is refused exactly when it is not empty and itself, or it with all before it, is too long, or there are too many. */
  lemma AddsExactlyWhen(o: Output, limits: Limits, text: string, position: Position)
    ensures Add(o, limits, text, position).Ok? <==>
              || Clean(text) == ""
              || (&& |Clean(text)| <= limits.blockCharacters && |o.blocks| < limits.blocks
                  && o.characters + |Clean(text)| <= limits.textCharacters && o.bytes + Bytes(Clean(text)) <= limits.textBytes)
  {
  }

  predicate Within(o: Output, limits: Limits) {
    && o.characters <= limits.textCharacters && o.bytes <= limits.textBytes && |o.blocks| <= limits.blocks && |o.issues| <= limits.blocks
    && forall k :: 0 <= k < |o.blocks| ==> |o.blocks[k].text| <= limits.blockCharacters
  }

  predicate Tighter(a: Limits, b: Limits) {
    && a.blocks <= b.blocks && a.blockCharacters <= b.blockCharacters
    && a.textCharacters <= b.textCharacters && a.textBytes <= b.textBytes
  }

  /** What holds of one result under two limits: the tighter one gives the same, unless that is beyond it. */
  predicate SameUnlessBeyond(tight: Result<Output>, wide: Result<Output>, limits: Limits) {
    (tight.Ok? <==> wide.Ok? && Within(wide.value, limits)) && (tight.Ok? ==> tight == wide)
  }

  lemma AddUnderBoth(o: Output, a: Limits, b: Limits, text: string, position: Position)
    requires Tighter(a, b) && Within(o, a)
    ensures SameUnlessBeyond(Add(o, a, text, position), Add(o, b, text, position), a)
  {
    if Clean(text) != "" && Add(o, b, text, position).Ok? {
      var next := Add(o, b, text, position).value;
      assert next.blocks[|o.blocks|].text == Clean(text);
      assert forall k :: 0 <= k < |o.blocks| ==> next.blocks[k] == o.blocks[k];
    }
  }

  /** What is beyond the limits stays beyond them, whatever is added. */
  lemma {:induction false} CellsOnlyAdd(o: Output, a: Limits, b: Limits, cells: seq<string>, row: nat, column: nat)
    requires column <= |cells| && !Within(o, a) && AddCells(o, b, cells, row, column).Ok?
    ensures !Within(AddCells(o, b, cells, row, column).value, a)
    decreases |cells| - column
  {
    if column < |cells| {
      var next := Add(o, b, cells[column], Position(row + 1, column + 1)).value;
      AddingOnlyAdds(o, a, b, cells[column], Position(row + 1, column + 1));
      CellsOnlyAdd(next, a, b, cells, row, column + 1);
    }
  }

  lemma AddingOnlyAdds(o: Output, a: Limits, b: Limits, text: string, position: Position)
    requires !Within(o, a) && Add(o, b, text, position).Ok?
    ensures !Within(Add(o, b, text, position).value, a)
  {
    var next := Add(o, b, text, position).value;
    assert forall k :: 0 <= k < |o.blocks| ==> next.blocks[k] == o.blocks[k];
  }

  lemma {:induction false} CellsUnderBoth(o: Output, a: Limits, b: Limits, cells: seq<string>, row: nat, column: nat)
    requires Tighter(a, b) && Within(o, a) && column <= |cells|
    ensures SameUnlessBeyond(AddCells(o, a, cells, row, column), AddCells(o, b, cells, row, column), a)
    decreases |cells| - column
  {
    if column < |cells| {
      var tight, wide := Add(o, a, cells[column], Position(row + 1, column + 1)), Add(o, b, cells[column], Position(row + 1, column + 1));
      AddUnderBoth(o, a, b, cells[column], Position(row + 1, column + 1));
      if tight.Ok? {
        CellsUnderBoth(tight.value, a, b, cells, row, column + 1);
      } else if wide.Ok? && AddCells(wide.value, b, cells, row, column + 1).Ok? {
        CellsOnlyAdd(wide.value, a, b, cells, row, column + 1);
      }
    }
  }

  lemma RowUnderBoth(o: Output, a: Limits, b: Limits, cells: seq<string>, width: nat, row: nat)
    requires Tighter(a, b) && Within(o, a)
    ensures SameUnlessBeyond(AddRow(o, a, cells, width, row), AddRow(o, b, cells, width, row), a)
  {
    var flagged := if |cells| != width then o.(issues := o.issues + [InconsistentColumns(row + 1)]) else o;
    if Within(flagged, a) {
      CellsUnderBoth(flagged, a, b, cells, row, 0);
    } else if AddRow(o, b, cells, width, row).Ok? {
      CellsOnlyAdd(flagged, a, b, cells, row, 0);
    }
  }

  lemma {:induction false} RowsOnlyAdd(o: Output, a: Limits, b: Limits, rows: seq<seq<string>>, row: nat)
    requires row <= |rows| && !Within(o, a) && AddRows(o, b, rows, row).Ok?
    ensures !Within(AddRows(o, b, rows, row).value, a)
    decreases |rows| - row
  {
    if row < |rows| {
      var flagged := if |rows[row]| != |rows[0]| then o.(issues := o.issues + [InconsistentColumns(row + 1)]) else o;
      CellsOnlyAdd(flagged, a, b, rows[row], row, 0);
      RowsOnlyAdd(AddRow(o, b, rows[row], |rows[0]|, row).value, a, b, rows, row + 1);
    }
  }

  lemma {:induction false} RowsUnderBoth(o: Output, a: Limits, b: Limits, rows: seq<seq<string>>, row: nat)
    requires Tighter(a, b) && Within(o, a) && row <= |rows|
    ensures SameUnlessBeyond(AddRows(o, a, rows, row), AddRows(o, b, rows, row), a)
    decreases |rows| - row
  {
    if row < |rows| {
      var tight, wide := AddRow(o, a, rows[row], |rows[0]|, row), AddRow(o, b, rows[row], |rows[0]|, row);
      RowUnderBoth(o, a, b, rows[row], |rows[0]|, row);
      if tight.Ok? {
        RowsUnderBoth(tight.value, a, b, rows, row + 1);
      } else if wide.Ok? && AddRows(wide.value, b, rows, row + 1).Ok? {
        RowsOnlyAdd(wide.value, a, b, rows, row + 1);
      }
    }
  }

  /** Limits only refuse: under tighter ones a table gives the same output exactly when that output is within them, and fails otherwise. */
  lemma TighterLimitsFailExactlyWhen(rows: seq<seq<string>>, a: Limits, b: Limits)
    requires Tighter(a, b)
    ensures var tight, wide := AddRows(EMPTY, a, rows, 0), AddRows(EMPTY, b, rows, 0);
            && (tight.Ok? <==>
                  && wide.Ok? && wide.value.characters <= a.textCharacters && wide.value.bytes <= a.textBytes
                  && |wide.value.blocks| <= a.blocks && |wide.value.issues| <= a.blocks
                  && forall k :: 0 <= k < |wide.value.blocks| ==> |wide.value.blocks[k].text| <= a.blockCharacters)
            && (tight.Ok? ==> tight == wide)
  {
    RowsUnderBoth(EMPTY, a, b, rows, 0);
  }

  // ---------------------------------------------------------------- lengths in bytes

  /** A character takes the fewest bytes whose 7, 11, 16 or 21 payload bits hold it, as UTF-8 does. */
  lemma CharactersTakeTheFewestBytes(c: char)
    ensures 1 <= CharBytes(c) <= 4
    ensures CharBytes(c) <= 1 <==> c as int < 0x80
    ensures CharBytes(c) <= 2 <==> c as int < 0x800
    ensures CharBytes(c) <= 3 <==> c as int < 0x1_0000
  {
  }

  /** The bytes of a text are those of its pieces. */
  lemma {:induction false} BytesAddUp(a: string, b: string)
    ensures Bytes(a + b) == Bytes(a) + Bytes(b)
    decreases |b|
  {
    if b == [] {
      assert a + b == a;
    } else {
      var front := b[..|b| - 1];
      BytesAddUp(a, front);
      assert (a + b)[..|a + b| - 1] == a + front;
    }
  }

  lemma OneCharacter(c: char)
    ensures Bytes([c]) == CharBytes(c)
  {
    var s := [c];
    assert s[..0] == [];
  }

  /** An issue is recorded unless there are as many already as blocks are allowed. */
  lemma FlagsExactlyWhen(o: Output, limits: Limits, issue: Issue)
    ensures Flag(o, limits, issue) == Ok(o.(issues := o.issues + [issue])) <==> |o.issues| < limits.blocks
    ensures Flag(o, limits, issue).Err? <==> |o.issues| >= limits.blocks
  {
  }
}
