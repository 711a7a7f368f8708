/** Spreadsheet positions: column names, and cell labels such as "AB12" read back into a row and a column. */
module CellLabels {
  import opened Decimal
  import opened Options

  const MAX_COLUMN := 16384
  const MAX_ROW := 1048576

  datatype Position = Position(row: nat, column: nat)

  predicate IsLetter(c: char) { 'A' <= c <= 'Z' }

  predicate AllLetters(s: string) { forall i :: 0 <= i < |s| ==> IsLetter(s[i]) }

  function Letter(d: nat): char
    requires d < 26
  {
    'A' + d as char
  }

  /** Columns are counted A to Z, then AA to AZ and so on: there is no digit for zero. */
  function Label(column: nat): (s: string)
    ensures AllLetters(s)
    ensures s == [] <==> column == 0
  {
    if column == 0 then [] else Label((column - 1) / 26) + [Letter((column - 1) % 26)]
  }

  function ColumnOf(s: string): nat
    requires AllLetters(s)
  {
    if s == [] then 0 else ColumnOf(s[..|s| - 1]) * 26 + (s[|s| - 1] - 'A') as nat + 1
  }

  method ColumnName(index: nat) returns (name: string)
    ensures name == Label(index)
  {
    var value := index;
    name := "";
    while value > 0
      invariant Label(index) == Label(value) + name
    {
      assert Label(value) + name == Label((value - 1) / 26) + ([Letter((value - 1) % 26)] + name);
      value := value - 1;
      name := [Letter(value % 26)] + name;
      value := value / 26;
    }
  }

  lemma {:induction false} ColumnOfLabel(column: nat)
    ensures ColumnOf(Label(column)) == column
  {
    if column > 0 {
      var s := Label(column);
      ColumnOfLabel((column - 1) / 26);
      assert s[..|s| - 1] == Label((column - 1) / 26);
    }
  }

  lemma {:induction false} LabelOfColumn(s: string)
    requires AllLetters(s)
    ensures Label(ColumnOf(s)) == s
  {
    if s != [] {
      var front, last := s[..|s| - 1], (s[|s| - 1] - 'A') as nat;
      LabelOfColumn(front);
      assert (ColumnOf(front) * 26 + last) / 26 == ColumnOf(front) && (ColumnOf(front) * 26 + last) % 26 == last;
      assert s == front + [Letter(last)];
    }
  }

  /** Different columns have different names. */
  lemma LabelIsInjective(a: nat, b: nat)
    requires Label(a) == Label(b)
    ensures a == b
  {
    ColumnOfLabel(a);
    ColumnOfLabel(b);
  }

  /** How many letters a label starts with. */
  function Letters(s: string): (k: nat)
    ensures k <= |s| && AllLetters(s[..k])
    ensures k < |s| ==> !IsLetter(s[k])
  {
    if s == [] || !IsLetter(s[0]) then 0 else 1 + Letters(s[1..])
  }

  /** One to three letters, then a number of at most seven digits without leading zero. */
  predicate WellFormed(s: string) {
    var k := Letters(s);
    && 1 <= k <= 3
    && 1 <= |s| - k <= 7
    && AllDigits(s[k..])
    && s[k] != '0'
  }

  method CellPosition(cell: string) returns (r: Result<Position>)
    ensures r == PositionOf(cell)
  {
    if !WellFormed(cell) {
      return Err("DOCUMENT_INVALID");
    }
    var k := Letters(cell);
    var column := 0;
    var i := 0;
    while i < k
      invariant 0 <= i <= k
      invariant column == ColumnOf(cell[..i])
    {
      assert cell[..i + 1][..i] == cell[..i];
      column := column * 26 + (cell[i] - 'A') as nat + 1;
      i := i + 1;
    }
    var row := Value(cell[k..]);
    if column > MAX_COLUMN || row > MAX_ROW {
      return Err("DOCUMENT_INVALID");
    }
    r := Ok(Position(row, column));
  }

  function PositionOf(cell: string): Result<Position> {
    if !WellFormed(cell) then Err("DOCUMENT_INVALID")
    else
      var k := Letters(cell);
      var p := Position(Value(cell[k..]), ColumnOf(cell[..k]));
      if p.column > MAX_COLUMN || p.row > MAX_ROW then Err("DOCUMENT_INVALID") else Ok(p)
  }

  /** The label of a position, as table extraction writes it. */
  function CellLabel(p: Position): string { Label(p.column) + Print(p.row) }

  /** How many numbers have at most `k` digits, and how many columns at most `k` letters. */
  function Numbers(k: nat): (n: nat)
    ensures n > 0
  {
    if k == 0 then 1 else 10 * Numbers(k - 1)
  }

  function Columns(k: nat): nat {
    if k == 0 then 0 else 26 * (Columns(k - 1) + 1)
  }

  lemma {:induction false} ShortNumbers(n: nat, k: nat)
    requires k > 0 && n < Numbers(k)
    ensures |Print(n)| <= k
  {
    if n >= 10 {
      assert n < 10 * Numbers(k - 1);
      assert k - 1 > 0;
      ShortNumbers(n / 10, k - 1);
    }
  }

  lemma {:induction false} ShortNames(column: nat, k: nat)
    requires column <= Columns(k)
    ensures |Label(column)| <= k
  {
    if column > 0 {
      ShortNames((column - 1) / 26, k - 1);
    }
  }

  lemma {:induction false} LettersOfLabel(name: string, number: string)
    requires AllLetters(name) && AllDigits(number)
    ensures Letters(name + number) == |name|
  {
    if name == [] {
      assert name + number == number;
    } else {
      assert (name + number)[1..] == name[1..] + number;
      LettersOfLabel(name[1..], number);
    }
  }

  lemma LabelsAreAccepted(p: Position)
    requires 1 <= p.column <= MAX_COLUMN && 1 <= p.row <= MAX_ROW
    ensures PositionOf(CellLabel(p)) == Ok(p)
  {
    var name, number := Label(p.column), Print(p.row);
    var cell := name + number;
    LettersOfLabel(name, number);
    assert cell[..|name|] == name && cell[|name|..] == number;
    assert Columns(3) == 18278 && Numbers(7) == 10000000;
    ShortNames(p.column, 3);
    ShortNumbers(p.row, 7);
    assert cell[|name|] == number[0];
    ColumnOfLabel(p.column);
    ValueOfPrint(p.row);
  }

  lemma AcceptedIsLabel(cell: string)
    requires PositionOf(cell).Ok?
    ensures var p := PositionOf(cell).value;
            1 <= p.column <= MAX_COLUMN && 1 <= p.row <= MAX_ROW && cell == CellLabel(p)
  {
    var k := Letters(cell);
    assert cell == cell[..k] + cell[k..];
    LabelOfColumn(cell[..k]);
    PrintOfValue(cell[k..]);
  }

  /** Reading and writing labels undo each other: a text is read as a position exactly when it is its label. */
  lemma ReadsExactlyTheLabels(cell: string, p: Position)
    ensures PositionOf(cell) == Ok(p) <==>
              1 <= p.column <= MAX_COLUMN && 1 <= p.row <= MAX_ROW && cell == CellLabel(p)
  {
    if 1 <= p.column <= MAX_COLUMN && 1 <= p.row <= MAX_ROW && cell == CellLabel(p) {
      LabelsAreAccepted(p);
    }
    if PositionOf(cell).Ok? {
      AcceptedIsLabel(cell);
    }
  }
}
