/** Reading tables from comma-separated text: the character automaton, and writing tables back in the style of RFC 4180. */
module Csv {
  import opened Options

  datatype Limits = Limits(cells: nat, fieldCharacters: nat)

  type Row = seq<string>

  /** The automaton's variables. */
  datatype State = State(rows: seq<Row>, row: Row, field: string, quoted: bool, closed: bool, cells: nat)

  const START := State([], [], "", false, false, 0)
  const LIMIT := "DOCUMENT_LIMIT"
  const INVALID := "CSV_INVALID"

  /** Line ends of any kind become a newline. */
  function Normalize(text: string): (r: string)
    ensures |r| <= |text|
    ensures '\r' !in r
    ensures '\r' !in text ==> r == text
  {
    if text == [] then []
    else if text[0] == '\r' then "\n" + Normalize(if |text| > 1 && text[1] == '\n' then text[2..] else text[1..])
    else [text[0]] + Normalize(text[1..])
  }

  function Push(s: State, limits: Limits): Result<State> {
    if s.cells + 1 > limits.cells then Err(LIMIT)
    else Ok(s.(row := s.row + [s.field], field := "", closed := false, cells := s.cells + 1))
  }

  /** One turn of the loop; `next` is the character after, which only a quote inside quotes looks at. */
  function Turn(s: State, c: char, doubled: bool, limits: Limits): Result<State> {
    if s.quoted then
      if c != '"' then Ok(s.(field := s.field + [c]))
      else if doubled then Ok(s.(field := s.field + ['"']))
      else Ok(s.(quoted := false, closed := true))
    else if c == ',' then Push(s, limits)
    else if c == '\n' then
      var pushed := Push(s, limits);
      if pushed.Err? then pushed else Ok(pushed.value.(rows := pushed.value.rows + [pushed.value.row], row := []))
    else if c == '"' && s.field == "" && !s.closed then Ok(s.(quoted := true))
    else if c == '"' || s.closed then Err(INVALID)
    else Ok(s.(field := s.field + [c]))
  }

  predicate Doubled(s: State, text: string)
    requires text != []
  {
    s.quoted && text[0] == '"' && |text| > 1 && text[1] == '"'
  }

  function Run(s: State, text: string, limits: Limits): Result<State>
    decreases |text|
  {
    if text == [] then Ok(s)
    else
      var doubled := Doubled(s, text);
      var next := Turn(s, text[0], doubled, limits);
      if next.Err? then next
      else if |next.value.field| > limits.fieldCharacters then Err(LIMIT)
      else Run(next.value, if doubled then text[2..] else text[1..], limits)
  }

  function Finish(s: State, endsWithComma: bool, limits: Limits): Result<seq<Row>> {
    if s.quoted then Err(INVALID)
    else if s.field != "" || s.row != [] || s.closed || endsWithComma then
      var pushed := Push(s, limits);
      if pushed.Err? then Err(pushed.code) else Ok(pushed.value.rows + [pushed.value.row])
    else Ok(s.rows)
  }

  function Parse(text: string, limits: Limits): Result<seq<Row>> {
    var normalized := Normalize(text);
    var s := Run(START, normalized, limits);
    if s.Err? then Err(s.code)
    else Finish(s.value, normalized != [] && normalized[|normalized| - 1] == ',', limits)
  }

  /** The loop over the normalized text, with its mutable variables. */
  method ParseCsv(text: string, limits: Limits) returns (r: Result<seq<Row>>)
    ensures r == Parse(text, limits)
  {
    var normalized := Normalize(text);
    var rows: seq<Row>, row: Row, field, quoted, closed, cells := [], [], "", false, false, 0;
    var index := 0;
    while index < |normalized|
      invariant index <= |normalized|
      invariant Run(START, normalized, limits) == Run(State(rows, row, field, quoted, closed, cells), normalized[index..], limits)
    {
      ghost var was, rest := State(rows, row, field, quoted, closed, cells), normalized[index..];
      var c := normalized[index];
      ghost var doubled := Doubled(was, rest);
      var from := index;
      if quoted {
        if c == '"' {
          if index + 1 < |normalized| && normalized[index + 1] == '"' {
            field := field + ['"'];
            index := index + 1;
          } else {
            quoted, closed := false, true;
          }
        } else {
          field := field + [c];
        }
      } else if c == ',' || c == '\n' {
        cells := cells + 1;
        if cells > limits.cells {
          return Err(LIMIT);
        }
        row := row + [field];
        field, closed := "", false;
        if c == '\n' {
          rows := rows + [row];
          row := [];
        }
      } else if c == '"' && field == "" && !closed {
        quoted := true;
      } else if c == '"' || closed {
        return Err(INVALID);
      } else {
        field := field + [c];
      }
      index := index + 1;
      assert normalized[index..] == if doubled then rest[2..] else rest[1..];
      assert Turn(was, c, doubled, limits) == Ok(State(rows, row, field, quoted, closed, cells));
      if |field| > limits.fieldCharacters {
        return Err(LIMIT);
      }
    }
    if quoted {
      return Err(INVALID);
    }
    if field != "" || row != [] || closed || (normalized != [] && normalized[|normalized| - 1] == ',') {
      cells := cells + 1;
      if cells > limits.cells {
        return Err(LIMIT);
      }
      rows := rows + [row + [field]];
    }
    r := Ok(rows);
  }

  // ---------------------------------------------------------------- writing

  /** Section 2 of RFC 4180: a field in quotes doubles its quotes. */
  function Escape(field: string): string {
    if field == [] then []
    else (if field[0] == '"' then ['"', '"'] else [field[0]]) + Escape(field[1..])
  }

  predicate NeedsQuotes(field: string) { ',' in field || '\n' in field || '"' in field }

  function WriteField(field: string, quote: bool): string {
    if quote || NeedsQuotes(field) then ['"'] + Escape(field) + ['"'] else field
  }

  /** A row in which `quotes` says which fields are quoted though they need not be. */
  function WriteRow(row: Row, quotes: seq<bool>): string
    requires row != [] && |quotes| == |row|
  {
    if |row| == 1 then WriteField(row[0], quotes[0]) + "\n"
    else WriteField(row[0], quotes[0]) + "," + WriteRow(row[1..], quotes[1..])
  }

  predicate SameShape(rows: seq<Row>, quotes: seq<seq<bool>>) {
    |quotes| == |rows| && forall i :: 0 <= i < |rows| ==> rows[i] != [] && |quotes[i]| == |rows[i]|
  }

  function Write(rows: seq<Row>, quotes: seq<seq<bool>>): string
    requires SameShape(rows, quotes)
  {
    if rows == [] then [] else WriteRow(rows[0], quotes[0]) + Write(rows[1..], quotes[1..])
  }

  function CountCells(rows: seq<Row>): nat {
    if rows == [] then 0 else CountCells(rows[..|rows| - 1]) + |rows[|rows| - 1]|
  }

  predicate Clean(field: string, limits: Limits) { '\r' !in field && |field| <= limits.fieldCharacters }

  predicate FieldsFit(row: Row, limits: Limits) { forall i :: 0 <= i < |row| ==> |row[i]| <= limits.fieldCharacters }

  predicate TableFits(rows: seq<Row>, limits: Limits) {
    CountCells(rows) <= limits.cells && RowsFit(rows, limits)
  }

  predicate NoReturns(rows: seq<Row>) {
    forall i, j :: 0 <= i < |rows| && 0 <= j < |rows[i]| ==> '\r' !in rows[i][j]
  }

  // ---------------------------------------------------------------- reading what was written

  lemma {:induction false} BareFieldIsRead(s: State, field: string, rest: string, limits: Limits)
    requires !s.quoted && !s.closed && !NeedsQuotes(field) && |s.field| <= limits.fieldCharacters
    ensures Run(s, field + rest, limits) ==
              if |s.field| + |field| <= limits.fieldCharacters then Run(s.(field := s.field + field), rest, limits) else Err(LIMIT)
    decreases |field|
  {
    if field == [] {
      assert field + rest == rest && s.field + field == s.field;
    } else {
      var text := field + rest;
      var next := s.(field := s.field + [field[0]]);
      assert field[0] in field && forall c :: c in field[1..] ==> c in field;
      assert text[1..] == field[1..] + rest;
      assert next.field + field[1..] == s.field + field;
      if |next.field| <= limits.fieldCharacters {
        BareFieldIsRead(next, field[1..], rest, limits);
      }
    }
  }

  lemma {:induction false} QuotedFieldIsRead(s: State, field: string, rest: string, limits: Limits)
    requires s.quoted && |s.field| <= limits.fieldCharacters && (rest == [] || rest[0] != '"')
    ensures Run(s, Escape(field) + ['"'] + rest, limits) ==
              if |s.field| + |field| <= limits.fieldCharacters then
                Run(s.(field := s.field + field, quoted := false, closed := true), rest, limits)
              else Err(LIMIT)
    decreases |field|
  {
    var text := Escape(field) + ['"'] + rest;
    if field == [] {
      assert text == ['"'] + rest && text[1..] == rest && s.field + field == s.field;
    } else {
      var next := s.(field := s.field + [field[0]]);
      var tail := Escape(field[1..]) + ['"'] + rest;
      assert next.field + field[1..] == s.field + field;
      if field[0] == '"' {
        assert text == ['"', '"'] + tail && text[2..] == tail;
      } else {
        assert text == [field[0]] + tail && text[1..] == tail;
      }
      if |next.field| <= limits.fieldCharacters {
        QuotedFieldIsRead(next, field[1..], rest, limits);
      }
    }
  }

  /** The state between two fields. */
  function Between(rows: seq<Row>, row: Row, cells: nat): State { State(rows, row, "", false, false, cells) }

  /** A written field is read back as that field, if it fits. */
  lemma FieldIsRead(rows: seq<Row>, row: Row, cells: nat, field: string, quote: bool, rest: string, limits: Limits)
    requires rest != [] && rest[0] != '"'
    ensures Run(Between(rows, row, cells), WriteField(field, quote) + rest, limits) ==
              if |field| <= limits.fieldCharacters then
                Run(State(rows, row, field, false, quote || NeedsQuotes(field), cells), rest, limits)
              else Err(LIMIT)
  {
    var s := Between(rows, row, cells);
    assert "" + field == field;
    if quote || NeedsQuotes(field) {
      var text := WriteField(field, quote) + rest;
      assert text == ['"'] + (Escape(field) + ['"'] + rest);
      assert text[1..] == Escape(field) + ['"'] + rest;
      QuotedFieldIsRead(s.(quoted := true), field, rest, limits);
    } else {
      BareFieldIsRead(s, field, rest, limits);
    }
  }

  /** The comma or newline after a field closes it. */
  lemma SeparatorIsRead(rows: seq<Row>, row: Row, field: string, closed: bool, cells: nat, newline: bool, rest: string, limits: Limits)
    requires |field| <= limits.fieldCharacters
    ensures Run(State(rows, row, field, false, closed, cells), [if newline then '\n' else ','] + rest, limits) ==
              if cells + 1 <= limits.cells then
                Run(if newline then Between(rows + [row + [field]], [], cells + 1) else Between(rows, row + [field], cells + 1), rest, limits)
              else Err(LIMIT)
  {
    assert ([if newline then '\n' else ','] + rest)[1..] == rest;
  }

  lemma FieldAndSeparatorAreRead(rows: seq<Row>, row: Row, cells: nat, field: string, quote: bool, newline: bool, rest: string, limits: Limits)
    ensures Run(Between(rows, row, cells), WriteField(field, quote) + ([if newline then '\n' else ','] + rest), limits) ==
              if |field| <= limits.fieldCharacters && cells + 1 <= limits.cells then
                Run(if newline then Between(rows + [row + [field]], [], cells + 1) else Between(rows, row + [field], cells + 1), rest, limits)
              else Err(LIMIT)
  {
    FieldIsRead(rows, row, cells, field, quote, [if newline then '\n' else ','] + rest, limits);
    if |field| <= limits.fieldCharacters {
      SeparatorIsRead(rows, row, field, quote || NeedsQuotes(field), cells, newline, rest, limits);
    }
  }

  /** What reading a row, after the fields `before` of it, comes to. */
  function RowResult(rows: seq<Row>, before: Row, cells: nat, row: Row, rest: string, limits: Limits): Result<State> {
    if FieldsFit(row, limits) && cells + |row| <= limits.cells then
      Run(Between(rows + [before + row], [], cells + |row|), rest, limits)
    else Err(LIMIT)
  }

  lemma RowResultFromFirst(rows: seq<Row>, before: Row, cells: nat, row: Row, rest: string, limits: Limits)
    requires |row| > 1
    ensures RowResult(rows, before, cells, row, rest, limits) ==
              if |row[0]| <= limits.fieldCharacters && cells + 1 <= limits.cells then
                RowResult(rows, before + [row[0]], cells + 1, row[1..], rest, limits)
              else Err(LIMIT)
  {
    FieldsFitFromFirst(row, limits);
    assert before + [row[0]] + row[1..] == before + row;
  }

  lemma LastFieldIsRead(rows: seq<Row>, before: Row, cells: nat, row: Row, quotes: seq<bool>, rest: string, limits: Limits)
    requires |row| == |quotes| == 1
    ensures Run(Between(rows, before, cells), WriteRow(row, quotes) + rest, limits) == RowResult(rows, before, cells, row, rest, limits)
  {
    assert WriteRow(row, quotes) + rest == WriteField(row[0], quotes[0]) + (['\n'] + rest);
    FieldAndSeparatorAreRead(rows, before, cells, row[0], quotes[0], true, rest, limits);
    assert before + row == before + [row[0]];
  }

  lemma {:induction false} RowIsRead(rows: seq<Row>, before: Row, cells: nat, row: Row, quotes: seq<bool>, rest: string, limits: Limits)
    requires row != [] && |quotes| == |row|
    ensures Run(Between(rows, before, cells), WriteRow(row, quotes) + rest, limits) == RowResult(rows, before, cells, row, rest, limits)
    decreases |row|
  {
    if |row| == 1 {
      LastFieldIsRead(rows, before, cells, row, quotes, rest, limits);
    } else {
      var tail := WriteRow(row[1..], quotes[1..]) + rest;
      assert WriteRow(row, quotes) + rest == WriteField(row[0], quotes[0]) + ([','] + tail);
      FieldAndSeparatorAreRead(rows, before, cells, row[0], quotes[0], false, tail, limits);
      RowIsRead(rows, before + [row[0]], cells + 1, row[1..], quotes[1..], rest, limits);
      RowResultFromFirst(rows, before, cells, row, rest, limits);
    }
  }

  lemma FieldsFitFromFirst(row: Row, limits: Limits)
    requires row != []
    ensures FieldsFit(row, limits) <==> |row[0]| <= limits.fieldCharacters && FieldsFit(row[1..], limits)
  {
    if |row[0]| <= limits.fieldCharacters && FieldsFit(row[1..], limits) {
      forall i | 0 <= i < |row| ensures |row[i]| <= limits.fieldCharacters {
        assert i > 0 ==> row[i] == row[1..][i - 1];
      }
    }
    if FieldsFit(row, limits) {
      forall i | 0 <= i < |row[1..]| ensures |row[1..][i]| <= limits.fieldCharacters {
        assert row[1..][i] == row[i + 1];
      }
    }
  }

  lemma {:induction false} CountFromFirst(rows: seq<Row>)
    requires rows != []
    ensures CountCells(rows) == |rows[0]| + CountCells(rows[1..])
  {
    if |rows| == 1 {
      assert rows[..0] == [] && rows[1..] == [];
    } else {
      var front := rows[..|rows| - 1];
      CountFromFirst(front);
      assert rows[1..][..|rows| - 2] == front[1..];
      assert rows[1..][|rows| - 2] == rows[|rows| - 1];
    }
  }

  predicate RowsFit(rows: seq<Row>, limits: Limits) { forall i :: 0 <= i < |rows| ==> FieldsFit(rows[i], limits) }

  lemma RowsFitFromFirst(rows: seq<Row>, limits: Limits)
    requires rows != []
    ensures RowsFit(rows, limits) <==> FieldsFit(rows[0], limits) && RowsFit(rows[1..], limits)
  {
    if FieldsFit(rows[0], limits) && RowsFit(rows[1..], limits) {
      forall i | 0 <= i < |rows| ensures FieldsFit(rows[i], limits) {
        assert i > 0 ==> rows[i] == rows[1..][i - 1];
      }
    }
    if RowsFit(rows, limits) {
      forall i | 0 <= i < |rows[1..]| ensures FieldsFit(rows[1..][i], limits) {
        assert rows[1..][i] == rows[i + 1];
      }
    }
  }

  /** What reading `rows` after `cells` cells comes to. */
  function TableResult(done: seq<Row>, cells: nat, rows: seq<Row>, limits: Limits): Result<State> {
    if cells + CountCells(rows) <= limits.cells && RowsFit(rows, limits) then
      Ok(Between(done + rows, [], cells + CountCells(rows)))
    else Err(LIMIT)
  }

  lemma TableResultFromFirst(done: seq<Row>, cells: nat, rows: seq<Row>, limits: Limits)
    requires rows != []
    ensures TableResult(done, cells, rows, limits) ==
              if FieldsFit(rows[0], limits) && cells + |rows[0]| <= limits.cells then
                TableResult(done + [rows[0]], cells + |rows[0]|, rows[1..], limits)
              else Err(LIMIT)
  {
    CountFromFirst(rows);
    RowsFitFromFirst(rows, limits);
    assert done + [rows[0]] + rows[1..] == done + rows;
  }

  lemma {:induction false} TableIsRead(done: seq<Row>, cells: nat, rows: seq<Row>, quotes: seq<seq<bool>>, limits: Limits)
    requires SameShape(rows, quotes) && cells <= limits.cells
    ensures Run(Between(done, [], cells), Write(rows, quotes), limits) == TableResult(done, cells, rows, limits)
    decreases |rows|
  {
    if rows == [] {
      assert done + rows == done;
    } else {
      assert [] + rows[0] == rows[0];
      RowIsRead(done, [], cells, rows[0], quotes[0], Write(rows[1..], quotes[1..]), limits);
      TableResultFromFirst(done, cells, rows, limits);
      if FieldsFit(rows[0], limits) && cells + |rows[0]| <= limits.cells {
        TableIsRead(done + [rows[0]], cells + |rows[0]|, rows[1..], quotes[1..], limits);
      }
    }
  }

  lemma {:induction false} EscapeAddsNoReturn(field: string)
    requires '\r' !in field
    ensures '\r' !in Escape(field)
  {
    if field != [] {
      assert field[0] in field && forall c :: c in field[1..] ==> c in field;
      EscapeAddsNoReturn(field[1..]);
    }
  }

  lemma {:induction false} WrittenRowHasNoReturn(row: Row, quotes: seq<bool>)
    requires row != [] && |quotes| == |row| && forall j :: 0 <= j < |row| ==> '\r' !in row[j]
    ensures '\r' !in WriteRow(row, quotes)
    decreases |row|
  {
    EscapeAddsNoReturn(row[0]);
    if |row| > 1 {
      WrittenRowHasNoReturn(row[1..], quotes[1..]);
    }
  }

  lemma {:induction false} WrittenHasNoReturn(rows: seq<Row>, quotes: seq<seq<bool>>)
    requires SameShape(rows, quotes) && NoReturns(rows)
    ensures '\r' !in Write(rows, quotes)
    decreases |rows|
  {
    if rows != [] {
      WrittenRowHasNoReturn(rows[0], quotes[0]);
      WrittenHasNoReturn(rows[1..], quotes[1..]);
    }
  }

  lemma {:induction false} RowEndsInNewline(row: Row, quotes: seq<bool>)
    requires row != [] && |quotes| == |row|
    ensures var w := WriteRow(row, quotes); w != [] && w[|w| - 1] == '\n'
    decreases |row|
  {
    if |row| > 1 {
      RowEndsInNewline(row[1..], quotes[1..]);
    }
  }

  lemma {:induction false} TableEndsInNewline(rows: seq<Row>, quotes: seq<seq<bool>>)
    requires SameShape(rows, quotes)
    ensures var w := Write(rows, quotes); w == [] || w[|w| - 1] == '\n'
    decreases |rows|
  {
    if rows != [] {
      RowEndsInNewline(rows[0], quotes[0]);
      TableEndsInNewline(rows[1..], quotes[1..]);
    }
  }

  /** Any table of non-empty rows, however its fields are quoted, is read back as it was, exactly when it keeps the limits. */
  lemma WrittenTablesAreReadBack(rows: seq<Row>, quotes: seq<seq<bool>>, limits: Limits)
    requires SameShape(rows, quotes) && NoReturns(rows)
    ensures Parse(Write(rows, quotes), limits) == if TableFits(rows, limits) then Ok(rows) else Err(LIMIT)
  {
    var text := Write(rows, quotes);
    WrittenHasNoReturn(rows, quotes);
    TableEndsInNewline(rows, quotes);
    WholeTableIsRead(rows, quotes, limits);
    ParseOfRun(text, limits);
  }

  /** For a text without carriage returns that does not end in a comma, parsing is running and finishing. */
  lemma ParseOfRun(text: string, limits: Limits)
    requires '\r' !in text && (text == [] || text[|text| - 1] == '\n')
    ensures var s := Run(START, text, limits);
            Parse(text, limits) == if s.Err? then Err(s.code) else Finish(s.value, false, limits)
  {
    assert Normalize(text) == text;
  }

  lemma WholeTableIsRead(rows: seq<Row>, quotes: seq<seq<bool>>, limits: Limits)
    requires SameShape(rows, quotes)
    ensures Run(START, Write(rows, quotes), limits) ==
              if TableFits(rows, limits) then Ok(Between(rows, [], CountCells(rows))) else Err(LIMIT)
  {
    var text := Write(rows, quotes);
    assert [] + rows == rows;
    TableIsRead([], 0, rows, quotes, limits);
    assert Run(Between([], [], 0), text, limits) == TableResult([], 0, rows, limits);
  }

  // ---------------------------------------------------------------- accepted texts

  predicate StateOk(s: State, limits: Limits) {
    && NoReturns(s.rows) && (forall i :: 0 <= i < |s.rows| ==> s.rows[i] != [] && FieldsFit(s.rows[i], limits))
    && (forall j :: 0 <= j < |s.row| ==> Clean(s.row[j], limits))
    && Clean(s.field, limits)
    && s.cells == CountCells(s.rows) + |s.row| <= limits.cells
  }

  lemma TurnKeepsState(s: State, c: char, doubled: bool, limits: Limits)
    requires StateOk(s, limits) && c != '\r' && Turn(s, c, doubled, limits).Ok?
    requires |Turn(s, c, doubled, limits).value.field| <= limits.fieldCharacters
    ensures StateOk(Turn(s, c, doubled, limits).value, limits)
  {
    if !s.quoted && c == '\n' {
      RowJoins(s.rows, s.row + [s.field], limits);
    }
  }

  lemma RowJoins(rows: seq<Row>, row: Row, limits: Limits)
    requires NoReturns(rows) && (forall i :: 0 <= i < |rows| ==> rows[i] != [] && FieldsFit(rows[i], limits))
    requires row != [] && forall j :: 0 <= j < |row| ==> Clean(row[j], limits)
    ensures var all := rows + [row];
            && NoReturns(all) && (forall i :: 0 <= i < |all| ==> all[i] != [] && FieldsFit(all[i], limits))
            && CountCells(all) == CountCells(rows) + |row|
  {
    assert (rows + [row])[..|rows|] == rows;
  }

  lemma {:induction false} RunKeepsState(s: State, text: string, limits: Limits)
    requires StateOk(s, limits) && '\r' !in text && Run(s, text, limits).Ok?
    ensures StateOk(Run(s, text, limits).value, limits)
    decreases |text|
  {
    if text != [] {
      var doubled := Doubled(s, text);
      TurnKeepsState(s, text[0], doubled, limits);
      RunKeepsState(Turn(s, text[0], doubled, limits).value, if doubled then text[2..] else text[1..], limits);
    }
  }

  lemma AcceptedTablesFit(text: string, limits: Limits)
    requires Parse(text, limits).Ok?
    ensures var rows := Parse(text, limits).value;
            TableFits(rows, limits) && NoReturns(rows) && forall i :: 0 <= i < |rows| ==> rows[i] != []
  {
    var s := Run(START, Normalize(text), limits).value;
    RunKeepsState(START, Normalize(text), limits);
    RowJoins(s.rows, s.row + [s.field], limits);
  }

  /** Whatever text is accepted, writing its rows and reading them again gives the same rows. */
  lemma AcceptedTextsSettle(text: string, quotes: seq<seq<bool>>, limits: Limits)
    requires Parse(text, limits).Ok? && SameShape(Parse(text, limits).value, quotes)
    ensures Parse(Write(Parse(text, limits).value, quotes), limits) == Parse(text, limits)
  {
    AcceptedTablesFit(text, limits);
    WrittenTablesAreReadBack(Parse(text, limits).value, quotes, limits);
  }

  // ---------------------------------------------------------------- the test for a final comma

  /** After an unquoted comma a row is always open, so the separate test for a final comma never decides anything. */
  lemma {:induction false} FinalCommaLeavesOpenRow(s: State, text: string, limits: Limits)
    requires text != [] && text[|text| - 1] == ',' && Run(s, text, limits).Ok?
    ensures Run(s, text, limits).value.quoted || Run(s, text, limits).value.row != []
    decreases |text|
  {
    var doubled := Doubled(s, text);
    var rest := if doubled then text[2..] else text[1..];
    if rest != [] {
      assert rest[|rest| - 1] == ',';
      FinalCommaLeavesOpenRow(Turn(s, text[0], doubled, limits).value, rest, limits);
    }
  }

  lemma FinalCommaNeverDecides(text: string, limits: Limits)
    requires Run(START, Normalize(text), limits).Ok?
    ensures Parse(text, limits) == Finish(Run(START, Normalize(text), limits).value, false, limits)
  {
    var normalized := Normalize(text);
    if normalized != [] && normalized[|normalized| - 1] == ',' {
      FinalCommaLeavesOpenRow(START, normalized, limits);
    }
  }

  // ---------------------------------------------------------------- line ends

  /** Texts are normalised piece by piece, wherever they are cut but between the two characters of a line end. */
  lemma {:induction false} NormalizedByPieces(a: string, b: string)
    requires a == [] || b == [] || a[|a| - 1] != '\r' || b[0] != '\n'
    ensures Normalize(a + b) == Normalize(a) + Normalize(b)
    decreases |a|
  {
    if a == [] {
      assert a + b == b;
    } else if b == [] {
      assert a + b == a;
    } else if a[0] == '\r' && |a| > 1 && a[1] == '\n' {
      assert (a + b)[2..] == a[2..] + b;
      NormalizedByPieces(a[2..], b);
    } else {
      assert (a + b)[1..] == a[1..] + b;
      assert |a| > 1 ==> (a + b)[1] == a[1];
      assert |a| == 1 ==> (a + b)[1] == b[0];
      NormalizedByPieces(a[1..], b);
    }
  }

  /** A return, alone or before a newline, is one line end; everything else stays as it is. */
  lemma PiecesAreNormalized(c: char)
    ensures Normalize("\r\n") == "\n" && Normalize("\r") == "\n"
    ensures c != '\r' ==> Normalize([c]) == [c]
  {
    var text := "\r\n";
    assert text[2..] == [] && Normalize(text[2..]) == [];
    assert Normalize(text) == "\n" + Normalize(text[2..]);
    var single := "\r";
    assert single[1..] == [];
  }

  // ---------------------------------------------------------------- the last row

  lemma {:induction false} OneMoreCharacter(s: State, text: string, limits: Limits)
    ensures var before := Run(s, text, limits);
            Run(s, text + "\n", limits) == if before.Err? then before else Run(before.value, "\n", limits)
    decreases |text|
  {
    var all := text + "\n";
    if text == [] {
      assert all == "\n";
    } else {
      var doubled := Doubled(s, text);
      assert |text| > 1 ==> all[1] == text[1];
      assert Doubled(s, all) == doubled;
      assert all[1..] == text[1..] + "\n" && (doubled ==> all[2..] == text[2..] + "\n");
      var next := Turn(s, text[0], doubled, limits);
      if next.Ok? {
        OneMoreCharacter(next.value, if doubled then text[2..] else text[1..], limits);
      }
    }
  }

  /** A text that does not end in a newline leaves a row to be closed, or a quote. */
  lemma {:induction false} UnendedTextsLeaveARow(s: State, text: string, limits: Limits)
    requires text != [] && text[|text| - 1] != '\n' && Run(s, text, limits).Ok?
    ensures var end := Run(s, text, limits).value; end.quoted || end.field != "" || end.row != [] || end.closed
    decreases |text|
  {
    var doubled := Doubled(s, text);
    var rest := if doubled then text[2..] else text[1..];
    if rest != [] {
      assert rest[|rest| - 1] == text[|text| - 1];
      UnendedTextsLeaveARow(Turn(s, text[0], doubled, limits).value, rest, limits);
    }
  }

  lemma EndOfRow(s: State, limits: Limits)
    requires !s.quoted && (s.field != "" || s.row != [] || s.closed)
    ensures var ended := Run(s, "\n", limits);
            (ended.Ok? <==> Finish(s, false, limits).Ok?) && (ended.Ok? ==> Finish(ended.value, false, limits) == Finish(s, false, limits))
  {
    var text := "\n";
    assert text[1..] == [];
    var next := Turn(s, '\n', false, limits);
    assert next.Ok? ==> Run(next.value, text[1..], limits) == next;
  }

  lemma LastCharacterStays(text: string)
    requires text != [] && text[|text| - 1] != '\n' && text[|text| - 1] != '\r'
    ensures Normalize(text) != [] && Normalize(text)[|Normalize(text)| - 1] == text[|text| - 1] && Normalize(text + "\n") == Normalize(text) + "\n"
  {
    var front, last := text[..|text| - 1], text[|text| - 1];
    assert front + [last] == text;
    NormalizedByPieces(front, [last]);
    PiecesAreNormalized(last);
    NormalizedByPieces(text, "\n");
    PiecesAreNormalized('\n');
  }

  /** The last row needs no line end: with and without one a text is accepted alike, with the same rows. */
  lemma LastRowNeedsNoLineEnd(text: string, limits: Limits)
    requires text != [] && text[|text| - 1] != '\n' && text[|text| - 1] != '\r'
    ensures Parse(text, limits).Ok? <==> Parse(text + "\n", limits).Ok?
    ensures Parse(text, limits).Ok? ==> Parse(text, limits) == Parse(text + "\n", limits)
  {
    LastCharacterStays(text);
    var normalized := Normalize(text);
    var s := Run(START, normalized, limits);
    OneMoreCharacter(START, normalized, limits);
    if s.Ok? {
      FinalCommaNeverDecides(text, limits);
      UnendedTextsLeaveARow(START, normalized, limits);
      if s.value.quoted {
        OpenQuoteStays(s.value, limits);
      } else {
        EndOfRow(s.value, limits);
      }
    }
  }

  lemma OpenQuoteStays(s: State, limits: Limits)
    requires s.quoted
    ensures Run(s, "\n", limits).Ok? ==> Run(s, "\n", limits).value.quoted
  {
    var text := "\n";
    assert text[1..] == [];
  }
}
