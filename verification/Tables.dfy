/** Which lines make a table: what the scanner for one accepts. */
module Tables {
  import opened Text
  import opened HardSplit

  /** A cell of a separator row, the space behind it, and the space behind the bar that follows. */
  datatype Cell = Cell(left: bool, dashes: string, right: bool, after: string, next: string)

  ghost predicate IsCell(cell: Cell) {
    && |cell.dashes| >= 3 && (forall i :: 0 <= i < |cell.dashes| ==> cell.dashes[i] == '-')
    && AllSpace(cell.after) && AllSpace(cell.next)
  }

  ghost predicate AreCells(cells: seq<Cell>) {
    cells != [] && forall i :: 0 <= i < |cells| ==> IsCell(cells[i])
  }

  function Colon(present: bool): string {
    if present then ":" else ""
  }

  function CellText(cell: Cell): string {
    Colon(cell.left) + (cell.dashes + (Colon(cell.right) + cell.after))
  }

  /** Cells with a bar between two, and perhaps one at the end. */
  function RowText(cells: seq<Cell>, barred: bool): string
    requires cells != []
  {
    CellText(cells[0]) +
      (if |cells| > 1 then "|" + (cells[0].next + RowText(cells[1..], barred))
       else if barred then "|" + cells[0].next
       else "")
  }

  lemma {:induction false} SpacesDropped(space: string, rest: string)
    requires AllSpace(space) && (rest != "" ==> !IsSpace(rest[0]))
    ensures DropSpaces(space + rest) == rest
  {
    if space == "" {
      assert space + rest == rest;
    } else {
      assert (space + rest)[1..] == space[1..] + rest;
      SpacesDropped(space[1..], rest);
    }
  }

  lemma {:induction false} DropSpacesSplits(s: string) returns (space: string)
    ensures s == space + DropSpaces(s) && AllSpace(space)
  {
    space := "";
    if s != "" && IsSpace(s[0]) {
      var rest := DropSpacesSplits(s[1..]);
      space := [s[0]] + rest;
    }
  }

  predicate HasColon(s: string) {
    s != "" && s[0] == ':'
  }

  function DropColon(s: string): string {
    if HasColon(s) then s[1..] else s
  }

  lemma ColonSplits(s: string)
    ensures s == Colon(HasColon(s)) + DropColon(s)
  {
  }

  lemma ColonDropped(present: bool, rest: string)
    requires !HasColon(rest)
    ensures DropColon(Colon(present) + rest) == rest
  {
    assert "" + rest == rest && (":" + rest)[1..] == rest;
  }

  /** How many dashes the cell a text starts with has, and what is left behind it. */
  function Behind(s: string): (r: (nat, string)) {
    var dashes := DropColon(s);
    (Run(dashes, '-'), DropSpaces(DropColon(dashes[Run(dashes, '-')..])))
  }

  lemma CellsAreRead(s: string)
    ensures SeparatorCells(s) <==>
      var (count, rest) := Behind(s);
      count >= 3 && (rest == "" || (rest[0] == '|' &&
        (DropSpaces(rest[1..]) == "" || SeparatorCells(DropSpaces(rest[1..])))))
  {
  }

  lemma DashesCounted(dashes: string, rest: string)
    requires (forall i :: 0 <= i < |dashes| ==> dashes[i] == '-') && (rest != "" ==> rest[0] != '-')
    ensures Run(dashes + rest, '-') == |dashes| && (dashes + rest)[|dashes|..] == rest
  {
    assert rest != "" ==> (dashes + rest)[|dashes|] == rest[0];
  }

  lemma Regrouped(a: string, b: string, c: string, d: string, e: string)
    ensures (a + (b + (c + d))) + e == a + (b + (c + (d + e)))
  {
    Associate(a, b + (c + d), e);
    Associate(b, c + d, e);
    Associate(c, d, e);
  }

  lemma TailIsRead(cell: Cell, rest: string)
    requires IsCell(cell) && (rest != "" ==> rest[0] == '|')
    ensures var colon := Colon(cell.right) + (cell.after + rest);
      DropSpaces(DropColon(colon)) == rest && (colon != "" ==> colon[0] != '-')
  {
    var tail := cell.after + rest;
    assert tail != "" ==> tail[0] == if cell.after != "" then cell.after[0] else rest[0];
    assert tail != "" ==> tail[0] == '|' || IsSpace(tail[0]);
    ColonDropped(cell.right, tail);
    SpacesDropped(cell.after, rest);
  }

  lemma CellIsRead(cell: Cell, rest: string)
    requires IsCell(cell) && (rest != "" ==> rest[0] == '|')
    ensures Behind(CellText(cell) + rest) == (|cell.dashes|, rest)
  {
    var colon := Colon(cell.right) + (cell.after + rest);
    var dashes := cell.dashes + colon;
    Regrouped(Colon(cell.left), cell.dashes, Colon(cell.right), cell.after, rest);
    TailIsRead(cell, rest);
    assert dashes[0] == cell.dashes[0] == '-';
    ColonDropped(cell.left, dashes);
    DashesCounted(cell.dashes, colon);
  }

  lemma Assembled(s: string, a: string, dashes: string, b: string, colon: string, c: string, tail: string,
                  after: string, rest: string)
    requires s == a + dashes && dashes == b + colon && colon == c + tail && tail == after + rest
    ensures s == (a + (b + (c + after))) + rest
  {
    Regrouped(a, b, c, after, rest);
  }

  lemma FrontRun(s: string) returns (front: string, rest: string)
    ensures s == front + rest && rest == s[Run(s, '-')..] && |front| == Run(s, '-')
    ensures forall i :: 0 <= i < |front| ==> front[i] == '-'
  {
    front, rest := s[..Run(s, '-')], s[Run(s, '-')..];
  }

  lemma DashesAreCell(left: bool, dashes: string, right: bool, after: string)
    requires |dashes| >= 3 && (forall i :: 0 <= i < |dashes| ==> dashes[i] == '-') && AllSpace(after)
    ensures var cell := Cell(left, dashes, right, after, "");
      IsCell(cell) && CellText(cell) == Colon(left) + (dashes + (Colon(right) + after))
  {
  }

  lemma ReadIsCell(s: string) returns (cell: Cell)
    requires Behind(s).0 >= 3
    ensures IsCell(cell) && cell.next == "" && s == CellText(cell) + Behind(s).1
  {
    var dashes := DropColon(s);
    var front, colon := FrontRun(dashes);
    var tail := DropColon(colon);
    var after := DropSpacesSplits(tail);
    assert Behind(s) == (|front|, DropSpaces(tail));
    ColonSplits(s);
    ColonSplits(colon);
    DashesAreCell(HasColon(s), front, HasColon(colon), after);
    Assembled(s, Colon(HasColon(s)), dashes, front, colon, Colon(HasColon(colon)), tail, after, DropSpaces(tail));
    cell := Cell(HasColon(s), front, HasColon(colon), after, "");
  }

  lemma RowOfOne(cell: Cell, barred: bool)
    requires IsCell(cell)
    ensures AreCells([cell]) && RowText([cell], barred) == CellText(cell) + if barred then "|" + cell.next else ""
  {
  }

  lemma RowOfMore(cell: Cell, next: string, others: seq<Cell>, barred: bool)
    requires IsCell(cell) && AllSpace(next) && AreCells(others)
    ensures AreCells([cell.(next := next)] + others)
    ensures RowText([cell.(next := next)] + others, barred)
         == CellText(cell) + ("|" + (next + RowText(others, barred)))
  {
    assert ([cell.(next := next)] + others)[1..] == others;
  }

  lemma MoreIsRead(cell: Cell, more: string)
    requires IsCell(cell) && SeparatorCells(more) && more != "" && more[0] in {':', '-'}
    ensures SeparatorCells(CellText(cell) + ("|" + (cell.next + more)))
  {
    var rest := "|" + (cell.next + more);
    CellIsRead(cell, rest);
    SpacesDropped(cell.next, more);
    assert rest[1..] == cell.next + more;
    CellsAreRead(CellText(cell) + rest);
  }

  lemma LastIsRead(cell: Cell, barred: bool)
    requires IsCell(cell)
    ensures SeparatorCells(CellText(cell) + if barred then "|" + cell.next else "")
  {
    var rest := if barred then "|" + cell.next else "";
    CellIsRead(cell, rest);
    SpacesDropped(cell.next, "");
    assert cell.next + "" == cell.next && ("|" + cell.next)[1..] == cell.next;
    CellsAreRead(CellText(cell) + rest);
  }

  lemma {:induction false} RowIsRead(cells: seq<Cell>, barred: bool)
    requires AreCells(cells)
    ensures SeparatorCells(RowText(cells, barred))
    ensures RowText(cells, barred) != "" && RowText(cells, barred)[0] in {':', '-'}
    decreases |cells|
  {
    var cell := cells[0];
    assert IsCell(cell);
    if |cells| > 1 {
      assert AreCells(cells[1..]);
      RowIsRead(cells[1..], barred);
      MoreIsRead(cell, RowText(cells[1..], barred));
    } else {
      LastIsRead(cell, barred);
    }
  }

  lemma BarSplits(rest: string) returns (next: string)
    requires rest != "" && rest[0] == '|'
    ensures rest == "|" + (next + DropSpaces(rest[1..])) && AllSpace(next)
  {
    next := DropSpacesSplits(rest[1..]);
  }

  lemma {:induction false} ReadIsRow(s: string) returns (cells: seq<Cell>, barred: bool)
    requires SeparatorCells(s)
    ensures AreCells(cells) && RowText(cells, barred) == s
    decreases |s|
  {
    CellsAreRead(s);
    var rest := Behind(s).1;
    var cell := ReadIsCell(s);
    if rest == "" {
      RowOfOne(cell, false);
      return [cell], false;
    }
    var next := BarSplits(rest);
    var more := DropSpaces(rest[1..]);
    if more == "" {
      assert next + more == next;
      RowOfOne(cell.(next := next), true);
      return [cell.(next := next)], true;
    }
    var others;
    others, barred := ReadIsRow(more);
    RowOfMore(cell, next, others, barred);
    cells := [cell.(next := next)] + others;
  }

  ghost predicate SeparatorRowAs(line: string, space: string, cells: seq<Cell>, barred: bool) {
    && AreCells(cells) && AllSpace(space)
    && (line == space + RowText(cells, barred)
        || exists more: string :: AllSpace(more) && line == space + ("|" + (more + RowText(cells, barred))))
  }

  /** Space, perhaps a bar and more space, then the cells. */
  ghost predicate IsSeparatorRow(line: string) {
    exists space: string, cells: seq<Cell>, barred: bool :: SeparatorRowAs(line, space, cells, barred)
  }

  /** The cells of the line, when it is a separator row. */
  function CellsOf(line: string): string {
    var row := DropSpaces(line);
    if row != "" && row[0] == '|' then DropSpaces(row[1..]) else row
  }

  lemma ReadIsSeparatorRow(line: string)
    requires SeparatorCells(CellsOf(line))
    ensures IsSeparatorRow(line)
  {
    var row := DropSpaces(line);
    var space := DropSpacesSplits(line);
    var cells, barred := ReadIsRow(CellsOf(line));
    if row != "" && row[0] == '|' {
      var more := DropSpacesSplits(row[1..]);
      assert row == "|" + (more + RowText(cells, barred));
    }
    assert SeparatorRowAs(line, space, cells, barred);
  }

  lemma SeparatorRowIsRead(line: string, space: string, cells: seq<Cell>, barred: bool)
    requires SeparatorRowAs(line, space, cells, barred)
    ensures SeparatorCells(CellsOf(line))
  {
    var text := RowText(cells, barred);
    RowIsRead(cells, barred);
    if line == space + text {
      SpacesDropped(space, text);
    } else {
      var more :| AllSpace(more) && line == space + ("|" + (more + text));
      SpacesDropped(space, "|" + (more + text));
      SpacesDropped(more, text);
      assert ("|" + (more + text))[1..] == more + text;
    }
  }

  lemma SeparatorRowIff(line: string)
    ensures IsSeparatorRow(line) <==> SeparatorCells(CellsOf(line))
  {
    if SeparatorCells(CellsOf(line)) {
      ReadIsSeparatorRow(line);
    }
    if space: string, cells: seq<Cell>, barred: bool :| SeparatorRowAs(line, space, cells, barred) {
      SeparatorRowIsRead(line, space, cells, barred);
    }
  }

  /** A table: its first line starts with a bar, its second is a separator row. */
  lemma IsTableIff(lines: seq<string>)
    ensures IsTable(lines) <==>
      && |lines| >= 2 && IsSeparatorRow(lines[1])
      && exists space: string, rest: string :: AllSpace(space) && lines[0] == space + ("|" + rest)
  {
    if |lines| >= 2 {
      SeparatorRowIff(lines[1]);
      var head := DropSpaces(lines[0]);
      if head != "" && head[0] == '|' {
        var space := DropSpacesSplits(lines[0]);
        assert lines[0] == space + ("|" + head[1..]);
      }
      if space: string, rest: string :| AllSpace(space) && lines[0] == space + ("|" + rest) {
        SpacesDropped(space, "|" + rest);
      }
    }
  }
}
