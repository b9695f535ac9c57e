/** Splitting one oversized paragraph at lines, a table's header repeated on every piece. */
module HardSplit {
  import opened Text

  /** `:---:` cells between pipes, from the start of a cell to the end of the line. */
  predicate SeparatorCells(s: string)
    decreases |s|
  {
    var dashes := if s != "" && s[0] == ':' then s[1..] else s;
    var count := Run(dashes, '-');
    var colon := dashes[count..];
    var rest := DropSpaces(if colon != "" && colon[0] == ':' then colon[1..] else colon);
    && count >= 3
    && (rest == "" || (rest[0] == '|' &&
        var next := DropSpaces(rest[1..]);
        next == "" || SeparatorCells(next)))
  }

  /** Two lines at least: one that starts with a bar, then one of dashed cells. */
  predicate IsTable(lines: seq<string>) {
    && |lines| >= 2
    && (var head := DropSpaces(lines[0]); head != "" && head[0] == '|')
    && (var row := DropSpaces(lines[1]);
        SeparatorCells(if row != "" && row[0] == '|' then DropSpaces(row[1..]) else row))
  }

  /** The rows repeated on every piece: a table's two, when they leave half the limit for the rest. */
  function HeaderOf(lines: seq<string>, maxChars: nat): (header: seq<string>)
    ensures header <= lines
    ensures header == [] || (|header| == 2 && header[0] != "" && 2 * (|header[0]| + |header[1]| + 2) < maxChars)
  {
    if IsTable(lines) && 2 * (|lines[0]| + |lines[1]| + 2) < maxChars then lines[..2] else []
  }

  /** A line from `start` on, cut every `maxChars` characters; an empty line is one empty fragment. */
  function Fragments(line: string, maxChars: nat, start: nat): (fragments: seq<string>)
    requires maxChars >= 1
    ensures start == 0 ==> fragments != []
    ensures forall i :: 0 <= i < |fragments| ==> |fragments[i]| <= maxChars
    decreases |line| + 1 - start
  {
    if start < |line| || start < 1 then
      var end := if start + maxChars < |line| then start + maxChars else |line|;
      [line[start..end]] + Fragments(line, maxChars, start + maxChars)
    else []
  }

  lemma ConcatOfMore(first: string, rest: seq<string>)
    ensures Concat([first] + rest) == first + Concat(rest)
  {
    assert ([first] + rest)[1..] == rest;
  }

  /** Put back together, the fragments of a line are the line. */
  lemma {:induction false} FragmentsRebuildTheLine(line: string, maxChars: nat, start: nat)
    requires maxChars >= 1 && start <= |line|
    ensures Concat(Fragments(line, maxChars, start)) == line[start..]
    decreases |line| + 1 - start
  {
    if start < |line| || start < 1 {
      var end := if start + maxChars < |line| then start + maxChars else |line|;
      var rest := Fragments(line, maxChars, start + maxChars);
      if start + maxChars <= |line| {
        FragmentsRebuildTheLine(line, maxChars, start + maxChars);
      }
      ConcatOfMore(line[start..end], rest);
      assert line[start..] == line[start..end] + line[end..];
    }
  }

  /** Every fragment of a line but its last is as long as the limit. */
  lemma {:induction false} FragmentsAreFull(line: string, maxChars: nat, start: nat, i: nat)
    requires maxChars >= 1 && i + 1 < |Fragments(line, maxChars, start)|
    ensures |Fragments(line, maxChars, start)[i]| == maxChars
    decreases i
  {
    if i > 0 {
      FragmentsAreFull(line, maxChars, start + maxChars, i - 1);
    }
  }

  /** The fragments of the lines from `from` on. */
  function AllFragments(lines: seq<string>, maxChars: nat, from: nat): (fragments: seq<string>)
    requires maxChars >= 1
    ensures forall i :: 0 <= i < |fragments| ==> |fragments[i]| <= maxChars
    ensures from < |lines| ==> fragments != []
    decreases |lines| - from
  {
    if from >= |lines| then [] else Fragments(lines[from], maxChars, 0) + AllFragments(lines, maxChars, from + 1)
  }

  /** No character of the lines is lost between them. */
  lemma {:induction false} AllFragmentsRebuildTheLines(lines: seq<string>, maxChars: nat, from: nat)
    requires maxChars >= 1 && from <= |lines|
    ensures Concat(AllFragments(lines, maxChars, from)) == Concat(lines[from..])
    decreases |lines| - from
  {
    if from < |lines| {
      AllFragmentsRebuildTheLines(lines, maxChars, from + 1);
      FragmentsRebuildTheLine(lines[from], maxChars, 0);
      ConcatAppend(Fragments(lines[from], maxChars, 0), AllFragments(lines, maxChars, from + 1));
      assert lines[from..][0] == lines[from] && lines[from..][1..] == lines[from + 1..];
      assert lines[from][0..] == lines[from];
    }
  }

  /** One row added to the text collected so far. */
  function Add(buffer: string, row: string): string {
    if buffer == "" then row else buffer + "\n" + row
  }

  /** The text of a piece: the header, then its rows. */
  function Render(header: string, rows: seq<string>): string {
    if rows == [] then header else Add(Render(header, rows[..|rows| - 1]), rows[|rows| - 1])
  }

  /** The rows of each piece, after `current` has been collected. */
  function Pieces(header: string, maxChars: nat, current: seq<string>, fragments: seq<string>): seq<seq<string>>
    decreases |fragments|
  {
    if fragments == [] then (if current == [] then [] else [current])
    else if current != [] && |Render(header, current)| + 1 + |fragments[0]| > maxChars then
      [current] + Pieces(header, maxChars, [fragments[0]], fragments[1..])
    else Pieces(header, maxChars, current + [fragments[0]], fragments[1..])
  }

  ghost predicate NoneEmpty(pieces: seq<seq<string>>) {
    forall i :: 0 <= i < |pieces| ==> pieces[i] != []
  }

  /** The pieces' rows are the fragments, in order, none lost or repeated; no piece is a bare header. */
  lemma {:induction false} PiecesKeepEveryFragment(
    header: string, maxChars: nat, current: seq<string>, fragments: seq<string>)
    ensures Concat(Pieces(header, maxChars, current, fragments)) == current + fragments
    ensures NoneEmpty(Pieces(header, maxChars, current, fragments))
    decreases |fragments|
  {
    if fragments == [] {
      assert Concat([current]) == current + [];
    } else if current != [] && |Render(header, current)| + 1 + |fragments[0]| > maxChars {
      var rest := Pieces(header, maxChars, [fragments[0]], fragments[1..]);
      PiecesKeepEveryFragment(header, maxChars, [fragments[0]], fragments[1..]);
      assert ([current] + rest)[1..] == rest;
      assert Concat([current] + rest) == current + Concat(rest);
      assert [fragments[0]] + fragments[1..] == fragments;
    } else {
      PiecesKeepEveryFragment(header, maxChars, current + [fragments[0]], fragments[1..]);
      assert (current + [fragments[0]]) + fragments[1..] == current + fragments;
    }
  }

  /** The next piece was begun because its first row did not fit this one. */
  ghost predicate IsFull(header: string, maxChars: nat, rows: seq<string>, next: seq<string>) {
    next != [] && |Render(header, rows)| + 1 + |next[0]| > maxChars
  }

  ghost predicate AllFull(header: string, maxChars: nat, pieces: seq<seq<string>>) {
    forall i :: 0 <= i < |pieces| - 1 ==> IsFull(header, maxChars, pieces[i], pieces[i + 1])
  }

  lemma {:induction false} PiecesAreFull(header: string, maxChars: nat, current: seq<string>, fragments: seq<string>)
    ensures var pieces := Pieces(header, maxChars, current, fragments);
      && AllFull(header, maxChars, pieces)
      && (current != [] ==> pieces != [] && current <= pieces[0])
      && (current == [] && fragments != [] ==> pieces != [] && pieces[0] != [] && pieces[0][0] == fragments[0])
    decreases |fragments|
  {
    if fragments != [] {
      if current != [] && |Render(header, current)| + 1 + |fragments[0]| > maxChars {
        var rest := Pieces(header, maxChars, [fragments[0]], fragments[1..]);
        PiecesAreFull(header, maxChars, [fragments[0]], fragments[1..]);
        var pieces := [current] + rest;
        assert rest[0][0] == fragments[0];
        forall i | 0 <= i < |pieces| - 1 ensures IsFull(header, maxChars, pieces[i], pieces[i + 1]) {
          if i > 0 {
            assert IsFull(header, maxChars, rest[i - 1], rest[i]);
          }
        }
      } else {
        PiecesAreFull(header, maxChars, current + [fragments[0]], fragments[1..]);
      }
    }
  }

  /** A piece is within the limit, unless it is one row behind a header. */
  ghost predicate PieceFits(header: string, maxChars: nat, rows: seq<string>) {
    |Render(header, rows)| <= maxChars || (header != "" && |rows| == 1 && |rows[0]| <= maxChars)
  }

  ghost predicate PiecesFit(header: string, maxChars: nat, pieces: seq<seq<string>>) {
    forall i :: 0 <= i < |pieces| ==> PieceFits(header, maxChars, pieces[i])
  }

  lemma {:induction false} PiecesStayWithinTheLimit(
    header: string, maxChars: nat, current: seq<string>, fragments: seq<string>)
    requires forall i :: 0 <= i < |fragments| ==> |fragments[i]| <= maxChars
    requires current != [] ==> PieceFits(header, maxChars, current)
    ensures PiecesFit(header, maxChars, Pieces(header, maxChars, current, fragments))
    decreases |fragments|
  {
    if fragments != [] {
      var row := fragments[0];
      assert [row][..0] == [] && Render(header, [row]) == Add(header, row);
      if current != [] && |Render(header, current)| + 1 + |row| > maxChars {
        PiecesStayWithinTheLimit(header, maxChars, [row], fragments[1..]);
      } else {
        assert (current + [row])[..|current|] == current;
        PiecesStayWithinTheLimit(header, maxChars, current + [row], fragments[1..]);
      }
    }
  }

  function HeaderText(paragraph: string, maxChars: nat): string {
    Join(HeaderOf(SplitLines(paragraph), maxChars), "\n")
  }

  /** The fragments that make up a paragraph, its repeated header aside. */
  function RowFragments(paragraph: string, maxChars: nat): seq<string>
    requires maxChars >= 1
  {
    var lines := SplitLines(paragraph);
    AllFragments(lines, maxChars, |HeaderOf(lines, maxChars)|)
  }

  /** The rows of each piece of a paragraph. */
  function RowsOf(paragraph: string, maxChars: nat): seq<seq<string>>
    requires maxChars >= 1
  {
    Pieces(HeaderText(paragraph, maxChars), maxChars, [], RowFragments(paragraph, maxChars))
  }

  function RenderAll(header: string, pieces: seq<seq<string>>): (texts: seq<string>)
    ensures |texts| == |pieces|
    ensures forall i :: 0 <= i < |pieces| ==> texts[i] == Render(header, pieces[i])
  {
    if pieces == [] then [] else [Render(header, pieces[0])] + RenderAll(header, pieces[1..])
  }

  function PiecesOf(paragraph: string, maxChars: nat): seq<string>
    requires maxChars >= 1
  {
    RenderAll(HeaderText(paragraph, maxChars), RowsOf(paragraph, maxChars))
  }

  function NonEmpty(lines: seq<string>): seq<string> {
    if lines == [] then []
    else if lines[0] == "" then NonEmpty(lines[1..])
    else [lines[0]] + NonEmpty(lines[1..])
  }

  lemma {:induction false} NonEmptyAppend(xs: seq<string>, ys: seq<string>)
    ensures NonEmpty(xs + ys) == NonEmpty(xs) + NonEmpty(ys)
  {
    if xs == [] {
      assert xs + ys == ys;
    } else {
      NonEmptyAppend(xs[1..], ys);
      assert (xs + ys)[1..] == xs[1..] + ys && (xs + ys)[0] == xs[0];
    }
  }

  /** With a header, a piece is the header and its rows on lines of their own. */
  lemma {:induction false} RenderUnderHeader(header: string, rows: seq<string>)
    requires header != ""
    ensures Render(header, rows) == Join([header] + rows, "\n")
    decreases |rows|
  {
    if rows != [] {
      var n := |rows| - 1;
      RenderUnderHeader(header, rows[..n]);
      assert [header] + rows == ([header] + rows[..n]) + [rows[n]];
      JoinAppend([header] + rows[..n], rows[n], "\n");
      assert |Render(header, rows[..n])| >= |header|;
    }
  }

  /** Without one, the rows from the first that is not empty. */
  function DropEmpty(rows: seq<string>): seq<string> {
    if rows != [] && rows[0] == "" then DropEmpty(rows[1..]) else rows
  }

  lemma {:induction false} DropEmptyAppend(rows: seq<string>, row: string)
    ensures DropEmpty(rows + [row]) == if DropEmpty(rows) == [] then DropEmpty([row]) else DropEmpty(rows) + [row]
    ensures NonEmpty(DropEmpty(rows)) == NonEmpty(rows)
    ensures DropEmpty(rows) != [] ==> DropEmpty(rows)[0] != ""
  {
    if rows == [] {
      assert rows + [row] == [row];
    } else if rows[0] == "" {
      assert (rows + [row])[1..] == rows[1..] + [row];
      DropEmptyAppend(rows[1..], row);
    }
  }

  lemma JoinStartsWith(rows: seq<string>)
    requires rows != [] && rows[0] != ""
    ensures Join(rows, "\n") != ""
  {
  }

  lemma {:induction false} RenderWithoutHeader(rows: seq<string>)
    ensures Render("", rows) == Join(DropEmpty(rows), "\n")
    decreases |rows|
  {
    if rows != [] {
      var n := |rows| - 1;
      var kept := DropEmpty(rows[..n]);
      RenderWithoutHeader(rows[..n]);
      DropEmptyAppend(rows[..n], rows[n]);
      assert rows[..n] + [rows[n]] == rows;
      if kept == [] {
        assert DropEmpty([rows[n]]) == if rows[n] == "" then [] else [rows[n]];
      } else {
        JoinAppend(kept, rows[n], "\n");
        JoinStartsWith(kept);
      }
    }
  }

  /** What is left of a piece once the repeated header is taken off. */
  function WithoutHeader(header: string, piece: string): string {
    if header == "" then piece
    else if |piece| > |header| then piece[|header| + 1..]
    else ""
  }

  lemma {:induction false} DropEmptyIsSuffix(rows: seq<string>)
    ensures |DropEmpty(rows)| <= |rows| && DropEmpty(rows) == rows[|rows| - |DropEmpty(rows)|..]
  {
    if rows != [] && rows[0] == "" {
      DropEmptyIsSuffix(rows[1..]);
    }
  }

  /** The non-empty lines of a piece, its header taken off, are exactly its non-empty rows. */
  lemma PieceShowsItsRows(header: string, rows: seq<string>)
    requires rows != [] && Unbroken(rows)
    ensures header <= Render(header, rows)
    ensures NonEmpty(SplitLines(WithoutHeader(header, Render(header, rows)))) == NonEmpty(rows)
  {
    if header == "" {
      RenderWithoutHeader(rows);
      var kept := DropEmpty(rows);
      DropEmptyAppend(rows, "");
      DropEmptyIsSuffix(rows);
      if kept == [] {
        assert SplitLines("") == [""];
        assert NonEmpty([""]) == [];
      } else {
        SplitOfJoin(kept);
      }
    } else {
      RenderUnderHeader(header, rows);
      assert ([header] + rows)[1..] == rows;
      var piece := Render(header, rows);
      assert piece == header + "\n" + Join(rows, "\n");
      assert WithoutHeader(header, piece) == Join(rows, "\n");
      SplitOfJoin(rows);
    }
  }

  /** The non-empty text of all pieces, their headers taken off. */
  function ShownRows(header: string, texts: seq<string>): seq<string> {
    if texts == [] then [] else NonEmpty(SplitLines(WithoutHeader(header, texts[0]))) + ShownRows(header, texts[1..])
  }

  lemma {:induction false} PiecesShowTheirRows(header: string, pieces: seq<seq<string>>)
    requires NoneEmpty(pieces) && AllUnbroken(pieces)
    ensures ShownRows(header, RenderAll(header, pieces)) == NonEmpty(Concat(pieces))
  {
    if pieces != [] {
      PieceShowsItsRows(header, pieces[0]);
      PiecesShowTheirRows(header, pieces[1..]);
      NonEmptyAppend(pieces[0], Concat(pieces[1..]));
    }
  }

  lemma {:induction false} FragmentsUnbroken(line: string, maxChars: nat, start: nat)
    requires maxChars >= 1 && '\n' !in line
    ensures Unbroken(Fragments(line, maxChars, start))
    decreases |line| + 1 - start
  {
    if start < |line| || start < 1 {
      FragmentsUnbroken(line, maxChars, start + maxChars);
    }
  }

  lemma {:induction false} AllFragmentsUnbroken(lines: seq<string>, maxChars: nat, from: nat)
    requires maxChars >= 1 && Unbroken(lines)
    ensures Unbroken(AllFragments(lines, maxChars, from))
    decreases |lines| - from
  {
    if from < |lines| {
      FragmentsUnbroken(lines[from], maxChars, 0);
      AllFragmentsUnbroken(lines, maxChars, from + 1);
    }
  }

  lemma {:induction false} PartsUnbroken(pieces: seq<seq<string>>)
    requires Unbroken(Concat(pieces))
    ensures AllUnbroken(pieces)
  {
    if pieces != [] {
      var all := Concat(pieces);
      assert forall k :: 0 <= k < |pieces[0]| ==> pieces[0][k] == all[k];
      assert forall k :: 0 <= k < |Concat(pieces[1..])| ==> Concat(pieces[1..])[k] == all[|pieces[0]| + k];
      PartsUnbroken(pieces[1..]);
    }
  }

  /** Losslessness: the headers taken off, what the pieces show is the paragraph's own text, in order. */
  lemma PiecesShowTheParagraph(paragraph: string, maxChars: nat)
    requires maxChars >= 1
    ensures ShownRows(HeaderText(paragraph, maxChars), PiecesOf(paragraph, maxChars)) ==
      NonEmpty(RowFragments(paragraph, maxChars))
  {
    var lines := SplitLines(paragraph);
    var header := HeaderText(paragraph, maxChars);
    var fragments := RowFragments(paragraph, maxChars);
    AllFragmentsUnbroken(lines, maxChars, |HeaderOf(lines, maxChars)|);
    PiecesKeepEveryFragment(header, maxChars, [], fragments);
    assert [] + fragments == fragments;
    PartsUnbroken(RowsOf(paragraph, maxChars));
    PiecesShowTheirRows(header, RowsOf(paragraph, maxChars));
  }

  lemma JoinOfTwo(lines: seq<string>)
    requires |lines| == 2
    ensures Join(lines, "\n") == lines[0] + "\n" + lines[1]
  {
    assert lines[1..] == [lines[1]];
  }

  /** A paragraph's pieces are filled: a new one begins only where the next row would take this one over the limit. */
  lemma PiecesAreFilled(paragraph: string, maxChars: nat, i: nat)
    requires maxChars >= 1 && i + 1 < |PiecesOf(paragraph, maxChars)|
    ensures RowsOf(paragraph, maxChars)[i + 1] != []
    ensures |PiecesOf(paragraph, maxChars)[i]| + 1 + |RowsOf(paragraph, maxChars)[i + 1][0]| > maxChars
  {
    var header := HeaderText(paragraph, maxChars);
    PiecesAreFull(header, maxChars, [], RowFragments(paragraph, maxChars));
    assert IsFull(header, maxChars, RowsOf(paragraph, maxChars)[i], RowsOf(paragraph, maxChars)[i + 1]);
  }

  /** An oversized paragraph always yields a piece. */
  lemma OversizedIsNeverDropped(paragraph: string, maxChars: nat)
    requires maxChars >= 1 && |paragraph| > maxChars
    ensures PiecesOf(paragraph, maxChars) != []
  {
    var lines := SplitLines(paragraph);
    JoinOfSplit(paragraph);
    if |lines| == 2 {
      JoinOfTwo(lines);
    }
    assert |HeaderOf(lines, maxChars)| < |lines|;
    PiecesKeepEveryFragment(HeaderText(paragraph, maxChars), maxChars, [], RowFragments(paragraph, maxChars));
  }

  /** A row of a table behind the table's repeated header: the one kind of piece over the limit. */
  ghost predicate TablePiece(paragraph: string, maxChars: nat, piece: string) {
    var lines := SplitLines(paragraph);
    && IsTable(lines)
    && (exists row :: piece == lines[0] + "\n" + lines[1] + "\n" + row && |row| <= maxChars)
    && 2 * |piece| < 3 * maxChars
  }

  lemma PiecesAreBounded(paragraph: string, maxChars: nat, i: nat)
    requires maxChars >= 1 && i < |PiecesOf(paragraph, maxChars)|
    ensures var piece := PiecesOf(paragraph, maxChars)[i];
      |piece| <= maxChars || TablePiece(paragraph, maxChars, piece)
  {
    var header := HeaderText(paragraph, maxChars);
    var rows := RowsOf(paragraph, maxChars)[i];
    PiecesStayWithinTheLimit(header, maxChars, [], RowFragments(paragraph, maxChars));
    assert PieceFits(header, maxChars, rows);
    if |Render(header, rows)| > maxChars {
      var lines := SplitLines(paragraph);
      JoinOfTwo(HeaderOf(lines, maxChars));
      assert header == lines[0] + "\n" + lines[1];
      assert rows[..0] == [];
      assert Render(header, rows) == Add(header, rows[0]);
      assert PiecesOf(paragraph, maxChars)[i] == lines[0] + "\n" + lines[1] + "\n" + rows[0];
    }
  }

  /** A piece over the limit is one row behind a header it does not fit with. */
  lemma OverlongPieceIsOneRow(paragraph: string, maxChars: nat, i: nat)
    requires maxChars >= 1 && i < |PiecesOf(paragraph, maxChars)| && |PiecesOf(paragraph, maxChars)[i]| > maxChars
    ensures var header, rows := HeaderText(paragraph, maxChars), RowsOf(paragraph, maxChars)[i];
      header != "" && |rows| == 1 && |header| + 1 + |rows[0]| > maxChars
  {
    var header := HeaderText(paragraph, maxChars);
    var rows := RowsOf(paragraph, maxChars)[i];
    PiecesStayWithinTheLimit(header, maxChars, [], RowFragments(paragraph, maxChars));
    assert PieceFits(header, maxChars, rows);
    assert rows[..0] == [];
    assert Render(header, rows) == Add(header, rows[0]);
  }

  lemma {:induction false} RenderHoldsHeader(header: string, rows: seq<string>)
    requires header != ""
    ensures |Render(header, rows)| >= |header| && Render(header, rows) != ""
    decreases |rows|
  {
    if rows != [] {
      RenderHoldsHeader(header, rows[..|rows| - 1]);
    }
  }

  lemma {:induction false} RenderHoldsRow(header: string, rows: seq<string>, j: nat)
    requires header != "" && j < |rows|
    ensures |Render(header, rows)| >= |header| + 1 + |rows[j]|
    decreases |rows|
  {
    var n := |rows| - 1;
    if j < n {
      RenderHoldsRow(header, rows[..n], j);
    } else {
      RenderHoldsHeader(header, rows[..n]);
    }
  }

  lemma {:induction false} FragmentsFit(line: string, maxChars: nat, start: nat, n: nat)
    requires maxChars >= 1 && n < |Fragments(line, maxChars, start)|
    ensures |Fragments(line, maxChars, start)[n]| <= |line|
    decreases |line| + 1 - start
  {
    if n > 0 {
      FragmentsFit(line, maxChars, start + maxChars, n - 1);
    }
  }

  /** A fragment is no longer than the line it is cut from. */
  lemma {:induction false} FragmentFitsItsLine(lines: seq<string>, maxChars: nat, from: nat, n: nat) returns (k: nat)
    requires maxChars >= 1 && n < |AllFragments(lines, maxChars, from)|
    ensures from <= k < |lines| && |AllFragments(lines, maxChars, from)[n]| <= |lines[k]|
    decreases |lines| - from
  {
    var own := Fragments(lines[from], maxChars, 0);
    if n < |own| {
      FragmentsFit(lines[from], maxChars, 0, n);
      k := from;
    } else {
      k := FragmentFitsItsLine(lines, maxChars, from + 1, n - |own|);
    }
  }

  /** Every line starts with a fragment as long as the line, or as the limit. */
  lemma {:induction false} LineHasLongFragment(lines: seq<string>, maxChars: nat, from: nat, k: nat) returns (n: nat)
    requires maxChars >= 1 && from <= k < |lines|
    ensures n < |AllFragments(lines, maxChars, from)|
    ensures |AllFragments(lines, maxChars, from)[n]| == if |lines[k]| < maxChars then |lines[k]| else maxChars
    decreases k - from
  {
    var own := Fragments(lines[from], maxChars, 0);
    if k == from {
      n := 0;
    } else {
      var rest := LineHasLongFragment(lines, maxChars, from + 1, k);
      n := |own| + rest;
    }
  }

  /** The paragraph is a table whose header is repeated, with a row that does not fit behind it. */
  predicate HasWideRow(paragraph: string, maxChars: nat) {
    var lines := SplitLines(paragraph);
    && HeaderOf(lines, maxChars) != []
    && exists k :: 2 <= k < |lines| && |lines[0]| + |lines[1]| + 2 + |lines[k]| > maxChars
  }

  lemma HeaderTextLength(paragraph: string, maxChars: nat)
    ensures var lines := SplitLines(paragraph);
      |HeaderText(paragraph, maxChars)| == if HeaderOf(lines, maxChars) == [] then 0 else |lines[0]| + 1 + |lines[1]|
  {
    var header := HeaderOf(SplitLines(paragraph), maxChars);
    if header != [] {
      JoinOfTwo(header);
    }
  }

  lemma WideRowOfPiece(paragraph: string, maxChars: nat, i: nat)
    requires maxChars >= 1 && i < |PiecesOf(paragraph, maxChars)| && |PiecesOf(paragraph, maxChars)[i]| > maxChars
    ensures HasWideRow(paragraph, maxChars)
  {
    var lines, fragments := SplitLines(paragraph), RowFragments(paragraph, maxChars);
    OverlongPieceIsOneRow(paragraph, maxChars, i);
    HeaderTextLength(paragraph, maxChars);
    PiecesKeepEveryFragment(HeaderText(paragraph, maxChars), maxChars, [], fragments);
    assert [] + fragments == fragments;
    var n := ConcatHas(RowsOf(paragraph, maxChars), i, 0);
    var k := FragmentFitsItsLine(lines, maxChars, |HeaderOf(lines, maxChars)|, n);
    assert 2 <= k < |lines| && |lines[0]| + |lines[1]| + 2 + |lines[k]| > maxChars;
  }

  lemma PieceOfWideRow(paragraph: string, maxChars: nat) returns (i: nat)
    requires maxChars >= 1 && HasWideRow(paragraph, maxChars)
    ensures i < |PiecesOf(paragraph, maxChars)| && |PiecesOf(paragraph, maxChars)[i]| > maxChars
  {
    var lines, fragments := SplitLines(paragraph), RowFragments(paragraph, maxChars);
    var header := HeaderText(paragraph, maxChars);
    HeaderTextLength(paragraph, maxChars);
    var k :| 2 <= k < |lines| && |lines[0]| + |lines[1]| + 2 + |lines[k]| > maxChars;
    var n := LineHasLongFragment(lines, maxChars, 2, k);
    PiecesKeepEveryFragment(header, maxChars, [], fragments);
    assert [] + fragments == fragments;
    var j;
    i, j := ConcatAt(RowsOf(paragraph, maxChars), n);
    RenderHoldsRow(header, RowsOf(paragraph, maxChars)[i], j);
  }

  /** Some piece is over the limit exactly when some row of a table does not fit behind the repeated header. */
  lemma PiecesExceedTheLimitIff(paragraph: string, maxChars: nat)
    requires maxChars >= 1
    ensures (exists i :: 0 <= i < |PiecesOf(paragraph, maxChars)| && |PiecesOf(paragraph, maxChars)[i]| > maxChars)
      <==> HasWideRow(paragraph, maxChars)
  {
    if HasWideRow(paragraph, maxChars) {
      var i := PieceOfWideRow(paragraph, maxChars);
    } else {
      forall i | 0 <= i < |PiecesOf(paragraph, maxChars)| ensures |PiecesOf(paragraph, maxChars)[i]| <= maxChars {
        if |PiecesOf(paragraph, maxChars)[i]| > maxChars {
          WideRowOfPiece(paragraph, maxChars, i);
        }
      }
    }
  }

  lemma JoinOfThree(lines: seq<string>)
    requires |lines| == 3
    ensures Join(lines, "\n") == lines[0] + "\n" + lines[1] + "\n" + lines[2]
  {
    JoinOfTwo(lines[1..]);
    assert Join(lines, "\n") == lines[0] + "\n" + (lines[1] + "\n" + lines[2]);
  }

  lemma OneFragment(lines: seq<string>, maxChars: nat)
    requires maxChars >= 1 && |lines| == 3 && |lines[2]| <= maxChars
    ensures AllFragments(lines, maxChars, 2) == [lines[2]]
  {
    var row := lines[2];
    assert row[0..|row|] == row;
    assert Fragments(row, maxChars, maxChars) == [];
    assert AllFragments(lines, maxChars, 3) == [];
  }

  lemma OnePiece(header: string, maxChars: nat, row: string)
    ensures RenderAll(header, Pieces(header, maxChars, [], [row])) == [Add(header, row)]
  {
    assert Pieces(header, maxChars, [row], []) == [[row]];
    assert [row][..0] == [];
    assert Render(header, [row]) == Add(header, row);
    assert RenderAll(header, []) == [];
  }

  /** A table of one row within the limit is never cut, however long its header makes it. */
  lemma OneRowTableStaysWhole(lines: seq<string>, paragraph: string, maxChars: nat)
    requires maxChars >= 1 && lines == SplitLines(paragraph)
    requires |lines| == 3 && |HeaderOf(lines, maxChars)| == 2 && |lines[2]| <= maxChars
    ensures PiecesOf(paragraph, maxChars) == [paragraph]
  {
    JoinOfSplit(paragraph);
    JoinOfThree(lines);
    JoinOfTwo(HeaderOf(lines, maxChars));
    OneFragment(lines, maxChars);
    OnePiece(HeaderText(paragraph, maxChars), maxChars, lines[2]);
  }

  lemma SmallTableIsTable(lines: seq<string>)
    requires |lines| >= 2 && lines[0] == "|a" && lines[1] == "---"
    ensures IsTable(lines)
  {
    assert forall k :: 0 <= k < 3 ==> lines[1][k] == '-';
    assert Run(lines[1], '-') == 3;
    assert lines[1][3..] == "";
  }

  /** So the limit itself is no bound: under any limit from 15 on, this table is one piece of seven more. */
  lemma TablePieceOverTheLimit(lines: seq<string>, table: string, row: string, maxChars: nat)
    requires maxChars >= 15 && |row| == maxChars && '\n' !in row
    requires lines == ["|a", "---", row] && table == Join(lines, "\n")
    ensures PiecesOf(table, maxChars) == [table] && |table| == maxChars + 7
  {
    JoinOfThree(lines);
    SplitOfJoin(lines);
    SmallTableIsTable(lines);
    OneRowTableStaysWhole(lines, table, maxChars);
  }

  /** The pieces still to come, from the text collected so far. */
  function Texts(header: string, maxChars: nat, buffer: string, hasRows: bool, fragments: seq<string>): seq<string>
    decreases |fragments|
  {
    if fragments == [] then (if hasRows then [buffer] else [])
    else if hasRows && |buffer| + 1 + |fragments[0]| > maxChars then
      [buffer] + Texts(header, maxChars, Add(header, fragments[0]), true, fragments[1..])
    else Texts(header, maxChars, Add(buffer, fragments[0]), true, fragments[1..])
  }

  lemma {:induction false} TextsAreRenderedPieces(
    header: string, maxChars: nat, current: seq<string>, fragments: seq<string>)
    ensures Texts(header, maxChars, Render(header, current), current != [], fragments) ==
      RenderAll(header, Pieces(header, maxChars, current, fragments))
    decreases |fragments|
  {
    if fragments != [] {
      var row := fragments[0];
      assert [row][..0] == [] && Render(header, [row]) == Add(header, row);
      if current != [] && |Render(header, current)| + 1 + |row| > maxChars {
        TextsAreRenderedPieces(header, maxChars, [row], fragments[1..]);
      } else {
        assert (current + [row])[..|current|] == current;
        TextsAreRenderedPieces(header, maxChars, current + [row], fragments[1..]);
      }
    }
  }

  /** The fragments still to come at character `start` of line `i`. */
  function Remaining(lines: seq<string>, maxChars: nat, i: nat, start: nat): seq<string>
    requires maxChars >= 1
    decreases |lines| - i, if i < |lines| then |lines[i]| + 1 - start else 0
  {
    if i >= |lines| then []
    else if start < |lines[i]| || start < 1 then
      var end := if start + maxChars < |lines[i]| then start + maxChars else |lines[i]|;
      [lines[i][start..end]] + Remaining(lines, maxChars, i, start + maxChars)
    else Remaining(lines, maxChars, i + 1, 0)
  }

  lemma {:induction false} RemainingFragments(lines: seq<string>, maxChars: nat, i: nat, start: nat)
    requires maxChars >= 1
    ensures i < |lines| ==>
      Remaining(lines, maxChars, i, start)
        == Fragments(lines[i], maxChars, start) + AllFragments(lines, maxChars, i + 1)
    ensures start == 0 ==> Remaining(lines, maxChars, i, 0) == AllFragments(lines, maxChars, i)
    decreases |lines| - i, if i < |lines| then |lines[i]| + 1 - start else 0
  {
    if i < |lines| {
      if start < |lines[i]| || start < 1 {
        RemainingFragments(lines, maxChars, i, start + maxChars);
        var end := if start + maxChars < |lines[i]| then start + maxChars else |lines[i]|;
        Associate([lines[i][start..end]], Fragments(lines[i], maxChars, start + maxChars),
          AllFragments(lines, maxChars, i + 1));
      } else {
        RemainingFragments(lines, maxChars, i + 1, 0);
        assert [] + AllFragments(lines, maxChars, i + 1) == AllFragments(lines, maxChars, i + 1);
      }
    }
  }

  lemma NextText(header: string, maxChars: nat, pieces: seq<string>, buffer: string, hasRows: bool, rest: seq<string>)
    requires rest != []
    ensures pieces + Texts(header, maxChars, buffer, hasRows, rest) ==
      if hasRows && |buffer| + 1 + |rest[0]| > maxChars
      then (pieces + [buffer]) + Texts(header, maxChars, Add(header, rest[0]), true, rest[1..])
      else pieces + Texts(header, maxChars, Add(buffer, rest[0]), true, rest[1..])
  {
  }

  /** One line's fragments, each below what is collected or in a new piece. */
  method SplitLine(
    lines: seq<string>, i: nat, headerText: string, maxChars: nat, pieces: seq<string>, buffer: string, hasRows: bool)
    returns (pieces': seq<string>, buffer': string, hasRows': bool)
    requires maxChars >= 1 && i < |lines|
    ensures pieces' + Texts(headerText, maxChars, buffer', hasRows', Remaining(lines, maxChars, i + 1, 0))
         == pieces + Texts(headerText, maxChars, buffer, hasRows, Remaining(lines, maxChars, i, 0))
  {
    pieces', buffer', hasRows' := pieces, buffer, hasRows;
    var line := lines[i];
    var start := 0;
    ghost var rest := Remaining(lines, maxChars, i, 0);
    ghost var all := pieces + Texts(headerText, maxChars, buffer, hasRows, rest);
    while start < |line| || start < 1
      invariant rest == Remaining(lines, maxChars, i, start)
      invariant all == pieces' + Texts(headerText, maxChars, buffer', hasRows', rest)
      decreases |line| + 1 - start
    {
      var end := if start + maxChars < |line| then start + maxChars else |line|;
      var piece := line[start..end];
      NextText(headerText, maxChars, pieces', buffer', hasRows', rest);
      if hasRows' && |buffer'| + 1 + |piece| > maxChars {
        pieces', buffer' := pieces' + [buffer'], headerText;
      }
      buffer' := if buffer' == "" then piece else buffer' + "\n" + piece;
      hasRows' := true;
      rest := rest[1..];
      start := start + maxChars;
    }
  }

  /** The loops of the split, under the header rows already chosen. */
  method SplitUnder(lines: seq<string>, first: nat, headerText: string, maxChars: nat) returns (pieces: seq<string>)
    requires maxChars >= 1 && first <= |lines|
    ensures pieces == Texts(headerText, maxChars, headerText, false, Remaining(lines, maxChars, first, 0))
  {
    pieces := [];
    var buffer := headerText;
    var hasRows := false;
    ghost var all := Texts(headerText, maxChars, headerText, false, Remaining(lines, maxChars, first, 0));
    for i := first to |lines|
      invariant all == pieces + Texts(headerText, maxChars, buffer, hasRows, Remaining(lines, maxChars, i, 0))
    {
      pieces, buffer, hasRows := SplitLine(lines, i, headerText, maxChars, pieces, buffer, hasRows);
    }
    if hasRows {
      pieces := pieces + [buffer];
    }
  }

  /** The pieces of a paragraph, filled line by line. */
  method Split(paragraph: string, maxChars: nat) returns (pieces: seq<string>)
    requires maxChars >= 1
    ensures pieces == PiecesOf(paragraph, maxChars)
  {
    var lines := SplitLines(paragraph);
    var header := HeaderOf(lines, maxChars);
    var headerText := Join(header, "\n");
    pieces := SplitUnder(lines, |header|, headerText, maxChars);
    RemainingFragments(lines, maxChars, |header|, 0);
    TextsAreRenderedPieces(headerText, maxChars, [], RowFragments(paragraph, maxChars));
  }
}
