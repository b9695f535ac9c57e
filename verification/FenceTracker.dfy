/** Fenced code blocks, followed line by line (section 4.5 of the CommonMark Spec). */
module Fences {
  import opened Text

  datatype Fence = Fence(mark: char, length: nat)

  /** Up to three spaces, then three or more backticks or tildes. */
  function Opening(line: string): Option<Fence> {
    var indent := Run(line, ' ');
    var rest := line[indent..];
    if indent <= 3 && rest != "" && rest[0] in {'`', '~'} && Run(rest, rest[0]) >= 3
    then Some(Fence(rest[0], Run(rest, rest[0])))
    else None
  }

  /** An opening with nothing but blanks behind it. */
  function Closing(line: string): Option<Fence> {
    var fence := Opening(line);
    if fence.Some? && AllBlank(line[Run(line, ' ') + fence.value.length..]) then fence else None
  }

  /** What the open fence is once `line` has been read. */
  function After(fence: Option<Fence>, line: string): Option<Fence> {
    match fence
    case Some(open) =>
      var close := Closing(line);
      if close.Some? && close.value.mark == open.mark && close.value.length >= open.length then None else fence
    case None => Opening(line)
  }

  /** Whether `line` opens, closes or sits inside a fence. */
  predicate Consumes(fence: Option<Fence>, line: string) {
    fence.Some? || Opening(line).Some?
  }

  function AfterAll(fence: Option<Fence>, lines: seq<string>): Option<Fence>
    decreases |lines|
  {
    if lines == [] then fence else AfterAll(After(fence, lines[0]), lines[1..])
  }

  lemma {:induction false} AfterAppend(fence: Option<Fence>, xs: seq<string>, ys: seq<string>)
    ensures AfterAll(fence, xs + ys) == AfterAll(AfterAll(fence, xs), ys)
    decreases |xs|
  {
    if xs == [] {
      assert xs + ys == ys;
    } else {
      AfterAppend(After(fence, xs[0]), xs[1..], ys);
      assert (xs + ys)[1..] == xs[1..] + ys;
    }
  }

  lemma AfterOneMore(fence: Option<Fence>, xs: seq<string>, line: string)
    ensures AfterAll(fence, xs + [line]) == After(AfterAll(fence, xs), line)
  {
    AfterAppend(fence, xs, [line]);
    assert AfterAll(AfterAll(fence, xs), [line]) == AfterAll(After(AfterAll(fence, xs), line), []);
  }

  lemma AfterLast(fence: Option<Fence>, lines: seq<string>)
    requires lines != []
    ensures AfterAll(fence, lines) == After(AfterAll(fence, lines[..|lines| - 1]), lines[|lines| - 1])
  {
    AfterOneMore(fence, lines[..|lines| - 1], lines[|lines| - 1]);
    assert lines[..|lines| - 1] + [lines[|lines| - 1]] == lines;
  }

  /** White space alone never opens a fence. */
  lemma SpaceOpensNothing(line: string)
    requires AllSpace(line)
    ensures Opening(line) == None
  {
    var indent := Run(line, ' ');
    if indent < |line| {
      assert IsSpace(line[indent]);
    }
  }

  lemma {:induction false} SpacesOpenNothing(lines: seq<string>)
    requires forall i :: 0 <= i < |lines| ==> AllSpace(lines[i])
    ensures AfterAll(None, lines) == None
  {
    if lines != [] {
      SpaceOpensNothing(lines[0]);
      SpacesOpenNothing(lines[1..]);
    }
  }

  /** `line` is `indent` spaces, `length` times `mark`, then `tail`. */
  ghost predicate IsFenceLine(line: string, indent: nat, mark: char, length: nat, tail: string) {
    && indent + length + |tail| == |line|
    && (forall i :: 0 <= i < indent ==> line[i] == ' ')
    && (forall i :: indent <= i < indent + length ==> line[i] == mark)
    && tail == line[indent + length..]
  }

  lemma FenceLineRuns(line: string, indent: nat, mark: char, length: nat, tail: string)
    requires IsFenceLine(line, indent, mark, length, tail)
    requires mark in {'`', '~'} && length > 0 && (tail != "" ==> tail[0] != mark)
    ensures Run(line, ' ') == indent && Run(line[indent..], mark) == length && line[indent] == mark
  {
    assert line[indent] == mark;
    var rest := line[indent..];
    assert forall i :: 0 <= i < length ==> rest[i] == line[indent + i];
    assert length < |rest| ==> rest[length] == tail[0];
  }

  ghost predicate ClosesAs(open: Fence, line: string, indent: nat, length: nat, tail: string) {
    IsFenceLine(line, indent, open.mark, length, tail) && indent <= 3 && open.length <= length && AllBlank(tail)
  }

  lemma ClosingIsFenceLine(open: Fence, line: string) returns (indent: nat, length: nat, tail: string)
    requires open.mark in {'`', '~'} && open.length >= 3 && After(Some(open), line) == None
    ensures ClosesAs(open, line, indent, length, tail)
  {
    indent := Run(line, ' ');
    length := Closing(line).value.length;
    tail := line[indent + length..];
    forall i | indent <= i < indent + length ensures line[i] == open.mark {
      assert line[i] == line[indent..][i - indent];
    }
  }

  lemma FenceLineCloses(open: Fence, line: string, indent: nat, length: nat, tail: string)
    requires open.mark in {'`', '~'} && open.length >= 3 && ClosesAs(open, line, indent, length, tail)
    ensures After(Some(open), line) == None
  {
    FenceLineRuns(line, indent, open.mark, length, tail);
    assert line[indent..][0] == open.mark;
    assert Opening(line) == Some(Fence(open.mark, length));
    assert Closing(line) == Some(Fence(open.mark, length));
  }

  /** An open fence closes exactly on its own mark, at least as long, with only blanks behind it. */
  lemma ClosesOnlyOnItsOwn(open: Fence, line: string)
    requires open.mark in {'`', '~'} && open.length >= 3
    ensures After(Some(open), line) == None <==>
      exists indent: nat, length: nat, tail: string :: ClosesAs(open, line, indent, length, tail)
  {
    if After(Some(open), line) == None {
      var indent, length, tail := ClosingIsFenceLine(open, line);
    }
    if indent: nat, length: nat, tail: string :| ClosesAs(open, line, indent, length, tail) {
      FenceLineCloses(open, line, indent, length, tail);
    }
  }

  ghost predicate OpensAs(fence: Fence, line: string, indent: nat, tail: string) {
    && IsFenceLine(line, indent, fence.mark, fence.length, tail) && indent <= 3
    && fence.mark in {'`', '~'} && fence.length >= 3 && (tail != "" ==> tail[0] != fence.mark)
  }

  /** Outside a fence one opens exactly on up to three spaces and a run of three or more of one mark, whatever
      follows; its length is the whole run's. */
  lemma OpensOnThreeMarks(fence: Fence, line: string)
    ensures After(None, line) == Some(fence) <==> exists indent: nat, tail: string :: OpensAs(fence, line, indent, tail)
  {
    if After(None, line) == Some(fence) {
      var indent := Run(line, ' ');
      forall i | indent <= i < indent + fence.length ensures line[i] == fence.mark {
        assert line[i] == line[indent..][i - indent];
      }
      var tail := line[indent + fence.length..];
      assert tail != "" ==> tail[0] == line[indent..][fence.length];
      assert OpensAs(fence, line, indent, tail);
    }
    if indent: nat, tail: string :| OpensAs(fence, line, indent, tail) {
      FenceLineRuns(line, indent, fence.mark, fence.length, tail);
      assert line[indent..][0] == fence.mark;
    }
  }

  class FenceTracker {
    var fence: Option<Fence>

    constructor ()
      ensures fence == None
    {
      fence := None;
    }

    predicate Inside()
      reads this
    {
      fence.Some?
    }

    method Consume(line: string) returns (consumed: bool)
      modifies this
      ensures fence == After(old(fence), line)
      ensures consumed == Consumes(old(fence), line)
    {
      if fence.Some? {
        var close := Closing(line);
        if close.Some? && close.value.mark == fence.value.mark && close.value.length >= fence.value.length {
          fence := None;
        }
        return true;
      }
      var open := Opening(line);
      if open.Some? {
        fence := open;
        return true;
      }
      return false;
    }
  }
}
