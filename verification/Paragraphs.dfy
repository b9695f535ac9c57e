/** The body of a section, and the paragraphs a long one is cut into. */
module Paragraphs {
  import opened Text
  import opened Fences
  import opened Sections

  /** The leading lines of white space taken off; the last line stays. */
  function LeadingBlankLines(lines: seq<string>): (n: nat)
    requires lines != []
    ensures n < |lines|
    ensures forall i :: 0 <= i < n ==> AllBlank(lines[i])
    decreases |lines|
  {
    if |lines| > 1 && AllBlank(lines[0]) then 1 + LeadingBlankLines(lines[1..]) else 0
  }

  /** A section's lines as its body: joined, without leading blank lines or trailing white space. */
  function BodyOf(lines: seq<string>): string {
    if lines == [] then "" else TrimEnd(Join(lines[LeadingBlankLines(lines)..], "\n"))
  }

  /** A prefix of a join breaks into the same lines, the last one possibly shortened. */
  lemma {:induction false} LinesOfPrefix(lines: seq<string>, text: string)
    requires lines != [] && forall i :: 0 <= i < |lines| ==> '\n' !in lines[i]
    requires text <= Join(lines, "\n")
    ensures var kept := SplitLines(text);
      && |kept| <= |lines|
      && (forall i :: 0 <= i < |kept| - 1 ==> kept[i] == lines[i])
      && kept[|kept| - 1] <= lines[|kept| - 1]
    decreases |lines|
  {
    var line := lines[0];
    if |text| <= |line| {
      assert text == Join(lines, "\n")[..|text|] == line[..|text|];
      SplitWithoutBreak(text);
    } else {
      var rest := Join(lines[1..], "\n");
      assert Join(lines, "\n") == line + "\n" + rest;
      var tail := text[|line| + 1..];
      assert text == line + "\n" + tail;
      assert tail <= rest by {
        assert tail == Join(lines, "\n")[..|text|][|line| + 1..];
      }
      LinesOfPrefix(lines[1..], tail);
      SplitAtBreak(line, tail);
    }
  }

  /** `body` is `lines` with the first ones skipped and the last ones cut off, mid-line perhaps. */
  ghost predicate CutFrom(body: seq<string>, lines: seq<string>, skipped: nat) {
    && 0 < |body| <= |lines| - skipped
    && (forall i :: 0 <= i < skipped ==> AllBlank(lines[i]))
    && (forall i :: 0 <= i < |body| - 1 ==> body[i] == lines[skipped + i])
    && body[|body| - 1] <= lines[skipped + |body| - 1]
  }

  lemma CutLine(body: seq<string>, lines: seq<string>, skipped: nat, k: nat)
    requires CutFrom(body, lines, skipped) && k < |body|
    ensures body[k] <= lines[skipped + k]
  {
  }

  lemma CutOfRest(body: seq<string>, lines: seq<string>, skipped: nat)
    requires skipped <= |lines| && forall i :: 0 <= i < skipped ==> AllBlank(lines[i])
    requires var rest := lines[skipped..];
      && 0 < |body| <= |rest| && (forall i :: 0 <= i < |body| - 1 ==> body[i] == rest[i])
      && body[|body| - 1] <= rest[|body| - 1]
    ensures CutFrom(body, lines, skipped)
  {
  }

  lemma BodyIsCutFrom(lines: seq<string>)
    requires lines != [] && Unbroken(lines)
    ensures CutFrom(SplitLines(BodyOf(lines)), lines, LeadingBlankLines(lines))
  {
    var skipped := LeadingBlankLines(lines);
    var rest := lines[skipped..];
    assert rest != [] && forall i :: 0 <= i < |rest| ==> '\n' !in rest[i] by {
      assert forall i :: 0 <= i < |rest| ==> rest[i] == lines[skipped + i];
    }
    var text := TrimEnd(Join(rest, "\n"));
    LinesOfPrefix(rest, text);
    CutOfRest(SplitLines(text), lines, skipped);
  }

  /** Before every line of the body, its fence state is the one the section had there. */
  lemma BodyFenceAgrees(lines: seq<string>, body: seq<string>, skipped: nat, k: nat)
    requires CutFrom(body, lines, skipped) && k < |body|
    ensures AfterAll(None, body[..k]) == AfterAll(None, lines[..skipped + k])
  {
    var rest := lines[skipped..skipped + k];
    assert body[..k] == rest;
    assert lines[..skipped + k] == lines[..skipped] + rest;
    SpacesOpenNothing(lines[..skipped]);
    AfterAppend(None, lines[..skipped], rest);
  }

  /** A line that separates paragraphs: empty, and outside a fence. */
  predicate Separates(rules: Rules, fence: Option<Fence>, line: string) {
    fence.None? && !rules.notEmpty(line)
  }

  function Flush(buffer: seq<string>): seq<seq<string>> {
    if buffer == [] then [] else [buffer]
  }

  /** The lines of each paragraph, after `buffer` has been collected. */
  function Blocks(rules: Rules, fence: Option<Fence>, buffer: seq<string>, lines: seq<string>): seq<seq<string>>
    decreases |lines|
  {
    if lines == [] then Flush(buffer)
    else if Separates(rules, fence, lines[0]) then Flush(buffer) + Blocks(rules, fence, [], lines[1..])
    else Blocks(rules, After(fence, lines[0]), buffer + [lines[0]], lines[1..])
  }

  /** The lines that are not separators. */
  function Kept(rules: Rules, fence: Option<Fence>, lines: seq<string>): seq<string>
    decreases |lines|
  {
    if lines == [] then []
    else if Separates(rules, fence, lines[0]) then Kept(rules, fence, lines[1..])
    else [lines[0]] + Kept(rules, After(fence, lines[0]), lines[1..])
  }

  /** Cutting drops separators and nothing else: empty lines inside a fence stay. */
  lemma {:induction false} BlocksKeepEveryLine(
    rules: Rules, fence: Option<Fence>, buffer: seq<string>, lines: seq<string>)
    ensures Concat(Blocks(rules, fence, buffer, lines)) == buffer + Kept(rules, fence, lines)
    ensures forall i :: 0 <= i < |Blocks(rules, fence, buffer, lines)| ==> Blocks(rules, fence, buffer, lines)[i] != []
    decreases |lines|
  {
    if lines == [] {
      assert Concat(Flush(buffer)) == buffer + [];
    } else if Separates(rules, fence, lines[0]) {
      BlocksKeepEveryLine(rules, fence, [], lines[1..]);
      ConcatAppend(Flush(buffer), Blocks(rules, fence, [], lines[1..]));
      assert Concat(Flush(buffer)) == buffer;
    } else {
      BlocksKeepEveryLine(rules, After(fence, lines[0]), buffer + [lines[0]], lines[1..]);
      assert buffer + ([lines[0]] + Kept(rules, After(fence, lines[0]), lines[1..])) ==
        (buffer + [lines[0]]) + Kept(rules, After(fence, lines[0]), lines[1..]);
    }
  }

  /** Line `i` is empty and outside any fence. */
  predicate SeparatesAt(rules: Rules, lines: seq<string>, i: nat)
    requires i < |lines|
  {
    AfterAll(None, lines[..i]) == None && !rules.notEmpty(lines[i])
  }

  ghost predicate NoneSeparates(rules: Rules, lines: seq<string>, start: nat, end: nat)
    requires end <= |lines|
  {
    forall i :: start <= i < end ==> !SeparatesAt(rules, lines, i)
  }

  /** Lines without a separator, as many as there are in a row. */
  ghost predicate IsMaximalRun(rules: Rules, lines: seq<string>, start: nat, end: nat) {
    && start < end <= |lines| && NoneSeparates(rules, lines, start, end)
    && (start > 0 ==> SeparatesAt(rules, lines, start - 1)) && (end < |lines| ==> SeparatesAt(rules, lines, end))
  }

  /** `buffer` are the lines from `start` to `k`, and what is collected of the next paragraph. */
  ghost predicate Collects(rules: Rules, lines: seq<string>, start: nat, k: nat, buffer: seq<string>) {
    && start <= k <= |lines| && buffer == lines[start..k] && NoneSeparates(rules, lines, start, k)
    && (start > 0 ==> SeparatesAt(rules, lines, start - 1))
  }

  lemma CollectsMore(rules: Rules, lines: seq<string>, start: nat, k: nat, buffer: seq<string>)
    requires Collects(rules, lines, start, k, buffer) && k < |lines|
    ensures if SeparatesAt(rules, lines, k) then Collects(rules, lines, k + 1, k + 1, [])
            else Collects(rules, lines, start, k + 1, buffer + [lines[k]])
  {
  }

  lemma FenceOneMore(lines: seq<string>, k: nat)
    requires k < |lines|
    ensures AfterAll(None, lines[..k + 1]) == After(AfterAll(None, lines[..k]), lines[k])
  {
    assert lines[..k + 1] == lines[..k] + [lines[k]];
    AfterOneMore(None, lines[..k], lines[k]);
  }

  lemma {:induction false} BlocksAreRuns(
    rules: Rules, lines: seq<string>, start: nat, k: nat, buffer: seq<string>, fence: Option<Fence>, rest: seq<string>,
    p: nat)
    returns (s: nat, e: nat)
    requires rules.Sound() && Collects(rules, lines, start, k, buffer)
    requires fence == AfterAll(None, lines[..k]) && rest == lines[k..] && p < |Blocks(rules, fence, buffer, rest)|
    ensures IsMaximalRun(rules, lines, s, e) && Blocks(rules, fence, buffer, rest)[p] == lines[s..e]
    decreases |rest|
  {
    if rest == [] {
      return start, k;
    }
    CollectsMore(rules, lines, start, k, buffer);
    FenceOneMore(lines, k);
    assert rest[1..] == lines[k + 1..] && rest[0] == lines[k];
    if !Separates(rules, fence, lines[k]) {
      s, e := BlocksAreRuns(rules, lines, start, k + 1, buffer + [lines[k]], After(fence, lines[k]), rest[1..], p);
    } else if buffer != [] && p == 0 {
      s, e := start, k;
    } else {
      SpaceOpensNothing(lines[k]);
      s, e := BlocksAreRuns(rules, lines, k + 1, k + 1, [], None, rest[1..], p - |Flush(buffer)|);
    }
  }

  /** A paragraph is a longest run of lines without an empty one outside a fence. */
  lemma ParagraphsAreMaximalRuns(rules: Rules, lines: seq<string>, p: nat) returns (s: nat, e: nat)
    requires rules.Sound() && p < |Blocks(rules, None, [], lines)|
    ensures IsMaximalRun(rules, lines, s, e) && Blocks(rules, None, [], lines)[p] == lines[s..e]
  {
    assert lines[..0] == [] && lines[0..0] == [] && lines[0..] == lines;
    s, e := BlocksAreRuns(rules, lines, 0, 0, [], None, lines, p);
  }

  ghost predicate AllButLastEndOutside(blocks: seq<seq<string>>) {
    forall i :: 0 <= i < |blocks| - 1 ==> AfterAll(None, blocks[i]) == None
  }

  /** Every paragraph but the last ends outside any fence: no cut falls inside one. */
  lemma {:induction false} BlocksCutOutsideFences(
    rules: Rules, fence: Option<Fence>, buffer: seq<string>, lines: seq<string>)
    requires AfterAll(None, buffer) == fence
    ensures AllButLastEndOutside(Blocks(rules, fence, buffer, lines))
    decreases |lines|
  {
    if lines != [] {
      if Separates(rules, fence, lines[0]) {
        BlocksCutOutsideFences(rules, fence, [], lines[1..]);
        var rest := Blocks(rules, fence, [], lines[1..]);
        assert AllButLastEndOutside(rest);
        assert AllButLastEndOutside(Flush(buffer) + rest);
      } else {
        AfterOneMore(None, buffer, lines[0]);
        BlocksCutOutsideFences(rules, After(fence, lines[0]), buffer + [lines[0]], lines[1..]);
      }
    }
  }

  /** A separator changes no fence, so the state the cut sees is the state of the whole text so far. */
  lemma {:induction false} KeptFence(rules: Rules, fence: Option<Fence>, lines: seq<string>)
    requires rules.Sound()
    ensures AfterAll(fence, Kept(rules, fence, lines)) == AfterAll(fence, lines)
    decreases |lines|
  {
    if lines != [] {
      if Separates(rules, fence, lines[0]) {
        SpaceOpensNothing(lines[0]);
        KeptFence(rules, fence, lines[1..]);
      } else {
        KeptFence(rules, After(fence, lines[0]), lines[1..]);
        assert ([lines[0]] + Kept(rules, After(fence, lines[0]), lines[1..]))[1..] ==
          Kept(rules, After(fence, lines[0]), lines[1..]);
      }
    }
  }

  function JoinBlock(block: seq<string>): string {
    Join(block, "\n")
  }

  /** The paragraphs of a body. */
  function ParagraphsOf(rules: Rules, body: string): seq<string> {
    Map(JoinBlock, Blocks(rules, None, [], SplitLines(body)))
  }

  lemma {:induction false} BlockLinesAreLines(
    rules: Rules, fence: Option<Fence>, buffer: seq<string>, lines: seq<string>)
    requires Unbroken(buffer) && Unbroken(lines)
    ensures AllUnbroken(Blocks(rules, fence, buffer, lines))
    decreases |lines|
  {
    if lines != [] {
      if Separates(rules, fence, lines[0]) {
        BlockLinesAreLines(rules, fence, [], lines[1..]);
        var rest := Blocks(rules, fence, [], lines[1..]);
        assert AllUnbroken(Flush(buffer) + rest);
      } else {
        BlockLinesAreLines(rules, After(fence, lines[0]), buffer + [lines[0]], lines[1..]);
      }
    }
  }

  /** A paragraph breaks back into exactly the lines collected for it. */
  lemma ParagraphLines(rules: Rules, body: string, i: nat)
    requires i < |ParagraphsOf(rules, body)|
    ensures SplitLines(ParagraphsOf(rules, body)[i]) == Blocks(rules, None, [], SplitLines(body))[i]
  {
    var lines := SplitLines(body);
    var blocks := Blocks(rules, None, [], lines);
    BlocksKeepEveryLine(rules, None, [], lines);
    BlockLinesAreLines(rules, None, [], lines);
    SplitOfJoin(blocks[i]);
  }

  /** The paragraphs themselves, one line at a time. */
  function TextsOf(rules: Rules, fence: Option<Fence>, buffer: seq<string>, lines: seq<string>): seq<string>
    decreases |lines|
  {
    var flushed := if buffer == [] then [] else [Join(buffer, "\n")];
    if lines == [] then flushed
    else if Separates(rules, fence, lines[0]) then flushed + TextsOf(rules, fence, [], lines[1..])
    else TextsOf(rules, After(fence, lines[0]), buffer + [lines[0]], lines[1..])
  }

  lemma {:induction false} TextsAreBlocks(rules: Rules, fence: Option<Fence>, buffer: seq<string>, lines: seq<string>)
    ensures TextsOf(rules, fence, buffer, lines) == Map(JoinBlock, Blocks(rules, fence, buffer, lines))
    decreases |lines|
  {
    assert Map(JoinBlock, []) == [];
    assert Map(JoinBlock, [buffer]) == [JoinBlock(buffer)];
    if lines != [] {
      if Separates(rules, fence, lines[0]) {
        TextsAreBlocks(rules, fence, [], lines[1..]);
        MapAppend(JoinBlock, Flush(buffer), Blocks(rules, fence, [], lines[1..]));
      } else {
        TextsAreBlocks(rules, After(fence, lines[0]), buffer + [lines[0]], lines[1..]);
      }
    }
  }

  /** Blank-line separated blocks, cut as `ParagraphsOf` says. */
  method CutParagraphs(rules: Rules, body: string) returns (paragraphs: seq<string>)
    ensures paragraphs == ParagraphsOf(rules, body)
  {
    var fences := new FenceTracker();
    paragraphs := [];
    var buffer: seq<string> := [];
    var lines := SplitLines(body);
    ghost var all := TextsOf(rules, None, [], lines);
    for i := 0 to |lines|
      invariant fresh(fences)
      invariant all == paragraphs + TextsOf(rules, fences.fence, buffer, lines[i..])
    {
      var line := lines[i];
      assert lines[i..][0] == line && lines[i..][1..] == lines[i + 1..];
      if !fences.Inside() && !rules.notEmpty(line) {
        if buffer != [] {
          paragraphs := paragraphs + [Join(buffer, "\n")];
          buffer := [];
        }
        continue;
      }
      var _ := fences.Consume(line);
      buffer := buffer + [line];
    }
    if buffer != [] {
      paragraphs := paragraphs + [Join(buffer, "\n")];
    }
    TextsAreBlocks(rules, None, [], lines);
  }
}
