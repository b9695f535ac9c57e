/** From a section's lines to its stored parts: no text is lost or repeated but headers and overlaps. */
module Losslessness {
  import opened Text
  import opened Fences
  import opened Sections
  import opened Paragraphs
  import HardSplit
  import opened Packing
  import opened Chunker

  lemma InkOfTrimmed(s: string)
    ensures Ink(TrimEnd(s)) == Ink(s)
  {
    var kept := TrimEnd(s);
    InkAppend(kept, s[|kept|..]);
    assert kept + s[|kept|..] == s;
    NoInkInSpace(s[|kept|..]);
  }

  lemma {:induction false} InkOfBlankLines(lines: seq<string>)
    requires forall i :: 0 <= i < |lines| ==> AllSpace(lines[i])
    ensures Ink(Concat(lines)) == ""
  {
    if lines != [] {
      InkOfBlankLines(lines[1..]);
      InkAppend(lines[0], Concat(lines[1..]));
      NoInkInSpace(lines[0]);
    }
  }

  lemma InkAfterBlankLines(lines: seq<string>, n: nat)
    requires n <= |lines| && forall i :: 0 <= i < n ==> AllSpace(lines[i])
    ensures Ink(Concat(lines[n..])) == Ink(Concat(lines))
  {
    ConcatAppend(lines[..n], lines[n..]);
    assert lines[..n] + lines[n..] == lines;
    InkAppend(Concat(lines[..n]), Concat(lines[n..]));
    InkOfBlankLines(lines[..n]);
  }

  /** A body has the text of its section's lines. */
  lemma InkOfBody(lines: seq<string>)
    requires lines != []
    ensures Ink(BodyOf(lines)) == Ink(Concat(lines))
  {
    var n := LeadingBlankLines(lines);
    InkOfTrimmed(Join(lines[n..], "\n"));
    InkOfJoin(lines[n..]);
    InkAfterBlankLines(lines, n);
  }

  /** A line that separates paragraphs has none. */
  lemma {:induction false} InkOfKept(rules: Rules, fence: Option<Fence>, lines: seq<string>)
    requires rules.Sound()
    ensures Ink(Concat(Kept(rules, fence, lines))) == Ink(Concat(lines))
    decreases |lines|
  {
    if lines != [] {
      var line, rest := lines[0], lines[1..];
      InkAppend(line, Concat(rest));
      if Separates(rules, fence, line) {
        NoInkInSpace(line);
        InkOfKept(rules, fence, rest);
      } else {
        var kept := Kept(rules, After(fence, line), rest);
        InkOfKept(rules, After(fence, line), rest);
        assert ([line] + kept)[1..] == kept;
        InkAppend(line, Concat(kept));
      }
    }
  }

  lemma {:induction false} InkOfBlocks(blocks: seq<seq<string>>)
    ensures Ink(Concat(Map(JoinBlock, blocks))) == Ink(Concat(Concat(blocks)))
  {
    if blocks != [] {
      var first, rest := blocks[0], blocks[1..];
      InkOfBlocks(rest);
      InkOfJoin(first);
      var texts := Map(JoinBlock, blocks);
      assert texts[0] == JoinBlock(first) && texts[1..] == Map(JoinBlock, rest);
      InkAppend(JoinBlock(first), Concat(Map(JoinBlock, rest)));
      ConcatAppend(first, Concat(rest));
      InkAppend(Concat(first), Concat(Concat(rest)));
    }
  }

  /** The paragraphs of a body have its text. */
  lemma InkOfParagraphs(rules: Rules, body: string)
    requires rules.Sound()
    ensures Ink(Concat(ParagraphsOf(rules, body))) == Ink(body)
  {
    var lines := SplitLines(body);
    var blocks := Blocks(rules, None, [], lines);
    InkOfBlocks(blocks);
    BlocksKeepEveryLine(rules, None, [], lines);
    assert [] + Kept(rules, None, lines) == Kept(rules, None, lines);
    InkOfKept(rules, None, lines);
    InkOfJoin(lines);
    JoinOfSplit(body);
  }

  lemma {:induction false} NonEmptyKeepsText(lines: seq<string>)
    ensures Concat(HardSplit.NonEmpty(lines)) == Concat(lines)
  {
    if lines != [] {
      NonEmptyKeepsText(lines[1..]);
      if lines[0] == "" {
        assert Concat(lines) == "" + Concat(lines[1..]);
      } else {
        var rest := HardSplit.NonEmpty(lines[1..]);
        assert ([lines[0]] + rest)[1..] == rest;
      }
    }
  }

  /** What the pieces of one paragraph say: the paragraph itself, or its header once and what each piece shows
      below it. */
  function Shown(paragraph: string, pieces: seq<string>, maxChars: nat): seq<string> {
    if |paragraph| <= maxChars then pieces
    else
      var header := HardSplit.HeaderText(paragraph, maxChars);
      [header] + HardSplit.ShownRows(header, pieces)
  }

  function AllShown(paragraphs: seq<string>, lists: seq<seq<string>>, maxChars: nat): seq<string>
    requires |paragraphs| == |lists|
  {
    if paragraphs == [] then []
    else Shown(paragraphs[0], lists[0], maxChars) + AllShown(paragraphs[1..], lists[1..], maxChars)
  }

  lemma InkOfSplit(paragraph: string, maxChars: nat)
    requires maxChars >= 1
    ensures Ink(HardSplit.HeaderText(paragraph, maxChars)) + Ink(Concat(HardSplit.RowFragments(paragraph, maxChars)))
         == Ink(paragraph)
  {
    var lines := SplitLines(paragraph);
    var head := HardSplit.HeaderOf(lines, maxChars);
    var rest := lines[|head|..];
    InkOfJoin(head);
    HardSplit.AllFragmentsRebuildTheLines(lines, maxChars, |head|);
    ConcatAppend(head, rest);
    assert head + rest == lines;
    InkAppend(Concat(head), Concat(rest));
    InkOfJoin(lines);
    JoinOfSplit(paragraph);
  }

  lemma InkOfOne(paragraph: string)
    ensures Ink(Concat([paragraph])) == Ink(paragraph)
  {
    ConcatOne([], paragraph);
    assert [] + [paragraph] == [paragraph] && "" + paragraph == paragraph;
  }

  lemma InkOfPieces(paragraph: string, maxChars: nat)
    requires maxChars >= 1
    ensures Ink(Concat(Shown(paragraph, PiecesOrWhole(paragraph, maxChars), maxChars))) == Ink(paragraph)
  {
    if |paragraph| <= maxChars {
      InkOfOne(paragraph);
    } else {
      var header, fragments := HardSplit.HeaderText(paragraph, maxChars), HardSplit.RowFragments(paragraph, maxChars);
      var rows := HardSplit.NonEmpty(fragments);
      HardSplit.PiecesShowTheParagraph(paragraph, maxChars);
      ConcatAppend([header], rows);
      InkAppend(Concat([header]), Concat(rows));
      InkOfOne(header);
      NonEmptyKeepsText(fragments);
      InkOfSplit(paragraph, maxChars);
    }
  }

  lemma {:induction false} InkOfAllPieces(paragraphs: seq<string>, lists: seq<seq<string>>, maxChars: nat)
    requires maxChars >= 1 && |lists| == |paragraphs|
    requires forall i :: 0 <= i < |paragraphs| ==> lists[i] == PiecesOrWhole(paragraphs[i], maxChars)
    ensures Ink(Concat(AllShown(paragraphs, lists, maxChars))) == Ink(Concat(paragraphs))
  {
    if paragraphs != [] {
      var first, rest := Shown(paragraphs[0], lists[0], maxChars), AllShown(paragraphs[1..], lists[1..], maxChars);
      InkOfAllPieces(paragraphs[1..], lists[1..], maxChars);
      InkOfPieces(paragraphs[0], maxChars);
      ConcatAppend(first, rest);
      InkAppend(Concat(first), Concat(rest));
      InkAppend(paragraphs[0], Concat(paragraphs[1..]));
    }
  }

  /** What is new in the parts of a section, table headers counted once, has exactly the section's text, white
      space aside; every part repeats only the end of the one before. */
  lemma SectionTextIsKept(rules: Rules, lines: seq<string>, maxChars: nat, overlapChars: nat)
    requires rules.Sound() && lines != [] && maxChars >= 1
    ensures var body := BodyOf(lines);
      var paragraphs := ParagraphsOf(rules, body);
      var lists, parts := PieceLists(paragraphs, maxChars), PartsOf(rules, body, maxChars, overlapChars);
      if |body| <= maxChars
      then SplitOf(rules, body, maxChars, overlapChars) == [body] && Ink(body) == Ink(Concat(lines))
      else
        && SplitOf(rules, body, maxChars, overlapChars) == Map(PartText, parts)
        && Lossless(parts, Concat(lists), maxChars, overlapChars)
        && Ink(Concat(AllShown(paragraphs, lists, maxChars))) == Ink(Concat(lines))
  {
    var body := BodyOf(lines);
    InkOfBody(lines);
    if |body| > maxChars {
      SplitIsLossless(rules, body, maxChars, overlapChars);
      InkOfParagraphs(rules, body);
      var paragraphs := ParagraphsOf(rules, body);
      InkOfAllPieces(paragraphs, PieceLists(paragraphs, maxChars), maxChars);
    }
  }
}
