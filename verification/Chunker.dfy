/** The chunker: sections, bodies, parts and the chunks made of them. */
module Chunker {
  import opened Text
  import opened Fences
  import opened Slugs
  import opened Sections
  import opened Paragraphs
  import opened Packing
  import HardSplit

  datatype Chunk = Chunk(ord: nat, heading: string, anchor: string, body: string, hash: string)

  datatype Options = Options(externalId: string, title: Option<string>, mode: Mode, maxChars: nat, overlapChars: nat)

  const HEADING_SEPARATOR := " › "

  /** Heading path and body in one text. */
  function DocumentText(rules: Rules, heading: string, body: string): string {
    if rules.notEmpty(heading) then heading + "\n\n" + body else body
  }

  function TitleOr(title: Option<string>, missing: string): string {
    if title.Some? then title.value else missing
  }

  /** What a chunk's hash is taken of. */
  function HashPreimage(rules: Rules, title: Option<string>, heading: string, body: string): string {
    TitleOr(title, "") + "\0" + DocumentText(rules, heading, body)
  }

  /** A paragraph, or its pieces when it is over the limit. */
  function PiecesOrWhole(paragraph: string, maxChars: nat): seq<string>
    requires maxChars >= 1
  {
    if |paragraph| > maxChars then HardSplit.PiecesOf(paragraph, maxChars) else [paragraph]
  }

  function PieceLists(paragraphs: seq<string>, maxChars: nat): seq<seq<string>>
    requires maxChars >= 1
  {
    seq(|paragraphs|, i requires 0 <= i < |paragraphs| => PiecesOrWhole(paragraphs[i], maxChars))
  }

  function AllPieces(paragraphs: seq<string>, maxChars: nat): seq<string>
    requires maxChars >= 1
  {
    Concat(PieceLists(paragraphs, maxChars))
  }

  /** The packed parts of a body that is over the limit. */
  function PartsOf(rules: Rules, body: string, maxChars: nat, overlapChars: nat): seq<Part>
    requires maxChars >= 1
  {
    Pack(Part([], []), AllPieces(ParagraphsOf(rules, body), maxChars), maxChars, overlapChars)
  }

  function SplitOf(rules: Rules, body: string, maxChars: nat, overlapChars: nat): seq<string>
    requires maxChars >= 1
  {
    if |body| <= maxChars then [body] else Map(PartText, PartsOf(rules, body, maxChars, overlapChars))
  }

  /** Splitting a long section repeats what it says it repeats, and loses nothing. */
  lemma SplitIsLossless(rules: Rules, body: string, maxChars: nat, overlapChars: nat)
    requires maxChars >= 1
    ensures Lossless(PartsOf(rules, body, maxChars, overlapChars), AllPieces(ParagraphsOf(rules, body), maxChars),
                     maxChars, overlapChars)
  {
    PackedIsLossless(AllPieces(ParagraphsOf(rules, body), maxChars), maxChars, overlapChars);
  }

  /** A piece over the limit is a row of one of the body's tables behind the table's header. */
  ghost predicate IsTablePiece(paragraphs: seq<string>, maxChars: nat, piece: string) {
    exists i :: 0 <= i < |paragraphs| && HardSplit.TablePiece(paragraphs[i], maxChars, piece)
  }

  lemma OwnPiecesAreBounded(paragraph: string, maxChars: nat, j: nat)
    requires maxChars >= 1 && j < |PiecesOrWhole(paragraph, maxChars)|
    ensures var piece := PiecesOrWhole(paragraph, maxChars)[j];
      |piece| <= maxChars || HardSplit.TablePiece(paragraph, maxChars, piece)
  {
    if |paragraph| > maxChars {
      HardSplit.PiecesAreBounded(paragraph, maxChars, j);
    }
  }

  lemma PiecesAreBounded(paragraphs: seq<string>, maxChars: nat, k: nat)
    requires maxChars >= 1 && k < |AllPieces(paragraphs, maxChars)|
    ensures var piece := AllPieces(paragraphs, maxChars)[k];
      |piece| <= maxChars || IsTablePiece(paragraphs, maxChars, piece)
  {
    var i, j := ConcatAt(PieceLists(paragraphs, maxChars), k);
    OwnPiecesAreBounded(paragraphs[i], maxChars, j);
  }

  lemma {:induction false} NewsAreInOrder(parts: seq<Part>, i: nat, n: nat) returns (k: nat)
    requires i < |parts| && n < |parts[i].news|
    ensures k < |NewsOf(parts)| && NewsOf(parts)[k] == parts[i].news[n]
  {
    if i == 0 {
      k := n;
    } else {
      var rest := NewsAreInOrder(parts[1..], i - 1, n);
      k := |parts[0].news| + rest;
    }
  }

  /** Every part is within the limit, except a table piece standing alone, which is below 1.5 times it. */
  lemma PartsAreBounded(rules: Rules, body: string, maxChars: nat, overlapChars: nat, i: nat)
    requires maxChars >= 1 && i < |SplitOf(rules, body, maxChars, overlapChars)|
    ensures var part := SplitOf(rules, body, maxChars, overlapChars)[i];
      || |part| <= maxChars
      || (IsTablePiece(ParagraphsOf(rules, body), maxChars, part) && 2 * |part| < 3 * maxChars)
  {
    if |body| > maxChars {
      var pieces := AllPieces(ParagraphsOf(rules, body), maxChars);
      var parts := PartsOf(rules, body, maxChars, overlapChars);
      PartsStayWithinTheLimit(Part([], []), pieces, maxChars, overlapChars);
      assert PartFits(parts[i], maxChars);
      JoinedLengthIsLengthOfJoin(parts[i].All());
      if |PartText(parts[i])| > maxChars {
        SplitIsLossless(rules, body, maxChars, overlapChars);
        assert parts[i].All() == parts[i].news;
        var k := NewsAreInOrder(parts, i, 0);
        PiecesAreBounded(ParagraphsOf(rules, body), maxChars, k);
      }
    }
  }

  lemma {:induction false} NewsWhere(parts: seq<Part>, k: nat) returns (i: nat, n: nat)
    requires k < |NewsOf(parts)|
    ensures i < |parts| && n < |parts[i].news| && parts[i].news[n] == NewsOf(parts)[k]
  {
    if k < |parts[0].news| {
      i, n := 0, k;
    } else {
      i, n := NewsWhere(parts[1..], k - |parts[0].news|);
      i := i + 1;
    }
  }

  lemma {:induction false} SumHolds(paragraphs: seq<string>, n: nat)
    requires n < |paragraphs|
    ensures SumLengths(paragraphs) >= |paragraphs[n]|
  {
    if n > 0 {
      SumHolds(paragraphs[1..], n - 1);
    }
  }

  /** A paragraph of the body that is split with a table header some row does not fit behind. */
  ghost predicate HasWideTable(paragraphs: seq<string>, maxChars: nat) {
    exists i :: 0 <= i < |paragraphs| && |paragraphs[i]| > maxChars && HardSplit.HasWideRow(paragraphs[i], maxChars)
  }

  lemma OverlongPartHasTable(rules: Rules, body: string, maxChars: nat, overlapChars: nat, i: nat)
    requires maxChars >= 1 && i < |SplitOf(rules, body, maxChars, overlapChars)|
    requires |SplitOf(rules, body, maxChars, overlapChars)[i]| > maxChars
    ensures |body| > maxChars && HasWideTable(ParagraphsOf(rules, body), maxChars)
  {
    var paragraphs := ParagraphsOf(rules, body);
    var pieces, parts := AllPieces(paragraphs, maxChars), PartsOf(rules, body, maxChars, overlapChars);
    PartsStayWithinTheLimit(Part([], []), pieces, maxChars, overlapChars);
    assert PartFits(parts[i], maxChars);
    JoinedLengthIsLengthOfJoin(parts[i].All());
    SplitIsLossless(rules, body, maxChars, overlapChars);
    var k := NewsAreInOrder(parts, i, 0);
    var p, j := ConcatAt(PieceLists(paragraphs, maxChars), k);
    HardSplit.WideRowOfPiece(paragraphs[p], maxChars, j);
  }

  lemma WideTableHasOverlongPart(rules: Rules, body: string, maxChars: nat, overlapChars: nat) returns (i: nat)
    requires maxChars >= 1 && |body| > maxChars && HasWideTable(ParagraphsOf(rules, body), maxChars)
    ensures i < |SplitOf(rules, body, maxChars, overlapChars)|
      && |SplitOf(rules, body, maxChars, overlapChars)[i]| > maxChars
  {
    var paragraphs := ParagraphsOf(rules, body);
    var parts := PartsOf(rules, body, maxChars, overlapChars);
    var p :| 0 <= p < |paragraphs| && |paragraphs[p]| > maxChars && HardSplit.HasWideRow(paragraphs[p], maxChars);
    var j := HardSplit.PieceOfWideRow(paragraphs[p], maxChars);
    var k := ConcatHas(PieceLists(paragraphs, maxChars), p, j);
    SplitIsLossless(rules, body, maxChars, overlapChars);
    var n;
    i, n := NewsWhere(parts, k);
    SumHolds(parts[i].All(), |parts[i].overlap| + n);
    JoinedLengthIsLengthOfJoin(parts[i].All());
  }

  /** Some stored part is over `maxChars` exactly when the body is split and holds such a table. */
  lemma PartsExceedTheLimitIff(rules: Rules, body: string, maxChars: nat, overlapChars: nat)
    requires maxChars >= 1
    ensures var parts := SplitOf(rules, body, maxChars, overlapChars);
      (exists i :: 0 <= i < |parts| && |parts[i]| > maxChars)
      <==> |body| > maxChars && HasWideTable(ParagraphsOf(rules, body), maxChars)
  {
    if |body| > maxChars && HasWideTable(ParagraphsOf(rules, body), maxChars) {
      var i := WideTableHasOverlongPart(rules, body, maxChars, overlapChars);
    } else {
      forall i | 0 <= i < |SplitOf(rules, body, maxChars, overlapChars)|
        ensures |SplitOf(rules, body, maxChars, overlapChars)[i]| <= maxChars
      {
        if |SplitOf(rules, body, maxChars, overlapChars)[i]| > maxChars {
          OverlongPartHasTable(rules, body, maxChars, overlapChars, i);
        }
      }
    }
  }

  lemma ScanOneMore(rules: Rules, mode: Mode, lines: seq<string>, i: nat)
    requires i < |lines|
    ensures ScanOf(rules, mode, lines[..i + 1]) == Step(rules, mode, ScanOf(rules, mode, lines[..i]), lines[i])
  {
    assert lines[..i + 1][..i] == lines[..i];
  }

  function HeadingPath(section: Section): string {
    Join(section.path, HEADING_SEPARATOR)
  }

  function AnchorOf(externalId: string, section: Section): string {
    if section.slug.None? then externalId else externalId + "#" + section.slug.value
  }

  /** Two sections of one document never share an anchor. */
  lemma AnchorsAreDistinct(rules: Rules, mode: Mode, lines: seq<string>, externalId: string, i: nat, j: nat)
    requires i < j < |ScanOf(rules, mode, lines).sections|
    ensures var sections := ScanOf(rules, mode, lines).sections;
      AnchorOf(externalId, sections[i]) != AnchorOf(externalId, sections[j])
  {
    SectionSlugsAreDistinct(rules, mode, lines);
    var sections := ScanOf(rules, mode, lines).sections;
    var prefix := externalId + "#";
    var b := AnchorOf(externalId, sections[j]);
    assert b == prefix + sections[j].slug.value;
    if i > 0 {
      var a := AnchorOf(externalId, sections[i]);
      assert a[|prefix|..] == sections[i].slug.value && b[|prefix|..] == sections[j].slug.value;
    }
  }

  /** Where in the document the `p`-th line of section `j` stands. */
  lemma {:induction false} DocumentLine(rules: Rules, mode: Mode, lines: seq<string>, j: nat, p: nat) returns (i: nat)
    requires p < |LinesIn(rules, mode, lines, j)|
    ensures i < |lines| && PlaceAt(rules, mode, lines, i) == Holds(j)
    ensures LinesIn(rules, mode, lines[..i], j) == LinesIn(rules, mode, lines, j)[..p]
    ensures lines[i] == LinesIn(rules, mode, lines, j)[p]
    decreases |lines|
  {
    var n := |lines| - 1;
    var before := LinesIn(rules, mode, lines[..n], j);
    LinesInLast(rules, mode, lines, j);
    if p < |before| {
      i := DocumentLine(rules, mode, lines[..n], j, p);
      PlaceAtPrefix(rules, mode, lines, n, i);
      assert lines[..n][..i] == lines[..i];
      assert LinesIn(rules, mode, lines, j)[..p] == before[..p];
    } else {
      i := n;
      assert LinesIn(rules, mode, lines, j)[..p] == before;
    }
  }

  lemma FenceThroughCuts(
    rules: Rules, mode: Mode, lines: seq<string>, j: nat, own: seq<string>, body: seq<string>, skipped: nat, k: nat)
    returns (i: nat)
    requires rules.Sound() && own == LinesIn(rules, mode, lines, j)
    requires CutFrom(body, own, skipped) && k < |body|
    ensures i < |lines| && PlaceAt(rules, mode, lines, i) == Holds(j) && body[k] <= lines[i]
    ensures AfterAll(None, Kept(rules, None, body[..k])) == AfterAll(None, lines[..i])
  {
    CutLine(body, own, skipped, k);
    i := DocumentLine(rules, mode, lines, j, skipped + k);
    assert lines[i] == own[skipped + k];
    FenceStatesAgree(rules, mode, lines, i, j);
    BodyFenceAgrees(own, body, skipped, k);
    KeptFence(rules, None, body[..k]);
  }

  lemma {:induction false} LinesInUnbroken(rules: Rules, mode: Mode, lines: seq<string>, j: nat)
    requires Unbroken(lines)
    ensures Unbroken(LinesIn(rules, mode, lines, j))
    decreases |lines|
  {
    if lines != [] {
      LinesInUnbroken(rules, mode, lines[..|lines| - 1], j);
    }
  }

  /** The fence state paragraph cutting sees at a line of a section's body is the whole document's there:
      so no paragraph is cut inside a fence of the document. */
  lemma ParagraphFenceIsDocumentFence(
    rules: Rules, mode: Mode, lines: seq<string>, j: nat, own: seq<string>, body: seq<string>, k: nat) returns (i: nat)
    requires rules.Sound() && Unbroken(lines)
    requires own == LinesIn(rules, mode, lines, j) && own != []
    requires body == SplitLines(BodyOf(own)) && k < |body|
    ensures i < |lines| && PlaceAt(rules, mode, lines, i) == Holds(j) && body[k] <= lines[i]
    ensures AfterAll(None, Kept(rules, None, body[..k])) == AfterAll(None, lines[..i])
  {
    LinesInUnbroken(rules, mode, lines, j);
    BodyIsCutFrom(own);
    i := FenceThroughCuts(rules, mode, lines, j, own, body, LeadingBlankLines(own), k);
  }

  /** The parts a section's body is stored as. */
  function BodiesOf(rules: Rules, options: Options, section: Section): seq<string>
    requires options.maxChars >= 1
  {
    var body := BodyOf(section.lines);
    if !rules.notEmpty(body) then []
    else if options.mode.ByEntries? then [body]
    else SplitOf(rules, body, options.maxChars, options.overlapChars)
  }

  function AllBodies(rules: Rules, options: Options, sections: seq<Section>): (bodies: seq<seq<string>>)
    requires options.maxChars >= 1
    ensures |bodies| == |sections|
    ensures forall i :: 0 <= i < |sections| ==> bodies[i] == BodiesOf(rules, options, sections[i])
  {
    if sections == [] then [] else [BodiesOf(rules, options, sections[0])] + AllBodies(rules, options, sections[1..])
  }

  /** What turns a section and one part of it into a chunk. */
  datatype Maker = Maker(rules: Rules, digest: string -> string, externalId: string, title: Option<string>) {
    function Make(section: Section, body: string, ord: nat): Chunk {
      var heading := HeadingPath(section);
      Chunk(ord, heading, AnchorOf(externalId, section), body, digest(HashPreimage(rules, title, heading, body)))
    }
  }

  /** A section's parts as chunks, numbered from `from`. */
  function SectionChunks(maker: Maker, section: Section, bodies: seq<string>, from: nat): (chunks: seq<Chunk>)
    ensures |chunks| == |bodies|
    decreases |bodies|
  {
    if bodies == [] then []
    else [maker.Make(section, bodies[0], from)] + SectionChunks(maker, section, bodies[1..], from + 1)
  }

  lemma {:induction false} SectionChunkAt(maker: Maker, section: Section, bodies: seq<string>, from: nat, b: nat)
    requires b < |bodies|
    ensures SectionChunks(maker, section, bodies, from)[b] == maker.Make(section, bodies[b], from + b)
    decreases |bodies|
  {
    if b > 0 {
      SectionChunkAt(maker, section, bodies[1..], from + 1, b - 1);
    }
  }

  /** The chunks of the sections from the `s`-th on. */
  function ChunksFrom(maker: Maker, sections: seq<Section>, bodies: seq<seq<string>>, s: nat, from: nat): seq<Chunk>
    requires |bodies| == |sections| && s <= |sections|
    decreases |sections| - s
  {
    if s == |sections| then [] else
      SectionChunks(maker, sections[s], bodies[s], from)
        + ChunksFrom(maker, sections, bodies, s + 1, from + |bodies[s]|)
  }

  function ChunksOf(rules: Rules, digest: string -> string, options: Options, sections: seq<Section>): seq<Chunk>
    requires options.maxChars >= 1
  {
    var maker := Maker(rules, digest, options.externalId, options.title);
    ChunksFrom(maker, sections, AllBodies(rules, options, sections), 0, 0)
  }

  lemma NextSection(maker: Maker, sections: seq<Section>, bodies: seq<seq<string>>, s: nat, chunks: seq<Chunk>)
    requires |bodies| == |sections| && s < |sections|
    ensures chunks + ChunksFrom(maker, sections, bodies, s, |chunks|)
         == (chunks + SectionChunks(maker, sections[s], bodies[s], |chunks|))
            + ChunksFrom(maker, sections, bodies, s + 1, |chunks| + |bodies[s]|)
  {
    var own := SectionChunks(maker, sections[s], bodies[s], |chunks|);
    Associate(chunks, own, ChunksFrom(maker, sections, bodies, s + 1, |chunks| + |bodies[s]|));
  }

  lemma BodiesOneMore(
    rules: Rules, options: Options, bodies: seq<seq<string>>, sections: seq<Section>, parts: seq<string>)
    requires options.maxChars >= 1 && sections != [] && parts == BodiesOf(rules, options, sections[0])
    ensures bodies + AllBodies(rules, options, sections)
      == (bodies + [parts]) + AllBodies(rules, options, sections[1..])
  {
  }

  /** Chunks are numbered in document order, and each is one part of one section, under its anchor. */
  lemma {:induction false} ChunksAreParts(
    maker: Maker, sections: seq<Section>, bodies: seq<seq<string>>, s: nat, from: nat, k: nat) returns (i: nat, b: nat)
    requires |bodies| == |sections| && s <= |sections| && k < |ChunksFrom(maker, sections, bodies, s, from)|
    ensures s <= i < |sections| && b < |bodies[i]|
    ensures ChunksFrom(maker, sections, bodies, s, from)[k] == maker.Make(sections[i], bodies[i][b], from + k)
    decreases |sections| - s
  {
    if k < |bodies[s]| {
      SectionChunkAt(maker, sections[s], bodies[s], from, k);
      i, b := s, k;
    } else {
      i, b := ChunksAreParts(maker, sections, bodies, s + 1, from + |bodies[s]|, k - |bodies[s]|);
    }
  }

  /** How many parts the first `i` sections have. */
  function PartsUpTo(bodies: seq<seq<string>>, i: nat): nat
    requires i <= |bodies|
  {
    if i == 0 then 0 else PartsUpTo(bodies, i - 1) + |bodies[i - 1]|
  }

  /** Every part of every section is a chunk, in order. */
  lemma {:induction false} PartsAreChunks(
    maker: Maker, sections: seq<Section>, bodies: seq<seq<string>>, s: nat, from: nat, i: nat, b: nat) returns (k: nat)
    requires |bodies| == |sections| && s <= i < |sections| && b < |bodies[i]|
    ensures k < |ChunksFrom(maker, sections, bodies, s, from)|
    ensures ChunksFrom(maker, sections, bodies, s, from)[k] == maker.Make(sections[i], bodies[i][b], from + k)
    ensures k == PartsUpTo(bodies, i) - PartsUpTo(bodies, s) + b
    decreases |sections| - s
  {
    if i == s {
      SectionChunkAt(maker, sections[s], bodies[s], from, b);
      k := b;
    } else {
      var rest := PartsAreChunks(maker, sections, bodies, s + 1, from + |bodies[s]|, i, b);
      k := |bodies[s]| + rest;
    }
  }

  lemma ListOneMore(lists: seq<seq<string>>, i: nat, own: seq<string>)
    requires i < |lists| && lists[i] == own
    ensures Concat(lists[..i + 1]) == Concat(lists[..i]) + own
  {
    ConcatOne(lists[..i], own);
    assert lists[..i + 1] == lists[..i] + [own];
  }

  class MarkdownChunker {
    const rules: Rules
    const digest: string -> string

    constructor (rules: Rules, digest: string -> string)
      ensures this.rules == rules && this.digest == digest
    {
      this.rules := rules;
      this.digest := digest;
    }

    /** Cuts a document into sections, as `ScanOf` says. The section being filled is always the last. */
    method CutSections(markdown: string, mode: Mode) returns (sections: seq<Section>)
      ensures sections == ScanOf(rules, mode, MarkdownLines(markdown)).sections
    {
      var slugger := new GithubSlugger(rules.slugify);
      var fences := new FenceTracker();
      sections := [Section([], None, [])];
      var h2: Option<string> := None;
      var titleSeen := false;
      var lines := MarkdownLines(markdown);
      ghost var s := START;
      for i := 0 to |lines|
        invariant fresh(slugger) && fresh(fences) && slugger.slugify == rules.slugify
        invariant Counted(slugger.occurrences)
        invariant s == ScanOf(rules, mode, lines[..i])
        invariant s == Scan(sections, fences.fence, slugger.occurrences.Keys, h2, titleSeen)
      {
        var line := lines[i];
        ScanOneMore(rules, mode, lines, i);
        s := Step(rules, mode, s, line);
        var consumed := fences.Consume(line);
        var heading := HeadingOf(rules, line);
        if consumed || heading.None? {
          sections := Hold(sections, line);
          continue;
        }
        var slug := slugger.Slug(heading.value.text);
        sections, h2, titleSeen := TakeHeading(mode, sections, h2, titleSeen, line, heading.value, slug);
      }
      assert lines[..|lines|] == lines;
    }

    /** The title is dropped; a heading deep enough opens a section; any other is a line of its own. */
    method TakeHeading(
      mode: Mode, sections: seq<Section>, h2: Option<string>, titleSeen: bool,
      line: string, heading: Heading, slug: string)
      returns (sections': seq<Section>, h2': Option<string>, titleSeen': bool)
      requires sections != []
      ensures forall fence, taken ::
        Headed(Scan(sections, fence, taken, h2, titleSeen), line, heading, slug,
               PlaceOfHeading(mode, sections, titleSeen, heading.level))
        == Scan(sections', fence, taken + {slug}, h2', titleSeen')
    {
      sections', h2', titleSeen' := sections, h2, titleSeen;
      var level, text := heading.level, heading.text;
      if level == 1 && !titleSeen && |sections| == 1 {
        titleSeen' := true;
        return;
      }
      if level <= 2 {
        h2' := Some(text);
        sections' := sections + [Section([text], Some(slug), [])];
      } else if level == 3 && mode.BySections? {
        sections' := sections + [Section(if h2.None? then [text] else [h2.value, text], Some(slug), [])];
      } else {
        sections' := Hold(sections, line);
      }
    }

    method CutPieces(paragraphs: seq<string>, maxChars: nat) returns (pieces: seq<string>)
      requires maxChars >= 1
      ensures pieces == AllPieces(paragraphs, maxChars)
    {
      pieces := [];
      ghost var lists := PieceLists(paragraphs, maxChars);
      for i := 0 to |paragraphs|
        invariant pieces == Concat(lists[..i])
      {
        var own := [paragraphs[i]];
        if |paragraphs[i]| > maxChars {
          own := HardSplit.Split(paragraphs[i], maxChars);
        }
        ListOneMore(lists, i, own);
        pieces := pieces + own;
      }
      assert lists[..|paragraphs|] == lists;
    }

    method Split(body: string, maxChars: nat, overlapChars: nat) returns (parts: seq<string>)
      requires maxChars >= 1
      ensures parts == SplitOf(rules, body, maxChars, overlapChars)
    {
      if |body| <= maxChars {
        return [body];
      }
      var paragraphs := CutParagraphs(rules, body);
      var pieces := CutPieces(paragraphs, maxChars);
      parts := PackParagraphs(pieces, maxChars, overlapChars);
    }

    method CutBody(section: Section, options: Options) returns (parts: seq<string>)
      requires options.maxChars >= 1
      ensures parts == BodiesOf(rules, options, section)
    {
      var body := BodyOf(section.lines);
      if !rules.notEmpty(body) {
        return [];
      }
      if options.mode.ByEntries? {
        return [body];
      }
      parts := Split(body, options.maxChars, options.overlapChars);
    }

    method CutBodies(sections: seq<Section>, options: Options) returns (bodies: seq<seq<string>>)
      requires options.maxChars >= 1
      ensures bodies == AllBodies(rules, options, sections)
    {
      bodies := [];
      ghost var all, rest := AllBodies(rules, options, sections), sections;
      for i := 0 to |sections|
        invariant rest == sections[i..]
        invariant all == bodies + AllBodies(rules, options, rest)
      {
        var parts := CutBody(sections[i], options);
        BodiesOneMore(rules, options, bodies, rest, parts);
        bodies := bodies + [parts];
        rest := rest[1..];
      }
    }

    /** The chunks of the sections' parts, in one list. */
    method ChunkBodies(sections: seq<Section>, bodies: seq<seq<string>>, options: Options) returns (chunks: seq<Chunk>)
      requires |bodies| == |sections|
      ensures chunks == ChunksFrom(Maker(rules, digest, options.externalId, options.title), sections, bodies, 0, 0)
    {
      chunks := [];
      ghost var maker := Maker(rules, digest, options.externalId, options.title);
      ghost var all := ChunksFrom(maker, sections, bodies, 0, 0);
      for i := 0 to |sections|
        invariant all == chunks + ChunksFrom(maker, sections, bodies, i, |chunks|)
      {
        NextSection(maker, sections, bodies, i, chunks);
        chunks := AddChunks(chunks, sections[i], bodies[i], options);
      }
    }

    method AddChunks(
      before: seq<Chunk>, section: Section, parts: seq<string>, options: Options) returns (chunks: seq<Chunk>)
      ensures chunks == before +
        SectionChunks(Maker(rules, digest, options.externalId, options.title), section, parts, |before|)
    {
      chunks := before;
      var heading := HeadingPath(section);
      var anchor := AnchorOf(options.externalId, section);
      ghost var own := SectionChunks(Maker(rules, digest, options.externalId, options.title), section, parts, |before|);
      for p := 0 to |parts|
        invariant chunks == before + own[..p]
      {
        var hash := digest(HashPreimage(rules, options.title, heading, parts[p]));
        SectionChunkAt(Maker(rules, digest, options.externalId, options.title), section, parts, |before|, p);
        assert own[p] == Chunk(|chunks|, heading, anchor, parts[p], hash);
        assert own[..p + 1] == own[..p] + [own[p]];
        chunks := chunks + [Chunk(|chunks|, heading, anchor, parts[p], hash)];
      }
      assert own[..|parts|] == own;
    }

    /** The document's chunks, as `ChunksOf` says of its sections. */
    method ChunkDocument(markdown: string, options: Options) returns (chunks: seq<Chunk>)
      requires options.maxChars >= 1
      ensures chunks == ChunksOf(rules, digest, options, ScanOf(rules, options.mode, MarkdownLines(markdown)).sections)
    {
      var sections := CutSections(markdown, options.mode);
      var bodies := CutBodies(sections, options);
      chunks := ChunkBodies(sections, bodies, options);
    }
  }
}
