/** What headings do to a document, told from its lines alone: where sections start, and what they are called. */
module Headings {
  import opened Text
  import opened Fences
  import opened Slugs
  import opened Sections
  import opened Paragraphs
  import opened Chunker

  ghost predicate AllOf(s: string, c: char) {
    forall i :: 0 <= i < |s| ==> s[i] == c
  }

  ghost predicate ClosesWith(tail: string, gap: string, hashes: string, rest: string) {
    && tail == gap + hashes + rest && gap != "" && hashes != ""
    && AllBlank(gap) && AllOf(hashes, '#') && AllBlank(rest)
  }

  /** What may follow a heading's text: blanks, and in between a run of `#` set off by some. */
  ghost predicate IsClosing(tail: string) {
    || AllBlank(tail)
    || exists gap: string, hashes: string, rest: string :: ClosesWith(tail, gap, hashes, rest)
  }

  /** Blanks, unless nothing follows, then the shortest text after which only a closing is left. */
  ghost predicate IsHeadingText(gap: string, text: string, tail: string) {
    && AllBlank(gap) && (gap == "" ==> text + tail == "") && (text + tail != "" ==> !IsBlank((text + tail)[0]))
    && IsClosing(tail) && forall n :: 0 <= n < |text| ==> !IsClosing((text + tail)[n..])
  }

  /** Up to three spaces, one to six `#`, then text without line terminators and its closing. */
  ghost predicate IsHeadingLine(line: string, spaces: string, hashes: string, gap: string, text: string, tail: string) {
    && line == spaces + (hashes + (gap + (text + tail)))
    && |spaces| <= 3 && AllOf(spaces, ' ') && 1 <= |hashes| <= 6 && AllOf(hashes, '#')
    && IsHeadingText(gap, text, tail)
    && (forall i :: 0 <= i < |text| ==> !IsLineTerminator(text[i]))
  }

  lemma RunOfPrefix(prefix: string, rest: string, c: char)
    requires AllOf(prefix, c) && (rest != "" ==> rest[0] != c)
    ensures Run(prefix + rest, c) == |prefix|
    ensures (prefix + rest)[|prefix|..] == rest
  {
    var s := prefix + rest;
    assert forall i :: 0 <= i < |prefix| ==> s[i] == prefix[i];
    assert rest != "" ==> s[|prefix|] == rest[0];
  }

  lemma ClosesHeadingIff(tail: string)
    ensures ClosesHeading(tail) <==> IsClosing(tail)
  {
    if ClosesHeading(tail) && !AllBlank(tail) {
      var gap := DropBlanksSplits(tail);
      var rest := DropBlanks(tail);
      var count := Run(rest, '#');
      assert rest == rest[..count] + rest[count..];
      assert ClosesWith(tail, gap, rest[..count], rest[count..]);
    }
    if gap: string, hashes: string, rest: string :| ClosesWith(tail, gap, hashes, rest) {
      assert tail == gap + (hashes + rest);
      BlanksDropped(gap, hashes + rest);
      assert rest != "" ==> IsBlank(rest[0]);
      RunOfPrefix(hashes, rest, '#');
    }
  }

  lemma {:induction false} TextLengthIsLeast(t: string, n: nat)
    requires n <= |t|
    ensures TextLength(t) == n <==> IsClosing(t[n..]) && forall k :: 0 <= k < n ==> !IsClosing(t[k..])
  {
    ClosesHeadingIff(t);
    assert t[0..] == t;
    if ClosesHeading(t) {
      assert n > 0 ==> IsClosing(t[0..]);
    } else if n > 0 {
      TextLengthIsLeast(t[1..], n - 1);
      assert t[1..][n - 1..] == t[n..];
      assert forall k :: 0 < k < n ==> t[1..][k - 1..] == t[k..];
      assert forall k :: 0 <= k < n - 1 ==> t[1..][k..] == t[k + 1..];
    }
  }

  lemma {:induction false} HasLineTerminatorIff(s: string)
    ensures HasLineTerminator(s) <==> exists i :: 0 <= i < |s| && IsLineTerminator(s[i])
  {
    if s != "" {
      HasLineTerminatorIff(s[1..]);
      if i :| 0 < i < |s| && IsLineTerminator(s[i]) {
        assert s[1..][i - 1] == s[i];
      }
    }
  }

  lemma TextIsHeadingText(rest: string) returns (gap: string, tail: string)
    requires (rest != "" ==> IsBlank(rest[0])) && HeadingText(rest).Some?
    ensures var text := HeadingText(rest).value;
      rest == gap + (text + tail) && IsHeadingText(gap, text, tail) && !HasLineTerminator(text)
  {
    var t := DropBlanks(rest);
    gap := DropBlanksSplits(rest);
    tail := t[TextLength(t)..];
    assert t[..TextLength(t)] + tail == t;
    TextLengthIsLeast(t, TextLength(t));
  }

  lemma HeadingTextIsRead(gap: string, text: string, tail: string)
    requires IsHeadingText(gap, text, tail) && !HasLineTerminator(text)
    ensures HeadingText(gap + (text + tail)) == Some(text)
  {
    var t := text + tail;
    BlanksDropped(gap, t);
    assert t[|text|..] == tail && t[..|text|] == text;
    TextLengthIsLeast(t, |text|);
  }

  lemma RunSplits(s: string, c: char)
    ensures s == s[..Run(s, c)] + s[Run(s, c)..] && AllOf(s[..Run(s, c)], c)
  {
  }

  lemma LineIsAssembled(line: string, spaces: string, hashes: string, gap: string, text: string, tail: string)
    requires |spaces| <= 3 && AllOf(spaces, ' ') && 1 <= |hashes| <= 6 && AllOf(hashes, '#')
    requires IsHeadingText(gap, text, tail) && !HasLineTerminator(text)
    requires line == spaces + (hashes + (gap + (text + tail)))
    ensures IsHeadingLine(line, spaces, hashes, gap, text, tail)
  {
    HasLineTerminatorIff(text);
  }

  lemma MarkedSplits(line: string) returns (spaces: string, hashes: string, rest: string)
    ensures line == spaces + (hashes + rest) && AllOf(spaces, ' ') && AllOf(hashes, '#')
    ensures |spaces| == Run(line, ' ') && |hashes| == Run(line[|spaces|..], '#')
    ensures rest == line[|spaces| + |hashes|..]
  {
    var marked := line[Run(line, ' ')..];
    spaces, hashes, rest := line[..Run(line, ' ')], marked[..Run(marked, '#')], marked[Run(marked, '#')..];
    RunSplits(line, ' ');
    RunSplits(marked, '#');
  }

  lemma HeadingParts(line: string, indent: nat, level: nat, rest: string)
    requires ParseHeading(line).Some? && indent == Run(line, ' ') && level == Run(line[indent..], '#')
    requires rest == line[indent + level..]
    ensures indent <= 3 && 1 <= level <= 6 && (rest != "" ==> IsBlank(rest[0]))
    ensures HeadingText(rest).Some? && ParseHeading(line).value == Heading(level, HeadingText(rest).value)
  {
  }

  lemma ParsedIsHeadingLine(line: string) returns (spaces: string, hashes: string, gap: string, tail: string)
    requires ParseHeading(line).Some?
    ensures var heading := ParseHeading(line).value;
      |hashes| == heading.level && IsHeadingLine(line, spaces, hashes, gap, heading.text, tail)
  {
    var rest;
    spaces, hashes, rest := MarkedSplits(line);
    HeadingParts(line, |spaces|, |hashes|, rest);
    gap, tail := TextIsHeadingText(rest);
    LineIsAssembled(line, spaces, hashes, gap, ParseHeading(line).value.text, tail);
  }

  lemma HeadingLineIsParsed(line: string, spaces: string, hashes: string, gap: string, text: string, tail: string)
    requires IsHeadingLine(line, spaces, hashes, gap, text, tail)
    ensures ParseHeading(line) == Some(Heading(|hashes|, text))
  {
    var rest := gap + (text + tail);
    assert rest != "" ==> IsBlank(rest[0]);
    RunOfPrefix(spaces, hashes + rest, ' ');
    RunOfPrefix(hashes, rest, '#');
    assert line[|spaces| + |hashes|..] == rest;
    HasLineTerminatorIff(text);
    HeadingTextIsRead(gap, text, tail);
  }

  /** A line is a heading of this level and text exactly when it is so written. */
  lemma ParseHeadingIff(line: string, heading: Heading)
    ensures ParseHeading(line) == Some(heading) <==>
      exists spaces: string, hashes: string, gap: string, tail: string ::
        |hashes| == heading.level && IsHeadingLine(line, spaces, hashes, gap, heading.text, tail)
  {
    if ParseHeading(line) == Some(heading) {
      var spaces, hashes, gap, tail := ParsedIsHeadingLine(line);
    }
    if spaces: string, hashes: string, gap: string, tail: string :|
      |hashes| == heading.level && IsHeadingLine(line, spaces, hashes, gap, heading.text, tail)
    {
      HeadingLineIsParsed(line, spaces, hashes, gap, heading.text, tail);
    }
  }

  /** The heading on line `i`, if there is one that counts outside any fence. */
  function HeadingAt(rules: Rules, lines: seq<string>, i: nat): Option<Heading>
    requires i < |lines|
  {
    if Consumes(AfterAll(None, lines[..i]), lines[i]) then None else HeadingOf(rules, lines[i])
  }

  type Heads = seq<Option<Heading>>

  /** The headings of a document, line by line. */
  function HeadingsOf(rules: Rules, lines: seq<string>): (heads: Heads)
    ensures |heads| == |lines| && forall i :: 0 <= i < |lines| ==> heads[i] == HeadingAt(rules, lines, i)
  {
    seq(|lines|, i requires 0 <= i < |lines| => HeadingAt(rules, lines, i))
  }

  /** Headings of the first two levels cut a document; those of the third only one that is cut by sections. */
  predicate Cuts(mode: Mode, level: nat) {
    level <= 2 || (level == 3 && mode == BySections)
  }

  predicate CutsAt(mode: Mode, heads: Heads, i: nat)
    requires i < |heads|
  {
    heads[i].Some? && Cuts(mode, heads[i].value.level)
  }

  /** The title is a heading of the first level before any other that cuts. */
  ghost predicate IsTitle(mode: Mode, heads: Heads, i: nat)
    requires i < |heads|
  {
    heads[i].Some? && heads[i].value.level == 1 && forall k :: 0 <= k < i ==> !CutsAt(mode, heads, k)
  }

  /** Any other heading that cuts starts a section. */
  ghost predicate Starts(mode: Mode, heads: Heads, i: nat)
    requires i < |heads|
  {
    CutsAt(mode, heads, i) && !IsTitle(mode, heads, i)
  }

  /** How many sections start before line `n`. */
  ghost function StartCount(mode: Mode, heads: Heads, n: nat): nat
    requires n <= |heads|
  {
    if n == 0 then 0 else StartCount(mode, heads, n - 1) + if Starts(mode, heads, n - 1) then 1 else 0
  }

  /** A section of the first two levels starts at line `i`. */
  ghost predicate StartsUpper(mode: Mode, heads: Heads, i: nat)
    requires i < |heads|
  {
    Starts(mode, heads, i) && heads[i].value.level <= 2
  }

  /** `k` is the last line before `n` where such a section starts. */
  ghost predicate LastUpper(mode: Mode, heads: Heads, n: nat, k: nat)
    requires n <= |heads|
  {
    k < n && StartsUpper(mode, heads, k) && forall m :: k < m < n ==> !StartsUpper(mode, heads, m)
  }

  /** The slug alphabet applied to every heading before line `n`, the title and those held included. */
  function Originals(slugify: string -> string, heads: Heads, n: nat): seq<string>
    requires n <= |heads|
  {
    if n == 0 then []
    else
      Originals(slugify, heads, n - 1) + if heads[n - 1].Some? then [slugify(heads[n - 1].value.text)] else []
  }

  /** The slug of the heading on line `i`: de-duplicated among all headings up to it. */
  function SlugAt(slugify: string -> string, heads: Heads, i: nat): string
    requires i < |heads| && heads[i].Some?
  {
    SlugsOf({}, Originals(slugify, heads, i + 1))[|Originals(slugify, heads, i)|]
  }

  /** The path of the section that starts at line `i`: its heading's text, below that of the last section of the
      first two levels when it is itself of the third. */
  ghost predicate PathIs(mode: Mode, heads: Heads, i: nat, path: seq<string>)
    requires i < |heads| && heads[i].Some?
  {
    var heading := heads[i].value;
    && (heading.level <= 2 ==> path == [heading.text])
    && (heading.level > 2 && (forall k :: 0 <= k < i ==> !StartsUpper(mode, heads, k)) ==> path == [heading.text])
    && (heading.level > 2 ==>
         forall k: nat :: LastUpper(mode, heads, i, k) ==> path == [heads[k].value.text, heading.text])
  }

  // ---- What is known of the lines read

  function Elements<T>(xs: seq<T>): set<T> {
    set x | x in xs
  }

  lemma {:induction false} SlugsOneMore(taken: set<string>, originals: seq<string>, last: string)
    ensures SlugsOf(taken, originals + [last])
         == SlugsOf(taken, originals) + [SlugFor(taken + Elements(SlugsOf(taken, originals)), last)]
    decreases |originals|
  {
    var all := originals + [last];
    if originals == [] {
      assert all[1..] == [] && taken + Elements(SlugsOf(taken, originals)) == taken;
    } else {
      var slug := SlugFor(taken, originals[0]);
      var rest := SlugsOf(taken + {slug}, originals[1..]);
      SlugsOneMore(taken + {slug}, originals[1..], last);
      assert all[1..] == originals[1..] + [last];
      assert taken + Elements([slug] + rest) == (taken + {slug}) + Elements(rest);
    }
  }

  /** No heading that cuts stands before line `n`. */
  ghost predicate Uncut(mode: Mode, heads: Heads, n: nat)
    requires n <= |heads|
  {
    forall k :: 0 <= k < n ==> !CutsAt(mode, heads, k)
  }

  ghost predicate UpperIs(mode: Mode, heads: Heads, n: nat, h2: Option<string>)
    requires n <= |heads|
  {
    match h2
    case None => forall k :: 0 <= k < n ==> !StartsUpper(mode, heads, k)
    case Some(text) => exists k: nat :: LastUpper(mode, heads, n, k) && heads[k].value.text == text
  }

  /** What the scan's sections and marks say of the headings read. */
  ghost predicate Knows(mode: Mode, heads: Heads, n: nat, s: Scan)
    requires n <= |heads|
  {
    && |s.sections| == 1 + StartCount(mode, heads, n)
    && (!s.titleSeen && |s.sections| == 1 <==> Uncut(mode, heads, n))
    && UpperIs(mode, heads, n, s.h2)
  }

  lemma UncutOneMore(mode: Mode, heads: Heads, n: nat)
    requires n < |heads|
    ensures Uncut(mode, heads, n + 1) <==> Uncut(mode, heads, n) && !CutsAt(mode, heads, n)
    ensures IsTitle(mode, heads, n) <==> Uncut(mode, heads, n) && heads[n].Some? && heads[n].value.level == 1
  {
  }

  lemma UpperOneMore(mode: Mode, heads: Heads, n: nat, h2: Option<string>)
    requires n < |heads| && UpperIs(mode, heads, n, h2)
    ensures UpperIs(mode, heads, n + 1, if StartsUpper(mode, heads, n) then Some(heads[n].value.text) else h2)
  {
    if StartsUpper(mode, heads, n) {
      assert LastUpper(mode, heads, n + 1, n);
    } else if h2.Some? {
      var k: nat :| LastUpper(mode, heads, n, k) && heads[k].value.text == h2.value;
      assert LastUpper(mode, heads, n + 1, k);
    }
  }

  lemma TakenOneMore(slugify: string -> string, heads: Heads, n: nat, taken: set<string>)
    requires n < |heads| && taken == Elements(SlugsOf({}, Originals(slugify, heads, n)))
    ensures Elements(SlugsOf({}, Originals(slugify, heads, n + 1))) ==
      if heads[n].Some? then taken + {SlugAt(slugify, heads, n)} else taken
    ensures heads[n].Some? ==> SlugAt(slugify, heads, n) == SlugFor(taken, slugify(heads[n].value.text))
  {
    var before := Originals(slugify, heads, n);
    if heads[n].Some? {
      SlugsOneMore({}, before, slugify(heads[n].value.text));
      assert {} + taken == taken;
    } else {
      assert Originals(slugify, heads, n + 1) == before;
    }
  }

  /** Where a line with this heading, or none, is placed. */
  function PlaceFor(mode: Mode, s: Scan, heading: Option<Heading>): Place
    requires s.sections != []
  {
    if heading.None? then Holds(|s.sections| - 1)
    else PlaceOfHeading(mode, s.sections, s.titleSeen, heading.value.level)
  }

  /** Where the headings alone place it. */
  ghost function PlaceByHeading(mode: Mode, heads: Heads, i: nat): Place
    requires i < |heads|
  {
    if IsTitle(mode, heads, i) then Title
    else if Starts(mode, heads, i) then Opens(StartCount(mode, heads, i) + 1)
    else Holds(StartCount(mode, heads, i))
  }

  lemma PlaceFollows(mode: Mode, heads: Heads, i: nat, s: Scan)
    requires i < |heads| && s.sections != [] && Knows(mode, heads, i, s)
    ensures PlaceFor(mode, s, heads[i]) == PlaceByHeading(mode, heads, i)
  {
    UncutOneMore(mode, heads, i);
  }

  /** What a step makes of the sections, the title and the last upper heading, by its place. */
  ghost predicate Stepped(s: Scan, heading: Option<Heading>, place: Place, r: Scan) {
    && |r.sections| == |s.sections| + (if place.Opens? then 1 else 0)
    && r.titleSeen == (s.titleSeen || place.Title?)
    && r.h2 == if place.Opens? && heading.Some? && heading.value.level <= 2 then Some(heading.value.text) else s.h2
  }

  lemma KnowsOneMore(mode: Mode, heads: Heads, i: nat, s: Scan, r: Scan)
    requires i < |heads| && s.sections != [] && Knows(mode, heads, i, s)
    requires Stepped(s, heads[i], PlaceByHeading(mode, heads, i), r)
    ensures Knows(mode, heads, i + 1, r)
  {
    UncutOneMore(mode, heads, i);
    UpperOneMore(mode, heads, i, s.h2);
  }

  // ---- The scan follows the headings

  lemma StepByHeading(rules: Rules, mode: Mode, s: Scan, line: string, heading: Option<Heading>)
    requires s.sections != [] && heading == if Consumes(s.fence, line) then None else HeadingOf(rules, line)
    ensures var r := Step(rules, mode, s, line);
      && PlaceOf(rules, mode, s, line) == PlaceFor(mode, s, heading)
      && Stepped(s, heading, PlaceFor(mode, s, heading), r)
      && r.fence == After(s.fence, line)
      && r.taken == if heading.Some? then s.taken + {SlugFor(s.taken, rules.slugify(heading.value.text))} else s.taken
  {
  }

  /** The scan after `n` lines knows what the headings say, and has taken the slugs of all of them. */
  ghost predicate ScanIs(rules: Rules, mode: Mode, heads: Heads, n: nat, fence: Option<Fence>, s: Scan)
    requires n <= |heads|
  {
    && s.sections != [] && s.fence == fence && Knows(mode, heads, n, s)
    && s.taken == Elements(SlugsOf({}, Originals(rules.slugify, heads, n)))
  }

  lemma ScanIsOneMore(rules: Rules, mode: Mode, heads: Heads, n: nat, fence: Option<Fence>, s: Scan, line: string)
    requires n < |heads| && ScanIs(rules, mode, heads, n, fence, s)
    requires heads[n] == if Consumes(fence, line) then None else HeadingOf(rules, line)
    ensures ScanIs(rules, mode, heads, n + 1, After(fence, line), Step(rules, mode, s, line))
    ensures PlaceOf(rules, mode, s, line) == PlaceByHeading(mode, heads, n)
  {
    StepByHeading(rules, mode, s, line, heads[n]);
    PlaceFollows(mode, heads, n, s);
    KnowsOneMore(mode, heads, n, s, Step(rules, mode, s, line));
    TakenOneMore(rules.slugify, heads, n, s.taken);
  }

  lemma FenceOneMore(lines: seq<string>, n: nat)
    requires n < |lines|
    ensures AfterAll(None, lines[..n + 1]) == After(AfterAll(None, lines[..n]), lines[n])
  {
    assert lines[..n + 1] == lines[..n] + [lines[n]];
    AfterOneMore(None, lines[..n], lines[n]);
  }

  lemma {:induction false} ScanKnows(rules: Rules, mode: Mode, lines: seq<string>, n: nat)
    requires n <= |lines|
    ensures ScanIs(rules, mode, HeadingsOf(rules, lines), n, AfterAll(None, lines[..n]),
      ScanOf(rules, mode, lines[..n]))
  {
    var heads := HeadingsOf(rules, lines);
    if n > 0 {
      var i := n - 1;
      ScanKnows(rules, mode, lines, i);
      ScanOneMore(rules, mode, lines, i);
      FenceOneMore(lines, i);
      ScanIsOneMore(rules, mode, heads, i, AfterAll(None, lines[..i]), ScanOf(rules, mode, lines[..i]), lines[i]);
    }
  }

  /** A line is the title, starts the next section, or is held by the current one, exactly by its heading. */
  lemma LinesLandByHeading(rules: Rules, mode: Mode, lines: seq<string>, i: nat)
    requires i < |lines|
    ensures PlaceAt(rules, mode, lines, i) == PlaceByHeading(mode, HeadingsOf(rules, lines), i)
  {
    ScanKnows(rules, mode, lines, i);
    ScanIsOneMore(rules, mode, HeadingsOf(rules, lines), i, AfterAll(None, lines[..i]),
                  ScanOf(rules, mode, lines[..i]), lines[i]);
  }

  /** A document has one section more than start in it. */
  lemma SectionsAreStarts(rules: Rules, mode: Mode, lines: seq<string>)
    ensures |ScanOf(rules, mode, lines).sections| == 1 + StartCount(mode, HeadingsOf(rules, lines), |lines|)
  {
    ScanKnows(rules, mode, lines, |lines|);
    assert lines[..|lines|] == lines;
  }

  // ---- Names

  /** Sections keep path and slug as more lines are read. */
  ghost predicate NamesKept(before: seq<Section>, after: seq<Section>) {
    && |before| <= |after|
    && forall j :: 0 <= j < |before| ==> after[j].path == before[j].path && after[j].slug == before[j].slug
  }

  lemma PlacedKeepsNames(s: Scan, line: string, place: Place, r: Scan)
    requires s.sections != [] && Placed(s, line, place, r)
    ensures NamesKept(s.sections, r.sections)
  {
    if place.Opens? {
      assert forall j :: 0 <= j < |s.sections| ==> r.sections[j] == r.sections[..|s.sections|][j];
    }
  }

  lemma NamesKeptOn(a: seq<Section>, b: seq<Section>, c: seq<Section>)
    requires NamesKept(a, b) && NamesKept(b, c)
    ensures NamesKept(a, c)
  {
  }

  lemma {:induction false} TracedKeepsNames(
    lines: seq<string>, scans: seq<Scan>, places: seq<Place>, n: nat, m: nat)
    requires Traced(lines, scans, places) && n <= m <= |lines|
    ensures NamesKept(scans[n].sections, scans[m].sections)
    decreases m
  {
    if n < m {
      TracedKeepsNames(lines, scans, places, n, m - 1);
      PlacedKeepsNames(scans[m - 1], lines[m - 1], places[m - 1], scans[m]);
      NamesKeptOn(scans[n].sections, scans[m - 1].sections, scans[m].sections);
    }
  }

  lemma NamesStay(rules: Rules, mode: Mode, lines: seq<string>, n: nat)
    requires n <= |lines|
    ensures NamesKept(ScanOf(rules, mode, lines[..n]).sections, ScanOf(rules, mode, lines).sections)
  {
    var scans, places := TraceOf(rules, mode, lines);
    TracedKeepsNames(lines, scans, places, n, |lines|);
    assert lines[..|lines|] == lines;
  }

  lemma PathFollows(mode: Mode, heads: Heads, i: nat, h2: Option<string>)
    requires i < |heads| && heads[i].Some? && UpperIs(mode, heads, i, h2)
    ensures PathIs(mode, heads, i, PathOf(h2, heads[i].value))
  {
    if h2.Some? {
      var k: nat :| LastUpper(mode, heads, i, k) && heads[k].value.text == h2.value;
      assert StartsUpper(mode, heads, k);
    }
  }

  /** Section `j` starts at line `i`. */
  ghost predicate StartsSection(mode: Mode, heads: Heads, j: nat, i: nat) {
    i < |heads| && Starts(mode, heads, i) && StartCount(mode, heads, i) + 1 == j
  }

  /** Path and slug are those of the heading on line `i`. */
  ghost predicate NamedAt(rules: Rules, mode: Mode, heads: Heads, i: nat, path: seq<string>, slug: Option<string>)
    requires i < |heads| && heads[i].Some?
  {
    PathIs(mode, heads, i, path) && slug == Some(SlugAt(rules.slugify, heads, i))
  }

  /** The name of section `j`: the text before the first start has none; any other has its heading's path and slug. */
  ghost predicate NamedByHeading(
    rules: Rules, mode: Mode, heads: Heads, j: nat, path: seq<string>, slug: Option<string>)
  {
    && (j == 0 ==> path == [] && slug == None)
    && forall i: nat :: StartsSection(mode, heads, j, i) ==> NamedAt(rules, mode, heads, i, path, slug)
  }

  lemma StepOpens(rules: Rules, mode: Mode, s: Scan, line: string, heading: Heading)
    requires s.sections != [] && PlaceOf(rules, mode, s, line).Opens?
    requires Some(heading) == if Consumes(s.fence, line) then None else HeadingOf(rules, line)
    ensures Step(rules, mode, s, line).sections ==
      s.sections + [Section(PathOf(s.h2, heading), Some(SlugFor(s.taken, rules.slugify(heading.text))), [])]
  {
  }

  /** A section just started has its heading's path and slug. */
  lemma OpensNamed(rules: Rules, mode: Mode, heads: Heads, i: nat, fence: Option<Fence>, s: Scan, line: string)
    requires i < |heads| && Starts(mode, heads, i) && ScanIs(rules, mode, heads, i, fence, s)
    requires heads[i] == if Consumes(fence, line) then None else HeadingOf(rules, line)
    ensures var sections := Step(rules, mode, s, line).sections;
      && |sections| == StartCount(mode, heads, i) + 2
      && NamedAt(rules, mode, heads, i, sections[|sections| - 1].path, sections[|sections| - 1].slug)
  {
    ScanIsOneMore(rules, mode, heads, i, fence, s, line);
    StepOpens(rules, mode, s, line, heads[i].value);
    PathFollows(mode, heads, i, s.h2);
    TakenOneMore(rules.slugify, heads, i, s.taken);
  }

  lemma JustStarted(
    rules: Rules, mode: Mode, lines: seq<string>, heads: Heads, i: nat, j: nat, sections: seq<Section>)
    requires heads == HeadingsOf(rules, lines) && StartsSection(mode, heads, j, i)
    requires sections == ScanOf(rules, mode, lines[..i + 1]).sections
    ensures j == |sections| - 1 && NamedAt(rules, mode, heads, i, sections[j].path, sections[j].slug)
  {
    ScanKnows(rules, mode, lines, i);
    ScanOneMore(rules, mode, lines, i);
    OpensNamed(rules, mode, heads, i, AfterAll(None, lines[..i]), ScanOf(rules, mode, lines[..i]), lines[i]);
  }

  lemma NameIsKept(rules: Rules, mode: Mode, lines: seq<string>, n: nat, j: nat, before: Section, section: Section)
    requires n <= |lines| && j < |ScanOf(rules, mode, lines[..n]).sections|
    requires before == ScanOf(rules, mode, lines[..n]).sections[j]
    requires j < |ScanOf(rules, mode, lines).sections| && section == ScanOf(rules, mode, lines).sections[j]
    ensures section.path == before.path && section.slug == before.slug
  {
    NamesStay(rules, mode, lines, n);
  }

  lemma StartIsNamed(
    rules: Rules, mode: Mode, lines: seq<string>, heads: Heads, i: nat, j: nat, before: seq<Section>, section: Section)
    requires heads == HeadingsOf(rules, lines) && StartsSection(mode, heads, j, i)
    requires before == ScanOf(rules, mode, lines[..i + 1]).sections
    requires j < |ScanOf(rules, mode, lines).sections| && section == ScanOf(rules, mode, lines).sections[j]
    ensures NamedAt(rules, mode, heads, i, section.path, section.slug)
  {
    JustStarted(rules, mode, lines, heads, i, j, before);
    NameIsKept(rules, mode, lines, i + 1, j, before[j], section);
  }

  lemma FirstIsNameless(rules: Rules, mode: Mode, lines: seq<string>)
    ensures var first := ScanOf(rules, mode, lines).sections[0]; first.path == [] && first.slug == None
  {
    NamesStay(rules, mode, lines, 0);
    assert lines[..0] == [];
  }

  /** Every section is called by the heading it starts with. */
  lemma SectionsAreNamedByHeadings(rules: Rules, mode: Mode, lines: seq<string>, j: nat, section: Section)
    requires j < |ScanOf(rules, mode, lines).sections| && section == ScanOf(rules, mode, lines).sections[j]
    ensures NamedByHeading(rules, mode, HeadingsOf(rules, lines), j, section.path, section.slug)
  {
    if j == 0 {
      FirstIsNameless(rules, mode, lines);
    }
    var heads := HeadingsOf(rules, lines);
    forall i: nat | StartsSection(mode, heads, j, i)
      ensures NamedAt(rules, mode, heads, i, section.path, section.slug)
    {
      StartIsNamed(rules, mode, lines, heads, i, j, ScanOf(rules, mode, lines[..i + 1]).sections, section);
    }
  }

  lemma {:induction false} StartCountGrows(mode: Mode, heads: Heads, n: nat, m: nat)
    requires n <= m <= |heads|
    ensures StartCount(mode, heads, n) <= StartCount(mode, heads, m)
    decreases m
  {
    if n < m {
      StartCountGrows(mode, heads, n, m - 1);
    }
  }

  /** Every section but the first starts at one line. */
  lemma {:induction false} SectionHasStart(mode: Mode, heads: Heads, n: nat, j: nat) returns (i: nat)
    requires n <= |heads| && 0 < j <= StartCount(mode, heads, n)
    ensures i < n && StartsSection(mode, heads, j, i)
    ensures forall k: nat :: StartsSection(mode, heads, j, k) ==> k == i
    decreases n
  {
    if j <= StartCount(mode, heads, n - 1) {
      i := SectionHasStart(mode, heads, n - 1, j);
    } else {
      i := n - 1;
      forall k: nat | StartsSection(mode, heads, j, k) ensures k == i {
        if k < i {
          StartCountGrows(mode, heads, k + 1, i);
        } else if i < k {
          StartCountGrows(mode, heads, i + 1, k);
        }
      }
    }
  }

  // ---- Chunks

  /** The chunk is called after section `j` of the document. */
  ghost predicate StandsUnder(rules: Rules, options: Options, lines: seq<string>, j: nat, chunk: Chunk) {
    exists path: seq<string>, slug: Option<string> ::
      && NamedByHeading(rules, options.mode, HeadingsOf(rules, lines), j, path, slug)
      && chunk.heading == Join(path, " › ")
      && chunk.anchor == options.externalId + if slug.Some? then "#" + slug.value else ""
  }

  /** The parts section `j` of a document is stored as: none when it is empty, the whole of it by entries. */
  function PartsOfSection(rules: Rules, options: Options, lines: seq<string>, j: nat): seq<string>
    requires options.maxChars >= 1
  {
    var body := BodyOf(LinesIn(rules, options.mode, lines, j));
    match options.mode
    case ByEntries => if rules.notEmpty(body) then [body] else []
    case BySections => if rules.notEmpty(body) then SplitOf(rules, body, options.maxChars, options.overlapChars) else []
  }

  lemma BodiesArePartsOfSections(rules: Rules, options: Options, lines: seq<string>, j: nat)
    requires options.maxChars >= 1 && j < |ScanOf(rules, options.mode, lines).sections|
    ensures BodiesOf(rules, options, ScanOf(rules, options.mode, lines).sections[j])
         == PartsOfSection(rules, options, lines, j)
  {
    SectionsHoldTheirLines(rules, options.mode, lines, j);
  }

  lemma MadeChunkStandsUnder(
    rules: Rules, digest: string -> string, options: Options, lines: seq<string>, j: nat, section: Section,
    body: string, ord: nat)
    requires j < |ScanOf(rules, options.mode, lines).sections|
    requires section == ScanOf(rules, options.mode, lines).sections[j]
    ensures StandsUnder(rules, options, lines, j,
                        Maker(rules, digest, options.externalId, options.title).Make(section, body, ord))
  {
    SectionsAreNamedByHeadings(rules, options.mode, lines, j, section);
    assert options.externalId + "" == options.externalId;
    assert section.slug.Some? ==>
      options.externalId + "#" + section.slug.value == options.externalId + ("#" + section.slug.value);
  }

  /** The chunks of a document. */
  function DocumentChunks(rules: Rules, digest: string -> string, options: Options, markdown: string): seq<Chunk>
    requires options.maxChars >= 1
  {
    ChunksOf(rules, digest, options, ScanOf(rules, options.mode, MarkdownLines(markdown)).sections)
  }

  /** A chunk of a document is one part of one of its sections, called after that section's heading. */
  lemma ChunksStandUnderHeadings(
    rules: Rules, digest: string -> string, options: Options, markdown: string, k: nat) returns (j: nat, b: nat)
    requires options.maxChars >= 1 && k < |DocumentChunks(rules, digest, options, markdown)|
    ensures var lines := MarkdownLines(markdown);
      var chunk := DocumentChunks(rules, digest, options, markdown)[k];
      && j <= StartCount(options.mode, HeadingsOf(rules, lines), |lines|)
      && b < |PartsOfSection(rules, options, lines, j)|
      && chunk.ord == k && chunk.body == PartsOfSection(rules, options, lines, j)[b]
      && StandsUnder(rules, options, lines, j, chunk)
  {
    var lines := MarkdownLines(markdown);
    var sections := ScanOf(rules, options.mode, lines).sections;
    var bodies := AllBodies(rules, options, sections);
    j, b := ChunksAreParts(Maker(rules, digest, options.externalId, options.title), sections, bodies, 0, 0, k);
    SectionsAreStarts(rules, options.mode, lines);
    BodiesArePartsOfSections(rules, options, lines, j);
    MadeChunkStandsUnder(rules, digest, options, lines, j, sections[j], bodies[j][b], k);
  }

  /** How many parts the sections before the `j`-th are stored as. */
  function PartsBefore(rules: Rules, options: Options, lines: seq<string>, j: nat): nat
    requires options.maxChars >= 1
  {
    if j == 0 then 0
    else PartsBefore(rules, options, lines, j - 1) + |PartsOfSection(rules, options, lines, j - 1)|
  }

  lemma {:induction false} PlacesAgree(
    rules: Rules, options: Options, lines: seq<string>, bodies: seq<seq<string>>, j: nat)
    requires options.maxChars >= 1 && j <= |bodies|
    requires forall i :: 0 <= i < |bodies| ==> bodies[i] == PartsOfSection(rules, options, lines, i)
    ensures PartsUpTo(bodies, j) == PartsBefore(rules, options, lines, j)
  {
    if j > 0 {
      PlacesAgree(rules, options, lines, bodies, j - 1);
    }
  }

  /** Every part of every section is a chunk under that section's heading, in document order. */
  lemma SectionsAreStored(
    rules: Rules, digest: string -> string, options: Options, markdown: string, j: nat, b: nat) returns (k: nat)
    requires options.maxChars >= 1
    requires j <= StartCount(options.mode, HeadingsOf(rules, MarkdownLines(markdown)), |MarkdownLines(markdown)|)
    requires b < |PartsOfSection(rules, options, MarkdownLines(markdown), j)|
    ensures var lines, chunks := MarkdownLines(markdown), DocumentChunks(rules, digest, options, markdown);
      && k == PartsBefore(rules, options, lines, j) + b && k < |chunks|
      && chunks[k].body == PartsOfSection(rules, options, lines, j)[b]
      && StandsUnder(rules, options, lines, j, chunks[k])
  {
    var lines := MarkdownLines(markdown);
    var sections := ScanOf(rules, options.mode, lines).sections;
    var bodies := AllBodies(rules, options, sections);
    SectionsAreStarts(rules, options.mode, lines);
    forall i | 0 <= i < |bodies| ensures bodies[i] == PartsOfSection(rules, options, lines, i) {
      BodiesArePartsOfSections(rules, options, lines, i);
    }
    PlacesAgree(rules, options, lines, bodies, j);
    k := PartsAreChunks(Maker(rules, digest, options.externalId, options.title), sections, bodies, 0, 0, j, b);
    MadeChunkStandsUnder(rules, digest, options, lines, j, sections[j], bodies[j][b], k);
  }
}
