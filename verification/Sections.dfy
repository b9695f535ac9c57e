/** Cutting a markdown document into sections at its headings. */
module Sections {
  import opened Text
  import opened Fences
  import opened Slugs

  datatype Mode = BySections | ByEntries

  /** The text helpers the chunker calls: the emptiness test, the link stripper, the slug alphabet. */
  datatype Rules = Rules(notEmpty: string -> bool, clean: string -> string, slugify: string -> string) {
    /** All that is assumed of them: the empty text is empty, and only white space passes for empty. */
    ghost predicate Sound() {
      !notEmpty("") && forall s :: !notEmpty(s) ==> AllSpace(s)
    }
  }

  datatype Section = Section(path: seq<string>, slug: Option<string>, lines: seq<string>)

  datatype Heading = Heading(level: nat, text: string)

  predicate IsLineTerminator(c: char) {
    c in {'\n', '\r', '\U{2028}', '\U{2029}'}
  }

  predicate HasLineTerminator(s: string) {
    s != "" && (IsLineTerminator(s[0]) || HasLineTerminator(s[1..]))
  }

  /** An optional closing run of `#`, set off by a blank, and trailing blanks. */
  predicate ClosesHeading(tail: string) {
    || AllBlank(tail)
    || var hashes := DropBlanks(tail);
       var count := Run(hashes, '#');
       |hashes| < |tail| && count >= 1 && AllBlank(hashes[count..])
  }

  /** The shortest text after which only the heading's closing is left. */
  function TextLength(t: string): (n: nat)
    ensures n <= |t|
  {
    if ClosesHeading(t) then 0 else 1 + TextLength(t[1..])
  }

  /** The text of a heading, from what follows its marks. */
  function HeadingText(rest: string): Option<string> {
    var t := DropBlanks(rest);
    var text := t[..TextLength(t)];
    if HasLineTerminator(text) then None else Some(text)
  }

  /** An ATX heading: up to three spaces, one to six `#`, then its text. */
  function ParseHeading(line: string): Option<Heading> {
    var indent := Run(line, ' ');
    var level := Run(line[indent..], '#');
    var rest := line[indent + level..];
    if indent > 3 || level == 0 || level > 6 || (rest != "" && !IsBlank(rest[0])) then None else
      var text := HeadingText(rest);
      if text.None? then None else Some(Heading(level, text.value))
  }

  /** The line as a heading that counts: one whose rendered text is not empty. */
  function HeadingOf(rules: Rules, line: string): Option<Heading> {
    var heading := ParseHeading(line);
    if heading.None? then None else
      var text := rules.clean(heading.value.text);
      if rules.notEmpty(text) then Some(Heading(heading.value.level, text)) else None
  }

  datatype Scan = Scan(
    sections: seq<Section>, fence: Option<Fence>, taken: set<string>, h2: Option<string>, titleSeen: bool)

  const START := Scan([Section([], None, [])], None, {}, None, false)

  /** Where a line ends up: dropped as the title, opening a section, or inside one. */
  datatype Place = Title | Opens(section: nat) | Holds(section: nat)

  function PlaceOfHeading(mode: Mode, sections: seq<Section>, titleSeen: bool, level: nat): Place
    requires sections != []
  {
    if level == 1 && !titleSeen && |sections| == 1 then Title
    else if level <= 2 || (level == 3 && mode.BySections?) then Opens(|sections|)
    else Holds(|sections| - 1)
  }

  function PlaceOf(rules: Rules, mode: Mode, s: Scan, line: string): Place
    requires s.sections != []
  {
    var heading := HeadingOf(rules, line);
    if Consumes(s.fence, line) || heading.None? then Holds(|s.sections| - 1)
    else PlaceOfHeading(mode, s.sections, s.titleSeen, heading.value.level)
  }

  function Hold(sections: seq<Section>, line: string): (r: seq<Section>)
    requires sections != []
    ensures |r| == |sections|
  {
    var last := |sections| - 1;
    sections[last := sections[last].(lines := sections[last].lines + [line])]
  }

  function PathOf(h2: Option<string>, heading: Heading): seq<string> {
    if heading.level <= 2 || h2.None? then [heading.text] else [h2.value, heading.text]
  }

  /** What a heading does, by its place. */
  function Headed(s: Scan, line: string, heading: Heading, slug: string, place: Place): (r: Scan)
    requires s.sections != []
    ensures r.sections != []
  {
    var slugged := s.(taken := s.taken + {slug});
    match place
    case Title => slugged.(titleSeen := true)
    case Holds(_) => slugged.(sections := Hold(s.sections, line))
    case Opens(_) =>
      slugged.(
        sections := s.sections + [Section(PathOf(s.h2, heading), Some(slug), [])],
        h2 := if heading.level <= 2 then Some(heading.text) else s.h2)
  }

  function Step(rules: Rules, mode: Mode, s: Scan, line: string): (r: Scan)
    requires s.sections != []
    ensures r.sections != []
  {
    var heading := HeadingOf(rules, line);
    var next := s.(fence := After(s.fence, line));
    if Consumes(s.fence, line) || heading.None? then next.(sections := Hold(s.sections, line))
    else
      Headed(next, line, heading.value, SlugFor(s.taken, rules.slugify(heading.value.text)),
             PlaceOfHeading(mode, s.sections, s.titleSeen, heading.value.level))
  }

  /** What one line does to the sections, by where it is placed. */
  ghost predicate Placed(s: Scan, line: string, place: Place, r: Scan)
    requires s.sections != []
  {
    && s.taken <= r.taken
    && match place
       case Holds(j) => j == |s.sections| - 1 && r.sections == Hold(s.sections, line) && r.titleSeen == s.titleSeen
       case Title => |s.sections| == 1 && r.sections == s.sections && !s.titleSeen && r.titleSeen
       case Opens(j) =>
         && j == |s.sections| && |r.sections| == j + 1 && r.sections[..j] == s.sections && r.titleSeen == s.titleSeen
         && r.sections[j].lines == [] && r.sections[j].slug.Some?
         && r.sections[j].slug.value !in s.taken && r.sections[j].slug.value in r.taken
  }

  lemma StepPlaces(rules: Rules, mode: Mode, s: Scan, line: string)
    requires s.sections != []
    ensures Placed(s, line, PlaceOf(rules, mode, s, line), Step(rules, mode, s, line))
  {
    var heading := HeadingOf(rules, line);
    if heading.Some? {
      SlugIsFree(s.taken, rules.slugify(heading.value.text));
    }
  }

  /** The state after the given lines. */
  function ScanOf(rules: Rules, mode: Mode, lines: seq<string>): (s: Scan)
    ensures s.sections != []
    decreases |lines|
  {
    if lines == [] then START
    else Step(rules, mode, ScanOf(rules, mode, lines[..|lines| - 1]), lines[|lines| - 1])
  }

  function PlaceAt(rules: Rules, mode: Mode, lines: seq<string>, i: nat): Place
    requires i < |lines|
  {
    PlaceOf(rules, mode, ScanOf(rules, mode, lines[..i]), lines[i])
  }

  lemma PlaceAtPrefix(rules: Rules, mode: Mode, lines: seq<string>, n: nat, i: nat)
    requires i < n <= |lines|
    ensures PlaceAt(rules, mode, lines[..n], i) == PlaceAt(rules, mode, lines, i)
  {
    assert lines[..n][..i] == lines[..i];
  }

  /** The line, when it is placed inside section `j`. */
  function IfHeld(place: Place, j: nat, line: string): seq<string> {
    if place == Holds(j) then [line] else []
  }

  /** The lines placed inside section `j`, in document order. */
  function LinesIn(rules: Rules, mode: Mode, lines: seq<string>, j: nat): seq<string>
    decreases |lines|
  {
    if lines == [] then [] else
      var n := |lines| - 1;
      LinesIn(rules, mode, lines[..n], j) + IfHeld(PlaceAt(rules, mode, lines, n), j, lines[n])
  }

  lemma LinesInLast(rules: Rules, mode: Mode, lines: seq<string>, j: nat)
    requires lines != []
    ensures LinesIn(rules, mode, lines, j)
         == LinesIn(rules, mode, lines[..|lines| - 1], j)
           + IfHeld(PlaceAt(rules, mode, lines, |lines| - 1), j, lines[|lines| - 1])
  {
  }

  lemma {:induction false} FenceFollows(rules: Rules, mode: Mode, lines: seq<string>)
    ensures ScanOf(rules, mode, lines).fence == AfterAll(None, lines)
    decreases |lines|
  {
    if lines != [] {
      FenceFollows(rules, mode, lines[..|lines| - 1]);
      AfterLast(None, lines);
    }
  }

  /** A section starts, and the title is dropped, only outside a fence. */
  lemma CutsOutsideFences(rules: Rules, mode: Mode, lines: seq<string>, i: nat)
    requires i < |lines| && !PlaceAt(rules, mode, lines, i).Holds?
    ensures AfterAll(None, lines[..i]) == None && AfterAll(None, lines[..i + 1]) == None
  {
    FenceFollows(rules, mode, lines[..i]);
    AfterOneMore(None, lines[..i], lines[i]);
    assert lines[..i + 1] == lines[..i] + [lines[i]];
  }

  /** A section not opened yet holds nothing. */
  lemma {:induction false} NothingAhead(rules: Rules, mode: Mode, lines: seq<string>, j: nat)
    requires j >= |ScanOf(rules, mode, lines).sections|
    ensures LinesIn(rules, mode, lines, j) == []
    decreases |lines|
  {
    if lines != [] {
      var n := |lines| - 1;
      assert lines[..n] == lines[..n];
      NothingAhead(rules, mode, lines[..n], j);
    }
  }

  lemma HeldOneMore(s: Scan, line: string, place: Place, r: Scan, j: nat, held: seq<string>)
    requires s.sections != [] && Placed(s, line, place, r) && j < |r.sections|
    requires held == if j < |s.sections| then s.sections[j].lines else []
    ensures r.sections[j].lines == held + IfHeld(place, j, line)
  {
    if place.Opens? && j < |s.sections| {
      assert r.sections[j] == r.sections[..|s.sections|][j];
    }
  }

  /** What the sections hold is exactly the lines placed in them, in order. */
  lemma {:induction false} SectionsHoldTheirLines(rules: Rules, mode: Mode, lines: seq<string>, j: nat)
    requires j < |ScanOf(rules, mode, lines).sections|
    ensures ScanOf(rules, mode, lines).sections[j].lines == LinesIn(rules, mode, lines, j)
    decreases |lines|
  {
    if lines != [] {
      var n := |lines| - 1;
      var before := ScanOf(rules, mode, lines[..n]);
      StepPlaces(rules, mode, before, lines[n]);
      LinesInLast(rules, mode, lines, j);
      if j < |before.sections| {
        SectionsHoldTheirLines(rules, mode, lines[..n], j);
      } else {
        NothingAhead(rules, mode, lines[..n], j);
      }
      HeldOneMore(before, lines[n], PlaceAt(rules, mode, lines, n), ScanOf(rules, mode, lines), j,
                  LinesIn(rules, mode, lines[..n], j));
    }
  }

  /** The current section's own fence state, started afresh at its first line. */
  ghost predicate OwnFenceIs(s: Scan, fence: Option<Fence>) {
    s.sections != [] && AfterAll(None, s.sections[|s.sections| - 1].lines) == fence
  }

  lemma OwnFenceFollows(s: Scan, line: string, place: Place, r: Scan)
    requires OwnFenceIs(s, s.fence) && Placed(s, line, place, r)
    requires r.fence == After(s.fence, line)
    requires !place.Holds? ==> s.fence == None && r.fence == None
    ensures OwnFenceIs(r, r.fence)
  {
    if place.Holds? {
      AfterOneMore(None, s.sections[place.section].lines, line);
    }
  }

  lemma {:induction false} OwnFenceIsDocumentFence(rules: Rules, mode: Mode, lines: seq<string>)
    ensures OwnFenceIs(ScanOf(rules, mode, lines), ScanOf(rules, mode, lines).fence)
    decreases |lines|
  {
    if lines != [] {
      var n := |lines| - 1;
      var before := ScanOf(rules, mode, lines[..n]);
      OwnFenceIsDocumentFence(rules, mode, lines[..n]);
      StepPlaces(rules, mode, before, lines[n]);
      OwnFenceFollows(before, lines[n], PlaceAt(rules, mode, lines, n), ScanOf(rules, mode, lines));
    }
  }

  /** Before every line inside a section, the section's own fence state is the whole document's. */
  lemma FenceStatesAgree(rules: Rules, mode: Mode, lines: seq<string>, i: nat, j: nat)
    requires i < |lines| && PlaceAt(rules, mode, lines, i) == Holds(j)
    ensures AfterAll(None, LinesIn(rules, mode, lines[..i], j)) == AfterAll(None, lines[..i])
  {
    OwnFenceIsDocumentFence(rules, mode, lines[..i]);
    FenceFollows(rules, mode, lines[..i]);
    SectionsHoldTheirLines(rules, mode, lines[..i], j);
  }

  function LineCount(sections: seq<Section>): nat {
    if sections == [] then 0 else |sections[0].lines| + LineCount(sections[1..])
  }

  lemma {:induction false} LineCountOfHold(sections: seq<Section>, line: string)
    requires sections != []
    ensures LineCount(Hold(sections, line)) == LineCount(sections) + 1
  {
    var held := Hold(sections, line);
    if |sections| == 1 {
      assert held[1..] == sections[1..];
    } else {
      LineCountOfHold(sections[1..], line);
      assert held[1..] == Hold(sections[1..], line);
    }
  }

  lemma {:induction false} LineCountOfNew(sections: seq<Section>, section: Section)
    ensures LineCount(sections + [section]) == LineCount(sections) + |section.lines|
  {
    var all := sections + [section];
    if sections != [] {
      LineCountOfNew(sections[1..], section);
      assert all[1..] == sections[1..] + [section];
    }
  }

  function Accounted(s: Scan): nat
    requires s.sections != []
  {
    LineCount(s.sections) + (|s.sections| - 1) + (if s.titleSeen then 1 else 0)
  }

  lemma OneMoreAccounted(s: Scan, line: string, place: Place, r: Scan)
    requires s.sections != [] && Placed(s, line, place, r)
    ensures Accounted(r) == Accounted(s) + 1
  {
    LineCountOfHold(s.sections, line);
    if place.Opens? {
      LineCountOfNew(s.sections, r.sections[place.section]);
      assert r.sections == s.sections + [r.sections[place.section]];
    }
  }

  /** No line is lost: each is held once, opens one section, or is the one dropped title. */
  lemma {:induction false} EveryLineLandsOnce(rules: Rules, mode: Mode, lines: seq<string>)
    ensures var s := ScanOf(rules, mode, lines);
      LineCount(s.sections) + (|s.sections| - 1) + (if s.titleSeen then 1 else 0) == |lines|
    decreases |lines|
  {
    if lines != [] {
      var n := |lines| - 1;
      var before := ScanOf(rules, mode, lines[..n]);
      EveryLineLandsOnce(rules, mode, lines[..n]);
      StepPlaces(rules, mode, before, lines[n]);
      OneMoreAccounted(before, lines[n], PlaceAt(rules, mode, lines, n), ScanOf(rules, mode, lines));
    }
  }

  /** The section a place belongs to; the title precedes every cut. */
  function SectionAt(place: Place): nat {
    if place.Title? then 0 else place.section
  }

  lemma LineIsPlaced(rules: Rules, mode: Mode, lines: seq<string>, i: nat)
    requires i < |lines|
    ensures Placed(ScanOf(rules, mode, lines[..i]), lines[i], PlaceAt(rules, mode, lines, i),
      ScanOf(rules, mode, lines[..i + 1]))
  {
    assert lines[..i + 1][..i] == lines[..i];
    StepPlaces(rules, mode, ScanOf(rules, mode, lines[..i]), lines[i]);
  }

  /** A line's place and a later line's, of `count` sections: the later one never lands earlier, a section is
      opened once, and the title is one. */
  ghost predicate InOrder(a: Place, b: Place, count: nat) {
    && SectionAt(a) <= SectionAt(b) < count
    && (b.Opens? ==> SectionAt(a) < SectionAt(b))
    && !(a.Title? && b.Title?)
  }

  /** Every line takes one state to the next, and is placed. */
  ghost predicate Traced(lines: seq<string>, scans: seq<Scan>, places: seq<Place>) {
    && |scans| == |lines| + 1 && |places| == |lines|
    && (forall i :: 0 <= i < |scans| ==> scans[i].sections != [])
    && forall i :: 0 <= i < |lines| ==> Placed(scans[i], lines[i], places[i], scans[i + 1])
  }

  lemma {:induction false} TracedOnlyGrows(lines: seq<string>, scans: seq<Scan>, places: seq<Place>, i: nat, k: nat)
    requires Traced(lines, scans, places) && i <= k <= |lines|
    ensures |scans[i].sections| <= |scans[k].sections| && (scans[i].titleSeen ==> scans[k].titleSeen)
    decreases k
  {
    if i < k {
      TracedOnlyGrows(lines, scans, places, i, k - 1);
      assert Placed(scans[k - 1], lines[k - 1], places[k - 1], scans[k]);
    }
  }

  lemma TracedInOrder(lines: seq<string>, scans: seq<Scan>, places: seq<Place>, i: nat, k: nat)
    requires Traced(lines, scans, places) && i < k < |lines|
    ensures InOrder(places[i], places[k], |scans[|lines|].sections|)
  {
    assert Placed(scans[i], lines[i], places[i], scans[i + 1]);
    assert Placed(scans[k], lines[k], places[k], scans[k + 1]);
    TracedOnlyGrows(lines, scans, places, i + 1, k);
    TracedOnlyGrows(lines, scans, places, k + 1, |lines|);
  }

  lemma TraceOf(rules: Rules, mode: Mode, lines: seq<string>) returns (scans: seq<Scan>, places: seq<Place>)
    ensures Traced(lines, scans, places)
    ensures forall i :: 0 <= i <= |lines| ==> scans[i] == ScanOf(rules, mode, lines[..i])
    ensures forall i :: 0 <= i < |lines| ==> places[i] == PlaceAt(rules, mode, lines, i)
  {
    scans := seq(|lines| + 1, j requires 0 <= j <= |lines| => ScanOf(rules, mode, lines[..j]));
    places := seq(|lines|, j requires 0 <= j < |lines| => PlaceAt(rules, mode, lines, j));
    forall j | 0 <= j < |lines| ensures Placed(scans[j], lines[j], places[j], scans[j + 1]) {
      LineIsPlaced(rules, mode, lines, j);
    }
  }

  /** Sections follow the document. */
  lemma PlacesFollowTheDocument(rules: Rules, mode: Mode, lines: seq<string>, i: nat, k: nat)
    requires i < k < |lines|
    ensures InOrder(PlaceAt(rules, mode, lines, i), PlaceAt(rules, mode, lines, k),
      |ScanOf(rules, mode, lines).sections|)
  {
    var scans, places := TraceOf(rules, mode, lines);
    TracedInOrder(lines, scans, places, i, k);
    assert lines[..|lines|] == lines;
  }

  ghost predicate SlugsApart(s: Scan) {
    && s.sections != []
    && s.sections[0].slug == None
    && (forall j :: 0 < j < |s.sections| ==> s.sections[j].slug.Some? && s.sections[j].slug.value in s.taken)
    && (forall i, j :: 0 <= i < j < |s.sections| ==> s.sections[i].slug != s.sections[j].slug)
  }

  lemma SlugsStayApart(s: Scan, line: string, place: Place, r: Scan)
    requires SlugsApart(s) && Placed(s, line, place, r)
    ensures SlugsApart(r)
  {
    assert forall j :: 0 <= j < |s.sections| ==> r.sections[j].slug == s.sections[j].slug by {
      if place.Opens? {
        assert forall j :: 0 <= j < |s.sections| ==> r.sections[j] == r.sections[..place.section][j];
      }
    }
  }

  /** Only the text before the first cut has no slug, and no two sections share one. */
  lemma {:induction false} SectionSlugsAreDistinct(rules: Rules, mode: Mode, lines: seq<string>)
    ensures SlugsApart(ScanOf(rules, mode, lines))
    decreases |lines|
  {
    if lines != [] {
      var n := |lines| - 1;
      var before := ScanOf(rules, mode, lines[..n]);
      SectionSlugsAreDistinct(rules, mode, lines[..n]);
      StepPlaces(rules, mode, before, lines[n]);
      SlugsStayApart(before, lines[n], PlaceAt(rules, mode, lines, n), ScanOf(rules, mode, lines));
    }
  }
}
