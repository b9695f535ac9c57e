/** Packing paragraphs into parts no longer than the limit, with overlap. */
module Packing {
  import opened Text

  /** Two characters between paragraphs. */
  const GAP := "\n\n"

  function SumLengths(paragraphs: seq<string>): nat {
    if paragraphs == [] then 0 else |paragraphs[0]| + SumLengths(paragraphs[1..])
  }

  function JoinedLength(paragraphs: seq<string>): nat {
    SumLengths(paragraphs) + 2 * (if paragraphs == [] then 0 else |paragraphs| - 1)
  }

  /** The length arithmetic is the length of the join. */
  lemma {:induction false} JoinedLengthIsLengthOfJoin(paragraphs: seq<string>)
    ensures JoinedLength(paragraphs) == |Join(paragraphs, GAP)|
  {
    if |paragraphs| > 1 {
      JoinedLengthIsLengthOfJoin(paragraphs[1..]);
    } else if |paragraphs| == 1 {
      assert SumLengths(paragraphs[1..]) == 0;
    }
  }

  lemma {:induction false} SumLengthsAppend(xs: seq<string>, ys: seq<string>)
    ensures SumLengths(xs + ys) == SumLengths(xs) + SumLengths(ys)
  {
    if xs == [] {
      assert xs + ys == ys;
    } else {
      SumLengthsAppend(xs[1..], ys);
      assert (xs + ys)[1..] == xs[1..] + ys;
    }
  }

  lemma JoinedLengthAppend(xs: seq<string>, y: string)
    ensures JoinedLength(xs + [y]) == (if xs == [] then 0 else JoinedLength(xs) + 2) + |y|
  {
    SumLengthsAppend(xs, [y]);
    assert SumLengths([y]) == |y| + SumLengths([]);
  }

  /** Where the longest suffix that fits the budget starts, looking back from `i`. */
  function TailStart(paragraphs: seq<string>, budget: nat, i: nat): (start: nat)
    requires i <= |paragraphs|
    ensures start <= i
  {
    if i == 0 || JoinedLength(paragraphs[i - 1..]) > budget then i else TailStart(paragraphs, budget, i - 1)
  }

  /** The trailing paragraphs that fit in `budget` characters. */
  function TailOf(paragraphs: seq<string>, budget: nat): seq<string> {
    paragraphs[TailStart(paragraphs, budget, |paragraphs|)..]
  }

  lemma {:induction false} TailStartIsLeast(paragraphs: seq<string>, budget: nat, i: nat)
    requires i <= |paragraphs| && JoinedLength(paragraphs[i..]) <= budget
    ensures var start := TailStart(paragraphs, budget, i);
      && JoinedLength(paragraphs[start..]) <= budget
      && (start > 0 ==> JoinedLength(paragraphs[start - 1..]) > budget)
  {
    if i > 0 && JoinedLength(paragraphs[i - 1..]) <= budget {
      TailStartIsLeast(paragraphs, budget, i - 1);
    }
  }

  lemma {:induction false} LongerSuffixIsLonger(paragraphs: seq<string>, i: nat, j: nat)
    requires i <= j <= |paragraphs|
    ensures JoinedLength(paragraphs[j..]) <= JoinedLength(paragraphs[i..])
    decreases j - i
  {
    if i < j {
      LongerSuffixIsLonger(paragraphs, i + 1, j);
      assert paragraphs[i..][1..] == paragraphs[i + 1..];
    }
  }

  /** The tail fits, and no longer suffix does. */
  lemma TailIsTheLongestFit(paragraphs: seq<string>, budget: nat, start: nat)
    requires start <= |paragraphs|
    ensures JoinedLength(TailOf(paragraphs, budget)) <= budget
    ensures JoinedLength(paragraphs[start..]) <= budget ==> |paragraphs[start..]| <= |TailOf(paragraphs, budget)|
  {
    var n := |paragraphs|;
    assert paragraphs[n..] == [];
    TailStartIsLeast(paragraphs, budget, n);
    var best := TailStart(paragraphs, budget, n);
    if start < best {
      LongerSuffixIsLonger(paragraphs, start, best - 1);
    }
  }

  method Tail(paragraphs: seq<string>, budget: nat) returns (kept: seq<string>)
    ensures kept == TailOf(paragraphs, budget)
  {
    kept := [];
    var i := |paragraphs|;
    while i > 0
      invariant 0 <= i <= |paragraphs| && kept == paragraphs[i..]
      invariant TailStart(paragraphs, budget, |paragraphs|) == TailStart(paragraphs, budget, i)
    {
      assert [paragraphs[i - 1]] + kept == paragraphs[i - 1..];
      if JoinedLength([paragraphs[i - 1]] + kept) > budget {
        break;
      }
      kept := [paragraphs[i - 1]] + kept;
      i := i - 1;
    }
  }

  /** One part: what it repeats of the part before it, then what is new. */
  datatype Part = Part(overlap: seq<string>, news: seq<string>) {
    function All(): seq<string> {
      overlap + news
    }
  }

  /** The part begun by `paragraph` once `full` is closed. */
  function Begin(full: Part, paragraph: string, maxChars: nat, overlapChars: nat): Part {
    var overlap := TailOf(full.All(), overlapChars);
    Part(if JoinedLength(overlap + [paragraph]) > maxChars then [] else overlap, [paragraph])
  }

  predicate Overflows(current: Part, paragraph: string, maxChars: nat) {
    current.All() != [] && JoinedLength(current.All() + [paragraph]) > maxChars
  }

  /** The parts still to come, once `current` has been collected. */
  function Pack(current: Part, paragraphs: seq<string>, maxChars: nat, overlapChars: nat): seq<Part>
    decreases |paragraphs|
  {
    if paragraphs == [] then (if current.All() == [] then [] else [current])
    else if Overflows(current, paragraphs[0], maxChars) then
      [current] + Pack(Begin(current, paragraphs[0], maxChars, overlapChars), paragraphs[1..], maxChars, overlapChars)
    else Pack(current.(news := current.news + [paragraphs[0]]), paragraphs[1..], maxChars, overlapChars)
  }

  function NewsOf(parts: seq<Part>): seq<string> {
    if parts == [] then [] else parts[0].news + NewsOf(parts[1..])
  }

  /** Every paragraph is new in exactly one part, in order. */
  lemma {:induction false} PackingIsLossless(current: Part, paragraphs: seq<string>, maxChars: nat, overlapChars: nat)
    requires current.news == [] ==> current.overlap == []
    ensures NewsOf(Pack(current, paragraphs, maxChars, overlapChars)) == current.news + paragraphs
    decreases |paragraphs|
  {
    if paragraphs == [] {
      assert NewsOf([current]) == current.news + NewsOf([]);
    } else if Overflows(current, paragraphs[0], maxChars) {
      var next := Begin(current, paragraphs[0], maxChars, overlapChars);
      PackingIsLossless(next, paragraphs[1..], maxChars, overlapChars);
      var rest := Pack(next, paragraphs[1..], maxChars, overlapChars);
      assert NewsOf([current] + rest) == current.news + NewsOf(rest);
      assert [paragraphs[0]] + paragraphs[1..] == paragraphs;
    } else {
      PackingIsLossless(current.(news := current.news + [paragraphs[0]]), paragraphs[1..], maxChars, overlapChars);
      assert (current.news + [paragraphs[0]]) + paragraphs[1..] == current.news + paragraphs;
    }
  }

  /** `later` follows `early`: it was begun because its first new paragraph did not fit there, and it
      repeats the longest tail within the overlap, or nothing when even that leaves no room. */
  ghost predicate Follows(early: Part, later: Part, maxChars: nat, overlapChars: nat) {
    && early.news != [] && later.news != []
    && JoinedLength(early.All() + [later.news[0]]) > maxChars
    && later.overlap ==
       (if JoinedLength(TailOf(early.All(), overlapChars) + [later.news[0]]) > maxChars then []
        else TailOf(early.All(), overlapChars))
  }

  ghost predicate Chained(parts: seq<Part>, maxChars: nat, overlapChars: nat) {
    && (forall i :: 0 <= i < |parts| ==> parts[i].news != [])
    && (forall i :: 0 <= i < |parts| - 1 ==> Follows(parts[i], parts[i + 1], maxChars, overlapChars))
  }

  /** `part` grew out of `start`: the same overlap, the same news and more. */
  ghost predicate GrewFrom(part: Part, start: Part) {
    part.overlap == start.overlap && start.news <= part.news
  }

  lemma {:induction false} PartsAreChained(current: Part, paragraphs: seq<string>, maxChars: nat, overlapChars: nat)
    requires current.news == [] ==> current.overlap == []
    ensures var parts := Pack(current, paragraphs, maxChars, overlapChars);
      && Chained(parts, maxChars, overlapChars)
      && (current.news != [] ==> parts != [] && GrewFrom(parts[0], current))
    decreases |paragraphs|
  {
    if paragraphs != [] {
      if Overflows(current, paragraphs[0], maxChars) {
        var next := Begin(current, paragraphs[0], maxChars, overlapChars);
        PartsAreChained(next, paragraphs[1..], maxChars, overlapChars);
        var rest := Pack(next, paragraphs[1..], maxChars, overlapChars);
        assert rest[0].news[0] == paragraphs[0];
        assert Follows(current, rest[0], maxChars, overlapChars);
        assert Chained([current] + rest, maxChars, overlapChars);
      } else {
        PartsAreChained(current.(news := current.news + [paragraphs[0]]), paragraphs[1..], maxChars, overlapChars);
      }
    }
  }

  /** The overlap is a proper suffix of the part before, never longer than allowed. */
  lemma OverlapIsProperSuffix(early: Part, later: Part, maxChars: nat, overlapChars: nat)
    requires Follows(early, later, maxChars, overlapChars)
    ensures |later.overlap| < |early.All()|
    ensures later.overlap == early.All()[|early.All()| - |later.overlap|..]
    ensures JoinedLength(later.overlap) <= overlapChars
  {
    TailIsTheLongestFit(early.All(), overlapChars, |early.All()|);
    var tail := TailOf(early.All(), overlapChars);
    if |tail| == |early.All()| {
      assert tail == early.All();
    }
  }

  /** A part repeats a proper suffix of the part before it, within the overlap. */
  ghost predicate Repeats(early: Part, later: Part, overlapChars: nat) {
    && |later.overlap| < |early.All()|
    && later.overlap == early.All()[|early.All()| - |later.overlap|..]
    && JoinedLength(later.overlap) <= overlapChars
  }

  /** Every part has something new, the news of all parts are the paragraphs in order, and a part was begun
      only because its first new paragraph did not fit the one before. */
  ghost predicate Lossless(parts: seq<Part>, paragraphs: seq<string>, maxChars: nat, overlapChars: nat) {
    && NewsOf(parts) == paragraphs
    && Chained(parts, maxChars, overlapChars)
    && (parts != [] ==> parts[0].overlap == [])
    && forall i :: 0 <= i < |parts| - 1 ==> Repeats(parts[i], parts[i + 1], overlapChars)
  }

  lemma {:induction false} FirstRepeatsNothing(current: Part, paragraphs: seq<string>, maxChars: nat, overlapChars: nat)
    requires current.overlap == []
    ensures var parts := Pack(current, paragraphs, maxChars, overlapChars);
      parts != [] ==> parts[0].overlap == []
    decreases |paragraphs|
  {
    if paragraphs != [] && !Overflows(current, paragraphs[0], maxChars) {
      FirstRepeatsNothing(current.(news := current.news + [paragraphs[0]]), paragraphs[1..], maxChars, overlapChars);
    }
  }

  lemma ChainedRepeats(parts: seq<Part>, maxChars: nat, overlapChars: nat, i: nat)
    requires Chained(parts, maxChars, overlapChars) && i < |parts| - 1
    ensures Repeats(parts[i], parts[i + 1], overlapChars)
  {
    OverlapIsProperSuffix(parts[i], parts[i + 1], maxChars, overlapChars);
  }

  lemma PackedIsLossless(paragraphs: seq<string>, maxChars: nat, overlapChars: nat)
    ensures Lossless(Pack(Part([], []), paragraphs, maxChars, overlapChars), paragraphs, maxChars, overlapChars)
  {
    var parts := Pack(Part([], []), paragraphs, maxChars, overlapChars);
    PackingIsLossless(Part([], []), paragraphs, maxChars, overlapChars);
    assert [] + paragraphs == paragraphs;
    PartsAreChained(Part([], []), paragraphs, maxChars, overlapChars);
    FirstRepeatsNothing(Part([], []), paragraphs, maxChars, overlapChars);
    forall i | 0 <= i < |parts| - 1 ensures Repeats(parts[i], parts[i + 1], overlapChars) {
      ChainedRepeats(parts, maxChars, overlapChars, i);
    }
  }

  /** A part is within the limit, or it is one paragraph that is over it alone. */
  ghost predicate PartFits(part: Part, maxChars: nat) {
    JoinedLength(part.All()) <= maxChars || (part.overlap == [] && |part.news| == 1 && |part.news[0]| > maxChars)
  }

  ghost predicate PartsFit(parts: seq<Part>, maxChars: nat) {
    forall i :: 0 <= i < |parts| ==> PartFits(parts[i], maxChars)
  }

  lemma {:induction false} PartsStayWithinTheLimit(
    current: Part, paragraphs: seq<string>, maxChars: nat, overlapChars: nat)
    requires PartFits(current, maxChars)
    ensures PartsFit(Pack(current, paragraphs, maxChars, overlapChars), maxChars)
    decreases |paragraphs|
  {
    if paragraphs != [] {
      var paragraph := paragraphs[0];
      assert JoinedLength([paragraph]) == |paragraph| by {
        JoinedLengthAppend([], paragraph);
        assert [] + [paragraph] == [paragraph];
      }
      if Overflows(current, paragraph, maxChars) {
        var next := Begin(current, paragraph, maxChars, overlapChars);
        assert next.overlap == [] ==> next.All() == [paragraph];
        PartsStayWithinTheLimit(next, paragraphs[1..], maxChars, overlapChars);
      } else {
        var next := current.(news := current.news + [paragraph]);
        assert next.All() == current.All() + [paragraph];
        assert current.All() == [] ==> next.All() == [paragraph];
        PartsStayWithinTheLimit(next, paragraphs[1..], maxChars, overlapChars);
      }
    }
  }

  function PartText(part: Part): string {
    Join(part.All(), GAP)
  }

  function PackedTexts(paragraphs: seq<string>, maxChars: nat, overlapChars: nat): seq<string> {
    Map(PartText, Pack(Part([], []), paragraphs, maxChars, overlapChars))
  }

  /** The texts still to come, from the paragraphs collected so far. */
  function Texts(current: seq<string>, paragraphs: seq<string>, maxChars: nat, overlapChars: nat): seq<string>
    decreases |paragraphs|
  {
    if paragraphs == [] then (if current == [] then [] else [Join(current, GAP)])
    else if current != [] && JoinedLength(current + [paragraphs[0]]) > maxChars then
      var overlap := TailOf(current, overlapChars);
      var next := if JoinedLength(overlap + [paragraphs[0]]) > maxChars then [] else overlap;
      [Join(current, GAP)] + Texts(next + [paragraphs[0]], paragraphs[1..], maxChars, overlapChars)
    else Texts(current + [paragraphs[0]], paragraphs[1..], maxChars, overlapChars)
  }

  lemma {:induction false} TextsArePartTexts(current: Part, paragraphs: seq<string>, maxChars: nat, overlapChars: nat)
    ensures Texts(current.All(), paragraphs, maxChars, overlapChars) ==
      Map(PartText, Pack(current, paragraphs, maxChars, overlapChars))
    decreases |paragraphs|
  {
    if paragraphs != [] {
      if Overflows(current, paragraphs[0], maxChars) {
        TextsArePartTexts(Begin(current, paragraphs[0], maxChars, overlapChars), paragraphs[1..], maxChars,
          overlapChars);
      } else {
        var next := current.(news := current.news + [paragraphs[0]]);
        assert next.All() == current.All() + [paragraphs[0]];
        TextsArePartTexts(next, paragraphs[1..], maxChars, overlapChars);
      }
    }
  }

  /** The greedy loop of the split. */
  method PackParagraphs(paragraphs: seq<string>, maxChars: nat, overlapChars: nat) returns (parts: seq<string>)
    ensures parts == PackedTexts(paragraphs, maxChars, overlapChars)
  {
    parts := [];
    var current: seq<string> := [];
    ghost var rest := paragraphs;
    ghost var all := Texts([], paragraphs, maxChars, overlapChars);
    for i := 0 to |paragraphs|
      invariant rest == paragraphs[i..]
      invariant all == parts + Texts(current, rest, maxChars, overlapChars)
    {
      var paragraph := paragraphs[i];
      if current != [] && JoinedLength(current + [paragraph]) > maxChars {
        parts := parts + [Join(current, GAP)];
        var overlap := Tail(current, overlapChars);
        current := if JoinedLength(overlap + [paragraph]) > maxChars then [] else overlap;
      }
      current := current + [paragraph];
      rest := rest[1..];
    }
    if current != [] {
      parts := parts + [Join(current, GAP)];
    }
    assert Part([], []).All() == [];
    TextsArePartTexts(Part([], []), paragraphs, maxChars, overlapChars);
  }
}
