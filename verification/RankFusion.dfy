/** Reciprocal rank fusion: ranked lists merged by rank alone. */
module RankFusion {
  import opened Text

  /** Ids, best first, and how much the list counts. */
  datatype Ranking = Ranking(ids: seq<string>, weight: real)

  datatype Hit = Hit(id: string, score: real, bestRank: nat, firstSeen: nat)

  function Place(ids: seq<string>, id: string): (i: nat)
    requires id in ids
    ensures i < |ids| && ids[i] == id
    ensures forall k :: 0 <= k < i ==> ids[k] != id
  {
    if ids[0] == id then 0 else 1 + Place(ids[1..], id)
  }

  /** The 1-based rank of an id in a list, at its better place; 0 when it is not there. */
  function RankOf(ids: seq<string>, id: string): (rank: nat)
    ensures rank > 0 <==> id in ids
  {
    var distinct := Deduplicate(ids);
    DeduplicateKeepsElements(ids);
    if id in ids then Place(distinct, id) + 1 else 0
  }

  /** What a rank in a list of some weight is worth. */
  type Share = (real, nat) -> real

  /** The reciprocal rank: weight / (k + rank). */
  function Reciprocal(k: nat): Share {
    (weight: real, rank: nat) => if rank == 0 then 0.0 else weight / (k + rank) as real
  }

  /** What one list gives an id. A list weighted zero or less gives nothing. */
  function Contribution(r: Ranking, share: Share, id: string): real {
    if r.weight > 0.0 && id in r.ids then share(r.weight, RankOf(r.ids, id)) else 0.0
  }

  /** The score of an id: what every list gives it. */
  function Score(rankings: seq<Ranking>, share: Share, id: string): real
    decreases |rankings|
  {
    if rankings == [] then 0.0
    else Score(rankings[..|rankings| - 1], share, id) + Contribution(rankings[|rankings| - 1], share, id)
  }

  /** An id counts when some positively weighted list names it. */
  ghost predicate Counts(rankings: seq<Ranking>, id: string) {
    exists i :: 0 <= i < |rankings| && rankings[i].weight > 0.0 && id in rankings[i].ids
  }

  // ---- The lists as one sequence of entries, in the order the fusion reads them

  datatype Entry = Entry(id: string, rank: nat, weight: real)

  function EntriesOf(r: Ranking): (entries: seq<Entry>)
    ensures |entries| == if r.weight > 0.0 then |Deduplicate(r.ids)| else 0
    ensures forall j :: 0 <= j < |entries| ==> entries[j] == Entry(Deduplicate(r.ids)[j], j + 1, r.weight)
  {
    if r.weight <= 0.0 then []
    else
      var distinct := Deduplicate(r.ids);
      seq(|distinct|, j requires 0 <= j < |distinct| => Entry(distinct[j], j + 1, r.weight))
  }

  function Entries(rankings: seq<Ranking>): seq<Entry>
    decreases |rankings|
  {
    if rankings == [] then [] else Entries(rankings[..|rankings| - 1]) + EntriesOf(rankings[|rankings| - 1])
  }

  ghost predicate Ranked(entries: seq<Entry>) {
    forall i :: 0 <= i < |entries| ==> entries[i].rank > 0
  }

  lemma {:induction false} EntriesAreRanked(rankings: seq<Ranking>)
    ensures Ranked(Entries(rankings))
    decreases |rankings|
  {
    if rankings != [] {
      EntriesAreRanked(rankings[..|rankings| - 1]);
    }
  }

  function SumFor(entries: seq<Entry>, share: Share, id: string): real
    decreases |entries|
  {
    if entries == [] then 0.0
    else
      var last := entries[|entries| - 1];
      SumFor(entries[..|entries| - 1], share, id) + (if last.id == id then share(last.weight, last.rank) else 0.0)
  }

  /** The best rank an id reaches; 0 when it never appears. */
  function BestFor(entries: seq<Entry>, id: string): nat
    decreases |entries|
  {
    if entries == [] then 0
    else
      var last := entries[|entries| - 1];
      var before := BestFor(entries[..|entries| - 1], id);
      if last.id != id then before else if before == 0 || last.rank < before then last.rank else before
  }

  function IdsOf(entries: seq<Entry>): (ids: seq<string>)
    ensures |ids| == |entries|
    ensures forall i :: 0 <= i < |entries| ==> ids[i] == entries[i].id
  {
    seq(|entries|, i requires 0 <= i < |entries| => entries[i].id)
  }

  /** The ids in the order they first appear. */
  function Appearance(entries: seq<Entry>): seq<string> {
    Deduplicate(IdsOf(entries))
  }

  lemma AppearanceStep(entries: seq<Entry>, entry: Entry)
    ensures Appearance(entries + [entry]) ==
      if entry.id in Appearance(entries) then Appearance(entries) else Appearance(entries) + [entry.id]
  {
    var all := IdsOf(entries + [entry]);
    assert all[..|entries|] == IdsOf(entries);
  }

  /** The hit the fusion holds for an id it has seen. */
  function HitFor(entries: seq<Entry>, share: Share, id: string): Hit
    requires id in Appearance(entries)
  {
    Hit(id, SumFor(entries, share, id), BestFor(entries, id), Place(Appearance(entries), id))
  }

  /** A rank is the place among the distinct ids. */
  lemma RankIsPlace(ids: seq<string>, id: string, n: nat)
    requires 0 < n <= |Deduplicate(ids)|
    ensures RankOf(ids, id) == n <==> Deduplicate(ids)[n - 1] == id
  {
    DeduplicateKeepsElements(ids);
    var distinct := Deduplicate(ids);
    if distinct[n - 1] == id {
      assert id in distinct;
      assert distinct[RankOf(ids, id) - 1] == id;
    }
  }

  lemma SumOneMore(before: seq<Entry>, last: Entry, share: Share, id: string)
    ensures SumFor(before + [last], share, id)
         == SumFor(before, share, id) + (if last.id == id then share(last.weight, last.rank) else 0.0)
  {
    assert (before + [last])[..|before|] == before;
  }

  /** A list gives each id its one share. */
  lemma {:induction false} SumOverOneList(before: seq<Entry>, r: Ranking, share: Share, id: string, n: nat)
    requires r.weight > 0.0 && n <= |EntriesOf(r)|
    ensures SumFor(before + EntriesOf(r)[..n], share, id) ==
      SumFor(before, share, id) + (if 0 < RankOf(r.ids, id) <= n then share(r.weight, RankOf(r.ids, id)) else 0.0)
  {
    var own := EntriesOf(r);
    if n == 0 {
      assert before + own[..0] == before;
    } else {
      SumOverOneList(before, r, share, id, n - 1);
      SumOneMore(before + own[..n - 1], own[n - 1], share, id);
      assert before + own[..n] == (before + own[..n - 1]) + [own[n - 1]];
      RankIsPlace(r.ids, id, n);
    }
  }

  lemma RankIsWithin(ids: seq<string>, id: string)
    ensures RankOf(ids, id) <= |Deduplicate(ids)|
  {
    DeduplicateKeepsElements(ids);
  }

  /** Reading the lists entry by entry adds up to the score. */
  lemma {:induction false} SumIsScore(rankings: seq<Ranking>, share: Share, id: string)
    ensures SumFor(Entries(rankings), share, id) == Score(rankings, share, id)
    decreases |rankings|
  {
    if rankings != [] {
      var n := |rankings| - 1;
      var r := rankings[n];
      SumIsScore(rankings[..n], share, id);
      if r.weight > 0.0 {
        var own := EntriesOf(r);
        assert own[..|own|] == own;
        SumOverOneList(Entries(rankings[..n]), r, share, id, |own|);
        RankIsWithin(r.ids, id);
      } else {
        assert Entries(rankings) == Entries(rankings[..n]);
      }
    }
  }

  lemma ListAppears(r: Ranking, id: string)
    ensures id in IdsOf(EntriesOf(r)) <==> r.weight > 0.0 && id in r.ids
  {
    var own := EntriesOf(r);
    if r.weight > 0.0 {
      DeduplicateKeepsElements(r.ids);
      assert IdsOf(own) == Deduplicate(r.ids);
    }
  }

  lemma CountsInOneMore(rankings: seq<Ranking>, id: string)
    requires rankings != []
    ensures var n := |rankings| - 1;
      Counts(rankings, id) <==> Counts(rankings[..n], id) || (rankings[n].weight > 0.0 && id in rankings[n].ids)
  {
    var n := |rankings| - 1;
    assert forall i :: 0 <= i < n ==> rankings[..n][i] == rankings[i];
    if Counts(rankings[..n], id) {
      var i :| 0 <= i < n && rankings[..n][i].weight > 0.0 && id in rankings[..n][i].ids;
      assert rankings[i].weight > 0.0 && id in rankings[i].ids;
    }
    if Counts(rankings, id) {
      var i :| 0 <= i < |rankings| && rankings[i].weight > 0.0 && id in rankings[i].ids;
      if i < n {
        assert rankings[..n][i].weight > 0.0 && id in rankings[..n][i].ids;
      }
    }
  }

  lemma {:induction false} AppearanceCounts(rankings: seq<Ranking>, id: string)
    ensures id in IdsOf(Entries(rankings)) <==> Counts(rankings, id)
    decreases |rankings|
  {
    if rankings != [] {
      var n := |rankings| - 1;
      AppearanceCounts(rankings[..n], id);
      ListAppears(rankings[n], id);
      CountsInOneMore(rankings, id);
      assert IdsOf(Entries(rankings)) == IdsOf(Entries(rankings[..n])) + IdsOf(EntriesOf(rankings[n]));
    }
  }

  ghost predicate IsLeastRank(entries: seq<Entry>, id: string, rank: nat) {
    && (forall i :: 0 <= i < |entries| && entries[i].id == id ==> rank <= entries[i].rank)
    && exists i :: 0 <= i < |entries| && entries[i].id == id && rank == entries[i].rank
  }

  lemma LeastOneMore(before: seq<Entry>, last: Entry, id: string, rank: nat)
    requires IsLeastRank(before, id, rank)
    ensures IsLeastRank(before + [last], id, if last.id == id && last.rank < rank then last.rank else rank)
  {
    var all := before + [last];
    assert all[|before|] == last;
    var i :| 0 <= i < |before| && before[i].id == id && rank == before[i].rank;
    assert all[i] == before[i];
  }

  lemma LeastOfFirst(before: seq<Entry>, last: Entry, id: string)
    requires id !in IdsOf(before) && last.id == id
    ensures IsLeastRank(before + [last], id, last.rank)
  {
    var all := before + [last];
    assert all[|before|] == last;
    forall i | 0 <= i < |before| ensures before[i].id != id {
      assert IdsOf(before)[i] == before[i].id;
    }
  }

  lemma {:induction false} SeenHasRank(entries: seq<Entry>, id: string)
    requires Ranked(entries) && id in IdsOf(entries)
    ensures BestFor(entries, id) > 0
    decreases |entries|
  {
    var n := |entries| - 1;
    if entries[n].id != id {
      assert IdsOf(entries[..n]) == IdsOf(entries)[..n];
      SeenHasRank(entries[..n], id);
    }
  }

  lemma {:induction false} UnseenHasNothing(entries: seq<Entry>, share: Share, id: string)
    requires id !in IdsOf(entries)
    ensures SumFor(entries, share, id) == 0.0 && BestFor(entries, id) == 0
    decreases |entries|
  {
    if entries != [] {
      var n := |entries| - 1;
      assert IdsOf(entries)[n] == entries[n].id;
      assert IdsOf(entries[..n]) == IdsOf(entries)[..n];
      UnseenHasNothing(entries[..n], share, id);
    }
  }

  lemma {:induction false} BestIsLeast(entries: seq<Entry>, id: string)
    requires Ranked(entries) && id in IdsOf(entries)
    ensures IsLeastRank(entries, id, BestFor(entries, id))
    decreases |entries|
  {
    var n := |entries| - 1;
    var before, last := entries[..n], entries[n];
    assert entries == before + [last];
    assert IdsOf(entries) == IdsOf(before) + [last.id];
    if id in IdsOf(before) {
      BestIsLeast(before, id);
      SeenHasRank(before, id);
      LeastOneMore(before, last, id, BestFor(before, id));
    } else {
      UnseenHasNothing(before, Reciprocal(0), id);
      LeastOfFirst(before, last, id);
    }
  }

  // ---- Order

  /** Higher score first, then better rank, then earlier appearance. */
  predicate Before(a: Hit, b: Hit) {
    || a.score > b.score
    || (a.score == b.score && (a.bestRank < b.bestRank || (a.bestRank == b.bestRank && a.firstSeen < b.firstSeen)))
  }

  ghost predicate Sorted(hits: seq<Hit>) {
    forall i, j :: 0 <= i < j < |hits| ==> Before(hits[i], hits[j])
  }

  lemma TailMembers(a: seq<Hit>)
    requires Sorted(a) && a != []
    ensures forall hit :: hit in a[1..] <==> hit in a && hit != a[0]
  {
    forall hit | hit in a && hit != a[0] ensures hit in a[1..] {
      var i :| 0 <= i < |a| && a[i] == hit;
      assert a[1..][i - 1] == hit;
    }
    assert forall i :: 0 <= i < |a[1..]| ==> Before(a[0], a[1..][i]);
  }

  lemma SameTails(a: seq<Hit>, b: seq<Hit>)
    requires Sorted(a) && Sorted(b) && a != [] && b != [] && a[0] == b[0] && forall hit :: hit in a <==> hit in b
    ensures forall hit :: hit in a[1..] <==> hit in b[1..]
  {
    TailMembers(a);
    TailMembers(b);
  }

  /** The order is total on hits seen at different places, so a sorted list of them is the only one. */
  lemma {:induction false} SortedIsUnique(a: seq<Hit>, b: seq<Hit>)
    requires Sorted(a) && Sorted(b) && forall hit :: hit in a <==> hit in b
    ensures a == b
  {
    assert b != [] ==> b[0] in b;
    if a != [] {
      assert a[0] in b && b != [] && b[0] in a;
      assert a[0] == b[0];
      SameTails(a, b);
      SortedIsUnique(a[1..], b[1..]);
      assert a == [a[0]] + a[1..] && b == [b[0]] + b[1..];
    }
  }

  /** Where a hit goes in a sorted list. */
  function Insert(hit: Hit, sorted: seq<Hit>): seq<Hit> {
    if sorted == [] || Before(hit, sorted[0]) then [hit] + sorted else [sorted[0]] + Insert(hit, sorted[1..])
  }

  lemma {:induction false} InsertKeepsSorted(hit: Hit, sorted: seq<Hit>)
    requires Sorted(sorted) && forall i :: 0 <= i < |sorted| ==> sorted[i].firstSeen != hit.firstSeen
    ensures Sorted(Insert(hit, sorted))
    ensures forall h :: h in Insert(hit, sorted) <==> h == hit || h in sorted
  {
    if sorted != [] && !Before(hit, sorted[0]) {
      InsertKeepsSorted(hit, sorted[1..]);
      var rest := Insert(hit, sorted[1..]);
      forall i | 0 <= i < |rest| ensures Before(sorted[0], rest[i]) {
        assert rest[i] in rest;
      }
      assert sorted == [sorted[0]] + sorted[1..];
    }
  }

  /** Sorts hits seen at different places. */
  method Sort(hits: seq<Hit>) returns (sorted: seq<Hit>)
    requires forall i, j :: 0 <= i < j < |hits| ==> hits[i].firstSeen != hits[j].firstSeen
    ensures Sorted(sorted) && forall hit :: hit in sorted <==> hit in hits
  {
    sorted := [];
    for i := 0 to |hits|
      invariant Sorted(sorted) && forall hit :: hit in sorted <==> hit in hits[..i]
    {
      forall j | 0 <= j < |sorted| ensures sorted[j].firstSeen != hits[i].firstSeen {
        assert sorted[j] in hits[..i];
      }
      InsertKeepsSorted(hits[i], sorted);
      sorted := Insert(hits[i], sorted);
      assert hits[..i + 1] == hits[..i] + [hits[i]];
    }
    assert hits[..|hits|] == hits;
  }

  /** A hit's fields say what they should of its id. */
  ghost predicate IsHit(hit: Hit, rankings: seq<Ranking>, share: Share) {
    var entries := Entries(rankings);
    && hit.score == Score(rankings, share, hit.id)
    && hit.bestRank == BestFor(entries, hit.id)
    && hit.id in Appearance(entries) && hit.firstSeen == Place(Appearance(entries), hit.id)
  }

  /** What the lists fuse to: each id that counts, once, with its exact score, in the one order there is. */
  ghost predicate IsFusion(hits: seq<Hit>, rankings: seq<Ranking>, share: Share) {
    && Sorted(hits)
    && (forall id :: Counts(rankings, id) <==> exists i :: 0 <= i < |hits| && hits[i].id == id)
    && (forall i, j :: 0 <= i < j < |hits| ==> hits[i].id != hits[j].id)
    && forall i :: 0 <= i < |hits| ==> IsHit(hits[i], rankings, share)
  }

  lemma HitIsThere(hit: Hit, a: seq<Hit>, b: seq<Hit>, rankings: seq<Ranking>, share: Share)
    requires IsFusion(a, rankings, share) && IsFusion(b, rankings, share) && hit in a
    ensures hit in b
  {
    var i :| 0 <= i < |a| && a[i] == hit;
    assert Counts(rankings, a[i].id);
    var j :| 0 <= j < |b| && b[j].id == hit.id;
    assert IsHit(a[i], rankings, share) && IsHit(b[j], rankings, share);
  }

  /** The fusion is determined by the lists. */
  lemma FusionIsUnique(a: seq<Hit>, b: seq<Hit>, rankings: seq<Ranking>, share: Share)
    requires IsFusion(a, rankings, share) && IsFusion(b, rankings, share)
    ensures a == b
  {
    forall hit | hit in a ensures hit in b {
      HitIsThere(hit, a, b, rankings, share);
    }
    forall hit | hit in b ensures hit in a {
      HitIsThere(hit, b, a, rankings, share);
    }
    SortedIsUnique(a, b);
  }

  // ---- What the order means

  /** A better rank is worth more, and every rank something. */
  ghost predicate Falls(share: Share) {
    forall weight, better, worse :: weight > 0.0 && 0 < better < worse ==>
      share(weight, better) > share(weight, worse) > 0.0
  }

  lemma QuotientFalls(weight: real, x: real, y: real)
    requires weight > 0.0 && 0.0 < x < y
    ensures weight / x > weight / y > 0.0
  {
    var p, q := weight / x, weight / y;
    assert p * x == weight && q * y == weight;
    assert q * x < q * y == p * x;
    assert (p - q) * x > 0.0;
  }

  lemma ReciprocalFalls(k: nat)
    ensures Falls(Reciprocal(k))
  {
    forall weight: real, better: nat, worse: nat | weight > 0.0 && 0 < better < worse
      ensures Reciprocal(k)(weight, better) > Reciprocal(k)(weight, worse) > 0.0
    {
      QuotientFalls(weight, (k + better) as real, (k + worse) as real);
    }
  }

  /** `a` is ahead of `b` in a list that holds `b`, or the list does not hold `b`. */
  ghost predicate Ahead(r: Ranking, a: string, b: string) {
    r.weight > 0.0 && b in r.ids ==> a in r.ids && RankOf(r.ids, a) < RankOf(r.ids, b)
  }

  ghost predicate AheadInAll(rankings: seq<Ranking>, a: string, b: string) {
    forall i :: 0 <= i < |rankings| ==> Ahead(rankings[i], a, b)
  }

  lemma AheadContributesMore(r: Ranking, share: Share, a: string, b: string)
    requires Falls(share) && Ahead(r, a, b)
    ensures Contribution(r, share, a) >= Contribution(r, share, b)
    ensures r.weight > 0.0 && b in r.ids ==> Contribution(r, share, a) > Contribution(r, share, b)
  {
    if r.weight > 0.0 && a in r.ids {
      var rank := RankOf(r.ids, a);
      assert share(r.weight, rank) > share(r.weight, rank + 1);
    }
  }

  lemma {:induction false} AheadScoresHigher(rankings: seq<Ranking>, share: Share, a: string, b: string)
    requires Falls(share) && AheadInAll(rankings, a, b)
    ensures Score(rankings, share, a) >= Score(rankings, share, b)
    ensures Counts(rankings, b) ==> Score(rankings, share, a) > Score(rankings, share, b)
    decreases |rankings|
  {
    if rankings != [] {
      var n := |rankings| - 1;
      assert AheadInAll(rankings[..n], a, b) by {
        assert forall i :: 0 <= i < n ==> rankings[..n][i] == rankings[i];
      }
      AheadScoresHigher(rankings[..n], share, a, b);
      AheadContributesMore(rankings[n], share, a, b);
      CountsInOneMore(rankings, b);
    }
  }

  lemma HigherIsEarlier(hits: seq<Hit>, i: nat, j: nat)
    requires Sorted(hits) && i < |hits| && j < |hits| && hits[i].score > hits[j].score
    ensures i < j
  {
    assert !Before(hits[j], hits[i]);
  }

  /** An id ahead of another in every list that holds the other precedes it. */
  lemma AheadEverywherePrecedes(hits: seq<Hit>, rankings: seq<Ranking>, share: Share, i: nat, j: nat)
    requires Falls(share) && IsFusion(hits, rankings, share) && i < |hits| && j < |hits|
    requires AheadInAll(rankings, hits[i].id, hits[j].id)
    ensures i < j
  {
    assert Counts(rankings, hits[j].id);
    AheadScoresHigher(rankings, share, hits[i].id, hits[j].id);
    assert IsHit(hits[i], rankings, share) && IsHit(hits[j], rankings, share);
    HigherIsEarlier(hits, i, j);
  }

  /** Lists that share no id with the others keep their own order. */
  lemma OwnListKeepsItsOrder(hits: seq<Hit>, rankings: seq<Ranking>, share: Share, list: nat, i: nat, j: nat)
    requires Falls(share) && IsFusion(hits, rankings, share) && i < |hits| && j < |hits| && list < |rankings|
    requires forall other :: 0 <= other < |rankings| && other != list && rankings[other].weight > 0.0 ==>
      hits[j].id !in rankings[other].ids
    requires hits[i].id in rankings[list].ids
      && RankOf(rankings[list].ids, hits[i].id) < RankOf(rankings[list].ids, hits[j].id)
    ensures i < j
  {
    AheadEverywherePrecedes(hits, rankings, share, i, j);
  }

  // ---- Scores and order by the lists alone

  lemma {:induction false} DistinctCount(xs: seq<string>)
    requires forall i, j :: 0 <= i < j < |xs| ==> xs[i] != xs[j]
    ensures |set x | x in xs| == |xs|
  {
    if xs != [] {
      var n := |xs| - 1;
      DistinctCount(xs[..n]);
      assert xs == xs[..n] + [xs[n]];
      assert (set x | x in xs) == (set x | x in xs[..n]) + {xs[n]};
    }
  }

  lemma PlaceIsOnly(ids: seq<string>, id: string, p: nat)
    requires p < |ids| && ids[p] == id && forall k :: 0 <= k < p ==> ids[k] != id
    ensures Place(ids, id) == p
  {
  }

  /** The rank of an id counts it and the different ids named before it. */
  lemma {:induction false} RankCountsTheBetter(ids: seq<string>, id: string)
    requires id in ids
    ensures RankOf(ids, id) == 1 + |set x | x in ids[..Place(ids, id)]|
    decreases |ids|
  {
    var n, p := |ids| - 1, Place(ids, id);
    var before, all := Deduplicate(ids[..n]), Deduplicate(ids);
    DeduplicateKeepsElements(ids[..n]);
    DeduplicateKeepsElements(ids);
    if p < n {
      assert ids[..n][p] == id;
      PlaceIsOnly(ids[..n], id, p);
      RankCountsTheBetter(ids[..n], id);
      assert ids[..n][..p] == ids[..p];
      PlaceIsOnly(all, id, Place(before, id));
    } else {
      assert id !in ids[..n] && all == before + [id];
      PlaceIsOnly(all, id, |before|);
      DistinctCount(before);
      assert (set x | x in before) == set x | x in ids[..p];
    }
  }

  /** What the first `n` lists are worth to an id: their weight over the constant, the different ids they name before
      it, and one. */
  function Worth(rankings: seq<Ranking>, k: nat, id: string, n: nat): real
    requires n <= |rankings|
  {
    if n == 0 then 0.0
    else
      var r := rankings[n - 1];
      Worth(rankings, k, id, n - 1) +
        if r.weight > 0.0 && id in r.ids
        then r.weight / (k + 1 + |set x | x in r.ids[..Place(r.ids, id)]|) as real
        else 0.0
  }

  lemma {:induction false} ScoreIsWorth(rankings: seq<Ranking>, k: nat, id: string, n: nat)
    requires n <= |rankings|
    ensures Score(rankings[..n], Reciprocal(k), id) == Worth(rankings, k, id, n)
  {
    if n > 0 {
      ScoreIsWorth(rankings, k, id, n - 1);
      assert rankings[..n][..n - 1] == rankings[..n - 1];
      if id in rankings[n - 1].ids {
        RankCountsTheBetter(rankings[n - 1].ids, id);
      }
    }
  }

  /** A fused hit's score is what the lists are worth to it. */
  lemma HitsScoreTheirWorth(hits: seq<Hit>, rankings: seq<Ranking>, k: nat, i: nat)
    requires IsFusion(hits, rankings, Reciprocal(k)) && i < |hits|
    ensures hits[i].score == Worth(rankings, k, hits[i].id, |rankings|)
  {
    assert IsHit(hits[i], rankings, Reciprocal(k));
    ScoreIsWorth(rankings, k, hits[i].id, |rankings|);
    assert rankings[..|rankings|] == rankings;
  }

  /** Higher scores come first; of equal ones, the better best rank; of those, what was seen first. */
  lemma OrderIff(hits: seq<Hit>, rankings: seq<Ranking>, share: Share, i: nat, j: nat)
    requires IsFusion(hits, rankings, share) && i < |hits| && j < |hits| && i != j
    ensures i < j <==>
      || hits[i].score > hits[j].score
      || (hits[i].score == hits[j].score
          && (hits[i].bestRank < hits[j].bestRank
              || (hits[i].bestRank == hits[j].bestRank && hits[i].firstSeen < hits[j].firstSeen)))
  {
    if i < j {
      assert Before(hits[i], hits[j]);
    } else {
      assert Before(hits[j], hits[i]);
    }
  }

  // ---- The fusion itself

  lemma EntriesPrefix(rankings: seq<Ranking>, i: nat)
    requires i < |rankings|
    ensures Entries(rankings[..i + 1]) == Entries(rankings[..i]) + EntriesOf(rankings[i])
  {
    assert rankings[..i + 1][..i] == rankings[..i];
  }

  /** The state of the fusion: hits by id, and the ids in the order the map was filled. */
  ghost predicate Holds(hits: map<string, Hit>, order: seq<string>, entries: seq<Entry>, share: Share) {
    && Ranked(entries)
    && order == Appearance(entries)
    && (forall id :: id in hits <==> id in order)
    && forall id :: id in hits ==> hits[id] == HitFor(entries, share, id)
  }

  /** The map after one more entry. */
  function Read(hits: map<string, Hit>, seen: nat, entry: Entry, share: Share): map<string, Hit> {
    var worth := share(entry.weight, entry.rank);
    if entry.id !in hits then hits[entry.id := Hit(entry.id, worth, entry.rank, seen)]
    else
      var hit := hits[entry.id];
      var best := if entry.rank < hit.bestRank then entry.rank else hit.bestRank;
      hits[entry.id := Hit(entry.id, hit.score + worth, best, hit.firstSeen)]
  }

  lemma SeenEntry(hits: map<string, Hit>, order: seq<string>, entries: seq<Entry>, entry: Entry, share: Share)
    requires Holds(hits, order, entries, share) && entry.rank > 0 && entry.id in hits
    ensures Holds(Read(hits, |order|, entry, share), order, entries + [entry], share)
  {
    var all := entries + [entry];
    assert all[..|entries|] == entries;
    AppearanceStep(entries, entry);
    DeduplicateKeepsElements(IdsOf(entries));
    SeenHasRank(entries, entry.id);
    forall id | id in hits ensures Read(hits, |order|, entry, share)[id] == HitFor(all, share, id) {
      assert hits[id] == HitFor(entries, share, id);
    }
  }

  lemma {:induction false} PlaceInPrefix(order: seq<string>, last: string, id: string)
    requires id in order
    ensures Place(order + [last], id) == Place(order, id)
  {
    if order[0] != id {
      assert (order + [last])[1..] == order[1..] + [last];
      PlaceInPrefix(order[1..], last, id);
    }
  }

  lemma {:induction false} NewPlace(order: seq<string>, last: string)
    requires last !in order
    ensures Place(order + [last], last) == |order|
  {
    if order != [] {
      assert (order + [last])[1..] == order[1..] + [last];
      NewPlace(order[1..], last);
    }
  }

  lemma NewEntry(hits: map<string, Hit>, order: seq<string>, entries: seq<Entry>, entry: Entry, share: Share)
    requires Holds(hits, order, entries, share) && entry.rank > 0 && entry.id !in hits
    ensures Holds(Read(hits, |order|, entry, share), order + [entry.id], entries + [entry], share)
  {
    var all := entries + [entry];
    assert all[..|entries|] == entries;
    AppearanceStep(entries, entry);
    DeduplicateKeepsElements(IdsOf(entries));
    UnseenHasNothing(entries, share, entry.id);
    NewPlace(order, entry.id);
    forall id | id in order ensures Read(hits, |order|, entry, share)[id] == HitFor(all, share, id) {
      assert hits[id] == HitFor(entries, share, id);
      PlaceInPrefix(order, entry.id, id);
    }
  }

  lemma CollectedIsFusion(
    hits: map<string, Hit>, order: seq<string>, rankings: seq<Ranking>, share: Share, sorted: seq<Hit>)
    requires Holds(hits, order, Entries(rankings), share)
    requires Sorted(sorted) && forall hit :: hit in sorted <==> hit in hits.Values
    ensures IsFusion(sorted, rankings, share)
  {
    DeduplicateKeepsElements(IdsOf(Entries(rankings)));
    forall i | 0 <= i < |sorted|
      ensures sorted[i].id in hits && hits[sorted[i].id] == sorted[i] && IsHit(sorted[i], rankings, share)
    {
      assert sorted[i] in hits.Values;
      SumIsScore(rankings, share, sorted[i].id);
    }
    forall i, j | 0 <= i < j < |sorted| ensures sorted[i].id != sorted[j].id {
      assert Before(sorted[i], sorted[j]);
    }
    forall id ensures Counts(rankings, id) <==> exists i :: 0 <= i < |sorted| && sorted[i].id == id {
      AppearanceCounts(rankings, id);
      if id in hits {
        assert hits[id] in hits.Values;
        var i :| 0 <= i < |sorted| && sorted[i] == hits[id];
      }
    }
  }

  lemma PrefixOneMore<T>(before: seq<T>, own: seq<T>, n: nat)
    requires n < |own|
    ensures before + own[..n] + [own[n]] == before + own[..n + 1]
  {
    assert own[..n + 1] == own[..n] + [own[n]];
  }

  /** One list: every id once, at its better rank. */
  method ReadList(
    hits0: map<string, Hit>, order0: seq<string>, ranking: Ranking, share: Share, ghost entries: seq<Entry>)
    returns (hits: map<string, Hit>, order: seq<string>)
    requires ranking.weight > 0.0 && Holds(hits0, order0, entries, share)
    ensures Holds(hits, order, entries + EntriesOf(ranking), share)
  {
    hits, order := hits0, order0;
    var ids := Deduplicate(ranking.ids);
    ghost var own, done := EntriesOf(ranking), entries;
    assert entries + own[..0] == entries;
    for index := 0 to |ids|
      invariant done == entries + own[..index] && Holds(hits, order, done, share)
    {
      var entry := Entry(ids[index], index + 1, ranking.weight);
      assert own[index] == entry;
      PrefixOneMore(entries, own, index);
      if entry.id in hits {
        SeenEntry(hits, order, done, entry, share);
        hits := Read(hits, |order|, entry, share);
      } else {
        NewEntry(hits, order, done, entry, share);
        hits := Read(hits, |order|, entry, share);
        order := order + [entry.id];
      }
      done := done + [entry];
    }
    assert own[..|ids|] == own;
  }

  method Collect(rankings: seq<Ranking>, share: Share) returns (hits: map<string, Hit>, order: seq<string>)
    ensures Holds(hits, order, Entries(rankings), share)
  {
    hits, order := map[], [];
    for i := 0 to |rankings|
      invariant Holds(hits, order, Entries(rankings[..i]), share)
    {
      var ranking := rankings[i];
      EntriesPrefix(rankings, i);
      if ranking.weight <= 0.0 {
        assert Entries(rankings[..i]) + [] == Entries(rankings[..i]);
        continue;
      }
      hits, order := ReadList(hits, order, ranking, share, Entries(rankings[..i]));
    }
    assert rankings[..|rankings|] == rankings;
  }

  lemma PlaceOfDistinct(order: seq<string>, i: nat)
    requires i < |order| && forall a, b :: 0 <= a < b < |order| ==> order[a] != order[b]
    ensures Place(order, order[i]) == i
  {
  }

  /** The map's entries, in the order it was filled. */
  method InOrder(
    hits: map<string, Hit>, order: seq<string>, ghost entries: seq<Entry>, share: Share) returns (collected: seq<Hit>)
    requires Holds(hits, order, entries, share)
    ensures forall i, j :: 0 <= i < j < |collected| ==> collected[i].firstSeen != collected[j].firstSeen
    ensures forall hit :: hit in collected <==> hit in hits.Values
  {
    DeduplicateKeepsElements(IdsOf(entries));
    collected := [];
    for i := 0 to |order|
      invariant |collected| == i
      invariant forall n :: 0 <= n < i ==> collected[n] == hits[order[n]] && collected[n].firstSeen == n
    {
      PlaceOfDistinct(order, i);
      collected := collected + [hits[order[i]]];
    }
    forall hit | hit in hits.Values ensures hit in collected {
      var id :| id in hits && hits[id] == hit;
      var i :| 0 <= i < |order| && order[i] == id;
      assert collected[i] == hit;
    }
  }

  /** Merges ranked lists: reads every entry once, then sorts what it collected. */
  method Fuse(rankings: seq<Ranking>, k: nat) returns (sorted: seq<Hit>)
    ensures IsFusion(sorted, rankings, Reciprocal(k))
  {
    var hits, order := Collect(rankings, Reciprocal(k));
    var collected := InOrder(hits, order, Entries(rankings), Reciprocal(k));
    sorted := Sort(collected);
    CollectedIsFusion(hits, order, rankings, Reciprocal(k), sorted);
  }
}
