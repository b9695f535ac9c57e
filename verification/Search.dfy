/** Search: which legs answer, how they are fused, cut and demoted. */
module Search {
  import opened Text
  import opened RankFusion

  datatype KnowledgeBase = KnowledgeBase(id: string, models: seq<string>)

  datatype Weights = Weights(vector: real, fullText: real)

  datatype Query = Query(knowledgeBases: seq<KnowledgeBase>, limit: nat, model: Option<string>, weights: Weights)

  datatype Mode = Hybrid | VectorOnly | FullText

  /** A knowledge base group answered by one model. */
  datatype Group = Group(model: string, ids: seq<string>)

  datatype Scored = Scored(id: string, score: real, demoted: bool)

  datatype Outcome = BadRequest | Found(mode: Mode, models: seq<string>, hits: seq<Scored>)

  /** The database and the embedder: whether a model embeds the question now, the two kinds of ranked list,
      and what is known of a chunk when the details are read. `fullText` with a model leaves out what that has
      embedded. */
  datatype Backend = Backend(
    embeds: string -> bool,
    vector: (seq<string>, string) -> seq<string>,
    fullText: (seq<string>, Option<string>) -> seq<string>,
    demoted: string -> Option<bool>,
    homeOf: string -> string,
    embedded: (string, string) -> bool)
  {
    /** The lists hold only chunks of the knowledge bases asked, embedded or not as asked. */
    ghost predicate Sound() {
      && (forall ids, model, chunk :: chunk in vector(ids, model) ==> homeOf(chunk) in ids && embedded(chunk, model))
      && (forall ids, chunk :: chunk in fullText(ids, None) ==> homeOf(chunk) in ids)
      && (forall ids, model, chunk :: chunk in fullText(ids, Some(model)) ==>
        homeOf(chunk) in ids && !embedded(chunk, model))
    }
  }

  const FALLBACK_WEIGHT := 1.0

  /** The model that answers a knowledge base's vector leg. */
  function ModelFor(query: Query, kb: KnowledgeBase): Option<string> {
    var model := if query.model.Some? then query.model else if kb.models == [] then None else Some(kb.models[0]);
    if model.Some? && model.value in kb.models then model else None
  }

  /** A model answers a knowledge base exactly when that is embedded with it, and it is the one asked for, or none was
      and it is the knowledge base's first. */
  lemma ModelForIff(query: Query, kb: KnowledgeBase, model: string)
    ensures ModelFor(query, kb) == Some(model) <==>
      model in kb.models && match query.model
                            case Some(asked) => asked == model
                            case None => kb.models[0] == model
  {
  }

  function AddTo(groups: seq<Group>, model: string, id: string): seq<Group> {
    if groups == [] then [Group(model, [id])]
    else if groups[0].model == model then [groups[0].(ids := groups[0].ids + [id])] + groups[1..]
    else [groups[0]] + AddTo(groups[1..], model, id)
  }

  /** Knowledge base ids grouped by model, models in order of first use. */
  function GroupsOf(query: Query, kbs: seq<KnowledgeBase>): seq<Group>
    decreases |kbs|
  {
    if kbs == [] then []
    else
      var n := |kbs| - 1;
      var model := ModelFor(query, kbs[n]);
      if model.Some? then AddTo(GroupsOf(query, kbs[..n]), model.value, kbs[n].id) else GroupsOf(query, kbs[..n])
  }

  /** Some group of this model names this id. */
  ghost predicate Grouped(groups: seq<Group>, model: string, id: string) {
    exists g :: 0 <= g < |groups| && groups[g].model == model && id in groups[g].ids
  }

  ghost predicate ModelsApart(groups: seq<Group>) {
    forall g, h :: 0 <= g < h < |groups| ==> groups[g].model != groups[h].model
  }

  lemma GroupedSplit(groups: seq<Group>)
    requires groups != []
    ensures forall m, i ::
      Grouped(groups, m, i) <==> (groups[0].model == m && i in groups[0].ids) || Grouped(groups[1..], m, i)
  {
    forall m, i
      ensures Grouped(groups, m, i) <==> (groups[0].model == m && i in groups[0].ids) || Grouped(groups[1..], m, i)
    {
      if Grouped(groups, m, i) && !(groups[0].model == m && i in groups[0].ids) {
        var g :| 0 <= g < |groups| && groups[g].model == m && i in groups[g].ids;
        assert groups[1..][g - 1] == groups[g];
      }
      if Grouped(groups[1..], m, i) {
        var g :| 0 <= g < |groups[1..]| && groups[1..][g].model == m && i in groups[1..][g].ids;
        assert groups[g + 1] == groups[1..][g];
      }
    }
  }

  lemma {:induction false} AddToGroups(groups: seq<Group>, model: string, id: string)
    requires ModelsApart(groups)
    ensures ModelsApart(AddTo(groups, model, id))
    ensures forall g :: 0 <= g < |AddTo(groups, model, id)| ==>
      AddTo(groups, model, id)[g].model == model
      || exists h :: 0 <= h < |groups| && groups[h].model == AddTo(groups, model, id)[g].model
    ensures forall m, i :: Grouped(AddTo(groups, model, id), m, i) <==> Grouped(groups, m, i) || (m == model && i == id)
  {
    var after := AddTo(groups, model, id);
    if groups != [] {
      AddToGroups(groups[1..], model, id);
      GroupedSplit(groups);
      GroupedSplit(after);
      if groups[0].model != model {
        assert after[1..] == AddTo(groups[1..], model, id);
        forall g | 0 <= g < |after| && after[g].model != model
          ensures exists h :: 0 <= h < |groups| && groups[h].model == after[g].model
        {
          if g > 0 {
            var h :| 0 <= h < |groups[1..]| && groups[1..][h].model == after[1..][g - 1].model;
            assert groups[h + 1].model == after[g].model;
          }
        }
        forall h | 0 < h < |after| ensures after[h].model != after[0].model {
          assert after[h] == after[1..][h - 1];
          if after[h].model != model {
            var k :| 0 <= k < |groups[1..]| && groups[1..][k].model == after[1..][h - 1].model;
            assert groups[k + 1].model == after[h].model;
          }
        }
        forall g, h | 0 < g < h < |after| ensures after[g].model != after[h].model {
          assert after[g] == after[1..][g - 1] && after[h] == after[1..][h - 1];
        }
      } else {
        assert after[1..] == groups[1..];
      }
    } else {
      GroupedSplit(after);
      assert after[1..] == [];
    }
  }

  /** Some knowledge base of this id is answered by this model. */
  ghost predicate AnsweredBy(query: Query, kbs: seq<KnowledgeBase>, model: string, id: string) {
    exists i :: 0 <= i < |kbs| && kbs[i].id == id && ModelFor(query, kbs[i]) == Some(model)
  }

  lemma AnsweredInOneMore(query: Query, kbs: seq<KnowledgeBase>, model: string, id: string)
    requires kbs != []
    ensures var n := |kbs| - 1;
      AnsweredBy(query, kbs, model, id) <==>
        AnsweredBy(query, kbs[..n], model, id) || (kbs[n].id == id && ModelFor(query, kbs[n]) == Some(model))
  {
    var n := |kbs| - 1;
    assert forall i :: 0 <= i < n ==> kbs[..n][i] == kbs[i];
    if AnsweredBy(query, kbs, model, id) {
      var i :| 0 <= i < |kbs| && kbs[i].id == id && ModelFor(query, kbs[i]) == Some(model);
      if i < n {
        assert kbs[..n][i].id == id;
      }
    }
  }

  /** The groups hold exactly the knowledge bases with a model, each under its own. */
  lemma {:induction false} GroupsAreByModel(query: Query, kbs: seq<KnowledgeBase>, m: string, id: string)
    ensures ModelsApart(GroupsOf(query, kbs))
    ensures Grouped(GroupsOf(query, kbs), m, id) <==> AnsweredBy(query, kbs, m, id)
    decreases |kbs|
  {
    if kbs != [] {
      var n := |kbs| - 1;
      GroupsAreByModel(query, kbs[..n], m, id);
      AnsweredInOneMore(query, kbs, m, id);
      var model := ModelFor(query, kbs[n]);
      if model.Some? {
        AddToGroups(GroupsOf(query, kbs[..n]), model.value, kbs[n].id);
      }
    }
  }

  // ---- Legs

  /** The rankings of one group: its vector leg, and full text for what the model has not embedded. */
  function GroupLegs(b: Backend, weights: Weights, group: Group): seq<Ranking> {
    if !b.embeds(group.model) then []
    else
      var unembedded := b.fullText(group.ids, Some(group.model));
      [Ranking(b.vector(group.ids, group.model), weights.vector)]
      + (if weights.fullText <= 0.0 && unembedded != [] then [Ranking(unembedded, FALLBACK_WEIGHT)] else [])
  }

  function VectorLegs(b: Backend, weights: Weights, groups: seq<Group>): seq<Ranking>
    decreases |groups|
  {
    if groups == [] then []
    else VectorLegs(b, weights, groups[..|groups| - 1]) + GroupLegs(b, weights, groups[|groups| - 1])
  }

  /** The groups asked, when vectors count at all. */
  function AskedGroups(query: Query): seq<Group> {
    if query.weights.vector > 0.0 then GroupsOf(query, query.knowledgeBases) else []
  }

  /** The knowledge bases a vector leg answers. */
  function CoveredBy(b: Backend, groups: seq<Group>): set<string>
    decreases |groups|
  {
    if groups == [] then {}
    else
      var last := groups[|groups| - 1];
      CoveredBy(b, groups[..|groups| - 1]) + (if b.embeds(last.model) then set id | id in last.ids else {})
  }

  function ModelsOf(b: Backend, groups: seq<Group>): seq<string>
    decreases |groups|
  {
    if groups == [] then []
    else
      var last := groups[|groups| - 1];
      ModelsOf(b, groups[..|groups| - 1]) + (if b.embeds(last.model) then [last.model] else [])
  }

  /** Whether full text found something a model has not embedded. */
  predicate UnembeddedAnswered(b: Backend, weights: Weights, groups: seq<Group>)
    decreases |groups|
  {
    groups != [] &&
    (UnembeddedAnswered(b, weights, groups[..|groups| - 1]) || |GroupLegs(b, weights, groups[|groups| - 1])| == 2)
  }

  function IdsOfKbs(kbs: seq<KnowledgeBase>): (ids: seq<string>)
    ensures |ids| == |kbs| && forall i :: 0 <= i < |kbs| ==> ids[i] == kbs[i].id
  {
    seq(|kbs|, i requires 0 <= i < |kbs| => kbs[i].id)
  }

  function Uncovered(ids: seq<string>, covered: set<string>): (left: seq<string>)
    ensures forall id :: id in left <==> id in ids && id !in covered
  {
    if ids == [] then [] else (if ids[0] in covered then [] else [ids[0]]) + Uncovered(ids[1..], covered)
  }

  /** The knowledge bases the last full-text leg is over. */
  function FullTextKbs(b: Backend, query: Query): seq<string> {
    var ids := IdsOfKbs(query.knowledgeBases);
    if query.weights.fullText > 0.0 then ids else Uncovered(ids, CoveredBy(b, AskedGroups(query)))
  }

  function RankingsOf(b: Backend, query: Query): seq<Ranking> {
    var kbs := FullTextKbs(b, query);
    var weight := if query.weights.fullText > 0.0 then query.weights.fullText else FALLBACK_WEIGHT;
    VectorLegs(b, query.weights, AskedGroups(query))
      + (if kbs == [] then [] else [Ranking(b.fullText(kbs, None), weight)])
  }

  /** Some group has a vector leg: vectors count, and its model embeds the question now. */
  ghost predicate Embeds(b: Backend, query: Query, group: Group) {
    query.weights.vector > 0.0 && group in GroupsOf(query, query.knowledgeBases) && b.embeds(group.model)
  }

  ghost predicate IsVectorLeg(b: Backend, query: Query, leg: Ranking) {
    exists group :: Embeds(b, query, group) && leg == Ranking(b.vector(group.ids, group.model), query.weights.vector)
  }

  /** Full text weighted out still answers what a model has not embedded, if it finds anything. */
  ghost predicate IsFallbackLeg(b: Backend, query: Query, leg: Ranking) {
    query.weights.fullText <= 0.0 && leg.ids != [] && leg.weight == 1.0
    && exists group :: Embeds(b, query, group) && leg.ids == b.fullText(group.ids, Some(group.model))
  }

  /** Full text over every knowledge base when it counts, else over those without a vector leg. */
  ghost predicate IsTextLeg(b: Backend, query: Query, kbs: seq<string>, leg: Ranking) {
    && kbs != [] && leg.ids == b.fullText(kbs, None)
    && leg.weight == (if query.weights.fullText > 0.0 then query.weights.fullText else 1.0)
    && forall id :: id in kbs <==>
         id in IdsOfKbs(query.knowledgeBases)
         && (query.weights.fullText > 0.0 || forall group :: Embeds(b, query, group) ==> id !in group.ids)
  }

  lemma {:induction false} CoveredIff(b: Backend, groups: seq<Group>, id: string)
    ensures id in CoveredBy(b, groups) <==> exists group :: group in groups && b.embeds(group.model) && id in group.ids
    decreases |groups|
  {
    if groups != [] {
      var last := |groups| - 1;
      CoveredIff(b, groups[..last], id);
      assert groups == groups[..last] + [groups[last]];
    }
  }

  lemma TextKbsIff(b: Backend, query: Query, id: string)
    ensures id in FullTextKbs(b, query) <==>
         id in IdsOfKbs(query.knowledgeBases)
         && (query.weights.fullText > 0.0 || forall group :: Embeds(b, query, group) ==> id !in group.ids)
  {
    CoveredIff(b, AskedGroups(query), id);
    if id in CoveredBy(b, AskedGroups(query)) {
      var group :| group in AskedGroups(query) && b.embeds(group.model) && id in group.ids;
      assert Embeds(b, query, group);
    }
  }

  lemma {:induction false} VectorLegsIff(b: Backend, weights: Weights, groups: seq<Group>, leg: Ranking)
    ensures leg in VectorLegs(b, weights, groups) <==>
      exists group :: group in groups && leg in GroupLegs(b, weights, group)
    decreases |groups|
  {
    if groups != [] {
      var last := |groups| - 1;
      VectorLegsIff(b, weights, groups[..last], leg);
      assert groups == groups[..last] + [groups[last]];
    }
  }

  lemma AskedLegIff(b: Backend, query: Query, leg: Ranking)
    ensures leg in VectorLegs(b, query.weights, AskedGroups(query)) <==>
      IsVectorLeg(b, query, leg) || IsFallbackLeg(b, query, leg)
  {
    var groups := AskedGroups(query);
    VectorLegsIff(b, query.weights, groups, leg);
    if leg in VectorLegs(b, query.weights, groups) {
      var group :| group in groups && leg in GroupLegs(b, query.weights, group);
      assert Embeds(b, query, group);
    }
    if IsVectorLeg(b, query, leg) {
      var group :| Embeds(b, query, group) && leg == Ranking(b.vector(group.ids, group.model), query.weights.vector);
      assert leg in GroupLegs(b, query.weights, group);
    }
    if IsFallbackLeg(b, query, leg) {
      var group :| Embeds(b, query, group) && leg.ids == b.fullText(group.ids, Some(group.model));
      assert leg in GroupLegs(b, query.weights, group);
    }
  }

  /** What is fused: the vector legs, the fallback legs and the full-text leg, each at its weight. */
  lemma RankingsIff(b: Backend, query: Query, leg: Ranking)
    ensures leg in RankingsOf(b, query) <==>
      || IsVectorLeg(b, query, leg) || IsFallbackLeg(b, query, leg)
      || IsTextLeg(b, query, FullTextKbs(b, query), leg)
  {
    AskedLegIff(b, query, leg);
    forall id ensures id in FullTextKbs(b, query) <==>
         id in IdsOfKbs(query.knowledgeBases)
         && (query.weights.fullText > 0.0 || forall group :: Embeds(b, query, group) ==> id !in group.ids)
    {
      TextKbsIff(b, query, id);
    }
  }

  /** No knowledge base goes unanswered: each has a vector leg, or the full-text leg is over it. */
  lemma EveryKnowledgeBaseIsAnswered(b: Backend, query: Query, kb: KnowledgeBase)
    requires kb in query.knowledgeBases
    ensures kb.id in CoveredBy(b, AskedGroups(query)) || kb.id in FullTextKbs(b, query)
  {
    var i :| 0 <= i < |query.knowledgeBases| && query.knowledgeBases[i] == kb;
    assert IdsOfKbs(query.knowledgeBases)[i] == kb.id;
  }

  // ---- With full text weighted out, what is embedded keeps the vector ranking

  ghost predicate IdsApart(kbs: seq<KnowledgeBase>) {
    forall i, j :: 0 <= i < j < |kbs| ==> kbs[i].id != kbs[j].id
  }

  /** `leg` is one of the group's legs. */
  ghost predicate LegOf(b: Backend, weights: Weights, group: Group, leg: Ranking) {
    b.embeds(group.model) &&
    (leg == Ranking(b.vector(group.ids, group.model), weights.vector) ||
     (weights.fullText <= 0.0 && leg == Ranking(b.fullText(group.ids, Some(group.model)), FALLBACK_WEIGHT)))
  }

  lemma {:induction false} LegsBelongToGroups(b: Backend, weights: Weights, groups: seq<Group>, n: nat) returns (g: nat)
    requires n < |VectorLegs(b, weights, groups)|
    ensures g < |groups| && LegOf(b, weights, groups[g], VectorLegs(b, weights, groups)[n])
    decreases |groups|
  {
    var last := |groups| - 1;
    if n < |VectorLegs(b, weights, groups[..last])| {
      g := LegsBelongToGroups(b, weights, groups[..last], n);
      assert groups[..last][g] == groups[g];
    } else {
      g := last;
    }
  }

  /** Knowledge bases with distinct ids are grouped once at most. */
  lemma GroupsAreDisjoint(query: Query, g: nat, h: nat, id: string)
    requires IdsApart(query.knowledgeBases)
    requires var groups := GroupsOf(query, query.knowledgeBases);
      g < |groups| && h < |groups| && id in groups[g].ids && id in groups[h].ids
    ensures g == h
  {
    var kbs := query.knowledgeBases;
    var groups := GroupsOf(query, kbs);
    GroupsAreByModel(query, kbs, groups[g].model, id);
    GroupsAreByModel(query, kbs, groups[h].model, id);
    assert Grouped(groups, groups[g].model, id) && Grouped(groups, groups[h].model, id);
    var i :| 0 <= i < |kbs| && kbs[i].id == id && ModelFor(query, kbs[i]) == Some(groups[g].model);
    var j :| 0 <= j < |kbs| && kbs[j].id == id && ModelFor(query, kbs[j]) == Some(groups[h].model);
    assert i == j;
  }

  lemma {:induction false} CoveredWhenEmbedded(b: Backend, groups: seq<Group>, g: nat, id: string)
    requires g < |groups| && b.embeds(groups[g].model) && id in groups[g].ids
    ensures id in CoveredBy(b, groups)
    decreases |groups|
  {
    var last := |groups| - 1;
    if g < last {
      CoveredWhenEmbedded(b, groups[..last], g, id);
    }
  }

  /** A leg of a group names chunks of the group's knowledge bases only. */
  lemma LegStaysInGroup(b: Backend, weights: Weights, group: Group, leg: Ranking, chunk: string)
    requires b.Sound() && LegOf(b, weights, group, leg) && chunk in leg.ids
    ensures b.homeOf(chunk) in group.ids
  {
  }

  /** Of the vector legs, only its own names an embedded chunk: the fallback leg of its group leaves it out. */
  lemma OnlyItsOwnVectorLeg(b: Backend, weights: Weights, groups: seq<Group>, g: nat, chunk: string, n: nat)
    requires b.Sound() && g < |groups| && b.embeds(groups[g].model) && n < |VectorLegs(b, weights, groups)|
    requires chunk in b.vector(groups[g].ids, groups[g].model) && chunk in VectorLegs(b, weights, groups)[n].ids
    requires forall h ::
      0 <= h < |groups| && b.homeOf(chunk) in groups[g].ids && b.homeOf(chunk) in groups[h].ids ==> g == h
    ensures VectorLegs(b, weights, groups)[n] == Ranking(b.vector(groups[g].ids, groups[g].model), weights.vector)
  {
    var leg := VectorLegs(b, weights, groups)[n];
    var h := LegsBelongToGroups(b, weights, groups, n);
    LegStaysInGroup(b, weights, groups[h], leg, chunk);
    LegStaysInGroup(b, weights, groups[g], Ranking(b.vector(groups[g].ids, groups[g].model), weights.vector), chunk);
    assert h == g;
  }

  /** A chunk a group's vector leg names is in no other leg. */
  lemma VectorChunkIsNowhereElse(b: Backend, query: Query, g: nat, chunk: string, leg: Ranking, n: nat)
    requires b.Sound() && IdsApart(query.knowledgeBases)
    requires query.weights.fullText <= 0.0 && query.weights.vector > 0.0
    requires var groups := GroupsOf(query, query.knowledgeBases);
      && g < |groups| && b.embeds(groups[g].model)
      && chunk in b.vector(groups[g].ids, groups[g].model)
    requires n < |RankingsOf(b, query)| && leg == RankingsOf(b, query)[n] && chunk in leg.ids
    ensures var group := GroupsOf(query, query.knowledgeBases)[g];
      leg == Ranking(b.vector(group.ids, group.model), query.weights.vector)
  {
    var groups := GroupsOf(query, query.knowledgeBases);
    assert AskedGroups(query) == groups;
    if n < |VectorLegs(b, query.weights, groups)| {
      assert leg == VectorLegs(b, query.weights, groups)[n];
      forall h | 0 <= h < |groups| && b.homeOf(chunk) in groups[g].ids && b.homeOf(chunk) in groups[h].ids
        ensures g == h
      {
        GroupsAreDisjoint(query, g, h, b.homeOf(chunk));
      }
      OnlyItsOwnVectorLeg(b, query.weights, groups, g, chunk, n);
    } else {
      LegStaysInGroup(b, query.weights, groups[g],
        Ranking(b.vector(groups[g].ids, groups[g].model), query.weights.vector), chunk);
      CoveredWhenEmbedded(b, groups, g, b.homeOf(chunk));
    }
  }

  /** Both chunks are in the group's vector leg, the first one ahead. */
  ghost predicate VectorAhead(b: Backend, query: Query, g: nat, first: string, second: string) {
    var groups := GroupsOf(query, query.knowledgeBases);
    g < |groups| && b.embeds(groups[g].model) &&
    var list := b.vector(groups[g].ids, groups[g].model);
    first in list && second in list && RankOf(list, first) < RankOf(list, second)
  }

  /** With full text weighted zero, two embedded chunks of one vector leg are fused in that leg's order. */
  lemma EmbeddedChunksKeepTheVectorRanking(b: Backend, query: Query, k: nat, hits: seq<Hit>, g: nat, i: nat, j: nat)
    requires b.Sound() && IdsApart(query.knowledgeBases)
    requires query.weights.fullText <= 0.0 && query.weights.vector > 0.0
    requires IsFusion(hits, RankingsOf(b, query), Reciprocal(k)) && i < |hits| && j < |hits|
    requires VectorAhead(b, query, g, hits[i].id, hits[j].id)
    ensures i < j
  {
    var rankings := RankingsOf(b, query);
    ReciprocalFalls(k);
    forall n | 0 <= n < |rankings| ensures Ahead(rankings[n], hits[i].id, hits[j].id) {
      if hits[j].id in rankings[n].ids {
        VectorChunkIsNowhereElse(b, query, g, hits[j].id, rankings[n], n);
      }
    }
    AheadEverywherePrecedes(hits, rankings, Reciprocal(k), i, j);
  }

  // ---- Cut, then demote

  /** The hits still there when the details are read, with their fused score. */
  function Detailed(b: Backend, hits: seq<Hit>): seq<Scored>
    decreases |hits|
  {
    if hits == [] then []
    else
      var known := b.demoted(hits[0].id);
      (if known.Some? then [Scored(hits[0].id, hits[0].score, known.value)] else []) + Detailed(b, hits[1..])
  }

  function Keep(scored: seq<Scored>, demoted: bool): seq<Scored> {
    if scored == [] then []
    else if scored[0].demoted == demoted then [scored[0]] + Keep(scored[1..], demoted)
    else Keep(scored[1..], demoted)
  }

  function DemoteLast(scored: seq<Scored>): seq<Scored> {
    Keep(scored, false) + Keep(scored, true)
  }

  ghost predicate AllAre(scored: seq<Scored>, demoted: bool) {
    forall i :: 0 <= i < |scored| ==> scored[i].demoted == demoted
  }

  lemma {:induction false} KeepKeepsOnly(scored: seq<Scored>, demoted: bool)
    ensures AllAre(Keep(scored, demoted), demoted)
  {
    if scored != [] {
      KeepKeepsOnly(scored[1..], demoted);
    }
  }

  lemma {:induction false} KeepIsPartition(scored: seq<Scored>)
    ensures multiset(Keep(scored, false)) + multiset(Keep(scored, true)) == multiset(scored)
  {
    if scored != [] {
      KeepIsPartition(scored[1..]);
      assert scored == [scored[0]] + scored[1..];
    }
  }

  lemma {:induction false} KeepAppend(xs: seq<Scored>, ys: seq<Scored>, demoted: bool)
    ensures Keep(xs + ys, demoted) == Keep(xs, demoted) + Keep(ys, demoted)
  {
    if xs == [] {
      assert xs + ys == ys;
    } else {
      KeepAppend(xs[1..], ys, demoted);
      assert (xs + ys)[1..] == xs[1..] + ys && (xs + ys)[0] == xs[0];
    }
  }

  lemma {:induction false} KeepAll(scored: seq<Scored>, demoted: bool)
    requires AllAre(scored, demoted)
    ensures Keep(scored, demoted) == scored && Keep(scored, !demoted) == []
  {
    if scored != [] {
      KeepAll(scored[1..], demoted);
    }
  }

  /** Demotion drops nothing, puts every demoted hit after every other, and keeps each group's own order. */
  lemma DemotionIsStable(scored: seq<Scored>)
    ensures var hits := DemoteLast(scored);
      && multiset(hits) == multiset(scored)
      && (forall i, j :: 0 <= i < |hits| && 0 <= j < |hits| && !hits[i].demoted && hits[j].demoted ==> i < j)
      && Keep(hits, false) == Keep(scored, false) && Keep(hits, true) == Keep(scored, true)
  {
    KeepIsPartition(scored);
    KeepKeepsOnly(scored, false);
    KeepKeepsOnly(scored, true);
    KeepAppend(Keep(scored, false), Keep(scored, true), false);
    KeepAppend(Keep(scored, false), Keep(scored, true), true);
    KeepAll(Keep(scored, false), false);
    KeepAll(Keep(scored, true), true);
  }

  predicate DetailOf(b: Backend, hit: Hit, s: Scored) {
    hit.id == s.id && hit.score == s.score && b.demoted(s.id) == Some(s.demoted)
  }

  /** A hit is answered, with its fused score, exactly when its details could be read. */
  lemma {:induction false} DetailedIff(b: Backend, hits: seq<Hit>, s: Scored)
    ensures |Detailed(b, hits)| <= |hits|
    ensures s in Detailed(b, hits) <==> exists i :: 0 <= i < |hits| && DetailOf(b, hits[i], s)
  {
    if hits != [] {
      DetailedIff(b, hits[1..], s);
      if i :| 0 <= i < |hits[1..]| && DetailOf(b, hits[1..][i], s) {
        assert hits[i + 1] == hits[1..][i];
      }
      if i :| 0 < i < |hits| && DetailOf(b, hits[i], s) {
        assert hits[1..][i - 1] == hits[i];
      }
    }
  }

  lemma {:induction false} KeptFollows(scored: seq<Scored>, demoted: bool, p: nat, q: nat) returns (i: nat, j: nat)
    requires p <= q < |Keep(scored, demoted)|
    ensures i <= j < |scored| && (p < q ==> i < j)
    ensures scored[i] == Keep(scored, demoted)[p] && scored[j] == Keep(scored, demoted)[q]
  {
    if scored[0].demoted != demoted {
      i, j := KeptFollows(scored[1..], demoted, p, q);
      return i + 1, j + 1;
    }
    i, j := 0, 0;
    if q > 0 {
      i, j := KeptFollows(scored[1..], demoted, if p > 0 then p - 1 else q - 1, q - 1);
      i, j := if p > 0 then i + 1 else 0, j + 1;
    }
  }

  lemma {:induction false} DetailedFollows(b: Backend, hits: seq<Hit>, p: nat, q: nat) returns (i: nat, j: nat)
    requires p <= q < |Detailed(b, hits)|
    ensures i <= j < |hits| && (p < q ==> i < j)
    ensures hits[i].id == Detailed(b, hits)[p].id && hits[j].id == Detailed(b, hits)[q].id
  {
    if b.demoted(hits[0].id).None? {
      i, j := DetailedFollows(b, hits[1..], p, q);
      return i + 1, j + 1;
    }
    i, j := 0, 0;
    if q > 0 {
      i, j := DetailedFollows(b, hits[1..], if p > 0 then p - 1 else q - 1, q - 1);
      i, j := if p > 0 then i + 1 else 0, j + 1;
    }
  }

  /** Two answers that are both demoted, or both not, stand in their fused order. */
  lemma AnswersFollow(b: Backend, hits: seq<Hit>, p: nat, q: nat) returns (i: nat, j: nat)
    requires p < q < |DemoteLast(Detailed(b, hits))|
    requires DemoteLast(Detailed(b, hits))[p].demoted == DemoteLast(Detailed(b, hits))[q].demoted
    ensures i < j < |hits|
    ensures hits[i].id == DemoteLast(Detailed(b, hits))[p].id && hits[j].id == DemoteLast(Detailed(b, hits))[q].id
  {
    var scored := Detailed(b, hits);
    KeepKeepsOnly(scored, false);
    KeepKeepsOnly(scored, true);
    var first := |Keep(scored, false)|;
    i, j := KeptFollows(scored, p >= first, if p < first then p else p - first, if p < first then q else q - first);
    i, j := DetailedFollows(b, hits, i, j);
  }

  function CutTo(fused: seq<Hit>, limit: nat): (cut: seq<Hit>)
    ensures cut <= fused && |cut| <= limit
  {
    if limit < |fused| then fused[..limit] else fused
  }

  /** What `Find` answers: the best fused hits up to the limit, read and demoted. */
  function AnswersOf(b: Backend, fused: seq<Hit>, limit: nat): seq<Scored> {
    DemoteLast(Detailed(b, CutTo(fused, limit)))
  }

  /** Of two fused chunks of the group's vector leg, the one ahead there comes first. */
  ghost predicate InVectorOrder(b: Backend, query: Query, g: nat, hits: seq<Hit>) {
    forall i, j :: 0 <= i < |hits| && 0 <= j < |hits| && VectorAhead(b, query, g, hits[i].id, hits[j].id) ==> i < j
  }

  lemma AnswersInVectorOrder(b: Backend, query: Query, fused: seq<Hit>, g: nat, p: nat, q: nat)
    requires InVectorOrder(b, query, g, fused)
    requires p < |AnswersOf(b, fused, query.limit)| && q < |AnswersOf(b, fused, query.limit)|
    requires AnswersOf(b, fused, query.limit)[p].demoted == AnswersOf(b, fused, query.limit)[q].demoted
    requires VectorAhead(b, query, g, AnswersOf(b, fused, query.limit)[p].id, AnswersOf(b, fused, query.limit)[q].id)
    ensures p < q
  {
    if q < p {
      var cut := CutTo(fused, query.limit);
      var i, j := AnswersFollow(b, cut, q, p);
    }
  }

  /** With full text weighted zero, embedded chunks of one vector leg are answered in that leg's order, demoted
      ones among themselves. */
  lemma AnswersKeepTheVectorRanking(b: Backend, query: Query, k: nat, fused: seq<Hit>, g: nat, p: nat, q: nat)
    requires b.Sound() && IdsApart(query.knowledgeBases)
    requires query.weights.fullText <= 0.0 && query.weights.vector > 0.0
    requires IsFusion(fused, RankingsOf(b, query), Reciprocal(k))
    requires p < |AnswersOf(b, fused, query.limit)| && q < |AnswersOf(b, fused, query.limit)|
    requires AnswersOf(b, fused, query.limit)[p].demoted == AnswersOf(b, fused, query.limit)[q].demoted
    requires VectorAhead(b, query, g, AnswersOf(b, fused, query.limit)[p].id, AnswersOf(b, fused, query.limit)[q].id)
    ensures p < q
  {
    forall i, j | 0 <= i < |fused| && 0 <= j < |fused| && VectorAhead(b, query, g, fused[i].id, fused[j].id)
      ensures i < j
    {
      EmbeddedChunksKeepTheVectorRanking(b, query, k, fused, g, i, j);
    }
    AnswersInVectorOrder(b, query, fused, g, p, q);
  }

  predicate ModelIsKnown(query: Query) {
    query.model.Some? ==>
      exists i :: 0 <= i < |query.knowledgeBases| && query.model.value in query.knowledgeBases[i].models
  }

  function ModeOf(models: seq<string>, fullTextAnswered: bool): Mode {
    if models == [] then FullText else if fullTextAnswered then Hybrid else VectorOnly
  }

  lemma {:induction false} ModelsIff(b: Backend, groups: seq<Group>, model: string)
    ensures model in ModelsOf(b, groups) <==>
      exists group :: group in groups && b.embeds(group.model) && group.model == model
    decreases |groups|
  {
    if groups != [] {
      var last := |groups| - 1;
      ModelsIff(b, groups[..last], model);
      assert groups == groups[..last] + [groups[last]];
    }
  }

  lemma {:induction false} UnembeddedIff(b: Backend, weights: Weights, groups: seq<Group>)
    ensures UnembeddedAnswered(b, weights, groups)
      <==> exists group :: group in groups && |GroupLegs(b, weights, group)| == 2
    decreases |groups|
  {
    if groups != [] {
      var last := |groups| - 1;
      UnembeddedIff(b, weights, groups[..last]);
      assert groups == groups[..last] + [groups[last]];
    }
  }

  /** Some vector leg answers. */
  ghost predicate VectorsAnswer(b: Backend, query: Query) {
    exists group :: Embeds(b, query, group)
  }

  /** Full text is asked over some knowledge base, or found what a model has not embedded. */
  ghost predicate TextAnswers(b: Backend, query: Query) {
    FullTextKbs(b, query) != [] || exists leg :: IsFallbackLeg(b, query, leg)
  }

  /** The mode reported says which kinds of leg answered. */
  lemma ModeTellsTheLegs(b: Backend, query: Query)
    ensures ModeOf(ModelsOf(b, AskedGroups(query)),
                   UnembeddedAnswered(b, query.weights, AskedGroups(query)) || FullTextKbs(b, query) != [])
         == if !VectorsAnswer(b, query) then FullText else if TextAnswers(b, query) then Hybrid else VectorOnly
  {
    var groups := AskedGroups(query);
    UnembeddedIff(b, query.weights, groups);
    if VectorsAnswer(b, query) {
      var group :| Embeds(b, query, group);
      ModelsIff(b, groups, group.model);
    } else if ModelsOf(b, groups) != [] {
      ModelsIff(b, groups, ModelsOf(b, groups)[0]);
      var group :| group in groups && b.embeds(group.model);
      assert Embeds(b, query, group);
    }
    if group :| group in groups && |GroupLegs(b, query.weights, group)| == 2 {
      assert Embeds(b, query, group);
      assert IsFallbackLeg(b, query, GroupLegs(b, query.weights, group)[1]);
    }
    if leg :| IsFallbackLeg(b, query, leg) {
      var group :| Embeds(b, query, group) && leg.ids == b.fullText(group.ids, Some(group.model));
      assert |GroupLegs(b, query.weights, group)| == 2;
    }
  }

  /** The groups by model, one knowledge base at a time. */
  method ByModel(query: Query) returns (groups: seq<Group>)
    ensures groups == GroupsOf(query, query.knowledgeBases)
  {
    groups := [];
    var kbs := query.knowledgeBases;
    for i := 0 to |kbs|
      invariant groups == GroupsOf(query, kbs[..i])
    {
      assert kbs[..i + 1][..i] == kbs[..i];
      var model := ModelFor(query, kbs[i]);
      if model.Some? {
        groups := AddTo(groups, model.value, kbs[i].id);
      }
    }
    assert kbs[..|kbs|] == kbs;
  }

  /** Runs the vector legs that can run. */
  method RunVectorLegs(b: Backend, weights: Weights, groups: seq<Group>)
    returns (rankings: seq<Ranking>, models: seq<string>, covered: set<string>, fullTextAnswered: bool)
    ensures rankings == VectorLegs(b, weights, groups) && models == ModelsOf(b, groups)
      && covered == CoveredBy(b, groups)
    ensures fullTextAnswered == UnembeddedAnswered(b, weights, groups)
  {
    rankings, models, covered, fullTextAnswered := [], [], {}, false;
    for i := 0 to |groups|
      invariant rankings == VectorLegs(b, weights, groups[..i])
      invariant models == ModelsOf(b, groups[..i]) && covered == CoveredBy(b, groups[..i])
      invariant fullTextAnswered == UnembeddedAnswered(b, weights, groups[..i])
    {
      var group := groups[i];
      assert groups[..i + 1][..i] == groups[..i];
      if !b.embeds(group.model) {
        continue;
      }
      rankings := rankings + [Ranking(b.vector(group.ids, group.model), weights.vector)];
      models := models + [group.model];
      covered := covered + set id | id in group.ids;
      if weights.fullText <= 0.0 {
        var unembedded := b.fullText(group.ids, Some(group.model));
        if unembedded != [] {
          rankings := rankings + [Ranking(unembedded, FALLBACK_WEIGHT)];
          fullTextAnswered := true;
        }
      }
    }
    assert groups[..|groups|] == groups;
  }

  /** Answers a query: legs, fusion, cut to the limit, demotion. */
  method Find(b: Backend, query: Query, k: nat) returns (outcome: Outcome, ghost fused: seq<Hit>)
    ensures query.knowledgeBases == [] ==> outcome == Found(FullText, [], [])
    ensures query.knowledgeBases != [] ==>
      (outcome.BadRequest? <==> query.weights.vector > 0.0 && !ModelIsKnown(query))
    ensures outcome.Found? && query.knowledgeBases != [] ==>
      && IsFusion(fused, RankingsOf(b, query), Reciprocal(k))
      && outcome.hits == AnswersOf(b, fused, query.limit)
      && outcome.models == ModelsOf(b, AskedGroups(query))
      && outcome.mode == ModeOf(outcome.models,
           UnembeddedAnswered(b, query.weights, AskedGroups(query)) || FullTextKbs(b, query) != [])
  {
    fused := [];
    if query.knowledgeBases == [] {
      return Found(FullText, [], []), fused;
    }
    if query.weights.vector > 0.0 && !ModelIsKnown(query) {
      return BadRequest, fused;
    }
    var groups: seq<Group> := [];
    if query.weights.vector > 0.0 {
      groups := ByModel(query);
    }
    var rankings, models, covered, fullTextAnswered := RunVectorLegs(b, query.weights, groups);
    var ids := IdsOfKbs(query.knowledgeBases);
    var kbs := if query.weights.fullText > 0.0 then ids else Uncovered(ids, covered);
    if kbs != [] {
      var weight := if query.weights.fullText > 0.0 then query.weights.fullText else FALLBACK_WEIGHT;
      rankings := rankings + [Ranking(b.fullText(kbs, None), weight)];
      fullTextAnswered := true;
    }
    assert rankings == RankingsOf(b, query);
    var hits := Fuse(rankings, k);
    fused := hits;
    var cut := if query.limit < |hits| then hits[..query.limit] else hits;
    outcome := Found(ModeOf(models, fullTextAnswered), models, DemoteLast(Detailed(b, cut)));
  }
}
