/** The indexer: one knowledge base's run over the store, stoppable after any write. */
module Indexer {
  import opened Text
  import opened Chunker
  import opened Embedding
  import opened IndexStore
  import opened Convergence
  import Frontmatters

  /** A chunk row by its place: which document, which row. */
  datatype Slot = Slot(key: DocKey, i: nat)

  function Slots(s: Store): set<Slot> {
    set key, i | key in s.docs && 0 <= i < |s.docs[key].rows| :: Slot(key, i)
  }

  predicate Holds(s: Store, slot: Slot) {
    slot.key in s.docs && slot.i < |s.docs[slot.key].rows|
  }

  function RowAt(s: Store, slot: Slot): Row
    requires Holds(s, slot)
  {
    s.docs[slot.key].rows[slot.i]
  }

  function KeyAt(s: Store, slot: Slot, model: string): VectorKey
    requires Holds(s, slot)
  {
    VectorKey(RowAt(s, slot).id, model)
  }

  /** The rows of a knowledge base with no vector under a model. */
  function Pending(s: Store, kb: string, model: string): (pending: set<Slot>)
    ensures forall slot :: slot in pending <==>
      Holds(s, slot) && slot.key.kb == kb && KeyAt(s, slot, model) !in s.vectors
  {
    set slot | slot in Slots(s) && slot.key.kb == kb && KeyAt(s, slot, model) !in s.vectors
  }

  /** The knowledge base inside the store. */
  function KbOf(s: Store, kb: string): Kb {
    Kb(map key | key in s.docs && key.kb == kb :: key.id := s.docs[key].doc,
       if kb in s.cursors then Some(s.cursors[kb]) else None)
  }

  /** Every other knowledge base keeps its documents and cursor. */
  ghost predicate OthersKept(s: Store, t: Store, kb: string) {
    forall other :: other != kb ==> KbOf(t, other) == KbOf(s, other)
  }

  /** Whether the rows are rewritten or only the version and url bumped, the document stored is the incoming one. */
  lemma UpsertStoresTheDocument(s: Store, key: DocKey, doc: Doc, chunks: seq<Chunk>)
    ensures var t := Upserted(s, key, doc, chunks);
      && key in t.docs && t.docs[key].doc == doc && t.cursors == s.cursors
      && forall k :: k != key ==> (k in t.docs <==> k in s.docs) && (k in s.docs ==> t.docs[k] == s.docs[k])
  {
    var t := WithDoc(s, key, doc, chunks);
    assert Upserted(s, key, doc, chunks).docs == t.docs;
  }

  lemma KbByLookup(s: Store, kb: string, docs: map<string, Doc>)
    requires forall id :: id in docs <==> DocKey(kb, id) in s.docs
    requires forall id :: id in docs ==> docs[id] == s.docs[DocKey(kb, id)].doc
    ensures KbOf(s, kb).docs == docs
  {
    var own := KbOf(s, kb).docs;
    forall id ensures id in own <==> id in docs {
      assert DocKey(kb, id).id == id;
    }
    forall id | id in docs ensures own[id] == docs[id] {
      assert DocKey(kb, id) in s.docs;
    }
  }

  lemma OneDocumentChanged(s: Store, t: Store, key: DocKey, doc: Doc)
    requires key in t.docs && t.docs[key].doc == doc && t.cursors == s.cursors
    requires forall k :: k != key ==> (k in t.docs <==> k in s.docs) && (k in s.docs ==> t.docs[k] == s.docs[k])
    ensures KbOf(t, key.kb) == KbOf(s, key.kb).(docs := KbOf(s, key.kb).docs[key.id := doc])
    ensures OthersKept(s, t, key.kb)
  {
    KbByLookup(t, key.kb, KbOf(s, key.kb).docs[key.id := doc]);
    forall other | other != key.kb ensures KbOf(t, other) == KbOf(s, other) {
      KbByLookup(t, other, KbOf(s, other).docs);
    }
  }

  /** What a deletion leaves of each knowledge base. */
  lemma DeleteRemovesTheDocuments(s: Store, kb: string, changes: Changes, gone: set<DocKey>)
    requires forall key :: key in s.docs ==> (key in gone <==> key.kb == kb && Removes(changes, key.id))
    ensures var t := Deleted(s, gone);
      && KbOf(t, kb) == KbOf(s, kb).(docs := Prune(KbOf(s, kb).docs, changes))
      && OthersKept(s, t, kb)
  {
    var t := Deleted(s, gone);
    KbByLookup(t, kb, Prune(KbOf(s, kb).docs, changes));
    forall other | other != kb ensures KbOf(t, other) == KbOf(s, other) {
      KbByLookup(t, other, KbOf(s, other).docs);
    }
  }

  lemma SameDocsSameKbs(s: Store, t: Store)
    requires s.docs == t.docs && s.cursors == t.cursors
    ensures forall kb :: KbOf(t, kb) == KbOf(s, kb)
  {
  }

  /** No row of equal hash has a vector under the model. */
  ghost predicate NoTwin(s: Store, slot: Slot, model: string) {
    && Holds(s, slot)
    && forall twin :: Holds(s, twin) && RowAt(s, twin).hash == RowAt(s, slot).hash ==>
      KeyAt(s, twin, model) !in s.vectors
  }

  lemma TwinFound(s: Store, kb: string, slot: Slot, twin: Slot, model: string)
    requires Holds(s, slot) && slot.key.kb == kb && Holds(s, twin) && RowAt(s, twin).hash == RowAt(s, slot).hash
    requires KeyAt(s, twin, model) in s.vectors
    ensures TwinOf(s, kb, KeyAt(s, slot, model), s.vectors[KeyAt(s, twin, model)])
  {
    assert slot.key in s.docs && s.docs[slot.key].rows[slot.i].id == KeyAt(s, slot, model).chunk;
    assert s.docs[twin.key].rows[twin.i].hash == s.docs[slot.key].rows[slot.i].hash;
  }

  /** The vectors twins have to offer to the pending rows. */
  method FindTwins(s: Store, kb: string, model: string) returns (found: map<VectorKey, Vector>)
    ensures forall k :: k in found ==> k !in s.vectors && k.model == model && TwinOf(s, kb, k, found[k])
    ensures forall slot :: slot in Pending(s, kb, model) && KeyAt(s, slot, model) !in found ==> NoTwin(s, slot, model)
  {
    var todo := Pending(s, kb, model);
    found := map[];
    while todo != {}
      invariant todo <= Pending(s, kb, model)
      invariant forall k :: k in found ==> k !in s.vectors && k.model == model && TwinOf(s, kb, k, found[k])
      invariant forall slot :: slot in Pending(s, kb, model) && slot !in todo && KeyAt(s, slot, model) !in found ==>
        NoTwin(s, slot, model)
    {
      var slot :| slot in todo;
      todo := todo - {slot};
      var twins := set twin | twin in Slots(s) && RowAt(s, twin).hash == RowAt(s, slot).hash
        && KeyAt(s, twin, model) in s.vectors;
      if twins != {} {
        var twin :| twin in twins;
        TwinFound(s, kb, slot, twin, model);
        found := found[KeyAt(s, slot, model) := s.vectors[KeyAt(s, twin, model)]];
      } else {
        forall twin | Holds(s, twin) && RowAt(s, twin).hash == RowAt(s, slot).hash
          ensures KeyAt(s, twin, model) !in s.vectors
        {
          assert twin in Slots(s);
          assert twin !in twins;
        }
      }
    }
  }

  datatype KnowledgeBase = KnowledgeBase(id: string, models: seq<string>)

  datatype Options = Options(manual: bool, maxScheduledEmbeddings: nat, batchSize: nat)

  /** What becomes of one batch: answered, refused by the embedder, or given up because the run is aborted. */
  datatype Call = Answered | Refused | Aborted

  datatype Caught = CaughtUp | Behind | GivenUp

  /** How a run ended: stopped on the way, or done, with the models that are not caught up. */
  datatype Outcome = Interrupted | Done(failed: set<string>, deferred: set<string>)

  /** The tables the indexer writes, one statement or transaction a method. */
  class Repositories {
    var store: Store

    constructor ()
      ensures store == EMPTY
    {
      store := EMPTY;
    }

    method Upsert(key: DocKey, doc: Doc, chunks: seq<Chunk>)
      modifies this
      ensures store == Upserted(old(store), key, doc, chunks)
    {
      store := Upserted(store, key, doc, chunks);
    }

    /** Every document of the knowledge base not named in `keep`. */
    method DeleteAllExcept(kb: string, keep: set<string>)
      modifies this
      ensures store == Deleted(old(store), set key | key in old(store).docs && key.kb == kb && key.id !in keep)
    {
      store := Deleted(store, set key | key in store.docs && key.kb == kb && key.id !in keep);
    }

    method Delete(kb: string, ids: set<string>)
      modifies this
      ensures store == Deleted(old(store), set key | key in old(store).docs && key.kb == kb && key.id in ids)
    {
      store := Deleted(store, set key | key in store.docs && key.kb == kb && key.id in ids);
    }

    method SetCursor(kb: string, cursor: string)
      modifies this
      ensures store == old(store).(cursors := old(store).cursors[kb := cursor])
    {
      store := store.(cursors := store.cursors[kb := cursor]);
    }

    /** Gives rows without a vector the vector of a twin of equal hash, whenever one has it. */
    method CopyByHash(kb: string, model: string)
      modifies this
      ensures Copied(old(store), kb, model, store)
      ensures forall slot :: slot in Pending(store, kb, model) ==> NoTwin(old(store), slot, model)
    {
      var found := FindTwins(store, kb, model);
      ghost var s := store;
      store := store.(vectors := store.vectors + found);
      forall slot | slot in Pending(store, kb, model) ensures NoTwin(s, slot, model) {
        assert KeyAt(store, slot, model) == KeyAt(s, slot, model);
        assert slot in Pending(s, kb, model);
      }
    }

    method Insert(vectors: map<VectorKey, Vector>)
      modifies this
      ensures store == Inserted(old(store), vectors)
    {
      store := Inserted(store, vectors);
    }
  }

  /** At most `limit` pending rows; none only when none is pending. */
  method TakeBatch(s: Store, kb: string, model: string, limit: nat) returns (batch: set<Slot>)
    requires limit >= 1
    ensures batch <= Pending(s, kb, model) && |batch| <= limit
    ensures |batch| == limit || batch == Pending(s, kb, model)
  {
    var rest := Pending(s, kb, model);
    batch := {};
    while rest != {} && |batch| < limit
      invariant batch <= Pending(s, kb, model) && rest <= Pending(s, kb, model) && |batch| <= limit
      invariant batch + rest == Pending(s, kb, model)
      decreases rest
    {
      var slot :| slot in rest;
      rest := rest - {slot};
      batch := batch + {slot};
    }
  }

  lemma KeysApart(s: Store, a: Slot, b: Slot, model: string)
    requires IdsApart(s) && a.key in s.docs && 0 <= a.i < |s.docs[a.key].rows|
    requires b.key in s.docs && 0 <= b.i < |s.docs[b.key].rows|
    requires s.docs[a.key].rows[a.i].id == s.docs[b.key].rows[b.i].id
    ensures a == b
  {
  }

  lemma BatchMatches(
    e: Embedder, s: Store, kb: string, model: string, batch: set<Slot>, vectors: map<VectorKey, Vector>)
    requires RowsSound(e, s) && IdsApart(s) && batch <= Pending(s, kb, model)
    requires forall k :: k in vectors ==> exists slot :: slot in batch && k == KeyAt(s, slot, model)
    requires forall slot :: slot in batch ==>
      && KeyAt(s, slot, model) in vectors
      && vectors[KeyAt(s, slot, model)] == e.VectorOf(model, s.docs[slot.key].doc.title, RowAt(s, slot))
    ensures VectorsMatch(e, s, vectors) && Known(s, vectors)
  {
    forall key, i, k | key in s.docs && 0 <= i < |s.docs[key].rows| && k in vectors && k.chunk == s.docs[key].rows[i].id
      ensures vectors[k] == e.VectorOf(k.model, s.docs[key].doc.title, s.docs[key].rows[i])
    {
      var slot :| slot in batch && k == KeyAt(s, slot, model);
      KeysApart(s, slot, Slot(key, i), model);
    }
    forall k | k in vectors ensures k.chunk < s.next {
      var slot :| slot in batch && k == KeyAt(s, slot, model);
      assert s.docs[slot.key].rows[slot.i].id < s.next;
    }
  }

  /** The embedder's answer for a batch of rows. */
  method EmbedBatch(
    e: Embedder, s: Store, kb: string, model: string, batch: set<Slot>) returns (vectors: map<VectorKey, Vector>)
    requires RowsSound(e, s) && IdsApart(s) && batch <= Pending(s, kb, model)
    ensures VectorsMatch(e, s, vectors) && Known(s, vectors)
    ensures forall slot :: slot in batch ==> KeyAt(s, slot, model) in vectors
    ensures forall k :: k in vectors ==> k.model == model
  {
    forall a, b | a in batch && b in batch && KeyAt(s, a, model) == KeyAt(s, b, model) ensures a == b {
      KeysApart(s, a, b, model);
    }
    vectors := map slot | slot in batch ::
      KeyAt(s, slot, model) := e.VectorOf(model, s.docs[slot.key].doc.title, RowAt(s, slot));
    assert forall slot :: slot in batch ==> KeyAt(s, slot, model) in vectors;
    BatchMatches(e, s, kb, model, batch, vectors);
  }

  lemma InsertLeavesFewer(s: Store, kb: string, model: string, batch: set<Slot>, vectors: map<VectorKey, Vector>)
    requires batch != {} && batch <= Pending(s, kb, model)
    requires forall slot :: slot in batch ==> KeyAt(s, slot, model) in vectors
    ensures Pending(Inserted(s, vectors), kb, model) < Pending(s, kb, model)
    ensures forall k :: k in s.vectors ==> k in Inserted(s, vectors).vectors
  {
    var t := Inserted(s, vectors);
    var slot :| slot in batch;
    assert RowAt(s, slot).id in LiveIds(s);
    assert KeyAt(t, slot, model) in t.vectors;
    assert slot !in Pending(t, kb, model);
  }

  lemma MoreVectorsLessPending(s: Store, t: Store, kb: string, model: string)
    requires s.docs == t.docs && forall k :: k in s.vectors ==> k in t.vectors
    ensures Pending(t, kb, model) <= Pending(s, kb, model)
  {
    forall slot | slot in Pending(t, kb, model) ensures slot in Pending(s, kb, model) {
      assert KeyAt(s, slot, model) == KeyAt(t, slot, model);
    }
  }
  // ---- What a run leaves in place

  /** Rows with a vector, outside the documents written, are still there with it. */
  ghost predicate KeptOutside(s: Store, t: Store, kb: string, ids: set<string>) {
    forall slot, model ::
      Holds(s, slot) && !(slot.key.kb == kb && slot.key.id in ids) && KeyAt(s, slot, model) in s.vectors ==>
      Holds(t, slot) && RowAt(t, slot) == RowAt(s, slot) && KeyAt(t, slot, model) in t.vectors
  }

  lemma KeptByUpsert(s: Store, t: Store, kb: string, ids: set<string>, id: string, doc: Doc, chunks: seq<Chunk>)
    requires KeptOutside(s, t, kb, ids) && id in ids
    ensures KeptOutside(s, Upserted(t, DocKey(kb, id), doc, chunks), kb, ids)
  {
    var u := Upserted(t, DocKey(kb, id), doc, chunks);
    UpsertStoresTheDocument(t, DocKey(kb, id), doc, chunks);
    forall slot, model |
      Holds(s, slot) && !(slot.key.kb == kb && slot.key.id in ids) && KeyAt(s, slot, model) in s.vectors
      ensures Holds(u, slot) && RowAt(u, slot) == RowAt(s, slot) && KeyAt(u, slot, model) in u.vectors
    {
      assert u.docs[slot.key] == t.docs[slot.key];
      assert WithDoc(t, DocKey(kb, id), doc, chunks).docs == u.docs;
      assert KeyAt(t, slot, model) in t.vectors && RowAt(u, slot).id in LiveIds(u);
    }
  }

  /** What is pending has no twin that had a vector. */
  ghost predicate TwinsAreUsed(s: Store, t: Store, kb: string, model: string) {
    forall slot :: slot in Pending(t, kb, model) ==> NoTwin(s, slot, model)
  }

  ghost predicate MoreVectors(s: Store, t: Store) {
    t.docs == s.docs && forall k :: k in s.vectors ==> k in t.vectors && t.vectors[k] == s.vectors[k]
  }

  lemma TwinsStayUsed(s: Store, t: Store, u: Store, kb: string, model: string)
    requires TwinsAreUsed(s, t, kb, model) && MoreVectors(t, u)
    ensures TwinsAreUsed(s, u, kb, model)
  {
    MoreVectorsLessPending(t, u, kb, model);
  }

  lemma TwinsWereUsed(s: Store, t: Store, u: Store, kb: string, model: string)
    requires MoreVectors(s, t) && TwinsAreUsed(t, u, kb, model)
    ensures TwinsAreUsed(s, u, kb, model)
  {
    forall slot | slot in Pending(u, kb, model) ensures NoTwin(s, slot, model) {
      forall twin | Holds(s, twin) && RowAt(s, twin).hash == RowAt(s, slot).hash
        ensures KeyAt(s, twin, model) !in s.vectors
      {
        assert KeyAt(t, twin, model) == KeyAt(s, twin, model);
      }
    }
  }

  lemma OneMoreModelCopied(s: Store, t: Store, u: Store, kb: KnowledgeBase, m: nat)
    requires m < |kb.models| && MoreVectors(s, t) && MoreVectors(t, u)
    requires forall model :: model in kb.models[..m] ==> TwinsAreUsed(s, t, kb.id, model)
    requires TwinsAreUsed(t, u, kb.id, kb.models[m])
    ensures forall model :: model in kb.models[..m + 1] ==> TwinsAreUsed(s, u, kb.id, model)
  {
    assert kb.models[..m + 1] == kb.models[..m] + [kb.models[m]];
    forall model | model in kb.models[..m + 1] ensures TwinsAreUsed(s, u, kb.id, model) {
      if model in kb.models[..m] {
        TwinsStayUsed(s, t, u, kb.id, model);
      } else {
        TwinsWereUsed(s, t, u, kb.id, model);
      }
    }
  }

  lemma SmallerSet<T>(a: set<T>, b: set<T>)
    requires a < b
    ensures |a| < |b|
  {
    assert b == a + (b - a);
    assert b - a != {};
  }

  /** Vectors are new for this model only. */
  ghost predicate OthersUntouched(s: Store, t: Store, model: string) {
    MoreVectors(s, t) && forall k :: k in t.vectors && k !in s.vectors ==> k.model == model
  }

  lemma OthersStayPending(s: Store, t: Store, kb: string, model: string, other: string)
    requires OthersUntouched(s, t, model) && other != model
    ensures Pending(t, kb, other) == Pending(s, kb, other)
  {
    forall slot ensures slot in Pending(t, kb, other) <==> slot in Pending(s, kb, other) {
      if Holds(s, slot) {
        assert KeyAt(s, slot, other) == KeyAt(t, slot, other);
      }
    }
  }

  lemma OthersStayUntouched(s: Store, t: Store, u: Store, model: string)
    requires OthersUntouched(s, t, model) && OthersUntouched(t, u, model)
    ensures OthersUntouched(s, u, model)
  {
  }

  ghost predicate HasVector(s: Store, model: string, vector: Vector) {
    exists k :: k in s.vectors && k.model == model && s.vectors[k] == vector
  }

  /** Every vector of the model is one that was stored for it before. */
  ghost predicate OnlyCopies(s: Store, t: Store, model: string) {
    forall k :: k in t.vectors && k.model == model ==> HasVector(s, model, t.vectors[k])
  }

  /** So is every vector of any model. */
  ghost predicate AllCopies(s: Store, t: Store) {
    forall k :: k in t.vectors ==> HasVector(s, k.model, t.vectors[k])
  }

  lemma OthersAreCopies(s: Store, t: Store, model: string, other: string)
    requires OthersUntouched(s, t, model) && (other == model ==> s == t)
    ensures OnlyCopies(s, t, other)
  {
    forall k | k in t.vectors && k.model == other ensures HasVector(s, other, t.vectors[k]) {
      assert k in s.vectors;
    }
  }

  lemma CopiesOfCopies(s: Store, t: Store, u: Store)
    requires AllCopies(s, t) && AllCopies(t, u)
    ensures AllCopies(s, u)
  {
  }

  lemma OnlyCopiesOfCopies(s: Store, t: Store, u: Store, model: string)
    requires (AllCopies(s, t) || OnlyCopies(s, t, model)) && OnlyCopies(t, u, model)
    ensures OnlyCopies(s, u, model)
  {
  }

  lemma FewerAreCopies(s: Store, t: Store)
    requires forall k :: k in t.vectors ==> k in s.vectors && t.vectors[k] == s.vectors[k]
    ensures AllCopies(s, t)
  {
  }

  lemma CopiedAreCopies(s: Store, kb: string, model: string, t: Store)
    requires Copied(s, kb, model, t)
    ensures AllCopies(s, t)
  {
    forall k | k in t.vectors ensures HasVector(s, k.model, t.vectors[k]) {
      if k !in s.vectors {
        assert TwinOf(s, kb, k, t.vectors[k]);
      }
    }
  }

  /** What a deletion leaves pending was pending. */
  lemma DeletionLeavesNoMorePending(s: Store, gone: set<DocKey>, kb: string, model: string)
    ensures Pending(Deleted(s, gone), kb, model) <= Pending(s, kb, model)
  {
  }

  /** A chunk alike to one that had a vector, in a document the run did not write, has that vector, although the
      run may have deleted that document. */
  ghost predicate NothingIsEmbeddedAgain(s: Store, t: Store, kb: KnowledgeBase, ids: set<string>) {
    forall twin, slot, model ::
      model in kb.models && Holds(s, twin) && !(twin.key.kb == kb.id && twin.key.id in ids)
      && KeyAt(s, twin, model) in s.vectors
      && Holds(t, slot) && slot.key.kb == kb.id && RowAt(t, slot).hash == RowAt(s, twin).hash ==>
      KeyAt(t, slot, model) in t.vectors
  }

  lemma CopiesLast(s: Store, written: Store, t: Store, kb: KnowledgeBase, ids: set<string>)
    requires KeptOutside(s, written, kb.id, ids)
    requires forall model :: model in kb.models ==> TwinsAreUsed(written, t, kb.id, model)
    requires forall key :: key in t.docs ==> key in written.docs && t.docs[key] == written.docs[key]
    ensures NothingIsEmbeddedAgain(s, t, kb, ids)
  {
    forall twin, slot, model |
      model in kb.models && Holds(s, twin) && !(twin.key.kb == kb.id && twin.key.id in ids)
      && KeyAt(s, twin, model) in s.vectors
      && Holds(t, slot) && slot.key.kb == kb.id && RowAt(t, slot).hash == RowAt(s, twin).hash
      ensures KeyAt(t, slot, model) in t.vectors
    {
      assert TwinsAreUsed(written, t, kb.id, model);
      assert slot in Pending(t, kb.id, model) ==> NoTwin(written, slot, model);
    }
  }

  ghost predicate Apart(models: seq<string>) {
    forall i, j :: 0 <= i < j < |models| ==> models[i] != models[j]
  }

  /** What embedding makes of one model. Too large a backlog is deferred unless the run is manual; otherwise the
      model is caught up, or it failed on a batch the embedder refused. */
  ghost predicate Treated(kb: string, options: Options, call: (string, nat) -> Call, s: Store, t: Store,
                          model: string, failed: bool, deferred: bool)
  {
    var backlog, left := Pending(s, kb, model), Pending(t, kb, model);
    if !options.manual && |backlog| > options.maxScheduledEmbeddings then deferred && !failed && left == backlog
    else
      && !deferred
      && (if failed then left != {} && exists n :: call(model, n).Refused? else left == {})
      && (call(model, 0).Refused? && backlog != {} ==> failed && left == backlog)
  }

  lemma TreatedStays(kb: string, options: Options, call: (string, nat) -> Call, s: Store, t: Store, u: Store,
                     model: string, failed: bool, deferred: bool)
    requires Treated(kb, options, call, s, t, model, failed, deferred) && Pending(u, kb, model) == Pending(t, kb, model)
    ensures Treated(kb, options, call, s, u, model, failed, deferred)
  {
  }

  lemma TreatedFrom(kb: string, options: Options, call: (string, nat) -> Call, s: Store, s': Store, t: Store,
                    model: string, failed: bool, deferred: bool)
    requires Treated(kb, options, call, s', t, model, failed, deferred)
      && Pending(s', kb, model) == Pending(s, kb, model)
    ensures Treated(kb, options, call, s, t, model, failed, deferred)
  {
  }

  /** The first `n` models have been treated, the others are as they were. */
  ghost predicate TreatedUpTo(kb: KnowledgeBase, options: Options, call: (string, nat) -> Call, s: Store, t: Store,
                              n: nat, failed: set<string>, deferred: set<string>)
    requires n <= |kb.models|
  {
    && (forall i :: 0 <= i < n ==>
         Treated(kb.id, options, call, s, t, kb.models[i], kb.models[i] in failed, kb.models[i] in deferred))
    && (forall i :: n <= i < |kb.models| ==> Pending(t, kb.id, kb.models[i]) == Pending(s, kb.id, kb.models[i]))
    && (forall m :: m in failed || m in deferred ==> m in kb.models[..n])
  }

  lemma OneMoreTreated(kb: KnowledgeBase, options: Options, call: (string, nat) -> Call, s: Store, t: Store, u: Store,
                       n: nat, failed: set<string>, deferred: set<string>, fails: bool, defers: bool)
    requires n < |kb.models| && Apart(kb.models) && TreatedUpTo(kb, options, call, s, t, n, failed, deferred)
    requires OthersUntouched(t, u, kb.models[n])
    requires Treated(kb.id, options, call, t, u, kb.models[n], fails, defers)
    ensures TreatedUpTo(kb, options, call, s, u, n + 1, if fails then failed + {kb.models[n]} else failed,
                        if defers then deferred + {kb.models[n]} else deferred)
  {
    var model := kb.models[n];
    var failed', deferred' := if fails then failed + {model} else failed, if defers then deferred + {model}
      else deferred;
    assert kb.models[..n + 1] == kb.models[..n] + [model];
    assert model !in kb.models[..n];
    forall i | 0 <= i < n + 1
      ensures Treated(kb.id, options, call, s, u, kb.models[i], kb.models[i] in failed', kb.models[i] in deferred')
    {
      if i == n {
        TreatedFrom(kb.id, options, call, s, t, u, model, fails, defers);
      } else {
        OthersStayPending(t, u, kb.id, model, kb.models[i]);
        TreatedStays(kb.id, options, call, s, t, u, kb.models[i], kb.models[i] in failed, kb.models[i] in deferred);
      }
    }
    forall i | n + 1 <= i < |kb.models| ensures Pending(u, kb.id, kb.models[i]) == Pending(s, kb.id, kb.models[i]) {
      OthersStayPending(t, u, kb.id, model, kb.models[i]);
    }
  }

  /** What a finished run says of its models is so: those whose backlog is too large are deferred, unless the run
      is manual; of the others those fail that are behind, on a batch the embedder refused. */
  ghost predicate Reported(kb: KnowledgeBase, options: Options, call: (string, nat) -> Call, t: Store,
                           failed: set<string>, deferred: set<string>)
  {
    && (forall m :: m in failed || m in deferred ==> m in kb.models)
    && forall m :: m in kb.models ==>
        var left := Pending(t, kb.id, m);
        && (m in deferred <==> !options.manual && |left| > options.maxScheduledEmbeddings)
        && (m in failed <==> m !in deferred && left != {})
        && (m in failed ==> exists n :: call(m, n).Refused?)
  }

  lemma TreatedOnceReported(kb: string, options: Options, call: (string, nat) -> Call, s: Store, t: Store,
                            model: string, failed: bool, deferred: bool)
    requires Treated(kb, options, call, s, t, model, failed, deferred) && MoreVectors(s, t)
    ensures deferred <==> !options.manual && |Pending(t, kb, model)| > options.maxScheduledEmbeddings
    ensures failed <==> !deferred && Pending(t, kb, model) != {}
    ensures failed ==> exists n :: call(model, n).Refused?
  {
    MoreVectorsLessPending(s, t, kb, model);
    if Pending(t, kb, model) != Pending(s, kb, model) {
      SmallerSet(Pending(t, kb, model), Pending(s, kb, model));
    }
  }

  lemma TreatedIsReported(kb: KnowledgeBase, options: Options, call: (string, nat) -> Call, s: Store, t: Store,
                          failed: set<string>, deferred: set<string>)
    requires TreatedUpTo(kb, options, call, s, t, |kb.models|, failed, deferred) && MoreVectors(s, t)
    ensures Reported(kb, options, call, t, failed, deferred)
  {
    assert kb.models[..|kb.models|] == kb.models;
    forall m | m in kb.models
      ensures m in deferred <==> !options.manual && |Pending(t, kb.id, m)| > options.maxScheduledEmbeddings
      ensures m in failed <==> m !in deferred && Pending(t, kb.id, m) != {}
      ensures m in failed ==> exists n :: call(m, n).Refused?
    {
      var i :| 0 <= i < |kb.models| && kb.models[i] == m;
      TreatedOnceReported(kb.id, options, call, s, t, kb.models[i], m in failed, m in deferred);
    }
  }

  lemma MoreVectorsEmbedNothingLess(s: Store, t: Store, u: Store, kb: KnowledgeBase, ids: set<string>)
    requires MoreVectors(t, u)
    ensures NothingIsEmbeddedAgain(s, t, kb, ids) ==> NothingIsEmbeddedAgain(s, u, kb, ids)
  {
    if NothingIsEmbeddedAgain(s, t, kb, ids) {
      forall twin, slot, model |
        model in kb.models && Holds(s, twin) && !(twin.key.kb == kb.id && twin.key.id in ids)
        && KeyAt(s, twin, model) in s.vectors
        && Holds(u, slot) && slot.key.kb == kb.id && RowAt(u, slot).hash == RowAt(s, twin).hash
        ensures KeyAt(u, slot, model) in u.vectors
      {
        assert KeyAt(t, slot, model) in t.vectors && KeyAt(u, slot, model) == KeyAt(t, slot, model);
      }
    }
  }

  /** So far `batches` were embedded for the model. */
  ghost predicate Progress(start: Store, now: Store, model: string, batches: nat) {
    OthersUntouched(start, now, model) && now.cursors == start.cursors && (batches == 0 ==> now == start)
  }

  /** A model whose first batch was not answered has no vector but copies. */
  ghost predicate UntriedAreCopies(call: (string, nat) -> Call, s: Store, t: Store) {
    forall m :: !call(m, 0).Answered? ==> OnlyCopies(s, t, m)
  }

  lemma UntriedStayCopies(call: (string, nat) -> Call, s: Store, t: Store, u: Store, model: string)
    requires UntriedAreCopies(call, s, t) && OthersUntouched(t, u, model) && (!call(model, 0).Answered? ==> u == t)
    ensures UntriedAreCopies(call, s, u)
  {
    forall m | !call(m, 0).Answered? ensures OnlyCopies(s, u, m) {
      OthersAreCopies(t, u, model, m);
      OnlyCopiesOfCopies(s, t, u, m);
    }
  }

  lemma AppliedAreCopies(call: (string, nat) -> Call, s: Store, t: Store, u: Store)
    requires AllCopies(s, t) && UntriedAreCopies(call, t, u)
    ensures UntriedAreCopies(call, s, u)
  {
    forall m | !call(m, 0).Answered? ensures OnlyCopies(s, u, m) {
      OnlyCopiesOfCopies(s, t, u, m);
    }
  }

  /** Of these models, those neither failed nor deferred have nothing pending. */
  ghost predicate OthersCaughtUp(
    t: Store, kb: string, models: seq<string>, failed: set<string>, deferred: set<string>) {
    forall m :: m in models && m !in failed && m !in deferred ==> Pending(t, kb, m) == {}
  }

  lemma OneMoreCaughtUp(t: Store, u: Store, kb: string, models: seq<string>, model: string,
                        failed: set<string>, deferred: set<string>)
    requires OthersCaughtUp(t, kb, models, failed, deferred) && MoreVectors(t, u)
    requires model in failed || model in deferred || Pending(u, kb, model) == {}
    ensures OthersCaughtUp(u, kb, models + [model], failed, deferred)
  {
    forall m | m in models && m !in failed && m !in deferred ensures Pending(u, kb, m) == {} {
      MoreVectorsLessPending(t, u, kb, m);
    }
  }

  class IndexerService {
    const repositories: Repositories
    const embedder: Embedder
    const chunker: MarkdownChunker
    const chunking: Chunking

    constructor (repositories: Repositories, embedder: Embedder, chunker: MarkdownChunker, chunking: Chunking)
      ensures this.repositories == repositories && this.embedder == embedder
      ensures this.chunker == chunker && this.chunking == chunking
    {
      this.repositories, this.embedder, this.chunker, this.chunking := repositories, embedder, chunker, chunking;
    }

    /** Chunker and embedder share their text rules and digest. */
    ghost predicate Sound() {
      && embedder.Sound()
      && chunking.rules == embedder.rules && chunking.digest == embedder.digest
      && chunker.rules == embedder.rules && chunker.digest == embedder.digest
    }

    ghost predicate StoreCoherent()
      reads this, repositories
    {
      Coherent(embedder, World(repositories.store, map[]))
    }

    /** A document is cut below its header, the way its knowledge base and its path say. */
    method ChunkOf(key: DocKey, document: SourceDoc) returns (chunks: seq<Chunk>)
      requires Sound()
      ensures chunks == chunking.Cut(key, document.doc.title, document.doc.content)
    {
      var body := Frontmatters.Parse(chunking.yaml, document.doc.content).body;
      chunks := chunker.ChunkDocument(body, chunking.OptionsFor(key, document.doc.title));
    }

    /** Whether stored rows are what the chunker makes of the stored content. */
    ghost predicate RowsAreOwn()
      reads this, repositories
    {
      RowsAreCut(chunking.Cutting(), repositories.store)
    }

    /** One document of a run, unless the database would refuse it. */
    method WriteDocument(kb: string, document: SourceDoc, ghost start: Store, ghost ids: set<string>)
      requires Sound() && StoreCoherent() && KeptOutside(start, repositories.store, kb, ids) && document.id in ids
      modifies repositories
      ensures StoreCoherent() && OthersKept(old(repositories.store), repositories.store, kb)
      ensures KbOf(repositories.store, kb) ==
        var before := KbOf(old(repositories.store), kb); before.(docs := Write(before.docs, document))
      ensures KeptOutside(start, repositories.store, kb, ids)
      ensures old(RowsAreOwn()) ==> RowsAreOwn()
      ensures AllCopies(old(repositories.store), repositories.store)
    {
      if HoldsNul(document) {
        return;
      }
      var key := DocKey(kb, document.id);
      var chunks := ChunkOf(key, document);
      ghost var s := repositories.store;
      CutIsWellHashed(chunking, key, document.doc.title, document.doc.content);
      UpsertStoresTheDocument(s, key, document.doc, chunks);
      OneDocumentChanged(s, Upserted(s, key, document.doc, chunks), key, document.doc);
      UpsertKeepsCoherence(embedder, World(s, map[]), key, document.doc, chunks);
      KeptByUpsert(start, s, kb, ids, document.id, document.doc, chunks);
      if RowsAreOwn() {
        UpsertKeepsRowsCut(embedder, chunking.Cutting(), s, key, document.doc, chunks);
      }
      repositories.Upsert(key, document.doc, chunks);
      FewerAreCopies(s, repositories.store);
    }

    /** The documents of a run, in order, until `stop` of them are done. */
    method WriteDocuments(kb: string, upserts: seq<SourceDoc>, stop: nat)
      requires Sound() && StoreCoherent() && stop <= |upserts|
      modifies repositories
      ensures StoreCoherent() && OthersKept(old(repositories.store), repositories.store, kb)
      ensures KbOf(repositories.store, kb) ==
        var before := KbOf(old(repositories.store), kb); before.(docs := WriteAll(before.docs, upserts[..stop]))
      ensures KeptOutside(old(repositories.store), repositories.store, kb, Ids(upserts))
      ensures old(RowsAreOwn()) ==> RowsAreOwn()
      ensures AllCopies(old(repositories.store), repositories.store)
    {
      ghost var s := repositories.store;
      ghost var before := KbOf(s, kb);
      assert upserts[..0] == [];
      for i := 0 to stop
        invariant StoreCoherent() && OthersKept(s, repositories.store, kb)
        invariant KbOf(repositories.store, kb) == before.(docs := WriteAll(before.docs, upserts[..i]))
        invariant KeptOutside(s, repositories.store, kb, Ids(upserts))
        invariant RowsAreCut(chunking.Cutting(), s) ==> RowsAreOwn()
        invariant AllCopies(s, repositories.store)
      {
        ghost var t := repositories.store;
        assert upserts[..i + 1][..i] == upserts[..i];
        WriteDocument(kb, upserts[i], s, Ids(upserts));
        CopiesOfCopies(s, t, repositories.store);
      }
    }

    method CopyVectors(kb: KnowledgeBase)
      requires Sound() && StoreCoherent()
      modifies repositories
      ensures StoreCoherent()
      ensures MoreVectors(old(repositories.store), repositories.store)
      ensures repositories.store.cursors == old(repositories.store).cursors
      ensures forall model :: model in kb.models ==>
        TwinsAreUsed(old(repositories.store), repositories.store, kb.id, model)
      ensures AllCopies(old(repositories.store), repositories.store)
    {
      ghost var s := repositories.store;
      for m := 0 to |kb.models|
        invariant StoreCoherent() && MoreVectors(s, repositories.store)
        invariant repositories.store.cursors == s.cursors
        invariant forall model :: model in kb.models[..m] ==> TwinsAreUsed(s, repositories.store, kb.id, model)
        invariant AllCopies(s, repositories.store)
      {
        ghost var t := repositories.store;
        repositories.CopyByHash(kb.id, kb.models[m]);
        ghost var u := repositories.store;
        CopyKeepsCoherence(embedder, World(t, map[]), kb.id, kb.models[m], u);
        OneMoreModelCopied(s, t, u, kb, m);
        CopiedAreCopies(t, kb.id, kb.models[m], u);
        CopiesOfCopies(s, t, u);
      }
      assert kb.models[..|kb.models|] == kb.models;
    }

    method DeleteDocuments(kb: string, changes: Changes)
      requires StoreCoherent()
      modifies repositories
      ensures StoreCoherent() && OthersKept(old(repositories.store), repositories.store, kb)
      ensures KbOf(repositories.store, kb) ==
        var before := KbOf(old(repositories.store), kb); before.(docs := Prune(before.docs, changes))
      ensures forall key :: key in repositories.store.docs ==>
        key in old(repositories.store).docs && repositories.store.docs[key] == old(repositories.store).docs[key]
      ensures forall model :: Pending(repositories.store, kb, model) <= Pending(old(repositories.store), kb, model)
      ensures AllCopies(old(repositories.store), repositories.store)
      ensures old(RowsAreOwn()) ==> RowsAreOwn()
    {
      var s := repositories.store;
      var upsertedIds := Ids(changes.upserts);
      ghost var gone: set<DocKey>;
      if changes.complete {
        gone := set key | key in s.docs && key.kb == kb && key.id !in upsertedIds;
        repositories.DeleteAllExcept(kb, upsertedIds);
      } else {
        var ids := set id | id in changes.deletes && id !in upsertedIds;
        gone := set key | key in s.docs && key.kb == kb && key.id in ids;
        repositories.Delete(kb, ids);
      }
      DeleteRemovesTheDocuments(s, kb, changes, gone);
      DeleteKeepsCoherence(embedder, World(s, map[]), gone);
      forall model ensures Pending(Deleted(s, gone), kb, model) <= Pending(s, kb, model) {
        DeletionLeavesNoMorePending(s, gone, kb, model);
      }
      FewerAreCopies(s, Deleted(s, gone));
      if RowsAreCut(chunking.Cutting(), s) {
        DeleteKeepsRowsCut(chunking.Cutting(), s, gone);
      }
    }

    /** Embeds and stores one batch. */
    method EmbedAndInsert(kb: string, model: string, batch: set<Slot>)
      requires Sound() && StoreCoherent() && batch != {} && batch <= Pending(repositories.store, kb, model)
      modifies repositories
      ensures StoreCoherent() && Progress(old(repositories.store), repositories.store, model, 1)
      ensures Pending(repositories.store, kb, model) < Pending(old(repositories.store), kb, model)
    {
      var s := repositories.store;
      var vectors := EmbedBatch(embedder, s, kb, model, batch);
      InsertKeepsCoherence(embedder, World(s, map[]), vectors);
      InsertLeavesFewer(s, kb, model, batch, vectors);
      repositories.Insert(vectors);
    }

    /** The next batch of a model, if there is one and the run goes on. */
    method EmbedNext(kb: string, model: string, batchSize: nat, fate: Call) returns (ended: Option<Caught>)
      requires Sound() && StoreCoherent() && batchSize >= 1
      modifies repositories
      ensures StoreCoherent()
      ensures ended.Some? ==> repositories.store == old(repositories.store)
      ensures ended == Some(GivenUp) <==> fate.Aborted?
      ensures ended == Some(CaughtUp) <==> !fate.Aborted? && Pending(old(repositories.store), kb, model) == {}
      ensures ended == Some(Behind) <==> fate.Refused? && Pending(old(repositories.store), kb, model) != {}
      ensures ended.None? ==> Progress(old(repositories.store), repositories.store, model, 1)
      ensures ended.None? ==> Pending(repositories.store, kb, model) < Pending(old(repositories.store), kb, model)
    {
      if fate.Aborted? {
        return Some(GivenUp);
      }
      var batch := TakeBatch(repositories.store, kb, model, batchSize);
      if batch == {} {
        return Some(CaughtUp);
      }
      if fate.Refused? {
        return Some(Behind);
      }
      EmbedAndInsert(kb, model, batch);
      ended := None;
    }

    /** Embeds every pending chunk, a batch at a time, until the embedder refuses one or the run is aborted.
        `call` says what becomes of each batch, `batches` how many were answered. */
    method EmbedPending(kb: string, model: string, batchSize: nat, call: (string, nat) -> Call)
      returns (caught: Caught, ghost batches: nat)
      requires Sound() && StoreCoherent() && batchSize >= 1
      modifies repositories
      ensures StoreCoherent() && Progress(old(repositories.store), repositories.store, model, batches)
      ensures forall n :: 0 <= n < batches ==> call(model, n).Answered?
      ensures caught.CaughtUp? ==> Pending(repositories.store, kb, model) == {}
      ensures caught.Behind? ==> call(model, batches).Refused? && Pending(repositories.store, kb, model) != {}
      ensures caught.GivenUp? ==> call(model, batches).Aborted?
    {
      ghost var start := repositories.store;
      var calls := 0;
      while true
        invariant StoreCoherent() && Progress(start, repositories.store, model, calls)
        invariant forall n :: 0 <= n < calls ==> call(model, n).Answered?
        decreases Pending(repositories.store, kb, model)
      {
        ghost var s := repositories.store;
        var ended := EmbedNext(kb, model, batchSize, call(model, calls));
        if ended.Some? {
          return ended.value, calls;
        }
        OthersStayUntouched(start, s, repositories.store, model);
        calls := calls + 1;
      }
    }

    /** One model of a run. */
    method EmbedModel(kb: string, model: string, options: Options, call: (string, nat) -> Call)
      returns (caught: Caught, deferred: bool)
      requires Sound() && StoreCoherent() && options.batchSize >= 1
      modifies repositories
      ensures StoreCoherent() && OthersUntouched(old(repositories.store), repositories.store, model)
      ensures repositories.store.cursors == old(repositories.store).cursors
      ensures caught.GivenUp? ==> exists n :: call(model, n).Aborted?
      ensures !caught.GivenUp? ==>
        Treated(kb, options, call, old(repositories.store), repositories.store, model, caught.Behind?, deferred)
      ensures !call(model, 0).Answered? ==> repositories.store == old(repositories.store)
    {
      if !options.manual && |Pending(repositories.store, kb, model)| > options.maxScheduledEmbeddings {
        return CaughtUp, true;
      }
      ghost var batches;
      caught, batches := EmbedPending(kb, model, options.batchSize, call);
      deferred := false;
    }

    /** The models of a run caught up, except those whose embedder refused or whose backlog was deferred. */
    method EmbedAll(kb: KnowledgeBase, options: Options, call: (string, nat) -> Call) returns (outcome: Outcome)
      requires Sound() && StoreCoherent() && options.batchSize >= 1
      modifies repositories
      ensures StoreCoherent() && MoreVectors(old(repositories.store), repositories.store)
      ensures repositories.store.cursors == old(repositories.store).cursors
      ensures outcome.Interrupted? ==> exists m, n :: m in kb.models && call(m, n).Aborted?
      ensures outcome.Done? ==>
        OthersCaughtUp(repositories.store, kb.id, kb.models, outcome.failed, outcome.deferred)
      ensures outcome.Done? && Apart(kb.models) ==>
        TreatedUpTo(kb, options, call, old(repositories.store), repositories.store, |kb.models|,
                    outcome.failed, outcome.deferred)
      ensures UntriedAreCopies(call, old(repositories.store), repositories.store)
    {
      var failed: set<string>, deferred: set<string> := {}, {};
      ghost var s := repositories.store;
      for i := 0 to |kb.models|
        invariant StoreCoherent() && MoreVectors(s, repositories.store)
        invariant repositories.store.cursors == s.cursors
        invariant OthersCaughtUp(repositories.store, kb.id, kb.models[..i], failed, deferred)
        invariant Apart(kb.models) ==> TreatedUpTo(kb, options, call, s, repositories.store, i, failed, deferred)
        invariant UntriedAreCopies(call, s, repositories.store)
      {
        var name := kb.models[i];
        assert kb.models[..i + 1] == kb.models[..i] + [name];
        ghost var t := repositories.store;
        var caught, defers := EmbedModel(kb.id, name, options, call);
        ghost var u := repositories.store;
        UntriedStayCopies(call, s, t, u, name);
        if caught.GivenUp? {
          return Interrupted;
        }
        if Apart(kb.models) {
          OneMoreTreated(kb, options, call, s, t, u, i, failed, deferred, caught.Behind?, defers);
        }
        if caught.Behind? {
          failed := failed + {name};
        }
        if defers {
          deferred := deferred + {name};
        }
        OneMoreCaughtUp(t, u, kb.id, kb.models[..i], name, failed, deferred);
      }
      assert kb.models[..|kb.models|] == kb.models;
      outcome := Done(failed, deferred);
    }

    method StoreCursor(kb: string, cursor: string)
      requires Sound() && StoreCoherent()
      modifies repositories
      ensures StoreCoherent() && OthersKept(old(repositories.store), repositories.store, kb)
      ensures KbOf(repositories.store, kb) == KbOf(old(repositories.store), kb).(cursor := Some(cursor))
      ensures MoreVectors(old(repositories.store), repositories.store)
      ensures repositories.store.vectors == old(repositories.store).vectors
    {
      ghost var s := repositories.store;
      repositories.SetCursor(kb, cursor);
      ghost var t := repositories.store;
      StepKeepsCoherence(embedder, World(s, map[]), SetCursor(kb, cursor), World(t, map[]));
      assert forall id :: KbOf(t, id).docs == KbOf(s, id).docs;
    }

    /** The writes of one run, up to `stop` of them; vectors are copied between documents and deletion. */
    method ApplyChanges(kb: KnowledgeBase, changes: Changes, stop: nat) returns (done: bool)
      requires Sound() && StoreCoherent()
      modifies repositories
      ensures StoreCoherent() && done == (stop >= Writes(changes))
      ensures KbOf(repositories.store, kb.id) == After(KbOf(old(repositories.store), kb.id), changes, stop)
      ensures OthersKept(old(repositories.store), repositories.store, kb.id)
      ensures old(RowsAreOwn()) ==> RowsAreOwn()
      ensures stop >= |changes.upserts| ==>
        NothingIsEmbeddedAgain(old(repositories.store), repositories.store, kb, Ids(changes.upserts))
      ensures AllCopies(old(repositories.store), repositories.store)
    {
      ghost var s := repositories.store;
      var n := |changes.upserts|;
      WriteDocuments(kb.id, changes.upserts, if stop < n then stop else n);
      assert changes.upserts[..n] == changes.upserts;
      if stop < n {
        return false;
      }
      ghost var written := repositories.store;
      CopyVectors(kb);
      ghost var copied := repositories.store;
      SameDocsSameKbs(written, copied);
      CopiesOfCopies(s, written, copied);
      CopiesLast(s, written, copied, kb, Ids(changes.upserts));
      if stop == n {
        return false;
      }
      DeleteDocuments(kb.id, changes);
      CopiesOfCopies(s, copied, repositories.store);
      CopiesLast(s, written, repositories.store, kb, Ids(changes.upserts));
      if stop == n + 1 {
        return false;
      }
      ghost var pruned := repositories.store;
      StoreCursor(kb.id, changes.cursor);
      if RowsAreCut(chunking.Cutting(), pruned) {
        SameDocsStayCut(chunking.Cutting(), pruned, repositories.store);
      }
      MoreVectorsEmbedNothingLess(s, pruned, repositories.store, kb, Ids(changes.upserts));
      FewerAreCopies(pruned, repositories.store);
      CopiesOfCopies(s, pruned, repositories.store);
      done := true;
    }

    /** One run. It stops after `stop` writes to the documents and the cursor, be it a crash, an abort or a
        refused statement; what the writes come to is `After`. It may still be aborted while it embeds. */
    method Index(kb: KnowledgeBase, changes: Changes, options: Options, stop: nat, call: (string, nat) -> Call)
      returns (outcome: Outcome)
      requires Sound() && StoreCoherent() && options.batchSize >= 1
      modifies repositories
      ensures StoreCoherent()
      ensures KbOf(repositories.store, kb.id) == After(KbOf(old(repositories.store), kb.id), changes, stop)
      ensures OthersKept(old(repositories.store), repositories.store, kb.id)
      ensures old(RowsAreOwn()) ==> RowsAreOwn()
      ensures stop >= |changes.upserts| ==>
        NothingIsEmbeddedAgain(old(repositories.store), repositories.store, kb, Ids(changes.upserts))
      ensures outcome.Done? ==> stop >= Writes(changes)
      ensures outcome.Interrupted? ==>
        stop < Writes(changes) || exists m, n :: m in kb.models && call(m, n).Aborted?
      ensures outcome.Done? ==>
        OthersCaughtUp(repositories.store, kb.id, kb.models, outcome.failed, outcome.deferred)
      ensures outcome.Done? && Apart(kb.models) ==>
        Reported(kb, options, call, repositories.store, outcome.failed, outcome.deferred)
      ensures UntriedAreCopies(call, old(repositories.store), repositories.store)
    {
      ghost var s := repositories.store;
      var done := ApplyChanges(kb, changes, stop);
      ghost var applied := repositories.store;
      assert UntriedAreCopies(call, s, applied);
      if !done {
        return Interrupted;
      }
      outcome := EmbedAll(kb, options, call);
      SameDocsSameKbs(applied, repositories.store);
      MoreVectorsEmbedNothingLess(s, applied, repositories.store, kb, Ids(changes.upserts));
      if RowsAreCut(chunking.Cutting(), applied) {
        SameDocsStayCut(chunking.Cutting(), applied, repositories.store);
      }
      AppliedAreCopies(call, s, applied, repositories.store);
      if outcome.Done? && Apart(kb.models) {
        TreatedIsReported(kb, options, call, applied, repositories.store, outcome.failed, outcome.deferred);
      }
    }
  }
}
