/** What an index run does to a knowledge base's documents and cursor, interrupted anywhere. */
module Convergence {
  import opened Text
  import opened IndexStore

  datatype SourceDoc = SourceDoc(id: string, doc: Doc)

  /** What a source reports for one run. */
  datatype Changes = Changes(upserts: seq<SourceDoc>, deletes: seq<string>, complete: bool, cursor: string)

  /** A knowledge base as a run sees it. */
  datatype Kb = Kb(docs: map<string, Doc>, cursor: Option<string>)

  predicate OptionHoldsNul(s: Option<string>) {
    s.Some? && '\0' in s.value
  }

  /** Whether any text of the document holds a NUL, which the database refuses. */
  predicate HoldsNul(d: SourceDoc) {
    || '\0' in d.id || OptionHoldsNul(d.doc.title) || OptionHoldsNul(d.doc.date) || '\0' in d.doc.url
    || '\0' in d.doc.content || '\0' in d.doc.version || '\0' in d.doc.metadata
  }

  function Ids(docs: seq<SourceDoc>): set<string> {
    set d | d in docs :: d.id
  }

  function Write(docs: map<string, Doc>, d: SourceDoc): map<string, Doc> {
    if HoldsNul(d) then docs else docs[d.id := d.doc]
  }

  function WriteAll(docs: map<string, Doc>, upserts: seq<SourceDoc>): map<string, Doc>
    decreases |upserts|
  {
    if upserts == [] then docs
    else Write(WriteAll(docs, upserts[..|upserts| - 1]), upserts[|upserts| - 1])
  }

  /** Whether the deletion step removes a stored document. A path reported both ways stays. */
  predicate Removes(changes: Changes, id: string) {
    id !in Ids(changes.upserts) && (changes.complete || id in changes.deletes)
  }

  function Prune(docs: map<string, Doc>, changes: Changes): map<string, Doc> {
    map id | id in docs && !Removes(changes, id) :: docs[id]
  }

  /** How many writes a run makes: one a document, the deletion, the cursor. */
  function Writes(changes: Changes): nat {
    |changes.upserts| + 2
  }

  /** The knowledge base after the first `k` writes: documents, then the deletion, the cursor last. */
  function After(kb: Kb, changes: Changes, k: nat): Kb {
    var n := |changes.upserts|;
    if k <= n then kb.(docs := WriteAll(kb.docs, changes.upserts[..k]))
    else if k == n + 1 then kb.(docs := Prune(WriteAll(kb.docs, changes.upserts), changes))
    else Kb(Prune(WriteAll(kb.docs, changes.upserts), changes), Some(changes.cursor))
  }

  function Finish(kb: Kb, changes: Changes): Kb {
    After(kb, changes, Writes(changes))
  }

  /** The document a run of writes leaves for an id: the last one it could store. */
  function Written(upserts: seq<SourceDoc>, id: string): Option<Doc>
    decreases |upserts|
  {
    if upserts == [] then None
    else
      var last := upserts[|upserts| - 1];
      if last.id == id && !HoldsNul(last) then Some(last.doc) else Written(upserts[..|upserts| - 1], id)
  }

  function Lookup(docs: map<string, Doc>, id: string): Option<Doc> {
    if id in docs then Some(docs[id]) else None
  }

  lemma {:induction false} WriteAllAt(docs: map<string, Doc>, upserts: seq<SourceDoc>, id: string)
    ensures Lookup(WriteAll(docs, upserts), id) ==
      if Written(upserts, id).Some? then Written(upserts, id) else Lookup(docs, id)
    decreases |upserts|
  {
    if upserts != [] {
      WriteAllAt(docs, upserts[..|upserts| - 1], id);
    }
  }

  lemma {:induction false} WrittenIsUpserted(upserts: seq<SourceDoc>, id: string)
    ensures Written(upserts, id).Some? ==> id in Ids(upserts)
    decreases |upserts|
  {
    if upserts != [] {
      var n := |upserts| - 1;
      WrittenIsUpserted(upserts[..n], id);
      assert upserts[n] in upserts;
      assert forall d :: d in upserts[..n] ==> d in upserts;
    }
  }

  /** What a finished run leaves for an id, from what was there before. */
  function Target(changes: Changes, id: string, before: Option<Doc>): Option<Doc> {
    if Written(changes.upserts, id).Some? then Written(changes.upserts, id)
    else if Removes(changes, id) then None
    else before
  }

  lemma FinishAt(kb: Kb, changes: Changes, id: string)
    ensures Lookup(Finish(kb, changes).docs, id) == Target(changes, id, Lookup(kb.docs, id))
  {
    WriteAllAt(kb.docs, changes.upserts, id);
    WrittenIsUpserted(changes.upserts, id);
  }

  /** `i` is the last report of the id the database takes. */
  ghost predicate LastStorable(upserts: seq<SourceDoc>, id: string, i: nat) {
    && i < |upserts| && upserts[i].id == id && !HoldsNul(upserts[i])
    && forall j :: i < j < |upserts| ==> upserts[j].id != id || HoldsNul(upserts[j])
  }

  lemma {:induction false} WrittenIsLastStorable(upserts: seq<SourceDoc>, id: string, i: nat)
    requires LastStorable(upserts, id, i)
    ensures Written(upserts, id) == Some(upserts[i].doc)
    decreases |upserts|
  {
    var n := |upserts| - 1;
    if i < n {
      assert upserts[n].id != id || HoldsNul(upserts[n]);
      WrittenIsLastStorable(upserts[..n], id, i);
    }
  }

  lemma {:induction false} WrittenAt(upserts: seq<SourceDoc>, id: string) returns (i: nat)
    requires Written(upserts, id).Some?
    ensures LastStorable(upserts, id, i)
    decreases |upserts|
  {
    var n := |upserts| - 1;
    if upserts[n].id == id && !HoldsNul(upserts[n]) {
      i := n;
    } else {
      i := WrittenAt(upserts[..n], id);
    }
  }

  /** What a finished run leaves: the last storable report of an id; else nothing, when the source does not have the id
      any more; else what was there. And the source's cursor. */
  lemma RunAppliesItsChanges(kb: Kb, changes: Changes, id: string)
    ensures Finish(kb, changes).cursor == Some(changes.cursor)
    ensures forall i: nat :: LastStorable(changes.upserts, id, i) ==>
      Lookup(Finish(kb, changes).docs, id) == Some(changes.upserts[i].doc)
    ensures (forall i :: 0 <= i < |changes.upserts| ==> changes.upserts[i].id != id) ==>
      Lookup(Finish(kb, changes).docs, id) ==
        if changes.complete || id in changes.deletes then None else Lookup(kb.docs, id)
    ensures id in Ids(changes.upserts) && (forall i: nat :: !LastStorable(changes.upserts, id, i)) ==>
      Lookup(Finish(kb, changes).docs, id) == Lookup(kb.docs, id)
  {
    FinishAt(kb, changes, id);
    forall i: nat | LastStorable(changes.upserts, id, i)
      ensures Written(changes.upserts, id) == Some(changes.upserts[i].doc)
    {
      WrittenIsLastStorable(changes.upserts, id, i);
    }
    if Written(changes.upserts, id).Some? {
      var i := WrittenAt(changes.upserts, id);
    } else {
      WrittenIsUpserted(changes.upserts, id);
    }
  }

  lemma SameDocs(a: map<string, Doc>, b: map<string, Doc>)
    requires forall id :: Lookup(a, id) == Lookup(b, id)
    ensures a == b
  {
    forall id ensures id in a <==> id in b {
      assert Lookup(a, id) == Lookup(b, id);
    }
    forall id | id in a ensures a[id] == b[id] {
      assert Lookup(a, id) == Lookup(b, id);
    }
  }

  // ---- Interruption and repetition

  lemma {:induction false} WrittenInPrefix(upserts: seq<SourceDoc>, k: nat, id: string)
    requires k <= |upserts|
    ensures Written(upserts[..k], id).Some? ==> Written(upserts, id).Some?
    decreases |upserts|
  {
    var n := |upserts| - 1;
    if k == |upserts| {
      assert upserts[..k] == upserts;
    } else {
      WrittenInPrefix(upserts[..n], k, id);
      assert upserts[..n][..k] == upserts[..k];
    }
  }

  /** A repeat of the run decides every id the interrupted one touched, as it would have from the start. */
  lemma RepeatDecides(kb: Kb, changes: Changes, k: nat, id: string)
    ensures Target(changes, id, Lookup(After(kb, changes, k).docs, id)) == Target(changes, id, Lookup(kb.docs, id))
  {
    var n := |changes.upserts|;
    if k <= n {
      WriteAllAt(kb.docs, changes.upserts[..k], id);
      WrittenInPrefix(changes.upserts, k, id);
    } else {
      WriteAllAt(kb.docs, changes.upserts, id);
      WrittenIsUpserted(changes.upserts, id);
    }
  }

  /** Interrupted after any write and run again on the same changes, a run ends where it would have. */
  lemma RerunConverges(kb: Kb, changes: Changes, k: nat)
    ensures Finish(After(kb, changes, k), changes) == Finish(kb, changes)
  {
    var a, b := Finish(After(kb, changes, k), changes), Finish(kb, changes);
    forall id ensures Lookup(a.docs, id) == Lookup(b.docs, id) {
      FinishAt(After(kb, changes, k), changes, id);
      FinishAt(kb, changes, id);
      RepeatDecides(kb, changes, k, id);
    }
    SameDocs(a.docs, b.docs);
  }

  function AfterInterruptions(kb: Kb, changes: Changes, stops: seq<nat>): Kb
    decreases |stops|
  {
    if stops == [] then kb else AfterInterruptions(After(kb, changes, stops[0]), changes, stops[1..])
  }

  /** Any number of interrupted attempts before it change nothing. */
  lemma {:induction false} RerunsConverge(kb: Kb, changes: Changes, stops: seq<nat>)
    ensures Finish(AfterInterruptions(kb, changes, stops), changes) == Finish(kb, changes)
    decreases |stops|
  {
    if stops != [] {
      RerunsConverge(After(kb, changes, stops[0]), changes, stops[1..]);
      RerunConverges(kb, changes, stops[0]);
    }
  }

  /** The cursor moves only once every document is where the run leaves it. */
  lemma CursorComesLast(kb: Kb, changes: Changes, k: nat)
    ensures After(kb, changes, k).cursor != kb.cursor ==> After(kb, changes, k) == Finish(kb, changes)
    ensures k < Writes(changes) ==> After(kb, changes, k).cursor == kb.cursor
  {
  }

  // ---- What a finished run means

  /** A complete run leaves exactly the snapshot: nothing else survives, whatever was stored before. Only a
      document that could not be stored keeps what the store had. */
  lemma CompleteReachesTheSnapshot(kb: Kb, changes: Changes, id: string)
    requires changes.complete
    ensures var stored := Lookup(Finish(kb, changes).docs, id);
      && (id !in Ids(changes.upserts) ==> stored == None)
      && (Written(changes.upserts, id).Some? ==> stored == Written(changes.upserts, id))
      && (id in Ids(changes.upserts) && Written(changes.upserts, id).None? ==> stored == Lookup(kb.docs, id))
  {
    FinishAt(kb, changes, id);
    WrittenIsUpserted(changes.upserts, id);
  }

  lemma {:induction false} StorableIsWritten(upserts: seq<SourceDoc>, id: string)
    requires id in Ids(upserts) && forall d :: d in upserts ==> d.id == id ==> !HoldsNul(d)
    ensures Written(upserts, id).Some?
    decreases |upserts|
  {
    var n := |upserts| - 1;
    assert upserts[n] in upserts;
    if upserts[n].id != id {
      var d :| d in upserts && d.id == id;
      assert d in upserts[..n];
      StorableIsWritten(upserts[..n], id);
    }
  }

  /** With every document storable, two stores that know nothing of each other end the same. */
  lemma CompleteRunForgetsThePast(a: Kb, b: Kb, changes: Changes)
    requires changes.complete && forall d :: d in changes.upserts ==> !HoldsNul(d)
    ensures Finish(a, changes) == Finish(b, changes)
  {
    forall id ensures Lookup(Finish(a, changes).docs, id) == Lookup(Finish(b, changes).docs, id) {
      FinishAt(a, changes, id);
      FinishAt(b, changes, id);
      if id in Ids(changes.upserts) {
        StorableIsWritten(changes.upserts, id);
      }
    }
    SameDocs(Finish(a, changes).docs, Finish(b, changes).docs);
  }

  lemma {:induction false} StorableOneIsWritten(upserts: seq<SourceDoc>, d: SourceDoc)
    requires d in upserts && !HoldsNul(d)
    ensures Written(upserts, d.id).Some?
    decreases |upserts|
  {
    var n := |upserts| - 1;
    if upserts[n] != d {
      assert d in upserts[..n];
      StorableOneIsWritten(upserts[..n], d);
    }
  }

  /** An id reported both changed and deleted survives. */
  lemma ReportedBothWaysSurvives(kb: Kb, changes: Changes, d: SourceDoc)
    requires d in changes.upserts && !HoldsNul(d)
    ensures d.id in Finish(kb, changes).docs
  {
    FinishAt(kb, changes, d.id);
    StorableOneIsWritten(changes.upserts, d);
  }

  lemma {:induction false} NothingStorableWritesNothing(upserts: seq<SourceDoc>, id: string)
    requires forall d :: d in upserts && d.id == id ==> HoldsNul(d)
    ensures Written(upserts, id).None?
    decreases |upserts|
  {
    if upserts != [] {
      var n := |upserts| - 1;
      assert upserts[n] in upserts;
      assert forall d :: d in upserts[..n] ==> d in upserts;
      NothingStorableWritesNothing(upserts[..n], id);
    }
  }

  /** A document that holds a NUL changes nothing of what is stored for it. */
  lemma UnstorableKeepsWhatIsStored(kb: Kb, changes: Changes, id: string)
    requires id in Ids(changes.upserts) && forall d :: d in changes.upserts && d.id == id ==> HoldsNul(d)
    ensures Lookup(Finish(kb, changes).docs, id) == Lookup(kb.docs, id)
  {
    FinishAt(kb, changes, id);
    NothingStorableWritesNothing(changes.upserts, id);
  }

  // ---- A head that moved in between

  /** Whether a run decides an id whatever was stored for it. */
  predicate Decides(changes: Changes, id: string) {
    Written(changes.upserts, id).Some? || Removes(changes, id)
  }

  /** What the first `k` writes of a run make of an id that had `before`. */
  function Applied(changes: Changes, k: nat, id: string, before: Option<Doc>): Option<Doc> {
    if k > |changes.upserts| then Target(changes, id, before)
    else if Written(changes.upserts[..k], id).Some? then Written(changes.upserts[..k], id)
    else before
  }

  lemma AppliedAt(kb: Kb, changes: Changes, k: nat, id: string)
    ensures Lookup(After(kb, changes, k).docs, id) == Applied(changes, k, id, Lookup(kb.docs, id))
  {
    if k <= |changes.upserts| {
      WriteAllAt(kb.docs, changes.upserts[..k], id);
    } else {
      FinishAt(kb, changes, id);
    }
  }

  /** An interrupted run followed by one on other changes ends as if it had never been, exactly when every
      id its writes changed is one the later changes decide. */
  lemma MovedHeadConvergesIff(kb: Kb, first: Changes, k: nat, later: Changes)
    ensures Finish(After(kb, first, k), later).docs == Finish(kb, later).docs <==>
      forall id :: Applied(first, k, id, Lookup(kb.docs, id)) != Lookup(kb.docs, id) ==> Decides(later, id)
  {
    var a, b := Finish(After(kb, first, k), later).docs, Finish(kb, later).docs;
    forall id
      ensures Lookup(a, id) == Target(later, id, Applied(first, k, id, Lookup(kb.docs, id)))
      ensures Lookup(b, id) == Target(later, id, Lookup(kb.docs, id))
    {
      FinishAt(After(kb, first, k), later, id);
      FinishAt(kb, later, id);
      AppliedAt(kb, first, k, id);
    }
    if forall id :: Applied(first, k, id, Lookup(kb.docs, id)) != Lookup(kb.docs, id) ==> Decides(later, id) {
      SameDocs(a, b);
    } else {
      var id :| Applied(first, k, id, Lookup(kb.docs, id)) != Lookup(kb.docs, id) && !Decides(later, id);
      assert Lookup(a, id) != Lookup(b, id);
    }
  }

  /** A later complete snapshot of storable documents always converges. */
  lemma LaterSnapshotConverges(kb: Kb, first: Changes, k: nat, later: Changes)
    requires later.complete && forall d :: d in later.upserts ==> !HoldsNul(d)
    ensures Finish(After(kb, first, k), later).docs == Finish(kb, later).docs
  {
    CompleteRunForgetsThePast(After(kb, first, k), kb, later);
  }

  /** An incremental one need not: a write applied and then undone at the source is never taken back. */
  lemma UndoneWriteStays(kb: Kb, d: SourceDoc, first: Changes, later: Changes)
    requires kb == Kb(map[], Some("c")) && !HoldsNul(d)
    requires first == Changes([d], [], false, "h1") && later == Changes([], [], false, "h2")
    ensures Finish(After(kb, first, 1), later).docs == map[d.id := d.doc]
    ensures Finish(kb, later).docs == map[]
  {
    assert [d][..1] == [d] && [d][..0] == [];
    assert WriteAll(kb.docs, [d]) == map[d.id := d.doc];
  }
}
