/** What the indexer stores: documents with their chunk rows, vectors and cursors. */
module IndexStore {
  import opened Text
  import opened Sections
  import opened Chunker
  import opened Embedding
  import Frontmatters

  type Vector = seq<real>

  datatype DocKey = DocKey(kb: string, id: string)

  datatype Doc = Doc(title: Option<string>, date: Option<string>, url: string, content: string, version: string,
    metadata: string)

  datatype Row = Row(id: nat, heading: string, anchor: string, body: string, hash: string)

  /** A document and its chunk rows, in order. */
  datatype Stored = Stored(doc: Doc, rows: seq<Row>)

  datatype VectorKey = VectorKey(chunk: nat, model: string)

  datatype Store = Store(
    docs: map<DocKey, Stored>, vectors: map<VectorKey, Vector>, next: nat, cursors: map<string, string>)

  const EMPTY := Store(map[], map[], 0, map[])

  // ---- Upsert

  /** Whether only the version and the url may differ. */
  predicate SameDocument(stored: Doc, incoming: Doc) {
    && stored.title == incoming.title && stored.date == incoming.date
    && stored.content == incoming.content && stored.metadata == incoming.metadata
  }

  predicate SameHashes(rows: seq<Row>, chunks: seq<Chunk>) {
    |rows| == |chunks| && forall i :: 0 <= i < |chunks| ==> rows[i].hash == chunks[i].hash
  }

  /** The first row with this hash, or the number of rows. */
  function FindHash(rows: seq<Row>, hash: string): (i: nat)
    ensures i <= |rows|
    ensures i < |rows| ==> rows[i].hash == hash
  {
    if rows == [] || rows[0].hash == hash then 0 else 1 + FindHash(rows[1..], hash)
  }

  function RowOf(id: nat, chunk: Chunk): Row {
    Row(id, chunk.heading, chunk.anchor, chunk.body, chunk.hash)
  }

  /** A chunk whose hash is already stored takes over that row; the others get new ones. */
  function Reconcile(before: seq<Row>, chunks: seq<Chunk>, next: nat): (seq<Row>, nat)
    decreases |chunks|
  {
    if chunks == [] then ([], next)
    else
      var i := FindHash(before, chunks[0].hash);
      if i < |before| then
        var (rows, after) := Reconcile(before[..i] + before[i + 1..], chunks[1..], next);
        ([RowOf(before[i].id, chunks[0])] + rows, after)
      else
        var (rows, after) := Reconcile(before, chunks[1..], next + 1);
        ([RowOf(next, chunks[0])] + rows, after)
  }

  predicate Unchanged(s: Store, key: DocKey, doc: Doc, chunks: seq<Chunk>) {
    key in s.docs && SameDocument(s.docs[key].doc, doc) && SameHashes(s.docs[key].rows, chunks)
  }

  function WithDoc(s: Store, key: DocKey, doc: Doc, chunks: seq<Chunk>): Store {
    var before := if key in s.docs then s.docs[key].rows else [];
    if Unchanged(s, key, doc, chunks)
    then s.(docs := s.docs[key := Stored(s.docs[key].doc.(version := doc.version, url := doc.url), before)])
    else
      var (rows, next) := Reconcile(before, chunks, s.next);
      s.(docs := s.docs[key := Stored(doc, rows)], next := next)
  }

  /** Ids of the rows some document has. */
  function LiveIds(s: Store): set<nat> {
    set key, i | key in s.docs && 0 <= i < |s.docs[key].rows| :: s.docs[key].rows[i].id
  }

  /** Vectors go with their rows. */
  function Cascade(s: Store): Store {
    s.(vectors := map k | k in s.vectors && k.chunk in LiveIds(s) :: s.vectors[k])
  }

  function Upserted(s: Store, key: DocKey, doc: Doc, chunks: seq<Chunk>): Store {
    Cascade(WithDoc(s, key, doc, chunks))
  }

  function Deleted(s: Store, gone: set<DocKey>): Store {
    Cascade(s.(docs := map key | key in s.docs && key !in gone :: s.docs[key]))
  }

  // ---- Vectors

  /** The settings a vector depends on: the chunker's text rules, the digest, each model's template and embedder. */
  datatype Embedder = Embedder(
    rules: Rules, digest: string -> string, template: string -> string, embed: (string, string) -> Vector)
  {
    ghost predicate Sound() {
      rules.Sound() && Injective(digest)
    }

    /** The vector of a chunk under a model: the embedder's, of the chunk's own input. */
    function VectorOf(model: string, title: Option<string>, row: Row): Vector {
      embed(model, DocumentInput(rules, template(model), title, row.heading, row.body))
    }

    /** A row's hash is its own. */
    predicate Hashed(title: Option<string>, row: Row) {
      row.hash == HashOf(rules, digest, title, row.heading, row.body)
    }
  }

  /** Vectors captured for a batch of chunks, not stored yet. */
  datatype World = World(store: Store, inFlight: map<VectorKey, Vector>)

  ghost predicate RowsSound(e: Embedder, s: Store) {
    forall key, i :: key in s.docs && 0 <= i < |s.docs[key].rows| ==>
      && s.docs[key].rows[i].id < s.next
      && NulFree(TitleOr(s.docs[key].doc.title, ""))
      && e.Hashed(s.docs[key].doc.title, s.docs[key].rows[i])
  }

  ghost predicate IdsApart(s: Store) {
    forall key, i, key', i' ::
      (key in s.docs && 0 <= i < |s.docs[key].rows| && key' in s.docs && 0 <= i' < |s.docs[key'].rows| &&
       s.docs[key].rows[i].id == s.docs[key'].rows[i'].id) ==> key == key' && i == i'
  }

  /** Every vector in `vectors` of a live row is the embedder's for that row. */
  ghost predicate VectorsMatch(e: Embedder, s: Store, vectors: map<VectorKey, Vector>) {
    forall key, i, k ::
      key in s.docs && 0 <= i < |s.docs[key].rows| && k in vectors && k.chunk == s.docs[key].rows[i].id ==>
      vectors[k] == e.VectorOf(k.model, s.docs[key].doc.title, s.docs[key].rows[i])
  }

  ghost predicate Known(s: Store, vectors: map<VectorKey, Vector>) {
    forall k :: k in vectors ==> k.chunk < s.next
  }

  ghost predicate Coherent(e: Embedder, w: World) {
    && RowsSound(e, w.store) && IdsApart(w.store)
    && VectorsMatch(e, w.store, w.store.vectors) && VectorsMatch(e, w.store, w.inFlight)
    && Known(w.store, w.store.vectors) && Known(w.store, w.inFlight)
    && forall k :: k in w.store.vectors ==> k.chunk in LiveIds(w.store)
  }

  /** One atomic step of any run, on any knowledge base. */
  datatype Step =
    | Upsert(key: DocKey, doc: Doc, chunks: seq<Chunk>)
    | Delete(gone: set<DocKey>)
    | Copy(kb: string, model: string)
    | Capture(model: string, ids: set<nat>)
    | Insert(batch: set<VectorKey>)
    | SetCursor(kb: string, cursor: string)

  ghost predicate TwinOf(s: Store, kb: string, k: VectorKey, vector: Vector) {
    exists key, i, twin, j ::
      && key in s.docs && key.kb == kb && 0 <= i < |s.docs[key].rows| && s.docs[key].rows[i].id == k.chunk
      && twin in s.docs && 0 <= j < |s.docs[twin].rows| && s.docs[twin].rows[j].hash == s.docs[key].rows[i].hash
      && VectorKey(s.docs[twin].rows[j].id, k.model) in s.vectors
      && vector == s.vectors[VectorKey(s.docs[twin].rows[j].id, k.model)]
  }

  /** Vectors copied from twins: a row of the knowledge base without one takes a twin's of equal hash. */
  ghost predicate Copied(s: Store, kb: string, model: string, t: Store) {
    && t == s.(vectors := t.vectors)
    && (forall k :: k in s.vectors ==> k in t.vectors && t.vectors[k] == s.vectors[k])
    && forall k :: k in t.vectors && k !in s.vectors ==> k.model == model && TwinOf(s, kb, k, t.vectors[k])
  }

  /** The vectors the embedder answers for the live rows asked about. */
  ghost predicate Captured(e: Embedder, s: Store, model: string, ids: set<nat>, vectors: map<VectorKey, Vector>) {
    && (forall k :: k in vectors ==> k.model == model && k.chunk in ids && k.chunk in LiveIds(s))
    && VectorsMatch(e, s, vectors)
  }

  /** Stores a batch: rows gone meanwhile are skipped, vectors already there stay. */
  function Inserted(s: Store, vectors: map<VectorKey, Vector>): Store {
    s.(vectors := (map k | k in vectors && k.chunk in LiveIds(s) :: vectors[k]) + s.vectors)
  }

  ghost predicate Next(e: Embedder, w: World, step: Step, w': World) {
    match step
    case Upsert(key, doc, chunks) =>
      && NulFree(TitleOr(doc.title, "")) && WellHashed(e.rules, e.digest, doc.title, chunks)
      && w' == w.(store := Upserted(w.store, key, doc, chunks))
    case Delete(gone) => w' == w.(store := Deleted(w.store, gone))
    case Copy(kb, model) => Copied(w.store, kb, model, w'.store) && w'.inFlight == w.inFlight
    case Capture(model, ids) =>
      && w'.store == w.store
      && exists vectors :: Captured(e, w.store, model, ids, vectors) && w'.inFlight == w.inFlight + vectors
    case Insert(batch) =>
      w' == w.(store := Inserted(w.store, map k | k in w.inFlight && k in batch :: w.inFlight[k]))
    case SetCursor(kb, cursor) => w' == w.(store := w.store.(cursors := w.store.cursors[kb := cursor]))
  }

  // ---- Coherence

  ghost predicate IdsBelow(rows: seq<Row>, next: nat) {
    forall i :: 0 <= i < |rows| ==> rows[i].id < next
  }

  ghost predicate RowIdsApart(rows: seq<Row>) {
    forall i, j :: 0 <= i < j < |rows| ==> rows[i].id != rows[j].id
  }

  ghost predicate Same(before: Row, row: Row) {
    before.id == row.id && before.hash == row.hash
  }

  /** Every row is new, or keeps the id of an old row with its hash. */
  ghost predicate NewOrKept(before: seq<Row>, rows: seq<Row>, next: nat) {
    forall i :: 0 <= i < |rows| ==> rows[i].id >= next || exists j :: 0 <= j < |before| && Same(before[j], rows[i])
  }

  ghost predicate RowsAre(rows: seq<Row>, chunks: seq<Chunk>) {
    |rows| == |chunks| && forall i :: 0 <= i < |chunks| ==> rows[i] == RowOf(rows[i].id, chunks[i])
  }

  lemma NewOrKeptFromFewer(before: seq<Row>, cut: nat, rows: seq<Row>, next: nat)
    requires cut < |before| && NewOrKept(before[..cut] + before[cut + 1..], rows, next)
    ensures NewOrKept(before, rows, next)
  {
    var fewer := before[..cut] + before[cut + 1..];
    forall i | 0 <= i < |rows| && rows[i].id < next
      ensures exists j :: 0 <= j < |before| && Same(before[j], rows[i])
    {
      var j :| 0 <= j < |fewer| && Same(fewer[j], rows[i]);
      assert Same(before[if j < cut then j else j + 1], rows[i]);
    }
  }

  /** What reconciling promises of the rows it returns. */
  ghost predicate Reconciled(before: seq<Row>, chunks: seq<Chunk>, next: nat, rows: seq<Row>, after: nat) {
    && next <= after && IdsBelow(rows, after) && RowIdsApart(rows)
    && NewOrKept(before, rows, next) && RowsAre(rows, chunks)
  }

  lemma HeadStaysApart(before: seq<Row>, rows: seq<Row>, id: nat, next: nat)
    requires NewOrKept(before, rows, next) && id < next
    requires forall j :: 0 <= j < |before| ==> before[j].id != id
    ensures forall i :: 0 <= i < |rows| ==> rows[i].id != id
  {
  }

  /** A row put in front of reconciled ones. */
  lemma PrependRow(before: seq<Row>, chunks: seq<Chunk>, next: nat, id: nat, rows: seq<Row>, after: nat)
    requires chunks != [] && next <= after && id < after
    requires IdsBelow(rows, after) && RowIdsApart(rows) && NewOrKept(before, rows, next) && RowsAre(rows, chunks[1..])
    requires forall i :: 0 <= i < |rows| ==> rows[i].id != id
    requires id >= next || exists j :: 0 <= j < |before| && Same(before[j], RowOf(id, chunks[0]))
    ensures Reconciled(before, chunks, next, [RowOf(id, chunks[0])] + rows, after)
  {
    var head := RowOf(id, chunks[0]);
    var all := [head] + rows;
    forall k | 0 <= k < |all| ensures k > 0 ==> all[k] == rows[k - 1] && chunks[1..][k - 1] == chunks[k] {
    }
  }

  lemma HeadKept(before: seq<Row>, i: nat, chunks: seq<Chunk>, next: nat, rows: seq<Row>, after: nat)
    requires IdsBelow(before, next) && RowIdsApart(before) && i < |before|
    requires chunks != [] && before[i].hash == chunks[0].hash
    requires Reconciled(before[..i] + before[i + 1..], chunks[1..], next, rows, after)
    ensures Reconciled(before, chunks, next, [RowOf(before[i].id, chunks[0])] + rows, after)
  {
    NewOrKeptFromFewer(before, i, rows, next);
    HeadStaysApart(before[..i] + before[i + 1..], rows, before[i].id, next);
    assert Same(before[i], RowOf(before[i].id, chunks[0]));
    PrependRow(before, chunks, next, before[i].id, rows, after);
  }

  lemma HeadNew(before: seq<Row>, chunks: seq<Chunk>, next: nat, rows: seq<Row>, after: nat)
    requires IdsBelow(before, next) && chunks != []
    requires Reconciled(before, chunks[1..], next + 1, rows, after)
    ensures Reconciled(before, chunks, next, [RowOf(next, chunks[0])] + rows, after)
  {
    HeadStaysApart(before, rows, next, next + 1);
    PrependRow(before, chunks, next, next, rows, after);
  }

  lemma {:induction false} ReconcileKeepsIds(before: seq<Row>, chunks: seq<Chunk>, next: nat)
    requires IdsBelow(before, next) && RowIdsApart(before)
    ensures Reconciled(before, chunks, next, Reconcile(before, chunks, next).0, Reconcile(before, chunks, next).1)
    decreases |chunks|
  {
    if chunks != [] {
      var i := FindHash(before, chunks[0].hash);
      if i < |before| {
        var fewer := before[..i] + before[i + 1..];
        ReconcileKeepsIds(fewer, chunks[1..], next);
        var rest := Reconcile(fewer, chunks[1..], next);
        HeadKept(before, i, chunks, next, rest.0, rest.1);
      } else {
        ReconcileKeepsIds(before, chunks[1..], next + 1);
        var rest := Reconcile(before, chunks[1..], next + 1);
        HeadNew(before, chunks, next, rest.0, rest.1);
      }
    }
  }

  // ---- What rewriting reuses

  function RowCount(rows: seq<Row>, hash: string): nat {
    multiset(seq(|rows|, i requires 0 <= i < |rows| => rows[i].hash))[hash]
  }

  function ChunkCount(chunks: seq<Chunk>, hash: string): nat {
    multiset(seq(|chunks|, i requires 0 <= i < |chunks| => chunks[i].hash))[hash]
  }

  /** How many rows below `bound`, the old ones, have this hash. */
  function OldRows(rows: seq<Row>, bound: nat, hash: string): nat {
    if rows == [] then 0
    else (if rows[0].id < bound && rows[0].hash == hash then 1 else 0) + OldRows(rows[1..], bound, hash)
  }

  function Least(a: nat, b: nat): nat {
    if a < b then a else b
  }

  lemma RowCountAdds(a: seq<Row>, b: seq<Row>, hash: string)
    ensures RowCount(a + b, hash) == RowCount(a, hash) + RowCount(b, hash)
  {
    assert seq(|a + b|, i requires 0 <= i < |a + b| => (a + b)[i].hash)
        == seq(|a|, i requires 0 <= i < |a| => a[i].hash) + seq(|b|, i requires 0 <= i < |b| => b[i].hash);
  }

  lemma RowCountWithout(rows: seq<Row>, i: nat, hash: string)
    requires i < |rows|
    ensures RowCount(rows, hash) == RowCount(rows[..i] + rows[i + 1..], hash) + if rows[i].hash == hash then 1 else 0
  {
    RowCountAdds(rows[..i], rows[i + 1..], hash);
    RowCountAdds(rows[..i], [rows[i]], hash);
    RowCountAdds(rows[..i] + [rows[i]], rows[i + 1..], hash);
    assert rows[..i] + [rows[i]] + rows[i + 1..] == rows;
    assert RowCount([rows[i]], hash) == multiset{rows[i].hash}[hash];
  }

  lemma ChunkCountHead(chunks: seq<Chunk>, hash: string)
    requires chunks != []
    ensures ChunkCount(chunks, hash) == ChunkCount(chunks[1..], hash) + if chunks[0].hash == hash then 1 else 0
  {
    assert seq(|chunks|, i requires 0 <= i < |chunks| => chunks[i].hash)
        == [chunks[0].hash] + seq(|chunks[1..]|, i requires 0 <= i < |chunks[1..]| => chunks[1..][i].hash);
  }

  lemma {:induction false} NotFoundMeansAbsent(rows: seq<Row>, hash: string)
    requires FindHash(rows, hash) == |rows|
    ensures RowCount(rows, hash) == 0
  {
    if rows != [] {
      NotFoundMeansAbsent(rows[1..], hash);
      RowCountWithout(rows, 0, hash);
      assert rows[..0] + rows[1..] == rows[1..];
    }
  }

  lemma OldRowsHead(row: Row, rows: seq<Row>, bound: nat, hash: string)
    ensures OldRows([row] + rows, bound, hash)
         == OldRows(rows, bound, hash) + if row.id < bound && row.hash == hash then 1 else 0
  {
    assert ([row] + rows)[1..] == rows;
  }

  /** Of every hash, as many rows are kept as there are chunks with it, or as there were rows with it. */
  lemma {:induction false} ReuseIsMaximal(before: seq<Row>, chunks: seq<Chunk>, next: nat, bound: nat, hash: string)
    requires IdsBelow(before, bound) && bound <= next
    ensures OldRows(Reconcile(before, chunks, next).0, bound, hash)
      == Least(RowCount(before, hash), ChunkCount(chunks, hash))
    decreases |chunks|
  {
    if chunks != [] {
      var i := FindHash(before, chunks[0].hash);
      ChunkCountHead(chunks, hash);
      if i < |before| {
        var fewer := before[..i] + before[i + 1..];
        RowCountWithout(before, i, hash);
        ReuseIsMaximal(fewer, chunks[1..], next, bound, hash);
        OldRowsHead(RowOf(before[i].id, chunks[0]), Reconcile(fewer, chunks[1..], next).0, bound, hash);
      } else {
        NotFoundMeansAbsent(before, chunks[0].hash);
        ReuseIsMaximal(before, chunks[1..], next + 1, bound, hash);
        OldRowsHead(RowOf(next, chunks[0]), Reconcile(before, chunks[1..], next + 1).0, bound, hash);
      }
    }
  }

  /** The title in force decides nothing but the hash does: a kept row keeps its vector. */
  lemma SameHashSameVector(
    e: Embedder, model: string, title: Option<string>, row: Row, title': Option<string>, row': Row)
    requires e.Sound() && e.Hashed(title, row) && e.Hashed(title', row') && row.hash == row'.hash
    requires NulFree(TitleOr(title, "")) && NulFree(TitleOr(title', ""))
    ensures e.VectorOf(model, title, row) == e.VectorOf(model, title', row')
  {
    EqualHashesEmbedAlike(e.rules, e.digest, e.template(model),
                          title, row.heading, row.body, title', row'.heading, row'.body);
  }

  /** What the rows of one document become when it is written. */
  ghost predicate Rewritten(e: Embedder, s: Store, key: DocKey, t: Store) {
    && key in t.docs && s.next <= t.next
    && (forall k :: k in t.docs && k != key ==> k in s.docs && t.docs[k] == s.docs[k])
    && IdsBelow(t.docs[key].rows, t.next) && RowIdsApart(t.docs[key].rows)
    && NewOrKept(if key in s.docs then s.docs[key].rows else [], t.docs[key].rows, s.next)
    && (t.docs[key].rows != [] ==> NulFree(TitleOr(t.docs[key].doc.title, "")))
    && forall i :: 0 <= i < |t.docs[key].rows| ==> e.Hashed(t.docs[key].doc.title, t.docs[key].rows[i])
  }

  lemma WithDocRewrites(e: Embedder, s: Store, key: DocKey, doc: Doc, chunks: seq<Chunk>)
    requires RowsSound(e, s) && IdsApart(s)
    requires NulFree(TitleOr(doc.title, "")) && WellHashed(e.rules, e.digest, doc.title, chunks)
    ensures Rewritten(e, s, key, WithDoc(s, key, doc, chunks))
  {
    var before := if key in s.docs then s.docs[key].rows else [];
    var t := WithDoc(s, key, doc, chunks);
    if Unchanged(s, key, doc, chunks) {
      assert forall i :: 0 <= i < |before| ==> Same(before[i], t.docs[key].rows[i]);
    } else {
      ReconcileKeepsIds(before, chunks, s.next);
      var rows := t.docs[key].rows;
      assert RowsAre(rows, chunks);
      forall i | 0 <= i < |rows| ensures e.Hashed(doc.title, rows[i]) {
        assert rows[i] == RowOf(rows[i].id, chunks[i]);
      }
    }
  }

  /** Rewriting a document keeps exactly the vectors of the rows it reuses, and of every other document's. */
  lemma ReusedRowsKeepTheirVectors(s: Store, key: DocKey, doc: Doc, chunks: seq<Chunk>, k: VectorKey)
    requires k in s.vectors
    ensures var t := Upserted(s, key, doc, chunks);
      && (k in t.vectors <==> k.chunk in LiveIds(t))
      && (k in t.vectors ==> t.vectors[k] == s.vectors[k])
      && (forall i :: 0 <= i < |t.docs[key].rows| && t.docs[key].rows[i].id == k.chunk ==> k in t.vectors)
  {
    var t := Upserted(s, key, doc, chunks);
    assert LiveIds(t) == LiveIds(WithDoc(s, key, doc, chunks));
  }

  lemma ForeignIdStaysAway(e: Embedder, s: Store, key: DocKey, t: Store, a: DocKey, i: nat, j: nat)
    requires RowsSound(e, s) && IdsApart(s) && Rewritten(e, s, key, t)
    requires a in t.docs && a != key && i < |t.docs[a].rows| && j < |t.docs[key].rows|
    ensures t.docs[a].rows[i].id != t.docs[key].rows[j].id
  {
    var row := t.docs[key].rows[j];
    var before := if key in s.docs then s.docs[key].rows else [];
    if row.id < s.next {
      var k :| 0 <= k < |before| && Same(before[k], row);
      assert s.docs[key].rows[k].id == row.id;
    }
  }

  lemma RewriteKeepsRows(e: Embedder, s: Store, key: DocKey, t: Store)
    requires RowsSound(e, s) && IdsApart(s) && Rewritten(e, s, key, t)
    ensures RowsSound(e, t) && IdsApart(t)
  {
    forall a, i, b, j |
      a in t.docs && 0 <= i < |t.docs[a].rows| && b in t.docs && 0 <= j < |t.docs[b].rows| &&
      t.docs[a].rows[i].id == t.docs[b].rows[j].id
      ensures a == b && i == j
    {
      if a != key && b == key {
        ForeignIdStaysAway(e, s, key, t, a, i, j);
      } else if a == key && b != key {
        ForeignIdStaysAway(e, s, key, t, b, j, i);
      }
    }
  }

  lemma RewriteKeepsVectors(e: Embedder, s: Store, key: DocKey, t: Store, vectors: map<VectorKey, Vector>)
    requires e.Sound() && RowsSound(e, s) && Rewritten(e, s, key, t) && VectorsMatch(e, s, vectors) && Known(s, vectors)
    ensures VectorsMatch(e, t, vectors)
  {
    forall a, i, k | a in t.docs && 0 <= i < |t.docs[a].rows| && k in vectors && k.chunk == t.docs[a].rows[i].id
      ensures vectors[k] == e.VectorOf(k.model, t.docs[a].doc.title, t.docs[a].rows[i])
    {
      if a == key {
        var row := t.docs[key].rows[i];
        var before := if key in s.docs then s.docs[key].rows else [];
        assert row.id < s.next;
        var j :| 0 <= j < |before| && Same(before[j], row);
        SameHashSameVector(e, k.model, s.docs[key].doc.title, s.docs[key].rows[j], t.docs[key].doc.title, row);
      } else {
        assert t.docs[a] == s.docs[a];
      }
    }
  }

  lemma CascadeKeepsAll(e: Embedder, s: Store, inFlight: map<VectorKey, Vector>)
    requires RowsSound(e, s) && IdsApart(s) && VectorsMatch(e, s, s.vectors) && VectorsMatch(e, s, inFlight)
    requires Known(s, s.vectors) && Known(s, inFlight)
    ensures Coherent(e, World(Cascade(s), inFlight))
  {
    var t := Cascade(s);
    assert t.docs == s.docs;
    assert LiveIds(t) == LiveIds(s);
  }

  lemma UpsertKeepsCoherence(e: Embedder, w: World, key: DocKey, doc: Doc, chunks: seq<Chunk>)
    requires e.Sound() && Coherent(e, w)
    requires NulFree(TitleOr(doc.title, "")) && WellHashed(e.rules, e.digest, doc.title, chunks)
    ensures Coherent(e, World(Upserted(w.store, key, doc, chunks), w.inFlight))
  {
    var t := WithDoc(w.store, key, doc, chunks);
    WithDocRewrites(e, w.store, key, doc, chunks);
    assert t.vectors == w.store.vectors;
    RewriteKeepsRows(e, w.store, key, t);
    RewriteKeepsVectors(e, w.store, key, t, w.store.vectors);
    RewriteKeepsVectors(e, w.store, key, t, w.inFlight);
    CascadeKeepsAll(e, t, w.inFlight);
  }

  lemma DeleteKeepsCoherence(e: Embedder, w: World, gone: set<DocKey>)
    requires Coherent(e, w)
    ensures Coherent(e, World(Deleted(w.store, gone), w.inFlight))
  {
    var s := w.store;
    var t := s.(docs := map key | key in s.docs && key !in gone :: s.docs[key]);
    assert forall key :: key in t.docs ==> key in s.docs && t.docs[key] == s.docs[key];
    CascadeKeepsAll(e, t, w.inFlight);
  }

  lemma TwinVectorIsOwn(e: Embedder, s: Store, kb: string, k: VectorKey, vector: Vector)
    requires e.Sound() && RowsSound(e, s) && IdsApart(s) && VectorsMatch(e, s, s.vectors) && TwinOf(s, kb, k, vector)
    ensures k.chunk in LiveIds(s) && k.chunk < s.next
    ensures forall key, i :: key in s.docs && 0 <= i < |s.docs[key].rows| && k.chunk == s.docs[key].rows[i].id ==>
      vector == e.VectorOf(k.model, s.docs[key].doc.title, s.docs[key].rows[i])
  {
    var key, i, twin, j :|
      && key in s.docs && key.kb == kb && 0 <= i < |s.docs[key].rows| && s.docs[key].rows[i].id == k.chunk
      && twin in s.docs && 0 <= j < |s.docs[twin].rows| && s.docs[twin].rows[j].hash == s.docs[key].rows[i].hash
      && VectorKey(s.docs[twin].rows[j].id, k.model) in s.vectors
      && vector == s.vectors[VectorKey(s.docs[twin].rows[j].id, k.model)];
    SameHashSameVector(e, k.model, s.docs[twin].doc.title, s.docs[twin].rows[j], s.docs[key].doc.title,
      s.docs[key].rows[i]);
  }

  lemma CopyKeepsCoherence(e: Embedder, w: World, kb: string, model: string, t: Store)
    requires e.Sound() && Coherent(e, w) && Copied(w.store, kb, model, t)
    ensures Coherent(e, World(t, w.inFlight))
  {
    var s := w.store;
    assert t.docs == s.docs && LiveIds(t) == LiveIds(s);
    forall k | k in t.vectors && k !in s.vectors
      ensures k.chunk in LiveIds(s) && k.chunk < s.next
      ensures forall key, i :: key in s.docs && 0 <= i < |s.docs[key].rows| && k.chunk == s.docs[key].rows[i].id ==>
        t.vectors[k] == e.VectorOf(k.model, s.docs[key].doc.title, s.docs[key].rows[i])
    {
      TwinVectorIsOwn(e, s, kb, k, t.vectors[k]);
    }
  }

  lemma CaptureKeepsCoherence(e: Embedder, w: World, model: string, ids: set<nat>, vectors: map<VectorKey, Vector>)
    requires Coherent(e, w) && Captured(e, w.store, model, ids, vectors)
    ensures Coherent(e, World(w.store, w.inFlight + vectors))
  {
    forall k | k in vectors ensures k.chunk < w.store.next {
      assert k.chunk in LiveIds(w.store);
    }
  }

  lemma InsertedMatch(e: Embedder, s: Store, vectors: map<VectorKey, Vector>)
    requires VectorsMatch(e, s, s.vectors) && VectorsMatch(e, s, vectors) && Known(s, s.vectors) && Known(s, vectors)
    ensures VectorsMatch(e, s, Inserted(s, vectors).vectors) && Known(s, Inserted(s, vectors).vectors)
  {
  }

  /** What is said of a store's rows does not depend on its vectors. */
  lemma SameRowsSameSense(e: Embedder, s: Store, t: Store, vectors: map<VectorKey, Vector>)
    requires s.docs == t.docs && s.next == t.next
    ensures (RowsSound(e, s) ==> RowsSound(e, t)) && (IdsApart(s) ==> IdsApart(t))
    ensures (VectorsMatch(e, s, vectors) ==> VectorsMatch(e, t, vectors)) && (Known(s, vectors) ==> Known(t, vectors))
  {
    if RowsSound(e, s) {
      forall key, i | key in t.docs && 0 <= i < |t.docs[key].rows|
        ensures t.docs[key].rows[i].id < t.next && NulFree(TitleOr(t.docs[key].doc.title, ""))
        ensures e.Hashed(t.docs[key].doc.title, t.docs[key].rows[i])
      {
        assert s.docs[key].rows[i].id < s.next;
      }
    }
  }

  lemma InsertKeepsCoherence(e: Embedder, w: World, vectors: map<VectorKey, Vector>)
    requires Coherent(e, w) && VectorsMatch(e, w.store, vectors) && Known(w.store, vectors)
    ensures Coherent(e, World(Inserted(w.store, vectors), w.inFlight))
  {
    var t := Inserted(w.store, vectors);
    assert t.docs == w.store.docs && LiveIds(t) == LiveIds(w.store);
    InsertedMatch(e, w.store, vectors);
    SameRowsSameSense(e, w.store, t, w.inFlight);
    SameRowsSameSense(e, w.store, t, t.vectors);
  }

  lemma StepKeepsCoherence(e: Embedder, w: World, step: Step, w': World)
    requires e.Sound() && Coherent(e, w) && Next(e, w, step, w')
    ensures Coherent(e, w')
  {
    match step
    case Upsert(key, doc, chunks) => UpsertKeepsCoherence(e, w, key, doc, chunks);
    case Delete(gone) => DeleteKeepsCoherence(e, w, gone);
    case Copy(kb, model) => CopyKeepsCoherence(e, w, kb, model, w'.store);
    case Capture(model, ids) =>
      var vectors :| Captured(e, w.store, model, ids, vectors) && w'.inFlight == w.inFlight + vectors;
      CaptureKeepsCoherence(e, w, model, ids, vectors);
    case Insert(batch) =>
      InsertKeepsCoherence(e, w, map k | k in w.inFlight && k in batch :: w.inFlight[k]);
    case SetCursor(kb, cursor) =>
      SameRowsSameSense(e, w.store, w'.store, w.inFlight);
      SameRowsSameSense(e, w.store, w'.store, w.store.vectors);
      assert LiveIds(w'.store) == LiveIds(w.store);
  }

  /** `worlds` is what `steps` lead through, in any interleaving of runs and knowledge bases. */
  ghost predicate IsHistory(e: Embedder, worlds: seq<World>, steps: seq<Step>) {
    && |worlds| == |steps| + 1
    && worlds[0] == World(EMPTY, map[])
    && forall i :: 0 <= i < |steps| ==> Next(e, worlds[i], steps[i], worlds[i + 1])
  }

  lemma {:induction false} HistoryIsCoherent(e: Embedder, worlds: seq<World>, steps: seq<Step>, n: nat)
    requires e.Sound() && IsHistory(e, worlds, steps) && n <= |steps|
    ensures Coherent(e, worlds[n])
  {
    if n > 0 {
      HistoryIsCoherent(e, worlds, steps, n - 1);
      StepKeepsCoherence(e, worlds[n - 1], steps[n - 1], worlds[n]);
    }
  }

  // ---- What the rows say

  /** How a knowledge base, a document id, a title and a text are cut into chunks. */
  type Cutter = (DocKey, Option<string>, string) -> seq<Chunk>

  ghost predicate RowsAreCutAt(cut: Cutter, s: Store, key: DocKey)
    requires key in s.docs
  {
    RowsAre(s.docs[key].rows, cut(key, s.docs[key].doc.title, s.docs[key].doc.content))
  }

  /** Every document's rows are the chunks of what is stored for it. */
  ghost predicate RowsAreCut(cut: Cutter, s: Store) {
    forall key :: key in s.docs ==> RowsAreCutAt(cut, s, key)
  }

  /** A write hands over the chunks of its own document. */
  ghost predicate CutsItsOwn(cut: Cutter, step: Step) {
    step.Upsert? ==> step.chunks == cut(step.key, step.doc.title, step.doc.content)
  }

  lemma UpsertKeepsRowsCut(e: Embedder, cut: Cutter, s: Store, key: DocKey, doc: Doc, chunks: seq<Chunk>)
    requires RowsSound(e, s) && IdsApart(s) && RowsAreCut(cut, s) && chunks == cut(key, doc.title, doc.content)
    ensures RowsAreCut(cut, Upserted(s, key, doc, chunks))
  {
    var t := Upserted(s, key, doc, chunks);
    if Unchanged(s, key, doc, chunks) {
      assert RowsAreCutAt(cut, s, key);
    } else {
      ReconcileKeepsIds(if key in s.docs then s.docs[key].rows else [], chunks, s.next);
    }
    forall other | other in t.docs && other != key ensures RowsAreCutAt(cut, t, other) {
      assert RowsAreCutAt(cut, s, other);
    }
  }

  lemma DeleteKeepsRowsCut(cut: Cutter, s: Store, gone: set<DocKey>)
    requires RowsAreCut(cut, s)
    ensures RowsAreCut(cut, Deleted(s, gone))
  {
    forall key | key in Deleted(s, gone).docs ensures RowsAreCutAt(cut, Deleted(s, gone), key) {
      assert RowsAreCutAt(cut, s, key);
    }
  }

  lemma SameDocsStayCut(cut: Cutter, s: Store, t: Store)
    requires RowsAreCut(cut, s) && t.docs == s.docs
    ensures RowsAreCut(cut, t)
  {
    forall key | key in t.docs ensures RowsAreCutAt(cut, t, key) {
      assert RowsAreCutAt(cut, s, key);
    }
  }

  lemma StepKeepsRowsCut(e: Embedder, cut: Cutter, w: World, step: Step, w': World)
    requires Coherent(e, w) && Next(e, w, step, w') && RowsAreCut(cut, w.store) && CutsItsOwn(cut, step)
    ensures RowsAreCut(cut, w'.store)
  {
    match step
    case Upsert(key, doc, chunks) => UpsertKeepsRowsCut(e, cut, w.store, key, doc, chunks);
    case Delete(gone) => DeleteKeepsRowsCut(cut, w.store, gone);
    case _ => SameDocsStayCut(cut, w.store, w'.store);
  }

  /** With one chunker, over any history, a stored document's rows are the chunks of its stored content: heading,
      anchor, body and hash, in order. */
  lemma {:induction false} HistoryRowsAreCut(
    e: Embedder, cut: Cutter, worlds: seq<World>, steps: seq<Step>, n: nat)
    requires e.Sound() && IsHistory(e, worlds, steps) && n <= |steps|
    requires forall i :: 0 <= i < |steps| ==> CutsItsOwn(cut, steps[i])
    ensures RowsAreCut(cut, worlds[n].store)
  {
    if n > 0 {
      HistoryRowsAreCut(e, cut, worlds, steps, n - 1);
      HistoryIsCoherent(e, worlds, steps, n - 1);
      StepKeepsRowsCut(e, cut, worlds[n - 1], steps[n - 1], worlds[n]);
    }
  }

  // ---- The chunker of a knowledge base

  type Positive = n: nat | n >= 1 witness 1

  datatype Limits = Limits(maxChars: Positive, overlapChars: nat)

  const HISTORY_FILE := "_history.md"

  function LastSegment(path: string): string
    decreases |path|
  {
    if path == "" || path[|path| - 1] == '/' then "" else LastSegment(path[..|path| - 1]) + [path[|path| - 1]]
  }

  /** A generated history is cut by its entries. */
  function ModeFor(id: string): Mode {
    if LastSegment(id) == HISTORY_FILE then ByEntries else BySections
  }

  /** The chunker's text rules and digest, the YAML parser, and each knowledge base's limits. */
  datatype Chunking = Chunking(
    rules: Rules, digest: string -> string, yaml: string -> Frontmatters.Yaml, limits: string -> Limits)
  {
    function OptionsFor(key: DocKey, title: Option<string>): Chunker.Options {
      Options(key.id, title, ModeFor(key.id), limits(key.kb).maxChars, limits(key.kb).overlapChars)
    }

    function SectionsFor(key: DocKey, content: string): seq<Section> {
      ScanOf(rules, ModeFor(key.id), MarkdownLines(Frontmatters.Parse(yaml, content).body)).sections
    }

    /** The chunks of a document below its header. */
    function Cut(key: DocKey, title: Option<string>, content: string): seq<Chunk> {
      ChunksOf(rules, digest, OptionsFor(key, title), SectionsFor(key, content))
    }

    function Cutting(): Cutter {
      (key, title, content) => Cut(key, title, content)
    }
  }

  lemma CutIsWellHashed(c: Chunking, key: DocKey, title: Option<string>, content: string)
    ensures WellHashed(c.rules, c.digest, title, c.Cut(key, title, content))
  {
    var options, sections := c.OptionsFor(key, title), c.SectionsFor(key, content);
    ChunksAreWellHashed(Maker(c.rules, c.digest, key.id, title), sections, AllBodies(c.rules, options, sections));
  }

  /** Over any history, every stored row is one part of one section of its own document's text, under the anchor
      of that document. */
  lemma StoredRowsAreParts(
    e: Embedder, c: Chunking, worlds: seq<World>, steps: seq<Step>, n: nat, key: DocKey, k: nat)
    returns (i: nat, b: nat)
    requires e.Sound() && IsHistory(e, worlds, steps) && n <= |steps|
    requires forall j :: 0 <= j < |steps| ==> CutsItsOwn(c.Cutting(), steps[j])
    requires key in worlds[n].store.docs && k < |worlds[n].store.docs[key].rows|
    ensures var stored := worlds[n].store.docs[key];
      var sections := c.SectionsFor(key, stored.doc.content);
      var bodies := AllBodies(c.rules, c.OptionsFor(key, stored.doc.title), sections);
      && i < |sections| && b < |bodies[i]|
      && stored.rows[k].heading == HeadingPath(sections[i]) && stored.rows[k].body == bodies[i][b]
      && stored.rows[k].anchor == AnchorOf(key.id, sections[i])
      && stored.rows[k].hash == HashOf(c.rules, c.digest, stored.doc.title, stored.rows[k].heading, bodies[i][b])
  {
    HistoryRowsAreCut(e, c.Cutting(), worlds, steps, n);
    assert RowsAreCutAt(c.Cutting(), worlds[n].store, key);
    var doc := worlds[n].store.docs[key].doc;
    var options, sections := c.OptionsFor(key, doc.title), c.SectionsFor(key, doc.content);
    i, b := ChunksAreParts(
      Maker(c.rules, c.digest, key.id, doc.title), sections, AllBodies(c.rules, options, sections), 0, 0, k);
  }

  /** However runs interleave, every stored vector, embedded or copied, belongs to a stored chunk and is
      the embedder's vector for that chunk's own input under its model. */
  lemma EveryVectorIsItsChunksOwn(e: Embedder, worlds: seq<World>, steps: seq<Step>, n: nat, k: VectorKey)
    requires e.Sound() && IsHistory(e, worlds, steps) && n <= |steps| && k in worlds[n].store.vectors
    ensures exists key, i ::
      && key in worlds[n].store.docs && 0 <= i < |worlds[n].store.docs[key].rows|
      && worlds[n].store.docs[key].rows[i].id == k.chunk
      && worlds[n].store.vectors[k] ==
         e.VectorOf(k.model, worlds[n].store.docs[key].doc.title, worlds[n].store.docs[key].rows[i])
  {
    HistoryIsCoherent(e, worlds, steps, n);
    var s := worlds[n].store;
    assert k.chunk in LiveIds(s);
    var key, i :| key in s.docs && 0 <= i < |s.docs[key].rows| && s.docs[key].rows[i].id == k.chunk;
  }
}
