/** Resuming is correct: whatever interrupts an attempt and whatever models the attempts use,
    a row labelled with a model holds that model's vector of that chunk's text, and an attempt
    embeds exactly the chunks not yet at its model. */
module ProtocolResume {
  import opened Ids
  import opened Protocol
  import opened ProtocolSafety
  import opened ProtocolDeletes

  // ---- what the stored rows hold -------------------------------------------------------

  ghost predicate RowOk(e: Env, k: ChunkKey, r: Row) {
    k.1 < |e.parse(k.0)| && r.text == e.parse(k.0)[k.1] && r.vector == e.embed(r.model, r.text)
  }

  ghost predicate RowsOk(e: Env, store: Store) {
    forall k :: k in store ==> RowOk(e, k, store[k])
  }

  // ---- what is left to embed -----------------------------------------------------------

  /** `todo` lists, in order, the chunks of the document that are not stored under the model. */
  ghost predicate Remaining(e: Env, store: Store, col: ColId, doc: DocId, model: Model, todo: seq<nat>) {
    && (forall a, b :: 0 <= a < b < |todo| ==> todo[a] < todo[b])
    && (forall i: nat :: i in todo <==> i < |e.parse(doc)| && !AtModel(store, col, doc, i, model))
  }

  /** Every parsed chunk is stored under the model. */
  ghost predicate Covered(e: Env, store: Store, col: ColId, doc: DocId, model: Model) {
    forall i: nat :: i < |e.parse(doc)| ==> AtModel(store, col, doc, i, model)
  }

  lemma {:induction false} TodoRemains(store: Store, col: ColId, doc: DocId, model: Model, n: nat)
    ensures var todo := Todo(store, col, doc, model, n);
      && (forall a, b :: 0 <= a < b < |todo| ==> todo[a] < todo[b])
      && (forall i: nat :: i in todo <==> i < n && !AtModel(store, col, doc, i, model))
  {
    if n > 0 {
      TodoRemains(store, col, doc, model, n - 1);
      var rest := Todo(store, col, doc, model, n - 1);
      assert forall a :: 0 <= a < |rest| ==> rest[a] in rest;
    }
  }

  ghost predicate Progress(e: Env, s: State) {
    s.worker.OnIngest? ==>
      match s.worker.phase
      case Embedding(cfg, _, todo) => Remaining(e, s.store, s.worker.col, s.worker.doc, cfg.model, todo)
      case Storing(cfg, skipped) =>
        Remaining(e, s.store, s.worker.col, s.worker.doc, cfg.model, skipped) && (skipped != [] ==> cfg.batchSize < 0)
      case _ => true
  }

  ghost predicate Resumable(e: Env, s: State) {
    RowsOk(e, s.store) && Progress(e, s)
  }

  // ---- one batch -----------------------------------------------------------------------

  lemma UpsertAt(e: Env, store: Store, col: ColId, doc: DocId, batch: seq<nat>, model: Model, tags: set<string>, k: ChunkKey)
    ensures var store' := Upsert(e, store, col, doc, batch, model, tags);
      && (k in store' <==> k in store || (k.0 == doc && k.1 in batch && k.1 < |e.parse(doc)|))
      && (k in store' ==>
            if k.0 == doc && k.1 in batch && k.1 < |e.parse(doc)| then
              store'[k] == Row(if k in store then store[k].col else col, e.parse(doc)[k.1], model, e.embed(model, e.parse(doc)[k.1]), tags)
            else store'[k] == store[k])
  {
    var keys := set i | i in batch && i < |e.parse(doc)| :: (doc, i);
    if k.0 == doc && k.1 in batch && k.1 < |e.parse(doc)| {
      assert k == (doc, k.1) && k in keys;
    }
  }

  lemma UpsertKeepsRowsOk(e: Env, store: Store, col: ColId, doc: DocId, batch: seq<nat>, model: Model, tags: set<string>)
    requires RowsOk(e, store)
    ensures RowsOk(e, Upsert(e, store, col, doc, batch, model, tags))
  {
    var store' := Upsert(e, store, col, doc, batch, model, tags);
    forall k | k in store' ensures RowOk(e, k, store'[k]) {
      UpsertAt(e, store, col, doc, batch, model, tags, k);
    }
  }

  lemma BatchShrinksRemaining(e: Env, store: Store, col: ColId, doc: DocId, model: Model, tags: set<string>, todo: seq<nat>, b: nat)
    requires Remaining(e, store, col, doc, model, todo) && b <= |todo|
    requires forall i :: (doc, i) in store ==> store[(doc, i)].col == col
    ensures Remaining(e, Upsert(e, store, col, doc, todo[..b], model, tags), col, doc, model, todo[b..])
  {
    var store' := Upsert(e, store, col, doc, todo[..b], model, tags);
    assert todo == todo[..b] + todo[b..];
    assert forall a, c :: 0 <= a < b <= c < |todo| ==> todo[a] != todo[c];
    forall i: nat ensures i in todo[b..] <==> i < |e.parse(doc)| && !AtModel(store', col, doc, i, model) {
      UpsertAt(e, store, col, doc, todo[..b], model, tags, (doc, i));
      assert i in todo <==> i in todo[..b] || i in todo[b..];
    }
  }

  // ---- every step ----------------------------------------------------------------------

  lemma BatchKeeps(e: Env, s: State)
    requires Identities(e, s) && Resumable(e, s)
    ensures Resumable(e, DoBatch(e, s))
  {
    if DoBatch(e, s) != s {
      var w, p := s.worker, s.worker.phase;
      var b := BatchLength(p.cfg, p.todo);
      UpsertKeepsRowsOk(e, s.store, w.col, w.doc, p.todo[..b], p.cfg.model, p.tags);
      BatchShrinksRemaining(e, s.store, w.col, w.doc, p.cfg.model, p.tags, p.todo, b);
    }
  }

  lemma ParseKeeps(e: Env, s: State)
    requires Resumable(e, s)
    ensures Resumable(e, DoParse(e, s))
  {
    if s.worker.OnIngest? && s.worker.phase.Parsing? {
      TodoRemains(s.store, s.worker.col, s.worker.doc, s.worker.phase.cfg.model, |e.parse(s.worker.doc)|);
    }
  }

  lemma ResumableKeptIngest(e: Env, s: State, a: IngestStep)
    requires Identities(e, s) && Resumable(e, s)
    ensures Resumable(e, ApplyIngest(e, s, a))
  {
    match a
    case Batch => BatchKeeps(e, s);
    case Parse => ParseKeeps(e, s);
    case _ =>
  }

  lemma ResumableKeptCleanup(e: Env, s: State, a: CleanupStep)
    requires Resumable(e, s)
    ensures Resumable(e, ApplyCleanup(e, s, a))
  {
    CleanupStepShape(e, s, a);
  }

  /** Steps that leave the chunk table alone and either keep or replace the worker's task. */
  lemma ResumableKeptQuiet(e: Env, s: State, s': State)
    requires Resumable(e, s) && s'.store == s.store
    requires s'.worker == s.worker || s'.worker.Idle? || (exists d, c :: s'.worker == Open(d, c))
    ensures Resumable(e, s')
  {
  }

  lemma ResumableKept(e: Env, s: State, a: Action)
    requires Identities(e, s) && Resumable(e, s)
    ensures Resumable(e, Apply(e, s, a))
  {
    match a
    case IngestAct(step) => ResumableKeptIngest(e, s, step);
    case Cleanup(work) => ResumableKeptCleanup(e, s, work);
    case Document(call) => DocumentKeepsJobs(e, s, call); ResumableKeptQuiet(e, s, Apply(e, s, a));
    case Tagging(call) => var docs := TaggingShape(e, s, call); ResumableKeptQuiet(e, s, Apply(e, s, a));
    case Other(event) => EventKeepsJobs(e, s, event); ResumableKeptQuiet(e, s, Apply(e, s, a));
  }
}
