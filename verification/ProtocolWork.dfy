/** Embedding work is bounded: nothing already stored at the model is embedded again. */
module ProtocolWork {
  import opened Ids
  import opened Protocol
  import opened ProtocolSafety
  import opened ProtocolDeletes
  import opened ProtocolResume
  import opened ProtocolTags
  import opened ProtocolRuns

  /** The chunks of a document not stored under a model. */
  ghost function Missing(e: Env, s: State, d: DocId, model: Model): set<nat>
    requires d in s.issued
  {
    set i: nat | i < |e.parse(d)| && !AtModel(s.store, s.issued[d], d, i, model)
  }

  ghost predicate EmbedsDoc(s: State, d: DocId) {
    s.worker.OnIngest? && s.worker.doc == d && s.worker.phase.Embedding?
  }

  /** The texts of the batch the worker is about to send, or has sent and not yet stored. */
  ghost function BatchInFlight(s: State, d: DocId): nat {
    if EmbedsDoc(s, d) then BatchLength(s.worker.phase.cfg, s.worker.phase.todo) else 0
  }

  /** Texts whose vectors this step stores. */
  ghost function Stored(s: State, a: Action, d: DocId): nat {
    if a == IngestAct(Batch) then BatchInFlight(s, d) else 0
  }

  ghost predicate Interrupts(s: State, a: Action, d: DocId) {
    EmbedsDoc(s, d) && a in {IngestAct(Hit429), IngestAct(FailRetry), IngestAct(FailTerminal), Other(Crash)}
  }

  /** Texts sent by a batch call that this step cuts off before its vectors are stored. */
  ghost function Cut(s: State, a: Action, d: DocId): nat {
    if Interrupts(s, a, d) then BatchInFlight(s, d) else 0
  }

  /** The document is embedded at `model` if at all, and the step removes none of its chunks. */
  ghost predicate OneModel(e: Env, s: State, a: Action, d: DocId, model: Model) {
    && (EmbedsDoc(s, d) ==> s.worker.phase.cfg.model == model)
    && forall i :: (d, i) in s.store ==> (d, i) in Apply(e, s, a).store
  }

  ghost function Elems(xs: seq<nat>): set<nat> {
    set x | x in xs
  }

  lemma {:induction false} DistinctCount(xs: seq<nat>)
    requires forall a, b :: 0 <= a < b < |xs| ==> xs[a] < xs[b]
    ensures |Elems(xs)| == |xs|
  {
    if xs != [] {
      var rest := xs[1..];
      DistinctCount(rest);
      assert xs == [xs[0]] + rest;
      assert xs[0] !in rest;
      assert Elems(xs) == {xs[0]} + Elems(rest);
    }
  }

  /** A batch removes exactly its own chunks from what is missing. */
  lemma BatchFills(e: Env, s: State, d: DocId, model: Model)
    requires Identities(e, s) && Resumable(e, s) && d in s.issued
    requires OneModel(e, s, IngestAct(Batch), d, model)
    ensures var s' := DoBatch(e, s);
      s'.issued == s.issued && |Missing(e, s', d, model)| + Stored(s, IngestAct(Batch), d) == |Missing(e, s, d, model)|
  {
    var s' := DoBatch(e, s);
    if s' != s {
      var w, p := s.worker, s.worker.phase;
      var b := BatchLength(p.cfg, p.todo);
      var batch := p.todo[..b];
      BatchTaken(e, s, d, model, batch);
    }
  }

  lemma BatchTaken(e: Env, s: State, d: DocId, model: Model, batch: seq<nat>)
    requires Identities(e, s) && Resumable(e, s) && d in s.issued
    requires s.worker.OnIngest? && s.worker.phase.Embedding? && OneModel(e, s, IngestAct(Batch), d, model)
    requires batch <= s.worker.phase.todo
    ensures var w, p := s.worker, s.worker.phase;
      var s' := s.(store := Upsert(e, s.store, w.col, w.doc, batch, p.cfg.model, p.tags));
      |Missing(e, s', d, model)| + (if w.doc == d then |batch| else 0) == |Missing(e, s, d, model)|
  {
    hide Remaining, RowsOk, Identities;
    var w, p := s.worker, s.worker.phase;
    var s' := s.(store := Upsert(e, s.store, w.col, w.doc, batch, p.cfg.model, p.tags));
    BatchMembers(e, s, d, model, batch);
    BatchDistinct(e, s, batch);
    var before, after := Missing(e, s, d, model), Missing(e, s', d, model);
    if w.doc == d {
      assert before == after + Elems(batch) && after !! Elems(batch);
      assert |after + Elems(batch)| == |after| + |Elems(batch)|;
    } else {
      assert before == after;
    }
  }

  lemma BatchDistinct(e: Env, s: State, batch: seq<nat>)
    requires Progress(e, s) && s.worker.OnIngest? && s.worker.phase.Embedding? && batch <= s.worker.phase.todo
    ensures |Elems(batch)| == |batch|
  {
    DistinctCount(batch);
  }

  lemma BatchMembers(e: Env, s: State, d: DocId, model: Model, batch: seq<nat>)
    requires Identities(e, s) && Resumable(e, s) && d in s.issued
    requires s.worker.OnIngest? && s.worker.phase.Embedding? && OneModel(e, s, IngestAct(Batch), d, model)
    requires batch <= s.worker.phase.todo
    ensures var w, p := s.worker, s.worker.phase;
      var s' := s.(store := Upsert(e, s.store, w.col, w.doc, batch, p.cfg.model, p.tags));
      && (forall i: nat :: i in Missing(e, s', d, model) <==> i in Missing(e, s, d, model) && !(w.doc == d && i in batch))
      && (w.doc == d ==> forall i: nat :: i in batch ==> i in Missing(e, s, d, model))
  {
    var w, p := s.worker, s.worker.phase;
    var s' := s.(store := Upsert(e, s.store, w.col, w.doc, batch, p.cfg.model, p.tags));
    assert w.col == s.issued[w.doc] by { assert TaskOk(s, Held(w)); }
    forall i: nat ensures i in Missing(e, s', d, model) <==> i in Missing(e, s, d, model) && !(w.doc == d && i in batch) {
      UpsertAt(e, s.store, w.col, w.doc, batch, p.cfg.model, p.tags, (d, i));
    }
    assert forall i: nat :: i in batch ==> i in p.todo;
  }

  /** No other step changes what is missing. */
  lemma OthersKeepMissing(e: Env, s: State, a: Action, d: DocId, model: Model)
    requires Inv(e, s) && d in s.issued && OneModel(e, s, a, d, model) && a != IngestAct(Batch)
    ensures var s' := Apply(e, s, a);
      d in s'.issued && s'.issued[d] == s.issued[d] && Missing(e, s', d, model) == Missing(e, s, d, model)
  {
    var s' := Apply(e, s, a);
    RowsKept(e, s, a, d);
    assert forall i: nat :: AtModel(s'.store, s.issued[d], d, i, model) == AtModel(s.store, s.issued[d], d, i, model);
  }

  lemma RowsKept(e: Env, s: State, a: Action, d: DocId)
    requires Inv(e, s) && d in s.issued && a != IngestAct(Batch)
    requires forall i :: (d, i) in s.store ==> (d, i) in Apply(e, s, a).store
    ensures var s' := Apply(e, s, a);
      && d in s'.issued && s'.issued[d] == s.issued[d]
      && forall i :: ((d, i) in s'.store <==> (d, i) in s.store)
           && ((d, i) in s.store ==> s'.store[(d, i)] == s.store[(d, i)].(tags := s'.store[(d, i)].tags))
  {
    match a
    case IngestAct(step) => IngestStepShape(e, s, step); OnlyBatchStores(e, s, step);
    case Cleanup(work) => CleanupStepShape(e, s, work);
    case Document(call) => DocumentCallShape(e, s, call);
    case Tagging(call) => var docs := TaggingShape(e, s, call);
    case Other(event) => EventKeepsJobs(e, s, event);
  }

  lemma OnlyBatchStores(e: Env, s: State, a: IngestStep)
    requires !a.Batch?
    ensures ApplyIngest(e, s, a).store == s.store
  {
    hide ApplyIngest;
    if a.Hit429? || a.FailRetry? || a.FailTerminal? {
      FailureStoresNothing(e, s, a);
    } else {
      ProgressStoresNothing(e, s, a);
    }
  }

  lemma FailureStoresNothing(e: Env, s: State, a: IngestStep)
    requires a.Hit429? || a.FailRetry? || a.FailTerminal?
    ensures ApplyIngest(e, s, a).store == s.store
  {
    hide Settle, Retried;
    if CanRaise(s) {
      SettleIs(s, RateLimited);
      SettleIs(s, Failed);
    }
  }

  lemma ProgressStoresNothing(e: Env, s: State, a: IngestStep)
    requires a.Claim? || a.FirstBeat? || a.Parse? || a.LoopEnd? || a.MarkDone? || a.Finish?
    ensures ApplyIngest(e, s, a).store == s.store
  {
    hide ApplyIngest;
    if a.Claim? { ClaimStoresNothing(e, s); } else { TaskStoresNothing(e, s, a); }
  }

  lemma ClaimStoresNothing(e: Env, s: State)
    ensures ApplyIngest(e, s, Claim).store == s.store
  {
    hide Skips;
  }

  lemma TaskStoresNothing(e: Env, s: State, a: IngestStep)
    requires a.FirstBeat? || a.Parse? || a.LoopEnd? || a.MarkDone? || a.Finish?
    ensures ApplyIngest(e, s, a).store == s.store
  {
    hide Todo, Tags.Effective;
  }

  ghost predicate OneModelRun(e: Env, s: State, actions: seq<Action>, d: DocId, model: Model)
    decreases |actions|
  {
    actions != [] ==> OneModel(e, s, actions[0], d, model) && OneModelRun(e, Apply(e, s, actions[0]), actions[1..], d, model)
  }

  ghost function TotalStored(e: Env, s: State, actions: seq<Action>, d: DocId): nat
    decreases |actions|
  {
    if actions == [] then 0 else Stored(s, actions[0], d) + TotalStored(e, Apply(e, s, actions[0]), actions[1..], d)
  }

  ghost function TotalCut(e: Env, s: State, actions: seq<Action>, d: DocId): nat
    decreases |actions|
  {
    if actions == [] then 0 else Cut(s, actions[0], d) + TotalCut(e, Apply(e, s, actions[0]), actions[1..], d)
  }

  ghost function Interruptions(e: Env, s: State, actions: seq<Action>, d: DocId): nat
    decreases |actions|
  {
    if actions == [] then 0
    else (if Interrupts(s, actions[0], d) then 1 else 0) + Interruptions(e, Apply(e, s, actions[0]), actions[1..], d)
  }

  /** Conservation: over any run at one model, with any number of interrupted attempts, the texts
      whose vectors were stored are exactly the chunks that were missing and no longer are. */
  lemma {:induction false} StoredTextsFillGaps(e: Env, s: State, actions: seq<Action>, d: DocId, model: Model)
    requires Inv(e, s) && d in s.issued && OneModelRun(e, s, actions, d, model)
    ensures var s' := Run(e, s, actions);
      d in s'.issued && TotalStored(e, s, actions, d) + |Missing(e, s', d, model)| == |Missing(e, s, d, model)|
    decreases |actions|
  {
    hide Inv, Missing, Stored, OneModel, Apply;
    if actions != [] {
      var a := actions[0];
      StepFillsGaps(e, s, a, d, model);
      InvKept(e, s, a);
      StoredTextsFillGaps(e, Apply(e, s, a), actions[1..], d, model);
    }
  }

  lemma StepFillsGaps(e: Env, s: State, a: Action, d: DocId, model: Model)
    requires Inv(e, s) && d in s.issued && OneModel(e, s, a, d, model)
    ensures var s' := Apply(e, s, a);
      d in s'.issued && Stored(s, a, d) + |Missing(e, s', d, model)| == |Missing(e, s, d, model)|
  {
    if a == IngestAct(Batch) { BatchFills(e, s, d, model); } else { OthersKeepMissing(e, s, a, d, model); }
  }

  /** The batch size never exceeds `b` while this document is embedded. */
  ghost predicate BatchesWithin(e: Env, s: State, actions: seq<Action>, d: DocId, b: nat)
    decreases |actions|
  {
    && (EmbedsDoc(s, d) ==> s.worker.phase.cfg.batchSize <= b)
    && (actions != [] ==> BatchesWithin(e, Apply(e, s, actions[0]), actions[1..], d, b))
  }

  lemma {:induction false} CutTextsBounded(e: Env, s: State, actions: seq<Action>, d: DocId, b: nat)
    requires BatchesWithin(e, s, actions, d, b)
    ensures TotalCut(e, s, actions, d) <= Interruptions(e, s, actions, d) * b
    decreases |actions|
  {
    hide Apply;
    if actions != [] {
      var s' := Apply(e, s, actions[0]);
      CutTextsBounded(e, s', actions[1..], d, b);
      var n := Interruptions(e, s', actions[1..], d);
      assert (n + 1) * b == n * b + b;
    }
  }

  /** All texts sent to the embedder for a document, stored, cut off or still in flight when the run
      ends, number at most its chunks plus one batch per interrupted attempt. (One batch more if the
      one in flight is at another model.) */
  lemma EmbeddingWorkIsBounded(e: Env, s: State, actions: seq<Action>, d: DocId, model: Model, b: nat)
    requires Reachable(e, s) && d in s.issued
    requires OneModelRun(e, s, actions, d, model) && BatchesWithin(e, s, actions, d, b)
    ensures var t := Run(e, s, actions);
      var sent := TotalStored(e, s, actions, d) + TotalCut(e, s, actions, d);
      && sent <= |e.parse(d)| + Interruptions(e, s, actions, d) * b
      && sent + BatchInFlight(t, d) <= |e.parse(d)| + Interruptions(e, s, actions, d) * b + b
      && ((EmbedsDoc(t, d) ==> t.worker.phase.cfg.model == model) ==>
            sent + BatchInFlight(t, d) <= |e.parse(d)| + Interruptions(e, s, actions, d) * b)
  {
    hide Inv, Apply, Reachable, BatchInFlight, Missing;
    ReachableInv(e, s);
    RunKeepsInv(e, s, actions);
    StoredTextsFillGaps(e, s, actions, d, model);
    CutTextsBounded(e, s, actions, d, b);
    MissingAtMostAll(e, s, d, model);
    InFlightWithin(e, s, actions, d, b);
    var t := Run(e, s, actions);
    if EmbedsDoc(t, d) ==> t.worker.phase.cfg.model == model { InFlightIsMissing(e, t, d, model); }
  }

  lemma {:induction false} InFlightWithin(e: Env, s: State, actions: seq<Action>, d: DocId, b: nat)
    requires BatchesWithin(e, s, actions, d, b)
    ensures BatchInFlight(Run(e, s, actions), d) <= b
    decreases |actions|
  {
    hide Apply;
    if actions != [] { InFlightWithin(e, Apply(e, s, actions[0]), actions[1..], d, b); }
  }

  /** The batch in flight is among the chunks missing at its model. */
  lemma InFlightIsMissing(e: Env, s: State, d: DocId, model: Model)
    requires Inv(e, s) && d in s.issued && (EmbedsDoc(s, d) ==> s.worker.phase.cfg.model == model)
    ensures BatchInFlight(s, d) <= |Missing(e, s, d, model)|
  {
    if EmbedsDoc(s, d) {
      TodoIsMissing(e, s, d, model);
      assert Elems(s.worker.phase.todo) == Missing(e, s, d, model);
    }
  }

  lemma TodoIsMissing(e: Env, s: State, d: DocId, model: Model)
    requires Identities(e, s) && Resumable(e, s) && d in s.issued && EmbedsDoc(s, d) && s.worker.phase.cfg.model == model
    ensures |Elems(s.worker.phase.todo)| == |s.worker.phase.todo|
    ensures forall i: nat :: i in s.worker.phase.todo <==> i in Missing(e, s, d, model)
  {
    assert s.worker.col == s.issued[d] by { assert TaskOk(s, Held(s.worker)); }
    BatchDistinct(e, s, s.worker.phase.todo);
  }

  lemma MissingAtMostAll(e: Env, s: State, d: DocId, model: Model)
    requires d in s.issued
    ensures |Missing(e, s, d, model)| <= |e.parse(d)|
  {
    AtMost(Missing(e, s, d, model), |e.parse(d)|);
  }

  lemma {:induction false} AtMost(xs: set<nat>, n: nat)
    requires forall x :: x in xs ==> x < n
    ensures |xs| <= n
    decreases n
  {
    if n == 0 {
      assert xs == {};
    } else {
      AtMost(xs - {n - 1}, n - 1);
    }
  }
}
