/** When a requested delete completes, exactly, and what becomes of one that does not. */
module ProtocolDeleteDrain {
  import opened Ids
  import opened Protocol
  import opened ProtocolSafety
  import opened ProtocolDeletes
  import opened ProtocolRuns
  import opened ProtocolLiveness
  import opened ProtocolTagDrain

  /** The row is marked for deletion and still there. */
  ghost predicate Tombstone(s: State, d: DocId) {
    d in s.docs && s.docs[d].status == Deleting
  }

  ghost predicate DeletingNow(s: State, d: DocId) {
    s.worker.OnDelete? && s.worker.doc == d && d in s.docs
  }

  /** Failures of the document's delete task before its rows were deleted. */
  ghost function Failures(e: Env, s: State, actions: seq<Action>, d: DocId): nat
    decreases |actions|
  {
    if actions == [] then 0
    else FailsNow(s, actions[0], d) + Failures(e, Apply(e, s, actions[0]), actions[1..], d)
  }

  ghost function FailsNow(s: State, a: Action, d: DocId): nat {
    if a == Cleanup(TaskFail) && DeletingNow(s, d) then 1 else 0
  }

  /** Times the task ran out of time before its rows were deleted. */
  ghost function Timeouts(e: Env, s: State, actions: seq<Action>, d: DocId): nat
    decreases |actions|
  {
    if actions == [] then 0
    else TimesOutNow(s, actions[0], d) + Timeouts(e, Apply(e, s, actions[0]), actions[1..], d)
  }

  ghost function TimesOutNow(s: State, a: Action, d: DocId): nat {
    if a == Cleanup(TaskTimeout) && DeletingNow(s, d) then 1 else 0
  }

  /** The one thing queued or running is this delivery. */
  ghost predicate Only(s: State, m: Delivery) {
    || (s.worker.Idle? && s.queue == multiset{m})
    || (s.worker.OnDelete? && s.queue == multiset{} && Held(s.worker) == m)
  }

  /** Where a delete stands after so many failures and timeouts: committed, still being tried, or
      given up with the tombstone left behind. */
  ghost predicate Pursued(s: State, d: DocId, col: ColId, fails: nat, timeouts: nat) {
    if d in s.gone then timeouts == 0 && fails <= MAX_RETRIES
    else
      Tombstone(s, d) &&
        if timeouts == 0 && fails <= MAX_RETRIES then Only(s, Delivery(DeleteDoc(d, col), fails)) else Drained(s)
  }

  // ---- one step of the drain -----------------------------------------------------------

  lemma PursuedKept(e: Env, s: State, a: Action, d: DocId, col: ColId, fails: nat, timeouts: nat)
    requires Inv(e, s) && Drains(a) && Pursued(s, d, col, fails, timeouts)
    ensures Pursued(Apply(e, s, a), d, col, fails + FailsNow(s, a, d), timeouts + TimesOutNow(s, a, d))
  {
    hide Apply, Identities, RunningJob;
    if d in s.gone {
      GoneStays(e, s, a);
      assert Erased(s, d);
    } else if Drained(s) {
      hide Pursued;
      NothingToDrain(e, s, a);
      StandsStill(s, Apply(e, s, a), d, col, fails, timeouts);
    } else if s.worker.Idle? {
      WaitingDelete(e, s, a, Delivery(DeleteDoc(d, col), fails));
    } else {
      RunningDelete(e, s, a, d, col, fails);
    }
  }

  /** With nothing queued or running, a drain step changes keys and configuration at most. */
  ghost predicate SameWork(s: State, s': State) {
    s'.docs == s.docs && s'.gone == s.gone && s'.queue == s.queue && s'.worker == s.worker
  }

  lemma NothingToDrain(e: Env, s: State, a: Action)
    requires Drained(s) && Drains(a)
    ensures SameWork(s, Apply(e, s, a))
    ensures !s.worker.OnDelete?
  {
    hide ApplyCleanup, ApplyEvent;
    if a.Cleanup? { IdleCleans(e, s, a.work); } else { IdleEvent(e, s, a.event); }
  }

  /** Events that reach an idle worker: only taking a queued delivery gives it work. */
  lemma IdleEvent(e: Env, s: State, a: Event)
    requires s.worker.Idle? && Drains(Other(a))
    ensures a.Take? && a.delivery in s.queue ==> ApplyEvent(e, s, a) == DoTake(s, a.delivery)
    ensures !(a.Take? && a.delivery in s.queue) ==> SameWork(s, ApplyEvent(e, s, a))
  {
    hide DoTake, DoCrash;
    if a.Take? {
      if a.delivery !in s.queue { NotTaken(s, a.delivery); }
    } else if a.Crash? {
      IdleCrash(s);
    }
  }

  lemma IdleCrash(s: State)
    requires s.worker.Idle?
    ensures DoCrash(s) == s
  {
  }

  lemma StandsStill(s: State, s': State, d: DocId, col: ColId, fails: nat, timeouts: nat)
    requires Pursued(s, d, col, fails, timeouts) && SameWork(s, s')
    ensures Pursued(s', d, col, fails, timeouts)
  {
  }

  lemma WaitingDelete(e: Env, s: State, a: Action, m: Delivery)
    requires s.worker.Idle? && s.queue == multiset{m} && m.task.DeleteDoc? && Drains(a)
    ensures var s' := Apply(e, s, a); s'.docs == s.docs && s'.gone == s.gone && Only(s', m)
  {
    hide ApplyCleanup, ApplyEvent, DoTake;
    if a.Cleanup? {
      IdleCleans(e, s, a.work);
    } else {
      IdleEvent(e, s, a.event);
      if a.event == Take(m) { TakenDelete(s, m); }
    }
  }

  lemma TakenDelete(s: State, m: Delivery)
    requires s.worker.Idle? && s.queue == multiset{m} && m.task.DeleteDoc?
    ensures DoTake(s, m) == s.(queue := multiset{}, worker := OnDelete(m.task.doc, m.task.col, m.retries, DelStart))
  {
    assert multiset{m} - multiset{m} == multiset{};
  }

  lemma RunningDelete(e: Env, s: State, a: Action, d: DocId, col: ColId, fails: nat)
    requires Final(s) && Drains(a) && Tombstone(s, d) && d !in s.gone && fails <= MAX_RETRIES
    requires s.worker.OnDelete? && s.queue == multiset{} && Held(s.worker) == Delivery(DeleteDoc(d, col), fails)
    ensures Pursued(Apply(e, s, a), d, col, fails + FailsNow(s, a, d), TimesOutNow(s, a, d))
  {
    if a.Cleanup? {
      assert s.worker.at.DelStart? || s.worker.at.ChunksGone?;
      DeleteStep(e, s, a.work, d, col, fails);
    } else {
      assert multiset{} + multiset{Held(s.worker)} == multiset{Held(s.worker)};
    }
  }

  lemma DeleteStep(e: Env, s: State, a: CleanupStep, d: DocId, col: ColId, fails: nat)
    requires Tombstone(s, d) && d !in s.gone && fails <= MAX_RETRIES
    requires s.worker.OnDelete? && s.queue == multiset{} && Held(s.worker) == Delivery(DeleteDoc(d, col), fails)
    requires s.worker.at.DelStart? || s.worker.at.ChunksGone?
    ensures Pursued(ApplyCleanup(e, s, a), d, col, fails + FailsNow(s, Cleanup(a), d), TimesOutNow(s, Cleanup(a), d))
  {
    hide JobsWithout;
    assert multiset{} + Retried(s.worker) == Retried(s.worker);
  }

  // ---- the whole drain -----------------------------------------------------------------

  /** No delete of the document is queued or running. */
  ghost predicate NoDelete(s: State, d: DocId) {
    && (forall m :: m in s.queue ==> !(m.task.DeleteDoc? && m.task.doc == d))
    && !(s.worker.OnDelete? && s.worker.doc == d)
  }

  ghost predicate Stranded(s: State, d: DocId) {
    Tombstone(s, d) && NoDelete(s, d)
  }

  lemma DrainedIsStranded(s: State, d: DocId)
    requires Drained(s) && Tombstone(s, d)
    ensures Stranded(s, d)
  {
  }

  lemma {:induction false} DrainPursues(e: Env, s: State, actions: seq<Action>, d: DocId, col: ColId, fails: nat, timeouts: nat)
    requires Inv(e, s) && Pursued(s, d, col, fails, timeouts)
    requires forall a :: a in actions ==> Drains(a)
    ensures Pursued(Run(e, s, actions), d, col, fails + Failures(e, s, actions, d), timeouts + Timeouts(e, s, actions, d))
    decreases |actions|
  {
    hide Apply, Inv, Pursued, Drains, FailsNow, TimesOutNow;
    if actions != [] {
      var a := actions[0];
      assert Drains(a);
      InvKept(e, s, a);
      PursuedKept(e, s, a, d, col, fails, timeouts);
      DrainPursues(e, Apply(e, s, a), actions[1..], d, col, fails + FailsNow(s, a, d), timeouts + TimesOutNow(s, a, d));
    }
  }

  /** A delete requested in a settled state, and drained, has completed if and only if before its rows
      were deleted the task never ran out of time and failed at most three times. Completed, nothing of
      the document is left; otherwise its row is stranded: still there, marked for deletion, with no delete to come. */
  lemma DeleteCompletesExactlyWhen(e: Env, s: State, actions: seq<Action>, d: DocId)
    requires Inv(e, s) && Drained(s) && d in s.docs && s.docs[d].status != Deleting
    requires forall a :: a in actions ==> Drains(a)
    ensures var s1 := Apply(e, s, Document(RequestDelete(d, true))); var t := Run(e, s1, actions);
      Drained(t) ==>
        && (d in t.gone <==> Timeouts(e, s1, actions, d) == 0 && Failures(e, s1, actions, d) <= MAX_RETRIES)
        && (d in t.gone ==> Erased(t, d)) && (d !in t.gone ==> Stranded(t, d))
  {
    hide Apply, Run, Drains, Identities, RunningJob;
    var s1 := Apply(e, s, Document(RequestDelete(d, true)));
    InvKept(e, s, Document(RequestDelete(d, true)));
    LiveIsNotGone(s, d);
    RequestPursues(e, s, d);
    DrainPursues(e, s1, actions, d, s.docs[d].col, 0, 0);
    RunKeepsInv(e, s1, actions);
    var t := Run(e, s1, actions);
    if Drained(t) && d !in t.gone { DrainedIsStranded(t, d); }
  }

  lemma LiveIsNotGone(s: State, d: DocId)
    requires Final(s) && d in s.docs
    ensures d !in s.gone
  {
  }

  lemma RequestPursues(e: Env, s: State, d: DocId)
    requires Drained(s) && d in s.docs && s.docs[d].status != Deleting && d !in s.gone
    ensures Pursued(Apply(e, s, Document(RequestDelete(d, true))), d, s.docs[d].col, 0, 0)
  {
    hide JobsWithout;
  }

  // ---- a stranded tombstone stays ------------------------------------------------------

  lemma StrandedKeptIngest(e: Env, s: State, a: IngestStep, d: DocId)
    requires Stranded(s, d)
    ensures Stranded(ApplyIngest(e, s, a), d)
  {
    hide ApplyIngest;
    IngestStepShape(e, s, a);
    if ApplyIngest(e, s, a) != s { RetriedIsSameTask(s, d); }
  }

  lemma RetriedIsSameTask(s: State, d: DocId)
    requires NoDelete(s, d) && !s.worker.Idle?
    ensures forall m :: m in s.queue + Retried(s.worker) ==> !(m.task.DeleteDoc? && m.task.doc == d)
  {
  }

  lemma StrandedKeptCleanup(e: Env, s: State, a: CleanupStep, d: DocId)
    requires Stranded(s, d)
    ensures Stranded(ApplyCleanup(e, s, a), d)
  {
    hide ApplyCleanup;
    CleanupStepShape(e, s, a);
    OtherRowsStay(e, s, a, d);
    if ApplyCleanup(e, s, a) != s { RetriedIsSameTask(s, d); }
  }

  lemma OtherRowsStay(e: Env, s: State, a: CleanupStep, d: DocId)
    requires !(s.worker.OnDelete? && s.worker.doc == d)
    ensures d in s.docs ==> d in ApplyCleanup(e, s, a).docs
  {
    hide JobsWithout, Tags.Effective, Tags.DropDocument, SetTags, Retried;
  }

  lemma StrandedKeptDocument(e: Env, s: State, a: DocumentCall, d: DocId)
    requires Identities(e, s) && Stranded(s, d)
    ensures Stranded(ApplyDocument(e, s, a), d)
  {
    hide Stranded, NewJob, InFlight, DoRequestDelete;
    match a
    case Upload(doc, col, j, q) =>
      var s1 := s.(docs := s.docs[doc := Doc(col, Active, None, None)], issued := s.issued[doc := col]);
      if ApplyDocument(e, s, a) != s {
        StrandedKeptRow(e, s, s1, d, doc);
        StrandedKeptJob(s1, d, j, doc, col, q);
      }
    case CreateUpload(doc, col) =>
      if ApplyDocument(e, s, a) != s { StrandedKeptRow(e, s, ApplyDocument(e, s, a), d, doc); }
    case ConfirmUpload(doc, j, q) =>
      if ApplyDocument(e, s, a) != s {
        var s1 := s.(docs := s.docs[doc := s.docs[doc].(status := Active)]);
        StrandedKeptRow(e, s, s1, d, doc);
        StrandedKeptJob(s1, d, j, doc, s.docs[doc].col, q);
      }
    case Reprocess(doc, j, q) =>
      if ApplyDocument(e, s, a) != s { StrandedKeptJob(s, d, j, doc, s.docs[doc].col, q); }
    case RequestDelete(doc, q) => StrandedKeptRequest(s, d, doc, q);
  }

  /** Another document's row, new or no longer awaiting its upload, leaves the tombstone alone. */
  lemma StrandedKeptRow(e: Env, s: State, s': State, d: DocId, doc: DocId)
    requires RowIds(e, s) && Stranded(s, d) && doc in s'.docs && s' == s.(docs := s.docs[doc := s'.docs[doc]], issued := s'.issued)
    requires doc !in s.issued || (doc in s.docs && s.docs[doc].status == AwaitingUpload)
    ensures Stranded(s', d)
  {
  }

  lemma StrandedKeptJob(s: State, d: DocId, j: JobId, doc: DocId, col: ColId, q: bool)
    requires Stranded(s, d)
    ensures Stranded(NewJob(s, j, doc, col, q), d)
  {
  }

  lemma StrandedKeptRequest(s: State, d: DocId, doc: DocId, q: bool)
    requires Stranded(s, d)
    ensures Stranded(DoRequestDelete(s, doc, q), d)
  {
    hide JobsWithout;
  }

  lemma StrandedKeptTagging(e: Env, s: State, a: TagCall, d: DocId)
    requires Stranded(s, d)
    ensures Stranded(ApplyTagging(e, s, a), d)
  {
    hide ApplyTagging;
    var docs := TaggingShape(e, s, a);
    SyncsAreSyncs(s, docs);
  }

  lemma StrandedKeptEvent(e: Env, s: State, a: Event, d: DocId)
    requires Stranded(s, d) && a != Purge(d)
    ensures Stranded(ApplyEvent(e, s, a), d)
  {
    hide ApplyEvent;
    if a.Requeue? {
      hide DoRequeue;
      RequeueStepShape(e, s, a.status, a.picked);
      RequeueIsEvent(e, s, a.status, a.picked);
    } else if a.Purge? {
      PurgeIsElsewhere(e, s, a.doc, d);
    } else if IsBroker(a) {
      BrokerIsElsewhere(e, s, a, d);
    } else {
      KeysOnly(e, s, a);
    }
  }

  lemma RequeueIsEvent(e: Env, s: State, status: JobStatus, picked: set<JobId>)
    ensures ApplyEvent(e, s, Requeue(status, picked)) == DoRequeue(e, s, status, picked)
  {
    hide DoRequeue;
  }

  lemma PurgeIsElsewhere(e: Env, s: State, doc: DocId, d: DocId)
    requires Stranded(s, d) && doc != d
    ensures Stranded(ApplyEvent(e, s, Purge(doc)), d)
  {
  }

  lemma BrokerIsElsewhere(e: Env, s: State, a: Event, d: DocId)
    requires Stranded(s, d) && IsBroker(a) && !a.Purge?
    ensures Stranded(ApplyEvent(e, s, a), d)
  {
    hide DoRequeue, DoPurge;
  }

  lemma KeysOnly(e: Env, s: State, a: Event)
    requires a.ExpireBeat? || a.LiftPause? || a.SetConfig?
    ensures var s' := ApplyEvent(e, s, a); s'.docs == s.docs && s'.queue == s.queue && s'.worker == s.worker
  {
  }

  /** A delete that gave up is never taken up again: whatever is uploaded, tagged, swept or asked for,
      the row stays marked for deletion, until the retention purge selects it. */
  lemma {:induction false} TombstoneStays(e: Env, s: State, actions: seq<Action>, d: DocId)
    requires Inv(e, s) && Stranded(s, d)
    requires forall a :: a in actions ==> a != Other(Purge(d))
    ensures Stranded(Run(e, s, actions), d)
    decreases |actions|
  {
    hide Inv, Stranded, ApplyIngest, ApplyCleanup, ApplyDocument, ApplyTagging, ApplyEvent;
    if actions != [] {
      var a := actions[0];
      assert a in actions;
      InvHasIdentities(e, s);
      InvKept(e, s, a);
      match a {
        case IngestAct(step) => StrandedKeptIngest(e, s, step, d);
        case Cleanup(work) => StrandedKeptCleanup(e, s, work, d);
        case Document(call) => StrandedKeptDocument(e, s, call, d);
        case Tagging(call) => StrandedKeptTagging(e, s, call, d);
        case Other(event) => StrandedKeptEvent(e, s, event, d);
      }
      assert forall x :: x in actions[1..] ==> x in actions;
      TombstoneStays(e, Apply(e, s, a), actions[1..], d);
    }
  }

  lemma InvHasIdentities(e: Env, s: State)
    requires Inv(e, s)
    ensures Identities(e, s)
  {
  }

  /** One time limit is enough to strand a delete. */
  lemma TimedOutDeleteStrands(e: Env, s: State, d: DocId) returns (actions: seq<Action>)
    requires Inv(e, s) && Drained(s) && d in s.docs && s.docs[d].status != Deleting
    ensures Stranded(Run(e, Apply(e, s, Document(RequestDelete(d, true))), actions), d)
  {
    hide JobsWithout, Inv;
    var m := Delivery(DeleteDoc(d, s.docs[d].col), 0);
    var s1 := Apply(e, s, Document(RequestDelete(d, true)));
    actions := [Other(Take(m)), Cleanup(TaskTimeout)];
    RunTwo(e, s1, actions[0], actions[1]);
    assert s1.queue == multiset{m};
    assert s1.queue - multiset{m} == multiset{};
  }
}
