/** Sweep fairness: a waiting job is re-enqueued after a bounded number of sweeps. */
module ProtocolSweeps {
  import opened Ids
  import opened Protocol
  import opened ProtocolSafety
  import opened ProtocolDeletes
  import opened ProtocolRuns

  /** No time stamp is ahead of the clock. */
  ghost predicate Stamps(s: State) {
    forall j :: j in s.jobs ==> s.jobs[j].updated <= s.clock
  }

  ghost predicate Untouched(s: State, s': State, j: JobId) {
    j in s.jobs && j in s'.jobs && s'.jobs[j].status == s.jobs[j].status && s'.jobs[j].updated == s.jobs[j].updated
  }

  /** Every job row a step leaves is untouched or carries a stamp newer than all before. */
  ghost predicate FreshStamps(s: State, s': State) {
    && s.clock <= s'.clock
    && forall j :: j in s'.jobs ==> Untouched(s, s', j) || s.clock < s'.jobs[j].updated <= s'.clock
  }

  lemma IngestStamps(e: Env, s: State, a: IngestStep)
    ensures FreshStamps(s, ApplyIngest(e, s, a))
  {
    IngestStepShape(e, s, a);
  }

  lemma CleanupStamps(e: Env, s: State, a: CleanupStep)
    ensures FreshStamps(s, ApplyCleanup(e, s, a))
  {
    CleanupStepShape(e, s, a);
  }

  lemma DocumentStamps(e: Env, s: State, a: DocumentCall)
    ensures FreshStamps(s, ApplyDocument(e, s, a))
  {
  }

  lemma RequeueStamps(e: Env, s: State, status: JobStatus, picked: set<JobId>)
    ensures FreshStamps(s, ApplyEvent(e, s, Requeue(status, picked)))
  {
    hide ApplyEvent;
    RequeueRows(e, s, status, picked);
  }

  lemma RequeueRows(e: Env, s: State, status: JobStatus, picked: set<JobId>)
    ensures var s' := ApplyEvent(e, s, Requeue(status, picked));
      || s' == s
      || (s'.clock == s.clock + 1 && s'.jobs.Keys == s.jobs.Keys
          && forall j :: j in s.jobs ==> s'.jobs[j] == s.jobs[j] || s'.jobs[j] == s.jobs[j].(updated := s'.clock))
  {
    hide OldestFirst, Fresh, Stuck, DoTake, DoCrash, DoLose, DoRepeat, DoPurge;
  }

  lemma EventStamps(e: Env, s: State, a: Event)
    ensures FreshStamps(s, ApplyEvent(e, s, a))
  {
    if a.Requeue? {
      hide ApplyEvent;
      RequeueStamps(e, s, a.status, a.picked);
    } else if IsBroker(a) {
      hide ApplyEvent;
      BrokerStepShape(e, s, a);
    }
  }

  lemma StepStamps(e: Env, s: State, a: Action)
    ensures FreshStamps(s, Apply(e, s, a))
  {
    match a
    case IngestAct(step) => IngestStamps(e, s, step);
    case Cleanup(work) => CleanupStamps(e, s, work);
    case Document(call) => DocumentStamps(e, s, call);
    case Tagging(call) => var docs := TaggingShape(e, s, call);
    case Other(event) => EventStamps(e, s, event);
  }

  lemma StampsKept(e: Env, s: State, a: Action)
    requires Stamps(s)
    ensures Stamps(Apply(e, s, a))
  {
    StepStamps(e, s, a);
  }

  // ---- fairness ------------------------------------------------------------------------

  /** The statuses a swept job waits in. */
  ghost predicate Waitable(status: JobStatus) {
    status == Pending || status == RateLimited
  }

  /** The jobs of the same status that are no newer, the job itself included. */
  ghost function NoNewer(s: State, j: JobId): set<JobId>
    requires j in s.jobs
  {
    set k | k in s.jobs && s.jobs[k].status == s.jobs[j].status && s.jobs[k].updated <= s.jobs[j].updated
  }

  /** The action is a sweep of `status` that the database answers. */
  ghost predicate Sweeps(e: Env, s: State, a: Action, status: JobStatus) {
    a.Other? && a.event.Requeue? && a.event.status == status && OldestFirst(s, status, e.retryBatch, a.event.picked)
  }

  ghost predicate Reenqueues(e: Env, s: State, a: Action, j: JobId)
    requires j in s.jobs
  {
    Sweeps(e, s, a, s.jobs[j].status) && j in a.event.picked
  }

  /** A sweep that picks the job does put it back on the queue. */
  lemma ReenqueuedIsQueued(e: Env, s: State, a: Action, j: JobId)
    requires j in s.jobs && Waitable(s.jobs[j].status) && Reenqueues(e, s, a, j)
    ensures Delivery(Ingest(j, s.jobs[j].doc, s.jobs[j].col), 0) in Apply(e, s, a).queue
  {
    var d := Delivery(Ingest(j, s.jobs[j].doc, s.jobs[j].col), 0);
    assert j in Stuck(s, a.event.status, a.event.picked);
    assert d in Fresh(s, Stuck(s, a.event.status, a.event.picked));
  }

  /** A waiting job keeps its place in line unless a step settles it, claims it or re-enqueues it. */
  lemma WaitingIsUntouched(e: Env, s: State, a: Action, j: JobId)
    requires Identities(e, s) && RunningJob(s) && j in s.jobs && Waitable(s.jobs[j].status)
    requires !Reenqueues(e, s, a, j)
    requires j in Apply(e, s, a).jobs && Apply(e, s, a).jobs[j].status == s.jobs[j].status
    ensures Untouched(s, Apply(e, s, a), j)
  {
    match a
    case IngestAct(step) => IngestLeavesWaiting(e, s, step, j);
    case Cleanup(work) => CleanupStepShape(e, s, work);
    case Document(call) => DocumentKeepsJobs(e, s, call);
    case Tagging(call) => var docs := TaggingShape(e, s, call);
    case Other(event) => EventLeavesWaiting(e, s, event, j);
  }

  lemma IngestLeavesWaiting(e: Env, s: State, a: IngestStep, j: JobId)
    requires RunningJob(s) && j in s.jobs && Waitable(s.jobs[j].status)
    requires j in ApplyIngest(e, s, a).jobs && ApplyIngest(e, s, a).jobs[j].status == s.jobs[j].status
    ensures Untouched(s, ApplyIngest(e, s, a), j)
  {
    hide ApplyIngest;
    IngestStepShape(e, s, a);
    if s.worker.OnIngest? && s.worker.job == j { HeldLeavesWaiting(e, s, a); }
  }

  /** The waiting job an ingest has just taken is claimed or left as it was. */
  lemma HeldLeavesWaiting(e: Env, s: State, a: IngestStep)
    requires s.worker.OnIngest? && s.worker.phase.Opened? && s.worker.job in s.jobs && Waitable(s.jobs[s.worker.job].status)
    ensures var s' := ApplyIngest(e, s, a);
      s'.jobs == s.jobs || (s.worker.job in s'.jobs && s'.jobs[s.worker.job].status == Processing)
  {
    hide ApplyIngest;
    if a.Claim? { WaitingIsClaimed(e, s); } else { OpenedOnlyClaims(e, s, a); }
  }

  lemma WaitingIsClaimed(e: Env, s: State)
    requires s.worker.OnIngest? && s.worker.phase.Opened? && s.worker.job in s.jobs && Waitable(s.jobs[s.worker.job].status)
    ensures var s' := ApplyIngest(e, s, Claim); s.worker.job in s'.jobs && s'.jobs[s.worker.job].status == Processing
  {
  }

  lemma OpenedOnlyClaims(e: Env, s: State, a: IngestStep)
    requires s.worker.OnIngest? && s.worker.phase.Opened? && !a.Claim?
    ensures ApplyIngest(e, s, a) == s
  {
    hide Settle, Upsert, Todo, Tags.Effective, Retried;
  }

  lemma EventLeavesWaiting(e: Env, s: State, a: Event, j: JobId)
    requires j in s.jobs && Waitable(s.jobs[j].status) && !Reenqueues(e, s, Other(a), j)
    ensures Untouched(s, ApplyEvent(e, s, a), j)
  {
  }

  lemma LineShrinks(e: Env, s: State, a: Action, j: JobId)
    requires Identities(e, s) && RunningJob(s) && Stamps(s) && j in s.jobs && Waitable(s.jobs[j].status)
    requires !Reenqueues(e, s, a, j)
    requires j in Apply(e, s, a).jobs && Apply(e, s, a).jobs[j].status == s.jobs[j].status
    ensures NoNewer(Apply(e, s, a), j) <= NoNewer(s, j)
    ensures Sweeps(e, s, a, s.jobs[j].status) ==> |NoNewer(Apply(e, s, a), j)| + e.retryBatch <= |NoNewer(s, j)|
  {
    var s' := Apply(e, s, a);
    WaitingIsUntouched(e, s, a, j);
    StepStamps(e, s, a);
    assert NoNewer(s', j) <= NoNewer(s, j);
    if Sweeps(e, s, a, s.jobs[j].status) { PickedMoveBack(e, s, a, j); }
  }

  lemma PickedMoveBack(e: Env, s: State, a: Action, j: JobId)
    requires Stamps(s) && j in s.jobs && Waitable(s.jobs[j].status)
    requires Sweeps(e, s, a, s.jobs[j].status) && j !in a.event.picked
    requires Untouched(s, Apply(e, s, a), j) && NoNewer(Apply(e, s, a), j) <= NoNewer(s, j)
    ensures |NoNewer(Apply(e, s, a), j)| + e.retryBatch <= |NoNewer(s, j)|
  {
    hide Apply, NoNewer, Stamps, OldestFirst;
    var s', picked := Apply(e, s, a), a.event.picked;
    PickedAreOld(e, s, a, j);
    PickedAreNew(e, s, a, j);
    Subset(NoNewer(s', j) + picked, NoNewer(s, j));
    assert |NoNewer(s', j) + picked| == |NoNewer(s', j)| + |picked|;
  }

  lemma PickedAreOld(e: Env, s: State, a: Action, j: JobId)
    requires j in s.jobs && Sweeps(e, s, a, s.jobs[j].status) && j !in a.event.picked
    ensures |a.event.picked| == e.retryBatch && a.event.picked <= NoNewer(s, j)
  {
    var st, picked := s.jobs[j].status, a.event.picked;
    assert j in ByStatus(s, st);
    Subset(picked + {j}, ByStatus(s, st));
    assert |picked + {j}| == |picked| + 1;
  }

  lemma PickedAreNew(e: Env, s: State, a: Action, j: JobId)
    requires Stamps(s) && j in s.jobs && Waitable(s.jobs[j].status)
    requires Sweeps(e, s, a, s.jobs[j].status) && j !in a.event.picked
    requires Untouched(s, Apply(e, s, a), j)
    ensures NoNewer(Apply(e, s, a), j) !! a.event.picked
  {
    hide Apply, OldestFirst;
    var s', picked := Apply(e, s, a), a.event.picked;
    Restamped(e, s, s.jobs[j].status, picked);
  }

  /** A sweep of waiting jobs stamps all it picked. */
  lemma Restamped(e: Env, s: State, status: JobStatus, picked: set<JobId>)
    requires Waitable(status) && OldestFirst(s, status, e.retryBatch, picked)
    ensures var s' := Apply(e, s, Other(Requeue(status, picked)));
      forall k :: k in picked && k in s'.jobs ==> s'.jobs[k].updated == s.clock + 1
  {
    hide OldestFirst, Fresh, ApplyIngest, ApplyCleanup, ApplyDocument, ApplyTagging;
  }

  lemma Subset<T>(a: set<T>, b: set<T>)
    requires a <= b
    ensures |a| <= |b|
  {
    assert b == a + (b - a);
    assert |a + (b - a)| == |a| + |b - a|;
  }

  /** Throughout the run the job stays at its status and no sweep re-enqueues it. */
  ghost predicate KeepsWaiting(e: Env, s: State, actions: seq<Action>, j: JobId, status: JobStatus)
    decreases |actions|
  {
    && j in s.jobs && s.jobs[j].status == status
    && (actions != [] ==> !Reenqueues(e, s, actions[0], j) && KeepsWaiting(e, Apply(e, s, actions[0]), actions[1..], j, status))
  }

  ghost function SweepCount(e: Env, s: State, actions: seq<Action>, status: JobStatus): nat
    decreases |actions|
  {
    if actions == [] then 0
    else (if Sweeps(e, s, actions[0], status) then 1 else 0) + SweepCount(e, Apply(e, s, actions[0]), actions[1..], status)
  }

  /** Whatever else happens, a pending or rate-limited job with `q` jobs of its status no newer
      than it sees fewer than `q / retryBatch` sweeps before it is re-enqueued (or leaves that
      status): within ceil(q / retryBatch) sweeps its turn has come. */
  lemma {:induction false} SweepFairness(e: Env, s: State, actions: seq<Action>, j: JobId, status: JobStatus)
    requires Inv(e, s) && Stamps(s) && Waitable(status)
    requires KeepsWaiting(e, s, actions, j, status)
    ensures SweepCount(e, s, actions, status) * e.retryBatch < |NoNewer(s, j)|
    decreases |actions|
  {
    if actions == [] {
      assert j in NoNewer(s, j);
    } else {
      var s' := Apply(e, s, actions[0]);
      InvKept(e, s, actions[0]);
      StampsKept(e, s, actions[0]);
      SweepFairness(e, s', actions[1..], j, status);
      FairStep(e, s, actions[0], j, SweepCount(e, s', actions[1..], status));
    }
  }

  lemma FairStep(e: Env, s: State, a: Action, j: JobId, n: nat)
    requires Identities(e, s) && RunningJob(s) && Stamps(s) && j in s.jobs && Waitable(s.jobs[j].status)
    requires !Reenqueues(e, s, a, j)
    requires j in Apply(e, s, a).jobs && Apply(e, s, a).jobs[j].status == s.jobs[j].status
    requires n * e.retryBatch < |NoNewer(Apply(e, s, a), j)|
    ensures (n + if Sweeps(e, s, a, s.jobs[j].status) then 1 else 0) * e.retryBatch < |NoNewer(s, j)|
  {
    hide *;
    LineShrinks(e, s, a, j);
    Subset(NoNewer(Apply(e, s, a), j), NoNewer(s, j));
    assert (n + 1) * e.retryBatch == n * e.retryBatch + e.retryBatch;
  }

  lemma {:induction false} RunKeepsStamps(e: Env, s: State, actions: seq<Action>)
    requires Stamps(s)
    ensures Stamps(Run(e, s, actions))
    decreases |actions|
  {
    if actions != [] {
      StampsKept(e, s, actions[0]);
      RunKeepsStamps(e, Apply(e, s, actions[0]), actions[1..]);
    }
  }

  /** The same from any reachable state. */
  lemma SweepFairnessFromAnywhere(e: Env, s: State, actions: seq<Action>, j: JobId, status: JobStatus)
    requires Reachable(e, s) && Waitable(status) && KeepsWaiting(e, s, actions, j, status)
    ensures SweepCount(e, s, actions, status) * e.retryBatch < |NoNewer(s, j)|
  {
    ReachableInv(e, s);
    var s0, past :| Start(s0) && s == Run(e, s0, past);
    RunKeepsStamps(e, s0, past);
    SweepFairness(e, s, actions, j, status);
  }
}
