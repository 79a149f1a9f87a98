/** How often an ingest is tried: one that keeps failing in ways that may be retried is attempted
    exactly four times, and then its job is failed with nothing left on the queue. */
module ProtocolRetries {
  import opened Ids
  import opened Protocol
  import opened ProtocolSafety
  import opened ProtocolRuns
  import opened ProtocolLiveness
  import Tags

  /** Steps of an ingest that never finishes, is never rate limited and never fails for good, and
      whatever keys and configuration do. */
  ghost predicate FailingStep(a: Action) {
    match a
    case IngestAct(step) => step.Claim? || step.FirstBeat? || step.Parse? || step.Batch? || step.LoopEnd? || step.FailRetry?
    case Other(event) => event.Take? || event.ExpireBeat? || event.LiftPause? || event.SetConfig?
    case _ => false
  }

  /** This step claims the job: an attempt begins. */
  ghost function ClaimsNow(e: Env, s: State, a: Action): nat {
    if s.worker.OnIngest? && s.worker.phase.Opened? && Apply(e, s, a).worker.OnIngest? && Apply(e, s, a).worker.phase.Claimed?
    then 1 else 0
  }

  ghost function Attempts(e: Env, s: State, actions: seq<Action>): nat
    decreases |actions|
  {
    if actions == [] then 0 else ClaimsNow(e, s, actions[0]) + Attempts(e, Apply(e, s, actions[0]), actions[1..])
  }

  /** The row is there, not done, and not processing with a heartbeat. */
  ghost predicate Claimable(s: State, j: JobId) {
    j in s.jobs && s.jobs[j].status != Done && (s.jobs[j].status == Processing ==> j !in s.beats)
  }

  /** The delivery `m` with `r` retries is all there is, waiting or running. */
  ghost predicate Waiting(s: State, m: Delivery, r: nat) {
    s.worker.Idle? && s.queue == multiset{m.(retries := r)}
  }

  ghost predicate Running(s: State, m: Delivery, r: nat) {
    s.queue == multiset{} && s.worker.OnIngest? && Held(s.worker) == m.(retries := r) && !s.worker.phase.Closing?
  }

  /** Where the tries stand after `n` attempts, the delivery having `r` retries by now. */
  ghost predicate Trying(s: State, m: Delivery, r: nat, n: nat)
    requires m.task.Ingest? && m.retries <= MAX_RETRIES
  {
    var j := m.task.job;
    && j in s.jobs && m.retries <= r <= MAX_RETRIES
    && ((Waiting(s, m, r) && Claimable(s, j) && n == r - m.retries)
        || (Running(s, m, r) && s.worker.phase.Opened? && Claimable(s, j) && n == r - m.retries)
        || (Running(s, m, r) && !s.worker.phase.Opened? && n == r - m.retries + 1)
        || (Drained(s) && s.jobs[j].status == Failed && n == MAX_RETRIES + 1 - m.retries))
  }

  // ---- one step ------------------------------------------------------------------------

  /** A step that touches neither the job rows nor the queue nor the worker, and adds no heartbeat. */
  ghost predicate Idles(s: State, s': State) {
    s'.jobs == s.jobs && s'.queue == s.queue && s'.worker == s.worker && s'.beats <= s.beats
  }

  lemma IdlingKeeps(s: State, s': State, m: Delivery, r: nat, n: nat)
    requires m.task.Ingest? && m.retries <= MAX_RETRIES && Trying(s, m, r, n) && Idles(s, s')
    ensures Trying(s', m, r, n)
  {
  }

  lemma KeysIdle(e: Env, s: State, a: Event)
    requires a.ExpireBeat? || a.LiftPause? || a.SetConfig?
    ensures Idles(s, ApplyEvent(e, s, a))
  {
  }

  lemma NoTask(e: Env, s: State, a: IngestStep)
    requires !s.worker.OnIngest?
    ensures ApplyIngest(e, s, a) == s
  {
    hide Upsert, Todo, Tags.Effective, Settle, Skips;
  }

  lemma TryTaken(e: Env, s: State, m: Delivery, r: nat, n: nat, x: Delivery)
    requires m.task.Ingest? && m.retries <= MAX_RETRIES && Trying(s, m, r, n)
    ensures Trying(DoTake(s, x), m, r, n)
  {
    if Waiting(s, m, r) && x == m.(retries := r) {
      assert multiset{x} - multiset{x} == multiset{};
    }
  }

  lemma TryClaimed(e: Env, s: State, m: Delivery, r: nat, n: nat)
    requires m.task.Ingest? && m.retries <= MAX_RETRIES && Trying(s, m, r, n) && Running(s, m, r)
    ensures Trying(DoClaim(s), m, r, n + if s.worker.phase.Opened? then 1 else 0)
    ensures s.worker.phase.Opened? <==> s.worker.phase.Opened? && DoClaim(s).worker.OnIngest? && DoClaim(s).worker.phase.Claimed?
  {
  }

  /** The attempt goes on: same job row, same delivery, never back to the start. */
  lemma TryGoesOn(e: Env, s: State, m: Delivery, r: nat, n: nat, a: IngestStep)
    requires m.task.Ingest? && m.retries <= MAX_RETRIES && Trying(s, m, r, n) && Running(s, m, r)
    requires a.FirstBeat? || a.Parse? || a.Batch? || a.LoopEnd?
    ensures Trying(ApplyIngest(e, s, a), m, r, n)
  {
    hide Upsert, Todo, Tags.Effective;
    if s.worker.phase.Opened? { StillOpened(e, s, a); }
  }

  lemma StillOpened(e: Env, s: State, a: IngestStep)
    requires s.worker.OnIngest? && s.worker.phase.Opened? && !a.Claim?
    ensures ApplyIngest(e, s, a) == s
  {
    hide Upsert, Todo, Tags.Effective, Settle;
  }

  /** A failure gives the delivery back with one more retry, or ends the tries. */
  lemma TryFails(e: Env, s: State, m: Delivery, r: nat, n: nat) returns (r': nat)
    requires m.task.Ingest? && m.retries <= MAX_RETRIES && Trying(s, m, r, n) && Running(s, m, r)
    ensures m.retries <= r' <= MAX_RETRIES && Trying(DoFailRetry(s), m, r', n)
  {
    r' := if CanRaise(s) && r < MAX_RETRIES then r + 1 else r;
    assert multiset{} + Retried(s.worker) == Retried(s.worker);
    assert Held(s.worker).(retries := r + 1) == m.(retries := r + 1);
  }

  lemma TryKept(e: Env, s: State, m: Delivery, r: nat, n: nat, a: Action) returns (r': nat)
    requires m.task.Ingest? && m.retries <= MAX_RETRIES && Trying(s, m, r, n) && FailingStep(a)
    ensures Trying(Apply(e, s, a), m, r', n + ClaimsNow(e, s, a))
  {
    hide Trying, DoTake, DoClaim, DoFailRetry, DoFirstBeat, DoParse, DoBatch, DoLoopEnd;
    r' := r;
    NotIdle(s, m, r, n);
    match a
    case Other(event) =>
      if event.Take? {
        TryTaken(e, s, m, r, n, event.delivery);
        TakenIsOpened(s, event.delivery);
      } else {
        KeysIdle(e, s, event);
        IdlingKeeps(s, Apply(e, s, a), m, r, n);
      }
    case IngestAct(step) =>
      if !s.worker.OnIngest? {
        hide ApplyIngest;
        NoTask(e, s, step);
      } else if step.Claim? {
        TryClaimed(e, s, m, r, n);
      } else if step.FailRetry? {
        r' := TryFails(e, s, m, r, n);
        FailureIsNoClaim(s);
      } else {
        hide ApplyIngest;
        TryGoesOn(e, s, m, r, n, step);
        if s.worker.phase.Opened? { StillOpened(e, s, step); }
      }
  }

  lemma NotIdle(s: State, m: Delivery, r: nat, n: nat)
    requires m.task.Ingest? && m.retries <= MAX_RETRIES && Trying(s, m, r, n)
    ensures s.worker.OnIngest? ==> Running(s, m, r)
  {
  }

  lemma TakenIsOpened(s: State, x: Delivery)
    ensures DoTake(s, x).worker == s.worker || s.worker.Idle?
  {
  }

  lemma FailureIsNoClaim(s: State)
    ensures DoFailRetry(s) == s || DoFailRetry(s).worker.Idle?
  {
    hide SetStatus, Retried;
  }

  // ---- whole runs ----------------------------------------------------------------------

  lemma {:induction false} RunTries(e: Env, s: State, actions: seq<Action>, m: Delivery, r: nat, n: nat) returns (r': nat)
    requires m.task.Ingest? && m.retries <= MAX_RETRIES && Trying(s, m, r, n)
    requires forall a :: a in actions ==> FailingStep(a)
    ensures Trying(Run(e, s, actions), m, r', n + Attempts(e, s, actions))
    decreases |actions|
  {
    hide Apply, Trying, FailingStep, ClaimsNow;
    r' := r;
    if actions != [] {
      var a := actions[0];
      assert FailingStep(a);
      var r1 := TryKept(e, s, m, r, n, a);
      r' := RunTries(e, Apply(e, s, a), actions[1..], m, r1, n + ClaimsNow(e, s, a));
    }
  }

  /** However an ingest that keeps failing is interleaved with keys and configuration, once nothing is
      left to do it has been attempted exactly four times, less the retries it began with, and its job
      is failed. */
  lemma FailingIngestIsTriedFourTimes(e: Env, s: State, actions: seq<Action>, m: Delivery)
    requires s.worker.Idle? && s.queue == multiset{m} && m.task.Ingest? && m.retries <= 3 && Claimable(s, m.task.job)
    requires forall a :: a in actions ==> FailingStep(a)
    ensures var t := Run(e, s, actions);
      Drained(t) ==>
        Attempts(e, s, actions) == 4 - m.retries && m.task.job in t.jobs && t.jobs[m.task.job].status == Failed
  {
    hide Run, FailingStep, Attempts;
    assert m.(retries := m.retries) == m;
    var r := RunTries(e, s, actions, m, m.retries, 0);
  }

  /** Such a run to its end exists. */
  lemma {:induction false} FailingRunExists(e: Env, s: State, m: Delivery) returns (actions: seq<Action>)
    requires s.worker.Idle? && s.queue == multiset{m} && m.task.Ingest? && m.retries <= 3 && Claimable(s, m.task.job)
    ensures (forall a :: a in actions ==> FailingStep(a)) && Drained(Run(e, s, actions))
    decreases 3 - m.retries
  {
    hide Run, Apply;
    actions := [Other(Take(m)), IngestAct(Claim), IngestAct(FirstBeat), IngestAct(FailRetry)];
    var t := OneTry(e, s, m);
    if m.retries < 3 {
      var rest := FailingRunExists(e, t, m.(retries := m.retries + 1));
      RunAppend(e, s, actions, rest);
      actions := actions + rest;
    }
  }

  lemma OneTry(e: Env, s: State, m: Delivery) returns (t: State)
    requires s.worker.Idle? && s.queue == multiset{m} && m.task.Ingest? && m.retries <= 3 && Claimable(s, m.task.job)
    ensures t == Run(e, s, [Other(Take(m)), IngestAct(Claim), IngestAct(FirstBeat), IngestAct(FailRetry)])
    ensures t.worker.Idle? && Claimable(t, m.task.job)
    ensures t.queue == if m.retries < 3 then multiset{m.(retries := m.retries + 1)} else multiset{}
  {
    hide Run, Apply;
    FourSteps(e, s, m);
    hide DoTake, DoClaim, DoFirstBeat, DoFailRetry, Claimable;
    var s1 := DoTake(s, m);
    OpenedByTake(s, m);
    var s2 := DoClaim(s1);
    ClaimedThen(s1, m);
    var s3 := DoFirstBeat(s2);
    BeatenThen(s2, m);
    t := DoFailRetry(s3);
    FailedThen(s3, m);
  }

  lemma FourSteps(e: Env, s: State, m: Delivery)
    ensures Run(e, s, [Other(Take(m)), IngestAct(Claim), IngestAct(FirstBeat), IngestAct(FailRetry)]) ==
      DoFailRetry(DoFirstBeat(DoClaim(DoTake(s, m))))
  {
    hide Run, DoTake, DoClaim, DoFirstBeat, DoFailRetry;
    var a, b, c, d := Other(Take(m)), IngestAct(Claim), IngestAct(FirstBeat), IngestAct(FailRetry);
    assert [a, b, c, d] == [a, b, c] + [d];
    RunThree(e, s, a, b, c);
    RunSnoc(e, s, [a, b, c], d);
  }

  lemma ClaimedThen(s: State, m: Delivery)
    requires m.task.Ingest? && Running(s, m, m.retries) && s.worker.phase.Opened? && Claimable(s, m.task.job)
    ensures var s' := DoClaim(s); Running(s', m, m.retries) && s'.worker.phase.Claimed? && m.task.job in s'.jobs
  {
  }

  lemma BeatenThen(s: State, m: Delivery)
    requires m.task.Ingest? && Running(s, m, m.retries) && s.worker.phase.Claimed? && m.task.job in s.jobs
    ensures var s' := DoFirstBeat(s); Running(s', m, m.retries) && CanRaise(s') && m.task.job in s'.jobs
  {
  }

  lemma FailedThen(s: State, m: Delivery)
    requires m.task.Ingest? && Running(s, m, m.retries) && CanRaise(s) && m.task.job in s.jobs && m.retries <= 3
    ensures var t := DoFailRetry(s);
      && t.worker.Idle? && Claimable(t, m.task.job)
      && t.queue == if m.retries < 3 then multiset{m.(retries := m.retries + 1)} else multiset{}
  {
    assert m.(retries := m.retries) == m;
    assert multiset{} + Retried(s.worker) == Retried(s.worker);
  }

  lemma OpenedByTake(s: State, m: Delivery)
    requires s.worker.Idle? && s.queue == multiset{m} && m.task.Ingest?
    ensures Running(DoTake(s, m), m, m.retries) && DoTake(s, m).worker.phase.Opened?
    ensures Claimable(DoTake(s, m), m.task.job) <==> Claimable(s, m.task.job)
  {
    assert multiset{m} - multiset{m} == multiset{};
    assert m.(retries := m.retries) == m;
  }

  /** A worker that dies on a delivery it has just taken leaves everything as it was. */
  lemma CrashUndoesTake(e: Env, s: State, d: Delivery)
    requires s.worker.Idle? && d in s.queue
    ensures Run(e, s, [Other(Take(d)), Other(Crash)]) == s
  {
    hide Apply;
    var taken := DoTake(s, d);
    assert s.queue - multiset{d} + multiset{d} == s.queue;
    TakeThenCrash(e, s, d);
    assert [Other(Take(d)), Other(Crash)][1..] == [Other(Crash)] && [Other(Crash)][1..] == [];
    assert Run(e, s, [Other(Take(d)), Other(Crash)]) == Run(e, taken, [Other(Crash)]);
    assert Run(e, taken, [Other(Crash)]) == Run(e, s, []);
  }

  lemma TakeThenCrash(e: Env, s: State, d: Delivery)
    requires s.worker.Idle? && d in s.queue && s.queue - multiset{d} + multiset{d} == s.queue
    ensures Apply(e, s, Other(Take(d))) == DoTake(s, d)
    ensures Apply(e, DoTake(s, d), Other(Crash)) == s
  {
  }
}
