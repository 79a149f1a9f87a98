/** No job is stranded: with a provider that no longer answers 429 and a worker that no longer
    dies, draining the queue terminates, and finitely many sweep-and-drain rounds settle every
    pending, stale processing or rate-limited job. */
module ProtocolLiveness {
  import opened Ids
  import opened Protocol
  import opened ProtocolSafety
  import opened ProtocolDeletes
  import opened ProtocolTags
  import opened ProtocolResume
  import opened ProtocolRuns
  import opened ProtocolSweeps

  /** What the worker does while the provider is healthy and nothing kills it. An embedding or
      parse may still fail, for good or to be retried. */
  ghost predicate Healthy(a: Action) {
    match a
    case IngestAct(step) => !step.Hit429?
    case Cleanup(_) => true
    case Other(event) => event.Take?
    case _ => false
  }

  // ---- draining terminates -------------------------------------------------------------

  ghost function Cost(d: Delivery): nat {
    if d.retries > MAX_RETRIES then 0 else 2 * (MAX_RETRIES + 1 - d.retries)
  }

  /** Twice the sum of (4 - retries) over the queued deliveries. */
  ghost function QueueCost(q: multiset<Delivery>): nat
    decreases |q|
  {
    if q == multiset{} then 0 else var d :| d in q; Cost(d) + QueueCost(q - multiset{d})
  }

  lemma {:induction false} QueueCostRemove(q: multiset<Delivery>, d: Delivery)
    requires d in q
    ensures QueueCost(q) == Cost(d) + QueueCost(q - multiset{d})
    decreases |q|
  {
    var c :| c in q && QueueCost(q) == Cost(c) + QueueCost(q - multiset{c});
    if c != d {
      QueueCostRemove(q - multiset{c}, d);
      QueueCostRemove(q - multiset{d}, c);
      assert q - multiset{c} - multiset{d} == q - multiset{d} - multiset{c};
    }
  }

  lemma QueueCostAdd(q: multiset<Delivery>, d: Delivery)
    ensures QueueCost(q + multiset{d}) == Cost(d) + QueueCost(q)
  {
    QueueCostRemove(q + multiset{d}, d);
    assert q + multiset{d} - multiset{d} == q;
  }

  /** The queued work, and the retries the held delivery still stands for. */
  ghost function Fuel(s: State): nat {
    QueueCost(s.queue) + if s.worker.Idle? || s.worker.retries > MAX_RETRIES then 0 else 2 * (MAX_RETRIES + 1 - s.worker.retries) - 1
  }

  /** Steps the held delivery can still take. */
  ghost function Steps(e: Env, w: Worker): nat {
    match w
    case Idle => 0
    case OnIngest(_, doc, _, _, phase) => (
      match phase
      case Opened(_) => |e.parse(doc)| + 6
      case Claimed(_) => |e.parse(doc)| + 5
      case Parsing(_) => |e.parse(doc)| + 4
      case Embedding(_, _, todo) => |todo| + 3
      case Storing(_, _) => 2
      case Closing => 1)
    case OnSync(_, _, _, read) => if read.None? then 2 else 1
    case OnDelete(_, _, _, at) => (
      match at
      case DelStart => 4
      case ChunksGone => 3
      case RowsGone => 2
      case Checked(_) => 1)
  }

  lemma {:induction false} TodoLength(store: Store, col: ColId, doc: DocId, model: Model, n: nat)
    ensures |Todo(store, col, doc, model, n)| <= n
  {
    if n > 0 { TodoLength(store, col, doc, model, n - 1); }
  }

  ghost predicate Less(e: Env, s': State, s: State) {
    Fuel(s') < Fuel(s) || (Fuel(s') == Fuel(s) && Steps(e, s'.worker) < Steps(e, s.worker))
  }

  /** Giving the delivery back with one more retry, or dropping it, uses up fuel. */
  lemma LettingGo(e: Env, s: State, s': State)
    requires !s.worker.Idle? && s.worker.retries <= MAX_RETRIES && s'.worker.Idle?
    requires s'.queue == s.queue || s'.queue == s.queue + Retried(s.worker)
    ensures Fuel(s') < Fuel(s)
  {
    if s.worker.retries < MAX_RETRIES {
      QueueCostAdd(s.queue, Held(s.worker).(retries := s.worker.retries + 1));
    }
    assert s.queue + multiset{} == s.queue;
  }

  lemma IngestProgress(e: Env, s: State, a: IngestStep)
    requires Identities(e, s) && ApplyIngest(e, s, a) != s
    ensures Less(e, ApplyIngest(e, s, a), s)
  {
    var s' := ApplyIngest(e, s, a);
    IngestStepShape(e, s, a);
    if s'.worker.Idle? {
      assert TaskOk(s, Held(s.worker));
      LettingGo(e, s, s');
    } else {
      IngestAdvances(e, s, a);
    }
  }

  /** The task is kept, and one step nearer its end. */
  ghost predicate Advances(e: Env, s: State, s': State) {
    s'.queue == s.queue && !s.worker.Idle? && !s'.worker.Idle? && s'.worker.retries == s.worker.retries
      && Steps(e, s'.worker) < Steps(e, s.worker)
  }

  lemma IngestAdvances(e: Env, s: State, a: IngestStep)
    requires ApplyIngest(e, s, a) != s && !ApplyIngest(e, s, a).worker.Idle?
    ensures Advances(e, s, ApplyIngest(e, s, a))
  {
    hide ApplyIngest, Advances;
    if a.Parse? {
      ParseAdvances(e, s);
    } else if a.Batch? || a.LoopEnd? || a.MarkDone? {
      LoopAdvances(e, s, a);
    } else {
      OthersAdvance(e, s, a);
    }
  }

  lemma ParseAdvances(e: Env, s: State)
    requires ApplyIngest(e, s, Parse) != s
    ensures Advances(e, s, ApplyIngest(e, s, Parse))
  {
    hide Todo, Tags.Effective;
    TodoLength(s.store, s.worker.col, s.worker.doc, s.worker.phase.cfg.model, |e.parse(s.worker.doc)|);
  }

  lemma LoopAdvances(e: Env, s: State, a: IngestStep)
    requires ApplyIngest(e, s, a) != s && (a.Batch? || a.LoopEnd? || a.MarkDone?)
    ensures Advances(e, s, ApplyIngest(e, s, a))
  {
    hide Upsert;
  }

  lemma OthersAdvance(e: Env, s: State, a: IngestStep)
    requires ApplyIngest(e, s, a) != s && !ApplyIngest(e, s, a).worker.Idle?
    requires !a.Parse? && !a.Batch? && !a.LoopEnd? && !a.MarkDone?
    ensures Advances(e, s, ApplyIngest(e, s, a))
  {
    hide ApplyIngest, Advances;
    if a.Claim? || a.FirstBeat? { StartAdvances(e, s, a); } else { EndLetsGo(e, s, a); }
  }

  lemma StartAdvances(e: Env, s: State, a: IngestStep)
    requires ApplyIngest(e, s, a) != s && !ApplyIngest(e, s, a).worker.Idle? && (a.Claim? || a.FirstBeat?)
    ensures Advances(e, s, ApplyIngest(e, s, a))
  {
    hide ApplyIngest, Advances;
    if a.Claim? { ClaimAdvances(e, s); } else { FirstBeatAdvances(e, s); }
  }

  lemma ClaimAdvances(e: Env, s: State)
    requires ApplyIngest(e, s, Claim) != s && !ApplyIngest(e, s, Claim).worker.Idle?
    ensures Advances(e, s, ApplyIngest(e, s, Claim))
  {
    hide Skips, SetStatus;
    SetStatusTouches(s, s.worker.job, Processing);
  }

  lemma SetStatusTouches(s: State, j: JobId, status: JobStatus)
    ensures var s' := SetStatus(s, j, status); s' == s.(jobs := s'.jobs, clock := s'.clock)
  {
  }

  lemma FirstBeatAdvances(e: Env, s: State)
    requires ApplyIngest(e, s, FirstBeat) != s
    ensures Advances(e, s, ApplyIngest(e, s, FirstBeat))
  {
  }

  lemma EndLetsGo(e: Env, s: State, a: IngestStep)
    requires a.Finish? || a.Hit429? || a.FailRetry? || a.FailTerminal?
    ensures ApplyIngest(e, s, a) == s || ApplyIngest(e, s, a).worker.Idle?
  {
    hide SetStatus, Retried;
  }

  lemma CleanupProgress(e: Env, s: State, a: CleanupStep)
    requires Identities(e, s) && ApplyCleanup(e, s, a) != s
    ensures Less(e, ApplyCleanup(e, s, a), s)
  {
    var s' := ApplyCleanup(e, s, a);
    CleanupStepShape(e, s, a);
    if s'.worker.Idle? {
      assert TaskOk(s, Held(s.worker));
      LettingGo(e, s, s');
    }
  }

  /** Every effective step of a healthy drain makes the pair (queued retries, steps left) smaller. */
  lemma DrainingTerminates(e: Env, s: State, a: Action)
    requires Identities(e, s) && Healthy(a) && Apply(e, s, a) != s
    ensures Less(e, Apply(e, s, a), s)
  {
    match a
    case IngestAct(step) => IngestProgress(e, s, step);
    case Cleanup(work) => CleanupProgress(e, s, work);
    case Other(event) =>
      var d := event.delivery;
      assert TaskOk(s, d);
      QueueCostRemove(s.queue, d);
  }

  ghost predicate Drained(s: State) {
    s.worker.Idle? && s.queue == multiset{}
  }

  /** A worker that still has something to do can do it. */
  ghost function NextStep(s: State): Action
    requires !Drained(s)
  {
    match s.worker
    case Idle => (var d :| d in s.queue; Other(Take(d)))
    case OnIngest(_, _, _, _, phase) => (
      match phase
      case Opened(_) => IngestAct(Claim)
      case Claimed(_) => IngestAct(FirstBeat)
      case Parsing(_) => IngestAct(Parse)
      case Embedding(cfg, _, todo) => IngestAct(if cfg.batchSize == 0 then FailRetry else if cfg.batchSize > 0 && todo != [] then Batch else LoopEnd)
      case Storing(_, _) => IngestAct(MarkDone)
      case Closing => IngestAct(Finish))
    case OnSync(_, _, _, read) => Cleanup(if read.None? then ReadTags else WriteTags)
    case OnDelete(_, _, _, at) => (
      match at
      case DelStart => Cleanup(DeleteChunks)
      case ChunksGone => Cleanup(DeleteRows)
      case RowsGone => Cleanup(CheckEmpty)
      case Checked(_) => Cleanup(DropCollection))
  }

  lemma NeverStuck(e: Env, s: State)
    requires !Drained(s)
    ensures Healthy(NextStep(s)) && Apply(e, s, NextStep(s)) != s
  {
    hide Apply;
    if s.worker.OnIngest? { IngestNeverStuck(e, s); } else { OtherNeverStuck(e, s); }
  }

  lemma IngestNeverStuck(e: Env, s: State)
    requires s.worker.OnIngest?
    ensures Healthy(NextStep(s)) && Apply(e, s, NextStep(s)) != s
  {
    hide DoClaim, DoFirstBeat, DoParse, DoBatch, DoLoopEnd, DoMarkDone, DoFinish, DoFailRetry;
    match s.worker.phase
    case Opened(_) => ClaimMoves(s);
    case Claimed(_) => FirstBeatMoves(s);
    case Parsing(_) => ParseMoves(e, s);
    case Embedding(_, _, _) => EmbeddingMoves(e, s);
    case Storing(_, _) => MarkDoneMoves(e, s);
    case Closing => FinishMoves(s);
  }

  lemma ClaimMoves(s: State)
    requires s.worker.OnIngest? && s.worker.phase.Opened?
    ensures DoClaim(s).worker != s.worker
  {
    hide Skips;
  }

  lemma FirstBeatMoves(s: State)
    requires s.worker.OnIngest? && s.worker.phase.Claimed?
    ensures DoFirstBeat(s).worker != s.worker
  {
  }

  lemma ParseMoves(e: Env, s: State)
    requires s.worker.OnIngest? && s.worker.phase.Parsing?
    ensures DoParse(e, s).worker != s.worker
  {
    hide Todo, Tags.Effective;
  }

  lemma EmbeddingMoves(e: Env, s: State)
    requires s.worker.OnIngest? && s.worker.phase.Embedding?
    ensures var p := s.worker.phase;
      && (p.cfg.batchSize == 0 ==> DoFailRetry(s).worker != s.worker)
      && (p.cfg.batchSize > 0 && p.todo != [] ==> DoBatch(e, s).worker != s.worker)
      && (p.cfg.batchSize < 0 || (p.cfg.batchSize > 0 && p.todo == []) ==> DoLoopEnd(s).worker != s.worker)
  {
    hide Upsert, Retried;
    var b := BatchLength(s.worker.phase.cfg, s.worker.phase.todo);
    assert b > 0 ==> |s.worker.phase.todo[b..]| < |s.worker.phase.todo|;
  }

  lemma MarkDoneMoves(e: Env, s: State)
    requires s.worker.OnIngest? && s.worker.phase.Storing?
    ensures DoMarkDone(e, s).worker != s.worker
  {
  }

  lemma FinishMoves(s: State)
    requires s.worker.OnIngest? && s.worker.phase.Closing?
    ensures DoFinish(s).worker != s.worker
  {
  }

  lemma OtherNeverStuck(e: Env, s: State)
    requires !Drained(s) && !s.worker.OnIngest?
    ensures Healthy(NextStep(s)) && Apply(e, s, NextStep(s)) != s
  {
    hide SetTags, JobsWithout, Tags.Effective, Tags.DropDocument, Retried;
  }

  ghost predicate AllHealthy(actions: seq<Action>) {
    forall a :: a in actions ==> Healthy(a)
  }

  lemma {:induction false} DrainExists(e: Env, s: State) returns (actions: seq<Action>)
    requires Inv(e, s)
    ensures AllHealthy(actions) && Drained(Run(e, s, actions))
    decreases Fuel(s), Steps(e, s.worker)
  {
    actions := [];
    if !Drained(s) {
      NeverStuck(e, s);
      var a := NextStep(s);
      InvKept(e, s, a);
      DrainingTerminates(e, s, a);
      var rest := DrainExists(e, Apply(e, s, a));
      actions := [a] + rest;
      assert actions[1..] == rest;
    }
  }

  // ---- what a drain settles ------------------------------------------------------------

  ghost predicate Settled(s: State, j: JobId) {
    j in s.jobs ==> s.jobs[j].status == Done || s.jobs[j].status == Failed
  }

  ghost predicate Queued(s: State, j: JobId) {
    exists d :: d in s.queue && d.task.Ingest? && d.task.job == j
  }

  /** Settled, or a delivery of it is queued or running. */
  ghost predicate InHand(s: State, j: JobId) {
    Settled(s, j) || Queued(s, j) || (s.worker.OnIngest? && s.worker.job == j)
  }

  /** Only the running job has a heartbeat. */
  ghost predicate OwnBeat(s: State) {
    forall j :: j in s.beats ==> PastClaim(s) && s.worker.job == j
  }

  lemma QueuedKept(s: State, s': State, j: JobId)
    requires s.queue <= s'.queue
    ensures Queued(s, j) ==> Queued(s', j)
  {
    if Queued(s, j) {
      var d :| d in s.queue && d.task.Ingest? && d.task.job == j;
      assert d in s'.queue;
    }
  }

  lemma IngestLeavesHandled(e: Env, s: State, a: IngestStep)
    requires RunningJob(s) && OwnBeat(s) && s.worker.OnIngest? && !a.Hit429?
    ensures var s' := ApplyIngest(e, s, a);
      && OwnBeat(s') && s'.paused == s.paused
      && (s'.worker.Idle? ==> Settled(s', s.worker.job))
      && (forall j :: j != s.worker.job ==> Settled(s', j) == Settled(s, j))
      && (forall j :: j != s.worker.job && j in s'.jobs ==> j in s.jobs && s'.jobs[j].status == s.jobs[j].status)
  {
    var s' := ApplyIngest(e, s, a);
    IngestStepShape(e, s, a);
    IngestBeats(e, s, a);
  }

  /** Heartbeats stay the running job's own, and letting go of a task settles its job. */
  ghost predicate BeatsKept(s: State, s': State)
    requires s.worker.OnIngest?
  {
    OwnBeat(s') && s'.paused == s.paused && (s'.worker.Idle? ==> Settled(s', s.worker.job))
  }

  lemma IngestBeats(e: Env, s: State, a: IngestStep)
    requires RunningJob(s) && OwnBeat(s) && s.worker.OnIngest? && !a.Hit429?
    ensures BeatsKept(s, ApplyIngest(e, s, a))
  {
    hide ApplyIngest, BeatsKept, RunningJob, OwnBeat;
    if a.FailRetry? || a.FailTerminal? {
      FailureBeats(e, s, a);
    } else if a.Claim? || a.Finish? {
      EndBeats(e, s, a);
    } else {
      RunningBeats(e, s, a);
    }
  }

  lemma FailureBeats(e: Env, s: State, a: IngestStep)
    requires OwnBeat(s) && s.worker.OnIngest? && (a.FailRetry? || a.FailTerminal?)
    ensures BeatsKept(s, ApplyIngest(e, s, a))
  {
    hide Settle, Retried;
    SettleIs(s, Failed);
  }

  lemma EndBeats(e: Env, s: State, a: IngestStep)
    requires RunningJob(s) && OwnBeat(s) && s.worker.OnIngest? && (a.Claim? || a.Finish?)
    ensures BeatsKept(s, ApplyIngest(e, s, a))
  {
  }

  lemma RunningBeats(e: Env, s: State, a: IngestStep)
    requires OwnBeat(s) && s.worker.OnIngest?
    requires a.FirstBeat? || a.Parse? || a.Batch? || a.LoopEnd? || a.MarkDone?
    ensures BeatsKept(s, ApplyIngest(e, s, a))
  {
    hide ApplyIngest, OwnBeat;
    RunningKeeps(e, s, a);
    OwnBeatKept(s, ApplyIngest(e, s, a));
  }

  /** A running ingest beats for its own job, stays the running one and pauses nothing. */
  lemma RunningKeeps(e: Env, s: State, a: IngestStep)
    requires s.worker.OnIngest?
    requires a.FirstBeat? || a.Parse? || a.Batch? || a.LoopEnd? || a.MarkDone?
    ensures var s' := ApplyIngest(e, s, a);
      s' == s || (s'.beats == s.beats + {s.worker.job} && s'.paused == s.paused && PastClaim(s') && s'.worker.job == s.worker.job)
  {
    hide Upsert, Todo, Tags.Effective;
  }

  lemma OwnBeatKept(s: State, s': State)
    requires OwnBeat(s) && s.worker.OnIngest?
    requires s' == s || (s'.beats == s.beats + {s.worker.job} && PastClaim(s') && s'.worker.job == s.worker.job)
    ensures OwnBeat(s')
  {
  }

  /** A healthy step keeps every job that is in hand in hand, and leaves the others as they were. */
  ghost predicate HandKept(s: State, s': State) {
    && OwnBeat(s') && s'.paused == s.paused
    && (forall j :: InHand(s, j) ==> InHand(s', j))
    && (forall j :: !InHand(s', j) ==> !InHand(s, j) && j in s.jobs && j in s'.jobs && s'.jobs[j].status == s.jobs[j].status)
  }

  lemma HandKeptIngest(e: Env, s: State, a: IngestStep)
    requires Inv(e, s) && OwnBeat(s) && !a.Hit429?
    ensures HandKept(s, ApplyIngest(e, s, a))
  {
    hide ApplyIngest, Queued, Identities, Final, TagCopy, Resumable;
    var s' := ApplyIngest(e, s, a);
    IngestStepShape(e, s, a);
    if s' != s {
      IngestLeavesHandled(e, s, a);
      forall j ensures Queued(s, j) ==> Queued(s', j) { QueuedKept(s, s', j); }
    }
  }

  lemma HandKeptCleanup(e: Env, s: State, a: CleanupStep)
    requires Inv(e, s) && OwnBeat(s)
    ensures HandKept(s, ApplyCleanup(e, s, a))
  {
    hide ApplyCleanup, Inv, Queued;
    var s' := ApplyCleanup(e, s, a);
    CleanupStepShape(e, s, a);
    CleanupKeepsKeys(e, s, a);
    forall j ensures Queued(s, j) ==> Queued(s', j) { QueuedKept(s, s', j); }
  }

  lemma CleanupKeepsKeys(e: Env, s: State, a: CleanupStep)
    ensures ApplyCleanup(e, s, a).paused == s.paused && ApplyCleanup(e, s, a).beats == s.beats
    ensures s.worker.OnIngest? ==> ApplyCleanup(e, s, a) == s
  {
  }

  lemma HandKeptTake(s: State, d: Delivery)
    requires OwnBeat(s)
    ensures HandKept(s, DoTake(s, d))
  {
    var s' := DoTake(s, d);
    if s' != s {
      forall j ensures Queued(s', j) ==> Queued(s, j) {
        if Queued(s', j) {
          var x :| x in s'.queue && x.task.Ingest? && x.task.job == j;
          assert x in s.queue;
        }
      }
      forall j | Queued(s, j) ensures Queued(s', j) || (s'.worker.OnIngest? && s'.worker.job == j) {
        var x :| x in s.queue && x.task.Ingest? && x.task.job == j;
        if x != d { assert x in s'.queue; }
      }
    }
  }

  lemma {:induction false} DrainKeepsHand(e: Env, s: State, actions: seq<Action>)
    requires Inv(e, s) && OwnBeat(s) && AllHealthy(actions)
    ensures HandKept(s, Run(e, s, actions))
    decreases |actions|
  {
    if actions != [] {
      var a := actions[0];
      assert Healthy(a);
      InvKept(e, s, a);
      match a {
        case IngestAct(step) => HandKeptIngest(e, s, step);
        case Cleanup(work) => HandKeptCleanup(e, s, work);
        case Other(event) => HandKeptTake(s, event.delivery);
      }
      assert AllHealthy(actions[1..]);
      DrainKeepsHand(e, Apply(e, s, a), actions[1..]);
    }
  }

  /** A completed healthy drain settles every job that was in hand and leaves the others alone. */
  lemma DrainSettles(e: Env, s: State, actions: seq<Action>)
    requires Inv(e, s) && OwnBeat(s) && AllHealthy(actions) && Drained(Run(e, s, actions))
    ensures var s' := Run(e, s, actions);
      && Inv(e, s') && s'.beats == {} && s'.paused == s.paused
      && (forall j :: InHand(s, j) ==> Settled(s', j))
      && (forall j :: !Settled(s', j) ==> !InHand(s, j) && j in s.jobs && s'.jobs[j].status == s.jobs[j].status)
  {
    DrainKeepsHand(e, s, actions);
    RunKeepsInv(e, s, actions);
    var s' := Run(e, s, actions);
    assert forall j :: InHand(s', j) == Settled(s', j);
    assert forall j :: j !in s'.beats;
  }

  // ---- sweep-and-drain rounds ----------------------------------------------------------

  /** One beat sweep, with the rows each of its three queries returned, and the drain after it. */
  datatype Round = Round(limited: set<JobId>, stuck: set<JobId>, pending: set<JobId>, drain: seq<Action>)

  ghost function Swept(e: Env, s: State, r: Round): State {
    DoRequeue(e, DoRequeue(e, DoRequeue(e, s, RateLimited, r.limited), Processing, r.stuck), Pending, r.pending)
  }

  ghost function AfterRound(e: Env, s: State, r: Round): State {
    Run(e, Swept(e, s, r), r.drain)
  }

  ghost function PickedFor(r: Round, status: JobStatus): set<JobId> {
    match status
    case RateLimited => r.limited
    case Processing => r.stuck
    case Pending => r.pending
    case _ => {}
  }

  ghost predicate Swept3(e: Env, s: State, r: Round) {
    var s1 := DoRequeue(e, s, RateLimited, r.limited);
    var s2 := DoRequeue(e, s1, Processing, r.stuck);
    && OldestFirst(s, RateLimited, e.retryBatch, r.limited)
    && OldestFirst(s1, Processing, e.retryBatch, r.stuck)
    && OldestFirst(s2, Pending, e.retryBatch, r.pending)
  }

  ghost predicate ValidRound(e: Env, s: State, r: Round) {
    Swept3(e, s, r) && AllHealthy(r.drain) && Drained(AfterRound(e, s, r))
  }

  /** The worker is idle with nothing queued, and the heartbeat and pause keys have expired. */
  ghost predicate Quiet(e: Env, s: State) {
    Inv(e, s) && Drained(s) && s.beats == {} && !s.paused
  }

  ghost predicate OpenStatus(status: JobStatus) {
    status == Pending || status == Processing || status == RateLimited
  }

  /** One of the three queries: its rows end up on the queue and no status changes. */
  lemma OneRequeue(e: Env, s: State, status: JobStatus, picked: set<JobId>)
    requires Inv(e, s) && s.worker.Idle? && s.beats == {} && OpenStatus(status)
    requires OldestFirst(s, status, e.retryBatch, picked)
    ensures var s' := DoRequeue(e, s, status, picked);
      && Inv(e, s') && s'.worker == s.worker && s'.beats == {} && s'.paused == s.paused
      && (forall st :: ByStatus(s', st) == ByStatus(s, st))
      && (forall j :: Queued(s, j) || j in picked ==> Queued(s', j))
  {
    hide Inv, Queued, OldestFirst, DoRequeue, Apply;
    var s' := DoRequeue(e, s, status, picked);
    RequeueIs(e, s, status, picked);
    InvKept(e, s, Other(Requeue(status, picked)));
    RequeueStepShape(e, s, status, picked);
    RequeueQueues(e, s, status, picked);
  }

  lemma RequeueIs(e: Env, s: State, status: JobStatus, picked: set<JobId>)
    ensures Apply(e, s, Other(Requeue(status, picked))) == DoRequeue(e, s, status, picked)
  {
    hide DoRequeue;
  }

  lemma RequeueQueues(e: Env, s: State, status: JobStatus, picked: set<JobId>)
    requires s.beats == {} && OpenStatus(status) && OldestFirst(s, status, e.retryBatch, picked)
    ensures var s' := DoRequeue(e, s, status, picked);
      && s'.worker == s.worker && s'.beats == {} && s'.paused == s.paused
      && forall j :: Queued(s, j) || j in picked ==> Queued(s', j)
  {
    var s' := DoRequeue(e, s, status, picked);
    forall j | Queued(s, j) || j in picked ensures Queued(s', j) {
      assert s.queue <= s'.queue;
      QueuedKept(s, s', j);
      if j in picked {
        var d := Delivery(Ingest(j, s.jobs[j].doc, s.jobs[j].col), 0);
        assert j in Stuck(s, status, picked);
        assert d in Fresh(s, Stuck(s, status, picked)) && d in s'.queue;
      }
    }
  }

  lemma SweepQueuesPicked(e: Env, s: State, r: Round)
    requires Quiet(e, s) && Swept3(e, s, r)
    ensures var s' := Swept(e, s, r);
      && Inv(e, s') && s'.worker.Idle? && s'.beats == {} && s'.paused == s.paused
      && (forall st :: ByStatus(s', st) == ByStatus(s, st))
      && (forall st, j :: j in PickedFor(r, st) ==> Queued(s', j))
  {
    hide Inv, DoRequeue, ByStatus, Queued, OldestFirst;
    var s1 := DoRequeue(e, s, RateLimited, r.limited);
    OneRequeue(e, s, RateLimited, r.limited);
    var s2 := DoRequeue(e, s1, Processing, r.stuck);
    OneRequeue(e, s1, Processing, r.stuck);
    OneRequeue(e, s2, Pending, r.pending);
  }

  ghost function Minus(n: nat, m: nat): nat {
    if n < m then 0 else n - m
  }

  /** Jobs of one status that `n` rounds have room for. */
  ghost function Room(e: Env, n: nat): nat {
    n * e.retryBatch
  }

  lemma RoomGrows(e: Env, n: nat)
    ensures Room(e, n + 1) == Room(e, n) + e.retryBatch
  {
  }

  lemma RoomNone(e: Env)
    ensures Room(e, 0) == 0
  {
  }

  /** After the round the worker is quiet again, and what is still open was open and not picked. */
  lemma RoundLeaves(e: Env, s: State, r: Round, status: JobStatus)
    requires Quiet(e, s) && ValidRound(e, s, r) && OpenStatus(status)
    ensures var s' := AfterRound(e, s, r);
      Quiet(e, s') && forall j :: j in ByStatus(s', status) ==> j in ByStatus(s, status) && j !in PickedFor(r, status)
  {
    hide Inv, Swept, Run, Queued, OldestFirst, Swept3;
    var s1, s' := Swept(e, s, r), AfterRound(e, s, r);
    SweepQueuesPicked(e, s, r);
    assert OwnBeat(s1);
    DrainSettles(e, s1, r.drain);
    forall j | j in ByStatus(s', status) ensures j in ByStatus(s, status) && j !in PickedFor(r, status) {
      assert !Settled(s', j);
      assert j in ByStatus(s1, status);
      assert !InHand(s1, j);
    }
  }

  /** A round takes `retryBatch` jobs (or all there are) out of each open status and puts none in. */
  lemma RoundShrinks(e: Env, s: State, r: Round, status: JobStatus)
    requires Quiet(e, s) && ValidRound(e, s, r) && OpenStatus(status)
    ensures var s' := AfterRound(e, s, r);
      Quiet(e, s') && |ByStatus(s', status)| <= Minus(|ByStatus(s, status)|, e.retryBatch)
  {
    hide Inv, Swept, AfterRound, ByStatus, Drained;
    RoundLeaves(e, s, r, status);
    PickedCount(e, s, r, status);
    var picked, before, after := PickedFor(r, status), ByStatus(s, status), ByStatus(AfterRound(e, s, r), status);
    Subset(after + picked, before);
    assert |after + picked| == |after| + |picked|;
  }

  lemma PickedCount(e: Env, s: State, r: Round, status: JobStatus)
    requires Quiet(e, s) && Swept3(e, s, r) && OpenStatus(status)
    ensures PickedFor(r, status) <= ByStatus(s, status)
    ensures |PickedFor(r, status)| == if e.retryBatch < |ByStatus(s, status)| then e.retryBatch else |ByStatus(s, status)|
  {
    hide Inv, DoRequeue, ByStatus, Queued;
    var s1 := DoRequeue(e, s, RateLimited, r.limited);
    OneRequeue(e, s, RateLimited, r.limited);
    OneRequeue(e, s1, Processing, r.stuck);
  }

  ghost predicate ValidRounds(e: Env, s: State, rounds: seq<Round>)
    decreases |rounds|
  {
    rounds != [] ==> ValidRound(e, s, rounds[0]) && ValidRounds(e, AfterRound(e, s, rounds[0]), rounds[1..])
  }

  ghost function AfterRounds(e: Env, s: State, rounds: seq<Round>): State
    decreases |rounds|
  {
    if rounds == [] then s else AfterRounds(e, AfterRound(e, s, rounds[0]), rounds[1..])
  }

  lemma {:induction false} RoundsShrink(e: Env, s: State, rounds: seq<Round>, status: JobStatus)
    requires Quiet(e, s) && ValidRounds(e, s, rounds) && OpenStatus(status)
    ensures |ByStatus(AfterRounds(e, s, rounds), status)| <= Minus(|ByStatus(s, status)|, Room(e, |rounds|))
    decreases |rounds|
  {
    hide Inv, Quiet, AfterRound, ValidRound, ByStatus, Room;
    RoomNone(e);
    if rounds != [] {
      var s' := AfterRound(e, s, rounds[0]);
      RoundShrinks(e, s, rounds[0], status);
      RoundsShrink(e, s', rounds[1..], status);
      RoomGrows(e, |rounds| - 1);
    }
  }

  /** However the worker fares in each drain, once the rounds have had room for every waiting job
      there is nothing left pending, processing or rate limited. */
  lemma NoJobIsStranded(e: Env, s: State, rounds: seq<Round>)
    requires Quiet(e, s) && ValidRounds(e, s, rounds)
    requires forall st :: OpenStatus(st) ==> |ByStatus(s, st)| <= Room(e, |rounds|)
    ensures forall j :: Settled(AfterRounds(e, s, rounds), j)
  {
    hide Inv, ValidRounds, AfterRounds, Quiet, ByStatus;
    var s' := AfterRounds(e, s, rounds);
    forall j ensures Settled(s', j) {
      if !Settled(s', j) {
        RoundsShrink(e, s, rounds, s'.jobs[j].status);
        NoneAtStatus(s', s'.jobs[j].status, j);
      }
    }
  }

  lemma NoneAtStatus(s: State, status: JobStatus, j: JobId)
    requires |ByStatus(s, status)| == 0 && j in s.jobs
    ensures s.jobs[j].status != status
  {
    assert j in ByStatus(s, status) <==> s.jobs[j].status == status;
  }

  // ---- such rounds can always be had ---------------------------------------------------

  lemma {:induction false} OldestOf(s: State, pool: set<JobId>) returns (m: JobId)
    requires pool != {} && pool <= s.jobs.Keys
    ensures m in pool && forall j :: j in pool ==> s.jobs[m].updated <= s.jobs[j].updated
    decreases |pool|
  {
    m :| m in pool;
    if pool != {m} {
      var rest := OldestOf(s, pool - {m});
      if s.jobs[rest].updated < s.jobs[m].updated { m := rest; }
    }
  }

  lemma {:induction false} PickOldest(s: State, pool: set<JobId>, n: nat) returns (picked: set<JobId>)
    requires pool <= s.jobs.Keys && n <= |pool|
    ensures picked <= pool && |picked| == n
    ensures forall j, k :: j in picked && k in pool && k !in picked ==> s.jobs[j].updated <= s.jobs[k].updated
    decreases n
  {
    picked := {};
    if n > 0 {
      var m := OldestOf(s, pool);
      var rest := PickOldest(s, pool - {m}, n - 1);
      picked := rest + {m};
    }
  }

  lemma QueryAnswers(s: State, status: JobStatus, limit: nat) returns (picked: set<JobId>)
    ensures OldestFirst(s, status, limit, picked)
  {
    var pool := ByStatus(s, status);
    picked := PickOldest(s, pool, if limit < |pool| then limit else |pool|);
  }

  lemma RoundExists(e: Env, s: State) returns (r: Round)
    requires Quiet(e, s)
    ensures ValidRound(e, s, r)
  {
    hide DoRequeue, OldestFirst, Inv, OwnBeat;
    var limited := QueryAnswers(s, RateLimited, e.retryBatch);
    var s1 := DoRequeue(e, s, RateLimited, limited);
    var stuck := QueryAnswers(s1, Processing, e.retryBatch);
    var s2 := DoRequeue(e, s1, Processing, stuck);
    var pending := QueryAnswers(s2, Pending, e.retryBatch);
    r := Round(limited, stuck, pending, []);
    SweepQueuesPicked(e, s, r);
    var drain := DrainExists(e, Swept(e, s, r));
    r := Round(limited, stuck, pending, drain);
  }

  /** From every reachable state: the running task ends, the queue drains, the keys expire. */
  lemma QuietIsReached(e: Env, s: State) returns (actions: seq<Action>)
    requires Reachable(e, s)
    ensures Quiet(e, Run(e, s, actions))
  {
    ReachableInv(e, s);
    var drain := DrainExists(e, s);
    RunKeepsInv(e, s, drain);
    var s1 := Run(e, s, drain);
    var expire := ExpireAll(e, s1);
    RunAppend(e, s, drain, expire);
    actions := drain + expire;
  }

  lemma KeysExpire(e: Env, s: State, j: JobId)
    ensures Apply(e, s, Other(LiftPause)) == s.(paused := false)
    ensures Apply(e, s, Other(ExpireBeat(j))) == s.(beats := s.beats - {j})
  {
  }

  lemma {:induction false} ExpireAll(e: Env, s: State) returns (actions: seq<Action>)
    requires Inv(e, s) && Drained(s)
    ensures Quiet(e, Run(e, s, actions))
    decreases |s.beats|
  {
    hide Inv, Apply;
    var a := Other(LiftPause);
    if s.beats == {} {
      InvKept(e, s, a);
      KeysExpire(e, s, 0);
      actions := [a];
      assert Run(e, s, [a]) == Run(e, Apply(e, s, a), [a][1..]) == Apply(e, s, a);
    } else {
      var j :| j in s.beats;
      a := Other(ExpireBeat(j));
      InvKept(e, s, a);
      KeysExpire(e, s, j);
      var rest := ExpireAll(e, Apply(e, s, a));
      actions := [a] + rest;
      assert actions[1..] == rest;
    }
  }

  lemma {:induction false} RoundsExist(e: Env, s: State, n: nat) returns (rounds: seq<Round>)
    requires Quiet(e, s)
    ensures |rounds| == n && ValidRounds(e, s, rounds)
    decreases n
  {
    rounds := [];
    if n > 0 {
      var r := RoundExists(e, s);
      RoundShrinks(e, s, r, Pending);
      var rest := RoundsExist(e, AfterRound(e, s, r), n - 1);
      rounds := [r] + rest;
      assert rounds[1..] == rest;
    }
  }

  /** Put together: from every reachable state a quiet one is reached, and with a positive sweep
      cap as many rounds as there are jobs settle them all. */
  lemma EveryJobSettles(e: Env, s: State) returns (actions: seq<Action>, rounds: seq<Round>)
    requires Reachable(e, s) && e.retryBatch > 0
    ensures Quiet(e, Run(e, s, actions)) && ValidRounds(e, Run(e, s, actions), rounds)
    ensures forall j :: Settled(AfterRounds(e, Run(e, s, actions), rounds), j)
  {
    hide Inv, ValidRounds, AfterRounds, Quiet;
    actions := QuietIsReached(e, s);
    var s1 := Run(e, s, actions);
    rounds := RoundsExist(e, s1, |s1.jobs|);
    forall st ensures |ByStatus(s1, st)| <= Room(e, |rounds|) { EnoughRoom(e, s1, st); }
    NoJobIsStranded(e, s1, rounds);
  }

  lemma EnoughRoom(e: Env, s: State, status: JobStatus)
    requires e.retryBatch > 0
    ensures |ByStatus(s, status)| <= Room(e, |s.jobs|)
  {
    Subset(ByStatus(s, status), s.jobs.Keys);
    assert |s.jobs.Keys| == |s.jobs|;
  }
}
