/** Ingestion as a state machine: the document, job and chunk tables, the broker queue, the
    heartbeat and pause keys, the tag tables, and the one worker with the task it is running.

    Everything that can happen is an `Action`, and `Apply` says what it does. The steps of a
    worker task are separate actions, so API calls, expiring keys and crashes interleave with
    them anywhere. An action whose guard fails leaves the state alone (a 404 or 409 answer, a
    task that is not there), so a run is just any sequence of actions. */
module Protocol {
  import opened Ids
  import Tags

  type Vector = seq<real>
  type ChunkKey = (DocId, nat)

  /** What the worker cannot choose: the parser and embedder as functions, the workspace each
      collection lives in, and the cap on jobs re-enqueued per sweep. */
  datatype Env = Env(
    parse: DocId -> seq<string>,
    embed: (Model, string) -> Vector,
    home: map<ColId, WsId>,
    retryBatch: nat)

  datatype DocStatus = Active | AwaitingUpload | Deleting
  datatype Doc = Doc(col: ColId, status: DocStatus, chunkCount: Option<nat>, model: Option<Model>)

  datatype JobStatus = Pending | Processing | Done | Failed | RateLimited
  datatype Job = Job(doc: DocId, col: ColId, status: JobStatus, chunkCount: Option<nat>, created: nat, updated: nat)

  datatype Row = Row(col: ColId, text: string, model: Model, vector: Vector, tags: set<string>)
  type Store = map<ChunkKey, Row>

  datatype Task =
    | Ingest(job: JobId, doc: DocId, col: ColId)
    | SyncTags(doc: DocId, col: ColId)
    | DeleteDoc(doc: DocId, col: ColId)
  datatype Delivery = Delivery(task: Task, retries: nat)

  datatype Config = Config(model: Model, batchSize: int)

  /** How far the running ingest has got. */
  datatype IngestPhase =
    | Opened(cfg: Config)                                       // embedder and config captured
    | Claimed(cfg: Config)                                      // job row set to processing
    | Parsing(cfg: Config)                                      // first heartbeat written
    | Embedding(cfg: Config, tags: set<string>, todo: seq<nat>) // inside the batch loop
    | Storing(cfg: Config, skipped: seq<nat>)                   // loop left, not yet marked done
    | Closing                                                   // marked done

  /** How far the running delete has got; `Checked` remembers whether the collection was empty. */
  datatype DeletePhase = DelStart | ChunksGone | RowsGone | Checked(empty: bool)

  /** The one worker and the delivery it is holding. */
  datatype Worker =
    | Idle
    | OnIngest(job: JobId, doc: DocId, col: ColId, retries: nat, phase: IngestPhase)
    | OnSync(doc: DocId, col: ColId, retries: nat, read: Option<set<string>>)
    | OnDelete(doc: DocId, col: ColId, retries: nat, at: DeletePhase)

  datatype State = State(
    docs: map<DocId, Doc>,
    jobs: map<JobId, Job>,
    store: Store,
    queue: multiset<Delivery>,
    beats: set<JobId>,
    paused: bool,
    clock: nat,
    config: Config,
    tags: Tags.Tables,
    worker: Worker,
    // history, read by no step except to keep new identifiers new
    issued: map<DocId, ColId>,
    issuedJobs: map<JobId, DocId>,
    gone: set<DocId>,            // the delete task committed
    lost: set<DocId>)            // a tag sync was dropped: out of retries, or out of time

  /** Steps of a running ingest task. */
  datatype IngestStep =
    | Claim | FirstBeat | Parse | Batch | LoopEnd | MarkDone | Finish | Hit429 | FailRetry | FailTerminal

  /** Steps of a running tag sync or delete task. */
  datatype CleanupStep =
    | ReadTags | WriteTags | DeleteChunks | DeleteRows | CheckEmpty | DropCollection | TaskFail | TaskTimeout

  datatype DocumentCall =
    | Upload(doc: DocId, col: ColId, job: JobId, enqueued: bool)
    | CreateUpload(doc: DocId, col: ColId)
    | ConfirmUpload(doc: DocId, job: JobId, enqueued: bool)
    | Reprocess(doc: DocId, job: JobId, enqueued: bool)
    | RequestDelete(doc: DocId, enqueued: bool)

  datatype TagCall =
    | CreateTag(ws: WsId, tag: TagId, name: string)
    | RenameTag(ws: WsId, tag: TagId, name: string)
    | DeleteTag(ws: WsId, tag: TagId)
    | MergeTags(ws: WsId, source: TagId, target: TagId)
    | AssignTag(ws: WsId, place: Tags.Target, tag: TagId)
    | UnassignTag(ws: WsId, place: Tags.Target, tag: TagId)

  /** The broker, the periodic sweeps, keys that expire, and configuration. */
  datatype Event =
    | Take(delivery: Delivery) | Crash
    | LoseIngest(delivery: Delivery) | RepeatIngest(delivery: Delivery)
    | Requeue(status: JobStatus, picked: set<JobId>)
    | Purge(doc: DocId)
    | ExpireBeat(job: JobId) | LiftPause | SetConfig(config: Config)

  datatype Action =
    | IngestAct(step: IngestStep) | Cleanup(work: CleanupStep)
    | Document(call: DocumentCall) | Tagging(tagCall: TagCall) | Other(event: Event)

  const MAX_RETRIES := 3

  // ---- the broker ----------------------------------------------------------------------

  /** The worker opens a delivery, capturing the live embedder and config for an ingest. */
  ghost function Open(d: Delivery, config: Config): Worker {
    match d.task
    case Ingest(j, doc, col) => OnIngest(j, doc, col, d.retries, Opened(config))
    case SyncTags(doc, col) => OnSync(doc, col, d.retries, None)
    case DeleteDoc(doc, col) => OnDelete(doc, col, d.retries, DelStart)
  }

  /** The delivery the worker is holding. */
  ghost function Held(w: Worker): Delivery
    requires !w.Idle?
  {
    match w
    case OnIngest(j, doc, col, r, _) => Delivery(Ingest(j, doc, col), r)
    case OnSync(doc, col, r, _) => Delivery(SyncTags(doc, col), r)
    case OnDelete(doc, col, r, _) => Delivery(DeleteDoc(doc, col), r)
  }

  ghost function DoTake(s: State, d: Delivery): State {
    if s.worker.Idle? && d in s.queue then s.(queue := s.queue - multiset{d}, worker := Open(d, s.config)) else s
  }

  /** Late acknowledgement: whatever the worker was running goes back to the queue. */
  ghost function DoCrash(s: State): State {
    if s.worker.Idle? then s else s.(queue := s.queue + multiset{Held(s.worker)}, worker := Idle)
  }

  /** `self.retry`: the same delivery again with one more retry, until the cap. */
  ghost function Retried(w: Worker): multiset<Delivery>
    requires !w.Idle?
  {
    if w.retries < MAX_RETRIES then multiset{Held(w).(retries := w.retries + 1)} else multiset{}
  }

  // ---- worker: ingest ------------------------------------------------------------------

  ghost function SetStatus(s: State, j: JobId, status: JobStatus): State {
    if j in s.jobs then
      s.(jobs := s.jobs[j := s.jobs[j].(status := status, updated := s.clock + 1)], clock := s.clock + 1)
    else s
  }

  ghost predicate Skips(s: State, j: JobId) {
    || j !in s.jobs
    || s.jobs[j].status == Done
    || (s.jobs[j].status == Processing && j in s.beats)
  }

  ghost function DoClaim(s: State): State {
    if s.worker.OnIngest? && s.worker.phase.Opened? then
      if Skips(s, s.worker.job) then s.(worker := Idle)
      else SetStatus(s, s.worker.job, Processing).(worker := s.worker.(phase := Claimed(s.worker.phase.cfg)))
    else s
  }

  ghost function DoFirstBeat(s: State): State {
    if s.worker.OnIngest? && s.worker.phase.Claimed? then
      s.(beats := s.beats + {s.worker.job}, worker := s.worker.(phase := Parsing(s.worker.phase.cfg)))
    else s
  }

  /** The resume query: is chunk `i` of the document stored under this model? */
  predicate AtModel(store: Store, col: ColId, doc: DocId, i: nat, model: Model) {
    (doc, i) in store && store[(doc, i)].col == col && store[(doc, i)].model == model
  }

  /** The chunks below `n` still to embed, in order. */
  ghost function Todo(store: Store, col: ColId, doc: DocId, model: Model, n: nat): seq<nat> {
    if n == 0 then []
    else if AtModel(store, col, doc, n - 1, model) then Todo(store, col, doc, model, n - 1)
    else Todo(store, col, doc, model, n - 1) + [n - 1]
  }

  ghost function DoParse(e: Env, s: State): State {
    if s.worker.OnIngest? && s.worker.phase.Parsing? then
      var w, cfg := s.worker, s.worker.phase.cfg;
      var n := |e.parse(w.doc)|;
      s.(beats := s.beats + {w.job}, worker := w.(phase :=
        if n == 0 then Storing(cfg, [])
        else Embedding(cfg, Tags.Effective(s.tags, e.home, w.col, w.doc), Todo(s.store, w.col, w.doc, cfg.model, n))))
    else s
  }

  /** Upsert by id: a row that is already there keeps its collection, everything else is replaced. */
  function Upsert(e: Env, store: Store, col: ColId, doc: DocId, batch: seq<nat>, model: Model, tags: set<string>): Store
  {
    store + map k | k in (set i | i in batch && i < |e.parse(doc)| :: (doc, i)) ::
      Row(if k in store then store[k].col else col,
          e.parse(doc)[k.1], model, e.embed(model, e.parse(doc)[k.1]), tags)
  }

  ghost function BatchLength(cfg: Config, todo: seq<nat>): nat {
    if cfg.batchSize <= 0 then 0 else if cfg.batchSize < |todo| then cfg.batchSize else |todo|
  }

  ghost function DoBatch(e: Env, s: State): State {
    if s.worker.OnIngest? && s.worker.phase.Embedding? && s.worker.phase.cfg.batchSize > 0 && s.worker.phase.todo != [] then
      var w, p := s.worker, s.worker.phase;
      var b := BatchLength(p.cfg, p.todo);
      s.(store := Upsert(e, s.store, w.col, w.doc, p.todo[..b], p.cfg.model, p.tags),
         beats := s.beats + {w.job},
         worker := w.(phase := p.(todo := p.todo[b..])))
    else s
  }

  /** `range(0, n, batch_size)` is exhausted, or was empty from the start for a negative step.
      (A zero step raises, so the loop is never left that way.) */
  ghost function DoLoopEnd(s: State): State {
    if s.worker.OnIngest? && s.worker.phase.Embedding?
       && (s.worker.phase.cfg.batchSize < 0 || (s.worker.phase.cfg.batchSize > 0 && s.worker.phase.todo == []))
    then
      s.(beats := s.beats + {s.worker.job},
         worker := s.worker.(phase := Storing(s.worker.phase.cfg, s.worker.phase.todo)))
    else s
  }

  ghost function DoMarkDone(e: Env, s: State): State {
    if s.worker.OnIngest? && s.worker.phase.Storing? then
      var w, n := s.worker, |e.parse(s.worker.doc)|;
      s.(docs := if w.doc in s.docs
                 then s.docs[w.doc := s.docs[w.doc].(chunkCount := Some(n), model := Some(w.phase.cfg.model))]
                 else s.docs,
         jobs := if w.job in s.jobs
                 then s.jobs[w.job := s.jobs[w.job].(status := Done, chunkCount := Some(n), updated := s.clock + 1)]
                 else s.jobs,
         clock := s.clock + 1,
         beats := s.beats + {w.job},
         worker := w.(phase := Closing))
    else s
  }

  ghost function DoFinish(s: State): State {
    if s.worker.OnIngest? && s.worker.phase.Closing? then s.(beats := s.beats - {s.worker.job}, worker := Idle) else s
  }

  /** The phases in which the pipeline can raise. */
  ghost predicate CanRaise(s: State) {
    s.worker.OnIngest? && (s.worker.phase.Parsing? || s.worker.phase.Embedding? || s.worker.phase.Storing?)
  }

  /** Leave the running ingest with its job at `status` and its heartbeat dropped. */
  ghost function Settle(s: State, status: JobStatus): State
    requires s.worker.OnIngest?
  {
    SetStatus(s, s.worker.job, status).(beats := s.beats - {s.worker.job}, worker := Idle)
  }

  ghost function DoHit429(s: State): State {
    if CanRaise(s) then Settle(s, RateLimited).(paused := true) else s
  }

  ghost function DoFailRetry(s: State): State {
    if CanRaise(s) then Settle(s, Failed).(queue := s.queue + Retried(s.worker)) else s
  }

  ghost function DoFailTerminal(s: State): State {
    if CanRaise(s) then Settle(s, Failed) else s
  }

  // ---- worker: tag sync and delete -----------------------------------------------------

  ghost function DoReadTags(e: Env, s: State): State {
    if s.worker.OnSync? && s.worker.read.None? then
      s.(worker := s.worker.(read := Some(Tags.Effective(s.tags, e.home, s.worker.col, s.worker.doc))))
    else s
  }

  function SetTags(store: Store, col: ColId, doc: DocId, tags: set<string>): Store {
    map k | k in store :: if k.0 == doc && store[k].col == col then store[k].(tags := tags) else store[k]
  }

  ghost function DoWriteTags(s: State): State {
    if s.worker.OnSync? && s.worker.read.Some? then
      s.(store := SetTags(s.store, s.worker.col, s.worker.doc, s.worker.read.value),
         lost := s.lost - {s.worker.doc}, worker := Idle)
    else s
  }

  ghost function DoDeleteChunks(s: State): State {
    if s.worker.OnDelete? && s.worker.at.DelStart? then
      s.(store := map k | k in s.store && !(k.0 == s.worker.doc && s.store[k].col == s.worker.col) :: s.store[k],
         worker := s.worker.(at := ChunksGone))
    else s
  }

  function JobsWithout(jobs: map<JobId, Job>, doc: DocId): map<JobId, Job> {
    map j | j in jobs && jobs[j].doc != doc :: jobs[j]
  }

  ghost function DoDeleteRows(s: State): State {
    if s.worker.OnDelete? && s.worker.at.ChunksGone? then
      var doc := s.worker.doc;
      s.(docs := s.docs - {doc}, jobs := JobsWithout(s.jobs, doc), tags := Tags.DropDocument(s.tags, doc),
         gone := s.gone + {doc}, worker := s.worker.(at := RowsGone))
    else s
  }

  ghost function DoCheckEmpty(s: State): State {
    if s.worker.OnDelete? && s.worker.at.RowsGone? then
      s.(worker := s.worker.(at := Checked(forall d :: d in s.docs ==> s.docs[d].col != s.worker.col)))
    else s
  }

  ghost function DoDropCollection(s: State): State {
    if s.worker.OnDelete? && s.worker.at.Checked? then
      s.(store := if s.worker.at.empty
                  then map k | k in s.store && s.store[k].col != s.worker.col :: s.store[k]
                  else s.store,
         worker := Idle)
    else s
  }

  ghost function DoTaskFail(s: State): State {
    if s.worker.OnSync? || s.worker.OnDelete? then
      s.(queue := s.queue + Retried(s.worker),
         lost := if s.worker.OnSync? && s.worker.retries >= MAX_RETRIES then s.lost + {s.worker.doc} else s.lost,
         worker := Idle)
    else s
  }

  /** The soft time limit is re-raised as it is: the delivery is dropped without a retry. */
  ghost function DoTaskTimeout(s: State): State {
    if s.worker.OnSync? || s.worker.OnDelete? then
      s.(lost := if s.worker.OnSync? then s.lost + {s.worker.doc} else s.lost, worker := Idle)
    else s
  }

  // ---- API calls -----------------------------------------------------------------------

  /** Insert a pending job and dispatch it; a dead broker leaves the row without a delivery. */
  ghost function NewJob(s: State, j: JobId, doc: DocId, col: ColId, enqueued: bool): State {
    s.(jobs := s.jobs[j := Job(doc, col, Pending, None, s.clock + 1, s.clock + 1)],
       clock := s.clock + 1,
       issuedJobs := s.issuedJobs[j := doc],
       queue := if enqueued then s.queue + multiset{Delivery(Ingest(j, doc, col), 0)} else s.queue)
  }

  ghost function DoUpload(e: Env, s: State, doc: DocId, col: ColId, j: JobId, enqueued: bool): State {
    if col in e.home && doc !in s.issued && j !in s.issuedJobs then
      NewJob(s.(docs := s.docs[doc := Doc(col, Active, None, None)], issued := s.issued[doc := col]), j, doc, col, enqueued)
    else s
  }

  ghost function DoCreateUpload(e: Env, s: State, doc: DocId, col: ColId): State {
    if col in e.home && doc !in s.issued then
      s.(docs := s.docs[doc := Doc(col, AwaitingUpload, None, None)], issued := s.issued[doc := col])
    else s
  }

  ghost function DoConfirmUpload(s: State, doc: DocId, j: JobId, enqueued: bool): State {
    if doc in s.docs && s.docs[doc].status == AwaitingUpload && j !in s.issuedJobs then
      NewJob(s.(docs := s.docs[doc := s.docs[doc].(status := Active)]), j, doc, s.docs[doc].col, enqueued)
    else s
  }

  /** The document's latest job is queued or running. */
  ghost predicate InFlight(s: State, doc: DocId) {
    exists j :: j in s.jobs && s.jobs[j].doc == doc
      && s.jobs[j].status in {Pending, Processing, RateLimited}
      && forall k :: k in s.jobs && s.jobs[k].doc == doc ==> s.jobs[k].created <= s.jobs[j].created
  }

  ghost function DoReprocess(s: State, doc: DocId, j: JobId, enqueued: bool): State {
    if doc in s.docs && s.docs[doc].status == Active && !InFlight(s, doc) && j !in s.issuedJobs then
      NewJob(s, j, doc, s.docs[doc].col, enqueued)
    else s
  }

  /** Tombstone the row, drop its jobs, dispatch the delete task; if the broker is down the row
      is made active again (its jobs stay dropped). */
  ghost function DoRequestDelete(s: State, doc: DocId, enqueued: bool): State {
    if doc in s.docs && s.docs[doc].status != Deleting then
      s.(docs := s.docs[doc := s.docs[doc].(status := if enqueued then Deleting else Active)],
         jobs := JobsWithout(s.jobs, doc),
         queue := if enqueued then s.queue + multiset{Delivery(DeleteDoc(doc, s.docs[doc].col), 0)} else s.queue)
    else s
  }

  /** The tag bridge: one sync per active document selected. */
  ghost function Syncs(s: State, docs: set<DocId>): multiset<Delivery> {
    multiset(set d | d in docs && d in s.docs && s.docs[d].status == Active ::
               Delivery(SyncTags(d, s.docs[d].col), 0))
  }

  ghost function InWorkspace(e: Env, s: State, ws: WsId): set<DocId> {
    set d | d in s.docs && s.docs[d].col in e.home && e.home[s.docs[d].col] == ws
  }

  ghost function InCollection(s: State, col: ColId): set<DocId> {
    set d | d in s.docs && s.docs[d].col == col
  }

  ghost function Retag(s: State, t: Option<Tags.Tables>, docs: set<DocId>): State {
    if t.Some? then s.(tags := t.value, queue := s.queue + Syncs(s, docs)) else s
  }

  /** The entity exists in the workspace; only an active document can be tagged. */
  ghost predicate TargetIn(e: Env, s: State, ws: WsId, place: Tags.Target) {
    match place
    case OnWorkspace(w) => w == ws
    case OnCollection(c) => c in e.home && e.home[c] == ws
    case OnDocument(d) => d in InWorkspace(e, s, ws) && s.docs[d].status == Active
  }

  ghost function Affected(e: Env, s: State, place: Tags.Target): set<DocId> {
    match place
    case OnWorkspace(w) => InWorkspace(e, s, w)
    case OnCollection(c) => InCollection(s, c)
    case OnDocument(d) => {d}
  }

  ghost function DoAssign(e: Env, s: State, ws: WsId, place: Tags.Target, id: TagId): State {
    if TargetIn(e, s, ws, place) && Tags.HasTag(s.tags, ws, id) then
      Retag(s, Some(Tags.Attach(s.tags, place, id)), Affected(e, s, place))
    else s
  }

  ghost function DoUnassign(e: Env, s: State, ws: WsId, place: Tags.Target, id: TagId): State {
    if TargetIn(e, s, ws, place) && Tags.HasTag(s.tags, ws, id) then
      Retag(s, Some(Tags.Detach(s.tags, place, id)), Affected(e, s, place))
    else s
  }

  // ---- sweeps and the rest -------------------------------------------------------------

  ghost function ByStatus(s: State, status: JobStatus): set<JobId> {
    set j | j in s.jobs && s.jobs[j].status == status
  }

  /** What `ORDER BY updated_at ASC LIMIT n` may return; ties are broken either way. */
  ghost predicate OldestFirst(s: State, status: JobStatus, limit: nat, picked: set<JobId>) {
    && picked <= ByStatus(s, status)
    && |picked| == (if limit < |ByStatus(s, status)| then limit else |ByStatus(s, status)|)
    && forall j, k :: j in picked && k in ByStatus(s, status) && k !in picked ==> s.jobs[j].updated <= s.jobs[k].updated
  }

  ghost function Stuck(s: State, status: JobStatus, picked: set<JobId>): set<JobId> {
    if status == Processing then picked - s.beats else picked
  }

  ghost function Fresh(s: State, js: set<JobId>): multiset<Delivery> {
    multiset(set j | j in js && j in s.jobs :: Delivery(Ingest(j, s.jobs[j].doc, s.jobs[j].col), 0))
  }

  ghost function DoRequeue(e: Env, s: State, status: JobStatus, picked: set<JobId>): State {
    if status in {RateLimited, Processing, Pending} && OldestFirst(s, status, e.retryBatch, picked) then
      var ids := Stuck(s, status, picked);
      s.(queue := s.queue + Fresh(s, ids),
         jobs := map j | j in s.jobs :: if j in ids then s.jobs[j].(updated := s.clock + 1) else s.jobs[j],
         clock := s.clock + 1)
    else s
  }

  ghost function DoPurge(s: State, doc: DocId): State {
    if doc in s.docs then s.(queue := s.queue + multiset{Delivery(DeleteDoc(doc, s.docs[doc].col), 0)}) else s
  }

  ghost function DoLose(s: State, d: Delivery): State {
    if d in s.queue && d.task.Ingest? then s.(queue := s.queue - multiset{d}) else s
  }

  ghost function DoRepeat(s: State, d: Delivery): State {
    if (d in s.queue || (s.worker.OnIngest? && Held(s.worker) == d)) && d.task.Ingest?
    then s.(queue := s.queue + multiset{d}) else s
  }

  ghost function ApplyIngest(e: Env, s: State, a: IngestStep): State {
    match a
    case Claim => DoClaim(s)
    case FirstBeat => DoFirstBeat(s)
    case Parse => DoParse(e, s)
    case Batch => DoBatch(e, s)
    case LoopEnd => DoLoopEnd(s)
    case MarkDone => DoMarkDone(e, s)
    case Finish => DoFinish(s)
    case Hit429 => DoHit429(s)
    case FailRetry => DoFailRetry(s)
    case FailTerminal => DoFailTerminal(s)
  }

  ghost function ApplyCleanup(e: Env, s: State, a: CleanupStep): State {
    match a
    case ReadTags => DoReadTags(e, s)
    case WriteTags => DoWriteTags(s)
    case DeleteChunks => DoDeleteChunks(s)
    case DeleteRows => DoDeleteRows(s)
    case CheckEmpty => DoCheckEmpty(s)
    case DropCollection => DoDropCollection(s)
    case TaskFail => DoTaskFail(s)
    case TaskTimeout => DoTaskTimeout(s)
  }

  ghost function ApplyDocument(e: Env, s: State, a: DocumentCall): State {
    match a
    case Upload(doc, col, j, q) => DoUpload(e, s, doc, col, j, q)
    case CreateUpload(doc, col) => DoCreateUpload(e, s, doc, col)
    case ConfirmUpload(doc, j, q) => DoConfirmUpload(s, doc, j, q)
    case Reprocess(doc, j, q) => DoReprocess(s, doc, j, q)
    case RequestDelete(doc, q) => DoRequestDelete(s, doc, q)
  }

  ghost function ApplyTagging(e: Env, s: State, a: TagCall): State {
    match a
    case CreateTag(ws, id, name) => Retag(s, Tags.Create(s.tags, ws, id, name), {})
    case RenameTag(ws, id, name) => Retag(s, Tags.Rename(s.tags, ws, id, name), InWorkspace(e, s, ws))
    case DeleteTag(ws, id) => Retag(s, Tags.Delete(s.tags, ws, id), InWorkspace(e, s, ws))
    case MergeTags(ws, source, target) => Retag(s, Tags.Merge(s.tags, ws, source, target), InWorkspace(e, s, ws))
    case AssignTag(ws, w, id) => DoAssign(e, s, ws, w, id)
    case UnassignTag(ws, w, id) => DoUnassign(e, s, ws, w, id)
  }

  ghost function ApplyEvent(e: Env, s: State, a: Event): State {
    match a
    case Take(d) => DoTake(s, d)
    case Crash => DoCrash(s)
    case LoseIngest(d) => DoLose(s, d)
    case RepeatIngest(d) => DoRepeat(s, d)
    case Requeue(status, picked) => DoRequeue(e, s, status, picked)
    case Purge(doc) => DoPurge(s, doc)
    case ExpireBeat(j) => s.(beats := s.beats - {j})
    case LiftPause => s.(paused := false)
    case SetConfig(c) => s.(config := c)
  }

  ghost function Apply(e: Env, s: State, a: Action): State {
    match a
    case IngestAct(step) => ApplyIngest(e, s, step)
    case Cleanup(work) => ApplyCleanup(e, s, work)
    case Document(call) => ApplyDocument(e, s, call)
    case Tagging(call) => ApplyTagging(e, s, call)
    case Other(event) => ApplyEvent(e, s, event)
  }

  ghost function Run(e: Env, s: State, actions: seq<Action>): State
    decreases |actions|
  {
    if actions == [] then s else Run(e, Apply(e, s, actions[0]), actions[1..])
  }

  /** Nothing ingested, nothing queued, worker idle. */
  ghost predicate Start(s: State) {
    && s.docs == map[] && s.jobs == map[] && s.store == map[] && s.queue == multiset{}
    && s.beats == {} && s.worker == Idle
    && s.tags == Tags.Tables(map[], {}, {}, {})
    && s.issued == map[] && s.issuedJobs == map[] && s.gone == {} && s.lost == {}
  }

  ghost predicate Reachable(e: Env, s: State) {
    exists s0, actions :: Start(s0) && s == Run(e, s0, actions)
  }
}
