/** What every step of the ingestion protocol keeps: identities, and the running job. */
module ProtocolSafety {
  import opened Ids
  import opened Protocol
  import Tags

  // ---- identities ----------------------------------------------------------------------

  ghost predicate TaskOk(s: State, d: Delivery) {
    && d.task.doc in s.issued && d.task.col == s.issued[d.task.doc]
    && d.retries <= MAX_RETRIES
    && (d.task.Ingest? ==> d.task.job in s.issuedJobs && s.issuedJobs[d.task.job] == d.task.doc)
  }

  ghost predicate RowIds(e: Env, s: State) {
    && (forall d :: d in s.issued ==> s.issued[d] in e.home)
    && (forall d :: d in s.docs ==> d in s.issued && s.issued[d] == s.docs[d].col)
    && (forall j :: j in s.issuedJobs ==> s.issuedJobs[j] in s.issued)
    && (forall j :: j in s.jobs ==>
          j in s.issuedJobs && s.issuedJobs[j] == s.jobs[j].doc && s.issued[s.jobs[j].doc] == s.jobs[j].col)
    && (forall k :: k in s.store ==> k.0 in s.issued && s.store[k].col == s.issued[k.0])
  }

  ghost predicate TaskIds(s: State) {
    && (forall d :: d in s.queue ==> TaskOk(s, d))
    && (!s.worker.Idle? ==> TaskOk(s, Held(s.worker)))
  }

  /** A reserved upload has no job and no chunk yet. */
  ghost predicate Unstarted(s: State) {
    forall d :: d in s.docs && s.docs[d].status == AwaitingUpload ==>
      (forall j :: j in s.issuedJobs ==> s.issuedJobs[j] != d) && (forall k :: k in s.store ==> k.0 != d)
  }

  ghost predicate Identities(e: Env, s: State) {
    RowIds(e, s) && TaskIds(s) && Unstarted(s)
  }

  ghost predicate SameDoc(a: Doc, b: Doc) {
    a.col == b.col && a.status == b.status
  }

  ghost predicate SameJob(a: Job, b: Job) {
    a.doc == b.doc && a.col == b.col && a.created == b.created
  }

  /** All that a step of an ingest task may touch. */
  ghost predicate IngestShape(s: State, s': State) {
    && s.worker.OnIngest?
    && s'.issued == s.issued && s'.issuedJobs == s.issuedJobs && s'.tags == s.tags && s'.gone == s.gone && s'.lost == s.lost
    && (s'.docs == s.docs
        || (s.worker.doc in s.docs && s.worker.doc in s'.docs && s'.docs == s.docs[s.worker.doc := s'.docs[s.worker.doc]]
            && SameDoc(s'.docs[s.worker.doc], s.docs[s.worker.doc])))
    && (s'.jobs == s.jobs
        || (s.worker.job in s.jobs && s.worker.job in s'.jobs && s'.jobs == s.jobs[s.worker.job := s'.jobs[s.worker.job]]
            && SameJob(s'.jobs[s.worker.job], s.jobs[s.worker.job])
            && s'.clock == s'.jobs[s.worker.job].updated == s.clock + 1))
    && s.clock <= s'.clock
    && (forall k :: k in s.store ==> k in s'.store && s'.store[k].col == s.store[k].col)
    && (forall k :: k in s'.store && k.0 != s.worker.doc ==> k in s.store && s'.store[k] == s.store[k])
    && (forall k :: k in s'.store && k !in s.store ==> s'.store[k].col == s.worker.col)
    && (s'.queue == s.queue || s'.queue == s.queue + Retried(s.worker))
    && (s'.worker.Idle? || (s'.worker.OnIngest? && s'.worker == s.worker.(phase := s'.worker.phase)))
  }

  lemma BatchShape(e: Env, s: State)
    ensures DoBatch(e, s) == s || IngestShape(s, DoBatch(e, s))
  {
  }

  /** The job row after `Settle`, written out. */
  lemma SettleIs(s: State, status: JobStatus)
    requires s.worker.OnIngest?
    ensures var j := s.worker.job;
      Settle(s, status) ==
        if j in s.jobs
        then s.(jobs := s.jobs[j := s.jobs[j].(status := status, updated := s.clock + 1)], clock := s.clock + 1,
                beats := s.beats - {j}, worker := Idle)
        else s.(beats := s.beats - {j}, worker := Idle)
  {
  }

  lemma Hit429Shape(s: State)
    ensures DoHit429(s) == s || IngestShape(s, DoHit429(s))
  {
    hide Settle, Retried;
    if CanRaise(s) { SettleShape(s, RateLimited); }
  }

  lemma SettleShape(s: State, status: JobStatus)
    requires s.worker.OnIngest?
    ensures IngestShape(s, Settle(s, status))
    ensures Settle(s, status).queue == s.queue
  {
    hide Settle;
    SettleIs(s, status);
  }

  lemma FailRetryShape(s: State)
    ensures DoFailRetry(s) == s || IngestShape(s, DoFailRetry(s))
  {
    hide Settle, Retried;
    if CanRaise(s) { SettleShape(s, Failed); }
  }

  lemma FailTerminalShape(s: State)
    ensures DoFailTerminal(s) == s || IngestShape(s, DoFailTerminal(s))
  {
    hide Settle, Retried;
    if CanRaise(s) { SettleShape(s, Failed); }
  }

  lemma MarkDoneShape(e: Env, s: State)
    ensures DoMarkDone(e, s) == s || IngestShape(s, DoMarkDone(e, s))
  {
  }

  lemma ClaimShape(s: State)
    ensures DoClaim(s) == s || IngestShape(s, DoClaim(s))
  {
    if s.worker.OnIngest? && s.worker.phase.Opened? && !Skips(s, s.worker.job) {
      var j := s.worker.job;
      var job := s.jobs[j].(status := Processing, updated := s.clock + 1);
      assert DoClaim(s) == s.(jobs := s.jobs[j := job], clock := s.clock + 1,
                              worker := s.worker.(phase := Claimed(s.worker.phase.cfg)));
    }
  }

  lemma IngestStepShape(e: Env, s: State, a: IngestStep)
    ensures ApplyIngest(e, s, a) == s || IngestShape(s, ApplyIngest(e, s, a))
  {
    match a
    case Batch => BatchShape(e, s);
    case MarkDone => MarkDoneShape(e, s);
    case Claim => ClaimShape(s);
    case Hit429 => Hit429Shape(s);
    case FailRetry => FailRetryShape(s);
    case FailTerminal => FailTerminalShape(s);
    case _ =>
  }

  lemma IdentitiesKeptIngest(e: Env, s: State, s': State)
    requires Identities(e, s) && IngestShape(s, s')
    ensures Identities(e, s')
  {
    hide *;
    IdentitiesAre(e, s);
    RowIdsKeptIngest(e, s, s');
    TaskIdsKeptIngest(s, s');
    UnstartedKeptIngest(e, s, s');
    IdentitiesAre(e, s');
  }

  lemma IdentitiesAre(e: Env, s: State)
    ensures Identities(e, s) <==> RowIds(e, s) && TaskIds(s) && Unstarted(s)
  {
    hide RowIds, TaskIds, Unstarted;
  }

  lemma RowIdsKeptIngest(e: Env, s: State, s': State)
    requires Identities(e, s) && IngestShape(s, s')
    ensures RowIds(e, s')
  {
    hide Unstarted, Retried;
    assert TaskOk(s, Held(s.worker));
  }

  lemma TaskIdsKeptIngest(s: State, s': State)
    requires TaskIds(s) && IngestShape(s, s')
    ensures TaskIds(s')
  {
  }

  lemma UnstartedKeptIngest(e: Env, s: State, s': State)
    requires Identities(e, s) && IngestShape(s, s')
    ensures Unstarted(s')
  {
    hide Retried;
    assert TaskOk(s, Held(s.worker));
  }

  /** All that a step of a tag sync or delete task may touch: it only removes rows and rewrites tags. */
  ghost predicate CleanupShape(s: State, s': State) {
    && (s.worker.OnSync? || s.worker.OnDelete?)
    && s'.issued == s.issued && s'.issuedJobs == s.issuedJobs && s'.beats == s.beats && s'.clock == s.clock
    && (forall d :: d in s'.docs ==> d in s.docs && s'.docs[d] == s.docs[d])
    && (forall j :: j in s'.jobs ==> j in s.jobs && s'.jobs[j] == s.jobs[j])
    && (forall k :: k in s'.store ==> k in s.store && s'.store[k] == s.store[k].(tags := s'.store[k].tags))
    && (s'.queue == s.queue || s'.queue == s.queue + Retried(s.worker))
    && (s'.worker.Idle? || Held(s'.worker) == Held(s.worker))
  }

  lemma CleanupStepShape(e: Env, s: State, a: CleanupStep)
    ensures ApplyCleanup(e, s, a) == s || CleanupShape(s, ApplyCleanup(e, s, a))
  {
  }

  lemma IdentitiesKeptCleanup(e: Env, s: State, s': State)
    requires Identities(e, s) && CleanupShape(s, s')
    ensures Identities(e, s')
  {
  }

  lemma NewDocumentKeeps(e: Env, s: State, doc: DocId, col: ColId, status: DocStatus)
    requires Identities(e, s) && col in e.home && doc !in s.issued
    ensures Identities(e, s.(docs := s.docs[doc := Doc(col, status, None, None)], issued := s.issued[doc := col]))
  {
  }

  lemma NewJobKeeps(e: Env, s: State, j: JobId, doc: DocId, col: ColId, enqueued: bool)
    requires Identities(e, s) && j !in s.issuedJobs
    requires doc in s.docs && s.docs[doc].status != AwaitingUpload && col == s.docs[doc].col
    ensures Identities(e, NewJob(s, j, doc, col, enqueued))
  {
    hide *;
    IdentitiesAre(e, s);
    NewJobKeepsTasks(e, s, j, doc, col, enqueued);
    NewJobKeepsRows(e, s, j, doc, col, enqueued);
    IdentitiesAre(e, NewJob(s, j, doc, col, enqueued));
  }

  lemma NewJobKeepsTasks(e: Env, s: State, j: JobId, doc: DocId, col: ColId, enqueued: bool)
    requires RowIds(e, s) && TaskIds(s) && j !in s.issuedJobs && doc in s.docs && col == s.docs[doc].col
    ensures TaskIds(NewJob(s, j, doc, col, enqueued))
  {
    var s' := NewJob(s, j, doc, col, enqueued);
    forall d | d in s'.queue ensures TaskOk(s', d) {
      assert d in s.queue || d == Delivery(Ingest(j, doc, col), 0);
    }
  }

  lemma NewJobKeepsRows(e: Env, s: State, j: JobId, doc: DocId, col: ColId, enqueued: bool)
    requires RowIds(e, s) && Unstarted(s) && j !in s.issuedJobs
    requires doc in s.docs && s.docs[doc].status != AwaitingUpload && col == s.docs[doc].col
    ensures RowIds(e, NewJob(s, j, doc, col, enqueued)) && Unstarted(NewJob(s, j, doc, col, enqueued))
  {
  }

  lemma StatusChangeKeeps(e: Env, s: State, doc: DocId, status: DocStatus)
    requires Identities(e, s) && doc in s.docs && status != AwaitingUpload
    ensures Identities(e, s.(docs := s.docs[doc := s.docs[doc].(status := status)]))
  {
  }

  lemma IdentitiesKeptDocument(e: Env, s: State, a: DocumentCall)
    requires Identities(e, s)
    ensures Identities(e, ApplyDocument(e, s, a))
  {
    hide RowIds, TaskIds, Unstarted, NewJob, InFlight, JobsWithout;
    var s' := ApplyDocument(e, s, a);
    if s' != s {
      match a
      case Upload(doc, col, j, q) =>
        NewDocumentKeeps(e, s, doc, col, Active);
        NewJobKeeps(e, s.(docs := s.docs[doc := Doc(col, Active, None, None)], issued := s.issued[doc := col]), j, doc, col, q);
      case CreateUpload(doc, col) => NewDocumentKeeps(e, s, doc, col, AwaitingUpload);
      case ConfirmUpload(doc, j, q) =>
        StatusChangeKeeps(e, s, doc, Active);
        NewJobKeeps(e, s.(docs := s.docs[doc := s.docs[doc].(status := Active)]), j, doc, s.docs[doc].col, q);
      case Reprocess(doc, j, q) => NewJobKeeps(e, s, j, doc, s.docs[doc].col, q);
      case RequestDelete(doc, q) => RequestDeleteKeeps(e, s, doc, q);
    }
  }

  lemma RequestDeleteKeeps(e: Env, s: State, doc: DocId, q: bool)
    requires Identities(e, s) && doc in s.docs
    ensures Identities(e, DoRequestDelete(s, doc, q))
  {
    hide Identities;
    if s.docs[doc].status != Deleting {
      var status := if q then Deleting else Active;
      StatusChangeKeeps(e, s, doc, status);
      DroppedJobsKeep(e, s.(docs := s.docs[doc := s.docs[doc].(status := status)]), doc, q);
    }
  }

  lemma DroppedJobsKeep(e: Env, s: State, doc: DocId, q: bool)
    requires Identities(e, s) && doc in s.docs
    ensures Identities(e, s.(jobs := JobsWithout(s.jobs, doc),
                             queue := if q then s.queue + multiset{Delivery(DeleteDoc(doc, s.docs[doc].col), 0)} else s.queue))
  {
  }

  lemma TaggingShape(e: Env, s: State, a: TagCall) returns (docs: set<DocId>)
    ensures var s' := ApplyTagging(e, s, a);
      s' == s || s' == s.(tags := s'.tags, queue := s.queue + Syncs(s, docs))
  {
    docs := match a
      case CreateTag(_, _, _) => {}
      case RenameTag(ws, _, _) => InWorkspace(e, s, ws)
      case DeleteTag(ws, _) => InWorkspace(e, s, ws)
      case MergeTags(ws, _, _) => InWorkspace(e, s, ws)
      case AssignTag(_, w, _) => Affected(e, s, w)
      case UnassignTag(_, w, _) => Affected(e, s, w);
  }

  lemma IdentitiesKeptTagging(e: Env, s: State, a: TagCall)
    requires Identities(e, s)
    ensures Identities(e, ApplyTagging(e, s, a))
  {
    var docs := TaggingShape(e, s, a);
  }

  /** A sweep adds deliveries of existing jobs and moves time stamps, nothing else. */
  ghost predicate RequeueShape(s: State, s': State) {
    && s' == s.(queue := s'.queue, jobs := s'.jobs, clock := s'.clock)
    && s'.jobs.Keys == s.jobs.Keys
    && (forall j :: j in s.jobs ==> s'.jobs[j] == s.jobs[j].(updated := s'.jobs[j].updated))
    && (forall d :: d in s'.queue && d !in s.queue ==>
          d.task.Ingest? && d.retries == 0 && d.task.job in s.jobs
          && d.task.doc == s.jobs[d.task.job].doc && d.task.col == s.jobs[d.task.job].col)
  }

  lemma RequeueStepShape(e: Env, s: State, status: JobStatus, picked: set<JobId>)
    ensures RequeueShape(s, DoRequeue(e, s, status, picked))
  {
    var s' := DoRequeue(e, s, status, picked);
    if s' != s {
      var ids := Stuck(s, status, picked);
      forall d | d in s'.queue && d !in s.queue
        ensures d.task.Ingest? && d.retries == 0 && d.task.job in s.jobs
          && d.task.doc == s.jobs[d.task.job].doc && d.task.col == s.jobs[d.task.job].col
      {
        assert d in Fresh(s, ids);
      }
    }
  }

  lemma IdentitiesKeptRequeue(e: Env, s: State, s': State)
    requires Identities(e, s) && RequeueShape(s, s')
    ensures Identities(e, s')
  {
  }

  /** Taking, losing, repeating or giving back a delivery moves existing deliveries about; a purge
      adds one for an existing row. */
  ghost predicate BrokerShape(s: State, s': State) {
    && s' == s.(queue := s'.queue, worker := s'.worker)
    && (forall d :: d in s'.queue ==>
          d in s.queue || (!s.worker.Idle? && d == Held(s.worker))
          || (d.task.doc in s.docs && d == Delivery(DeleteDoc(d.task.doc, s.docs[d.task.doc].col), 0)))
    && (s'.worker.Idle? || s'.worker == s.worker || (exists d :: d in s.queue && s'.worker == Open(d, s.config)))
  }

  ghost predicate IsBroker(a: Event) {
    a.Take? || a.Crash? || a.LoseIngest? || a.RepeatIngest? || a.Purge?
  }

  lemma BrokerStepShape(e: Env, s: State, a: Event)
    requires IsBroker(a)
    ensures BrokerShape(s, ApplyEvent(e, s, a))
  {
    hide ApplyEvent, BrokerShape;
    if a.Take? {
      TakeShape(e, s, a.delivery);
    } else if a.Crash? {
      CrashShape(e, s);
    } else {
      QueueShape(e, s, a);
    }
  }

  lemma TakeShape(e: Env, s: State, m: Delivery)
    ensures BrokerShape(s, ApplyEvent(e, s, Take(m)))
  {
    hide Open, Held;
  }

  lemma CrashShape(e: Env, s: State)
    ensures BrokerShape(s, ApplyEvent(e, s, Crash))
  {
    hide Open, Held;
  }

  lemma QueueShape(e: Env, s: State, a: Event)
    requires a.LoseIngest? || a.RepeatIngest? || a.Purge?
    ensures BrokerShape(s, ApplyEvent(e, s, a))
  {
    hide Open, Held;
  }

  lemma IdentitiesKeptBroker(e: Env, s: State, s': State)
    requires Identities(e, s) && BrokerShape(s, s')
    ensures Identities(e, s')
  {
    if !s'.worker.Idle? && s'.worker != s.worker {
      var d :| d in s.queue && s'.worker == Open(d, s.config);
      assert Held(s'.worker) == d;
    }
  }

  lemma IdentitiesKeptEvent(e: Env, s: State, a: Event)
    requires Identities(e, s)
    ensures Identities(e, ApplyEvent(e, s, a))
  {
    if a.Requeue? {
      RequeueStepShape(e, s, a.status, a.picked);
      IdentitiesKeptRequeue(e, s, DoRequeue(e, s, a.status, a.picked));
    } else if IsBroker(a) {
      BrokerStepShape(e, s, a);
      IdentitiesKeptBroker(e, s, ApplyEvent(e, s, a));
    }
  }

  lemma IdentitiesKept(e: Env, s: State, a: Action)
    requires Identities(e, s)
    ensures Identities(e, Apply(e, s, a))
  {
    match a
    case IngestAct(step) =>
      IngestStepShape(e, s, step);
      if ApplyIngest(e, s, step) != s { IdentitiesKeptIngest(e, s, ApplyIngest(e, s, step)); }
    case Cleanup(work) =>
      CleanupStepShape(e, s, work);
      if ApplyCleanup(e, s, work) != s { IdentitiesKeptCleanup(e, s, ApplyCleanup(e, s, work)); }
    case Document(call) => IdentitiesKeptDocument(e, s, call);
    case Tagging(call) => IdentitiesKeptTagging(e, s, call);
    case Other(event) => IdentitiesKeptEvent(e, s, event);
  }
}
