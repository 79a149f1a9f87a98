/** Deletes are final, a finished job stays finished, and dropping an emptied collection loses
    no chunk of a document that still has a row. */
module ProtocolDeletes {
  import opened Ids
  import opened Protocol
  import opened ProtocolSafety

  // ---- the running job -----------------------------------------------------------------

  /** The worker has claimed its ingest job. */
  ghost predicate PastClaim(s: State) {
    s.worker.OnIngest? && !s.worker.phase.Opened?
  }

  ghost predicate RunningJob(s: State) {
    PastClaim(s) && s.worker.job in s.jobs ==>
      s.jobs[s.worker.job].status == (if s.worker.phase.Closing? then Done else Processing)
  }

  lemma RunningJobKeptIngest(e: Env, s: State, a: IngestStep)
    requires RunningJob(s)
    ensures RunningJob(ApplyIngest(e, s, a))
  {
  }

  lemma RunningJobKept(e: Env, s: State, a: Action)
    requires Identities(e, s) && RunningJob(s)
    ensures RunningJob(Apply(e, s, a))
  {
    match a
    case IngestAct(step) => RunningJobKeptIngest(e, s, step);
    case Cleanup(work) => CleanupStepShape(e, s, work);
    case Document(call) => DocumentKeepsJobs(e, s, call);
    case Tagging(call) => var docs := TaggingShape(e, s, call);
    case Other(event) => EventKeepsJobs(e, s, event);
  }

  /** An API call leaves the jobs that were there as they were, or removes them. */
  ghost predicate JobsKept(s: State, s': State) {
    && s'.worker == s.worker && s'.store == s.store && s'.gone == s.gone
    && (forall j :: j in s.issuedJobs && j in s'.jobs && j in s.jobs ==> s'.jobs[j] == s.jobs[j])
    && (forall j :: j in s'.jobs && j !in s.jobs ==> j !in s.issuedJobs && (s'.jobs[j].doc in s.docs || s'.jobs[j].doc !in s.issued))
    && (forall d :: d in s'.docs && d !in s.docs ==> d !in s.issued)
    && (forall d :: d in s.issued ==> d in s'.issued)
  }

  lemma DocumentKeepsJobs(e: Env, s: State, a: DocumentCall)
    ensures JobsKept(s, ApplyDocument(e, s, a))
  {
    hide JobsKept, DoUpload, DoCreateUpload, DoConfirmUpload, DoReprocess, DoRequestDelete;
    match a
    case Upload(doc, col, j, q) => UploadKeepsJobs(e, s, doc, col, j, q);
    case CreateUpload(doc, col) => CreateKeepsJobs(e, s, doc, col);
    case ConfirmUpload(doc, j, q) => ConfirmKeepsJobs(s, doc, j, q);
    case Reprocess(doc, j, q) => ReprocessKeepsJobs(s, doc, j, q);
    case RequestDelete(doc, q) => RequestDeleteKeepsJobs(s, doc, q);
  }

  lemma UploadKeepsJobs(e: Env, s: State, doc: DocId, col: ColId, j: JobId, q: bool)
    ensures JobsKept(s, DoUpload(e, s, doc, col, j, q))
  {
    hide NewJob;
    NewJobIs(s.(docs := s.docs[doc := Doc(col, Active, None, None)], issued := s.issued[doc := col]), j, doc, col, q);
  }

  lemma CreateKeepsJobs(e: Env, s: State, doc: DocId, col: ColId)
    ensures JobsKept(s, DoCreateUpload(e, s, doc, col))
  {
  }

  lemma ConfirmKeepsJobs(s: State, doc: DocId, j: JobId, q: bool)
    ensures JobsKept(s, DoConfirmUpload(s, doc, j, q))
  {
    hide NewJob;
    if doc in s.docs { NewJobIs(s.(docs := s.docs[doc := s.docs[doc].(status := Active)]), j, doc, s.docs[doc].col, q); }
  }

  lemma ReprocessKeepsJobs(s: State, doc: DocId, j: JobId, q: bool)
    ensures JobsKept(s, DoReprocess(s, doc, j, q))
  {
    hide NewJob, InFlight;
    if doc in s.docs { NewJobIs(s, j, doc, s.docs[doc].col, q); }
  }

  lemma NewJobIs(s: State, j: JobId, doc: DocId, col: ColId, enqueued: bool)
    ensures var s' := NewJob(s, j, doc, col, enqueued);
      && s' == s.(jobs := s'.jobs, clock := s'.clock, issuedJobs := s'.issuedJobs, queue := s'.queue)
      && s'.jobs == s.jobs[j := s'.jobs[j]] && s'.jobs[j].doc == doc
  {
  }

  lemma RequestDeleteKeepsJobs(s: State, doc: DocId, q: bool)
    ensures JobsKept(s, DoRequestDelete(s, doc, q))
  {
  }

  lemma EventKeepsJobs(e: Env, s: State, a: Event)
    ensures var s' := ApplyEvent(e, s, a);
      && s'.jobs.Keys == s.jobs.Keys && s'.docs == s.docs && s'.store == s.store && s'.gone == s.gone && s'.issued == s.issued
      && (forall j :: j in s.jobs ==> s'.jobs[j].doc == s.jobs[j].doc && s'.jobs[j].status == s.jobs[j].status)
      && (s'.worker.Idle? || s'.worker == s.worker || (exists d :: s'.worker == Open(d, s.config)))
  {
    if a.Requeue? { RequeueStepShape(e, s, a.status, a.picked); }
    else if IsBroker(a) { BrokerStepShape(e, s, a); }
  }

  // ---- deletes are final ---------------------------------------------------------------

  /** Nothing of the document is left, and the worker is not ingesting it. */
  ghost predicate Erased(s: State, d: DocId) {
    && d in s.issued && d !in s.docs
    && (forall j :: j in s.jobs ==> s.jobs[j].doc != d)
    && (forall k :: k in s.store ==> k.0 != d)
    && !(PastClaim(s) && s.worker.doc == d)
  }

  /** What the running delete task has established so far. */
  ghost predicate DeleteProgress(s: State) {
    s.worker.OnDelete? && !s.worker.at.DelStart? ==>
      && (forall k :: k in s.store ==> k.0 != s.worker.doc)
      && (!s.worker.at.ChunksGone? ==> s.worker.doc in s.gone)
      && (s.worker.at.Checked? && s.worker.at.empty ==>
            forall k :: k in s.store && s.store[k].col == s.worker.col ==> k.0 !in s.docs)
  }

  ghost predicate Final(s: State) {
    DeleteProgress(s) && forall d :: d in s.gone ==> Erased(s, d)
  }

  lemma FinalKeptIngest(e: Env, s: State, a: IngestStep)
    requires Identities(e, s) && Final(s)
    ensures Final(ApplyIngest(e, s, a))
  {
    hide ApplyIngest, Unstarted;
    var s' := ApplyIngest(e, s, a);
    IngestStepShape(e, s, a);
    if s' != s {
      PastClaimFrom(e, s, a);
    }
  }

  lemma PastClaimFrom(e: Env, s: State, a: IngestStep)
    requires s.worker.OnIngest? && ApplyIngest(e, s, a) != s
    ensures PastClaim(ApplyIngest(e, s, a)) ==> PastClaim(s) || s.worker.job in s.jobs
    ensures !PastClaim(s) ==> ApplyIngest(e, s, a).store == s.store
  {
  }

  lemma FinalKeptCleanup(e: Env, s: State, a: CleanupStep)
    requires Identities(e, s) && Final(s)
    ensures Final(ApplyCleanup(e, s, a))
  {
    hide ApplyCleanup, Identities, DeleteProgress;
    var s' := ApplyCleanup(e, s, a);
    CleanupStepShape(e, s, a);
    if s' != s {
      DeleteProgressKept(e, s, a);
      forall d | d in s'.gone ensures Erased(s', d) {
        if d !in s.gone { NewlyGone(e, s, a, d); }
      }
    }
  }

  lemma NewlyGone(e: Env, s: State, a: CleanupStep, d: DocId)
    requires Identities(e, s) && DeleteProgress(s)
    requires d in ApplyCleanup(e, s, a).gone && d !in s.gone
    ensures Erased(ApplyCleanup(e, s, a), d)
  {
  }

  lemma DeleteProgressKept(e: Env, s: State, a: CleanupStep)
    requires Identities(e, s) && DeleteProgress(s)
    ensures DeleteProgress(ApplyCleanup(e, s, a))
  {
  }

  lemma FinalKeptDocument(e: Env, s: State, a: DocumentCall)
    requires Identities(e, s) && Final(s)
    ensures Final(ApplyDocument(e, s, a))
  {
    hide ApplyDocument, Unstarted, TaskIds;
    DocumentKeepsJobs(e, s, a);
  }

  lemma FinalKeptEvent(e: Env, s: State, a: Event)
    requires Identities(e, s) && Final(s)
    ensures Final(ApplyEvent(e, s, a))
  {
    hide ApplyEvent, RowIds, TaskIds, Unstarted;
    EventKeepsJobs(e, s, a);
  }

  lemma FinalKept(e: Env, s: State, a: Action)
    requires Identities(e, s) && Final(s)
    ensures Final(Apply(e, s, a))
  {
    hide ApplyIngest, ApplyCleanup, ApplyDocument, ApplyTagging, ApplyEvent, Identities;
    match a
    case IngestAct(step) => FinalKeptIngest(e, s, step);
    case Cleanup(work) => FinalKeptCleanup(e, s, work);
    case Document(call) => FinalKeptDocument(e, s, call);
    case Tagging(call) => var docs := TaggingShape(e, s, call);
    case Other(event) => FinalKeptEvent(e, s, event);
  }
}
