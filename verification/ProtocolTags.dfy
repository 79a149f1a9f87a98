/** The tag copy on the stored chunks follows the tag tables. */
module ProtocolTags {
  import opened Ids
  import opened Protocol
  import opened ProtocolSafety
  import Tags

  ghost function EffectiveOf(e: Env, s: State, d: DocId): set<string>
    requires d in s.docs
  {
    Tags.Effective(s.tags, e.home, s.docs[d].col, d)
  }

  /** A tag sync for the document is in the queue. */
  ghost predicate Waiting(s: State, d: DocId) {
    exists m :: m in s.queue && m.task.SyncTags? && m.task.doc == d
  }

  /** A tag sync for the document will still read the tables: queued, or opened and not yet read. */
  ghost predicate SyncDue(s: State, d: DocId) {
    Waiting(s, d) || (s.worker.OnSync? && s.worker.doc == d && s.worker.read.None?)
  }

  ghost predicate Writing(s: State, d: DocId) {
    s.worker.OnSync? && s.worker.doc == d && s.worker.read.Some?
  }

  ghost predicate EmbeddingOf(s: State, d: DocId) {
    s.worker.OnIngest? && s.worker.doc == d && s.worker.phase.Embedding?
  }

  ghost predicate ChunksCarry(s: State, d: DocId, tags: set<string>) {
    forall k :: k in s.store && k.0 == d ==> s.store[k].tags == tags
  }

  ghost predicate Followed(e: Env, s: State, d: DocId)
    requires d in s.docs
  {
    && (Writing(s, d) ==> Waiting(s, d) || s.worker.read.value == EffectiveOf(e, s, d))
    && (EmbeddingOf(s, d) ==> Waiting(s, d) || s.worker.phase.tags == EffectiveOf(e, s, d))
    && (SyncDue(s, d) || Writing(s, d) || d in s.lost || ChunksCarry(s, d, EffectiveOf(e, s, d)))
  }

  /** A reserved upload has no tag sync. */
  ghost predicate NoEarlySync(s: State) {
    forall d :: d in s.docs && s.docs[d].status == AwaitingUpload ==> !SyncDue(s, d) && !Writing(s, d)
  }

  ghost predicate TagCopy(e: Env, s: State) {
    && Tags.Scoped(s.tags, e.home, s.issued)
    && NoEarlySync(s)
    && forall d :: d in s.docs && s.docs[d].status == Active ==> Followed(e, s, d)
  }

  // ---- ingest steps --------------------------------------------------------------------

  lemma QueueGrows(s: State, s': State, d: DocId)
    requires s.queue <= s'.queue
    ensures Waiting(s, d) ==> Waiting(s', d)
  {
    if Waiting(s, d) {
      var m :| m in s.queue && m.task.SyncTags? && m.task.doc == d;
      assert m in s'.queue;
    }
  }

  /** An ingest step that neither embeds nor starts embedding only changes rows other than chunks. */
  lemma TagCopyKeptIngest(e: Env, s: State, a: IngestStep)
    requires Identities(e, s) && TagCopy(e, s)
    ensures TagCopy(e, ApplyIngest(e, s, a))
  {
    hide ApplyIngest, TagWrites, Followed, RowIds, TaskIds, Unstarted;
    var s' := ApplyIngest(e, s, a);
    IngestStepShape(e, s, a);
    if s' != s {
      IngestQueue(s, s');
      IngestTags(e, s, a);
      forall d | d in s'.docs && s'.docs[d].status == Active ensures Followed(e, s', d) {
        FollowedIngest(e, s, s', d);
      }
    }
  }

  lemma FollowedIngest(e: Env, s: State, s': State, d: DocId)
    requires Identities(e, s) && IngestShape(s, s') && TagWrites(e, s, s')
    requires d in s.docs && Followed(e, s, d)
    ensures Followed(e, s', d)
  {
    IngestQueue(s, s');
    assert EffectiveOf(e, s', d) == EffectiveOf(e, s, d);
    assert TaskOk(s, Held(s.worker));
  }

  lemma IngestQueue(s: State, s': State)
    requires IngestShape(s, s')
    ensures forall d :: Waiting(s', d) == Waiting(s, d)
  {
    forall d ensures Waiting(s', d) == Waiting(s, d) {
      QueueGrows(s, s', d);
      if Waiting(s', d) {
        var m :| m in s'.queue && m.task.SyncTags? && m.task.doc == d;
        assert m in s.queue;
      }
    }
  }

  /** The tags an ingest writes are those it read when it began embedding. */
  ghost predicate TagWrites(e: Env, s: State, s': State)
    requires s.worker.OnIngest?
  {
    && (forall k :: k in s'.store && !(k in s.store && s'.store[k] == s.store[k]) ==>
          s.worker.phase.Embedding? && k.0 == s.worker.doc && s'.store[k].tags == s.worker.phase.tags)
    && (s'.worker.OnIngest? && s'.worker.phase.Embedding? ==>
          s'.worker.phase.tags ==
            if s.worker.phase.Embedding? then s.worker.phase.tags
            else Tags.Effective(s.tags, e.home, s.worker.col, s.worker.doc))
  }

  lemma IngestTags(e: Env, s: State, a: IngestStep)
    requires s.worker.OnIngest? && ApplyIngest(e, s, a) != s
    ensures TagWrites(e, s, ApplyIngest(e, s, a))
  {
  }

  // ---- tag sync and delete steps -------------------------------------------------------

  lemma HeldJoinsQueue(s: State, q: multiset<Delivery>, d: DocId)
    requires s.worker.OnSync? && s.worker.doc == d
    requires q == s.queue + multiset{Held(s.worker)} || (s.worker.retries < MAX_RETRIES && q == s.queue + Retried(s.worker))
    ensures Waiting(s.(queue := q), d)
  {
    var m := if q == s.queue + multiset{Held(s.worker)} then Held(s.worker)
             else Held(s.worker).(retries := s.worker.retries + 1);
    assert m in q && m.task.SyncTags? && m.task.doc == d;
  }

  lemma FailedSync(e: Env, s: State)
    requires Identities(e, s) && TagCopy(e, s)
    ensures TagCopy(e, DoTaskFail(s))
  {
    hide DoTaskFail, Tags.Effective, Tags.Scoped, Identities, Followed, Waiting;
    var s' := DoTaskFail(s);
    FailedShape(s);
    if s' != s {
      forall d
        ensures FailedWaits(s, s', d)
        ensures Waiting(s', d) ==> Waiting(s, d) || (s.worker.OnSync? && s.worker.doc == d)
      {
        FailureWaits(s, d);
      }
      forall d | d in s'.docs && s'.docs[d].status == Active ensures Followed(e, s', d) { FollowedFail(e, s, s', d); }
    }
  }

  lemma FailedShape(s: State)
    ensures var s' := DoTaskFail(s);
      s' == s || ((s.worker.OnSync? || s.worker.OnDelete?) && s' == s.(queue := s'.queue, lost := s'.lost, worker := Idle)
                  && s.lost <= s'.lost)
  {
  }

  /** The failed sync waits again or is given up; others wait as they did. */
  ghost predicate FailedWaits(s: State, s': State, d: DocId) {
    && (Waiting(s, d) ==> Waiting(s', d))
    && (Waiting(s', d) ==> Waiting(s, d) || (s.worker.OnSync? && s.worker.doc == d))
    && (s.worker.OnSync? && s.worker.doc == d ==> Waiting(s', d) || d in s'.lost)
  }

  lemma FailureWaits(s: State, d: DocId)
    requires s.worker.OnSync? || s.worker.OnDelete?
    ensures FailedWaits(s, DoTaskFail(s), d)
  {
    var s' := DoTaskFail(s);
    QueueGrows(s, s', d);
    if s.worker.OnSync? && s.worker.doc == d && s.worker.retries < MAX_RETRIES { HeldJoinsQueue(s, s'.queue, d); }
  }

  lemma FollowedFail(e: Env, s: State, s': State, d: DocId)
    requires d in s.docs && Followed(e, s, d) && FailedWaits(s, s', d)
    requires s' == s.(queue := s'.queue, lost := s'.lost, worker := Idle) && s.lost <= s'.lost && !s.worker.OnIngest?
    ensures Followed(e, s', d)
  {
    hide Tags.Effective, Waiting;
  }

  lemma DroppedSync(e: Env, s: State)
    requires Identities(e, s) && TagCopy(e, s)
    ensures TagCopy(e, DoTaskTimeout(s))
  {
    hide Tags.Effective, Tags.Scoped, Identities, Followed;
    if DoTaskTimeout(s) != s {
      var s' := s.(lost := if s.worker.OnSync? then s.lost + {s.worker.doc} else s.lost, worker := Idle);
      assert DoTaskTimeout(s) == s';
      forall d ensures Waiting(s', d) == Waiting(s, d) { SameQueueWaits(s, s', d); }
      forall d | d in s'.docs && s'.docs[d].status == Active ensures Followed(e, s', d) { FollowedDrop(e, s, s', d); }
    }
  }

  lemma FollowedDrop(e: Env, s: State, s': State, d: DocId)
    requires d in s.docs && Followed(e, s, d) && !s.worker.OnIngest?
    requires s' == s.(lost := if s.worker.OnSync? then s.lost + {s.worker.doc} else s.lost, worker := Idle)
    ensures Followed(e, s', d)
  {
    hide Tags.Effective;
    SameQueueWaits(s, s', d);
  }

  lemma WrittenTags(e: Env, s: State)
    requires Identities(e, s) && TagCopy(e, s)
    ensures TagCopy(e, DoWriteTags(s))
  {
    var s' := DoWriteTags(s);
    if s' != s {
      forall d | d in s'.docs && s'.docs[d].status == Active ensures Followed(e, s', d) {
        assert Waiting(s', d) == Waiting(s, d);
      }
    }
  }

  lemma ErasedRows(e: Env, s: State)
    requires Identities(e, s) && TagCopy(e, s)
    ensures TagCopy(e, DoDeleteRows(s))
  {
    var s' := DoDeleteRows(s);
    if s' != s {
      forall d | d in s'.docs && s'.docs[d].status == Active ensures Followed(e, s', d) {
        Tags.DropElsewhere(s.tags, e.home, s.worker.doc, s.docs[d].col, d);
        assert Waiting(s', d) == Waiting(s, d);
      }
    }
  }

  lemma TagCopyKeptCleanup(e: Env, s: State, a: CleanupStep)
    requires Identities(e, s) && TagCopy(e, s)
    ensures TagCopy(e, ApplyCleanup(e, s, a))
  {
    hide DoTaskFail, DoTaskTimeout, DoWriteTags, DoDeleteRows, DoReadTags, DoDeleteChunks, DoCheckEmpty, DoDropCollection;
    hide TagCopy, Identities;
    match a
    case TaskFail => FailedSync(e, s);
    case TaskTimeout => DroppedSync(e, s);
    case WriteTags => WrittenTags(e, s);
    case DeleteRows => ErasedRows(e, s);
    case ReadTags => ReadTagsKeep(e, s);
    case DeleteChunks => FewerChunksDeleted(e, s);
    case CheckEmpty => NothingChecked(e, s);
    case DropCollection => FewerChunksDropped(e, s);
  }

  lemma FewerChunksDeleted(e: Env, s: State)
    requires TagCopy(e, s)
    ensures TagCopy(e, DoDeleteChunks(s))
  {
    hide TagCopy;
    FewerChunks(e, s, DoDeleteChunks(s));
  }

  lemma NothingChecked(e: Env, s: State)
    requires TagCopy(e, s)
    ensures TagCopy(e, DoCheckEmpty(s))
  {
    hide TagCopy;
    FewerChunks(e, s, DoCheckEmpty(s));
  }

  lemma FewerChunksDropped(e: Env, s: State)
    requires TagCopy(e, s)
    ensures TagCopy(e, DoDropCollection(s))
  {
    hide TagCopy;
    FewerChunks(e, s, DoDropCollection(s));
  }

  lemma ReadTagsKeep(e: Env, s: State)
    requires Identities(e, s) && TagCopy(e, s)
    ensures TagCopy(e, DoReadTags(e, s))
  {
    hide Tags.Effective, Tags.Scoped, RowIds, Unstarted, Followed;
    if DoReadTags(e, s) != s {
      var s' := s.(worker := s.worker.(read := Some(Tags.Effective(s.tags, e.home, s.worker.col, s.worker.doc))));
      assert DoReadTags(e, s) == s';
      forall d ensures Waiting(s', d) == Waiting(s, d) { SameQueueWaits(s, s', d); }
      forall d | d in s'.docs && s'.docs[d].status == Active ensures Followed(e, s', d) { FollowedRead(e, s, s', d); }
    }
  }

  lemma SameQueueWaits(s: State, s': State, d: DocId)
    requires s'.queue == s.queue
    ensures Waiting(s', d) == Waiting(s, d)
  {
  }

  /** A sync that has just read holds the document's effective tags. */
  lemma FollowedRead(e: Env, s: State, s': State, d: DocId)
    requires Identities(e, s) && d in s.docs && Followed(e, s, d) && s.worker.OnSync? && s.worker.read.None?
    requires s' == s.(worker := s.worker.(read := Some(Tags.Effective(s.tags, e.home, s.worker.col, s.worker.doc))))
    ensures Followed(e, s', d)
  {
    hide Tags.Effective, Unstarted;
    assert TaskOk(s, Held(s.worker));
    SameQueueWaits(s, s', d);
  }

  lemma FewerChunks(e: Env, s: State, s': State)
    requires TagCopy(e, s) && s' == s.(store := s'.store, worker := s'.worker)
    requires s' != s ==> s.worker.OnDelete? && (s'.worker.Idle? || s'.worker.OnDelete?)
    requires forall k :: k in s'.store ==> k in s.store && s'.store[k] == s.store[k]
    ensures TagCopy(e, s')
  {
    forall d | d in s.docs ensures Waiting(s', d) == Waiting(s, d) { }
  }

  // ---- API calls -----------------------------------------------------------------------

  lemma TagCopyKeptDocument(e: Env, s: State, a: DocumentCall)
    requires Identities(e, s) && TagCopy(e, s)
    ensures TagCopy(e, ApplyDocument(e, s, a))
  {
    var s' := ApplyDocument(e, s, a);
    DocumentCallShape(e, s, a);
    assert Tags.Scoped(s'.tags, e.home, s'.issued);
    assert NoEarlySync(s') by { NoEarlySyncKept(e, s, s'); }
    forall d | d in s'.docs && s'.docs[d].status == Active ensures Followed(e, s', d) {
      if d in s.docs && s.docs[d].status == Active { StillActive(e, s, s', d); } else { NewlyActive(e, s, s', d); }
    }
  }

  lemma StillActive(e: Env, s: State, s': State, d: DocId)
    requires CallShape(s, s') && d in s.docs && d in s'.docs && Followed(e, s, d)
    ensures Followed(e, s', d)
  {
    SameSyncs(s, s', d);
  }

  /** What an API call on documents can do, as far as tags are concerned. */
  ghost predicate CallShape(s: State, s': State) {
    && s'.store == s.store && s'.tags == s.tags && s'.worker == s.worker && s'.lost == s.lost
    && (forall m :: m in s.queue ==> m in s'.queue)
    && (forall m :: m in s'.queue && m.task.SyncTags? ==> m in s.queue)
    && (forall d :: d in s.issued ==> d in s'.issued && s'.issued[d] == s.issued[d])
    && (forall d :: d in s'.docs && d !in s.docs ==> d !in s.issued)
    && (forall d :: d in s'.docs && d in s.docs ==> s'.docs[d].col == s.docs[d].col)
    && (forall d :: d in s'.docs && d in s.docs && s'.docs[d].status != s.docs[d].status ==>
          s'.docs[d].status == Deleting || (s.docs[d].status == AwaitingUpload && s'.docs[d].status == Active))
  }

  /** Inserting a job and dispatching it changes nothing tags depend on. */
  lemma ThenNewJob(s: State, s1: State, j: JobId, doc: DocId, col: ColId, enqueued: bool)
    requires CallShape(s, s1)
    ensures CallShape(s, NewJob(s1, j, doc, col, enqueued))
  {
    var s' := NewJob(s1, j, doc, col, enqueued);
    assert s'.docs == s1.docs && s'.issued == s1.issued && s'.store == s1.store;
  }

  lemma NewRowShape(e: Env, s: State, doc: DocId, col: ColId, status: DocStatus)
    requires RowIds(e, s) && doc !in s.issued
    ensures CallShape(s, s.(docs := s.docs[doc := Doc(col, status, None, None)], issued := s.issued[doc := col]))
  {
  }

  lemma StatusShape(s: State, doc: DocId, status: DocStatus)
    requires doc in s.docs
    requires status == Deleting || (status == Active && s.docs[doc].status == AwaitingUpload) || status == s.docs[doc].status
    ensures CallShape(s, s.(docs := s.docs[doc := s.docs[doc].(status := status)]))
  {
  }

  lemma RequestDeleteShape(s: State, doc: DocId, enqueued: bool)
    ensures CallShape(s, DoRequestDelete(s, doc, enqueued))
  {
    var s' := DoRequestDelete(s, doc, enqueued);
    if s' != s {
      var s1 := s.(docs := s'.docs);
      StatusShape(s, doc, if enqueued then Deleting else Active);
      assert forall m :: m in s'.queue && m.task.SyncTags? ==> m in s.queue;
    }
  }

  lemma DocumentCallShape(e: Env, s: State, a: DocumentCall)
    requires RowIds(e, s)
    ensures CallShape(s, ApplyDocument(e, s, a))
  {
    if ApplyDocument(e, s, a) != s {
      match a
      case Upload(doc, col, j, q) =>
        NewRowShape(e, s, doc, col, Active);
        ThenNewJob(s, s.(docs := s.docs[doc := Doc(col, Active, None, None)], issued := s.issued[doc := col]), j, doc, col, q);
      case CreateUpload(doc, col) => NewRowShape(e, s, doc, col, AwaitingUpload);
      case ConfirmUpload(doc, j, q) =>
        StatusShape(s, doc, Active);
        ThenNewJob(s, s.(docs := s.docs[doc := s.docs[doc].(status := Active)]), j, doc, s.docs[doc].col, q);
      case Reprocess(doc, j, q) =>
        assert CallShape(s, s);
        ThenNewJob(s, s, j, doc, s.docs[doc].col, q);
      case RequestDelete(doc, q) => RequestDeleteShape(s, doc, q);
    }
  }

  lemma SameSyncs(s: State, s': State, d: DocId)
    requires CallShape(s, s')
    ensures Waiting(s', d) == Waiting(s, d)
  {
  }

  lemma NoEarlySyncKept(e: Env, s: State, s': State)
    requires Identities(e, s) && NoEarlySync(s) && CallShape(s, s')
    ensures NoEarlySync(s')
  {
    assert !s.worker.Idle? ==> TaskOk(s, Held(s.worker));
    forall d | d in s'.docs ensures Waiting(s', d) == Waiting(s, d) { SameSyncs(s, s', d); }
  }

  /** A document that has just become active has no chunk and nobody is working on it. */
  lemma NewlyActive(e: Env, s: State, s': State, d: DocId)
    requires Identities(e, s) && TagCopy(e, s) && CallShape(s, s')
    requires d in s'.docs && s'.docs[d].status == Active && !(d in s.docs && s.docs[d].status == Active)
    ensures Followed(e, s', d)
  {
    SameSyncs(s, s', d);
    assert !s.worker.Idle? ==> TaskOk(s, Held(s.worker));
  }

  // ---- tag calls -----------------------------------------------------------------------

  lemma QueuedSyncs(s: State, docs: set<DocId>, s': State, d: DocId)
    requires s'.queue == s.queue + Syncs(s, docs)
    ensures Waiting(s, d) ==> Waiting(s', d)
    ensures Waiting(s', d) ==> Waiting(s, d) || (d in docs && d in s.docs && s.docs[d].status == Active)
    ensures d in docs && d in s.docs && s.docs[d].status == Active ==> Waiting(s', d)
  {
    QueueGrows(s, s', d);
    if d in docs && d in s.docs && s.docs[d].status == Active {
      var m := Delivery(SyncTags(d, s.docs[d].col), 0);
      assert m in Syncs(s, docs) && m in s'.queue;
    }
    if Waiting(s', d) {
      var m :| m in s'.queue && m.task.SyncTags? && m.task.doc == d;
      assert m in s.queue || m in Syncs(s, docs);
    }
  }

  /** Queueing a sync for every active document whose effective tags may have changed is enough. */
  lemma RetagKeeps(e: Env, s: State, t: Tags.Tables, docs: set<DocId>)
    requires Identities(e, s) && TagCopy(e, s)
    requires Tags.Scoped(t, e.home, s.issued)
    requires forall d :: d in s.docs && s.docs[d].status == Active && d !in docs ==>
      Tags.Effective(t, e.home, s.docs[d].col, d) == EffectiveOf(e, s, d)
    ensures TagCopy(e, s.(tags := t, queue := s.queue + Syncs(s, docs)))
  {
    var s' := s.(tags := t, queue := s.queue + Syncs(s, docs));
    forall d | d in s.docs
      ensures s.docs[d].status == Active ==> Followed(e, s', d)
      ensures s.docs[d].status == AwaitingUpload ==> !SyncDue(s', d) && !Writing(s', d)
    {
      QueuedSyncs(s, docs, s', d);
    }
  }

  lemma AssignIsScoped(e: Env, s: State, ws: WsId, place: Tags.Target, id: TagId)
    requires Identities(e, s) && TagCopy(e, s) && TargetIn(e, s, ws, place) && Tags.HasTag(s.tags, ws, id)
    ensures Tags.Scoped(Tags.Attach(s.tags, place, id), e.home, s.issued)
    ensures Tags.Scoped(Tags.Detach(s.tags, place, id), e.home, s.issued)
  {
    hide NoEarlySync, Followed, Unstarted, TaskIds;
  }

  lemma AssignKeeps(e: Env, s: State, ws: WsId, place: Tags.Target, id: TagId)
    requires Identities(e, s) && TagCopy(e, s)
    ensures TagCopy(e, DoAssign(e, s, ws, place, id)) && TagCopy(e, DoUnassign(e, s, ws, place, id))
  {
    hide TagCopy, Identities, Tags.Attach, Tags.Detach, Tags.Effective, Tags.Scoped, Syncs;
    if TargetIn(e, s, ws, place) && Tags.HasTag(s.tags, ws, id) {
      AssignIsScoped(e, s, ws, place, id);
      forall d | d in s.docs && s.docs[d].status == Active && d !in Affected(e, s, place)
        ensures Tags.Effective(Tags.Attach(s.tags, place, id), e.home, s.docs[d].col, d) == EffectiveOf(e, s, d)
        ensures Tags.Effective(Tags.Detach(s.tags, place, id), e.home, s.docs[d].col, d) == EffectiveOf(e, s, d)
      {
        Tags.AttachElsewhere(s.tags, e.home, place, id, s.docs[d].col, d);
      }
      RetagKeeps(e, s, Tags.Attach(s.tags, place, id), Affected(e, s, place));
      RetagKeeps(e, s, Tags.Detach(s.tags, place, id), Affected(e, s, place));
    }
  }

  lemma TagCopyKeptTagging(e: Env, s: State, a: TagCall)
    requires Identities(e, s) && TagCopy(e, s)
    ensures TagCopy(e, ApplyTagging(e, s, a))
  {
    match a
    case CreateTag(ws, id, name) =>
      if Tags.Create(s.tags, ws, id, name).Some? {
        Tags.CreateElsewhere(s.tags, e.home, s.issued, ws, id, name);
        RetagKeeps(e, s, Tags.Create(s.tags, ws, id, name).value, {});
      }
    case RenameTag(ws, id, name) =>
      if Tags.Rename(s.tags, ws, id, name).Some? {
        Tags.RenameElsewhere(s.tags, e.home, s.issued, ws, id, name);
        RetagKeeps(e, s, Tags.Rename(s.tags, ws, id, name).value, InWorkspace(e, s, ws));
      }
    case DeleteTag(ws, id) =>
      if Tags.Delete(s.tags, ws, id).Some? {
        Tags.DeleteElsewhere(s.tags, e.home, s.issued, ws, id);
        RetagKeeps(e, s, Tags.Delete(s.tags, ws, id).value, InWorkspace(e, s, ws));
      }
    case MergeTags(ws, source, target) =>
      if Tags.Merge(s.tags, ws, source, target).Some? {
        Tags.MergeElsewhere(s.tags, e.home, s.issued, ws, source, target);
        RetagKeeps(e, s, Tags.Merge(s.tags, ws, source, target).value, InWorkspace(e, s, ws));
      }
    case AssignTag(ws, w, id) => AssignKeeps(e, s, ws, w, id);
    case UnassignTag(ws, w, id) => AssignKeeps(e, s, ws, w, id);
  }

  // ---- broker, sweeps, keys ------------------------------------------------------------

  lemma TakenDelivery(e: Env, s: State, m: Delivery)
    requires Identities(e, s) && TagCopy(e, s)
    ensures TagCopy(e, DoTake(s, m))
  {
    hide DoTake, Tags.Effective, Tags.Scoped, Identities, Followed;
    var s' := DoTake(s, m);
    TakenShape(s, m);
    if s' != s {
      forall d ensures SyncDue(s', d) == SyncDue(s, d) && (Waiting(s', d) ==> Waiting(s, d)) { TakenIsDue(s, m, d); }
      forall d | d in s'.docs && s'.docs[d].status == Active ensures Followed(e, s', d) { FollowedTake(e, s, s', d); }
    }
  }

  lemma TakenShape(s: State, m: Delivery)
    ensures var s' := DoTake(s, m);
      s' == s || (s.worker.Idle? && m in s.queue && s' == s.(queue := s.queue - multiset{m}, worker := Open(m, s.config)))
  {
  }

  /** A sync taken from the queue is as due as it was. */
  lemma TakenIsDue(s: State, m: Delivery, d: DocId)
    requires s.worker.Idle? && m in s.queue
    ensures var s' := s.(queue := s.queue - multiset{m}, worker := Open(m, s.config));
      SyncDue(s', d) == SyncDue(s, d) && (Waiting(s', d) ==> Waiting(s, d))
  {
    var q := s.queue - multiset{m};
    if n :| n in q && n.task.SyncTags? && n.task.doc == d { assert n in s.queue; }
    if Waiting(s, d) {
      var n :| n in s.queue && n.task.SyncTags? && n.task.doc == d;
      if n != m { assert n in q; }
    }
  }

  lemma FollowedTake(e: Env, s: State, s': State, d: DocId)
    requires d in s.docs && s.worker.Idle? && Followed(e, s, d) && SyncDue(s', d) == SyncDue(s, d)
    requires exists m :: s' == s.(queue := s.queue - multiset{m}, worker := Open(m, s.config))
    ensures Followed(e, s', d)
  {
    hide Tags.Effective, Waiting, SyncDue;
  }

  lemma CrashedWorker(e: Env, s: State)
    requires Identities(e, s) && TagCopy(e, s)
    ensures TagCopy(e, DoCrash(s))
  {
    var s' := DoCrash(s);
    if s' != s {
      forall d | d in s'.docs
        ensures Waiting(s, d) ==> Waiting(s', d)
        ensures Waiting(s', d) ==> Waiting(s, d) || (s.worker.OnSync? && s.worker.doc == d)
        ensures s.worker.OnSync? && s.worker.doc == d ==> Waiting(s', d)
      {
        QueueGrows(s, s', d);
        if s.worker.OnSync? && s.worker.doc == d { HeldJoinsQueue(s, s'.queue, d); }
      }
    }
  }

  /** Events that move only ingest or delete deliveries, time stamps and keys. */
  lemma TagCopyKeptQuiet(e: Env, s: State, s': State)
    requires TagCopy(e, s)
    requires s'.docs == s.docs && s'.store == s.store && s'.tags == s.tags && s'.worker == s.worker
    requires s'.issued == s.issued && s'.lost == s.lost
    requires forall m :: m in s.queue && m.task.SyncTags? ==> m in s'.queue
    requires forall m :: m in s'.queue && m.task.SyncTags? ==> m in s.queue
    ensures TagCopy(e, s')
  {
    forall d | d in s'.docs ensures Waiting(s', d) == Waiting(s, d) { }
  }

  lemma TagCopyKeptEvent(e: Env, s: State, a: Event)
    requires Identities(e, s) && TagCopy(e, s)
    ensures TagCopy(e, ApplyEvent(e, s, a))
  {
    match a
    case Take(m) => TakenDelivery(e, s, m);
    case Crash => CrashedWorker(e, s);
    case Requeue(status, picked) => RequeuedTags(e, s, status, picked);
    case LoseIngest(m) => LostIngest(e, s, m);
    case RepeatIngest(m) => RepeatedIngest(e, s, m);
    case Purge(d) => PurgedTags(e, s, d);
    case ExpireBeat(j) => TagCopyKeptQuiet(e, s, s.(beats := s.beats - {j}));
    case LiftPause => TagCopyKeptQuiet(e, s, s.(paused := false));
    case SetConfig(c) => TagCopyKeptQuiet(e, s, s.(config := c));
  }

  lemma RequeuedTags(e: Env, s: State, status: JobStatus, picked: set<JobId>)
    requires TagCopy(e, s)
    ensures TagCopy(e, DoRequeue(e, s, status, picked))
  {
    RequeueStepShape(e, s, status, picked);
    var s' := DoRequeue(e, s, status, picked);
    assert s.queue <= s'.queue;
    TagCopyKeptQuiet(e, s, s');
  }

  lemma PurgedTags(e: Env, s: State, d: DocId)
    requires TagCopy(e, s)
    ensures TagCopy(e, DoPurge(s, d))
  {
    TagCopyKeptQuiet(e, s, DoPurge(s, d));
  }

  lemma LostIngest(e: Env, s: State, m: Delivery)
    requires TagCopy(e, s)
    ensures TagCopy(e, DoLose(s, m))
  {
    var s' := DoLose(s, m);
    if m in s.queue && m.task.Ingest? {
      assert s' == s.(queue := s.queue - multiset{m});
      forall x | x in s.queue && x.task.SyncTags? ensures x in s'.queue { assert x != m; }
      forall x | x in s'.queue ensures x in s.queue { }
      TagCopyKeptQuiet(e, s, s');
    }
  }

  lemma RepeatedIngest(e: Env, s: State, m: Delivery)
    requires TagCopy(e, s)
    ensures TagCopy(e, DoRepeat(s, m))
  {
    var s' := DoRepeat(s, m);
    if s' != s {
      assert s' == s.(queue := s.queue + multiset{m});
      forall x | x in s'.queue && x.task.SyncTags? ensures x in s.queue { assert x != m; }
      TagCopyKeptQuiet(e, s, s');
    }
  }

  lemma TagCopyKept(e: Env, s: State, a: Action)
    requires Identities(e, s) && TagCopy(e, s)
    ensures TagCopy(e, Apply(e, s, a))
  {
    match a
    case IngestAct(step) => TagCopyKeptIngest(e, s, step);
    case Cleanup(work) => TagCopyKeptCleanup(e, s, work);
    case Document(call) => TagCopyKeptDocument(e, s, call);
    case Tagging(call) => TagCopyKeptTagging(e, s, call);
    case Other(event) => TagCopyKeptEvent(e, s, event);
  }
}
