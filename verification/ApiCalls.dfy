/** The API calls that share the worker's tables, as the code runs them. Each answers with an
    HTTP status and is proved to be one step of the protocol. */
module ApiCalls {
  import opened Ids
  import opened Bytes
  import opened Protocol
  import opened IngestWorker
  import Tags

  /** `_create_pending_job_and_enqueue`; without a broker the row is left for the sweep. */
  method CreatePendingJob(b: Backend, doc: DocId, col: ColId, job: JobId, broker: bool)
    modifies b
    ensures b.View() == NewJob(old(b.View()), job, doc, col, broker)
    ensures b.jobs == old(b.jobs)[job := Job(doc, col, Pending, None, old(b.clock) + 1, old(b.clock) + 1)]
    ensures b.queue == if broker then old(b.queue) + multiset{Delivery(Ingest(job, doc, col), 0)} else old(b.queue)
    ensures b.docs == old(b.docs)
  {
    b.clock := b.clock + 1;
    b.jobs := b.jobs[job := Job(doc, col, Pending, None, b.clock, b.clock)];
    b.issuedJobs := b.issuedJobs[job := doc];
    if broker {
      b.queue := b.queue + multiset{Delivery(Ingest(job, doc, col), 0)};
    }
  }

  /** The upload, `_persist_and_enqueue`: document and job rows go in together, then the dispatch. `doc`
      and `job` are new identifiers. */
  method PersistAndEnqueue(b: Backend, col: ColId, doc: DocId, job: JobId, broker: bool)
    requires col in b.e.home && doc !in b.issued && job !in b.issuedJobs
    modifies b
    ensures b.View() == Apply(b.e, old(b.View()), Document(Protocol.Upload(doc, col, job, broker)))
    ensures b.docs == old(b.docs)[doc := Doc(col, Active, None, None)]
    ensures b.jobs == old(b.jobs)[job := Job(doc, col, Pending, None, old(b.clock) + 1, old(b.clock) + 1)]
    ensures b.queue == if broker then old(b.queue) + multiset{Delivery(Ingest(job, doc, col), 0)} else old(b.queue)
  {
    b.docs := b.docs[doc := Doc(col, Active, None, None)];
    b.issued := b.issued[doc := col];
    CreatePendingJob(b, doc, col, job, broker);
  }

  /** `create_upload`: the row is reserved, hidden and without a job, until the upload is confirmed.
      `retention` is the number of days asked for, `supported` whether the file type is, `presigns`
      whether the storage backend can sign an upload. */
  method CreateUpload(b: Backend, col: ColId, doc: DocId, allowed: bool, retention: Option<int>, supported: bool, presigns: bool)
    returns (status: nat)
    requires col in b.e.home && doc !in b.issued
    modifies b
    ensures status == 200 <==> allowed && (retention.None? || 1 <= retention.value <= 30) && supported && presigns
    ensures status == 403 <==> !allowed
    ensures status == 422 <==> allowed && retention.Some? && (retention.value < 1 || retention.value > 30)
    ensures status in {200, 400, 403, 415, 422}
    ensures b.View() ==
      if status == 200 then Apply(b.e, old(b.View()), Document(Protocol.CreateUpload(doc, col))) else old(b.View())
    ensures status == 200 ==> b.docs == old(b.docs)[doc := Doc(col, AwaitingUpload, None, None)]
    ensures b.jobs == old(b.jobs) && b.queue == old(b.queue)
  {
    if !allowed {
      return 403;
    }
    if retention.Some? && (retention.value < 1 || retention.value > 30) {
      return 422;
    }
    if !supported {
      return 415;
    }
    if !presigns {
      return 400;
    }
    b.docs := b.docs[doc := Doc(col, AwaitingUpload, None, None)];
    b.issued := b.issued[doc := col];
    status := 200;
  }

  /** What the storage backend finds at the reserved key: nothing, or an object of some size, and its
      leading bytes unless it vanishes before they are read. */
  datatype Upload = NoBytes | Object(size: nat, head: Option<seq<Byte>>)

  /** The leading bytes to validate; those of an empty object are not read. */
  function HeadOf(upload: Upload): Option<seq<Byte>> {
    if upload.NoBytes? then None else if upload.size > 0 then upload.head else Some([])
  }

  predicate Accepted(upload: Upload, limit: nat, valid: seq<Byte> -> bool) {
    upload.Object? && upload.size <= limit && HeadOf(upload).Some? && valid(HeadOf(upload).value)
  }

  /** `_verify_uploaded_object`: the answer that refuses the upload, 200 if none does, and whether the
      object is purged. `valid` is the content check of the declared type. */
  method VerifyUploadedObject(upload: Upload, limit: nat, valid: seq<Byte> -> bool) returns (status: nat, purged: bool)
    ensures status == 200 <==> Accepted(upload, limit, valid)
    ensures status == 409 <==> upload.NoBytes? || (0 < upload.size <= limit && upload.head.None?)
    ensures status == 413 <==> upload.Object? && upload.size > limit
    ensures status == 415 <==>
      && upload.Object? && upload.size <= limit
      && (if upload.size == 0 then !valid([]) else upload.head.Some? && !valid(upload.head.value))
    ensures status in {200, 409, 413, 415} && (purged <==> status == 413 || status == 415)
  {
    if upload.NoBytes? {
      return 409, false;
    }
    if upload.size > limit {
      return 413, true;
    }
    var head: seq<Byte> := [];
    if upload.size > 0 {
      if upload.head.None? {
        return 409, false;
      }
      head := upload.head.value;
    }
    if !valid(head) {
      return 415, true;
    }
    return 200, false;
  }

  /** `confirm_upload`. `allowed` is the write gate's verdict, `job` a new identifier. */
  method ConfirmUpload(b: Backend, doc: DocId, allowed: bool, upload: Upload, limit: nat, valid: seq<Byte> -> bool,
                       job: JobId, broker: bool)
    returns (status: nat, purged: bool)
    requires job !in b.issuedJobs
    modifies b
    ensures b.View() ==
      if status == 200 then Apply(b.e, old(b.View()), Document(Protocol.ConfirmUpload(doc, job, broker))) else old(b.View())
    ensures status == 200 <==>
      && allowed && doc in old(b.docs) && old(b.docs)[doc].status == AwaitingUpload
      && Accepted(upload, limit, valid)
    ensures status == 403 <==> !allowed
    ensures status == 404 <==> allowed && doc !in old(b.docs)
    ensures purged <==> (status == 413 || status == 415)
    ensures allowed && doc in old(b.docs) && old(b.docs)[doc].status != AwaitingUpload ==> status == 409
    ensures status == 200 ==>
      && b.docs == old(b.docs)[doc := old(b.docs)[doc].(status := Active)]
      && b.jobs == old(b.jobs)[job := Job(doc, old(b.docs)[doc].col, Pending, None, old(b.clock) + 1, old(b.clock) + 1)]
      && b.queue == if broker then old(b.queue) + multiset{Delivery(Ingest(job, doc, old(b.docs)[doc].col), 0)} else old(b.queue)
  {
    if !allowed {
      return 403, false;
    }
    if doc !in b.docs {
      return 404, false;
    }
    if b.docs[doc].status != AwaitingUpload {
      return 409, false;
    }
    status, purged := VerifyUploadedObject(upload, limit, valid);
    if status != 200 {
      return;
    }
    var col := b.docs[doc].col;
    b.docs := b.docs[doc := b.docs[doc].(status := Active)];
    CreatePendingJob(b, doc, col, job, broker);
  }

  /** A second confirmation, or one after a delete, changes nothing. */
  method ConfirmTwice(b: Backend, doc: DocId, upload: Upload, limit: nat, valid: seq<Byte> -> bool,
                      job: JobId, again: JobId, broker: bool)
    returns (first: nat, second: nat)
    requires job !in b.issuedJobs && again !in b.issuedJobs && again != job
    modifies b
    ensures first == 200 ==> second == 409
    ensures first == 200 ==> b.View() == Apply(b.e, old(b.View()), Document(Protocol.ConfirmUpload(doc, job, broker)))
    ensures first != 200 ==> b.View() == old(b.View())
  {
    var purged;
    first, purged := ConfirmUpload(b, doc, true, upload, limit, valid, job, broker);
    if first == 200 {
      second, purged := ConfirmUpload(b, doc, true, upload, limit, valid, again, broker);
    } else {
      second := first;
    }
  }

  /** The newest job row of a document, as `ORDER BY created_at DESC LIMIT 1` returns it. */
  ghost predicate IsLatest(s: State, doc: DocId, latest: Option<JobId>) {
    match latest
    case None => forall k :: k in s.jobs ==> s.jobs[k].doc != doc
    case Some(j) =>
      && j in s.jobs && s.jobs[j].doc == doc
      && forall k :: k in s.jobs && s.jobs[k].doc == doc && k != j ==> s.jobs[k].created < s.jobs[j].created
  }

  /** `reprocess_document`: a job already queued or running is returned instead of a second one. */
  method ReprocessDocument(b: Backend, doc: DocId, latest: Option<JobId>, job: JobId, broker: bool)
    returns (status: nat, running: JobId)
    requires job !in b.issuedJobs && IsLatest(b.View(), doc, latest)
    modifies b
    ensures b.View() == Apply(b.e, old(b.View()), Document(Reprocess(doc, job, broker)))
    ensures status == 404 <==> doc !in old(b.docs)
    ensures status == 409 <==> doc in old(b.docs) && old(b.docs)[doc].status != Active
    ensures status == 200 ==> running in b.jobs && b.jobs[running].doc == doc && b.jobs[running].status in {Pending, Processing, RateLimited}
    ensures status in {200, 404, 409} && (status != 200 ==> b.View() == old(b.View()))
    ensures (status == 200 && latest.Some? && old(b.jobs)[latest.value].status in {Pending, Processing, RateLimited}) ==>
      running == latest.value && b.View() == old(b.View())
    ensures (status == 200 && !(latest.Some? && old(b.jobs)[latest.value].status in {Pending, Processing, RateLimited})) ==>
      && running == job && b.docs == old(b.docs)
      && b.jobs == old(b.jobs)[job := Job(doc, old(b.docs)[doc].col, Pending, None, old(b.clock) + 1, old(b.clock) + 1)]
      && b.queue == if broker then old(b.queue) + multiset{Delivery(Ingest(job, doc, old(b.docs)[doc].col), 0)} else old(b.queue)
  {
    running := job;
    if doc !in b.docs {
      return 404, running;
    }
    if b.docs[doc].status != Active {
      return 409, running;
    }
    status := 200;
    if latest.Some? && b.jobs[latest.value].status in {Pending, Processing, RateLimited} {
      running := latest.value;
    } else {
      assert !InFlight(b.View(), doc);
      CreatePendingJob(b, doc, b.docs[doc].col, job, broker);
    }
  }

  /** `delete_document`: tombstone, drop the jobs, dispatch; undo the tombstone without a broker. */
  method RequestDelete(b: Backend, doc: DocId, broker: bool) returns (status: nat)
    modifies b
    ensures b.View() == Apply(b.e, old(b.View()), Document(Protocol.RequestDelete(doc, broker)))
    ensures status == 404 <==> doc !in old(b.docs) || old(b.docs)[doc].status == Deleting
    ensures status == 404 ==> b.View() == old(b.View())
    ensures status != 404 ==>
      && status == (if broker then 202 else 503)
      && b.docs == old(b.docs)[doc := old(b.docs)[doc].(status := if broker then Deleting else Active)]
      && b.queue == (if broker then old(b.queue) + multiset{Delivery(DeleteDoc(doc, old(b.docs)[doc].col), 0)} else old(b.queue))
      && (forall j :: j in b.jobs <==> j in old(b.jobs) && old(b.jobs)[j].doc != doc)
      && forall j :: j in b.jobs ==> b.jobs[j] == old(b.jobs)[j]
  {
    hide Apply, JobsWithout;
    RequestIs(b.e, b.View(), doc, broker);
    JobsWithoutAre(b.jobs, doc);
    if doc !in b.docs || b.docs[doc].status == Deleting {
      return 404;
    }
    var col := b.docs[doc].col;
    b.docs := b.docs[doc := b.docs[doc].(status := Deleting)];
    b.jobs := JobsWithout(b.jobs, doc);
    if broker {
      b.queue := b.queue + multiset{Delivery(DeleteDoc(doc, col), 0)};
      status := 202;
    } else {
      b.docs := b.docs[doc := b.docs[doc].(status := Active)];
      status := 503;
    }
  }

  lemma RequestIs(e: Env, s: State, doc: DocId, broker: bool)
    ensures Apply(e, s, Document(Protocol.RequestDelete(doc, broker))) == DoRequestDelete(s, doc, broker)
  {
    hide DoRequestDelete;
  }

  // ---- merging tags --------------------------------------------------------------------

  /** `_repoint` on one join table: first the rows that would become duplicates go, then the rest
      of the source's rows are pointed at the target. No two rows collide on the primary key. */
  method Repoint(rows: set<(nat, TagId)>, source: TagId, target: TagId) returns (moved: set<(nat, TagId)>)
    requires source != target
    ensures moved == Tags.Repointed(rows, source, target)
    ensures |moved| == |rows| - |set r | r in rows && r.1 == source && (r.0, target) in rows|
  {
    var dups := set r | r in rows && r.1 == source && (r.0, target) in rows;
    var kept := rows - dups;
    moved := set r | r in kept :: if r.1 == source then (r.0, target) else r;
    RepointIsInjective(kept, source, target);
    assert rows == kept + dups && kept !! dups;
    assert |kept + dups| == |kept| + |dups|;
    forall r: (nat, TagId) ensures r in moved <==> r in Tags.Repointed(rows, source, target) {
      Tags.RepointedRows(rows, source, target, r.0, r.1);
      assert (r.0, r.1) == r;
      if r in kept && r.1 != source { assert r == if r.1 == source then (r.0, target) else r; }
      var from := (r.0, source);
      if r.1 == target && from in kept { assert r == if from.1 == source then (from.0, target) else from; }
    }
  }

  lemma {:induction false} RepointIsInjective(kept: set<(nat, TagId)>, source: TagId, target: TagId)
    requires forall r :: r in kept && r.1 == source ==> (r.0, target) !in kept
    ensures |set r | r in kept :: if r.1 == source then (r.0, target) else r| == |kept|
    decreases |kept|
  {
    var moved := set r | r in kept :: if r.1 == source then (r.0, target) else r;
    if kept == {} {
      assert moved == {};
    } else {
      var x :| x in kept;
      var y := if x.1 == source then (x.0, target) else x;
      var less := set r | r in kept - {x} :: if r.1 == source then (r.0, target) else r;
      RepointIsInjective(kept - {x}, source, target);
      assert moved == less + {y};
      assert y !in less;
    }
  }

  /** The tag bridge for a workspace: one sync per row of its query. */
  method SyncRows(b: Backend, rows: seq<DocId>, ghost docs: set<DocId>)
    requires forall x, y :: 0 <= x < y < |rows| ==> rows[x] != rows[y]
    requires forall d :: d in rows <==> d in docs && d in b.docs && b.docs[d].status == Active
    modifies b
    ensures b.View() == old(b.View()).(queue := old(b.queue) + Syncs(old(b.View()), docs))
  {
    hide Syncs, Chosen;
    ghost var s0 := b.View();
    NothingChosen(s0);
    for i := 0 to |rows|
      invariant b.View() == s0.(queue := s0.queue + Syncs(s0, Chosen(rows[..i])))
    {
      var d := rows[i];
      OneMoreChosen(rows, i);
      OneMoreSync(s0, Chosen(rows[..i]), d);
      b.queue := b.queue + multiset{Delivery(SyncTags(d, b.docs[d].col), 0)};
    }
    AllChosen(s0, rows, docs);
  }

  ghost function Chosen(rows: seq<DocId>): set<DocId> {
    set d | d in rows
  }

  lemma NothingChosen(s: State)
    ensures Syncs(s, Chosen([])) == multiset{}
  {
  }

  lemma OneMoreChosen(rows: seq<DocId>, i: nat)
    requires i < |rows| && forall x, y :: 0 <= x < y < |rows| ==> rows[x] != rows[y]
    ensures Chosen(rows[..i + 1]) == Chosen(rows[..i]) + {rows[i]} && rows[i] !in Chosen(rows[..i]) && rows[i] in rows
  {
    assert rows[..i + 1] == rows[..i] + [rows[i]];
  }

  lemma AllChosen(s: State, rows: seq<DocId>, docs: set<DocId>)
    requires forall d :: d in rows <==> d in docs && d in s.docs && s.docs[d].status == Active
    ensures Syncs(s, Chosen(rows[..|rows|])) == Syncs(s, docs)
  {
    assert rows[..|rows|] == rows;
    SameSyncSet(s, Chosen(rows), docs);
  }

  lemma OneMoreSync(s: State, sent: set<DocId>, d: DocId)
    requires d in s.docs && s.docs[d].status == Active && d !in sent
    ensures Syncs(s, sent + {d}) == Syncs(s, sent) + multiset{Delivery(SyncTags(d, s.docs[d].col), 0)}
  {
    var m := Delivery(SyncTags(d, s.docs[d].col), 0);
    var before := set x | x in sent && x in s.docs && s.docs[x].status == Active :: Delivery(SyncTags(x, s.docs[x].col), 0);
    var after := set x | x in sent + {d} && x in s.docs && s.docs[x].status == Active :: Delivery(SyncTags(x, s.docs[x].col), 0);
    assert after == before + {m} && m !in before;
  }

  lemma SameSyncSet(s: State, sent: set<DocId>, docs: set<DocId>)
    requires forall d :: d in sent <==> d in docs && d in s.docs && s.docs[d].status == Active
    ensures Syncs(s, sent) == Syncs(s, docs)
  {
    assert (set x | x in sent && x in s.docs && s.docs[x].status == Active :: Delivery(SyncTags(x, s.docs[x].col), 0))
        == (set x | x in docs && x in s.docs && s.docs[x].status == Active :: Delivery(SyncTags(x, s.docs[x].col), 0));
  }

  /** `merge_tags`, with the rows its workspace query returned. */
  method MergeTags(b: Backend, ws: WsId, source: TagId, target: TagId, rows: seq<DocId>) returns (status: nat)
    requires forall x, y :: 0 <= x < y < |rows| ==> rows[x] != rows[y]
    requires forall d :: d in rows <==> d in InWorkspace(b.e, b.View(), ws) && d in b.docs && b.docs[d].status == Active
    modifies b
    ensures b.View() == ApplyTagging(b.e, old(b.View()), Protocol.MergeTags(ws, source, target))
    ensures status == 422 <==> source == target
    ensures status == 200 <==>
      && source != target && source in old(b.tags).tags && old(b.tags).tags[source].ws == ws
      && target in old(b.tags).tags && old(b.tags).tags[target].ws == ws
    ensures status in {200, 404, 422} && (status != 200 ==> b.View() == old(b.View()))
  {
    hide Syncs;
    ghost var s0 := b.View();
    if source == target {
      return 422;
    }
    if source !in b.tags.tags || b.tags.tags[source].ws != ws || target !in b.tags.tags || b.tags.tags[target].ws != ws {
      return 404;
    }
    var onWorkspaces := Repoint(b.tags.wsTags, source, target);
    var onCollections := Repoint(b.tags.colTags, source, target);
    var onDocuments := Repoint(b.tags.docTags, source, target);
    b.tags := Tags.Tables(b.tags.tags - {source}, onWorkspaces, onCollections, onDocuments);
    assert InWorkspace(b.e, b.View(), ws) == InWorkspace(b.e, s0, ws);
    SyncRows(b, rows, InWorkspace(b.e, s0, ws));
    SyncsIgnoreTags(s0, b.tags, InWorkspace(b.e, s0, ws));
    status := 200;
  }

  lemma SyncsIgnoreTags(s: State, t: Tags.Tables, docs: set<DocId>)
    ensures Syncs(s.(tags := t), docs) == Syncs(s, docs)
  {
  }
}
