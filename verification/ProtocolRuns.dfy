/** The main results about ingestion: statements over every run of the protocol. */
module ProtocolRuns {
  import opened Ids
  import opened Protocol
  import opened ProtocolSafety
  import opened ProtocolDeletes
  import opened ProtocolResume
  import opened ProtocolTags
  import Tags

  ghost predicate Inv(e: Env, s: State) {
    Identities(e, s) && RunningJob(s) && Final(s) && Resumable(e, s) && TagCopy(e, s)
  }

  lemma StartInv(e: Env, s: State)
    requires Start(s)
    ensures Inv(e, s)
  {
  }

  lemma InvKept(e: Env, s: State, a: Action)
    requires Inv(e, s)
    ensures Inv(e, Apply(e, s, a))
  {
    IdentitiesKept(e, s, a);
    RunningJobKept(e, s, a);
    FinalKept(e, s, a);
    ResumableKept(e, s, a);
    TagCopyKept(e, s, a);
  }

  lemma {:induction false} RunKeepsInv(e: Env, s: State, actions: seq<Action>)
    requires Inv(e, s)
    ensures Inv(e, Run(e, s, actions))
    decreases |actions|
  {
    if actions != [] {
      InvKept(e, s, actions[0]);
      RunKeepsInv(e, Apply(e, s, actions[0]), actions[1..]);
    }
  }

  lemma ReachableInv(e: Env, s: State)
    requires Reachable(e, s)
    ensures Inv(e, s)
  {
    var s0, actions :| Start(s0) && s == Run(e, s0, actions);
    StartInv(e, s0);
    RunKeepsInv(e, s0, actions);
  }

  // ---- resuming is correct -------------------------------------------------------------

  /** Whatever attempts were cut short, by whatever, and with whatever models: a stored row
      labelled with a model holds the parsed text of its chunk and that model's vector of it. */
  lemma StoredVectorsAreCorrect(e: Env, s: State, doc: DocId, i: nat)
    requires Reachable(e, s) && (doc, i) in s.store
    ensures var row := s.store[(doc, i)];
      i < |e.parse(doc)| && row.text == e.parse(doc)[i] && row.vector == e.embed(row.model, e.parse(doc)[i])
  {
    ReachableInv(e, s);
    assert RowOk(e, (doc, i), s.store[(doc, i)]);
  }

  /** Marking a job done records the number of parsed chunks, and leaves every one of them at the
      attempt's model exactly when the batch size was not negative or nothing was left to embed. */
  lemma DoneMeansCovered(e: Env, s: State)
    requires Reachable(e, s) && s.worker.OnIngest? && s.worker.phase.Storing?
    ensures var s' := Apply(e, s, IngestAct(MarkDone)); var w, cfg := s.worker, s.worker.phase.cfg;
      && (w.job in s.jobs ==> s'.jobs[w.job].status == Done && s'.jobs[w.job].chunkCount == Some(|e.parse(w.doc)|))
      && (w.doc in s.docs ==> s'.docs[w.doc].chunkCount == Some(|e.parse(w.doc)|) && s'.docs[w.doc].model == Some(cfg.model))
      && (Covered(e, s'.store, w.col, w.doc, cfg.model) <==> cfg.batchSize >= 0 || s.worker.phase.skipped == [])
  {
    ReachableInv(e, s);
    var w, cfg, skipped := s.worker, s.worker.phase.cfg, s.worker.phase.skipped;
    if skipped != [] {
      assert skipped[0] in skipped;
      assert !AtModel(s.store, w.col, w.doc, skipped[0], cfg.model);
    }
  }

  lemma {:induction false} RunAppend(e: Env, s: State, a: seq<Action>, b: seq<Action>)
    ensures Run(e, s, a + b) == Run(e, Run(e, s, a), b)
    decreases |a|
  {
    if a == [] {
      assert a + b == b;
    } else {
      assert (a + b)[1..] == a[1..] + b;
      RunAppend(e, Apply(e, s, a[0]), a[1..], b);
    }
  }

  lemma RunSnoc(e: Env, s: State, actions: seq<Action>, a: Action)
    ensures Run(e, s, actions + [a]) == Apply(e, Run(e, s, actions), a)
  {
    RunAppend(e, s, actions, [a]);
    assert Run(e, Run(e, s, actions), [a]) == Run(e, Apply(e, Run(e, s, actions), a), []);
  }

  lemma RunThree(e: Env, s: State, a: Action, b: Action, c: Action)
    ensures Run(e, s, [a, b, c]) == Apply(e, Apply(e, Apply(e, s, a), b), c)
  {
    assert [a, b, c][1..] == [b, c] && [b, c][1..] == [c] && [c][1..] == [];
    var s1 := Apply(e, s, a);
    var s2 := Apply(e, s1, b);
    assert Run(e, s2, [c]) == Run(e, Apply(e, s2, c), []);
    assert Run(e, s1, [b, c]) == Run(e, s2, [c]);
  }

  lemma UploadAndClaim(e: Env, s0: State)
    requires Start(s0) && 1 in e.home
    ensures var s := Run(e, s0, [Document(Upload(1, 1, 1, true)), Other(Take(Delivery(Ingest(1, 1, 1), 0))), IngestAct(Claim)]);
      s.worker == OnIngest(1, 1, 1, 0, Claimed(s0.config)) && s.store == map[] && 1 in s.jobs
  {
    hide Run, DoClaim;
    var a, b := Document(Upload(1, 1, 1, true)), Other(Take(Delivery(Ingest(1, 1, 1), 0)));
    RunThree(e, s0, a, b, IngestAct(Claim));
    var s1 := Apply(e, s0, a);
    assert s1.worker.Idle? && s1.config == s0.config && Delivery(Ingest(1, 1, 1), 0) in s1.queue;
    assert 1 in s1.jobs && s1.jobs[1].status == Pending && s1.store == map[];
    PendingIsClaimed(Apply(e, s1, b), s0.config);
  }

  lemma PendingIsClaimed(s: State, cfg: Config)
    requires s.worker == OnIngest(1, 1, 1, 0, Opened(cfg)) && 1 in s.jobs && s.jobs[1].status == Pending
    ensures var s' := DoClaim(s); s'.worker == OnIngest(1, 1, 1, 0, Claimed(cfg)) && s'.store == s.store && 1 in s'.jobs
  {
  }

  lemma SkipTheLoop(e: Env, s: State, cfg: Config)
    requires s.worker == OnIngest(1, 1, 1, 0, Parsing(cfg)) && cfg.batchSize < 0 && s.store == map[] && 1 in s.jobs
    ensures var s' := Run(e, s, [IngestAct(Parse), IngestAct(LoopEnd), IngestAct(MarkDone)]);
      1 in s'.jobs && s'.jobs[1].status == Done && s'.jobs[1].chunkCount == Some(|e.parse(1)|) && s'.store == map[]
  {
    hide Run, Todo, Tags.Effective, DoMarkDone;
    RunThree(e, s, IngestAct(Parse), IngestAct(LoopEnd), IngestAct(MarkDone));
    var s1 := DoParse(e, s);
    assert s1.store == map[] && s1.jobs == s.jobs && s1.worker.OnIngest? && s1.worker.job == 1 && s1.worker.doc == 1;
    assert s1.worker.phase.Storing? || (s1.worker.phase.Embedding? && s1.worker.phase.cfg == cfg);
    var s2 := DoLoopEnd(s1);
    assert s2.store == map[] && s2.jobs == s.jobs && s2.worker.OnIngest? && s2.worker.job == 1 && s2.worker.doc == 1 && s2.worker.phase.Storing?;
    MarkDoneSets(e, s2);
  }

  lemma MarkDoneSets(e: Env, s: State)
    requires s.worker.OnIngest? && s.worker.phase.Storing? && s.worker.job in s.jobs
    ensures var s' := Apply(e, s, IngestAct(MarkDone));
      s'.jobs == s.jobs[s.worker.job := s'.jobs[s.worker.job]] && s'.store == s.store
      && s'.jobs[s.worker.job].status == Done && s'.jobs[s.worker.job].chunkCount == Some(|e.parse(s.worker.doc)|)
  {
  }

  /** A negative batch size, which the configuration accepts, marks every uploaded document done,
      with its number of chunks on record and not one of them stored. */
  lemma NegativeBatchSizeSkipsEverything(e: Env, s0: State) returns (actions: seq<Action>)
    requires Start(s0) && 1 in e.home && s0.config.batchSize < 0
    ensures var s := Run(e, s0, actions);
      1 in s.jobs && s.jobs[1].status == Done && s.jobs[1].chunkCount == Some(|e.parse(1)|) && s.store == map[]
  {
    var upload := [Document(Upload(1, 1, 1, true)), Other(Take(Delivery(Ingest(1, 1, 1), 0))), IngestAct(Claim)];
    var finish := [IngestAct(Parse), IngestAct(LoopEnd), IngestAct(MarkDone)];
    UploadAndClaim(e, s0);
    var s := Run(e, s0, upload);
    SkipTheLoop(e, DoFirstBeat(s), s0.config);
    actions := upload + ([IngestAct(FirstBeat)] + finish);
    RunAppend(e, s0, upload, [IngestAct(FirstBeat)] + finish);
    RunAppend(e, s, [IngestAct(FirstBeat)], finish);
    assert Run(e, s, [IngestAct(FirstBeat)]) == Run(e, DoFirstBeat(s), []);
  }

  // ---- a finished job stays finished ---------------------------------------------------

  lemma DoneStays(e: Env, s: State, a: Action, j: JobId)
    requires Inv(e, s) && j in s.jobs && s.jobs[j].status == Done
    ensures var s' := Apply(e, s, a); j in s'.jobs ==> s'.jobs[j].status == Done
  {
    match a
    case IngestAct(step) => IngestKeepsDone(e, s, step, j);
    case Cleanup(work) => CleanupStepShape(e, s, work);
    case Document(call) => DocumentKeepsJobs(e, s, call);
    case Tagging(call) => var docs := TaggingShape(e, s, call);
    case Other(event) => EventKeepsJobs(e, s, event);
  }

  lemma IngestKeepsDone(e: Env, s: State, a: IngestStep, j: JobId)
    requires RunningJob(s) && j in s.jobs && s.jobs[j].status == Done
    ensures var s' := ApplyIngest(e, s, a); j in s'.jobs && s'.jobs[j].status == Done
  {
    hide ApplyIngest;
    IngestStepShape(e, s, a);
    if s.worker.OnIngest? && j == s.worker.job { DoneIsSkipped(e, s, a); }
  }

  lemma DoneIsSkipped(e: Env, s: State, a: IngestStep)
    requires s.worker.OnIngest? && (s.worker.phase.Opened? || s.worker.phase.Closing?)
    requires s.worker.job in s.jobs && s.jobs[s.worker.job].status == Done
    ensures ApplyIngest(e, s, a).jobs == s.jobs
  {
  }

  // ---- deletes are final ---------------------------------------------------------------

  lemma GoneStays(e: Env, s: State, a: Action)
    ensures s.gone <= Apply(e, s, a).gone
  {
    hide ApplyIngest, ApplyDocument, ApplyTagging, ApplyEvent;
    match a
    case IngestAct(step) => IngestStepShape(e, s, step);
    case Document(call) => DocumentKeepsJobs(e, s, call);
    case Tagging(call) => var docs := TaggingShape(e, s, call);
    case Other(event) => EventKeepsJobs(e, s, event);
    case Cleanup(work) => CleanupKeepsGone(e, s, work);
  }

  lemma CleanupKeepsGone(e: Env, s: State, a: CleanupStep)
    ensures s.gone <= ApplyCleanup(e, s, a).gone
  {
    hide SetTags, JobsWithout, Tags.Effective, Tags.DropDocument, Retried;
  }

  /** Once the delete task has committed, no run ever shows a row, job or chunk of the document. */
  lemma {:induction false} DeletesAreFinal(e: Env, s: State, actions: seq<Action>, doc: DocId)
    requires Reachable(e, s) && doc in s.gone
    ensures var s' := Run(e, s, actions);
      && doc !in s'.docs
      && (forall j :: j in s'.jobs ==> s'.jobs[j].doc != doc)
      && (forall k :: k in s'.store ==> k.0 != doc)
  {
    ReachableInv(e, s);
    RunKeepsInv(e, s, actions);
    RunKeepsGone(e, s, actions);
    assert Erased(Run(e, s, actions), doc);
  }

  lemma {:induction false} RunKeepsGone(e: Env, s: State, actions: seq<Action>)
    ensures s.gone <= Run(e, s, actions).gone
    decreases |actions|
  {
    if actions != [] {
      GoneStays(e, s, actions[0]);
      RunKeepsGone(e, Apply(e, s, actions[0]), actions[1..]);
    }
  }

  /** Dropping a collection found empty discards only chunks of documents that have no row,
      whatever was uploaded to the collection between the check and the drop. */
  lemma DropLosesNoLiveChunk(e: Env, s: State, k: ChunkKey)
    requires Reachable(e, s) && k in s.store && k.0 in s.docs
    ensures k in Apply(e, s, Cleanup(DropCollection)).store
  {
    ReachableInv(e, s);
  }

  // ---- the tag copy agrees with its source ---------------------------------------------

  /** In every reachable state an active document's chunks carry exactly its effective tags,
      unless a sync for it is queued or being written, or one gave up after its last retry. */
  lemma TagCopyFollows(e: Env, s: State, d: DocId)
    requires Reachable(e, s) && d in s.docs && s.docs[d].status == Active
    requires !SyncDue(s, d) && !Writing(s, d) && d !in s.lost
    ensures forall k :: k in s.store && k.0 == d ==> s.store[k].tags == EffectiveOf(e, s, d)
  {
    ReachableInv(e, s);
  }

  /** So once the queue has drained and no sync gave up, every copy agrees. */
  lemma TagCopyAgreesWhenDrained(e: Env, s: State)
    requires Reachable(e, s) && s.queue == multiset{} && s.worker.Idle? && s.lost == {}
    ensures forall k :: k in s.store && k.0 in s.docs && s.docs[k.0].status == Active ==>
      s.store[k].tags == EffectiveOf(e, s, k.0)
  {
    forall k | k in s.store && k.0 in s.docs && s.docs[k.0].status == Active
      ensures s.store[k].tags == EffectiveOf(e, s, k.0)
    {
      TagCopyFollows(e, s, k.0);
    }
  }

  /** A sync that fails on its first try and on every retry is dropped, and nothing else changes. */
  lemma {:induction false} SyncGivesUp(e: Env, s: State, m: Delivery) returns (actions: seq<Action>, s': State)
    requires s.worker.Idle? && m in s.queue && m.task.SyncTags? && m.retries <= MAX_RETRIES
    ensures s' == Run(e, s, actions)
    ensures s' == s.(queue := s.queue - multiset{m}, lost := s.lost + {m.task.doc})
    ensures forall a :: a in actions ==> a == Cleanup(TaskFail) || (a.Other? && a.event.Take?)
    decreases MAX_RETRIES - m.retries
  {
    hide Run, Apply;
    var steps := [Other(Take(m)), Cleanup(TaskFail)];
    var s2 := Run(e, s, steps);
    OneFailure(e, s, m);
    if m.retries < MAX_RETRIES {
      var again := m.(retries := m.retries + 1);
      var rest;
      rest, s' := SyncGivesUp(e, s2, again);
      assert s.queue - multiset{m} + multiset{again} - multiset{again} == s.queue - multiset{m};
      RunAppend(e, s, steps, rest);
      actions := steps + rest;
    } else {
      actions := steps;
      s' := s2;
    }
  }

  lemma OneFailure(e: Env, s: State, m: Delivery)
    requires s.worker.Idle? && m in s.queue && m.task.SyncTags?
    ensures Run(e, s, [Other(Take(m)), Cleanup(TaskFail)]) ==
      if m.retries < MAX_RETRIES then s.(queue := s.queue - multiset{m} + multiset{m.(retries := m.retries + 1)})
      else s.(queue := s.queue - multiset{m}, lost := s.lost + {m.task.doc})
  {
    hide Run, DoTake, DoTaskFail;
    RunTwo(e, s, Other(Take(m)), Cleanup(TaskFail));
    TakenSync(s, m);
    FailedTake(DoTake(s, m), m);
  }

  lemma TakenSync(s: State, m: Delivery)
    requires s.worker.Idle? && m in s.queue && m.task.SyncTags?
    ensures DoTake(s, m) ==
      s.(queue := s.queue - multiset{m}, worker := OnSync(m.task.doc, m.task.col, m.retries, None))
  {
  }

  lemma FailedTake(s: State, m: Delivery)
    requires s.worker == OnSync(m.task.doc, m.task.col, m.retries, None) && m.task.SyncTags?
    ensures DoTaskFail(s) ==
      if m.retries < MAX_RETRIES then s.(queue := s.queue + multiset{m.(retries := m.retries + 1)}, worker := Idle)
      else s.(lost := s.lost + {m.task.doc}, worker := Idle)
  {
    assert Held(s.worker) == m;
    assert s.queue + multiset{} == s.queue;
  }

  /** A sync that runs into its time limit is dropped at once. */
  lemma SyncTimesOut(e: Env, s: State, m: Delivery) returns (s': State)
    requires s.worker.Idle? && m in s.queue && m.task.SyncTags?
    ensures s' == Run(e, s, [Other(Take(m)), Cleanup(TaskTimeout)])
    ensures s' == s.(queue := s.queue - multiset{m}, lost := s.lost + {m.task.doc})
  {
    RunTwo(e, s, Other(Take(m)), Cleanup(TaskTimeout));
    s' := DoTaskTimeout(DoTake(s, m));
  }

  lemma RunTwo(e: Env, s: State, a: Action, b: Action)
    ensures Run(e, s, [a, b]) == Apply(e, Apply(e, s, a), b)
  {
    assert [a, b][1..] == [b] && [b][1..] == [];
    assert Run(e, Apply(e, s, a), [b]) == Run(e, Apply(e, Apply(e, s, a), b), []);
  }
}
