/** The worker's tasks as the code runs them: methods over the shared tables, each proved to
    behave as a sequence of steps of the protocol. */
module IngestWorker {
  import opened Ids
  import opened Protocol
  import opened ProtocolDeletes
  import opened ProtocolResume
  import opened ProtocolRuns
  import opened ProtocolLiveness
  import Tags
  import R = RpmLimiter

  /** How an embedding call ends. */
  datatype Answer = Vectors | TooManyRequests | Broken

  /** Where a tag sync goes wrong. */
  datatype SyncFault = NoFault | ReadRaises | WriteRaises | ReadTimesOut | WriteTimesOut

  /** How the pipeline ends. */
  datatype Outcome = Skipped | Finished | Limited | Erred

  class Backend {
    const e: Env
    var docs: map<DocId, Doc>
    var jobs: map<JobId, Job>
    var store: Store
    var queue: multiset<Delivery>
    var beats: set<JobId>
    var paused: bool
    var clock: nat
    var config: Config
    var tags: Tags.Tables
    ghost var running: Worker
    ghost var issued: map<DocId, ColId>
    ghost var issuedJobs: map<JobId, DocId>
    ghost var gone: set<DocId>
    ghost var lost: set<DocId>

    ghost function View(): State
      reads this
    {
      State(docs, jobs, store, queue, beats, paused, clock, config, tags, running, issued, issuedJobs, gone, lost)
    }

    /** `_claim_job`: claims the row unless it is unknown, done, or processing with a heartbeat. */
    method ClaimJob(j: JobId) returns (claimed: bool)
      requires running.OnIngest? && running.job == j && running.phase.Opened?
      modifies this
      ensures View() == Apply(e, old(View()), IngestAct(Claim))
      ensures claimed <==>
        && j in old(jobs) && old(jobs)[j].status != Done
        && (old(jobs)[j].status == Processing ==> j !in old(beats))
      ensures claimed <==> !Skips(old(View()), j)
      ensures queue == old(queue)
      ensures claimed ==> running == old(running).(phase := Claimed(old(running).phase.cfg))
      ensures claimed ==> j in jobs && jobs == old(jobs)[j := old(jobs)[j].(status := Processing, updated := clock)]
      ensures !claimed ==> jobs == old(jobs) && running.Idle?
    {
      hide Apply, Skips;
      ClaimIs(e, View());
      SkipsMeans(View(), j);
      if j !in jobs {
        claimed := false;
      } else if jobs[j].status == Done {
        claimed := false;
      } else if jobs[j].status == Processing && j in beats {
        claimed := false;
      } else {
        claimed := true;
        clock := clock + 1;
        jobs := jobs[j := jobs[j].(status := Processing, updated := clock)];
      }
      running := if claimed then running.(phase := Claimed(running.phase.cfg)) else Idle;
    }

    /** `_effective_document_tags`: the union over the three inheritance levels. */
    method EffectiveDocumentTags(col: ColId, doc: DocId) returns (names: set<string>)
      ensures names == Tags.Effective(tags, e.home, col, doc)
      ensures forall n :: n in names <==>
        exists id :: id in tags.tags && tags.tags[id].name == n
          && ((col in e.home && (e.home[col], id) in tags.wsTags) || (col, id) in tags.colTags || (doc, id) in tags.docTags)
    {
      var specs := [if col in e.home then Some(Tags.OnWorkspace(e.home[col])) else None,
                    Some(Tags.OnCollection(col)), Some(Tags.OnDocument(doc))];
      names := {};
      for i := 0 to |specs|
        invariant forall n :: n in names <==>
          exists id, k :: 0 <= k < i && specs[k].Some? && id in tags.tags && Tags.Attached(tags, specs[k].value, id) && tags.tags[id].name == n
      {
        if specs[i].Some? {
          var t := tags;
          var target := specs[i].value;
          names := names + set id | id in t.tags && Tags.Attached(t, target, id) :: t.tags[id].name;
        }
      }
      EffectiveBySpecs(tags, e.home, col, doc, specs, names);
    }

    static lemma EffectiveBySpecs(t: Tags.Tables, home: map<ColId, WsId>, col: ColId, doc: DocId, specs: seq<Option<Tags.Target>>, names: set<string>)
      requires specs == [if col in home then Some(Tags.OnWorkspace(home[col])) else None, Some(Tags.OnCollection(col)), Some(Tags.OnDocument(doc))]
      requires forall n :: n in names <==>
        exists id, k :: 0 <= k < |specs| && specs[k].Some? && id in t.tags && Tags.Attached(t, specs[k].value, id) && t.tags[id].name == n
      ensures names == Tags.Effective(t, home, col, doc)
    {
      var effective := Tags.Effective(t, home, col, doc);
      forall n ensures n in names <==> n in effective {
        if n in effective {
          var id :| id in t.tags && Tags.Reaches(t, home, col, doc, id) && t.tags[id].name == n;
          var k := if Tags.Attached(t, Tags.OnDocument(doc), id) then 2 else if Tags.Attached(t, Tags.OnCollection(col), id) then 1 else 0;
          assert specs[k].Some? && Tags.Attached(t, specs[k].value, id);
        }
      }
    }

    /** The chunks still to embed, in order: those not already stored at the current model. */
    method PendingChunks(col: ColId, doc: DocId, model: Model) returns (pending: seq<nat>)
      ensures pending == Todo(store, col, doc, model, |e.parse(doc)|)
    {
      pending := [];
      for i := 0 to |e.parse(doc)|
        invariant pending == Todo(store, col, doc, model, i)
      {
        if !AtModel(store, col, doc, i, model) {
          pending := pending + [i];
        }
      }
    }

    // ---- single steps ------------------------------------------------------------------

    /** Resume query, effective tags, first progress event of the embedding phase. */
    method StartEmbedding(job: JobId, col: ColId, doc: DocId, cfg: Config) returns (pending: seq<nat>, effective: set<string>)
      requires running.OnIngest? && running == OnIngest(job, doc, col, running.retries, Parsing(cfg)) && e.parse(doc) != []
      modifies this
      ensures View() == Apply(e, old(View()), IngestAct(Parse))
      ensures pending == Todo(store, col, doc, cfg.model, |e.parse(doc)|)
      ensures running == old(running).(phase := Embedding(cfg, effective, pending)) && jobs == old(jobs) && store == old(store)
      ensures queue == old(queue)
    {
      pending := PendingChunks(col, doc, cfg.model);
      effective := EffectiveDocumentTags(col, doc);
      beats := beats + {job};
      running := running.(phase := Embedding(cfg, effective, pending));
    }

    /** Upsert one batch and report progress. */
    method StoreBatch(job: JobId, col: ColId, doc: DocId, cfg: Config, effective: set<string>, batch: seq<nat>, ghost left: seq<nat>)
      requires running.OnIngest? && running == OnIngest(job, doc, col, running.retries, Embedding(cfg, effective, left))
      requires left != [] && cfg.batchSize > 0 && batch == left[..BatchLength(cfg, left)]
      modifies this
      ensures View() == Apply(e, old(View()), IngestAct(Batch))
      ensures running == old(running).(phase := Embedding(cfg, effective, left[BatchLength(cfg, left)..])) && jobs == old(jobs)
      ensures queue == old(queue) && beats == old(beats) + {job}
      ensures forall k: ChunkKey :: k in store <==> k in old(store) || (k.0 == doc && k.1 in batch && k.1 < |e.parse(doc)|)
      ensures forall k: ChunkKey :: k in store && !(k.0 == doc && k.1 in batch) ==> store[k] == old(store)[k]
      ensures forall i :: i in batch && i < |e.parse(doc)| ==>
        var c := if (doc, i) in old(store) then old(store)[(doc, i)].col else col;
        store[(doc, i)] == Row(c, e.parse(doc)[i], cfg.model, e.embed(cfg.model, e.parse(doc)[i]), effective)
    {
      hide Apply, Upsert;
      BatchIs(e, View());
      UpsertAre(e, store, col, doc, batch, cfg.model, effective);
      store := Upsert(e, store, col, doc, batch, cfg.model, effective);
      beats := beats + {job};
      running := running.(phase := Embedding(cfg, effective, left[BatchLength(cfg, left)..]));
    }

    /** The "storing" event once the loop is over. */
    method LeaveLoop(job: JobId, ghost cfg: Config, ghost effective: set<string>, ghost left: seq<nat>)
      requires running.OnIngest? && running.job == job && running.phase == Embedding(cfg, effective, left)
      requires cfg.batchSize < 0 || (cfg.batchSize > 0 && left == [])
      modifies this
      ensures View() == Apply(e, old(View()), IngestAct(LoopEnd))
      ensures running == old(running).(phase := Storing(cfg, left)) && jobs == old(jobs)
      ensures queue == old(queue)
    {
      beats := beats + {job};
      running := running.(phase := Storing(cfg, left));
    }

    /** An empty document goes straight to being marked done. */
    method NothingToEmbed(job: JobId, ghost cfg: Config)
      requires running.OnIngest? && running.job == job && running.phase == Parsing(cfg) && e.parse(running.doc) == []
      modifies this
      ensures View() == Apply(e, old(View()), IngestAct(Parse))
      ensures running == old(running).(phase := Storing(cfg, [])) && jobs == old(jobs)
      ensures queue == old(queue)
    {
      beats := beats + {job};
      running := running.(phase := Storing(cfg, []));
    }

    method RecordDone(job: JobId, doc: DocId, cfg: Config)
      requires running.OnIngest? && running.job == job && running.doc == doc && running.phase.Storing? && running.phase.cfg == cfg
      requires job in jobs
      modifies this
      ensures View() == Apply(e, old(View()), IngestAct(MarkDone))
      ensures running == old(running).(phase := Closing) && store == old(store) && queue == old(queue)
      ensures jobs == old(jobs)[job := old(jobs)[job].(status := Done, chunkCount := Some(|e.parse(doc)|), updated := clock)]
      ensures docs == if doc !in old(docs) then old(docs)
                      else old(docs)[doc := old(docs)[doc].(chunkCount := Some(|e.parse(doc)|), model := Some(cfg.model))]
    {
      hide Apply;
      MarkDoneIs(e, View());
      hide CountedDocs, DoneJobs;
      var count := |e.parse(doc)|;
      DoneJobIs(jobs, job, count, clock + 1);
      CountedDocsAre(docs, doc, count, cfg.model);
      docs := CountedDocs(docs, doc, count, cfg.model);
      SetDone(job, count);
    }

    /** The job row, the stamp and the last heartbeat of a finished ingest. */
    method SetDone(job: JobId, count: nat)
      requires job in jobs && running.OnIngest?
      modifies this
      ensures View() == old(View()).(jobs := DoneJobs(old(jobs), job, count, old(clock) + 1), clock := old(clock) + 1,
                                     beats := old(beats) + {job}, worker := old(running).(phase := Closing))
    {
      hide DoneJobs;
      clock := clock + 1;
      jobs := DoneJobs(jobs, job, count, clock);
      beats := beats + {job};
      running := running.(phase := Closing);
    }

    method DropHeartbeat(job: JobId)
      requires running.OnIngest? && running.job == job && running.phase.Closing?
      modifies this
      ensures View() == Apply(e, old(View()), IngestAct(Finish))
      ensures running.Idle? && jobs == old(jobs) && store == old(store) && queue == old(queue) && docs == old(docs)
      ensures beats == old(beats) - {job}
    {
      beats := beats - {job};
      running := Idle;
    }

    /** A 429: embedding pauses for everyone and the job is left to the sweep. */
    method RecordRateLimit(d: Delivery)
      requires running.OnIngest? && Held(running) == d && (running.phase.Parsing? || running.phase.Embedding? || running.phase.Storing?)
      requires d.task.Ingest? && d.task.job in jobs
      modifies this
      ensures View() == Apply(e, old(View()), IngestAct(Hit429))
      ensures running.Idle? && paused && queue == old(queue) && d.task.job in jobs && d.task.job !in beats
      ensures jobs == old(jobs)[d.task.job := old(jobs)[d.task.job].(status := RateLimited, updated := clock)]
    {
      hide Apply;
      Hit429Is(e, View());
      beats := beats - {d.task.job};
      paused := true;
      clock := clock + 1;
      jobs := jobs[d.task.job := jobs[d.task.job].(status := RateLimited, updated := clock)];
      running := Idle;
    }

    method MarkFailed(job: JobId)
      requires job in jobs
      modifies this
      ensures View() == SetStatus(old(View()), job, Failed)
      ensures jobs == old(jobs)[job := old(jobs)[job].(status := Failed, updated := clock)] && queue == old(queue) && paused == old(paused)
    {
      clock := clock + 1;
      jobs := jobs[job := jobs[job].(status := Failed, updated := clock)];
    }

    /** Anything else marks the job failed and, unless it cannot succeed, retries up to the cap. */
    method RecordError(d: Delivery, terminal: bool)
      requires running.OnIngest? && Held(running) == d && (running.phase.Parsing? || running.phase.Embedding? || running.phase.Storing?)
      requires d.task.Ingest? && d.task.job in jobs
      modifies this
      ensures View() == if terminal then DoFailTerminal(old(View())) else DoFailRetry(old(View()))
      ensures running.Idle? && d.task.job in jobs && d.task.job !in beats && paused == old(paused)
      ensures jobs == old(jobs)[d.task.job := old(jobs)[d.task.job].(status := Failed, updated := clock)]
      ensures queue == if !terminal && d.retries < 3 then old(queue) + multiset{d.(retries := d.retries + 1)} else old(queue)
    {
      ghost var s0 := View();
      MarkFailed(d.task.job);
      beats := beats - {d.task.job};
      running := Idle;
      assert View() == Settle(s0, Failed);
      if !terminal {
        if d.retries < MAX_RETRIES {
          queue := queue + multiset{d.(retries := d.retries + 1)};
        }
        assert View() == Settle(s0, Failed).(queue := s0.queue + Retried(s0.worker));
      }
    }

    method OpenDelivery(d: Delivery) returns (cfg: Config)
      requires running.Idle? && d in queue && d.task.Ingest?
      modifies this
      ensures View() == Apply(e, old(View()), Other(Take(d)))
      ensures cfg == old(config) && running == OnIngest(d.task.job, d.task.doc, d.task.col, d.retries, Opened(cfg))
      ensures jobs == old(jobs) && beats == old(beats)
      ensures queue == old(queue) - multiset{d}
    {
      cfg := config;
      queue := queue - multiset{d};
      running := Open(d, cfg);
    }

    method FirstHeartbeat(job: JobId, cfg: Config)
      requires running.OnIngest? && running.job == job && running.phase == Claimed(cfg)
      modifies this
      ensures View() == Apply(e, old(View()), IngestAct(FirstBeat))
      ensures running == old(running).(phase := Parsing(cfg)) && jobs == old(jobs)
      ensures queue == old(queue)
    {
      beats := beats + {job};
      running := running.(phase := Parsing(cfg));
    }

    // ---- whole tasks -------------------------------------------------------------------

    /** One more step of a run. */
    static lemma Record(e: Env, s0: State, trace: seq<Action>, before: State, a: Action, after: State)
      requires Inv(e, before) && before == Run(e, s0, trace) && after == Apply(e, before, a)
      ensures after == Run(e, s0, trace + [a]) && Inv(e, after)
    {
      RunSnoc(e, s0, trace, a);
      InvKept(e, before, a);
    }

    static lemma StoringCovers(e: Env, s: State)
      requires Inv(e, s) && s.worker.OnIngest? && s.worker.phase.Storing? && s.worker.phase.cfg.batchSize > 0
      ensures Covered(e, s.store, s.worker.col, s.worker.doc, s.worker.phase.cfg.model)
    {
    }

    /** The counts shown never fall and never pass the total. */
    static predicate Shows(progress: seq<nat>, total: nat) {
      && (forall i, j :: 0 <= i < j < |progress| ==> progress[i] <= progress[j])
      && forall i :: 0 <= i < |progress| ==> progress[i] <= total
    }

    static lemma ShowsMore(progress: seq<nat>, total: nat, count: nat)
      requires Shows(progress, total) && (progress == [] || progress[|progress| - 1] <= count) && count <= total
      ensures Shows(progress + [count], total)
    {
    }

    /** The limiter admits a batch of `n` texts, if it is switched on. */
    method Admit(limiter: R.RpmLimiter, clock: R.Clock, n: nat, maxRpm: int)
      requires limiter.Valid(clock.now) && n > 0
      modifies limiter, clock
      ensures limiter.Valid(clock.now)
      ensures maxRpm > 0 ==> R.Recorded(limiter.log) == R.Recorded(old(limiter.log)) + n
    {
      ghost var log := limiter.log;
      ghost var read := limiter.Throttle(clock, n, maxRpm);
      if maxRpm > 0 { R.RecordedSnoc(log, R.Admission(R.Event(limiter.log[|log|].event.at, n), read, maxRpm)); }
    }

    /** `_embed_and_store`, from the resume query to the last batch. `answers` says how each
        embedding call goes. Whatever is stored before a call fails stays stored. `sent` counts the
        texts handed to the embedder, every one of them admitted by the limiter first, and `progress`
        is the count of each event shown. */
    method EmbedAndStore(job: JobId, col: ColId, doc: DocId, cfg: Config, answers: seq<Answer>,
                         limiter: R.RpmLimiter, clock: R.Clock, maxRpm: int)
      returns (outcome: Outcome, done: nat, sent: nat, progress: seq<nat>, ghost trace: seq<Action>)
      requires Inv(e, View()) && running.OnIngest? && e.parse(doc) != []
      requires running == OnIngest(job, doc, col, running.retries, Parsing(cfg))
      requires limiter.Valid(clock.now)
      modifies this, limiter, clock
      ensures limiter.Valid(clock.now)
      ensures maxRpm > 0 ==> R.Recorded(limiter.log) == R.Recorded(old(limiter.log)) + sent
      ensures outcome == Finished && cfg.batchSize > 0 ==> sent == |Todo(old(store), col, doc, cfg.model, |e.parse(doc)|)|
      ensures progress != [] && Shows(progress, |e.parse(doc)|)
      ensures progress[0] == |e.parse(doc)| - |Todo(old(store), col, doc, cfg.model, |e.parse(doc)|)|
      ensures progress[|progress| - 1] == if outcome == Finished then |e.parse(doc)| else done
      ensures View() == Run(e, old(View()), trace) && Inv(e, View()) && jobs == old(jobs) && queue == old(queue)
      ensures running.OnIngest? && running == OnIngest(job, doc, col, old(running.retries), running.phase)
      ensures outcome == Finished ==> running.phase.Storing? && running.phase.cfg == cfg
      ensures outcome == Finished && cfg.batchSize > 0 ==> done == |e.parse(doc)|
      ensures outcome != Finished ==> running.phase.Embedding? && (outcome == Limited || outcome == Erred)
    {
      hide Inv, Apply, Run, Open, Held, BatchLength, Todo, Shows, R.Recorded, R.History, R.Tail;
      ghost var s0 := View();
      var pending, effective := StartEmbedding(job, col, doc, cfg);
      trace := [IngestAct(Parse)];
      assert [] + trace == trace;
      RunNothing(e, s0);
      Record(e, s0, [], s0, IngestAct(Parse), View());
      var total := |e.parse(doc)|;
      TodoLength(store, col, doc, cfg.model, total);
      done := total - |pending|;
      sent, progress := 0, [done];
      ShowsOne(total, done);
      if cfg.batchSize == 0 {
        return Erred, done, sent, progress, trace;
      }
      assert pending[0..] == pending;
      var stored;
      ghost var more;
      outcome, stored, sent, progress, more :=
        EmbedBatches(job, col, doc, cfg, effective, pending, answers, limiter, clock, maxRpm, progress, total);
      done := done + stored;
      RunAppend(e, s0, trace, more);
      trace := trace + more;
      if outcome == Finished {
        ghost var before := View();
        LeaveLoop(job, cfg, effective, pending[stored..]);
        Record(e, s0, trace, before, IngestAct(LoopEnd), View());
        trace := trace + [IngestAct(LoopEnd)];
        ShowsMore(progress, total, total);
        progress := progress + [total];
      }
    }

    static lemma ShowsOne(total: nat, count: nat)
      requires count <= total
      ensures Shows([count], total)
    {
    }

    /** The batch loop: `stored` chunks got in before it ended. */
    method EmbedBatches(job: JobId, col: ColId, doc: DocId, cfg: Config, effective: set<string>, pending: seq<nat>, answers: seq<Answer>,
                        limiter: R.RpmLimiter, clock: R.Clock, maxRpm: int, shown: seq<nat>, total: nat)
      returns (outcome: Outcome, stored: nat, sent: nat, progress: seq<nat>, ghost trace: seq<Action>)
      requires Inv(e, View()) && running.OnIngest? && cfg.batchSize != 0
      requires running == OnIngest(job, doc, col, running.retries, Embedding(cfg, effective, pending))
      requires limiter.Valid(clock.now)
      requires shown != [] && Shows(shown, total) && |pending| <= total && shown[|shown| - 1] == total - |pending|
      modifies this, limiter, clock
      ensures limiter.Valid(clock.now)
      ensures maxRpm > 0 ==> R.Recorded(limiter.log) == R.Recorded(old(limiter.log)) + sent
      ensures View() == Run(e, old(View()), trace) && Inv(e, View()) && jobs == old(jobs) && queue == old(queue)
      ensures stored <= |pending| && running == old(running).(phase := Embedding(cfg, effective, pending[stored..]))
      ensures outcome == Finished ==> sent == stored && (cfg.batchSize > 0 ==> stored == |pending|)
      ensures outcome == Finished || outcome == Limited || outcome == Erred
      ensures progress != [] && Shows(progress, total) && progress[0] == shown[0]
      ensures progress[|progress| - 1] == total - |pending| + stored
    {
      hide Inv, Apply, Run, Open, Held, BatchLength, Shows, R.Recorded;
      ghost var s0 := View();
      RunNothing(e, s0);
      stored, sent, progress, trace := 0, 0, shown, [];
      var call := 0;
      assert pending[0..] == pending;
      while cfg.batchSize > 0 && stored < |pending|
        invariant stored <= |pending| && sent == stored
        invariant running == old(running).(phase := Embedding(cfg, effective, pending[stored..]))
        invariant View() == Run(e, s0, trace) && Inv(e, View()) && jobs == old(jobs) && queue == old(queue)
        invariant limiter.Valid(clock.now)
        invariant maxRpm > 0 ==> R.Recorded(limiter.log) == R.Recorded(old(limiter.log)) + sent
        invariant progress != [] && Shows(progress, total) && progress[0] == shown[0]
        invariant progress[|progress| - 1] == total - |pending| + stored
      {
        var stop := if stored + cfg.batchSize < |pending| then stored + cfg.batchSize else |pending|;
        var batch := pending[stored..stop];
        Admit(limiter, clock, |batch|, maxRpm);
        sent := sent + |batch|;
        var answer := if call < |answers| then answers[call] else Vectors;
        call := call + 1;
        if answer == TooManyRequests {
          return Limited, stored, sent, progress, trace;
        } else if answer == Broken {
          return Erred, stored, sent, progress, trace;
        }
        ghost var before := View();
        NextBatch(cfg, pending, stored, stop);
        StoreBatch(job, col, doc, cfg, effective, batch, pending[stored..]);
        Record(e, s0, trace, before, IngestAct(Batch), View());
        trace := trace + [IngestAct(Batch)];
        stored := stop;
        ShowsMore(progress, total, total - |pending| + stored);
        progress := progress + [total - |pending| + stored];
      }
      outcome := Finished;
    }

    /** The batch the loop slices out is the protocol's, and so is what it leaves. */
    static lemma NextBatch(cfg: Config, pending: seq<nat>, start: nat, stop: nat)
      requires cfg.batchSize > 0 && start < |pending|
      requires stop == if start + cfg.batchSize < |pending| then start + cfg.batchSize else |pending|
      ensures BatchLength(cfg, pending[start..]) == stop - start
      ensures pending[start..][..stop - start] == pending[start..stop]
      ensures pending[start..][stop - start..] == pending[stop..]
    {
    }

    static lemma FailureSteps(e: Env, s: State)
      ensures Apply(e, s, IngestAct(FailTerminal)) == DoFailTerminal(s)
      ensures Apply(e, s, IngestAct(FailRetry)) == DoFailRetry(s)
    {
    }

    static lemma RunNothing(e: Env, s: State)
      ensures Run(e, s, []) == s
    {
    }

    /** `_run_ingestion` from the first heartbeat on, when fetching and parsing raise nothing. */
    method Pipeline(job: JobId, col: ColId, doc: DocId, cfg: Config, answers: seq<Answer>,
                    limiter: R.RpmLimiter, clock: R.Clock, maxRpm: int)
      returns (outcome: Outcome, ghost trace: seq<Action>)
      requires Inv(e, View()) && running.OnIngest? && running == OnIngest(job, doc, col, running.retries, Parsing(cfg))
      requires job in jobs && limiter.Valid(clock.now)
      modifies this, limiter, clock
      ensures limiter.Valid(clock.now)
      ensures View() == Run(e, old(View()), trace) && Inv(e, View())
      ensures outcome != Skipped && job in jobs && queue == old(queue)
      ensures outcome != Finished ==>
        running.OnIngest? && running == OnIngest(job, doc, col, old(running.retries), running.phase) && running.phase.Embedding?
      ensures outcome == Finished ==>
        && running.Idle? && jobs[job].status == Done && jobs[job].chunkCount == Some(|e.parse(doc)|)
        && (cfg.batchSize > 0 ==> Covered(e, store, col, doc, cfg.model))
    {
      hide Inv, Apply, Run, Open, Held, Covered;
      ghost var s0 := View();
      RunNothing(e, s0);
      if e.parse(doc) == [] {
        NothingToEmbed(job, cfg);
        Record(e, s0, [], s0, IngestAct(Parse), View());
        trace := [] + [IngestAct(Parse)];
        outcome := Finished;
      } else {
        var done, sent, progress;
        outcome, done, sent, progress, trace := EmbedAndStore(job, col, doc, cfg, answers, limiter, clock, maxRpm);
        if outcome != Finished {
          return;
        }
      }
      if cfg.batchSize > 0 {
        StoringCovers(e, View());
      }
      ghost var before := View();
      RecordDone(job, doc, cfg);
      Record(e, s0, trace, before, IngestAct(MarkDone), View());
      before := View();
      DropHeartbeat(job);
      Record(e, s0, trace + [IngestAct(MarkDone)], before, IngestAct(Finish), View());
      trace := trace + [IngestAct(MarkDone)] + [IngestAct(Finish)];
    }

    /** `ingest_document` run to its end on one delivery: claim, parse, embed, mark done, or record
        why not. `broken` and `terminal` say whether fetching or parsing raises, and whether what
        is raised may be retried. */
    method IngestDocument(d: Delivery, broken: bool, terminal: bool, answers: seq<Answer>,
                          limiter: R.RpmLimiter, clock: R.Clock, maxRpm: int)
      returns (outcome: Outcome, ghost trace: seq<Action>)
      requires Inv(e, View()) && running.Idle? && d in queue && d.task.Ingest? && limiter.Valid(clock.now)
      modifies this, limiter, clock
      ensures limiter.Valid(clock.now)
      ensures View() == Run(e, old(View()), trace) && Inv(e, View()) && running.Idle?
      ensures outcome == Skipped <==> Skips(old(View()), d.task.job)
      ensures outcome == Finished ==>
        && d.task.job in jobs && jobs[d.task.job].status == Done && jobs[d.task.job].chunkCount == Some(|e.parse(d.task.doc)|)
        && (old(config).batchSize > 0 ==> Covered(e, store, d.task.col, d.task.doc, old(config).model))
      ensures outcome == Limited ==> paused && d.task.job in jobs && jobs[d.task.job].status == RateLimited
      ensures outcome == Erred ==> d.task.job in jobs && jobs[d.task.job].status == Failed
      ensures queue ==
        if outcome == Erred && !terminal && d.retries < 3
        then old(queue) - multiset{d} + multiset{d.(retries := d.retries + 1)} else old(queue) - multiset{d}
      ensures outcome == Skipped <==>
        || d.task.job !in old(jobs) || old(jobs)[d.task.job].status == Done
        || (old(jobs)[d.task.job].status == Processing && d.task.job in old(beats))
    {
      hide Inv, Apply, Run, Covered, Skips;
      ghost var s0 := View();
      SkipsMeans(s0, d.task.job);
      var job, col, doc := d.task.job, d.task.col, d.task.doc;
      var claimed, cfg;
      claimed, cfg, trace := TakeAndClaim(d);
      if !claimed {
        return Skipped, trace;
      }
      ghost var before: State;
      outcome := Erred;
      if !broken {
        ghost var more;
        before := View();
        outcome, more := Pipeline(job, col, doc, cfg, answers, limiter, clock, maxRpm);
        RunAppend(e, s0, trace, more);
        trace := trace + more;
      }
      if outcome != Finished {
        before := View();
        ghost var a := RecordFailure(d, outcome == Limited, terminal);
        Record(e, s0, trace, before, a, View());
        trace := trace + [a];
      }
    }

    /** Taking a delivery, claiming its job and the first heartbeat. */
    method TakeAndClaim(d: Delivery) returns (claimed: bool, cfg: Config, ghost trace: seq<Action>)
      requires Inv(e, View()) && running.Idle? && d in queue && d.task.Ingest?
      modifies this
      ensures View() == Run(e, old(View()), trace) && Inv(e, View())
      ensures claimed <==> !Skips(old(View()), d.task.job)
      ensures cfg == old(config) && queue == old(queue) - multiset{d}
      ensures claimed ==> d.task.job in jobs && running == OnIngest(d.task.job, d.task.doc, d.task.col, d.retries, Parsing(cfg))
      ensures !claimed ==> running.Idle?
    {
      hide Inv, Apply, Run, Open, Skips;
      ghost var s0 := View();
      RunNothing(e, s0);
      SkipsMeans(s0, d.task.job);
      cfg := OpenDelivery(d);
      SkipsMeans(View(), d.task.job);
      Record(e, s0, [], s0, Other(Take(d)), View());
      trace := [] + [Other(Take(d))];
      ghost var before := View();
      claimed := ClaimJob(d.task.job);
      Record(e, s0, trace, before, IngestAct(Claim), View());
      trace := trace + [IngestAct(Claim)];
      if claimed {
        before := View();
        FirstHeartbeat(d.task.job, cfg);
        Record(e, s0, trace, before, IngestAct(FirstBeat), View());
        trace := trace + [IngestAct(FirstBeat)];
      }
    }

    /** The attempt ends on a 429 or on any other error. */
    method RecordFailure(d: Delivery, limited: bool, terminal: bool) returns (ghost a: Action)
      requires running.OnIngest? && Held(running) == d && (running.phase.Parsing? || running.phase.Embedding? || running.phase.Storing?)
      requires d.task.Ingest? && d.task.job in jobs
      modifies this
      ensures View() == Apply(e, old(View()), a) && running.Idle? && d.task.job in jobs
      ensures limited ==> paused && jobs[d.task.job].status == RateLimited && queue == old(queue)
      ensures !limited ==> jobs[d.task.job].status == Failed
      ensures !limited ==>
        queue == (if !terminal && d.retries < 3 then old(queue) + multiset{d.(retries := d.retries + 1)} else old(queue))
    {
      hide Apply, DoFailTerminal, DoFailRetry;
      FailureSteps(e, View());
      if limited {
        RecordRateLimit(d);
      } else {
        RecordError(d, terminal);
      }
      a := IngestAct(if limited then Hit429 else if terminal then FailTerminal else FailRetry);
    }

    // ---- sweeps ------------------------------------------------------------------------

    static ghost function Ids(rows: seq<JobId>): set<JobId> {
      set j | j in rows
    }

    static ghost predicate Distinct(rows: seq<JobId>) {
      forall a, b :: 0 <= a < b < |rows| ==> rows[a] != rows[b]
    }

    static lemma IdsOneMore(rows: seq<JobId>, i: nat)
      requires i < |rows| && Distinct(rows)
      ensures Ids(rows[..i + 1]) == Ids(rows[..i]) + {rows[i]} && rows[i] !in Ids(rows[..i]) && rows[i] in Ids(rows)
    {
      assert rows[..i + 1] == rows[..i] + [rows[i]];
    }

    /** `_requeue_by_status` on the rows its query returned: enqueue each one that is not visibly
        alive, then move them all to the back of the line. */
    method RequeueByStatus(status: JobStatus, rows: seq<JobId>, onlyIfStale: bool)
      requires status in {RateLimited, Processing, Pending} && onlyIfStale == (status == Processing)
      requires Distinct(rows)
      requires OldestFirst(View(), status, e.retryBatch, Ids(rows))
      modifies this
      ensures View() == DoRequeue(e, old(View()), status, Ids(rows))
      ensures forall j :: j in rows ==> j in old(jobs)
      ensures forall j :: j in rows ==>
        queue[Delivery(Ingest(j, old(jobs)[j].doc, old(jobs)[j].col), 0)] ==
          old(queue)[Delivery(Ingest(j, old(jobs)[j].doc, old(jobs)[j].col), 0)]
          + if status == Processing && j in old(beats) then 0 else 1
      ensures forall j :: j in jobs ==>
        && j in old(jobs)
        && jobs[j] == (if j in rows && !(status == Processing && j in old(beats)) then old(jobs)[j].(updated := clock) else old(jobs)[j])
    {
      assert Ids(rows) <= jobs.Keys;
      RequeueSets(e, View(), status, Ids(rows));
      hide OldestFirst, Fresh, Stuck, DoRequeue, Stamped;
      var requeued := EnqueueRows(status, rows, onlyIfStale);
      StampRows(requeued);
    }

    /** Move the re-enqueued rows to the back of the line. */
    method StampRows(requeued: set<JobId>)
      modifies this
      ensures View() == old(View()).(jobs := Stamped(old(jobs), requeued, old(clock) + 1), clock := old(clock) + 1)
    {
      hide Stamped;
      clock := clock + 1;
      jobs := Stamped(jobs, requeued, clock);
    }

    method EnqueueRows(status: JobStatus, rows: seq<JobId>, onlyIfStale: bool) returns (requeued: set<JobId>)
      requires onlyIfStale == (status == Processing) && Ids(rows) <= jobs.Keys
      requires Distinct(rows)
      modifies this
      ensures requeued == Stuck(old(View()), status, Ids(rows))
      ensures View() == old(View()).(queue := old(queue) + Fresh(old(View()), requeued))
    {
      hide Fresh;
      ghost var s0 := View();
      requeued := {};
      FreshNothing(s0);
      for i := 0 to |rows|
        invariant requeued == Stuck(s0, status, Ids(rows[..i]))
        invariant View() == s0.(queue := s0.queue + Fresh(s0, requeued))
      {
        var j := rows[i];
        IdsOneMore(rows, i);
        if !(onlyIfStale && j in beats) {
          FreshOneMore(s0, requeued, j);
          queue := queue + multiset{Delivery(Ingest(j, jobs[j].doc, jobs[j].col), 0)};
          requeued := requeued + {j};
        }
      }
      assert rows[..|rows|] == rows;
    }

    static lemma FreshNothing(s: State)
      ensures Fresh(s, {}) == multiset{}
    {
    }

    static lemma FreshOneMore(s: State, js: set<JobId>, j: JobId)
      requires j in s.jobs && j !in js
      ensures Fresh(s, js + {j}) == Fresh(s, js) + multiset{Delivery(Ingest(j, s.jobs[j].doc, s.jobs[j].col), 0)}
    {
      var d := Delivery(Ingest(j, s.jobs[j].doc, s.jobs[j].col), 0);
      var before := set x | x in js && x in s.jobs :: Delivery(Ingest(x, s.jobs[x].doc, s.jobs[x].col), 0);
      var after := set x | x in js + {j} && x in s.jobs :: Delivery(Ingest(x, s.jobs[x].doc, s.jobs[x].col), 0);
      assert after == before + {d};
      assert d !in before;
    }

    /** `retry_rate_limited_ingests` on the rows of its three queries: nothing while embedding is
        paused, else one round's sweep. */
    method RetryRateLimitedIngests(limited: seq<JobId>, stuck: seq<JobId>, pending: seq<JobId>)
      requires Distinct(limited) && Distinct(stuck) && Distinct(pending)
      requires Swept3(e, View(), Round(Ids(limited), Ids(stuck), Ids(pending), []))
      modifies this
      ensures View() == if old(paused) then old(View()) else Swept(e, old(View()), Round(Ids(limited), Ids(stuck), Ids(pending), []))
    {
      hide DoRequeue, OldestFirst;
      if paused {
        return;
      }
      RequeueByStatus(RateLimited, limited, false);
      RequeueByStatus(Processing, stuck, true);
      RequeueByStatus(Pending, pending, false);
    }

    // ---- tag sync and delete -----------------------------------------------------------

    /** The steps of a sync that goes wrong where `fault` says. */
    static ghost function SyncSteps(fault: SyncFault): seq<Action> {
      match fault
      case NoFault => [Cleanup(ReadTags), Cleanup(WriteTags)]
      case ReadRaises => [Cleanup(TaskFail)]
      case WriteRaises => [Cleanup(ReadTags), Cleanup(TaskFail)]
      case ReadTimesOut => [Cleanup(TaskTimeout)]
      case WriteTimesOut => [Cleanup(ReadTags), Cleanup(TaskTimeout)]
    }

    /** `sync_document_tags`: if nothing fails the chunks carry the effective tags. An error redelivers
        the task with one more retry, up to the cap; the time limit drops it. */
    method SyncDocumentTags(doc: DocId, col: ColId, retries: nat, fault: SyncFault)
      requires running == OnSync(doc, col, retries, None)
      modifies this
      ensures View() == Run(e, old(View()), SyncSteps(fault)) && running.Idle?
      ensures fault.NoFault? ==>
        && queue == old(queue) && store.Keys == old(store).Keys
        && forall k :: k in store ==>
             && (k.0 == doc && old(store)[k].col == col ==>
                   store[k] == old(store)[k].(tags := Tags.Effective(old(tags), e.home, col, doc)))
             && (!(k.0 == doc && old(store)[k].col == col) ==> store[k] == old(store)[k])
      ensures !fault.NoFault? ==> store == old(store)
      ensures (fault.ReadRaises? || fault.WriteRaises?) && retries < 3 ==>
        queue == old(queue) + multiset{Delivery(SyncTags(doc, col), retries + 1)}
      ensures (fault.ReadRaises? || fault.WriteRaises?) && retries >= 3 ==> queue == old(queue)
      ensures fault.ReadTimesOut? || fault.WriteTimesOut? ==> queue == old(queue)
    {
      ghost var s0 := View();
      hide Run, Apply, Tags.Effective;
      if fault.ReadRaises? || fault.ReadTimesOut? {
        RunOne(e, s0, if fault.ReadRaises? then Cleanup(TaskFail) else Cleanup(TaskTimeout));
        LeaveSync(Delivery(SyncTags(doc, col), retries), fault.ReadTimesOut?);
        return;
      }
      var effective := ReadForSync(doc, col);
      ghost var s1 := View();
      if fault.WriteRaises? || fault.WriteTimesOut? {
        RunTwo(e, s0, Cleanup(ReadTags), if fault.WriteRaises? then Cleanup(TaskFail) else Cleanup(TaskTimeout));
        LeaveSync(Delivery(SyncTags(doc, col), retries), fault.WriteTimesOut?);
        return;
      }
      RunTwo(e, s0, Cleanup(ReadTags), Cleanup(WriteTags));
      WriteForSync(doc, col, effective);
    }

    static lemma RunOne(e: Env, s: State, a: Action)
      ensures Run(e, s, [a]) == Apply(e, s, a)
    {
      assert Run(e, s, [a]) == Run(e, Apply(e, s, a), []);
    }

    method ReadForSync(doc: DocId, col: ColId) returns (effective: set<string>)
      requires running.OnSync? && running.doc == doc && running.col == col && running.read.None?
      modifies this
      ensures View() == Apply(e, old(View()), Cleanup(ReadTags))
      ensures running == old(running).(read := Some(effective)) && effective == Tags.Effective(tags, e.home, col, doc)
      ensures store == old(store) && queue == old(queue) && tags == old(tags)
    {
      effective := EffectiveDocumentTags(col, doc);
      running := running.(read := Some(effective));
    }

    method WriteForSync(doc: DocId, col: ColId, effective: set<string>)
      requires running.OnSync? && running.doc == doc && running.col == col && running.read == Some(effective)
      modifies this
      ensures View() == Apply(e, old(View()), Cleanup(WriteTags)) && running.Idle?
      ensures store == SetTags(old(store), col, doc, effective) && queue == old(queue) && tags == old(tags)
    {
      store := SetTags(store, col, doc, effective);
      lost := lost - {doc};
      running := Idle;
    }

    /** The sync is given back with one more retry if any is left, or dropped. */
    method LeaveSync(m: Delivery, timedOut: bool)
      requires running.OnSync? && Held(running) == m
      modifies this
      ensures View() == Apply(e, old(View()), if timedOut then Cleanup(TaskTimeout) else Cleanup(TaskFail)) && running.Idle?
      ensures store == old(store)
      ensures queue == if !timedOut && m.retries < 3 then old(queue) + multiset{m.(retries := m.retries + 1)} else old(queue)
    {
      hide Apply, Held, Retried;
      LeavingSync(e, View(), m);
      if !timedOut && m.retries < MAX_RETRIES {
        Redeliver(m);
      } else {
        GiveUp(m);
      }
    }

    method Redeliver(m: Delivery)
      modifies this
      ensures View() == old(View()).(queue := old(queue) + multiset{m.(retries := m.retries + 1)}, worker := Idle)
    {
      queue := queue + multiset{m.(retries := m.retries + 1)};
      running := Idle;
    }

    ghost method GiveUp(m: Delivery)
      modifies this`lost, this`running
      ensures View() == old(View()).(lost := old(lost) + {m.task.doc}, worker := Idle)
    {
      lost := lost + {m.task.doc};
      running := Idle;
    }

    /** `delete_document` when nothing fails: chunks, then rows, then the collection if it is empty. */
    method DeleteDocument(doc: DocId, col: ColId) returns (ghost trace: seq<Action>)
      requires Inv(e, View()) && running.OnDelete? && running.doc == doc && running.col == col && running.at.DelStart?
      modifies this
      ensures View() == Run(e, old(View()), trace) && Inv(e, View()) && running.Idle?
      ensures docs == old(docs) - {doc} && queue == old(queue) && gone == old(gone) + {doc}
      ensures forall j :: j in jobs <==> j in old(jobs) && old(jobs)[j].doc != doc
      ensures forall j :: j in jobs ==> jobs[j] == old(jobs)[j]
      ensures forall k :: k in store ==> k.0 != doc && k in old(store) && store[k] == old(store)[k]
      ensures forall k :: k in old(store) && k.0 in docs ==> k in store
      ensures forall k :: k in old(store) && k.0 != doc && k !in store ==>
        old(store)[k].col == col && forall d :: d in docs ==> docs[d].col != col
      ensures (forall d :: d in docs ==> docs[d].col != col) ==> forall k :: k in store ==> store[k].col != col
    {
      hide Inv, Apply, Run;
      ghost var s0 := View();
      RunNothing(e, s0);
      RemoveChunks(doc, col);
      Record(e, s0, [], s0, Cleanup(DeleteChunks), View());
      trace := [] + [Cleanup(DeleteChunks)];
      ghost var before := View();
      RemoveRows(doc);
      Record(e, s0, trace, before, Cleanup(DeleteRows), View());
      trace := trace + [Cleanup(DeleteRows)];
      before := View();
      var empty := CollectionEmpty(col);
      Record(e, s0, trace, before, Cleanup(CheckEmpty), View());
      trace := trace + [Cleanup(CheckEmpty)];
      before := View();
      DropIfEmpty(col, empty);
      Record(e, s0, trace, before, Cleanup(DropCollection), View());
      trace := trace + [Cleanup(DropCollection)];
      Gone(e, View(), doc);
      Kept(e, before, View());
    }

    static lemma Gone(e: Env, s: State, doc: DocId)
      requires Inv(e, s) && doc in s.gone
      ensures doc !in s.docs && (forall k :: k in s.store ==> k.0 != doc) && (forall j :: j in s.jobs ==> s.jobs[j].doc != doc)
    {
      assert Erased(s, doc);
    }

    static lemma Kept(e: Env, before: State, after: State)
      requires Inv(e, before) && after == Apply(e, before, Cleanup(DropCollection))
      ensures forall k :: k in before.store && k.0 in before.docs ==> k in after.store
    {
    }

    method RemoveChunks(doc: DocId, col: ColId)
      requires running.OnDelete? && running.doc == doc && running.col == col && running.at.DelStart?
      modifies this
      ensures View() == Apply(e, old(View()), Cleanup(DeleteChunks)) && running == old(running).(at := ChunksGone)
      ensures docs == old(docs) && jobs == old(jobs) && queue == old(queue) && gone == old(gone)
      ensures forall k :: k in store <==> k in old(store) && !(k.0 == doc && old(store)[k].col == col)
      ensures forall k :: k in store ==> store[k] == old(store)[k]
    {
      var was := store;
      store := map k | k in was && !(k.0 == doc && was[k].col == col) :: was[k];
      running := running.(at := ChunksGone);
    }

    method RemoveRows(doc: DocId)
      requires running.OnDelete? && running.doc == doc && running.at.ChunksGone?
      modifies this
      ensures View() == Apply(e, old(View()), Cleanup(DeleteRows)) && running == old(running).(at := RowsGone)
      ensures store == old(store) && queue == old(queue) && gone == old(gone) + {doc} && docs == old(docs) - {doc}
      ensures forall j :: j in jobs <==> j in old(jobs) && old(jobs)[j].doc != doc
      ensures forall j :: j in jobs ==> jobs[j] == old(jobs)[j]
    {
      hide Apply, JobsWithout, Tags.DropDocument;
      DeleteRowsIs(e, View());
      JobsWithoutAre(jobs, doc);
      docs := docs - {doc};
      jobs := JobsWithout(jobs, doc);
      tags := Tags.DropDocument(tags, doc);
      gone := gone + {doc};
      running := running.(at := RowsGone);
    }

    method CollectionEmpty(col: ColId) returns (empty: bool)
      requires running.OnDelete? && running.col == col && running.at.RowsGone?
      modifies this
      ensures View() == Apply(e, old(View()), Cleanup(CheckEmpty)) && running == old(running).(at := Checked(empty))
      ensures store == old(store) && gone == old(gone) && docs == old(docs) && jobs == old(jobs) && queue == old(queue)
      ensures empty <==> forall d :: d in docs ==> docs[d].col != col
    {
      empty := forall d :: d in docs ==> docs[d].col != col;
      running := running.(at := Checked(empty));
    }

    method DropIfEmpty(col: ColId, empty: bool)
      requires running.OnDelete? && running.col == col && running.at == Checked(empty)
      modifies this
      ensures View() == Apply(e, old(View()), Cleanup(DropCollection)) && running.Idle?
      ensures gone == old(gone) && docs == old(docs) && jobs == old(jobs) && queue == old(queue)
      ensures forall k :: k in store <==> k in old(store) && !(empty && old(store)[k].col == col)
      ensures forall k :: k in store ==> store[k] == old(store)[k]
    {
      var was := store;
      if empty {
        store := map k | k in was && was[k].col != col :: was[k];
      }
      running := Idle;
    }
  }

  /** The rows with the re-enqueued ones stamped `now`. */
  function Stamped(jobs: map<JobId, Job>, ids: set<JobId>, now: nat): map<JobId, Job> {
    map j | j in jobs :: if j in ids then jobs[j].(updated := now) else jobs[j]
  }

  lemma RequeueSets(e: Env, s: State, status: JobStatus, picked: set<JobId>)
    requires status in {RateLimited, Processing, Pending} && OldestFirst(s, status, e.retryBatch, picked)
    ensures var ids := Stuck(s, status, picked);
      DoRequeue(e, s, status, picked) ==
        s.(queue := s.queue + Fresh(s, ids), jobs := Stamped(s.jobs, ids, s.clock + 1), clock := s.clock + 1)
  {
    hide OldestFirst, Fresh, Stuck;
  }

  lemma LeavingSync(e: Env, s: State, m: Delivery)
    requires s.worker.OnSync? && Held(s.worker) == m
    ensures Apply(e, s, Cleanup(TaskTimeout)) == s.(lost := s.lost + {m.task.doc}, worker := Idle)
    ensures Apply(e, s, Cleanup(TaskFail)) ==
      if m.retries < MAX_RETRIES then s.(queue := s.queue + multiset{m.(retries := m.retries + 1)}, worker := Idle)
      else s.(lost := s.lost + {m.task.doc}, worker := Idle)
    ensures s.queue + Retried(s.worker) ==
      if m.retries < MAX_RETRIES then s.queue + multiset{m.(retries := m.retries + 1)} else s.queue
  {
  }

  /** The document's row, if it is still there, with its chunk count and model. */
  function CountedDocs(docs: map<DocId, Doc>, doc: DocId, count: nat, model: Model): map<DocId, Doc> {
    if doc in docs then docs[doc := docs[doc].(chunkCount := Some(count), model := Some(model))] else docs
  }

  function DoneJobs(jobs: map<JobId, Job>, job: JobId, count: nat, now: nat): map<JobId, Job>
    requires job in jobs
  {
    jobs[job := jobs[job].(status := Done, chunkCount := Some(count), updated := now)]
  }

  lemma DoneJobIs(jobs: map<JobId, Job>, job: JobId, count: nat, now: nat)
    requires job in jobs
    ensures DoneJobs(jobs, job, count, now) == jobs[job := jobs[job].(status := Done, chunkCount := Some(count), updated := now)]
  {
  }

  lemma CountedDocsAre(docs: map<DocId, Doc>, doc: DocId, count: nat, model: Model)
    ensures CountedDocs(docs, doc, count, model) ==
      if doc !in docs then docs else docs[doc := docs[doc].(chunkCount := Some(count), model := Some(model))]
  {
  }

  lemma MarkDoneIs(e: Env, s: State)
    requires s.worker.OnIngest? && s.worker.phase.Storing? && s.worker.job in s.jobs
    ensures var w, count := s.worker, |e.parse(s.worker.doc)|;
      Apply(e, s, IngestAct(MarkDone)) ==
        s.(docs := CountedDocs(s.docs, w.doc, count, w.phase.cfg.model), jobs := DoneJobs(s.jobs, w.job, count, s.clock + 1),
           clock := s.clock + 1, beats := s.beats + {w.job}, worker := w.(phase := Closing))
  {
  }

  lemma JobsWithoutAre(jobs: map<JobId, Job>, doc: DocId)
    ensures forall j :: j in JobsWithout(jobs, doc) <==> j in jobs && jobs[j].doc != doc
    ensures forall j :: j in JobsWithout(jobs, doc) ==> JobsWithout(jobs, doc)[j] == jobs[j]
  {
  }

  lemma DeleteRowsIs(e: Env, s: State)
    requires s.worker.OnDelete? && s.worker.at.ChunksGone?
    ensures var doc := s.worker.doc;
      Apply(e, s, Cleanup(DeleteRows)) ==
        s.(docs := s.docs - {doc}, jobs := JobsWithout(s.jobs, doc), tags := Tags.DropDocument(s.tags, doc),
           gone := s.gone + {doc}, worker := s.worker.(at := RowsGone))
  {
    hide JobsWithout, Tags.DropDocument;
  }

  lemma SkipsMeans(s: State, j: JobId)
    ensures Skips(s, j) <==> j !in s.jobs || s.jobs[j].status == Done || (s.jobs[j].status == Processing && j in s.beats)
  {
  }

  lemma ClaimIs(e: Env, s: State)
    requires s.worker.OnIngest? && s.worker.phase.Opened?
    ensures var j := s.worker.job;
      Apply(e, s, IngestAct(Claim)) ==
        if Skips(s, j) then s.(worker := Idle)
        else s.(jobs := s.jobs[j := s.jobs[j].(status := Processing, updated := s.clock + 1)], clock := s.clock + 1,
                worker := s.worker.(phase := Claimed(s.worker.phase.cfg)))
  {
  }

  lemma BatchIs(e: Env, s: State)
    requires s.worker.OnIngest? && s.worker.phase.Embedding? && s.worker.phase.cfg.batchSize > 0 && s.worker.phase.todo != []
    ensures var w, p := s.worker, s.worker.phase; var b := BatchLength(p.cfg, p.todo);
      Apply(e, s, IngestAct(Batch)) ==
        s.(store := Upsert(e, s.store, w.col, w.doc, p.todo[..b], p.cfg.model, p.tags), beats := s.beats + {w.job},
           worker := w.(phase := p.(todo := p.todo[b..])))
  {
    hide Upsert;
  }

  lemma UpsertAre(e: Env, store: Store, col: ColId, doc: DocId, batch: seq<nat>, model: Model, tags: set<string>)
    ensures var after := Upsert(e, store, col, doc, batch, model, tags);
      && (forall k: ChunkKey :: k in after <==> k in store || (k.0 == doc && k.1 in batch && k.1 < |e.parse(doc)|))
      && (forall k: ChunkKey :: k in after && !(k.0 == doc && k.1 in batch) ==> after[k] == store[k])
      && forall i :: i in batch && i < |e.parse(doc)| ==>
        var c := if (doc, i) in store then store[(doc, i)].col else col;
        after[(doc, i)] == Row(c, e.parse(doc)[i], model, e.embed(model, e.parse(doc)[i]), tags)
  {
  }

  lemma Hit429Is(e: Env, s: State)
    ensures Apply(e, s, IngestAct(Hit429)) == DoHit429(s)
  {
    hide DoHit429;
  }
}
