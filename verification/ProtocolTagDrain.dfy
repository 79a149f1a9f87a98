/** When the tag copy agrees with its source after a tag change, exactly: while no ingest runs, a
    document's chunks carry what the last tag sync wrote, and nothing else brings them up to date. */
module ProtocolTagDrain {
  import opened Ids
  import opened Protocol
  import opened ProtocolSafety
  import opened ProtocolTags
  import opened ProtocolRuns
  import opened ProtocolLiveness
  import Tags

  /** Only tag syncs are queued or running. */
  ghost predicate OnlySyncs(s: State) {
    (forall m :: m in s.queue ==> m.task.SyncTags?) && (s.worker.Idle? || s.worker.OnSync?)
  }

  /** What happens while syncs drain: deliveries, crashes, task steps of every outcome, and keys and
      configuration as they please; no ingest, upload or delete is asked for. */
  ghost predicate Drains(a: Action) {
    match a
    case Cleanup(_) => true
    case Other(event) => event.Take? || event.Crash? || event.ExpireBeat? || event.LiftPause? || event.SetConfig?
    case _ => false
  }

  ghost predicate DrainsOrTags(a: Action) {
    Drains(a) || a.Tagging?
  }

  /** This step writes a sync of the document. */
  ghost predicate WritesFor(s: State, a: Action, d: DocId) {
    a == Cleanup(WriteTags) && s.worker.OnSync? && s.worker.doc == d && s.worker.read.Some?
  }

  /** What the last sync of the document to be written in the run wrote, `was` if none was. */
  ghost function LastWritten(e: Env, s: State, actions: seq<Action>, d: DocId, was: set<string>): set<string>
    decreases |actions|
  {
    if actions == [] then was
    else
      LastWritten(e, Apply(e, s, actions[0]), actions[1..], d,
                  if WritesFor(s, actions[0], d) then s.worker.read.value else was)
  }

  /** A sync of the document is written somewhere in the run. */
  ghost predicate Wrote(e: Env, s: State, actions: seq<Action>, d: DocId)
    decreases |actions|
  {
    actions != [] && (WritesFor(s, actions[0], d) || Wrote(e, Apply(e, s, actions[0]), actions[1..], d))
  }

  ghost predicate HasChunk(s: State, d: DocId) {
    exists k :: k in s.store && k.0 == d
  }

  ghost predicate Agrees(e: Env, s: State, d: DocId)
    requires d in s.docs
  {
    ChunksCarry(s, d, EffectiveOf(e, s, d))
  }

  // ---- one step ------------------------------------------------------------------------

  /** What a step of a tag sync leaves alone. */
  ghost predicate SyncShape(s: State, s': State) {
    && s'.docs == s.docs && s'.store.Keys == s.store.Keys && OnlySyncs(s')
  }

  lemma CleanupDrains(e: Env, s: State, a: CleanupStep)
    requires OnlySyncs(s) && s.worker.OnSync?
    ensures var s' := ApplyCleanup(e, s, a);
      && SyncShape(s, s') && s'.tags == s.tags
      && s'.store == if WritesFor(s, Cleanup(a), s.worker.doc) then SetTags(s.store, s.worker.col, s.worker.doc, s.worker.read.value)
                     else s.store
  {
    hide ApplyCleanup;
    if a.TaskFail? {
      FailureDrains(e, s);
    } else if a.WriteTags? {
      WriteDrains(e, s);
    } else if a.ReadTags? || a.TaskTimeout? {
      OtherDrains(e, s, a);
    } else {
      NotADelete(e, s, a);
    }
  }

  lemma WriteDrains(e: Env, s: State)
    requires OnlySyncs(s) && s.worker.OnSync?
    ensures var s' := ApplyCleanup(e, s, WriteTags);
      && SyncShape(s, s') && s'.tags == s.tags
      && s'.store == if s.worker.read.Some? then SetTags(s.store, s.worker.col, s.worker.doc, s.worker.read.value) else s.store
  {
    hide SetTags;
    if s.worker.read.Some? { SetTagsKeepsKeys(s.store, s.worker.col, s.worker.doc, s.worker.read.value); }
  }

  lemma SetTagsKeepsKeys(store: Store, col: ColId, doc: DocId, tags: set<string>)
    ensures SetTags(store, col, doc, tags).Keys == store.Keys
  {
  }

  lemma OtherDrains(e: Env, s: State, a: CleanupStep)
    requires OnlySyncs(s) && s.worker.OnSync? && (a.ReadTags? || a.TaskTimeout?)
    ensures var s' := ApplyCleanup(e, s, a); SyncShape(s, s') && s'.tags == s.tags && s'.store == s.store
  {
    hide Tags.Effective;
  }

  lemma NotADelete(e: Env, s: State, a: CleanupStep)
    requires s.worker.OnSync? && (a.DeleteChunks? || a.DeleteRows? || a.CheckEmpty? || a.DropCollection?)
    ensures ApplyCleanup(e, s, a) == s
  {
    hide JobsWithout, Tags.DropDocument;
  }

  lemma FailureDrains(e: Env, s: State)
    requires OnlySyncs(s) && s.worker.OnSync?
    ensures var s' := ApplyCleanup(e, s, TaskFail); SyncShape(s, s') && s'.tags == s.tags && s'.store == s.store
  {
    hide Retried;
    RetriedAreSyncs(s);
  }

  lemma RetriedAreSyncs(s: State)
    requires OnlySyncs(s) && s.worker.OnSync?
    ensures forall m :: m in s.queue + Retried(s.worker) ==> m.task.SyncTags?
  {
  }

  lemma IdleCleans(e: Env, s: State, a: CleanupStep)
    requires s.worker.Idle?
    ensures ApplyCleanup(e, s, a) == s
  {
  }

  lemma EventDrains(e: Env, s: State, a: Event)
    requires OnlySyncs(s) && Drains(Other(a))
    ensures var s' := ApplyEvent(e, s, a); SyncShape(s, s') && s'.store == s.store && s'.tags == s.tags
  {
    hide DoRequeue, DoPurge, DoLose, DoRepeat, DoTake, DoCrash;
    if a.Take? { TakeDrains(s, a.delivery); } else if a.Crash? { CrashDrains(s); }
  }

  lemma TakeDrains(s: State, m: Delivery)
    requires OnlySyncs(s)
    ensures var s' := DoTake(s, m);
      && SyncShape(s, s') && s'.store == s.store && s'.tags == s.tags
      && (s'.worker == s.worker || (s'.worker.OnSync? && s'.worker.read.None?))
  {
    hide DoTake;
    if s.worker.Idle? && m in s.queue {
      TakenSync(s, m);
      FewerSyncs(s.queue, m);
    } else {
      NotTaken(s, m);
    }
  }

  lemma NotTaken(s: State, m: Delivery)
    requires !s.worker.Idle? || m !in s.queue
    ensures DoTake(s, m) == s
  {
  }

  lemma FewerSyncs(q: multiset<Delivery>, m: Delivery)
    requires forall x :: x in q ==> x.task.SyncTags?
    ensures forall x :: x in q - multiset{m} ==> x.task.SyncTags?
  {
    forall x | x in q - multiset{m} ensures x.task.SyncTags? { assert x in q; }
  }

  lemma CrashDrains(s: State)
    requires OnlySyncs(s)
    ensures var s' := DoCrash(s); SyncShape(s, s') && s'.store == s.store && s'.tags == s.tags && s'.worker.Idle?
  {
  }

  lemma CallDrains(e: Env, s: State, a: TagCall)
    requires OnlySyncs(s)
    ensures var s' := ApplyTagging(e, s, a); SyncShape(s, s') && s'.store == s.store && s'.worker == s.worker
  {
    hide ApplyTagging;
    var docs := TaggingShape(e, s, a);
    SyncsAreSyncs(s, docs);
  }

  lemma SyncsAreSyncs(s: State, docs: set<DocId>)
    ensures forall m :: m in Syncs(s, docs) ==> m.task.SyncTags?
  {
  }

  /** One step: the document's chunks keep their tags, or all get those a sync wrote. */
  lemma StepWrites(e: Env, s: State, a: Action, d: DocId, was: set<string>)
    requires Identities(e, s) && OnlySyncs(s) && DrainsOrTags(a) && d in s.docs && ChunksCarry(s, d, was)
    ensures var s' := Apply(e, s, a);
      && SyncShape(s, s') && (Drains(a) ==> s'.tags == s.tags)
      && ChunksCarry(s', d, if WritesFor(s, a, d) then s.worker.read.value else was)
  {
    hide ApplyCleanup, ApplyEvent, ApplyTagging, Unstarted;
    match a
    case Cleanup(work) =>
      if s.worker.OnSync? {
        CleanupDrains(e, s, work);
        assert TaskOk(s, Held(s.worker));
      } else {
        IdleCleans(e, s, work);
      }
    case Other(event) => EventDrains(e, s, event);
    case Tagging(call) => CallDrains(e, s, call);
  }

  // ---- whole runs ----------------------------------------------------------------------

  /** Over any interleaving of tag calls and syncs, the document's chunks carry exactly what the last
      written sync of it wrote, or what they carried at the start. */
  lemma {:induction false} ChunksCarryLastWrite(e: Env, s: State, actions: seq<Action>, d: DocId, was: set<string>)
    requires Inv(e, s) && OnlySyncs(s) && d in s.docs && ChunksCarry(s, d, was)
    requires forall a :: a in actions ==> DrainsOrTags(a)
    ensures var t := Run(e, s, actions); SyncShape(s, t) && ChunksCarry(t, d, LastWritten(e, s, actions, d, was))
    decreases |actions|
  {
    hide Apply, DrainsOrTags, ChunksCarry, Identities, TagCopy;
    if actions != [] {
      var a := actions[0];
      assert DrainsOrTags(a);
      InvKept(e, s, a);
      StepWrites(e, s, a, d, was);
      ChunksCarryLastWrite(e, Apply(e, s, a), actions[1..], d, if WritesFor(s, a, d) then s.worker.read.value else was);
    }
  }

  /** A sync that has read has read the tables as they are. */
  ghost predicate ReadIsFresh(e: Env, s: State) {
    s.worker.OnSync? && s.worker.read.Some? ==> s.worker.read.value == Tags.Effective(s.tags, e.home, s.worker.col, s.worker.doc)
  }

  lemma FreshKept(e: Env, s: State, a: Action)
    requires OnlySyncs(s) && Drains(a) && ReadIsFresh(e, s)
    ensures ReadIsFresh(e, Apply(e, s, a))
  {
    hide ApplyCleanup, ApplyEvent, Tags.Effective;
    if a.Cleanup? {
      if s.worker.OnSync? { FreshCleanup(e, s, a.work); } else { IdleCleans(e, s, a.work); }
    } else {
      FreshEvent(e, s, a.event);
    }
  }

  lemma FreshCleanup(e: Env, s: State, a: CleanupStep)
    requires s.worker.OnSync? && ReadIsFresh(e, s)
    ensures ReadIsFresh(e, ApplyCleanup(e, s, a))
  {
    hide SetTags, JobsWithout, Tags.Effective, Tags.DropDocument, Retried;
  }

  lemma FreshEvent(e: Env, s: State, a: Event)
    requires OnlySyncs(s) && Drains(Other(a)) && ReadIsFresh(e, s)
    ensures ReadIsFresh(e, ApplyEvent(e, s, a))
  {
    hide DoRequeue, DoPurge, DoLose, DoRepeat, DoTake, DoCrash, Tags.Effective;
    if a.Take? { TakeDrains(s, a.delivery); } else if a.Crash? { CrashDrains(s); }
  }

  /** While the tables stay as they are, every sync of the document writes its effective tags. */
  lemma {:induction false} DrainWritesEffective(e: Env, s: State, actions: seq<Action>, d: DocId, was: set<string>)
    requires Inv(e, s) && OnlySyncs(s) && ReadIsFresh(e, s) && d in s.docs && ChunksCarry(s, d, was)
    requires forall a :: a in actions ==> Drains(a)
    ensures Run(e, s, actions).tags == s.tags && Run(e, s, actions).docs == s.docs
    ensures LastWritten(e, s, actions, d, was) == if Wrote(e, s, actions, d) then EffectiveOf(e, s, d) else was
    decreases |actions|
  {
    hide Apply, Drains, ChunksCarry, ReadIsFresh, Tags.Effective, Identities, TagCopy;
    if actions != [] {
      var a := actions[0];
      assert Drains(a) && DrainsOrTags(a);
      InvKept(e, s, a);
      StepWrites(e, s, a, d, was);
      FreshKept(e, s, a);
      if WritesFor(s, a, d) {
        WrittenIsEffective(e, s, a, d);
        DrainWritesEffective(e, Apply(e, s, a), actions[1..], d, s.worker.read.value);
      } else {
        DrainWritesEffective(e, Apply(e, s, a), actions[1..], d, was);
      }
    }
  }

  lemma WrittenIsEffective(e: Env, s: State, a: Action, d: DocId)
    requires Identities(e, s) && ReadIsFresh(e, s) && d in s.docs && WritesFor(s, a, d)
    ensures s.worker.read.value == EffectiveOf(e, s, d)
  {
    assert TaskOk(s, Held(s.worker));
  }

  /** From any settled state, after any tag call, at every moment of any drain of its syncs: the
      chunks of an active document agree with its effective tags if and only if a sync of it was
      written, or the call did not change them, or it has no chunk. */
  lemma AgreesExactlyWhen(e: Env, s: State, call: TagCall, actions: seq<Action>, d: DocId)
    requires Inv(e, s) && Drained(s) && d in s.docs && s.docs[d].status == Active && d !in s.lost
    requires forall a :: a in actions ==> Drains(a)
    ensures var s1 := Apply(e, s, Tagging(call));
      && d in s1.docs && d in Run(e, s1, actions).docs
      && (Agrees(e, Run(e, s1, actions), d) <==>
            Wrote(e, s1, actions, d) || EffectiveOf(e, s1, d) == EffectiveOf(e, s, d) || !HasChunk(s, d))
  {
    hide Apply, Run, Drains, ReadIsFresh, Wrote, LastWritten, Tags.Effective;
    var s1 := Apply(e, s, Tagging(call));
    var was := EffectiveOf(e, s, d);
    SettledAgrees(e, s, d);
    AfterCall(e, s, call);
    InvKept(e, s, Tagging(call));
    assert forall a :: a in actions ==> DrainsOrTags(a);
    ChunksCarryLastWrite(e, s1, actions, d, was);
    DrainWritesEffective(e, s1, actions, d, was);
  }

  lemma SettledAgrees(e: Env, s: State, d: DocId)
    requires Inv(e, s) && Drained(s) && d in s.docs && s.docs[d].status == Active && d !in s.lost
    ensures Agrees(e, s, d)
  {
  }

  lemma AfterCall(e: Env, s: State, call: TagCall)
    requires Drained(s)
    ensures var s1 := Apply(e, s, Tagging(call));
      OnlySyncs(s1) && ReadIsFresh(e, s1) && s1.docs == s.docs && s1.store == s.store && s1.worker.Idle?
  {
    hide ApplyTagging;
    var docs := TaggingShape(e, s, call);
    SyncsAreSyncs(s, docs);
  }

  // ---- drains in which every sync is dropped -------------------------------------------

  lemma {:induction false} WroteAppend(e: Env, s: State, a: seq<Action>, b: seq<Action>, d: DocId)
    ensures Wrote(e, s, a + b, d) <==> Wrote(e, s, a, d) || Wrote(e, Run(e, s, a), b, d)
    decreases |a|
  {
    hide Apply, WritesFor;
    if a == [] {
      assert a + b == b;
    } else {
      assert (a + b)[1..] == a[1..] + b;
      WroteAppend(e, Apply(e, s, a[0]), a[1..], b, d);
    }
  }

  lemma {:induction false} NoWriteNoWrote(e: Env, s: State, actions: seq<Action>, d: DocId)
    requires forall a :: a in actions ==> a != Cleanup(WriteTags)
    ensures !Wrote(e, s, actions, d)
    decreases |actions|
  {
    hide Apply;
    if actions != [] {
      assert actions[0] in actions && forall x :: x in actions[1..] ==> x in actions;
      NoWriteNoWrote(e, Apply(e, s, actions[0]), actions[1..], d);
    }
  }

  /** One queued sync dropped, at once by its time limit or after all its retries. */
  lemma OneDrop(e: Env, s: State, m: Delivery, timeOut: bool) returns (actions: seq<Action>, s': State)
    requires s.worker.Idle? && m in s.queue && m.task.SyncTags? && m.retries <= MAX_RETRIES
    ensures s' == Run(e, s, actions) && s' == s.(queue := s.queue - multiset{m}, lost := s.lost + {m.task.doc})
    ensures forall a :: a in actions ==> Drains(a) && a != Cleanup(WriteTags)
  {
    if timeOut {
      s' := SyncTimesOut(e, s, m);
      actions := [Other(Take(m)), Cleanup(TaskTimeout)];
    } else {
      actions, s' := SyncGivesUp(e, s, m);
    }
  }

  /** Every queued sync dropped, one after the other. */
  lemma {:induction false} DropDrain(e: Env, s: State, timeOut: bool) returns (actions: seq<Action>)
    requires TaskIds(s) && OnlySyncs(s) && s.worker.Idle?
    ensures forall a :: a in actions ==> Drains(a)
    ensures Drained(Run(e, s, actions)) && forall d :: !Wrote(e, s, actions, d)
    decreases |s.queue|
  {
    hide Apply, Drains, Wrote;
    actions := [];
    if s.queue == multiset{} {
      forall d ensures !Wrote(e, s, actions, d) { NoWriteNoWrote(e, s, actions, d); }
    } else {
      var m :| m in s.queue;
      assert TaskOk(s, m);
      var first, s2 := OneDrop(e, s, m, timeOut);
      FewerTasks(s, m, s2);
      var rest := DropDrain(e, s2, timeOut);
      actions := first + rest;
      RunAppend(e, s, first, rest);
      forall d ensures !Wrote(e, s, actions, d) {
        NoWriteNoWrote(e, s, first, d);
        WroteAppend(e, s, first, rest, d);
      }
    }
  }

  lemma FewerTasks(s: State, m: Delivery, s2: State)
    requires TaskIds(s) && OnlySyncs(s) && s.worker.Idle? && m in s.queue
    requires s2 == s.(queue := s.queue - multiset{m}, lost := s.lost + {m.task.doc})
    ensures TaskIds(s2) && OnlySyncs(s2) && |s2.queue| < |s.queue|
  {
    forall x | x in s2.queue ensures TaskOk(s2, x) && x.task.SyncTags? { assert x in s.queue; }
  }

  /** So from any settled state, any tag call that changes the effective tags of an active document
      with a chunk can end with nothing queued and that document's chunks out of step: one time limit
      is enough, and so are four failures. */
  lemma DroppedSyncsLeaveStaleTags(e: Env, s: State, call: TagCall, d: DocId, timeOut: bool) returns (actions: seq<Action>)
    requires Inv(e, s) && Drained(s) && d in s.docs && s.docs[d].status == Active && d !in s.lost && HasChunk(s, d)
    requires var s1 := Apply(e, s, Tagging(call)); d in s1.docs && EffectiveOf(e, s1, d) != EffectiveOf(e, s, d)
    ensures var t := Run(e, Apply(e, s, Tagging(call)), actions); Drained(t) && d in t.docs && !Agrees(e, t, d)
  {
    hide Apply, Wrote, Agrees, EffectiveOf, RowIds, Unstarted, TagCopy;
    AfterCall(e, s, call);
    InvKept(e, s, Tagging(call));
    actions := DropDrain(e, Apply(e, s, Tagging(call)), timeOut);
    AgreesExactlyWhen(e, s, call, actions, d);
  }
}
