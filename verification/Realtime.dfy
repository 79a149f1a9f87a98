/** The snapshot-plus-stream bridge: one publisher writes each event to the topic's hash and then to
    its channel; a client subscribes, replays the hash and forwards the channel. */
module Realtime {
  import opened Ids
  import P = Permissions

  /** A published payload: its snapshot key, the collection it names if it names one, its content.
      `serial` is its place in the publication order, which no step reads. */
  datatype Event = Event(key: nat, collection: Option<ColId>, body: nat, serial: nat)

  /** `_visible`: with no filter everything, otherwise only events of allowed collections. */
  predicate Visible(e: Event, allowed: Option<set<ColId>>) {
    match allowed
    case None => true
    case Some(cols) => e.collection.Some? && e.collection.value in cols
  }

  datatype Phase = Away | Subscribed | Replaying(rest: seq<Event>) | Streaming

  /** `hash` and the channel live in Redis, `inflight` is written to the hash but not yet sent to the
      channel, `log` is everything sent to the channel, `queued` is what waits for the client.
      `from`, `snap` and `expired` record when the client subscribed, what it read, and whether the
      hash ever expired. */
  datatype State = State(hash: map<nat, Event>, inflight: Option<Event>, log: seq<Event>,
                         phase: Phase, queued: seq<Event>, sent: seq<Event>,
                         from: nat, snap: seq<Event>, expired: bool)

  datatype Action =
    | BeginPublish(e: Event)
    | EndPublish
    | Expire
    | Subscribe
    | ReadHash(order: seq<Event>)
    | SendSnapshot
    | Forward

  function Start(): State {
    State(map[], None, [], Away, [], [], 0, [], false)
  }

  /** `order` lists the values of the hash, each field once, in any order. */
  predicate Lists(order: seq<Event>, hash: map<nat, Event>) {
    && (forall i :: 0 <= i < |order| ==> order[i].key in hash && hash[order[i].key] == order[i])
    && (forall k :: k in hash ==> hash[k] in order)
    && forall i, j :: 0 <= i < j < |order| ==> order[i].key != order[j].key
  }

  function Send(sent: seq<Event>, e: Event, allowed: Option<set<ColId>>): seq<Event> {
    if Visible(e, allowed) then sent + [e] else sent
  }

  /** One step; an action that cannot happen changes nothing. */
  function Apply(s: State, a: Action, allowed: Option<set<ColId>>): State {
    match a
    case BeginPublish(e) =>
      if s.inflight.Some? then s
      else
        var event := e.(serial := |s.log|);
        s.(hash := s.hash[e.key := event], inflight := Some(event))
    case EndPublish =>
      if s.inflight.None? then s
      else s.(inflight := None, log := s.log + [s.inflight.value],
              queued := if s.phase.Away? then s.queued else s.queued + [s.inflight.value])
    case Expire => s.(hash := map[], expired := true)
    case Subscribe => if s.phase.Away? then s.(phase := Subscribed, from := |s.log|) else s
    case ReadHash(order) =>
      if s.phase.Subscribed? && Lists(order, s.hash) then s.(phase := Replaying(order), snap := order) else s
    case SendSnapshot =>
      if !s.phase.Replaying? then s
      else if s.phase.rest == [] then s.(phase := Streaming)
      else s.(phase := Replaying(s.phase.rest[1..]), sent := Send(s.sent, s.phase.rest[0], allowed))
    case Forward =>
      if s.phase.Streaming? && s.queued != [] then
        s.(queued := s.queued[1..], sent := Send(s.sent, s.queued[0], allowed))
      else s
  }

  function Run(actions: seq<Action>, allowed: Option<set<ColId>>): State {
    if actions == [] then Start()
    else Apply(Run(actions[..|actions| - 1], allowed), actions[|actions| - 1], allowed)
  }

  // ---- reading a history ---------------------------------------------------------------

  function LastOf(es: seq<Event>, key: nat): Option<Event> {
    if es == [] then None
    else if es[|es| - 1].key == key then Some(es[|es| - 1])
    else LastOf(es[..|es| - 1], key)
  }

  function Shown(es: seq<Event>, allowed: Option<set<ColId>>): seq<Event> {
    if es == [] then [] else Send(Shown(es[..|es| - 1], allowed), es[|es| - 1], allowed)
  }

  lemma {:induction false} LastOfAppend(a: seq<Event>, b: seq<Event>, key: nat)
    ensures LastOf(a + b, key) == if LastOf(b, key).Some? then LastOf(b, key) else LastOf(a, key)
  {
    if b == [] {
      assert a + b == a;
    } else {
      assert (a + b)[..|a + b| - 1] == a + b[..|b| - 1];
      LastOfAppend(a, b[..|b| - 1], key);
    }
  }

  lemma LastOfSnoc(es: seq<Event>, e: Event, key: nat)
    ensures LastOf(es + [e], key) == if e.key == key then Some(e) else LastOf(es, key)
  {
    assert (es + [e])[..|es|] == es;
  }

  lemma ShownSnoc(es: seq<Event>, e: Event, allowed: Option<set<ColId>>)
    ensures Shown(es + [e], allowed) == Send(Shown(es, allowed), e, allowed)
  {
    assert (es + [e])[..|es|] == es;
  }

  /** Dropping what may not be seen keeps a key's last event, if that may be seen. */
  lemma {:induction false} LastShown(es: seq<Event>, key: nat, allowed: Option<set<ColId>>)
    ensures LastOf(es, key).None? ==> LastOf(Shown(es, allowed), key).None?
    ensures LastOf(es, key).Some? && Visible(LastOf(es, key).value, allowed) ==> LastOf(Shown(es, allowed), key) == LastOf(es, key)
  {
    if es != [] {
      LastShown(es[..|es| - 1], key, allowed);
      LastOfSnoc(Shown(es[..|es| - 1], allowed), es[|es| - 1], key);
    }
  }

  lemma {:induction false} LastOfIn(es: seq<Event>, key: nat)
    ensures LastOf(es, key).None? <==> forall i :: 0 <= i < |es| ==> es[i].key != key
    ensures LastOf(es, key).Some? ==> LastOf(es, key).value in es && LastOf(es, key).value.key == key
  {
    if es != [] { LastOfIn(es[..|es| - 1], key); }
  }

  // ---- what every step keeps -----------------------------------------------------------

  /** The hash holds, for each key, the event being published or the last one published. */
  ghost predicate HashOk(s: State) {
    && (forall k :: k in s.hash ==> Some(s.hash[k]) == Newest(s, k))
    && (!s.expired ==> forall k: nat :: Newest(s, k).Some? ==> k in s.hash)
  }

  function Newest(s: State, key: nat): Option<Event> {
    if s.inflight.Some? && s.inflight.value.key == key then s.inflight else LastOf(s.log, key)
  }

  /** What was replayed is right for every key nobody has published since. */
  ghost predicate SnapOk(s: State)
    requires s.from <= |s.log|
  {
    s.phase.Replaying? || s.phase.Streaming? ==>
      forall k: nat :: Quiet(s, k) ==>
        && (forall i :: 0 <= i < |s.snap| && s.snap[i].key == k ==> Some(s.snap[i]) == LastOf(s.log, k))
        && (!s.expired && LastOf(s.log, k).Some? ==> LastOf(s.log, k).value in s.snap)
  }

  /** No event of this key since the client subscribed, nor one under way. */
  predicate Quiet(s: State, key: nat)
    requires s.from <= |s.log|
  {
    LastOf(s.log[s.from..], key).None? && !(s.inflight.Some? && s.inflight.value.key == key)
  }

  /** What was sent is the replayed part of the snapshot and then the forwarded part of the stream. */
  predicate SentOk(s: State, allowed: Option<set<ColId>>)
    requires s.from <= |s.log|
  {
    match s.phase
    case Away => s.sent == [] && s.queued == []
    case Subscribed => s.sent == [] && s.queued == s.log[s.from..]
    case Replaying(rest) =>
      && s.queued == s.log[s.from..] && |rest| <= |s.snap| && s.snap[|s.snap| - |rest|..] == rest
      && s.sent == Shown(s.snap[..|s.snap| - |rest|], allowed)
    case Streaming =>
      && |s.queued| <= |s.log| - s.from && s.log[|s.log| - |s.queued|..] == s.queued
      && s.sent == Shown(s.snap, allowed) + Shown(s.log[s.from..|s.log| - |s.queued|], allowed)
  }

  ghost predicate Inv(s: State, allowed: Option<set<ColId>>) {
    s.from <= |s.log| && HashOk(s) && SnapOk(s) && SentOk(s, allowed)
  }

  lemma HashKept(s: State, a: Action, allowed: Option<set<ColId>>)
    requires HashOk(s)
    ensures HashOk(Apply(s, a, allowed))
  {
    hide LastOf, Lists;
    var t := Apply(s, a, allowed);
    if a.EndPublish? && s.inflight.Some? {
      forall k: nat ensures Newest(t, k) == Newest(s, k) { LastOfSnoc(s.log, s.inflight.value, k); }
    }
  }

  lemma SnapKept(s: State, a: Action, allowed: Option<set<ColId>>)
    requires s.from <= |s.log| && HashOk(s) && SnapOk(s)
    ensures var t := Apply(s, a, allowed); t.from <= |t.log| && SnapOk(t)
  {
    hide LastOf, Lists;
    var t := Apply(s, a, allowed);
    match a
    case EndPublish =>
      if s.inflight.Some? {
        var e := s.inflight.value;
        assert t.log[t.from..] == s.log[s.from..] + [e];
        forall k: nat | Quiet(t, k) ensures Quiet(s, k) && LastOf(t.log, k) == LastOf(s.log, k) {
          LastOfSnoc(s.log[s.from..], e, k);
          LastOfSnoc(s.log, e, k);
        }
      }
    case ReadHash(order) => ReadKept(s, order, allowed);
    case _ =>
  }

  lemma ReadKept(s: State, order: seq<Event>, allowed: Option<set<ColId>>)
    requires s.from <= |s.log| && HashOk(s) && SnapOk(s)
    ensures SnapOk(Apply(s, ReadHash(order), allowed))
  {
    hide LastOf;
    var t := Apply(s, ReadHash(order), allowed);
    if s.phase.Subscribed? && Lists(order, s.hash) {
      forall k: nat | Quiet(t, k)
        ensures forall i :: 0 <= i < |order| && order[i].key == k ==> Some(order[i]) == LastOf(s.log, k)
        ensures !s.expired && LastOf(s.log, k).Some? ==> LastOf(s.log, k).value in order
      {
        assert Newest(s, k) == LastOf(s.log, k);
        LastOfIn(s.log, k);
      }
    }
  }

  lemma SentKept(s: State, a: Action, allowed: Option<set<ColId>>)
    requires s.from <= |s.log| && SentOk(s, allowed)
    ensures var t := Apply(s, a, allowed); t.from <= |t.log| && SentOk(t, allowed)
  {
    hide SentOk, Lists, Send;
    match a
    case EndPublish => EndKept(s, allowed);
    case SendSnapshot => ReplayKept(s, allowed);
    case Forward => ForwardKept(s, allowed);
    case _ => OtherKept(s, a, allowed);
  }

  lemma OtherKept(s: State, a: Action, allowed: Option<set<ColId>>)
    requires s.from <= |s.log| && SentOk(s, allowed)
    requires a.BeginPublish? || a.Expire? || a.Subscribe? || a.ReadHash?
    ensures var t := Apply(s, a, allowed); t.from <= |t.log| && SentOk(t, allowed)
  {
    hide SentOk, Lists;
    if a.ReadHash? {
      ReadSent(s, a.order, allowed);
    } else if a.Subscribe? {
      SubscribeSent(s, allowed);
    } else {
      HashOnly(s, a, allowed);
      SentSame(s, Apply(s, a, allowed), allowed);
    }
  }

  lemma ReadSent(s: State, order: seq<Event>, allowed: Option<set<ColId>>)
    requires s.from <= |s.log| && SentOk(s, allowed)
    ensures var t := Apply(s, ReadHash(order), allowed); t.from <= |t.log| && SentOk(t, allowed)
  {
    hide Shown, Lists;
    ShownNone(allowed);
    assert order[|order| - |order|..] == order && order[..|order| - |order|] == [];
  }

  lemma SubscribeSent(s: State, allowed: Option<set<ColId>>)
    requires s.from <= |s.log| && SentOk(s, allowed)
    ensures var t := Apply(s, Subscribe, allowed); t.from <= |t.log| && SentOk(t, allowed)
  {
    hide Shown;
    assert s.log[|s.log|..] == [];
  }

  /** Only the hash, the event under way and the note of an expiry may differ. */
  ghost predicate SameStream(s: State, t: State) {
    t == s.(hash := t.hash, inflight := t.inflight, expired := t.expired)
  }

  lemma HashOnly(s: State, a: Action, allowed: Option<set<ColId>>)
    requires a.BeginPublish? || a.Expire?
    ensures SameStream(s, Apply(s, a, allowed))
  {
  }

  lemma SentSame(s: State, t: State, allowed: Option<set<ColId>>)
    requires s.from <= |s.log| && SentOk(s, allowed) && SameStream(s, t)
    ensures SentOk(t, allowed)
  {
    hide Shown;
  }

  lemma ShownNone(allowed: Option<set<ColId>>)
    ensures Shown([], allowed) == []
  {
  }

  lemma EndKept(s: State, allowed: Option<set<ColId>>)
    requires s.from <= |s.log| && SentOk(s, allowed)
    ensures SentOk(Apply(s, EndPublish, allowed), allowed)
  {
    hide Shown;
    if s.inflight.Some? {
      var t := Apply(s, EndPublish, allowed);
      assert t.log[t.from..] == s.log[s.from..] + [s.inflight.value];
      if s.phase.Streaming? {
        assert t.log[t.from..|t.log| - |t.queued|] == s.log[s.from..|s.log| - |s.queued|];
      }
    }
  }

  lemma ReplayKept(s: State, allowed: Option<set<ColId>>)
    requires s.from <= |s.log| && SentOk(s, allowed)
    ensures SentOk(Apply(s, SendSnapshot, allowed), allowed)
  {
    hide Shown, Send;
    ShownNone(allowed);
    if s.phase.Replaying? {
      var n := |s.snap| - |s.phase.rest|;
      if s.phase.rest == [] {
        assert s.snap[..n] == s.snap;
        assert |s.queued| == |s.log| - s.from && s.log[s.from..|s.log| - |s.queued|] == [];
      } else {
        assert s.snap[..n + 1] == s.snap[..n] + [s.phase.rest[0]];
        ShownSnoc(s.snap[..n], s.phase.rest[0], allowed);
      }
    }
  }

  lemma ForwardKept(s: State, allowed: Option<set<ColId>>)
    requires s.from <= |s.log| && SentOk(s, allowed)
    ensures SentOk(Apply(s, Forward, allowed), allowed)
  {
    hide Shown;
    if s.phase.Streaming? && s.queued != [] {
      var m := |s.log| - |s.queued|;
      assert s.log[m] == s.log[m..][0];
      assert s.log[s.from..m + 1] == s.log[s.from..m] + [s.queued[0]];
      ShownSnoc(s.log[s.from..m], s.queued[0], allowed);
    }
  }

  lemma {:induction false} RunKeeps(actions: seq<Action>, allowed: Option<set<ColId>>)
    ensures Inv(Run(actions, allowed), allowed)
  {
    hide Apply, HashOk, SnapOk, SentOk;
    if actions == [] {
      StartOk(allowed);
    } else {
      var s, a := Run(actions[..|actions| - 1], allowed), actions[|actions| - 1];
      RunKeeps(actions[..|actions| - 1], allowed);
      HashKept(s, a, allowed);
      SnapKept(s, a, allowed);
      SentKept(s, a, allowed);
    }
  }

  lemma StartOk(allowed: Option<set<ColId>>)
    ensures Inv(Start(), allowed)
  {
  }

  // ---- the guarantees ------------------------------------------------------------------

  predicate AtRest(s: State) {
    s.phase.Streaming? && s.queued == [] && s.inflight.None?
  }

  /** The `n`th action of the run is the client's reading of the hash. */
  predicate ReadsAt(actions: seq<Action>, n: nat, allowed: Option<set<ColId>>) {
    && n < |actions| && actions[n].ReadHash?
    && Run(actions[..n], allowed).phase.Subscribed? && Lists(actions[n].order, Run(actions[..n], allowed).hash)
  }

  /** A client that streams has read the hash. */
  lemma {:induction false} ReadExists(actions: seq<Action>, allowed: Option<set<ColId>>) returns (n: nat)
    requires Run(actions, allowed).phase.Replaying? || Run(actions, allowed).phase.Streaming?
    ensures ReadsAt(actions, n, allowed)
  {
    var m := |actions| - 1;
    var s := Run(actions[..m], allowed);
    if s.phase.Replaying? || s.phase.Streaming? {
      n := ReadExists(actions[..m], allowed);
      assert actions[..m][..n] == actions[..n];
    } else {
      n := m;
    }
  }

  /** What stays as it was once the hash has been read, and the log only grows. */
  predicate Since(s: State, order: seq<Event>, t: State) {
    && (t.phase.Replaying? || t.phase.Streaming?)
    && t.snap == order && t.from == s.from && s.log <= t.log
  }

  lemma {:induction false} SinceRead(actions: seq<Action>, n: nat, allowed: Option<set<ColId>>)
    requires ReadsAt(actions, n, allowed)
    ensures Since(Run(actions[..n], allowed), actions[n].order, Run(actions, allowed))
    decreases |actions|
  {
    var m := |actions| - 1;
    if n < m {
      var init := actions[..m];
      assert init[..n] == actions[..n] && init[n] == actions[n];
      SinceRead(init, n, allowed);
      SinceKept(Run(actions[..n], allowed), actions[n].order, Run(init, allowed), actions[m], allowed);
    }
  }

  lemma SinceKept(s: State, order: seq<Event>, t: State, a: Action, allowed: Option<set<ColId>>)
    requires Since(s, order, t)
    ensures Since(s, order, Apply(t, a, allowed))
  {
    hide Lists, Send;
  }

  /** Nothing has been published for the key since the client subscribed, and the hash, when it was
      read, did not hold it. */
  predicate Missed(s: State, t: State, key: nat)
    requires t.from <= |t.log|
  {
    key !in s.hash && LastOf(t.log[t.from..], key).None?
  }

  /** Whatever the interleaving, once everything published has been forwarded, the last frame sent
      for a key is the last payload published for it, if the client may see that payload, unless the
      key was missed, and then no frame was sent for it at all. */
  lemma LastFrameIsLastPublished(actions: seq<Action>, n: nat, allowed: Option<set<ColId>>, key: nat)
    requires AtRest(Run(actions, allowed)) && ReadsAt(actions, n, allowed)
    ensures var s, t := Run(actions[..n], allowed), Run(actions, allowed);
      && t.from <= |t.log|
      && (LastOf(t.log, key).Some? && Visible(LastOf(t.log, key).value, allowed) ==>
            LastOf(t.sent, key) == if Missed(s, t, key) then None else LastOf(t.log, key))
  {
    hide Run, LastOf, Shown, HashOk, SnapOk;
    var s, t := Run(actions[..n], allowed), Run(actions, allowed);
    RunKeeps(actions, allowed);
    RunKeeps(actions[..n], allowed);
    SinceRead(actions, n, allowed);
    var later := t.log[t.from..];
    assert t.log == t.log[..t.from] + later;
    LastOfAppend(t.log[..t.from], later, key);
    assert t.log[t.from..|t.log| - 0] == later;
    LastOfAppend(Shown(t.snap, allowed), Shown(later, allowed), key);
    LastShown(later, key, allowed);
    if LastOf(later, key).None? {
      LastOfIn(t.snap, key);
      LastShown(t.snap, key, allowed);
      SnapHas(s, actions[n].order, t, key);
    }
  }

  /** A key nobody published since the subscription is in the snapshot exactly when the hash held it,
      and then with its last payload. */
  lemma SnapHas(s: State, order: seq<Event>, t: State, key: nat)
    requires t.from <= |t.log| && SnapOk(t) && HashOk(s) && Lists(order, s.hash) && Since(s, order, t)
    requires t.phase.Streaming? && t.inflight.None? && LastOf(t.log[t.from..], key).None?
    ensures LastOf(t.snap, key).Some? <==> key in s.hash
    ensures LastOf(t.snap, key).Some? ==> LastOf(t.snap, key) == LastOf(t.log, key)
  {
    hide LastOf;
    assert Quiet(t, key);
    LastOfIn(order, key);
    LastOfIn(s.log, key);
    if key in s.hash {
      assert Some(s.hash[key]) == Newest(s, key);
      assert s.hash[key] in order;
    }
  }

  /** The `i`th action starts a publication for this key. */
  predicate PublishesAt(actions: seq<Action>, i: nat, key: nat, allowed: Option<set<ColId>>) {
    i < |actions| && actions[i].BeginPublish? && actions[i].e.key == key && Run(actions[..i], allowed).inflight.None?
  }

  predicate ExpiresAfter(actions: seq<Action>, i: nat) {
    exists j :: i < j < |actions| && actions[j].Expire?
  }

  /** The hash holds a key exactly when it was published and the hash has not expired since: a key
      is missed when an expiry fell between its last publication and the client's reading. */
  lemma {:induction false} HashHolds(actions: seq<Action>, key: nat, allowed: Option<set<ColId>>)
    ensures key in Run(actions, allowed).hash <==>
      exists i :: PublishesAt(actions, i, key, allowed) && !ExpiresAfter(actions, i)
  {
    if actions == [] {
    } else {
      var m := |actions| - 1;
      var init, a := actions[..m], actions[m];
      HashHolds(init, key, allowed);
      assert forall i: nat :: i <= m ==> init[..i] == actions[..i];
      assert forall i: nat :: i < m ==> (PublishesAt(init, i, key, allowed) <==> PublishesAt(actions, i, key, allowed));
      assert forall i: nat :: i < m ==> (ExpiresAfter(actions, i) <==> ExpiresAfter(init, i) || a.Expire?) by {
        forall i: nat | i < m ensures ExpiresAfter(actions, i) <==> ExpiresAfter(init, i) || a.Expire? { ExpiryStep(actions, i); }
      }
      assert !ExpiresAfter(actions, m);
      HashStep(Run(init, allowed), a, key, allowed);
      if PublishesAt(actions, m, key, allowed) { assert key in Run(actions, allowed).hash; }
    }
  }

  lemma ExpiryStep(actions: seq<Action>, i: nat)
    requires i < |actions| - 1
    ensures ExpiresAfter(actions, i) <==> ExpiresAfter(actions[..|actions| - 1], i) || actions[|actions| - 1].Expire?
  {
    var init := actions[..|actions| - 1];
    if j :| i < j < |init| && init[j].Expire? { assert actions[j].Expire?; }
    if j :| i < j < |actions| && actions[j].Expire? { assert j < |init| ==> init[j].Expire?; }
  }

  lemma HashStep(s: State, a: Action, key: nat, allowed: Option<set<ColId>>)
    ensures key in Apply(s, a, allowed).hash <==>
      !a.Expire? && (key in s.hash || (a.BeginPublish? && a.e.key == key && s.inflight.None?))
  {
    hide Lists, Send;
  }

  /** It happens: a payload published before the hash expired and the client came is never shown. */
  lemma FrameCanBeMissed(e: Event, allowed: Option<set<ColId>>) returns (actions: seq<Action>)
    ensures var t := Run(actions, allowed);
      AtRest(t) && LastOf(t.log, e.key) == Some(e.(serial := 0)) && t.sent == []
  {
    hide Run;
    var b1 := [BeginPublish(e)];
    var b2 := b1 + [EndPublish];
    var b3 := b2 + [Expire];
    var b4 := b3 + [Subscribe];
    var b5 := b4 + [ReadHash([])];
    actions := b5 + [SendSnapshot];
    assert [] + [BeginPublish(e)] == b1;
    RunNone(allowed);
    RunSnoc([], BeginPublish(e), allowed);
    RunSnoc(b1, EndPublish, allowed);
    RunSnoc(b2, Expire, allowed);
    RunSnoc(b3, Subscribe, allowed);
    RunSnoc(b4, ReadHash([]), allowed);
    RunSnoc(b5, SendSnapshot, allowed);
    var s2 := Run(b2, allowed);
    assert s2.log == [e.(serial := 0)] && s2.phase.Away? && s2.inflight.None? && s2.queued == s2.sent == [];
    LastOfSnoc([], e.(serial := 0), e.key);
    assert [] + [e.(serial := 0)] == s2.log;
  }

  // ---- when frames keep the publication order ------------------------------------------

  /** Serials are places in the log, and the event under way comes next. */
  predicate Numbered(s: State) {
    && (forall i :: 0 <= i < |s.log| ==> s.log[i].serial == i)
    && (s.inflight.Some? ==> s.inflight.value.serial == |s.log|)
  }

  lemma {:induction false} RunNumbers(actions: seq<Action>, allowed: Option<set<ColId>>)
    ensures Numbered(Run(actions, allowed))
  {
    if actions != [] {
      hide Lists, Send;
      RunNumbers(actions[..|actions| - 1], allowed);
    }
  }

  /** Some frame of the key is older than a frame of the key sent before it. */
  predicate GoesBack(sent: seq<Event>, key: nat) {
    exists i, j :: 0 <= i < j < |sent| && sent[i].key == key && sent[j].key == key && sent[j].serial < sent[i].serial
  }

  /** When the hash was read it held a visible event of the key, and an older visible event of the
      key was waiting for the client. (The event under way is never older than the hash's.) */
  predicate ReadAhead(s: State, key: nat, allowed: Option<set<ColId>>) {
    && key in s.hash && Visible(s.hash[key], allowed)
    && exists e :: e in s.queued && e.key == key && Visible(e, allowed) && e.serial < s.hash[key].serial
  }

  lemma {:induction false} ShownHas(es: seq<Event>, allowed: Option<set<ColId>>)
    ensures forall e :: e in Shown(es, allowed) <==> e in es && Visible(e, allowed)
  {
    if es != [] {
      ShownHas(es[..|es| - 1], allowed);
      assert es == es[..|es| - 1] + [es[|es| - 1]];
    }
  }

  /** What is shown of a list without repeated keys has none, and of a rising list rises. */
  lemma {:induction false} ShownKeepsOrder(es: seq<Event>, allowed: Option<set<ColId>>)
    ensures DistinctKeys(es) ==> DistinctKeys(Shown(es, allowed))
    ensures RisingSerials(es) ==> RisingSerials(Shown(es, allowed))
  {
    if es != [] {
      var init, last := es[..|es| - 1], es[|es| - 1];
      hide Shown;
      ShownKeepsOrder(init, allowed);
      ShownHas(init, allowed);
      ShownStep(es, allowed);
      var shown := Shown(init, allowed);
      assert forall i :: 0 <= i < |shown| ==> shown[i] in shown;
      if DistinctKeys(es) { assert forall e :: e in init ==> e.key != last.key; }
      if RisingSerials(es) { assert forall e :: e in init ==> e.serial < last.serial; }
    } else {
      ShownNone(allowed);
    }
  }

  lemma ShownStep(es: seq<Event>, allowed: Option<set<ColId>>)
    requires es != []
    ensures Shown(es, allowed) == Send(Shown(es[..|es| - 1], allowed), es[|es| - 1], allowed)
  {
  }

  predicate DistinctKeys(es: seq<Event>) {
    forall i, j :: 0 <= i < j < |es| ==> es[i].key != es[j].key
  }

  predicate RisingSerials(es: seq<Event>) {
    forall i, j :: 0 <= i < j < |es| ==> es[i].serial < es[j].serial
  }

  /** Some event of the key in `b` is older than one in `a`. */
  predicate Crosses(a: seq<Event>, b: seq<Event>, key: nat) {
    exists h, e :: h in a && e in b && h.key == key && e.key == key && e.serial < h.serial
  }

  /** In frames made of a part without repeated keys and a rising part, going back is having an older
      event of the key in the second part than in the first. */
  lemma BackAcross(a: seq<Event>, b: seq<Event>, key: nat)
    requires DistinctKeys(a) && RisingSerials(b)
    ensures GoesBack(a + b, key) <==> Crosses(a, b, key)
  {
    var sent := a + b;
    if i, j :| 0 <= i < j < |sent| && sent[i].key == key && sent[j].key == key && sent[j].serial < sent[i].serial {
      assert i < |a| <= j;
      assert sent[i] in a && sent[j] in b;
    }
    if h, e :| h in a && e in b && h.key == key && e.key == key && e.serial < h.serial {
      var i :| 0 <= i < |a| && a[i] == h;
      var j :| 0 <= j < |b| && b[j] == e;
      assert sent[i] == h && sent[|a| + j] == e;
    }
  }

  /** Once the run is at rest, the frames of a key went back in publication order if and only if the
      client read the hash ahead of its stream: they are in order in every other case. */
  lemma FramesGoBackExactly(actions: seq<Action>, n: nat, allowed: Option<set<ColId>>, key: nat)
    requires AtRest(Run(actions, allowed)) && ReadsAt(actions, n, allowed)
    ensures GoesBack(Run(actions, allowed).sent, key) <==> ReadAhead(Run(actions[..n], allowed), key, allowed)
  {
    hide Run, Shown, LastOf, Visible, GoesBack, Crosses, ReadAhead, SnapOk, HashOk, Numbered, Lists, DistinctKeys, RisingSerials;
    var s, t := Run(actions[..n], allowed), Run(actions, allowed);
    RunKeeps(actions, allowed);
    RunKeeps(actions[..n], allowed);
    RunNumbers(actions[..n], allowed);
    RunNumbers(actions, allowed);
    SinceRead(actions, n, allowed);
    var order, later := actions[n].order, t.log[t.from..];
    assert t.log[t.from..|t.log| - 0] == later;
    PartsInOrder(s, order, t);
    ShownKeepsOrder(order, allowed);
    ShownKeepsOrder(later, allowed);
    BackAcross(Shown(order, allowed), Shown(later, allowed), key);
    if ReadAhead(s, key, allowed) { AheadCrosses(s, order, t, key, allowed); }
    if Crosses(Shown(order, allowed), Shown(later, allowed), key) { CrossingIsAhead(s, order, t, key, allowed); }
  }

  lemma PartsInOrder(s: State, order: seq<Event>, t: State)
    requires t.from <= |t.log| && Numbered(t) && Lists(order, s.hash)
    ensures DistinctKeys(order) && RisingSerials(t.log[t.from..])
  {
  }

  /** The hash's event and the older one that waited are both shown, in that order. */
  lemma AheadCrosses(s: State, order: seq<Event>, t: State, key: nat, allowed: Option<set<ColId>>)
    requires s.from <= |s.log| && HashOk(s) && Numbered(s) && s.queued == s.log[s.from..]
    requires Lists(order, s.hash) && Since(s, order, t) && ReadAhead(s, key, allowed)
    ensures Crosses(Shown(order, allowed), Shown(t.log[t.from..], allowed), key)
  {
    hide Visible, HashOk, Shown, Lists;
    var e :| e in s.queued && e.key == key && Visible(e, allowed) && e.serial < s.hash[key].serial;
    var q :| 0 <= q < |s.queued| && s.queued[q] == e;
    assert t.log[t.from..][q] == e;
    ShownHas(order, allowed);
    ShownHas(t.log[t.from..], allowed);
    NewestSerial(s, key);
    HashIsListed(order, s.hash, key);
  }

  lemma HashIsListed(order: seq<Event>, hash: map<nat, Event>, key: nat)
    requires Lists(order, hash) && key in hash
    ensures hash[key] in order
  {
  }

  lemma ListedIsHash(order: seq<Event>, hash: map<nat, Event>, h: Event)
    requires Lists(order, hash) && h in order
    ensures h.key in hash && hash[h.key] == h
  {
  }

  /** An event older than what the hash held was already waiting when the hash was read. */
  lemma CrossingIsAhead(s: State, order: seq<Event>, t: State, key: nat, allowed: Option<set<ColId>>)
    requires s.from <= |s.log| && HashOk(s) && Numbered(s) && Numbered(t) && s.queued == s.log[s.from..]
    requires Lists(order, s.hash) && Since(s, order, t) && t.from <= |t.log|
    requires Crosses(Shown(order, allowed), Shown(t.log[t.from..], allowed), key)
    ensures ReadAhead(s, key, allowed)
  {
    hide Visible, HashOk, Shown, Lists;
    var later := t.log[t.from..];
    ShownHas(order, allowed);
    ShownHas(later, allowed);
    var h, e :| h in Shown(order, allowed) && e in Shown(later, allowed) && h.key == key && e.key == key && e.serial < h.serial;
    ListedIsHash(order, s.hash, h);
    NewestSerial(s, key);
    var q :| 0 <= q < |later| && later[q] == e;
    assert e == t.log[t.from + q] && e.serial == t.from + q;
    assert e == s.log[s.from + q] == s.queued[q];
  }

  lemma NewestSerial(s: State, key: nat)
    requires HashOk(s) && Numbered(s) && key in s.hash
    ensures s.hash[key].serial <= |s.log| && s.hash[key].key == key
  {
    LastOfIn(s.log, key);
    assert Some(s.hash[key]) == Newest(s, key);
  }

  lemma {:induction false} ShownIsVisible(es: seq<Event>, allowed: Option<set<ColId>>)
    ensures forall e :: e in Shown(es, allowed) ==> Visible(e, allowed)
  {
    if es != [] { ShownIsVisible(es[..|es| - 1], allowed); }
  }

  /** On the ingestion-queue topic, filtered by the caller's readable collections, every frame sent
      names a collection whose read gate lets the caller through, or the caller is unrestricted. */
  lemma OnlyReadableFrames(actions: seq<Action>, db: P.Links, p: P.Principal, e: Event)
    requires e in Run(actions, P.ReadableCollectionScope(db, p)).sent
    ensures (forall c :: P.AuthorizeCollection(db, p, c, P.Read))
         || (e.collection.Some? && P.AuthorizeCollection(db, p, e.collection.value, P.Read))
  {
    hide Run, Shown, HashOk, SnapOk, P.ReadableCollectionScope, P.AuthorizeCollection;
    var allowed := P.ReadableCollectionScope(db, p);
    var s := Run(actions, allowed);
    RunKeeps(actions, allowed);
    ShownIsVisible(s.snap, allowed);
    if s.phase.Replaying? { ShownIsVisible(s.snap[..|s.snap| - |s.phase.rest|], allowed); }
    if s.phase.Streaming? { ShownIsVisible(s.log[s.from..|s.log| - |s.queued|], allowed); }
    assert Visible(e, allowed);
    VisibleMeans(db, p, e);
  }

  /** The filter shows a payload exactly when the caller may read every collection there could be,
      or it names a collection that exists and that the caller may read. */
  lemma VisibleMeans(db: P.Links, p: P.Principal, e: Event)
    ensures Visible(e, P.ReadableCollectionScope(db, p)) <==>
      || (forall c, need :: P.AuthorizeCollection(db, p, c, need))
      || (e.collection.Some? && e.collection.value in db.cols && P.AuthorizeCollection(db, p, e.collection.value, P.Read))
  {
    hide P.ReadableCollectionScope, P.AuthorizeCollection;
    P.ScopeListsTheReadable(db, p);
  }

  /** So it does happen: for every client and any two payloads of a key that it may see, some run
      shows it the second, then the first, then the second again. */
  lemma FramesCanGoBack(first: Event, second: Event, allowed: Option<set<ColId>>) returns (actions: seq<Action>)
    requires first.key == second.key && Visible(first, allowed) && Visible(second, allowed)
    ensures AtRest(Run(actions, allowed)) && GoesBack(Run(actions, allowed).sent, first.key)
  {
    hide Run, Apply, Visible, GoesBack;
    var f := second.(serial := 1);
    var before := [Subscribe, BeginPublish(first), EndPublish, BeginPublish(second)];
    RunSnoc([], Subscribe, allowed);
    RunSnoc([Subscribe], BeginPublish(first), allowed);
    RunSnoc([Subscribe] + [BeginPublish(first)], EndPublish, allowed);
    RunSnoc([Subscribe] + [BeginPublish(first)] + [EndPublish], BeginPublish(second), allowed);
    assert before == [Subscribe] + [BeginPublish(first)] + [EndPublish] + [BeginPublish(second)];
    assert [] + [Subscribe] == [Subscribe];
    RunNone(allowed);
    HashAhead(first, second, allowed);
    VisibleIsNumberless(first, 0, allowed);
    VisibleIsNumberless(second, 1, allowed);
    actions := ToRest(before, first.(serial := 0), f, allowed);
    assert actions[..4] == before;
    AheadIsAhead(first.(serial := 0), f, allowed);
    FramesGoBackExactly(actions, 4, allowed, first.key);
  }

  lemma VisibleIsNumberless(e: Event, serial: nat, allowed: Option<set<ColId>>)
    ensures Visible(e.(serial := serial), allowed) == Visible(e, allowed)
  {
  }

  lemma RunNone(allowed: Option<set<ColId>>)
    ensures Run([], allowed) == Start()
  {
  }

  /** Subscribed, one event waiting, the next one in the hash and under way. */
  function Ahead(e: Event, f: Event): State {
    State(map[f.key := f], Some(f), [e], Subscribed, [e], [], 0, [], false)
  }

  lemma AheadIsAhead(e: Event, f: Event, allowed: Option<set<ColId>>)
    requires e.key == f.key && e.serial < f.serial && Visible(e, allowed) && Visible(f, allowed)
    ensures ReadAhead(Ahead(e, f), e.key, allowed)
  {
    assert e in Ahead(e, f).queued;
  }

  lemma HashAhead(e: Event, f: Event, allowed: Option<set<ColId>>)
    requires e.key == f.key
    ensures Apply(Apply(Apply(Apply(Start(), Subscribe, allowed), BeginPublish(e), allowed), EndPublish, allowed), BeginPublish(f), allowed)
      == Ahead(e.(serial := 0), f.(serial := 1))
  {
    assert map[e.key := e.(serial := 0)][f.key := f.(serial := 1)] == map[f.key := f.(serial := 1)];
  }

  /** From there, the client replays the hash, the publication ends and the stream is forwarded. */
  lemma ToRest(before: seq<Action>, e: Event, f: Event, allowed: Option<set<ColId>>) returns (actions: seq<Action>)
    requires |before| == 4 && Run(before, allowed) == Ahead(e, f)
    ensures |actions| > 4 && actions[..4] == before && ReadsAt(actions, 4, allowed) && AtRest(Run(actions, allowed))
  {
    hide Run, Apply;
    var b1 := before + [ReadHash([f])];
    var b2 := b1 + [SendSnapshot];
    var b3 := b2 + [SendSnapshot];
    var b4 := b3 + [EndPublish];
    var b5 := b4 + [Forward];
    actions := b5 + [Forward];
    RunSnoc(before, ReadHash([f]), allowed);
    RunSnoc(b1, SendSnapshot, allowed);
    RunSnoc(b2, SendSnapshot, allowed);
    RunSnoc(b3, EndPublish, allowed);
    RunSnoc(b4, Forward, allowed);
    RunSnoc(b5, Forward, allowed);
    assert actions[..4] == before && actions[4] == ReadHash([f]);
    Replays(e, f, allowed);
    Catches(Run(b3, allowed), e, f, allowed);
  }

  lemma Replays(e: Event, f: Event, allowed: Option<set<ColId>>)
    ensures Lists([f], Ahead(e, f).hash)
    ensures var s := Apply(Apply(Apply(Ahead(e, f), ReadHash([f]), allowed), SendSnapshot, allowed), SendSnapshot, allowed);
      s.phase.Streaming? && s.queued == [e] && s.inflight == Some(f)
  {
    hide Visible;
    assert Apply(Ahead(e, f), ReadHash([f]), allowed) == Ahead(e, f).(phase := Replaying([f]), snap := [f]);
  }

  lemma Catches(s: State, e: Event, f: Event, allowed: Option<set<ColId>>)
    requires s.phase.Streaming? && s.queued == [e] && s.inflight == Some(f)
    ensures AtRest(Apply(Apply(Apply(s, EndPublish, allowed), Forward, allowed), Forward, allowed))
  {
    hide Visible;
    assert [e] + [f] == [e, f] && [e, f][1..] == [f] && [f][1..] == [];
  }

  lemma RunSnoc(actions: seq<Action>, a: Action, allowed: Option<set<ColId>>)
    ensures Run(actions + [a], allowed) == Apply(Run(actions, allowed), a, allowed)
  {
    assert (actions + [a])[..|actions|] == actions;
  }
}
