/** Token-bucket rate limiting of the MCP server, and the middleware that uses it: a guard on the
    raw key before authentication, the caller's own bucket after it. Time is real-valued. */
module TokenBucket {
  import opened Ids

  type Key = string

  datatype Bucket = Bucket(tokens: real, last: real)

  datatype Limits = Limits(buckets: map<Key, Bucket>, overrides: map<Key, int>)

  // ---- one bucket ----------------------------------------------------------------------

  function EffectiveRpm(l: Limits, key: Key, global: int): int {
    if key in l.overrides then l.overrides[key] else global
  }

  /** What `rpm` requests per minute earn in `seconds`. */
  function Earned(seconds: real, rpm: int): real {
    seconds * (rpm as real / 60.0)
  }

  function Min(a: real, b: real): real {
    if b < a then b else a
  }

  /** Tokens a key holds once its bucket has been refilled to `now`. */
  function Refilled(l: Limits, key: Key, global: int, now: real): real {
    var rpm := EffectiveRpm(l, key, global);
    var b := if key in l.buckets then l.buckets[key] else Bucket(rpm as real, now);
    Min(rpm as real, b.tokens + Earned(now - b.last, rpm))
  }

  predicate Allows(l: Limits, key: Key, global: int, now: real) {
    Refilled(l, key, global, now) >= 1.0
  }

  function AfterAllow(l: Limits, key: Key, global: int, now: real): Limits {
    var tokens := Refilled(l, key, global, now);
    l.(buckets := l.buckets[key := Bucket(if tokens >= 1.0 then tokens - 1.0 else tokens, now)])
  }

  function AfterSetLimit(l: Limits, key: Key, rpm: Option<int>): Limits {
    if rpm.Some? && rpm.value > 0 then l.(overrides := l.overrides[key := rpm.value])
    else l.(overrides := l.overrides - {key})
  }

  /** Unrounded `reset_seconds`. */
  function Reset(l: Limits, key: Key, global: int, now: real): real {
    var rpm, tokens := EffectiveRpm(l, key, global), Refilled(l, key, global, now);
    if tokens >= 1.0 || rpm <= 0 then 0.0 else (1.0 - tokens) * 60.0 / (rpm as real)
  }

  /** Python's `round(x, 3)`: to the nearest thousandth, ties to the even one. */
  function Round3(x: real): (r: real)
    ensures -0.0005 <= r - x <= 0.0005
  {
    var n := (x * 1000.0).Floor;
    var over := x * 1000.0 - n as real;
    (if over < 0.5 || (over == 0.5 && n % 2 == 0) then n else n + 1) as real / 1000.0
  }

  /** `int(tokens)`: Python truncates toward zero. */
  function Remaining(l: Limits, key: Key, global: int, now: real): int {
    var tokens := Refilled(l, key, global, now);
    if tokens >= 0.0 then tokens.Floor else -((-tokens).Floor)
  }

  // ---- snapshot is exact ---------------------------------------------------------------

  /** The limits after `n` calls at the same instant. */
  function AfterCalls(l: Limits, key: Key, global: int, now: real, n: nat): Limits {
    if n == 0 then l else AfterAllow(AfterCalls(l, key, global, now, n - 1), key, global, now)
  }

  lemma EarnedLaws(a: real, b: real, rpm: int)
    ensures Earned(0.0, rpm) == 0.0
    ensures Earned(a + b, rpm) == Earned(a, rpm) + Earned(b, rpm)
  {
  }

  lemma OneCall(l: Limits, key: Key, global: int, now: real)
    requires Allows(l, key, global, now)
    ensures var l' := AfterAllow(l, key, global, now);
      l'.overrides == l.overrides && Refilled(l', key, global, now) == Refilled(l, key, global, now) - 1.0
  {
    EarnedLaws(0.0, 0.0, EffectiveRpm(l, key, global));
  }

  lemma {:induction false} CallsUseTokens(l: Limits, key: Key, global: int, now: real, n: nat)
    requires n as real <= Refilled(l, key, global, now) || n == 0
    ensures var l' := AfterCalls(l, key, global, now, n);
      l'.overrides == l.overrides && Refilled(l', key, global, now) == Refilled(l, key, global, now) - n as real
  {
    hide Refilled;
    if n > 0 {
      CallsUseTokens(l, key, global, now, n - 1);
      OneCall(AfterCalls(l, key, global, now, n - 1), key, global, now);
    }
  }

  /** The budget shown is exact: that many immediate calls pass, each of them, and the next one is
      refused. */
  lemma SnapshotRemainingIsExact(l: Limits, key: Key, global: int, now: real, n: nat)
    requires Refilled(l, key, global, now) >= 0.0 && n <= Remaining(l, key, global, now)
    ensures Allows(AfterCalls(l, key, global, now, n), key, global, now) <==> n < Remaining(l, key, global, now)
  {
    CallsUseTokens(l, key, global, now, n);
  }

  lemma WaitEarns(wait: real, missing: real, rpm: int)
    requires rpm > 0
    ensures wait >= missing * 60.0 / rpm as real <==> Earned(wait, rpm) >= missing
  {
    var r, q := rpm as real, missing * 60.0 / rpm as real;
    assert q * r == missing * 60.0;
    assert Earned(wait, rpm) * 60.0 == wait * r;
    if wait >= q { assert (wait - q) * r >= 0.0; } else { assert (q - wait) * r > 0.0; }
  }

  /** The unrounded reset time is the least wait after which a call passes. */
  lemma ResetIsTheLeastWait(l: Limits, key: Key, global: int, now: real, wait: real)
    requires EffectiveRpm(l, key, global) >= 1 && wait >= 0.0
    ensures Allows(l, key, global, now + wait) <==> wait >= Reset(l, key, global, now)
  {
    var rpm := EffectiveRpm(l, key, global);
    EarnedLaws(0.0, 0.0, rpm);
    WaitEarns(wait, 0.0, rpm);
    if key in l.buckets {
      var b := l.buckets[key];
      EarnedLaws(now - b.last, wait, rpm);
      assert now + wait - b.last == (now - b.last) + wait;
      WaitEarns(wait, 1.0 - (b.tokens + Earned(now - b.last, rpm)), rpm);
    }
  }

  /** The reset time shown is right to half a millisecond: half a millisecond later a call passes, and
      none passes half a millisecond or more before. */
  lemma ShownResetIsClose(l: Limits, key: Key, global: int, now: real, wait: real)
    requires EffectiveRpm(l, key, global) >= 1 && wait >= 0.0
    ensures wait >= Round3(Reset(l, key, global, now)) + 0.0005 ==> Allows(l, key, global, now + wait)
    ensures wait < Round3(Reset(l, key, global, now)) - 0.0005 ==> !Allows(l, key, global, now + wait)
  {
    hide Allows, Reset, Round3;
    ResetIsTheLeastWait(l, key, global, now, wait);
    var shown := Round3(Reset(l, key, global, now));
  }

  // ---- any interleaving of requests ----------------------------------------------------

  /** What touches the limiter: the guard on a raw key, then, once a user is known, the block that
      learns the user's limit and asks the user's own bucket. Requests in progress interleave
      between the two. Each carries the clock and the live global limit. */
  datatype Op =
    | Guard(raw: Key, now: real, global: int)
    | PostAuth(raw: Key, user: Key, limit: Option<int>, now: real, global: int)

  function Learned(l: Limits, raw: Key, user: Key, limit: Option<int>): Limits {
    AfterSetLimit(AfterSetLimit(l, raw, limit), user, limit)
  }

  function AfterOp(l: Limits, op: Op): Limits {
    match op
    case Guard(raw, now, global) => AfterAllow(l, raw, global, now)
    case PostAuth(raw, user, limit, now, global) => AfterAllow(Learned(l, raw, user, limit), user, global, now)
  }

  /** The request is let through on the user's budget. */
  predicate Passes(l: Limits, op: Op, user: Key) {
    op.PostAuth? && op.user == user && Allows(Learned(l, op.raw, user, op.limit), user, op.global, op.now)
  }

  /** Every call that touches the user's bucket sees an effective limit of at most `r`. */
  predicate Within(l: Limits, op: Op, user: Key, r: nat) {
    match op
    case Guard(raw, _, global) => raw == user ==> EffectiveRpm(l, user, global) <= r
    case PostAuth(raw, u, limit, _, global) => u == user ==> EffectiveRpm(Learned(l, raw, user, limit), user, global) <= r
  }

  /** The clock never goes back, neither in the run nor in what the bucket remembers. */
  ghost predicate Timely(l: Limits, ops: seq<Op>, user: Key, since: real)
    decreases |ops|
  {
    && (user in l.buckets ==> l.buckets[user].last <= since)
    && (ops != [] ==> since <= ops[0].now && Timely(AfterOp(l, ops[0]), ops[1..], user, ops[0].now))
  }

  ghost predicate AllWithin(l: Limits, ops: seq<Op>, user: Key, r: nat)
    decreases |ops|
  {
    ops != [] ==> Within(l, ops[0], user, r) && AllWithin(AfterOp(l, ops[0]), ops[1..], user, r)
  }

  /** Requests of the user let through no later than `until`. */
  ghost function Passed(l: Limits, ops: seq<Op>, user: Key, until: real): nat
    decreases |ops|
  {
    if ops == [] || ops[0].now > until then 0
    else (if Passes(l, ops[0], user) then 1 else 0) + Passed(AfterOp(l, ops[0]), ops[1..], user, until)
  }

  /** The most the bucket can hold at `now` under limits of at most `r`. */
  ghost function Potential(l: Limits, user: Key, r: nat, now: real): real {
    if user in l.buckets then Min(r as real, l.buckets[user].tokens + Earned(now - l.buckets[user].last, r)) else r as real
  }

  lemma EarnedMonotone(a: real, b: real, rpm: int, r: nat)
    requires 0.0 <= a <= b && rpm <= r
    ensures Earned(a, rpm) <= Earned(a, r) <= Earned(b, r) && 0.0 <= Earned(a, r)
  {
    assert a * (rpm as real / 60.0) <= a * (r as real / 60.0);
    assert (b - a) * (r as real / 60.0) >= 0.0;
  }

  lemma PotentialLater(l: Limits, user: Key, r: nat, since: real, now: real)
    requires since <= now && (user in l.buckets ==> l.buckets[user].last <= since)
    ensures Potential(l, user, r, now) <= Potential(l, user, r, since) + Earned(now - since, r)
  {
    EarnedMonotone(now - since, now - since, r, r);
    if user in l.buckets {
      EarnedLaws(since - l.buckets[user].last, now - since, r);
      assert now - l.buckets[user].last == (since - l.buckets[user].last) + (now - since);
    }
  }

  /** A call on the user's bucket takes what it lets through out of the potential. */
  lemma CallPays(l: Limits, user: Key, r: nat, global: int, now: real)
    requires EffectiveRpm(l, user, global) <= r && (user in l.buckets ==> l.buckets[user].last <= now)
    ensures var l' := AfterAllow(l, user, global, now);
      && l'.buckets[user].last == now
      && Potential(l', user, r, now) <= Potential(l, user, r, now) - (if Allows(l, user, global, now) then 1.0 else 0.0)
      && (Allows(l, user, global, now) ==> Potential(l, user, r, now) >= 1.0)
  {
    EarnedLaws(0.0, 0.0, r);
    if user in l.buckets {
      var dt := now - l.buckets[user].last;
      EarnedMonotone(dt, dt, EffectiveRpm(l, user, global), r);
    } else {
      EarnedLaws(0.0, 0.0, EffectiveRpm(l, user, global));
    }
  }

  /** One operation: the potential falls by at least what it lets through for the user. */
  lemma OpPays(l: Limits, op: Op, user: Key, r: nat)
    requires Within(l, op, user, r) && (user in l.buckets ==> l.buckets[user].last <= op.now)
    ensures var l' := AfterOp(l, op);
      && Potential(l', user, r, op.now) <= Potential(l, user, r, op.now) - (if Passes(l, op, user) then 1.0 else 0.0)
      && (Passes(l, op, user) ==> Potential(l, user, r, op.now) >= 1.0)
  {
    match op
    case Guard(raw, now, global) =>
      if raw == user { CallPays(l, user, r, global, now); }
    case PostAuth(raw, u, limit, now, global) =>
      var known := Learned(l, raw, u, limit);
      assert known.buckets == l.buckets;
      if u == user { CallPays(known, user, r, global, now); }
  }

  lemma {:induction false} PassedWithinPotential(l: Limits, ops: seq<Op>, user: Key, r: nat, since: real, until: real)
    requires since <= until && Timely(l, ops, user, since) && AllWithin(l, ops, user, r)
    ensures var n := Passed(l, ops, user, until);
      n == 0 || n as real <= Potential(l, user, r, since) + Earned(until - since, r)
    decreases |ops|
  {
    if ops != [] && ops[0].now <= until {
      hide Potential, Within, Passes, AfterOp, Earned;
      var op, l' := ops[0], AfterOp(l, ops[0]);
      PassedWithinPotential(l', ops[1..], user, r, op.now, until);
      PotentialLater(l, user, r, since, op.now);
      OpPays(l, op, user, r);
      EarnedLaws(op.now - since, until - op.now, r);
      EarnedMonotone(until - op.now, until - op.now, r, r);
      assert until - since == (op.now - since) + (until - op.now);
    }
  }

  /** Whatever raw keys are used or rotated, however limits change, and however requests
      interleave: if the user's effective limit never exceeds `r`, any interval of `d` seconds lets
      through at most `r + d * r / 60` of the user's requests. */
  lemma UserBudgetBound(l: Limits, ops: seq<Op>, user: Key, r: nat, since: real, d: real)
    requires d >= 0.0 && Timely(l, ops, user, since) && AllWithin(l, ops, user, r)
    ensures Passed(l, ops, user, since + d) as real <= r as real + d * r as real / 60.0
  {
    PassedWithinPotential(l, ops, user, r, since, since + d);
    EarnedMonotone(d, d, r, r);
    assert Earned(d, r) == d * r as real / 60.0;
    assert since + d - since == d;
  }

  /** The request asks for the user with a limit in force of at most `r`: the user's own if it is
      positive, the global one otherwise; and no request's raw key is the user's budget key. */
  predicate Asks(op: Op, user: Key, r: nat) {
    && op.raw != user
    && (op.PostAuth? && op.user == user ==>
          if op.limit.Some? && op.limit.value > 0 then op.limit.value <= r else op.global <= r)
  }

  lemma {:induction false} AsksWithin(l: Limits, ops: seq<Op>, user: Key, r: nat)
    requires forall op :: op in ops ==> Asks(op, user, r)
    ensures AllWithin(l, ops, user, r)
    decreases |ops|
  {
    if ops != [] {
      hide AfterOp;
      assert ops[0] in ops && forall op :: op in ops[1..] ==> op in ops;
      LearnedLimit(l, ops[0], user);
      AsksWithin(AfterOp(l, ops[0]), ops[1..], user, r);
    }
  }

  lemma LearnedLimit(l: Limits, op: Op, user: Key)
    requires op.raw != user
    ensures op.PostAuth? && op.user == user ==>
      EffectiveRpm(Learned(l, op.raw, user, op.limit), user, op.global) ==
        if op.limit.Some? && op.limit.value > 0 then op.limit.value else op.global
  {
  }

  /** The bound from the requests alone: if every authenticated request of the user carries the limit
      `r`, whatever the global limits, whatever raw keys are used and whatever others do, any interval
      of `d` seconds lets through at most `r + d * r / 60` of them. */
  lemma OwnLimitBounds(l: Limits, ops: seq<Op>, user: Key, r: nat, since: real, d: real)
    requires d >= 0.0 && Timely(l, ops, user, since) && r > 0
    requires forall op :: op in ops ==> op.raw != user && (op.PostAuth? && op.user == user ==> op.limit == Some(r))
    ensures Passed(l, ops, user, since + d) as real <= r as real + d * r as real / 60.0
  {
    assert forall op :: op in ops ==> Asks(op, user, r);
    AsksWithin(l, ops, user, r);
    UserBudgetBound(l, ops, user, r, since, d);
  }

  /** The same for a limit that may change or be inherited, as long as it is at most `r`. */
  lemma LimitInForceBounds(l: Limits, ops: seq<Op>, user: Key, r: nat, since: real, d: real)
    requires d >= 0.0 && Timely(l, ops, user, since)
    requires forall op :: op in ops ==> Asks(op, user, r)
    ensures Passed(l, ops, user, since + d) as real <= r as real + d * r as real / 60.0
  {
    AsksWithin(l, ops, user, r);
    UserBudgetBound(l, ops, user, r, since, d);
  }

  /** A full minute without a call fills any bucket, and a new key has a full one: as many calls pass as
      the limit in force says, and no more. */
  lemma FullBucket(l: Limits, key: Key, global: int, now: real, n: nat)
    requires var rpm := if key in l.overrides then l.overrides[key] else global;
      rpm >= 0 && n <= rpm
    requires key in l.buckets ==> l.buckets[key].tokens >= 0.0 && now >= l.buckets[key].last + 60.0
    ensures var rpm := if key in l.overrides then l.overrides[key] else global;
      Allows(AfterCalls(l, key, global, now, n), key, global, now) <==> n < rpm
  {
    var rpm := EffectiveRpm(l, key, global);
    EarnedLaws(0.0, 0.0, rpm);
    if key in l.buckets { MinuteEarns(now - l.buckets[key].last, rpm); }
    assert Refilled(l, key, global, now) == rpm as real;
    CallsUseTokens(l, key, global, now, n);
  }

  lemma MinuteEarns(seconds: real, rpm: int)
    requires seconds >= 60.0 && rpm >= 0
    ensures Earned(seconds, rpm) >= rpm as real
  {
    assert (seconds - 60.0) * (rpm as real / 60.0) >= 0.0;
  }

  // ---- the limiter and the middleware --------------------------------------------------

  class Limiter {
    var buckets: map<Key, Bucket>
    var overrides: map<Key, int>

    function View(): Limits
      reads this
    {
      Limits(buckets, overrides)
    }

    constructor ()
      ensures View() == Limits(map[], map[])
    {
      buckets, overrides := map[], map[];
    }

    method SetKeyLimit(key: Key, rpm: Option<int>)
      modifies this
      ensures View() == AfterSetLimit(old(View()), key, rpm)
      ensures buckets == old(buckets)
      ensures overrides ==
        if rpm.Some? && rpm.value > 0 then old(overrides)[key := rpm.value] else old(overrides) - {key}
    {
      if rpm.Some? && rpm.value > 0 {
        overrides := overrides[key := rpm.value];
      } else {
        overrides := overrides - {key};
      }
    }

    method Allow(key: Key, global: int, now: real) returns (allowed: bool)
      modifies this
      ensures allowed == Allows(old(View()), key, global, now)
      ensures View() == AfterAllow(old(View()), key, global, now)
      ensures overrides == old(overrides)
      ensures var rpm := if key in overrides then overrides[key] else global;
        var refilled := if key in old(buckets)
                        then old(buckets)[key].tokens + (now - old(buckets)[key].last) * (rpm as real / 60.0) else rpm as real;
        var tokens := if refilled > rpm as real then rpm as real else refilled;
        && (allowed <==> tokens >= 1.0)
        && buckets == old(buckets)[key := Bucket(if allowed then tokens - 1.0 else tokens, now)]
    {
      EarnedIs(now, if key in buckets then buckets[key].last else now, EffectiveRpm(View(), key, global));
      hide Earned;
      var rpm := EffectiveRpm(View(), key, global);
      var capacity := rpm as real;
      var tokens, last := capacity, now;
      if key in buckets {
        tokens, last := buckets[key].tokens, buckets[key].last;
      }
      tokens := Min(capacity, tokens + Earned(now - last, rpm));
      allowed := tokens >= 1.0;
      buckets := buckets[key := Bucket(if allowed then tokens - 1.0 else tokens, now)];
    }

    static lemma EarnedIs(now: real, last: real, rpm: int)
      ensures Earned(now - last, rpm) == (now - last) * (rpm as real / 60.0) && Earned(0.0, rpm) == 0.0
    {
    }

    /** `snapshot`: reads, refills to now, stores nothing. */
    method Snapshot(key: Key, global: int, now: real) returns (budget: Budget)
      ensures budget == BudgetOf(View(), key, global, now)
    {
      var limit := EffectiveRpm(View(), key, global);
      var tokens := Refilled(View(), key, global, now);
      var reset := if tokens >= 1.0 || limit <= 0 then 0.0 else (1.0 - tokens) * 60.0 / limit as real;
      budget := Budget(limit, if tokens >= 0.0 then tokens.Floor else -((-tokens).Floor), Round3(reset));
    }
  }

  /** What a caller is shown of its budget. */
  datatype Budget = Budget(limit: int, remaining: int, reset: real)

  function BudgetOf(l: Limits, key: Key, global: int, now: real): Budget {
    Budget(EffectiveRpm(l, key, global), Remaining(l, key, global, now), Round3(Reset(l, key, global, now)))
  }

  datatype Principal = Master | User(id: string, rateLimit: int)

  /** What the resolver answers: a principal, or the status of its refusal. */
  datatype Auth = Rejected(status: nat) | Granted(principal: Principal)

  /** The request passed on with the budget its tools will show, or refused with a status. */
  datatype Reply = Forwarded(budget: Budget) | Refused(status: nat)

  /** One HTTP request with nothing in between; an absent key is the empty string. */
  method HandleRequest(limiter: Limiter, raw: Key, auth: Auth, global: int, now: real) returns (reply: Reply)
    modifies limiter
    ensures raw == "" ==> reply == Refused(401) && limiter.View() == old(limiter.View())
    ensures raw != "" ==>
      var guarded := AfterOp(old(limiter.View()), Guard(raw, now, global));
      if !Allows(old(limiter.View()), raw, global, now) then reply == Refused(429) && limiter.View() == guarded
      else if auth.Rejected? then reply == Refused(auth.status) && limiter.View() == guarded
      else if auth.principal.Master? then
        reply == Forwarded(BudgetOf(guarded, raw, global, now)) && limiter.View() == guarded
      else
        var key := UserKey(auth.principal);
        var op := PostAuth(raw, key, LimitOf(auth.principal), now, global);
        && limiter.View() == AfterOp(guarded, op)
        && reply == (if Passes(guarded, op, key) then Forwarded(BudgetOf(AfterOp(guarded, op), key, global, now)) else Refused(429))
    ensures forall k :: k != raw && !(auth.Granted? && auth.principal.User? && k == UserKey(auth.principal)) ==>
      && (k in limiter.overrides <==> k in old(limiter.overrides))
      && (k in limiter.overrides ==> limiter.overrides[k] == old(limiter.overrides)[k])
      && (k in limiter.buckets <==> k in old(limiter.buckets))
      && (k in limiter.buckets ==> limiter.buckets[k] == old(limiter.buckets)[k])
    ensures raw != "" && !(auth.Granted? && auth.principal.User?) ==>
      limiter.View() == AfterAllow(old(limiter.View()), raw, global, now)
    ensures raw != "" && !(auth.Granted? && auth.principal.User? && UserKey(auth.principal) == raw) ==>
      raw in limiter.buckets && limiter.buckets[raw] == AfterAllow(old(limiter.View()), raw, global, now).buckets[raw]
    ensures reply.Forwarded? && auth.principal.User? ==>
      reply.budget.limit == if auth.principal.rateLimit > 0 then auth.principal.rateLimit else global
    ensures reply.Forwarded? && auth.principal.User? && UserKey(auth.principal) != raw && UserKey(auth.principal) !in old(limiter.buckets) ==>
      reply.budget.remaining == reply.budget.limit - 1
    ensures (&& raw != "" && auth.Granted? && auth.principal.User? && UserKey(auth.principal) != raw
             && UserKey(auth.principal) !in old(limiter.buckets) && Allows(old(limiter.View()), raw, global, now)) ==>
      (reply.Forwarded? <==> (if auth.principal.rateLimit > 0 then auth.principal.rateLimit else global) >= 1)
  {
    hide BudgetOf, Refilled, Earned, Allows, AfterAllow;
    if raw == "" {
      return Refused(401);
    }
    var ok := limiter.Allow(raw, global, now);
    if !ok {
      return Refused(429);
    }
    if auth.Rejected? {
      return Refused(auth.status);
    }
    var budgetKey := raw;
    if auth.principal.User? {
      var limit := LimitOf(auth.principal);
      budgetKey := UserKey(auth.principal);
      limiter.SetKeyLimit(raw, limit);
      limiter.SetKeyLimit(budgetKey, limit);
      BudgetIs(limiter.View(), budgetKey, global, now);
      ok := limiter.Allow(budgetKey, global, now);
      if !ok {
        return Refused(429);
      }
    }
    var budget := limiter.Snapshot(budgetKey, global, now);
    reply := Forwarded(budget);
  }

  /** The budget shown after a call: the limit in force, and for a new key one call less than it. */
  lemma BudgetIs(l: Limits, key: Key, global: int, now: real)
    ensures var rpm := if key in l.overrides then l.overrides[key] else global;
      && BudgetOf(AfterAllow(l, key, global, now), key, global, now).limit == rpm
      && (key !in l.buckets ==> (Allows(l, key, global, now) <==> rpm >= 1))
      && (key !in l.buckets && rpm >= 1 ==> BudgetOf(AfterAllow(l, key, global, now), key, global, now).remaining == rpm - 1)
  {
    hide Earned, Reset, Round3;
    var rpm := EffectiveRpm(l, key, global);
    EarnedLaws(0.0, 0.0, rpm);
    if key !in l.buckets {
      assert Refilled(l, key, global, now) == rpm as real;
      if rpm >= 1 { OneCall(l, key, global, now); }
    }
  }

  function UserKey(p: Principal): Key
    requires p.User?
  {
    "user:" + p.id
  }

  function LimitOf(p: Principal): Option<int>
    requires p.User?
  {
    if p.rateLimit == 0 then None else Some(p.rateLimit)
  }
}
