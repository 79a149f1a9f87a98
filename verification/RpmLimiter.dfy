/** The worker's sliding-window limiter on embedded texts per minute. */
module RpmLimiter {
  const WINDOW: real := 60.0
  const MIN_SLEEP: real := 0.05
  const MAX_SLEEP: real := 5.0

  /** One admitted batch: when it was recorded and how many texts it holds. */
  datatype Event = Event(at: real, count: nat)

  /** An admission in the history: the event, the clock reading that admitted it, and its limit. */
  datatype Admission = Admission(event: Event, read: real, rpm: int)

  function Total(events: seq<Event>): nat {
    if events == [] then 0 else events[0].count + Total(events[1..])
  }

  /** Texts of all admissions. */
  ghost function Recorded(log: seq<Admission>): nat {
    if log == [] then 0 else Recorded(log[..|log| - 1]) + log[|log| - 1].event.count
  }

  lemma RecordedSnoc(log: seq<Admission>, a: Admission)
    ensures Recorded(log + [a]) == Recorded(log) + a.event.count
  {
    assert (log + [a])[..|log|] == log;
  }

  /** Texts of the admissions recorded in the half-open window (since, until]. */
  ghost function WindowTotal(log: seq<Admission>, since: real, until: real): nat {
    if log == [] then 0
    else
      var last := log[|log| - 1].event;
      WindowTotal(log[..|log| - 1], since, until) + if since < last.at <= until then last.count else 0
  }

  /** Admissions recorded in the window. */
  ghost function WindowSize(log: seq<Admission>, since: real, until: real): nat {
    if log == [] then 0
    else
      var last := log[|log| - 1].event;
      WindowSize(log[..|log| - 1], since, until) + if since < last.at <= until then 1 else 0
  }

  /** Everything the history guarantees about its latest admission: the window that ended at its
      clock reading had room for it, or was empty. */
  ghost predicate Admitted(before: seq<Admission>, a: Admission) {
    && a.read <= a.event.at
    && (forall b :: b in before ==> b.event.at <= a.read)
    && (WindowTotal(before, a.read - WINDOW, a.read) + a.event.count <= a.rpm
        || WindowSize(before, a.read - WINDOW, a.read) == 0)
  }

  ghost predicate History(log: seq<Admission>) {
    log == [] || (History(log[..|log| - 1]) && Admitted(log[..|log| - 1], log[|log| - 1]))
  }

  /** The last admission recorded no later than `until`. */
  ghost function LastRpm(log: seq<Admission>, until: real): int {
    if log == [] then 0
    else if log[|log| - 1].event.at <= until then log[|log| - 1].rpm
    else LastRpm(log[..|log| - 1], until)
  }

  lemma {:induction false} WindowMonotone(log: seq<Admission>, since: real, since': real, until: real, until': real)
    requires since' <= since && forall a :: a in log ==> a.event.at <= until'
    ensures WindowTotal(log, since, until) <= WindowTotal(log, since', until')
    ensures WindowSize(log, since, until) <= WindowSize(log, since', until')
  {
    if log != [] {
      assert log[|log| - 1] in log;
      WindowMonotone(log[..|log| - 1], since, since', until, until');
    }
  }

  /** At every moment `T`, the texts recorded in the last 60 seconds are at most the limit of the
      last admission, or they are a single batch (which may be larger than the whole budget). */
  lemma {:induction false} WindowStaysUnderLimit(log: seq<Admission>, T: real)
    requires History(log)
    ensures WindowTotal(log, T - 60.0, T) <= LastRpm(log, T) || WindowSize(log, T - 60.0, T) <= 1
  {
    if log != [] {
      var init, a := log[..|log| - 1], log[|log| - 1];
      WindowStaysUnderLimit(init, T);
      if T - WINDOW < a.event.at <= T {
        WindowMonotone(init, T - WINDOW, a.read - WINDOW, T, a.read);
      } else if a.event.at <= T {
        NothingRecent(init, a.event.at, T);
      }
    }
  }

  lemma {:induction false} NothingRecent(log: seq<Admission>, latest: real, T: real)
    requires latest <= T - WINDOW && forall a :: a in log ==> a.event.at <= latest
    ensures WindowSize(log, T - WINDOW, T) == 0
  {
    if log != [] {
      assert log[|log| - 1] in log;
      NothingRecent(log[..|log| - 1], latest, T);
    }
  }

  lemma {:induction false} TotalSnoc(events: seq<Event>, e: Event)
    ensures Total(events + [e]) == Total(events) + e.count
  {
    if events != [] {
      assert (events + [e])[1..] == events[1..] + [e];
      TotalSnoc(events[1..], e);
    }
  }

  /** The events are the newest admissions of the history, and all older ones are out of the window. */
  ghost predicate Tail(events: seq<Event>, log: seq<Admission>, now: real) {
    && |events| <= |log|
    && (forall k :: 0 <= k < |events| ==> events[k] == log[|log| - |events| + k].event)
    && (forall k :: 0 <= k < |log| - |events| ==> now - log[k].event.at >= WINDOW)
  }

  /** What the deque adds up to is at least what the window holds. */
  lemma {:induction false} TailCoversWindow(events: seq<Event>, log: seq<Admission>, now: real)
    requires Tail(events, log, now)
    ensures WindowTotal(log, now - WINDOW, now) <= Total(events)
    ensures events == [] ==> WindowSize(log, now - WINDOW, now) == 0
  {
    if log != [] {
      var init := log[..|log| - 1];
      if events == [] {
        TailCoversWindow([], init, now);
      } else {
        var rest, last := events[..|events| - 1], events[|events| - 1];
        assert events == rest + [last];
        TailCoversWindow(rest, init, now);
        TotalSnoc(rest, last);
      }
    }
  }

  // ---- the limiter ---------------------------------------------------------------------

  /** A monotonic clock. Reading it may take time, which `lag` adds up; a sleep takes exactly as
      long as asked. */
  class Clock {
    var now: real
    ghost var lag: real

    method Monotonic() returns (t: real)
      modifies this
      ensures t == now && now >= old(now) && now - lag == old(now - lag)
    {
      var delay: real :| delay >= 0.0;
      now := now + delay;
      lag := lag + delay;
      t := now;
    }

    method Sleep(seconds: real)
      requires seconds >= 0.0
      modifies this
      ensures now == old(now) + seconds && lag == old(lag)
    {
      now := now + seconds;
    }
  }

  /** Until the oldest event expires, in naps of at least 0.05 and at most 5 seconds. */
  function SleepTime(now: real, oldest: real): (seconds: real)
    requires now - oldest < WINDOW
    ensures 0.05 <= seconds <= 5.0 && (seconds == 0.05 || now + seconds <= oldest + 60.0)
    ensures seconds == 0.05 || seconds == 5.0 || now + seconds == oldest + 60.0
  {
    var wait := WINDOW - (now - oldest);
    var capped := if wait < MAX_SLEEP then wait else MAX_SLEEP;
    if MIN_SLEEP < capped then capped else MIN_SLEEP
  }

  class RpmLimiter {
    var events: seq<Event>
    ghost var log: seq<Admission>

    /** The deque is the tail of the history that the last reading left in the window; what was
        popped is older than 60 seconds for good. */
    ghost predicate Valid(now: real)
      reads this
    {
      History(log) && (forall a :: a in log ==> a.event.at <= now) && Tail(events, log, now)
    }

    constructor ()
      ensures forall t: real :: Valid(t)
    {
      events, log := [], [];
    }

    /** `_used`: drop the leading events that have left the window and add up the rest. */
    method Used(now: real) returns (used: nat)
      requires Valid(now)
      modifies this`events
      ensures Valid(now) && used == Total(events)
      ensures used <= Total(old(events)) && |events| <= |old(events)|
      ensures events != [] ==> now - events[0].at < WINDOW
    {
      hide History, Total;
      while events != [] && now - events[0].at >= WINDOW
        invariant Valid(now) && Total(events) <= Total(old(events)) && |events| <= |old(events)|
        decreases |events|
      {
        Popped(now);
        events := events[1..];
      }
      used := Total(events);
    }

    lemma Popped(now: real)
      requires Valid(now) && events != [] && now - events[0].at >= WINDOW
      ensures Tail(events[1..], log, now) && Total(events[1..]) <= Total(events)
    {
      hide History;
    }

    lemma StaysValid(now: real, later: real)
      requires Valid(now) && now <= later
      ensures Valid(later)
    {
    }

    /** No event of the deque is newer than the history. */
    lemma OldestIsLogged(now: real, latest: real)
      requires Valid(now) && events != [] && forall a :: a in log ==> a.event.at <= latest
      ensures events[0].at <= latest
    {
      assert events[0] == log[|log| - |events|].event;
    }

    /** `throttle`: wait until the batch fits in the window or the window is empty, then record it. It
        does not sleep when the batch fits at once.
        Disabled, it does nothing at all; otherwise it returns, at most 60.05 seconds after entry
        plus whatever the clock readings themselves took. */
    method Throttle(clock: Clock, n: int, rpm: int) returns (ghost read: real)
      requires Valid(clock.now)
      modifies this, clock
      ensures Valid(clock.now)
      ensures rpm <= 0 || n <= 0 ==> clock.now == old(clock.now) && log == old(log) && events == old(events)
      ensures rpm > 0 && n > 0 ==> log == old(log) + [Admission(Event(clock.now, n), read, rpm)]
      ensures clock.now - old(clock.now) <= 60.05 + (clock.lag - old(clock.lag))
      ensures Total(old(events)) + n <= rpm || old(events) == [] ==> clock.now - clock.lag == old(clock.now - clock.lag)
    {
      read := clock.now;
      if rpm <= 0 || n <= 0 {
        return;
      }
      ghost var entry, lag0 := clock.now, clock.lag;
      ghost var log0 := log;
      ghost var fits := Total(events) + n <= rpm || events == [];
      hide History, Total, Tail;
      var now := clock.Monotonic();
      StaysValid(entry, now);
      var used := Used(now);
      while !(used + n <= rpm || events == [])
        invariant log == log0 && now == clock.now && used == Total(events) && Valid(now)
        invariant fits ==> (used + n <= rpm || events == []) && clock.now - clock.lag == entry - lag0
        invariant entry <= now <= entry + WINDOW + MIN_SLEEP + (clock.lag - lag0) && clock.lag >= lag0
        invariant forall a :: a in log ==> a.event.at <= entry
        invariant events != [] ==> now - events[0].at < WINDOW
        decreases 20.0 * (entry + WINDOW + MIN_SLEEP - now)
      {
        OldestIsLogged(now, entry);
        ghost var before := now;
        clock.Sleep(SleepTime(now, events[0].at));
        now := clock.Monotonic();
        StaysValid(before, now);
        used := Used(now);
      }
      read := now;
      var at := clock.Monotonic();
      Admit(at, read, n, rpm);
    }

    method Admit(at: real, ghost read: real, n: nat, ghost rpm: int)
      requires Valid(read) && read <= at && (Total(events) + n <= rpm || events == [])
      modifies this
      ensures Valid(at) && log == old(log) + [Admission(Event(at, n), read, rpm)]
    {
      hide Total, WindowTotal, WindowSize;
      TailCoversWindow(events, log, read);
      ghost var log0 := log;
      events := events + [Event(at, n)];
      log := log + [Admission(Event(at, n), read, rpm)];
      assert log[..|log| - 1] == log0;
    }
  }
}
