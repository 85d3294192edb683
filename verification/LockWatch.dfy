/** The stale-lock watchdog of src/nim_controller.cpp: a demodulator that reports
    lock counts as locked only while valid packets keep arriving. Times are in
    milliseconds and 0 is the empty time point. */
module LockWatch {
  import opened Prelude

  const TIMEOUT := 1500
  const GRACE := 7500
  const SUPPRESS := 5000

  datatype Watch = Watch(validPackets: Uint64, lastProgress: int, suppressUntil: int, seen: bool, hasProgress: bool)

  // What the demodulator reports: its NIM is missing, no lock, or lock.
  datatype Demod = Missing | NoLock | Lock

  datatype Event =
    | Poll(at: nat, demod: Demod, count: Uint64)
    | Tuned(at: nat, count: Uint64)

  datatype Nim = Nim(tuned: bool, watch: Watch, locked: bool)

  const IDLE: Nim := Nim(false, Watch(0, 0, 0, false, false), false)

  function Freshened(w: Watch, count: Uint64, now: int): (Watch, bool) {
    if !w.seen then (w.(seen := true, validPackets := count, lastProgress := now), false)
    else if count != w.validPackets then
      (w.(validPackets := count, lastProgress := now, suppressUntil := 0, hasProgress := true), true)
    else if !w.hasProgress then
      (if now - w.lastProgress > TIMEOUT then w.(suppressUntil := now + SUPPRESS) else w, false)
    else if w.suppressUntil > now then (w, false)
    else if now - w.lastProgress > TIMEOUT && now - w.lastProgress > TIMEOUT + GRACE then
      (w.(suppressUntil := now + SUPPRESS, hasProgress := false), false)
    else (w, true)
  }

  // A receiver that was never tuned is not polled.
  function Step(n: Nim, e: Event): Nim {
    match e
    case Tuned(at, count) =>
      Nim(true, Watch(count, at, n.watch.suppressUntil, true, false), false)
    case Poll(at, demod, count) =>
      if !n.tuned then n
      else if !demod.Lock? then n.(locked := false)
      else n.(watch := Freshened(n.watch, count, at).0, locked := Freshened(n.watch, count, at).1)
  }

  function After(events: seq<Event>): Nim {
    if events == [] then IDLE else Step(After(events[..|events| - 1]), events[|events| - 1])
  }

  class Receiver {
    var tuned: bool
    var locked: bool
    var watch: Watch

    ghost function State(): Nim
      reads this
    {
      Nim(tuned, watch, locked)
    }

    constructor ()
      ensures State() == IDLE
    {
      tuned, locked := false, false;
      watch := Watch(0, 0, 0, false, false);
    }

    method Tune(count: Uint64, now: nat)
      modifies this
      ensures State() == Step(old(State()), Tuned(now, count))
    {
      tuned, locked := true, false;
      var suppressUntil := watch.suppressUntil;
      watch := watch.(validPackets := count, lastProgress := now);
      watch := watch.(suppressUntil := suppressUntil, seen := true, hasProgress := false);
    }

    method ValidTransportFresh(validPackets: Uint64, now: nat) returns (alive: bool)
      modifies this`watch
      ensures (watch, alive) == Freshened(old(watch), validPackets, now)
    {
      if !watch.seen {
        watch := watch.(seen := true, validPackets := validPackets, lastProgress := now);
        return false;
      }
      if validPackets != watch.validPackets {
        watch := watch.(validPackets := validPackets, lastProgress := now, suppressUntil := 0, hasProgress := true);
        return true;
      }
      if !watch.hasProgress {
        if now - watch.lastProgress > TIMEOUT {
          watch := watch.(suppressUntil := now + SUPPRESS);
        }
        return false;
      }
      if watch.suppressUntil > now {
        return false;
      }
      if now - watch.lastProgress > TIMEOUT {
        if now - watch.lastProgress <= TIMEOUT + GRACE {
          return true;
        }
        watch := watch.(suppressUntil := now + SUPPRESS, hasProgress := false);
        return false;
      }
      return true;
    }

    method PollStatus(demod: Demod, count: Uint64, now: nat)
      modifies this
      ensures State() == Step(old(State()), Poll(now, demod, count))
    {
      if tuned {
        if demod.Lock? {
          locked := ValidTransportFresh(count, now);
        } else {
          locked := false;
        }
      }
    }
  }

  // ------------------------------------------------------------- whole runs

  predicate Ordered(events: seq<Event>) {
    forall i, j | 0 <= i <= j < |events| :: events[i].at <= events[j].at
  }

  // A poll of a tuned and locked demodulator.
  predicate Watched(events: seq<Event>, i: nat)
    requires i < |events|
  {
    events[i].Poll? && events[i].demod.Lock? && After(events[..i]).tuned
  }

  // The packet counter moved since it was last looked at.
  predicate Progress(events: seq<Event>, i: nat)
    requires i < |events|
  {
    Watched(events, i) && events[i].count != After(events[..i]).watch.validPackets
  }

  // The time of the latest progress since the receiver was last tuned.
  function LatestProgress(events: seq<Event>): Option<nat> {
    if events == [] then None
    else
      var n := |events| - 1;
      if events[n].Tuned? then None
      else if Progress(events, n) then Some(events[n].at)
      else LatestProgress(events[..n])
  }

  // The watch holds the latest progress, or gave it up as too old.
  predicate Knows(events: seq<Event>) {
    var n := After(events);
    && (n.tuned ==> n.watch.seen)
    && (n.watch.hasProgress ==>
          n.tuned && n.watch.suppressUntil == 0 && LatestProgress(events) == Some(n.watch.lastProgress))
    && (!n.watch.hasProgress && LatestProgress(events).Some? ==>
          events[|events| - 1].at - LatestProgress(events).value > TIMEOUT + GRACE)
  }

  lemma OrderedPrefix(events: seq<Event>, n: nat)
    requires Ordered(events) && n <= |events|
    ensures Ordered(events[..n])
    ensures 0 < n < |events| ==> events[n - 1].at <= events[n].at
  {
  }

  lemma {:induction false} RunKnows(events: seq<Event>)
    requires Ordered(events)
    ensures Knows(events)
  {
    hide Ordered;
    if events != [] {
      var n := |events| - 1;
      OrderedPrefix(events, n);
      RunKnows(events[..n]);
    }
  }

  /** A receiver shows as locked exactly when its demodulator reports lock and the
      packet counter was seen to move since tuning, at most 9000 ms ago. The
      suppression time plays no part. */
  lemma LockedExactly(events: seq<Event>)
    requires Ordered(events)
    ensures After(events).locked <==>
      && events != [] && Watched(events, |events| - 1)
      && LatestProgress(events).Some? && events[|events| - 1].at - LatestProgress(events).value <= 9000
  {
    hide Ordered;
    if events != [] {
      var n := |events| - 1;
      OrderedPrefix(events, n);
      RunKnows(events[..n]);
    }
  }

  // Polls from i on see no further movement and no tuning comes.
  predicate Stalled(events: seq<Event>, i: nat)
    requires i <= |events|
  {
    forall k | i <= k < |events| :: events[k].Poll? && !Progress(events, k)
  }

  lemma {:induction false} StalledKeepsProgress(events: seq<Event>, i: nat)
    requires i <= |events| && Stalled(events, i)
    ensures LatestProgress(events) == LatestProgress(events[..i])
    decreases |events|
  {
    hide Progress;
    if i < |events| {
      var n := |events| - 1;
      var before := events[..n];
      PrefixAgrees(events, n);
      assert before[..i] == events[..i];
      StalledKeepsProgress(before, i);
    } else {
      assert events[..i] == events;
    }
  }

  lemma PrefixAgrees(events: seq<Event>, n: nat)
    requires n <= |events|
    ensures forall j | 0 <= j < n ::
      events[..n][j] == events[j] && Progress(events[..n], j) == Progress(events, j)
  {
    hide After;
    forall j | 0 <= j < n
      ensures Progress(events[..n], j) == Progress(events, j)
    {
      assert events[..n][..j] == events[..j];
    }
  }

  /** Once a reported lock counts as lost, it stays lost until the counter moves or
      the receiver is tuned. */
  lemma LostStaysLost(events: seq<Event>, i: nat)
    requires Ordered(events) && i < |events|
    requires Watched(events, i) && !After(events[..i + 1]).locked
    requires Stalled(events, i + 1)
    ensures !After(events).locked
  {
    hide After, Progress, LatestProgress;
    var lost := events[..i + 1];
    OrderedPrefix(events, i + 1);
    LockedExactly(lost);
    WatchedPrefix(events, i);
    StalledKeepsProgress(events, i + 1);
    LockedExactly(events);
  }

  lemma WatchedPrefix(events: seq<Event>, i: nat)
    requires i < |events|
    ensures Watched(events[..i + 1], i) == Watched(events, i)
  {
    assert events[..i + 1][..i] == events[..i];
  }

  // ------------------------------------------------------- the suppression time

  // What staleness is measured from: the latest progress, or the tuning if none came since.
  function Baseline(events: seq<Event>): int {
    if events == [] then 0
    else
      var n := |events| - 1;
      if events[n].Tuned? || Progress(events, n) then events[n].at else Baseline(events[..n])
  }

  // The suppression time, from what the receiver shows.
  function Suppression(events: seq<Event>): int {
    if events == [] then 0
    else
      var n := |events| - 1;
      var before := Suppression(events[..n]);
      if !Watched(events, n) then before
      else if Progress(events, n) then 0
      else if !After(events).locked && events[n].at - Baseline(events[..n]) > 1500 then events[n].at + 5000
      else before
  }

  /** In every run the suppression time is cleared by progress, is set 5000 ms ahead by each
      poll that finds a reported lock stale, by more than 1500 ms without progress since
      tuning or, once there was progress, 9000 ms, and is kept otherwise, also by tuning. */
  lemma {:induction false} SuppressionFollowsStaleness(events: seq<Event>)
    requires Ordered(events)
    ensures After(events).watch.suppressUntil == Suppression(events)
    ensures After(events).tuned ==> After(events).watch.lastProgress == Baseline(events)
  {
    hide Ordered, LatestProgress;
    if events != [] {
      var n := |events| - 1;
      OrderedPrefix(events, n);
      RunKnows(events[..n]);
      SuppressionFollowsStaleness(events[..n]);
    }
  }

  // The packet counter at the latest tuning or look.
  function LastCount(events: seq<Event>): Uint64 {
    if events == [] then 0
    else
      var n := |events| - 1;
      if events[n].Tuned? || Watched(events, n) then events[n].count else LastCount(events[..n])
  }

  /** In every run progress means that the counter differs from the one seen when the
      receiver was last tuned or looked at. */
  lemma {:induction false} ProgressIsMovement(events: seq<Event>)
    ensures After(events).watch.validPackets == LastCount(events)
    ensures forall i | 0 <= i < |events| ::
              Progress(events, i) <==> Watched(events, i) && events[i].count != LastCount(events[..i])
  {
    if events != [] {
      var n := |events| - 1;
      ProgressIsMovement(events[..n]);
      PrefixAgrees(events, n);
      forall i | 0 <= i < n
        ensures Progress(events, i) <==> Watched(events, i) && events[i].count != LastCount(events[..i])
      {
        assert events[..n][..i] == events[..i];
      }
    }
  }

  /** A watch that never looked only notes what it sees: the first look is never fresh. */
  lemma FirstLookIsNotFresh(w: Watch, count: Uint64, now: int)
    requires !w.seen
    ensures var (v, alive) := Freshened(w, count, now);
      !alive && v == w.(seen := true, validPackets := count, lastProgress := now)
  {
  }
}
