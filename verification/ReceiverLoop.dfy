/** The daemon's receiver loop (src/daemon.cpp): poll, scan tick, poll again. A lock
    that stops delivering packets is left within a bounded time. */
module ReceiverLoop {
  import opened Prelude
  import LockWatch
  import S = ScanScheduler

  // One turn of the loop: the tick's time is read before the first poll.
  datatype Round = Round(now: nat, first: LockWatch.Event, tuneAt: nat, tuneCount: Uint64, second: LockWatch.Event)
  datatype Loop = Loop(nim: LockWatch.Nim, cursor: S.Cursor)

  const START: Loop := Loop(LockWatch.IDLE, S.FRESH)

  predicate WellTimed(round: Round) {
    && round.first.Poll? && round.second.Poll?
    && round.now <= round.first.at <= round.tuneAt <= round.second.at
  }

  predicate WellTimedRun(rounds: seq<Round>) {
    && (forall i | 0 <= i < |rounds| :: WellTimed(rounds[i]))
    && (forall i, j | 0 <= i < j < |rounds| :: rounds[i].second.at <= rounds[j].now)
  }

  function Polled(s: Loop, round: Round): LockWatch.Nim {
    LockWatch.Step(s.nim, round.first)
  }

  predicate TunesIn(r: S.Receiver, s: Loop, round: Round) {
    S.Due(r, s.cursor, S.Tick(Polled(s, round).locked, round.now))
  }

  function Step(r: S.Receiver, s: Loop, round: Round): Loop
    requires S.Scans(r)
  {
    var n1 := Polled(s, round);
    var cursor := S.Step(r, s.cursor, S.Tick(n1.locked, round.now));
    var n2 := if TunesIn(r, s, round) then LockWatch.Step(n1, LockWatch.Tuned(round.tuneAt, round.tuneCount)) else n1;
    Loop(LockWatch.Step(n2, round.second), cursor)
  }

  function After(r: S.Receiver, rounds: seq<Round>): Loop
    requires S.Scans(r)
  {
    if rounds == [] then START
    else Step(r, After(r, rounds[..|rounds| - 1]), rounds[|rounds| - 1])
  }

  predicate TunesAt(r: S.Receiver, rounds: seq<Round>, i: nat)
    requires S.Scans(r) && i < |rounds|
  {
    TunesIn(r, After(r, rounds[..i]), rounds[i])
  }

  // What the watch sees over a run of rounds.
  function Events(r: S.Receiver, rounds: seq<Round>): seq<LockWatch.Event>
    requires S.Scans(r)
  {
    if rounds == [] then []
    else
      var n := |rounds| - 1;
      var round := rounds[n];
      Events(r, rounds[..n]) + [round.first]
      + (if TunesAt(r, rounds, n) then [LockWatch.Tuned(round.tuneAt, round.tuneCount)] else []) + [round.second]
  }

  lemma AfterOne(events: seq<LockWatch.Event>, e: LockWatch.Event)
    ensures LockWatch.After(events + [e]) == LockWatch.Step(LockWatch.After(events), e)
  {
    assert (events + [e])[..|events|] == events;
  }

  // The loop drives the watchdog through exactly these events.
  lemma {:induction false} LoopDrivesWatch(r: S.Receiver, rounds: seq<Round>)
    requires S.Scans(r)
    ensures LockWatch.After(Events(r, rounds)) == After(r, rounds).nim
  {
    hide LockWatch.After, LockWatch.Step, S.Due, S.Step;
    if rounds == [] {
      Nothing();
    } else {
      var n := |rounds| - 1;
      var round, before := rounds[n], Events(r, rounds[..n]);
      LoopDrivesWatch(r, rounds[..n]);
      AfterOne(before, round.first);
      if TunesAt(r, rounds, n) {
        var tuned := LockWatch.Tuned(round.tuneAt, round.tuneCount);
        AfterOne(before + [round.first], tuned);
        AfterOne(before + [round.first] + [tuned], round.second);
      } else {
        AfterOne(before + [round.first], round.second);
        assert before + [round.first] + [] == before + [round.first];
      }
    }
  }

  lemma Nothing()
    ensures LockWatch.After([]) == LockWatch.IDLE
  {
  }

  // What the scheduler sees: the lock after the first poll, at the time read before it.
  function Ticks(r: S.Receiver, rounds: seq<Round>): (ticks: seq<S.Tick>)
    requires S.Scans(r)
    ensures |ticks| == |rounds|
  {
    if rounds == [] then []
    else
      var n := |rounds| - 1;
      Ticks(r, rounds[..n]) + [S.Tick(Polled(After(r, rounds[..n]), rounds[n]).locked, rounds[n].now)]
  }

  // The loop drives the scheduler through exactly these ticks.
  lemma {:induction false} LoopDrivesScheduler(r: S.Receiver, rounds: seq<Round>)
    requires S.Scans(r)
    ensures S.After(r, Ticks(r, rounds)) == After(r, rounds).cursor
  {
    hide LockWatch.Step, S.Due, S.Step;
    if rounds != [] {
      var n := |rounds| - 1;
      LoopDrivesScheduler(r, rounds[..n]);
      assert Ticks(r, rounds)[..n] == Ticks(r, rounds[..n]);
    }
  }

  lemma {:induction false} TicksOfPrefix(r: S.Receiver, rounds: seq<Round>, i: nat)
    requires S.Scans(r) && i < |rounds|
    ensures Ticks(r, rounds)[..i] == Ticks(r, rounds[..i])
    ensures Ticks(r, rounds)[i] == S.Tick(Polled(After(r, rounds[..i]), rounds[i]).locked, rounds[i].now)
    decreases |rounds|
  {
    hide LockWatch.Step, After;
    var n := |rounds| - 1;
    if i < n {
      TicksOfPrefix(r, rounds[..n], i);
      assert rounds[..n][..i] == rounds[..i];
    }
  }

  lemma TicksAreOrdered(r: S.Receiver, rounds: seq<Round>)
    requires S.Scans(r) && WellTimedRun(rounds)
    ensures S.Ordered(Ticks(r, rounds))
  {
    hide Ticks;
    var ticks := Ticks(r, rounds);
    forall i, j | 0 <= i < j < |ticks|
      ensures ticks[i].now <= ticks[j].now
    {
      TicksOfPrefix(r, rounds, i);
      TicksOfPrefix(r, rounds, j);
      assert WellTimed(rounds[i]) && rounds[i].second.at <= rounds[j].now;
    }
  }

  lemma TunesAlike(r: S.Receiver, rounds: seq<Round>, i: nat)
    requires S.Scans(r) && i < |rounds|
    ensures TunesAt(r, rounds, i) == S.TunesAt(r, Ticks(r, rounds), i)
  {
    hide Ticks, After, S.After, S.Due;
    TicksOfPrefix(r, rounds, i);
    LoopDrivesScheduler(r, rounds[..i]);
  }

  /** What the scheduler promises holds in the loop: a round tunes exactly when the lock
      the watch left it, the hang time and the dwell time allow, and the n-th tune goes to
      target n modulo their number. */
  lemma LoopKeepsTheScan(r: S.Receiver, rounds: seq<Round>, i: nat)
    requires S.Scans(r) && WellTimedRun(rounds) && i < |rounds|
    ensures TunesAt(r, rounds, i) <==> S.MayTune(r, Ticks(r, rounds), i)
    ensures TunesAt(r, rounds, i) ==>
              After(r, rounds[..i]).cursor.index % r.targets == S.TuneCount(r, Ticks(r, rounds)[..i]) % r.targets
  {
    hide Ticks, After, S.After, S.MayTune, S.TuneCount, S.Ordered, S.TunesAt, TunesAt;
    TicksAreOrdered(r, rounds);
    TunesAlike(r, rounds, i);
    S.TunesExactlyWhenAllowed(r, Ticks(r, rounds), i);
    TicksOfPrefix(r, rounds, i);
    LoopDrivesScheduler(r, rounds[..i]);
    if S.TunesAt(r, Ticks(r, rounds), i) { S.NthTuneGoesToTargetN(r, Ticks(r, rounds), i); }
  }

  // ------------------------------------------------- leaving a stalled lock

  // What holds after every round that began at now.
  predicate Timely(s: Loop, r: S.Receiver, now: int) {
    && s.nim.tuned && s.nim.watch.seen && s.cursor.tuned
    && (s.nim.watch.hasProgress ==> s.nim.watch.suppressUntil == 0)
    && s.cursor.nextRetune <= now + r.dwell && s.cursor.hangUntil <= Max(0, now + r.hang)
  }

  lemma TimelyStep(r: S.Receiver, s: Loop, round: Round, before: nat)
    requires S.Scans(r) && WellTimed(round) && before <= round.now
    requires s == START || Timely(s, r, before)
    ensures Timely(Step(r, s, round), r, round.now)
  {
  }

  lemma {:induction false} RunIsTimely(r: S.Receiver, rounds: seq<Round>)
    requires S.Scans(r) && WellTimedRun(rounds) && rounds != []
    ensures Timely(After(r, rounds), r, rounds[|rounds| - 1].now)
  {
    hide Timely, Step;
    var n := |rounds| - 1;
    var before := rounds[..n];
    assert WellTimedRun(before) && WellTimed(rounds[n]);
    if n > 0 {
      RunIsTimely(r, before);
      assert WellTimed(rounds[n - 1]);
      assert rounds[n - 1].second.at <= rounds[n].now;
      TimelyStep(r, After(r, before), rounds[n], rounds[n - 1].now);
    } else {
      TimelyStep(r, START, rounds[n], 0);
    }
  }

  // The counter is seen where the watch left it after k rounds.
  predicate StalledFrom(r: S.Receiver, rounds: seq<Round>, k: nat)
    requires S.Scans(r) && k <= |rounds|
  {
    var count := After(r, rounds[..k]).nim.watch.validPackets;
    forall i | k <= i < |rounds| :: rounds[i].first.count == count && rounds[i].second.count == count
  }

  predicate NoTuneFrom(r: S.Receiver, rounds: seq<Round>, k: nat)
    requires S.Scans(r)
  {
    forall i | k <= i < |rounds| :: !TunesAt(r, rounds, i)
  }

  predicate Gaps(rounds: seq<Round>, gap: nat) {
    forall i | 0 < i < |rounds| :: rounds[i].now <= rounds[i - 1].now + gap
  }

  // While stalled the cursor only waits for times reckoned from the last progress.
  predicate Waiting(s: Loop, r: S.Receiver, last: int, stalled: Loop, now: int, gap: nat) {
    && s.nim.tuned && s.nim.watch.seen && s.cursor.tuned
    && s.nim.watch.validPackets == stalled.nim.watch.validPackets
    && s.nim.watch.lastProgress == stalled.nim.watch.lastProgress
    && (s.nim.watch.hasProgress ==> s.nim.watch.suppressUntil == 0)
    && s.cursor.nextRetune <= last + 9000 + r.dwell
    && s.cursor.hangUntil <= Max(0, last + 9000 + gap + r.hang)
    && (s.cursor.wasLocked ==> now <= last + 9000)
  }

  lemma WaitingStep(s: Loop, r: S.Receiver, last: int, stalled: Loop, now: int, gap: nat, round: Round)
    requires S.Scans(r) && WellTimed(round) && Waiting(s, r, last, stalled, now, gap)
    requires stalled.nim.watch.lastProgress <= last
    requires now <= round.now <= now + gap
    requires round.first.count == s.nim.watch.validPackets && round.second.count == s.nim.watch.validPackets
    requires !TunesIn(r, s, round)
    ensures Waiting(Step(r, s, round), r, last, stalled, round.now, gap)
  {
    hide S.Due;
    var n1 := Polled(s, round);
    var n2 := LockWatch.Step(n1, round.second);
    assert n1.watch.hasProgress ==> n1.watch.suppressUntil == 0;
    assert n2.watch.hasProgress ==> n2.watch.suppressUntil == 0;
    assert n1.locked ==> round.now <= last + 9000;
  }

  lemma {:induction false} StillWaiting(r: S.Receiver, rounds: seq<Round>, k: nat, gap: nat)
    requires S.Scans(r) && WellTimedRun(rounds) && 0 < k <= |rounds| && Gaps(rounds, gap)
    requires StalledFrom(r, rounds, k) && NoTuneFrom(r, rounds, k)
    requires rounds[k - 1].now <= After(r, rounds[..k]).nim.watch.lastProgress
    ensures var stalled := After(r, rounds[..k]);
            Waiting(After(r, rounds), r, stalled.nim.watch.lastProgress, stalled, rounds[|rounds| - 1].now, gap)
    decreases |rounds|
  {
    hide Waiting, Step, TunesIn, Timely, After, WellTimed;
    var stalled := After(r, rounds[..k]);
    if |rounds| == k {
      assert rounds[..k] == rounds;
      RunIsTimely(r, rounds);
      StartWaiting(r, stalled, rounds[k - 1].now, gap);
    } else {
      var n := |rounds| - 1;
      var before := rounds[..n];
      SameBefore(r, rounds, k, n);
      LastRound(r, rounds);
      StillWaiting(r, before, k, gap);
      InOrder(rounds, n);
      assert !TunesAt(r, rounds, n);
      KeepWaiting(r, After(r, before), stalled, rounds[n - 1].now, gap, rounds[n]);
    }
  }

  lemma LastRound(r: S.Receiver, rounds: seq<Round>)
    requires S.Scans(r) && rounds != []
    ensures var n := |rounds| - 1;
      After(r, rounds) == Step(r, After(r, rounds[..n]), rounds[n])
      && TunesAt(r, rounds, n) == TunesIn(r, After(r, rounds[..n]), rounds[n])
  {
  }

  lemma StartWaiting(r: S.Receiver, s: Loop, now: nat, gap: nat)
    requires Timely(s, r, now) && now <= s.nim.watch.lastProgress
    ensures Waiting(s, r, s.nim.watch.lastProgress, s, now, gap)
  {
  }

  lemma KeepWaiting(r: S.Receiver, s: Loop, stalled: Loop, now: nat, gap: nat, round: Round)
    requires S.Scans(r) && WellTimed(round)
    requires Waiting(s, r, stalled.nim.watch.lastProgress, stalled, now, gap)
    requires now <= round.now <= now + gap && !TunesIn(r, s, round)
    requires round.first.count == stalled.nim.watch.validPackets
    requires round.second.count == stalled.nim.watch.validPackets
    ensures Waiting(Step(r, s, round), r, stalled.nim.watch.lastProgress, stalled, round.now, gap)
  {
    WaitingStep(s, r, stalled.nim.watch.lastProgress, stalled, now, gap, round);
  }

  // Late enough, the wait is over.
  lemma WaitEnds(r: S.Receiver, s: Loop, stalled: Loop, now: nat, gap: nat, round: Round)
    requires S.Scans(r) && WellTimed(round)
    requires Waiting(s, r, stalled.nim.watch.lastProgress, stalled, now, gap)
    requires now <= round.now <= now + gap
    requires round.first.count == stalled.nim.watch.validPackets
    requires round.now >= stalled.nim.watch.lastProgress + 9000 + Max(0, Max(r.hang, r.dwell)) + gap
    requires round.now > stalled.nim.watch.lastProgress + 9000
    ensures TunesIn(r, s, round)
  {
    assert !Polled(s, round).locked;
  }

  // The first round that begins at the limit or later.
  function FirstAt(rounds: seq<Round>, from: nat, limit: int): (e: nat)
    requires from <= |rounds|
    ensures from <= e <= |rounds|
    ensures e < |rounds| ==> rounds[e].now >= limit
    ensures forall i | from <= i < e :: rounds[i].now < limit
    decreases |rounds| - from
  {
    if from == |rounds| || rounds[from].now >= limit then from else FirstAt(rounds, from + 1, limit)
  }

  /** If the last progress, or the last tuning, was seen in round k - 1 and the packet
      counter then stays put, then whatever the demodulator reports the scheduler
      tunes again within 9000 ms, the longer of hang and dwell, and two gaps between
      rounds, as soon as the loop runs that long. */
  lemma StalledLockIsLeft(r: S.Receiver, rounds: seq<Round>, k: nat, gap: nat)
    requires S.Scans(r) && WellTimedRun(rounds) && 0 < k < |rounds| && Gaps(rounds, gap) && gap > 0
    requires StalledFrom(r, rounds, k)
    requires rounds[k - 1].now <= After(r, rounds[..k]).nim.watch.lastProgress
    requires rounds[|rounds| - 1].now >=
             After(r, rounds[..k]).nim.watch.lastProgress + 9000 + Max(0, Max(r.hang, r.dwell)) + gap
    ensures exists i :: k <= i < |rounds| && TunesAt(r, rounds, i)
              && rounds[i].now <=
                 After(r, rounds[..k]).nim.watch.lastProgress + 9000 + Max(0, Max(r.hang, r.dwell)) + 2 * gap
  {
    hide Waiting, Step, TunesIn, After, WellTimed;
    var stalled := After(r, rounds[..k]);
    var limit := stalled.nim.watch.lastProgress + 9000 + Max(0, Max(r.hang, r.dwell)) + gap;
    var e := FirstAt(rounds, k, limit);
    assert rounds[e].now <= rounds[e - 1].now + gap;
    var before := rounds[..e];
    SameBefore(r, rounds, k, e);
    assert forall i | k <= i <= e :: rounds[i].now <= limit + gap by {
      assert rounds[k - 1].now <= limit;
    }
    if NoTuneFrom(r, before, k) {
      StillWaiting(r, before, k, gap);
      InOrder(rounds, e);
      WaitEnds(r, After(r, before), stalled, rounds[e - 1].now, gap, rounds[e]);
      assert TunesAt(r, rounds, e);
    } else {
      var i :| k <= i < e && TunesAt(r, before, i);
      assert TunesAt(r, rounds, i);
    }
  }

  lemma SameBefore(r: S.Receiver, rounds: seq<Round>, k: nat, e: nat)
    requires S.Scans(r) && 0 < k <= e <= |rounds|
    ensures rounds[..e][..k] == rounds[..k]
    ensures forall i | k <= i < e :: TunesAt(r, rounds[..e], i) == TunesAt(r, rounds, i)
    ensures WellTimedRun(rounds) ==> WellTimedRun(rounds[..e])
    ensures forall gap | Gaps(rounds, gap) :: Gaps(rounds[..e], gap)
    ensures StalledFrom(r, rounds, k) ==> StalledFrom(r, rounds[..e], k)
  {
    hide After, TunesIn, WellTimed;
    assert rounds[..e][..k] == rounds[..k];
    forall i | k <= i < e ensures TunesAt(r, rounds[..e], i) == TunesAt(r, rounds, i) {
      assert rounds[..e][..i] == rounds[..i];
    }
  }

  lemma InOrder(rounds: seq<Round>, e: nat)
    requires WellTimedRun(rounds) && 0 < e < |rounds|
    ensures WellTimed(rounds[e]) && rounds[e - 1].now <= rounds[e].now
  {
    assert WellTimed(rounds[e - 1]) && rounds[e - 1].second.at <= rounds[e].now;
  }

  lemma {:induction false} EventsAreOrdered(r: S.Receiver, rounds: seq<Round>)
    requires S.Scans(r) && WellTimedRun(rounds)
    ensures var events := Events(r, rounds);
      && LockWatch.Ordered(events)
      && (rounds != [] ==> forall i | 0 <= i < |events| :: events[i].at <= rounds[|rounds| - 1].second.at)
  {
    hide TunesAt;
    if rounds != [] {
      var n := |rounds| - 1;
      assert WellTimedRun(rounds[..n]) && WellTimed(rounds[n]);
      EventsAreOrdered(r, rounds[..n]);
      assert n > 0 ==> rounds[n - 1].second.at <= rounds[n].now;
    }
  }

  /** A receiver the loop shows as locked was seen to make progress at most 9000 ms ago. */
  lemma LockedShowsProgress(r: S.Receiver, rounds: seq<Round>)
    requires S.Scans(r) && WellTimedRun(rounds) && After(r, rounds).nim.locked
    ensures var events := Events(r, rounds);
      events != [] && LockWatch.LatestProgress(events).Some?
      && events[|events| - 1].at - LockWatch.LatestProgress(events).value <= 9000
  {
    LoopDrivesWatch(r, rounds);
    EventsAreOrdered(r, rounds);
    LockWatch.LockedExactly(Events(r, rounds));
  }
}
