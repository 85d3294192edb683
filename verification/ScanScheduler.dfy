/** The scan scheduler (src/scan_scheduler.cpp): each receiver steps through its
    targets, waits while locked and hangs on for a while after losing lock.
    Times count from the clock's epoch, so 0 is the empty time point. */
module ScanScheduler {
  import opened Prelude

  datatype Cursor = Cursor(index: nat, nextRetune: int, hangUntil: int, tuned: bool, wasLocked: bool)
  datatype Receiver = Receiver(id: int, enabled: bool, targets: nat, dwell: int, hang: int)
  datatype Tick = Tick(locked: bool, now: nat)
  datatype Tune = Tune(receiver: int, target: nat)

  const FRESH: Cursor := Cursor(0, 0, 0, false, false)

  predicate Scans(r: Receiver) {
    r.enabled && r.targets > 0
  }

  // The cursor once the lock state is noted.
  function Noted(r: Receiver, c: Cursor, t: Tick): Cursor {
    if t.locked then c.(wasLocked := true, hangUntil := 0, nextRetune := t.now + r.dwell)
    else if c.wasLocked then c.(wasLocked := false, hangUntil := t.now + r.hang)
    else c
  }

  predicate Due(r: Receiver, c: Cursor, t: Tick) {
    var n := Noted(r, c, t);
    !t.locked && n.hangUntil <= t.now && (!n.tuned || t.now >= n.nextRetune)
  }

  function Step(r: Receiver, c: Cursor, t: Tick): Cursor
    requires Scans(r)
  {
    var n := Noted(r, c, t);
    if Due(r, c, t)
    then n.(index := (n.index + 1) % r.targets, nextRetune := t.now + r.dwell, tuned := true)
    else n
  }

  // The cursor after some ticks.
  function After(r: Receiver, ticks: seq<Tick>): Cursor
    requires Scans(r)
  {
    if ticks == [] then FRESH
    else Step(r, After(r, ticks[..|ticks| - 1]), ticks[|ticks| - 1])
  }

  // Whether tick i tunes, and to which target.
  predicate TunesAt(r: Receiver, ticks: seq<Tick>, i: nat)
    requires Scans(r) && i < |ticks|
  {
    Due(r, After(r, ticks[..i]), ticks[i])
  }

  function TargetAt(r: Receiver, ticks: seq<Tick>, i: nat): nat
    requires Scans(r) && i < |ticks|
  {
    After(r, ticks[..i]).index % r.targets
  }

  function TuneCount(r: Receiver, ticks: seq<Tick>): nat
    requires Scans(r)
  {
    if ticks == [] then 0
    else TuneCount(r, ticks[..|ticks| - 1]) + (if TunesAt(r, ticks, |ticks| - 1) then 1 else 0)
  }

  // ------------------------------------------------------------ the scheduler

  function CursorOf(cursors: map<int, Cursor>, id: int): Cursor {
    if id in cursors then cursors[id] else FRESH
  }

  // A receiver without a status counts as not locked; the first status of an id is used.
  function IsLocked(statuses: seq<(int, bool)>, id: int): bool {
    if statuses == [] then false
    else if statuses[0].0 == id then statuses[0].1
    else IsLocked(statuses[1..], id)
  }

  predicate UniqueIds(receivers: seq<Receiver>) {
    forall i, j | 0 <= i < j < |receivers| :: receivers[i].id != receivers[j].id
  }

  // What one receiver is told in a tick.
  function Told(r: Receiver, c: Cursor, t: Tick): seq<Tune> {
    if Scans(r) && Due(r, c, t) then [Tune(r.id, c.index % r.targets)] else []
  }

  // The cursors after the receivers took their turns; receivers with one id share a cursor.
  function Ticked(receivers: seq<Receiver>, cursors: map<int, Cursor>, statuses: seq<(int, bool)>, now: nat)
    : map<int, Cursor>
  {
    if receivers == [] then cursors
    else
      var last := receivers[|receivers| - 1];
      var before := Ticked(receivers[..|receivers| - 1], cursors, statuses, now);
      if Scans(last) then
        before[last.id := Step(last, CursorOf(before, last.id), Tick(IsLocked(statuses, last.id), now))]
      else before
  }

  function AllTold(receivers: seq<Receiver>, cursors: map<int, Cursor>, statuses: seq<(int, bool)>, now: nat)
    : seq<Tune>
  {
    if receivers == [] then []
    else
      var before, last := receivers[..|receivers| - 1], receivers[|receivers| - 1];
      AllTold(before, cursors, statuses, now)
      + Told(last, CursorOf(Ticked(before, cursors, statuses, now), last.id), Tick(IsLocked(statuses, last.id), now))
  }

  // What each receiver would be told from the cursors at the start of the tick.
  function EachTold(receivers: seq<Receiver>, cursors: map<int, Cursor>, statuses: seq<(int, bool)>, now: nat)
    : seq<Tune>
  {
    if receivers == [] then []
    else
      var last := receivers[|receivers| - 1];
      EachTold(receivers[..|receivers| - 1], cursors, statuses, now)
      + Told(last, CursorOf(cursors, last.id), Tick(IsLocked(statuses, last.id), now))
  }

  class Scheduler {
    const receivers: seq<Receiver>
    var cursors: map<int, Cursor>

    constructor (receivers: seq<Receiver>)
      ensures this.receivers == receivers && cursors == map[]
    {
      this.receivers := receivers;
      cursors := map[];
    }

    method TickOne(receiver: Receiver, locked: bool, now: nat) returns (tunes: seq<Tune>)
      requires Scans(receiver)
      modifies this`cursors
      ensures tunes == Told(receiver, CursorOf(old(cursors), receiver.id), Tick(locked, now))
      ensures cursors ==
              old(cursors)[receiver.id := Step(receiver, CursorOf(old(cursors), receiver.id), Tick(locked, now))]
    {
      tunes := [];
      var cursor := CursorOf(cursors, receiver.id);
      if locked {
        cursor := cursor.(wasLocked := true, hangUntil := 0, nextRetune := now + receiver.dwell);
      } else {
        if cursor.wasLocked {
          cursor := cursor.(wasLocked := false, hangUntil := now + receiver.hang);
        }
        if cursor.hangUntil <= now && (!cursor.tuned || now >= cursor.nextRetune) {
          tunes := [Tune(receiver.id, cursor.index % receiver.targets)];
          cursor := cursor.(index := (cursor.index + 1) % receiver.targets, nextRetune := now + receiver.dwell,
                            tuned := true);
        }
      }
      cursors := cursors[receiver.id := cursor];
    }

    method DoTick(statuses: seq<(int, bool)>, now: nat) returns (tunes: seq<Tune>)
      modifies this`cursors
      ensures tunes == AllTold(receivers, old(cursors), statuses, now)
      ensures cursors == Ticked(receivers, old(cursors), statuses, now)
    {
      hide Step, Due, CursorOf, IsLocked;
      tunes := [];
      var k := 0;
      while k < |receivers|
        invariant 0 <= k <= |receivers|
        invariant tunes == AllTold(receivers[..k], old(cursors), statuses, now)
        invariant cursors == Ticked(receivers[..k], old(cursors), statuses, now)
      {
        var receiver := receivers[k];
        assert receivers[..k + 1][..k] == receivers[..k];
        if Scans(receiver) {
          var told := TickOne(receiver, IsLocked(statuses, receiver.id), now);
          tunes := tunes + told;
        }
        k := k + 1;
      }
      assert receivers[..k] == receivers;
    }
  }

  lemma {:induction false} OtherCursorsStay(receivers: seq<Receiver>, cursors: map<int, Cursor>,
                                            statuses: seq<(int, bool)>, now: nat, id: int)
    requires forall r | r in receivers && Scans(r) :: r.id != id
    ensures CursorOf(Ticked(receivers, cursors, statuses, now), id) == CursorOf(cursors, id)
  {
    hide Step, Due, IsLocked;
    if receivers != [] {
      var last := receivers[|receivers| - 1];
      assert last in receivers;
      OtherCursorsStay(receivers[..|receivers| - 1], cursors, statuses, now, id);
    }
  }

  lemma BeforeTheLast(receivers: seq<Receiver>)
    requires UniqueIds(receivers) && receivers != []
    ensures var before := receivers[..|receivers| - 1];
      UniqueIds(before) && forall r | r in before :: r.id != receivers[|receivers| - 1].id
  {
  }

  lemma {:induction false} OwnStep(receivers: seq<Receiver>, cursors: map<int, Cursor>,
                                   statuses: seq<(int, bool)>, now: nat, r: Receiver)
    requires UniqueIds(receivers) && r in receivers && Scans(r)
    ensures CursorOf(Ticked(receivers, cursors, statuses, now), r.id) ==
            Step(r, CursorOf(cursors, r.id), Tick(IsLocked(statuses, r.id), now))
  {
    hide Step, Due, IsLocked, UniqueIds;
    var before, last := receivers[..|receivers| - 1], receivers[|receivers| - 1];
    BeforeTheLast(receivers);
    if r in before {
      OwnStep(before, cursors, statuses, now, r);
    } else {
      assert r == last;
      OtherCursorsStay(before, cursors, statuses, now, last.id);
    }
  }

  lemma {:induction false} ToldAlone(receivers: seq<Receiver>, cursors: map<int, Cursor>,
                                     statuses: seq<(int, bool)>, now: nat)
    requires UniqueIds(receivers)
    ensures AllTold(receivers, cursors, statuses, now) == EachTold(receivers, cursors, statuses, now)
  {
    hide Told, CursorOf, IsLocked, Ticked, UniqueIds;
    if receivers != [] {
      BeforeTheLast(receivers);
      ToldAlone(receivers[..|receivers| - 1], cursors, statuses, now);
      OtherCursorsStay(receivers[..|receivers| - 1], cursors, statuses, now, receivers[|receivers| - 1].id);
    }
  }

  /** With unique ids every scanning receiver takes its own step from the cursor it had,
      is told what that cursor says, and no other cursor changes. */
  lemma UniqueIdsStepAlone(receivers: seq<Receiver>, cursors: map<int, Cursor>, statuses: seq<(int, bool)>, now: nat)
    requires UniqueIds(receivers)
    ensures AllTold(receivers, cursors, statuses, now) == EachTold(receivers, cursors, statuses, now)
    ensures forall r | r in receivers && Scans(r) ::
              CursorOf(Ticked(receivers, cursors, statuses, now), r.id) ==
              Step(r, CursorOf(cursors, r.id), Tick(IsLocked(statuses, r.id), now))
    ensures forall id | (forall r | r in receivers && Scans(r) :: r.id != id) ::
              CursorOf(Ticked(receivers, cursors, statuses, now), id) == CursorOf(cursors, id)
  {
    hide Step, Scans, CursorOf, IsLocked, Ticked, UniqueIds, AllTold, EachTold;
    ToldAlone(receivers, cursors, statuses, now);
    forall r | r in receivers && Scans(r)
      ensures CursorOf(Ticked(receivers, cursors, statuses, now), r.id) ==
              Step(r, CursorOf(cursors, r.id), Tick(IsLocked(statuses, r.id), now))
    {
      OwnStep(receivers, cursors, statuses, now, r);
    }
    forall id | (forall r | r in receivers && Scans(r) :: r.id != id)
      ensures CursorOf(Ticked(receivers, cursors, statuses, now), id) == CursorOf(cursors, id)
    {
      OtherCursorsStay(receivers, cursors, statuses, now, id);
    }
  }

  // ------------------------------------------------------------- whole runs

  predicate Ordered(ticks: seq<Tick>) {
    forall i, j | 0 <= i < j < |ticks| :: ticks[i].now <= ticks[j].now
  }

  lemma {:induction false} IndexCountsTunes(r: Receiver, ticks: seq<Tick>)
    requires Scans(r)
    ensures After(r, ticks).index == TuneCount(r, ticks) % r.targets
    ensures After(r, ticks).tuned == (TuneCount(r, ticks) > 0)
  {
    if ticks != [] {
      var before, last := ticks[..|ticks| - 1], ticks[|ticks| - 1];
      IndexCountsTunes(r, before);
      NextModulo(TuneCount(r, before), r.targets);
    }
  }

  lemma NextModulo(n: nat, m: nat)
    requires m > 0
    ensures (n % m + 1) % m == (n + 1) % m
  {
    NextModuloOf(n, m, n / m, n % m);
  }

  lemma NextModuloOf(n: nat, m: nat, q: nat, e: nat)
    requires e < m && n == m * q + e
    ensures (e + 1) % m == (n + 1) % m
  {
    if e + 1 < m {
      ModuloOf(e + 1, 0, m, e + 1);
      ModuloOf(n + 1, q, m, e + 1);
    } else {
      assert m * (q + 1) == m * q + m;
      ModuloOf(n + 1, q + 1, m, 0);
      ModuloOf(e + 1, 1, m, 0);
    }
  }

  /** The n-th tune, counting from 0, goes to target n modulo the number of targets. */
  lemma NthTuneGoesToTargetN(r: Receiver, ticks: seq<Tick>, i: nat)
    requires Scans(r) && i < |ticks| && TunesAt(r, ticks, i)
    ensures TargetAt(r, ticks, i) == TuneCount(r, ticks[..i]) % r.targets
    ensures TuneCount(r, ticks[..i + 1]) == TuneCount(r, ticks[..i]) + 1
  {
    IndexCountsTunes(r, ticks[..i]);
    ModuloOf(After(r, ticks[..i]).index, 0, r.targets, After(r, ticks[..i]).index);
    assert ticks[..i + 1][..i] == ticks[..i];
  }

  function Target(n: nat, targets: nat): nat
    requires targets > 0
  {
    n % targets
  }

  // How many tunes after the n-th one target t comes.
  function Wait(n: nat, targets: nat, t: nat): nat
    requires t < targets
  {
    if t >= n % targets then t - n % targets else t - n % targets + targets
  }

  lemma WaitIsExact(n: nat, targets: nat, t: nat, k: nat)
    requires t < targets && k < targets
    ensures Wait(n, targets, t) < targets
    ensures Target(n + k, targets) == t <==> k == Wait(n, targets, t)
  {
    WaitOf(n, targets, t, k, n / targets, n % targets);
  }

  lemma WaitOf(n: nat, targets: nat, t: nat, k: nat, q: nat, e: nat)
    requires t < targets && k < targets && e < targets && n == targets * q + e
    requires e == n % targets
    ensures (n + k) % targets == if e + k < targets then e + k else e + k - targets
  {
    if e + k < targets {
      ModuloOf(n + k, q, targets, e + k);
    } else {
      assert targets * (q + 1) == targets * q + targets;
      ModuloOf(n + k, q + 1, targets, e + k - targets);
    }
  }

  predicate TunesTo(r: Receiver, ticks: seq<Tick>, i: nat, t: nat)
    requires Scans(r) && i < |ticks|
  {
    TunesAt(r, ticks, i) && TargetAt(r, ticks, i) == t
  }

  lemma CountStep(r: Receiver, ticks: seq<Tick>, i: nat)
    requires Scans(r) && i < |ticks|
    ensures TuneCount(r, ticks[..i + 1]) == TuneCount(r, ticks[..i]) + (if TunesAt(r, ticks, i) then 1 else 0)
  {
    assert ticks[..i + 1][..i] == ticks[..i];
  }

  lemma {:induction false} CountsGrow(r: Receiver, ticks: seq<Tick>, i: nat, j: nat)
    requires Scans(r) && i <= j <= |ticks|
    ensures TuneCount(r, ticks[..i]) <= TuneCount(r, ticks[..j])
    decreases j
  {
    hide TuneCount, TunesAt;
    if i < j {
      CountStep(r, ticks, j - 1);
      CountsGrow(r, ticks, i, j - 1);
    }
  }

  // The tick of the tune with number m.
  lemma {:induction false} TuneOfNumber(r: Receiver, ticks: seq<Tick>, from: nat, end: nat, m: nat) returns (i: nat)
    requires Scans(r) && from <= end <= |ticks|
    requires TuneCount(r, ticks[..from]) <= m < TuneCount(r, ticks[..end])
    ensures from <= i < end && TunesAt(r, ticks, i) && TuneCount(r, ticks[..i]) == m
    decreases end
  {
    hide TuneCount, TunesAt;
    CountStep(r, ticks, end - 1);
    var before := TuneCount(r, ticks[..end - 1]);
    if before == m {
      i := end - 1;
    } else {
      i := TuneOfNumber(r, ticks, from, end - 1, m);
    }
  }

  /** In every run, any stretch of ticks with as many tunes as there are targets tunes
      to each target exactly once. */
  lemma EachTargetOnce(r: Receiver, ticks: seq<Tick>, from: nat, end: nat, t: nat)
    requires Scans(r) && from <= end <= |ticks| && t < r.targets
    requires TuneCount(r, ticks[..end]) == TuneCount(r, ticks[..from]) + r.targets
    ensures exists i :: from <= i < end && TunesTo(r, ticks, i, t)
    ensures forall i, j | from <= i < end && from <= j < end && TunesTo(r, ticks, i, t) && TunesTo(r, ticks, j, t) ::
              i == j
  {
    hide TuneCount, TunesAt, TargetAt, Wait, Target;
    var n := TuneCount(r, ticks[..from]);
    WaitIsExact(n, r.targets, t, 0);
    var wait := Wait(n, r.targets, t);
    WaitIsExact(n, r.targets, t, wait);
    var i := TuneOfNumber(r, ticks, from, end, n + wait);
    TargetByNumber(r, ticks, i);
    assert TunesTo(r, ticks, i, t);
    forall j | from <= j < end && TunesTo(r, ticks, j, t)
      ensures i == j
    {
      TargetByNumber(r, ticks, j);
      CountsGrow(r, ticks, from, j);
      CountStep(r, ticks, j);
      CountsGrow(r, ticks, j + 1, end);
      WaitIsExact(n, r.targets, t, TuneCount(r, ticks[..j]) - n);
      SameNumberSameTick(r, ticks, i, j);
    }
  }

  lemma TargetByNumber(r: Receiver, ticks: seq<Tick>, i: nat)
    requires Scans(r) && i < |ticks| && TunesAt(r, ticks, i)
    ensures TargetAt(r, ticks, i) == Target(TuneCount(r, ticks[..i]), r.targets)
  {
    hide TunesAt, TargetAt, TuneCount;
    NthTuneGoesToTargetN(r, ticks, i);
  }

  lemma SameNumberSameTick(r: Receiver, ticks: seq<Tick>, i: nat, j: nat)
    requires Scans(r) && i < |ticks| && j < |ticks| && TunesAt(r, ticks, i) && TunesAt(r, ticks, j)
    requires TuneCount(r, ticks[..i]) == TuneCount(r, ticks[..j])
    ensures i == j
  {
    hide TuneCount, TunesAt;
    if i < j {
      CountStep(r, ticks, i);
      CountsGrow(r, ticks, i + 1, j);
    } else if j < i {
      CountStep(r, ticks, j);
      CountsGrow(r, ticks, j + 1, i);
    }
  }

  // A tick that the next tune must keep a dwell away from.
  predicate Holds(r: Receiver, ticks: seq<Tick>, j: nat)
    requires Scans(r) && j < |ticks|
  {
    ticks[j].locked || TunesAt(r, ticks, j)
  }

  // The first unlocked tick after a locked one.
  predicate LosesAt(ticks: seq<Tick>, j: nat)
    requires j < |ticks|
  {
    0 < j && ticks[j - 1].locked && !ticks[j].locked
  }

  // What the scan promises of tick i, in terms of the earlier ticks alone.
  ghost predicate MayTune(r: Receiver, ticks: seq<Tick>, i: nat)
    requires Scans(r) && i < |ticks|
  {
    && !ticks[i].locked
    && (forall j | 0 <= j <= i && LosesAt(ticks, j) :: ticks[i].now >= ticks[j].now + r.hang)
    && (TuneCount(r, ticks[..i]) == 0 || forall j | 0 <= j < i && Holds(r, ticks, j) ::
          ticks[i].now >= ticks[j].now + r.dwell)
  }

  // nextRetune remembers the latest such tick, hangUntil the latest loss.
  ghost predicate RemembersDwell(r: Receiver, ticks: seq<Tick>)
    requires Scans(r)
  {
    var c := After(r, ticks);
    && (forall j | 0 <= j < |ticks| && Holds(r, ticks, j) :: c.nextRetune >= ticks[j].now + r.dwell)
    && ((!c.tuned && forall j | 0 <= j < |ticks| :: !Holds(r, ticks, j))
        || (exists j :: 0 <= j < |ticks| && Holds(r, ticks, j) && c.nextRetune == ticks[j].now + r.dwell))
  }

  // h is the end of the hang after the latest loss, or 0.
  ghost predicate IsHang(r: Receiver, ticks: seq<Tick>, h: int) {
    && (forall j | 0 <= j < |ticks| && LosesAt(ticks, j) :: h >= ticks[j].now + r.hang)
    && ((h == 0 && forall j | 0 <= j < |ticks| :: !LosesAt(ticks, j))
        || (exists j :: 0 <= j < |ticks| && LosesAt(ticks, j) && h == ticks[j].now + r.hang))
  }

  ghost predicate RemembersHang(r: Receiver, ticks: seq<Tick>)
    requires Scans(r)
  {
    var c := After(r, ticks);
    && c.wasLocked == (ticks != [] && ticks[|ticks| - 1].locked)
    && (if c.wasLocked then c.hangUntil == 0 else IsHang(r, ticks, c.hangUntil))
  }

  lemma PrefixAgrees(r: Receiver, ticks: seq<Tick>, n: nat)
    requires Scans(r) && n <= |ticks| && Ordered(ticks)
    ensures Ordered(ticks[..n])
    ensures forall j | 0 <= j < n ::
              && ticks[..n][j] == ticks[j] && Holds(r, ticks[..n], j) == Holds(r, ticks, j)
              && LosesAt(ticks[..n], j) == LosesAt(ticks, j)
  {
    hide After, Due;
    forall j | 0 <= j < n
      ensures Holds(r, ticks[..n], j) == Holds(r, ticks, j) && LosesAt(ticks[..n], j) == LosesAt(ticks, j)
    {
      assert ticks[..n][..j] == ticks[..j];
    }
  }

  lemma LastTickHangs(r: Receiver, ticks: seq<Tick>)
    requires Scans(r) && ticks != []
    ensures var n := |ticks| - 1;
      var b, c := After(r, ticks[..n]), After(r, ticks);
      && c.wasLocked == ticks[n].locked
      && c.hangUntil == (if ticks[n].locked then 0
                         else if b.wasLocked then ticks[n].now + r.hang else b.hangUntil)
  {
  }

  lemma SameHang(r: Receiver, ticks: seq<Tick>, h: int)
    requires ticks != [] && !LosesAt(ticks, |ticks| - 1) && IsHang(r, ticks[..|ticks| - 1], h)
    ensures IsHang(r, ticks, h)
  {
    var n := |ticks| - 1;
    var before := ticks[..n];
    assert forall j | 0 <= j < n :: before[j] == ticks[j] && LosesAt(before, j) == LosesAt(ticks, j);
    if exists j :: 0 <= j < n && LosesAt(before, j) && h == before[j].now + r.hang {
      var j :| 0 <= j < n && LosesAt(before, j) && h == before[j].now + r.hang;
      assert LosesAt(ticks, j) && h == ticks[j].now + r.hang;
    }
  }

  lemma NewHang(r: Receiver, ticks: seq<Tick>)
    requires ticks != [] && Ordered(ticks) && LosesAt(ticks, |ticks| - 1)
    ensures IsHang(r, ticks, ticks[|ticks| - 1].now + r.hang)
  {
    hide LosesAt;
    LaterIsLater(ticks);
  }

  lemma {:induction false} RunRemembersHang(r: Receiver, ticks: seq<Tick>)
    requires Scans(r) && Ordered(ticks)
    ensures RemembersHang(r, ticks)
  {
    hide Holds, Step, Due, IsHang;
    if ticks == [] {
      NoHang(r);
    } else {
      var n := |ticks| - 1;
      RunRemembersHang(r, ticks[..n]);
      LastTickHangs(r, ticks);
      if !ticks[n].locked && After(r, ticks[..n]).wasLocked {
        NewHang(r, ticks);
      } else if !ticks[n].locked {
        SameHang(r, ticks, After(r, ticks).hangUntil);
      }
    }
  }

  lemma NoHang(r: Receiver)
    ensures IsHang(r, [], 0)
  {
  }

  lemma LaterIsLater(ticks: seq<Tick>)
    requires Ordered(ticks) && ticks != []
    ensures forall j | 0 <= j < |ticks| :: ticks[j].now <= ticks[|ticks| - 1].now
  {
  }

  lemma LastTick(r: Receiver, ticks: seq<Tick>)
    requires Scans(r) && ticks != []
    ensures var n := |ticks| - 1;
      var b, c := After(r, ticks[..n]), After(r, ticks);
      && c.nextRetune == (if Holds(r, ticks, n) then ticks[n].now + r.dwell else b.nextRetune)
      && (b.tuned ==> c.tuned) && (!Holds(r, ticks, n) ==> c.tuned == b.tuned)
  {
  }

  lemma {:induction false} RunRemembersDwell(r: Receiver, ticks: seq<Tick>)
    requires Scans(r) && Ordered(ticks)
    ensures RemembersDwell(r, ticks)
  {
    hide Ordered, LosesAt, Step, Due, Holds;
    if ticks != [] {
      hide After;
      var n := |ticks| - 1;
      var before := ticks[..n];
      PrefixAgrees(r, ticks, n);
      RunRemembersDwell(r, before);
      LastTick(r, ticks);
      LaterIsLater(ticks);
      var c := After(r, ticks);
      if Holds(r, ticks, n) {
        assert c.nextRetune == ticks[n].now + r.dwell;
      } else if exists j :: 0 <= j < n && Holds(r, before, j) && c.nextRetune == before[j].now + r.dwell {
        var j :| 0 <= j < n && Holds(r, before, j) && c.nextRetune == before[j].now + r.dwell;
        assert Holds(r, ticks, j) && c.nextRetune == ticks[j].now + r.dwell;
      }
    }
  }

  /** A tick tunes exactly when the receiver is not locked, every loss of lock lies a
      hang time back, and, unless nothing was tuned yet, so does every locked or
      tuning tick by a dwell time. */
  lemma TunesExactlyWhenAllowed(r: Receiver, ticks: seq<Tick>, i: nat)
    requires Scans(r) && Ordered(ticks) && i < |ticks|
    ensures TunesAt(r, ticks, i) <==> MayTune(r, ticks, i)
  {
    hide After, Ordered, TuneCount, Holds, LosesAt, Due;
    DueExactly(r, ticks, i);
    if !ticks[i].locked { HangIsOver(r, ticks, i); }
    DwellIsOver(r, ticks, i);
  }

  // What the cursor alone says of tick i.
  lemma DueExactly(r: Receiver, ticks: seq<Tick>, i: nat)
    requires Scans(r) && i < |ticks|
    ensures var b, t := After(r, ticks[..i]), ticks[i];
      TunesAt(r, ticks, i) <==>
        && !t.locked && (b.wasLocked ==> t.now >= t.now + r.hang) && (!b.wasLocked ==> t.now >= b.hangUntil)
        && (b.tuned ==> t.now >= b.nextRetune)
  {
    hide After;
  }

  // No earlier or present loss of lock lies less than a hang time back.
  lemma HangIsOver(r: Receiver, ticks: seq<Tick>, i: nat)
    requires Scans(r) && Ordered(ticks) && i < |ticks| && !ticks[i].locked
    ensures var b, t := After(r, ticks[..i]), ticks[i];
      (if b.wasLocked then t.now >= t.now + r.hang else t.now >= b.hangUntil) <==>
        forall j | 0 <= j <= i && LosesAt(ticks, j) :: t.now >= ticks[j].now + r.hang
  {
    hide After, Ordered, Holds;
    PrefixAgrees(r, ticks, i);
    RunRemembersHang(r, ticks[..i]);
    EarlierIsEarlier(ticks, i);
    assert LosesAt(ticks, i) == After(r, ticks[..i]).wasLocked;
  }

  // No earlier locked or tuning tick lies less than a dwell time back.
  lemma DwellIsOver(r: Receiver, ticks: seq<Tick>, i: nat)
    requires Scans(r) && Ordered(ticks) && i < |ticks|
    ensures var b, t := After(r, ticks[..i]), ticks[i];
      (b.tuned ==> t.now >= b.nextRetune) <==>
        (TuneCount(r, ticks[..i]) == 0
         || forall j | 0 <= j < i && Holds(r, ticks, j) :: t.now >= ticks[j].now + r.dwell)
  {
    hide After, Ordered, Holds, LosesAt, TuneCount;
    PrefixAgrees(r, ticks, i);
    RunRemembersDwell(r, ticks[..i]);
    IndexCountsTunes(r, ticks[..i]);
  }

  lemma EarlierIsEarlier(ticks: seq<Tick>, i: nat)
    requires Ordered(ticks) && i < |ticks|
    ensures forall j | 0 <= j < i :: ticks[j].now <= ticks[i].now
  {
  }
}
