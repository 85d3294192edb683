/** Whole rounds of the scan scheduler over all its receivers: what each is told, and when. */
module ScanRounds {
  import opened Prelude
  import opened ScanScheduler

  // One tick of the scheduler, with the statuses it is given.
  datatype Round = Round(statuses: seq<(int, bool)>, now: nat)

  // The cursors after a run of ticks.
  function CursorsAfter(receivers: seq<Receiver>, rounds: seq<Round>): map<int, Cursor> {
    if rounds == [] then map[]
    else
      var last := rounds[|rounds| - 1];
      Ticked(receivers, CursorsAfter(receivers, rounds[..|rounds| - 1]), last.statuses, last.now)
  }

  // What the last tick of a run tells.
  function ToldLast(receivers: seq<Receiver>, rounds: seq<Round>): seq<Tune>
    requires rounds != []
  {
    var last := rounds[|rounds| - 1];
    AllTold(receivers, CursorsAfter(receivers, rounds[..|rounds| - 1]), last.statuses, last.now)
  }

  // What one receiver sees of a run.
  function TicksOf(id: int, rounds: seq<Round>): (ticks: seq<Tick>)
    ensures |ticks| == |rounds|
  {
    if rounds == [] then []
    else
      var last := rounds[|rounds| - 1];
      TicksOf(id, rounds[..|rounds| - 1]) + [Tick(IsLocked(last.statuses, id), last.now)]
  }

  /** A receiver counts as locked exactly when the first status with its id says so. */
  lemma {:induction false} FirstStatusCounts(statuses: seq<(int, bool)>, id: int)
    ensures IsLocked(statuses, id) <==>
              exists i :: 0 <= i < |statuses| && statuses[i] == (id, true)
                          && forall j | 0 <= j < i :: statuses[j].0 != id
  {
    if statuses != [] && statuses[0].0 == id {
      if statuses[0].1 { assert statuses[0] == (id, true); }
    } else if statuses != [] {
      var rest := statuses[1..];
      FirstStatusCounts(rest, id);
      if IsLocked(rest, id) {
        var i :| 0 <= i < |rest| && rest[i] == (id, true) && forall j | 0 <= j < i :: rest[j].0 != id;
        assert statuses[i + 1] == (id, true);
        assert forall j | 0 < j < i + 1 :: statuses[j] == rest[j - 1];
      }
      if i :| 0 <= i < |statuses| && statuses[i] == (id, true) && forall j | 0 <= j < i :: statuses[j].0 != id {
        assert i > 0 && rest[i - 1] == (id, true);
        assert forall j | 0 <= j < i - 1 :: rest[j] == statuses[j + 1];
      }
    }
  }

  /** In every run each scanning receiver's cursor is the one its own ticks lead to. */
  lemma {:induction false} RunDrivesEach(receivers: seq<Receiver>, rounds: seq<Round>, r: Receiver)
    requires UniqueIds(receivers) && r in receivers && Scans(r)
    ensures CursorOf(CursorsAfter(receivers, rounds), r.id) == After(r, TicksOf(r.id, rounds))
  {
    hide Step, IsLocked, UniqueIds, Ticked;
    if rounds != [] {
      var before, last := rounds[..|rounds| - 1], rounds[|rounds| - 1];
      RunDrivesEach(receivers, before, r);
      OwnStep(receivers, CursorsAfter(receivers, before), last.statuses, last.now, r);
      assert TicksOf(r.id, rounds)[..|before|] == TicksOf(r.id, before);
    }
  }

  // A receiver that is told something.
  predicate IsTold(r: Receiver, cursors: map<int, Cursor>, round: Round) {
    Scans(r) && Due(r, CursorOf(cursors, r.id), Tick(IsLocked(round.statuses, r.id), round.now))
  }

  // The tunes of a tick, receiver by receiver.
  lemma {:induction false} EachToldHas(receivers: seq<Receiver>, cursors: map<int, Cursor>, round: Round, x: Tune)
    ensures x in EachTold(receivers, cursors, round.statuses, round.now) <==>
              exists r :: r in receivers && IsTold(r, cursors, round) && x.receiver == r.id
                          && x.target == CursorOf(cursors, r.id).index % r.targets
  {
    hide Due, CursorOf, IsLocked;
    if receivers != [] {
      var before, last := receivers[..|receivers| - 1], receivers[|receivers| - 1];
      EachToldHas(before, cursors, round, x);
      assert forall r :: r in receivers <==> r in before || r == last by { assert receivers == before + [last]; }
    }
  }

  predicate NobodyTwice(tunes: seq<Tune>) {
    forall i, j | 0 <= i < j < |tunes| :: tunes[i].receiver != tunes[j].receiver
  }

  lemma {:induction false} EachIsToldOnce(receivers: seq<Receiver>, cursors: map<int, Cursor>, round: Round)
    requires UniqueIds(receivers)
    ensures NobodyTwice(EachTold(receivers, cursors, round.statuses, round.now))
  {
    hide Due, CursorOf, IsLocked, UniqueIds;
    if receivers != [] {
      var before, last := receivers[..|receivers| - 1], receivers[|receivers| - 1];
      BeforeTheLast(receivers);
      EachIsToldOnce(before, cursors, round);
      var earlier := EachTold(before, cursors, round.statuses, round.now);
      forall i | 0 <= i < |earlier|
        ensures earlier[i].receiver != last.id
      {
        assert earlier[i] in earlier;
        EachToldHas(before, cursors, round, earlier[i]);
      }
      var told := Told(last, CursorOf(cursors, last.id), Tick(IsLocked(round.statuses, last.id), round.now));
      var tunes := EachTold(receivers, cursors, round.statuses, round.now);
      assert tunes == earlier + told && |told| <= 1;
    }
  }

  /** In every run a tick tells a receiver to tune to a target exactly when the receiver scans,
      its own ticks say that it tunes now, and that is its target; and no receiver twice. */
  lemma RoundTellsTheTunes(receivers: seq<Receiver>, rounds: seq<Round>)
    requires UniqueIds(receivers) && rounds != []
    ensures var tunes, n := ToldLast(receivers, rounds), |rounds| - 1;
      && (forall x :: x in tunes <==>
            exists r :: r in receivers && Scans(r) && x.receiver == r.id
                        && TunesTo(r, TicksOf(r.id, rounds), n, x.target))
      && NobodyTwice(tunes)
  {
    hide Due, CursorOf, IsLocked, UniqueIds, TicksOf, TunesTo, EachTold, AllTold, IsTold;
    var before, last, n := rounds[..|rounds| - 1], rounds[|rounds| - 1], |rounds| - 1;
    var cursors := CursorsAfter(receivers, before);
    ToldAlone(receivers, cursors, last.statuses, last.now);
    EachIsToldOnce(receivers, cursors, last);
    forall r | r in receivers && Scans(r)
      ensures IsTold(r, cursors, last) <==> TunesAt(r, TicksOf(r.id, rounds), n)
      ensures TargetAt(r, TicksOf(r.id, rounds), n) == CursorOf(cursors, r.id).index % r.targets
    {
      ToldByItsTicks(receivers, rounds, r);
    }
    forall x: Tune
      ensures x in ToldLast(receivers, rounds) <==>
              exists r :: r in receivers && Scans(r) && x.receiver == r.id
                          && TunesTo(r, TicksOf(r.id, rounds), n, x.target)
    {
      EachToldHas(receivers, cursors, last, x);
      TunesToOf(receivers, rounds, x.target);
      ToldScans(receivers, cursors, last);
    }
  }

  lemma FreshTunes(r: Receiver, round: Round, t: nat)
    requires Scans(r)
    ensures TunesTo(r, TicksOf(r.id, [round]), 0, t) <==> !IsLocked(round.statuses, r.id) && t == 0
  {
    assert [round][..0] == [];
    var ticks := TicksOf(r.id, [round]);
    assert ticks == [Tick(IsLocked(round.statuses, r.id), round.now)] && ticks[..0] == [];
  }

  /** The first tick tunes exactly the receivers that are enabled, have a target and are not
      locked, each to its first target. */
  lemma FirstTickTunes(receivers: seq<Receiver>, round: Round)
    requires UniqueIds(receivers)
    ensures forall x :: x in ToldLast(receivers, [round]) <==>
              exists r :: r in receivers && r.enabled && r.targets > 0 && !IsLocked(round.statuses, r.id)
                          && x == Tune(r.id, 0)
  {
    hide IsLocked, UniqueIds, TicksOf, TunesTo, ToldLast;
    RoundTellsTheTunes(receivers, [round]);
    forall r, t: nat | r in receivers && Scans(r)
      ensures TunesTo(r, TicksOf(r.id, [round]), 0, t) <==> !IsLocked(round.statuses, r.id) && t == 0
    {
      FreshTunes(r, round, t);
    }
  }

  lemma ToldScans(receivers: seq<Receiver>, cursors: map<int, Cursor>, round: Round)
    ensures forall r | IsTold(r, cursors, round) :: Scans(r)
  {
  }

  lemma TunesToOf(receivers: seq<Receiver>, rounds: seq<Round>, t: nat)
    requires rounds != []
    ensures forall r | r in receivers && Scans(r) ::
              TunesTo(r, TicksOf(r.id, rounds), |rounds| - 1, t) <==>
              TunesAt(r, TicksOf(r.id, rounds), |rounds| - 1) && TargetAt(r, TicksOf(r.id, rounds), |rounds| - 1) == t
  {
  }

  lemma ToldByItsTicks(receivers: seq<Receiver>, rounds: seq<Round>, r: Receiver)
    requires UniqueIds(receivers) && rounds != [] && r in receivers && Scans(r)
    ensures var n := |rounds| - 1;
      var cursors := CursorsAfter(receivers, rounds[..n]);
      && (IsTold(r, cursors, rounds[n]) <==> TunesAt(r, TicksOf(r.id, rounds), n))
      && TargetAt(r, TicksOf(r.id, rounds), n) == CursorOf(cursors, r.id).index % r.targets
  {
    hide Due, CursorOf, IsLocked, UniqueIds, After, CursorsAfter;
    var n := |rounds| - 1;
    RunDrivesEach(receivers, rounds[..n], r);
    assert TicksOf(r.id, rounds)[..n] == TicksOf(r.id, rounds[..n]);
  }
}
