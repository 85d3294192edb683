/** What the access sessions of the PC gateway remember, and what a farewell says of them. */
module PcSessions {
  import opened Prelude
  import opened PcGateway

  // ---------------------------------------------------- what was told since turn i

  // The service told last: by the stream, else by the input.
  function LastService(turns: seq<Turn>, i: nat): Option<string> {
    if |turns| <= i then None
    else
      var before, t := turns[..|turns| - 1], turns[|turns| - 1];
      var active := Active(Run(before), t);
      if t.streamService.Some? then t.streamService
      else if active.Some? && active.value.service != "" then Some(active.value.service)
      else LastService(before, i)
  }

  // The video format told last.
  function LastVideo(turns: seq<Turn>, i: nat): Option<string> {
    if |turns| <= i then None
    else if turns[|turns| - 1].streamVideo.Some? then turns[|turns| - 1].streamVideo
    else LastVideo(turns[..|turns| - 1], i)
  }

  // The last input that named a receiver, else the first of all.
  function NamedInput(turns: seq<Turn>, i: nat): Option<Input> {
    if |turns| <= i then None
    else
      var before := turns[..|turns| - 1];
      var active := Active(Run(before), turns[|turns| - 1]);
      if active.Some? && (active.value.specific || NamedInput(before, i).None?) then active else NamedInput(before, i)
  }

  function LastInput(turns: seq<Turn>): Option<Input> {
    if turns == [] then None else Active(Run(turns[..|turns| - 1]), turns[|turns| - 1])
  }

  // A session with everything that was told in it.
  predicate Remembers(x: Session, turns: seq<Turn>, i: nat, f: Family)
    requires i < |turns|
  {
    && x.was && x.startedAt == turns[i].now
    && x.service == LastService(turns, i) && x.video == LastVideo(turns, i)
    && x.input == (if f.NimOrGateway? then NamedInput(turns, i) else LastInput(turns))
  }

  // One more turn of the family in charge, as its session takes it.
  function NextSession(x: Session, t: Turn, input: Input, f: Family): Session {
    if f.NimOrGateway? then PcSession(x, t, input) else AnalogueSession(x, t, input)
  }

  lemma StepGoesOn(s: State, t: Turn, f: Family)
    requires FamilyAfter(s, t) == Some(f)
    ensures Active(s, t).Some? && SessionOf(Step(s, t), f) == NextSession(SessionOf(s, f), t, Active(s, t).value, f)
  {
    hide PcSession, AnalogueSession;
    NothingActive(s, t);
  }

  lemma SessionBegins(x: Session, t: Turn, input: Input, f: Family)
    requires !x.was
    ensures var y := NextSession(x, t, input, f);
      && y.was && y.startedAt == t.now && y.input == Some(input) && y.video == t.streamVideo
      && y.service == (if t.streamService.Some? then t.streamService
                       else if input.service != "" then Some(input.service) else None)
  {
  }

  lemma SessionContinues(x: Session, t: Turn, input: Input, f: Family)
    requires x.was && x.input.Some?
    ensures var y := NextSession(x, t, input, f);
      && y.was && y.startedAt == x.startedAt
      && y.input == (if f.Analogue? || input.specific then Some(input) else x.input)
      && y.video == (if t.streamVideo.Some? then t.streamVideo else x.video)
      && y.service == (if t.streamService.Some? then t.streamService
                       else if input.service != "" then Some(input.service) else x.service)
  {
  }

  lemma IdleWithoutCharge(s: State, f: Family)
    requires SessionsKeep(s)
    ensures s.family != Some(f) ==> !SessionOf(s, f).was
    ensures SessionOf(s, f).was ==> SessionOf(s, f).input.Some?
  {
  }

  lemma LastTurnTold(turns: seq<Turn>, i: nat)
    requires i < |turns|
    ensures var n := |turns| - 1;
      var before, t, active := turns[..n], turns[n], Active(Run(turns[..n]), turns[n]);
      && LastInput(turns) == active
      && LastVideo(turns, i) == (if t.streamVideo.Some? then t.streamVideo else LastVideo(before, i))
      && LastService(turns, i) == (if t.streamService.Some? then t.streamService
                                   else if active.Some? && active.value.service != "" then Some(active.value.service)
                                   else LastService(before, i))
      && NamedInput(turns, i) == (if active.Some? && (active.value.specific || NamedInput(before, i).None?) then active
                                  else NamedInput(before, i))
      && (n == i ==> LastVideo(before, i).None? && LastService(before, i).None? && NamedInput(before, i).None?)
  {
    hide Active, Run;
  }

  lemma {:induction false} SomeoneIsNamed(turns: seq<Turn>, i: nat, f: Family)
    requires i < |turns| && InCharge(turns, i, f)
    ensures NamedInput(turns, i).Some?
    decreases |turns|
  {
    hide Active, Run;
    var n := |turns| - 1;
    LastTurnTold(turns, i);
    assert turns[..n + 1] == turns;
    LastTurn(turns);
    FamilyOfStep(Run(turns[..n]), turns[n]);
    NothingActive(Run(turns[..n]), turns[n]);
  }

  /** From the turn in which a family takes charge its session remembers, in every run: when
      that was; the service and the video format told last; and its input, for the PC the
      last that named a receiver, or else the first, and for analogue the last. */
  lemma {:induction false} SessionRemembers(turns: seq<Turn>, i: nat, f: Family)
    requires i < |turns| && Run(turns[..i]).family != Some(f) && InCharge(turns, i, f)
    ensures Remembers(SessionOf(Run(turns), f), turns, i, f)
    decreases |turns|
  {
    hide Run, Step, SessionsKeep, FamilyAfter, Active, LastService, LastVideo, NamedInput, LastInput, NextSession;
    var n := |turns| - 1;
    var before, t := turns[..n], turns[n];
    assert turns[..n + 1] == turns;
    OneSessionAtATime(before);
    LastTurn(turns);
    FamilyOfStep(Run(before), t);
    StepGoesOn(Run(before), t, f);
    LastTurnTold(turns, i);
    IdleWithoutCharge(Run(before), f);
    var x, input := SessionOf(Run(before), f), Active(Run(before), t).value;
    if i == n {
      SessionBegins(x, t, input, f);
    } else {
      assert forall k | 0 <= k <= n :: before[..k] == turns[..k];
      assert before[..n] == before;
      SessionRemembers(before, i, f);
      SomeoneIsNamed(before, i, f);
      SessionContinues(x, t, input, f);
    }
  }

  /** When silence ends a session that took charge at turn i, the farewell shows with the end
      tone: it names the session's input, counts its length from turn i, and gives the
      service and the format told last in it. */
  lemma FarewellTellsTheSession(turns: seq<Turn>, t: Turn, i: nat, f: Family)
    requires i < |turns| && Run(turns[..i]).family != Some(f) && InCharge(turns, i, f)
    requires Active(Run(turns), t).None?
    ensures var s := Run(turns + [t]);
      var input := if f.NimOrGateway? then NamedInput(turns, i) else LastInput(turns);
      && input.Some?
      && s.notice == Some(PostAccess(input.value, t.now - turns[i].now, LastService(turns, i), LastVideo(turns, i)))
      && s.endTone && s.until == t.now + 10000 && !s.pc.was && !s.analogue.was && s.family.None?
  {
    hide Run, Active, LastService, LastVideo, NamedInput, LastInput, SessionsKeep, FamilyAfter;
    OneSessionAtATime(turns);
    SessionRemembers(turns, i, f);
    IdleWithoutCharge(Run(turns), f);
    var all := turns + [t];
    assert all[..|turns|] == turns && turns[..|turns|] == turns;
    LastTurn(all);
    SilenceEnds(Run(turns), t, f);
  }

  lemma SilenceEnds(s: State, t: Turn, f: Family)
    requires SessionsKeep(s) && s.family == Some(f) && Active(s, t).None?
    ensures var x, u := SessionOf(s, f), Step(s, t);
      && x.input.Some?
      && u.notice == Some(PostAccess(x.input.value, t.now - x.startedAt, x.service, x.video))
      && u.endTone && u.until == t.now + 10000 && !u.pc.was && !u.analogue.was && u.family.None?
  {
    hide Active, FamilyAfter;
    NothingActive(s, t);
  }

  // ------------------------------------------------- what ended sessions leave

  // An analogue session that is over is forgotten.
  predicate AnalogueForgets(s: State) {
    !s.analogue.was ==> s.analogue.input.None? && s.analogue.service.None? && s.analogue.video.None?
  }

  lemma StepForgets(s: State, t: Turn)
    requires SessionsKeep(s) && AnalogueForgets(s)
    ensures AnalogueForgets(Step(s, t))
  {
    hide Active, FamilyAfter, PcSession;
  }

  lemma {:induction false} RunForgets(turns: seq<Turn>)
    ensures AnalogueForgets(Run(turns))
  {
    hide Step, SessionsKeep;
    if turns != [] {
      RunForgets(turns[..|turns| - 1]);
      OneSessionAtATime(turns[..|turns| - 1]);
      StepForgets(Run(turns[..|turns| - 1]), turns[|turns| - 1]);
    }
  }

  // 10 s from the last session that silence ended, or that analogue took from the PC.
  function HoldUntil(turns: seq<Turn>): nat {
    if turns == [] then 0
    else
      var before, t := turns[..|turns| - 1], turns[|turns| - 1];
      var s := Run(before);
      if s.family.Some? && Active(s, t).None? then t.now + 10000
      else if s.family == Some(NimOrGateway) && FamilyAfter(s, t) == Some(Analogue) then t.now + 10000
      else HoldUntil(before)
  }

  lemma StepHolds(s: State, t: Turn)
    requires SessionsKeep(s)
    ensures Step(s, t).until ==
            if s.family.Some? && Active(s, t).None? then t.now + 10000
            else if s.family == Some(NimOrGateway) && FamilyAfter(s, t) == Some(Analogue) then t.now + 10000
            else s.until
  {
    hide AnalogueCandidate, PcSession, AnalogueSession;
    NothingActive(s, t);
  }

  /** In every run notices are held for 10 s from the last ending. */
  lemma {:induction false} RunHolds(turns: seq<Turn>)
    ensures Run(turns).until == HoldUntil(turns)
  {
    hide Step, SessionsKeep, Active, FamilyAfter;
    if turns != [] {
      RunHolds(turns[..|turns| - 1]);
      OneSessionAtATime(turns[..|turns| - 1]);
      StepHolds(Run(turns[..|turns| - 1]), turns[|turns| - 1]);
    }
  }
}
