/** Source arbitration, access sessions and notices in the PC gateway's loop
    (runPcGateway of src/daemon.cpp). Times are in milliseconds. */
module PcGateway {
  import opened Prelude

  const DEBOUNCE := 1500
  const HOLD := 10000

  datatype Family = NimOrGateway | Analogue

  // An input; specific says that it names a receiver rather than the gateway.
  datatype Input = Input(name: string, specific: bool, service: string)

  datatype Notice =
    | Live(input: Input)
    | PostAccess(input: Input, duration: int, service: Option<string>, video: Option<string>)

  // What one turn of the loop finds. usable: the analogue source is enabled, present
  // and ready. reload: a new configuration was accepted.
  datatype Turn = Turn(
    now: nat, analogueLock: bool, usable: bool, analogueInput: Input, gateway: Option<Input>,
    streamService: Option<string>, streamVideo: Option<string>, reload: bool)

  datatype Session = Session(
    was: bool, startedAt: nat, input: Option<Input>, service: Option<string>, video: Option<string>)

  const NO_SESSION: Session := Session(false, 0, None, None, None)

  datatype State = State(
    lockedSince: Option<nat>, family: Option<Family>, notice: Option<Notice>, endTone: bool, until: nat,
    pc: Session, analogue: Session)

  const START: State := State(None, None, None, false, 0, NO_SESSION, NO_SESSION)

  // ------------------------------------------------------------- arbitration

  function Since(s: State, t: Turn): Option<nat> {
    if !t.analogueLock then None else if s.lockedSince.Some? then s.lockedSince else Some(t.now)
  }

  function AnalogueCandidate(s: State, t: Turn): Option<Input> {
    if t.usable && t.analogueLock && t.now - Since(s, t).value >= DEBOUNCE then Some(t.analogueInput) else None
  }

  function Candidate(f: Family, s: State, t: Turn): Option<Input> {
    if f.NimOrGateway? then t.gateway else AnalogueCandidate(s, t)
  }

  // The family in charge keeps its place while it has a candidate.
  function FamilyAfter(s: State, t: Turn): Option<Family> {
    var family := if t.reload then None else s.family;
    if family.Some? && Candidate(family.value, s, t).Some? then family
    else if t.gateway.Some? then Some(NimOrGateway)
    else if AnalogueCandidate(s, t).Some? then Some(Analogue)
    else None
  }

  function Active(s: State, t: Turn): Option<Input> {
    if FamilyAfter(s, t).Some? then Candidate(FamilyAfter(s, t).value, s, t) else None
  }

  // ---------------------------------------------------------------- sessions

  // Service and format are remembered when they are told.
  function Noted(x: Session, input: Input, t: Turn): Session {
    var service := if input.service != "" then Some(input.service) else x.service;
    x.(service := if t.streamService.Some? then t.streamService else service,
       video := if t.streamVideo.Some? then t.streamVideo else x.video)
  }

  function PcSession(pc: Session, t: Turn, input: Input): Session {
    var x := if !pc.was then Session(false, t.now, None, None, None) else pc;
    var y := if input.specific || x.input.None? then x.(input := Some(input)) else x;
    Noted(y, input, t).(was := true)
  }

  function AnalogueSession(analogue: Session, t: Turn, input: Input): Session {
    var x := if !analogue.was then Session(false, t.now, Some(input), None, None) else analogue;
    Noted(x.(input := Some(input)), input, t).(was := true)
  }

  function Farewell(x: Session, now: nat): Notice
    requires x.input.Some?
  {
    PostAccess(x.input.value, now - x.startedAt, x.service, x.video)
  }

  predicate Ends(x: Session) {
    x.was && x.input.Some?
  }

  function Closed(x: Session): Session {
    x.(was := false, input := None, service := None, video := None)
  }

  function Sessions(s: State, t: Turn): State {
    var family, active := FamilyAfter(s, t), Active(s, t);
    if family == Some(NimOrGateway) && active.Some? then
      s.(notice := Some(Live(active.value)), endTone := false, pc := PcSession(s.pc, t, active.value),
         analogue := if Ends(s.analogue) then Closed(s.analogue) else s.analogue)
    else if family == Some(Analogue) && active.Some? then
      s.(notice := Some(Live(active.value)), endTone := false,
         until := if Ends(s.pc) then t.now + HOLD else s.until,
         pc := if Ends(s.pc) then s.pc.(was := false) else s.pc,
         analogue := AnalogueSession(s.analogue, t, active.value))
    else if Ends(s.pc) then
      s.(notice := Some(Farewell(s.pc, t.now)), endTone := true, until := t.now + HOLD, pc := s.pc.(was := false))
    else if Ends(s.analogue) then
      s.(notice := Some(Farewell(s.analogue, t.now)), endTone := true, until := t.now + HOLD,
         analogue := Closed(s.analogue))
    else if s.notice.Some? && t.now >= s.until then s.(notice := None, endTone := false)
    else s
  }

  function Step(s: State, t: Turn): State {
    Sessions(s, t).(lockedSince := Since(s, t), family := FamilyAfter(s, t))
  }

  function Run(turns: seq<Turn>): State {
    if turns == [] then START else Step(Run(turns[..|turns| - 1]), turns[|turns| - 1])
  }

  class Gateway {
    var analogueLockedSince: Option<nat>
    var activeSourceFamily: Option<Family>
    var accessNotice: Option<Notice>
    var accessNoticeEndTone: bool
    var accessNoticeUntil: nat
    var pcWasActive: bool
    var pcSessionStartedAt: nat
    var pcSessionInput: Option<Input>
    var pcSessionServiceName: Option<string>
    var pcSessionVideoFormat: Option<string>
    var analogueWasActive: bool
    var analogueSessionStartedAt: nat
    var analogueSessionInput: Option<Input>
    var analogueSessionServiceName: Option<string>
    var analogueSessionVideoFormat: Option<string>

    ghost function Pc(): Session
      reads this
    {
      Session(pcWasActive, pcSessionStartedAt, pcSessionInput, pcSessionServiceName, pcSessionVideoFormat)
    }

    ghost function Ana(): Session
      reads this
    {
      Session(analogueWasActive, analogueSessionStartedAt, analogueSessionInput, analogueSessionServiceName,
              analogueSessionVideoFormat)
    }

    ghost function Abstract(): State
      reads this
    {
      State(analogueLockedSince, activeSourceFamily, accessNotice, accessNoticeEndTone, accessNoticeUntil, Pc(), Ana())
    }

    constructor ()
      ensures Abstract() == START
    {
      analogueLockedSince, activeSourceFamily, accessNotice := None, None, None;
      accessNoticeEndTone, accessNoticeUntil := false, 0;
      pcWasActive, pcSessionStartedAt, pcSessionInput := false, 0, None;
      pcSessionServiceName, pcSessionVideoFormat := None, None;
      analogueWasActive, analogueSessionStartedAt, analogueSessionInput := false, 0, None;
      analogueSessionServiceName, analogueSessionVideoFormat := None, None;
    }

    method Debounce(t: Turn) returns (gated: bool)
      modifies this`analogueLockedSince
      ensures analogueLockedSince == Since(old(Abstract()), t)
      ensures gated == (t.analogueLock && t.now - Since(old(Abstract()), t).value >= DEBOUNCE)
    {
      gated := t.analogueLock;
      if gated {
        if analogueLockedSince.None? {
          analogueLockedSince := Some(t.now);
        }
        if t.now - analogueLockedSince.value < DEBOUNCE {
          gated := false;
        }
      } else {
        analogueLockedSince := None;
      }
    }

    method Arbitrate(t: Turn, analogue: Option<Input>) returns (active: Option<Input>)
      requires analogue.Some? <==> Candidate(Analogue, Abstract(), t).Some?
      requires analogue == Candidate(Analogue, Abstract(), t)
      modifies this`activeSourceFamily
      ensures activeSourceFamily == FamilyAfter(old(Abstract()), t) && active == Active(old(Abstract()), t)
    {
      active := None;
      if t.reload {
        activeSourceFamily := None;
      }
      if activeSourceFamily == Some(NimOrGateway) {
        if t.gateway.Some? {
          active := t.gateway;
        } else {
          activeSourceFamily := None;
        }
      } else if activeSourceFamily == Some(Analogue) {
        if analogue.Some? {
          active := analogue;
        } else {
          activeSourceFamily := None;
        }
      }
      if activeSourceFamily.None? {
        if t.gateway.Some? {
          activeSourceFamily := Some(NimOrGateway);
          active := t.gateway;
        } else if analogue.Some? {
          activeSourceFamily := Some(Analogue);
          active := analogue;
        }
      }
    }

    method NotePcSession(t: Turn, input: Input)
      modifies this`pcWasActive, this`pcSessionStartedAt, this`pcSessionInput, this`pcSessionServiceName,
        this`pcSessionVideoFormat
      ensures Pc() == PcSession(old(Pc()), t, input)
    {
      if !pcWasActive {
        pcSessionStartedAt := t.now;
        pcSessionInput, pcSessionServiceName, pcSessionVideoFormat := None, None, None;
      }
      if input.specific {
        pcSessionInput := Some(input);
      } else if pcSessionInput.None? {
        pcSessionInput := Some(input);
      }
      if input.service != "" {
        pcSessionServiceName := Some(input.service);
      }
      if t.streamService.Some? {
        pcSessionServiceName := t.streamService;
      }
      if t.streamVideo.Some? {
        pcSessionVideoFormat := t.streamVideo;
      }
      pcWasActive := true;
    }

    method NoteAnalogueSession(t: Turn, input: Input)
      modifies this`analogueWasActive, this`analogueSessionStartedAt, this`analogueSessionInput,
        this`analogueSessionServiceName, this`analogueSessionVideoFormat
      ensures Ana() == AnalogueSession(old(Ana()), t, input)
    {
      if !analogueWasActive {
        analogueSessionStartedAt, analogueSessionInput := t.now, Some(input);
        analogueSessionServiceName, analogueSessionVideoFormat := None, None;
      }
      analogueSessionInput := Some(input);
      if input.service != "" {
        analogueSessionServiceName := Some(input.service);
      }
      if t.streamService.Some? {
        analogueSessionServiceName := t.streamService;
      }
      if t.streamVideo.Some? {
        analogueSessionVideoFormat := t.streamVideo;
      }
      analogueWasActive := true;
    }

    method CloseAnalogueSession()
      modifies this`analogueWasActive, this`analogueSessionInput, this`analogueSessionServiceName,
        this`analogueSessionVideoFormat
      ensures Ana() == if Ends(old(Ana())) then Closed(old(Ana())) else old(Ana())
    {
      if analogueWasActive && analogueSessionInput.Some? {
        analogueWasActive := false;
        analogueSessionInput, analogueSessionServiceName, analogueSessionVideoFormat := None, None, None;
      }
    }

    method GatewayActive(t: Turn, input: Input)
      modifies this
      ensures var s := old(Abstract());
        Abstract() == s.(
          notice := Some(Live(input)), endTone := false, pc := PcSession(s.pc, t, input),
          analogue := if Ends(s.analogue) then Closed(s.analogue) else s.analogue)
    {
      hide PcSession;
      accessNotice, accessNoticeEndTone := Some(Live(input)), false;
      NotePcSession(t, input);
      CloseAnalogueSession();
    }

    method AnalogueActive(t: Turn, input: Input)
      modifies this
      ensures var s := old(Abstract());
        Abstract() == s.(
          notice := Some(Live(input)), endTone := false,
          until := if Ends(s.pc) then t.now + HOLD else s.until,
          pc := if Ends(s.pc) then s.pc.(was := false) else s.pc,
          analogue := AnalogueSession(s.analogue, t, input))
    {
      hide AnalogueSession;
      if pcWasActive && pcSessionInput.Some? {
        accessNoticeUntil := t.now + HOLD;
        pcWasActive := false;
      }
      accessNotice, accessNoticeEndTone := Some(Live(input)), false;
      NoteAnalogueSession(t, input);
    }

    method Silent(t: Turn)
      requires Active(Abstract(), t).None?
      modifies this
      ensures Abstract() == Sessions(old(Abstract()), t)
    {
      if pcWasActive && pcSessionInput.Some? {
        accessNotice := Some(PostAccess(pcSessionInput.value, t.now - pcSessionStartedAt, pcSessionServiceName,
                                        pcSessionVideoFormat));
        accessNoticeEndTone, accessNoticeUntil := true, t.now + HOLD;
        pcWasActive := false;
      } else if analogueWasActive && analogueSessionInput.Some? {
        accessNotice := Some(PostAccess(analogueSessionInput.value, t.now - analogueSessionStartedAt,
                                        analogueSessionServiceName, analogueSessionVideoFormat));
        accessNoticeEndTone, accessNoticeUntil := true, t.now + HOLD;
        analogueWasActive := false;
        analogueSessionInput, analogueSessionServiceName, analogueSessionVideoFormat := None, None, None;
      } else if accessNotice.Some? && t.now >= accessNoticeUntil {
        accessNotice, accessNoticeEndTone := None, false;
      }
    }

    method TakeTurn(t: Turn) returns (active: Option<Input>)
      modifies this
      ensures Abstract() == Step(old(Abstract()), t) && active == Active(old(Abstract()), t)
    {
      ghost var s := Abstract();
      var gated := Debounce(t);
      ghost var d := Abstract();
      assert Since(d, t) == Since(s, t) && d == s.(lockedSince := Since(s, t));
      DebouncedAlike(s, t);
      var analogue := if t.usable && gated then Some(t.analogueInput) else None;
      active := Arbitrate(t, analogue);
      var family := activeSourceFamily;
      ghost var a := Abstract();
      assert a == d.(family := FamilyAfter(s, t));
      if family == Some(NimOrGateway) && active.Some? {
        GatewayActive(t, active.value);
      } else if family == Some(Analogue) && active.Some? {
        AnalogueActive(t, active.value);
      } else {
        SettledAlike(s, t);
        Silent(t);
      }
    }
  }

  // Noting the lock first changes nothing in what is chosen.
  lemma DebouncedAlike(s: State, t: Turn)
    ensures var d := s.(lockedSince := Since(s, t));
      && Since(d, t) == Since(s, t) && AnalogueCandidate(d, t) == AnalogueCandidate(s, t)
      && FamilyAfter(d, t) == FamilyAfter(s, t) && Active(d, t) == Active(s, t)
  {
  }

  lemma SettledAlike(s: State, t: Turn)
    requires Active(s, t).None?
    ensures var a := s.(lockedSince := Since(s, t), family := FamilyAfter(s, t));
      Active(a, t).None? && Sessions(a, t) == Sessions(s, t).(lockedSince := Since(s, t), family := FamilyAfter(s, t))
  {
    NothingActive(s, t);
  }

  /** Nothing is active exactly when neither source has a candidate, and the family in
      charge is the one that supplies the active input. */
  lemma NothingActive(s: State, t: Turn)
    ensures Active(s, t).None? <==> t.gateway.None? && AnalogueCandidate(s, t).None?
    ensures FamilyAfter(s, t).Some? <==> Active(s, t).Some?
  {
  }

  // What keeps family f in charge for a turn: a candidate of its own, and after a new
  // configuration also that the gateway, which is asked first, has none before it.
  predicate Defends(f: Family, s: State, t: Turn) {
    Candidate(f, s, t).Some? && (t.reload ==> f.NimOrGateway? || t.gateway.None?)
  }

  lemma DefendsItsPlace(s: State, t: Turn, f: Family)
    requires s.family == Some(f)
    ensures Step(s, t).family == Some(f) <==> Defends(f, s, t)
    ensures Defends(f, s, t) ==> Active(s, t) == Candidate(f, s, t)
  {
  }

  // ------------------------------------------------------------- whole runs

  predicate Ordered(turns: seq<Turn>) {
    forall i, j | 0 <= i < j < |turns| :: turns[i].now <= turns[j].now
  }

  predicate LockedFrom(turns: seq<Turn>, i: nat) {
    forall k | i <= k < |turns| :: turns[k].analogueLock
  }

  // lockedSince is the first turn of the present unbroken run of raw lock.
  lemma {:induction false} SinceIsFirstLock(turns: seq<Turn>)
    requires Ordered(turns)
    ensures var since := Run(turns).lockedSince;
      && (since.None? <==> turns == [] || !turns[|turns| - 1].analogueLock)
      && (since.Some? ==> exists i :: 0 <= i < |turns| && LockedFrom(turns, i) && turns[i].now == since.value)
      && (since.Some? ==> forall i | 0 <= i < |turns| && LockedFrom(turns, i) :: turns[i].now >= since.value)
  {
    hide Sessions, FamilyAfter;
    if turns != [] {
      var n := |turns| - 1;
      var before := turns[..n];
      SinceIsFirstLock(before);
      var since := Run(turns).lockedSince;
      assert since == Since(Run(before), turns[n]);
      assert forall i | 0 <= i < n :: LockedFrom(turns, i) <==> LockedFrom(before, i) && turns[n].analogueLock;
      if since.Some? {
        if Run(before).lockedSince.Some? {
          var i :| 0 <= i < n && LockedFrom(before, i) && before[i].now == since.value;
          assert LockedFrom(turns, i) && turns[i].now == since.value;
        } else {
          assert LockedFrom(turns, n) && turns[n].now == since.value;
          assert forall i | 0 <= i < n :: !LockedFrom(before, i) by {
            assert n > 0 ==> !before[n - 1].analogueLock;
          }
        }
      }
    }
  }

  /** The analogue source is a candidate exactly when it is usable and was raw locked
      on every turn of a window of at least 1500 ms that ends now. */
  lemma AnalogueNeedsStableLock(turns: seq<Turn>, t: Turn)
    requires Ordered(turns + [t])
    ensures AnalogueCandidate(Run(turns), t).Some? <==>
              && t.usable
              && exists i :: 0 <= i <= |turns| && LockedFrom(turns + [t], i) && t.now - (turns + [t])[i].now >= 1500
  {
    hide Sessions, FamilyAfter;
    var all := turns + [t];
    assert all[..|turns|] == turns && all[|turns|] == t;
    SinceIsFirstLock(all);
    var since := Run(all).lockedSince;
    assert since == Since(Run(turns), t);
    if AnalogueCandidate(Run(turns), t).Some? {
      var i :| 0 <= i < |all| && LockedFrom(all, i) && all[i].now == since.value;
      assert t.now - all[i].now >= 1500;
    }
    if t.usable && exists i :: 0 <= i <= |turns| && LockedFrom(all, i) && t.now - all[i].now >= 1500 {
      var i :| 0 <= i <= |turns| && LockedFrom(all, i) && t.now - all[i].now >= 1500;
      assert all[|turns|].analogueLock && since.Some?;
    }
  }

  // A session under way has an input, only one is under way, and it is that of the
  // family in charge.
  predicate SessionsKeep(s: State) {
    && (s.pc.was ==> s.pc.input.Some? && s.family == Some(NimOrGateway))
    && (s.analogue.was ==> s.analogue.input.Some? && s.family == Some(Analogue))
    && (s.family.Some? ==> s.pc.was || s.analogue.was)
    && (s.family.Some? ==> s.notice.Some? && s.notice.value.Live? && !s.endTone)
  }

  lemma StepKeepsSessions(s: State, t: Turn)
    requires SessionsKeep(s)
    ensures SessionsKeep(Step(s, t))
  {
    NothingActive(s, t);
  }

  /** The two session flags are never both set, and one is set exactly while a source
      is active. */
  lemma {:induction false} OneSessionAtATime(turns: seq<Turn>)
    ensures SessionsKeep(Run(turns)) && !(Run(turns).pc.was && Run(turns).analogue.was)
  {
    hide Step;
    if turns != [] {
      OneSessionAtATime(turns[..|turns| - 1]);
      StepKeepsSessions(Run(turns[..|turns| - 1]), turns[|turns| - 1]);
    }
  }

  // The session of the family in charge.
  function Current(s: State): Session
    requires s.family.Some?
  {
    if s.family.value.NimOrGateway? then s.pc else s.analogue
  }

  function SessionOf(s: State, f: Family): Session {
    if f.NimOrGateway? then s.pc else s.analogue
  }

  predicate InCharge(turns: seq<Turn>, i: nat, f: Family) {
    forall k | i < k <= |turns| :: Run(turns[..k]).family == Some(f)
  }

  lemma SessionGoesOn(s: State, t: Turn, f: Family)
    requires SessionsKeep(s) && FamilyAfter(s, t) == Some(f)
    ensures SessionOf(Step(s, t), f).was
    ensures SessionOf(Step(s, t), f).startedAt ==
            if s.family == Some(f) then SessionOf(s, f).startedAt else t.now
  {
    NothingActive(s, t);
  }

  /** A session counts from the turn in which its family took charge, so a farewell
      tells how long it lasted. */
  lemma {:induction false} SessionCountsFromItsStart(turns: seq<Turn>, i: nat, f: Family)
    requires i < |turns| && Run(turns[..i]).family != Some(f) && InCharge(turns, i, f)
    ensures SessionOf(Run(turns), f).was && SessionOf(Run(turns), f).startedAt == turns[i].now
    decreases |turns|
  {
    hide Run, Step, SessionsKeep, FamilyAfter;
    var n := |turns| - 1;
    var before := turns[..n];
    assert turns[..|turns|] == turns;
    OneSessionAtATime(before);
    LastTurn(turns);
    FamilyOfStep(Run(before), turns[n]);
    SessionGoesOn(Run(before), turns[n], f);
    if i < n {
      assert before[..i] == turns[..i];
      assert forall k | i < k <= n :: before[..k] == turns[..k];
      assert before[..n] == before;
      SessionCountsFromItsStart(before, i, f);
    }
  }

  lemma FamilyOfStep(s: State, t: Turn)
    ensures Step(s, t).family == FamilyAfter(s, t)
  {
  }

  predicate DefendsFrom(turns: seq<Turn>, i: nat, f: Family) {
    forall k | i < k < |turns| :: Defends(f, Run(turns[..k]), turns[k])
  }

  lemma {:induction false} ChargeIsDefended(turns: seq<Turn>, i: nat, f: Family)
    requires i < |turns| && Run(turns[..i + 1]).family == Some(f)
    ensures InCharge(turns, i, f) <==> DefendsFrom(turns, i, f)
    decreases |turns|
  {
    hide Run, Step, Defends;
    var n := |turns| - 1;
    var before := turns[..n];
    assert turns[..n + 1] == turns;
    if i < n {
      assert forall k | 0 <= k <= n :: before[..k] == turns[..k];
      ChargeIsDefended(before, i, f);
      assert InCharge(turns, i, f) <==> InCharge(before, i, f) && Run(turns).family == Some(f);
      assert DefendsFrom(turns, i, f) <==> DefendsFrom(before, i, f) && Defends(f, Run(before), turns[n]);
      if InCharge(before, i, f) {
        assert Run(before[..n]).family == Some(f) && before[..n] == before;
        LastTurn(turns);
        DefendsItsPlace(Run(before), turns[n], f);
      }
    }
  }

  lemma {:induction false} SessionStays(turns: seq<Turn>, i: nat, f: Family)
    requires i < |turns| && InCharge(turns, i, f)
    ensures SessionOf(Run(turns), f).was
    ensures SessionOf(Run(turns), f).startedAt == SessionOf(Run(turns[..i + 1]), f).startedAt
    decreases |turns|
  {
    hide Run, Step, SessionsKeep, FamilyAfter;
    var n := |turns| - 1;
    var before := turns[..n];
    assert turns[..n + 1] == turns;
    OneSessionAtATime(before);
    LastTurn(turns);
    FamilyOfStep(Run(before), turns[n]);
    SessionGoesOn(Run(before), turns[n], f);
    if i < n {
      assert forall k | 0 <= k <= n :: before[..k] == turns[..k];
      assert before[..n] == before;
      SessionStays(before, i, f);
    }
  }

  /** From the turn that leaves family f in charge, it stays in charge exactly as long
      as every turn finds a candidate of its own and no new configuration lets the
      gateway in before it; all that while its candidate is the active input, its
      session is the one under way, and that session keeps its start. */
  lemma FamilyStaysInCharge(turns: seq<Turn>, i: nat, f: Family)
    requires i < |turns| && Run(turns[..i + 1]).family == Some(f)
    ensures InCharge(turns, i, f) <==> DefendsFrom(turns, i, f)
    ensures DefendsFrom(turns, i, f) ==>
              var s, other := Run(turns), if f.NimOrGateway? then Analogue else NimOrGateway;
              && SessionOf(s, f).was && !SessionOf(s, other).was
              && SessionOf(s, f).startedAt == SessionOf(Run(turns[..i + 1]), f).startedAt
              && forall k | i < k < |turns| ::
                   Active(Run(turns[..k]), turns[k]) == Candidate(f, Run(turns[..k]), turns[k])
  {
    hide Run, Step, Defends, Active, Candidate, SessionsKeep;
    ChargeIsDefended(turns, i, f);
    if DefendsFrom(turns, i, f) {
      SessionStays(turns, i, f);
      OneSessionAtATime(turns);
      forall k | i < k < |turns|
        ensures Active(Run(turns[..k]), turns[k]) == Candidate(f, Run(turns[..k]), turns[k])
      {
        assert Run(turns[..k]).family == Some(f);
        DefendsItsPlace(Run(turns[..k]), turns[k], f);
      }
    }
  }

  // What the notice says of the family in charge.
  predicate NoticeKeeps(s: State) {
    && (s.family.None? ==> s.notice.Some? ==> s.notice.value.PostAccess?)
    && (s.endTone <==> s.notice.Some? && s.notice.value.PostAccess?)
  }

  lemma StepKeepsNotice(s: State, t: Turn)
    requires SessionsKeep(s) && NoticeKeeps(s)
    ensures NoticeKeeps(Step(s, t))
    ensures Active(s, t).Some? ==> Step(s, t).notice == Some(Live(Active(s, t).value))
    ensures Active(s, t).None? ==> Step(s, t).family.None?
  {
    hide AnalogueCandidate, PcSession, AnalogueSession;
    NothingActive(s, t);
  }

  lemma {:induction false} RunKeepsNotice(turns: seq<Turn>)
    ensures NoticeKeeps(Run(turns))
  {
    hide Step, NoticeKeeps, SessionsKeep;
    if turns == [] {
      StartKeepsNotice();
    } else {
      var before := turns[..|turns| - 1];
      RunKeepsNotice(before);
      OneSessionAtATime(before);
      StepKeepsNotice(Run(before), turns[|turns| - 1]);
    }
  }

  lemma StartKeepsNotice()
    ensures NoticeKeeps(START)
  {
  }

  /** In every run a turn leaves a live notice exactly when a source is active, and it
      names that source's input; the end tone sounds exactly with a farewell. */
  lemma LiveExactlyWhileActive(turns: seq<Turn>, t: Turn)
    ensures var s, active := Run(turns + [t]), Active(Run(turns), t);
      && (s.notice.Some? && s.notice.value.Live? <==> active.Some?)
      && (active.Some? ==> s.notice == Some(Live(active.value)))
      && (s.endTone <==> s.notice.Some? && s.notice.value.PostAccess?)
  {
    hide Step, Active, SessionsKeep;
    var all := turns + [t];
    assert all[..|turns|] == turns;
    OneSessionAtATime(turns);
    RunKeepsNotice(turns);
    StepKeepsNotice(Run(turns), t);
  }

  predicate SilentFrom(turns: seq<Turn>, i: nat) {
    forall k | i <= k < |turns| :: Active(Run(turns[..k]), turns[k]).None?
  }

  // What holds after a farewell, while silence lasts.
  predicate Parting(s: State, farewell: Notice, at: nat, now: nat) {
    && s.family.None? && !s.pc.was && !s.analogue.was && s.until == at + HOLD
    && (if now < at + HOLD then s.notice == Some(farewell) && s.endTone else s.notice.None? && !s.endTone)
  }

  lemma PartingStarts(s: State, t: Turn)
    requires SessionsKeep(s) && s.family.Some? && Active(s, t).None?
    ensures Current(s).input.Some? && Parting(Step(s, t), Farewell(Current(s), t.now), t.now, t.now)
  {
    hide Active, FamilyAfter;
    NothingActive(s, t);
  }

  lemma PartingLasts(s: State, t: Turn, farewell: Notice, at: nat, now: nat)
    requires Parting(s, farewell, at, now) && now <= t.now && Active(s, t).None?
    ensures Parting(Step(s, t), farewell, at, t.now)
  {
    hide Active, FamilyAfter;
    NothingActive(s, t);
  }

  /** When a session ends in silence at turn i, its farewell with the end tone shows for
      10 s of silence and goes at the first silent turn after that; silence brings no
      other notice. */
  lemma {:induction false} FarewellIsHeld(turns: seq<Turn>, i: nat)
    requires Ordered(turns) && i < |turns| && Run(turns[..i]).family.Some? && SilentFrom(turns, i)
    ensures var before, s, last := Run(turns[..i]), Run(turns), turns[|turns| - 1].now;
      && Current(before).input.Some?
      && (last < turns[i].now + 10000 ==> s.notice == Some(Farewell(Current(before), turns[i].now)) && s.endTone)
      && (last >= turns[i].now + 10000 ==> s.notice.None?)
  {
    hide Run, Step, Active, SessionsKeep;
    PartingHolds(turns, i);
  }

  lemma LastTurn(turns: seq<Turn>)
    requires turns != []
    ensures Run(turns) == Step(Run(turns[..|turns| - 1]), turns[|turns| - 1])
  {
    hide Step;
  }

  lemma SilentBefore(turns: seq<Turn>, i: nat)
    requires Ordered(turns) && i < |turns| - 1 && SilentFrom(turns, i)
    ensures var before := turns[..|turns| - 1];
      before[..i] == turns[..i] && before[i] == turns[i] && Ordered(before) && SilentFrom(before, i)
    ensures turns[|turns| - 2].now <= turns[|turns| - 1].now
    ensures Active(Run(turns[..|turns| - 1]), turns[|turns| - 1]).None?
  {
    hide Run, Active;
    var before := turns[..|turns| - 1];
    assert forall k | i <= k < |before| :: before[..k] == turns[..k] && before[k] == turns[k];
  }

  lemma {:induction false} PartingHolds(turns: seq<Turn>, i: nat)
    requires Ordered(turns) && i < |turns| && Run(turns[..i]).family.Some? && SilentFrom(turns, i)
    ensures Current(Run(turns[..i])).input.Some?
    ensures Parting(Run(turns), Farewell(Current(Run(turns[..i])), turns[i].now), turns[i].now, turns[|turns| - 1].now)
    decreases |turns|
  {
    hide Run, Step, Active, SessionsKeep, Parting, Ordered;
    var n := |turns| - 1;
    LastTurn(turns);
    if i < n {
      var before := turns[..n];
      SilentBefore(turns, i);
      PartingHolds(before, i);
      PartingLasts(Run(before), turns[n], Farewell(Current(Run(turns[..i])), turns[i].now), turns[i].now,
                   turns[n - 1].now);
    } else {
      OneSessionAtATime(turns[..i]);
      PartingStarts(Run(turns[..i]), turns[i]);
    }
  }
}
