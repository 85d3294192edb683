/** What submitting video brings: which frames wait after each event of a run, and that
    they are the ones shown. */
module OutputSubmission {
  import opened Prelude
  import opened OutputClock
  import opened FallbackMuxer
  import opened OutputRun

  // ---------------------------------------------------------- what waits

  /** In every run a frame of fallback video that is later than the last one let through
      waits behind the session's waiting frames when fewer than two wait, and is dropped
      otherwise; a frame that is not later changes nothing. If another source was on, the
      frame alone waits, in a session that starts at the next frame number. */
  lemma FallbackFrameWaits(events: seq<Event>, settings: Settings, frame: Frame)
    requires settings.samples > 0
    ensures var w, after := Run(events, settings), Run(events + [Submit(frame, "fallback-video")], settings);
      var m, a := w.muxer, after.muxer;
      && (Relative(frame) <= w.decoded ==> after == w)
      && (Relative(frame) > w.decoded ==>
            && after.decoded == Relative(frame) && a.source == "fallback-video" && a.shots == m.shots
            && (m.source == "fallback-video" ==>
                  && a.queue == (if |m.queue| < 2 then m.queue + [frame] else m.queue)
                  && a.session == m.session && a.held == m.held && a.rendered == m.rendered && a.base == m.base)
            && (m.source != "fallback-video" ==>
                  a.queue == [frame] && a.session == m.session + 1 && a.held.None? && a.base == Some(|m.shots|)))
  {
    hide Inv, Relative;
    RunKeepsInv(events, settings);
    var all := events + [Submit(frame, "fallback-video")];
    assert all[..|all| - 1] == events;
    NumberIsCount(Run(events, settings), settings);
    FallbackHasBase(Run(events, settings), settings);
  }

  /** Fallback video without a first number takes the next frame number for it. */
  lemma FirstFrameSetsTheBase(m: Muxer, frame: Frame)
    requires m.source == "fallback-video" && m.base.None?
    ensures SubmittedTo(m, frame, "fallback-video").base == Some(NextPts(m.lastPts))
  {
  }

  lemma NumberIsCount(w: Worker, settings: Settings)
    requires settings.samples > 0 && RunInv(w, settings)
    ensures NextPts(w.muxer.lastPts) == |w.muxer.shots|
  {
  }

  lemma FallbackHasBase(w: Worker, settings: Settings)
    requires settings.samples > 0 && RunInv(w, settings)
    ensures w.muxer.source == "fallback-video" ==> w.muxer.base.Some?
  {
  }

  /** A frame's time counts from the start of its file; a frame without one stands there. */
  lemma FrameTime(frame: Frame)
    ensures frame.pts.Some? ==> Relative(frame) == frame.pts.value
    ensures frame.pts.None? ==> Relative(frame) == 0
  {
  }

  /** A frame of any other source is all that waits. */
  lemma OtherFrameWaits(events: seq<Event>, settings: Settings, frame: Frame, source: string)
    requires settings.samples > 0 && source != "fallback-video"
    ensures var w, after := Run(events, settings), Run(events + [Submit(frame, source)], settings);
      && after.muxer.queue == [frame] && after.muxer.source == source && after.muxer.shots == w.muxer.shots
      && after.muxer.session == (if w.muxer.source == source then w.muxer.session else w.muxer.session + 1)
      && after.decoded == w.decoded
  {
    hide Relative, NextPts;
    var all := events + [Submit(frame, source)];
    assert all[..|all| - 1] == events;
  }

  /** A source that begins starts a session at the next frame number with nothing waiting
      or held; one that ends takes its session with it, and ending another changes nothing. */
  lemma SessionsBeginAndEnd(events: seq<Event>, settings: Settings, source: string)
    requires settings.samples > 0
    ensures var m, b := Run(events, settings).muxer, Run(events + [Begin(source)], settings).muxer;
      && b.source == source && b.queue == [] && b.held.None? && b.rendered.None? && b.base == Some(|m.shots|)
      && b.session == m.session + 1 && b.shots == m.shots
    ensures source == "fallback-video" ==> Run(events + [Begin(source)], settings).decoded == -1
    ensures var m, e := Run(events, settings).muxer, Run(events + [End(source)], settings).muxer;
      if m.source != source then e == m
      else e.source == "submitted" && e.queue == [] && e.held.None? && e.rendered.None? && e.shots == m.shots
           && e.session == m.session + 1
  {
    hide Inv;
    RunKeepsInv(events, settings);
    NumberIsCount(Run(events, settings), settings);
    assert (events + [Begin(source)])[..|events|] == events && (events + [End(source)])[..|events|] == events;
  }

  /** A wanted and fresh write of fallback video takes the frames up to the newest due one and
      leaves the later ones waiting; every other write leaves all of them. */
  lemma WriteLeavesTheLater(events: seq<Event>, settings: Settings, take: Take)
    requires settings.samples > 0
    ensures var m, a := Run(events, settings).muxer, Run(events + [Write(take)], settings).muxer;
      var k := NewestDue(m, m.queue, |m.shots|);
      && a.source == m.source && a.session == m.session && a.base == m.base
      && (m.source == "fallback-video" && take.prefer && take.recent ==> a.queue == m.queue[k + 1..])
      && (m.source != "fallback-video" || !take.prefer || !take.recent ==> a.queue == m.queue)
  {
    hide Inv, Step, NewestDue;
    RunKeepsInv(events, settings);
    RunKeepsClock(events, settings);
    var w := Run(events, settings);
    NumberIsCount(w, settings);
    assert (events + [Write(take)])[..|events|] == events;
    AtMostTwo(w, settings);
    WriteLeaves(w, settings, take);
  }

  lemma AtMostTwo(w: Worker, settings: Settings)
    requires settings.samples > 0 && RunInv(w, settings)
    ensures w.muxer.source == "fallback-video" ==> |w.muxer.queue| <= 2
    ensures WriteIndex(w) == |w.muxer.shots|
  {
  }

  lemma WriteLeaves(w: Worker, settings: Settings, take: Take)
    requires settings.samples > 0 && WriteIndex(w) == |w.muxer.shots|
    requires w.muxer.source == "fallback-video" ==> |w.muxer.queue| <= 2
    ensures var m, a := w.muxer, Step(w, Write(take), settings).muxer;
      var k := NewestDue(m, m.queue, |m.shots|);
      && a.source == m.source && a.session == m.session && a.base == m.base
      && (m.source == "fallback-video" && take.prefer && take.recent ==> a.queue == m.queue[k + 1..])
      && (m.source != "fallback-video" || !take.prefer || !take.recent ==> a.queue == m.queue)
  {
    hide CatchUp, NewestDue, WriteIndex, Chosen, NextPts;
    ChosenKeepsClock(w.muxer, |w.muxer.shots|, take);
    if w.muxer.source == FALLBACK && take.prefer && take.recent {
      FreshChoiceLeaves(w.muxer, |w.muxer.shots|, take);
    } else {
      OtherChoiceLeaves(w.muxer, |w.muxer.shots|, take);
    }
  }

  lemma FreshChoiceLeaves(m: Muxer, index: int, take: Take)
    requires m.source == FALLBACK && |m.queue| <= 2 && take.prefer && take.recent
    ensures Chosen(m, index, take).0.queue == m.queue[NewestDue(m, m.queue, index) + 1..]
  {
    hide Chosen, NewestDue;
    if m.queue == [] {
      NothingBefore(m, index);
      EmptyChoice(m, index, take);
    } else {
      DueChoice(m, index, take);
    }
  }

  lemma EmptyChoice(m: Muxer, index: int, take: Take)
    requires m.queue == []
    ensures Chosen(m, index, take).0.queue == []
  {
  }

  lemma DueChoice(m: Muxer, index: int, take: Take)
    requires m.source == FALLBACK && 1 <= |m.queue| <= 2 && take.prefer && take.recent
    ensures Chosen(m, index, take).0.queue == m.queue[NewestDue(m, m.queue, index) + 1..]
  {
    hide Chosen, NewestDue, HeldPicture;
    ShowsNewestDue(m, index, take);
    var k := NewestDue(m, m.queue, index);
    if k < 0 {
      assert m.queue[0..] == m.queue;
    }
  }

  lemma OtherChoiceLeaves(m: Muxer, index: int, take: Take)
    requires m.source != FALLBACK || !take.prefer || !take.recent
    ensures Chosen(m, index, take).0.queue == m.queue
  {
    hide Sampled, HeldPicture;
  }

  lemma NothingBefore(m: Muxer, index: int)
    requires m.queue == []
    ensures NewestDue(m, m.queue, index) == -1
  {
  }

  // ------------------------------------------------ the decoder's own guard

  // The frames of fallback video submitted since it last began.
  function SinceBegun(events: seq<Event>): seq<Frame> {
    if events == [] then []
    else
      var before, e := SinceBegun(events[..|events| - 1]), events[|events| - 1];
      if e.Begin? && e.source == "fallback-video" then []
      else if e.Submit? && e.source == "fallback-video" then before + [e.frame]
      else before
  }

  // d is the latest of the frames' times, or -1 when none is later.
  predicate IsLatest(frames: seq<Frame>, d: int) {
    && d >= -1 && (forall i | 0 <= i < |frames| :: Relative(frames[i]) <= d)
    && (d == -1 || exists i :: 0 <= i < |frames| && Relative(frames[i]) == d)
  }

  /** The decoder lets a frame through exactly when it is later than every frame of the
      file before it since the video began, and its time is not negative. */
  lemma {:induction false} GuardLetsTheLaterThrough(events: seq<Event>, settings: Settings)
    requires settings.samples > 0
    ensures IsLatest(SinceBegun(events), Run(events, settings).decoded)
  {
    hide IsLatest, Relative, Written, Begun, Ended, SubmittedTo, WriteIndex;
    if events == [] {
      NoneIsLatest();
    } else {
      NoneIsLatest();
      var n := |events| - 1;
      var frames, e := SinceBegun(events[..n]), events[n];
      GuardLetsTheLaterThrough(events[..n], settings);
      if e.Submit? && e.source == "fallback-video" {
        LatestOf(frames, e.frame, Run(events[..n], settings).decoded);
      }
    }
  }

  lemma NoneIsLatest()
    ensures IsLatest([], -1)
  {
  }

  lemma LatestOf(frames: seq<Frame>, frame: Frame, d: int)
    requires IsLatest(frames, d)
    ensures IsLatest(frames + [frame], if Relative(frame) <= d then d else Relative(frame))
  {
    hide Relative;
    var all := frames + [frame];
    assert all[|frames|] == frame && forall i | 0 <= i < |frames| :: all[i] == frames[i];
  }

  // ------------------------------------------------------ what writes then show

  /** A fallback frame let through with room is shown by the next wanted and fresh write at
      or after its number. */
  lemma SubmittedFallbackIsShown(events: seq<Event>, settings: Settings, frame: Frame, take: Take)
    requires settings.samples > 0 && take.prefer && take.recent && take.valid
    requires var w := Run(events, settings);
      && Relative(frame) > w.decoded
      && (w.muxer.source == "fallback-video" ==> |w.muxer.queue| < 2)
      && (if w.muxer.source == "fallback-video" then Base(w.muxer) else |w.muxer.shots|) + Relative(frame)
         <= |w.muxer.shots|
    ensures var n := |Run(events, settings).muxer.shots|;
      var shots := Run(events + [Submit(frame, "fallback-video")] + [Write(take)], settings).muxer.shots;
      |shots| == n + 1 && shots[n].picture == Source(frame)
  {
    hide Run, Inv, LastPicture, Relative;
    FallbackFrameWaits(events, settings, frame);
    var submitted := events + [Submit(frame, "fallback-video")];
    ShowsNewestOrLast(submitted, settings, take);
    EveryWriteKeepsTime(submitted, settings, take);
    RunKeepsInv(events, settings);
    FallbackHasBase(Run(events, settings), settings);
    LastIsDue(Run(submitted, settings).muxer, |Run(submitted, settings).muxer.shots|);
  }

  lemma LastIsDue(m: Muxer, index: int)
    requires m.queue != [] && DuePts(m, m.queue[|m.queue| - 1]) <= index
    ensures NewestDue(m, m.queue, index) == |m.queue| - 1
  {
  }

  // The frame of another source that was submitted last in its session.
  function LastSubmitted(events: seq<Event>, settings: Settings): Option<Frame>
    requires settings.samples > 0
  {
    if events == [] then None
    else
      var before := events[..|events| - 1];
      match events[|events| - 1]
      case Begin(_) => None
      case End(source) => if source == Run(before, settings).muxer.source then None else LastSubmitted(before, settings)
      case Submit(frame, source) =>
        if source != "fallback-video" then Some(frame)
        else if Relative(frame) > Run(before, settings).decoded then None
        else LastSubmitted(before, settings)
      case Restart => None
      case _ => LastSubmitted(before, settings)
  }

  lemma {:induction false} OtherSourceHoldsTheLast(events: seq<Event>, settings: Settings)
    requires settings.samples > 0
    ensures var m := Run(events, settings).muxer;
      m.source != "fallback-video" ==>
        m.queue == (if LastSubmitted(events, settings).Some? then [LastSubmitted(events, settings).value] else [])
  {
    hide Relative, Written, CatchUp, WriteIndex;
    if events != [] {
      var n := |events| - 1;
      var before := events[..n];
      OtherSourceHoldsTheLast(before, settings);
      assert before + [events[n]] == events;
      if events[n].Write? { WriteLeavesTheLater(before, settings, events[n].take); }
    }
  }

  /** In every run a wanted and fresh write of any other source shows the frame submitted
      last in its session, or the slate when there was none. */
  lemma OtherSourceShowsTheLast(events: seq<Event>, settings: Settings, take: Take)
    requires settings.samples > 0 && take.prefer && take.recent && take.valid
    requires Run(events, settings).muxer.source != "fallback-video"
    ensures var n, last := |Run(events, settings).muxer.shots|, LastSubmitted(events, settings);
      var shots := Run(events + [Write(take)], settings).muxer.shots;
      |shots| == n + 1 && shots[n].picture == if last.Some? then Source(last.value) else Slate
  {
    hide CatchUp, LastSubmitted, WriteIndex, NextPts;
    OtherSourceHoldsTheLast(events, settings);
    assert (events + [Write(take)])[..|events|] == events;
  }

  /** A write that does not want submitted video shows the slate. */
  lemma UnwantedShowsTheSlate(events: seq<Event>, settings: Settings, take: Take)
    requires settings.samples > 0 && !take.prefer && take.valid
    ensures var n := |Run(events, settings).muxer.shots|;
      var shots := Run(events + [Write(take)], settings).muxer.shots;
      |shots| == n + 1 && shots[n].picture == Slate
  {
    hide CatchUp, WriteIndex, NextPts;
    assert (events + [Write(take)])[..|events|] == events;
  }
}
