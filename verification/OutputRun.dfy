/** Whole runs of the worker and the output muxer: numbering, audio, and the order of
    the fallback video that is shown. */
module OutputRun {
  import opened Prelude
  import opened OutputClock
  import opened FallbackMuxer

  datatype Event =
    | Begin(source: string)
    | End(source: string)
    | Submit(frame: Frame, source: string)
    | Write(take: Take)
    | Restart
    | Resync

  // The worker's frame index, its muxer, and the time of the last frame that the decoder
  // of fallback video let through; -1 before the first.
  datatype Worker = Worker(index: nat, muxer: Muxer, decoded: int)

  const NEW_WORKER: Worker := Worker(0, NEW_MUXER, -1)

  function WriteIndex(w: Worker): nat {
    Max(w.index, NextPts(w.muxer.lastPts))
  }

  // The decoder of fallback video drops a frame that is not later than the one before.
  function Decoded(w: Worker, frame: Frame): Worker {
    if Relative(frame) <= w.decoded then w
    else w.(muxer := SubmittedTo(w.muxer, frame, FALLBACK), decoded := Relative(frame))
  }

  function Step(w: Worker, e: Event, settings: Settings): Worker
    requires settings.samples > 0
  {
    match e
    case Begin(source) => w.(muxer := Begun(w.muxer, source), decoded := if source == FALLBACK then -1 else w.decoded)
    case End(source) => w.(muxer := Ended(w.muxer, source))
    case Submit(frame, source) =>
      if source == FALLBACK then Decoded(w, frame) else w.(muxer := SubmittedTo(w.muxer, frame, source))
    case Write(take) => w.(index := WriteIndex(w) + 1, muxer := Written(w.muxer, settings, WriteIndex(w), take))
    case Restart => w.(index := 0, muxer := NEW_MUXER)
    case Resync => w.(index := Max(0, NextPts(w.muxer.lastPts)))
  }

  function Run(events: seq<Event>, settings: Settings): Worker
    requires settings.samples > 0
  {
    if events == [] then NEW_WORKER
    else Step(Run(events[..|events| - 1], settings), events[|events| - 1], settings)
  }

  // --------------------------------------------------- numbering and audio

  predicate ClockKeeps(w: Worker, settings: Settings)
    requires settings.samples > 0
  {
    var n := |w.muxer.shots|;
    && w.index == n && NextPts(w.muxer.lastPts) == n
    && (forall i | 0 <= i < n :: w.muxer.shots[i].pts == i)
    && w.muxer.audio % settings.samples == 0 && w.muxer.audio <= AudioBefore(n, settings.samples, settings.frameRate)
  }

  lemma {:induction false} CatchUpReaches(audio: nat, settings: Settings, next: nat)
    requires settings.samples > 0 && audio % settings.samples == 0
    requires audio <= AudioTarget(next, SAMPLE_RATE, settings.frameRate)
    ensures CatchUp(audio, settings, next) == AudioBefore(next, settings.samples, settings.frameRate)
    decreases AudioTarget(next, SAMPLE_RATE, settings.frameRate) - audio
  {
    hide AudioTarget;
    if AudioDue(audio, settings.samples, next, SAMPLE_RATE, settings.frameRate) {
      StillWhole(audio, settings.samples);
      CatchUpReaches(audio + settings.samples, settings, next);
    } else {
      FitsExactly(audio, settings.samples, AudioTarget(next, SAMPLE_RATE, settings.frameRate));
    }
  }

  lemma StillWhole(audio: nat, samples: nat)
    requires samples > 0 && audio % samples == 0
    ensures (audio + samples) % samples == 0
  {
    var k := audio / samples;
    assert samples * (k + 1) == samples * k + samples;
    ModuloOf(audio + samples, k + 1, samples, 0);
  }

  lemma WholeFrames(next: nat, samples: nat, frameRate: int)
    requires samples > 0
    ensures AudioBefore(next, samples, frameRate) % samples == 0
    ensures AudioBefore(next, samples, frameRate) <= AudioTarget(next, SAMPLE_RATE, frameRate)
  {
    var t := AudioTarget(next, SAMPLE_RATE, frameRate);
    ModuloOf(AudioBefore(next, samples, frameRate), t / samples, samples, 0);
  }

  // Whatever picture is chosen, exactly one frame goes out and the audio follows.
  lemma WritePutsOutOne(w: Worker, settings: Settings, take: Take)
    requires settings.samples > 0 && ClockKeeps(w, settings)
    ensures var n, after := |w.muxer.shots|, Step(w, Write(take), settings);
      && WriteIndex(w) == n
      && |after.muxer.shots| == n + 1 && after.muxer.shots[..n] == w.muxer.shots && after.muxer.shots[n].pts == n
      && ClockKeeps(after, settings)
      && (take.audioReady ==> after.muxer.audio == AudioBefore(n + 1, settings.samples, settings.frameRate))
      && (!take.audioReady ==> after.muxer.audio == w.muxer.audio)
  {
    hide CatchUp, AudioBefore, Chosen;
    var n, S := |w.muxer.shots|, settings.samples;
    AudioGrows(n, n + 1, S, settings.frameRate);
    WholeFrames(n, S, settings.frameRate);
    WholeFrames(n + 1, S, settings.frameRate);
    CatchUpReaches(w.muxer.audio, settings, n + 1);
    ChosenKeepsClock(w.muxer, n, take);
  }

  lemma ChosenKeepsClock(m: Muxer, index: int, take: Take)
    ensures var p := Chosen(m, index, take).0;
      p == m.(queue := p.queue, held := p.held, rendered := p.rendered)
  {
  }

  // Only writes and restarts touch what the clock counts.
  lemma OthersKeepClock(w: Worker, e: Event, settings: Settings)
    requires settings.samples > 0 && !e.Write? && !e.Restart? && ClockKeeps(w, settings)
    ensures ClockKeeps(Step(w, e, settings), settings)
  {
    hide AudioBefore, Relative;
    var after := Step(w, e, settings);
    assert after.muxer.shots == w.muxer.shots && after.muxer.lastPts == w.muxer.lastPts
      && after.muxer.audio == w.muxer.audio && after.index == w.index;
  }

  lemma RestartKeepsClock(w: Worker, settings: Settings)
    requires settings.samples > 0
    ensures ClockKeeps(Step(w, Restart, settings), settings)
  {
    StartKeepsClock(settings);
  }

  lemma {:induction false} RunKeepsClock(events: seq<Event>, settings: Settings)
    requires settings.samples > 0
    ensures ClockKeeps(Run(events, settings), settings)
  {
    hide Step, ClockKeeps;
    if events == [] {
      StartKeepsClock(settings);
    } else {
      var w, e := Run(events[..|events| - 1], settings), events[|events| - 1];
      RunKeepsClock(events[..|events| - 1], settings);
      if e.Write? {
        WritePutsOutOne(w, settings, e.take);
      } else if e.Restart? {
        RestartKeepsClock(w, settings);
      } else {
        OthersKeepClock(w, e, settings);
      }
    }
  }

  lemma StartKeepsClock(settings: Settings)
    requires settings.samples > 0
    ensures ClockKeeps(NEW_WORKER, settings)
  {
    WholeFrames(0, settings.samples, settings.frameRate);
  }

  /** In every run, each write puts out exactly one video frame, numbered one above the
      last and as the worker counts; and with the audio ready the audio index is then
      exactly the whole audio frames that fit, however long it was not ready. */
  lemma EveryWriteKeepsTime(events: seq<Event>, settings: Settings, take: Take)
    requires settings.samples > 0
    ensures var w := Run(events, settings);
      var n, after := |w.muxer.shots|, Run(events + [Write(take)], settings);
      && WriteIndex(w) == n && |after.muxer.shots| == n + 1
      && after.muxer.shots[..n] == w.muxer.shots && after.muxer.shots[n].pts == n
      && (take.audioReady ==>
            after.muxer.audio == settings.samples * ((n + 1) * 48000 / Max(1, settings.frameRate) / settings.samples))
  {
    hide Step;
    RunKeepsClock(events, settings);
    var all := events + [Write(take)];
    assert all[..|all| - 1] == events;
    WritePutsOutOne(Run(events, settings), settings, take);
  }

  // ---------------------------------------------------------- sample and hold

  // The position of the newest queued frame that is due, or -1.
  function NewestDue(m: Muxer, queue: seq<Frame>, index: int): (k: int)
    ensures -1 <= k < |queue|
    ensures k >= 0 ==> DuePts(m, queue[k]) <= index
    ensures forall i | k < i < |queue| :: DuePts(m, queue[i]) > index
  {
    if queue == [] then -1
    else if DuePts(m, queue[|queue| - 1]) <= index then |queue| - 1
    else NewestDue(m, queue[..|queue| - 1], index)
  }

  lemma PoppedIsNewestDue(m: Muxer, index: int)
    requires 1 <= |m.queue| <= 2
    ensures var k, q := NewestDue(m, m.queue, index), Popped(m, m.queue, index);
      (k >= 0 ==> q == m.queue[k..]) && (k < 0 ==> q == m.queue && DuePts(m, q[0]) > index)
  {
    hide DuePts;
    var k := NewestDue(m, m.queue, index);
    if |m.queue| == 2 && DuePts(m, m.queue[1]) <= index {
      assert Popped(m, m.queue[1..], index) == m.queue[1..];
    } else {
      assert Popped(m, m.queue, index) == m.queue;
      assert m.queue[0..] == m.queue;
    }
  }

  /** With at most two frames queued a write of fallback video shows the newest frame
      that is due and leaves the later ones; if none is due it shows what is held. */
  lemma ShowsNewestDue(m: Muxer, index: int, take: Take)
    requires m.source == FALLBACK && 1 <= |m.queue| <= 2 && take.prefer && take.recent
    ensures var (p, picture) := Chosen(m, index, take);
      var k := NewestDue(m, m.queue, index);
      && (k >= 0 ==> picture == Source(m.queue[k]) && p.held == Some(m.queue[k]) && p.queue == m.queue[k + 1..])
      && (k < 0 ==> picture == HeldPicture(m) && p.held == m.held && p.queue == m.queue)
  {
    hide DuePts, HeldPicture;
    PoppedIsNewestDue(m, index);
  }

  // The decoder's guard: what was submitted of fallback video is no later than its last frame.
  predicate DecoderAhead(w: Worker) {
    w.muxer.source == FALLBACK && w.muxer.newest.Some? ==> w.muxer.newest.value <= w.decoded
  }

  predicate HoldKeeps(m: Muxer) {
    && (m.source == FALLBACK ==> m.base.Some? && |m.queue| <= 2)
    && (m.source != FALLBACK ==> m.held.None? && m.rendered.None?)
    && (m.held.Some? ==> m.rendered == Some(Source(m.held.value)))
    && (m.held.None? && m.rendered.Some? ==> m.rendered.value == Black)
  }

  predicate QueueInOrder(m: Muxer) {
    m.source == FALLBACK ==>
      && (forall i | 0 <= i < |m.queue| ::
            m.newest.Some? && Relative(m.queue[i]) <= m.newest.value
            && (m.held.Some? ==> Relative(m.held.value) < Relative(m.queue[i])))
      && (forall i, j | 0 <= i < j < |m.queue| :: Relative(m.queue[i]) < Relative(m.queue[j]))
      && (m.held.Some? ==> m.newest.Some? && Relative(m.held.value) <= m.newest.value)
  }

  predicate ShowsSource(s: Shot) {
    s.fallback && s.picture.Source?
  }

  // What was shown of the current session is no newer than the held frame.
  predicate ShotsKeep(m: Muxer) {
    forall i | 0 <= i < |m.shots| ::
      var s := m.shots[i];
      && s.session <= m.session
      && (ShowsSource(s) ==> s.base + Relative(s.picture.frame) <= s.pts)
      && (ShowsSource(s) && s.session == m.session ==>
            && m.source == FALLBACK && m.base == Some(s.base)
            && m.held.Some? && Relative(s.picture.frame) <= Relative(m.held.value))
  }

  predicate ShotsInOrder(shots: seq<Shot>) {
    forall i, j | 0 <= i < j < |shots| && ShowsSource(shots[i]) && ShowsSource(shots[j])
      && shots[i].session == shots[j].session ::
      Relative(shots[i].picture.frame) <= Relative(shots[j].picture.frame)
  }

  predicate Inv(m: Muxer) {
    HoldKeeps(m) && QueueInOrder(m) && ShotsKeep(m) && ShotsInOrder(m.shots)
  }

  lemma ClearedKeeps(m: Muxer, source: string, base: Option<int>)
    requires Inv(m) && (source == FALLBACK ==> base.Some?)
    ensures Inv(Cleared(m).(source := source, base := base))
  {
  }

  lemma SubmitKeeps(m: Muxer, frame: Frame, source: string)
    requires Inv(m)
    requires source == FALLBACK && m.source == FALLBACK && m.newest.Some? ==> Relative(frame) > m.newest.value
    ensures Inv(SubmittedTo(m, frame, source))
  {
    hide ShotsInOrder;
    if m.source != source {
      ClearedKeeps(m, source, Some(NextPts(m.lastPts)));
    }
  }

  // A frame that goes out after the choice.
  lemma EmittedKeeps(m: Muxer, settings: Settings, index: nat, picture: Picture, take: Take)
    requires settings.samples > 0 && Inv(m)
    requires picture.Source? && m.source == FALLBACK ==>
               m.held == Some(picture.frame) && DuePts(m, picture.frame) <= NextPts(m.lastPts)
    ensures Inv(Emitted(m, settings, index, picture, take))
  {
    hide CatchUp, NextPts;
  }

  lemma HeldIsShown(m: Muxer)
    requires HoldKeeps(m) && m.source == FALLBACK
    ensures HeldPicture(m).Source? ==> m.held == Some(HeldPicture(m).frame)
    ensures HoldKeeps(Kept(m, HeldPicture(m)))
  {
  }

  lemma SampledHolds(m: Muxer, index: int)
    requires HoldKeeps(m) && m.source == FALLBACK && m.queue != []
    ensures var (p, picture) := Sampled(m, index);
      HoldKeeps(p) && (picture.Source? ==> p.held == Some(picture.frame))
  {
    hide Popped, DuePts, HeldPicture;
    HeldIsShown(m);
  }

  lemma ChosenHolds(m: Muxer, index: int, take: Take)
    requires HoldKeeps(m)
    ensures var (p, picture) := Chosen(m, index, take);
      HoldKeeps(p) && (picture.Source? && p.source == FALLBACK ==> p.held == Some(picture.frame))
  {
    hide Sampled, HeldPicture, HoldKeeps;
    ChosenKeepsClock(m, index, take);
    if m.source == FALLBACK {
      HeldIsShown(m);
      if m.queue != [] { SampledHolds(m, index); }
    }
  }

  lemma ChosenQueues(m: Muxer, index: int, take: Take)
    requires HoldKeeps(m) && QueueInOrder(m)
    ensures QueueInOrder(Chosen(m, index, take).0)
    ensures m.held.Some? && m.source == FALLBACK ==>
              var p := Chosen(m, index, take).0;
              p.held.Some? && Relative(m.held.value) <= Relative(p.held.value)
  {
    hide QueueInOrder, NewestDue, NextPts, Relative;
    ChosenKeepsClock(m, index, take);
    if take.prefer && take.recent && m.queue != [] && m.source == FALLBACK {
      var k := NewestDue(m, m.queue, index);
      ShowsNewestDue(m, index, take);
      hide Chosen;
      if k >= 0 {
        TakenInOrder(m, k);
        OrderIgnoresPictures(m.(queue := m.queue[k + 1..], held := Some(m.queue[k])), Chosen(m, index, take).0);
      } else {
        OrderIgnoresPictures(m, Chosen(m, index, take).0);
      }
    } else {
      OrderIgnoresPictures(m, Chosen(m, index, take).0);
    }
  }

  lemma OrderIgnoresPictures(m: Muxer, p: Muxer)
    requires QueueInOrder(m) && p == m.(rendered := p.rendered)
    ensures QueueInOrder(p)
  {
    hide Relative;
    assert p.queue == m.queue && p.held == m.held && p.source == m.source && p.newest == m.newest;
  }

  lemma TakenInOrder(m: Muxer, k: nat)
    requires QueueInOrder(m) && m.source == FALLBACK && k < |m.queue|
    ensures QueueInOrder(m.(queue := m.queue[k + 1..], held := Some(m.queue[k])))
    ensures m.held.Some? ==> Relative(m.held.value) <= Relative(m.queue[k])
  {
    var rest := m.queue[k + 1..];
    assert forall i | 0 <= i < |rest| :: rest[i] == m.queue[k + 1 + i];
  }

  lemma ChosenKeeps(m: Muxer, index: int, take: Take)
    requires Inv(m)
    ensures var (p, picture) := Chosen(m, index, take);
      && Inv(p) && p.source == m.source && Base(p) == Base(m)
      && (picture.Source? && p.source == FALLBACK ==> p.held == Some(picture.frame))
  {
    hide ShotsInOrder, NextPts, Chosen, HoldKeeps, QueueInOrder;
    ChosenHolds(m, index, take);
    ChosenQueues(m, index, take);
    ChosenKeepsClock(m, index, take);
  }

  // A held frame was due when it was taken, and time only moves on.
  predicate HeldWasDue(m: Muxer) {
    m.source == FALLBACK && m.held.Some? ==> DuePts(m, m.held.value) <= NextPts(m.lastPts)
  }

  lemma ChosenWasDue(m: Muxer, take: Take)
    requires Inv(m) && HeldWasDue(m)
    ensures var (p, _) := Chosen(m, NextPts(m.lastPts), take); HeldWasDue(p)
  {
    hide NextPts, Popped, ShotsInOrder, ShotsKeep, QueueInOrder;
    if take.prefer && take.recent && m.queue != [] && m.source == FALLBACK {
      PoppedIsNewestDue(m, NextPts(m.lastPts));
    }
  }

  predicate RunInv(w: Worker, settings: Settings)
    requires settings.samples > 0
  {
    ClockKeeps(w, settings) && Inv(w.muxer) && HeldWasDue(w.muxer) && DecoderAhead(w)
  }

  lemma WriteKeepsInv(m: Muxer, take: Take, settings: Settings)
    requires settings.samples > 0 && Inv(m) && HeldWasDue(m) && NextPts(m.lastPts) == |m.shots|
    ensures var after := Written(m, settings, |m.shots|, take);
      Inv(after) && HeldWasDue(after) && after.source == m.source && after.newest == m.newest
  {
    hide Inv, CatchUp;
    var n := |m.shots|;
    ChosenKeeps(m, n, take);
    ChosenWasDue(m, take);
    ChosenKeepsClock(m, n, take);
    var (p, picture) := Chosen(m, n, take);
    hide Chosen;
    EmittedKeeps(p, settings, n, picture, take);
  }

  lemma StepKeepsInv(w: Worker, e: Event, settings: Settings)
    requires settings.samples > 0 && RunInv(w, settings)
    ensures Inv(Step(w, e, settings).muxer) && HeldWasDue(Step(w, e, settings).muxer)
    ensures DecoderAhead(Step(w, e, settings))
  {
    hide Inv, Written;
    var m := w.muxer;
    match e
    case Begin(source) => ClearedKeeps(m, source, Some(NextPts(m.lastPts)));
    case End(source) => ClearedKeeps(m, SUBMITTED, None);
    case Submit(frame, source) =>
      if source != FALLBACK || Relative(frame) > w.decoded { SubmitKeeps(m, frame, source); }
    case Write(take) => WriteKeepsInv(m, take, settings);
    case Restart => FreshKeeps();
    case Resync =>
  }

  lemma FreshKeeps()
    ensures Inv(NEW_MUXER)
  {
  }

  lemma {:induction false} RunKeepsInv(events: seq<Event>, settings: Settings)
    requires settings.samples > 0
    ensures RunInv(Run(events, settings), settings)
  {
    hide Inv, ClockKeeps, Step, HeldWasDue, DecoderAhead;
    RunKeepsClock(events, settings);
    if events == [] {
      FreshStart();
    } else {
      var n := |events| - 1;
      var before := events[..n];
      RunKeepsInv(before, settings);
      StepKeepsInv(Run(before, settings), events[n], settings);
    }
  }

  lemma FreshStart()
    ensures Inv(NEW_MUXER) && HeldWasDue(NEW_MUXER) && DecoderAhead(NEW_WORKER)
  {
  }

  /** Within a source session no fallback video frame is shown before its due number,
      and the times of the frames shown never go back. */
  lemma FallbackVideoInOrder(events: seq<Event>, settings: Settings, i: nat, j: nat)
    requires settings.samples > 0
    requires i < j < |Run(events, settings).muxer.shots|
    requires var shots := Run(events, settings).muxer.shots;
      ShowsSource(shots[i]) && ShowsSource(shots[j]) && shots[i].session == shots[j].session
    ensures var shots := Run(events, settings).muxer.shots;
      && shots[i].base + Relative(shots[i].picture.frame) <= shots[i].pts
      && shots[j].base + Relative(shots[j].picture.frame) <= shots[j].pts
      && Relative(shots[i].picture.frame) <= Relative(shots[j].picture.frame)
  {
    RunKeepsInv(events, settings);
  }

  // --------------------------------------------------- what a run shows again

  // The last picture of submitted video chosen in a session.
  function LastPicture(shots: seq<Shot>, session: nat): Option<Picture> {
    if shots == [] then None
    else
      var s := shots[|shots| - 1];
      if s.session == session && s.fallback && s.chosen != Slate then Some(s.chosen)
      else LastPicture(shots[..|shots| - 1], session)
  }

  predicate Remembers(m: Muxer) {
    m.rendered == LastPicture(m.shots, m.session)
  }

  lemma {:induction false} NewSessionShowedNothing(shots: seq<Shot>, session: nat)
    requires forall i | 0 <= i < |shots| :: shots[i].session < session
    ensures LastPicture(shots, session).None?
  {
    if shots != [] { NewSessionShowedNothing(shots[..|shots| - 1], session); }
  }

  lemma ClearedRemembers(m: Muxer, source: string, base: Option<int>)
    requires ShotsKeep(m)
    ensures Remembers(Cleared(m).(source := source, base := base))
  {
    NewSessionShowedNothing(m.shots, m.session + 1);
  }

  lemma SubmitRemembers(m: Muxer, frame: Frame, source: string)
    requires ShotsKeep(m) && Remembers(m)
    ensures Remembers(SubmittedTo(m, frame, source))
  {
    hide ShotsKeep, LastPicture;
    if m.source != source { ClearedRemembers(m, source, Some(NextPts(m.lastPts))); }
  }

  lemma SampledRenders(m: Muxer, index: int)
    requires HoldKeeps(m) && m.source == FALLBACK && m.queue != []
    ensures var (p, picture) := Sampled(m, index); p.rendered == Some(picture) && picture != Slate
  {
    hide Popped, DuePts;
  }

  lemma ChosenRenders(m: Muxer, index: int, take: Take)
    requires HoldKeeps(m)
    ensures var (p, picture) := Chosen(m, index, take);
      p.rendered == if m.source == FALLBACK && picture != Slate then Some(picture) else m.rendered
  {
    hide Sampled;
    if m.source == FALLBACK && m.queue != [] { SampledRenders(m, index); }
  }

  lemma WriteRemembers(m: Muxer, settings: Settings, index: nat, take: Take)
    requires settings.samples > 0 && HoldKeeps(m) && Remembers(m)
    ensures var after, picture := Written(m, settings, index, take), Chosen(m, index, take).1;
      && Remembers(after) && |after.shots| == |m.shots| + 1 && after.shots[..|m.shots|] == m.shots
      && after.shots[|m.shots|].chosen == picture
      && after.shots[|m.shots|].picture == if take.valid then picture else Black
  {
    hide Chosen, HoldKeeps, CatchUp;
    ChosenRenders(m, index, take);
    ChosenKeepsClock(m, index, take);
  }

  lemma {:induction false} RunRemembers(events: seq<Event>, settings: Settings)
    requires settings.samples > 0
    ensures Remembers(Run(events, settings).muxer)
  {
    hide Remembers, Written, Inv, ClockKeeps, HeldWasDue, DecoderAhead;
    if events == [] {
      FreshRemembers();
    } else {
      var w := Run(events[..|events| - 1], settings);
      RunRemembers(events[..|events| - 1], settings);
      RunKeepsInv(events[..|events| - 1], settings);
      StepRemembers(w, events[|events| - 1], settings);
    }
  }

  lemma FreshRemembers()
    ensures Remembers(NEW_MUXER)
  {
  }

  lemma StepRemembers(w: Worker, e: Event, settings: Settings)
    requires settings.samples > 0 && Inv(w.muxer) && Remembers(w.muxer)
    ensures Remembers(Step(w, e, settings).muxer)
  {
    hide Remembers, Written, HoldKeeps, ShotsKeep, QueueInOrder, ShotsInOrder;
    var m := w.muxer;
    match e
    case Begin(source) => ClearedRemembers(m, source, Some(NextPts(m.lastPts)));
    case End(source) => ClearedRemembers(m, SUBMITTED, None);
    case Submit(frame, source) => SubmitRemembers(m, frame, source);
    case Write(take) => WriteRemembers(m, settings, WriteIndex(w), take);
    case Restart => FreshRemembers();
    case Resync =>
  }

  /** In every run a wanted write of fallback video shows the newest queued frame that is
      due; when none is due it shows again the last picture of the session; before the
      first picture it shows black while frames wait, and else the slate. Only a picture
      that the encoder refuses is replaced. */
  lemma ShowsNewestOrLast(events: seq<Event>, settings: Settings, take: Take)
    requires settings.samples > 0
    requires Run(events, settings).muxer.source == FALLBACK && take.prefer
    ensures var w, shots := Run(events, settings), Run(events + [Write(take)], settings).muxer.shots;
      var m, shot := w.muxer, shots[|w.muxer.shots|];
      var k, last := NewestDue(m, m.queue, |m.shots|), LastPicture(m.shots, m.session);
      && |m.queue| <= 2 && shots[..|m.shots|] == m.shots
      && shot.picture == (if take.valid then shot.chosen else Black)
      && shot.chosen == (if take.recent && k >= 0 then Source(m.queue[k])
                         else if last.Some? then last.value
                         else if take.recent && m.queue != [] then Black
                         else Slate)
  {
    hide Step, NewestDue, Inv, LastPicture;
    EveryWriteKeepsTime(events, settings, take);
    RunKeepsInv(events, settings);
    RunRemembers(events, settings);
    var w := Run(events, settings);
    var all := events + [Write(take)];
    assert all[..|all| - 1] == events;
    WriteShows(w, settings, take);
  }

  lemma WriteShows(w: Worker, settings: Settings, take: Take)
    requires settings.samples > 0 && Inv(w.muxer) && Remembers(w.muxer) && WriteIndex(w) == |w.muxer.shots|
    requires w.muxer.source == FALLBACK && take.prefer
    ensures var m, shots := w.muxer, Step(w, Write(take), settings).muxer.shots;
      var k, last := NewestDue(m, m.queue, |m.shots|), LastPicture(m.shots, m.session);
      && |m.queue| <= 2 && |shots| == |m.shots| + 1
      && shots[|m.shots|].picture == (if take.valid then shots[|m.shots|].chosen else Black)
      && shots[|m.shots|].chosen == (if take.recent && k >= 0 then Source(m.queue[k])
                                     else if last.Some? then last.value
                                     else if take.recent && m.queue != [] then Black
                                     else Slate)
  {
    hide Written, WriteIndex, NewestDue, LastPicture, Sampled, ShotsKeep, QueueInOrder, ShotsInOrder;
    var m := w.muxer;
    WriteRemembers(m, settings, |m.shots|, take);
    if m.queue != [] && take.recent { ShowsNewestDue(m, |m.shots|, take); }
    if m.queue == [] { NoneDue(m, |m.shots|); }
  }

  lemma NoneDue(m: Muxer, index: int)
    requires m.queue == []
    ensures NewestDue(m, m.queue, index) < 0
  {
  }
}
