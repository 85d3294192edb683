/** The output muxer of src/media_pipeline.cpp: every write puts out exactly one video
    frame and the audio up to it; submitted fallback video is sampled and held. */
module FallbackMuxer {
  import opened Prelude
  import opened OutputClock

  const FALLBACK: string := "fallback-video"
  const SUBMITTED: string := "submitted"

  // A decoded frame; an absent time counts as 0.
  datatype Frame = Frame(pts: Option<int>, id: int)
  datatype Picture = Slate | Black | Source(frame: Frame)

  // A frame put out: its number, its picture, where the source stood, and the picture
  // that was chosen before the encoder's check.
  datatype Shot = Shot(pts: int, picture: Picture, session: nat, fallback: bool, base: int, chosen: Picture)

  datatype Settings = Settings(frameRate: int, samples: nat)

  // session counts the times the submitted video was cleared; newest is the latest
  // time submitted since. Both only tell what happened.
  datatype Muxer = Muxer(
    lastPts: int, audio: nat, source: string, queue: seq<Frame>, base: Option<int>, held: Option<Frame>,
    rendered: Option<Picture>, shots: seq<Shot>, session: nat, newest: Option<int>)

  const NEW_MUXER: Muxer := Muxer(NOPTS, 0, SUBMITTED, [], None, None, None, [], 0, None)

  function Relative(f: Frame): int {
    if f.pts.Some? then f.pts.value else 0
  }

  function Base(m: Muxer): int {
    if m.base.Some? then m.base.value else NextPts(m.lastPts)
  }

  function DuePts(m: Muxer, f: Frame): int {
    Base(m) + Relative(f)
  }

  function Cleared(m: Muxer): Muxer {
    m.(queue := [], base := None, held := None, rendered := None, session := m.session + 1, newest := None)
  }

  function Begun(m: Muxer, source: string): Muxer {
    Cleared(m).(source := source, base := Some(NextPts(m.lastPts)))
  }

  function Ended(m: Muxer, source: string): Muxer {
    if m.source == source then Cleared(m).(source := SUBMITTED) else m
  }

  // A fallback frame that finds the queue full and no room within 100 ms is dropped.
  function SubmittedTo(m: Muxer, frame: Frame, source: string): Muxer {
    var s :=
      if m.source != source then Cleared(m).(source := source, base := Some(NextPts(m.lastPts)))
      else if source == FALLBACK && m.base.None? then m.(base := Some(NextPts(m.lastPts)))
      else m;
    var t := s.(newest := Some(Relative(frame)));
    if source != FALLBACK then t.(queue := [frame])
    else if |s.queue| >= 2 then t
    else t.(queue := s.queue + [frame])
  }

  // Frames superseded by a newer one that is due.
  function Popped(m: Muxer, queue: seq<Frame>, index: int): (q: seq<Frame>)
    ensures queue != [] ==> q != []
    ensures |q| <= |queue|
    decreases |queue|
  {
    if |queue| > 1 && DuePts(m, queue[1]) <= index then Popped(m, queue[1..], index) else queue
  }

  function CatchUp(audio: nat, settings: Settings, nextFrame: nat): nat
    requires settings.samples > 0
    decreases AudioTarget(nextFrame, SAMPLE_RATE, settings.frameRate) - audio
  {
    if AudioDue(audio, settings.samples, nextFrame, SAMPLE_RATE, settings.frameRate)
    then CatchUp(audio + settings.samples, settings, nextFrame)
    else audio
  }

  // What the outside contributes to one write: whether submitted video is wanted;
  // whether it is fresh, or for fallback video its audio is ready; whether the
  // picture passes the encoder's check; whether audio can be written.
  datatype Take = Take(prefer: bool, recent: bool, valid: bool, audioReady: bool)

  function Emitted(m: Muxer, settings: Settings, index: nat, picture: Picture, take: Take): Muxer
    requires settings.samples > 0
  {
    var sent := if take.valid then picture else Black;
    var shot := Shot(NextPts(m.lastPts), sent, m.session, m.source == FALLBACK, Base(m), picture);
    m.(lastPts := shot.pts, shots := m.shots + [shot],
       audio := if take.audioReady then CatchUp(m.audio, settings, index + 1) else m.audio)
  }

  function HeldPicture(m: Muxer): Picture {
    if m.rendered.Some? then m.rendered.value else if m.held.Some? then Source(m.held.value) else Black
  }

  // The picture of a submitted frame is kept for fallback video.
  function Kept(m: Muxer, picture: Picture): Muxer {
    if m.source == FALLBACK then m.(rendered := Some(picture)) else m
  }

  // What a queue of fallback video gives: the newest frame that is due, else what is held.
  function Sampled(m: Muxer, index: int): (Muxer, Picture)
    requires m.queue != []
  {
    var q := Popped(m, m.queue, index);
    var p := m.(queue := q);
    if DuePts(m, q[0]) > index then (Kept(p, HeldPicture(m)), HeldPicture(m))
    else (Kept(p.(queue := q[1..], held := Some(q[0])), Source(q[0])), Source(q[0]))
  }

  // The state before the frame goes out, and its picture.
  function Chosen(m: Muxer, index: int, take: Take): (Muxer, Picture) {
    if take.prefer && take.recent && m.queue != [] then
      if m.source == FALLBACK then Sampled(m, index) else (m, Source(m.queue[|m.queue| - 1]))
    else if take.prefer && m.source == FALLBACK && (m.held.Some? || m.rendered.Some?) then
      (Kept(m, HeldPicture(m)), HeldPicture(m))
    else (m, Slate)
  }

  function Written(m: Muxer, settings: Settings, index: nat, take: Take): Muxer
    requires settings.samples > 0
  {
    var (p, picture) := Chosen(m, index, take);
    Emitted(p, settings, index, picture, take)
  }

  class Output {
    const settings: Settings
    var lastVideoPts: int
    var audioSampleIndex: nat
    var submittedVideoSource: string
    var submittedVideoFrames: seq<Frame>
    var submittedVideoBaseFrame: Option<int>
    var heldSubmittedVideoFrame: Option<Frame>
    var heldRenderedSubmittedVideoFrame: Option<Picture>
    ghost var shots: seq<Shot>
    ghost var session: nat
    ghost var newest: Option<int>

    ghost function State(): Muxer
      reads this
    {
      Muxer(lastVideoPts, audioSampleIndex, submittedVideoSource, submittedVideoFrames, submittedVideoBaseFrame,
            heldSubmittedVideoFrame, heldRenderedSubmittedVideoFrame, shots, session, newest)
    }

    constructor (settings: Settings)
      ensures this.settings == settings && State() == NEW_MUXER
    {
      this.settings := settings;
      lastVideoPts, audioSampleIndex, submittedVideoSource, submittedVideoFrames := NOPTS, 0, SUBMITTED, [];
      submittedVideoBaseFrame, heldSubmittedVideoFrame, heldRenderedSubmittedVideoFrame := None, None, None;
      shots, session, newest := [], 0, None;
    }

    function SubmittedFrameDuePts(f: Frame): (due: int)
      reads this
      ensures due == DuePts(State(), f)
    {
      (if submittedVideoBaseFrame.Some? then submittedVideoBaseFrame.value else NextPts(lastVideoPts)) + Relative(f)
    }

    method ClearSubmittedVideo()
      modifies this
      ensures State() == Cleared(old(State()))
    {
      submittedVideoFrames := [];
      heldSubmittedVideoFrame := None;
      heldRenderedSubmittedVideoFrame := None;
      submittedVideoBaseFrame := None;
      session, newest := session + 1, None;
    }

    method BeginSubmittedSource(source: string)
      modifies this
      ensures State() == Begun(old(State()), source)
    {
      ClearSubmittedVideo();
      submittedVideoSource := source;
      submittedVideoBaseFrame := Some(NextPts(lastVideoPts));
    }

    method EndSubmittedSource(source: string)
      modifies this
      ensures State() == Ended(old(State()), source)
    {
      if submittedVideoSource == source {
        ClearSubmittedVideo();
        submittedVideoSource := SUBMITTED;
      }
    }

    method SubmitVideoFrame(frame: Frame, source: string)
      modifies this
      ensures State() == SubmittedTo(old(State()), frame, source)
    {
      if submittedVideoSource != source {
        ClearSubmittedVideo();
        submittedVideoSource := source;
        submittedVideoBaseFrame := Some(NextPts(lastVideoPts));
      } else if source == FALLBACK && submittedVideoBaseFrame.None? {
        submittedVideoBaseFrame := Some(NextPts(lastVideoPts));
      }
      newest := Some(Relative(frame));
      if source == FALLBACK {
        if |submittedVideoFrames| >= 2 {
          return;
        }
      } else {
        submittedVideoFrames := [];
      }
      submittedVideoFrames := submittedVideoFrames + [frame];
    }

    method WriteAudioUntil(nextFrame: nat, ready: bool)
      requires settings.samples > 0
      modifies this`audioSampleIndex
      ensures audioSampleIndex ==
              if ready then CatchUp(old(audioSampleIndex), settings, nextFrame) else old(audioSampleIndex)
    {
      if !ready {
        return;
      }
      while AudioDue(audioSampleIndex, settings.samples, nextFrame, SAMPLE_RATE, settings.frameRate)
        invariant CatchUp(audioSampleIndex, settings, nextFrame) == CatchUp(old(audioSampleIndex), settings, nextFrame)
        decreases AudioTarget(nextFrame, SAMPLE_RATE, settings.frameRate) - audioSampleIndex
      {
        audioSampleIndex := audioSampleIndex + settings.samples;
      }
    }

    // fixedVideoFrame numbers the frame itself.
    method EncodeWithAudio(index: nat, picture: Picture, take: Take)
      requires settings.samples > 0
      modifies this`lastVideoPts, this`audioSampleIndex, this`shots
      ensures State() == Emitted(old(State()), settings, index, picture, take)
    {
      var pts := NextPts(lastVideoPts);
      var sentPicture := if take.valid then picture else Black;
      shots := shots + [Shot(pts, sentPicture, session, submittedVideoSource == FALLBACK, Base(State()), picture)];
      lastVideoPts := pts;
      WriteAudioUntil(index + 1, take.audioReady);
    }

    method WriteSubmitted(index: nat, picture: Picture, take: Take)
      requires settings.samples > 0
      modifies this
      ensures State() == Emitted(Kept(old(State()), picture), settings, index, picture, take)
    {
      if submittedVideoSource == FALLBACK {
        heldRenderedSubmittedVideoFrame := Some(picture);
      }
      EncodeWithAudio(index, picture, take);
    }

    method WriteHeldOrGenerated(index: nat, take: Take)
      requires settings.samples > 0 && submittedVideoSource == FALLBACK
      modifies this
      ensures var m := old(State());
        State() == Emitted(Kept(m, HeldPicture(m)), settings, index, HeldPicture(m), take)
    {
      if heldRenderedSubmittedVideoFrame.Some? {
        EncodeWithAudio(index, heldRenderedSubmittedVideoFrame.value, take);
        return;
      }
      var picture := if heldSubmittedVideoFrame.Some? then Source(heldSubmittedVideoFrame.value) else Black;
      WriteSubmitted(index, picture, take);
    }

    method WriteFrame(index: nat, take: Take)
      requires settings.samples > 0
      modifies this
      ensures State() == Written(old(State()), settings, index, take)
    {
      hide CatchUp, NextPts;
      if take.prefer && take.recent && submittedVideoFrames != [] {
        if submittedVideoSource == FALLBACK {
          while |submittedVideoFrames| > 1 && SubmittedFrameDuePts(submittedVideoFrames[1]) <= index
            invariant submittedVideoFrames != [] && State() == old(State()).(queue := submittedVideoFrames)
            invariant Popped(old(State()), submittedVideoFrames, index) ==
                      Popped(old(State()), old(submittedVideoFrames), index)
            decreases |submittedVideoFrames|
          {
            submittedVideoFrames := submittedVideoFrames[1..];
          }
          if SubmittedFrameDuePts(submittedVideoFrames[0]) > index {
            WriteHeldOrGenerated(index, take);
            return;
          }
          var frame := submittedVideoFrames[0];
          submittedVideoFrames := submittedVideoFrames[1..];
          heldSubmittedVideoFrame := Some(frame);
          heldRenderedSubmittedVideoFrame := None;
          WriteSubmitted(index, Source(frame), take);
        } else {
          WriteSubmitted(index, Source(submittedVideoFrames[|submittedVideoFrames| - 1]), take);
        }
        return;
      }
      if take.prefer && submittedVideoSource == FALLBACK
        && (heldSubmittedVideoFrame.Some? || heldRenderedSubmittedVideoFrame.Some?)
      {
        WriteHeldOrGenerated(index, take);
        return;
      }
      EncodeWithAudio(index, Slate, take);
    }
  }
}
