/** Re-basing of packet times in the persistent RTMP muxer (src/media_pipeline.cpp):
    encoders restart and connections come and go, the stream's times only grow. */
module RtmpTimestamps {
  import opened Prelude

  // Times after rescaling to the stream's time base; absent ones are AV_NOPTS_VALUE.
  datatype Packet = Packet(pts: Option<int>, dts: Option<int>, duration: int)
  datatype Track = Track(offset: int, last: Option<int>)

  const NEW_TRACK: Track := Track(0, None)

  // The time a packet is ordered by.
  function Key(p: Packet): Option<int> {
    if p.dts.Some? then p.dts else p.pts
  }

  function Shifted(t: Option<int>, offset: int): Option<int> {
    if t.Some? then Some(t.value + offset) else None
  }

  function Gap(p: Packet): int {
    if p.duration > 0 then p.duration else 1
  }

  function OffsetFor(t: Track, p: Packet): int {
    var key := Key(p);
    if key.None? then t.offset
    else if t.last.None? then (if key.value + t.offset < 0 then -key.value else t.offset)
    else if key.value + t.offset <= t.last.value then t.last.value + Gap(p) - key.value
    else t.offset
  }

  function Stamped(t: Track, p: Packet): Packet {
    p.(pts := Shifted(p.pts, OffsetFor(t, p)), dts := Shifted(p.dts, OffsetFor(t, p)))
  }

  function Advanced(t: Track, p: Packet): Track {
    Track(OffsetFor(t, p), if Key(p).Some? then Key(Stamped(t, p)) else t.last)
  }

  // One write: whether a closed connection opens, whether the packet's stream exists
  // on it, and whether the write succeeds.
  datatype Write = Write(video: bool, packet: Packet, opens: bool, streamExists: bool, ok: bool)

  // sent holds what was handed to the muxer, for each track, also by failing writes.
  datatype Muxer = Muxer(video: Track, audio: Track, open: bool, sentVideo: seq<Packet>, sentAudio: seq<Packet>)

  const NEW_MUXER: Muxer := Muxer(NEW_TRACK, NEW_TRACK, false, [], [])

  function Step(m: Muxer, w: Write): Muxer {
    var open := m.open || w.opens;
    if !open || !w.streamExists then m.(open := open)
    else if w.video then
      m.(video := Advanced(m.video, w.packet), open := w.ok,
         sentVideo := m.sentVideo + [Stamped(m.video, w.packet)])
    else
      m.(audio := Advanced(m.audio, w.packet), open := w.ok,
         sentAudio := m.sentAudio + [Stamped(m.audio, w.packet)])
  }

  function Run(writes: seq<Write>): Muxer {
    if writes == [] then NEW_MUXER else Step(Run(writes[..|writes| - 1]), writes[|writes| - 1])
  }

  class PersistentRtmpMuxer {
    var headerWritten: bool
    var videoTimestampOffset: int
    var audioTimestampOffset: int
    var lastVideoDts: Option<int>
    var lastAudioDts: Option<int>
    ghost var sentVideo: seq<Packet>
    ghost var sentAudio: seq<Packet>

    ghost function State(): Muxer
      reads this
    {
      Muxer(Track(videoTimestampOffset, lastVideoDts), Track(audioTimestampOffset, lastAudioDts), headerWritten,
            sentVideo, sentAudio)
    }

    constructor ()
      ensures State() == NEW_MUXER
    {
      headerWritten := false;
      videoTimestampOffset, audioTimestampOffset := 0, 0;
      lastVideoDts, lastAudioDts := None, None;
      sentVideo, sentAudio := [], [];
    }

    method Stamp(packet: Packet, offset: int, last: Option<int>)
      returns (copy: Packet, newOffset: int, newLast: Option<int>)
      ensures copy == Stamped(Track(offset, last), packet)
      ensures Track(newOffset, newLast) == Advanced(Track(offset, last), packet)
    {
      copy, newOffset, newLast := packet, offset, last;
      var timestamp := if packet.dts.Some? then packet.dts else packet.pts;
      if timestamp.Some? && last.None? && timestamp.value + newOffset < 0 {
        newOffset := -timestamp.value;
      }
      if timestamp.Some? && last.Some? && timestamp.value + newOffset <= last.value {
        var duration := if packet.duration > 0 then packet.duration else 1;
        newOffset := last.value + duration - timestamp.value;
      }
      if newOffset != 0 {
        if copy.pts.Some? {
          copy := copy.(pts := Some(copy.pts.value + newOffset));
        }
        if copy.dts.Some? {
          copy := copy.(dts := Some(copy.dts.value + newOffset));
        }
      }
      if copy.dts.Some? {
        newLast := copy.dts;
      } else if copy.pts.Some? {
        newLast := copy.pts;
      }
    }

    method WritePacket(w: Write)
      modifies this
      ensures State() == Step(old(State()), w)
    {
      hide Stamped, Advanced;
      if !headerWritten {
        headerWritten := w.opens;
      }
      if !headerWritten || !w.streamExists {
        return;
      }
      if w.video {
        var copy, offset, last := Stamp(w.packet, videoTimestampOffset, lastVideoDts);
        videoTimestampOffset, lastVideoDts := offset, last;
        sentVideo := sentVideo + [copy];
      } else {
        var copy, offset, last := Stamp(w.packet, audioTimestampOffset, lastAudioDts);
        audioTimestampOffset, lastAudioDts := offset, last;
        sentAudio := sentAudio + [copy];
      }
      if !w.ok {
        headerWritten := false;
      }
    }
  }

  // ------------------------------------------------------------ one packet

  /** What a packet is stamped with: its own time shifted as before where that moves
      forward, else just behind the last; and the shift never shrinks once a packet
      was stamped. */
  lemma StampedTime(t: Track, p: Packet)
    requires p.dts.Some? || p.pts.Some?
    ensures Key(p) == (if p.dts.Some? then p.dts else p.pts)
    ensures var time := Key(p).value + t.offset;
      Key(Stamped(t, p)) == Some(
        if t.last.None? then (if time < 0 then 0 else time)
        else if time > t.last.value then time
        else if p.duration > 0 then t.last.value + p.duration
        else t.last.value + 1)
    ensures t.last.Some? ==> OffsetFor(t, p) >= t.offset && Key(Stamped(t, p)).value > t.last.value
    ensures Advanced(t, p).last == Key(Stamped(t, p))
  {
  }

  /** The distance of presentation and decoding is untouched. */
  lemma StampKeepsDistance(t: Track, p: Packet)
    ensures var q := Stamped(t, p);
      && q.duration == p.duration && q.pts.Some? == p.pts.Some? && q.dts.Some? == p.dts.Some?
      && (p.pts.Some? && p.dts.Some? ==> q.pts.value - q.dts.value == p.pts.value - p.dts.value)
  {
  }

  // ------------------------------------------------------------ whole runs

  // The times of the packets that have one.
  function Times(packets: seq<Packet>): seq<int> {
    if packets == [] then []
    else
      var before, key := Times(packets[..|packets| - 1]), Key(packets[|packets| - 1]);
      if key.Some? then before + [key.value] else before
  }

  predicate Growing(times: seq<int>) {
    && (forall i | 0 <= i < |times| :: times[i] >= 0)
    && (forall i, j | 0 <= i < j < |times| :: times[i] < times[j])
  }

  predicate TrackKeeps(t: Track, sent: seq<Packet>) {
    var times := Times(sent);
    && Growing(times)
    && t.last == (if times == [] then None else Some(times[|times| - 1]))
  }

  lemma StampKeeps(t: Track, sent: seq<Packet>, p: Packet)
    requires TrackKeeps(t, sent)
    ensures TrackKeeps(Advanced(t, p), sent + [Stamped(t, p)])
  {
    var all := sent + [Stamped(t, p)];
    assert all[..|all| - 1] == sent;
    if Key(p).Some? {
      StampedTime(t, p);
      GrowsBy(Times(sent), Key(Stamped(t, p)).value);
    }
  }

  lemma GrowsBy(times: seq<int>, time: int)
    requires Growing(times) && time >= 0 && (times != [] ==> time > times[|times| - 1])
    ensures Growing(times + [time])
  {
  }

  lemma {:induction false} RunKeeps(writes: seq<Write>)
    ensures TrackKeeps(Run(writes).video, Run(writes).sentVideo)
    ensures TrackKeeps(Run(writes).audio, Run(writes).sentAudio)
  {
    hide TrackKeeps, Stamped, Advanced;
    if writes == [] {
      NothingKeeps();
    } else {
      var m, w := Run(writes[..|writes| - 1]), writes[|writes| - 1];
      RunKeeps(writes[..|writes| - 1]);
      StampKeeps(m.video, m.sentVideo, w.packet);
      StampKeeps(m.audio, m.sentAudio, w.packet);
    }
  }

  lemma NothingKeeps()
    ensures TrackKeeps(NEW_TRACK, [])
  {
  }

  /** Across encoder resets, failing writes and reconnects, the times handed to the
      muxer are never negative and strictly increase, in each stream. */
  lemma TimesAlwaysGrow(writes: seq<Write>)
    ensures Growing(Times(Run(writes).sentVideo)) && Growing(Times(Run(writes).sentAudio))
  {
    RunKeeps(writes);
  }

  /** Between any two moments of a run the shift of a stream never shrinks, once a
      packet of that stream was stamped. */
  lemma {:induction false} OffsetsNeverShrink(writes: seq<Write>, n: nat)
    requires n <= |writes|
    ensures var early, late := Run(writes[..n]), Run(writes);
      && (early.video.last.Some? ==> late.video.last.Some? && late.video.offset >= early.video.offset)
      && (early.audio.last.Some? ==> late.audio.last.Some? && late.audio.offset >= early.audio.offset)
    decreases |writes|
  {
    if n == |writes| {
      assert writes[..n] == writes;
    } else {
      var before := writes[..|writes| - 1];
      assert before[..n] == writes[..n];
      OffsetsNeverShrink(before, n);
    }
  }

  /** A stream that restarts keeps its own pace: packets that follow each other
      forward in time keep their distance. */
  lemma ForwardPacketsKeepTheirDistance(t: Track, p: Packet, q: Packet)
    requires Key(p).Some? && Key(q).Some? && Key(q).value > Key(p).value
    ensures var u := Advanced(t, p);
      && OffsetFor(u, q) == u.offset
      && Key(Stamped(u, q)).value - Key(Stamped(t, p)).value == Key(q).value - Key(p).value
  {
  }

  // ------------------------------------------------------------- what is written

  // A packet goes out when its stream exists and the connection is open or now opens.
  predicate GoesOut(writes: seq<Write>, w: Write) {
    (Open(writes) || w.opens) && w.streamExists
  }

  // The connection stays open from a successful opening to the next failed packet.
  predicate Open(writes: seq<Write>) {
    if writes == [] then false
    else
      var before, w := writes[..|writes| - 1], writes[|writes| - 1];
      if (Open(before) || w.opens) && w.streamExists then w.ok else Open(before) || w.opens
  }

  lemma {:induction false} OpenIsOpen(writes: seq<Write>)
    ensures Run(writes).open == Open(writes)
  {
    hide Advanced, Stamped;
    if writes != [] { OpenIsOpen(writes[..|writes| - 1]); }
  }

  /** In every run a packet goes out exactly when its stream exists and the connection is open
      or opens for it: then one packet is added to its own stream, with its duration and the
      distance of its times kept; else nothing is added. The other stream gets nothing. */
  lemma EveryOpenWriteSubmits(writes: seq<Write>, w: Write)
    ensures var m, n := Run(writes), Run(writes + [w]);
      var (sent, after) := if w.video then (m.sentVideo, n.sentVideo) else (m.sentAudio, n.sentAudio);
      var (other, still) := if w.video then (m.sentAudio, n.sentAudio) else (m.sentVideo, n.sentVideo);
      && still == other
      && |after| == |sent| + (if GoesOut(writes, w) then 1 else 0) && after[..|sent|] == sent
      && (GoesOut(writes, w) ==>
            var p, q := w.packet, after[|sent|];
            && q.duration == p.duration && q.pts.Some? == p.pts.Some? && q.dts.Some? == p.dts.Some?
            && (p.pts.Some? && p.dts.Some? ==> q.pts.value - q.dts.value == p.pts.value - p.dts.value))
  {
    hide Open;
    assert (writes + [w])[..|writes|] == writes;
    OpenIsOpen(writes);
    StampKeepsDistance(if w.video then Run(writes).video else Run(writes).audio, w.packet);
    hide Stamped, Advanced;
  }

  /** The time a packet of a stream gets: the first is not before 0; a later one keeps its
      shifted time, or stands its duration, at least 1, behind the last one that had a time. */
  lemma SubmittedTime(writes: seq<Write>, w: Write)
    requires GoesOut(writes, w) && (w.packet.dts.Some? || w.packet.pts.Some?)
    ensures var m, n := Run(writes), Run(writes + [w]);
      var track := if w.video then m.video else m.audio;
      var sent := if w.video then n.sentVideo else n.sentAudio;
      var times := Times(if w.video then m.sentVideo else m.sentAudio);
      var time := (if w.packet.dts.Some? then w.packet.dts.value else w.packet.pts.value) + track.offset;
      && sent != []
      && Key(sent[|sent| - 1]) == Some(
           if times == [] then (if time < 0 then 0 else time)
           else if time > times[|times| - 1] then time
           else times[|times| - 1] + (if w.packet.duration > 0 then w.packet.duration else 1))
  {
    hide Open, Times, Run, Key, Stamped;
    LastTimes(writes);
    OneMoreIsStamped(writes, w);
    StampedTime(if w.video then Run(writes).video else Run(writes).audio, w.packet);
  }

  lemma LastTimes(writes: seq<Write>)
    ensures var m := Run(writes);
      && m.video.last == LastTime(m.sentVideo) && m.audio.last == LastTime(m.sentAudio)
  {
    hide Run, Growing;
    RunKeeps(writes);
  }

  function LastTime(packets: seq<Packet>): Option<int> {
    var times := Times(packets);
    if times == [] then None else Some(times[|times| - 1])
  }

  lemma OneMoreIsStamped(writes: seq<Write>, w: Write)
    requires GoesOut(writes, w)
    ensures var m, n := Run(writes), Run(writes + [w]);
      if w.video then n.sentVideo == m.sentVideo + [Stamped(m.video, w.packet)]
      else n.sentAudio == m.sentAudio + [Stamped(m.audio, w.packet)]
  {
    hide Open, Stamped, Advanced;
    assert (writes + [w])[..|writes|] == writes;
    OpenIsOpen(writes);
  }
}
