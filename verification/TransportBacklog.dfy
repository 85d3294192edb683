/** The transport-stream backlog of the media process (src/media_process.cpp). */
module TransportBacklog {
  import opened Prelude
  import opened TsPackets

  const CHUNK := 188 * 340
  const MAX_BUFFERED := 188 * 65536
  const KEPT := MAX_BUFFERED / 2 - MAX_BUFFERED / 2 % 188

  datatype Backlog = Backlog(buffer: Bytes, chunks: seq<Bytes>)

  // Whole chunks leave until the channel refuses one, here after takes of them.
  function Flushed(b: Backlog, takes: nat): Backlog
    decreases |b.buffer|
  {
    if b.buffer == [] || takes == 0 then b
    else
      var n := Min(CHUNK, |b.buffer|);
      Flushed(Backlog(b.buffer[n..], b.chunks + [b.buffer[..n]]), takes - 1)
  }

  function Trimmed(b: Backlog): Backlog {
    if |b.buffer| > MAX_BUFFERED then b.(buffer := b.buffer[|b.buffer| - KEPT..]) else b
  }

  function Written(b: Backlog, packet: Bytes, takes: nat): Backlog {
    if packet == [] then b else Trimmed(Flushed(b.(buffer := b.buffer + packet), takes))
  }

  predicate Overflows(b: Backlog, packet: Bytes, takes: nat) {
    |Flushed(b.(buffer := b.buffer + packet), takes).buffer| > MAX_BUFFERED
  }

  class MediaBacklog {
    var transportBuffer: Bytes
    ghost var chunks: seq<Bytes>

    ghost function State(): Backlog
      reads this
    {
      Backlog(transportBuffer, chunks)
    }

    constructor ()
      ensures State() == Backlog([], [])
    {
      transportBuffer, chunks := [], [];
    }

    // takes: how many chunks the channel accepts before it refuses one.
    method FlushTransportBuffer(takes: nat)
      modifies this
      ensures State() == Flushed(old(State()), takes)
    {
      var left := takes;
      while transportBuffer != []
        invariant Flushed(State(), left) == Flushed(old(State()), takes)
        decreases |transportBuffer|
      {
        var chunkSize := Min(CHUNK, |transportBuffer|);
        if left == 0 {
          return;
        }
        chunks := chunks + [transportBuffer[..chunkSize]];
        transportBuffer := transportBuffer[chunkSize..];
        left := left - 1;
      }
    }

    method Write(packet: Bytes, takes: nat)
      modifies this
      ensures State() == Written(old(State()), packet, takes)
    {
      if packet == [] {
        return;
      }
      transportBuffer := transportBuffer + packet;
      FlushTransportBuffer(takes);
      if |transportBuffer| > MAX_BUFFERED {
        var keepBytes := MAX_BUFFERED / 2;
        var alignedKeepBytes := keepBytes - keepBytes % PACKET;
        var eraseBytes := |transportBuffer| - alignedKeepBytes;
        transportBuffer := transportBuffer[eraseBytes..];
      }
    }
  }

  predicate Shaped(b: Backlog) {
    |b.buffer| <= MAX_BUFFERED && Aligned(b.buffer) && AllAligned(b.chunks)
  }

  function PacketsIn(b: Backlog): seq<Bytes>
    requires Aligned(b.buffer) && AllAligned(b.chunks)
  {
    PacketsOf(b.chunks) + Packets(b.buffer)
  }

  /** Flushing moves whole packets and neither loses nor reorders any. */
  lemma {:induction false} FlushConserves(b: Backlog, takes: nat)
    requires Aligned(b.buffer) && AllAligned(b.chunks)
    ensures var f := Flushed(b, takes);
      Aligned(f.buffer) && AllAligned(f.chunks) && |f.buffer| <= |b.buffer| && PacketsIn(f) == PacketsIn(b)
    decreases |b.buffer|
  {
    hide Packets, PacketsOf;
    if b.buffer != [] && takes > 0 {
      var n := Min(CHUNK, |b.buffer|);
      var chunk, rest := b.buffer[..n], b.buffer[n..];
      CutIsSub(b.buffer, n);
      PacketsOfConcat(b.chunks, [chunk]);
      PacketsOfOne(chunk);
      FlushConserves(Backlog(rest, b.chunks + [chunk]), takes - 1);
      assert PacketsOf(b.chunks) + (Packets(chunk) + Packets(rest)) ==
             (PacketsOf(b.chunks) + Packets(chunk)) + Packets(rest);
    }
  }

  /** After each write the backlog holds at most 65536 packets. What a write loses is
      whole packets, and only when the backlog would overflow. */
  lemma WriteKeepsPackets(b: Backlog, p: Bytes, takes: nat)
    requires Shaped(b) && IsPacket(p)
    ensures var w := Written(b, p, takes);
      && Shaped(w)
      && Sub(PacketsIn(w), PacketsIn(b) + [p])
      && (!Overflows(b, p, takes) ==> PacketsIn(w) == PacketsIn(b) + [p])
      && (|b.buffer| < MAX_BUFFERED ==> !Overflows(b, p, takes))
  {
    hide Packets, PacketsOf, Flushed, Sub;
    var joined := b.(buffer := b.buffer + p);
    PacketsConcat(b.buffer, p);
    PacketsOne(p);
    assert PacketsIn(joined) == PacketsIn(b) + [p] by {
      assert PacketsOf(b.chunks) + (Packets(b.buffer) + [p]) == (PacketsOf(b.chunks) + Packets(b.buffer)) + [p];
    }
    FlushConserves(joined, takes);
    TrimDropsOldest(Flushed(joined, takes));
  }

  /** Trimming keeps the newest packets and drops the oldest, whole. */
  lemma TrimDropsOldest(b: Backlog)
    requires Aligned(b.buffer) && AllAligned(b.chunks)
    ensures var t := Trimmed(b);
      && Shaped(t) && t.chunks == b.chunks
      && Sub(PacketsIn(t), PacketsIn(b))
      && (|b.buffer| <= MAX_BUFFERED ==> t == b)
      && exists n :: 0 <= n <= |Packets(b.buffer)| && Packets(t.buffer) == Packets(b.buffer)[n..]
  {
    hide Packets, PacketsOf, Sub;
    var sent := PacketsOf(b.chunks);
    if |b.buffer| > MAX_BUFFERED {
      var cut := |b.buffer| - KEPT;
      CutIsSub(b.buffer, cut);
      SubRefl(sent);
      SubConcat(sent, sent, Packets(b.buffer[cut..]), Packets(b.buffer));
      var n := |Packets(b.buffer[..cut])|;
      assert Packets(b.buffer)[n..] == Packets(b.buffer[cut..]);
    } else {
      SubRefl(PacketsIn(b));
      assert Packets(b.buffer)[0..] == Packets(b.buffer);
    }
  }

  // How many chunks of 63,920 bytes a buffer makes, the last of them perhaps shorter.
  function ChunksFor(bytes: nat): nat {
    (bytes + 63919) / 63920
  }

  lemma {:induction false} FlushCounts(b: Backlog, takes: nat)
    ensures var f := Flushed(b, takes);
      && b.chunks <= f.chunks
      && |f.chunks| - |b.chunks| == (if takes <= ChunksFor(|b.buffer|) then takes else ChunksFor(|b.buffer|))
      && (f.buffer == [] <==> takes >= ChunksFor(|b.buffer|))
    decreases |b.buffer|
  {
    hide ChunksFor;
    NoChunks();
    if b.buffer != [] && takes > 0 {
      var n := Min(CHUNK, |b.buffer|);
      FlushCounts(Backlog(b.buffer[n..], b.chunks + [b.buffer[..n]]), takes - 1);
      OneChunkLess(|b.buffer|, |b.buffer| - n);
    }
  }

  lemma NoChunks()
    ensures ChunksFor(0) == 0 && forall n: nat | ChunksFor(n) == 0 :: n == 0
  {
  }

  // Whole chunks but perhaps the last.
  predicate Chunked(sent: seq<Bytes>) {
    && (forall i | 0 <= i < |sent| - 1 :: |sent[i]| == 63920)
    && (sent != [] ==> 0 < |sent[|sent| - 1]| <= 63920)
  }

  lemma {:induction false} FlushCuts(b: Backlog, takes: nat)
    ensures b.chunks <= Flushed(b, takes).chunks
    ensures var f := Flushed(b, takes);
      var sent := f.chunks[|b.chunks|..];
      && Chunked(sent) && Flatten(sent) + f.buffer == b.buffer
      && (sent != [] && |sent[0]| < 63920 ==> |sent| == 1 && f.buffer == [])
    decreases |b.buffer|
  {
    hide Flatten;
    if b.buffer == [] || takes == 0 {
      NothingSent(b);
    } else {
      var n := Min(CHUNK, |b.buffer|);
      var chunk, next := b.buffer[..n], Backlog(b.buffer[n..], b.chunks + [b.buffer[..n]]);
      FlushCuts(next, takes - 1);
      var f := Flushed(next, takes - 1);
      FirstChunk(b, next, f, chunk);
      var more := f.chunks[|next.chunks|..];
      if |b.buffer| < 63920 { EmptyStays(next, takes - 1); }
      assert b.buffer == chunk + next.buffer;
      assert chunk + (Flatten(more) + f.buffer) == (chunk + Flatten(more)) + f.buffer;
    }
  }

  lemma EmptyStays(b: Backlog, takes: nat)
    requires b.buffer == []
    ensures Flushed(b, takes) == b
  {
  }

  lemma NothingSent(b: Backlog)
    ensures b.chunks[|b.chunks|..] == [] && Flatten(b.chunks[|b.chunks|..]) + b.buffer == b.buffer
  {
    assert b.chunks[|b.chunks|..] == [];
  }

  /** A flush sends as many chunks as the channel takes or the buffer makes, whichever is
      less: all of 63,920 bytes but perhaps the last, and together with what stays
      exactly the bytes that were buffered. */
  lemma FlushSendsChunks(b: Backlog, takes: nat)
    ensures b.chunks <= Flushed(b, takes).chunks
    ensures var f := Flushed(b, takes);
      var sent := f.chunks[|b.chunks|..];
      && |sent| == (if takes <= (|b.buffer| + 63919) / 63920 then takes else (|b.buffer| + 63919) / 63920)
      && (forall i | 0 <= i < |sent| - 1 :: |sent[i]| == 63920)
      && (sent != [] ==> 0 < |sent[|sent| - 1]| <= 63920)
      && Flatten(sent) + f.buffer == b.buffer
      && (f.buffer == [] <==> takes >= (|b.buffer| + 63919) / 63920)
  {
    hide Flushed, Flatten;
    FlushCounts(b, takes);
    FlushCuts(b, takes);
  }

  lemma OneChunkLess(bytes: nat, rest: nat)
    requires bytes > 0 && rest == (if bytes >= 63920 then bytes - 63920 else 0)
    ensures ChunksFor(bytes) == ChunksFor(rest) + 1
  {
  }

  // The chunk that left first is one of those sent.
  lemma FirstChunk(b: Backlog, next: Backlog, f: Backlog, chunk: Bytes)
    requires next.chunks == b.chunks + [chunk] && next.chunks <= f.chunks
    ensures b.chunks <= f.chunks && f.chunks[|b.chunks|..] == [chunk] + f.chunks[|next.chunks|..]
    ensures Flatten(f.chunks[|b.chunks|..]) == chunk + Flatten(f.chunks[|next.chunks|..])
  {
    var sent, more := f.chunks[|b.chunks|..], f.chunks[|next.chunks|..];
    assert f.chunks[|b.chunks|] == chunk;
    assert sent == [chunk] + more && sent[1..] == more;
  }

  /** A write that leaves more than 65,536 packets waiting keeps exactly the newest 32,768
      of them; else it keeps them all. */
  lemma TrimKeepsTheNewest(b: Backlog)
    ensures var t := Trimmed(b);
      && t.chunks == b.chunks
      && (|b.buffer| > 188 * 65536 ==> t.buffer == b.buffer[|b.buffer| - 188 * 32768..])
      && (|b.buffer| <= 188 * 65536 ==> t.buffer == b.buffer)
  {
    assert MAX_BUFFERED / 2 == 188 * 32768;
  }

  /** A write whose takes suffice leaves nothing waiting. */
  lemma WriteSendsAll(b: Backlog, p: Bytes, takes: nat)
    requires p != [] && takes >= (|b.buffer| + |p| + 63919) / 63920
    ensures var w := Written(b, p, takes);
      && w.buffer == [] && b.chunks <= w.chunks && Flatten(w.chunks[|b.chunks|..]) == b.buffer + p
  {
    hide Flushed, Flatten;
    FlushSendsChunks(b.(buffer := b.buffer + p), takes);
    var w := Written(b, p, takes);
    assert Flatten(w.chunks[|b.chunks|..]) + [] == Flatten(w.chunks[|b.chunks|..]);
  }
}
