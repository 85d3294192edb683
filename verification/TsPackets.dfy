/** Transport-stream packets in byte buffers. */
module TsPackets {
  import opened Prelude

  const PACKET := 188
  const SYNC: Byte := 0x47

  predicate IsPacket(p: Bytes) {
    |p| == PACKET
  }

  predicate Aligned(b: Bytes) {
    |b| % PACKET == 0
  }

  // The packets an aligned buffer is made of.
  function Packets(b: Bytes): (ps: seq<Bytes>)
    requires Aligned(b)
    ensures |ps| * PACKET == |b|
    ensures forall p | p in ps :: IsPacket(p)
  {
    if b == [] then [] else [b[..PACKET]] + Packets(b[PACKET..])
  }

  predicate AllSynced(ps: seq<Bytes>) {
    forall i | 0 <= i < |ps| :: IsPacket(ps[i]) && ps[i][0] == SYNC
  }

  predicate AllAligned(parts: seq<Bytes>) {
    forall i | 0 <= i < |parts| :: Aligned(parts[i])
  }

  lemma PacketsOne(p: Bytes)
    requires IsPacket(p)
    ensures Packets(p) == [p]
  {
    assert p[..PACKET] == p;
  }

  lemma {:induction false} PacketsConcat(a: Bytes, b: Bytes)
    requires Aligned(a) && Aligned(b)
    ensures Aligned(a + b) && Packets(a + b) == Packets(a) + Packets(b)
  {
    if a == [] {
      assert a + b == b;
    } else {
      assert (a + b)[..PACKET] == a[..PACKET] && (a + b)[PACKET..] == a[PACKET..] + b;
      PacketsConcat(a[PACKET..], b);
    }
  }

  // The packets of a run of aligned buffers.
  function PacketsOf(parts: seq<Bytes>): seq<Bytes>
    requires AllAligned(parts)
  {
    if parts == [] then [] else Packets(parts[0]) + PacketsOf(parts[1..])
  }

  lemma {:induction false} PacketsOfConcat(a: seq<Bytes>, b: seq<Bytes>)
    requires AllAligned(a) && AllAligned(b)
    ensures AllAligned(a + b) && PacketsOf(a + b) == PacketsOf(a) + PacketsOf(b)
  {
    if a == [] {
      assert a + b == b;
    } else {
      assert (a + b)[1..] == a[1..] + b;
      PacketsOfConcat(a[1..], b);
    }
  }

  lemma PacketsOfOne(b: Bytes)
    requires Aligned(b)
    ensures PacketsOf([b]) == Packets(b)
  {
  }

  // Keeping whole packets at either end of a buffer keeps a subsequence of its packets.
  lemma CutIsSub(b: Bytes, at: nat)
    requires Aligned(b) && at <= |b| && at % PACKET == 0
    ensures Aligned(b[..at]) && Aligned(b[at..])
    ensures Packets(b) == Packets(b[..at]) + Packets(b[at..])
    ensures Sub(Packets(b[..at]), Packets(b)) && Sub(Packets(b[at..]), Packets(b))
  {
    hide Packets, Sub;
    PacketsConcat(b[..at], b[at..]);
    assert b[..at] + b[at..] == b;
    var head, tail := Packets(b[..at]), Packets(b[at..]);
    SubRefl(head);
    SubRefl(tail);
    SubConcat(head, head, [], tail);
    NothingIsSub(head);
    NothingIsSub(tail);
    SubConcat([], head, tail, tail);
    assert head + [] == head && [] + tail == tail;
  }

  lemma NothingIsSub<T>(b: seq<T>)
    ensures Sub([], b)
  {
  }

  lemma {:induction false} SubHas<T>(a: seq<T>, b: seq<T>, x: T)
    requires Sub(a, b) && x in a
    ensures x in b
    decreases |b|
  {
    if a[0] == b[0] && Sub(a[1..], b[1..]) {
      if x != a[0] { SubHas(a[1..], b[1..], x); }
    } else {
      SubHas(a, b[1..], x);
    }
  }
}
