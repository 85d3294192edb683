/** The UDP sink of src/ts_gateway_sink.cpp: packets leave in datagrams of seven. */
module TsGatewaySink {
  import opened Prelude
  import opened TsPackets

  const DATAGRAM := 1316

  // sent holds the datagrams the socket took; errors counts the others.
  datatype Sink = Sink(datagram: Bytes, sent: seq<Bytes>, errors: nat)

  const EMPTY: Sink := Sink([], [], 0)

  // ok: the address is valid and the socket takes the datagram.
  function Flushed(s: Sink, ok: bool): Sink {
    if s.datagram == [] then s
    else if ok then Sink([], s.sent + [s.datagram], s.errors)
    else Sink([], s.sent, s.errors + 1)
  }

  function Pushed(s: Sink, byte: Byte, ok: bool): Sink {
    var t := s.(datagram := s.datagram + [byte]);
    if |t.datagram| == DATAGRAM then Flushed(t, ok) else t
  }

  function PushedAll(s: Sink, bytes: Bytes, ok: bool): Sink {
    if bytes == [] then s
    else Pushed(PushedAll(s, bytes[..|bytes| - 1], ok), bytes[|bytes| - 1], ok)
  }

  // All datagrams that fill up during one write share one outcome; writers pass one
  // packet at a time, which fills at most one.
  function Written(s: Sink, packet: Bytes, ok: bool): Sink {
    if packet == [] then s
    else if !Aligned(packet) then s.(errors := s.errors + 1)
    else PushedAll(s, packet, ok)
  }

  // setActive and flush.
  function Activated(s: Sink, active: bool, ok: bool): Sink {
    if active then s else Flushed(s, ok)
  }

  function TotalBytes(parts: seq<Bytes>): nat {
    if parts == [] then 0 else TotalBytes(parts[..|parts| - 1]) + |parts[|parts| - 1]|
  }

  function TotalPackets(parts: seq<Bytes>): nat {
    if parts == [] then 0 else TotalPackets(parts[..|parts| - 1]) + |parts[|parts| - 1]| / PACKET
  }

  class Gateway {
    var datagram: Bytes
    var bytes: nat
    var transportPackets: nat
    var datagrams: nat
    var sendErrors: nat
    ghost var sent: seq<Bytes>

    ghost function State(): Sink
      reads this
    {
      Sink(datagram, sent, sendErrors)
    }

    // The counters add up what was sent.
    ghost predicate Valid()
      reads this
    {
      bytes == TotalBytes(sent) && transportPackets == TotalPackets(sent) && datagrams == |sent|
    }

    constructor ()
      ensures Valid() && State() == EMPTY
    {
      datagram, sent := [], [];
      bytes, transportPackets, datagrams, sendErrors := 0, 0, 0, 0;
    }

    method FlushDatagram(ok: bool)
      requires Valid()
      modifies this
      ensures Valid() && State() == Flushed(old(State()), ok)
    {
      if datagram == [] {
        return;
      }
      if ok {
        assert (sent + [datagram])[..|sent|] == sent;
        bytes := bytes + |datagram|;
        transportPackets := transportPackets + |datagram| / PACKET;
        datagrams := datagrams + 1;
        sent := sent + [datagram];
      } else {
        sendErrors := sendErrors + 1;
      }
      datagram := [];
    }

    method Write(packet: Bytes, ok: bool)
      requires Valid()
      modifies this
      ensures Valid() && State() == Written(old(State()), packet, ok)
    {
      if packet == [] {
        return;
      }
      if |packet| % PACKET != 0 {
        sendErrors := sendErrors + 1;
        return;
      }
      var k := 0;
      while k < |packet|
        invariant 0 <= k <= |packet| && Valid()
        invariant State() == PushedAll(old(State()), packet[..k], ok)
      {
        assert packet[..k + 1][..k] == packet[..k];
        datagram := datagram + [packet[k]];
        if |datagram| == DATAGRAM {
          FlushDatagram(ok);
        }
        k := k + 1;
      }
      assert packet[..k] == packet;
    }

    method SetActive(active: bool, ok: bool)
      requires Valid()
      modifies this
      ensures Valid() && State() == Activated(old(State()), active, ok)
    {
      if !active {
        FlushDatagram(ok);
      }
    }
  }

  // ------------------------------------------------------------- datagrams

  // A datagram as the gateway promises it.
  predicate GoodDatagram(d: Bytes) {
    d != [] && |d| <= DATAGRAM && Aligned(d)
  }

  predicate Shaped(s: Sink) {
    |s.datagram| < DATAGRAM && Aligned(s.datagram) && forall i | 0 <= i < |s.sent| :: GoodDatagram(s.sent[i])
  }

  lemma {:induction false} BytesGather(s: Sink, bytes: Bytes, ok: bool)
    requires |s.datagram| + |bytes| < DATAGRAM
    ensures PushedAll(s, bytes, ok) == s.(datagram := s.datagram + bytes)
  {
    if bytes == [] {
      assert s.datagram + bytes == s.datagram;
    } else {
      var n := |bytes| - 1;
      BytesGather(s, bytes[..n], ok);
      assert s.datagram + bytes == (s.datagram + bytes[..n]) + [bytes[n]];
    }
  }

  // One packet joins the datagram, which leaves when it holds seven.
  lemma PacketJoins(s: Sink, p: Bytes, ok: bool)
    requires Shaped(s) && IsPacket(p)
    ensures var t := s.(datagram := s.datagram + p);
      Written(s, p, ok) == (if |s.datagram| + PACKET == DATAGRAM then Flushed(t, ok) else t)
    ensures Shaped(Written(s, p, ok))
  {
    hide PushedAll, TotalBytes, TotalPackets;
    if |s.datagram| + PACKET < DATAGRAM {
      BytesGather(s, p, ok);
    } else {
      LastByte(s, p, ok);
    }
  }

  lemma LastByte(s: Sink, p: Bytes, ok: bool)
    requires p != [] && |s.datagram| + |p| == DATAGRAM
    ensures PushedAll(s, p, ok) == Flushed(s.(datagram := s.datagram + p), ok)
  {
    var n := |p| - 1;
    BytesGather(s, p[..n], ok);
    assert s.datagram + p == (s.datagram + p[..n]) + [p[n]];
  }

  /** A packet fails exactly when it fills a datagram that the socket refuses, and then
      exactly that datagram is lost; otherwise nothing is lost or reordered. */
  lemma WriteConserves(s: Sink, p: Bytes, ok: bool)
    requires Shaped(s) && IsPacket(p)
    ensures var t := Written(s, p, ok);
      && (t.errors == s.errors ==> Flatten(t.sent) + t.datagram == Flatten(s.sent) + s.datagram + p)
      && (t.errors != s.errors ==> t == Sink([], s.sent, s.errors + 1) && |s.datagram + p| == DATAGRAM)
      && (t.errors != s.errors <==> !ok && |s.datagram| + |p| == DATAGRAM)
  {
    hide Flatten;
    PacketJoins(s, p, ok);
    var t := s.(datagram := s.datagram + p);
    FlattenConcat(s.sent, [t.datagram]);
    FlattenSingle(t.datagram);
    assert Flatten(s.sent) + s.datagram + p == Flatten(s.sent) + (s.datagram + p);
    assert Flatten(s.sent + [t.datagram]) + [] == Flatten(s.sent + [t.datagram]);
  }

  lemma FlattenSingle(b: Bytes)
    ensures Flatten([b]) == b
  {
    assert b + [] == b;
  }

  /** The byte and packet counters agree: whole packets were counted. */
  lemma {:induction false} CountersAgree(parts: seq<Bytes>)
    requires forall i | 0 <= i < |parts| :: GoodDatagram(parts[i])
    ensures TotalBytes(parts) == PACKET * TotalPackets(parts)
  {
    if parts != [] {
      CountersAgree(parts[..|parts| - 1]);
    }
  }

  /** A write that is no whole number of packets is refused and counted, and changes nothing
      else; an empty one changes nothing at all. */
  lemma UnalignedIsRefused(s: Sink, packet: Bytes, ok: bool)
    ensures |packet| % 188 != 0 ==> Written(s, packet, ok) == Sink(s.datagram, s.sent, s.errors + 1)
    ensures packet == [] ==> Written(s, packet, ok) == s
  {
  }
}
