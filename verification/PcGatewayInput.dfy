/** The UDP input of src/pc_gateway_input.cpp: checks datagrams and splits them. */
module PcGatewayInput {
  import opened Prelude
  import opened TsPackets

  datatype Stats = Stats(datagrams: nat, bytes: nat, alignmentErrors: nat, syncErrors: nat, transportPackets: nat)

  const NO_STATS: Stats := Stats(0, 0, 0, 0, 0)

  // recv cuts a datagram that does not fit the buffer.
  function Cut(d: Bytes, bufferSize: nat): Bytes {
    if |d| <= bufferSize then d else d[..bufferSize]
  }

  predicate Synced(b: Bytes) {
    Aligned(b) && AllSynced(Packets(b))
  }

  function Passed(b: Bytes): (ps: seq<Bytes>) {
    if Synced(b) then Packets(b) else []
  }

  function Counted(s: Stats, b: Bytes): Stats {
    var t := s.(datagrams := s.datagrams + 1, bytes := s.bytes + |b|);
    if !Aligned(b) then t.(alignmentErrors := t.alignmentErrors + 1)
    else if !Synced(b) then t.(syncErrors := t.syncErrors + 1)
    else t.(transportPackets := t.transportPackets + |Packets(b)|)
  }

  datatype Pumped = Pumped(stats: Stats, written: seq<Bytes>, rest: seq<Bytes>)

  // Everything that waits, up to an empty datagram, which ends the pump.
  function Pump(s: Stats, waiting: seq<Bytes>, bufferSize: nat): Pumped
    decreases |waiting|
  {
    if waiting == [] then Pumped(s, [], [])
    else
      var b := Cut(waiting[0], bufferSize);
      if b == [] then Pumped(s, [], waiting[1..])
      else
        var more := Pump(Counted(s, b), waiting[1..], bufferSize);
        more.(written := Passed(b) + more.written)
  }

  class Input {
    const packetSize: nat
    var datagrams: nat
    var bytes: nat
    var alignmentErrors: nat
    var syncErrors: nat
    var transportPackets: nat

    ghost function State(): Stats
      reads this
    {
      Stats(datagrams, bytes, alignmentErrors, syncErrors, transportPackets)
    }

    // A size of zero means the default.
    constructor (packetSize: nat)
      ensures State() == NO_STATS && this.packetSize == if packetSize == 0 then 1316 else packetSize
    {
      this.packetSize := if packetSize == 0 then 1316 else packetSize;
      datagrams, bytes, alignmentErrors, syncErrors, transportPackets := 0, 0, 0, 0, 0;
    }

    method IsSynced(b: Bytes) returns (valid: bool)
      requires Aligned(b)
      ensures valid == Synced(b)
    {
      valid := true;
      var offset := 0;
      while offset < |b|
        invariant 0 <= offset <= |b| && offset % PACKET == 0
        invariant valid && (AllSynced(Packets(b)) <==> AllSynced(Packets(b[offset..])))
      {
        var rest := b[offset..];
        assert rest[PACKET..] == b[offset + PACKET..];
        FirstSynced(rest);
        if b[offset] != SYNC {
          valid := false;
          break;
        }
        offset := offset + PACKET;
      }
      if valid {
        assert b[offset..] == [];
      }
    }

    // The packets of a checked datagram, one write each.
    method Split(b: Bytes) returns (written: seq<Bytes>)
      requires Aligned(b)
      modifies this`transportPackets
      ensures written == Packets(b) && transportPackets == old(transportPackets) + |written|
    {
      written := [];
      var offset := 0;
      while offset < |b|
        invariant 0 <= offset <= |b| && offset % PACKET == 0
        invariant Packets(b) == written + Packets(b[offset..])
        invariant transportPackets == old(transportPackets) + |written|
      {
        var rest := b[offset..];
        assert rest[..PACKET] == b[offset..offset + PACKET] && rest[PACKET..] == b[offset + PACKET..];
        assert written + Packets(rest) == (written + [rest[..PACKET]]) + Packets(rest[PACKET..]);
        written := written + [b[offset..offset + PACKET]];
        transportPackets := transportPackets + 1;
        offset := offset + PACKET;
      }
      assert b[offset..] == [];
    }

    method DoPump(waiting: seq<Bytes>) returns (written: seq<Bytes>, rest: seq<Bytes>)
      modifies this
      ensures Pumped(State(), written, rest) == Pump(old(State()), waiting, packetSize)
    {
      hide Synced, Passed;
      written, rest := [], waiting;
      while rest != []
        invariant var more := Pump(State(), rest, packetSize);
          Pump(old(State()), waiting, packetSize) == more.(written := written + more.written)
        decreases |rest|
      {
        ghost var before := State();
        var buffer := Cut(rest[0], packetSize);
        ghost var more := Pump(Counted(State(), buffer), rest[1..], packetSize);
        rest := rest[1..];
        if buffer == [] {
          return;
        }
        assert Pump(old(State()), waiting, packetSize) == more.(written := written + (Passed(buffer) + more.written));
        datagrams, bytes := datagrams + 1, bytes + |buffer|;
        if |buffer| % PACKET != 0 {
          alignmentErrors := alignmentErrors + 1;
          Misaligned(buffer);
          NotPassed(buffer);
        } else {
          var valid := IsSynced(buffer);
          if !valid {
            syncErrors := syncErrors + 1;
            NotPassed(buffer);
          } else {
            var split := Split(buffer);
            WasPassed(buffer);
            assert written + (split + more.written) == (written + split) + more.written;
            written := written + split;
          }
        }
        assert State() == Counted(before, buffer);
      }
    }
  }

  lemma Misaligned(b: Bytes)
    requires |b| % PACKET != 0
    ensures !Synced(b)
  {
  }

  lemma NotPassed(b: Bytes)
    requires !Synced(b)
    ensures Passed(b) == [] && forall more: seq<Bytes> :: Passed(b) + more == more
  {
  }

  lemma WasPassed(b: Bytes)
    requires Synced(b)
    ensures Passed(b) == Packets(b)
  {
  }

  lemma FirstSynced(b: Bytes)
    requires Aligned(b) && b != []
    ensures AllSynced(Packets(b)) <==> b[0] == SYNC && AllSynced(Packets(b[PACKET..]))
  {
    var ps, rest := Packets(b), Packets(b[PACKET..]);
    assert ps[0] == b[..PACKET] && ps[0][0] == b[0];
    assert forall i | 0 <= i < |rest| :: ps[i + 1] == rest[i];
  }

  /** A datagram the gateway sends passes, cut to the buffer if need be, and yields
      its packets, or the first of them. */
  lemma SyncedPasses(d: Bytes, bufferSize: nat)
    requires Synced(d) && bufferSize % PACKET == 0
    ensures var b := Cut(d, bufferSize);
      Synced(b) && Passed(b) == Packets(b) && Sub(Passed(b), Packets(d))
      && (|d| <= bufferSize ==> Passed(b) == Packets(d))
  {
    hide Packets, Sub;
    if |d| <= bufferSize {
      SubRefl(Packets(d));
    } else {
      CutIsSub(d, bufferSize);
      var head := Packets(d[..bufferSize]);
      assert forall i | 0 <= i < |head| :: head[i] == Packets(d)[i];
    }
  }

  // --------------------------------------------------------- what a pump does

  /** A datagram is synced exactly when it is whole packets and each begins with 0x47. */
  lemma {:induction false} SyncedMeans(b: Bytes)
    ensures Synced(b) <==> |b| % 188 == 0 && forall k: nat | 188 * k < |b| :: b[188 * k] == 0x47
    decreases |b|
  {
    if Aligned(b) && b != [] {
      var rest := b[188..];
      SyncedMeans(rest);
      FirstSynced(b);
      assert forall k: nat | 188 * k < |rest| :: rest[188 * k] == b[188 * (k + 1)];
      if forall k: nat | 188 * k < |b| :: b[188 * k] == 0x47 {
        assert b[188 * 0] == 0x47;
      } else if b[0] == 0x47 {
        var k: nat :| 188 * k < |b| && b[188 * k] != 0x47;
        assert rest[188 * (k - 1)] == b[188 * k];
      }
    }
  }

  // What the datagrams of a pump add up to.
  predicate NoneEmpty(ds: seq<Bytes>) {
    forall i | 0 <= i < |ds| :: ds[i] != []
  }

  function Lengths(ds: seq<Bytes>, bufferSize: nat): nat {
    if ds == [] then 0
    else (if |ds[0]| <= bufferSize then |ds[0]| else bufferSize) + Lengths(ds[1..], bufferSize)
  }

  function Misfits(ds: seq<Bytes>, bufferSize: nat): nat {
    if ds == [] then 0
    else (if |Cut(ds[0], bufferSize)| % 188 != 0 then 1 else 0) + Misfits(ds[1..], bufferSize)
  }

  function Unsynced(ds: seq<Bytes>, bufferSize: nat): nat {
    if ds == [] then 0
    else
      var b := Cut(ds[0], bufferSize);
      (if |b| % 188 == 0 && !Synced(b) then 1 else 0) + Unsynced(ds[1..], bufferSize)
  }

  function AllPassed(ds: seq<Bytes>, bufferSize: nat): seq<Bytes> {
    if ds == [] then [] else Passed(Cut(ds[0], bufferSize)) + AllPassed(ds[1..], bufferSize)
  }

  /** Without an empty datagram a pump takes all that wait: it writes the packets of the synced
      ones in order, and counts every datagram, the bytes read, those that are not whole
      packets, those out of sync, and the packets written. */
  lemma {:induction false} PumpTakesAll(s: Stats, ds: seq<Bytes>, bufferSize: nat)
    requires NoneEmpty(ds) && bufferSize > 0
    ensures var p := Pump(s, ds, bufferSize);
      && p.rest == [] && p.written == AllPassed(ds, bufferSize)
      && p.stats.datagrams == s.datagrams + |ds| && p.stats.bytes == s.bytes + Lengths(ds, bufferSize)
      && p.stats.alignmentErrors == s.alignmentErrors + Misfits(ds, bufferSize)
      && p.stats.syncErrors == s.syncErrors + Unsynced(ds, bufferSize)
      && p.stats.transportPackets == s.transportPackets + |p.written|
    decreases |ds|
  {
    hide Synced;
    if ds != [] {
      var b := Cut(ds[0], bufferSize);
      assert b != [];
      PumpTakesAll(Counted(s, b), ds[1..], bufferSize);
      CountsOne(s, b);
    }
  }

  lemma CountsOne(s: Stats, b: Bytes)
    ensures Counted(s, b) ==
            Stats(s.datagrams + 1, s.bytes + |b|, s.alignmentErrors + (if |b| % 188 != 0 then 1 else 0),
                  s.syncErrors + (if |b| % 188 == 0 && !Synced(b) then 1 else 0),
                  s.transportPackets + |Passed(b)|)
  {
    hide AllSynced;
  }

  /** An empty datagram ends the pump: those before it are taken, it is neither counted nor
      written, and those behind it stay. */
  lemma {:induction false} PumpEndsAtEmpty(s: Stats, before: seq<Bytes>, after: seq<Bytes>, bufferSize: nat)
    requires NoneEmpty(before) && bufferSize > 0
    ensures Pump(s, before + [[]] + after, bufferSize) == Pump(s, before, bufferSize).(rest := after)
    decreases |before|
  {
    hide Counted, Passed;
    var all := before + [[]] + after;
    if before == [] {
      assert all[0] == [] && all[1..] == after;
    } else {
      assert all[0] == before[0] && all[1..] == before[1..] + [[]] + after;
      PumpEndsAtEmpty(Counted(s, Cut(before[0], bufferSize)), before[1..], after, bufferSize);
    }
  }
}
