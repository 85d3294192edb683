/** Packets read from the driver enter one queue per receiver (src/nim_controller.cpp). */
module TsIngest {
  import opened Prelude
  import opened TsPackets

  const RECEIVERS := 4
  const MAX_QUEUED := 65536
  const NULL_PACKET: Bytes := [0x47, 0x1f, 0xff, 0x00] + seq(184, _ => 0xff)

  datatype Counters = Counters(
    transportPackets: nat, validPackets: nat, nullPackets: nat, syncErrors: nat, inSequenceErrors: nat,
    outSequenceErrors: nat, restartErrors: nat, overflowErrors: nat, lastIn: Option<nat>, lastOut: Option<nat>)

  const NO_COUNTS: Counters := Counters(0, 0, 0, 0, 0, 0, 0, 0, None, None)

  datatype Nim = Nim(counters: seq<Counters>, queues: seq<seq<Bytes>>)

  predicate Shaped(n: Nim) {
    |n.counters| == RECEIVERS && |n.queues| == RECEIVERS
  }

  // The status word: bits 12-13 the receiver, 8 valid, 9 restart, 10 overflow, 20-23
  // left-out null packets, 24-27 and 28-31 the sequence numbers.
  function Field(status: Uint32, shift: nat, width: nat): nat
    requires shift > 0 && width > 0
  {
    status / shift % width
  }

  function ReceiverOf(status: Uint32): (r: nat)
    ensures r < RECEIVERS
  {
    Field(status, 0x1000, 4)
  }

  function NullsOf(status: Uint32): nat {
    Field(status, 0x10_0000, 16)
  }

  predicate IsValid(status: Uint32) {
    Field(status, 0x100, 2) == 1
  }

  predicate IsKept(ts: Bytes, status: Uint32)
    requires IsPacket(ts)
  {
    ts[0] == SYNC && IsValid(status)
  }

  // What one driver packet adds to its receiver's queue.
  function Added(ts: Bytes, status: Uint32): (ps: seq<Bytes>)
    requires IsPacket(ts)
    ensures AllSynced(ps)
  {
    if IsKept(ts, status) then seq(NullsOf(status), _ => NULL_PACKET) + [ts] else []
  }

  function Enqueued(queue: seq<Bytes>, p: Bytes): (q: seq<Bytes>)
    ensures |queue| <= MAX_QUEUED ==> |q| <= MAX_QUEUED
  {
    (if |queue| >= MAX_QUEUED then queue[1..] else queue) + [p]
  }

  function EnqueuedAll(queue: seq<Bytes>, ps: seq<Bytes>): (q: seq<Bytes>)
    ensures |queue| <= MAX_QUEUED ==> |q| <= MAX_QUEUED
  {
    if ps == [] then queue else Enqueued(EnqueuedAll(queue, ps[..|ps| - 1]), ps[|ps| - 1])
  }

  function Dropped(queue: seq<Bytes>, ps: seq<Bytes>): nat {
    if ps == [] then 0
    else
      Dropped(queue, ps[..|ps| - 1]) + (if |EnqueuedAll(queue, ps[..|ps| - 1])| >= MAX_QUEUED then 1 else 0)
  }

  function NextSequence(last: Option<nat>, current: nat): nat {
    if last.Some? && (current - last.value) % 16 != 1 then 1 else 0
  }

  function SequenceOut(c: Counters, sequence: nat): Counters {
    c.(outSequenceErrors := c.outSequenceErrors + NextSequence(c.lastOut, sequence), lastOut := Some(sequence))
  }

  function SequenceIn(c: Counters, sequence: nat): Counters {
    c.(inSequenceErrors := c.inSequenceErrors + NextSequence(c.lastIn, sequence), lastIn := Some(sequence))
  }

  // The outgoing sequence is counted at the first receiver of the pair.
  function Counted(counters: seq<Counters>, ts: Bytes, status: Uint32, dropped: nat): (c: seq<Counters>)
    requires |counters| == RECEIVERS && IsPacket(ts)
    ensures |c| == RECEIVERS
  {
    var r, nulls := ReceiverOf(status), NullsOf(status);
    var c0 := counters[r];
    var c1 := c0.(transportPackets := c0.transportPackets + 1 + nulls, nullPackets := c0.nullPackets + nulls);
    if ts[0] != SYNC then counters[r := c1.(syncErrors := c1.syncErrors + 1)]
    else if !IsValid(status) then counters[r := c1]
    else
      var pic := r - r % 2;
      var seen := counters[r := c1.(validPackets := c1.validPackets + 1)];
      var outed := seen[pic := SequenceOut(seen[pic], Field(status, 0x100_0000, 16))];
      var inned := SequenceIn(outed[r], Field(status, 0x1000_0000, 16));
      outed[r := inned.(restartErrors := inned.restartErrors + Field(status, 0x200, 2),
                        overflowErrors := inned.overflowErrors + Field(status, 0x400, 2) + dropped)]
  }

  function Ingested(n: Nim, ts: Bytes, status: Uint32): (m: Nim)
    requires Shaped(n) && IsPacket(ts)
    ensures Shaped(m)
  {
    var r := ReceiverOf(status);
    var added := Added(ts, status);
    Nim(Counted(n.counters, ts, status, Dropped(n.queues[r], added)),
        n.queues[r := EnqueuedAll(n.queues[r], added)])
  }

  class NimController {
    var counters: seq<Counters>
    var queues: seq<seq<Bytes>>

    ghost function State(): Nim
      reads this
    {
      Nim(counters, queues)
    }

    constructor ()
      ensures Shaped(State()) && State() == Nim(seq(RECEIVERS, _ => NO_COUNTS), seq(RECEIVERS, _ => []))
    {
      counters := seq(RECEIVERS, _ => NO_COUNTS);
      queues := seq(RECEIVERS, _ => []);
    }

    method EnqueuePacket(receiver: nat, ts: Bytes)
      requires Shaped(State()) && receiver < RECEIVERS
      modifies this
      ensures queues == old(queues)[receiver := Enqueued(old(queues)[receiver], ts)]
      ensures counters == old(counters)[receiver := old(counters)[receiver].(
                overflowErrors := old(counters)[receiver].overflowErrors
                                  + if |old(queues)[receiver]| >= MAX_QUEUED then 1 else 0)]
    {
      var queue := queues[receiver];
      if |queue| >= MAX_QUEUED {
        queue := queue[1..];
        counters := counters[receiver := counters[receiver].(overflowErrors := counters[receiver].overflowErrors + 1)];
      }
      queues := queues[receiver := queue + [ts]];
    }

    method IngestPacket(ts: Bytes, status: Uint32)
      requires Shaped(State()) && IsPacket(ts)
      modifies this
      ensures State() == Ingested(old(State()), ts, status)
    {
      hide EnqueuedAll, Enqueued, Dropped, SequenceOut, SequenceIn, IsValid, NullsOf;
      var r := ReceiverOf(status);
      var nulls := NullsOf(status);
      var mine := counters[r];
      mine := mine.(transportPackets := mine.transportPackets + 1 + nulls, nullPackets := mine.nullPackets + nulls);
      if ts[0] != SYNC {
        counters := counters[r := mine.(syncErrors := mine.syncErrors + 1)];
        NothingAdded(queues[r]);
        assert queues == old(queues)[r := queues[r]];
        return;
      }
      if !IsValid(status) {
        counters := counters[r := mine];
        NothingAdded(queues[r]);
        assert queues == old(queues)[r := queues[r]];
        return;
      }
      counters := counters[r := mine.(validPackets := mine.validPackets + 1)];
      var pic := r - r % 2;
      counters := counters[pic := SequenceOut(counters[pic], Field(status, 0x100_0000, 16))];
      counters := counters[r := SequenceIn(counters[r], Field(status, 0x1000_0000, 16))];
      counters := counters[r := counters[r].(
        restartErrors := counters[r].restartErrors + Field(status, 0x200, 2),
        overflowErrors := counters[r].overflowErrors + Field(status, 0x400, 2))];
      EnqueueAdded(r, nulls, ts);
      assert Added(ts, status) == seq(nulls, _ => NULL_PACKET) + [ts];
    }

    // The loop over the left-out null packets, and the packet itself.
    method EnqueueAdded(r: nat, nulls: nat, ts: Bytes)
      requires Shaped(State()) && r < RECEIVERS
      modifies this
      ensures var added := seq(nulls, _ => NULL_PACKET) + [ts];
        && queues == old(queues)[r := EnqueuedAll(old(queues)[r], added)]
        && counters == old(counters)[r := old(counters)[r].(
             overflowErrors := old(counters)[r].overflowErrors + Dropped(old(queues)[r], added))]
    {
      hide Enqueued;
      ghost var added := seq(nulls, _ => NULL_PACKET) + [ts];
      var index := 0;
      while index < nulls
        invariant 0 <= index <= nulls && |queues| == RECEIVERS && |counters| == RECEIVERS
        invariant queues == old(queues)[r := EnqueuedAll(old(queues)[r], added[..index])]
        invariant counters == old(counters)[r := old(counters)[r].(
             overflowErrors := old(counters)[r].overflowErrors + Dropped(old(queues)[r], added[..index]))]
      {
        assert added[..index + 1][..index] == added[..index];
        EnqueuePacket(r, NULL_PACKET);
        index := index + 1;
      }
      assert added[..nulls + 1] == added;
      assert added[..nulls + 1][..nulls] == added[..nulls];
      EnqueuePacket(r, ts);
    }

    // Up to maxPackets from the front of the queue.
    method DrainTransportPackets(receiver: nat, maxPackets: nat) returns (packets: seq<Bytes>)
      requires Shaped(State())
      modifies this`queues
      ensures Shaped(State())
      ensures receiver >= RECEIVERS ==> packets == [] && queues == old(queues)
      ensures receiver < RECEIVERS ==>
        && |packets| == Min(maxPackets, |old(queues)[receiver]|)
        && old(queues)[receiver] == packets + queues[receiver]
        && queues == old(queues)[receiver := queues[receiver]]
    {
      packets := [];
      if receiver >= RECEIVERS || maxPackets == 0 {
        return;
      }
      var queue := queues[receiver];
      while queue != [] && |packets| < maxPackets
        invariant packets + queue == old(queues)[receiver] && |packets| <= maxPackets
        decreases |queue|
      {
        packets := packets + [queue[0]];
        queue := queue[1..];
      }
      queues := queues[receiver := queue];
    }
  }

  lemma NothingAdded(queue: seq<Bytes>)
    ensures EnqueuedAll(queue, []) == queue && Dropped(queue, []) == 0
  {
  }

  /** A queue keeps the newest packets whole and in order, and counts what it drops:
      what was there and what came are, together, the dropped packets and the queue. */
  lemma {:induction false} QueueKeepsTheNewest(queue: seq<Bytes>, ps: seq<Bytes>)
    requires |queue| <= MAX_QUEUED
    ensures var dropped := Dropped(queue, ps);
      dropped <= |queue + ps| && EnqueuedAll(queue, ps) == (queue + ps)[dropped..]
    ensures Dropped(queue, ps) == Max(0, |queue| + |ps| - MAX_QUEUED)
  {
    if ps == [] {
      assert queue + ps == queue;
    } else {
      var before, last := ps[..|ps| - 1], ps[|ps| - 1];
      QueueKeepsTheNewest(queue, before);
      assert queue + ps == (queue + before) + [last];
    }
  }
}
