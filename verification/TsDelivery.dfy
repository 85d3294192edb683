/** Packets do arrive: what selecting, pumping, receiving and flushing bring to the media
    child, step by step and from the tuner's queue to the child. */
module TsDelivery {
  import opened Prelude
  import opened TsPackets
  import opened TsPath
  import G = TsGatewaySink
  import I = PcGatewayInput
  import Q = TsIngest
  import B = TransportBacklog

  function Forward(p: Path, events: seq<Event>, size: nat): Path
    decreases |events|
  {
    if events == [] then p else Forward(Next(p, events[0], size), events[1..], size)
  }

  lemma {:induction false} ForwardIsRun(events: seq<Event>, more: seq<Event>, size: nat)
    ensures Run(events + more, size) == Forward(Run(events, size), more, size)
    decreases |more|
  {
    hide Next;
    if more == [] {
      assert events + more == events;
    } else {
      assert (events + [more[0]])[..|events|] == events;
      ForwardIsRun(events + [more[0]], more[1..], size);
      assert events + [more[0]] + more[1..] == events + more;
    }
  }

  lemma {:induction false} ForwardTwice(p: Path, a: seq<Event>, b: seq<Event>, size: nat)
    ensures Forward(p, a + b, size) == Forward(Forward(p, a, size), b, size)
    decreases |a|
  {
    hide Next;
    if a == [] {
      assert a + b == b;
    } else {
      assert (a + b)[1..] == a[1..] + b;
      ForwardTwice(Next(p, a[0], size), a[1..], b, size);
    }
  }

  // ------------------------------------------------------------- single steps

  lemma PumpLeavesTheRest(p: Path, packets: seq<Bytes>, oks: seq<bool>)
    ensures var q := PumpWrites(p, packets, oks);
      && q.backlog == p.backlog && q.queues == p.queues && q.drained == p.drained && q.active == p.active
      && q.queued == p.queued
    decreases |packets|
  {
    hide G.Written;
    if packets != [] {
      PumpLeavesTheRest(Wired(p, G.Written(SinkOf(p), packets[0], OkAt(oks))), packets[1..], Rest(oks));
    }
  }

  /** A packet from the driver joins its receiver's queue, behind the null packets left out
      before it; what is beyond 65,536 packets goes from the front. Tuning empties the queue. */
  lemma IngestingQueues(p: Path, ts: Bytes, status: Uint32, size: nat)
    requires Inv(p) && IsPacket(ts)
    ensures var q, r, added := Step(p, Ingest(ts, status), size), Q.ReceiverOf(status), Q.Added(ts, status);
      var all := p.queues[r] + added;
      && q.queues[r] == all[if |all| <= 65536 then 0 else |all| - 65536..]
      && q.queued[r] == p.queued[r] + added
      && (forall k | 0 <= k < 4 && k != r :: q.queues[k] == p.queues[k] && q.queued[k] == p.queued[k])
      && q.drained == p.drained && q.wire == p.wire && q.datagram == p.datagram && q.backlog == p.backlog
  {
    hide Q.EnqueuedAll, Q.Added, Delivered, Sub, PathKeeps, QueueKeeps;
    SizesOf(p);
    Q.QueueKeepsTheNewest(p.queues[Q.ReceiverOf(status)], Q.Added(ts, status));
  }

  lemma TuningClears(p: Path, r: nat, size: nat)
    requires Inv(p) && r < 4
    ensures Step(p, Tune(r), size).queues == p.queues[r := []]
    ensures Step(p, Tune(r), size).drained == p.drained && Step(p, Tune(r), size).backlog == p.backlog
  {
    SizesOf(p);
  }

  /** Selecting takes effect at once, and selecting nothing sends the gathered rest. */
  lemma SelectingTakesEffect(p: Path, active: Option<nat>, ok: bool, size: nat)
    requires Inv(p)
    ensures var q := Step(p, Select(active, ok), size);
      && q.active == active && q.queues == p.queues && q.drained == p.drained && q.backlog == p.backlog
      && (active.None? ==> q.datagram == [])
      && (active.None? && ok && p.datagram != [] ==> q.wire == p.wire + [p.datagram])
      && (active.Some? ==> q.datagram == p.datagram && q.wire == p.wire)
  {
    assert p.wire + [] == p.wire;
  }

  /** A pump takes the whole queue of the active receiver, in its order, whatever the sends
      meet; without an active receiver it takes nothing. */
  lemma PumpTakesTheQueue(p: Path, oks: seq<bool>, size: nat)
    requires Inv(p)
    ensures var q := Step(p, Pump(oks), size);
      if p.active.Some? && p.active.value < 4 then
        var r := p.active.value;
        && q.queues == p.queues[r := []] && Unlabelled(q.drained) == Unlabelled(p.drained) + p.queues[r]
        && q.backlog == p.backlog && q.active == p.active
      else q == p
  {
    hide PumpWrites, Unlabelled, Labelled, Delivered, Sub, From;
    if p.active.Some? && p.active.value < 4 {
      var r := p.active.value;
      var (q, packets) := Drain(p, r);
      DrainParts(p, r, r);
      PumpLeavesTheRest(q, packets, oks);
      assert p.queues[r][..|p.queues[r]|] == p.queues[r] && p.queues[r][|p.queues[r]|..] == [];
    }
  }

  // Without room in the channel nothing leaves the backlog.
  lemma {:induction false} WaitingChunks(p: Path, packets: seq<Bytes>)
    ensures var q := BacklogWrites(p, packets, []);
      q == p.(backlog := q.backlog, whole := q.whole) && q.backlog.chunks == p.backlog.chunks
    decreases |packets|
  {
    hide B.Overflows;
    if packets != [] {
      WaitingChunks(p.(backlog := B.Written(p.backlog, packets[0], 0),
                       whole := p.whole && !B.Overflows(p.backlog, packets[0], 0)), packets[1..]);
    }
  }

  lemma PendingIsTheRest(p: Path)
    requires Inv(p)
    ensures Shaped(p) && (p.whole ==> PacketsOf(p.backlog.chunks) + Pending(p) == Unlabelled(p.drained))
  {
    hide Packets, PacketsOf, Unlabelled, Sub;
    Assoc(PacketsOf(p.backlog.chunks), Packets(p.backlog.buffer), PacketsOf(p.wire) + Packets(p.datagram));
  }

  lemma FirstFits(p: Path)
    requires Shaped(p) && p.wire != [] && |Pending(p)| <= 65536
    ensures |p.backlog.buffer| + |p.wire[0]| <= B.MAX_BUFFERED && |p.wire[0]| <= 1316
  {
    hide Packets;
    var one := p.wire[0];
    assert PacketsOf(p.wire) == Packets(one) + PacketsOf(p.wire[1..]);
    assert |Packets(p.backlog.buffer)| + |Packets(one)| <= 65536;
  }

  /** While there is room, a reception moves the first datagram from the wire to the backlog
      and loses nothing. */
  lemma ReceptionMovesOne(p: Path, size: nat)
    requires Inv(p) && p.whole && p.wire != [] && size % PACKET == 0 && size >= 1316 && |Pending(p)| <= 65536
    ensures var q := Step(p, Receive([]), size);
      && Inv(q) && q.whole && q.wire == p.wire[1..] && q.datagram == p.datagram && q.drained == p.drained
      && q.queues == p.queues && q.backlog.chunks == p.backlog.chunks && |Pending(q)| == |Pending(p)|
  {
    hide Packets, PacketsOf, Unlabelled, Inv, BacklogWrites, I.Passed, Delivered, Pending;
    PendingIsTheRest(p);
    FirstFits(p);
    StepKeeps(p, Receive([]), size);
    HarmlessStepIsWhole(p, Receive([]), size);
    WaitingChunks(p.(wire := p.wire[1..], whole := p.whole && |p.wire[0]| <= size), I.Passed(I.Cut(p.wire[0], size)));
    PendingIsTheRest(Step(p, Receive([]), size));
  }

  function Receives(n: nat): seq<Event> {
    if n == 0 then [] else [Receive([])] + Receives(n - 1)
  }

  lemma {:induction false} ReceptionsMoveAll(p: Path, size: nat)
    requires Inv(p) && p.whole && size % PACKET == 0 && size >= 1316
    requires Shaped(p) && |Pending(p)| <= 65536
    ensures var q := Forward(p, Receives(|p.wire|), size);
      && Inv(q) && q.whole && q.wire == [] && q.datagram == p.datagram && q.drained == p.drained
      && q.queues == p.queues
    decreases |p.wire|
  {
    hide Inv, Step, Pending;
    if p.wire != [] {
      ReceptionMovesOne(p, size);
      var q := Step(p, Receive([]), size);
      assert Receives(|p.wire|)[1..] == Receives(|q.wire|);
      SizesOf(p);
      SizesOf(q);
      ReceptionsMoveAll(q, size);
    }
  }

  lemma SizesOf(p: Path)
    requires Inv(p)
    ensures Shaped(p) && |p.queues| == 4 && |p.queued| == 4
  {
  }

  /** A flush of the backlog for which the channel takes chunks enough leaves the child with
      every drained packet that is not on the wire or in the datagram. */
  lemma FlushDelivers(p: Path, take: nat, size: nat)
    requires Inv(p) && take >= (|p.backlog.buffer| + 63919) / 63920 && size % PACKET == 0
    ensures var q := Step(p, MediaTick(take), size);
      && Inv(q) && q == p.(backlog := q.backlog) && q.backlog.buffer == []
      && (p.whole ==> PacketsOf(q.backlog.chunks) + (PacketsOf(q.wire) + Packets(q.datagram)) == Unlabelled(q.drained))
  {
    hide B.Flushed, Packets, PacketsOf, Unlabelled, Inv;
    SizesOf(p);
    B.FlushSendsChunks(p.backlog, take);
    StepKeeps(p, MediaTick(take), size);
    var q := Step(p, MediaTick(take), size);
    PendingIsTheRest(q);
    NoPackets();
    assert [] + (PacketsOf(q.wire) + Packets(q.datagram)) == PacketsOf(q.wire) + Packets(q.datagram);
  }

  lemma NoPackets()
    ensures Packets([]) == [] && PacketsOf([]) == []
  {
  }

  /** The same over runs. */
  lemma FlushedRunDelivers(events: seq<Event>, take: nat, size: nat)
    requires size % PACKET == 0 && take >= (|Run(events, size).backlog.buffer| + 63919) / 63920
    ensures var p, q := Run(events, size), Run(events + [MediaTick(take)], size);
      && Shaped(q) && q.drained == p.drained && q.wire == p.wire && q.datagram == p.datagram
      && (p.whole ==> PacketsOf(q.backlog.chunks) + (PacketsOf(q.wire) + Packets(q.datagram)) == Unlabelled(p.drained))
  {
    hide Step, Inv, PacketsOf, Packets, Unlabelled;
    RunKeepsInv(events, size);
    FlushDelivers(Run(events, size), take, size);
    assert (events + [MediaTick(take)])[..|events|] == events;
    SizesOf(Run(events, size));
    SizesOf(Run(events + [MediaTick(take)], size));
  }

  // ---------------------------------------------------------- the whole way

  function Sending(r: nat): seq<Event> {
    [Select(Some(r), true), Pump([]), Select(None, true)]
  }

  lemma SendingTakesTheQueue(p: Path, r: nat, size: nat)
    requires Inv(p) && p.whole && r < 4 && size % PACKET == 0
    ensures var q := Forward(p, Sending(r), size);
      && Inv(q) && q.whole && q.datagram == [] && q.backlog == p.backlog
      && Unlabelled(q.drained) == Unlabelled(p.drained) + p.queues[r]
  {
    hide Step, Inv, Unlabelled;
    SizesOf(p);
    SelectingTakesEffect(p, Some(r), true, size);
    HarmlessStepIsWhole(p, Select(Some(r), true), size);
    StepKeeps(p, Select(Some(r), true), size);
    var p1 := Step(p, Select(Some(r), true), size);
    SizesOf(p1);
    PumpTakesTheQueue(p1, [], size);
    HarmlessStepIsWhole(p1, Pump([]), size);
    StepKeeps(p1, Pump([]), size);
    var p2 := Step(p1, Pump([]), size);
    SizesOf(p2);
    SelectingTakesEffect(p2, None, true, size);
    HarmlessStepIsWhole(p2, Select(None, true), size);
    StepKeeps(p2, Select(None, true), size);
    ThreeSteps(p, Sending(r), size);
  }

  lemma ThreeSteps(p: Path, events: seq<Event>, size: nat)
    requires |events| == 3
    ensures Forward(p, events, size) ==
            Next(Next(Next(p, events[0], size), events[1], size), events[2], size)
  {
    hide Next;
    var p1 := Next(p, events[0], size);
    var p2 := Next(p1, events[1], size);
    assert Forward(p1, events[1..], size) == Forward(p2, events[1..][1..], size);
    assert Forward(p2, events[1..][1..], size) == Forward(Next(p2, events[2], size), [], size);
  }

  /** From any run that lost nothing: once a receiver is selected, pumped and deselected,
      its datagrams are received and the backlog is flushed, the child holds everything
      drained before and after that the receiver's whole queue, in order, as soon as all
      of it fits the backlog. */
  lemma EverythingArrives(events: seq<Event>, size: nat, r: nat, take: nat)
    requires size % PACKET == 0 && size >= 1316 && r < 4 && take >= 193
    requires Run(events, size).whole
    requires Shaped(Run(events, size)) && |Pending(Run(events, size))| + |Run(events, size).queues[r]| <= 65536
    ensures var p, sent := Run(events, size), events + Sending(r);
      var q := Run(sent + (Receives(|Run(sent, size).wire|) + [MediaTick(take)]), size);
      && AllAligned(q.backlog.chunks)
      && PacketsOf(q.backlog.chunks) == Unlabelled(p.drained) + p.queues[r]
  {
    hide Step, Inv, Unlabelled, Sending, Receives, Pending, PacketsOf, Packets;
    var p, sent := Run(events, size), events + Sending(r);
    RunKeepsInv(events, size);
    SizesOf(p);
    SendingTakesTheQueue(p, r, size);
    ForwardIsRun(events, Sending(r), size);
    var s := Run(sent, size);
    SizesOf(s);
    PendingIsTheRest(p);
    PendingIsTheRest(s);
    SizesAdd(p, s, r);
    ReceptionsMoveAll(s, size);
    var t := Forward(s, Receives(|s.wire|), size);
    SizesOf(t);
    FlushDelivers(t, take, size);
    ForwardTwice(s, Receives(|s.wire|), [MediaTick(take)], size);
    ForwardIsRun(sent, Receives(|s.wire|) + [MediaTick(take)], size);
    LastForward(t, MediaTick(take), size);
    SizesOf(Step(t, MediaTick(take), size));
    NoPackets();
    var q := Step(t, MediaTick(take), size);
    assert PacketsOf(q.backlog.chunks) + ([] + []) == PacketsOf(q.backlog.chunks);
  }

  lemma LastForward(p: Path, e: Event, size: nat)
    ensures Forward(p, [e], size) == Next(p, e, size)
  {
    hide Next;
    assert Forward(Next(p, e, size), [e][1..], size) == Next(p, e, size);
  }

  lemma SizesAdd(p: Path, s: Path, r: nat)
    requires Shaped(p) && Shaped(s) && r < 4 && s.backlog == p.backlog
    requires PacketsOf(p.backlog.chunks) + Pending(p) == Unlabelled(p.drained)
    requires PacketsOf(s.backlog.chunks) + Pending(s) == Unlabelled(s.drained)
    requires Unlabelled(s.drained) == Unlabelled(p.drained) + p.queues[r]
    ensures |Pending(s)| == |Pending(p)| + |p.queues[r]|
  {
    hide PacketsOf, Unlabelled, Pending;
    assert |PacketsOf(p.backlog.chunks) + Pending(p)| == |PacketsOf(p.backlog.chunks)| + |Pending(p)|;
    assert |PacketsOf(s.backlog.chunks) + Pending(s)| == |PacketsOf(s.backlog.chunks)| + |Pending(s)|;
  }
}
