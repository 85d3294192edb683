/** The way of the packets from the Pi's tuner queues to the PC's media child: queues,
    router, datagrams, a lossy network, checks, backlog. */
module TsPath {
  import opened Prelude
  import opened TsPackets
  import opened TsIngest
  import G = TsGatewaySink
  import I = PcGatewayInput
  import B = TransportBacklog

  const MAX_PER_PUMP := 65536

  // queued and drained remember all packets ever queued, by receiver, and drained.
  // whole is false once anything was dropped, cleared or lost.
  datatype Path = Path(
    queues: seq<seq<Bytes>>, active: Option<nat>, datagram: Bytes, wire: seq<Bytes>, backlog: B.Backlog,
    queued: seq<seq<Bytes>>, drained: seq<(nat, Bytes)>, whole: bool)

  const START: Path :=
    Path([[], [], [], []], None, [], [], B.Backlog([], []), [[], [], [], []], [], true)

  datatype Event =
    | Ingest(ts: Bytes, status: Uint32)
    | Tune(receiver: nat)
    | Select(active: Option<nat>, ok: bool)
    | Pump(oks: seq<bool>)
    | Lose(at: nat)
    | Receive(takes: seq<nat>)
    | MediaTick(take: nat)

  function OkAt(oks: seq<bool>): bool {
    oks == [] || oks[0]
  }

  function Rest<T>(s: seq<T>): seq<T> {
    if s == [] then [] else s[1..]
  }

  // The sink's outcome joins the path: sent datagrams are on the wire.
  function Wired(p: Path, s: G.Sink): Path {
    p.(datagram := s.datagram, wire := p.wire + s.sent, whole := p.whole && s.errors == 0)
  }

  function SinkOf(p: Path): G.Sink {
    G.Sink(p.datagram, [], 0)
  }

  function PumpWrites(p: Path, packets: seq<Bytes>, oks: seq<bool>): Path
    decreases |packets|
  {
    if packets == [] then p
    else PumpWrites(Wired(p, G.Written(SinkOf(p), packets[0], OkAt(oks))), packets[1..], Rest(oks))
  }

  function Labelled(r: nat, packets: seq<Bytes>): seq<(nat, Bytes)> {
    if packets == [] then [] else [(r, packets[0])] + Labelled(r, packets[1..])
  }

  function BacklogWrites(p: Path, packets: seq<Bytes>, takes: seq<nat>): Path
    decreases |packets|
  {
    if packets == [] then p
    else
      var take := if takes == [] then 0 else takes[0];
      var q := p.(backlog := B.Written(p.backlog, packets[0], take),
                  whole := p.whole && !B.Overflows(p.backlog, packets[0], take));
      BacklogWrites(q, packets[1..], Rest(takes))
  }

  predicate Possible(p: Path, e: Event) {
    match e
    case Ingest(ts, _) => IsPacket(ts)
    case Tune(r) => r < RECEIVERS
    case Lose(at) => at < |p.wire|
    case Receive(_) => p.wire != []
    case _ => true
  }

  function Drain(p: Path, r: nat): (Path, seq<Bytes>)
    requires r < |p.queues|
  {
    var n := Min(MAX_PER_PUMP, |p.queues[r]|);
    var packets := p.queues[r][..n];
    (p.(queues := p.queues[r := p.queues[r][n..]], drained := p.drained + Labelled(r, packets)), packets)
  }

  function Step(p: Path, e: Event, size: nat): Path
    requires |p.queues| == RECEIVERS && |p.queued| == RECEIVERS && Possible(p, e)
  {
    match e
    case Ingest(ts, status) =>
      var r, added := ReceiverOf(status), Added(ts, status);
      p.(queues := p.queues[r := EnqueuedAll(p.queues[r], added)], queued := p.queued[r := p.queued[r] + added],
         whole := p.whole && |p.queues[r]| + |added| <= MAX_QUEUED)
    case Tune(r) =>
      p.(queues := p.queues[r := []], whole := p.whole && p.queues[r] == [])
    case Select(active, ok) =>
      Wired(p.(active := active), G.Activated(SinkOf(p), active.Some?, ok))
    case Pump(oks) =>
      if p.active.None? || p.active.value >= RECEIVERS then p
      else
        var (q, packets) := Drain(p, p.active.value);
        PumpWrites(q, packets, oks)
    case Lose(at) =>
      p.(wire := p.wire[..at] + p.wire[at + 1..], whole := false)
    case Receive(takes) =>
      var q := p.(wire := p.wire[1..], whole := p.whole && |p.wire[0]| <= size);
      BacklogWrites(q, I.Passed(I.Cut(p.wire[0], size)), takes)
    case MediaTick(take) =>
      p.(backlog := B.Flushed(p.backlog, take))
  }

  // ------------------------------------------------------------- invariants

  predicate Shaped(p: Path) {
    && |p.queues| == RECEIVERS && |p.queued| == RECEIVERS
    && (forall r | 0 <= r < RECEIVERS :: |p.queues[r]| <= MAX_QUEUED)
    && |p.datagram| < G.DATAGRAM && Aligned(p.datagram)
    && (forall i | 0 <= i < |p.wire| :: G.GoodDatagram(p.wire[i]))
    && B.Shaped(p.backlog)
  }

  // Everything drained that is not lost, from the child back to the gateway's buffer.
  function Delivered(p: Path): seq<Bytes>
    requires Shaped(p)
  {
    B.PacketsIn(p.backlog) + (PacketsOf(p.wire) + Packets(p.datagram))
  }

  function Unlabelled(drained: seq<(nat, Bytes)>): seq<Bytes> {
    if drained == [] then [] else [drained[0].1] + Unlabelled(drained[1..])
  }

  function Pick(d: (nat, Bytes), r: nat): seq<Bytes> {
    if d.0 == r then [d.1] else []
  }

  // What was drained of one receiver.
  function From(drained: seq<(nat, Bytes)>, r: nat): seq<Bytes> {
    if drained == [] then [] else Pick(drained[0], r) + From(drained[1..], r)
  }

  predicate QueueKeeps(p: Path, r: nat)
    requires Shaped(p) && r < RECEIVERS
  {
    && AllSynced(p.queued[r]) && AllSynced(p.queues[r])
    && Sub(From(p.drained, r) + p.queues[r], p.queued[r])
    && (p.whole ==> From(p.drained, r) + p.queues[r] == p.queued[r])
  }

  predicate PathKeeps(p: Path)
    requires Shaped(p)
  {
    && AllSynced(Unlabelled(p.drained))
    && Sub(Delivered(p), Unlabelled(p.drained))
    && (p.whole ==> Delivered(p) == Unlabelled(p.drained))
  }

  predicate Inv(p: Path) {
    Shaped(p) && PathKeeps(p) && forall r | 0 <= r < RECEIVERS :: QueueKeeps(p, r)
  }

  lemma StartInv()
    ensures Inv(START)
  {
  }

  // ------------------------------------------------------------ single parts

  // What a part of the path may do to the packets it is given.
  predicate Passes(before: Path, after: Path, added: seq<Bytes>)
    requires Shaped(before) && Shaped(after)
  {
    && Sub(Delivered(after), Delivered(before) + added)
    && (after.whole ==> before.whole && Delivered(after) == Delivered(before) + added)
    && after.queues == before.queues && after.queued == before.queued && after.drained == before.drained
  }

  lemma WiredPasses(p: Path, s: G.Sink, added: seq<Bytes>)
    requires Shaped(p) && G.Shaped(s)
    requires AllAligned(s.sent) && (s.errors == 0 ==>
               PacketsOf(s.sent) + Packets(s.datagram) == Packets(p.datagram) + added)
    requires Sub(PacketsOf(s.sent) + Packets(s.datagram), Packets(p.datagram) + added)
    ensures Shaped(Wired(p, s)) && Passes(p, Wired(p, s), added)
  {
    hide Packets, PacketsOf, Sub, B.PacketsIn;
    PacketsOfConcat(p.wire, s.sent);
    var old0, wire := B.PacketsIn(p.backlog), PacketsOf(p.wire);
    var out, sunk := PacketsOf(s.sent) + Packets(s.datagram), Packets(p.datagram) + added;
    assert (wire + PacketsOf(s.sent)) + Packets(s.datagram) == wire + out;
    assert old0 + (wire + out) == (old0 + wire) + out;
    assert (old0 + (wire + Packets(p.datagram))) + added == (old0 + wire) + sunk;
    SubRefl(old0 + wire);
    SubConcat(old0 + wire, old0 + wire, out, sunk);
  }

  // What one flush or write does, in packets.
  lemma SinkPasses(d: Bytes, packet: Bytes, ok: bool)
    requires Aligned(d) && |d| < G.DATAGRAM && IsPacket(packet)
    ensures var s := G.Written(G.Sink(d, [], 0), packet, ok);
      && G.Shaped(s) && AllAligned(s.sent)
      && (s.errors == 0 ==> PacketsOf(s.sent) + Packets(s.datagram) == Packets(d) + [packet])
      && Sub(PacketsOf(s.sent) + Packets(s.datagram), Packets(d) + [packet])
  {
    hide Packets, PacketsOf, Sub, G.Written;
    G.PacketJoins(G.Sink(d, [], 0), packet, ok);
    PacketsConcat(d, packet);
    PacketsOne(packet);
    SinkCases(d + packet, ok);
  }

  // Either the bytes wait on, or they leave, or they are refused.
  lemma SinkCases(d: Bytes, ok: bool)
    requires Aligned(d)
    ensures var s := G.Flushed(G.Sink(d, [], 0), ok);
      && AllAligned(s.sent)
      && (s.errors == 0 ==> PacketsOf(s.sent) + Packets(s.datagram) == Packets(d))
      && Sub(PacketsOf(s.sent) + Packets(s.datagram), Packets(d))
    ensures PacketsOf([]) + Packets(d) == Packets(d) && Sub(Packets(d), Packets(d))
  {
    hide Sub;
    var nothing: Bytes := [];
    assert Packets(nothing) == [] && PacketsOf([]) == [];
    if d != [] && ok {
      PacketsOfOne(d);
      assert Packets(d) + [] == Packets(d);
    }
    SubRefl(Packets(d));
    NothingIsSub(Packets(d));
    assert [] + Packets(d) == Packets(d);
  }

  lemma {:induction false} PumpPasses(p: Path, packets: seq<Bytes>, oks: seq<bool>)
    requires Shaped(p) && forall i | 0 <= i < |packets| :: IsPacket(packets[i])
    ensures Shaped(PumpWrites(p, packets, oks)) && Passes(p, PumpWrites(p, packets, oks), packets)
    decreases |packets|
  {
    hide Shaped, Delivered, Sub, Packets, PacketsOf, Wired, G.Written;
    if packets == [] {
      SubRefl(Delivered(p));
      assert Delivered(p) + [] == Delivered(p);
    } else {
      WritePasses(p, packets[0], OkAt(oks));
      var q := Wired(p, G.Written(SinkOf(p), packets[0], OkAt(oks)));
      PumpPasses(q, packets[1..], Rest(oks));
      PassesTwice(p, q, PumpWrites(q, packets[1..], Rest(oks)), [packets[0]], packets[1..]);
      assert [packets[0]] + packets[1..] == packets;
    }
  }

  lemma WritePasses(p: Path, packet: Bytes, ok: bool)
    requires Shaped(p) && IsPacket(packet)
    ensures var q := Wired(p, G.Written(SinkOf(p), packet, ok));
      Shaped(q) && Passes(p, q, [packet])
  {
    hide G.Written, Packets, PacketsOf, Sub, Passes;
    SinkPasses(p.datagram, packet, ok);
    WiredPasses(p, G.Written(SinkOf(p), packet, ok), [packet]);
  }

  lemma PassesTwice(p: Path, q: Path, r: Path, a: seq<Bytes>, b: seq<Bytes>)
    requires Shaped(p) && Shaped(q) && Shaped(r) && Passes(p, q, a) && Passes(q, r, b)
    ensures Passes(p, r, a + b)
  {
    hide Shaped, Delivered, Sub;
    SubRefl(b);
    SubConcat(Delivered(q), Delivered(p) + a, b, b);
    SubTrans(Delivered(r), Delivered(q) + b, (Delivered(p) + a) + b);
    assert (Delivered(p) + a) + b == Delivered(p) + (a + b);
  }

  // ---------------------------------------------------------------- the steps

  lemma {:induction false} LabelledParts(r: nat, packets: seq<Bytes>, k: nat)
    ensures Unlabelled(Labelled(r, packets)) == packets
    ensures From(Labelled(r, packets), k) == if k == r then packets else []
  {
    if packets != [] {
      LabelledParts(r, packets[1..], k);
    }
  }

  lemma {:induction false} UnlabelledConcat(a: seq<(nat, Bytes)>, b: seq<(nat, Bytes)>)
    ensures Unlabelled(a + b) == Unlabelled(a) + Unlabelled(b)
  {
    if a == [] {
      assert a + b == b;
    } else {
      assert (a + b)[1..] == a[1..] + b;
      UnlabelledConcat(a[1..], b);
    }
  }

  lemma {:induction false} FromConcat(a: seq<(nat, Bytes)>, b: seq<(nat, Bytes)>, k: nat)
    ensures From(a + b, k) == From(a, k) + From(b, k)
  {
    hide Pick;
    if a == [] {
      assert a + b == b;
    } else {
      assert (a + b)[1..] == a[1..] + b && (a + b)[0] == a[0];
      FromConcat(a[1..], b, k);
      Assoc(Pick(a[0], k), From(a[1..], k), From(b, k));
    }
  }

  lemma DrainParts(p: Path, r: nat, k: nat)
    requires Shaped(p) && r < RECEIVERS && k < RECEIVERS
    ensures var (q, packets) := Drain(p, r);
      && Shaped(q) && |packets| <= |p.queues[r]| && packets == p.queues[r][..|packets|]
      && Unlabelled(q.drained) == Unlabelled(p.drained) + packets
      && From(q.drained, k) + q.queues[k] == From(p.drained, k) + p.queues[k]
      && Delivered(q) == Delivered(p)
  {
    hide Sub, B.PacketsIn, PacketsOf, Packets, From, Unlabelled, Labelled, B.Shaped, Delivered;
    var (q, packets) := Drain(p, r);
    LabelledParts(r, packets, k);
    UnlabelledConcat(p.drained, Labelled(r, packets));
    FromConcat(p.drained, Labelled(r, packets), k);
    SameDelivered(p, q);
    assert p.queues[r] == packets + q.queues[r];
    if k == r {
      Assoc(From(p.drained, k), packets, q.queues[r]);
    } else {
      assert From(p.drained, k) + [] == From(p.drained, k);
    }
  }

  lemma IngestKeeps(p: Path, ts: Bytes, status: Uint32, size: nat)
    requires Inv(p) && IsPacket(ts)
    ensures Inv(Step(p, Ingest(ts, status), size))
  {
    hide Sub, EnqueuedAll, Added, Delivered, Unlabelled, From, AllSynced, B.Shaped;
    var r, added := ReceiverOf(status), Added(ts, status);
    var q := Step(p, Ingest(ts, status), size);
    SameDelivered(p, q);
    assert PathKeeps(q);
    forall k | 0 <= k < RECEIVERS ensures QueueKeeps(q, k) {
      assert QueueKeeps(p, k);
      if k == r { IngestQueue(p.queues[r], From(p.drained, r), p.queued[r], added); }
    }
  }

  lemma SameDelivered(p: Path, q: Path)
    requires Shaped(p) && Shaped(q) && p.backlog == q.backlog && p.wire == q.wire && p.datagram == q.datagram
    ensures Delivered(p) == Delivered(q)
  {
  }

  lemma IngestQueue(queue: seq<Bytes>, drained: seq<Bytes>, queued: seq<Bytes>, added: seq<Bytes>)
    requires |queue| <= MAX_QUEUED && AllSynced(queue) && AllSynced(queued) && AllSynced(added)
    requires Sub(drained + queue, queued)
    ensures var next := EnqueuedAll(queue, added);
      && AllSynced(next) && AllSynced(queued + added) && Sub(drained + next, queued + added)
      && (|queue| + |added| <= MAX_QUEUED && drained + queue == queued ==> drained + next == queued + added)
  {
    hide Sub, EnqueuedAll, Dropped;
    QueueKeepsTheNewest(queue, added);
    var all, n := queue + added, Dropped(queue, added);
    assert AllSynced(all);
    SubSuffix(all, n);
    SubRefl(drained);
    SubConcat(drained, drained, all[n..], all);
    SubRefl(added);
    SubConcat(drained + queue, queued, added, added);
    assert drained + all == (drained + queue) + added;
    SubTrans(drained + all[n..], drained + all, queued + added);
    if n == 0 { assert all[0..] == all; }
  }

  lemma TuneKeeps(p: Path, r: nat, size: nat)
    requires Inv(p) && r < RECEIVERS
    ensures Inv(Step(p, Tune(r), size))
  {
    hide Sub, Delivered, Unlabelled, From, B.Shaped;
    var q := Step(p, Tune(r), size);
    SameDelivered(p, q);
    assert PathKeeps(q);
    forall k | 0 <= k < RECEIVERS ensures QueueKeeps(q, k) {
      assert QueueKeeps(p, k);
      if k == r { PrefixIsSub(From(p.drained, r), p.queues[r], p.queued[r]); }
    }
  }

  lemma PrefixIsSub(a: seq<Bytes>, b: seq<Bytes>, c: seq<Bytes>)
    requires Sub(a + b, c)
    ensures Sub(a + [], c)
  {
    hide Sub;
    SubRefl(a);
    NothingIsSub(b);
    SubConcat(a, a, [], b);
    SubTrans(a + [], a + b, c);
  }

  // A step that only moves or loses what is drained already.
  lemma PassingKeeps(p: Path, q: Path)
    requires Inv(p) && Shaped(q) && Passes(p, q, [])
    ensures Inv(q)
  {
    hide Shaped, Delivered, Sub, Unlabelled, From, AllSynced;
    assert Delivered(p) + [] == Delivered(p);
    SubTrans(Delivered(q), Delivered(p), Unlabelled(p.drained));
    forall k | 0 <= k < RECEIVERS ensures QueueKeeps(q, k) {
      assert QueueKeeps(p, k);
    }
  }

  lemma SelectKeeps(p: Path, active: Option<nat>, ok: bool, size: nat)
    requires Inv(p)
    ensures Inv(Step(p, Select(active, ok), size))
  {
    hide Sub, Packets, PacketsOf, B.PacketsIn, Inv, Passes;
    var s := G.Activated(SinkOf(p), active.Some?, ok);
    Shape(p);
    SinkCases(p.datagram, ok);
    var p1 := p.(active := active);
    assert Packets(p.datagram) + [] == Packets(p.datagram);
    WiredPasses(p1, s, []);
    SelectInv(p, p1);
    PassingKeeps(p1, Wired(p1, s));
  }

  lemma Shape(p: Path)
    requires Inv(p)
    ensures Shaped(p)
  {
  }

  lemma SelectInv(p: Path, q: Path)
    requires Inv(p) && q == p.(active := q.active)
    ensures Inv(q)
  {
    hide Sub, Delivered, Unlabelled, From, AllSynced;
    SameDelivered(p, q);
    forall k | 0 <= k < RECEIVERS ensures QueueKeeps(q, k) {
      assert QueueKeeps(p, k);
    }
  }

  lemma PumpKeeps(p: Path, oks: seq<bool>, size: nat)
    requires Inv(p) && p.active.Some? && p.active.value < RECEIVERS
    ensures Inv(Step(p, Pump(oks), size))
  {
    hide Sub, Delivered, Unlabelled, From, PumpWrites, Shaped;
    var r := p.active.value;
    Shape(p);
    QueueSizes(p);
    var (q, packets) := Drain(p, r);
    DrainParts(p, r, r);
    assert QueueKeeps(p, r);
    SyncedParts(p.queues[r], |packets|);
    PumpPasses(q, packets, oks);
    var w := PumpWrites(q, packets, oks);
    PumpDelivers(p, q, w, packets);
    forall k | 0 <= k < RECEIVERS ensures QueueKeeps(w, k) {
      assert QueueKeeps(p, k);
      DrainParts(p, r, k);
      SyncedParts(p.queues[r], |packets|);
    }
  }

  lemma QueueSizes(p: Path)
    requires Shaped(p)
    ensures |p.queues| == RECEIVERS && |p.queued| == RECEIVERS
  {
  }

  lemma SyncedParts(ps: seq<Bytes>, n: nat)
    requires AllSynced(ps) && n <= |ps|
    ensures AllSynced(ps[..n]) && AllSynced(ps[n..])
    ensures forall i | 0 <= i < n :: IsPacket(ps[..n][i])
  {
  }

  lemma PumpDelivers(p: Path, q: Path, w: Path, packets: seq<Bytes>)
    requires Shaped(p) && Shaped(q) && Shaped(w) && PathKeeps(p) && Passes(q, w, packets) && AllSynced(packets)
    requires Delivered(q) == Delivered(p) && q.whole == p.whole
    requires Unlabelled(q.drained) == Unlabelled(p.drained) + packets
    ensures PathKeeps(w)
  {
    hide Sub, Delivered, Unlabelled, Shaped;
    SubRefl(packets);
    SubConcat(Delivered(p), Unlabelled(p.drained), packets, packets);
    SubTrans(Delivered(w), Delivered(p) + packets, Unlabelled(p.drained) + packets);
  }

  lemma LoseKeeps(p: Path, at: nat, size: nat)
    requires Inv(p) && at < |p.wire|
    ensures Inv(Step(p, Lose(at), size))
  {
    hide Sub, Packets, PacketsOf, B.PacketsIn, Inv;
    Shape(p);
    var q := Step(p, Lose(at), size);
    var head, tail := p.wire[..at], p.wire[at + 1..];
    assert p.wire == head + ([p.wire[at]] + tail);
    PacketsOfConcat([p.wire[at]], tail);
    PacketsOfConcat(head, [p.wire[at]] + tail);
    PacketsOfConcat(head, tail);
    LossIsSub(B.PacketsIn(p.backlog), PacketsOf(head), PacketsOf([p.wire[at]]), PacketsOf(tail), Packets(p.datagram));
    assert Delivered(p) + [] == Delivered(p);
    PassingKeeps(p, q);
  }

  lemma Assoc<T>(a: seq<T>, b: seq<T>, c: seq<T>)
    ensures (a + b) + c == a + (b + c)
  {
  }

  lemma LossIsSub(a: seq<Bytes>, b: seq<Bytes>, lost: seq<Bytes>, c: seq<Bytes>, d: seq<Bytes>)
    ensures Sub(a + ((b + c) + d), a + ((b + (lost + c)) + d))
  {
    hide Sub;
    SubRefl(a + b);
    SubRefl(c + d);
    NothingIsSub(lost);
    SubConcat([], lost, c + d, c + d);
    assert [] + (c + d) == c + d;
    SubConcat(a + b, a + b, c + d, lost + (c + d));
    Assoc(b, c, d);
    Assoc(a, b, c + d);
    Assoc(lost, c, d);
    Assoc(b, lost + c, d);
    Assoc(a, b, lost + (c + d));
  }

  lemma TakePasses(p: Path, take: nat)
    requires Shaped(p)
    ensures var q := p.(backlog := B.Flushed(p.backlog, take)); Shaped(q) && Passes(p, q, [])
  {
    hide Sub, Packets, PacketsOf, B.PacketsIn, B.Flushed;
    B.FlushConserves(p.backlog, take);
    assert Delivered(p) + [] == Delivered(p);
    SubRefl(Delivered(p));
  }

  // The packets reach the backlog from the front of the wire.
  predicate Enters(before: Path, after: Path, added: seq<Bytes>)
    requires B.Shaped(before.backlog) && B.Shaped(after.backlog)
  {
    && after == before.(backlog := after.backlog, whole := after.whole)
    && Sub(B.PacketsIn(after.backlog), B.PacketsIn(before.backlog) + added)
    && (after.whole ==> before.whole && B.PacketsIn(after.backlog) == B.PacketsIn(before.backlog) + added)
  }

  lemma {:induction false} BacklogPasses(p: Path, packets: seq<Bytes>, takes: seq<nat>)
    requires B.Shaped(p.backlog) && forall i | 0 <= i < |packets| :: IsPacket(packets[i])
    ensures B.Shaped(BacklogWrites(p, packets, takes).backlog)
    ensures Enters(p, BacklogWrites(p, packets, takes), packets)
    decreases |packets|
  {
    hide B.PacketsIn, Sub, B.Written, B.Overflows;
    if packets == [] {
      SubRefl(B.PacketsIn(p.backlog));
      assert B.PacketsIn(p.backlog) + [] == B.PacketsIn(p.backlog);
    } else {
      var take := if takes == [] then 0 else takes[0];
      var q := p.(backlog := B.Written(p.backlog, packets[0], take),
                  whole := p.whole && !B.Overflows(p.backlog, packets[0], take));
      B.WriteKeepsPackets(p.backlog, packets[0], take);
      BacklogPasses(q, packets[1..], Rest(takes));
      var r := BacklogWrites(q, packets[1..], Rest(takes));
      var x, one, more := B.PacketsIn(p.backlog), [packets[0]], packets[1..];
      SubRefl(more);
      SubConcat(B.PacketsIn(q.backlog), x + one, more, more);
      SubTrans(B.PacketsIn(r.backlog), B.PacketsIn(q.backlog) + more, (x + one) + more);
      Assoc(x, one, more);
      assert one + more == packets;
    }
  }

  // Every datagram on the wire holds whole packets that begin with the sync byte.
  lemma WireIsSynced(p: Path, i: nat)
    requires Inv(p) && i < |p.wire|
    ensures I.Synced(p.wire[i])
  {
    hide Sub, Packets, PacketsOf, B.PacketsIn, B.Shaped, Unlabelled;
    var head, one, tail := p.wire[..i], p.wire[i], p.wire[i + 1..];
    assert p.wire == head + ([one] + tail);
    PacketsOfConcat([one], tail);
    PacketsOfConcat(head, [one] + tail);
    PacketsOfOne(one);
    forall x | x in Packets(one) ensures IsPacket(x) && x[0] == SYNC {
      assert x in PacketsOf(p.wire);
      assert x in Delivered(p);
      SubHas(Delivered(p), Unlabelled(p.drained), x);
    }
    assert forall k | 0 <= k < |Packets(one)| :: Packets(one)[k] in Packets(one);
  }

  lemma ReceiveKeeps(p: Path, takes: seq<nat>, size: nat)
    requires Inv(p) && p.wire != [] && size % PACKET == 0
    ensures Inv(Step(p, Receive(takes), size))
  {
    hide Sub, Packets, PacketsOf, B.PacketsIn, BacklogWrites, Inv, I.Passed, I.Cut;
    Shape(p);
    WireIsSynced(p, 0);
    var one := p.wire[0];
    I.SyncedPasses(one, size);
    var passed := I.Passed(I.Cut(one, size));
    var q := p.(wire := p.wire[1..], whole := p.whole && |one| <= size);
    ShapedBacklog(p);
    PassedArePackets(I.Cut(one, size));
    BacklogPasses(q, passed, takes);
    var r := BacklogWrites(q, passed, takes);
    assert p.wire == [one] + p.wire[1..];
    PacketsOfConcat([one], p.wire[1..]);
    PacketsOfOne(one);
    var x, y, z := B.PacketsIn(p.backlog), PacketsOf(p.wire[1..]), Packets(p.datagram);
    ReceiveIsSub(x, B.PacketsIn(r.backlog), passed, Packets(one), y, z);
    assert Delivered(p) + [] == Delivered(p);
    PassingKeeps(p, r);
  }

  lemma ShapedBacklog(p: Path)
    requires Shaped(p)
    ensures B.Shaped(p.backlog)
  {
  }

  lemma PassedArePackets(b: Bytes)
    ensures forall i | 0 <= i < |I.Passed(b)| :: IsPacket(I.Passed(b)[i])
  {
  }

  lemma ReceiveIsSub(x: seq<Bytes>, x1: seq<Bytes>, passed: seq<Bytes>, one: seq<Bytes>, y: seq<Bytes>, z: seq<Bytes>)
    requires Sub(x1, x + passed) && Sub(passed, one)
    ensures Sub(x1 + (y + z), x + ((one + y) + z))
    ensures x1 == x + passed && passed == one ==> x1 + (y + z) == x + ((one + y) + z)
  {
    hide Sub;
    SubRefl(x);
    SubRefl(y + z);
    SubConcat(x, x, passed, one);
    SubTrans(x1, x + passed, x + one);
    SubConcat(x1, x + one, y + z, y + z);
    Assoc(x, one, y + z);
    Assoc(one, y, z);
  }

  lemma StepKeeps(p: Path, e: Event, size: nat)
    requires Inv(p) && Possible(p, e) && size % PACKET == 0
    ensures Inv(Step(p, e, size))
  {
    hide Shaped, Delivered, Sub, PathKeeps, QueueKeeps;
    match e
    case Ingest(ts, status) => IngestKeeps(p, ts, status, size);
    case Tune(r) => TuneKeeps(p, r, size);
    case Select(active, ok) => SelectKeeps(p, active, ok, size);
    case Pump(oks) => if p.active.Some? && p.active.value < RECEIVERS { PumpKeeps(p, oks, size); }
    case Lose(at) => LoseKeeps(p, at, size);
    case Receive(takes) => ReceiveKeeps(p, takes, size);
    case MediaTick(take) =>
      TakePasses(p, take);
      PassingKeeps(p, p.(backlog := B.Flushed(p.backlog, take)));
  }

  // ------------------------------------------------------------- whole runs

  // An event that cannot happen changes nothing.
  function Next(p: Path, e: Event, size: nat): Path {
    if |p.queues| == RECEIVERS && |p.queued| == RECEIVERS && Possible(p, e) then Step(p, e, size) else p
  }

  function Run(events: seq<Event>, size: nat): Path {
    if events == [] then START else Next(Run(events[..|events| - 1], size), events[|events| - 1], size)
  }

  lemma {:induction false} RunKeepsInv(events: seq<Event>, size: nat)
    requires size % PACKET == 0
    ensures Inv(Run(events, size))
  {
    hide Inv, Step, Possible;
    if events == [] {
      StartInv();
    } else {
      var p, e := Run(events[..|events| - 1], size), events[|events| - 1];
      RunKeepsInv(events[..|events| - 1], size);
      if |p.queues| == RECEIVERS && |p.queued| == RECEIVERS && Possible(p, e) {
        StepKeeps(p, e, size);
      }
    }
  }

  // What is on its way but not with the child yet.
  function Pending(p: Path): seq<Bytes>
    requires Shaped(p)
  {
    Packets(p.backlog.buffer) + (PacketsOf(p.wire) + Packets(p.datagram))
  }

  /** Whatever overflows, gets cleared or lost, the child receives whole packets in
      the order in which they were drained, each receiver's in the order in which
      they were queued; and all but the pending ones when nothing was lost. */
  lemma PacketsArriveInOrder(events: seq<Event>, size: nat, r: nat)
    requires size % PACKET == 0 && r < RECEIVERS
    ensures var p := Run(events, size);
      && Shaped(p)
      && Sub(PacketsOf(p.backlog.chunks), Unlabelled(p.drained))
      && Sub(From(p.drained, r), p.queued[r]) && AllSynced(p.queued[r])
      && (p.whole ==> PacketsOf(p.backlog.chunks) + Pending(p) == Unlabelled(p.drained))
      && (p.whole ==> From(p.drained, r) + p.queues[r] == p.queued[r])
  {
    hide Sub, PacketsOf, Packets, From, Unlabelled, AllSynced;
    RunKeepsInv(events, size);
    var p := Run(events, size);
    hide Run, Step;
    assert QueueKeeps(p, r);
    var child, pending, there := PacketsOf(p.backlog.chunks), Pending(p), Delivered(p);
    Assoc(child, Packets(p.backlog.buffer), PacketsOf(p.wire) + Packets(p.datagram));
    assert there == child + pending;
    PrefixIsSub(child, pending, Unlabelled(p.drained));
    PrefixIsSub(From(p.drained, r), p.queues[r], p.queued[r]);
    assert child + [] == child && From(p.drained, r) + [] == From(p.drained, r);
  }

  lemma {:induction false} OneReceiver(drained: seq<(nat, Bytes)>, r: nat)
    requires forall i | 0 <= i < |drained| :: drained[i].0 == r
    ensures From(drained, r) == Unlabelled(drained)
  {
    if drained != [] {
      OneReceiver(drained[1..], r);
    }
  }

  /** While one receiver supplies everything, the child's packets are a subsequence
      of those queued for it, and all of them but the pending and queued ones when
      nothing was lost. */
  lemma OneReceiverArrives(events: seq<Event>, size: nat, r: nat)
    requires size % PACKET == 0 && r < RECEIVERS
    requires forall i | 0 <= i < |Run(events, size).drained| :: Run(events, size).drained[i].0 == r
    ensures var p := Run(events, size);
      && Shaped(p) && Sub(PacketsOf(p.backlog.chunks), p.queued[r])
      && (p.whole ==> PacketsOf(p.backlog.chunks) + Pending(p) + p.queues[r] == p.queued[r])
  {
    hide Sub, Run, PacketsOf, Packets, From, Unlabelled, AllSynced;
    PacketsArriveInOrder(events, size, r);
    var p := Run(events, size);
    OneReceiver(p.drained, r);
    SubTrans(PacketsOf(p.backlog.chunks), Unlabelled(p.drained), p.queued[r]);
  }

  /** Every datagram on the wire is a non-empty run of at most seven packets and
      passes the PC's checks, even cut to a smaller buffer; and a buffer of 1316
      bytes cuts none. The backlog stays within 65536 packets. */
  lemma EveryDatagramPasses(events: seq<Event>, size: nat, i: nat)
    requires size % PACKET == 0 && i < |Run(events, size).wire|
    ensures var p, d := Run(events, size), Run(events, size).wire[i];
      && d != [] && |d| % 188 == 0 && |d| <= 1316 && I.Synced(d) && I.Synced(I.Cut(d, size))
      && (size >= 1316 ==> I.Cut(d, size) == d)
      && |p.backlog.buffer| <= 65536 * 188
  {
    hide Run, I.Synced;
    RunKeepsInv(events, size);
    WireIsSynced(Run(events, size), i);
    I.SyncedPasses(Run(events, size).wire[i], size);
  }

  // Steps that lose nothing, told by what stands before them.
  predicate Harmless(p: Path, e: Event, size: nat)
    requires Possible(p, e) && |p.queues| == RECEIVERS
  {
    match e
    case Ingest(ts, status) => |p.queues[ReceiverOf(status)]| + |Added(ts, status)| <= MAX_QUEUED
    case Tune(r) => p.queues[r] == []
    case Select(active, ok) => ok || active.Some? || p.datagram == []
    case Pump(oks) => forall i | 0 <= i < |oks| :: oks[i]
    case Lose(_) => false
    case Receive(_) => |p.wire[0]| <= size && |p.backlog.buffer| + |p.wire[0]| <= B.MAX_BUFFERED
    case MediaTick(_) => true
  }

  lemma {:induction false} SentPumpIsWhole(p: Path, packets: seq<Bytes>, oks: seq<bool>)
    requires Shaped(p) && p.whole && (forall i | 0 <= i < |packets| :: IsPacket(packets[i]))
    requires forall i | 0 <= i < |oks| :: oks[i]
    ensures PumpWrites(p, packets, oks).whole
    decreases |packets|
  {
    hide G.Written, Shaped;
    if packets != [] {
      SentWriteIsWhole(p, packets[0]);
      WritePasses(p, packets[0], OkAt(oks));
      SentPumpIsWhole(Wired(p, G.Written(SinkOf(p), packets[0], OkAt(oks))), packets[1..], Rest(oks));
    }
  }

  lemma SentWriteIsWhole(p: Path, packet: Bytes)
    requires Shaped(p) && IsPacket(packet)
    ensures G.Written(SinkOf(p), packet, true).errors == 0
  {
    hide G.PushedAll, B.Shaped;
    G.PacketJoins(SinkOf(p), packet, true);
  }

  lemma {:induction false} RoomyBacklogIsWhole(p: Path, packets: seq<Bytes>, takes: seq<nat>)
    requires p.whole && B.Shaped(p.backlog) && (forall i | 0 <= i < |packets| :: IsPacket(packets[i]))
    requires |p.backlog.buffer| + PACKET * |packets| <= B.MAX_BUFFERED
    ensures BacklogWrites(p, packets, takes).whole
    decreases |packets|
  {
    hide B.Flushed, B.PacketsIn;
    if packets != [] {
      var take := if takes == [] then 0 else takes[0];
      B.FlushConserves(p.backlog.(buffer := p.backlog.buffer + packets[0]), take);
      B.WriteKeepsPackets(p.backlog, packets[0], take);
      var q := p.(backlog := B.Written(p.backlog, packets[0], take),
                  whole := p.whole && !B.Overflows(p.backlog, packets[0], take));
      RoomyBacklogIsWhole(q, packets[1..], Rest(takes));
    }
  }

  lemma HarmlessStepIsWhole(p: Path, e: Event, size: nat)
    requires Inv(p) && p.whole && size % PACKET == 0 && Possible(p, e) && Harmless(p, e, size)
    ensures Step(p, e, size).whole
  {
    hide Delivered, Sub, PathKeeps, B.PacketsIn, B.Flushed, PumpWrites, BacklogWrites, G.PushedAll, EnqueuedAll, Added;
    match e
    case Pump(oks) =>
      if p.active.Some? && p.active.value < RECEIVERS {
        DrainParts(p, p.active.value, 0);
        assert QueueKeeps(p, p.active.value);
        var (q, packets) := Drain(p, p.active.value);
        SentPumpIsWhole(q, packets, oks);
      }
    case Receive(takes) =>
      var q := p.(wire := p.wire[1..], whole := p.whole && |p.wire[0]| <= size);
      WireIsSynced(p, 0);
      I.SyncedPasses(p.wire[0], size);
      RoomyBacklogIsWhole(q, I.Passed(I.Cut(p.wire[0], size)), takes);
    case _ =>
  }

  /** A run in which no queue overflows, no waiting packet is tuned away, every send
      succeeds, the network loses nothing and the backlog has room keeps everything. */
  lemma {:induction false} NothingIsLostOtherwise(events: seq<Event>, size: nat)
    requires size % PACKET == 0
    requires forall i | 0 <= i < |events| :: |Run(events[..i], size).queues| == RECEIVERS
               && (Possible(Run(events[..i], size), events[i]) ==> Harmless(Run(events[..i], size), events[i], size))
    ensures Run(events, size).whole
  {
    hide Inv, Step, Possible, Harmless;
    if events != [] {
      var n := |events| - 1;
      var before := events[..n];
      assert forall i | 0 <= i < n :: before[..i] == events[..i] && before[i] == events[i];
      NothingIsLostOtherwise(before, size);
      RunKeepsInv(before, size);
      if Possible(Run(before, size), events[n]) && |Run(before, size).queued| == RECEIVERS {
        HarmlessStepIsWhole(Run(before, size), events[n], size);
      }
    }
  }
}
