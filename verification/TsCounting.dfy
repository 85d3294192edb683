/** The driver's status word and the packet counters: what each field means, and what the
    counters hold after any run of packets. */
module TsCounting {
  import opened Prelude
  import opened TsPackets
  import opened TsIngest

  // ------------------------------------------------------------ the status word

  // A status word put together from its fields; the rest are bits nobody reads.
  datatype Word = Word(
    receiver: nat, valid: bool, restart: bool, overflow: bool, nulls: nat, outSequence: nat, inSequence: nat,
    low: nat, bit11: nat, middle: nat)

  predicate IsWord(w: Word) {
    && w.receiver < 4 && w.nulls < 16 && w.outSequence < 16 && w.inSequence < 16
    && w.low < 0x100 && w.bit11 < 2 && w.middle < 0x40
  }

  function Bit(b: bool): nat {
    if b then 1 else 0
  }

  function StatusOf(w: Word): nat {
    w.low + 0x100 * Bit(w.valid) + 0x200 * Bit(w.restart) + 0x400 * Bit(w.overflow) + 0x800 * w.bit11
    + 0x1000 * w.receiver + 0x4000 * w.middle + 0x10_0000 * w.nulls + 0x100_0000 * w.outSequence
    + 0x1000_0000 * w.inSequence
  }

  // A field with less below it.
  lemma FieldIs(status: Uint32, below: nat, shift: nat, value: nat, width: nat, above: nat)
    requires shift > 0 && width > 0 && below < shift && value < width
    requires status == below + shift * (value + width * above)
    ensures Field(status, shift, width) == value
  {
    ModuloOf(status, value + width * above, shift, below);
    ModuloOf(value + width * above, above, width, value);
  }

  /** Each field of the word is read from where it stands, whatever the other bits are. */
  lemma FieldsRead(w: Word)
    requires IsWord(w)
    ensures StatusOf(w) < TWO_32
    ensures var status: Uint32 := StatusOf(w);
      && ReceiverOf(status) == w.receiver && NullsOf(status) == w.nulls && IsValid(status) == w.valid
      && Field(status, 0x200, 2) == Bit(w.restart) && Field(status, 0x400, 2) == Bit(w.overflow)
      && Field(status, 0x100_0000, 16) == w.outSequence && Field(status, 0x1000_0000, 16) == w.inSequence
  {
    hide Field;
    LowFields(w);
    HighFields(w);
  }

  lemma LowFields(w: Word)
    requires IsWord(w)
    ensures StatusOf(w) < TWO_32
    ensures var status: Uint32 := StatusOf(w);
      && Field(status, 0x100, 2) == Bit(w.valid) && Field(status, 0x200, 2) == Bit(w.restart)
      && Field(status, 0x400, 2) == Bit(w.overflow) && Field(status, 0x1000, 4) == w.receiver
  {
    hide Field;
    var status: Uint32 := StatusOf(w);
    var a9 := w.middle + 0x40 * (w.nulls + 16 * (w.outSequence + 16 * w.inSequence));
    var a8 := w.receiver + 4 * a9;
    var a7 := w.bit11 + 2 * a8;
    var a6 := Bit(w.overflow) + 2 * a7;
    var a5 := Bit(w.restart) + 2 * a6;
    var b4 := w.low;
    var b5 := b4 + 0x100 * Bit(w.valid);
    var b6 := b5 + 0x200 * Bit(w.restart);
    var b7 := b6 + 0x400 * Bit(w.overflow) + 0x800 * w.bit11;
    FieldIs(status, b4, 0x100, Bit(w.valid), 2, a5);
    FieldIs(status, b5, 0x200, Bit(w.restart), 2, a6);
    FieldIs(status, b6, 0x400, Bit(w.overflow), 2, a7);
    FieldIs(status, b7, 0x1000, w.receiver, 4, a9);
  }

  lemma HighFields(w: Word)
    requires IsWord(w)
    ensures StatusOf(w) < TWO_32
    ensures var status: Uint32 := StatusOf(w);
      && Field(status, 0x10_0000, 16) == w.nulls && Field(status, 0x100_0000, 16) == w.outSequence
      && Field(status, 0x1000_0000, 16) == w.inSequence
  {
    hide Field;
    var status: Uint32 := StatusOf(w);
    var b := w.low + 0x100 * Bit(w.valid) + 0x200 * Bit(w.restart) + 0x400 * Bit(w.overflow) + 0x800 * w.bit11
             + 0x1000 * w.receiver + 0x4000 * w.middle;
    var c := b + 0x10_0000 * w.nulls;
    FieldIs(status, b, 0x10_0000, w.nulls, 16, w.outSequence + 16 * w.inSequence);
    FieldIs(status, c, 0x100_0000, w.outSequence, 16, w.inSequence);
    FieldIs(status, c + 0x100_0000 * w.outSequence, 0x1000_0000, w.inSequence, 16, 0);
  }

  /** A packet that begins with the sync byte and is marked valid joins the queue behind as
      many null packets as were left out before it; any other adds nothing. */
  lemma PacketAdds(w: Word, ts: Bytes)
    requires IsWord(w) && IsPacket(ts)
    ensures StatusOf(w) < TWO_32
    ensures var added := Added(ts, StatusOf(w));
      if ts[0] == 0x47 && w.valid then
        && |added| == w.nulls + 1 && added[w.nulls] == ts
        && forall i | 0 <= i < w.nulls ::
             && |added[i]| == 188 && added[i][0] == 0x47 && added[i][1] == 0x1f && added[i][2] == 0xff
             && added[i][3] == 0x00 && forall k | 4 <= k < 188 :: added[i][k] == 0xff
      else added == []
  {
    FieldsRead(w);
    hide Field;
  }

  // -------------------------------------------------------------- the counters

  datatype Input = Input(word: Word, ts: Bytes)

  predicate IsInput(x: Input) {
    IsWord(x.word) && IsPacket(x.ts)
  }

  predicate AllInputs(xs: seq<Input>) {
    forall i | 0 <= i < |xs| :: IsInput(xs[i])
  }

  const FRESH: Nim := Nim([NO_COUNTS, NO_COUNTS, NO_COUNTS, NO_COUNTS], [[], [], [], []])

  function Run(xs: seq<Input>): (n: Nim)
    requires AllInputs(xs)
    ensures Shaped(n)
  {
    if xs == [] then FRESH
    else
      var x := xs[|xs| - 1];
      FieldsRead(x.word);
      Ingested(Run(xs[..|xs| - 1]), x.ts, StatusOf(x.word))
  }

  predicate Synced(x: Input)
    requires IsInput(x)
  {
    x.ts[0] == 0x47
  }

  predicate Kept(x: Input)
    requires IsInput(x)
  {
    Synced(x) && x.word.valid
  }

  // Sums over the packets of one receiver.
  function CountNulls(xs: seq<Input>, r: nat): nat {
    if xs == [] then 0
    else
      var x := xs[|xs| - 1];
      CountNulls(xs[..|xs| - 1], r) + (if x.word.receiver == r then x.word.nulls else 0)
  }

  function CountAll(xs: seq<Input>, r: nat): nat {
    if xs == [] then 0
    else CountAll(xs[..|xs| - 1], r) + (if xs[|xs| - 1].word.receiver == r then 1 else 0)
  }

  function CountUnsynced(xs: seq<Input>, r: nat): nat
    requires AllInputs(xs)
  {
    if xs == [] then 0
    else
      var x := xs[|xs| - 1];
      CountUnsynced(xs[..|xs| - 1], r) + (if x.word.receiver == r && !Synced(x) then 1 else 0)
  }

  // The kept packets of one receiver, and of the pair of receivers a chip serves.
  function KeptOf(xs: seq<Input>, r: nat): seq<Input>
    requires AllInputs(xs)
  {
    if xs == [] then []
    else
      var x := xs[|xs| - 1];
      KeptOf(xs[..|xs| - 1], r) + (if x.word.receiver == r && Kept(x) then [x] else [])
  }

  function KeptOfPair(xs: seq<Input>, pair: nat): seq<Input>
    requires AllInputs(xs)
  {
    if xs == [] then []
    else
      var x := xs[|xs| - 1];
      KeptOfPair(xs[..|xs| - 1], pair) + (if x.word.receiver / 2 == pair && Kept(x) then [x] else [])
  }

  // How often the next number is not one more, modulo 16.
  function InBreaks(xs: seq<Input>): nat {
    if |xs| < 2 then 0
    else
      InBreaks(xs[..|xs| - 1])
      + (if xs[|xs| - 1].word.inSequence == (xs[|xs| - 2].word.inSequence + 1) % 16 then 0 else 1)
  }

  function OutBreaks(xs: seq<Input>): nat {
    if |xs| < 2 then 0
    else
      OutBreaks(xs[..|xs| - 1])
      + (if xs[|xs| - 1].word.outSequence == (xs[|xs| - 2].word.outSequence + 1) % 16 then 0 else 1)
  }

  function CountRestarts(xs: seq<Input>): nat {
    if xs == [] then 0 else CountRestarts(xs[..|xs| - 1]) + Bit(xs[|xs| - 1].word.restart)
  }

  function CountOverflows(xs: seq<Input>): nat {
    if xs == [] then 0 else CountOverflows(xs[..|xs| - 1]) + Bit(xs[|xs| - 1].word.overflow)
  }

  // All packets the kept inputs put into one queue.
  function CountQueued(xs: seq<Input>): nat {
    if xs == [] then 0 else CountQueued(xs[..|xs| - 1]) + xs[|xs| - 1].word.nulls + 1
  }

  // The numbers of the last packet.
  function LastIn(xs: seq<Input>): Option<nat> {
    if xs == [] then None else Some(xs[|xs| - 1].word.inSequence)
  }

  function LastOut(xs: seq<Input>): Option<nat> {
    if xs == [] then None else Some(xs[|xs| - 1].word.outSequence)
  }

  // What the counters of one receiver say of the packets.
  predicate Tells(n: Nim, xs: seq<Input>, r: nat)
    requires Shaped(n) && AllInputs(xs) && r < 4
  {
    var c, kept := n.counters[r], KeptOf(xs, r);
    && c.transportPackets == CountAll(xs, r) + CountNulls(xs, r) && c.nullPackets == CountNulls(xs, r)
    && c.syncErrors == CountUnsynced(xs, r) && c.validPackets == |kept| && c.restartErrors == CountRestarts(kept)
    && c.inSequenceErrors == InBreaks(kept)
    && c.lastIn == LastIn(kept)
    && c.overflowErrors + |n.queues[r]| == CountOverflows(kept) + CountQueued(kept)
    && |n.queues[r]| <= 65536
  }

  // What the first of a pair of receivers says of both.
  predicate TellsPair(n: Nim, xs: seq<Input>, pair: nat)
    requires Shaped(n) && AllInputs(xs) && pair < 2
  {
    && n.counters[2 * pair].outSequenceErrors == OutBreaks(KeptOfPair(xs, pair))
    && n.counters[2 * pair].lastOut == LastOut(KeptOfPair(xs, pair))
  }

  lemma LastInBreak(xs: seq<Input>, x: Input)
    ensures InBreaks(xs + [x]) == InBreaks(xs) +
              (if xs == [] || x.word.inSequence == (xs[|xs| - 1].word.inSequence + 1) % 16 then 0 else 1)
  {
    var all := xs + [x];
    assert all[..|xs|] == xs;
    if xs != [] { assert all[|all| - 2] == xs[|xs| - 1]; }
  }

  lemma LastOutBreak(xs: seq<Input>, x: Input)
    ensures OutBreaks(xs + [x]) == OutBreaks(xs) +
              (if xs == [] || x.word.outSequence == (xs[|xs| - 1].word.outSequence + 1) % 16 then 0 else 1)
  {
    var all := xs + [x];
    assert all[..|xs|] == xs;
    if xs != [] { assert all[|all| - 2] == xs[|xs| - 1]; }
  }

  lemma NextIsOneMore(last: nat, current: nat)
    requires last < 16 && current < 16
    ensures NextSequence(Some(last), current) == if current == (last + 1) % 16 then 0 else 1
    ensures NextSequence(None, current) == 0
  {
  }

  lemma {:induction false} KeptAreWords(xs: seq<Input>, r: nat)
    requires AllInputs(xs)
    ensures forall i | 0 <= i < |KeptOf(xs, r)| :: IsWord(KeptOf(xs, r)[i].word)
  {
    if xs != [] { KeptAreWords(xs[..|xs| - 1], r); }
  }

  lemma {:induction false} PairsAreWords(xs: seq<Input>, pair: nat)
    requires AllInputs(xs)
    ensures forall i | 0 <= i < |KeptOfPair(xs, pair)| :: IsWord(KeptOfPair(xs, pair)[i].word)
  {
    if xs != [] { PairsAreWords(xs[..|xs| - 1], pair); }
  }

  lemma LastSums(xs: seq<Input>, x: Input)
    ensures CountRestarts(xs + [x]) == CountRestarts(xs) + Bit(x.word.restart)
    ensures CountOverflows(xs + [x]) == CountOverflows(xs) + Bit(x.word.overflow)
    ensures CountQueued(xs + [x]) == CountQueued(xs) + x.word.nulls + 1
  {
    assert (xs + [x])[..|xs|] == xs;
  }

  // What one packet does to the counters of its own receiver, and to no other but the pair's.
  lemma PacketCounts(n: Nim, x: Input, r: nat)
    requires Shaped(n) && IsInput(x) && r < 4 && |n.queues[x.word.receiver]| <= 65536
    ensures StatusOf(x.word) < TWO_32
    ensures var m := Ingested(n, x.ts, StatusOf(x.word));
      var c, d := n.counters[r], m.counters[r];
      && (r != x.word.receiver ==>
            m.queues[r] == n.queues[r] && d == c.(outSequenceErrors := d.outSequenceErrors, lastOut := d.lastOut))
      && (r == x.word.receiver ==>
            && d.transportPackets == c.transportPackets + 1 + x.word.nulls
            && d.nullPackets == c.nullPackets + x.word.nulls
            && d.syncErrors == c.syncErrors + (if Synced(x) then 0 else 1)
            && (!Kept(x) ==> d == c.(transportPackets := d.transportPackets, nullPackets := d.nullPackets,
                                     syncErrors := d.syncErrors) && m.queues[r] == n.queues[r])
            && (Kept(x) ==>
                  && d.validPackets == c.validPackets + 1 && d.restartErrors == c.restartErrors + Bit(x.word.restart)
                  && d.inSequenceErrors == c.inSequenceErrors + NextSequence(c.lastIn, x.word.inSequence)
                  && d.lastIn == Some(x.word.inSequence)
                  && d.overflowErrors + |m.queues[r]| ==
                     c.overflowErrors + Bit(x.word.overflow) + |n.queues[r]| + x.word.nulls + 1
                  && |m.queues[r]| <= 65536))
  {
    hide Field, Dropped, EnqueuedAll, NextSequence;
    FieldsRead(x.word);
    var added := Added(x.ts, StatusOf(x.word));
    QueueKeepsTheNewest(n.queues[x.word.receiver], added);
    NothingAdded(n.queues[x.word.receiver]);
  }

  lemma PacketCountsPair(n: Nim, x: Input, pair: nat)
    requires Shaped(n) && IsInput(x) && pair < 2
    ensures StatusOf(x.word) < TWO_32
    ensures var m := Ingested(n, x.ts, StatusOf(x.word));
      var c, d := n.counters[2 * pair], m.counters[2 * pair];
      if Kept(x) && x.word.receiver / 2 == pair then
        && d.outSequenceErrors == c.outSequenceErrors + NextSequence(c.lastOut, x.word.outSequence)
        && d.lastOut == Some(x.word.outSequence)
      else d.outSequenceErrors == c.outSequenceErrors && d.lastOut == c.lastOut
  {
    hide Field, Dropped, EnqueuedAll, NextSequence;
    FieldsRead(x.word);
  }

  lemma StepTells(xs: seq<Input>, r: nat)
    requires xs != [] && AllInputs(xs) && r < 4 && Tells(Run(xs[..|xs| - 1]), xs[..|xs| - 1], r)
    requires |Run(xs[..|xs| - 1]).queues[xs[|xs| - 1].word.receiver]| <= 65536
    ensures Tells(Run(xs), xs, r)
  {
    hide Ingested, NextSequence, InBreaks, CountRestarts, CountOverflows, CountQueued;
    var before, x := xs[..|xs| - 1], xs[|xs| - 1];
    var kept := KeptOf(before, r);
    PacketCounts(Run(before), x, r);
    KeptAreWords(before, r);
    assert kept + [] == kept;
    if x.word.receiver == r && Kept(x) {
      LastInBreak(kept, x);
      LastSums(kept, x);
      if kept != [] { NextIsOneMore(kept[|kept| - 1].word.inSequence, x.word.inSequence); }
      NextIsOneMore(0, x.word.inSequence);
    }
  }

  lemma LastKeptOfPair(xs: seq<Input>, pair: nat)
    requires xs != [] && AllInputs(xs)
    ensures var x := xs[|xs| - 1];
      KeptOfPair(xs, pair) ==
      KeptOfPair(xs[..|xs| - 1], pair) + (if x.word.receiver / 2 == pair && Kept(x) then [x] else [])
  {
  }

  lemma KeptTellsPair(before: Counters, c: Counters, kept: seq<Input>, x: Input)
    requires IsWord(x.word) && forall i | 0 <= i < |kept| :: IsWord(kept[i].word)
    requires before.outSequenceErrors == OutBreaks(kept)
    requires before.lastOut == LastOut(kept)
    requires c.outSequenceErrors == before.outSequenceErrors + NextSequence(before.lastOut, x.word.outSequence)
    ensures c.outSequenceErrors == OutBreaks(kept + [x])
  {
    hide NextSequence, OutBreaks;
    LastOutBreak(kept, x);
    NextIsOneMore(if kept == [] then 0 else kept[|kept| - 1].word.outSequence, x.word.outSequence);
  }

  lemma StepTellsPair(xs: seq<Input>, pair: nat)
    requires xs != [] && AllInputs(xs) && pair < 2 && TellsPair(Run(xs[..|xs| - 1]), xs[..|xs| - 1], pair)
    ensures Run(xs).counters[2 * pair].outSequenceErrors == OutBreaks(KeptOfPair(xs, pair))
    ensures Run(xs).counters[2 * pair].lastOut == LastOut(KeptOfPair(xs, pair))
  {
    hide Ingested, NextSequence, OutBreaks, KeptOfPair, Kept, IsWord;
    var before, x := xs[..|xs| - 1], xs[|xs| - 1];
    var kept, n := KeptOfPair(before, pair), Run(before);
    PacketCountsPair(n, x, pair);
    LastKeptOfPair(xs, pair);
    if x.word.receiver / 2 == pair && Kept(x) {
      PairsAreWords(before, pair);
      KeptTellsPair(n.counters[2 * pair], Run(xs).counters[2 * pair], kept, x);
    } else {
      assert kept + [] == kept;
    }
  }

  /** After any run of packets each receiver's counters say how many came for it, how many
      null packets were left out before them, how many lacked the sync byte, how many were
      kept, how many of those were marked as a restart, and how often their number was not
      the next; and the overflow counter is the marked overflows and the packets dropped,
      since all that were queued are in the queue or dropped. */
  lemma {:induction false} CountersTell(xs: seq<Input>, r: nat)
    requires AllInputs(xs) && r < 4
    ensures Tells(Run(xs), xs, r)
  {
    hide Tells;
    if xs == [] {
      FreshTells(r, 0);
    } else {
      CountersTell(xs[..|xs| - 1], r);
      CountersTell(xs[..|xs| - 1], xs[|xs| - 1].word.receiver);
      QueueFits(Run(xs[..|xs| - 1]), xs[..|xs| - 1], xs[|xs| - 1].word.receiver);
      StepTells(xs, r);
    }
  }

  lemma QueueFits(n: Nim, xs: seq<Input>, r: nat)
    requires Shaped(n) && AllInputs(xs) && r < 4 && Tells(n, xs, r)
    ensures |n.queues[r]| <= 65536
  {
  }

  lemma FreshTells(r: nat, pair: nat)
    requires r < 4 && pair < 2
    ensures Tells(FRESH, [], r) && TellsPair(FRESH, [], pair)
  {
  }

  /** The outgoing numbers are counted over both receivers of a pair, at the first of them. */
  lemma {:induction false} PairCountersTell(xs: seq<Input>, pair: nat)
    requires AllInputs(xs) && pair < 2
    ensures TellsPair(Run(xs), xs, pair)
  {
    hide Ingested, OutBreaks, LastOut, KeptOfPair;
    if xs == [] {
      FreshTells(0, pair);
    } else {
      PairCountersTell(xs[..|xs| - 1], pair);
      StepTellsPair(xs, pair);
    }
  }
}
