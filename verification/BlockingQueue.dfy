/** BlockingTsInput (src/media_pipeline.cpp): one producer, one consumer and one
    stopper around a bounded byte queue with a mutex and one condition variable.

    Each critical section is one atomic step. Waiting is explicit: a thread whose
    condition fails is asleep until a notification, or a spurious wake-up, sends
    it back to test the condition again; notifications are steps of their own,
    made after the mutex is released. */
module BlockingQueue {
  import opened Prelude

  const MAX_BUFFERED: int := 32 * 1024 * 1024
  const MAX_APPEND_CHUNK: int := 1 * 1024 * 1024

  // append(data) from offset on, and read(size).
  datatype Producer =
    | ProducerIdle
    | ProducerReady(data: Bytes, offset: nat)
    | ProducerAsleep(data: Bytes, offset: nat)
    | ProducerNotifying(data: Bytes, offset: nat)

  datatype Consumer =
    | ConsumerIdle
    | ConsumerReady(size: nat)
    | ConsumerAsleep(size: nat)
    | ConsumerNotifying

  datatype Stopper = NotStopping | StopNotifying | StopDone

  datatype State = State(
    buffer: Bytes, stopped: bool,
    producer: Producer, consumer: Consumer, stopper: Stopper,
    offered: Bytes,        // all data ever passed to append
    accepted: Bytes,       // all bytes ever put into the buffer
    delivered: Bytes,      // all bytes ever returned by read
    eof: bool)             // read has reported the end of the stream

  datatype Step =
    | BeginAppend(data: Bytes) | AppendSection | NotifyOne | WakeProducer
    | BeginRead(size: nat) | ReadSection | NotifyAll | WakeConsumer
    | StopSection | StopNotifyAll

  const INITIAL: State := State([], false, ProducerIdle, ConsumerIdle, NotStopping, [], [], [], false)

  function Chunk(data: Bytes, offset: nat): int {
    Min(MAX_APPEND_CHUNK, |data| - offset)
  }

  // append's loop continues while offset < data.size().
  function Continue(data: Bytes, offset: nat): Producer {
    if offset < |data| then ProducerReady(data, offset) else ProducerIdle
  }

  function WokenProducer(p: Producer): Producer {
    if p.ProducerAsleep? then ProducerReady(p.data, p.offset) else p
  }

  function WokenConsumer(c: Consumer): Consumer {
    if c.ConsumerAsleep? then ConsumerReady(c.size) else c
  }

  predicate Enabled(s: State, step: Step) {
    match step
    case BeginAppend(_) => s.producer.ProducerIdle?
    case AppendSection => s.producer.ProducerReady? && s.producer.offset < |s.producer.data|
    case NotifyOne => s.producer.ProducerNotifying?
    case WakeProducer => s.producer.ProducerAsleep?
    case BeginRead(_) => s.consumer.ConsumerIdle?
    case ReadSection => s.consumer.ConsumerReady?
    case NotifyAll => s.consumer.ConsumerNotifying?
    case WakeConsumer => s.consumer.ConsumerAsleep?
    case StopSection => s.stopper.NotStopping?
    case StopNotifyAll => s.stopper.StopNotifying?
  }

  // The body of append under the lock.
  function AppendUnderLock(s: State): State
    requires s.producer.ProducerReady? && s.producer.offset < |s.producer.data|
  {
    var data, offset := s.producer.data, s.producer.offset;
    var size := Chunk(data, offset);
    if s.stopped then s.(producer := ProducerIdle)
    else if |s.buffer| + size <= MAX_BUFFERED then
      s.(buffer := s.buffer + data[offset..offset + size], accepted := s.accepted + data[offset..offset + size],
         producer := ProducerNotifying(data, offset + size))
    else s.(producer := ProducerAsleep(data, offset))
  }

  // The body of read under the lock.
  function ReadUnderLock(s: State): State
    requires s.consumer.ConsumerReady?
  {
    if s.stopped && s.buffer == [] then s.(consumer := ConsumerIdle, eof := true)
    else if s.buffer == [] then s.(consumer := ConsumerAsleep(s.consumer.size))
    else
      var count := Min(s.consumer.size, |s.buffer|);
      s.(buffer := s.buffer[count..], delivered := s.delivered + s.buffer[..count], consumer := ConsumerNotifying)
  }

  function Apply(s: State, step: Step): State
    requires Enabled(s, step)
  {
    match step
    case BeginAppend(data) => s.(producer := Continue(data, 0), offered := s.offered + data)
    case AppendSection => AppendUnderLock(s)
    case NotifyOne =>
      // Only the consumer can be asleep, so it is the one that is woken.
      s.(producer := Continue(s.producer.data, s.producer.offset), consumer := WokenConsumer(s.consumer))
    case WakeProducer => s.(producer := WokenProducer(s.producer))
    case BeginRead(size) => s.(consumer := ConsumerReady(size))
    case ReadSection => ReadUnderLock(s)
    case NotifyAll => s.(consumer := ConsumerIdle, producer := WokenProducer(s.producer))
    case WakeConsumer => s.(consumer := WokenConsumer(s.consumer))
    case StopSection => s.(stopped := true, stopper := StopNotifying)
    case StopNotifyAll =>
      s.(stopper := StopDone, producer := WokenProducer(s.producer), consumer := WokenConsumer(s.consumer))
  }

  // ------------------------------------------------------------- invariant

  // The condition each thread waits for.
  predicate RoomFor(s: State, data: Bytes, offset: nat) {
    s.stopped || |s.buffer| + Chunk(data, offset) <= MAX_BUFFERED
  }

  predicate Readable(s: State) {
    s.stopped || s.buffer != []
  }

  // A sleeper whose condition has come true has a notification on its way.
  predicate NoLostWakeUp(s: State) {
    && (s.producer.ProducerAsleep? && RoomFor(s, s.producer.data, s.producer.offset) ==>
          s.consumer.ConsumerNotifying? || s.stopper.StopNotifying?)
    && (s.consumer.ConsumerAsleep? && Readable(s) ==>
          s.producer.ProducerNotifying? || s.stopper.StopNotifying?)
  }

  predicate NotBothAsleep(s: State) {
    !(s.producer.ProducerAsleep? && s.consumer.ConsumerAsleep?)
  }

  // What append still has to put into the buffer.
  function Unaccepted(p: Producer): Bytes {
    if p.ProducerIdle? || p.offset > |p.data| then [] else p.data[p.offset..]
  }

  predicate Inv(s: State) {
    && s.delivered + s.buffer == s.accepted
    && |s.buffer| <= MAX_BUFFERED
    && s.accepted <= s.offered
    && (!s.stopped ==> s.accepted + Unaccepted(s.producer) == s.offered)
    && (s.producer.ProducerReady? || s.producer.ProducerAsleep? ==> s.producer.offset < |s.producer.data|)
    && (s.producer.ProducerNotifying? ==> s.producer.offset <= |s.producer.data|)
    && (s.stopper.NotStopping? <==> !s.stopped)
    && (s.eof ==> s.stopped && s.buffer == [])
    && NoLostWakeUp(s)
    && NotBothAsleep(s)
  }

  lemma ChunkIsNext(data: Bytes, offset: nat, size: nat, buffer: Bytes, delivered: Bytes, accepted: Bytes)
    requires offset + size <= |data| && delivered + buffer == accepted
    ensures var chunk := data[offset..offset + size];
      delivered + (buffer + chunk) == accepted + chunk
      && accepted + data[offset..] == (accepted + chunk) + data[offset + size..]
  {
    var chunk := data[offset..offset + size];
    assert data[offset..] == chunk + data[offset + size..];
  }

  lemma AppendKeepsInv(s: State)
    requires Inv(s) && Enabled(s, AppendSection)
    ensures Inv(Apply(s, AppendSection))
  {
    var data, offset := s.producer.data, s.producer.offset;
    ChunkIsNext(data, offset, Chunk(data, offset), s.buffer, s.delivered, s.accepted);
  }

  lemma ReadKeepsInv(s: State)
    requires Inv(s) && Enabled(s, ReadSection)
    ensures Inv(Apply(s, ReadSection))
  {
    if s.buffer != [] {
      var count := Min(s.consumer.size, |s.buffer|);
      assert s.buffer == s.buffer[..count] + s.buffer[count..];
      assert s.delivered + (s.buffer[..count] + s.buffer[count..]) ==
             (s.delivered + s.buffer[..count]) + s.buffer[count..];
    }
  }

  lemma StepKeepsInv(s: State, step: Step)
    requires Inv(s) && Enabled(s, step)
    ensures Inv(Apply(s, step))
  {
    match step
    case AppendSection => AppendKeepsInv(s);
    case ReadSection => ReadKeepsInv(s);
    case BeginAppend(data) =>
      assert s.accepted + data == s.offered + data || s.stopped;
      assert data[0..] == data;
    case NotifyOne =>
    case NotifyAll =>
    case _ =>
  }

  // ------------------------------------------------------------ whole runs

  // A step whose thread is not at that point does not happen.
  function Next(s: State, step: Step): State {
    if Enabled(s, step) then Apply(s, step) else s
  }

  // The state after any interleaving of steps.
  function After(steps: seq<Step>): State {
    if steps == [] then INITIAL else Next(After(steps[..|steps| - 1]), steps[|steps| - 1])
  }

  /** In every interleaving the bytes read followed by the bytes buffered are the bytes
      accepted, the buffer keeps its bound, no wake-up is lost and the two threads are
      never both asleep. */
  lemma {:induction false} EveryInterleaving(steps: seq<Step>)
    ensures Inv(After(steps))
  {
    hide Inv, Enabled, Apply;
    if steps == [] {
      InitialInv();
    } else {
      var before, step := After(steps[..|steps| - 1]), steps[|steps| - 1];
      EveryInterleaving(steps[..|steps| - 1]);
      if Enabled(before, step) { StepKeepsInv(before, step); }
    }
  }

  lemma InitialInv()
    ensures Inv(INITIAL)
  {
  }

  /** End of stream is final: everything accepted was delivered before it was
      reported, and nothing is accepted or delivered afterwards. */
  lemma {:induction false} EndOfStreamIsFinal(steps: seq<Step>, n: nat)
    requires n <= |steps| && After(steps[..n]).eof
    ensures var end, s := After(steps[..n]), After(steps);
      end.delivered == end.accepted && s.eof && s.delivered == end.delivered && s.accepted == end.accepted
    decreases |steps|
  {
    hide After;
    EveryInterleaving(steps[..n]);
    assert After(steps[..n]).delivered + [] == After(steps[..n]).delivered;
    if n < |steps| {
      var before := steps[..|steps| - 1];
      assert before[..n] == steps[..n];
      EndOfStreamIsFinal(before, n);
      EveryInterleaving(before);
      LastStep(steps);
    } else {
      assert steps[..n] == steps;
    }
  }

  lemma LastStep(steps: seq<Step>)
    requires steps != []
    ensures After(steps) == Next(After(steps[..|steps| - 1]), steps[|steps| - 1])
  {
  }

  /** After stop a reader never sleeps: it gets bytes while there are any, in order,
      and then the end of the stream. */
  lemma StoppedReads(steps: seq<Step>)
    requires After(steps).stopped && After(steps).consumer.ConsumerReady?
    ensures var s, t := After(steps), After(steps + [ReadSection]);
      && !t.consumer.ConsumerAsleep?
      && (t.eof <==> s.buffer == [])
      && |t.delivered| == Min(|s.delivered| + s.consumer.size, |s.accepted|) && t.delivered <= s.accepted
  {
    EveryInterleaving(steps);
    assert (steps + [ReadSection])[..|steps|] == steps;
  }

  // The thread a section or notification belongs to is not asleep after it.
  predicate RunsThrough(s: State, step: Step) {
    && Enabled(s, step)
    && (step.AppendSection? ==> !Apply(s, step).producer.ProducerAsleep?)
    && (step.ReadSection? ==> !Apply(s, step).consumer.ConsumerAsleep?)
    && step in {AppendSection, NotifyOne, ReadSection, NotifyAll, StopNotifyAll}
  }

  /** No deadlock: while both threads are inside a call, one of the threads can run
      its next section through, without relying on a spurious wake-up. */
  lemma NeverDeadlocked(steps: seq<Step>)
    requires !After(steps).producer.ProducerIdle? && !After(steps).consumer.ConsumerIdle?
    ensures exists step :: RunsThrough(After(steps), step)
  {
    EveryInterleaving(steps);
    var s := After(steps);
    if s.stopper.StopNotifying? {
      assert RunsThrough(s, StopNotifyAll);
    } else if s.producer.ProducerNotifying? {
      assert RunsThrough(s, NotifyOne);
    } else if s.consumer.ConsumerNotifying? {
      assert RunsThrough(s, NotifyAll);
    } else if s.consumer.ConsumerReady? && s.buffer != [] {
      assert RunsThrough(s, ReadSection);
    } else {
      assert RunsThrough(s, AppendSection);
    }
  }

  // ------------------------------------------------------- what sections do

  // What the last call of append was given, and the last call of read.
  function LastAppend(steps: seq<Step>): Bytes {
    if steps == [] then []
    else
      var before, step := steps[..|steps| - 1], steps[|steps| - 1];
      if step.BeginAppend? && After(before).producer.ProducerIdle? then step.data else LastAppend(before)
  }

  function LastRead(steps: seq<Step>): nat {
    if steps == [] then 0
    else
      var before, step := steps[..|steps| - 1], steps[|steps| - 1];
      if step.BeginRead? && After(before).consumer.ConsumerIdle? then step.size else LastRead(before)
  }

  // Everything append was ever called with.
  function AllOffered(steps: seq<Step>): Bytes {
    if steps == [] then []
    else
      var before, step := steps[..|steps| - 1], steps[|steps| - 1];
      AllOffered(before)
      + (if step.BeginAppend? && After(before).producer.ProducerIdle? then step.data else [])
  }

  predicate CallsKept(s: State, data: Bytes, size: nat) {
    && (!s.producer.ProducerIdle? ==> s.producer.data == data)
    && (s.consumer.ConsumerReady? || s.consumer.ConsumerAsleep? ==> s.consumer.size == size)
  }

  lemma StepKeepsCalls(s: State, step: Step, data: Bytes, size: nat)
    requires Enabled(s, step) && CallsKept(s, data, size)
    ensures CallsKept(Apply(s, step), if step.BeginAppend? then step.data else data,
                      if step.BeginRead? then step.size else size)
  {
    hide Inv;
  }

  lemma StepOffers(s: State, step: Step)
    requires Enabled(s, step)
    ensures Apply(s, step).offered == s.offered + (if step.BeginAppend? then step.data else [])
    ensures Apply(s, step).stopped <==> s.stopped || step.StopSection?
  {
    hide Inv;
    assert s.offered + [] == s.offered;
  }

  // The stopper takes the lock once, and can until then.
  lemma StopperIsFree(s: State)
    requires Inv(s)
    ensures Enabled(s, StopSection) <==> !s.stopped
  {
  }

  /** In every run a call works on what it was given, however often it slept; what was offered
      is everything append was called with; and the queue is stopped exactly when the stopper
      took the lock. */
  lemma {:induction false} CallsKeepTheirArguments(steps: seq<Step>)
    ensures CallsKept(After(steps), LastAppend(steps), LastRead(steps))
    ensures After(steps).offered == AllOffered(steps)
    ensures After(steps).stopped <==> StopSection in steps
  {
    hide Inv, Apply, CallsKept;
    if steps == [] {
      NothingCalled();
    } else {
      var before, step := steps[..|steps| - 1], steps[|steps| - 1];
      CallsKeepTheirArguments(before);
      EveryInterleaving(before);
      StopperIsFree(After(before));
      assert steps == before + [step];
      assert AllOffered(before) + [] == AllOffered(before);
      if Enabled(After(before), step) {
        StepKeepsCalls(After(before), step, LastAppend(before), LastRead(before));
        StepOffers(After(before), step);
      }
    }
  }

  lemma NothingCalled()
    ensures CallsKept(INITIAL, [], 0)
  {
  }

  /** One turn of append under the lock, at any point of any run: once stopped it ends; it takes
      the next 1 MiB of its data, or what is left, if the buffer then holds at most 32 MiB;
      else it sleeps. */
  lemma AppendTakesAChunk(steps: seq<Step>)
    requires After(steps).producer.ProducerReady?
    ensures var s, t := After(steps), After(steps + [AppendSection]);
      var data, offset := s.producer.data, s.producer.offset;
      && data == LastAppend(steps) && offset < |data|
      && var end := if |data| - offset < 1048576 then |data| else offset + 1048576;
         if StopSection in steps then t == s.(producer := ProducerIdle)
         else if |s.buffer| + (end - offset) <= 33554432 then
           t.accepted == s.accepted + data[offset..end] && t.producer == ProducerNotifying(data, end)
         else t == s.(producer := ProducerAsleep(data, offset))
  {
    EveryInterleaving(steps);
    CallsKeepTheirArguments(steps);
    assert (steps + [AppendSection])[..|steps|] == steps;
  }

  /** One turn of read under the lock: it returns the first bytes that wait, as many as it was
      asked for or as there are; from an empty buffer it reports the end once stopped, and
      else sleeps. */
  lemma ReadTakesWhatWaits(steps: seq<Step>)
    requires After(steps).consumer.ConsumerReady?
    ensures var s, t := After(steps), After(steps + [ReadSection]);
      var size := LastRead(steps);
      if s.buffer != [] then
        t.delivered == s.delivered + s.buffer[..if size < |s.buffer| then size else |s.buffer|]
        && t.consumer == ConsumerNotifying && t.eof == s.eof
      else if StopSection in steps then t == s.(consumer := ConsumerIdle, eof := true)
      else t == s.(consumer := ConsumerAsleep(size))
  {
    EveryInterleaving(steps);
    CallsKeepTheirArguments(steps);
    assert (steps + [ReadSection])[..|steps|] == steps;
  }

  lemma NextStep(steps: seq<Step>, step: Step)
    ensures After(steps + [step]) == Next(After(steps), step)
  {
    assert (steps + [step])[..|steps|] == steps;
  }

  /** A call begins with its own arguments, and an append of nothing is over at once. */
  lemma CallsBegin(steps: seq<Step>, data: Bytes, size: nat)
    ensures After(steps).producer.ProducerIdle? ==>
              After(steps + [BeginAppend(data)]).producer ==
              if data == [] then ProducerIdle else ProducerReady(data, 0)
    ensures After(steps).consumer.ConsumerIdle? ==> After(steps + [BeginRead(size)]).consumer == ConsumerReady(size)
  {
    hide After;
    NextStep(steps, BeginAppend(data));
    NextStep(steps, BeginRead(size));
  }

  /** The notification of an append lets it go on, or end when all its data is taken, and sends
      a sleeping reader back to test its condition. */
  lemma AppendNotifies(steps: seq<Step>)
    requires After(steps).producer.ProducerNotifying?
    ensures var s, t := After(steps), After(steps + [NotifyOne]);
      && t.producer == (if s.producer.offset == |s.producer.data| then ProducerIdle
                        else ProducerReady(s.producer.data, s.producer.offset))
      && t.consumer == if s.consumer.ConsumerAsleep? then ConsumerReady(s.consumer.size) else s.consumer
  {
    hide After;
    EveryInterleaving(steps);
    NextStep(steps, NotifyOne);
  }

  /** The notification of a read ends it and sends a sleeping append back. */
  lemma ReadNotifies(steps: seq<Step>)
    requires After(steps).consumer.ConsumerNotifying?
    ensures var s, t := After(steps), After(steps + [NotifyAll]);
      && t.consumer == ConsumerIdle
      && t.producer == if s.producer.ProducerAsleep? then ProducerReady(s.producer.data, s.producer.offset)
                       else s.producer
  {
    hide After, Inv;
    NextStep(steps, NotifyAll);
  }

  /** The stopper's notification is its last act and sends both back; a spurious wake-up sends
      back its own sleeper only. */
  lemma OthersNotify(steps: seq<Step>)
    ensures var s := After(steps);
      var producer := if s.producer.ProducerAsleep? then ProducerReady(s.producer.data, s.producer.offset)
                      else s.producer;
      var consumer := if s.consumer.ConsumerAsleep? then ConsumerReady(s.consumer.size) else s.consumer;
      && (s.stopper.StopNotifying? ==>
            After(steps + [StopNotifyAll]) == s.(stopper := StopDone, producer := producer, consumer := consumer))
      && After(steps + [WakeProducer]) == s.(producer := producer)
      && After(steps + [WakeConsumer]) == s.(consumer := consumer)
  {
    hide After, Inv;
    NextStep(steps, StopNotifyAll);
    NextStep(steps, WakeProducer);
    NextStep(steps, WakeConsumer);
  }

  /** Before a stop, everything append was called with is accepted once the call is over; and
      all of it was read once the buffer is empty too. */
  lemma FinishedAppendsAreAccepted(steps: seq<Step>)
    requires After(steps).producer.ProducerIdle? && StopSection !in steps
    ensures After(steps).accepted == AllOffered(steps)
    ensures After(steps).buffer == [] ==> After(steps).delivered == AllOffered(steps)
  {
    EveryInterleaving(steps);
    CallsKeepTheirArguments(steps);
    var s := After(steps);
    assert s.accepted + [] == s.accepted && s.delivered + [] == s.delivered;
  }

  // ------------------------------------------------- the object's own sections

  datatype Entry = Entered | MustWait | Ended

  // The guarded object. A result of MustWait is a failed wait predicate.
  class BlockingTsInput {
    var buffer: Bytes
    var stopped: bool

    constructor ()
      ensures buffer == [] && !stopped
    {
      buffer, stopped := [], false;
    }

    method TryAppend(data: Bytes, offset: nat) returns (entry: Entry, next: nat)
      requires offset < |data|
      modifies this
      ensures stopped == old(stopped) && offset <= next <= |data|
      ensures forall s: State | s.buffer == old(buffer) && s.stopped == old(stopped)
                && s.producer == ProducerReady(data, offset) ::
                var t := AppendUnderLock(s);
                && t.buffer == buffer
                && t.producer == (if entry.Ended? then ProducerIdle
                                  else if entry.MustWait? then ProducerAsleep(data, offset)
                                  else ProducerNotifying(data, next))
    {
      var chunkSize := Min(MAX_APPEND_CHUNK, |data| - offset);
      next := offset;
      if !(stopped || |buffer| + chunkSize <= MAX_BUFFERED) {
        return MustWait, offset;
      }
      if stopped {
        return Ended, offset;
      }
      buffer := buffer + data[offset..offset + chunkSize];
      next := offset + chunkSize;
      entry := Entered;
    }

    method TryRead(size: nat) returns (entry: Entry, bytes: Bytes)
      modifies this
      ensures stopped == old(stopped)
      ensures forall s: State | s.buffer == old(buffer) && s.stopped == old(stopped)
                && s.consumer == ConsumerReady(size) ::
                var t := ReadUnderLock(s);
                && t.buffer == buffer && t.delivered == s.delivered + bytes
                && t.consumer == (if entry.Ended? then ConsumerIdle
                                  else if entry.MustWait? then ConsumerAsleep(size)
                                  else ConsumerNotifying)
    {
      bytes := [];
      if !(stopped || buffer != []) {
        return MustWait, [];
      }
      if stopped && buffer == [] {
        return Ended, [];
      }
      var count := Min(size, |buffer|);
      var index := 0;
      ghost var all := buffer;
      while index < count
        invariant 0 <= index <= count
        invariant bytes == all[..index] && buffer == all[index..] && stopped == old(stopped)
      {
        bytes := bytes + [buffer[0]];
        buffer := buffer[1..];
        index := index + 1;
      }
      entry := Entered;
    }

    method Stop()
      modifies this
      ensures stopped && buffer == old(buffer)
    {
      stopped := true;
    }
  }
}
