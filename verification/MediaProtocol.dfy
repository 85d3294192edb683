/** The parent side of the media-child protocol (src/media_process.cpp) as a
    function of the parent's state and of what the operating system answers.

    Fork and socketpair always succeed. The answers of waitpid and send are two
    arbitrary finite scripts; when a script is used up the child is alive and
    sends are accepted, so every finite run is one choice of scripts. */
module MediaProtocol {
  import opened Prelude
  import opened WireCodec

  const BEACON: Uint32 := 3
  const SELECT: Uint32 := 2
  const NOTICE: Uint32 := 4
  const PLAY_VIDEO: Uint32 := 5
  const STOP_VIDEO: Uint32 := 6
  const TICK: Uint32 := 7
  const TRANSPORT_STREAM: Uint32 := 8
  const PREVIEW: Uint32 := 9
  const SEEK_VIDEO: Uint32 := 11
  const NOTICE_END_TONE: Uint32 := 13
  const RECONFIGURE_PLUTO: Uint32 := 14

  datatype Message = Message(kind: Uint32, payload: Bytes)

  // The answer to a send. A full socket is polled and retried once by essential
  // sends; errno then belongs to the retry.
  datatype Retry = RetryAccepted | RetryClosed | RetryFailed
  datatype Send = Accepted | WouldBlock(retry: Retry) | Closed | Failed

  datatype State = State(
    active: Option<ActiveInput>, beaconAllowed: bool, previewEnabled: bool,
    notice: Option<Bytes>, noticeEndTone: bool,
    videoPath: Option<Bytes>, videoSeek: Option<Int64>,
    running: bool,                       // childPid_ >= 0, which is socket_ >= 0
    lastSelect: Option<Bytes>, lastBeacon: Option<Bytes>, lastNotice: Option<Bytes>,
    lastEndTone: Option<Bytes>, lastPreview: Option<Bytes>,
    gone: seq<bool>,                     // waitpid script: has the child gone?
    sends: seq<Send>,                    // send script
    channel: seq<Message>)               // everything the current child's socket accepted

  // A Unix socket refuses a message beyond its send buffer, whose size is an int.
  predicate Carried(payload: Bytes) {
    |payload| + 8 < TWO_31
  }

  // The socket takes the message, or refuses its size.
  function Deliver(s: State, kind: Uint32, payload: Bytes): (State, bool) {
    if Carried(payload) then (s.(channel := s.channel + [Message(kind, payload)]), true) else (s, false)
  }

  function Env(s: State): nat {
    |s.gone| + |s.sends|
  }

  // t differs from s only in what sending and restarting may touch.
  predicate SameParent(s: State, t: State) {
    && t.active == s.active && t.beaconAllowed == s.beaconAllowed && t.previewEnabled == s.previewEnabled
    && t.notice == s.notice && t.noticeEndTone == s.noticeEndTone
    && t.videoPath == s.videoPath && t.videoSeek == s.videoSeek
  }

  function BoolPayload(b: bool): Bytes { EncBool(b) }
  function StringPayload(s: Bytes): Bytes { EncString(s) }
  function NoticePayload(notice: Option<Bytes>): Bytes {
    if notice.Some? then StringPayload(notice.value) else []
  }

  // -------------------------------------------------- sending and restarting

  function TakeGone(s: State): (r: (bool, State))
    ensures Env(r.1) <= Env(s) && (r.0 ==> Env(r.1) < Env(s))
  {
    if s.gone == [] then (false, s) else (s.gone[0], s.(gone := s.gone[1..]))
  }

  function TakeSend(s: State): (r: (Send, State))
    ensures Env(r.1) <= Env(s) && (!r.0.Accepted? ==> Env(r.1) < Env(s))
  {
    if s.sends == [] then (Accepted, s) else (s.sends[0], s.(sends := s.sends[1..]))
  }

  function EnsureRunning(s: State): (t: State)
    ensures t.running && Env(t) <= Env(s) && SameParent(s, t)
    decreases Env(s), if s.running then 0 else 6
  {
    if !s.running then StartChild(s)
    else
      var (gone, s1) := TakeGone(s);
      if gone then StartChild(s1.(running := false)) else s1
  }

  function SendMessage(s: State, kind: Uint32, payload: Bytes, essential: bool): (r: (State, bool))
    ensures r.0.running && Env(r.0) <= Env(s) && SameParent(s, r.0)
    decreases Env(s), if s.running then 1 else 7
  {
    var (outcome, s1) := TakeSend(EnsureRunning(s));
    match outcome
    case Accepted => Deliver(s1, kind, payload)
    case WouldBlock(retry) =>
      if !essential then (s1, false)
      else (
        match retry
        case RetryAccepted => Deliver(s1, kind, payload)
        case RetryClosed => (StartChild(s1.(running := false)), false)
        case RetryFailed => (s1, false)
      )
    case Closed => (StartChild(s1.(running := false)), false)
    case Failed => (s1, false)
  }

  function StartChild(s: State): (t: State)
    ensures t.running && Env(t) <= Env(s) && SameParent(s, t)
    decreases Env(s), 5
  {
    ReplayState(s.(running := true, channel := [],
                   lastSelect := None, lastBeacon := None, lastNotice := None, lastPreview := None))
  }

  function ReplayState(s: State): (t: State)
    requires s.running
    ensures t.running && Env(t) <= Env(s) && SameParent(s, t)
    decreases Env(s), 4
  {
    var s1 := TellSelect(s);
    var s2 := TellBeacon(s1);
    var s3 := TellNotice(s2);
    var s4 := TellEndTone(s3);
    var s5 := TellPreview(s4);
    ReplayVideo(s5)
  }

  function ReplayVideo(s: State): (t: State)
    requires s.running
    ensures t.running && Env(t) <= Env(s) && SameParent(s, t)
    decreases Env(s), 3
  {
    if s.videoPath.None? then s
    else
      var s1 := SendMessage(s, PLAY_VIDEO, StringPayload(s.videoPath.value), true).0;
      if s.videoSeek.None? then s1
      else SendMessage(s1, SEEK_VIDEO, EncI64(s.videoSeek.value), true).0
  }

  // Send a value the parent holds and remember the payload if it was accepted.
  function TellSelect(s: State): (t: State)
    requires s.running
    ensures t.running && Env(t) <= Env(s) && SameParent(s, t)
    decreases Env(s), 2
  {
    var payload := ActivePayload(s.active);
    var (t, ok) := SendMessage(s, SELECT, payload, true);
    if ok then t.(lastSelect := Some(payload)) else t
  }

  function TellBeacon(s: State): (t: State)
    requires s.running
    ensures t.running && Env(t) <= Env(s) && SameParent(s, t)
    decreases Env(s), 2
  {
    var payload := BoolPayload(s.beaconAllowed);
    var (t, ok) := SendMessage(s, BEACON, payload, true);
    if ok then t.(lastBeacon := Some(payload)) else t
  }

  function TellNotice(s: State): (t: State)
    requires s.running
    ensures t.running && Env(t) <= Env(s) && SameParent(s, t)
    decreases Env(s), 2
  {
    var payload := NoticePayload(s.notice);
    var (t, ok) := SendMessage(s, NOTICE, payload, true);
    if ok then t.(lastNotice := Some(payload)) else t
  }

  function TellEndTone(s: State): (t: State)
    requires s.running
    ensures t.running && Env(t) <= Env(s) && SameParent(s, t)
    decreases Env(s), 2
  {
    var payload := BoolPayload(s.noticeEndTone);
    var (t, ok) := SendMessage(s, NOTICE_END_TONE, payload, true);
    if ok then t.(lastEndTone := Some(payload)) else t
  }

  function TellPreview(s: State): (t: State)
    requires s.running
    ensures t.running && Env(t) <= Env(s) && SameParent(s, t)
    decreases Env(s), 2
  {
    var payload := BoolPayload(s.previewEnabled);
    var (t, ok) := SendMessage(s, PREVIEW, payload, true);
    if ok then t.(lastPreview := Some(payload)) else t
  }

  // ------------------------------------------------------------ public calls

  datatype Call =
    | Select(input: Option<ActiveInput>)
    | SetBeaconAllowed(allowed: bool)
    | SetAccessNotice(text: Option<Bytes>, endTone: bool)
    | SetPreviewEnabled(enabled: bool)
    | PlayFallbackVideo(path: Bytes)
    | StopFallbackVideo
    | SeekFallbackVideo(position: Int64)
    | ReconfigurePluto(transmit: bool)
    | SendTick
    | SendTransport(chunk: Bytes)
    | DrainChild(closed: bool)           // recv saw the child's socket closed

  // The call is skipped when the cached payload is already the new one.
  function SelectCall(s: State, input: Option<ActiveInput>): State
    requires s.running
  {
    var s1 := s.(active := input);
    if s1.lastSelect == Some(ActivePayload(input)) then s1 else TellSelect(s1)
  }

  function BeaconCall(s: State, allowed: bool): State
    requires s.running
  {
    var s1 := s.(beaconAllowed := allowed);
    if s1.lastBeacon == Some(BoolPayload(allowed)) then s1 else TellBeacon(s1)
  }

  function NoticeCall(s: State, text: Option<Bytes>, endTone: bool): State
    requires s.running
  {
    var s1 := s.(notice := text, noticeEndTone := text.Some? && endTone);
    var s2 := if s1.lastNotice == Some(NoticePayload(text)) then s1 else TellNotice(s1);
    if s2.lastEndTone == Some(BoolPayload(s2.noticeEndTone)) then s2 else TellEndTone(s2)
  }

  function PreviewCall(s: State, enabled: bool): State
    requires s.running
  {
    var s1 := s.(previewEnabled := enabled);
    if s1.lastPreview == Some(BoolPayload(enabled)) then s1 else TellPreview(s1)
  }

  function Perform(s: State, call: Call): (t: State)
    requires s.running
    ensures t.running
  {
    match call
    case Select(input) => SelectCall(s, input)
    case SetBeaconAllowed(allowed) => BeaconCall(s, allowed)
    case SetAccessNotice(text, endTone) => NoticeCall(s, text, endTone)
    case SetPreviewEnabled(enabled) => PreviewCall(s, enabled)
    case PlayFallbackVideo(path) =>
      SendMessage(s.(videoPath := Some(path), videoSeek := None), PLAY_VIDEO, StringPayload(path), true).0
    case StopFallbackVideo => SendMessage(s.(videoPath := None, videoSeek := None), STOP_VIDEO, [], true).0
    case SeekFallbackVideo(position) =>
      SendMessage(s.(videoSeek := Some(Max(0, position))), SEEK_VIDEO, EncI64(Max(0, position)), true).0
    case ReconfigurePluto(transmit) => SendMessage(s, RECONFIGURE_PLUTO, BoolPayload(transmit), true).0
    case SendTick => SendMessage(s, TICK, [], false).0
    case SendTransport(chunk) => SendMessage(s, TRANSPORT_STREAM, chunk, false).0
    case DrainChild(closed) => if closed then StartChild(s.(running := false)) else s
  }

  // A call with the operating system's answers during it.
  datatype Step = Step(call: Call, gone: seq<bool>, sends: seq<Send>)

  const NEW_PROCESS: State :=
    State(None, true, false, None, false, None, None, false, None, None, None, None, None, [], [], [])

  // The parent after its constructor and the given calls.
  function Run(gone: seq<bool>, sends: seq<Send>, steps: seq<Step>): (s: State)
    ensures s.running
    decreases |steps|
  {
    if steps == [] then EnsureRunning(NEW_PROCESS.(gone := gone, sends := sends))
    else
      var before := Run(gone, sends, steps[..|steps| - 1]);
      var step := steps[|steps| - 1];
      Perform(before.(gone := step.gone, sends := step.sends), step.call)
  }

  // --------------------------------------------------------------- the child

  const CHILD_BUFFER: int := 2 * 1024 * 1024

  // What the child process was asked for; crashed stands for an escaped exception.
  datatype Child = Child(
    selected: Option<ActiveInput>, beaconAllowed: bool, notice: Option<Bytes>, endTone: bool,
    previewEnabled: bool, video: Option<Bytes>, position: Option<Int64>, crashed: bool)

  const NEW_CHILD: Child := Child(None, true, None, false, false, None, None, false)

  // recv cuts a message to the buffer, and the header no longer fits a cut one.
  predicate Received(m: Message) {
    |m.payload| % TWO_32 == Min(|m.payload|, CHILD_BUFFER)
  }

  function Dispatch(child: Child, m: Message): Child {
    if child.crashed || !Received(m) then child
    else
      var payload := m.payload[..Min(|m.payload|, CHILD_BUFFER)];
      if m.kind == SELECT then
        match DecActive(payload)
        case None => child.(crashed := true)
        case Some((input, _)) => child.(selected := input)
      else if m.kind == BEACON then
        match DecBool(payload)
        case None => child.(crashed := true)
        case Some((allowed, _)) => child.(beaconAllowed := allowed)
      else if m.kind == NOTICE then
        if payload == [] then child.(notice := None, endTone := false)
        else (
          match DecString(payload)
          case None => child.(crashed := true)
          case Some((text, _)) => child.(notice := Some(text), endTone := false)
        )
      else if m.kind == NOTICE_END_TONE then
        match DecBool(payload)
        case None => child.(crashed := true)
        case Some((tone, _)) => child.(endTone := child.notice.Some? && tone)
      else if m.kind == PREVIEW then
        match DecBool(payload)
        case None => child.(crashed := true)
        case Some((enabled, _)) => child.(previewEnabled := enabled)
      else if m.kind == PLAY_VIDEO then
        match DecString(payload)
        case None => child.(crashed := true)
        case Some((path, _)) => child.(video := Some(path), position := None)
      else if m.kind == STOP_VIDEO then child.(video := None, position := None)
      else if m.kind == SEEK_VIDEO then
        match DecI64(payload)
        case None => child.(crashed := true)
        case Some((position, _)) => child.(position := Some(position))
      else if m.kind == RECONFIGURE_PLUTO then
        child.(crashed := DecBool(payload).None?)
      else child
  }

  // The child after it has read its whole socket.
  function Drain(child: Child, channel: seq<Message>): Child {
    if channel == [] then child
    else Dispatch(Drain(child, channel[..|channel| - 1]), channel[|channel| - 1])
  }

  // ------------------------------------------------------------- the invariant

  // The last payload of one kind that the socket accepted.
  function Last(channel: seq<Message>, kind: Uint32): Option<Bytes> {
    if channel == [] then None
    else if channel[|channel| - 1].kind == kind then Some(channel[|channel| - 1].payload)
    else Last(channel[..|channel| - 1], kind)
  }

  predicate Told(cached: Option<Bytes>, channel: seq<Message>, kind: Uint32) {
    cached.Some? ==> Last(channel, kind) == cached
  }

  // Messages the child can read without throwing.
  ghost predicate Readable(m: Message) {
    forall child: Child | !child.crashed :: !Dispatch(child, m).crashed
  }

  ghost predicate AllReadable(channel: seq<Message>) {
    forall i | 0 <= i < |channel| :: Readable(channel[i])
  }

  // A tone message in the current channel is the cached one; the converse fails
  // because a restart keeps the cache.
  predicate ToneTracked(s: State) {
    Last(s.channel, NOTICE_END_TONE).Some? ==> Last(s.channel, NOTICE_END_TONE) == s.lastEndTone
  }

  // The invariant, except possibly for the cached payload of one kind.
  ghost predicate AgreesBut(s: State, kind: Uint32) {
    && (kind != SELECT ==> Told(s.lastSelect, s.channel, SELECT))
    && (kind != BEACON ==> Told(s.lastBeacon, s.channel, BEACON))
    && (kind != NOTICE ==> Told(s.lastNotice, s.channel, NOTICE))
    && (kind != PREVIEW ==> Told(s.lastPreview, s.channel, PREVIEW))
    && (kind != NOTICE_END_TONE ==> ToneTracked(s))
    && AllReadable(s.channel)
  }

  ghost predicate Agrees(s: State) {
    AgreesBut(s, TICK)
  }
}
