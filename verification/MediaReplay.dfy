/** What the media child is told: by a restart, everything the parent holds; by a quiet
    call, its own message. Message kinds stand as the numbers on the wire. */
module MediaReplay {
  import opened Prelude
  import opened WireCodec
  import opened MediaProtocol
  import opened MediaAgreement

  // ------------------------------------------------------- one send, any answer

  function Rest<T>(s: seq<T>): seq<T> {
    if s == [] then [] else s[1..]
  }

  // The channel after messages sent in turn, each to its own answer.
  function Sent(channel: seq<Message>, messages: seq<Message>, answers: seq<Send>): seq<Message>
    decreases |messages|
  {
    if messages == [] then channel
    else
      var taken := Takes(Answer(answers, 0)) && Carried(messages[0].payload);
      Sent(channel + (if taken then [messages[0]] else []), messages[1..], Rest(answers))
  }

  predicate NothingRefused(answers: seq<Send>) {
    forall i | 0 <= i < |answers| :: Takes(answers[i])
  }

  lemma {:induction false} NothingRefusedSendsAll(channel: seq<Message>, messages: seq<Message>, answers: seq<Send>)
    requires NothingRefused(answers) && forall i | 0 <= i < |messages| :: Carried(messages[i].payload)
    ensures Sent(channel, messages, answers) == channel + messages
    decreases |messages|
  {
    if messages == [] {
      assert channel + messages == channel;
    } else {
      NothingRefusedSendsAll(channel + [messages[0]], messages[1..], Rest(answers));
      assert channel + [messages[0]] + messages[1..] == channel + messages;
    }
  }

  /** One send to a living child, by the answer it meets: the message joins the channel,
      or is refused, or the child is replaced and the message is not sent to the new one. */
  lemma OneSend(s: State, kind: Uint32, payload: Bytes, essential: bool)
    requires s.running && s.gone == [] && Carried(payload)
    ensures var (t, ok) := SendMessage(s, kind, payload, essential);
      var left := s.(sends := Rest(s.sends));
      match Answer(s.sends, 0)
      case Accepted => ok && t == left.(channel := s.channel + [Message(kind, payload)])
      case WouldBlock(retry) =>
        if essential && retry.RetryAccepted? then ok && t == left.(channel := s.channel + [Message(kind, payload)])
        else if essential && retry.RetryClosed? then !ok && t == StartChild(left.(running := false))
        else !ok && t == left
      case Closed => !ok && t == StartChild(left.(running := false))
      case Failed => !ok && t == left
  {
    hide EnsureRunning, StartChild;
    LivingChildRuns(s);
  }

  // ------------------------------------------------------------------ a restart

  function ParentMessages(s: State): seq<Message> {
    [Message(2, ActivePayload(s.active)), Message(3, [if s.beaconAllowed then 1 else 0]),
     Message(4, if s.notice.Some? then EncString(s.notice.value) else []),
     Message(13, [if s.noticeEndTone then 1 else 0]), Message(9, [if s.previewEnabled then 1 else 0])]
    + VideoMessages(s)
  }

  function VideoMessages(s: State): seq<Message> {
    if s.videoPath.None? then []
    else if s.videoSeek.None? then [Message(5, EncString(s.videoPath.value))]
    else [Message(5, EncString(s.videoPath.value)), Message(11, EncI64(s.videoSeek.value))]
  }

  lemma FlagBytes(b: bool)
    ensures BoolPayload(b) == [if b then 1 else 0]
  {
  }

  // One replayed value, followed by more.
  lemma SentStep(channel: seq<Message>, m: Message, more: seq<Message>, answers: seq<Send>)
    ensures Sent(channel, [m] + more, answers) ==
            Sent(channel + (if Takes(Answer(answers, 0)) && Carried(m.payload) then [m] else []), more, Rest(answers))
  {
    assert ([m] + more)[1..] == more;
  }

  lemma QuietSendUsesOne(s: State, kind: Uint32, payload: Bytes)
    requires Quiet(s)
    ensures var (t, _) := SendMessage(s, kind, payload, true);
      var m := Message(kind, payload);
      && Quiet(t) && SameParent(s, t) && t.sends == Rest(s.sends)
      && t.channel == s.channel + (if Takes(Answer(s.sends, 0)) && Carried(payload) then [m] else [])
  {
    assert s.channel + [] == s.channel;
    if Carried(payload) {
      QuietCarried(s, kind, payload);
    } else {
      QuietUncarried(s, kind, payload);
    }
  }

  lemma QuietCarried(s: State, kind: Uint32, payload: Bytes)
    requires Quiet(s) && Carried(payload)
    ensures var (t, _) := SendMessage(s, kind, payload, true);
      && Quiet(t) && SameParent(s, t) && t.sends == Rest(s.sends)
      && t.channel == s.channel + (if Takes(Answer(s.sends, 0)) then [Message(kind, payload)] else [])
  {
    hide SendMessage, StartChild, Carried;
    OneSend(s, kind, payload, true);
    assert s.channel + [] == s.channel;
  }

  lemma QuietUncarried(s: State, kind: Uint32, payload: Bytes)
    requires Quiet(s) && !Carried(payload)
    ensures var (t, _) := SendMessage(s, kind, payload, true);
      Quiet(t) && SameParent(s, t) && t.sends == Rest(s.sends) && t.channel == s.channel
  {
    hide EnsureRunning, StartChild;
    LivingChildRuns(s);
  }

  // A told value adds its message, whatever it leaves cached.
  predicate Adds(s: State, t: State, m: Message) {
    && Quiet(t) && SameParent(s, t) && t.sends == Rest(s.sends)
    && t.channel == s.channel + (if Takes(Answer(s.sends, 0)) && Carried(m.payload) then [m] else [])
  }

  lemma SelectAdds(s: State)
    requires Quiet(s)
    ensures Adds(s, TellSelect(s), Message(2, ActivePayload(s.active)))
  {
    hide SendMessage, ActivePayload, Takes, Answer, Carried;
    QuietSendUsesOne(s, SELECT, ActivePayload(s.active));
  }

  lemma BeaconAdds(s: State)
    requires Quiet(s)
    ensures Adds(s, TellBeacon(s), Message(3, [if s.beaconAllowed then 1 else 0]))
  {
    hide SendMessage, BoolPayload, Takes, Answer, Carried;
    QuietSendUsesOne(s, BEACON, BoolPayload(s.beaconAllowed));
    FlagBytes(s.beaconAllowed);
  }

  lemma NoticeAdds(s: State)
    requires Quiet(s)
    ensures Adds(s, TellNotice(s), Message(4, if s.notice.Some? then EncString(s.notice.value) else []))
  {
    hide SendMessage, EncString, Takes, Answer, Carried;
    QuietSendUsesOne(s, NOTICE, NoticePayload(s.notice));
  }

  lemma EndToneAdds(s: State)
    requires Quiet(s)
    ensures Adds(s, TellEndTone(s), Message(13, [if s.noticeEndTone then 1 else 0]))
  {
    hide SendMessage, BoolPayload, Takes, Answer, Carried;
    QuietSendUsesOne(s, NOTICE_END_TONE, BoolPayload(s.noticeEndTone));
    FlagBytes(s.noticeEndTone);
  }

  lemma PreviewAdds(s: State)
    requires Quiet(s)
    ensures Adds(s, TellPreview(s), Message(9, [if s.previewEnabled then 1 else 0]))
  {
    hide SendMessage, BoolPayload, Takes, Answer, Carried;
    QuietSendUsesOne(s, PREVIEW, BoolPayload(s.previewEnabled));
    FlagBytes(s.previewEnabled);
  }

  lemma VideoIsTold(s: State)
    requires Quiet(s)
    ensures ReplayVideo(s).channel == Sent(s.channel, VideoMessages(s), s.sends)
  {
    hide SendMessage, EncString, EncI64, Takes, Answer, Carried, Sent, Quiet;
    SentNothing(s.channel, s.sends);
    if s.videoPath.Some? {
      var play := Message(5, EncString(s.videoPath.value));
      QuietSendUsesOne(s, PLAY_VIDEO, StringPayload(s.videoPath.value));
      var s1 := SendMessage(s, PLAY_VIDEO, StringPayload(s.videoPath.value), true).0;
      SentNothing(s1.channel, s1.sends);
      if s.videoSeek.Some? {
        var seek := Message(11, EncI64(s.videoSeek.value));
        QuietSendUsesOne(s1, SEEK_VIDEO, EncI64(s.videoSeek.value));
        SentStep(s.channel, play, [seek], s.sends);
        SentStep(s1.channel, seek, [], s1.sends);
        var s2 := SendMessage(s1, SEEK_VIDEO, EncI64(s.videoSeek.value), true).0;
        SentNothing(s2.channel, s2.sends);
        assert [seek] + [] == [seek] && [play] + [seek] == [play, seek];
      } else {
        SentStep(s.channel, play, [], s.sends);
        assert [play] + [] == [play];
      }
    }
  }

  lemma SentNothing(channel: seq<Message>, answers: seq<Send>)
    ensures Sent(channel, [], answers) == channel
  {
  }

  /** A restart during which the new child lives sends it, in this order and each to its
      own answer: the input, the beacon, the notice, the end tone, the preview, and, when a
      video is held, its path and then its position if there is one. Nothing else goes out. */
  lemma RestartTellsInOrder(s: State)
    requires s.gone == [] && NothingCloses(s.sends)
    ensures StartChild(s).channel == Sent([], ParentMessages(s), s.sends)
  {
    hide SendMessage, TellSelect, TellBeacon, TellNotice, TellEndTone, TellPreview, ReplayVideo, ActivePayload;
    hide EncString, Takes, Answer, Carried, Sent, Quiet, VideoMessages, EncI64, NothingCloses;
    var s0 := s.(running := true, channel := [],
                 lastSelect := None, lastBeacon := None, lastNotice := None, lastPreview := None);
    assert Quiet(s0) by { QuietStart(s0); }
    var ms := ParentMessages(s);
    SelectAdds(s0);
    var s1 := TellSelect(s0);
    BeaconAdds(s1);
    var s2 := TellBeacon(s1);
    NoticeAdds(s2);
    var s3 := TellNotice(s2);
    EndToneAdds(s3);
    var s4 := TellEndTone(s3);
    PreviewAdds(s4);
    var s5 := TellPreview(s4);
    VideoIsTold(s5);
    SameVideo(s, s5);
    SentFive(ms, s.sends, s1.channel, s2.channel, s3.channel, s4.channel, s5.channel, VideoMessages(s));
  }

  lemma QuietStart(s: State)
    requires s.running && s.gone == [] && NothingCloses(s.sends)
    ensures Quiet(s)
  {
  }

  lemma SameVideo(s: State, t: State)
    requires SameParent(s, t)
    ensures VideoMessages(s) == VideoMessages(t)
  {
  }

  predicate Joins(before: seq<Message>, after: seq<Message>, m: Message, answers: seq<Send>) {
    after == before + (if Takes(Answer(answers, 0)) && Carried(m.payload) then [m] else [])
  }

  lemma SentFive(ms: seq<Message>, answers: seq<Send>, c1: seq<Message>, c2: seq<Message>, c3: seq<Message>,
                 c4: seq<Message>, c5: seq<Message>, video: seq<Message>)
    requires |ms| >= 5 && ms[5..] == video
    requires Joins([], c1, ms[0], answers) && Joins(c1, c2, ms[1], Rest(answers))
    requires Joins(c2, c3, ms[2], Rest(Rest(answers))) && Joins(c3, c4, ms[3], Rest(Rest(Rest(answers))))
    requires Joins(c4, c5, ms[4], Rest(Rest(Rest(Rest(answers)))))
    ensures Sent([], ms, answers) == Sent(c5, video, Rest(Rest(Rest(Rest(Rest(answers))))))
  {
    hide Sent, Takes, Answer, Carried, Rest;
    assert ms == [ms[0]] + ms[1..] && ms[1..] == [ms[1]] + ms[2..] && ms[2..] == [ms[2]] + ms[3..];
    assert ms[3..] == [ms[3]] + ms[4..] && ms[4..] == [ms[4]] + ms[5..];
    SentStep([], ms[0], ms[1..], answers);
    SentStep(c1, ms[1], ms[2..], Rest(answers));
    SentStep(c2, ms[2], ms[3..], Rest(Rest(answers)));
    SentStep(c3, ms[3], ms[4..], Rest(Rest(Rest(answers))));
    SentStep(c4, ms[4], ms[5..], Rest(Rest(Rest(Rest(answers)))));
  }

  // What the parent holds fits the child's socket.
  predicate Sendable(s: State) {
    && Carried(ActivePayload(s.active)) && (s.notice.Some? ==> Carried(EncString(s.notice.value)))
    && (s.videoPath.Some? ==> Carried(EncString(s.videoPath.value)))
  }

  /** When nothing is refused the new child is told exactly what the parent holds. */
  lemma RestartTellsEverything(s: State)
    requires s.gone == [] && NothingRefused(s.sends) && Sendable(s)
    ensures StartChild(s).channel ==
            [Message(2, ActivePayload(s.active)), Message(3, [if s.beaconAllowed then 1 else 0]),
             Message(4, if s.notice.Some? then EncString(s.notice.value) else []),
             Message(13, [if s.noticeEndTone then 1 else 0]), Message(9, [if s.previewEnabled then 1 else 0])]
            + (if s.videoPath.Some? then [Message(5, EncString(s.videoPath.value))] else [])
            + (if s.videoPath.Some? && s.videoSeek.Some? then [Message(11, EncI64(s.videoSeek.value))] else [])
  {
    hide StartChild, Sent, ActivePayload, EncString, EncI64;
    RestartTellsInOrder(s);
    SendableMessages(s);
    NothingRefusedSendsAll([], ParentMessages(s), s.sends);
  }

  lemma SendableMessages(s: State)
    requires Sendable(s)
    ensures forall i | 0 <= i < |ParentMessages(s)| :: Carried(ParentMessages(s)[i].payload)
  {
    hide ActivePayload, EncString, EncI64;
    if s.videoSeek.Some? { PositionIsEight(s.videoSeek.value); }
  }

  lemma PositionIsEight(n: Int64)
    ensures |EncI64(n)| == 8
  {
  }

  // ------------------------------------------------------------- what is held

  // What a caller last asked for, whatever happened to the child meanwhile.
  datatype Orders = Orders(
    active: Option<ActiveInput>, beaconAllowed: bool, previewEnabled: bool, notice: Option<Bytes>, endTone: bool,
    path: Option<Bytes>, position: Option<Int64>)

  function Following(o: Orders, call: Call): Orders {
    match call
    case Select(input) => o.(active := input)
    case SetBeaconAllowed(allowed) => o.(beaconAllowed := allowed)
    case SetAccessNotice(text, endTone) => o.(notice := text, endTone := text.Some? && endTone)
    case SetPreviewEnabled(enabled) => o.(previewEnabled := enabled)
    case PlayFallbackVideo(path) => o.(path := Some(path), position := None)
    case StopFallbackVideo => o.(path := None, position := None)
    case SeekFallbackVideo(position) => o.(position := Some(if position < 0 then 0 else position))
    case _ => o
  }

  function Ordered(steps: seq<Step>): Orders {
    if steps == [] then Orders(None, true, false, None, false, None, None)
    else Following(Ordered(steps[..|steps| - 1]), steps[|steps| - 1].call)
  }

  predicate Holds(s: State, o: Orders) {
    && s.active == o.active && s.beaconAllowed == o.beaconAllowed && s.previewEnabled == o.previewEnabled
    && s.notice == o.notice && s.noticeEndTone == o.endTone && s.videoPath == o.path && s.videoSeek == o.position
  }

  lemma SetterIsHeld(s: State, o: Orders, call: Call)
    requires s.running && Holds(s, o)
    requires call.Select? || call.SetBeaconAllowed? || call.SetAccessNotice? || call.SetPreviewEnabled?
    ensures Holds(Perform(s, call), Following(o, call))
  {
    hide TellSelect, TellBeacon, TellNotice, TellEndTone, TellPreview, ActivePayload, NoticePayload, BoolPayload;
  }

  lemma CommandIsHeld(s: State, o: Orders, call: Call)
    requires s.running && Holds(s, o)
    requires !call.Select? && !call.SetBeaconAllowed? && !call.SetAccessNotice? && !call.SetPreviewEnabled?
    ensures Holds(Perform(s, call), Following(o, call))
  {
    hide SendMessage, StartChild, StringPayload, BoolPayload, EncI64;
  }

  lemma OrderIsHeld(s: State, o: Orders, call: Call)
    requires s.running && Holds(s, o)
    ensures Holds(Perform(s, call), Following(o, call))
  {
    hide Perform, Holds, Following;
    if call.Select? || call.SetBeaconAllowed? || call.SetAccessNotice? || call.SetPreviewEnabled? {
      SetterIsHeld(s, o, call);
    } else {
      CommandIsHeld(s, o, call);
    }
  }

  /** In every run of calls, failures, deaths and restarts the parent holds what was last
      asked of it. */
  lemma {:induction false} RunHoldsTheOrders(gone: seq<bool>, sends: seq<Send>, steps: seq<Step>)
    ensures Holds(Run(gone, sends, steps), Ordered(steps))
  {
    hide Perform, EnsureRunning, Following;
    if steps != [] {
      var n := |steps| - 1;
      RunHoldsTheOrders(gone, sends, steps[..n]);
      var before := Run(gone, sends, steps[..n]);
      OrderIsHeld(before.(gone := steps[n].gone, sends := steps[n].sends), Ordered(steps[..n]), steps[n].call);
    }
  }

  /** After any run, a child replaced while nothing is refused is told exactly the last
      orders: the video with its path, and its position if one was asked for since. */
  lemma RestartRestoresTheOrders(gone: seq<bool>, sends: seq<Send>, steps: seq<Step>, answers: seq<Send>)
    requires NothingRefused(answers) && Sendable(Run(gone, sends, steps))
    ensures var s := Run(gone, sends, steps + [Step(DrainChild(true), [], answers)]);
      var o := Ordered(steps);
      s.channel ==
        [Message(2, ActivePayload(o.active)), Message(3, [if o.beaconAllowed then 1 else 0]),
         Message(4, if o.notice.Some? then EncString(o.notice.value) else []),
         Message(13, [if o.endTone then 1 else 0]), Message(9, [if o.previewEnabled then 1 else 0])]
        + (if o.path.Some? then [Message(5, EncString(o.path.value))] else [])
        + (if o.path.Some? && o.position.Some? then [Message(11, EncI64(o.position.value))] else [])
  {
    hide StartChild, ActivePayload, EncString, EncI64, EnsureRunning, Ordered;
    var last := Step(DrainChild(true), [], answers);
    assert (steps + [last])[..|steps|] == steps;
    RunHoldsTheOrders(gone, sends, steps);
    var before := Run(gone, sends, steps);
    RestartTellsEverything(before.(gone := [], sends := answers, running := false));
  }

  // -------------------------------------------------------- deaths noticed early

  /** A child found dead by waitpid is replaced first: the new one is told what the parent
      holds and then the message itself. */
  lemma DeadChildIsReplacedFirst(s: State, kind: Uint32, payload: Bytes, essential: bool)
    requires s.running && s.gone == [true] && s.sends == [] && Sendable(s) && Carried(payload)
    ensures var (t, ok) := SendMessage(s, kind, payload, essential);
      ok && t.channel == ParentMessages(s) + [Message(kind, payload)]
  {
    hide StartChild, ParentMessages, Sent;
    var dead := s.(running := false, gone := []);
    RestartTellsInOrder(dead);
    SendableMessages(s);
    SameMessages(s, dead);
    NothingRefusedSendsAll([], ParentMessages(dead), []);
    ScriptsStayEmpty(dead);
  }

  lemma SameMessages(s: State, t: State)
    requires SameParent(s, t)
    ensures ParentMessages(s) == ParentMessages(t)
  {
  }

  lemma ScriptsStayEmpty(s: State)
    requires s.gone == [] && s.sends == []
    ensures StartChild(s).gone == [] && StartChild(s).sends == []
  {
    assert Env(StartChild(s)) == 0;
  }

  // -------------------------------------------------------------- quiet commands

  /** A video command to a living child whose socket accepts adds exactly its own message. */
  lemma QuietVideoCommandsTell(s: State, path: Bytes, position: Int64)
    requires s.running && s.gone == [] && s.sends == []
    ensures Carried(EncString(path)) ==>
              Perform(s, PlayFallbackVideo(path)).channel == s.channel + [Message(5, EncString(path))]
    ensures Perform(s, StopFallbackVideo).channel == s.channel + [Message(6, [])]
    ensures Perform(s, SeekFallbackVideo(position)).channel ==
            s.channel + [Message(11, EncI64(if position < 0 then 0 else position))]
  {
    hide SendMessage, EncString, EncI64, Carried;
    var from := if position < 0 then 0 else position;
    SendToLivingChild(s.(videoPath := Some(path), videoSeek := None), PLAY_VIDEO, EncString(path), true);
    SmallIsCarried(from);
    SendToLivingChild(s.(videoPath := None, videoSeek := None), STOP_VIDEO, [], true);
    SendToLivingChild(s.(videoSeek := Some(from)), SEEK_VIDEO, EncI64(from), true);
  }

  lemma SmallIsCarried(position: Int64)
    ensures Carried([]) && Carried([0]) && Carried([1]) && Carried(EncI64(position))
  {
    PositionIsEight(position);
  }

  /** So do the other commands. */
  lemma QuietCommandsTell(s: State, transmit: bool, chunk: Bytes)
    requires s.running && s.gone == [] && s.sends == []
    ensures Perform(s, ReconfigurePluto(transmit)).channel == s.channel + [Message(14, [if transmit then 1 else 0])]
    ensures Perform(s, SendTick).channel == s.channel + [Message(7, [])]
    ensures Carried(chunk) ==> Perform(s, SendTransport(chunk)).channel == s.channel + [Message(8, chunk)]
  {
    hide SendMessage, Carried, BoolPayload;
    SmallIsCarried(0);
    FlagBytes(transmit);
    SendToLivingChild(s, RECONFIGURE_PLUTO, BoolPayload(transmit), true);
    SendToLivingChild(s, TICK, [], false);
    SendToLivingChild(s, TRANSPORT_STREAM, chunk, false);
  }

  // ------------------------------------------------------- what the child then holds

  lemma SelectArrives(child: Child, a: Option<ActiveInput>)
    requires !child.crashed && |ActivePayload(a)| <= CHILD_BUFFER
    ensures Dispatch(child, Message(2, ActivePayload(a))) == child.(selected := NormaliseOpt(a))
  {
    hide ActivePayload, DecActive, DecString;
    ActiveDecodes(a);
    WholeOrNothing(Message(2, ActivePayload(a)));
  }

  lemma FlagsArrive(child: Child, flag: bool)
    requires !child.crashed
    ensures Dispatch(child, Message(3, [if flag then 1 else 0])) == child.(beaconAllowed := flag)
    ensures Dispatch(child, Message(9, [if flag then 1 else 0])) == child.(previewEnabled := flag)
    ensures Dispatch(child, Message(13, [if flag then 1 else 0])) ==
            child.(endTone := child.notice.Some? && flag)
  {
    var payload: Bytes := [if flag then 1 else 0];
    assert payload[..Min(|payload|, CHILD_BUFFER)] == payload;
  }

  lemma NoticeArrives(child: Child, notice: Option<Bytes>)
    requires !child.crashed && (notice.Some? ==> |EncString(notice.value)| <= CHILD_BUFFER)
    ensures Dispatch(child, Message(4, if notice.Some? then EncString(notice.value) else [])) ==
            child.(notice := notice, endTone := false)
  {
    hide DecString, EncString, DecActive;
    if notice.Some? {
      StringDecodes(notice.value);
      StringIsNotEmpty(notice.value);
      WholeOrNothing(Message(4, EncString(notice.value)));
    }
  }

  lemma PathArrives(child: Child, path: Bytes)
    requires !child.crashed && |EncString(path)| <= CHILD_BUFFER
    ensures Dispatch(child, Message(5, EncString(path))) == child.(video := Some(path), position := None)
  {
    hide DecString, EncString, DecActive;
    StringDecodes(path);
    WholeOrNothing(Message(5, EncString(path)));
  }

  lemma PositionArrives(child: Child, position: Int64)
    requires !child.crashed
    ensures Dispatch(child, Message(11, EncI64(position))) == child.(position := Some(position))
  {
    hide DecI64, EncI64, DecActive, DecString;
    Int64Decodes(position);
    PositionIsEight(position);
    WholeOrNothing(Message(11, EncI64(position)));
  }

  lemma StopArrives(child: Child)
    requires !child.crashed
    ensures Dispatch(child, Message(6, [])) == child.(video := None, position := None)
  {
  }

  /** Which messages a living child does not survive: flags and a reconfiguration without a
      byte, a position of less than eight, a text that is shorter than it says, and an input
      that cannot be read to its end. No other kind can harm it. */
  lemma MalformedCrashes(child: Child, kind: Uint32, p: Bytes)
    requires !child.crashed && |p| <= 2097152
    ensures Dispatch(child, Message(kind, p)).crashed <==>
              || (kind == 2 && DecActive(p).None?)
              || (kind in {3, 9, 13, 14} && p == [])
              || ((kind == 5 || (kind == 4 && p != [])) && (|p| < 4 || |p| - 4 < FromLittleEndian(p[..4])))
              || (kind == 11 && |p| < 8)
  {
    hide DecActive, FromLittleEndian;
    WholeOrNothing(Message(kind, p));
  }

  /** An input cut anywhere is refused: it is never taken for another. */
  lemma CutInputIsRefused(child: Child, a: Option<ActiveInput>, k: nat)
    requires !child.crashed && |ActivePayload(a)| <= 2097152 && k < |ActivePayload(a)|
    ensures Dispatch(child, Message(2, ActivePayload(a)[..k])).crashed
  {
    hide Dispatch, DecActive, ActivePayload;
    var whole := ActivePayload(a);
    var t, x := whole[..k], whole[k..];
    assert whole == t + x;
    ActiveDecodes(a);
    if DecActive(t).Some? { DecActiveExtends(t, x); }
    MalformedCrashes(child, 2, t);
  }

  // What is held also fits the child's buffer.
  predicate Receivable(o: Orders) {
    && |ActivePayload(o.active)| <= CHILD_BUFFER && (o.notice.Some? ==> |EncString(o.notice.value)| <= CHILD_BUFFER)
    && (o.path.Some? ==> |EncString(o.path.value)| <= CHILD_BUFFER)
  }

  lemma FirstFiveArrive(o: Orders)
    requires Receivable(o) && (o.endTone ==> o.notice.Some?)
    ensures Drain(NEW_CHILD,
              [Message(2, ActivePayload(o.active)), Message(3, [if o.beaconAllowed then 1 else 0]),
               Message(4, if o.notice.Some? then EncString(o.notice.value) else []),
               Message(13, [if o.endTone then 1 else 0]), Message(9, [if o.previewEnabled then 1 else 0])]) ==
            Child(NormaliseOpt(o.active), o.beaconAllowed, o.notice, o.endTone, o.previewEnabled, None, None, false)
  {
    hide ActivePayload, EncString, Drain, Dispatch;
    var m1, m2 := Message(2, ActivePayload(o.active)), Message(3, [if o.beaconAllowed then 1 else 0]);
    var m3 := Message(4, if o.notice.Some? then EncString(o.notice.value) else []);
    var m4, m5 := Message(13, [if o.endTone then 1 else 0]), Message(9, [if o.previewEnabled then 1 else 0]);
    NothingDrained(NEW_CHILD);
    DrainAppend(NEW_CHILD, [], m1);
    SelectArrives(NEW_CHILD, o.active);
    var c1 := Dispatch(NEW_CHILD, m1);
    DrainAppend(NEW_CHILD, [] + [m1], m2);
    FlagsArrive(c1, o.beaconAllowed);
    var c2 := Dispatch(c1, m2);
    DrainAppend(NEW_CHILD, [] + [m1] + [m2], m3);
    NoticeArrives(c2, o.notice);
    var c3 := Dispatch(c2, m3);
    DrainAppend(NEW_CHILD, [] + [m1] + [m2] + [m3], m4);
    FlagsArrive(c3, o.endTone);
    var c4 := Dispatch(c3, m4);
    DrainAppend(NEW_CHILD, [] + [m1] + [m2] + [m3] + [m4], m5);
    FlagsArrive(c4, o.previewEnabled);
    assert [] + [m1] + [m2] + [m3] + [m4] + [m5] == [m1, m2, m3, m4, m5];
  }

  lemma NothingDrained(child: Child)
    ensures Drain(child, []) == child
  {
  }

  lemma VideoArrives(child: Child, channel: seq<Message>, path: Option<Bytes>, position: Option<Int64>)
    requires !Drain(child, channel).crashed && (path.Some? ==> |EncString(path.value)| <= CHILD_BUFFER)
    ensures Drain(child, channel + (if path.Some? then [Message(5, EncString(path.value))] else [])
                         + (if path.Some? && position.Some? then [Message(11, EncI64(position.value))] else [])) ==
            if path.Some? then Drain(child, channel).(video := path, position := position) else Drain(child, channel)
  {
    hide EncString, EncI64, Drain, Dispatch;
    assert channel + [] + [] == channel;
    if path.Some? {
      var play := Message(5, EncString(path.value));
      DrainAppend(child, channel, play);
      PathArrives(Drain(child, channel), path.value);
      assert channel + [play] + [] == channel + [play];
      if position.Some? {
        DrainAppend(child, channel + [play], Message(11, EncI64(position.value)));
        PositionArrives(Drain(child, channel + [play]), position.value);
      }
    }
  }

  lemma {:induction false} ToneNeedsNotice(steps: seq<Step>)
    ensures Ordered(steps).endTone ==> Ordered(steps).notice.Some?
  {
    if steps != [] { ToneNeedsNotice(steps[..|steps| - 1]); }
  }

  /** After any run, a child replaced while nothing is refused holds, once it has read its
      socket, everything that was last ordered: the input, the beacon, the notice with its
      tone, the preview, and the video with its position. */
  lemma RestartedChildHoldsTheOrders(gone: seq<bool>, sends: seq<Send>, steps: seq<Step>, answers: seq<Send>)
    requires NothingRefused(answers) && Receivable(Ordered(steps))
    ensures var s := Run(gone, sends, steps + [Step(DrainChild(true), [], answers)]);
      var o := Ordered(steps);
      Drain(NEW_CHILD, s.channel) ==
        Child(NormaliseOpt(o.active), o.beaconAllowed, o.notice, o.endTone, o.previewEnabled, o.path,
              if o.path.Some? then o.position else None, false)
  {
    hide Run, ActivePayload, EncString, EncI64, Drain, Ordered, Normalise;
    var o := Ordered(steps);
    RunHoldsTheOrders(gone, sends, steps);
    RestartRestoresTheOrders(gone, sends, steps, answers);
    ToneNeedsNotice(steps);
    FirstFiveArrive(o);
    VideoArrives(NEW_CHILD,
                 [Message(2, ActivePayload(o.active)), Message(3, [if o.beaconAllowed then 1 else 0]),
                  Message(4, if o.notice.Some? then EncString(o.notice.value) else []),
                  Message(13, [if o.endTone then 1 else 0]), Message(9, [if o.previewEnabled then 1 else 0])],
                 o.path, o.position);
  }
}
