/** Every run of the parent keeps its caches true of the current child. */
module MediaAgreement {
  import opened Prelude
  import opened WireCodec
  import opened MediaProtocol

  // -------------------------------------------------------- readable messages

  lemma ShortPayloadFits(a: Option<ActiveInput>)
    requires |ActivePayload(a)| < TWO_32
    ensures Fits(a)
  {
    hide EncU32, EncU64;
    if a.Some? {
      var status := Normalise(a.value).status;
      assert |ActivePayload(a)| >= |EncTarget(a.value.target)| + |EncStatus(status)|;
      assert |EncTarget(a.value.target)| >= |EncString(a.value.target.fec)| + |EncString(a.value.target.labelText)|;
      assert |EncStatus(status)| >= |EncOptTarget(status.target)| + |EncMeasurements(status)|;
      assert |EncMeasurements(status)| >= |EncOptString(status.serviceName)| + |EncOptString(status.modulation)|;
      if status.target.Some? {
        assert |EncTarget(status.target.value)| >=
               |EncString(status.target.value.fec)| + |EncString(status.target.value.labelText)|;
      }
    }
  }

  lemma ActiveDecodes(a: Option<ActiveInput>)
    requires |ActivePayload(a)| < TWO_32
    ensures DecActive(ActivePayload(a)) == Some((NormaliseOpt(a), []))
  {
    ShortPayloadFits(a);
    ActiveRoundTrip(a, []);
    assert ActivePayload(a) + [] == ActivePayload(a);
  }

  lemma StringDecodes(s: Bytes)
    requires |StringPayload(s)| < TWO_32
    ensures DecString(StringPayload(s)) == Some((s, []))
  {
    StringRoundTrip(s, []);
    assert StringPayload(s) + [] == StringPayload(s);
  }

  lemma Int64Decodes(n: Int64)
    ensures DecI64(EncI64(n)) == Some((n, []))
  {
    I64RoundTrip(n, []);
    assert EncI64(n) + [] == EncI64(n);
  }

  // Carried messages are received whole or not at all.
  lemma WholeOrNothing(m: Message)
    requires Carried(m.payload)
    ensures Received(m) <==> |m.payload| <= CHILD_BUFFER
    ensures Received(m) ==> m.payload[..Min(|m.payload|, CHILD_BUFFER)] == m.payload
  {
  }

  // The parent sends only messages of these forms.
  predicate FromParent(kind: Uint32, payload: Bytes) {
    || kind == TICK || kind == TRANSPORT_STREAM || kind == STOP_VIDEO
    || (kind in {BEACON, PREVIEW, NOTICE_END_TONE, RECONFIGURE_PLUTO} && |payload| == 1)
    || (kind == SELECT && (|payload| < TWO_32 ==> DecActive(payload).Some?))
    || (kind == NOTICE && payload == [])
    || (kind in {NOTICE, PLAY_VIDEO} && (|payload| < TWO_32 ==> DecString(payload).Some?))
    || (kind == SEEK_VIDEO && DecI64(payload).Some?)
  }

  lemma FromParentIsReadable(m: Message)
    requires Carried(m.payload) && FromParent(m.kind, m.payload)
    ensures Readable(m)
  {
    hide DecActive, DecString, DecI64;
    WholeOrNothing(m);
  }

  lemma ParentValuesAreReadable(s: State)
    ensures FromParent(SELECT, ActivePayload(s.active))
    ensures FromParent(NOTICE, NoticePayload(s.notice))
    ensures s.videoPath.Some? ==> FromParent(PLAY_VIDEO, StringPayload(s.videoPath.value))
    ensures s.videoSeek.Some? ==> FromParent(SEEK_VIDEO, EncI64(s.videoSeek.value))
  {
    if |ActivePayload(s.active)| < TWO_32 { ActiveDecodes(s.active); }
    if s.notice.Some? && |StringPayload(s.notice.value)| < TWO_32 { StringDecodes(s.notice.value); }
    if s.videoPath.Some? && |StringPayload(s.videoPath.value)| < TWO_32 { StringDecodes(s.videoPath.value); }
    if s.videoSeek.Some? { Int64Decodes(s.videoSeek.value); }
  }

  // ---------------------------------------------- sending keeps the invariant

  lemma DeliverKeeps(s: State, kind: Uint32, payload: Bytes)
    requires Agrees(s) && FromParent(kind, payload)
    ensures var (t, ok) := Deliver(s, kind, payload);
            AgreesBut(t, kind) && (if ok then Last(t.channel, kind) == Some(payload) else Agrees(t))
  {
    hide DecActive, DecString, DecI64, Readable;
    if Carried(payload) {
      var m := Message(kind, payload);
      var channel := s.channel + [m];
      FromParentIsReadable(m);
      assert channel[..|channel| - 1] == s.channel;
      assert AllReadable(channel);
    }
  }

  // After an accepted send the channel ends the given kind's history with the
  // payload; after a refused one, with or without a restart, nothing is stale.
  lemma {:induction false} SendKeeps(s: State, kind: Uint32, payload: Bytes, essential: bool)
    requires s.running ==> Agrees(s)
    requires FromParent(kind, payload)
    ensures var (t, ok) := SendMessage(s, kind, payload, essential);
            AgreesBut(t, kind) && (if ok then Last(t.channel, kind) == Some(payload) else Agrees(t))
    decreases Env(s), if s.running then 1 else 7
  {
    hide Agrees, AgreesBut, FromParent, Last, Deliver;
    EnsureRunningKeeps(s);
    var s0 := EnsureRunning(s);
    var (outcome, s1) := TakeSend(s0);
    assert Agrees(s1) by { ScriptsDoNotMatter(s0, s1); }
    match outcome
    case Accepted => DeliverKeeps(s1, kind, payload);
    case WouldBlock(retry) =>
      if essential && retry.RetryAccepted? {
        DeliverKeeps(s1, kind, payload);
      } else if essential && retry.RetryClosed? {
        StartChildKeeps(s1.(running := false));
        AgreesWeaken(StartChild(s1.(running := false)), kind);
      } else {
        AgreesWeaken(s1, kind);
      }
    case Closed =>
      StartChildKeeps(s1.(running := false));
      AgreesWeaken(StartChild(s1.(running := false)), kind);
    case Failed => AgreesWeaken(s1, kind);
  }

  lemma ScriptsDoNotMatter(s: State, t: State)
    requires Agrees(s) && t == s.(gone := t.gone, sends := t.sends)
    ensures Agrees(t)
  {
  }

  lemma AgreesWeaken(s: State, kind: Uint32)
    requires Agrees(s)
    ensures AgreesBut(s, kind)
  {
  }

  lemma {:induction false} EnsureRunningKeeps(s: State)
    requires s.running ==> Agrees(s)
    ensures Agrees(EnsureRunning(s))
    decreases Env(s), if s.running then 0 else 6
  {
    hide Agrees;
    if !s.running {
      StartChildKeeps(s);
    } else {
      var (gone, s1) := TakeGone(s);
      if gone {
        StartChildKeeps(s1.(running := false));
      } else {
        ScriptsDoNotMatter(s, s1);
      }
    }
  }

  // A new child has been told nothing, and no cached value but the tone survives.
  lemma {:induction false} StartChildKeeps(s: State)
    ensures Agrees(StartChild(s))
    decreases Env(s), 5
  {
    var untold := s.(running := true, channel := [],
                    lastSelect := None, lastBeacon := None, lastNotice := None, lastPreview := None);
    assert Agrees(untold);
    ReplayKeeps(untold);
  }

  lemma {:induction false} ReplayKeeps(s: State)
    requires s.running && Agrees(s)
    ensures Agrees(ReplayState(s))
    decreases Env(s), 4
  {
    hide Agrees;
    TellSelectKeeps(s);
    var s1 := TellSelect(s);
    TellBeaconKeeps(s1);
    var s2 := TellBeacon(s1);
    TellNoticeKeeps(s2);
    var s3 := TellNotice(s2);
    TellEndToneKeeps(s3);
    var s4 := TellEndTone(s3);
    TellPreviewKeeps(s4);
    ReplayVideoKeeps(TellPreview(s4));
  }

  lemma {:induction false} ReplayVideoKeeps(s: State)
    requires s.running && Agrees(s)
    ensures Agrees(ReplayVideo(s))
    decreases Env(s), 3
  {
    ParentValuesAreReadable(s);
    if s.videoPath.Some? {
      SendKeeps(s, PLAY_VIDEO, StringPayload(s.videoPath.value), true);
      var s1 := SendMessage(s, PLAY_VIDEO, StringPayload(s.videoPath.value), true).0;
      OtherKind(s1, PLAY_VIDEO);
      if s.videoSeek.Some? {
        SendKeeps(s1, SEEK_VIDEO, EncI64(s.videoSeek.value), true);
        OtherKind(SendMessage(s1, SEEK_VIDEO, EncI64(s.videoSeek.value), true).0, SEEK_VIDEO);
      }
    }
  }

  // Kinds without a cache need no exception.
  lemma OtherKind(s: State, kind: Uint32)
    requires AgreesBut(s, kind) && kind !in {SELECT, BEACON, NOTICE, NOTICE_END_TONE, PREVIEW}
    ensures Agrees(s)
  {
  }

  lemma {:induction false} TellSelectKeeps(s: State)
    requires s.running && Agrees(s)
    ensures Agrees(TellSelect(s))
    decreases Env(s), 2
  {
    hide SendMessage, ActivePayload, StringPayload, FromParent, Last, AllReadable;
    ParentValuesAreReadable(s);
    SendKeeps(s, SELECT, ActivePayload(s.active), true);
  }

  lemma {:induction false} TellBeaconKeeps(s: State)
    requires s.running && Agrees(s)
    ensures Agrees(TellBeacon(s))
    decreases Env(s), 2
  {
    SendKeeps(s, BEACON, BoolPayload(s.beaconAllowed), true);
  }

  lemma {:induction false} TellNoticeKeeps(s: State)
    requires s.running && Agrees(s)
    ensures Agrees(TellNotice(s))
    decreases Env(s), 2
  {
    hide SendMessage, ActivePayload, StringPayload, FromParent, Last, AllReadable;
    ParentValuesAreReadable(s);
    SendKeeps(s, NOTICE, NoticePayload(s.notice), true);
  }

  lemma {:induction false} TellEndToneKeeps(s: State)
    requires s.running && Agrees(s)
    ensures Agrees(TellEndTone(s))
    decreases Env(s), 2
  {
    SendKeeps(s, NOTICE_END_TONE, BoolPayload(s.noticeEndTone), true);
  }

  lemma {:induction false} TellPreviewKeeps(s: State)
    requires s.running && Agrees(s)
    ensures Agrees(TellPreview(s))
    decreases Env(s), 2
  {
    SendKeeps(s, PREVIEW, BoolPayload(s.previewEnabled), true);
  }

  // ------------------------------------------------------------- whole runs

  lemma SetterKeeps(s: State, call: Call)
    requires s.running && Agrees(s)
    requires call.Select? || call.SetBeaconAllowed? || call.SetPreviewEnabled?
    ensures Agrees(Perform(s, call))
  {
    hide Agrees, TellSelect, TellBeacon, TellPreview, ActivePayload, BoolPayload;
    match call
    case Select(input) =>
      ValuesDoNotMatter(s, s.(active := input));
      TellSelectKeeps(s.(active := input));
    case SetBeaconAllowed(allowed) =>
      ValuesDoNotMatter(s, s.(beaconAllowed := allowed));
      TellBeaconKeeps(s.(beaconAllowed := allowed));
    case SetPreviewEnabled(enabled) =>
      ValuesDoNotMatter(s, s.(previewEnabled := enabled));
      TellPreviewKeeps(s.(previewEnabled := enabled));
  }

  // The invariant speaks of caches and the channel only.
  lemma ValuesDoNotMatter(s: State, t: State)
    requires Agrees(s) && t.channel == s.channel && t.lastSelect == s.lastSelect && t.lastBeacon == s.lastBeacon
    requires t.lastNotice == s.lastNotice && t.lastPreview == s.lastPreview && t.lastEndTone == s.lastEndTone
    ensures Agrees(t)
  {
    hide Last, AllReadable;
  }

  lemma NoticeCallKeeps(s: State, text: Option<Bytes>, endTone: bool)
    requires s.running && Agrees(s)
    ensures Agrees(NoticeCall(s, text, endTone))
  {
    hide Agrees, TellNotice, TellEndTone, NoticePayload, BoolPayload;
    var s1 := s.(notice := text, noticeEndTone := text.Some? && endTone);
    ValuesDoNotMatter(s, s1);
    TellNoticeKeeps(s1);
    var s2 := if s1.lastNotice == Some(NoticePayload(text)) then s1 else TellNotice(s1);
    TellEndToneKeeps(s2);
  }

  lemma VideoCommandKeeps(s: State, call: Call)
    requires s.running && Agrees(s)
    requires call.PlayFallbackVideo? || call.StopFallbackVideo? || call.SeekFallbackVideo?
    ensures Agrees(Perform(s, call))
  {
    hide Agrees, AgreesBut, SendMessage, StringPayload, EncI64, Last, DecString, DecI64, DecActive;
    match call
    case PlayFallbackVideo(path) =>
      var s1 := s.(videoPath := Some(path), videoSeek := None);
      ValuesDoNotMatter(s, s1);
      ParentValuesAreReadable(s1);
      SendOtherKeeps(s1, PLAY_VIDEO, StringPayload(path), true);
    case StopFallbackVideo =>
      ValuesDoNotMatter(s, s.(videoPath := None, videoSeek := None));
      SendOtherKeeps(s.(videoPath := None, videoSeek := None), STOP_VIDEO, [], true);
    case SeekFallbackVideo(position) =>
      var s1 := s.(videoSeek := Some(Max(0, position)));
      ValuesDoNotMatter(s, s1);
      ParentValuesAreReadable(s1);
      SendOtherKeeps(s1, SEEK_VIDEO, EncI64(Max(0, position)), true);
  }

  lemma SendOtherKeeps(s: State, kind: Uint32, payload: Bytes, essential: bool)
    requires s.running && Agrees(s) && FromParent(kind, payload)
    requires kind !in {SELECT, BEACON, NOTICE, NOTICE_END_TONE, PREVIEW}
    ensures Agrees(SendMessage(s, kind, payload, essential).0)
  {
    hide Agrees, AgreesBut, SendMessage, FromParent, Last;
    SendKeeps(s, kind, payload, essential);
    OtherKind(SendMessage(s, kind, payload, essential).0, kind);
  }

  lemma CommandKeeps(s: State, call: Call)
    requires s.running && Agrees(s)
    requires call.ReconfigurePluto? || call.SendTick? || call.SendTransport?
    ensures Agrees(Perform(s, call))
  {
    hide Agrees, AgreesBut, SendMessage, Last, DecString, DecI64, DecActive;
    match call
    case ReconfigurePluto(transmit) => SendOtherKeeps(s, RECONFIGURE_PLUTO, BoolPayload(transmit), true);
    case SendTick => SendOtherKeeps(s, TICK, [], false);
    case SendTransport(chunk) => SendOtherKeeps(s, TRANSPORT_STREAM, chunk, false);
  }

  lemma DrainCallKeeps(s: State, closed: bool)
    requires s.running && Agrees(s)
    ensures Agrees(Perform(s, DrainChild(closed)))
  {
    hide Agrees, StartChild;
    StartChildKeeps(s.(running := false));
  }

  lemma PerformKeeps(s: State, call: Call)
    requires s.running && Agrees(s)
    ensures Agrees(Perform(s, call))
  {
    hide Agrees, SelectCall, BeaconCall, PreviewCall, NoticeCall, SendMessage, StartChild;
    match call
    case SetAccessNotice(text, endTone) => NoticeCallKeeps(s, text, endTone);
    case DrainChild(closed) => DrainCallKeeps(s, closed);
    case _ =>
      if call.Select? || call.SetBeaconAllowed? || call.SetPreviewEnabled? {
        SetterKeeps(s, call);
      } else if call.PlayFallbackVideo? || call.StopFallbackVideo? || call.SeekFallbackVideo? {
        VideoCommandKeeps(s, call);
      } else {
        CommandKeeps(s, call);
      }
  }

  // In every run, whatever dies or fails, each cached payload is the last message
  // of its kind that the current child's socket accepted.
  lemma {:induction false} AgreementAlways(gone: seq<bool>, sends: seq<Send>, steps: seq<Step>)
    ensures Agrees(Run(gone, sends, steps))
    decreases |steps|
  {
    if steps == [] {
      EnsureRunningKeeps(NEW_PROCESS.(gone := gone, sends := sends));
    } else {
      AgreementAlways(gone, sends, steps[..|steps| - 1]);
      var before := Run(gone, sends, steps[..|steps| - 1]);
      var step := steps[|steps| - 1];
      ScriptsDoNotMatter(before, before.(gone := step.gone, sends := step.sends));
      PerformKeeps(before.(gone := step.gone, sends := step.sends), step.call);
    }
  }

  // A setter that sends nothing does so only when the current child has already
  // accepted that very payload, and nothing of that kind since.
  lemma SkippedSettersWereTold(gone: seq<bool>, sends: seq<Send>, steps: seq<Step>, input: Option<ActiveInput>,
                               flag: bool, text: Option<Bytes>)
    ensures var s := Run(gone, sends, steps);
      && (s.lastSelect == Some(ActivePayload(input)) ==>
           SelectCall(s, input) == s.(active := input) && Last(s.channel, SELECT) == Some(ActivePayload(input)))
      && (s.lastBeacon == Some(BoolPayload(flag)) ==>
           BeaconCall(s, flag) == s.(beaconAllowed := flag) && Last(s.channel, BEACON) == Some(BoolPayload(flag)))
      && (s.lastPreview == Some(BoolPayload(flag)) ==>
           PreviewCall(s, flag) == s.(previewEnabled := flag) && Last(s.channel, PREVIEW) == Some(BoolPayload(flag)))
      && (s.lastNotice == Some(NoticePayload(text)) ==> Last(s.channel, NOTICE) == Some(NoticePayload(text)))
  {
    AgreementAlways(gone, sends, steps);
  }

  // One send to a living child.
  lemma SendToLivingChild(s: State, kind: Uint32, payload: Bytes, essential: bool)
    requires s.running && s.gone == []
    ensures (s.sends == [] || s.sends[0].Accepted?) && Carried(payload) ==>
              SendMessage(s, kind, payload, essential) ==
                (s.(sends := if s.sends == [] then [] else s.sends[1..],
                 channel := s.channel + [Message(kind, payload)]), true)
    ensures s.sends != [] && s.sends[0] == WouldBlock(RetryFailed) ==>
              SendMessage(s, kind, payload, essential) == (s.(sends := s.sends[1..]), false)
    ensures s.sends == [] && !Carried(payload) ==> SendMessage(s, kind, payload, essential) == (s, false)
  {
    assert EnsureRunning(s) == s;
  }

  lemma QuietSelectTells(s: State, input: Option<ActiveInput>)
    requires s.running && Agrees(s) && s.gone == [] && s.sends == [] && Carried(ActivePayload(input))
    ensures var t := Perform(s, Select(input)); var p := Some(ActivePayload(input));
      t.lastSelect == p && Last(t.channel, SELECT) == p
  {
    hide SendMessage, ActivePayload, Agrees, Last;
    SendToLivingChild(s.(active := input), SELECT, ActivePayload(input), true);
    PerformKeeps(s, Select(input));
    CachedIsTold(Perform(s, Select(input)));
  }

  lemma QuietBeaconTells(s: State, flag: bool)
    requires s.running && Agrees(s) && s.gone == [] && s.sends == []
    ensures var t := Perform(s, SetBeaconAllowed(flag)); var p := Some(BoolPayload(flag));
      t.lastBeacon == p && Last(t.channel, BEACON) == p
  {
    hide SendMessage, Agrees, Last;
    SendToLivingChild(s.(beaconAllowed := flag), BEACON, BoolPayload(flag), true);
    PerformKeeps(s, SetBeaconAllowed(flag));
    CachedIsTold(Perform(s, SetBeaconAllowed(flag)));
  }

  lemma QuietPreviewTells(s: State, flag: bool)
    requires s.running && Agrees(s) && s.gone == [] && s.sends == []
    ensures var t := Perform(s, SetPreviewEnabled(flag)); var p := Some(BoolPayload(flag));
      t.lastPreview == p && Last(t.channel, PREVIEW) == p
  {
    hide SendMessage, Agrees, Last;
    SendToLivingChild(s.(previewEnabled := flag), PREVIEW, BoolPayload(flag), true);
    PerformKeeps(s, SetPreviewEnabled(flag));
    CachedIsTold(Perform(s, SetPreviewEnabled(flag)));
  }

  // A call during which the child lives and the socket accepts leaves its value told:
  // remembered by the parent, and the last of its kind in the child's channel.
  lemma QuietSettersTell(s: State, input: Option<ActiveInput>, flag: bool)
    requires s.running && Agrees(s) && s.gone == [] && s.sends == []
    ensures var t := Perform(s, Select(input)); var p := Some(ActivePayload(input));
      Carried(ActivePayload(input)) ==> t.lastSelect == p && Last(t.channel, SELECT) == p
    ensures var t := Perform(s, SetBeaconAllowed(flag)); var p := Some(BoolPayload(flag));
      t.lastBeacon == p && Last(t.channel, BEACON) == p
    ensures var t := Perform(s, SetPreviewEnabled(flag)); var p := Some(BoolPayload(flag));
      t.lastPreview == p && Last(t.channel, PREVIEW) == p
  {
    hide Perform, ActivePayload, BoolPayload, Agrees, Last;
    if Carried(ActivePayload(input)) { QuietSelectTells(s, input); }
    QuietBeaconTells(s, flag);
    QuietPreviewTells(s, flag);
  }

  lemma CachedIsTold(s: State)
    requires Agrees(s)
    ensures Told(s.lastSelect, s.channel, SELECT) && Told(s.lastBeacon, s.channel, BEACON)
    ensures Told(s.lastNotice, s.channel, NOTICE) && Told(s.lastPreview, s.channel, PREVIEW)
    ensures ToneTracked(s)
  {
  }

  lemma QuietNoticeTells(s: State, text: Option<Bytes>, endTone: bool)
    requires s.running && Agrees(s) && s.gone == [] && s.sends == [] && Carried(NoticePayload(text))
    ensures var t := Perform(s, SetAccessNotice(text, endTone)); var p := Some(NoticePayload(text));
      && t.lastNotice == p && Last(t.channel, NOTICE) == p
      && t.lastEndTone == Some(BoolPayload(text.Some? && endTone))
  {
    hide SendMessage, NoticePayload, Agrees, Last;
    var s1 := s.(notice := text, noticeEndTone := text.Some? && endTone);
    SendToLivingChild(s1, NOTICE, NoticePayload(text), true);
    var s2 := if s1.lastNotice == Some(NoticePayload(text)) then s1 else TellNotice(s1);
    SendToLivingChild(s2, NOTICE_END_TONE, BoolPayload(s2.noticeEndTone), true);
    PerformKeeps(s, SetAccessNotice(text, endTone));
    CachedIsTold(Perform(s, SetAccessNotice(text, endTone)));
  }

  // ------------------------------------------------------ the drained child

  lemma {:induction false} DrainNeverCrashes(child: Child, channel: seq<Message>)
    requires !child.crashed && AllReadable(channel)
    ensures !Drain(child, channel).crashed
  {
    hide Dispatch;
    if channel != [] {
      var before := channel[..|channel| - 1];
      DrainNeverCrashes(child, before);
      assert Readable(channel[|channel| - 1]);
    }
  }

  // Once a message of one kind is read, only a later one of that kind replaces it.
  lemma {:induction false} DrainedInputAndNotice(child: Child, channel: seq<Message>)
    requires !child.crashed && AllReadable(channel)
    ensures var d := Drain(child, channel);
      && (var p := Last(channel, SELECT); p.Some? && |p.value| <= CHILD_BUFFER ==>
           DecActive(p.value).Some? && d.selected == DecActive(p.value).value.0)
      && (var p := Last(channel, NOTICE); p.Some? && |p.value| <= CHILD_BUFFER ==>
           if p.value == [] then d.notice.None?
           else DecString(p.value).Some? && d.notice == Some(DecString(p.value).value.0))
  {
    hide DecActive, DecBool, DecString, DecI64;
    if channel != [] {
      var before := channel[..|channel| - 1];
      var m := channel[|channel| - 1];
      assert AllReadable(before);
      DrainedInputAndNotice(child, before);
      DrainNeverCrashes(child, before);
      assert Readable(m);
      assert !Dispatch(Drain(child, before), m).crashed;
      if |m.payload| <= CHILD_BUFFER {
        assert Received(m) && m.payload[..Min(|m.payload|, CHILD_BUFFER)] == m.payload;
      }
    }
  }

  lemma {:induction false} DrainedFlags(child: Child, channel: seq<Message>)
    requires !child.crashed && AllReadable(channel)
    ensures var d := Drain(child, channel);
      && (var p := Last(channel, BEACON); p.Some? && |p.value| <= CHILD_BUFFER ==>
           DecBool(p.value).Some? && d.beaconAllowed == DecBool(p.value).value.0)
      && (var p := Last(channel, PREVIEW); p.Some? && |p.value| <= CHILD_BUFFER ==>
           DecBool(p.value).Some? && d.previewEnabled == DecBool(p.value).value.0)
  {
    hide DecActive, DecBool, DecString, DecI64;
    if channel != [] {
      var before := channel[..|channel| - 1];
      var m := channel[|channel| - 1];
      assert AllReadable(before);
      DrainedFlags(child, before);
      DrainNeverCrashes(child, before);
      assert Readable(m);
      assert !Dispatch(Drain(child, before), m).crashed;
      if |m.payload| <= CHILD_BUFFER {
        assert Received(m) && m.payload[..Min(|m.payload|, CHILD_BUFFER)] == m.payload;
      }
    }
  }

  // A child that has read its socket holds every value whose latest send was
  // accepted and fits the child's buffer, and it has not crashed.
  lemma DrainedChildHoldsParentValues(gone: seq<bool>, sends: seq<Send>, steps: seq<Step>, child: Child)
    requires !child.crashed
    ensures var s := Run(gone, sends, steps); var d := Drain(child, s.channel);
      && !d.crashed
      && (s.lastSelect == Some(ActivePayload(s.active)) && |ActivePayload(s.active)| <= CHILD_BUFFER ==>
           d.selected == NormaliseOpt(s.active))
      && (s.lastBeacon == Some(BoolPayload(s.beaconAllowed)) ==> d.beaconAllowed == s.beaconAllowed)
      && (s.lastPreview == Some(BoolPayload(s.previewEnabled)) ==> d.previewEnabled == s.previewEnabled)
      && (s.lastNotice == Some(NoticePayload(s.notice)) && |NoticePayload(s.notice)| <= CHILD_BUFFER ==>
           d.notice == s.notice)
  {
    hide EncU32, EncTarget, EncStatus, DecActive, DecString, Drain, Last;
    var s := Run(gone, sends, steps);
    AgreementAlways(gone, sends, steps);
    DrainNeverCrashes(child, s.channel);
    DrainedInputAndNotice(child, s.channel);
    DrainedFlags(child, s.channel);
    if |ActivePayload(s.active)| <= CHILD_BUFFER { ActiveDecodes(s.active); }
    if s.notice.Some? && |StringPayload(s.notice.value)| <= CHILD_BUFFER {
      StringIsNotEmpty(s.notice.value);
      StringDecodes(s.notice.value);
    }
  }

  // ------------------------------------------------------------ the end tone

  // The tone's cache is right exactly when the current child has accepted a tone.
  lemma EndToneCacheExact(gone: seq<bool>, sends: seq<Send>, steps: seq<Step>)
    ensures var s := Run(gone, sends, steps);
      Told(s.lastEndTone, s.channel, NOTICE_END_TONE) <==>
        s.lastEndTone.None? || Last(s.channel, NOTICE_END_TONE).Some?
  {
    AgreementAlways(gone, sends, steps);
  }

  // No answer of the script closes the child's socket.
  predicate NothingCloses(sends: seq<Send>) {
    forall i | 0 <= i < |sends| :: !sends[i].Closed? && sends[i] != WouldBlock(RetryClosed)
  }

  predicate Quiet(s: State) {
    s.running && s.gone == [] && NothingCloses(s.sends)
  }

  function Answer(sends: seq<Send>, i: nat): Send {
    if i < |sends| then sends[i] else Accepted
  }

  predicate Takes(answer: Send) {
    answer == Accepted || answer == WouldBlock(RetryAccepted)
  }

  // An essential send to a living child uses up one answer.
  lemma QuietSend(s: State, kind: Uint32, payload: Bytes)
    requires Quiet(s)
    ensures var (t, ok) := SendMessage(s, kind, payload, true);
      && Quiet(t) && ok == (Takes(Answer(s.sends, 0)) && Carried(payload))
      && t == s.(sends := t.sends, channel := if ok then s.channel + [Message(kind, payload)] else s.channel)
      && forall i: nat :: Answer(t.sends, i) == Answer(s.sends, i + 1)
  {
    hide EnsureRunning, StartChild;
    LivingChildRuns(s);
  }

  lemma LivingChildRuns(s: State)
    requires s.running && s.gone == []
    ensures EnsureRunning(s) == s
  {
  }

  lemma QuietTells(s: State)
    requires Quiet(s)
    ensures var t := TellNotice(TellBeacon(TellSelect(s)));
      && Quiet(t) && t.lastEndTone == s.lastEndTone && SameParent(s, t)
      && Last(t.channel, NOTICE_END_TONE) == Last(s.channel, NOTICE_END_TONE)
      && Answer(t.sends, 0) == Answer(s.sends, 3)
  {
    hide SendMessage, Quiet, Answer, ActivePayload, StringPayload, Last;
    QuietSend(s, SELECT, ActivePayload(s.active));
    LastOfOthers(s.channel, Message(SELECT, ActivePayload(s.active)), NOTICE_END_TONE);
    var s1 := TellSelect(s);
    QuietIgnoresCaches(SendMessage(s, SELECT, ActivePayload(s.active), true).0, s1);
    QuietSend(s1, BEACON, BoolPayload(s.beaconAllowed));
    LastOfOthers(s1.channel, Message(BEACON, BoolPayload(s.beaconAllowed)), NOTICE_END_TONE);
    var s2 := TellBeacon(s1);
    QuietIgnoresCaches(SendMessage(s1, BEACON, BoolPayload(s.beaconAllowed), true).0, s2);
    QuietSend(s2, NOTICE, NoticePayload(s.notice));
    LastOfOthers(s2.channel, Message(NOTICE, NoticePayload(s.notice)), NOTICE_END_TONE);
    QuietIgnoresCaches(SendMessage(s2, NOTICE, NoticePayload(s.notice), true).0, TellNotice(s2));
    assert Answer(TellNotice(s2).sends, 0) == Answer(s2.sends, 1) == Answer(s1.sends, 2) == Answer(s.sends, 3);
  }

  lemma QuietIgnoresCaches(s: State, t: State)
    requires Quiet(s) && t.running && t.gone == s.gone && t.sends == s.sends
    ensures Quiet(t)
  {
  }

  lemma LastOfOthers(channel: seq<Message>, m: Message, kind: Uint32)
    requires m.kind != kind
    ensures Last(channel + [m], kind) == Last(channel, kind)
  {
    assert (channel + [m])[..|channel|] == channel;
  }

  lemma QuietEndTone(s: State)
    requires Quiet(s)
    ensures var t := TellEndTone(s);
      && Quiet(t) && SameParent(s, t)
      && (if Takes(Answer(s.sends, 0))
          then Last(t.channel, NOTICE_END_TONE) == t.lastEndTone == Some(BoolPayload(s.noticeEndTone))
          else t.lastEndTone == s.lastEndTone
               && Last(t.channel, NOTICE_END_TONE) == Last(s.channel, NOTICE_END_TONE))
  {
    hide SendMessage, Answer, Takes, Quiet;
    QuietSend(s, NOTICE_END_TONE, BoolPayload(s.noticeEndTone));
    QuietIgnoresCaches(SendMessage(s, NOTICE_END_TONE, BoolPayload(s.noticeEndTone), true).0, TellEndTone(s));
    assert (s.channel + [Message(NOTICE_END_TONE, BoolPayload(s.noticeEndTone))])[..|s.channel|] == s.channel;
  }

  lemma QuietRest(s: State)
    requires Quiet(s)
    ensures var t := ReplayVideo(TellPreview(s));
      t.lastEndTone == s.lastEndTone && Last(t.channel, NOTICE_END_TONE) == Last(s.channel, NOTICE_END_TONE)
  {
    hide SendMessage, Quiet, StringPayload, EncI64, Last;
    QuietSend(s, PREVIEW, BoolPayload(s.previewEnabled));
    LastOfOthers(s.channel, Message(PREVIEW, BoolPayload(s.previewEnabled)), NOTICE_END_TONE);
    var s1 := TellPreview(s);
    QuietIgnoresCaches(SendMessage(s, PREVIEW, BoolPayload(s.previewEnabled), true).0, s1);
    if s.videoPath.Some? {
      QuietSend(s1, PLAY_VIDEO, StringPayload(s.videoPath.value));
      LastOfOthers(s1.channel, Message(PLAY_VIDEO, StringPayload(s.videoPath.value)), NOTICE_END_TONE);
      var s2 := SendMessage(s1, PLAY_VIDEO, StringPayload(s.videoPath.value), true).0;
      if s.videoSeek.Some? {
        QuietSend(s2, SEEK_VIDEO, EncI64(s.videoSeek.value));
        LastOfOthers(s2.channel, Message(SEEK_VIDEO, EncI64(s.videoSeek.value)), NOTICE_END_TONE);
      }
    }
  }

  /** After a restart during which the new child lives, the end tone's cache is right
      exactly when it was empty or the replayed tone's send, the fourth, was accepted:
      both are known to the parent. */
  lemma RestartedTone(s: State)
    requires s.gone == [] && NothingCloses(s.sends)
    ensures var t := StartChild(s);
      Told(t.lastEndTone, t.channel, NOTICE_END_TONE) <==> s.lastEndTone.None? || Takes(Answer(s.sends, 3))
  {
    hide SendMessage, TellSelect, TellBeacon, TellNotice, TellEndTone, TellPreview, ReplayVideo, Answer, Takes;
    var s0 := s.(running := true, channel := [],
                 lastSelect := None, lastBeacon := None, lastNotice := None, lastPreview := None);
    QuietTells(s0);
    QuietEndTone(TellNotice(TellBeacon(TellSelect(s0))));
    QuietRest(TellEndTone(TellNotice(TellBeacon(TellSelect(s0)))));
  }

  // It can be wrong: the child is replaced while a tone is set, and the replayed
  // tone meets a full socket. Repeating the notice then sends nothing.
  lemma EndToneCacheCanBeWrong(s: State)
    requires s.running && s.notice == Some([65]) && s.noticeEndTone && s.lastEndTone == Some(BoolPayload(true))
    requires s.active.None? && s.videoPath.None? && s.gone == []
    requires s.sends == [Accepted, Accepted, Accepted, WouldBlock(RetryFailed)]
    ensures var t := Perform(s, DrainChild(true));
      && t.lastEndTone == Some(BoolPayload(true)) && Last(t.channel, NOTICE_END_TONE).None?
      && Perform(t, SetAccessNotice(Some([65]), true)) == t
  {
    hide SendMessage, EncString, Last, TellSelect, TellBeacon, TellNotice;
    var s0 := s.(channel := [], lastSelect := None, lastBeacon := None, lastNotice := None, lastPreview := None);
    ThreeAreAccepted(s0);
    var s3 := TellNotice(TellBeacon(TellSelect(s0)));
    SendToLivingChild(s3, NOTICE_END_TONE, BoolPayload(true), true);
    var s4 := TellEndTone(s3);
    SendToLivingChild(s4, PREVIEW, BoolPayload(s.previewEnabled), true);
    var t := TellPreview(s4);
    assert ReplayState(s0) == ReplayVideo(t) == t;
    assert StartChild(s.(running := false)) == ReplayState(s0);
    LastOfAbsentKind(t.channel, NOTICE_END_TONE);
  }

  lemma SmallPayloads(flag: bool)
    ensures Carried(ActivePayload(None)) && Carried(BoolPayload(flag)) && Carried(StringPayload([65]))
  {
    StringIsNotEmpty([65]);
  }

  lemma ThreeAreAccepted(s: State)
    requires s.running && s.notice == Some([65]) && s.active.None? && s.gone == []
    requires s.sends == [Accepted, Accepted, Accepted, WouldBlock(RetryFailed)]
    ensures var select, beacon, notice := ActivePayload(None), BoolPayload(s.beaconAllowed), StringPayload([65]);
      TellNotice(TellBeacon(TellSelect(s))) ==
      s.(sends := [WouldBlock(RetryFailed)],
         lastSelect := Some(select), lastBeacon := Some(beacon), lastNotice := Some(notice),
         channel := s.channel + [Message(SELECT, select)] + [Message(BEACON, beacon)] + [Message(NOTICE, notice)])
  {
    hide SendMessage, StringPayload, ActivePayload, BoolPayload, Carried;
    SmallPayloads(s.beaconAllowed);
    SendToLivingChild(s, SELECT, ActivePayload(None), true);
    var s1 := TellSelect(s);
    SendToLivingChild(s1, BEACON, BoolPayload(s.beaconAllowed), true);
    var s2 := TellBeacon(s1);
    SendToLivingChild(s2, NOTICE, StringPayload([65]), true);
  }

  lemma EndToneCacheIsWrongInARun()
    ensures var s := Run([], [], [Step(SetAccessNotice(Some([65]), true), [], []),
                                  Step(DrainChild(true), [], [Accepted, Accepted, Accepted, WouldBlock(RetryFailed)])]);
      !Told(s.lastEndTone, s.channel, NOTICE_END_TONE)
  {
    hide SendMessage, EncString, Last, EnsureRunning, StartChild;
    var first := Step(SetAccessNotice(Some([65]), true), [], []);
    var second := Step(DrainChild(true), [], [Accepted, Accepted, Accepted, WouldBlock(RetryFailed)]);
    var s0 := Run([], [], []);
    assert [first][..0] == [] && [first, second][..1] == [first];
    var s1 := Run([], [], [first]);
    assert s1 == Perform(s0.(gone := [], sends := []), first.call);
    StringIsNotEmpty([65]);
    AgreementAlways([], [], []);
    ScriptsDoNotMatter(s0, s0.(gone := [], sends := []));
    QuietNoticeTells(s0.(gone := [], sends := []), Some([65]), true);
    EndToneCacheCanBeWrong(s1.(gone := second.gone, sends := second.sends));
  }

  lemma {:induction false} LastOfAbsentKind(channel: seq<Message>, kind: Uint32)
    requires forall i | 0 <= i < |channel| :: channel[i].kind != kind
    ensures Last(channel, kind).None?
  {
    if channel != [] {
      LastOfAbsentKind(channel[..|channel| - 1], kind);
    }
  }

  // A quiet call with a new notice: the notice if the socket carries it, then the tone
  // if it differs from the cached one.
  lemma NoticeMessages(s: State, text: Bytes, endTone: bool)
    requires s.running && s.gone == [] && s.sends == []
    requires s.lastNotice != Some(StringPayload(text))
    ensures var t, p, q := Perform(s, SetAccessNotice(Some(text), endTone)), StringPayload(text), BoolPayload(endTone);
      && t.noticeEndTone == endTone
      && t.lastNotice == (if Carried(p) then Some(p) else s.lastNotice)
      && t.channel == s.channel + (if Carried(p) then [Message(NOTICE, p)] else [])
                      + (if s.lastEndTone != Some(q) then [Message(NOTICE_END_TONE, q)] else [])
  {
    hide StringPayload, SendMessage;
    var s0 := s.(notice := Some(text), noticeEndTone := endTone);
    SendToLivingChild(s0, NOTICE, StringPayload(text), true);
    var s1 := TellNotice(s0);
    SendToLivingChild(s1, NOTICE_END_TONE, BoolPayload(endTone), true);
  }

  lemma DrainAppend(child: Child, channel: seq<Message>, m: Message)
    ensures Drain(child, channel + [m]) == Dispatch(Drain(child, channel), m)
  {
    hide Dispatch;
    assert (channel + [m])[..|channel|] == channel;
  }

  lemma ShortNoticeArrives(child: Child, text: Bytes)
    requires !child.crashed && |StringPayload(text)| <= CHILD_BUFFER
    ensures var c := Dispatch(child, Message(NOTICE, StringPayload(text)));
      !c.crashed && c.notice == Some(text) && !c.endTone
  {
    hide DecString, EncString;
    StringDecodes(text);
    StringIsNotEmpty(text);
    var m := Message(NOTICE, StringPayload(text));
    assert m.payload[..Min(|m.payload|, CHILD_BUFFER)] == m.payload;
  }

  lemma ToneArrives(child: Child, tone: bool)
    requires !child.crashed
    ensures var c := Dispatch(child, Message(NOTICE_END_TONE, BoolPayload(tone)));
      c == child.(endTone := child.notice.Some? && tone)
  {
    var m := Message(NOTICE_END_TONE, BoolPayload(tone));
    assert m.payload[..Min(|m.payload|, CHILD_BUFFER)] == m.payload;
  }

  // A new notice clears the child's tone, and a tone equal to the cached one is
  // not sent again: after a quiet call with a new text, child and parent agree
  // on the tone exactly when no tone is asked for or the cached one is not set.
  lemma NewNoticeTone(s: State, text: Bytes, endTone: bool, child: Child)
    requires s.running && Agrees(s) && s.gone == [] && s.sends == [] && !child.crashed
    requires s.lastNotice != Some(NoticePayload(Some(text))) && |StringPayload(text)| <= 2097152
    ensures var t := Perform(s, SetAccessNotice(Some(text), endTone));
      Drain(child, t.channel).endTone == t.noticeEndTone <==>
        (endTone ==> s.lastEndTone != Some(BoolPayload(true)))
  {
    hide StringPayload, Perform, Drain, Dispatch;
    NoticeMessages(s, text, endTone);
    DrainNeverCrashes(child, s.channel);
    var m, tone := Message(NOTICE, StringPayload(text)), Message(NOTICE_END_TONE, BoolPayload(endTone));
    var d := Drain(child, s.channel);
    DrainAppend(child, s.channel, m);
    ShortNoticeArrives(d, text);
    DrainAppend(child, s.channel + [m], tone);
    ToneArrives(Dispatch(d, m), endTone);
    assert s.channel + [m] + [] == s.channel + [m];
  }

  // What the child ignores or the socket refuses.
  lemma LongNoticeIsIgnored(child: Child, text: Bytes)
    requires Carried(StringPayload(text)) && |StringPayload(text)| > CHILD_BUFFER
    ensures Dispatch(child, Message(NOTICE, StringPayload(text))) == child
  {
  }

  /** A notice longer than the child's buffer never arrives: after a quiet call with one
      the child still has its old notice, although the parent takes a carried one for
      told; and child and parent agree on the tone exactly when the child had that tone,
      or the tone was sent and the child has a notice for it or none is asked for. */
  lemma LongNoticeNeverArrives(s: State, text: Bytes, endTone: bool, child: Child)
    requires s.running && Agrees(s) && s.gone == [] && s.sends == [] && !child.crashed
    requires s.lastNotice != Some(NoticePayload(Some(text))) && |StringPayload(text)| > 2097152
    ensures var t, d := Perform(s, SetAccessNotice(Some(text), endTone)), Drain(child, s.channel);
      var e := Drain(child, t.channel);
      && e.notice == d.notice
      && (t.lastNotice == Some(NoticePayload(Some(text))) <==> Carried(StringPayload(text)))
      && (e.endTone == t.noticeEndTone <==>
           if s.lastEndTone == Some(BoolPayload(endTone)) then d.endTone == endTone else endTone ==> d.notice.Some?)
  {
    hide StringPayload, Perform, Drain, Dispatch;
    NoticeMessages(s, text, endTone);
    DrainNeverCrashes(child, s.channel);
    var m, tone := Message(NOTICE, StringPayload(text)), Message(NOTICE_END_TONE, BoolPayload(endTone));
    var d := Drain(child, s.channel);
    DrainAppend(child, s.channel, tone);
    ToneArrives(d, endTone);
    assert s.channel + [] == s.channel && s.channel + [m] + [] == s.channel + [m];
    if Carried(StringPayload(text)) {
      DrainAppend(child, s.channel, m);
      LongNoticeIsIgnored(d, text);
      DrainAppend(child, s.channel + [m], tone);
    }
  }

  lemma StringIsNotEmpty(text: Bytes)
    ensures |EncString(text)| == 4 + |text|
  {
  }
}
