/** The supervisor object itself. Its fields are those of the class; gone and
    sends are the operating system's answers still to come, channel is what the
    current child's socket has accepted. Every method does what MediaProtocol says, and
    every public one keeps the cached payloads true of what the child was told. */
module MediaProcessObject {
  import opened Prelude
  import opened WireCodec
  import MA = MediaAgreement
  import MP = MediaProtocol

  class MediaProcess {
    var active: Option<ActiveInput>
    var beaconAllowed: bool
    var previewEnabled: bool
    var accessNotice: Option<Bytes>
    var accessNoticeEndTone: bool
    var fallbackVideoPath: Option<Bytes>
    var fallbackVideoSeek: Option<Int64>
    var childRunning: bool
    var lastSelectPayload: Option<Bytes>
    var lastBeaconPayload: Option<Bytes>
    var lastNoticePayload: Option<Bytes>
    var lastNoticeEndTonePayload: Option<Bytes>
    var lastPreviewPayload: Option<Bytes>
    var gone: seq<bool>
    var sends: seq<MP.Send>
    var channel: seq<MP.Message>

    function State(): MP.State
      reads this
    {
      MP.State(active, beaconAllowed, previewEnabled, accessNotice, accessNoticeEndTone,
               fallbackVideoPath, fallbackVideoSeek, childRunning,
               lastSelectPayload, lastBeaconPayload, lastNoticePayload, lastNoticeEndTonePayload, lastPreviewPayload,
               gone, sends, channel)
    }

    // Between calls a child runs, and each cached payload but the end tone's is the last
    // of its kind that the child's socket accepted.
    ghost predicate Valid()
      reads this
    {
      childRunning && MP.Agrees(State())
    }

    constructor (gone: seq<bool>, sends: seq<MP.Send>)
      ensures Valid() && State() == MP.Run(gone, sends, [])
    {
      hide MP.Agrees;
      MA.AgreementAlways(gone, sends, []);
      active, beaconAllowed, previewEnabled := None, true, false;
      accessNotice, accessNoticeEndTone := None, false;
      fallbackVideoPath, fallbackVideoSeek := None, None;
      childRunning := false;
      lastSelectPayload, lastBeaconPayload, lastNoticePayload := None, None, None;
      lastNoticeEndTonePayload, lastPreviewPayload := None, None;
      this.gone, this.sends, channel := gone, sends, [];
      new;
      EnsureRunning();
    }

    // waitpid: has the child gone?
    method WaitChild() returns (r: bool)
      modifies this
      ensures (r, State()) == MP.TakeGone(old(State()))
    {
      r := false;
      if gone != [] {
        r := gone[0];
        gone := gone[1..];
      }
    }

    // send on the child's socket, recording an accepted message.
    method Transmit() returns (r: MP.Send)
      modifies this
      ensures (r, State()) == MP.TakeSend(old(State()))
    {
      r := MP.Accepted;
      if sends != [] {
        r := sends[0];
        sends := sends[1..];
      }
    }

    method Deliver(kind: Uint32, payload: Bytes) returns (ok: bool)
      modifies this
      ensures (State(), ok) == MP.Deliver(old(State()), kind, payload)
    {
      ok := MP.Carried(payload);
      if ok {
        channel := channel + [MP.Message(kind, payload)];
      }
    }

    method EnsureRunning()
      modifies this
      ensures State() == MP.EnsureRunning(old(State()))
      decreases MP.Env(State()), if childRunning then 0 else 6
    {
      if childRunning {
        var childGone := WaitChild();
        if !childGone {
          return;
        }
        childRunning := false;
      }
      StartChild();
    }

    method SendMessage(kind: Uint32, payload: Bytes, essential: bool) returns (ok: bool)
      modifies this
      ensures (State(), ok) == MP.SendMessage(old(State()), kind, payload, essential)
      decreases MP.Env(State()), if childRunning then 1 else 7
    {
      hide MP.EnsureRunning, MP.StartChild, MP.TakeSend, MP.Deliver;
      EnsureRunning();
      var status := Transmit();
      if status.Accepted? {
        ok := Deliver(kind, payload);
        return;
      }
      if status.WouldBlock? && !essential {
        return false;
      }
      if status.WouldBlock? && status.retry.RetryAccepted? {
        ok := Deliver(kind, payload);
        return;
      }
      if status.Closed? || (status.WouldBlock? && status.retry.RetryClosed?) {
        childRunning := false;
        StartChild();
      }
      ok := false;
    }

    method StartChild()
      modifies this
      ensures State() == MP.StartChild(old(State()))
      decreases MP.Env(State()), 5
    {
      hide MP.ReplayState;
      childRunning := true;
      channel := [];
      lastSelectPayload := None;
      lastBeaconPayload := None;
      lastNoticePayload := None;
      lastPreviewPayload := None;
      assert State() == old(State()).(running := true, channel := [],
                                      lastSelect := None, lastBeacon := None, lastNotice := None, lastPreview := None);
      ReplayState();
    }

    method ReplayState()
      requires childRunning
      modifies this
      ensures State() == MP.ReplayState(old(State()))
      decreases MP.Env(State()), 4
    {
      TellSelect();
      TellBeacon();
      TellNotice();
      TellEndTone();
      TellPreview();
      ReplayVideo();
    }

    method ReplayVideo()
      requires childRunning
      modifies this
      ensures State() == MP.ReplayVideo(old(State()))
      decreases MP.Env(State()), 3
    {
      if fallbackVideoPath.Some? {
        var _ := SendMessage(MP.PLAY_VIDEO, MP.StringPayload(fallbackVideoPath.value), true);
        if fallbackVideoSeek.Some? {
          var _ := SendMessage(MP.SEEK_VIDEO, EncI64(fallbackVideoSeek.value), true);
        }
      }
    }

    method TellSelect()
      requires childRunning
      modifies this
      ensures State() == MP.TellSelect(old(State()))
      decreases MP.Env(State()), 2
    {
      var payload := EncodeActive(active);
      var ok := SendMessage(MP.SELECT, payload, true);
      if ok {
        lastSelectPayload := Some(payload);
      }
    }

    method TellBeacon()
      requires childRunning
      modifies this
      ensures State() == MP.TellBeacon(old(State()))
      decreases MP.Env(State()), 2
    {
      var payload := MP.BoolPayload(beaconAllowed);
      var ok := SendMessage(MP.BEACON, payload, true);
      if ok {
        lastBeaconPayload := Some(payload);
      }
    }

    method TellNotice()
      requires childRunning
      modifies this
      ensures State() == MP.TellNotice(old(State()))
      decreases MP.Env(State()), 2
    {
      var payload := MP.NoticePayload(accessNotice);
      var ok := SendMessage(MP.NOTICE, payload, true);
      if ok {
        lastNoticePayload := Some(payload);
      }
    }

    method TellEndTone()
      requires childRunning
      modifies this
      ensures State() == MP.TellEndTone(old(State()))
      decreases MP.Env(State()), 2
    {
      var payload := MP.BoolPayload(accessNoticeEndTone);
      var ok := SendMessage(MP.NOTICE_END_TONE, payload, true);
      if ok {
        lastNoticeEndTonePayload := Some(payload);
      }
    }

    method TellPreview()
      requires childRunning
      modifies this
      ensures State() == MP.TellPreview(old(State()))
      decreases MP.Env(State()), 2
    {
      var payload := MP.BoolPayload(previewEnabled);
      var ok := SendMessage(MP.PREVIEW, payload, true);
      if ok {
        lastPreviewPayload := Some(payload);
      }
    }

    method Select(input: Option<ActiveInput>)
      requires Valid()
      modifies this
      ensures Valid() && State() == MP.Perform(old(State()), MP.Select(input))
    {
      hide MP.Agrees;
      MA.PerformKeeps(State(), MP.Select(input));
      active := input;
      var payload := EncodeActive(active);
      if lastSelectPayload == Some(payload) {
        return;
      }
      TellSelect();
    }

    method SetBeaconAllowed(allowed: bool)
      requires Valid()
      modifies this
      ensures Valid() && State() == MP.Perform(old(State()), MP.SetBeaconAllowed(allowed))
    {
      hide MP.Agrees;
      MA.PerformKeeps(State(), MP.SetBeaconAllowed(allowed));
      beaconAllowed := allowed;
      if lastBeaconPayload == Some(MP.BoolPayload(allowed)) {
        return;
      }
      TellBeacon();
    }

    method SetAccessNotice(notice: Option<Bytes>, endTone: bool)
      requires Valid()
      modifies this
      ensures Valid() && State() == MP.Perform(old(State()), MP.SetAccessNotice(notice, endTone))
    {
      hide MP.Agrees, MP.TellNotice, MP.TellEndTone, MP.NoticePayload, MP.BoolPayload;
      MA.PerformKeeps(State(), MP.SetAccessNotice(notice, endTone));
      accessNotice := notice;
      accessNoticeEndTone := accessNotice.Some? && endTone;
      if lastNoticePayload != Some(MP.NoticePayload(accessNotice)) {
        TellNotice();
      }
      if lastNoticeEndTonePayload != Some(MP.BoolPayload(accessNoticeEndTone)) {
        TellEndTone();
      }
    }

    method SetPreviewEnabled(enabled: bool)
      requires Valid()
      modifies this
      ensures Valid() && State() == MP.Perform(old(State()), MP.SetPreviewEnabled(enabled))
    {
      hide MP.Agrees;
      MA.PerformKeeps(State(), MP.SetPreviewEnabled(enabled));
      previewEnabled := enabled;
      if lastPreviewPayload == Some(MP.BoolPayload(enabled)) {
        return;
      }
      TellPreview();
    }

    method PlayFallbackVideo(path: Bytes)
      requires Valid()
      modifies this
      ensures Valid() && State() == MP.Perform(old(State()), MP.PlayFallbackVideo(path))
    {
      hide MP.Agrees;
      MA.PerformKeeps(State(), MP.PlayFallbackVideo(path));
      fallbackVideoPath := Some(path);
      fallbackVideoSeek := None;
      var _ := SendMessage(MP.PLAY_VIDEO, MP.StringPayload(path), true);
    }

    method StopFallbackVideo()
      requires Valid()
      modifies this
      ensures Valid() && State() == MP.Perform(old(State()), MP.StopFallbackVideo)
    {
      hide MP.Agrees;
      MA.PerformKeeps(State(), MP.StopFallbackVideo);
      fallbackVideoPath := None;
      fallbackVideoSeek := None;
      var _ := SendMessage(MP.STOP_VIDEO, [], true);
    }

    method SeekFallbackVideo(position: Int64)
      requires Valid()
      modifies this
      ensures Valid() && State() == MP.Perform(old(State()), MP.SeekFallbackVideo(position))
    {
      hide MP.Agrees;
      MA.PerformKeeps(State(), MP.SeekFallbackVideo(position));
      fallbackVideoSeek := Some(Max(0, position));
      var _ := SendMessage(MP.SEEK_VIDEO, EncI64(fallbackVideoSeek.value), true);
    }

    method ReconfigurePluto(transmitEnabled: bool)
      requires Valid()
      modifies this
      ensures Valid() && State() == MP.Perform(old(State()), MP.ReconfigurePluto(transmitEnabled))
    {
      hide MP.Agrees;
      MA.PerformKeeps(State(), MP.ReconfigurePluto(transmitEnabled));
      var _ := SendMessage(MP.RECONFIGURE_PLUTO, MP.BoolPayload(transmitEnabled), true);
    }

    // The end of drainChildMessages: recv found the socket closed, or empty.
    method DrainChildMessages(closed: bool)
      requires Valid()
      modifies this
      ensures Valid() && State() == MP.Perform(old(State()), MP.DrainChild(closed))
    {
      hide MP.Agrees;
      MA.PerformKeeps(State(), MP.DrainChild(closed));
      if closed {
        childRunning := false;
        StartChild();
      }
    }
  }
}
