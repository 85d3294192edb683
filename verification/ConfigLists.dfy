/** The printed sections that hold lists or further objects read back as themselves. */
module ConfigLists {
  import opened Prelude
  import opened Json
  import opened Config
  import opened ConfigRoundTrip
  import opened ConfigSections

  // ---------------------------------------------------------------- fallback

  predicate AllClean(texts: seq<string>) {
    forall i | 0 <= i < |texts| :: Clean(texts[i])
  }

  ghost predicate PlainItems(items: seq<Item>) {
    forall i | 0 <= i < |items| :: AllSpace(items[i].lead) && Plain(items[i].value)
  }

  lemma {:induction false} PathsRead(paths: seq<string>, first: bool)
    ensures PlainItems(PathItems(paths, first))
    ensures ItemValues(PathItems(paths, first)).Some? <==> AllClean(paths)
    ensures AllClean(paths) ==> Texts(ItemValues(PathItems(paths, first)).value) == Some(paths)
  {
    if paths != [] {
      PathsRead(paths[1..], false);
      var items := PathItems(paths, first);
      assert items[1..] == PathItems(paths[1..], false);
      assert Value(items[0].value).Some? <==> Clean(paths[0]);
      assert AllClean(paths) <==> Clean(paths[0]) && AllClean(paths[1..]);
      if AllClean(paths) {
        var values := ItemValues(items).value;
        assert values == [String(paths[0])] + ItemValues(items[1..]).value;
        assert values[1..] == ItemValues(items[1..]).value;
        assert [paths[0]] + paths[1..] == paths;
      }
    }
  }

  predicate FallbackClean(f: Fallback) {
    Clean(f.videoDirectory) && Clean(f.slideDirectory) && Clean(f.christmasSlideDirectory) && AllClean(f.videoPaths)
  }

  lemma FallbackKeys()
    ensures Clean("enabled") && Clean("videoDirectory") && Clean("slideDirectory")
    ensures Clean("christmasSlideDirectory") && Clean("slideDurationSeconds")
  {
  }

  lemma MoreFallbackKeys()
    ensures Clean("inputTimeoutMs") && Clean("staticFrameRate") && Clean("hardwareDecode") && Clean("videoPaths")
  {
  }

  lemma FallbackPlain(f: Fallback)
    ensures PlainMembers(FallbackDoc(f).members)
  {
    FallbackKeys();
    MoreFallbackKeys();
    LeadsAreSpace();
    PathsRead(f.videoPaths, true);
    hide Clean, AllSpace, AllClean, PathItems, Texts, ItemValues, Value;
    var m := FallbackDoc(f).members;
    assert m[8].value == DArray(PathItems(f.videoPaths, true), "");
  }

  lemma FallbackKeysDiffer(f: Fallback)
    ensures DistinctKeys(FallbackDoc(f).members)
  {
    hide PathItems;
  }

  lemma FallbackTidy(f: Fallback)
    ensures Tidy(FallbackDoc(f))
    ensures AllReadable(FallbackDoc(f).members) <==> FallbackClean(f)
  {
    FallbackPlain(f);
    FallbackKeysDiffer(f);
    LeadsAreSpace();
    PathsRead(f.videoPaths, true);
    hide Clean, AllSpace, AllClean, PathItems, Texts, ItemValues, DistinctKeys, PlainMember, Plain;
    var m := FallbackDoc(f).members;
    assert m[1].value == DString(f.videoDirectory) && m[2].value == DString(f.slideDirectory);
    assert m[3].value == DString(f.christmasSlideDirectory);
    assert m[8].value == DArray(PathItems(f.videoPaths, true), "");
    assert forall i | 0 <= i < |m| && i !in {1, 2, 3, 8} :: Value(m[i].value).Some?;
  }

  lemma FallbackTextsRead(f: Fallback, d: Fallback, fields: map<string, Json>)
    requires Tidy(FallbackDoc(f)) && Holds(fields, FallbackDoc(f).members)
    ensures TextOr(Object(fields), "videoDirectory", d.videoDirectory) == Some(f.videoDirectory)
    ensures TextOr(Object(fields), "slideDirectory", d.slideDirectory) == Some(f.slideDirectory)
    ensures TextOr(Object(fields), "christmasSlideDirectory", d.christmasSlideDirectory) ==
            Some(f.christmasSlideDirectory)
    ensures VideoPathsOr(Object(fields), d.videoPaths) == Some(f.videoPaths)
  {
    PathsRead(f.videoPaths, true);
    hide Clean, AllSpace, AllClean, PathItems, Texts, ItemValues;
    var m := FallbackDoc(f).members;
    assert m[1].key == "videoDirectory" && m[2].key == "slideDirectory" && m[3].key == "christmasSlideDirectory";
    assert m[8].key == "videoPaths";
  }

  lemma FallbackNumbersRead(f: Fallback, d: Fallback, fields: map<string, Json>)
    requires ValidFallback(f)
    requires Tidy(FallbackDoc(f)) && Holds(fields, FallbackDoc(f).members)
    ensures SlideDurationOr(Object(fields), d.slideDurationMs) == Some(f.slideDurationMs)
    ensures IntOr(Object(fields), "inputTimeoutMs", d.inputTimeoutMs) == Some(f.inputTimeoutMs)
    ensures ClampedOr(Object(fields), "staticFrameRate", d.staticFrameRate, 1, 25) == Some(f.staticFrameRate)
    ensures BoolOr(Object(fields), "enabled", d.enabled) == Some(f.enabled)
    ensures BoolOr(Object(fields), "hardwareDecode", d.hardwareDecode) == Some(f.hardwareDecode)
  {
    NumbersRead(WholeSeconds(f.slideDurationMs));
    NumbersRead(f.inputTimeoutMs);
    NumbersRead(f.staticFrameRate);
    hide Clean, AllSpace, AllClean, PathItems, ItemValues, AsUint32, AsInt;
    var m := FallbackDoc(f).members;
    assert m[0].key == "enabled" && m[4].key == "slideDurationSeconds" && m[5].key == "inputTimeoutMs";
    assert m[6].key == "staticFrameRate" && m[7].key == "hardwareDecode";
  }

  lemma FallbackReads(root: Json, f: Fallback, d: Fallback, fields: map<string, Json>)
    requires ValidFallback(f)
    requires Tidy(FallbackDoc(f)) && Holds(fields, FallbackDoc(f).members)
    requires Field(root, "fallback") == Some(Object(fields))
    ensures ReadFallback(root, d) == Some(f)
  {
    FallbackTextsRead(f, d, fields);
    FallbackNumbersRead(f, d, fields);
    hide FallbackDoc, TextOr, VideoPathsOr, SlideDurationOr, IntOr, ClampedOr, BoolOr;
  }

  // ------------------------------------------------------ streaming and media

  lemma StreamingTidy(r: Rtmp)
    ensures Tidy(StreamingDoc(r)) && Tidy(StreamingDoc(r).members[0].value)
    ensures AllReadable(StreamingDoc(r).members) <==> Clean(r.url)
  {
    LeadsAreSpace();
    assert Clean("rtmp") && Clean("enabled") && Clean("url");
    hide Clean, AllSpace;
    var inner := StreamingDoc(r).members[0].value;
    assert inner.members[1].value == DString(r.url);
    assert AllReadable(inner.members) <==> Clean(r.url);
    ObjectHolds(inner);
  }

  lemma StreamingReads(root: Json, r: Rtmp, d: Rtmp, fields: map<string, Json>)
    requires Tidy(StreamingDoc(r)) && Holds(fields, StreamingDoc(r).members)
    requires Field(root, "streaming") == Some(Object(fields))
    ensures ReadRtmp(root, d) == Some(r)
  {
    StreamingTidy(r);
    hide Clean, AllSpace;
    var outer := StreamingDoc(r).members;
    var inner := outer[0].value;
    ObjectHolds(inner);
    assert outer[0].key == "rtmp";
    var m := inner.members;
    assert m[0].key == "enabled" && m[1].key == "url";
  }

  lemma MediaTidy(backend: string)
    ensures Tidy(MediaDoc(backend))
    ensures backend in BACKENDS ==> AllReadable(MediaDoc(backend).members)
  {
    LeadsAreSpace();
    assert Clean("backend");
    if backend in BACKENDS { MoreWordsAreClean(backend); }
    hide Clean, AllSpace;
  }

  lemma MediaReadsBack(root: Json, backend: string, d: string, fields: map<string, Json>)
    requires backend in BACKENDS
    requires Tidy(MediaDoc(backend)) && Holds(fields, MediaDoc(backend).members)
    requires Field(root, "media") == Some(Object(fields))
    ensures OneOfOr(Section(root, "media"), "backend", d, BACKENDS) == Some(backend)
  {
    hide Clean, AllSpace;
    assert MediaDoc(backend).members[0].key == "backend";
  }

  // ----------------------------------------------------------------- capture

  predicate CaptureClean(c: Capture) {
    && Clean(c.deviceId) && Clean(c.labelText) && Clean(c.captureDevice) && Clean(c.audioDevice)
    && Clean(c.gpioChip)
  }

  lemma CaptureVideoKeys()
    ensures Clean("enabled") && Clean("receiverId") && Clean("deviceId") && Clean("label") && Clean("captureDevice")
    ensures Clean("captureStandard") && Clean("captureInputFormat") && Clean("captureWidth")
  {
  }

  lemma CaptureRateKeys()
    ensures Clean("captureHeight") && Clean("captureFrameRate") && Clean("captureFrameRateNumerator")
    ensures Clean("captureFrameRateDenominator")
  {
  }

  lemma CaptureAudioKeys()
    ensures Clean("audioEnabled") && Clean("audioDevice") && Clean("audioSampleRate") && Clean("audioChannels")
    ensures Clean("audioDelayMs")
  {
  }

  lemma CaptureLockKeys()
    ensures Clean("lockMode") && Clean("gpioChip") && Clean("gpioLine") && Clean("gpioActiveHigh")
  {
  }

  lemma CaptureVideoPlain(c: Capture)
    ensures PlainMembers(CaptureVideoMembers(c)) && DistinctKeys(CaptureVideoMembers(c))
    ensures DifferentKeys(CaptureVideoMembers(c), CaptureRateMembers(c))
    ensures ValidCapture(c) ==>
      (AllReadable(CaptureVideoMembers(c)) <==> Clean(c.deviceId) && Clean(c.labelText) && Clean(c.captureDevice))
  {
    CaptureVideoKeys();
    CaptureRateKeys();
    LeadsAreSpace();
    hide Clean, AllSpace;
    var m := CaptureVideoMembers(c);
    if ValidCapture(c) {
      MoreWordsAreClean(c.captureStandard);
      MoreWordsAreClean(c.captureInputFormat);
      assert m[2].value == DString(c.deviceId) && m[3].value == DString(c.labelText);
      assert m[4].value == DString(c.captureDevice);
    }
  }

  lemma CaptureRatePlain(c: Capture)
    ensures PlainMembers(CaptureRateMembers(c)) && DistinctKeys(CaptureRateMembers(c))
    ensures AllReadable(CaptureRateMembers(c))
    ensures DifferentKeys(CaptureVideoMembers(c), CaptureAudioMembers(c))
    ensures DifferentKeys(CaptureRateMembers(c), CaptureAudioMembers(c))
  {
    CaptureRateKeys();
    LeadsAreSpace();
    hide Clean, AllSpace;
  }

  lemma CaptureAudioPlain(c: Capture)
    ensures PlainMembers(CaptureAudioMembers(c)) && DistinctKeys(CaptureAudioMembers(c))
    ensures ValidCapture(c) ==>
      (AllReadable(CaptureAudioMembers(c)) <==> Clean(c.audioDevice) && Clean(c.gpioChip))
  {
    CaptureAudioKeys();
    CaptureLockKeys();
    LeadsAreSpace();
    hide Clean, AllSpace;
    var m := CaptureAudioMembers(c);
    if ValidCapture(c) {
      MoreWordsAreClean(c.lockMode);
      assert m[1].value == DString(c.audioDevice) && m[6].value == DString(c.gpioChip);
    }
  }

  lemma CaptureTidy(c: Capture)
    ensures Tidy(CaptureDoc(c))
    ensures ValidCapture(c) ==> (AllReadable(CaptureDoc(c).members) <==> CaptureClean(c))
  {
    hide CaptureVideoMembers, CaptureRateMembers, CaptureAudioMembers, ValidCapture, Clean, AllSpace;
    hide PlainMembers, AllReadable, DistinctKeys, DifferentKeys, Holds;
    LeadsAreSpace();
    CaptureVideoPlain(c);
    CaptureRatePlain(c);
    CaptureAudioPlain(c);
    var video, rate, audio := CaptureVideoMembers(c), CaptureRateMembers(c), CaptureAudioMembers(c);
    MembersConcat(video, rate);
    MembersConcat(video + rate, audio);
    KeysConcat(video, rate);
    ApartFromBoth(video, rate, audio);
    KeysConcat(video + rate, audio);
  }

  lemma ApartFromBoth(a: seq<Member>, b: seq<Member>, c: seq<Member>)
    requires DifferentKeys(a, c) && DifferentKeys(b, c)
    ensures DifferentKeys(a + b, c)
  {
  }

  lemma AnalogueTidy(c: Capture)
    ensures Tidy(AnalogueDoc(c))
    ensures ValidCapture(c) ==> (AllReadable(AnalogueDoc(c).members) <==> CaptureClean(c))
  {
    CaptureTidy(c);
    LeadsAreSpace();
    assert Clean("capture");
    hide Clean, AllSpace, CaptureDoc;
    ObjectHolds(CaptureDoc(c));
    assert AnalogueDoc(c).members[0] == M(L2, "capture", CaptureDoc(c));
  }

  lemma CaptureVideoReads(c: Capture, d: Capture, fields: map<string, Json>)
    requires ValidCapture(c)
    requires PlainMembers(CaptureVideoMembers(c)) && Holds(fields, CaptureVideoMembers(c))
    ensures ReadCaptureVideo(Object(fields), d) ==
      Some(d.(enabled := c.enabled, receiverId := c.receiverId, deviceId := c.deviceId, labelText := c.labelText,
              captureDevice := c.captureDevice, captureStandard := c.captureStandard,
              captureInputFormat := c.captureInputFormat, captureWidth := c.captureWidth,
              captureHeight := c.captureHeight))
  {
    NumbersRead(c.receiverId);
    NumbersRead(c.captureWidth);
    NumbersRead(c.captureHeight);
    hide Clean, AllSpace, AsUint32, AsInt;
    var m := CaptureVideoMembers(c);
    assert m[0].key == "enabled" && m[1].key == "receiverId" && m[2].key == "deviceId" && m[3].key == "label";
    assert m[4].key == "captureDevice" && m[5].key == "captureStandard" && m[6].key == "captureInputFormat";
    assert m[7].key == "captureWidth" && m[8].key == "captureHeight";
  }

  lemma CaptureRateReads(c: Capture, d: Capture, fields: map<string, Json>)
    requires ValidCapture(c)
    requires PlainMembers(CaptureRateMembers(c)) && Holds(fields, CaptureRateMembers(c))
    ensures ReadCaptureRate(Object(fields), d) ==
      Some(d.(captureFrameRate := c.captureFrameRate, frameRateNumerator := c.frameRateNumerator,
              frameRateDenominator := c.frameRateDenominator))
  {
    NumbersRead(c.captureFrameRate);
    NumbersRead(c.frameRateNumerator);
    NumbersRead(c.frameRateDenominator);
    hide Clean, AllSpace, AsUint32;
    var m := CaptureRateMembers(c);
    assert m[0].key == "captureFrameRate" && m[1].key == "captureFrameRateNumerator";
    assert m[2].key == "captureFrameRateDenominator";
  }

  lemma CaptureAudioReads(c: Capture, d: Capture, fields: map<string, Json>)
    requires ValidCapture(c)
    requires PlainMembers(CaptureAudioMembers(c)) && Holds(fields, CaptureAudioMembers(c))
    ensures ReadCaptureAudio(Object(fields), d) ==
      Some(d.(audioEnabled := c.audioEnabled, audioDevice := c.audioDevice, audioSampleRate := c.audioSampleRate,
              audioChannels := c.audioChannels, audioDelayMs := c.audioDelayMs, lockMode := c.lockMode,
              gpioChip := c.gpioChip, gpioLine := c.gpioLine, gpioActiveHigh := c.gpioActiveHigh))
  {
    NumbersRead(c.audioSampleRate);
    NumbersRead(c.audioChannels);
    NumbersRead(c.audioDelayMs);
    NumbersRead(c.gpioLine);
    hide Clean, AllSpace, AsUint32;
    var m := CaptureAudioMembers(c);
    assert m[0].key == "audioEnabled" && m[1].key == "audioDevice" && m[2].key == "audioSampleRate";
    assert m[3].key == "audioChannels" && m[4].key == "audioDelayMs" && m[5].key == "lockMode";
    assert m[6].key == "gpioChip" && m[7].key == "gpioLine" && m[8].key == "gpioActiveHigh";
  }

  lemma CaptureHolds(c: Capture, fields: map<string, Json>)
    requires PlainMembers(CaptureVideoMembers(c)) && PlainMembers(CaptureRateMembers(c))
    requires PlainMembers(CaptureAudioMembers(c)) && PlainMembers(CaptureDoc(c).members)
    requires Holds(fields, CaptureDoc(c).members)
    ensures Holds(fields, CaptureVideoMembers(c)) && Holds(fields, CaptureRateMembers(c))
    ensures Holds(fields, CaptureAudioMembers(c))
  {
    hide CaptureVideoMembers, CaptureRateMembers, CaptureAudioMembers, PlainMembers, Holds;
    MembersConcat(CaptureVideoMembers(c), CaptureRateMembers(c));
    MembersConcat(CaptureVideoMembers(c) + CaptureRateMembers(c), CaptureAudioMembers(c));
  }

  lemma AnalogueReads(root: Json, c: Capture, d: Capture, fields: map<string, Json>)
    requires ValidCapture(c)
    requires Tidy(AnalogueDoc(c)) && Holds(fields, AnalogueDoc(c).members)
    requires Field(root, "analogue") == Some(Object(fields))
    ensures ReadCapture(root, d) == Some(c)
  {
    CaptureTidy(c);
    CaptureVideoPlain(c);
    CaptureRatePlain(c);
    CaptureAudioPlain(c);
    hide Clean, AllSpace, CaptureDoc, PlainMembers, DistinctKeys, DifferentKeys, AllReadable, ValidCapture;
    hide ReadCaptureVideo, ReadCaptureRate, ReadCaptureAudio;
    hide CaptureVideoMembers, CaptureRateMembers, CaptureAudioMembers;
    ObjectHolds(CaptureDoc(c));
    var inner := Value(CaptureDoc(c));
    assert AnalogueDoc(c).members[0] == M(L2, "capture", CaptureDoc(c));
    assert inner == Some(fields["capture"]) && inner.value.Object?;
    var m := inner.value.fields;
    CaptureHolds(c, m);
    CaptureVideoReads(c, d, m);
    var d1 := ReadCaptureVideo(inner.value, d).value;
    CaptureRateReads(c, d1, m);
    var d2 := ReadCaptureRate(inner.value, d1).value;
    CaptureAudioReads(c, d2, m);
  }
}
