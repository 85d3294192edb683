/** MQTT 3.1.1 framing (sections 2.2.3 and 3.3): src/pluto_sink.cpp writes publish
    packets, src/pluto_mqtt_status.cpp reads packets. Texts are their bytes. */
module Mqtt {
  import opened Prelude

  const LIMIT: nat := 0x1000_0000

  // ---------------------------------------------------------------- encoding

  function Remaining(length: nat): Bytes {
    if length < 128 then [length] else [128 + length % 128] + Remaining(length / 128)
  }

  function BigEndian(n: nat): Bytes {
    [n / 256 % 256, n % 256]
  }

  // The length of a longer text is cut to 16 bits.
  function StringField(text: Bytes): Bytes {
    BigEndian(|text|) + text
  }

  function PublishBody(topic: Bytes, payload: Bytes): Bytes {
    StringField(topic) + payload
  }

  function Framed(header: Byte, body: Bytes): Bytes {
    [header] + (Remaining(|body|) + body)
  }

  function Publish(topic: Bytes, payload: Bytes): Bytes {
    Framed(0x30, PublishBody(topic, payload))
  }

  method AppendRemainingLength(packet: Bytes, length: nat) returns (out: Bytes)
    ensures out == packet + Remaining(length)
  {
    out := packet;
    var left := length;
    while left >= 128
      invariant packet + Remaining(length) == out + Remaining(left)
    {
      assert (out + [128 + left % 128]) + Remaining(left / 128) == out + Remaining(left);
      out := out + [128 + left % 128];
      left := left / 128;
    }
    out := out + [left];
  }

  method EncodePublish(topic: Bytes, payload: Bytes) returns (publish: Bytes)
    ensures publish == Publish(topic, payload)
  {
    hide Remaining;
    var variable: Bytes := BigEndian(|topic|);
    variable := variable + topic;
    variable := variable + payload;
    publish := AppendRemainingLength([0x30], |variable|);
    publish := publish + variable;
    assert publish == [0x30] + (Remaining(|variable|) + variable);
  }

  // ---------------------------------------------------------------- decoding

  // The sum of the length bytes and what follows; None when the input ends or a
  // fifth byte would be needed.
  function ReadLength(s: Bytes, multiplier: nat, sum: nat): (r: Option<(nat, Bytes)>)
    ensures r.Some? ==> |r.value.1| < |s|
    decreases |s|
  {
    if s == [] then None
    else
      var total := sum + s[0] as nat % 128 * multiplier;
      if s[0] < 128 then Some((total, s[1..]))
      else if multiplier * 128 > 128 * 128 * 128 then None
      else ReadLength(s[1..], multiplier * 128, total)
  }

  datatype Packet = Packet(kind: nat, body: Bytes)
  datatype Message = Message(topic: Bytes, payload: Bytes)

  function ReadPacket(s: Bytes): (r: Option<(Packet, Bytes)>)
    ensures r.Some? ==> |r.value.1| < |s|
  {
    if s == [] then None
    else
      var (length, rest) :- ReadLength(s[1..], 1, 0);
      if |rest| < length then None else Some((Packet(s[0] / 16, rest[..length]), rest[length..]))
  }

  function TopicSize(body: Bytes): nat
    requires |body| >= 2
  {
    body[0] as nat * 256 + body[1] as nat
  }

  // What the status worker takes from a packet.
  function Taken(p: Packet): seq<Message> {
    if p.kind != 3 || |p.body| < 2 || |p.body| < TopicSize(p.body) + 2 then []
    else [Message(p.body[2..2 + TopicSize(p.body)], p.body[2 + TopicSize(p.body)..])]
  }

  // All packets up to the first that cannot be read.
  function Messages(s: Bytes): seq<Message>
    decreases |s|
  {
    if ReadPacket(s).None? then [] else Taken(ReadPacket(s).value.0) + Messages(ReadPacket(s).value.1)
  }

  class Reader {
    const input: Bytes
    var offset: nat

    ghost predicate Valid()
      reads this
    {
      offset <= |input|
    }

    constructor (input: Bytes)
      ensures Valid() && this.input == input && offset == 0
    {
      this.input := input;
      offset := 0;
    }

    method ReadRemaining() returns (length: Option<nat>)
      requires Valid()
      modifies this`offset
      ensures Valid() && offset >= old(offset)
      ensures match ReadLength(input[old(offset)..], 1, 0)
        case None => length.None?
        case Some(r) => length == Some(r.0) && input[offset..] == r.1
    {
      var multiplier: nat, remaining: nat := 1, 0;
      while true
        invariant old(offset) <= offset <= |input| && Valid()
        invariant ReadLength(input[old(offset)..], 1, 0) == ReadLength(input[offset..], multiplier, remaining)
        decreases |input| - offset
      {
        if offset == |input| {
          return None;
        }
        var value := input[offset];
        ghost var here := input[offset..];
        assert here[0] == value;
        assert input[offset..][1..] == input[offset + 1..];
        offset := offset + 1;
        remaining := remaining + value as nat % 128 * multiplier;
        if value < 128 {
          return Some(remaining);
        }
        multiplier := multiplier * 128;
        if multiplier > 128 * 128 * 128 {
          return None;
        }
      }
    }

    method Read() returns (packet: Option<Packet>)
      requires Valid()
      modifies this`offset
      ensures Valid()
      ensures match ReadPacket(input[old(offset)..])
        case None => packet.None?
        case Some(r) => packet == Some(r.0) && input[offset..] == r.1
    {
      hide ReadLength;
      if offset == |input| {
        return None;
      }
      var header := input[offset];
      assert input[offset..][1..] == input[offset + 1..];
      offset := offset + 1;
      var length := ReadRemaining();
      if length.None? || |input| - offset < length.value {
        return None;
      }
      var body := input[offset..offset + length.value];
      assert input[offset..][..length.value] == body;
      assert input[offset..][length.value..] == input[offset + length.value..];
      offset := offset + length.value;
      return Some(Packet(header / 16, body));
    }

    method Take(packet: Packet) returns (taken: seq<Message>)
      ensures taken == Taken(packet)
    {
      taken := [];
      var body := packet.body;
      if packet.kind != 3 || |body| < 2 {
        return;
      }
      var topicSize: nat := body[0] as nat * 256 + body[1] as nat;
      if |body| < topicSize + 2 {
        return;
      }
      taken := [Message(body[2..2 + topicSize], body[2 + topicSize..])];
    }

    method ReadMessages() returns (messages: seq<Message>)
      requires Valid()
      modifies this`offset
      ensures messages == Messages(input[old(offset)..])
    {
      hide ReadPacket, Messages, Taken;
      messages := [];
      while true
        invariant Valid()
        invariant Messages(input[old(offset)..]) == messages + Messages(input[offset..])
        decreases |input| - offset
      {
        ghost var s := input[offset..];
        var packet := Read();
        if packet.None? {
          LastMessages(messages, s);
          return;
        }
        MoreMessages(messages, s);
        var taken := Take(packet.value);
        messages := messages + taken;
      }
    }
  }

  lemma LastMessages(messages: seq<Message>, s: Bytes)
    requires ReadPacket(s).None?
    ensures messages + Messages(s) == messages
  {
  }

  lemma MoreMessages(messages: seq<Message>, s: Bytes)
    requires ReadPacket(s).Some?
    ensures var (packet, rest) := ReadPacket(s).value;
      messages + Messages(s) == (messages + Taken(packet)) + Messages(rest)
  {
    hide ReadPacket, Taken;
  }

  // ------------------------------------------------------------- round trips

  predicate IsMultiplier(m: nat) {
    m == 1 || m == 128 || m == 16384 || m == 2097152
  }

  lemma Scaled(n: nat, m: nat)
    ensures n % 128 * m + n / 128 * (m * 128) == n * m
  {
    assert n == n / 128 * 128 + n % 128;
    assert n / 128 * (m * 128) == (n / 128 * 128) * m;
    assert (n / 128 * 128) * m + n % 128 * m == (n / 128 * 128 + n % 128) * m;
  }

  lemma NextMultiplier(n: nat, m: nat)
    requires IsMultiplier(m) && n * m < LIMIT && n >= 128
    ensures IsMultiplier(m * 128) && m * 128 <= 128 * 128 * 128
  {
    ProductAtLeast(128, n, m);
  }

  lemma ProductAtLeast(a: nat, n: nat, m: nat)
    requires a <= n
    ensures a * m <= n * m
  {
    assert n * m == a * m + (n - a) * m;
  }

  lemma ReadStep(n: nat, m: nat)
    requires n * m < LIMIT
    ensures n / 128 * (m * 128) < LIMIT
    ensures n % 128 * m + n / 128 * (m * 128) == n * m
  {
    Scaled(n, m);
    ProductAtLeast(0, n % 128, m);
  }

  // One length byte with the continuation bit.
  lemma ContinuedReads(d: nat, tail: Bytes, m: nat, sum: nat)
    requires d < 128
    ensures ReadLength([128 + d] + tail, m, sum) ==
            if m * 128 > 128 * 128 * 128 then None else ReadLength(tail, m * 128, sum + d * m)
  {
    var s: Bytes := [128 + d] + tail;
    assert s[0] == 128 + d && s[1..] == tail;
    assert s[0] as nat % 128 == d;
  }

  lemma LastReads(d: nat, tail: Bytes, m: nat, sum: nat)
    requires d < 128
    ensures ReadLength([d] + tail, m, sum) == Some((sum + d * m, tail))
  {
    var s: Bytes := [d] + tail;
    assert s[0] == d && s[1..] == tail;
    assert s[0] as nat % 128 == d;
  }

  lemma {:induction false} RemainingReads(n: nat, rest: Bytes, m: nat, sum: nat)
    requires IsMultiplier(m) && n * m < LIMIT
    ensures ReadLength(Remaining(n) + rest, m, sum) == Some((sum + n * m, rest))
    decreases n
  {
    hide IsMultiplier, ReadLength;
    if n < 128 {
      LastReads(n, rest, m, sum);
    } else {
      var d, q := n % 128, n / 128;
      NextMultiplier(n, m);
      ReadStep(n, m);
      ContinuedReads(d, Remaining(q) + rest, m, sum);
      assert Remaining(n) + rest == [128 + d] + (Remaining(q) + rest);
      RemainingReads(q, rest, m * 128, sum + d * m);
    }
  }

  // From the limit on the decoder gives up.
  lemma {:induction false} RemainingTooLong(n: nat, rest: Bytes, m: nat, sum: nat)
    requires IsMultiplier(m) && n * m >= LIMIT
    ensures ReadLength(Remaining(n) + rest, m, sum).None?
    decreases n
  {
    hide IsMultiplier, ReadLength;
    LongNumber(n, m);
    var d, q := n % 128, n / 128;
    ContinuedReads(d, Remaining(q) + rest, m, sum);
    assert Remaining(n) + rest == [128 + d] + (Remaining(q) + rest);
    if m < 2097152 {
      TooLongStep(n, m);
      RemainingTooLong(q, rest, m * 128, sum + d * m);
    }
  }

  lemma LongNumber(n: nat, m: nat)
    requires IsMultiplier(m) && n * m >= LIMIT
    ensures n >= 128
  {
    if n < 128 { ProductAtLeast(n, 127, m); }
  }

  lemma TooLongStep(n: nat, m: nat)
    requires IsMultiplier(m) && m < 2097152 && n * m >= LIMIT
    ensures IsMultiplier(m * 128) && m * 128 <= 128 * 128 * 128
    ensures n / 128 * (m * 128) >= LIMIT
  {
    if m == 1 {
    } else if m == 128 {
    } else {
    }
  }

  lemma FramedReads(header: Byte, body: Bytes, rest: Bytes)
    ensures ReadPacket(Framed(header, body) + rest) ==
            if |body| < LIMIT then Some((Packet(header / 16, body), rest)) else None
  {
    hide Remaining, ReadLength;
    var s := Framed(header, body) + rest;
    assert s[0] == header && s[1..] == Remaining(|body|) + (body + rest);
    if |body| < LIMIT {
      RemainingReads(|body|, body + rest, 1, 0);
      assert (body + rest)[..|body|] == body && (body + rest)[|body|..] == rest;
    } else {
      RemainingTooLong(|body|, body + rest, 1, 0);
    }
  }

  // A topic of 65536 bytes or more is read short.
  lemma PublishTaken(topic: Bytes, payload: Bytes)
    ensures var n := |topic| % 65536;
      Taken(Packet(3, PublishBody(topic, payload))) == [Message(topic[..n], topic[n..] + payload)]
  {
    var body, n := PublishBody(topic, payload), |topic| % 65536;
    assert body == BigEndian(|topic|) + (topic + payload);
    assert body[0] == |topic| / 256 % 256 && body[1] == |topic| % 256;
    assert TopicSize(body) == n;
    assert body[2..] == topic + payload;
    assert body[2..2 + n] == body[2..][..n] && body[2 + n..] == body[2..][n..];
    assert (topic + payload)[..n] == topic[..n] && (topic + payload)[n..] == topic[n..] + payload;
  }

  /** One publish packet comes back as it was sent exactly when its topic is shorter
      than 65536 bytes and its body shorter than 2^28; a longer body ends the reading. */
  lemma PublishRoundTrip(topic: Bytes, payload: Bytes, rest: Bytes)
    ensures |PublishBody(topic, payload)| >= LIMIT ==> Messages(Publish(topic, payload) + rest) == []
    ensures |PublishBody(topic, payload)| < LIMIT ==>
              (Messages(Publish(topic, payload) + rest) == [Message(topic, payload)] + Messages(rest)
               <==> |topic| < 65536)
  {
    hide Taken, ReadPacket;
    var body, n := PublishBody(topic, payload), |topic| % 65536;
    FramedReads(0x30, body, rest);
    PublishTaken(topic, payload);
    if |body| < LIMIT {
      var got := [Message(topic[..n], topic[n..] + payload)];
      assert Messages(Publish(topic, payload) + rest) == got + Messages(rest);
      assert (got + Messages(rest))[0] == got[0];
      assert ([Message(topic, payload)] + Messages(rest))[0] == Message(topic, payload);
      if |topic| < 65536 {
        assert topic[..n] == topic && topic[n..] + payload == payload;
      } else {
        assert |topic[..n]| < |topic|;
      }
    }
  }

  // Packets as they may follow each other on the connection.
  datatype Sent = Published(topic: Bytes, payload: Bytes) | Other(header: Byte, body: Bytes)

  predicate Proper(p: Sent) {
    match p
    case Published(topic, payload) => |topic| < 65536 && |PublishBody(topic, payload)| < LIMIT
    case Other(header, body) => header / 16 != 3 && |body| < LIMIT
  }

  function Wire(p: Sent): Bytes {
    match p
    case Published(topic, payload) => Publish(topic, payload)
    case Other(header, body) => Framed(header, body)
  }

  function Told(p: Sent): seq<Message> {
    match p
    case Published(topic, payload) => [Message(topic, payload)]
    case Other(_, _) => []
  }

  function Stream(packets: seq<Sent>): Bytes {
    if packets == [] then [] else Wire(packets[0]) + Stream(packets[1..])
  }

  function AllTold(packets: seq<Sent>): seq<Message> {
    if packets == [] then [] else Told(packets[0]) + AllTold(packets[1..])
  }

  lemma OneReads(p: Sent, rest: Bytes)
    requires Proper(p)
    ensures Messages(Wire(p) + rest) == Told(p) + Messages(rest)
  {
    hide Messages, Framed, PublishBody;
    match p {
      case Published(topic, payload) => PublishRoundTrip(topic, payload, rest);
      case Other(header, body) =>
        OtherIsSkipped(header, body, rest);
        assert Told(p) + Messages(rest) == Messages(rest);
    }
  }

  /** Any run of publish packets, with ping replies and the like between them, yields
      the published topics and payloads in order. */
  lemma {:induction false} StreamRoundTrip(packets: seq<Sent>, tail: Bytes)
    requires forall i | 0 <= i < |packets| :: Proper(packets[i])
    ensures Messages(Stream(packets) + tail) == AllTold(packets) + Messages(tail)
  {
    hide Messages, Wire, Told;
    if packets == [] {
      assert Stream(packets) + tail == tail;
      assert AllTold(packets) + Messages(tail) == Messages(tail);
    } else {
      StreamRoundTrip(packets[1..], tail);
      OneReads(packets[0], Stream(packets[1..]) + tail);
      assert Stream(packets) + tail == Wire(packets[0]) + (Stream(packets[1..]) + tail);
      assert Told(packets[0]) + (AllTold(packets[1..]) + Messages(tail)) == AllTold(packets) + Messages(tail);
    }
  }

  lemma {:induction false} CutLengthFails(n: nat, k: nat, m: nat, sum: nat)
    requires k < |Remaining(n)|
    ensures ReadLength(Remaining(n)[..k], m, sum).None?
    decreases n
  {
    if k > 0 {
      hide ReadLength;
      var d, q := n % 128, n / 128;
      ContinuedReads(d, Remaining(q)[..k - 1], m, sum);
      assert Remaining(n)[..k] == [128 + d] + Remaining(q)[..k - 1];
      CutLengthFails(q, k - 1, m * 128, sum + d * m);
    }
  }

  lemma CutPacketFails(header: Byte, body: Bytes, k: nat)
    requires k < |Framed(header, body)|
    ensures ReadPacket(Framed(header, body)[..k]).None?
  {
    hide Remaining, ReadLength;
    var s, size := Framed(header, body)[..k], |Remaining(|body|)|;
    if 0 < k <= size {
      assert s[1..] == Remaining(|body|)[..k - 1];
      CutLengthFails(|body|, k - 1, 1, 0);
    } else if k > size {
      var part := body[..k - 1 - size];
      assert s[1..] == Remaining(|body|) + part;
      if |body| < LIMIT {
        RemainingReads(|body|, part, 1, 0);
      } else {
        RemainingTooLong(|body|, part, 1, 0);
      }
    }
  }

  /** A connection that breaks off inside a packet yields the messages of the packets before
      it, whole and in order, and nothing of that one. */
  lemma BrokenStreamReads(packets: seq<Sent>, last: Sent, k: nat)
    requires (forall i | 0 <= i < |packets| :: Proper(packets[i])) && k < |Wire(last)|
    ensures Messages(Stream(packets) + Wire(last)[..k]) == AllTold(packets)
  {
    hide ReadPacket, Framed, Proper, Told, Stream, AllTold;
    StreamRoundTrip(packets, Wire(last)[..k]);
    match last {
      case Published(topic, payload) => CutPacketFails(0x30, PublishBody(topic, payload), k);
      case Other(header, body) => CutPacketFails(header, body, k);
    }
    assert AllTold(packets) + [] == AllTold(packets);
  }

  lemma OtherIsSkipped(header: Byte, body: Bytes, rest: Bytes)
    requires header / 16 != 3 && |body| < LIMIT
    ensures Messages(Framed(header, body) + rest) == Messages(rest)
  {
    hide ReadPacket;
    FramedReads(header, body, rest);
    assert [] + Messages(rest) == Messages(rest);
  }

  /** The length form is the shortest that reads as the same length, and a length that
      is read takes at most four bytes. */
  lemma LengthIsShortest(s: Bytes)
    requires ReadLength(s, 1, 0).Some?
    ensures var (n, rest) := ReadLength(s, 1, 0).value;
      |Remaining(n)| <= |s| - |rest| <= 4
  {
    hide ReadLength, Remaining, Pow128;
    var r := ReadLength(s, 1, 0).value;
    var used := UsedBytes(s);
    RemainingSize(r.0, used);
    AtMostFour(used);
  }

  lemma UsedBytes(s: Bytes) returns (used: nat)
    requires ReadLength(s, 1, 0).Some?
    ensures used == |s| - |ReadLength(s, 1, 0).value.1| && used >= 1
    ensures Pow128(used) <= LIMIT && ReadLength(s, 1, 0).value.0 < Pow128(used)
  {
    hide ReadLength, Pow128;
    LengthBytes(s, 1, 0);
    used := |s| - |ReadLength(s, 1, 0).value.1|;
  }

  lemma AtMostFour(k: nat)
    requires Pow128(k) <= LIMIT
    ensures k <= 4
  {
    hide Pow128;
    if k > 4 {
      FifthPower();
      Growing(5, k);
    }
  }

  lemma FifthPower()
    ensures Pow128(5) > LIMIT
  {
    assert Pow128(1) == 128 * Pow128(0);
    assert Pow128(2) == 128 * Pow128(1);
    assert Pow128(3) == 128 * Pow128(2);
    assert Pow128(4) == 128 * Pow128(3);
    assert Pow128(5) == 128 * Pow128(4);
  }

  lemma {:induction false} Growing(a: nat, b: nat)
    requires a <= b
    ensures Pow128(a) <= Pow128(b)
    decreases b
  {
    if a < b {
      Growing(a, b - 1);
    }
  }

  // The bytes that may still be looked at under a multiplier.
  function BytesLeft(m: nat): nat {
    if m == 1 then 4 else if m == 128 then 3 else if m == 16384 then 2 else 1
  }

  lemma {:induction false} LeftBytesDecide(s: Bytes, tail: Bytes, m: nat, sum: nat)
    requires IsMultiplier(m) && |s| >= BytesLeft(m)
    ensures match ReadLength(s, m, sum)
            case None => ReadLength(s + tail, m, sum).None?
            case Some(r) => ReadLength(s + tail, m, sum) == Some((r.0, r.1 + tail))
    decreases |s|
  {
    assert (s + tail)[0] == s[0] && (s + tail)[1..] == s[1..] + tail;
    if s[0] >= 128 && m < 2097152 {
      LeftBytesDecide(s[1..], tail, m * 128, sum + s[0] as nat % 128 * m);
    }
  }

  /** Read or refused, the length is decided by its first four bytes: what follows them
      changes neither the outcome nor the value. */
  lemma FourBytesDecide(s: Bytes, tail: Bytes)
    requires |s| == 4
    ensures match ReadLength(s, 1, 0)
            case None => ReadLength(s + tail, 1, 0).None?
            case Some(r) => ReadLength(s + tail, 1, 0) == Some((r.0, r.1 + tail))
  {
    LeftBytesDecide(s, tail, 1, 0);
  }

  function Pow128(k: nat): nat {
    if k == 0 then 1 else 128 * Pow128(k - 1)
  }

  lemma {:induction false} LengthBytes(s: Bytes, m: nat, sum: nat)
    requires IsMultiplier(m) && ReadLength(s, m, sum).Some?
    ensures var (n, rest) := ReadLength(s, m, sum).value;
      var used := |s| - |rest|;
      1 <= used && m * Pow128(used) <= LIMIT && n + m <= sum + m * Pow128(used)
    decreases |s|
  {
    hide Pow128;
    var d := s[0] as nat % 128;
    Bounded(d, m);
    PowStep(0);
    if s[0] >= 128 {
      LengthBytes(s[1..], m * 128, sum + d * m);
      var used := |s[1..]| - |ReadLength(s[1..], m * 128, sum + d * m).value.1|;
      PowStep(used);
      Reassociated(m, Pow128(used));
    }
  }

  lemma PowStep(k: nat)
    ensures Pow128(k + 1) == 128 * Pow128(k) && Pow128(0) == 1
  {
  }

  lemma Reassociated(m: nat, p: nat)
    ensures m * 128 * p == m * (128 * p)
  {
  }

  lemma Bounded(d: nat, m: nat)
    requires d < 128 && IsMultiplier(m)
    ensures d * m + m <= 128 * m <= LIMIT
  {
  }

  lemma {:induction false} RemainingSize(n: nat, used: nat)
    requires used >= 1 && n < Pow128(used)
    ensures |Remaining(n)| <= used
    decreases used
  {
    if n >= 128 {
      assert Pow128(1) == 128 * Pow128(0);
      RemainingSize(n / 128, used - 1);
    }
  }
}
