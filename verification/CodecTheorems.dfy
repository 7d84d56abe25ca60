/**
 Encoding and decoding are inverse, frame by frame and over a whole byte stream; padding and priority are invisible.
 */
module CodecTheorems {
  import opened Wrappers
  import opened Frames
  import opened Conversions
  import opened Bits
  import opened Bytes
  import opened FrameCodec

  // ---------------------------------------------------------------- the frame header

  lemma WordRoundTrip(n: u32)
    ensures IgnoreFirstBit(BigEndian(n, 4)) == n % UINT31 && Uint32(BigEndian(n, 4)) == n
  {
    UnpackWord(n);
    hide BigEndian, Value;
  }

  lemma LengthRoundTrip(n: u32)
    ensures IgnoreFirstBit(BigEndian(n, 3)) == n % UINT24
  {
    UnpackLength(n);
    hide BigEndian, Value;
  }

  /** The header keeps the type and the flags, 24 bits of the length and 31 bits of the id. */
  lemma HeaderRoundTrip(frameType: byte, id: StreamId, length: u32, flags: seq<Flag>)
    ensures DecodeHeader(HeaderBytes(frameType, id, length, flags)) ==
            FrameHeader(length % UINT24, frameType, SetAll(flags), id % UINT31)
  {
    hide BigEndian, SetAll, IgnoreFirstBit;
    var data := HeaderBytes(frameType, id, length, flags);
    assert data[0..3] == BigEndian(length, 3) && data[5..9] == BigEndian(id, 4);
    LengthRoundTrip(length);
    WordRoundTrip(id);
    BitsRoundTrip(SetAll(flags));
  }

  /** A decoded frame with the bytes that follow it. */
  function FollowedBy(r: Decoding<(Frame, Table)>, rest: seq<byte>): Decoding<(Frame, Table, seq<byte>)> {
    var (f, t) :- r;
    Decoded((f, t, rest))
  }

  /** What is left of a payload length in the header. */
  function WireLength(n: nat): (r: nat)
    ensures r <= n
  {
    n % UINT24
  }

  lemma LengthField(n: nat)
    ensures ToUint32(n) % UINT24 == WireLength(n)
  {
  }

  lemma ShortLength(n: nat)
    ensures WireLength(n) == n <==> n < UINT24
  {
  }

  /** Reading what was framed: the payload is cut to the length that 24 bits can tell. */
  lemma ReadFramed(h: Hpack, t: Table, frameType: byte, id: StreamId, flags: seq<Flag>, payload: seq<byte>,
      rest: seq<byte>)
    ensures var n := WireLength(|payload|);
            Read(h, t, Framed(frameType, id, flags, payload) + rest) ==
            FollowedBy(Decode(h, t, frameType, SetAll(flags), id % UINT31, payload[..n]), payload[n..] + rest)
  {
    hide Decode, DecodeHeader, HeaderBytes, SetAll, ToUint32, WireLength;
    var n := WireLength(|payload|);
    var header := HeaderBytes(frameType, id, ToUint32(|payload|), flags);
    var stream := Framed(frameType, id, flags, payload) + rest;
    HeaderRoundTrip(frameType, id, ToUint32(|payload|), flags);
    LengthField(|payload|);
    assert stream[..HEADER_LENGTH] == header;
    assert stream[HEADER_LENGTH..HEADER_LENGTH + n] == payload[..n];
    assert stream[HEADER_LENGTH + n..] == payload[n..] + rest;
  }

  // ---------------------------------------------------------------- one frame

  predicate HasHeader(f: Frame) {
    !f.Priority? && !f.RstStream? && !f.GoAway?
  }

  predicate AllKnown(settings: map<Setting, u32>) {
    forall key <- settings :: !IsUnknownSetting(key)
  }

  function PayloadLength(h: Hpack, t: Table, f: Frame): nat
    requires HasHeader(f)
  {
    match f
    case Data(d) => |d.data|
    case Headers(_, _, _, _, headers) => |h.encode(t, headers).0|
    case Settings(_, _, settings) => 6 * |settings|
    case PushPromise(_, _, _, headers) => 4 + |h.encode(t, headers).0|
    case Ping(_, _, _) => 8
    case WindowUpdate(_, _) => 4
  }

  /** The wire format has room for everything that the frame says. */
  predicate Expressible(f: Frame) {
    match f
    case Data(d) => d.streamId < UINT31
    case Headers(id, _, _, priority, _) => id < UINT31 && !priority
    case Settings(id, _, settings) => id < UINT31 && AllKnown(settings)
    case PushPromise(id, _, promised, _) => id < UINT31 && promised < UINT31
    case Ping(id, _, _) => id == 0
    case WindowUpdate(id, increment) => id < UINT31 && increment < UINT31
    case _ => false
  }

  predicate Encodable(h: Hpack, t: Table, f: Frame) {
    HasHeader(f) && Expressible(f) && PayloadLength(h, t, f) < UINT24
  }

  ghost predicate MayVisit(f: Frame, order: seq<Setting>) {
    Within(f, order) && (f.Settings? ==> Enumerates(order, f.settings.Keys))
  }

  function TypeOf(f: Frame): byte {
    match f
    case Data(_) => DATA_TYPE
    case Headers(_, _, _, _, _) => HEADERS_TYPE
    case Priority(_, _, _, _) => PRIORITY_TYPE
    case RstStream(_, _) => RST_STREAM_TYPE
    case Settings(_, _, _) => SETTINGS_TYPE
    case PushPromise(_, _, _, _) => PUSH_PROMISE_TYPE
    case Ping(_, _, _) => PING_TYPE
    case GoAway(_, _, _) => GOAWAY_TYPE
    case WindowUpdate(_, _) => WINDOW_UPDATE_TYPE
  }

  function FlagsOf(f: Frame): seq<Flag> {
    match f
    case Data(d) => When(END_STREAM, d.endStream)
    case Headers(_, endStream, endHeaders, _, _) => When(END_STREAM, endStream) + When(END_HEADERS, endHeaders)
    case Settings(_, ack, _) => When(ACK, ack)
    case PushPromise(_, endHeaders, _, _) => When(END_HEADERS, endHeaders)
    case Ping(_, _, ack) => When(ACK, ack)
    case _ => []
  }

  function PayloadOf(h: Hpack, t: Table, f: Frame, order: seq<Setting>): (r: seq<byte>)
    requires HasHeader(f) && Within(f, order)
  {
    match f
    case Data(d) => d.data
    case Headers(_, _, _, _, headers) => h.encode(t, headers).0
    case Settings(_, _, settings) => SettingsBytes(settings, order)
    case PushPromise(_, _, promised, headers) => BigEndian(promised, 4) + h.encode(t, headers).0
    case Ping(_, payload, _) => BigEndian(payload, 8)
    case WindowUpdate(_, increment) => BigEndian(increment, 4)
  }

  lemma EncodeIs(h: Hpack, t: Table, f: Frame, order: seq<Setting>)
    requires HasHeader(f) && MayVisit(f, order)
    ensures Encode(h, t, f, order).0 == Framed(TypeOf(f), f.GetStreamId(), FlagsOf(f), PayloadOf(h, t, f, order))
    ensures |PayloadOf(h, t, f, order)| == PayloadLength(h, t, f)
  {
    hide Framed, SettingsBytes, When;
    if f.Settings? {
      EnumerationLength(order, f.settings.Keys);
    }
    hide Enumerates;
  }

  lemma FlagsRoundTrip(a: bool, b: bool)
    ensures var bits := SetAll(When(END_STREAM, a) + When(END_HEADERS, b));
            && (IsSet(END_STREAM, bits) <==> a) && (IsSet(END_HEADERS, bits) <==> b)
            && !IsSet(PADDED, bits) && !IsSet(PRIORITY, bits)
  {
    assert SetAll([]) == 0 && SetAll([END_STREAM]) == 0x01 && SetAll([END_HEADERS]) == 0x04;
    assert [END_STREAM, END_HEADERS][..1] == [END_STREAM];
    assert SetAll([END_STREAM, END_HEADERS]) == 0x05;
  }

  /** The settings visited so far. */
  function Visited(settings: map<Setting, u32>, order: seq<Setting>): map<Setting, u32> {
    map key | key in settings && key in order :: settings[key]
  }

  lemma VisitedGrows(settings: map<Setting, u32>, init: seq<Setting>, last: Setting)
    requires last in settings
    ensures Visited(settings, init + [last]) == Visited(settings, init)[last := settings[last]]
  {
  }

  lemma LastSetting(settings: map<Setting, u32>, init: seq<Setting>, last: Setting)
    requires last in settings && forall k :: 0 <= k < |init| ==> init[k] in settings
    requires |SettingsBytes(settings, init)| % 6 == 0
    ensures var bytes := SettingsBytes(settings, init + [last]);
            && |bytes| % 6 == 0
            && ParseSettings(bytes) == match ParseSettings(SettingsBytes(settings, init))
                                       case None => None
                                       case Some(m) =>
                                         if IsUnknownSetting(last) then None
                                         else Some(m[last := settings[last]])
  {
    hide SettingsBytes, BigEndian, Value, IsUnknownSetting, ParseSettings;
    SettingsAppend(settings, init, last);
    UnpackShort(last);
    UnpackWord(settings[last]);
    ParseAppend(SettingsBytes(settings, init), BigEndian(last, 2), BigEndian(settings[last], 4));
  }

  lemma ParseAppend(front: seq<byte>, two: seq<byte>, four: seq<byte>)
    requires |front| % 6 == 0 && |two| == 2 && |four| == 4
    ensures ParseSettings(front + (two + four)) ==
            match ParseSettings(front)
            case None => None
            case Some(m) => if IsUnknownSetting(Uint16(two)) then None else Some(m[Uint16(two) := Uint32(four)])
  {
    hide Uint16, Uint32, IsUnknownSetting;
    var bytes, n := front + (two + four), |front|;
    assert bytes[..n] == front && bytes[n..n + 2] == two && bytes[n + 2..n + 6] == four;
  }

  lemma {:induction false} SettingsRoundTrip(settings: map<Setting, u32>, order: seq<Setting>)
    requires forall k :: 0 <= k < |order| ==> order[k] in settings
    ensures |SettingsBytes(settings, order)| % 6 == 0
    ensures ParseSettings(SettingsBytes(settings, order)) ==
            if forall k :: 0 <= k < |order| ==> !IsUnknownSetting(order[k])
            then Some(Visited(settings, order)) else None
    decreases order
  {
    hide IsUnknownSetting;
    if order == [] {
      assert Visited(settings, order) == map[];
    } else {
      var init, last := order[..|order| - 1], order[|order| - 1];
      assert init + [last] == order;
      SettingsRoundTrip(settings, init);
      LastSetting(settings, init, last);
      VisitedGrows(settings, init, last);
      hide SettingsBytes, ParseSettings, Visited;
      assert forall k :: 0 <= k < |init| ==> init[k] == order[k];
    }
  }

  lemma SettingsDecode(f: Frame, order: seq<Setting>)
    requires f.Settings? && Enumerates(order, f.settings.Keys)
    ensures var id, bytes := f.streamId % UINT31, SettingsBytes(f.settings, order);
            DecodeSettings(SetAll(When(ACK, f.ack)), id, bytes) ==
            if AllKnown(f.settings) then Decoded(Settings(id, f.ack, f.settings)) else Rejected
  {
    SettingsRoundTrip(f.settings, order);
    assert When(END_STREAM, f.ack) + When(END_HEADERS, false) == When(ACK, f.ack);
    FlagsRoundTrip(f.ack, false);
    assert Visited(f.settings, order) == f.settings;
    hide IsUnknownSetting, SetAll, IsSet, ParseSettings, SettingsBytes, When;
    if AllKnown(f.settings) {
      assert forall k :: 0 <= k < |order| ==> order[k] in f.settings;
    } else {
      var key :| key in f.settings && IsUnknownSetting(key);
      assert key in f.settings.Keys;
      var k :| 0 <= k < |order| && order[k] == key;
    }
  }

  lemma HeadersDecode(h: Hpack, t: Table, f: Frame)
    requires IsInverse(h) && f.Headers?
    ensures var id, (block, t') := f.streamId % UINT31, h.encode(t, f.headers);
            DecodeHeaders(h, t, SetAll(FlagsOf(f)), id, block) == Decoded((f.(streamId := id, priority := false), t'))
  {
    FlagsRoundTrip(f.endStream, f.endHeaders);
    hide SetAll, IsSet, When;
  }

  lemma PromiseDecode(h: Hpack, t: Table, f: Frame)
    requires IsInverse(h) && f.PushPromise?
    ensures var id, (block, t') := f.streamId % UINT31, h.encode(t, f.headers);
            DecodePushPromise(h, t, SetAll(FlagsOf(f)), id, BigEndian(f.promisedStreamId, 4) + block) ==
            Decoded((f.(streamId := id, promisedStreamId := f.promisedStreamId % UINT31), t'))
  {
    assert When(END_STREAM, false) + When(END_HEADERS, f.endHeaders) == FlagsOf(f);
    FlagsRoundTrip(false, f.endHeaders);
    WordRoundTrip(f.promisedStreamId);
    hide SetAll, IsSet, When, FlagsOf, BigEndian, IgnoreFirstBit;
    var payload := BigEndian(f.promisedStreamId, 4) + h.encode(t, f.headers).0;
    assert payload[0..4] == BigEndian(f.promisedStreamId, 4) && payload[4..] == h.encode(t, f.headers).0;
  }

  lemma SmallDecode(f: Frame)
    requires f.Data? || f.Ping? || f.WindowUpdate?
    ensures var id, bits := f.GetStreamId() % UINT31, SetAll(FlagsOf(f));
            match f
            case Data(d) => DecodeData(bits, id, d.data) == Decoded(Data(d.(streamId := id)))
            case Ping(_, payload, _) =>
              DecodePing(bits, id, BigEndian(payload, 8)) ==
              if id == 0 then Decoded(Ping(0, payload, f.ack)) else Rejected
            case WindowUpdate(_, increment) =>
              DecodeWindowUpdate(id, BigEndian(increment, 4)) == Decoded(WindowUpdate(id, increment % UINT31))
  {
    hide BigEndian, Value, SetAll, IgnoreFirstBit, IsSet, Uint64;
    match f {
      case Data(d) =>
        assert When(END_STREAM, d.endStream) + When(END_HEADERS, false) == FlagsOf(f);
        FlagsRoundTrip(d.endStream, false);
      case Ping(_, payload, ack) =>
        assert When(END_STREAM, ack) + When(END_HEADERS, false) == FlagsOf(f);
        FlagsRoundTrip(ack, false);
        UnpackLong(payload);
      case WindowUpdate(_, increment) =>
        WordRoundTrip(increment);
        assert BigEndian(increment, 4)[0..4] == BigEndian(increment, 4);
    }
  }

  /** What a payload decodes to under the header that `f` is sent with. */
  function DecodeOwn(h: Hpack, t: Table, f: Frame, payload: seq<byte>): Decoding<(Frame, Table)> {
    Decode(h, t, TypeOf(f), SetAll(FlagsOf(f)), f.GetStreamId() % UINT31, payload)
  }

  /** The payload of a frame decodes to the frame exactly when the wire format has room for all of it. */
  lemma PayloadRoundTrip(h: Hpack, t: Table, f: Frame, order: seq<Setting>)
    requires IsInverse(h) && HasHeader(f) && MayVisit(f, order)
    ensures DecodeOwn(h, t, f, PayloadOf(h, t, f, order)) == Decoded((f, Encode(h, t, f, order).1)) <==> Expressible(f)
  {
    hide SetAll, BigEndian, DecodeData, DecodeHeaders, DecodeSettings, DecodePushPromise, DecodePing,
        DecodeWindowUpdate,
         SettingsBytes, Framed, When, AllKnown;
    match f {
      case Headers(_, _, _, _, _) => HeadersDecode(h, t, f);
      case Settings(_, _, _) => SettingsDecode(f, order);
      case PushPromise(_, _, _, _) => PromiseDecode(h, t, f);
      case _ => SmallDecode(f);
    }
    hide IsInverse, Enumerates;
  }

  ghost predicate RoundTrips(h: Hpack, t: Table, f: Frame, order: seq<Setting>)
    requires MayVisit(f, order)
  {
    Read(h, t, Encode(h, t, f, order).0) == Decoded((f, Encode(h, t, f, order).1, []))
  }

  lemma ReadEncoded(h: Hpack, t: Table, f: Frame, order: seq<Setting>, rest: seq<byte>)
    requires HasHeader(f) && MayVisit(f, order)
    ensures var payload := PayloadOf(h, t, f, order);
            var n := WireLength(|payload|);
            && |payload| == PayloadLength(h, t, f)
            && Read(h, t, Encode(h, t, f, order).0 + rest) ==
                FollowedBy(DecodeOwn(h, t, f, payload[..n]), payload[n..] + rest)
  {
    EncodeIs(h, t, f, order);
    hide Decode, Read, Encode, PayloadLength, SetAll, Framed, PayloadOf, FlagsOf, TypeOf;
    ReadFramed(h, t, TypeOf(f), f.GetStreamId(), FlagsOf(f), PayloadOf(h, t, f, order), rest);
  }

  lemma ReadBack(h: Hpack, t: Table, f: Frame, order: seq<Setting>, rest: seq<byte>)
    requires IsInverse(h) && HasHeader(f) && MayVisit(f, order) && Encodable(h, t, f)
    ensures Read(h, t, Encode(h, t, f, order).0 + rest) == Decoded((f, Encode(h, t, f, order).1, rest))
  {
    hide WireLength, DecodeOwn, Read, Encode, PayloadLength, PayloadOf, IsInverse, Expressible, Enumerates;
    ReadEncoded(h, t, f, order, rest);
    PayloadRoundTrip(h, t, f, order);
    var payload := PayloadOf(h, t, f, order);
    ShortLength(|payload|);
    assert payload[..|payload|] == payload && payload[|payload|..] + rest == rest;
  }

  lemma FollowedByNothing(r: Decoding<(Frame, Table)>, rest: seq<byte>, f: Frame, t: Table)
    ensures FollowedBy(r, rest) == Decoded((f, t, [])) <==> r == Decoded((f, t)) && rest == []
  {
    if r.Decoded? {
      assert r.value == (r.value.0, r.value.1);
    }
  }

  /** Either bytes are left over, or the frame comes back changed. */
  lemma ReadBackFails(h: Hpack, t: Table, f: Frame, order: seq<Setting>)
    requires IsInverse(h) && HasHeader(f) && MayVisit(f, order) && !Encodable(h, t, f)
    ensures !RoundTrips(h, t, f, order)
  {
    hide WireLength, DecodeOwn, Read, Encode, PayloadLength, PayloadOf, IsInverse, Expressible, FollowedBy, Enumerates;
    ReadEncoded(h, t, f, order, []);
    PayloadRoundTrip(h, t, f, order);
    var (bytes, t') := Encode(h, t, f, order);
    assert bytes + [] == bytes;
    NotAllOrNotTheSame(h, t, f, t', PayloadOf(h, t, f, order), Read(h, t, bytes));
  }

  lemma NotAllOrNotTheSame(h: Hpack, t: Table, f: Frame, t': Table, payload: seq<byte>,
      r: Decoding<(Frame, Table, seq<byte>)>)
    requires var n := WireLength(|payload|); r == FollowedBy(DecodeOwn(h, t, f, payload[..n]), payload[n..] + [])
    requires |payload| >= UINT24 || DecodeOwn(h, t, f, payload) != Decoded((f, t'))
    ensures r != Decoded((f, t', []))
  {
    hide WireLength, DecodeOwn, FollowedBy;
    var n := WireLength(|payload|);
    FollowedByNothing(DecodeOwn(h, t, f, payload[..n]), payload[n..] + [], f, t');
    ShortLength(|payload|);
    if n == |payload| {
      assert payload[..n] == payload;
    }
  }

  /**
   Reading what Encode wrote gives back the frame and nothing more exactly for the encodable frames: those with a
   header, a payload below 2^24 bytes, 31-bit ids and increments, known settings and, for PING, id 0.
   */
  lemma FrameRoundTrip(h: Hpack, t: Table, f: Frame, order: seq<Setting>)
    requires IsInverse(h) && MayVisit(f, order)
    ensures RoundTrips(h, t, f, order) <==> Encodable(h, t, f)
  {
    if !HasHeader(f) {
      HeaderlessIsUnreadable(h, t, f);
      hide Read, Encode;
    } else if Encodable(h, t, f) {
      ReadBack(h, t, f, order, []);
      assert Encode(h, t, f, order).0 + [] == Encode(h, t, f, order).0;
      hide Read, Encode, Expressible, PayloadLength;
    } else {
      ReadBackFails(h, t, f, order);
    }
  }

  /** PRIORITY, RST_STREAM and GOAWAY go out without a frame header: at most 8 bytes, which are no frame. */
  lemma HeaderlessIsUnreadable(h: Hpack, t: Table, f: Frame)
    requires !HasHeader(f)
    ensures |Encode(h, t, f, []).0| < HEADER_LENGTH && Read(h, t, Encode(h, t, f, []).0) == Rejected
    ensures forall order :: Encode(h, t, f, order) == Encode(h, t, f, [])
  {
    hide BigEndian, Decode, SetBits;
  }

  // ---------------------------------------------------------------- the byte stream

  /** All the frames of a byte stream, one after the other. */
  function ReadAll(h: Hpack, t: Table, stream: seq<byte>): Decoding<seq<Frame>>
    decreases |stream|
  {
    if stream == [] then Decoded([])
    else
      var (f, t', rest) :- Read(h, t, stream);
      var fs :- ReadAll(h, t', rest);
      Decoded([f] + fs)
  }

  /** Frames encoded one after the other, their settings visited in the given orders. */
  function EncodeAll(h: Hpack, t: Table, fs: seq<Frame>, orders: seq<seq<Setting>>): seq<byte>
    requires |orders| == |fs| && forall k :: 0 <= k < |fs| ==> Within(fs[k], orders[k])
    decreases |fs|
  {
    if fs == [] then []
    else
      var (bytes, t') := Encode(h, t, fs[0], orders[0]);
      bytes + EncodeAll(h, t', fs[1..], orders[1..])
  }

  ghost predicate AllVisited(fs: seq<Frame>, orders: seq<seq<Setting>>) {
    |orders| == |fs| && forall k :: 0 <= k < |fs| ==> MayVisit(fs[k], orders[k])
  }

  /** Each frame is encodable with the compression state that the frames before it leave. */
  predicate AllEncodable(h: Hpack, t: Table, fs: seq<Frame>)
    decreases |fs|
  {
    fs != [] ==> Encodable(h, t, fs[0]) && AllEncodable(h, TableAfter(h, t, fs[0]), fs[1..])
  }

  function TableAfter(h: Hpack, t: Table, f: Frame): Table {
    if f.Headers? || f.PushPromise? then h.encode(t, f.headers).1 else t
  }

  lemma TableAfterEncode(h: Hpack, t: Table, f: Frame, order: seq<Setting>)
    requires MayVisit(f, order)
    ensures Encode(h, t, f, order).1 == TableAfter(h, t, f)
  {
    hide Framed, BigEndian, SetBits, SettingsBytes;
  }

  /**
   Framing: whatever the frames and the orders of their settings, reading the stream gives the list and leaves no byte.
   */
  lemma {:induction false} StreamRoundTrip(h: Hpack, t: Table, fs: seq<Frame>, orders: seq<seq<Setting>>)
    requires IsInverse(h) && AllVisited(fs, orders) && AllEncodable(h, t, fs)
    ensures ReadAll(h, t, EncodeAll(h, t, fs, orders)) == Decoded(fs)
    decreases |fs|
  {
    hide Read, Encode, IsInverse, Encodable, Enumerates;
    if fs != [] {
      var f, order := fs[0], orders[0];
      assert MayVisit(f, order) && Within(f, order);
      assert AllVisited(fs[1..], orders[1..]);
      TableAfterEncode(h, t, f, order);
      var (bytes, t') := Encode(h, t, f, order);
      StreamRoundTrip(h, t', fs[1..], orders[1..]);
      var rest := EncodeAll(h, t', fs[1..], orders[1..]);
      assert HasHeader(f) by { EncodableHasHeader(h, t, f); }
      ReadBack(h, t, f, order, rest);
      EncodesToSomething(h, t, f, order);
      assert [f] + fs[1..] == fs;
    }
  }

  lemma EncodableHasHeader(h: Hpack, t: Table, f: Frame)
    requires Encodable(h, t, f)
    ensures HasHeader(f)
  {
  }

  lemma EncodesToSomething(h: Hpack, t: Table, f: Frame, order: seq<Setting>)
    requires HasHeader(f) && MayVisit(f, order)
    ensures Encode(h, t, f, order).0 != []
  {
    EncodeIs(h, t, f, order);
    hide PayloadOf, HeaderBytes, Encode, MayVisit;
  }

  /** Nothing longer than 24 bits can tell, and no id beyond 31 bits, ever comes off the wire. */
  lemma ReadIsBounded(h: Hpack, t: Table, stream: seq<byte>)
    requires Read(h, t, stream).Decoded?
    ensures var (f, _, rest) := Read(h, t, stream).value;
            && f.GetStreamId() < UINT31
            && (f.Data? ==> |f.frame.data| < UINT24)
            && (f.WindowUpdate? ==> f.increment < UINT31)
            && (f.Priority? ==> !f.exclusive)
            && |rest| < |stream|
  {
    var header := DecodeHeader(stream[..HEADER_LENGTH]);
    LengthIsBounded(stream[0..3]);
    assert stream[..HEADER_LENGTH][0..3] == stream[0..3];
    DecodeIsBounded(h, t, header.headerType, header.flags, header.streamId,
        stream[HEADER_LENGTH..HEADER_LENGTH + header.length]);
    hide Decode, IgnoreFirstBit;
  }

  lemma LengthIsBounded(b: seq<byte>)
    requires |b| == 3
    ensures IgnoreFirstBit(b) < UINT24
  {
    ValueOfFour([0] + b);
    LeadingZeros(1, b);
    assert Zeros(1) == [0];
    hide Value, Zeros;
  }

  lemma HighBitIsNotOne(b: bv8)
    ensures b & 0x80 != 1
  {
  }

  lemma DecodeIsBounded(h: Hpack, t: Table, frameType: byte, flags: bv8, id: StreamId, payload: seq<byte>)
    requires Decode(h, t, frameType, flags, id, payload).Decoded?
    ensures var f := Decode(h, t, frameType, flags, id, payload).value.0;
            && f.GetStreamId() == id
            && (f.Data? ==> |f.frame.data| <= |payload|)
            && (f.WindowUpdate? ==> f.increment < UINT31)
            && (f.Priority? ==> !f.exclusive)
  {
    hide IgnoreFirstBit, IsSet, ParseSettings, Uint64;
    if |payload| > 0 {
      HighBitIsNotOne(payload[0] as bv8);
    }
  }

  // ---------------------------------------------------------------- padding and priority

  /** A payload with its pad length in front and the padding behind. */
  function Padding(payload: seq<byte>, pad: seq<byte>): seq<byte>
    requires |pad| < 256
  {
    [|pad|] + payload + pad
  }

  lemma StripUndoesPadding(data: seq<byte>, pad: seq<byte>)
    requires |pad| < 256
    ensures StripPadding(Padding(data, pad)) == Decoded(data)
  {
    var payload := Padding(data, pad);
    assert payload[1..|payload| - |pad|] == data;
  }

  /** Stripping undoes padding and accepts nothing else. */
  lemma StripPaddingExact(payload: seq<byte>, data: seq<byte>)
    ensures StripPadding(payload) == Decoded(data) <==> exists pad :: |pad| < 256 && payload == Padding(data, pad)
  {
    if StripPadding(payload) == Decoded(data) {
      var pad := payload[|payload| - payload[0]..];
      assert payload == Padding(data, pad);
    }
    forall pad | |pad| < 256 && payload == Padding(data, pad) ensures StripPadding(payload) == Decoded(data) {
      StripUndoesPadding(data, pad);
    }
    hide StripPadding, Padding;
  }

  lemma FlagsAside(flags: bv8)
    ensures IsSet(PADDED, flags | PADDED) && IsSet(PRIORITY, flags | PRIORITY)
    ensures IsSet(END_STREAM, flags | PADDED) == IsSet(END_STREAM, flags)
    ensures IsSet(END_HEADERS, flags | PADDED) == IsSet(END_HEADERS, flags)
    ensures IsSet(PRIORITY, flags | PADDED) == IsSet(PRIORITY, flags)
    ensures IsSet(END_STREAM, flags | PRIORITY) == IsSet(END_STREAM, flags)
    ensures IsSet(END_HEADERS, flags | PRIORITY) == IsSet(END_HEADERS, flags)
    ensures IsSet(PADDED, flags | PRIORITY) == IsSet(PADDED, flags)
  {
  }

  /** Padding is invisible: a padded frame decodes to what the same frame without padding does, errors included. */
  lemma PaddingIsInvisible(h: Hpack, t: Table, frameType: byte, flags: bv8, id: StreamId, payload: seq<byte>,
      pad: seq<byte>)
    requires frameType in {0x00, 0x01, 0x05} && flags & 0x08 == 0 && |pad| < 256
    ensures Decode(h, t, frameType, flags | 0x08, id, [|pad|] + payload + pad) ==
            Decode(h, t, frameType, flags, id, payload)
  {
    FlagsAside(flags);
    StripPaddingExact(Padding(payload, pad), payload);
    hide IsSet, StripPadding, Padding, IgnoreFirstBit;
  }

  /** A priority section is invisible but for the Priority flag, provided that a header block follows it. */
  lemma PriorityIsInvisible(h: Hpack, t: Table, flags: bv8, id: StreamId, section: seq<byte>, block: seq<byte>)
    requires flags & 0x08 == 0 && flags & 0x20 == 0 && |section| == 5
    ensures Decode(h, t, 0x01, flags | 0x20, id, section + block) ==
            if block == [] then Rejected
            else match Decode(h, t, 0x01, flags, id, block)
              case Decoded((f, t')) => if f.Headers? then Decoded((f.(priority := true), t')) else Rejected
              case Rejected => Rejected
              case Panicked => Panicked
  {
    FlagsAside(flags);
    assert block != [] ==> (section + block)[5..] == block;
  }

  /** The decoder panics only on a padded frame without payload and on a promise too short for its promised id. */
  lemma DecodePanics(h: Hpack, t: Table, frameType: byte, flags: bv8, id: StreamId, payload: seq<byte>)
    ensures Decode(h, t, frameType, flags, id, payload).Panicked? <==>
            || (frameType in {0x00, 0x01, 0x05} && flags & 0x08 != 0 && payload == [])
            || (frameType == 0x05 && Unpad(flags, payload).Decoded? && |Unpad(flags, payload).value| < 4)
  {
    hide IgnoreFirstBit, Uint64, ParseSettings;
  }
}
