/** Frames to bytes and back (RFC 7540, section 4.1 and sections 6.1 to 6.9), as the client does it. */
module FrameCodec {
  import opened Wrappers
  import opened Frames
  import opened Bits
  import opened Bytes

  const DATA_TYPE: byte := 0x00
  const HEADERS_TYPE: byte := 0x01
  const PRIORITY_TYPE: byte := 0x02
  const RST_STREAM_TYPE: byte := 0x03
  const SETTINGS_TYPE: byte := 0x04
  const PUSH_PROMISE_TYPE: byte := 0x05
  const PING_TYPE: byte := 0x06
  const GOAWAY_TYPE: byte := 0x07
  const WINDOW_UPDATE_TYPE: byte := 0x08

  const END_STREAM: Flag := 0x01
  const ACK: Flag := 0x01
  const END_HEADERS: Flag := 0x04
  const PADDED: Flag := 0x08
  const PRIORITY: Flag := 0x20

  const HEADER_LENGTH := 9
  const UINT24 := 0x100_0000

  /** HPACK (RFC 7541), whose library is not part of this model: header blocks depend on a dynamic table. */
  type Table = seq<HeaderField>
  datatype Hpack = Hpack(
    encode: (Table, seq<HeaderField>) -> (seq<byte>, Table),
    decode: (Table, seq<byte>) -> Option<(seq<HeaderField>, Table)>)

  /** What the decoder of the peer owes to the encoder. */
  ghost predicate IsInverse(h: Hpack) {
    forall t, headers :: h.decode(t, h.encode(t, headers).0) == Some((headers, h.encode(t, headers).1))
  }

  /** A decoder's result: a value, an error it returns, or a panic. */
  datatype Decoding<+T> = Decoded(value: T) | Rejected | Panicked {
    predicate IsFailure() { !Decoded? }

    function PropagateFailure<U>(): Decoding<U>
      requires !Decoded?
    {
      if Rejected? then Rejected else Panicked
    }

    function Extract(): T
      requires Decoded?
    {
      value
    }
  }

  // ---------------------------------------------------------------- frame header

  datatype FrameHeader = FrameHeader(length: u32, headerType: byte, flags: bv8, streamId: StreamId)

  function HeaderBytes(frameType: byte, id: StreamId, length: u32, flags: seq<Flag>): (r: seq<byte>)
    ensures |r| == HEADER_LENGTH
  {
    BigEndian(length, 3) + [frameType, SetAll(flags) as int] + BigEndian(id, 4)
  }

  function DecodeHeader(data: seq<byte>): FrameHeader
    requires |data| == HEADER_LENGTH
  {
    FrameHeader(IgnoreFirstBit(data[0..3]), data[3], data[4] as bv8, IgnoreFirstBit(data[5..9]))
  }

  /** binary.BigEndian.PutUint16, PutUint32 and PutUint64: the buffer is filled from its end. */
  method PutBigEndian(buffer: array<byte>, n: nat)
    modifies buffer
    ensures buffer[..] == BigEndian(n, buffer.Length)
  {
    var i, rest := buffer.Length, n;
    while i > 0
      invariant 0 <= i <= buffer.Length
      invariant BigEndian(n, buffer.Length) == BigEndian(rest, i) + buffer[i..]
    {
      i := i - 1;
      assert BigEndian(rest, i + 1) == BigEndian(rest / 256, i) + [rest % 256];
      ghost var after := buffer[i + 1..];
      buffer[i] := rest % 256;
      assert buffer[i..] == [rest % 256] + after;
      rest := rest / 256;
    }
  }

  method SetFlag(buffer: array<byte>, flag: Flag)
    requires buffer.Length > 0
    modifies buffer
    ensures buffer[..] == old(buffer[..])[0 := SetBits(old(buffer[0]), flag)]
  {
    buffer[0] := SetBits(buffer[0], flag);
  }

  method SetFlags(buffer: array<byte>, flags: seq<Flag>)
    requires buffer.Length > 0 && buffer[0] == 0
    modifies buffer
    ensures buffer[..] == old(buffer[..])[0 := SetAll(flags) as int]
  {
    var i := 0;
    while i < |flags|
      invariant 0 <= i <= |flags|
      invariant buffer[..] == old(buffer[..])[0 := SetAll(flags[..i]) as int]
    {
      SetOneMore(SetAll(flags[..i]), flags[i]);
      assert flags[..i + 1][..i] == flags[..i];
      hide SetBits;
      SetFlag(buffer, flags[i]);
      i := i + 1;
    }
    assert flags[..i] == flags;
  }

  /** One 4-byte buffer serves for the length, the type, the flags and the id, one after the other. */
  method EncodeHeader(frameType: byte, id: StreamId, length: u32, flags: seq<Flag>) returns (result: seq<byte>)
    ensures result == HeaderBytes(frameType, id, length, flags)
  {
    hide BigEndian, SetAll;
    var bytes: array<byte> := new byte[4](_ => 0);
    PutBigEndian(bytes, length);
    result := bytes[..][1..];
    DropHighByte(length, 3);
    bytes[0] := frameType;
    result := result + [bytes[0]];
    bytes[0] := 0;
    SetFlags(bytes, flags);
    result := result + [bytes[0]];
    PutBigEndian(bytes, id);
    result := result + bytes[..];
  }

  // ---------------------------------------------------------------- decoding

  function StripPadding(payload: seq<byte>): Decoding<seq<byte>> {
    if payload == [] then Panicked
    else if |payload| <= payload[0] then Rejected
    else Decoded(payload[1..|payload| - payload[0]])
  }

  function Unpad(flags: bv8, payload: seq<byte>): Decoding<seq<byte>> {
    if IsSet(PADDED, flags) then StripPadding(payload) else Decoded(payload)
  }

  /** Must be called after padding has been stripped. */
  function StripPriority(payload: seq<byte>): Decoding<seq<byte>> {
    if |payload| <= 5 then Rejected else Decoded(payload[5..])
  }

  function DecodeData(flags: bv8, id: StreamId, payload: seq<byte>): Decoding<Frame> {
    var data :- Unpad(flags, payload);
    Decoded(Data(DataFrame(id, data, IsSet(END_STREAM, flags))))
  }

  function DecodeHeaders(h: Hpack, t: Table, flags: bv8, id: StreamId, payload: seq<byte>): Decoding<(Frame, Table)> {
    var unpadded :- Unpad(flags, payload);
    var block :- if IsSet(PRIORITY, flags) then StripPriority(unpadded) else Decoded(unpadded);
    match h.decode(t, block)
    case None => Rejected
    case Some((headers, t')) =>
      Decoded((Headers(id, IsSet(END_STREAM, flags), IsSet(END_HEADERS, flags), IsSet(PRIORITY, flags), headers), t'))
  }

  /** The exclusive bit is compared with 1 after a mask with 0x80, as in the program. */
  function DecodePriority(id: StreamId, payload: seq<byte>): Decoding<Frame> {
    if |payload| != 5 then Rejected
    else Decoded(Priority(id, IgnoreFirstBit(payload[0..4]), payload[4], (payload[0] as bv8) & 0x80 == 1))
  }

  function DecodeRstStream(id: StreamId, payload: seq<byte>): Decoding<Frame> {
    if |payload| != 4 then Rejected else Decoded(RstStream(id, Uint32(payload)))
  }

  predicate IsUnknownSetting(setting: Setting) {
    setting !in {SETTINGS_HEADER_TABLE_SIZE, SETTINGS_ENABLE_PUSH, SETTINGS_MAX_CONCURRENT_STREAMS,
                 SETTINGS_INITIAL_WINDOW_SIZE, SETTINGS_MAX_FRAME_SIZE, SETTINGS_MAX_HEADER_LIST_SIZE}
  }

  function Uint16(b: seq<byte>): (r: u16)
    requires |b| == 2
    ensures r == Value(b)
  {
    assert b[..1][..0] == [];
    assert Value(b) == 256 * Value(b[..1]) + b[1] && Value(b[..1]) == 256 * Value([]) + b[0];
    256 * b[0] as int + b[1] as int
  }

  /** The settings of a payload; of a setting that is repeated the last value counts. */
  function ParseSettings(payload: seq<byte>): Option<map<Setting, u32>>
    requires |payload| % 6 == 0
  {
    if payload == [] then Some(map[])
    else
      var n := |payload| - 6;
      var setting := Uint16(payload[n..n + 2]);
      match ParseSettings(payload[..n])
      case None => None
      case Some(settings) =>
        if IsUnknownSetting(setting) then None else Some(settings[setting := Uint32(payload[n + 2..n + 6])])
  }

  function DecodeSettings(flags: bv8, id: StreamId, payload: seq<byte>): Decoding<Frame> {
    if |payload| % 6 != 0 then Rejected
    else match ParseSettings(payload)
      case None => Rejected
      case Some(settings) => Decoded(Settings(id, IsSet(ACK, flags), settings))
  }

  /** The loop of DecodeSettingsFrame stops at the first unknown setting. */
  method DecodeSettingsPayload(payload: seq<byte>) returns (result: Option<map<Setting, u32>>)
    requires |payload| % 6 == 0
    ensures result == ParseSettings(payload)
  {
    var settings: map<Setting, u32> := map[];
    var i := 0;
    assert ParseSettings(payload[..0]) == Some(map[]);
    hide ParseSettings, Uint16, Uint32, IsUnknownSetting;
    while i < |payload|
      invariant 0 <= i <= |payload| && i % 6 == 0
      invariant ParseSettings(payload[..i]) == Some(settings)
    {
      NextSix(i, |payload|);
      ParseOne(payload, i);
      var setting := Uint16(payload[i..i + 2]);
      var value := Uint32(payload[i + 2..i + 6]);
      if IsUnknownSetting(setting) {
        UnknownPrefix(payload, i + 6);
        return None;
      }
      settings := settings[setting := value];
      i := i + 6;
    }
    assert payload[..i] == payload;
    return Some(settings);
  }

  lemma NextSix(i: nat, n: nat)
    requires i % 6 == n % 6 == 0 && i < n
    ensures i + 6 <= n && (i + 6) % 6 == 0
  {
  }

  lemma ParseOne(payload: seq<byte>, i: nat)
    requires i + 6 <= |payload| && i % 6 == (i + 6) % 6 == 0 && ParseSettings(payload[..i]).Some?
    ensures var setting := Uint16(payload[i..i + 2]);
            ParseSettings(payload[..i + 6]) ==
              if IsUnknownSetting(setting) then None
              else Some(ParseSettings(payload[..i]).value[setting := Uint32(payload[i + 2..i + 6])])
  {
    hide Uint16, Uint32, IsUnknownSetting;
    var next := payload[..i + 6];
    assert next[..i] == payload[..i] && next[i..i + 2] == payload[i..i + 2]
        && next[i + 2..i + 6] == payload[i + 2..i + 6];
  }

  lemma {:induction false} UnknownPrefix(payload: seq<byte>, i: nat)
    requires |payload| % 6 == 0 && i <= |payload| && i % 6 == 0 && ParseSettings(payload[..i]) == None
    ensures ParseSettings(payload) == None
    decreases |payload|
  {
    if i == |payload| {
      assert payload[..i] == payload;
    } else {
      var init := payload[..|payload| - 6];
      assert init[..i] == payload[..i];
      UnknownPrefix(init, i);
    }
  }

  function DecodePushPromise(h: Hpack, t: Table, flags: bv8, id: StreamId, payload: seq<byte>): Decoding<(Frame,
      Table)> {
    var unpadded :- Unpad(flags, payload);
    if |unpadded| < 4 then Panicked
    else match h.decode(t, unpadded[4..])
      case None => Rejected
      case Some((headers, t')) =>
        Decoded((PushPromise(id, IsSet(END_HEADERS, flags), IgnoreFirstBit(unpadded[0..4]), headers), t'))
  }

  function Uint64(b: seq<byte>): (r: u64)
    requires |b| == 8
    ensures r == Value(b)
  {
    ValueOfHalves(b);
    Uint32(b[..4]) as int * 0x1_0000_0000 + Uint32(b[4..]) as int
  }

  lemma ValueOfHalves(b: seq<byte>)
    requires |b| == 8
    ensures Value(b) == Value(b[..4]) * 0x1_0000_0000 + Value(b[4..])
  {
    var h := b[4..];
    ValueOfFour(h);
    assert b[..8] == b && b[..8][..7] == b[..7] && b[..7][..6] == b[..6] && b[..6][..5] == b[..5]
        && b[..5][..4] == b[..4];
    assert Value(b[..5]) == 256 * Value(b[..4]) + b[4] && Value(b[..6]) == 256 * Value(b[..5]) + b[5];
    assert Value(b[..7]) == 256 * Value(b[..6]) + b[6] && Value(b[..8]) == 256 * Value(b[..7]) + b[7];
  }

  function DecodePing(flags: bv8, id: StreamId, payload: seq<byte>): Decoding<Frame> {
    if id != 0 || |payload| != 8 then Rejected else Decoded(Ping(id, Uint64(payload), IsSet(ACK, flags)))
  }

  function DecodeGoAway(id: StreamId, payload: seq<byte>): Decoding<Frame> {
    if |payload| < 8 then Rejected else Decoded(GoAway(id, IgnoreFirstBit(payload[0..4]), Uint32(payload[4..8])))
  }

  function DecodeWindowUpdate(id: StreamId, payload: seq<byte>): Decoding<Frame> {
    if |payload| < 4 then Rejected else Decoded(WindowUpdate(id, IgnoreFirstBit(payload[0..4])))
  }

  function WithTable(r: Decoding<Frame>, t: Table): Decoding<(Frame, Table)> {
    var f :- r;
    Decoded((f, t))
  }

  /** FindDecoder and the call of the decoder it finds. */
  function Decode(h: Hpack, t: Table, frameType: byte, flags: bv8, id: StreamId, payload: seq<byte>): Decoding<(Frame,
      Table)> {
    if frameType == DATA_TYPE then WithTable(DecodeData(flags, id, payload), t)
    else if frameType == HEADERS_TYPE then DecodeHeaders(h, t, flags, id, payload)
    else if frameType == PRIORITY_TYPE then WithTable(DecodePriority(id, payload), t)
    else if frameType == RST_STREAM_TYPE then WithTable(DecodeRstStream(id, payload), t)
    else if frameType == SETTINGS_TYPE then WithTable(DecodeSettings(flags, id, payload), t)
    else if frameType == PUSH_PROMISE_TYPE then DecodePushPromise(h, t, flags, id, payload)
    else if frameType == PING_TYPE then WithTable(DecodePing(flags, id, payload), t)
    else if frameType == GOAWAY_TYPE then WithTable(DecodeGoAway(id, payload), t)
    else if frameType == WINDOW_UPDATE_TYPE then WithTable(DecodeWindowUpdate(id, payload), t)
    else Rejected
  }

  /** One frame read from the front of the bytes that the connection delivers, and the bytes that are left. */
  function Read(h: Hpack, t: Table, stream: seq<byte>): Decoding<(Frame, Table, seq<byte>)> {
    if |stream| < HEADER_LENGTH then Rejected
    else
      var header := DecodeHeader(stream[..HEADER_LENGTH]);
      var end := HEADER_LENGTH + header.length;
      if |stream| < end then Rejected
      else
        var (f, t') :- Decode(h, t, header.headerType, header.flags, header.streamId, stream[HEADER_LENGTH..end]);
        Decoded((f, t', stream[end..]))
  }

  // ---------------------------------------------------------------- encoding

  function When(flag: Flag, condition: bool): seq<Flag> {
    if condition then [flag] else []
  }

  /** The settings in the order in which the map happens to be visited. */
  function SettingsBytes(settings: map<Setting, u32>, order: seq<Setting>): (r: seq<byte>)
    requires forall k :: 0 <= k < |order| ==> order[k] in settings
    ensures |r| == 6 * |order|
  {
    if order == [] then []
    else
      var last := order[|order| - 1];
      SettingsBytes(settings, order[..|order| - 1]) + (BigEndian(last, 2) + BigEndian(settings[last], 4))
  }

  ghost predicate Enumerates(order: seq<Setting>, keys: set<Setting>) {
    && (forall i, j :: 0 <= i < j < |order| ==> order[i] != order[j])
    && (forall k :: 0 <= k < |order| ==> order[k] in keys)
    && (forall key <- keys :: key in order)
  }

  /** A frame that carries its payload behind a header. */
  function Framed(frameType: byte, id: StreamId, flags: seq<Flag>, payload: seq<byte>): seq<byte> {
    HeaderBytes(frameType, id, ToUint32(|payload|), flags) + payload
  }

  /** The order names settings that the frame has. */
  predicate Within(f: Frame, order: seq<Setting>) {
    f.Settings? ==> forall k :: 0 <= k < |order| ==> order[k] in f.settings
  }

  /** `Encode` of every frame type; three of them forget the header. */
  function Encode(h: Hpack, t: Table, f: Frame, order: seq<Setting>): (seq<byte>, Table)
    requires Within(f, order)
  {
    match f
    case Data(d) => (Framed(DATA_TYPE, d.streamId, When(END_STREAM, d.endStream), d.data), t)
    case Headers(id, endStream, endHeaders, _, headers) =>
      var (block, t') := h.encode(t, headers);
      (Framed(HEADERS_TYPE, id, When(END_STREAM, endStream) + When(END_HEADERS, endHeaders), block), t')
    case Priority(_, dependency, weight, exclusive) =>
      var bytes := BigEndian(dependency, 4);
      ((if exclusive then bytes[0 := SetBits(bytes[0], 0x80)] else bytes) + [weight], t)
    case RstStream(_, code) => (BigEndian(code, 4), t)
    case Settings(id, ack, settings) => (Framed(SETTINGS_TYPE, id, When(ACK, ack), SettingsBytes(settings, order)), t)
    case PushPromise(id, endHeaders, promised, headers) =>
      var (block, t') := h.encode(t, headers);
      (Framed(PUSH_PROMISE_TYPE, id, When(END_HEADERS, endHeaders), BigEndian(promised, 4) + block), t')
    case Ping(id, payload, ack) => (Framed(PING_TYPE, id, When(ACK, ack), BigEndian(payload, 8)), t)
    case GoAway(_, last, code) => (BigEndian(last, 4) + BigEndian(code, 4), t)
    case WindowUpdate(id, increment) => (Framed(WINDOW_UPDATE_TYPE, id, [], BigEndian(increment, 4)), t)
  }

  method EncodeData(d: DataFrame) returns (result: seq<byte>)
    ensures result == Framed(DATA_TYPE, d.streamId, When(END_STREAM, d.endStream), d.data)
    ensures |result| == 9 + |d.data| && result[3] == 0x00 && result[9..] == d.data
  {
    var flags: seq<Flag> := [];
    if d.endStream {
      flags := flags + [END_STREAM];
    }
    result := EncodeHeader(DATA_TYPE, d.streamId, ToUint32(|d.data|), flags);
    result := result + d.data;
  }

  method EncodeWindowUpdate(id: StreamId, increment: u32) returns (result: seq<byte>)
    ensures result == Framed(WINDOW_UPDATE_TYPE, id, [], BigEndian(increment, 4))
    ensures |result| == 13 && result[3] == 0x08 && result[4] == 0
  {
    var payload: array<byte> := new byte[4](_ => 0);
    PutBigEndian(payload, increment);
    result := EncodeHeader(WINDOW_UPDATE_TYPE, id, 4, []);
    result := result + payload[..];
  }

  method EncodePing(id: StreamId, payload: u64, ack: bool) returns (result: seq<byte>)
    ensures result == Framed(PING_TYPE, id, When(ACK, ack), BigEndian(payload, 8))
    ensures |result| == 17 && result[3] == 0x06
  {
    var payloadBytes: array<byte> := new byte[8](_ => 0);
    PutBigEndian(payloadBytes, payload);
    hide BigEndian;
    var flags: seq<Flag> := [];
    if ack {
      flags := flags + [ACK];
    }
    result := EncodeHeader(PING_TYPE, id, 8, flags);
    result := result + payloadBytes[..];
  }

  method EncodeSetting(setting: Setting, value: u32) returns (result: seq<byte>)
    ensures result == BigEndian(setting, 2) + BigEndian(value, 4)
  {
    var idBytes: array<byte> := new byte[2](_ => 0);
    PutBigEndian(idBytes, setting);
    var valueBytes: array<byte> := new byte[4](_ => 0);
    PutBigEndian(valueBytes, value);
    result := idBytes[..] + valueBytes[..];
  }

  /** The map is visited in an order that the program does not choose. */
  method EncodeSettings(id: StreamId, ack: bool, settings: map<Setting, u32>)
      returns (result: seq<byte>, order: seq<Setting>)
    ensures Enumerates(order, settings.Keys)
    ensures result == Framed(SETTINGS_TYPE, id, When(ACK, ack), SettingsBytes(settings, order))
  {
    hide HeaderBytes, BigEndian, ToUint32;
    var flags: seq<Flag> := [];
    if ack {
      flags := flags + [ACK];
    }
    result := EncodeHeader(SETTINGS_TYPE, id, ToUint32(|settings| * 6), flags);
    ghost var header := result;
    assert flags == When(ACK, ack);
    assert header == HeaderBytes(SETTINGS_TYPE, id, ToUint32(|settings| * 6), When(ACK, ack));
    order := [];
    var left := settings.Keys;
    while left != {}
      invariant left <= settings.Keys && Enumerates(order, settings.Keys - left)
      invariant result == header + SettingsBytes(settings, order)
      decreases left
    {
      var key: Setting :| key in left;
      hide SettingsBytes;
      var bytes := EncodeSetting(key, settings[key]);
      SettingsAppend(settings, order, key);
      result := result + bytes;
      EnumerationGrows(order, settings.Keys - left, key);
      order := order + [key];
      assert settings.Keys - left + {key} == settings.Keys - (left - {key});
      left := left - {key};
    }
    assert settings.Keys - left == settings.Keys;
    EnumerationLength(order, settings.Keys);
    assert |SettingsBytes(settings, order)| == |settings| * 6;
  }

  lemma SettingsAppend(settings: map<Setting, u32>, order: seq<Setting>, key: Setting)
    requires key in settings && forall k :: 0 <= k < |order| ==> order[k] in settings
    ensures SettingsBytes(settings, order + [key]) ==
            SettingsBytes(settings, order) + (BigEndian(key, 2) + BigEndian(settings[key], 4))
  {
    assert (order + [key])[..|order|] == order;
    hide BigEndian;
  }

  lemma EnumerationGrows(order: seq<Setting>, keys: set<Setting>, key: Setting)
    requires Enumerates(order, keys) && key !in keys
    ensures Enumerates(order + [key], keys + {key})
  {
  }

  lemma {:induction false} EnumerationLength(order: seq<Setting>, keys: set<Setting>)
    requires Enumerates(order, keys)
    ensures |order| == |keys|
    decreases order
  {
    if order == [] {
      assert keys == {};
    } else {
      var last := order[|order| - 1];
      EnumerationLength(order[..|order| - 1], keys - {last});
    }
  }
}
