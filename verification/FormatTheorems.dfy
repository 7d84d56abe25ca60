/** The bytes on the wire (RFC 7540, section 4.1 and sections 6.1 to 6.9), with every type, flag and offset a number. */
module FormatTheorems {
  import opened Wrappers
  import opened Frames
  import opened Conversions
  import opened Bits
  import opened Bytes
  import opened FrameCodec
  import opened CodecTheorems

  // ---------------------------------------------------------------- numbers

  function TwoBytes(n: nat): (r: seq<byte>) {
    [n / 0x100 % 256, n % 256]
  }

  function ThreeBytes(n: nat): (r: seq<byte>) {
    [n / 0x1_0000 % 256, n / 0x100 % 256, n % 256]
  }

  function FourBytes(n: nat): (r: seq<byte>) {
    [n / 0x100_0000 % 256, n / 0x1_0000 % 256, n / 0x100 % 256, n % 256]
  }

  function EightBytes(n: nat): (r: seq<byte>) {
    FourBytes(n / 0x1_0000_0000) + FourBytes(n)
  }

  function Number2(b: seq<byte>): int
    requires |b| == 2
  {
    b[0] as int * 0x100 + b[1] as int
  }

  function Number3(b: seq<byte>): int
    requires |b| == 3
  {
    b[0] as int * 0x1_0000 + b[1] as int * 0x100 + b[2] as int
  }

  function Number4(b: seq<byte>): int
    requires |b| == 4
  {
    b[0] as int * 0x100_0000 + b[1] as int * 0x1_0000 + b[2] as int * 0x100 + b[3] as int
  }

  lemma DivideTwice(n: nat)
    ensures n / 0x100 / 0x100 == n / 0x1_0000 && n / 0x1_0000 / 0x100 == n / 0x100_0000
    ensures n / 0x100_0000 / 0x100 == n / 0x1_0000_0000
  {
  }

  lemma PacksOne(n: nat)
    ensures BigEndian(n, 1) == [n % 256]
  {
    assert BigEndian(n / 256, 0) == [];
  }

  lemma PacksTwo(n: nat)
    ensures BigEndian(n, 2) == TwoBytes(n)
  {
    PacksOne(n / 256);
  }

  lemma PacksThree(n: nat)
    ensures BigEndian(n, 3) == ThreeBytes(n)
  {
    PacksTwo(n / 256);
    DivideTwice(n);
  }

  lemma PacksFour(n: nat)
    ensures BigEndian(n, 4) == FourBytes(n)
  {
    PacksThree(n / 256);
    DivideTwice(n);
  }

  lemma PacksEight(n: nat)
    ensures BigEndian(n, 8) == EightBytes(n)
  {
    var (n1, n2, n3) := (n / 0x100, n / 0x1_0000, n / 0x100_0000);
    DivideTwice(n);
    assert BigEndian(n, 8) == BigEndian(n1, 7) + [n % 256];
    assert BigEndian(n1, 7) == BigEndian(n2, 6) + [n1 % 256];
    assert BigEndian(n2, 6) == BigEndian(n3, 5) + [n2 % 256];
    assert BigEndian(n3, 5) == BigEndian(n / 0x1_0000_0000, 4) + [n3 % 256];
    hide BigEndian;
    PacksFour(n / 0x1_0000_0000);
  }

  // ---------------------------------------------------------------- what is written

  /** Nine bytes: the length in three, the type, the flags, and the id in four. */
  function HeaderOf(length: nat, frameType: byte, flags: byte, id: StreamId): seq<byte> {
    ThreeBytes(length) + [frameType, flags] + FourBytes(id)
  }

  lemma FlagBytes(a: bool, b: bool)
    ensures SetAll(When(END_STREAM, a) + When(END_HEADERS, b)) as int == (if a then 1 else 0) + (if b then 4 else 0)
    ensures SetAll(When(ACK, a)) as int == if a then 1 else 0
    ensures SetAll(When(END_HEADERS, b)) as int == if b then 4 else 0
  {
    assert SetAll([]) == 0 && SetAll([END_STREAM]) == 0x01 && SetAll([END_HEADERS]) == 0x04;
    assert [END_STREAM, END_HEADERS][..1] == [END_STREAM];
    assert SetAll([END_STREAM, END_HEADERS]) == 0x05;
  }

  lemma FramedIs(frameType: byte, id: StreamId, flags: seq<Flag>, payload: seq<byte>, bits: byte)
    requires SetAll(flags) as int == bits
    ensures Framed(frameType, id, flags, payload) == HeaderOf(|payload|, frameType, bits, id) + payload
  {
    PacksThree(ToUint32(|payload|));
    PacksFour(id);
    LowBytes(|payload|);
    hide BigEndian, SetAll, FourBytes;
  }

  lemma LowBytes(n: nat)
    ensures ThreeBytes(ToUint32(n)) == ThreeBytes(n)
  {
    var (q, r) := (n / 0x1_0000_0000, ToUint32(n));
    assert n == 0x1_0000_0000 * q + r;
    hide ToUint32;
    SameByte(n / 0x1_0000, 0x100 * q, r / 0x1_0000);
    SameByte(n / 0x100, 0x1_0000 * q, r / 0x100);
    SameByte(n, 0x100_0000 * q, r);
  }

  lemma SameByte(a: nat, m: nat, b: nat)
    requires a == 0x100 * m + b
    ensures a % 256 == b % 256
  {
  }

  /** Four bytes of a priority dependency, with the exclusive bit in front. */
  function Dependency(dependency: u32, exclusive: bool): seq<byte> {
    var b := FourBytes(dependency);
    if exclusive then b[0 := b[0] % 128 + 128] else b
  }

  /**
   Every frame type as it is written, byte by byte: 0x00 DATA, 0x01 HEADERS, 0x04 SETTINGS, 0x05 PUSH_PROMISE, 0x06 PING
   and 0x08 WINDOW_UPDATE, with END_STREAM and ACK as 0x01 and END_HEADERS as 0x04; PRIORITY, RST_STREAM and GOAWAY
   without a header.
   */
  predicate Written(h: Hpack, t: Table, f: Frame, order: seq<Setting>, bytes: seq<byte>)
    requires Within(f, order)
  {
    match f
    case Data(d) => bytes == HeaderOf(|d.data|, 0x00, if d.endStream then 0x01 else 0, d.streamId) + d.data
    case Headers(id, endStream, endHeaders, _, headers) =>
      var block := h.encode(t, headers).0;
      bytes == HeaderOf(|block|, 0x01, (if endStream then 0x01 else 0) + (if endHeaders then 0x04 else 0), id) + block
    case Priority(_, dependency, weight, exclusive) => bytes == Dependency(dependency, exclusive) + [weight]
    case RstStream(_, code) => bytes == FourBytes(code)
    case Settings(id, ack, settings) =>
      bytes == HeaderOf(6 * |order|, 0x04, if ack then 0x01 else 0, id) + SettingsBytes(settings, order)
    case PushPromise(id, endHeaders, promised, headers) =>
      var block := h.encode(t, headers).0;
      bytes == HeaderOf(4 + |block|, 0x05, if endHeaders then 0x04 else 0, id) + FourBytes(promised) + block
    case Ping(id, payload, ack) => bytes == HeaderOf(8, 0x06, if ack then 0x01 else 0, id) + EightBytes(payload)
    case GoAway(_, last, code) => bytes == FourBytes(last) + FourBytes(code)
    case WindowUpdate(id, increment) => bytes == HeaderOf(4, 0x08, 0, id) + FourBytes(increment)
  }

  /** What is written are those bytes. */
  lemma BytesWritten(h: Hpack, t: Table, f: Frame, order: seq<Setting>)
    requires Within(f, order)
    ensures Written(h, t, f, order, Encode(h, t, f, order).0)
  {
    hide BigEndian, SetAll, Framed, HeaderOf, FourBytes, EightBytes, SettingsBytes, When;
    match f {
      case Data(d) =>
        FlagBytes(d.endStream, false);
        FramedIs(0x00, d.streamId, When(ACK, d.endStream), d.data, if d.endStream then 0x01 else 0);
      case Headers(id, endStream, endHeaders, _, headers) =>
        FlagBytes(endStream, endHeaders);
        FramedIs(0x01, id, When(END_STREAM, endStream) + When(END_HEADERS, endHeaders), h.encode(t, headers).0,
            (if endStream then 0x01 else 0) + (if endHeaders then 0x04 else 0));
      case Priority(_, dependency, _, exclusive) =>
        PacksFour(dependency);
        ExclusiveBit(dependency);
      case RstStream(_, code) => PacksFour(code);
      case Settings(id, ack, _) =>
        FlagBytes(ack, false);
        FramedIs(0x04, id, When(ACK, ack), SettingsBytes(f.settings, order), if ack then 0x01 else 0);
      case PushPromise(id, endHeaders, promised, headers) =>
        PacksFour(promised);
        FlagBytes(false, endHeaders);
        FourIsFour(promised);
        var payload := FourBytes(promised) + h.encode(t, headers).0;
        FramedIs(0x05, id, When(END_HEADERS, endHeaders), payload, if endHeaders then 0x04 else 0);
      case Ping(id, payload, ack) =>
        PacksEight(payload);
        FlagBytes(ack, false);
        FourIsFour(payload);
        FramedIs(0x06, id, When(ACK, ack), EightBytes(payload), if ack then 0x01 else 0);
      case GoAway(_, last, code) =>
        PacksFour(last);
        PacksFour(code);
      case WindowUpdate(id, increment) =>
        PacksFour(increment);
        FourIsFour(increment);
        NoFlags();
        FramedIs(0x08, id, [], FourBytes(increment), 0);
    }
  }

  lemma FourIsFour(n: nat)
    ensures |FourBytes(n)| == 4 && |EightBytes(n)| == 8
  {
  }

  lemma NoFlags()
    ensures SetAll([]) as int == 0
  {
  }

  lemma ExclusiveBit(dependency: u32)
    ensures SetBits(FourBytes(dependency)[0], 0x80) == FourBytes(dependency)[0] % 128 + 128
  {
    var b := FourBytes(dependency)[0];
    HighBitIsSet(b as bv8);
    ByteRoundTrip(b);
    hide FourBytes;
  }

  /** The payload of SETTINGS: for each setting in turn two bytes of its number and four of its value. */
  lemma {:induction false} SettingsWritten(settings: map<Setting, u32>, order: seq<Setting>, k: nat)
    requires k < |order| && forall n :: 0 <= n < |order| ==> order[n] in settings
    ensures |SettingsBytes(settings, order)| == 6 * |order|
    ensures SettingsBytes(settings, order)[6 * k..6 * k + 6] == TwoBytes(order[k]) + FourBytes(settings[order[k]])
    decreases order
  {
    var init, last := order[..|order| - 1], order[|order| - 1];
    PacksTwo(last);
    PacksFour(settings[last]);
    hide BigEndian, TwoBytes, FourBytes;
    var front := SettingsBytes(settings, init);
    assert SettingsBytes(settings, order) == front + (TwoBytes(last) + FourBytes(settings[last]));
    hide SettingsBytes;
    if k < |init| {
      SettingsWritten(settings, init, k);
      assert SettingsBytes(settings, order)[6 * k..6 * k + 6] == front[6 * k..6 * k + 6];
    }
  }

  // ---------------------------------------------------------------- what is read

  lemma ValueOfThree(b: seq<byte>)
    requires |b| == 3
    ensures Value(b) == Number3(b)
  {
    assert Value(b) == 256 * Value(b[..2]) + b[2];
    assert b[..2][..1] == b[..1] && b[..1][..0] == [];
    assert Value(b[..2]) == 256 * Value(b[..1]) + b[1];
    assert Value(b[..1]) == 256 * Value([]) + b[0];
  }

  lemma ReadsNumbers(b: seq<byte>)
    ensures |b| == 4 ==> Uint32(b) == Number4(b) && IgnoreFirstBit(b) == Number4(b) % 0x8000_0000
    ensures |b| == 3 ==> IgnoreFirstBit(b) == Number3(b)
    ensures |b| == 2 ==> Uint16(b) == Number2(b)
  {
    if |b| == 4 {
      ValueOfFour(b);
    } else if |b| == 3 {
      ValueOfThree(b);
    }
    hide Value;
  }

  /** One frame from the front of the stream: nine bytes of header, as many of payload as the header says. */
  lemma BytesRead(h: Hpack, t: Table, stream: seq<byte>)
    ensures Read(h, t, stream) ==
            if |stream| < 9 || |stream| < 9 + Number3(stream[0..3]) then Rejected
            else
              var end := 9 + Number3(stream[0..3]);
              FollowedBy(Decode(h, t, stream[3], stream[4] as bv8, Number4(stream[5..9]) % 0x8000_0000, stream[9..end]),
                         stream[end..])
  {
    hide Decode, IgnoreFirstBit, Number3, Number4;
    if |stream| >= 9 {
      var header := stream[..9];
      assert header[0..3] == stream[0..3] && header[5..9] == stream[5..9];
      ReadsNumbers(stream[0..3]);
      ReadsNumbers(stream[5..9]);
    }
  }

  predicate NotPadded(flags: bv8) {
    flags & 0x08 == 0
  }

  /** The frame types with a header block or data, without padding: 0x00 DATA, 0x01 HEADERS, 0x05 PUSH_PROMISE. */
  lemma ContentRead(h: Hpack, t: Table, flags: bv8, id: StreamId, payload: seq<byte>)
    requires NotPadded(flags)
    ensures Decode(h, t, 0x00, flags, id, payload) ==
            Decoded((Data(DataFrame(id, payload, flags & 0x01 != 0)), t))
    ensures flags & 0x20 == 0 ==>
              var block := h.decode(t, payload);
              Decode(h, t, 0x01, flags, id, payload) ==
                if block.None? then Rejected
                else Decoded((Headers(id, flags & 0x01 != 0, flags & 0x04 != 0, false, block.value.0), block.value.1))
    ensures |payload| >= 4 ==>
              var (promised, block) := (Number4(payload[0..4]) % 0x8000_0000, h.decode(t, payload[4..]));
              Decode(h, t, 0x05, flags, id, payload) ==
                if block.None? then Rejected
                else Decoded((PushPromise(id, flags & 0x04 != 0, promised, block.value.0), block.value.1))
  {
    hide IgnoreFirstBit, Number4;
    if |payload| >= 4 {
      ReadsNumbers(payload[0..4]);
    }
  }

  lemma ExclusiveNeverRead(b: bv8)
    ensures b & 0x80 != 1
  {
  }

  /**
   The frame types of fixed layout: 0x02 PRIORITY, whose exclusive bit is never found set, 0x03 RST_STREAM, 0x06 PING,
   0x07 GOAWAY and 0x08 WINDOW_UPDATE, with their lengths; there is no type above 0x08.
   */
  lemma FixedRead(h: Hpack, t: Table, flags: bv8, id: StreamId, payload: seq<byte>)
    ensures Decode(h, t, 0x02, flags, id, payload) ==
            if |payload| != 5 then Rejected
            else Decoded((Priority(id, Number4(payload[0..4]) % 0x8000_0000, payload[4], false), t))
    ensures Decode(h, t, 0x03, flags, id, payload) ==
            if |payload| != 4 then Rejected else Decoded((RstStream(id, Number4(payload)), t))
    ensures Decode(h, t, 0x06, flags, id, payload) ==
            if id != 0 || |payload| != 8 then Rejected
            else Decoded((Ping(0, Number4(payload[0..4]) * 0x1_0000_0000 + Number4(payload[4..8]),
                          flags & 0x01 != 0), t))
    ensures Decode(h, t, 0x07, flags, id, payload) ==
            if |payload| < 8 then Rejected
            else Decoded((GoAway(id, Number4(payload[0..4]) % 0x8000_0000, Number4(payload[4..8])), t))
    ensures Decode(h, t, 0x08, flags, id, payload) ==
            if |payload| < 4 then Rejected
            else Decoded((WindowUpdate(id, Number4(payload[0..4]) % 0x8000_0000), t))
    ensures forall frameType: byte :: frameType > 0x08 ==> Decode(h, t, frameType, flags, id, payload) == Rejected
  {
    hide IgnoreFirstBit, Number4, Uint32;
    if |payload| > 0 {
      ExclusiveNeverRead(payload[0] as bv8);
    }
    if |payload| >= 4 {
      ReadsNumbers(payload);
      ReadsNumbers(payload[0..4]);
    }
    if |payload| >= 8 {
      ReadsNumbers(payload[4..8]);
      assert payload[..4] == payload[0..4] && (|payload| == 8 ==> payload[4..] == payload[4..8]);
    }
  }

  /** Setting `k` of a payload: its number, and its value. */
  function NumberAt(payload: seq<byte>, k: nat): int
    requires 6 * k + 6 <= |payload|
  {
    Number2(payload[6 * k..6 * k + 2])
  }

  function ValueAt(payload: seq<byte>, k: nat): int
    requires 6 * k + 6 <= |payload|
  {
    Number4(payload[6 * k + 2..6 * k + 6])
  }

  /** The settings of a payload: numbers 1 to 6 are known, and the last value of a number counts. */
  ghost predicate SettingsIn(payload: seq<byte>, n: nat, settings: map<Setting, u32>)
    requires 6 * n <= |payload|
  {
    && (forall k :: 0 <= k < n ==> 1 <= NumberAt(payload, k) <= 6)
    && (forall key <- settings :: exists k :: 0 <= k < n && NumberAt(payload, k) == key)
    && (forall k :: 0 <= k < n && (forall j :: k < j < n ==> NumberAt(payload, j) != NumberAt(payload, k)) ==>
          NumberAt(payload, k) in settings && settings[NumberAt(payload, k)] == ValueAt(payload, k))
  }

  lemma SixesOf(n: nat)
    requires n % 6 == 0 && n > 0
    ensures 6 * (n / 6) == n && 6 * (n / 6 - 1) == n - 6 && n / 6 - 1 == (n - 6) / 6
  {
  }

  lemma AsBefore(payload: seq<byte>, init: seq<byte>, n: nat)
    requires 6 * n <= |init| <= |payload| && init == payload[..|init|]
    ensures forall k :: 0 <= k < n ==>
              NumberAt(init, k) == NumberAt(payload, k) && ValueAt(init, k) == ValueAt(payload, k)
  {
    forall k | 0 <= k < n
      ensures NumberAt(init, k) == NumberAt(payload, k) && ValueAt(init, k) == ValueAt(payload, k)
    {
      assert init[6 * k..6 * k + 2] == payload[6 * k..6 * k + 2];
      assert init[6 * k + 2..6 * k + 6] == payload[6 * k + 2..6 * k + 6];
    }
  }

  lemma OneMoreSetting(payload: seq<byte>, n: nat, settings: map<Setting, u32>)
    requires 6 * n + 6 <= |payload| && SettingsIn(payload, n, settings) && 1 <= NumberAt(payload, n) <= 6
    ensures 0 <= ValueAt(payload, n) < 0x1_0000_0000
    ensures SettingsIn(payload, n + 1, settings[NumberAt(payload, n) := ValueAt(payload, n)])
  {
    hide NumberAt, ValueAt, SettingsIn;
    ValueInRange(payload, n);
    var settings' := settings[NumberAt(payload, n) := ValueAt(payload, n)];
    forall key | key in settings' ensures exists k :: 0 <= k < n + 1 && NumberAt(payload, k) == key {
      if key != NumberAt(payload, n) {
        FromBefore(payload, n, settings, key);
      }
    }
    forall k | 0 <= k < n + 1 ensures 1 <= NumberAt(payload, k) <= 6 {
      KnownBefore(payload, n, settings, k);
    }
    forall k | 0 <= k < n + 1 && (forall j :: k < j < n + 1 ==> NumberAt(payload, j) != NumberAt(payload, k))
      ensures NumberAt(payload, k) in settings' && settings'[NumberAt(payload, k)] == ValueAt(payload, k)
    {
      if k < n {
        assert NumberAt(payload, n) != NumberAt(payload, k);
        LastBefore(payload, n, settings, k);
      }
    }
    MakesSettings(payload, n + 1, settings');
  }

  lemma MakesSettings(payload: seq<byte>, n: nat, settings: map<Setting, u32>)
    requires 6 * n <= |payload|
    requires forall k :: 0 <= k < n ==> 1 <= NumberAt(payload, k) <= 6
    requires forall key <- settings :: exists k :: 0 <= k < n && NumberAt(payload, k) == key
    requires forall k :: 0 <= k < n && (forall j :: k < j < n ==> NumberAt(payload, j) != NumberAt(payload, k)) ==>
               NumberAt(payload, k) in settings && settings[NumberAt(payload, k)] == ValueAt(payload, k)
    ensures SettingsIn(payload, n, settings)
  {
    hide NumberAt, ValueAt;
  }

  lemma KnownBefore(payload: seq<byte>, n: nat, settings: map<Setting, u32>, k: nat)
    requires 6 * n + 6 <= |payload| && SettingsIn(payload, n, settings) && k <= n && 1 <= NumberAt(payload, n) <= 6
    ensures 1 <= NumberAt(payload, k) <= 6
  {
    hide NumberAt, ValueAt;
  }

  lemma FromBefore(payload: seq<byte>, n: nat, settings: map<Setting, u32>, key: Setting)
    requires 6 * n <= |payload| && SettingsIn(payload, n, settings) && key in settings
    ensures exists k :: 0 <= k < n && NumberAt(payload, k) == key
  {
    hide NumberAt, ValueAt;
  }

  lemma LastBefore(payload: seq<byte>, n: nat, settings: map<Setting, u32>, k: nat)
    requires 6 * n <= |payload| && SettingsIn(payload, n, settings) && k < n
    requires forall j :: k < j < n ==> NumberAt(payload, j) != NumberAt(payload, k)
    ensures NumberAt(payload, k) in settings && settings[NumberAt(payload, k)] == ValueAt(payload, k)
  {
    hide NumberAt, ValueAt;
  }

  lemma ValueInRange(payload: seq<byte>, k: nat)
    requires 6 * k + 6 <= |payload|
    ensures 0 <= ValueAt(payload, k) < 0x1_0000_0000
  {
  }

  lemma {:induction false} SettingsParsed(payload: seq<byte>)
    requires |payload| % 6 == 0
    ensures 6 * (|payload| / 6) == |payload|
    ensures ParseSettings(payload).Some? ==> SettingsIn(payload, |payload| / 6, ParseSettings(payload).value)
    ensures ParseSettings(payload).None? ==>
              exists k :: 0 <= k < |payload| / 6 && !(1 <= NumberAt(payload, k) <= 6)
    decreases |payload|
  {
    hide SettingsIn, Number2, Number4, Uint16, Uint32, IsUnknownSetting;
    if payload == [] {
      NoSettings(payload);
    } else {
      var n := |payload| / 6 - 1;
      SixesOf(|payload|);
      var init := payload[..|payload| - 6];
      SettingsParsed(init);
      LastParsed(payload, n);
      AsBefore(payload, init, n);
      hide NumberAt, ValueAt;
      if ParseSettings(init).Some? {
        SettingsAlike(payload, init, n, ParseSettings(init).value);
        if 1 <= NumberAt(payload, n) <= 6 {
          OneMoreSetting(payload, n, ParseSettings(init).value);
        }
      } else {
        var k :| 0 <= k < n && !(1 <= NumberAt(init, k) <= 6);
        assert !(1 <= NumberAt(payload, k) <= 6);
      }
    }
  }

  lemma NoSettings(payload: seq<byte>)
    requires payload == []
    ensures ParseSettings(payload) == Some(map[]) && SettingsIn(payload, 0, map[])
  {
  }

  /** What the last six bytes of a payload add. */
  lemma LastParsed(payload: seq<byte>, n: nat)
    requires |payload| == 6 * n + 6 && |payload| % 6 == 0 && |payload[..6 * n]| % 6 == 0
    ensures 0 <= ValueAt(payload, n) < 0x1_0000_0000
    ensures ParseSettings(payload) ==
            var (before, setting) := (ParseSettings(payload[..6 * n]), NumberAt(payload, n));
            if before.None? || !(1 <= setting <= 6) then None
            else Some(before.value[setting := ValueAt(payload, n)])
  {
    ReadsNumbers(payload[6 * n..6 * n + 2]);
    ReadsNumbers(payload[6 * n + 2..6 * n + 6]);
    assert IsUnknownSetting(Uint16(payload[6 * n..6 * n + 2])) <==> !(1 <= NumberAt(payload, n) <= 6);
    ValueInRange(payload, n);
    hide Uint16, Uint32, Number2, Number4, IsUnknownSetting;
  }

  lemma SettingsAlike(payload: seq<byte>, init: seq<byte>, n: nat, settings: map<Setting, u32>)
    requires 6 * n <= |init| <= |payload| && init == payload[..|init|] && SettingsIn(init, n, settings)
    ensures SettingsIn(payload, n, settings)
  {
    AsBefore(payload, init, n);
    hide NumberAt, ValueAt;
    forall key | key in settings ensures exists k :: 0 <= k < n && NumberAt(payload, k) == key {
      var k :| 0 <= k < n && NumberAt(init, k) == key;
      assert NumberAt(payload, k) == key;
    }
    forall k | 0 <= k < n && (forall j :: k < j < n ==> NumberAt(payload, j) != NumberAt(payload, k))
      ensures NumberAt(payload, k) in settings && settings[NumberAt(payload, k)] == ValueAt(payload, k)
    {
      assert forall j :: k < j < n ==> NumberAt(init, j) != NumberAt(init, k);
    }
  }

  /**
   0x04 SETTINGS: six bytes each, and an error for a length that is no multiple of six or a number that is not
   known.
   */
  lemma SettingsRead(h: Hpack, t: Table, flags: bv8, id: StreamId, payload: seq<byte>)
    ensures !Decode(h, t, 0x04, flags, id, payload).Panicked?
    ensures Decode(h, t, 0x04, flags, id, payload).Decoded? ==>
              var (f, n) := (Decode(h, t, 0x04, flags, id, payload).value.0, |payload| / 6);
              && Decode(h, t, 0x04, flags, id, payload).value.1 == t
              && f.Settings? && f.streamId == id && (f.ack <==> flags & 0x01 != 0)
              && |payload| == 6 * n && SettingsIn(payload, n, f.settings)
    ensures Decode(h, t, 0x04, flags, id, payload).Rejected? ==>
              |payload| % 6 != 0 || exists k :: 0 <= k < |payload| / 6 && !(1 <= NumberAt(payload, k) <= 6)
  {
    hide ParseSettings, SettingsIn, NumberAt;
    if |payload| % 6 == 0 {
      SettingsParsed(payload);
    }
  }
}
