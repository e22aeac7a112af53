/** Binary market-data frames: splitting a frame into packets and decoding a packet. */
module FeedFrames {
  import opened Basics

  type Byte = n: int | 0 <= n < 256

  type Packet = seq<Byte>

  datatype Error = MalformedMessage

  const PACKET_LENGTHS: set<nat> := {8, 28, 32, 44, 184}

  predicate Legal(length: nat) { length in PACKET_LENGTHS }

  /** `struct.unpack_from(">H", …)` and `(">I", …)` */
  function U16(bytes: seq<Byte>, start: nat): (n: nat)
    requires start + 2 <= |bytes|
    ensures n < 65536
  {
    var high: int, low: int := bytes[start], bytes[start + 1];
    256 * high + low
  }

  function U32(bytes: seq<Byte>, start: nat): (n: nat)
    requires start + 4 <= |bytes|
    ensures n < 4294967296
  {
    65536 * U16(bytes, start) + U16(bytes, start + 2)
  }

  function BigEndian16(n: nat): (bytes: seq<Byte>)
    requires n < 65536
    ensures |bytes| == 2 && U16(bytes, 0) == n
  {
    [n / 256, n % 256]
  }

  /** The `remaining` packets that start at `offset`. Bytes after the last one are ignored. */
  function SplitFrom(blob: seq<Byte>, offset: nat, remaining: nat): Result<seq<Packet>, Error>
    requires offset <= |blob|
    decreases remaining
  {
    if remaining == 0 then Ok([])
    else if offset + 2 > |blob| then Err(MalformedMessage)
    else
      var length := U16(blob, offset);
      if !Legal(length) || offset + 2 + length > |blob| then Err(MalformedMessage)
      else
        Prepend([blob[offset + 2..offset + 2 + length]], SplitFrom(blob, offset + 2 + length, remaining - 1))
  }

  function Prepend(packets: seq<Packet>, rest: Result<seq<Packet>, Error>): Result<seq<Packet>, Error> {
    if rest.Err? then rest else Ok(packets + rest.value)
  }

  lemma PrependTwice(packets: seq<Packet>, packet: Packet, rest: Result<seq<Packet>, Error>)
    ensures Prepend(packets, Prepend([packet], rest)) == Prepend(packets + [packet], rest)
    ensures Prepend([], rest) == rest
  {
    if rest.Ok? {
      assert packets + ([packet] + rest.value) == packets + [packet] + rest.value;
      assert [] + rest.value == rest.value;
    }
  }

  function Split(blob: seq<Byte>): Result<seq<Packet>, Error> {
    if |blob| < 2 then Ok([]) else SplitFrom(blob, 2, U16(blob, 0))
  }

  method SplitBinaryPackets(blob: seq<Byte>) returns (result: Result<seq<Packet>, Error>)
    ensures result == Split(blob)
  {
    if |blob| < 2 {
      return Ok([]);
    }
    var count := U16(blob, 0);
    var offset: nat := 2;
    var packets: seq<Packet> := [];
    PrependTwice([], [], SplitFrom(blob, offset, count));
    for i := 0 to count
      invariant offset <= |blob|
      invariant Split(blob) == Prepend(packets, SplitFrom(blob, offset, count - i))
    {
      if offset + 2 > |blob| {
        return Err(MalformedMessage);
      }
      var length := U16(blob, offset);
      offset := offset + 2;
      if !Legal(length) || offset + length > |blob| {
        return Err(MalformedMessage);
      }
      PrependTwice(packets, blob[offset..offset + length], SplitFrom(blob, offset + length, count - i - 1));
      packets := packets + [blob[offset..offset + length]];
      offset := offset + length;
    }
    assert packets + [] == packets;
    return Ok(packets);
  }

  // The encoding.

  predicate Sendable(packets: seq<Packet>) {
    |packets| < 65536 && LegalPackets(packets)
  }

  predicate LegalPackets(packets: seq<Packet>) { forall i :: 0 <= i < |packets| ==> Legal(|packets[i]|) }

  function Body(packets: seq<Packet>): seq<Byte>
    requires LegalPackets(packets)
  {
    if packets == [] then [] else BigEndian16(|packets[0]|) + packets[0] + Body(packets[1..])
  }

  function Encode(packets: seq<Packet>): seq<Byte>
    requires Sendable(packets)
  {
    BigEndian16(|packets|) + Body(packets)
  }

  lemma U16Shift(blob: seq<Byte>, offset: nat, part: seq<Byte>)
    requires offset + |part| <= |blob| && blob[offset..offset + |part|] == part && |part| >= 2
    ensures U16(blob, offset) == U16(part, 0)
  {
    assert part[0] == blob[offset] && part[1] == blob[offset + 1];
  }

  lemma SliceOfSlice(blob: seq<Byte>, i: nat, n: nat, j: nat, k: nat)
    requires i + n <= |blob| && j <= k <= n
    ensures blob[i..i + n][j..k] == blob[i + j..i + k]
  {
    var part := blob[i..i + n];
    forall x | 0 <= x < k - j
      ensures part[j..k][x] == blob[i + j..i + k][x]
    {
      assert part[j..k][x] == part[j + x] == blob[i + (j + x)];
    }
  }

  lemma Parts(a: seq<Byte>, b: seq<Byte>, c: seq<Byte>)
    ensures (a + b + c)[0..|a|] == a
    ensures (a + b + c)[|a|..|a| + |b|] == b
    ensures (a + b + c)[|a| + |b|..|a| + |b| + |c|] == c
  {
    assert (a + b)[|a|..] == b;
    assert (a + b + c)[..|a| + |b|] == a + b;
    assert (a + b + c)[|a| + |b|..] == c;
  }

  lemma Slices(blob: seq<Byte>, i: nat, a: seq<Byte>, b: seq<Byte>, c: seq<Byte>)
    requires i + |a + b + c| <= |blob| && blob[i..i + |a + b + c|] == a + b + c
    ensures blob[i..i + |a|] == a
    ensures blob[i + |a|..i + |a| + |b|] == b
    ensures blob[i + |a| + |b|..i + |a| + |b| + |c|] == c
  {
    var n := |a + b + c|;
    Parts(a, b, c);
    SliceOfSlice(blob, i, n, 0, |a|);
    SliceOfSlice(blob, i, n, |a|, |a| + |b|);
    SliceOfSlice(blob, i, n, |a| + |b|, |a| + |b| + |c|);
  }

  lemma Join(blob: seq<Byte>, i: nat, j: nat, k: nat, l: nat)
    requires i <= j <= k <= l <= |blob|
    ensures blob[i..l] == blob[i..j] + blob[j..k] + blob[k..l]
  {
  }

  /** Wherever an encoded body lies in a blob, splitting there gives the packets back. */
  lemma {:induction false} SplitBody(blob: seq<Byte>, offset: nat, packets: seq<Packet>)
    requires LegalPackets(packets)
    requires offset + |Body(packets)| <= |blob| && blob[offset..offset + |Body(packets)|] == Body(packets)
    ensures SplitFrom(blob, offset, |packets|) == Ok(packets)
    decreases |packets|
  {
    hide U16, Legal, BigEndian16;
    if packets != [] {
      var head, length := BigEndian16(|packets[0]|), |packets[0]|;
      Slices(blob, offset, head, packets[0], Body(packets[1..]));
      U16Shift(blob, offset, head);
      SplitBody(blob, offset + 2 + length, packets[1..]);
      assert [packets[0]] + packets[1..] == packets;
    }
  }

  /** Splitting an encoded frame gives the packets, whatever trails it. */
  lemma SplitEncode(packets: seq<Packet>, trailing: seq<Byte>)
    requires Sendable(packets)
    ensures Split(Encode(packets) + trailing) == Ok(packets)
  {
    hide U16, BigEndian16, Body;
    var blob := Encode(packets) + trailing;
    assert blob[0..2] == BigEndian16(|packets|);
    U16Shift(blob, 0, BigEndian16(|packets|));
    assert blob[2..2 + |Body(packets)|] == Body(packets);
    SplitBody(blob, 2, packets);
  }

  lemma BigEndianOf(bytes: seq<Byte>, start: nat)
    requires start + 2 <= |bytes|
    ensures BigEndian16(U16(bytes, start)) == bytes[start..start + 2]
  {
    assert bytes[start..start + 2][0] == bytes[start];
  }

  lemma {:induction false} BodyOfSplit(blob: seq<Byte>, offset: nat, remaining: nat)
    requires offset <= |blob| && SplitFrom(blob, offset, remaining).Ok?
    ensures var packets := SplitFrom(blob, offset, remaining).value;
            && |packets| == remaining && LegalPackets(packets)
            && offset + |Body(packets)| <= |blob| && blob[offset..offset + |Body(packets)|] == Body(packets)
    decreases remaining
  {
    hide U16, Legal, BigEndian16;
    if remaining > 0 {
      var length := U16(blob, offset);
      var next := offset + 2 + length;
      BodyOfSplit(blob, next, remaining - 1);
      var rest := SplitFrom(blob, next, remaining - 1).value;
      var packets := [blob[offset + 2..next]] + rest;
      BigEndianOf(blob, offset);
      assert packets[1..] == rest;
      var end := next + |Body(rest)|;
      Join(blob, offset, offset + 2, next, end);
    }
  }

  /** What a successful split returns re-encodes to a prefix of the frame. */
  lemma EncodeSplit(blob: seq<Byte>)
    requires |blob| >= 2 && Split(blob).Ok?
    ensures Sendable(Split(blob).value) && Encode(Split(blob).value) <= blob
  {
    hide U16, BigEndian16, Body;
    BodyOfSplit(blob, 2, U16(blob, 0));
    BigEndianOf(blob, 0);
    var packets := Split(blob).value;
    var end := 2 + |Body(packets)|;
    assert blob[..end] == blob[0..2] + blob[2..end];
  }

  /** A frame splits exactly when it starts with the encoding of some packets. */
  lemma SplitsExactlyWhen(blob: seq<Byte>)
    requires |blob| >= 2
    ensures Split(blob).Ok? <==> exists packets: seq<Packet> :: Sendable(packets) && Encode(packets) <= blob
  {
    hide Encode, Split;
    if Split(blob).Ok? {
      EncodeSplit(blob);
    }
    if exists packets: seq<Packet> :: Sendable(packets) && Encode(packets) <= blob {
      var packets: seq<Packet> :| Sendable(packets) && Encode(packets) <= blob;
      assert blob == Encode(packets) + blob[|Encode(packets)|..];
      SplitEncode(packets, blob[|Encode(packets)|..]);
    }
  }

  // Decoding one packet. Prices are in units of 0.0001; the feed sends hundredths.

  datatype Mode = Ltp | IndexTick | QuoteTick | FullTick

  datatype Tick = Tick(token: nat, price: nat, bid: Option<nat>, ask: Option<nat>, volume: Option<nat>, oi: Option<nat>,
                       stamp: Option<nat>, tradable: bool, mode: Mode)

  const INDICES_SEGMENT := 9

  function Price(packet: Packet, start: nat): nat
    requires start + 4 <= |packet|
  {
    100 * U32(packet, start)
  }

  function Positive(n: nat): Option<nat> { if n > 0 then Some(n) else None }

  /** Every read is inside the packet: that is what the preconditions of `U32` and `Price` ask at each call. */
  function Decode(packet: Packet): Result<Tick, Error> {
    if !Legal(|packet|) then Err(MalformedMessage)
    else
      var token := U32(packet, 0);
      var tradable := token % 256 != INDICES_SEGMENT;
      var price := Price(packet, 4);
      if |packet| == 8 then Ok(Tick(token, price, None, None, None, None, None, tradable, Ltp))
      else if |packet| == 28 then Ok(Tick(token, price, None, None, None, None, None, tradable, IndexTick))
      else if |packet| == 32 then
        Ok(Tick(token, price, None, None, None, None, Positive(U32(packet, 28)), tradable, IndexTick))
      else
        var volume := Some(U32(packet, 16));
        if |packet| == 184 then
          Ok(Tick(token, price, Positive(Price(packet, 68)), Positive(Price(packet, 128)), volume,
                  Some(U32(packet, 48)), Positive(U32(packet, 60)), tradable, FullTick))
        else Ok(Tick(token, price, None, None, volume, None, None, tradable, QuoteTick))
  }

  function DecodeAll(packets: seq<Packet>): Result<seq<Tick>, Error> {
    if packets == [] then Ok([])
    else
      match Decode(packets[0])
      case Err(error) => Err(error)
      case Ok(tick) =>
        match DecodeAll(packets[1..])
        case Err(error) => Err(error)
        case Ok(rest) => Ok([tick] + rest)
  }

  function DecodeFrame(blob: seq<Byte>): Result<seq<Tick>, Error> {
    match Split(blob)
    case Err(error) => Err(error)
    case Ok(packets) => DecodeAll(packets)
  }

  lemma {:induction false} LegalPacketsDecode(packets: seq<Packet>)
    requires LegalPackets(packets)
    ensures DecodeAll(packets).Ok? && |DecodeAll(packets).value| == |packets|
    ensures forall i :: 0 <= i < |packets| ==> Decode(packets[i]) == Ok(DecodeAll(packets).value[i])
  {
    hide Decode;
    if packets != [] {
      assert LegalPackets(packets[1..]);
      LegalPacketsDecode(packets[1..]);
      DecodesWhenLegal(packets[0]);
    }
  }

  lemma DecodesWhenLegal(packet: Packet)
    ensures Decode(packet).Ok? <==> Legal(|packet|)
  {
    hide U32, Price;
  }

  /** A frame that splits decodes, one tick for each packet; so a frame is rejected exactly when it does not split. */
  lemma FrameDecodes(blob: seq<Byte>)
    ensures DecodeFrame(blob).Ok? <==> Split(blob).Ok?
    ensures DecodeFrame(blob).Ok? ==>
              && |DecodeFrame(blob).value| == |Split(blob).value|
              && forall i :: 0 <= i < |Split(blob).value| ==>
                   Decode(Split(blob).value[i]) == Ok(DecodeFrame(blob).value[i])
  {
    hide Decode, U16, Body, Encode;
    if Split(blob).Ok? {
      if |blob| >= 2 {
        EncodeSplit(blob);
      }
      LegalPacketsDecode(Split(blob).value);
    }
  }

  // Which bytes feed which field.

  function BigEndian32(n: nat): (bytes: seq<Byte>)
    requires n < 4294967296
    ensures |bytes| == 4 && U32(bytes, 0) == n
  {
    BigEndian16(n / 65536) + BigEndian16(n % 65536)
  }

  /** The packet with `n` written at `start`. */
  function Written(packet: Packet, start: nat, n: nat): (after: Packet)
    requires start + 4 <= |packet| && n < 4294967296
    ensures |after| == |packet|
  {
    packet[..start] + BigEndian32(n) + packet[start + 4..]
  }

  lemma WrittenReads(packet: Packet, start: nat, n: nat, at: nat)
    requires start + 4 <= |packet| && n < 4294967296 && at + 4 <= |packet|
    requires at == start || at + 4 <= start || start + 4 <= at
    ensures U32(Written(packet, start, n), at) == if at == start then n else U32(packet, at)
  {
    hide BigEndian32;
    var after := Written(packet, start, n);
    if at == start {
      assert after[start..start + 4] == BigEndian32(n);
      U32Slice(after, start);
    } else {
      assert forall i :: at <= i < at + 4 ==> after[i] == packet[i];
      SameU32(after, packet, at);
    }
  }

  lemma U32Slice(bytes: seq<Byte>, start: nat)
    requires start + 4 <= |bytes|
    ensures U32(bytes, start) == U32(bytes[start..start + 4], 0)
  {
  }

  lemma SameU32(a: seq<Byte>, b: seq<Byte>, start: nat)
    requires start + 4 <= |a| && start + 4 <= |b| && forall i :: start <= i < start + 4 ==> a[i] == b[i]
    ensures U32(a, start) == U32(b, start)
  {
  }

  datatype Field = TokenField | PriceField | VolumeField | OiField | StampField | BidField | AskField

  /** Where a packet of this length has the field, if it does. */
  function Place(length: nat, field: Field): (at: Option<nat>)
    requires Legal(length)
    ensures at.Some? ==> at.value + 4 <= length
  {
    match field
    case TokenField => Some(0)
    case PriceField => Some(4)
    case VolumeField => if length == 44 || length == 184 then Some(16) else None
    case OiField => if length == 184 then Some(48) else None
    case StampField => if length == 32 then Some(28) else if length == 184 then Some(60) else None
    case BidField => if length == 184 then Some(68) else None
    case AskField => if length == 184 then Some(128) else None
  }

  function WithField(tick: Tick, field: Field, n: nat): Tick {
    match field
    case TokenField => tick.(token := n, tradable := n % 256 != 9)
    case PriceField => tick.(price := 100 * n)
    case VolumeField => tick.(volume := Some(n))
    case OiField => tick.(oi := Some(n))
    case StampField => tick.(stamp := if n == 0 then None else Some(n))
    case BidField => tick.(bid := if n == 0 then None else Some(100 * n))
    case AskField => tick.(ask := if n == 0 then None else Some(100 * n))
  }

  /** In a packet of any length every field has its own four bytes: writing them changes that field of the tick and no
      other. */
  lemma FieldsAreIndependent(packet: Packet, field: Field, n: nat)
    requires Legal(|packet|) && Place(|packet|, field).Some? && n < 4294967296
    ensures Decode(packet).Ok?
    ensures Decode(Written(packet, Place(|packet|, field).value, n)) == Ok(WithField(Decode(packet).value, field, n))
  {
    hide U32, Written;
    FieldReads(packet, field, n, TokenField);
    FieldReads(packet, field, n, PriceField);
    FieldReads(packet, field, n, VolumeField);
    FieldReads(packet, field, n, OiField);
    FieldReads(packet, field, n, StampField);
    FieldReads(packet, field, n, BidField);
    FieldReads(packet, field, n, AskField);
  }

  lemma FieldReads(packet: Packet, field: Field, n: nat, other: Field)
    requires Legal(|packet|) && Place(|packet|, field).Some? && n < 4294967296
    ensures var at, after := Place(|packet|, other), Written(packet, Place(|packet|, field).value, n);
            at.Some? ==> U32(after, at.value) == if other == field then n else U32(packet, at.value)
  {
    hide U32, Written;
    if Place(|packet|, other).Some? {
      WrittenReads(packet, Place(|packet|, field).value, n, Place(|packet|, other).value);
    }
  }

  /** And no other byte matters. */
  lemma OnlyFieldsMatter(a: Packet, b: Packet)
    requires |a| == |b| && Legal(|a|)
    requires forall field :: var at := Place(|a|, field); at.Some? ==> U32(a, at.value) == U32(b, at.value)
    ensures Decode(a) == Decode(b)
  {
    hide U32;
    assert Place(|a|, TokenField) == Some(0) && Place(|a|, PriceField) == Some(4);
    assert Place(|a|, VolumeField).Some? <==> |a| >= 44;
    assert Place(|a|, OiField).Some? && Place(|a|, BidField).Some? && Place(|a|, AskField).Some? <==> |a| == 184;
    assert Place(|a|, StampField).Some? <==> |a| == 32 || |a| == 184;
  }

  /** The five lengths, what each is, and which fields it lacks; the last byte of the token tells indexes apart. */
  lemma LengthsMeaning(packet: Packet)
    ensures var n := |packet|; Decode(packet).Ok? <==> n == 8 || n == 28 || n == 32 || n == 44 || n == 184
    ensures Decode(packet).Ok? ==>
              var tick := Decode(packet).value;
              && tick.mode == (if |packet| == 8 then Ltp else if |packet| <= 32 then IndexTick
                               else if |packet| == 44 then QuoteTick else FullTick)
              && tick.tradable == (packet[3] != 9)
              && (|packet| < 44 ==> tick.volume == None)
              && (|packet| < 184 ==> tick.bid == None && tick.ask == None && tick.oi == None)
              && (|packet| != 32 && |packet| != 184 ==> tick.stamp == None)
  {
    hide Price;
    if |packet| >= 4 {
      WordMeaning(packet, 0);
    }
  }

  /** Words are four bytes, the most significant one first. */
  lemma WordMeaning(bytes: seq<Byte>, start: nat)
    requires start + 4 <= |bytes|
    ensures var a: int, b: int, c: int, d: int :=
              bytes[start], bytes[start + 1], bytes[start + 2], bytes[start + 3];
            U32(bytes, start) == 16777216 * a + 65536 * b + 256 * c + d && U32(bytes, start) % 256 == d
  {
    var a: int, b: int, c: int, d: int := bytes[start], bytes[start + 1], bytes[start + 2], bytes[start + 3];
    var whole := 65536 * a + 256 * b + c;
    assert U32(bytes, start) == 256 * whole + d;
  }
}
