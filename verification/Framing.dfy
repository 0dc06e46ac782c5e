/**
 * The frame codec of the Pulsar binary protocol (its specification, section "Framing"):
 * a frame is `totalSize commandSize command`, optionally followed by
 * `magic checksum metadataSize metadata data`.
 *
 * The protobuf encoders and the CRC-32C function are parameters.
 */
module Framing {
  import opened Common
  import opened Bytes

  /** One protobuf message type, as the pair of functions the generated code provides. */
  datatype Proto<!T> = Proto(encode: T -> seq<Byte>, decode: seq<Byte> -> Option<T>)

  /** What the protobuf library promises: decoding inverts encoding. */
  ghost predicate RoundTrips<T(!new)>(p: Proto<T>)
  {
    forall x: T :: p.decode(p.encode(x)) == Some(x)
  }

  datatype Codec<!C, !M> = Codec(command: Proto<C>, metadata: Proto<M>, checksum: seq<Byte> -> U32)

  ghost predicate Faithful<C(!new), M(!new)>(codec: Codec<C, M>)
  {
    RoundTrips(codec.command) && RoundTrips(codec.metadata)
  }

  datatype Payload<+M> = Payload(metadata: M, data: seq<Byte>)
  datatype Message<+C, +M> = Message(command: C, payload: Option<Payload<M>>)

  // ---------------------------------------------------------------- encoding

  /** Everything the checksum covers. */
  function Checked<C, M>(codec: Codec<C, M>, p: Payload<M>): (bytes: seq<Byte>)
  {
    var metadata := codec.metadata.encode(p.metadata);
    U32Bytes(|metadata|) + metadata + p.data
  }

  function PayloadSection<C, M>(codec: Codec<C, M>, payload: Option<Payload<M>>): (bytes: seq<Byte>)
  {
    if payload.None? then []
    else [0x0e, 0x01] + U32Bytes(codec.checksum(Checked(codec, payload.value))) + Checked(codec, payload.value)
  }

  /** The frame after its `totalSize` field. */
  function Body<C, M>(codec: Codec<C, M>, m: Message<C, M>): (bytes: seq<Byte>)
  {
    var command := codec.command.encode(m.command);
    U32Bytes(|command|) + command + PayloadSection(codec, m.payload)
  }

  /** The frame the protocol prescribes for a message. */
  function Frame<C, M>(codec: Codec<C, M>, m: Message<C, M>): (bytes: seq<Byte>)
  {
    U32Bytes(|Body(codec, m)|) + Body(codec, m)
  }

  /** The size fields are 32 bits wide. */
  predicate Fits<C, M>(codec: Codec<C, M>, m: Message<C, M>)
  {
    |Body(codec, m)| < TWO_32
  }

  lemma CoveredBytes(head: seq<Byte>, size: seq<Byte>, metadata: seq<Byte>, data: seq<Byte>)
    ensures head + size + metadata + data == head + (size + metadata + data)
  {
  }

  /** The order in which the encoder writes is the order the protocol prescribes. */
  lemma FrameLayout<C, M>(codec: Codec<C, M>, m: Message<C, M>, total: seq<Byte>, size: seq<Byte>, command: seq<Byte>)
    requires total == U32Bytes(|Body(codec, m)|)
    requires command == codec.command.encode(m.command) && size == U32Bytes(|command|)
    ensures m.payload.None? ==> total + size + command == Frame(codec, m)
    ensures m.payload.Some? ==>
              var covered := Checked(codec, m.payload.value);
              total + size + command + [0x0e, 0x01] + U32Bytes(codec.checksum(covered)) + covered == Frame(codec, m)
  {
  }

  /**
   * `Codec::encode`: sizes are computed up front, a zero checksum is written and
   * overwritten in place once the bytes it covers are in the buffer.
   */
  method Encode<C, M>(codec: Codec<C, M>, item: Message<C, M>, dst: Buffer)
    modifies dst
    ensures dst.data == old(dst.data) + Frame(codec, item)
  {
    var command := codec.command.encode(item.command);
    var metadataSize, payloadSize, headerSize := 0, 0, 8;
    if item.payload.Some? {
      metadataSize := |codec.metadata.encode(item.payload.value.metadata)|;
      payloadSize := |item.payload.value.data|;
      headerSize := 18;
    }
    var totalSize := |command| + metadataSize + payloadSize + headerSize - 4;

    var buf := U32Bytes(totalSize);
    buf := buf + U32Bytes(|command|);
    buf := buf + command;
    if item.payload.Some? {
      var payload := item.payload.value;
      buf := buf + [0x0e, 0x01];
      ghost var head := buf;
      var crcOffset := |buf|;
      buf := buf + U32Bytes(0);
      var metadataOffset := |buf|;
      buf := buf + U32Bytes(metadataSize);
      buf := buf + codec.metadata.encode(payload.metadata);
      buf := buf + payload.data;
      ghost var covered := Checked(codec, payload);
      CoveredBytes(head + U32Bytes(0), U32Bytes(metadataSize), codec.metadata.encode(payload.metadata), payload.data);
      Patch(head, U32Bytes(0), covered);
      var crc := codec.checksum(buf[metadataOffset..]);
      buf := buf[..crcOffset] + U32Bytes(crc) + buf[metadataOffset..];
      assert buf == head + U32Bytes(crc) + covered;
    }
    FrameLayout(codec, item, U32Bytes(totalSize), U32Bytes(|command|), command);
    dst.PutSlice(buf);
  }

  lemma PayloadLayout(crc: seq<Byte>, size: seq<Byte>, rest: seq<Byte>)
    requires |crc| == 4 && |size| == 4
    ensures var i := [0x0e, 0x01] + crc + (size + rest);
            i[2..] == crc + (size + rest) && i[6..] == size + rest && i[6..10] == size
  {
  }

  lemma Behind(a: seq<Byte>, b: seq<Byte>, rest: seq<Byte>, i: nat, j: nat)
    requires |a| + |b| == i
    ensures (a + b + rest)[i..] == rest && (a + b + rest)[|a|..i] == b && (a + b + rest)[..|a|] == a
    ensures j <= |rest| ==> (a + b + rest)[i + j..] == rest[j..]
  {
  }

  /** Where the fields of a frame are: both sizes and the command, and a frame without payload ends there. */
  lemma CommandFields<C, M>(codec: Codec<C, M>, m: Message<C, M>)
    requires Fits(codec, m)
    ensures var f, c := Frame(codec, m), codec.command.encode(m.command);
            && 8 + |c| <= |f| && ReadU32(f) == |f| - 4 && ReadU32(f[4..]) == |c| && f[8..8 + |c|] == c
            && f[8 + |c|..] == PayloadSection(codec, m.payload)
            && (m.payload.None? ==> |f| == 8 + |c|)
  {
    var body, c := Body(codec, m), codec.command.encode(m.command);
    U32RoundTrip(|body|, body);
    U32RoundTrip(|c|, c + PayloadSection(codec, m.payload));
    Regroup(U32Bytes(|c|), c, PayloadSection(codec, m.payload));
    Behind(U32Bytes(|body|), U32Bytes(|c|), c + PayloadSection(codec, m.payload), 8, |c|);
    Regroup(U32Bytes(|body|), U32Bytes(|c|), c + PayloadSection(codec, m.payload));
    PrefixOfSum(c, PayloadSection(codec, m.payload), |c|);
  }

  /** The payload section: the magic number, the checksum of all that follows it, the metadata's size, the metadata, the data. */
  lemma PayloadFields<C, M>(codec: Codec<C, M>, p: Payload<M>)
    requires |codec.metadata.encode(p.metadata)| < TWO_32
    ensures var s, md := PayloadSection(codec, Some(p)), codec.metadata.encode(p.metadata);
            && |s| == 10 + |md| + |p.data|
            && s[0] == 0x0e && s[1] == 0x01
            && ReadU32(s[2..]) == codec.checksum(s[6..])
            && ReadU32(s[6..]) == |md| && s[10..10 + |md|] == md && s[10 + |md|..] == p.data
  {
    var md := codec.metadata.encode(p.metadata);
    var crc := U32Bytes(codec.checksum(Checked(codec, p)));
    PayloadLayout(crc, U32Bytes(|md|), md + p.data);
    Regroup(U32Bytes(|md|), md, p.data);
    U32RoundTrip(codec.checksum(Checked(codec, p)), Checked(codec, p));
    U32RoundTrip(|md|, md + p.data);
    Behind([0x0e, 0x01] + crc, U32Bytes(|md|), md + p.data, 10, |md|);
    Regroup([0x0e, 0x01] + crc, U32Bytes(|md|), md + p.data);
    PrefixOfSum(md, p.data, |md|);
  }

  // ---------------------------------------------------------------- decoding

  datatype Decoded<+C, +M> = NeedMore | Malformed | Got(message: Message<C, M>, consumed: nat)

  /** `take(size)` after a 32-bit `size`: the taken bytes and what follows, if there are enough. */
  function SizedField(i: seq<Byte>): (r: Option<(seq<Byte>, seq<Byte>)>)
    ensures r.Some? <==> 4 <= |i| && ReadU32(i) <= |i| - 4
    ensures r.Some? ==> i == i[..4] + r.value.0 + r.value.1 && |r.value.0| == ReadU32(i)
  {
    if |i| < 4 || |i| - 4 < ReadU32(i) then None
    else
      var size := ReadU32(i);
      Some((i[4..4 + size], i[4 + size..]))
  }

  /** The payload part of a frame; the magic number is read and ignored, the checksum is compared. */
  function DecodePayload<C, M>(codec: Codec<C, M>, i: seq<Byte>): (r: Option<Payload<M>>)
    ensures r.Some? ==> 10 <= |i| && ReadU32(i[2..]) == codec.checksum(i[6..])
  {
    if |i| < 6 then None
    else
      match SizedField(i[6..])
      case None => None
      case Some((metadata, data)) =>
        match codec.metadata.decode(metadata)
        case None => None
        case Some(decoded) =>
          if ReadU32(i[2..]) == codec.checksum(i[6..10] + metadata + data) then
            assert i[6..10] + metadata + data == i[6..];
            Some(Payload(decoded, data))
          else None
  }

  /** One complete frame, `totalSize` included. */
  function DecodeFrame<C, M>(codec: Codec<C, M>, frame: seq<Byte>): (r: Option<Message<C, M>>)
    requires 4 <= |frame|
  {
    match SizedField(frame[4..])
    case None => None
    case Some((command, rest)) =>
      match codec.command.decode(command)
      case None => None
      case Some(decoded) =>
        if rest == [] then Some(Message(decoded, None))
        else
          var payload := DecodePayload(codec, rest);
          if payload.None? then None else Some(Message(decoded, payload))
  }

  /** What one call of the decoder makes of the bytes received so far. */
  function DecodeBytes<C, M>(codec: Codec<C, M>, src: seq<Byte>): (r: Decoded<C, M>)
    ensures r.Got? ==> 4 <= r.consumed <= |src| && r.consumed == ReadU32(src) + 4
  {
    if |src| < 4 || |src| < ReadU32(src) + 4 then NeedMore
    else
      var size := ReadU32(src) + 4;
      match DecodeFrame(codec, src[..size])
      case None => Malformed
      case Some(m) => Got(m, size)
  }

  /** `Codec::decode`: the buffer advances by exactly one frame, or not at all. */
  method Decode<C, M>(codec: Codec<C, M>, src: Buffer) returns (r: Result<Option<Message<C, M>>, ()>)
    modifies src
    ensures match DecodeBytes(codec, old(src.data))
            case NeedMore => r == Ok(None) && src.data == old(src.data)
            case Malformed => r == Err(()) && src.data == old(src.data)
            case Got(m, n) => r == Ok(Some(m)) && src.data == old(src.data)[n..]
  {
    if 4 <= |src.data| {
      var messageSize := ReadU32(src.data) + 4;
      if messageSize <= |src.data| {
        var frame := src.data[..messageSize];
        var field := SizedField(frame[4..]);
        if field.None? { return Err(()); }
        var (command, buf) := field.value;
        var decoded := codec.command.decode(command);
        if decoded.None? { return Err(()); }
        var payload: Option<Payload<M>> := None;
        if buf != [] {
          payload := DecodePayload(codec, buf);
          if payload.None? { return Err(()); }
        }
        src.Advance(messageSize);
        return Ok(Some(Message(decoded.value, payload)));
      }
    }
    return Ok(None);
  }

  // ---------------------------------------------------------------- one frame

  lemma SizedFieldReadsBack(field: seq<Byte>, rest: seq<Byte>)
    requires |field| < TWO_32
    ensures SizedField(U32Bytes(|field|) + field + rest) == Some((field, rest))
  {
    var i := U32Bytes(|field|) + field + rest;
    assert i == U32Bytes(|field|) + (field + rest);
    U32RoundTrip(|field|, field + rest);
    assert i[4..4 + |field|] == field;
    assert i[4 + |field|..] == rest;
  }

  lemma PayloadReadsBack<C(!new), M(!new)>(codec: Codec<C, M>, p: Payload<M>)
    requires Faithful(codec)
    requires |Checked(codec, p)| < TWO_32
    ensures DecodePayload(codec, PayloadSection(codec, Some(p))) == Some(p)
  {
    var metadata := codec.metadata.encode(p.metadata);
    var covered := Checked(codec, p);
    var crc := codec.checksum(covered);
    U32RoundTrip(crc, covered);
    SizedFieldReadsBack(metadata, p.data);
    Regroup(U32Bytes(|metadata|), metadata, p.data);
    PayloadLayout(U32Bytes(crc), U32Bytes(|metadata|), metadata + p.data);
    Regroup(U32Bytes(|metadata|), metadata, p.data);
  }

  lemma FrameReadsBack<C(!new), M(!new)>(codec: Codec<C, M>, m: Message<C, M>)
    requires Faithful(codec) && Fits(codec, m)
    ensures DecodeFrame(codec, Frame(codec, m)) == Some(m)
  {
    var command := codec.command.encode(m.command);
    assert Frame(codec, m)[4..] == Body(codec, m);
    SizedFieldReadsBack(command, PayloadSection(codec, m.payload));
    if m.payload.Some? {
      PayloadReadsBack(codec, m.payload.value);
    }
  }

  /**
   * A frame at the head of the buffer is decoded to the message it encodes, and nothing behind it
   * is touched, exactly when its size fits the 32-bit field.
   */
  lemma DecodeInvertsEncode<C(!new), M(!new)>(codec: Codec<C, M>, m: Message<C, M>, behind: seq<Byte>)
    requires Faithful(codec)
    ensures DecodeBytes(codec, Frame(codec, m) + behind) == Got(m, |Frame(codec, m)|) <==> Fits(codec, m)
  {
    var body := Body(codec, m);
    var src := Frame(codec, m) + behind;
    assert src == U32Bytes(|body|) + (body + behind);
    U32RoundTrip(|body|, body + behind);
    if Fits(codec, m) {
      assert src[..|body| + 4] == Frame(codec, m);
      FrameReadsBack(codec, m);
    }
  }

  /** Before the last byte of a frame has arrived the decoder yields nothing and consumes nothing. */
  lemma ProperPrefixWaits<C, M>(codec: Codec<C, M>, m: Message<C, M>, k: nat)
    requires Fits(codec, m) && k < |Frame(codec, m)|
    ensures DecodeBytes(codec, Frame(codec, m)[..k]) == NeedMore
  {
    if 4 <= k {
      var body := Body(codec, m);
      assert Frame(codec, m)[..k] == U32Bytes(|body|) + body[..k - 4];
      U32RoundTrip(|body|, body[..k - 4]);
    }
  }

  lemma BehindField(src: seq<Byte>, size: nat, field: nat, rest: seq<Byte>)
    requires 8 + field + 6 <= size <= |src| && rest == src[..size][4..][4 + field..]
    ensures rest[2..] == src[10 + field..size] && rest[6..] == src[14 + field..size]
  {
  }

  /** A payload is only ever delivered with a checksum that matches the bytes it was sent with. */
  lemma DeliveredPayloadIsChecked<C, M>(codec: Codec<C, M>, src: seq<Byte>) returns (at: nat)
    requires DecodeBytes(codec, src).Got? && DecodeBytes(codec, src).message.payload.Some?
    ensures at + 10 <= DecodeBytes(codec, src).consumed
    ensures var end := DecodeBytes(codec, src).consumed;
            ReadU32(src[at + 2..end]) == codec.checksum(src[at + 6..end])
  {
    hide ReadU32, DecodePayload;
    var size := ReadU32(src) + 4;
    var frame := src[..size];
    var (command, rest) := SizedField(frame[4..]).value;
    at := 8 + |command|;
    BehindField(src, size, |command|, rest);
    assert DecodePayload(codec, rest).Some?;
  }

  // ---------------------------------------------------------------- byte streams

  /** What a reader has produced so far, the bytes it still holds, and whether it has failed. */
  datatype Stream<+C, +M> = Stream(out: seq<Message<C, M>>, rest: seq<Byte>, failed: bool)

  /** Decodes until the decoder asks for more bytes or fails; after a failure nothing is read. */
  function Drain<C, M>(codec: Codec<C, M>, buf: seq<Byte>): (s: Stream<C, M>)
    ensures !s.failed ==> DecodeBytes(codec, s.rest) == NeedMore
    decreases |buf|
  {
    match DecodeBytes(codec, buf)
    case NeedMore => Stream([], buf, false)
    case Malformed => Stream([], [], true)
    case Got(m, n) => Prepend(m, Drain(codec, buf[n..]))
  }

  /** The reader receives one more chunk. */
  function Extend<C, M>(codec: Codec<C, M>, s: Stream<C, M>, chunk: seq<Byte>): (t: Stream<C, M>)
    ensures s.out <= t.out
  {
    if s.failed then s
    else
      var next := Drain(codec, s.rest + chunk);
      next.(out := s.out + next.out)
  }

  function ReadChunks<C, M>(codec: Codec<C, M>, chunks: seq<seq<Byte>>): (s: Stream<C, M>)
  {
    if chunks == [] then Stream([], [], false)
    else Extend(codec, ReadChunks(codec, chunks[..|chunks| - 1]), chunks[|chunks| - 1])
  }

  function EncodeAll<C, M>(codec: Codec<C, M>, ms: seq<Message<C, M>>): (bytes: seq<Byte>)
  {
    if ms == [] then [] else Frame(codec, ms[0]) + EncodeAll(codec, ms[1..])
  }

  lemma ReadU32OfSum(a: seq<Byte>, b: seq<Byte>)
    requires 4 <= |a|
    ensures ReadU32(a + b) == ReadU32(a)
  {
  }

  /** More bytes never change what the decoder already decided. */
  lemma DecisionIsStable<C, M>(codec: Codec<C, M>, a: seq<Byte>, b: seq<Byte>)
    requires DecodeBytes(codec, a) != NeedMore
    ensures DecodeBytes(codec, a + b) == DecodeBytes(codec, a)
  {
    hide ReadU32, DecodeFrame;
    ReadU32OfSum(a, b);
    PrefixOfSum(a, b, ReadU32(a) + 4);
  }

  function Prepend<C, M>(m: Message<C, M>, s: Stream<C, M>): (t: Stream<C, M>)
  {
    s.(out := [m] + s.out)
  }

  lemma ExtendPrepend<C, M>(codec: Codec<C, M>, m: Message<C, M>, s: Stream<C, M>, chunk: seq<Byte>)
    ensures Extend(codec, Prepend(m, s), chunk) == Prepend(m, Extend(codec, s, chunk))
  {
    if !s.failed {
      var next := Drain(codec, s.rest + chunk);
      Regroup([m], s.out, next.out);
    }
  }

  lemma {:induction false} DrainAppend<C, M>(codec: Codec<C, M>, a: seq<Byte>, b: seq<Byte>)
    ensures Drain(codec, a + b) == Extend(codec, Drain(codec, a), b)
    decreases |a|
  {
    hide DecodeBytes;
    var decision := DecodeBytes(codec, a);
    if decision == NeedMore {
      Regroup([], [], Drain(codec, a + b).out);
    } else {
      DecisionIsStable(codec, a, b);
      if decision.Got? {
        var n := decision.consumed;
        assert (a + b)[n..] == a[n..] + b;
        DrainAppend(codec, a[n..], b);
        ExtendPrepend(codec, decision.message, Drain(codec, a[n..]), b);
      }
    }
  }

  /**
   * Where a byte stream is cut is irrelevant: on every stream, well formed or not, reading it chunk
   * by chunk gives the messages, the leftover bytes and the failure of reading it in one piece.
   */
  lemma {:induction false} ChunkingIsIrrelevant<C, M>(codec: Codec<C, M>, chunks: seq<seq<Byte>>)
    ensures ReadChunks(codec, chunks) == Drain(codec, Concat(chunks))
  {
    if chunks != [] {
      var earlier, last := chunks[..|chunks| - 1], chunks[|chunks| - 1];
      LastSplits(chunks);
      ChunkingIsIrrelevant(codec, earlier);
      ConcatAppend(earlier, last);
      DrainAppend(codec, Concat(earlier), last);
    }
  }

  lemma DrainOne<C, M>(codec: Codec<C, M>, m: Message<C, M>, behind: seq<Byte>)
    requires DecodeBytes(codec, Frame(codec, m) + behind) == Got(m, |Frame(codec, m)|)
    ensures Drain(codec, Frame(codec, m) + behind) == Prepend(m, Drain(codec, behind))
  {
    assert (Frame(codec, m) + behind)[|Frame(codec, m)|..] == behind;
  }

  lemma {:induction false} DrainEncoded<C(!new), M(!new)>(codec: Codec<C, M>, ms: seq<Message<C, M>>, part: seq<Byte>)
    requires Faithful(codec)
    requires forall m :: m in ms ==> Fits(codec, m)
    requires DecodeBytes(codec, part) == NeedMore
    ensures Drain(codec, EncodeAll(codec, ms) + part) == Stream(ms, part, false)
    decreases |ms|
  {
    if ms == [] {
      assert EncodeAll(codec, ms) + part == part;
    } else {
      var frame := Frame(codec, ms[0]);
      var behind := EncodeAll(codec, ms[1..]) + part;
      Regroup(frame, EncodeAll(codec, ms[1..]), part);
      assert ms[0] in ms;
      DecodeInvertsEncode(codec, ms[0], behind);
      DrainEncoded(codec, ms[1..], part);
      DrainOne(codec, ms[0], behind);
      assert [ms[0]] + ms[1..] == ms;
    }
  }

  /**
   * However the encodings of `ms`, followed by `k` bytes of one more frame, are cut into chunks,
   * the reader produces exactly `ms` in order and keeps exactly those `k` bytes.
   */
  lemma StreamRoundTrip<C(!new), M(!new)>(
    codec: Codec<C, M>, ms: seq<Message<C, M>>, next: Message<C, M>, k: nat, chunks: seq<seq<Byte>>)
    requires Faithful(codec)
    requires forall m :: m in ms ==> Fits(codec, m)
    requires Fits(codec, next) && k < |Frame(codec, next)|
    requires Concat(chunks) == EncodeAll(codec, ms) + Frame(codec, next)[..k]
    ensures ReadChunks(codec, chunks) == Stream(ms, Frame(codec, next)[..k], false)
  {
    ProperPrefixWaits(codec, next, k);
    ChunkingIsIrrelevant(codec, chunks);
    DrainEncoded(codec, ms, Frame(codec, next)[..k]);
  }
}
