/** The payload of a batch: `metadataSize metadata payload` for each message, back to back. */
module BatchFormat {
  import opened Common
  import opened Bytes
  import opened Messages
  import opened Framing

  type MetadataCodec = Proto<SingleMetadata>

  function Entry(codec: MetadataCodec, b: BatchedMessage): (bytes: seq<Byte>)
  {
    var metadata := codec.encode(b.metadata);
    U32Bytes(|metadata|) + metadata + b.payload
  }

  function Entries(codec: MetadataCodec, batch: seq<BatchedMessage>): (bytes: seq<Byte>)
  {
    if batch == [] then [] else Entry(codec, batch[0]) + Entries(codec, batch[1..])
  }

  /** `BatchedMessage::serialize`. */
  method Serialize(codec: MetadataCodec, b: BatchedMessage, w: Buffer)
    modifies w
    ensures w.data == old(w.data) + Entry(codec, b)
  {
    var metadata := codec.encode(b.metadata);
    w.PutU32(|metadata|);
    w.PutSlice(metadata);
    w.PutSlice(b.payload);
    assert w.data == old(w.data) + Entry(codec, b);
  }

  /** `batched_message`: one entry and the bytes after it. */
  function ParseEntry(codec: MetadataCodec, i: seq<Byte>): (r: Option<(BatchedMessage, seq<Byte>)>)
  {
    match SizedField(i)
    case None => None
    case Some((encoded, rest)) =>
      match codec.decode(encoded)
      case None => None
      case Some(metadata) =>
        if metadata.payloadSize < 0 || |rest| < metadata.payloadSize then None
        else Some((BatchedMessage(metadata, rest[..metadata.payloadSize]), rest[metadata.payloadSize..]))
  }

  /** `parse_batched_message`: exactly `count` entries; bytes left over are ignored. */
  function ParseEntries(codec: MetadataCodec, count: nat, i: seq<Byte>): (r: Option<seq<BatchedMessage>>)
    ensures r.Some? ==> |r.value| == count
  {
    if count == 0 then Some([])
    else
      match ParseEntry(codec, i)
      case None => None
      case Some((b, rest)) =>
        var tail := ParseEntries(codec, count - 1, rest);
        if tail.None? then None else Some([b] + tail.value)
  }

  /** The limits of the format: metadata below 2^32 bytes, payloads below 2^31 and stated correctly. */
  predicate Storable(codec: MetadataCodec, b: BatchedMessage)
  {
    && |codec.encode(b.metadata)| < TWO_32
    && b.metadata.payloadSize == |b.payload| < TWO_31
  }

  lemma EntryReadsBack(codec: MetadataCodec, b: BatchedMessage, rest: seq<Byte>)
    requires RoundTrips(codec) && |codec.encode(b.metadata)| < TWO_32
    ensures b.metadata.payloadSize == |b.payload| <==> ParseEntry(codec, Entry(codec, b) + rest) == Some((b, rest))
  {
    var i := Entry(codec, b) + rest;
    assert i == U32Bytes(|codec.encode(b.metadata)|) + codec.encode(b.metadata) + (b.payload + rest);
    SizedFieldReadsBack(codec.encode(b.metadata), b.payload + rest);
    var size := b.metadata.payloadSize;
    if size == |b.payload| {
      assert (b.payload + rest)[..size] == b.payload;
      assert (b.payload + rest)[size..] == rest;
    }
  }

  /** A message built by `send_raw` can be read back from its batch exactly when its payload is below 2^31 bytes. */
  lemma SentEntryReadsBack(codec: MetadataCodec, p: ProducerMessage, rest: seq<Byte>)
    requires RoundTrips(codec) && |codec.encode(ToBatched(p).metadata)| < TWO_32
    ensures ParseEntry(codec, Entry(codec, ToBatched(p)) + rest) == Some((ToBatched(p), rest)) <==> |p.payload| < TWO_31
  {
    EntryReadsBack(codec, ToBatched(p), rest);
  }

  lemma ParseStep(codec: MetadataCodec, i: seq<Byte>, b: BatchedMessage, rest: seq<Byte>, tail: seq<BatchedMessage>)
    requires ParseEntry(codec, i) == Some((b, rest))
    requires ParseEntries(codec, |tail|, rest) == Some(tail)
    ensures ParseEntries(codec, |tail| + 1, i) == Some([b] + tail)
  {
  }

  /** Parsing a batch with its own message count returns exactly the messages it was built from, in order. */
  lemma {:induction false} BatchReadsBack(codec: MetadataCodec, batch: seq<BatchedMessage>, rest: seq<Byte>)
    requires RoundTrips(codec)
    requires forall b :: b in batch ==> Storable(codec, b)
    ensures ParseEntries(codec, |batch|, Entries(codec, batch) + rest) == Some(batch)
  {
    if batch != [] {
      var first, others := batch[0], batch[1..];
      var behind := Entries(codec, others) + rest;
      assert Entries(codec, batch) + rest == Entry(codec, first) + behind;
      assert Storable(codec, first);
      EntryReadsBack(codec, first, behind);
      BatchReadsBack(codec, others, rest);
      ParseStep(codec, Entry(codec, first) + behind, first, behind, others);
      assert [first] + others == batch;
    }
  }

  lemma {:induction false} EntriesAppend(codec: MetadataCodec, batch: seq<BatchedMessage>, b: BatchedMessage)
    ensures Entries(codec, batch + [b]) == Entries(codec, batch) + Entry(codec, b)
  {
    if batch == [] {
      assert Entries(codec, [b]) == Entry(codec, b) + Entries(codec, []);
      assert batch + [b] == [b];
    } else {
      assert (batch + [b])[1..] == batch[1..] + [b];
      EntriesAppend(codec, batch[1..], b);
    }
  }
}
