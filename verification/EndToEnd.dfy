/**
 * From the caller to the bytes and back: whoever reads a batching producer's byte stream with the
 * frame decoder and unpacks its batches recovers the accepted messages, in order, whatever the
 * interleaving of the producer's tasks and wherever the stream was cut.
 */
module EndToEnd {
  import opened Common
  import opened Bytes
  import opened Messages
  import opened BatchFormat
  import opened BatchStorage
  import opened SendLoop
  import P = Pipeline
  import T = PipelineTheorems
  import F = Framing

  /** What differs from one wire message of a producer to the next besides its batch. */
  datatype Stamp = Stamp(sequenceId: U64, publishTime: U64, schemaVersion: Option<seq<Byte>>)

  datatype SendCommand = SendCommand(producerId: U64, sequenceId: U64, numMessages: Option<I32>)

  type WireCodec = F.Codec<SendCommand, MessageMetadata>
  type WireMessage = F.Message<SendCommand, MessageMetadata>

  /** A producer as its wire messages name it, and the stamp of each of them. */
  datatype Origin = Origin(producerId: U64, producerName: string, stamp: nat -> Stamp)

  /** The command and payload a batch envelope is sent as. */
  function ToWire(origin: Origin, k: nat, e: Envelope): (m: WireMessage)
  {
    var stamp := origin.stamp(k);
    var p := BatchEnvelope(e.payload, e.numMessages, stamp.schemaVersion);
    F.Message(
      SendCommand(origin.producerId, stamp.sequenceId, p.numMessagesInBatch),
      Some(F.Payload(ToMetadata(origin.producerName, stamp.sequenceId, stamp.publishTime, p), p.payload)))
  }

  /** Command and metadata of a wire message agree on whose it is, which one it is, and how many messages it holds. */
  lemma CommandMatchesMetadata(origin: Origin, k: nat, e: Envelope)
    ensures var m := ToWire(origin, k, e);
            && m.payload.Some? && m.payload.value.data == e.payload
            && m.command.producerId == origin.producerId && m.payload.value.metadata.producerName == origin.producerName
            && m.command.sequenceId == m.payload.value.metadata.sequenceId == origin.stamp(k).sequenceId
            && m.command.numMessages == m.payload.value.metadata.numMessagesInBatch == Some(e.numMessages)
  {
  }

  /** The wire messages of the finished batches; `sent` tells which of them went out on the stream in question. */
  function WireMessages(mc: MetadataCodec, origin: Origin, done: seq<DoneBatch>, sent: nat -> bool): (ms: seq<WireMessage>)
  {
    if done == [] then []
    else
      var n := |done| - 1;
      WireMessages(mc, origin, done[..n], sent) +
      if done[n].reply.Some? && sent(n) then [ToWire(origin, n, Envelopes(mc, done[n])[0])] else []
  }

  function SentContents(done: seq<DoneBatch>, sent: nat -> bool): (messages: seq<BatchedMessage>)
  {
    if done == [] then []
    else
      var n := |done| - 1;
      SentContents(done[..n], sent) + if done[n].reply.Some? && sent(n) then Contents(done[n].items) else []
  }

  /** `n as u32`. */
  function AsU32(n: I32): (u: U32)
  {
    if n < 0 then n + TWO_32 else n
  }

  /** `BatchedMessageIterator::new`: the payload is parsed with the count its metadata announces. */
  function Unpack(mc: MetadataCodec, m: WireMessage): (r: Option<seq<BatchedMessage>>)
  {
    if m.payload.None? || m.payload.value.metadata.numMessagesInBatch.None? then None
    else ParseEntries(mc, AsU32(m.payload.value.metadata.numMessagesInBatch.value), m.payload.value.data)
  }

  function UnpackAll(mc: MetadataCodec, ms: seq<WireMessage>): (r: Option<seq<BatchedMessage>>)
  {
    if ms == [] then Some([])
    else
      match (UnpackAll(mc, ms[..|ms| - 1]), Unpack(mc, ms[|ms| - 1]))
      case (Some(earlier), Some(last)) => Some(earlier + last)
      case _ => None
  }

  /** The limits of the batch format hold for a finished batch. */
  predicate Transmittable(mc: MetadataCodec, d: DoneBatch)
  {
    && |Contents(d.items)| == |WithoutFlush(d.items)| < TWO_31
    && (forall b :: b in Contents(d.items) ==> Storable(mc, b))
  }

  lemma BatchUnpacks(mc: MetadataCodec, origin: Origin, k: nat, d: DoneBatch)
    requires F.RoundTrips(mc) && Transmittable(mc, d) && d.reply.Some?
    ensures Unpack(mc, ToWire(origin, k, Envelopes(mc, d)[0])) == Some(Contents(d.items))
  {
    T.BatchOnTheWire(mc, d.items);
  }

  lemma UnpackAllAppend(mc: MetadataCodec, ms: seq<WireMessage>, m: WireMessage)
    requires UnpackAll(mc, ms).Some? && Unpack(mc, m).Some?
    ensures UnpackAll(mc, ms + [m]) == Some(UnpackAll(mc, ms).value + Unpack(mc, m).value)
  {
    assert (ms + [m])[..|ms|] == ms;
  }

  lemma {:induction false} WireUnpacks(mc: MetadataCodec, origin: Origin, done: seq<DoneBatch>, sent: nat -> bool)
    requires F.RoundTrips(mc) && forall d :: d in done ==> Transmittable(mc, d)
    ensures UnpackAll(mc, WireMessages(mc, origin, done, sent)) == Some(SentContents(done, sent))
  {
    if done != [] {
      var n := |done| - 1;
      WireUnpacks(mc, origin, done[..n], sent);
      var earlier := WireMessages(mc, origin, done[..n], sent);
      if done[n].reply.Some? && sent(n) {
        assert done[n] in done;
        BatchUnpacks(mc, origin, n, done[n]);
        UnpackAllAppend(mc, earlier, ToWire(origin, n, Envelopes(mc, done[n])[0]));
      } else {
        assert earlier + [] == earlier;
        assert SentContents(done[..n], sent) + [] == SentContents(done[..n], sent);
      }
    }
  }

  lemma {:induction false} ContentIsItem(items: seq<Item>, b: BatchedMessage) returns (item: Item)
    requires b in Contents(items)
    ensures item in items && item.Single? && item.message == b
  {
    if items[0].Single? && items[0].message == b {
      item := items[0];
    } else {
      item := ContentIsItem(items[1..], b);
    }
  }

  /** A finished batch of a run is transmittable if the messages it accepted are. */
  lemma FinishedIsTransmittable(limits: Limits, s: P.State, mc: MetadataCodec, d: DoneBatch)
    requires P.Inv(limits, s) && d in s.done && |Contents(d.items)| < TWO_31
    requires forall item :: item in s.accepted && item.Single? ==> Storable(mc, item.message)
    ensures Transmittable(mc, d)
  {
    CounterIsMessageCount(limits, d.items);
    T.ContentsCount(d.items);
    forall b | b in Contents(d.items) ensures Storable(mc, b) {
      var item := ContentIsItem(d.items, b);
      T.DoneItemIsSettled(s.done, d, item);
      T.SettledIsPrefix(s);
    }
  }

  /** Frames that fit, cut anywhere, are decoded completely. */
  lemma SentBytesDecode(codec: WireCodec, ms: seq<WireMessage>, chunks: seq<seq<Byte>>)
    requires F.Faithful(codec) && forall m :: m in ms ==> F.Fits(codec, m)
    requires Concat(chunks) == F.EncodeAll(codec, ms)
    ensures F.ReadChunks(codec, chunks) == F.Stream(ms, [], false)
  {
    F.ChunkingIsIrrelevant(codec, chunks);
    F.DrainEncoded(codec, ms, []);
    assert F.EncodeAll(codec, ms) + [] == F.EncodeAll(codec, ms);
  }

  /**
   * In every reachable state of the pipeline, the bytes of the batches that went out on a stream,
   * cut anywhere, are read back as exactly the messages of those batches, in order, with nothing
   * left over.
   */
  lemma SentBatchesReadBack(
    limits: Limits, es: seq<P.Event>, s: P.State, mc: MetadataCodec, codec: WireCodec,
    origin: Origin, sent: nat -> bool, chunks: seq<seq<Byte>>)
    requires F.RoundTrips(mc) && F.Faithful(codec)
    requires P.Run(limits, es) == Some(s)
    requires forall item :: item in s.accepted && item.Single? ==> Storable(mc, item.message)
    requires forall d :: d in s.done ==> |Contents(d.items)| < TWO_31
    requires forall m :: m in WireMessages(mc, origin, s.done, sent) ==> F.Fits(codec, m)
    requires Concat(chunks) == F.EncodeAll(codec, WireMessages(mc, origin, s.done, sent))
    ensures var stream := F.ReadChunks(codec, chunks);
            && !stream.failed && stream.rest == []
            && UnpackAll(mc, stream.out) == Some(SentContents(s.done, sent))
  {
    P.RunKeepsInvariant(limits, es);
    forall d | d in s.done ensures Transmittable(mc, d) {
      FinishedIsTransmittable(limits, s, mc, d);
    }
    WireUnpacks(mc, origin, s.done, sent);
    SentBytesDecode(codec, WireMessages(mc, origin, s.done, sent), chunks);
  }

  // ---------------------------------------------------------------- what the consumer sees

  /** The entries of a batch as `BatchedMessageIterator` hands them out. */
  function Seen(envelope: MessageMetadata, batch: seq<BatchedMessage>): (messages: seq<Message>)
    ensures |messages| == |batch|
  {
    seq(|batch|, i requires 0 <= i < |batch| => FromMetadata(EntryMetadata(envelope, batch[i].metadata), batch[i].payload))
  }

  function Consume(mc: MetadataCodec, m: WireMessage): (r: Option<seq<Message>>)
  {
    var batch := Unpack(mc, m);
    if batch.None? then None else Some(Seen(m.payload.value.metadata, batch.value))
  }

  function ConsumeAll(mc: MetadataCodec, ms: seq<WireMessage>): (r: Option<seq<Message>>)
  {
    if ms == [] then Some([])
    else
      match (ConsumeAll(mc, ms[..|ms| - 1]), Consume(mc, ms[|ms| - 1]))
      case (Some(earlier), Some(last)) => Some(earlier + last)
      case _ => None
  }

  lemma ConsumeAllAppend(mc: MetadataCodec, ms: seq<WireMessage>, m: WireMessage)
    requires ConsumeAll(mc, ms).Some? && Consume(mc, m).Some?
    ensures ConsumeAll(mc, ms + [m]) == Some(ConsumeAll(mc, ms).value + Consume(mc, m).value)
  {
    assert (ms + [m])[..|ms|] == ms;
  }

  /** What callers handed in, as a batch sent with `schemaVersion` carries it. */
  function Carried(ids: seq<nat>, original: nat -> Message, schemaVersion: Option<seq<Byte>>): (messages: seq<Message>)
    ensures |messages| == |ids|
    ensures forall i :: 0 <= i < |ids| ==> messages[i] == AsBatched(original(ids[i]), schemaVersion)
  {
    seq(|ids|, i requires 0 <= i < |ids| => AsBatched(original(ids[i]), schemaVersion))
  }

  /** The finished batches that went out, message by message, as their batches carried them. */
  function AllCarried(origin: Origin, done: seq<DoneBatch>, sent: nat -> bool, original: nat -> Message): (messages: seq<Message>)
  {
    if done == [] then []
    else
      var n := |done| - 1;
      AllCarried(origin, done[..n], sent, original) +
      if done[n].reply.Some? && sent(n) then Carried(SingleIds(done[n].items), original, origin.stamp(n).schemaVersion) else []
  }

  /** Every message in these items was made from what its caller handed in. */
  predicate MadeFrom(mc: MetadataCodec, items: seq<Item>, original: nat -> Message)
  {
    forall item :: item in items && item.Single? ==>
      item.message == ToBatched(ToProducerMessage(original(item.id))) && Storable(mc, item.message)
  }

  lemma BatchIsConsumed(mc: MetadataCodec, origin: Origin, k: nat, d: DoneBatch, original: nat -> Message)
    requires F.RoundTrips(mc) && Transmittable(mc, d) && d.reply.Some? && MadeFrom(mc, d.items, original)
    ensures Consume(mc, ToWire(origin, k, Envelopes(mc, d)[0])) ==
              Some(Carried(SingleIds(d.items), original, origin.stamp(k).schemaVersion))
  {
    BatchUnpacks(mc, origin, k, d);
    T.ContentsCount(d.items);
    var stamp, e, ids := origin.stamp(k), Envelopes(mc, d)[0], SingleIds(d.items);
    var seen := Seen(ToWire(origin, k, e).payload.value.metadata, Contents(d.items));
    forall i | 0 <= i < |ids|
      ensures seen[i] == AsBatched(original(ids[i]), stamp.schemaVersion)
    {
      var j := T.SingleOfIndex(d.items, i);
      assert d.items[j] in d.items;
      WhatBatchingLoses(original(ids[i]), origin.producerName, stamp.sequenceId, stamp.publishTime,
                        e.payload, e.numMessages, stamp.schemaVersion);
    }
    assert seen == Carried(ids, original, stamp.schemaVersion);
  }

  lemma {:induction false} WireIsConsumed(
    mc: MetadataCodec, origin: Origin, done: seq<DoneBatch>, sent: nat -> bool, original: nat -> Message)
    requires F.RoundTrips(mc) && forall d :: d in done ==> Transmittable(mc, d) && MadeFrom(mc, d.items, original)
    ensures ConsumeAll(mc, WireMessages(mc, origin, done, sent)) == Some(AllCarried(origin, done, sent, original))
  {
    if done != [] {
      var n := |done| - 1;
      WireIsConsumed(mc, origin, done[..n], sent, original);
      var earlier := WireMessages(mc, origin, done[..n], sent);
      if done[n].reply.Some? && sent(n) {
        assert done[n] in done;
        BatchIsConsumed(mc, origin, n, done[n], original);
        ConsumeAllAppend(mc, earlier, ToWire(origin, n, Envelopes(mc, done[n])[0]));
      } else {
        assert earlier + [] == earlier;
        assert AllCarried(origin, done[..n], sent, original) + [] == AllCarried(origin, done[..n], sent, original);
      }
    }
  }

  /** For each message of the finished batches, the schema version its batch was sent with. */
  function SchemasOf(origin: Origin, done: seq<DoneBatch>): (schemas: seq<Option<seq<Byte>>>)
  {
    if done == [] then []
    else
      var n := |done| - 1;
      SchemasOf(origin, done[..n]) + seq(|SingleIds(done[n].items)|, i => origin.stamp(n).schemaVersion)
  }

  /** The messages a consumer reads when all of `ids` arrive, each with its batch's schema version. */
  predicate Arrives(messages: seq<Message>, ids: seq<nat>, schemas: seq<Option<seq<Byte>>>, original: nat -> Message)
  {
    && |messages| == |ids| == |schemas|
    && (forall i :: 0 <= i < |ids| ==> messages[i] == AsBatched(original(ids[i]), schemas[i]))
  }

  lemma ArrivesAppend(
    a: seq<Message>, i: seq<nat>, s: seq<Option<seq<Byte>>>, ids: seq<nat>, schema: Option<seq<Byte>>, original: nat -> Message)
    requires Arrives(a, i, s, original)
    ensures Arrives(a + Carried(ids, original, schema), i + ids, s + seq(|ids|, k => schema), original)
  {
  }

  lemma {:induction false} AllSentArrive(origin: Origin, done: seq<DoneBatch>, sent: nat -> bool, original: nat -> Message)
    requires forall k :: 0 <= k < |done| ==> sent(k)
    requires forall d :: d in done ==> (d.reply.None? <==> WithoutFlush(d.items) == [])
    ensures Arrives(AllCarried(origin, done, sent, original), SingleIds(P.DoneItems(done)), SchemasOf(origin, done), original)
  {
    if done != [] {
      var n := |done| - 1;
      assert done[n] in done;
      AllSentArrive(origin, done[..n], sent, original);
      IdsAppend(P.DoneItems(done[..n]), done[n].items);
      WithoutFlushKeepsSingles(done[n].items);
      ArrivesAppend(AllCarried(origin, done[..n], sent, original), SingleIds(P.DoneItems(done[..n])),
                    SchemasOf(origin, done[..n]), SingleIds(done[n].items), origin.stamp(n).schemaVersion, original);
      assert Carried([], original, origin.stamp(n).schemaVersion) == [];
    }
  }

  /**
   * The message at some place, seen where its batch had this schema version: all of it arrives but
   * schema version, replication override and delivery time, so it is unchanged exactly if it had
   * neither of the latter two and the schema version is its own.
   */
  predicate ArrivesAs(seen: Message, m: Message, schema: Option<seq<Byte>>)
  {
    && seen == AsBatched(m, schema)
    && (seen == m <==> m.schemaVersion == schema && m.replicateTo == [] && m.deliverAt.None?)
  }

  lemma ArrivalsComeFirst(
    messages: seq<Message>, ids: seq<nat>, all: seq<nat>, schemas: seq<Option<seq<Byte>>>, original: nat -> Message)
    requires Arrives(messages, ids, schemas, original) && ids <= all
    ensures |messages| == |schemas| <= |all|
    ensures forall i :: 0 <= i < |messages| ==> ArrivesAs(messages[i], original(all[i]), schemas[i])
  {
    forall i | 0 <= i < |messages| ensures ArrivesAs(messages[i], original(all[i]), schemas[i]) {
      assert all[i] == ids[i];
    }
  }

  /** The finished batches of a run meet the format's limits and hold what their callers handed in. */
  lemma FinishedIsMade(limits: Limits, s: P.State, mc: MetadataCodec, d: DoneBatch, original: nat -> Message)
    requires P.Inv(limits, s) && d in s.done && |Contents(d.items)| < TWO_31
    requires MadeFrom(mc, s.accepted, original)
    ensures Transmittable(mc, d) && MadeFrom(mc, d.items, original)
  {
    FinishedIsTransmittable(limits, s, mc, d);
    forall item | item in d.items && item.Single?
      ensures item.message == ToBatched(ToProducerMessage(original(item.id))) && Storable(mc, item.message)
    {
      T.DoneItemIsSettled(s.done, d, item);
      T.SettledIsPrefix(s);
    }
  }

  /**
   * End to end: if every batch goes out, a consumer of the stream sees, message by message and in the
   * order of acceptance, what the callers handed in, except that each message has the schema version
   * its batch was sent with, no replication override and no delivery time. So a message arrives
   * unchanged exactly if it had neither of these and the batch's schema version is its own. The
   * messages seen are those accepted first.
   */
  lemma CallersMessagesArriveInOrder(
    limits: Limits, es: seq<P.Event>, s: P.State, mc: MetadataCodec, codec: WireCodec,
    origin: Origin, sent: nat -> bool, chunks: seq<seq<Byte>>, original: nat -> Message)
    returns (seen: seq<Message>)
    requires F.RoundTrips(mc) && F.Faithful(codec)
    requires P.Run(limits, es) == Some(s) && forall k :: 0 <= k < |s.done| ==> sent(k)
    requires MadeFrom(mc, s.accepted, original)
    requires forall d :: d in s.done ==> |Contents(d.items)| < TWO_31
    requires forall m :: m in WireMessages(mc, origin, s.done, sent) ==> F.Fits(codec, m)
    requires Concat(chunks) == F.EncodeAll(codec, WireMessages(mc, origin, s.done, sent))
    ensures ConsumeAll(mc, F.ReadChunks(codec, chunks).out) == Some(seen)
    ensures |seen| == |SchemasOf(origin, s.done)| <= |SingleIds(s.accepted)|
    ensures forall i :: 0 <= i < |seen| ==>
              ArrivesAs(seen[i], original(SingleIds(s.accepted)[i]), SchemasOf(origin, s.done)[i])
    ensures s.sender.SenderDone? && s.leftover == [] ==> |seen| == |SingleIds(s.accepted)|
  {
    P.RunKeepsInvariant(limits, es);
    SentBytesDecode(codec, WireMessages(mc, origin, s.done, sent), chunks);
    forall d | d in s.done ensures Transmittable(mc, d) && MadeFrom(mc, d.items, original) {
      FinishedIsMade(limits, s, mc, d, original);
    }
    WireIsConsumed(mc, origin, s.done, sent, original);
    AllSentArrive(origin, s.done, sent, original);
    seen := AllCarried(origin, s.done, sent, original);
    var items := P.DoneItems(s.done);
    T.SettledIsPrefix(s);
    IdsOfPrefix(items, s.accepted);
    ArrivalsComeFirst(seen, SingleIds(items), SingleIds(s.accepted), SchemasOf(origin, s.done), original);
    if s.sender.SenderDone? && s.leftover == [] {
      T.ClosedIsSettled(limits, s);
      assert items + [] == items;
    }
  }

  lemma IdsOfPrefix(items: seq<Item>, all: seq<Item>)
    requires items <= all
    ensures SingleIds(items) <= SingleIds(all)
  {
    var rest := PrefixSplits(items, all);
    IdsAppend(items, rest);
  }

  lemma PrefixSplits<X>(a: seq<X>, b: seq<X>) returns (rest: seq<X>)
    requires a <= b
    ensures b == a + rest
  {
    rest := b[|a|..];
  }

  // ---------------------------------------------------------------- message ids

  /** `BatchedMessageIterator`: the id under which a consumer sees message `index` of an unpacked batch. */
  function ConsumerId(entry: MessageId, index: nat, total: U32): (id: MessageId)
  {
    entry.(batchIndex := Some(AsI32(index)), batchSize := Some(AsI32(total)))
  }

  /**
   * The id in a sender's receipt is the id under which a consumer of the same entry sees that
   * sender's message.
   */
  lemma ReceiptIdIsConsumerId(
    limits: Limits, es: seq<P.Event>, s: P.State, mc: MetadataCodec, origin: Origin, k: nat, entry: MessageId, i: nat)
    returns (message: BatchedMessage, caller: nat)
    requires F.RoundTrips(mc)
    requires P.Run(limits, es) == Some(s)
    requires k < |s.done| && s.done[k].reply == Some(Sent(Receipt(Some(entry))))
    requires i < |Contents(s.done[k].items)| < TWO_31
    requires forall item :: item in s.accepted && item.Single? ==> Storable(mc, item.message)
    ensures Single(caller, message) in s.accepted
    ensures var m := ToWire(origin, k, Envelopes(mc, s.done[k])[0]);
            var total := AsU32(m.payload.value.metadata.numMessagesInBatch.value);
            && Unpack(mc, m).Some? && i < |Unpack(mc, m).value| == total
            && Unpack(mc, m).value[i] == message
            && Resolution(caller, Delivered(Receipt(Some(ConsumerId(entry, i, total))))) in s.resolved
  {
    P.RunKeepsInvariant(limits, es);
    var d := s.done[k];
    FinishedIsTransmittable(limits, s, mc, d);
    message, caller := T.ReceiptNamesWirePosition(limits, es, s, mc, d, entry, i);
    BatchUnpacks(mc, origin, k, d);
  }
}
