/** The messages a producer accepts and the forms they take on their way to the wire. */
module Messages {
  import opened Common
  import opened Bytes
  import Base64

  datatype PartitionKey = Text(text: string) | Binary(bytes: seq<Byte>) | Null

  datatype Message = Message(
    payload: Option<seq<Byte>>,
    partitionKey: Option<PartitionKey>,
    properties: seq<(string, string)>,
    orderingKey: Option<seq<Byte>>,
    replicateTo: seq<string>,
    eventTime: Option<U64>,
    schemaVersion: Option<seq<Byte>>,
    deliverAt: Option<I64>)

  /** The key as the three fields of the message metadata. */
  datatype WireKey = WireKey(partitionKey: Option<string>, b64Encoded: Option<bool>, nullKey: Option<bool>)

  datatype ProducerMessage = ProducerMessage(
    payload: seq<Byte>,
    nullValue: Option<bool>,
    key: WireKey,
    properties: seq<(string, string)>,
    orderingKey: Option<seq<Byte>>,
    replicateTo: seq<string>,
    numMessagesInBatch: Option<I32>,
    eventTime: Option<U64>,
    schemaVersion: Option<seq<Byte>>,
    deliverAt: Option<I64>)

  /** The metadata of one wire message. */
  datatype MessageMetadata = MessageMetadata(
    producerName: string,
    sequenceId: U64,
    publishTime: U64,
    properties: seq<(string, string)>,
    key: WireKey,
    nullValue: Option<bool>,
    orderingKey: Option<seq<Byte>>,
    replicateTo: seq<string>,
    numMessagesInBatch: Option<I32>,
    eventTime: Option<U64>,
    schemaVersion: Option<seq<Byte>>,
    deliverAt: Option<I64>)

  /** The metadata of one entry of a batch. */
  datatype SingleMetadata = SingleMetadata(
    key: WireKey,
    nullValue: Option<bool>,
    properties: seq<(string, string)>,
    orderingKey: Option<seq<Byte>>,
    eventTime: Option<U64>,
    payloadSize: I32)

  datatype BatchedMessage = BatchedMessage(metadata: SingleMetadata, payload: seq<Byte>)

  /** The text the routers hash. */
  function RoutingKey(key: PartitionKey): (text: Option<string>)
  {
    match key
    case Text(text) => Some(text)
    case Binary(bytes) => Some(Base64.Encode(bytes))
    case Null => None
  }

  function ToWireKey(key: Option<PartitionKey>): (wire: WireKey)
  {
    match key
    case Some(Text(text)) => WireKey(Some(text), None, None)
    case Some(Binary(bytes)) => WireKey(Some(Base64.Encode(bytes)), Some(true), None)
    case Some(Null) => WireKey(None, None, Some(true))
    case None => WireKey(None, None, None)
  }

  /** `PartitionKey::from_metadata`: a key flagged as base64 that does not decode is kept as text. */
  function FromWireKey(wire: WireKey): (key: Option<PartitionKey>)
  {
    match (wire.partitionKey, wire.b64Encoded)
    case (Some(text), Some(true)) =>
      var decoded := Base64.Decode(text);
      if decoded.Some? then Some(Binary(decoded.value)) else Some(Text(text))
    case (Some(text), _) => Some(Text(text))
    case (None, _) => if wire.nullKey == Some(true) then Some(Null) else None
  }

  /** `From<Message> for ProducerMessage`. */
  function ToProducerMessage(m: Message): (p: ProducerMessage)
  {
    ProducerMessage(
      if m.payload.Some? then m.payload.value else [],
      if m.payload.None? then Some(true) else None,
      ToWireKey(m.partitionKey),
      m.properties, m.orderingKey, m.replicateTo, None, m.eventTime, m.schemaVersion, m.deliverAt)
  }

  /** The metadata `messages::send` puts on the wire. */
  function ToMetadata(producerName: string, sequenceId: U64, publishTime: U64, p: ProducerMessage): (m: MessageMetadata)
  {
    MessageMetadata(
      producerName, sequenceId, publishTime, p.properties, p.key, p.nullValue, p.orderingKey,
      p.replicateTo, p.numMessagesInBatch, p.eventTime, p.schemaVersion, p.deliverAt)
  }

  /** `n as i32`. */
  function AsI32(n: nat): (i: I32)
    ensures i == n <==> n < TWO_31
    ensures (n - i) % TWO_32 == 0
  {
    var low := n % TWO_32;
    if low < TWO_31 then low else low - TWO_32
  }

  /** The batch entry `send_raw` builds. An entry has no field for replication, delivery time or schema version. */
  function ToBatched(p: ProducerMessage): (b: BatchedMessage)
  {
    BatchedMessage(
      SingleMetadata(p.key, p.nullValue, p.properties, p.orderingKey, p.eventTime, AsI32(|p.payload|)),
      p.payload)
  }

  /** The message the sending loop wraps a batch in: the producer's schema version, and otherwise only defaults. */
  function BatchEnvelope(payload: seq<Byte>, count: I32, schemaVersion: Option<seq<Byte>>): (p: ProducerMessage)
  {
    ProducerMessage(payload, None, WireKey(None, None, None), [], None, [], Some(count), None, schemaVersion, None)
  }

  /** The metadata `BatchedMessageIterator` gives an entry: its own fields, the rest from the envelope. */
  function EntryMetadata(envelope: MessageMetadata, entry: SingleMetadata): (m: MessageMetadata)
  {
    envelope.(properties := entry.properties, key := entry.key, nullValue := entry.nullValue,
      orderingKey := entry.orderingKey, eventTime := entry.eventTime)
  }

  /** What a consumer can tell of the original message from the metadata and data it is given. */
  function FromMetadata(m: MessageMetadata, data: seq<Byte>): (seen: Message)
  {
    Message(
      if m.nullValue == Some(true) then None else Some(data),
      FromWireKey(m.key),
      m.properties, m.orderingKey, m.replicateTo, m.eventTime, m.schemaVersion, m.deliverAt)
  }

  /** A message as a batch carries it, when the batch is sent with the given schema version. */
  function AsBatched(m: Message, schemaVersion: Option<seq<Byte>>): (n: Message)
  {
    m.(schemaVersion := schemaVersion, replicateTo := [], deliverAt := None)
  }

  /** Rebuilding a key from the metadata produced for it returns the original. */
  lemma WireKeyRoundTrip(key: Option<PartitionKey>)
    ensures FromWireKey(ToWireKey(key)) == key
  {
    if key.Some? && key.value.Binary? {
      Base64.EncodeReadsBack(key.value.bytes);
    }
  }

  /** The three wire fields determine the key: null, absent, text and binary keys never collide. */
  lemma WireKeyIsInjective(a: Option<PartitionKey>, b: Option<PartitionKey>)
    ensures ToWireKey(a) == ToWireKey(b) <==> a == b
  {
    WireKeyRoundTrip(a);
    WireKeyRoundTrip(b);
  }

  /** Key metadata in a form this client produces: plain text, flagged text that decodes, a null key, or no key. */
  predicate Canonical(wire: WireKey)
  {
    match wire.partitionKey
    case Some(text) =>
      && wire.nullKey.None?
      && (wire.b64Encoded.None? || (wire.b64Encoded == Some(true) && Base64.Decode(text).Some?))
    case None => wire.b64Encoded.None? && (wire.nullKey.None? || wire.nullKey == Some(true))
  }

  /**
   * Republishing a received message reproduces its key metadata exactly when that is canonical. In
   * every case the key itself stays the same; flagged text that does not decode loses its flag.
   */
  lemma RepublishedKey(wire: WireKey)
    ensures ToWireKey(FromWireKey(wire)) == wire <==> Canonical(wire)
    ensures FromWireKey(ToWireKey(FromWireKey(wire))) == FromWireKey(wire)
    ensures wire.partitionKey.Some? && wire.b64Encoded == Some(true) && Base64.Decode(wire.partitionKey.value).None? ==>
              ToWireKey(FromWireKey(wire)) == WireKey(wire.partitionKey, None, None)
  {
    WireKeyRoundTrip(FromWireKey(wire));
    if wire.partitionKey.Some? && Base64.Decode(wire.partitionKey.value).Some? {
      Base64.DecodeExactlyInvertsEncode(wire.partitionKey.value, Base64.Decode(wire.partitionKey.value).value);
    }
  }

  /** Sent by itself, a message reaches the consumer as the caller handed it in, null and empty values staying apart. */
  lemma UnbatchedKeepsEverything(m: Message, producerName: string, sequenceId: U64, publishTime: U64)
    ensures var p := ToProducerMessage(m);
            FromMetadata(ToMetadata(producerName, sequenceId, publishTime, p), p.payload) == m
    ensures var w := ToMetadata(producerName, sequenceId, publishTime, ToProducerMessage(m));
            && w.properties == m.properties && w.orderingKey == m.orderingKey && w.eventTime == m.eventTime
            && w.schemaVersion == m.schemaVersion && w.replicateTo == m.replicateTo && w.deliverAt == m.deliverAt
            && w.producerName == producerName && w.sequenceId == sequenceId && w.numMessagesInBatch.None?
  {
    WireKeyRoundTrip(m.partitionKey);
  }

  /**
   * Sent in a batch, a message loses its own schema version, replication override and delivery time,
   * and nothing else: it arrives unchanged exactly if it had none of the latter two and the batch
   * happens to be sent with its schema version.
   */
  lemma WhatBatchingLoses(
    m: Message, producerName: string, sequenceId: U64, publishTime: U64,
    payload: seq<Byte>, count: I32, schemaVersion: Option<seq<Byte>>)
    ensures var b := ToBatched(ToProducerMessage(m));
            var envelope := ToMetadata(producerName, sequenceId, publishTime, BatchEnvelope(payload, count, schemaVersion));
            var seen := FromMetadata(EntryMetadata(envelope, b.metadata), b.payload);
            && seen == AsBatched(m, schemaVersion)
            && (seen == m <==> m.schemaVersion == schemaVersion && m.replicateTo == [] && m.deliverAt.None?)
  {
    WireKeyRoundTrip(m.partitionKey);
  }
}
