/** Sending one message over a connection that may fail: sequence ids, the outbound channel, reconnection. */
module SendPath {
  import opened Common
  import opened Bytes
  import opened Messages

  type Schema = Option<seq<Byte>>

  /** `SerialId`: every call returns a number never returned before. */
  class SerialId {
    var next: nat

    constructor ()
      ensures next == 0
    {
      next := 0;
    }

    method Get() returns (id: nat)
      modifies this
      ensures id == old(next) && next == id + 1
    {
      id := next;
      next := next + 1;
    }
  }

  /** The bounded outbound channel as a send finds it; a blocking send on a full channel waits for what comes. */
  datatype Room = Free | Full(thenFree: bool) | Gone

  /** The failures a send can meet before its receipt is awaited; the loop's arms for others are never taken. */
  datatype ConnectionError = Disconnected | SlowDown

  datatype SendError = FromConnection(error: ConnectionError) | LookupFailed | CreateFailed

  /**
   * What one round of the send loop meets: whether the connection's error flag is set, whether its
   * receiver still takes registrations, its channel, and, should the round have to reconnect, whether
   * the lookup succeeds, the connection that creating the producer leaves behind and how that ends.
   */
  datatype Round = Round(valid: bool, receiverAlive: bool, room: Room, lookup: bool, connection: nat, created: Option<Schema>)

  /** A message on its way out, with the connection it is queued on. */
  datatype Queued = Queued(connection: nat, producerId: nat, sequenceId: nat, message: ProducerMessage)

  datatype Progress = Sent(item: Queued) | Refused(error: SendError) | StillRunning

  /** The outbound channel of a live connection has, or comes to have, room for the message. */
  predicate Accepts(round: Round, blockIfFull: bool)
  {
    round.valid && round.receiverAlive && (round.room.Free? || (round.room.Full? && blockIfFull && round.room.thenFree))
  }

  /** The channel of a live connection is full and the producer was told not to wait. */
  predicate Overruns(round: Round, blockIfFull: bool)
  {
    round.valid && round.receiverAlive && round.room.Full? && !blockIfFull
  }

  /** The connection is gone, and the producer can be created on another one. */
  predicate Reconnects(round: Round, blockIfFull: bool)
  {
    !Accepts(round, blockIfFull) && !Overruns(round, blockIfFull) && round.lookup && round.created.Some?
  }

  /** The round at which the send gives up, and why: a full channel, a failed lookup, or a refused producer. */
  predicate Stops(round: Round, blockIfFull: bool, error: SendError)
  {
    match error
    case FromConnection(e) => e.SlowDown? && Overruns(round, blockIfFull)
    case LookupFailed => !Accepts(round, blockIfFull) && !Overruns(round, blockIfFull) && !round.lookup
    case CreateFailed => !Accepts(round, blockIfFull) && !Overruns(round, blockIfFull) && round.lookup && round.created.None?
  }

  ghost predicate Increasing(ids: seq<nat>, limit: nat)
  {
    && (forall i :: 0 <= i < |ids| ==> ids[i] < limit)
    && (forall i, j :: 0 <= i < j < |ids| ==> ids[i] < ids[j])
  }

  function SequenceIds(queued: seq<Queued>): (ids: seq<nat>)
    ensures |ids| == |queued| && forall i :: 0 <= i < |queued| ==> ids[i] == queued[i].sequenceId
  {
    seq(|queued|, i requires 0 <= i < |queued| => queued[i].sequenceId)
  }

  /** The receipts a producer ever awaited and the messages it ever queued carry ids that only grow. */
  ghost predicate Numbered(id: nat, registered: seq<nat>, queued: seq<Queued>, next: nat)
  {
    && Increasing(registered, next)
    && Increasing(SequenceIds(queued), next)
    && (forall i :: 0 <= i < |queued| ==> queued[i].producerId == id && queued[i].sequenceId in registered)
  }

  /** The id just drawn may be registered for, whether or not its message is queued in the end. */
  lemma NumberedRegister(id: nat, registered: seq<nat>, queued: seq<Queued>, next: nat, registers: bool)
    requires Numbered(id, registered, queued, next)
    ensures Numbered(id, if registers then registered + [next] else registered, queued, next + 1)
  {
    forall i | 0 <= i < |queued| ensures queued[i].sequenceId in registered + [next] {
    }
  }

  /** A queued message whose receipt is awaited under the newest id keeps the ids growing. */
  lemma NumberedQueue(id: nat, registered: seq<nat>, queued: seq<Queued>, next: nat, q: Queued)
    requires Numbered(id, registered, queued, next)
    requires q.producerId == id && q.sequenceId == next
    ensures Numbered(id, registered + [next], queued + [q], next + 1)
  {
    NumberedRegister(id, registered, queued, next, true);
    assert SequenceIds(queued + [q]) == SequenceIds(queued) + [next];
    assert (registered + [next])[|registered|] == next;
  }

  /** Over a producer's life no two queued messages share the key under which their receipts are awaited. */
  lemma SendKeysAreUnique(id: nat, registered: seq<nat>, queued: seq<Queued>, next: nat, i: nat, j: nat)
    requires Numbered(id, registered, queued, next)
    requires i < |queued| && j < |queued| && i != j
    ensures queued[i].sequenceId != queued[j].sequenceId
    ensures exists k :: 0 <= k < |registered| && registered[k] == queued[i].sequenceId
    ensures forall k, l :: 0 <= k < l < |registered| ==> registered[k] != registered[l]
  {
    assert SequenceIds(queued)[i] != SequenceIds(queued)[j];
  }

  class TopicProducer {
    const id: nat
    const blockIfFull: bool
    const sequenceId: SerialId
    var connection: nat
    var schemaVersion: Schema
    var registered: seq<nat>   // sequence ids under which a receipt was ever awaited
    var queued: seq<Queued>    // everything ever put into an outbound channel

    ghost predicate Valid()
      reads this, sequenceId
    {
      Numbered(id, registered, queued, sequenceId.next)
    }

    constructor (id: nat, blockIfFull: bool, connection: nat, schemaVersion: Schema)
      ensures Valid() && fresh(sequenceId) && queued == [] && this.id == id
      ensures this.connection == connection && this.schemaVersion == schemaVersion
    {
      this.id, this.blockIfFull, this.connection, this.schemaVersion := id, blockIfFull, connection, schemaVersion;
      sequenceId := new SerialId();
      registered, queued := [], [];
    }

    /** `ConnectionSender::send`: the receipt is registered for first, then the message is queued. */
    method SendOnConnection(sequence: nat, message: ProducerMessage, round: Round) returns (error: Option<ConnectionError>)
      modifies this`registered, this`queued
      ensures registered == if round.receiverAlive then old(registered) + [sequence] else old(registered)
      ensures queued == if error.None? then old(queued) + [Queued(connection, id, sequence, message)] else old(queued)
      ensures round.valid ==> (error.None? <==> Accepts(round, blockIfFull))
      ensures round.valid ==> (error == Some(SlowDown) <==> Overruns(round, blockIfFull))
      ensures error.None? <==> round.receiverAlive && (round.room == Free || (blockIfFull && round.room == Full(true)))
      ensures error == Some(SlowDown) <==> round.receiverAlive && round.room.Full? && !blockIfFull
    {
      if !round.receiverAlive {
        return Some(Disconnected);
      }
      registered := registered + [sequence];
      match round.room {
        case Gone => return Some(Disconnected);
        case Full(thenFree) =>
          if !blockIfFull {
            return Some(SlowDown);
          }
          if !thenFree {
            return Some(Disconnected);
          }
        case Free =>
      }
      queued := queued + [Queued(connection, id, sequence, message)];
      return None;
    }

    /** One call of `sender().send`, under the next sequence id. */
    method TrySend(message: ProducerMessage, round: Round) returns (error: Option<ConnectionError>, item: Queued)
      requires Valid() && round.valid
      modifies this`registered, this`queued, sequenceId
      ensures error.None? <==> Accepts(round, blockIfFull)
      ensures error == Some(SlowDown) <==> Overruns(round, blockIfFull)
      ensures Valid() && sequenceId.next == old(sequenceId.next) + 1
      ensures item == Queued(connection, id, old(sequenceId.next), message)
      ensures queued == if error.None? then old(queued) + [item] else old(queued)
      ensures round.receiverAlive ==> item.sequenceId in registered
    {
      var sequence := sequenceId.Get();
      item := Queued(connection, id, sequence, message);
      NumberedRegister(id, registered, queued, sequence, round.receiverAlive);
      NumberedQueue(id, registered, queued, sequence, item);
      error := SendOnConnection(sequence, message, round);
    }

    /**
     * `send_message`, for its first `rounds` rounds; each reconnection is reported with the schema
     * version the broker gave. The message is queued exactly once if the call succeeds and not at
     * all otherwise, and it is queued as it was handed in, on the connection the producer keeps.
     */
    method SendMessage(message: ProducerMessage, world: nat -> Round, rounds: nat)
      returns (r: Progress, reconnects: seq<Schema>)
      requires Valid()
      modifies this`connection, this`schemaVersion, this`registered, this`queued, sequenceId
      ensures Valid()
      ensures r.Sent? ==> && queued == old(queued) + [r.item]
                          && r.item.message == message && r.item.producerId == id && r.item.connection == connection
                          && old(sequenceId.next) <= r.item.sequenceId < sequenceId.next
                          && |reconnects| < rounds && Accepts(world(|reconnects|), blockIfFull)
      ensures !r.Sent? ==> queued == old(queued)
      ensures r.Refused? ==> && |reconnects| < rounds
                             && Stops(world(|reconnects|), blockIfFull, r.error)
      ensures r.StillRunning? ==> |reconnects| == rounds
      ensures r.Sent? ==> connection == if reconnects == [] then old(connection) else world(|reconnects| - 1).connection
      ensures r.Sent? ==>
                var w := world(|reconnects|);
                w.valid && w.receiverAlive && (w.room == Free || (blockIfFull && w.room == Full(true)))
      ensures r == Refused(FromConnection(SlowDown)) ==>
                var w := world(|reconnects|); w.valid && w.receiverAlive && w.room.Full? && !blockIfFull
      ensures r.Refused? && !r.error.FromConnection? ==>
                var w := world(|reconnects|);
                && (!w.valid || !w.receiverAlive || w.room == Gone || (blockIfFull && w.room == Full(false)))
                && if r.error.LookupFailed? then !w.lookup else w.lookup && w.created.None?
      ensures forall i :: 0 <= i < |reconnects| ==> Reconnects(world(i), blockIfFull) && Some(reconnects[i]) == world(i).created
      ensures schemaVersion == if reconnects == [] then old(schemaVersion) else reconnects[|reconnects| - 1]
    {
      hide Numbered;
      reconnects := [];
      for i := 0 to rounds
        invariant Valid() && old(sequenceId.next) <= sequenceId.next
        invariant queued == old(queued) && |reconnects| == i
        invariant connection == if reconnects == [] then old(connection) else world(|reconnects| - 1).connection
        invariant forall k :: 0 <= k < i ==> Reconnects(world(k), blockIfFull) && Some(reconnects[k]) == world(k).created
        invariant schemaVersion == if reconnects == [] then old(schemaVersion) else reconnects[|reconnects| - 1]
      {
        var round := world(i);
        if round.valid {
          var error, item := TrySend(message, round);
          match error {
            case None => return Sent(item), reconnects;
            case Some(Disconnected) =>
            case Some(SlowDown) => return Refused(FromConnection(SlowDown)), reconnects;
          }
        }
        if !round.lookup {
          return Refused(LookupFailed), reconnects;
        }
        connection := round.connection;
        if round.created.None? {
          return Refused(CreateFailed), reconnects;
        }
        schemaVersion := round.created.value;
        reconnects := reconnects + [round.created.value];
      }
      return StillRunning, reconnects;
    }

    /**
     * `send_raw` without batching or compression: a message without a schema version takes the
     * producer's, as it was before any reconnection this call may cause.
     */
    method SendRaw(message: ProducerMessage, world: nat -> Round, rounds: nat) returns (r: Progress, reconnects: seq<Schema>)
      requires Valid()
      modifies this`connection, this`schemaVersion, this`registered, this`queued, sequenceId
      ensures Valid()
      ensures r.Sent? ==>
                && queued == old(queued) + [r.item]
                && r.item.message ==
                     if message.schemaVersion.None? then message.(schemaVersion := old(schemaVersion)) else message
      ensures !r.Sent? ==> queued == old(queued)
    {
      var stamped := message;
      if stamped.schemaVersion.None? {
        stamped := stamped.(schemaVersion := schemaVersion);
      }
      r, reconnects := SendMessage(stamped, world, rounds);
    }
  }
}
