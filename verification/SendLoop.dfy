/** `message_send_loop`: one wire message per batch, one answer per message of the batch. */
module SendLoop {
  import opened Common
  import opened Bytes
  import opened Messages
  import opened BatchFormat
  import opened BatchStorage

  datatype MessageId = MessageId(entry: nat, batchIndex: Option<I32>, batchSize: Option<I32>)
  datatype Receipt = Receipt(messageId: Option<MessageId>)

  /** How sending one wire message ends. */
  datatype Reply = Sent(receipt: Receipt) | Failed(error: nat)

  /** What a caller of `send` finally sees. */
  datatype Outcome = Delivered(receipt: Receipt) | BatchFailed(error: nat) | ProducerClosed
  datatype Resolution = Resolution(id: nat, outcome: Outcome)

  /** A `send_batch` waiter is released by a signal, or by the drop of its oneshot. */
  datatype Release = Release(id: nat, signalled: bool)

  function Contents(items: seq<Item>): (messages: seq<BatchedMessage>)
  {
    if items == [] then []
    else (if items[0].Single? then [items[0].message] else []) + Contents(items[1..])
  }

  lemma {:induction false} ContentsAppend(a: seq<Item>, b: seq<Item>)
    ensures Contents(a + b) == Contents(a) + Contents(b)
  {
    if a == [] {
      assert a + b == b;
    } else {
      assert (a + b)[1..] == a[1..] + b;
      ContentsAppend(a[1..], b);
      Regroup(if a[0].Single? then [a[0].message] else [], Contents(a[1..]), Contents(b));
    }
  }

  lemma {:induction false} NoFlushIsAllSingles(items: seq<Item>)
    requires NoFlush(items)
    ensures |SingleIds(items)| == |Contents(items)| == |items|
    ensures forall i :: 0 <= i < |items| ==> SingleIds(items)[i] == items[i].id && Contents(items)[i] == items[i].message
  {
    if items != [] {
      assert items[0] in items;
      NoFlushIsAllSingles(items[1..]);
    }
  }

  /** The batch without a trailing flush request. */
  function WithoutFlush(batch: seq<Item>): (items: seq<Item>)
  {
    if EndsWithFlush(batch) then batch[..|batch| - 1] else batch
  }

  lemma WithoutFlushKeepsSingles(batch: seq<Item>)
    ensures SingleIds(WithoutFlush(batch)) == SingleIds(batch)
    ensures Contents(WithoutFlush(batch)) == Contents(batch)
  {
    if EndsWithFlush(batch) {
      var n := |batch| - 1;
      assert batch == batch[..n] + [batch[n]];
      IdsAppend(batch[..n], [batch[n]]);
      ContentsAppend(batch[..n], [batch[n]]);
      assert SingleIds([batch[n]]) == [];
      assert Contents([batch[n]]) == [];
    }
  }

  /** In a well-formed batch the counter the loop sends is the number of its messages. */
  lemma CounterIsMessageCount(limits: Limits, batch: seq<Item>)
    requires WellFormed(limits, batch)
    ensures NoFlush(WithoutFlush(batch))
    ensures |WithoutFlush(batch)| == |SingleIds(batch)|
  {
    var n := |batch| - 1;
    assert batch == batch[..n] + [batch[n]];
    assert NoFlush(WithoutFlush(batch));
    NoFlushIsAllSingles(WithoutFlush(batch));
    WithoutFlushKeepsSingles(batch);
  }

  /** The answer for the message at `index` of a batch whose counter is `counter`. */
  function OutcomeAt(index: nat, counter: nat, reply: Reply): (outcome: Outcome)
  {
    match reply
    case Failed(error) => BatchFailed(error)
    case Sent(receipt) =>
      if receipt.messageId.None? then Delivered(receipt)
      else Delivered(Receipt(Some(receipt.messageId.value.(
        batchIndex := Some(AsI32(index)), batchSize := Some(AsI32(counter))))))
  }

  function Outcomes(ids: seq<nat>, counter: nat, reply: Reply, upTo: nat): (r: seq<Resolution>)
    requires upTo <= |ids|
    ensures |r| == upTo
    ensures forall i :: 0 <= i < upTo ==> r[i] == Resolution(ids[i], OutcomeAt(i, counter, reply))
  {
    if upTo == 0 then []
    else Outcomes(ids, counter, reply, upTo - 1) + [Resolution(ids[upTo - 1], OutcomeAt(upTo - 1, counter, reply))]
  }

  /** A batch the loop is done with; without a reply if it held nothing but a flush request. */
  datatype DoneBatch = DoneBatch(items: seq<Item>, reply: Option<Reply>)

  function Resolutions(d: DoneBatch): (r: seq<Resolution>)
  {
    if d.reply.None? then []
    else
      var ids := SingleIds(WithoutFlush(d.items));
      Outcomes(ids, |WithoutFlush(d.items)|, d.reply.value, |ids|)
  }

  function Releases(d: DoneBatch): (r: seq<Release>)
  {
    if EndsWithFlush(d.items) then [Release(d.items[|d.items| - 1].id, d.reply.None? || d.reply.value.Sent?)] else []
  }

  function AllResolutions(done: seq<DoneBatch>): (r: seq<Resolution>)
  {
    if done == [] then [] else AllResolutions(done[..|done| - 1]) + Resolutions(done[|done| - 1])
  }

  function AllReleases(done: seq<DoneBatch>): (r: seq<Release>)
  {
    if done == [] then [] else AllReleases(done[..|done| - 1]) + Releases(done[|done| - 1])
  }

  /** The batch envelope handed to `send_message`. */
  datatype Envelope = Envelope(payload: seq<Byte>, numMessages: I32)

  /** The loop's inner pass over one batch: what goes on the wire and who waits for the receipts. */
  method PrepareBatch(codec: MetadataCodec, items: seq<Item>) returns (payload: seq<Byte>, receipts: seq<nat>)
    ensures payload == Entries(codec, Contents(items))
    ensures receipts == SingleIds(items)
  {
    var w := new Buffer();
    receipts := [];
    for i := 0 to |items|
      invariant fresh(w)
      invariant w.data == Entries(codec, Contents(items[..i]))
      invariant receipts == SingleIds(items[..i])
    {
      assert items[..i + 1] == items[..i] + [items[i]];
      IdsAppend(items[..i], [items[i]]);
      ContentsAppend(items[..i], [items[i]]);
      if items[i].Single? {
        assert Contents([items[i]]) == [items[i].message] && SingleIds([items[i]]) == [items[i].id];
        EntriesAppend(codec, Contents(items[..i]), items[i].message);
        receipts := receipts + [items[i].id];
        Serialize(codec, items[i].message, w);
      } else {
        assert Contents([items[i]]) == [] && SingleIds([items[i]]) == [];
        assert Contents(items[..i + 1]) == Contents(items[..i]);
      }
    }
    assert items[..|items|] == items;
    payload := w.data;
  }

  /** Answers every waiting message of a batch. */
  method ResolveReceipts(receipts: seq<nat>, counter: nat, reply: Reply) returns (resolved: seq<Resolution>)
    ensures resolved == Outcomes(receipts, counter, reply, |receipts|)
    ensures |resolved| == |receipts|
    ensures reply.Failed? ==>
              forall i :: 0 <= i < |receipts| ==> resolved[i] == Resolution(receipts[i], BatchFailed(reply.error))
    ensures reply.Sent? && reply.receipt.messageId.None? ==>
              forall i :: 0 <= i < |receipts| ==> resolved[i] == Resolution(receipts[i], Delivered(reply.receipt))
    ensures reply.Sent? && reply.receipt.messageId.Some? ==>
              var entry := reply.receipt.messageId.value.entry;
              forall i :: 0 <= i < |receipts| ==>
                resolved[i] == Resolution(receipts[i], Delivered(Receipt(Some(MessageId(entry, Some(AsI32(i)), Some(AsI32(counter)))))))
  {
    resolved := [];
    for index := 0 to |receipts|
      invariant resolved == Outcomes(receipts, counter, reply, index)
    {
      match reply {
        case Sent(receipt) =>
          var stamped := receipt;
          if stamped.messageId.Some? {
            stamped := Receipt(Some(stamped.messageId.value.(batchIndex := Some(AsI32(index)), batchSize := Some(AsI32(counter)))));
          }
          resolved := resolved + [Resolution(receipts[index], Delivered(stamped))];
        case Failed(error) =>
          resolved := resolved + [Resolution(receipts[index], BatchFailed(error))];
      }
    }
  }

  /** The caller `id` is told how the send of its batch ended: the shared error, or a receipt for the broker's entry. */
  predicate Told(r: Resolution, id: nat, reply: Reply)
  {
    && r.id == id
    && match reply
       case Failed(error) => r.outcome == BatchFailed(error)
       case Sent(receipt) =>
         && r.outcome.Delivered?
         && (receipt.messageId.None? ==> r.outcome.receipt == receipt)
         && (receipt.messageId.Some? ==>
               && r.outcome.receipt.messageId.Some?
               && r.outcome.receipt.messageId.value.entry == receipt.messageId.value.entry)
  }

  lemma ResolutionsTell(d: DoneBatch)
    requires d.reply.Some?
    ensures |Resolutions(d)| == |SingleIds(d.items)|
    ensures forall i :: 0 <= i < |Resolutions(d)| ==> Told(Resolutions(d)[i], SingleIds(d.items)[i], d.reply.value)
  {
    WithoutFlushKeepsSingles(d.items);
  }

  /** Every answer is one of some finished batch, and every answer of a finished batch is given. */
  lemma {:induction false} AnswersComeFromBatches(done: seq<DoneBatch>, r: Resolution)
    ensures r in AllResolutions(done) <==> exists d :: d in done && r in Resolutions(d)
  {
    if done != [] {
      var n := |done| - 1;
      LastSplits(done);
      AnswersComeFromBatches(done[..n], r);
      InSum(AllResolutions(done[..n]), Resolutions(done[n]), r);
      forall d ensures d in done <==> d in done[..n] || d == done[n] {
        InSum(done[..n], [done[n]], d);
      }
    }
  }

  /** A batch whose send failed is answered to each of its callers with the error, and to nobody as a success. */
  lemma FailureIsTold(done: seq<DoneBatch>, d: DoneBatch, error: nat, id: nat)
    requires d in done && d.reply == Some(Failed(error)) && id in SingleIds(d.items)
    ensures Resolution(id, BatchFailed(error)) in AllResolutions(done)
  {
    ResolutionsTell(d);
    var i :| 0 <= i < |SingleIds(d.items)| && SingleIds(d.items)[i] == id;
    assert Resolutions(d)[i] == Resolution(id, BatchFailed(error));
    AnswersComeFromBatches(done, Resolution(id, BatchFailed(error)));
  }

  /** A receipt that names no entry reaches each caller of its batch unchanged. */
  lemma PlainReceiptIsTold(done: seq<DoneBatch>, d: DoneBatch, id: nat)
    requires d in done && d.reply == Some(Sent(Receipt(None))) && id in SingleIds(d.items)
    ensures Resolution(id, Delivered(Receipt(None))) in AllResolutions(done)
  {
    ResolutionsTell(d);
    var i :| 0 <= i < |SingleIds(d.items)| && SingleIds(d.items)[i] == id;
    assert Resolutions(d)[i] == Resolution(id, Delivered(Receipt(None)));
    AnswersComeFromBatches(done, Resolution(id, Delivered(Receipt(None))));
  }

  /** Whatever is answered is answered to a caller of a finished batch, and as that batch's send ended. */
  lemma AnswerHasBatch(done: seq<DoneBatch>, r: Resolution) returns (d: DoneBatch)
    requires r in AllResolutions(done)
    ensures d in done && d.reply.Some? && r.id in SingleIds(d.items)
    ensures Told(r, r.id, d.reply.value)
  {
    AnswersComeFromBatches(done, r);
    d :| d in done && r in Resolutions(d);
    InBatch(d, r);
  }

  lemma InBatch(d: DoneBatch, r: Resolution)
    requires r in Resolutions(d)
    ensures d.reply.Some? && r.id in SingleIds(d.items) && Told(r, r.id, d.reply.value)
  {
    ResolutionsTell(d);
    var i :| 0 <= i < |Resolutions(d)| && Resolutions(d)[i] == r;
    assert Told(r, SingleIds(d.items)[i], d.reply.value);
  }

  function Envelopes(codec: MetadataCodec, d: DoneBatch): (e: seq<Envelope>)
    ensures |e| == if d.reply.None? then 0 else 1
  {
    if d.reply.None? then [] else [Envelope(Entries(codec, Contents(d.items)), AsI32(|WithoutFlush(d.items)|))]
  }

  function AllEnvelopes(codec: MetadataCodec, done: seq<DoneBatch>): (e: seq<Envelope>)
  {
    if done == [] then [] else AllEnvelopes(codec, done[..|done| - 1]) + Envelopes(codec, done[|done| - 1])
  }

  lemma AllAppend(codec: MetadataCodec, done: seq<DoneBatch>, d: DoneBatch)
    ensures AllEnvelopes(codec, done + [d]) == AllEnvelopes(codec, done) + Envelopes(codec, d)
    ensures AllResolutions(done + [d]) == AllResolutions(done) + Resolutions(d)
    ensures AllReleases(done + [d]) == AllReleases(done) + Releases(d)
  {
    assert (done + [d])[..|done|] == done;
  }

  /** A batch once the loop is done with it, if its send ends with `answer`; a lone flush request is not sent. */
  function Settle(batch: seq<Item>, answer: Reply): (done: DoneBatch)
  {
    DoneBatch(batch, if WithoutFlush(batch) == [] then None else Some(answer))
  }

  /** One iteration of the loop on a non-empty batch; `answer` is how the send ends if there is one. */
  method SendOneBatch(codec: MetadataCodec, batch: seq<Item>, answer: Reply)
    returns (wire: seq<Envelope>, resolved: seq<Resolution>, released: seq<Release>)
    requires batch != []
    ensures wire == Envelopes(codec, Settle(batch, answer))
    ensures resolved == Resolutions(Settle(batch, answer))
    ensures released == Releases(Settle(batch, answer))
    ensures WithoutFlush(batch) == [] ==> wire == [] && resolved == []
    ensures WithoutFlush(batch) != [] ==>
              && wire == [Envelope(Entries(codec, Contents(batch)), AsI32(|WithoutFlush(batch)|))]
              && |resolved| == |SingleIds(batch)|
              && forall i :: 0 <= i < |resolved| ==> Told(resolved[i], SingleIds(batch)[i], answer)
    ensures var last := batch[|batch| - 1];
            released == if last.Flush? then [Release(last.id, WithoutFlush(batch) == [] || answer.Sent?)] else []
  {
    hide SingleIds, Contents, Entries, Outcomes;
    WithoutFlushKeepsSingles(batch);
    var flush: Option<nat> := None;
    var items := batch;
    if batch[|batch| - 1].Flush? {
      flush := Some(batch[|batch| - 1].id);
      items := batch[..|batch| - 1];
    }
    var counter := |items|;
    var payload, receipts := PrepareBatch(codec, items);
    wire, resolved, released := [], [], [];
    if counter == 0 {
      if flush.Some? {
        released := [Release(flush.value, true)];
      }
      return;
    }
    wire := [Envelope(payload, AsI32(counter))];
    resolved := ResolveReceipts(receipts, counter, answer);
    if flush.Some? {
      released := [Release(flush.value, answer.Sent?)];
    }
  }

  /** How many wire messages the batches took. */
  function Replies(done: seq<DoneBatch>): (n: nat)
  {
    if done == [] then 0 else Replies(done[..|done| - 1]) + if done[|done| - 1].reply.None? then 0 else 1
  }

  /** The batches as the loop leaves them when the k-th wire message is answered by `reply(k)`. */
  function Processed(batches: seq<seq<Item>>, reply: nat -> Reply): (done: seq<DoneBatch>)
  {
    if batches == [] then []
    else
      var done := Processed(batches[..|batches| - 1], reply);
      var batch := batches[|batches| - 1];
      if batch == [] then done
      else done + [Settle(batch, reply(Replies(done)))]
  }

  /** `message_send_loop` over all batches its channel delivers. */
  method MessageSendLoop(codec: MetadataCodec, batches: seq<seq<Item>>, reply: nat -> Reply)
    returns (wire: seq<Envelope>, resolved: seq<Resolution>, released: seq<Release>)
    ensures wire == AllEnvelopes(codec, Processed(batches, reply))
    ensures resolved == AllResolutions(Processed(batches, reply))
    ensures released == AllReleases(Processed(batches, reply))
    ensures forall d, id :: d in Processed(batches, reply) && d.reply.Some? && d.reply.value.Failed? && id in SingleIds(d.items) ==>
              Resolution(id, BatchFailed(d.reply.value.error)) in resolved
    ensures forall r :: r in resolved && r.outcome.Delivered? ==>
              exists d :: d in Processed(batches, reply) && d.reply.Some? && d.reply.value.Sent? && r.id in SingleIds(d.items)
  {
    wire, resolved, released := [], [], [];
    ghost var all := [];
    for i := 0 to |batches|
      invariant all == Processed(batches[..i], reply) && |wire| == Replies(all)
      invariant wire == AllEnvelopes(codec, all)
      invariant resolved == AllResolutions(all)
      invariant released == AllReleases(all)
    {
      assert batches[..i + 1][..i] == batches[..i];
      if batches[i] != [] {
        var answer := reply(|wire|);
        var wire', resolved', released' := SendOneBatch(codec, batches[i], answer);
        ghost var done := Settle(batches[i], answer);
        assert (all + [done])[..|all|] == all;
        AllAppend(codec, all, done);
        all := all + [done];
        wire, resolved, released := wire + wire', resolved + resolved', released + released';
      }
    }
    assert batches[..|batches|] == batches;
    forall d, id | d in all && d.reply.Some? && d.reply.value.Failed? && id in SingleIds(d.items)
      ensures Resolution(id, BatchFailed(d.reply.value.error)) in resolved
    {
      FailureIsTold(all, d, d.reply.value.error, id);
    }
    forall r | r in resolved && r.outcome.Delivered?
      ensures exists d :: d in all && d.reply.Some? && d.reply.value.Sent? && r.id in SingleIds(d.items)
    {
      var d := AnswerHasBatch(all, r);
    }
  }
}
