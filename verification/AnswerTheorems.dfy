/** What the callers of a batching producer are told, and that it is the truth about their batch. */
module AnswerTheorems {
  import opened Common
  import opened BatchStorage
  import opened SendLoop
  import opened Pipeline
  import opened PipelineTheorems

  /** In every reachable state, each caller of a finished batch whose send failed has been told the error. */
  lemma FailedBatchIsReported(limits: Limits, es: seq<Event>, s: State, d: DoneBatch, error: nat, id: nat)
    requires Run(limits, es) == Some(s)
    requires d in s.done && d.reply == Some(Failed(error)) && id in SingleIds(d.items)
    ensures Resolution(id, BatchFailed(error)) in s.resolved
  {
    RunKeepsInvariant(limits, es);
    FailureIsTold(s.done, d, error, id);
    InSum(AllResolutions(s.done), Partial(s.sender), Resolution(id, BatchFailed(error)));
  }

  /** In every reachable state, a receipt without message id has reached each caller of its finished batch unchanged. */
  lemma PlainReceiptReachesCallers(limits: Limits, es: seq<Event>, s: State, d: DoneBatch, id: nat)
    requires Run(limits, es) == Some(s)
    requires d in s.done && d.reply == Some(Sent(Receipt(None))) && id in SingleIds(d.items)
    ensures Resolution(id, Delivered(Receipt(None))) in s.resolved
  {
    RunKeepsInvariant(limits, es);
    PlainReceiptIsTold(s.done, d, id);
    InSum(AllResolutions(s.done), Partial(s.sender), Resolution(id, Delivered(Receipt(None))));
  }

  lemma PartialTells(sender: Sender, r: Resolution)
    requires sender.Resolving? && sender.answered <= |SingleIds(WithoutFlush(sender.batch))|
    requires r in Partial(sender)
    ensures r.id in SingleIds(sender.batch) && Told(r, r.id, sender.reply)
  {
    WithoutFlushKeepsSingles(sender.batch);
    var i :| 0 <= i < |Partial(sender)| && Partial(sender)[i] == r;
    assert r.id == SingleIds(sender.batch)[i];
  }

  /**
   * Nobody is told a success that did not happen: in every reachable state a caller was told of a
   * delivery only if its message is in a batch, finished or in hand, that the broker acknowledged,
   * and of a failure only if the send of that batch failed with that very error.
   */
  lemma AnswersAreTrue(limits: Limits, es: seq<Event>, s: State, r: Resolution) returns (batch: seq<Item>, reply: Reply)
    requires Run(limits, es) == Some(s) && r in s.resolved
    ensures r.id in SingleIds(batch)
    ensures DoneBatch(batch, Some(reply)) in s.done || (s.sender.Resolving? && s.sender.batch == batch && s.sender.reply == reply)
    ensures match r.outcome
            case Delivered(_) => reply.Sent?
            case BatchFailed(error) => reply == Failed(error)
            case ProducerClosed => false
  {
    RunKeepsInvariant(limits, es);
    InSum(AllResolutions(s.done), Partial(s.sender), r);
    if r in AllResolutions(s.done) {
      var d := AnswerHasBatch(s.done, r);
      batch, reply := d.items, d.reply.value;
    } else {
      PartialTells(s.sender, r);
      batch, reply := s.sender.batch, s.sender.reply;
    }
  }

  // ---------------------------------------------------------------- the one answer of each message

  lemma SameIdSameAnswer(answers: seq<Resolution>, x: Resolution, y: Resolution)
    requires Distinct(Ids(answers)) && x in answers && y in answers && x.id == y.id
    ensures x == y
  {
    var i :| 0 <= i < |answers| && answers[i] == x;
    var j :| 0 <= j < |answers| && answers[j] == y;
    assert Ids(answers)[i] == Ids(answers)[j];
  }

  lemma {:induction false} DoneItemHasBatch(done: seq<DoneBatch>, item: Item) returns (d: DoneBatch)
    requires item in DoneItems(done)
    ensures d in done && item in d.items
  {
    var n := |done| - 1;
    LastSplits(done);
    InSum(DoneItems(done[..n]), done[n].items, item);
    if item in done[n].items {
      d := done[n];
    } else {
      d := DoneItemHasBatch(done[..n], item);
      InSum(done[..n], [done[n]], d);
    }
  }

  lemma {:induction false} LeftoverIsRefused(items: seq<Item>, item: Item)
    requires item in items && item.Single?
    ensures Resolution(item.id, ProducerClosed) in Refusals(items)
  {
    var n := |items| - 1;
    LastSplits(items);
    InSum(items[..n], [items[n]], item);
    if item in items[..n] {
      LeftoverIsRefused(items[..n], item);
    }
  }

  /** The caller of a message in a finished batch has been told how that batch ended. */
  lemma FinishedMessageIsAnswered(limits: Limits, s: State, d: DoneBatch, item: Item) returns (r: Resolution)
    requires Inv(limits, s) && d in s.done && item in d.items && item.Single?
    ensures r in s.resolved && d.reply.Some? && Told(r, item.id, d.reply.value)
  {
    var k :| 0 <= k < |d.items| && d.items[k] == item;
    SingleIdIsItemId(d.items, item.id);
    WithoutFlushKeepsSingles(d.items);
    ResolutionsTell(d);
    var i :| 0 <= i < |SingleIds(d.items)| && SingleIds(d.items)[i] == item.id;
    r := Resolutions(d)[i];
    AnswersComeFromBatches(s.done, r);
    InSum(AllResolutions(s.done), Partial(s.sender), r);
  }

  /**
   * The three endings: when the close notification has been sent, each accepted message is in a
   * finished batch or was refused, and its caller has exactly one answer: the receipt if the batch
   * was acknowledged, the batch's error if it failed, and Closed if the message was refused.
   */
  lemma EachMessageEndsAsItsBatchDid(limits: Limits, es: seq<Event>, s: State, item: Item) returns (r: Resolution)
    requires Run(limits, es) == Some(s) && s.sender.SenderDone?
    requires item in s.accepted && item.Single?
    ensures r in s.resolved + s.refused && r.id == item.id
    ensures forall x :: x in s.resolved + s.refused && x.id == item.id ==> x == r
    ensures (exists d :: d in s.done && item in d.items) || item in s.leftover
    ensures forall d :: d in s.done && item in d.items ==>
              && d.reply.Some?
              && match d.reply.value
                 case Failed(error) => r.outcome == BatchFailed(error)
                 case Sent(receipt) =>
                   r.outcome.Delivered? && (receipt.messageId.None? ==> r.outcome == Delivered(receipt))
    ensures item in s.leftover ==> r.outcome == ProducerClosed
  {
    RunKeepsInvariant(limits, es);
    ClosedIsSettled(limits, s);
    NoMessageIsAnsweredTwice(limits, es, s);
    IdsOfSum(s.resolved, s.refused);
    InSum(DoneItems(s.done), s.leftover, item);
    if item in DoneItems(s.done) {
      var d := DoneItemHasBatch(s.done, item);
      r := FinishedMessageIsAnswered(limits, s, d, item);
    } else {
      LeftoverIsRefused(s.leftover, item);
      r := Resolution(item.id, ProducerClosed);
    }
    forall x | x in s.resolved + s.refused && x.id == item.id
      ensures x == r
    {
      SameIdSameAnswer(s.resolved + s.refused, x, r);
    }
    forall d | d in s.done && item in d.items
      ensures d.reply.Some? && Told(r, item.id, d.reply.value)
    {
      var x := FinishedMessageIsAnswered(limits, s, d, item);
      assert x in s.resolved + s.refused;
    }
    if item in s.leftover {
      LeftoverIsRefused(s.leftover, item);
      assert Resolution(item.id, ProducerClosed) in s.resolved + s.refused;
    }
  }

  // ---------------------------------------------------------------- flush waiters

  /** Every release is that of a finished batch ending with the flush, signalled unless the batch's send failed. */
  lemma ReleasesAreTrue(limits: Limits, es: seq<Event>, s: State, r: Release) returns (d: DoneBatch)
    requires Run(limits, es) == Some(s) && r in s.released
    ensures d in s.done && d.items != [] && d.items[|d.items| - 1] == Flush(r.id)
    ensures !r.signalled <==> d.reply.Some? && d.reply.value.Failed?
    ensures d.reply.None? ==> SingleIds(d.items) == []
  {
    RunKeepsInvariant(limits, es);
    d := ReleaseHasBatch(s.done, r);
    WithoutFlushKeepsSingles(d.items);
  }

  lemma {:induction false} ReleaseHasBatch(done: seq<DoneBatch>, r: Release) returns (d: DoneBatch)
    requires r in AllReleases(done)
    ensures d in done && r in Releases(d)
  {
    var n := |done| - 1;
    LastSplits(done);
    InSum(AllReleases(done[..n]), Releases(done[n]), r);
    if r in Releases(done[n]) {
      d := done[n];
    } else {
      d := ReleaseHasBatch(done[..n], r);
      InSum(done[..n], [done[n]], d);
    }
  }
}
