/**
 * The interleaving tasks refine the two loops run one after the other: whatever the schedule, the
 * batches, wire messages and answers are those of the sequential loops on what the collecting loop
 * received, when its timer expired, and how the broker replied.
 */
module Refinement {
  import opened Common
  import opened BatchStorage
  import opened SendLoop
  import opened Pipeline

  // ---------------------------------------------------------------- what the sequential loops are given

  function NextInputs(earlier: seq<Input>, s: State, e: Event): (inputs: seq<Input>)
    requires Enabled(s, e)
  {
    match e
    case Receive => earlier + [Received(s.inbox[0], s.now)]
    case Expire => earlier + [Expired(s.now)]
    case _ => earlier
  }

  /** What the collecting loop's `select` reported, in order. */
  function Inputs(limits: Limits, es: seq<Event>): (inputs: seq<Input>)
    requires Run(limits, es).Some?
  {
    if es == [] then []
    else
      var before := es[..|es| - 1];
      NextInputs(Inputs(limits, before), Run(limits, before).value, es[|es| - 1])
  }

  function NextReplies(earlier: seq<Reply>, e: Event): (replies: seq<Reply>)
  {
    if e.GetReply? then earlier + [e.reply] else earlier
  }

  /** How the broker answered the wire messages, in order. */
  function BrokerReplies(es: seq<Event>): (replies: seq<Reply>)
  {
    if es == [] then [] else NextReplies(BrokerReplies(es[..|es| - 1]), es[|es| - 1])
  }

  // ---------------------------------------------------------------- the batches of a state

  function Batches(done: seq<DoneBatch>): (batches: seq<seq<Item>>)
    ensures |batches| == |done| && forall i :: 0 <= i < |done| ==> batches[i] == done[i].items
  {
    seq(|done|, i requires 0 <= i < |done| => done[i].items)
  }

  function HandBatch(sender: Sender): (batches: seq<seq<Item>>)
  {
    if sender.AwaitingReply? || sender.Resolving? then [sender.batch] else []
  }

  function HeldBatch(phase: Phase): (batches: seq<seq<Item>>)
  {
    if phase.Flushing? then [phase.batch] else []
  }

  /** Every batch that ever left the storage, in order. */
  function Emitted(s: State): (batches: seq<seq<Item>>)
  {
    Batches(s.done) + HandBatch(s.sender) + s.queue + HeldBatch(s.phase)
  }

  // ---------------------------------------------------------------- the collecting side

  /** The collecting loop has done what its sequential form does on the same inputs. */
  predicate Collects(s: State, c: Collected)
  {
    && Emitted(s) == c.emitted
    && (s.phase.Collecting? || s.phase.Flushing? ==> s.collector == c.collector)
    && (s.phase.Refusing? ==> s.leftover + s.phase.rest == c.collector.storage)
    && (s.phase.CollectorDone? ==> s.leftover == c.collector.storage)
  }

  lemma CollectStep(limits: Limits, inputs: seq<Input>, input: Input)
    ensures var before := Collect(limits, inputs);
            var (c, batch) := OnInput(limits, before.collector, input);
            Collect(limits, inputs + [input]) == Collected(c, Grow(before.emitted, batch))
  {
    assert (inputs + [input])[..|inputs|] == inputs;
  }

  lemma EmissionCollects(limits: Limits, s: State, e: Event, inputs: seq<Input>)
    requires Enabled(s, e) && (e.Receive? || e.Expire?)
    requires Collects(s, Collect(limits, inputs))
    ensures Collects(Apply(limits, s, e), Collect(limits, NextInputs(inputs, s, e)))
  {
    var input := if e.Receive? then Received(s.inbox[0], s.now) else Expired(s.now);
    CollectStep(limits, inputs, input);
    var t, all := Apply(limits, s, e), Batches(s.done) + HandBatch(s.sender) + s.queue;
    assert all + [] == all;
    assert Emitted(t) == all + HeldBatch(t.phase);
  }

  lemma FourMove<X>(a: seq<X>, b: seq<X>, c: seq<X>, x: X)
    ensures a + b + (c + [x]) + [] == a + b + c + [x]
    ensures a + [x] + c + b == a + [] + ([x] + c) + b
    ensures (a + [x]) + [] + c + b == a + [x] + c + b
  {
  }

  lemma EnqueueCollects(limits: Limits, s: State, c: Collected)
    requires Enabled(s, Enqueue) && Collects(s, c)
    ensures Collects(Apply(limits, s, Enqueue), c)
  {
    FourMove(Batches(s.done), HandBatch(s.sender), s.queue, s.phase.batch);
  }

  lemma BatchesStep(done: seq<DoneBatch>, d: DoneBatch)
    ensures Batches(done + [d]) == Batches(done) + [d.items]
  {
  }

  lemma TakeCollects(limits: Limits, s: State, c: Collected)
    requires Enabled(s, TakeBatch) && s.queue[0] != [] && Collects(s, c)
    ensures Collects(Apply(limits, s, TakeBatch), c)
  {
    var batch, rest := s.queue[0], s.queue[1..];
    assert s.queue == [batch] + rest;
    FourMove(Batches(s.done), HeldBatch(s.phase), rest, batch);
    if WithoutFlush(batch) == [] {
      BatchesStep(s.done, DoneBatch(batch, None));
    }
  }

  lemma FinishCollects(limits: Limits, s: State, c: Collected)
    requires Enabled(s, FinishBatch) && Collects(s, c)
    ensures Collects(Apply(limits, s, FinishBatch), c)
  {
    BatchesStep(s.done, DoneBatch(s.sender.batch, Some(s.sender.reply)));
    FourMove(Batches(s.done), HeldBatch(s.phase), s.queue, s.sender.batch);
  }

  lemma RefuseCollects(limits: Limits, s: State, c: Collected)
    requires Enabled(s, RefuseOne) && Collects(s, c)
    ensures Collects(Apply(limits, s, RefuseOne), c)
  {
    RefuseMoves(s.leftover, s.phase.rest);
  }

  lemma CloseCollects(limits: Limits, s: State, c: Collected)
    requires Enabled(s, SeeClosed) && Collects(s, c) && s.leftover == []
    ensures Collects(Apply(limits, s, SeeClosed), c)
  {
    assert s.leftover + s.collector.storage == s.collector.storage;
  }

  lemma OtherCollects(limits: Limits, s: State, e: Event, c: Collected)
    requires Enabled(s, e) && Collects(s, c)
    requires !e.Receive? && !e.Expire? && !e.Enqueue? && !e.TakeBatch? && !e.FinishBatch? && !e.RefuseOne? && !e.SeeClosed?
    ensures Collects(Apply(limits, s, e), c)
  {
    assert s.leftover + [] == s.leftover;
    assert Batches(Apply(limits, s, e).done) == Batches(s.done);
  }

  lemma StepCollects(limits: Limits, s: State, e: Event, inputs: seq<Input>)
    requires Inv(limits, s) && Enabled(s, e) && Collects(s, Collect(limits, inputs))
    ensures Collects(Apply(limits, s, e), Collect(limits, NextInputs(inputs, s, e)))
  {
    hide Conserved, Answered, GoodCollector, Collect, Collects, Apply;
    match e
    case Receive => EmissionCollects(limits, s, e, inputs);
    case Expire => EmissionCollects(limits, s, e, inputs);
    case Enqueue => EnqueueCollects(limits, s, Collect(limits, inputs));
    case TakeBatch =>
      assert s.queue[0] in s.queue;
      TakeCollects(limits, s, Collect(limits, inputs));
    case FinishBatch => FinishCollects(limits, s, Collect(limits, inputs));
    case RefuseOne => RefuseCollects(limits, s, Collect(limits, inputs));
    case SeeClosed => CloseCollects(limits, s, Collect(limits, inputs));
    case _ => OtherCollects(limits, s, e, Collect(limits, inputs));
  }

  // ---------------------------------------------------------------- the sending side

  /** A reply function that starts with the replies given so far. */
  predicate Agrees(reply: nat -> Reply, replies: seq<Reply>)
  {
    forall k :: 0 <= k < |replies| ==> reply(k) == replies[k]
  }

  /** The sending loop has done what its sequential form does on the same batches and replies. */
  predicate Sends(s: State, replies: seq<Reply>, reply: nat -> Reply)
  {
    && s.done == Processed(Batches(s.done), reply)
    && |replies| == Replies(s.done) + (if s.sender.Resolving? then 1 else 0)
    && (s.sender.Resolving? ==> s.sender.reply == replies[|replies| - 1])
  }

  lemma ProcessedStep(done: seq<DoneBatch>, batch: seq<Item>, reply: nat -> Reply)
    requires batch != [] && done == Processed(Batches(done), reply)
    ensures var d := Settle(batch, reply(Replies(done)));
            && done + [d] == Processed(Batches(done + [d]), reply)
            && Replies(done + [d]) == Replies(done) + if d.reply.None? then 0 else 1
  {
    var d := Settle(batch, reply(Replies(done)));
    BatchesStep(done, d);
    assert (Batches(done) + [batch])[..|done|] == Batches(done);
    assert (done + [d])[..|done|] == done;
  }

  lemma TakeSends(limits: Limits, s: State, replies: seq<Reply>, reply: nat -> Reply)
    requires Enabled(s, TakeBatch) && s.queue[0] != [] && Sends(s, replies, reply)
    ensures Sends(Apply(limits, s, TakeBatch), replies, reply)
  {
    ProcessedStep(s.done, s.queue[0], reply);
  }

  lemma FinishSends(limits: Limits, s: State, replies: seq<Reply>, reply: nat -> Reply)
    requires Enabled(s, FinishBatch) && s.sender.batch != [] && WithoutFlush(s.sender.batch) != []
    requires Sends(s, replies, reply) && reply(|replies| - 1) == replies[|replies| - 1]
    ensures Sends(Apply(limits, s, FinishBatch), replies, reply)
  {
    var d := DoneBatch(s.sender.batch, Some(s.sender.reply));
    ProcessedStep(s.done, s.sender.batch, reply);
    assert d == Settle(s.sender.batch, reply(Replies(s.done)));
    assert Apply(limits, s, FinishBatch).done == s.done + [d];
  }

  lemma OtherSends(limits: Limits, s: State, e: Event, replies: seq<Reply>, reply: nat -> Reply)
    requires Enabled(s, e) && Sends(s, replies, reply) && !e.TakeBatch? && !e.FinishBatch?
    ensures Sends(Apply(limits, s, e), NextReplies(replies, e), reply)
  {
    hide Processed, Replies, Batches, OnItem, OnTimer;
    assert Apply(limits, s, e).done == s.done;
  }

  lemma StepSends(limits: Limits, s: State, e: Event, replies: seq<Reply>, reply: nat -> Reply)
    requires Inv(limits, s) && Enabled(s, e) && Sends(s, replies, reply)
    requires Agrees(reply, NextReplies(replies, e))
    ensures Sends(Apply(limits, s, e), NextReplies(replies, e), reply)
  {
    if e.TakeBatch? {
      assert s.queue[0] in s.queue;
      TakeSends(limits, s, replies, reply);
    } else if e.FinishBatch? {
      FinishSends(limits, s, replies, reply);
    } else {
      OtherSends(limits, s, e, replies, reply);
    }
  }

  // ---------------------------------------------------------------- every run

  lemma AgreesBefore(reply: nat -> Reply, replies: seq<Reply>, e: Event)
    requires Agrees(reply, NextReplies(replies, e))
    ensures Agrees(reply, replies)
  {
    forall k | 0 <= k < |replies| ensures reply(k) == replies[k] {
      assert NextReplies(replies, e)[k] == replies[k];
    }
  }

  lemma {:induction false} RunRefines(limits: Limits, es: seq<Event>, reply: nat -> Reply)
    requires Run(limits, es).Some? && Agrees(reply, BrokerReplies(es))
    ensures Collects(Run(limits, es).value, Collect(limits, Inputs(limits, es)))
    ensures Sends(Run(limits, es).value, BrokerReplies(es), reply)
  {
    if es != [] {
      var before, e := es[..|es| - 1], es[|es| - 1];
      AgreesBefore(reply, BrokerReplies(before), e);
      RunRefines(limits, before, reply);
      RunKeepsInvariant(limits, before);
      StepCollects(limits, Run(limits, before).value, e, Inputs(limits, before));
      StepSends(limits, Run(limits, before).value, e, BrokerReplies(before), reply);
    }
  }

  /**
   * The schedule is irrelevant. At any time the batches finished so far are, in order, the first
   * ones the sequential collecting loop emits on the same inputs, each ending as the sequential
   * sending loop would have it. When a run has ended, the finished batches (and so the wire messages),
   * the answers and the releases are those of `MessageSendLoop` on the output of `BatchProcessLoop`.
   */
  lemma ScheduleIsIrrelevant(limits: Limits, es: seq<Event>, s: State, reply: nat -> Reply)
    requires Run(limits, es) == Some(s) && Agrees(reply, BrokerReplies(es))
    ensures Batches(s.done) <= Collect(limits, Inputs(limits, es)).emitted
    ensures s.done == Processed(Batches(s.done), reply)
    ensures s.sender.SenderDone? ==>
              var c := Collect(limits, Inputs(limits, es));
              && s.done == Processed(c.emitted, reply)
              && s.resolved == AllResolutions(Processed(c.emitted, reply))
              && s.released == AllReleases(Processed(c.emitted, reply))
              && s.refused == Refusals(c.collector.storage)
  {
    RunRefines(limits, es, reply);
    RunKeepsInvariant(limits, es);
    var all := Batches(s.done);
    Regroup(all, HandBatch(s.sender), s.queue);
    Regroup(all, HandBatch(s.sender) + s.queue, HeldBatch(s.phase));
    if s.sender.SenderDone? {
      assert Emitted(s) == all;
      assert AllResolutions(s.done) + [] == AllResolutions(s.done);
    }
  }
}
