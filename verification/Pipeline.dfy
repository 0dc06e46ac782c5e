/**
 * The batching producer as a concurrent system: callers, the collecting loop and the sending loop
 * run as separate tasks joined by two bounded channels. A run is any interleaving of their steps
 * with the clock and with the broker's replies.
 */
module Pipeline {
  import opened Common
  import opened BatchStorage
  import opened SendLoop

  /** The capacities of the two channels: their buffer plus one slot for the only sender. */
  const INBOX_CAPACITY: nat := 11
  const QUEUE_CAPACITY: nat := 2

  datatype Phase =
    | Collecting
    | Flushing(batch: seq<Item>)    // waiting for room in the batch channel
    | Refusing(rest: seq<Item>)     // the channel is closed; what is left is answered with Closed
    | CollectorDone

  datatype Sender =
    | Idle
    | AwaitingReply(batch: seq<Item>)
    | Resolving(batch: seq<Item>, reply: Reply, answered: nat)
    | SenderDone                    // the close notification has been sent

  /** The tasks, the channels between them, and what has been observed so far. */
  datatype State = State(
    now: nat,
    closed: bool,
    accepted: seq<Item>,            // everything callers put into the channel, in order
    inbox: seq<Item>,
    collector: Collector,
    phase: Phase,
    queue: seq<seq<Item>>,
    sender: Sender,
    done: seq<DoneBatch>,           // batches the sending loop has finished
    resolved: seq<Resolution>,      // answers given by the sending loop
    leftover: seq<Item>,            // items dropped by the collecting loop at the end
    refused: seq<Resolution>,       // answers given by the collecting loop
    released: seq<Release>)

  const START := State(0, false, [], [], IDLE, Collecting, [], Idle, [], [], [], [], [])

  datatype Event =
    | Accept(item: Item) | CloseChannel | Tick(elapsed: nat)
    | Receive | Expire | Enqueue | SeeClosed | RefuseOne | ExitCollector
    | TakeBatch | GetReply(reply: Reply) | ResolveOne | FinishBatch | ExitSender

  function ItemIds(items: seq<Item>): (ids: seq<nat>)
    ensures |ids| == |items| && forall i :: 0 <= i < |items| ==> ids[i] == items[i].id
  {
    seq(|items|, i requires 0 <= i < |items| => items[i].id)
  }

  predicate Enabled(s: State, e: Event)
  {
    match e
    case Accept(item) => !s.closed && |s.inbox| < INBOX_CAPACITY && item.id !in ItemIds(s.accepted)
    case CloseChannel => !s.closed
    case Tick(_) => true
    case Receive => s.phase.Collecting? && s.inbox != []
    case Expire => s.phase.Collecting? && s.collector.timer.Some? && s.collector.timer.value <= s.now
    case Enqueue => s.phase.Flushing? && |s.queue| < QUEUE_CAPACITY
    case SeeClosed => s.phase.Collecting? && s.inbox == [] && s.closed
    case RefuseOne => s.phase.Refusing? && s.phase.rest != []
    case ExitCollector => s.phase == Refusing([])
    case TakeBatch => s.sender.Idle? && s.queue != []
    case GetReply(_) => s.sender.AwaitingReply?
    case ResolveOne => s.sender.Resolving? && s.sender.answered < |SingleIds(WithoutFlush(s.sender.batch))|
    case FinishBatch => s.sender.Resolving? && s.sender.answered == |SingleIds(WithoutFlush(s.sender.batch))|
    case ExitSender => s.sender.Idle? && s.queue == [] && s.phase.CollectorDone?
  }

  /** The collecting loop continues after a step that may have produced a batch. */
  function Emit(s: State, c: Collector, batch: seq<Item>): (t: State)
  {
    s.(collector := c, phase := if batch == [] then Collecting else Flushing(batch))
  }

  function Refuse(s: State): (t: State)
    requires Enabled(s, RefuseOne)
  {
    var item := s.phase.rest[0];
    var t := s.(phase := Refusing(s.phase.rest[1..]), leftover := s.leftover + [item]);
    if item.Single? then t.(refused := s.refused + [Resolution(item.id, ProducerClosed)])
    else t.(released := s.released + [Release(item.id, false)])
  }

  function Take(s: State): (t: State)
    requires Enabled(s, TakeBatch)
  {
    var batch, t := s.queue[0], s.(queue := s.queue[1..]);
    if batch == [] then t
    else if WithoutFlush(batch) == [] then
      var d := DoneBatch(batch, None);
      t.(done := s.done + [d], released := s.released + Releases(d))
    else t.(sender := AwaitingReply(batch))
  }

  function ResolveNext(s: State): (t: State)
    requires Enabled(s, ResolveOne)
  {
    var items := WithoutFlush(s.sender.batch);
    var k := s.sender.answered;
    s.(resolved := s.resolved + [Resolution(SingleIds(items)[k], OutcomeAt(k, |items|, s.sender.reply))],
       sender := s.sender.(answered := k + 1))
  }

  function Finish(s: State): (t: State)
    requires Enabled(s, FinishBatch)
  {
    var d := DoneBatch(s.sender.batch, Some(s.sender.reply));
    s.(sender := Idle, done := s.done + [d], released := s.released + Releases(d))
  }

  function Apply(limits: Limits, s: State, e: Event): (t: State)
    requires Enabled(s, e)
  {
    match e
    case Accept(item) => s.(accepted := s.accepted + [item], inbox := s.inbox + [item])
    case CloseChannel => s.(closed := true)
    case Tick(elapsed) => s.(now := s.now + elapsed)
    case Receive =>
      var (c, batch) := OnItem(limits, s.collector, s.inbox[0], s.now);
      Emit(s, c, batch).(inbox := s.inbox[1..])
    case Expire =>
      var (c, batch) := OnTimer(limits, s.collector);
      Emit(s, c, batch)
    case Enqueue => s.(queue := s.queue + [s.phase.batch], phase := Collecting)
    case SeeClosed => s.(phase := Refusing(s.collector.storage), collector := IDLE)
    case RefuseOne => Refuse(s)
    case ExitCollector => s.(phase := CollectorDone)
    case TakeBatch => Take(s)
    case GetReply(reply) => s.(sender := Resolving(s.sender.batch, reply, 0))
    case ResolveOne => ResolveNext(s)
    case FinishBatch => Finish(s)
    case ExitSender => s.(sender := SenderDone)
  }

  /** The state after a run, if each of its events was possible in turn. */
  function Run(limits: Limits, es: seq<Event>): (s: Option<State>)
  {
    if es == [] then Some(START)
    else
      var before := Run(limits, es[..|es| - 1]);
      if before.None? || !Enabled(before.value, es[|es| - 1]) then None
      else Some(Apply(limits, before.value, es[|es| - 1]))
  }

  // ---------------------------------------------------------------- the invariant

  function DoneItems(done: seq<DoneBatch>): (items: seq<Item>)
  {
    if done == [] then [] else DoneItems(done[..|done| - 1]) + done[|done| - 1].items
  }

  function InHand(sender: Sender): (items: seq<Item>)
  {
    match sender
    case AwaitingReply(batch) => batch
    case Resolving(batch, _, _) => batch
    case _ => []
  }

  function Held(phase: Phase): (items: seq<Item>)
  {
    match phase
    case Flushing(batch) => batch
    case Refusing(rest) => rest
    case _ => []
  }

  function Front(s: State): (items: seq<Item>)
  {
    DoneItems(s.done) + InHand(s.sender) + Concat(s.queue)
  }

  function Back(s: State): (items: seq<Item>)
  {
    s.leftover + Held(s.phase) + s.collector.storage + s.inbox
  }

  /** Every accepted item is in exactly one place, and the places are in acceptance order. */
  predicate Conserved(s: State)
  {
    s.accepted == Front(s) + Back(s)
  }

  function Partial(sender: Sender): (r: seq<Resolution>)
    requires sender.Resolving? ==> sender.answered <= |SingleIds(WithoutFlush(sender.batch))|
  {
    if sender.Resolving? then
      var items := WithoutFlush(sender.batch);
      Outcomes(SingleIds(items), |items|, sender.reply, sender.answered)
    else []
  }

  function Refusals(items: seq<Item>): (r: seq<Resolution>)
  {
    if items == [] then []
    else
      var item := items[|items| - 1];
      Refusals(items[..|items| - 1]) + if item.Single? then [Resolution(item.id, ProducerClosed)] else []
  }

  /** The answers given so far are exactly those of the finished and half-finished batches. */
  predicate Answered(s: State)
  {
    && (s.sender.Resolving? ==> s.sender.answered <= |SingleIds(WithoutFlush(s.sender.batch))|)
    && s.resolved == AllResolutions(s.done) + Partial(s.sender)
    && s.refused == Refusals(s.leftover)
    && s.released == AllReleases(s.done)
  }

  /** Every batch that ever left the storage. */
  predicate GoodBatches(limits: Limits, s: State)
  {
    && (forall d :: d in s.done ==> WellFormed(limits, d.items) && (d.reply.None? <==> WithoutFlush(d.items) == []))
    && (s.sender.AwaitingReply? || s.sender.Resolving? ==>
          WellFormed(limits, s.sender.batch) && WithoutFlush(s.sender.batch) != [])
    && (forall batch :: batch in s.queue ==> WellFormed(limits, batch))
    && (s.phase.Flushing? ==> WellFormed(limits, s.phase.batch))
  }

  /** Which steps lie behind each task. */
  predicate InPhase(limits: Limits, s: State)
  {
    && GoodCollector(limits, s.collector)
    && (forall i :: 0 <= i < |s.collector.arrivals| ==> s.collector.arrivals[i] <= s.now)
    && NoFlush(s.leftover)
    && (s.phase.Collecting? || s.phase.Flushing? ==> s.leftover == [])
    && (!s.phase.Collecting? ==> s.collector == IDLE)
    && (s.phase.Refusing? ==> NoFlush(s.phase.rest))
    && (s.phase.Refusing? || s.phase.CollectorDone? ==> s.closed && s.inbox == [])
    && (s.sender.SenderDone? ==> s.phase.CollectorDone? && s.queue == [])
  }

  ghost predicate Inv(limits: Limits, s: State)
  {
    && Conserved(s)
    && Answered(s)
    && GoodBatches(limits, s)
    && InPhase(limits, s)
    && Distinct(ItemIds(s.accepted))
  }

  /** A step of the collecting loop that hands on `batch` and keeps `c`, having taken `taken` from the channel. */
  lemma EmitKeepsInvariant(limits: Limits, s: State, c: Collector, batch: seq<Item>, taken: seq<Item>, inbox: seq<Item>)
    requires Inv(limits, s) && s.phase.Collecting?
    requires s.inbox == taken + inbox
    requires GoodCollector(limits, c) && batch + c.storage == s.collector.storage + taken
    requires batch != [] ==> WellFormed(limits, batch) && c == IDLE
    requires forall i :: 0 <= i < |c.arrivals| ==> c.arrivals[i] <= s.now
    ensures Inv(limits, Emit(s, c, batch).(inbox := inbox))
  {
    var t := Emit(s, c, batch).(inbox := inbox);
    assert Front(t) == Front(s);
    BackOfEmission(s, t, taken + inbox, batch + c.storage + inbox);
    assert s.collector.storage + (taken + inbox) == batch + c.storage + inbox;
  }

  /** While the loop is collecting, only the storage and the channel are behind the batch channel. */
  lemma BackOfEmission(s: State, t: State, inbox: seq<Item>, back: seq<Item>)
    requires s.phase.Collecting? && s.leftover == [] && t.leftover == [] && s.inbox == inbox
    requires Held(t.phase) + t.collector.storage + t.inbox == back
    ensures Back(s) == s.collector.storage + inbox && Back(t) == back
  {
    assert [] + Held(t.phase) == Held(t.phase);
    assert s.leftover + Held(s.phase) == [];
    assert [] + s.collector.storage == s.collector.storage;
  }

  lemma ReceiveKeepsInvariant(limits: Limits, s: State)
    requires Inv(limits, s) && Enabled(s, Receive)
    ensures Inv(limits, Apply(limits, s, Receive))
  {
    ItemKeepsCollectorGood(limits, s.collector, s.inbox[0], s.now);
    var (c, batch) := OnItem(limits, s.collector, s.inbox[0], s.now);
    EmitKeepsInvariant(limits, s, c, batch, [s.inbox[0]], s.inbox[1..]);
  }

  lemma ExpireKeepsInvariant(limits: Limits, s: State)
    requires Inv(limits, s) && Enabled(s, Expire)
    ensures Inv(limits, Apply(limits, s, Expire))
  {
    TimerKeepsCollectorGood(limits, s.collector);
    var (c, batch) := OnTimer(limits, s.collector);
    EmitKeepsInvariant(limits, s, c, batch, [], s.inbox);
  }

  lemma EnqueueKeepsInvariant(limits: Limits, s: State)
    requires Inv(limits, s) && Enabled(s, Enqueue)
    ensures Inv(limits, Apply(limits, s, Enqueue))
  {
    var t := Apply(limits, s, Enqueue);
    EnqueueMoves(s, t);
    Regroup(Front(s), s.phase.batch, Back(t));
  }

  lemma EnqueueMoves(s: State, t: State)
    requires s.phase.Flushing? && s.leftover == [] && s.collector.storage == []
    requires t == s.(queue := s.queue + [s.phase.batch], phase := Collecting)
    ensures Front(t) == Front(s) + s.phase.batch
    ensures Back(s) == s.phase.batch + Back(t)
  {
    ConcatAppend(s.queue, s.phase.batch);
    Regroup(DoneItems(s.done) + InHand(s.sender), Concat(s.queue), s.phase.batch);
    assert Back(s) == s.phase.batch + s.inbox;
    assert Back(t) == s.inbox;
  }

  lemma RefuseMoves(leftover: seq<Item>, rest: seq<Item>)
    requires rest != []
    ensures leftover + rest == leftover + [rest[0]] + rest[1..]
    ensures Refusals(leftover + [rest[0]]) ==
              Refusals(leftover) + if rest[0].Single? then [Resolution(rest[0].id, ProducerClosed)] else []
    ensures NoFlush(leftover) && NoFlush(rest) ==> rest[0].Single? && NoFlush(leftover + [rest[0]]) && NoFlush(rest[1..])
  {
    assert rest[0] in rest;
    assert (leftover + [rest[0]])[..|leftover|] == leftover;
  }

  lemma RefuseKeepsInvariant(limits: Limits, s: State)
    requires Inv(limits, s) && Enabled(s, RefuseOne)
    ensures Inv(limits, Apply(limits, s, RefuseOne))
  {
    var t := Refuse(s);
    RefuseMoves(s.leftover, s.phase.rest);
    assert Front(t) == Front(s);
    assert Back(t) == Back(s);
  }

  lemma ClosingKeepsInvariant(limits: Limits, s: State, e: Event)
    requires Inv(limits, s) && Enabled(s, e) && (e.SeeClosed? || e.ExitCollector? || e.ExitSender?)
    ensures Inv(limits, Apply(limits, s, e))
  {
    hide WellFormed, DoneItems, Concat, AllResolutions, AllReleases, Refusals, Outcomes;
    var t := Apply(limits, s, e);
    assert Front(t) == Front(s);
    assert Back(t) == Back(s);
  }

  lemma ResequenceFront(s: State, t: State, d: DoneBatch)
    requires t.sender.Idle? && t.done == s.done + [d]
    requires InHand(s.sender) + Concat(s.queue) == d.items + Concat(t.queue)
    ensures Front(t) == Front(s)
  {
    assert t.done[..|s.done|] == s.done;
    assert Front(s) == DoneItems(s.done) + (InHand(s.sender) + Concat(s.queue));
    assert Front(t) == DoneItems(s.done) + (d.items + Concat(t.queue));
  }

  lemma AnswersOfDone(s: State, t: State, d: DoneBatch)
    requires Answered(s) && Partial(s.sender) == Resolutions(d)
    requires t == s.(sender := Idle, queue := t.queue, done := s.done + [d], released := s.released + Releases(d))
    ensures Answered(t)
  {
    assert t.done[..|s.done|] == s.done;
    assert AllResolutions(t.done) + [] == AllResolutions(t.done);
  }

  /** A step of the sending loop that finishes a batch. */
  lemma DoneKeepsInvariant(limits: Limits, s: State, t: State, d: DoneBatch)
    requires Inv(limits, s) && !s.sender.SenderDone?
    requires Partial(s.sender) == Resolutions(d)
    requires t == s.(sender := Idle, queue := t.queue, done := s.done + [d], released := s.released + Releases(d))
    requires t.queue == s.queue || (s.queue != [] && t.queue == s.queue[1..])
    requires WellFormed(limits, d.items) && (d.reply.None? <==> WithoutFlush(d.items) == [])
    requires InHand(s.sender) + Concat(s.queue) == d.items + Concat(t.queue)
    ensures Inv(limits, t)
  {
    ResequenceFront(s, t, d);
    assert Back(t) == Back(s);
    AnswersOfDone(s, t, d);
  }

  lemma HandOver(s: State, t: State)
    requires s.sender.Idle? && s.queue != []
    requires t == s.(sender := AwaitingReply(s.queue[0]), queue := s.queue[1..])
    ensures Front(t) == Front(s) && Back(t) == Back(s)
  {
    assert Front(s) == DoneItems(s.done) + (s.queue[0] + Concat(t.queue));
  }

  /** The first message-bearing batch goes from the channel into the sending loop. */
  lemma HandOverKeepsInvariant(limits: Limits, s: State, t: State)
    requires Inv(limits, s) && s.sender.Idle? && s.queue != [] && WithoutFlush(s.queue[0]) != []
    requires t == s.(sender := AwaitingReply(s.queue[0]), queue := s.queue[1..])
    ensures Inv(limits, t)
  {
    HandOver(s, t);
    assert s.queue[0] in s.queue;
  }

  lemma TakeKeepsInvariant(limits: Limits, s: State)
    requires Inv(limits, s) && Enabled(s, TakeBatch)
    ensures Inv(limits, Apply(limits, s, TakeBatch))
  {
    var t, batch := Take(s), s.queue[0];
    assert batch in s.queue;
    if WithoutFlush(batch) == [] {
      var d := DoneBatch(batch, None);
      assert InHand(s.sender) + Concat(s.queue) == batch + Concat(t.queue);
      DoneKeepsInvariant(limits, s, t, d);
    } else {
      HandOverKeepsInvariant(limits, s, t);
    }
  }

  lemma ReplyKeepsInvariant(limits: Limits, s: State, reply: Reply)
    requires Inv(limits, s) && Enabled(s, GetReply(reply))
    ensures Inv(limits, Apply(limits, s, GetReply(reply)))
  {
    var t := Apply(limits, s, GetReply(reply));
    assert Front(t) == Front(s);
    assert Back(t) == Back(s);
  }

  lemma ResolveAnswersOne(s: State)
    requires Answered(s) && Enabled(s, ResolveOne)
    ensures Answered(ResolveNext(s))
  {
    var items, k := WithoutFlush(s.sender.batch), s.sender.answered;
    Regroup(AllResolutions(s.done), Partial(s.sender), [Resolution(SingleIds(items)[k], OutcomeAt(k, |items|, s.sender.reply))]);
  }

  lemma ResolveKeepsInvariant(limits: Limits, s: State)
    requires Inv(limits, s) && Enabled(s, ResolveOne)
    ensures Inv(limits, Apply(limits, s, ResolveOne))
  {
    var t := ResolveNext(s);
    ResolveAnswersOne(s);
    assert Front(t) == Front(s);
    assert Back(t) == Back(s);
  }

  lemma FinishKeepsInvariant(limits: Limits, s: State)
    requires Inv(limits, s) && Enabled(s, FinishBatch)
    ensures Inv(limits, Apply(limits, s, FinishBatch))
  {
    DoneKeepsInvariant(limits, s, Finish(s), DoneBatch(s.sender.batch, Some(s.sender.reply)));
  }

  lemma CallerKeepsInvariant(limits: Limits, s: State, e: Event)
    requires Inv(limits, s) && Enabled(s, e) && (e.Accept? || e.CloseChannel? || e.Tick?)
    ensures Inv(limits, Apply(limits, s, e))
  {
    hide WellFormed, DoneItems, Concat, AllResolutions, AllReleases, Refusals, Outcomes;
    var t := Apply(limits, s, e);
    assert Front(t) == Front(s);
    if e.Accept? {
      assert Back(t) == Back(s) + [e.item];
      assert ItemIds(t.accepted) == ItemIds(s.accepted) + [e.item.id];
    }
  }

  lemma StepKeepsInvariant(limits: Limits, s: State, e: Event)
    requires Inv(limits, s) && Enabled(s, e)
    ensures Inv(limits, Apply(limits, s, e))
  {
    match e
    case Receive => ReceiveKeepsInvariant(limits, s);
    case Expire => ExpireKeepsInvariant(limits, s);
    case Enqueue => EnqueueKeepsInvariant(limits, s);
    case RefuseOne => RefuseKeepsInvariant(limits, s);
    case TakeBatch => TakeKeepsInvariant(limits, s);
    case GetReply(reply) => ReplyKeepsInvariant(limits, s, reply);
    case ResolveOne => ResolveKeepsInvariant(limits, s);
    case FinishBatch => FinishKeepsInvariant(limits, s);
    case SeeClosed => ClosingKeepsInvariant(limits, s, e);
    case ExitCollector => ClosingKeepsInvariant(limits, s, e);
    case ExitSender => ClosingKeepsInvariant(limits, s, e);
    case _ => CallerKeepsInvariant(limits, s, e);
  }

  lemma {:induction false} RunKeepsInvariant(limits: Limits, es: seq<Event>)
    requires Run(limits, es).Some?
    ensures Inv(limits, Run(limits, es).value)
  {
    if es != [] {
      RunKeepsInvariant(limits, es[..|es| - 1]);
      StepKeepsInvariant(limits, Run(limits, es[..|es| - 1]).value, es[|es| - 1]);
    }
  }
}
