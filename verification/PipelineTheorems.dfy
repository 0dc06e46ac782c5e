/** What holds in every reachable state of the batching producer, and how closing it ends. */
module PipelineTheorems {
  import opened Common
  import opened Bytes
  import opened Messages
  import opened Framing
  import opened BatchFormat
  import opened BatchStorage
  import opened SendLoop
  import opened Pipeline

  // ---------------------------------------------------------------- order and uniqueness of answers

  function Ids(answers: seq<Resolution>): (ids: seq<nat>)
    ensures |ids| == |answers| && forall i :: 0 <= i < |answers| ==> ids[i] == answers[i].id
  {
    seq(|answers|, i requires 0 <= i < |answers| => answers[i].id)
  }

  lemma IdsOfSum(a: seq<Resolution>, b: seq<Resolution>)
    ensures Ids(a + b) == Ids(a) + Ids(b)
  {
  }

  lemma IdsOfOutcomes(ids: seq<nat>, counter: nat, reply: Reply, upTo: nat)
    requires upTo <= |ids|
    ensures Ids(Outcomes(ids, counter, reply, upTo)) == ids[..upTo]
  {
  }

  lemma IdsOfResolutions(d: DoneBatch)
    requires d.reply.None? <==> WithoutFlush(d.items) == []
    ensures Ids(Resolutions(d)) == SingleIds(d.items)
  {
    WithoutFlushKeepsSingles(d.items);
    if d.reply.Some? {
      var ids := SingleIds(WithoutFlush(d.items));
      IdsOfOutcomes(ids, |WithoutFlush(d.items)|, d.reply.value, |ids|);
      assert ids[..|ids|] == ids;
    }
  }

  lemma {:induction false} IdsOfAllResolutions(done: seq<DoneBatch>)
    requires forall d :: d in done ==> (d.reply.None? <==> WithoutFlush(d.items) == [])
    ensures Ids(AllResolutions(done)) == SingleIds(DoneItems(done))
  {
    if done != [] {
      var n := |done| - 1;
      assert done[n] in done;
      IdsOfAllResolutions(done[..n]);
      IdsOfResolutions(done[n]);
      IdsOfSum(AllResolutions(done[..n]), Resolutions(done[n]));
      IdsAppend(DoneItems(done[..n]), done[n].items);
    }
  }

  lemma {:induction false} IdsOfRefusals(items: seq<Item>)
    ensures Ids(Refusals(items)) == SingleIds(items)
  {
    if items != [] {
      var n := |items| - 1;
      IdsOfRefusals(items[..n]);
      SplitAt(items, n);
      assert items[n..] == [items[n]];
      IdsAppend(items[..n], [items[n]]);
      assert SingleIds([items[n]]) == if items[n].Single? then [items[n].id] else [];
      IdsOfSum(Refusals(items[..n]), if items[n].Single? then [Resolution(items[n].id, ProducerClosed)] else []);
    }
  }

  /** How many messages of the batch in hand have been answered. */
  function AnsweredInHand(sender: Sender): (k: nat)
  {
    if sender.Resolving? then sender.answered else 0
  }

  /** Messages emitted in a batch and not answered yet, in order. */
  function InFlight(s: State): (ids: seq<nat>)
    requires AnsweredInHand(s.sender) <= |SingleIds(InHand(s.sender))|
  {
    SingleIds(InHand(s.sender))[AnsweredInHand(s.sender)..] + SingleIds(Concat(s.queue))
  }

  /** Messages that are in no batch yet, in order. */
  function NotEmitted(s: State): (ids: seq<nat>)
  {
    SingleIds(Held(s.phase) + s.collector.storage + s.inbox)
  }

  lemma AnswersOfHand(s: State)
    requires Answered(s)
    ensures AnsweredInHand(s.sender) <= |SingleIds(InHand(s.sender))|
    ensures Ids(Partial(s.sender)) == SingleIds(InHand(s.sender))[..AnsweredInHand(s.sender)]
  {
    if s.sender.Resolving? {
      var items := WithoutFlush(s.sender.batch);
      WithoutFlushKeepsSingles(s.sender.batch);
      IdsOfOutcomes(SingleIds(items), |items|, s.sender.reply, s.sender.answered);
    }
  }

  lemma IdsOfFront(limits: Limits, s: State)
    requires Inv(limits, s)
    ensures AnsweredInHand(s.sender) <= |SingleIds(InHand(s.sender))|
    ensures SingleIds(Front(s)) == Ids(s.resolved) + InFlight(s)
  {
    AnswersOfHand(s);
    IdsOfAllResolutions(s.done);
    IdsOfSum(AllResolutions(s.done), Partial(s.sender));
    IdsAppend(DoneItems(s.done) + InHand(s.sender), Concat(s.queue));
    IdsAppend(DoneItems(s.done), InHand(s.sender));
    var k, hand := AnsweredInHand(s.sender), SingleIds(InHand(s.sender));
    SplitAt(hand, k);
    var before, behind := SingleIds(DoneItems(s.done)), SingleIds(Concat(s.queue));
    FourParts(before, hand[..k], hand[k..], behind);
  }

  lemma FourParts<T>(a: seq<T>, b: seq<T>, c: seq<T>, d: seq<T>)
    ensures a + (b + c) + d == (a + b) + (c + d)
  {
  }

  lemma IdsOfBack(s: State)
    requires Answered(s)
    ensures SingleIds(Back(s)) == Ids(s.refused) + NotEmitted(s)
  {
    IdsOfRefusals(s.leftover);
    Regroup(s.leftover, Held(s.phase), s.collector.storage);
    Regroup(s.leftover, Held(s.phase) + s.collector.storage, s.inbox);
    IdsAppend(s.leftover, Held(s.phase) + s.collector.storage + s.inbox);
  }

  /**
   * Order and conservation: in every reachable state the accepted messages, in the order of
   * acceptance, are those answered by the broker's replies, those in emitted batches, those refused
   * because the producer closed, and those in no batch yet. None is lost, doubled or overtaken.
   */
  lemma AnswersFollowAcceptance(limits: Limits, es: seq<Event>, s: State)
    requires Run(limits, es) == Some(s)
    ensures AnsweredInHand(s.sender) <= |SingleIds(InHand(s.sender))|
    ensures SingleIds(s.accepted) == Ids(s.resolved) + InFlight(s) + (Ids(s.refused) + NotEmitted(s))
  {
    RunKeepsInvariant(limits, es);
    IdsOfFront(limits, s);
    IdsOfBack(s);
    IdsAppend(Front(s), Back(s));
  }

  /** Emitted batches, the batch being emitted, the items refused, stored and not yet received are the items accepted. */
  lemma EmittedPlusStoredIsAccepted(limits: Limits, es: seq<Event>, s: State)
    requires Run(limits, es) == Some(s)
    ensures s.phase.Collecting? ==>
              s.accepted == DoneItems(s.done) + InHand(s.sender) + Concat(s.queue) + (s.collector.storage + s.inbox)
  {
    RunKeepsInvariant(limits, es);
    if s.phase.Collecting? {
      BackOfEmission(s, s, s.inbox, Held(s.phase) + s.collector.storage + s.inbox);
    }
  }

  lemma {:induction false} SingleIdIsItemId(items: seq<Item>, id: nat)
    ensures id in SingleIds(items) <==> exists i :: 0 <= i < |items| && items[i].Single? && items[i].id == id
  {
    if items != [] {
      SingleIdIsItemId(items[1..], id);
      if id in SingleIds(items[1..]) {
        var i :| 0 <= i < |items[1..]| && items[1..][i].Single? && items[1..][i].id == id;
        assert items[i + 1] == items[1..][i];
      }
      if i :| 0 <= i < |items| && items[i].Single? && items[i].id == id {
        if 0 < i {
          assert items[1..][i - 1] == items[i];
        }
      }
    }
  }

  lemma {:induction false} SingleIdsAreDistinct(items: seq<Item>)
    requires Distinct(ItemIds(items))
    ensures Distinct(SingleIds(items))
  {
    if items != [] {
      var ids := ItemIds(items);
      forall i, j | 0 <= i < j < |items[1..]|
        ensures ItemIds(items[1..])[i] != ItemIds(items[1..])[j]
      {
        assert ids[i + 1] != ids[j + 1];
      }
      SingleIdsAreDistinct(items[1..]);
      forall i | 0 <= i < |items[1..]|
        ensures items[1..][i].id != items[0].id
      {
        assert ids[0] != ids[i + 1];
      }
      SingleIdIsItemId(items[1..], items[0].id);
    }
  }

  lemma DistinctParts<T>(a: seq<T>, b: seq<T>, c: seq<T>, d: seq<T>)
    requires Distinct(a + b + (c + d))
    ensures Distinct(a + c)
  {
    var all := a + b + (c + d);
    forall i, j | 0 <= i < j < |a + c|
      ensures (a + c)[i] != (a + c)[j]
    {
      var i' := if i < |a| then i else i + |b|;
      var j' := if j < |a| then j else j + |b|;
      assert all[i'] == (a + c)[i] && all[j'] == (a + c)[j];
    }
  }

  /** At no time has any caller been answered twice, whether by the sending or by the collecting loop. */
  lemma NoMessageIsAnsweredTwice(limits: Limits, es: seq<Event>, s: State)
    requires Run(limits, es) == Some(s)
    ensures Distinct(Ids(s.resolved) + Ids(s.refused))
  {
    RunKeepsInvariant(limits, es);
    AnswersFollowAcceptance(limits, es, s);
    SingleIdsAreDistinct(s.accepted);
    DistinctParts(Ids(s.resolved), InFlight(s), Ids(s.refused), NotEmitted(s));
  }

  /** When `close` returns, every accepted message has been answered exactly once. */
  lemma CloseAnswersEveryMessageOnce(limits: Limits, es: seq<Event>, s: State, i: nat)
    requires Run(limits, es) == Some(s) && s.sender.SenderDone?
    requires i < |s.accepted| && s.accepted[i].Single?
    ensures multiset(Ids(s.resolved) + Ids(s.refused))[s.accepted[i].id] == 1
  {
    RunKeepsInvariant(limits, es);
    AnswersFollowAcceptance(limits, es, s);
    NoMessageIsAnsweredTwice(limits, es, s);
    assert Held(s.phase) + s.collector.storage + s.inbox == [];
    assert InFlight(s) == [];
    SingleIdIsItemId(s.accepted, s.accepted[i].id);
    DistinctOccursOnce(Ids(s.resolved) + Ids(s.refused), s.accepted[i].id);
  }

  // ---------------------------------------------------------------- flush and close are barriers

  lemma {:induction false} ReleaseIsDone(done: seq<DoneBatch>, r: Release) returns (k: nat)
    requires r in AllReleases(done)
    ensures k < |DoneItems(done)| && DoneItems(done)[k] == Flush(r.id)
  {
    var n := |done| - 1;
    if r in Releases(done[n]) {
      k := |DoneItems(done)| - 1;
    } else {
      k := ReleaseIsDone(done[..n], r);
    }
  }

  /**
   * A flush is a barrier: once its waiter is released, by a signal or by a drop after a failed
   * batch, every message accepted before it has been answered.
   */
  lemma FlushIsBarrier(limits: Limits, es: seq<Event>, s: State, r: Release, i: nat, j: nat)
    requires Run(limits, es) == Some(s) && r in s.released
    requires j < i < |s.accepted| && s.accepted[i] == Flush(r.id) && s.accepted[j].Single?
    ensures s.accepted[j].id in Ids(s.resolved)
  {
    RunKeepsInvariant(limits, es);
    var k := ReleaseIsDone(s.done, r);
    SettledIsPrefix(s);
    SamePlace(s.accepted, k, i);
    SingleIdIsItemId(DoneItems(s.done), s.accepted[j].id);
    assert DoneItems(s.done)[j] == s.accepted[j];
    IdsOfAllResolutions(s.done);
    IdsOfSum(AllResolutions(s.done), Partial(s.sender));
  }

  lemma {:induction false} DoneFlushIsReleased(limits: Limits, done: seq<DoneBatch>, id: nat) returns (r: Release)
    requires Flush(id) in DoneItems(done)
    requires forall d :: d in done ==> WellFormed(limits, d.items)
    ensures r in AllReleases(done) && r.id == id
  {
    var n := |done| - 1;
    if Flush(id) in done[n].items {
      assert WellFormed(limits, done[n].items);
      var items := done[n].items;
      assert items == items[..|items| - 1] + [items[|items| - 1]];
      r := Releases(done[n])[0];
      assert r in Releases(done[n]);
    } else {
      r := DoneFlushIsReleased(limits, done[..n], id);
    }
  }

  /** When the close notification has been sent, nothing is left between the finished batches and the refused items. */
  lemma ClosedIsSettled(limits: Limits, s: State)
    requires Inv(limits, s) && s.sender.SenderDone?
    ensures s.accepted == DoneItems(s.done) + s.leftover
  {
    assert Back(s) == s.leftover;
    assert Front(s) == DoneItems(s.done);
  }

  /** When `close` returns, every waiter of `send_batch` has been released; none hangs. */
  lemma CloseReleasesEveryFlush(limits: Limits, es: seq<Event>, s: State, id: nat) returns (r: Release)
    requires Run(limits, es) == Some(s) && s.sender.SenderDone?
    requires Flush(id) in s.accepted
    ensures r in s.released && r.id == id
  {
    RunKeepsInvariant(limits, es);
    ClosedIsSettled(limits, s);
    r := DoneFlushIsReleased(limits, s.done, id);
  }

  lemma SettledIsPrefix(s: State)
    requires Conserved(s)
    ensures DoneItems(s.done) <= s.accepted
  {
  }

  lemma SamePlace(items: seq<Item>, i: nat, j: nat)
    requires Distinct(ItemIds(items)) && i < |items| && j < |items| && items[i].id == items[j].id
    ensures i == j
  {
    assert ItemIds(items)[i] == ItemIds(items)[j];
  }

  // ---------------------------------------------------------------- receipts and wire positions

  lemma {:induction false} SingleOfIndex(items: seq<Item>, i: nat) returns (k: nat)
    requires i < |SingleIds(items)|
    ensures |Contents(items)| == |SingleIds(items)|
    ensures k < |items| && items[k] == Single(SingleIds(items)[i], Contents(items)[i])
  {
    ContentsCount(items);
    if items[0].Single? && i == 0 {
      k := 0;
    } else {
      ContentsCount(items[1..]);
      k := SingleOfIndex(items[1..], if items[0].Single? then i - 1 else i);
      assert items[1..][k] == items[k + 1];
      k := k + 1;
    }
  }

  lemma {:induction false} ContentsCount(items: seq<Item>)
    ensures |Contents(items)| == |SingleIds(items)|
  {
    if items != [] {
      ContentsCount(items[1..]);
    }
  }

  lemma {:induction false} DoneItemIsSettled(done: seq<DoneBatch>, d: DoneBatch, item: Item)
    requires d in done && item in d.items
    ensures item in DoneItems(done)
  {
    var n := |done| - 1;
    LastSplits(done);
    InSum(done[..n], [done[n]], d);
    InSum(DoneItems(done[..n]), done[n].items, item);
    if d != done[n] {
      DoneItemIsSettled(done[..n], d, item);
    }
  }

  /**
   * Receipts and wire positions agree: in a batch of n messages that was sent successfully, the
   * caller of message i is told index i of n, the envelope announces n messages, and parsing the
   * payload with that count returns, at position i, the very message that caller handed in.
   */
  lemma ReceiptNamesWirePosition(
    limits: Limits, es: seq<Event>, s: State, codec: MetadataCodec, d: DoneBatch, id: MessageId, i: nat)
    returns (message: BatchedMessage, caller: nat)
    requires RoundTrips(codec)
    requires Run(limits, es) == Some(s) && d in s.done && d.reply == Some(Sent(Receipt(Some(id))))
    requires i < |Contents(d.items)| < TWO_31
    requires forall b :: b in Contents(d.items) ==> Storable(codec, b)
    ensures Single(caller, message) in s.accepted
    ensures var n := |Contents(d.items)|;
            && Envelopes(codec, d) == [Envelope(Entries(codec, Contents(d.items)), n)]
            && ParseEntries(codec, n, Entries(codec, Contents(d.items))) == Some(Contents(d.items))
            && Contents(d.items)[i] == message
            && Resolution(caller, Delivered(Receipt(Some(id.(batchIndex := Some(i), batchSize := Some(n)))))) in s.resolved
  {
    RunKeepsInvariant(limits, es);
    ContentsCount(d.items);
    CounterIsMessageCount(limits, d.items);
    WithoutFlushKeepsSingles(d.items);
    message, caller := Contents(d.items)[i], SingleIds(d.items)[i];
    var k := SingleOfIndex(d.items, i);
    DoneItemIsSettled(s.done, d, d.items[k]);
    BatchOnTheWire(codec, d.items);
    var r := Resolutions(d)[i];
    assert r in Resolutions(d);
    AnswersComeFromBatches(s.done, r);
  }

  lemma BatchOnTheWire(codec: MetadataCodec, items: seq<Item>)
    requires RoundTrips(codec)
    requires forall b :: b in Contents(items) ==> Storable(codec, b)
    ensures ParseEntries(codec, |Contents(items)|, Entries(codec, Contents(items))) == Some(Contents(items))
  {
    BatchReadsBack(codec, Contents(items), []);
    assert Entries(codec, Contents(items)) + [] == Entries(codec, Contents(items));
  }

  // ---------------------------------------------------------------- limits and timer

  /**
   * Storage never keeps a flush request and never stays complete; every batch that left it is
   * non-empty, holds a flush request at most in last place, and without its last item is below
   * every positive limit. So the sending loop never meets a flush request it does not expect.
   */
  lemma BatchesAreTight(limits: Limits, es: seq<Event>, s: State, batch: seq<Item>)
    requires Run(limits, es) == Some(s)
    requires batch in s.queue || s.sender == AwaitingReply(batch) || s.phase == Flushing(batch)
    ensures batch != [] && NoFlush(batch[..|batch| - 1])
    ensures |WithoutFlush(batch)| == |SingleIds(batch)|
    ensures limits.maxSize.Some? && limits.maxSize.value > 0 ==> |batch| - 1 < limits.maxSize.value
    ensures limits.maxByteSize.Some? && limits.maxByteSize.value > 0 ==>
              Load(batch[..|batch| - 1]) < limits.maxByteSize.value
    ensures NoFlush(s.collector.storage)
    ensures s.collector.storage != [] ==> !Complete(limits, s.collector.storage)
  {
    RunKeepsInvariant(limits, es);
    BatchIsTight(limits, batch);
    CounterIsMessageCount(limits, batch);
  }

  /**
   * With a batch timeout the timer is armed exactly while something is stored, and always for the
   * arrival of the oldest stored item plus the timeout; without one it is never armed.
   */
  lemma TimerTracksOldestItem(limits: Limits, es: seq<Event>, s: State)
    requires Run(limits, es) == Some(s)
    ensures s.collector.timer.Some? <==> limits.timeout.Some? && s.collector.storage != []
    ensures |s.collector.arrivals| == |s.collector.storage|
    ensures s.collector.timer.Some? ==>
              && s.collector.timer.value == s.collector.arrivals[0] + limits.timeout.value
              && s.collector.timer.value <= s.now + limits.timeout.value
  {
    RunKeepsInvariant(limits, es);
  }

  /**
   * In every reachable state, receiving an item hands everything stored to the sending loop exactly
   * if there are then enough messages or payload bytes, or the item is a flush request.
   */
  lemma ReceiveEmitsExactlyWhatIsDue(limits: Limits, es: seq<Event>, s: State)
    requires Run(limits, es) == Some(s) && Enabled(s, Receive)
    requires SizesAreRight(s.collector.storage + [s.inbox[0]])
    ensures var all, t := s.collector.storage + [s.inbox[0]], Apply(limits, s, Receive);
            && (t.phase == Flushing(all) <==>
                  || (limits.maxSize.Some? && |all| >= limits.maxSize.value)
                  || (limits.maxByteSize.Some? && PayloadBytes(all) >= limits.maxByteSize.value)
                  || s.inbox[0].Flush?)
            && (t.phase != Flushing(all) ==> t.phase == Collecting && t.collector.storage == all)
  {
    ReceivingEmitsWhatIsDue(limits, s.collector, s.inbox[0], s.now);
  }

  /** In every reachable state, the timer can expire only once the oldest stored item is due, and then everything stored leaves. */
  lemma ExpiryEmitsWhatIsStored(limits: Limits, es: seq<Event>, s: State)
    requires Run(limits, es) == Some(s) && Enabled(s, Expire)
    ensures limits.timeout.Some? && s.collector.storage != [] && s.collector.arrivals != []
    ensures s.collector.arrivals[0] + limits.timeout.value <= s.now
    ensures var t := Apply(limits, s, Expire);
            t.phase == Flushing(s.collector.storage) && t.collector.storage == [] && t.collector.timer.None?
  {
    RunKeepsInvariant(limits, es);
  }

  // ---------------------------------------------------------------- closing terminates

  function QueueWork(queue: seq<seq<Item>>): (n: nat)
  {
    if queue == [] then 0 else |queue[0]| + 3 + QueueWork(queue[1..])
  }

  lemma {:induction false} QueueWorkAppend(queue: seq<seq<Item>>, batch: seq<Item>)
    ensures QueueWork(queue + [batch]) == QueueWork(queue) + |batch| + 3
  {
    if queue == [] {
      assert queue + [batch] == [batch];
      assert QueueWork([batch]) == |batch| + 3 + QueueWork([]);
    } else {
      assert (queue + [batch])[1..] == queue[1..] + [batch];
      QueueWorkAppend(queue[1..], batch);
    }
  }

  function CollectorWork(phase: Phase): (n: nat)
  {
    match phase
    case Collecting => 2
    case Flushing(batch) => |batch| + 6
    case Refusing(rest) => 6 * |rest| + 1
    case CollectorDone => 0
  }

  function SenderWork(sender: Sender): (n: int)
  {
    match sender
    case Idle => 1
    case AwaitingReply(batch) => |batch| + 3
    case Resolving(batch, _, answered) => |batch| - answered + 2
    case SenderDone => 0
  }

  /** An upper bound on the steps the two loops can still take. */
  function Work(s: State): (n: int)
  {
    7 * |s.inbox| + 6 * |s.collector.storage| + CollectorWork(s.phase) + QueueWork(s.queue) + SenderWork(s.sender)
  }

  lemma {:induction false} SinglesAreItems(items: seq<Item>)
    ensures |SingleIds(items)| <= |items|
  {
    if items != [] {
      SinglesAreItems(items[1..]);
    }
  }

  predicate LoopStep(e: Event)
  {
    !e.Accept? && !e.CloseChannel? && !e.Tick?
  }

  lemma EmissionUsesUpWork(limits: Limits, s: State, e: Event)
    requires GoodCollector(limits, s.collector) && Enabled(s, e) && (e.Receive? || e.Expire?)
    ensures Work(Apply(limits, s, e)) < Work(s)
  {
    if e.Receive? {
      ItemKeepsCollectorGood(limits, s.collector, s.inbox[0], s.now);
      var (c, batch) := OnItem(limits, s.collector, s.inbox[0], s.now);
      assert |batch + c.storage| == |s.collector.storage + [s.inbox[0]]|;
    } else {
      TimerKeepsCollectorGood(limits, s.collector);
      var (c, batch) := OnTimer(limits, s.collector);
      assert |batch + c.storage| == |s.collector.storage|;
    }
  }

  lemma CollectorUsesUpWork(limits: Limits, s: State, e: Event)
    requires GoodCollector(limits, s.collector) && Enabled(s, e)
    requires e.Enqueue? || e.SeeClosed? || e.RefuseOne? || e.ExitCollector?
    ensures Work(Apply(limits, s, e)) < Work(s)
  {
    if e.Enqueue? {
      QueueWorkAppend(s.queue, s.phase.batch);
    }
  }

  lemma SenderUsesUpWork(limits: Limits, s: State, e: Event)
    requires Enabled(s, e)
    requires e.TakeBatch? || e.GetReply? || e.ResolveOne? || e.FinishBatch? || e.ExitSender?
    ensures Work(Apply(limits, s, e)) < Work(s)
  {
    if e.FinishBatch? {
      SinglesAreItems(WithoutFlush(s.sender.batch));
    }
  }

  /** Every step of either loop uses up some of the remaining work. */
  lemma StepsUseUpWork(limits: Limits, s: State, e: Event)
    requires Inv(limits, s) && Enabled(s, e) && LoopStep(e)
    ensures 0 <= Work(Apply(limits, s, e)) < Work(s)
  {
    StepKeepsInvariant(limits, s, e);
    WorkIsNatural(limits, Apply(limits, s, e));
    if e.TakeBatch? || e.GetReply? || e.ResolveOne? || e.FinishBatch? || e.ExitSender? {
      SenderUsesUpWork(limits, s, e);
    } else if e.Receive? || e.Expire? {
      EmissionUsesUpWork(limits, s, e);
    } else {
      CollectorUsesUpWork(limits, s, e);
    }
  }

  lemma WorkIsNatural(limits: Limits, s: State)
    requires Inv(limits, s)
    ensures 0 <= Work(s)
  {
    if s.sender.Resolving? {
      SinglesAreItems(WithoutFlush(s.sender.batch));
    }
  }

  /**
   * The next step of a closed producer. If the sending loop is waiting for the broker the reply is
   * the environment's; every other step is the producer's own.
   */
  function NextStep(s: State, reply: Reply): (e: Event)
  {
    match s.sender
    case AwaitingReply(_) => GetReply(reply)
    case Resolving(batch, _, answered) =>
      if answered < |SingleIds(WithoutFlush(batch))| then ResolveOne else FinishBatch
    case _ =>
      if s.queue != [] then TakeBatch
      else match s.phase
        case Collecting => if s.inbox != [] then Receive else SeeClosed
        case Flushing(_) => Enqueue
        case Refusing(rest) => if rest != [] then RefuseOne else ExitCollector
        case CollectorDone => ExitSender
  }

  /** Bounded channels never deadlock a closed producer: until it is done, some step is possible. */
  lemma ClosedProducerIsNeverStuck(limits: Limits, s: State, reply: Reply)
    requires Inv(limits, s) && s.closed && !s.sender.SenderDone?
    ensures Enabled(s, NextStep(s, reply)) && LoopStep(NextStep(s, reply))
  {
  }

  lemma RunSteps(limits: Limits, es: seq<Event>, e: Event)
    requires Run(limits, es).Some? && Enabled(Run(limits, es).value, e)
    ensures Run(limits, es + [e]) == Some(Apply(limits, Run(limits, es).value, e))
  {
    assert (es + [e])[..|es|] == es;
  }

  lemma LoopsAcceptNothing(limits: Limits, s: State, e: Event)
    requires Enabled(s, e) && LoopStep(e)
    ensures Apply(limits, s, e).closed == s.closed && Apply(limits, s, e).accepted == s.accepted
  {
  }

  /**
   * Closing works from every reachable state: however the broker replies, at most `Work` further
   * steps lead to the close notification, with the accepted messages unchanged (and so, by
   * `CloseAnswersEveryMessageOnce`, all answered).
   */
  lemma {:induction false} CloseCompletes(limits: Limits, es: seq<Event>, s: State, reply: nat -> Reply)
    returns (more: seq<Event>)
    requires Run(limits, es) == Some(s) && s.closed
    ensures |more| <= Work(s)
    ensures Run(limits, es + more).Some?
    ensures var t := Run(limits, es + more).value; t.sender.SenderDone? && t.accepted == s.accepted
    decreases Work(s)
  {
    RunKeepsInvariant(limits, es);
    WorkIsNatural(limits, s);
    if s.sender.SenderDone? {
      more := [];
      assert es + [] == es;
    } else {
      var e := NextStep(s, reply(|es|));
      ClosedProducerIsNeverStuck(limits, s, reply(|es|));
      RunSteps(limits, es, e);
      StepsUseUpWork(limits, s, e);
      LoopsAcceptNothing(limits, s, e);
      var rest := CloseCompletes(limits, es + [e], Apply(limits, s, e), reply);
      more := [e] + rest;
      Regroup(es, [e], rest);
    }
  }

  // ---------------------------------------------------------------- flushing terminates

  ghost predicate Released(s: State, id: nat)
  {
    exists r :: r in s.released && r.id == id
  }

  lemma {:induction false} InSomePart<T>(parts: seq<seq<T>>, x: T)
    ensures x in Concat(parts) ==> parts != []
  {
  }

  lemma FinishedFlushIsReleased(limits: Limits, s: State, id: nat)
    requires Inv(limits, s)
    ensures Flush(id) in DoneItems(s.done) ==> Released(s, id)
  {
    if Flush(id) in DoneItems(s.done) {
      var r := DoneFlushIsReleased(limits, s.done, id);
    }
  }

  /** A flush request that is not released lies ahead of the sending loop or in the channel, not among what stays stored. */
  lemma UnreleasedIsAhead(limits: Limits, s: State, id: nat)
    requires Inv(limits, s) && Flush(id) in s.accepted && !Released(s, id)
    ensures InHand(s.sender) != [] || s.queue != [] || s.phase.Flushing? || (s.phase.Collecting? && s.inbox != [])
  {
    FinishedFlushIsReleased(limits, s, id);
    InSomePart(s.queue, Flush(id));
    assert Flush(id) in Front(s) || Flush(id) in Back(s);
  }

  /** While a flush is not released, some step of the loops is possible, whatever the callers and the clock do. */
  lemma FlushIsNeverStuck(limits: Limits, s: State, id: nat, reply: Reply)
    requires Inv(limits, s) && Flush(id) in s.accepted && !Released(s, id)
    ensures var e := NextStep(s, reply); Enabled(s, e) && LoopStep(e) && !e.Expire?
  {
    UnreleasedIsAhead(limits, s, id);
  }

  /**
   * A flush of an open producer works, too: from every reachable state in which one was accepted,
   * however the broker replies, at most `Work` further steps of the two loops, without new input
   * and without waiting for a timer, release its waiter.
   */
  lemma {:induction false} FlushCompletes(limits: Limits, es: seq<Event>, s: State, id: nat, reply: nat -> Reply)
    returns (more: seq<Event>)
    requires Run(limits, es) == Some(s) && Flush(id) in s.accepted
    ensures |more| <= Work(s) && forall e :: e in more ==> LoopStep(e) && !e.Expire?
    ensures Run(limits, es + more).Some?
    ensures var t := Run(limits, es + more).value; Released(t, id) && t.accepted == s.accepted
    decreases Work(s)
  {
    RunKeepsInvariant(limits, es);
    WorkIsNatural(limits, s);
    if Released(s, id) {
      more := [];
      assert es + [] == es;
    } else {
      var e := NextStep(s, reply(|es|));
      FlushIsNeverStuck(limits, s, id, reply(|es|));
      RunSteps(limits, es, e);
      StepsUseUpWork(limits, s, e);
      LoopsAcceptNothing(limits, s, e);
      var rest := FlushCompletes(limits, es + [e], Apply(limits, s, e), id, reply);
      more := [e] + rest;
      Regroup(es, [e], rest);
    }
  }
}
