/** Batches under construction: what is stored, when it is complete, and the loop that collects it. */
module BatchStorage {
  import opened Common
  import opened Messages

  /** An item of the batching channel. `id` names the oneshot on which its caller waits. */
  datatype Item = Single(id: nat, message: BatchedMessage) | Flush(id: nat)

  datatype Limits = Limits(maxSize: Option<nat>, maxByteSize: Option<nat>, timeout: Option<nat>)

  const TWO_64: int := 0x1_0000_0000_0000_0000

  /** `payload_size as usize`: a negative size is sign-extended. */
  function ItemBytes(item: Item): (bytes: nat)
  {
    if item.Flush? then 0
    else
      var size := item.message.metadata.payloadSize;
      if 0 <= size then size else size + TWO_64
  }

  /** A payload of 2^31 bytes or more is counted as almost 2^64, and so fills any byte limit at once. */
  lemma OversizedPayloadFillsTheBatch(id: nat, p: ProducerMessage)
    requires 0x8000_0000 <= |p.payload| < 0x1_0000_0000
    ensures ItemBytes(Single(id, ToBatched(p))) == TWO_64 - 0x1_0000_0000 + |p.payload|
  {
  }

  function Load(items: seq<Item>): (bytes: nat)
  {
    if items == [] then 0 else Load(items[..|items| - 1]) + ItemBytes(items[|items| - 1])
  }

  /** The callers waiting for the messages among some items. */
  function SingleIds(items: seq<Item>): (ids: seq<nat>)
  {
    if items == [] then []
    else (if items[0].Single? then [items[0].id] else []) + SingleIds(items[1..])
  }

  lemma {:induction false} IdsAppend(a: seq<Item>, b: seq<Item>)
    ensures SingleIds(a + b) == SingleIds(a) + SingleIds(b)
  {
    if a == [] {
      assert a + b == b;
    } else {
      assert (a + b)[1..] == a[1..] + b;
      IdsAppend(a[1..], b);
      Regroup(if a[0].Single? then [a[0].id] else [], SingleIds(a[1..]), SingleIds(b));
    }
  }

  predicate NoFlush(items: seq<Item>)
  {
    forall item :: item in items ==> item.Single?
  }

  predicate EndsWithFlush(items: seq<Item>)
  {
    items != [] && items[|items| - 1].Flush?
  }

  /** When the stored items have to leave as one batch. */
  predicate Complete(limits: Limits, items: seq<Item>)
  {
    || (limits.maxSize.Some? && limits.maxSize.value <= |items|)
    || (limits.maxByteSize.Some? && limits.maxByteSize.value <= Load(items))
    || EndsWithFlush(items)
  }

  /** A batch grew one item at a time and left as soon as it was complete. */
  predicate WellFormed(limits: Limits, batch: seq<Item>)
  {
    && batch != []
    && NoFlush(batch[..|batch| - 1])
    && (1 < |batch| ==> !Complete(limits, batch[..|batch| - 1]))
  }

  lemma LoadOfPrefix(items: seq<Item>, k: nat)
    requires k <= |items|
    ensures Load(items[..k]) <= Load(items)
  {
    if k < |items| {
      var n := |items| - 1;
      LoadOfPrefix(items[..n], k);
      assert items[..n][..k] == items[..k];
    } else {
      assert items[..k] == items;
    }
  }

  /** Without its last item, a batch is below every positive limit and holds no flush request. */
  lemma BatchIsTight(limits: Limits, batch: seq<Item>)
    requires WellFormed(limits, batch)
    ensures forall i :: 0 <= i < |batch| - 1 ==> batch[i].Single?
    ensures limits.maxSize.Some? && limits.maxSize.value > 0 ==> |batch| - 1 < limits.maxSize.value
    ensures limits.maxByteSize.Some? && limits.maxByteSize.value > 0 ==>
              Load(batch[..|batch| - 1]) < limits.maxByteSize.value
  {
    var prefix := batch[..|batch| - 1];
    forall i | 0 <= i < |batch| - 1
      ensures batch[i].Single?
    {
      assert prefix[i] in prefix;
    }
    if |batch| == 1 {
      assert prefix == [];
    }
  }

  /** Items that stay in storage: no flush request, and not complete unless empty. */
  predicate Pending(limits: Limits, items: seq<Item>)
  {
    NoFlush(items) && (items != [] ==> !Complete(limits, items))
  }

  lemma PendingPlusOne(limits: Limits, items: seq<Item>, item: Item)
    requires Pending(limits, items)
    ensures WellFormed(limits, items + [item])
    ensures !Complete(limits, items + [item]) ==> Pending(limits, items + [item])
  {
    var more := items + [item];
    assert more[..|more| - 1] == items;
    assert more[|more| - 1] == item;
  }

  lemma PendingIsBatch(limits: Limits, items: seq<Item>)
    requires Pending(limits, items) && items != []
    ensures WellFormed(limits, items)
  {
    LoadOfPrefix(items, |items| - 1);
    if 1 < |items| {
      assert items[|items| - 2] in items;
    }
  }

  class Storage {
    const limits: Limits
    var size: nat
    var storage: seq<Item>

    ghost predicate Valid()
      reads this
    {
      size == Load(storage)
    }

    constructor (limits: Limits)
      ensures Valid() && storage == [] && this.limits == limits
    {
      this.limits := limits;
      size := 0;
      storage := [];
    }

    method PushBack(item: Item)
      requires Valid()
      modifies this
      ensures Valid() && storage == old(storage) + [item]
    {
      if item.Single? {
        size := size + ItemBytes(item);
      }
      storage := storage + [item];
      assert storage[..|storage| - 1] == old(storage);
    }

    method GetMessages() returns (items: seq<Item>)
      modifies this
      ensures Valid() && storage == [] && items == old(storage)
    {
      size := 0;
      items := storage;
      storage := [];
    }

    method ReadyToFlush() returns (ready: bool)
      requires Valid()
      ensures ready == Complete(limits, storage)
    {
      if limits.maxSize.Some? && |storage| >= limits.maxSize.value {
        return true;
      }
      if limits.maxByteSize.Some? && size >= limits.maxByteSize.value {
        return true;
      }
      return storage != [] && storage[|storage| - 1].Flush?;
    }
  }

  /** The collecting loop between two iterations; `arrivals` remembers when each stored item came in. */
  datatype Collector = Collector(storage: seq<Item>, arrivals: seq<nat>, timer: Option<nat>)

  const IDLE := Collector([], [], None)

  /** One item is received at time `now`: the loop's new state and the batch to emit, if any. */
  function OnItem(limits: Limits, c: Collector, item: Item, now: nat): (r: (Collector, seq<Item>))
  {
    var storage := c.storage + [item];
    if Complete(limits, storage) then (IDLE, storage)
    else
      var timer := if limits.timeout.Some? && |storage| == 1 then Some(now + limits.timeout.value) else c.timer;
      (Collector(storage, c.arrivals + [now], timer), [])
  }

  /** The timer expires. */
  function OnTimer(limits: Limits, c: Collector): (r: (Collector, seq<Item>))
  {
    if limits.timeout.Some? then (IDLE, c.storage) else (c.(timer := None), [])
  }

  /** Armed exactly while something is stored, for the oldest item's arrival plus the timeout. */
  predicate TimerIsRight(limits: Limits, c: Collector)
  {
    && |c.arrivals| == |c.storage|
    && c.timer == if limits.timeout.Some? && c.storage != [] then Some(c.arrivals[0] + limits.timeout.value) else None
  }

  predicate GoodCollector(limits: Limits, c: Collector)
  {
    Pending(limits, c.storage) && TimerIsRight(limits, c)
  }

  /** Receiving keeps the collector good, and whatever it emits is a well-formed batch of all it held. */
  lemma ItemKeepsCollectorGood(limits: Limits, c: Collector, item: Item, now: nat)
    requires GoodCollector(limits, c)
    ensures var (d, batch) := OnItem(limits, c, item, now);
            && GoodCollector(limits, d)
            && batch + d.storage == c.storage + [item]
            && (batch != [] ==> WellFormed(limits, batch) && d == IDLE)
  {
    PendingPlusOne(limits, c.storage, item);
  }

  lemma TimerKeepsCollectorGood(limits: Limits, c: Collector)
    requires GoodCollector(limits, c)
    ensures var (d, batch) := OnTimer(limits, c);
            && GoodCollector(limits, d)
            && batch + d.storage == c.storage
            && (batch != [] ==> WellFormed(limits, batch) && d == IDLE)
  {
    if c.storage != [] {
      PendingIsBatch(limits, c.storage);
    }
  }

  // ---------------------------------------------------------------- when a batch leaves

  /** The bytes of the callers' payloads. */
  function PayloadBytes(items: seq<Item>): (bytes: nat)
  {
    if items == [] then 0
    else (if items[0].Single? then |items[0].message.payload| else 0) + PayloadBytes(items[1..])
  }

  /** Every entry states the size of its payload. */
  predicate SizesAreRight(items: seq<Item>)
  {
    forall item :: item in items && item.Single? ==> item.message.metadata.payloadSize == |item.message.payload|
  }

  lemma {:induction false} PayloadBytesAppend(items: seq<Item>, item: Item)
    ensures PayloadBytes(items + [item]) == PayloadBytes(items) + if item.Single? then |item.message.payload| else 0
  {
    if items == [] {
      assert items + [item] == [item];
      assert PayloadBytes([item]) == (if item.Single? then |item.message.payload| else 0) + PayloadBytes([]);
    } else {
      assert (items + [item])[1..] == items[1..] + [item];
      PayloadBytesAppend(items[1..], item);
    }
  }

  /** The size the storage keeps is the number of payload bytes it holds. */
  lemma {:induction false} LoadIsPayloadBytes(items: seq<Item>)
    requires SizesAreRight(items)
    ensures Load(items) == PayloadBytes(items)
  {
    if items != [] {
      var n := |items| - 1;
      LastSplits(items);
      assert items[n] in items;
      LoadIsPayloadBytes(items[..n]);
      PayloadBytesAppend(items[..n], items[n]);
    }
  }

  /** Enough messages, enough payload bytes, or a flush request at the end. */
  predicate IsDue(limits: Limits, items: seq<Item>)
  {
    || (limits.maxSize.Some? && |items| >= limits.maxSize.value)
    || (limits.maxByteSize.Some? && PayloadBytes(items) >= limits.maxByteSize.value)
    || (items != [] && items[|items| - 1].Flush?)
  }

  /** A received item makes everything stored leave at once if that is due, and stays stored with the rest otherwise. */
  lemma ReceivingEmitsWhatIsDue(limits: Limits, c: Collector, item: Item, now: nat)
    requires SizesAreRight(c.storage + [item])
    ensures var (d, batch) := OnItem(limits, c, item, now);
            var all := c.storage + [item];
            && (IsDue(limits, all) ==> batch == all && d.storage == [] && d.timer.None?)
            && (!IsDue(limits, all) ==> batch == [] && d.storage == all)
  {
    LoadIsPayloadBytes(c.storage + [item]);
  }

  /** What the collecting loop's `select` can report. */
  datatype Input = Received(item: Item, at: nat) | Expired(at: nat)

  function Items(inputs: seq<Input>): (items: seq<Item>)
  {
    if inputs == [] then []
    else
      var n := |inputs| - 1;
      Items(inputs[..n]) + if inputs[n].Received? then [inputs[n].item] else []
  }

  /** One turn of the loop. A timer that is not armed, or not due, never completes. */
  function OnInput(limits: Limits, c: Collector, input: Input): (r: (Collector, seq<Item>))
  {
    match input
    case Received(item, at) => OnItem(limits, c, item, at)
    case Expired(at) => if c.timer.Some? && c.timer.value <= at then OnTimer(limits, c) else (c, [])
  }

  /** The loop's state and the batches it has emitted. */
  datatype Collected = Collected(collector: Collector, emitted: seq<seq<Item>>)

  function Grow(emitted: seq<seq<Item>>, batch: seq<Item>): (more: seq<seq<Item>>)
  {
    if batch == [] then emitted else emitted + [batch]
  }

  function Collect(limits: Limits, inputs: seq<Input>): (r: Collected)
  {
    if inputs == [] then Collected(IDLE, [])
    else
      var n := |inputs| - 1;
      var before := Collect(limits, inputs[..n]);
      var (c, batch) := OnInput(limits, before.collector, inputs[n]);
      Collected(c, Grow(before.emitted, batch))
  }

  lemma EmittedGrows(emitted: seq<seq<Item>>, batch: seq<Item>, held: seq<Item>, held': seq<Item>, item: seq<Item>)
    requires batch + held' == held + item
    ensures Concat(Grow(emitted, batch)) + held' == Concat(emitted) + held + item
  {
    ConcatAppend(emitted, batch);
    assert Concat(emitted) + batch + held' == Concat(emitted) + (batch + held');
    assert Concat(emitted) + held + item == Concat(emitted) + (held + item);
    assert batch == [] ==> batch + held' == held';
  }

  /**
   * Nothing is lost, duplicated or reordered between what the loop receives, the batches it emits
   * and what it still stores; every batch is well formed, and the timer is right.
   */
  lemma {:induction false} CollectConserves(limits: Limits, inputs: seq<Input>)
    ensures GoodCollector(limits, Collect(limits, inputs).collector)
    ensures forall batch :: batch in Collect(limits, inputs).emitted ==> WellFormed(limits, batch)
    ensures Concat(Collect(limits, inputs).emitted) + Collect(limits, inputs).collector.storage == Items(inputs)
  {
    if inputs != [] {
      var n := |inputs| - 1;
      CollectConserves(limits, inputs[..n]);
      var before := Collect(limits, inputs[..n]);
      var (c, batch) := OnInput(limits, before.collector, inputs[n]);
      var item := if inputs[n].Received? then [inputs[n].item] else [];
      assert before.collector.storage + [] == before.collector.storage;
      if inputs[n].Received? {
        ItemKeepsCollectorGood(limits, before.collector, inputs[n].item, inputs[n].at);
      } else {
        TimerKeepsCollectorGood(limits, before.collector);
      }
      EmittedGrows(before.emitted, batch, before.collector.storage, c.storage, item);
    }
  }

  /**
   * No batch leaves without a reason: it reached a limit or ends with a flush request when its last
   * item came in, or the timer of a configured timeout expired.
   */
  lemma {:induction false} BatchesLeaveForAReason(limits: Limits, inputs: seq<Input>, batch: seq<Item>) returns (k: nat)
    requires SizesAreRight(Items(inputs)) && batch in Collect(limits, inputs).emitted
    ensures k < |inputs|
    ensures inputs[k].Received? ==> IsDue(limits, batch) && batch != [] && batch[|batch| - 1] == inputs[k].item
    ensures inputs[k].Expired? ==>
              limits.timeout.Some? && Collect(limits, inputs[..k]).collector.storage == batch
              && var arrivals := Collect(limits, inputs[..k]).collector.arrivals;
                 arrivals != [] && arrivals[0] + limits.timeout.value <= inputs[k].at
  {
    var n := |inputs| - 1;
    var before := Collect(limits, inputs[..n]);
    var (c, left) := OnInput(limits, before.collector, inputs[n]);
    CollectConserves(limits, inputs[..n]);
    InSum(before.emitted, [left], batch);
    if batch in before.emitted {
      assert forall item :: item in Items(inputs[..n]) ==> item in Items(inputs);
      k := BatchesLeaveForAReason(limits, inputs[..n], batch);
      assert inputs[..n][..k] == inputs[..k];
    } else {
      k := n;
      StoredWasReceived(limits, inputs);
      if inputs[n].Received? {
        ReceivingEmitsWhatIsDue(limits, before.collector, inputs[n].item, inputs[n].at);
      }
    }
  }

  /** Whatever is stored, and the item just received, are among the items received. */
  lemma StoredWasReceived(limits: Limits, inputs: seq<Input>)
    requires inputs != []
    ensures var n := |inputs| - 1;
            var stored := Collect(limits, inputs[..n]).collector.storage;
            && (forall item :: item in stored ==> item in Items(inputs))
            && (inputs[n].Received? ==> inputs[n].item in Items(inputs))
  {
    var n := |inputs| - 1;
    CollectConserves(limits, inputs[..n]);
    var c := Collect(limits, inputs[..n]);
    forall item | item in c.collector.storage ensures item in Items(inputs) {
      InSum(Concat(c.emitted), c.collector.storage, item);
    }
  }

  /** The loop's branch for a received item. */
  method ReceiveItem(store: Storage, timer: Option<nat>, item: Item, at: nat, ghost arrivals: seq<nat>)
    returns (batch: seq<Item>, timer': Option<nat>, ghost arrivals': seq<nat>)
    requires store.Valid()
    modifies store
    ensures store.Valid()
    ensures (Collector(store.storage, arrivals', timer'), batch)
         == OnItem(store.limits, Collector(old(store.storage), arrivals, timer), item, at)
  {
    store.PushBack(item);
    var ready := store.ReadyToFlush();
    if ready {
      batch := store.GetMessages();
      timer' := None;
      arrivals' := [];
    } else {
      batch := [];
      timer' := if store.limits.timeout.Some? && |store.storage| == 1 then Some(at + store.limits.timeout.value) else timer;
      arrivals' := arrivals + [at];
    }
  }

  /** The loop's branch for an expired timer. */
  method ExpireTimer(store: Storage, timer: Option<nat>, ghost arrivals: seq<nat>)
    returns (batch: seq<Item>, timer': Option<nat>, ghost arrivals': seq<nat>)
    requires store.Valid()
    modifies store
    ensures store.Valid()
    ensures (Collector(store.storage, arrivals', timer'), batch)
         == OnTimer(store.limits, Collector(old(store.storage), arrivals, timer))
  {
    batch, arrivals' := [], arrivals;
    if store.limits.timeout.Some? {
      batch := store.GetMessages();
      arrivals' := [];
    }
    timer' := None;
  }

  /** `get_messages` on a closed channel: every message left is answered with `Closed`, flush requests are dropped. */
  method Refuse(items: seq<Item>) returns (refused: seq<nat>)
    ensures refused == SingleIds(items)
  {
    refused := [];
    for i := 0 to |items|
      invariant refused == SingleIds(items[..i])
    {
      assert items[..i + 1] == items[..i] + [items[i]];
      IdsAppend(items[..i], [items[i]]);
      assert SingleIds([items[i]]) == if items[i].Single? then [items[i].id] else [];
      if items[i].Single? {
        refused := refused + [items[i].id];
      }
    }
    assert items[..|items|] == items;
  }

  /** `batch_process_loop`, run on everything its channel and timer deliver until the channel closes. */
  method BatchProcessLoop(limits: Limits, inputs: seq<Input>) returns (emitted: seq<seq<Item>>, refused: seq<nat>)
    ensures emitted == Collect(limits, inputs).emitted
    ensures refused == SingleIds(Collect(limits, inputs).collector.storage)
  {
    var store := new Storage(limits);
    var timer: Option<nat> := None;
    ghost var arrivals: seq<nat> := [];
    emitted := [];
    for i := 0 to |inputs|
      invariant store.Valid() && store.limits == limits && fresh(store)
      invariant Collector(store.storage, arrivals, timer) == Collect(limits, inputs[..i]).collector
      invariant emitted == Collect(limits, inputs[..i]).emitted
    {
      assert inputs[..i + 1][..i] == inputs[..i];
      var batch: seq<Item> := [];
      if inputs[i].Received? {
        batch, timer, arrivals := ReceiveItem(store, timer, inputs[i].item, inputs[i].at, arrivals);
      } else if timer.Some? && timer.value <= inputs[i].at {
        batch, timer, arrivals := ExpireTimer(store, timer, arrivals);
      }
      if batch != [] {
        emitted := emitted + [batch];
      }
    }
    assert inputs[..|inputs|] == inputs;
    var items := store.GetMessages();
    refused := Refuse(items);
  }
}
