/** The producer of a partitioned topic: one producer per partition, growth, and the choice among them. */
module PartitionedProducer {
  import opened Common
  import opened Bytes
  import opened Messages
  import opened JavaHash
  import opened PartitionNames
  import opened StableSort

  // ---------------------------------------------------------------- the sort by partition index

  /** `partition_index(topic).unwrap_or(usize::MAX)`. */
  function SortKey(topic: string): (key: nat)
  {
    var index := PartitionIndex(topic);
    if index.Some? then index.value else USIZE_LIMIT - 1
  }

  const BY_INDEX: string -> nat := topic => SortKey(topic)

  function SortByIndex(topics: seq<string>): (sorted: seq<string>)
  {
    SortByKey(topics, BY_INDEX)
  }

  lemma NameKey(topic: string, i: nat)
    requires i < USIZE_LIMIT
    ensures SortKey(Name(topic, i)) == if topic == [] then USIZE_LIMIT - 1 else i
  {
    NameIsRecognised(topic, i);
  }

  lemma EmptyTopicKey()
    ensures SortKey([]) == USIZE_LIMIT - 1
  {
    assert !OccursAt([], 0);
  }

  lemma NamesAreSorted(topic: string, count: nat)
    requires count <= TWO_32
    ensures Sorted(Names(topic, count), BY_INDEX)
  {
    forall i, j | 0 <= i < j < count
      ensures BY_INDEX(Names(topic, count)[i]) <= BY_INDEX(Names(topic, count)[j])
    {
      NameKey(topic, i);
      NameKey(topic, j);
    }
  }

  /** Sorting puts the partitions into partition order, in whatever order they were created. */
  lemma SortRestoresPartitionOrder(topic: string, count: nat, shuffled: seq<string>)
    requires topic != [] && count <= TWO_32
    requires multiset(shuffled) == multiset(Names(topic, count))
    ensures SortByIndex(shuffled) == Names(topic, count)
  {
    var sorted := SortByIndex(shuffled);
    SortSorts(shuffled, BY_INDEX);
    forall i | 0 <= i < count ensures BY_INDEX(Names(topic, count)[i]) == i {
      NameKey(topic, i);
    }
    assert |sorted| == |multiset(sorted)| && |Names(topic, count)| == |multiset(Names(topic, count))|;
    SortedByIndexIsUnique(sorted, Names(topic, count), BY_INDEX);
  }

  // ---------------------------------------------------------------- growth

  /** The names not served yet, in the order in which the lookup reports them. */
  function Added(found: seq<string>, known: seq<string>): (added: seq<string>)
  {
    if found == [] then []
    else
      var earlier, last := Added(found[..|found| - 1], known), found[|found| - 1];
      if last in known then earlier else earlier + [last]
  }

  /** A re-check of the partitions: whether it is due, what the lookup answers, whether the producers start. */
  datatype Refresh = Refresh(due: bool, count: Option<U32>, created: bool)

  predicate Effective(r: Refresh)
  {
    r.due && r.count.Some? && r.created
  }

  function AfterRefresh(topic: string, producers: seq<string>, r: Refresh): (after: seq<string>)
  {
    if !Effective(r) then producers
    else
      var added := Added(LookupTopics(topic, r.count.value), producers);
      if added == [] then producers else SortByIndex(producers + added)
  }

  function AfterAll(topic: string, producers: seq<string>, rs: seq<Refresh>): (after: seq<string>)
  {
    if rs == [] then producers
    else AfterRefresh(topic, AfterAll(topic, producers, rs[..|rs| - 1]), rs[|rs| - 1])
  }

  /** The largest count any effective re-check has reported. */
  function LargestCount(start: nat, rs: seq<Refresh>): (n: nat)
    ensures start <= n
  {
    if rs == [] then start
    else
      var n, r := LargestCount(start, rs[..|rs| - 1]), rs[|rs| - 1];
      if Effective(r) then Max(n, r.count.value) else n
  }

  /** Producers among which are the first `m` partitions and no other. */
  ghost predicate Serves(topic: string, producers: seq<string>, m: nat)
  {
    forall i: nat :: Name(topic, i) in producers <==> i < m
  }

  lemma NamesServe(topic: string, m: nat)
    ensures Serves(topic, Names(topic, m), m)
  {
    forall i: nat ensures Name(topic, i) in Names(topic, m) <==> i < m {
      if i < m {
        assert Names(topic, m)[i] == Name(topic, i);
      } else if Name(topic, i) in Names(topic, m) {
        var j :| 0 <= j < m && Names(topic, m)[j] == Name(topic, i);
        NamesNeverCollide(topic, j, topic, i);
      }
    }
  }

  lemma NamesGrow(topic: string, n: nat)
    ensures Names(topic, n + 1) == Names(topic, n) + [Name(topic, n)]
    ensures Names(topic, n + 1)[..n] == Names(topic, n) && Names(topic, n + 1)[n] == Name(topic, n)
  {
  }

  /** The partitions from `m` on, as far as there are `count`. */
  function Later(topic: string, m: nat, count: nat): (names: seq<string>)
  {
    if count <= m then [] else Names(topic, count)[m..]
  }

  lemma LaterGrow(topic: string, m: nat, n: nat)
    ensures Later(topic, m, n + 1) == if n < m then [] else Later(topic, m, n) + [Name(topic, n)]
  {
    NamesGrow(topic, n);
  }

  lemma {:induction false} AddedToServed(topic: string, count: nat, producers: seq<string>, m: nat)
    requires Serves(topic, producers, m)
    ensures Added(Names(topic, count), producers) == Later(topic, m, count)
  {
    if count > 0 {
      var n := count - 1;
      NamesGrow(topic, n);
      AddedToServed(topic, n, producers, m);
      AddedStep(Names(topic, n), Name(topic, n), producers);
      LaterGrow(topic, m, n);
    }
  }

  lemma AddedStep(found: seq<string>, x: string, known: seq<string>)
    ensures Added(found + [x], known) == if x in known then Added(found, known) else Added(found, known) + [x]
  {
    assert (found + [x])[..|found|] == found;
  }

  /** A re-check that reports a positive count extends the producers to that many partitions, or leaves them alone. */
  lemma RefreshExtendsNames(topic: string, n: nat, r: Refresh)
    requires n <= TWO_32 && Effective(r) && r.count.value > 0 && !IsPartitionName(topic)
    ensures AfterRefresh(topic, Names(topic, n), r) == Names(topic, Max(n, r.count.value))
  {
    var count := r.count.value;
    NamesServe(topic, n);
    AddedToServed(topic, count, Names(topic, n), n);
    if n < count {
      assert Names(topic, n) + Names(topic, count)[n..] == Names(topic, count);
      NamesAreSorted(topic, count);
      SortKeepsSorted(Names(topic, count), BY_INDEX);
    }
  }

  lemma TopicIsNoPartition(topic: string, n: nat)
    ensures topic !in Names(topic, n)
  {
    forall i | 0 <= i < n ensures Names(topic, n)[i] != topic {
      assert |Name(topic, i)| > |topic|;
    }
  }

  lemma RefreshNeverShrinks(topic: string, producers: seq<string>, r: Refresh)
    ensures |producers| <= |AfterRefresh(topic, producers, r)|
  {
    if Effective(r) {
      var added := Added(LookupTopics(topic, r.count.value), producers);
      SortSorts(producers + added, BY_INDEX);
      assert |SortByIndex(producers + added)| == |multiset(producers + added)|;
    }
  }

  predicate ReportsNone(r: Refresh)
  {
    Effective(r) && r.count.value == 0
  }

  // A re-check that reports no partitions makes the bare topic one of the producers.

  predicate Joined(rs: seq<Refresh>)
  {
    exists r :: r in rs && ReportsNone(r)
  }

  /** The first `m` partitions in order, with the bare topic in place `p`. */
  function With(topic: string, m: nat, p: nat): (producers: seq<string>)
    requires p <= m
  {
    Names(topic, m)[..p] + [topic] + Names(topic, m)[p..]
  }

  /**
   * The places the sort can give the bare topic among `m` partitions, `n` of them there from the
   * start: last, unless its own name parses as a partition index that is in the way.
   */
  predicate Placed(topic: string, n: nat, m: nat, p: nat)
  {
    && n <= m <= TWO_32 && p <= m
    && (topic != [] ==> if SortKey(topic) >= m then p == m else p == SortKey(topic) || p == SortKey(topic) + 1)
    && (n <= p <==> n <= SortKey(topic) + 1)
  }

  lemma WithServes(topic: string, m: nat, p: nat)
    requires p <= m
    ensures Serves(topic, With(topic, m, p), m)
  {
    NamesServe(topic, m);
    SplitAt(Names(topic, m), p);
    forall i: nat ensures Name(topic, i) in With(topic, m, p) <==> i < m {
      assert |Name(topic, i)| > |topic|;
      assert Name(topic, i) in With(topic, m, p) <==> Name(topic, i) in Names(topic, m)[..p] + Names(topic, m)[p..];
    }
  }

  lemma PlacesOfWith<T>(s: seq<T>, p: nat, x: T, i: nat)
    requires p <= |s| && i <= |s|
    ensures |s[..p] + [x] + s[p..]| == |s| + 1
    ensures (s[..p] + [x] + s[p..])[i] == if i < p then s[i] else if i == p then x else s[i - 1]
  {
  }

  lemma KeysOfWith(topic: string, m: nat, p: nat, i: nat)
    requires p <= m <= TWO_32 && i <= m
    ensures |With(topic, m, p)| == m + 1
    ensures topic != [] ==>
              SortKey(With(topic, m, p)[i]) == if i < p then i else if i == p then SortKey(topic) else i - 1
    ensures topic == [] ==> SortKey(With(topic, m, p)[i]) == USIZE_LIMIT - 1
  {
    PlacesOfWith(Names(topic, m), p, topic, i);
    if i != p {
      NameKey(topic, if i < p then i else i - 1);
    }
    EmptyTopicKey();
  }

  lemma WithIsSorted(topic: string, n: nat, m: nat, p: nat)
    requires Placed(topic, n, m, p)
    ensures Sorted(With(topic, m, p), BY_INDEX)
  {
    forall i, j | 0 <= i < j < |With(topic, m, p)|
      ensures BY_INDEX(With(topic, m, p)[i]) <= BY_INDEX(With(topic, m, p)[j])
    {
      KeysOfWith(topic, m, p, i);
      KeysOfWith(topic, m, p, j);
    }
  }

  /** Where the bare topic comes to stand when it joins `m` partitions. */
  function JoiningPlace(topic: string, m: nat): (p: nat)
    ensures p <= m
  {
    if topic == [] || SortKey(topic) >= m then m else SortKey(topic) + 1
  }

  lemma {:induction false} TopicJoins(topic: string, m: nat)
    requires m <= TWO_32
    ensures Insert(Names(topic, m), BY_INDEX, topic) == With(topic, m, JoiningPlace(topic, m))
  {
    hide SortKey, Name;
    EmptyTopicKey();
    WithAtEnd(topic, m);
    if m > 0 {
      var k := m - 1;
      NameKey(topic, k);
      NamesGrow(topic, k);
      InsertBehind(Names(topic, k), BY_INDEX, Name(topic, k), topic);
      TopicJoins(topic, k);
      WithGrows(topic, k, JoiningPlace(topic, k));
    }
  }

  lemma WithAtEnd(topic: string, m: nat)
    ensures With(topic, m, m) == Names(topic, m) + [topic]
  {
    assert Names(topic, m)[m..] == [];
  }

  lemma TwoParts<T>(s: seq<T>, p: nat, x: T, y: T)
    requires p <= |s|
    ensures s[..p] + [x] + s[p..] + [y] == (s + [y])[..p] + [x] + (s + [y])[p..]
  {
  }

  lemma WithGrows(topic: string, m: nat, p: nat)
    requires p <= m
    ensures With(topic, m, p) + [Name(topic, m)] == With(topic, m + 1, p)
  {
    NamesGrow(topic, m);
    TwoParts(Names(topic, m), p, topic, Name(topic, m));
  }

  /** A new partition goes behind all others, and before the bare topic only if that stands for a later index. */
  lemma NameJoins(topic: string, n: nat, m: nat, p: nat) returns (p': nat)
    requires Placed(topic, n, m, p) && m < TWO_32
    ensures Placed(topic, n, m + 1, p')
    ensures Insert(With(topic, m, p), BY_INDEX, Name(topic, m)) == With(topic, m + 1, p')
  {
    NameKey(topic, m);
    EmptyTopicKey();
    WithGrows(topic, m, p);
    p' := p;
    if p < m {
      NameKey(topic, m - 1);
      WithGrows(topic, m - 1, p);
      InsertBehind(With(topic, m - 1, p), BY_INDEX, Name(topic, m - 1), Name(topic, m));
    } else {
      WithAtEnd(topic, m);
      InsertBehind(Names(topic, m), BY_INDEX, topic, Name(topic, m));
      if BY_INDEX(Name(topic, m)) < BY_INDEX(topic) {
        p' := m + 1;
        InsertIntoNames(topic, m);
        WithAtEnd(topic, m + 1);
      }
    }
  }

  lemma InsertIntoNames(topic: string, m: nat)
    requires m < TWO_32
    ensures Insert(Names(topic, m), BY_INDEX, Name(topic, m)) == Names(topic, m + 1)
  {
    NameKey(topic, m);
    NamesGrow(topic, m);
    if m > 0 {
      NameKey(topic, m - 1);
      NamesGrow(topic, m - 1);
      InsertBehind(Names(topic, m - 1), BY_INDEX, Name(topic, m - 1), Name(topic, m));
    }
  }

  lemma SortOfLast(s: seq<string>, x: string)
    ensures SortByIndex(s + [x]) == Insert(SortByIndex(s), BY_INDEX, x)
  {
    assert (s + [x])[..|s|] == s;
  }

  lemma {:induction false} NamesJoin(topic: string, n: nat, m: nat, p: nat, count: nat) returns (p': nat)
    requires Placed(topic, n, m, p) && m <= count <= TWO_32
    ensures Placed(topic, n, count, p')
    ensures SortByIndex(With(topic, m, p) + Later(topic, m, count)) == With(topic, count, p')
    decreases count
  {
    if count == m {
      WithIsSorted(topic, n, m, p);
      SortKeepsSorted(With(topic, m, p), BY_INDEX);
      assert With(topic, m, p) + [] == With(topic, m, p);
      p' := p;
    } else {
      var k := count - 1;
      var q := NamesJoin(topic, n, m, p, k);
      LaterGrow(topic, m, k);
      Regroup(With(topic, m, p), Later(topic, m, k), [Name(topic, k)]);
      SortOfLast(With(topic, m, p) + Later(topic, m, k), Name(topic, k));
      p' := NameJoins(topic, n, k, q);
    }
  }

  /** One re-check, once the bare topic has joined. */
  lemma RefreshKeepsShape(topic: string, n: nat, m: nat, p: nat, r: Refresh) returns (p': nat)
    requires Placed(topic, n, m, p) && Effective(r) && !IsPartitionName(topic)
    ensures Placed(topic, n, Max(m, r.count.value), p')
    ensures AfterRefresh(topic, With(topic, m, p), r) == With(topic, Max(m, r.count.value), p')
  {
    var count, producers := r.count.value, With(topic, m, p);
    p' := p;
    if count == 0 {
      AddedTopic(topic, producers);
      assert producers[p] == topic;
    } else {
      WithServes(topic, m, p);
      AddedToServed(topic, count, producers, m);
      if m < count {
        p' := NamesJoin(topic, n, m, p, count);
      }
    }
  }

  lemma AddedTopic(topic: string, producers: seq<string>)
    ensures Added([topic], producers) == if topic in producers then [] else [topic]
  {
    assert [topic][..0] == [];
    assert Added([topic][..0], producers) == [];
  }

  /** The re-check by which the bare topic joins. */
  lemma RefreshLetsTopicJoin(topic: string, n: nat, m: nat, r: Refresh)
    requires 0 < n <= m <= TWO_32 && ReportsNone(r) && !IsPartitionName(topic)
    ensures AfterRefresh(topic, Names(topic, m), r) == With(topic, m, JoiningPlace(topic, m))
    ensures Placed(topic, n, m, JoiningPlace(topic, m))
  {
    TopicIsNoPartition(topic, m);
    AddedTopic(topic, Names(topic, m));
    NamesAreSorted(topic, m);
    SortKeepsSorted(Names(topic, m), BY_INDEX);
    SortOfLast(Names(topic, m), topic);
    TopicJoins(topic, m);
    EmptyTopicKey();
  }

  /**
   * The producers after any history of re-checks, failed and shrinking ones included: the partitions
   * of the largest count seen, in order, and the bare topic among them exactly if some effective
   * re-check reported that the topic is not partitioned.
   */
  lemma {:induction false} ProducersAfter(topic: string, n: nat, rs: seq<Refresh>) returns (p: nat)
    requires 0 < n <= TWO_32 && !IsPartitionName(topic)
    ensures LargestCount(n, rs) <= TWO_32
    ensures !Joined(rs) ==> AfterAll(topic, Names(topic, n), rs) == Names(topic, LargestCount(n, rs))
    ensures Joined(rs) ==>
              && Placed(topic, n, LargestCount(n, rs), p)
              && AfterAll(topic, Names(topic, n), rs) == With(topic, LargestCount(n, rs), p)
  {
    p := 0;
    if rs != [] {
      var k := |rs| - 1;
      var earlier, last := rs[..k], rs[k];
      p := ProducersAfter(topic, n, earlier);
      assert rs == earlier + [last];
      var m := LargestCount(n, earlier);
      if Effective(last) {
        if Joined(earlier) {
          p := RefreshKeepsShape(topic, n, m, p, last);
        } else if ReportsNone(last) {
          RefreshLetsTopicJoin(topic, n, m, last);
          p := JoiningPlace(topic, m);
        } else {
          RefreshExtendsNames(topic, m, last);
        }
      }
    }
  }

  /**
   * Over any history of re-checks producer i serves partition i of the largest count seen, exactly
   * when no effective re-check ever reported that the topic is not partitioned.
   */
  lemma ProducersFollowPartitions(topic: string, n: nat, rs: seq<Refresh>)
    requires 0 < n <= TWO_32 && !IsPartitionName(topic)
    ensures LargestCount(n, rs) <= TWO_32
    ensures !Joined(rs) ==> AfterAll(topic, Names(topic, n), rs) == Names(topic, LargestCount(n, rs))
    ensures (exists m :: AfterAll(topic, Names(topic, n), rs) == Names(topic, m)) <==> !Joined(rs)
  {
    var p := ProducersAfter(topic, n, rs);
    if Joined(rs) {
      forall m ensures AfterAll(topic, Names(topic, n), rs) != Names(topic, m) {
        TopicIsNoPartition(topic, m);
        assert With(topic, LargestCount(n, rs), p)[p] == topic;
      }
    }
  }

  /** A topic whose name carries no partition index joins behind all partitions. */
  lemma BareTopicComesLast(topic: string, n: nat, rs: seq<Refresh>)
    requires 0 < n <= TWO_32 && !IsPartitionName(topic) && topic != [] && PartitionIndex(topic).None?
    ensures AfterAll(topic, Names(topic, n), rs) == Names(topic, LargestCount(n, rs)) + if Joined(rs) then [topic] else []
  {
    var p := ProducersAfter(topic, n, rs);
    var names := Names(topic, LargestCount(n, rs));
    assert names[..|names|] == names && names[|names|..] == [];
  }

  /**
   * The producers built at the start keep their places, so an index chosen before still means the
   * same partition, unless the bare topic joins and its own name carries a partition index (with a
   * plus sign, as otherwise it would be a partition name) that sorts it among them.
   */
  lemma GrowthKeepsPrefix(topic: string, n: nat, rs: seq<Refresh>)
    requires 0 < n <= TWO_32 && !IsPartitionName(topic)
    ensures Names(topic, n) <= AfterAll(topic, Names(topic, n), rs) <==>
              !Joined(rs) || PartitionIndex(topic).None? || n <= PartitionIndex(topic).value + 1
  {
    var p := ProducersAfter(topic, n, rs);
    var m := LargestCount(n, rs);
    if Joined(rs) {
      if n <= p {
        assert With(topic, m, p)[..n] == Names(topic, n);
      } else {
        assert With(topic, m, p)[p] == topic && Names(topic, n)[p] == Name(topic, p);
        TopicIsNoPartition(topic, n);
      }
    } else {
      assert Names(topic, m)[..n] == Names(topic, n);
    }
  }

  lemma PlusSignSplits()
    ensures SplitLast("t-partition-+0") == Some(("t", "+0"))
  {
    var topic := "t-partition-+0";
    assert topic[1..12] == SEPARATOR;
    assert OccursAt(topic, 1);
    assert topic[2..13][0] != SEPARATOR[0] && topic[3..14][0] != SEPARATOR[0];
    assert LastOccurrence(topic, |topic|) == Some(1);
    assert topic[..1] == "t" && topic[12..] == "+0";
  }

  lemma PlusSignParses()
    ensures ParseUsize("+0") == Some(0) && !AllDigits("+0")
  {
    assert "+0"[0] == '+' && "+0"[1..] == "0" && "0"[..0] == "";
    assert Number("0") == 0;
  }

  /** Such a topic: its name is no partition name, yet carries index 0, and so it displaces partition 1. */
  lemma PlusSignDisplacesPartition() returns (topic: string, rs: seq<Refresh>)
    ensures topic == "t-partition-+0" && rs == [Refresh(true, Some(0), true)]
    ensures !IsPartitionName(topic) && PartitionIndex(topic) == Some(0)
    ensures !(Names(topic, 2) <= AfterAll(topic, Names(topic, 2), rs))
  {
    topic, rs := "t-partition-+0", [Refresh(true, Some(0), true)];
    PlusSignSplits();
    PlusSignParses();
    assert ReportsNone(rs[0]);
    GrowthKeepsPrefix(topic, 2, rs);
  }

  // ---------------------------------------------------------------- the choice

  datatype Policy = RoundRobin | Single | Custom(route: (Message, nat) -> nat)

  /** The text to route by, if the key decides the partition. */
  function HashedText(policy: Option<Policy>, key: Option<PartitionKey>): (text: Option<string>)
  {
    if policy.Some? && policy.value.Custom? then None
    else if key.None? then None
    else RoutingKey(key.value)
  }

  /** No key that decides the partition: none at all, or one explicitly set to null. */
  predicate Unkeyed(message: Message)
  {
    message.partitionKey.None? || message.partitionKey == Some(Null)
  }

  /** Round robin, explicitly or because no policy is configured. */
  predicate TakesTurns(policy: Option<Policy>)
  {
    policy.None? || policy == Some(RoundRobin)
  }

  /** The chosen index and the stored index after the choice. */
  datatype Chosen = Chosen(index: Option<nat>, last: nat)

  function Next(last: nat, n: nat): (i: nat)
    requires last < n
    ensures i < n
  {
    if last + 1 >= n then 0 else last + 1
  }

  function Choice(policy: Option<Policy>, scheme: HashingScheme, murmur: Murmur, n: nat, last: nat, message: Message)
    : (r: Chosen)
    requires last < n
    ensures r.last < n && (r.index.Some? ==> r.index.value < n)
  {
    match HashedText(policy, message.partitionKey)
    case Some(text) => Chosen(Some(KeyHash(scheme, murmur, text) % n), last)
    case None =>
      if policy == Some(Single) then Chosen(Some(last), last)
      else if policy.Some? && policy.value.Custom? then
        var i := policy.value.route(message, n);
        Chosen(if i < n then Some(i) else None, last)
      else Chosen(Some(Next(last, n)), Next(last, n))
  }

  class Producers {
    const topic: string
    const policy: Option<Policy>
    const scheme: HashingScheme
    const murmur: Murmur
    var producers: seq<string>
    var lastUsed: nat

    /** As long as every re-check reports partitions. */
    ghost predicate Valid()
      reads this
    {
      && !IsPartitionName(topic)
      && 0 < |producers| <= TWO_32
      && producers == Names(topic, |producers|)
      && lastUsed < |producers|
    }

    /** The partitioned case of `ProducerBuilder::build`; `start` is the random first index. */
    constructor (topic: string, policy: Option<Policy>, scheme: HashingScheme, murmur: Murmur, count: U32, start: nat)
      requires !IsPartitionName(topic) && start < count
      ensures Valid() && producers == Names(topic, count) && lastUsed == start
      ensures this.topic == topic && this.policy == policy && this.scheme == scheme && this.murmur == murmur
    {
      this.topic, this.policy, this.scheme, this.murmur := topic, policy, scheme, murmur;
      var partitions := LookupTopics(topic, count);
      NamesAreSorted(topic, count);
      SortKeepsSorted(partitions, BY_INDEX);
      producers := SortByIndex(partitions);
      lastUsed := start;
    }

    /** `refresh_partitions`. */
    method RefreshPartitions(r: Refresh)
      modifies this`producers
      ensures producers == AfterRefresh(topic, old(producers), r)
      ensures |old(producers)| <= |producers|
      ensures !r.due || r.count.None? || !r.created ==> producers == old(producers)
      ensures old(Valid()) && !ReportsNone(r) ==>
                && Valid() && old(producers) <= producers
                && |producers| == if Effective(r) then Max(|old(producers)|, r.count.value) else |old(producers)|
    {
      if old(Valid()) && Effective(r) && !ReportsNone(r) {
        RefreshExtendsNames(topic, |producers|, r);
      }
      RefreshNeverShrinks(topic, producers, r);
      if !r.due {
        return;
      }
      if r.count.None? {
        return;
      }
      var found := LookupTopics(topic, r.count.value);
      var added: seq<string> := [];
      for i := 0 to |found|
        invariant added == Added(found[..i], producers)
      {
        assert found[..i + 1][..i] == found[..i];
        if found[i] !in producers {
          added := added + [found[i]];
        }
      }
      assert found[..|found|] == found;
      if added == [] {
        return;
      }
      if r.created {
        producers := SortByIndex(producers + added);
      }
    }

    /** `choose_partition`; no index stands for the panic on an index out of range from a custom policy. */
    method ChoosePartition(message: Message) returns (index: Option<nat>)
      requires lastUsed < |producers|
      modifies this`lastUsed
      ensures lastUsed < |producers|
      ensures index == Choice(policy, scheme, murmur, |producers|, old(lastUsed), message).index
      ensures lastUsed == Choice(policy, scheme, murmur, |producers|, old(lastUsed), message).last
      ensures policy == Some(Single) && Unkeyed(message) ==> index == Some(lastUsed) && lastUsed == old(lastUsed)
      ensures TakesTurns(policy) && Unkeyed(message) ==>
                index == Some(lastUsed) && lastUsed == if old(lastUsed) + 1 == |producers| then 0 else old(lastUsed) + 1
      ensures policy.Some? && policy.value.Custom? ==>
                && lastUsed == old(lastUsed)
                && var i := policy.value.route(message, |producers|);
                   if i < |producers| then index == Some(i) else index.None?
      ensures (policy.None? || !policy.value.Custom?) && !Unkeyed(message) ==>
                && lastUsed == old(lastUsed)
                && var text := ToProducerMessage(message).key.partitionKey;
                   text.Some? && index == Some(KeyHash(scheme, murmur, text.value) % |producers|)
    {
      var text := HashedText(policy, message.partitionKey);
      if text.Some? {
        var i := PartitionForKey(scheme, murmur, text.value, |producers|);
        return Some(i);
      }
      if policy == Some(Single) {
        return Some(lastUsed);
      }
      if policy.Some? && policy.value.Custom? {
        var i := policy.value.route(message, |producers|);
        return if i < |producers| then Some(i) else None;
      }
      lastUsed := lastUsed + 1;
      if lastUsed >= |producers| {
        lastUsed := 0;
      }
      return Some(lastUsed);
    }
  }

  /** The text that is hashed is always exactly the key text that goes on the wire. */
  lemma HashedTextIsWireText(policy: Option<Policy>, message: Message)
    requires policy.None? || !policy.value.Custom?
    ensures HashedText(policy, message.partitionKey) == ToProducerMessage(message).key.partitionKey
  {
  }

  /** A producer's life as far as the choice depends on it: how it was built, re-checked and used. */
  datatype Life = Life(policy: Option<Policy>, count: nat, refreshes: seq<Refresh>, last: nat)

  /** Built on a partitioned topic, never told that the topic is not partitioned, and not routed by user code. */
  predicate Ordinary(topic: string, life: Life)
  {
    && !IsPartitionName(topic) && 0 < life.count <= TWO_32
    && !Joined(life.refreshes)
    && life.last < LargestCount(life.count, life.refreshes)
    && (life.policy.None? || !life.policy.value.Custom?)
  }

  /** The partition a producer sends a message to. */
  function Destination(topic: string, life: Life, scheme: HashingScheme, murmur: Murmur, m: Message): (partition: Option<string>)
  {
    var producers := AfterAll(topic, Names(topic, life.count), life.refreshes);
    if life.last >= |producers| then None
    else
      var index := Choice(life.policy, scheme, murmur, |producers|, life.last, m).index;
      if index.None? then None else Some(producers[index.value])
  }

  /**
   * Two producers of a topic that have come to see the same number of partitions send messages with
   * the same key text on the wire to the same partition, whatever counts they started from, however
   * they grew, under whatever policies, and whatever they sent before.
   */
  lemma SameKeySamePartition(
    topic: string, scheme: HashingScheme, murmur: Murmur, life: Life, a: Message, life': Life, b: Message)
    requires Ordinary(topic, life) && Ordinary(topic, life')
    requires LargestCount(life.count, life.refreshes) == LargestCount(life'.count, life'.refreshes)
    requires ToProducerMessage(a).key.partitionKey.Some?
    requires ToProducerMessage(b).key.partitionKey == ToProducerMessage(a).key.partitionKey
    ensures Destination(topic, life, scheme, murmur, a) == Destination(topic, life', scheme, murmur, b)
    ensures var n := LargestCount(life.count, life.refreshes);
            Destination(topic, life, scheme, murmur, a) ==
              Some(Name(topic, KeyHash(scheme, murmur, ToProducerMessage(a).key.partitionKey.value) % n))
  {
    ProducersFollowPartitions(topic, life.count, life.refreshes);
    ProducersFollowPartitions(topic, life'.count, life'.refreshes);
    HashedTextIsWireText(life.policy, a);
    HashedTextIsWireText(life'.policy, b);
  }

  /** The choices for a sequence of messages, in order. */
  function Choices(policy: Option<Policy>, scheme: HashingScheme, murmur: Murmur, n: nat, last: nat, messages: seq<Message>)
    : (chosen: seq<Chosen>)
    requires last < n
    ensures |chosen| == |messages|
    decreases |messages|
  {
    if messages == [] then []
    else
      var choice := Choice(policy, scheme, murmur, n, last, messages[0]);
      [choice] + Choices(policy, scheme, murmur, n, choice.last, messages[1..])
  }

  /** The indices chosen for the messages without a key, in order. */
  function UnkeyedIndices(messages: seq<Message>, chosen: seq<Chosen>): (indices: seq<Option<nat>>)
    requires |chosen| == |messages|
  {
    if messages == [] then []
    else (if Unkeyed(messages[0]) then [chosen[0].index] else []) + UnkeyedIndices(messages[1..], chosen[1..])
  }

  function UnkeyedChoices(
    policy: Option<Policy>, scheme: HashingScheme, murmur: Murmur, n: nat, last: nat, messages: seq<Message>)
    : (indices: seq<Option<nat>>)
    requires last < n
  {
    UnkeyedIndices(messages, Choices(policy, scheme, murmur, n, last, messages))
  }

  /** Under Single every unkeyed message goes to the stored index, and nothing ever changes that index. */
  lemma {:induction false} SingleStaysPut(
    scheme: HashingScheme, murmur: Murmur, n: nat, last: nat, messages: seq<Message>, i: nat)
    requires last < n && i < |messages|
    ensures var choice := Choices(Some(Single), scheme, murmur, n, last, messages)[i];
            && choice.last == last
            && (Unkeyed(messages[i]) ==> choice.index == Some(last))
    decreases |messages|
  {
    if i > 0 {
      SingleStaysPut(scheme, murmur, n, last, messages[1..], i - 1);
    }
  }

  /**
   * So a Single-policy producer keeps its partition, by name, however the topic grows: the one it
   * had when it was built. The exception is the one of `GrowthKeepsPrefix`.
   */
  lemma SingleKeepsPartition(topic: string, life: Life, scheme: HashingScheme, murmur: Murmur, m: Message)
    requires !IsPartitionName(topic) && 0 < life.count <= TWO_32 && life.last < life.count
    requires life.policy == Some(Single) && Unkeyed(m)
    requires !Joined(life.refreshes) || PartitionIndex(topic).None? || life.count <= PartitionIndex(topic).value + 1
    ensures Destination(topic, life, scheme, murmur, m) == Some(Name(topic, life.last))
  {
    GrowthKeepsPrefix(topic, life.count, life.refreshes);
  }

  /** Under a custom policy user code decides for every message, keyed or not, and the stored index is left alone. */
  lemma CustomDecides(
    route: (Message, nat) -> nat, scheme: HashingScheme, murmur: Murmur, n: nat, last: nat, message: Message)
    requires last < n
    ensures var choice := Choice(Some(Custom(route)), scheme, murmur, n, last, message);
            && choice.last == last
            && (route(message, n) < n ==> choice.index == Some(route(message, n)))
            && (route(message, n) >= n ==> choice.index.None?)
  {
  }

  /** The choice after the j-th one is the next partition. */
  predicate TurnAt(chosen: seq<Option<nat>>, j: nat, n: nat)
  {
    && j + 1 < |chosen| && chosen[j].Some? && chosen[j + 1].Some?
    && chosen[j + 1].value == if chosen[j].value + 1 == n then 0 else chosen[j].value + 1
  }

  /** From the stored index on, one partition after the other. */
  predicate GoesRound(chosen: seq<Option<nat>>, last: nat, n: nat)
    requires last < n
  {
    && (forall j :: 0 <= j < |chosen| ==> chosen[j].Some? && chosen[j].value < n)
    && (chosen != [] ==> chosen[0].value == if last + 1 == n then 0 else last + 1)
    && (forall j :: 0 <= j < |chosen| - 1 ==> TurnAt(chosen, j, n))
  }

  /** One choice: an unkeyed message takes the next turn, a keyed one leaves the turn where it is. */
  lemma OneTurn(policy: Option<Policy>, scheme: HashingScheme, murmur: Murmur, n: nat, last: nat, m: Message)
    requires last < n && TakesTurns(policy)
    ensures var choice, turn := Choice(policy, scheme, murmur, n, last, m), if last + 1 == n then 0 else last + 1;
            && (Unkeyed(m) ==> choice == Chosen(Some(turn), turn))
            && (!Unkeyed(m) ==> choice.last == last)
  {
  }

  /** Unkeyed messages go round in steps of one, however many keyed messages come in between. */
  lemma {:induction false} UnkeyedGoRound(
    policy: Option<Policy>, scheme: HashingScheme, murmur: Murmur, n: nat, last: nat, messages: seq<Message>)
    requires last < n && TakesTurns(policy)
    ensures GoesRound(UnkeyedChoices(policy, scheme, murmur, n, last, messages), last, n)
    decreases |messages|
  {
    hide Choice, Unkeyed, Choices, GoesRound;
    if messages == [] {
      NothingGoesRound(last, n);
    } else {
      var choice := Choice(policy, scheme, murmur, n, last, messages[0]);
      var rest := UnkeyedChoices(policy, scheme, murmur, n, choice.last, messages[1..]);
      OneTurn(policy, scheme, murmur, n, last, messages[0]);
      UnkeyedGoRound(policy, scheme, murmur, n, choice.last, messages[1..]);
      FirstOfUnkeyed(policy, scheme, murmur, n, last, messages);
      if Unkeyed(messages[0]) {
        RoundGrows(rest, choice.last, last, n);
      } else {
        assert [] + rest == rest;
      }
    }
  }

  lemma FirstOfUnkeyed(policy: Option<Policy>, scheme: HashingScheme, murmur: Murmur, n: nat, last: nat, messages: seq<Message>)
    requires last < n && messages != []
    ensures var choice := Choice(policy, scheme, murmur, n, last, messages[0]);
            UnkeyedChoices(policy, scheme, murmur, n, last, messages) ==
              (if Unkeyed(messages[0]) then [choice.index] else []) +
              UnkeyedChoices(policy, scheme, murmur, n, choice.last, messages[1..])
  {
    hide Choice, Unkeyed;
    var choice := Choice(policy, scheme, murmur, n, last, messages[0]);
    assert Choices(policy, scheme, murmur, n, last, messages)[1..] ==
           Choices(policy, scheme, murmur, n, choice.last, messages[1..]);
  }

  lemma NothingGoesRound(last: nat, n: nat)
    requires last < n
    ensures GoesRound([], last, n)
  {
  }

  lemma RoundGrows(chosen: seq<Option<nat>>, turn: nat, last: nat, n: nat)
    requires last < n && turn < n && GoesRound(chosen, turn, n)
    requires turn == if last + 1 == n then 0 else last + 1
    ensures GoesRound([Some(turn)] + chosen, last, n)
  {
    var all := [Some(turn)] + chosen;
    forall j | 0 <= j < |all| - 1
      ensures TurnAt(all, j, n)
    {
      assert all[j + 1] == chosen[j];
      if j > 0 {
        assert all[j] == chosen[j - 1] && TurnAt(chosen, j - 1, n);
      }
    }
  }

  /** Where going round for `k < n` steps from `a` leads. */
  function Around(a: nat, k: nat, n: nat): (i: int)
  {
    if a + k < n then a + k else a + k - n
  }

  lemma {:induction false} WindowIsRotation(chosen: seq<Option<nat>>, last: nat, n: nat, from: nat, k: nat)
    requires last < n && GoesRound(chosen, last, n) && k < n && from + k < |chosen|
    ensures chosen[from + k].value == Around(chosen[from].value, k, n)
  {
    if k > 0 {
      WindowIsRotation(chosen, last, n, from, k - 1);
      assert TurnAt(chosen, from + k - 1, n);
    }
  }

  /** Round robin is fair: among any n consecutive unkeyed messages, each of the n partitions gets exactly one. */
  lemma RoundRobinIsFair(
    policy: Option<Policy>, scheme: HashingScheme, murmur: Murmur, n: nat, last: nat, messages: seq<Message>,
    from: nat, p: nat)
    returns (j: nat)
    requires last < n && p < n && TakesTurns(policy)
    requires from + n <= |UnkeyedChoices(policy, scheme, murmur, n, last, messages)|
    ensures var chosen := UnkeyedChoices(policy, scheme, murmur, n, last, messages);
            && from <= j < from + n && chosen[j] == Some(p)
            && forall k :: from <= k < from + n && chosen[k] == Some(p) ==> k == j
  {
    UnkeyedGoRound(policy, scheme, murmur, n, last, messages);
    var chosen := UnkeyedChoices(policy, scheme, murmur, n, last, messages);
    var a := chosen[from].value;
    j := from + if a <= p then p - a else n - a + p;
    WindowIsRotation(chosen, last, n, from, j - from);
    forall k | from <= k < from + n && chosen[k] == Some(p)
      ensures k == j
    {
      WindowIsRotation(chosen, last, n, from, k - from);
    }
  }
}
