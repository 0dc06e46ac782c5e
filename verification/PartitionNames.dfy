/** The names of a topic's partitions, how they are recognised and what index they carry. */
module PartitionNames {
  import opened Common

  const SEPARATOR := "-partition-"
  const USIZE_LIMIT: nat := 0x1_0000_0000_0000_0000

  function Digit(d: nat): (c: char)
    requires d < 10
    ensures '0' <= c <= '9' && c as int - '0' as int == d
  {
    ('0' as int + d) as char
  }

  /** The decimal text of a number. */
  function Decimal(n: nat): (s: string)
    ensures s != [] && AllDigits(s)
    decreases n
  {
    if n < 10 then [Digit(n)] else Decimal(n / 10) + [Digit(n % 10)]
  }

  predicate AllDigits(s: string)
  {
    forall i :: 0 <= i < |s| ==> '0' <= s[i] <= '9'
  }

  function Number(s: string): (n: nat)
    requires AllDigits(s)
  {
    if s == [] then 0
    else Number(s[..|s| - 1]) * 10 + (s[|s| - 1] as int - '0' as int)
  }

  lemma {:induction false} NumberOfDecimal(n: nat)
    ensures Number(Decimal(n)) == n
    decreases n
  {
    if n >= 10 {
      NumberOfDecimal(n / 10);
      assert Decimal(n)[..|Decimal(n)| - 1] == Decimal(n / 10);
    } else {
      assert Decimal(n)[..0] == [];
    }
  }

  /** `format!("{}-partition-{}", topic, n)`. */
  function Name(topic: string, n: nat): (name: string)
  {
    topic + SEPARATOR + Decimal(n)
  }

  predicate OccursAt(s: string, i: nat)
  {
    i + |SEPARATOR| <= |s| && s[i..i + |SEPARATOR|] == SEPARATOR
  }

  /** The last place at or before `i` where the separator occurs. */
  function LastOccurrence(s: string, i: nat): (at: Option<nat>)
    ensures at.Some? ==> at.value <= i && OccursAt(s, at.value)
    ensures forall j :: (if at.Some? then at.value < j else 0 <= j) && j <= i ==> !OccursAt(s, j)
  {
    if OccursAt(s, i) then Some(i)
    else if i == 0 then None
    else LastOccurrence(s, i - 1)
  }

  /** `topic.rsplit_once("-partition-")`. */
  function SplitLast(s: string): (parts: Option<(string, string)>)
  {
    match LastOccurrence(s, |s|)
    case None => None
    case Some(at) => Some((s[..at], s[at + |SEPARATOR|..]))
  }

  predicate IsPartitionName(topic: string)
  {
    match SplitLast(topic)
    case None => false
    case Some((prefix, index)) => prefix != [] && index != [] && AllDigits(index)
  }

  /** `str::parse::<usize>`: digits after an optional plus sign, rejected when they overflow. */
  function ParseUsize(s: string): (n: Option<nat>)
  {
    var digits := if s != [] && s[0] == '+' then s[1..] else s;
    if digits == [] || !AllDigits(digits) || USIZE_LIMIT <= Number(digits) then None else Some(Number(digits))
  }

  function PartitionIndex(topic: string): (n: Option<nat>)
  {
    match SplitLast(topic)
    case None => None
    case Some((prefix, index)) => if prefix == [] then None else ParseUsize(index)
  }

  /** A text behind the last separator, of digits and perhaps a leading plus sign, holds no later separator. */
  lemma LastSeparator(prefix: string, index: string)
    requires forall i :: 0 <= i < |index| ==> index[i] != '-'
    ensures SplitLast(prefix + SEPARATOR + index) == Some((prefix, index))
  {
    var s, at := prefix + SEPARATOR + index, |prefix|;
    assert s[at..at + |SEPARATOR|] == SEPARATOR;
    assert OccursAt(s, at);
    forall j | at < j <= |s|
      ensures !OccursAt(s, j)
    {
      var last := j + |SEPARATOR| - 1;
      if last < |s| {
        assert s[last] == index[last - at - |SEPARATOR|];
        assert s[j..last + 1][|SEPARATOR| - 1] == s[last];
        assert SEPARATOR[|SEPARATOR| - 1] == '-';
      }
    }
    assert LastOccurrence(s, |s|) == Some(at);
    assert s[..at] == prefix;
    assert s[at + |SEPARATOR|..] == index;
  }

  lemma SplitsIntoParts(s: string)
    requires SplitLast(s).Some?
    ensures s == SplitLast(s).value.0 + SEPARATOR + SplitLast(s).value.1
  {
    var at := LastOccurrence(s, |s|).value;
    assert s[at..at + |SEPARATOR|] == SEPARATOR;
    assert s == s[..at] + s[at..at + |SEPARATOR|] + s[at + |SEPARATOR|..];
  }

  /** The partition names are exactly the texts of a non-empty topic, the separator and at least one digit. */
  lemma PartitionNameForm(s: string)
    ensures IsPartitionName(s) <==>
              exists topic, digits :: topic != [] && digits != [] && AllDigits(digits) && s == topic + SEPARATOR + digits
  {
    if IsPartitionName(s) {
      SplitsIntoParts(s);
    }
    if topic, digits :| topic != [] && digits != [] && AllDigits(digits) && s == topic + SEPARATOR + digits {
      LastSeparator(topic, digits);
    }
  }

  /** What the integer parse makes of digits behind an optional plus sign. */
  lemma ParsesDigits(plus: string, digits: string)
    requires (plus == "" || plus == "+") && digits != [] && AllDigits(digits)
    ensures ParseUsize(plus + digits) == if Number(digits) < USIZE_LIMIT then Some(Number(digits)) else None
    ensures forall i :: 0 <= i < |plus + digits| ==> (plus + digits)[i] != '-'
  {
    if plus == "+" {
      assert (plus + digits)[1..] == digits;
    } else {
      assert plus + digits == digits;
    }
  }

  lemma OnlyParsesDigits(index: string) returns (plus: string, digits: string)
    requires ParseUsize(index).Some?
    ensures (plus == "" || plus == "+") && digits != [] && AllDigits(digits) && index == plus + digits
  {
    plus, digits := if index[0] == '+' then "+" else "", if index[0] == '+' then index[1..] else index;
  }

  /** Digits behind a separator and perhaps a plus sign, as the last thing of a name. */
  predicate EndsIn(s: string, topic: string, plus: string, digits: string)
  {
    && topic != [] && (plus == "" || plus == "+") && digits != [] && AllDigits(digits)
    && s == topic + SEPARATOR + (plus + digits)
  }

  /** The index of a name is k exactly if the name ends in digits worth k that fit the machine word. */
  lemma PartitionIndexForm(s: string, k: nat)
    ensures PartitionIndex(s) == Some(k) <==>
              k < USIZE_LIMIT && exists topic, plus, digits :: EndsIn(s, topic, plus, digits) && Number(digits) == k
  {
    if PartitionIndex(s) == Some(k) {
      SplitsIntoParts(s);
      var plus, digits := OnlyParsesDigits(SplitLast(s).value.1);
      ParsesDigits(plus, digits);
      assert EndsIn(s, SplitLast(s).value.0, plus, digits);
    }
    if topic, plus, digits :| EndsIn(s, topic, plus, digits) && Number(digits) == k {
      ParsesDigits(plus, digits);
      LastSeparator(topic, plus + digits);
    }
  }

  /** Decimal texts start with the most significant digit. */
  lemma DecimalOfExample()
    ensures Decimal(120) == "120" && Number("120") == 120
  {
    assert Decimal(12) == Decimal(1) + [Digit(2)];
    assert Decimal(120) == Decimal(12) + [Digit(0)];
    NumberOfDecimal(120);
  }

  /** No later separator hides in the digits. */
  lemma NameSplits(topic: string, n: nat)
    ensures SplitLast(Name(topic, n)) == Some((topic, Decimal(n)))
  {
    LastSeparator(topic, Decimal(n));
  }

  /** Every generated name is recognised as one and carries its index, as far as that fits the machine word. */
  lemma NameIsRecognised(topic: string, n: nat)
    ensures IsPartitionName(Name(topic, n)) <==> topic != []
    ensures topic != [] ==> PartitionIndex(Name(topic, n)) == if n < USIZE_LIMIT then Some(n) else None
    ensures topic == [] ==> PartitionIndex(Name(topic, n)) == None
  {
    NameSplits(topic, n);
    NumberOfDecimal(n);
    assert Decimal(n)[0] != '+';
  }

  /** A name determines its topic and its index, even for topics that look like partition names themselves. */
  lemma NamesNeverCollide(t: string, n: nat, u: string, m: nat)
    ensures Name(t, n) == Name(u, m) <==> t == u && n == m
  {
    NameSplits(t, n);
    NameSplits(u, m);
    NumberOfDecimal(n);
    NumberOfDecimal(m);
  }

  /** The two tests differ exactly on indices that overflow and on indices with a leading plus sign. */
  lemma WhereTheTestsDiffer(topic: string)
    ensures IsPartitionName(topic) && PartitionIndex(topic).None? <==>
              IsPartitionName(topic) && USIZE_LIMIT <= Number(SplitLast(topic).value.1)
    ensures PartitionIndex(topic).Some? && !IsPartitionName(topic) <==>
              && SplitLast(topic).Some? && SplitLast(topic).value.0 != []
              && var index := SplitLast(topic).value.1;
                 |index| > 1 && index[0] == '+' && AllDigits(index[1..]) && Number(index[1..]) < USIZE_LIMIT
  {
    if SplitLast(topic).Some? {
      var index := SplitLast(topic).value.1;
      if index != [] && index[0] == '+' {
        assert !AllDigits(index);
      }
    }
  }

  // ---------------------------------------------------------------- partition lookup

  function Names(topic: string, count: nat): (names: seq<string>)
    ensures |names| == count && forall i :: 0 <= i < count ==> names[i] == Name(topic, i)
  {
    seq(count, i requires 0 <= i < count => Name(topic, i))
  }

  /** The partition count a lookup with auto-creation reports: a partition name is answered locally. */
  function PartitionCount(topic: string, brokerCount: nat): (count: nat)
  {
    if IsPartitionName(topic) then 0 else brokerCount
  }

  /** The topics `lookup_partitioned_topic` goes on to look up. */
  function LookupTopics(topic: string, brokerCount: nat): (topics: seq<string>)
    ensures topics != []
  {
    var count := PartitionCount(topic, brokerCount);
    if count == 0 then [topic] else Names(topic, count)
  }

  /** Looking up a partition that a lookup returned gives just that partition, whatever the broker would say. */
  lemma PartitionsAreNotPartitioned(topic: string, brokerCount: nat, i: nat, again: nat)
    requires topic != [] && i < |LookupTopics(topic, brokerCount)| && PartitionCount(topic, brokerCount) > 0
    ensures LookupTopics(LookupTopics(topic, brokerCount)[i], again) == [LookupTopics(topic, brokerCount)[i]]
  {
    NameIsRecognised(topic, i);
  }

  /** The first returned name differs from the topic exactly when the topic is partitioned. */
  lemma FirstNameTellsPartitioned(topic: string, brokerCount: nat)
    ensures LookupTopics(topic, brokerCount)[0] != topic <==> PartitionCount(topic, brokerCount) > 0
  {
    if PartitionCount(topic, brokerCount) > 0 {
      assert |Name(topic, 0)| > |topic|;
    }
  }
}
