/**
 * Any number of tasks asking the connection cache for connections at the same time. A task's steps
 * between two lock regions interleave freely with those of the others.
 */
module ConnectionSharing {
  import opened Common
  import opened ConnectionManager

  datatype Pc =
    | Starting                    // about to enter the region of get_connection
    | ToConnect                   // about to enter the region of connect_inner
    | AwaitLookup                 // waiting, from get_connection
    | AwaitConnect                // waiting, from connect_inner
    | Attempting                  // in the connect loop
    | Spawning(conn: Conn)        // about to start the keep-alive task
    | Installing(conn: Conn)      // about to enter the region that publishes the connection
    | Failing(outcome: Outcome)   // about to enter the region that removes the entry
    | Finished(outcome: Outcome)
    | Dropped                     // its future was dropped midway

  datatype Task = Task(broker: Address, pc: Pc)

  /** `owner` remembers which task inserted an entry, `made` which broker a connection leads to. */
  datatype State = State(
    cache: Cache,
    owner: map<Address, TaskId>,
    tasks: seq<Task>,
    inbox: map<TaskId, Outcome>,
    notified: seq<TaskId>,
    dead: set<TaskId>,
    made: map<Conn, Address>)

  const START := State(map[], map[], [], map[], [], {}, map[])

  datatype Event =
    | Begin(broker: Address)
    | BeginConnect(broker: Address)
    | DoLookup(task: TaskId, valid: bool, now: nat)
    | DoEnter(task: TaskId)
    | Settle(task: TaskId, result: Outcome)
    | Spawn(task: TaskId, ok: bool)
    | DoInstall(task: TaskId, now: nat)
    | DoAbandon(task: TaskId)
    | Wake(task: TaskId)
    | DropTask(task: TaskId)
    | Check(gone: set<Address>)

  predicate Waiting(pc: Pc)
  {
    pc.AwaitLookup? || pc.AwaitConnect?
  }

  predicate Over(pc: Pc)
  {
    pc.Finished? || pc.Dropped?
  }

  /** Still on its way to the region that removes or replaces the entry. */
  predicate Attending(pc: Pc)
  {
    pc.Attempting? || pc.Spawning? || pc.Installing? || pc.Failing?
  }

  predicate Enabled(s: State, e: Event)
  {
    match e
    case Begin(_) => true
    case BeginConnect(_) => true
    case DoLookup(t, _, _) => t < |s.tasks| && s.tasks[t].pc.Starting?
    case DoEnter(t) => t < |s.tasks| && s.tasks[t].pc.ToConnect?
    case Settle(t, result) =>
      t < |s.tasks| && s.tasks[t].pc.Attempting? && (if result.Got? then result.conn !in s.made else result.Failed?)
    case Spawn(t, _) => t < |s.tasks| && s.tasks[t].pc.Spawning?
    case DoInstall(t, _) => t < |s.tasks| && s.tasks[t].pc.Installing?
    case DoAbandon(t) => t < |s.tasks| && s.tasks[t].pc.Failing?
    case Wake(t) => t < |s.tasks| && Waiting(s.tasks[t].pc) && t in s.inbox
    case DropTask(t) => t < |s.tasks| && !Over(s.tasks[t].pc)
    case Check(gone) => forall b :: b in gone && b in s.cache ==> s.cache[b].Connected?
  }

  function Goto(s: State, t: TaskId, pc: Pc): (u: State)
    requires t < |s.tasks|
  {
    s.(tasks := s.tasks[t := s.tasks[t].(pc := pc)])
  }

  function Tell(s: State, waiters: seq<TaskId>, outcome: Outcome): (u: State)
  {
    s.(inbox := s.inbox + (map t | t in waiters :: outcome), notified := s.notified + waiters)
  }

  function ApplyLookup(s: State, t: TaskId, valid: bool, now: nat): (u: State)
    requires t < |s.tasks|
  {
    var (cache, found) := Lookup(s.cache, s.tasks[t].broker, t, valid, now);
    Goto(s.(cache := cache), t,
         match found
         case Hit(conn) => Finished(Got(conn))
         case Missing => ToConnect
         case Wait => AwaitLookup)
  }

  function ApplyEnter(s: State, t: TaskId): (u: State)
    requires t < |s.tasks|
  {
    var broker := s.tasks[t].broker;
    var (cache, wait) := Enter(s.cache, broker, t);
    var owner := if broker in s.cache then s.owner else s.owner[broker := t];
    Goto(s.(cache := cache, owner := owner), t, if wait then AwaitConnect else Attempting)
  }

  function ApplySettle(s: State, t: TaskId, result: Outcome): (u: State)
    requires t < |s.tasks|
  {
    if result.Got? then Goto(s.(made := s.made[result.conn := s.tasks[t].broker]), t, Spawning(result.conn))
    else Goto(s, t, Failing(result))
  }

  function ApplySpawn(s: State, t: TaskId, ok: bool): (u: State)
    requires t < |s.tasks| && s.tasks[t].pc.Spawning?
  {
    if ok then Goto(s, t, Installing(s.tasks[t].pc.conn))
    else Goto(s, t, Finished(Shutdown)).(dead := s.dead + {t})
  }

  function ApplyInstall(s: State, t: TaskId, now: nat): (u: State)
    requires t < |s.tasks| && s.tasks[t].pc.Installing?
  {
    var broker, conn := s.tasks[t].broker, s.tasks[t].pc.conn;
    var told := Tell(s, WaitersOf(s.cache, broker), Got(conn));
    Goto(told.(cache := s.cache[broker := Connected(conn, now)]), t, Finished(Got(conn)))
  }

  function ApplyAbandon(s: State, t: TaskId): (u: State)
    requires t < |s.tasks| && s.tasks[t].pc.Failing?
  {
    var broker := s.tasks[t].broker;
    var told := Tell(s, WaitersOf(s.cache, broker), Canceled);
    Goto(told.(cache := s.cache - {broker}), t, Finished(s.tasks[t].pc.outcome))
  }

  function ApplyWake(s: State, t: TaskId): (u: State)
    requires t < |s.tasks| && t in s.inbox
  {
    var result := s.inbox[t];
    Goto(s.(inbox := s.inbox - {t}), t,
         if s.tasks[t].pc.AwaitLookup? then Finished(result)
         else if result.Got? then Spawning(result.conn) else Failing(result))
  }

  function Apply(s: State, e: Event): (u: State)
    requires Enabled(s, e)
  {
    match e
    case Begin(broker) => s.(tasks := s.tasks + [Task(broker, Starting)])
    case BeginConnect(broker) => s.(tasks := s.tasks + [Task(broker, ToConnect)])
    case DoLookup(t, valid, now) => ApplyLookup(s, t, valid, now)
    case DoEnter(t) => ApplyEnter(s, t)
    case Settle(t, result) => ApplySettle(s, t, result)
    case Spawn(t, ok) => ApplySpawn(s, t, ok)
    case DoInstall(t, now) => ApplyInstall(s, t, now)
    case DoAbandon(t) => ApplyAbandon(s, t)
    case Wake(t) => ApplyWake(s, t)
    case DropTask(t) => Goto(s, t, Dropped).(dead := s.dead + {t})
    case Check(gone) => s.(cache := s.cache - gone)
  }

  function Run(es: seq<Event>): (s: Option<State>)
  {
    if es == [] then Some(START)
    else
      var before := Run(es[..|es| - 1]);
      if before.None? || !Enabled(before.value, es[|es| - 1]) then None
      else Some(Apply(before.value, es[|es| - 1]))
  }

  // ---------------------------------------------------------------- the invariant

  /** An entry in progress has an inserting task for the same broker, which is attending or has died. */
  predicate OwnedEntry(s: State, b: Address)
  {
    b in s.cache && s.cache[b].Connecting? ==>
      && b in s.owner && s.owner[b] < |s.tasks|
      && s.tasks[s.owner[b]].broker == b
      && (Attending(s.tasks[s.owner[b]].pc) || s.owner[b] in s.dead)
  }

  /** A listed waiter waits for that broker (or was dropped) and has not been told anything. */
  predicate ListedWaiters(s: State, b: Address)
  {
    forall t :: t in WaitersOf(s.cache, b) ==>
      && t < |s.tasks| && s.tasks[t].broker == b
      && (Waiting(s.tasks[t].pc) || t in s.dead)
      && t !in s.notified
  }

  ghost predicate Owned(s: State)
  {
    forall b :: OwnedEntry(s, b)
  }

  ghost predicate Listed(s: State)
  {
    forall b :: ListedWaiters(s, b) && Distinct(WaitersOf(s.cache, b))
  }

  /** A task that waits is listed, or has been told and finds the message in its inbox; before waiting it was not told. */
  predicate TaskTold(s: State, t: TaskId)
    requires t < |s.tasks|
  {
    var pc := s.tasks[t].pc;
    && (Waiting(pc) ==> if t in s.notified then t in s.inbox else t in WaitersOf(s.cache, s.tasks[t].broker))
    && (pc.Starting? || pc.ToConnect? ==> t !in s.notified)
  }

  /** Nobody is told twice. */
  ghost predicate Told(s: State)
  {
    && Distinct(s.notified)
    && (forall t :: t in s.notified ==> t < |s.tasks|)
    && (forall t :: t in s.inbox ==> t in s.notified)
    && (forall t :: 0 <= t < |s.tasks| ==> TaskTold(s, t))
  }

  /** The dead are exactly the tasks that were dropped or could not start their keep-alive. */
  ghost predicate Mourned(s: State)
  {
    forall t :: t in s.dead ==> t < |s.tasks| && (s.tasks[t].pc.Dropped? || s.tasks[t].pc == Finished(Shutdown))
  }

  predicate RightConn(s: State, b: Address, o: Outcome)
  {
    o.Got? ==> o.conn in s.made && s.made[o.conn] == b
  }

  predicate RightEntry(s: State, b: Address)
  {
    b in s.cache && s.cache[b].Connected? ==> RightConn(s, b, Got(s.cache[b].conn))
  }

  predicate RightTask(s: State, t: TaskId)
    requires t < |s.tasks|
  {
    match s.tasks[t].pc
    case Spawning(conn) => RightConn(s, s.tasks[t].broker, Got(conn))
    case Installing(conn) => RightConn(s, s.tasks[t].broker, Got(conn))
    case Finished(outcome) => RightConn(s, s.tasks[t].broker, outcome)
    case Failing(outcome) => !outcome.Got?
    case _ => true
  }

  /** Every connection held, promised or returned leads to the broker it is held, promised or returned for. */
  ghost predicate RightConns(s: State)
  {
    && (forall b :: RightEntry(s, b))
    && (forall t :: 0 <= t < |s.tasks| ==> RightTask(s, t))
    && (forall t :: t in s.inbox ==> t < |s.tasks| && RightConn(s, s.tasks[t].broker, s.inbox[t]))
  }

  ghost predicate Inv(s: State)
  {
    Owned(s) && Listed(s) && Told(s) && Mourned(s) && RightConns(s)
  }

  /** A step keeps connections right if what it adds is right: one task's move, one entry, some messages. */
  lemma ConnsAreKept(s: State, u: State, t: TaskId)
    requires RightConns(s) && t < |u.tasks| && |s.tasks| <= |u.tasks|
    requires forall c :: c in s.made ==> c in u.made && u.made[c] == s.made[c]
    requires forall i :: 0 <= i < |u.tasks| && i != t ==> i < |s.tasks| && u.tasks[i] == s.tasks[i]
    requires t < |s.tasks| ==> u.tasks[t].broker == s.tasks[t].broker
    requires RightTask(u, t) && RightEntry(u, u.tasks[t].broker)
    requires forall b :: b in u.cache && b != u.tasks[t].broker ==> b in s.cache && u.cache[b] == s.cache[b]
    requires forall i :: i in u.inbox && !(i in s.inbox && u.inbox[i] == s.inbox[i]) ==>
               i < |u.tasks| && RightConn(u, u.tasks[i].broker, u.inbox[i])
    ensures RightConns(u)
  {
    forall b ensures RightEntry(u, b) {
      assert RightEntry(s, b);
    }
    forall i | 0 <= i < |u.tasks| ensures RightTask(u, i) {
      assert i < |s.tasks| ==> RightTask(s, i);
    }
  }

  /** A step that tells nobody and moves one task, in accord with what that task was told. */
  lemma TellingIsKept(s: State, u: State, t: TaskId)
    requires Told(s) && t < |u.tasks| && |s.tasks| <= |u.tasks| && u.notified == s.notified
    requires forall i :: i in u.inbox ==> i in s.inbox
    requires forall i :: 0 <= i < |u.tasks| && i != t ==>
               i < |s.tasks| && u.tasks[i] == s.tasks[i] && (i in s.inbox ==> i in u.inbox)
    requires forall b, i :: i in WaitersOf(s.cache, b) ==> i in WaitersOf(u.cache, b)
    requires TaskTold(u, t)
    ensures Told(u)
  {
    forall i | 0 <= i < |u.tasks| ensures TaskTold(u, i) {
      assert i < |s.tasks| ==> TaskTold(s, i);
    }
  }

  lemma BeginKeepsInvariant(s: State, broker: Address, pc: Pc)
    requires Inv(s) && (pc.Starting? || pc.ToConnect?)
    ensures Inv(s.(tasks := s.tasks + [Task(broker, pc)]))
  {
    var u := s.(tasks := s.tasks + [Task(broker, pc)]);
    assert RightEntry(s, broker);
    ConnsAreKept(s, u, |s.tasks|);
    TellingIsKept(s, u, |s.tasks|);
    forall b ensures OwnedEntry(u, b) {
      assert OwnedEntry(s, b);
    }
    forall b ensures ListedWaiters(u, b) && Distinct(WaitersOf(u.cache, b)) {
      assert ListedWaiters(s, b);
    }
  }

  lemma LookupKeepsEntries(s: State, t: TaskId, valid: bool, now: nat)
    requires Inv(s) && Enabled(s, DoLookup(t, valid, now))
    ensures Owned(ApplyLookup(s, t, valid, now)) && Listed(ApplyLookup(s, t, valid, now))
  {
    var u := ApplyLookup(s, t, valid, now);
    assert TaskTold(s, t);
    forall b ensures OwnedEntry(u, b) {
      assert OwnedEntry(s, b);
    }
    forall b ensures ListedWaiters(u, b) && Distinct(WaitersOf(u.cache, b)) {
      assert ListedWaiters(s, b) && Distinct(WaitersOf(s.cache, b));
      assert t !in WaitersOf(s.cache, b);
      DistinctJoin(WaitersOf(s.cache, b), [t]);
    }
  }

  lemma LookupKeepsInvariant(s: State, t: TaskId, valid: bool, now: nat)
    requires Inv(s) && Enabled(s, DoLookup(t, valid, now))
    ensures Inv(ApplyLookup(s, t, valid, now))
  {
    LookupKeepsEntries(s, t, valid, now);
    assert RightEntry(s, s.tasks[t].broker);
    ConnsAreKept(s, ApplyLookup(s, t, valid, now), t);
    assert TaskTold(s, t);
    TellingIsKept(s, ApplyLookup(s, t, valid, now), t);
  }

  lemma EnterKeepsEntries(s: State, t: TaskId)
    requires Inv(s) && Enabled(s, DoEnter(t))
    ensures Owned(ApplyEnter(s, t)) && Listed(ApplyEnter(s, t))
  {
    var u := ApplyEnter(s, t);
    assert TaskTold(s, t);
    forall b ensures OwnedEntry(u, b) {
      assert OwnedEntry(s, b);
    }
    forall b ensures ListedWaiters(u, b) && Distinct(WaitersOf(u.cache, b)) {
      assert ListedWaiters(s, b) && Distinct(WaitersOf(s.cache, b));
      assert t !in WaitersOf(s.cache, b);
      DistinctJoin(WaitersOf(s.cache, b), [t]);
    }
  }

  lemma EnterKeepsInvariant(s: State, t: TaskId)
    requires Inv(s) && Enabled(s, DoEnter(t))
    ensures Inv(ApplyEnter(s, t))
  {
    EnterKeepsEntries(s, t);
    assert RightEntry(s, s.tasks[t].broker);
    ConnsAreKept(s, ApplyEnter(s, t), t);
    assert TaskTold(s, t);
    TellingIsKept(s, ApplyEnter(s, t), t);
  }

  /** A step outside the lock leaves the entries as they are if the task stays attending, dies or is woken. */
  lemma EntriesAreKept(s: State, u: State, t: TaskId)
    requires Inv(s) && t < |s.tasks| && u.cache == s.cache && u.owner == s.owner && u.notified == s.notified
    requires |u.tasks| == |s.tasks| && u.tasks[t].broker == s.tasks[t].broker && s.dead <= u.dead
    requires forall i :: 0 <= i < |s.tasks| && i != t ==> u.tasks[i] == s.tasks[i]
    requires Attending(s.tasks[t].pc) ==> Attending(u.tasks[t].pc) || t in u.dead
    requires Waiting(s.tasks[t].pc) ==> t in s.notified || t in u.dead
    ensures Owned(u) && Listed(u)
  {
    forall b ensures OwnedEntry(u, b) {
      assert OwnedEntry(s, b);
    }
    forall b ensures ListedWaiters(u, b) && Distinct(WaitersOf(u.cache, b)) {
      assert ListedWaiters(s, b) && Distinct(WaitersOf(s.cache, b));
    }
  }

  lemma SettleKeepsInvariant(s: State, t: TaskId, result: Outcome)
    requires Inv(s) && Enabled(s, Settle(t, result))
    ensures Inv(ApplySettle(s, t, result))
  {
    assert RightTask(s, t) && RightEntry(s, s.tasks[t].broker);
    EntriesAreKept(s, ApplySettle(s, t, result), t);
    ConnsAreKept(s, ApplySettle(s, t, result), t);
    assert TaskTold(s, t);
    TellingIsKept(s, ApplySettle(s, t, result), t);
  }

  lemma SpawnKeepsInvariant(s: State, t: TaskId, ok: bool)
    requires Inv(s) && Enabled(s, Spawn(t, ok))
    ensures Inv(ApplySpawn(s, t, ok))
  {
    assert RightTask(s, t) && RightEntry(s, s.tasks[t].broker);
    EntriesAreKept(s, ApplySpawn(s, t, ok), t);
    ConnsAreKept(s, ApplySpawn(s, t, ok), t);
    assert TaskTold(s, t);
    TellingIsKept(s, ApplySpawn(s, t, ok), t);
  }

  /** Whoever has a message waiting has been told. */
  lemma WakeKeepsInvariant(s: State, t: TaskId)
    requires Inv(s) && Enabled(s, Wake(t))
    ensures Inv(ApplyWake(s, t))
  {
    assert RightTask(s, t) && RightEntry(s, s.tasks[t].broker);
    EntriesAreKept(s, ApplyWake(s, t), t);
    ConnsAreKept(s, ApplyWake(s, t), t);
    assert TaskTold(s, t);
    TellingIsKept(s, ApplyWake(s, t), t);
  }

  lemma DropKeepsInvariant(s: State, t: TaskId)
    requires Inv(s) && Enabled(s, DropTask(t))
    ensures Inv(Apply(s, DropTask(t)))
  {
    assert RightTask(s, t) && RightEntry(s, s.tasks[t].broker);
    EntriesAreKept(s, Apply(s, DropTask(t)), t);
    ConnsAreKept(s, Apply(s, DropTask(t)), t);
    assert TaskTold(s, t);
    TellingIsKept(s, Apply(s, DropTask(t)), t);
  }

  lemma CloseEntryKeepsEntries(s: State, u: State, t: TaskId)
    requires Inv(s) && t < |s.tasks|
    requires var b := s.tasks[t].broker;
             && WaitersOf(u.cache, b) == [] && (b in u.cache ==> u.cache[b].Connected?)
             && (forall c :: c != b ==> (c in u.cache <==> c in s.cache) && (c in s.cache ==> u.cache[c] == s.cache[c]))
             && u.notified == s.notified + WaitersOf(s.cache, b)
    requires u.owner == s.owner && u.dead == s.dead && |u.tasks| == |s.tasks|
    requires forall i :: 0 <= i < |s.tasks| ==> u.tasks[i].broker == s.tasks[i].broker
    requires forall i :: 0 <= i < |s.tasks| && i != t ==> u.tasks[i] == s.tasks[i]
    requires Attending(s.tasks[t].pc)
    ensures Owned(u) && Listed(u) && Distinct(u.notified)
  {
    var broker := s.tasks[t].broker;
    assert ListedWaiters(s, broker) && Distinct(WaitersOf(s.cache, broker));
    DistinctJoin(s.notified, WaitersOf(s.cache, broker));
    forall b ensures OwnedEntry(u, b) {
      assert OwnedEntry(s, b);
    }
    forall b ensures ListedWaiters(u, b) && Distinct(WaitersOf(u.cache, b)) {
      assert ListedWaiters(s, b) && Distinct(WaitersOf(s.cache, b));
    }
  }

  /** The task `t` closes the entry of its broker, telling the listed waiters `outcome`. */
  lemma CloseEntryTells(s: State, u: State, t: TaskId, outcome: Outcome, result: Outcome)
    requires Told(s) && Mourned(s) && t < |s.tasks|
    requires ListedWaiters(s, s.tasks[t].broker) && Distinct(WaitersOf(s.cache, s.tasks[t].broker))
    requires u == Goto(Tell(s, WaitersOf(s.cache, s.tasks[t].broker), outcome).(cache := u.cache), t, Finished(result))
    requires forall c :: c != s.tasks[t].broker ==> WaitersOf(u.cache, c) == WaitersOf(s.cache, c)
    ensures Told(u)
  {
    var told := WaitersOf(s.cache, s.tasks[t].broker);
    DistinctJoin(s.notified, told);
    forall i | 0 <= i < |u.tasks| ensures TaskTold(u, i) {
      assert TaskTold(s, i);
    }
  }

  lemma InstallKeepsInvariant(s: State, t: TaskId, now: nat)
    requires Inv(s) && Enabled(s, DoInstall(t, now))
    ensures Inv(ApplyInstall(s, t, now))
  {
    var b := s.tasks[t].broker;
    assert ListedWaiters(s, b) && Distinct(WaitersOf(s.cache, b)) && RightTask(s, t);
    CloseEntryKeepsEntries(s, ApplyInstall(s, t, now), t);
    CloseEntryTells(s, ApplyInstall(s, t, now), t, Got(s.tasks[t].pc.conn), Got(s.tasks[t].pc.conn));
    ConnsAreKept(s, ApplyInstall(s, t, now), t);
  }

  lemma AbandonKeepsInvariant(s: State, t: TaskId)
    requires Inv(s) && Enabled(s, DoAbandon(t))
    ensures Inv(ApplyAbandon(s, t))
  {
    var b := s.tasks[t].broker;
    assert ListedWaiters(s, b) && Distinct(WaitersOf(s.cache, b)) && RightTask(s, t);
    CloseEntryKeepsEntries(s, ApplyAbandon(s, t), t);
    CloseEntryTells(s, ApplyAbandon(s, t), t, Canceled, s.tasks[t].pc.outcome);
    ConnsAreKept(s, ApplyAbandon(s, t), t);
  }

  lemma CheckKeepsInvariant(s: State, gone: set<Address>)
    requires Inv(s) && Enabled(s, Check(gone))
    ensures Inv(Apply(s, Check(gone)))
  {
    var u := Apply(s, Check(gone));
    forall b ensures OwnedEntry(u, b) && RightEntry(u, b) {
      assert OwnedEntry(s, b) && RightEntry(s, b);
    }
    forall i | 0 <= i < |u.tasks| ensures RightTask(u, i) && TaskTold(u, i) {
      assert RightTask(s, i) && TaskTold(s, i);
    }
    forall b ensures ListedWaiters(u, b) && Distinct(WaitersOf(u.cache, b)) {
      assert ListedWaiters(s, b) && Distinct(WaitersOf(s.cache, b));
    }
  }

  lemma StepKeepsInvariant(s: State, e: Event)
    requires Inv(s) && Enabled(s, e)
    ensures Inv(Apply(s, e))
  {
    match e
    case Begin(broker) => BeginKeepsInvariant(s, broker, Starting);
    case BeginConnect(broker) => BeginKeepsInvariant(s, broker, ToConnect);
    case DoLookup(t, valid, now) => LookupKeepsInvariant(s, t, valid, now);
    case DoEnter(t) => EnterKeepsInvariant(s, t);
    case Settle(t, result) => SettleKeepsInvariant(s, t, result);
    case Spawn(t, ok) => SpawnKeepsInvariant(s, t, ok);
    case DoInstall(t, now) => InstallKeepsInvariant(s, t, now);
    case DoAbandon(t) => AbandonKeepsInvariant(s, t);
    case Wake(t) => WakeKeepsInvariant(s, t);
    case DropTask(t) => DropKeepsInvariant(s, t);
    case Check(gone) => CheckKeepsInvariant(s, gone);
  }

  lemma {:induction false} RunKeepsInvariant(es: seq<Event>)
    requires Run(es).Some?
    ensures Inv(Run(es).value)
  {
    if es != [] {
      RunKeepsInvariant(es[..|es| - 1]);
      StepKeepsInvariant(Run(es[..|es| - 1]).value, es[|es| - 1]);
    }
  }
}
