/** What the interleaving tasks can rely on: no stranded waiter, one notification, the right connection, an end. */
module SharingTheorems {
  import opened Common
  import opened ConnectionManager
  import opened ConnectionSharing

  /** No task is dropped midway and every keep-alive task can be spawned. */
  predicate Undisturbed(es: seq<Event>)
  {
    forall e :: e in es ==> !e.DropTask? && !(e.Spawn? && !e.ok)
  }

  lemma {:induction false} UndisturbedRunHasNoDead(es: seq<Event>)
    requires Run(es).Some? && Undisturbed(es)
    ensures Run(es).value.dead == {}
  {
    if es != [] {
      assert es[|es| - 1] in es;
      UndisturbedRunHasNoDead(es[..|es| - 1]);
      QuietStep(Run(es[..|es| - 1]).value, es[|es| - 1]);
    }
  }

  lemma QuietStep(s: State, e: Event)
    requires Enabled(s, e) && !e.DropTask? && !(e.Spawn? && !e.ok)
    ensures Apply(s, e).dead == s.dead
    ensures (forall t :: 0 <= t < |s.tasks| ==> !s.tasks[t].pc.Dropped?) ==>
              forall t :: 0 <= t < |Apply(s, e).tasks| ==> !Apply(s, e).tasks[t].pc.Dropped?
  {
  }

  /** While an entry is in progress, the task that inserted it is still on its way to close it. */
  lemma EntryInProgressIsAttended(es: seq<Event>, s: State, b: Address)
    requires Run(es) == Some(s) && Undisturbed(es)
    requires b in s.cache && s.cache[b].Connecting?
    ensures b in s.owner && s.owner[b] < |s.tasks|
    ensures s.tasks[s.owner[b]].broker == b && Attending(s.tasks[s.owner[b]].pc)
  {
    RunKeepsInvariant(es);
    UndisturbedRunHasNoDead(es);
    assert OwnedEntry(s, b);
  }

  /**
   * No waiter is stranded: a waiting task has its answer ready, or is listed on an entry in
   * progress whose inserting task is still on its way to close it.
   */
  lemma NoWaiterIsStranded(es: seq<Event>, s: State, t: TaskId)
    requires Run(es) == Some(s) && Undisturbed(es)
    requires t < |s.tasks| && Waiting(s.tasks[t].pc)
    ensures var b := s.tasks[t].broker;
            || (t in s.inbox && t in s.notified)
            || (t in WaitersOf(s.cache, b) && b in s.owner && s.owner[b] < |s.tasks| && Attending(s.tasks[s.owner[b]].pc))
  {
    RunKeepsInvariant(es);
    var b := s.tasks[t].broker;
    assert TaskTold(s, t);
    if t !in s.notified {
      EntryInProgressIsAttended(es, s, b);
    }
  }

  /** The task that closes an entry tells everyone waiting for that broker, and leaves no entry in progress. */
  lemma ClosingTellsEveryWaiter(es: seq<Event>, s: State, closer: TaskId, e: Event, t: TaskId)
    requires Run(es) == Some(s) && Enabled(s, e)
    requires e == DoAbandon(closer) || (e.DoInstall? && e.task == closer)
    requires t < |s.tasks| && Waiting(s.tasks[t].pc) && s.tasks[t].broker == s.tasks[closer].broker
    ensures t in Apply(s, e).inbox && t in Apply(s, e).notified
    ensures WaitersOf(Apply(s, e).cache, s.tasks[closer].broker) == []
  {
    RunKeepsInvariant(es);
    StepKeepsInvariant(s, e);
    assert TaskTold(s, t) && TaskTold(Apply(s, e), t);
  }

  /** No task is ever notified twice, and none that waited goes on without having been notified. */
  lemma EachWaiterIsToldOnce(es: seq<Event>, s: State, t: TaskId)
    requires Run(es) == Some(s)
    ensures multiset(s.notified)[t] <= 1
    ensures Enabled(s, Wake(t)) ==> multiset(s.notified)[t] == 1
  {
    RunKeepsInvariant(es);
    DistinctOccursOnce(s.notified, t);
  }

  /** The task that inserted an entry in progress has left it behind exactly if it was dropped or could not spawn its keep-alive. */
  lemma InserterLeavesIffItDied(es: seq<Event>, s: State, b: Address)
    requires Run(es) == Some(s)
    requires b in s.cache && s.cache[b].Connecting?
    ensures b in s.owner && s.owner[b] < |s.tasks|
    ensures !Attending(s.tasks[s.owner[b]].pc) <==> s.owner[b] in s.dead
  {
    RunKeepsInvariant(es);
    assert OwnedEntry(s, b);
  }

  lemma Extend(es: seq<Event>, s: State, e: Event) returns (longer: seq<Event>, next: State)
    requires Run(es) == Some(s) && Enabled(s, e)
    ensures Run(longer) == Some(next) && next == Apply(s, e) && longer == es + [e]
  {
    longer, next := es + [e], Apply(s, e);
    RunStep(es, e);
  }

  lemma RunStep(es: seq<Event>, e: Event)
    requires Run(es).Some? && Enabled(Run(es).value, e)
    ensures Run(es + [e]) == Some(Apply(Run(es).value, e))
  {
    assert (es + [e])[..|es|] == es;
  }

  /** A call that returns a connection returns one made for the broker it asked for. */
  lemma CallsReturnTheRightConnection(es: seq<Event>, s: State, t: TaskId, conn: Conn)
    requires Run(es) == Some(s) && t < |s.tasks| && s.tasks[t].pc == Finished(Got(conn))
    ensures conn in s.made && s.made[conn] == s.tasks[t].broker
  {
    RunKeepsInvariant(es);
    assert RightTask(s, t);
  }

  /**
   * A lookup ends a call with a connection exactly if the broker's entry holds one that is valid at
   * that moment; it is that entry's connection, and the entry remembers that it was used now.
   */
  lemma LookupUsesValidConnections(s: State, t: TaskId, valid: bool, now: nat)
    requires Enabled(s, DoLookup(t, valid, now))
    ensures var b, u := s.tasks[t].broker, Apply(s, DoLookup(t, valid, now));
            && (u.tasks[t].pc.Finished? <==> b in s.cache && s.cache[b].Connected? && valid)
            && (u.tasks[t].pc.Finished? ==>
                  && u.tasks[t].pc == Finished(Got(s.cache[b].conn))
                  && u.cache == s.cache[b := Connected(s.cache[b].conn, now)])
            && (u.tasks[t].pc == ToConnect <==> b !in s.cache || (s.cache[b].Connected? && !valid))
            && (u.tasks[t].pc == ToConnect ==> u.cache == s.cache)
            && (u.tasks[t].pc == AwaitLookup <==> b in s.cache && s.cache[b].Connecting?)
  {
  }

  /** A task on its way to connect waits exactly behind a non-empty waiter list; otherwise it attempts itself. */
  lemma EnteringWaitsBehindOthers(s: State, t: TaskId)
    requires Enabled(s, DoEnter(t))
    ensures var b, u := s.tasks[t].broker, Apply(s, DoEnter(t));
            && (u.tasks[t].pc == AwaitConnect <==> b in s.cache && s.cache[b].Connecting? && s.cache[b].waiters != [])
            && (u.tasks[t].pc == AwaitConnect ==> u.cache == s.cache[b := Connecting(s.cache[b].waiters + [t])])
            && (u.tasks[t].pc != AwaitConnect ==> u.tasks[t].pc == Attempting)
            && (b !in s.cache ==> u.cache == s.cache[b := Connecting([])] && u.owner == s.owner[b := t])
  {
  }

  /** Everyone on the list is told the connection that was made, or that the attempt was cancelled. */
  lemma ListedAreToldTheOutcome(s: State, e: Event, t: TaskId)
    requires Enabled(s, e) && (e.DoInstall? || e.DoAbandon?) && t in WaitersOf(s.cache, s.tasks[e.task].broker)
    ensures var u := Apply(s, e);
            && t in u.inbox
            && (e.DoAbandon? ==> u.inbox[t] == Canceled && s.tasks[e.task].broker !in u.cache)
            && (e.DoInstall? ==>
                  && u.inbox[t] == Got(s.tasks[e.task].pc.conn)
                  && s.tasks[e.task].broker in u.cache
                  && u.cache[s.tasks[e.task].broker] == Connected(s.tasks[e.task].pc.conn, e.now))
  {
  }

  /** A woken task takes over the outcome it was told: as its result, or as that of its own attempt. */
  lemma WakingTakesOver(s: State, t: TaskId)
    requires Enabled(s, Wake(t))
    ensures var u := Apply(s, Wake(t));
            && t !in u.inbox
            && (s.tasks[t].pc.AwaitLookup? ==> u.tasks[t].pc == Finished(s.inbox[t]))
            && (s.tasks[t].pc.AwaitConnect? && s.inbox[t].Got? ==> u.tasks[t].pc == Spawning(s.inbox[t].conn))
            && (s.tasks[t].pc.AwaitConnect? && !s.inbox[t].Got? ==> u.tasks[t].pc == Failing(s.inbox[t]))
  {
  }

  // ---------------------------------------------------------------- every call returns

  /** How many of its own steps a task has left at most. */
  function Rank(pc: Pc): (n: nat)
  {
    match pc
    case Starting => 6
    case ToConnect => 5
    case AwaitConnect => 4
    case Attempting => 4
    case Spawning(_) => 3
    case Installing(_) => 2
    case Failing(_) => 2
    case AwaitLookup => 1
    case _ => 0
  }

  function TotalRank(tasks: seq<Task>): (n: nat)
  {
    if tasks == [] then 0 else Rank(tasks[0].pc) + TotalRank(tasks[1..])
  }

  lemma {:induction false} RankOfUpdate(tasks: seq<Task>, t: nat, task: Task)
    requires t < |tasks|
    ensures TotalRank(tasks[t := task]) == TotalRank(tasks) - Rank(tasks[t].pc) + Rank(task.pc)
  {
    if t > 0 {
      assert tasks[t := task][1..] == tasks[1..][t - 1 := task];
      RankOfUpdate(tasks[1..], t - 1, task);
    } else {
      assert tasks[t := task][1..] == tasks[1..];
    }
  }

  predicate TaskStep(e: Event)
  {
    !e.Begin? && !e.BeginConnect? && !e.Check?
  }

  function Actor(e: Event): (t: TaskId)
    requires TaskStep(e)
  {
    e.task
  }

  /** Every step of a task brings it nearer to its end and moves no other task. */
  lemma TaskStepsUseUpRank(s: State, e: Event)
    requires Enabled(s, e) && TaskStep(e)
    ensures TotalRank(Apply(s, e).tasks) < TotalRank(s.tasks)
    ensures |Apply(s, e).tasks| == |s.tasks|
  {
    var t, u := Actor(e), Apply(s, e);
    assert Rank(u.tasks[t].pc) < Rank(s.tasks[t].pc);
    assert u.tasks == s.tasks[t := u.tasks[t]];
    RankOfUpdate(s.tasks, t, u.tasks[t]);
  }

  lemma {:induction false} FreshConn(keys: set<Conn>) returns (c: Conn)
    ensures forall k :: k in keys ==> k < c
    decreases |keys|
  {
    if keys == {} {
      c := 0;
    } else {
      var k :| k in keys;
      var above := FreshConn(keys - {k});
      assert forall x :: x in keys ==> x == k || x in keys - {k};
      c := if k < above then above else k + 1;
    }
  }

  /** A step the task itself can take, unless it waits for an answer that has not come. */
  lemma OwnStep(s: State, t: TaskId, succeeds: bool) returns (e: Event)
    requires t < |s.tasks| && !Over(s.tasks[t].pc)
    requires Waiting(s.tasks[t].pc) ==> t in s.inbox
    ensures Enabled(s, e) && TaskStep(e) && Actor(e) == t && !e.DropTask? && Undisturbed([e])
  {
    match s.tasks[t].pc
    case Starting => e := DoLookup(t, succeeds, 0);
    case ToConnect => e := DoEnter(t);
    case Attempting =>
      if succeeds {
        var c := FreshConn(s.made.Keys);
        e := Settle(t, Got(c));
      } else {
        e := Settle(t, Failed(0));
      }
    case Spawning(_) => e := Spawn(t, true);
    case Installing(_) => e := DoInstall(t, 0);
    case Failing(_) => e := DoAbandon(t);
    case _ => e := Wake(t);
  }

  /** Waiting never becomes a deadlock: while a call is open, some task can take a step. */
  lemma OpenCallsCanProceed(es: seq<Event>, s: State, t: TaskId, succeeds: bool) returns (e: Event)
    requires Run(es) == Some(s) && Undisturbed(es)
    requires t < |s.tasks| && !Over(s.tasks[t].pc)
    ensures Enabled(s, e) && TaskStep(e) && Undisturbed([e])
  {
    if Waiting(s.tasks[t].pc) && t !in s.inbox {
      NoWaiterIsStranded(es, s, t);
      e := OwnStep(s, s.owner[s.tasks[t].broker], succeeds);
    } else {
      e := OwnStep(s, t, succeeds);
    }
  }

  /**
   * Every call returns: from any reachable state, whatever attempts succeed or fail, at most
   * `TotalRank` further steps finish all open calls; no order of steps can go on longer.
   */
  lemma {:induction false} AllCallsReturn(es: seq<Event>, s: State, succeeds: nat -> bool) returns (more: seq<Event>)
    requires Run(es) == Some(s) && Undisturbed(es)
    ensures |more| <= TotalRank(s.tasks) && Run(es + more).Some? && Undisturbed(es + more)
    ensures var u := Run(es + more).value;
            |u.tasks| == |s.tasks| && forall t :: 0 <= t < |u.tasks| ==> u.tasks[t].pc.Finished?
    decreases TotalRank(s.tasks)
  {
    RunKeepsInvariant(es);
    UndisturbedRunHasNoDead(es);
    if t :| 0 <= t < |s.tasks| && !Over(s.tasks[t].pc) {
      var e := OpenCallsCanProceed(es, s, t, succeeds(|es|));
      RunStep(es, e);
      TaskStepsUseUpRank(s, e);
      assert e in [e];
      var rest := AllCallsReturn(es + [e], Apply(s, e), succeeds);
      more := [e] + rest;
      Regroup(es, [e], rest);
    } else {
      more := [];
      assert es + [] == es;
      NobodyWasDropped(es, s);
    }
  }

  lemma {:induction false} NobodyWasDropped(es: seq<Event>, s: State)
    requires Run(es) == Some(s) && Undisturbed(es)
    ensures forall t :: 0 <= t < |s.tasks| ==> !s.tasks[t].pc.Dropped?
  {
    if es != [] {
      assert es[|es| - 1] in es;
      NobodyWasDropped(es[..|es| - 1], Run(es[..|es| - 1]).value);
      QuietStep(Run(es[..|es| - 1]).value, es[|es| - 1]);
    }
  }

  // ---------------------------------------------------------------- when a waiter is stuck

  /** A task that can still close the entry of `b`: it is attempting, or has been told while waiting to attempt. */
  predicate Helper(s: State, b: Address, h: TaskId)
  {
    && h < |s.tasks| && s.tasks[h].broker == b
    && (Attending(s.tasks[h].pc) || (s.tasks[h].pc.AwaitConnect? && h in s.inbox))
  }

  ghost predicate Helped(s: State, b: Address)
  {
    exists h :: Helper(s, b, h)
  }

  /** Entering behind a waiter list means joining it, with nothing in the inbox yet. */
  lemma EnteringIsNoHelp(s: State, t: TaskId, b: Address, h: TaskId)
    requires Told(s) && Enabled(s, DoEnter(t)) && WaitersOf(s.cache, b) != [] && !Helper(s, b, h)
    ensures !Helper(Apply(s, DoEnter(t)), b, h)
  {
    assert TaskTold(s, t);
  }

  /** Closing another broker's entry tells only tasks that wait for that broker. */
  lemma ClosingElsewhereIsNoHelp(s: State, e: Event, b: Address, h: TaskId)
    requires Listed(s) && Enabled(s, e) && (e.DoInstall? || e.DoAbandon?) && s.tasks[e.task].broker != b
    requires !Helper(s, b, h)
    ensures !Helper(Apply(s, e), b, h)
  {
    assert ListedWaiters(s, s.tasks[e.task].broker);
  }

  lemma OtherStepsAreNoHelp(s: State, e: Event, b: Address, h: TaskId)
    requires Enabled(s, e) && !e.DoEnter? && !e.DoInstall? && !e.DoAbandon? && !Helper(s, b, h)
    ensures !Helper(Apply(s, e), b, h)
  {
  }

  lemma UnhelpedListGrows(s: State, e: Event, b: Address)
    requires Enabled(s, e) && !Helped(s, b)
    ensures WaitersOf(s.cache, b) <= WaitersOf(Apply(s, e).cache, b)
  {
    if e.DoInstall? || e.DoAbandon? {
      assert !Helper(s, b, e.task);
    }
  }

  /** Without a helper a waiter list is never closed; it only gets longer. */
  lemma UnhelpedStaysListed(s: State, e: Event, b: Address)
    requires Inv(s) && Enabled(s, e) && WaitersOf(s.cache, b) != [] && !Helped(s, b)
    ensures WaitersOf(s.cache, b) <= WaitersOf(Apply(s, e).cache, b) && !Helped(Apply(s, e), b)
  {
    forall h ensures !Helper(Apply(s, e), b, h) {
      assert !Helper(s, b, h);
      if e.DoEnter? {
        EnteringIsNoHelp(s, e.task, b, h);
      } else if e.DoInstall? || e.DoAbandon? {
        assert !Helper(s, b, e.task);
        ClosingElsewhereIsNoHelp(s, e, b, h);
      } else {
        OtherStepsAreNoHelp(s, e, b, h);
      }
    }
    UnhelpedListGrows(s, e, b);
  }

  lemma RunOfSum(es: seq<Event>, more: seq<Event>, k: nat)
    requires Run(es + more).Some? && k <= |more|
    ensures Run(es + more[..k]).Some?
    ensures k < |more| ==>
              && Enabled(Run(es + more[..k]).value, more[k])
              && Run(es + more[..k + 1]) == Some(Apply(Run(es + more[..k]).value, more[k]))
    decreases |more| - k
  {
    if k == |more| {
      assert more[..k] == more;
    } else {
      RunOfSum(es, more, k + 1);
      assert (es + more[..k + 1])[..|es| + k] == es + more[..k];
      assert (es + more[..k + 1])[|es| + k] == more[k];
    }
  }

  /** A listed waiter without a helper is stuck: whatever happens from then on, it stays listed and is never told. */
  lemma {:induction false} UnhelpedIsStuck(es: seq<Event>, s: State, b: Address, t: TaskId, more: seq<Event>)
    requires Run(es) == Some(s) && t in WaitersOf(s.cache, b) && !Helped(s, b)
    requires Run(es + more).Some?
    ensures var u := Run(es + more).value;
            t in WaitersOf(u.cache, b) && t !in u.notified && !Helped(u, b)
    decreases |more|
  {
    RunKeepsInvariant(es + more);
    if more == [] {
      assert es + more == es;
      assert ListedWaiters(s, b);
    } else {
      var n := |more| - 1;
      RunOfSum(es, more, n);
      UnhelpedIsStuck(es, s, b, t, more[..n]);
      RunKeepsInvariant(es + more[..n]);
      assert more[..n + 1] == more;
      UnhelpedStaysListed(Run(es + more[..n]).value, more[n], b);
      assert ListedWaiters(Run(es + more).value, b);
    }
  }

  /** The step by which a helper tells everybody on the list. */
  lemma ClosingTellsTheListed(s: State, e: Event, t: TaskId)
    requires Enabled(s, e) && (e.DoInstall? || e.DoAbandon?) && t in WaitersOf(s.cache, s.tasks[e.task].broker)
    ensures t in Apply(s, e).notified
  {
  }

  /** How many steps a helper is away from closing the entry. */
  function Distance(pc: Pc): (n: nat)
  {
    match pc
    case AwaitConnect => 4
    case Attempting => 3
    case Spawning(_) => 2
    case _ => 1
  }

  /** A step of the helper itself either tells the listed waiter or brings the helper nearer to doing so. */
  lemma HelperStep(s: State, b: Address, t: TaskId, h: TaskId, succeeds: bool) returns (e: Event)
    requires Inv(s) && Helper(s, b, h) && t in WaitersOf(s.cache, b)
    ensures Enabled(s, e) && Undisturbed([e])
    ensures var u := Apply(s, e);
            || t in u.notified
            || (Helper(u, b, h) && t in WaitersOf(u.cache, b) && Distance(u.tasks[h].pc) < Distance(s.tasks[h].pc))
  {
    e := OwnStep(s, h, succeeds);
    if e.DoInstall? || e.DoAbandon? {
      ClosingTellsTheListed(s, e, t);
    }
  }

  lemma QuietPrefix(e: Event, rest: seq<Event>)
    requires Undisturbed([e]) && Undisturbed(rest)
    ensures Undisturbed([e] + rest)
  {
    assert e in [e];
  }

  /** A listed waiter with a helper is told after at most four more steps, without drops and failing spawns. */
  lemma {:induction false} HelpedIsTold(es: seq<Event>, s: State, b: Address, t: TaskId, h: TaskId, succeeds: bool)
    returns (more: seq<Event>)
    requires Run(es) == Some(s) && Helper(s, b, h) && t in WaitersOf(s.cache, b)
    ensures Undisturbed(more) && |more| <= Distance(s.tasks[h].pc)
    ensures Run(es + more).Some? && t in Run(es + more).value.notified
    decreases Distance(s.tasks[h].pc)
  {
    hide Inv, Run, Apply;
    RunKeepsInvariant(es);
    var e := HelperStep(s, b, t, h, succeeds);
    RunStep(es, e);
    var rest := [];
    if t in Apply(s, e).notified {
      assert es + [e] + [] == es + [e];
    } else {
      rest := HelpedIsTold(es + [e], Apply(s, e), b, t, h, succeeds);
    }
    more := [e] + rest;
    Regroup(es, [e], rest);
    QuietPrefix(e, rest);
  }

  /** Some continuation tells the task. */
  ghost predicate CanBeTold(es: seq<Event>, t: TaskId)
  {
    exists more :: Run(es + more).Some? && t in Run(es + more).value.notified
  }

  /** Some continuation of at most four steps, without drops and failing spawns, tells the task. */
  ghost predicate IsSoonTold(es: seq<Event>, t: TaskId)
  {
    exists more :: |more| <= 4 && Undisturbed(more) && Run(es + more).Some? && t in Run(es + more).value.notified
  }

  /**
   * The exact condition, over every run, dropped tasks and failing spawns included: a listed waiter
   * can still be told if and only if some task for its broker is attempting, or has an answer on
   * which it will attempt. With such a task, four undisturbed steps suffice; without one, no
   * continuation whatever tells the waiter.
   */
  lemma StuckIffNobodyHelps(es: seq<Event>, s: State, b: Address, t: TaskId)
    requires Run(es) == Some(s) && t in WaitersOf(s.cache, b)
    ensures CanBeTold(es, t) <==> Helped(s, b)
    ensures IsSoonTold(es, t) <==> Helped(s, b)
  {
    if Helped(s, b) {
      var h :| Helper(s, b, h);
      var more := HelpedIsTold(es, s, b, t, h, true);
      assert Run(es + more).Some? && t in Run(es + more).value.notified;
    } else {
      forall more | Run(es + more).Some? ensures t !in Run(es + more).value.notified {
        UnhelpedIsStuck(es, s, b, t, more);
      }
    }
  }

  /** A task that waits inside a call never learns the outcome exactly if it has not been told yet and nobody helps. */
  lemma CallIsStuckIffNobodyHelps(es: seq<Event>, s: State, t: TaskId)
    requires Run(es) == Some(s) && t < |s.tasks| && Waiting(s.tasks[t].pc)
    ensures !CanBeTold(es, t) <==> t !in s.notified && !Helped(s, s.tasks[t].broker)
  {
    if t in s.notified {
      assert es + [] == es;
      assert t in Run(es + []).value.notified;
    } else {
      RunKeepsInvariant(es);
      assert TaskTold(s, t);
      StuckIffNobodyHelps(es, s, s.tasks[t].broker, t);
    }
  }

  /** A failing spawn does strand a waiter for good: no continuation of this run ever tells it. */
  lemma FailedSpawnStrandsWaiter() returns (es: seq<Event>, s: State)
    ensures Run(es) == Some(s) && !Undisturbed(es)
    ensures |s.tasks| == 2 && s.tasks[0] == Task(6650, Finished(Shutdown)) && s.tasks[1] == Task(6650, AwaitLookup)
    ensures forall more :: Run(es + more).Some? ==>
              1 in WaitersOf(Run(es + more).value.cache, 6650) && 1 !in Run(es + more).value.notified
  {
    es, s := InsertAndWait();
    es, s := Extend(es, s, Settle(0, Got(7)));
    es, s := Extend(es, s, Spawn(0, false));
    forall h ensures !Helper(s, 6650, h) {
    }
    forall more | Run(es + more).Some?
      ensures 1 in WaitersOf(Run(es + more).value.cache, 6650) && 1 !in Run(es + more).value.notified
    {
      UnhelpedIsStuck(es, s, 6650, 1, more);
    }
  }

  /** One task inserts an entry and attempts, another one waits on it. */
  lemma InsertAndWait() returns (es: seq<Event>, s: State)
    ensures Run(es) == Some(s) && s.made == map[] && s.cache == map[6650 := Connecting([1])]
    ensures s.tasks == [Task(6650, Attempting), Task(6650, AwaitLookup)]
  {
    es, s := InsertEntry();
    es, s := Extend(es, s, Begin(6650));
    es, s := Extend(es, s, DoLookup(1, true, 0));
    assert s.cache[6650] == Connecting([1]);
  }

  lemma InsertEntry() returns (es: seq<Event>, s: State)
    ensures Run(es) == Some(s) && s.made == map[] && s.cache == map[6650 := Connecting([])]
    ensures s.tasks == [Task(6650, Attempting)]
  {
    es, s := Extend([], START, Begin(6650));
    es, s := Extend(es, s, DoLookup(0, true, 0));
    es, s := Extend(es, s, DoEnter(0));
  }
}
