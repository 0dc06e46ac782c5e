/** The connection cache: the regions that run under its lock, and the connect loop with backoff. */
module ConnectionManager {
  import opened Common

  /** Broker addresses, tasks and connections are named by numbers. */
  type Address = nat
  type TaskId = nat
  type Conn = nat

  datatype Status = Connected(conn: Conn, lastUsed: nat) | Connecting(waiters: seq<TaskId>)

  type Cache = map<Address, Status>

  /** What a call ends with, or a waiter is told. */
  datatype Outcome = Got(conn: Conn) | Canceled | Failed(error: nat) | Shutdown

  datatype LookupResult = Hit(conn: Conn) | Missing | Wait

  /** The region of `get_connection`. */
  function Lookup(cache: Cache, broker: Address, task: TaskId, valid: bool, now: nat): (r: (Cache, LookupResult))
  {
    if broker !in cache then (cache, Missing)
    else
      match cache[broker]
      case Connected(conn, _) => if valid then (cache[broker := Connected(conn, now)], Hit(conn)) else (cache, Missing)
      case Connecting(waiters) => (cache[broker := Connecting(waiters + [task])], Wait)
  }

  /** The region of `connect_inner`: whether the task has to wait for another one. */
  function Enter(cache: Cache, broker: Address, task: TaskId): (r: (Cache, bool))
  {
    if broker !in cache then (cache[broker := Connecting([])], false)
    else
      match cache[broker]
      case Connected(_, _) => (cache, false)
      case Connecting(waiters) =>
        if waiters == [] then (cache, false) else (cache[broker := Connecting(waiters + [task])], true)
  }

  function WaitersOf(cache: Cache, broker: Address): (waiters: seq<TaskId>)
  {
    if broker in cache && cache[broker].Connecting? then cache[broker].waiters else []
  }

  class Manager {
    var connections: Cache

    constructor ()
      ensures connections == map[]
    {
      connections := map[];
    }

    method LookupConnection(broker: Address, task: TaskId, valid: bool, now: nat) returns (r: LookupResult)
      modifies this
      ensures (connections, r) == Lookup(old(connections), broker, task, valid, now)
      ensures forall b :: b != broker ==> (b in connections <==> b in old(connections))
      ensures forall b :: b != broker && b in connections ==> connections[b] == old(connections)[b]
      ensures r.Hit? <==> broker in old(connections) && old(connections)[broker].Connected? && valid
      ensures r.Hit? ==> r.conn == old(connections)[broker].conn && connections == old(connections)[broker := Connected(r.conn, now)]
      ensures r.Wait? <==> broker in old(connections) && old(connections)[broker].Connecting?
      ensures r.Wait? ==> connections == old(connections)[broker := Connecting(old(connections)[broker].waiters + [task])]
      ensures r.Missing? ==> connections == old(connections)
    {
      if broker !in connections {
        return Missing;
      }
      match connections[broker] {
        case Connected(conn, _) =>
          if !valid {
            return Missing;
          }
          connections := connections[broker := Connected(conn, now)];
          return Hit(conn);
        case Connecting(waiters) =>
          connections := connections[broker := Connecting(waiters + [task])];
          return Wait;
      }
    }

    method EnterConnecting(broker: Address, task: TaskId) returns (wait: bool)
      modifies this
      ensures (connections, wait) == Enter(old(connections), broker, task)
      ensures wait <==> broker in old(connections) && old(connections)[broker].Connecting? && old(connections)[broker].waiters != []
      ensures wait ==> connections == old(connections)[broker := Connecting(old(connections)[broker].waiters + [task])]
      ensures broker !in old(connections) ==> connections == old(connections)[broker := Connecting([])]
      ensures !wait && broker in old(connections) ==> connections == old(connections)
    {
      if broker !in connections {
        connections := connections[broker := Connecting([])];
      }
      wait := false;
      match connections[broker] {
        case Connected(_, _) =>
        case Connecting(waiters) =>
          if waiters != [] {
            connections := connections[broker := Connecting(waiters + [task])];
            wait := true;
          }
      }
    }

    /** After a failed attempt: the entry goes, whatever it is, and its waiters are told so. */
    method Abandon(broker: Address) returns (sent: seq<(TaskId, Outcome)>)
      modifies this
      ensures connections == old(connections) - {broker}
      ensures sent == Messages(WaitersOf(old(connections), broker), Canceled)
    {
      var waiters := WaitersOf(connections, broker);
      connections := connections - {broker};
      sent := Notify(waiters, Canceled);
    }

    /** After a successful attempt: the entry becomes the connection, and its waiters receive it. */
    method Install(broker: Address, conn: Conn, now: nat) returns (sent: seq<(TaskId, Outcome)>)
      modifies this
      ensures connections == old(connections)[broker := Connected(conn, now)]
      ensures sent == Messages(WaitersOf(old(connections), broker), Got(conn))
    {
      var waiters := WaitersOf(connections, broker);
      connections := connections[broker := Connected(conn, now)];
      sent := Notify(waiters, Got(conn));
    }

    /** `check_connections`: attempts in progress stay; a connection stays if valid and held or recently used. */
    method CheckConnections(now: nat, maxIdle: nat, valid: Conn -> bool, strongCount: Conn -> nat)
      modifies this
      ensures forall b :: b in connections <==>
                b in old(connections) && Retained(old(connections)[b], now, maxIdle, valid, strongCount)
      ensures forall b :: b in connections ==> connections[b] == old(connections)[b]
      ensures forall b :: b in old(connections) && old(connections)[b].Connecting? ==> b in connections
      ensures forall b :: b in old(connections) && old(connections)[b].Connected? ==>
                var conn := old(connections)[b].conn;
                b in connections <==> valid(conn) && (strongCount(conn) > 1 || now < old(connections)[b].lastUsed + maxIdle)
    {
      connections := map b | b in connections && Retained(connections[b], now, maxIdle, valid, strongCount) :: connections[b];
    }
  }

  predicate Retained(status: Status, now: nat, maxIdle: nat, valid: Conn -> bool, strongCount: Conn -> nat)
  {
    match status
    case Connecting(_) => true
    case Connected(conn, lastUsed) => valid(conn) && (strongCount(conn) > 1 || now - lastUsed < maxIdle)
  }

  function Messages(waiters: seq<TaskId>, outcome: Outcome): (sent: seq<(TaskId, Outcome)>)
    ensures |sent| == |waiters| && forall i :: 0 <= i < |waiters| ==> sent[i] == (waiters[i], outcome)
  {
    seq(|waiters|, i requires 0 <= i < |waiters| => (waiters[i], outcome))
  }

  method Notify(waiters: seq<TaskId>, outcome: Outcome) returns (sent: seq<(TaskId, Outcome)>)
    ensures sent == Messages(waiters, outcome)
  {
    sent := [];
    for i := 0 to |waiters|
      invariant sent == Messages(waiters, outcome)[..i]
    {
      sent := sent + [(waiters[i], outcome)];
    }
  }

  // ---------------------------------------------------------------- connecting with backoff

  datatype RetryOptions = RetryOptions(minBackoff: nat, maxBackoff: nat, maxRetries: nat)
  datatype Attempt = Made(conn: Conn) | Retryable(error: nat) | Fatal(error: nat)

  const U32_MAX: nat := 0xffff_ffff

  function Pow2(e: nat): (p: nat)
    ensures p >= 1
  {
    if e == 0 then 1 else 2 * Pow2(e - 1)
  }

  /** `min(min_backoff * 2u32.saturating_pow(retries), max_backoff)`. */
  function BaseDelay(options: RetryOptions, retries: nat): (delay: nat)
    ensures delay <= options.maxBackoff
  {
    Min(options.minBackoff * Min(Pow2(retries), U32_MAX), options.maxBackoff)
  }

  lemma {:induction false} Pow2Monotone(a: nat, b: nat)
    requires a <= b
    ensures Pow2(a) <= Pow2(b)
  {
    if a < b {
      Pow2Monotone(a, b - 1);
    }
  }

  /** The exponential part of the backoff never shrinks from one retry to a later one. */
  lemma BackoffNeverShrinks(options: RetryOptions, a: nat, b: nat)
    requires a <= b
    ensures BaseDelay(options, a) <= BaseDelay(options, b)
  {
    Pow2Monotone(a, b);
    TimesMonotone(options.minBackoff, Min(Pow2(a), U32_MAX), Min(Pow2(b), U32_MAX));
  }

  /** The delays start at the minimum and double from retry to retry until the maximum is reached. */
  lemma BackoffDoubles(options: RetryOptions, k: nat)
    ensures BaseDelay(options, 0) == Min(options.minBackoff, options.maxBackoff)
    ensures k < 31 ==> BaseDelay(options, k + 1) == Min(2 * BaseDelay(options, k), options.maxBackoff)
    ensures k >= 32 ==> BaseDelay(options, k) == Min(options.minBackoff * U32_MAX, options.maxBackoff)
  {
    Pow2Values();
    if k < 31 {
      Pow2Monotone(k + 1, 31);
      DoubledProduct(options.minBackoff, Pow2(k));
      assert BaseDelay(options, k + 1) == Min(options.minBackoff * Pow2(k + 1), options.maxBackoff);
    } else if k >= 32 {
      Pow2Monotone(32, k);
    }
  }

  lemma DoubledProduct(m: nat, p: nat)
    ensures m * (2 * p) == 2 * (m * p)
  {
  }

  lemma {:induction false} Pow2Values()
    ensures Pow2(31) == 0x8000_0000 && Pow2(32) == 0x1_0000_0000
  {
    assert Pow2(8) == 256;
    assert Pow2(16) == 65536 by {
      assert Pow2(12) == 4096;
    }
    assert Pow2(24) == 0x100_0000 by {
      assert Pow2(20) == 0x10_0000;
    }
    assert Pow2(28) == 0x1000_0000;
  }

  lemma TimesMonotone(m: nat, a: nat, b: nat)
    requires a <= b
    ensures m * a <= m * b
  {
  }

  /**
   * The connect loop: it stops at the first attempt that succeeds or fails for good, or when the
   * retries are used up, and waits a bounded time before each retry. `jitter(k)` is the k-th random
   * number below ten.
   */
  method EstablishConnection(options: RetryOptions, attempt: nat -> Attempt, jitter: nat -> nat)
    returns (r: Result<Conn, nat>, delays: seq<nat>)
    requires forall k :: jitter(k) < 10
    ensures |delays| <= options.maxRetries
    ensures forall k :: 0 <= k < |delays| ==> attempt(k).Retryable?
    ensures match attempt(|delays|)
            case Made(conn) => r == Ok(conn)
            case Fatal(error) => r == Err(error)
            case Retryable(error) => r == Err(error) && |delays| == options.maxRetries
    ensures forall k :: 0 <= k < |delays| ==>
              && delays[k] == BaseDelay(options, k) + options.minBackoff * jitter(k)
              && BaseDelay(options, k) <= delays[k] <= BaseDelay(options, k) + 9 * options.minBackoff
              && delays[k] <= options.maxBackoff + 9 * options.minBackoff
  {
    hide BaseDelay;
    var currentRetries := 0;
    delays := [];
    while true
      invariant currentRetries == |delays| <= options.maxRetries
      invariant forall k :: 0 <= k < |delays| ==> attempt(k).Retryable?
      invariant forall k :: 0 <= k < |delays| ==>
                  && delays[k] == BaseDelay(options, k) + options.minBackoff * jitter(k)
                  && BaseDelay(options, k) <= delays[k] <= BaseDelay(options, k) + 9 * options.minBackoff
      decreases options.maxRetries - currentRetries
    {
      match attempt(currentRetries) {
        case Made(conn) => return Ok(conn), delays;
        case Fatal(error) => return Err(error), delays;
        case Retryable(error) =>
          if currentRetries >= options.maxRetries {
            return Err(error), delays;
          }
          var backoff := BaseDelay(options, currentRetries) + options.minBackoff * jitter(currentRetries);
          TimesMonotone(options.minBackoff, jitter(currentRetries), 9);
          delays := delays + [backoff];
          currentRetries := currentRetries + 1;
      }
    }
  }
}
