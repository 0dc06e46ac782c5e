/** Creating a producer on the broker, with retries that look the broker up again. */
module RetryOp {
  import opened Common
  import opened Bytes
  import opened RetryBudget

  datatype CreateError =
    | Busy             // ServiceNotReady, ConsumerBusy, ProducerBusy and the two quota errors
    | BrokenTransport  // reset, aborted, not connected, broken pipe, timed out, interrupted, unexpected end
    | Final(code: nat)

  datatype Success = Success(producerName: string, schemaVersion: Option<seq<Byte>>, ready: Option<bool>, requestId: nat)

  /** What the k-th attempt meets: the broker's answer, the second answer should it be awaited, and the re-lookup. */
  datatype Attempt = Attempt(
    answer: Result<Success, CreateError>,
    second: Result<Option<seq<Byte>>, CreateError>,
    lookup: Option<nat>,
    connects: bool)

  datatype Failure = Rejected(error: CreateError) | LookupFailed | NotConnected

  datatype Created = Created(producerName: string, schemaVersion: Option<seq<Byte>>)

  datatype Progress = Done(result: Result<Created, Failure>) | StillRunning

  predicate Retryable(e: CreateError)
  {
    !e.Final?
  }

  /** The broker refused the attempt for a passing reason, and the budget allows another. */
  predicate Retries(a: Attempt, maxRetries: Option<nat>, current: nat)
  {
    && (a.answer == Err(Busy) || a.answer == Err(BrokenTransport))
    && (maxRetries.None? || current < maxRetries.value)
  }

  /**
   * `retry_create_producer`, for its first `rounds` attempts. `attempts` lists, for each one, the
   * broker whose connection it used and the broker looked up last; they always agree.
   */
  method RetryCreateProducer(addr: nat, connects: bool, maxRetries: Option<nat>, world: nat -> Attempt, rounds: nat)
    returns (r: Progress, attempts: seq<(nat, nat)>)
    ensures forall i :: 0 <= i < |attempts| ==> attempts[i].0 == attempts[i].1
    ensures attempts != [] ==> attempts[0] == (addr, addr)
    ensures forall i :: 0 <= i < |attempts| - 1 ==>
              Retries(world(i), maxRetries, i) && world(i).lookup == Some(attempts[i + 1].0)
    ensures maxRetries.Some? ==> |attempts| <= maxRetries.value + 1
    ensures attempts == [] && r.Done? ==> r == Done(Err(NotConnected)) && !connects
    ensures r.StillRunning? ==> |attempts| == rounds
    ensures r.Done? && r.result.Ok? ==>
              && attempts != []
              && var last := world(|attempts| - 1);
                 && last.answer.Ok?
                 && r.result.value.producerName == last.answer.value.producerName
                 && (last.answer.value.ready != Some(false) ==> r.result.value.schemaVersion == last.answer.value.schemaVersion)
                 && (last.answer.value.ready == Some(false) ==>
                       && last.second.Ok?
                       && r.result.value.schemaVersion ==
                            if last.second.value.Some? then last.second.value else last.answer.value.schemaVersion)
    ensures r.Done? && r.result.Err? && attempts != [] ==>
              var last := world(|attempts| - 1);
              match r.result.error
              case Rejected(e) =>
                || (last.answer == Err(e) && !Retries(last, maxRetries, |attempts| - 1))
                || (last.answer.Ok? && last.answer.value.ready == Some(false) && last.second == Err(e))
              case LookupFailed => Retries(last, maxRetries, |attempts| - 1) && last.lookup.None?
              case NotConnected => Retries(last, maxRetries, |attempts| - 1) && last.lookup.Some? && !last.connects
  {
    attempts := [];
    if !connects {
      return Done(Err(NotConnected)), attempts;
    }
    var connection, current := addr, addr;
    for retries := 0 to rounds
      invariant |attempts| == retries && connection == current
      invariant forall i :: 0 <= i < |attempts| ==> attempts[i].0 == attempts[i].1
      invariant attempts == [] ==> current == addr
      invariant attempts != [] ==> attempts[0] == (addr, addr) && world(retries - 1).lookup == Some(current)
      invariant forall i :: 0 <= i < |attempts| ==> Retries(world(i), maxRetries, i)
      invariant forall i :: 0 <= i < |attempts| - 1 ==> world(i).lookup == Some(attempts[i + 1].0)
      invariant maxRetries.Some? ==> retries <= maxRetries.value
    {
      attempts := attempts + [(connection, current)];
      var now := world(retries);
      match now.answer {
        case Ok(success) =>
          var schema := success.schemaVersion;
          if success.ready == Some(false) {
            match now.second {
              case Ok(newer) =>
                if newer.Some? && schema != newer {
                  schema := newer;
                }
              case Err(e) => return Done(Err(Rejected(e))), attempts;
            }
          }
          return Done(Ok(Created(success.producerName, schema))), attempts;
        case Err(e) =>
          if !Retryable(e) || !AllowRetry(maxRetries, retries) {
            return Done(Err(Rejected(e))), attempts;
          }
          if now.lookup.None? {
            return Done(Err(LookupFailed)), attempts;
          }
          current := now.lookup.value;
          if !now.connects {
            return Done(Err(NotConnected)), attempts;
          }
          connection := current;
      }
    }
    return StillRunning, attempts;
  }
}
