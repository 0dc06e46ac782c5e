/**
 * The connection's receiver: requests and responses arrive in either order and are matched by
 * their key through two maps, one of waiting requests and one of early responses.
 */
module Rendezvous {
  import opened Common

  datatype RequestKey =
    | RequestId(id: nat)
    | ProducerSend(producerId: nat, sequenceId: nat)
    | Consumer(consumerId: nat)
    | CloseConsumer(consumerId: nat, requestId: nat)
    | AuthChallenge

  /** Resolvers and channels are named by numbers, message bodies as well. */
  datatype Register =
    | Request(key: RequestKey, resolver: nat)
    | AddConsumer(consumerId: nat, channel: nat)
    | RemoveConsumer(consumerId: nat)
    | AwaitPong(resolver: nat)

  /** A decoded message, as far as the receiver looks at it; for a ping, whether the control channel takes the pong. */
  datatype Inbound = Ping(taken: bool) | Pong | Command(key: Option<RequestKey>, body: nat)

  datatype Action =
    | Resolve(key: RequestKey, resolver: nat, body: nat)
    | DropResolver(key: RequestKey, resolver: nat)   // its caller sees a cancelled request
    | DropMessage(key: RequestKey, body: nat)
    | Forward(channel: nat, body: nat)
    | SendPong | SignalPong(resolver: nat) | AskAuth

  datatype Table = Table(
    pending: map<RequestKey, nat>,
    received: map<RequestKey, nat>,
    consumers: map<nat, nat>,
    ping: Option<nat>,
    log: seq<Action>)

  const EMPTY := Table(map[], map[], map[], None, [])

  datatype Event = Registered(register: Register) | Arrived(message: Inbound)

  function Do(t: Table, a: Action): (u: Table)
  {
    t.(log := t.log + [a])
  }

  function OnRegister(t: Table, r: Register): (u: Table)
  {
    match r
    case Request(key, resolver) =>
      if key in t.received then
        Do(t.(received := t.received - {key}), Resolve(key, resolver, t.received[key]))
      else
        var u := if key in t.pending then Do(t, DropResolver(key, t.pending[key])) else t;
        u.(pending := t.pending[key := resolver])
    case AddConsumer(id, channel) => t.(consumers := t.consumers[id := channel])
    case RemoveConsumer(id) => t.(consumers := t.consumers - {id})
    case AwaitPong(resolver) => t.(ping := Some(resolver))
  }

  function ToConsumer(t: Table, id: nat, body: nat): (u: Table)
  {
    if id in t.consumers then Do(t, Forward(t.consumers[id], body)) else t
  }

  function OnMessage(t: Table, m: Inbound): (u: Table)
  {
    match m
    case Ping(taken) => if taken then Do(t, SendPong) else t
    case Pong => if t.ping.Some? then Do(t.(ping := None), SignalPong(t.ping.value)) else t
    case Command(None, _) => t
    case Command(Some(key), body) =>
      match key
      case Consumer(id) => ToConsumer(t, id, body)
      case AuthChallenge => Do(t, AskAuth)
      case CloseConsumer(id, requestId) =>
        var request := RequestId(requestId);
        if request in t.pending then
          Do(t.(pending := t.pending - {request}), Resolve(request, t.pending[request], body))
        else ToConsumer(t, id, body)
      case _ =>
        if key in t.pending then Do(t.(pending := t.pending - {key}), Resolve(key, t.pending[key], body))
        else
          var u := if key in t.received then Do(t, DropMessage(key, t.received[key])) else t;
          u.(received := t.received[key := body])
  }

  function After(t: Table, e: Event): (u: Table)
  {
    match e
    case Registered(r) => OnRegister(t, r)
    case Arrived(m) => OnMessage(t, m)
  }

  /** The receiver's state after any interleaving of registrations and inbound messages. */
  function Run(es: seq<Event>): (t: Table)
  {
    if es == [] then EMPTY else After(Run(es[..|es| - 1]), es[|es| - 1])
  }

  lemma RunStep(es: seq<Event>, e: Event)
    ensures Run(es + [e]) == After(Run(es), e)
  {
    assert (es + [e])[..|es|] == es;
  }

  // ---------------------------------------------------------------- the receiver object

  /** What polling the connection's byte stream finds once no complete message is left. */
  datatype StreamEnd = NothingYet | Ended | Broken

  datatype Poll = Pending | Stopped

  class Receiver {
    var pendingRequests: map<RequestKey, nat>
    var receivedMessages: map<RequestKey, nat>
    var consumers: map<nat, nat>
    var ping: Option<nat>
    var log: seq<Action>
    var failed: bool
    ghost var history: seq<Event>

    function Contents(): (t: Table)
      reads this
    {
      Table(pendingRequests, receivedMessages, consumers, ping, log)
    }

    ghost predicate Valid()
      reads this
    {
      Contents() == Run(history)
    }

    constructor ()
      ensures Valid() && history == [] && !failed
    {
      pendingRequests, receivedMessages, consumers, ping, log := map[], map[], map[], None, [];
      failed, history := false, [];
    }

    method Register(r: Register)
      modifies `pendingRequests, `receivedMessages, `consumers, `ping, `log
      ensures Contents() == OnRegister(old(Contents()), r)
    {
      match r {
        case Request(key, resolver) =>
          if key in receivedMessages {
            log := log + [Resolve(key, resolver, receivedMessages[key])];
            receivedMessages := receivedMessages - {key};
          } else {
            if key in pendingRequests {
              log := log + [DropResolver(key, pendingRequests[key])];
            }
            pendingRequests := pendingRequests[key := resolver];
          }
        case AddConsumer(id, channel) => consumers := consumers[id := channel];
        case RemoveConsumer(id) => consumers := consumers - {id};
        case AwaitPong(resolver) => ping := Some(resolver);
      }
    }

    method Deliver(m: Inbound)
      modifies `pendingRequests, `receivedMessages, `consumers, `ping, `log, `failed
      ensures Contents() == OnMessage(old(Contents()), m)
      ensures failed == (old(failed) || m == Ping(false))
    {
      match m {
        case Ping(taken) =>
          if taken {
            log := log + [SendPong];
          } else {
            failed := true;
          }
        case Pong =>
          if ping.Some? {
            log := log + [SignalPong(ping.value)];
            ping := None;
          }
        case Command(None, _) =>
        case Command(Some(key), body) =>
          match key {
            case Consumer(id) =>
              if id in consumers { log := log + [Forward(consumers[id], body)]; }
            case AuthChallenge => log := log + [AskAuth];
            case CloseConsumer(id, requestId) =>
              var request := RequestId(requestId);
              if request in pendingRequests {
                log := log + [Resolve(request, pendingRequests[request], body)];
                pendingRequests := pendingRequests - {request};
              } else if id in consumers {
                log := log + [Forward(consumers[id], body)];
              }
            case _ =>
              if key in pendingRequests {
                log := log + [Resolve(key, pendingRequests[key], body)];
                pendingRequests := pendingRequests - {key};
              } else {
                if key in receivedMessages {
                  log := log + [DropMessage(key, receivedMessages[key])];
                }
                receivedMessages := receivedMessages[key := body];
              }
          }
      }
    }

    /**
     * One poll: all registrations that are ready, then all messages that are ready. It stops for
     * good on shutdown, when every sender is gone, and when the stream ends or breaks.
     */
    method PollOnce(shutdown: bool, registers: seq<Register>, sendersGone: bool, messages: seq<Inbound>, end: StreamEnd)
      returns (r: Poll)
      requires Valid()
      modifies this
      ensures Valid()
      ensures shutdown ==> r == Stopped && history == old(history) && failed == old(failed)
      ensures !shutdown && sendersGone ==>
                r == Stopped && failed && history == old(history) + RegisterEvents(registers)
      ensures !shutdown && !sendersGone ==>
                && history == old(history) + RegisterEvents(registers) + ArrivalEvents(messages)
                && (r == Pending <==> end.NothingYet?)
                && failed == (old(failed) || !end.NothingYet? || PongFails(messages))
    {
      hide Run, OnRegister, OnMessage;
      if shutdown {
        return Stopped;
      }
      for i := 0 to |registers|
        invariant Valid() && failed == old(failed)
        invariant history == old(history) + RegisterEvents(registers[..i])
      {
        Register(registers[i]);
        RunStep(history, Registered(registers[i]));
        history := history + [Registered(registers[i])];
        RegisterEventsStep(registers, i);
        Regroup(old(history), RegisterEvents(registers[..i]), [Registered(registers[i])]);
      }
      assert registers[..|registers|] == registers;
      if sendersGone {
        failed := true;
        return Stopped;
      }
      ghost var before := history;
      for i := 0 to |messages|
        invariant Valid() && failed == (old(failed) || PongFails(messages[..i]))
        invariant history == before + ArrivalEvents(messages[..i])
      {
        PongStep(messages, i);
        Deliver(messages[i]);
        RunStep(history, Arrived(messages[i]));
        history := history + [Arrived(messages[i])];
        ArrivalEventsStep(messages, i);
        Regroup(before, ArrivalEvents(messages[..i]), [Arrived(messages[i])]);
      }
      assert messages[..|messages|] == messages;
      if end.NothingYet? {
        return Pending;
      }
      failed := true;
      return Stopped;
    }
  }

  /** Some ping could not be answered because the control channel is closed. */
  predicate PongFails(messages: seq<Inbound>)
  {
    Ping(false) in messages
  }

  lemma PongStep(messages: seq<Inbound>, i: nat)
    requires i < |messages|
    ensures PongFails(messages[..i + 1]) <==> PongFails(messages[..i]) || messages[i] == Ping(false)
  {
    assert messages[..i + 1] == messages[..i] + [messages[i]];
  }

  function RegisterEvents(registers: seq<Register>): (es: seq<Event>)
  {
    seq(|registers|, i requires 0 <= i < |registers| => Registered(registers[i]))
  }

  function ArrivalEvents(messages: seq<Inbound>): (es: seq<Event>)
  {
    seq(|messages|, i requires 0 <= i < |messages| => Arrived(messages[i]))
  }

  lemma RegisterEventsStep(registers: seq<Register>, i: nat)
    requires i < |registers|
    ensures RegisterEvents(registers[..i + 1]) == RegisterEvents(registers[..i]) + [Registered(registers[i])]
  {
  }

  lemma ArrivalEventsStep(messages: seq<Inbound>, i: nat)
    requires i < |messages|
    ensures ArrivalEvents(messages[..i + 1]) == ArrivalEvents(messages[..i]) + [Arrived(messages[i])]
  {
  }

  // ---------------------------------------------------------------- what the interleaving asks for

  function NextRequests(earlier: seq<nat>, e: Event, key: RequestKey): (resolvers: seq<nat>)
  {
    if e.Registered? && e.register.Request? && e.register.key == key then earlier + [e.register.resolver] else earlier
  }

  /** The resolvers registered for a key, in order. */
  function Requests(es: seq<Event>, key: RequestKey): (resolvers: seq<nat>)
  {
    if es == [] then [] else NextRequests(Requests(es[..|es| - 1], key), es[|es| - 1], key)
  }

  predicate Answerable(key: RequestKey)
  {
    key.RequestId? || key.ProducerSend?
  }

  function NextResponses(requests: seq<nat>, earlier: seq<nat>, e: Event, key: RequestKey): (bodies: seq<nat>)
  {
    if e.Arrived? && e.message.Command? && e.message.key.Some? then
      var k := e.message.key.value;
      if Answerable(k) && k == key then earlier + [e.message.body]
      else if k.CloseConsumer? && key == RequestId(k.requestId) && |earlier| < |requests| then earlier + [e.message.body]
      else earlier
    else earlier
  }

  /**
   * The responses for a key, in order. A broker-initiated CloseConsumer counts as a response to the
   * request it names only if that request is still waiting for one.
   */
  function Responses(es: seq<Event>, key: RequestKey): (bodies: seq<nat>)
  {
    if es == [] then []
    else
      var before := es[..|es| - 1];
      NextResponses(Requests(before, key), Responses(before, key), es[|es| - 1], key)
  }

  /** No key ever has two more registrations than responses, or two more responses than registrations. */
  ghost predicate Balanced(es: seq<Event>)
  {
    es == [] || (Balanced(es[..|es| - 1]) && Even(es))
  }

  predicate Close(requests: seq<nat>, responses: seq<nat>)
  {
    |requests| <= |responses| + 1 && |responses| <= |requests| + 1
  }

  ghost predicate Even(es: seq<Event>)
  {
    forall key :: Close(Requests(es, key), Responses(es, key))
  }

  /** Who was answered with what for a key, in order. */
  function Answers(log: seq<Action>, key: RequestKey): (pairs: seq<(nat, nat)>)
  {
    if log == [] then []
    else
      var earlier, last := Answers(log[..|log| - 1], key), log[|log| - 1];
      if last.Resolve? && last.key == key then earlier + [(last.resolver, last.body)] else earlier
  }

  predicate NothingDropped(log: seq<Action>)
  {
    forall a :: a in log ==> !a.DropResolver? && !a.DropMessage?
  }

  /** The i-th registration paired with the i-th response. */
  function InOrder(requests: seq<nat>, responses: seq<nat>): (pairs: seq<(nat, nat)>)
  {
    seq(Min(|requests|, |responses|), i requires 0 <= i < Min(|requests|, |responses|) => (requests[i], responses[i]))
  }

  /** The state of one key, given only what was registered and what arrived for it. */
  predicate Matched(t: Table, key: RequestKey, requests: seq<nat>, responses: seq<nat>)
  {
    && (key in t.pending <==> |requests| > |responses|)
    && (key in t.pending ==> t.pending[key] == requests[|requests| - 1])
    && (key in t.received <==> |responses| > |requests|)
    && (key in t.received ==> t.received[key] == responses[|responses| - 1])
    && Answers(t.log, key) == InOrder(requests, responses)
  }

  lemma AnswersStep(log: seq<Action>, a: Action, key: RequestKey)
    ensures Answers(log + [a], key) ==
              if a.Resolve? && a.key == key then Answers(log, key) + [(a.resolver, a.body)] else Answers(log, key)
  {
    assert (log + [a])[..|log|] == log;
  }

  lemma InOrderStep(requests: seq<nat>, responses: seq<nat>, x: nat)
    ensures |requests| < |responses| ==>
              InOrder(requests + [x], responses) == InOrder(requests, responses) + [(x, responses[|requests|])]
    ensures |requests| >= |responses| ==> InOrder(requests + [x], responses) == InOrder(requests, responses)
    ensures |responses| < |requests| ==>
              InOrder(requests, responses + [x]) == InOrder(requests, responses) + [(requests[|responses|], x)]
    ensures |responses| >= |requests| ==> InOrder(requests, responses + [x]) == InOrder(requests, responses)
  {
  }

  lemma RegisterMatches(t: Table, r: Register, key: RequestKey, requests: seq<nat>, responses: seq<nat>)
    requires Matched(t, key, requests, responses) && Close(requests, responses)
    requires Close(NextRequests(requests, Registered(r), key), responses)
    ensures Matched(OnRegister(t, r), key, NextRequests(requests, Registered(r), key), responses)
  {
    if r.Request? {
      InOrderStep(requests, responses, r.resolver);
      if r.key in t.received {
        AnswersStep(t.log, Resolve(r.key, r.resolver, t.received[r.key]), key);
      } else if r.key in t.pending {
        AnswersStep(t.log, DropResolver(r.key, t.pending[r.key]), key);
      }
    }
  }

  lemma ResolveMatches(t: Table, request: RequestKey, body: nat, key: RequestKey, requests: seq<nat>, responses: seq<nat>)
    requires Matched(t, key, requests, responses) && Close(requests, responses) && request in t.pending
    ensures var u := Do(t.(pending := t.pending - {request}), Resolve(request, t.pending[request], body));
            Matched(u, key, requests, if request == key then responses + [body] else responses)
  {
    InOrderStep(requests, responses, body);
    AnswersStep(t.log, Resolve(request, t.pending[request], body), key);
  }

  lemma OtherActionMatches(t: Table, a: Action, key: RequestKey, requests: seq<nat>, responses: seq<nat>)
    requires Matched(t, key, requests, responses) && !a.Resolve?
    ensures Matched(Do(t, a), key, requests, responses)
  {
    AnswersStep(t.log, a, key);
  }

  lemma MessageMatches(t: Table, m: Inbound, key: RequestKey, requests: seq<nat>, responses: seq<nat>)
    requires Matched(t, key, requests, responses) && Close(requests, responses)
    requires Close(requests, NextResponses(requests, responses, Arrived(m), key))
    ensures Matched(OnMessage(t, m), key, requests, NextResponses(requests, responses, Arrived(m), key))
  {
    match m
    case Ping(taken) =>
      if taken {
        OtherActionMatches(t, SendPong, key, requests, responses);
      }
    case Pong =>
      if t.ping.Some? {
        OtherActionMatches(t.(ping := None), SignalPong(t.ping.value), key, requests, responses);
      }
    case Command(None, _) =>
    case Command(Some(k), body) =>
      if k.AuthChallenge? {
        OtherActionMatches(t, AskAuth, key, requests, responses);
      } else if k.CloseConsumer? && RequestId(k.requestId) in t.pending {
        ResolveMatches(t, RequestId(k.requestId), body, key, requests, responses);
      } else if k.Consumer? || k.CloseConsumer? {
        if k.consumerId in t.consumers {
          OtherActionMatches(t, Forward(t.consumers[k.consumerId], body), key, requests, responses);
        }
      } else if k in t.pending {
        ResolveMatches(t, k, body, key, requests, responses);
      } else {
        InOrderStep(requests, responses, body);
        if k in t.received {
          OtherActionMatches(t, DropMessage(k, t.received[k]), key, requests, responses);
        }
      }
  }

  lemma StepMatches(before: seq<Event>, e: Event, key: RequestKey)
    requires Matched(Run(before), key, Requests(before, key), Responses(before, key))
    requires Close(Requests(before, key), Responses(before, key))
    requires Close(Requests(before + [e], key), Responses(before + [e], key))
    ensures Matched(Run(before + [e]), key, Requests(before + [e], key), Responses(before + [e], key))
  {
    CountsStep(before, e, key);
    match e
    case Registered(r) => RegisterMatches(Run(before), r, key, Requests(before, key), Responses(before, key));
    case Arrived(m) => MessageMatches(Run(before), m, key, Requests(before, key), Responses(before, key));
  }

  lemma CountsStep(before: seq<Event>, e: Event, key: RequestKey)
    ensures Run(before + [e]) == After(Run(before), e)
    ensures Requests(before + [e], key) == NextRequests(Requests(before, key), e, key)
    ensures Responses(before + [e], key) == NextResponses(Requests(before, key), Responses(before, key), e, key)
  {
    assert (before + [e])[..|before|] == before;
  }

  /**
   * In every interleaving in which no key's counts ever differ by more than one, the two maps hold
   * disjoint keys, and for every key the i-th registration received exactly the i-th response.
   */
  lemma {:induction false} EachRequestGetsItsResponse(es: seq<Event>, key: RequestKey)
    requires Balanced(es)
    ensures Matched(Run(es), key, Requests(es, key), Responses(es, key))
    ensures !(key in Run(es).pending && key in Run(es).received)
  {
    if es != [] {
      var before, e := es[..|es| - 1], es[|es| - 1];
      assert es == before + [e];
      EachRequestGetsItsResponse(before, key);
      assert before == [] || Even(before);
      StepMatches(before, e, key);
    }
  }

  lemma NothingDroppedAppend(log: seq<Action>, a: Action)
    ensures NothingDropped(log + [a]) <==> NothingDropped(log) && !a.DropResolver? && !a.DropMessage?
  {
    assert forall x :: x in log + [a] <==> x in log || x == a;
  }

  /** The key whose map entry a step overwrites, if it does. */
  function Overwritten(t: Table, e: Event): (key: Option<RequestKey>)
  {
    match e
    case Registered(Request(key, _)) => if key !in t.received && key in t.pending then Some(key) else None
    case Arrived(Command(Some(key), _)) =>
      if Answerable(key) && key !in t.pending && key in t.received then Some(key) else None
    case _ => None
  }

  lemma RegisterDrops(t: Table, r: Register)
    ensures NothingDropped(OnRegister(t, r).log) <==> NothingDropped(t.log) && Overwritten(t, Registered(r)).None?
  {
    if r.Request? {
      if r.key in t.received {
        NothingDroppedAppend(t.log, Resolve(r.key, r.resolver, t.received[r.key]));
      } else if r.key in t.pending {
        NothingDroppedAppend(t.log, DropResolver(r.key, t.pending[r.key]));
      }
    }
  }

  lemma MessageDrops(t: Table, m: Inbound)
    ensures NothingDropped(OnMessage(t, m).log) <==> NothingDropped(t.log) && Overwritten(t, Arrived(m)).None?
  {
    match m
    case Ping(taken) =>
      if taken {
        NothingDroppedAppend(t.log, SendPong);
      }
    case Pong =>
      if t.ping.Some? {
        NothingDroppedAppend(t.log, SignalPong(t.ping.value));
      }
    case Command(None, _) =>
    case Command(Some(k), body) =>
      if k.AuthChallenge? {
        NothingDroppedAppend(t.log, AskAuth);
      } else if k.CloseConsumer? && RequestId(k.requestId) in t.pending {
        NothingDroppedAppend(t.log, Resolve(RequestId(k.requestId), t.pending[RequestId(k.requestId)], body));
      } else if k.Consumer? || k.CloseConsumer? {
        if k.consumerId in t.consumers {
          NothingDroppedAppend(t.log, Forward(t.consumers[k.consumerId], body));
        }
      } else if k in t.pending {
        NothingDroppedAppend(t.log, Resolve(k, t.pending[k], body));
      } else if k in t.received {
        NothingDroppedAppend(t.log, DropMessage(k, t.received[k]));
      }
  }

  /** A step overwrites an entry exactly when it makes the entry's key uneven. */
  lemma OverwritesIffUneven(before: seq<Event>, e: Event, key: RequestKey)
    requires Balanced(before)
    ensures Overwritten(Run(before), e) == Some(key) <==> !Close(Requests(before + [e], key), Responses(before + [e], key))
  {
    CountsStep(before, e, key);
    EachRequestGetsItsResponse(before, key);
    assert before == [] || Even(before);
    assert Close(Requests(before, key), Responses(before, key));
  }

  /** The condition is exact: an interleaving is balanced if and only if no waiter and no response is ever dropped. */
  lemma {:induction false} BalancedIffNothingDropped(es: seq<Event>)
    ensures Balanced(es) <==> NothingDropped(Run(es).log)
  {
    if es != [] {
      var before, e := es[..|es| - 1], es[|es| - 1];
      assert es == before + [e];
      BalancedIffNothingDropped(before);
      match e {
        case Registered(r) => RegisterDrops(Run(before), r);
        case Arrived(m) => MessageDrops(Run(before), m);
      }
      if Balanced(before) {
        forall key ensures Overwritten(Run(before), e) == Some(key) <==> !Close(Requests(es, key), Responses(es, key)) {
          OverwritesIffUneven(before, e, key);
        }
      }
    }
  }

  /**
   * The second wait of an exclusive producer: a request id registered again after its first answer
   * receives the second answer, whether that arrived before or after the second registration.
   */
  lemma SecondWaitGetsSecondAnswer(es: seq<Event>, key: RequestKey, first: nat, second: nat, partial: nat, ready: nat)
    requires Balanced(es)
    requires Requests(es, key) == [first, second] && Responses(es, key) == [partial, ready]
    ensures Answers(Run(es).log, key) == [(first, partial), (second, ready)]
    ensures key !in Run(es).pending && key !in Run(es).received
  {
    EachRequestGetsItsResponse(es, key);
  }

  lemma {:induction false} CountsOnlyGrow(es: seq<Event>, n: nat, key: RequestKey)
    requires n <= |es|
    ensures |Requests(es[..n], key)| <= |Requests(es, key)|
    ensures |Responses(es[..n], key)| <= |Responses(es, key)|
    decreases |es|
  {
    if n == |es| {
      assert es[..n] == es;
    } else {
      var before := es[..|es| - 1];
      assert before[..n] == es[..n];
      CountsOnlyGrow(before, n, key);
    }
  }

  /** Keys used for one request and answered at most once, as serial ids are, are always balanced. */
  lemma {:induction false} FreshKeysAreBalanced(es: seq<Event>)
    requires forall key :: |Requests(es, key)| <= 1 && |Responses(es, key)| <= 1
    ensures Balanced(es)
  {
    if es != [] {
      var before := es[..|es| - 1];
      forall key ensures |Requests(before, key)| <= 1 && |Responses(before, key)| <= 1 {
        CountsOnlyGrow(es, |es| - 1, key);
      }
      FreshKeysAreBalanced(before);
    }
  }

  // ---------------------------------------------------------------- everything but the matching

  function NextChannel(channel: Option<nat>, e: Event, id: nat): (next: Option<nat>)
  {
    match e
    case Registered(AddConsumer(other, added)) => if other == id then Some(added) else channel
    case Registered(RemoveConsumer(other)) => if other == id then None else channel
    case _ => channel
  }

  /** The channel registered for a consumer: the last one added, unless the consumer was removed since. */
  function ChannelOf(es: seq<Event>, id: nat): (channel: Option<nat>)
  {
    if es == [] then None else NextChannel(ChannelOf(es[..|es| - 1], id), es[|es| - 1], id)
  }

  function NextPongWaiter(resolver: Option<nat>, e: Event): (next: Option<nat>)
  {
    match e
    case Registered(AwaitPong(waiter)) => Some(waiter)
    case Arrived(Pong) => None
    case _ => resolver
  }

  /** Who waits for a pong: the last one to ask, if no pong has come since. */
  function PongWaiter(es: seq<Event>): (resolver: Option<nat>)
  {
    if es == [] then None else NextPongWaiter(PongWaiter(es[..|es| - 1]), es[|es| - 1])
  }

  /** The waiting request or the early response of a key, from the events for that key alone; the latest one wins. */
  datatype Slot = Neither | RequestWaits(resolver: nat) | ResponseWaits(body: nat)

  function NextSlot(slot: Slot, e: Event, key: RequestKey): (next: Slot)
  {
    match e
    case Registered(Request(k, resolver)) =>
      if k != key then slot else if slot.ResponseWaits? then Neither else RequestWaits(resolver)
    case Arrived(Command(Some(CloseConsumer(_, id)), _)) =>
      if key == RequestId(id) && slot.RequestWaits? then Neither else slot
    case Arrived(Command(Some(k), body)) =>
      if k != key || !Answerable(k) then slot else if slot.RequestWaits? then Neither else ResponseWaits(body)
    case _ => slot
  }

  function SlotOf(es: seq<Event>, key: RequestKey): (slot: Slot)
  {
    if es == [] then Neither else NextSlot(SlotOf(es[..|es| - 1], key), es[|es| - 1], key)
  }

  /** What an event makes the receiver send out besides answers to requests. */
  function Emission(before: seq<Event>, e: Event): (out: seq<Action>)
  {
    match e
    case Arrived(Ping(taken)) => if taken then [SendPong] else []
    case Arrived(Pong) => if PongWaiter(before).Some? then [SignalPong(PongWaiter(before).value)] else []
    case Arrived(Command(Some(AuthChallenge), _)) => [AskAuth]
    case Arrived(Command(Some(Consumer(id)), body)) =>
      if ChannelOf(before, id).Some? then [Forward(ChannelOf(before, id).value, body)] else []
    case Arrived(Command(Some(CloseConsumer(id, request)), body)) =>
      if ChannelOf(before, id).Some? && !SlotOf(before, RequestId(request)).RequestWaits?
      then [Forward(ChannelOf(before, id).value, body)] else []
    case _ => []
  }

  /** Every message for a consumer with a registered channel, every pong and every authentication request, in order. */
  function Emissions(es: seq<Event>): (out: seq<Action>)
  {
    if es == [] then [] else Emissions(es[..|es| - 1]) + Emission(es[..|es| - 1], es[|es| - 1])
  }

  predicate IsEmission(a: Action)
  {
    a.Forward? || a.SendPong? || a.SignalPong? || a.AskAuth?
  }

  /** The part of a log that is no business of waiting requests and early responses. */
  function Emitted(log: seq<Action>): (out: seq<Action>)
  {
    if log == [] then []
    else Emitted(log[..|log| - 1]) + if IsEmission(log[|log| - 1]) then [log[|log| - 1]] else []
  }

  lemma EmittedStep(log: seq<Action>, a: Action)
    ensures Emitted(log + [a]) == Emitted(log) + if IsEmission(a) then [a] else []
  {
    assert (log + [a])[..|log|] == log;
  }

  predicate ChannelHolds(t: Table, id: nat, channel: Option<nat>)
  {
    if id in t.consumers then channel == Some(t.consumers[id]) else channel.None?
  }

  predicate SlotHolds(t: Table, key: RequestKey, slot: Slot)
  {
    && (if key in t.pending then slot == RequestWaits(t.pending[key]) else !slot.RequestWaits?)
    && (if key in t.received then slot == ResponseWaits(t.received[key]) else !slot.ResponseWaits?)
  }

  lemma ChannelFollows(t: Table, e: Event, id: nat, channel: Option<nat>)
    requires ChannelHolds(t, id, channel)
    ensures ChannelHolds(After(t, e), id, NextChannel(channel, e, id))
  {
  }

  lemma SlotFollowsRegister(t: Table, r: Register, key: RequestKey, slot: Slot)
    requires SlotHolds(t, key, slot)
    ensures SlotHolds(OnRegister(t, r), key, NextSlot(slot, Registered(r), key))
  {
  }

  lemma SlotFollowsMessage(t: Table, m: Inbound, key: RequestKey, slot: Slot)
    requires SlotHolds(t, key, slot)
    ensures SlotHolds(OnMessage(t, m), key, NextSlot(slot, Arrived(m), key))
  {
  }

  lemma {:induction false} ChannelsAreRegistered(es: seq<Event>, id: nat)
    ensures ChannelHolds(Run(es), id, ChannelOf(es, id))
  {
    hide After, NextChannel;
    if es != [] {
      var before, e := es[..|es| - 1], es[|es| - 1];
      ChannelsAreRegistered(before, id);
      ChannelFollows(Run(before), e, id, ChannelOf(before, id));
    }
  }

  lemma {:induction false} PongWaiterIsRegistered(es: seq<Event>)
    ensures Run(es).ping == PongWaiter(es)
  {
    hide After, NextPongWaiter;
    if es != [] {
      PongWaiterIsRegistered(es[..|es| - 1]);
      PongWaiterFollows(Run(es[..|es| - 1]), es[|es| - 1]);
    }
  }

  lemma PongWaiterFollows(t: Table, e: Event)
    ensures After(t, e).ping == NextPongWaiter(t.ping, e)
  {
  }

  /**
   * In every interleaving, balanced or not, the two maps hold for each key exactly the request that
   * waits or the response that waits, as the events for that key decide; so no key is ever in both.
   */
  lemma {:induction false} MapsFollowTheirKeys(es: seq<Event>, key: RequestKey)
    ensures SlotHolds(Run(es), key, SlotOf(es, key))
    ensures !(key in Run(es).pending && key in Run(es).received)
  {
    hide OnRegister, OnMessage, NextSlot;
    if es != [] {
      var before, e := es[..|es| - 1], es[|es| - 1];
      MapsFollowTheirKeys(before, key);
      match e
      case Registered(r) => SlotFollowsRegister(Run(before), r, key, SlotOf(before, key));
      case Arrived(m) => SlotFollowsMessage(Run(before), m, key, SlotOf(before, key));
    }
  }

  lemma RegisterEmitsNothing(t: Table, r: Register)
    ensures Emitted(OnRegister(t, r).log) == Emitted(t.log)
  {
    hide Emitted;
    if r.Request? {
      if r.key in t.received {
        EmittedStep(t.log, Resolve(r.key, r.resolver, t.received[r.key]));
        Unchanged(Emitted(t.log));
      } else if r.key in t.pending {
        EmittedStep(t.log, DropResolver(r.key, t.pending[r.key]));
        Unchanged(Emitted(t.log));
      }
    }
  }

  lemma Unchanged<T>(s: seq<T>)
    ensures s + [] == s
  {
  }

  lemma ConsumerMessageEmits(t: Table, es: seq<Event>, k: RequestKey, body: nat)
    requires k.Consumer? || k.CloseConsumer?
    requires ChannelHolds(t, k.consumerId, ChannelOf(es, k.consumerId))
    requires k.CloseConsumer? ==> SlotHolds(t, RequestId(k.requestId), SlotOf(es, RequestId(k.requestId)))
    ensures Emitted(OnMessage(t, Command(Some(k), body)).log) == Emitted(t.log) + Emission(es, Arrived(Command(Some(k), body)))
  {
    hide Emitted, ChannelOf, SlotOf;
    Unchanged(Emitted(t.log));
    if k.CloseConsumer? && RequestId(k.requestId) in t.pending {
      EmittedStep(t.log, Resolve(RequestId(k.requestId), t.pending[RequestId(k.requestId)], body));
    } else if k.consumerId in t.consumers {
      EmittedStep(t.log, Forward(t.consumers[k.consumerId], body));
    }
  }

  lemma OtherMessageEmits(t: Table, es: seq<Event>, m: Inbound)
    requires t.ping == PongWaiter(es)
    requires m.Command? && m.key.Some? ==> !m.key.value.Consumer? && !m.key.value.CloseConsumer?
    ensures Emitted(OnMessage(t, m).log) == Emitted(t.log) + Emission(es, Arrived(m))
  {
    hide Emitted, PongWaiter;
    Unchanged(Emitted(t.log));
    match m
    case Ping(taken) => EmittedStep(t.log, SendPong);
    case Pong =>
      if t.ping.Some? {
        EmittedStep(t.log, SignalPong(t.ping.value));
      }
    case Command(None, _) =>
    case Command(Some(k), body) =>
      if k.AuthChallenge? {
        EmittedStep(t.log, AskAuth);
      } else if k in t.pending {
        EmittedStep(t.log, Resolve(k, t.pending[k], body));
      } else if k in t.received {
        EmittedStep(t.log, DropMessage(k, t.received[k]));
      }
  }

  /**
   * In every interleaving, balanced or not, the receiver passes on exactly the messages that arrived
   * for a consumer with a registered channel, each to that channel and unmatched close requests
   * included, answers each ping it can, signals each pong to whoever waits for it, and asks for
   * authentication at each challenge, all in the order of arrival.
   */
  lemma {:induction false} EmitsWhatArrives(es: seq<Event>)
    ensures Emitted(Run(es).log) == Emissions(es)
  {
    hide Emitted, Emission, OnMessage, OnRegister;
    if es != [] {
      var before, e := es[..|es| - 1], es[|es| - 1];
      EmitsWhatArrives(before);
      match e
      case Registered(r) =>
        RegisterEmitsNothing(Run(before), r);
        NoEmission(before, r);
        Unchanged(Emissions(before));
      case Arrived(m) =>
        if m.Command? && m.key.Some? && (m.key.value.Consumer? || m.key.value.CloseConsumer?) {
          var k := m.key.value;
          ChannelsAreRegistered(before, k.consumerId);
          if k.CloseConsumer? {
            MapsFollowTheirKeys(before, RequestId(k.requestId));
          }
          ConsumerMessageEmits(Run(before), before, k, m.body);
        } else {
          PongWaiterIsRegistered(before);
          OtherMessageEmits(Run(before), before, m);
        }
    } else {
      assert EMPTY.log == [];
      NothingEmitted();
    }
  }

  lemma NoEmission(es: seq<Event>, r: Register)
    ensures Emission(es, Registered(r)) == []
  {
  }

  lemma NothingEmitted()
    ensures Emitted([]) == []
  {
  }
}
