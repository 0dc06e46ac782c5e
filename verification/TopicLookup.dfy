/** Finding the broker of a topic, and the number of its partitions: the lookup loops. */
module TopicLookup {
  import opened Common
  import opened PartitionNames
  import opened RetryBudget

  datatype Url = Url(scheme: string, host: Option<string>, port: Option<nat>, rest: string)

  datatype BrokerAddress = BrokerAddress(url: Url, brokerUrl: string, proxy: bool)

  datatype ServerError = ServiceNotReady | MetadataError | OtherError(code: nat)

  datatype LookupType = Redirect | Connect | LookupFailed

  datatype Response = Response(
    kind: Option<LookupType>,
    error: Option<ServerError>,
    brokerUrl: Option<string>,
    brokerUrlTls: Option<string>,
    proxy: Option<bool>,
    authoritative: Option<bool>)

  datatype Reply<+R> = Answer(response: R) | Disconnected | QueryFailed

  datatype LookupError = ConnectionFailed | NotFound | Query(error: Option<ServerError>) | NotSupported | Panic

  /** How a loop stands after a number of rounds: ended, or still going. */
  datatype Progress<+T> = Done(result: Result<T, LookupError>) | StillRunning

  datatype RetryOptions = RetryOptions(operationTimeout: nat, retryDelay: nat, maxRetries: Option<nat>)

  /**
   * What the environment decides: how the k-th query is answered, whether the k-th request for a
   * connection succeeds, and how long the k-th round takes besides the prescribed delay.
   */
  datatype World<!R> = World(reply: nat -> Reply<R>, connects: nat -> bool, took: nat -> nat)

  /** A query: the broker of the connection it went out on, the broker it was meant for, the flag it carried. */
  datatype Asked = Asked(conn: BrokerAddress, target: BrokerAddress, authoritative: bool, hops: nat)

  predicate IsFailure(r: Response)
  {
    r.kind.None? || r.kind == Some(LookupFailed)
  }

  predicate Flag(b: Option<bool>)
  {
    b == Some(true)
  }

  function HostPort(u: Url, defaultPort: nat): (s: string)
    requires u.host.Some?
  {
    u.host.value + ":" + Decimal(if u.port.Some? then u.port.value else defaultPort)
  }

  /** The broker an answer names, in the scheme of the configured URL. */
  function Named(parse: string -> Option<Url>, base: Url, r: Response): (u: Result<Url, LookupError>)
    ensures u.Err? ==> u.error.NotFound? || u.error.Panic?
  {
    var plain := if r.brokerUrl.Some? then parse(r.brokerUrl.value) else None;
    var tls := if r.brokerUrlTls.Some? then parse(r.brokerUrlTls.value) else None;
    if (r.brokerUrl.Some? && plain.None?) || (r.brokerUrlTls.Some? && tls.None?) then Err(NotFound)
    else if base.scheme != "pulsar+ssl" && base.scheme != "pulsar" then Err(NotFound)
    else
      var chosen := if base.scheme == "pulsar+ssl" then tls else plain;
      if chosen.None? then Err(NotFound) else if chosen.value.host.None? then Err(Panic) else Ok(chosen.value)
  }

  function DefaultPort(base: Url): (port: nat)
  {
    if base.scheme == "pulsar+ssl" then 6651 else 6650
  }

  /** Whether any answer of a chain asked for the proxy. */
  predicate AnyProxy(chain: seq<Response>)
  {
    exists r :: r in chain && Flag(r.proxy)
  }

  /**
   * The broker to talk to after following a chain of answers: the last one names it, and it is
   * reached through the configured URL if any answer of the chain asked for the proxy.
   */
  function Target(parse: string -> Option<Url>, base: BrokerAddress, chain: seq<Response>): (a: BrokerAddress)
    requires forall r :: r in chain ==> Named(parse, base.url, r).Ok?
  {
    if chain == [] then base
    else
      var last := chain[|chain| - 1];
      assert last in chain;
      var u := Named(parse, base.url, last).value;
      BrokerAddress(if AnyProxy(chain) then base.url else u, HostPort(u, DefaultPort(base.url)), AnyProxy(chain))
  }

  predicate Authority(chain: seq<Response>)
  {
    chain != [] && Flag(chain[|chain| - 1].authoritative)
  }

  predicate Followed(parse: string -> Option<Url>, base: BrokerAddress, chain: seq<Response>)
  {
    forall r :: r in chain ==> Named(parse, base.url, r).Ok? && !IsFailure(r)
  }

  /** A query asked on the right connection, for the broker and with the flag its part of the chain prescribes. */
  predicate WellAsked(parse: string -> Option<Url>, base: BrokerAddress, chain: seq<Response>, q: Asked)
    requires Followed(parse, base, chain)
  {
    && q.hops <= |chain|
    && q.conn == q.target == Target(parse, base, chain[..q.hops])
    && q.authoritative == Authority(chain[..q.hops])
  }

  predicate AllRedirects(chain: seq<Response>)
  {
    forall i :: 0 <= i < |chain| ==> chain[i].kind == Some(Redirect)
  }

  predicate AllWellAsked(parse: string -> Option<Url>, base: BrokerAddress, chain: seq<Response>, asked: seq<Asked>)
    requires Followed(parse, base, chain)
  {
    forall q :: q in asked ==> WellAsked(parse, base, chain, q)
  }

  /** Every answer of the chain was the broker's reply to a query asked after exactly the answers before it. */
  predicate Genuine(world: World<Response>, asked: seq<Asked>, chain: seq<Response>)
  {
    forall i :: 0 <= i < |chain| ==> AnsweredAt(world, asked, chain[i], i)
  }

  predicate AnsweredAt(world: World<Response>, asked: seq<Asked>, r: Response, hops: nat)
  {
    exists k: nat :: k < |asked| && asked[k].hops == hops && world.reply(k) == Answer(r)
  }

  /** Everything asked and followed so far is in order. */
  predicate InOrder(
    parse: string -> Option<Url>, base: BrokerAddress, world: World<Response>, chain: seq<Response>, asked: seq<Asked>)
  {
    Followed(parse, base, chain) && AllWellAsked(parse, base, chain, asked) && Genuine(world, asked, chain)
  }

  /** The loop's variables are what the chain followed so far prescribes. */
  predicate OnTrack(
    parse: string -> Option<Url>, base: BrokerAddress, chain: seq<Response>,
    conn: BrokerAddress, brokerAddress: BrokerAddress, proxied: bool, authoritative: bool)
    requires Followed(parse, base, chain)
  {
    && conn == brokerAddress == Target(parse, base, chain)
    && proxied == AnyProxy(chain) && authoritative == Authority(chain)
  }

  lemma StaysGenuine(world: World<Response>, asked: seq<Asked>, chain: seq<Response>, q: Asked)
    requires Genuine(world, asked, chain)
    ensures Genuine(world, asked + [q], chain)
  {
    forall i | 0 <= i < |chain| ensures AnsweredAt(world, asked + [q], chain[i], i) {
      assert AnsweredAt(world, asked, chain[i], i);
      var k: nat :| k < |asked| && asked[k].hops == i && world.reply(k) == Answer(chain[i]);
      assert (asked + [q])[k] == asked[k];
    }
  }

  lemma GenuineStep(world: World<Response>, asked: seq<Asked>, chain: seq<Response>, r: Response)
    requires Genuine(world, asked, chain) && AnsweredAt(world, asked, r, |chain|)
    ensures Genuine(world, asked, chain + [r])
  {
  }

  lemma LongerChain(parse: string -> Option<Url>, base: BrokerAddress, chain: seq<Response>, r: Response, asked: seq<Asked>)
    requires Followed(parse, base, chain) && Named(parse, base.url, r).Ok? && !IsFailure(r)
    requires AllWellAsked(parse, base, chain, asked)
    ensures Followed(parse, base, chain + [r])
    ensures AllWellAsked(parse, base, chain + [r], asked)
    ensures AnyProxy(chain + [r]) <==> AnyProxy(chain) || Flag(r.proxy)
    ensures Authority(chain + [r]) == Flag(r.authoritative)
    ensures var u, proxy := Named(parse, base.url, r).value, AnyProxy(chain) || Flag(r.proxy);
            Target(parse, base, chain + [r]) ==
              BrokerAddress(if proxy then base.url else u, HostPort(u, DefaultPort(base.url)), proxy)
  {
    forall q | q in asked ensures WellAsked(parse, base, chain + [r], q) {
      assert (chain + [r])[..q.hops] == chain[..q.hops];
    }
    assert r in chain + [r];
    forall x | x in chain && Flag(x.proxy) ensures x in chain + [r] {
    }
  }

  /** After n retries the first n - 1 delays had passed while the time limit had not. */
  predicate WithinDeadline(options: RetryOptions, retries: nat)
  {
    retries > 0 ==> (retries - 1) * options.retryDelay < options.operationTimeout
  }

  /** A positive delay allows at most `ceil(operationTimeout / retryDelay)` retries, with or without a retry budget. */
  predicate Bounded(options: RetryOptions, retries: nat)
  {
    && WithinDeadline(options, retries)
    && (options.retryDelay > 0 ==> retries <= (options.operationTimeout + options.retryDelay - 1) / options.retryDelay)
  }

  /** The retries so far have taken their delays. */
  predicate Paced(options: RetryOptions, retries: nat, elapsed: nat)
  {
    retries * options.retryDelay <= elapsed && Bounded(options, retries)
  }

  lemma TimePasses(options: RetryOptions, retries: nat, elapsed: nat, more: nat)
    requires Paced(options, retries, elapsed)
    ensures Paced(options, retries, elapsed + more)
  {
  }

  /** A retry is only made while the time limit has not passed, so it stays within the bound. */
  lemma RetryInTime(options: RetryOptions, retries: nat, elapsed: nat)
    requires Paced(options, retries, elapsed) && elapsed < options.operationTimeout
    ensures Paced(options, retries + 1, elapsed + options.retryDelay)
  {
    var t, d := options.operationTimeout, options.retryDelay;
    assert (retries + 1) * d == retries * d + d;
    if d > 0 {
      var q := (t + d - 1) / d;
      assert t + d - 1 < (q + 1) * d;
      ProductIsMonotone(q, retries, d);
    }
  }

  lemma ProductIsMonotone(a: int, b: int, d: nat)
    ensures a <= b ==> a * d <= b * d
  {
  }

  /** A broker URL of an answer, parsed if it is there and well formed. */
  function Parsed(parse: string -> Option<Url>, url: Option<string>): (u: Option<Url>)
  {
    if url.None? then None else parse(url.value)
  }

  /** An answer leads nowhere: a URL that does not parse, an unknown scheme, no URL of the scheme's kind, or one without host. */
  predicate Unusable(parse: string -> Option<Url>, base: Url, a: Response, error: LookupError)
  {
    var plain, tls := Parsed(parse, a.brokerUrl), Parsed(parse, a.brokerUrlTls);
    var malformed := (a.brokerUrl.Some? && plain.None?) || (a.brokerUrlTls.Some? && tls.None?);
    match error
    case NotFound =>
      || malformed
      || (base.scheme == "pulsar+ssl" && a.brokerUrlTls.None?)
      || (base.scheme == "pulsar" && a.brokerUrl.None?)
      || (base.scheme != "pulsar+ssl" && base.scheme != "pulsar")
    case Panic =>
      && !malformed
      && ((base.scheme == "pulsar+ssl" && tls.Some? && tls.value.host.None?)
          || (base.scheme == "pulsar" && plain.Some? && plain.value.host.None?))
    case _ => false
  }

  /** The address for a broker URL: host and port, the port being the scheme's own if the URL has none. */
  predicate AddressOf(u: Url, ownPort: nat, brokerUrl: string)
  {
    && u.host.Some?
    && brokerUrl == u.host.value + ":" + Decimal(match u.port case Some(port) => port case None => ownPort)
  }

  /**
   * The broker address a chain of answers leads to. With TLS it is the last answer's TLS URL, and
   * 6651 the port it may leave out; without, its plain URL and 6650. It is reached through the
   * configured URL if any answer asked for the proxy, and otherwise directly.
   */
  ghost predicate Prescribed(parse: string -> Option<Url>, base: BrokerAddress, chain: seq<Response>, a: BrokerAddress)
  {
    if chain == [] then a == base
    else
      var last := chain[|chain| - 1];
      && (a.proxy <==> exists r :: r in chain && r.proxy == Some(true))
      && (a.proxy ==> a.url == base.url)
      && (base.url.scheme == "pulsar+ssl" || base.url.scheme == "pulsar")
      && (base.url.scheme == "pulsar+ssl" ==>
            var u := Parsed(parse, last.brokerUrlTls);
            u.Some? && AddressOf(u.value, 6651, a.brokerUrl) && (!a.proxy ==> a.url == u.value))
      && (base.url.scheme == "pulsar" ==>
            var u := Parsed(parse, last.brokerUrl);
            u.Some? && AddressOf(u.value, 6650, a.brokerUrl) && (!a.proxy ==> a.url == u.value))
  }

  /** An answer names a broker exactly if it is usable, and its error says why it is not. */
  lemma NamedOrUnusable(parse: string -> Option<Url>, base: Url, a: Response)
    ensures Named(parse, base, a).Ok? <==> !Unusable(parse, base, a, NotFound) && !Unusable(parse, base, a, Panic)
    ensures forall error :: Named(parse, base, a) == Err(error) <==> Unusable(parse, base, a, error)
  {
  }

  lemma TargetIsPrescribed(parse: string -> Option<Url>, base: BrokerAddress, chain: seq<Response>)
    requires Followed(parse, base, chain)
    ensures Prescribed(parse, base, chain, Target(parse, base, chain))
  {
    if chain != [] {
      assert chain[|chain| - 1] in chain;
    }
  }

  /**
   * Every query went to the broker that the answers before it led to, over a connection for that
   * broker, and was authoritative exactly if the answer just before it said so.
   */
  lemma QueriesAreRight(parse: string -> Option<Url>, base: BrokerAddress, chain: seq<Response>, asked: seq<Asked>, q: Asked)
    requires Followed(parse, base, chain) && AllWellAsked(parse, base, chain, asked) && q in asked
    ensures q.hops <= |chain| && q.conn == q.target && Prescribed(parse, base, chain[..q.hops], q.target)
    ensures q.authoritative <==> q.hops > 0 && chain[q.hops - 1].authoritative == Some(true)
  {
    assert WellAsked(parse, base, chain, q);
    TargetIsPrescribed(parse, base, chain[..q.hops]);
  }

  /** The broker's last answer was a failure with this error. */
  ghost predicate RefusedWith(world: World<Response>, asked: seq<Asked>, hops: nat, error: Option<ServerError>)
  {
    exists a :: AnsweredAt(world, asked, a, hops) && (a.kind.None? || a.kind == Some(LookupFailed)) && a.error == error
  }

  /** The broker's last answer named no broker that can be used. */
  ghost predicate UnusableAnswer(
    parse: string -> Option<Url>, url: Url, world: World<Response>, asked: seq<Asked>, hops: nat, error: LookupError)
  {
    exists a :: AnsweredAt(world, asked, a, hops) && Unusable(parse, url, a, error)
  }

  /** Why a lookup ends with an error: each one has its cause in what the loop met last. */
  ghost predicate Explained(
    parse: string -> Option<Url>, url: Url, options: RetryOptions, world: World<Response>,
    asked: seq<Asked>, hops: nat, connections: nat, retries: nat, elapsed: nat, error: LookupError)
  {
    match error
    case ConnectionFailed => !world.connects(connections) || (asked != [] && !world.reply(|asked| - 1).Answer?)
    case Query(e) =>
      && RefusedWith(world, asked, hops, e)
      && (e == Some(ServiceNotReady) || e == Some(MetadataError) ==>
            elapsed >= options.operationTimeout || !AllowRetry(options.maxRetries, retries))
    case NotSupported => false
    case _ => UnusableAnswer(parse, url, world, asked, hops, error)
  }

  /** Before the first query everything is in order, and the configured broker is the one to ask. */
  lemma StartsInOrder(parse: string -> Option<Url>, base: BrokerAddress, options: RetryOptions, world: World<Response>)
    requires !base.proxy
    ensures InOrder(parse, base, world, [], []) && OnTrack(parse, base, [], base, base, false, false)
    ensures Paced(options, 0, 0)
  {
  }

  /** What the loop does about a failed answer that came at time `elapsed`: wait and ask again, or give up. */
  method RetryOrGiveUp(options: RetryOptions, error: Option<ServerError>, retries: nat, elapsed: nat)
    returns (again: bool, retries': nat, elapsed': nat)
    requires Paced(options, retries, elapsed) && WithinBudget(options.maxRetries, retries)
    ensures Paced(options, retries', elapsed') && WithinBudget(options.maxRetries, retries')
    ensures retries' == if again then retries + 1 else retries
    ensures again <==>
              && (error == Some(ServiceNotReady) || error == Some(MetadataError))
              && elapsed < options.operationTimeout
              && (options.maxRetries.Some? ==> retries < options.maxRetries.value)
    ensures !again ==> elapsed' == elapsed
  {
    again, retries', elapsed' := false, retries, elapsed;
    if error == Some(ServiceNotReady) || error == Some(MetadataError) {
      var withinDeadline := elapsed < options.operationTimeout;
      var withinRetryBudget := options.maxRetries.None? || options.maxRetries.value > retries;
      if withinRetryBudget && withinDeadline {
        RetryInTime(options, retries, elapsed);
        again, retries', elapsed' := true, retries + 1, elapsed + options.retryDelay;
      }
    }
  }

  /**
   * One query of the loop, made on `conn`; if that turns out to be disconnected, one more on a new
   * connection for the current broker.
   */
  method Ask(
    world: World<Response>, conn: BrokerAddress, brokerAddress: BrokerAddress, authoritative: bool,
    asked: seq<Asked>, connections: nat, ghost parse: string -> Option<Url>, ghost base: BrokerAddress, chain: seq<Response>)
    returns (response: Option<Response>, asked': seq<Asked>, connections': nat)
    requires InOrder(parse, base, world, chain, asked)
    requires conn == brokerAddress == Target(parse, base, chain) && authoritative == Authority(chain)
    ensures InOrder(parse, base, world, chain, asked')
    ensures |asked| < |asked'|
    ensures response.Some? ==> AnsweredAt(world, asked', response.value, |chain|)
    ensures response.None? ==> !world.connects(connections') || !world.reply(|asked'| - 1).Answer?
  {
    assert chain[..|chain|] == chain;
    response, connections' := None, connections;
    var query := Asked(conn, brokerAddress, authoritative, |chain|);
    StaysGenuine(world, asked, chain, query);
    asked' := asked + [query];
    var reply := world.reply(|asked'| - 1);
    if reply.Disconnected? {
      if !world.connects(connections') {
        return;
      }
      connections' := connections' + 1;
      var again := Asked(brokerAddress, brokerAddress, authoritative, |chain|);
      StaysGenuine(world, asked', chain, again);
      asked' := asked' + [again];
      reply := world.reply(|asked'| - 1);
    }
    if reply.Answer? {
      response := Some(reply.response);
    }
  }

  /** Following an answer that is not a failure: it names the next broker, in the configured scheme. */
  method Follow(
    parse: string -> Option<Url>, base: BrokerAddress, response: Response, proxiedQuery: bool, chain: seq<Response>,
    ghost world: World<Response>, ghost asked: seq<Asked>)
    returns (r: Result<BrokerAddress, LookupError>, authoritative: bool, chain': seq<Response>)
    requires InOrder(parse, base, world, chain, asked)
    requires proxiedQuery == AnyProxy(chain) && !IsFailure(response) && AnsweredAt(world, asked, response, |chain|)
    ensures chain' == if r.Ok? then chain + [response] else chain
    ensures r.Ok? ==> chain'[..|chain'| - 1] == chain && chain'[|chain'| - 1].kind == response.kind
    ensures InOrder(parse, base, world, chain', asked)
    ensures r.Ok? ==> OnTrack(parse, base, chain', r.value, r.value, r.value.proxy, authoritative)
    ensures r.Err? ==> Unusable(parse, base.url, response, r.error)
    ensures r.Ok? ==> Prescribed(parse, base, chain', r.value)
  {
    authoritative, chain' := Flag(response.authoritative), chain;
    var named := Named(parse, base.url, response);
    NamedOrUnusable(parse, base.url, response);
    if named.Err? {
      return Err(named.error), authoritative, chain;
    }
    LongerChain(parse, base, chain, response, asked);
    GenuineStep(world, asked, chain, response);
    var proxy := proxiedQuery || Flag(response.proxy);
    var url := if proxy then base.url else named.value;
    r := Ok(BrokerAddress(url, HostPort(named.value, DefaultPort(base.url)), proxy));
    chain' := chain + [response];
    TargetIsPrescribed(parse, base, chain');
  }

  /**
   * `lookup_topic`, for its first `rounds` rounds. The answers followed, the final one included, are
   * returned as `chain`, and all queries as `asked`, with the connections made and the time spent.
   */
  method LookupTopic(parse: string -> Option<Url>, base: BrokerAddress, options: RetryOptions, world: World<Response>, rounds: nat)
    returns (r: Progress<BrokerAddress>, chain: seq<Response>, asked: seq<Asked>, connections: nat, retries: nat, elapsed: nat)
    requires !base.proxy
    ensures InOrder(parse, base, world, chain, asked)
    ensures Paced(options, retries, elapsed) && WithinBudget(options.maxRetries, retries)
    ensures r.Done? && r.result.Ok? ==>
              && chain != [] && Prescribed(parse, base, chain, r.result.value)
              && AllRedirects(chain[..|chain| - 1]) && chain[|chain| - 1].kind == Some(Connect)
    ensures r.Done? && r.result.Err? ==>
              Explained(parse, base.url, options, world, asked, |chain|, connections, retries, elapsed, r.result.error)
    ensures r.StillRunning? ==> AllRedirects(chain) && retries + |chain| == rounds <= |asked|
  {
    hide Target, Named, AnyProxy, Authority, Genuine, AllWellAsked, AnsweredAt, Paced, Prescribed, Unusable;
    StartsInOrder(parse, base, options, world);
    chain, asked, connections, retries, elapsed := [], [], 0, 0, 0;
    if !world.connects(connections) {
      r := Done(Err(ConnectionFailed));
      return;
    }
    connections := connections + 1;
    var conn, brokerAddress, proxiedQuery, isAuthoritative := base, base, false, false;
    for round := 0 to rounds
      invariant InOrder(parse, base, world, chain, asked)
      invariant OnTrack(parse, base, chain, conn, brokerAddress, proxiedQuery, isAuthoritative)
      invariant AllRedirects(chain)
      invariant Paced(options, retries, elapsed) && WithinBudget(options.maxRetries, retries)
      invariant retries + |chain| == round <= |asked|
    {
      var response;
      response, asked, connections := Ask(world, conn, brokerAddress, isAuthoritative, asked, connections, parse, base, chain);
      if response.None? {
        r := Done(Err(ConnectionFailed));
        return;
      }
      TimePasses(options, retries, elapsed, world.took(round));
      elapsed := elapsed + world.took(round);
      if IsFailure(response.value) {
        var again;
        again, retries, elapsed := RetryOrGiveUp(options, response.value.error, retries, elapsed);
        if again {
          continue;
        }
        r := Done(Err(Query(response.value.error)));
        assert RefusedWith(world, asked, |chain|, response.value.error);
        return;
      }
      var followed;
      followed, isAuthoritative, chain := Follow(parse, base, response.value, proxiedQuery, chain, world, asked);
      if followed.Err? {
        r := Done(Err(followed.error));
        assert UnusableAnswer(parse, base.url, world, asked, |chain|, followed.error);
        return;
      }
      brokerAddress := followed.value;
      if !world.connects(connections) {
        r := Done(Err(ConnectionFailed));
        return;
      }
      connections := connections + 1;
      if response.value.kind != Some(Redirect) {
        assert response.value.kind.value.Connect?;
        r := Done(Ok(brokerAddress));
        return;
      }
      conn := brokerAddress;
      proxiedQuery := brokerAddress.proxy;
    }
    r := StillRunning;
  }

  /** A proxied address goes through the configured URL, a direct one through the URL its broker named. */
  lemma ProxiedAddressUsesBaseUrl(parse: string -> Option<Url>, base: BrokerAddress, chain: seq<Response>)
    requires Followed(parse, base, chain) && chain != [] && !base.proxy
    ensures var a := Target(parse, base, chain);
            && (a.proxy <==> exists r :: r in chain && r.proxy == Some(true))
            && (a.proxy ==> a.url == base.url)
            && var last := chain[|chain| - 1];
               !a.proxy ==> Parsed(parse, if base.url.scheme == "pulsar+ssl" then last.brokerUrlTls else last.brokerUrl) == Some(a.url)
  {
    assert chain[|chain| - 1] in chain;
  }

  // ---------------------------------------------------------------- the number of partitions

  datatype CountResponse = CountResponse(kind: Option<LookupType>, error: Option<ServerError>, partitions: Option<nat>)

  /** A reply after which the loop goes on, by asking once more or by retrying. */
  predicate Passed(reply: Reply<CountResponse>)
  {
    || reply.Disconnected?
    || (reply.Answer?
        && (reply.response.kind.None? || reply.response.kind == Some(LookupFailed))
        && reply.response.error == Some(ServiceNotReady))
  }

  /** Why a count lookup ends with an error. */
  predicate CountFails(
    autoCreate: bool, brokerSupportsQuery: bool, options: RetryOptions, world: World<CountResponse>,
    queries: nat, retries: nat, error: LookupError)
  {
    match error
    case NotSupported => !autoCreate && !brokerSupportsQuery
    case ConnectionFailed => queries == 0 || !world.reply(queries - 1).Answer?
    case Query(e) =>
      && queries > 0 && world.reply(queries - 1).Answer?
      && var last := world.reply(queries - 1).response;
         && last.error == e
         && if last.kind.None? || last.kind == Some(LookupFailed)
            then e == Some(ServiceNotReady) ==> !AllowRetry(options.maxRetries, retries)
            else last.partitions.None?
    case _ => false
  }

  /**
   * `lookup_partitioned_topic_number_with_options`, for its first `rounds` rounds. There is no time
   * limit here: only the retry budget, if one is configured, ends a lookup the broker keeps refusing.
   */
  method LookupPartitionCount(
    topic: string, autoCreate: bool, brokerSupportsQuery: bool, options: RetryOptions, world: World<CountResponse>, rounds: nat)
    returns (r: Progress<nat>, queries: nat, retries: nat)
    ensures WithinBudget(options.maxRetries, retries) && retries <= queries
    ensures autoCreate && IsPartitionName(topic) ==> r == Done(Ok(0)) && queries == 0
    ensures !autoCreate && !brokerSupportsQuery ==> queries == 0 && !(r.Done? && r.result.Ok?)
    ensures r.Done? && r.result.Ok? && !(autoCreate && IsPartitionName(topic)) ==>
              && queries > 0 && world.reply(queries - 1).Answer?
              && var last := world.reply(queries - 1).response;
                 last.kind.Some? && last.kind != Some(LookupFailed) && last.partitions == Some(r.result.value)
    ensures r.Done? && r.result.Err? ==> CountFails(autoCreate, brokerSupportsQuery, options, world, queries, retries, r.result.error)
    ensures forall k :: 0 <= k < queries - 1 ==> Passed(world.reply(k))
    ensures r.StillRunning? ==> retries == rounds
  {
    queries, retries := 0, 0;
    if autoCreate && IsPartitionName(topic) {
      return Done(Ok(0)), queries, retries;
    }
    var connections := 0;
    if !world.connects(connections) {
      return Done(Err(ConnectionFailed)), queries, retries;
    }
    connections := connections + 1;
    for round := 0 to rounds
      invariant retries == round && WithinBudget(options.maxRetries, retries) && retries <= queries
      invariant !autoCreate && !brokerSupportsQuery ==> queries == 0 && round == 0
      invariant forall k :: 0 <= k < queries ==> Passed(world.reply(k))
    {
      if !autoCreate && !brokerSupportsQuery {
        return Done(Err(NotSupported)), queries, retries;
      }
      var reply := world.reply(queries);
      queries := queries + 1;
      if reply.QueryFailed? {
        return Done(Err(ConnectionFailed)), queries, retries;
      }
      if reply.Disconnected? {
        if !world.connects(connections) {
          return Done(Err(ConnectionFailed)), queries, retries;
        }
        connections := connections + 1;
        reply := world.reply(queries);
        queries := queries + 1;
        if !reply.Answer? {
          return Done(Err(ConnectionFailed)), queries, retries;
        }
      }
      var response := reply.response;
      if response.kind.None? || response.kind == Some(LookupFailed) {
        if response.error == Some(ServiceNotReady) && (options.maxRetries.None? || options.maxRetries.value > retries) {
          retries := retries + 1;
          continue;
        }
        return Done(Err(Query(response.error))), queries, retries;
      }
      if response.partitions.Some? {
        return Done(Ok(response.partitions.value)), queries, retries;
      }
      return Done(Err(Query(response.error))), queries, retries;
    }
    r := StillRunning;
  }
}
