/**
 The gateway client's route cache.

 A call to a peer first tries the route that worked last time, then the direct path, then
 each bootstrap peer as a proxy, and remembers the first route that works. `Plan` lists the
 attempts a call may make, in order; the class makes them one by one. A network is an arbitrary
 oracle that says how each attempt ends; it may change from attempt to attempt.
 */
module RouteCache {
  import opened Mesh
  import opened Text
  import Protocol

  datatype Config = Config(names: Names, self: Id, bootstrap: seq<Id>) {
    // The configured bootstrap peers have well-formed ids, or the empty one, which is skipped.
    ghost predicate Valid() {
      names.RoundTrips() && forall b :: b in bootstrap && b != "" ==> names.wellFormed(b)
    }
  }

  datatype Route = Direct | Via(proxy: Id)

  datatype Try<R> = Worked(response: R) | Broke(error: string)

  // How the attempt with a given number within a call, over a route, to a peer, ends.
  type Network<!R> = (nat, Route, Id) -> Try<R>

  const DIRECT: string := "direct"
  const PROXY: string := "proxy:"

  function Written(names: Names, r: Route): string {
    match r
    case Direct => DIRECT
    case Via(proxy) => PROXY + names.encode(proxy)
  }

  // What a cache entry says, if it says anything.
  function ReadRoute(names: Names, entry: string): Option<Route> {
    if entry == DIRECT then Some(Direct)
    else if PROXY <= entry && names.decode(entry[|PROXY|..]).Some? then Some(Via(names.decode(entry[|PROXY|..]).value))
    else None
  }

  lemma {:induction false} WrittenReads(names: Names, r: Route)
    requires names.RoundTrips() && (r.Via? ==> names.wellFormed(r.proxy))
    ensures ReadRoute(names, Written(names, r)) == Some(r)
  {
    if r.Via? {
      var entry := PROXY + names.encode(r.proxy);
      assert entry[|PROXY|..] == names.encode(r.proxy);
      assert entry[0] == 'p' && DIRECT[0] == 'd';
    }
  }

  predicate Eligible(cfg: Config, pid: Id, proxy: Id) {
    proxy != "" && proxy != cfg.self && proxy != pid
  }

  function Proxies(cfg: Config, pid: Id, candidates: seq<Id>): seq<Route> {
    if candidates == [] then []
    else (if Eligible(cfg, pid, candidates[0]) then [Via(candidates[0])] else []) + Proxies(cfg, pid, candidates[1..])
  }

  // The attempts of a call that finds nothing in the cache.
  function Search(cfg: Config, pid: Id): seq<Route> {
    [Direct] + Proxies(cfg, pid, cfg.bootstrap)
  }

  type Routes = map<string, string>

  function Cached(cfg: Config, routes: Routes, pid: Id): seq<Route> {
    var key := cfg.names.encode(pid);
    if key in routes && ReadRoute(cfg.names, routes[key]).Some? then [ReadRoute(cfg.names, routes[key]).value] else []
  }

  function Plan(cfg: Config, routes: Routes, pid: Id): seq<Route> {
    Cached(cfg, routes, pid) + Search(cfg, pid)
  }

  // The first attempt of a plan that works, when its attempts are numbered from `k`.
  function FirstWorking<R>(net: Network<R>, pid: Id, plan: seq<Route>, k: nat): Option<nat> {
    if plan == [] then None
    else if net(k, plan[0], pid).Worked? then Some(0)
    else
      var r := FirstWorking(net, pid, plan[1..], k + 1);
      if r.None? then None else Some(r.value + 1)
  }

  lemma {:induction false} FirstWorkingIsFirst<R>(net: Network<R>, pid: Id, plan: seq<Route>, k: nat)
    ensures match FirstWorking(net, pid, plan, k)
            case None => forall i :: 0 <= i < |plan| ==> net(k + i, plan[i], pid).Broke?
            case Some(n) =>
              && n < |plan| && net(k + n, plan[n], pid).Worked?
              && forall i :: 0 <= i < n ==> net(k + i, plan[i], pid).Broke?
    decreases plan
  {
    if plan != [] && net(k, plan[0], pid).Broke? {
      FirstWorkingIsFirst(net, pid, plan[1..], k + 1);
      assert forall i :: 0 < i < |plan| ==> plan[i] == plan[1..][i - 1] && k + i == (k + 1) + (i - 1);
    }
  }

  datatype Outcome<R> = Outcome(result: Try<R>, attempts: seq<Route>, routes: Routes)

  // What a call does: it tries its plan in order up to the first attempt that works, and
  // remembers that route unless it was the remembered one. If none works, the error is the last
  // proxy's, or that there is no route.
  function Called<R>(cfg: Config, net: Network<R>, routes: Routes, pid: Id): Outcome<R> {
    Finish(cfg, net, routes, pid, Plan(cfg, routes, pid), |Cached(cfg, routes, pid)|)
  }

  // The same for any plan whose first `known` attempts come from the cache.
  function Finish<R>(cfg: Config, net: Network<R>, routes: Routes, pid: Id, plan: seq<Route>, known: nat): Outcome<R> {
    FirstWorkingIsFirst(net, pid, plan, 0);
    match FirstWorking(net, pid, plan, 0)
    case Some(n) =>
      Outcome(net(n, plan[n], pid), plan[..n + 1],
              if n < known then routes else routes[cfg.names.encode(pid) := Written(cfg.names, plan[n])])
    case None =>
      Outcome(if |plan| > known + 1 then LastTry(net, pid, plan) else NoRoute(cfg, pid), plan, routes)
  }

  ghost predicate AllBroke<R>(net: Network<R>, pid: Id, attempts: seq<Route>) {
    forall j :: 0 <= j < |attempts| ==> net(j, attempts[j], pid).Broke?
  }

  function LastTry<R>(net: Network<R>, pid: Id, attempts: seq<Route>): Try<R> {
    if attempts == [] then Broke("") else net(|attempts| - 1, attempts[|attempts| - 1], pid)
  }

  function NoRoute<R>(cfg: Config, pid: Id): Try<R> {
    Broke("no route to peer " + cfg.names.encode(pid))
  }

  // How a call ends once its attempts are known.
  lemma {:induction false} EndsInSuccess<R>(cfg: Config, net: Network<R>, routes: Routes, pid: Id, plan: seq<Route>,
                                            known: nat, attempts: seq<Route>)
    requires attempts <= plan && attempts != []
    requires AllBroke(net, pid, attempts[..|attempts| - 1]) && LastTry(net, pid, attempts).Worked?
    ensures Finish(cfg, net, routes, pid, plan, known) ==
            Outcome(LastTry(net, pid, attempts), attempts,
                    if |attempts| <= known then routes
                    else routes[cfg.names.encode(pid) := Written(cfg.names, attempts[|attempts| - 1])])
  {
    FirstWorkingIsFirst(net, pid, plan, 0);
    var n := |attempts| - 1;
    assert forall j :: 0 <= j <= n ==> plan[j] == attempts[j];
    assert forall j :: 0 <= j < n ==> attempts[..n][j] == attempts[j];
    assert net(0 + n, plan[n], pid).Worked?;
    assert plan[..n + 1] == attempts;
  }

  lemma {:induction false} EndsInFailure<R>(cfg: Config, net: Network<R>, routes: Routes, pid: Id, plan: seq<Route>,
                                            known: nat)
    requires AllBroke(net, pid, plan)
    ensures Finish(cfg, net, routes, pid, plan, known) ==
            Outcome(if |plan| > known + 1 then LastTry(net, pid, plan) else NoRoute(cfg, pid), plan, routes)
  {
    FirstWorkingIsFirst(net, pid, plan, 0);
  }

  lemma {:induction false} OneMoreBroke<R>(net: Network<R>, pid: Id, attempts: seq<Route>, r: Route)
    requires AllBroke(net, pid, attempts)
    ensures LastTry(net, pid, attempts + [r]) == net(|attempts|, r, pid)
    ensures (attempts + [r])[..|attempts|] == attempts
    ensures net(|attempts|, r, pid).Broke? ==> AllBroke(net, pid, attempts + [r])
  {
  }

  lemma {:induction false} ProxiesStep(cfg: Config, pid: Id, i: nat, attempts: seq<Route>)
    requires i < |cfg.bootstrap|
    ensures attempts + Proxies(cfg, pid, cfg.bootstrap[i..]) ==
            (if Eligible(cfg, pid, cfg.bootstrap[i]) then attempts + [Via(cfg.bootstrap[i])] else attempts)
            + Proxies(cfg, pid, cfg.bootstrap[i + 1..])
  {
    assert cfg.bootstrap[i..][1..] == cfg.bootstrap[i + 1..];
  }

  // The last part of a gateway URL is the encoded peer id.
  function LastPart(s: string): string {
    if s == [] then []
    else if s[|s| - 1] == '/' then []
    else LastPart(s[..|s| - 1]) + [s[|s| - 1]]
  }

  function PeerOfGateway(names: Names, url: string): Option<Id> {
    var part := LastPart(TrimSpace(url));
    if part == "" then None else names.decode(part)
  }

  // Space around a URL does not matter, and a URL whose last part is empty names nobody.
  lemma {:induction false} GatewayIsTrimmed(names: Names, url: string)
    requires url != "" && !IsSpace(url[0]) && !IsSpace(url[|url| - 1])
    ensures PeerOfGateway(names, " " + url) == PeerOfGateway(names, url + "\n") == PeerOfGateway(names, url)
    ensures url[|url| - 1] == '/' ==> PeerOfGateway(names, url).None?
  {
    TrimKeeps(url);
    TrimDropsBlank(url);
  }

  const INVALID_GATEWAY: string := "invalid gateway peer id"

  lemma {:induction false} LastPartOf(prefix: string, last: string)
    requires '/' !in last
    ensures LastPart(prefix + "/" + last) == last
  {
    var s := prefix + "/" + last;
    if last == [] {
      assert s[|s| - 1] == '/';
    } else {
      var n := |last| - 1;
      assert s[..|s| - 1] == prefix + "/" + last[..n];
      LastPartOf(prefix, last[..n]);
      assert last[..n] + [last[n]] == last;
    }
  }

  // The last part has no slash, and nothing is before it but a part that ends with one.
  lemma {:induction false} LastPartIsLast(s: string)
    ensures var part := LastPart(s);
            '/' !in part && |part| <= |s| && s[|s| - |part|..] == part
            && (|part| < |s| ==> s[|s| - |part| - 1] == '/')
  {
    if s == [] || s[|s| - 1] == '/' {
    } else {
      var n := |s| - 1;
      LastPartIsLast(s[..n]);
      assert s == s[..n] + [s[n]];
    }
  }

  // A gateway URL that ends with an encoded peer id names that peer.
  lemma {:induction false} GatewayNamesPeer(names: Names, prefix: string, pid: Id)
    requires names.RoundTrips() && names.wellFormed(pid)
    requires var id := names.encode(pid); id != "" && '/' !in id && !IsSpace(id[|id| - 1])
    requires prefix != "" && !IsSpace(prefix[0])
    ensures PeerOfGateway(names, prefix + "/" + names.encode(pid)) == Some(pid)
  {
    var url := prefix + "/" + names.encode(pid);
    TrimKeeps(url);
    LastPartOf(prefix, names.encode(pid));
  }

  class GatewayClient<R> {
    const cfg: Config
    var routes: Routes

    constructor (cfg: Config)
      ensures this.cfg == cfg && routes == map[]
    {
      this.cfg := cfg;
      routes := map[];
    }

    method GetRoute(pid: Id) returns (entry: Option<string>)
      ensures entry == if cfg.names.encode(pid) in routes then Some(routes[cfg.names.encode(pid)]) else None
    {
      var key := cfg.names.encode(pid);
      if key in routes {
        return Some(routes[key]);
      }
      return None;
    }

    method SetRoute(pid: Id, route: string)
      modifies this
      ensures routes == old(routes)[cfg.names.encode(pid) := route]
    {
      routes := routes[cfg.names.encode(pid) := route];
    }

    // The network carries the request with the client's context in its metadata.
    method Infer(net: Request -> Network<R>, gatewayURL: string, req: Request, ctx: PeerContext)
      returns (result: Try<R>, attempts: seq<Route>)
      modifies this
      ensures match PeerOfGateway(cfg.names, gatewayURL)
              case None => result.Broke? && attempts == [] && routes == old(routes)
              case Some(pid) =>
                Outcome(result, attempts, routes) == Called(cfg, net(Protocol.WithContext(req, ctx)), old(routes), pid)
    {
      var pid := PeerOfGateway(cfg.names, gatewayURL);
      if pid.None? {
        return Broke(INVALID_GATEWAY), [];
      }
      var metadata := req.metadata;
      if ctx.clientPeer != "" {
        metadata := metadata[CLIENT_PEER_HEADER := ctx.clientPeer];
      }
      if ctx.clientName != "" {
        metadata := metadata[CLIENT_NAME_HEADER := ctx.clientName];
      }
      metadata := metadata[POW_NONCE_HEADER := Decimal(ctx.nonce)];
      result, attempts := InferPeer(net(req.(metadata := metadata)), pid.value);
    }

    method InferPeer(net: Network<R>, pid: Id) returns (result: Try<R>, attempts: seq<Route>)
      modifies this
      ensures Outcome(result, attempts, routes) == Called(cfg, net, old(routes), pid)
    {
      ghost var known := Cached(cfg, routes, pid);
      ghost var plan := Plan(cfg, routes, pid);
      assert plan == (known + [Direct]) + Proxies(cfg, pid, cfg.bootstrap);
      attempts := [];
      var entry := GetRoute(pid);
      if entry.Some? {
        var cached := ReadRoute(cfg.names, entry.value);
        if cached.Some? {
          attempts := [cached.value];
          var r := net(0, cached.value, pid);
          if r.Worked? {
            EndsInSuccess(cfg, net, routes, pid, plan, |known|, attempts);
            return r, attempts;
          }
        }
      }
      assert attempts == known;
      result, attempts := Explore(net, pid, plan, attempts);
    }

    method Explore(net: Network<R>, pid: Id, ghost plan: seq<Route>, known: seq<Route>)
      returns (result: Try<R>, attempts: seq<Route>)
      requires plan == (known + [Direct]) + Proxies(cfg, pid, cfg.bootstrap)
      requires AllBroke(net, pid, known)
      modifies this
      ensures Outcome(result, attempts, routes) == Finish(cfg, net, old(routes), pid, plan, |known|)
    {
      var d := net(|known|, Direct, pid);
      attempts := known + [Direct];
      if d.Worked? {
        assert attempts[..|attempts| - 1] == known;
        EndsInSuccess(cfg, net, routes, pid, plan, |known|, attempts);
        SetRoute(pid, Written(cfg.names, Direct));
        return d, attempts;
      }
      result, attempts := TryProxies(net, pid, plan, attempts);
      if result.Worked? {
        EndsInSuccess(cfg, net, old(routes), pid, plan, |known|, attempts);
      } else {
        EndsInFailure(cfg, net, old(routes), pid, plan, |known|);
      }
    }

    method TryProxies(net: Network<R>, pid: Id, ghost plan: seq<Route>, before: seq<Route>)
      returns (result: Try<R>, attempts: seq<Route>)
      requires plan == before + Proxies(cfg, pid, cfg.bootstrap)
      requires AllBroke(net, pid, before)
      modifies this
      ensures before <= attempts <= plan
      ensures result.Worked? ==>
                && |before| < |attempts|
                && AllBroke(net, pid, attempts[..|attempts| - 1])
                && result == LastTry(net, pid, attempts)
                && routes == old(routes)[cfg.names.encode(pid) := Written(cfg.names, attempts[|attempts| - 1])]
      ensures result.Broke? ==>
                && attempts == plan && AllBroke(net, pid, plan) && routes == old(routes)
                && result == if plan != before then LastTry(net, pid, plan) else NoRoute(cfg, pid)
    {
      attempts := before;
      var lastErr: Option<Try<R>> := None;
      var i := 0;
      assert cfg.bootstrap[0..] == cfg.bootstrap;
      while i < |cfg.bootstrap|
        invariant 0 <= i <= |cfg.bootstrap|
        invariant before <= attempts
        invariant plan == attempts + Proxies(cfg, pid, cfg.bootstrap[i..])
        invariant AllBroke(net, pid, attempts)
        invariant lastErr == if |attempts| == |before| then None else Some(LastTry(net, pid, attempts))
        invariant routes == old(routes)
      {
        var bp := cfg.bootstrap[i];
        ProxiesStep(cfg, pid, i, attempts);
        i := i + 1;
        if !Eligible(cfg, pid, bp) {
          continue;
        }
        var r := net(|attempts|, Via(bp), pid);
        OneMoreBroke(net, pid, attempts, Via(bp));
        attempts := attempts + [Via(bp)];
        if r.Worked? {
          SetRoute(pid, Written(cfg.names, Via(bp)));
          return r, attempts;
        }
        lastErr := Some(r);
      }
      assert plan == attempts;
      if lastErr.Some? {
        return lastErr.value, attempts;
      }
      return NoRoute(cfg, pid), attempts;
    }
  }

  /// The cache changes nothing but the work

  // Every entry is a route the search for that peer would try.
  ghost predicate Sound(cfg: Config, routes: Routes) {
    forall pid :: cfg.names.wellFormed(pid) && cfg.names.encode(pid) in routes ==>
                    exists r :: r in Search(cfg, pid) && routes[cfg.names.encode(pid)] == Written(cfg.names, r)
  }

  ghost predicate Fixed<R>(net: Network<R>) {
    forall j: nat, k: nat, r, pid :: net(j, r, pid) == net(k, r, pid)
  }

  lemma {:induction false} ProxiesEligible(cfg: Config, pid: Id, candidates: seq<Id>)
    ensures forall r :: r in Proxies(cfg, pid, candidates) <==> r.Via? && r.proxy in candidates && Eligible(cfg, pid, r.proxy)
    ensures |Proxies(cfg, pid, candidates)| <= |candidates|
  {
    if candidates == [] {
    } else {
      ProxiesEligible(cfg, pid, candidates[1..]);
      assert candidates == [candidates[0]] + candidates[1..];
    }
  }

  // The search tries the direct path first, and as proxies exactly the bootstrap peers with an id
  // that are neither this node nor the target.
  lemma {:induction false} SearchIsExact(cfg: Config, pid: Id, r: Route)
    ensures Search(cfg, pid)[0] == Direct
    ensures r in Search(cfg, pid) <==>
            match r
            case Direct => true
            case Via(b) => b in cfg.bootstrap && b != "" && b != cfg.self && b != pid
  {
    ProxiesEligible(cfg, pid, cfg.bootstrap);
    var search := Search(cfg, pid);
    assert search[0] == Direct;
    assert r in search <==> r == Direct || r in Proxies(cfg, pid, cfg.bootstrap);
  }

  // The proxies come in the order of the configuration.
  lemma {:induction false} ProxiesInOrder(cfg: Config, pid: Id, before: seq<Id>, after: seq<Id>)
    ensures Proxies(cfg, pid, before + after) == Proxies(cfg, pid, before) + Proxies(cfg, pid, after)
  {
    if before == [] {
      assert before + after == after;
    } else {
      assert (before + after)[1..] == before[1..] + after;
      ProxiesInOrder(cfg, pid, before[1..], after);
    }
  }

  lemma {:induction false} SearchIsWellFormed(cfg: Config, pid: Id)
    requires cfg.Valid()
    ensures forall r :: r in Search(cfg, pid) && r.Via? ==> cfg.names.wellFormed(r.proxy)
  {
    ProxiesEligible(cfg, pid, cfg.bootstrap);
  }

  lemma {:induction false} CachedIsSought(cfg: Config, routes: Routes, pid: Id)
    requires cfg.Valid() && cfg.names.wellFormed(pid) && Sound(cfg, routes)
    ensures cfg.names.encode(pid) in routes <==> Cached(cfg, routes, pid) != []
    ensures forall r :: r in Cached(cfg, routes, pid) ==> r in Search(cfg, pid)
  {
    var key := cfg.names.encode(pid);
    if key in routes {
      var r :| r in Search(cfg, pid) && routes[key] == Written(cfg.names, r);
      SearchIsWellFormed(cfg, pid);
      WrittenReads(cfg.names, r);
    }
  }

  // On a network that does not change during the call, and with any sound cache, a call succeeds
  // exactly when the direct path or some eligible bootstrap peer works: the cache makes no difference.
  lemma {:induction false} CacheRefinesSearch<R>(cfg: Config, net: Network<R>, routes: Routes, pid: Id)
    requires cfg.Valid() && cfg.names.wellFormed(pid) && Sound(cfg, routes) && Fixed(net)
    ensures Called(cfg, net, routes, pid).result.Worked? <==>
            || net(0, Direct, pid).Worked?
            || exists bp :: bp in cfg.bootstrap && bp != "" && bp != cfg.self && bp != pid && net(0, Via(bp), pid).Worked?
    ensures Called(cfg, net, routes, pid).result.Worked? <==> Called(cfg, net, map[], pid).result.Worked?
  {
    WorksIffSearchWorks(cfg, net, routes, pid);
    WorksIffSearchWorks(cfg, net, map[], pid);
    if exists r :: r in Search(cfg, pid) && net(0, r, pid).Worked? {
      var r :| r in Search(cfg, pid) && net(0, r, pid).Worked?;
      SearchIsExact(cfg, pid, r);
      assert r == Direct || r == Via(r.proxy);
    }
    forall bp | bp in cfg.bootstrap && bp != "" && bp != cfg.self && bp != pid
      ensures Via(bp) in Search(cfg, pid)
    {
      SearchIsExact(cfg, pid, Via(bp));
    }
    SearchIsExact(cfg, pid, Direct);
  }

  lemma {:induction false} WorksIffSearchWorks<R>(cfg: Config, net: Network<R>, routes: Routes, pid: Id)
    requires cfg.Valid() && cfg.names.wellFormed(pid) && Sound(cfg, routes) && Fixed(net)
    ensures Called(cfg, net, routes, pid).result.Worked? <==> exists r :: r in Search(cfg, pid) && net(0, r, pid).Worked?
  {
    var plan := Plan(cfg, routes, pid);
    CachedIsSought(cfg, routes, pid);
    FirstWorkingIsFirst(net, pid, plan, 0);
    match FirstWorking(net, pid, plan, 0) {
      case Some(n) =>
        assert plan[n] in Search(cfg, pid);
        assert net(0, plan[n], pid) == net(n, plan[n], pid);
      case None =>
        forall r | r in Search(cfg, pid)
          ensures net(0, r, pid).Broke?
        {
          assert r in plan;
          var i :| 0 <= i < |plan| && plan[i] == r;
          assert net(0 + i, plan[i], pid).Broke?;
        }
    }
  }

  // Whatever the network does, a success is the answer of an attempt that was made, every earlier
  // attempt failed, and a call makes at most two attempts more than there are eligible
  // bootstrap peers.
  lemma {:induction false} CallIsHonest<R>(cfg: Config, net: Network<R>, routes: Routes, pid: Id)
    ensures Honest(net, pid, Plan(cfg, routes, pid), Called(cfg, net, routes, pid))
    ensures |Called(cfg, net, routes, pid).attempts| <= 2 + |Proxies(cfg, pid, cfg.bootstrap)|
  {
    FinishIsHonest(cfg, net, routes, pid, Plan(cfg, routes, pid), |Cached(cfg, routes, pid)|);
    assert |Plan(cfg, routes, pid)| <= 2 + |Proxies(cfg, pid, cfg.bootstrap)|;
  }

  ghost predicate Honest<R>(net: Network<R>, pid: Id, plan: seq<Route>, o: Outcome<R>) {
    && o.attempts <= plan && o.attempts != []
    && (forall i :: 0 <= i < |o.attempts| - 1 ==> net(i, o.attempts[i], pid).Broke?)
    && (o.result.Worked? ==> o.result == net(|o.attempts| - 1, o.attempts[|o.attempts| - 1], pid))
    && (o.result.Broke? ==> o.attempts == plan)
    && (o.result.Broke? <==> net(|o.attempts| - 1, o.attempts[|o.attempts| - 1], pid).Broke?)
  }

  lemma {:induction false} FinishIsHonest<R>(cfg: Config, net: Network<R>, routes: Routes, pid: Id, plan: seq<Route>, known: nat)
    requires plan != []
    ensures Honest(net, pid, plan, Finish(cfg, net, routes, pid, plan, known))
  {
    FirstWorkingIsFirst(net, pid, plan, 0);
    var o := Finish(cfg, net, routes, pid, plan, known);
    match FirstWorking(net, pid, plan, 0) {
      case Some(n) => assert net(0 + n, plan[n], pid).Worked? && o.attempts[n] == plan[n];
      case None => assert net(0 + (|plan| - 1), plan[|plan| - 1], pid).Broke?;
    }
  }

  lemma {:induction false} NoProxies(cfg: Config, pid: Id, candidates: seq<Id>)
    requires forall b :: b in candidates ==> b == "" || b == cfg.self || b == pid
    ensures Proxies(cfg, pid, candidates) == []
  {
    if candidates == [] {
    } else {
      assert candidates[0] in candidates && forall b :: b in candidates[1..] ==> b in candidates;
      NoProxies(cfg, pid, candidates[1..]);
    }
  }

  // A call that fails reports the last proxy's error, or that there is no route if there is no proxy.
  lemma {:induction false} FailureIsLastError<R>(cfg: Config, net: Network<R>, routes: Routes, pid: Id)
    requires Called(cfg, net, routes, pid).result.Broke?
    ensures var o := Called(cfg, net, routes, pid);
            if exists b :: b in cfg.bootstrap && b != "" && b != cfg.self && b != pid
            then o.attempts != [] && o.attempts[|o.attempts| - 1].Via?
                 && o.result == net(|o.attempts| - 1, o.attempts[|o.attempts| - 1], pid)
            else o.result == Broke("no route to peer " + cfg.names.encode(pid))
  {
    var plan, known := Plan(cfg, routes, pid), Cached(cfg, routes, pid);
    var proxies := Proxies(cfg, pid, cfg.bootstrap);
    ProxiesEligible(cfg, pid, cfg.bootstrap);
    FinishFails(cfg, net, routes, pid, plan, |known|);
    if exists b :: b in cfg.bootstrap && b != "" && b != cfg.self && b != pid {
      var b :| b in cfg.bootstrap && b != "" && b != cfg.self && b != pid;
      assert Via(b) in proxies;
      assert plan[|plan| - 1] == proxies[|proxies| - 1];
      assert plan[|plan| - 1] in proxies;
    } else {
      NoProxies(cfg, pid, cfg.bootstrap);
    }
  }

  lemma {:induction false} FinishFails<R>(cfg: Config, net: Network<R>, routes: Routes, pid: Id, plan: seq<Route>, known: nat)
    requires Finish(cfg, net, routes, pid, plan, known).result.Broke?
    ensures Finish(cfg, net, routes, pid, plan, known) ==
            Outcome(if |plan| > known + 1 then LastTry(net, pid, plan) else NoRoute(cfg, pid), plan, routes)
  {
    FirstWorkingIsFirst(net, pid, plan, 0);
  }

  // If every attempt that gets through has the same answer and every other fails, a call works
  // exactly when that answer is a success and some attempt of its plan gets through.
  lemma {:induction false} OneAnswer<R>(cfg: Config, net: Network<R>, routes: Routes, pid: Id, answer: Try<R>,
                                        through: (nat, Route) -> bool)
    requires forall k: nat, r :: if through(k, r) then net(k, r, pid) == answer else net(k, r, pid).Broke?
    ensures var result := Called(cfg, net, routes, pid).result;
            var plan := Plan(cfg, routes, pid);
            && (result.Worked? ==> result == answer)
            && (result.Worked? <==> answer.Worked? && exists k :: 0 <= k < |plan| && through(k, plan[k]))
  {
    var plan := Plan(cfg, routes, pid);
    FirstWorkingIsFirst(net, pid, plan, 0);
    match FirstWorking(net, pid, plan, 0) {
      case Some(n) => assert net(0 + n, plan[n], pid).Worked?;
      case None => assert forall k :: 0 <= k < |plan| ==> net(0 + k, plan[k], pid).Broke?;
    }
  }

  // Every call leaves a sound cache sound; and storing a route of the search, at any moment, does too.
  lemma {:induction false} StoreKeepsSound(cfg: Config, routes: Routes, pid: Id, r: Route)
    requires cfg.Valid() && cfg.names.wellFormed(pid) && Sound(cfg, routes) && r in Search(cfg, pid)
    ensures Sound(cfg, routes[cfg.names.encode(pid) := Written(cfg.names, r)])
  {
    var key := cfg.names.encode(pid);
    forall p | cfg.names.wellFormed(p) && cfg.names.encode(p) in routes[key := Written(cfg.names, r)]
      ensures exists q :: q in Search(cfg, p) && routes[key := Written(cfg.names, r)][cfg.names.encode(p)] == Written(cfg.names, q)
    {
      if cfg.names.encode(p) == key {
        assert cfg.names.decode(key) == Some(p) == Some(pid);
        assert r in Search(cfg, p);
      }
    }
  }

  lemma {:induction false} CallKeepsSound<R>(cfg: Config, net: Network<R>, routes: Routes, pid: Id)
    requires cfg.Valid() && cfg.names.wellFormed(pid) && Sound(cfg, routes)
    ensures Sound(cfg, Called(cfg, net, routes, pid).routes)
  {
    var plan := Plan(cfg, routes, pid);
    FirstWorkingIsFirst(net, pid, plan, 0);
    CachedIsSought(cfg, routes, pid);
    var first := FirstWorking(net, pid, plan, 0);
    if first.Some? {
      StoreKeepsSound(cfg, routes, pid, plan[first.value]);
    }
  }

  lemma {:induction false} StoredIsRead(cfg: Config, routes: Routes, pid: Id, r: Route)
    requires cfg.names.RoundTrips() && (r.Via? ==> cfg.names.wellFormed(r.proxy))
    ensures Cached(cfg, routes[cfg.names.encode(pid) := Written(cfg.names, r)], pid) == [r]
  {
    WrittenReads(cfg.names, r);
  }

  // What a success leaves in the cache: what was there, if the route was known, or else the route.
  lemma {:induction false} FinishStores<R>(cfg: Config, net: Network<R>, routes: Routes, pid: Id, plan: seq<Route>, known: nat)
    requires Finish(cfg, net, routes, pid, plan, known).result.Worked?
    ensures var o := Finish(cfg, net, routes, pid, plan, known);
            && o.attempts != [] && o.attempts <= plan
            && o.routes == if |o.attempts| <= known then routes
                           else routes[cfg.names.encode(pid) := Written(cfg.names, o.attempts[|o.attempts| - 1])]
  {
    FirstWorkingIsFirst(net, pid, plan, 0);
  }

  // After a success the cache holds the route that worked.
  lemma {:induction false} SuccessIsCached<R>(cfg: Config, net: Network<R>, routes: Routes, pid: Id)
    requires cfg.Valid() && cfg.names.wellFormed(pid)
    requires Called(cfg, net, routes, pid).result.Worked?
    ensures var first := Called(cfg, net, routes, pid);
            first.attempts != [] && Cached(cfg, first.routes, pid) == [first.attempts[|first.attempts| - 1]]
  {
    var plan, known := Plan(cfg, routes, pid), Cached(cfg, routes, pid);
    FinishStores(cfg, net, routes, pid, plan, |known|);
    var attempts := Finish(cfg, net, routes, pid, plan, |known|).attempts;
    var last := |attempts| - 1;
    assert attempts[last] == plan[last];
    if last < |known| {
      assert known == [plan[last]];
    } else {
      PlannedIsWellFormed(cfg, routes, pid, last);
      StoredIsRead(cfg, routes, pid, plan[last]);
    }
  }

  lemma {:induction false} PlannedIsWellFormed(cfg: Config, routes: Routes, pid: Id, n: nat)
    requires cfg.Valid() && |Cached(cfg, routes, pid)| <= n < |Plan(cfg, routes, pid)|
    ensures var r := Plan(cfg, routes, pid)[n]; r.Via? ==> cfg.names.wellFormed(r.proxy)
  {
    SearchIsWellFormed(cfg, pid);
    assert Plan(cfg, routes, pid)[n] == Search(cfg, pid)[n - |Cached(cfg, routes, pid)|];
  }

  // A plan whose first attempt, from the cache, works makes that attempt only.
  lemma {:induction false} KnownRouteSuffices<R>(cfg: Config, net: Network<R>, routes: Routes, pid: Id, plan: seq<Route>, known: nat)
    requires plan != [] && known > 0 && net(0, plan[0], pid).Worked?
    ensures Finish(cfg, net, routes, pid, plan, known) == Outcome(net(0, plan[0], pid), [plan[0]], routes)
  {
    assert plan[..1] == [plan[0]];
  }

  // After a success, the same call on an unchanged network makes exactly one attempt and gets
  // the same answer.
  lemma {:induction false} RepeatIsOneAttempt<R>(cfg: Config, net: Network<R>, routes: Routes, pid: Id)
    requires cfg.Valid() && cfg.names.wellFormed(pid) && Fixed(net)
    requires Called(cfg, net, routes, pid).result.Worked?
    ensures var first := Called(cfg, net, routes, pid);
            var again := Called(cfg, net, first.routes, pid);
            && first.attempts != [] && again.result == first.result
            && again.attempts == [first.attempts[|first.attempts| - 1]]
            && again.routes == first.routes
  {
    var first := Called(cfg, net, routes, pid);
    var last := |first.attempts| - 1;
    CallIsHonest(cfg, net, routes, pid);
    SuccessIsCached(cfg, net, routes, pid);
    assert net(0, first.attempts[last], pid) == net(last, first.attempts[last], pid);
    KnownRouteSuffices(cfg, net, first.routes, pid, Plan(cfg, first.routes, pid), 1);
  }

  /// Interleaved calls

  // Reading an entry and storing one are critical sections of their own, and any number of calls may
  // run between them. `Phase` is the program counter of one call.
  datatype Phase<!R> =
    | Looking
    | Trying(plan: seq<Route>, known: nat, k: nat)
    | Storing(route: Route, response: Try<R>)
    | Done(result: Try<R>)

  datatype Call<!R> = Call(pid: Id, phase: Phase<R>)

  // `worked` collects the routes that have ever carried an attempt.
  datatype System<!R> = System(routes: Routes, worked: set<(Id, Route)>, calls: map<nat, Call<R>>)

  datatype Event<!R> = Enter(id: nat, gatewayURL: string) | Go(id: nat, reply: Try<R>)

  // The next atomic step of a call; `reply` is how an attempt ends.
  function Advance<R>(cfg: Config, routes: Routes, pid: Id, p: Phase<R>, reply: Try<R>): (Routes, Phase<R>) {
    match p
    case Looking => (routes, Trying(Plan(cfg, routes, pid), |Cached(cfg, routes, pid)|, 0))
    case Trying(plan, known, k) =>
      (routes,
       if k >= |plan| then Done(NoRoute(cfg, pid))
       else if reply.Worked? then (if k < known then Done(reply) else Storing(plan[k], reply))
       else if k + 1 < |plan| then Trying(plan, known, k + 1)
       else Done(if |plan| > known + 1 then reply else NoRoute(cfg, pid)))
    case Storing(route, response) => (routes[cfg.names.encode(pid) := Written(cfg.names, route)], Done(response))
    case Done(_) => (routes, p)
  }

  function WorkedBy<R>(pid: Id, p: Phase<R>, reply: Try<R>): set<(Id, Route)> {
    if p.Trying? && p.k < |p.plan| && reply.Worked? then {(pid, p.plan[p.k])} else {}
  }

  function Step<R>(cfg: Config, s: System<R>, e: Event<R>): System<R> {
    match e
    case Enter(id, gatewayURL) =>
      var pid := PeerOfGateway(cfg.names, gatewayURL);
      if id in s.calls || pid.None? then s else s.(calls := s.calls[id := Call(pid.value, Looking)])
    case Go(id, reply) =>
      if id !in s.calls then s
      else
        var Call(pid, p) := s.calls[id];
        var (routes, next) := Advance(cfg, s.routes, pid, p, reply);
        System(routes, s.worked + WorkedBy(pid, p, reply), s.calls[id := Call(pid, next)])
  }

  function Run<R>(cfg: Config, s: System<R>, es: seq<Event<R>>): System<R>
    decreases es
  {
    if es == [] then s else Run(cfg, Step(cfg, s, es[0]), es[1..])
  }

  // The entry of a peer names a route of the search for it that has worked.
  ghost predicate EarnedAt(cfg: Config, routes: Routes, worked: set<(Id, Route)>, pid: Id)
    requires cfg.names.encode(pid) in routes
  {
    exists r :: r in Search(cfg, pid) && (pid, r) in worked && routes[cfg.names.encode(pid)] == Written(cfg.names, r)
  }

  ghost predicate Earned(cfg: Config, routes: Routes, worked: set<(Id, Route)>) {
    forall pid :: cfg.names.wellFormed(pid) && cfg.names.encode(pid) in routes ==> EarnedAt(cfg, routes, worked, pid)
  }

  // A call tries routes of the search only, and stores one that has worked.
  ghost predicate Sane<R>(cfg: Config, worked: set<(Id, Route)>, c: Call<R>) {
    && cfg.names.wellFormed(c.pid)
    && (c.phase.Trying? ==> forall r :: r in c.phase.plan ==> r in Search(cfg, c.pid))
    && (c.phase.Storing? ==> c.phase.route in Search(cfg, c.pid) && (c.pid, c.phase.route) in worked)
  }

  ghost predicate AllEarned<R>(cfg: Config, s: System<R>) {
    && Earned(cfg, s.routes, s.worked)
    && forall id :: id in s.calls ==> Sane(cfg, s.worked, s.calls[id])
  }

  lemma {:induction false} EarnedIsSound(cfg: Config, routes: Routes, worked: set<(Id, Route)>)
    requires Earned(cfg, routes, worked)
    ensures Sound(cfg, routes)
  {
    forall pid | cfg.names.wellFormed(pid) && cfg.names.encode(pid) in routes
      ensures exists r :: r in Search(cfg, pid) && routes[cfg.names.encode(pid)] == Written(cfg.names, r)
    {
      assert EarnedAt(cfg, routes, worked, pid);
    }
  }

  lemma {:induction false} StoreKeepsEarned(cfg: Config, routes: Routes, worked: set<(Id, Route)>, pid: Id, r: Route)
    requires cfg.Valid() && cfg.names.wellFormed(pid) && Earned(cfg, routes, worked)
    requires r in Search(cfg, pid) && (pid, r) in worked
    ensures Earned(cfg, routes[cfg.names.encode(pid) := Written(cfg.names, r)], worked)
  {
    var after := routes[cfg.names.encode(pid) := Written(cfg.names, r)];
    forall p | cfg.names.wellFormed(p) && cfg.names.encode(p) in after
      ensures EarnedAt(cfg, after, worked, p)
    {
      if cfg.names.encode(p) == cfg.names.encode(pid) {
        assert Some(p) == cfg.names.decode(cfg.names.encode(p)) == Some(pid);
      } else {
        assert EarnedAt(cfg, routes, worked, p);
      }
    }
  }

  lemma {:induction false} MoreWorkedKeepsEarned(cfg: Config, routes: Routes, worked: set<(Id, Route)>, more: set<(Id, Route)>)
    requires Earned(cfg, routes, worked)
    ensures Earned(cfg, routes, worked + more)
  {
    forall pid | cfg.names.wellFormed(pid) && cfg.names.encode(pid) in routes
      ensures EarnedAt(cfg, routes, worked + more, pid)
    {
      assert EarnedAt(cfg, routes, worked, pid);
    }
  }

  lemma {:induction false} AdvanceSane<R>(cfg: Config, routes: Routes, worked: set<(Id, Route)>, c: Call<R>, reply: Try<R>)
    requires cfg.Valid() && Earned(cfg, routes, worked) && Sane(cfg, worked, c)
    ensures var (after, next) := Advance(cfg, routes, c.pid, c.phase, reply);
            var more := worked + WorkedBy(c.pid, c.phase, reply);
            Earned(cfg, after, more) && Sane(cfg, more, Call(c.pid, next))
  {
    MoreWorkedKeepsEarned(cfg, routes, worked, WorkedBy(c.pid, c.phase, reply));
    match c.phase {
      case Looking =>
        EarnedIsSound(cfg, routes, worked);
        CachedIsSought(cfg, routes, c.pid);
      case Storing(route, _) => StoreKeepsEarned(cfg, routes, worked, c.pid, route);
      case Trying(plan, known, k) =>
        if k < |plan| {
          assert plan[k] in plan;
        }
      case Done(_) =>
    }
  }

  lemma {:induction false} StepKeepsEarned<R>(cfg: Config, s: System<R>, e: Event<R>)
    requires cfg.Valid() && AllEarned(cfg, s)
    ensures AllEarned(cfg, Step(cfg, s, e))
  {
    if e.Go? && e.id in s.calls {
      AdvanceSane(cfg, s.routes, s.worked, s.calls[e.id], e.reply);
      var t := Step(cfg, s, e);
      forall id | id in t.calls
        ensures Sane(cfg, t.worked, t.calls[id])
      {
        if id != e.id {
          assert Sane(cfg, s.worked, s.calls[id]);
        }
      }
    }
  }

  // The entry is "direct", or "proxy:" with the encoded id of a bootstrap peer other than this node and
  // the peer itself, and that route has carried an attempt to the peer.
  ghost predicate EntryInFull(cfg: Config, worked: set<(Id, Route)>, pid: Id, entry: string) {
    || (entry == "direct" && (pid, Direct) in worked)
    || exists b :: b in cfg.bootstrap && b != "" && b != cfg.self && b != pid
                   && entry == "proxy:" + cfg.names.encode(b) && (pid, Via(b)) in worked
  }

  lemma {:induction false} EntriesInFull(cfg: Config, routes: Routes, worked: set<(Id, Route)>, pid: Id)
    requires Earned(cfg, routes, worked) && cfg.names.wellFormed(pid) && cfg.names.encode(pid) in routes
    ensures EntryInFull(cfg, worked, pid, routes[cfg.names.encode(pid)])
  {
    assert EarnedAt(cfg, routes, worked, pid);
    var r :| r in Search(cfg, pid) && (pid, r) in worked && routes[cfg.names.encode(pid)] == Written(cfg.names, r);
    SearchIsExact(cfg, pid, r);
    if r.Via? {
      assert r == Via(r.proxy);
    }
  }

  // In every state reachable from an empty cache, over any interleaving of any number of calls on any
  // network, each entry is a route of the search for its peer that has worked at least once.
  lemma {:induction false} CacheIsEarned<R>(cfg: Config, s: System<R>, es: seq<Event<R>>)
    requires cfg.Valid() && AllEarned(cfg, s)
    ensures AllEarned(cfg, Run(cfg, s, es)) && Sound(cfg, Run(cfg, s, es).routes)
    ensures var t := Run(cfg, s, es);
            forall pid :: cfg.names.wellFormed(pid) && cfg.names.encode(pid) in t.routes ==>
                            EntryInFull(cfg, t.worked, pid, t.routes[cfg.names.encode(pid)])
    decreases es
  {
    if es == [] {
      EarnedIsSound(cfg, s.routes, s.worked);
      forall pid | cfg.names.wellFormed(pid) && cfg.names.encode(pid) in s.routes
        ensures EntryInFull(cfg, s.worked, pid, s.routes[cfg.names.encode(pid)])
      {
        EntriesInFull(cfg, s.routes, s.worked, pid);
      }
    } else {
      StepKeepsEarned(cfg, s, es[0]);
      CacheIsEarned(cfg, Step(cfg, s, es[0]), es[1..]);
    }
  }

  lemma {:induction false} EmptyCacheIsEarned<R>(cfg: Config, s: System<R>)
    requires s.routes == map[] && s.calls == map[]
    ensures AllEarned(cfg, s)
  {
  }

  lemma {:induction false} RunCons<R>(cfg: Config, s: System<R>, e: Event<R>, rest: seq<Event<R>>)
    ensures Run(cfg, s, [e] + rest) == Run(cfg, Step(cfg, s, e), rest)
  {
    assert ([e] + rest)[1..] == rest;
  }

  // A call with no other running between its steps does what `Called` says.
  lemma {:induction false} CalledIsRun<R>(cfg: Config, s: System<R>, id: nat, net: Network<R>) returns (es: seq<Event<R>>)
    requires id in s.calls && s.calls[id].phase.Looking?
    ensures forall e :: e in es ==> e.Go? && e.id == id
    ensures var o, t := Called(cfg, net, s.routes, s.calls[id].pid), Run(cfg, s, es);
            id in t.calls && t.calls[id].phase == Done(o.result) && t.routes == o.routes
  {
    var first := Go(id, NoRoute(cfg, s.calls[id].pid));
    var rest := TryingIsRun(cfg, Step(cfg, s, first), id, net, 0);
    RunCons(cfg, s, first, rest);
    es := [first] + rest;
  }

  lemma {:induction false} TryingIsRun<R>(cfg: Config, s: System<R>, id: nat, net: Network<R>, k: nat) returns (es: seq<Event<R>>)
    requires id in s.calls && s.calls[id].phase.Trying? && s.calls[id].phase.k == k < |s.calls[id].phase.plan|
    requires AllBroke(net, s.calls[id].pid, s.calls[id].phase.plan[..k])
    ensures forall e :: e in es ==> e.Go? && e.id == id
    ensures var Call(pid, p) := s.calls[id];
            var o, t := Finish(cfg, net, s.routes, pid, p.plan, p.known), Run(cfg, s, es);
            id in t.calls && t.calls[id].phase == Done(o.result) && t.routes == o.routes
    decreases |s.calls[id].phase.plan| - k
  {
    var Call(pid, p) := s.calls[id];
    var reply := net(k, p.plan[k], pid);
    var e := Go(id, reply);
    OneMoreBroke(net, pid, p.plan[..k], p.plan[k]);
    assert p.plan[..k] + [p.plan[k]] == p.plan[..k + 1];
    if reply.Broke? && k + 1 < |p.plan| {
      var rest := TryingIsRun(cfg, Step(cfg, s, e), id, net, k + 1);
      RunCons(cfg, s, e, rest);
      es := [e] + rest;
    } else {
      if reply.Broke? {
        assert p.plan[..k + 1] == p.plan;
        EndsInFailure(cfg, net, s.routes, pid, p.plan, p.known);
      } else {
        EndsInSuccess(cfg, net, s.routes, pid, p.plan, p.known, p.plan[..k + 1]);
      }
      es := LastSteps(cfg, s, id, reply);
    }
  }

  // The last attempt of a call, with the store if it needs one.
  lemma {:induction false} LastSteps<R>(cfg: Config, s: System<R>, id: nat, reply: Try<R>) returns (es: seq<Event<R>>)
    requires id in s.calls && s.calls[id].phase.Trying? && s.calls[id].phase.k < |s.calls[id].phase.plan|
    requires reply.Worked? || s.calls[id].phase.k + 1 == |s.calls[id].phase.plan|
    ensures forall e :: e in es ==> e.Go? && e.id == id
    ensures var Call(pid, p) := s.calls[id];
            var t := Run(cfg, s, es);
            && id in t.calls
            && t.calls[id].phase == Done(if reply.Worked? || |p.plan| > p.known + 1 then reply else NoRoute(cfg, pid))
            && t.routes == if reply.Worked? && p.k >= p.known
                           then s.routes[cfg.names.encode(pid) := Written(cfg.names, p.plan[p.k])] else s.routes
  {
    var e := Go(id, reply);
    var next := Step(cfg, s, e);
    if next.calls[id].phase.Storing? {
      RunCons(cfg, next, e, []);
      RunCons(cfg, s, e, [e] + []);
      es := [e] + ([e] + []);
    } else {
      RunCons(cfg, s, e, []);
      es := [e] + [];
    }
  }
}
