/**
 The route cache over the inference protocols: whichever route a call takes, directly or through
 a bootstrap peer, the client gets the provider's own answer.
 */
module Gateway {
  import opened Mesh
  import opened Text
  import opened Wire
  import opened Protocol
  import opened JsonCodec
  import opened RouteCache

  datatype Reply = Reply(status: Int64, contentType: string, body: string)

  // What the network does to the attempts of one call: whether the first stream opens, and what a
  // bootstrap peer reaches when it dials.
  datatype Links = Links(opens: (nat, Route) -> bool, dials: (nat, Id) -> Protocol.Network)

  function AsTry(r: Result): Try<Reply> {
    match r
    case Success(status, contentType, body) => Worked(Reply(status, contentType, body))
    case Error(message) => Broke(message)
  }

  // The attempt with a number over a route, in the terms of the protocols.
  function Attempt(links: Links, names: Names, provider: Provider, req: Request, k: nat, r: Route, pid: Id): Try<Reply> {
    if !links.opens(k, r) then Broke("no stream")
    else
      match r
      case Direct => AsTry(ReadReply(JSON, InferReply(JSON, provider, JSON.RequestLine(req))))
      case Via(b) => AsTry(ReadReply(JSON, ProxyReply(JSON, links.dials(k, b), JSON.ProxyLine(ProxyRequest(names.encode(pid), req)))))
  }

  ghost predicate Serves(far: FarEnd, provider: Provider) {
    forall input :: far(input) == InferReply(JSON, provider, input)
  }

  // Whoever dials the target reaches its provider or nobody.
  ghost predicate Genuine(links: Links, target: string, provider: Provider) {
    forall k: nat, b: Id :: links.dials(k, b)(target).Connected? ==> Serves(links.dials(k, b)(target).far, provider)
  }

  predicate GetsThrough(links: Links, target: string, k: nat, r: Route) {
    links.opens(k, r) && (r.Via? ==> links.dials(k, r.proxy)(target).Connected?)
  }

  // An attempt that gets through returns the provider's answer, and any other fails.
  lemma {:induction false} AttemptIsProvider(links: Links, names: Names, provider: Provider, req: Request, k: nat, r: Route, pid: Id)
    requires var target := names.encode(pid); target != "" && TrimSpace(target) == target && Genuine(links, target, provider)
    ensures var a := Attempt(links, names, provider, req, k, r, pid);
            if GetsThrough(links, names.encode(pid), k, r) then a == AsTry(ResultOf(provider(req, ContextOf(req)))) else a.Broke?
  {
    if links.opens(k, r) {
      JsonIsFaithful();
      match r {
        case Direct => DirectPath(JSON, provider, req);
        case Via(b) => ProxyAttempt(links.dials(k, b), provider, names.encode(pid), req);
      }
    }
  }

  lemma {:induction false} ProxyAttempt(dial: Protocol.Network, provider: Provider, target: string, req: Request)
    requires target != "" && TrimSpace(target) == target && JSON.Faithful()
    requires dial(target).Connected? ==> Serves(dial(target).far, provider)
    ensures var got := ReadReply(JSON, ProxyReply(JSON, dial, JSON.ProxyLine(ProxyRequest(target, req))));
            if dial(target).Connected? then got == ResultOf(provider(req, ContextOf(req))) else got.Error?
  {
    match dial(target) {
      case Connected(far) => ProxyTransparency(dial, far, provider, target, req);
      case BadId => DialFails(JSON, dial, target, req);
      case Unreachable(_) => DialFails(JSON, dial, target, req);
    }
  }

  lemma {:induction false} DialFails(c: Codec, dial: Protocol.Network, target: string, req: Request)
    requires target != "" && TrimSpace(target) == target && c.Faithful() && !dial(target).Connected?
    ensures ReadReply(c, ProxyReply(c, dial, c.ProxyLine(ProxyRequest(target, req)))).Error?
  {
    c.LineFramed(c.writeProxy(ProxyRequest(target, req)));
    match dial(target) {
      case BadId => ReadsHeaderOnly(c, Header(BAD_REQUEST, "", "invalid target peer id"));
      case Unreachable(error) => ReadsHeaderOnly(c, Header(BAD_GATEWAY, "", "proxy dial failed: " + error));
    }
  }

  // Whatever the cache holds and whichever attempts get through, a call works exactly when the
  // provider's answer is a success and some attempt of its plan gets through, and then it
  // returns that very answer.
  lemma {:induction false} AnyRouteSameAnswer(cfg: Config, links: Links, provider: Provider, req: Request, routes: Routes, pid: Id,
                                              net: RouteCache.Network<Reply>)
    requires var target := cfg.names.encode(pid); target != "" && TrimSpace(target) == target && Genuine(links, target, provider)
    requires forall k: nat, r :: net(k, r, pid) == Attempt(links, cfg.names, provider, req, k, r, pid)
    ensures var answer := ResultOf(provider(req, ContextOf(req)));
            var o := Called(cfg, net, routes, pid);
            var plan := Plan(cfg, routes, pid);
            && (o.result.Worked? ==> o.result == AsTry(answer))
            && (o.result.Worked? <==>
                answer.Success? && exists k :: 0 <= k < |plan| && GetsThrough(links, cfg.names.encode(pid), k, plan[k]))
  {
    var answer := AsTry(ResultOf(provider(req, ContextOf(req))));
    var target := cfg.names.encode(pid);
    forall k: nat, r
      ensures if GetsThrough(links, target, k, r) then net(k, r, pid) == answer else net(k, r, pid).Broke?
    {
      AttemptIsProvider(links, cfg.names, provider, req, k, r, pid);
    }
    var through := (k: nat, r: Route) => GetsThrough(links, target, k, r);
    OneAnswer(cfg, net, routes, pid, answer, through);
    assert forall k: nat, r :: through(k, r) == GetsThrough(links, target, k, r);
  }
}
