/** What holds across the client, the gateway, the protocols and the provider together. */
module EndToEnd {
  import opened Mesh
  import opened Text
  import Client
  import Discovery
  import ProofOfWork
  import Protocol
  import Provider
  import RouteCache

  lemma {:induction false} LeastNonceSolves(digest: ProofOfWork.Digest, client: string, model: string, difficulty: int,
                                            from: nat, budget: nat, n: nat)
    requires from <= n < budget && ProofOfWork.Solves(digest, client, n, model, difficulty)
    ensures var least := ProofOfWork.LeastNonce(digest, client, model, difficulty, from, budget);
            from <= least <= n && ProofOfWork.Solves(digest, client, least, model, difficulty)
    decreases n - from
  {
    if !ProofOfWork.Solves(digest, client, from, model, difficulty) {
      LeastNonceSolves(digest, client, model, difficulty, from + 1, budget, n);
    }
  }

  // If the client's budget holds a solution at its own difficulty, the nonce it sends with a request
  // is accepted by every provider that asks for no more, after the trip through the metadata.
  lemma {:induction false} WorkIsAccepted(env: Client.Env, c: Client.Course, req: Request, policy: Provider.Policy, n: nat)
    requires c.nonce == Client.NonceFor(env, c.opts, req)
    requires 0 < c.opts.powDifficulty && policy.powDifficulty <= c.opts.powDifficulty
    requires c.opts.peerID != "" && c.opts.powMaxIters <= Protocol.UINT64_LIMIT
    requires n < c.opts.powMaxIters
    requires ProofOfWork.Solves(env.digest, c.opts.peerID, n, req.model, c.opts.powDifficulty)
    ensures var sent := Protocol.WithContext(req, Client.ContextOf(c));
            Provider.Proves(env.digest, policy, sent, Protocol.ContextOf(sent))
  {
    LeastNonceSolves(env.digest, c.opts.peerID, req.model, c.opts.powDifficulty, 0, c.opts.powMaxIters, n);
    Protocol.ContextSurvives(req, Client.ContextOf(c));
  }

  // The gateway URL that discovery gives to a probed peer without one leads back to that peer.
  lemma {:induction false} DefaultGatewayNamesPeer(names: Names, pid: Id, doc: Capability)
    requires names.RoundTrips() && names.wellFormed(pid) && doc.gatewayURL == ""
    requires var id := names.encode(pid); id != "" && '/' !in id && !IsSpace(id[|id| - 1])
    ensures RouteCache.PeerOfGateway(names, Discovery.WithGateway(names, pid, doc).gatewayURL) == Some(pid)
  {
    var id := names.encode(pid);
    assert "libp2p:/" + "/" + id == Discovery.SCHEME + id;
    assert !IsSpace('l');
    RouteCache.GatewayNamesPeer(names, "libp2p:/", pid);
  }
}
