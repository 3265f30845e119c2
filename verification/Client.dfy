/**
 The client service: one call spends credits, discovers peers, ranks them and tries them in
 order until one answers.

 Every access to shared state is one critical section, so a call is a sequence of atomic steps
 between which other calls, settings updates and the provider's own uses of the ledger and the
 tracker may run. `Phase` is the program counter of a call and `Advance` its next step. The
 class is the sequential code; its methods are proved to take exactly these steps.
 */
module Client {
  import opened Mesh
  import opened Routing
  import Accounting
  import ProofOfWork
  import Reputation

  /// Options and shared state

  datatype Options = Options(
    peerID: string,
    peerName: string,
    policy: string,
    favorites: seq<string>,
    blocked: seq<string>,
    allowed: seq<string>,
    stickyTTL: real,
    powDifficulty: int,
    powMaxIters: nat,
    creditCost: int)

  // A nil list leaves the setting as it is; the empty list clears it.
  datatype RoutingSettings = RoutingSettings(
    policy: string,
    favorites: Option<seq<string>>,
    blocked: Option<seq<string>>,
    allowed: Option<seq<string>>,
    stickyTTL: real)

  function Or<T>(o: Option<T>, default: T): T {
    if o.Some? then o.value else default
  }

  function WithSettings(o: Options, s: RoutingSettings): Options {
    o.(policy := if s.policy != "" then s.policy else o.policy,
       favorites := Or(s.favorites, o.favorites),
       blocked := Or(s.blocked, o.blocked),
       allowed := Or(s.allowed, o.allowed),
       stickyTTL := if s.stickyTTL >= 0.0 then s.stickyTTL else o.stickyTTL)
  }

  function Pinned(o: Options, peer: string): Options {
    o.(policy := MANUAL, allowed := [peer])
  }

  function ToSet(items: seq<string>): set<string> {
    set i | i in items && i != ""
  }

  function PreferencesOf(o: Options, known: set<string>): Preferences {
    Preferences(o.policy, ToSet(o.favorites), known, ToSet(o.allowed), ToSet(o.blocked))
  }

  datatype Choice = Choice(peer: string, expires: real)

  // `attempts` is the history of the gateway calls made; the ledger and the tracker are optional.
  datatype State = State(
    opts: Options,
    known: set<string>,
    sticky: map<string, Choice>,
    scores: Option<Reputation.Scores>,
    balance: Option<int>,
    attempts: seq<Attempt>)

  datatype Attempt = Attempt(capability: Capability, context: PeerContext)

  /// The sticky choice

  // The first entry of the peer, if any, moved to the front.
  function Promote(ranked: seq<PeerScore>, peer: string): seq<PeerScore> {
    var i := FirstOf(ranked, peer);
    if i == |ranked| then ranked else [ranked[i]] + ranked[..i] + ranked[i + 1..]
  }

  function FirstOf(ranked: seq<PeerScore>, peer: string): (i: nat)
    ensures i <= |ranked|
    ensures i < |ranked| ==> ranked[i].capability.peer == peer
    ensures forall j :: 0 <= j < i ==> ranked[j].capability.peer != peer
  {
    if ranked == [] then 0
    else if ranked[0].capability.peer == peer then 0
    else
      var i := FirstOf(ranked[1..], peer);
      assert forall j :: 0 < j <= i ==> ranked[j] == ranked[1..][j - 1] || j == |ranked|;
      i + 1
  }

  // The entries of the peer, or those of the others, in order.
  function Entries(ranked: seq<PeerScore>, peer: string, own: bool): seq<PeerScore> {
    if ranked == [] then []
    else (if (ranked[0].capability.peer == peer) == own then [ranked[0]] else []) + Entries(ranked[1..], peer, own)
  }

  lemma {:induction false} EntriesAppend(a: seq<PeerScore>, b: seq<PeerScore>, peer: string, own: bool)
    ensures Entries(a + b, peer, own) == Entries(a, peer, own) + Entries(b, peer, own)
  {
    if a == [] {
      assert a + b == b;
    } else {
      var head := if (a[0].capability.peer == peer) == own then [a[0]] else [];
      var rest, more := Entries(a[1..], peer, own), Entries(b, peer, own);
      EntriesAppend(a[1..], b, peer, own);
      assert (a + b)[0] == a[0] && (a + b)[1..] == a[1..] + b;
      assert Entries(a + b, peer, own) == head + Entries(a[1..] + b, peer, own);
      assert head + (rest + more) == (head + rest) + more;
    }
  }

  lemma {:induction false} NoEntries(a: seq<PeerScore>, peer: string)
    requires forall i :: 0 <= i < |a| ==> a[i].capability.peer != peer
    ensures Entries(a, peer, true) == []
  {
    if a == [] {
    } else {
      NoEntries(a[1..], peer);
    }
  }

  lemma {:induction false} RotatedEntries(front: seq<PeerScore>, p: PeerScore, back: seq<PeerScore>, own: bool)
    requires forall i :: 0 <= i < |front| ==> front[i].capability.peer != p.capability.peer
    ensures Entries([p] + (front + back), p.capability.peer, own) == Entries(front + ([p] + back), p.capability.peer, own)
  {
    var peer := p.capability.peer;
    var f, b := Entries(front, peer, own), Entries(back, peer, own);
    EntriesAppend([p], front + back, peer, own);
    EntriesAppend(front, back, peer, own);
    EntriesAppend(front, [p] + back, peer, own);
    EntriesAppend([p], back, peer, own);
    if own {
      NoEntries(front, peer);
      assert f == [];
    } else {
      assert [p][1..] == [];
      assert Entries([p], peer, false) == [];
    }
  }

  // Promoting permutes a ranking, keeps the order of all the other peers and of the peer's own
  // entries, and puts the peer first if it is there at all.
  lemma {:induction false} PromoteOnlyPromotes(ranked: seq<PeerScore>, peer: string)
    ensures multiset(Promote(ranked, peer)) == multiset(ranked) && |Promote(ranked, peer)| == |ranked|
    ensures Entries(Promote(ranked, peer), peer, false) == Entries(ranked, peer, false)
    ensures Entries(Promote(ranked, peer), peer, true) == Entries(ranked, peer, true)
    ensures (exists p :: p in ranked && p.capability.peer == peer) ==> Promote(ranked, peer)[0].capability.peer == peer
  {
    var i := FirstOf(ranked, peer);
    if i < |ranked| {
      var p, front, back := ranked[i], ranked[..i], ranked[i + 1..];
      assert ranked == front + ([p] + back);
      assert Promote(ranked, peer) == [p] + (front + back);
      RotatedEntries(front, p, back, false);
      RotatedEntries(front, p, back, true);
    }
  }

  /// One call

  datatype Response = Response(statusCode: int, contentType: string, body: string)

  datatype Reply = Replied(response: Response) | Failed(error: string)

  datatype Outcome =
    | NoCredits
    | NoDiscovery(error: string)
    | NoPeers
    | NoIdentity
    | Answered(response: Response)
    | AllFailed(last: string)

  // What a call has fixed once its candidates are ordered.
  datatype Course = Course(opts: Options, ranked: seq<PeerScore>, nonce: nat)

  datatype Phase =
    | Start
    | Paying(opts: Options)
    | Discovering(opts: Options)
    | Blending(opts: Options, caps: seq<Capability>, i: nat)
    | Consulting(opts: Options, caps: seq<Capability>)
    | Ranking(opts: Options, caps: seq<Capability>, pref: Preferences)
    | Sticking(opts: Options, ranked: seq<PeerScore>)
    | Reordering(opts: Options, ranked: seq<PeerScore>)
    | Solving(opts: Options, ranked: seq<PeerScore>)
    | Trying(course: Course, i: nat, last: string)
    | Penalizing(course: Course, i: nat, last: string)
    | Rewarding(course: Course, i: nat, response: Response)
    | Marking(course: Course, i: nat, response: Response)
    | Resticking(course: Course, i: nat, response: Response)
    | Choosing(course: Course, i: nat, response: Response, ttl: real)
    | Ended(outcome: Outcome)

  // What the outside world contributes to a step: the clock, the discovered documents, or what a
  // gateway call comes back with.
  datatype Input = Input(now: real, listing: Listing, reply: Reply)

  datatype Listing = Listed(caps: seq<Capability>) | NotListed(error: string)

  datatype Env = Env(weights: Weights, digest: ProofOfWork.Digest)

  // The local score of a peer caps the reliability it claims.
  function Blended(scores: Reputation.Scores, c: Capability): Capability {
    var local := Reputation.ScoreOf(scores, c.peer);
    if local < c.reliability then c.(reliability := local) else c
  }

  function NonceFor(env: Env, o: Options, req: Request): (nonce: nat)
    ensures o.powDifficulty <= 0 ==> nonce == 0
  {
    if o.powDifficulty > 0
    then ProofOfWork.LeastNonce(env.digest, o.peerID, req.model, o.powDifficulty, 0, o.powMaxIters)
    else 0
  }

  function ContextOf(c: Course): PeerContext {
    PeerContext(c.opts.peerID, c.opts.peerName, c.nonce)
  }

  function Adjusted(st: State, peer: string, delta: real): State {
    if st.scores.Some? then st.(scores := Some(Reputation.Moved(st.scores.value, peer, delta))) else st
  }

  const NO_PEERS := "no peers available"

  // The next atomic step of a call. A call waits in `Ranking` for the router's answer.
  function Advance(env: Env, st: State, req: Request, p: Phase, x: Input): (State, Phase) {
    match p
    case Start => (st, Paying(st.opts))
    case Paying(o) =>
      if st.balance.None? then (st, Discovering(o))
      else
        var (b, ok) := Accounting.Spent(st.balance.value, o.creditCost);
        (st.(balance := Some(b)), if ok then Discovering(o) else Ended(NoCredits))
    case Discovering(o) =>
      (st, if x.listing.NotListed? then Ended(NoDiscovery(x.listing.error)) else Blending(o, x.listing.caps, 0))
    case Blending(o, caps, i) =>
      (st, if st.scores.None? || i >= |caps| then Consulting(o, caps)
           else Blending(o, caps[i := Blended(st.scores.value, caps[i])], i + 1))
    case Consulting(o, caps) => (st, Ranking(o, caps, PreferencesOf(o, st.known)))
    case Ranking(_, _, _) => (st, p)
    case Sticking(o, ranked) =>
      (st, if st.opts.stickyTTL <= 0.0 || |ranked| < 2 then Solving(o, ranked) else Reordering(o, ranked))
    case Reordering(o, ranked) =>
      if req.model !in st.sticky then (st, Solving(o, ranked))
      else if x.now > st.sticky[req.model].expires then (st.(sticky := st.sticky - {req.model}), Solving(o, ranked))
      else (st, Solving(o, Promote(ranked, st.sticky[req.model].peer)))
    case Solving(o, ranked) =>
      (st, if o.powDifficulty > 0 && o.peerID == "" then Ended(NoIdentity)
           else Trying(Course(o, ranked, NonceFor(env, o, req)), 0, NO_PEERS))
    case Trying(c, i, last) =>
      if i >= |c.ranked| then (st, Ended(AllFailed(last)))
      else
        (st.(attempts := st.attempts + [Attempt(c.ranked[i].capability, ContextOf(c))]),
         match x.reply
         case Failed(error) => Penalizing(c, i, error)
         case Replied(response) => Rewarding(c, i, response))
    case Penalizing(c, i, last) =>
      (if i < |c.ranked| then Adjusted(st, c.ranked[i].capability.peer, -0.1) else st, Trying(c, i + 1, last))
    case Rewarding(c, i, response) =>
      (if i < |c.ranked| then Adjusted(st, c.ranked[i].capability.peer, 0.02) else st, Marking(c, i, response))
    case Marking(c, i, response) =>
      (if i < |c.ranked| then st.(known := st.known + {c.ranked[i].capability.peer}) else st, Resticking(c, i, response))
    case Resticking(c, i, response) =>
      (st, if st.opts.stickyTTL <= 0.0 then Ended(Answered(response)) else Choosing(c, i, response, st.opts.stickyTTL))
    case Choosing(c, i, response, ttl) =>
      (if i < |c.ranked| then st.(sticky := st.sticky[req.model := Choice(c.ranked[i].capability.peer, x.now + ttl)]) else st,
       Ended(Answered(response)))
    case Ended(_) => (st, p)
  }

  predicate Waits(p: Phase) {
    p.Ranking? || p.Ended?
  }

  function Stage(p: Phase): nat {
    match p
    case Start => 14
    case Paying(_) => 13
    case Discovering(_) => 12
    case Blending(_, _, _) => 11
    case Consulting(_, _) => 10
    case Ranking(_, _, _) => 9
    case Sticking(_, _) => 8
    case Reordering(_, _) => 7
    case Solving(_, _) => 6
    case Trying(_, _, _) => 5
    case Penalizing(_, _, _) => 5
    case Rewarding(_, _, _) => 4
    case Marking(_, _, _) => 3
    case Resticking(_, _, _) => 2
    case Choosing(_, _, _, _) => 1
    case Ended(_) => 0
  }

  function Left(p: Phase): nat {
    match p
    case Blending(_, caps, i) => if i < |caps| then |caps| - i else 0
    case Trying(c, i, _) => if i < |c.ranked| then 2 * (|c.ranked| - i) else 0
    case Penalizing(c, i, _) => if i < |c.ranked| then 2 * (|c.ranked| - i) - 1 else 1
    case _ => 0
  }

  // A call on its own, up to where it waits for the router or ends. The world contributes to each
  // step separately; no phase of a call comes back.
  function Drive(env: Env, st: State, req: Request, p: Phase, world: Phase -> Input): (State, Phase)
    decreases Stage(p), Left(p)
  {
    if Waits(p) then (st, p)
    else
      var (next, q) := Advance(env, st, req, p, world(p));
      if Waits(q) then (next, q) else Drive(env, next, req, q, world)
  }

  lemma {:induction false} DriveStep(env: Env, st: State, req: Request, p: Phase, world: Phase -> Input)
    requires !Waits(p)
    ensures var (next, q) := Advance(env, st, req, p, world(p));
            Drive(env, st, req, p, world) == Drive(env, next, req, q, world)
  {
  }

  // What an attempt does to the state, with the penalty if it fails, and what the first success does.
  function Tried(st: State, c: Course, i: nat, reply: Reply): State
    requires i < |c.ranked|
  {
    var made := Attempted(st, c, i);
    if reply.Failed? then Adjusted(made, c.ranked[i].capability.peer, -0.1) else made
  }

  function Attempted(st: State, c: Course, i: nat): State
    requires i < |c.ranked|
  {
    st.(attempts := st.attempts + [Attempt(c.ranked[i].capability, ContextOf(c))])
  }

  function Rewarded(st: State, model: string, peer: string, now: real): State {
    var marked := Adjusted(st, peer, 0.02).(known := st.known + {peer});
    if st.opts.stickyTTL <= 0.0 then marked
    else marked.(sticky := st.sticky[model := Choice(peer, now + st.opts.stickyTTL)])
  }

  lemma {:induction false} DriveTrying(env: Env, st: State, req: Request, c: Course, i: nat, last: string, world: Phase -> Input)
    requires i < |c.ranked|
    ensures var reply := world(Trying(c, i, last)).reply;
            var tried := Tried(st, c, i, reply);
            Drive(env, st, req, Trying(c, i, last), world) ==
            match reply
            case Failed(error) => Drive(env, tried, req, Trying(c, i + 1, error), world)
            case Replied(response) =>
              (Rewarded(tried, req.model, c.ranked[i].capability.peer, world(Choosing(c, i, response, st.opts.stickyTTL)).now),
               Ended(Answered(response)))
  {
    DriveAttempt(env, st, req, c, i, last, world);
    var reply := world(Trying(c, i, last)).reply;
    var made := Attempted(st, c, i);
    match reply {
      case Failed(error) => DrivePenalizing(env, made, req, c, i, error, world);
      case Replied(response) => DriveSettling(env, made, req, c, i, response, world);
    }
  }

  lemma {:induction false} DriveAttempt(env: Env, st: State, req: Request, c: Course, i: nat, last: string, world: Phase -> Input)
    requires i < |c.ranked|
    ensures Drive(env, st, req, Trying(c, i, last), world) ==
            Drive(env, Attempted(st, c, i), req,
                  match world(Trying(c, i, last)).reply
                  case Failed(error) => Penalizing(c, i, error)
                  case Replied(response) => Rewarding(c, i, response),
                  world)
  {
    DriveStep(env, st, req, Trying(c, i, last), world);
  }

  lemma {:induction false} DrivePenalizing(env: Env, st: State, req: Request, c: Course, i: nat, last: string, world: Phase -> Input)
    requires i < |c.ranked|
    ensures Drive(env, st, req, Penalizing(c, i, last), world) ==
            Drive(env, Adjusted(st, c.ranked[i].capability.peer, -0.1), req, Trying(c, i + 1, last), world)
  {
    DriveStep(env, st, req, Penalizing(c, i, last), world);
  }

  lemma {:induction false} DriveSettling(env: Env, st: State, req: Request, c: Course, i: nat, response: Response,
                                         world: Phase -> Input)
    requires i < |c.ranked|
    ensures Drive(env, st, req, Rewarding(c, i, response), world) ==
            (Rewarded(st, req.model, c.ranked[i].capability.peer, world(Choosing(c, i, response, st.opts.stickyTTL)).now),
             Ended(Answered(response)))
  {
    var peer := c.ranked[i].capability.peer;
    var paid := Adjusted(st, peer, 0.02);
    var marked := paid.(known := paid.known + {peer});
    DriveStep(env, st, req, Rewarding(c, i, response), world);
    DriveStep(env, paid, req, Marking(c, i, response), world);
    DriveStep(env, marked, req, Resticking(c, i, response), world);
    if st.opts.stickyTTL > 0.0 {
      DriveStep(env, marked, req, Choosing(c, i, response, st.opts.stickyTTL), world);
    }
  }

  function AfterRanking(p: Phase, ranked: seq<PeerScore>): Phase
    requires p.Ranking?
  {
    if ranked == [] then Ended(NoPeers) else Sticking(p.opts, ranked)
  }

  // What a call from start to end comes to, whichever ranking the router returns.
  ghost predicate Follows(env: Env, st: State, req: Request, world: Phase -> Input, ranked: seq<PeerScore>,
                          end: State, outcome: Outcome) {
    var (mid, p) := Drive(env, st, req, Start, world);
    if p.Ranking?
    then IsRanking(env.weights, p.caps, req, p.pref, ranked)
         && Drive(env, mid, req, AfterRanking(p, ranked), world) == (end, Ended(outcome))
    else (mid, p) == (end, Ended(outcome))
  }

  /// The service

  function Rep(t: Reputation.ReputationTracker?): Option<Reputation.Scores>
    reads t
  {
    if t == null then None else Some(t.scores)
  }

  function Bal(l: Accounting.CreditLedger?): Option<int>
    reads l
  {
    if l == null then None else Some(l.balance)
  }

  class ClientService {
    const router: Router
    const digest: ProofOfWork.Digest
    const ledger: Accounting.CreditLedger?
    const reputation: Reputation.ReputationTracker?
    var opts: Options
    var known: set<string>
    var sticky: map<string, Choice>
    ghost var attempts: seq<Attempt>

    ghost function Contents(): State
      reads this, ledger, reputation
    {
      State(opts, known, sticky, Rep(reputation), Bal(ledger), attempts)
    }

    ghost function Settings(): Env {
      Env(router.weights, digest)
    }

    constructor (router: Router, digest: ProofOfWork.Digest, ledger: Accounting.CreditLedger?,
                 reputation: Reputation.ReputationTracker?, opts: Options)
      ensures Settings() == Env(router.weights, digest) && this.ledger == ledger && this.reputation == reputation
      ensures this.opts == opts.(powMaxIters := if opts.powMaxIters == 0 then 2_000_000 else opts.powMaxIters,
                                 creditCost := if opts.creditCost == 0 then 1 else opts.creditCost)
      ensures known == {} && sticky == map[] && attempts == []
    {
      var o := opts;
      if o.powMaxIters == 0 {
        o := o.(powMaxIters := 2_000_000);
      }
      if o.creditCost == 0 {
        o := o.(creditCost := 1);
      }
      this.router, this.digest, this.ledger, this.reputation := router, digest, ledger, reputation;
      this.opts := o;
      known := {};
      sticky := map[];
      attempts := [];
    }

    method UpdateRoutingSettings(s: RoutingSettings)
      modifies this`opts
      ensures opts == WithSettings(old(opts), s)
    {
      if s.policy != "" {
        opts := opts.(policy := s.policy);
      }
      if s.favorites.Some? {
        opts := opts.(favorites := s.favorites.value);
      }
      if s.blocked.Some? {
        opts := opts.(blocked := s.blocked.value);
      }
      if s.allowed.Some? {
        opts := opts.(allowed := s.allowed.value);
      }
      if s.stickyTTL >= 0.0 {
        opts := opts.(stickyTTL := s.stickyTTL);
      }
    }

    method SelectPeerManual(peer: string)
      modifies this`opts
      ensures opts == Pinned(old(opts), peer)
    {
      opts := opts.(policy := MANUAL);
      opts := opts.(allowed := [peer]);
    }

    method OptionsSnapshot() returns (o: Options)
      ensures o == opts
    {
      return opts;
    }

    method KnownPeers() returns (out: set<string>)
      ensures out == known
    {
      return known;
    }

    method MarkKnown(peer: string)
      modifies this`known
      ensures known == old(known) + {peer}
    {
      known := known + {peer};
    }

    method UpdateSticky(model: string, peer: string, now: real)
      modifies this`sticky
      ensures sticky == if opts.stickyTTL <= 0.0 then old(sticky)
                        else old(sticky)[model := Choice(peer, now + opts.stickyTTL)]
    {
      var o := OptionsSnapshot();
      if o.stickyTTL <= 0.0 {
        return;
      }
      sticky := sticky[model := Choice(peer, now + o.stickyTTL)];
    }

    method ApplyStickyPriority(model: string, ranked: seq<PeerScore>, now: real) returns (out: seq<PeerScore>)
      modifies this`sticky
      ensures var skip := opts.stickyTTL <= 0.0 || |ranked| < 2 || model !in old(sticky);
              var stale := !skip && now > old(sticky)[model].expires;
              && sticky == (if stale then old(sticky) - {model} else old(sticky))
              && out == if skip || stale then ranked else Promote(ranked, old(sticky)[model].peer)
    {
      var o := OptionsSnapshot();
      if o.stickyTTL <= 0.0 || |ranked| < 2 {
        return ranked;
      }
      if model !in sticky {
        return ranked;
      }
      var ch := sticky[model];
      if now > ch.expires {
        sticky := sticky - {model};
        return ranked;
      }
      for i := 0 to |ranked|
        invariant forall j :: 0 <= j < i ==> ranked[j].capability.peer != ch.peer
      {
        if ranked[i].capability.peer == ch.peer {
          if i == 0 {
            assert [ranked[0]] + ranked[..0] + ranked[1..] == ranked;
            return ranked;
          }
          return [ranked[i]] + ranked[..i] + ranked[i + 1..];
        }
      }
      return ranked;
    }

    // `ranked` is the router's answer if it was asked.
    method Infer(req: Request, world: Phase -> Input) returns (outcome: Outcome, ghost ranked: seq<PeerScore>)
      modifies this, ledger, reputation
      ensures opts == old(opts)
      ensures Follows(Settings(), old(Contents()), req, world, ranked, Contents(), outcome)
    {
      ranked := [];
      var p := Prepare(req, world);
      if p.Ended? {
        return p.outcome, ranked;
      }
      var candidates := router.RankWithPreferences(p.caps, req, p.pref);
      ranked := candidates;
      if |candidates| == 0 {
        return NoPeers, ranked;
      }
      outcome := TryRanked(req, p.opts, candidates, world);
    }

    // Up to the call of the router.
    method Prepare(req: Request, world: Phase -> Input) returns (p: Phase)
      modifies ledger
      ensures (Contents(), p) == Drive(Settings(), old(Contents()), req, Start, world) && (p.Ended? || p.Ranking?)
    {
      DrivePreparing(Settings(), Contents(), req, world);
      var o := OptionsSnapshot();
      if ledger != null {
        var ok := ledger.Spend(o.creditCost);
        if !ok {
          return Ended(NoCredits);
        }
      }
      var listing := world(Discovering(o)).listing;
      if listing.NotListed? {
        return Ended(NoDiscovery(listing.error));
      }
      var caps := Blend(listing.caps);
      var knownPeers := KnownPeers();
      return Ranking(o, caps, Preferences(o.policy, ToSet(o.favorites), knownPeers, ToSet(o.allowed), ToSet(o.blocked)));
    }

    method Blend(listed: seq<Capability>) returns (caps: seq<Capability>)
      ensures caps == BlendAll(Rep(reputation), listed, 0)
    {
      caps := listed;
      if reputation == null {
        return;
      }
      var i := 0;
      while i < |caps|
        invariant 0 <= i <= |caps| == |listed|
        invariant forall k :: 0 <= k < |caps| ==> caps[k] == if k < i then Blended(reputation.scores, listed[k]) else listed[k]
      {
        var localRep := reputation.Score(caps[i].peer);
        if localRep < caps[i].reliability {
          caps := caps[i := caps[i].(reliability := localRep)];
        }
        i := i + 1;
      }
    }

    // From the router's answer to the end.
    method TryRanked(req: Request, o: Options, candidates: seq<PeerScore>, world: Phase -> Input) returns (outcome: Outcome)
      modifies this, reputation
      ensures opts == old(opts)
      ensures (Contents(), Ended(outcome)) == Drive(Settings(), old(Contents()), req, Sticking(o, candidates), world)
    {
      ghost var env := Settings();
      ghost var before := Contents();
      DriveStep(env, before, req, Sticking(o, candidates), world);
      DriveStep(env, before, req, Reordering(o, candidates), world);
      var ranked := ApplyStickyPriority(req.model, candidates, world(Reordering(o, candidates)).now);
      DriveStep(env, Contents(), req, Solving(o, ranked), world);
      var nonce := 0;
      if o.powDifficulty > 0 {
        if o.peerID == "" {
          return NoIdentity;
        }
        var found;
        nonce, found := ProofOfWork.Solve(digest, o.peerID, req.model, o.powDifficulty, o.powMaxIters);
      }
      outcome := FailOver(req, Course(o, ranked, nonce), world);
    }

    method FailOver(req: Request, c: Course, world: Phase -> Input) returns (outcome: Outcome)
      modifies this, reputation
      ensures opts == old(opts)
      ensures (Contents(), Ended(outcome)) == Drive(Settings(), old(Contents()), req, Trying(c, 0, NO_PEERS), world)
    {
      ghost var env := Settings();
      var lastErr := NO_PEERS;
      var i := 0;
      while i < |c.ranked|
        invariant 0 <= i <= |c.ranked|
        invariant opts == old(opts)
        invariant Drive(env, Contents(), req, Trying(c, i, lastErr), world)
               == Drive(env, old(Contents()), req, Trying(c, 0, NO_PEERS), world)
      {
        DriveTrying(env, Contents(), req, c, i, lastErr, world);
        var reply := TryOne(req, c, i, lastErr, world);
        if reply.Failed? {
          lastErr := reply.error;
          i := i + 1;
          continue;
        }
        Settle(req.model, c.ranked[i].capability.peer, world(Choosing(c, i, reply.response, opts.stickyTTL)).now);
        return Answered(reply.response);
      }
      DriveStep(env, Contents(), req, Trying(c, i, lastErr), world);
      return AllFailed(lastErr);
    }

    // One attempt, with the penalty if it fails.
    method TryOne(ghost req: Request, c: Course, i: nat, last: string, world: Phase -> Input) returns (reply: Reply)
      requires i < |c.ranked|
      modifies this`attempts, reputation
      ensures reply == world(Trying(c, i, last)).reply
      ensures Contents() == Tried(old(Contents()), c, i, reply)
    {
      var candidate := c.ranked[i].capability;
      reply := world(Trying(c, i, last)).reply;
      attempts := attempts + [Attempt(candidate, PeerContext(c.opts.peerID, c.opts.peerName, c.nonce))];
      if reply.Failed? {
        PenalizePeer(candidate.peer, 0.1);
      }
    }

    method PenalizePeer(peer: string, delta: real)
      modifies reputation
      ensures Contents() == Adjusted(old(Contents()), peer, -delta)
    {
      if reputation != null {
        reputation.Penalize(peer, delta);
      }
    }

    method RewardPeer(peer: string, delta: real)
      modifies reputation
      ensures Contents() == Adjusted(old(Contents()), peer, delta)
    {
      if reputation != null {
        reputation.Reward(peer, delta);
      }
    }

    // What follows the first success.
    method Settle(model: string, peer: string, now: real)
      modifies this`known, this`sticky, reputation
      ensures Contents() == Rewarded(old(Contents()), model, peer, now)
    {
      RewardPeer(peer, 0.02);
      MarkKnown(peer);
      UpdateSticky(model, peer, now);
    }
  }

  /// Failover

  // The replies the candidates give from the i-th on, up to the first success.
  function Replies(c: Course, i: nat, last: string, world: Phase -> Input): seq<Reply>
    decreases |c.ranked| - i
  {
    if i >= |c.ranked| then []
    else
      var r := world(Trying(c, i, last)).reply;
      if r.Replied? then [r] else [r] + Replies(c, i + 1, r.error, world)
  }

  function AttemptsFrom(c: Course, i: nat, n: nat): seq<Attempt>
    requires i + n <= |c.ranked|
    decreases n
  {
    if n == 0 then []
    else
      [Attempt(c.ranked[i].capability, PeerContext(c.opts.peerID, c.opts.peerName, c.nonce))] + AttemptsFrom(c, i + 1, n - 1)
  }

  // A penalty for each failure and a reward for the success.
  function MovesFrom(c: Course, i: nat, rs: seq<Reply>): seq<Reputation.Move>
    requires i + |rs| <= |c.ranked|
    decreases rs
  {
    if rs == [] then []
    else
      [Reputation.Move(c.ranked[i].capability.peer, if rs[0].Failed? then -0.1 else 0.02)] + MovesFrom(c, i + 1, rs[1..])
  }

  // How a call ends after the replies `rs` of the candidates from the i-th on.
  ghost predicate EndsWell(st: State, c: Course, i: nat, rs: seq<Reply>, model: string, world: Phase -> Input,
                           end: State, o: Outcome) {
    && rs != [] && rs[|rs| - 1].Replied? && i + |rs| <= |c.ranked|
    && o == Answered(rs[|rs| - 1].response)
    && var winner := c.ranked[i + |rs| - 1].capability.peer;
       end.known == st.known + {winner}
       && if st.opts.stickyTTL <= 0.0 then end.sticky == st.sticky
          else
            var now := world(Choosing(c, i + |rs| - 1, rs[|rs| - 1].response, st.opts.stickyTTL)).now;
            end.sticky == st.sticky[model := Choice(winner, now + st.opts.stickyTTL)]
  }

  ghost predicate EndsBadly(st: State, c: Course, i: nat, rs: seq<Reply>, last: string, end: State, o: Outcome) {
    && i + |rs| == |c.ranked|
    && (forall k :: 0 <= k < |rs| ==> rs[k].Failed?)
    && (rs != [] ==> rs[|rs| - 1].Failed?)
    && o == AllFailed(if rs == [] then last else rs[|rs| - 1].error)
    && end.known == st.known && end.sticky == st.sticky
  }

  // The parts of the state that a call changes in either case.
  ghost predicate Tallies(st: State, c: Course, i: nat, rs: seq<Reply>, end: State) {
    && i + |rs| <= |c.ranked|
    && end.attempts == st.attempts + AttemptsFrom(c, i, |rs|)
    && end.scores == (if st.scores.None? then None else Some(Reputation.MovedAll(st.scores.value, MovesFrom(c, i, rs))))
    && end.opts == st.opts && end.balance == st.balance
  }

  lemma {:induction false} RepliesAreFirstSuccess(c: Course, i: nat, last: string, world: Phase -> Input)
    requires i <= |c.ranked|
    ensures var rs := Replies(c, i, last, world);
            && i + |rs| <= |c.ranked|
            && (forall k :: 0 <= k < |rs| - 1 ==> rs[k].Failed?)
            && (i + |rs| < |c.ranked| ==> rs != [] && rs[|rs| - 1].Replied?)
    decreases |c.ranked| - i
  {
    if i < |c.ranked| && world(Trying(c, i, last)).reply.Failed? {
      RepliesAreFirstSuccess(c, i + 1, world(Trying(c, i, last)).reply.error, world);
    }
  }

  // The attempts from the i-th candidate on, and what follows them.
  function Tour(st: State, model: string, c: Course, i: nat, last: string, world: Phase -> Input): (State, Outcome)
    decreases |c.ranked| - i
  {
    if i >= |c.ranked| then (st, AllFailed(last))
    else
      var reply := world(Trying(c, i, last)).reply;
      var tried := Tried(st, c, i, reply);
      match reply
      case Failed(error) => Tour(tried, model, c, i + 1, error, world)
      case Replied(response) =>
        (Rewarded(tried, model, c.ranked[i].capability.peer, world(Choosing(c, i, response, st.opts.stickyTTL)).now),
         Answered(response))
  }

  lemma {:induction false} DriveIsTour(env: Env, st: State, req: Request, c: Course, i: nat, last: string, world: Phase -> Input)
    ensures var (end, outcome) := Tour(st, req.model, c, i, last, world);
            Drive(env, st, req, Trying(c, i, last), world) == (end, Ended(outcome))
    decreases |c.ranked| - i
  {
    if i >= |c.ranked| {
      DriveStep(env, st, req, Trying(c, i, last), world);
    } else {
      DriveTrying(env, st, req, c, i, last, world);
      var reply := world(Trying(c, i, last)).reply;
      if reply.Failed? {
        DriveIsTour(env, Tried(st, c, i, reply), req, c, i + 1, reply.error, world);
      }
    }
  }

  lemma {:induction false} TourFrom(st: State, model: string, c: Course, i: nat, last: string, world: Phase -> Input)
    requires i <= |c.ranked|
    ensures var rs := Replies(c, i, last, world);
            var (end, outcome) := Tour(st, model, c, i, last, world);
            && Tallies(st, c, i, rs, end)
            && (EndsWell(st, c, i, rs, model, world, end, outcome) || EndsBadly(st, c, i, rs, last, end, outcome))
    decreases |c.ranked| - i
  {
    var rs := Replies(c, i, last, world);
    if i == |c.ranked| {
      assert rs == [] && st.attempts + [] == st.attempts;
    } else {
      var reply := world(Trying(c, i, last)).reply;
      if reply.Failed? {
        var tried := Tried(st, c, i, reply);
        var rest := Replies(c, i + 1, reply.error, world);
        TourFrom(tried, model, c, i + 1, reply.error, world);
        var (end, outcome) := Tour(tried, model, c, i + 1, reply.error, world);
        MoreTallies(st, c, i, reply, rest, end);
        MoreEnds(st, c, i, reply, rest, model, last, world, end, outcome);
      } else {
        FirstSuccess(st, c, i, reply.response, model, world);
      }
    }
  }

  lemma {:induction false} FirstSuccess(st: State, c: Course, i: nat, response: Response, model: string, world: Phase -> Input)
    requires i < |c.ranked|
    ensures var now := world(Choosing(c, i, response, st.opts.stickyTTL)).now;
            var end := Rewarded(Tried(st, c, i, Replied(response)), model, c.ranked[i].capability.peer, now);
            && Tallies(st, c, i, [Replied(response)], end)
            && EndsWell(st, c, i, [Replied(response)], model, world, end, Answered(response))
  {
    assert [Replied(response)][1..] == [];
    assert AttemptsFrom(c, i, 1) == [Attempt(c.ranked[i].capability, ContextOf(c))];
    var move := Reputation.Move(c.ranked[i].capability.peer, 0.02);
    assert MovesFrom(c, i, [Replied(response)]) == [move] && [move][1..] == [];
  }

  lemma {:induction false} MoreTallies(st: State, c: Course, i: nat, reply: Reply, rest: seq<Reply>, end: State)
    requires i < |c.ranked| && reply.Failed? && Tallies(Tried(st, c, i, reply), c, i + 1, rest, end)
    ensures Tallies(st, c, i, [reply] + rest, end)
  {
    var rs := [reply] + rest;
    var first := Attempt(c.ranked[i].capability, ContextOf(c));
    assert rs[1..] == rest;
    assert AttemptsFrom(c, i, |rs|) == [first] + AttemptsFrom(c, i + 1, |rest|);
    assert (st.attempts + [first]) + AttemptsFrom(c, i + 1, |rest|) == st.attempts + ([first] + AttemptsFrom(c, i + 1, |rest|));
    var move := Reputation.Move(c.ranked[i].capability.peer, -0.1);
    assert ([move] + MovesFrom(c, i + 1, rest))[1..] == MovesFrom(c, i + 1, rest);
  }

  lemma {:induction false} MoreEnds(st: State, c: Course, i: nat, reply: Reply, rest: seq<Reply>, model: string, last: string,
                                    world: Phase -> Input, end: State, o: Outcome)
    requires i < |c.ranked| && reply.Failed?
    requires var tried := Tried(st, c, i, reply);
             EndsWell(tried, c, i + 1, rest, model, world, end, o) || EndsBadly(tried, c, i + 1, rest, reply.error, end, o)
    ensures EndsWell(st, c, i, [reply] + rest, model, world, end, o) || EndsBadly(st, c, i, [reply] + rest, last, end, o)
  {
    var rs := [reply] + rest;
    assert rest != [] ==> rs[|rs| - 1] == rest[|rest| - 1];
  }

  // For any gateway: a call tries its candidates in order up to the first that answers and
  // returns that answer, or fails after every candidate has failed; each failed candidate is
  // penalized once and the winner rewarded once, and only the winner becomes known and sticky.
  lemma {:induction false} FailoverIsFirstSuccess(env: Env, st: State, req: Request, c: Course, world: Phase -> Input)
    ensures var rs := Replies(c, 0, NO_PEERS, world);
            var (end, p) := Drive(env, st, req, Trying(c, 0, NO_PEERS), world);
            && (forall k :: 0 <= k < |rs| - 1 ==> rs[k].Failed?)
            && Tallies(st, c, 0, rs, end)
            && p.Ended?
            && (EndsWell(st, c, 0, rs, req.model, world, end, p.outcome) || EndsBadly(st, c, 0, rs, NO_PEERS, end, p.outcome))
            && (p.outcome.AllFailed? <==> forall k :: 0 <= k < |rs| ==> rs[k].Failed?)
  {
    RepliesAreFirstSuccess(c, 0, NO_PEERS, world);
    TourFrom(st, req.model, c, 0, NO_PEERS, world);
    DriveIsTour(env, st, req, c, 0, NO_PEERS, world);
  }

  // The score of a peer that was not tried does not move.
  lemma {:induction false} UntriedScoresStay(c: Course, i: nat, rs: seq<Reply>, scores: Reputation.Scores, peer: string)
    requires i + |rs| <= |c.ranked|
    requires forall k :: i <= k < i + |rs| ==> c.ranked[k].capability.peer != peer
    ensures Reputation.ScoreOf(Reputation.MovedAll(scores, MovesFrom(c, i, rs)), peer) == Reputation.ScoreOf(scores, peer)
    decreases rs
  {
    if rs == [] {
    } else {
      var first := Reputation.Move(c.ranked[i].capability.peer, if rs[0].Failed? then -0.1 else 0.02);
      var rest := MovesFrom(c, i + 1, rs[1..]);
      assert ([first] + rest)[1..] == rest;
      UntriedScoresStay(c, i + 1, rs[1..], Reputation.Moved(scores, first.peer, first.delta), peer);
    }
  }

  /// Whole calls

  function BlendAll(scores: Option<Reputation.Scores>, caps: seq<Capability>, i: nat): seq<Capability> {
    if scores.None? then caps
    else seq(|caps|, k requires 0 <= k < |caps| => if k < i then caps[k] else Blended(scores.value, caps[k]))
  }

  lemma {:induction false} DriveBlending(env: Env, st: State, req: Request, o: Options, caps: seq<Capability>, i: nat,
                                         world: Phase -> Input)
    requires i <= |caps|
    ensures Drive(env, st, req, Blending(o, caps, i), world)
         == (st, Ranking(o, BlendAll(st.scores, caps, i), PreferencesOf(o, st.known)))
    decreases |caps| - i
  {
    DriveStep(env, st, req, Blending(o, caps, i), world);
    if st.scores.None? || i == |caps| {
      DriveStep(env, st, req, Consulting(o, caps), world);
      assert BlendAll(st.scores, caps, i) == caps;
    } else {
      var next := caps[i := Blended(st.scores.value, caps[i])];
      DriveBlending(env, st, req, o, next, i + 1, world);
      assert BlendAll(st.scores, next, i + 1) == BlendAll(st.scores, caps, i);
    }
  }

  // Blending lowers a reliability to the local score if that is lower, and changes nothing else.
  lemma {:induction false} BlendingOnlyLowers(scores: Reputation.Scores, caps: seq<Capability>, k: nat)
    requires k < |caps|
    ensures var out := BlendAll(Some(scores), caps, 0);
            var local := Reputation.ScoreOf(scores, caps[k].peer);
            && |out| == |caps|
            && out[k].reliability <= local && out[k].reliability <= caps[k].reliability
            && (out[k].reliability == local || out[k].reliability == caps[k].reliability)
            && out[k] == caps[k].(reliability := out[k].reliability)
  {
  }

  predicate CanPay(st: State) {
    st.balance.Some? ==> st.opts.creditCost <= 0 || st.opts.creditCost <= st.balance.value
  }

  function Charged(st: State): State {
    if st.balance.None? then st
    else if 0 < st.opts.creditCost <= st.balance.value then st.(balance := Some(st.balance.value - st.opts.creditCost))
    else st
  }

  // What a call does before it asks the router.
  lemma {:induction false} DrivePreparing(env: Env, st: State, req: Request, world: Phase -> Input)
    ensures var listing := world(Discovering(st.opts)).listing;
            Drive(env, st, req, Start, world) ==
            if !CanPay(st) then (Charged(st), Ended(NoCredits))
            else if listing.NotListed? then (Charged(st), Ended(NoDiscovery(listing.error)))
            else (Charged(st), Ranking(st.opts, BlendAll(st.scores, listing.caps, 0), PreferencesOf(st.opts, st.known)))
  {
    var charged := Charged(st);
    DriveStep(env, st, req, Start, world);
    DriveStep(env, st, req, Paying(st.opts), world);
    if CanPay(st) {
      DriveStep(env, charged, req, Discovering(st.opts), world);
      var listing := world(Discovering(st.opts)).listing;
      if listing.Listed? {
        DriveBlending(env, charged, req, st.opts, listing.caps, 0, world);
      }
    }
  }

  // The candidates after the sticky choice, and the state with a stale choice dropped.
  function Ordered(st: State, model: string, ranked: seq<PeerScore>, now: real): (State, seq<PeerScore>) {
    if st.opts.stickyTTL <= 0.0 || |ranked| < 2 || model !in st.sticky then (st, ranked)
    else if now > st.sticky[model].expires then (st.(sticky := st.sticky - {model}), ranked)
    else (st, Promote(ranked, st.sticky[model].peer))
  }

  lemma {:induction false} DriveSticking(env: Env, st: State, req: Request, o: Options, ranked: seq<PeerScore>, world: Phase -> Input)
    ensures var (mid, order) := Ordered(st, req.model, ranked, world(Reordering(o, ranked)).now);
            Drive(env, st, req, Sticking(o, ranked), world) == Drive(env, mid, req, Solving(o, order), world)
  {
    DriveStep(env, st, req, Sticking(o, ranked), world);
    DriveStep(env, st, req, Reordering(o, ranked), world);
  }

  // The call tried the candidates of its course up to the first reply that is a success, and ended
  // as the replies say; without an identity to prove work for it tried none.
  ghost predicate FailedOver(st: State, c: Course, model: string, world: Phase -> Input, end: State, outcome: Outcome) {
    if c.opts.powDifficulty > 0 && c.opts.peerID == "" then outcome == NoIdentity && end == st
    else
      var rs := Replies(c, 0, NO_PEERS, world);
      && (forall k :: 0 <= k < |rs| - 1 ==> rs[k].Failed?)
      && Tallies(st, c, 0, rs, end)
      && (EndsWell(st, c, 0, rs, model, world, end, outcome) || EndsBadly(st, c, 0, rs, NO_PEERS, end, outcome))
  }

  lemma {:induction false} DriveSolving(env: Env, st: State, req: Request, c: Course, world: Phase -> Input)
    requires c.nonce == NonceFor(env, c.opts, req)
    ensures var (end, p) := Drive(env, st, req, Solving(c.opts, c.ranked), world);
            p.Ended? && FailedOver(st, c, req.model, world, end, p.outcome)
  {
    DriveStep(env, st, req, Solving(c.opts, c.ranked), world);
    if !(c.opts.powDifficulty > 0 && c.opts.peerID == "") {
      FailoverIsFirstSuccess(env, st, req, c, world);
    }
  }

  // Whatever happens in it, a call pays once and is not refunded. If it gets a ranking, its
  // candidates are the ranking in sticky order, tried up to the first success of the gateway; its
  // penalties, its reward, and what becomes known and sticky are those of these attempts.
  lemma {:induction false} CallIsRankedFailover(env: Env, st: State, req: Request, world: Phase -> Input, ranked: seq<PeerScore>,
                                                end: State, outcome: Outcome)
    requires Follows(env, st, req, world, ranked, end, outcome)
    ensures outcome == NoCredits <==> !CanPay(st)
    ensures outcome.NoCredits? || outcome.NoDiscovery? || outcome.NoPeers? ==> end == Charged(st)
    ensures !(outcome.NoCredits? || outcome.NoDiscovery? || outcome.NoPeers?) ==>
              var (mid, order) := Ordered(Charged(st), req.model, ranked, world(Reordering(st.opts, ranked)).now);
              FailedOver(mid, Course(st.opts, order, NonceFor(env, st.opts, req)), req.model, world, end, outcome)
  {
    DrivePreparing(env, st, req, world);
    var (mid, p) := Drive(env, st, req, Start, world);
    if p.Ranking? {
      AfterTheRouter(env, mid, req, p, world, ranked, end, outcome);
    }
  }

  lemma {:induction false} AfterTheRouter(env: Env, st: State, req: Request, p: Phase, world: Phase -> Input,
                                          ranked: seq<PeerScore>, end: State, outcome: Outcome)
    requires p.Ranking? && p.opts == st.opts
    requires Drive(env, st, req, AfterRanking(p, ranked), world) == (end, Ended(outcome))
    ensures !outcome.NoCredits? && !outcome.NoDiscovery?
    ensures if outcome.NoPeers? then end == st
            else
              var (mid, order) := Ordered(st, req.model, ranked, world(Reordering(st.opts, ranked)).now);
              FailedOver(mid, Course(st.opts, order, NonceFor(env, st.opts, req)), req.model, world, end, outcome)
  {
    if ranked != [] {
      var (mid, order) := Ordered(st, req.model, ranked, world(Reordering(st.opts, ranked)).now);
      DriveSticking(env, st, req, st.opts, ranked, world);
      DriveSolving(env, mid, req, Course(st.opts, order, NonceFor(env, st.opts, req)), world);
    }
  }

  /// Runs

  // The options a call has taken and the course it has set, once it has; a request never changes.
  datatype Call = Call(req: Request, phase: Phase, taken: Option<Options>, course: Option<Course>)

  datatype Entry = Entry(id: nat, attempt: Attempt, reply: Reply)

  // A move of the tracker, and the call that made it if one did.
  datatype Marked = Marked(id: Option<nat>, move: Reputation.Move)

  // `log` holds the gateway calls made and `moves` the adjustments of the tracker, in order.
  datatype System = System(st: State, calls: map<nat, Call>, log: seq<Entry>, moves: seq<Marked>)

  // The last three are other users of the tracker and the ledger.
  datatype Event =
    | Enter(id: nat, req: Request)
    | Go(id: nat, input: Input)
    | Rank(id: nat, ranked: seq<PeerScore>)
    | Update(settings: RoutingSettings)
    | Select(peer: string)
    | Move(peer: string, delta: real)
    | Earn(amount: int)
    | Spend(amount: int)

  function CallAfter(env: Env, st: State, c: Call, x: Input): Call {
    var next := Advance(env, st, c.req, c.phase, x).1;
    Call(c.req, next, if c.phase.Start? then Some(st.opts) else c.taken,
         if c.phase.Solving? && next.Trying? then Some(next.course) else c.course)
  }

  function LoggedBy(id: nat, p: Phase, x: Input): seq<Entry> {
    if p.Trying? && p.i < |p.course.ranked|
    then [Entry(id, Attempt(p.course.ranked[p.i].capability, ContextOf(p.course)), x.reply)] else []
  }

  function MovedBy(id: nat, p: Phase): seq<Marked> {
    if (p.Penalizing? || p.Rewarding?) && p.i < |p.course.ranked|
    then [Marked(Some(id), Reputation.Move(p.course.ranked[p.i].capability.peer, if p.Penalizing? then -0.1 else 0.02))]
    else []
  }

  ghost function Step(env: Env, s: System, e: Event): System {
    match e
    case Enter(id, req) => if id in s.calls then s else s.(calls := s.calls[id := Call(req, Start, None, None)])
    case Go(id, x) =>
      if id !in s.calls then s
      else
        var c := s.calls[id];
        System(Advance(env, s.st, c.req, c.phase, x).0,
               s.calls[id := CallAfter(env, s.st, c, x)],
               s.log + LoggedBy(id, c.phase, x),
               s.moves + MovedBy(id, c.phase))
    case Rank(id, ranked) =>
      if id in s.calls && s.calls[id].phase.Ranking?
         && IsRanking(env.weights, s.calls[id].phase.caps, s.calls[id].req, s.calls[id].phase.pref, ranked)
      then s.(calls := s.calls[id := s.calls[id].(phase := AfterRanking(s.calls[id].phase, ranked))])
      else s
    case Update(settings) => s.(st := s.st.(opts := WithSettings(s.st.opts, settings)))
    case Select(peer) => s.(st := s.st.(opts := Pinned(s.st.opts, peer)))
    case Move(peer, delta) =>
      s.(st := Adjusted(s.st, peer, delta), moves := s.moves + [Marked(None, Reputation.Move(peer, delta))])
    case Earn(amount) =>
      if s.st.balance.None? then s else s.(st := s.st.(balance := Some(Accounting.Earned(s.st.balance.value, amount))))
    case Spend(amount) =>
      if s.st.balance.None? then s else s.(st := s.st.(balance := Some(Accounting.Spent(s.st.balance.value, amount).0)))
  }

  ghost function Run(env: Env, s: System, es: seq<Event>): System
    decreases es
  {
    if es == [] then s else Run(env, Step(env, s, es[0]), es[1..])
  }

  // Driving a call is a run in which only this call moves, so what holds of every run holds of
  // the methods.
  lemma {:induction false} DriveIsRun(env: Env, s: System, id: nat, world: Phase -> Input) returns (es: seq<Event>)
    requires id in s.calls
    ensures forall e :: e in es ==> e.Go? && e.id == id
    ensures var t := Run(env, s, es);
            && id in t.calls
            && (t.st, t.calls[id].phase) == Drive(env, s.st, s.calls[id].req, s.calls[id].phase, world)
    decreases Stage(s.calls[id].phase), Left(s.calls[id].phase)
  {
    var p := s.calls[id].phase;
    if Waits(p) {
      es := [];
    } else {
      var e := Go(id, world(p));
      DriveStep(env, s.st, s.calls[id].req, p, world);
      StageFalls(env, s.st, s.calls[id].req, p, world(p));
      var rest := DriveIsRun(env, Step(env, s, e), id, world);
      es := [e] + rest;
      assert es[1..] == rest;
    }
  }

  lemma {:induction false} StageFalls(env: Env, st: State, req: Request, p: Phase, x: Input)
    requires !Waits(p)
    ensures var q := Advance(env, st, req, p, x).1; Stage(q) < Stage(p) || (Stage(q) == Stage(p) && Left(q) < Left(p))
  {
  }

  /// Routing safety

  // The options let the call try this peer.
  ghost predicate Permits(o: Options, req: Request, c: Capability) {
    && (c.peer in o.blocked ==> c.peer == "")
    && (o.policy == "manual" && (exists i :: i in o.allowed && i != "") ==> c.peer in o.allowed && c.peer != "")
    && FitsRequest(c, req)
  }

  ghost predicate AllPermitted(o: Options, req: Request, ranked: seq<PeerScore>) {
    forall p :: p in ranked ==> Permits(o, req, p.capability)
  }

  ghost predicate Sane(c: Call, known: set<string>) {
    match c.phase
    case Start => c.taken.None?
    case Paying(o) => c.taken == Some(o)
    case Discovering(o) => c.taken == Some(o)
    case Blending(o, _, _) => c.taken == Some(o)
    case Consulting(o, _) => c.taken == Some(o)
    case Ranking(o, _, pref) =>
      c.taken == Some(o) && pref.policy == o.policy && pref.blocked == ToSet(o.blocked) && pref.allowed == ToSet(o.allowed)
    case Sticking(o, ranked) => c.taken == Some(o) && AllPermitted(o, c.req, ranked)
    case Reordering(o, ranked) => c.taken == Some(o) && AllPermitted(o, c.req, ranked)
    case Solving(o, ranked) => c.taken == Some(o) && AllPermitted(o, c.req, ranked)
    case Trying(d, _, _) => c.taken == Some(d.opts) && AllPermitted(d.opts, c.req, d.ranked)
    case Penalizing(d, _, _) => c.taken == Some(d.opts) && AllPermitted(d.opts, c.req, d.ranked)
    case Rewarding(d, i, _) => c.taken == Some(d.opts) && i < |d.ranked|
    case Marking(d, i, _) => c.taken == Some(d.opts) && i < |d.ranked|
    case Resticking(d, i, _) => c.taken == Some(d.opts) && i < |d.ranked| && d.ranked[i].capability.peer in known
    case Choosing(d, i, _, _) => c.taken == Some(d.opts) && i < |d.ranked| && d.ranked[i].capability.peer in known
    case Ended(_) => c.taken.Some?
  }

  ghost predicate StickyAreKnown(st: State) {
    forall m :: m in st.sticky ==> st.sticky[m].peer in st.known
  }

  // An attempt was one the options taken by its call permit.
  ghost predicate Permitted(s: System, e: Entry) {
    && e.id in s.calls && s.calls[e.id].taken.Some?
    && Permits(s.calls[e.id].taken.value, s.calls[e.id].req, e.attempt.capability)
  }

  ghost predicate Safe(s: System) {
    && StickyAreKnown(s.st)
    && (forall id :: id in s.calls ==> Sane(s.calls[id], s.st.known))
    && forall e :: e in s.log ==> Permitted(s, e)
  }

  // The named favorites are the favorites: if one of them fits, only they are ranked under their policy.
  lemma {:induction false} FavoritesAreTheNamed(w: Weights, caps: seq<Capability>, req: Request, o: Options, known: set<string>,
                                                ranked: seq<PeerScore>, c: Capability)
    requires o.policy == "prefer_favorites" && IsRanking(w, caps, req, PreferencesOf(o, known), ranked)
    requires c in caps && FitsRequest(c, req) && c.peer != "" && c.peer in o.favorites
    ensures forall p :: p in ranked ==> p.capability.peer in o.favorites
  {
    RankingIsExact(w, caps, req, PreferencesOf(o, known), ranked);
    assert c.peer in PreferencesOf(o, known).favorites;
  }

  // Who gets a bonus: the named favorites always, and under the policy for them the peers known when the
  // call looked; nobody else.
  lemma {:induction false} BonusesAreDue(w: Weights, o: Options, known: set<string>, c: Capability)
    requires c.vramFreeMB > 0
    ensures var plain := ScoreOf(w, Preferences("auto", {}, {}, {}, {}), c);
            var scored := ScoreOf(w, PreferencesOf(o, known), c);
            && plain.Finite? && scored.Finite?
            && plain.value - scored.value ==
               (if c.peer != "" && c.peer in o.favorites then w.favoriteBonus else 0.0)
               + (if o.policy == "prefer_known" && c.peer in known then w.knownBonus else 0.0)
  {
    ScoreInArithmetic(w, Preferences("auto", {}, {}, {}, {}), c);
    ScoreInArithmetic(w, PreferencesOf(o, known), c);
  }

  // An update takes effect setting by setting, and touches nothing else of the options.
  lemma {:induction false} UpdateTakesEffect(o: Options, s: RoutingSettings)
    ensures var u := WithSettings(o, s);
            && (if s.policy == "" then u.policy == o.policy else u.policy == s.policy)
            && (if s.favorites.None? then u.favorites == o.favorites else u.favorites == s.favorites.value)
            && (if s.blocked.None? then u.blocked == o.blocked else u.blocked == s.blocked.value)
            && (if s.allowed.None? then u.allowed == o.allowed else u.allowed == s.allowed.value)
            && (if s.stickyTTL < 0.0 then u.stickyTTL == o.stickyTTL else u.stickyTTL == s.stickyTTL)
            && u.peerID == o.peerID && u.peerName == o.peerName && u.powDifficulty == o.powDifficulty
            && u.powMaxIters == o.powMaxIters && u.creditCost == o.creditCost
  {
  }

  // Under the manual policy only listed peers are ranked, exactly when the list names some peer
  // or no other peer could be ranked anyway: empty ids are dropped from the list, and a list of
  // nothing else restricts nothing.
  lemma {:induction false} ManualKeepsToList(w: Weights, caps: seq<Capability>, req: Request, o: Options, known: set<string>,
                                             ranked: seq<PeerScore>)
    requires o.policy == MANUAL && IsRanking(w, caps, req, PreferencesOf(o, known), ranked)
    ensures (forall p :: p in ranked ==> p.capability.peer in o.allowed) <==>
            || (exists i :: i in o.allowed && i != "")
            || (forall c :: c in caps && Supports(c, req) && c.peer !in ToSet(o.blocked) ==> c.peer in o.allowed)
  {
    var pref := PreferencesOf(o, known);
    RankingIsEligible(w, caps, req, pref, ranked);
    if exists i :: i in o.allowed && i != "" {
      var i :| i in o.allowed && i != "";
      assert i in ToSet(o.allowed);
    } else {
      assert ToSet(o.allowed) == {};
      forall c | c in caps && Supports(c, req) && c.peer !in ToSet(o.blocked)
        ensures PeerScore(c, ScoreOf(w, pref, c)) in ranked
      {
      }
    }
  }

  // The same for the settings and for a peer selected by hand.
  lemma {:induction false} PinKeepsToPeer(w: Weights, caps: seq<Capability>, req: Request, o: Options, known: set<string>,
                                          peer: string, ranked: seq<PeerScore>)
    requires IsRanking(w, caps, req, PreferencesOf(Pinned(o, peer), known), ranked)
    ensures (forall p :: p in ranked ==> p.capability.peer == peer) <==>
            || peer != ""
            || (forall c :: c in caps && Supports(c, req) && c.peer !in ToSet(o.blocked) ==> c.peer == "")
  {
    var pinned := Pinned(o, peer);
    ManualKeepsToList(w, caps, req, pinned, known, ranked);
    assert pinned.allowed == [peer] && pinned.blocked == o.blocked;
    assert peer in pinned.allowed;
    assert (exists i :: i in pinned.allowed && i != "") <==> peer != "";
    assert (forall p :: p in ranked ==> p.capability.peer in pinned.allowed) <==> forall p :: p in ranked ==> p.capability.peer == peer;
  }

  // For instance: the settings allow only the empty id, and another peer is ranked.
  lemma {:induction false} EmptyIdAllowsAll(w: Weights, o: Options, known: set<string>, ranked: seq<PeerScore>)
    requires o.blocked == []
    requires var b := Capability("b", "", [ModelSpec("m", "", "", "", "")], [], 1, 0, 0, 1.0, "", 0.0);
             var req := Request("m", None, false, 0, Requirements("", "", "", ""), map[]);
             var after := WithSettings(o, RoutingSettings(MANUAL, None, None, Some([""]), 0.0));
             IsRanking(w, [b], req, PreferencesOf(after, known), ranked)
    ensures exists p :: p in ranked && p.capability.peer == "b"
  {
    var b := Capability("b", "", [ModelSpec("m", "", "", "", "")], [], 1, 0, 0, 1.0, "", 0.0);
    var req := Request("m", None, false, 0, Requirements("", "", "", ""), map[]);
    var pref := PreferencesOf(WithSettings(o, RoutingSettings(MANUAL, None, None, Some([""]), 0.0)), known);
    RankingIsEligible(w, [b], req, pref, ranked);
    assert b.models[0] in b.models && Supports(b, req);
    assert b in [b] && Eligible([b], req, pref, b);
    assert PeerScore(b, ScoreOf(w, pref, b)) in ranked;
  }

  lemma {:induction false} RankedArePermitted(env: Env, c: Call, ranked: seq<PeerScore>)
    requires c.phase.Ranking? && Sane(c, {})
    requires IsRanking(env.weights, c.phase.caps, c.req, c.phase.pref, ranked)
    ensures AllPermitted(c.phase.opts, c.req, ranked)
  {
    RankingIsEligible(env.weights, c.phase.caps, c.req, c.phase.pref, ranked);
    forall p | p in ranked
      ensures Permits(c.phase.opts, c.req, p.capability)
    {
      SupportsIsFit(p.capability, c.req);
      if exists i :: i in c.phase.opts.allowed && i != "" {
        var i :| i in c.phase.opts.allowed && i != "";
        assert i in ToSet(c.phase.opts.allowed);
      }
    }
  }

  lemma {:induction false} PromotedArePermitted(o: Options, req: Request, ranked: seq<PeerScore>, peer: string)
    requires AllPermitted(o, req, ranked)
    ensures AllPermitted(o, req, Promote(ranked, peer))
  {
    PromoteOnlyPromotes(ranked, peer);
    SameMembers(ranked, Promote(ranked, peer));
  }

  // A step of a call keeps the call sane, the sticky choices known, and every known peer known.
  lemma {:induction false} AdvanceSafe(env: Env, st: State, c: Call, x: Input)
    requires StickyAreKnown(st) && Sane(c, st.known)
    ensures var (next, p) := Advance(env, st, c.req, c.phase, x);
            && StickyAreKnown(next) && st.known <= next.known
            && Sane(CallAfter(env, st, c, x), next.known)
  {
    if c.phase.Reordering? && c.req.model in st.sticky {
      PromotedArePermitted(c.phase.opts, c.req, c.phase.ranked, st.sticky[c.req.model].peer);
    }
  }

  lemma {:induction false} GoSafe(env: Env, s: System, id: nat, x: Input)
    requires Safe(s) && id in s.calls
    ensures Safe(Step(env, s, Go(id, x)))
  {
    AdvanceSafe(env, s.st, s.calls[id], x);
    var t := Step(env, s, Go(id, x));
    forall k | k in t.calls
      ensures Sane(t.calls[k], t.st.known)
    {
      if k != id {
        assert s.st.known <= t.st.known && Sane(s.calls[k], s.st.known);
      }
    }
    forall e | e in t.log
      ensures Permitted(t, e)
    {
      if e in s.log {
        assert Permitted(s, e);
      } else {
        var d := s.calls[id].phase;
        assert d.course.ranked[d.i] in d.course.ranked;
      }
    }
  }

  lemma {:induction false} RankSafe(env: Env, s: System, id: nat, ranked: seq<PeerScore>)
    requires Safe(s)
    ensures Safe(Step(env, s, Rank(id, ranked)))
  {
    var t := Step(env, s, Rank(id, ranked));
    if t != s {
      RankedArePermitted(env, s.calls[id], ranked);
      assert Sane(t.calls[id], t.st.known);
      forall e | e in t.log
        ensures Permitted(t, e)
      {
        assert Permitted(s, e);
      }
    }
  }

  lemma {:induction false} StepSafe(env: Env, s: System, e: Event)
    requires Safe(s)
    ensures Safe(Step(env, s, e))
  {
    match e
    case Go(id, x) =>
      if id in s.calls {
        GoSafe(env, s, id, x);
      }
    case Rank(id, ranked) => RankSafe(env, s, id, ranked);
    case Enter(id, req) =>
      forall a | a in s.log
        ensures Permitted(Step(env, s, e), a)
      {
        assert Permitted(s, a);
      }
    case _ => OthersSafe(env, s, e);
  }

  lemma {:induction false} OthersSafe(env: Env, s: System, e: Event)
    requires Safe(s) && !e.Go? && !e.Rank? && !e.Enter?
    ensures Safe(Step(env, s, e))
  {
    var t := Step(env, s, e);
    assert t.calls == s.calls && t.log == s.log && t.st.sticky == s.st.sticky && t.st.known == s.st.known;
    forall a | a in t.log
      ensures Permitted(t, a)
    {
      assert Permitted(s, a);
    }
  }

  // Over every run, with any number of calls interleaved with settings updates and manual
  // selections: every gateway attempt went to a peer that the options taken by its own call do
  // not block, allow, and find fit for the request; and every sticky peer is known.
  lemma {:induction false} RoutingSafety(env: Env, s: System, es: seq<Event>)
    requires Safe(s)
    ensures Safe(Run(env, s, es))
    decreases es
  {
    if es == [] {
    } else {
      StepSafe(env, s, es[0]);
      RoutingSafety(env, Step(env, s, es[0]), es[1..]);
    }
  }

  lemma {:induction false} FreshServiceIsSafe(st: State)
    requires st.sticky == map[]
    ensures Safe(System(st, map[], [], []))
  {
  }

  /// Failover in any interleaving

  function LogOf(log: seq<Entry>, id: nat): seq<Entry> {
    if log == [] then []
    else
      var e := log[|log| - 1];
      LogOf(log[..|log| - 1], id) + if e.id == id then [e] else []
  }

  function MovesOf(moves: seq<Marked>, id: nat): seq<Reputation.Move> {
    if moves == [] then []
    else
      var m := moves[|moves| - 1];
      MovesOf(moves[..|moves| - 1], id) + if m.id == Some(id) then [m.move] else []
  }

  function Unmarked(moves: seq<Marked>): seq<Reputation.Move> {
    if moves == [] then [] else Unmarked(moves[..|moves| - 1]) + [moves[|moves| - 1].move]
  }

  // The penalty or the reward that each logged attempt calls for.
  function Dues(mine: seq<Entry>): seq<Reputation.Move> {
    if mine == [] then []
    else
      var e := mine[|mine| - 1];
      Dues(mine[..|mine| - 1]) + [Reputation.Move(e.attempt.capability.peer, if e.reply.Failed? then -0.1 else 0.02)]
  }

  // The attempts are those of the first candidates of the course, in order.
  ghost predicate Along(c: Course, mine: seq<Entry>) {
    && |mine| <= |c.ranked|
    && forall k :: 0 <= k < |mine| ==>
                     mine[k].attempt == Attempt(c.ranked[k].capability, PeerContext(c.opts.peerID, c.opts.peerName, c.nonce))
  }

  ghost predicate FailedUpTo(mine: seq<Entry>, n: int) {
    forall k :: 0 <= k < n && k < |mine| ==> mine[k].reply.Failed?
  }

  ghost predicate Won(c: Course, mine: seq<Entry>, response: Response) {
    && mine != [] && Along(c, mine) && FailedUpTo(mine, |mine| - 1)
    && mine[|mine| - 1].reply == Replied(response)
  }

  // Where a call stands against its own log and its own moves of the tracker.
  ghost predicate OnCourse(c: Call, mine: seq<Entry>, moved: seq<Reputation.Move>) {
    match c.phase
    case Trying(d, i, _) =>
      c.course == Some(d) && i == |mine| && Along(d, mine) && FailedUpTo(mine, i) && moved == Dues(mine)
    case Penalizing(d, i, _) =>
      c.course == Some(d) && i + 1 == |mine| && Along(d, mine) && FailedUpTo(mine, i + 1) && moved == Dues(mine[..i])
    case Rewarding(d, i, response) =>
      c.course == Some(d) && i + 1 == |mine| && Won(d, mine, response) && moved == Dues(mine[..i])
    case Marking(d, i, response) => c.course == Some(d) && i + 1 == |mine| && Won(d, mine, response) && moved == Dues(mine)
    case Resticking(d, i, response) => c.course == Some(d) && Won(d, mine, response) && moved == Dues(mine)
    case Choosing(d, i, response, _) => c.course == Some(d) && Won(d, mine, response) && moved == Dues(mine)
    case Ended(outcome) => EndedOnCourse(c.course, mine, outcome) && moved == Dues(mine)
    case _ => c.course.None? && mine == [] && moved == []
  }

  ghost predicate EndedOnCourse(course: Option<Course>, mine: seq<Entry>, outcome: Outcome) {
    match outcome
    case Answered(response) => course.Some? && Won(course.value, mine, response)
    case AllFailed(_) =>
      course.Some? && Along(course.value, mine) && |mine| == |course.value.ranked| && FailedUpTo(mine, |mine|)
    case _ => course.None? && mine == []
  }

  lemma {:induction false} AttemptOnCourse(env: Env, st: State, id: nat, c: Call, x: Input, mine: seq<Entry>,
                                           moved: seq<Reputation.Move>)
    requires c.phase.Trying? && OnCourse(c, mine, moved)
    ensures OnCourse(CallAfter(env, st, c, x), mine + LoggedBy(id, c.phase, x), moved)
  {
    var logged := LoggedBy(id, c.phase, x);
    if logged == [] {
      assert mine + logged == mine;
    } else {
      var after := mine + logged;
      assert after[..|mine|] == mine;
      assert forall k :: 0 <= k < |mine| ==> after[k] == mine[k];
    }
  }

  lemma {:induction false} SettleOnCourse(env: Env, st: State, id: nat, c: Call, x: Input, mine: seq<Entry>,
                                          moved: seq<Reputation.Move>)
    requires (c.phase.Penalizing? || c.phase.Rewarding?) && OnCourse(c, mine, moved)
    ensures |MovedBy(id, c.phase)| == 1
    ensures OnCourse(CallAfter(env, st, c, x), mine, moved + [MovedBy(id, c.phase)[0].move])
  {
    assert mine[c.phase.i].attempt == Attempt(c.phase.course.ranked[c.phase.i].capability, ContextOf(c.phase.course));
    assert Dues(mine) == Dues(mine[..c.phase.i]) + [MovedBy(id, c.phase)[0].move];
  }

  lemma {:induction false} OthersOnCourse(env: Env, st: State, c: Call, x: Input, mine: seq<Entry>, moved: seq<Reputation.Move>)
    requires !c.phase.Trying? && !c.phase.Penalizing? && !c.phase.Rewarding? && OnCourse(c, mine, moved)
    ensures OnCourse(CallAfter(env, st, c, x), mine, moved)
  {
  }

  // The log and the moves of the whole system against those of one call.
  lemma {:induction false} LogAdds(log: seq<Entry>, more: seq<Entry>, id: nat)
    requires |more| <= 1
    ensures LogOf(log + more, id) == LogOf(log, id) + (if more != [] && more[0].id == id then more else [])
  {
    if more == [] {
      assert log + more == log && LogOf(log, id) + [] == LogOf(log, id);
    } else {
      assert (log + more)[..|log|] == log && more == [more[0]];
    }
  }

  lemma {:induction false} MovesAdd(moves: seq<Marked>, more: seq<Marked>, id: nat)
    requires |more| <= 1
    ensures MovesOf(moves + more, id) ==
            MovesOf(moves, id) + (if more != [] && more[0].id == Some(id) then [more[0].move] else [])
  {
    if more == [] {
      assert moves + more == moves && MovesOf(moves, id) + [] == MovesOf(moves, id);
    } else {
      assert (moves + more)[..|moves|] == moves;
    }
  }

  lemma {:induction false} GoOnCourse(env: Env, s: System, id: nat, x: Input)
    requires id in s.calls && OnCourse(s.calls[id], LogOf(s.log, id), MovesOf(s.moves, id))
    ensures var t := Step(env, s, Go(id, x)); OnCourse(t.calls[id], LogOf(t.log, id), MovesOf(t.moves, id))
  {
    var c, mine, moved := s.calls[id], LogOf(s.log, id), MovesOf(s.moves, id);
    LogAdds(s.log, LoggedBy(id, c.phase, x), id);
    MovesAdd(s.moves, MovedBy(id, c.phase), id);
    assert mine + [] == mine && moved + [] == moved;
    if c.phase.Trying? {
      AttemptOnCourse(env, s.st, id, c, x, mine, moved);
      assert mine + LoggedBy(id, c.phase, x) == LogOf(s.log + LoggedBy(id, c.phase, x), id);
    } else if c.phase.Penalizing? || c.phase.Rewarding? {
      SettleOnCourse(env, s.st, id, c, x, mine, moved);
    } else {
      OthersOnCourse(env, s.st, c, x, mine, moved);
    }
  }

  // Every call is on course, and the tracker holds what its moves have made of its first scores.
  ghost predicate AllOnCourse(s: System, scores: Reputation.Scores) {
    CallsOnCourse(s) && Accounted(s.st, s.moves, scores)
  }

  ghost predicate CallsOnCourse(s: System) {
    forall id: nat :: OnCourseAt(s, id)
  }

  ghost predicate OnCourseAt(s: System, id: nat) {
    if id in s.calls then OnCourse(s.calls[id], LogOf(s.log, id), MovesOf(s.moves, id))
    else LogOf(s.log, id) == [] && MovesOf(s.moves, id) == []
  }

  ghost predicate Accounted(st: State, moves: seq<Marked>, scores: Reputation.Scores) {
    st.scores.Some? ==> st.scores.value == Reputation.MovedAll(scores, Unmarked(moves))
  }

  lemma {:induction false} ScoresFollow(scores: Reputation.Scores, st: State, moves: seq<Marked>, m: Marked)
    requires Accounted(st, moves, scores)
    ensures Accounted(Adjusted(st, m.move.peer, m.move.delta), moves + [m], scores)
  {
    assert (moves + [m])[..|moves|] == moves;
    Reputation.MovedAllAppend(scores, Unmarked(moves), [m.move]);
    assert [m.move][1..] == [];
  }

  lemma {:induction false} AdvanceMoves(env: Env, st: State, id: nat, c: Call, x: Input)
    ensures var moved := MovedBy(id, c.phase);
            Advance(env, st, c.req, c.phase, x).0.scores
            == if moved == [] then st.scores else Adjusted(st, moved[0].move.peer, moved[0].move.delta).scores
  {
  }

  lemma {:induction false} StepOnCourse(env: Env, s: System, e: Event, scores: Reputation.Scores)
    requires AllOnCourse(s, scores)
    ensures AllOnCourse(Step(env, s, e), scores)
  {
    match e
    case Go(id, x) =>
      if id in s.calls {
        GoCallsOnCourse(env, s, id, x);
        GoAccounted(env, s, id, x, scores);
      }
    case Move(peer, delta) => ScoresFollow(scores, s.st, s.moves, Marked(None, Reputation.Move(peer, delta)));
      OthersOnTheirCourse(env, s, e);
    case _ => OthersOnTheirCourse(env, s, e);
  }

  lemma {:induction false} OthersOnTheirCourse(env: Env, s: System, e: Event)
    requires CallsOnCourse(s) && !e.Go?
    ensures CallsOnCourse(Step(env, s, e))
  {
    forall k: nat
      ensures OnCourseAt(Step(env, s, e), k)
    {
      assert OnCourseAt(s, k);
      if e.Move? {
        MoveOnCourseAt(env, s, e.peer, e.delta, k);
      } else {
        OtherOnCourseAt(env, s, e, k);
      }
    }
  }

  lemma {:induction false} MoveOnCourseAt(env: Env, s: System, peer: string, delta: real, k: nat)
    requires OnCourseAt(s, k)
    ensures OnCourseAt(Step(env, s, Move(peer, delta)), k)
  {
    MovesAdd(s.moves, [Marked(None, Reputation.Move(peer, delta))], k);
    assert MovesOf(s.moves, k) + [] == MovesOf(s.moves, k);
  }

  lemma {:induction false} OtherOnCourseAt(env: Env, s: System, e: Event, k: nat)
    requires OnCourseAt(s, k) && !e.Go? && !e.Move?
    ensures OnCourseAt(Step(env, s, e), k)
  {
    var t := Step(env, s, e);
    assert t.log == s.log && t.moves == s.moves;
  }

  lemma {:induction false} GoCallsOnCourse(env: Env, s: System, id: nat, x: Input)
    requires CallsOnCourse(s) && id in s.calls
    ensures CallsOnCourse(Step(env, s, Go(id, x)))
  {
    forall k: nat
      ensures OnCourseAt(Step(env, s, Go(id, x)), k)
    {
      assert OnCourseAt(s, k) && OnCourseAt(s, id);
      GoOnCourseAt(env, s, id, x, k);
    }
  }

  lemma {:induction false} GoOnCourseAt(env: Env, s: System, id: nat, x: Input, k: nat)
    requires id in s.calls && OnCourseAt(s, id) && OnCourseAt(s, k)
    ensures OnCourseAt(Step(env, s, Go(id, x)), k)
  {
    if k == id {
      GoOnCourse(env, s, id, x);
    } else {
      OthersKeepLogs(s.log, s.moves, id, s.calls[id].phase, x, k);
    }
  }

  lemma {:induction false} OthersKeepLogs(log: seq<Entry>, moves: seq<Marked>, id: nat, p: Phase, x: Input, k: nat)
    requires k != id
    ensures LogOf(log + LoggedBy(id, p, x), k) == LogOf(log, k)
    ensures MovesOf(moves + MovedBy(id, p), k) == MovesOf(moves, k)
  {
    LogAdds(log, LoggedBy(id, p, x), k);
    MovesAdd(moves, MovedBy(id, p), k);
  }

  lemma {:induction false} GoAccounted(env: Env, s: System, id: nat, x: Input, scores: Reputation.Scores)
    requires Accounted(s.st, s.moves, scores) && id in s.calls
    ensures var t := Step(env, s, Go(id, x)); Accounted(t.st, t.moves, scores)
  {
    var c := s.calls[id];
    var moved := MovedBy(id, c.phase);
    AdvanceMoves(env, s.st, id, c, x);
    if moved == [] {
      assert s.moves + moved == s.moves;
    } else {
      ScoresFollow(scores, s.st, s.moves, moved[0]);
      assert moved == [moved[0]];
    }
  }

  // Over every run, however calls interleave: the attempts of each call are those of the first
  // candidates of its own course, in order, all failed but perhaps the last, and a call that has
  // ended returns the success or has tried them all; the moves a call makes are one penalty for
  // each failure and one reward for the success; and the tracker's scores are the work of the
  // calls' moves and of its other users alone.
  lemma {:induction false} InterleavedFailover(env: Env, s: System, es: seq<Event>, scores: Reputation.Scores)
    requires AllOnCourse(s, scores)
    ensures AllOnCourse(Run(env, s, es), scores)
    decreases es
  {
    if es == [] {
    } else {
      StepOnCourse(env, s, es[0], scores);
      InterleavedFailover(env, Step(env, s, es[0]), es[1..], scores);
    }
  }

  lemma {:induction false} FreshServiceIsOnCourse(st: State, scores: Reputation.Scores)
    requires st.scores.Some? ==> st.scores.value == scores
    ensures AllOnCourse(System(st, map[], [], []), scores)
  {
  }
}
