/**
 The router: peers that may serve a request, scored and ranked. Lower is better.

 Scores are real numbers with the two infinities and the undefined value of the source's
 floating point, which a peer without free memory can cause. The library sort is known only by
 its contract: it permutes, and it sorts what can be sorted.
 */
module Routing {
  import opened Mesh

  /// Scores

  datatype Score = Finite(value: real) | PosInf | NegInf | NaN {
    predicate Less(other: Score) {
      || (this.Finite? && other.Finite? && this.value < other.value)
      || (this.NegInf? && (other.Finite? || other.PosInf?))
      || (this.Finite? && other.PosInf?)
    }

    function Plus(r: real): Score {
      match this
      case Finite(a) => Finite(a + r)
      case _ => this
    }
  }

  // A weight times infinity.
  function TimesInf(w: real): Score {
    if w > 0.0 then PosInf else if w < 0.0 then NegInf else NaN
  }

  datatype Weights = Weights(
    latency: real, queueDepth: real, vramPressure: real, reliability: real, favoriteBonus: real, knownBonus: real)

  function ReliabilityPenalty(c: Capability): real {
    if 1.0 - c.reliability < 0.0 then 0.0 else 1.0 - c.reliability
  }

  function VramTerm(w: Weights, c: Capability): Score {
    if c.vramFreeMB > 0 then Finite(Times(w.vramPressure, 1.0 / c.vramFreeMB as real)) else TimesInf(w.vramPressure)
  }

  function Times(a: real, b: real): real {
    a * b
  }

  function RawScore(w: Weights, c: Capability): Score {
    VramTerm(w, c)
      .Plus(Times(w.latency, c.avgLatencyMS as real) + Times(w.queueDepth, c.queueDepth as real)
            + Times(w.reliability, ReliabilityPenalty(c)))
  }

  datatype Preferences = Preferences(
    policy: string, favorites: set<string>, known: set<string>, allowed: set<string>, blocked: set<string>)

  const MANUAL := "manual"
  const PREFER_FAVORITES := "prefer_favorites"
  const PREFER_KNOWN := "prefer_known"

  function Bonus(w: Weights, pref: Preferences, peer: string): real {
    (if peer in pref.favorites then w.favoriteBonus else 0.0)
    + if pref.policy == PREFER_KNOWN && peer in pref.known then w.knownBonus else 0.0
  }

  function ScoreOf(w: Weights, pref: Preferences, c: Capability): Score {
    RawScore(w, c).Plus(-Bonus(w, pref, c.peer))
  }

  /// Eligibility

  predicate Supports(c: Capability, req: Request) {
    c.Supports(req.model, req.requirements)
  }

  predicate HasFavorite(peers: seq<Capability>, req: Request, pref: Preferences) {
    exists i :: 0 <= i < |peers| && peers[i].peer in pref.favorites && Supports(peers[i], req)
  }

  predicate Eligible(peers: seq<Capability>, req: Request, pref: Preferences, c: Capability) {
    && c.peer !in pref.blocked
    && (pref.policy == MANUAL && pref.allowed != {} ==> c.peer in pref.allowed)
    && (pref.policy == PREFER_FAVORITES && HasFavorite(peers, req, pref) ==> c.peer in pref.favorites)
    && Supports(c, req)
  }

  datatype PeerScore = PeerScore(capability: Capability, score: Score)

  // The eligible ones among `some`, scored, in order.
  function Scored(w: Weights, peers: seq<Capability>, req: Request, pref: Preferences, some: seq<Capability>): seq<PeerScore> {
    if some == [] then []
    else
      var c := some[|some| - 1];
      Scored(w, peers, req, pref, some[..|some| - 1])
      + if Eligible(peers, req, pref, c) then [PeerScore(c, ScoreOf(w, pref, c))] else []
  }

  ghost predicate Ascends(s: seq<PeerScore>) {
    forall i, j :: 0 <= i < j < |s| ==> !s[j].score.Less(s[i].score)
  }

  ghost predicate Comparable(s: seq<PeerScore>) {
    forall p :: p in s ==> !p.score.NaN?
  }

  // What a ranking is: the scored eligible peers, permuted, and ascending when all are comparable.
  ghost predicate IsRanking(w: Weights, peers: seq<Capability>, req: Request, pref: Preferences, ranked: seq<PeerScore>) {
    && multiset(ranked) == multiset(Scored(w, peers, req, pref, peers))
    && (Comparable(ranked) ==> Ascends(ranked))
  }

  class Router {
    const weights: Weights

    constructor (weights: Weights)
      ensures this.weights == weights
    {
      this.weights := weights;
    }

    method Score(c: Capability) returns (s: Score)
      ensures s == RawScore(weights, c)
    {
      var vram: Score;
      if c.vramFreeMB > 0 {
        vram := Finite(Times(weights.vramPressure, 1.0 / c.vramFreeMB as real));
      } else {
        vram := TimesInf(weights.vramPressure);
      }
      var penalty := 1.0 - c.reliability;
      if penalty < 0.0 {
        penalty := 0.0;
      }
      s := vram.Plus(Times(weights.latency, c.avgLatencyMS as real) + Times(weights.queueDepth, c.queueDepth as real)
                     + Times(weights.reliability, penalty));
    }

    method RankWithPreferences(peers: seq<Capability>, req: Request, pref: Preferences) returns (ranked: seq<PeerScore>)
      ensures IsRanking(weights, peers, req, pref, ranked)
    {
      var scored := ScoreEligible(peers, req, pref);
      var a := new PeerScore[|scored|](i requires 0 <= i < |scored| => scored[i]);
      assert a[..] == scored;
      SortByScore(a);
      ranked := a[..];
      SameMembers(ranked, scored);
    }

    method ScoreEligible(peers: seq<Capability>, req: Request, pref: Preferences) returns (scored: seq<PeerScore>)
      ensures scored == Scored(weights, peers, req, pref, peers)
    {
      var hasFavCandidates := FindFavorite(peers, req, pref);
      scored := [];
      var i := 0;
      while i < |peers|
        invariant 0 <= i <= |peers|
        invariant scored == Scored(weights, peers, req, pref, peers[..i])
      {
        var p := peers[i];
        assert peers[..i + 1][..i] == peers[..i];
        i := i + 1;
        if p.peer in pref.blocked {
          continue;
        }
        if pref.policy == MANUAL && |pref.allowed| > 0 && p.peer !in pref.allowed {
          continue;
        }
        if pref.policy == PREFER_FAVORITES && hasFavCandidates && p.peer !in pref.favorites {
          continue;
        }
        if !Supports(p, req) {
          continue;
        }
        var score := Score(p);
        var bonus := 0.0;
        if p.peer in pref.favorites {
          bonus := bonus + weights.favoriteBonus;
        }
        if pref.policy == PREFER_KNOWN && p.peer in pref.known {
          bonus := bonus + weights.knownBonus;
        }
        scored := scored + [PeerScore(p, score.Plus(-bonus))];
      }
      assert peers[..i] == peers;
    }

    method FindFavorite(peers: seq<Capability>, req: Request, pref: Preferences) returns (found: bool)
      ensures found == HasFavorite(peers, req, pref)
    {
      var i := 0;
      while i < |peers|
        invariant 0 <= i <= |peers|
        invariant forall j :: 0 <= j < i ==> !(peers[j].peer in pref.favorites && Supports(peers[j], req))
      {
        if peers[i].peer in pref.favorites && Supports(peers[i], req) {
          return true;
        }
        i := i + 1;
      }
      return false;
    }

    // None stands for the error that no peer is available.
    method SelectBestWithPreferences(peers: seq<Capability>, req: Request, pref: Preferences) returns (best: Option<PeerScore>)
      ensures best.None? <==> forall c :: c in peers ==> !Eligible(peers, req, pref, c)
      ensures best.Some? ==> IsBest(weights, peers, req, pref, best.value)
    {
      var ranked := RankWithPreferences(peers, req, pref);
      RankingIsEligible(weights, peers, req, pref, ranked);
      if |ranked| == 0 {
        return None;
      }
      return Some(ranked[0]);
    }
  }

  // Eligible, scored as it should be, and not beaten by any eligible peer when all are comparable.
  ghost predicate IsBest(w: Weights, peers: seq<Capability>, req: Request, pref: Preferences, best: PeerScore) {
    && best.capability in peers && Eligible(peers, req, pref, best.capability)
    && best.score == ScoreOf(w, pref, best.capability)
    && ((forall c :: c in peers && Eligible(peers, req, pref, c) ==> !ScoreOf(w, pref, c).NaN?) ==>
          forall c :: c in peers && Eligible(peers, req, pref, c) ==> !ScoreOf(w, pref, c).Less(best.score))
  }

  lemma {:induction false} SameMembers(a: seq<PeerScore>, b: seq<PeerScore>)
    requires multiset(a) == multiset(b)
    ensures forall p :: p in a <==> p in b
    ensures |a| == |b|
  {
    assert forall p :: p in a <==> p in multiset(a);
    assert forall p :: p in b <==> p in multiset(b);
    assert |multiset(a)| == |a| && |multiset(b)| == |b|;
  }

  /// The sort

  // Everything up to `n` is in its final place.
  ghost predicate Settled(s: seq<PeerScore>, n: nat) {
    forall i, j :: 0 <= i < n && i < j < |s| ==> !s[j].score.Less(s[i].score)
  }

  lemma {:induction false} SwapSettles(s: seq<PeerScore>, n: nat, m: nat)
    requires n <= m < |s| && Comparable(s) && Settled(s, n)
    requires forall j :: n <= j < |s| ==> !s[j].score.Less(s[m].score)
    ensures Settled(s[n := s[m]][m := s[n]], n + 1)
  {
  }

  lemma {:induction false} SwapPermutes(s: seq<PeerScore>, n: nat, m: nat)
    requires n <= m < |s|
    ensures multiset(s[n := s[m]][m := s[n]]) == multiset(s)
  {
  }

  // Stands for the library sort: only what its `ensures` say is used.
  method SortByScore(a: array<PeerScore>)
    modifies a
    ensures multiset(a[..]) == multiset(old(a[..]))
    ensures Comparable(a[..]) ==> Ascends(a[..])
  {
    var n := 0;
    while n < a.Length
      invariant 0 <= n <= a.Length
      invariant multiset(a[..]) == multiset(old(a[..]))
      invariant Comparable(old(a[..])) ==> Settled(a[..], n)
    {
      var m := FindLeast(a, n);
      ghost var s := a[..];
      SwapPermutes(s, n, m);
      SameMembers(s, old(a[..]));
      if Comparable(s) {
        SwapSettles(s, n, m);
      }
      a[n], a[m] := a[m], a[n];
      assert a[..] == s[n := s[m]][m := s[n]];
      n := n + 1;
    }
    SameMembers(a[..], old(a[..]));
  }

  method FindLeast(a: array<PeerScore>, n: nat) returns (m: nat)
    requires n < a.Length
    ensures n <= m < a.Length
    ensures Comparable(a[..]) ==> forall j :: n <= j < a.Length ==> !a[j].score.Less(a[m].score)
  {
    m := n;
    var k := n + 1;
    while k < a.Length
      invariant n <= m < k <= a.Length
      invariant Comparable(a[..]) ==> forall j :: n <= j < k ==> !a[j].score.Less(a[m].score)
    {
      assert a[k] in a[..] && a[m] in a[..];
      if a[k].score.Less(a[m].score) {
        m := k;
      }
      k := k + 1;
    }
  }

  /// What a ranking is

  lemma {:induction false} ScoredAreEligible(w: Weights, peers: seq<Capability>, req: Request, pref: Preferences,
                                             some: seq<Capability>, p: PeerScore)
    ensures p in Scored(w, peers, req, pref, some) <==>
            p.capability in some && Eligible(peers, req, pref, p.capability) && p.score == ScoreOf(w, pref, p.capability)
  {
    if some == [] {
    } else {
      var n := |some| - 1;
      ScoredAreEligible(w, peers, req, pref, some[..n], p);
      assert some == some[..n] + [some[n]];
    }
  }

  lemma {:induction false} RankingIsEligible(w: Weights, peers: seq<Capability>, req: Request, pref: Preferences,
                                          ranked: seq<PeerScore>)
    requires IsRanking(w, peers, req, pref, ranked)
    ensures forall p :: p in ranked <==>
              p.capability in peers && Eligible(peers, req, pref, p.capability) && p.score == ScoreOf(w, pref, p.capability)
    ensures ranked == [] <==> forall c :: c in peers ==> !Eligible(peers, req, pref, c)
    ensures ranked != [] ==> IsBest(w, peers, req, pref, ranked[0])
  {
    SameMembers(ranked, Scored(w, peers, req, pref, peers));
    forall p: PeerScore {
      ScoredAreEligible(w, peers, req, pref, peers, p);
    }
    forall c | c in peers && Eligible(peers, req, pref, c)
      ensures PeerScore(c, ScoreOf(w, pref, c)) in ranked
    {
    }
    if ranked != [] {
      assert ranked[0] in ranked;
      if forall c :: c in peers && Eligible(peers, req, pref, c) ==> !ScoreOf(w, pref, c).NaN? {
        forall c | c in peers && Eligible(peers, req, pref, c)
          ensures !ScoreOf(w, pref, c).Less(ranked[0].score)
        {
          var i :| 0 <= i < |ranked| && ranked[i] == PeerScore(c, ScoreOf(w, pref, c));
        }
      }
    }
  }

  // Some model of the peer has the name asked for and meets every requirement that is not empty.
  ghost predicate FitsRequest(c: Capability, req: Request) {
    var r := req.requirements;
    exists m :: m in c.models && m.name == req.model
                && (r.sha256 == "" || m.sha256 == r.sha256)
                && (r.tokenizer == "" || m.tokenizer == r.tokenizer)
                && (r.quant == "" || m.quant == r.quant)
                && (r.backend == "" || m.backend == r.backend)
  }

  // The peer may serve: not blocked, listed if the policy is manual and there is a list, a favorite
  // if favorites are preferred and one of them fits, and fit for the request.
  ghost predicate MayServe(peers: seq<Capability>, req: Request, pref: Preferences, c: Capability) {
    && c.peer !in pref.blocked
    && (pref.policy == "manual" ==> c.peer in pref.allowed || pref.allowed == {})
    && (pref.policy == "prefer_favorites" && (exists d :: d in peers && d.peer in pref.favorites && FitsRequest(d, req))
        ==> c.peer in pref.favorites)
    && FitsRequest(c, req)
  }

  lemma {:induction false} SupportsIsFit(c: Capability, req: Request)
    ensures Supports(c, req) <==> FitsRequest(c, req)
  {
    if Supports(c, req) {
      var m :| m in c.models && Meets(m, req.model, req.requirements);
      assert m.name == req.model;
    }
    if FitsRequest(c, req) {
      var r := req.requirements;
      var m :| m in c.models && m.name == req.model
               && (r.sha256 == "" || m.sha256 == r.sha256)
               && (r.tokenizer == "" || m.tokenizer == r.tokenizer)
               && (r.quant == "" || m.quant == r.quant)
               && (r.backend == "" || m.backend == r.backend);
      assert Meets(m, req.model, req.requirements);
    }
  }

  lemma {:induction false} EligibleIsMayServe(peers: seq<Capability>, req: Request, pref: Preferences, c: Capability)
    ensures Eligible(peers, req, pref, c) <==> MayServe(peers, req, pref, c)
  {
    SupportsIsFit(c, req);
    if HasFavorite(peers, req, pref) {
      var i :| 0 <= i < |peers| && peers[i].peer in pref.favorites && Supports(peers[i], req);
      SupportsIsFit(peers[i], req);
      assert peers[i] in peers;
    } else {
      forall d | d in peers && d.peer in pref.favorites
        ensures !FitsRequest(d, req)
      {
        var i :| 0 <= i < |peers| && peers[i] == d;
        SupportsIsFit(d, req);
      }
    }
  }

  // A ranking holds exactly the peers that may serve, each with its score, and ascends when all
  // are comparable.
  lemma {:induction false} RankingIsExact(w: Weights, peers: seq<Capability>, req: Request, pref: Preferences,
                                          ranked: seq<PeerScore>)
    requires IsRanking(w, peers, req, pref, ranked)
    ensures forall p :: p in ranked <==>
              p.capability in peers && MayServe(peers, req, pref, p.capability) && p.score == ScoreOf(w, pref, p.capability)
    ensures ranked == [] <==> forall c :: c in peers ==> !MayServe(peers, req, pref, c)
    ensures (forall p :: p in ranked ==> !p.score.NaN?) ==>
              forall i, j :: 0 <= i < j < |ranked| ==> !ranked[j].score.Less(ranked[i].score)
  {
    RankingIsEligible(w, peers, req, pref, ranked);
    forall c: Capability {
      EligibleIsMayServe(peers, req, pref, c);
    }
  }

  // With memory free, the score is the weighted sum of latency, queue, inverse memory and missing
  // reliability, less the bonuses for a favorite and, if known peers are preferred, for a known one.
  lemma {:induction false} ScoreInArithmetic(w: Weights, pref: Preferences, c: Capability)
    requires c.vramFreeMB > 0
    ensures ScoreOf(w, pref, c) == Finite(
              w.latency * c.avgLatencyMS as real
              + w.queueDepth * c.queueDepth as real
              + w.vramPressure * (1.0 / c.vramFreeMB as real)
              + w.reliability * (if c.reliability > 1.0 then 0.0 else 1.0 - c.reliability)
              - (if c.peer in pref.favorites then w.favoriteBonus else 0.0)
              - (if pref.policy == "prefer_known" && c.peer in pref.known then w.knownBonus else 0.0))
  {
  }

  // Scores compare as floating-point numbers do.
  lemma {:induction false} ScoresCompare(a: Score, b: Score)
    ensures a.Less(b) <==>
            match (a, b)
            case (Finite(x), Finite(y)) => x < y
            case (Finite(_), PosInf) => true
            case (NegInf, Finite(_)) => true
            case (NegInf, PosInf) => true
            case _ => false
  {
  }

  /// When all are comparable, and who beats whom

  lemma {:induction false} UndefinedScore(w: Weights, pref: Preferences, c: Capability)
    ensures ScoreOf(w, pref, c).NaN? <==> w.vramPressure == 0.0 && c.vramFreeMB <= 0
  {
  }

  lemma {:induction false} TimesMonotone(a: real, b: real, c: real)
    requires a >= 0.0 && b <= c
    ensures Times(a, b) <= Times(a, c)
  {
    assert a * (c - b) >= 0.0;
  }

  lemma {:induction false} ReciprocalFalls(a: int, b: int)
    requires 0 < b <= a
    ensures 1.0 / a as real <= 1.0 / b as real
  {
    var x, y := a as real, b as real;
    Reciprocals(1.0 / x, x, 1.0 / y, y);
  }

  lemma {:induction false} Reciprocals(p: real, x: real, q: real, y: real)
    requires 0.0 < y <= x && p * x == 1.0 && q * y == 1.0
    ensures p <= q
  {
    assert p > 0.0;
    TimesMonotone(p, y, x);
    assert p * y <= 1.0;
    assert (p - q) * y <= 0.0;
  }

  ghost predicate NoWorse(c: Capability, d: Capability) {
    && c.avgLatencyMS <= d.avgLatencyMS
    && c.queueDepth <= d.queueDepth
    && c.vramFreeMB >= d.vramFreeMB
    && c.reliability >= d.reliability
  }

  // With weights that are not negative, and a positive one on memory, a peer that is no worse in
  // latency, queue, memory and reliability never scores higher under an equal bonus.
  lemma {:induction false} NoWorseScoresNoHigher(w: Weights, pref: Preferences, c: Capability, d: Capability)
    requires w.latency >= 0.0 && w.queueDepth >= 0.0 && w.vramPressure > 0.0 && w.reliability >= 0.0
    requires NoWorse(c, d) && Bonus(w, pref, c.peer) == Bonus(w, pref, d.peer)
    ensures !ScoreOf(w, pref, d).Less(ScoreOf(w, pref, c))
  {
    TimesMonotone(w.latency, c.avgLatencyMS as real, d.avgLatencyMS as real);
    TimesMonotone(w.queueDepth, c.queueDepth as real, d.queueDepth as real);
    TimesMonotone(w.reliability, ReliabilityPenalty(c), ReliabilityPenalty(d));
    if d.vramFreeMB > 0 {
      ReciprocalFalls(c.vramFreeMB, d.vramFreeMB);
      TimesMonotone(w.vramPressure, 1.0 / c.vramFreeMB as real, 1.0 / d.vramFreeMB as real);
    }
  }

  /// Preferring favorites

  // The policy does not fall back to other peers whenever it could: a matching favorite counts
  // even if it is blocked. A ranking is empty exactly when no unblocked favorite matches and
  // either some blocked favorite does or no unblocked peer does.
  lemma {:induction false} FavoritesFallBack(w: Weights, peers: seq<Capability>, req: Request, pref: Preferences,
                                             ranked: seq<PeerScore>)
    requires pref.policy == PREFER_FAVORITES && IsRanking(w, peers, req, pref, ranked)
    ensures ranked == [] <==>
            && (forall c :: c in peers && Supports(c, req) && c.peer in pref.favorites ==> c.peer in pref.blocked)
            && ((exists c :: c in peers && Supports(c, req) && c.peer in pref.favorites && c.peer in pref.blocked)
                || (forall c :: c in peers && Supports(c, req) ==> c.peer in pref.blocked))
  {
    RankingIsEligible(w, peers, req, pref, ranked);
    assert HasFavorite(peers, req, pref) <==> exists c :: c in peers && Supports(c, req) && c.peer in pref.favorites by {
      if exists c :: c in peers && Supports(c, req) && c.peer in pref.favorites {
        var c :| c in peers && Supports(c, req) && c.peer in pref.favorites;
        var i :| 0 <= i < |peers| && peers[i] == c;
      }
    }
  }

  // For instance: the favorite is blocked, the other peer is not, and nobody is ranked.
  lemma {:induction false} BlockedFavoriteHidesOthers(w: Weights, ranked: seq<PeerScore>)
    requires var models := [ModelSpec("m", "", "", "", "")];
             var a, b := Capability("a", "", models, [], 1, 0, 0, 1.0, "", 0.0), Capability("b", "", models, [], 1, 0, 0, 1.0, "", 0.0);
             IsRanking(w, [a, b], Request("m", None, false, 0, Requirements("", "", "", ""), map[]),
                       Preferences(PREFER_FAVORITES, {"a"}, {}, {}, {"a"}), ranked)
    ensures ranked == []
  {
    var models := [ModelSpec("m", "", "", "", "")];
    var a, b := Capability("a", "", models, [], 1, 0, 0, 1.0, "", 0.0), Capability("b", "", models, [], 1, 0, 0, 1.0, "", 0.0);
    var req := Request("m", None, false, 0, Requirements("", "", "", ""), map[]);
    assert models[0] in models && Supports(a, req);
    assert a in [a, b];
    FavoritesFallBack(w, [a, b], req, Preferences(PREFER_FAVORITES, {"a"}, {}, {}, {"a"}), ranked);
  }
}
