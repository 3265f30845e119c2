/**
 The provider's admission limiter: a token bucket combined with a cap on requests in flight.

 `Limiter` is the class, one method per operation of the source. `Acquire`, `Release` and
 `Refill` on the value type `Bucket` say what each of them does to the fields. `Policer` is an
 independent reference that has no tokens at all: it remembers the instants of the grants
 and admits an arrival exactly when no window of grants would exceed the arrival curve
 `burst + rate * length`. The main results say that the bucket and the policer agree.

 Instants are real seconds read from a clock that never goes back.
 */
module RateLimiter {

  datatype Config = Config(maxInFlight: int, rate: real, burst: real) {
    // A bucket that drains over time is not a limiter; the burst and the cap may be anything.
    predicate Valid() {
      0.0 <= rate
    }
  }

  datatype Bucket = Bucket(tokens: real, inFlight: int, lastRefill: real)

  datatype Verdict = Granted | Cancelled | TooManyInFlight | RateLimited | Released

  function Min(a: real, b: real): real {
    if a <= b then a else b
  }

  // What the clock pays in from `s` to `t`.
  function Paid(cfg: Config, s: real, t: real): real {
    (t - s) * cfg.rate
  }

  lemma {:induction false} PaidAdds(cfg: Config, r: real, s: real, t: real)
    ensures Paid(cfg, r, s) + Paid(cfg, s, t) == Paid(cfg, r, t)
  {
  }

  lemma {:induction false} PaidGrows(cfg: Config, s: real, t: real)
    requires cfg.Valid() && s <= t
    ensures 0.0 <= Paid(cfg, s, t)
  {
  }

  lemma {:induction false} PaidIsRate(cfg: Config, s: real, t: real)
    ensures Paid(cfg, s, t) == (t - s) * cfg.rate
  {
  }

  function Full(cfg: Config, now: real): Bucket {
    Bucket(cfg.burst, 0, now)
  }

  function Refill(cfg: Config, b: Bucket, now: real): Bucket {
    var elapsed := now - b.lastRefill;
    if elapsed <= 0.0 then b
    else b.(tokens := Min(cfg.burst, b.tokens + Paid(cfg, b.lastRefill, now)), lastRefill := now)
  }

  function Acquire(cfg: Config, b: Bucket, now: real, cancelled: bool): (Bucket, Verdict) {
    if cancelled then (b, Cancelled)
    else if b.inFlight >= cfg.maxInFlight then (b, TooManyInFlight)
    else
      var r := Refill(cfg, b, now);
      if r.tokens < 1.0 then (r, RateLimited)
      else (r.(tokens := r.tokens - 1.0, inFlight := r.inFlight + 1), Granted)
  }

  function Release(b: Bucket): Bucket {
    if b.inFlight > 0 then b.(inFlight := b.inFlight - 1) else b
  }

  class Limiter {
    const maxInFlight: int
    const ratePerSecond: real
    const burst: real
    var inFlight: int
    var tokens: real
    var lastRefill: real

    function Settings(): Config {
      Config(maxInFlight, ratePerSecond, burst)
    }

    function Contents(): Bucket
      reads this
    {
      Bucket(tokens, inFlight, lastRefill)
    }

    constructor (maxInFlight: int, ratePerSecond: real, burst: int, now: real)
      ensures Settings() == Config(maxInFlight, ratePerSecond, burst as real)
      ensures Contents() == Full(Settings(), now)
    {
      this.maxInFlight := maxInFlight;
      this.ratePerSecond := ratePerSecond;
      this.burst := burst as real;
      tokens := burst as real;
      inFlight := 0;
      lastRefill := now;
    }

    method AcquireSlot(now: real, cancelled: bool) returns (verdict: Verdict)
      modifies this
      ensures (Contents(), verdict) == Acquire(Settings(), old(Contents()), now, cancelled)
    {
      if cancelled {
        return Cancelled;
      }
      if inFlight >= maxInFlight {
        return TooManyInFlight;
      }
      RefillLocked(now);
      if tokens < 1.0 {
        return RateLimited;
      }
      tokens := tokens - 1.0;
      inFlight := inFlight + 1;
      return Granted;
    }

    method ReleaseSlot()
      modifies this`inFlight
      ensures Contents() == Release(old(Contents()))
    {
      if inFlight > 0 {
        inFlight := inFlight - 1;
      }
    }

    method RefillLocked(now: real)
      modifies this`tokens, this`lastRefill
      ensures Contents() == Refill(Settings(), old(Contents()), now)
      ensures now <= old(lastRefill) ==> tokens == old(tokens) && lastRefill == old(lastRefill)
      ensures now > old(lastRefill) ==>
                var paid := old(tokens) + (now - old(lastRefill)) * ratePerSecond;
                tokens == (if paid > burst then burst else paid) && lastRefill == now
    {
      var elapsed := now - lastRefill;
      if elapsed <= 0.0 {
        return;
      }
      assert elapsed * ratePerSecond == Paid(Settings(), lastRefill, now);
      tokens := tokens + elapsed * ratePerSecond;
      if tokens > burst {
        tokens := burst;
      }
      lastRefill := now;
    }
  }

  /// Runs

  datatype Event = Arrive(now: real, cancelled: bool) | Leave

  function Step(cfg: Config, b: Bucket, e: Event): (Bucket, Verdict) {
    match e
    case Arrive(now, cancelled) => Acquire(cfg, b, now, cancelled)
    case Leave => (Release(b), Released)
  }

  function Final(cfg: Config, b: Bucket, es: seq<Event>): Bucket
    decreases es
  {
    if es == [] then b else Final(cfg, Step(cfg, b, es[0]).0, es[1..])
  }

  function Verdicts(cfg: Config, b: Bucket, es: seq<Event>): (vs: seq<Verdict>)
    ensures |vs| == |es|
    decreases es
  {
    if es == [] then [] else [Step(cfg, b, es[0]).1] + Verdicts(cfg, Step(cfg, b, es[0]).0, es[1..])
  }

  // The arrivals of `es` carry instants that do not go back, the first at or after `now`.
  predicate Clocked(now: real, es: seq<Event>)
    decreases es
  {
    if es == [] then true
    else match es[0]
      case Arrive(t, _) => now <= t && Clocked(t, es[1..])
      case Leave => Clocked(now, es[1..])
  }

  function Count(vs: seq<Verdict>): nat {
    if vs == [] then 0 else (if vs[0] == Granted then 1 else 0) + Count(vs[1..])
  }

  /// The reference policer

  // Grants at the instants `g` stay under the arrival curve when every window of them does.
  ghost predicate UnderCurve(cfg: Config, g: seq<real>) {
    forall i, j :: 0 <= i <= j < |g| ==> (j - i + 1) as real <= cfg.burst + (g[j] - g[i]) * cfg.rate
  }

  // The same, window by window, in the terms of the bucket.
  ghost predicate Conforms(cfg: Config, g: seq<real>) {
    forall i, j :: 0 <= i <= j < |g| ==> Fits(cfg, j - i + 1, g[i], g[j])
  }

  // `n` grants between `from` and `to` stay under the curve.
  predicate Fits(cfg: Config, n: int, from: real, to: real) {
    n as real <= cfg.burst + Paid(cfg, from, to)
  }

  lemma {:induction false} CurveIsConforms(cfg: Config, g: seq<real>)
    ensures UnderCurve(cfg, g) <==> Conforms(cfg, g)
  {
    forall i, j | 0 <= i <= j < |g|
      ensures Fits(cfg, j - i + 1, g[i], g[j]) <==> (j - i + 1) as real <= cfg.burst + (g[j] - g[i]) * cfg.rate
    {
    }
  }

  datatype Policer = Policer(grants: seq<real>, inFlight: int)

  ghost function PoliceStep(cfg: Config, p: Policer, e: Event): (Policer, Verdict) {
    match e
    case Arrive(now, cancelled) =>
      if cancelled then (p, Cancelled)
      else if p.inFlight >= cfg.maxInFlight then (p, TooManyInFlight)
      else if !UnderCurve(cfg, p.grants + [now]) then (p, RateLimited)
      else (Policer(p.grants + [now], p.inFlight + 1), Granted)
    case Leave =>
      (p.(inFlight := if p.inFlight > 0 then p.inFlight - 1 else p.inFlight), Released)
  }

  ghost function PoliceVerdicts(cfg: Config, p: Policer, es: seq<Event>): (vs: seq<Verdict>)
    ensures |vs| == |es|
    decreases es
  {
    if es == [] then []
    else [PoliceStep(cfg, p, es[0]).1] + PoliceVerdicts(cfg, PoliceStep(cfg, p, es[0]).0, es[1..])
  }

  ghost function PoliceFinal(cfg: Config, p: Policer, es: seq<Event>): Policer
    decreases es
  {
    if es == [] then p else PoliceFinal(cfg, PoliceStep(cfg, p, es[0]).0, es[1..])
  }

  /// The level a bucket has at `t` when its grants were `g`

  function Level(cfg: Config, g: seq<real>, t: real): real {
    if g == [] then cfg.burst
    else
      var last := g[|g| - 1];
      Min(cfg.burst, Level(cfg, g[..|g| - 1], last) - 1.0 + Paid(cfg, last, t))
  }

  function WindowTerm(cfg: Config, g: seq<real>, t: real, i: nat): real
    requires i < |g|
  {
    cfg.burst + (t - g[i]) * cfg.rate - (|g| - i) as real
  }

  // `level` is the least of the burst and the terms of the windows that past grants open.
  predicate IsLeastWindow(cfg: Config, g: seq<real>, t: real, level: real) {
    && level <= cfg.burst
    && (forall i :: 0 <= i < |g| ==> level <= WindowTerm(cfg, g, t, i))
    && (level == cfg.burst || exists i :: 0 <= i < |g| && level == WindowTerm(cfg, g, t, i))
  }

  lemma {:induction false} WindowTermExtends(cfg: Config, g: seq<real>, t: real, i: nat)
    requires i < |g| - 1
    ensures WindowTerm(cfg, g, t, i)
         == WindowTerm(cfg, g[..|g| - 1], g[|g| - 1], i) - 1.0 + Paid(cfg, g[|g| - 1], t)
  {
    PaidAdds(cfg, g[i], g[|g| - 1], t);
  }

  lemma {:induction false} LevelIsLeastWindow(cfg: Config, g: seq<real>, t: real)
    ensures IsLeastWindow(cfg, g, t, Level(cfg, g, t))
  {
    if g == [] {
    } else {
      var n := |g| - 1;
      var front, last := g[..n], g[n];
      LevelIsLeastWindow(cfg, front, last);
      forall i | 0 <= i < n
        ensures WindowTerm(cfg, g, t, i) == WindowTerm(cfg, front, last, i) - 1.0 + Paid(cfg, last, t)
      {
        WindowTermExtends(cfg, g, t, i);
      }
      assert WindowTerm(cfg, g, t, n) == cfg.burst + Paid(cfg, last, t) - 1.0;
    }
  }

  lemma {:induction false} LevelAdvances(cfg: Config, g: seq<real>, s: real, t: real)
    requires cfg.Valid() && s <= t
    ensures Level(cfg, g, t) == Min(cfg.burst, Level(cfg, g, s) + Paid(cfg, s, t))
  {
    PaidGrows(cfg, s, t);
    if g != [] {
      PaidAdds(cfg, g[|g| - 1], s, t);
    }
  }

  // One more grant fits under the curve exactly when the level has a whole token.
  lemma {:induction false} ConformsIffToken(cfg: Config, g: seq<real>, t: real)
    requires Conforms(cfg, g)
    ensures Conforms(cfg, g + [t]) <==> 1.0 <= Level(cfg, g, t)
  {
    var h, n := g + [t], |g|;
    LevelIsLeastWindow(cfg, g, t);
    forall i | 0 <= i < n
      ensures 1.0 <= WindowTerm(cfg, g, t, i) <==> Fits(cfg, n - i + 1, h[i], h[n])
    {
      assert h[i] == g[i] && h[n] == t;
    }
    assert 1.0 <= cfg.burst <==> Fits(cfg, 1, h[n], h[n]);
    assert forall i, j :: 0 <= i <= j < n ==> Fits(cfg, j - i + 1, h[i], h[j]);
    if forall i :: 0 <= i <= n ==> Fits(cfg, n - i + 1, h[i], h[n]) {
      assert Conforms(cfg, h);
    } else {
      var i :| 0 <= i <= n && !Fits(cfg, n - i + 1, h[i], h[n]);
      assert !Conforms(cfg, h);
    }
  }

  /// The bucket refines the policer

  ghost predicate Tracks(cfg: Config, b: Bucket, p: Policer) {
    && b.inFlight == p.inFlight
    && Conforms(cfg, p.grants)
    && (p.grants != [] ==> p.grants[|p.grants| - 1] <= b.lastRefill)
    && b.tokens == Level(cfg, p.grants, b.lastRefill)
  }

  lemma {:induction false} LevelAfterGrant(cfg: Config, g: seq<real>, t: real)
    ensures Level(cfg, g + [t], t) == Level(cfg, g, t) - 1.0
  {
    LevelIsLeastWindow(cfg, g, t);
    var h := g + [t];
    assert h[..|h| - 1] == g && h[|h| - 1] == t;
    assert Paid(cfg, t, t) == 0.0;
  }

  lemma {:induction false} RefillTracks(cfg: Config, b: Bucket, p: Policer, now: real)
    requires cfg.Valid() && Tracks(cfg, b, p) && b.lastRefill <= now
    ensures Tracks(cfg, Refill(cfg, b, now), p)
    ensures Refill(cfg, b, now).lastRefill == now
  {
    LevelAdvances(cfg, p.grants, b.lastRefill, now);
  }

  lemma {:induction false} StepTracks(cfg: Config, b: Bucket, p: Policer, e: Event)
    requires cfg.Valid() && Tracks(cfg, b, p)
    requires e.Arrive? ==> b.lastRefill <= e.now
    ensures Step(cfg, b, e).1 == PoliceStep(cfg, p, e).1
    ensures Tracks(cfg, Step(cfg, b, e).0, PoliceStep(cfg, p, e).0)
    ensures e.Arrive? ==> Step(cfg, b, e).0.lastRefill <= e.now
    ensures e.Leave? ==> Step(cfg, b, e).0.lastRefill == b.lastRefill
  {
    if e.Arrive? && !e.cancelled && b.inFlight < cfg.maxInFlight {
      RefillTracks(cfg, b, p, e.now);
      ConformsIffToken(cfg, p.grants, e.now);
      CurveIsConforms(cfg, p.grants + [e.now]);
      LevelAfterGrant(cfg, p.grants, e.now);
    }
  }

  // In every run, whatever mix of grants, refusals, cancellations and releases, the token
  // bucket answers each arrival as the policer does.
  lemma {:induction false} BucketRefinesPolicer(cfg: Config, b: Bucket, p: Policer, es: seq<Event>)
    requires cfg.Valid() && Tracks(cfg, b, p)
    requires Clocked(b.lastRefill, es)
    ensures Verdicts(cfg, b, es) == PoliceVerdicts(cfg, p, es)
    ensures Tracks(cfg, Final(cfg, b, es), PoliceFinal(cfg, p, es))
    decreases es
  {
    if es == [] {
    } else {
      StepTracks(cfg, b, p, es[0]);
      var next := Step(cfg, b, es[0]).0;
      ClockedEarlier(next.lastRefill, if es[0].Arrive? then es[0].now else b.lastRefill, es[1..]);
      BucketRefinesPolicer(cfg, next, PoliceStep(cfg, p, es[0]).0, es[1..]);
    }
  }

  lemma {:induction false} ClockedEarlier(s: real, t: real, es: seq<Event>)
    requires s <= t && Clocked(t, es)
    ensures Clocked(s, es)
  {
    if es != [] && es[0].Leave? {
      ClockedEarlier(s, t, es[1..]);
    }
  }

  // The same from a fresh limiter, where no grant has been made.
  lemma {:induction false} FreshLimiterIsPolicer(cfg: Config, start: real, es: seq<Event>)
    requires cfg.Valid() && Clocked(start, es)
    ensures Verdicts(cfg, Full(cfg, start), es) == PoliceVerdicts(cfg, Policer([], 0), es)
  {
    BucketRefinesPolicer(cfg, Full(cfg, start), Policer([], 0), es);
  }

  // After any run from a fresh limiter, an arrival at `t` finds the least of the burst and the
  // terms of the windows opened by the grants so far.
  lemma {:induction false} TokensAreLeastWindow(cfg: Config, start: real, es: seq<Event>, t: real)
    requires cfg.Valid() && Clocked(start, es)
    requires Final(cfg, Full(cfg, start), es).lastRefill <= t
    ensures IsLeastWindow(cfg, PoliceFinal(cfg, Policer([], 0), es).grants, t,
                          Refill(cfg, Final(cfg, Full(cfg, start), es), t).tokens)
  {
    BucketRefinesPolicer(cfg, Full(cfg, start), Policer([], 0), es);
    var p := PoliceFinal(cfg, Policer([], 0), es);
    RefillTracks(cfg, Final(cfg, Full(cfg, start), es), p, t);
    LevelIsLeastWindow(cfg, p.grants, t);
  }

  /// Exactness when slots are never exhausted

  // The instants of the arrivals of a run.
  function Instants(es: seq<Event>): seq<real> {
    if es == [] then []
    else (if es[0].Arrive? then [es[0].now] else []) + Instants(es[1..])
  }

  lemma {:induction false} ConformsPrefix(cfg: Config, g: seq<real>, h: seq<real>)
    ensures Conforms(cfg, g + h) ==> Conforms(cfg, g)
  {
    if Conforms(cfg, g + h) {
      forall i, j | 0 <= i <= j < |g|
        ensures Fits(cfg, j - i + 1, g[i], g[j])
      {
        assert (g + h)[i] == g[i] && (g + h)[j] == g[j];
      }
    }
  }

  lemma {:induction false} LimitedBreaksCurve(cfg: Config, p: Policer, es: seq<Event>)
    requires es != [] && PoliceStep(cfg, p, es[0]).1 == RateLimited
    ensures !Conforms(cfg, p.grants + Instants(es))
  {
    assert p.grants + Instants(es) == p.grants + [es[0].now] + Instants(es[1..]);
    CurveIsConforms(cfg, p.grants + [es[0].now]);
    ConformsPrefix(cfg, p.grants + [es[0].now], Instants(es[1..]));
  }

  lemma {:induction false} UnlimitedIsGranted(cfg: Config, p: Policer, e: Event)
    requires Conforms(cfg, p.grants)
    requires var v := PoliceStep(cfg, p, e).1; v != TooManyInFlight && v != Cancelled && v != RateLimited
    ensures var next := PoliceStep(cfg, p, e).0;
            next.grants == p.grants + Instants([e]) && Conforms(cfg, next.grants)
  {
    assert [e][1..] == [];
    assert p.grants + [] == p.grants;
    if e.Arrive? {
      CurveIsConforms(cfg, p.grants + [e.now]);
      assert Instants([e]) == [e.now];
    }
  }

  lemma {:induction false} PolicerGrantsAll(cfg: Config, p: Policer, es: seq<Event>)
    requires Conforms(cfg, p.grants)
    requires var vs := PoliceVerdicts(cfg, p, es); TooManyInFlight !in vs && Cancelled !in vs
    ensures RateLimited !in PoliceVerdicts(cfg, p, es) <==> Conforms(cfg, p.grants + Instants(es))
    decreases es
  {
    if es == [] {
      assert p.grants + Instants(es) == p.grants;
    } else {
      var (next, v) := PoliceStep(cfg, p, es[0]);
      var rest := PoliceVerdicts(cfg, next, es[1..]);
      assert PoliceVerdicts(cfg, p, es) == [v] + rest;
      assert forall w :: w in [v] + rest <==> w == v || w in rest;
      if v == RateLimited {
        LimitedBreaksCurve(cfg, p, es);
      } else {
        UnlimitedIsGranted(cfg, p, es[0]);
        PolicerGrantsAll(cfg, next, es[1..]);
        InstantsSplit(es);
        assert next.grants + Instants(es[1..]) == p.grants + Instants(es);
      }
    }
  }

  lemma {:induction false} InstantsSplit(es: seq<Event>)
    requires es != []
    ensures Instants(es) == Instants([es[0]]) + Instants(es[1..])
  {
    assert [es[0]][1..] == [];
    assert Instants([es[0]]) == (if es[0].Arrive? then [es[0].now] else []) + [];
  }

  // In any run from a full bucket in which slots are never exhausted, whatever releases it mixes
  // in, nothing is refused exactly when every window of the arrivals fits under
  // `burst + rate * length`.
  lemma {:induction false} GrantedIffConforms(cfg: Config, start: real, es: seq<Event>)
    requires cfg.Valid() && Clocked(start, es)
    requires var vs := Verdicts(cfg, Full(cfg, start), es); TooManyInFlight !in vs && Cancelled !in vs
    ensures RateLimited !in Verdicts(cfg, Full(cfg, start), es) <==> UnderCurve(cfg, Instants(es))
  {
    FreshLimiterIsPolicer(cfg, start, es);
    PolicerGrantsAll(cfg, Policer([], 0), es);
    assert [] + Instants(es) == Instants(es);
    CurveIsConforms(cfg, Instants(es));
  }

  /// Refusals leave no trace

  lemma {:induction false} RefillTwice(cfg: Config, b: Bucket, s: real, t: real)
    requires cfg.Valid() && b.lastRefill <= s <= t
    ensures Refill(cfg, Refill(cfg, b, s), t) == Refill(cfg, b, t)
  {
    PaidAdds(cfg, b.lastRefill, s, t);
    PaidGrows(cfg, s, t);
    PaidGrows(cfg, b.lastRefill, s);
  }

  predicate Refused(v: Verdict) {
    v.Cancelled? || v.TooManyInFlight? || v.RateLimited?
  }

  function Keep<T>(s: seq<T>, keep: seq<bool>): seq<T>
    requires |s| == |keep|
  {
    if s == [] then [] else (if keep[0] then [s[0]] else []) + Keep(s[1..], keep[1..])
  }

  // Deleting any of the refused arrivals of a run changes none of the other answers.
  lemma {:induction false} RefusalsLeaveNoTrace(cfg: Config, b: Bucket, es: seq<Event>, keep: seq<bool>)
    requires cfg.Valid() && Clocked(b.lastRefill, es) && |keep| == |es|
    requires forall i :: 0 <= i < |es| && !keep[i] ==> Refused(Verdicts(cfg, b, es)[i])
    ensures Verdicts(cfg, b, Keep(es, keep)) == Keep(Verdicts(cfg, b, es), keep)
    decreases es
  {
    if es == [] {
    } else {
      var next, vs := Step(cfg, b, es[0]).0, Verdicts(cfg, b, es);
      forall i | 0 <= i < |es[1..]| && !keep[1..][i]
        ensures Refused(Verdicts(cfg, next, es[1..])[i])
      {
        assert vs[i + 1] == Verdicts(cfg, next, es[1..])[i];
      }
      StepClock(cfg, b, es);
      RefusalsLeaveNoTrace(cfg, next, es[1..], keep[1..]);
      var rest := Keep(es[1..], keep[1..]);
      assert vs[1..] == Verdicts(cfg, next, es[1..]);
      if keep[0] {
        assert Keep(es, keep) == [es[0]] + rest;
        assert ([es[0]] + rest)[1..] == rest;
      } else {
        assert Refused(vs[0]) && Keep(es, keep) == rest;
        KeepClocked(es[0].now, es[1..], keep[1..]);
        RefillForgotten(cfg, b, es[0].now, rest);
        assert next == b || next == Refill(cfg, b, es[0].now);
      }
    }
  }

  lemma {:induction false} StepClock(cfg: Config, b: Bucket, es: seq<Event>)
    requires es != [] && Clocked(b.lastRefill, es)
    ensures Clocked(Step(cfg, b, es[0]).0.lastRefill, es[1..])
  {
    ClockedEarlier(Step(cfg, b, es[0]).0.lastRefill, if es[0].Arrive? then es[0].now else b.lastRefill, es[1..]);
  }

  lemma {:induction false} KeepClocked(t: real, es: seq<Event>, keep: seq<bool>)
    requires |keep| == |es| && Clocked(t, es)
    ensures Clocked(t, Keep(es, keep))
    decreases es
  {
    if es == [] {
    } else {
      var at := if es[0].Arrive? then es[0].now else t;
      KeepClocked(at, es[1..], keep[1..]);
      var rest := Keep(es[1..], keep[1..]);
      if keep[0] {
        assert Keep(es, keep) == [es[0]] + rest;
        assert ([es[0]] + rest)[1..] == rest;
      } else {
        assert Keep(es, keep) == rest;
        ClockedEarlier(t, at, rest);
      }
    }
  }

  // A refill that is not followed by a grant cannot be told from no refill.
  lemma {:induction false} RefillForgotten(cfg: Config, b: Bucket, s: real, es: seq<Event>)
    requires cfg.Valid() && b.lastRefill <= s && Clocked(s, es)
    ensures Verdicts(cfg, Refill(cfg, b, s), es) == Verdicts(cfg, b, es)
    decreases es
  {
    if es == [] {
    } else {
      var r := Refill(cfg, b, s);
      match es[0]
      case Arrive(now, cancelled) =>
        RefillTwice(cfg, b, s, now);
        if cancelled || b.inFlight >= cfg.maxInFlight {
          ClockedEarlier(s, now, es[1..]);
          RefillForgotten(cfg, b, s, es[1..]);
        }
      case Leave =>
        RefillForgotten(cfg, Release(b), s, es[1..]);
    }
  }

  /// Bounds over any window of any run

  predicate InBounds(cfg: Config, b: Bucket) {
    0.0 <= b.tokens <= cfg.burst && 0 <= b.inFlight <= cfg.maxInFlight
  }

  lemma {:induction false} BoundByPaid(cfg: Config, b: Bucket, es: seq<Event>)
    requires cfg.Valid() && InBounds(cfg, b) && Clocked(b.lastRefill, es)
    ensures InBounds(cfg, Final(cfg, b, es))
    ensures Count(Verdicts(cfg, b, es)) as real
         <= b.tokens - Final(cfg, b, es).tokens + Paid(cfg, b.lastRefill, Final(cfg, b, es).lastRefill)
    decreases es
  {
    if es == [] {
      assert Paid(cfg, b.lastRefill, b.lastRefill) == 0.0;
    } else {
      var next := Step(cfg, b, es[0]).0;
      StepBound(cfg, b, es[0]);
      StepClock(cfg, b, es);
      BoundByPaid(cfg, next, es[1..]);
      PaidAdds(cfg, b.lastRefill, next.lastRefill, Final(cfg, b, es).lastRefill);
      assert Verdicts(cfg, b, es)[1..] == Verdicts(cfg, next, es[1..]);
    }
  }

  // Between any two states of a run the tokens stay within the burst, the slots within the
  // cap, and the grants within the tokens at hand plus the rate over the time refilled.
  lemma {:induction false} WindowBound(cfg: Config, b: Bucket, es: seq<Event>)
    requires cfg.Valid() && InBounds(cfg, b) && Clocked(b.lastRefill, es)
    ensures InBounds(cfg, Final(cfg, b, es))
    ensures Count(Verdicts(cfg, b, es)) as real
         <= b.tokens - Final(cfg, b, es).tokens + (Final(cfg, b, es).lastRefill - b.lastRefill) * cfg.rate
  {
    BoundByPaid(cfg, b, es);
    var end := Final(cfg, b, es);
    BoundInArithmetic(cfg, b, end.tokens, end.lastRefill, Count(Verdicts(cfg, b, es)));
  }

  lemma {:induction false} BoundInArithmetic(cfg: Config, b: Bucket, tokens: real, refilled: real, n: nat)
    requires n as real <= b.tokens - tokens + Paid(cfg, b.lastRefill, refilled)
    ensures n as real <= b.tokens - tokens + (refilled - b.lastRefill) * cfg.rate
  {
    PaidIsRate(cfg, b.lastRefill, refilled);
  }

  // So no window of a run grants more than the burst plus the rate over its length.
  lemma {:induction false} GrantsWithinCurve(cfg: Config, b: Bucket, es: seq<Event>)
    requires cfg.Valid() && InBounds(cfg, b) && Clocked(b.lastRefill, es)
    ensures Count(Verdicts(cfg, b, es)) as real
         <= cfg.burst + (Final(cfg, b, es).lastRefill - b.lastRefill) * cfg.rate
  {
    WindowBound(cfg, b, es);
  }

  lemma {:induction false} StepBound(cfg: Config, b: Bucket, e: Event)
    requires cfg.Valid() && InBounds(cfg, b)
    requires e.Arrive? ==> b.lastRefill <= e.now
    ensures InBounds(cfg, Step(cfg, b, e).0)
    ensures (if Step(cfg, b, e).1 == Granted then 1.0 else 0.0)
         <= b.tokens - Step(cfg, b, e).0.tokens + Paid(cfg, b.lastRefill, Step(cfg, b, e).0.lastRefill)
  {
    assert Paid(cfg, b.lastRefill, b.lastRefill) == 0.0;
    if e.Arrive? {
      PaidGrows(cfg, b.lastRefill, e.now);
    }
  }
}
