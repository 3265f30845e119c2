/**
 Interleaved provider calls.

 Every operation of the limiter, the reputation tracker, the capability state and the ledger
 runs under a mutex, and the in-flight count is changed by atomic adds, so a call of the
 provider is a sequence of atomic steps between which other calls may run. `Phase` is the
 program counter of one call; `Advance` is its next step; a system is the shared state and
 any number of calls; a run advances them in any order.
 */
module Admission {
  import opened Mesh
  import opened Accounting
  import RateLimiter
  import Reputation

  datatype Outcome = PolicyError | InvalidPoW | ReputationLow | Refused(verdict: RateLimiter.Verdict) | BackendError | Served

  datatype Phase =
    | Start
    | Denied(penalty: real, why: Outcome)
    | Checking
    | Acquiring
    | Counting
    | Calling
    | Observing
    | Publishing(depth: int)
    | Serving
    | Releasing(ok: bool)
    | Uncounting(ok: bool)
    | Reobserving
    | Republishing(depth: int)
    | Timing(ok: bool)
    | Recording(ok: bool)
    | Earning
    | Settling(ok: bool)
    | Ended(outcome: Outcome)

  datatype Call = Call(client: string, phase: Phase)

  datatype Env = Env(limits: RateLimiter.Config, minReputation: real)

  // The ledger and the tracker are optional.
  datatype Shared = Shared(
    bucket: RateLimiter.Bucket,
    inFlightCount: int,
    stats: Stats,
    ledger: Option<int>,
    scores: Option<Reputation.Scores>)

  // What the outside world contributes to a step; a step looks only at the parts it needs.
  datatype Input = Input(policyOk: bool, powOk: bool, now: real, cancelled: bool, backendOk: bool, millis: int)

  function Adjusted(scores: Option<Reputation.Scores>, client: string, delta: real): Option<Reputation.Scores> {
    if scores.Some? && client != "" then Some(Reputation.Moved(scores.value, client, delta)) else scores
  }

  predicate TooLow(env: Env, sh: Shared, client: string) {
    && sh.scores.Some?
    && env.minReputation > 0.0
    && client != ""
    && Reputation.ScoreOf(sh.scores.value, client) < env.minReputation
  }

  // The next atomic step of a call.
  function Advance(env: Env, sh: Shared, client: string, phase: Phase, x: Input): (Shared, Phase) {
    match phase
    case Start =>
      if !x.policyOk then (sh, Denied(0.02, PolicyError))
      else if !x.powOk then (sh, Denied(0.2, InvalidPoW))
      else (sh, Checking)
    case Denied(penalty, why) => (sh.(scores := Adjusted(sh.scores, client, -penalty)), Ended(why))
    case Checking => if TooLow(env, sh, client) then (sh, Ended(ReputationLow)) else (sh, Acquiring)
    case Acquiring =>
      var (b, v) := RateLimiter.Acquire(env.limits, sh.bucket, x.now, x.cancelled);
      (sh.(bucket := b), if v == RateLimiter.Granted then Counting else Ended(Refused(v)))
    case Counting => (sh.(inFlightCount := sh.inFlightCount + 1), Calling)
    case Calling => (sh, if x.backendOk then Observing else Releasing(false))
    case Observing => (sh, Publishing(sh.inFlightCount))
    case Publishing(depth) => (sh.(stats := WithDepth(sh.stats, depth, x.now)), Serving)
    case Serving => (sh, Releasing(true))
    case Releasing(ok) => (sh.(bucket := RateLimiter.Release(sh.bucket)), Uncounting(ok))
    case Uncounting(ok) => (sh.(inFlightCount := sh.inFlightCount - 1), if ok then Reobserving else Timing(false))
    case Reobserving => (sh, Republishing(sh.inFlightCount))
    case Republishing(depth) => (sh.(stats := WithDepth(sh.stats, depth, x.now)), Timing(true))
    case Timing(ok) => (sh.(stats := WithLatency(sh.stats, x.millis, x.now)), Recording(ok))
    case Recording(ok) => (sh.(stats := WithOutcome(sh.stats, ok, x.now)), if ok then Earning else Settling(false))
    case Earning => (if sh.ledger.Some? then sh.(ledger := Some(Earned(sh.ledger.value, 1))) else sh, Settling(true))
    case Settling(ok) =>
      (sh.(scores := Adjusted(sh.scores, client, if ok then 0.01 else -0.05)), Ended(if ok then Served else BackendError))
    case Ended(_) => (sh, phase)
  }

  /// Where a call stands

  // The call holds a slot of the limiter.
  predicate Holds(p: Phase) {
    p.Counting? || Working(p)
  }

  predicate Working(p: Phase) {
    p.Calling? || p.Observing? || p.Publishing? || p.Serving? || p.Releasing?
  }

  // The call lies between its two atomic adds.
  predicate Counted(p: Phase) {
    Working(p) || p.Uncounting?
  }

  predicate Unrecorded(p: Phase) {
    Holds(p) || p.Uncounting? || p.Reobserving? || p.Republishing? || p.Timing? || p.Recording?
  }

  // The call has its slot and has not yet been added to the count.
  predicate HasSlotOnly(p: Phase) {
    p.Counting?
  }

  // The call has given its slot back and has not yet been subtracted from the count.
  predicate Subtracting(p: Phase) {
    p.Uncounting?
  }

  // The call has recorded its success and not yet earned its credit.
  predicate Unpaid(p: Phase) {
    p.Earning?
  }

  // The call is past the reputation check and has not ended.
  predicate PastCheck(p: Phase) {
    !p.Start? && !p.Denied? && !p.Checking? && !p.Ended?
  }

  type Calls = map<nat, Call>

  function At(calls: Calls, p: Phase -> bool): set<nat> {
    set id | id in calls && p(calls[id].phase)
  }

  function Num(calls: Calls, p: Phase -> bool): nat {
    |At(calls, p)|
  }

  lemma {:induction false} NumMoves(calls: Calls, id: nat, c: Call, p: Phase -> bool)
    ensures Num(calls[id := c], p)
         == Num(calls, p) - (if id in calls && p(calls[id].phase) then 1 else 0) + (if p(c.phase) then 1 else 0)
  {
    var before, after := At(calls, p), At(calls[id := c], p);
    if p(c.phase) {
      assert after == before + {id};
    } else {
      assert after == before - {id};
    }
  }

  /// Systems and runs

  // `counts` are the values the in-flight count has had, `depths` the queue depths published,
  // `grants` the slots granted and `spent` the credits spent by the node's own client.
  datatype System = System(
    sh: Shared,
    calls: Calls,
    counts: seq<int>,
    depths: seq<int>,
    grants: nat,
    spent: int)

  datatype Event =
    | Enter(id: nat, client: string)
    | Go(id: nat, input: Input)
    | Spend(amount: int)

  function Step(env: Env, s: System, e: Event): System {
    match e
    case Enter(id, client) =>
      if id in s.calls then s else s.(calls := s.calls[id := Call(client, Start)])
    case Go(id, x) =>
      if id !in s.calls then s
      else
        var Call(client, phase) := s.calls[id];
        var (sh, next) := Advance(env, s.sh, client, phase, x);
        System(sh, s.calls[id := Call(client, next)],
               s.counts + [sh.inFlightCount],
               if phase.Publishing? || phase.Republishing? then s.depths + [phase.depth] else s.depths,
               if phase.Acquiring? && next.Counting? then s.grants + 1 else s.grants,
               s.spent)
    case Spend(amount) =>
      if s.sh.ledger.None? then s
      else
        var (balance, ok) := Spent(s.sh.ledger.value, amount);
        s.(sh := s.sh.(ledger := Some(balance)),
           spent := if ok && amount > 0 then s.spent + amount else s.spent)
  }

  function Run(env: Env, s: System, es: seq<Event>): System
    decreases es
  {
    if es == [] then s else Run(env, Step(env, s, es[0]), es[1..])
  }

  // A provider with no calls yet.
  ghost predicate Initial(env: Env, s: System) {
    && s.calls == map[]
    && s.sh.bucket.inFlight == 0
    && s.sh.inFlightCount == 0
    && s.sh.stats.Honest() && s.sh.stats.Total() == 0
    && s.counts == [0] && s.depths == [] && s.grants == 0 && s.spent == 0
    && (s.sh.scores.Some? ==> Reputation.InRange(s.sh.scores.value))
  }

  /// Counting

  ghost predicate Counts(env: Env, s: System) {
    && s.sh.bucket.inFlight == Num(s.calls, Holds)
    && s.sh.bucket.inFlight <= (if env.limits.maxInFlight < 0 then 0 else env.limits.maxInFlight)
    && s.sh.inFlightCount == Num(s.calls, Counted)
  }

  lemma {:induction false} GoCounts(env: Env, s: System, id: nat, x: Input)
    requires Counts(env, s) && id in s.calls
    ensures Counts(env, Step(env, s, Go(id, x)))
  {
    var Call(client, phase) := s.calls[id];
    var next := Advance(env, s.sh, client, phase, x).1;
    NumMoves(s.calls, id, Call(client, next), Holds);
    NumMoves(s.calls, id, Call(client, next), Counted);
    if phase.Releasing? {
      SlotHeld(env, s, id);
    }
  }

  lemma {:induction false} StepCounts(env: Env, s: System, e: Event)
    requires Counts(env, s)
    ensures Counts(env, Step(env, s, e))
  {
    match e
    case Enter(id, client) =>
      NumMoves(s.calls, id, Call(client, Start), Holds);
      NumMoves(s.calls, id, Call(client, Start), Counted);
    case Go(id, x) =>
      if id in s.calls {
        GoCounts(env, s, id, x);
      }
    case Spend(_) =>
  }

  // A call about to release its slot finds a slot to release: the guard of `Release` against
  // zero never takes effect.
  lemma {:induction false} SlotHeld(env: Env, s: System, id: nat)
    requires Counts(env, s) && id in s.calls && s.calls[id].phase.Releasing?
    ensures s.sh.bucket.inFlight > 0
    ensures RateLimiter.Release(s.sh.bucket).inFlight == s.sh.bucket.inFlight - 1
  {
    assert id in At(s.calls, Holds);
  }

  lemma {:induction false} RunCounts(env: Env, s: System, es: seq<Event>)
    requires Counts(env, s)
    ensures Counts(env, Run(env, s, es))
    decreases es
  {
    if es == [] {
    } else {
      StepCounts(env, s, es[0]);
      RunCounts(env, Step(env, s, es[0]), es[1..]);
    }
  }

  // The count and the slots differ by the calls caught between the two updates of an end.
  lemma {:induction false} CountAgainstSlots(calls: Calls)
    ensures Num(calls, Counted) + Num(calls, HasSlotOnly) == Num(calls, Holds) + Num(calls, Subtracting)
  {
    var counted, counting := At(calls, Counted), At(calls, HasSlotOnly);
    var holds, uncounting := At(calls, Holds), At(calls, Subtracting);
    var working := At(calls, Working);
    assert holds == working + counting && working !! counting;
    assert counted == working + uncounting && working !! uncounting;
  }

  // In every interleaving of any number of calls the limiter's in-flight number is the number of
  // calls that hold a slot and respects the cap; the atomic count is the number of calls
  // between their two adds, so it exceeds the cap at most by the calls that have released
  // their slot and not yet subtracted.
  lemma {:induction false} InterleavedCounting(env: Env, s: System, es: seq<Event>)
    requires Initial(env, s) && 0 <= env.limits.maxInFlight
    ensures var t := Run(env, s, es);
            && t.sh.bucket.inFlight == Num(t.calls, Holds) <= env.limits.maxInFlight
            && t.sh.inFlightCount == Num(t.calls, Counted)
            && t.sh.inFlightCount <= env.limits.maxInFlight + Num(t.calls, Subtracting)
            && t.sh.bucket.inFlight <= t.sh.inFlightCount + Num(t.calls, HasSlotOnly)
  {
    assert At(s.calls, Holds) == {} && At(s.calls, Counted) == {};
    RunCounts(env, s, es);
    CountAgainstSlots(Run(env, s, es).calls);
  }

  /// Published depths

  ghost predicate DepthsSeen(s: System) {
    && s.counts != [] && s.counts[|s.counts| - 1] == s.sh.inFlightCount
    && (forall d :: d in s.depths ==> d in s.counts)
    && (forall id :: id in s.calls && s.calls[id].phase.Publishing? ==> s.calls[id].phase.depth in s.counts)
    && (forall id :: id in s.calls && s.calls[id].phase.Republishing? ==> s.calls[id].phase.depth in s.counts)
  }

  lemma {:induction false} StepDepths(env: Env, s: System, e: Event)
    requires DepthsSeen(s)
    ensures DepthsSeen(Step(env, s, e))
  {
    if e.Go? && e.id in s.calls {
      var t := Step(env, s, e);
      assert s.sh.inFlightCount in s.counts;
      assert forall d :: d in s.counts ==> d in t.counts;
      assert forall id :: id in t.calls && id != e.id ==> id in s.calls && t.calls[id] == s.calls[id];
      forall d | d in t.depths
        ensures d in t.counts
      {
        if d !in s.depths {
          assert d == s.calls[e.id].phase.depth;
        }
      }
    }
  }

  // Every queue depth a provider publishes is a value its in-flight count has had.
  lemma {:induction false} DepthsWereCounts(env: Env, s: System, es: seq<Event>)
    requires DepthsSeen(s)
    ensures DepthsSeen(Run(env, s, es))
    decreases es
  {
    if es == [] {
    } else {
      StepDepths(env, s, es[0]);
      DepthsWereCounts(env, Step(env, s, es[0]), es[1..]);
    }
  }

  /// Conservation

  ghost predicate Balanced(s: System, initial: int) {
    Tallied(s) && Solvent(s, initial)
  }

  ghost predicate Tallied(s: System) {
    s.sh.stats.Total() + Num(s.calls, Unrecorded) == s.grants
  }

  ghost predicate Solvent(s: System, initial: int) {
    s.sh.ledger.Some? ==>
      && s.sh.ledger.value == initial - s.spent + s.sh.stats.successes - Num(s.calls, Unpaid)
      && (initial >= 0 ==> s.sh.ledger.value >= 0)
  }

  lemma {:induction false} GoTallied(env: Env, s: System, id: nat, x: Input)
    requires Tallied(s) && id in s.calls
    ensures Tallied(Step(env, s, Go(id, x)))
  {
    var Call(client, phase) := s.calls[id];
    var next := Advance(env, s.sh, client, phase, x).1;
    NumMoves(s.calls, id, Call(client, next), Unrecorded);
  }

  lemma {:induction false} GoSolvent(env: Env, s: System, id: nat, x: Input, initial: int)
    requires Solvent(s, initial) && id in s.calls
    ensures Solvent(Step(env, s, Go(id, x)), initial)
  {
    var Call(client, phase) := s.calls[id];
    var next := Advance(env, s.sh, client, phase, x).1;
    NumMoves(s.calls, id, Call(client, next), Unpaid);
  }

  lemma {:induction false} StepBalanced(env: Env, s: System, e: Event, initial: int)
    requires Balanced(s, initial)
    ensures Balanced(Step(env, s, e), initial)
  {
    match e
    case Enter(id, client) =>
      NumMoves(s.calls, id, Call(client, Start), Unrecorded);
      NumMoves(s.calls, id, Call(client, Start), Unpaid);
    case Go(id, x) =>
      if id in s.calls {
        GoTallied(env, s, id, x);
        GoSolvent(env, s, id, x, initial);
      }
    case Spend(_) =>
  }

  lemma {:induction false} RunBalanced(env: Env, s: System, es: seq<Event>, initial: int)
    requires Balanced(s, initial)
    ensures Balanced(Run(env, s, es), initial)
    decreases es
  {
    if es == [] {
    } else {
      StepBalanced(env, s, es[0], initial);
      RunBalanced(env, Step(env, s, es[0]), es[1..], initial);
    }
  }

  lemma {:induction false} RunHonest(env: Env, s: System, es: seq<Event>)
    requires s.sh.stats.Honest()
    ensures Run(env, s, es).sh.stats.Honest()
    decreases es
  {
    if es == [] {
    } else {
      if es[0].Go? && es[0].id in s.calls && s.calls[es[0].id].phase.Recording? {
        OutcomeKeepsHonest(s.sh.stats, s.calls[es[0].id].phase.ok, es[0].input.now);
      }
      RunHonest(env, Step(env, s, es[0]), es[1..]);
    }
  }

  // Once every call has ended, each granted slot is one recorded success or failure, each
  // success earned one credit, the balance is what was there plus earned less spent and never
  // went negative, and the published reliability is the share of successes among the grants.
  lemma {:induction false} Quiescence(env: Env, s: System, es: seq<Event>, initial: int)
    requires Initial(env, s)
    requires s.sh.ledger.Some? ==> s.sh.ledger.value == initial
    requires forall id :: id in Run(env, s, es).calls ==> Run(env, s, es).calls[id].phase.Ended?
    ensures var t := Run(env, s, es);
            && t.sh.stats.successes + t.sh.stats.failures == t.grants
            && (t.sh.ledger.Some? ==> t.sh.ledger.value == initial + t.sh.stats.successes - t.spent)
            && (t.sh.ledger.Some? && initial >= 0 ==> t.sh.ledger.value >= 0)
            && (t.grants > 0 ==> t.sh.stats.doc.reliability == t.sh.stats.successes as real / t.grants as real)
            && t.sh.bucket.inFlight == 0 && t.sh.inFlightCount == 0
  {
    var t := Run(env, s, es);
    assert At(s.calls, Unrecorded) == At(s.calls, Unpaid) == {};
    RunBalanced(env, s, es, initial);
    RunHonest(env, s, es);
    assert At(t.calls, Unrecorded) == At(t.calls, Unpaid) == {};
    assert At(s.calls, Holds) == At(s.calls, Counted) == {};
    RunCounts(env, s, es);
    assert At(t.calls, Holds) == At(t.calls, Counted) == {};
  }

  /// Lockout

  // What holds of every reachable state: scores are in range and no denial is a reward.
  ghost predicate Disciplined(s: System) {
    && (s.sh.scores.Some? ==> Reputation.InRange(s.sh.scores.value))
    && forall id :: id in s.calls && s.calls[id].phase.Denied? ==> s.calls[id].phase.penalty >= 0.0
  }

  lemma {:induction false} StepDisciplined(env: Env, s: System, e: Event)
    requires Disciplined(s)
    ensures Disciplined(Step(env, s, e))
  {
    if e.Go? && e.id in s.calls {
      var t := Step(env, s, e);
      assert forall id :: id in t.calls && id != e.id ==> id in s.calls && t.calls[id] == s.calls[id];
    }
  }

  lemma {:induction false} RunDisciplined(env: Env, s: System, es: seq<Event>)
    requires Disciplined(s)
    ensures Disciplined(Run(env, s, es))
    decreases es
  {
    if es == [] {
    } else {
      StepDisciplined(env, s, es[0]);
      RunDisciplined(env, Step(env, s, es[0]), es[1..]);
    }
  }

  // There is a tracker and a threshold, and the client's score, 1 if it has none, is below it.
  ghost predicate Below(env: Env, sh: Shared, client: string) {
    && sh.scores.Some? && env.minReputation > 0.0 && client != ""
    && (if client in sh.scores.value then sh.scores.value[client] else 1.0) < env.minReputation
  }

  // The client's score is below the threshold, and none of its calls is past the check.
  ghost predicate LockedOut(env: Env, s: System, client: string) {
    && Below(env, s.sh, client)
    && (forall id :: id in s.calls && s.calls[id].client == client ==> !PastCheck(s.calls[id].phase))
  }

  lemma {:induction false} StepLockedOut(env: Env, s: System, e: Event, client: string)
    requires Disciplined(s) && LockedOut(env, s, client)
    ensures LockedOut(env, Step(env, s, e), client)
    ensures Reputation.ScoreOf(Step(env, s, e).sh.scores.value, client) <= Reputation.ScoreOf(s.sh.scores.value, client)
  {
    if e.Go? && e.id in s.calls {
      var t := Step(env, s, e);
      AdvanceLockedOut(env, s.sh, s.calls[e.id], e.input, client);
      assert forall id :: id in t.calls && id != e.id ==> id in s.calls && t.calls[id] == s.calls[id];
    }
  }

  lemma {:induction false} AdvanceLockedOut(env: Env, sh: Shared, c: Call, x: Input, client: string)
    requires Below(env, sh, client) && Reputation.InRange(sh.scores.value)
    requires c.phase.Denied? ==> c.phase.penalty >= 0.0
    requires c.client == client ==> !PastCheck(c.phase)
    ensures var (after, next) := Advance(env, sh, c.client, c.phase, x);
            && Below(env, after, client)
            && Reputation.ScoreOf(after.scores.value, client) <= Reputation.ScoreOf(sh.scores.value, client)
            && (c.client == client ==> !PastCheck(next))
  {
  }

  lemma {:induction false} RunLockedOut(env: Env, s: System, es: seq<Event>, client: string)
    requires Disciplined(s) && LockedOut(env, s, client)
    ensures LockedOut(env, Run(env, s, es), client)
    ensures Reputation.ScoreOf(Run(env, s, es).sh.scores.value, client) <= Reputation.ScoreOf(s.sh.scores.value, client)
    decreases es
  {
    if es == [] {
    } else {
      StepDisciplined(env, s, es[0]);
      StepLockedOut(env, s, es[0], client);
      RunLockedOut(env, Step(env, s, es[0]), es[1..], client);
    }
  }

  // In any reachable state, a client whose score has fallen below the threshold, with no call
  // past the check, stays out for good: whatever happens next, its score never rises and no call of
  // its own passes the check, so none reaches the backend.
  lemma {:induction false} LockoutIsAbsorbing(env: Env, s: System, before: seq<Event>, after: seq<Event>, client: string)
    requires Initial(env, s) && LockedOut(env, Run(env, s, before), client)
    ensures var t := Run(env, s, before);
            var u := Run(env, t, after);
            && LockedOut(env, u, client)
            && Reputation.ScoreOf(u.sh.scores.value, client) <= Reputation.ScoreOf(t.sh.scores.value, client)
            && forall id :: id in u.calls && u.calls[id].phase.Calling? ==> u.calls[id].client != client
  {
    RunDisciplined(env, s, before);
    RunLockedOut(env, Run(env, s, before), after, client);
  }
}
