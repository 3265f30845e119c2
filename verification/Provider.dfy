/**
 The provider service: `Infer` admits a request and passes it to the backend, and `Cleanup` runs
 when the caller has finished with the answer.

 The methods are proved to take exactly the steps of a call in `Admission`, one after the other.
 The outside world contributes to each step separately: every clock reading is its own.
 */
module Provider {
  import opened Mesh
  import opened Accounting
  import opened Admission
  import ProofOfWork
  import RateLimiter
  import Reputation
  import Text

  datatype Policy = Policy(
    maxTokens: int,
    nightOnly: bool,
    nightStart: int,
    nightEnd: int,
    idleOnly: bool,
    maxLoad: real,
    powDifficulty: int,
    minReputation: real)

  // `load` is none when the probe fails, which does not refuse the request.
  datatype Outside = Outside(
    hour: int, load: Option<real>, now: real, cancelled: bool, backendOk: bool, millis: int)

  type World = Phase -> Outside

  predicate WithinWindow(hour: int, start: int, end: int) {
    start == end
    || (start < end && start <= hour < end)
    || (start > end && (hour >= start || hour < end))
  }

  datatype Refusal = TokensExceeded | OutsideServingWindow | HostBusy

  // The first rule that the request breaks, if any.
  function Broken(p: Policy, req: Request, o: Outside): Option<Refusal> {
    if p.maxTokens > 0 && req.maxTokens > p.maxTokens then Some(TokensExceeded)
    else if p.nightOnly && !WithinWindow(o.hour, p.nightStart, p.nightEnd) then Some(OutsideServingWindow)
    else if p.idleOnly && p.maxLoad > 0.0 && o.load.Some? && o.load.value > p.maxLoad then Some(HostBusy)
    else None
  }

  predicate Allows(p: Policy, req: Request, o: Outside) {
    && (p.maxTokens > 0 ==> req.maxTokens <= p.maxTokens)
    && (p.nightOnly ==> WithinWindow(o.hour, p.nightStart, p.nightEnd))
    && (p.idleOnly && p.maxLoad > 0.0 && o.load.Some? ==> o.load.value <= p.maxLoad)
  }

  predicate Proves(digest: ProofOfWork.Digest, p: Policy, req: Request, ctx: PeerContext) {
    p.powDifficulty > 0 ==> ProofOfWork.Solves(digest, ctx.clientPeer, ctx.nonce, req.model, p.powDifficulty)
  }

  // A request with what the provider makes of it.
  datatype Job = Job(policy: Policy, digest: ProofOfWork.Digest, req: Request, ctx: PeerContext)

  function InputOf(job: Job, o: Outside): Input {
    Input(Allows(job.policy, job.req, o), Proves(job.digest, job.policy, job.req, job.ctx),
          o.now, o.cancelled, o.backendOk, o.millis)
  }

  // A call waits while its answer is being read.
  predicate Waits(p: Phase) {
    p.Serving? || p.Ended?
  }

  function Stage(p: Phase): nat {
    match p
    case Start => 14
    case Denied(_, _) => 1
    case Checking => 13
    case Acquiring => 12
    case Counting => 11
    case Calling => 10
    case Observing => 9
    case Publishing(_) => 9
    case Serving => 8
    case Releasing(_) => 7
    case Uncounting(_) => 6
    case Reobserving => 5
    case Republishing(_) => 4
    case Timing(_) => 3
    case Recording(_) => 2
    case Earning => 1
    case Settling(_) => 0
    case Ended(_) => 0
  }

  // A call on its own, up to where it serves or ends.
  function Drive(env: Env, sh: Shared, job: Job, p: Phase, world: World): (Shared, Phase)
    decreases Stage(p), if p.Observing? || p.Settling? then 1 else 0
  {
    if Waits(p) then (sh, p)
    else
      var (next, q) := Advance(env, sh, job.ctx.clientPeer, p, InputOf(job, world(p)));
      if Waits(q) then (next, q) else Drive(env, next, job, q, world)
  }

  lemma {:induction false} DriveStep(env: Env, sh: Shared, job: Job, p: Phase, world: World, next: Shared, q: Phase)
    requires !Waits(p) && Advance(env, sh, job.ctx.clientPeer, p, InputOf(job, world(p))) == (next, q)
    ensures Drive(env, sh, job, p, world) == Drive(env, next, job, q, world)
  {
  }

  // What the stretches of a call do to the shared state.

  function Taken(env: Env, sh: Shared, x: Outside): Shared {
    sh.(bucket := RateLimiter.Acquire(env.limits, sh.bucket, x.now, x.cancelled).0)
  }

  function Entered(sh: Shared): Shared {
    sh.(inFlightCount := sh.inFlightCount + 1)
  }

  function Released(sh: Shared): Shared {
    sh.(bucket := RateLimiter.Release(sh.bucket))
  }

  function Uncounted(sh: Shared): Shared {
    sh.(inFlightCount := sh.inFlightCount - 1)
  }

  function Left(sh: Shared): Shared {
    Uncounted(Released(sh))
  }

  function Shown(sh: Shared, depth: int, now: real): Shared {
    sh.(stats := WithDepth(sh.stats, depth, now))
  }

  function Timed(sh: Shared, ok: bool, world: World): Shared {
    sh.(stats := WithLatency(sh.stats, world(Timing(ok)).millis, world(Timing(ok)).now))
  }

  function Marked(sh: Shared, ok: bool, world: World): Shared {
    sh.(stats := WithOutcome(sh.stats, ok, world(Recording(ok)).now))
  }

  function Recorded(sh: Shared, ok: bool, world: World): Shared {
    Marked(Timed(sh, ok, world), ok, world)
  }

  function Moved(sh: Shared, client: string, delta: real): Shared {
    sh.(scores := Adjusted(sh.scores, client, delta))
  }

  function Paid(sh: Shared): Shared {
    if sh.ledger.Some? then sh.(ledger := Some(Earned(sh.ledger.value, 1))) else sh
  }

  function FailedCall(sh: Shared, client: string, world: World): Shared {
    Moved(Recorded(Left(sh), false, world), client, -0.05)
  }

  function CleanedUp(sh: Shared, client: string, world: World): Shared {
    var left := Left(sh);
    var shown := Shown(left, left.inFlightCount, world(Republishing(left.inFlightCount)).now);
    Moved(Paid(Recorded(shown, true, world)), client, 0.01)
  }

  lemma {:induction false} DriveDenied(env: Env, sh: Shared, job: Job, world: World, penalty: real, why: Outcome)
    requires var x := InputOf(job, world(Start));
             if x.policyOk then !x.powOk && penalty == 0.2 && why == InvalidPoW else penalty == 0.02 && why == PolicyError
    ensures Drive(env, sh, job, Start, world) == (Moved(sh, job.ctx.clientPeer, -penalty), Ended(why))
  {
    DriveStep(env, sh, job, Start, world, sh, Denied(penalty, why));
    DriveStep(env, sh, job, Denied(penalty, why), world, Moved(sh, job.ctx.clientPeer, -penalty), Ended(why));
  }

  lemma {:induction false} DriveFailing(env: Env, sh: Shared, job: Job, world: World)
    ensures Drive(env, sh, job, Releasing(false), world)
         == (FailedCall(sh, job.ctx.clientPeer, world), Ended(BackendError))
  {
    DriveFailure(env, Left(sh), job, world);
    DriveStep(env, Released(sh), job, Uncounting(false), world, Left(sh), Timing(false));
    DriveStep(env, sh, job, Releasing(false), world, Released(sh), Uncounting(false));
  }

  lemma {:induction false} DriveFailure(env: Env, sh: Shared, job: Job, world: World)
    ensures Drive(env, sh, job, Timing(false), world)
         == (Moved(Recorded(sh, false, world), job.ctx.clientPeer, -0.05), Ended(BackendError))
  {
    var timed, recorded := Timed(sh, false, world), Recorded(sh, false, world);
    DriveStep(env, recorded, job, Settling(false), world, Moved(recorded, job.ctx.clientPeer, -0.05), Ended(BackendError));
    DriveStep(env, timed, job, Recording(false), world, recorded, Settling(false));
    DriveStep(env, sh, job, Timing(false), world, timed, Recording(false));
  }

  lemma {:induction false} DriveCleanup(env: Env, sh: Shared, job: Job, world: World)
    ensures Drive(env, sh, job, Releasing(true), world) == (CleanedUp(sh, job.ctx.clientPeer, world), Ended(Served))
  {
    calc {
      Drive(env, sh, job, Releasing(true), world);
    ==  { DriveStep(env, sh, job, Releasing(true), world, Released(sh), Uncounting(true)); }
      Drive(env, Released(sh), job, Uncounting(true), world);
    ==  { DriveStep(env, Released(sh), job, Uncounting(true), world, Left(sh), Reobserving); }
      Drive(env, Left(sh), job, Reobserving, world);
    ==  { DriveShowing(env, Left(sh), job, world); }
      (CleanedUp(sh, job.ctx.clientPeer, world), Ended(Served));
    }
  }

  lemma {:induction false} DriveShowing(env: Env, sh: Shared, job: Job, world: World)
    ensures var shown := Shown(sh, sh.inFlightCount, world(Republishing(sh.inFlightCount)).now);
            Drive(env, sh, job, Reobserving, world)
            == (Moved(Paid(Recorded(shown, true, world)), job.ctx.clientPeer, 0.01), Ended(Served))
  {
    var depth := sh.inFlightCount;
    var shown := Shown(sh, depth, world(Republishing(depth)).now);
    DriveSuccess(env, shown, job, world);
    DriveStep(env, sh, job, Republishing(depth), world, shown, Timing(true));
    DriveStep(env, sh, job, Reobserving, world, sh, Republishing(depth));
  }

  lemma {:induction false} DriveSuccess(env: Env, sh: Shared, job: Job, world: World)
    ensures Drive(env, sh, job, Timing(true), world)
         == (Moved(Paid(Recorded(sh, true, world)), job.ctx.clientPeer, 0.01), Ended(Served))
  {
    var timed, recorded := Timed(sh, true, world), Recorded(sh, true, world);
    var paid := Paid(recorded);
    DriveStep(env, paid, job, Settling(true), world, Moved(paid, job.ctx.clientPeer, 0.01), Ended(Served));
    DriveStep(env, recorded, job, Earning, world, paid, Settling(true));
    DriveStep(env, timed, job, Recording(true), world, recorded, Earning);
    DriveStep(env, sh, job, Timing(true), world, timed, Recording(true));
  }

  lemma {:induction false} DriveBackend(env: Env, sh: Shared, job: Job, world: World)
    ensures Drive(env, sh, job, Counting, world) == Backed(sh, job.ctx.clientPeer, world)
  {
    var entered := Entered(sh);
    if world(Calling).backendOk {
      DriveServing(env, entered, job, world);
      DriveStep(env, entered, job, Calling, world, entered, Observing);
    } else {
      DriveFailing(env, entered, job, world);
      DriveStep(env, entered, job, Calling, world, entered, Releasing(false));
    }
    DriveStep(env, sh, job, Counting, world, entered, Calling);
  }

  lemma {:induction false} DriveServing(env: Env, sh: Shared, job: Job, world: World)
    ensures Drive(env, sh, job, Observing, world)
         == (Shown(sh, sh.inFlightCount, world(Publishing(sh.inFlightCount)).now), Serving)
  {
    var depth := sh.inFlightCount;
    DriveStep(env, sh, job, Publishing(depth), world, Shown(sh, depth, world(Publishing(depth)).now), Serving);
    DriveStep(env, sh, job, Observing, world, sh, Publishing(depth));
  }

  // From the reputation check on.
  function Admitted(env: Env, sh: Shared, client: string, world: World): (Shared, Phase) {
    var x := world(Acquiring);
    var verdict := RateLimiter.Acquire(env.limits, sh.bucket, x.now, x.cancelled).1;
    var taken := Taken(env, sh, x);
    if TooLow(env, sh, client) then (sh, Ended(ReputationLow))
    else if verdict != RateLimiter.Granted then (taken, Ended(Refused(verdict)))
    else Backed(taken, client, world)
  }

  function Backed(sh: Shared, client: string, world: World): (Shared, Phase) {
    var entered := Entered(sh);
    if world(Calling).backendOk
    then (Shown(entered, entered.inFlightCount, world(Publishing(entered.inFlightCount)).now), Serving)
    else (FailedCall(entered, client, world), Ended(BackendError))
  }

  lemma {:induction false} DriveAdmitting(env: Env, sh: Shared, job: Job, world: World)
    ensures Drive(env, sh, job, Checking, world) == Admitted(env, sh, job.ctx.clientPeer, world)
  {
    if TooLow(env, sh, job.ctx.clientPeer) {
      DriveStep(env, sh, job, Checking, world, sh, Ended(ReputationLow));
    } else {
      DriveStep(env, sh, job, Checking, world, sh, Acquiring);
      DriveAcquiring(env, sh, job, world);
    }
  }

  lemma {:induction false} DriveAcquiring(env: Env, sh: Shared, job: Job, world: World)
    ensures var verdict := RateLimiter.Acquire(env.limits, sh.bucket, world(Acquiring).now, world(Acquiring).cancelled).1;
            var taken := Taken(env, sh, world(Acquiring));
            Drive(env, sh, job, Acquiring, world) ==
            if verdict != RateLimiter.Granted then (taken, Ended(Refused(verdict)))
            else Backed(taken, job.ctx.clientPeer, world)
  {
    var verdict := RateLimiter.Acquire(env.limits, sh.bucket, world(Acquiring).now, world(Acquiring).cancelled).1;
    var taken := Taken(env, sh, world(Acquiring));
    DriveStep(env, sh, job, Acquiring, world, taken,
              if verdict == RateLimiter.Granted then Counting else Ended(Refused(verdict)));
    if verdict == RateLimiter.Granted {
      DriveBackend(env, taken, job, world);
    }
  }

  class ProviderService {
    const limiter: RateLimiter.Limiter
    const capability: CapabilityState
    const policy: Policy
    const digest: ProofOfWork.Digest
    const ledger: CreditLedger?
    const reputation: Reputation.ReputationTracker?
    var inFlightCount: int

    ghost function Contents(): Shared
      reads this, limiter, capability, ledger, reputation
    {
      Shared(limiter.Contents(), inFlightCount, capability.Contents(),
             if ledger == null then None else Some(ledger.balance),
             if reputation == null then None else Some(reputation.scores))
    }

    ghost function Settings(): Env {
      Env(limiter.Settings(), policy.minReputation)
    }

    ghost function JobOf(req: Request, ctx: PeerContext): Job {
      Job(policy, digest, req, ctx)
    }

    constructor (limiter: RateLimiter.Limiter, capability: CapabilityState, policy: Policy, digest: ProofOfWork.Digest,
                 ledger: CreditLedger?, reputation: Reputation.ReputationTracker?)
      ensures this.limiter == limiter && this.capability == capability && this.policy == policy && this.digest == digest
      ensures this.ledger == ledger && this.reputation == reputation && inFlightCount == 0
    {
      this.limiter, this.capability, this.policy, this.digest := limiter, capability, policy, digest;
      this.ledger, this.reputation := ledger, reputation;
      inFlightCount := 0;
    }

    method Validate(req: Request, o: Outside) returns (refusal: Option<Refusal>)
      ensures refusal == Broken(policy, req, o)
      ensures refusal.None? <==> Allows(policy, req, o)
    {
      if policy.maxTokens > 0 && req.maxTokens > policy.maxTokens {
        return Some(TokensExceeded);
      }
      if policy.nightOnly && !WithinWindow(o.hour, policy.nightStart, policy.nightEnd) {
        return Some(OutsideServingWindow);
      }
      if policy.idleOnly && policy.maxLoad > 0.0 {
        if o.load.Some? && o.load.value > policy.maxLoad {
          return Some(HostBusy);
        }
      }
      return None;
    }

    method Adjust(client: string, delta: real)
      modifies reputation
      ensures Contents() == Moved(old(Contents()), client, delta)
    {
      if reputation != null && client != "" {
        reputation.Adjust(client, delta);
      }
    }

    // The phase tells whether the call serves, and then needs `Cleanup`, or how it ended.
    method Infer(req: Request, ctx: PeerContext, world: World) returns (p: Phase)
      modifies this, limiter, capability, reputation
      ensures (Contents(), p) == Drive(Settings(), old(Contents()), JobOf(req, ctx), Start, world)
    {
      ghost var job, env := JobOf(req, ctx), Settings();
      var refusal := Validate(req, world(Start));
      if refusal.Some? {
        DriveDenied(env, Contents(), job, world, 0.02, PolicyError);
        Adjust(ctx.clientPeer, -0.02);
        return Ended(PolicyError);
      }
      if policy.powDifficulty > 0 {
        var proved := ProofOfWork.Validate(digest, ctx.clientPeer, ctx.nonce, req.model, policy.powDifficulty);
        if !proved {
          DriveDenied(env, Contents(), job, world, 0.2, InvalidPoW);
          Adjust(ctx.clientPeer, -0.2);
          return Ended(InvalidPoW);
        }
      }
      DriveStep(env, Contents(), job, Start, world, Contents(), Checking);
      DriveAdmitting(env, Contents(), job, world);
      p := Admit(ctx.clientPeer, world);
    }

    // From the reputation check on.
    method Admit(client: string, world: World) returns (p: Phase)
      modifies this, limiter, capability, reputation
      ensures (Contents(), p) == Admitted(Settings(), old(Contents()), client, world)
    {
      if reputation != null && policy.minReputation > 0.0 && client != "" {
        var score := reputation.Score(client);
        if score < policy.minReputation {
          return Ended(ReputationLow);
        }
      }
      var verdict := Take(world(Acquiring));
      if verdict != RateLimiter.Granted {
        return Ended(Refused(verdict));
      }
      p := CallBackend(client, world);
    }

    method Take(x: Outside) returns (verdict: RateLimiter.Verdict)
      modifies limiter
      ensures Contents() == Taken(Settings(), old(Contents()), x)
      ensures verdict == RateLimiter.Acquire(limiter.Settings(), old(limiter.Contents()), x.now, x.cancelled).1
    {
      verdict := limiter.AcquireSlot(x.now, x.cancelled);
    }

    method CallBackend(client: string, world: World) returns (p: Phase)
      modifies this, limiter, capability, reputation
      ensures (Contents(), p) == Backed(old(Contents()), client, world)
    {
      inFlightCount := inFlightCount + 1;
      if !world(Calling).backendOk {
        GiveBack();
        Record(false, world);
        Adjust(client, -0.05);
        return Ended(BackendError);
      }
      var depth := inFlightCount;
      capability.SetQueueDepth(depth, world(Publishing(depth)).now);
      return Serving;
    }

    method GiveBack()
      modifies this, limiter
      ensures Contents() == Left(old(Contents()))
    {
      limiter.ReleaseSlot();
      inFlightCount := inFlightCount - 1;
    }

    method Record(ok: bool, world: World)
      modifies capability
      ensures Contents() == Recorded(old(Contents()), ok, world)
    {
      capability.UpdateLatency(world(Timing(ok)).millis, world(Timing(ok)).now);
      capability.RecordOutcome(ok, world(Recording(ok)).now);
    }

    // What the caller of `Infer` runs once the answer has been read.
    method Cleanup(ghost req: Request, ctx: PeerContext, world: World)
      modifies this, limiter, capability, ledger, reputation
      ensures (Contents(), Ended(Served)) == Drive(Settings(), old(Contents()), JobOf(req, ctx), Releasing(true), world)
    {
      DriveCleanup(Settings(), Contents(), JobOf(req, ctx), world);
      GiveBack();
      var depth := inFlightCount;
      capability.SetQueueDepth(depth, world(Republishing(depth)).now);
      Record(true, world);
      EarnOne();
      Adjust(ctx.clientPeer, 0.01);
    }

    method EarnOne()
      modifies ledger
      ensures Contents() == Paid(old(Contents()))
    {
      if ledger != null {
        ledger.Earn(1);
      }
    }
  }

  /// What a call comes to

  // The call gave back what it took: its slot and its place in the count.
  ghost predicate Returned(sh: Shared, end: Shared) {
    end.bucket.inFlight == sh.bucket.inFlight && end.inFlightCount == sh.inFlightCount
  }

  ghost predicate Earns(sh: Shared, end: Shared, successes: int, failures: int, credits: int) {
    && end.stats.successes == sh.stats.successes + successes
    && end.stats.failures == sh.stats.failures + failures
    && end.ledger == if sh.ledger.None? then None else Some(sh.ledger.value + credits)
  }

  // Only the client's score moves, and only if it has a name: by the delta, within 0 and 1, from 1 if
  // it had none.
  ghost predicate ScoresMove(sh: Shared, end: Shared, client: string, delta: real) {
    if sh.scores.None? then end.scores.None?
    else end.scores.Some? && forall p: string ::
           var before := if p in sh.scores.value then sh.scores.value[p] else 1.0;
           var after := if p in end.scores.value then end.scores.value[p] else 1.0;
           if p != client || client == "" then after == before
           else if before + delta < 0.0 then after == 0.0
           else if before + delta > 1.0 then after == 1.0
           else after == before + delta
  }

  // The latency average takes a sample, of one millisecond at least.
  ghost predicate Samples(sh: Shared, end: Shared, millis: int) {
    end.stats.latencyEMA == 0.3 * (if millis < 1 then 1.0 else millis as real) + 0.7 * sh.stats.latencyEMA
  }

  lemma {:induction false} AdjustedMoves(sh: Shared, end: Shared, client: string, delta: real)
    requires end.scores == Adjusted(sh.scores, client, delta)
    ensures ScoresMove(sh, end, client, delta)
  {
  }

  // The policy, rule by rule.
  ghost predicate Obeys(p: Policy, req: Request, o: Outside) {
    && (p.maxTokens <= 0 || req.maxTokens <= p.maxTokens)
    && (!p.nightOnly || WithinWindow(o.hour, p.nightStart, p.nightEnd))
    && (!p.idleOnly || p.maxLoad <= 0.0 || o.load.None? || o.load.value <= p.maxLoad)
  }

  // The proof of work, if one is asked for, in the digest's digits.
  ghost predicate HasWorked(job: Job) {
    job.policy.powDifficulty > 0 ==>
      ProofOfWork.ZeroDigits(job.digest(job.ctx.clientPeer + ":" + Text.Decimal(job.ctx.nonce) + ":" + job.req.model),
                             job.policy.powDifficulty)
  }

  // A window runs from its start to its end around the clock, and is the whole day if they are equal.
  lemma {:induction false} WindowIsCyclic(hour: int, start: int, end: int)
    requires 0 <= hour < 24 && 0 <= start < 24 && 0 <= end < 24
    ensures WithinWindow(hour, start, end) <==> start == end || (hour - start) % 24 < (end - start) % 24
  {
  }

  // Every way a call of `Infer` can end on its own. Only a serving call keeps a slot; policy, proof
  // of work and reputation refuse before the limiter is asked; a refusal by the limiter and a
  // reputation too low cost the client nothing.
  lemma {:induction false} InferEffects(env: Env, sh: Shared, job: Job, world: World)
    requires 0 <= sh.bucket.inFlight
    ensures var (end, p) := Drive(env, sh, job, Start, world);
            var client := job.ctx.clientPeer;
            match p
            case Serving =>
              && end.bucket.inFlight == sh.bucket.inFlight + 1 <= env.limits.maxInFlight && !world(Acquiring).cancelled
              && end.inFlightCount == sh.inFlightCount + 1 == end.stats.doc.queueDepth
              && Earns(sh, end, 0, 0, 0) && end.stats.latencyEMA == sh.stats.latencyEMA && end.scores == sh.scores
            case Ended(BackendError) =>
              && !world(Calling).backendOk
              && Returned(sh, end) && Earns(sh, end, 0, 1, 0) && ScoresMove(sh, end, client, -0.05)
              && Samples(sh, end, world(Timing(false)).millis) && end.stats.doc.queueDepth == sh.stats.doc.queueDepth
            case Ended(Refused(verdict)) =>
              && Returned(sh, end) && end == sh.(bucket := end.bucket)
              && (if world(Acquiring).cancelled then verdict == RateLimiter.Cancelled
                  else if sh.bucket.inFlight >= env.limits.maxInFlight then verdict == RateLimiter.TooManyInFlight
                  else verdict == RateLimiter.RateLimited)
            case Ended(ReputationLow) => Below(env, sh, client) && end == sh
            case Ended(PolicyError) => !Obeys(job.policy, job.req, world(Start)) && ScoresMove(sh, end, client, -0.02)
                                       && end == sh.(scores := end.scores)
            case Ended(InvalidPoW) =>
              && Obeys(job.policy, job.req, world(Start)) && !HasWorked(job)
              && ScoresMove(sh, end, client, -0.2) && end == sh.(scores := end.scores)
            case _ => false
    ensures var p := Drive(env, sh, job, Start, world).1;
            p.Serving? || p == Ended(BackendError) || (p.Ended? && p.outcome.Refused?) ==>
              && Obeys(job.policy, job.req, world(Start)) && HasWorked(job)
              && !Below(env, sh, job.ctx.clientPeer)
  {
    var x := InputOf(job, world(Start));
    if !x.policyOk {
      DriveDenied(env, sh, job, world, 0.02, PolicyError);
      AdjustedMoves(sh, Moved(sh, job.ctx.clientPeer, -0.02), job.ctx.clientPeer, -0.02);
    } else if !x.powOk {
      DriveDenied(env, sh, job, world, 0.2, InvalidPoW);
      AdjustedMoves(sh, Moved(sh, job.ctx.clientPeer, -0.2), job.ctx.clientPeer, -0.2);
    } else {
      DriveStep(env, sh, job, Start, world, sh, Checking);
      DriveAdmitting(env, sh, job, world);
      AdmittedEffects(env, sh, job.ctx.clientPeer, world);
    }
  }

  lemma {:induction false} AdmittedEffects(env: Env, sh: Shared, client: string, world: World)
    requires 0 <= sh.bucket.inFlight
    ensures var (end, p) := Admitted(env, sh, client, world);
            if Below(env, sh, client) then p == Ended(ReputationLow) && end == sh
            else if world(Acquiring).cancelled then p == Ended(Refused(RateLimiter.Cancelled)) && end == sh
            else if sh.bucket.inFlight >= env.limits.maxInFlight then p == Ended(Refused(RateLimiter.TooManyInFlight)) && end == sh
            else if p.Ended? && p.outcome.Refused? then
              p.outcome.verdict == RateLimiter.RateLimited && end == sh.(bucket := end.bucket) && Returned(sh, end)
            else
              var taken := Taken(env, sh, world(Acquiring));
              taken.bucket.inFlight == sh.bucket.inFlight + 1 && (end, p) == Backed(taken, client, world)
              && BackedEffects(taken, end, p, client, world)
  {
    var taken := Taken(env, sh, world(Acquiring));
    if !Below(env, sh, client) && taken.bucket.inFlight == sh.bucket.inFlight + 1 {
      BackedIs(taken, client, world);
    }
  }

  ghost predicate BackedEffects(taken: Shared, end: Shared, p: Phase, client: string, world: World) {
    if world(Calling).backendOk then
      && p == Serving && end.bucket == taken.bucket
      && end.inFlightCount == taken.inFlightCount + 1 == end.stats.doc.queueDepth
      && Earns(taken, end, 0, 0, 0) && end.stats.latencyEMA == taken.stats.latencyEMA && end.scores == taken.scores
    else
      && p == Ended(BackendError) && end.bucket == taken.bucket.(inFlight := taken.bucket.inFlight - 1)
      && end.inFlightCount == taken.inFlightCount
      && Earns(taken, end, 0, 1, 0) && ScoresMove(taken, end, client, -0.05)
      && Samples(taken, end, world(Timing(false)).millis) && end.stats.doc.queueDepth == taken.stats.doc.queueDepth
  }

  lemma {:induction false} BackedIs(taken: Shared, client: string, world: World)
    requires 0 < taken.bucket.inFlight
    ensures var (end, p) := Backed(taken, client, world); BackedEffects(taken, end, p, client, world)
  {
    var (end, p) := Backed(taken, client, world);
    if !world(Calling).backendOk {
      AdjustedMoves(taken, end, client, -0.05);
    }
  }

  // A cleanup gives the slot back, records one success and the latency, earns one credit, and raises
  // the score.
  lemma {:induction false} CleanupEffects(env: Env, sh: Shared, job: Job, world: World)
    requires 0 < sh.bucket.inFlight
    ensures var (end, p) := Drive(env, sh, job, Releasing(true), world);
            && p == Ended(Served)
            && end.bucket == sh.bucket.(inFlight := sh.bucket.inFlight - 1)
            && end.inFlightCount == sh.inFlightCount - 1 == end.stats.doc.queueDepth
            && Samples(sh, end, world(Timing(true)).millis)
            && Earns(sh, end, 1, 0, 1) && ScoresMove(sh, end, job.ctx.clientPeer, 0.01)
  {
    DriveCleanup(env, sh, job, world);
    AdjustedMoves(sh, CleanedUp(sh, job.ctx.clientPeer, world), job.ctx.clientPeer, 0.01);
  }

  /// The sequential calls against the interleaved system

  // Driving a call is a run of the interleaved system in which only this call moves, so what holds
  // of every run holds of the methods.
  lemma {:induction false} DriveIsRun(env: Env, s: System, id: nat, job: Job, world: World) returns (es: seq<Event>)
    requires id in s.calls && s.calls[id].client == job.ctx.clientPeer
    ensures forall e :: e in es ==> e.Go? && e.id == id
    ensures var t := Run(env, s, es);
            && id in t.calls
            && t.sh == Drive(env, s.sh, job, s.calls[id].phase, world).0
            && t.calls == s.calls[id := Call(job.ctx.clientPeer, Drive(env, s.sh, job, s.calls[id].phase, world).1)]
    decreases Stage(s.calls[id].phase), if s.calls[id].phase.Observing? || s.calls[id].phase.Settling? then 1 else 0
  {
    var p := s.calls[id].phase;
    if Waits(p) {
      es := [];
      assert s.calls == s.calls[id := Call(job.ctx.clientPeer, p)];
    } else {
      var e := Go(id, InputOf(job, world(p)));
      var next := Step(env, s, e);
      DriveStep(env, s.sh, job, p, world, next.sh, next.calls[id].phase);
      var rest := DriveIsRun(env, next, id, job, world);
      es := [e] + rest;
      assert es[1..] == rest;
    }
  }
}
