/**
 The reputation tracker: one score per peer, moved by rewards and penalties and clamped to
 [0, 1] after every move. A peer that was never adjusted scores 1.

 `Moved` and `MovedAll` say what adjustments do to the score map; the normal form says that
 any history of one peer acts on its score as a single clamped shift.
 */
module Reputation {

  const FLOOR: real := 0.0
  const CEIL: real := 1.0

  type Scores = map<string, real>

  function ScoreOf(scores: Scores, peer: string): real {
    if peer in scores then scores[peer] else 1.0
  }

  function Clamp(x: real): real {
    if x < FLOOR then FLOOR else if x > CEIL then CEIL else x
  }

  function Moved(scores: Scores, peer: string, delta: real): Scores {
    scores[peer := Clamp(ScoreOf(scores, peer) + delta)]
  }

  predicate InRange(scores: Scores) {
    forall p :: p in scores ==> FLOOR <= scores[p] <= CEIL
  }

  class ReputationTracker {
    var scores: Scores

    constructor ()
      ensures scores == map[]
    {
      scores := map[];
    }

    method Score(peer: string) returns (s: real)
      ensures s == ScoreOf(scores, peer)
    {
      if peer !in scores {
        return 1.0;
      }
      return scores[peer];
    }

    method Reward(peer: string, delta: real)
      modifies this
      ensures scores == Moved(old(scores), peer, delta)
    {
      Adjust(peer, delta);
    }

    method Penalize(peer: string, delta: real)
      modifies this
      ensures scores == Moved(old(scores), peer, -delta)
    {
      Adjust(peer, -delta);
    }

    method Adjust(peer: string, delta: real)
      modifies this
      ensures scores == Moved(old(scores), peer, delta)
    {
      var cur := if peer in scores then scores[peer] else 1.0;
      cur := cur + delta;
      if cur < FLOOR {
        cur := FLOOR;
      }
      if cur > CEIL {
        cur := CEIL;
      }
      scores := scores[peer := cur];
    }
  }

  /// Histories

  datatype Move = Move(peer: string, delta: real)

  function MovedAll(scores: Scores, moves: seq<Move>): Scores
    decreases moves
  {
    if moves == [] then scores else MovedAll(Moved(scores, moves[0].peer, moves[0].delta), moves[1..])
  }

  // The deltas of one peer, in order.
  function DeltasOf(moves: seq<Move>, peer: string): seq<real> {
    if moves == [] then []
    else (if moves[0].peer == peer then [moves[0].delta] else []) + DeltasOf(moves[1..], peer)
  }

  // min(high, max(low, x + shift))
  datatype Shift = Shift(low: real, high: real, shift: real) {
    function At(x: real): real {
      var y := if x + shift < low then low else x + shift;
      if y > high then high else y
    }

    predicate Valid() {
      0.0 <= low <= high <= 1.0
    }
  }

  function NormalForm(deltas: seq<real>): Shift {
    if deltas == [] then Shift(FLOOR, CEIL, 0.0)
    else
      var n := |deltas| - 1;
      var f := NormalForm(deltas[..n]);
      Shift(Clamp(f.low + deltas[n]), Clamp(f.high + deltas[n]), f.shift + deltas[n])
  }

  function ClampedSum(x: real, deltas: seq<real>): real
    decreases deltas
  {
    if deltas == [] then x else ClampedSum(Clamp(x + deltas[0]), deltas[1..])
  }

  lemma {:induction false} ClampedSumSnoc(x: real, deltas: seq<real>, d: real)
    ensures ClampedSum(x, deltas + [d]) == Clamp(ClampedSum(x, deltas) + d)
    decreases deltas
  {
    if deltas == [] {
      assert [d][1..] == [];
    } else {
      assert (deltas + [d])[1..] == deltas[1..] + [d];
      ClampedSumSnoc(Clamp(x + deltas[0]), deltas[1..], d);
    }
  }

  // Any sequence of adjustments of one peer acts on its score as one clamped shift.
  lemma {:induction false} ActsAsOneShift(x: real, deltas: seq<real>)
    requires FLOOR <= x <= CEIL
    ensures NormalForm(deltas).Valid()
    ensures ClampedSum(x, deltas) == NormalForm(deltas).At(x)
  {
    if deltas == [] {
    } else {
      var n := |deltas| - 1;
      ActsAsOneShift(x, deltas[..n]);
      ClampedSumSnoc(x, deltas[..n], deltas[n]);
      assert deltas[..n] + [deltas[n]] == deltas;
    }
  }

  // A peer's score after any history depends on its own adjustments only.
  lemma {:induction false} ScoreIsOwnHistory(scores: Scores, moves: seq<Move>, peer: string)
    ensures ScoreOf(MovedAll(scores, moves), peer) == ClampedSum(ScoreOf(scores, peer), DeltasOf(moves, peer))
    decreases moves
  {
    if moves == [] {
    } else {
      var next := Moved(scores, moves[0].peer, moves[0].delta);
      ScoreIsOwnHistory(next, moves[1..], peer);
      var rest := DeltasOf(moves[1..], peer);
      assert ([moves[0].delta] + rest)[1..] == rest;
      assert [] + rest == rest;
    }
  }

  // Whatever the tracker held within range, the history of a peer takes its score through its
  // normal form, and every score stays within range.
  lemma {:induction false} HistoryIsOneShift(scores: Scores, moves: seq<Move>, peer: string)
    requires InRange(scores)
    ensures ScoreOf(MovedAll(scores, moves), peer) == NormalForm(DeltasOf(moves, peer)).At(ScoreOf(scores, peer))
    ensures 0.0 <= ScoreOf(MovedAll(scores, moves), peer) <= 1.0
  {
    ScoreIsOwnHistory(scores, moves, peer);
    ActsAsOneShift(ScoreOf(scores, peer), DeltasOf(moves, peer));
  }

  // Two histories that give every peer the same adjustments in the same order cannot be told
  // apart: adjustments to different peers commute.
  lemma {:induction false} InterleavingIrrelevant(scores: Scores, ms: seq<Move>, ns: seq<Move>, peer: string)
    requires DeltasOf(ms, peer) == DeltasOf(ns, peer)
    ensures ScoreOf(MovedAll(scores, ms), peer) == ScoreOf(MovedAll(scores, ns), peer)
  {
    ScoreIsOwnHistory(scores, ms, peer);
    ScoreIsOwnHistory(scores, ns, peer);
  }

  lemma {:induction false} MovedAllAppend(scores: Scores, ms: seq<Move>, ns: seq<Move>)
    ensures MovedAll(scores, ms + ns) == MovedAll(MovedAll(scores, ms), ns)
    decreases ms
  {
    if ms == [] {
      assert ms + ns == ns;
    } else {
      assert (ms + ns)[1..] == ms[1..] + ns;
      MovedAllAppend(Moved(scores, ms[0].peer, ms[0].delta), ms[1..], ns);
    }
  }

  /// Scores in numbers

  function Sum(deltas: seq<real>): real {
    if deltas == [] then 0.0 else Sum(deltas[..|deltas| - 1]) + deltas[|deltas| - 1]
  }

  lemma {:induction false} PenaltiesAdd(x: real, deltas: seq<real>)
    requires 0.0 <= x <= 1.0 && forall d :: d in deltas ==> d <= 0.0
    ensures ClampedSum(x, deltas) == if x + Sum(deltas) < 0.0 then 0.0 else x + Sum(deltas)
    ensures Sum(deltas) <= 0.0
  {
    if deltas == [] {
    } else {
      var n := |deltas| - 1;
      assert deltas[n] in deltas && forall d :: d in deltas[..n] ==> d in deltas;
      PenaltiesAdd(x, deltas[..n]);
      ClampedSumSnoc(x, deltas[..n], deltas[n]);
      assert deltas[..n] + [deltas[n]] == deltas;
    }
  }

  lemma {:induction false} RewardsAdd(x: real, deltas: seq<real>)
    requires 0.0 <= x <= 1.0 && forall d :: d in deltas ==> d >= 0.0
    ensures ClampedSum(x, deltas) == if x + Sum(deltas) > 1.0 then 1.0 else x + Sum(deltas)
    ensures Sum(deltas) >= 0.0
  {
    if deltas == [] {
    } else {
      var n := |deltas| - 1;
      assert deltas[n] in deltas && forall d :: d in deltas[..n] ==> d in deltas;
      RewardsAdd(x, deltas[..n]);
      ClampedSumSnoc(x, deltas[..n], deltas[n]);
      assert deltas[..n] + [deltas[n]] == deltas;
    }
  }

  // A peer starts at 1 and loses what it is penalized, down to 0, whatever happens to other peers in
  // between; rewards then add up, to 1 at most.
  lemma {:induction false} ScoreInNumbers(moves: seq<Move>, more: seq<Move>, peer: string)
    requires forall d :: d in DeltasOf(moves, peer) ==> d <= 0.0
    requires forall d :: d in DeltasOf(more, peer) ==> d >= 0.0
    ensures var lost, won := Sum(DeltasOf(moves, peer)), Sum(DeltasOf(more, peer));
            var low := if 1.0 + lost < 0.0 then 0.0 else 1.0 + lost;
            && ScoreOf(MovedAll(map[], moves), peer) == low
            && ScoreOf(MovedAll(map[], moves + more), peer) == if low + won > 1.0 then 1.0 else low + won
  {
    var mid := MovedAll(map[], moves);
    ScoreIsOwnHistory(map[], moves, peer);
    PenaltiesAdd(1.0, DeltasOf(moves, peer));
    MovedAllAppend(map[], moves, more);
    ScoreIsOwnHistory(mid, more, peer);
    RewardsAdd(ScoreOf(mid, peer), DeltasOf(more, peer));
  }
}
