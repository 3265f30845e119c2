/** What a provider publishes about itself, and the credit ledger. */
module Accounting {
  import opened Mesh

  datatype Stats = Stats(doc: Capability, latencyEMA: real, successes: int, failures: int) {

    function Total(): int {
      successes + failures
    }

    // Once an outcome is recorded the published reliability is the share of successes.
    predicate Honest() {
      && 0 <= successes && 0 <= failures
      && (Total() > 0 ==> doc.reliability == successes as real / Total() as real)
    }
  }

  // Conversion of a float to an integer drops the fraction.
  function Truncate(x: real): int {
    if 0.0 <= x then x.Floor else -((-x).Floor)
  }

  function WithDepth(s: Stats, depth: int, now: real): Stats {
    s.(doc := s.doc.(queueDepth := depth, updatedAt := now))
  }

  function WithLatency(s: Stats, millis: int, now: real): Stats {
    var ms := if millis <= 0 then 1.0 else millis as real;
    var ema := 0.3 * ms + (1.0 - 0.3) * s.latencyEMA;
    s.(latencyEMA := ema, doc := s.doc.(avgLatencyMS := Truncate(ema), updatedAt := now))
  }

  function WithOutcome(s: Stats, success: bool, now: real): Stats {
    var t := if success then s.(successes := s.successes + 1) else s.(failures := s.failures + 1);
    var reliability := if t.Total() == 0 then 1.0 else t.successes as real / t.Total() as real;
    t.(doc := t.doc.(reliability := reliability, updatedAt := now))
  }

  lemma {:induction false} ShareInRange(part: int, whole: int)
    requires 0 <= part <= whole && 0 < whole
    ensures 0.0 <= part as real / whole as real <= 1.0
  {
    var share, w := part as real / whole as real, whole as real;
    assert share * w == part as real;
    assert share < 0.0 ==> share * w < 0.0;
    assert share > 1.0 ==> (share - 1.0) * w > 0.0;
  }

  lemma {:induction false} OutcomeKeepsHonest(s: Stats, success: bool, now: real)
    requires s.Honest()
    ensures WithOutcome(s, success, now).Honest()
    ensures 0.0 <= WithOutcome(s, success, now).doc.reliability <= 1.0
  {
    var t := WithOutcome(s, success, now);
    ShareInRange(t.successes, t.Total());
  }

  // Each sample takes the average three tenths of the way to it, and the published latency is the
  // average without its fraction. (A sample below one millisecond counts as one.)
  lemma {:induction false} LatencyApproachesSample(s: Stats, millis: int, now: real)
    requires 0.0 <= s.latencyEMA
    ensures var sample := if millis < 1 then 1.0 else millis as real;
            var t := WithLatency(s, millis, now);
            && sample - t.latencyEMA == 0.7 * (sample - s.latencyEMA)
            && (s.latencyEMA <= t.latencyEMA <= sample || sample <= t.latencyEMA <= s.latencyEMA)
            && t.doc.avgLatencyMS as real <= t.latencyEMA < t.doc.avgLatencyMS as real + 1.0
            && t.doc == s.doc.(avgLatencyMS := t.doc.avgLatencyMS, updatedAt := now)
            && t.successes == s.successes && t.failures == s.failures
  {
    assert WithLatency(s, millis, now).latencyEMA >= 0.0;
  }

  class CapabilityState {
    var doc: Capability
    var latencyEMA: real
    var successes: int
    var failures: int

    function Contents(): Stats
      reads this
    {
      Stats(doc, latencyEMA, successes, failures)
    }

    constructor (initial: Capability, now: real)
      ensures Contents().Honest() && Contents().Total() == 0
      ensures doc == initial.(
        reliability := if initial.reliability == 0.0 then 1.0 else initial.reliability,
        updatedAt := if initial.updatedAt == UNSTAMPED then now else initial.updatedAt,
        avgLatencyMS := if initial.avgLatencyMS == 0 then 50 else initial.avgLatencyMS)
      ensures latencyEMA == doc.avgLatencyMS as real
    {
      var d := initial;
      if d.reliability == 0.0 {
        d := d.(reliability := 1.0);
      }
      if d.updatedAt == UNSTAMPED {
        d := d.(updatedAt := now);
      }
      if d.avgLatencyMS == 0 {
        d := d.(avgLatencyMS := 50);
      }
      doc := d;
      latencyEMA := d.avgLatencyMS as real;
      successes := 0;
      failures := 0;
    }

    method SetQueueDepth(depth: int, now: real)
      modifies this
      ensures Contents() == WithDepth(old(Contents()), depth, now)
      ensures doc == old(doc).(queueDepth := depth, updatedAt := now)
    {
      doc := doc.(queueDepth := depth);
      doc := doc.(updatedAt := now);
    }

    method UpdateLatency(millis: int, now: real)
      modifies this
      ensures Contents() == WithLatency(old(Contents()), millis, now)
    {
      var ms := millis as real;
      if ms <= 0.0 {
        ms := 1.0;
      }
      var alpha := 0.3;
      latencyEMA := alpha * ms + (1.0 - alpha) * latencyEMA;
      doc := doc.(avgLatencyMS := Truncate(latencyEMA));
      doc := doc.(updatedAt := now);
    }

    method RecordOutcome(success: bool, now: real)
      modifies this
      ensures Contents() == WithOutcome(old(Contents()), success, now)
      ensures successes == old(successes) + (if success then 1 else 0)
      ensures failures == old(failures) + (if success then 0 else 1)
    {
      if success {
        successes := successes + 1;
      } else {
        failures := failures + 1;
      }
      var total := successes + failures;
      if total == 0 {
        doc := doc.(reliability := 1.0);
      } else {
        doc := doc.(reliability := successes as real / total as real);
      }
      doc := doc.(updatedAt := now);
    }
  }

  /// Credits

  function Spent(balance: int, v: int): (int, bool) {
    if v <= 0 then (balance, true)
    else if balance < v then (balance, false)
    else (balance - v, true)
  }

  // A positive amount is paid exactly when the balance covers it, down to nothing left; any other
  // amount is free.
  lemma {:induction false} SpentIffCovered(balance: int, v: int)
    ensures Spent(balance, v).1 <==> v <= 0 || v <= balance
    ensures Spent(balance, v).0 == if 0 < v <= balance then balance - v else balance
    ensures 0 < v ==> Spent(v, v) == (0, true)
  {
  }

  function Earned(balance: int, v: int): int {
    if v <= 0 then balance else balance + v
  }

  class CreditLedger {
    var balance: int

    constructor (initial: int)
      ensures balance == initial
    {
      balance := initial;
    }

    method Spend(v: int) returns (ok: bool)
      modifies this
      ensures (balance, ok) == Spent(old(balance), v)
      ensures ok <==> v <= 0 || v <= old(balance)
      ensures balance == old(balance) - (if 0 < v <= old(balance) then v else 0)
      ensures old(balance) >= 0 ==> balance >= 0
    {
      if v <= 0 {
        return true;
      }
      if balance < v {
        return false;
      }
      balance := balance - v;
      return true;
    }

    method Earn(v: int)
      modifies this
      ensures balance == Earned(old(balance), v)
      ensures balance == old(balance) + (if v > 0 then v else 0)
    {
      if v <= 0 {
        return;
      }
      balance := balance + v;
    }
  }
}
