/** The load generator: a pool of payloads, 7 trades to 3 logs, sent round-robin by each connection. */
module Stress {
  import opened Wrappers
  import opened Decimal
  import opened Division

  /** What is random in a payload (symbol, price, message, ...) is left out. */
  datatype Payload = Payload(id: string, trade: bool)

  function Built(i: nat): Payload
  {
    if i % 10 < 7 then Payload("stress-" + PrintNat(i), true) else Payload("stress-log-" + PrintNat(i), false)
  }

  method GeneratePayloads(n: nat) returns (payloads: array<Payload>)
    ensures payloads.Length == n && fresh(payloads)
    ensures forall i | 0 <= i < n :: payloads[i] == Built(i)
    ensures forall i | 0 <= i < n ::
              && (payloads[i].trade <==> i % 10 < 7)
              && payloads[i].id == (if i % 10 < 7 then "stress-" else "stress-log-") + PrintNat(i)
  {
    payloads := new Payload[n](_ => Payload("", false));
    for i := 0 to n
      invariant forall j | 0 <= j < i :: payloads[j] == Built(j)
    {
      if i % 10 < 7 {
        payloads[i] := Payload("stress-" + PrintNat(i), true);
      } else {
        payloads[i] := Payload("stress-log-" + PrintNat(i), false);
      }
    }
  }

  /** The shared counters of a run. */
  class Results {
    var sent: nat
    var errors: nat

    constructor ()
      ensures sent == 0 && errors == 0
    {
      sent, errors := 0, 0;
    }
  }

  /** The number of writes before the first that fails. */
  function FirstFailure(ticks: seq<bool>): (k: nat)
    ensures k <= |ticks| && (forall i | 0 <= i < k :: ticks[i]) && (k < |ticks| ==> !ticks[k])
  {
    if ticks == [] || !ticks[0] then 0 else 1 + FirstFailure(ticks[1..])
  }

  /**
   One connection's sends in a phase: one per tick, until the deadline (the end of the ticks) or the first
   failed write.  `log` is what went out, in order.
   */
  method Sender(payloads: seq<Payload>, ticks: seq<bool>, res: Results) returns (ghost log: seq<Payload>, attempts: nat)
    requires payloads != []
    modifies res
    ensures |log| == FirstFailure(ticks)
    ensures forall i | 0 <= i < |log| :: log[i] == payloads[i % |payloads|]
    ensures res.sent == old(res.sent) + FirstFailure(ticks)
    ensures res.errors == old(res.errors) + if FirstFailure(ticks) < |ticks| then 1 else 0
    ensures attempts == FirstFailure(ticks) + res.errors - old(res.errors)
  {
    log := [];
    var i := 0;
    while i < |ticks|
      invariant 0 <= i <= |ticks| && |log| == i
      invariant forall j | 0 <= j < i :: ticks[j]
      invariant forall j | 0 <= j < i :: log[j] == payloads[j % |payloads|]
      invariant res.sent == old(res.sent) + i && res.errors == old(res.errors)
    {
      var payload := payloads[i % |payloads|];
      var written := ticks[i];
      i := i + 1;
      if !written {
        res.errors := res.errors + 1;
        return log, i;
      }
      res.sent := res.sent + 1;
      log := log + [payload];
    }
    attempts := i;
  }

  function TotalSent(scripts: seq<seq<bool>>): nat
  {
    if scripts == [] then 0 else TotalSent(scripts[..|scripts| - 1]) + FirstFailure(scripts[|scripts| - 1])
  }

  function TotalFailed(scripts: seq<seq<bool>>): nat
  {
    if scripts == [] then 0
    else
      var last := scripts[|scripts| - 1];
      TotalFailed(scripts[..|scripts| - 1]) + if FirstFailure(last) < |last| then 1 else 0
  }

  const SECOND: nat := 1_000_000_000

  /** How a phase ends: dividing by the number of connections or making a ticker without an interval panics. */
  datatype PhaseEnd = Done(perConn: nat) | DivideByZero | NoInterval

  /** A phase: one sender per connection.  The senders share only the two counters, to which all of them add. */
  method RunPhase(payloads: seq<Payload>, scripts: seq<seq<bool>>, rate: int, res: Results)
    returns (end: PhaseEnd, ghost logs: seq<seq<Payload>>)
    requires payloads != []
    modifies res
    ensures end.DivideByZero? <==> scripts == []
    ensures end.NoInterval? <==> scripts != [] && rate >= |scripts| * 1_000_000_001
    ensures !end.Done? ==> logs == [] && res.sent == old(res.sent) && res.errors == old(res.errors)
    ensures end.Done? ==>
              && 1 <= end.perConn <= 1_000_000_000
              && (rate >= |scripts| ==> |scripts| * end.perConn <= rate < |scripts| * (end.perConn + 1))
              && (rate < |scripts| ==> end.perConn == 1)
    ensures end.Done? ==>
              && |logs| == |scripts|
              && (forall c | 0 <= c < |scripts| :: |logs[c]| == FirstFailure(scripts[c]))
              && (forall c, i | 0 <= c < |scripts| && 0 <= i < |logs[c]| :: logs[c][i] == payloads[i % |payloads|])
              && res.sent == old(res.sent) + TotalSent(scripts) && res.errors == old(res.errors) + TotalFailed(scripts)
  {
    logs := [];
    if scripts == [] {
      return DivideByZero, logs;
    }
    var perConn := rate / |scripts|;
    ShareBounds(rate, |scripts|, SECOND + 1);
    if perConn < 1 {
      perConn := 1;
    }
    if SECOND / perConn == 0 {
      return NoInterval, logs;
    }
    logs := Senders(payloads, scripts, res);
    end := Done(perConn);
  }

  /** Rounding a rate down to a whole share for each of n connections. */
  lemma ShareBounds(rate: int, n: nat, k: nat)
    requires n > 0
    ensures n * (rate / n) <= rate < n * (rate / n + 1)
    ensures rate / n >= k <==> rate >= n * k
  {
    var q := rate / n;
    assert rate == q * n + rate % n;
    assert n * (q + 1) == n * q + n;
    if q >= k {
      assert n * q == n * k + n * (q - k);
      NonNegative(n, q - k);
    } else {
      assert n * k == n * (q + 1) + n * (k - q - 1);
      NonNegative(n, k - q - 1);
    }
  }

  lemma NonNegative(n: nat, k: nat)
    ensures n * k >= 0
  {
  }

  method Senders(payloads: seq<Payload>, scripts: seq<seq<bool>>, res: Results) returns (ghost logs: seq<seq<Payload>>)
    requires payloads != []
    modifies res
    ensures |logs| == |scripts|
    ensures forall c | 0 <= c < |scripts| :: |logs[c]| == FirstFailure(scripts[c])
    ensures forall c, i | 0 <= c < |scripts| && 0 <= i < |logs[c]| :: logs[c][i] == payloads[i % |payloads|]
    ensures res.sent == old(res.sent) + TotalSent(scripts) && res.errors == old(res.errors) + TotalFailed(scripts)
  {
    logs := [];
    for c := 0 to |scripts|
      invariant |logs| == c
      invariant forall d | 0 <= d < c :: |logs[d]| == FirstFailure(scripts[d])
      invariant forall d, i | 0 <= d < c && 0 <= i < |logs[d]| :: logs[d][i] == payloads[i % |payloads|]
      invariant res.sent == old(res.sent) + TotalSent(scripts[..c])
      invariant res.errors == old(res.errors) + TotalFailed(scripts[..c])
    {
      ghost var log;
      var attempts;
      log, attempts := Sender(payloads, scripts[c], res);
      logs := logs + [log];
      assert scripts[..c + 1][..c] == scripts[..c];
    }
    assert scripts[..|scripts|] == scripts;
  }

  // ------------------------------------------------------------- closed forms

  /** What a sender's log looks like over a pool of generated payloads. */
  predicate IsLog(log: seq<Payload>, pool: nat)
    requires pool > 0
  {
    forall i | 0 <= i < |log| :: log[i] == Built(i % pool)
  }

  function Trades(log: seq<Payload>): nat
  {
    if log == [] then 0 else Trades(log[..|log| - 1]) + if log[|log| - 1].trade then 1 else 0
  }

  function Min(a: nat, b: nat): nat
  {
    if a < b then a else b
  }

  lemma ModOfMod(k: nat, m: nat)
    requires m > 0
    ensures k % (10 * m) % 10 == k % 10
  {
    var q, r := k / (10 * m), k % (10 * m);
    assert k == q * (10 * m) + r;
    assert q * (10 * m) == 10 * (q * m);
    DivUnique(k, 10, q * m + r / 10, r % 10);
  }

  /**
   The mix.  When the pool size is a multiple of 10, a sender's first k sends contain exactly 7 trades for every
   full ten, and the first seven of the rest.
   */
  lemma {:induction false} MixClosedForm(log: seq<Payload>, tens: nat)
    requires tens > 0 && IsLog(log, 10 * tens)
    ensures Trades(log) == 7 * (|log| / 10) + Min(7, |log| % 10)
  {
    if log != [] {
      var k := |log| - 1;
      MixClosedForm(log[..k], tens);
      ModOfMod(k, tens);
      DivSucc(k, 10);
    }
  }

  lemma BuiltInjective(i: nat, j: nat)
    ensures Built(i) == Built(j) ==> i == j
  {
    ParsePrintNat(i);
    ParsePrintNat(j);
    var n := if i % 10 < 7 then 7 else 11;
    var m := if j % 10 < 7 then 7 else 11;
    assert Built(i).id[n..] == PrintNat(i) && Built(j).id[m..] == PrintNat(j);
  }

  /** Round robin: of k sends, payload j got floor(k / pool), and one more if the last lap passed it. */
  lemma {:induction false} RoundRobin(log: seq<Payload>, pool: nat, j: nat)
    requires j < pool && IsLog(log, pool)
    ensures multiset(log)[Built(j)] == |log| / pool + if j < |log| % pool then 1 else 0
  {
    if log == [] {
      DivUnique(0, pool, 0, 0);
    } else {
      var k := |log| - 1;
      RoundRobin(log[..k], pool, j);
      DivSucc(k, pool);
      BuiltInjective(k % pool, j);
      assert log == log[..k] + [log[k]];
    }
  }
}
