/** The whole feed over its reconnects: which attempts it makes, what they add up to, and how long it waits. */
module FeedRuns {
  import opened Wrappers
  import opened Feed

  /** The counters after one attempt to connect. */
  function AfterAttempt(c: Counts, a: Attempt, interval: int): Counts
  {
    match a
    case DialFails => c
    case Session(items, _) => SessionRun(c, items, interval).0
  }

  /** The attempt is the last: its session ended by cancellation, or the context was cancelled by then. */
  predicate Last(c: Counts, a: Attempt, interval: int)
  {
    a.Session? && (a.last || SessionRun(c, a.items, interval).1)
  }

  /** cs are the counters before, between and after the first n attempts, which are the attempts the feed makes. */
  ghost predicate Trace(cs: seq<Counts>, c: Counts, attempts: seq<Attempt>, interval: int, n: nat)
  {
    && n <= |attempts| && |cs| == n + 1 && cs[0] == c
    && (forall k | 0 <= k < n :: cs[k + 1] == AfterAttempt(cs[k], attempts[k], interval))
    && (forall k | 0 <= k < n :: Last(cs[k], attempts[k], interval) ==> k == n - 1)
    && (n < |attempts| ==> n > 0 && Last(cs[n - 1], attempts[n - 1], interval))
  }

  /** The feed makes attempts in turn until the first that is the last; its counters are those after them. */
  lemma {:induction false} FeedFollows(c: Counts, attempts: seq<Attempt>, interval: int)
    returns (n: nat, cs: seq<Counts>)
    ensures Trace(cs, c, attempts, interval, n) && FeedRun(c, attempts, interval) == cs[n]
    decreases |attempts|
  {
    if attempts == [] {
      n, cs := 0, [c];
    } else {
      var a, c' := attempts[0], AfterAttempt(c, attempts[0], interval);
      if Last(c, a, interval) {
        n, cs := 1, [c, c'];
      } else {
        var n', cs' := FeedFollows(c', attempts[1..], interval);
        n, cs := n' + 1, [c] + cs';
        TraceLonger(cs', c, attempts, interval, n');
      }
    }
  }

  lemma TraceLonger(cs: seq<Counts>, c: Counts, attempts: seq<Attempt>, interval: int, n: nat)
    requires attempts != [] && !Last(c, attempts[0], interval)
    requires Trace(cs, AfterAttempt(c, attempts[0], interval), attempts[1..], interval, n)
    ensures Trace([c] + cs, c, attempts, interval, n + 1)
  {
    var all := [c] + cs;
    forall k | 0 <= k < n + 1
      ensures all[k + 1] == AfterAttempt(all[k], attempts[k], interval)
      ensures Last(all[k], attempts[k], interval) ==> k == n
    {
      if k > 0 {
        assert attempts[k] == attempts[1..][k - 1] && all[k] == cs[k - 1];
      }
    }
  }

  /** No session is cancelled. */
  predicate Undisturbed(attempts: seq<Attempt>)
  {
    forall a <- attempts | a.Session? :: !a.last && Cancelled !in a.items
  }

  lemma UndisturbedGoesOn(c: Counts, a: Attempt, interval: int)
    requires a.Session? ==> !a.last && Cancelled !in a.items
    ensures !Last(c, a, interval)
  {
    if a.Session? {
      var m := SessionStops(c.trades, a.items, interval);
      SessionEnds(c, a.items, interval, m);
    }
  }

  /** The messages an attempt reads, with its session's end at the m-th item. */
  function ReadBy(a: Attempt, m: nat): nat
  {
    if a.Session? then HandledBy(a.items, m) else 0
  }

  function Total(attempts: seq<Attempt>, ends: seq<nat>): nat
    requires |ends| == |attempts|
  {
    if attempts == [] then 0
    else
      var n := |attempts| - 1;
      Total(attempts[..n], ends[..n]) + ReadBy(attempts[n], ends[n])
  }

  /**
   Reconnecting.  If no session is cancelled the feed makes every attempt, and the messages read are those of all
   sessions, each up to its first read error or failed send.
   */
  lemma {:induction false} ReadsEverySession(c: Counts, attempts: seq<Attempt>, interval: int)
    returns (ends: seq<nat>, cs: seq<Counts>)
    requires Undisturbed(attempts)
    ensures Trace(cs, c, attempts, interval, |attempts|) && |ends| == |attempts|
    ensures FeedRun(c, attempts, interval) == cs[|attempts|]
    ensures forall k | 0 <= k < |attempts| && attempts[k].Session? ::
              StopsAt(cs[k].trades, attempts[k].items, interval, ends[k])
    ensures cs[|attempts|].read == c.read + Total(attempts, ends)
  {
    var n;
    n, cs := FeedFollows(c, attempts, interval);
    if n > 0 {
      assert attempts[n - 1] in attempts;
      UndisturbedGoesOn(cs[n - 1], attempts[n - 1], interval);
    }
    ends := EndsOf(cs, c, attempts, interval, |attempts|);
    assert attempts[..|attempts|] == attempts;
  }

  lemma {:induction false} EndsOf(cs: seq<Counts>, c: Counts, attempts: seq<Attempt>, interval: int, n: nat)
    returns (ends: seq<nat>)
    requires Trace(cs, c, attempts, interval, |attempts|) && n <= |attempts|
    ensures |ends| == n && cs[n].read == c.read + Total(attempts[..n], ends)
    ensures forall k | 0 <= k < n && attempts[k].Session? ::
              StopsAt(cs[k].trades, attempts[k].items, interval, ends[k])
  {
    if n == 0 {
      ends := [];
    } else {
      var front := EndsOf(cs, c, attempts, interval, n - 1);
      var a, m := attempts[n - 1], 0;
      assert cs[n - 1 + 1] == AfterAttempt(cs[n - 1], a, interval);
      if a.Session? {
        m := SessionStops(cs[n - 1].trades, a.items, interval);
        SessionEnds(cs[n - 1], a.items, interval, m);
      }
      ends := front + [m];
      assert attempts[..n][..n - 1] == attempts[..n - 1] && ends[..n - 1] == front;
    }
  }

  // ------------------------------------------------------------------ waits

  /** The last successful dial among the first i + 1 attempts is the j-th. */
  predicate LastDial(attempts: seq<Attempt>, i: nat, j: nat)
  {
    && j <= i < |attempts| && attempts[j].Session?
    && forall l | j < l <= i :: attempts[l].DialFails?
  }

  /** The wait after the i-th attempt: counted from the last successful dial, or from the start if there was none. */
  ghost predicate WaitIs(wait: nat, attempts: seq<Attempt>, i: nat, k: nat)
  {
    && i < |attempts|
    && (forall j: nat | LastDial(attempts, i, j) :: wait == Backoff(i - j))
    && ((forall l | 0 <= l <= i :: attempts[l].DialFails?) ==> wait == Backoff(k + i))
  }

  /**
   Back-off.  The feed waits after every attempt it makes but the last; the wait is min(2^r, 30) seconds for the r-th
   since the last successful dial, or since the start.
   */
  lemma {:induction false} WaitsAre(c: Counts, attempts: seq<Attempt>, interval: int, k: nat, n: nat, cs: seq<Counts>)
    requires Trace(cs, c, attempts, interval, n)
    ensures var waits := Waits(c, attempts, interval, k);
            && |waits| == (if n > 0 && Last(cs[n - 1], attempts[n - 1], interval) then n - 1 else n)
            && forall i | 0 <= i < |waits| :: WaitIs(waits[i], attempts, i, k)
    decreases |attempts|
  {
    if attempts != [] {
      assert cs[0 + 1] == AfterAttempt(cs[0], attempts[0], interval);
      if !Last(c, attempts[0], interval) {
        var a, c' := attempts[0], cs[1];
        var k' := if a.Session? then 1 else k + 1;
        TraceShorter(cs, c, attempts, interval, n);
        WaitsAre(c', attempts[1..], interval, k', n - 1, cs[1..]);
        var rest := Waits(c', attempts[1..], interval, k');
        var first := if a.Session? then Backoff(0) else Backoff(k);
        assert Waits(c, attempts, interval, k) == [first] + rest;
        forall i | 0 <= i < |rest| + 1 ensures WaitIs(([first] + rest)[i], attempts, i, k) {
          WaitShift(attempts, rest, i, k);
        }
      }
    }
  }

  lemma TraceShorter(cs: seq<Counts>, c: Counts, attempts: seq<Attempt>, interval: int, n: nat)
    requires Trace(cs, c, attempts, interval, n) && attempts != [] && !Last(c, attempts[0], interval)
    ensures n > 0 && Trace(cs[1..], AfterAttempt(c, attempts[0], interval), attempts[1..], interval, n - 1)
  {
    forall k | 0 <= k < n - 1
      ensures cs[1..][k + 1] == AfterAttempt(cs[1..][k], attempts[1..][k], interval)
      ensures Last(cs[1..][k], attempts[1..][k], interval) ==> k == n - 2
    {
      assert cs[k + 1 + 1] == AfterAttempt(cs[k + 1], attempts[k + 1], interval);
    }
  }

  lemma WaitShift(attempts: seq<Attempt>, rest: seq<nat>, i: nat, k: nat)
    requires attempts != [] && i <= |rest| < |attempts|
    requires forall j | 0 <= j < |rest| ::
               WaitIs(rest[j], attempts[1..], j, if attempts[0].Session? then 1 else k + 1)
    ensures var first := if attempts[0].Session? then Backoff(0) else Backoff(k);
            WaitIs(([first] + rest)[i], attempts, i, k)
  {
    if i > 0 {
      var tail := attempts[1..];
      assert WaitIs(rest[i - 1], tail, i - 1, if attempts[0].Session? then 1 else k + 1);
      forall j: nat | LastDial(attempts, i, j) ensures rest[i - 1] == Backoff(i - j) {
        if j > 0 {
          assert LastDial(tail, i - 1, j - 1);
        } else {
          assert forall l | 0 <= l <= i - 1 :: tail[l].DialFails?;
        }
      }
      if forall l | 0 <= l <= i :: attempts[l].DialFails? {
        assert attempts[0].DialFails?;
        assert forall l | 0 <= l <= i - 1 :: tail[l].DialFails?;
      }
    }
  }
}
