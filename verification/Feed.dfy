/**
 The market-data feed: dial, read messages, forward trades and every L-th trade
 a log event, reconnect with back-off.

 The environment is a script: each dial fails or opens a session, each session is
 a list of messages with the fate of their sends, ended by a read error or by
 cancellation.
 */
module Feed {
  import opened Wrappers
  import opened Decimal
  import opened Division

  /** What parsing a message yields: one of the four failures, or a trade. */
  datatype Parsed = BadEnvelope | BadTrade | BadPrice | BadQuantity | Trade(symbol: string)

  datatype Item =
    | Message(parsed: Parsed, tradeSent: bool, logSent: bool)
    | ReadError
    | Cancelled

  /** `last`: the context was cancelled by the time the session ended. */
  datatype Attempt = DialFails | Session(items: seq<Item>, last: bool)

  /** The events the feed builds, by the number in their id. */
  datatype EventId = TradeId(n: nat) | LogId(n: nat)

  function Text(id: EventId): string
  {
    match id
    case TradeId(n) => "feed-" + PrintNat(n)
    case LogId(n) => "feed-log-" + PrintNat(n)
  }

  /** Counters, and the histories behind them: messages read, log sends attempted, events built. */
  datatype Counts = Counts(forwarded: nat, errors: nat, trades: nat, read: nat, logSends: nat, built: seq<EventId>)

  const ZERO := Counts(0, 0, 0, 0, 0, [])

  // ------------------------------------------------------------ specification

  predicate LogDue(trades: nat, interval: int)
  {
    interval > 0 && trades % interval == 0
  }

  /** One message: the counters after it, and whether a failed send ends the session. */
  function Handled(c: Counts, m: Item, interval: int): (Counts, bool)
    requires m.Message?
  {
    var c1 := c.(read := c.read + 1);
    if !m.parsed.Trade? then (c1.(errors := c1.errors + 1), false)
    else
      var n := c.trades + 1;
      var c2 := c1.(trades := n, built := c1.built + [TradeId(n)]);
      if !m.tradeSent then (c2.(errors := c2.errors + 1), true)
      else
        var c3 := c2.(forwarded := c2.forwarded + 1);
        if !LogDue(n, interval) then (c3, false)
        else
          var c4 := c3.(logSends := c3.logSends + 1, built := c3.built + [LogId(n)]);
          if m.logSent then (c4.(forwarded := c4.forwarded + 1), false) else (c4.(errors := c4.errors + 1), true)
  }

  /** A session: the counters after it, and whether it ended because the context was cancelled. */
  function SessionRun(c: Counts, items: seq<Item>, interval: int): (Counts, bool)
    decreases |items|
  {
    if items == [] || items[0].ReadError? then (c, false)
    else if items[0].Cancelled? then (c, true)
    else
      var (c', stop) := Handled(c, items[0], interval);
      if stop then (c', false) else SessionRun(c', items[1..], interval)
  }

  /** The whole feed, over any number of reconnects. */
  function FeedRun(c: Counts, attempts: seq<Attempt>, interval: int): Counts
    decreases |attempts|
  {
    if attempts == [] then c
    else
      match attempts[0]
      case DialFails => FeedRun(c, attempts[1..], interval)
      case Session(items, last) =>
        var (c', cancelled) := SessionRun(c, items, interval);
        if cancelled || last then c' else FeedRun(c', attempts[1..], interval)
  }

  function Pow2(k: nat): nat
  {
    if k == 0 then 1 else 2 * Pow2(k - 1)
  }

  const MAX_BACKOFF := 30

  /** The wait before the k-th retry, in seconds. */
  function Backoff(k: nat): nat
  {
    if Pow2(k) <= MAX_BACKOFF then Pow2(k) else MAX_BACKOFF
  }

  /** The waits of a run, when k of them have passed since the start or the last successful dial. */
  function Waits(c: Counts, attempts: seq<Attempt>, interval: int, k: nat): seq<nat>
    decreases |attempts|
  {
    if attempts == [] then []
    else
      match attempts[0]
      case DialFails => [Backoff(k)] + Waits(c, attempts[1..], interval, k + 1)
      case Session(items, last) =>
        var (c', cancelled) := SessionRun(c, items, interval);
        if cancelled || last then [] else [Backoff(0)] + Waits(c', attempts[1..], interval, 1)
  }

  // ------------------------------------------------ where a session ends

  function TradesIn(items: seq<Item>): nat
  {
    if items == [] then 0
    else (if items[0].Message? && items[0].parsed.Trade? then 1 else 0) + TradesIn(items[1..])
  }

  /** The i-th item is a trade whose event, or the log event due after it, cannot be sent. */
  predicate SendFails(trades: nat, items: seq<Item>, interval: int, i: nat)
    requires i < |items|
  {
    var n := trades + TradesIn(items[..i + 1]);
    && items[i].Message? && items[i].parsed.Trade?
    && (!items[i].tradeSent || (interval > 0 && n % interval == 0 && !items[i].logSent))
  }

  /** The session goes on after the i-th item: a message, parsable or not, with no failed send. */
  predicate GoesOn(trades: nat, items: seq<Item>, interval: int, i: nat)
    requires i < |items|
  {
    items[i].Message? && !SendFails(trades, items, interval, i)
  }

  /** The session goes on up to the m-th item, and not after it. */
  ghost predicate StopsAt(trades: nat, items: seq<Item>, interval: int, m: nat)
  {
    && m <= |items| && (forall i | 0 <= i < m :: GoesOn(trades, items, interval, i))
    && (m < |items| ==> !GoesOn(trades, items, interval, m))
  }

  lemma TradesShift(items: seq<Item>, i: nat)
    requires items != [] && i < |items|
    ensures TradesIn(items[..i + 1]) ==
            (if items[0].Message? && items[0].parsed.Trade? then 1 else 0) + TradesIn(items[1..][..i])
  {
    assert items[..i + 1][0] == items[0] && items[..i + 1][1..] == items[1..][..i];
  }

  /** Past a first message that does not end the session, the rest ends one item earlier. */
  lemma StopsShift(c: Counts, items: seq<Item>, interval: int, m: nat)
    requires items != [] && items[0].Message? && StopsAt(c.trades, items, interval, m)
    ensures Handled(c, items[0], interval).1 <==> SendFails(c.trades, items, interval, 0)
    ensures !Handled(c, items[0], interval).1 ==>
              m > 0 && StopsAt(Handled(c, items[0], interval).0.trades, items[1..], interval, m - 1)
  {
    var c' := Handled(c, items[0], interval).0;
    TradesShift(items, 0);
    assert TradesIn(items[1..][..0]) == 0;
    forall i | 0 <= i < |items| - 1
      ensures GoesOn(c.trades, items, interval, i + 1) <==> GoesOn(c'.trades, items[1..], interval, i)
    {
      TradesShift(items, i + 1);
      assert items[1..][..i + 1] == items[1..][..i + 1];
    }
    forall i | 0 <= i < m - 1 ensures GoesOn(c'.trades, items[1..], interval, i) {
      assert GoesOn(c.trades, items, interval, i + 1);
    }
  }

  /** The messages handled: those before the end, and the one whose send failed, if that is the end. */
  function HandledBy(items: seq<Item>, m: nat): nat
  {
    if m < |items| && items[m].Message? then m + 1 else m
  }

  /**
   A session in closed form.  With its end at the m-th item: it counts as cancelled exactly if that is the cancellation;
   every message before it was read, and every one was a trade or an error; the counter went up by the trades;
   and a failed send is one more error.
   */
  lemma {:induction false} SessionEnds(c: Counts, items: seq<Item>, interval: int, m: nat)
    requires StopsAt(c.trades, items, interval, m)
    ensures var (c', cancelled) := SessionRun(c, items, interval);
            var h := HandledBy(items, m);
            && h <= |items|
            && (cancelled <==> m < |items| && items[m].Cancelled?)
            && c'.read == c.read + h
            && c'.trades == c.trades + TradesIn(items[..h])
            && c'.errors == c.errors + h - TradesIn(items[..h]) + (h - m)
    decreases |items|
  {
    if items != [] && items[0].Message? {
      var (c1, stop) := Handled(c, items[0], interval);
      StopsShift(c, items, interval, m);
      TradesShift(items, 0);
      assert TradesIn(items[1..][..0]) == 0;
      if stop {
        assert !GoesOn(c.trades, items, interval, 0);
      } else {
        SessionEnds(c1, items[1..], interval, m - 1);
        var h := HandledBy(items, m);
        assert h == HandledBy(items[1..], m - 1) + 1;
        TradesShift(items, h - 1);
      }
    } else if items != [] {
      assert !GoesOn(c.trades, items, interval, 0);
    }
  }

  /** Log events: one after every interval-th trade that was sent. */
  lemma {:induction false} SessionLogs(c: Counts, items: seq<Item>, interval: int, m: nat)
    requires StopsAt(c.trades, items, interval, m) && interval > 0
    ensures var c' := SessionRun(c, items, interval).0;
            c'.logSends == c.logSends + c'.trades / interval - c.trades / interval
                           - (if m < |items| && items[m].Message? && !items[m].tradeSent && c'.trades % interval == 0
                              then 1 else 0)
    decreases |items|
  {
    if items != [] && items[0].Message? {
      StopsShift(c, items, interval, m);
      DivSucc(c.trades, interval);
      if !Handled(c, items[0], interval).1 {
        SessionLogs(Handled(c, items[0], interval).0, items[1..], interval, m - 1);
      } else {
        assert !GoesOn(c.trades, items, interval, 0);
      }
    } else if items != [] {
      assert !GoesOn(c.trades, items, interval, 0);
    }
  }

  /** Every session ends somewhere. */
  lemma SessionStops(trades: nat, items: seq<Item>, interval: int) returns (m: nat)
    ensures StopsAt(trades, items, interval, m)
  {
    m := 0;
    while m < |items| && GoesOn(trades, items, interval, m)
      invariant m <= |items| && forall i | 0 <= i < m :: GoesOn(trades, items, interval, i)
    {
      m := m + 1;
    }
  }

  /** The session ends at a cancellation: every item before it is a message with no failed send. */
  ghost predicate EndsCancelled(trades: nat, items: seq<Item>, interval: int)
  {
    exists m: nat :: m < |items| && items[m].Cancelled? && forall i | 0 <= i < m :: GoesOn(trades, items, interval, i)
  }

  /** Only then does it count as cancelled: a read error or a failed send leads to another attempt. */
  lemma CancelledIff(c: Counts, items: seq<Item>, interval: int)
    ensures SessionRun(c, items, interval).1 <==> EndsCancelled(c.trades, items, interval)
  {
    var m := SessionStops(c.trades, items, interval);
    SessionEnds(c, items, interval, m);
    if m': nat :| m' < |items| && items[m'].Cancelled?
                  && forall i | 0 <= i < m' :: GoesOn(c.trades, items, interval, i) {
      assert !GoesOn(c.trades, items, interval, m');
      assert m == m';
    }
  }

  // -------------------------------------------------------------- conservation

  /** Messages read and log sends attempted are all accounted for. */
  predicate Conserved(c: Counts)
  {
    c.read + c.logSends == c.forwarded + c.errors
  }

  lemma {:induction false} SessionConserves(c: Counts, items: seq<Item>, interval: int)
    requires Conserved(c)
    ensures Conserved(SessionRun(c, items, interval).0)
    decreases |items|
  {
    if items != [] && items[0].Message? {
      SessionConserves(Handled(c, items[0], interval).0, items[1..], interval);
    }
  }

  /** Across any number of reconnects, messages read + log sends attempted = forwarded + errors. */
  lemma {:induction false} FeedConserves(c: Counts, attempts: seq<Attempt>, interval: int)
    requires Conserved(c)
    ensures Conserved(FeedRun(c, attempts, interval))
    decreases |attempts|
  {
    if attempts != [] {
      match attempts[0]
      case DialFails => FeedConserves(c, attempts[1..], interval);
      case Session(items, _) =>
        SessionConserves(c, items, interval);
        FeedConserves(SessionRun(c, items, interval).0, attempts[1..], interval);
    }
  }

  // --------------------------------------------------------------- closed form

  predicate NoFailedSend(items: seq<Item>)
  {
    forall m <- items :: m.Message? ==> m.tradeSent && m.logSent
  }

  /** With no failed send, one event per trade and one more per full interval. */
  predicate Regular(c: Counts, interval: int)
    requires interval > 0
  {
    c.forwarded == c.trades + c.trades / interval && c.logSends == c.trades / interval
  }

  lemma {:induction false} SessionRegular(c: Counts, items: seq<Item>, interval: int)
    requires interval > 0 && Regular(c, interval) && NoFailedSend(items)
    ensures Regular(SessionRun(c, items, interval).0, interval)
    decreases |items|
  {
    if items != [] && items[0].Message? {
      DivSucc(c.trades, interval);
      SessionRegular(Handled(c, items[0], interval).0, items[1..], interval);
    }
  }

  /** With no failed send and an interval L > 0: forwarded = trades + floor(trades / L), across reconnects. */
  lemma {:induction false} FeedRegular(c: Counts, attempts: seq<Attempt>, interval: int)
    requires interval > 0 && Regular(c, interval)
    requires forall a <- attempts :: a.Session? ==> NoFailedSend(a.items)
    ensures Regular(FeedRun(c, attempts, interval), interval)
    decreases |attempts|
  {
    if attempts != [] {
      match attempts[0]
      case DialFails => FeedRegular(c, attempts[1..], interval);
      case Session(items, _) =>
        SessionRegular(c, items, interval);
        FeedRegular(SessionRun(c, items, interval).0, attempts[1..], interval);
    }
  }

  // ----------------------------------------------------------------- unique ids

  /** The ids as they are sent: "feed-" or "feed-log-" and the number of the trade. */
  lemma TextIs(n: nat)
    ensures Text(TradeId(n)) == "feed-" + Print(n) && Text(LogId(n)) == "feed-log-" + Print(n)
  {
  }

  /** The events built for the n-th trade, and for all trades after the a-th up to the b-th. */
  function EventsOf(n: nat, interval: int): seq<EventId>
  {
    [TradeId(n)] + if interval > 0 && n % interval == 0 then [LogId(n)] else []
  }

  function EventsUpTo(a: nat, b: nat, interval: int): seq<EventId>
    decreases b
  {
    if a >= b then [] else EventsUpTo(a, b - 1, interval) + EventsOf(b, interval)
  }

  /** With no failed send, the events built are those of the trades in turn, numbered on from the trades before. */
  lemma {:induction false} SessionBuilds(c: Counts, items: seq<Item>, interval: int, from: nat)
    requires NoFailedSend(items) && from <= c.trades && c.built == EventsUpTo(from, c.trades, interval)
    ensures var c' := SessionRun(c, items, interval).0;
            from <= c'.trades && c'.built == EventsUpTo(from, c'.trades, interval)
    decreases |items|
  {
    if items != [] && items[0].Message? {
      var (c1, stop) := Handled(c, items[0], interval);
      assert c.built + [TradeId(c.trades + 1)] + [LogId(c.trades + 1)] ==
             c.built + ([TradeId(c.trades + 1)] + [LogId(c.trades + 1)]);
      assert [TradeId(c.trades + 1)] + [] == [TradeId(c.trades + 1)];
      SessionBuilds(c1, items[1..], interval, from);
    }
  }

  lemma TextInjective(a: EventId, b: EventId)
    ensures Text(a) == Text(b) ==> a == b
  {
    match (a, b)
    case (TradeId(m), TradeId(n)) =>
      assert Text(a)[5..] == PrintNat(m) && Text(b)[5..] == PrintNat(n);
      ParsePrintNat(m);
      ParsePrintNat(n);
    case (LogId(m), LogId(n)) =>
      assert Text(a)[9..] == PrintNat(m) && Text(b)[9..] == PrintNat(n);
      ParsePrintNat(m);
      ParsePrintNat(n);
    case (TradeId(m), LogId(n)) => assert Text(a)[5] == PrintNat(m)[0] && Text(b)[5] == 'l';
    case (LogId(m), TradeId(n)) => assert Text(b)[5] == PrintNat(n)[0] && Text(a)[5] == 'l';
  }

  /** Every event built carries the number of a past trade, and no two are the same. */
  predicate Distinct(c: Counts)
  {
    && (forall i | 0 <= i < |c.built| :: 1 <= c.built[i].n <= c.trades)
    && (forall i, j | 0 <= i < j < |c.built| :: c.built[i] != c.built[j])
  }

  lemma HandledDistinct(c: Counts, m: Item, interval: int)
    requires Distinct(c) && m.Message?
    ensures Distinct(Handled(c, m, interval).0)
  {
  }

  lemma {:induction false} SessionDistinct(c: Counts, items: seq<Item>, interval: int)
    requires Distinct(c)
    ensures Distinct(SessionRun(c, items, interval).0)
    decreases |items|
  {
    if items != [] && items[0].Message? {
      HandledDistinct(c, items[0], interval);
      SessionDistinct(Handled(c, items[0], interval).0, items[1..], interval);
    }
  }

  lemma {:induction false} FeedDistinct(c: Counts, attempts: seq<Attempt>, interval: int)
    requires Distinct(c)
    ensures Distinct(FeedRun(c, attempts, interval))
    decreases |attempts|
  {
    if attempts != [] {
      match attempts[0]
      case DialFails => FeedDistinct(c, attempts[1..], interval);
      case Session(items, _) =>
        SessionDistinct(c, items, interval);
        FeedDistinct(SessionRun(c, items, interval).0, attempts[1..], interval);
    }
  }

  /** The ids of all events built in one life of the feed are pairwise distinct strings. */
  lemma UniqueIds(attempts: seq<Attempt>, interval: int, i: nat, j: nat)
    requires i < j < |FeedRun(ZERO, attempts, interval).built|
    ensures var built := FeedRun(ZERO, attempts, interval).built; Text(built[i]) != Text(built[j])
  {
    FeedDistinct(ZERO, attempts, interval);
    var built := FeedRun(ZERO, attempts, interval).built;
    TextInjective(built[i], built[j]);
  }

  // ------------------------------------------------------------------- back-off

  lemma {:induction false} Pow2Monotone(j: nat, k: nat)
    requires j <= k
    ensures 1 <= Pow2(j) <= Pow2(k)
  {
    if j < k {
      Pow2Monotone(j, k - 1);
    } else if j > 0 {
      Pow2Monotone(j - 1, k - 1);
    }
  }

  /** Waits grow with every retry and stay between 1 and 30 seconds. */
  lemma BackoffBounds(j: nat, k: nat)
    requires j <= k
    ensures 1 <= Backoff(j) <= Backoff(k) <= 30
  {
    Pow2Monotone(j, k);
  }

  /** Every wait of every run lies between 1 and 30 seconds. */
  lemma {:induction false} WaitsInRange(c: Counts, attempts: seq<Attempt>, interval: int, k: nat)
    ensures forall w <- Waits(c, attempts, interval, k) :: 1 <= w <= 30
    decreases |attempts|
  {
    BackoffBounds(0, 0);
    BackoffBounds(k, k);
    if attempts != [] {
      match attempts[0]
      case DialFails => WaitsInRange(c, attempts[1..], interval, k + 1);
      case Session(items, _) => WaitsInRange(SessionRun(c, items, interval).0, attempts[1..], interval, 1);
    }
  }

  /** Doubling the wait and capping it is one step of the closed form. */
  lemma BackoffDoubles(k: nat)
    ensures Backoff(k + 1) == if 2 * Backoff(k) <= 30 then 2 * Backoff(k) else 30
  {
    Pow2Monotone(0, k);
  }

  /** The waits are 1, 2, 4, 8, 16 and from then on 30 seconds. */
  lemma BackoffTable(k: nat)
    ensures Backoff(k) == if k < 5 then [1, 2, 4, 8, 16][k] else 30
  {
    if k < 5 {
      assert Pow2(0) == 1 && Pow2(1) == 2 && Pow2(2) == 4 && Pow2(3) == 8 && Pow2(4) == 16;
    } else {
      assert Pow2(0) == 1 && Pow2(1) == 2 && Pow2(2) == 4 && Pow2(3) == 8 && Pow2(4) == 16 && Pow2(5) == 32;
      Pow2Monotone(5, k);
    }
  }

  // ------------------------------------------------------------------ the object

  class Client {
    var forwarded: nat
    var errors: nat
    var tradeCount: nat
    ghost var read: nat
    ghost var logSends: nat
    ghost var built: seq<EventId>
    ghost var waits: seq<nat>

    constructor ()
      ensures View() == ZERO && waits == []
    {
      forwarded, errors, tradeCount := 0, 0, 0;
      read, logSends, built, waits := 0, 0, [], [];
    }

    ghost function View(): Counts
      reads this
    {
      Counts(forwarded, errors, tradeCount, read, logSends, built)
    }

    /** Read and forward until the session ends. */
    method ReadLoop(items: seq<Item>, interval: int) returns (cancelled: bool)
      modifies this
      ensures (View(), cancelled) == SessionRun(old(View()), items, interval) && waits == old(waits)
      ensures cancelled <==> EndsCancelled(old(tradeCount), items, interval)
    {
      CancelledIff(View(), items, interval);
      var i := 0;
      while i < |items|
        invariant 0 <= i <= |items| && waits == old(waits)
        invariant SessionRun(old(View()), items, interval) == SessionRun(View(), items[i..], interval)
      {
        var item := items[i];
        assert items[i..][0] == item && items[i..][1..] == items[i + 1..];
        i := i + 1;
        if item.Cancelled? {
          return true;
        }
        if item.ReadError? {
          return false;
        }
        read := read + 1;
        if !item.parsed.Trade? {
          errors := errors + 1;
          continue;
        }
        tradeCount := tradeCount + 1;
        built := built + [TradeId(tradeCount)];
        if !item.tradeSent {
          errors := errors + 1;
          return false;
        }
        forwarded := forwarded + 1;
        if interval > 0 && tradeCount % interval == 0 {
          logSends := logSends + 1;
          built := built + [LogId(tradeCount)];
          if !item.logSent {
            errors := errors + 1;
            return false;
          }
          forwarded := forwarded + 1;
        }
      }
      cancelled := false;
    }

    /** Connect, read, wait and reconnect, with exponential back-off. */
    method ConnectAndStream(attempts: seq<Attempt>, interval: int)
      modifies this
      ensures View() == FeedRun(old(View()), attempts, interval)
      ensures waits == old(waits) + Waits(old(View()), attempts, interval, 0)
    {
      var backoff := 1;
      ghost var k: nat := 0;
      var i := 0;
      while i < |attempts|
        invariant 0 <= i <= |attempts| && backoff == Backoff(k)
        invariant FeedRun(old(View()), attempts, interval) == FeedRun(View(), attempts[i..], interval)
        invariant old(waits) + Waits(old(View()), attempts, interval, 0) ==
                  waits + Waits(View(), attempts[i..], interval, k)
      {
        var attempt := attempts[i];
        assert attempts[i..][0] == attempt && attempts[i..][1..] == attempts[i + 1..];
        i := i + 1;
        if attempt.Session? {
          backoff, k := 1, 0;
          var cancelled := ReadLoop(attempt.items, interval);
          if cancelled || attempt.last {
            return;
          }
        }
        waits := waits + [backoff];
        BackoffDoubles(k);
        backoff, k := if 2 * backoff <= MAX_BACKOFF then 2 * backoff else MAX_BACKOFF, k + 1;
      }
    }
  }
}
