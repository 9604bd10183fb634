/**
 Length-prefix framing: a 4-byte big-endian length, then the payload.

 `ParseFrame` and `ParseAll` say what reading means on the bytes alone; the
 methods read through a reader that may hand the bytes over in any fragments.
 */
module Frame {
  import opened Wrappers

  newtype byte = x: int | 0 <= x < 0x100

  type Bytes = seq<byte>

  const LIMIT: nat := 0x1_0000_0000

  // ------------------------------------------------------------------ header

  /** The header written for n: uint32(n), so lengths wrap at 2^32. */
  function PutUint32(n: nat): Bytes
  {
    [(n / 0x100_0000 % 0x100) as byte, (n / 0x1_0000 % 0x100) as byte, (n / 0x100 % 0x100) as byte, (n % 0x100) as byte]
  }

  function Uint32(h: Bytes): (n: nat)
    requires |h| == 4
    ensures n < LIMIT
  {
    h[0] as nat * 0x100_0000 + h[1] as nat * 0x1_0000 + h[2] as nat * 0x100 + h[3] as nat
  }

  lemma DivTwice(n: nat)
    ensures n / 0x1_0000 == n / 0x100 / 0x100
    ensures n / 0x100_0000 == n / 0x1_0000 / 0x100
  {
  }

  lemma ModFrom(n: nat, q: nat, v: nat)
    requires n == LIMIT * q + v && v < LIMIT
    ensures n % LIMIT == v
  {
  }

  lemma HeaderRoundTrip(n: nat)
    ensures |PutUint32(n)| == 4 && Uint32(PutUint32(n)) == n % LIMIT
  {
    var a, b, c := n / 0x100, n / 0x1_0000, n / 0x100_0000;
    DivTwice(n);
    assert n == a * 0x100 + n % 0x100 && a == b * 0x100 + a % 0x100;
    assert b == c * 0x100 + b % 0x100 && c == c / 0x100 * 0x100 + c % 0x100;
    ModFrom(n, c / 0x100, Uint32(PutUint32(n)));
  }

  /** The header is big-endian: headers compare byte by byte as the lengths do. */
  lemma BigEndian(m: nat, n: nat)
    requires m < n < LIMIT
    ensures var g, h := PutUint32(m), PutUint32(n);
            exists i | 0 <= i < 4 :: g[..i] == h[..i] && g[i] < h[i]
  {
    HeaderExact(m);
    HeaderExact(n);
    FirstDifference(PutUint32(m), PutUint32(n));
  }

  lemma HeaderExact(n: nat)
    requires n < LIMIT
    ensures |PutUint32(n)| == 4 && Uint32(PutUint32(n)) == n
  {
    HeaderRoundTrip(n);
  }

  lemma FirstDifference(g: Bytes, h: Bytes)
    requires |g| == |h| == 4 && Uint32(g) < Uint32(h)
    ensures exists i | 0 <= i < 4 :: g[..i] == h[..i] && g[i] < h[i]
  {
    var a, b := Digits(g), Digits(h);
    Leading(a[0], a[1] * 0x1_0000 + a[2] * 0x100 + a[3], b[0], b[1] * 0x1_0000 + b[2] * 0x100 + b[3], 0x100_0000);
    if g[0] != h[0] {
      assert g[..0] == h[..0] && g[0] < h[0];
    } else {
      Leading(a[1], a[2] * 0x100 + a[3], b[1], b[2] * 0x100 + b[3], 0x1_0000);
      if g[1] != h[1] {
        assert g[..1] == h[..1] && g[1] < h[1];
      } else {
        Leading(a[2], a[3], b[2], b[3], 0x100);
        if g[2] != h[2] {
          assert g[..2] == h[..2] && g[2] < h[2];
        } else {
          assert g[..3] == h[..3] && g[3] < h[3];
        }
      }
    }
  }

  function Digits(h: Bytes): (d: seq<nat>)
    requires |h| == 4
    ensures |d| == 4 && forall i | 0 <= i < 4 :: d[i] == h[i] as nat && d[i] < 0x100
  {
    [h[0] as nat, h[1] as nat, h[2] as nat, h[3] as nat]
  }

  /** Between numbers written with a leading digit and a shorter rest, the leading digit decides first. */
  lemma Leading(a: nat, x: nat, b: nat, y: nat, unit: nat)
    requires x < unit && y < unit && a * unit + x < b * unit + y
    ensures a < b || (a == b && x < y)
  {
    if a > b {
      AtLeastOne(a - b, unit);
    }
  }

  lemma AtLeastOne(k: nat, unit: nat)
    requires k > 0
    ensures k * unit >= unit
  {
  }

  // ------------------------------------------------------- meaning on bytes

  function Framed(payload: Bytes): Bytes
  {
    PutUint32(|payload|) + payload
  }

  function Stream(payloads: seq<Bytes>): Bytes
  {
    if payloads == [] then [] else Framed(payloads[0]) + Stream(payloads[1..])
  }

  /** How a reader's bytes come to an end, and how a short io.ReadFull reports it. */
  datatype Ending = EOF | UnexpectedEOF | Timeout

  function ShortRead(got: nat, end: Ending): Ending
  {
    if got > 0 && end == EOF then UnexpectedEOF else end
  }

  datatype FrameError = ReadHeader(cause: Ending) | ReadPayload(cause: Ending)

  /** One Read: its result and the bytes it leaves; a failed Read has consumed everything. */
  function ParseFrame(input: Bytes, end: Ending): (Result<Bytes, FrameError>, Bytes)
  {
    if |input| < 4 then (Err(ReadHeader(ShortRead(|input|, end))), [])
    else
      var size := Uint32(input[..4]);
      if |input| < 4 + size then (Err(ReadPayload(ShortRead(|input| - 4, end))), [])
      else (Ok(input[4..4 + size]), input[4 + size..])
  }

  /** Reading until the first error: the payloads, then the error. */
  function ParseAll(input: Bytes, end: Ending): (seq<Bytes>, FrameError)
  {
    match ParseFrame(input, end)
    case (Ok(payload), rest) => Prepend([payload], ParseAll(rest, end))
    case (Err(error), _) => ([], error)
  }

  /** Reading, told from the bytes behind the header. */
  lemma ParseAfterHeader(input: Bytes, end: Ending)
    requires |input| >= 4
    ensures var size, rest := Uint32(input[..4]), input[4..];
            ParseFrame(input, end) ==
            if |rest| < size then (Err(ReadPayload(ShortRead(|rest|, end))), []) else (Ok(rest[..size]), rest[size..])
  {
    var size, rest := Uint32(input[..4]), input[4..];
    if |rest| >= size {
      assert rest[..size] == input[4..4 + size] && rest[size..] == input[4 + size..];
    }
  }

  function Prepend(payloads: seq<Bytes>, more: (seq<Bytes>, FrameError)): (seq<Bytes>, FrameError)
  {
    (payloads + more.0, more.1)
  }

  lemma PrependTwice(a: seq<Bytes>, b: seq<Bytes>, more: (seq<Bytes>, FrameError))
    ensures Prepend(a, Prepend(b, more)) == Prepend(a + b, more)
    ensures Prepend([], more) == more
  {
    assert a + (b + more.0) == a + b + more.0;
    assert [] + more.0 == more.0;
  }

  // ------------------------------------------------------------- correctness

  predicate Sendable(payloads: seq<Bytes>)
  {
    forall p <- payloads :: |p| < LIMIT
  }

  lemma ParseFramed(payload: Bytes, rest: Bytes, end: Ending)
    requires |payload| < LIMIT
    ensures ParseFrame(Framed(payload) + rest, end) == (Ok(payload), rest)
  {
    HeaderRoundTrip(|payload|);
    var input := Framed(payload) + rest;
    assert input[..4] == PutUint32(|payload|);
    assert input[4..4 + |payload|] == payload && input[4 + |payload|..] == rest;
  }

  lemma HeaderUnique(h: Bytes)
    requires |h| == 4
    ensures PutUint32(Uint32(h)) == h
  {
    var n := Uint32(h);
    assert n / 0x100_0000 == h[0] as nat;
    assert n / 0x1_0000 == h[0] as nat * 0x100 + h[1] as nat;
    assert n / 0x100 == h[0] as nat * 0x1_0000 + h[1] as nat * 0x100 + h[2] as nat;
  }

  /** What a successful Read took off the input is the frame of what it returned. */
  lemma ParsedIsFramed(input: Bytes, end: Ending)
    requires ParseFrame(input, end).0.Ok?
    ensures var (r, rest) := ParseFrame(input, end);
            |r.value| < LIMIT && input == Framed(r.value) + rest
  {
    HeaderUnique(input[..4]);
  }

  /**
   A payload survives its own frame exactly when its length fits the header: a longer
   one is announced with its length modulo 2^32.
   */
  lemma FrameRoundTrip(payload: Bytes, end: Ending)
    ensures ParseFrame(Framed(payload), end) == (Ok(payload), []) <==> |payload| < LIMIT
  {
    if |payload| < LIMIT {
      ParseFramed(payload, [], end);
      assert Framed(payload) + [] == Framed(payload);
    } else if ParseFrame(Framed(payload), end).0.Ok? {
      ParsedIsFramed(Framed(payload), end);
    }
  }

  lemma {:induction false} StreamAppend(payloads: seq<Bytes>, more: seq<Bytes>)
    ensures Stream(payloads + more) == Stream(payloads) + Stream(more)
  {
    if payloads == [] {
      assert payloads + more == more;
    } else {
      assert (payloads + more)[1..] == payloads[1..] + more;
      StreamAppend(payloads[1..], more);
    }
  }

  lemma StreamOne(payload: Bytes)
    ensures Stream([payload]) == Framed(payload)
  {
    assert Stream([payload]) == Framed(payload) + Stream([]);
  }

  lemma ParseNext(payload: Bytes, rest: Bytes, end: Ending)
    requires |payload| < LIMIT
    ensures ParseAll(Framed(payload) + rest, end) == Prepend([payload], ParseAll(rest, end))
  {
    ParseFramed(payload, rest, end);
  }

  /** Whole frames in front are read back whole, and reading goes on behind them. */
  lemma {:induction false} ParseStream(payloads: seq<Bytes>, rest: Bytes, end: Ending)
    requires Sendable(payloads)
    ensures ParseAll(Stream(payloads) + rest, end) == Prepend(payloads, ParseAll(rest, end))
  {
    PrependTwice([], [], ParseAll(rest, end));
    if payloads == [] {
      assert Stream(payloads) + rest == rest;
    } else {
      var tail := Stream(payloads[1..]) + rest;
      assert Stream(payloads) + rest == Framed(payloads[0]) + tail;
      ParseNext(payloads[0], tail, end);
      ParseStream(payloads[1..], rest, end);
      PrependTwice([payloads[0]], payloads[1..], ParseAll(rest, end));
      assert [payloads[0]] + payloads[1..] == payloads;
    }
  }

  /** How many frames lie wholly within the first n bytes of the stream. */
  function WholeFrames(payloads: seq<Bytes>, n: nat): (k: nat)
    ensures k <= |payloads|
    ensures |Stream(payloads[..k])| <= n
    ensures k < |payloads| ==> n < |Stream(payloads[..k + 1])|
  {
    if payloads == [] then 0
    else if |Framed(payloads[0])| > n then
      StreamOne(payloads[0]);
      assert payloads[..1] == [payloads[0]];
      0
    else
      var k := WholeFrames(payloads[1..], n - |Framed(payloads[0])|);
      assert payloads[..k + 1][1..] == payloads[1..][..k];
      assert k + 1 < |payloads| ==> payloads[..k + 2][1..] == payloads[1..][..k + 1];
      k + 1
  }

  /** The error that ends the reading of a stream cut off `left` bytes into a frame. */
  function CutError(left: nat, end: Ending): FrameError
  {
    if left < 4 then ReadHeader(ShortRead(left, end)) else ReadPayload(ShortRead(left - 4, end))
  }

  /**
   Truncation.  Cut the stream of any payloads after any n bytes: reading returns exactly
   the payloads whose frames lie wholly in front of the cut, in order, and then an error
   that tells where in a frame the cut fell.
   */
  lemma TruncatedStream(payloads: seq<Bytes>, n: nat, end: Ending)
    requires Sendable(payloads) && n <= |Stream(payloads)|
    ensures var k := WholeFrames(payloads, n);
            var left := n - |Stream(payloads[..k])|;
            ParseAll(Stream(payloads)[..n], end) == (payloads[..k], CutError(left, end))
  {
    var k := WholeFrames(payloads, n);
    var front, back := payloads[..k], payloads[k..];
    var left := n - |Stream(front)|;
    assert front + back == payloads;
    StreamAppend(front, back);
    assert Stream(payloads)[..n] == Stream(front) + Stream(back)[..left];
    ParseStream(front, Stream(back)[..left], end);
    if back != [] {
      NextFrameSize(payloads, k);
    }
    PartialFrame(back, left, end);
    assert front + [] == front;
  }

  /** The kind of the error: which of the two reads failed, and whether it had received anything. */
  lemma TruncationError(payloads: seq<Bytes>, n: nat, end: Ending)
    requires Sendable(payloads) && n <= |Stream(payloads)|
    ensures var error := ParseAll(Stream(payloads)[..n], end).1;
            var left := n - |Stream(payloads[..WholeFrames(payloads, n)])|;
            && (error.ReadHeader? <==> left < 4)
            && error.cause == if end != EOF then end else if left == 0 || left == 4 then EOF else UnexpectedEOF
  {
    TruncatedStream(payloads, n, end);
  }

  lemma NextFrameSize(payloads: seq<Bytes>, k: nat)
    requires k < |payloads|
    ensures |Stream(payloads[..k + 1])| == |Stream(payloads[..k])| + |Framed(payloads[k])|
  {
    assert payloads[..k + 1] == payloads[..k] + [payloads[k]];
    StreamAppend(payloads[..k], [payloads[k]]);
    StreamOne(payloads[k]);
  }

  /** Fewer bytes than the first frame has: no payload, and the error that tells how far they go. */
  lemma PartialFrame(payloads: seq<Bytes>, n: nat, end: Ending)
    requires Sendable(payloads) && n <= |Stream(payloads)|
    requires payloads != [] ==> n < |Framed(payloads[0])|
    ensures ParseAll(Stream(payloads)[..n], end) == ([], CutError(n, end))
  {
    if payloads != [] {
      CutFrame(payloads[0], n, end);
      assert Stream(payloads)[..n] == Framed(payloads[0])[..n];
    }
  }

  lemma CutFrame(payload: Bytes, n: nat, end: Ending)
    requires |payload| < LIMIT && n < |Framed(payload)|
    ensures ParseFrame(Framed(payload)[..n], end) == (Err(CutError(n, end)), [])
  {
    HeaderRoundTrip(|payload|);
    assert n >= 4 ==> Framed(payload)[..n][..4] == PutUint32(|payload|);
  }

  /** A stream that ends in EOF is seen to end cleanly exactly when it was cut between two frames. */
  lemma CleanEndIffBoundary(payloads: seq<Bytes>, n: nat)
    requires Sendable(payloads) && n <= |Stream(payloads)|
    ensures ParseAll(Stream(payloads)[..n], EOF).1 == ReadHeader(EOF) <==>
            exists k | 0 <= k <= |payloads| :: n == |Stream(payloads[..k])|
  {
    TruncatedStream(payloads, n, EOF);
    var k := WholeFrames(payloads, n);
    if j :| 0 <= j <= |payloads| && n == |Stream(payloads[..j])| {
      StreamMonotone(payloads, j, k);
      StreamMonotone(payloads, k, j);
      if k < j {
        StreamMonotone(payloads, k + 1, j);
      }
    }
  }

  lemma StreamMonotone(payloads: seq<Bytes>, i: nat, j: nat)
    requires i <= j <= |payloads| || j <= i <= |payloads|
    ensures i <= j ==> |Stream(payloads[..i])| <= |Stream(payloads[..j])|
  {
    if i <= j {
      assert payloads[..j] == payloads[..i] + payloads[i..j];
      StreamAppend(payloads[..i], payloads[i..j]);
    }
  }

  /** Framed streams decode uniquely. */
  lemma StreamInjective(payloads: seq<Bytes>, others: seq<Bytes>)
    requires Sendable(payloads) && Sendable(others) && Stream(payloads) == Stream(others)
    ensures payloads == others
  {
    ParseStream(payloads, [], EOF);
    ParseStream(others, [], EOF);
    assert Stream(payloads) + [] == Stream(payloads) && Stream(others) + [] == Stream(others);
    assert payloads + [] == payloads && others + [] == others;
  }

  // ------------------------------------------------------------- the methods

  function Join(chunks: seq<Bytes>): Bytes
  {
    if chunks == [] then [] else chunks[0] + Join(chunks[1..])
  }

  /** An io.Reader: each call delivers at most one chunk; eager readers report the end with the last bytes. */
  class Reader {
    var chunks: seq<Bytes>
    const end: Ending
    const eager: bool

    constructor (chunks: seq<Bytes>, end: Ending, eager: bool)
      ensures this.chunks == chunks && this.end == end && this.eager == eager
    {
      this.chunks, this.end, this.eager := chunks, end, eager;
    }

    function Remaining(): Bytes
      reads this
    {
      Join(chunks)
    }

    method Read(buf: array<byte>, at: nat) returns (n: nat, error: Option<Ending>)
      requires at < buf.Length
      modifies this, buf
      ensures at + n <= buf.Length && buf[..at] == old(buf[..at])
      ensures old(Remaining()) == buf[at..at + n] + Remaining()
      ensures error.Some? ==> Remaining() == [] && error.value == end
      ensures error.None? ==> |chunks| + |Remaining()| < old(|chunks| + |Remaining()|)
    {
      if chunks == [] {
        return 0, Some(end);
      }
      var c := chunks[0];
      n := if |c| <= buf.Length - at then |c| else buf.Length - at;
      forall i | 0 <= i < n {
        buf[at + i] := c[i];
      }
      ghost var tail := Join(chunks[1..]);
      assert buf[at..at + n] == c[..n];
      assert c == c[..n] + c[n..];
      assert c + tail == c[..n] + (c[n..] + tail);
      chunks := if n == |c| then chunks[1..] else [c[n..]] + chunks[1..];
      assert Remaining() == c[n..] + tail;
      error := if chunks == [] && eager then Some(end) else None;
    }
  }

  /** io.ReadFull: call the reader until the buffer is full or the bytes run out. */
  method ReadFull(r: Reader, buf: array<byte>) returns (error: Option<Ending>)
    modifies r, buf
    ensures var input := old(r.Remaining());
            if |input| >= buf.Length
            then error == None && buf[..] == input[..buf.Length] && r.Remaining() == input[buf.Length..]
            else error == Some(ShortRead(|input|, r.end)) && r.Remaining() == []
  {
    var n := 0;
    var failure := None;
    while n < buf.Length && failure.None?
      invariant 0 <= n <= buf.Length
      invariant old(r.Remaining()) == buf[..n] + r.Remaining()
      invariant failure.Some? ==> r.Remaining() == [] && failure.value == r.end
      decreases failure.None?, |r.chunks| + |r.Remaining()|
    {
      ghost var done := buf[..n];
      var got;
      got, failure := r.Read(buf, n);
      assert buf[..n + got] == done + buf[n..n + got];
      assert done + (buf[n..n + got] + r.Remaining()) == buf[..n + got] + r.Remaining();
      n := n + got;
    }
    if n >= buf.Length {
      assert buf[..n] == buf[..];
      error := None;
    } else if n > 0 && failure == Some(EOF) {
      error := Some(UnexpectedEOF);
    } else {
      error := failure;
    }
  }

  /** Read one frame. */
  method Read(r: Reader) returns (result: Result<Bytes, FrameError>)
    modifies r
    ensures (result, r.Remaining()) == ParseFrame(old(r.Remaining()), r.end)
  {
    ghost var input := r.Remaining();
    var header := new byte[4];
    var error := ReadFull(r, header);
    if error.Some? {
      return Err(ReadHeader(error.value));
    }
    ghost var rest := r.Remaining();
    assert header[..] == input[..4] && rest == input[4..];
    ParseAfterHeader(input, r.end);
    var size := Uint32(header[..]);
    var data := new byte[size];
    error := ReadFull(r, data);
    if error.Some? {
      return Err(ReadPayload(error.value));
    }
    result := Ok(data[..]);
  }

  /**
   Read frames until the first error, as a connection handler does.  The result depends
   on the bytes only, not on how they were fragmented.
   */
  method ReadAll(r: Reader) returns (payloads: seq<Bytes>, error: FrameError)
    modifies r
    ensures (payloads, error) == ParseAll(old(r.Remaining()), r.end)
  {
    payloads := [];
    PrependTwice([], [], ParseAll(r.Remaining(), r.end));
    while true
      invariant ParseAll(old(r.Remaining()), r.end) == Prepend(payloads, ParseAll(r.Remaining(), r.end))
      decreases |r.Remaining()|
    {
      var result := Read(r);
      if result.Err? {
        assert payloads + [] == payloads;
        return payloads, result.error;
      }
      PrependTwice(payloads, [result.value], ParseAll(r.Remaining(), r.end));
      payloads := payloads + [result.value];
    }
  }

  /** An io.Writer that accepts a given number of bytes before it fails, or never fails. */
  class Writer {
    var sent: Bytes
    var room: Option<nat>

    constructor (room: Option<nat>)
      ensures sent == [] && this.room == room
    {
      sent, this.room := [], room;
    }

    method Write(data: Bytes) returns (ok: bool)
      modifies this
      ensures ok <==> old(room).None? || |data| <= old(room).value
      ensures ok ==> sent == old(sent) + data &&
                     room == if old(room).None? then None else Some(old(room).value - |data|)
      ensures !ok ==> sent == old(sent) + data[..old(room).value] && room == Some(0)
    {
      ok := room.None? || |data| <= room.value;
      if ok {
        sent := sent + data;
        room := if room.None? then None else Some(room.value - |data|);
      } else {
        sent := sent + data[..room.value];
        room := Some(0);
      }
    }
  }

  /** Write one frame: the whole frame, or an error and the part of it that fitted. */
  method Write(w: Writer, data: Bytes) returns (ok: bool)
    modifies w
    ensures ok <==> old(w.room).None? || |Framed(data)| <= old(w.room).value
    ensures w.sent == old(w.sent) + if ok then Framed(data) else Framed(data)[..old(w.room).value]
  {
    var header := PutUint32(|data|);
    assert Framed(data) == header + data;
    ok := w.Write(header);
    if ok {
      ok := w.Write(data);
    }
  }
}
