/** Decimal printing with %d and its inverse, strconv.Atoi. */
module Decimal {
  import opened Wrappers

  const MIN_INT64 := -0x8000_0000_0000_0000
  const MAX_INT64 := 0x7fff_ffff_ffff_ffff

  const DIGITS := "0123456789"

  predicate IsDigit(c: char)
  {
    '0' <= c <= '9'
  }

  function DigitValue(c: char): (d: nat)
    requires IsDigit(c)
    ensures d < 10
  {
    c as int - '0' as int
  }

  function PrintNat(n: nat): (s: string)
    ensures s != [] && IsDigit(s[0])
  {
    if n < 10 then [DIGITS[n]] else PrintNat(n / 10) + [DIGITS[n % 10]]
  }

  /** fmt's %d. */
  function Print(n: int): string
  {
    if n < 0 then "-" + PrintNat(-n) else PrintNat(n)
  }

  /** The value of a string of digits, or None if it is empty or has another character. */
  function ParseNat(s: string): Option<nat>
  {
    if s == [] || !IsDigit(s[|s| - 1]) then None
    else
      var d := DigitValue(s[|s| - 1]);
      if |s| == 1 then Some(d)
      else
        match ParseNat(s[..|s| - 1])
        case Some(n) => Some(n * 10 + d)
        case None => None
  }

  /** strconv.Atoi: an optional sign, at least one digit, a value that fits 64 bits. */
  function Atoi(s: string): Option<int>
  {
    var signed := s != [] && (s[0] == '-' || s[0] == '+');
    match ParseNat(if signed then s[1..] else s)
    case None => None
    case Some(n) =>
      var m: int := n;
      var v := if s != [] && s[0] == '-' then -m else m;
      if MIN_INT64 <= v <= MAX_INT64 then Some(v) else None
  }

  lemma {:induction false} ParsePrintNat(n: nat)
    ensures ParseNat(PrintNat(n)) == Some(n)
  {
    if n >= 10 {
      ParsePrintNat(n / 10);
      assert PrintNat(n)[..|PrintNat(n)| - 1] == PrintNat(n / 10);
    }
  }

  // ------------------------------------------------------- what is accepted

  /** The number that a string of digits stands for. */
  function Value(s: string): int
  {
    if s == [] then 0 else 10 * Value(s[..|s| - 1]) + (s[|s| - 1] as int - '0' as int)
  }

  /** At least one character, and every one a decimal digit. */
  predicate Digits(s: string)
  {
    s != [] && forall c <- s :: '0' <= c <= '9'
  }

  lemma DigitsLast(front: string, last: char)
    ensures Digits(front + [last]) <==> (front == [] || Digits(front)) && '0' <= last <= '9'
  {
    assert last in front + [last];
    assert forall c <- front :: c in front + [last];
  }

  lemma {:induction false} ParseNatIff(s: string)
    ensures ParseNat(s).Some? <==> Digits(s)
    ensures Digits(s) ==> ParseNat(s) == Some(Value(s)) && Value(s) >= 0
  {
    if s != [] {
      var front, last := s[..|s| - 1], s[|s| - 1];
      assert s == front + [last] && last in s;
      DigitsLast(front, last);
      if |s| > 1 {
        ParseNatIff(front);
      } else {
        assert front == [] && Value(front) == 0;
      }
    }
  }

  /**
   Atoi accepts exactly an optional sign followed by at least one digit and nothing else, standing for a number that
   fits 64 bits; and returns that number.
   */
  lemma AtoiIff(s: string)
    ensures var signed := s != [] && (s[0] == '-' || s[0] == '+');
            var body := if signed then s[1..] else s;
            var n := if s != [] && s[0] == '-' then -Value(body) else Value(body);
            if Digits(body) && -0x8000_0000_0000_0000 <= n <= 0x7fff_ffff_ffff_ffff then Atoi(s) == Some(n)
            else Atoi(s) == None
  {
    ParseNatIff(if s != [] && (s[0] == '-' || s[0] == '+') then s[1..] else s);
  }

  /** Printing is canonical: only digits, no leading zero, and a minus sign exactly for negative numbers. */
  lemma {:induction false} PrintNatCanonical(n: nat)
    ensures Digits(PrintNat(n)) && Value(PrintNat(n)) == n && (|PrintNat(n)| > 1 ==> PrintNat(n)[0] != '0')
  {
    if n >= 10 {
      PrintNatCanonical(n / 10);
      assert PrintNat(n)[..|PrintNat(n)| - 1] == PrintNat(n / 10);
      assert n / 10 < 10 ==> PrintNat(n / 10) == [DIGITS[n / 10]];
    }
  }

  lemma PrintCanonical(n: int)
    ensures Print(n) != [] && (Print(n)[0] == '-' <==> n < 0)
    ensures var body := if n < 0 then Print(n)[1..] else Print(n);
            Digits(body) && Value(body) == (if n < 0 then -n else n) && (|body| > 1 ==> body[0] != '0')
  {
    PrintNatCanonical(if n < 0 then -n else n);
    assert n < 0 ==> Print(n)[1..] == PrintNat(-n);
  }

  /** Atoi recovers exactly the printed integers that fit 64 bits. */
  lemma AtoiPrint(n: int)
    ensures Atoi(Print(n)) == if MIN_INT64 <= n <= MAX_INT64 then Some(n) else None
  {
    PrintCanonical(n);
    AtoiIff(Print(n));
    assert n >= 0 ==> Print(n)[0] in Print(n);
  }
}
