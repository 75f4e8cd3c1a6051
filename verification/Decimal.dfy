/** strconv.ParseInt(s, 10, 64) and strconv.FormatInt(n, 10), which carry user ids through JSON and
    cache keys. */
module Decimal {

  const MAX_UINT64 := 0xFFFF_FFFF_FFFF_FFFF
  const MIN_INT64 := -0x8000_0000_0000_0000
  const MAX_INT64 := 0x7FFF_FFFF_FFFF_FFFF

  predicate IsInt64(n: int) {
    MIN_INT64 <= n <= MAX_INT64
  }

  predicate IsDigit(c: char) {
    '0' <= c <= '9'
  }

  function Digit(d: nat): char
    requires d < 10
  {
    '0' + d as char
  }

  function DigitValue(c: char): nat
    requires IsDigit(c)
  {
    (c - '0') as nat
  }

  datatype Scanned = Value(n: nat) | BadSyntax | TooBig

  /** The loop of ParseUint, which stops at the first bad character or overflow. */
  function Scan(s: string, acc: nat): Scanned {
    if s == "" then Value(acc)
    else if !IsDigit(s[0]) then BadSyntax
    else if acc * 10 + DigitValue(s[0]) > MAX_UINT64 then TooBig
    else Scan(s[1..], acc * 10 + DigitValue(s[0]))
  }

  /** ParseInt also returns a value with its error: zero, or the nearest int64. */
  datatype Parsed = Parsed(ok: bool, value: int)

  function ParseInt(s: string): Parsed {
    if s == "" then Parsed(false, 0)
    else
      var negative := s[0] == '-';
      var digits := if s[0] == '-' || s[0] == '+' then s[1..] else s;
      match if digits == "" then BadSyntax else Scan(digits, 0)
      case BadSyntax => Parsed(false, 0)
      case TooBig => Parsed(false, if negative then MIN_INT64 else MAX_INT64)
      case Value(magnitude) =>
        var n: int := magnitude;
        if !negative && n > MAX_INT64 then Parsed(false, MAX_INT64)
        else if negative && n > -MIN_INT64 then Parsed(false, MIN_INT64)
        else Parsed(true, if negative then -n else n)
  }

  function Digits(n: nat): (s: string)
    ensures s != "" && IsDigit(s[0])
  {
    if n < 10 then [Digit(n)] else Digits(n / 10) + [Digit(n % 10)]
  }

  function FormatInt(n: int): string {
    if n < 0 then "-" + Digits(-n) else Digits(n)
  }

  /** The text is the one FormatInt writes. */
  predicate Canonical(s: string) {
    ParseInt(s).ok && FormatInt(ParseInt(s).value) == s
  }

  lemma {:induction false} ScanMore(s: string, c: char, acc: nat)
    ensures Scan(s + [c], acc) == match Scan(s, acc)
                                  case Value(n) =>
                                    if !IsDigit(c) then BadSyntax
                                    else if n * 10 + DigitValue(c) > MAX_UINT64 then TooBig
                                    else Value(n * 10 + DigitValue(c))
                                  case bad => bad
  {
    if s == "" {
      assert s + [c] == [c] && [c][1..] == "";
    } else {
      assert (s + [c])[1..] == s[1..] + [c];
      if IsDigit(s[0]) {
        ScanMore(s[1..], c, acc * 10 + DigitValue(s[0]));
      }
    }
  }

  lemma {:induction false} ScanDigits(n: nat)
    requires n <= MAX_UINT64
    ensures Scan(Digits(n), 0) == Value(n)
  {
    if n < 10 {
      assert Digits(n)[1..] == "";
    } else {
      ScanDigits(n / 10);
      ScanMore(Digits(n / 10), Digit(n % 10), 0);
    }
  }

  /** Main result: what FormatInt writes, ParseInt reads back. */
  lemma ParseFormat(n: int)
    requires IsInt64(n)
    ensures ParseInt(FormatInt(n)) == Parsed(true, n) && Canonical(FormatInt(n))
  {
    if n < 0 {
      ScanDigits(-n);
      assert FormatInt(n)[1..] == Digits(-n);
    } else {
      ScanDigits(n);
    }
  }

  // ----- which texts are numbers -----

  predicate AllDigits(s: string) {
    forall i :: 0 <= i < |s| ==> IsDigit(s[i])
  }

  /** The number a text of digits stands for, however long. */
  function NumberOf(s: string): nat
    requires AllDigits(s)
  {
    if s == "" then 0 else NumberOf(s[..|s| - 1]) * 10 + DigitValue(s[|s| - 1])
  }

  lemma {:induction false} ScanIsNumber(s: string)
    ensures AllDigits(s) ==> Scan(s, 0) == if NumberOf(s) <= MAX_UINT64 then Value(NumberOf(s)) else TooBig
    ensures !AllDigits(s) ==> !Scan(s, 0).Value?
  {
    if s != "" {
      var k := |s| - 1;
      ScanIsNumber(s[..k]);
      ScanMore(s[..k], s[k], 0);
      assert s == s[..k] + [s[k]];
      if AllDigits(s) {
        assert AllDigits(s[..k]) && NumberOf(s) >= NumberOf(s[..k]);
      } else if AllDigits(s[..k]) {
        assert !IsDigit(s[k]);
      }
    }
  }

  /** The text without its sign. */
  function Unsigned(s: string): string {
    if s != "" && s[0] in {'-', '+'} then s[1..] else s
  }

  function Signed(s: string): int
    requires AllDigits(Unsigned(s))
  {
    var n: int := NumberOf(Unsigned(s));
    if s != "" && s[0] == '-' then -n else n
  }

  /** Main result: a text is read exactly if it is digits, at least one, after at most one sign, for a number of 64
      bits, and it is read as that number; digits for any other number give the nearest one, with an error. */
  lemma ParsedIff(s: string)
    ensures ParseInt(s).ok <==> Unsigned(s) != "" && AllDigits(Unsigned(s)) && IsInt64(Signed(s))
    ensures ParseInt(s).ok ==> ParseInt(s).value == Signed(s)
    ensures Unsigned(s) != "" && AllDigits(Unsigned(s)) && !IsInt64(Signed(s)) ==>
              ParseInt(s).value == if Signed(s) < 0 then MIN_INT64 else MAX_INT64
  {
    ScanIsNumber(Unsigned(s));
  }
}
