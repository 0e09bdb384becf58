/** Go's `strconv.ParseInt(s, 10, 64)` (and the `ParseUint` it delegates to), with
    `FormatInt` as its inverse. */
module Strconv {
  import opened Wrappers
  import opened GoInt

  /** The two causes a `*strconv.NumError` can carry. */
  datatype NumErr = ErrSyntax | ErrRange {
    function Message(): string {
      match this
      case ErrSyntax => "invalid syntax"
      case ErrRange => "value out of range"
    }
  }

  predicate IsDigit(c: char) {
    '0' <= c <= '9'
  }

  predicate AllDigits(s: string) {
    forall i :: 0 <= i < |s| ==> IsDigit(s[i])
  }

  function DigitValue(c: char): (d: nat)
    requires IsDigit(c)
    ensures d < 10
  {
    c as int - '0' as int
  }

  /** The value of a string of decimal digits, most significant first. */
  function Decimal(s: string): nat
    requires AllDigits(s)
  {
    if s == [] then 0 else 10 * Decimal(s[..|s| - 1]) + DigitValue(s[|s| - 1])
  }

  /** Length of the longest prefix of `s` made of decimal digits. */
  function LeadingDigits(s: string): (k: nat)
    ensures k <= |s|
    ensures AllDigits(s[..k])
    ensures k < |s| ==> !IsDigit(s[k])
  {
    if s == [] || !IsDigit(s[0]) then 0
    else
      var k := 1 + LeadingDigits(s[1..]);
      assert s[..k] == [s[0]] + s[1..][..k - 1];
      k
  }

  /** `ParseUint(s, 10, 64)`. Go's loop reads digits left to right and stops with a range
      error as soon as the value read so far exceeds 2^64 - 1, and with a syntax error at
      the first character that is not a digit, whichever comes first. Since the value of a
      digit prefix only grows with its length, the range error wins exactly when the
      leading digit run is already too large. */
  function ParseUint(s: string): Result<nat, NumErr> {
    if s == [] then Failure(ErrSyntax)
    else
      var k := LeadingDigits(s);
      if Decimal(s[..k]) > MaxUint64 then Failure(ErrRange)
      else if k < |s| then Failure(ErrSyntax)
      else Success(Decimal(s))
  }

  /** The text after an optional leading '+' or '-'. */
  function Unsigned(s: string): string {
    if s != [] && (s[0] == '+' || s[0] == '-') then s[1..] else s
  }

  /** `ParseInt(s, 10, 64)`: an optional sign, then `ParseUint` of the rest, then the
      int64 cutoff (2^63 - 1 for a positive value, 2^63 in magnitude for a negative one). */
  function ParseInt(s: string): Result<int64, NumErr> {
    if s == [] then Failure(ErrSyntax)
    else
      var neg := s[0] == '-';
      match ParseUint(Unsigned(s))
      case Failure(e) => Failure(e)
      case Success(un) =>
        if !neg && un >= TwoTo63 then Failure(ErrRange)
        else if neg && un > TwoTo63 then Failure(ErrRange)
        else Success(if neg then -(un as int) else un)
  }

  /** Reference reading of a base-10 integer literal: an optional sign followed by at
      least one digit and nothing else. */
  predicate IsDecimalLiteral(s: string) {
    Unsigned(s) != [] && AllDigits(Unsigned(s))
  }

  function LiteralValue(s: string): int
    requires IsDecimalLiteral(s)
  {
    var v: int := Decimal(Unsigned(s));
    if s[0] == '-' then -v else v
  }

  /** Decimal rendering of a natural number, without leading zeros. */
  function FormatUint(n: nat): (s: string)
    ensures s != [] && AllDigits(s)
    ensures Decimal(s) == n
    ensures s[0] != '0' || n == 0
  {
    var d := ['0' + (n % 10) as char];
    if n < 10 then d
    else
      var s := FormatUint(n / 10) + d;
      assert s[..|s| - 1] == FormatUint(n / 10);
      s
  }

  /** `strconv.FormatInt(x, 10)`. */
  function FormatInt(x: int64): (s: string)
    ensures IsDecimalLiteral(s) && LiteralValue(s) == x
  {
    var n: int := x;
    if n < 0 then "-" + FormatUint(-n) else FormatUint(n)
  }

  /** A string of digits is read at its full length. */
  lemma LeadingDigitsOfDigits(s: string)
    requires AllDigits(s)
    ensures LeadingDigits(s) == |s|
  {
  }

  /** The value of a digit string is at least the value of any of its prefixes. */
  lemma {:induction false} DecimalPrefixMonotone(s: string, k: nat)
    requires AllDigits(s) && k <= |s|
    ensures Decimal(s[..k]) <= Decimal(s)
  {
    if k < |s| {
      assert s[..|s| - 1][..k] == s[..k];
      DecimalPrefixMonotone(s[..|s| - 1], k);
      assert Decimal(s) == 10 * Decimal(s[..|s| - 1]) + DigitValue(s[|s| - 1]);
    } else {
      assert s[..k] == s;
    }
  }

  /** ParseInt accepts exactly the decimal literals whose value fits in int64, and then
      returns that value. */
  lemma ParseIntAccepts(s: string)
    ensures ParseInt(s).Success? <==> IsDecimalLiteral(s) && MinInt64 <= LiteralValue(s) <= MaxInt64
    ensures ParseInt(s).Success? ==> ParseInt(s).value == LiteralValue(s)
  {
    var u := Unsigned(s);
    if s != [] && u != [] {
      var k := LeadingDigits(u);
      if AllDigits(u) {
        LeadingDigitsOfDigits(u);
        assert u[..k] == u;
      } else {
        assert k < |u|;
      }
    }
  }

  /** A digit string whose value exceeds int64 fails with a range error, not a syntax error. */
  lemma ParseIntTooLarge(s: string)
    requires s != [] && AllDigits(s) && Decimal(s) > MaxInt64
    ensures ParseInt(s) == Failure(ErrRange)
  {
  }

  /** Go's loop gives up on overflow before it looks at the rest of the string: a digit run
      past 2^64 - 1 followed by anything is a range error. */
  lemma ParseUintOverflowFirst(digits: string, rest: string)
    requires AllDigits(digits) && Decimal(digits) > MaxUint64
    ensures ParseUint(digits + rest) == Failure(ErrRange)
  {
    var s := digits + rest;
    var k := LeadingDigits(s);
    assert s[..|digits|] == digits;
    assert AllDigits(s[..|digits|]);
    assert k >= |digits|;
    assert s[..k][..|digits|] == digits;
    DecimalPrefixMonotone(s[..k], |digits|);
  }

  /** FormatInt is a right inverse of ParseInt on all of int64. */
  lemma ParseIntFormatInt(x: int64)
    ensures ParseInt(FormatInt(x)) == Success(x)
  {
    ParseIntAccepts(FormatInt(x));
  }
}
