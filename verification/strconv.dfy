/**
 * Go's `strconv.Atoi` and the decimal formatting that go-redis applies to an
 * `int` argument (`strconv.AppendInt(b, v, 10)`), on a 64-bit `int`.
 */
module Strconv {
  import opened Wrappers

  const MinInt64: int := -0x8000_0000_0000_0000
  const MaxInt64: int := 0x7fff_ffff_ffff_ffff
  const MaxUint64: int := 0xffff_ffff_ffff_ffff

  /** Go's `int` on a 64-bit platform. */
  type Int64 = x: int | -0x8000_0000_0000_0000 <= x <= 0x7fff_ffff_ffff_ffff

  datatype NumErrorKind = ErrSyntax | ErrRange

  /** `*strconv.NumError`: the rejected text and the reason. */
  datatype NumError = NumError(num: string, kind: NumErrorKind)

  predicate IsDigit(c: char) { '0' <= c <= '9' }

  predicate AllDigits(s: string) { forall i :: 0 <= i < |s| ==> IsDigit(s[i]) }

  function DigitValue(c: char): (d: nat)
    requires IsDigit(c)
    ensures d < 10
  {
    c as int - '0' as int
  }

  function DigitChar(d: nat): (c: char)
    requires d < 10
    ensures IsDigit(c) && DigitValue(c) == d
  {
    ('0' as int + d) as char
  }

  /** The number a run of decimal digits denotes, most significant digit first. */
  function Value(s: string): nat
    requires AllDigits(s)
  {
    if s == [] then 0 else Value(s[..|s| - 1]) * 10 + DigitValue(s[|s| - 1])
  }

  /** Length of the longest prefix of `s` made of decimal digits. */
  function DigitRun(s: string): (n: nat)
    ensures n <= |s| && AllDigits(s[..n])
    ensures n < |s| ==> !IsDigit(s[n])
  {
    if s == [] || !IsDigit(s[0]) then 0
    else
      var rest := DigitRun(s[1..]);
      assert s[..1 + rest] == [s[0]] + s[1..][..rest];
      1 + rest
  }

  /** `s` without its leading `+` or `-`, if it has one. */
  function Unsigned(s: string): string
    requires s != []
  {
    if s[0] == '-' || s[0] == '+' then s[1..] else s
  }

  /** Reference syntax of a decimal integer: an optional sign, then one or more digits. */
  predicate IsDecimal(s: string)
  {
    s != [] && Unsigned(s) != [] && AllDigits(Unsigned(s))
  }

  /** The integer a decimal literal denotes. */
  function DecimalValue(s: string): int
    requires IsDecimal(s)
  {
    if s[0] == '-' then 0 - Value(Unsigned(s)) else Value(Unsigned(s))
  }

  /**
   * The digits that open `s` after its sign already exceed the unsigned 64-bit
   * range, whatever follows them.
   */
  predicate LeadingDigitsOverflow(s: string)
  {
    s != [] && Value(Unsigned(s)[..DigitRun(Unsigned(s))]) > MaxUint64
  }

  /**
   * `strconv.Atoi(s)`. Go's fast path (fewer than 19 bytes) and its fallback
   * through `ParseInt(s, 10, 0)` agree on every input, since at most 18 digits
   * cannot overflow; one definition covers both. The fallback scans digits from
   * the left and reports a range error as soon as the digits read so far exceed
   * the unsigned 64-bit range, even if a non-digit follows; otherwise any
   * non-digit is a syntax error. A syntax error comes with 0, a range error with
   * the bound of the sign's direction.
   */
  function Atoi(s: string): (r: (Int64, Option<NumError>))
    ensures r.1.None? <==> IsDecimal(s) && MinInt64 <= DecimalValue(s) <= MaxInt64
    ensures r.1.None? ==> r.0 == DecimalValue(s)
    ensures r.1.Some? ==> r.1.value.num == s
    ensures r.1.Some? && r.1.value.kind == ErrSyntax ==> r.0 == 0 && !IsDecimal(s)
    ensures r.1.Some? ==> (r.1.value.kind == ErrRange <==> LeadingDigitsOverflow(s) || IsDecimal(s))
    ensures r.1.Some? && r.1.value.kind == ErrRange ==>
              s != [] && r.0 == (if s[0] == '-' then MinInt64 else MaxInt64)
  {
    if s == [] then (0, Some(NumError(s, ErrSyntax)))
    else
      var neg := s[0] == '-';
      var body := Unsigned(s);
      var run := DigitRun(body);
      if body == [] then (0, Some(NumError(s, ErrSyntax)))
      else if Value(body[..run]) > MaxUint64 then
        assert AllDigits(body) ==> run == |body| && body[..run] == body;
        (if neg then MinInt64 else MaxInt64, Some(NumError(s, ErrRange)))
      else if run < |body| then (0, Some(NumError(s, ErrSyntax)))
      else
        assert body[..run] == body;
        if !neg && Value(body) > MaxInt64 then (MaxInt64, Some(NumError(s, ErrRange)))
        else if neg && Value(body) > -MinInt64 then (MinInt64, Some(NumError(s, ErrRange)))
        else (if neg then 0 - Value(body) else Value(body), None)
  }

  /** The decimal digits of `n`, most significant first, without leading zeros. */
  function Digits(n: nat): (s: string)
    ensures s != [] && AllDigits(s) && Value(s) == n
    ensures |s| > 1 ==> s[0] != '0'
  {
    if n < 10 then [DigitChar(n)]
    else
      var high := Digits(n / 10);
      var s := high + [DigitChar(n % 10)];
      assert s[..|s| - 1] == high;
      s
  }

  /** `strconv.FormatInt(n, 10)`: what go-redis stores for an `int` value. */
  function Itoa(n: int): (s: string)
    ensures IsDecimal(s) && DecimalValue(s) == n
    ensures s[0] != '+'
    ensures s[0] == '-' <==> n < 0
    ensures |Unsigned(s)| > 1 ==> Unsigned(s)[0] != '0'
  {
    if n < 0 then
      var s := "-" + Digits(-n);
      assert Unsigned(s) == Digits(-n);
      s
    else Digits(n)
  }

  /** Parsing what was formatted gives the number back, with no error. */
  lemma AtoiItoa(n: Int64)
    ensures Atoi(Itoa(n)) == (n, None)
  {
  }
}
