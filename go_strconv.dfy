/**
 * Go's `strconv.ParseInt(s, 10, 64)` and the `%d` verb of `fmt.Sprintf`
 * for 64-bit signed integers.
 */
module GoStrconv {
  import opened Wrappers

  const MinInt64: int := -0x8000_0000_0000_0000
  const MaxInt64: int := 0x7FFF_FFFF_FFFF_FFFF

  /** Go's `int64`. */
  type Int64 = x: int | MinInt64 <= x <= MaxInt64

  predicate IsDigit(c: char) {
    '0' <= c <= '9'
  }

  predicate AllDigits(s: string) {
    forall i | 0 <= i < |s| :: IsDigit(s[i])
  }

  /** The value of a string of decimal digits, most significant first. */
  function DigitsValue(ds: string): nat
    requires AllDigits(ds)
    decreases |ds|
  {
    if |ds| == 0 then 0
    else DigitsValue(ds[..|ds| - 1]) * 10 + (ds[|ds| - 1] as int - '0' as int)
  }

  /**
   * `strconv.ParseInt(s, 10, 64)`: an optional `+` or `-`, then one or more
   * ASCII digits (no underscores, no base prefix), with a value inside the
   * int64 range. Anything else is an error, here `None`.
   */
  function ParseInt64(s: string): (r: Option<Int64>)
    ensures r.Some? ==> s != [] && |s| >= (if s[0] == '+' || s[0] == '-' then 2 else 1)
    ensures r.Some? ==> AllDigits(if s[0] == '+' || s[0] == '-' then s[1..] else s)
    ensures r.Some? && s[0] == '-' ==> r.value <= 0
    ensures r.Some? && s[0] != '-' ==> r.value >= 0
    ensures r.Some? ==> DigitsValue(if s[0] == '+' || s[0] == '-' then s[1..] else s)
                          == (if s[0] == '-' then -(r.value as int) else r.value as int)
  {
    if s == [] then None
    else
      var digits := if s[0] == '+' || s[0] == '-' then s[1..] else s;
      if digits == [] || !AllDigits(digits) then None
      else
        var magnitude: int := DigitsValue(digits);
        var v := if s[0] == '-' then -magnitude else magnitude;
        if MinInt64 <= v <= MaxInt64 then Some(v) else None
  }

  /** The decimal digits of a natural number, without leading zeros. */
  function NatDigits(n: nat): (ds: string)
    ensures |ds| >= 1 && AllDigits(ds) && DigitsValue(ds) == n
    ensures |ds| > 1 ==> ds[0] != '0'
    decreases n
  {
    var d := ['0' + (n % 10) as char];
    if n < 10 then d
    else
      var prefix := NatDigits(n / 10);
      assert (prefix + d)[..|prefix + d| - 1] == prefix;
      prefix + d
  }

  /**
   * `fmt.Sprintf("%d", n)`: a minus sign exactly for negative numbers, then
   * the canonical decimal digits of the magnitude.
   */
  function FormatInt(n: int): (s: string)
    ensures s != [] && s[0] != '+'
    ensures s[0] == '-' <==> n < 0
    ensures var ds := if n < 0 then s[1..] else s;
      && |ds| >= 1 && AllDigits(ds)
      && DigitsValue(ds) == (if n < 0 then -n else n)
      && (|ds| > 1 ==> ds[0] != '0')
  {
    if n < 0 then "-" + NatDigits(-n) else NatDigits(n)
  }

  /** An unsigned run of digits parses to its value when that value fits. */
  lemma ParseDigits(ds: string)
    requires |ds| >= 1 && AllDigits(ds) && DigitsValue(ds) <= MaxInt64
    ensures ParseInt64(ds) == Some(DigitsValue(ds))
  {
    assert IsDigit(ds[0]);
  }

  /** A minus sign followed by digits parses to the negated value when that fits. */
  lemma ParseNegatedDigits(ds: string)
    requires |ds| >= 1 && AllDigits(ds) && DigitsValue(ds) <= -MinInt64
    ensures ParseInt64("-" + ds) == Some(-(DigitsValue(ds) as int))
  {
    var s := "-" + ds;
    assert s[0] == '-' && s[1..] == ds;
  }

  /** A plus sign followed by digits parses to their value when that fits. */
  lemma ParsePlusDigits(ds: string)
    requires |ds| >= 1 && AllDigits(ds) && DigitsValue(ds) <= MaxInt64
    ensures ParseInt64("+" + ds) == Some(DigitsValue(ds))
  {
    var s := "+" + ds;
    assert s[0] == '+' && s[1..] == ds;
  }

  /**
   * A digit run whose value is out of the int64 range is rejected, with a
   * plus sign, a minus sign or none.
   */
  lemma {:induction false} ParseOverflow(ds: string)
    requires |ds| >= 1 && AllDigits(ds)
    ensures DigitsValue(ds) > MaxInt64 ==> ParseInt64(ds) == None && ParseInt64("+" + ds) == None
    ensures DigitsValue(ds) > -MinInt64 ==> ParseInt64("-" + ds) == None
  {
    assert ("+" + ds)[1..] == ds && ("-" + ds)[1..] == ds;
  }

  /** Every int64 printed in decimal parses back to itself. */
  lemma ParseFormat(n: Int64)
    ensures ParseInt64(FormatInt(n)) == Some(n)
  {
    if n < 0 {
      ParseNegatedDigits(NatDigits(-(n as int)));
    } else {
      ParseDigits(NatDigits(n));
    }
  }

  /** Distinct int64 values print differently. */
  lemma FormatInjective(m: Int64, n: Int64)
    requires FormatInt(m) == FormatInt(n)
    ensures m == n
  {
    ParseFormat(m);
    ParseFormat(n);
  }
}
