/**
 * Shared vocabulary: optional values, decimal digit strings and the two
 * ways the system turns a database key such as "1718000000" into a number
 * (JavaScript's Number() in the relay, Go's strconv.ParseInt in the
 * dashboard server).
 */
module Base {

  datatype Option<T> = None | Some(value: T)

  predicate IsDigit(c: char) { '0' <= c <= '9' }

  function DigitValue(c: char): (d: nat)
    requires IsDigit(c)
    ensures d < 10
  {
    (c as int) - ('0' as int)
  }

  function DigitChar(d: nat): (c: char)
    requires d < 10
    ensures IsDigit(c) && DigitValue(c) == d
  {
    (('0' as int) + d) as char
  }

  /** A non-empty string made of decimal digits only. */
  predicate AllDigits(s: string)
  {
    |s| > 0 && forall i :: 0 <= i < |s| ==> IsDigit(s[i])
  }

  /** The value of a digit string read in base ten (leading zeros allowed). */
  function DigitsValue(s: string): nat
    requires forall i :: 0 <= i < |s| ==> IsDigit(s[i])
  {
    if s == [] then 0 else DigitsValue(s[..|s| - 1]) * 10 + DigitValue(s[|s| - 1])
  }

  /** The canonical decimal rendering of a natural number. */
  function DecimalString(n: nat): (s: string)
    ensures AllDigits(s)
    ensures DigitsValue(s) == n
    ensures n < 10 <==> |s| == 1
  {
    if n < 10 then [DigitChar(n)]
    else
      var p := DecimalString(n / 10);
      var s := p + [DigitChar(n % 10)];
      assert s[..|s| - 1] == p;
      s
  }

  /** Distinct numbers have distinct renderings. */
  lemma DecimalStringInjective(a: nat, b: nat)
    requires DecimalString(a) == DecimalString(b)
    ensures a == b
  {
    assert DigitsValue(DecimalString(a)) == a;
  }

  /**
   * JavaScript's Number() applied to an object key, restricted to keys made
   * of decimal digits; any other key is reported as not a number.
   */
  function JsNumber(s: string): (r: Option<nat>)
    ensures r.Some? <==> AllDigits(s)
    ensures forall n: nat :: s == DecimalString(n) ==> r == Some(n)
  {
    if AllDigits(s) then Some(DigitsValue(s)) else None
  }

  const Int64Max: int := 0x7fff_ffff_ffff_ffff

  /**
   * Go's strconv.ParseInt(s, 10, 64): an optional sign, then at least one
   * digit, and the value must fit in a signed 64-bit integer.
   */
  function GoParseInt(s: string): (r: Option<int>)
    ensures r.Some? ==> -Int64Max - 1 <= r.value <= Int64Max
    ensures forall n: nat :: n <= Int64Max && s == DecimalString(n) ==> r == Some(n)
  {
    if |s| > 0 && (s[0] == '+' || s[0] == '-') then
      var rest := s[1..];
      if !AllDigits(rest) then None
      else
        var v: int := DigitsValue(rest);
        if s[0] == '+' then (if v <= Int64Max then Some(v) else None)
        else (if v <= Int64Max + 1 then Some(-v) else None)
    else if AllDigits(s) && DigitsValue(s) <= Int64Max then Some(DigitsValue(s))
    else None
  }

  /** A key's numeric value as the relay compares it: not-a-number reads as 0. */
  function JsKeyNumber(s: string): (t: int)
    ensures t >= 0
    ensures t > 0 ==> AllDigits(s)
  {
    match JsNumber(s)
    case Some(v) => v
    case None => 0
  }

  /**
   * A key's numeric value as the dashboard server compares it: a key that
   * does not parse is skipped, which for a comparison against a positive
   * running maximum is the same as reading it as 0.
   */
  function GoKeyNumber(s: string): (t: int)
    ensures t != 0 ==> GoParseInt(s).Some? && GoParseInt(s).value == t
  {
    match GoParseInt(s)
    case Some(v) => v
    case None => 0
  }

  function Max(a: int, b: int): (m: int)
    ensures m >= a && m >= b && (m == a || m == b)
  {
    if a >= b then a else b
  }

  function Min(a: int, b: int): (m: int)
    ensures m <= a && m <= b && (m == a || m == b)
  {
    if a <= b then a else b
  }

  // Division facts for the index arithmetic of the partitions.

  lemma MulAtLeast(d: int, k: int)
    requires d >= 1 && k > 0
    ensures d * k >= k
  {
    if d > 1 {
      MulAtLeast(d - 1, k);
      assert d * k == (d - 1) * k + k;
    }
  }

  /** Euclidean division is unique: x == q * k + r with 0 <= r < k fixes both. */
  lemma DivModUnique(x: int, k: int, q: int, r: int)
    requires k > 0 && 0 <= r < k && x == q * k + r
    ensures x % k == r && x / k == q
  {
    var q', r' := x / k, x % k;
    assert x == q' * k + r';
    assert (q - q') * k == r' - r;
    if q > q' {
      MulAtLeast(q - q', k);
    } else if q' > q {
      MulAtLeast(q' - q, k);
    }
  }

  /** Counting up by one: the remainder advances and wraps to 0, and the quotient grows when it wraps. */
  lemma DivModStep(n: nat, k: nat)
    requires k > 0
    ensures (n + 1) % k == if n % k + 1 == k then 0 else n % k + 1
    ensures (n + 1) / k == if n % k + 1 == k then n / k + 1 else n / k
  {
    var q, r := n / k, n % k;
    assert n == q * k + r;
    if r + 1 == k {
      DivModUnique(n + 1, k, q + 1, 0);
    } else {
      DivModUnique(n + 1, k, q, r + 1);
    }
  }

  /** A mean of n > 0 values each in [lo, hi] lies in [lo, hi]: from lo n <= e <= hi n. */
  lemma MeanBounds(e: real, n: real, lo: real, hi: real)
    requires n > 0.0 && lo * n <= e <= hi * n
    ensures lo <= e / n <= hi && e / n * n == e
  {
    var q := e / n;
    assert q * n == e;
    assert (q - lo) * n >= 0.0 && (hi - q) * n >= 0.0;
  }

  /** The sum of a sequence of reals, left to right. */
  function Sum(s: seq<real>): real
  {
    if |s| == 0 then 0.0 else Sum(s[..|s| - 1]) + s[|s| - 1]
  }

  lemma {:induction false} SumAppend(a: seq<real>, b: seq<real>)
    ensures Sum(a + b) == Sum(a) + Sum(b)
    decreases |b|
  {
    if |b| == 0 {
      assert a + b == a;
    } else {
      var b' := b[..|b| - 1];
      SumAppend(a, b');
      assert (a + b)[..|a + b| - 1] == a + b';
    }
  }

  lemma {:induction false} SumOfConstant(s: seq<real>, v: real)
    requires forall i | 0 <= i < |s| :: s[i] == v
    ensures Sum(s) == v * (|s| as real)
  {
    if |s| > 0 {
      SumOfConstant(s[..|s| - 1], v);
    }
  }
}
