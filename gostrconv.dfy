/**
 * The parts of Go's `strconv` and `fmt` that the core relies on: decimal
 * parsing with `Atoi` and `ParseUint(s, 10, 8)`, and `%d` formatting.
 * Go's `int` is taken to be 64 bits wide.
 */
module GoStrconv {
  import opened Wrappers

  const MinInt64: int := -0x8000_0000_0000_0000
  const MaxInt64: int := 0x7FFF_FFFF_FFFF_FFFF

  /** Two's-complement wrap-around of an integer into Go's 64-bit `int`. */
  function Wrap64(x: int): (r: int)
    ensures MinInt64 <= r <= MaxInt64
    ensures (r - x) % 0x1_0000_0000_0000_0000 == 0
    ensures MinInt64 <= x <= MaxInt64 ==> r == x
  {
    (x - MinInt64) % 0x1_0000_0000_0000_0000 + MinInt64
  }

  predicate IsDigit(c: char)
  {
    '0' <= c <= '9'
  }

  predicate AllDigits(s: string)
  {
    forall i :: 0 <= i < |s| ==> IsDigit(s[i])
  }

  function DigitValue(c: char): (d: nat)
    requires IsDigit(c)
    ensures d < 10
  {
    c as int - '0' as int
  }

  function DigitChar(d: nat): (c: char)
    requires d < 10
    ensures IsDigit(c) && DigitValue(c) == d
  {
    ('0' as int + d) as char
  }

  /** The value of a string of decimal digits, most significant first. */
  function DigitsValue(s: string): nat
    requires AllDigits(s)
  {
    if s == [] then 0 else DigitsValue(s[..|s| - 1]) * 10 + DigitValue(s[|s| - 1])
  }

  /** A prefix of a digit string is worth no more than the whole string. */
  lemma {:induction false} DigitsValuePrefix(s: string, i: nat)
    requires AllDigits(s) && i <= |s|
    ensures AllDigits(s[..i]) && DigitsValue(s[..i]) <= DigitsValue(s)
    decreases |s| - i
  {
    if i < |s| {
      DigitsValuePrefix(s[..|s| - 1], i);
      assert s[..|s| - 1][..i] == s[..i];
      assert DigitsValue(s[..|s| - 1]) <= DigitsValue(s);
    } else {
      assert s[..i] == s;
    }
  }

  /** `%d` of a natural number: its shortest decimal representation. */
  function NatToString(n: nat): (s: string)
    ensures |s| >= 1 && AllDigits(s)
    ensures DigitsValue(s) == n
    ensures |s| > 1 ==> s[0] != '0'
  {
    if n < 10 then [DigitChar(n)]
    else
      var s := NatToString(n / 10) + [DigitChar(n % 10)];
      assert s[..|s| - 1] == NatToString(n / 10);
      s
  }

  /** `%d` / `%v` of an int. */
  function IntToString(i: int): string
  {
    if i < 0 then "-" + NatToString(-i) else NatToString(i)
  }

  /** Different numbers print differently. */
  lemma NatToStringInjective(m: nat, n: nat)
    requires NatToString(m) == NatToString(n)
    ensures m == n
  {
  }

  /**
   * strconv.Atoi: an optional `+` or `-`, then at least one decimal digit,
   * and a value that fits in 64 bits; anything else is an error (None).
   */
  function Atoi(s: string): (r: Option<int>)
    ensures r.Some? ==> MinInt64 <= r.value <= MaxInt64
    ensures r.Some? ==> |s| >= 1 && (IsDigit(s[0]) || s[0] == '+' || s[0] == '-')
  {
    var body := if |s| > 0 && (s[0] == '+' || s[0] == '-') then s[1..] else s;
    if body == [] || !AllDigits(body) then None
    else
      var v: int := if s[0] == '-' then -(DigitsValue(body) as int) else DigitsValue(body);
      if MinInt64 <= v <= MaxInt64 then Some(v) else None
  }

  /** A plain string of digits parses to its value. */
  lemma AtoiDigits(s: string)
    requires s != [] && AllDigits(s) && DigitsValue(s) <= MaxInt64
    ensures Atoi(s) == Some(DigitsValue(s) as int)
  {
    assert IsDigit(s[0]);
  }

  /** Atoi reads back every 64-bit int that `%d` prints. */
  lemma AtoiIntToString(i: int)
    requires MinInt64 <= i <= MaxInt64
    ensures Atoi(IntToString(i)) == Some(i)
  {
    var s := IntToString(i);
    if i < 0 {
      assert s[1..] == NatToString(-i);
    }
  }

  /**
   * The value left by strconv.ParseUint(s, 10, 8) when the digits from
   * position `i` on are read into the accumulated value `n`: a character
   * that is not a digit gives 0 (syntax error), and the first digit that
   * takes the value past 255 gives 255 (range error) at once.
   */
  function ParseUint8From(s: string, i: nat, n: nat): (r: nat)
    requires i <= |s| && n <= 255
    ensures r <= 255
    decreases |s| - i
  {
    if i == |s| then n
    else if !IsDigit(s[i]) then 0
    else if n * 10 + DigitValue(s[i]) > 255 then 255
    else ParseUint8From(s, i + 1, n * 10 + DigitValue(s[i]))
  }

  /**
   * The number strconv.ParseUint(s, 10, 8) returns, whether or not it also
   * returns an error: never more than 255.
   */
  function ParseUint8(s: string): (r: nat)
    ensures r <= 255
  {
    if s == [] then 0 else ParseUint8From(s, 0, 0)
  }

  lemma {:induction false} ParseUint8FromExact(s: string, i: nat)
    requires AllDigits(s) && i <= |s| && DigitsValue(s) <= 255
    ensures AllDigits(s[..i]) && DigitsValue(s[..i]) <= 255
    ensures ParseUint8From(s, i, DigitsValue(s[..i])) == DigitsValue(s)
    decreases |s| - i
  {
    DigitsValuePrefix(s, i);
    if i < |s| {
      DigitsValuePrefix(s, i + 1);
      assert s[..i + 1][..i] == s[..i];
      ParseUint8FromExact(s, i + 1);
    } else {
      assert s[..i] == s;
    }
  }

  /** A well-formed index of at most 255 parses to its value. */
  lemma ParseUint8Exact(s: string)
    requires s != [] && AllDigits(s) && DigitsValue(s) <= 255
    ensures ParseUint8(s) == DigitsValue(s)
  {
    ParseUint8FromExact(s, 0);
    assert s[..0] == [];
  }

  lemma {:induction false} ParseUint8FromSaturates(s: string, k: nat, i: nat)
    requires k <= |s| && AllDigits(s[..k]) && DigitsValue(s[..k]) > 255
    requires i <= k && AllDigits(s[..i]) && DigitsValue(s[..i]) <= 255
    ensures ParseUint8From(s, i, DigitsValue(s[..i])) == 255
    decreases k - i
  {
    assert i < k;
    assert s[..k][..i] == s[..i] && s[..k][..i + 1] == s[..i + 1];
    DigitsValuePrefix(s[..k], i + 1);
    assert s[..i + 1][..i] == s[..i];
    if DigitsValue(s[..i + 1]) <= 255 {
      ParseUint8FromSaturates(s, k, i + 1);
    }
  }

  /**
   * Once the digits read so far exceed 255 the result is 255, whatever
   * follows (so "256x" gives 255).
   */
  lemma ParseUint8Saturates(s: string, k: nat)
    requires k <= |s| && AllDigits(s[..k]) && DigitsValue(s[..k]) > 255
    ensures ParseUint8(s) == 255
  {
    assert s[..0] == [];
    ParseUint8FromSaturates(s, k, 0);
  }

  lemma {:induction false} ParseUint8FromSyntaxError(s: string, k: nat, i: nat)
    requires k < |s| && !IsDigit(s[k]) && AllDigits(s[..k]) && DigitsValue(s[..k]) <= 255
    requires i <= k
    ensures AllDigits(s[..i]) && DigitsValue(s[..i]) <= 255
    ensures ParseUint8From(s, i, DigitsValue(s[..i])) == 0
    decreases k - i
  {
    assert s[..k][..i] == s[..i];
    DigitsValuePrefix(s[..k], i);
    if i < k {
      assert s[..k][..i + 1] == s[..i + 1];
      DigitsValuePrefix(s[..k], i + 1);
      assert s[..i + 1][..i] == s[..i];
      ParseUint8FromSyntaxError(s, k, i + 1);
    }
  }

  /**
   * A character that is not a digit, reached before the value exceeds 255,
   * gives 0 (so "x" and "2x56" both give 0; "" gives 0 by ParseUint8's
   * own definition).
   */
  lemma ParseUint8SyntaxError(s: string, k: nat)
    requires k < |s| && !IsDigit(s[k]) && AllDigits(s[..k]) && DigitsValue(s[..k]) <= 255
    ensures ParseUint8(s) == 0
  {
    assert s[..0] == [];
    ParseUint8FromSyntaxError(s, k, 0);
  }
}
