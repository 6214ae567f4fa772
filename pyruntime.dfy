/**
 * The few pieces of Python's runtime the training script leans on:
 * list indexing with negative indices, `os.path.join` (POSIX), `str` of an
 * int and `int` of a string.
 */
module PyRuntime {
  import opened Wrappers

  function Min(a: int, b: int): int { if a <= b then a else b }

  /** `s[i]` in Python: a negative index counts from the end; anything else is an IndexError. */
  function PyIndex<T>(s: seq<T>, i: int): (r: Option<T>)
    ensures r.Some? <==> -|s| <= i < |s|
    ensures r.Some? ==> r.value in s
  {
    if 0 <= i < |s| then Some(s[i])
    else if -|s| <= i < 0 then Some(s[|s| + i])
    else None
  }

  /** `s[k:]` in Python for k >= 0: empty when k is past the end. */
  function SliceFrom(s: string, k: nat): (r: string)
    ensures k <= |s| ==> s == s[..k] + r
    ensures k >= |s| ==> r == ""
  {
    if k <= |s| then s[k..] else ""
  }

  /** `os.path.join(a, b)` for two components on POSIX. */
  function JoinPath(a: string, b: string): (r: string)
    ensures |b| > 0 && b[0] == '/' ==> r == b
    ensures !(|b| > 0 && b[0] == '/') ==> |r| >= |a| + |b| && r[..|a|] == a && r[|r| - |b|..] == b
    ensures !(|b| > 0 && b[0] == '/') && (a == "" || a[|a| - 1] == '/') ==> |r| == |a| + |b|
    ensures !(|b| > 0 && b[0] == '/') && a != "" && a[|a| - 1] != '/' ==> |r| == |a| + |b| + 1 && r[|a|] == '/'
  {
    if |b| > 0 && b[0] == '/' then b
    else if a == "" || a[|a| - 1] == '/' then a + b
    else a + "/" + b
  }

  predicate IsDigit(c: char) { '0' <= c <= '9' }

  predicate AllDigits(s: string) { forall i :: 0 <= i < |s| ==> IsDigit(s[i]) }

  /** The strings `int()` accepts here: an optional sign followed by at least one ASCII digit. */
  predicate IsDecimal(s: string)
  {
    if |s| > 0 && (s[0] == '+' || s[0] == '-') then |s| > 1 && AllDigits(s[1..])
    else |s| > 0 && AllDigits(s)
  }

  function DigitChar(d: nat): char
    requires d < 10
  {
    ['0', '1', '2', '3', '4', '5', '6', '7', '8', '9'][d]
  }

  /** Decimal digits of `n`, most significant first, without leading zeros. */
  function NatToString(n: nat): (r: string)
    ensures |r| > 0 && AllDigits(r)
    ensures r[0] == '0' ==> n == 0
    decreases n
  {
    if n < 10 then [DigitChar(n)] else NatToString(n / 10) + [DigitChar(n % 10)]
  }

  /** `str(n)` for an int. */
  function IntToString(n: int): (r: string)
    ensures |r| > 0
    ensures r[0] == '-' <==> n < 0
    ensures n >= 0 ==> AllDigits(r)
  {
    if n < 0 then "-" + NatToString(-n) else NatToString(n)
  }

  /** Value of a run of decimal digits, as `int()` reads it (leading zeros allowed). */
  function DigitsValue(s: string): nat
    requires AllDigits(s)
  {
    if s == [] then 0
    else DigitsValue(s[..|s| - 1]) * 10 + (s[|s| - 1] as int - '0' as int)
  }

  /** `int(s)`: a ValueError unless `s` is an optionally signed run of digits. */
  function ParseInt(s: string): (r: Result<int, PyError>)
    ensures r.Success? <==> IsDecimal(s)
    ensures r.Failure? ==> r.error == ValueError
    ensures r.Success? && |s| > 0 && s[0] != '-' ==> r.value >= 0
  {
    if |s| > 0 && s[0] == '-' then
      if |s| > 1 && AllDigits(s[1..]) then Success(0 - DigitsValue(s[1..]) as int) else Failure(ValueError)
    else if |s| > 0 && s[0] == '+' then
      if |s| > 1 && AllDigits(s[1..]) then Success(DigitsValue(s[1..])) else Failure(ValueError)
    else if |s| > 0 && AllDigits(s) then Success(DigitsValue(s))
    else Failure(ValueError)
  }

  lemma {:induction false} DigitsValueOfNatToString(n: nat)
    ensures DigitsValue(NatToString(n)) == n
    decreases n
  {
    var s := NatToString(n);
    if n >= 10 {
      DigitsValueOfNatToString(n / 10);
      assert s[..|s| - 1] == NatToString(n / 10);
    }
  }

  /** `int(str(n)) == n` for every int. */
  lemma ParseIntRoundTrip(n: int)
    ensures ParseInt(IntToString(n)) == Success(n)
  {
    if n < 0 {
      var t := NatToString(-n);
      var s := "-" + t;
      assert s[0] == '-' && s[1..] == t;
      DigitsValueOfNatToString(-n);
      assert ParseInt(s) == Success(0 - DigitsValue(t) as int);
    } else {
      var t := NatToString(n);
      assert t[0] != '-' && t[0] != '+' by { assert IsDigit(t[0]); }
      DigitsValueOfNatToString(n);
      assert ParseInt(t) == Success(DigitsValue(t));
    }
  }
}
