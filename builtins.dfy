/** The few pieces of Python's runtime that the prediction pipeline leans on:
    the values a decoded request body may hold, the exceptions the pipeline can
    raise, `str.lower()`, the substring test `in`, and the `int()` / `float()`
    coercions applied to request fields. */
module Builtins {
  import opened Wrappers

  /** A value as it arrives in a decoded request body. `VOther` stands for a
      list or an object: neither coerces to a number nor has `lower()`. */
  datatype Value =
    | VInt(i: int)
    | VFloat(x: real)
    | VStr(s: string)
    | VBool(b: bool)
    | VNull
    | VOther

  /** Why a `ValueError` was raised. */
  datatype ValueReason =
    | ModelUnavailable        // `predict_risk` found no trained or saved model
    | InvalidLiteral(text: string)  // `int()` / `float()` of a string that is not a number

  /** The exception classes the pipeline can raise; the web layer maps them by class. */
  datatype PyError = ValueError(reason: ValueReason) | TypeError | AttributeError

  // ---------------------------------------------------------------------------
  // str.lower() and `sub in s`
  // ---------------------------------------------------------------------------

  predicate IsUpper(c: char) {
    'A' <= c <= 'Z'
  }

  /** Lower-cases one ASCII letter; every other character is left as it is. */
  function LowerChar(c: char): (r: char)
    ensures !IsUpper(r)
    ensures IsUpper(c) ==> r as int - c as int == 'a' as int - 'A' as int
    ensures !IsUpper(c) ==> r == c
  {
    if IsUpper(c) then (c as int - 'A' as int + 'a' as int) as char else c
  }

  /** `s.lower()` on ASCII text. */
  function Lower(s: string): (r: string)
    ensures |r| == |s|
    ensures forall i :: 0 <= i < |s| ==> r[i] == LowerChar(s[i])
  {
    seq(|s|, i requires 0 <= i < |s| => LowerChar(s[i]))
  }

  lemma LowerIdempotent(s: string)
    ensures Lower(Lower(s)) == Lower(s)
  {
    var once := Lower(s);
    assert forall i :: 0 <= i < |once| ==> !IsUpper(once[i]);
  }

  predicate StartsWith(s: string, prefix: string) {
    |prefix| <= |s| && s[..|prefix|] == prefix
  }

  /** Python's `sub in s` for strings, scanning start positions left to right. */
  predicate Contains(s: string, sub: string)
    decreases |s|
  {
    StartsWith(s, sub) || (|s| > 0 && Contains(s[1..], sub))
  }

  /** `sub` occurs in `s` starting at position `i`. */
  predicate OccursAt(s: string, sub: string, i: int) {
    0 <= i && i + |sub| <= |s| && s[i..i + |sub|] == sub
  }

  /** The scan finds `sub` exactly when it occurs at some position of `s`. */
  lemma ContainsIff(s: string, sub: string)
    ensures Contains(s, sub) <==> exists i :: OccursAt(s, sub, i)
  {
    if Contains(s, sub) {
      var i := ContainsWitness(s, sub);
    }
    forall i | OccursAt(s, sub, i)
      ensures Contains(s, sub)
    {
      ContainsSlice(s, i, sub);
    }
  }

  /** Where the scan succeeds, it has found an occurrence. */
  lemma {:induction false} ContainsWitness(s: string, sub: string) returns (i: nat)
    requires Contains(s, sub)
    ensures OccursAt(s, sub, i)
    decreases |s|
  {
    if StartsWith(s, sub) {
      i := 0;
    } else {
      var j := ContainsWitness(s[1..], sub);
      assert s[j + 1..j + 1 + |sub|] == s[1..][j..j + |sub|];
      i := j + 1;
    }
  }

  /** A string contains every one of its substrings. */
  lemma {:induction false} ContainsSlice(s: string, i: nat, sub: string)
    requires OccursAt(s, sub, i)
    ensures Contains(s, sub)
    decreases i
  {
    if i == 0 {
      assert s[..|sub|] == s[0..0 + |sub|];
    } else {
      var rest := s[1..];
      assert rest[i - 1..i - 1 + |sub|] == s[i..i + |sub|];
      ContainsSlice(rest, i - 1, sub);
    }
  }

  /** Every character of a contained substring occurs in the string. */
  lemma ContainedCharOccurs(s: string, sub: string, k: nat)
    requires Contains(s, sub) && k < |sub|
    ensures sub[k] in s
  {
    var i := ContainsWitness(s, sub);
    assert s[i..i + |sub|][k] == s[i + k];
  }

  /** A character of `sub` that never occurs in `s` rules the substring out. */
  lemma MissingCharNotContained(s: string, sub: string, k: nat)
    requires k < |sub| && sub[k] !in s
    ensures !Contains(s, sub)
  {
    if Contains(s, sub) {
      ContainedCharOccurs(s, sub, k);
    }
  }

  // ---------------------------------------------------------------------------
  // Decimal literals
  // ---------------------------------------------------------------------------

  predicate IsDigit(c: char) {
    '0' <= c <= '9'
  }

  predicate AllDigits(s: string) {
    forall i :: 0 <= i < |s| ==> IsDigit(s[i])
  }

  function DigitValue(c: char): (d: nat)
    requires IsDigit(c)
    ensures d < 10
  {
    c as int - '0' as int
  }

  function DigitChar(d: nat): (c: char)
    requires d < 10
    ensures IsDigit(c) && DigitValue(c) == d
  {
    ('0' as int + d) as char
  }

  /** The number a run of decimal digits denotes. */
  function DigitsValue(s: string): nat
    requires AllDigits(s)
    decreases |s|
  {
    if s == [] then 0 else DigitsValue(s[..|s| - 1]) * 10 + DigitValue(s[|s| - 1])
  }

  function Pow10(n: nat): (p: nat)
    ensures p >= 1
  {
    if n == 0 then 1 else 10 * Pow10(n - 1)
  }

  /** `str(n)` for a natural number. */
  function ShowNat(n: nat): (r: string)
    ensures |r| > 0 && AllDigits(r)
  {
    if n < 10 then [DigitChar(n)] else ShowNat(n / 10) + [DigitChar(n % 10)]
  }

  /** `str(n)` for an integer. */
  function ShowInt(n: int): string {
    if n < 0 then "-" + ShowNat(-n) else ShowNat(n)
  }

  lemma {:induction false} DigitsValueShowNat(n: nat)
    ensures DigitsValue(ShowNat(n)) == n
  {
    if n >= 10 {
      var front := ShowNat(n / 10);
      var s := front + [DigitChar(n % 10)];
      assert s[..|s| - 1] == front;
      DigitsValueShowNat(n / 10);
    }
  }

  /** Splits an optional leading sign off a literal. */
  function SplitSign(s: string): (bool, string) {
    if |s| > 0 && (s[0] == '+' || s[0] == '-') then (s[0] == '-', s[1..]) else (false, s)
  }

  /** `int(s)` for a string: an optional sign followed by at least one digit. */
  function ParseInt(s: string): Option<int> {
    var (negative, body) := SplitSign(s);
    if |body| > 0 && AllDigits(body) then
      var magnitude: int := DigitsValue(body);
      Some(if negative then -magnitude else magnitude)
    else
      None
  }

  /** `int(str(n)) == n`. */
  lemma ParseIntShowInt(n: int)
    ensures ParseInt(ShowInt(n)) == Some(n)
  {
    var s := ShowInt(n);
    if n < 0 {
      var digits := ShowNat(-n);
      assert s == "-" + digits;
      assert s[1..] == digits;
      assert SplitSign(s) == (true, digits);
      DigitsValueShowNat(-n);
    } else {
      assert IsDigit(s[0]);
      assert SplitSign(s) == (false, s);
      DigitsValueShowNat(n);
    }
  }

  /** Position of the first `c` in `s`, if any. */
  function Find(s: string, c: char): (r: Option<nat>)
    ensures r.Some? ==> r.value < |s| && s[r.value] == c && c !in s[..r.value]
    ensures r.None? ==> c !in s
  {
    if |s| == 0 then None
    else if s[0] == c then Some(0)
    else match Find(s[1..], c)
      case None => None
      case Some(k) => assert s[..k + 1] == [s[0]] + s[1..][..k]; Some(k + 1)
  }

  /** The value of an unsigned decimal: digits, optionally a point and more digits,
      with at least one digit in all. */
  function UnsignedDecimal(body: string): Option<real> {
    match Find(body, '.')
    case None =>
      if |body| > 0 && AllDigits(body) then Some(DigitsValue(body) as real) else None
    case Some(k) =>
      var whole, fraction := body[..k], body[k + 1..];
      if |whole| + |fraction| > 0 && AllDigits(whole) && AllDigits(fraction) then
        Some(DigitsValue(whole) as real + DigitsValue(fraction) as real / Pow10(|fraction|) as real)
      else
        None
  }

  /** `float(s)` for a string in plain decimal notation. */
  function ParseFloat(s: string): Option<real> {
    var (negative, body) := SplitSign(s);
    match UnsignedDecimal(body)
    case None => None
    case Some(x) => Some(if negative then -x else x)
  }

  /** An integer literal means the same number to `float()` as to `int()`. */
  lemma FloatOfIntLiteral(s: string, n: int)
    requires ParseInt(s) == Some(n)
    ensures ParseFloat(s) == Some(n as real)
  {
    var (negative, body) := SplitSign(s);
    assert forall k :: 0 <= k < |body| ==> body[k] != '.';
    assert Find(body, '.').None?;
  }

  // ---------------------------------------------------------------------------
  // int() and float() of a request value
  // ---------------------------------------------------------------------------

  /** `int(x)` truncates a float toward zero. */
  function Trunc(x: real): (n: int)
    ensures 0.0 <= x ==> n as real <= x < n as real + 1.0
    ensures x < 0.0 ==> n as real - 1.0 < x <= n as real
  {
    if x >= 0.0 then x.Floor else -((-x).Floor)
  }

  /** Python's `int(v)`. */
  function IntOf(v: Value): (r: Result<int, PyError>)
    ensures r.Err? <==> v.VNull? || v.VOther? || (v.VStr? && ParseInt(v.s).None?)
    ensures r.Err? ==> (r.error.ValueError? <==> v.VStr?) && (r.error.ValueError? || r.error == TypeError)
    ensures v.VInt? ==> r == Ok(v.i)
    ensures v.VFloat? ==> r == Ok(Trunc(v.x))
    ensures v.VBool? ==> r == Ok(if v.b then 1 else 0)
    ensures v.VStr? && ParseInt(v.s).Some? ==> r == Ok(ParseInt(v.s).value)
  {
    match v
    case VInt(i) => Ok(i)
    case VFloat(x) => Ok(Trunc(x))
    case VBool(b) => Ok(if b then 1 else 0)
    case VStr(s) =>
      (match ParseInt(s)
       case Some(n) => Ok(n)
       case None => Err(ValueError(InvalidLiteral(s))))
    case VNull => Err(TypeError)
    case VOther => Err(TypeError)
  }

  /** Python's `float(v)`. */
  function FloatOf(v: Value): (r: Result<real, PyError>)
    ensures r.Err? <==> v.VNull? || v.VOther? || (v.VStr? && ParseFloat(v.s).None?)
    ensures r.Err? ==> (r.error.ValueError? <==> v.VStr?) && (r.error.ValueError? || r.error == TypeError)
    ensures v.VInt? ==> r == Ok(v.i as real)
    ensures v.VFloat? ==> r == Ok(v.x)
    ensures v.VBool? ==> r == Ok(if v.b then 1.0 else 0.0)
    ensures v.VStr? && ParseFloat(v.s).Some? ==> r == Ok(ParseFloat(v.s).value)
  {
    match v
    case VInt(i) => Ok(i as real)
    case VFloat(x) => Ok(x)
    case VBool(b) => Ok(if b then 1.0 else 0.0)
    case VStr(s) =>
      (match ParseFloat(s)
       case Some(x) => Ok(x)
       case None => Err(ValueError(InvalidLiteral(s))))
    case VNull => Err(TypeError)
    case VOther => Err(TypeError)
  }

  /** Every value `int()` accepts, `float()` accepts too, with the same number
      unless `int()` truncated a fraction away. */
  lemma FloatOfAcceptsIntOf(v: Value)
    requires IntOf(v).Ok?
    ensures FloatOf(v).Ok?
    ensures !v.VFloat? ==> FloatOf(v).value == IntOf(v).value as real
  {
    if v.VStr? {
      FloatOfIntLiteral(v.s, IntOf(v).value);
    }
  }
}
