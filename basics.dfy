// Shared vocabulary of the model: optional values, the host exceptions the
// interpreter raises, and the decimal rendering and parsing of numbers that
// `show` (lox/runtime.py) and `NUMBER` (lox/transformer.py) rely on.
module Basics {

  datatype Option<T> = None | Some(value: T)

  /** The exception classes the Python interpreter raises. The last two never
      come from the source: HostCall marks a call into host code (a builtin)
      that the model does not follow, and NoFreshContext is produced only by
      the specification in Semantics when its supply of fresh contexts does
      not match the run. */
  datatype ErrorKind =
    | LoxError        // runtime.LoxError
    | NameError
    | KeyError
    | TypeError
    | ValueError
    | RuntimeError
    | AttributeError
    | RecursionError  // the host's recursion limit
    | HostCall
    | NoFreshContext

  datatype Error = Error(kind: ErrorKind, message: string)

  /** A value or the exception raised while computing it. */
  datatype Result<T> = Ok(value: T) | Err(error: Error)

  /** A computation with no value of its own that may raise. */
  datatype Outcome = Pass | Fail(error: Error)

  /** The elements of `s` in the opposite order. */
  function Reverse<T>(s: seq<T>): (r: seq<T>)
    ensures |r| == |s|
    ensures forall k :: 0 <= k < |s| ==> r[k] == s[|s| - 1 - k]
  {
    if |s| == 0 then [] else Reverse(s[1..]) + [s[0]]
  }

  // ---------------------------------------------------------------------
  // Decimal digits

  predicate IsDigit(c: char) { '0' <= c <= '9' }

  function DigitChar(d: nat): (c: char)
    requires d < 10
    ensures IsDigit(c) && c as int - '0' as int == d
  {
    "0123456789"[d]
  }

  function DigitValue(c: char): (d: nat)
    requires IsDigit(c)
    ensures d < 10
  {
    c as int - '0' as int
  }

  /** The decimal numeral of `n`, as Python's `str(int)` writes it. */
  function NatToString(n: nat): (s: string)
    ensures |s| >= 1
    ensures forall i :: 0 <= i < |s| ==> IsDigit(s[i])
    ensures s[0] == '0' ==> n == 0 && |s| == 1
  {
    if n < 10 then [DigitChar(n)] else NatToString(n / 10) + [DigitChar(n % 10)]
  }

  function IntToString(i: int): (s: string)
    ensures |s| >= 1
    ensures s[0] == '-' <==> i < 0
  {
    if i < 0 then "-" + NatToString(-i) else NatToString(i)
  }

  /** The natural number a non-empty string of decimal digits denotes. */
  function ParseNat(s: string): (r: Option<nat>)
    ensures r.Some? <==> |s| >= 1 && forall i :: 0 <= i < |s| ==> IsDigit(s[i])
  {
    if |s| == 0 || !IsDigit(s[|s| - 1]) then None
    else if |s| == 1 then Some(DigitValue(s[0]))
    else match ParseNat(s[..|s| - 1])
      case None => None
      case Some(p) => Some(p * 10 + DigitValue(s[|s| - 1]))
  }

  function ParseInt(s: string): (r: Option<int>)
  {
    if |s| >= 1 && s[0] == '-' then
      match ParseNat(s[1..])
      case None => None
      case Some(n) => Some(0 - n)
    else
      match ParseNat(s)
      case None => None
      case Some(n) => Some(n as int)
  }

  lemma {:induction false} ParseNatToString(n: nat)
    ensures ParseNat(NatToString(n)) == Some(n)
  {
    var s := NatToString(n);
    if n < 10 {
      assert s == [DigitChar(n)];
      assert DigitValue(s[0]) == n;
    } else {
      var prefix := NatToString(n / 10);
      var last := DigitChar(n % 10);
      assert s == prefix + [last];
      assert s[..|s| - 1] == prefix && s[|s| - 1] == last;
      assert DigitValue(last) == n % 10;
      ParseNatToString(n / 10);
    }
  }

  /** Rendering an integer and reading it back gives the integer. */
  lemma {:induction false} IntToStringRoundTrip(i: int)
    ensures ParseInt(IntToString(i)) == Some(i)
  {
    if i < 0 {
      ParseNatToString(-i);
      ParseIntSigned(NatToString(-i), -i);
    } else {
      ParseNatToString(i);
      ParseIntUnsigned(NatToString(i), i);
    }
  }

  lemma ParseIntSigned(digits: string, n: nat)
    requires ParseNat(digits) == Some(n)
    ensures ParseInt("-" + digits) == Some(-(n as int))
  {
    assert ("-" + digits)[1..] == digits;
  }

  lemma ParseIntUnsigned(digits: string, n: nat)
    requires ParseNat(digits) == Some(n)
    ensures ParseInt(digits) == Some(n)
  {
    assert IsDigit(digits[0]);
  }

  function Pow10(k: nat): (p: nat)
    ensures p >= 1
  {
    if k == 0 then 1 else 10 * Pow10(k - 1)
  }

  /** Writing the digits of `b` after those of `a` multiplies the value of
      `a` by ten for each digit of `b` and adds the value of `b`. */
  lemma {:induction false} ParseNatAppend(a: string, b: string)
    requires ParseNat(a).Some? && ParseNat(b).Some?
    ensures ParseNat(a + b) == Some(ParseNat(a).value * Pow10(|b|) + ParseNat(b).value)
  {
    var s := a + b;
    if |b| == 1 {
      assert s[..|s| - 1] == a && s[|s| - 1] == b[0];
    } else {
      var init := b[..|b| - 1];
      assert s[..|s| - 1] == a + init && s[|s| - 1] == b[|b| - 1];
      assert ParseNat(init).Some? by {
        assert forall i :: 0 <= i < |init| ==> init[i] == b[i];
      }
      ParseNatAppend(a, init);
      ShiftDigit(ParseNat(a).value, Pow10(|init|), ParseNat(init).value, DigitValue(b[|b| - 1]));
    }
  }

  lemma ShiftDigit(x: nat, q: nat, y: nat, last: nat)
    ensures (x * q + y) * 10 + last == x * (10 * q) + (y * 10 + last)
  {
  }

  /** Index of the first '.' in `s`, or |s| when there is none. */
  function DotIndex(s: string): (i: nat)
    ensures i <= |s|
    ensures forall j :: 0 <= j < i ==> s[j] != '.'
    ensures i < |s| ==> s[i] == '.'
  {
    if |s| == 0 then 0 else if s[0] == '.' then 0 else 1 + DotIndex(s[1..])
  }

  /** The value of a number token of the form `digits` or `digits.digits`.
      Anything else is refused, as Python's `float()` refuses text that is
      not a number. */
  function ParseDecimal(s: string): (r: Option<real>)
    ensures (forall i :: 0 <= i < |s| ==> s[i] != '.') ==>
              (r.Some? <==> ParseNat(s).Some?) && (r.Some? ==> r.value == ParseNat(s).value as real)
    ensures DotIndex(s) < |s| ==>
              (r.Some? <==> ParseNat(s[..DotIndex(s)]).Some? && ParseNat(s[DotIndex(s) + 1..]).Some?)
  {
    var d := DotIndex(s);
    if d == |s| then
      match ParseNat(s)
      case None => None
      case Some(n) => Some(n as real)
    else
      var whole, fraction := s[..d], s[d + 1..];
      if ParseNat(whole).Some? && ParseNat(fraction).Some? then
        var w, f := ParseNat(whole).value, ParseNat(fraction).value;
        Some(w as real + f as real / Pow10(|fraction|) as real)
      else None
  }

  /** A number token `w.f` with `k` digits after the dot is the natural
      number `wf` divided by ten to the `k`. */
  lemma {:induction false} DecimalPointValue(s: string)
    requires DotIndex(s) < |s| && ParseDecimal(s).Some?
    ensures ParseNat(s[..DotIndex(s)] + s[DotIndex(s) + 1..]).Some?
    ensures ParseDecimal(s) ==
            Some(ParseNat(s[..DotIndex(s)] + s[DotIndex(s) + 1..]).value as real / Pow10(|s| - DotIndex(s) - 1) as real)
  {
    var d := DotIndex(s);
    var whole, fraction := s[..d], s[d + 1..];
    var w, f, p := ParseNat(whole).value, ParseNat(fraction).value, Pow10(|fraction|);
    var x := ParseDecimal(s).value;
    assert x == w as real + f as real / p as real;
    assert p == Pow10(|s| - d - 1);
    var n := w * p + f;
    assert ParseNat(s[..d] + s[d + 1..]) == Some(n) by {
      ParseNatAppend(whole, fraction);
    }
    DecimalScale(x, w, p, f);
  }

  lemma ScaleBack(x: real, y: real, p: real)
    requires p > 0.0
    ensures (x + y / p) * p == x * p + y
  {
  }

  lemma CastMul(a: nat, b: nat)
    ensures (a * b) as real == a as real * b as real
  {
  }

  /** `w.f` scaled back by the place value `p` of the fraction's last digit. */
  lemma DecimalScale(x: real, w: nat, p: nat, f: nat)
    requires p >= 1 && x == w as real + f as real / p as real
    ensures x == (w * p + f) as real / p as real
  {
    CastMul(w, p);
    ScaleBack(w as real, f as real, p as real);
  }

  /** A decimal numeral is read back as the number it renders. */
  lemma NatToStringIsDecimal(n: nat)
    ensures ParseDecimal(NatToString(n)) == Some(n as real)
  {
    ParseNatToString(n);
  }
}
