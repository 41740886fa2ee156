/**
 * JavaScript `parseFloat` and `Number.isFinite`, read as exact decimal arithmetic over `real`:
 * the longest decimal literal at the start of the string (after leading `\s`) is its value,
 * and a string with no such literal is NaN, written `None`.
 */
module Numbers {
  import opened Wrappers
  import opened Text

  /**
   * The value of the digits after a decimal point: "25" stands for 0.25. Written digit by
   * digit, so that it is a sum of exact tenths.
   */
  function Fraction(d: string): real
    decreases |d|
  {
    if d == [] then 0.0 else (DigitValue(d[0]) as real + Fraction(d[1..])) / 10.0
  }

  /** `m * 10^e` for a signed exponent, one power of ten at a time. */
  function Scale(m: real, e: int): real
    decreases if e >= 0 then e else -e
  {
    if e == 0 then m else if e > 0 then Scale(m, e - 1) * 10.0 else Scale(m, e + 1) / 10.0
  }

  /** The value a literal with these integer digits, fraction digits and exponent denotes. */
  function Decimal(intDigits: string, fracDigits: string, exponent: int): real {
    Scale(DigitsValue(intDigits) as real + Fraction(fracDigits), exponent)
  }

  /** An exponent part `(e|E)[+-]?\d+` starting at `i`, with its signed value. */
  function ExponentAt(s: string, i: nat): Option<int>
    requires i <= |s|
  {
    if i < |s| && (s[i] == 'e' || s[i] == 'E') then
      var signed := i + 1 < |s| && (s[i + 1] == '+' || s[i + 1] == '-');
      var j := if signed then i + 2 else i + 1;
      var k := DigitRunEnd(s, j);
      if k == j then None
      else
        var v := DigitsValue(s[j..k]) as int;
        Some(if signed && s[i + 1] == '-' then -v else v)
    else None
  }

  /**
   * `parseFloat(s)`, with `None` for NaN. Leading `\s` is skipped, then an optional sign, the
   * integer digits, an optional point and fraction digits (at least one digit in all), and an
   * optional exponent; anything after the longest such prefix is ignored. The words
   * "Infinity" are not recognised: every caller lowercases its input first, and
   * `parseFloat("infinity")` is NaN.
   */
  function ParseFloat(s: string): (r: Option<real>)
    ensures SemDigitos(s) ==> r.None?
  {
    var i := SpaceRunEnd(s, 0);
    var signed := i < |s| && (s[i] == '+' || s[i] == '-');
    var j := if signed then i + 1 else i;
    MagnitudeSemDigitos(s, j);
    match Magnitude(s, j)
    case None => None
    case Some(v) => Some(if signed && s[i] == '-' then -v else v)
  }

  /** The unsigned literal starting at `j`: integer digits, an optional fraction, an exponent. */
  function Magnitude(s: string, j: nat): Option<real>
    requires j <= |s|
  {
    var e := DigitRunEnd(s, j);
    var dot := e < |s| && s[e] == '.';
    var f := if dot then DigitRunEnd(s, e + 1) else e;
    var intDigits := s[j..e];
    var fracDigits := if dot then s[e + 1..f] else "";
    if intDigits == [] && fracDigits == [] then None
    else Some(Decimal(intDigits, fracDigits, ExponentAt(s, f).GetOr(0)))
  }

  lemma {:induction false} FractionNaoNegativa(d: string)
    decreases |d|
    ensures Fraction(d) >= 0.0
  {
    if d != [] {
      FractionNaoNegativa(d[1..]);
    }
  }

  lemma {:induction false} ScaleNaoNegativa(m: real, e: int)
    requires m >= 0.0
    decreases if e >= 0 then e else -e
    ensures Scale(m, e) >= 0.0
  {
    if e > 0 {
      ScaleNaoNegativa(m, e - 1);
    } else if e < 0 {
      ScaleNaoNegativa(m, e + 1);
    }
  }

  /** Text without a minus sign never reads as a negative number. */
  lemma ParseFloatSemSinal(s: string)
    requires forall k :: 0 <= k < |s| ==> s[k] != '-'
    ensures ParseFloat(s).Some? ==> ParseFloat(s).value >= 0.0
  {
    var i := SpaceRunEnd(s, 0);
    var signed := i < |s| && (s[i] == '+' || s[i] == '-');
    assert !(signed && s[i] == '-');
    MagnitudeNaoNegativa(s, if signed then i + 1 else i);
  }

  lemma MagnitudeNaoNegativa(s: string, j: nat)
    requires j <= |s|
    ensures Magnitude(s, j).Some? ==> Magnitude(s, j).value >= 0.0
  {
    var e := DigitRunEnd(s, j);
    var dot := e < |s| && s[e] == '.';
    var f := if dot then DigitRunEnd(s, e + 1) else e;
    var intDigits := s[j..e];
    var fracDigits := if dot then s[e + 1..f] else "";
    DecimalNaoNegativo(intDigits, fracDigits, ExponentAt(s, f).GetOr(0));
  }

  lemma DecimalNaoNegativo(intDigits: string, fracDigits: string, exponent: int)
    ensures Decimal(intDigits, fracDigits, exponent) >= 0.0
  {
    FractionNaoNegativa(fracDigits);
    ScaleNaoNegativa(DigitsValue(intDigits) as real + Fraction(fracDigits), exponent);
  }

  /** A character that can continue a decimal literal after its integer digits. */
  predicate ContinuesNumber(c: char) {
    IsDigit(c) || c == '.' || c == 'e' || c == 'E'
  }

  /** `s` starts with a digit: no space is skipped and there is no sign. */
  lemma ComecaComDigito(s: string)
    requires s != [] && IsDigit(s[0])
    ensures SpaceRunEnd(s, 0) == 0
  {
    RunEndIs(s, 0, 0, IsSpace);
  }

  /** A string made of `n` digits and then something that cannot continue a number. */
  lemma ParseFloatInteiro(s: string, n: nat)
    requires 0 < n <= |s| && AllDigits(s[0..n])
    requires n == |s| || !ContinuesNumber(s[n])
    ensures ParseFloat(s) == Some(DigitsValue(s[0..n]) as real)
  {
    forall k | 0 <= k < n ensures IsDigit(s[k]) {
      assert s[k] == s[0..n][k];
    }
    ComecaComDigito(s);
    RunEndIs(s, 0, n, IsDigit);
    assert ExponentAt(s, n) == None;
    assert ParseFloat(s) == Some(Decimal(s[0..n], "", 0));
    assert Fraction("") == 0.0;
  }

  /** Where the scans of `parseFloat` stop on `n` digits, a point, and digits up to the end. */
  lemma LimitesFracionario(s: string, n: nat)
    requires 0 < n < |s| && AllDigits(s[0..n]) && s[n] == '.' && AllDigits(s[n + 1..])
    ensures SpaceRunEnd(s, 0) == 0 && DigitRunEnd(s, 0) == n && DigitRunEnd(s, n + 1) == |s|
  {
    forall k | 0 <= k < n ensures IsDigit(s[k]) {
      assert s[k] == s[0..n][k];
    }
    forall k | n < k < |s| ensures IsDigit(s[k]) {
      assert s[k] == s[n + 1..][k - n - 1];
    }
    ComecaComDigito(s);
    RunEndIs(s, 0, n, IsDigit);
    RunEndIs(s, n + 1, |s|, IsDigit);
  }

  /** A string made of `n` digits, a point, and digits up to its end. */
  lemma ParseFloatFracionario(s: string, n: nat)
    requires 0 < n < |s| && AllDigits(s[0..n]) && s[n] == '.' && AllDigits(s[n + 1..])
    ensures ParseFloat(s) == Some(DigitsValue(s[0..n]) as real + Fraction(s[n + 1..]))
  {
    LimitesFracionario(s, n);
    assert s[0] != '+' && s[0] != '-' by {
      assert s[0] == s[0..n][0];
    }
    assert ExponentAt(s, |s|) == None;
    assert s[n + 1..|s|] == s[n + 1..];
  }

  /** A run of digits followed by something that is not part of a number reads as its value. */
  lemma ParseFloatDigits(d: string, rest: string)
    requires d != [] && AllDigits(d)
    requires rest == [] || !ContinuesNumber(rest[0])
    ensures ParseFloat(d + rest) == Some(DigitsValue(d) as real)
  {
    assert (d + rest)[0..|d|] == d;
    ParseFloatInteiro(d + rest, |d|);
  }

  /** Text with no digit from `j` on holds no literal there. */
  lemma MagnitudeSemDigitos(s: string, j: nat)
    requires j <= |s|
    ensures (forall k :: j <= k < |s| ==> !IsDigit(s[k])) ==> Magnitude(s, j) == None
  {
    if forall k :: j <= k < |s| ==> !IsDigit(s[k]) {
      assert DigitRunEnd(s, j) == j;
      if j < |s| && s[j] == '.' {
        assert DigitRunEnd(s, j + 1) == j + 1;
      }
    }
  }
}
