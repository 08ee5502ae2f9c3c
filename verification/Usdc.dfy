/** Exact comparison of decimal USDC amounts (policy/usdc.go). */
module Usdc {
  import opened Results
  import opened Text

  const MAX_INT64: int := 0x7FFF_FFFF_FFFF_FFFF

  /** Two's-complement wrap-around of 64-bit arithmetic. */
  function Wrap64(x: int): int {
    if -MAX_INT64 - 1 <= x <= MAX_INT64 then x
    else (x + MAX_INT64 + 1) % (2 * MAX_INT64 + 2) - MAX_INT64 - 1
  }

  function Signed(neg: bool, magnitude: int): int {
    if neg then -magnitude else magnitude
  }

  function DigitPrefix(s: string): (p: string)
    ensures AllDigits(p)
  {
    if s != "" && IsDigit(s[0]) then [s[0]] + DigitPrefix(s[1..]) else ""
  }

  /** Scanning one `%d` into an int64: blanks, a sign, the longest run of digits; what follows is ignored. */
  function ScanInt(s: string): Option<int> {
    if s == "" || s[0] == '\n' then None
    else if IsSpace(s[0]) then ScanInt(s[1..])
    else
      var signed := s[0] == '-' || s[0] == '+';
      var digits := DigitPrefix(if signed then s[1..] else s);
      if digits == "" then None
      else
        var v := Signed(s[0] == '-', DigitsValue(digits));
        if -MAX_INT64 - 1 <= v <= MAX_INT64 then Some(v) else None
  }

  function Zeros(n: nat): (z: string)
    ensures |z| == n && AllDigits(z) && DigitsValue(z) == 0
  {
    if n == 0 then "" else
      var z := Zeros(n - 1) + "0";
      assert z[..n - 1] == Zeros(n - 1);
      z
  }

  /** The first six places of a fraction, padded with zeros on the right. */
  function SixPlaces(frac: string): (six: string)
    ensures |six| == 6
    ensures AllDigits(frac) ==> AllDigits(six)
  {
    if |frac| < 6 then frac + Zeros(6 - |frac|) else frac[..6]
  }

  /** Whole units and millionths as one signed count, in 64-bit arithmetic. */
  function Total(neg: bool, whole: int, millionths: int): int {
    var total := Wrap64(whole * 1_000_000 + millionths);
    if neg then Wrap64(-total) else total
  }

  function Combine(neg: bool, whole: string, frac: string): Result<int, Error> {
    var w := ScanInt(if whole == "" then "0" else whole);
    var f := ScanInt(SixPlaces(frac));
    if w == None || f == None then Err(Invalid) else Ok(Total(neg, w.value, f.value))
  }

  /** The micro-unit count a decimal text stands for. */
  function Micros(text: string): Result<int, Error> {
    var t := Trim(text);
    var neg := t != "" && t[0] == '-';
    var parts := Cut(if neg then t[1..] else t, '.');
    Combine(neg, parts.0, parts.1)
  }

  /** The padding loop: zeros are appended until there are six places, then the rest is dropped. */
  method PadFraction(frac: string) returns (six: string)
    ensures six == SixPlaces(frac)
  {
    six := frac;
    while |six| < 6
      invariant |frac| <= |six| && six == frac + Zeros(|six| - |frac|)
      invariant |six| <= 6 || six == frac
    {
      six := six + "0";
      assert Zeros(|six| - |frac|) == Zeros(|six| - 1 - |frac|) + "0";
    }
    if |six| > 6 {
      six := six[..6];
    }
  }

  /** parseUSDCMicros. */
  method ParseMicros(text: string) returns (r: Result<int, Error>)
    ensures r == Micros(text)
  {
    var s := Trim(text);
    var neg := false;
    if s != "" && s[0] == '-' {
      neg := true;
      s := s[1..];
    }
    var parts := Cut(s, '.');
    var whole, frac := parts.0, parts.1;
    if whole == "" {
      whole := "0";
    }
    frac := PadFraction(frac);
    var wholeVal := ScanInt(whole);
    if wholeVal == None {
      return Err(Invalid);
    }
    var fracVal := ScanInt(frac);
    if fracVal == None {
      return Err(Invalid);
    }
    return Ok(Total(neg, wholeVal.value, fracVal.value));
  }

  function AtOrAbove(amount: string, threshold: string): Result<bool, Error> {
    var a, t := Micros(amount), Micros(threshold);
    if a.Ok? && t.Ok? then Ok(a.value >= t.value) else Err(Invalid)
  }

  function Above(amount: string, limit: string): Result<bool, Error> {
    var a, l := Micros(amount), Micros(limit);
    if a.Ok? && l.Ok? then Ok(a.value > l.value) else Err(Invalid)
  }

  // ----- well-formed decimals and the rationals they denote

  /** A decimal numeral; its value is +-Numerator / Pow10(|frac|). */
  datatype Decimal = Decimal(neg: bool, whole: string, frac: string) {
    /** Small enough for its micro-unit count to fit a 64-bit integer. */
    ghost predicate WellFormed() {
      AllDigits(whole) && AllDigits(frac) && DigitsValue(whole) <= MAX_INT64 / 1_000_000 - 1
    }

    function Numerator(): int
      requires AllDigits(whole) && AllDigits(frac)
    {
      DigitsValueConcat(whole, frac);
      Signed(neg, DigitsValue(whole + frac))
    }

    function Text(): string {
      (if neg then "-" else "") + whole + (if frac == "" then "" else "." + frac)
    }
  }

  lemma {:induction false} DigitPrefixAll(s: string)
    requires AllDigits(s)
    ensures DigitPrefix(s) == s
  {
    if s != "" {
      DigitPrefixAll(s[1..]);
    }
  }

  lemma {:induction false} ScanDigits(s: string)
    requires s != "" && AllDigits(s) && DigitsValue(s) <= MAX_INT64
    ensures ScanInt(s) == Some(DigitsValue(s))
  {
    DigitPrefixAll(s);
  }

  lemma {:induction false} CutDecimal(d: Decimal)
    requires AllDigits(d.whole) && AllDigits(d.frac)
    ensures var body := d.whole + (if d.frac == "" then "" else "." + d.frac);
            var c := Cut(body, '.'); c.0 == d.whole && c.1 == d.frac
  {
    var body := d.whole + (if d.frac == "" then "" else "." + d.frac);
    var (a, b, found) := Cut(body, '.');
    CutRejoins(body, '.');
    if d.frac == "" {
      assert body == d.whole && '.' !in body;
      assert found ==> '.' in a + ['.'] + b;
    } else {
      assert '.' in body;
      assert body == d.whole + ['.'] + d.frac;
      SplitUnique(a, d.whole, b, d.frac, '.');
    }
  }

  function Body(d: Decimal): string {
    d.whole + (if d.frac == "" then "" else "." + d.frac)
  }

  lemma {:induction false} TextShape(d: Decimal)
    requires AllDigits(d.whole) && AllDigits(d.frac)
    ensures d.Text() != "" ==> !IsSpace(d.Text()[0]) && !IsSpace(d.Text()[|d.Text()| - 1])
    ensures d.Text() == (if d.neg then "-" else "") + Body(d)
    ensures d.neg ==> d.Text()[0] == '-' && d.Text()[1..] == Body(d)
    ensures Body(d) != "" ==> Body(d)[0] != '-'
  {
    if Body(d) != "" {
      assert Body(d)[0] == (if d.whole == "" then '.' else d.whole[0]);
      var last := if d.frac == "" then d.whole[|d.whole| - 1] else d.frac[|d.frac| - 1];
      assert Body(d)[|Body(d)| - 1] == last;
    }
  }

  lemma {:induction false} SixBound(frac: string)
    requires AllDigits(frac)
    ensures DigitsValue(SixPlaces(frac)) < 1_000_000
  {
    DigitsValueBound(SixPlaces(frac));
    Pow10Six();
  }

  lemma {:induction false} ScanParts(d: Decimal)
    requires d.WellFormed()
    ensures Combine(d.neg, d.whole, d.frac)
            == Ok(Total(d.neg, DigitsValue(d.whole), DigitsValue(SixPlaces(d.frac))))
  {
    SixBound(d.frac);
    ScanDigits(SixPlaces(d.frac));
    if d.whole == "" {
      assert "0"[..0] == "" && DigitsValue("0") == 0;
      ScanDigits("0");
    } else {
      ScanDigits(d.whole);
    }
  }

  lemma {:induction false} NoWrap(neg: bool, whole: nat, millionths: nat)
    requires whole <= MAX_INT64 / 1_000_000 - 1 && millionths < 1_000_000
    ensures var m := whole * 1_000_000 + millionths; Total(neg, whole, millionths) == Signed(neg, m)
  {
  }

  /** How many millionths a well-formed decimal amounts to, sign aside. */
  function Count(d: Decimal): nat
    requires AllDigits(d.whole) && AllDigits(d.frac)
  {
    DigitsValue(d.whole) * 1_000_000 + DigitsValue(SixPlaces(d.frac))
  }

  /** Trimming and cutting recover the pieces of a well-formed text. */
  lemma {:induction false} Pieces(d: Decimal, pre: string, post: string)
    requires d.WellFormed() && AllSpaces(pre) && AllSpaces(post)
    ensures Micros(pre + d.Text() + post) == Combine(d.neg, d.whole, d.frac)
  {
    var text := d.Text();
    TextShape(d);
    TrimPadded(pre, text, post);
    CutDecimal(d);
    assert (text != "" && text[0] == '-') == d.neg;
    assert (if d.neg then text[1..] else text) == Body(d);
  }

  lemma {:induction false} TotalPieces(d: Decimal)
    requires d.WellFormed()
    ensures Total(d.neg, DigitsValue(d.whole), DigitsValue(SixPlaces(d.frac)))
            == Signed(d.neg, Count(d))
  {
    SixBound(d.frac);
    NoWrap(d.neg, DigitsValue(d.whole), DigitsValue(SixPlaces(d.frac)));
  }

  lemma {:induction false} CombinePieces(d: Decimal)
    requires d.WellFormed()
    ensures Combine(d.neg, d.whole, d.frac) == Ok(Signed(d.neg, Count(d)))
  {
    ScanParts(d);
    TotalPieces(d);
  }

  /** The count on well-formed text, whatever blanks surround it. */
  lemma {:induction false} MicrosOf(d: Decimal, pre: string, post: string)
    requires d.WellFormed() && AllSpaces(pre) && AllSpaces(post)
    ensures Micros(pre + d.Text() + post) == Ok(Signed(d.neg, Count(d)))
  {
    Pieces(d, pre, post);
    CombinePieces(d);
  }

  /** SixPlaces is the fraction times 10^6, truncated; nothing is lost up to six places. */
  lemma {:induction false} SixPlacesTruncates(frac: string)
    requires AllDigits(frac)
    ensures var six := DigitsValue(SixPlaces(frac));
            && TruncatedQuotient(six, DigitsValue(frac) * 1_000_000, Pow10(|frac|))
            && (|frac| <= 6 ==> six * Pow10(|frac|) == DigitsValue(frac) * 1_000_000)
  {
    if |frac| < 6 {
      PaddedExact(frac);
    } else {
      CutTruncates(frac);
    }
  }

  lemma {:induction false} Pow10Six()
    ensures Pow10(6) == 1_000_000 && Pow10(0) == 1
  {
  }

  lemma {:induction false} PaddedValue(frac: string)
    requires AllDigits(frac) && |frac| < 6
    ensures DigitsValue(SixPlaces(frac)) == DigitsValue(frac) * Pow10(6 - |frac|)
  {
    DigitsValueConcat(frac, Zeros(6 - |frac|));
  }

  lemma {:induction false} PlacesMultiply(k: nat)
    requires k <= 6
    ensures Pow10(6 - k) * Pow10(k) == 1_000_000
  {
    Pow10Add(6 - k, k);
    Pow10Six();
  }

  lemma {:induction false} PaddedExact(frac: string)
    requires AllDigits(frac) && |frac| < 6
    ensures DigitsValue(SixPlaces(frac)) * Pow10(|frac|) == DigitsValue(frac) * 1_000_000
    ensures TruncatedQuotient(DigitsValue(SixPlaces(frac)), DigitsValue(frac) * 1_000_000, Pow10(|frac|))
  {
    PaddedValue(frac);
    PlacesMultiply(|frac|);
    PadScales(DigitsValue(SixPlaces(frac)), DigitsValue(frac), Pow10(6 - |frac|), Pow10(|frac|), 1_000_000);
  }

  lemma {:induction false} CutTruncates(frac: string)
    requires AllDigits(frac) && |frac| >= 6
    ensures |frac| == 6 ==> DigitsValue(SixPlaces(frac)) * Pow10(|frac|) == DigitsValue(frac) * 1_000_000
    ensures TruncatedQuotient(DigitsValue(SixPlaces(frac)), DigitsValue(frac) * 1_000_000, Pow10(|frac|))
  {
    var six, rest := frac[..6], frac[6..];
    assert frac == six + rest;
    DigitsValueConcat(six, rest);
    DigitsValueBound(rest);
    Pow10Add(6, |rest|);
    Pow10Six();
    TruncateTail(DigitsValue(six), DigitsValue(rest), Pow10(|rest|), 1_000_000);
    if |frac| == 6 {
      assert SixPlaces(frac) == frac;
    }
  }

  // Multiplication facts, one at a time.

  lemma {:induction false} PadScales(six: nat, v: nat, pad: nat, den: nat, u: nat)
    requires six == v * pad && pad * den == u && den > 0
    ensures six * den == v * u && TruncatedQuotient(six, v * u, den)
  {
    assert v * pad * den == v * (pad * den);
    assert (six + 1) * den == six * den + den;
  }

  lemma {:induction false} TruncateTail(s: nat, r: nat, p: nat, u: nat)
    requires r < p && u > 0
    ensures TruncatedQuotient(s, (s * p + r) * u, u * p)
  {
    assert (s * p + r) * u == s * p * u + r * u;
    assert s * (u * p) == s * p * u;
    assert (s + 1) * (u * p) == s * p * u + p * u;
    assert r * u < p * u;
    assert s * p * u >= 0;
  }

  /** Truncation of a whole part plus a fraction, with either sign. */
  lemma {:induction false} TruncateSum(neg: bool, w: nat, f: nat, six: nat, u: nat, q: nat)
    requires u > 0 && q > 0 && TruncatedQuotient(six, f * u, q)
    ensures var r := Signed(neg, w * u + six);
            var n := Signed(neg, w * q + f);
            && TruncatedQuotient(r, n * u, q)
            && (six * q == f * u ==> r * q == n * u)
  {
    var m, n := w * u + six, w * q + f;
    assert f * u >= 0;
    assert w * u * q == w * q * u >= 0;
    assert m * q == w * u * q + six * q;
    assert (m + 1) * q == w * u * q + (six + 1) * q;
    assert n * u == w * q * u + f * u;
    assert (-m) * q == -(m * q) && (0 - n) * u == -(n * u);
    assert (-m - 1) * q == -((m + 1) * q);
  }

  /** `m` is num / den rounded toward zero. */
  ghost predicate TruncatedQuotient(m: int, num: int, den: nat) {
    if num >= 0 then m * den <= num < (m + 1) * den else (m - 1) * den < num <= m * den
  }

  lemma {:induction false} CountTruncates(d: Decimal)
    requires d.WellFormed()
    ensures var r := Signed(d.neg, Count(d));
            && TruncatedQuotient(r, d.Numerator() * 1_000_000, Pow10(|d.frac|))
            && (|d.frac| <= 6 ==> r * Pow10(|d.frac|) == d.Numerator() * 1_000_000)
  {
    DigitsValueConcat(d.whole, d.frac);
    SixPlacesTruncates(d.frac);
    TruncateSum(d.neg, DigitsValue(d.whole), DigitsValue(d.frac), DigitsValue(SixPlaces(d.frac)),
                1_000_000, Pow10(|d.frac|));
  }

  /** Parsing a well-formed decimal gives its value times 10^6 truncated toward zero,
      and exactly its value times 10^6 when it has at most six fractional digits. */
  lemma {:induction false} ParseIsExact(d: Decimal, pre: string, post: string)
    requires d.WellFormed() && AllSpaces(pre) && AllSpaces(post)
    ensures var r := Micros(pre + d.Text() + post);
            && r.Ok?
            && TruncatedQuotient(r.value, d.Numerator() * 1_000_000, Pow10(|d.frac|))
            && (|d.frac| <= 6 ==> r.value * Pow10(|d.frac|) == d.Numerator() * 1_000_000)
  {
    MicrosOf(d, pre, post);
    CountTruncates(d);
  }

  /** `d` is how a count is printed: `whole` units, a point, and `millionths` in six places. */
  predicate Prints(d: Decimal, whole: nat, millionths: nat) {
    && AllDigits(d.whole) && AllDigits(d.frac)
    && DigitsValue(d.whole) == whole && |d.frac| == 6 && DigitsValue(d.frac) == millionths
  }

  lemma {:induction false} MicrosPlain(d: Decimal)
    requires d.WellFormed()
    ensures Micros(d.Text()) == Ok(Signed(d.neg, Count(d)))
  {
    MicrosOf(d, "", "");
    assert "" + d.Text() + "" == d.Text();
  }

  lemma {:induction false} PrintedCount(d: Decimal, whole: nat, millionths: nat)
    requires Prints(d, whole, millionths) && whole <= MAX_INT64 / 1_000_000 - 1
    ensures d.WellFormed() && Count(d) == whole * 1_000_000 + millionths
  {
    assert SixPlaces(d.frac) == d.frac;
  }

  lemma {:induction false} MicrosCounted(d: Decimal, m: nat)
    requires d.WellFormed() && Count(d) == m
    ensures Micros(d.Text()) == Ok(Signed(d.neg, m))
  {
    MicrosPlain(d);
  }

  lemma {:induction false} PrintedParses(d: Decimal, whole: nat, millionths: nat, m: nat)
    requires Prints(d, whole, millionths) && whole <= MAX_INT64 / 1_000_000 - 1
    requires m == whole * 1_000_000 + millionths
    ensures Micros(d.Text()) == Ok(Signed(d.neg, m))
  {
    PrintedCount(d, whole, millionths);
    MicrosCounted(d, m);
  }

  /** Every signed count can be printed, and every way of printing it parses back to it. */
  lemma {:induction false} PrintParse(neg: bool, whole: nat, millionths: nat, m: nat)
    requires millionths < 1_000_000 && whole <= MAX_INT64 / 1_000_000 - 1
    requires m == whole * 1_000_000 + millionths
    ensures exists d: Decimal :: d.neg == neg && Prints(d, whole, millionths)
    ensures forall d: Decimal | d.neg == neg && Prints(d, whole, millionths) :: Micros(d.Text()) == Ok(Signed(neg, m))
  {
    Pow10Six();
    var printed := Decimal(neg, Digits(whole), Places(millionths, 6));
    assert Prints(printed, whole, millionths);
    forall d: Decimal | d.neg == neg && Prints(d, whole, millionths)
      ensures Micros(d.Text()) == Ok(Signed(neg, m))
    {
      PrintedParses(d, whole, millionths, m);
    }
  }

  lemma {:induction false} ParsePlain(d: Decimal)
    requires d.WellFormed() && |d.frac| <= 6
    ensures Micros(d.Text()).Ok?
    ensures Micros(d.Text()).value * Pow10(|d.frac|) == d.Numerator() * 1_000_000
  {
    MicrosPlain(d);
    CountTruncates(d);
  }

  /** On at most six places the comparisons are those of the exact rationals. */
  lemma {:induction false} ComparisonsAreExact(x: Decimal, y: Decimal)
    requires x.WellFormed() && y.WellFormed() && |x.frac| <= 6 && |y.frac| <= 6
    ensures Above(x.Text(), y.Text())
            == Ok(x.Numerator() * Pow10(|y.frac|) > y.Numerator() * Pow10(|x.frac|))
    ensures AtOrAbove(x.Text(), y.Text())
            == Ok(x.Numerator() * Pow10(|y.frac|) >= y.Numerator() * Pow10(|x.frac|))
  {
    ParsePlain(x);
    ParsePlain(y);
    CrossMultiply(Micros(x.Text()).value, Micros(y.Text()).value, x.Numerator(), y.Numerator(),
                  Pow10(|x.frac|), Pow10(|y.frac|), 1_000_000);
  }

  /** If a = n*u/p and b = k*u/q then a and b compare as n/p and k/q do. */
  lemma {:induction false} CrossMultiply(a: int, b: int, n: int, k: int, p: nat, q: nat, u: nat)
    requires p > 0 && q > 0 && u > 0 && a * p == n * u && b * q == k * u
    ensures a > b <==> n * q > k * p
    ensures a >= b <==> n * q >= k * p
  {
    var x, y := n * q - k * p, a - b;
    assert x * u == (n * u) * q - (k * u) * p;
    assert (n * u) * q == (a * p) * q == a * (p * q);
    assert (k * u) * p == (b * q) * p == b * (p * q);
    assert y * (p * q) == a * (p * q) - b * (p * q);
    assert p * q > 0;
    SameSign(x, u, y, p * q);
  }

  lemma {:induction false} SameSign(x: int, s: nat, y: int, t: nat)
    requires s > 0 && t > 0 && x * s == y * t
    ensures x > 0 <==> y > 0
    ensures x >= 0 <==> y >= 0
  {
    assert x > 0 ==> x * s > 0;
    assert x < 0 ==> x * s < 0;
    assert y > 0 ==> y * t > 0;
    assert y < 0 ==> y * t < 0;
  }
}
