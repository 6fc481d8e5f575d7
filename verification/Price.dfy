/** `parseUsdPrice` (packages/middleware/src/x402.ts): a dollar amount in decimal notation
becomes an exact number of millionths. */
module Price {
  import opened Wrappers
  import opened Decimal

  const DECIMALS: nat := 6
  const SCALE: nat := 1_000_000

  const PADDING: string := "000000"

  datatype PriceError = InvalidPrice | ZeroPrice

  predicate IsDigit(c: char) { '0' <= c <= '9' }

  predicate AllDigits(s: string) { forall i :: 0 <= i < |s| ==> IsDigit(s[i]) }

  function DigitOf(c: char): Digit
    requires IsDigit(c)
  {
    (c as int - 48) as Digit
  }

  function CharOf(d: Digit): char { (48 + d as int) as char }

  function ToDigits(s: string): (ds: seq<Digit>)
    requires AllDigits(s)
    ensures |ds| == |s| && forall i :: 0 <= i < |s| ==> ds[i] == DigitOf(s[i])
  {
    seq(|s|, i requires 0 <= i < |s| => DigitOf(s[i]))
  }

  /** `BigInt(s)` on a string of digits, which may start with zeros or be empty. */
  function ToBigInt(s: string): nat
    requires AllDigits(s)
  {
    Value(ToDigits(s))
  }

  function LeadingDigits(s: string): (n: nat)
    ensures n <= |s| && AllDigits(s[..n]) && (n < |s| ==> !IsDigit(s[n]))
  {
    if s == [] || !IsDigit(s[0]) then 0
    else
      var n := 1 + LeadingDigits(s[1..]);
      assert s[..n] == [s[0]] + s[1..][..n - 1];
      n
  }

  /** The pattern ^\d+(\.\d{1,6})?$ : the digits are taken greedily, as nothing else can follow them. */
  predicate MatchesPriceRe(s: string) {
    var n := LeadingDigits(s);
    n > 0 && (n == |s| || (s[n] == '.' && 1 <= |s| - n - 1 <= DECIMALS && AllDigits(s[n + 1..])))
  }

  /** `indexOf('.')`. */
  function IndexOfDot(s: string): (dot: Option<nat>)
    ensures dot.None? ==> '.' !in s
    ensures dot.Some? ==> dot.value < |s| && s[dot.value] == '.' && '.' !in s[..dot.value]
  {
    if s == [] then None
    else if s[0] == '.' then Some(0)
    else
      match IndexOfDot(s[1..])
      case None => None
      case Some(k) =>
        assert s[..k + 1] == [s[0]] + s[1..][..k];
        Some(k + 1)
  }

  lemma {:induction false} NoDotIn(s: string, n: nat)
    requires n <= |s| && AllDigits(s[..n]) && (n < |s| ==> s[n] == '.')
    ensures IndexOfDot(s) == if n < |s| then Some(n) else None
  {
    if n > 0 {
      assert s[..n][0] == s[0];
      assert s[1..][..n - 1] == s[..n][1..];
      NoDotIn(s[1..], n - 1);
    }
  }

  /** Up to the first dot of a matching string, and after it, only digits. */
  lemma DotSplits(s: string)
    requires MatchesPriceRe(s)
    ensures IndexOfDot(s).None? ==> AllDigits(s)
    ensures IndexOfDot(s).Some? ==> AllDigits(s[..IndexOfDot(s).value]) && AllDigits(s[IndexOfDot(s).value + 1..])
  {
    NoDotIn(s, LeadingDigits(s));
    assert s[..|s|] == s;
  }

  function ToMillionths(whole: string, frac: string): Result<nat, PriceError>
    requires AllDigits(whole) && AllDigits(frac)
  {
    var paddedFrac := (frac + PADDING)[..DECIMALS];
    var result := ToBigInt(whole) * SCALE + ToBigInt(paddedFrac);
    if result == 0 then Err(ZeroPrice) else Ok(result)
  }

  function ParseUsdPrice(input: string): Result<nat, PriceError> {
    if !MatchesPriceRe(input) then Err(InvalidPrice)
    else
      DotSplits(input);
      match IndexOfDot(input)
      case None => ToMillionths(input, "")
      case Some(dot) => ToMillionths(input[..dot], input[dot + 1..])
  }

  // ---------------------------------------------------------------- what a price string means

  function Str(ds: seq<Digit>): (s: string)
    ensures |s| == |ds| && forall i :: 0 <= i < |ds| ==> s[i] == CharOf(ds[i])
  {
    seq(|ds|, i requires 0 <= i < |ds| => CharOf(ds[i]))
  }

  /** The ten digits as they are written. */
  lemma DigitsAreWritten()
    ensures Str([0, 1, 2, 3, 4, 5, 6, 7, 8, 9]) == "0123456789"
  {
  }

  /** s is the notation of a price: some digits, and possibly a point and one to six more. */
  ghost predicate Written(s: string, whole: seq<Digit>, frac: seq<Digit>) {
    whole != [] && |frac| <= 6 && s == Str(whole) + if frac == [] then "" else "." + Str(frac)
  }

  /** x / 10^n. */
  function Down(x: real, n: nat): real {
    if n == 0 then x else Down(x, n - 1) / 10.0
  }

  /** x * 10^n. */
  function Up(x: real, n: nat): real {
    if n == 0 then x else 10.0 * Up(x, n - 1)
  }

  /** Each digit after the point is worth a tenth of what it would be worth one place earlier. */
  function Fraction(ds: seq<Digit>): real {
    if ds == [] then 0.0
    else Fraction(ds[..|ds| - 1]) + Down(ds[|ds| - 1] as real, |ds|)
  }

  function Dollars(whole: seq<Digit>, frac: seq<Digit>): real { Value(whole) as real + Fraction(frac) }

  // ---------------------------------------------------------------- notation

  lemma DigitsRoundTrip(ds: seq<Digit>)
    ensures AllDigits(Str(ds)) && ToDigits(Str(ds)) == ds
  {
  }

  lemma CharsRoundTrip(s: string)
    requires AllDigits(s)
    ensures Str(ToDigits(s)) == s
  {
  }

  lemma {:induction false} LeadingDigitsAre(s: string, n: nat)
    requires n <= |s| && AllDigits(s[..n]) && (n < |s| ==> !IsDigit(s[n]))
    ensures LeadingDigits(s) == n
  {
    if n > 0 {
      assert s[..n][0] == s[0];
      assert s[1..][..n - 1] == s[..n][1..];
      LeadingDigitsAre(s[1..], n - 1);
    }
  }

  /** A written price matches, and is cut where its point is. */
  lemma {:induction false} WrittenMatches(s: string, whole: seq<Digit>, frac: seq<Digit>)
    requires Written(s, whole, frac)
    ensures MatchesPriceRe(s)
    ensures frac == [] ==> IndexOfDot(s).None? && s == Str(whole)
    ensures frac != [] ==>
      IndexOfDot(s) == Some(|whole|) && s[..|whole|] == Str(whole) && s[|whole| + 1..] == Str(frac)
  {
    DigitsRoundTrip(whole);
    DigitsRoundTrip(frac);
    assert s[..|whole|] == Str(whole);
    LeadingDigitsAre(s, |whole|);
    if frac == [] {
      assert s == Str(whole);
      NoDotIn(s, |whole|);
    } else {
      assert s[|whole|] == '.';
      assert s[|whole| + 1..] == Str(frac);
      NoDotIn(s, |whole|);
    }
  }

  lemma {:induction false} WrittenParts(s: string, x: string, y: string)
    requires x != "" && |y| <= DECIMALS && AllDigits(x) && AllDigits(y) && s == x + if y == "" then "" else "." + y
    ensures Written(s, ToDigits(x), ToDigits(y))
  {
    CharsRoundTrip(x);
    CharsRoundTrip(y);
  }

  lemma {:induction false} MatchesIsWritten(s: string) returns (whole: seq<Digit>, frac: seq<Digit>)
    requires MatchesPriceRe(s)
    ensures Written(s, whole, frac)
  {
    var n := LeadingDigits(s);
    var x, y := s[..n], if n == |s| then "" else s[n + 1..];
    assert s == x + if y == "" then "" else "." + y;
    WrittenParts(s, x, y);
    whole, frac := ToDigits(x), ToDigits(y);
  }

  // ---------------------------------------------------------------- arithmetic

  lemma {:induction false} UpAdds(x: real, y: real, n: nat)
    ensures Up(x + y, n) == Up(x, n) + Up(y, n)
  {
    if n > 0 {
      UpAdds(x, y, n - 1);
    }
  }

  lemma {:induction false} UpTenth(x: real, n: nat)
    ensures 10.0 * Up(x / 10.0, n) == Up(x, n)
  {
    if n > 0 {
      UpTenth(x, n - 1);
    }
  }

  lemma {:induction false} UpUndoesDown(x: real, n: nat)
    ensures Up(Down(x, n), n) == x
  {
    if n > 0 {
      UpTenth(Down(x, n - 1), n - 1);
      UpUndoesDown(x, n - 1);
    }
  }

  lemma {:induction false} FractionScaled(ds: seq<Digit>)
    ensures Up(Fraction(ds), |ds|) == Value(ds) as real
  {
    if ds != [] {
      var front, d := ds[..|ds| - 1], ds[|ds| - 1] as real;
      FractionScaled(front);
      UpAdds(Fraction(front), Down(d, |ds|), |ds|);
      UpUndoesDown(d, |ds|);
    }
  }

  lemma SixPlaces(x: real, n: nat)
    requires n == DECIMALS
    ensures Up(x, n) == x * 1000000.0
  {
    assert Up(x, 1) == 10.0 * Up(x, 0);
    assert Up(x, 3) == 10.0 * Up(x, 2);
    assert Up(x, 5) == 10.0 * Up(x, 4);
  }

  lemma AnotherZero(ds: seq<Digit>, k: nat)
    ensures Value(ds + Zeros(k + 1)) == 10 * Value(ds + Zeros(k))
  {
    assert (ds + Zeros(k + 1))[..|ds| + k] == ds + Zeros(k);
  }

  lemma {:induction false} PaddedScaled(frac: seq<Digit>, k: nat)
    ensures Value(frac + Zeros(k)) as real == Up(Fraction(frac), |frac| + k)
  {
    if k == 0 {
      assert frac + Zeros(0) == frac;
      FractionScaled(frac);
    } else {
      AnotherZero(frac, k - 1);
      PaddedScaled(frac, k - 1);
    }
  }

  /** Padding to six places counts millionths. */
  lemma {:induction false} PaddedIsMillionths(frac: seq<Digit>)
    requires |frac| <= DECIMALS
    ensures Value(frac + Zeros(DECIMALS - |frac|)) as real == Fraction(frac) * 1000000.0
  {
    PaddedScaled(frac, DECIMALS - |frac|);
    SixPlaces(Fraction(frac), |frac| + (DECIMALS - |frac|));
  }

  lemma {:induction false} ZerosAreZero(k: nat)
    ensures forall i :: 0 <= i < k ==> Zeros(k)[i] == 0
  {
    if k > 0 {
      ZerosAreZero(k - 1);
    }
  }

  lemma PaddingIsZeros(k: nat)
    requires k <= DECIMALS
    ensures PADDING[..k] == Str(Zeros(k))
  {
    ZerosAreZero(k);
    assert forall i :: 0 <= i < 6 ==> PADDING[i] == '0';
  }

  lemma StrConcat(a: seq<Digit>, b: seq<Digit>)
    ensures Str(a + b) == Str(a) + Str(b)
  {
  }

  lemma TakeSum(a: string, b: string, n: nat)
    requires |a| <= n <= |a| + |b|
    ensures (a + b)[..n] == a + b[..n - |a|]
  {
  }

  lemma PaddedText(frac: seq<Digit>)
    requires |frac| <= DECIMALS
    ensures (Str(frac) + PADDING)[..DECIMALS] == Str(frac + Zeros(DECIMALS - |frac|))
  {
    var k := DECIMALS - |frac|;
    PaddingIsZeros(k);
    StrConcat(frac, Zeros(k));
    TakeSum(Str(frac), PADDING, DECIMALS);
  }

  /** Whole dollars and padded places together, as the code adds them up. */
  function Millionths(whole: seq<Digit>, frac: seq<Digit>): nat
    requires |frac| <= DECIMALS
  {
    Value(whole) * SCALE + Value(frac + Zeros(DECIMALS - |frac|))
  }

  lemma MillionthsAreExact(whole: seq<Digit>, frac: seq<Digit>)
    requires |frac| <= DECIMALS
    ensures Millionths(whole, frac) as real == Dollars(whole, frac) * 1000000.0
    ensures Millionths(whole, frac) == 0 <==> Dollars(whole, frac) == 0.0
  {
    PaddedIsMillionths(frac);
  }

  lemma PartsToMillionths(whole: seq<Digit>, frac: seq<Digit>)
    requires |frac| <= DECIMALS && AllDigits(Str(whole)) && AllDigits(Str(frac))
    ensures var m := Millionths(whole, frac);
      ToMillionths(Str(whole), Str(frac)) == if m == 0 then Err(ZeroPrice) else Ok(m)
  {
    PaddedText(frac);
    DigitsRoundTrip(whole);
    DigitsRoundTrip(frac + Zeros(DECIMALS - |frac|));
  }

  lemma ParsesToMillionths(s: string, whole: seq<Digit>, frac: seq<Digit>)
    requires Written(s, whole, frac)
    ensures var m := Millionths(whole, frac); ParseUsdPrice(s) == if m == 0 then Err(ZeroPrice) else Ok(m)
  {
    WrittenMatches(s, whole, frac);
    DigitsRoundTrip(whole);
    DigitsRoundTrip(frac);
    PartsToMillionths(whole, frac);
    assert frac == [] ==> Str(frac) == "";
  }

  // ---------------------------------------------------------------- theorems

  /** Exactly the strings written as a price are taken for one. */
  lemma InvalidIffNotWritten(s: string)
    ensures ParseUsdPrice(s) == Err(InvalidPrice) <==> !exists whole, frac :: Written(s, whole, frac)
  {
    if MatchesPriceRe(s) {
      var whole, frac := MatchesIsWritten(s);
    } else {
      forall whole, frac | Written(s, whole, frac)
        ensures false
      {
        WrittenMatches(s, whole, frac);
      }
    }
  }

  /** The result is the dollar amount times a million, exactly; only a zero amount is refused. */
  lemma ParsesExactly(s: string, whole: seq<Digit>, frac: seq<Digit>)
    requires Written(s, whole, frac)
    ensures ParseUsdPrice(s) == Err(ZeroPrice) <==> Dollars(whole, frac) == 0.0
    ensures Dollars(whole, frac) != 0.0 ==>
      ParseUsdPrice(s).Ok? && ParseUsdPrice(s).value as real == Dollars(whole, frac) * 1000000.0
  {
    ParsesToMillionths(s, whole, frac);
    MillionthsAreExact(whole, frac);
  }

  lemma SameOutcome(p: Result<nat, PriceError>, x: real, q: Result<nat, PriceError>, y: real)
    requires p == Err(ZeroPrice) <==> x == 0.0
    requires q == Err(ZeroPrice) <==> y == 0.0
    requires x != 0.0 ==> p.Ok? && p.value as real == x * 1000000.0
    requires y != 0.0 ==> q.Ok? && q.value as real == y * 1000000.0
    ensures p == q <==> x == y
  {
  }

  /** Two prices parse alike exactly when they are the same amount, whatever zeros they carry. */
  lemma AgreeIffSameAmount(s: string, w: seq<Digit>, f: seq<Digit>, t: string, w': seq<Digit>, f': seq<Digit>)
    requires Written(s, w, f) && Written(t, w', f')
    ensures ParseUsdPrice(s) == ParseUsdPrice(t) <==> Dollars(w, f) == Dollars(w', f')
  {
    ParsesExactly(s, w, f);
    ParsesExactly(t, w', f');
    SameOutcome(ParseUsdPrice(s), Dollars(w, f), ParseUsdPrice(t), Dollars(w', f'));
  }

  /** One cent is ten thousand millionths. */
  lemma OneCent()
    ensures ParseUsdPrice("0.01") == Ok(10_000)
  {
    var whole, frac: seq<Digit> := [0], [0, 1];
    assert "0.01" == Str(whole) + ("." + Str(frac));
    assert Value([0]) == 0 && frac[..1] == [0] && Value(frac) == 1;
    AnotherZero(frac, 0);
    AnotherZero(frac, 1);
    AnotherZero(frac, 2);
    AnotherZero(frac, 3);
    assert frac + Zeros(0) == frac;
    ParsesToMillionths("0.01", whole, frac);
  }

  // ---------------------------------------------------------------- printing

  /** The last k places of n. */
  function LastPlaces(n: nat, k: nat): (ds: seq<Digit>)
    ensures |ds| == k
  {
    if k == 0 then [] else LastPlaces(n / 10, k - 1) + [(n % 10) as Digit]
  }

  lemma {:induction false} LastPlacesAreAll(n: nat, k: nat)
    requires n as real < Up(1.0, k)
    ensures Value(LastPlaces(n, k)) == n
  {
    if k > 0 {
      assert (n / 10) as real <= n as real / 10.0;
      LastPlacesAreAll(n / 10, k - 1);
      assert LastPlaces(n, k)[..k - 1] == LastPlaces(n / 10, k - 1);
    }
  }

  function PrintPrice(millionths: nat): string {
    Str(Digits(millionths / SCALE)) + ("." + Str(LastPlaces(millionths % SCALE, DECIMALS)))
  }

  /** Printing an amount as whole dollars and six places loses nothing. */
  lemma PrintedPriceParses(millionths: nat)
    requires millionths > 0
    ensures ParseUsdPrice(PrintPrice(millionths)) == Ok(millionths)
  {
    var whole, frac := Digits(millionths / SCALE), LastPlaces(millionths % SCALE, DECIMALS);
    SixPlaces(1.0, DECIMALS);
    LastPlacesAreAll(millionths % SCALE, DECIMALS);
    assert Millionths(whole, frac) == millionths by {
      assert frac + Zeros(0) == frac;
    }
    ParsesToMillionths(PrintPrice(millionths), whole, frac);
  }
}
