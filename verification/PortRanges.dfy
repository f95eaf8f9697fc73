/** pkg/util/portrange.go: parsing of `<lower>-<upper>` port ranges, on top of a model of Go's
    strconv.Atoi that wraps at 64 bits where the library does. */
module PortRanges {
  import opened Text

  // ---- strconv.Atoi on a 64-bit platform -------------------------------------------------

  const TWO_63: int := 0x8000_0000_0000_0000

  /** A mathematical integer as the int64 that holds its low 64 bits. */
  function WrapInt64(x: int): int {
    var low := x % TWO_64;
    if low < TWO_63 then low else low - TWO_64
  }

  datatype NumError = SyntaxError | RangeError

  /** The loop of the fast path, taken for texts shorter than 19: int64 arithmetic, unchecked. */
  function FastDigits(s: string): Result<int, NumError> {
    if s == "" then Ok(0)
    else
      match FastDigits(s[..|s| - 1])
      case Err(e) => Err(e)
      case Ok(n) =>
        if IsDigit(s[|s| - 1]) then Ok(WrapInt64(n * 10 + DigitValue(s[|s| - 1])))
        else Err(SyntaxError)
  }

  /** strconv.ParseUint(s, 10, 64): uint64 arithmetic with a cutoff before the multiplication
      and a wrap-around test after the addition. */
  function ParseUint(s: string): Result<int, NumError> {
    if s == "" then Err(SyntaxError) else UintDigits(s)
  }

  function UintDigits(s: string): Result<int, NumError> {
    if s == "" then Ok(0)
    else
      match UintDigits(s[..|s| - 1])
      case Err(e) => Err(e)
      case Ok(n) =>
        if !IsDigit(s[|s| - 1]) then Err(SyntaxError)
        else if n >= (TWO_64 - 1) / 10 + 1 then Err(RangeError)
        else
          var scaled := (n * 10) % TWO_64;
          var sum := (scaled + DigitValue(s[|s| - 1])) % TWO_64;
          if sum < scaled then Err(RangeError) else Ok(sum)
  }

  function HasSign(s: string): bool {
    s != "" && (s[0] == '+' || s[0] == '-')
  }

  function Unsign(s: string): string {
    if HasSign(s) then s[1..] else s
  }

  function Atoi(s: string): Result<int, NumError> {
    var negative := s != "" && s[0] == '-';
    if 0 < |s| < 19 then
      if Unsign(s) == "" then Err(SyntaxError)
      else
        match FastDigits(Unsign(s))
        case Err(e) => Err(e)
        case Ok(n) => Ok(if negative then WrapInt64(-n) else n)
    else if s == "" then Err(SyntaxError)
    else
      match ParseUint(Unsign(s))
      case Err(e) => Err(e)
      case Ok(u) =>
        if !negative && u >= TWO_63 then Err(RangeError)
        else if negative && u > TWO_63 then Err(RangeError)
        else Ok(if negative then WrapInt64(-u) else u)
  }

  predicate SignedDecimal(s: string) {
    Unsign(s) != "" && AllDigits(Unsign(s))
  }

  /** The number a signed numeral denotes, without any bound. */
  function SignedValue(s: string): int
    requires SignedDecimal(s)
  {
    var magnitude: int := Value(Unsign(s));
    if s[0] == '-' then -magnitude else magnitude
  }

  lemma {:induction false} WrapFits(x: int)
    requires -TWO_63 <= x < TWO_63
    ensures WrapInt64(x) == x
  {}

  lemma {:induction false} FastDigitsExact(s: string)
    requires |s| <= 18
    ensures FastDigits(s) == if AllDigits(s) then Ok(Value(s)) else Err(SyntaxError)
  {
    if s != "" {
      var init := s[..|s| - 1];
      FastDigitsExact(init);
      assert AllDigits(s) <==> AllDigits(init) && IsDigit(s[|s| - 1]) by {
        assert s == init + [s[|s| - 1]];
      }
      if AllDigits(s) {
        ValueBelowPower(s);
        PowerBelowTwo63(|s|);
        WrapFits(Value(s));
      }
    }
  }

  lemma {:induction false} PowerBelowTwo63(k: nat)
    requires k <= 18
    ensures Power10(k) <= 1_000_000_000_000_000_000
  {
    PowerMonotone(k, 18);
    assert Power10(6) == 1_000_000;
    assert Power10(12) == 1_000_000_000_000 by {
      assert Power10(9) == 1_000 * Power10(6);
      assert Power10(12) == 1_000 * Power10(9);
    }
    assert Power10(15) == 1_000 * Power10(12);
    assert Power10(18) == 1_000 * Power10(15);
  }

  lemma {:induction false} PowerMonotone(j: nat, k: nat)
    requires j <= k
    ensures Power10(j) <= Power10(k)
    decreases k
  {
    if j < k { PowerMonotone(j, k - 1); }
  }

  lemma {:induction false} ModuloOnce(x: int)
    requires 0 <= x < 2 * TWO_64
    ensures x % TWO_64 == if x < TWO_64 then x else x - TWO_64
  {}

  lemma {:induction false} UintDigitsExact(s: string)
    ensures UintDigits(s).Ok? <==> AllDigits(s) && Value(s) < TWO_64
    ensures UintDigits(s).Ok? ==> UintDigits(s).value == Value(s)
  {
    if s != "" {
      var init := s[..|s| - 1];
      UintDigitsExact(init);
      if UintDigits(init).Ok? && UintDigits(init).value < (TWO_64 - 1) / 10 + 1 && IsDigit(s[|s| - 1]) {
        var n := UintDigits(init).value;
        ModuloOnce(n * 10);
        ModuloOnce(n * 10 + DigitValue(s[|s| - 1]));
      }
      assert s == init + [s[|s| - 1]];
      assert AllDigits(s) <==> AllDigits(init) && IsDigit(s[|s| - 1]);
    }
  }

  /** A number of at most 18 digits is far from the int64 bounds. */
  lemma {:induction false} ShortFits(digits: string)
    requires |digits| <= 18 && AllDigits(digits)
    ensures Value(digits) < TWO_63
  {
    ValueBelowPower(digits);
    PowerBelowTwo63(|digits|);
  }

  lemma {:induction false} FastPathExact(s: string)
    requires 0 < |s| < 19
    ensures Atoi(s).Ok? <==> SignedDecimal(s) && -TWO_63 <= SignedValue(s) < TWO_63
    ensures Atoi(s).Ok? ==> Atoi(s).value == SignedValue(s)
  {
    var digits := Unsign(s);
    FastDigitsExact(digits);
    if AllDigits(digits) {
      ShortFits(digits);
      var magnitude: int := Value(digits);
      WrapFits(-magnitude);
    }
  }

  lemma {:induction false} SlowPathExact(s: string)
    requires |s| >= 19
    ensures Atoi(s).Ok? <==> SignedDecimal(s) && -TWO_63 <= SignedValue(s) < TWO_63
    ensures Atoi(s).Ok? ==> Atoi(s).value == SignedValue(s)
  {
    var digits := Unsign(s);
    UintDigitsExact(digits);
    if AllDigits(digits) && Value(digits) <= TWO_63 {
      var magnitude: int := Value(digits);
      WrapFits(-magnitude);
    }
  }

  /** Atoi is exact: it yields the denoted number when that fits an int64 and fails otherwise,
      so no wrap-around is ever visible. */
  lemma {:induction false} AtoiExact(s: string)
    ensures Atoi(s).Ok? <==> SignedDecimal(s) && -TWO_63 <= SignedValue(s) < TWO_63
    ensures Atoi(s).Ok? ==> Atoi(s).value == SignedValue(s)
  {
    if 0 < |s| < 19 {
      FastPathExact(s);
    } else if |s| >= 19 {
      SlowPathExact(s);
    }
  }

  // ---- Port ranges -----------------------------------------------------------------------

  datatype PortRange = PortRange(lower: int, upper: int)

  const MAX_PORT: int := 65535

  predicate IsValidPort(port: int) { 0 <= port <= MAX_PORT }

  predicate ValidRange(r: PortRange) {
    IsValidPort(r.lower) && IsValidPort(r.upper) && r.lower <= r.upper
  }

  predicate Covers(r: PortRange, port: int) { r.lower <= port <= r.upper }

  datatype RangeParseError = TooManyBounds | BadLowerBound | BadUpperBound | BoundsInverted

  function ParsePortRange(text: string): (r: Result<PortRange, RangeParseError>)
    ensures r.Ok? ==> ValidRange(r.value)
  {
    var pieces := Split(text, '-');
    if |pieces| > 2 then Err(TooManyBounds)
    else
      var bounds := if |pieces| == 1 then pieces + [pieces[0]] else pieces;
      var lower := Atoi(bounds[0]);
      if lower.Err? || !IsValidPort(lower.value) then Err(BadLowerBound)
      else
        var upper := Atoi(bounds[1]);
        if upper.Err? || !IsValidPort(upper.value) then Err(BadUpperBound)
        else if upper.value < lower.value then Err(BoundsInverted)
        else Ok(PortRange(lower.value, upper.value))
  }

  /** A bound as it may be spelled: digits with at most one plus sign, of any length, denoting
      at most 65535. */
  predicate BoundText(s: string) {
    PlusDecimal(s) && Magnitude(s) <= MAX_PORT
  }

  /** `text` spells a range with bounds `a` and `b`: one bound standing for both, or two
      around a dash. */
  predicate Spells(text: string, a: string, b: string) {
    (text == a && a == b) || text == a + "-" + b
  }

  lemma {:induction false} BoundExact(s: string)
    requires '-' !in s
    ensures BoundText(s) <==> Atoi(s).Ok? && IsValidPort(Atoi(s).value)
    ensures BoundText(s) ==> Atoi(s).value == Magnitude(s)
  {
    AtoiExact(s);
  }

  lemma {:induction false} BoundHasNoDash(s: string)
    requires BoundText(s)
    ensures '-' !in s
  {
    assert s == Unplus(s) || s == ['+'] + Unplus(s);
  }

  lemma {:induction false} SpelledPieces(text: string, a: string, b: string)
    requires Spells(text, a, b) && '-' !in a && '-' !in b
    ensures Split(text, '-') == [a, b] || (a == b && Split(text, '-') == [a])
  {
    if text == a {
      SplitNoSeparator(a, '-');
    } else {
      assert text == a + ['-'] + b;
      SplitFirst(a, b, '-');
      SplitNoSeparator(b, '-');
    }
  }

  /** Every accepted text spells its range: one or two optionally plus-signed decimals around
      at most one dash, both within 65535 and in order. */
  lemma {:induction false} ParsePortRangeSound(text: string) returns (a: string, b: string)
    requires ParsePortRange(text).Ok?
    ensures Spells(text, a, b) && BoundText(a) && BoundText(b)
    ensures ParsePortRange(text).value == PortRange(Magnitude(a), Magnitude(b))
  {
    var pieces := Split(text, '-');
    JoinSplit(text, '-');
    a, b := pieces[0], pieces[|pieces| - 1];
    if |pieces| == 2 {
      assert pieces[1..] == [b];
      assert text == a + ['-'] + b;
    }
    BoundExact(a);
    BoundExact(b);
  }

  /** Every text that spells a range in order is accepted, with exactly that range. */
  lemma {:induction false} ParsePortRangeComplete(text: string, a: string, b: string)
    requires Spells(text, a, b) && BoundText(a) && BoundText(b) && Magnitude(a) <= Magnitude(b)
    ensures ParsePortRange(text) == Ok(PortRange(Magnitude(a), Magnitude(b)))
  {
    BoundHasNoDash(a);
    BoundHasNoDash(b);
    SpelledPieces(text, a, b);
    BoundExact(a);
    BoundExact(b);
  }

  /** The exact acceptance set of ParsePortRange; the magnitudes are unbounded numbers, so
      64-bit overflow never changes the answer. */
  lemma {:induction false} ParsePortRangeExact(text: string)
    ensures ParsePortRange(text).Ok? <==>
            exists a, b ::
              Spells(text, a, b) && BoundText(a) && BoundText(b) && Magnitude(a) <= Magnitude(b)
  {
    if ParsePortRange(text).Ok? {
      var a, b := ParsePortRangeSound(text);
    }
    if a, b :| Spells(text, a, b) && BoundText(a) && BoundText(b) && Magnitude(a) <= Magnitude(b) {
      ParsePortRangeComplete(text, a, b);
    }
  }

  // ---- The printed form of a range -------------------------------------------------------

  /** asDestination (pkg/iptables/iptables.go): the form iptables expects, with a colon. */
  function AsDestination(r: PortRange): string
    requires ValidRange(r)
  {
    if r.lower == r.upper then Itoa(r.lower) else Itoa(r.lower) + ":" + Itoa(r.upper)
  }

  function ColonsToDashes(s: string): (t: string)
    ensures |t| == |s|
    ensures forall k :: 0 <= k < |s| ==> t[k] == if s[k] == ':' then '-' else s[k]
  {
    seq(|s|, k requires 0 <= k < |s| => if s[k] == ':' then '-' else s[k])
  }

  lemma {:induction false} DigitsHaveNoColon(s: string)
    requires AllDigits(s)
    ensures forall k :: 0 <= k < |s| ==> s[k] != ':'
  {
    forall k | 0 <= k < |s| ensures s[k] != ':' {
      assert s[k] in s;
    }
  }

  /** Printing any valid range and parsing the text, with the colon read as a dash, gives the
      range back. */
  lemma {:induction false} ParsePortRangePrinted(r: PortRange)
    requires ValidRange(r)
    ensures ParsePortRange(ColonsToDashes(AsDestination(r))) == Ok(r)
  {
    var a, b := Itoa(r.lower), Itoa(r.upper);
    MagnitudeItoa(r.lower);
    MagnitudeItoa(r.upper);
    var text := ColonsToDashes(AsDestination(r));
    if r.lower == r.upper {
      DigitsHaveNoColon(a);
      assert text == a;
      ParsePortRangeComplete(text, a, a);
    } else {
      DigitsHaveNoColon(a);
      DigitsHaveNoColon(b);
      assert text == a + "-" + b;
      ParsePortRangeComplete(text, a, b);
    }
  }

  // ---- Every text, by its dashes ---------------------------------------------------------

  /** A text without a dash is one port. */
  lemma {:induction false} WithoutDash(a: string)
    requires '-' !in a
    ensures ParsePortRange(a) ==
            if PlusDecimal(a) && Magnitude(a) <= 65535 then Ok(PortRange(Magnitude(a), Magnitude(a)))
            else Err(BadLowerBound)
  {
    BoundExact(a);
    SplitNoSeparator(a, '-');
  }

  /** With one dash it is a range, and an error is reported where the first wrong part is. */
  lemma {:induction false} WithOneDash(a: string, b: string)
    requires '-' !in a && '-' !in b
    ensures ParsePortRange(a + "-" + b) ==
            if !PlusDecimal(a) || Magnitude(a) > 65535 then Err(BadLowerBound)
            else if !PlusDecimal(b) || Magnitude(b) > 65535 then Err(BadUpperBound)
            else if Magnitude(b) < Magnitude(a) then Err(BoundsInverted)
            else Ok(PortRange(Magnitude(a), Magnitude(b)))
  {
    BoundExact(a);
    BoundExact(b);
    SplitNoSeparator(b, '-');
    SplitFirst(a, b, '-');
  }

  /** With more it is refused. */
  lemma {:induction false} WithMoreDashes(a: string, b: string, rest: string)
    requires '-' !in a && '-' !in b
    ensures ParsePortRange(a + "-" + (b + "-" + rest)) == Err(TooManyBounds)
  {
    SplitFirst(b, rest, '-');
    SplitFirst(a, b + "-" + rest, '-');
  }

  /** In numbers: ports are 0 to 65535, ranges are in order, and a plus sign changes nothing. */
  lemma {:induction false} ParsePortRangeOfNumbers(a: nat, b: nat)
    ensures ParsePortRange(Itoa(a)) == if a <= 65535 then Ok(PortRange(a, a)) else Err(BadLowerBound)
    ensures ParsePortRange("+" + Itoa(a)) == ParsePortRange(Itoa(a))
    ensures ParsePortRange(Itoa(a) + "-" + Itoa(b)) ==
            if a > 65535 then Err(BadLowerBound)
            else if b > 65535 then Err(BadUpperBound)
            else if b < a then Err(BoundsInverted)
            else Ok(PortRange(a, b))
  {
    NumeralHasNoDash(a);
    NumeralHasNoDash(b);
    MagnitudeItoa(a);
    MagnitudeItoa(b);
    PlusDecimalForms(Itoa(a));
    ValueItoa(a);
    WithoutDash(Itoa(a));
    WithoutDash("+" + Itoa(a));
    WithOneDash(Itoa(a), Itoa(b));
  }

  lemma {:induction false} NumeralHasNoDash(n: nat)
    ensures '-' !in Itoa(n) && '-' !in "+" + Itoa(n) && DigitRun(Itoa(n))
  {
    assert !IsDigit('-');
    forall k | 0 <= k < |Itoa(n)| ensures '0' <= Itoa(n)[k] <= '9' {
      assert Itoa(n)[k] in Itoa(n);
    }
  }

  /** A printed range is its two bounds in order around a colon, or one port. */
  lemma {:induction false} DestinationParts(r: PortRange)
    requires ValidRange(r)
    ensures r.lower == r.upper ==> DigitRun(AsDestination(r)) && Value(AsDestination(r)) == r.lower
    ensures r.lower < r.upper ==>
              exists a, b :: AsDestination(r) == a + ":" + b && DigitRun(a) && DigitRun(b)
                && Value(a) == r.lower && Value(b) == r.upper
  {
    NumeralHasNoDash(r.lower);
    NumeralHasNoDash(r.upper);
    ValueItoa(r.lower);
    ValueItoa(r.upper);
  }
}
