/** validator/src/main.rs: `parse_timeout`, a magnitude and a unit into 64-bit milliseconds. */
module Timeout {
  import opened Text

  datatype TimeoutError = NoDigits | BadMagnitude | BadUnit | Overflow

  /** The characters with the Unicode White_Space property, which str::trim removes. */
  predicate IsWhitespace(c: char) {
    var code := c as int;
    || 0x9 <= code <= 0xD || code == 0x20 || code == 0x85 || code == 0xA0 || code == 0x1680
    || 0x2000 <= code <= 0x200A || code == 0x2028 || code == 0x2029 || code == 0x202F
    || code == 0x205F || code == 0x3000
  }

  function TrimStart(s: string): string {
    if s != "" && IsWhitespace(s[0]) then TrimStart(s[1..]) else s
  }

  function TrimEnd(s: string): string {
    if s != "" && IsWhitespace(s[|s| - 1]) then TrimEnd(s[..|s| - 1]) else s
  }

  function Trim(s: string): string { TrimEnd(TrimStart(s)) }

  /** The number of characters up to and including the last digit; 0 when there is none. */
  function AfterLastDigit(s: string): (n: nat)
    ensures n <= |s|
    ensures n > 0 ==> IsDigit(s[n - 1])
    ensures forall k :: n <= k < |s| ==> !IsDigit(s[k])
  {
    if s == "" then 0
    else if IsDigit(s[|s| - 1]) then |s|
    else AfterLastDigit(s[..|s| - 1])
  }

  /** Rust's str::parse::<u64>: checked multiplication and addition at every digit. */
  function ParseU64(s: string): Option<int> {
    if Unplus(s) == "" then None else U64Digits(Unplus(s))
  }

  function U64Digits(s: string): Option<int> {
    if s == "" then Some(0)
    else
      match U64Digits(s[..|s| - 1])
      case None => None
      case Some(n) =>
        if !IsDigit(s[|s| - 1]) || n * 10 >= TWO_64 then None
        else
          var sum := n * 10 + DigitValue(s[|s| - 1]);
          if sum >= TWO_64 then None else Some(sum)
  }

  /** Milliseconds per unit. */
  function UnitMillis(unit: string): Option<nat> {
    match unit
    case "ms" => Some(1)
    case "s" => Some(1000)
    case "m" => Some(1000 * 60)
    case "h" => Some(1000 * 60 * 60)
    case "d" => Some(1000 * 60 * 60 * 24)
    case _ => None
  }

  /** The parsed duration in milliseconds. */
  function ParseTimeout(text: string): Result<int, TimeoutError> {
    var s := Trim(text);
    var offset := AfterLastDigit(s);
    if offset == 0 then Err(NoDigits)
    else
      match ParseU64(s[..offset])
      case None => Err(BadMagnitude)
      case Some(magnitude) =>
        var mul := if s[offset..] == "" && magnitude == 0 then Some(0) else UnitMillis(s[offset..]);
        match mul
        case None => Err(BadUnit)
        case Some(m) => if magnitude * m >= TWO_64 then Err(Overflow) else Ok(magnitude * m)
  }

  // ---- The exact acceptance set ----------------------------------------------------------

  lemma {:induction false} U64DigitsExact(s: string)
    ensures U64Digits(s).Some? <==> AllDigits(s) && Value(s) < TWO_64
    ensures U64Digits(s).Some? ==> U64Digits(s).value == Value(s)
  {
    if s != "" {
      var init := s[..|s| - 1];
      U64DigitsExact(init);
      assert s == init + [s[|s| - 1]];
      assert AllDigits(s) <==> AllDigits(init) && IsDigit(s[|s| - 1]);
    }
  }

  const UNITS: set<string> := {"ms", "s", "m", "h", "d"}

  /** How many milliseconds a millisecond, a second, a minute, an hour and a day have. */
  function Worth(unit: string): nat
    requires unit in UNITS
  {
    if unit == "ms" then 1
    else if unit == "s" then 1_000
    else if unit == "m" then 60_000
    else if unit == "h" then 3_600_000
    else 86_400_000
  }

  lemma {:induction false} UnitsByName(unit: string)
    ensures UnitMillis(unit) == if unit in UNITS then Some(Worth(unit)) else None
  {}

  /** A spelling of a duration: an optional plus, decimal digits, and a known unit or, for zero
      only, no unit. */
  predicate Spelling(magnitude: string, unit: string) {
    PlusDecimal(magnitude) && (unit in UNITS || (unit == "" && Magnitude(magnitude) == 0))
  }

  /** The duration a spelling stands for, in milliseconds and without any bound. */
  function SpelledMillis(magnitude: string, unit: string): nat
    requires Spelling(magnitude, unit)
  {
    if unit == "" then 0 else Magnitude(magnitude) * Worth(unit)
  }

  predicate Fits(magnitude: string, unit: string) {
    && Spelling(magnitude, unit)
    && Magnitude(magnitude) < TWO_64
    && SpelledMillis(magnitude, unit) < TWO_64
  }

  lemma {:induction false} UnitsHoldNoDigit(unit: string)
    requires unit in UNITS || unit == ""
    ensures forall k :: 0 <= k < |unit| ==> !IsDigit(unit[k])
  {}

  lemma {:induction false} LastDigitOfSpelling(magnitude: string, unit: string)
    requires Spelling(magnitude, unit)
    ensures AfterLastDigit(magnitude + unit) == |magnitude|
  {
    UnitsHoldNoDigit(unit);
    var s := magnitude + unit;
    var n := AfterLastDigit(s);
    assert magnitude[|magnitude| - 1] in Unplus(magnitude);
    assert s[|magnitude| - 1] == magnitude[|magnitude| - 1];
    assert forall k :: |magnitude| <= k < |s| ==> s[k] == unit[k - |magnitude|];
    assert n <= |magnitude|;
  }

  lemma {:induction false} SpelledTextParses(text: string, magnitude: string, unit: string)
    requires Trim(text) == magnitude + unit && Fits(magnitude, unit)
    ensures ParseTimeout(text) == Ok(SpelledMillis(magnitude, unit))
  {
    var s := Trim(text);
    LastDigitOfSpelling(magnitude, unit);
    assert s[..|magnitude|] == magnitude && s[|magnitude|..] == unit;
    UnitsByName(unit);
    U64DigitsExact(Unplus(magnitude));
  }

  lemma {:induction false} ParsedTextIsSpelled(text: string) returns (magnitude: string, unit: string)
    requires ParseTimeout(text).Ok?
    ensures Trim(text) == magnitude + unit && Fits(magnitude, unit)
  {
    var s := Trim(text);
    magnitude, unit := s[..AfterLastDigit(s)], s[AfterLastDigit(s)..];
    UnitsByName(unit);
    U64DigitsExact(Unplus(magnitude));
  }

  /** Acceptance, in both directions and for every text: ParseTimeout succeeds exactly when the
      trimmed text is a spelling whose magnitude and millisecond product are below 2^64. */
  lemma {:induction false} ParseTimeoutExact(text: string)
    ensures ParseTimeout(text).Ok? <==>
            exists magnitude, unit :: Trim(text) == magnitude + unit && Fits(magnitude, unit)
    ensures forall magnitude, unit :: Trim(text) == magnitude + unit && Fits(magnitude, unit) ==>
              ParseTimeout(text) == Ok(SpelledMillis(magnitude, unit))
  {
    forall magnitude, unit | Trim(text) == magnitude + unit && Fits(magnitude, unit)
      ensures ParseTimeout(text) == Ok(SpelledMillis(magnitude, unit))
    {
      SpelledTextParses(text, magnitude, unit);
    }
    if ParseTimeout(text).Ok? {
      var magnitude, unit := ParsedTextIsSpelled(text);
    }
  }

  /** No compound form such as "1h30m" is accepted: a digit after a non-digit is always an
      error, unless that non-digit is a leading plus sign. */
  lemma {:induction false} CompoundFormsFail(text: string, j: nat, k: nat)
    requires j < k < |Trim(text)| && (j > 0 || Trim(text)[0] != '+')
    requires !IsDigit(Trim(text)[j]) && IsDigit(Trim(text)[k])
    ensures ParseTimeout(text).Err?
  {
    var s := Trim(text);
    var offset := AfterLastDigit(s);
    assert k < offset;
    var digits := Unplus(s[..offset]);
    var at := if s[0] == '+' then j - 1 else j;
    assert digits[at] == s[j] && digits[at] in digits;
    U64DigitsExact(digits);
  }

  /** Spellings of equal duration that fit give equal results, whatever surrounds them. */
  lemma {:induction false} EqualDurationsAgree(text: string, text': string,
                            magnitude: string, unit: string, magnitude': string, unit': string)
    requires Trim(text) == magnitude + unit && Fits(magnitude, unit)
    requires Trim(text') == magnitude' + unit' && Fits(magnitude', unit')
    ensures ParseTimeout(text) == ParseTimeout(text') <==>
            SpelledMillis(magnitude, unit) == SpelledMillis(magnitude', unit')
  {
    ParseTimeoutExact(text);
    ParseTimeoutExact(text');
  }

  lemma {:induction false} TrimIsIdentity(s: string)
    requires s != "" && !IsWhitespace(s[0]) && !IsWhitespace(s[|s| - 1])
    ensures Trim(s) == s
  {}

  lemma {:induction false} UnitShape(unit: string)
    requires unit in UNITS
    ensures unit != "" && !IsWhitespace(unit[|unit| - 1]) && Worth(unit) >= 1
  {}

  lemma {:induction false} ProductAtLeast(n: nat, m: nat)
    requires m >= 1
    ensures n <= n * m
  {}

  /** Every printed magnitude and unit that fits parses back to its duration. */
  lemma {:induction false} ParseTimeoutPrinted(n: nat, unit: string)
    requires unit in UNITS && n * Worth(unit) < TWO_64
    ensures ParseTimeout(Itoa(n) + unit) == Ok(n * Worth(unit))
  {
    var s, m := Itoa(n) + unit, Worth(unit);
    MagnitudeItoa(n);
    UnitShape(unit);
    ProductAtLeast(n, m);
    assert s[0] == Itoa(n)[0] && Itoa(n)[0] in Itoa(n);
    TrimIsIdentity(s);
    assert SpelledMillis(Itoa(n), unit) == n * m;
    ParseTimeoutExact(s);
  }

  // ---- By number -------------------------------------------------------------------------

  /** Milliseconds as 64 bits hold them. */
  function Millis(n: nat, each: nat): Result<int, TimeoutError> {
    if n >= 0x1_0000_0000_0000_0000 then Err(BadMagnitude)
    else if n * each >= 0x1_0000_0000_0000_0000 then Err(Overflow)
    else Ok(n * each)
  }

  /** Each of the five units stands for its number of milliseconds; zero needs no unit; every other
      unit is refused. */
  lemma {:induction false} TimeoutOfNumber(n: nat, unit: string)
    requires forall k :: 0 <= k < |unit| ==> !('0' <= unit[k] <= '9')
    requires unit != "" ==> !IsWhitespace(unit[|unit| - 1])
    ensures unit == "ms" ==> ParseTimeout(Itoa(n) + unit) == Millis(n, 1)
    ensures unit == "s" ==> ParseTimeout(Itoa(n) + unit) == Millis(n, 1_000)
    ensures unit == "m" ==> ParseTimeout(Itoa(n) + unit) == Millis(n, 60_000)
    ensures unit == "h" ==> ParseTimeout(Itoa(n) + unit) == Millis(n, 3_600_000)
    ensures unit == "d" ==> ParseTimeout(Itoa(n) + unit) == Millis(n, 86_400_000)
    ensures unit == "" && n == 0 ==> ParseTimeout(Itoa(n) + unit) == Ok(0)
    ensures unit !in {"ms", "s", "m", "h", "d"} && (unit != "" || n > 0) ==>
              ParseTimeout(Itoa(n) + unit) == Err(if n < 0x1_0000_0000_0000_0000 then BadUnit else BadMagnitude)
  {
    NumberThenUnit(n, unit);
  }

  lemma {:induction false} NumberThenUnit(n: nat, unit: string)
    requires forall k :: 0 <= k < |unit| ==> !IsDigit(unit[k])
    requires unit != "" ==> !IsWhitespace(unit[|unit| - 1])
    ensures ParseTimeout(Itoa(n) + unit) ==
            if n >= TWO_64 then Err(BadMagnitude)
            else if unit == "" && n == 0 then Ok(0)
            else if unit !in UNITS then Err(BadUnit)
            else if n * Worth(unit) >= TWO_64 then Err(Overflow)
            else Ok(n * Worth(unit))
  {
    var digits, s := Itoa(n), Itoa(n) + unit;
    assert digits[0] in digits && digits[|digits| - 1] in digits;
    assert s[0] == digits[0] && (unit == "" ==> s == digits);
    TrimIsIdentity(s);
    assert forall k :: |digits| <= k < |s| ==> s[k] == unit[k - |digits|];
    assert s[|digits| - 1] == digits[|digits| - 1];
    assert AfterLastDigit(s) == |digits|;
    assert s[..|digits|] == digits && s[|digits|..] == unit;
    UnitsByName(unit);
    U64DigitsExact(digits);
    ValueItoa(n);
  }

  /** A plus sign before the number changes nothing. */
  lemma {:induction false} PlusChangesNothing(n: nat, unit: string)
    requires unit in UNITS && n * Worth(unit) < TWO_64
    ensures ParseTimeout("+" + Itoa(n) + unit) == ParseTimeout(Itoa(n) + unit)
  {
    var s, digits := "+" + Itoa(n) + unit, Itoa(n);
    MagnitudeItoa(n);
    UnitShape(unit);
    ProductAtLeast(n, Worth(unit));
    PlusDecimalForms(digits);
    forall k | 0 <= k < |digits| ensures '0' <= digits[k] <= '9' { assert digits[k] in digits; }
    TrimIsIdentity(s);
    SpelledTextParses(s, "+" + digits, unit);
    ParseTimeoutPrinted(n, unit);
    ValueItoa(n);
  }

  predicate Blank(s: string) { forall c <- s :: c in {' ', '\t', '\n', '\r'} }

  lemma {:induction false} TrimStartBlank(a: string, s: string)
    requires forall c <- a :: IsWhitespace(c)
    ensures TrimStart(a + s) == TrimStart(s)
  {
    if a == "" {
      assert a + s == s;
    } else {
      assert (a + s)[1..] == a[1..] + s;
      TrimStartBlank(a[1..], s);
    }
  }

  lemma {:induction false} TrimEndBlank(s: string, b: string)
    requires forall c <- b :: IsWhitespace(c)
    ensures TrimEnd(s + b) == TrimEnd(s)
  {
    if b == "" {
      assert s + b == s;
    } else {
      assert (s + b)[..|s + b| - 1] == s + b[..|b| - 1];
      TrimEndBlank(s, b[..|b| - 1]);
    }
  }

  lemma {:induction false} TrimStartKeepsEnd(s: string, b: string)
    requires forall c <- b :: IsWhitespace(c)
    ensures TrimEnd(TrimStart(s + b)) == TrimEnd(TrimStart(s))
  {
    if s != "" && IsWhitespace(s[0]) {
      assert (s + b)[1..] == s[1..] + b;
      TrimStartKeepsEnd(s[1..], b);
    } else if s == "" {
      assert s + b == b && b + "" == b;
      TrimStartBlank(b, "");
    } else {
      TrimEndBlank(s, b);
    }
  }

  /** Blanks, tabs and line ends around a text change nothing. */
  lemma {:induction false} BlanksChangeNothing(a: string, text: string, b: string)
    requires Blank(a) && Blank(b)
    ensures ParseTimeout(a + text + b) == ParseTimeout(text)
  {
    assert a + text + b == a + (text + b);
    TrimStartBlank(a, text + b);
    TrimStartKeepsEnd(text, b);
  }

  lemma {:induction false} TrimKeepsDigits(s: string)
    ensures (exists c <- TrimStart(s) :: IsDigit(c)) <==> (exists c <- s :: IsDigit(c))
    ensures (exists c <- TrimEnd(s) :: IsDigit(c)) <==> (exists c <- s :: IsDigit(c))
  {
    if s != "" && IsWhitespace(s[0]) {
      assert s == [s[0]] + s[1..];
      TrimKeepsDigits(s[1..]);
    }
    if s != "" && IsWhitespace(s[|s| - 1]) {
      assert s == s[..|s| - 1] + [s[|s| - 1]];
      TrimKeepsDigits(s[..|s| - 1]);
    }
  }

  /** A text is refused for want of digits exactly when it holds none. */
  lemma {:induction false} NoDigitsExactly(text: string)
    ensures ParseTimeout(text) == Err(NoDigits) <==> forall c <- text :: !('0' <= c <= '9')
  {
    TrimKeepsDigits(text);
    TrimKeepsDigits(TrimStart(text));
    var s := Trim(text);
    assert (exists c <- s :: IsDigit(c)) <==> (exists c <- text :: IsDigit(c));
    if AfterLastDigit(s) == 0 {
      assert forall k :: 0 <= k < |s| ==> !IsDigit(s[k]);
    } else {
      assert s[AfterLastDigit(s) - 1] in s;
    }
  }
}
