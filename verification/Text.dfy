/** Strings as the programs use them: prefixes, suffixes, splitting and joining on one
    character, and decimal numerals. */
module Text {

  datatype Option<+T> = None | Some(value: T)

  datatype Result<+T, +E> = Ok(value: T) | Err(error: E)

  /** One more than the largest 64-bit unsigned integer. */
  const TWO_64: nat := 0x1_0000_0000_0000_0000

  predicate HasPrefix(s: string, prefix: string) {
    |prefix| <= |s| && s[..|prefix|] == prefix
  }

  predicate HasSuffix(s: string, suffix: string) {
    |suffix| <= |s| && s[|s| - |suffix|..] == suffix
  }

  /** `needle` occurs in `s` at index `j`. */
  predicate OccursAt(s: string, j: int, needle: string) {
    0 <= j <= |s| && HasPrefix(s[j..], needle)
  }

  // ---- Splitting and joining -------------------------------------------------------------

  /** Go's strings.Split with a one-character separator: always at least one piece. */
  function Split(s: string, sep: char): (pieces: seq<string>)
    ensures |pieces| >= 1
    ensures forall p <- pieces :: sep !in p
  {
    if s == "" then [""]
    else
      var rest := Split(s[1..], sep);
      if s[0] == sep then [""] + rest else [[s[0]] + rest[0]] + rest[1..]
  }

  /** Go's strings.Join with a one-character separator. */
  function Join(pieces: seq<string>, sep: char): string {
    if |pieces| == 0 then ""
    else if |pieces| == 1 then pieces[0]
    else pieces[0] + [sep] + Join(pieces[1..], sep)
  }

  lemma {:induction false} SplitNoSeparator(s: string, sep: char)
    requires sep !in s
    ensures Split(s, sep) == [s]
  {
    if s != "" {
      SplitNoSeparator(s[1..], sep);
      assert [s[0]] + s[1..] == s;
    }
  }

  lemma {:induction false} SplitFirst(first: string, rest: string, sep: char)
    requires sep !in first
    ensures Split(first + [sep] + rest, sep) == [first] + Split(rest, sep)
  {
    var s := first + [sep] + rest;
    if first == "" {
      assert s[1..] == rest;
    } else {
      assert s[1..] == first[1..] + [sep] + rest;
      SplitFirst(first[1..], rest, sep);
      assert [first[0]] + first[1..] == first;
    }
  }

  /** Joining and splitting again gives the pieces back, when none holds the separator. */
  lemma {:induction false} SplitJoin(pieces: seq<string>, sep: char)
    requires pieces != [] && forall p <- pieces :: sep !in p
    ensures Split(Join(pieces, sep), sep) == pieces
  {
    if |pieces| == 1 {
      SplitNoSeparator(pieces[0], sep);
    } else {
      SplitJoin(pieces[1..], sep);
      SplitFirst(pieces[0], Join(pieces[1..], sep), sep);
      assert [pieces[0]] + pieces[1..] == pieces;
    }
  }

  /** Splitting and joining again gives the text back. */
  lemma {:induction false} JoinSplit(s: string, sep: char)
    ensures Join(Split(s, sep), sep) == s
  {
    if s != "" {
      JoinSplit(s[1..], sep);
      var rest := Split(s[1..], sep);
      if s[0] == sep {
        assert ([""] + rest)[1..] == rest;
        assert s == [sep] + s[1..];
      } else {
        assert s == [s[0]] + s[1..];
        if |rest| > 1 {
          assert ([[s[0]] + rest[0]] + rest[1..])[1..] == rest[1..];
        }
      }
    }
  }

  // ---- Decimal numerals ------------------------------------------------------------------

  predicate IsDigit(c: char) { '0' <= c <= '9' }

  predicate AllDigits(s: string) { forall c <- s :: IsDigit(c) }

  function DigitValue(c: char): (d: nat)
    requires IsDigit(c)
    ensures d <= 9
  {
    c as int - '0' as int
  }

  function DigitChar(d: nat): (c: char)
    requires d <= 9
    ensures IsDigit(c) && DigitValue(c) == d
  {
    (d + '0' as int) as char
  }

  /** The number a run of digits denotes, without any bound. */
  function Value(s: string): nat
    requires AllDigits(s)
  {
    if s == "" then 0 else Value(s[..|s| - 1]) * 10 + DigitValue(s[|s| - 1])
  }

  /** Go's strconv.Itoa on a natural number. */
  function Itoa(n: nat): (s: string)
    ensures s != "" && AllDigits(s)
  {
    if n < 10 then [DigitChar(n)] else Itoa(n / 10) + [DigitChar(n % 10)]
  }

  /** Go's strconv.Itoa, and fmt's %d, on any integer. */
  function IntText(i: int): string {
    if i < 0 then "-" + Itoa(-i) else Itoa(i)
  }

  lemma {:induction false} ValueItoa(n: nat)
    ensures Value(Itoa(n)) == n
  {
    var s := Itoa(n);
    if n >= 10 {
      ValueItoa(n / 10);
      assert s[..|s| - 1] == Itoa(n / 10);
    } else {
      assert s[..0] == "";
    }
  }

  function Power10(k: nat): (p: nat)
    ensures p >= 1
  {
    if k == 0 then 1 else 10 * Power10(k - 1)
  }

  lemma {:induction false} ValueBelowPower(s: string)
    requires AllDigits(s)
    ensures Value(s) < Power10(|s|)
  {
    if s != "" { ValueBelowPower(s[..|s| - 1]); }
  }

  /** A digit run with at most one plus sign before it: how Go's Atoi and Rust's parse::<u64>
      both spell a non-negative number. */
  predicate PlusDecimal(s: string) {
    Unplus(s) != "" && AllDigits(Unplus(s))
  }

  function Unplus(s: string): string {
    if s != "" && s[0] == '+' then s[1..] else s
  }

  function Magnitude(s: string): nat
    requires PlusDecimal(s)
  {
    Value(Unplus(s))
  }

  lemma {:induction false} MagnitudeItoa(n: nat)
    ensures PlusDecimal(Itoa(n)) && Magnitude(Itoa(n)) == n
  {
    ValueItoa(n);
    assert Itoa(n)[0] in Itoa(n);
  }

  /** Numerals are in base ten, the most significant digit first. */
  lemma {:induction false} ItoaDigits(n: nat, d: nat)
    requires d <= 9
    ensures Itoa(d) == ["0123456789"[d]]
    ensures n > 0 ==> Itoa(10 * n + d) == Itoa(n) + ["0123456789"[d]]
  {
    assert DigitChar(d) == "0123456789"[d];
    if n > 0 {
      assert (10 * n + d) / 10 == n && (10 * n + d) % 10 == d;
    }
  }

  predicate DigitRun(s: string) {
    s != "" && forall k :: 0 <= k < |s| ==> '0' <= s[k] <= '9'
  }

  /** A number is spelled as digits alone or after one plus sign, and means what the digits mean. */
  lemma {:induction false} PlusDecimalForms(digits: string)
    ensures PlusDecimal("+" + digits) <==> DigitRun(digits)
    ensures (digits == "" || digits[0] != '+') ==> (PlusDecimal(digits) <==> DigitRun(digits))
    ensures DigitRun(digits) ==>
              Magnitude(digits) == Value(digits) && Magnitude("+" + digits) == Value(digits)
  {
    var signed := "+" + digits;
    assert signed[0] == '+' && signed[1..] == digits;
    assert AllDigits(digits) <==> forall k :: 0 <= k < |digits| ==> IsDigit(digits[k]);
  }
}
