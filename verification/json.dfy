/** The two JSON documents the range-bounded RNG exchanges, as `serde_json`
    writes them: `{"min":A,"max":B}` and `{"random_number":N}` with unsigned
    decimal numbers and no whitespace. The parsers accept exactly this
    canonical shape (a subset of what `serde_json` accepts) and reject numbers
    that do not fit a `u32`, as deserialising into a `u32` field does. */
module Json {
  import opened Base

  /** The request payload `{min, max}`. */
  datatype RangeInput = RangeInput(min: u32, max: u32)

  /** The response payload `{random_number}`. */
  datatype RangeOutput = RangeOutput(random_number: u32)

  // ---------------------------------------------------------------------
  // Decimal numbers

  predicate IsDigit(c: char) {
    '0' <= c <= '9'
  }

  predicate AllDigits(s: string) {
    forall i :: 0 <= i < |s| ==> IsDigit(s[i])
  }

  /** A number token as JSON writes it: at least one digit, and no leading
      zero unless the number is zero itself. */
  predicate Canonical(s: string) {
    |s| >= 1 && AllDigits(s) && (s[0] == '0' ==> |s| == 1)
  }

  function DigitChar(d: nat): (c: char)
    requires d < 10
    ensures IsDigit(c)
  {
    (d + '0' as int) as char
  }

  function DigitValue(c: char): (d: nat)
    requires IsDigit(c)
    ensures d < 10
  {
    c as int - '0' as int
  }

  /** The decimal rendering of `n`, most significant digit first. */
  function Digits(n: nat): (s: string)
    ensures Canonical(s)
    decreases n
  {
    if n < 10 then [DigitChar(n)] else Digits(n / 10) + [DigitChar(n % 10)]
  }

  /** The number a string of digits denotes. */
  function ValueOf(s: string): nat
    requires AllDigits(s)
    decreases |s|
  {
    if |s| == 0 then 0 else ValueOf(s[..|s| - 1]) * 10 + DigitValue(s[|s| - 1])
  }

  /** Reading back a rendered number gives the number. */
  lemma {:induction false} ValueOfDigits(n: nat)
    ensures ValueOf(Digits(n)) == n
    decreases n
  {
    if n >= 10 {
      var s := Digits(n);
      assert s[..|s| - 1] == Digits(n / 10);
      ValueOfDigits(n / 10);
    }
  }

  /** A number written with a nonzero leading digit is at least that digit. */
  lemma {:induction false} ValueOfAtLeastLead(s: string)
    requires |s| >= 1 && AllDigits(s)
    ensures ValueOf(s) >= DigitValue(s[0])
    decreases |s|
  {
    if |s| > 1 {
      ValueOfAtLeastLead(s[..|s| - 1]);
    }
  }

  /** Rendering the value of a canonical token gives the token back, so every
      canonical token is the rendering of exactly one number. */
  lemma {:induction false} DigitsValueOf(s: string)
    requires Canonical(s)
    ensures Digits(ValueOf(s)) == s
    decreases |s|
  {
    if |s| > 1 {
      var init := s[..|s| - 1];
      assert init[0] == s[0];
      ValueOfAtLeastLead(init);
      assert Canonical(init);
      DigitsValueOf(init);
      var n := ValueOf(s);
      assert n / 10 == ValueOf(init) && n % 10 == DigitValue(s[|s| - 1]);
      assert s == init + [s[|s| - 1]];
    }
  }

  /** The length of the longest run of digits at the front of `s`. */
  function LeadingDigits(s: string): (k: nat)
    ensures k <= |s|
    ensures AllDigits(s[..k])
    ensures k < |s| ==> !IsDigit(s[k])
    decreases |s|
  {
    if |s| > 0 && IsDigit(s[0]) then 1 + LeadingDigits(s[1..]) else 0
  }

  lemma {:induction false} LeadingDigitsAppend(p: string, t: string)
    requires AllDigits(p)
    ensures LeadingDigits(p + t) == |p| + LeadingDigits(t)
    decreases |p|
  {
    if |p| > 0 {
      var s := p + t;
      assert s[0] == p[0] && IsDigit(p[0]);
      assert s[1..] == p[1..] + t;
      assert AllDigits(p[1..]);
      LeadingDigitsAppend(p[1..], t);
      assert LeadingDigits(s) == 1 + LeadingDigits(s[1..]);
    } else {
      assert p + t == t;
    }
  }

  /** A `u32` number token at the front of `s`, and what follows it. */
  function ParseU32(s: string): Option<(u32, string)> {
    var k := LeadingDigits(s);
    if k == 0 || !Canonical(s[..k]) then None
    else
      var n := ValueOf(s[..k]);
      if n >= U32_LIMIT then None else Some((n, s[k..]))
  }

  lemma ParseU32Digits(n: u32, t: string)
    requires |t| == 0 || !IsDigit(t[0])
    ensures ParseU32(Digits(n) + t) == Some((n, t))
  {
    var d := Digits(n);
    LeadingDigitsAppend(d, t);
    assert LeadingDigits(t) == 0;
    assert (d + t)[..|d|] == d;
    assert (d + t)[|d|..] == t;
    ValueOfDigits(n);
  }

  /** A parsed number token is the rendering of the number it yields. */
  lemma ParseU32Inverse(s: string)
    requires ParseU32(s).Some?
    ensures s == Digits(ParseU32(s).value.0) + ParseU32(s).value.1
  {
    var k := LeadingDigits(s);
    DigitsValueOf(s[..k]);
    assert s == s[..k] + s[k..];
  }

  /** `s` with the literal `lit` removed from its front, if it starts with it. */
  function Expect(s: string, lit: string): (r: Option<string>)
    ensures r.Some? <==> lit <= s
    ensures r.Some? ==> s == lit + r.value
  {
    if lit <= s then Some(s[|lit|..]) else None
  }

  /** A key (with its punctuation) followed by a `u32` number, and what
      follows the number. */
  function ParseField(s: string, key: string): Option<(u32, string)> {
    var rest :- Expect(s, key);
    ParseU32(rest)
  }

  lemma ParseFieldPrint(key: string, n: u32, t: string)
    requires |t| == 0 || !IsDigit(t[0])
    ensures ParseField(key + Digits(n) + t, key) == Some((n, t))
  {
    assert key + Digits(n) + t == key + (Digits(n) + t);
    assert Expect(key + Digits(n) + t, key) == Some(Digits(n) + t);
    ParseU32Digits(n, t);
  }

  lemma ParseFieldInverse(s: string, key: string)
    requires ParseField(s, key).Some?
    ensures s == key + Digits(ParseField(s, key).value.0) + ParseField(s, key).value.1
  {
    var rest := Expect(s, key).value;
    ParseU32Inverse(rest);
  }

  // ---------------------------------------------------------------------
  // The two documents

  const MIN_KEY := "{\"min\":"
  const MAX_KEY := ",\"max\":"
  const NUMBER_KEY := "{\"random_number\":"
  const CLOSE := "}"

  /** `serde_json::to_string` of an `Input`; the command-line `Input`
      derives `Serialize`, the sandboxed one only `Deserialize`. */
  function PrintRange(x: RangeInput): string {
    MIN_KEY + Digits(x.min) + MAX_KEY + Digits(x.max) + CLOSE
  }

  /** `serde_json::from_str` into an `Input`, on the canonical shape. */
  function ParseRange(s: string): Option<RangeInput> {
    var (lo, rest) :- ParseField(s, MIN_KEY);
    var (hi, tail) :- ParseField(rest, MAX_KEY);
    if tail == CLOSE then Some(RangeInput(lo, hi)) else None
  }

  /** `serde_json::to_string` of an `Output`. */
  function PrintOutput(y: RangeOutput): string {
    NUMBER_KEY + Digits(y.random_number) + CLOSE
  }

  /** `serde_json::from_str` into a `RandomResponse`, on the canonical shape. */
  function ParseOutput(s: string): Option<RangeOutput> {
    var (n, tail) :- ParseField(s, NUMBER_KEY);
    if tail == CLOSE then Some(RangeOutput(n)) else None
  }

  /** Serialising a range and parsing it back gives the same range. */
  lemma ParseRangePrint(x: RangeInput)
    ensures ParseRange(PrintRange(x)) == Some(x)
  {
    var tail := MAX_KEY + Digits(x.max) + CLOSE;
    assert PrintRange(x) == MIN_KEY + Digits(x.min) + tail;
    ParseFieldPrint(MIN_KEY, x.min, tail);
    ParseFieldPrint(MAX_KEY, x.max, CLOSE);
  }

  /** Parsing is the exact inverse of printing: the only text that parses to
      a range is that range's serialisation. */
  lemma PrintRangeParse(s: string, x: RangeInput)
    requires ParseRange(s) == Some(x)
    ensures PrintRange(x) == s
  {
    var first := ParseField(s, MIN_KEY);
    var rest := first.value.1;
    var second := ParseField(rest, MAX_KEY);
    assert first.value.0 == x.min && second.value.0 == x.max && second.value.1 == CLOSE by {
      ParseRangeSteps(s);
    }
    assert s == MIN_KEY + Digits(x.min) + rest by {
      ParseFieldInverse(s, MIN_KEY);
    }
    assert rest == MAX_KEY + Digits(x.max) + CLOSE by {
      ParseFieldInverse(rest, MAX_KEY);
    }
    Assoc5(MIN_KEY, Digits(x.min), MAX_KEY, Digits(x.max), CLOSE);
  }

  lemma Assoc5(a: string, b: string, c: string, d: string, e: string)
    ensures a + b + c + d + e == a + b + (c + d + e)
  {
  }

  /** What a successful `ParseRange` has read. */
  lemma ParseRangeSteps(s: string)
    requires ParseRange(s).Some?
    ensures var first := ParseField(s, MIN_KEY);
      && first.Some?
      && var second := ParseField(first.value.1, MAX_KEY);
      && second.Some?
      && second.value.1 == CLOSE
      && ParseRange(s).value == RangeInput(first.value.0, second.value.0)
  {
  }

  /** The same holds of responses. */
  lemma PrintOutputParse(s: string, y: RangeOutput)
    requires ParseOutput(s) == Some(y)
    ensures PrintOutput(y) == s
  {
    ParseFieldInverse(s, NUMBER_KEY);
  }

  /** Serialising a response and parsing it back gives the same number. */
  lemma ParseOutputPrint(y: RangeOutput)
    ensures ParseOutput(PrintOutput(y)) == Some(y)
  {
    ParseFieldPrint(NUMBER_KEY, y.random_number, CLOSE);
  }

  /** The serialised response contains the decimal digits of the number. */
  lemma PrintOutputContainsDigits(y: RangeOutput)
    ensures Contains(PrintOutput(y), Digits(y.random_number))
  {
    ContainsMiddle(NUMBER_KEY, Digits(y.random_number), CLOSE);
  }

  /** Every character of a serialised document is ASCII, so its UTF-8
      encoding is one byte per character. */
  predicate IsAscii(s: string) {
    forall i :: 0 <= i < |s| ==> s[i] as int < 128
  }

  /** `String::into_bytes` of an ASCII string. */
  function AsciiBytes(s: string): (b: seq<u8>)
    requires IsAscii(s)
    ensures |b| == |s|
  {
    seq(|s|, i requires 0 <= i < |s| => s[i] as int)
  }

  /** Decoding one-byte-per-character UTF-8. */
  function AsciiText(b: seq<u8>): (s: string)
    ensures |s| == |b|
  {
    seq(|b|, i requires 0 <= i < |b| => b[i] as char)
  }

  lemma AsciiRoundTrip(s: string)
    requires IsAscii(s)
    ensures AsciiText(AsciiBytes(s)) == s
  {
  }

  lemma PrintOutputAscii(y: RangeOutput)
    ensures IsAscii(PrintOutput(y))
  {
    var d := Digits(y.random_number);
    assert forall i :: 0 <= i < |d| ==> IsDigit(d[i]);
  }

  function Pow10(k: nat): (p: nat)
    ensures p >= 1
  {
    if k == 0 then 1 else 10 * Pow10(k - 1)
  }

  /** A number below 10^k renders in at most k digits. */
  lemma {:induction false} DigitsBound(n: nat, k: nat)
    requires 1 <= k && n < Pow10(k)
    ensures |Digits(n)| <= k
    decreases k
  {
    assert Pow10(1) == 10;
    if n >= 10 {
      DigitsBound(n / 10, k - 1);
    }
  }

  /** A serialised response is at most 28 bytes long. */
  lemma PrintOutputShort(y: RangeOutput)
    ensures |PrintOutput(y)| <= 28
  {
    assert Pow10(10) == 10000000000;
    DigitsBound(y.random_number, 10);
  }

  /** `{min: 1, max: 10}` survives serialising and parsing unchanged. */
  lemma RangeExample()
    ensures ParseRange(PrintRange(RangeInput(1, 10))) == Some(RangeInput(1, 10))
  {
    ParseRangePrint(RangeInput(1, 10));
  }

  /** The serialisation of `{random_number: 42}` contains "42". */
  lemma OutputExample()
    ensures Contains(PrintOutput(RangeOutput(42)), "42")
  {
    assert Digits(42) == "42";
    PrintOutputContainsDigits(RangeOutput(42));
  }
}
