/**
 * Decimal numerals for 32-bit unsigned integers: parsing as Rust's
 * `str::parse::<u32>` does it, and rendering as `format!("{}", n)` does it.
 * The parser scans left to right with overflow checks; its meaning is given
 * independently by `IsU32Numeral` and `Value` (positional value, read from
 * the last digit).
 */
module Decimal {
  import opened Wrappers

  const U32Max: nat := 4294967295

  type U32 = n: nat | n <= U32Max

  /** The error kinds of Rust's `ParseIntError` that an unsigned parse can report. */
  datatype ParseError = Empty | InvalidDigit | PosOverflow

  predicate IsDigit(c: char) { '0' <= c <= '9' }

  function DigitValue(c: char): (d: nat)
    requires IsDigit(c)
    ensures d < 10
  {
    c as int - '0' as int
  }

  function DigitChar(d: nat): (c: char)
    requires d < 10
    ensures IsDigit(c) && DigitValue(c) == d
  {
    ('0' as int + d) as char
  }

  predicate AllDigits(s: string) {
    forall i :: 0 <= i < |s| ==> IsDigit(s[i])
  }

  function Pow10(n: nat): (p: nat)
    ensures p >= 1
  {
    if n == 0 then 1 else 10 * Pow10(n - 1)
  }

  /** Positional value of a digit string; the last digit is the units digit. */
  function Value(ds: string): nat
    requires AllDigits(ds)
  {
    if ds == [] then 0 else Value(ds[..|ds| - 1]) * 10 + DigitValue(ds[|ds| - 1])
  }

  /** The digits part of a numeral: everything after one optional leading `+`. */
  function DigitsOf(s: string): (d: string)
    ensures d == s || (|s| > 0 && s[0] == '+' && d == s[1..])
  {
    if |s| > 0 && s[0] == '+' then s[1..] else s
  }

  /** The strings that `parse::<u32>` accepts: an optional `+`, then at least one ASCII digit, value at most `U32Max`. */
  predicate IsU32Numeral(s: string) {
    var ds := DigitsOf(s);
    |ds| > 0 && AllDigits(ds) && Value(ds) <= U32Max
  }

  /** The value `parse::<u32>` gives an accepted string. */
  function NumeralValue(s: string): U32
    requires IsU32Numeral(s)
  {
    Value(DigitsOf(s))
  }

  /** The digit loop of `from_str_radix`: invalid digit first, then overflow of `acc * 10`, then of `+ d`. */
  function Scan(ds: string, acc: U32): (r: Result<U32, ParseError>)
    ensures r != Err(Empty)
    ensures r.Ok? ==> AllDigits(ds) && r.value >= acc
    decreases |ds|
  {
    if ds == [] then Ok(acc)
    else if !IsDigit(ds[0]) then Err(InvalidDigit)
    else if acc * 10 > U32Max then Err(PosOverflow)
    else if acc * 10 + DigitValue(ds[0]) > U32Max then Err(PosOverflow)
    else Scan(ds[1..], acc * 10 + DigitValue(ds[0]))
  }

  /** `str::parse::<u32>`: empty input, a lone sign, an optional `+`, then the digit loop. */
  function Parse(s: string): (r: Result<U32, ParseError>)
    ensures r.Ok? <==> IsU32Numeral(s)
    ensures r.Ok? ==> r.value == NumeralValue(s)
    ensures r == Err(Empty) <==> s == ""
  {
    if s == "" then Err(Empty)
    else if (s[0] == '+' || s[0] == '-') && |s| == 1 then Err(InvalidDigit)
    else
      var ds := if s[0] == '+' then s[1..] else s;
      if AllDigits(ds) then ScanMeaning(ds, 0); Scan(ds, 0)
      else ScanRejects(ds, 0); Scan(ds, 0)
  }

  /** `format!("{}", n)`: decimal digits, most significant first, no leading zero. */
  function Render(n: nat): (s: string)
    ensures |s| > 0 && AllDigits(s) && Value(s) == n
    ensures s[0] == '0' ==> n == 0 && s == "0"
  {
    if n < 10 then [DigitChar(n)]
    else
      var s := Render(n / 10) + [DigitChar(n % 10)];
      assert s[..|s| - 1] == Render(n / 10);
      s
  }

  /** A canonical numeral: what `Render` produces. */
  predicate IsCanonical(ds: string) {
    |ds| > 0 && AllDigits(ds) && (ds[0] == '0' ==> |ds| == 1)
  }

  /** Reading the first digit off the front: `Value(c :: rest) == c * 10^|rest| + Value(rest)`. */
  lemma {:induction false} ValueHead(ds: string)
    requires AllDigits(ds) && |ds| > 0
    ensures Value(ds) == DigitValue(ds[0]) * Pow10(|ds| - 1) + Value(ds[1..])
  {
    if |ds| == 1 {
      assert ds[..0] == [];
      assert ds[1..] == [];
    } else {
      var init, rest := ds[..|ds| - 1], ds[1..];
      ValueHead(init);
      assert init[0] == ds[0];
      assert init[1..] == rest[..|rest| - 1];
      assert rest[|rest| - 1] == ds[|ds| - 1];
      var d0, dl, p, v := DigitValue(ds[0]), DigitValue(ds[|ds| - 1]), Pow10(|ds| - 2), Value(init[1..]);
      assert Value(rest) == v * 10 + dl;
      assert Value(ds) == (d0 * p + v) * 10 + dl;
      Shift(d0, p, v, dl);
    }
  }

  lemma Shift(d: nat, p: nat, v: nat, e: nat)
    ensures (d * p + v) * 10 + e == d * (10 * p) + (v * 10 + e)
  {
  }

  lemma Regroup(acc: nat, d: nat, p: nat, v: nat)
    requires p >= 1
    ensures acc * (10 * p) + (d * p + v) == (acc * 10 + d) * p + v
    ensures (acc * 10 + d) * p + v >= acc * 10 + d
  {
  }

  /**
   * What the digit loop computes on a digit string: the value
   * `acc * 10^|ds| + Value(ds)` when that fits in 32 bits, overflow otherwise.
   */
  lemma {:induction false} ScanMeaning(ds: string, acc: U32)
    requires AllDigits(ds)
    ensures acc * Pow10(|ds|) + Value(ds) <= U32Max ==>
      Scan(ds, acc) == Ok(acc * Pow10(|ds|) + Value(ds))
    ensures acc * Pow10(|ds|) + Value(ds) > U32Max ==>
      Scan(ds, acc) == Err(PosOverflow)
    decreases |ds|
  {
    if ds != [] {
      var d := DigitValue(ds[0]);
      var rest := ds[1..];
      assert AllDigits(rest);
      ValueHead(ds);
      Regroup(acc, d, Pow10(|rest|), Value(rest));
      if acc * 10 + d <= U32Max {
        ScanMeaning(rest, acc * 10 + d);
      }
    }
  }

  /** The digit loop refuses any string holding a non-digit. */
  lemma {:induction false} ScanRejects(ds: string, acc: U32)
    requires !AllDigits(ds)
    ensures Scan(ds, acc).Err? && Scan(ds, acc) != Err(Empty)
    decreases |ds|
  {
    if IsDigit(ds[0]) {
      var i :| 0 <= i < |ds| && !IsDigit(ds[i]);
      assert i > 0 && !IsDigit(ds[1..][i - 1]);
      var next := acc * 10 + DigitValue(ds[0]);
      if next <= U32Max {
        ScanRejects(ds[1..], next);
      }
    }
  }

  /** Rendering then parsing gives back every 32-bit value. */
  lemma RenderParse(n: U32)
    ensures Parse(Render(n)) == Ok(n)
  {
  }

  /** Parsing a canonical numeral then rendering gives back the same text. */
  lemma {:induction false} ParseRender(ds: string)
    requires IsCanonical(ds)
    ensures Render(Value(ds)) == ds
    decreases |ds|
  {
    if |ds| > 1 {
      var init := ds[..|ds| - 1];
      assert init[0] == ds[0];
      ValuePositive(init);
      ParseRender(init);
      var n := Value(ds);
      assert n / 10 == Value(init) && n % 10 == DigitValue(ds[|ds| - 1]);
      assert ds == init + [ds[|ds| - 1]];
    }
  }

  lemma {:induction false} ValuePositive(ds: string)
    requires AllDigits(ds) && |ds| > 0 && ds[0] != '0'
    ensures Value(ds) >= 1
    decreases |ds|
  {
    if |ds| > 1 {
      var init := ds[..|ds| - 1];
      assert init[0] == ds[0];
      ValuePositive(init);
    }
  }

  /** Distinct values render differently. */
  lemma RenderInjective(m: nat, n: nat)
    requires Render(m) == Render(n)
    ensures m == n
  {
  }

  /** A leading zero does not change what is parsed: `0500` reads as `500`. */
  lemma LeadingZero(ds: string)
    requires |ds| > 0 && AllDigits(ds)
    ensures Parse("0" + ds) == Parse(ds)
  {
  }

  /** Concrete readings from the source's tests: `x500` is refused, `0500` reads as 500. */
  lemma Examples()
    ensures Parse("x500") == Err(InvalidDigit)
    ensures Parse("0500") == Ok(500)
    ensures Render(500) == "500"
    ensures Render(404) == "404"
  {
  }

  /** A numeral for a value past `U32Max` is refused as an overflow, not as a bad digit. */
  lemma RenderTooLarge(n: nat)
    requires n > U32Max
    ensures Parse(Render(n)) == Err(PosOverflow)
  {
    var s := Render(n);
    assert s[0] != '+' && s[0] != '-';
    ScanMeaning(s, 0);
  }
}
