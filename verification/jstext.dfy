/** The few JavaScript string built-ins the application relies on:
    `slice` with a prefix or a negative start, ASCII `toLowerCase` /
    `toUpperCase`, `includes`, and the global `parseInt` without a radix.
    Strings are sequences of Unicode scalar values here, not UTF-16 code
    units. */
module JsText {
  import opened Wrappers

  function Min(a: int, b: int): int { if a <= b then a else b }

  /** `s.slice(0, n)` for n >= 0. */
  function Take(s: string, n: nat): (r: string)
    ensures |r| == Min(n, |s|)
    ensures r == s[..|r|]
  {
    if n <= |s| then s[..n] else s
  }

  /** `s.slice(-n)` for n > 0: the last `n` characters, or all of a shorter string. */
  function TakeLast(s: string, n: nat): (r: string)
    ensures |r| == Min(n, |s|)
    ensures r == s[|s| - |r|..]
  {
    if n <= |s| then s[|s| - n..] else s
  }

  /** `${s.slice(0, 6)}...${s.slice(-4)}`: the display form of an address. */
  function Abbreviate(s: string): (r: string)
    ensures |r| == Min(6, |s|) + 3 + Min(4, |s|)
    ensures |r| <= 13
    ensures |r| == 13 <==> |s| >= 6
    ensures r[..Min(6, |s|)] == s[..Min(6, |s|)]
    ensures r[Min(6, |s|)..Min(6, |s|) + 3] == "..."
    ensures r[Min(6, |s|) + 3..] == s[|s| - Min(4, |s|)..]
  {
    Take(s, 6) + "..." + TakeLast(s, 4)
  }

  predicate IsUpper(c: char) { 'A' <= c <= 'Z' }
  predicate IsLower(c: char) { 'a' <= c <= 'z' }

  function LowerChar(c: char): char {
    if IsUpper(c) then (c as int + 32) as char else c
  }

  function UpperChar(c: char): char {
    if IsLower(c) then (c as int - 32) as char else c
  }

  /** `toLowerCase` restricted to the ASCII letters. */
  function Lower(s: string): (r: string)
    ensures |r| == |s|
    ensures forall i :: 0 <= i < |s| ==> r[i] == LowerChar(s[i])
  {
    seq(|s|, i requires 0 <= i < |s| => LowerChar(s[i]))
  }

  /** `toUpperCase` restricted to the ASCII letters. */
  function Upper(s: string): (r: string)
    ensures |r| == |s|
    ensures forall i :: 0 <= i < |s| ==> r[i] == UpperChar(s[i])
  {
    seq(|s|, i requires 0 <= i < |s| => UpperChar(s[i]))
  }

  lemma LowerIdempotent(s: string)
    ensures Lower(Lower(s)) == Lower(s)
  {
  }

  /** `needle` occurs in `hay` starting at position `i`. */
  predicate OccursAt(hay: string, needle: string, i: int) {
    0 <= i && i + |needle| <= |hay| && hay[i..i + |needle|] == needle
  }

  /** `hay.includes(needle)`, scanning from the left. */
  function Includes(hay: string, needle: string): (b: bool)
    decreases |hay|
  {
    if |needle| > |hay| then false
    else if hay[..|needle|] == needle then true
    else Includes(hay[1..], needle)
  }

  lemma {:induction false} IncludesIffOccurs(hay: string, needle: string)
    ensures Includes(hay, needle) <==> exists i :: OccursAt(hay, needle, i)
    decreases |hay|
  {
    if |needle| > |hay| {
    } else if hay[..|needle|] == needle {
      assert OccursAt(hay, needle, 0);
    } else {
      IncludesIffOccurs(hay[1..], needle);
      forall i | OccursAt(hay, needle, i)
        ensures OccursAt(hay[1..], needle, i - 1)
      {
        assert i != 0;
        assert hay[1..][i - 1..i - 1 + |needle|] == hay[i..i + |needle|];
      }
      forall i | OccursAt(hay[1..], needle, i)
        ensures OccursAt(hay, needle, i + 1)
      {
        assert hay[1..][i..i + |needle|] == hay[i + 1..i + 1 + |needle|];
      }
    }
  }

  /** The empty string occurs in every string. */
  lemma IncludesEmpty(hay: string)
    ensures Includes(hay, "")
  {
    assert hay[..0] == "";
  }

  // ---------------------------------------------------------------------
  // parseInt

  /** The characters ECMAScript's `StrWhiteSpaceChar` admits: the
      white-space and line-terminator code points. */
  predicate IsJsSpace(c: char) {
    var n := c as int;
    n in {0x09, 0x0A, 0x0B, 0x0C, 0x0D, 0x20, 0xA0, 0x1680, 0x2028, 0x2029, 0x202F, 0x205F, 0x3000, 0xFEFF}
    || 0x2000 <= n <= 0x200A
  }

  function TrimStart(s: string): (r: string)
    ensures |r| <= |s| && r == s[|s| - |r|..]
    ensures |r| > 0 ==> !IsJsSpace(r[0])
  {
    if |s| > 0 && IsJsSpace(s[0]) then TrimStart(s[1..]) else s
  }

  /** Value of `c` as a digit in `radix` (10 or 16), if it is one. */
  function DigitValue(c: char, radix: nat): (r: Option<nat>)
    ensures r.Some? ==> r.value < radix
  {
    if '0' <= c <= '9' && (c as int - '0' as int) < radix then Some(c as int - '0' as int)
    else if radix == 16 && 'a' <= c <= 'f' then Some(c as int - 'a' as int + 10)
    else if radix == 16 && 'A' <= c <= 'F' then Some(c as int - 'A' as int + 10)
    else None
  }

  /** Length of the longest prefix made of digits. */
  function DigitRun(s: string, radix: nat): (n: nat)
    ensures n <= |s|
    ensures forall i :: 0 <= i < n ==> DigitValue(s[i], radix).Some?
    ensures n < |s| ==> DigitValue(s[n], radix).None?
  {
    if |s| == 0 || DigitValue(s[0], radix).None? then 0 else 1 + DigitRun(s[1..], radix)
  }

  /** Value of a string of digits, most significant first. */
  function DigitsValue(s: string, radix: nat): nat
    requires forall i :: 0 <= i < |s| ==> DigitValue(s[i], radix).Some?
  {
    if |s| == 0 then 0
    else DigitsValue(s[..|s| - 1], radix) * radix + DigitValue(s[|s| - 1], radix).value
  }

  /** The digits after the sign: base 16 after `0x`/`0X`, else base 10;
      no digit at all is `NaN`, written `None`. */
  function ParseUnsigned(u: string): (r: Option<nat>)
  {
    var hex := |u| >= 2 && u[0] == '0' && (u[1] == 'x' || u[1] == 'X');
    var radix := if hex then 16 else 10;
    var body := if hex then u[2..] else u;
    var n := DigitRun(body, radix);
    if n == 0 then None else Some(DigitsValue(body[..n], radix))
  }

  /** The global `parseInt(s)`: skip leading white space, read an optional
      sign, then the longest run of digits. */
  function ParseInt(s: string): (r: Option<int>)
  {
    var t := TrimStart(s);
    if |t| > 0 && t[0] == '-' then
      match ParseUnsigned(t[1..]) case None => None case Some(v) => Some(-(v as int))
    else if |t| > 0 && t[0] == '+' then
      match ParseUnsigned(t[1..]) case None => None case Some(v) => Some(v)
    else
      match ParseUnsigned(t) case None => None case Some(v) => Some(v)
  }

  // ---------------------------------------------------------------------
  // Decimal rendering, the inverse of parseInt on natural numbers

  function DigitChar(d: nat): (c: char)
    requires d < 10
    ensures DigitValue(c, 10) == Some(d)
  {
    ('0' as int + d) as char
  }

  /** The decimal numeral of `n`, as `String(n)` writes it. */
  function Decimal(n: nat): (r: string)
    ensures |r| > 0
    ensures forall i :: 0 <= i < |r| ==> DigitValue(r[i], 10).Some?
    ensures DigitValue(r[0], 10).Some?
  {
    if n < 10 then [DigitChar(n)] else Decimal(n / 10) + [DigitChar(n % 10)]
  }

  lemma {:induction false} DecimalValue(n: nat)
    ensures DigitsValue(Decimal(n), 10) == n
  {
    if n >= 10 {
      var r := Decimal(n);
      assert r[..|r| - 1] == Decimal(n / 10);
      DecimalValue(n / 10);
    }
  }

  lemma DigitRunAll(s: string, radix: nat)
    requires forall i :: 0 <= i < |s| ==> DigitValue(s[i], radix).Some?
    ensures DigitRun(s, radix) == |s|
  {
  }

  /** `parseInt(String(n)) === n` for every natural number. */
  lemma ParseIntDecimal(n: nat)
    ensures ParseInt(Decimal(n)) == Some(n)
  {
    var s := Decimal(n);
    assert '0' <= s[0] <= '9';
    assert !IsJsSpace(s[0]);
    assert TrimStart(s) == s;
    ParseUnsignedDecimal(n);
  }

  lemma ParseUnsignedDecimal(n: nat)
    ensures ParseUnsigned(Decimal(n)) == Some(n)
  {
    ParseUnsignedDigits(Decimal(n));
    DecimalValue(n);
  }

  /** A non-empty run of decimal digits is read whole, in base 10. */
  lemma ParseUnsignedDigits(s: string)
    requires |s| > 0
    requires forall i :: 0 <= i < |s| ==> DigitValue(s[i], 10).Some?
    ensures ParseUnsigned(s) == Some(DigitsValue(s, 10))
  {
    assert |s| >= 2 ==> DigitValue(s[1], 10).Some?;
    DigitRunAll(s, 10);
    assert s[..|s|] == s;
  }

  /** Strings with no digits after the optional sign are `NaN`. */
  lemma ParseIntEmpty()
    ensures ParseInt("") == None
  {
  }

  // ---------------------------------------------------------------------
  // Truthiness of the JSON fields a request may carry. A missing field is
  // `None`; `""`, `0` and `false` are the falsy values of each type.

  predicate TruthyStr(o: Option<string>) { o.Some? && |o.value| > 0 }
  predicate TruthyInt(o: Option<int>) { o.Some? && o.value != 0 }
  predicate TruthyBool(o: Option<bool>) { o.Some? && o.value }

  /** `o || d` on an optional string. */
  function OrStr(o: Option<string>, d: string): string {
    if TruthyStr(o) then o.value else d
  }

  /** `o || d` on an optional number. */
  function OrInt(o: Option<int>, d: int): int {
    if TruthyInt(o) then o.value else d
  }
}
