/**
 * The number conversions the backend relies on: `Number.prototype.toString` for
 * integers, `parseInt` with the default radix (decimal, or hexadecimal after "0x"), `String.prototype.padStart`,
 * `Math.ceil` of an integer quotient and `Array.prototype.slice`.
 */
module JsNumbers {
  import opened Wrappers
  import opened Strings

  predicate IsDigit(c: char) { '0' <= c <= '9' }

  predicate AllDigits(s: string) { forall i :: 0 <= i < |s| ==> IsDigit(s[i]) }

  function DigitChar(d: nat): (c: char)
    requires d < 10
    ensures IsDigit(c)
  {
    (('0' as int) + d) as char
  }

  function DigitValue(c: char): (d: nat)
    requires IsDigit(c)
    ensures d < 10 && DigitChar(d) == c
  {
    (c as int) - ('0' as int)
  }

  function Pow10(k: nat): (r: nat)
    ensures r >= 1
  {
    if k == 0 then 1 else 10 * Pow10(k - 1)
  }

  /** The value of a string of decimal digits, most significant first. */
  function DigitsValue(s: string): (n: nat)
    requires AllDigits(s)
    ensures n < Pow10(|s|)
  {
    if s == [] then 0 else DigitsValue(s[..|s| - 1]) * 10 + DigitValue(s[|s| - 1])
  }

  /**
   * `n.toString()` for a non-negative integer: decimal digits without a leading
   * zero, exactly as many as the magnitude of `n` requires.
   */
  function NatToString(n: nat): (r: string)
    ensures |r| >= 1 && AllDigits(r)
    ensures r[0] == '0' ==> r == "0"
    ensures n < Pow10(|r|)
    ensures |r| > 1 ==> Pow10(|r| - 1) <= n
  {
    if n < 10 then [DigitChar(n)] else NatToString(n / 10) + [DigitChar(n % 10)]
  }

  /** `i.toString()` for any integer. */
  function IntToString(i: int): (r: string)
    ensures |r| >= 1
    ensures i >= 0 ==> r == NatToString(i)
    ensures i < 0 ==> r == "-" + NatToString(-i)
  {
    if i < 0 then "-" + NatToString(-i) else NatToString(i)
  }

  /** Decoding the decimal rendering gives the number back. */
  lemma {:induction false} NatToStringValue(n: nat)
    ensures DigitsValue(NatToString(n)) == n
  {
    if n >= 10 {
      NatToStringValue(n / 10);
      var s := NatToString(n);
      assert s[..|s| - 1] == NatToString(n / 10);
    }
  }

  /** A number with exactly `k` decimal digits renders as `k` characters. */
  lemma {:induction false} NatToStringLength(n: nat, k: nat)
    requires k >= 1 && n < Pow10(k) && (k > 1 ==> Pow10(k - 1) <= n)
    ensures |NatToString(n)| == k
  {
    var r := NatToString(n);
    if |r| < k {
      Pow10Monotone(|r|, k - 1);
    } else if |r| > k {
      Pow10Monotone(k, |r| - 1);
    }
  }

  lemma {:induction false} Pow10Monotone(a: nat, b: nat)
    requires a <= b
    ensures Pow10(a) <= Pow10(b)
  {
    if a < b {
      Pow10Monotone(a, b - 1);
    }
  }

  /** `count` copies of one character. */
  function Repeat(c: char, count: nat): (r: string)
    ensures |r| == count && forall i :: 0 <= i < count ==> r[i] == c
  {
    if count == 0 then [] else [c] + Repeat(c, count - 1)
  }

  /**
   * `s.padStart(width, [fill])`: `s` preceded by as many `fill` characters as
   * bring it to `width`; a string already that long is returned unchanged.
   */
  function PadStart(s: string, width: nat, fill: char): (r: string)
    ensures |r| == if |s| >= width then |s| else width
    ensures r[|r| - |s|..] == s
    ensures forall i :: 0 <= i < |r| - |s| ==> r[i] == fill
  {
    if |s| >= width then s else Repeat(fill, width - |s|) + s
  }

  /** Leading zeros do not change the value of a digit string. */
  lemma {:induction false} LeadingZerosValue(zeros: string, s: string)
    requires forall i :: 0 <= i < |zeros| ==> zeros[i] == '0'
    requires AllDigits(s)
    ensures AllDigits(zeros + s) && DigitsValue(zeros + s) == DigitsValue(s)
  {
    if s == [] {
      assert zeros + s == zeros;
      if zeros != [] {
        LeadingZerosValue(zeros[..|zeros| - 1], []);
        assert zeros[..|zeros| - 1] + [] == zeros[..|zeros| - 1];
      }
    } else {
      var t := zeros + s;
      assert t[..|t| - 1] == zeros + s[..|s| - 1];
      LeadingZerosValue(zeros, s[..|s| - 1]);
    }
  }

  /** The longest prefix of `s` made of decimal digits. */
  function DigitPrefix(s: string): (r: string)
    ensures |r| <= |s| && r == s[..|r|] && AllDigits(r)
    ensures |r| == |s| || !IsDigit(s[|r|])
  {
    if s != [] && IsDigit(s[0]) then [s[0]] + DigitPrefix(s[1..]) else []
  }

  /**
   * `parseInt(s)` with the default radix: leading white space is skipped, an
   * optional sign is read, then a "0x" or "0X" prefix switches to radix 16;
   * the value is that of the longest run of digits of the radix, and with no
   * such digit the result is NaN, written None here.
   */
  function ParseInt(s: string): Option<int> {
    ParseSigned(TrimStart(Js, s))
  }

  /** `parseInt` after the white space: an optional sign, then the magnitude. */
  function ParseSigned(t: string): Option<int> {
    var u := if t != [] && (t[0] == '+' || t[0] == '-') then t[1..] else t;
    var v := ParseMagnitude(u);
    if t != [] && t[0] == '-' && v.Some? then Some(-v.value) else v
  }

  /** The "0x" or "0X" prefix that selects radix 16. */
  predicate HasHexPrefix(u: string) {
    |u| >= 2 && u[0] == '0' && (u[1] == 'x' || u[1] == 'X')
  }

  /** The unsigned part: hexadecimal digits after a hex prefix, decimal digits otherwise. */
  function ParseMagnitude(u: string): Option<int> {
    if HasHexPrefix(u) then ParseHexDigits(u[2..]) else ParseDigits(u)
  }

  /** The value of the longest run of leading digits; None when there is none. */
  function ParseDigits(u: string): Option<int> {
    var d := DigitPrefix(u);
    if d == [] then None else Some(DigitsValue(d) as int)
  }

  predicate IsHexDigit(c: char) { IsDigit(c) || 'a' <= c <= 'f' || 'A' <= c <= 'F' }

  predicate AllHexDigits(s: string) { forall i :: 0 <= i < |s| ==> IsHexDigit(s[i]) }

  function HexDigitValue(c: char): (d: nat)
    requires IsHexDigit(c)
    ensures d < 16
    ensures IsDigit(c) ==> d == DigitValue(c)
  {
    if IsDigit(c) then DigitValue(c)
    else if 'a' <= c <= 'f' then (c as int) - ('a' as int) + 10
    else (c as int) - ('A' as int) + 10
  }

  /** The value of a string of hexadecimal digits, most significant first. */
  function HexValue(s: string): nat
    requires AllHexDigits(s)
  {
    if s == [] then 0 else HexValue(s[..|s| - 1]) * 16 + HexDigitValue(s[|s| - 1])
  }

  /** The longest prefix of `s` made of hexadecimal digits. */
  function HexPrefix(s: string): (r: string)
    ensures |r| <= |s| && r == s[..|r|] && AllHexDigits(r)
    ensures |r| == |s| || !IsHexDigit(s[|r|])
  {
    if s != [] && IsHexDigit(s[0]) then [s[0]] + HexPrefix(s[1..]) else []
  }

  /** The value of the longest run of leading hexadecimal digits; None when there is none. */
  function ParseHexDigits(u: string): Option<int> {
    var h := HexPrefix(u);
    if h == [] then None else Some(HexValue(h) as int)
  }

  /** A run of hexadecimal digits followed by anything else parses to the run's value. */
  lemma {:induction false} HexPrefixOf(h: string, rest: string)
    requires AllHexDigits(h)
    requires rest == [] || !IsHexDigit(rest[0])
    ensures HexPrefix(h + rest) == h
  {
    if h != [] {
      assert (h + rest)[1..] == h[1..] + rest;
      HexPrefixOf(h[1..], rest);
    } else {
      assert h + rest == rest;
    }
  }

  /** After "0x", a run of hexadecimal digits is read in radix 16, up to the first other character. */
  lemma ParseIntOfHex(h: string, rest: string)
    requires h != [] && AllHexDigits(h)
    requires rest == [] || !IsHexDigit(rest[0])
    ensures ParseInt("0x" + h + rest) == Some(HexValue(h) as int)
  {
    var s := "0x" + h + rest;
    DigitOrMinusNotSpace(Js, '0');
    TrimStartOfNonSpace(Js, s);
    assert s[0] == '0' && s[1] == 'x' && s[2..] == h + rest;
    HexPrefixOf(h, rest);
    assert ParseMagnitude(s) == Some(HexValue(h) as int);
    assert ParseSigned(s) == Some(HexValue(h) as int);
  }

  /** "0x" with no hexadecimal digit after it is NaN, not 0. */
  lemma BareHexPrefixIsNaN()
    ensures ParseInt("0x") == None
  {
    DigitOrMinusNotSpace(Js, '0');
    TrimStartOfNonSpace(Js, "0x");
    assert "0x"[2..] == [];
  }

  /** Neither a decimal digit nor a minus sign is white space. */
  lemma DigitOrMinusNotSpace(p: Platform, c: char)
    requires IsDigit(c) || c == '-'
    ensures !IsSpace(p, c)
  {
  }

  /** A non-empty digit string is read whole. */
  lemma ParseDigitsOfDigits(d: string)
    requires d != [] && AllDigits(d)
    ensures ParseMagnitude(d) == Some(DigitsValue(d) as int)
  {
    assert |d| >= 2 ==> IsDigit(d[1]);
    DigitPrefixOf(d, []);
    assert d + [] == d;
  }

  /** A digit string, possibly signed, parses to its value. */
  lemma ParseIntOfDigits(d: string, negative: bool)
    requires d != [] && AllDigits(d)
    ensures ParseInt(if negative then "-" + d else d) == Some(if negative then -(DigitsValue(d) as int) else DigitsValue(d) as int)
  {
    if negative {
      ParseNegativeDigits(d);
    } else {
      ParseUnsignedDigits(d);
    }
  }

  lemma ParseUnsignedDigits(d: string)
    requires d != [] && AllDigits(d)
    ensures ParseInt(d) == Some(DigitsValue(d) as int)
  {
    DigitOrMinusNotSpace(Js, d[0]);
    TrimStartOfNonSpace(Js, d);
    assert d[0] != '+' && d[0] != '-';
    ParseDigitsOfDigits(d);
    assert ParseSigned(d) == Some(DigitsValue(d) as int);
  }

  lemma ParseNegativeDigits(d: string)
    requires d != [] && AllDigits(d)
    ensures ParseInt("-" + d) == Some(-(DigitsValue(d) as int))
  {
    MinusNotSpace("-" + d);
    ParseSignedMinus(d);
    ParseDigitsOfDigits(d);
  }

  /** A minus sign negates whatever magnitude follows it. */
  lemma ParseSignedMinus(u: string)
    ensures ParseSigned("-" + u) == if ParseMagnitude(u).Some? then Some(-ParseMagnitude(u).value) else None
  {
    var t := "-" + u;
    assert t[0] == '-' && t[1..] == u;
  }

  /** A text starting with a minus sign has no leading white space. */
  lemma MinusNotSpace(s: string)
    requires s != [] && s[0] == '-'
    ensures TrimStart(Js, s) == s
  {
    DigitOrMinusNotSpace(Js, '-');
    TrimStartOfNonSpace(Js, s);
  }

  /** A run of digits followed by anything that is not a digit parses to the run's value. */
  lemma {:induction false} DigitPrefixOf(d: string, rest: string)
    requires AllDigits(d)
    requires rest == [] || !IsDigit(rest[0])
    ensures DigitPrefix(d + rest) == d
  {
    if d != [] {
      assert (d + rest)[1..] == d[1..] + rest;
      DigitPrefixOf(d[1..], rest);
    } else {
      assert d + rest == rest;
    }
  }

  /** Round trip: `parseInt(String(i)) == i` for every integer. */
  lemma IntToStringParses(i: int)
    ensures ParseInt(IntToString(i)) == Some(i)
  {
    var n: nat := if i < 0 then -i else i;
    NatToStringValue(n);
    ParseIntOfDigits(NatToString(n), i < 0);
  }

  /** Round trip through zero padding: `parseInt(String(n).padStart(w, '0')) == n`. */
  lemma PaddedParses(n: nat, width: nat)
    ensures ParseInt(PadStart(NatToString(n), width, '0')) == Some(n)
  {
    var digits := NatToString(n);
    var padded := PadStart(digits, width, '0');
    var zeros := padded[..|padded| - |digits|];
    assert padded == zeros + digits;
    LeadingZerosValue(zeros, digits);
    NatToStringValue(n);
    ParseIntOfDigits(padded, false);
  }

  /** `Math.floor(a / b)` for integers, `b != 0`. */
  function FloorDiv(a: int, b: int): (q: int)
    requires b != 0
    ensures b > 0 ==> q * b <= a < (q + 1) * b
    ensures b < 0 ==> (q + 1) * b < a <= q * b
  {
    if b > 0 then a / b else (-a) / (-b)
  }

  /** `Math.ceil(a / b)` for integers, `b != 0`: the least integer not below the quotient. */
  function CeilDiv(a: int, b: int): (q: int)
    requires b != 0
    ensures b > 0 ==> (q - 1) * b < a <= q * b
    ensures b < 0 ==> q * b <= a < (q - 1) * b
  {
    -FloorDiv(-a, b)
  }

  function Min(a: int, b: int): int { if a <= b then a else b }

  function Max(a: int, b: int): int { if a >= b then a else b }

  /** The index `Array.prototype.slice` makes of a start or end argument: negative counts from the end. */
  function SliceIndex(i: int, len: nat): (k: nat)
    ensures k <= len
    ensures 0 <= i ==> k == if i < len then i else len
    ensures i < 0 ==> k == if len + i < 0 then 0 else len + i
  {
    if i < 0 then (if len + i < 0 then 0 else len + i) else if i < len then i else len
  }

  /** `s.slice(start, end)`. */
  function Slice<T>(s: seq<T>, start: int, end: int): (r: seq<T>)
    ensures |r| <= |s|
    ensures 0 <= start <= end <= |s| ==> r == s[start..end]
    ensures 0 <= start <= end ==> r == s[Min(start, |s|)..Min(end, |s|)]
    ensures 0 <= start && end < 0 ==> r == (if start < |s| + end then s[start..|s| + end] else [])
  {
    var a, b := SliceIndex(start, |s|), SliceIndex(end, |s|);
    if a < b then s[a..b] else []
  }
}
