/**
 * The JavaScript standard-library operations the dashboard relies on, stated on
 * Dafny strings and sequences: `String.prototype.trim`, `startsWith`, `slice`,
 * ASCII `toUpperCase`, `parseInt(_, 10)`, the template-literal rendering of a
 * natural number, `Array.prototype.join` and `reverse`.
 */
module JsBuiltins {

  /** A JavaScript number as the model needs it: a real value, or NaN. */
  datatype JsNumber = Num(x: real) | NaN

  // ---------------------------------------------------------------------------
  // Whitespace and trimming
  // ---------------------------------------------------------------------------

  /** The ECMAScript WhiteSpace and LineTerminator code points, which `trim` and `parseInt` skip. */
  predicate IsWhitespace(c: char) {
    || c == '\t' || c == '\n' || c == '\U{000B}' || c == '\U{000C}' || c == '\r'
    || c == ' ' || c == '\U{00A0}' || c == '\U{1680}'
    || ('\U{2000}' <= c <= '\U{200A}')
    || c == '\U{2028}' || c == '\U{2029}' || c == '\U{202F}' || c == '\U{205F}'
    || c == '\U{3000}' || c == '\U{FEFF}'
  }

  /** How many whitespace characters `s` starts with. */
  function LeadingWhitespace(s: string): (n: nat)
    ensures n <= |s|
    ensures forall i :: 0 <= i < n ==> IsWhitespace(s[i])
    ensures n < |s| ==> !IsWhitespace(s[n])
  {
    if s != [] && IsWhitespace(s[0]) then 1 + LeadingWhitespace(s[1..]) else 0
  }

  /** How many whitespace characters `s` ends with. */
  function TrailingWhitespace(s: string): (n: nat)
    ensures n <= |s|
    ensures forall i :: |s| - n <= i < |s| ==> IsWhitespace(s[i])
    ensures n < |s| ==> !IsWhitespace(s[|s| - n - 1])
  {
    if s != [] && IsWhitespace(s[|s| - 1]) then 1 + TrailingWhitespace(s[..|s| - 1]) else 0
  }

  /** `s` with its leading whitespace removed (the first step of `parseInt`). */
  function TrimStart(s: string): string {
    s[LeadingWhitespace(s)..]
  }

  /** True when `s` has no whitespace at either end. */
  predicate IsTrimmed(s: string) {
    s == [] || (!IsWhitespace(s[0]) && !IsWhitespace(s[|s| - 1]))
  }

  /**
   * `String.prototype.trim`: the part of `s` left after cutting the leading and
   * the trailing whitespace. It has no whitespace at either end, everything cut
   * off is whitespace, and a string that is already trimmed is returned unchanged.
   */
  function Trim(s: string): (r: string)
    ensures IsTrimmed(r)
    ensures var k := LeadingWhitespace(s);
            && k + |r| <= |s| && r == s[k..k + |r|]
            && forall i :: k + |r| <= i < |s| ==> IsWhitespace(s[i])
    ensures IsTrimmed(s) ==> r == s
  {
    var k := LeadingWhitespace(s);
    var t := s[k..];
    var m := TrailingWhitespace(t);
    assert forall i :: |t| - m <= i < |t| ==> t[i] == s[k + i];
    s[k..|s| - m]
  }

  /** Trimming twice is trimming once. */
  lemma TrimIdempotent(s: string)
    ensures Trim(Trim(s)) == Trim(s)
  {
  }

  // ---------------------------------------------------------------------------
  // startsWith and slice
  // ---------------------------------------------------------------------------

  /** `String.prototype.startsWith`. */
  predicate StartsWith(s: string, prefix: string) {
    |prefix| <= |s| && s[..|prefix|] == prefix
  }

  /** How `slice` resolves an index argument: a negative one counts from the end, and the result is clamped to `[0, len]`. */
  function RelativeIndex(k: int, len: nat): (i: nat)
    ensures i <= len
    ensures 0 <= k <= len ==> i == k
    ensures k < 0 && 0 <= len + k ==> i == len + k
    ensures k > len ==> i == len
    ensures len + k < 0 ==> i == 0
  {
    if k < 0 then (if len + k < 0 then 0 else len + k)
    else if k > len then len
    else k
  }

  /** `String.prototype.slice(start, end)`: empty when the resolved start is not before the resolved end. */
  function Slice(s: string, start: int, end: int): (r: string)
    ensures |r| <= |s|
    ensures 0 <= start <= end <= |s| ==> r == s[start..end]
    ensures end < 0 && 0 <= start <= |s| + end ==> r == s[start..|s| + end]
    ensures RelativeIndex(start, |s|) >= RelativeIndex(end, |s|) ==> r == []
  {
    var from, to := RelativeIndex(start, |s|), RelativeIndex(end, |s|);
    if from < to then s[from..to] else []
  }

  // ---------------------------------------------------------------------------
  // toUpperCase
  // ---------------------------------------------------------------------------

  /** The upper-case form of one character, for the ASCII letters. */
  function UpperChar(c: char): char {
    if 'a' <= c <= 'z' then (c as int - 32) as char else c
  }

  /** `String.prototype.toUpperCase`, restricted to ASCII case mapping: character by character. */
  function ToUpper(s: string): (r: string)
    ensures |r| == |s|
    ensures forall i :: 0 <= i < |s| ==> r[i] == UpperChar(s[i])
  {
    if s == [] then [] else [UpperChar(s[0])] + ToUpper(s[1..])
  }

  /** Upper-casing an upper-cased string changes nothing. */
  lemma ToUpperIdempotent(s: string)
    ensures ToUpper(ToUpper(s)) == ToUpper(s)
  {
  }

  // ---------------------------------------------------------------------------
  // Decimal digits: `${n}` and parseInt(s, 10)
  // ---------------------------------------------------------------------------

  predicate IsDigit(c: char) {
    '0' <= c <= '9'
  }

  predicate AllDigits(s: string) {
    forall i :: 0 <= i < |s| ==> IsDigit(s[i])
  }

  function DigitChar(d: nat): (c: char)
    requires d < 10
    ensures IsDigit(c) && c as int - '0' as int == d
  {
    ('0' as int + d) as char
  }

  /** The template-literal rendering `${n}` of a natural number: its decimal digits, most significant first, without leading zeros. */
  function DecimalString(n: nat): (r: string)
    ensures |r| > 0 && AllDigits(r)
    ensures r[0] == '0' ==> n == 0
  {
    if n < 10 then [DigitChar(n)] else DecimalString(n / 10) + [DigitChar(n % 10)]
  }

  /** The value of a string of decimal digits. */
  function DigitsValue(d: string): nat
    requires AllDigits(d)
  {
    if d == [] then 0
    else DigitsValue(d[..|d| - 1]) * 10 + (d[|d| - 1] as int - '0' as int)
  }

  /** The longest prefix of `s` made of decimal digits: where `parseInt` stops reading. */
  function DigitPrefix(s: string): (r: string)
    ensures |r| <= |s| && r == s[..|r|] && AllDigits(r)
    ensures |r| < |s| ==> !IsDigit(s[|r|])
  {
    if s != [] && IsDigit(s[0]) then [s[0]] + DigitPrefix(s[1..]) else []
  }

  /**
   * `parseInt(s, 10)`: skip leading whitespace, read an optional sign, then the
   * longest run of decimal digits; NaN when that run is empty.
   */
  function ParseInt(s: string): (r: JsNumber) {
    var t := TrimStart(s);
    var negative := t != [] && t[0] == '-';
    var unsigned := if t != [] && (t[0] == '-' || t[0] == '+') then t[1..] else t;
    var digits := DigitPrefix(unsigned);
    if digits == [] then NaN
    else if negative then Num(-(DigitsValue(digits) as real))
    else Num(DigitsValue(digits) as real)
  }

  lemma {:induction false} DigitsValueOfDecimal(n: nat)
    ensures DigitsValue(DecimalString(n)) == n
  {
    var d := DecimalString(n);
    if n >= 10 {
      var p := DecimalString(n / 10);
      assert d == p + [DigitChar(n % 10)];
      assert d[..|d| - 1] == p;
      DigitsValueOfDecimal(n / 10);
    } else {
      assert d[..|d| - 1] == [];
    }
  }

  lemma DigitPrefixOfDigits(s: string)
    requires AllDigits(s)
    ensures DigitPrefix(s) == s
  {
  }

  /** Parsing the rendering of a natural number gives that number back. */
  lemma ParseIntOfDecimal(n: nat)
    ensures ParseInt(DecimalString(n)) == Num(n as real)
  {
    var d := DecimalString(n);
    assert !IsWhitespace(d[0]) && d[0] != '-' && d[0] != '+' by { assert IsDigit(d[0]); }
    assert TrimStart(d) == d;
    DigitPrefixOfDigits(d);
    DigitsValueOfDecimal(n);
  }

  /** True when every character of `w` is whitespace. */
  predicate AllWhitespace(w: string) {
    forall i :: 0 <= i < |w| ==> IsWhitespace(w[i])
  }

  /** No decimal digit is whitespace. */
  lemma DigitIsNotWhitespace(c: char)
    requires IsDigit(c)
    ensures !IsWhitespace(c)
  {
  }

  /** `s` with `w` cut from its front, when `w` is whitespace and what follows does not start with whitespace. */
  lemma TrimStartAfterWhitespace(w: string, t: string)
    requires AllWhitespace(w)
    requires t == [] || !IsWhitespace(t[0])
    ensures TrimStart(w + t) == t
  {
    var n := LeadingWhitespace(w + t);
    assert forall i :: 0 <= i < |w| ==> (w + t)[i] == w[i];
    assert |w| < |w + t| ==> (w + t)[|w|] == t[0];
    assert n == |w|;
  }

  /** The digits `parseInt` reads from `d + rest` are exactly `d` when `rest` does not continue the run. */
  lemma DigitPrefixStops(d: string, rest: string)
    requires AllDigits(d)
    requires rest == [] || !IsDigit(rest[0])
    ensures DigitPrefix(d + rest) == d
  {
    var r := DigitPrefix(d + rest);
    assert forall i :: 0 <= i < |d| ==> (d + rest)[i] == d[i];
    assert forall i :: 0 <= i < |r| ==> r[i] == (d + rest)[i];
    assert |d| < |d + rest| ==> (d + rest)[|d|] == rest[0];
    assert |r| == |d|;
  }

  /**
   * `parseInt` skips leading whitespace and stops at the first character
   * after the digits: whatever follows the digit run does not matter.
   */
  lemma ParseIntReadsLeadingDigits(w: string, d: string, rest: string)
    requires AllWhitespace(w)
    requires |d| > 0 && AllDigits(d)
    requires rest == [] || !IsDigit(rest[0])
    ensures ParseInt(w + (d + rest)) == Num(DigitsValue(d) as real)
  {
    var t := d + rest;
    assert t[0] == d[0];
    DigitIsNotWhitespace(t[0]);
    TrimStartAfterWhitespace(w, t);
    DigitPrefixStops(d, rest);
    ParseIntUnsigned(w + t, d);
  }

  /** When the text after the leading whitespace starts with a digit, `parseInt` is the value of its digit prefix. */
  lemma ParseIntUnsigned(s: string, d: string)
    requires TrimStart(s) != [] && IsDigit(TrimStart(s)[0])
    requires DigitPrefix(TrimStart(s)) == d
    ensures d != [] && ParseInt(s) == Num(DigitsValue(d) as real)
  {
  }

  /** A string without any decimal digit parses to NaN. */
  lemma ParseIntWithoutDigits(s: string)
    requires forall i :: 0 <= i < |s| ==> !IsDigit(s[i])
    ensures ParseInt(s) == NaN
  {
  }

  // ---------------------------------------------------------------------------
  // join and split
  // ---------------------------------------------------------------------------

  /** `Array.prototype.join(sep)`: the parts with `sep` between consecutive ones; the empty array joins to "". */
  function Join(parts: seq<string>, sep: string): (r: string)
    ensures |parts| == 0 ==> r == ""
    ensures |parts| > 0 ==> StartsWith(r, parts[0])
  {
    if |parts| == 0 then ""
    else if |parts| == 1 then parts[0]
    else parts[0] + sep + Join(parts[1..], sep)
  }

  /** The position of the first occurrence of `c` in `s`. */
  function FirstIndex(s: string, c: char): (k: nat)
    requires c in s
    ensures k < |s| && s[k] == c && c !in s[..k]
  {
    if s[0] == c then 0 else 1 + FirstIndex(s[1..], c)
  }

  /** The pieces of `s` between occurrences of `sep`, in order (`String.prototype.split` with a one-character separator). */
  function Split(s: string, sep: char): (parts: seq<string>)
    ensures |parts| > 0
    decreases |s|
  {
    if sep !in s then [s]
    else
      var k := FirstIndex(s, sep);
      [s[..k]] + Split(s[k + 1..], sep)
  }

  /** Splitting a join on its separator recovers the parts, when no part contains the separator. */
  lemma {:induction false} SplitJoin(parts: seq<string>, sep: char)
    requires |parts| > 0
    requires forall i :: 0 <= i < |parts| ==> sep !in parts[i]
    ensures Split(Join(parts, [sep]), sep) == parts
  {
    if |parts| > 1 {
      var x := parts[0];
      var rest := Join(parts[1..], [sep]);
      var s := x + [sep] + rest;
      assert s == Join(parts, [sep]);
      assert s[|x|] == sep;
      var k := FirstIndex(s, sep);
      assert k == |x|;
      assert s[..k] == x;
      assert s[k + 1..] == rest;
      SplitJoin(parts[1..], sep);
    }
  }

  // ---------------------------------------------------------------------------
  // reverse
  // ---------------------------------------------------------------------------

  /** The elements of `s` in the opposite order (the value `Array.prototype.reverse` leaves behind). */
  function Reversed<T>(s: seq<T>): (r: seq<T>)
    ensures |r| == |s|
    ensures forall i :: 0 <= i < |s| ==> r[i] == s[|s| - 1 - i]
  {
    if s == [] then [] else Reversed(s[1..]) + [s[0]]
  }

  /** `Array.prototype.reverse`: reverses the array in place. */
  method ReverseInPlace<T>(a: array<T>)
    modifies a
    ensures a[..] == Reversed(old(a[..]))
  {
    var lo, hi := 0, a.Length;
    while lo + 1 < hi
      invariant 0 <= lo <= hi <= a.Length && lo + hi == a.Length
      invariant forall k :: 0 <= k < lo ==> a[k] == old(a[a.Length - 1 - k])
      invariant forall k :: hi <= k < a.Length ==> a[k] == old(a[a.Length - 1 - k])
      invariant forall k :: lo <= k < hi ==> a[k] == old(a[k])
    {
      a[lo], a[hi - 1] := a[hi - 1], a[lo];
      lo, hi := lo + 1, hi - 1;
    }
  }
}
