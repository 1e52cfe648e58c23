/** The few JavaScript string primitives the modelled code relies on, with
    their edge-case behaviour (clamping, swapped bounds) written out. */
module JsText {

  /** Clamps a JavaScript index into `0..n`, as `String.prototype.substring` does. */
  function Clamp(i: int, n: nat): (r: nat)
    ensures r <= n
    ensures 0 <= i <= n ==> r == i
  {
    if i < 0 then 0 else if i > n then n else i
  }

  /** `s.substring(a, b)`: both bounds clamped, then swapped when `a > b`. */
  function Substring(s: string, a: int, b: int): (r: string)
    ensures 0 <= a <= b <= |s| ==> r == s[a..b]
    ensures 0 <= b <= a <= |s| ==> r == s[b..a]
    ensures |r| <= |s|
  {
    var x, y := Clamp(a, |s|), Clamp(b, |s|);
    if x <= y then s[x..y] else s[y..x]
  }

  /** `s.substr(start, length)` for a non-negative start. */
  function Substr(s: string, start: nat, length: int): (r: string)
    ensures start <= |s| && 0 <= length && start + length <= |s| ==> r == s[start..start + length]
    ensures start >= |s| ==> r == []
    ensures start <= |s| ==> |r| <= |s| - start
  {
    if start >= |s| then []
    else if length <= 0 then []
    else if start + length >= |s| then s[start..]
    else s[start..start + length]
  }

  predicate StartsWith(s: string, prefix: string)
  {
    |prefix| <= |s| && s[..|prefix|] == prefix
  }

  /** The characters `String.prototype.trim` removes (ECMAScript WhiteSpace
      and LineTerminator code points). */
  predicate IsJsWhitespace(c: char)
  {
    c == ' ' || c == '\t' || c == '\n' || c == '\r' || c == '\U{000B}' || c == '\U{000C}'
    || c == '\U{00A0}' || c == '\U{1680}' || ('\U{2000}' <= c <= '\U{200A}')
    || c == '\U{2028}' || c == '\U{2029}' || c == '\U{202F}' || c == '\U{205F}'
    || c == '\U{3000}' || c == '\U{FEFF}'
  }

  function TrimStart(s: string): (r: string)
    ensures |r| <= |s| && r == s[|s| - |r|..]
    ensures r == [] || !IsJsWhitespace(r[0])
  {
    if s != [] && IsJsWhitespace(s[0]) then TrimStart(s[1..]) else s
  }

  function TrimEnd(s: string): (r: string)
    ensures |r| <= |s| && r == s[..|r|]
    ensures r == [] || !IsJsWhitespace(r[|r| - 1])
  {
    if s != [] && IsJsWhitespace(s[|s| - 1]) then TrimEnd(s[..|s| - 1]) else s
  }

  /** `s.trim()`. */
  function Trim(s: string): string
  {
    TrimEnd(TrimStart(s))
  }

  function DigitChar(d: nat): (c: char)
    requires d < 10
  {
    "0123456789"[d]
  }

  /** The decimal rendering JavaScript gives a non-negative integer
      (string concatenation of a port number). */
  function NatToString(n: nat): (r: string)
    ensures r != []
    ensures forall i :: 0 <= i < |r| ==> '0' <= r[i] <= '9'
    decreases n
  {
    if n < 10 then [DigitChar(n)] else NatToString(n / 10) + [DigitChar(n % 10)]
  }

  function DigitValue(c: char): (d: nat)
    requires '0' <= c <= '9'
    ensures d < 10
  {
    c as int - '0' as int
  }

  /** The value of a decimal numeral. */
  function DecimalValue(s: string): nat
    requires forall i :: 0 <= i < |s| ==> '0' <= s[i] <= '9'
  {
    if s == [] then 0 else DecimalValue(s[..|s| - 1]) * 10 + DigitValue(s[|s| - 1])
  }

  /** Reading back the decimal rendering gives the number. */
  lemma {:induction false} DecimalOfNatToString(n: nat)
    ensures DecimalValue(NatToString(n)) == n
    decreases n
  {
    if n >= 10 {
      var r := NatToString(n);
      assert r[..|r| - 1] == NatToString(n / 10);
      DecimalOfNatToString(n / 10);
    }
  }

  /** `s.split(c)` for a one-character separator. */
  function Split(s: string, c: char): (r: seq<string>)
    ensures |r| >= 1
    ensures forall i :: 0 <= i < |r| ==> c !in r[i]
  {
    if s == [] then [[]]
    else if s[0] == c then [[]] + Split(s[1..], c)
    else
      var rest := Split(s[1..], c);
      [[s[0]] + rest[0]] + rest[1..]
  }

  /** A piece without the separator splits off whole. */
  lemma {:induction false} SplitPiece(a: string, b: string, c: char)
    requires c !in a
    ensures Split(a + [c] + b, c) == [a] + Split(b, c)
    ensures Split(a, c) == [a]
    decreases |a|
  {
    if a == [] {
      assert a + [c] + b == [c] + b;
    } else {
      assert (a + [c] + b)[1..] == a[1..] + [c] + b;
      SplitPiece(a[1..], b, c);
      assert [a[0]] + a[1..] == a;
    }
  }
}
