/** The few pieces of JavaScript string semantics the tools rely on. */
module JsText {
  import opened Wrappers

  /** ECMAScript LineTerminator: what a regular-expression `.` does not match. */
  predicate IsLineTerminator(c: char) {
    c == '\n' || c == '\r' || c as int == 0x2028 || c as int == 0x2029
  }

  /** ECMAScript WhiteSpace or LineTerminator: the class `\s`, and what `trim` strips. */
  predicate IsSpace(c: char) {
    || c == ' ' || c == '\t' || c as int == 0x0B || c as int == 0x0C
    || IsLineTerminator(c)
    || c as int == 0xA0 || c as int == 0x1680
    || (0x2000 <= c as int <= 0x200A)
    || c as int == 0x202F || c as int == 0x205F || c as int == 0x3000 || c as int == 0xFEFF
  }

  predicate AllSpace(s: string) {
    forall k :: 0 <= k < |s| ==> IsSpace(s[k])
  }

  function TrimStart(s: string): (r: string)
    ensures |r| <= |s| && r == s[|s| - |r|..]
    ensures AllSpace(s[..|s| - |r|])
    ensures r != [] ==> !IsSpace(r[0])
  {
    if s == [] || !IsSpace(s[0]) then s
    else
      var r := TrimStart(s[1..]);
      assert s[..|s| - |r|] == [s[0]] + s[1..][..|s[1..]| - |r|];
      r
  }

  function TrimEnd(s: string): (r: string)
    ensures |r| <= |s| && r == s[..|r|]
    ensures AllSpace(s[|r|..])
    ensures r != [] ==> !IsSpace(r[|r| - 1])
  {
    if s == [] || !IsSpace(s[|s| - 1]) then s
    else
      var r := TrimEnd(s[..|s| - 1]);
      assert s[|r|..] == s[..|s| - 1][|r|..] + [s[|s| - 1]];
      r
  }

  /** `String.prototype.trim`. */
  function Trim(s: string): string {
    TrimEnd(TrimStart(s))
  }

  /** Trimming leaves nothing exactly when the string is all white space. */
  lemma TrimEmptyIffAllSpace(s: string)
    ensures Trim(s) == [] <==> AllSpace(s)
  {
    var t := TrimStart(s);
    if t != [] {
      // t starts with a non-space character, which TrimEnd keeps
      assert TrimEnd(t)[0] == t[0];
      assert !IsSpace(s[|s| - |t|]);
    } else {
      assert s[..|s|] == s;
    }
  }

  /** The trimmed string has no white space at either end. */
  lemma TrimmedHasNoSpaceAtEnds(s: string)
    ensures Trim(s) != [] ==> !IsSpace(Trim(s)[0]) && !IsSpace(Trim(s)[|Trim(s)| - 1])
  {
    var t := TrimStart(s);
    var r := TrimEnd(t);
    if r != [] {
      assert r[0] == t[0];
    }
  }

  /** `String.prototype.toLowerCase`, for the ASCII letters only. */
  function LowerChar(c: char): char {
    if 'A' <= c <= 'Z' then (c as int + 32) as char else c
  }

  function LowerAscii(s: string): (r: string)
    ensures |r| == |s|
    ensures forall k :: 0 <= k < |s| ==> r[k] == LowerChar(s[k])
  {
    if s == [] then [] else [LowerChar(s[0])] + LowerAscii(s[1..])
  }

  /** Lowering changes exactly the upper-case letters: text without one is its own lowering. */
  lemma LowerAsciiFixed(s: string)
    ensures LowerAscii(s) == s <==> forall k :: 0 <= k < |s| ==> !('A' <= s[k] <= 'Z')
  {
    var r := LowerAscii(s);
    if forall k :: 0 <= k < |s| ==> !('A' <= s[k] <= 'Z') {
      assert forall k :: 0 <= k < |s| ==> r[k] == s[k];
    }
  }

  predicate StartsWith(s: string, prefix: string) {
    |prefix| <= |s| && s[..|prefix|] == prefix
  }

  /** JavaScript truthiness of a value that is a string or `undefined`. */
  predicate Truthy(v: Option<string>) {
    v.Some? && v.value != ""
  }

  /** JavaScript `a || b` on values that are strings or `undefined`. */
  function Or(a: Option<string>, b: Option<string>): (r: Option<string>)
    ensures Truthy(r) <==> Truthy(a) || Truthy(b)
    ensures Truthy(a) ==> r == a
    ensures !Truthy(a) ==> r == b
  {
    if Truthy(a) then a else b
  }

  /** `a || b` where `b` is a string literal. */
  function OrElse(a: Option<string>, b: string): (r: string)
    ensures Truthy(a) ==> r == a.value
    ensures !Truthy(a) ==> r == b
  {
    if Truthy(a) then a.value else b
  }

  /** Or-ing with a literal is the general `||` with a present right operand, and a
      non-empty literal makes the result non-empty whatever `a` is. */
  lemma OrElseIsOr(a: Option<string>, b: string)
    ensures Or(a, Some(b)) == Some(OrElse(a, b))
    ensures b != "" ==> OrElse(a, b) != ""
    ensures OrElse(a, b) == "" <==> !Truthy(a) && b == ""
  {
  }

  /** `String(v)` of a string or `undefined`. */
  function Show(v: Option<string>): string {
    match v
    case Some(s) => s
    case None => "undefined"
  }

  function DigitChar(d: nat): char
    requires d < 10
  {
    "0123456789"[d]
  }

  /** Decimal rendering of a natural number, as template literals print it. */
  function NatToString(n: nat): (r: string)
    ensures |r| >= 1
    ensures forall k :: 0 <= k < |r| ==> '0' <= r[k] <= '9'
    decreases n
  {
    if n < 10 then [DigitChar(n)] else NatToString(n / 10) + [DigitChar(n % 10)]
  }

  /** The number a decimal digit stands for. */
  function DigitValue(c: char): int {
    c as int - '0' as int
  }

  /** The number a string of decimal digits denotes, read most significant digit first. */
  function Value(r: string): int
    decreases |r|
  {
    if r == [] then 0 else 10 * Value(r[..|r| - 1]) + DigitValue(r[|r| - 1])
  }

  lemma DigitCharValue(d: nat)
    requires d < 10
    ensures DigitValue(DigitChar(d)) == d
    ensures DigitChar(d) == '0' <==> d == 0
  {
    if d == 0 {} else if d == 1 {} else if d == 2 {} else if d == 3 {} else if d == 4 {}
    else if d == 5 {} else if d == 6 {} else if d == 7 {} else if d == 8 {} else {}
  }

  /** Reading back the decimal rendering gives the number, and the rendering has no
      leading zero except for 0 itself. */
  lemma {:induction false} NatToStringValue(n: nat)
    ensures Value(NatToString(n)) == n
    ensures NatToString(n)[0] != '0' || n == 0
    decreases n
  {
    if n < 10 {
      DigitCharValue(n);
    } else {
      NatToStringValue(n / 10);
      DigitCharValue(n % 10);
      var r := NatToString(n);
      assert r[..|r| - 1] == NatToString(n / 10);
      assert r[0] == NatToString(n / 10)[0];
    }
  }
}
