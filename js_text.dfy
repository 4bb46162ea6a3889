/**
 * The few JavaScript string operations the front-end relies on: `trim`, the `\s` class of
 * regular expressions, `toLowerCase`, `includes`, the truthiness of an optional string and the
 * `a || b || c` chain over optional strings.
 */
module JsText {
  import opened Wrappers

  /**
   * The ECMAScript WhiteSpace and LineTerminator code points: exactly what
   * String.prototype.trim strips and what `\s` matches in a regular expression.
   */
  predicate IsSpace(c: char) {
    || c == '\t' || c == '\n' || c == '\U{B}' || c == '\U{C}' || c == '\r' || c == ' '
    || c == '\U{A0}' || c == '\U{1680}' || ('\U{2000}' <= c <= '\U{200A}')
    || c == '\U{2028}' || c == '\U{2029}' || c == '\U{202F}' || c == '\U{205F}'
    || c == '\U{3000}' || c == '\U{FEFF}'
  }

  predicate AllSpace(s: string) {
    forall k :: 0 <= k < |s| ==> IsSpace(s[k])
  }

  /**
   * String.prototype.trim: leading and trailing white space removed, one character at a
   * time from the front and then from the back.
   */
  function Trim(s: string): string {
    if s != [] && IsSpace(s[0]) then Trim(s[1..])
    else if s != [] && IsSpace(s[|s| - 1]) then Trim(s[..|s| - 1])
    else s
  }

  /** `t` is `s[a..b]` and everything of `s` outside that slice is white space. */
  predicate InnerSlice(s: string, t: string, a: int, b: int) {
    0 <= a <= b <= |s| && t == s[a..b] && AllSpace(s[..a]) && AllSpace(s[b..])
  }

  /**
   * What trimming keeps: a contiguous piece of `s`, with only white space cut away on
   * either side.
   */
  lemma {:induction false} TrimIsInnerSlice(s: string)
    ensures exists a, b :: InnerSlice(s, Trim(s), a, b)
  {
    if s != [] && IsSpace(s[0]) {
      TrimIsInnerSlice(s[1..]);
      var a, b :| InnerSlice(s[1..], Trim(s[1..]), a, b);
      InnerSliceFront(s, Trim(s), a, b);
    } else if s != [] && IsSpace(s[|s| - 1]) {
      TrimIsInnerSlice(s[..|s| - 1]);
      var a, b :| InnerSlice(s[..|s| - 1], Trim(s[..|s| - 1]), a, b);
      InnerSliceBack(s, Trim(s), a, b);
    } else {
      assert s[0..|s|] == s && s[..0] == [] && s[|s|..] == [];
      assert InnerSlice(s, Trim(s), 0, |s|);
    }
  }

  lemma InnerSliceFront(s: string, t: string, a: int, b: int)
    requires s != [] && IsSpace(s[0]) && InnerSlice(s[1..], t, a, b)
    ensures InnerSlice(s, t, a + 1, b + 1)
  {
    assert s[a + 1..b + 1] == s[1..][a..b];
    assert s[..a + 1] == [s[0]] + s[1..][..a];
    assert s[b + 1..] == s[1..][b..];
  }

  lemma InnerSliceBack(s: string, t: string, a: int, b: int)
    requires s != [] && IsSpace(s[|s| - 1]) && InnerSlice(s[..|s| - 1], t, a, b)
    ensures InnerSlice(s, t, a, b)
  {
    assert s[a..b] == s[..|s| - 1][a..b];
    assert s[..a] == s[..|s| - 1][..a];
    assert s[b..] == s[..|s| - 1][b..] + [s[|s| - 1]];
  }

  /** The trimmed string neither starts nor ends with white space. */
  lemma {:induction false} TrimEndsNotSpace(s: string)
    ensures Trim(s) == [] || (!IsSpace(Trim(s)[0]) && !IsSpace(Trim(s)[|Trim(s)| - 1]))
  {
    if s != [] && IsSpace(s[0]) {
      TrimEndsNotSpace(s[1..]);
    } else if s != [] && IsSpace(s[|s| - 1]) {
      TrimEndsNotSpace(s[..|s| - 1]);
    }
  }

  /** A string trims to the empty string exactly when all of it is white space. */
  lemma {:induction false} TrimEmptyIff(s: string)
    ensures Trim(s) == [] <==> AllSpace(s)
  {
    if s != [] && IsSpace(s[0]) {
      var t := s[1..];
      TrimEmptyIff(t);
      assert AllSpace(s) <==> AllSpace(t) by {
        assert forall k :: 0 < k < |s| ==> s[k] == t[k - 1];
      }
    } else if s != [] && IsSpace(s[|s| - 1]) {
      var t := s[..|s| - 1];
      TrimEmptyIff(t);
      assert AllSpace(s) <==> AllSpace(t) by {
        assert forall k :: 0 <= k < |t| ==> s[k] == t[k];
      }
    }
  }

  /** ASCII upper-case letters mapped to lower case; every other character is left alone. */
  function LowerChar(c: char): char {
    if 'A' <= c <= 'Z' then (c as int - 'A' as int + 'a' as int) as char else c
  }

  predicate IsUpper(c: char) {
    'A' <= c <= 'Z'
  }

  /** The two characters are equal, or one is an ASCII capital and the other its small letter. */
  predicate SameLetter(a: char, b: char) {
    a == b || (IsUpper(a) && b as int == a as int + 32) || (IsUpper(b) && a as int == b as int + 32)
  }

  /** The two strings differ at most in the case of ASCII letters. */
  predicate SameUpToCase(s: string, t: string) {
    |s| == |t| && forall k :: 0 <= k < |s| ==> SameLetter(s[k], t[k])
  }

  /**
   * String.prototype.toLowerCase, restricted to the ASCII letters: the length is kept, no
   * capital is left, and each character differs from the input's at most in case.
   */
  function ToLower(s: string): (r: string)
    ensures |r| == |s|
    ensures forall k :: 0 <= k < |r| ==> !IsUpper(r[k])
    ensures SameUpToCase(s, r)
  {
    seq(|s|, k requires 0 <= k < |s| => LowerChar(s[k]))
  }

  /** Lowering is idempotent. */
  lemma ToLowerIdempotent(s: string)
    ensures ToLower(ToLower(s)) == ToLower(s)
  {
    var r := ToLower(s);
    assert forall k :: 0 <= k < |r| ==> ToLower(r)[k] == r[k];
  }

  /**
   * Two strings lower to the same string exactly when they differ at most in the case of
   * ASCII letters: a case-insensitive comparison through `toLowerCase`.
   */
  lemma ToLowerEqualIff(s: string, t: string)
    ensures ToLower(s) == ToLower(t) <==> SameUpToCase(s, t)
  {
    if ToLower(s) == ToLower(t) {
      forall k | 0 <= k < |s|
        ensures SameLetter(s[k], t[k])
      {
        assert LowerChar(s[k]) == ToLower(s)[k] == ToLower(t)[k] == LowerChar(t[k]);
      }
    }
    if SameUpToCase(s, t) {
      assert forall k :: 0 <= k < |s| ==> ToLower(s)[k] == LowerChar(s[k]) == LowerChar(t[k]) == ToLower(t)[k];
    }
  }

  /** String.prototype.includes: `sub` occurs somewhere in `s`. */
  predicate Contains(s: string, sub: string) {
    exists i :: 0 <= i <= |s| - |sub| && OccursAt(s, sub, i)
  }

  predicate OccursAt(s: string, sub: string, i: int)
    requires 0 <= i <= |s| - |sub|
  {
    s[i..i + |sub|] == sub
  }

  /** String.prototype.startsWith. */
  predicate StartsWith(s: string, prefix: string) {
    |prefix| <= |s| && s[..|prefix|] == prefix
  }

  /** String.prototype.endsWith. */
  predicate EndsWith(s: string, suffix: string) {
    |suffix| <= |s| && s[|s| - |suffix|..] == suffix
  }

  /** A JavaScript value that is an optional string is truthy when it is present and not empty. */
  predicate Truthy(v: Option<string>) {
    v.Some? && v.value != ""
  }

  /**
   * The value of `xs[0] || xs[1] || ... || xs[n-1]` for optional strings: the first truthy
   * operand, or `None` when no operand is truthy.
   */
  function FirstTruthy(xs: seq<Option<string>>): (r: Option<string>)
    ensures r.Some? ==>
      (r.value != "" && exists i :: 0 <= i < |xs| && xs[i] == r && forall j :: 0 <= j < i ==> !Truthy(xs[j]))
    ensures r.None? <==> forall i :: 0 <= i < |xs| ==> !Truthy(xs[i])
  {
    if xs == [] then None
    else if Truthy(xs[0]) then xs[0]
    else
      var r := FirstTruthy(xs[1..]);
      assert forall i :: 1 <= i < |xs| ==> xs[i] == xs[1..][i - 1];
      r
  }

  /** The number a string of decimal digits denotes, most significant digit first. */
  function DecimalValue(s: string): nat
    requires forall k :: 0 <= k < |s| ==> '0' <= s[k] <= '9'
  {
    if s == [] then 0 else DecimalValue(s[..|s| - 1]) * 10 + (s[|s| - 1] as int - '0' as int)
  }

  /**
   * The decimal digits of `n`, as Number.prototype.toString writes a non-negative integer:
   * digits only, no leading zero, and they denote `n`.
   */
  function NatToString(n: nat): (r: string)
    ensures r != [] && forall k :: 0 <= k < |r| ==> '0' <= r[k] <= '9'
    ensures |r| > 1 ==> r[0] != '0'
    ensures DecimalValue(r) == n
  {
    var d := ['0' + (n % 10) as char];
    if n < 10 then d
    else
      var r := NatToString(n / 10) + d;
      assert r[..|r| - 1] == NatToString(n / 10);
      r
  }

  /** Different numbers print differently, so the printed clock tells instants apart. */
  lemma NatToStringInjective(m: nat, n: nat)
    requires m != n
    ensures NatToString(m) != NatToString(n)
  {
  }

  /** A value interpolated into a template literal: an absent value prints as `null`. */
  function Interpolate(v: Option<string>): string {
    match v
    case Some(s) => s
    case None => "null"
  }
}
