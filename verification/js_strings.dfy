/**
 The pieces of JavaScript string semantics the pages rely on: truthiness,
 `String.prototype.trim` and the `length` property, which counts UTF-16 code
 units rather than characters.
 */
module JsStrings {
  import opened Wrappers

  /** A string is truthy in JavaScript exactly when it is not empty. */
  predicate Truthy(s: string) {
    |s| > 0
  }

  /** `a || b` where `a` may be null or undefined (None) and `b` is a string. */
  function Or(a: Option<string>, b: string): (r: string)
    ensures a.Some? && Truthy(a.value) ==> r == a.value
    ensures (a.None? || !Truthy(a.value)) ==> r == b
  {
    match a
    case Some(s) => if s != "" then s else b
    case None => b
  }

  /**
   The characters `trim` removes: the WhiteSpace and LineTerminator productions
   of ECMAScript (section 12.2 and 12.3 of ECMA-262), i.e. TAB, VT, FF, SP, NBSP,
   ZWNBSP, the Unicode "Zs" category, LF, CR, LS and PS.
   */
  predicate IsWhiteSpace(c: char) {
    || c == '\t' || c == '\n' || c == '\U{000B}' || c == '\U{000C}' || c == '\r'
    || c == ' ' || c == '\U{00A0}' || c == '\U{1680}'
    || ('\U{2000}' <= c <= '\U{200A}')
    || c == '\U{2028}' || c == '\U{2029}' || c == '\U{202F}' || c == '\U{205F}'
    || c == '\U{3000}' || c == '\U{FEFF}'
  }

  /** Drops the leading white space: the result is the longest suffix starting with a non-space. */
  function TrimStart(s: string): (r: string)
    ensures |r| <= |s| && r == s[|s| - |r|..]
    ensures forall i :: 0 <= i < |s| - |r| ==> IsWhiteSpace(s[i])
    ensures r == [] || !IsWhiteSpace(r[0])
    decreases |s|
  {
    if |s| > 0 && IsWhiteSpace(s[0]) then TrimStart(s[1..]) else s
  }

  /** Drops the trailing white space: the result is the longest prefix ending with a non-space. */
  function TrimEnd(s: string): (r: string)
    ensures |r| <= |s| && r == s[..|r|]
    ensures forall i :: |r| <= i < |s| ==> IsWhiteSpace(s[i])
    ensures r == [] || !IsWhiteSpace(r[|r| - 1])
    decreases |s|
  {
    if |s| > 0 && IsWhiteSpace(s[|s| - 1]) then TrimEnd(s[..|s| - 1]) else s
  }

  /** `s.trim()`: the infix of `s` left after removing white space at both ends. */
  function Trim(s: string): (r: string)
    ensures exists i, j :: 0 <= i <= j <= |s| && r == s[i..j]
                           && (forall k :: 0 <= k < i ==> IsWhiteSpace(s[k]))
                           && (forall k :: j <= k < |s| ==> IsWhiteSpace(s[k]))
    ensures r == [] || (!IsWhiteSpace(r[0]) && !IsWhiteSpace(r[|r| - 1]))
  {
    var t := TrimStart(s);
    var r := TrimEnd(t);
    var i := |s| - |t|;
    assert r == s[i..i + |r|];
    r
  }

  /** Trimming a string that has nothing to trim gives it back unchanged. */
  lemma {:induction false} TrimFixesTrimmed(s: string)
    requires s == [] || (!IsWhiteSpace(s[0]) && !IsWhiteSpace(s[|s| - 1]))
    ensures Trim(s) == s
  {
    assert TrimStart(s) == s;
    assert TrimEnd(s) == s;
  }

  /** `trim` is idempotent. */
  lemma TrimIdempotent(s: string)
    ensures Trim(Trim(s)) == Trim(s)
  {
    TrimFixesTrimmed(Trim(s));
  }

  /** Number of UTF-16 code units JavaScript uses for one character. */
  function CodeUnits(c: char): nat {
    if c as int < 0x1_0000 then 1 else 2
  }

  /** `s.length` in JavaScript: characters outside the Basic Multilingual Plane count twice. */
  function Utf16Length(s: string): (n: nat)
    ensures |s| <= n <= 2 * |s|
    ensures (forall i :: 0 <= i < |s| ==> s[i] as int < 0x1_0000) ==> n == |s|
  {
    if s == [] then 0 else CodeUnits(s[0]) + Utf16Length(s[1..])
  }

  /** `length` of a concatenation is the sum of the lengths, so it is fixed character by character. */
  lemma {:induction false} Utf16LengthConcat(a: string, b: string)
    ensures Utf16Length(a + b) == Utf16Length(a) + Utf16Length(b)
    decreases |a|
  {
    if a == [] {
      assert a + b == b;
    } else {
      assert (a + b)[1..] == a[1..] + b;
      Utf16LengthConcat(a[1..], b);
    }
  }

  /** One character is one code unit inside the Basic Multilingual Plane and two outside it. */
  lemma Utf16LengthOfChar(c: char)
    ensures Utf16Length([c]) == (if c as int < 0x1_0000 then 1 else 2)
  {
    assert [c][1..] == [];
  }
}
