/**
 * The parts of the JavaScript host library that the application's logic relies on:
 * Array.prototype.findIndex / filter / map, String.prototype.includes / replace
 * (with a string pattern) / trim / toLowerCase / toUpperCase / padStart, and
 * Number.prototype.toString on non-negative integers.
 */
module JsBuiltins {

  // ---------------------------------------------------------------- arrays

  /** `s.findIndex(p)`: the index of the first element satisfying `p`, or -1. */
  function FindIndex<T>(s: seq<T>, p: T -> bool): (r: int)
    ensures -1 <= r < |s|
    ensures 0 <= r ==> p(s[r]) && forall j :: 0 <= j < r ==> !p(s[j])
    ensures r == -1 <==> forall j :: 0 <= j < |s| ==> !p(s[j])
    decreases |s|
  {
    if |s| == 0 then -1
    else if p(s[0]) then 0
    else
      var k := FindIndex(s[1..], p);
      assert forall j :: 1 <= j < |s| ==> s[j] == s[1..][j - 1];
      if k < 0 then -1 else k + 1
  }

  /** Two searches that agree position by position find the same index. */
  lemma {:induction false} FindIndexAgree<T, U>(a: seq<T>, p: T -> bool, b: seq<U>, q: U -> bool)
    requires |a| == |b| && forall k :: 0 <= k < |a| ==> p(a[k]) == q(b[k])
    ensures FindIndex(a, p) == FindIndex(b, q)
    decreases |a|
  {
    if |a| > 0 && !p(a[0]) {
      assert forall k :: 0 <= k < |a| - 1 ==> a[1..][k] == a[k + 1] && b[1..][k] == b[k + 1];
      FindIndexAgree(a[1..], p, b[1..], q);
    }
  }

  /** `s.filter(p)`: the elements satisfying `p`, in their original order. */
  function Filter<T(!new)>(s: seq<T>, p: T -> bool): (r: seq<T>)
    ensures |r| <= |s|
    ensures forall x :: x in r <==> x in s && p(x)
    decreases |s|
  {
    if |s| == 0 then []
    else
      var rest := Filter(s[1..], p);
      assert forall x :: x in s <==> x == s[0] || x in s[1..];
      if p(s[0]) then [s[0]] + rest else rest
  }

  /** `s.map(f)`: `f` applied to every element, position by position. */
  function Map<T, U>(s: seq<T>, f: T -> U): (r: seq<U>)
    ensures |r| == |s|
    ensures forall i :: 0 <= i < |s| ==> r[i] == f(s[i])
    decreases |s|
  {
    if |s| == 0 then []
    else
      var rest := Map(s[1..], f);
      assert forall i :: 1 <= i < |s| ==> s[i] == s[1..][i - 1];
      [f(s[0])] + rest
  }

  /** Filtering a concatenation is the concatenation of the filtered parts: `filter` keeps the order. */
  lemma {:induction false} FilterConcat<T(!new)>(a: seq<T>, b: seq<T>, p: T -> bool)
    ensures Filter(a + b, p) == Filter(a, p) + Filter(b, p)
    decreases |a|
  {
    if |a| == 0 {
      assert a + b == b;
    } else {
      assert (a + b)[1..] == a[1..] + b;
      FilterConcat(a[1..], b, p);
    }
  }

  /** When every element passes, `filter` returns its input. */
  lemma {:induction false} FilterAllPass<T(!new)>(s: seq<T>, p: T -> bool)
    requires forall i :: 0 <= i < |s| ==> p(s[i])
    ensures Filter(s, p) == s
    decreases |s|
  {
    if |s| > 0 {
      FilterAllPass(s[1..], p);
    }
  }

  /** The head of a filtered sequence is the element `findIndex` finds. */
  lemma {:induction false} FilterHead<T(!new)>(s: seq<T>, p: T -> bool)
    ensures Filter(s, p) != [] <==> FindIndex(s, p) >= 0
    ensures Filter(s, p) != [] ==> Filter(s, p)[0] == s[FindIndex(s, p)]
    decreases |s|
  {
    if |s| > 0 && !p(s[0]) {
      FilterHead(s[1..], p);
    }
  }

  // ---------------------------------------------------------------- strings

  /** `pat` occurs in `s` starting at index `j`. */
  predicate OccursAt(s: string, pat: string, j: int)
  {
    0 <= j && j + |pat| <= |s| && s[j..j + |pat|] == pat
  }

  /** The first occurrence of `pat` in `s` at index `k` or later, or -1. */
  function IndexFrom(s: string, pat: string, k: nat): (r: int)
    ensures r == -1 || (k <= r && OccursAt(s, pat, r))
    ensures forall j :: k <= j && (r == -1 || j < r) ==> !OccursAt(s, pat, j)
    decreases |s| - k
  {
    if k + |pat| > |s| then -1
    else if s[k..k + |pat|] == pat then k
    else IndexFrom(s, pat, k + 1)
  }

  /** `s.indexOf(pat)`. */
  function IndexOf(s: string, pat: string): (r: int)
  {
    IndexFrom(s, pat, 0)
  }

  /** `s.includes(pat)`: `pat` occurs somewhere in `s`; the empty pattern occurs everywhere. */
  predicate Includes(s: string, pat: string)
  {
    IndexOf(s, pat) >= 0
  }

  lemma IncludesWitness(s: string, pat: string, j: int)
    requires OccursAt(s, pat, j)
    ensures Includes(s, pat) && IndexOf(s, pat) <= j
  {
  }

  /** A text containing `p + q` contains `p`, no later than it contains `p + q`. */
  lemma IncludesLongerPattern(s: string, p: string, q: string)
    ensures Includes(s, p + q) ==> Includes(s, p) && IndexOf(s, p) <= IndexOf(s, p + q)
  {
    if Includes(s, p + q) {
      var j := IndexOf(s, p + q);
      assert s[j..j + |p|] == (p + q)[..|p|] == p;
      IncludesWitness(s, p, j);
    }
  }

  /**
   * `s.replace(pat, rep)` with a string pattern and a replacement taken literally (no `$`
   * substitution patterns; the program only ever replaces with ""): only the FIRST occurrence
   * is replaced; without an occurrence the string is returned as it is.
   */
  function ReplaceFirst(s: string, pat: string, rep: string): (r: string)
    ensures !Includes(s, pat) ==> r == s
    ensures Includes(s, pat) ==> |r| == |s| - |pat| + |rep|
    ensures Includes(s, pat) ==>
      r[..IndexOf(s, pat)] == s[..IndexOf(s, pat)] &&
      r[IndexOf(s, pat)..IndexOf(s, pat) + |rep|] == rep &&
      r[IndexOf(s, pat) + |rep|..] == s[IndexOf(s, pat) + |pat|..]
  {
    var i := IndexOf(s, pat);
    if i < 0 then s else s[..i] + rep + s[i + |pat|..]
  }

  /** Replacing by the empty string cuts the first occurrence out and joins what is around it. */
  lemma ReplaceByEmptyCuts(s: string, pat: string)
    ensures Includes(s, pat) ==> ReplaceFirst(s, pat, "") == s[..IndexOf(s, pat)] + s[IndexOf(s, pat) + |pat|..]
  {
  }

  /**
   * The characters `String.prototype.trim` removes: ECMAScript's WhiteSpace
   * (TAB, VT, FF, SP, NBSP, ZWNBSP and the Zs category) and LineTerminator (LF, CR, LS, PS).
   */
  predicate IsJsWhiteSpace(c: char)
  {
    c == '\t' || c == '\n' || c == '\U{000B}' || c == '\U{000C}' || c == '\r' || c == ' ' ||
    c == '\U{00A0}' || c == '\U{1680}' || ('\U{2000}' <= c <= '\U{200A}') ||
    c == '\U{2028}' || c == '\U{2029}' || c == '\U{202F}' || c == '\U{205F}' || c == '\U{3000}' ||
    c == '\U{FEFF}'
  }

  /** `!s.trim()`: the trimmed string is empty exactly when every character is white space. */
  predicate IsBlank(s: string)
  {
    forall i :: 0 <= i < |s| ==> IsJsWhiteSpace(s[i])
  }

  function LowerChar(c: char): (r: char)
  {
    if 'A' <= c <= 'Z' then (c as int - 'A' as int + 'a' as int) as char else c
  }

  function UpperChar(c: char): (r: char)
  {
    if 'a' <= c <= 'z' then (c as int - 'a' as int + 'A' as int) as char else c
  }

  /** `s.toLowerCase()` on the ASCII letters. */
  function ToLowerCase(s: string): (r: string)
  {
    Map(s, LowerChar)
  }

  /** `s.toUpperCase()` on the ASCII letters. */
  function ToUpperCase(s: string): (r: string)
  {
    Map(s, UpperChar)
  }

  /** Lower-casing is idempotent and forgets an earlier upper-casing. */
  lemma CaseFolding(s: string)
    ensures ToLowerCase(ToLowerCase(s)) == ToLowerCase(s)
    ensures ToLowerCase(ToUpperCase(s)) == ToLowerCase(s)
    ensures |ToLowerCase(s)| == |s| && |ToUpperCase(s)| == |s|
  {
    var l, u := ToLowerCase(s), ToUpperCase(s);
    assert forall i :: 0 <= i < |s| ==> ToLowerCase(l)[i] == LowerChar(LowerChar(s[i])) == l[i];
    assert forall i :: 0 <= i < |s| ==> ToLowerCase(u)[i] == LowerChar(UpperChar(s[i])) == l[i];
  }

  /** On strings already in upper case, lower-casing loses nothing: two of them fold alike only when equal. */
  lemma LowerCaseInjectiveOnUpper(a: string, b: string)
    requires ToUpperCase(a) == a && ToUpperCase(b) == b
    requires ToLowerCase(a) == ToLowerCase(b)
    ensures a == b
  {
    assert |a| == |ToLowerCase(a)| == |ToLowerCase(b)| == |b|;
    forall i | 0 <= i < |a|
      ensures a[i] == b[i]
    {
      assert UpperChar(a[i]) == ToUpperCase(a)[i] == a[i];
      assert UpperChar(b[i]) == ToUpperCase(b)[i] == b[i];
      assert LowerChar(a[i]) == ToLowerCase(a)[i] == ToLowerCase(b)[i] == LowerChar(b[i]);
    }
  }

  /** Case mapping never turns a white-space character into a visible one or back. */
  lemma CaseMappingKeepsBlank(s: string)
    ensures IsBlank(ToLowerCase(s)) == IsBlank(s)
    ensures IsBlank(ToUpperCase(s)) == IsBlank(s)
  {
    assert forall i :: 0 <= i < |s| ==> (IsJsWhiteSpace(ToLowerCase(s)[i]) <==> IsJsWhiteSpace(s[i]));
    assert forall i :: 0 <= i < |s| ==> (IsJsWhiteSpace(ToUpperCase(s)[i]) <==> IsJsWhiteSpace(s[i]));
  }

  // ---------------------------------------------------------------- numbers

  predicate IsDigit(c: char)
  {
    '0' <= c <= '9'
  }

  function DigitChar(d: nat): (c: char)
    requires d <= 9
    ensures IsDigit(c)
  {
    ('0' as int + d) as char
  }

  function DigitValue(c: char): (d: nat)
    requires IsDigit(c)
    ensures d <= 9
  {
    c as int - '0' as int
  }

  /** `n.toString()` for a non-negative integer: its decimal digits, most significant first. */
  function NumberToString(n: nat): (r: string)
    ensures |r| >= 1
    ensures forall i :: 0 <= i < |r| ==> IsDigit(r[i])
    decreases n
  {
    if n < 10 then [DigitChar(n)] else NumberToString(n / 10) + [DigitChar(n % 10)]
  }

  /** The value of a string of decimal digits (leading zeros allowed). */
  function DigitsValue(s: string): nat
    requires forall i :: 0 <= i < |s| ==> IsDigit(s[i])
    decreases |s|
  {
    if |s| == 0 then 0 else DigitsValue(s[..|s| - 1]) * 10 + DigitValue(s[|s| - 1])
  }

  /** The decimal rendering of a number reads back as that number. */
  lemma {:induction false} NumberToStringRoundTrip(n: nat)
    ensures DigitsValue(NumberToString(n)) == n
    decreases n
  {
    var r := NumberToString(n);
    if n >= 10 {
      NumberToStringRoundTrip(n / 10);
      assert r[..|r| - 1] == NumberToString(n / 10);
    }
  }

  /** `s.padStart(len, [fill])`: `fill` repeated in front of `s` up to length `len`. */
  function PadStart(s: string, len: nat, fill: char): (r: string)
    ensures |r| == if |s| >= len then |s| else len
    ensures |s| >= len ==> r == s
    ensures |s| < len ==> r[len - |s|..] == s && forall i :: 0 <= i < len - |s| ==> r[i] == fill
  {
    if |s| >= len then s else seq(len - |s|, _ => fill) + s
  }
}
