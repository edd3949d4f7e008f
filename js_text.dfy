/**
  The pieces of JavaScript string semantics that the core relies on:
  the regular-expression classes `\s`, `\w` and `[A-Z]` (without the `u` flag),
  maximal runs of one class, literal occurrences, and `String.prototype.trim`.
  `trim` and `\s` use the same set of characters in ECMAScript 2019 and later:
  the WhiteSpace and LineTerminator code points.
*/
module JsText {

  /** The ECMAScript WhiteSpace and LineTerminator code points (`\s`, and what `trim` removes). */
  predicate IsSpace(c: char) {
    || c == '\t' || c == '\n' || c == '\U{000B}' || c == '\U{000C}' || c == '\r'
    || c == ' ' || c == '\U{00A0}' || c == '\U{1680}'
    || ('\U{2000}' <= c <= '\U{200A}')
    || c == '\U{2028}' || c == '\U{2029}' || c == '\U{202F}' || c == '\U{205F}'
    || c == '\U{3000}' || c == '\U{FEFF}'
  }

  /** `[A-Z]`: an ASCII upper-case letter. */
  predicate IsUpper(c: char) {
    'A' <= c <= 'Z'
  }

  /** `\w` without the `u` flag: `[A-Za-z0-9_]`. */
  predicate IsWordChar(c: char) {
    IsUpper(c) || ('a' <= c <= 'z') || ('0' <= c <= '9') || c == '_'
  }

  /** The two character classes whose maximal runs the scanners consume. */
  datatype CharClass = Space | Word

  predicate InClass(c: char, cls: CharClass) {
    match cls
    case Space => IsSpace(c)
    case Word => IsWordChar(c)
  }

  /** Every character of `s[a..b]` belongs to `cls`. */
  predicate AllIn(s: string, a: nat, b: nat, cls: CharClass)
    requires a <= b <= |s|
  {
    forall t :: a <= t < b ==> InClass(s[t], cls)
  }

  /** The literal `w` occurs in `s` at position `i`. */
  predicate StartsAt(s: string, i: nat, w: string) {
    i + |w| <= |s| && s[i..i + |w|] == w
  }

  /**
    The end of the maximal run of `cls` characters starting at `j`: what a greedy
    `\s*` or `\w*` consumes from `j`.
  */
  function RunEnd(s: string, j: nat, cls: CharClass): (r: nat)
    requires j <= |s|
    ensures j <= r <= |s|
    ensures AllIn(s, j, r, cls)
    ensures r < |s| ==> !InClass(s[r], cls)
    decreases |s| - j
  {
    if j == |s| || !InClass(s[j], cls) then j else RunEnd(s, j + 1, cls)
  }

  /**
    The start of the maximal run of `cls` characters that ends at `j`
    (the backwards counterpart of RunEnd, used for trailing whitespace).
  */
  function RunStart(s: string, j: nat, cls: CharClass): (r: nat)
    requires j <= |s|
    ensures r <= j
    ensures AllIn(s, r, j, cls)
    ensures r > 0 ==> !InClass(s[r - 1], cls)
  {
    if j == 0 || !InClass(s[j - 1], cls) then j else RunStart(s, j - 1, cls)
  }

  /**
    A run is determined by where it stops: any position `k` reached through `cls`
    characters from `j` and not followed by one is the end RunEnd computes. This is why
    greedy matching of `\s+`, `\w*` and their neighbours never needs to backtrack.
  */
  lemma RunEndUnique(s: string, j: nat, k: nat, cls: CharClass)
    requires j <= k <= |s|
    requires AllIn(s, j, k, cls)
    requires k < |s| ==> !InClass(s[k], cls)
    ensures RunEnd(s, j, cls) == k
  {
  }

  /** The bounds `[a, b)` of `s.trim()` inside `s`. */
  function TrimBounds(s: string): (r: (nat, nat))
    ensures r.0 <= r.1 <= |s|
    ensures AllIn(s, 0, r.0, Space) && AllIn(s, r.1, |s|, Space)
    ensures r.0 < r.1 ==> !IsSpace(s[r.0]) && !IsSpace(s[r.1 - 1])
    ensures r.0 == r.1 ==> AllIn(s, 0, |s|, Space)
  {
    var a := RunEnd(s, 0, Space);
    var b := RunStart(s, |s|, Space);
    if a < b then
      (a, b)
    else
      (a, a)
  }

  /** `s.trim()`: `s` without its leading and trailing whitespace. */
  function Trim(s: string): (r: string)
    ensures |r| <= |s|
    ensures r == s[TrimBounds(s).0..TrimBounds(s).1]
    ensures r != [] ==> !IsSpace(r[0]) && !IsSpace(r[|r| - 1])
  {
    var (a, b) := TrimBounds(s);
    s[a..b]
  }

  /** `s.trim()` is the empty string (falsy in JavaScript) exactly when `s` is all whitespace. */
  predicate IsBlank(s: string) {
    Trim(s) == []
  }

  lemma BlankIffAllSpace(s: string)
    ensures IsBlank(s) <==> forall t :: 0 <= t < |s| ==> IsSpace(s[t])
  {
    var (a, b) := TrimBounds(s);
    if a < b {
      assert !IsSpace(s[a]);
    }
  }
}
