/**
  The component-name resolver and the default-export strip of the preview panel
  (`getComponentName` and the `replace` inside the sandbox document).

  Each regular expression of the source is a hand-written scanner (`MatchAt`). Beside it
  stands `Matches`, the meaning of the same regular expression written declaratively: a
  match is any way of splitting the text among the pattern's parts. The scanners are proved
  to find exactly those splits, so greedy scanning without backtracking agrees with the
  regular expression at every start position, and `Find` returns the leftmost match, as
  `String.prototype.match` and `String.prototype.replace` do for a pattern without the `g` flag.
*/
module ComponentNames {
  import opened Wrappers
  import opened JsText

  /** The four regular expressions of preview-panel.tsx. */
  datatype Pattern =
    | ConstDecl        // /const\s+([A-Z]\w*)\s*=/
    | DefaultExport    // /export\s+default\s+([A-Z]\w*);/
    | FunctionDecl     // /function\s+([A-Z]\w*)\s*\(/
    | ExportStatement  // /export default \w+;/  (the strip; no capture group, `nameStart..nameEnd` is its \w+)

  /** One match: the whole match is `[start, end)`, the identifier is `[nameStart, nameEnd)`. */
  datatype Capture = Capture(start: nat, nameStart: nat, nameEnd: nat, end: nat)

  /** `keyword\s+([A-Z]\w*)\s*terminator` matches `s` with exactly the positions of `c`. */
  ghost predicate DeclarationMatches(s: string, c: Capture, keyword: string, terminator: char) {
    var Capture(i, k, e, j) := c;
    && StartsAt(s, i, keyword) && i + |keyword| < k < e < j <= |s|
    && AllIn(s, i + |keyword|, k, Space) && IsUpper(s[k]) && AllIn(s, k + 1, e, Word)
    && AllIn(s, e, j - 1, Space) && s[j - 1] == terminator
  }

  /** The regular expression `p` matches `s` with exactly the positions of `c`. */
  ghost predicate Matches(p: Pattern, s: string, c: Capture) {
    var Capture(i, k, e, j) := c;
    match p
    case ConstDecl => DeclarationMatches(s, c, "const", '=')
    case FunctionDecl => DeclarationMatches(s, c, "function", '(')
    case DefaultExport =>
      && StartsAt(s, i, "export") && i + 6 < k < e < j == e + 1 <= |s|
      && (exists a :: i + 6 < a && a + 7 < k && AllIn(s, i + 6, a, Space)
                      && StartsAt(s, a, "default") && AllIn(s, a + 7, k, Space))
      && IsUpper(s[k]) && AllIn(s, k + 1, e, Word) && s[e] == ';'
    case ExportStatement =>
      && StartsAt(s, i, "export default ") && k == i + 15 && k < e && j == e + 1 <= |s|
      && AllIn(s, k, e, Word) && s[e] == ';'
  }

  /** `keyword\s+([A-Z]\w*)\s*terminator` scanned greedily from `i`. */
  function DeclarationAt(s: string, i: nat, keyword: string, terminator: char): Option<Capture> {
    if !StartsAt(s, i, keyword) then None
    else
      var k := RunEnd(s, i + |keyword|, Space);
      if k == i + |keyword| || k == |s| || !IsUpper(s[k]) then None
      else
        var e := RunEnd(s, k + 1, Word);
        var m := RunEnd(s, e, Space);
        if m < |s| && s[m] == terminator then Some(Capture(i, k, e, m + 1)) else None
  }

  /** `export\s+default\s+([A-Z]\w*);` scanned greedily from `i`. */
  function DefaultExportAt(s: string, i: nat): Option<Capture> {
    if !StartsAt(s, i, "export") then None
    else
      var a := RunEnd(s, i + 6, Space);
      if a == i + 6 || !StartsAt(s, a, "default") then None
      else
        var k := RunEnd(s, a + 7, Space);
        if k == a + 7 || k == |s| || !IsUpper(s[k]) then None
        else
          var e := RunEnd(s, k + 1, Word);
          if e < |s| && s[e] == ';' then Some(Capture(i, k, e, e + 1)) else None
  }

  /** `export default \w+;` scanned greedily from `i`. */
  function ExportStatementAt(s: string, i: nat): Option<Capture> {
    if !StartsAt(s, i, "export default ") then None
    else
      var e := RunEnd(s, i + 15, Word);
      if i + 15 < e < |s| && s[e] == ';' then Some(Capture(i, i + 15, e, e + 1)) else None
  }

  /** The match of `p` that starts at `i`, if any. */
  function MatchAt(p: Pattern, s: string, i: nat): (r: Option<Capture>)
    ensures r.Some? ==> r.value.start == i < r.value.nameStart < r.value.nameEnd < r.value.end <= |s|
    ensures r.Some? ==> AllIn(s, r.value.nameStart, r.value.nameEnd, Word)
    ensures r.Some? && p != ExportStatement ==> IsUpper(s[r.value.nameStart])
  {
    match p
    case ConstDecl => DeclarationAt(s, i, "const", '=')
    case FunctionDecl => DeclarationAt(s, i, "function", '(')
    case DefaultExport => DefaultExportAt(s, i)
    case ExportStatement => ExportStatementAt(s, i)
  }

  /** The scanner at `i` returns a capture exactly when the regular expression matches there with it. */
  lemma MatchAtIff(p: Pattern, s: string, i: nat, c: Capture)
    ensures MatchAt(p, s, i) == Some(c) <==> (c.start == i && Matches(p, s, c))
  {
    if MatchAt(p, s, i) == Some(c) {
      MatchAtSound(p, s, i);
    }
    if c.start == i && Matches(p, s, c) {
      MatchAtComplete(p, s, c);
    }
  }

  lemma MatchAtSound(p: Pattern, s: string, i: nat)
    requires MatchAt(p, s, i).Some?
    ensures Matches(p, s, MatchAt(p, s, i).value)
  {
    if p == DefaultExport {
      var a := RunEnd(s, i + 6, Space);
      var c := MatchAt(p, s, i).value;
      assert i + 6 < a && a + 7 < c.nameStart && AllIn(s, i + 6, a, Space)
             && StartsAt(s, a, "default") && AllIn(s, a + 7, c.nameStart, Space);
    }
  }

  lemma MatchAtComplete(p: Pattern, s: string, c: Capture)
    requires Matches(p, s, c)
    ensures MatchAt(p, s, c.start) == Some(c)
  {
    match p
    case ConstDecl => DeclarationComplete(s, c, "const", '=');
    case FunctionDecl => DeclarationComplete(s, c, "function", '(');
    case DefaultExport => DefaultExportComplete(s, c);
    case ExportStatement => RunEndUnique(s, c.nameStart, c.nameEnd, Word);
  }

  lemma DeclarationComplete(s: string, c: Capture, keyword: string, terminator: char)
    requires DeclarationMatches(s, c, keyword, terminator)
    requires !IsSpace(terminator) && !IsWordChar(terminator)
    ensures DeclarationAt(s, c.start, keyword, terminator) == Some(c)
  {
    var Capture(i, k, e, j) := c;
    RunEndUnique(s, i + |keyword|, k, Space);
    RunEndUnique(s, k + 1, e, Word);
    RunEndUnique(s, e, j - 1, Space);
  }

  lemma DefaultExportComplete(s: string, c: Capture)
    requires Matches(DefaultExport, s, c)
    ensures DefaultExportAt(s, c.start) == Some(c)
  {
    var Capture(i, k, e, j) := c;
    var a :| i + 6 < a && a + 7 < k && AllIn(s, i + 6, a, Space)
             && StartsAt(s, a, "default") && AllIn(s, a + 7, k, Space);
    DefaultExportScan(s, i, a, k, e);
  }

  /** The scanner retraces a default export whose `default` keyword starts at `a`. */
  lemma DefaultExportScan(s: string, i: nat, a: nat, k: nat, e: nat)
    requires StartsAt(s, i, "export") && i + 6 < a && a + 7 < k < e < |s|
    requires AllIn(s, i + 6, a, Space) && StartsAt(s, a, "default") && AllIn(s, a + 7, k, Space)
    requires IsUpper(s[k]) && AllIn(s, k + 1, e, Word) && s[e] == ';'
    ensures DefaultExportAt(s, i) == Some(Capture(i, k, e, e + 1))
  {
    assert !IsSpace(s[a]) by { assert s[a..a + 7][0] == s[a]; }
    RunEndUnique(s, i + 6, a, Space);
    RunEndUnique(s, a + 7, k, Space);
    RunEndUnique(s, k + 1, e, Word);
  }

  /** The first match of `p` starting at or after `i` (FindFromFirst: no earlier one). */
  function FindFrom(p: Pattern, s: string, i: nat): (r: Option<Capture>)
    ensures r.Some? ==> i <= r.value.start && MatchAt(p, s, r.value.start) == r
    decreases |s| - i
  {
    if i >= |s| then None
    else
      var m := MatchAt(p, s, i);
      if m.Some? then m else FindFrom(p, s, i + 1)
  }

  /**
    No position from `i` on before the match FindFrom returns, and no position from `i` on
    at all when it returns nothing, is the start of a match.
  */
  lemma {:induction false} FindFromFirst(p: Pattern, s: string, i: nat, q: nat)
    requires i <= q
    requires FindFrom(p, s, i).None? || q < FindFrom(p, s, i).value.start
    ensures MatchAt(p, s, q).None?
    decreases |s| - i
  {
    if i < |s| && i < q {
      FindFromFirst(p, s, i + 1, q);
    }
  }

  /** `s.match(p)` for a pattern without the `g` flag: the leftmost match. */
  function Find(p: Pattern, s: string): Option<Capture> {
    FindFrom(p, s, 0)
  }

  /** `c` is a match of `p` and no match of `p` starts earlier. */
  ghost predicate IsLeftmost(p: Pattern, s: string, c: Capture) {
    Matches(p, s, c) && forall d :: Matches(p, s, d) ==> c.start <= d.start
  }

  ghost predicate NoMatch(p: Pattern, s: string) {
    forall d :: !Matches(p, s, d)
  }

  /** Find returns the leftmost match of `p`, and every leftmost match is what it returns. */
  lemma FindIff(p: Pattern, s: string, c: Capture)
    ensures Find(p, s) == Some(c) <==> IsLeftmost(p, s, c)
  {
    MatchAtIff(p, s, c.start, c);
    if Find(p, s) == Some(c) {
      forall d | Matches(p, s, d)
        ensures c.start <= d.start
      {
        MatchAtIff(p, s, d.start, d);
        if d.start < c.start {
          FindFromFirst(p, s, 0, d.start);
        }
      }
    }
    if IsLeftmost(p, s, c) && (Find(p, s).None? || c.start < Find(p, s).value.start) {
      FindFromFirst(p, s, 0, c.start);
    }
    if IsLeftmost(p, s, c) && Find(p, s).Some? {
      var f := Find(p, s).value;
      MatchAtIff(p, s, f.start, f);
    }
  }

  /** Find returns nothing exactly when the regular expression matches nowhere. */
  lemma FindNoneIff(p: Pattern, s: string)
    ensures Find(p, s) == None <==> NoMatch(p, s)
  {
    if Find(p, s) == None {
      forall d | Matches(p, s, d)
        ensures false
      {
        MatchAtIff(p, s, d.start, d);
        FindFromFirst(p, s, 0, d.start);
      }
    } else {
      var f := Find(p, s).value;
      MatchAtIff(p, s, f.start, f);
    }
  }

  function Identifier(s: string, c: Capture): string
    requires c.nameStart <= c.nameEnd <= |s|
  {
    s[c.nameStart..c.nameEnd]
  }

  /**
    `getComponentName`: the identifier of the leftmost `const` declaration, else of the leftmost
    default export, else of the leftmost function declaration, else `Component`. Whatever
    the input, the result is a non-empty identifier that starts with an upper-case letter.
  */
  function ComponentName(code: string): (r: string)
    ensures |r| > 0 && IsUpper(r[0])
    ensures forall t :: 0 <= t < |r| ==> IsWordChar(r[t])
  {
    match Find(ConstDecl, code)
    case Some(c) => Identifier(code, c)
    case None =>
      match Find(DefaultExport, code)
      case Some(c) => Identifier(code, c)
      case None =>
        match Find(FunctionDecl, code)
        case Some(c) => Identifier(code, c)
        case None => "Component"
  }

  /** A `const` declaration wins wherever it stands, even after a default export or a function. */
  lemma NameFromConst(code: string, c: Capture)
    requires IsLeftmost(ConstDecl, code, c)
    ensures ComponentName(code) == code[c.nameStart..c.nameEnd]
  {
    FindIff(ConstDecl, code, c);
  }

  lemma NameFromDefaultExport(code: string, c: Capture)
    requires NoMatch(ConstDecl, code)
    requires IsLeftmost(DefaultExport, code, c)
    ensures ComponentName(code) == code[c.nameStart..c.nameEnd]
  {
    FindNoneIff(ConstDecl, code);
    FindIff(DefaultExport, code, c);
  }

  lemma NameFromFunction(code: string, c: Capture)
    requires NoMatch(ConstDecl, code) && NoMatch(DefaultExport, code)
    requires IsLeftmost(FunctionDecl, code, c)
    ensures ComponentName(code) == code[c.nameStart..c.nameEnd]
  {
    FindNoneIff(ConstDecl, code);
    FindNoneIff(DefaultExport, code);
    FindIff(FunctionDecl, code, c);
  }

  lemma NameFallback(code: string)
    requires NoMatch(ConstDecl, code) && NoMatch(DefaultExport, code) && NoMatch(FunctionDecl, code)
    ensures ComponentName(code) == "Component"
  {
    FindNoneIff(ConstDecl, code);
    FindNoneIff(DefaultExport, code);
    FindNoneIff(FunctionDecl, code);
  }

  /**
    The identifier a pattern captures is a maximal word run of the text: the character
    before it and the character after it are both non-word characters.
  */
  lemma CaptureIsMaximalRun(p: Pattern, s: string, c: Capture)
    requires Matches(p, s, c)
    ensures 0 < c.nameStart && !IsWordChar(s[c.nameStart - 1])
    ensures c.nameEnd < |s| && !IsWordChar(s[c.nameEnd])
  {
    var Capture(i, k, e, j) := c;
    match p
    case ConstDecl =>
      assert InClass(s[k - 1], Space);
      if e < j - 1 { assert InClass(s[e], Space); }
    case FunctionDecl =>
      assert InClass(s[k - 1], Space);
      if e < j - 1 { assert InClass(s[e], Space); }
    case DefaultExport =>
      var a :| i + 6 < a && a + 7 < k && AllIn(s, i + 6, a, Space)
               && StartsAt(s, a, "default") && AllIn(s, a + 7, k, Space);
      assert InClass(s[k - 1], Space);
    case ExportStatement =>
      assert s[k - 1] == ' ' by { assert s[i..i + 15][14] == s[k - 1]; }
  }

  /**
    The strip inside the sandbox document: `code.replace(/export default \w+;/, '')`.
    Unlike the resolver's default-export pattern it demands single spaces and accepts an
    identifier of any case.
  */
  function StripDefaultExport(code: string): (r: string)
    ensures |r| <= |code|
  {
    match Find(ExportStatement, code)
    case None => code
    case Some(c) => code[..c.start] + code[c.end..]
  }

  /** Without an occurrence of the statement the text is returned unchanged. */
  lemma StripWithoutStatement(code: string)
    requires NoMatch(ExportStatement, code)
    ensures StripDefaultExport(code) == code
  {
    FindNoneIff(ExportStatement, code);
  }

  /**
    Only the first occurrence is removed: the text before it and all the text after it,
    later occurrences included, are kept as they are.
  */
  lemma StripRemovesFirstStatement(code: string, c: Capture)
    requires IsLeftmost(ExportStatement, code, c)
    ensures code[c.start..c.end] == "export default " + code[c.nameStart..c.nameEnd] + ";"
    ensures StripDefaultExport(code) == code[..c.start] + code[c.end..]
    ensures |StripDefaultExport(code)| == |code| - (c.end - c.start)
  {
    FindIff(ExportStatement, code, c);
    var Capture(i, k, e, j) := c;
    assert code[i..j] == code[i..k] + code[k..e] + code[e..j];
  }
}
