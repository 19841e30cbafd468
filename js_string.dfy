/**
 * The few JavaScript string primitives the extension relies on:
 * `trim`, `includes`, `indexOf` and `replace` with a string pattern.
 */
module JsString {

  /** The characters in ECMAScript's WhiteSpace and LineTerminator sets,
    * which is what both `String.prototype.trim` and the regex class `\s` use. */
  predicate IsSpace(c: char)
  {
    c == '\t' || c == '\n' || c == '\U{000B}' || c == '\U{000C}' || c == '\r' || c == ' '
    || c == '\U{00A0}' || c == '\U{1680}' || ('\U{2000}' <= c <= '\U{200A}')
    || c == '\U{2028}' || c == '\U{2029}' || c == '\U{202F}' || c == '\U{205F}'
    || c == '\U{3000}' || c == '\U{FEFF}'
  }

  predicate AllSpace(s: string)
  {
    forall i :: 0 <= i < |s| ==> IsSpace(s[i])
  }

  function TrimStart(s: string): (r: string)
    ensures |r| <= |s| && r == s[|s| - |r|..]
    ensures r == [] || !IsSpace(r[0])
    ensures AllSpace(s[..|s| - |r|])
  {
    if s == [] || !IsSpace(s[0]) then s
    else
      var r := TrimStart(s[1..]);
      assert s[..|s| - |r|] == [s[0]] + s[1..][..|s[1..]| - |r|];
      r
  }

  function TrimEnd(s: string): (r: string)
    ensures |r| <= |s| && r == s[..|r|]
    ensures r == [] || !IsSpace(r[|r| - 1])
    ensures AllSpace(s[|r|..])
  {
    if s == [] || !IsSpace(s[|s| - 1]) then s
    else
      var r := TrimEnd(s[..|s| - 1]);
      assert s[|r|..] == s[..|s| - 1][|r|..] + [s[|s| - 1]];
      r
  }

  /** `s.trim()` */
  function Trim(s: string): string
  {
    TrimEnd(TrimStart(s))
  }

  /** Neither end is white space. */
  predicate Trimmed(s: string)
  {
    s == [] || (!IsSpace(s[0]) && !IsSpace(s[|s| - 1]))
  }

  /** `trim` leaves no white space at either end and drops only white space. */
  lemma TrimTrimmed(s: string)
    ensures Trimmed(Trim(s))
    ensures exists i, j :: 0 <= i <= j <= |s| && Trim(s) == s[i..j] && AllSpace(s[..i]) && AllSpace(s[j..])
  {
    TrimEnds(s);
    TrimSpan(s);
  }

  lemma TrimEnds(s: string)
    ensures Trimmed(Trim(s))
  {
    var t := TrimStart(s);
    var r := TrimEnd(t);
    assert r == [] || r[0] == t[0];
  }

  lemma TrimSpan(s: string)
    ensures exists i, j :: 0 <= i <= j <= |s| && Trim(s) == s[i..j] && AllSpace(s[..i]) && AllSpace(s[j..])
  {
    var t := TrimStart(s);
    var r := TrimEnd(t);
    var i, j := |s| - |t|, |s| - |t| + |r|;
    TrimPieces(s, t, r);
    assert Trim(s) == s[i..j] && AllSpace(s[..i]) && AllSpace(s[j..]);
  }

  lemma TrimPieces(s: string, t: string, r: string)
    requires |t| <= |s| && t == s[|s| - |t|..] && |r| <= |t| && r == t[..|r|]
    ensures r == s[|s| - |t|..|s| - |t| + |r|] && s[|s| - |t| + |r|..] == t[|r|..]
  {
  }

  /** `!s.trim()`: nothing but white space. */
  predicate IsBlank(s: string)
  {
    Trim(s) == ""
  }

  lemma BlankIffAllSpace(s: string)
    ensures IsBlank(s) <==> AllSpace(s)
  {
    var t := TrimStart(s);
    if IsBlank(s) {
      assert AllSpace(t[0..]);
      assert s[..|s| - |t|] == s;
    }
  }

  /** `s.startsWith(p)` */
  predicate StartsWith(s: string, p: string)
  {
    |p| <= |s| && s[..|p|] == p
  }

  predicate OccursAt(s: string, sub: string, i: nat)
  {
    i + |sub| <= |s| && s[i..i + |sub|] == sub
  }

  /** The first position at or after `from` where `sub` occurs, as `indexOf` finds it. */
  function IndexFrom(s: string, sub: string, from: nat): (r: int)
    decreases |s| - from
    ensures r == -1 || (from <= r && OccursAt(s, sub, r))
    ensures r == -1 ==> forall i :: from <= i ==> !OccursAt(s, sub, i)
    ensures r >= 0 ==> forall i :: from <= i < r ==> !OccursAt(s, sub, i)
  {
    if from + |sub| > |s| then -1
    else if s[from..from + |sub|] == sub then from
    else IndexFrom(s, sub, from + 1)
  }

  /** Text put in front does not change where a later search stops. */
  lemma {:induction false} IndexFromShift(a: string, b: string, sub: string, q: nat)
    ensures IndexFrom(a + b, sub, |a| + q) == if IndexFrom(b, sub, q) < 0 then -1 else |a| + IndexFrom(b, sub, q)
    decreases |b| - q
  {
    if q + |sub| <= |b| {
      assert (a + b)[|a| + q..|a| + q + |sub|] == b[q..q + |sub|];
      if b[q..q + |sub|] != sub { IndexFromShift(a, b, sub, q + 1); }
    }
  }

  /** The search stops at the first occurrence. */
  lemma IndexFromIs(s: string, sub: string, from: nat, i: nat)
    requires from <= i && OccursAt(s, sub, i)
    requires forall k :: from <= k < i ==> !OccursAt(s, sub, k)
    ensures IndexFrom(s, sub, from) == i
  {
  }

  lemma OccursAtShift(a: string, b: string, sub: string, q: nat)
    ensures OccursAt(a + b, sub, |a| + q) == OccursAt(b, sub, q)
  {
    if q + |sub| <= |b| { assert (a + b)[|a| + q..|a| + q + |sub|] == b[q..q + |sub|]; }
  }

  /** `s.indexOf(sub)` */
  function IndexOf(s: string, sub: string): int
  {
    IndexFrom(s, sub, 0)
  }

  /** `s.includes(sub)` */
  predicate Includes(s: string, sub: string)
  {
    IndexOf(s, sub) >= 0
  }

  lemma IncludesIff(s: string, sub: string)
    ensures Includes(s, sub) <==> exists i: nat :: OccursAt(s, sub, i)
  {
  }

  /** The replacement text of `String.prototype.replace` for a string
    * pattern (GetSubstitution, section 22.1.3.19.1 of ECMAScript 2024, with
    * no capture groups): `$$` is a `$`, `$&` the matched text, `` $` `` the
    * text before the match and `$'` the text after it; every other `$` is
    * kept as it is. */
  function Substitute(replacement: string, matched: string, before: string, after: string): string
    decreases |replacement|
  {
    if replacement == [] then []
    else if replacement[0] == '$' && |replacement| >= 2 && replacement[1] in "$&`'" then
      var rest := Substitute(replacement[2..], matched, before, after);
      match replacement[1]
      case '$' => "$" + rest
      case '&' => matched + rest
      case '`' => before + rest
      case _ => after + rest
    else [replacement[0]] + Substitute(replacement[1..], matched, before, after)
  }

  /** A replacement without `$` is inserted literally. */
  lemma {:induction false} SubstituteLiteral(replacement: string, matched: string, before: string, after: string)
    requires forall k :: 0 <= k < |replacement| ==> replacement[k] != '$'
    ensures Substitute(replacement, matched, before, after) == replacement
    decreases |replacement|
  {
    if replacement != [] {
      SubstituteLiteral(replacement[1..], matched, before, after);
    }
  }

  /** Each special pattern stands for its part of the text. */
  lemma SubstitutePatterns(matched: string, before: string, after: string)
    ensures Substitute("$$", matched, before, after) == "$"
    ensures Substitute("$&", matched, before, after) == matched
    ensures Substitute("$`", matched, before, after) == before
    ensures Substitute("$'", matched, before, after) == after
    ensures Substitute("$", matched, before, after) == "$"
    ensures Substitute("$1", matched, before, after) == "$1"
  {
    assert "$$"[2..] == [] && "$&"[2..] == [] && "$`"[2..] == [] && "$'"[2..] == [];
    assert "$1"[1..] == "1" && "1"[1..] == [];
  }

  /** `s.replace(pattern, replacement)` with a string pattern: only the first
    * occurrence is replaced, by the substitution of `replacement`. */
  function ReplaceFirst(s: string, pattern: string, replacement: string): string
  {
    var i := IndexOf(s, pattern);
    if i < 0 then s
    else s[..i] + Substitute(replacement, pattern, s[..i], s[i + |pattern|..]) + s[i + |pattern|..]
  }

  lemma ReplaceFirstAbsent(s: string, pattern: string, replacement: string)
    requires !Includes(s, pattern)
    ensures ReplaceFirst(s, pattern, replacement) == s
  {
  }

  /** The first occurrence is replaced by a replacement without `$` as it
    * stands; the text around it is kept. */
  lemma ReplaceFirstLiteral(s: string, pattern: string, replacement: string)
    requires Includes(s, pattern)
    requires forall k :: 0 <= k < |replacement| ==> replacement[k] != '$'
    ensures var i := IndexOf(s, pattern);
      0 <= i && OccursAt(s, pattern, i)
      && ReplaceFirst(s, pattern, replacement) == s[..i] + replacement + s[i + |pattern|..]
  {
    var i := IndexOf(s, pattern);
    SubstituteLiteral(replacement, pattern, s[..i], s[i + |pattern|..]);
  }

  /** Replacing by `$&` puts the match back: the string is unchanged. */
  lemma ReplaceFirstByMatch(s: string, pattern: string)
    ensures ReplaceFirst(s, pattern, "$&") == s
  {
    var i := IndexOf(s, pattern);
    if i >= 0 {
      SubstitutePatterns(pattern, s[..i], s[i + |pattern|..]);
      SplitAround(s, i, |pattern|);
    }
  }

  lemma SplitAround(s: string, i: nat, n: nat)
    requires i + n <= |s|
    ensures s[..i] + s[i..i + n] + s[i + n..] == s
  {
  }
}
