/**
 * The two markup filters applied to scraped article text, `filterReference`
 * and `stripHTMLTags`. Each is a global regular-expression replacement by
 * the empty string; the model scans the string the way a global `replace`
 * does: at each position either the pattern matches there and the match is
 * dropped, scanning resuming after it, or the character is kept.
 */
module HtmlFilters {
  import opened Wrappers
  import opened JsString

  /** The scan of `s.replace(pattern, "")` from position `p`, where
    * `matchAt(s, p)` is where a match of the pattern starting at `p` ends. */
  function RemoveMatches(s: string, p: nat, matchAt: (string, nat) -> Option<nat>): string
    decreases |s| - p
  {
    if p >= |s| then ""
    else match matchAt(s, p)
      case Some(e) =>
        if p < e <= |s| then RemoveMatches(s, e, matchAt) else [s[p]] + RemoveMatches(s, p + 1, matchAt)
      case None => [s[p]] + RemoveMatches(s, p + 1, matchAt)
  }

  /** A scan that finds no match from `p` on leaves the rest of the string as it is. */
  lemma {:induction false} RemoveNothing(s: string, p: nat, matchAt: (string, nat) -> Option<nat>)
    requires p <= |s|
    requires forall q :: p <= q < |s| ==> matchAt(s, q).None?
    ensures RemoveMatches(s, p, matchAt) == s[p..]
    decreases |s| - p
  {
    if p < |s| { RemoveNothing(s, p + 1, matchAt); }
  }

  /** The result never grows. */
  lemma {:induction false} RemoveShrinks(s: string, p: nat, matchAt: (string, nat) -> Option<nat>)
    requires p <= |s|
    ensures |RemoveMatches(s, p, matchAt)| <= |s| - p
    decreases |s| - p
  {
    if p < |s| {
      match matchAt(s, p)
      case Some(e) =>
        if p < e <= |s| { RemoveShrinks(s, e, matchAt); } else { RemoveShrinks(s, p + 1, matchAt); }
      case None => RemoveShrinks(s, p + 1, matchAt);
    }
  }

  // ---------------------------------------------------------------------------
  // filterReference: /<sup[^>]*>[\s\S]*?<\/sup>/g

  /** `<sup`, then everything up to the first `>`, then the shortest run up
    * to and including the next `</sup>`. */
  function SupMatchAt(s: string, p: nat): Option<nat>
  {
    if !OccursAt(s, "<sup", p) then None
    else
      var close := IndexFrom(s, ">", p + 4);
      if close < 0 then None
      else
        var end := IndexFrom(s, "</sup>", close + 1);
        if end < 0 then None else Some(end + 6)
  }

  /** `filterReference(html)`: an empty input gives the empty string. */
  function FilterReference(html: string): string
  {
    if html == "" then "" else RemoveMatches(html, 0, SupMatchAt)
  }

  /** Text without `<sup` passes through unchanged. */
  lemma FilterReferenceWithoutSup(html: string)
    requires !Includes(html, "<sup")
    ensures FilterReference(html) == html
  {
    RemoveNothing(html, 0, SupMatchAt);
  }

  lemma CharHere(s: string, c: char, i: nat)
    requires i < |s| && s[i] == c
    ensures IndexFrom(s, [c], i) == i
  {
    assert s[i..i + 1] == [s[i]];
  }

  lemma CharSkip(s: string, c: char, i: nat)
    requires i < |s| && s[i] != c
    ensures IndexFrom(s, [c], i) == IndexFrom(s, [c], i + 1)
  {
    assert s[i..i + 1] == [s[i]];
  }

  lemma NotAt(s: string, sub: string, i: nat, k: nat)
    requires k < |sub| && i + k < |s| && s[i + k] != sub[k]
    ensures !OccursAt(s, sub, i)
  {
  }

  lemma Skip(s: string, p: nat, e: nat, matchAt: (string, nat) -> Option<nat>)
    requires matchAt(s, p) == Some(e) && p < e <= |s|
    ensures RemoveMatches(s, p, matchAt) == RemoveMatches(s, e, matchAt)
  {
  }

  lemma Keep(s: string, p: nat, matchAt: (string, nat) -> Option<nat>)
    requires p < |s| && matchAt(s, p).None?
    ensures RemoveMatches(s, p, matchAt) == [s[p]] + RemoveMatches(s, p + 1, matchAt)
  {
  }

  /** A run of positions where nothing matches is kept as it is. */
  lemma {:induction false} KeepRun(s: string, p: nat, q: nat, matchAt: (string, nat) -> Option<nat>)
    requires p <= q <= |s|
    requires forall k :: p <= k < q ==> matchAt(s, k).None?
    ensures RemoveMatches(s, p, matchAt) == s[p..q] + RemoveMatches(s, q, matchAt)
    decreases q - p
  {
    if p < q {
      KeepRun(s, p + 1, q, matchAt);
      calc {
        RemoveMatches(s, p, matchAt);
        { Keep(s, p, matchAt); }
        [s[p]] + RemoveMatches(s, p + 1, matchAt);
        [s[p]] + (s[p + 1..q] + RemoveMatches(s, q, matchAt));
        { assert s[p..q] == [s[p]] + s[p + 1..q]; }
        s[p..q] + RemoveMatches(s, q, matchAt);
      }
    }
  }

  /** Where a reference match ends, when there is one. */
  function SupEnd(s: string, p: nat): int
  {
    var close := IndexFrom(s, ">", p + 4);
    if !OccursAt(s, "<sup", p) || close < 0 then -1
    else
      var end := IndexFrom(s, "</sup>", close + 1);
      if end < 0 then -1 else end + 6
  }

  lemma SupMatchEnd(s: string, p: nat)
    ensures SupMatchAt(s, p) == if SupEnd(s, p) < 0 then None else Some(SupEnd(s, p))
    ensures SupEnd(s, p) >= 0 ==> p < SupEnd(s, p) <= |s|
  {
  }

  /** Text put in front moves a reference match without changing it. */
  lemma SupEndShift(a: string, b: string, q: nat)
    ensures SupEnd(a + b, |a| + q) == if SupEnd(b, q) < 0 then -1 else |a| + SupEnd(b, q)
  {
    OccursAtShift(a, b, "<sup", q);
    IndexFromShift(a, b, ">", q + 4);
    var close := IndexFrom(b, ">", q + 4);
    if close >= 0 { IndexFromShift(a, b, "</sup>", close + 1); }
  }

  /** `x` is the match `y` found in a suffix, moved `n` positions on. */
  predicate Shifted(x: Option<nat>, y: Option<nat>, n: nat)
  {
    if y.Some? then x == Some(n + y.value) else x.None?
  }

  /** When a pattern matches the same way after text is put in front, the
    * scan of the suffix does not depend on that text. */
  lemma {:induction false} RemoveShift(s: string, a: string, b: string, q: nat, matchAt: (string, nat) -> Option<nat>)
    requires s == a + b && q <= |b|
    requires forall k :: q <= k < |b| ==> Shifted(matchAt(s, |a| + k), matchAt(b, k), |a|)
    ensures RemoveMatches(s, |a| + q, matchAt) == RemoveMatches(b, q, matchAt)
    decreases |b| - q
  {
    if q < |b| {
      assert Shifted(matchAt(s, |a| + q), matchAt(b, q), |a|);
      var m := matchAt(b, q);
      if m.Some? && q < m.value <= |b| {
        RemoveShift(s, a, b, m.value, matchAt);
        SkipShifted(s, a, b, q, m.value, matchAt);
      } else {
        RemoveShift(s, a, b, q + 1, matchAt);
        KeepShifted(s, a, b, q, matchAt);
      }
    }
  }

  /** A match skipped in the suffix is skipped in the whole text too. */
  lemma SkipShifted(s: string, a: string, b: string, q: nat, e: nat, matchAt: (string, nat) -> Option<nat>)
    requires s == a + b && q < e <= |b|
    requires matchAt(b, q) == Some(e) && matchAt(s, |a| + q) == Some(|a| + e)
    ensures RemoveMatches(s, |a| + q, matchAt) == RemoveMatches(s, |a| + e, matchAt)
    ensures RemoveMatches(b, q, matchAt) == RemoveMatches(b, e, matchAt)
  {
    Skip(s, |a| + q, |a| + e, matchAt);
    Skip(b, q, e, matchAt);
  }

  /** One kept character of the suffix is kept in the whole text too. */
  lemma KeepShifted(s: string, a: string, b: string, q: nat, matchAt: (string, nat) -> Option<nat>)
    requires s == a + b && q < |b|
    requires Shifted(matchAt(s, |a| + q), matchAt(b, q), |a|)
    requires matchAt(b, q).Some? ==> !(q < matchAt(b, q).value <= |b|)
    ensures RemoveMatches(s, |a| + q, matchAt) == [b[q]] + RemoveMatches(s, |a| + q + 1, matchAt)
    ensures RemoveMatches(b, q, matchAt) == [b[q]] + RemoveMatches(b, q + 1, matchAt)
  {
    assert s[|a| + q] == b[q];
  }

  /** The reference scan of a suffix does not depend on the text in front of it. */
  lemma RemoveSupShift(s: string, a: string, b: string)
    requires s == a + b
    ensures RemoveMatches(s, |a|, SupMatchAt) == RemoveMatches(b, 0, SupMatchAt)
  {
    forall k | 0 <= k < |b| ensures Shifted(SupMatchAt(s, |a| + k), SupMatchAt(b, k), |a|) {
      SupShifted(a, b, k);
    }
    RemoveShift(s, a, b, 0, SupMatchAt);
  }

  lemma SupShifted(a: string, b: string, k: nat)
    ensures Shifted(SupMatchAt(a + b, |a| + k), SupMatchAt(b, k), |a|)
  {
    SupEndShift(a, b, k);
    SupMatchEnd(b, k);
    SupMatchEnd(a + b, |a| + k);
  }

  /** `<sup`, attributes without `>`, `>`, then content holding no `</sup>`,
    * then `</sup>`: one reference mark. */
  function SupSpan(attrs: string, content: string): string
  {
    "<sup" + attrs + ">" + content + "</sup>"
  }

  lemma SupSpanLength(attrs: string, content: string)
    ensures |SupSpan(attrs, content)| == |attrs| + |content| + 11
  {
  }

  /** A reference mark opens with `<sup` and its first `>` closes the attributes. */
  lemma SupOpenAt(attrs: string, content: string, post: string)
    requires forall i :: 0 <= i < |attrs| ==> attrs[i] != '>'
    ensures OccursAt(SupSpan(attrs, content) + post, "<sup", 0)
    ensures IndexFrom(SupSpan(attrs, content) + post, ">", 4) == 4 + |attrs|
  {
    var b := SupSpan(attrs, content) + post;
    var tail := content + "</sup>" + post;
    var rest := attrs + ">" + tail;
    assert b == "<sup" + rest;
    assert b[0..4] == "<sup";
    CloseAfterAttributes(attrs, tail);
    IndexFromShift("<sup", rest, ">", 0);
  }

  /** The first `</sup>` after the attributes is the one closing the mark. */
  lemma SupShutAt(attrs: string, content: string, post: string)
    requires forall k :: 0 <= k < |content| ==> !OccursAt(content + "</sup>", "</sup>", k)
    ensures IndexFrom(SupSpan(attrs, content) + post, "</sup>", 5 + |attrs|) == 5 + |attrs| + |content|
  {
    var front := "<sup" + attrs + ">";
    var tail := content + "</sup>" + post;
    assert SupSpan(attrs, content) + post == front + tail;
    EndAfterContent(content, post);
    IndexFromShift(front, tail, "</sup>", 0);
  }

  /** A reference mark at the start of a text is one whole match. */
  lemma SupSpanEnd(attrs: string, content: string, post: string)
    requires forall i :: 0 <= i < |attrs| ==> attrs[i] != '>'
    requires forall k :: 0 <= k < |content| ==> !OccursAt(content + "</sup>", "</sup>", k)
    ensures SupEnd(SupSpan(attrs, content) + post, 0) == |attrs| + |content| + 11
  {
    SupOpenAt(attrs, content, post);
    SupShutAt(attrs, content, post);
  }

  /** A match at the start of a text is still one after text put in front. */
  lemma MatchAfter(pre: string, b: string, n: nat)
    requires SupEnd(b, 0) == n
    ensures SupMatchAt(pre + b, |pre|) == Some(|pre| + n) && 0 < n <= |b|
  {
    SupEndShift(pre, b, 0);
    SupMatchEnd(pre + b, |pre|);
    SupMatchEnd(b, 0);
  }

  /** In text without `<sup` followed by text that starts with `<`, no match
    * of the reference pattern starts inside the first part: one that would
    * run into the second part meets the `<` where `s`, `u` or `p` is needed. */
  lemma NoMatchBefore(pre: string, b: string, k: nat)
    requires !Includes(pre, "<sup")
    requires 0 < |b| && b[0] == '<' && k < |pre|
    ensures SupMatchAt(pre + b, k).None?
  {
    var s := pre + b;
    if k + 4 <= |pre| {
      IncludesIff(pre, "<sup");
      assert !OccursAt(pre, "<sup", k);
      assert s[k..k + 4] == pre[k..k + 4];
    } else {
      assert s[|pre|] == '<';
      NotAt(s, "<sup", k, |pre| - k);
    }
  }

  /** A match of the reference pattern starts with `<`. */
  lemma MatchStartsWithLt(pre: string, b: string)
    requires SupMatchAt(pre + b, |pre|).Some?
    ensures 0 < |b| && b[0] == '<'
  {
    var s := pre + b;
    assert s[|pre|..|pre| + 4] == "<sup";
    assert s[|pre|] == '<';
  }

  /** No reference match starts in text without `<sup` put in front of one. */
  lemma NoMatchInFront(pre: string, b: string)
    requires !Includes(pre, "<sup") && SupMatchAt(pre + b, |pre|).Some?
    ensures forall k :: 0 <= k < |pre| ==> SupMatchAt(pre + b, k).None?
  {
    MatchStartsWithLt(pre, b);
    forall k | 0 <= k < |pre| ensures SupMatchAt(pre + b, k).None? {
      NoMatchBefore(pre, b, k);
    }
  }

  /** Around a match of the reference pattern that follows text without
    * `<sup`, the text is kept and what comes after the match is filtered on
    * its own. */
  lemma RemoveAroundMatch(pre: string, b: string, n: nat)
    requires !Includes(pre, "<sup")
    requires 0 < n <= |b| && SupMatchAt(pre + b, |pre|) == Some(|pre| + n)
    ensures RemoveMatches(pre + b, 0, SupMatchAt) == pre + RemoveMatches(b[n..], 0, SupMatchAt)
  {
    var s := pre + b;
    NoMatchInFront(pre, b);
    KeepRun(s, 0, |pre|, SupMatchAt);
    assert s[0..|pre|] == pre;
    Skip(s, |pre|, |pre| + n, SupMatchAt);
    ScanAfterMatch(pre, b, n);
  }

  /** The scan after a match is the scan of the text after it. */
  lemma ScanAfterMatch(pre: string, b: string, n: nat)
    requires n <= |b|
    ensures RemoveMatches(pre + b, |pre| + n, SupMatchAt) == RemoveMatches(b[n..], 0, SupMatchAt)
  {
    var s, a, c := pre + b, pre + b[..n], b[n..];
    SplitAfter(pre, b, n);
    RemoveSupShift(s, a, c);
    assert |a| == |pre| + n;
  }

  lemma SplitAfter(pre: string, b: string, n: nat)
    requires n <= |b|
    ensures pre + b == (pre + b[..n]) + b[n..]
  {
    assert b == b[..n] + b[n..];
  }

  lemma CloseAfterAttributes(attrs: string, rest: string)
    requires forall i :: 0 <= i < |attrs| ==> attrs[i] != '>'
    ensures IndexFrom(attrs + ">" + rest, ">", 0) == |attrs|
  {
    var b := attrs + ">" + rest;
    forall k | 0 <= k < |attrs| ensures !OccursAt(b, ">", k) {
      assert b[k..k + 1] == [attrs[k]];
    }
    assert b[|attrs|..|attrs| + 1] == ">";
    IndexFromIs(b, ">", 0, |attrs|);
  }

  lemma EndAfterContent(content: string, post: string)
    requires forall k :: 0 <= k < |content| ==> !OccursAt(content + "</sup>", "</sup>", k)
    ensures IndexFrom(content + "</sup>" + post, "</sup>", 0) == |content|
  {
    var b := content + "</sup>" + post;
    forall k | 0 <= k < |content| ensures !OccursAt(b, "</sup>", k) {
      assert !OccursAt(content + "</sup>", "</sup>", k);
      assert b[k..k + 6] == (content + "</sup>")[k..k + 6];
    }
    assert b[|content|..|content| + 6] == "</sup>";
    IndexFromIs(b, "</sup>", 0, |content|);
  }

  /** Every reference mark is removed together with its content: the text
    * in front of the first one, which holds no `<sup`, is kept, and the text
    * after it is filtered on its own. The content is any text in which no
    * `</sup>` starts before the closing one. */
  lemma FilterReferenceSpan(pre: string, attrs: string, content: string, post: string)
    requires !Includes(pre, "<sup")
    requires forall i :: 0 <= i < |attrs| ==> attrs[i] != '>'
    requires forall k :: 0 <= k < |content| ==> !OccursAt(content + "</sup>", "</sup>", k)
    ensures FilterReference(pre + SupSpan(attrs, content) + post) == pre + FilterReference(post)
  {
    var b := SupSpan(attrs, content) + post;
    var n := |attrs| + |content| + 11;
    SupSpanEnd(attrs, content, post);
    SupSpanLength(attrs, content);
    assert b[n..] == post;
    MatchAfter(pre, b, n);
    RemoveAroundMatch(pre, b, n);
    assert pre + SupSpan(attrs, content) + post == pre + b;
  }

  /** From a position with no `</sup>` at or after it, nothing more is removed. */
  lemma SupTailKept(s: string, p: nat)
    requires p <= |s|
    requires forall k :: p <= k ==> !OccursAt(s, "</sup>", k)
    ensures RemoveMatches(s, p, SupMatchAt) == s[p..]
  {
    forall q | p <= q < |s| ensures SupMatchAt(s, q).None? {
      if OccursAt(s, "<sup", q) {
        var close := IndexFrom(s, ">", q + 4);
        if close >= 0 { assert IndexFrom(s, "</sup>", close + 1) == -1; }
      }
    }
    RemoveNothing(s, p, SupMatchAt);
  }

  /** A `<sup` never closed by a later `</sup>` is kept: text with no
    * `</sup>` passes through unchanged. */
  lemma FilterReferenceUnclosed(html: string)
    requires !Includes(html, "</sup>")
    ensures FilterReference(html) == html
  {
    SupTailKept(html, 0);
  }

  // ---------------------------------------------------------------------------
  // stripHTMLTags without a tag list: /<\/?[^>]+(>|$)/g

  /** A `<` followed by a character other than `>` starts a tag that runs
    * through the next `>`, or to the end of the string when there is none. */
  function TagMatchAt(s: string, p: nat): Option<nat>
  {
    if p + 1 < |s| && s[p] == '<' && s[p + 1] != '>' then
      var close := IndexFrom(s, ">", p + 1);
      Some(if close < 0 then |s| else close + 1)
    else None
  }

  lemma {:induction false} KeptAfterClose(s: string, p: nat)
    requires p < |s| && s[p] == '>'
    ensures RemoveMatches(s, p, TagMatchAt) == [s[p]] + RemoveMatches(s, p + 1, TagMatchAt)
  {
  }

  /** Every `<` left in the text stands at the end or right before a `>`. */
  predicate NoTagLeft(r: string)
  {
    forall i :: 0 <= i < |r| - 1 && r[i] == '<' ==> r[i + 1] == '>'
  }

  lemma {:induction false} RemoveTagsLeavesNoTag(s: string, p: nat)
    requires p <= |s|
    ensures NoTagLeft(RemoveMatches(s, p, TagMatchAt))
    decreases |s| - p
  {
    if p < |s| {
      var rest := RemoveMatches(s, p + 1, TagMatchAt);
      match TagMatchAt(s, p)
      case Some(e) => RemoveTagsLeavesNoTag(s, e);
      case None =>
        RemoveTagsLeavesNoTag(s, p + 1);
        var r := [s[p]] + rest;
        if s[p] == '<' && p + 1 < |s| {
          KeptAfterClose(s, p + 1);
          assert rest[0] == '>';
        }
        forall i | 0 <= i < |r| - 1 && r[i] == '<' ensures r[i + 1] == '>' {
          if i > 0 { assert r[i] == rest[i - 1] && r[i + 1] == rest[i]; }
        }
    }
  }

  // ---------------------------------------------------------------------------
  // stripHTMLTags with a tag list: new RegExp(`<\/?(?:names)[^>]*>`, "gi"),
  // every name escaped, so each alternative is a literal.

  /** The case folding of the `i` flag, on ASCII letters only. */
  function Upper(c: char): char
  {
    if 'a' <= c <= 'z' then (c as int - 32) as char else c
  }

  /** `sub` occurs at `i` when letters are compared without case. */
  predicate OccursAtFolded(s: string, sub: string, i: nat)
  {
    i + |sub| <= |s| && forall k :: 0 <= k < |sub| ==> Upper(s[i + k]) == Upper(sub[k])
  }

  /** The first alternative that matches at `at` and is followed by a `>`
    * later on; the match ends after that `>`. */
  function AlternativeMatch(s: string, at: nat, alternatives: seq<string>): Option<nat>
    decreases |alternatives|
  {
    if alternatives == [] then None
    else
      var name := alternatives[0];
      var close := if OccursAtFolded(s, name, at) then IndexFrom(s, ">", at + |name|) else -1;
      if close >= 0 then Some(close + 1) else AlternativeMatch(s, at, alternatives[1..])
  }

  /** An empty list joins to an empty alternation, which matches every tag. */
  function Alternatives(names: seq<string>): seq<string>
  {
    if names == [] then [""] else names
  }

  /** `<`, then an optional `/` (tried first when present), then a listed name. */
  function NamedTagMatchAt(s: string, p: nat, names: seq<string>): Option<nat>
  {
    if p < |s| && s[p] == '<' then
      var withSlash := if p + 1 < |s| && s[p + 1] == '/' then AlternativeMatch(s, p + 2, Alternatives(names)) else None;
      if withSlash.Some? then withSlash else AlternativeMatch(s, p + 1, Alternatives(names))
    else None
  }

  /** The alternative `name` matches at `at`: the name, compared without
    * case, and a `>` somewhere after it. */
  predicate AltHere(s: string, at: nat, name: string)
  {
    OccursAtFolded(s, name, at) && IndexFrom(s, ">", at + |name|) >= 0
  }

  /** `alternatives[j]` is the first alternative that matches at `at`. */
  predicate FirstAlt(s: string, at: nat, alternatives: seq<string>, j: int)
  {
    0 <= j < |alternatives| && AltHere(s, at, alternatives[j])
    && forall i {:trigger AltHere(s, at, alternatives[i])} :: 0 <= i < j ==> !AltHere(s, at, alternatives[i])
  }

  lemma AltStep(s: string, at: nat, alternatives: seq<string>)
    requires alternatives != []
    ensures AlternativeMatch(s, at, alternatives)
      == if AltHere(s, at, alternatives[0]) then Some(IndexFrom(s, ">", at + |alternatives[0]|) + 1)
         else AlternativeMatch(s, at, alternatives[1..])
  {
  }

  /** The first matching alternative after a failing head is the first one of the tail. */
  lemma FirstAltTail(s: string, at: nat, alternatives: seq<string>, j: int)
    requires FirstAlt(s, at, alternatives, j) && j > 0
    ensures FirstAlt(s, at, alternatives[1..], j - 1) && alternatives[1..][j - 1] == alternatives[j]
  {
    var rest := alternatives[1..];
    forall i | 0 <= i < j - 1 ensures !AltHere(s, at, rest[i]) {
      assert rest[i] == alternatives[i + 1];
    }
  }

  /** Some alternative matches at `at`. */
  predicate AnyAlt(s: string, at: nat, alternatives: seq<string>)
  {
    exists j {:trigger AltHere(s, at, alternatives[j])} :: 0 <= j < |alternatives| && AltHere(s, at, alternatives[j])
  }

  /** The alternation matches exactly when one of its alternatives does. */
  lemma {:induction false} AlternativeMatchSome(s: string, at: nat, alternatives: seq<string>)
    ensures AlternativeMatch(s, at, alternatives).Some? <==> AnyAlt(s, at, alternatives)
    decreases |alternatives|
  {
    if alternatives != [] {
      var rest := alternatives[1..];
      AlternativeMatchSome(s, at, rest);
      AltStep(s, at, alternatives);
      if exists j {:trigger AltHere(s, at, alternatives[j])} :: 0 <= j < |alternatives| && AltHere(s, at, alternatives[j]) {
        var j :| 0 <= j < |alternatives| && AltHere(s, at, alternatives[j]);
        if j > 0 { assert rest[j - 1] == alternatives[j]; }
      }
      if exists j {:trigger AltHere(s, at, rest[j])} :: 0 <= j < |rest| && AltHere(s, at, rest[j]) {
        var j :| 0 <= j < |rest| && AltHere(s, at, rest[j]);
        assert alternatives[j + 1] == rest[j];
      }
    }
  }

  /** The match then ends right after the first `>` following the first
    * alternative that matches. */
  lemma {:induction false} AlternativeMatchEnd(s: string, at: nat, alternatives: seq<string>, j: int)
    requires FirstAlt(s, at, alternatives, j)
    ensures AlternativeMatch(s, at, alternatives) == Some(IndexFrom(s, ">", at + |alternatives[j]|) + 1)
    decreases j
  {
    AltStep(s, at, alternatives);
    if j > 0 {
      assert !AltHere(s, at, alternatives[0]);
      FirstAltTail(s, at, alternatives, j);
      AlternativeMatchEnd(s, at, alternatives[1..], j - 1);
    }
  }

  /** The closing-tag reading: `</` followed by a matching alternative. */
  predicate SlashTag(s: string, p: nat, names: seq<string>)
  {
    p + 1 < |s| && s[p + 1] == '/' && AnyAlt(s, p + 2, Alternatives(names))
  }

  /** A name tag matches at `p` exactly when `p` holds `<` and a listed name
    * (compared without case) follows it, after a `/` or without one, with a
    * `>` later on. */
  lemma NamedTagMatchIs(s: string, p: nat, names: seq<string>)
    ensures NamedTagMatchAt(s, p, names).Some?
      <==> p < |s| && s[p] == '<' && (SlashTag(s, p, names) || AnyAlt(s, p + 1, Alternatives(names)))
  {
    AlternativeMatchSome(s, p + 1, Alternatives(names));
    AlternativeMatchSome(s, p + 2, Alternatives(names));
  }

  /** A closing-tag match runs through the first `>` after the first
    * matching name. */
  lemma NamedTagMatchEnd(s: string, p: nat, names: seq<string>, j: int)
    requires p < |s| && s[p] == '<' && SlashTag(s, p, names)
    requires FirstAlt(s, p + 2, Alternatives(names), j)
    ensures NamedTagMatchAt(s, p, names) == Some(IndexFrom(s, ">", p + 2 + |Alternatives(names)[j]|) + 1)
  {
    SlashReading(s, p, names);
    AlternativeMatchEnd(s, p + 2, Alternatives(names), j);
  }

  /** With a name after `</`, the closing-tag reading is the match. */
  lemma SlashReading(s: string, p: nat, names: seq<string>)
    requires p < |s| && s[p] == '<' && SlashTag(s, p, names)
    ensures NamedTagMatchAt(s, p, names) == AlternativeMatch(s, p + 2, Alternatives(names))
  {
    AlternativeMatchSome(s, p + 2, Alternatives(names));
  }

  /** Without one, the direct reading is the match. */
  lemma OpenReading(s: string, p: nat, names: seq<string>)
    requires p < |s| && s[p] == '<' && !SlashTag(s, p, names)
    ensures NamedTagMatchAt(s, p, names) == AlternativeMatch(s, p + 1, Alternatives(names))
  {
    AlternativeMatchSome(s, p + 2, Alternatives(names));
  }

  /** Otherwise the match runs through the first `>` after the first name
    * matching right after the `<`. */
  lemma NamedTagMatchOpenEnd(s: string, p: nat, names: seq<string>, j: int)
    requires p < |s| && s[p] == '<' && !SlashTag(s, p, names)
    requires FirstAlt(s, p + 1, Alternatives(names), j)
    ensures NamedTagMatchAt(s, p, names) == Some(IndexFrom(s, ">", p + 1 + |Alternatives(names)[j]|) + 1)
  {
    OpenReading(s, p, names);
    AlternativeMatchEnd(s, p + 1, Alternatives(names), j);
  }

  /** `stripHTMLTags(html, tagNames)`: reference marks are filtered first;
    * then either every tag, or only the tags whose name begins with a listed
    * name, is removed. */
  function StripHtmlTags(html: string, tagNames: Option<seq<string>>): string
  {
    if html == "" then ""
    else
      var filtered := FilterReference(html);
      match tagNames
      case None => RemoveMatches(filtered, 0, TagMatchAt)
      case Some(names) => RemoveMatches(filtered, 0, (s: string, p: nat) => NamedTagMatchAt(s, p, names))
  }

  /** Without a tag list no tag survives. */
  lemma StripAllLeavesNoTag(html: string)
    ensures NoTagLeft(StripHtmlTags(html, None))
  {
    if html != "" { RemoveTagsLeavesNoTag(FilterReference(html), 0); }
  }

  /** Text without `<` passes through unchanged. */
  lemma StripPlainText(html: string, tagNames: Option<seq<string>>)
    requires forall i :: 0 <= i < |html| ==> html[i] != '<'
    ensures StripHtmlTags(html, tagNames) == html
  {
    if html != "" {
      forall i: nat ensures !OccursAt(html, "<sup", i) {
        if i + 4 <= |html| { assert html[i..i + 4][0] == html[i]; }
      }
      IncludesIff(html, "<sup");
      FilterReferenceWithoutSup(html);
      match tagNames
      case None => RemoveNothing(html, 0, TagMatchAt);
      case Some(names) => RemoveNothing(html, 0, (s: string, p: nat) => NamedTagMatchAt(s, p, names));
    }
  }

  /** Text without `</sup>` in which no `<` (or `</`) is followed by a listed
    * name passes through the name filter unchanged. */
  lemma StripNamedUnchanged(html: string, names: seq<string>)
    requires !Includes(html, "</sup>")
    requires forall i, j :: 0 <= i < |html| && html[i] == '<' && 0 <= j < |Alternatives(names)| ==>
      !OccursAtFolded(html, Alternatives(names)[j], i + 1)
      && (i + 1 < |html| && html[i + 1] == '/' ==> !OccursAtFolded(html, Alternatives(names)[j], i + 2))
    ensures StripHtmlTags(html, Some(names)) == html
  {
    if html != "" {
      FilterReferenceUnclosed(html);
      forall q | 0 <= q < |html| ensures NamedTagMatchAt(html, q, names).None? {
        NamedTagMatchIs(html, q, names);
      }
      RemoveNothing(html, 0, (s: string, p: nat) => NamedTagMatchAt(s, p, names));
    }
  }

  lemma StripAllExample()
    ensures RemoveMatches("<b>x</b>", 0, TagMatchAt) == "x"
  {
    var s := "<b>x</b>";
    CharSkip(s, '>', 1);
    CharHere(s, '>', 2);
    Skip(s, 0, 3, TagMatchAt);
    Keep(s, 3, TagMatchAt);
    CharSkip(s, '>', 5);
    CharSkip(s, '>', 6);
    CharHere(s, '>', 7);
    Skip(s, 4, 8, TagMatchAt);
  }

  /** Names match as prefixes and without case: `b` also removes `<BR>`. */
  lemma StripNamedExample()
    ensures RemoveMatches("<BR>x", 0, (s: string, p: nat) => NamedTagMatchAt(s, p, ["b"])) == "x"
  {
    var s := "<BR>x";
    var m := (s: string, p: nat) => NamedTagMatchAt(s, p, ["b"]);
    assert OccursAtFolded(s, "b", 1);
    CharSkip(s, '>', 2);
    CharHere(s, '>', 3);
    assert AlternativeMatch(s, 1, ["b"]) == Some(4);
    Skip(s, 0, 4, m);
    Keep(s, 4, m);
  }
}
