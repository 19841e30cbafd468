/**
 * The template helpers shared by the background renderer: the
 * `boldFirstSentence` Handlebars helper (registered identically in the
 * sandbox and in the render handler) and the compiled-template cache keyed
 * by template name.
 */
module Template {
  import opened Wrappers
  import opened JsString

  // ---------------------------------------------------------------------------
  // text.split(/(?<=[.!?])\s+/)

  predicate IsStop(c: char)
  {
    c == '.' || c == '!' || c == '?'
  }

  /** The pattern matches at `q`: white space right after `.`, `!` or `?`.
    * A split never happens at position 0. */
  predicate SplitAt(s: string, q: nat)
  {
    0 < q < |s| && IsSpace(s[q]) && IsStop(s[q - 1])
  }

  /** Where the white-space run starting at `q` ends. */
  function RunEnd(s: string, q: nat): (e: nat)
    requires q <= |s|
    ensures q <= e <= |s| && (e == |s| || !IsSpace(s[e]))
    ensures forall k :: q <= k < e ==> IsSpace(s[k])
    decreases |s| - q
  {
    if q < |s| && IsSpace(s[q]) then RunEnd(s, q + 1) else q
  }

  /** The pieces of `s[p..]`, the current piece having started at `p` and the
    * scan being at `q`. */
  function Pieces(s: string, p: nat, q: nat): (r: seq<string>)
    requires p <= q <= |s|
    ensures |r| >= 1
    decreases |s| - q
  {
    if q >= |s| then [s[p..]]
    else if SplitAt(s, q) then
      var e := RunEnd(s, q);
      [s[p..q]] + Pieces(s, e, e)
    else Pieces(s, p, q + 1)
  }

  function Sentences(s: string): seq<string>
  {
    Pieces(s, 0, 0)
  }

  function Join(xs: seq<string>, sep: string): string
  {
    if xs == [] then "" else if |xs| == 1 then xs[0] else xs[0] + sep + Join(xs[1..], sep)
  }

  /** `<strong>${first}</strong> ${rest}` */
  function Bolded(first: string, rest: string): string
  {
    "<strong>" + first + "</strong> " + rest
  }

  /** The helper's output: the first sentence in `<strong>`, then a space,
    * then the remaining sentences joined by single spaces. */
  function BoldFirstSentence(text: string): string
  {
    if text == "" then ""
    else
      var sentences := Sentences(text);
      Bolded(sentences[0], Join(sentences[1..], " "))
  }

  // ---------------------------------------------------------------------------
  // What the helper does, stated by a character-by-character reference.

  /** `s[q..]` with every white-space run that follows a sentence stop
    * replaced by one space. */
  function Squeezed(s: string, q: nat): string
    requires q <= |s|
    decreases |s| - q
  {
    if q >= |s| then ""
    else if SplitAt(s, q) then " " + Squeezed(s, RunEnd(s, q))
    else [s[q]] + Squeezed(s, q + 1)
  }

  lemma JoinCons(x: string, xs: seq<string>, sep: string)
    requires xs != []
    ensures Join([x] + xs, sep) == x + sep + Join(xs, sep)
  {
    assert ([x] + xs)[1..] == xs;
  }

  lemma {:induction false} PiecesJoin(s: string, p: nat, q: nat)
    requires p <= q <= |s|
    ensures Join(Pieces(s, p, q), " ") == s[p..q] + Squeezed(s, q)
    decreases |s| - q, 1
  {
    if q >= |s| {
      assert Pieces(s, p, q) == [s[p..]];
      assert s[p..] == s[p..q];
    } else if SplitAt(s, q) {
      PiecesJoinAtSplit(s, p, q);
    } else {
      PiecesJoinInside(s, p, q);
    }
  }

  /** At a split the current piece ends and a new one starts after the run. */
  lemma {:induction false} PiecesJoinAtSplit(s: string, p: nat, q: nat)
    requires p <= q < |s| && SplitAt(s, q)
    ensures Join(Pieces(s, p, q), " ") == s[p..q] + Squeezed(s, q)
    decreases |s| - q, 0
  {
    var e := RunEnd(s, q);
    var rest := Pieces(s, e, e);
    assert Pieces(s, p, q) == [s[p..q]] + rest;
    PiecesJoin(s, e, e);
    assert s[e..e] == "";
    JoinCons(s[p..q], rest, " ");
    assert Squeezed(s, q) == " " + Squeezed(s, e);
  }

  /** Inside a piece the scan moves one character on. */
  lemma {:induction false} PiecesJoinInside(s: string, p: nat, q: nat)
    requires p <= q < |s| && !SplitAt(s, q)
    ensures Join(Pieces(s, p, q), " ") == s[p..q] + Squeezed(s, q)
    decreases |s| - q, 0
  {
    assert Pieces(s, p, q) == Pieces(s, p, q + 1);
    PiecesJoin(s, p, q + 1);
    assert Squeezed(s, q) == [s[q]] + Squeezed(s, q + 1);
    assert s[p..q + 1] == s[p..q] + [s[q]];
  }

  /** The first split position at or after `q`, or the end. */
  function FirstSplit(s: string, q: nat): (k: nat)
    requires q <= |s|
    ensures q <= k <= |s| && (k == |s| || SplitAt(s, k))
    ensures forall i :: q <= i < k ==> !SplitAt(s, i)
    decreases |s| - q
  {
    if q >= |s| || SplitAt(s, q) then q else FirstSplit(s, q + 1)
  }

  lemma {:induction false} FirstPiece(s: string, p: nat, q: nat)
    requires p <= q <= |s|
    ensures FirstSplit(s, q) < |s| ==>
      Pieces(s, p, q) == [s[p..FirstSplit(s, q)]] + Pieces(s, RunEnd(s, FirstSplit(s, q)), RunEnd(s, FirstSplit(s, q)))
    ensures FirstSplit(s, q) == |s| ==> Pieces(s, p, q) == [s[p..]]
    decreases |s| - q
  {
    if q < |s| && !SplitAt(s, q) {
      assert FirstSplit(s, q) == FirstSplit(s, q + 1);
      assert Pieces(s, p, q) == Pieces(s, p, q + 1);
      FirstPiece(s, p, q + 1);
    }
  }

  /** `boldFirstSentence(text)` bolds the text up to the first sentence stop
    * followed by white space, and joins the rest with that white space
    * squeezed to single spaces; empty text gives the empty string. */
  lemma {:induction false} BoldFirstSentenceShape(text: string)
    requires text != ""
    ensures FirstSplit(text, 0) < |text| ==>
      BoldFirstSentence(text) == Bolded(text[..FirstSplit(text, 0)], Squeezed(text, RunEnd(text, FirstSplit(text, 0))))
    ensures FirstSplit(text, 0) == |text| ==> BoldFirstSentence(text) == Bolded(text, "")
  {
    var k := FirstSplit(text, 0);
    FirstPiece(text, 0, 0);
    if k < |text| {
      SplitShape(text, k);
    } else {
      WholeShape(text);
    }
  }

  /** The case with a sentence break at `k`: the first piece ends there and
    * the remaining pieces join to the squeezed rest. */
  lemma {:induction false} SplitShape(text: string, k: nat)
    requires text != "" && k < |text|
    requires Pieces(text, 0, 0) == [text[..k]] + Pieces(text, RunEnd(text, k), RunEnd(text, k))
    ensures BoldFirstSentence(text) == Bolded(text[..k], Squeezed(text, RunEnd(text, k)))
  {
    var e := RunEnd(text, k);
    assert Sentences(text)[0] == text[..k];
    assert Sentences(text)[1..] == Pieces(text, e, e);
    PiecesJoin(text, e, e);
    assert text[e..e] == "";
  }

  /** The case without a break: one piece, the whole text. */
  lemma {:induction false} WholeShape(text: string)
    requires text != "" && Pieces(text, 0, 0) == [text[0..]]
    ensures BoldFirstSentence(text) == Bolded(text, "")
  {
    assert Sentences(text)[0] == text;
    assert Sentences(text)[1..] == [];
  }

  /** Text without any sentence break is bolded whole and followed by a space. */
  lemma BoldSingleSentence(text: string)
    requires text != ""
    requires forall i :: 0 <= i < |text| ==> !SplitAt(text, i)
    ensures BoldFirstSentence(text) == Bolded(text, "")
  {
    BoldFirstSentenceShape(text);
    assert FirstSplit(text, 0) == |text|;
  }

  // ---------------------------------------------------------------------------
  // The compiled-template cache

  /** A compiled template, identified by the source it was compiled from. */
  datatype Compiled = Compiled(source: string)

  /** What `getCompiledTemplate(source, name)` returns and the cache after it.
    * `compileError(source)` is the exception compiling `source` throws, if any. */
  function Lookup(entries: map<string, Compiled>, source: string, name: string, compileError: string -> Option<string>)
    : (Result<Compiled, string>, map<string, Compiled>)
  {
    if name in entries then (Ok(entries[name]), entries)
    else match compileError(source)
      case Some(e) => (Err(e), entries)
      case None => (Ok(Compiled(source)), entries[name := Compiled(source)])
  }

  /** A name seen before gets the template compiled the first time, whatever
    * source is passed now. */
  lemma CachedNameWins(entries: map<string, Compiled>, first: string, later: string, name: string,
                       compileError: string -> Option<string>)
    requires name !in entries && compileError(first).None?
    ensures var after := Lookup(entries, first, name, compileError).1;
      Lookup(after, later, name, compileError) == (Ok(Compiled(first)), after)
  {
  }

  /** Entries are only ever added: no lookup changes or removes one, and a
    * failed compilation adds nothing. */
  lemma LookupOnlyAdds(entries: map<string, Compiled>, source: string, name: string,
                       compileError: string -> Option<string>)
    ensures var (r, after) := Lookup(entries, source, name, compileError);
      (forall k :: k in entries ==> k in after && after[k] == entries[k])
      && after.Keys <= entries.Keys + {name}
      && (r.Err? ==> after == entries)
      && (r.Ok? ==> name in after && after[name] == r.value)
  {
  }

  class TemplateCache {
    var entries: map<string, Compiled>

    constructor ()
      ensures entries == map[]
    {
      entries := map[];
    }

    /** `getCompiledTemplate(source, name)` */
    method GetCompiledTemplate(source: string, name: string, compileError: string -> Option<string>)
      returns (r: Result<Compiled, string>)
      modifies this
      ensures (r, entries) == Lookup(old(entries), source, name, compileError)
    {
      if name !in entries {
        var failure := compileError(source);
        if failure.Some? {
          return Err(failure.value);
        }
        var compiled := Compiled(source);
        entries := entries[name := compiled];
        return Ok(compiled);
      }
      r := Ok(entries[name]);
    }
  }
}
