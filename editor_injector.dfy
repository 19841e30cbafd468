/**
 * The content script injected into the WeChat official-account editor. It
 * waits for the editor element (`checkEditorReady`), writes rendered HTML
 * into the editor's content area with a bounded number of retries
 * (`updateEditorContent` / `tryUpdate`), and answers `updateContent`
 * messages.
 *
 * The page is abstract: each probe sweep of the page sees a snapshot (which
 * selectors match which elements, or a DOM exception), HTML parsing is a
 * parameter, and a content area holds a sequence of nodes. Sleeps are
 * recorded as durations instead of being waited for.
 */
module EditorInjector {
  import opened Wrappers
  import opened JsString

  // ---------------------------------------------------------------------------
  // Constants

  const EditorSelectors: seq<string> := [
    "iframe.rich_edit_iframe",
    "#ueditor_0",
    "iframe.edui-editor-iframe",
    "iframe#editor_iframe",
    "iframe[name=\"editorContainer\"]",
    "iframe.weui-desktop-editor__editing-area"
  ]
  const TitleSelector := "#title"
  const TitlePlaceSelector := ".js_title_place"

  const DefaultMaxAttempts: nat := 10
  const DefaultInterval: nat := 1000
  const MaxRetries: nat := 3
  const RetryDelay: nat := 1000

  const Timeout := "编辑器加载超时"
  const EmptyContent := "更新内容为空"
  const UpdateFailed := "更新编辑器内容失败"

  // ---------------------------------------------------------------------------
  // The abstract page

  type AreaId = nat

  /** An element a selector can match. `frameArea` is `Some(_)` for an iframe
    * whose document is reachable, holding what that document's
    * `.rich_media_content` lookup finds; `innerArea` is what the element's own
    * `.rich_media_content` lookup finds. */
  datatype Elem = Elem(id: AreaId, frameArea: Option<Option<AreaId>>, innerArea: Option<AreaId>)

  /** What one probe sweep sees: the elements matched by each selector that
    * matches anything, or a DOM exception. */
  datatype Sweep = DomError(message: string) | Seen(found: map<string, Elem>)

  /** The parsed content: text and elements with their `src` attribute. */
  datatype Node = Text(data: string) | Element(tag: string, src: string, children: seq<Node>)

  datatype PageState = PageState(
    sweeps: nat,                  // probe sweeps made so far
    waits: seq<nat>,              // sleeps, in order
    areas: map<AreaId, seq<Node>>, // content of each content area
    titleInput: string,           // value of `#title`
    titlePlace: string,           // text of `.js_title_place`
    attempts: nat)                // update attempts made so far

  // ---------------------------------------------------------------------------
  // checkEditorReady

  /** The position of the first selector of `sels` that matches anything. */
  function FirstMatchIndex(found: map<string, Elem>, sels: seq<string>): (k: nat)
    ensures k <= |sels|
    ensures forall j :: 0 <= j < k ==> sels[j] !in found
    ensures k < |sels| ==> sels[k] in found
  {
    if sels == [] then 0
    else if sels[0] in found then 0
    else 1 + FirstMatchIndex(found, sels[1..])
  }

  datatype Found = Found(editor: Elem, page: map<string, Elem>)
  datatype Probe = Probe(result: Result<Found, string>, sweeps: nat, waits: seq<nat>)

  /** The probe loop from sweep `next`, `attempts` misses having been counted. */
  function ProbeFrom(sweepAt: nat -> Sweep, next: nat, attempts: nat, maxAttempts: nat, interval: nat): Probe
    decreases maxAttempts - attempts
  {
    if attempts >= maxAttempts then Probe(Err(Timeout), next, [])
    else match sweepAt(next)
      case DomError(message) => Probe(Err(message), next + 1, [])
      case Seen(found) =>
        var k := FirstMatchIndex(found, EditorSelectors);
        if k < |EditorSelectors| then Probe(Ok(Found(found[EditorSelectors[k]], found)), next + 1, [])
        else
          var rest := ProbeFrom(sweepAt, next + 1, attempts + 1, maxAttempts, interval);
          Probe(rest.result, rest.sweeps, [interval] + rest.waits)
  }

  /** A sweep that finds no editor. */
  predicate Miss(s: Sweep)
  {
    s.Seen? && FirstMatchIndex(s.found, EditorSelectors) == |EditorSelectors|
  }

  /** Every miss costs one sweep and one sleep of `interval`; the probe never
    * makes more than the remaining attempts' sweeps. */
  lemma {:induction false} ProbeBounds(sweepAt: nat -> Sweep, next: nat, attempts: nat, maxAttempts: nat, interval: nat)
    requires attempts <= maxAttempts
    ensures var p := ProbeFrom(sweepAt, next, attempts, maxAttempts, interval);
      next <= p.sweeps <= next + (maxAttempts - attempts)
      && (forall i :: 0 <= i < |p.waits| ==> p.waits[i] == interval)
      && (forall i :: next <= i < next + |p.waits| ==> Miss(sweepAt(i)))
      && (p.result.Err? && p.result.error == Timeout && !(exists i :: next <= i < p.sweeps && sweepAt(i).DomError?)
          ==> |p.waits| == p.sweeps - next == maxAttempts - attempts)
      && (p.result.Ok? || (exists i :: next <= i < p.sweeps && sweepAt(i).DomError?) ==> |p.waits| == p.sweeps - next - 1)
    decreases maxAttempts - attempts
  {
    if attempts < maxAttempts && Miss(sweepAt(next)) {
      ProbeBounds(sweepAt, next + 1, attempts + 1, maxAttempts, interval);
      var rest := ProbeFrom(sweepAt, next + 1, attempts + 1, maxAttempts, interval);
      assert forall i :: next < i < rest.sweeps && sweepAt(i).DomError? ==> next + 1 <= i < rest.sweeps;
    }
  }

  /** A successful probe returns the element of the first selector, in the
    * fixed order, that matches in the sweep that found it, after a run of
    * sweeps that found none. */
  lemma {:induction false} ProbeFirstMatch(sweepAt: nat -> Sweep, next: nat, attempts: nat, maxAttempts: nat, interval: nat)
    requires ProbeFrom(sweepAt, next, attempts, maxAttempts, interval).result.Ok?
    ensures next < ProbeFrom(sweepAt, next, attempts, maxAttempts, interval).sweeps
    ensures var p := ProbeFrom(sweepAt, next, attempts, maxAttempts, interval);
      var s := sweepAt(p.sweeps - 1);
      s.Seen?
      && p.result.value.page == s.found
      && (forall i :: next <= i < p.sweeps - 1 ==> Miss(sweepAt(i)))
      && exists k :: 0 <= k < |EditorSelectors| && EditorSelectors[k] in s.found
           && p.result.value.editor == s.found[EditorSelectors[k]]
           && forall j :: 0 <= j < k ==> EditorSelectors[j] !in s.found
    decreases maxAttempts - attempts
  {
    var s := sweepAt(next);
    if s.Seen? && FirstMatchIndex(s.found, EditorSelectors) == |EditorSelectors| {
      ProbeFirstMatch(sweepAt, next + 1, attempts + 1, maxAttempts, interval);
    } else {
      var k := FirstMatchIndex(s.found, EditorSelectors);
      assert EditorSelectors[k] in s.found;
    }
  }

  /** A DOM exception ends the probe at once with that exception. */
  lemma DomErrorAborts(sweepAt: nat -> Sweep, next: nat, attempts: nat, maxAttempts: nat, interval: nat)
    requires attempts < maxAttempts && sweepAt(next).DomError?
    ensures ProbeFrom(sweepAt, next, attempts, maxAttempts, interval)
      == Probe(Err(sweepAt(next).message), next + 1, [])
  {
  }

  /** The probe times out exactly when `maxAttempts` sweeps in a row miss. */
  lemma {:induction false} ProbeTimeout(sweepAt: nat -> Sweep, next: nat, attempts: nat, maxAttempts: nat, interval: nat)
    requires attempts <= maxAttempts
    requires forall i :: next <= i < next + (maxAttempts - attempts) ==> Miss(sweepAt(i))
    ensures ProbeFrom(sweepAt, next, attempts, maxAttempts, interval)
      == Probe(Err(Timeout), next + (maxAttempts - attempts), seq(maxAttempts - attempts, _ => interval))
    decreases maxAttempts - attempts
  {
    if attempts < maxAttempts {
      ProbeTimeout(sweepAt, next + 1, attempts + 1, maxAttempts, interval);
      assert seq(maxAttempts - attempts, _ => interval) == [interval] + seq(maxAttempts - attempts - 1, _ => interval);
    }
  }

  // ---------------------------------------------------------------------------
  // Rewriting image sources

  /** `src.replace(/^http:/, 'https:')` */
  function HttpsSrc(src: string): (r: string)
    ensures StartsWith(src, "http:") ==> r == "https:" + src[5..]
    ensures !StartsWith(src, "http:") ==> r == src
  {
    if StartsWith(src, "http:") then "https:" + src[5..] else src
  }

  function SecureNode(n: Node): Node
    decreases n, 1
  {
    match n
    case Text(_) => n
    case Element(tag, src, children) =>
      Element(tag, if tag == "img" then HttpsSrc(src) else src, SecureNodes(children))
  }

  /** Every `img` in the fragment, at any depth, with its source rewritten. */
  function SecureNodes(ns: seq<Node>): (r: seq<Node>)
    ensures |r| == |ns|
    decreases ns, 0
  {
    if ns == [] then [] else [SecureNode(ns[0])] + SecureNodes(ns[1..])
  }

  predicate SecureTree(n: Node)
    decreases n, 1
  {
    match n
    case Text(_) => true
    case Element(tag, src, children) => (tag == "img" ==> !StartsWith(src, "http:")) && SecureForest(children)
  }

  /** No `img` at any depth has a source starting with `http:`. */
  predicate SecureForest(ns: seq<Node>)
    decreases ns, 0
  {
    ns == [] || (SecureTree(ns[0]) && SecureForest(ns[1..]))
  }

  /** Only a leading `http:` changes, and it becomes `https:`. */
  lemma HttpsSrcSecure(src: string)
    ensures !StartsWith(HttpsSrc(src), "http:")
    ensures HttpsSrc(HttpsSrc(src)) == HttpsSrc(src)
  {
    if StartsWith(src, "http:") {
      var r := HttpsSrc(src);
      assert r[4] == 's';
    }
  }

  lemma {:induction false} SecureNodeSecure(n: Node)
    ensures SecureTree(SecureNode(n))
    ensures SecureNode(SecureNode(n)) == SecureNode(n)
    decreases n, 1
  {
    match n
    case Text(_) =>
    case Element(tag, src, children) =>
      HttpsSrcSecure(src);
      SecureNodesSecure(children);
  }

  /** After the rewrite no image source starts with `http:`, and rewriting
    * again changes nothing. */
  lemma {:induction false} SecureNodesSecure(ns: seq<Node>)
    ensures SecureForest(SecureNodes(ns))
    ensures SecureNodes(SecureNodes(ns)) == SecureNodes(ns)
    decreases ns, 0
  {
    if ns != [] {
      SecureNodeSecure(ns[0]);
      SecureNodesSecure(ns[1..]);
      var r := SecureNodes(ns);
      assert r[1..] == SecureNodes(ns[1..]);
    }
  }

  /** A fragment without insecure images is kept as it is. */
  lemma {:induction false} SecureForestUnchanged(ns: seq<Node>)
    requires SecureForest(ns)
    ensures SecureNodes(ns) == ns
    decreases ns, 0
  {
    if ns != [] {
      SecureTreeUnchanged(ns[0]);
      SecureForestUnchanged(ns[1..]);
    }
  }

  lemma {:induction false} SecureTreeUnchanged(n: Node)
    requires SecureTree(n)
    ensures SecureNode(n) == n
    decreases n, 1
  {
    match n
    case Text(_) =>
    case Element(tag, src, children) =>
      SecureForestUnchanged(children);
  }

  /** `contentArea.innerHTML` is empty: only empty text nodes. */
  predicate RendersEmpty(ns: seq<Node>)
  {
    forall i :: 0 <= i < |ns| ==> ns[i] == Text("")
  }

  // ---------------------------------------------------------------------------
  // tryUpdate and updateEditorContent, as functions of the page state

  /** The content area: an iframe document's `.rich_media_content`, or else
    * the element's own `.rich_media_content`, or the element itself. */
  function ContentArea(e: Elem): (a: Option<AreaId>)
    ensures e.frameArea.None? ==> a.Some?
  {
    if e.frameArea.Some? then e.frameArea.value
    else if e.innerArea.Some? then e.innerArea
    else Some(e.id)
  }

  function WriteTitle(s: PageState, title: string, page: map<string, Elem>): (r: PageState)
  {
    if title != "" && TitleSelector in page && TitlePlaceSelector in page
    then s.(titleInput := title, titlePlace := title)
    else s
  }

  /** One `tryUpdate` attempt: the new page state and whether it succeeded. */
  function Attempt(sweepAt: nat -> Sweep, parse: string -> seq<Node>, content: string, title: string,
                   s: PageState): (PageState, bool)
  {
    var p := ProbeFrom(sweepAt, s.sweeps, 0, DefaultMaxAttempts, DefaultInterval);
    var s1 := s.(sweeps := p.sweeps, waits := s.waits + p.waits, attempts := s.attempts + 1);
    match p.result
    case Err(_) => (s1, false)
    case Ok(found) =>
      var s2 := WriteTitle(s1, title, found.page);
      match ContentArea(found.editor)
      case None => (s2, false)
      case Some(a) =>
        var nodes := SecureNodes(parse(content));
        (s2.(areas := s2.areas[a := nodes]), !RendersEmpty(nodes))
  }

  /** What follows an attempt that ended in `s` with outcome `ok`, when
    * `retry` retries have been made. */
  function Continue(sweepAt: nat -> Sweep, parse: string -> seq<Node>, content: string, title: string,
                    s: PageState, ok: bool, retry: nat): (PageState, bool)
    decreases MaxRetries - retry, 0
  {
    if ok then (s, true)
    else if retry < MaxRetries then UpdateFrom(sweepAt, parse, content, title, s.(waits := s.waits + [RetryDelay]), retry + 1)
    else (s, false)
  }

  function UpdateFrom(sweepAt: nat -> Sweep, parse: string -> seq<Node>, content: string, title: string,
                      s: PageState, retry: nat): (PageState, bool)
    decreases MaxRetries - retry, 1
  {
    var (s1, ok) := Attempt(sweepAt, parse, content, title, s);
    Continue(sweepAt, parse, content, title, s1, ok, retry)
  }

  // ---------------------------------------------------------------------------
  // What an update promises

  /** The title is written only when it is non-empty and both title
    * elements exist; a missing title never fails an attempt; an attempt
    * succeeds exactly when the area is found and the written fragment is
    * not empty, and then the area holds exactly the rewritten fragment. */
  lemma AttemptOutcome(sweepAt: nat -> Sweep, parse: string -> seq<Node>, content: string, title: string,
                       s: PageState)
    ensures Attempt(sweepAt, parse, content, title, s).1 == Attempt(sweepAt, parse, content, "", s).1
    ensures title == "" ==> Attempt(sweepAt, parse, content, title, s).0.titleInput == s.titleInput
    ensures Attempt(sweepAt, parse, content, title, s).0.attempts == s.attempts + 1
    ensures var p := ProbeFrom(sweepAt, s.sweeps, 0, DefaultMaxAttempts, DefaultInterval);
      Attempt(sweepAt, parse, content, title, s).1
      <==> p.result.Ok? && ContentArea(p.result.value.editor).Some? && !RendersEmpty(SecureNodes(parse(content)))
    ensures var p := ProbeFrom(sweepAt, s.sweeps, 0, DefaultMaxAttempts, DefaultInterval);
      Attempt(sweepAt, parse, content, title, s).1
      ==> Attempt(sweepAt, parse, content, title, s).0.areas
          == s.areas[ContentArea(p.result.value.editor).value := SecureNodes(parse(content))]
  {
  }

  /** An update makes one attempt, plus one per failure while fewer than
    * three retries have been made: at most four in all, exactly four when it
    * fails, with a one-second sleep before each retry. */
  lemma {:induction false} UpdateAttempts(sweepAt: nat -> Sweep, parse: string -> seq<Node>, content: string,
                                          title: string, s: PageState, retry: nat)
    requires retry <= MaxRetries
    ensures var r := UpdateFrom(sweepAt, parse, content, title, s, retry);
      s.attempts + 1 <= r.0.attempts <= s.attempts + 1 + (MaxRetries - retry)
      && (!r.1 ==> r.0.attempts == s.attempts + 1 + (MaxRetries - retry))
      && (r.1 <==> Attempt(sweepAt, parse, content, title, s).1
                   || (retry < MaxRetries
                       && UpdateFrom(sweepAt, parse, content, title,
                                     Attempt(sweepAt, parse, content, title, s).0.(waits := Attempt(sweepAt, parse, content, title, s).0.waits + [RetryDelay]),
                                     retry + 1).1))
    decreases MaxRetries - retry
  {
    var a := Attempt(sweepAt, parse, content, title, s);
    AttemptOutcome(sweepAt, parse, content, title, s);
    if !a.1 && retry < MaxRetries {
      UpdateAttempts(sweepAt, parse, content, title, a.0.(waits := a.0.waits + [RetryDelay]), retry + 1);
    }
  }

  /** The first attempt that succeeds ends the update with success. */
  lemma FirstSuccessWins(sweepAt: nat -> Sweep, parse: string -> seq<Node>, content: string, title: string,
                         s: PageState, retry: nat)
    requires Attempt(sweepAt, parse, content, title, s).1
    ensures UpdateFrom(sweepAt, parse, content, title, s, retry) == Attempt(sweepAt, parse, content, title, s)
  {
  }

  /** An empty title leaves both title elements as they were, however many
    * attempts are made. */
  lemma {:induction false} EmptyTitleUntouched(sweepAt: nat -> Sweep, parse: string -> seq<Node>, content: string,
                                               s: PageState, retry: nat)
    requires retry <= MaxRetries
    ensures UpdateFrom(sweepAt, parse, content, "", s, retry).0.titleInput == s.titleInput
    ensures UpdateFrom(sweepAt, parse, content, "", s, retry).0.titlePlace == s.titlePlace
    decreases MaxRetries - retry
  {
    var a := Attempt(sweepAt, parse, content, "", s);
    if !a.1 && retry < MaxRetries {
      EmptyTitleUntouched(sweepAt, parse, content, a.0.(waits := a.0.waits + [RetryDelay]), retry + 1);
    }
  }

  // ---------------------------------------------------------------------------
  // The reply to `updateContent`

  datatype Message = UpdateContent(content: string, title: string) | OtherMessage(kind: string)
  datatype Reply = Reply(success: bool, error: Option<string>)

  /** The reply, given how `updateEditorContent` settled: with its boolean,
    * or rejected with an error message. */
  function ReplyFor(outcome: Result<bool, string>): (r: Reply)
    ensures r.success <==> outcome == Ok(true)
    ensures outcome == Ok(false) ==> r.error == Some(UpdateFailed)
    ensures outcome.Err? ==> r.error == Some(outcome.error)
    ensures r.success ==> r.error.None?
  {
    match outcome
    case Ok(true) => Reply(true, None)
    case Ok(false) => Reply(false, Some(UpdateFailed))
    case Err(message) => Reply(false, Some(message))
  }

  // ---------------------------------------------------------------------------
  // The page, updated in place

  class EditorPage {
    const sweepAt: nat -> Sweep
    const parse: string -> seq<Node>
    var sweeps: nat
    var waits: seq<nat>
    var areas: map<AreaId, seq<Node>>
    var titleInput: string
    var titlePlace: string
    var attempts: nat

    function State(): PageState
      reads this
    {
      PageState(sweeps, waits, areas, titleInput, titlePlace, attempts)
    }

    constructor(sweepAt: nat -> Sweep, parse: string -> seq<Node>, areas: map<AreaId, seq<Node>>,
                titleInput: string, titlePlace: string)
      ensures this.sweepAt == sweepAt && this.parse == parse
      ensures State() == PageState(0, [], areas, titleInput, titlePlace, 0)
    {
      this.sweepAt := sweepAt;
      this.parse := parse;
      this.sweeps := 0;
      this.waits := [];
      this.areas := areas;
      this.titleInput := titleInput;
      this.titlePlace := titlePlace;
      this.attempts := 0;
    }

    /** `checkEditorReady(maxAttempts, interval)` */
    method CheckEditorReady(maxAttempts: nat, interval: nat) returns (r: Result<Found, string>)
      modifies this
      ensures var p := ProbeFrom(sweepAt, old(sweeps), 0, maxAttempts, interval);
        r == p.result && sweeps == p.sweeps && waits == old(waits) + p.waits
      ensures areas == old(areas) && titleInput == old(titleInput) && titlePlace == old(titlePlace)
      ensures attempts == old(attempts)
    {
      var tries := 0;
      while tries < maxAttempts
        invariant tries <= maxAttempts
        invariant var p0 := ProbeFrom(sweepAt, old(sweeps), 0, maxAttempts, interval);
          var p := ProbeFrom(sweepAt, sweeps, tries, maxAttempts, interval);
          p0.result == p.result && p0.sweeps == p.sweeps && old(waits) + p0.waits == waits + p.waits
        invariant areas == old(areas) && titleInput == old(titleInput) && titlePlace == old(titlePlace)
        invariant attempts == old(attempts)
        decreases maxAttempts - tries
      {
        var sweep := sweepAt(sweeps);
        sweeps := sweeps + 1;
        if sweep.DomError? {
          return Err(sweep.message);
        }
        var i := 0;
        while i < |EditorSelectors|
          invariant i <= |EditorSelectors|
          invariant forall j :: 0 <= j < i ==> EditorSelectors[j] !in sweep.found
        {
          if EditorSelectors[i] in sweep.found {
            assert FirstMatchIndex(sweep.found, EditorSelectors) == i;
            return Ok(Found(sweep.found[EditorSelectors[i]], sweep.found));
          }
          i := i + 1;
        }
        assert FirstMatchIndex(sweep.found, EditorSelectors) == |EditorSelectors|;
        ghost var rest := ProbeFrom(sweepAt, sweeps, tries + 1, maxAttempts, interval);
        assert old(waits) + ProbeFrom(sweepAt, old(sweeps), 0, maxAttempts, interval).waits
          == (waits + [interval]) + rest.waits;
        waits := waits + [interval];
        tries := tries + 1;
      }
      return Err(Timeout);
    }

    /** `contentArea.innerHTML = ''`, then every parsed node appended in order. */
    method FillArea(a: AreaId, nodes: seq<Node>)
      modifies this
      ensures State() == old(State()).(areas := old(areas)[a := nodes])
    {
      ghost var base := areas;
      areas := areas[a := []];
      var pending := nodes;
      while pending != []
        invariant |pending| <= |nodes|
        invariant pending == nodes[|nodes| - |pending|..]
        invariant areas == base[a := nodes[..|nodes| - |pending|]]
        invariant State() == old(State()).(areas := areas)
        decreases |pending|
      {
        areas := areas[a := areas[a] + [pending[0]]];
        assert nodes[..|nodes| - |pending| + 1] == nodes[..|nodes| - |pending|] + [pending[0]];
        pending := pending[1..];
      }
      assert nodes[..|nodes|] == nodes;
    }

    /** One `tryUpdate` attempt, without its retry. */
    method TryUpdate(content: string, title: string) returns (ok: bool)
      modifies this
      ensures (State(), ok) == Attempt(sweepAt, parse, content, title, old(State()))
    {
      ghost var s := State();
      ghost var p := ProbeFrom(sweepAt, s.sweeps, 0, DefaultMaxAttempts, DefaultInterval);
      attempts := attempts + 1;
      var probe := CheckEditorReady(DefaultMaxAttempts, DefaultInterval);
      ghost var s1 := s.(sweeps := p.sweeps, waits := s.waits + p.waits, attempts := s.attempts + 1);
      assert State() == s1;
      if probe.Err? {
        return false;
      }
      var editor := probe.value.editor;
      if title != "" && TitleSelector in probe.value.page && TitlePlaceSelector in probe.value.page {
        titleInput := title;
        titlePlace := title;
      }
      assert State() == WriteTitle(s1, title, probe.value.page);
      var area := ContentArea(editor);
      if area.None? {
        return false;
      }
      var nodes := SecureNodes(parse(content));
      FillArea(area.value, nodes);
      ok := !RendersEmpty(nodes);
    }

    /** `updateEditorContent(content, title)` */
    method UpdateEditorContent(content: string, title: string) returns (ok: bool)
      modifies this
      ensures (State(), ok) == UpdateFrom(sweepAt, parse, content, title, old(State()), 0)
    {
      var retryCount := 0;
      ok := TryUpdate(content, title);
      while !ok && retryCount < MaxRetries
        invariant retryCount <= MaxRetries
        invariant Continue(sweepAt, parse, content, title, State(), ok, retryCount)
          == UpdateFrom(sweepAt, parse, content, title, old(State()), 0)
        decreases MaxRetries - retryCount
      {
        ghost var before := State();
        retryCount := retryCount + 1;
        waits := waits + [RetryDelay];
        ghost var waited := State();
        assert waited == before.(waits := before.waits + [RetryDelay]);
        ok := TryUpdate(content, title);
        assert (State(), ok) == Attempt(sweepAt, parse, content, title, waited);
      }
    }

    /** The `updateContent` listener: `None` when it does not answer. */
    method OnMessage(message: Message) returns (reply: Option<Reply>)
      modifies this
      ensures message.OtherMessage? ==> reply.None? && State() == old(State())
      ensures message.UpdateContent? && message.content == "" ==>
        reply == Some(Reply(false, Some(EmptyContent))) && State() == old(State())
      ensures message.UpdateContent? && message.content != "" ==>
        var r := UpdateFrom(sweepAt, parse, message.content, message.title, old(State()), 0);
        State() == r.0 && reply == Some(ReplyFor(Ok(r.1)))
    {
      match message
      case OtherMessage(_) =>
        return None;
      case UpdateContent(content, title) =>
        if content == "" {
          return Some(Reply(false, Some(EmptyContent)));
        }
        var ok := UpdateEditorContent(content, title);
        return Some(ReplyFor(Ok(ok)));
    }
  }
}
