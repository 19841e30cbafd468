/**
 * The popup page's article pipeline: `cozeBotApi` (one text through the
 * `startTranslate` background handler, falling back to the text itself),
 * `optimizeData` (every text of the article through `cozeBotApi`, in place,
 * step by step) and the guards of `handleFullPage`. The popup's copies of
 * `stripHTMLTags` and `filterReference` are the ones modelled in
 * `HtmlFilters`.
 */
module Popup {
  import opened Wrappers
  import opened Article
  import opened Js

  // ---------------------------------------------------------------------------
  // Mapping every text of an article

  function MapSeq(xs: seq<string>, f: string -> string): (r: seq<string>)
    ensures |r| == |xs| && forall k :: 0 <= k < |xs| ==> r[k] == f(xs[k])
  {
    seq(|xs|, k requires 0 <= k < |xs| => f(xs[k]))
  }

  function MapItem(it: Item, f: string -> string): Item
  {
    Item(f(it.content), MapSeq(it.children, f), it.image)
  }

  function MapItems(items: seq<Item>, f: string -> string): (r: seq<Item>)
    ensures |r| == |items| && forall j :: 0 <= j < |items| ==> r[j] == MapItem(items[j], f)
  {
    seq(|items|, j requires 0 <= j < |items| => MapItem(items[j], f))
  }

  function MapStep(st: Step, f: string -> string): Step
  {
    Step(f(st.title), MapItems(st.items, f))
  }

  function MapSteps(steps: seq<Step>, f: string -> string): (r: seq<Step>)
    ensures |r| == |steps| && forall i :: 0 <= i < |steps| ==> r[i] == MapStep(steps[i], f)
  {
    seq(|steps|, i requires 0 <= i < |steps| => MapStep(steps[i], f))
  }

  /** The article with every text (title, profile, step titles, item
    * contents, child lines) replaced by its image under `f`; images kept. */
  function MapTexts(a: ArticleData, f: string -> string): ArticleData
  {
    ArticleData(f(a.title), f(a.profile), MapSteps(a.steps, f))
  }

  lemma MapSeqConcat(xs: seq<string>, ys: seq<string>, f: string -> string)
    ensures MapSeq(xs + ys, f) == MapSeq(xs, f) + MapSeq(ys, f)
  {
  }

  lemma {:induction false} ItemsTextsMapped(items: seq<Item>, f: string -> string)
    ensures ItemsTexts(MapItems(items, f)) == MapSeq(ItemsTexts(items), f)
    decreases |items|
  {
    if items != [] {
      var n := |items| - 1;
      var mapped := MapItems(items, f);
      assert mapped[..n] == MapItems(items[..n], f);
      ItemsTextsMapped(items[..n], f);
      MapSeqConcat(ItemsTexts(items[..n]), ItemTexts(items[n]), f);
      MapSeqConcat([items[n].content], items[n].children, f);
    }
  }

  lemma {:induction false} StepsTextsMapped(steps: seq<Step>, f: string -> string)
    ensures StepsTexts(MapSteps(steps, f)) == MapSeq(StepsTexts(steps), f)
    decreases |steps|
  {
    if steps != [] {
      var n := |steps| - 1;
      var mapped := MapSteps(steps, f);
      assert mapped[..n] == MapSteps(steps[..n], f);
      StepsTextsMapped(steps[..n], f);
      ItemsTextsMapped(steps[n].items, f);
      MapSeqConcat(StepsTexts(steps[..n]), StepTexts(steps[n]), f);
      MapSeqConcat([steps[n].title], ItemsTexts(steps[n].items), f);
    }
  }

  /** Translating in place visits exactly the texts the batch translators
    * flatten, in the same order. */
  lemma FlattenMapTexts(a: ArticleData, f: string -> string)
    ensures Flatten(MapTexts(a, f)) == MapSeq(Flatten(a), f)
  {
    StepsTextsMapped(a.steps, f);
    MapSeqConcat([a.title, a.profile], StepsTexts(a.steps), f);
  }

  /** The lengths of `steps`, `step_items` and `children` are kept. */
  lemma MapTextsShape(a: ArticleData, f: string -> string)
    ensures SameShape(MapTexts(a, f), a)
  {
  }

  /** A map that changes no text changes nothing. */
  lemma MapTextsIdentity(a: ArticleData, f: string -> string)
    requires forall t :: f(t) == t
    ensures MapTexts(a, f) == a
  {
    var b := MapTexts(a, f);
    forall i | 0 <= i < |a.steps|
      ensures b.steps[i] == a.steps[i]
    {
      var st := a.steps[i];
      forall j | 0 <= j < |st.items|
        ensures b.steps[i].items[j] == st.items[j]
      {
        assert MapSeq(st.items[j].children, f) == st.items[j].children;
      }
    }
  }

  // ---------------------------------------------------------------------------
  // cozeBotApi

  /** `cozeBotApi(str)`: `send` is `sendToBackground` with the text as its
    * body: the response it resolves with, or what it rejects with. A falsy
    * text is returned without a request; a rejection, or a nullish response
    * (whose destructuring throws), gives the text back. */
  function CozeBotApi(str: Value, send: Value -> Result<Value, Value>): Value
  {
    if !Truthy(str) then str
    else match send(str)
      case Err(_) => str
      case Ok(response) => if Nullish(response) then str else Field(response, "message")
  }

  /** A falsy text is never sent, and a failed request gives the text back;
    * otherwise the response's `message` is the answer, whatever its type. */
  lemma CozeBotApiFallback(str: Value, send: Value -> Result<Value, Value>)
    ensures !Truthy(str) || send(str).Err? ==> CozeBotApi(str, send) == str
    ensures Truthy(str) && send(str).Ok? && Nullish(send(str).value) ==> CozeBotApi(str, send) == str
    ensures Truthy(str) && send(str).Ok? && !Nullish(send(str).value) ==>
      CozeBotApi(str, send) == Field(send(str).value, "message")
  {
  }

  /** Every successful response to a text carries a string `message`. */
  ghost predicate StringReplies(send: Value -> Result<Value, Value>)
  {
    forall t :: send(JStr(t)).Ok? && !Nullish(send(JStr(t)).value) ==> Field(send(JStr(t)).value, "message").JStr?
  }

  /** What `cozeBotApi` makes of one string. */
  function TextReply(t: string, send: Value -> Result<Value, Value>): string
  {
    if t == "" then t
    else match send(JStr(t))
      case Ok(response) =>
        if !Nullish(response) && Field(response, "message").JStr? then Field(response, "message").s else t
      case Err(_) => t
  }

  function Translator(send: Value -> Result<Value, Value>): string -> string
  {
    (t: string) => TextReply(t, send)
  }

  /** On a string, `cozeBotApi` answers the string `TextReply` gives. */
  lemma CozeOnString(t: string, send: Value -> Result<Value, Value>)
    requires StringReplies(send)
    ensures CozeBotApi(JStr(t), send) == JStr(TextReply(t, send))
  {
  }

  /** With the service down every text comes back unchanged. */
  lemma FailingServiceKeepsArticle(a: ArticleData, send: Value -> Result<Value, Value>)
    requires forall v :: send(v).Err?
    ensures MapTexts(a, Translator(send)) == a
  {
    MapTextsIdentity(a, Translator(send));
  }

  // ---------------------------------------------------------------------------
  // The JavaScript operations optimizeData performs on its argument (strict
  // mode, as the extension's modules are)

  /** `v.length` as a loop bound: arrays and strings have one; reading it of
    * a nullish value throws; on any other value it is `undefined`, and
    * `i < undefined` is false, so the loop does not run. */
  function LengthOf(v: Value): Result<nat, Failure>
  {
    match v
    case JArray(elems) => Ok(|elems|)
    case JStr(s) => Ok(|s|)
    case JUndefined => Err(TypeErrorReading("length"))
    case JNull => Err(TypeErrorReading("length"))
    case _ => Ok(0)
  }

  /** `v[i]`: an element of an array, a one-character string of a string. */
  function At(v: Value, i: nat): Value
  {
    if v.JArray? && i < |v.elems| then v.elems[i]
    else if v.JStr? && i < |v.s| then JStr([v.s[i]])
    else JUndefined
  }

  /** `v[key] = x`: objects take the property; on `undefined`, `null` and
    * other primitives the assignment throws (`None`). */
  function Assign(v: Value, key: string, x: Value): Option<Value>
    requires key != "message"
  {
    match v
    case JObject(fields) => Some(JObject(fields[key := x]))
    case JError(message, props) => Some(JError(message, props[key := x]))
    case JArray(_) => Some(v)
    case _ => None
  }

  /** `v[i] = x` inside the loop over `v`: an array takes the element; the
    * characters of a string are read-only, so the assignment throws. */
  function AssignAt(v: Value, i: nat, x: Value): Option<Value>
  {
    if v.JArray? && i < |v.elems| then Some(JArray(v.elems[i := x])) else None
  }

  /** The object `v` after its property `key`, an object that was changed in
    * place, has become `x`. */
  function PutField(v: Value, key: string, x: Value): Value
    requires key != "message"
  {
    match v
    case JObject(fields) => JObject(fields[key := x])
    case JError(message, props) => JError(message, props[key := x])
    case _ => v
  }

  /** The array `v` after its element `i`, changed in place, has become `x`. */
  function PutAt(v: Value, i: nat, x: Value): Value
  {
    if v.JArray? && i < |v.elems| then JArray(v.elems[i := x]) else v
  }

  // ---------------------------------------------------------------------------
  // optimizeData, loop by loop. Each loop gives the value it changed in place
  // and whether an exception left it; an exception ends every enclosing loop,
  // and the catch returns `data` with all the assignments made so far.

  /** `for (k = from; k < children.length; k++) children[k] = await cozeBotApi(children[k])` */
  function ChildrenFrom(ch: Value, k: nat, n: nat, send: Value -> Result<Value, Value>): (Value, bool)
    decreases n - k
  {
    if k >= n then (ch, false)
    else match AssignAt(ch, k, CozeBotApi(At(ch, k), send))
      case None => (ch, true)
      case Some(next) => ChildrenFrom(next, k + 1, n, send)
  }

  /** The item loop from `j`: per item, its content is translated, then its
    * children in place, and only then is the content written. */
  function ItemsFrom(items: Value, j: nat, n: nat, send: Value -> Result<Value, Value>): (Value, bool)
    decreases n - j
  {
    if j >= n then (items, false)
    else
      var item := At(items, j);
      if Nullish(item) then (items, true)
      else
        var content := CozeBotApi(Field(item, "content"), send);
        var ch := Field(item, "children");
        match LengthOf(ch)
        case Err(_) => (items, true)
        case Ok(m) =>
          var (ch2, threw) := ChildrenFrom(ch, 0, m, send);
          var items1 := PutAt(items, j, PutField(item, "children", ch2));
          if threw then (items1, true)
          else match Assign(At(items1, j), "content", content)
            case None => (items1, true)
            case Some(item2) => ItemsFrom(PutAt(items1, j, item2), j + 1, n, send)
  }

  /** The step loop from `i`: per step, its title is translated, then its
    * items in place, and only then is the title written. */
  function StepsFrom(steps: Value, i: nat, n: nat, send: Value -> Result<Value, Value>): (Value, bool)
    decreases n - i
  {
    if i >= n then (steps, false)
    else
      var step := At(steps, i);
      if Nullish(step) then (steps, true)
      else
        var title := CozeBotApi(Field(step, "title"), send);
        var items := Field(step, "step_items");
        match LengthOf(items)
        case Err(_) => (steps, true)
        case Ok(m) =>
          var (items2, threw) := ItemsFrom(items, 0, m, send);
          var steps1 := PutAt(steps, i, PutField(step, "step_items", items2));
          if threw then (steps1, true)
          else match Assign(At(steps1, i), "title", title)
            case None => (steps1, true)
            case Some(step2) => StepsFrom(PutAt(steps1, i, step2), i + 1, n, send)
  }

  /** `optimizeData(data, true)`: title and profile, then the steps; whatever
    * throws, `data` is returned as far as it was changed. */
  function Optimized(data: Value, send: Value -> Result<Value, Value>): Value
  {
    if Nullish(data) then data
    else match Assign(data, "title", CozeBotApi(Field(data, "title"), send))
      case None => data
      case Some(d1) =>
        match Assign(d1, "profile", CozeBotApi(Field(d1, "profile"), send))
        case None => d1
        case Some(d2) =>
          var steps := Field(d2, "steps");
          match LengthOf(steps)
          case Err(_) => d2
          case Ok(n) => PutField(d2, "steps", StepsFrom(steps, 0, n, send).0)
  }

  // ---------------------------------------------------------------------------
  // The loops

  method TranslateChildren(ch: Value, n: nat, send: Value -> Result<Value, Value>) returns (r: Value, threw: bool)
    ensures (r, threw) == ChildrenFrom(ch, 0, n, send)
  {
    r := ch;
    var k := 0;
    while k < n
      invariant ChildrenFrom(r, k, n, send) == ChildrenFrom(ch, 0, n, send)
      decreases n - k
    {
      var written := AssignAt(r, k, CozeBotApi(At(r, k), send));
      if written.None? {
        return r, true;
      }
      r := written.value;
      k := k + 1;
    }
    threw := false;
  }

  method TranslateItems(items: Value, n: nat, send: Value -> Result<Value, Value>) returns (r: Value, threw: bool)
    ensures (r, threw) == ItemsFrom(items, 0, n, send)
  {
    r := items;
    var j := 0;
    while j < n
      invariant ItemsFrom(r, j, n, send) == ItemsFrom(items, 0, n, send)
      decreases n - j
    {
      var item := At(r, j);
      if Nullish(item) {
        return r, true;
      }
      var content := CozeBotApi(Field(item, "content"), send);
      var ch := Field(item, "children");
      var m := LengthOf(ch);
      if m.Err? {
        return r, true;
      }
      var ch2, failed := TranslateChildren(ch, m.value, send);
      r := PutAt(r, j, PutField(item, "children", ch2));
      if failed {
        return r, true;
      }
      var written := Assign(At(r, j), "content", content);
      if written.None? {
        return r, true;
      }
      r := PutAt(r, j, written.value);
      j := j + 1;
    }
    threw := false;
  }

  method TranslateSteps(steps: Value, n: nat, send: Value -> Result<Value, Value>) returns (r: Value, threw: bool)
    ensures (r, threw) == StepsFrom(steps, 0, n, send)
  {
    r := steps;
    var i := 0;
    while i < n
      invariant StepsFrom(r, i, n, send) == StepsFrom(steps, 0, n, send)
      decreases n - i
    {
      var step := At(r, i);
      if Nullish(step) {
        return r, true;
      }
      var title := CozeBotApi(Field(step, "title"), send);
      var items := Field(step, "step_items");
      var m := LengthOf(items);
      if m.Err? {
        return r, true;
      }
      var items2, failed := TranslateItems(items, m.value, send);
      r := PutAt(r, i, PutField(step, "step_items", items2));
      if failed {
        return r, true;
      }
      var written := Assign(At(r, i), "title", title);
      if written.None? {
        return r, true;
      }
      r := PutAt(r, i, written.value);
      i := i + 1;
    }
    threw := false;
  }

  /** `optimizeData(data, translate)`: without translation the data itself;
    * otherwise `Optimized(data, send)`, which the lemmas below describe. */
  method OptimizeData(data: Value, translate: bool, send: Value -> Result<Value, Value>) returns (r: Value)
    ensures !translate ==> r == data
    ensures translate ==> r == Optimized(data, send)
  {
    if !translate || Nullish(data) {
      return data;
    }
    var d1 := Assign(data, "title", CozeBotApi(Field(data, "title"), send));
    if d1.None? {
      return data;
    }
    var d2 := Assign(d1.value, "profile", CozeBotApi(Field(d1.value, "profile"), send));
    if d2.None? {
      return d1.value;
    }
    var steps := Field(d2.value, "steps");
    var n := LengthOf(steps);
    if n.Err? {
      return d2.value;
    }
    var steps2, _ := TranslateSteps(steps, n.value, send);
    r := PutField(d2.value, "steps", steps2);
  }

  // ---------------------------------------------------------------------------
  // On a well-formed article every text is translated in place

  lemma EncodeItemRewritten(it: Item, f: string -> string)
    ensures Assign(PutField(EncodeItem(it), "children", JArray(EncodeStrings(MapSeq(it.children, f)))),
                   "content", JStr(f(it.content)))
         == Some(EncodeItem(MapItem(it, f)))
  {
    var children := JArray(EncodeStrings(MapSeq(it.children, f)));
    var m := EncodeItem(it).fields["children" := children]["content" := JStr(f(it.content))];
    var base := map["content" := JStr(f(it.content)), "children" := children];
    if it.image.Some? {
      assert m == base["image" := JStr(it.image.value)];
    } else {
      assert m == base;
    }
  }

  lemma EncodeStepRewritten(st: Step, f: string -> string)
    ensures Assign(PutField(EncodeStep(st), "step_items", JArray(EncodeItems(MapItems(st.items, f)))),
                   "title", JStr(f(st.title)))
         == Some(EncodeStep(MapStep(st, f)))
  {
    var items := JArray(EncodeItems(MapItems(st.items, f)));
    assert EncodeStep(st).fields["step_items" := items]["title" := JStr(f(st.title))]
        == map["title" := JStr(f(st.title)), "step_items" := items];
  }

  /** One item of a well-formed list: its children and then its content are
    * translated, and the loop goes on with the next item. */
  lemma ItemEncodedStep(elems: seq<Value>, j: nat, n: nat, it: Item, send: Value -> Result<Value, Value>)
    requires StringReplies(send)
    requires j < n && j < |elems| && elems[j] == EncodeItem(it)
    ensures ItemsFrom(JArray(elems), j, n, send)
         == ItemsFrom(JArray(elems[j := EncodeItem(MapItem(it, Translator(send)))]), j + 1, n, send)
  {
    var f := Translator(send);
    CozeOnString(it.content, send);
    ChildrenEncoded(EncodeStrings(it.children), it.children, 0, send);
    EncodeItemRewritten(it, f);
    ItemThrough(elems, j, n, |it.children|, JArray(EncodeStrings(MapSeq(it.children, f))), EncodeItem(MapItem(it, f)), send);
  }

  /** One round of the item loop that throws nothing. */
  lemma ItemThrough(elems: seq<Value>, j: nat, n: nat, m: nat, ch2: Value, item2: Value,
                    send: Value -> Result<Value, Value>)
    requires j < n && j < |elems| && !Nullish(elems[j])
    requires LengthOf(Field(elems[j], "children")) == Ok(m)
    requires ChildrenFrom(Field(elems[j], "children"), 0, m, send) == (ch2, false)
    requires Assign(PutField(elems[j], "children", ch2), "content", CozeBotApi(Field(elems[j], "content"), send))
          == Some(item2)
    ensures ItemsFrom(JArray(elems), j, n, send) == ItemsFrom(JArray(elems[j := item2]), j + 1, n, send)
  {
    UpdateTwice(elems, j, PutField(elems[j], "children", ch2), item2);
  }

  lemma UpdateTwice(elems: seq<Value>, i: nat, x: Value, y: Value)
    requires i < |elems|
    ensures elems[i := x][i := y] == elems[i := y]
  {
  }

  /** What the step loop reads from a well-formed step. */
  lemma StepFields(st: Step)
    ensures Field(EncodeStep(st), "title") == JStr(st.title)
    ensures Field(EncodeStep(st), "step_items") == JArray(EncodeItems(st.items))
    ensures LengthOf(JArray(EncodeItems(st.items))) == Ok(|st.items|)
  {
  }

  lemma StepPieces(st: Step, send: Value -> Result<Value, Value>)
    requires StringReplies(send)
    ensures Field(EncodeStep(st), "title") == JStr(st.title)
    ensures Field(EncodeStep(st), "step_items") == JArray(EncodeItems(st.items))
    ensures LengthOf(JArray(EncodeItems(st.items))) == Ok(|st.items|)
    ensures ItemsFrom(JArray(EncodeItems(st.items)), 0, |st.items|, send)
         == (JArray(EncodeItems(MapItems(st.items, Translator(send)))), false)
    ensures CozeBotApi(JStr(st.title), send) == JStr(Translator(send)(st.title))
  {
    StepFields(st);
    CozeOnString(st.title, send);
    ItemsEncoded(EncodeItems(st.items), st.items, 0, send);
  }

  /** One step of a well-formed list: its items and then its title are
    * translated, and the loop goes on with the next step. */
  lemma StepEncodedStep(elems: seq<Value>, i: nat, n: nat, st: Step, send: Value -> Result<Value, Value>)
    requires StringReplies(send)
    requires i < n && i < |elems| && elems[i] == EncodeStep(st)
    ensures StepsFrom(JArray(elems), i, n, send)
         == StepsFrom(JArray(elems[i := EncodeStep(MapStep(st, Translator(send)))]), i + 1, n, send)
  {
    var f := Translator(send);
    StepPieces(st, send);
    EncodeStepRewritten(st, f);
    StepThrough(elems, i, n, |st.items|, JArray(EncodeItems(MapItems(st.items, f))), EncodeStep(MapStep(st, f)), send);
  }

  /** One round of the step loop that throws nothing. */
  lemma StepThrough(elems: seq<Value>, i: nat, n: nat, m: nat, items2: Value, step2: Value,
                    send: Value -> Result<Value, Value>)
    requires i < n && i < |elems| && !Nullish(elems[i])
    requires LengthOf(Field(elems[i], "step_items")) == Ok(m)
    requires ItemsFrom(Field(elems[i], "step_items"), 0, m, send) == (items2, false)
    requires Assign(PutField(elems[i], "step_items", items2), "title", CozeBotApi(Field(elems[i], "title"), send))
          == Some(step2)
    ensures StepsFrom(JArray(elems), i, n, send) == StepsFrom(JArray(elems[i := step2]), i + 1, n, send)
  {
    UpdateTwice(elems, i, PutField(elems[i], "step_items", items2), step2);
  }

  lemma {:induction false} ChildrenEncoded(elems: seq<Value>, xs: seq<string>, k: nat, send: Value -> Result<Value, Value>)
    requires StringReplies(send)
    requires |elems| == |xs| && k <= |xs|
    requires forall i :: 0 <= i < k ==> elems[i] == JStr(TextReply(xs[i], send))
    requires forall i :: k <= i < |xs| ==> elems[i] == JStr(xs[i])
    ensures ChildrenFrom(JArray(elems), k, |xs|, send) == (JArray(EncodeStrings(MapSeq(xs, Translator(send)))), false)
    decreases |xs| - k
  {
    if k < |xs| {
      CozeOnString(xs[k], send);
      ChildrenEncoded(elems[k := JStr(TextReply(xs[k], send))], xs, k + 1, send);
    } else {
      assert elems == EncodeStrings(MapSeq(xs, Translator(send)));
    }
  }

  lemma {:induction false} ItemsEncoded(elems: seq<Value>, items: seq<Item>, j: nat, send: Value -> Result<Value, Value>)
    requires StringReplies(send)
    requires |elems| == |items| && j <= |items|
    requires forall i :: 0 <= i < j ==> elems[i] == EncodeItem(MapItem(items[i], Translator(send)))
    requires forall i :: j <= i < |items| ==> elems[i] == EncodeItem(items[i])
    ensures ItemsFrom(JArray(elems), j, |items|, send) == (JArray(EncodeItems(MapItems(items, Translator(send)))), false)
    decreases |items| - j
  {
    if j < |items| {
      ItemEncodedStep(elems, j, |items|, items[j], send);
      ItemsEncoded(elems[j := EncodeItem(MapItem(items[j], Translator(send)))], items, j + 1, send);
    } else {
      assert elems == EncodeItems(MapItems(items, Translator(send)));
    }
  }

  lemma {:induction false} StepsEncoded(elems: seq<Value>, steps: seq<Step>, i: nat, send: Value -> Result<Value, Value>)
    requires StringReplies(send)
    requires |elems| == |steps| && i <= |steps|
    requires forall k :: 0 <= k < i ==> elems[k] == EncodeStep(MapStep(steps[k], Translator(send)))
    requires forall k :: i <= k < |steps| ==> elems[k] == EncodeStep(steps[k])
    ensures StepsFrom(JArray(elems), i, |steps|, send) == (JArray(EncodeSteps(MapSteps(steps, Translator(send)))), false)
    decreases |steps| - i
  {
    if i < |steps| {
      StepEncodedStep(elems, i, |steps|, steps[i], send);
      StepsEncoded(elems[i := EncodeStep(MapStep(steps[i], Translator(send)))], steps, i + 1, send);
    } else {
      assert elems == EncodeSteps(MapSteps(steps, Translator(send)));
    }
  }

  /** When every successful response carries a string, optimizing a
    * well-formed article replaces each of its texts by what `cozeBotApi`
    * answers for it, and nothing else. */
  lemma OptimizedEncoded(a: ArticleData, send: Value -> Result<Value, Value>)
    requires StringReplies(send)
    ensures Optimized(Encode(a), send) == Encode(MapTexts(a, Translator(send)))
  {
    OptimizedArticle(a, send);
    TranslatedArticle(a, Translator(send));
  }

  /** The three fields of an article, written over in order. */
  function Rewritten(a: ArticleData, title: string, profile: string, steps: seq<Value>): Value
  {
    JObject(Encode(a).fields["title" := JStr(title)]["profile" := JStr(profile)]["steps" := JArray(steps)])
  }

  lemma OptimizedArticle(a: ArticleData, send: Value -> Result<Value, Value>)
    requires StringReplies(send)
    ensures var f := Translator(send);
      Optimized(Encode(a), send) == Rewritten(a, f(a.title), f(a.profile), EncodeSteps(MapSteps(a.steps, f)))
  {
    CozeOnString(a.title, send);
    CozeOnString(a.profile, send);
    TitleProfileWritten(Encode(a).fields, JStr(TextReply(a.title, send)), JStr(TextReply(a.profile, send)), send);
    StepsEncoded(EncodeSteps(a.steps), a.steps, 0, send);
  }

  lemma TranslatedArticle(a: ArticleData, f: string -> string)
    ensures Rewritten(a, f(a.title), f(a.profile), EncodeSteps(MapSteps(a.steps, f))) == Encode(MapTexts(a, f))
  {
    FieldsRewritten(Encode(a).fields, JStr(f(a.title)), JStr(f(a.profile)), JArray(EncodeSteps(MapSteps(a.steps, f))));
  }

  /** `optimizeData` on a value whose title and profile could be assigned and
    * whose steps have a length. */
  lemma OptimizedThrough(data: Value, d1: Value, d2: Value, n: nat, send: Value -> Result<Value, Value>)
    requires !Nullish(data)
    requires Assign(data, "title", CozeBotApi(Field(data, "title"), send)) == Some(d1)
    requires Assign(d1, "profile", CozeBotApi(Field(d1, "profile"), send)) == Some(d2)
    requires LengthOf(Field(d2, "steps")) == Ok(n)
    ensures Optimized(data, send) == PutField(d2, "steps", StepsFrom(Field(d2, "steps"), 0, n, send).0)
  {
  }

  lemma FieldsRewritten(m: map<string, Value>, title: Value, profile: Value, steps: Value)
    requires m.Keys == {"title", "profile", "steps"}
    ensures m["title" := title]["profile" := profile]["steps" := steps]
         == map["title" := title, "profile" := profile, "steps" := steps]
  {
  }

  /** With the service down a well-formed article comes back as it was. */
  lemma FailingServiceKeepsData(a: ArticleData, send: Value -> Result<Value, Value>)
    requires forall v :: send(v).Err?
    ensures Optimized(Encode(a), send) == Encode(a)
  {
    OptimizedEncoded(a, send);
    FailingServiceKeepsArticle(a, send);
  }

  /** `optimizeData(undefined, true)` and `optimizeData(null, true)` give
    * their argument back. */
  lemma NullishDataKept(data: Value, send: Value -> Result<Value, Value>)
    requires Nullish(data)
    ensures Optimized(data, send) == data
  {
  }

  /** An item whose `children` is missing makes reading its length throw:
    * the item loop stops there, with neither its content nor anything after
    * it changed. */
  lemma ItemsStopAtMissingChildren(items: Value, j: nat, n: nat, send: Value -> Result<Value, Value>)
    requires j < n && !Nullish(At(items, j)) && Nullish(Field(At(items, j), "children"))
    ensures ItemsFrom(items, j, n, send) == (items, true)
  {
  }

  /** A step whose items throw before anything is written leaves the step
    * loop with the steps unchanged. */
  lemma StepsStopAtItems(steps: Value, i: nat, n: nat, send: Value -> Result<Value, Value>)
    requires i < n && steps.JArray? && i < |steps.elems|
    requires At(steps, i).JObject? && "step_items" in At(steps, i).fields
    requires var items := Field(At(steps, i), "step_items");
      items.JArray? && ItemsFrom(items, 0, |items.elems|, send) == (items, true)
    ensures StepsFrom(steps, i, n, send) == (steps, true)
  {
    var step := At(steps, i);
    assert step.fields["step_items" := step.fields["step_items"]] == step.fields;
    assert steps.elems[i := step] == steps.elems;
  }

  /** One step whose only item has no `children`: the title and profile are
    * translated and written, the step is returned untouched. */
  lemma MissingChildrenKeepsStep(title: string, profile: string, stepTitle: string, content: string,
                                 send: Value -> Result<Value, Value>)
    requires StringReplies(send)
    ensures var step := JObject(map["title" := JStr(stepTitle),
                                    "step_items" := JArray([JObject(map["content" := JStr(content)])])]);
      var f := Translator(send);
      Optimized(JObject(map["title" := JStr(title), "profile" := JStr(profile), "steps" := JArray([step])]), send)
      == JObject(map["title" := JStr(f(title)), "profile" := JStr(f(profile)), "steps" := JArray([step])])
  {
    var items := JArray([JObject(map["content" := JStr(content)])]);
    var steps := JArray([JObject(map["title" := JStr(stepTitle), "step_items" := items])]);
    var m := map["title" := JStr(title), "profile" := JStr(profile), "steps" := steps];
    var t, p := JStr(TextReply(title, send)), JStr(TextReply(profile, send));
    TitleProfileWritten(m, t, p, send);
    ItemsStopAtMissingChildren(items, 0, 1, send);
    StepsStopAtItems(steps, 0, 1, send);
    FieldsRewritten(m, t, p, steps);
  }

  lemma TitleProfileWritten(m: map<string, Value>, t: Value, p: Value, send: Value -> Result<Value, Value>)
    requires "title" in m && "profile" in m && "steps" in m
    requires CozeBotApi(m["title"], send) == t && CozeBotApi(m["profile"], send) == p
    requires m["steps"].JArray?
    ensures Optimized(JObject(m), send)
         == JObject(m["title" := t]["profile" := p]["steps" := StepsFrom(m["steps"], 0, |m["steps"].elems|, send).0])
  {
    OptimizedThrough(JObject(m), JObject(m["title" := t]), JObject(m["title" := t]["profile" := p]), |m["steps"].elems|, send);
  }

  // ---------------------------------------------------------------------------
  // handleFullPage

  datatype FullPageAction = Ignore | Scrape(url: string) | LoadLocal

  /** Nothing happens while a request is loading, or when there is neither
    * a URL nor the local-data switch; local data wins over a URL. */
  function HandleFullPage(loading: bool, url: string, localData: bool): (r: FullPageAction)
    ensures r.Ignore? <==> loading || (url == "" && !localData)
    ensures r.Scrape? ==> !localData && r.url == url && url != ""
    ensures r == LoadLocal <==> !loading && localData
  {
    if loading then Ignore
    else if url == "" && !localData then Ignore
    else if !localData then Scrape(url)
    else LoadLocal
  }
}
