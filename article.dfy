/**
 * The article record that flows from the scraper through translation to the
 * template (`ArticleData` / `ArticleStep` / `StepItem`), its JavaScript
 * encoding, and the flatten / rebuild pair both translation routines use:
 * every text of the article is collected into one list in document order,
 * the list is translated, and the article is rebuilt from the translated
 * list by walking the same structure with a running index.
 */
module Article {
  import opened Wrappers
  import Js

  datatype Item = Item(content: string, children: seq<string>, image: Option<string>)
  datatype Step = Step(title: string, items: seq<Item>)
  datatype ArticleData = ArticleData(title: string, profile: string, steps: seq<Step>)

  // ---------------------------------------------------------------------------
  // JavaScript encoding (the object handed to `validateData` and friends)

  function EncodeStrings(xs: seq<string>): (r: seq<Js.Value>)
    ensures |r| == |xs| && forall i :: 0 <= i < |xs| ==> r[i] == Js.JStr(xs[i])
  {
    if xs == [] then [] else [Js.JStr(xs[0])] + EncodeStrings(xs[1..])
  }

  function EncodeItem(it: Item): Js.Value
  {
    var base := map["content" := Js.JStr(it.content), "children" := Js.JArray(EncodeStrings(it.children))];
    Js.JObject(if it.image.Some? then base["image" := Js.JStr(it.image.value)] else base)
  }

  function EncodeItems(items: seq<Item>): (r: seq<Js.Value>)
    ensures |r| == |items| && forall i :: 0 <= i < |items| ==> r[i] == EncodeItem(items[i])
  {
    if items == [] then [] else [EncodeItem(items[0])] + EncodeItems(items[1..])
  }

  function EncodeStep(st: Step): Js.Value
  {
    Js.JObject(map["title" := Js.JStr(st.title), "step_items" := Js.JArray(EncodeItems(st.items))])
  }

  function EncodeSteps(steps: seq<Step>): (r: seq<Js.Value>)
    ensures |r| == |steps| && forall i :: 0 <= i < |steps| ==> r[i] == EncodeStep(steps[i])
  {
    if steps == [] then [] else [EncodeStep(steps[0])] + EncodeSteps(steps[1..])
  }

  function Encode(a: ArticleData): Js.Value
  {
    Js.JObject(map["title" := Js.JStr(a.title), "profile" := Js.JStr(a.profile),
                   "steps" := Js.JArray(EncodeSteps(a.steps))])
  }

  // ---------------------------------------------------------------------------
  // Flattening: title, profile, then per step its title and per item its
  // content followed by its children.

  function ItemTexts(it: Item): seq<string>
  {
    [it.content] + it.children
  }

  function ItemsTexts(items: seq<Item>): seq<string>
    decreases |items|
  {
    if items == [] then [] else ItemsTexts(items[..|items| - 1]) + ItemTexts(items[|items| - 1])
  }

  function StepTexts(st: Step): seq<string>
  {
    [st.title] + ItemsTexts(st.items)
  }

  function StepsTexts(steps: seq<Step>): seq<string>
    decreases |steps|
  {
    if steps == [] then [] else StepsTexts(steps[..|steps| - 1]) + StepTexts(steps[|steps| - 1])
  }

  /** A translator whose successful answers hold one text per input text. */
  ghost predicate PreservesLength(translate: seq<string> -> Result<seq<string>, string>)
  {
    forall xs :: translate(xs).Ok? ==> |translate(xs).value| == |xs|
  }

  /** The list of texts sent to the translator. */
  function Flatten(a: ArticleData): seq<string>
  {
    [a.title, a.profile] + StepsTexts(a.steps)
  }

  function ChildCount(items: seq<Item>): nat
    decreases |items|
  {
    if items == [] then 0 else ChildCount(items[..|items| - 1]) + |items[|items| - 1].children|
  }

  function ItemCount(steps: seq<Step>): nat
    decreases |steps|
  {
    if steps == [] then 0 else ItemCount(steps[..|steps| - 1]) + |steps[|steps| - 1].items|
  }

  function StepsChildCount(steps: seq<Step>): nat
    decreases |steps|
  {
    if steps == [] then 0 else StepsChildCount(steps[..|steps| - 1]) + ChildCount(steps[|steps| - 1].items)
  }

  lemma {:induction false} ItemsTextsLength(items: seq<Item>)
    ensures |ItemsTexts(items)| == |items| + ChildCount(items)
  {
    if items != [] { ItemsTextsLength(items[..|items| - 1]); }
  }

  /** The translator receives two texts, plus one per step, one per item and
    * one per child line. */
  lemma {:induction false} FlattenLength(a: ArticleData)
    ensures |Flatten(a)| == 2 + |a.steps| + ItemCount(a.steps) + StepsChildCount(a.steps)
  {
    StepsTextsLength(a.steps);
  }

  lemma {:induction false} StepsTextsLength(steps: seq<Step>)
    ensures |StepsTexts(steps)| == |steps| + ItemCount(steps) + StepsChildCount(steps)
  {
    if steps != [] {
      StepsTextsLength(steps[..|steps| - 1]);
      ItemsTextsLength(steps[|steps| - 1].items);
    }
  }

  lemma {:induction false} ItemsTextsPrefix(items: seq<Item>, j: nat)
    requires j < |items|
    ensures |ItemsTexts(items[..j])| + |ItemTexts(items[j])| <= |ItemsTexts(items)|
    decreases |items|
  {
    var init := items[..|items| - 1];
    if j < |items| - 1 {
      assert init[..j] == items[..j];
      ItemsTextsPrefix(init, j);
    } else {
      assert items[..j] == init;
    }
  }

  lemma {:induction false} StepsTextsPrefix(steps: seq<Step>, i: nat)
    requires i < |steps|
    ensures |StepsTexts(steps[..i])| + |StepTexts(steps[i])| <= |StepsTexts(steps)|
    decreases |steps|
  {
    var init := steps[..|steps| - 1];
    if i < |steps| - 1 {
      assert init[..i] == steps[..i];
      StepsTextsPrefix(init, i);
    } else {
      assert steps[..i] == init;
    }
  }

  lemma StepsTextsSnoc(steps: seq<Step>, i: nat)
    requires i < |steps|
    ensures StepsTexts(steps[..i + 1]) == StepsTexts(steps[..i]) + [steps[i].title] + ItemsTexts(steps[i].items)
  {
    assert steps[..i + 1][..i] == steps[..i];
  }

  /** Walks the article in document order pushing every text, as both
    * translation routines do before calling the translator. */
  method CollectTexts(a: ArticleData) returns (texts: seq<string>)
    ensures texts == Flatten(a)
  {
    texts := [a.title, a.profile];
    var i := 0;
    while i < |a.steps|
      invariant 0 <= i <= |a.steps|
      invariant texts == [a.title, a.profile] + StepsTexts(a.steps[..i])
    {
      var step := a.steps[i];
      StepsTextsSnoc(a.steps, i);
      texts := PushItemTexts(texts + [step.title], step.items);
      i := i + 1;
    }
    assert a.steps[..i] == a.steps;
  }

  /** The inner loop: push each item's content and then its children. */
  method PushItemTexts(start: seq<string>, items: seq<Item>) returns (texts: seq<string>)
    ensures texts == start + ItemsTexts(items)
  {
    texts := start;
    var j := 0;
    while j < |items|
      invariant 0 <= j <= |items|
      invariant texts == start + ItemsTexts(items[..j])
    {
      var item := items[j];
      texts := texts + [item.content] + item.children;
      assert items[..j + 1][..j] == items[..j];
      j := j + 1;
    }
    assert items[..j] == items;
  }

  // ---------------------------------------------------------------------------
  // Rebuilding from a translated list. `keepImage` distinguishes the hook's
  // rebuild, which copies `image`, from the utility's, which drops it.

  function Image(it: Item, keepImage: bool): Option<string>
  {
    if keepImage then it.image else None
  }

  function RebuiltItem(it: Item, ts: seq<string>, keepImage: bool): Item
    requires |ItemTexts(it)| <= |ts|
  {
    Item(ts[0], ts[1..1 + |it.children|], Image(it, keepImage))
  }

  function RebuiltItems(items: seq<Item>, ts: seq<string>, keepImage: bool): seq<Item>
    requires |ItemsTexts(items)| <= |ts|
    decreases |items|
  {
    if items == [] then []
    else
      var init := items[..|items| - 1];
      RebuiltItems(init, ts, keepImage) + [RebuiltItem(items[|items| - 1], ts[|ItemsTexts(init)|..], keepImage)]
  }

  function RebuiltStep(st: Step, ts: seq<string>, keepImage: bool): Step
    requires |StepTexts(st)| <= |ts|
  {
    Step(ts[0], RebuiltItems(st.items, ts[1..], keepImage))
  }

  function RebuiltSteps(steps: seq<Step>, ts: seq<string>, keepImage: bool): seq<Step>
    requires |StepsTexts(steps)| <= |ts|
    decreases |steps|
  {
    if steps == [] then []
    else
      var init := steps[..|steps| - 1];
      RebuiltSteps(init, ts, keepImage) + [RebuiltStep(steps[|steps| - 1], ts[|StepsTexts(init)|..], keepImage)]
  }

  /** The article rebuilt from `ts`, read in the order `Flatten` wrote. */
  function Rebuilt(a: ArticleData, ts: seq<string>, keepImage: bool): ArticleData
    requires |Flatten(a)| <= |ts|
  {
    ArticleData(ts[0], ts[1], RebuiltSteps(a.steps, ts[2..], keepImage))
  }

  lemma SliceJoin(ts: seq<string>, k: nat, m: nat)
    requires k + m <= |ts|
    ensures ts[..k] + ts[k..][..m] == ts[..k + m]
  {
    assert ts[..k + m] == ts[..k] + ts[k..k + m];
  }

  lemma SliceWindow(ts: seq<string>, k: nat, a: nat, b: nat)
    requires k + b <= |ts| && a <= b
    ensures ts[k..][a..b] == ts[k + a..k + b]
  {
    assert forall x :: 0 <= x < b - a ==> ts[k..][a..b][x] == ts[k + a + x];
  }

  lemma SliceShift(ts: seq<string>, k: nat, m: nat)
    requires k + m <= |ts|
    ensures ts[k..][m..] == ts[k + m..]
  {
  }

  /** One turn of the item loop, stated on the whole text list: item `j`
    * reads its content at the running index `next` and its children right
    * after, and `done` grows by that item. */
  lemma {:induction false} RebuildItemStep(items: seq<Item>, ts: seq<string>, start: nat, keepImage: bool, j: nat,
                                           next: nat, done: seq<Item>)
    requires j < |items| && start + |ItemsTexts(items)| <= |ts|
    requires next == start + |ItemsTexts(items[..j])| && |ItemsTexts(items[..j])| <= |ItemsTexts(items)|
    requires done == RebuiltItems(items[..j], ts[start..], keepImage)
    ensures next + 1 + |items[j].children| == start + |ItemsTexts(items[..j + 1])|
    ensures |ItemsTexts(items[..j + 1])| <= |ItemsTexts(items)|
    ensures done + [Item(ts[next], ts[next + 1..next + 1 + |items[j].children|], Image(items[j], keepImage))]
         == RebuiltItems(items[..j + 1], ts[start..], keepImage)
  {
    var tail := ts[start..];
    var m := |ItemsTexts(items[..j])|;
    var p := items[..j + 1];
    ItemsTextsPrefix(items, j);
    assert p[..|p| - 1] == items[..j];
    assert p[|p| - 1] == items[j];
    assert ItemsTexts(p) == ItemsTexts(items[..j]) + ItemTexts(items[j]);
    var here := tail[m..];
    SliceShift(ts, start, m);
    var c := |items[j].children|;
    assert RebuiltItems(p, tail, keepImage) == done + [RebuiltItem(items[j], here, keepImage)];
    assert here[0] == ts[start + m];
    SliceWindow(ts, start + m, 1, 1 + c);
  }

  /** One item: its content at `textIndex`, then its children. */
  method RebuildItem(item: Item, ts: seq<string>, textIndex: nat, keepImage: bool) returns (r: Item, next: nat)
    requires textIndex + 1 + |item.children| <= |ts|
    ensures r == Item(ts[textIndex], ts[textIndex + 1..textIndex + 1 + |item.children|], Image(item, keepImage))
    ensures next == textIndex + 1 + |item.children|
  {
    var content := ts[textIndex];
    next := textIndex + 1;
    var children := ts[next..next + |item.children|];
    next := next + |item.children|;
    r := Item(content, children, Image(item, keepImage));
  }

  /** The loop over one step's items, reading content and children from
    * `ts` at the running index. */
  method RebuildItems(items: seq<Item>, ts: seq<string>, start: nat, keepImage: bool)
    returns (r: seq<Item>, next: nat)
    requires start + |ItemsTexts(items)| <= |ts|
    ensures r == RebuiltItems(items, ts[start..], keepImage)
    ensures next == start + |ItemsTexts(items)|
  {
    var textIndex := start;
    r := [];
    var j := 0;
    while j < |items|
      invariant 0 <= j <= |items|
      invariant textIndex == start + |ItemsTexts(items[..j])|
      invariant |ItemsTexts(items[..j])| <= |ItemsTexts(items)|
      invariant r == RebuiltItems(items[..j], ts[start..], keepImage)
    {
      RebuildItemStep(items, ts, start, keepImage, j, textIndex, r);
      var item;
      item, textIndex := RebuildItem(items[j], ts, textIndex, keepImage);
      r := r + [item];
      j := j + 1;
    }
    assert items[..j] == items;
    next := textIndex;
  }

  lemma StepsSnoc(steps: seq<Step>, ts: seq<string>, keepImage: bool, i: nat)
    requires i < |steps| && |StepsTexts(steps)| <= |ts|
    ensures |StepsTexts(steps[..i])| + |StepTexts(steps[i])| <= |StepsTexts(steps)|
    ensures StepsTexts(steps[..i + 1]) == StepsTexts(steps[..i]) + StepTexts(steps[i])
    ensures RebuiltSteps(steps[..i + 1], ts, keepImage)
         == RebuiltSteps(steps[..i], ts, keepImage) + [RebuiltStep(steps[i], ts[|StepsTexts(steps[..i])|..], keepImage)]
  {
    StepsTextsPrefix(steps, i);
    assert steps[..i + 1][..i] == steps[..i];
  }

  /** One turn of the rebuild's step loop, stated on the whole text list:
    * step `i` reads its title at `n` and its items from `n + 1`. */
  lemma {:induction false} RebuildStep(steps: seq<Step>, ts: seq<string>, keepImage: bool, i: nat)
    requires i < |steps| && 2 + |StepsTexts(steps)| <= |ts|
    ensures |StepsTexts(steps[..i + 1])| == |StepsTexts(steps[..i])| + 1 + |ItemsTexts(steps[i].items)|
    ensures |StepsTexts(steps[..i + 1])| <= |StepsTexts(steps)|
    ensures RebuiltSteps(steps[..i + 1], ts[2..], keepImage)
         == RebuiltSteps(steps[..i], ts[2..], keepImage)
            + [Step(ts[2 + |StepsTexts(steps[..i])|],
                    RebuiltItems(steps[i].items, ts[2 + |StepsTexts(steps[..i])| + 1..], keepImage))]
  {
    var tail := ts[2..];
    var n := |StepsTexts(steps[..i])|;
    StepsSnoc(steps, tail, keepImage, i);
    var here := tail[n..];
    SliceShift(ts, 2, n);
    SliceShift(ts, 2 + n, 1);
    assert here[0] == ts[2 + n];
    assert here[1..] == ts[2 + n + 1..];
    assert RebuiltStep(steps[i], here, keepImage)
        == Step(ts[2 + n], RebuiltItems(steps[i].items, ts[2 + n + 1..], keepImage));
  }

  /** The rebuild with its running `textIndex`. */
  method Rebuild(a: ArticleData, ts: seq<string>, keepImage: bool) returns (r: ArticleData)
    requires |Flatten(a)| <= |ts|
    ensures r == Rebuilt(a, ts, keepImage)
  {
    var textIndex := 0;
    var title := ts[textIndex];
    textIndex := textIndex + 1;
    var profile := ts[textIndex];
    textIndex := textIndex + 1;
    var steps: seq<Step> := [];
    var i := 0;
    while i < |a.steps|
      invariant 0 <= i <= |a.steps|
      invariant textIndex == 2 + |StepsTexts(a.steps[..i])|
      invariant |StepsTexts(a.steps[..i])| <= |StepsTexts(a.steps)|
      invariant steps == RebuiltSteps(a.steps[..i], ts[2..], keepImage)
    {
      var step := a.steps[i];
      RebuildStep(a.steps, ts, keepImage, i);
      var stepTitle := ts[textIndex];
      var items;
      items, textIndex := RebuildItems(step.items, ts, textIndex + 1, keepImage);
      steps := steps + [Step(stepTitle, items)];
      i := i + 1;
    }
    assert a.steps[..i] == a.steps;
    r := ArticleData(title, profile, steps);
  }

  // ---------------------------------------------------------------------------
  // What the rebuild promises

  /** Two articles with the same number of steps, items per step and
    * child lines per item. */
  predicate SameShape(a: ArticleData, b: ArticleData)
  {
    |a.steps| == |b.steps|
    && forall i :: 0 <= i < |a.steps| ==> SameStepShape(a.steps[i], b.steps[i])
  }

  predicate SameStepShape(s: Step, t: Step)
  {
    |s.items| == |t.items|
    && forall j :: 0 <= j < |s.items| ==> |s.items[j].children| == |t.items[j].children|
  }

  lemma {:induction false} RebuiltItemsAt(items: seq<Item>, ts: seq<string>, keepImage: bool, j: nat)
    requires |ItemsTexts(items)| <= |ts| && j < |items|
    ensures |RebuiltItems(items, ts, keepImage)| == |items|
    ensures |ItemsTexts(items[..j])| + |ItemTexts(items[j])| <= |ts|
    ensures RebuiltItems(items, ts, keepImage)[j] == RebuiltItem(items[j], ts[|ItemsTexts(items[..j])|..], keepImage)
    decreases |items|
  {
    var init := items[..|items| - 1];
    ItemsTextsPrefix(items, j);
    if j < |items| - 1 {
      assert init[..j] == items[..j];
      RebuiltItemsAt(init, ts, keepImage, j);
    } else {
      assert items[..j] == init;
      if init != [] { RebuiltItemsAt(init, ts, keepImage, 0); }
    }
  }

  lemma {:induction false} RebuiltItemsTexts(items: seq<Item>, ts: seq<string>, keepImage: bool)
    requires |ItemsTexts(items)| <= |ts|
    ensures ItemsTexts(RebuiltItems(items, ts, keepImage)) == ts[..|ItemsTexts(items)|]
    decreases |items|
  {
    if items != [] {
      var init := items[..|items| - 1];
      RebuiltItemsTexts(init, ts, keepImage);
      var r := RebuiltItems(items, ts, keepImage);
      var k := |ItemsTexts(init)|;
      var last := items[|items| - 1];
      var it := RebuiltItem(last, ts[k..], keepImage);
      assert r[..|r| - 1] == RebuiltItems(init, ts, keepImage);
      assert ItemTexts(it) == ts[k..][..|ItemTexts(last)|];
      SliceJoin(ts, k, |ItemTexts(last)|);
    }
  }

  lemma {:induction false} RebuiltStepsAt(steps: seq<Step>, ts: seq<string>, keepImage: bool, i: nat)
    requires |StepsTexts(steps)| <= |ts| && i < |steps|
    ensures |RebuiltSteps(steps, ts, keepImage)| == |steps|
    ensures |StepsTexts(steps[..i])| + |StepTexts(steps[i])| <= |ts|
    ensures RebuiltSteps(steps, ts, keepImage)[i] == RebuiltStep(steps[i], ts[|StepsTexts(steps[..i])|..], keepImage)
    decreases |steps|
  {
    var init := steps[..|steps| - 1];
    StepsTextsPrefix(steps, i);
    if i < |steps| - 1 {
      assert init[..i] == steps[..i];
      RebuiltStepsAt(init, ts, keepImage, i);
    } else {
      assert steps[..i] == init;
      if init != [] { RebuiltStepsAt(init, ts, keepImage, 0); }
    }
  }

  lemma RebuiltStepTexts(st: Step, ts: seq<string>, keepImage: bool)
    requires |StepTexts(st)| <= |ts|
    ensures StepTexts(RebuiltStep(st, ts, keepImage)) == ts[..|StepTexts(st)|]
  {
    RebuiltItemsTexts(st.items, ts[1..], keepImage);
    SliceJoin(ts, 1, |ItemsTexts(st.items)|);
  }

  lemma {:induction false} RebuiltStepsTexts(steps: seq<Step>, ts: seq<string>, keepImage: bool)
    requires |StepsTexts(steps)| <= |ts|
    ensures StepsTexts(RebuiltSteps(steps, ts, keepImage)) == ts[..|StepsTexts(steps)|]
    decreases |steps|
  {
    if steps != [] {
      var init := steps[..|steps| - 1];
      RebuiltStepsTexts(init, ts, keepImage);
      var r := RebuiltSteps(steps, ts, keepImage);
      var k := |StepsTexts(init)|;
      var last := steps[|steps| - 1];
      assert r[..|r| - 1] == RebuiltSteps(init, ts, keepImage);
      RebuiltStepTexts(last, ts[k..], keepImage);
      SliceJoin(ts, k, |StepTexts(last)|);
    }
  }

  lemma RebuiltStepShape(st: Step, ts: seq<string>, keepImage: bool)
    requires |StepTexts(st)| <= |ts|
    ensures SameStepShape(RebuiltStep(st, ts, keepImage), st)
  {
    var items := RebuiltStep(st, ts, keepImage).items;
    if st.items != [] { RebuiltItemsAt(st.items, ts[1..], keepImage, 0); }
    forall j | 0 <= j < |st.items| ensures |items[j].children| == |st.items[j].children| {
      RebuiltItemsAt(st.items, ts[1..], keepImage, j);
    }
  }

  lemma RebuiltStepsShape(steps: seq<Step>, ts: seq<string>, keepImage: bool)
    requires |StepsTexts(steps)| <= |ts|
    ensures |RebuiltSteps(steps, ts, keepImage)| == |steps|
    ensures forall i :: 0 <= i < |steps| ==> SameStepShape(RebuiltSteps(steps, ts, keepImage)[i], steps[i])
  {
    var r := RebuiltSteps(steps, ts, keepImage);
    if steps != [] { RebuiltStepsAt(steps, ts, keepImage, 0); }
    forall i | 0 <= i < |steps| ensures SameStepShape(r[i], steps[i]) {
      RebuiltStepsAt(steps, ts, keepImage, i);
      RebuiltStepShape(steps[i], ts[|StepsTexts(steps[..i])|..], keepImage);
    }
  }

  /** Rebuilding keeps the article's shape and places the translated texts in
    * exactly the positions their originals were collected from. */
  lemma RebuildPlacesTexts(a: ArticleData, ts: seq<string>, keepImage: bool)
    requires |Flatten(a)| <= |ts|
    ensures SameShape(Rebuilt(a, ts, keepImage), a)
    ensures Flatten(Rebuilt(a, ts, keepImage)) == ts[..|Flatten(a)|]
  {
    RebuiltStepsShape(a.steps, ts[2..], keepImage);
    RebuiltStepsTexts(a.steps, ts[2..], keepImage);
    SliceJoin(ts, 2, |StepsTexts(a.steps)|);
    assert ts[..2] == [ts[0], ts[1]];
  }

  /** An article with its images kept or removed. */
  function WithImages(a: ArticleData, keepImage: bool): ArticleData
  {
    a.(steps := StepsWithImages(a.steps, keepImage))
  }

  function ItemsWithImages(items: seq<Item>, keepImage: bool): seq<Item>
    decreases |items|
  {
    if items == [] then []
    else
      var last := items[|items| - 1];
      ItemsWithImages(items[..|items| - 1], keepImage) + [last.(image := Image(last, keepImage))]
  }

  function StepsWithImages(steps: seq<Step>, keepImage: bool): seq<Step>
    decreases |steps|
  {
    if steps == [] then []
    else
      var last := steps[|steps| - 1];
      StepsWithImages(steps[..|steps| - 1], keepImage) + [last.(items := ItemsWithImages(last.items, keepImage))]
  }

  lemma {:induction false} RebuiltItemsIdentity(items: seq<Item>, ts: seq<string>, keepImage: bool)
    requires |ItemsTexts(items)| <= |ts| && ts[..|ItemsTexts(items)|] == ItemsTexts(items)
    ensures RebuiltItems(items, ts, keepImage) == ItemsWithImages(items, keepImage)
    decreases |items|
  {
    if items != [] {
      var init := items[..|items| - 1];
      var k := |ItemsTexts(init)|;
      var last := items[|items| - 1];
      SliceJoin(ts, k, |ItemTexts(last)|);
      assert ts[..k] == ts[..|ItemsTexts(items)|][..k];
      RebuiltItemsIdentity(init, ts, keepImage);
      assert ts[k..][..|ItemTexts(last)|] == ItemTexts(last);
      assert ts[k..][1..1 + |last.children|] == last.children;
    }
  }

  lemma RebuiltStepIdentity(st: Step, ts: seq<string>, keepImage: bool)
    requires |StepTexts(st)| <= |ts| && ts[..|StepTexts(st)|] == StepTexts(st)
    ensures RebuiltStep(st, ts, keepImage) == st.(items := ItemsWithImages(st.items, keepImage))
  {
    SliceJoin(ts, 1, |ItemsTexts(st.items)|);
    assert ts[1..][..|ItemsTexts(st.items)|] == ItemsTexts(st.items);
    RebuiltItemsIdentity(st.items, ts[1..], keepImage);
  }

  lemma {:induction false} RebuiltStepsIdentity(steps: seq<Step>, ts: seq<string>, keepImage: bool)
    requires |StepsTexts(steps)| <= |ts| && ts[..|StepsTexts(steps)|] == StepsTexts(steps)
    ensures RebuiltSteps(steps, ts, keepImage) == StepsWithImages(steps, keepImage)
    decreases |steps|
  {
    if steps != [] {
      var init := steps[..|steps| - 1];
      var k := |StepsTexts(init)|;
      var last := steps[|steps| - 1];
      SliceJoin(ts, k, |StepTexts(last)|);
      assert ts[..k] == ts[..|StepsTexts(steps)|][..k];
      RebuiltStepsIdentity(init, ts, keepImage);
      assert ts[k..][..|StepTexts(last)|] == StepTexts(last);
      RebuiltStepIdentity(last, ts[k..], keepImage);
    }
  }

  /** Rebuilding from the untranslated list gives the article back, with or
    * without its images. */
  lemma {:induction false} RebuildFlattenIdentity(a: ArticleData, keepImage: bool)
    ensures Rebuilt(a, Flatten(a), keepImage) == WithImages(a, keepImage)
  {
    var ts := Flatten(a);
    assert ts[2..] == StepsTexts(a.steps);
    assert ts[2..][..|StepsTexts(a.steps)|] == StepsTexts(a.steps);
    RebuiltStepsIdentity(a.steps, ts[2..], keepImage);
  }

  lemma {:induction false} ItemsKeepImages(items: seq<Item>)
    ensures ItemsWithImages(items, true) == items
    decreases |items|
  {
    if items != [] { ItemsKeepImages(items[..|items| - 1]); }
  }

  lemma {:induction false} StepsKeepImages(steps: seq<Step>)
    ensures StepsWithImages(steps, true) == steps
    decreases |steps|
  {
    if steps != [] {
      StepsKeepImages(steps[..|steps| - 1]);
      ItemsKeepImages(steps[|steps| - 1].items);
    }
  }

  /** The hook's rebuild, fed the untranslated texts, is the identity. */
  lemma RebuildKeepingImagesIdentity(a: ArticleData)
    ensures Rebuilt(a, Flatten(a), true) == a
  {
    RebuildFlattenIdentity(a, true);
    StepsKeepImages(a.steps);
  }
}
