/**
 * The popup's article utilities: `validateData`, the loose shape check whose
 * `every` callbacks read properties of `null` elements (and so throw), and
 * `translateArticleData`, which collects, translates and rebuilds an article
 * without its images.
 */
module ArticleUtils {
  import opened Wrappers
  import opened Js
  import opened Article

  /** `typeof item === 'object' && typeof item.content === 'string' &&
    * Array.isArray(item.children) && item.children.every(isString)`. */
  function CheckItem(item: Value): Result<bool, Failure>
  {
    if !IsObjectType(item) then Ok(false)
    else if item.JNull? then Err(TypeErrorReading("content"))
    else
      var children := Field(item, "children");
      Ok(Field(item, "content").JStr? && children.JArray?
         && forall k :: 0 <= k < |children.elems| ==> children.elems[k].JStr?)
  }

  /** `Array.prototype.every` with a callback that may throw: the first
    * element that throws or fails decides. */
  function EveryItem(items: seq<Value>): Result<bool, Failure>
    decreases |items|
  {
    if items == [] then Ok(true)
    else match CheckItem(items[0])
      case Err(e) => Err(e)
      case Ok(ok) => if ok then EveryItem(items[1..]) else Ok(false)
  }

  function CheckStep(step: Value): Result<bool, Failure>
  {
    if !IsObjectType(step) then Ok(false)
    else if step.JNull? then Err(TypeErrorReading("title"))
    else if !Field(step, "title").JStr? || !Field(step, "step_items").JArray? then Ok(false)
    else EveryItem(Field(step, "step_items").elems)
  }

  function EveryStep(steps: seq<Value>): Result<bool, Failure>
    decreases |steps|
  {
    if steps == [] then Ok(true)
    else match CheckStep(steps[0])
      case Err(e) => Err(e)
      case Ok(ok) => if ok then EveryStep(steps[1..]) else Ok(false)
  }

  /** `validateData(data)` */
  function ValidateData(data: Value): Result<bool, Failure>
  {
    if !IsObjectType(data) || !Truthy(data) then Ok(false)
    else if !Field(data, "title").JStr? || !Field(data, "profile").JStr? || !Field(data, "steps").JArray? then Ok(false)
    else EveryStep(Field(data, "steps").elems)
  }

  // ---------------------------------------------------------------------------
  // The shape `validateData` accepts, stated without evaluation order.

  predicate ItemShaped(item: Value)
  {
    item.JObject? || item.JArray? || item.JError?
  }

  predicate LooseItem(item: Value)
  {
    ItemShaped(item) && Field(item, "content").JStr? && Field(item, "children").JArray?
    && forall k :: 0 <= k < |Field(item, "children").elems| ==> Field(item, "children").elems[k].JStr?
  }

  predicate LooseStep(step: Value)
  {
    ItemShaped(step) && Field(step, "title").JStr? && Field(step, "step_items").JArray?
    && forall j :: 0 <= j < |Field(step, "step_items").elems| ==> LooseItem(Field(step, "step_items").elems[j])
  }

  /** A non-null object whose title and profile are strings and whose steps
    * are an array of such steps, each with an item array of such items. */
  predicate LooseArticle(data: Value)
  {
    ItemShaped(data) && Field(data, "title").JStr? && Field(data, "profile").JStr? && Field(data, "steps").JArray?
    && forall i :: 0 <= i < |Field(data, "steps").elems| ==> LooseStep(Field(data, "steps").elems[i])
  }

  lemma {:induction false} EveryItemAccepts(items: seq<Value>)
    ensures EveryItem(items) == Ok(true) <==> forall j :: 0 <= j < |items| ==> LooseItem(items[j])
    decreases |items|
  {
    if items != [] {
      EveryItemAccepts(items[1..]);
      assert forall j :: 1 <= j < |items| ==> items[j] == items[1..][j - 1];
    }
  }

  lemma {:induction false} EveryStepAccepts(steps: seq<Value>)
    ensures EveryStep(steps) == Ok(true) <==> forall i :: 0 <= i < |steps| ==> LooseStep(steps[i])
    decreases |steps|
  {
    if steps != [] {
      EveryStepAccepts(steps[1..]);
      if ItemShaped(steps[0]) && Field(steps[0], "step_items").JArray? {
        EveryItemAccepts(Field(steps[0], "step_items").elems);
      }
      assert forall i :: 1 <= i < |steps| ==> steps[i] == steps[1..][i - 1];
    }
  }

  /** `validateData` returns true exactly for the loose article shape. */
  lemma ValidateDataAccepts(data: Value)
    ensures ValidateData(data) == Ok(true) <==> LooseArticle(data)
  {
    if ItemShaped(data) && Field(data, "steps").JArray? { EveryStepAccepts(Field(data, "steps").elems); }
  }

  lemma CheckItemLoose(item: Value)
    requires LooseItem(item)
    ensures CheckItem(item) == Ok(true)
  {
  }

  lemma CheckStepLoose(step: Value)
    requires LooseStep(step)
    ensures CheckStep(step) == Ok(true)
  {
    EveryItemAccepts(Field(step, "step_items").elems);
  }

  /** The item check throws at the first `null` item when every item before
    * it passes. */
  lemma {:induction false} EveryItemNullAt(items: seq<Value>, j: nat)
    requires j < |items| && items[j].JNull?
    requires forall k :: 0 <= k < j ==> LooseItem(items[k])
    ensures EveryItem(items) == Err(TypeErrorReading("content"))
    decreases j
  {
    if j > 0 {
      CheckItemLoose(items[0]);
      EveryItemNullAt(items[1..], j - 1);
    }
  }

  /** Items before `j` pass, and item `j` is `null`. */
  predicate NullItemAt(items: seq<Value>, j: nat)
  {
    j < |items| && items[j].JNull? && forall k :: 0 <= k < j ==> LooseItem(items[k])
  }

  /** A step of the right shape whose items hold a `null` after passing ones. */
  predicate NullItemStep(step: Value)
  {
    ItemShaped(step) && Field(step, "title").JStr? && Field(step, "step_items").JArray?
    && exists j: nat :: j < |Field(step, "step_items").elems| && NullItemAt(Field(step, "step_items").elems, j)
  }

  /** The step check throws at the first `null` step when every step before
    * it passes, and at a `null` item of the first step that does not pass. */
  lemma {:induction false} EveryStepNullAt(steps: seq<Value>, i: nat)
    requires i < |steps|
    requires forall k :: 0 <= k < i ==> LooseStep(steps[k])
    requires steps[i].JNull? || NullItemStep(steps[i])
    ensures EveryStep(steps) == Err(TypeErrorReading(if steps[i].JNull? then "title" else "content"))
    decreases i
  {
    if i > 0 {
      CheckStepLoose(steps[0]);
      EveryStepNullAt(steps[1..], i - 1);
    } else if !steps[0].JNull? {
      var items := Field(steps[0], "step_items").elems;
      var j: nat :| j < |items| && NullItemAt(items, j);
      EveryItemNullAt(items, j);
    }
  }

  /** A `null` step, or a `null` item, throws instead of answering false,
    * unless an earlier step or item already failed. */
  lemma NullStepThrows(data: Value, i: nat)
    requires ItemShaped(data) && Field(data, "title").JStr? && Field(data, "profile").JStr?
    requires Field(data, "steps").JArray? && i < |Field(data, "steps").elems|
    requires forall k :: 0 <= k < i ==> LooseStep(Field(data, "steps").elems[k])
    requires Field(data, "steps").elems[i].JNull? || NullItemStep(Field(data, "steps").elems[i])
    ensures ValidateData(data)
         == Err(TypeErrorReading(if Field(data, "steps").elems[i].JNull? then "title" else "content"))
  {
    EveryStepNullAt(Field(data, "steps").elems, i);
  }

  lemma {:induction false} EncodedItemsValid(items: seq<Item>)
    ensures EveryItem(EncodeItems(items)) == Ok(true)
    decreases |items|
  {
    if items != [] {
      EncodedItemsValid(items[1..]);
      var e := EncodeItems(items);
      assert e[1..] == EncodeItems(items[1..]);
      var c := Field(EncodeItem(items[0]), "children").elems;
      assert c == EncodeStrings(items[0].children);
    }
  }

  lemma {:induction false} EncodedStepsValid(steps: seq<Step>)
    ensures EveryStep(EncodeSteps(steps)) == Ok(true)
    decreases |steps|
  {
    if steps != [] {
      EncodedStepsValid(steps[1..]);
      EncodedItemsValid(steps[0].items);
      var e := EncodeSteps(steps);
      assert e[1..] == EncodeSteps(steps[1..]);
    }
  }

  /** Every `ArticleData` value passes `validateData`. */
  lemma EncodedArticleValid(a: ArticleData)
    ensures ValidateData(Encode(a)) == Ok(true)
  {
    EncodedStepsValid(a.steps);
  }

  // ---------------------------------------------------------------------------
  // translateArticleData

  /** `translateArticleData(data)` with the translation manager's
    * `translateTexts` as `translateTexts`. `None` stands for a `null` or
    * `undefined` argument: the log call reads `data.title` before the
    * explicit emptiness check, so that check is never the one that fires. */
  method TranslateArticleData(data: Option<ArticleData>, translateTexts: seq<string> -> Result<seq<string>, string>)
    returns (r: Result<ArticleData, Failure>)
    requires PreservesLength(translateTexts)
    ensures data.None? ==> r == Err(TypeErrorReading("title"))
    ensures data.Some? && translateTexts(Flatten(data.value)).Err? ==>
      r == Err(Thrown(NewError(translateTexts(Flatten(data.value)).error)))
    ensures data.Some? && translateTexts(Flatten(data.value)).Ok? ==>
      r.Ok? && |Flatten(data.value)| <= |translateTexts(Flatten(data.value)).value|
      && r.value == Rebuilt(data.value, translateTexts(Flatten(data.value)).value, false)
  {
    if data.None? {
      return Err(TypeErrorReading("title"));
    }
    var texts := CollectTexts(data.value);
    var translated := translateTexts(texts);
    if translated.Err? {
      return Err(Thrown(NewError(translated.error)));
    }
    var rebuilt := Rebuild(data.value, translated.value, false);
    r := Ok(rebuilt);
  }

  /** With a translator that returns its input, the utility gives the article
    * back without images. */
  lemma UntranslatedRoundTrip(a: ArticleData)
    ensures Rebuilt(a, Flatten(a), false) == WithImages(a, false)
  {
    RebuildFlattenIdentity(a, false);
  }
}
