/**
 * The Google translator: one text per request, the reply's first
 * translation trimmed; a batch maps every text through that, keeping the
 * original text when its request fails, with requests released in groups
 * of five, 100 ms apart. The HTTP call is the parameter `post`, giving the
 * reply body for a text or what the request threw.
 */
module GoogleTranslator {
  import opened Wrappers
  import opened Js
  import opened JsString

  const InvalidResult := "翻译结果格式无效"

  /** `v?.[0]` */
  function First(v: Value): Value
  {
    match v
    case JArray(elems) => if |elems| > 0 then elems[0] else JUndefined
    case JStr(s) => if |s| > 0 then JStr(s[..1]) else JUndefined
    case _ => Field(v, "0")
  }

  /** `response.data?.data?.translations?.[0]` for reply body `body`. */
  function FirstTranslation(body: Value): Value
  {
    First(Field(Field(body, "data"), "translations"))
  }

  /** `translateText(text)` */
  function TranslateText(text: string, post: string -> Result<Value, Value>): (r: Result<string, Failure>)
    ensures IsBlank(text) ==> r == Ok("")
    ensures r.Ok? ==> Trimmed(r.value)
    ensures !IsBlank(text) && post(text).Err? ==> r == Err(Thrown(post(text).error))
    ensures !IsBlank(text) && post(text).Ok? && !Truthy(FirstTranslation(post(text).value)) ==>
      r == Err(ErrorWith(JStr(InvalidResult)))
    ensures !IsBlank(text) && post(text).Ok? && Truthy(FirstTranslation(post(text).value)) ==>
      r == TrimValue(Field(FirstTranslation(post(text).value), "translatedText"))
  {
    if IsBlank(text) then Ok("")
    else
      match post(text)
      case Err(e) => Err(Thrown(e))
      case Ok(body) =>
        var first := FirstTranslation(body);
        if !Truthy(first) then Err(ErrorWith(JStr(InvalidResult)))
        else
          var r := TrimValue(Field(first, "translatedText"));
          if r.Ok? then TrimTrimmed(Field(first, "translatedText").s); r
          else r
  }

  /** A blank text is answered without a request: the reply does not matter. */
  lemma BlankNeedsNoRequest(text: string, post1: string -> Result<Value, Value>, post2: string -> Result<Value, Value>)
    requires IsBlank(text)
    ensures TranslateText(text, post1) == TranslateText(text, post2) == Ok("")
  {
  }

  /** What one element of a batch resolves to: the translation, or the
    * original text when translating it threw. */
  function ItemResult(text: string, post: string -> Result<Value, Value>): string
  {
    match TranslateText(text, post)
    case Ok(t) => t
    case Err(_) => text
  }

  /** `translateBatch(texts)`: never rejects. */
  function TranslateBatch(texts: seq<string>, post: string -> Result<Value, Value>): (r: seq<string>)
    ensures |r| == |texts|
    ensures forall i :: 0 <= i < |texts| && TranslateText(texts[i], post).Ok? ==> r[i] == TranslateText(texts[i], post).value
    ensures forall i :: 0 <= i < |texts| && TranslateText(texts[i], post).Err? ==> r[i] == texts[i]
  {
    seq(|texts|, i requires 0 <= i < |texts| => ItemResult(texts[i], post))
  }

  /** The delay before the request of element `index`. */
  function Delay(index: nat): nat
  {
    (index / 5) * 100
  }

  /** The delays of a batch of `n` texts, in order. */
  function Delays(n: nat): (r: seq<nat>)
    ensures |r| == n && forall i :: 0 <= i < n ==> r[i] == Delay(i)
  {
    seq(n, i requires 0 <= i => Delay(i))
  }

  /** Groups of five share a delay and each group waits 100 ms longer than
    * the one before. */
  lemma DelaySchedule(group: nat, offset: nat)
    requires offset < 5
    ensures Delay(5 * group + offset) == 100 * group
  {
    assert (5 * group + offset) / 5 == group;
  }

  /** Later elements never wait less. */
  lemma {:induction false} DelayMonotone(i: nat, j: nat)
    requires i <= j
    ensures Delay(i) <= Delay(j)
  {
    DivMonotone(i, j);
  }

  lemma {:induction false} DivMonotone(i: nat, j: nat)
    requires i <= j
    ensures i / 5 <= j / 5
    decreases j
  {
    if j >= 5 && i >= 5 {
      DivMonotone(i - 5, j - 5);
      assert i / 5 == (i - 5) / 5 + 1;
      assert j / 5 == (j - 5) / 5 + 1;
    } else if j >= 5 {
      assert i / 5 == 0;
    }
  }

  /** An empty batch sends nothing and gives nothing back. */
  lemma EmptyBatch(post: string -> Result<Value, Value>)
    ensures TranslateBatch([], post) == []
  {
  }
}
