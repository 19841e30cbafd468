/**
 * The translation adapter: the caller's configuration over the defaults,
 * the translator chosen by service type, and batch translation in
 * consecutive slices with a one-text-at-a-time fallback that keeps a text
 * it cannot translate. The services' endpoints are the parameter
 * `Services`; the waits between slices and fallback texts are not modelled.
 */
module TranslateAdapter {
  import opened Wrappers
  import opened Js
  import opened JsString
  import GoogleTranslator
  import CozeTranslator

  datatype ServiceType = Google | Coze | Custom

  /** The enum's string value. */
  function ServiceName(t: ServiceType): string
  {
    match t
    case Google => "google"
    case Coze => "coze"
    case Custom => "custom"
  }

  datatype TranslateConfig = TranslateConfig(kind: ServiceType, apiUrl: string, apiKey: Option<string>,
                                             maxBatchSize: Option<nat>, timeout: Option<int>)

  const DefaultBatchSize: nat := 10
  const DefaultTimeout := 10000
  const UnsupportedPrefix := "不支持的翻译服务类型: "

  /** `{ ...DEFAULT_CONFIG, ...config }` */
  function WithDefaults(c: TranslateConfig): (m: TranslateConfig)
    ensures m.kind == c.kind && m.apiUrl == c.apiUrl && m.apiKey == c.apiKey
    ensures m.maxBatchSize == Some(if c.maxBatchSize.Some? then c.maxBatchSize.value else DefaultBatchSize)
    ensures m.timeout == Some(if c.timeout.Some? then c.timeout.value else DefaultTimeout)
  {
    c.(maxBatchSize := if c.maxBatchSize.Some? then c.maxBatchSize else Some(DefaultBatchSize),
       timeout := if c.timeout.Some? then c.timeout else Some(DefaultTimeout))
  }

  datatype Translator = GoogleTranslator(googleConfig: TranslateConfig) | CozeTranslator(cozeConfig: TranslateConfig)

  /** A constructed adapter: its merged configuration and its translator. */
  datatype Adapter = Adapter(config: TranslateConfig, translator: Translator)

  /** `new TranslateAdapter(config)`, or the message it throws. */
  function CreateAdapter(config: TranslateConfig): (r: Result<Adapter, string>)
    ensures r.Ok? <==> config.kind != Custom
    ensures r.Ok? ==> r.value.config == WithDefaults(config)
    ensures r.Ok? ==> (r.value.translator.GoogleTranslator? <==> config.kind == Google)
    ensures r.Err? ==> r.error == UnsupportedPrefix + "custom"
  {
    var merged := WithDefaults(config);
    match merged.kind
    case Google => Ok(Adapter(merged, GoogleTranslator(merged)))
    case Coze => Ok(Adapter(merged, CozeTranslator(merged)))
    case Custom => Err(UnsupportedPrefix + ServiceName(merged.kind))
  }

  /** The endpoints behind the translators. */
  datatype Services = Services(googlePost: string -> Result<Value, Value>, coze: CozeTranslator.Workflow)

  /** `translator.translateText(text)` */
  function TranslatorText(t: Translator, s: Services, text: string): Result<string, Failure>
  {
    match t
    case GoogleTranslator(_) => GoogleTranslator.TranslateText(text, s.googlePost)
    case CozeTranslator(_) => CozeTranslator.TranslateText(text, s.coze)
  }

  /** `translator.translateBatch(batch)`: the Coze batch is proved to give
    * `TranslateAll` whatever its chunk size. */
  function TranslatorBatch(t: Translator, s: Services, batch: seq<string>): Result<seq<string>, Failure>
  {
    match t
    case GoogleTranslator(_) => Ok(GoogleTranslator.TranslateBatch(batch, s.googlePost))
    case CozeTranslator(_) => CozeTranslator.TranslateAll(batch, CozeTranslator.Translation(s.coze))
  }

  // ---------------------------------------------------------------------------
  // Batches, for any batch and single-text translation

  /** The slices of `texts` from `i` on, `size` texts each but the last. */
  function Slices(texts: seq<string>, i: nat, size: nat): seq<seq<string>>
    requires size > 0
    decreases |texts| - i
  {
    if i >= |texts| then []
    else [texts[i..Min(i + size, |texts|)]] + Slices(texts, i + size, size)
  }

  function Min(a: int, b: int): int
  {
    if a < b then a else b
  }

  function Concat(xs: seq<seq<string>>): seq<string>
  {
    if xs == [] then [] else xs[0] + Concat(xs[1..])
  }

  /** The slices cover the input in order; all but the last hold `size`
    * texts and the last holds between one and `size`. */
  lemma {:induction false} SlicesCover(texts: seq<string>, i: nat, size: nat)
    requires size > 0 && i <= |texts|
    ensures Concat(Slices(texts, i, size)) == texts[i..]
    ensures forall k :: 0 <= k < |Slices(texts, i, size)| - 1 ==> |Slices(texts, i, size)[k]| == size
    ensures |Slices(texts, i, size)| > 0 ==> 0 < |Slices(texts, i, size)[|Slices(texts, i, size)| - 1]| <= size
    decreases |texts| - i
  {
    if i < |texts| {
      var head := texts[i..Min(i + size, |texts|)];
      var sl := Slices(texts, i, size);
      if i + size <= |texts| {
        SlicesCover(texts, i + size, size);
        assert texts[i..] == head + texts[i + size..];
      } else {
        assert Slices(texts, i + size, size) == [];
        assert head == texts[i..];
      }
      assert sl[1..] == Slices(texts, i + size, size);
    }
  }

  /** One text per text of the slice: its translation, or the text itself
    * when translating it threw. */
  function Fallback(batch: seq<string>, single: string -> Result<string, Failure>): (r: seq<string>)
    ensures |r| == |batch|
    ensures forall k :: 0 <= k < |batch| && single(batch[k]).Ok? ==> r[k] == single(batch[k]).value
    ensures forall k :: 0 <= k < |batch| && single(batch[k]).Err? ==> r[k] == batch[k]
  {
    seq(|batch|, k requires 0 <= k < |batch| => if single(batch[k]).Ok? then single(batch[k]).value else batch[k])
  }

  /** What one slice contributes. */
  function SliceResult(batch: seq<string>, many: seq<string> -> Result<seq<string>, Failure>,
                       single: string -> Result<string, Failure>): seq<string>
  {
    match many(batch)
    case Ok(rs) => rs
    case Err(_) => Fallback(batch, single)
  }

  function Results(batches: seq<seq<string>>, many: seq<string> -> Result<seq<string>, Failure>,
                   single: string -> Result<string, Failure>): seq<string>
  {
    if batches == [] then [] else SliceResult(batches[0], many, single) + Results(batches[1..], many, single)
  }

  lemma {:induction false} FallbackAppend(x: seq<string>, y: seq<string>, single: string -> Result<string, Failure>)
    ensures Fallback(x + y, single) == Fallback(x, single) + Fallback(y, single)
  {
    var l := Fallback(x + y, single);
    var r := Fallback(x, single) + Fallback(y, single);
    forall k | 0 <= k < |l| ensures l[k] == r[k] {
      if k < |x| {
        assert (x + y)[k] == x[k];
      } else {
        assert (x + y)[k] == y[k - |x|];
      }
    }
  }

  /** When every successful batch answer agrees with translating its texts
    * one by one, the slicing does not show in the results. */
  lemma {:induction false} ResultsPerText(batches: seq<seq<string>>, many: seq<string> -> Result<seq<string>, Failure>,
                                          single: string -> Result<string, Failure>)
    requires forall b :: many(b).Ok? ==> many(b).value == Fallback(b, single)
    ensures Results(batches, many, single) == Fallback(Concat(batches), single)
  {
    if batches != [] {
      ResultsPerText(batches[1..], many, single);
      FallbackAppend(batches[0], Concat(batches[1..]), single);
    }
  }

  /** One slice off the front: a prefix of the results followed by the
    * current slice's result is a longer prefix. */
  lemma ResultsStep(texts: seq<string>, i: nat, size: nat, many: seq<string> -> Result<seq<string>, Failure>,
                    single: string -> Result<string, Failure>, done: seq<string>, piece: seq<string>)
    requires size > 0 && i < |texts|
    requires piece == SliceResult(texts[i..Min(i + size, |texts|)], many, single)
    ensures done + Results(Slices(texts, i, size), many, single)
         == (done + piece) + Results(Slices(texts, i + size, size), many, single)
  {
    var sl := Slices(texts, i, size);
    assert sl[0] == texts[i..Min(i + size, |texts|)];
    assert sl[1..] == Slices(texts, i + size, size);
    assert Results(sl, many, single) == piece + Results(Slices(texts, i + size, size), many, single);
  }

  /** `processBatch(texts)` for slice size `size`. */
  method ProcessSlices(texts: seq<string>, size: nat, many: seq<string> -> Result<seq<string>, Failure>,
                       single: string -> Result<string, Failure>) returns (results: seq<string>)
    requires size > 0
    ensures results == Results(Slices(texts, 0, size), many, single)
  {
    ghost var whole := Results(Slices(texts, 0, size), many, single);
    results := [];
    var i := 0;
    while i < |texts|
      invariant results + Results(Slices(texts, i, size), many, single) == whole
      decreases |texts| - i
    {
      var batch := texts[i..Min(i + size, |texts|)];
      var piece;
      var batchResults := many(batch);
      if batchResults.Ok? {
        piece := batchResults.value;
      } else {
        piece := FallbackLoop(batch, single);
      }
      ResultsStep(texts, i, size, many, single, results, piece);
      results := results + piece;
      i := i + size;
    }
    assert Slices(texts, i, size) == [];
    assert results + [] == results;
  }

  /** The one-at-a-time loop of a failed slice. */
  method FallbackLoop(batch: seq<string>, single: string -> Result<string, Failure>) returns (results: seq<string>)
    ensures results == Fallback(batch, single)
  {
    results := [];
    for k := 0 to |batch|
      invariant results == Fallback(batch[..k], single)
    {
      var result := single(batch[k]);
      if result.Ok? {
        results := results + [result.value];
      } else {
        results := results + [batch[k]];
      }
      assert batch[..k + 1][..k] == batch[..k];
    }
    assert batch[..|batch|] == batch;
  }

  // ---------------------------------------------------------------------------
  // The adapter's operations

  /** `config.maxBatchSize || 10` */
  function BatchSize(a: Adapter): (r: nat)
    ensures r > 0
  {
    if a.config.maxBatchSize.Some? && a.config.maxBatchSize.value != 0 then a.config.maxBatchSize.value
    else DefaultBatchSize
  }

  function Many(a: Adapter, s: Services): seq<string> -> Result<seq<string>, Failure>
  {
    batch => TranslatorBatch(a.translator, s, batch)
  }

  function Single(a: Adapter, s: Services): string -> Result<string, Failure>
  {
    text => TranslatorText(a.translator, s, text)
  }

  /** What `translateTexts(texts)` resolves to; it never rejects. */
  function TranslateTextsSpec(a: Adapter, s: Services, texts: seq<string>): seq<string>
  {
    Results(Slices(texts, 0, BatchSize(a)), Many(a, s), Single(a, s))
  }

  /** `translateText(text)`: blank texts are answered without the
    * translator, errors are rethrown. */
  function TranslateText(a: Adapter, s: Services, text: string): (r: Result<string, Failure>)
    ensures IsBlank(text) ==> r == Ok("")
    ensures !IsBlank(text) ==> r == TranslatorText(a.translator, s, text)
  {
    if IsBlank(text) then Ok("") else TranslatorText(a.translator, s, text)
  }

  /** `translateTexts(texts)` */
  method TranslateTexts(a: Adapter, s: Services, texts: seq<string>) returns (r: seq<string>)
    ensures r == TranslateTextsSpec(a, s, texts)
  {
    if |texts| == 0 {
      return [];
    }
    r := ProcessSlices(texts, BatchSize(a), Many(a, s), Single(a, s));
  }

  /** A successful batch answer of either translator is the answer text
    * by text. */
  lemma BatchPerText(a: Adapter, s: Services, batch: seq<string>)
    ensures Many(a, s)(batch).Ok? ==> Many(a, s)(batch).value == Fallback(batch, Single(a, s))
  {
    if a.translator.CozeTranslator? {
      CozeTranslator.TranslateAllOk(batch, CozeTranslator.Translation(s.coze));
    }
  }

  /** `translateTexts` never loses or reorders a text: each element is the
    * translator's translation of the text at the same place, or that text
    * itself when translating it threw. */
  lemma TranslateTextsPerText(a: Adapter, s: Services, texts: seq<string>)
    ensures TranslateTextsSpec(a, s, texts) == Fallback(texts, Single(a, s))
    ensures |TranslateTextsSpec(a, s, texts)| == |texts|
    ensures forall i :: 0 <= i < |texts| && TranslatorText(a.translator, s, texts[i]).Ok? ==>
      TranslateTextsSpec(a, s, texts)[i] == TranslatorText(a.translator, s, texts[i]).value
    ensures forall i :: 0 <= i < |texts| && TranslatorText(a.translator, s, texts[i]).Err? ==>
      TranslateTextsSpec(a, s, texts)[i] == texts[i]
  {
    forall b ensures Many(a, s)(b).Ok? ==> Many(a, s)(b).value == Fallback(b, Single(a, s)) {
      BatchPerText(a, s, b);
    }
    ResultsPerText(Slices(texts, 0, BatchSize(a)), Many(a, s), Single(a, s));
    SlicesCover(texts, 0, BatchSize(a));
  }

  /** An empty list is answered with an empty list. */
  lemma EmptyTexts(a: Adapter, s: Services)
    ensures TranslateTextsSpec(a, s, []) == []
  {
  }
}
