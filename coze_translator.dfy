/**
 * The Coze translator: a workflow call per text whose JSON reply carries
 * the translation in `output`; a batch walks the texts in outer chunks of
 * `maxBatchSize` (50 by default) and inner groups of three, and fails as a
 * whole when any text fails. The workflow endpoint is the parameter
 * `post`, `JSON.parse` the parameter `parse` (`None` when it throws).
 */
module CozeTranslator {
  import opened Wrappers
  import opened Js
  import opened JsString

  const CallFailedPrefix := "工作流调用失败: "
  const EmptyData := "工作流返回数据为空"
  const ParseFailed := "解析工作流响应失败"
  const DefaultBatchSize: nat := 50
  const GroupSize: nat := 3

  /** The `text` parameter of a workflow call: one text or a list. */
  datatype WorkflowInput = One(text: string) | Many(texts: seq<string>)

  /** The workflow reply body; `data` is `None` when absent. */
  datatype WorkflowReply = WorkflowReply(code: int, data: Option<string>, msg: string)

  datatype Workflow = Workflow(post: WorkflowInput -> Result<WorkflowReply, Value>, parse: string -> Option<Value>)

  /** `callWorkflow(text)`: a non-zero code, empty data and an unparsable
    * (or null) result each throw; otherwise `output`, defaulting to `''`
    * or `[]` after the input's shape. */
  function CallWorkflow(input: WorkflowInput, w: Workflow): (r: Result<Value, Failure>)
    ensures w.post(input).Err? ==> r == Err(Thrown(w.post(input).error))
    ensures w.post(input).Ok? && w.post(input).value.code != 0 ==>
      r == Err(ErrorWith(JStr(CallFailedPrefix + w.post(input).value.msg)))
    ensures w.post(input).Ok? && w.post(input).value.code == 0
            && (w.post(input).value.data.None? || w.post(input).value.data.value == "") ==>
      r == Err(ErrorWith(JStr(EmptyData)))
    ensures r.Ok? ==>
      w.post(input).Ok? && w.post(input).value.code == 0 && w.post(input).value.data.Some?
      && w.parse(w.post(input).value.data.value).Some?
      && r.value == Or(Field(w.parse(w.post(input).value.data.value).value, "output"),
                       if input.Many? then JArray([]) else JStr(""))
  {
    match w.post(input)
    case Err(e) => Err(Thrown(e))
    case Ok(reply) =>
      if reply.code != 0 then Err(ErrorWith(JStr(CallFailedPrefix + reply.msg)))
      else if reply.data.None? || reply.data.value == "" then Err(ErrorWith(JStr(EmptyData)))
      else
        match w.parse(reply.data.value)
        case None => Err(ErrorWith(JStr(ParseFailed)))
        case Some(result) =>
          if Nullish(result) then Err(ErrorWith(JStr(ParseFailed)))
          else Ok(Or(Field(result, "output"), if input.Many? then JArray([]) else JStr("")))
  }

  /** `translateText(text)`: blank texts need no call; the output is
    * trimmed. */
  function TranslateText(text: string, w: Workflow): (r: Result<string, Failure>)
    ensures IsBlank(text) ==> r == Ok("")
    ensures r.Ok? ==> Trimmed(r.value)
    ensures !IsBlank(text) && CallWorkflow(One(text), w).Err? ==> r == Err(CallWorkflow(One(text), w).error)
    ensures !IsBlank(text) && r.Ok? ==>
      CallWorkflow(One(text), w).Ok? && CallWorkflow(One(text), w).value.JStr?
      && r.value == Trim(CallWorkflow(One(text), w).value.s)
  {
    if IsBlank(text) then Ok("")
    else
      match CallWorkflow(One(text), w)
      case Err(e) => Err(e)
      case Ok(v) =>
        if v.JStr? then TrimTrimmed(v.s); Ok(Trim(v.s))
        else TrimValue(v)
  }

  // ---------------------------------------------------------------------------
  // Batches

  /** Translation of one text, as the batch calls it. */
  function Translation(w: Workflow): string -> Result<string, Failure>
  {
    text => TranslateText(text, w)
  }

  /** What the whole batch settles to: every translation in order, or the
    * first failure in input order. */
  function TranslateAll(texts: seq<string>, tr: string -> Result<string, Failure>): Result<seq<string>, Failure>
    decreases |texts|
  {
    if texts == [] then Ok([])
    else
      match TranslateAll(texts[..|texts| - 1], tr)
      case Err(e) => Err(e)
      case Ok(rs) =>
        match tr(texts[|texts| - 1])
        case Err(e) => Err(e)
        case Ok(t) => Ok(rs + [t])
  }

  /** A batch succeeds exactly when every text does, and then holds one
    * translation per text, in order. */
  lemma {:induction false} TranslateAllOk(texts: seq<string>, tr: string -> Result<string, Failure>)
    ensures TranslateAll(texts, tr).Ok? <==> forall i :: 0 <= i < |texts| ==> tr(texts[i]).Ok?
    ensures TranslateAll(texts, tr).Ok? ==>
      |TranslateAll(texts, tr).value| == |texts|
      && forall i :: 0 <= i < |texts| ==> TranslateAll(texts, tr).value[i] == tr(texts[i]).value
    decreases |texts|
  {
    if texts != [] {
      var init := texts[..|texts| - 1];
      var last := texts[|texts| - 1];
      TranslateAllOk(init, tr);
      var ri := TranslateAll(init, tr);
      var rt := tr(last);
      if ri.Err? {
        assert TranslateAll(texts, tr) == ri;
        var i :| 0 <= i < |init| && tr(init[i]).Err?;
        assert texts[i] == init[i];
      } else if rt.Err? {
        assert TranslateAll(texts, tr) == Err(rt.error);
      } else {
        assert TranslateAll(texts, tr) == Ok(ri.value + [rt.value]);
        forall i | 0 <= i < |texts|
          ensures tr(texts[i]).Ok? && (ri.value + [rt.value])[i] == tr(texts[i]).value
        {
          if i < |init| {
            assert init[i] == texts[i];
          }
        }
      }
    }
  }

  /** A failure in a prefix is the failure of the whole batch. */
  lemma {:induction false} TranslateAllErrPrefix(texts: seq<string>, m: nat, n: nat, tr: string -> Result<string, Failure>)
    requires m <= n <= |texts|
    requires TranslateAll(texts[..m], tr).Err?
    ensures TranslateAll(texts[..n], tr) == TranslateAll(texts[..m], tr)
    decreases n
  {
    if n > m {
      TranslateAllErrPrefix(texts, m, n - 1, tr);
      assert texts[..n][..n - 1] == texts[..n - 1];
    }
  }

  /** One more text after a successful prefix of `n` texts. */
  lemma TranslateAllStep(texts: seq<string>, n: nat, results: seq<string>, tr: string -> Result<string, Failure>)
    requires n < |texts| && TranslateAll(texts[..n], tr) == Ok(results)
    ensures tr(texts[n]).Ok? ==> TranslateAll(texts[..n + 1], tr) == Ok(results + [tr(texts[n]).value])
    ensures tr(texts[n]).Err? ==> TranslateAll(texts, tr) == Err(tr(texts[n]).error)
  {
    assert texts[..n + 1][..n] == texts[..n];
    assert texts[..n + 1][n] == texts[n];
    if tr(texts[n]).Err? {
      assert TranslateAll(texts[..n + 1], tr) == Err(tr(texts[n]).error);
      TranslateAllErrPrefix(texts, n + 1, |texts|, tr);
      assert texts[..|texts|] == texts;
    }
  }

  /** `config.maxBatchSize || 50` */
  function BatchSize(maxBatchSize: Option<nat>): (r: nat)
    ensures r > 0
  {
    if maxBatchSize.Some? && maxBatchSize.value != 0 then maxBatchSize.value else DefaultBatchSize
  }

  function Min(a: int, b: int): int
  {
    if a < b then a else b
  }

  /** `translateBatch(texts)`: the chunking decides how many requests run
    * at once, not what the batch gives back. */
  method TranslateBatch(texts: seq<string>, maxBatchSize: Option<nat>, w: Workflow) returns (r: Result<seq<string>, Failure>)
    ensures r == TranslateAll(texts, Translation(w))
  {
    if |texts| == 0 {
      return Ok([]);
    }
    r := Chunked(texts, BatchSize(maxBatchSize), Translation(w));
  }

  /** The outer loop over chunks of `batchSize`, with translation `tr`. */
  method Chunked(texts: seq<string>, batchSize: nat, tr: string -> Result<string, Failure>)
    returns (r: Result<seq<string>, Failure>)
    requires batchSize > 0
    ensures r == TranslateAll(texts, tr)
  {
    var results: seq<string> := [];
    var i := 0;
    while i < |texts|
      invariant i <= |texts|
      invariant TranslateAll(texts[..i], tr) == Ok(results)
      decreases |texts| - i
    {
      var batch := texts[i..Min(i + batchSize, |texts|)];
      var done := TranslateChunk(texts, i, batch, results, tr);
      if done.Err? {
        return done;
      }
      results := done.value;
      i := i + |batch|;
    }
    assert texts[..i] == texts;
    r := Ok(results);
  }

  lemma SubSlice(texts: seq<string>, n: nat, len: nat, j: nat, end: nat)
    requires n + len <= |texts| && j <= end <= len
    ensures texts[n..n + len][j..end] == texts[n + j..n + end]
  {
    var a, b := texts[n..n + len][j..end], texts[n + j..n + end];
    assert |a| == |b|;
    assert forall m :: 0 <= m < |a| ==> a[m] == b[m];
  }

  /** One chunk, `texts[n..]` onwards, in groups of three; `Ok` carries the
    * results so far, `Err` the failure of the whole batch. */
  method TranslateChunk(texts: seq<string>, n: nat, batch: seq<string>, results: seq<string>,
                        tr: string -> Result<string, Failure>) returns (r: Result<seq<string>, Failure>)
    requires n + |batch| <= |texts| && batch == texts[n..n + |batch|]
    requires TranslateAll(texts[..n], tr) == Ok(results)
    ensures r.Ok? ==> TranslateAll(texts[..n + |batch|], tr) == r
    ensures r.Err? ==> TranslateAll(texts, tr) == r
  {
    r := Ok(results);
    var j := 0;
    while j < |batch|
      invariant j <= |batch|
      invariant r.Ok? && TranslateAll(texts[..n + j], tr) == r
      decreases |batch| - j
    {
      var end := Min(j + GroupSize, |batch|);
      var group := batch[j..end];
      SubSlice(texts, n, |batch|, j, end);
      assert |group| == end - j;
      r := TranslateGroup(texts, n + j, group, r.value, tr);
      if r.Err? {
        return;
      }
      assert n + j + |group| == n + end;
      j := end;
    }
  }

  /** One group of at most three texts starting at `texts[n]`. */
  method TranslateGroup(texts: seq<string>, n: nat, group: seq<string>, results: seq<string>,
                        tr: string -> Result<string, Failure>) returns (r: Result<seq<string>, Failure>)
    requires n + |group| <= |texts| && group == texts[n..n + |group|]
    requires TranslateAll(texts[..n], tr) == Ok(results)
    ensures r.Ok? ==> TranslateAll(texts[..n + |group|], tr) == r
    ensures r.Err? ==> TranslateAll(texts, tr) == r
  {
    r := Ok(results);
    var k := 0;
    while k < |group|
      invariant k <= |group|
      invariant r.Ok? && TranslateAll(texts[..n + k], tr) == r
      decreases |group| - k
    {
      assert group[k] == texts[n + k];
      TranslateAllStep(texts, n + k, r.value, tr);
      var t := tr(group[k]);
      if t.Err? {
        return Err(t.error);
      }
      r := Ok(r.value + [t.value]);
      k := k + 1;
    }
  }
}
