/**
 * The article processing pipeline of the two `useArticleProcessor` hooks:
 * scrape, translate and render through three `useRequest` hooks, with a
 * status/progress state set before each stage and an error state on any
 * failure. The popup variant first detects the article type from the URL's
 * host and passes template name, tab and translation service along; the
 * plain variant passes the URL and the data only. Also the popup hook's
 * flatten-translate-rebuild helper, which keeps images.
 */
module ArticleProcessor {
  import opened Wrappers
  import opened Js
  import opened JsString
  import opened Article
  import opened UseRequest

  const WeChatHost := "mp.weixin.qq.com"
  const WikiHowHost := "wikihow"
  const InvalidUrl := "无效的URL格式"
  const EmptySpiderData := "爬虫返回数据为空"
  const EmptyTranslation := "翻译返回数据为空"

  // ---------------------------------------------------------------------------
  // Article type

  /** `detectArticleType(url)`, `host` being the URL's hostname or `None`
    * when the URL does not parse. The unsupported-type error is caught and
    * replaced by the invalid-URL error. */
  function DetectArticleType(host: Option<string>): (r: Result<string, string>)
    ensures r == Ok("wechat") <==> host.Some? && Includes(host.value, WeChatHost)
    ensures r == Ok("wikihow") <==> host.Some? && !Includes(host.value, WeChatHost) && Includes(host.value, WikiHowHost)
    ensures r.Err? ==> r.error == InvalidUrl
  {
    if host.None? then Err(InvalidUrl)
    else if Includes(host.value, WeChatHost) then Ok("wechat")
    else if Includes(host.value, WikiHowHost) then Ok("wikihow")
    else Err(InvalidUrl)
  }

  // ---------------------------------------------------------------------------
  // Status machine

  datatype ProcessStatus = Init | Scraping | WaitingFile | Processing | Translating | Rendering | Complete | ErrorStatus

  datatype LoadingState = LoadingState(status: ProcessStatus, progress: int)

  const InitState := LoadingState(Init, 0)
  const ScrapingState := LoadingState(Scraping, 20)
  const TranslatingState := LoadingState(Translating, 60)
  const RenderingState := LoadingState(Rendering, 90)
  const CompleteState := LoadingState(Complete, 100)
  const FailedState := LoadingState(ErrorStatus, 0)

  /** The states a successful run sets, in order. */
  const SuccessPath := [ScrapingState, TranslatingState, RenderingState, CompleteState]

  /** The options the three requests are created with. */
  const SpiderOptions := MergeOptions(CallerOptions(Some(false), None, Some(3), None, None, None))
  const TranslateOptions := MergeOptions(CallerOptions(Some(false), None, Some(2), None, None, None))
  const RenderOptions := MergeOptions(CallerOptions(Some(false), None, Some(1), None, None, None))

  /** Which hook: the plain one, or the popup's, which also gets a template
    * name, a tab and a translation service. */
  datatype Variant = Plain | PopupVariant(templateName: string, tabId: int, serviceType: string)

  /** The request functions behind the three hooks. */
  datatype Requests = Requests(spider: (Value, nat) -> Outcome, translate: (Value, nat) -> Outcome,
                               render: (Value, nat) -> Outcome)

  datatype HookStates = HookStates(spider: HookState, translate: HookState, render: HookState)

  /** The loading states set during one `processArticle`, the hooks after it
    * and how it settled. */
  datatype Run = Run(trace: seq<LoadingState>, hooks: HookStates, result: Result<(), Value>)

  /** The scrape request's params, or what type detection throws. */
  function SpiderParams(v: Variant, url: string, host: Option<string>): Result<Value, Value>
  {
    match v
    case Plain => Ok(JObject(map["url" := JStr(url)]))
    case PopupVariant(_, _, _) =>
      match DetectArticleType(host)
      case Err(m) => Err(NewError(m))
      case Ok(kind) => Ok(JObject(map["url" := JStr(url), "type" := JStr(kind)]))
  }

  function TranslateParams(v: Variant, data: Value): Value
  {
    match v
    case Plain => data
    case PopupVariant(_, _, service) => JObject(map["data" := data, "serviceType" := JStr(service)])
  }

  function RenderParams(v: Variant, data: Value): Value
  {
    match v
    case Plain => data
    case PopupVariant(name, tab, _) => JObject(map["data" := data, "templateName" := JStr(name), "tabId" := JNum(tab)])
  }

  /** `!value` for what a request resolved to. */
  predicate Present(value: Option<Value>)
  {
    value.Some? && Truthy(value.value)
  }

  /** `processArticle`, as a function of the hooks' states before it. */
  function Pipeline(v: Variant, url: string, host: Option<string>, rq: Requests, h: HookStates, now: int): Run
  {
    match SpiderParams(v, url, host)
    case Err(e) => Run([ScrapingState, FailedState], h, Err(e))
    case Ok(sp) =>
      var (s1, sr) := RunFrom(SpiderOptions, rq.spider, sp, now, h.spider);
      var run := Scraped(v, rq, h.(spider := s1), sr, now);
      run.(trace := [ScrapingState] + run.trace)
  }

  /** The rest of the run once the scrape request settled with `sr`. */
  function Scraped(v: Variant, rq: Requests, h: HookStates, sr: Result<Option<Value>, Value>, now: int): Run
  {
    if sr.Err? then Run([FailedState], h, Err(sr.error))
    else if !Present(sr.value) then Run([FailedState], h, Err(NewError(EmptySpiderData)))
    else
      var (t1, tr) := RunFrom(TranslateOptions, rq.translate, TranslateParams(v, sr.value.value), now, h.translate);
      var run := Translated(v, rq, h.(translate := t1), tr, now);
      run.(trace := [TranslatingState] + run.trace)
  }

  /** The rest of the run once the translation request settled with `tr`. */
  function Translated(v: Variant, rq: Requests, h: HookStates, tr: Result<Option<Value>, Value>, now: int): Run
  {
    if tr.Err? then Run([FailedState], h, Err(tr.error))
    else if !Present(tr.value) then Run([FailedState], h, Err(NewError(EmptyTranslation)))
    else
      var (r1, rr) := RunFrom(RenderOptions, rq.render, RenderParams(v, tr.value.value), now, h.render);
      if rr.Err? then Run([RenderingState, FailedState], h.(render := r1), Err(rr.error))
      else Run([RenderingState, CompleteState], h.(render := r1), Ok(()))
  }

  // ---------------------------------------------------------------------------
  // What a run promises

  /** A run succeeds exactly when it goes through all four stages; a failing
    * run stops after one, two or three of them and ends in the error state. */
  lemma PipelineTrace(v: Variant, url: string, host: Option<string>, rq: Requests, h: HookStates, now: int)
    ensures var run := Pipeline(v, url, host, rq, h, now);
      run.result.Ok? <==> run.trace == SuccessPath
    ensures var run := Pipeline(v, url, host, rq, h, now);
      run.result.Err? ==>
        2 <= |run.trace| <= 4 && run.trace == SuccessPath[..|run.trace| - 1] + [FailedState]
  {
    match SpiderParams(v, url, host)
    case Err(_) =>
    case Ok(sp) =>
      var (s1, sr) := RunFrom(SpiderOptions, rq.spider, sp, now, h.spider);
      ScrapedTrace(v, rq, h.(spider := s1), sr, now);
  }

  lemma ScrapedTrace(v: Variant, rq: Requests, h: HookStates, sr: Result<Option<Value>, Value>, now: int)
    ensures var run := Scraped(v, rq, h, sr, now);
      (run.result.Ok? <==> run.trace == SuccessPath[1..])
      && (run.result.Err? ==> 1 <= |run.trace| <= 3 && run.trace == SuccessPath[1..|run.trace|] + [FailedState])
  {
    if sr.Ok? && Present(sr.value) {
      var (t1, tr) := RunFrom(TranslateOptions, rq.translate, TranslateParams(v, sr.value.value), now, h.translate);
      TranslatedTrace(v, rq, h.(translate := t1), tr, now);
    }
  }

  lemma TranslatedTrace(v: Variant, rq: Requests, h: HookStates, tr: Result<Option<Value>, Value>, now: int)
    ensures var run := Translated(v, rq, h, tr, now);
      (run.result.Ok? <==> run.trace == SuccessPath[2..])
      && (run.result.Err? ==> 1 <= |run.trace| <= 2 && run.trace == SuccessPath[2..|run.trace| + 1] + [FailedState])
  {
  }

  /** A stage after the failing one never runs: its hook is untouched. */
  lemma LaterStagesSkipped(v: Variant, url: string, host: Option<string>, rq: Requests, h: HookStates, now: int)
    ensures var run := Pipeline(v, url, host, rq, h, now);
      |run.trace| == 2 ==> run.hooks.translate == h.translate && run.hooks.render == h.render
    ensures var run := Pipeline(v, url, host, rq, h, now);
      |run.trace| <= 3 ==> run.hooks.render == h.render
  {
  }

  /** Scraped data that is null (an aborted first request) fails the run
    * with the empty-data error before translation. */
  lemma NullSpiderDataFails(v: Variant, url: string, host: Option<string>, rq: Requests, h: HookStates, now: int)
    requires SpiderParams(v, url, host).Ok?
    requires var sr := RunFrom(SpiderOptions, rq.spider, SpiderParams(v, url, host).value, now, h.spider).1;
      sr.Ok? && !Present(sr.value)
    ensures Pipeline(v, url, host, rq, h, now).result == Err(NewError(EmptySpiderData))
    ensures Pipeline(v, url, host, rq, h, now).hooks.translate == h.translate
  {
  }

  /** In the popup variant a URL of another site fails before any request. */
  lemma UnsupportedSiteFails(templateName: string, tabId: int, service: string, url: string, host: Option<string>,
                             rq: Requests, h: HookStates, now: int)
    requires !(host.Some? && (Includes(host.value, WeChatHost) || Includes(host.value, WikiHowHost)))
    ensures Pipeline(PopupVariant(templateName, tabId, service), url, host, rq, h, now)
         == Run([ScrapingState, FailedState], h, Err(NewError(InvalidUrl)))
  {
  }

  /** Per run, the scrape request is called at most 4 times, the
    * translation at most 3 and the render at most 2. */
  lemma RequestCalls(v: Variant, url: string, host: Option<string>, rq: Requests, h: HookStates, now: int)
    ensures var run := Pipeline(v, url, host, rq, h, now);
      run.hooks.spider.calls <= h.spider.calls + 4
      && run.hooks.translate.calls <= h.translate.calls + 3
      && run.hooks.render.calls <= h.render.calls + 2
  {
    match SpiderParams(v, url, host)
    case Err(_) =>
    case Ok(sp) =>
      RunOutcome(SpiderOptions, rq.spider, sp, now, h.spider);
      var sr := RunFrom(SpiderOptions, rq.spider, sp, now, h.spider).1;
      if sr.Ok? && Present(sr.value) {
        var tp := TranslateParams(v, sr.value.value);
        RunOutcome(TranslateOptions, rq.translate, tp, now, h.translate);
        var tr := RunFrom(TranslateOptions, rq.translate, tp, now, h.translate).1;
        if tr.Ok? && Present(tr.value) {
          RunOutcome(RenderOptions, rq.render, RenderParams(v, tr.value.value), now, h.render);
        }
      }
  }

  /** `a || b` on two error strings: the first that is neither null nor empty. */
  predicate ErrorSet(e: Option<string>)
  {
    e.Some? && e.value != ""
  }

  /** `spider.error || translate.error || render.error` */
  function FirstError(a: Option<string>, b: Option<string>, c: Option<string>): (r: Option<string>)
    ensures ErrorSet(r) <==> ErrorSet(a) || ErrorSet(b) || ErrorSet(c)
    ensures ErrorSet(a) ==> r == a
    ensures !ErrorSet(a) && ErrorSet(b) ==> r == b
    ensures r == a || r == b || r == c
  {
    if ErrorSet(a) then a else if ErrorSet(b) then b else c
  }

  // ---------------------------------------------------------------------------
  // The hook, with its three requests and its loading state

  /** A trace that extends `t0 + [l]` extends `t0`, and what follows `t0`
    * is `l` and then what follows `t0 + [l]`. */
  lemma TraceAfterPush(t0: seq<LoadingState>, l: LoadingState, t: seq<LoadingState>)
    requires |t0| + 1 <= |t| && t[..|t0| + 1] == t0 + [l]
    ensures |t0| < |t| && t[..|t0|] == t0
    ensures t[|t0|..] == [l] + t[|t0| + 1..]
  {
    assert t[..|t0|] == t[..|t0| + 1][..|t0|];
    assert t[|t0|..] == [t[|t0|]] + t[|t0| + 1..];
  }

  class Processor {
    const spider: RequestHook
    const translate: RequestHook
    const render: RequestHook
    var loadingState: LoadingState
    /** Every loading state set so far, in order. */
    var trace: seq<LoadingState>

    ghost predicate Valid()
      reads this
    {
      spider != translate && spider != render && translate != render
      && spider.options == SpiderOptions && translate.options == TranslateOptions && render.options == RenderOptions
    }

    function States(): HookStates
      reads spider, translate, render
    {
      HookStates(spider.State(), translate.State(), render.State())
    }

    function RequestFns(): Requests
    {
      Requests(spider.request, translate.request, render.request)
    }

    constructor(rq: Requests)
      ensures Valid() && RequestFns() == rq
      ensures loadingState == InitState && trace == []
      ensures States() == HookStates(UseRequest.Initial, UseRequest.Initial, UseRequest.Initial)
    {
      spider := new RequestHook(CallerOptions(Some(false), None, Some(3), None, None, None), rq.spider);
      translate := new RequestHook(CallerOptions(Some(false), None, Some(2), None, None, None), rq.translate);
      render := new RequestHook(CallerOptions(Some(false), None, Some(1), None, None, None), rq.render);
      loadingState := InitState;
      trace := [];
    }

    /** `loading`: any of the three requests is loading. */
    function Loading(): (r: bool)
      reads spider, translate, render
      ensures r <==> spider.loading || translate.loading || render.loading
    {
      spider.loading || translate.loading || render.loading
    }

    function Error(): Option<string>
      reads spider, translate, render
    {
      FirstError(spider.error, translate.error, render.error)
    }

    method SetLoadingState(l: LoadingState)
      modifies this
      ensures loadingState == l && trace == old(trace) + [l]
    {
      loadingState := l;
      trace := trace + [l];
    }

    /** `processArticle(url, …)`; `host` is the URL's hostname (`None` when
      * it does not parse) and `now` the clock. */
    method ProcessArticle(v: Variant, url: string, host: Option<string>, now: int) returns (r: Result<(), Value>)
      requires Valid()
      modifies this, spider, translate, render
      ensures |old(trace)| <= |trace| && trace[..|old(trace)|] == old(trace)
      ensures Pipeline(v, url, host, RequestFns(), old(States()), now) == Run(trace[|old(trace)|..], States(), r)
      ensures loadingState == trace[|trace| - 1]
    {
      ghost var t0 := trace;
      SetLoadingState(ScrapingState);
      var sp := SpiderParams(v, url, host);
      if sp.Err? {
        SetLoadingState(FailedState);
        assert trace[|t0|..] == [ScrapingState, FailedState];
        return Err(sp.error);
      }
      ghost var h0 := States();
      var articleData := spider.Execute(sp.value, now);
      assert States() == h0.(spider := spider.State());
      ghost var t1 := trace;
      r := AfterScrape(v, articleData, now);
      TraceAfterPush(t0, ScrapingState, trace);
    }

    /** The stages after the scrape request settled with `sr`. */
    method AfterScrape(v: Variant, sr: Result<Option<Value>, Value>, now: int) returns (r: Result<(), Value>)
      requires Valid() && |trace| > 0
      modifies this, translate, render
      ensures |old(trace)| < |trace| && trace[..|old(trace)|] == old(trace)
      ensures Scraped(v, RequestFns(), old(States()), sr, now) == Run(trace[|old(trace)|..], States(), r)
      ensures loadingState == trace[|trace| - 1]
    {
      ghost var t0 := trace;
      if sr.Err? || !Present(sr.value) {
        SetLoadingState(FailedState);
        assert trace[|t0|..] == [FailedState];
        return if sr.Err? then Err(sr.error) else Err(NewError(EmptySpiderData));
      }
      ghost var h0 := States();
      SetLoadingState(TranslatingState);
      var translated := translate.Execute(TranslateParams(v, sr.value.value), now);
      assert States() == h0.(translate := translate.State());
      ghost var run := Translated(v, RequestFns(), States(), translated, now);
      assert Scraped(v, RequestFns(), h0, sr, now) == run.(trace := [TranslatingState] + run.trace);
      r := AfterTranslate(v, translated, now);
      TraceAfterPush(t0, TranslatingState, trace);
    }

    /** The stages after the translation request settled with `tr`. */
    method AfterTranslate(v: Variant, tr: Result<Option<Value>, Value>, now: int) returns (r: Result<(), Value>)
      requires Valid()
      modifies this, render
      ensures |old(trace)| < |trace| && trace[..|old(trace)|] == old(trace)
      ensures Translated(v, RequestFns(), old(States()), tr, now) == Run(trace[|old(trace)|..], States(), r)
      ensures loadingState == trace[|trace| - 1]
    {
      ghost var t0 := trace;
      if tr.Err? || !Present(tr.value) {
        SetLoadingState(FailedState);
        assert trace[|t0|..] == [FailedState];
        return if tr.Err? then Err(tr.error) else Err(NewError(EmptyTranslation));
      }
      SetLoadingState(RenderingState);
      var rendered := render.Execute(RenderParams(v, tr.value.value), now);
      if rendered.Err? {
        SetLoadingState(FailedState);
        assert trace[|t0|..] == [RenderingState, FailedState];
        return Err(rendered.error);
      }
      SetLoadingState(CompleteState);
      assert trace[|t0|..] == [RenderingState, CompleteState];
      r := Ok(());
    }
  }

  // ---------------------------------------------------------------------------
  // The popup hook's translation helper

  /** `translateArticleData(data)` of the popup hook: flatten, translate in
    * one batch, rebuild keeping each item's image; a translation error is
    * rethrown. */
  method TranslateArticleData(data: ArticleData, translateTexts: seq<string> -> Result<seq<string>, string>)
    returns (r: Result<ArticleData, string>)
    requires PreservesLength(translateTexts)
    ensures translateTexts(Flatten(data)).Err? ==> r == Err(translateTexts(Flatten(data)).error)
    ensures translateTexts(Flatten(data)).Ok? ==>
      r.Ok? && |Flatten(data)| <= |translateTexts(Flatten(data)).value|
      && r.value == Rebuilt(data, translateTexts(Flatten(data)).value, true)
  {
    var texts := CollectTexts(data);
    var translated := translateTexts(texts);
    if translated.Err? {
      return Err(translated.error);
    }
    var rebuilt := Rebuild(data, translated.value, true);
    r := Ok(rebuilt);
  }

  /** With a translator that returns its input the helper gives the article
    * back unchanged, images included. */
  lemma UntranslatedIdentity(a: ArticleData)
    ensures Rebuilt(a, Flatten(a), true) == a
  {
    RebuildKeepingImagesIdentity(a);
  }
}
