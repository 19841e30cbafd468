/**
 * The sandboxed renderer page: on a `message` event carrying a template
 * source and an article it builds the template's view of the article and
 * posts either the rendered HTML or a `渲染失败: <reason>` text back to its
 * parent. Handlebars itself (compile plus render) and the HTML parser's
 * `parsererror` test are parameters.
 */
module SandboxRender {
  import opened Wrappers
  import opened Article

  // ---------------------------------------------------------------------------
  // The view handed to the template

  datatype TemplateItem = TemplateItem(content: string, children: seq<string>, img: Option<string>)
  datatype TemplateStep = TemplateStep(title: string, stepItems: seq<TemplateItem>)
  datatype HistoryEntry = HistoryEntry(title: string, url: string)
  datatype TemplateData = TemplateData(guide: string, profile: string, steps: seq<TemplateStep>,
                                       history: seq<HistoryEntry>)

  function ToTemplateItem(it: Item): (t: TemplateItem)
    ensures t.content == it.content && t.children == it.children && t.img == it.image
  {
    TemplateItem(it.content, it.children, it.image)
  }

  function ToTemplateStep(st: Step): (t: TemplateStep)
    ensures t.title == st.title && |t.stepItems| == |st.items|
    ensures forall j :: 0 <= j < |st.items| ==> t.stepItems[j] == ToTemplateItem(st.items[j])
  {
    TemplateStep(st.title, seq(|st.items|, j requires 0 <= j < |st.items| => ToTemplateItem(st.items[j])))
  }

  /** `guide` is the title, the profile is kept, every step and item is kept
    * in order with `img` taken from `image`, and `history` is empty. */
  function ToTemplateData(a: ArticleData): (t: TemplateData)
    ensures t.guide == a.title && t.profile == a.profile && t.history == []
    ensures |t.steps| == |a.steps|
    ensures forall i :: 0 <= i < |a.steps| ==> t.steps[i] == ToTemplateStep(a.steps[i])
  {
    TemplateData(a.title, a.profile,
                 seq(|a.steps| , i requires 0 <= i < |a.steps| => ToTemplateStep(a.steps[i])), [])
  }

  /** The inverse reading of a view, used to show that the mapping loses nothing. */
  function FromTemplateStep(t: TemplateStep): Step
  {
    Step(t.title, seq(|t.stepItems|, j requires 0 <= j < |t.stepItems| =>
      Item(t.stepItems[j].content, t.stepItems[j].children, t.stepItems[j].img)))
  }

  function FromTemplateData(t: TemplateData): ArticleData
  {
    ArticleData(t.guide, t.profile, seq(|t.steps|, i requires 0 <= i < |t.steps| => FromTemplateStep(t.steps[i])))
  }

  lemma StepRoundTrip(st: Step)
    ensures FromTemplateStep(ToTemplateStep(st)) == st
  {
    var back := FromTemplateStep(ToTemplateStep(st));
    assert |back.items| == |st.items|;
    forall j | 0 <= j < |st.items|
      ensures back.items[j] == st.items[j]
    {
      var it := st.items[j];
      assert back.items[j] == Item(it.content, it.children, it.image);
    }
  }

  /** The view keeps every field of the article: reading it back gives the
    * article again. */
  lemma TemplateDataRoundTrip(a: ArticleData)
    ensures FromTemplateData(ToTemplateData(a)) == a
  {
    var back := FromTemplateData(ToTemplateData(a));
    assert |back.steps| == |a.steps|;
    forall i | 0 <= i < |a.steps|
      ensures back.steps[i] == a.steps[i]
    {
      StepRoundTrip(a.steps[i]);
    }
  }

  // ---------------------------------------------------------------------------
  // The message listener

  const EmptyInput := "模板或数据为空"
  const EmptyResult := "渲染结果为空"
  const InvalidResult := "渲染结果格式无效"
  const FailurePrefix := "渲染失败: "

  datatype Posted = Html(html: string) | RenderFailed(reason: string)

  /** The string actually posted to the parent window. */
  function PostedText(p: Posted): (s: string)
    ensures p.RenderFailed? ==> s == FailurePrefix + p.reason
    ensures p.Html? ==> s == p.html
  {
    match p
    case Html(h) => h
    case RenderFailed(reason) => FailurePrefix + reason
  }

  /** One message: `temp` is the template source (`""` when missing, as
    * falsy), `data` the article (`None` when missing); `render` compiles and
    * runs the template, failing with the thrown message, and
    * `hasParserError` says whether the parsed result has a `parsererror`. */
  function Listen(temp: string, data: Option<ArticleData>,
                  render: (string, TemplateData) -> Result<string, string>,
                  hasParserError: string -> bool): Posted
  {
    if temp == "" || data.None? then RenderFailed(EmptyInput)
    else
      match render(temp, ToTemplateData(data.value))
      case Err(message) => RenderFailed(message)
      case Ok(html) =>
        if html == "" then RenderFailed(EmptyResult)
        else if hasParserError(html) then RenderFailed(InvalidResult)
        else Html(html)
  }

  /** HTML is posted exactly when both inputs are present and the render
    * gives a non-empty, parsable result, and it is that result. */
  lemma ListenPostsHtml(temp: string, data: Option<ArticleData>,
                        render: (string, TemplateData) -> Result<string, string>,
                        hasParserError: string -> bool)
    ensures Listen(temp, data, render, hasParserError).Html?
      <==> temp != "" && data.Some? && render(temp, ToTemplateData(data.value)).Ok?
           && render(temp, ToTemplateData(data.value)).value != ""
           && !hasParserError(render(temp, ToTemplateData(data.value)).value)
    ensures Listen(temp, data, render, hasParserError).Html? ==>
      Listen(temp, data, render, hasParserError).html == render(temp, ToTemplateData(data.value)).value
  {
  }

  /** A missing template or article is reported before the template is
    * rendered at all, whatever the renderer would do. */
  lemma MissingInputFails(temp: string, data: Option<ArticleData>,
                          render: (string, TemplateData) -> Result<string, string>,
                          render2: (string, TemplateData) -> Result<string, string>,
                          hasParserError: string -> bool)
    requires temp == "" || data.None?
    ensures PostedText(Listen(temp, data, render, hasParserError)) == FailurePrefix + EmptyInput
    ensures Listen(temp, data, render, hasParserError) == Listen(temp, data, render2, hasParserError)
  {
  }
}
