/**
 * The `renderArticle` background handler: pick the template by name (stored
 * templates first, the built-in default otherwise), compile it through the
 * shared cache, render the article, check the target tab, send the HTML to
 * the editor content script and turn its reply into a response.
 *
 * Storage, the template runtime, the tab lookup and the tab message are
 * parameters; `DEFAULT_TEMPLATE` (a long HTML literal) is the parameter
 * `defaultTemplate`.
 */
module RenderArticle {
  import opened Wrappers
  import opened Js
  import opened JsString
  import opened Article
  import opened ErrorHandler
  import opened Template
  import EditorInjector

  const DefaultTemplateName := "default"
  const WeChatHost := "mp.weixin.qq.com"
  const MissingData := "文章数据为空"
  const EmptyRender := "渲染结果为空"
  const MissingTab := "未找到目标标签页"
  const NotWeChat := "请在微信公众号编辑器中使用此功能"
  const RenderFailed := "渲染失败"

  // ---------------------------------------------------------------------------
  // Template selection

  /** One element of the stored `templates` array; `Missing` is a `null` or
    * `undefined` element, whose `name` cannot be read. */
  datatype StoredTemplate = Missing | Record(name: Value, content: string)

  /** What `storage.get('templates')` gives. */
  datatype Stored = ReadFailed | NotAnArray | Templates(records: seq<StoredTemplate>)

  /** `templates.find(t => t.name === templateName)`, a property read of a
    * missing element throwing. */
  function Find(records: seq<StoredTemplate>, name: string): (r: Result<Option<string>, string>)
    ensures r == Ok(None) <==> forall i :: 0 <= i < |records| ==> records[i].Record? && records[i].name != JStr(name)
    ensures r.Ok? && r.value.Some? ==>
      exists i :: 0 <= i < |records| && records[i] == Record(JStr(name), r.value.value)
        && forall j :: 0 <= j < i ==> records[j].Record? && records[j].name != JStr(name)
  {
    if records == [] then Ok(None)
    else match records[0]
      case Missing => Err("TypeError")
      case Record(n, content) =>
        if n == JStr(name) then Ok(Some(content))
        else
          var rest := Find(records[1..], name);
          assert forall i :: 1 <= i < |records| ==> records[i] == records[1..][i - 1];
          rest
  }

  /** The template source used: the first stored template with that name,
    * or the default when there is none, when the stored value is not an
    * array, or when reading or searching it fails. */
  function SelectTemplate(stored: Stored, name: string, defaultTemplate: string): string
  {
    match stored
    case Templates(records) =>
      (match Find(records, name)
       case Ok(Some(content)) => content
       case _ => defaultTemplate)
    case _ => defaultTemplate
  }

  /** A stored template with the name is used whenever the search finds
    * one; the default is used exactly when it does not. */
  lemma SelectTemplateChoice(stored: Stored, name: string, defaultTemplate: string)
    ensures stored.Templates? && Find(stored.records, name).Ok? && Find(stored.records, name).value.Some? ==>
      SelectTemplate(stored, name, defaultTemplate) == Find(stored.records, name).value.value
    ensures stored.Templates? && (Find(stored.records, name).Err? || Find(stored.records, name).value.None?) ==>
      SelectTemplate(stored, name, defaultTemplate) == defaultTemplate
    ensures !stored.Templates? ==> SelectTemplate(stored, name, defaultTemplate) == defaultTemplate
  {
  }

  // ---------------------------------------------------------------------------
  // The handler

  datatype Tab = Tab(url: Option<string>)

  /** How the tab message settled: rejected, or answered (`None` when the
    * content script gave no reply). */
  datatype TabAnswer = Rejected(error: Value) | Answered(reply: Option<EditorInjector.Reply>)

  /** The request body; `templateName` is `None` when it is `undefined`. */
  datatype Request = Request(data: Option<ArticleData>, templateName: Option<string>)

  /** The oracles the handler consults. */
  datatype World = World(
    stored: Stored,
    compileError: string -> Option<string>,
    render: (Compiled, ArticleData) -> Result<string, Value>,
    tab: Option<Tab>,
    answer: TabAnswer,
    defaultTemplate: string,
    development: bool)

  /** The handler's response, the HTML it sent to the tab (if any) and the
    * template cache afterwards. */
  datatype Outcome = Outcome(response: Response, sent: Option<string>, cache: map<string, Compiled>)

  function TemplateName(req: Request): string
  {
    if req.templateName.Some? then req.templateName.value else DefaultTemplateName
  }

  function TabUrlOk(tab: Tab): bool
  {
    tab.url.Some? && Includes(tab.url.value, WeChatHost)
  }

  /** The error thrown for an answer that is not a success. */
  function AnswerError(reply: Option<EditorInjector.Reply>): string
  {
    if reply.Some? && reply.value.error.Some? && reply.value.error.value != "" then reply.value.error.value
    else RenderFailed
  }

  function Reply(w: World, html: string, cache: map<string, Compiled>): Outcome
  {
    match w.answer
    case Rejected(e) => Outcome(CreateErrorResponse(e, DefaultMessage, UnknownError, w.development), Some(html), cache)
    case Answered(reply) =>
      if reply.Some? && reply.value.success then Outcome(SuccessResponse(JUndefined), Some(html), cache)
      else Outcome(ErrorFor(AnswerError(reply), w.development), Some(html), cache)
  }

  /** The handler, as a function of the cache before it and the oracles. */
  function HandleSpec(cache: map<string, Compiled>, req: Request, w: World): Outcome
  {
    if req.data.None? then Outcome(ErrorFor(MissingData, w.development), None, cache)
    else
      var name := TemplateName(req);
      var source := SelectTemplate(w.stored, name, w.defaultTemplate);
      var (compiled, cache1) := Lookup(cache, source, name, w.compileError);
      match compiled
      case Err(e) => Outcome(ErrorFor(e, w.development), None, cache1)
      case Ok(template) =>
        match w.render(template, req.data.value)
        case Err(e) => Outcome(CreateErrorResponse(e, DefaultMessage, UnknownError, w.development), None, cache1)
        case Ok(html) =>
          if html == "" then Outcome(ErrorFor(EmptyRender, w.development), None, cache1)
          else if w.tab.None? then Outcome(ErrorFor(MissingTab, w.development), None, cache1)
          else if !TabUrlOk(w.tab.value) then Outcome(ErrorFor(NotWeChat, w.development), None, cache1)
          else Reply(w, html, cache1)
  }

  // ---------------------------------------------------------------------------
  // What the handler promises

  /** Missing data is answered with an error before any template or tab
    * work: nothing is sent and the cache is untouched. */
  lemma MissingDataRejected(cache: map<string, Compiled>, req: Request, w: World)
    requires req.data.None?
    ensures HandleSpec(cache, req, w) == Outcome(ErrorFor(MissingData, w.development), None, cache)
  {
  }

  /** HTML reaches the tab only when there is data, the render is not empty
    * and the tab exists on a WeChat URL; what is sent is exactly the
    * rendered HTML of the selected template. */
  lemma SentOnlyToWeChat(cache: map<string, Compiled>, req: Request, w: World)
    ensures var o := HandleSpec(cache, req, w);
      o.sent.Some? ==>
        req.data.Some? && w.tab.Some? && TabUrlOk(w.tab.value) && o.sent.value != ""
        && var l := Lookup(cache, SelectTemplate(w.stored, TemplateName(req), w.defaultTemplate), TemplateName(req), w.compileError);
           l.0.Ok? && w.render(l.0.value, req.data.value) == Ok(o.sent.value)
  {
  }

  /** The response is a success exactly when the HTML was sent and the
    * content script answered with `success`; its data is `undefined`. */
  lemma SuccessIffAnswered(cache: map<string, Compiled>, req: Request, w: World)
    ensures var o := HandleSpec(cache, req, w);
      o.response.SuccessResponse? <==>
        o.sent.Some? && w.answer.Answered? && w.answer.reply.Some? && w.answer.reply.value.success
    ensures HandleSpec(cache, req, w).response.SuccessResponse? ==> HandleSpec(cache, req, w).response.data == JUndefined
  {
  }

  /** A negative or missing answer becomes an error carrying the script's
    * error text, or `渲染失败` when there is none. */
  lemma FailedAnswerMessage(cache: map<string, Compiled>, req: Request, w: World)
    requires HandleSpec(cache, req, w).sent.Some?
    requires w.answer.Answered? && !(w.answer.reply.Some? && w.answer.reply.value.success)
    ensures HandleSpec(cache, req, w).response.ErrorResponse?
    ensures HandleSpec(cache, req, w).response.message == JStr(AnswerError(w.answer.reply))
    ensures w.answer.reply.None? ==> HandleSpec(cache, req, w).response.message == JStr(RenderFailed)
  {
    var o := HandleSpec(cache, req, w);
    ErrorForMessage(AnswerError(w.answer.reply), w.development);
  }

  /** An undefined template name means `default`. */
  lemma DefaultNameUsed(req: Request)
    requires req.templateName.None?
    ensures TemplateName(req) == "default"
  {
  }

  /** `handler(req, res)`: the response sent and the HTML sent to the tab. */
  method Handle(cache: TemplateCache, req: Request, w: World) returns (response: Response, sent: Option<string>)
    modifies cache
    ensures HandleSpec(old(cache.entries), req, w) == Outcome(response, sent, cache.entries)
  {
    sent := None;
    if req.data.None? {
      return ErrorFor(MissingData, w.development), None;
    }
    var name := if req.templateName.Some? then req.templateName.value else DefaultTemplateName;
    var source := w.defaultTemplate;
    if w.stored.Templates? {
      var found := Find(w.stored.records, name);
      if found.Ok? && found.value.Some? {
        source := found.value.value;
      }
    }
    var compiled := cache.GetCompiledTemplate(source, name, w.compileError);
    if compiled.Err? {
      return ErrorFor(compiled.error, w.development), None;
    }
    var rendered := w.render(compiled.value, req.data.value);
    if rendered.Err? {
      return CreateErrorResponse(rendered.error, DefaultMessage, UnknownError, w.development), None;
    }
    var html := rendered.value;
    if html == "" {
      return ErrorFor(EmptyRender, w.development), None;
    }
    if w.tab.None? {
      return ErrorFor(MissingTab, w.development), None;
    }
    if !TabUrlOk(w.tab.value) {
      return ErrorFor(NotWeChat, w.development), None;
    }
    sent := Some(html);
    match w.answer
    case Rejected(e) =>
      response := CreateErrorResponse(e, DefaultMessage, UnknownError, w.development);
    case Answered(reply) =>
      if reply.Some? && reply.value.success {
        response := SuccessResponse(JUndefined);
      } else {
        response := ErrorFor(AnswerError(reply), w.development);
      }
  }
}
