/**
 * The popup's article service: each call sends a message to a background
 * handler and unwraps the reply, plus the stricter `validateArticleData`.
 * Replies are JavaScript values; `reply` is `Err(e)` when the message
 * itself is rejected with `e`.
 */
module ArticleService {
  import opened Wrappers
  import opened Js
  import opened Article
  import ErrorHandler
  import StartTranslate

  const ListFailed := "获取文章列表失败"
  const SpiderEmpty := "爬虫返回数据为空"

  /** `getArticleList()`: a rejected message passes through, an unsuccessful
    * reply throws an error with a non-empty message, and a successful one
    * gives its `data` array (or `[]` when `data` is not an array). */
  function GetArticleList(reply: Result<Value, Value>): (r: Result<seq<Value>, Failure>)
    ensures reply.Err? ==> r == Err(Thrown(reply.error))
    ensures reply.Ok? && r.Err? ==> r.error.ErrorWith? && Truthy(r.error.message)
    ensures r.Ok? <==> reply.Ok? && Truthy(Field(reply.value, "success"))
    ensures r.Ok? && Field(reply.value, "data").JArray? ==> r.value == Field(reply.value, "data").elems
    ensures r.Ok? && !Field(reply.value, "data").JArray? ==> r.value == []
  {
    match reply
    case Err(e) => Err(Thrown(e))
    case Ok(response) =>
      if !Truthy(Field(response, "success")) then
        Err(ErrorWith(Or(Field(Field(response, "error"), "message"), JStr(ListFailed))))
      else
        var data := Field(response, "data");
        Ok(if data.JArray? then data.elems else [])
  }

  /** The `get-local-articles` handler replies `{ records }`, with no
    * `success` field, so every list it sends is reported as a failure. */
  lemma GetArticleListRejectsRecords(records: Value)
    ensures GetArticleList(Ok(JObject(map["records" := records]))) == Err(ErrorWith(JStr(ListFailed)))
  {
  }

  /** The evidently intended check, reading the `records` field the handler
    * fills. */
  function GetArticleListByRecords(reply: Result<Value, Value>): (r: Result<seq<Value>, Failure>)
    ensures reply.Err? ==> r == Err(Thrown(reply.error))
    ensures reply.Ok? && r.Err? ==> r.error.ErrorWith? && Truthy(r.error.message)
  {
    match reply
    case Err(e) => Err(Thrown(e))
    case Ok(response) =>
      var records := Field(response, "records");
      if !records.JArray? then
        Err(ErrorWith(Or(Field(Field(response, "error"), "message"), JStr(ListFailed))))
      else Ok(records.elems)
  }

  /** The corrected check returns exactly the handler's records, and still
    * throws the message of an error reply. */
  lemma GetArticleListByRecordsMatchesHandler(xs: seq<Value>, e: ErrorHandler.Response)
    ensures GetArticleListByRecords(Ok(JObject(map["records" := JArray(xs)]))) == Ok(xs)
    ensures e.ErrorResponse? && Truthy(e.message) ==>
      GetArticleListByRecords(Ok(ErrorHandler.ToJs(e))) == Err(ErrorWith(e.message))
  {
  }

  /** The check shared by `getArticle`, `deleteArticle`, `saveArticle`,
    * `spiderArticle`, `translateArticle` and `renderArticle`: a reply whose
    * `success` is falsy becomes `new Error(response.error.message)`, which is
    * itself a TypeError when the reply carries no `error` object. */
  function Unwrap(reply: Result<Value, Value>): Result<Value, Failure>
  {
    match reply
    case Err(e) => Err(Thrown(e))
    case Ok(response) =>
      if Nullish(response) then Err(TypeErrorReading("success"))
      else if !Truthy(Field(response, "success")) then
        var error := Field(response, "error");
        if Nullish(error) then Err(TypeErrorReading("message")) else Err(ErrorWith(Field(error, "message")))
      else Ok(Field(response, "data"))
  }

  /** A reply that says `success` and carries `data` unwraps to that data;
    * one that carries an error object unwraps to its message. */
  lemma UnwrapReplies(data: Value, message: Value)
    ensures Unwrap(Ok(JObject(map["success" := JBool(true), "data" := data]))) == Ok(data)
    ensures Unwrap(Ok(JObject(map["success" := JBool(false), "error" := JObject(map["message" := message])])))
         == Err(ErrorWith(message))
  {
  }

  /** `spiderArticle(url, type)`: the data of a successful reply, which
    * must be truthy; every other outcome is the shared check's error or,
    * for falsy data, the empty-result error. */
  function SpiderArticle(reply: Result<Value, Value>): (r: Result<Value, Failure>)
    ensures r.Ok? <==> Unwrap(reply).Ok? && Truthy(Unwrap(reply).value)
    ensures r.Ok? ==> r == Unwrap(reply)
    ensures r.Err? && Unwrap(reply).Ok? ==> r == Err(ErrorWith(JStr(SpiderEmpty)))
    ensures Unwrap(reply).Err? ==> r == Unwrap(reply)
  {
    match Unwrap(reply)
    case Err(e) => Err(e)
    case Ok(data) => if !Truthy(data) then Err(ErrorWith(JStr(SpiderEmpty))) else Ok(data)
  }

  /** The `articleSpider` handler replies `{ message: data }`, with no
    * `success` field and no `error` object, so every scrape it answers
    * ends in a TypeError. */
  lemma SpiderArticleRejectsMessage(data: Value)
    ensures SpiderArticle(Ok(JObject(map["message" := data]))) == Err(TypeErrorReading("message"))
  {
  }

  /** The evidently intended check, reading the `message` field the handler
    * fills. */
  function SpiderArticleByMessage(reply: Result<Value, Value>): (r: Result<Value, Failure>)
    ensures reply.Err? ==> r == Err(Thrown(reply.error))
    ensures r.Ok? ==> Truthy(r.value)
  {
    match reply
    case Err(e) => Err(Thrown(e))
    case Ok(response) =>
      if Nullish(response) then Err(TypeErrorReading("message"))
      else
        var data := Field(response, "message");
        if !Truthy(data) then Err(ErrorWith(JStr(SpiderEmpty))) else Ok(data)
  }

  /** The corrected check returns whatever non-empty data the handler sends. */
  lemma SpiderArticleByMessageMatchesHandler(data: Value)
    ensures Truthy(data) ==> SpiderArticleByMessage(Ok(JObject(map["message" := data]))) == Ok(data)
    ensures !Truthy(data) ==> SpiderArticleByMessage(Ok(JObject(map["message" := data]))) == Err(ErrorWith(JStr(SpiderEmpty)))
  {
  }

  /** `translateArticle(data)`: the data of a successful reply, which must not
    * be nullish because the success log reads its `title`. */
  function TranslateArticle(reply: Result<Value, Value>): (r: Result<Value, Failure>)
    ensures r.Ok? <==> Unwrap(reply).Ok? && !Nullish(Unwrap(reply).value)
    ensures r.Ok? ==> r == Unwrap(reply)
    ensures r.Err? && Unwrap(reply).Ok? ==> r == Err(TypeErrorReading("title"))
    ensures Unwrap(reply).Err? ==> r == Unwrap(reply)
  {
    match Unwrap(reply)
    case Err(e) => Err(e)
    case Ok(data) => if Nullish(data) then Err(TypeErrorReading("title")) else Ok(data)
  }

  /** The `startTranslate` handler replies `{ message }`, with no `success`
    * field, so every translation it answers ends in a TypeError. */
  lemma TranslateArticleRejectsMessage(message: Value)
    ensures TranslateArticle(Ok(JObject(map["message" := message]))) == Err(TypeErrorReading("message"))
  {
  }

  /** The evidently intended check, reading the `message` field the handler
    * fills; the success log still reads its `title`. */
  function TranslateArticleByMessage(reply: Result<Value, Value>): (r: Result<Value, Failure>)
    ensures reply.Err? ==> r == Err(Thrown(reply.error))
    ensures r.Ok? ==> !Nullish(r.value)
  {
    match reply
    case Err(e) => Err(Thrown(e))
    case Ok(response) =>
      if Nullish(response) then Err(TypeErrorReading("message"))
      else
        var data := Field(response, "message");
        if Nullish(data) then Err(TypeErrorReading("title")) else Ok(data)
  }

  /** The corrected check returns the handler's message whenever there is one. */
  lemma TranslateArticleByMessageMatchesHandler(message: Value)
    ensures !Nullish(message) ==> TranslateArticleByMessage(Ok(JObject(map["message" := message]))) == Ok(message)
    ensures Nullish(message) ==> TranslateArticleByMessage(Ok(JObject(map["message" := message]))) == Err(TypeErrorReading("title"))
  {
  }

  /** The body `translateArticle` sends: `{ data, serviceType }`. */
  function TranslateRequest(data: Value, serviceType: Value): Value
  {
    JObject(map["data" := data, "serviceType" := serviceType])
  }

  /** The `startTranslate` handler reads `text` from the body, which
    * `translateArticle` never sends: the chat is opened with `undefined`
    * content, and once it answers, `text.length` throws before any polling. */
  lemma TranslateRequestLosesText(data: Value, serviceType: Value, stringify: Value -> string,
                                  chat: Value -> Result<Value, Value>, polls: seq<Result<Value, Value>>,
                                  list: Result<Value, Value>, duration: int)
    ensures var h := StartTranslate.Handle(Field(TranslateRequest(data, serviceType), "text"),
                                           stringify, chat, polls, list, duration);
      h.content == JUndefined && h.outcome.Threw? && h.waits == []
      && (chat(JUndefined).Ok? ==> h.outcome.failure == TypeErrorReading("length"))
  {
  }

  /** The evidently intended body carries the article as `text`. */
  function TranslateRequestByText(data: Value): Value
  {
    JObject(map["text" := data])
  }

  /** With the article sent as `text`, the chat gets the article (stringified
    * when it is an object), and a chat that answers with a conversation leads
    * to polling instead of the `length` throw. */
  lemma TranslateRequestByTextReachesBot(data: Value, stringify: Value -> string,
                                         chat: Value -> Result<Value, Value>, polls: seq<Result<Value, Value>>,
                                         list: Result<Value, Value>, duration: int)
    requires !Nullish(data)
    ensures var h := StartTranslate.Handle(Field(TranslateRequestByText(data), "text"),
                                           stringify, chat, polls, list, duration);
      (IsObjectType(data) ==> h.content == JStr(stringify(data)))
      && (!IsObjectType(data) ==> h.content == data)
      && (chat(h.content).Ok? && !Nullish(chat(h.content).value)
          && !Nullish(Field(chat(h.content).value, "data")) ==>
            h.waits == StartTranslate.Poll(polls, list, duration, 1).waits
            && (h.outcome.Polling? <==> StartTranslate.Poll(polls, list, duration, 1).end.StillPolling?))
  {
  }

  /** An error reply built by the background helpers reaches every caller of
    * the shared check as an error carrying the reply's message. */
  lemma ErrorReplyUnwraps(e: ErrorHandler.Response)
    requires e.ErrorResponse?
    ensures Unwrap(Ok(ErrorHandler.ToJs(e))) == Err(ErrorWith(e.message))
  {
  }

  /** In particular a network error surfaces with a non-empty message. */
  lemma NetworkErrorReachesCaller(error: Value, development: bool)
    ensures var u := Unwrap(Ok(ErrorHandler.ToJs(ErrorHandler.HandleNetworkError(error, development))));
      u.Err? && u.error.ErrorWith? && Truthy(u.error.message)
  {
    ErrorReplyUnwraps(ErrorHandler.HandleNetworkError(error, development));
  }

  /** `renderArticle(data, templateName, tabId)` as written: it completes only
    * when the reply has a truthy `success`. */
  function RenderArticle(reply: Result<Value, Value>): (r: Result<(), Failure>)
    ensures r.Ok? <==> Unwrap(reply).Ok?
    ensures r.Err? ==> Unwrap(reply) == Err(r.error)
  {
    match Unwrap(reply)
    case Err(e) => Err(e)
    case Ok(_) => Ok(())
  }

  /** The render handler answers through `createSuccessResponse`, whose
    * object has `status: 'success'` and no `success` field, so the service
    * reports every successful render as a TypeError. */
  lemma RenderArticleRejectsSuccess()
    ensures RenderArticle(Ok(ErrorHandler.ToJs(ErrorHandler.SuccessResponse(JUndefined))))
         == Err(TypeErrorReading("message"))
  {
  }

  /** The evidently intended check, reading the reply shape the handlers
    * build: `status === 'success'` completes, anything else throws the
    * reply's error message. */
  function RenderArticleByStatus(reply: Result<Value, Value>): (r: Result<(), Failure>)
    ensures reply.Ok? && Field(reply.value, "status") == JStr("success") ==> r == Ok(())
    ensures reply.Err? ==> r == Err(Thrown(reply.error))
  {
    match reply
    case Err(e) => Err(Thrown(e))
    case Ok(response) =>
      if Field(response, "status") == JStr("success") then Ok(())
      else
        var error := Field(response, "error");
        if Nullish(error) then Err(TypeErrorReading("message")) else Err(ErrorWith(Field(error, "message")))
  }

  /** The corrected check accepts every success reply and turns every error
    * reply into an error carrying the reply's message. */
  lemma RenderArticleByStatusMatchesHandler(r: ErrorHandler.Response)
    ensures r.SuccessResponse? ==> RenderArticleByStatus(Ok(ErrorHandler.ToJs(r))) == Ok(())
    ensures r.ErrorResponse? ==> RenderArticleByStatus(Ok(ErrorHandler.ToJs(r))) == Err(ErrorWith(r.message))
  {
  }

  // ---------------------------------------------------------------------------
  // validateArticleData

  predicate NonEmptyString(v: Value)
  {
    v.JStr? && v.s != ""
  }

  predicate StrictItem(item: Value)
  {
    Truthy(item) && IsObjectType(item) && NonEmptyString(Field(item, "content")) && Field(item, "children").JArray?
  }

  predicate StrictStep(step: Value)
  {
    Truthy(step) && IsObjectType(step) && NonEmptyString(Field(step, "title")) && Field(step, "step_items").JArray?
    && forall j :: 0 <= j < |Field(step, "step_items").elems| ==> StrictItem(Field(step, "step_items").elems[j])
  }

  /** `validateArticleData(data)`: non-empty title, profile, step titles and
    * item contents; the element types of `children` are not looked at. */
  predicate ValidateArticleData(data: Value)
  {
    Truthy(data) && IsObjectType(data)
    && NonEmptyString(Field(data, "title")) && NonEmptyString(Field(data, "profile"))
    && Field(data, "steps").JArray?
    && forall i :: 0 <= i < |Field(data, "steps").elems| ==> StrictStep(Field(data, "steps").elems[i])
  }

  /** Every title, profile, step title and item content is non-empty. */
  predicate NonEmptyTexts(a: ArticleData)
  {
    a.title != "" && a.profile != ""
    && forall i :: 0 <= i < |a.steps| ==>
      a.steps[i].title != ""
      && forall j :: 0 <= j < |a.steps[i].items| ==> a.steps[i].items[j].content != ""
  }

  lemma StrictEncodedItem(it: Item)
    ensures StrictItem(EncodeItem(it)) <==> it.content != ""
  {
  }

  lemma StrictEncodedStep(st: Step)
    ensures StrictStep(EncodeStep(st)) <==> st.title != "" && forall j :: 0 <= j < |st.items| ==> st.items[j].content != ""
  {
    var items := EncodeItems(st.items);
    assert Field(EncodeStep(st), "step_items").elems == items;
    forall j | 0 <= j < |st.items| ensures StrictItem(items[j]) <==> st.items[j].content != "" {
      StrictEncodedItem(st.items[j]);
    }
  }

  /** On articles, the strict check accepts exactly those with no empty text
    * in its checked fields. */
  lemma ValidateEncodedArticle(a: ArticleData)
    ensures ValidateArticleData(Encode(a)) <==> NonEmptyTexts(a)
  {
    var steps := EncodeSteps(a.steps);
    assert Field(Encode(a), "steps").elems == steps;
    forall i | 0 <= i < |a.steps|
      ensures StrictStep(steps[i]) <==>
        (a.steps[i].title != "" && forall j :: 0 <= j < |a.steps[i].items| ==> a.steps[i].items[j].content != "")
    {
      StrictEncodedStep(a.steps[i]);
    }
  }

  /** Unlike `validateData`, the strict check lets non-string child lines through. */
  lemma StrictIgnoresChildTypes()
    ensures ValidateArticleData(JObject(map[
      "title" := JStr("t"), "profile" := JStr("p"),
      "steps" := JArray([JObject(map["title" := JStr("s"), "step_items" := JArray([
        JObject(map["content" := JStr("c"), "children" := JArray([JNum(1)])])])])])]))
  {
    var item := JObject(map["content" := JStr("c"), "children" := JArray([JNum(1)])]);
    assert StrictItem(item);
    var step := JObject(map["title" := JStr("s"), "step_items" := JArray([item])]);
    assert StrictStep(step);
  }
}
