# Article auto-template extension, modelled in Dafny

The Chrome extension scrapes an article from a supported site (WeChat
official-account pages and wikiHow). It flattens the article's texts and
translates them in batches through Google or a Coze workflow, then rebuilds
the article. It renders the article with a Handlebars template in a sandbox
page and injects the HTML into the WeChat editor of the current tab. It also
caches articles by URL and keeps a bounded in-memory log.

This project models the sequential logic behind those steps:

- the editor probe and update retry of the content script, and its message
  reply;
- the render handler's guard chain;
- the article flatten/rebuild used for batch translation, and the two
  structural validators;
- the HTML filters and the `boldFirstSentence` helper;
- the template cache, the logger and the request hook with its retry counter;
- the translate adapter, the translate manager, and the Google and Coze
  translators;
- the article cache handlers and the Coze chat polling handler;
- the response shaping helpers, and the two `processArticle` state machines.

Each module follows one source file. Code that mutates state is modelled as
a class, with a method proved equal to a specification function. Pure code
is modelled as functions and lemmas. Network, storage, DOM, clock and
Handlebars calls are parameters of the operations that use them.

`filterReference` and `stripHTMLTags` exist twice, in sandboxes/mpWixin.ts
and popup/index.tsx, with the same regular expressions. `boldFirstSentence`
exists in sandboxes/mpWixin.ts and utils/template.ts. Each is modelled once:
`HtmlFilters` and `Template.BoldFirstSentence`.

Shared helpers:

- `wrappers.dfy`: `Option` and `Result`;
- `js_string.dfy`: JavaScript `trim`, `includes` and single `replace`;
- `js_value.dfy`: dynamically typed values, truthiness, property reads and
  the failures an operation throws;
- `article.dfy`: the article data and its flatten/rebuild.

## Model

| member | source | states |
|---|---|---|
| JsString.TrimTrimmed | utils/translate/google.ts:51 | `trim` leaves no white space at either end, and what it returns is a slice of the input with only white space cut off. |
| JsString.BlankIffAllSpace | utils/translate/adapter.ts:83-85 | `!text?.trim()` holds exactly for a text made only of white space. |
| JsString.IncludesIff | popup/hooks/useArticleProcessor.ts:17-21 | `includes` holds exactly when the substring occurs at some position. |
| JsString.ReplaceFirstAbsent | utils/api.ts:154-160 | Replacing a substring that does not occur leaves the string unchanged. |
| JsString.SubstituteLiteral | utils/api.ts:157 | A replacement without `$` is inserted as it stands. |
| JsString.SubstitutePatterns | utils/api.ts:157 | `$$` gives `$`, `$&` the matched text, `` $` `` the text before it and `$'` the text after it. A lone `$`, or `$` before any other character, stays literal. |
| JsString.ReplaceFirstLiteral | utils/api.ts:157 | With a replacement free of `$`, only the first occurrence is replaced by it, and the text around it is kept. |
| JsString.ReplaceFirstByMatch | utils/api.ts:157 | Replacing by `$&` puts the match back, so the string is unchanged. |
| Js.TrimValue | utils/translate/coze.ts:97-100 | Calling `trim` on a string trims it; calling it on any other value throws. |
| Article.FlattenLength | popup/hooks/useArticleProcessor.ts:99-111 | The flattened list has 2 texts, plus one per step, one per item and one per child line. |
| Article.CollectTexts | popup/hooks/useArticleProcessor.ts:99-111 | The push loop produces exactly `Flatten(a)`: title, profile, then each step's title followed by each item's content and children, in document order. |
| Article.PushItemTexts | popup/hooks/useArticleProcessor.ts:107-110 | The item loop appends each item's content and then its children, in order. |
| Article.Rebuild | popup/hooks/useArticleProcessor.ts:129-147 | The `textIndex` loop produces exactly `Rebuilt(a, ts, keepImage)`: texts are read in the order they were flattened. |
| Article.RebuildItems | popup/hooks/useArticleProcessor.ts:135-145 | The item loop gives the items rebuilt from the texts at the running index, and moves the index past all of them. |
| Article.RebuildItem | popup/hooks/useArticleProcessor.ts:136-139 | One item takes its content at `textIndex` and the next `children.length` texts as its children. |
| Article.RebuildPlacesTexts | popup/hooks/useArticleProcessor.ts:133-145 | The rebuilt article has the input's shape, and its flattening is the prefix of the translations that was consumed. |
| Article.RebuildFlattenIdentity | popup/hooks/useArticleProcessor.ts:129-147 | Rebuilding from the untranslated list gives back the article, with its images kept or removed. |
| Article.RebuildKeepingImagesIdentity | popup/hooks/useArticleProcessor.ts:129-147 | The hook's rebuild (which keeps `image`) is the identity on untranslated texts. |
| ArticleUtils.ValidateDataAccepts | popup/utils/articleUtils.ts:20-37 | `validateData` answers true exactly for the loose article shape: string title and profile, array steps, string step titles, array items, string contents and all-string children. |
| ArticleUtils.NullStepThrows | popup/utils/articleUtils.ts:27-32 | After steps and items that pass, a `null` step, or a `null` item inside a well-shaped step, throws a TypeError (reading `title` or `content`) instead of answering false. |
| ArticleUtils.EncodedArticleValid | popup/utils/articleUtils.ts:20-37 | Every well-formed article value passes `validateData`. |
| ArticleUtils.TranslateArticleData | popup/utils/articleUtils.ts:39-104 | A failed translation is rethrown. Otherwise the result is the rebuild of the flattened texts with the images dropped. |
| ArticleUtils.UntranslatedRoundTrip | popup/utils/articleUtils.ts:80-94 | With an identity translator the utility returns the article minus its images. |
| ArticleService.GetArticleList | services/articleService.ts:45-55 | A rejected message passes through. The call succeeds exactly when `success` is truthy, and then gives `data` when it is an array, else `[]`. An unsuccessful reply throws an error with a non-empty message. |
| ArticleService.GetArticleListRejectsRecords | background/messages/get-local-articles.ts:19-21 | The handler's `{records}` reply, whatever it holds, is reported as the failure `获取文章列表失败`. |
| ArticleService.GetArticleListByRecords | services/articleService.ts:45-55 | The corrected check: a rejected message passes through, and any other failure carries a non-empty message. |
| ArticleService.GetArticleListByRecordsMatchesHandler | background/messages/get-local-articles.ts:19-21 | The corrected check returns exactly the handler's records, and an error reply's message is thrown. |
| ArticleService.UnwrapReplies | services/articleService.ts:93-107 | A successful reply gives its data; an unsuccessful reply throws its error message. |
| ArticleService.SpiderArticle | services/articleService.ts:181-196 | The scrape succeeds exactly when the shared check gives truthy data, and then returns it. Falsy data throws `爬虫返回数据为空`; the shared check's errors pass through. |
| ArticleService.SpiderArticleRejectsMessage | background/messages/articleSpider.ts:17-19 | The handler's `{message: data}` reply, whatever the data, ends in a TypeError reading `message`. |
| ArticleService.SpiderArticleByMessage | services/articleService.ts:181-196 | The corrected check: a rejected message passes through, and what it returns is always truthy. |
| ArticleService.SpiderArticleByMessageMatchesHandler | background/messages/articleSpider.ts:17-19 | The corrected check returns the handler's data when truthy, and throws `爬虫返回数据为空` otherwise. |
| ArticleService.TranslateArticle | services/articleService.ts:218-232 | The call succeeds exactly when the shared check gives non-nullish data, and then returns it. Nullish data throws a TypeError reading `title`; the shared check's errors pass through. |
| ArticleService.TranslateArticleRejectsMessage | background/messages/startTranslate.ts:140-142 | The handler's `{message}` reply, whatever the message, ends in a TypeError reading `message`. |
| ArticleService.TranslateArticleByMessage | services/articleService.ts:218-232 | The corrected check: a rejected message passes through, and what it returns is never nullish. |
| ArticleService.TranslateArticleByMessageMatchesHandler | background/messages/startTranslate.ts:140-142 | The corrected check returns the handler's message when it is not nullish, and otherwise throws reading `title`. |
| ArticleService.TranslateRequestLosesText | services/articleService.ts:213-216 | `translateArticle` sends `{data, serviceType}` but the handler reads `text` (background/messages/startTranslate.ts:18, 51): the chat gets `undefined` content, the handler never replies, and once the chat answers `text.length` throws before any polling. |
| ArticleService.TranslateRequestByTextReachesBot | background/messages/startTranslate.ts:18-56 | With the article sent as `text`, the chat gets it (stringified when an object), and a chat that answers with a conversation leads to polling rather than the `length` throw. |
| ArticleService.ErrorReplyUnwraps | services/articleService.ts:93-107 | Every error reply the background helpers build unwraps to an error carrying the reply's message. |
| ArticleService.NetworkErrorReachesCaller | utils/errorHandler.ts:64-73 | A network error reply reaches the service's caller as an error with a non-empty message. |
| ArticleService.RenderArticleRejectsSuccess | services/articleService.ts:247-254 | The check as written rejects the success reply the render handler sends. |
| ArticleService.RenderArticleByStatusMatchesHandler | services/articleService.ts:247-254 | The corrected check accepts every success reply, and turns every error reply into an error with the reply's message. |
| ArticleService.ValidateEncodedArticle | services/articleService.ts:263-346 | The strict validator accepts an article exactly when its title, profile, step titles and item contents are all non-empty. |
| ArticleService.RenderArticle | services/articleService.ts:247-254 | The check as written succeeds exactly when the reply unwraps to success; otherwise it fails with the unwrapped error. |
| ArticleService.RenderArticleByStatus | services/articleService.ts:247-254 | A reply with status `success` is accepted; a rejected message call fails with what it threw. |
| ArticleService.StrictIgnoresChildTypes | services/articleService.ts:321-346 | The strict validator does not check the element types of `children`. |
| HtmlFilters.RemoveShrinks | sandboxes/mpWixin.ts:24-26 | A global replacement by `""` never makes the text longer. |
| HtmlFilters.FilterReferenceWithoutSup | sandboxes/mpWixin.ts:7-30 | Text that contains no `<sup` is returned unchanged. |
| HtmlFilters.FilterReferenceSpan | sandboxes/mpWixin.ts:24-26 | A `<sup…>…</sup>` span is removed together with its content: the text before it, which holds no `<sup`, is kept (tags such as `<p>` included) and the text after it is filtered on its own. This holds for any attributes without `>` and any content in which no `</sup>` starts before the closing one. |
| HtmlFilters.FilterReferenceUnclosed | sandboxes/mpWixin.ts:24-26 | Text with no `</sup>` is returned unchanged, however many `<sup` it holds. |
| HtmlFilters.RemoveTagsLeavesNoTag | sandboxes/mpWixin.ts:52-55 | After the all-tags replacement, every `<` left is the last character or is directly followed by `>`. |
| HtmlFilters.StripAllLeavesNoTag | sandboxes/mpWixin.ts:38-56 | `stripHTMLTags` without a tag list leaves no tag. |
| HtmlFilters.StripPlainText | sandboxes/mpWixin.ts:38-56 | Text without `<` passes through unchanged, with or without a tag list. |
| HtmlFilters.StripAllExample | sandboxes/mpWixin.ts:53-55 | `<b>x</b>` becomes `x`. |
| HtmlFilters.StripNamedExample | sandboxes/mpWixin.ts:45-50 | Listed names match as prefixes and without regard to case. |
| HtmlFilters.AlternativeMatchSome | sandboxes/mpWixin.ts:47-50 | The alternation of names matches at a position exactly when one of the names occurs there, compared without case, with a `>` somewhere after it. |
| HtmlFilters.AlternativeMatchEnd | sandboxes/mpWixin.ts:47-50 | The first name that matches decides the match, which ends right after the first `>` following that name. |
| HtmlFilters.NamedTagMatchIs | sandboxes/mpWixin.ts:47-50 | The tag-list pattern matches at `p` exactly when `p` holds `<` followed by a listed name, directly or after a `/`, with a `>` later on. |
| HtmlFilters.NamedTagMatchEnd | sandboxes/mpWixin.ts:47-50 | When `</` is followed by a listed name, the match runs through the first `>` after the first name matching after the slash. |
| HtmlFilters.NamedTagMatchOpenEnd | sandboxes/mpWixin.ts:47-50 | Otherwise the match runs through the first `>` after the first name matching right after the `<`. |
| HtmlFilters.StripNamedUnchanged | sandboxes/mpWixin.ts:38-56 | Text with no `</sup>`, in which no `<` or `</` is followed by a listed name, passes through the tag-list filter unchanged. |
| Template.PiecesJoin | sandboxes/mpWixin.ts:65 | The split pieces, joined by single spaces, give the text with each white-space run after `.`, `!` or `?` squeezed to one space. |
| Template.BoldFirstSentenceShape | utils/template.ts:10-21 | A non-empty text becomes `<strong>` + its text up to the first white space after a sentence stop + `</strong> ` + the remaining sentences joined by single spaces. |
| Template.BoldSingleSentence | sandboxes/mpWixin.ts:63-74 | A text with no sentence break is bolded whole and followed by a space. |
| Template.CachedNameWins | utils/template.ts:27-41 | A later lookup under a cached name returns the first template, even for a different source. |
| Template.LookupOnlyAdds | utils/template.ts:28-39 | A lookup never changes or removes an entry. It adds one only for a new name whose compile succeeds; a compile failure is rethrown and leaves the cache unchanged. |
| Template.TemplateCache.constructor | utils/template.ts:24 | The cache starts empty. |
| Template.TemplateCache.GetCompiledTemplate | utils/template.ts:27-41 | The method's result and new cache are those of `Lookup`. |
| SandboxRender.ToTemplateData | sandboxes/mpWixin.ts:120-132 | `guide` is the title, the profile is kept, every step and item is kept in order with `img` equal to `image`, and `history` is `[]`. |
| SandboxRender.TemplateDataRoundTrip | sandboxes/mpWixin.ts:120-132 | Reading the view back gives the article: the mapping drops nothing. |
| SandboxRender.ListenPostsHtml | sandboxes/mpWixin.ts:101-164 | HTML is posted exactly when both inputs are present, the render is non-empty and it parses; what is posted is then the render. |
| SandboxRender.MissingInputFails | sandboxes/mpWixin.ts:105-109 | A missing template or article posts `渲染失败: 模板或数据为空` without rendering. |
| SandboxRender.PostedText | sandboxes/mpWixin.ts:164-167 | A failure is posted as `渲染失败: ` followed by its message. |
| Popup.FlattenMapTexts | popup/index.tsx:309-337 | Translating in place visits exactly the texts the batch translators flatten, in the same order. |
| Popup.MapTextsShape | popup/index.tsx:309-337 | In-place translation keeps the lengths of `steps`, `step_items` and `children`. |
| Popup.MapTextsIdentity | popup/index.tsx:309-337 | A translation that changes no text changes nothing. |
| Popup.CozeBotApiFallback | popup/index.tsx:280-298 | A falsy text is returned without a request. A rejected request, or a nullish response, gives the text back. Otherwise the response's `message` is returned, whatever its type. |
| Popup.CozeOnString | popup/index.tsx:280-298 | When every response carries a string `message`, a string is answered by a string: the reply's message, or the text itself. |
| Popup.FailingServiceKeepsArticle | popup/index.tsx:282-298 | With the service down, every text comes back unchanged, so the article is returned as it was. |
| Popup.TranslateChildren | popup/index.tsx:324-331 | The children loop gives exactly `ChildrenFrom`: each child is replaced in order, and the loop stops at the first write that throws. |
| Popup.TranslateItems | popup/index.tsx:318-334 | The item loop gives exactly `ItemsFrom`: per item the content is requested, the children are translated in place, and only then is the content written. A throw ends the loop with the writes made so far. |
| Popup.TranslateSteps | popup/index.tsx:312-337 | The step loop gives exactly `StepsFrom`: per step the title is requested, the items are translated in place, and only then is the title written. A throw ends the loop with the writes made so far. |
| Popup.OptimizeData | popup/index.tsx:302-346 | Without translation the data itself is returned. With translation the result is exactly `Optimized`, including the catch that returns `data` with the writes made before an exception. |
| Popup.OptimizedEncoded | popup/index.tsx:308-341 | When every response carries a string, a well-formed article has each text replaced by `cozeBotApi`'s answer for it, and nothing else changes. |
| Popup.FailingServiceKeepsData | popup/index.tsx:295-297 | With the service down, a well-formed article comes back unchanged. |
| Popup.NullishDataKept | popup/index.tsx:308-345 | `undefined` or `null` data throws on the first read and is returned as it is. |
| Popup.ItemsStopAtMissingChildren | popup/index.tsx:324 | An item without `children` throws on reading its length. The item loop ends there, with neither that item's content nor any later item changed. |
| Popup.StepsStopAtItems | popup/index.tsx:318-336 | When a step's items throw before any write, the step loop ends with the steps unchanged, that step's title included. |
| Popup.MissingChildrenKeepsStep | popup/index.tsx:308-345 | For a step whose only item has no `children`, the title and profile are translated and written, and the step is returned untouched. |
| Popup.HandleFullPage | popup/index.tsx:349-362 | Nothing happens while loading, or when the URL is empty and local data is off. Otherwise the page is scraped, or the local data is loaded. |
| EditorInjector.FirstMatchIndex | contents/mpWeixin.ts:18-63 | The index found is the first selector that matches, and no earlier selector matches. |
| EditorInjector.ProbeBounds | contents/mpWeixin.ts:27-106 | The probe makes at most `maxAttempts` sweeps, with one sleep of `interval` after each miss. |
| EditorInjector.ProbeFirstMatch | contents/mpWeixin.ts:40-63 | A successful probe returns the element of the first matching selector in the listed order. |
| EditorInjector.DomErrorAborts | contents/mpWeixin.ts:88-106 | A DOM exception ends the probe at once, with that exception and no further sweep. |
| EditorInjector.ProbeTimeout | contents/mpWeixin.ts:9-106 | The probe throws `编辑器加载超时` exactly when `maxAttempts` sweeps in a row miss. |
| EditorInjector.HttpsSrcSecure | contents/mpWeixin.ts:292 | After the rewrite no source starts with `http:`, and rewriting twice is rewriting once. |
| EditorInjector.HttpsSrc | contents/mpWeixin.ts:292 | A source starting with `http:` gets `https:` in its place; any other source is kept. |
| EditorInjector.SecureNodesSecure | contents/mpWeixin.ts:286-296 | No image in the written fragment, at any depth, keeps an `http:` source; the rewrite is idempotent. |
| EditorInjector.SecureForestUnchanged | contents/mpWeixin.ts:286-296 | A fragment without insecure images is written as parsed. |
| EditorInjector.ContentArea | contents/mpWeixin.ts:239-259 | The area is the iframe document's `.rich_media_content`, or the editor's own `.rich_media_content`, or the editor itself. |
| EditorInjector.AttemptOutcome | contents/mpWeixin.ts:160-315 | Each attempt re-runs the probe and counts one attempt. The title never decides success, and an empty title touches nothing. |
| EditorInjector.UpdateAttempts | contents/mpWeixin.ts:354-372 | An update makes at most 1 + 3 attempts. It succeeds exactly when one of them succeeds. |
| EditorInjector.FirstSuccessWins | contents/mpWeixin.ts:354-372 | The first attempt that succeeds ends the update. |
| EditorInjector.EmptyTitleUntouched | contents/mpWeixin.ts:176-222 | With an empty title neither title element is written, however many attempts run. |
| EditorInjector.ReplyFor | contents/mpWeixin.ts:440-481 | true gives `{success:true}`; false gives `更新编辑器内容失败`; a throw gives its message. |
| EditorInjector.EditorPage.CheckEditorReady | contents/mpWeixin.ts:9-106 | The method's result, sweep count and sleeps are those of `ProbeFrom`; the page is left as it was. |
| EditorInjector.EditorPage.FillArea | contents/mpWeixin.ts:272-284 | The area is cleared and then holds exactly the appended nodes, in order. |
| EditorInjector.EditorPage.TryUpdate | contents/mpWeixin.ts:160-350 | One attempt changes the page as `Attempt` says. |
| EditorInjector.EditorPage.UpdateEditorContent | contents/mpWeixin.ts:154-372 | The retried update changes the page as `UpdateFrom` says. |
| EditorInjector.EditorPage.OnMessage | contents/mpWeixin.ts:394-481 | Other messages get no reply. Empty content gets `更新内容为空` with no update. Otherwise the reply is `ReplyFor` of the update. |
| RenderArticle.Find | background/messages/renderArticle.ts:62-70 | The first stored template with an equal name is found; a `null` element before it throws. |
| RenderArticle.SelectTemplateChoice | background/messages/renderArticle.ts:54-88 | The first stored template with the name is used; otherwise, or when storage fails, the default template. |
| RenderArticle.MissingDataRejected | background/messages/renderArticle.ts:35-41 | Missing data gives an error response with no template or tab work. |
| RenderArticle.SentOnlyToWeChat | background/messages/renderArticle.ts:95-140 | HTML is sent to the tab only when there is data, the render is non-empty, and the tab's URL contains `mp.weixin.qq.com`; what is sent is the HTML. |
| RenderArticle.SuccessIffAnswered | background/messages/renderArticle.ts:142-155 | The response is a success, with undefined data, exactly when the HTML was sent and the tab answered with success. |
| RenderArticle.FailedAnswerMessage | background/messages/renderArticle.ts:142-145 | A negative answer becomes an error carrying `result.error`, or `渲染失败` when there is none. |
| RenderArticle.DefaultNameUsed | background/messages/renderArticle.ts:32 | An undefined template name means `default`. |
| RenderArticle.Handle | background/messages/renderArticle.ts:27-178 | The handler's response, the HTML it sends and the new cache are those of `HandleSpec`. The handler always responds and never throws. |
| Logging.AppendBounded | utils/logger.ts:89-103 | The buffer never exceeds 1000 entries. The new entry is last, and overflow drops only the oldest entry. |
| Logging.FilterSnoc | utils/logger.ts:71-75 | Filtering by category keeps the original order. |
| Logging.Logger.constructor | utils/logger.ts:34-38 | The logger starts at threshold INFO with no entries. |
| Logging.Logger.GetLogs | utils/logger.ts:71-75 | Without a category all entries are returned; with one, exactly the entries of that category. |
| Logging.Logger.Log | utils/logger.ts:83-103 | An entry below the threshold changes nothing. Otherwise the entry is appended with `options.timestamp` or now. |
| Logging.Logger.SetLogLevel | utils/logger.ts:55-59 | The threshold changes and the entries stay. |
| Logging.Logger.ClearLogs | utils/logger.ts:66-69 | The buffer is emptied and the threshold kept. |
| Logging.DefaultThreshold | utils/logger.ts:116-119 | With the default threshold INFO, only DEBUG entries are dropped. |
| Logging.ThresholdMonotone | utils/logger.ts:116-119 | An entry kept at a threshold is kept at every lower threshold. |
| Api.TransformResponse | utils/api.ts:114-151 | An array becomes `items`, another object `[data]`, anything else `[]`. Status is `success`, pagination is null, and the result is valid. |
| Api.InterceptedIsValid | utils/api.ts:67-76 | The caller always sees a valid reply. Valid replies pass unchanged, and intercepting twice is intercepting once. |
| Api.InterceptError | utils/api.ts:88-97 | Message is `error.message` or `请求失败`; code is `error.code` or `UNKNOWN_ERROR`. A nullish error throws. |
| Api.RequestError | utils/api.ts:171-184 | An `ApiError` is rethrown as it is. Any other error is wrapped as an `ApiError`. |
| Api.InterceptedErrorPassesThrough | utils/api.ts:171-184 | The interceptor's rejection reaches the caller of `request` unchanged. |
| Api.RequestErrorIdempotent | utils/api.ts:171-184 | Wrapping an already wrapped error changes nothing. |
| Api.ReplaceUrlParams | utils/api.ts:154-160 | For each entry of `Object.entries(params)` in turn, the loop replaces the first `:key` by the entry's value, with `$` patterns expanded. |
| Api.EntriesOrder | utils/api.ts:156 | The entries are the parameters reordered: array-index keys come first, in ascending numeric order. With no such key the creation order is kept. |
| Api.OneParamReplaced | utils/api.ts:154-160 | One parameter whose value has no `$` replaces exactly the first `:key` by that value, and the rest of the URL is kept. |
| Api.NoColonUnchanged | utils/api.ts:154-160 | A URL without `:` comes back unchanged. |
| Api.Request | utils/api.ts:162-185 | `request` rejects only with `ApiError`s. |
| ErrorHandler.CreateErrorResponse | utils/errorHandler.ts:33-43 | Message and code are the error's own when truthy, else the defaults. `details` is present exactly in development. |
| ErrorHandler.ToJs | utils/errorHandler.ts:33-50 | The reply object has status `error` or `success`, and no `success` field. |
| ErrorHandler.ErrorForMessage | utils/errorHandler.ts:33-41 | `new Error(m)` gives message `m` (or `操作失败` when `m` is empty) and code `UNKNOWN_ERROR`. |
| ErrorHandler.HandleNetworkError | utils/errorHandler.ts:64-73 | Axios errors get the network defaults; other errors get the generic ones. |
| ErrorHandler.WithErrorHandling | utils/errorHandler.ts:53-61 | A handler that does not throw gets nothing added. A throw adds exactly one error response. |
| ErrorHandler.WrappedThrowRepliesOnce | utils/errorHandler.ts:53-61 | A handler that throws before replying sends one error response carrying the message. |
| UseRequest.MergeOptions | hooks/useRequest.ts:26-39 | Caller options override the defaults: `auto` true, `cacheTime` 0, `retryCount` 0, `retryDelay` 1000. |
| UseRequest.RunOutcome | hooks/useRequest.ts:105-176 | Success stores data, clears the error and loading flags, stamps the time and resets the counter. Failure retries while the counter is below `retryCount`, waiting `retryDelay` before each retry; at most `retryCount + 1` calls are made. When retries run out, the call keeps the data, sets the error and rethrows. |
| UseRequest.ResolvedStores | hooks/useRequest.ts:129-136 | A resolved call ends with exactly the new data and a counter of 0. |
| UseRequest.AbortKeepsData | hooks/useRequest.ts:139-141 | An aborted call returns the current data, with no retry and no error. |
| UseRequest.ExhaustedCounterNoRetry | hooks/useRequest.ts:153-165 | After retries run out, the next failing call makes one call and no retry. |
| UseRequest.DefaultNeverFresh | hooks/useRequest.ts:203-205 | With the default cache time nothing is ever fresh. |
| UseRequest.MergeNothing | hooks/useRequest.ts:26-39 | With no caller options the defaults are used as they are. |
| UseRequest.RequestHook.constructor | hooks/useRequest.ts:38-49 | The hook starts in the initial state with the merged options. |
| UseRequest.RequestHook.Execute | hooks/useRequest.ts:105-176 | The loop's new state and result are those of `RunFrom`. |
| UseRequest.RequestHook.Attempt | hooks/useRequest.ts:125-176 | One call settles with exactly what `RunFrom` gives, or schedules a retry that leaves `RunFrom`'s answer unchanged and uses up one retry. |
| UseRequest.RequestHook.Reset | hooks/useRequest.ts:178-191 | The state is the initial one, counter 0 included. |
| ArticleProcessor.DetectArticleType | popup/hooks/useArticleProcessor.ts:12-29 | A host containing `mp.weixin.qq.com` gives `wechat`. Otherwise a host containing `wikihow` gives `wikihow`. Anything else, including an unparsable URL, throws `无效的URL格式`. |
| ArticleProcessor.PipelineTrace | popup/hooks/useArticleProcessor.ts:174-260 | A run succeeds exactly when the states go 20 → 60 → 90 → 100. A failing run ends in ERROR/0 right after the stage that failed. |
| ArticleProcessor.LaterStagesSkipped | popup/hooks/useArticleProcessor.ts:249-260 | The requests after a failing stage are never called. |
| ArticleProcessor.NullSpiderDataFails | hooks/useArticleProcessor.ts:69-71 | Null scrape data fails the run with `爬虫返回数据为空` before translation. |
| ArticleProcessor.UnsupportedSiteFails | popup/hooks/useArticleProcessor.ts:176-180 | In the popup hook, an unsupported URL fails before any request. |
| ArticleProcessor.RequestCalls | popup/hooks/useArticleProcessor.ts:43-60 | Per run the scrape, translate and render requests are called at most 4, 3 and 2 times. |
| ArticleProcessor.FirstError | popup/hooks/useArticleProcessor.ts:265 | `error` is the first of spider, translate and render that is set. |
| ArticleProcessor.Processor.constructor | popup/hooks/useArticleProcessor.ts:43-60 | The processor starts with three idle requests, the initial loading state and no states set. |
| ArticleProcessor.Processor.SetLoadingState | popup/hooks/useArticleProcessor.ts:44 | The new state is current and is appended to the states set. |
| ArticleProcessor.ScrapedTrace | popup/hooks/useArticleProcessor.ts:191-239 | After the scrape the run succeeds exactly when the states go 60 → 90 → 100; a failure ends in ERROR/0 right after the failing stage. |
| ArticleProcessor.TranslatedTrace | popup/hooks/useArticleProcessor.ts:219-239 | After translation the run succeeds exactly when the states go 90 → 100; a failure ends in ERROR/0. |
| ArticleProcessor.Processor.AfterScrape | popup/hooks/useArticleProcessor.ts:191-239 | The states appended and the new hooks are those of `Scraped`. |
| ArticleProcessor.Processor.AfterTranslate | popup/hooks/useArticleProcessor.ts:219-239 | The states appended and the new hooks are those of `Translated`. |
| ArticleProcessor.Processor.Loading | popup/hooks/useArticleProcessor.ts:264 | `loading` is the OR of the three requests. |
| ArticleProcessor.Processor.ProcessArticle | hooks/useArticleProcessor.ts:54-114 | The states set and the hooks after the run are those of `Pipeline`, and the last state set is the current one. |
| ArticleProcessor.TranslateArticleData | popup/hooks/useArticleProcessor.ts:99-150 | A failed translation is rethrown; otherwise the result is the article rebuilt from the translations, images kept. |
| ArticleProcessor.UntranslatedIdentity | popup/hooks/useArticleProcessor.ts:129-147 | With an identity translator the article comes back unchanged. |
| GoogleTranslator.TranslateText | utils/translate/google.ts:21-66 | A blank text gives `''` without a request. A missing first translation throws. The result is always trimmed. |
| GoogleTranslator.BlankNeedsNoRequest | utils/translate/google.ts:21-27 | The answer for a blank text does not depend on the endpoint. |
| GoogleTranslator.TranslateBatch | utils/translate/google.ts:81-100 | One result per text, in order: the translation, or the original text when its request failed. |
| GoogleTranslator.EmptyBatch | utils/translate/google.ts:72 | An empty batch gives `[]`. |
| GoogleTranslator.DelaySchedule | utils/translate/google.ts:83 | Texts are released in groups of five, each group 100 ms after the one before. |
| GoogleTranslator.DelayMonotone | utils/translate/google.ts:83 | A later text never waits less than an earlier one. |
| CozeTranslator.CallWorkflow | utils/translate/coze.ts:23-78 | A non-zero code, missing data or unparsable data throws. Otherwise the call returns `output`, defaulting to `''` or `[]` after the input's shape. |
| CozeTranslator.TranslateText | utils/translate/coze.ts:80-104 | A blank text gives `''` without a call. Workflow errors are rethrown, and a string result is trimmed. |
| CozeTranslator.TranslateAllOk | utils/translate/coze.ts:134-142 | The batch succeeds exactly when every text does. It then holds each text's translation, same length and order. |
| CozeTranslator.TranslateAllErrPrefix | utils/translate/coze.ts:134-141 | A failure in any prefix is the failure of the whole batch. |
| CozeTranslator.BatchSize | utils/translate/coze.ts:122 | `maxBatchSize`, or 50 when it is missing or 0; always positive. |
| CozeTranslator.Chunked | utils/translate/coze.ts:125-142 | The loop over chunks of `batchSize` gives exactly `TranslateAll`. |
| CozeTranslator.TranslateBatch | utils/translate/coze.ts:114-142 | The nested chunking gives exactly `TranslateAll`: the results in input order, or the first failure. |
| TranslateAdapter.WithDefaults | utils/translate/adapter.ts:12-22 | Caller fields override the defaults `maxBatchSize` 10 and `timeout` 10000. |
| TranslateAdapter.CreateAdapter | utils/translate/adapter.ts:21-35 | Only `google` and `coze` construct a translator, of the matching kind. `custom` throws `不支持的翻译服务类型: custom`. |
| TranslateAdapter.SlicesCover | utils/translate/adapter.ts:42-46 | The slices cover the input in order. All but the last hold `batchSize` texts; the last holds between one and `batchSize`. |
| TranslateAdapter.Fallback | utils/translate/adapter.ts:61-74 | One result per text, in order: the single translation, or the text itself when that throws. |
| TranslateAdapter.BatchSize | utils/translate/adapter.ts:42 | `maxBatchSize`, or 10 when it is missing or 0; always positive. |
| TranslateAdapter.ProcessSlices | utils/translate/adapter.ts:38-79 | The loop gives the slice results concatenated: a slice's batch answer, or its fallback when the batch throws. |
| TranslateAdapter.FallbackLoop | utils/translate/adapter.ts:61-74 | The one-at-a-time loop gives exactly `Fallback`. |
| TranslateAdapter.ResultsPerText | utils/translate/adapter.ts:38-79 | When batch answers agree with single answers, slicing does not show in the results. |
| TranslateAdapter.TranslateText | utils/translate/adapter.ts:82-96 | A blank text gives `''` without the translator; otherwise the translator's answer or error. |
| TranslateAdapter.TranslateTexts | utils/translate/adapter.ts:99-113 | `[]` for an empty list; otherwise the slice-and-fallback result. |
| TranslateAdapter.TranslateTextsPerText | utils/translate/adapter.ts:38-113 | For either translator, every text ends as its own translation, or as itself when that fails. No text is lost or moved. |
| TranslateAdapter.EmptyTexts | utils/translate/adapter.ts:100-102 | An empty list gives `[]`. |
| TranslateManager.Init | utils/translate/manager.ts:20-32 | The same type, URL and key change nothing. `custom` throws and leaves both fields. Any other config installs its adapter and stores the config. |
| TranslateManager.InitIdempotent | utils/translate/manager.ts:20-32 | Initialising twice with one config is initialising once. |
| TranslateManager.SameServiceKept | utils/translate/manager.ts:22-28 | Once a config is installed, a config that differs only in batch size or timeout is ignored. |
| TranslateManager.InitOkHasAdapter | utils/translate/manager.ts:30-31 | After a successful init there is an adapter of the stored config's type. |
| TranslateManager.TranslateManager.constructor | utils/translate/manager.ts:5-10 | A new manager has no adapter and no config. |
| TranslateManager.TranslateManager.InitService | utils/translate/manager.ts:20-32 | The method's new fields and result are those of `Init`. |
| TranslateManager.TranslateManager.TranslateText | utils/translate/manager.ts:40-45 | Without an adapter this throws `翻译服务未初始化`; otherwise the adapter's answer. |
| TranslateManager.TranslateManager.TranslateTexts | utils/translate/manager.ts:48-53 | Without an adapter this throws `翻译服务未初始化`; otherwise one result per text. |
| TranslateManager.Instance | utils/translate/manager.ts:56-66 | The exported instance starts with the Google adapter and its config. |
| ArticleCache.PutThenGet | background/messages/cacheArticle.ts:29-53 | After caching `url`, reading `url` returns the data with its cache time. |
| ArticleCache.PutKeepsOthers | background/messages/cacheArticle.ts:32-38 | Caching one URL leaves what any other URL reads unchanged, whether the put succeeds or fails. |
| ArticleCache.FailedPutUnchanged | background/messages/cacheArticle.ts:54-74 | A put fails exactly when storage throws, and then leaves the store as it was. |
| ArticleCache.EmptyStoreNotFound | background/messages/get-cached-article.ts:27-63 | A missing cache reads as empty: `CACHE_NOT_FOUND`. |
| ArticleCache.CacheStorage.constructor | background/messages/cacheArticle.ts:29 | Storage starts without an `article_cache` record. |
| ArticleCache.CacheStorage.CacheArticle | background/messages/cacheArticle.ts:13-76 | The handler's new store and reply are those of `Put`. |
| ArticleCache.CacheStorage.GetCachedArticle | background/messages/get-cached-article.ts:13-86 | The handler's reply is that of `Get`; a success carries the stored entry. |
| StartTranslate.Content | background/messages/startTranslate.ts:29 | The content is `JSON.stringify(text)` for objects (and `null`), and the text itself otherwise. |
| StartTranslate.InProgressWaits | background/messages/startTranslate.ts:110-117 | `n` replies of `in_progress` wait `d·1, …, d·n`, with no cap; polling is still going when they run out. |
| StartTranslate.ErrorStatusStops | background/messages/startTranslate.ts:100-105 | `created`, `failed` and `requires_action` end polling at once with `[]`. |
| StartTranslate.CompletedAfterWaits | background/messages/startTranslate.ts:110-121 | A completed chat returns the message list after one wait per earlier `in_progress` reply. |
| StartTranslate.PollConversation | background/messages/startTranslate.ts:97-124 | The polling with its growing `timerCount` gives exactly `Poll`. |
| StartTranslate.FindAnswer | background/messages/startTranslate.ts:128 | The first message whose `type` is `answer` is found; a nullish message before it throws. |
| StartTranslate.Answer | background/messages/startTranslate.ts:128-138 | The content of the found answer if truthy, else the original text. A list that is not an array throws. |
| StartTranslate.AnswerIsContentOrText | background/messages/startTranslate.ts:128-138 | The answer is the text, or the truthy content of some `answer` message of the list. |
| StartTranslate.ReplyIsAnswerOrText | background/messages/startTranslate.ts:126-142 | The reply is the original text, or the truthy content of an `answer` message from the completed chat's list. |
| StartTranslate.NoMessagesEchoesText | background/messages/startTranslate.ts:103-138 | An ended poll with `[]` replies with the original text. |
| StartTranslate.StartTranslate | background/messages/startTranslate.ts:8-143 | The handler's content, outcome and waits are those of `Handle`. |

## Left out

- Browser and extension APIs are parameters: tabs, runtime messaging, storage, the network, the DOM, `DOMParser`, `setTimeout`, `Date` and `Math.random`. Each is a reply, a snapshot or a success/failure choice supplied by the caller.
- Delays are recorded as durations (probe sleeps, retry waits, poll waits, the Google delay schedule) or left out (the adapter's 1000 ms and 500 ms pauses, Coze's 100 ms pause between groups). No real time passes.
- `Promise.all` in both translators is a sequential map. Coze's failure is the first in input order, whereas in the source it is the first to reject in time.
- `console.*` calls, `logger.*` calls outside utils/logger.ts and `chrome.action.setBadgeText` are not modelled; `exportLogs` and `getLogLevel` are plain reads with nothing to state.
- Handlebars `compile` and rendering, `JSON.parse` and `JSON.stringify` are uninterpreted parameters. `renderTemplate` (utils/template.ts:45-54) is the render parameter of the handlers.
- Logging.Logger.constructor: the level read back from `chrome.storage.local` at start-up, and the write in `setLogLevel`, are not modelled. The threshold starts at INFO.
- Sandbox `addOne` is floating-point addition and is not modelled.
- The `startTranslate` duration `(0.01 * L + 1) * 1000` is floating point; it is the parameter `duration`.
- StartTranslate.PollConversation: polling has no cap in the source. The model reads a finite list of status replies and reports "still polling" when the list runs out.
- Article.Rebuild requires at least as many translations as flattened texts. Both translator paths are proved to keep the length (`TranslateAdapter.TranslateTextsPerText`), so a shorter list does not arise.
- ArticleUtils.TranslateArticleData: a `null` article, which throws on `data.title` before the explicit check, is the `None` case. The explicit empty check is therefore never the one that fires.
- The injector's `processContent` (contents/mpWeixin.ts:110-150) is never called by the listener and is not modelled.
- popup/index.tsx `renderTempByData` and the other popup UI handlers are not modelled, except `handleFullPage`'s guards.
- UseRequest.RequestHook.Execute: debounce and the `AbortController` are left out. One `now` is used per call. An aborted call leaves `loading` true, as in the source. The data an `AbortError` returns is taken as the current data, not the possibly stale closure value.
- UseRequest.MergeOptions: an explicit `undefined` passed as an option is treated as a key the caller left out.
- ArticleProcessor.Processor.ProcessArticle: one `now` serves all three hooks. The translation service type is an opaque string.
- GoogleTranslator.TranslateText: the API URL, key and timeout are part of the `post` parameter.
- CozeTranslator.BatchSize: `maxBatchSize` is a natural number. A negative value would loop forever in the source. The conversation id (from `Date` and `Math.random`) is not modelled.
- TranslateAdapter.TranslateText: the `options` argument is passed through unchanged by every translator and is not modelled.
- TranslateManager.TranslateManager: `apiUrl` is a string, although `process.env` may leave it undefined.
- ArticleCache.CacheStorage.CacheArticle: the request's `data` is an article. A `null` body, which would throw reading `data.title` inside the `try`, is not modelled. The timestamp is the parameter `now`.
- StartTranslate.StartTranslate: a `text` without a numeric `length` gives a `NaN` wait in the source; the model uses the supplied `duration`. The retrieve and list requests take the conversation and chat id; those ids are not modelled, because the replies are given per poll.
- Popup.OptimizeData: objects are values. An object reachable from two places of `data` is not updated in both, and a caller holding a sub-object does not see its change.
- Popup.OptimizeData: a named property written on an array is dropped, and an object's own `length` property is ignored (its loop runs zero times). Writes to primitives throw, as in strict mode.
- Popup.CozeBotApi: `sendToBackground` is the parameter `send`, which answers a given text the same way every time.
- UseRequest.RunOutcome: a rejection with `null` or `undefined` is retried like any other, whereas the source throws reading `error.name`. An `AbortError` is the separate outcome `Aborted` and is not tied to the error's `name`.
- HtmlFilters.OccursAtFolded: the `i` flag's case folding covers ASCII letters only.
- ArticleCache.CacheStorage.CacheArticle: the cache is a map, so keys such as `toString` or `__proto__`, which a plain object would read from its prototype, are not modelled.
- CozeTranslator.CallWorkflow: the reply's `code` is an integer, `data` an optional string and `msg` a string. Replies with other types are not modelled.

## Findings

| source | as written | input that shows it | evidently intended | confidence | as-written member | corrected member |
|---|---|---|---|---|---|---|
| services/articleService.ts:247-254 | `renderArticle` tests `response.success`, but the render handler replies with `createSuccessResponse(void 0)`, i.e. `{status:'success'}` with no `success` field (background/messages/renderArticle.ts:155; utils/errorHandler.ts:47-50); the success reply is then read as an error and `errorResponse.error.message` throws a TypeError | the reply `{status:'success', data: undefined}` | test `response.status === 'success'`, as the handler's reply shape says | not executed | ArticleService.RenderArticleRejectsSuccess | ArticleService.RenderArticleByStatusMatchesHandler |
| services/articleService.ts:45-52 | `getArticleList` tests `response.success`, but the `get-local-articles` handler replies `{ records: data }` (background/messages/get-local-articles.ts:19-21), so every list is reported as `获取文章列表失败` | the reply `{records: []}` | read the `records` the handler sends | not executed | ArticleService.GetArticleListRejectsRecords | ArticleService.GetArticleListByRecordsMatchesHandler |
| services/articleService.ts:181-188 | `spiderArticle` tests `response.success`, but the `articleSpider` handler replies `{ message: data }` (background/messages/articleSpider.ts:17-19); `errorResponse.error.message` then throws a TypeError | the reply `{message: {title: 'a'}}` | read the `message` the handler sends | not executed | ArticleService.SpiderArticleRejectsMessage | ArticleService.SpiderArticleByMessageMatchesHandler |
| services/articleService.ts:218-225 | `translateArticle` tests `response.success`, but the `startTranslate` handler replies `{ message: result }` (background/messages/startTranslate.ts:140-142); `errorResponse.error.message` then throws a TypeError | the reply `{message: 'x'}` | read the `message` the handler sends | not executed | ArticleService.TranslateArticleRejectsMessage | ArticleService.TranslateArticleByMessageMatchesHandler |
| services/articleService.ts:213-216 | `translateArticle` sends the body `{ data, serviceType }`, but the `startTranslate` handler destructures `text` from it (background/messages/startTranslate.ts:18), which is `undefined`; the chat is opened with no content and `text.length` (startTranslate.ts:51) throws once it answers, so no reply is sent | any article `data` | send the article as `text`, the field the handler reads | not executed | ArticleService.TranslateRequestLosesText | ArticleService.TranslateRequestByTextReachesBot |
