/**
 * The `startTranslate` background handler: it opens a chat with the
 * translation bot, polls the chat's status (waiting longer after each
 * `in_progress` answer), fetches the message list once the chat completes
 * and replies with the bot's answer, or with the original text when there
 * is none. The chat, retrieve and message-list endpoints are parameters:
 * `chat` gives the chat reply body for the content, `polls` the retrieve
 * reply bodies in the order they are fetched, `list` the message-list body.
 * The wait unit `durationAfter`, `(0.01 * L + 1) * 1000` for a text of
 * length `L`, is the parameter `duration`.
 */
module StartTranslate {
  import opened Wrappers
  import opened Js

  const ErrorStatuses: seq<string> := ["created", "failed", "requires_action"]
  const LoopStatus := "in_progress"
  const FinishStatus := "completed"

  /** The message content: `JSON.stringify(text)` for objects (and `null`),
    * the text itself otherwise. */
  function Content(text: Value, stringify: Value -> string): (c: Value)
    ensures IsObjectType(text) ==> c == JStr(stringify(text))
    ensures !IsObjectType(text) ==> c == text
  {
    if IsObjectType(text) then JStr(stringify(text)) else text
  }

  /** `list.includes(status)` for a list of strings. */
  predicate Includes(list: seq<string>, status: Value)
  {
    status.JStr? && status.s in list
  }

  /** How polling ended: the message list, `[]`, a throw, or still waiting
    * when the replies given run out. */
  datatype PollEnd = Messages(list: Value) | NoMessages | PollThrew(failure: Failure) | StillPolling

  /** The end of polling and the waits it made, in order. */
  datatype PollRun = PollRun(end: PollEnd, waits: seq<int>)

  /** `conversationResponse.data.status` */
  function Status(body: Value): Result<Value, Failure>
  {
    if Nullish(body) then Err(TypeErrorReading("data"))
    else if Nullish(Field(body, "data")) then Err(TypeErrorReading("status"))
    else Ok(Field(Field(body, "data"), "status"))
  }

  /** `processConversationResponse` from the poll with `timerCount == count`
    * on, for retrieve replies `polls`. */
  function Poll(polls: seq<Result<Value, Value>>, list: Result<Value, Value>, duration: int, count: nat): PollRun
    decreases |polls|
  {
    if polls == [] then PollRun(StillPolling, [])
    else match polls[0]
      case Err(e) => PollRun(PollThrew(Thrown(e)), [])
      case Ok(body) =>
        match Status(body)
        case Err(f) => PollRun(PollThrew(f), [])
        case Ok(status) =>
          if Includes(ErrorStatuses, status) then PollRun(NoMessages, [])
          else if Includes([LoopStatus], status) then
            var rest := Poll(polls[1..], list, duration, count + 1);
            PollRun(rest.end, [duration * count] + rest.waits)
          else if Includes([FinishStatus], status) then
            match list
            case Err(e) => PollRun(PollThrew(Thrown(e)), [])
            case Ok(listBody) => PollRun(Messages(Field(listBody, "data")), [])
          else PollRun(NoMessages, [])
  }

  /** A status reply with data `{ status }`. */
  predicate HasStatus(poll: Result<Value, Value>, status: string)
  {
    poll.Ok? && Status(poll.value) == Ok(JStr(status))
  }

  /** `n` replies of `in_progress` wait `duration * count`, then
    * `duration * (count + 1)`, and so on, with no cap; polling is still
    * going when they run out. */
  lemma {:induction false} InProgressWaits(polls: seq<Result<Value, Value>>, list: Result<Value, Value>, duration: int, count: nat)
    requires forall i :: 0 <= i < |polls| ==> HasStatus(polls[i], LoopStatus)
    ensures Poll(polls, list, duration, count).end == StillPolling
    ensures Poll(polls, list, duration, count).waits == seq(|polls|, i requires 0 <= i => duration * (count + i))
    decreases |polls|
  {
    if polls != [] {
      assert HasStatus(polls[0], LoopStatus);
      InProgressWaits(polls[1..], list, duration, count + 1);
      var rest := Poll(polls[1..], list, duration, count + 1);
      assert Poll(polls, list, duration, count).waits == [duration * count] + rest.waits;
    }
  }

  /** An error status ends polling at once with `[]`, whatever replies would
    * have followed. */
  lemma ErrorStatusStops(polls: seq<Result<Value, Value>>, list: Result<Value, Value>, duration: int, count: nat, status: string)
    requires |polls| > 0 && status in ErrorStatuses && HasStatus(polls[0], status)
    ensures Poll(polls, list, duration, count) == PollRun(NoMessages, [])
  {
  }

  /** A completed chat ends polling with the message list, after one wait
    * per `in_progress` reply before it. */
  lemma {:induction false} CompletedAfterWaits(polls: seq<Result<Value, Value>>, n: nat, listBody: Value, duration: int, count: nat)
    requires n < |polls| && HasStatus(polls[n], FinishStatus)
    requires forall i :: 0 <= i < n ==> HasStatus(polls[i], LoopStatus)
    ensures Poll(polls, Ok(listBody), duration, count) == PollRun(Messages(Field(listBody, "data")), seq(n, i requires 0 <= i => duration * (count + i)))
    decreases n
  {
    if n > 0 {
      assert HasStatus(polls[0], LoopStatus);
      CompletedAfterWaits(polls[1..], n - 1, listBody, duration, count + 1);
      var rest := Poll(polls[1..], Ok(listBody), duration, count + 1);
      assert Poll(polls, Ok(listBody), duration, count).waits == [duration * count] + rest.waits;
    } else {
      assert Includes([FinishStatus], JStr(FinishStatus));
    }
  }

  /** The polling loop: `timerCount` starts at 1 and grows by one per
    * `in_progress` reply. */
  method PollConversation(polls: seq<Result<Value, Value>>, list: Result<Value, Value>, duration: int) returns (run: PollRun)
    ensures run == Poll(polls, list, duration, 1)
  {
    var timerCount: nat := 1;
    var k := 0;
    var waits: seq<int> := [];
    var end: Option<PollEnd> := None;
    while end.None?
      invariant 0 <= k <= |polls| && timerCount == k + 1
      invariant end.None? ==> Poll(polls, list, duration, 1)
                              == PollRun(Poll(polls[k..], list, duration, timerCount).end,
                                         waits + Poll(polls[k..], list, duration, timerCount).waits)
      invariant end.Some? ==> Poll(polls, list, duration, 1) == PollRun(end.value, waits)
      decreases if end.None? then 1 else 0, |polls| - k
    {
      if k == |polls| {
        end := Some(StillPolling);
        assert waits + [] == waits;
      } else if polls[k].Err? {
        end := Some(PollThrew(Thrown(polls[k].error)));
        assert waits + [] == waits;
      } else {
        var status := Status(polls[k].value);
        if status.Err? {
          end := Some(PollThrew(status.error));
          assert waits + [] == waits;
        } else if Includes(ErrorStatuses, status.value) {
          end := Some(NoMessages);
          assert waits + [] == waits;
        } else if Includes([LoopStatus], status.value) {
          assert polls[k..][1..] == polls[k + 1..];
          waits := waits + [duration * timerCount];
          timerCount := timerCount + 1;
          k := k + 1;
        } else if Includes([FinishStatus], status.value) {
          if list.Err? {
            end := Some(PollThrew(Thrown(list.error)));
          } else {
            end := Some(Messages(Field(list.value, "data")));
          }
          assert waits + [] == waits;
        } else {
          end := Some(NoMessages);
          assert waits + [] == waits;
        }
      }
    }
    run := PollRun(end.value, waits);
  }

  // ---------------------------------------------------------------------------
  // The answer

  /** `messages.find(item => item.type === "answer")` on the elements of an
    * array: reading `type` of a `null` or `undefined` element throws. */
  function FindAnswer(ms: seq<Value>): (r: Result<Option<Value>, Failure>)
    ensures r == Ok(None) <==> forall i :: 0 <= i < |ms| ==> !Nullish(ms[i]) && Field(ms[i], "type") != JStr("answer")
    ensures r.Ok? && r.value.Some? ==>
      exists i :: 0 <= i < |ms| && r.value.value == ms[i] && Field(ms[i], "type") == JStr("answer")
        && forall j :: 0 <= j < i ==> !Nullish(ms[j]) && Field(ms[j], "type") != JStr("answer")
    ensures r.Err? ==> r == Err(TypeErrorReading("type"))
    decreases |ms|
  {
    if ms == [] then Ok(None)
    else if Nullish(ms[0]) then Err(TypeErrorReading("type"))
    else if Field(ms[0], "type") == JStr("answer") then Ok(Some(ms[0]))
    else
      var rest := FindAnswer(ms[1..]);
      assert forall i :: 1 <= i < |ms| ==> ms[i] == ms[1..][i - 1];
      if rest.Ok? && rest.value.Some? then
        var j :| 0 <= j < |ms[1..]| && rest.value.value == ms[1..][j] && Field(ms[1..][j], "type") == JStr("answer")
                 && forall m :: 0 <= m < j ==> !Nullish(ms[1..][m]) && Field(ms[1..][m], "type") != JStr("answer");
        assert forall m :: 0 <= m < j + 1 ==> !Nullish(ms[m]) && Field(ms[m], "type") != JStr("answer") by {
          forall m | 0 <= m < j + 1 ensures !Nullish(ms[m]) && Field(ms[m], "type") != JStr("answer") {
            if m > 0 {
              assert ms[m] == ms[1..][m - 1];
            }
          }
        }
        rest
      else rest
  }

  /** `(messages.find(…) || {})?.content ? answer.content : text` */
  function Answer(messages: Value, text: Value): (r: Result<Value, Failure>)
    ensures Nullish(messages) ==> r == Err(TypeErrorReading("find"))
    ensures !Nullish(messages) && !messages.JArray? ==> r == Err(TypeErrorCalling("find"))
    ensures messages.JArray? && FindAnswer(messages.elems).Ok? ==>
      var found := FindAnswer(messages.elems).value;
      r == Ok(if found.Some? && Truthy(Field(found.value, "content")) then Field(found.value, "content") else text)
  {
    if Nullish(messages) then Err(TypeErrorReading("find"))
    else if !messages.JArray? then Err(TypeErrorCalling("find"))
    else
      match FindAnswer(messages.elems)
      case Err(f) => Err(f)
      case Ok(found) =>
        var answer := if found.Some? then found.value else JObject(map[]);
        Ok(if Truthy(Field(answer, "content")) then Field(answer, "content") else text)
  }

  /** The reply for what polling ended with: `[]` always gives the text back. */
  lemma NoMessagesEchoesText(text: Value)
    ensures Answer(JArray([]), text) == Ok(text)
  {
  }

  // ---------------------------------------------------------------------------
  // The handler

  /** What the handler does: reply `{ message }`, throw (no reply), or keep
    * polling. */
  datatype Outcome = Replied(message: Value) | Threw(failure: Failure) | Polling

  datatype HandlerRun = HandlerRun(content: Value, outcome: Outcome, waits: seq<int>)

  /** The whole handler for request text `text`. */
  function Handle(text: Value, stringify: Value -> string, chat: Value -> Result<Value, Value>,
                  polls: seq<Result<Value, Value>>, list: Result<Value, Value>, duration: int): HandlerRun
  {
    var content := Content(text, stringify);
    match chat(content)
    case Err(e) => HandlerRun(content, Threw(Thrown(e)), [])
    case Ok(chatBody) =>
      if Nullish(text) then HandlerRun(content, Threw(TypeErrorReading("length")), [])
      else if Nullish(chatBody) then HandlerRun(content, Threw(TypeErrorReading("data")), [])
      else if Nullish(Field(chatBody, "data")) then HandlerRun(content, Threw(TypeErrorReading("conversation_id")), [])
      else
        var run := Poll(polls, list, duration, 1);
        match run.end
        case StillPolling => HandlerRun(content, Polling, run.waits)
        case PollThrew(f) => HandlerRun(content, Threw(f), run.waits)
        case NoMessages => HandlerRun(content, Replied(text), run.waits)
        case Messages(ms) =>
          match Answer(ms, text)
          case Err(f) => HandlerRun(content, Threw(f), run.waits)
          case Ok(m) => HandlerRun(content, Replied(m), run.waits)
  }

  /** The reply is the original text unless it is the truthy content of an
    * `answer` message in the completed chat's list. */
  lemma ReplyIsAnswerOrText(text: Value, stringify: Value -> string, chat: Value -> Result<Value, Value>,
                            polls: seq<Result<Value, Value>>, list: Result<Value, Value>, duration: int)
    ensures Handle(text, stringify, chat, polls, list, duration).outcome.Replied? ==>
      var m := Handle(text, stringify, chat, polls, list, duration).outcome.message;
      m == text
      || (Poll(polls, list, duration, 1).end.Messages? && Poll(polls, list, duration, 1).end.list.JArray?
          && exists i :: 0 <= i < |Poll(polls, list, duration, 1).end.list.elems|
               && Field(Poll(polls, list, duration, 1).end.list.elems[i], "type") == JStr("answer")
               && m == Field(Poll(polls, list, duration, 1).end.list.elems[i], "content") && Truthy(m))
  {
    var h := Handle(text, stringify, chat, polls, list, duration);
    var reply := chat(Content(text, stringify));
    var run := Poll(polls, list, duration, 1);
    if reply.Ok? && !Nullish(text) && !Nullish(reply.value) && !Nullish(Field(reply.value, "data"))
       && run.end.Messages? {
      AnswerIsContentOrText(run.end.list, text);
      assert h.outcome.Replied? ==> h.outcome == Replied(Answer(run.end.list, text).value);
    }
  }

  /** `Answer` gives back the text or the truthy content of an `answer`
    * message of the list. */
  lemma AnswerIsContentOrText(messages: Value, text: Value)
    ensures Answer(messages, text).Ok? ==>
      var m := Answer(messages, text).value;
      m == text
      || (messages.JArray?
          && exists i :: 0 <= i < |messages.elems| && Field(messages.elems[i], "type") == JStr("answer")
                         && m == Field(messages.elems[i], "content") && Truthy(m))
  {
    if messages.JArray? && FindAnswer(messages.elems).Ok? {
      var found := FindAnswer(messages.elems).value;
      if found.Some? {
        var ms := messages.elems;
        var i :| 0 <= i < |ms| && found.value == ms[i] && Field(ms[i], "type") == JStr("answer");
      }
    }
  }

  /** The handler as written: the content, the chat request, then polling
    * and the answer. */
  method StartTranslate(text: Value, stringify: Value -> string, chat: Value -> Result<Value, Value>,
                        polls: seq<Result<Value, Value>>, list: Result<Value, Value>, duration: int)
    returns (run: HandlerRun)
    ensures run == Handle(text, stringify, chat, polls, list, duration)
  {
    var content := if IsObjectType(text) then JStr(stringify(text)) else text;
    var response := chat(content);
    if response.Err? {
      return HandlerRun(content, Threw(Thrown(response.error)), []);
    }
    if Nullish(text) {
      return HandlerRun(content, Threw(TypeErrorReading("length")), []);
    }
    var chatBody := response.value;
    if Nullish(chatBody) {
      return HandlerRun(content, Threw(TypeErrorReading("data")), []);
    }
    if Nullish(Field(chatBody, "data")) {
      return HandlerRun(content, Threw(TypeErrorReading("conversation_id")), []);
    }
    var polled := PollConversation(polls, list, duration);
    var messages: Value;
    match polled.end {
      case StillPolling =>
        return HandlerRun(content, Polling, polled.waits);
      case PollThrew(f) =>
        return HandlerRun(content, Threw(f), polled.waits);
      case NoMessages =>
        messages := JArray([]);
      case Messages(ms) =>
        messages := ms;
    }
    var result := Answer(messages, text);
    if result.Err? {
      return HandlerRun(content, Threw(result.error), polled.waits);
    }
    run := HandlerRun(content, Replied(result.value), polled.waits);
  }
}
