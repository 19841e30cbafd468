/**
 * The HTTP client wrapper used by the article service: the check of the
 * standard reply shape, the wrapping of non-standard replies into
 * `{items}`, the response and error interceptors, `:name` URL parameters
 * and the error wrapping of `request`. Axios itself is a parameter; ISO
 * timestamps are a parameter `timestamp`.
 */
module Api {
  import opened Wrappers
  import opened Js
  import opened JsString

  const RequestFailed := "请求失败"
  const UnknownErrorCode := "UNKNOWN_ERROR"
  const RequestErrorCode := "REQUEST_ERROR"
  const UnknownMessage := "未知错误"

  /** `isValidApiResponse(data)` */
  predicate IsValidApiResponse(data: Value)
  {
    Truthy(data) && IsObjectType(data)
    && (Field(data, "status") == JStr("success") || Field(data, "status") == JStr("error"))
    && Field(data, "message").JStr?
    && Field(data, "timestamp").JStr?
    && (Field(data, "status") == JStr("error")
        || (Truthy(Field(data, "data")) && IsObjectType(Field(data, "data"))))
  }

  /** A standard success reply holding `items` and a null pagination. */
  function Wrapped(items: seq<Value>, timestamp: string): Value
  {
    JObject(map["status" := JStr("success"), "message" := JStr("Success"),
                "data" := JObject(map["items" := JArray(items), "pagination" := JNull]),
                "timestamp" := JStr(timestamp)])
  }

  /** `transformResponse(data)`: an array becomes the items, another object
    * the single item, anything else no items. */
  function TransformResponse(data: Value, timestamp: string): (r: Value)
    ensures IsValidApiResponse(r)
    ensures Field(r, "status") == JStr("success")
    ensures Field(Field(r, "data"), "pagination") == JNull
    ensures data.JArray? ==> Field(Field(r, "data"), "items") == data
    ensures !data.JArray? && Truthy(data) && IsObjectType(data) ==> Field(Field(r, "data"), "items") == JArray([data])
    ensures !(Truthy(data) && IsObjectType(data)) ==> Field(Field(r, "data"), "items") == JArray([])
  {
    if data.JArray? then Wrapped(data.elems, timestamp)
    else if Truthy(data) && IsObjectType(data) then Wrapped([data], timestamp)
    else Wrapped([], timestamp)
  }

  /** The response interceptor on a reply body. */
  function InterceptResponse(data: Value, timestamp: string): Value
  {
    if !IsValidApiResponse(data) then TransformResponse(data, timestamp) else data
  }

  /** Whatever the server answers, the caller sees a valid reply; valid
    * replies pass unchanged, so intercepting twice changes nothing more. */
  lemma InterceptedIsValid(data: Value, timestamp: string, later: string)
    ensures IsValidApiResponse(InterceptResponse(data, timestamp))
    ensures IsValidApiResponse(data) ==> InterceptResponse(data, timestamp) == data
    ensures InterceptResponse(InterceptResponse(data, timestamp), later) == InterceptResponse(data, timestamp)
  {
  }

  // ---------------------------------------------------------------------------
  // Errors

  /** An `ApiError` object. */
  function ApiErrorValue(message: Value, code: Value, details: Value, timestamp: string): Value
  {
    JObject(map["status" := JStr("error"), "message" := message,
                "error" := JObject(map["code" := code, "details" := details]),
                "timestamp" := JStr(timestamp)])
  }

  /** `isApiError(error)` */
  predicate IsApiError(e: Value)
  {
    Truthy(e) && Field(e, "status") == JStr("error") && Field(e, "message").JStr?
    && Truthy(Field(e, "error")) && Field(Field(e, "error"), "code").JStr?
  }

  /** The response error interceptor: what it rejects with, or the
    * TypeError of reading `error.config` when `error` is nullish. */
  function InterceptError(error: Value, timestamp: string): (r: Result<Value, Failure>)
    ensures Nullish(error) <==> r.Err?
    ensures r.Ok? ==> Field(r.value, "message") == Or(Field(error, "message"), JStr(RequestFailed))
    ensures r.Ok? ==> Field(Field(r.value, "error"), "code") == Or(Field(error, "code"), JStr(UnknownErrorCode))
  {
    if Nullish(error) then Err(TypeErrorReading("config"))
    else Ok(ApiErrorValue(Or(Field(error, "message"), JStr(RequestFailed)),
                          Or(Field(error, "code"), JStr(UnknownErrorCode)),
                          Field(Field(error, "response"), "data"), timestamp))
  }

  /** What `request` throws for a failure `error`: an `ApiError` as it is,
    * anything else wrapped with code `REQUEST_ERROR`. */
  function RequestError(error: Value, timestamp: string): (r: Value)
    ensures IsApiError(r)
    ensures IsApiError(error) ==> r == error
  {
    if IsApiError(error) then error
    else ApiErrorValue(if error.JError? then Field(error, "message") else JStr(UnknownMessage),
                       JStr(RequestErrorCode), error, timestamp)
  }

  /** The interceptor's rejection reaches the caller of `request` unchanged
    * when the underlying error's message and code are strings or absent. */
  lemma InterceptedErrorPassesThrough(error: Value, t1: string, t2: string)
    requires !Nullish(error)
    requires Field(error, "message").JStr? || !Truthy(Field(error, "message"))
    requires Field(error, "code").JStr? || !Truthy(Field(error, "code"))
    ensures RequestError(InterceptError(error, t1).value, t2) == InterceptError(error, t1).value
  {
  }

  /** Wrapping is idempotent: a wrapped error is an `ApiError`. */
  lemma RequestErrorIdempotent(error: Value, t1: string, t2: string)
    ensures RequestError(RequestError(error, t1), t2) == RequestError(error, t1)
  {
  }

  // ---------------------------------------------------------------------------
  // URL parameters and `request`

  // The URL parameters are an object's own string-keyed properties, given
  // as (key, value) pairs in creation order.

  function DigitValue(c: char): nat
  {
    if '0' <= c <= '9' then c as int - '0' as int else 0
  }

  /** The number a string of decimal digits spells. */
  function DecimalValue(key: string): nat
    decreases |key|
  {
    if key == [] then 0 else DecimalValue(key[..|key| - 1]) * 10 + DigitValue(key[|key| - 1])
  }

  /** An array index key: the canonical decimal form of an integer below
    * 2^32 - 1 (section 6.1.7 of ECMAScript 2024). */
  predicate IsArrayIndex(key: string)
  {
    key != [] && (forall k :: 0 <= k < |key| ==> '0' <= key[k] <= '9')
    && (key[0] != '0' || |key| == 1) && DecimalValue(key) < 0xFFFF_FFFF
  }

  function IndexEntries(params: seq<(string, string)>): (r: seq<(string, string)>)
    ensures forall i :: 0 <= i < |r| ==> IsArrayIndex(r[i].0)
  {
    if params == [] then []
    else (if IsArrayIndex(params[0].0) then [params[0]] else []) + IndexEntries(params[1..])
  }

  function OtherEntries(params: seq<(string, string)>): (r: seq<(string, string)>)
    ensures forall i :: 0 <= i < |r| ==> !IsArrayIndex(r[i].0)
  {
    if params == [] then []
    else (if IsArrayIndex(params[0].0) then [] else [params[0]]) + OtherEntries(params[1..])
  }

  predicate SortedByIndex(xs: seq<(string, string)>)
  {
    forall i, j :: 0 <= i < j < |xs| ==> DecimalValue(xs[i].0) <= DecimalValue(xs[j].0)
  }

  function InsertByIndex(e: (string, string), sorted: seq<(string, string)>): seq<(string, string)>
  {
    if sorted == [] || DecimalValue(e.0) <= DecimalValue(sorted[0].0) then [e] + sorted
    else [sorted[0]] + InsertByIndex(e, sorted[1..])
  }

  function SortByIndex(xs: seq<(string, string)>): seq<(string, string)>
  {
    if xs == [] then [] else InsertByIndex(xs[0], SortByIndex(xs[1..]))
  }

  /** `Object.entries(params)`: the array index keys first, in ascending
    * numeric order, then the other keys in creation order (the
    * OrdinaryOwnPropertyKeys order, section 10.1.11.1 of ECMAScript 2024). */
  function Entries(params: seq<(string, string)>): seq<(string, string)>
  {
    SortByIndex(IndexEntries(params)) + OtherEntries(params)
  }

  lemma {:induction false} InsertByIndexCount(e: (string, string), sorted: seq<(string, string)>)
    ensures multiset(InsertByIndex(e, sorted)) == multiset{e} + multiset(sorted)
    decreases |sorted|
  {
    if !(sorted == [] || DecimalValue(e.0) <= DecimalValue(sorted[0].0)) {
      InsertByIndexCount(e, sorted[1..]);
      assert sorted == [sorted[0]] + sorted[1..];
    }
  }

  /** Every key inserted is at least `low` when `e` and all of `sorted` are. */
  lemma {:induction false} InsertByIndexBound(e: (string, string), sorted: seq<(string, string)>, low: nat)
    requires low <= DecimalValue(e.0)
    requires forall k :: 0 <= k < |sorted| ==> low <= DecimalValue(sorted[k].0)
    ensures forall k :: 0 <= k < |InsertByIndex(e, sorted)| ==> low <= DecimalValue(InsertByIndex(e, sorted)[k].0)
    decreases |sorted|
  {
    if sorted != [] && DecimalValue(e.0) > DecimalValue(sorted[0].0) {
      InsertByIndexBound(e, sorted[1..], low);
    }
  }

  /** A sorted sequence with a first element no larger than the rest. */
  lemma ConsSorted(x: (string, string), rest: seq<(string, string)>)
    requires SortedByIndex(rest)
    requires forall k :: 0 <= k < |rest| ==> DecimalValue(x.0) <= DecimalValue(rest[k].0)
    ensures SortedByIndex([x] + rest)
  {
    var r := [x] + rest;
    forall i, j | 0 <= i < j < |r| ensures DecimalValue(r[i].0) <= DecimalValue(r[j].0) {
      assert r[j] == rest[j - 1];
      if i > 0 { assert r[i] == rest[i - 1]; }
    }
  }

  lemma {:induction false} InsertByIndexSorted(e: (string, string), sorted: seq<(string, string)>)
    requires SortedByIndex(sorted)
    ensures SortedByIndex(InsertByIndex(e, sorted))
    decreases |sorted|
  {
    if sorted == [] || DecimalValue(e.0) <= DecimalValue(sorted[0].0) {
      ConsSorted(e, sorted);
    } else {
      var tail := sorted[1..];
      assert SortedByIndex(tail);
      InsertByIndexSorted(e, tail);
      InsertByIndexBound(e, tail, DecimalValue(sorted[0].0));
      ConsSorted(sorted[0], InsertByIndex(e, tail));
    }
  }

  lemma {:induction false} SortByIndexKeeps(xs: seq<(string, string)>)
    ensures SortedByIndex(SortByIndex(xs))
    ensures multiset(SortByIndex(xs)) == multiset(xs)
    decreases |xs|
  {
    if xs != [] {
      SortByIndexKeeps(xs[1..]);
      InsertByIndexSorted(xs[0], SortByIndex(xs[1..]));
      InsertByIndexCount(xs[0], SortByIndex(xs[1..]));
      assert xs == [xs[0]] + xs[1..];
    }
  }

  lemma {:induction false} SplitKeeps(params: seq<(string, string)>)
    ensures multiset(IndexEntries(params)) + multiset(OtherEntries(params)) == multiset(params)
    decreases |params|
  {
    if params != [] {
      SplitKeeps(params[1..]);
      assert params == [params[0]] + params[1..];
    }
  }

  lemma {:induction false} NoIndexKeys(params: seq<(string, string)>)
    requires forall i :: 0 <= i < |params| ==> !IsArrayIndex(params[i].0)
    ensures IndexEntries(params) == [] && OtherEntries(params) == params
    decreases |params|
  {
    if params != [] { NoIndexKeys(params[1..]); }
  }

  /** The entries are the parameters reordered: array index keys first and
    * ascending, and with no such key the creation order itself. */
  lemma EntriesOrder(params: seq<(string, string)>)
    ensures multiset(Entries(params)) == multiset(params)
    ensures var e := Entries(params);
      forall i, j :: 0 <= i < j < |e| && IsArrayIndex(e[j].0) ==>
        IsArrayIndex(e[i].0) && DecimalValue(e[i].0) <= DecimalValue(e[j].0)
    ensures (forall i :: 0 <= i < |params| ==> !IsArrayIndex(params[i].0)) ==> Entries(params) == params
  {
    var sorted := SortByIndex(IndexEntries(params));
    var others := OtherEntries(params);
    SortByIndexKeeps(IndexEntries(params));
    SplitKeeps(params);
    forall i | 0 <= i < |sorted| ensures IsArrayIndex(sorted[i].0) {
      assert sorted[i] in multiset(IndexEntries(params));
    }
    var e := Entries(params);
    forall i, j | 0 <= i < j < |e| && IsArrayIndex(e[j].0)
      ensures IsArrayIndex(e[i].0) && DecimalValue(e[i].0) <= DecimalValue(e[j].0)
    {
      assert e[i] == sorted[i] && e[j] == sorted[j];
    }
    if forall i :: 0 <= i < |params| ==> !IsArrayIndex(params[i].0) { NoIndexKeys(params); }
  }

  /** `finalUrl.replace(':' + key, value)` for each entry in turn. */
  function ReplacedUrl(url: string, entries: seq<(string, string)>): string
    decreases |entries|
  {
    if entries == [] then url
    else ReplacedUrl(ReplaceFirst(url, ":" + entries[0].0, entries[0].1), entries[1..])
  }

  /** `replaceUrlParams(url, params)`, walking `Object.entries(params)`. */
  method ReplaceUrlParams(url: string, params: seq<(string, string)>) returns (finalUrl: string)
    ensures finalUrl == ReplacedUrl(url, Entries(params))
  {
    var entries := Entries(params);
    finalUrl := url;
    var i := 0;
    while i < |entries|
      invariant i <= |entries|
      invariant ReplacedUrl(finalUrl, entries[i..]) == ReplacedUrl(url, entries)
    {
      assert entries[i..][1..] == entries[i + 1..];
      finalUrl := ReplaceFirst(finalUrl, ":" + entries[i].0, entries[i].1);
      i := i + 1;
    }
  }

  lemma NoColonNoOccurrence(url: string, key: string)
    requires forall k :: 0 <= k < |url| ==> url[k] != ':'
    ensures !Includes(url, ":" + key)
  {
    var p := ":" + key;
    forall i: nat | i + |p| <= |url|
      ensures !OccursAt(url, p, i)
    {
      assert url[i..i + |p|][0] == url[i];
    }
    IncludesIff(url, p);
  }

  /** A URL without `:` has nothing to replace and comes back unchanged. */
  lemma {:induction false} NoColonUnchanged(url: string, entries: seq<(string, string)>)
    requires forall k :: 0 <= k < |url| ==> url[k] != ':'
    ensures ReplacedUrl(url, entries) == url
    decreases |entries|
  {
    if entries != [] {
      NoColonNoOccurrence(url, entries[0].0);
      ReplaceFirstAbsent(url, ":" + entries[0].0, entries[0].1);
      NoColonUnchanged(url, entries[1..]);
    }
  }

  /** One parameter whose value has no `$` replaces the first `:key` by that value. */
  lemma OneParamReplaced(url: string, key: string, value: string)
    requires Includes(url, ":" + key)
    requires forall k :: 0 <= k < |value| ==> value[k] != '$'
    ensures var i := IndexOf(url, ":" + key);
      0 <= i && OccursAt(url, ":" + key, i)
      && ReplacedUrl(url, Entries([(key, value)])) == url[..i] + value + url[i + |key| + 1..]
  {
    assert IndexEntries([(key, value)]) + OtherEntries([(key, value)]) == [(key, value)];
    assert SortByIndex(IndexEntries([(key, value)])) == IndexEntries([(key, value)]);
    ReplaceFirstLiteral(url, ":" + key, value);
  }

  /** `request(config)`: `send` is the HTTP client with both interceptors,
    * called with the final URL. */
  function Request(url: string, urlParams: Option<seq<(string, string)>>,
                   send: string -> Result<Value, Value>, timestamp: string): (r: Result<Value, Value>)
    ensures r.Err? ==> IsApiError(r.error)
  {
    var finalUrl := if urlParams.Some? then ReplacedUrl(url, Entries(urlParams.value)) else url;
    match send(finalUrl)
    case Ok(data) => Ok(data)
    case Err(e) => Err(RequestError(e, timestamp))
  }
}
