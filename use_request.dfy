/**
 * The `useRequest` hook: merged options, a request state (data, loading,
 * error, timestamp) and a retry counter kept across calls. The request
 * function is a parameter giving the outcome of its n-th call with given
 * params; the clock is a parameter `now`; debouncing and the abort controller are not
 * modelled.
 */
module UseRequest {
  import opened Wrappers
  import opened Js

  const RequestFailedMessage := "请求失败"

  datatype Options = Options(auto: bool, cacheTime: int, retryCount: int, retryDelay: int,
                             debounceTime: int, requestId: string)

  /** The caller's options; `None` is a key the caller left out. */
  datatype CallerOptions = CallerOptions(auto: Option<bool>, cacheTime: Option<int>, retryCount: Option<int>,
                                         retryDelay: Option<int>, debounceTime: Option<int>, requestId: Option<string>)

  const DefaultOptions := Options(true, 0, 0, 1000, 0, "")

  function Pick<T>(given: Option<T>, default: T): T
  {
    if given.Some? then given.value else default
  }

  /** `{ ...defaultOptions, ...options }` */
  function MergeOptions(o: CallerOptions): (m: Options)
    ensures o.auto.Some? ==> m.auto == o.auto.value
    ensures o.cacheTime.Some? ==> m.cacheTime == o.cacheTime.value
    ensures o.retryCount.Some? ==> m.retryCount == o.retryCount.value
    ensures o.retryDelay.Some? ==> m.retryDelay == o.retryDelay.value
    ensures o.debounceTime.Some? ==> m.debounceTime == o.debounceTime.value
    ensures o.requestId.Some? ==> m.requestId == o.requestId.value
    ensures o.auto.None? ==> m.auto
    ensures o.cacheTime.None? ==> m.cacheTime == 0
    ensures o.retryCount.None? ==> m.retryCount == 0
    ensures o.retryDelay.None? ==> m.retryDelay == 1000
    ensures o.debounceTime.None? ==> m.debounceTime == 0
    ensures o.requestId.None? ==> m.requestId == ""
  {
    Options(Pick(o.auto, DefaultOptions.auto), Pick(o.cacheTime, DefaultOptions.cacheTime),
            Pick(o.retryCount, DefaultOptions.retryCount), Pick(o.retryDelay, DefaultOptions.retryDelay),
            Pick(o.debounceTime, DefaultOptions.debounceTime), Pick(o.requestId, DefaultOptions.requestId))
  }

  lemma MergeNothing()
    ensures MergeOptions(CallerOptions(None, None, None, None, None, None)) == DefaultOptions
  {
  }

  /** How a call of the request function settles. */
  datatype Outcome = Resolved(value: Value) | Rejected(error: Value) | Aborted

  datatype HookState = HookState(
    data: Option<Value>, loading: bool, error: Option<string>, timestamp: Option<int>,
    retries: nat,      // retryCountRef
    calls: nat,        // calls of the request function so far
    waits: seq<int>)   // retry sleeps, in order

  const Initial := HookState(None, false, None, None, 0, 0, [])

  /** The text stored in `error`. */
  function ErrorMessage(e: Value): string
  {
    if e.JError? then e.message else RequestFailedMessage
  }

  function Budget(o: Options, retries: nat): nat
  {
    if retries < o.retryCount then o.retryCount - retries else 0
  }

  /** `executeRequest(params)` from state `s`: the new state and what the
    * call resolves to (`Ok`) or rejects with (`Err`). */
  function RunFrom(o: Options, request: (Value, nat) -> Outcome, params: Value, now: int, s: HookState)
    : (HookState, Result<Option<Value>, Value>)
    decreases Budget(o, s.retries)
  {
    var s1 := s.(loading := true, error := None, calls := s.calls + 1);
    match request(params, s.calls)
    case Resolved(v) =>
      (s1.(data := Some(v), loading := false, error := None, timestamp := Some(now), retries := 0), Ok(Some(v)))
    case Aborted => (s1, Ok(s1.data))
    case Rejected(e) =>
      if s1.retries < o.retryCount then
        RunFrom(o, request, params, now, s1.(retries := s1.retries + 1, waits := s1.waits + [o.retryDelay]))
      else (s1.(loading := false, error := Some(ErrorMessage(e))), Err(e))
  }

  // ---------------------------------------------------------------------------
  // What a call promises

  /** Every call but the last is rejected. When the last one resolves, the
    * data is stored, loading and error are cleared, the time is stamped and
    * the counter reset; when it is aborted, the data and time are kept and
    * loading stays set; when it is rejected, the data is kept, the message
    * recorded and the counter left at `retryCount`. */
  lemma {:induction false} RunOutcome(o: Options, request: (Value, nat) -> Outcome, params: Value, now: int, s: HookState)
    ensures var (t, r) := RunFrom(o, request, params, now, s);
      s.calls < t.calls <= s.calls + 1 + Budget(o, s.retries)
      && (r.Err? ==> t.calls == s.calls + 1 + Budget(o, s.retries))
      && t.waits == s.waits + seq(t.calls - s.calls - 1, _ => o.retryDelay)
      && (forall c :: s.calls <= c < t.calls - 1 ==> request(params, c).Rejected?)
      && (var last := request(params, t.calls - 1);
          (last.Resolved? ==> r == Ok(Some(last.value)) && t.data == Some(last.value) && !t.loading
                              && t.error.None? && t.timestamp == Some(now) && t.retries == 0)
          && (last.Aborted? ==> r == Ok(s.data) && t.data == s.data && t.loading && t.error.None?
                                && t.timestamp == s.timestamp)
          && (last.Rejected? <==> r.Err?))
      && (r.Err? ==> t.data == s.data && !t.loading && t.error == Some(ErrorMessage(r.error))
                     && t.timestamp == s.timestamp
                     && t.retries == (if s.retries < o.retryCount then o.retryCount else s.retries))
    decreases Budget(o, s.retries)
  {
    var s1 := s.(loading := true, error := None, calls := s.calls + 1);
    if request(params, s.calls).Rejected? && s1.retries < o.retryCount {
      var s2 := s1.(retries := s1.retries + 1, waits := s1.waits + [o.retryDelay]);
      RunOutcome(o, request, params, now, s2);
      var t := RunFrom(o, request, params, now, s2).0;
      assert s2.waits + seq(t.calls - s2.calls - 1, _ => o.retryDelay)
          == s.waits + seq(t.calls - s.calls - 1, _ => o.retryDelay);
    }
  }

  /** A resolved call ends with exactly the new data and a reset counter. */
  lemma ResolvedStores(o: Options, request: (Value, nat) -> Outcome, params: Value, now: int, s: HookState)
    requires request(params, s.calls).Resolved?
    ensures var (t, r) := RunFrom(o, request, params, now, s);
      r == Ok(Some(request(params, s.calls).value)) && t.data == Some(request(params, s.calls).value)
      && !t.loading && t.error.None? && t.timestamp == Some(now) && t.retries == 0
  {
  }

  /** An aborted call gives the current data back and records no error. */
  lemma AbortKeepsData(o: Options, request: (Value, nat) -> Outcome, params: Value, now: int, s: HookState)
    requires request(params, s.calls).Aborted?
    ensures var (t, r) := RunFrom(o, request, params, now, s);
      r == Ok(s.data) && t.data == s.data && t.error.None? && t.calls == s.calls + 1 && t.retries == s.retries
  {
  }

  /** Since the counter is not reset when retries run out, the next call
    * after a final failure is not retried: a failure then makes one call. */
  lemma ExhaustedCounterNoRetry(o: Options, request: (Value, nat) -> Outcome, params: Value, now: int, s: HookState, now2: int)
    requires RunFrom(o, request, params, now, s).1.Err?
    requires var t := RunFrom(o, request, params, now, s).0; request(params, t.calls).Rejected?
    ensures var t := RunFrom(o, request, params, now, s).0;
      var (u, r) := RunFrom(o, request, params, now2, t);
      r.Err? && u.calls == t.calls + 1 && u.waits == t.waits
  {
    RunOutcome(o, request, params, now, s);
    var t := RunFrom(o, request, params, now, s).0;
    assert Budget(o, t.retries) == 0;
  }

  /** `isFresh`: a non-zero timestamp younger than `cacheTime`. */
  predicate IsFresh(s: HookState, o: Options, now: int)
  {
    s.timestamp.Some? && s.timestamp.value != 0 && now - s.timestamp.value < o.cacheTime
  }

  /** With the default cache time nothing is ever fresh (the clock does not
    * run backwards). */
  lemma DefaultNeverFresh(s: HookState, now: int)
    requires s.timestamp.Some? ==> s.timestamp.value <= now
    ensures !IsFresh(s, MergeOptions(CallerOptions(None, None, None, None, None, None)), now)
  {
  }

  // ---------------------------------------------------------------------------
  // The hook's state, updated in place

  class RequestHook {
    const options: Options
    const request: (Value, nat) -> Outcome
    var data: Option<Value>
    var loading: bool
    var error: Option<string>
    var timestamp: Option<int>
    var retries: nat
    var calls: nat
    var waits: seq<int>

    function State(): HookState
      reads this
    {
      HookState(data, loading, error, timestamp, retries, calls, waits)
    }

    constructor(caller: CallerOptions, request: (Value, nat) -> Outcome)
      ensures options == MergeOptions(caller) && this.request == request
      ensures State() == Initial
    {
      options := MergeOptions(caller);
      this.request := request;
      data, loading, error, timestamp := None, false, None, None;
      retries, calls, waits := 0, 0, [];
    }

    /** `execute(params)` without debouncing. */
    method Execute(params: Value, now: int) returns (r: Result<Option<Value>, Value>)
      modifies this
      ensures (State(), r) == RunFrom(options, request, params, now, old(State()))
    {
      var settled := false;
      r := Ok(None);
      while !settled
        invariant !settled ==> RunFrom(options, request, params, now, State()) == RunFrom(options, request, params, now, old(State()))
        invariant settled ==> (State(), r) == RunFrom(options, request, params, now, old(State()))
        decreases if settled then 0 else 1, Budget(options, retries)
      {
        settled, r := Attempt(params, now);
      }
    }

    /** One call of the request function inside `executeRequest`: it either
      * settles the call or schedules a retry. */
    method Attempt(params: Value, now: int) returns (settled: bool, r: Result<Option<Value>, Value>)
      modifies this
      ensures settled ==> (State(), r) == RunFrom(options, request, params, now, old(State()))
      ensures !settled ==> RunFrom(options, request, params, now, State()) == RunFrom(options, request, params, now, old(State()))
      ensures !settled ==> Budget(options, retries) < Budget(options, old(retries))
    {
      loading, error := true, None;
      var outcome := request(params, calls);
      calls := calls + 1;
      settled := true;
      match outcome
      case Resolved(v) =>
        data, loading, error, timestamp := Some(v), false, None, Some(now);
        retries := 0;
        r := Ok(Some(v));
      case Aborted =>
        r := Ok(data);
      case Rejected(e) =>
        if retries < options.retryCount {
          retries := retries + 1;
          waits := waits + [options.retryDelay];
          settled, r := false, Ok(None);
        } else {
          loading, error := false, Some(ErrorMessage(e));
          r := Err(e);
        }
    }

    /** `reset()` */
    method Reset()
      modifies this
      ensures State() == Initial.(calls := old(calls), waits := old(waits))
    {
      data, loading, error, timestamp := None, false, None, None;
      retries := 0;
    }

    function Fresh(now: int): bool
      reads this
    {
      IsFresh(State(), options, now)
    }
  }
}
