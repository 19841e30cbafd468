/**
 * The translation manager: the one place holding the current adapter and
 * the configuration it was built from. A new configuration replaces the
 * adapter unless it names the same service type, URL and key; translating
 * before any adapter exists throws.
 */
module TranslateManager {
  import opened Wrappers
  import opened Js
  import opened TranslateAdapter

  const NotInitialised := "翻译服务未初始化"

  /** The manager's fields as a value. */
  datatype ManagerState = ManagerState(adapter: Option<Adapter>, current: Option<TranslateConfig>)

  const Uninitialised := ManagerState(None, None)

  /** `currentConfig?.type === config.type && … apiUrl … && … apiKey …` */
  predicate SameService(current: Option<TranslateConfig>, config: TranslateConfig)
  {
    current.Some? && current.value.kind == config.kind
    && current.value.apiUrl == config.apiUrl && current.value.apiKey == config.apiKey
  }

  /** `initService(config)`: the new state and whether it threw. */
  function Init(st: ManagerState, config: TranslateConfig): (r: (ManagerState, Result<(), string>))
    ensures SameService(st.current, config) ==> r == (st, Ok(()))
    ensures !SameService(st.current, config) && config.kind == Custom ==>
      r == (st, Err(UnsupportedPrefix + "custom"))
    ensures !SameService(st.current, config) && config.kind != Custom ==>
      r.1 == Ok(()) && r.0.current == Some(config)
      && r.0.adapter == Some(Adapter(WithDefaults(config), if config.kind == Google then GoogleTranslator(WithDefaults(config))
                                                           else CozeTranslator(WithDefaults(config))))
  {
    if SameService(st.current, config) then (st, Ok(()))
    else
      match CreateAdapter(config)
      case Err(e) => (st, Err(e))
      case Ok(a) => (ManagerState(Some(a), Some(config)), Ok(()))
  }

  /** Initialising twice with one configuration is initialising once. */
  lemma InitIdempotent(st: ManagerState, config: TranslateConfig)
    ensures Init(Init(st, config).0, config) == Init(st, config)
  {
  }

  /** Once a configuration is installed, a later one with the same type, URL
    * and key changes nothing, whatever its batch size and timeout. */
  lemma SameServiceKept(st: ManagerState, config: TranslateConfig, later: TranslateConfig)
    requires Init(st, config).1.Ok?
    requires later.kind == config.kind && later.apiUrl == config.apiUrl && later.apiKey == config.apiKey
    ensures Init(Init(st, config).0, later) == (Init(st, config).0, Ok(()))
    ensures Init(Init(st, config).0, later).0.adapter == Init(st, config).0.adapter
  {
  }

  /** After any successful initialisation there is an adapter, and it
    * matches the stored configuration's type. */
  lemma InitOkHasAdapter(st: ManagerState, config: TranslateConfig)
    requires st.adapter.Some? <==> st.current.Some?
    requires st.current.Some? ==> (st.adapter.value.translator.GoogleTranslator? <==> st.current.value.kind == Google)
    ensures Init(st, config).1.Ok? ==>
      Init(st, config).0.adapter.Some? && Init(st, config).0.current.Some?
      && Init(st, config).0.current.value.kind == config.kind
      && (Init(st, config).0.adapter.value.translator.GoogleTranslator? <==> config.kind == Google)
  {
  }

  /** The configuration initialised when the manager is first loaded. */
  function DefaultConfig(apiUrl: string, apiKey: Option<string>): TranslateConfig
  {
    TranslateConfig(Google, apiUrl, apiKey, Some(10), Some(10000))
  }

  class TranslateManager {
    var adapter: Option<Adapter>
    var currentConfig: Option<TranslateConfig>

    function State(): ManagerState
      reads this
    {
      ManagerState(adapter, currentConfig)
    }

    constructor()
      ensures State() == Uninitialised
    {
      adapter := None;
      currentConfig := None;
    }

    /** `initService(config)` */
    method InitService(config: TranslateConfig) returns (r: Result<(), string>)
      modifies this
      ensures (State(), r) == Init(old(State()), config)
    {
      if currentConfig.Some? && currentConfig.value.kind == config.kind
         && currentConfig.value.apiUrl == config.apiUrl && currentConfig.value.apiKey == config.apiKey {
        return Ok(());
      }
      var created := CreateAdapter(config);
      if created.Err? {
        return Err(created.error);
      }
      adapter := Some(created.value);
      currentConfig := Some(config);
      r := Ok(());
    }

    /** `getCurrentConfig()` */
    function CurrentConfig(): Option<TranslateConfig>
      reads this
    {
      currentConfig
    }

    /** `translateText(text)`: throws before any adapter exists. */
    method TranslateText(s: Services, text: string) returns (r: Result<string, Failure>)
      ensures adapter.None? ==> r == Err(ErrorWith(JStr(NotInitialised)))
      ensures adapter.Some? ==> r == TranslateAdapter.TranslateText(adapter.value, s, text)
    {
      if adapter.None? {
        return Err(ErrorWith(JStr(NotInitialised)));
      }
      r := TranslateAdapter.TranslateText(adapter.value, s, text);
    }

    /** `translateTexts(texts)`: throws before any adapter exists, and
      * otherwise answers one text per text. */
    method TranslateTexts(s: Services, texts: seq<string>) returns (r: Result<seq<string>, Failure>)
      ensures adapter.None? ==> r == Err(ErrorWith(JStr(NotInitialised)))
      ensures adapter.Some? ==> r == Ok(TranslateTextsSpec(adapter.value, s, texts))
      ensures r.Ok? ==> |r.value| == |texts|
    {
      if adapter.None? {
        return Err(ErrorWith(JStr(NotInitialised)));
      }
      var rs := TranslateAdapter.TranslateTexts(adapter.value, s, texts);
      TranslateTextsPerText(adapter.value, s, texts);
      r := Ok(rs);
    }
  }

  /** The exported instance: a fresh manager initialised with the Google
    * service, so it translates from the start. */
  method Instance(apiUrl: string, apiKey: Option<string>) returns (m: TranslateManager)
    ensures fresh(m)
    ensures m.currentConfig == Some(DefaultConfig(apiUrl, apiKey))
    ensures m.adapter.Some? && m.adapter.value.translator.GoogleTranslator?
    ensures m.adapter.value.config == DefaultConfig(apiUrl, apiKey)
  {
    m := new TranslateManager();
    var r := m.InitService(DefaultConfig(apiUrl, apiKey));
  }
}
