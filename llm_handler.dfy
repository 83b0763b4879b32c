/**
 * The stateful half of backend/llm.py: the module-level globals, `UniversalLLMHandler`,
 * the configuration/caching manager, `main_llm_processor`, the legacy entry points and
 * the handler factory. Clock readings are integer parameters; the provider calls are
 * the constant stubs of the source.
 */
module LlmHandler {
  import opened Wrappers
  import opened PyStrings
  import opened JsonValue
  import opened LlmRegistry
  import opened LlmRequests
  import opened LlmProcessing

  // ---------------------------------------------------------------- module-level state

  datatype GlobalStats = GlobalStats(requestCount: int, lastError: Option<string>, debugMessages: seq<string>)

  /** `GLOBAL_CLIENT_CACHE` (its keys; every value is `None`), `GLOBAL_REQUEST_COUNT`, `GLOBAL_LAST_ERROR`, `GLOBAL_DEBUG_MESSAGES`. */
  class Globals {
    var clientCache: set<string>
    var requestCount: int
    var lastError: Option<string>
    var debugMessages: seq<string>

    /** The values at import time. */
    constructor()
      ensures clientCache == {} && requestCount == 0 && lastError == None && debugMessages == []
    {
      clientCache := {};
      requestCount := 0;
      lastError := None;
      debugMessages := [];
    }

    /** `get_global_stats` */
    function Stats(): GlobalStats
      reads this`requestCount, this`lastError, this`debugMessages
    {
      GlobalStats(requestCount, lastError, debugMessages)
    }

    /** A request ends: the debug line is added and, for a failure, the last error is set. */
    method RecordOutcome(line: string, error: Option<string>)
      modifies this
      ensures debugMessages == old(debugMessages) + [line]
      ensures lastError == if error.Some? then error else old(lastError)
      ensures requestCount == old(requestCount) && clientCache == old(clientCache)
    {
      if error.Some? {
        lastError := error;
      }
      debugMessages := debugMessages + [line];
    }

    /** `reset_global_state`: the statistics read as freshly imported and the client cache is empty. */
    method Reset()
      modifies this
      ensures Stats() == GlobalStats(0, None, []) && clientCache == {}
    {
      requestCount := 0;
      lastError := None;
      debugMessages := [];
      clientCache := {};
    }
  }

  /** The `try` body for message `i`, whose outcome is the `i`-th of `outcomes`. */
  method NextOutcome(processors: Processors, modelType: string, messages: seq<Json>, i: nat,
                     ghost outcomes: seq<(Json, Option<PyError>)>)
    returns (m: Json, err: Option<PyError>)
    requires i < |messages| && outcomes == Outcomes(processors, modelType, messages)
    ensures i < |outcomes| && outcomes[i] == (m, err)
  {
    m, err := ProcessOneMessage(processors, modelType, messages[i]);
  }

  /**
   * One round of the loop of `process_all_message_types_and_handle_errors_and_log`:
   * message `i` is processed, then kept, dropped or kept and logged.
   */
  method ProcessRound(processors: Processors, modelType: string, messages: seq<Json>, i: nat, handled: bool,
                      ghost outcomes: seq<(Json, Option<PyError>)>, r: seq<Json>, lines: seq<string>)
    returns (r': seq<Json>, lines': seq<string>)
    requires i < |messages| && outcomes == Outcomes(processors, modelType, messages)
    requires PrefixState(outcomes, i, handled, r, lines)
    ensures PrefixState(outcomes, i + 1, handled, r', lines')
  {
    var m, err := NextOutcome(processors, modelType, messages, i, outcomes);
    PrefixStateNext(outcomes, i, handled, r, lines);
    r', lines' := r, lines;
    if err.None? {
      r' := r + [m];
    } else if !handled {
      lines' := lines + [ErrorLine(i, err.value)];
      r' := r + [m];
    }
  }

  /**
   * The loop of `process_all_message_types_and_handle_errors_and_log` over the messages:
   * what it returns and the lines it logs, in order.
   */
  method ProcessMessageRounds(messages: seq<Json>, modelType: string, handled: bool, processors: Processors)
    returns (r: seq<Json>, lines: seq<string>)
    ensures ProcessPrefix(Outcomes(processors, modelType, messages), |messages|, handled) == Processing(r, lines)
  {
    ghost var outcomes := Outcomes(processors, modelType, messages);
    lines := [];
    r := [];
    for i := 0 to |messages|
      invariant PrefixState(outcomes, i, handled, r, lines)
    {
      r, lines := ProcessRound(processors, modelType, messages, i, handled, outcomes, r, lines);
    }
  }

  /**
   * `process_all_message_types_and_handle_errors_and_log`; the error handlers are known
   * by model type only. The header and the loop's lines go to the debug messages in that
   * order; they are appended once the loop is done, as nothing reads the globals in between.
   */
  method ProcessAllMessages(g: Globals, messages: seq<Json>, modelType: string, debugMode: Json,
                            handlers: set<string>, processors: Processors)
    returns (r: seq<Json>)
    modifies g
    ensures r == ProcessAll(messages, modelType, handlers, processors).processed
    ensures g.debugMessages == old(g.debugMessages)
      + (if Truthy(debugMode) then [DebugHeader(messages, modelType)] else [])
      + ProcessAll(messages, modelType, handlers, processors).log
    ensures g.requestCount == old(g.requestCount) && g.lastError == old(g.lastError)
    ensures g.clientCache == old(g.clientCache)
    ensures g.Stats() == AfterProcessing(old(g.Stats()), messages, modelType, debugMode, handlers, processors)
  {
    var header := if Truthy(debugMode) then [DebugHeader(messages, modelType)] else [];
    var lines;
    r, lines := ProcessMessageRounds(messages, modelType, modelType in handlers, processors);
    g.debugMessages := g.debugMessages + header + lines;
  }

  /** The statistics after `process_all_message_types…`: only the debug lines grow. */
  function AfterProcessing(before: GlobalStats, messages: seq<Json>, modelType: string, debugMode: Json,
                           handlers: set<string>, processors: Processors): (r: GlobalStats)
  {
    GlobalStats(before.requestCount, before.lastError,
                before.debugMessages
                + (if Truthy(debugMode) then [DebugHeader(messages, modelType)] else [])
                + ProcessAll(messages, modelType, handlers, processors).log)
  }

  // ---------------------------------------------------------------- UniversalLLMHandler

  /** One `request_history` record. */
  datatype HistoryEntry = HistoryEntry(model: string, duration: int, success: bool, messages: seq<Json>)

  /** The line appended to the debug messages when request `n` succeeds or fails. */
  function SuccessLine(n: int): (r: string) {
    "Request " + IntToString(n) + " completed successfully"
  }

  function FailureLine(n: int, e: PyError): (r: string) {
    "Request " + IntToString(n) + " failed: " + ErrorText(e)
  }

  /**
   * The statistics after one `setup_and_stream_response` for `request`: the counter goes
   * up, the outcome line names the new count, and a failure becomes the last error.
   */
  function AfterRequest(before: GlobalStats, request: Result<ProviderRequest, PyError>): (r: GlobalStats)
  {
    var n := before.requestCount + 1;
    match request
    case Ok(_) => GlobalStats(n, before.lastError, before.debugMessages + [SuccessLine(n)])
    case Err(e) => GlobalStats(n, Some(ErrorText(e)), before.debugMessages + [FailureLine(n, e)])
  }

  /** Every exception inside `setup_and_stream_response` is turned into this completion. */
  function HandlerError(start: int, finish: int): (r: Completion) {
    Completion(finish - start, "Error occurred")
  }

  /** What `setup_and_stream_response` returns for the request it tried to build. */
  function HandlerResult(request: Result<ProviderRequest, PyError>, start: int, finish: int): (c: Completion)
    ensures request.Ok? <==> c == StubCompletion
    ensures request.Err? <==> c.code == "Error occurred"
  {
    if request.Ok? then StubCompletion else HandlerError(start, finish)
  }

  class UniversalLlmHandler {
    const defaultModels: seq<Llm>
    const debugEnabled: bool
    var clients: map<string, Client>
    var requestHistory: seq<HistoryEntry>

    /** `debugEnabled` stands for `IS_DEBUG_ENABLED`, whose value is set outside this code. */
    constructor(defaultModels: seq<Llm>, debugEnabled: bool)
      ensures this.defaultModels == defaultModels && this.debugEnabled == debugEnabled
      ensures clients == map[] && requestHistory == []
    {
      this.defaultModels := defaultModels;
      this.debugEnabled := debugEnabled;
      clients := map[];
      requestHistory := [];
    }

    /** The `if api_key not in self.clients` step of the three handlers that keep a client. */
    method RegisterClient(route: Result<Provider, PyError>, apiKey: string, baseUrl: Json)
      modifies this
      ensures clients == ClientsAfter(old(clients), route, apiKey, baseUrl)
      ensures requestHistory == old(requestHistory)
    {
      if route.Ok? && apiKey !in clients {
        match route.value
        case OpenAI => clients := clients[apiKey := OpenAIClient(apiKey, baseUrl)];
        case Claude => clients := clients[apiKey := AnthropicClient(apiKey)];
        case Gemini => clients := clients[apiKey := GeminiClient(apiKey)];
        case DeepSeek =>
      }
    }

    /**
     * `setup_and_stream_response`: the request counter goes up first; a routed request
     * builds a client for an unseen key before anything can fail; then either the history
     * grows and the stub result is returned, or the error is recorded and swallowed.
     * `start` and `finish` are the clock readings.
     */
    method SetupAndStreamResponse(g: Globals, processImage: ImageProcessor, messages: seq<Json>, apiKey: string,
                                  model: ModelSpec, baseUrl: Json, start: int, finish: int)
      returns (c: Completion)
      modifies this, g
      ensures g.requestCount == old(g.requestCount) + 1 && g.clientCache == old(g.clientCache)
      ensures clients == ClientsAfter(old(clients), Route(model.modelName), apiKey, baseUrl)
      ensures var request := BuildRequest(processImage, messages, apiKey, model, baseUrl);
        c == HandlerResult(request, start, finish)
        && (request.Ok? ==>
              requestHistory == old(requestHistory) + [HistoryEntry(model.modelName, finish - start, true, messages)]
              && g.debugMessages == old(g.debugMessages) + [SuccessLine(g.requestCount)]
              && g.lastError == old(g.lastError))
        && (request.Err? ==>
              requestHistory == old(requestHistory)
              && g.debugMessages == old(g.debugMessages) + [FailureLine(g.requestCount, request.error)]
              && g.lastError == Some(ErrorText(request.error)))
      ensures g.Stats() == AfterRequest(old(g.Stats()), BuildRequest(processImage, messages, apiKey, model, baseUrl))
    {
      g.requestCount := g.requestCount + 1;
      var route := Route(model.modelName);
      RegisterClient(route, apiKey, baseUrl);
      var request := BuildRequest(processImage, messages, apiKey, model, baseUrl);
      c := HandlerResult(request, start, finish);
      if request.Ok? {
        requestHistory := requestHistory + [HistoryEntry(model.modelName, finish - start, true, messages)];
        g.RecordOutcome(SuccessLine(g.requestCount), None);
      } else {
        g.RecordOutcome(FailureLine(g.requestCount, request.error), Some(ErrorText(request.error)));
      }
    }
  }

  // ---------------------------------------------------------------- the configuration cache

  /** The cache key of a model name. */
  function ConfigKey(name: string): (r: string) {
    "config_" + name
  }

  /** The cache bound: a non-positive `cache_size` keeps the cache empty. */
  ghost predicate CacheValid(cache: Fields, cacheSize: int) {
    DistinctKeys(cache) && |cache| <= (if cacheSize > 0 then cacheSize else 0)
  }

  /** `self.config.get(model_name, {})` */
  function ConfigFor(config: Json, name: string): (r: Result<Json, PyError>)
    ensures r.Ok? <==> config.JObj?
  {
    if config.JObj? then Ok(Get(config.fields, name).GetOr(JObj([])))
    else Err(AttributeError("'" + TypeName(config) + "' object has no attribute 'get'"))
  }

  /**
   * `get_model_config` on a cache: the value returned and the cache afterwards. On a full
   * cache the first-inserted key is evicted, and `next(iter({}))` raises when the cache
   * is empty.
   */
  function CacheLookup(cache: Fields, cacheSize: int, config: Json, name: string)
    : (r: Result<(Json, Fields), PyError>)
    ensures r.Ok? ==> Get(r.value.1, ConfigKey(name)) == Some(r.value.0) && |r.value.1| <= |cache| + 1
  {
    var key := ConfigKey(name);
    match Get(cache, key)
    case Some(hit) => Ok((hit, cache))
    case None =>
      var value :- ConfigFor(config, name);
      if |cache| >= cacheSize then
        if |cache| == 0 then Err(StopIteration)
        else
          KeyIndexUnique(cache[1..] + [(key, value)], key, |cache| - 1);
          Ok((value, cache[1..] + [(key, value)]))
      else
        KeyIndexUnique(cache + [(key, value)], key, |cache|);
        Ok((value, cache + [(key, value)]))
  }

  /** A hit returns the cached value and leaves the cache as it was. */
  lemma CacheHit(cache: Fields, cacheSize: int, config: Json, name: string)
    requires HasKey(cache, ConfigKey(name))
    ensures CacheLookup(cache, cacheSize, config, name) == Ok((Get(cache, ConfigKey(name)).value, cache))
  {
  }

  /**
   * A miss looks the name up in the configuration (an empty dict when absent), evicts
   * the first-inserted entry when the cache is full, and appends the new entry last.
   */
  lemma CacheMiss(cache: Fields, cacheSize: int, config: Json, name: string)
    requires !HasKey(cache, ConfigKey(name))
    ensures var r := CacheLookup(cache, cacheSize, config, name);
      (r.Ok? <==> ConfigFor(config, name).Ok? && (|cache| < cacheSize || |cache| > 0))
      && (r.Ok? ==>
            r.value.0 == Get(config.fields, name).GetOr(JObj([]))
            && r.value.1 == (if |cache| >= cacheSize then cache[1..] else cache) + [(ConfigKey(name), r.value.0)])
      && (config.JObj? && |cache| >= cacheSize && |cache| == 0 ==> r == Err(StopIteration))
  {
  }

  /** The bound and distinct keys survive every lookup. */
  lemma CacheStaysValid(cache: Fields, cacheSize: int, config: Json, name: string)
    requires CacheValid(cache, cacheSize)
    ensures CacheLookup(cache, cacheSize, config, name).Ok? ==>
      CacheValid(CacheLookup(cache, cacheSize, config, name).value.1, cacheSize)
  {
    var key := ConfigKey(name);
    if !HasKey(cache, key) && CacheLookup(cache, cacheSize, config, name).Ok? {
      var value := CacheLookup(cache, cacheSize, config, name).value.0;
      var kept := if |cache| >= cacheSize then cache[1..] else cache;
      assert forall i :: 0 <= i < |kept| ==> kept[i].0 != key by {
        forall i | 0 <= i < |kept| ensures kept[i].0 != key {
          var j := if |cache| >= cacheSize then i + 1 else i;
          assert kept[i] == cache[j];
          GetAt(cache, j);
        }
      }
      assert forall i, j :: 0 <= i < j < |kept| ==> kept[i].0 != kept[j].0 by {
        forall i, j | 0 <= i < j < |kept| ensures kept[i].0 != kept[j].0 {
          var d := if |cache| >= cacheSize then 1 else 0;
          assert kept[i] == cache[i + d] && kept[j] == cache[j + d];
        }
      }
      var r := kept + [(key, value)];
      assert forall i, j :: 0 <= i < j < |r| ==> r[i].0 != r[j].0 by {
        forall i, j | 0 <= i < j < |r| ensures r[i].0 != r[j].0 {
          if j == |kept| {
            assert r[i] == kept[i] && r[j] == (key, value);
          } else {
            assert r[i] == kept[i] && r[j] == kept[j];
          }
        }
      }
    }
  }

  /** Once a lookup has succeeded the next one hits, whatever the configuration says by then. */
  lemma CacheRemembers(cache: Fields, cacheSize: int, config: Json, config': Json, name: string)
    requires CacheValid(cache, cacheSize)
    requires CacheLookup(cache, cacheSize, config, name).Ok?
    ensures var first := CacheLookup(cache, cacheSize, config, name).value;
      CacheLookup(first.1, cacheSize, config', name) == Ok((first.0, first.1))
  {
    var key := ConfigKey(name);
    var first := CacheLookup(cache, cacheSize, config, name).value;
    if !HasKey(cache, key) {
      var kept := if |cache| >= cacheSize then cache[1..] else cache;
      assert first.1 == kept + [(key, first.0)];
      CacheStaysValid(cache, cacheSize, config, name);
      GetAt(first.1, |kept|);
    }
  }

  /** One `performance_data` record and one `error_log` record. */
  datatype PerformanceEntry = PerformanceEntry(model: string, duration: int, success: bool, timestamp: int)
  datatype ErrorEntry = ErrorEntry(model: string, error: string, timestamp: int)

  datatype RequestLogs = RequestLogs(requestCount: int, performanceData: seq<PerformanceEntry>, errorLog: seq<ErrorEntry>)

  /**
   * The counter and logs after one `log_request`: a performance record when tracking is
   * on, and an error record only for a failure with a non-empty message.
   */
  function Logged(before: RequestLogs, tracking: bool, modelName: string, duration: int, success: bool,
                  errorMsg: Option<string>, now: int): (r: RequestLogs)
  {
    RequestLogs(before.requestCount + 1,
                before.performanceData + (if tracking then [PerformanceEntry(modelName, duration, success, now)] else []),
                before.errorLog
                + (if !success && errorMsg.Some? && errorMsg.value != "" then [ErrorEntry(modelName, errorMsg.value, now)] else []))
  }

  /**
   * `LLMConfigurationAndLoggingAndCachingManager`. The configuration file's contents are
   * the `config` argument; the file names and the logger are not part of this model.
   */
  class ConfigManager {
    const cacheSize: int
    const performanceTracking: bool
    var config: Json
    var cache: Fields
    var requestCount: int
    var performanceData: seq<PerformanceEntry>
    var errorLog: seq<ErrorEntry>

    ghost predicate Valid()
      reads this
    {
      CacheValid(cache, cacheSize)
    }

    /** The request counter and the two logs. */
    function Logs(): RequestLogs
      reads this`requestCount, this`performanceData, this`errorLog
    {
      RequestLogs(requestCount, performanceData, errorLog)
    }

    constructor(config: Json, cacheSize: int, performanceTracking: bool)
      ensures Valid()
      ensures this.config == config && this.cacheSize == cacheSize && this.performanceTracking == performanceTracking
      ensures cache == [] && requestCount == 0 && performanceData == [] && errorLog == []
    {
      this.config := config;
      this.cacheSize := cacheSize;
      this.performanceTracking := performanceTracking;
      cache := [];
      requestCount := 0;
      performanceData := [];
      errorLog := [];
    }

    /** `get_model_config` */
    method GetModelConfig(name: string) returns (r: Result<Json, PyError>)
      requires Valid()
      modifies this
      ensures Valid()
      ensures var expected := CacheLookup(old(cache), cacheSize, config, name);
        (expected.Ok? ==> r == Ok(expected.value.0) && cache == expected.value.1)
        && (expected.Err? ==> r == Err(expected.error) && cache == old(cache))
      ensures config == old(config) && requestCount == old(requestCount)
      ensures performanceData == old(performanceData) && errorLog == old(errorLog)
    {
      CacheStaysValid(cache, cacheSize, config, name);
      var key := ConfigKey(name);
      var hit := Get(cache, key);
      if hit.Some? {
        return Ok(hit.value);
      }
      var value := ConfigFor(config, name);
      if value.Err? {
        return Err(value.error);
      }
      if |cache| >= cacheSize {
        if |cache| == 0 {
          return Err(StopIteration);
        }
        cache := cache[1..];
      }
      cache := cache + [(key, value.value)];
      r := Ok(value.value);
    }

    /**
     * `log_request`: the counter always goes up, performance is recorded when tracking is
     * on, and an error is logged only for a failure with a non-empty message.
     */
    method LogRequest(modelName: string, duration: int, success: bool, errorMsg: Option<string>, now: int)
      modifies this
      ensures requestCount == old(requestCount) + 1
      ensures performanceData == old(performanceData)
        + (if performanceTracking then [PerformanceEntry(modelName, duration, success, now)] else [])
      ensures errorLog == old(errorLog)
        + (if !success && errorMsg.Some? && errorMsg.value != "" then [ErrorEntry(modelName, errorMsg.value, now)] else [])
      ensures cache == old(cache) && config == old(config)
      ensures Logs() == Logged(old(Logs()), performanceTracking, modelName, duration, success, errorMsg, now)
    {
      requestCount := requestCount + 1;
      if performanceTracking {
        performanceData := performanceData + [PerformanceEntry(modelName, duration, success, now)];
      }
      if !success && errorMsg.Some? && errorMsg.value != "" {
        errorLog := errorLog + [ErrorEntry(modelName, errorMsg.value, now)];
      }
    }
  }

  // ---------------------------------------------------------------- main_llm_processor

  /** `{**model_config, **options}` */
  function MergeOptions(modelConfig: Json, options: Json): (r: Result<Fields, PyError>)
    ensures r.Ok? <==> modelConfig.JObj? && options.JObj?
  {
    if !modelConfig.JObj? then Err(TypeError("'" + TypeName(modelConfig) + "' object is not a mapping"))
    else if !options.JObj? then Err(TypeError("'" + TypeName(options) + "' object is not a mapping"))
    else Ok(Update(modelConfig.fields, options.fields))
  }

  /** The caller's options win over the stored configuration, key by key. */
  lemma MergeOptionsGet(modelConfig: Json, options: Json, k: string)
    requires modelConfig.JObj? && options.JObj? && DistinctKeys(options.fields)
    ensures Get(MergeOptions(modelConfig, options).value, k)
      == if HasKey(options.fields, k) then Get(options.fields, k) else Get(modelConfig.fields, k)
  {
    UpdateGet(modelConfig.fields, options.fields, k);
  }

  /** The required-parameter check of `main_llm_processor`. */
  predicate MissingParameters(messages: seq<Json>, apiKey: string, modelName: string) {
    messages == [] || apiKey == "" || modelName == ""
  }

  const MissingParametersError: PyError := ValueError("Missing required parameters")

  /** The completion `main_llm_processor` returns for an exception it caught. */
  function MainError(e: PyError, start: int, finish: int): (r: Completion) {
    Completion(finish - start, "Error: " + ErrorText(e))
  }

  /**
   * The exception `main_llm_processor` catches, if any: missing parameters, then a failed
   * config lookup, then a failed merge; the handler itself never raises.
   */
  function MainFailure(cache: Fields, cacheSize: int, config: Json, messages: seq<Json>, apiKey: string,
                       modelName: string, options: Json): (r: Option<PyError>)
  {
    if MissingParameters(messages, apiKey, modelName) then Some(MissingParametersError)
    else match CacheLookup(cache, cacheSize, config, modelName)
      case Err(e) => Some(e)
      case Ok(found) =>
        match MergeOptions(found.0, options)
        case Err(e) => Some(e)
        case Ok(_) => None
  }

  /**
   * The request the success path of `main_llm_processor` builds: the messages as
   * `process_all_message_types` leaves them, for `model`, at the merged `base_url`.
   */
  function MergedRequest(processImage: ImageProcessor, messages: seq<Json>, apiKey: string, modelName: string,
                         model: ModelSpec, merged: Fields): (r: Result<ProviderRequest, PyError>)
  {
    BuildRequest(processImage, ProcessAll(messages, modelName, {}, map[]).processed, apiKey, model,
                 Get(merged, "base_url").GetOr(JNull))
  }

  /** The statistics after the success path: the processing lines, then the request's outcome. */
  function MergedStats(before: GlobalStats, messages: seq<Json>, modelName: string, merged: Fields,
                       request: Result<ProviderRequest, PyError>): (r: GlobalStats)
  {
    AfterRequest(AfterProcessing(before, messages, modelName, Get(merged, "debug").GetOr(JBool(true)), {}, map[]), request)
  }

  /**
   * `main_llm_processor`. The caller's options are `options`; the manager is the module's
   * `GLOBAL_CONFIG_MANAGER`. Every duration is `finish - start`.
   */
  method MainLlmProcessor(cm: ConfigManager, g: Globals, processImage: ImageProcessor, messages: seq<Json>,
                          apiKey: string, modelName: string, options: Json, debugEnabled: bool,
                          start: int, finish: int)
    returns (c: Completion)
    requires cm.Valid()
    modifies cm, g
    ensures cm.Valid() && cm.config == old(cm.config)
    ensures cm.requestCount == old(cm.requestCount) + 1
    ensures var failure := MainFailure(old(cm.cache), cm.cacheSize, cm.config, messages, apiKey, modelName, options);
      cm.Logs() == Logged(old(cm.Logs()), cm.performanceTracking, modelName, finish - start, failure.None?,
                          if failure.Some? then Some(ErrorText(failure.value)) else None, finish)
      && (failure.Some? ==>
            c == MainError(failure.value, start, finish) && g.Stats() == old(g.Stats()) && g.clientCache == old(g.clientCache))
    ensures MissingParameters(messages, apiKey, modelName) ==>
      c == MainError(MissingParametersError, start, finish)
      && cm.cache == old(cm.cache) && g.Stats() == old(g.Stats())
      && cm.errorLog == old(cm.errorLog) + [ErrorEntry(modelName, ErrorText(MissingParametersError), finish)]
    ensures !MissingParameters(messages, apiKey, modelName) ==>
      var lookup := CacheLookup(old(cm.cache), cm.cacheSize, cm.config, modelName);
      (lookup.Err? ==> c == MainError(lookup.error, start, finish) && cm.cache == old(cm.cache))
      && (lookup.Ok? ==>
            cm.cache == lookup.value.1
            && var merged := MergeOptions(lookup.value.0, options);
            (merged.Err? ==> c == MainError(merged.error, start, finish))
            && (merged.Ok? ==>
                  var request := MergedRequest(processImage, messages, apiKey, modelName, Spec(MainLookup(modelName)),
                                               merged.value);
                  c == HandlerResult(request, start, finish)
                  && g.Stats() == MergedStats(old(g.Stats()), messages, modelName, merged.value, request)
                  && g.clientCache == old(g.clientCache)
                  && cm.errorLog == old(cm.errorLog)))
  {
    if MissingParameters(messages, apiKey, modelName) {
      cm.LogRequest(modelName, finish - start, false, Some(ErrorText(MissingParametersError)), finish);
      return MainError(MissingParametersError, start, finish);
    }
    var selected := MainLookup(modelName);
    c := ConfigureAndRun(cm, g, processImage, messages, apiKey, modelName, selected, Spec(selected), options,
                         debugEnabled, start, finish);
  }

  /**
   * The part of `main_llm_processor` after the model is selected: the model's config is
   * looked up through the cache, and a failed lookup is logged as the request's error.
   * The handler is built with `selected` as its default model and is asked to stream
   * `model`; `main_llm_processor` passes `Spec(selected)` for it.
   */
  method ConfigureAndRun(cm: ConfigManager, g: Globals, processImage: ImageProcessor, messages: seq<Json>,
                         apiKey: string, modelName: string, selected: Llm, model: ModelSpec, options: Json,
                         debugEnabled: bool, start: int, finish: int)
    returns (c: Completion)
    requires cm.Valid()
    modifies cm, g
    ensures cm.Valid() && cm.config == old(cm.config)
    ensures cm.requestCount == old(cm.requestCount) + 1
    ensures var lookup := CacheLookup(old(cm.cache), cm.cacheSize, cm.config, modelName);
      (lookup.Err? ==>
         c == MainError(lookup.error, start, finish) && cm.cache == old(cm.cache)
         && cm.Logs() == Logged(old(cm.Logs()), cm.performanceTracking, modelName, finish - start, false,
                                Some(ErrorText(lookup.error)), finish)
         && g.Stats() == old(g.Stats()) && g.clientCache == old(g.clientCache))
      && (lookup.Ok? ==>
            cm.cache == lookup.value.1
            && var merged := MergeOptions(lookup.value.0, options);
            cm.Logs() == Logged(old(cm.Logs()), cm.performanceTracking, modelName, finish - start, merged.Ok?,
                                if merged.Err? then Some(ErrorText(merged.error)) else None, finish)
            && (merged.Err? ==>
                  c == MainError(merged.error, start, finish) && g.Stats() == old(g.Stats())
                  && g.clientCache == old(g.clientCache))
            && (merged.Ok? ==>
                  var request := MergedRequest(processImage, messages, apiKey, modelName, model, merged.value);
                  c == HandlerResult(request, start, finish)
                  && g.Stats() == MergedStats(old(g.Stats()), messages, modelName, merged.value, request)
                  && g.clientCache == old(g.clientCache)
                  && cm.errorLog == old(cm.errorLog)))
  {
    var modelConfig := cm.GetModelConfig(modelName);
    if modelConfig.Err? {
      cm.LogRequest(modelName, finish - start, false, Some(ErrorText(modelConfig.error)), finish);
      return MainError(modelConfig.error, start, finish);
    }
    c := MergeAndRun(cm, g, processImage, messages, apiKey, modelName, selected, model, modelConfig.value, options,
                     debugEnabled, start, finish);
  }

  /**
   * The part of `main_llm_processor` after the model config is found: the options are
   * merged over it, then the handler runs, and the outcome is logged once.
   */
  method MergeAndRun(cm: ConfigManager, g: Globals, processImage: ImageProcessor, messages: seq<Json>,
                     apiKey: string, modelName: string, selected: Llm, model: ModelSpec, modelConfig: Json,
                     options: Json, debugEnabled: bool, start: int, finish: int)
    returns (c: Completion)
    requires cm.Valid()
    modifies cm, g
    ensures cm.Valid() && cm.cache == old(cm.cache) && cm.config == old(cm.config)
    ensures cm.requestCount == old(cm.requestCount) + 1
    ensures var merged := MergeOptions(modelConfig, options);
      cm.Logs() == Logged(old(cm.Logs()), cm.performanceTracking, modelName, finish - start, merged.Ok?,
                          if merged.Err? then Some(ErrorText(merged.error)) else None, finish)
      && (merged.Err? ==>
            c == MainError(merged.error, start, finish) && g.Stats() == old(g.Stats()) && g.clientCache == old(g.clientCache))
      && (merged.Ok? ==>
            var request := MergedRequest(processImage, messages, apiKey, modelName, model, merged.value);
            c == HandlerResult(request, start, finish)
            && g.Stats() == MergedStats(old(g.Stats()), messages, modelName, merged.value, request)
            && g.clientCache == old(g.clientCache)
            && cm.errorLog == old(cm.errorLog))
  {
    var merged := MergeOptions(modelConfig, options);
    if merged.Err? {
      cm.LogRequest(modelName, finish - start, false, Some(ErrorText(merged.error)), finish);
      return MainError(merged.error, start, finish);
    }
    c := RunAndLog(cm, g, processImage, messages, apiKey, modelName, selected, model, merged.value, debugEnabled,
                   start, finish);
  }

  /** The success path of `main_llm_processor`: the handler runs, then the request is logged as a success. */
  method RunAndLog(cm: ConfigManager, g: Globals, processImage: ImageProcessor, messages: seq<Json>,
                   apiKey: string, modelName: string, selected: Llm, model: ModelSpec, merged: Fields,
                   debugEnabled: bool, start: int, finish: int)
    returns (c: Completion)
    requires cm.Valid()
    modifies cm, g
    ensures cm.Valid() && cm.cache == old(cm.cache) && cm.config == old(cm.config)
    ensures cm.Logs() == Logged(old(cm.Logs()), cm.performanceTracking, modelName, finish - start, true, None, finish)
    ensures var request := MergedRequest(processImage, messages, apiKey, modelName, model, merged);
      c == HandlerResult(request, start, finish)
      && g.Stats() == MergedStats(old(g.Stats()), messages, modelName, merged, request)
    ensures g.clientCache == old(g.clientCache)
  {
    c := RunMerged(g, processImage, messages, apiKey, modelName, selected, model, merged, debugEnabled, start, finish);
    cm.LogRequest(modelName, finish - start, true, None, finish);
  }

  /**
   * The part of `main_llm_processor` after the options are merged: a fresh handler whose
   * default model is `selected` streams the processed messages for `model`.
   */
  method RunMerged(g: Globals, processImage: ImageProcessor, messages: seq<Json>, apiKey: string, modelName: string,
                   selected: Llm, model: ModelSpec, merged: Fields, debugEnabled: bool, start: int, finish: int)
    returns (c: Completion)
    modifies g
    ensures var request := MergedRequest(processImage, messages, apiKey, modelName, model, merged);
      c == HandlerResult(request, start, finish)
      && g.Stats() == MergedStats(old(g.Stats()), messages, modelName, merged, request)
    ensures g.requestCount == old(g.requestCount) + 1 && g.clientCache == old(g.clientCache)
  {
    var handler := new UniversalLlmHandler([selected], debugEnabled);
    var debug := Get(merged, "debug").GetOr(JBool(true));
    var processed := ProcessAllMessages(g, messages, modelName, debug, {}, map[]);
    var baseUrl := Get(merged, "base_url").GetOr(JNull);
    c := handler.SetupAndStreamResponse(g, processImage, processed, apiKey, model, baseUrl, start, finish);
  }

  /**
   * A miss with `cache_size` 0 (or less) on an empty cache raises `StopIteration`, whose
   * text is empty: the caller's completion reads just "Error: " and nothing is logged as
   * an error.
   */
  lemma ZeroSizedCacheFails(config: Json, name: string, start: int, finish: int)
    requires config.JObj?
    ensures CacheLookup([], 0, config, name) == Err(StopIteration)
    ensures MainError(StopIteration, start, finish).code == "Error: "
  {
  }

  // ---------------------------------------------------------------- legacy entry points

  /**
   * `legacy_stream_openai_response`: the exact-name lookup, then a one-off handler. The
   * result is the handler's for the model found.
   */
  method LegacyStreamOpenAIResponse(g: Globals, processImage: ImageProcessor, messages: seq<Json>, apiKey: string,
                                    baseUrl: Json, model: ModelArg, debugEnabled: bool, start: int, finish: int)
    returns (c: Completion)
    modifies g
    ensures var request := BuildRequest(processImage, messages, apiKey, Spec(LegacyLookup(model)), baseUrl);
      c == HandlerResult(request, start, finish) && g.Stats() == AfterRequest(old(g.Stats()), request)
    ensures g.requestCount == old(g.requestCount) + 1 && g.clientCache == old(g.clientCache)
  {
    var llm := LegacyLookup(model);
    var handler := new UniversalLlmHandler([llm], debugEnabled);
    c := handler.SetupAndStreamResponse(g, processImage, messages, apiKey, Spec(llm), baseUrl, start, finish);
  }

  /** `legacy_stream_claude_response`: the OpenAI entry point with no base URL. */
  method LegacyStreamClaudeResponse(g: Globals, processImage: ImageProcessor, messages: seq<Json>, apiKey: string,
                                    model: ModelArg, debugEnabled: bool, start: int, finish: int)
    returns (c: Completion)
    modifies g
    ensures var request := BuildRequest(processImage, messages, apiKey, Spec(LegacyLookup(model)), JNull);
      c == HandlerResult(request, start, finish) && g.Stats() == AfterRequest(old(g.Stats()), request)
    ensures g.requestCount == old(g.requestCount) + 1 && g.clientCache == old(g.clientCache)
  {
    c := LegacyStreamOpenAIResponse(g, processImage, messages, apiKey, JNull, model, debugEnabled, start, finish);
  }

  /** `legacy_stream_gemini_response`: the same again. */
  method LegacyStreamGeminiResponse(g: Globals, processImage: ImageProcessor, messages: seq<Json>, apiKey: string,
                                    model: ModelArg, debugEnabled: bool, start: int, finish: int)
    returns (c: Completion)
    modifies g
    ensures var request := BuildRequest(processImage, messages, apiKey, Spec(LegacyLookup(model)), JNull);
      c == HandlerResult(request, start, finish) && g.Stats() == AfterRequest(old(g.Stats()), request)
    ensures g.requestCount == old(g.requestCount) + 1 && g.clientCache == old(g.clientCache)
  {
    c := LegacyStreamOpenAIResponse(g, processImage, messages, apiKey, JNull, model, debugEnabled, start, finish);
  }

  /**
   * Passing a table member itself (not its name) to a legacy entry point always runs
   * `GPT_4O_2024_11_20`, an OpenAI model, so the request is the OpenAI one.
   */
  lemma LegacyMemberRunsDefault(processImage: ImageProcessor, messages: seq<Json>, apiKey: string, baseUrl: Json, m: Llm)
    ensures BuildRequest(processImage, messages, apiKey, Spec(LegacyLookup(TableMember(m))), baseUrl)
      == Ok(OpenAICall(OpenAIParamsFor("gpt-4o-2024-11-20", messages)))
  {
    LegacyLookupOfMember(m);
    RouteOfTable(DefaultModel);
  }

  // ---------------------------------------------------------------- the factory

  /** `f"{provider}_{key[:10]}"` */
  function ClientCacheKey(provider: string, key: string): (r: string) {
    provider + "_" + key[..if |key| < 10 then |key| else 10]
  }

  /** The cache keys recorded for the `api_keys` items, in order. */
  function ClientCacheKeys(apiKeys: seq<(string, string)>): (r: set<string>)
    ensures forall i :: 0 <= i < |apiKeys| ==> ClientCacheKey(apiKeys[i].0, apiKeys[i].1) in r
    ensures forall k :: k in r ==> exists i :: 0 <= i < |apiKeys| && k == ClientCacheKey(apiKeys[i].0, apiKeys[i].1)
  {
    if |apiKeys| == 0 then {}
    else
      var init := ClientCacheKeys(apiKeys[..|apiKeys| - 1]);
      assert forall i :: 0 <= i < |apiKeys| - 1 ==> apiKeys[..|apiKeys| - 1][i] == apiKeys[i];
      init + {ClientCacheKey(apiKeys[|apiKeys| - 1].0, apiKeys[|apiKeys| - 1].1)}
  }

  /**
   * The loop over `api_keys.items()`, gathering the keys it records; the factory adds
   * them to `GLOBAL_CLIENT_CACHE` once the loop is done.
   */
  method CollectClientCacheKeys(apiKeys: seq<(string, string)>) returns (keys: set<string>)
    ensures keys == ClientCacheKeys(apiKeys)
  {
    keys := {};
    var i := 0;
    while i < |apiKeys|
      invariant 0 <= i <= |apiKeys|
      invariant keys == ClientCacheKeys(apiKeys[..i])
    {
      ClientCacheKeysSnoc(apiKeys, i);
      keys := keys + {ClientCacheKey(apiKeys[i].0, apiKeys[i].1)};
      i := i + 1;
    }
    assert apiKeys[..i] == apiKeys;
  }

  /** One more item adds its own entry to the keys recorded for the items before it. */
  lemma ClientCacheKeysSnoc(apiKeys: seq<(string, string)>, i: nat)
    requires i < |apiKeys|
    ensures ClientCacheKeys(apiKeys[..i + 1]) == ClientCacheKeys(apiKeys[..i]) + {ClientCacheKey(apiKeys[i].0, apiKeys[i].1)}
  {
    var items := apiKeys[..i + 1];
    assert items[..|items| - 1] == apiKeys[..i];
    assert items[|items| - 1] == apiKeys[i];
  }

  /** Only the first ten characters of a key are kept: keys that share them share an entry. */
  lemma ClientCacheKeysCollide(provider: string, key: string, key': string)
    requires |key| >= 10 && |key'| >= 10 && key[..10] == key'[..10]
    ensures ClientCacheKey(provider, key) == ClientCacheKey(provider, key')
  {
  }

  /** The model list a factory-built handler gets. */
  function FactoryModels(models: seq<Llm>): (r: seq<Llm>)
    ensures models != [] ==> r == models
    ensures models == [] ==> r == [DefaultModel, Claude37Sonnet20250219]
  {
    if models == [] then [Gpt4o20241120, Claude37Sonnet20250219] else models
  }

  /**
   * `create_llm_handler_with_defaults`. `apiKeys` are the items of `api_keys` in order;
   * `debugSettings` is the `debug_settings` dict.
   */
  method CreateLlmHandlerWithDefaults(g: Globals, apiKeys: seq<(string, string)>, models: seq<Llm>,
                                      debugSettings: Fields, debugEnabled: bool)
    returns (h: UniversalLlmHandler)
    modifies g
    ensures fresh(h) && h.defaultModels == FactoryModels(models) && h.clients == map[] && h.requestHistory == []
    ensures Truthy(Get(debugSettings, "auto_reset").GetOr(JBool(false))) ==>
      g.Stats() == GlobalStats(0, None, []) && g.clientCache == {}
    ensures !Truthy(Get(debugSettings, "auto_reset").GetOr(JBool(false))) ==>
      g.Stats() == old(g.Stats()) && g.clientCache == old(g.clientCache) + ClientCacheKeys(apiKeys)
  {
    h := new UniversalLlmHandler(FactoryModels(models), debugEnabled);
    var keys := CollectClientCacheKeys(apiKeys);
    g.clientCache := g.clientCache + keys;
    if Truthy(Get(debugSettings, "auto_reset").GetOr(JBool(false))) {
      g.Reset();
    }
  }
}
