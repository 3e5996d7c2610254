/** The request manager of class-request-manager.php: the `pre_http_request` filter that
    passes a request through, serves it from cache or fails it while its resource is
    down, or makes the one real call, caches a success, and on an error sets the down
    flag, logs the outage and falls back to the cached copy. */
module RequestManager {
  import opened Platform
  import opened Cache
  import EventLog
  import Settings

  /** The `WP_Error` returned when nothing is cached and no call is made. */
  const UnavailableError := WPError("unavailable", "Resource is unavailable")

  /** The WordPress filters the manager applies, each given the value it filters. */
  datatype Hooks = Hooks(
    shouldIntercept: (bool, string, Args) -> bool,          // remote_backstop_should_intercept_request
    requestOptions: (Args, string, Args) -> Args,           // remote_backstop_request_options
    ttl: (int, string, Args) -> int,                        // remote_backstop_ttl, then (int)
    isError: (bool, Response) -> bool,                      // remote_backstop_response_is_error
    failedResponse: (Response, bool, string, Args) -> Response)  // remote_backstop_failed_request_response

  /** No callback added: every filter returns the value it is given. */
  function NoFilters(): Hooks {
    Hooks((b, u, a) => b, (o, u, a) => o, (t, u, a) => t, (b, r) => b, (r, c, u, a) => r)
  }

  /** The settings filters of class-settings.php hooked in, over the stored settings. */
  function SettingsFilters(stored: Option<Args>): Hooks {
    Hooks((b, u, a) => b, (o, u, a) => Settings.RequestOptions(stored, o), (t, u, a) => Settings.Ttl(stored, t),
          (b, r) => b, (r, c, u, a) => r)
  }

  /** Everything outside the core: the platform primitives, the filters and the transport
      `wp_remote_request`. */
  datatype Config = Config(prims: Primitives, hooks: Hooks, transport: (string, Args) -> Response)

  /** One call of the transport, with the arguments it was given and whether the
      manager's own filter was registered while it ran. */
  datatype Call = Call(url: string, args: Args, interceptorHooked: bool)

  /** The defaults handed to `remote_backstop_request_options`: check availability per
      host, never attempt an uncached request while down, flag a failure for a minute. */
  function DefaultOptions(): (o: Args)
    ensures o.Keys == {"scope_for_availability_check", "attempt_uncached_request_when_down", "retry_after"}
    ensures Scope(o) == "host" && !AttemptUncached(o) && RetryAfter(o) == MinuteInSeconds
  {
    map["scope_for_availability_check" := Str("host"),
        "attempt_uncached_request_when_down" := Bool(false),
        "retry_after" := Int(MinuteInSeconds)]
  }

  /** The default interception rule: `'GET' === $request_args['method']`. */
  predicate IsGet(args: Args) {
    Lookup(args, "method") == Str("GET")
  }

  /** The granularity option; anything but a string selects the host key. */
  function Scope(options: Args): string {
    match Lookup(options, "scope_for_availability_check")
    case Str(s) => s
    case _ => ""
  }

  predicate AttemptUncached(options: Args) {
    !Empty(Lookup(options, "attempt_uncached_request_when_down"))
  }

  function RetryAfter(options: Args): int {
    ToInt(Lookup(options, "retry_after"))
  }

  /** `response_is_error` before its filter: a `WP_Error`, or a reply with a status of 500
      or more; a cached error record has no status and is not an error. */
  function DefaultIsError(r: Response): (e: bool)
    ensures r.WPError? ==> e
    ensures r.Reply? ==> (e <==> r.status >= 500)
    ensures r.ErrorRecord? ==> !e
  {
    r.WPError? || (r.Reply? && r.status >= 500)
  }

  /** `response_is_error`: the default classification passed through the
      `remote_backstop_response_is_error` filter. */
  predicate ResponseIsError(hooks: Hooks, r: Response) {
    hooks.isError(DefaultIsError(r), r)
  }

  /** The arguments `safe_wp_remote_request` sends: an empty timeout becomes 1, and the
      timeout is then `min( 3, (float) timeout )`, which is the integer 3 from 3 seconds
      up and the float below; nothing else changes. */
  function ClampTimeout(args: Args): (r: Args)
    ensures r.Keys == args.Keys + {"timeout"}
    ensures forall k :: k in args && k != "timeout" ==> r[k] == args[k]
    ensures ToReal(r["timeout"]) <= 3.0
    ensures Empty(Lookup(args, "timeout")) ==> r["timeout"] == Real(1.0)
    ensures !Empty(Lookup(args, "timeout")) && ToReal(args["timeout"]) < 3.0 ==> r["timeout"] == Real(ToReal(args["timeout"]))
    ensures !Empty(Lookup(args, "timeout")) && ToReal(args["timeout"]) >= 3.0 ==> r["timeout"] == Int(3)
  {
    var t := if Empty(Lookup(args, "timeout")) then 1.0 else ToReal(args["timeout"]);
    args["timeout" := if t < 3.0 then Real(t) else Int(3)]
  }

  /** What `pre_http_request` decides for one request, on the store as it finds it. */
  datatype Plan =
    | PassThrough                                   // return `$preempt`; no cache is built
    | ServeCached(copy: Response)                   // down, and a cached copy exists
    | Unavailable                                   // down, nothing cached, no attempt
    | Fetched(response: Response, ttl: int)         // the call succeeded: cache it with `ttl`
    | FetchFailed(response: Response, retryAfter: int, fallback: Option<Response>)
                                                    // the call failed: flag, log, fall back
  {
    predicate Calls() {
      Fetched? || FetchFailed?
    }
  }

  /** The request is taken over: not preempted, selected by the interception filter
      (by default, GET requests) and with a URL that is not `empty()`, so neither "" nor "0". */
  predicate Intercepts(cfg: Config, preempt: Option<Response>, args: Args, url: string) {
    preempt.None? && cfg.hooks.shouldIntercept(IsGet(args), url, args) && !Empty(Str(url))
  }

  function Decide(cfg: Config, transients: map<string, Entry<int>>, responses: map<string, Entry<Response>>,
                  preempt: Option<Response>, args: Args, url: string): (plan: Plan)
    ensures plan.PassThrough? <==> !Intercepts(cfg, preempt, args, url)
  {
    if Intercepts(cfg, preempt, args, url) then Backstopped(cfg, transients, responses, args, url) else PassThrough
  }

  /** What happens to an intercepted request. */
  function Backstopped(cfg: Config, transients: map<string, Entry<int>>, responses: map<string, Entry<Response>>,
                       args: Args, url: string): (plan: Plan)
    ensures !plan.PassThrough?
  {
    var options := cfg.hooks.requestOptions(DefaultOptions(), url, args);
    var cached := LoadRequestFromCache(cfg.prims, responses, url, args);
    var down := DownFlag(cfg.prims, transients, url, args, Scope(options));
    if down && cached.Some? then ServeCached(cached.value)
    else if down && !AttemptUncached(options) then Unavailable
    else
      var response := cfg.transport(url, ClampTimeout(args));
      if ResponseIsError(cfg.hooks, response) then FetchFailed(response, RetryAfter(options), cached)
      else Fetched(response, cfg.hooks.ttl(0, url, args))
  }

  /** `Backstopped` by the branch the try block takes: fail over before any call when the
      resource is down and a copy exists or no uncached attempt is allowed, call otherwise. */
  lemma BackstoppedCases(cfg: Config, transients: map<string, Entry<int>>, responses: map<string, Entry<Response>>,
                         args: Args, url: string)
    ensures var options := cfg.hooks.requestOptions(DefaultOptions(), url, args);
      var cached := LoadRequestFromCache(cfg.prims, responses, url, args);
      var down := DownFlag(cfg.prims, transients, url, args, Scope(options));
      var response := cfg.transport(url, ClampTimeout(args));
      Backstopped(cfg, transients, responses, args, url) ==
        if down && (cached.Some? || !AttemptUncached(options)) then
          (if cached.Some? then ServeCached(cached.value) else Unavailable)
        else if ResponseIsError(cfg.hooks, response) then FetchFailed(response, RetryAfter(options), cached)
        else Fetched(response, cfg.hooks.ttl(0, url, args))
  {
  }

  /** The value `pre_http_request` returns for a plan. */
  function Answer(plan: Plan, cfg: Config, preempt: Option<Response>, url: string, args: Args): Option<Response> {
    match plan
    case PassThrough => preempt
    case ServeCached(c) => Some(cfg.hooks.failedResponse(c, true, url, args))
    case Unavailable => Some(cfg.hooks.failedResponse(UnavailableError, false, url, args))
    case Fetched(r, _) => Some(r)
    case FetchFailed(r, _, cached) =>
      if cached.Some? then Some(cfg.hooks.failedResponse(cached.value, true, url, args))
      else Some(cfg.hooks.failedResponse(r, false, url, args))
  }

  /** The down flags after a plan: all three keys set for `retry_after` on a failed call. */
  function TransientsAfter(plan: Plan, cfg: Config, t: map<string, Entry<int>>, url: string, args: Args): map<string, Entry<int>> {
    if plan.FetchFailed? then SetAll(t, KeyList(DownCacheKeys(cfg.prims, url, args)), plan.retryAfter) else t
  }

  /** The response cache after a plan: a success is cached with its TTL, a failed call with
      nothing cached caches the error with no expiration. */
  function ResponsesAfter(plan: Plan, cfg: Config, responses: map<string, Entry<Response>>, url: string, args: Args): map<string, Entry<Response>> {
    match plan
    case Fetched(r, ttl) => responses[RequestHash(cfg.prims, url, args) := Entry(Stored(r), ttl)]
    case FetchFailed(r, _, None) => responses[RequestHash(cfg.prims, url, args) := Entry(Stored(r), 0)]
    case _ => responses
  }

  class Manager {
    const cfg: Config
    const store: Store
    const log: EventLog.EventLog
    /** Whether `pre_http_request` is currently registered on its filter. */
    var hooked: bool
    /** The static `$hooks_added`. */
    var hooksAdded: bool
    /** How many request caches `get_cache` has built. */
    var cachesBuilt: nat

    ghost predicate Valid()
      reads this
    {
      store.prims == cfg.prims && log.prims == cfg.prims
    }

    /** `__construct`: keep the collaborators and register the filter once. */
    constructor (cfg: Config, store: Store, log: EventLog.EventLog, hooksAdded: bool)
      requires store.prims == cfg.prims && log.prims == cfg.prims
      ensures Valid()
      ensures this.cfg == cfg && this.store == store && this.log == log
      ensures this.hooksAdded && hooked == !hooksAdded && cachesBuilt == 0
    {
      this.cfg := cfg;
      this.store := store;
      this.log := log;
      this.hooksAdded := hooksAdded;
      hooked := false;
      cachesBuilt := 0;
      new;
      AddHooks();
    }

    /** `add_hooks`: register the filter unless some instance already did. */
    method AddHooks()
      modifies this`hooked, this`hooksAdded
      ensures hooksAdded
      ensures hooked == (old(hooked) || !old(hooksAdded))
    {
      if !hooksAdded {
        hooked := true;
        hooksAdded := true;
      }
    }

    /** `get_cache`: a new request cache for this URL and these arguments. */
    method GetCache(url: string, args: Args) returns (cache: RequestCache)
      modifies this`cachesBuilt
      ensures fresh(cache) && cache.store == store && cache.url == url && cache.args == args
      ensures cachesBuilt == old(cachesBuilt) + 1
    {
      cache := new RequestCache(store, url, args);
      cachesBuilt := cachesBuilt + 1;
    }

    /** `safe_wp_remote_request`: clamp the timeout, then call the transport once. */
    method SafeRemoteRequest(url: string, requestArgs: Args) returns (response: Response, sent: Args)
      ensures sent == ClampTimeout(requestArgs)
      ensures response == cfg.transport(url, sent)
    {
      var args := requestArgs;
      if Empty(Lookup(args, "timeout")) {
        args := args["timeout" := Int(1)];
      }
      var timeout := ToReal(args["timeout"]);
      args := args["timeout" := if 3.0 <= timeout then Int(3) else Real(timeout)];
      sent := args;
      response := cfg.transport(url, sent);
    }

    /** `pre_http_request`. The thrown exception of the source is the flag `failed`: it
        skips the rest of the try block and runs the fallback. */
    method PreHttpRequest(preempt: Option<Response>, requestArgs: Args, url: string, now: int, requestUri: string)
      returns (result: Option<Response>, calls: seq<Call>)
      requires Valid()
      modifies this, store, log
      ensures var plan := Decide(cfg, old(store.transients), old(store.responses), preempt, requestArgs, url);
        && result == Answer(plan, cfg, preempt, url, requestArgs)
        && calls == (if plan.Calls() then [Call(url, ClampTimeout(requestArgs), false)] else [])
        && store.transients == TransientsAfter(plan, cfg, old(store.transients), url, requestArgs)
        && store.responses == ResponsesAfter(plan, cfg, old(store.responses), url, requestArgs)
        && log.events == (if plan.FetchFailed?
                          then EventLog.Downtime(old(log.events), old(log.GetLog()), cfg.prims.parseHost(url), url, now, requestUri)
                          else old(log.events))
        && hooked == (if plan.Calls() then true else old(hooked))
        && cachesBuilt == old(cachesBuilt) + (if plan.PassThrough? then 0 else 1)
      ensures |calls| <= 1
      ensures log.stored == old(log.stored) && log.lockHeld == old(log.lockHeld)
      ensures hooksAdded == old(hooksAdded) && Valid()
    {
      calls := [];
      if preempt.Some? {
        return preempt, calls;
      }
      var shouldIntercept := cfg.hooks.shouldIntercept(IsGet(requestArgs), url, requestArgs);
      if !shouldIntercept {
        return preempt, calls;
      }
      if Empty(Str(url)) {
        return preempt, calls;
      }
      var options := cfg.hooks.requestOptions(DefaultOptions(), url, requestArgs);
      var cache := GetCache(url, requestArgs);
      var r;
      r, calls := Backstop(cache, options, url, requestArgs, now, requestUri);
      result := Some(r);
    }

    /** The try and catch blocks of `pre_http_request`, for an intercepted request. */
    method Backstop(cache: RequestCache, options: Args, url: string, requestArgs: Args, now: int, requestUri: string)
      returns (result: Response, calls: seq<Call>)
      requires Valid()
      requires cache.store == store && cache.url == url && cache.args == requestArgs
      requires options == cfg.hooks.requestOptions(DefaultOptions(), url, requestArgs)
      modifies this`hooked, store, log`events
      ensures var plan := Backstopped(cfg, old(store.transients), old(store.responses), requestArgs, url);
        && Some(result) == Answer(plan, cfg, None, url, requestArgs)
        && calls == (if plan.Calls() then [Call(url, ClampTimeout(requestArgs), false)] else [])
        && store.transients == TransientsAfter(plan, cfg, old(store.transients), url, requestArgs)
        && store.responses == ResponsesAfter(plan, cfg, old(store.responses), url, requestArgs)
        && log.events == (if plan.FetchFailed?
                          then EventLog.Downtime(old(log.events), log.GetLog(), cfg.prims.parseHost(url), url, now, requestUri)
                          else old(log.events))
        && hooked == (if plan.Calls() then true else old(hooked))
    {
      ghost var plan := Backstopped(cfg, store.transients, store.responses, requestArgs, url);
      BackstoppedCases(cfg, store.transients, store.responses, requestArgs, url);
      var failed, cachedResponse := CheckDown(cache, options);
      if failed {
        result, calls := FailOver(cache, cachedResponse, url, requestArgs, now, requestUri, plan);
      } else {
        result, calls := CallThrough(cache, options, cachedResponse, url, requestArgs, now, requestUri, plan);
      }
    }

    /** The try block failing over before any call: the catch block with no response. */
    method FailOver(cache: RequestCache, cachedResponse: Option<Option<Response>>, url: string, requestArgs: Args,
                    now: int, requestUri: string, ghost plan: Plan)
      returns (result: Response, calls: seq<Call>)
      requires Valid()
      requires cache.store == store && cache.url == url && cache.args == requestArgs
      requires cachedResponse == Some(LoadRequestFromCache(cfg.prims, store.responses, url, requestArgs))
      requires plan == if cachedResponse.value.Some? then ServeCached(cachedResponse.value.value) else Unavailable
      modifies this`hooked, store, log`events
      ensures && Some(result) == Answer(plan, cfg, None, url, requestArgs)
              && calls == (if plan.Calls() then [Call(url, ClampTimeout(requestArgs), false)] else [])
              && store.transients == TransientsAfter(plan, cfg, old(store.transients), url, requestArgs)
              && store.responses == ResponsesAfter(plan, cfg, old(store.responses), url, requestArgs)
              && log.events == (if plan.FetchFailed?
                                then EventLog.Downtime(old(log.events), log.GetLog(), cfg.prims.parseHost(url), url, now, requestUri)
                                else old(log.events))
              && hooked == (if plan.Calls() then true else old(hooked))
    {
      calls := [];
      result := Fallback(cache, cachedResponse, None, url, requestArgs);
    }

    /** The try block making its call: the success returned, or the catch block with the
        failed response. */
    method CallThrough(cache: RequestCache, options: Args, cachedResponse: Option<Option<Response>>,
                       url: string, requestArgs: Args, now: int, requestUri: string, ghost plan: Plan)
      returns (result: Response, calls: seq<Call>)
      requires Valid()
      requires cache.store == store && cache.url == url && cache.args == requestArgs
      requires cachedResponse.Some? ==> cachedResponse.value == LoadRequestFromCache(cfg.prims, store.responses, url, requestArgs)
      requires var response := cfg.transport(url, ClampTimeout(requestArgs));
        plan == if ResponseIsError(cfg.hooks, response)
                then FetchFailed(response, RetryAfter(options), LoadRequestFromCache(cfg.prims, store.responses, url, requestArgs))
                else Fetched(response, cfg.hooks.ttl(0, url, requestArgs))
      modifies this`hooked, store, log`events
      ensures && Some(result) == Answer(plan, cfg, None, url, requestArgs)
              && calls == (if plan.Calls() then [Call(url, ClampTimeout(requestArgs), false)] else [])
              && store.transients == TransientsAfter(plan, cfg, old(store.transients), url, requestArgs)
              && store.responses == ResponsesAfter(plan, cfg, old(store.responses), url, requestArgs)
              && log.events == (if plan.FetchFailed?
                                then EventLog.Downtime(old(log.events), log.GetLog(), cfg.prims.parseHost(url), url, now, requestUri)
                                else old(log.events))
              && hooked == (if plan.Calls() then true else old(hooked))
    {
      var r, isError;
      r, isError, calls := Attempt(cache, options, url, requestArgs, now, requestUri);
      if !isError {
        return r, calls;
      }
      result := Fallback(cache, cachedResponse, Some(r), url, requestArgs);
    }

    /** The start of the try block of `pre_http_request`: when the resource is flagged down
        at the configured scope, load the cached copy (the outer Some is `isset(
        $cached_response )`) and fail over to it, or fail outright unless the options allow
        an uncached attempt. */
    method CheckDown(cache: RequestCache, options: Args) returns (failed: bool, cachedResponse: Option<Option<Response>>)
      ensures var down := DownFlag(cache.store.prims, cache.store.transients, cache.url, cache.args, Scope(options));
        var cached := LoadRequestFromCache(cache.store.prims, cache.store.responses, cache.url, cache.args);
        && cachedResponse == (if down then Some(cached) else None)
        && failed == (down && (cached.Some? || !AttemptUncached(options)))
    {
      cachedResponse := None;
      failed := false;
      var down := cache.GetDownFlag(Scope(options));
      if down {
        var loaded := cache.LoadResponseFromCache();
        cachedResponse := Some(loaded);
        if loaded.None? {
          if !AttemptUncached(options) {
            failed := true;
          }
        } else {
          failed := true;
        }
      }
    }

    /** The call in the try block of `pre_http_request`: with its own filter removed, make
        the request; on an error flag the resource down for `retry_after` and log the
        outage, otherwise cache the response with the filtered TTL. */
    method Attempt(cache: RequestCache, options: Args, url: string, requestArgs: Args, now: int, requestUri: string)
      returns (response: Response, isError: bool, calls: seq<Call>)
      requires Valid()
      requires cache.store == store && cache.url == url && cache.args == requestArgs
      modifies this`hooked, store, log`events
      ensures response == cfg.transport(url, ClampTimeout(requestArgs))
      ensures isError == ResponseIsError(cfg.hooks, response)
      ensures calls == [Call(url, ClampTimeout(requestArgs), false)]
      ensures hooked
      ensures store.transients == if isError then SetAll(old(store.transients), KeyList(DownCacheKeys(cfg.prims, url, requestArgs)), RetryAfter(options))
                                  else old(store.transients)
      ensures store.responses == if isError then old(store.responses)
                                 else old(store.responses)[RequestHash(cfg.prims, url, requestArgs) := Entry(Stored(response), cfg.hooks.ttl(0, url, requestArgs))]
      ensures log.events == if isError then EventLog.Downtime(old(log.events), log.GetLog(), cfg.prims.parseHost(url), url, now, requestUri)
                            else old(log.events)
    {
      hooked := false;
      var sent;
      response, sent := SafeRemoteRequest(url, requestArgs);
      calls := [Call(url, sent, hooked)];
      hooked := true;
      isError := ResponseIsError(cfg.hooks, response);
      if isError {
        cache.SetDownFlag(RetryAfter(options));
        log.LogResourceDowntime(url, requestArgs, now, requestUri);
      } else {
        var ttl := cfg.hooks.ttl(0, url, requestArgs);
        cache.CacheResponse(response, ttl);
      }
    }

    /** The catch block of `pre_http_request`: load the cached copy unless it was loaded
        already, and hand the filter the copy, or else the failed response (which is then
        cached with no expiration), or else the `unavailable` error when no call was made. */
    method Fallback(cache: RequestCache, cachedResponse: Option<Option<Response>>, response: Option<Response>,
                    url: string, requestArgs: Args) returns (result: Response)
      requires Valid()
      requires cache.store == store && cache.url == url && cache.args == requestArgs
      requires cachedResponse.Some? ==> cachedResponse.value == LoadRequestFromCache(cfg.prims, store.responses, url, requestArgs)
      modifies store
      ensures var cached := LoadRequestFromCache(cfg.prims, old(store.responses), url, requestArgs);
        && result == (if cached.Some? then cfg.hooks.failedResponse(cached.value, true, url, requestArgs)
                      else cfg.hooks.failedResponse(if response.Some? then response.value else UnavailableError, false, url, requestArgs))
        && store.responses == (if cached.None? && response.Some?
                               then old(store.responses)[RequestHash(cfg.prims, url, requestArgs) := Entry(Stored(response.value), 0)]
                               else old(store.responses))
      ensures store.transients == old(store.transients)
    {
      var loaded: Option<Response>;
      if cachedResponse.None? {
        loaded := cache.LoadResponseFromCache();
      } else {
        loaded := cachedResponse.value;
      }
      var loadedFromCache: bool;
      var final: Response;
      if loaded.Some? {
        loadedFromCache := true;
        final := loaded.value;
      } else {
        loadedFromCache := false;
        if response.None? {
          final := UnavailableError;
        } else {
          final := response.value;
          cache.CacheResponse(final, 0);
        }
      }
      result := cfg.hooks.failedResponse(final, loadedFromCache, url, requestArgs);
    }
  }

  /** Without the error filter, a response is an error exactly when it is a `WP_Error` or
      a reply with status 500 or more; a cached error record is not one. */
  lemma DefaultErrorClassification(r: Response)
    ensures ResponseIsError(NoFilters(), r) <==> r.WPError? || (r.Reply? && r.status >= 500)
    ensures r.ErrorRecord? ==> !ResponseIsError(NoFilters(), r)
  {
  }

  /** A `remote_backstop_response_is_error` filter that returns what it is given leaves the
      default classification in place; one that answers a constant overrides it both ways. */
  lemma FilteredErrorClassification(hooks: Hooks, r: Response)
    ensures (forall b, x :: hooks.isError(b, x) == b) ==> (ResponseIsError(hooks, r) <==> DefaultIsError(r))
    ensures (forall b, x :: hooks.isError(b, x)) ==> ResponseIsError(hooks, r)
    ensures (forall b, x :: !hooks.isError(b, x)) ==> !ResponseIsError(hooks, r)
  {
  }

  /** A request some earlier filter already answered is returned as it is, with no cache
      built and no call made. */
  lemma PreemptedRequestUntouched(cfg: Config, t: map<string, Entry<int>>, resp: map<string, Entry<Response>>,
                                  preempt: Option<Response>, args: Args, url: string)
    requires preempt.Some?
    ensures Decide(cfg, t, resp, preempt, args, url) == PassThrough
    ensures Answer(PassThrough, cfg, preempt, url, args) == preempt
  {
  }

  /** Without filters, a request that is not a GET, or whose URL PHP's `empty()` treats as
      empty ("" or "0"), is passed through untouched. */
  lemma UninterceptedRequestPassesThrough(prims: Primitives, transport: (string, Args) -> Response,
                                          t: map<string, Entry<int>>, resp: map<string, Entry<Response>>, args: Args, url: string)
    requires Lookup(args, "method") != Str("GET") || url == "" || url == "0"
    ensures var cfg := Config(prims, NoFilters(), transport);
      Decide(cfg, t, resp, None, args, url) == PassThrough && Answer(PassThrough, cfg, None, url, args) == None
  {
  }

  /** Without filters, a GET request to a URL that is neither "" nor "0" is taken over. */
  lemma GetRequestIntercepted(prims: Primitives, transport: (string, Args) -> Response,
                              t: map<string, Entry<int>>, resp: map<string, Entry<Response>>, args: Args, url: string)
    requires IsGet(args) && url != "" && url != "0"
    ensures !Decide(Config(prims, NoFilters(), transport), t, resp, None, args, url).PassThrough?
  {
  }

  /** The request is intercepted and its resource is flagged down at the configured scope. */
  ghost predicate DownAtScope(cfg: Config, t: map<string, Entry<int>>, args: Args, url: string) {
    && cfg.hooks.shouldIntercept(IsGet(args), url, args) && !Empty(Str(url))
    && DownFlag(cfg.prims, t, url, args, Scope(cfg.hooks.requestOptions(DefaultOptions(), url, args)))
  }

  /** Down, nothing cached and no uncached attempts: no call, and the `unavailable` error. */
  lemma DownUncachedIsUnavailable(prims: Primitives, transport: (string, Args) -> Response,
                                  t: map<string, Entry<int>>, resp: map<string, Entry<Response>>, args: Args, url: string)
    requires DownAtScope(Config(prims, NoFilters(), transport), t, args, url)
    requires LoadRequestFromCache(prims, resp, url, args).None?
    ensures var cfg := Config(prims, NoFilters(), transport);
      var plan := Decide(cfg, t, resp, None, args, url);
      !plan.Calls() && Answer(plan, cfg, None, url, args) == Some(UnavailableError)
      && TransientsAfter(plan, cfg, t, url, args) == t && ResponsesAfter(plan, cfg, resp, url, args) == resp
  {
  }

  /** Down with a cached copy: no call, and the copy exactly as loaded. */
  lemma DownCachedServesCopy(prims: Primitives, transport: (string, Args) -> Response,
                             t: map<string, Entry<int>>, resp: map<string, Entry<Response>>, args: Args, url: string)
    requires DownAtScope(Config(prims, NoFilters(), transport), t, args, url)
    requires LoadRequestFromCache(prims, resp, url, args).Some?
    ensures var cfg := Config(prims, NoFilters(), transport);
      var plan := Decide(cfg, t, resp, None, args, url);
      !plan.Calls() && Answer(plan, cfg, None, url, args) == LoadRequestFromCache(prims, resp, url, args)
      && TransientsAfter(plan, cfg, t, url, args) == t && ResponsesAfter(plan, cfg, resp, url, args) == resp
  {
  }

  /** Down, nothing cached, uncached attempts allowed by the options filter: one call, and
      a successful reply is returned as the transport gave it. */
  lemma DownAttemptCallsOnce(cfg: Config, t: map<string, Entry<int>>, resp: map<string, Entry<Response>>, args: Args, url: string)
    requires DownAtScope(cfg, t, args, url)
    requires LoadRequestFromCache(cfg.prims, resp, url, args).None?
    requires AttemptUncached(cfg.hooks.requestOptions(DefaultOptions(), url, args))
    requires !ResponseIsError(cfg.hooks, cfg.transport(url, ClampTimeout(args)))
    ensures var plan := Decide(cfg, t, resp, None, args, url);
      plan.Calls() && Answer(plan, cfg, None, url, args) == Some(cfg.transport(url, ClampTimeout(args)))
  {
  }

  /** A successful call is returned unchanged and cached under the request hash with the
      filtered TTL (0, no expiration, when unfiltered); the down flags are untouched. */
  lemma SuccessIsCachedAndReturned(cfg: Config, t: map<string, Entry<int>>, resp: map<string, Entry<Response>>, args: Args, url: string)
    requires Decide(cfg, t, resp, None, args, url).Fetched?
    ensures var plan := Decide(cfg, t, resp, None, args, url);
      && Answer(plan, cfg, None, url, args) == Some(plan.response)
      && plan.response == cfg.transport(url, ClampTimeout(args))
      && !ResponseIsError(cfg.hooks, plan.response)
      && ResponsesAfter(plan, cfg, resp, url, args)[RequestHash(cfg.prims, url, args)] == Entry(Stored(plan.response), cfg.hooks.ttl(0, url, args))
      && TransientsAfter(plan, cfg, t, url, args) == t
  {
  }

  /** A failed call flags the resource down at every granularity for `retry_after`, and
      returns the cached copy when there is one and otherwise the error itself, which is
      then what the cache holds. */
  lemma ErrorFlagsAndFallsBack(cfg: Config, t: map<string, Entry<int>>, resp: map<string, Entry<Response>>, args: Args, url: string, g: string)
    requires Decide(cfg, t, resp, None, args, url).FetchFailed?
    ensures var plan := Decide(cfg, t, resp, None, args, url);
      var cached := LoadRequestFromCache(cfg.prims, resp, url, args);
      && ResponseIsError(cfg.hooks, plan.response)
      && DownFlag(cfg.prims, TransientsAfter(plan, cfg, t, url, args), url, args, g)
      && plan.retryAfter == RetryAfter(cfg.hooks.requestOptions(DefaultOptions(), url, args))
      && (cached.Some? ==> Answer(plan, cfg, None, url, args) == Some(cfg.hooks.failedResponse(cached.value, true, url, args))
                           && ResponsesAfter(plan, cfg, resp, url, args) == resp)
      && (cached.None? ==> Answer(plan, cfg, None, url, args) == Some(cfg.hooks.failedResponse(plan.response, false, url, args))
                           && LoadRequestFromCache(cfg.prims, ResponsesAfter(plan, cfg, resp, url, args), url, args) == Some(Stored(plan.response)))
  {
  }

  /** After a failed call, the same request again is served from cache without a call:
      the flags are set at every granularity, and either a copy was cached already or the
      error just was. With no filters the copy comes back exactly as stored. */
  lemma FailureThenServedFromCache(cfg: Config, t: map<string, Entry<int>>, resp: map<string, Entry<Response>>, args: Args, url: string)
    requires Decide(cfg, t, resp, None, args, url).FetchFailed?
    ensures var plan := Decide(cfg, t, resp, None, args, url);
      var t' := TransientsAfter(plan, cfg, t, url, args);
      var resp' := ResponsesAfter(plan, cfg, resp, url, args);
      var again := Decide(cfg, t', resp', None, args, url);
      && again.ServeCached?
      && !again.Calls()
      && again.copy == (if plan.fallback.Some? then plan.fallback.value else Stored(plan.response))
  {
    var plan := Decide(cfg, t, resp, None, args, url);
    var options := cfg.hooks.requestOptions(DefaultOptions(), url, args);
    var t' := TransientsAfter(plan, cfg, t, url, args);
    var resp' := ResponsesAfter(plan, cfg, resp, url, args);
    assert DownFlag(cfg.prims, t', url, args, Scope(options));
    assert LoadRequestFromCache(cfg.prims, resp, url, args) == plan.fallback;
    if plan.fallback.Some? {
      assert resp' == resp;
    } else {
      assert LoadRequestFromCache(cfg.prims, resp', url, args) == Some(Stored(plan.response));
    }
  }

  /** The settings filter keeps the 60-second `retry_after` default unless the settings
      store one, and overrides the scope when they do. */
  lemma SettingsOptionsOverDefaults(stored: Option<Args>, url: string, args: Args)
    ensures var options := SettingsFilters(stored).requestOptions(DefaultOptions(), url, args);
      && ((stored.None? || "retry_after" !in stored.value) ==> RetryAfter(options) == MinuteInSeconds)
      && (stored.Some? && "scope_for_availability_check" in stored.value && stored.value["scope_for_availability_check"] == Str("request")
          ==> Scope(options) == "request")
  {
  }
}
