# Remote Backstop, modelled in Dafny

Remote Backstop is a WordPress plugin that acts as a circuit breaker for outbound HTTP
requests. It hooks `pre_http_request`. A request whose resource has recently failed is
served from a response cache, or failed at once with an `unavailable` error, instead of
being sent again. A request that is sent is made with a short timeout. A success is
cached. A failure (a `WP_Error` or a status of 500 or more) has three effects:

- it flags the resource as down at three granularities (host, URL, full request) for
  `retry_after` seconds;
- it records an outage event for the host, unless the log already shows one for that host
  within the last five minutes. The log it consults is the request's own buffer together
  with the part of the persisted log that PHP's `+` leaves visible, so a persisted entry
  hidden by the union, or a logged time of 0, lets a new event through;
- it falls back to the cached copy, or caches the error itself.

This project models that core and proves properties of the model:

- `platform.dfy` (module `Platform`): the PHP values the core handles. This covers
  scalars, request arguments as maps, `empty()`, the `(int)` and `(float)` casts, and
  the response shapes. `md5`, `wp_json_encode` and the host part of `wp_parse_url` are
  kept as uninterpreted function values inside `Primitives`.
- `cache.dfy` (module `Cache`): the static cache API of `inc/class-cache.php`.
  - Its functions are the keys, the request hash and the load.
  - `Store` is the key/value backend: transients for the down flags, and the
    `rb-request` object-cache group for responses. Its methods `SetDownFlag` (the loop
    over the three keys) and `CacheResponse` change it in place.
  - `RequestCache` is the instance API of `Request_Cache`. The URL and arguments are
    fixed at construction, as the request manager uses it.
- `events.dfy` (module `Events`): what both log revisions share:
  - the event record;
  - the 300-second de-duplication rule;
  - the `get_last_log_time` scan, as a loop proved against a recursive specification;
  - the 50-entry truncation.
- `event_log.dfy` (module `EventLog`): the class `Event_Log`. It keeps an in-memory,
  newest-first buffer, which `get_last_log_time` looks up through PHP's
  union-by-index `+`. It flushes with up to three attempts under a write lock.
- `log.dfy` (module `Log`): the older class `Log`. It writes each entry straight into
  the persisted option, with a single lock attempt.
- `settings.dfy` (module `Settings`): the three settings filters, as pure functions of
  the stored option.
- `request_manager.dfy` (module `RequestManager`): `pre_http_request`,
  `response_is_error` and `safe_wp_remote_request`.
  - `Decide` is the decision tree as a pure function. It goes through `Backstopped`
    for an intercepted request. `Answer`, `TransientsAfter` and `ResponsesAfter` say
    what each outcome returns and writes.
  - The class `Manager` runs the same steps imperatively against the `Store` and the
    `EventLog`. `PreHttpRequest` is proved to return `Answer(Decide(…))` and to leave
    exactly the state the plan says, with at most one transport call.
  - The thrown exception of the source is an explicit branch into the catch block.
    The steps are split across methods of their own: `CheckDown` (the down check),
    `FailOver` (failing over before a call), `CallThrough` and `Attempt` (the call),
    and `Fallback` (the catch block).
  - The filters, the transport, the clock (`now`) and the request URI are parameters.

Four behaviours the code does not have, although a circuit breaker might be expected to
have them. The model follows the code in each:

- The host key is always built, even for a URL with no host (inc/class-cache.php:27-34).
  There is no absent-host case and no fail-safe `true`.
- Cookies are not stripped before a response is cached (inc/class-cache.php:65-74).
  `test_response_cache_remove_cookies` in tests/test-cache.php:102-132 expects them
  stripped. That test exercises a later revision of the cache.
- The flush does not clear the buffer (inc/class-event-log.php:119-135).
- `get_last_log_time` unites the buffer and the persisted log by index with `+`, so it
  does not concatenate them (inc/class-event-log.php:65-73).

## Model

| member | source | states |
|---|---|---|
| Platform.IntCastRoundTrip | inc/class-settings.php:161-162 | `(int)` of the decimal text of any 64-bit integer is that integer, so a number a settings field stores as text is the number the filter returns; text beyond the range reads as `PHP_INT_MAX` or `PHP_INT_MIN` |
| Cache.DownCacheKeys | inc/class-cache.php:27-34 | all three keys start with `rb-down:`; after the prefix, the host key is md5 of the parsed host, the URL key md5 of the URL, and the request key the request hash |
| Cache.RequestHashKeys | inc/class-cache.php:43-45 | `request_hash` is both the response-cache key and the suffix of the request down key; equal URL-and-JSON texts give equal hashes; with an injective md5, equal hashes exactly when those texts are equal |
| Cache.KeyFor | inc/class-cache.php:100-102 | `url` and `request` select their own key, and every other granularity falls back to the host key |
| Cache.DownFlag | inc/class-cache.php:100-104 | for any granularity other than `url` and `request`, the flag is exactly whether the host key holds a non-zero value |
| Cache.DownFlagReadsOwnKeys | inc/class-cache.php:100-104 | the flag is set only when one of the request's own three keys holds a non-zero value, and it is clear when none of the three is stored |
| Cache.LoadRequestFromCache | inc/class-cache.php:43-56 | none (`false`) exactly when nothing is stored under md5(url + json(args)); otherwise the stored value |
| Cache.Stored | inc/class-cache.php:65-72 | a `WP_Error` is stored as the record `{error, code, message}` with its code and message; any other response is stored unchanged |
| Cache.SetAll | inc/class-cache.php:83-88 | after the writes each listed key holds value 1 with the given duration; every other key keeps its presence and its value |
| Cache.Store.CacheResponse | inc/class-cache.php:65-74 | only the entry under the request hash changes; it becomes the normalised response; the down flags are untouched |
| Cache.Store.SetDownFlag | inc/class-cache.php:83-88 | the loop leaves the transients equal to the three-key write; the flag then reads as set at every granularity; the response cache is untouched |
| Cache.RequestCache.GetDownFlag | inc/class-cache.php:100-104 | the result is whether the key of the requested granularity holds a non-zero flag |
| Cache.RequestCache.LoadResponseFromCache | inc/class-cache.php:54-56 | the result is the entry under this request's hash, or none |
| Cache.RequestCache.CacheResponse | inc/interface-request-cache.php:50-56 | stores the normalised response under this request's hash with the given TTL; the down flags are untouched |
| Cache.RequestCache.SetDownFlag | inc/interface-request-cache.php:58-63 | flags this request's three keys for the given duration; the flag then reads as set at every granularity |
| Cache.KeysDependOnlyOnTheirPart | inc/class-cache.php:27-34 | URLs with the same host get the same host key; the same URL gets the same URL key; identical (url, args) get identical key sets |
| Cache.DistinctPartsDistinctKeys | inc/class-cache.php:27-34 | if md5 is injective, different hosts get different host keys and different URLs get different URL keys |
| Cache.SameUrlDifferentArgs | inc/class-cache.php:27-45 | the same URL with arguments whose JSON differs gives equal host and URL keys; with an injective md5 it gives different request keys and different response-cache keys |
| Cache.CacheThenLoad | inc/class-cache.php:54-74 | loading right after caching finds an entry: a success exactly as given, an error as the record with the same code and message |
| Cache.DownAfterSet | inc/class-cache.php:83-104 | right after the flags are set, `get_down_flag` is true for every granularity; every key other than the three is unchanged |
| Events.LastLogTime | inc/class-event-log.php:67-72 | none exactly when no entry has the host; otherwise the time of an entry with the host, none before which has it |
| Events.ScanLastLogTime | inc/class-event-log.php:67-72 | the early-return loop answers what `LastLogTime` specifies |
| Events.ShouldRecord | inc/class-event-log.php:84-88 | no time known, or a known time of 0, records; otherwise nothing is recorded up to 300 seconds after it, and an entry is recorded from 301 seconds on |
| Events.Take | inc/class-event-log.php:127 | `array_slice( $log, 0, n )` is the prefix of length min(len, n) |
| Events.WindowBoundary | inc/class-event-log.php:85-87 | exactly 300 seconds after a logged time nothing is recorded; at 301 seconds an entry is recorded |
| Events.PrependKeepsNewestFirst | inc/class-event-log.php:111-112 | prepending an entry no older than the head keeps the log newest first |
| Events.TakeKeepsNewestFirst | inc/class-event-log.php:126-127 | truncation keeps a newest-first log newest first |
| Events.ConcatNewestFirst | inc/class-event-log.php:125 | `array_merge` of two newest-first runs is newest first when the first run's oldest entry is no older than the second run's newest |
| EventLog.UnionByIndex | inc/class-event-log.php:66 | `$events + $log` keeps all of the buffer and only the persisted entries at positions from the buffer's length on; its length is the larger of the two |
| EventLog.Downtime | inc/class-event-log.php:81-95 | the buffer is either unchanged or the old buffer with one new entry on top |
| EventLog.DowntimeRecordsOnce | inc/class-event-log.php:81-95 | the entry is added exactly when the 300-second rule records one, and it is `{host, url, now, request_uri}` on top of the old buffer; either way, afterwards the lookup knows a time for the host |
| EventLog.EventLog.constructor | inc/class-event-log.php:44-46 | the buffer starts empty; the persisted log and the lock are as the shared cache holds them |
| EventLog.EventLog.GetLog | inc/class-event-log.php:53-56 | the persisted log, and the empty list exactly when nothing or an empty list is stored |
| EventLog.EventLog.GetLastLogTime | inc/class-event-log.php:65-73 | the time of the first entry for the host in the union of the buffer and the persisted log |
| EventLog.EventLog.RecordEvent | inc/class-event-log.php:104-113 | the buffer gains exactly one entry, `{host, url, now, request_uri}`, at its top |
| EventLog.EventLog.LogResourceDowntime | inc/class-event-log.php:81-95 | an event is recorded exactly when no time is known for the host, the known time is 0, or more than 300 seconds have passed; otherwise the buffer is unchanged |
| EventLog.EventLog.WriteEventsToLog | inc/class-event-log.php:119-135 | with a free lock: one attempt, the log becomes the first 50 of buffer then persisted log, and the lock is released; with a held lock: three attempts and nothing written; the buffer is never cleared |
| EventLog.EventLog.ClearLog | inc/class-event-log.php:141-144 | both the buffer and the persisted log are empty afterwards; the lock is untouched |
| EventLog.PersistedEntryShadowed | inc/class-event-log.php:66 | a persisted entry for a host at position 0 is found on its own, but not once the buffer holds one entry for another host |
| EventLog.UnionLookup | inc/class-event-log.php:65-73 | the lookup on the union is the lookup on the buffer, and then on the persisted entries beyond the buffer's length |
| EventLog.DedupWithinCycle | inc/class-event-log.php:81-95 | repeated failures of one host within 300 seconds of the first, in one cycle, add exactly one event |
| EventLog.FlushedLog | inc/class-event-log.php:124-128 | the flushed log has at most 50 entries; it starts with the buffer (its first 50 when longer); it is newest first when both inputs are and the buffer is newer |
| Log.Added | inc/class-log.php:102-113 | the new entry is at index 0, followed by the old log truncated; the length is min(len + 1, 50) |
| Log.Log.GetLog | inc/class-log.php:51-54 | the stored option, and the empty list exactly when it is absent or empty |
| Log.Log.GetLastLogTime | inc/class-log.php:63-71 | the time of the first persisted entry for the host, or none |
| Log.Log.AddToLog | inc/class-log.php:101-120 | with a free lock the option becomes the new log and the lock is released; with a held lock the option is unchanged and the entry is dropped |
| Log.Log.LogDown | inc/class-log.php:78-92 | the entry is written exactly when the 300-second rule records one and the lock is free |
| Log.AddedAllKeepsNewest | inc/class-log.php:101-113 | adding entries one at a time to a log of at most 50 keeps the 50 most recent of all of them, newest first |
| Log.FiftyTwoEntries | inc/class-log.php:110-113 | 52 entries added to an empty log leave exactly 50, newest first, with the two oldest gone |
| Settings.Setting | inc/class-settings.php:133-135 | a setting read from an absent option is null; from a stored option it is the stored value, or null when the key is missing |
| Settings.Disable | inc/class-settings.php:144-150 | false when the stored `disable` is non-empty; otherwise the input unchanged |
| Settings.Ttl | inc/class-settings.php:159-165 | `(int)` of the stored `ttl` when that is non-empty; otherwise (absent, 0, "0", "") the input TTL |
| Settings.RequestOptions | inc/class-settings.php:174-180 | with empty settings the input unchanged; otherwise the key set is the union, stored keys override, and other keys keep their value |
| Settings.StoredTextTtl | inc/class-settings.php:159-165 | a 64-bit TTL stored as decimal text is the TTL returned, except 0, which lets the filtered TTL through; a TTL beyond the range is returned saturated at the nearer bound |
| RequestManager.DefaultOptions | inc/class-request-manager.php:128-132 | exactly three options: the `host` scope, no uncached attempt while down, and a `retry_after` of 60 seconds |
| RequestManager.DefaultIsError | inc/class-request-manager.php:262-263 | a `WP_Error` is an error; a reply is one exactly when its status is 500 or more; a cached error record is not one |
| RequestManager.FilteredErrorClassification | inc/class-request-manager.php:261-280 | a `remote_backstop_response_is_error` filter that returns what it is given keeps the default; one that always answers true or always false decides alone |
| RequestManager.ClampTimeout | inc/class-request-manager.php:294-301 | only the timeout changes; an empty timeout becomes 1; the result is at most 3, being the timeout below 3 and the integer 3 from 3 up |
| RequestManager.Decide | inc/class-request-manager.php:100-126 | the request passes through exactly when it is preempted, not selected by the interception filter, or has a URL that `empty()` treats as empty ("" or "0") |
| RequestManager.Backstopped | inc/class-request-manager.php:164-252 | an intercepted request is never passed through |
| RequestManager.Manager.constructor | inc/class-request-manager.php:47-51 | the filter is registered exactly when no instance registered it before; no request cache is built |
| RequestManager.Manager.AddHooks | inc/class-request-manager.php:65-71 | afterwards hooks are marked added; the filter is registered if it was already, or if no instance had added it |
| RequestManager.Manager.GetCache | inc/class-request-manager.php:80-82 | a new request cache over the shared store, for this URL and these arguments |
| RequestManager.Manager.SafeRemoteRequest | inc/class-request-manager.php:294-304 | the transport is called once, with the clamped arguments |
| RequestManager.Manager.PreHttpRequest | inc/class-request-manager.php:95-253 | returns the answer of `Decide` on the state it finds; writes exactly the down flags, the response cache and the event buffer that plan calls for; makes at most one transport call, with the filter unregistered, and re-registers it; builds a cache only for intercepted requests |
| RequestManager.Manager.Backstop | inc/class-request-manager.php:164-252 | for an intercepted request, the return value, transport calls, store writes and logged events are those of `Backstopped` |
| RequestManager.Manager.CheckDown | inc/class-request-manager.php:165-177 | the cache is loaded exactly when the flag is set at the configured scope; the fallback follows exactly when a copy was found or uncached attempts are off |
| RequestManager.Manager.FailOver | inc/class-request-manager.php:165-177 | failing over before any call: no call is made, and the answer and writes are those of the serve-cached or unavailable plan |
| RequestManager.Manager.CallThrough | inc/class-request-manager.php:179-252 | the call path: the answer, the single call and the writes are those of the fetched or failed plan |
| RequestManager.Manager.Attempt | inc/class-request-manager.php:179-211 | one call with the filter removed; on an error, three flags set for `retry_after` and one outage logged; otherwise the response cached with the filtered TTL |
| RequestManager.Manager.Fallback | inc/class-request-manager.php:213-252 | the filter receives the cached copy (from cache), else the failed response, which is then cached with no expiration, else the `unavailable` error |
| RequestManager.DefaultErrorClassification | inc/class-request-manager.php:261-280 | without the error filter, a response is an error exactly when it is a `WP_Error` or a reply with status 500 or more |
| RequestManager.PreemptedRequestUntouched | inc/class-request-manager.php:100-103 | a preempted request passes through and its preempted value is returned |
| RequestManager.UninterceptedRequestPassesThrough | inc/class-request-manager.php:113-126 | without filters, a non-GET request or a URL of "" or "0" passes through, and the `false` preempt is returned |
| RequestManager.GetRequestIntercepted | inc/class-request-manager.php:113-126 | without filters, a GET request to a URL other than "" and "0" is taken over |
| RequestManager.DownUncachedIsUnavailable | inc/class-request-manager.php:164-233 | down, nothing cached, no uncached attempt: no call, the `unavailable` error, nothing written |
| RequestManager.DownCachedServesCopy | inc/class-request-manager.php:164-220 | down with a cached copy: no call, and the copy is returned exactly as loaded, with nothing written |
| RequestManager.DownAttemptCallsOnce | inc/class-request-manager.php:164-211 | down, nothing cached, uncached attempts on: one call, and a non-error reply is returned as the transport gave it |
| RequestManager.SuccessIsCachedAndReturned | inc/class-request-manager.php:195-211 | a success is returned unchanged and cached under the request hash with the filtered TTL; the flags are untouched |
| RequestManager.ErrorFlagsAndFallsBack | inc/class-request-manager.php:189-233 | an error flags the resource down at every granularity for `retry_after`, then returns the cached copy if there is one; otherwise it returns the error, which the cache then holds |
| RequestManager.FailureThenServedFromCache | inc/class-request-manager.php:164-233 | after a failed call, the same request again is served from cache with no call: the earlier copy, or else the stored error |
| RequestManager.SettingsOptionsOverDefaults | inc/class-request-manager.php:128-146 | with the settings filter, `retry_after` stays 60 unless the settings store one, and a stored `request` scope is the scope used |

## Left out

- Key order of PHP arrays: request arguments are a Dafny map, so `wp_json_encode` sees them
  without their insertion order. Two PHP arrays with the same entries in a different order
  are one value here, so `Cache.KeysDependOnlyOnTheirPart` gives them the same request key.
  The source gives them different request keys, because `wp_json_encode` depends on the
  order.
- Expiry of transients and object-cache entries: each stored entry keeps the TTL it was
  written with, and reading an expired entry (which the backend would drop) is not modelled.
- Concurrency: the write locks of both logs are a get-then-set on a shared cache, modelled
  as a sequential cell. Nothing releases a lock between attempts in one run, so a lock that
  is held at the start stays held on all three attempts. No cross-process mutual exclusion
  is claimed.
- `usleep( 1000 )` between lock attempts, and the lock's 10-second expiry.
- `sanitize_text_field( $_SERVER['REQUEST_URI'] )`: the request URI is a parameter, passed
  as already sanitised. The clock `time()` is a single `now` per call.
- The `(int)` and `(float)` casts read an optional sign and the leading decimal digits of a
  string. Leading whitespace, fractions and exponents in strings are not modelled. Ill-typed
  filter results, which PHP would reject or coerce for the `int` parameters, are cast with
  the `(int)` rule, for example `retry_after`. A scope that is not a string selects the host
  key here. In the source, a scope of null (a filter that drops the key) or an array makes
  `get_down_flag( string $granularity )` throw a `TypeError`, which the catch block does not
  catch.
- Integer width: the `(int)` cast of a string saturates at the 64-bit bounds, as PHP's
  does. Integers are otherwise unbounded. That covers values that filters return, `(int)`
  of a float beyond the range (undefined in PHP), and the subtraction `time() - $last_time`,
  which PHP would turn into a float on overflow. None of these overflow at realistic clock
  values.
- `remote_backstop_ttl`'s `(int)` cast of the filtered value: the TTL filter is modelled as
  returning an integer directly.
- The admin page (`register_submenu_page`, `add_options`), `Log::display`, the `Singleton`
  trait, `Cache_Factory`, the plugin bootstrap and `inc/compat.php`: plumbing and HTML
  output outside the backstop's logic.
- WordPress hook registration: filters are function values in `Hooks`. The self-removal
  around the call is the `hooked` flag, and the static `$hooks_added` is a field.
- The shutdown flush: `Event_Log` registers a `shutdown` callback named `log_events`, which
  the class does not define. The flush `WriteEventsToLog` is therefore an explicit call.
- `Log::setup` listens for a `remote_backstop_down_flag` action that nothing in the core
  fires, so `Log.Log.LogDown` stands alone. It takes the URL instead of the cache object.
- The transport `wp_remote_request` is the function `cfg.transport`, and the parsing of
  response codes by `wp_remote_retrieve_response_code` is the `status` of a `Reply`.
- `(string) $url` and `(array) $request_args` at the top of `pre_http_request`: the model
  is typed.
- `Cache.Store.CacheResponse`: the static `cache_response` stores no TTL, while the manager
  calls the instance API with one. The model records the TTL the manager passes, with 0
  meaning no expiration.
