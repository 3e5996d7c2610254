/** The request cache: down-flag keys at three granularities, the request hash,
    cached responses in the `rb-request` object-cache group, and down flags stored
    as transients. `Store` is the key/value backend; the module-level operations are
    the static API of class-cache.php, and `RequestCache` is the instance API of the
    `Request_Cache` interface, with the request's URL and arguments fixed at construction. */
module Cache {
  import opened Platform

  const DownPrefix := "rb-down:"

  /** `MINUTE_IN_SECONDS`, the default down-flag duration. */
  const MinuteInSeconds := 60

  /** A stored value together with the expiration it was written with (0 = none). */
  datatype Entry<T> = Entry(value: T, ttl: int)

  /** The three down-flag keys of one request. */
  datatype DownKeys = DownKeys(host: string, url: string, request: string)

  /** The keys `set_down_flag` visits, in the order of the source's array. */
  function KeyList(k: DownKeys): seq<string> {
    [k.host, k.url, k.request]
  }

  /** The response-cache key of a request: the hash of the URL followed by the JSON of its arguments. */
  function RequestHash(p: Primitives, url: string, r: Args): string {
    p.md5(url + p.jsonEncode(r))
  }

  /** `down_cache_keys`: host, URL and full-request keys, each behind the `rb-down:` prefix. */
  function DownCacheKeys(p: Primitives, url: string, r: Args): (k: DownKeys)
    ensures DownPrefix <= k.host && DownPrefix <= k.url && DownPrefix <= k.request
    ensures k.host[|DownPrefix|..] == p.md5(p.parseHost(url))
    ensures k.url[|DownPrefix|..] == p.md5(url)
    ensures k.request[|DownPrefix|..] == RequestHash(p, url, r)
  {
    DownKeys(DownPrefix + p.md5(p.parseHost(url)), DownPrefix + p.md5(url), DownPrefix + RequestHash(p, url, r))
  }

  /** `$cache_keys[ $granularity ] ?? $cache_keys['host']`. */
  function KeyFor(k: DownKeys, granularity: string): (key: string)
    ensures key in KeyList(k)
    ensures granularity == "url" ==> key == k.url
    ensures granularity == "request" ==> key == k.request
    ensures granularity != "url" && granularity != "request" ==> key == k.host
  {
    if granularity == "url" then k.url
    else if granularity == "request" then k.request
    else k.host
  }

  /** `get_down_flag`: `(bool) get_transient( key )` for the key of the requested granularity. */
  function DownFlag(p: Primitives, transients: map<string, Entry<int>>, url: string, r: Args, granularity: string): (down: bool)
    ensures granularity != "url" && granularity != "request" ==>
      (down <==> DownCacheKeys(p, url, r).host in transients && transients[DownCacheKeys(p, url, r).host].value != 0)
  {
    var key := KeyFor(DownCacheKeys(p, url, r), granularity);
    key in transients && transients[key].value != 0
  }

  /** `load_request_from_cache`: the entry stored under the request hash, or none (`false`). */
  function LoadRequestFromCache(p: Primitives, responses: map<string, Entry<Response>>, url: string, r: Args): (c: Option<Response>)
    ensures c.None? <==> RequestHash(p, url, r) !in responses
    ensures c.Some? ==> c.value == responses[RequestHash(p, url, r)].value
  {
    var key := RequestHash(p, url, r);
    if key in responses then Some(responses[key].value) else None
  }

  /** What `cache_response` stores: a `WP_Error` becomes `{error: true, code, message}`,
      anything else is stored as it is. */
  function Stored(response: Response): (s: Response)
    ensures response.WPError? ==> s == ErrorRecord(response.code, response.message)
    ensures !response.WPError? ==> s == response
  {
    match response
    case WPError(code, message) => ErrorRecord(code, message)
    case _ => response
  }

  /** Transients after writing value 1 with duration `d` to each key of `ks`, in order. */
  function SetAll(t: map<string, Entry<int>>, ks: seq<string>, d: int): (t': map<string, Entry<int>>)
    ensures forall k :: k in ks ==> k in t' && t'[k] == Entry(1, d)
    ensures forall k :: k !in ks ==> (k in t' <==> k in t)
    ensures forall k :: k !in ks && k in t ==> t'[k] == t[k]
  {
    if ks == [] then t else SetAll(t, ks[..|ks| - 1], d)[ks[|ks| - 1] := Entry(1, d)]
  }

  /** The key/value backend the cache writes to: transients for the down flags and the
      `rb-request` object-cache group for responses. Expiry is the backend's business:
      each entry keeps the TTL it was written with. */
  class Store {
    const prims: Primitives
    var transients: map<string, Entry<int>>
    var responses: map<string, Entry<Response>>

    constructor (prims: Primitives, transients: map<string, Entry<int>>, responses: map<string, Entry<Response>>)
      ensures this.prims == prims && this.transients == transients && this.responses == responses
    {
      this.prims := prims;
      this.transients := transients;
      this.responses := responses;
    }

    /** `cache_response`: store the normalised response under the request hash. */
    method CacheResponse(response: Response, url: string, r: Args, ttl: int)
      modifies this
      ensures responses == old(responses)[RequestHash(prims, url, r) := Entry(Stored(response), ttl)]
      ensures transients == old(transients)
    {
      responses := responses[RequestHash(prims, url, r) := Entry(Stored(response), ttl)];
    }

    /** `set_down_flag`: write 1 with the given duration under each of the three keys. */
    method SetDownFlag(url: string, r: Args, duration: int)
      modifies this
      ensures transients == SetAll(old(transients), KeyList(DownCacheKeys(prims, url, r)), duration)
      ensures forall g :: DownFlag(prims, transients, url, r, g)
      ensures responses == old(responses)
    {
      var keys := KeyList(DownCacheKeys(prims, url, r));
      var i := 0;
      while i < |keys|
        invariant 0 <= i <= |keys|
        invariant transients == SetAll(old(transients), keys[..i], duration)
        invariant responses == old(responses)
      {
        assert keys[..i + 1][..i] == keys[..i];
        transients := transients[keys[i] := Entry(1, duration)];
        i := i + 1;
      }
      assert keys[..|keys|] == keys;
    }
  }

  /** The instance API the request manager uses (`Request_Cache`): one request's URL and
      arguments, fixed when the cache is built, over a shared backend. */
  class RequestCache {
    const store: Store
    const url: string
    const args: Args

    constructor (store: Store, url: string, args: Args)
      ensures this.store == store && this.url == url && this.args == args
    {
      this.store := store;
      this.url := url;
      this.args := args;
    }

    method GetDownFlag(granularity: string) returns (down: bool)
      ensures down == DownFlag(store.prims, store.transients, url, args, granularity)
    {
      down := DownFlag(store.prims, store.transients, url, args, granularity);
    }

    method LoadResponseFromCache() returns (cached: Option<Response>)
      ensures cached == LoadRequestFromCache(store.prims, store.responses, url, args)
    {
      cached := LoadRequestFromCache(store.prims, store.responses, url, args);
    }

    method CacheResponse(response: Response, ttl: int)
      modifies store
      ensures store.responses == old(store.responses)[RequestHash(store.prims, url, args) := Entry(Stored(response), ttl)]
      ensures store.transients == old(store.transients)
    {
      store.CacheResponse(response, url, args, ttl);
    }

    method SetDownFlag(duration: int)
      modifies store
      ensures store.transients == SetAll(old(store.transients), KeyList(DownCacheKeys(store.prims, url, args)), duration)
      ensures forall g :: DownFlag(store.prims, store.transients, url, args, g)
      ensures store.responses == old(store.responses)
    {
      store.SetDownFlag(url, args, duration);
    }
  }

  lemma PrefixCancel(p: string, a: string, b: string)
    requires p + a == p + b
    ensures a == b
  {
    assert a == (p + a)[|p|..];
    assert b == (p + b)[|p|..];
  }

  /** The host key depends only on the parsed host, the URL key only on the URL, and
      identical requests have identical key sets. */
  lemma KeysDependOnlyOnTheirPart(p: Primitives, url1: string, r1: Args, url2: string, r2: Args)
    ensures p.parseHost(url1) == p.parseHost(url2) ==> DownCacheKeys(p, url1, r1).host == DownCacheKeys(p, url2, r2).host
    ensures url1 == url2 ==> DownCacheKeys(p, url1, r1).url == DownCacheKeys(p, url2, r2).url
    ensures url1 == url2 && r1 == r2 ==> DownCacheKeys(p, url1, r1) == DownCacheKeys(p, url2, r2)
  {
  }

  /** With an injective hash, different hosts get different host keys and different URLs
      different URL keys. */
  lemma DistinctPartsDistinctKeys(p: Primitives, url1: string, r1: Args, url2: string, r2: Args)
    requires Injective(p.md5)
    ensures p.parseHost(url1) != p.parseHost(url2) ==> DownCacheKeys(p, url1, r1).host != DownCacheKeys(p, url2, r2).host
    ensures url1 != url2 ==> DownCacheKeys(p, url1, r1).url != DownCacheKeys(p, url2, r2).url
  {
    var k1, k2 := DownCacheKeys(p, url1, r1), DownCacheKeys(p, url2, r2);
    if k1.host == k2.host {
      PrefixCancel(DownPrefix, p.md5(p.parseHost(url1)), p.md5(p.parseHost(url2)));
    }
    if k1.url == k2.url {
      PrefixCancel(DownPrefix, p.md5(url1), p.md5(url2));
    }
  }

  /** The same URL with arguments whose JSON differs: equal host and URL keys, but (with an
      injective hash) different request keys and different response-cache keys. */
  lemma SameUrlDifferentArgs(p: Primitives, url: string, r1: Args, r2: Args)
    requires Injective(p.md5)
    requires p.jsonEncode(r1) != p.jsonEncode(r2)
    ensures DownCacheKeys(p, url, r1).host == DownCacheKeys(p, url, r2).host
    ensures DownCacheKeys(p, url, r1).url == DownCacheKeys(p, url, r2).url
    ensures RequestHash(p, url, r1) != RequestHash(p, url, r2)
    ensures DownCacheKeys(p, url, r1).request != DownCacheKeys(p, url, r2).request
  {
    if RequestHash(p, url, r1) == RequestHash(p, url, r2) {
      PrefixCancel(url, p.jsonEncode(r1), p.jsonEncode(r2));
    }
    var k1, k2 := DownCacheKeys(p, url, r1), DownCacheKeys(p, url, r2);
    if k1.request == k2.request {
      PrefixCancel(DownPrefix, RequestHash(p, url, r1), RequestHash(p, url, r2));
      PrefixCancel(url, p.jsonEncode(r1), p.jsonEncode(r2));
    }
  }

  /** A down flag is read from one of the request's own three keys only: it is set only
      when one of them holds a non-zero flag, and it is clear when none of them is stored. */
  lemma DownFlagReadsOwnKeys(p: Primitives, transients: map<string, Entry<int>>, url: string, r: Args, granularity: string)
    ensures DownFlag(p, transients, url, r, granularity) ==>
      exists k :: k in KeyList(DownCacheKeys(p, url, r)) && k in transients && transients[k].value != 0
    ensures (forall k :: k in KeyList(DownCacheKeys(p, url, r)) ==> k !in transients) ==> !DownFlag(p, transients, url, r, granularity)
  {
  }

  /** `request_hash` is both the response-cache key and the suffix of the request down
      key; it depends on the URL and the JSON of the arguments only, and with an injective
      md5 two requests share it exactly when their URL-and-JSON texts are equal. */
  lemma RequestHashKeys(p: Primitives, url1: string, r1: Args, url2: string, r2: Args, responses: map<string, Entry<Response>>)
    ensures DownCacheKeys(p, url1, r1).request == DownPrefix + RequestHash(p, url1, r1)
    ensures LoadRequestFromCache(p, responses, url1, r1).Some? <==> RequestHash(p, url1, r1) in responses
    ensures url1 + p.jsonEncode(r1) == url2 + p.jsonEncode(r2) ==> RequestHash(p, url1, r1) == RequestHash(p, url2, r2)
    ensures Injective(p.md5) ==>
      (RequestHash(p, url1, r1) == RequestHash(p, url2, r2) <==> url1 + p.jsonEncode(r1) == url2 + p.jsonEncode(r2))
  {
  }

  /** Caching a response and loading the same request back returns what was stored: a
      success payload unchanged, an error as a record with the same code and message. */
  lemma CacheThenLoad(p: Primitives, responses: map<string, Entry<Response>>, url: string, r: Args, response: Response, ttl: int)
    ensures var loaded := LoadRequestFromCache(p, responses[RequestHash(p, url, r) := Entry(Stored(response), ttl)], url, r);
      && loaded.Some?
      && (response.WPError? ==> loaded.value == ErrorRecord(response.code, response.message))
      && (!response.WPError? ==> loaded.value == response)
  {
  }

  /** Immediately after `set_down_flag`, the flag reads as set at every granularity, and
      every key other than the three is left as it was. */
  lemma DownAfterSet(p: Primitives, t: map<string, Entry<int>>, url: string, r: Args, d: int, g: string, other: string)
    requires other !in KeyList(DownCacheKeys(p, url, r))
    ensures DownFlag(p, SetAll(t, KeyList(DownCacheKeys(p, url, r)), d), url, r, g)
    ensures var t' := SetAll(t, KeyList(DownCacheKeys(p, url, r)), d);
      (other in t' <==> other in t) && (other in t ==> t'[other] == t[other])
  {
  }
}
