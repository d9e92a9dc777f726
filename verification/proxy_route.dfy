/**
 * The server-side proxy in front of the market-data providers: one in-memory
 * cache of upstream replies keyed by request, with a lifetime per entry, and one
 * global pause that starts when a provider answers 429.
 *
 * One request is one atomic step on the proxy's state. The clock reading `now`,
 * the configured API keys and the upstream reply are inputs of that step; the
 * reply is consulted only when the step gets as far as calling the provider,
 * which the `called` flag of the outcome reports.
 */
module ProxyRoute {
  import opened JsValues
  import opened UrlEncoded

  const DefaultTtl := 30000
  const PreviewTtl := 8000
  const RetryAfterMs := 60000

  const PausedMessage := "Temporarily paused due to rate limiting"
  const RateLimitedMessage := "Rate limit exceeded"
  const ForbiddenMessage :=
    "Access denied. Your API key doesn't have permission for this endpoint. Try upgrading your Finnhub plan or use the Quote card widget instead of Chart."
  const NoAccessMessage :=
    "API Access Denied: Your Finnhub API key doesn't support historical candle data. This feature requires a paid Finnhub plan. Try using Quote card widgets instead, which show current price only."
  const NoAccessMarker := "don't have access"
  /** The message of the TypeError raised when `error` is truthy but neither a string nor an array. */
  const NotAFunctionMessage := "data.error.includes is not a function"

  /** The JSON body of a request; an absent `params` is the empty object. */
  datatype Request = Request(provider: string, endpoint: string, params: seq<(string, J)>, intent: Option<string>)

  /** The configured API keys; an absent key and an empty one are both missing. */
  datatype Env = Env(alphaVantageKey: Option<string>, finnhubKey: Option<string>)

  /** What the provider does with the call: replies with a status and a body, or the call throws. */
  datatype Upstream = Reply(status: int, text: string) | Failed(message: string)

  datatype Response = Response(status: int, body: J, xCache: Option<string>)

  datatype CacheEntry = CacheEntry(expires: int, data: J)

  datatype ProxyState = ProxyState(cache: map<string, CacheEntry>, rateLimitUntil: int)

  datatype Outcome = Outcome(state: ProxyState, response: Response, called: bool)

  // ---------------------------------------------------------------- cache keys

  /** `asStringRecord(obj)`: every value replaced by `String(value)`, keys and order kept. */
  function AsStringRecord(conv: Conv, obj: seq<(string, J)>): (r: seq<(string, string)>)
    ensures |r| == |obj|
    ensures forall k :: 0 <= k < |obj| ==> r[k] == (obj[k].0, ToJsString(conv, obj[k].1))
  {
    if obj == [] then [] else [(obj[0].0, ToJsString(conv, obj[0].1))] + AsStringRecord(conv, obj[1..])
  }

  /**
   * `makeCacheKey(provider, endpoint, params)`: `provider|endpoint|query`, where
   * `query` is `new URLSearchParams(params).toString()`. Building the search
   * parameters from a plain object stringifies each value as `String` does.
   */
  function MakeCacheKey(conv: Conv, provider: string, endpoint: string, params: seq<(string, J)>): string {
    provider + "|" + endpoint + "|" + Serialize(AsStringRecord(conv, params))
  }

  predicate Supported(provider: string) {
    provider == "alphaVantage" || provider == "finnhub"
  }

  /**
   * For the supported providers the cache key determines the request: the
   * provider, the endpoint, and the parameter names and stringified values in
   * insertion order.
   */
  lemma CacheKeyDetermines(conv: Conv, p1: string, e1: string, q1: seq<(string, J)>,
                           p2: string, e2: string, q2: seq<(string, J)>)
    requires Supported(p1) && Supported(p2)
    requires MakeCacheKey(conv, p1, e1, q1) == MakeCacheKey(conv, p2, e2, q2)
    ensures p1 == p2 && e1 == e2 && AsStringRecord(conv, q1) == AsStringRecord(conv, q2)
  {
    var k := MakeCacheKey(conv, p1, e1, q1);
    var r1, r2 := AsStringRecord(conv, q1), AsStringRecord(conv, q2);
    SerializeHasNoBar(r1);
    SerializeHasNoBar(r2);
    SupportedHasNoBar(p1);
    SupportedHasNoBar(p2);
    KeyParts(k, p1, e1, Serialize(r1));
    KeyParts(k, p2, e2, Serialize(r2));
    SerializeInjective(r1, r2);
  }

  lemma SupportedHasNoBar(p: string)
    requires Supported(p)
    ensures '|' !in p
  {
  }

  /** A key splits at `|` into the provider first and the query last, with the endpoint between. */
  lemma KeyParts(k: string, p: string, e: string, s: string)
    requires '|' !in p && '|' !in s
    requires k == p + "|" + e + "|" + s
    ensures Split(k, '|')[0] == p && Split(k, '|')[|Split(k, '|')| - 1] == s
    ensures |k| == |p| + |e| + |s| + 2 && k[|p| + 1 .. |k| - |s| - 1] == e
  {
    assert k == p + ['|'] + (e + ['|'] + s);
    SplitAtSeparator(p, '|', e + ['|'] + s);
    SplitAtSeparator(e, '|', s);
    SplitWithoutSeparator(p, '|');
    SplitWithoutSeparator(s, '|');
  }

  /** `intent === "preview" ? PREVIEW_TTL : DEFAULT_TTL` */
  function Ttl(intent: Option<string>): (ttl: int)
    ensures ttl == PreviewTtl <==> intent == Some("preview")
    ensures ttl == DefaultTtl <==> intent != Some("preview")
  {
    if intent == Some("preview") then PreviewTtl else DefaultTtl
  }

  // ---------------------------------------------------------------- responses

  function ErrorBody(message: string): J {
    JObj([("error", JStr(message))])
  }

  function StatusNumber(status: int): J {
    JNum(Fin(status as real))
  }

  function Paused(): Response {
    Response(429, ErrorBody(PausedMessage), None)
  }

  /** A key the environment provides: present and non-empty. */
  predicate KeySet(key: Option<string>) {
    key.Some? && key.value != ""
  }

  /** The body the proxy works with: the parsed JSON, or the raw text wrapped when it is not JSON. */
  function ParseBody(conv: Conv, text: string): (data: J)
    ensures conv.jsonParse(text).None? ==> data == JObj([("raw", JStr(text))])
  {
    var parsed := conv.jsonParse(text);
    if parsed.Some? then parsed.value else JObj([("raw", JStr(text))])
  }

  /** What `data && data.error && data.error.includes("don't have access")` comes to. */
  datatype AccessCheck = Passes | Denied(error: J) | Throws

  function CheckAccess(data: J): (r: AccessCheck)
    ensures r.Denied? ==> Prop(data, "error") == Some(r.error)
    ensures !Truthy(data) || !Present(Prop(data, "error")) ==> r == Passes
  {
    var e := Prop(data, "error");
    if !Truthy(data) || !Present(e) then Passes
    else
      match e.value
      case JStr(s) => if Contains(s, NoAccessMarker) then Denied(e.value) else Passes
      case JArr(items) => if JStr(NoAccessMarker) in items then Denied(e.value) else Passes
      case _ => Throws
  }

  /**
   * A string error is checked with `String.prototype.includes` (substring), an
   * array error with `Array.prototype.includes` (element); on any other truthy
   * error `includes` is not a function and the check throws.
   */
  lemma AccessCheckCases(data: J)
    requires Truthy(data) && Present(Prop(data, "error"))
    ensures var e := Prop(data, "error").value;
      && (e.JStr? ==> (CheckAccess(data) == Denied(e) <==> Contains(e.s, NoAccessMarker)))
      && (e.JArr? ==> (CheckAccess(data) == Denied(e) <==> JStr(NoAccessMarker) in e.items))
      && (!e.JStr? && !e.JArr? ==> CheckAccess(data) == Throws)
  {
  }

  // ---------------------------------------------------------------- one request

  /** The part of `POST` from the upstream call on; the key and ttl are the request's. */
  function Fetched(conv: Conv, st: ProxyState, now: int, key: string, ttl: int, up: Upstream): (r: Outcome)
    ensures r.called
  {
    match up
    case Failed(message) =>
      Outcome(st, Response(500, ErrorBody(if message != "" then message else "Server error"), None), true)
    case Reply(status, text) =>
      if status == 429 then
        Outcome(st.(rateLimitUntil := now + RetryAfterMs),
                Response(status, JObj([("error", JStr(RateLimitedMessage)), ("status", StatusNumber(status))]), None), true)
      else if status == 403 then
        Outcome(st, Response(status, JObj([("error", JStr(ForbiddenMessage)), ("status", StatusNumber(status))]), None), true)
      else
        var data := ParseBody(conv, text);
        match CheckAccess(data)
        case Denied(error) =>
          Outcome(st, Response(403, JObj([("error", JStr(NoAccessMessage)), ("finnhubError", error)]), None), true)
        case Throws =>
          Outcome(st, Response(500, ErrorBody(NotAFunctionMessage), None), true)
        case Passes =>
          Outcome(st.(cache := st.cache[key := CacheEntry(now + ttl, data)]), Response(200, data, Some("miss")), true)
  }

  /** `POST(req)`: the outcome of one request on state `st` at time `now`. */
  function Handle(conv: Conv, st: ProxyState, now: int, req: Request, env: Env, up: Upstream): Outcome {
    var key := MakeCacheKey(conv, req.provider, req.endpoint, req.params);
    if now < st.rateLimitUntil then Outcome(st, Paused(), false)
    else if key in st.cache && st.cache[key].expires > now then
      Outcome(st, Response(200, st.cache[key].data, Some("hit")), false)
    else if req.provider == "alphaVantage" && !KeySet(env.alphaVantageKey) then
      Outcome(st, Response(500, ErrorBody("Missing ALPHA_VANTAGE_API_KEY"), None), false)
    else if req.provider == "finnhub" && !KeySet(env.finnhubKey) then
      Outcome(st, Response(500, ErrorBody("Missing FINNHUB_API_KEY"), None), false)
    else if !Supported(req.provider) then
      Outcome(st, Response(400, ErrorBody("Unsupported provider"), None), false)
    else Fetched(conv, st, now, key, Ttl(req.intent), up)
  }

  // ---------------------------------------------------------------- properties of one request

  /** Requests are answered with the pause exactly while the pause lasts; nothing else happens then. */
  lemma PausedIff(conv: Conv, st: ProxyState, now: int, req: Request, env: Env, up: Upstream)
    ensures var r := Handle(conv, st, now, req, env, up);
      (r.response == Paused() <==> now < st.rateLimitUntil)
      && (now < st.rateLimitUntil ==> !r.called && r.state == st)
  {
    var r := Handle(conv, st, now, req, env, up);
    if now >= st.rateLimitUntil && r.called {
      var key := MakeCacheKey(conv, req.provider, req.endpoint, req.params);
      match up
      case Failed(_) =>
      case Reply(status, text) =>
        if status == 429 {
          assert r.response.body != ErrorBody(PausedMessage);
        }
    }
  }

  /**
   * A request is answered from the cache exactly when the pause is over and its
   * key holds an entry that expires strictly after `now`; the stored data is
   * returned as it is, the provider is not called and nothing changes.
   */
  lemma CacheHitIff(conv: Conv, st: ProxyState, now: int, req: Request, env: Env, up: Upstream)
    ensures var key := MakeCacheKey(conv, req.provider, req.endpoint, req.params);
      var r := Handle(conv, st, now, req, env, up);
      && (r.response.xCache == Some("hit") <==>
            now >= st.rateLimitUntil && key in st.cache && st.cache[key].expires > now)
      && (r.response.xCache == Some("hit") ==>
            r.response == Response(200, st.cache[key].data, Some("hit")) && !r.called && r.state == st)
  {
  }

  /**
   * The state changes in two ways only, both after the provider was called: a
   * 429 reply starts the pause for `RetryAfterMs` leaving the cache alone, and a
   * reply that passes the checks is stored under the request's key for the
   * request's ttl and returned.
   */
  lemma StateChanges(conv: Conv, st: ProxyState, now: int, req: Request, env: Env, up: Upstream)
    ensures var key := MakeCacheKey(conv, req.provider, req.endpoint, req.params);
      var r := Handle(conv, st, now, req, env, up);
      || r.state == st
      || (r.called && up.Reply? && up.status == 429
          && r.state == ProxyState(st.cache, now + RetryAfterMs) && r.response.status == 429)
      || (r.called && up.Reply? && up.status != 429 && up.status != 403
          && r.state == ProxyState(st.cache[key := CacheEntry(now + Ttl(req.intent), ParseBody(conv, up.text))], st.rateLimitUntil)
          && r.response == Response(200, ParseBody(conv, up.text), Some("miss")))
  {
  }

  /** A cache write happens exactly on a miss, and it stores what is returned. */
  lemma MissStores(conv: Conv, st: ProxyState, now: int, req: Request, env: Env, up: Upstream)
    ensures var key := MakeCacheKey(conv, req.provider, req.endpoint, req.params);
      var r := Handle(conv, st, now, req, env, up);
      r.response.xCache == Some("miss") <==>
        && now >= st.rateLimitUntil
        && !(key in st.cache && st.cache[key].expires > now)
        && Supported(req.provider)
        && (req.provider == "alphaVantage" ==> KeySet(env.alphaVantageKey))
        && (req.provider == "finnhub" ==> KeySet(env.finnhubKey))
        && up.Reply? && up.status != 429 && up.status != 403
        && CheckAccess(ParseBody(conv, up.text)) == Passes
  {
  }

  /** Upstream 403 replies and bodies reporting missing access are answered 403 and never cached. */
  lemma ForbiddenNotCached(conv: Conv, st: ProxyState, now: int, req: Request, env: Env, up: Upstream)
    requires Handle(conv, st, now, req, env, up).called
    requires up.Reply? && up.status != 429
    requires up.status == 403 || CheckAccess(ParseBody(conv, up.text)).Denied?
    ensures var r := Handle(conv, st, now, req, env, up);
      r.response.status == 403 && r.state == st
  {
  }

  /** A body that is not JSON is stored and returned wrapped as `{raw: text}`. */
  lemma RawTextCached(conv: Conv, st: ProxyState, now: int, req: Request, env: Env, text: string)
    requires Handle(conv, st, now, req, env, Reply(200, text)).called
    requires conv.jsonParse(text).None?
    ensures var key := MakeCacheKey(conv, req.provider, req.endpoint, req.params);
      var r := Handle(conv, st, now, req, env, Reply(200, text));
      r.response == Response(200, JObj([("raw", JStr(text))]), Some("miss"))
      && r.state.cache == st.cache[key := CacheEntry(now + Ttl(req.intent), JObj([("raw", JStr(text))]))]
  {
    assert Prop(JObj([("raw", JStr(text))]), "error") == None;
  }

  /**
   * A missing key or an unknown provider is reported only after the pause and
   * the cache were checked; the provider is not called and nothing changes.
   */
  lemma ConfigurationErrors(conv: Conv, st: ProxyState, now: int, req: Request, env: Env, up: Upstream)
    ensures var key := MakeCacheKey(conv, req.provider, req.endpoint, req.params);
      var r := Handle(conv, st, now, req, env, up);
      && (r.response.status == 400 <==>
            now >= st.rateLimitUntil && !(key in st.cache && st.cache[key].expires > now) && !Supported(req.provider))
      && (r.response.status == 400 ==> r.response.body == ErrorBody("Unsupported provider"))
      && (now >= st.rateLimitUntil && !(key in st.cache && st.cache[key].expires > now)
          && req.provider == "finnhub" && !KeySet(env.finnhubKey) ==>
            r.response == Response(500, ErrorBody("Missing FINNHUB_API_KEY"), None))
      && (now >= st.rateLimitUntil && !(key in st.cache && st.cache[key].expires > now)
          && req.provider == "alphaVantage" && !KeySet(env.alphaVantageKey) ==>
            r.response == Response(500, ErrorBody("Missing ALPHA_VANTAGE_API_KEY"), None))
      && (r.response.status == 400 || (r.response.status == 500 && !r.called) ==> r.state == st)
  {
  }

  /** The provider is called only for a supported provider whose key is set. */
  lemma CalledOnlyWhenConfigured(conv: Conv, st: ProxyState, now: int, req: Request, env: Env, up: Upstream)
    requires Handle(conv, st, now, req, env, up).called
    ensures now >= st.rateLimitUntil
    ensures Supported(req.provider)
    ensures req.provider == "alphaVantage" ==> KeySet(env.alphaVantageKey)
    ensures req.provider == "finnhub" ==> KeySet(env.finnhubKey)
  {
  }

  // ---------------------------------------------------------------- sequences of requests

  /** A key of a request to a supported provider. */
  predicate SupportedKey(key: string) {
    "alphaVantage|" <= key || "finnhub|" <= key
  }

  /** Every cached key belongs to a supported provider. */
  predicate KeysSupported(st: ProxyState) {
    forall key :: key in st.cache ==> SupportedKey(key)
  }

  lemma SupportedKeyOf(conv: Conv, req: Request)
    requires Supported(req.provider)
    ensures SupportedKey(MakeCacheKey(conv, req.provider, req.endpoint, req.params))
  {
    var rest := req.endpoint + "|" + Serialize(AsStringRecord(conv, req.params));
    assert MakeCacheKey(conv, req.provider, req.endpoint, req.params) == (req.provider + "|") + rest;
  }

  lemma KeysStaySupported(conv: Conv, st: ProxyState, now: int, req: Request, env: Env, up: Upstream)
    requires KeysSupported(st)
    ensures KeysSupported(Handle(conv, st, now, req, env, up).state)
  {
    var after := Handle(conv, st, now, req, env, up).state;
    StateChanges(conv, st, now, req, env, up);
    if after.cache != st.cache {
      CalledOnlyWhenConfigured(conv, st, now, req, env, up);
      SupportedKeyOf(conv, req);
    }
  }

  /**
   * The same request repeated before the stored entry expires is answered from
   * the cache with the same data, whatever the keys configured then.
   */
  lemma RepeatWithinTtlHits(conv: Conv, st: ProxyState, now: int, req: Request, env: Env, up: Upstream,
                            later: int, env2: Env, up2: Upstream)
    requires Handle(conv, st, now, req, env, up).response.xCache == Some("miss")
    requires now <= later < now + Ttl(req.intent)
    ensures var first := Handle(conv, st, now, req, env, up);
      var second := Handle(conv, first.state, later, req, env2, up2);
      && second.response == Response(200, first.response.body, Some("hit"))
      && !second.called && second.state == first.state
  {
    MissStores(conv, st, now, req, env, up);
  }

  /** Once the stored entry has expired, the same request calls the provider again. */
  lemma ExpiredEntryRefetches(conv: Conv, st: ProxyState, now: int, req: Request, env: Env, up: Upstream,
                              later: int, up2: Upstream)
    requires Handle(conv, st, now, req, env, up).response.xCache == Some("miss")
    requires later >= now + Ttl(req.intent)
    ensures Handle(conv, Handle(conv, st, now, req, env, up).state, later, req, env, up2).called
  {
    MissStores(conv, st, now, req, env, up);
  }

  /**
   * After an upstream 429 every request, to any provider, is paused for
   * `RetryAfterMs` without calling out, and requests after that are not paused.
   */
  lemma RateLimitWindow(conv: Conv, st: ProxyState, now: int, req: Request, env: Env, text: string,
                        later: int, req2: Request, env2: Env, up2: Upstream)
    requires Handle(conv, st, now, req, env, Reply(429, text)).called
    requires later >= now
    ensures var first := Handle(conv, st, now, req, env, Reply(429, text));
      var second := Handle(conv, first.state, later, req2, env2, up2);
      && first.state == st.(rateLimitUntil := now + RetryAfterMs)
      && (later < now + RetryAfterMs ==> second.response == Paused() && !second.called && second.state == first.state)
      && (later >= now + RetryAfterMs ==> second.response != Paused())
  {
    var first := Handle(conv, st, now, req, env, Reply(429, text));
    PausedIff(conv, first.state, later, req2, env2, up2);
  }

  // ---------------------------------------------------------------- the route's state

  /** The proxy's module-level state: the cache map and the pause deadline. */
  class Proxy {
    var cache: map<string, CacheEntry>
    var rateLimitUntil: int

    constructor ()
      ensures cache == map[] && rateLimitUntil == 0
    {
      cache := map[];
      rateLimitUntil := 0;
    }

    function State(): ProxyState
      reads this
    {
      ProxyState(cache, rateLimitUntil)
    }

    /** Serves one request at time `now`; `up` is what the provider does if it is called. */
    method Post(conv: Conv, now: int, req: Request, env: Env, up: Upstream) returns (resp: Response, called: bool)
      modifies this
      ensures Outcome(State(), resp, called) == Handle(conv, old(State()), now, req, env, up)
    {
      called := false;
      if now < rateLimitUntil {
        return Response(429, ErrorBody(PausedMessage), None), false;
      }
      var key := MakeCacheKey(conv, req.provider, req.endpoint, req.params);
      var ttl := Ttl(req.intent);
      if key in cache && cache[key].expires > now {
        return Response(200, cache[key].data, Some("hit")), false;
      }
      if req.provider == "alphaVantage" {
        if !KeySet(env.alphaVantageKey) {
          return Response(500, ErrorBody("Missing ALPHA_VANTAGE_API_KEY"), None), false;
        }
      } else if req.provider == "finnhub" {
        if !KeySet(env.finnhubKey) {
          return Response(500, ErrorBody("Missing FINNHUB_API_KEY"), None), false;
        }
      } else {
        return Response(400, ErrorBody("Unsupported provider"), None), false;
      }
      called := true;
      resp := Call(conv, now, key, ttl, up);
    }

    /** The part of `Post` from the upstream call on. */
    method Call(conv: Conv, now: int, key: string, ttl: int, up: Upstream) returns (resp: Response)
      modifies this
      ensures Outcome(State(), resp, true) == Fetched(conv, old(State()), now, key, ttl, up)
    {
      match up {
        case Failed(message) =>
          resp := Response(500, ErrorBody(if message != "" then message else "Server error"), None);
        case Reply(status, text) =>
          if status == 429 {
            rateLimitUntil := now + RetryAfterMs;
            resp := Response(status, JObj([("error", JStr(RateLimitedMessage)), ("status", StatusNumber(status))]), None);
            return;
          }
          if status == 403 {
            resp := Response(status, JObj([("error", JStr(ForbiddenMessage)), ("status", StatusNumber(status))]), None);
            return;
          }
          var data := ParseBody(conv, text);
          var check := CheckAccess(data);
          if check.Denied? {
            resp := Response(403, JObj([("error", JStr(NoAccessMessage)), ("finnhubError", check.error)]), None);
            return;
          }
          if check.Throws? {
            resp := Response(500, ErrorBody(NotAFunctionMessage), None);
            return;
          }
          cache := cache[key := CacheEntry(now + ttl, data)];
          resp := Response(200, data, Some("miss"));
      }
    }
  }

  /**
   * Two identical requests in a row on a fresh proxy: the first calls the
   * provider and stores its reply, the second, within the ttl, is served from the
   * cache without a second call.
   */
  method CollapseScenario(conv: Conv, now: int, req: Request, env: Env, text: string, later: int)
    returns (first: Response, second: Response, calls: nat)
    requires Supported(req.provider) && KeySet(env.alphaVantageKey) && KeySet(env.finnhubKey)
    requires now >= 0 && now <= later < now + Ttl(req.intent)
    requires CheckAccess(ParseBody(conv, text)) == Passes
    ensures calls == 1
    ensures first == Response(200, ParseBody(conv, text), Some("miss"))
    ensures second == Response(200, ParseBody(conv, text), Some("hit"))
  {
    var proxy := new Proxy();
    var c1, c2;
    first, c1 := proxy.Post(conv, now, req, env, Reply(200, text));
    second, c2 := proxy.Post(conv, later, req, env, Reply(200, text));
    calls := (if c1 then 1 else 0) + (if c2 then 1 else 0);
  }
}
