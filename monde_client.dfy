/** The back-office HTTP client: a bearer-token cache in front of the login
    exchange, and a request wrapper that refreshes the token once on a 401,
    turns a 204 into an empty object and throws on any other non-2xx status.
    The network is an oracle object that answers each call by its position in
    the call order and by the request it receives. */
module MondeClient {

  import opened Base
  import opened JsonValues

  datatype Verb = GET | POST | PATCH | DELETE

  /** A path below the API base URL with its query parameters, in order.
      Percent-encoding of the query is not modelled. */
  datatype Endpoint = Endpoint(path: string, query: seq<(string, string)>)

  /** What one `fetch` sends: the endpoint, the method, the serialised body
      (if any) and the bearer token of the `Authorization` header. */
  datatype HttpRequest = HttpRequest(endpoint: Endpoint, verb: Verb, body: Option<Json>, bearer: string)

  /** A response: status, status text, and the outcome of parsing its body
      as JSON (`Err` when `response.json()` would reject). */
  datatype HttpResponse = HttpResponse(status: nat, statusText: string, body: Result<Json>)

  /** A `fetch` either rejects (network failure) or yields a response. */
  datatype FetchOutcome = NetworkError(message: string) | Responded(response: HttpResponse)

  predicate IsUnauthorized(o: FetchOutcome) {
    o.Responded? && o.response.status == 401
  }

  /** The oracle standing for the back office: `login(k)` is the outcome of
      the k-th token exchange and `respond(i, req)` the outcome of the i-th
      data request. The logs record what the client asked for. */
  class Backend {
    const login: nat -> Result<string>
    const respond: (nat, HttpRequest) -> FetchOutcome
    var loginCalls: nat
    var fetchLog: seq<HttpRequest>

    constructor (login: nat -> Result<string>, respond: (nat, HttpRequest) -> FetchOutcome)
      ensures this.login == login && this.respond == respond
      ensures loginCalls == 0 && fetchLog == []
    {
      this.login := login;
      this.respond := respond;
      loginCalls := 0;
      fetchLog := [];
    }

    /** The answer the i-th logged request received. */
    ghost function OutcomeAt(i: nat): FetchOutcome
      reads this
      requires i < |fetchLog|
    {
      respond(i, fetchLog[i])
    }

    /** One POST to the token endpoint with the configured credentials. */
    method Login() returns (r: Result<string>)
      modifies this`loginCalls
      ensures loginCalls == old(loginCalls) + 1
      ensures r == login(old(loginCalls))
    {
      r := login(loginCalls);
      loginCalls := loginCalls + 1;
    }

    method Fetch(req: HttpRequest) returns (o: FetchOutcome)
      modifies this`fetchLog
      ensures fetchLog == old(fetchLog) + [req]
      ensures o == OutcomeAt(|old(fetchLog)|)
    {
      o := respond(|fetchLog|, req);
      fetchLog := fetchLog + [req];
    }
  }

  /** The token `getToken` hands out without logging in, if any: the cached
      token when it is truthy, else the settled in-flight slot; nothing when
      a refresh is forced. */
  function CachedToken(token: Option<string>, tokenPromise: Option<string>, forceRefresh: bool): (r: Option<string>)
    ensures forceRefresh ==> r == None
    ensures !forceRefresh && token.Some? && token.value != "" ==> r == token
    ensures r.Some? ==> r == token || r == tokenPromise
    ensures r.None? ==> forceRefresh || tokenPromise.None?
  {
    if forceRefresh then None
    else if token.Some? && token.value != "" then token
    else tokenPromise
  }

  /** While the slot only ever holds the token it settled to, a call that
      does not log in returns exactly the cached token, and it skips the
      login whenever a truthy token is cached. */
  lemma CachedTokenIsTheToken(token: Option<string>, tokenPromise: Option<string>)
    requires tokenPromise.Some? ==> token == tokenPromise
    ensures CachedToken(token, tokenPromise, false).Some? ==> CachedToken(token, tokenPromise, false) == token
    ensures CachedToken(token, tokenPromise, false).None? <==> tokenPromise.None? && (token.None? || token.value == "")
  {
  }

  /** What the token cache holds: the cached token and the settled slot. */
  datatype TokenCache = TokenCache(token: Option<string>, slot: Option<string>)

  /** The cache after one login of `getToken`: a token fills both the cache
      and the slot, so the next call reuses it without a login; a failure
      empties the slot and keeps the cached token. */
  function AfterLogin(c: TokenCache, login: Result<string>): (r: TokenCache)
    ensures r.slot.Some? ==> r.token == r.slot
    ensures login.Ok? ==> CachedToken(r.token, r.slot, false) == Some(login.value)
    ensures login.Err? ==> r.slot.None? && r.token == c.token
  {
    if login.Ok? then TokenCache(Some(login.value), Some(login.value)) else TokenCache(c.token, None)
  }

  /** The cache after the logins numbered `c0` to `c1 - 1`, each applied in
      turn to `c`. Only logins change the cache, and they keep the slot
      settled to the cached token. */
  function AfterLogins(b: Backend, c0: nat, c1: nat, c: TokenCache): (r: TokenCache)
    ensures c1 <= c0 ==> r == c
    ensures (c.slot.Some? ==> c.token == c.slot) ==> (r.slot.Some? ==> r.token == r.slot)
    decreases c1
  {
    if c1 <= c0 then c else AfterLogin(AfterLogins(b, c0, c1 - 1, c), b.login(c1 - 1))
  }

  /** Running the logins of two consecutive stretches is running the logins
      of the whole. */
  lemma {:induction false} AfterLoginsChain(b: Backend, c0: nat, c1: nat, c2: nat, c: TokenCache)
    requires c0 <= c1 <= c2
    ensures AfterLogins(b, c1, c2, AfterLogins(b, c0, c1, c)) == AfterLogins(b, c0, c2, c)
    decreases c2
  {
    if c1 < c2 {
      AfterLoginsChain(b, c0, c1, c2 - 1, c);
    }
  }

  /** The token cache. `tokenPromise` is the slot that coalesces concurrent
      logins; calls run one at a time here, so whenever a call returns, the
      slot is either empty or settled to the value it resolved to. */
  class AuthService {
    var token: Option<string>
    var tokenPromise: Option<string>
    const backend: Backend

    ghost predicate Valid()
      reads this
    {
      tokenPromise.Some? ==> token == tokenPromise
    }

    ghost function Cache(): TokenCache
      reads this
    {
      TokenCache(token, tokenPromise)
    }

    constructor (backend: Backend)
      ensures Valid()
      ensures token == None && tokenPromise == None && this.backend == backend
    {
      token := None;
      tokenPromise := None;
      this.backend := backend;
    }

    /** A cached answer is returned as is; otherwise exactly one login runs.
        Its token fills both the cache and the slot; its failure empties the
        slot, keeps the cached token, and propagates. */
    method GetToken(forceRefresh: bool) returns (r: Result<string>)
      requires Valid()
      modifies this, backend`loginCalls
      ensures Valid()
      ensures CachedToken(old(token), old(tokenPromise), forceRefresh).Some? ==>
        && r == Ok(CachedToken(old(token), old(tokenPromise), forceRefresh).value)
        && token == old(token) && tokenPromise == old(tokenPromise)
        && backend.loginCalls == old(backend.loginCalls)
      ensures CachedToken(old(token), old(tokenPromise), forceRefresh).None? ==>
        && backend.loginCalls == old(backend.loginCalls) + 1
        && r == backend.login(old(backend.loginCalls))
        && (r.Ok? ==> token == Some(r.value) && tokenPromise == Some(r.value))
        && (r.Err? ==> token == old(token) && tokenPromise == None)
      ensures Cache() == AfterLogins(backend, old(backend.loginCalls), backend.loginCalls, old(Cache()))
    {
      if token.Some? && token.value != "" && !forceRefresh {
        return Ok(token.value);
      }
      if tokenPromise.Some? && !forceRefresh {
        return Ok(tokenPromise.value);
      }
      var outcome := backend.Login();
      if outcome.Ok? {
        token := Some(outcome.value);
        tokenPromise := Some(outcome.value);
      } else {
        tokenPromise := None;
      }
      r := outcome;
    }
  }

  /** The message thrown for a final non-2xx status. */
  function ApiErrorMessage(resp: HttpResponse): string {
    "Monde API Error: " + NatToString(resp.status) + " - " + resp.statusText
  }

  /** How `request` settles on the final response: a 204 is an empty object
      whose body is never read, any other non-2xx status throws, and a 2xx
      yields the parsed body. */
  function Settle(resp: HttpResponse): (r: Result<Json>)
    ensures r.Ok? <==> IsOk(resp.status) && (resp.status == 204 || resp.body.Ok?)
    ensures resp.status == 204 ==> r == Ok(JObj(map[]))
    ensures !IsOk(resp.status) ==> r == Err(ApiErrorMessage(resp))
    ensures IsOk(resp.status) && resp.status != 204 ==> r == resp.body
  {
    if resp.status == 204 then Ok(JObj(map[]))
    else if !IsOk(resp.status) then Err(ApiErrorMessage(resp))
    else resp.body
  }

  function SettleOutcome(o: FetchOutcome): (r: Result<Json>)
    ensures o.NetworkError? ==> r == Err(o.message)
    ensures o.Responded? ==> r == Settle(o.response)
  {
    match o
    case NetworkError(m) => Err(m)
    case Responded(resp) => Settle(resp)
  }

  /** A 401 that reaches `Settle` (the answer to the retry) is not retried
      again: it throws with its status in the message. */
  lemma {:induction false} UnauthorizedRetryThrows(resp: HttpResponse)
    requires resp.status == 401
    ensures Settle(resp) == Err("Monde API Error: 401 - " + resp.statusText)
  {
    assert NatToString(4) == "4";
    assert NatToString(40) == NatToString(4) + "0";
    assert NatToString(401) == NatToString(40) + "1";
  }

  /** The thrown message determines the status it reports. */
  lemma {:induction false} ApiErrorMessageStatus(a: HttpResponse, b: HttpResponse)
    requires a.statusText == b.statusText
    ensures ApiErrorMessage(a) == ApiErrorMessage(b) <==> a.status == b.status
  {
    var prefix := "Monde API Error: ";
    var na, nb := NatToString(a.status), NatToString(b.status);
    var suffix := " - " + a.statusText;
    if ApiErrorMessage(a) == ApiErrorMessage(b) {
      var m := ApiErrorMessage(a);
      assert m == prefix + na + suffix;
      assert ApiErrorMessage(b) == prefix + nb + suffix;
      assert |na| == |nb|;
      assert na == m[|prefix|..|prefix| + |na|];
      assert nb == m[|prefix|..|prefix| + |nb|];
      NatToStringInjective(a.status, b.status);
    }
  }

  predicate CarriesCall(req: HttpRequest, endpoint: Endpoint, verb: Verb, body: Option<Json>) {
    req.endpoint == endpoint && req.verb == verb && req.body == body
  }

  /** A stretch of one backend's history: the requests logged at positions
      `lo` to `hi - 1` and the logins numbered `c0` to `c1 - 1`. */
  datatype Span = Span(lo: nat, hi: nat, c0: nat, c1: nat)

  /** The login count once `getToken` has answered at the start of a
      request, from the count `c0` before it: one login unless the cache
      `c` held a token. */
  function Held(c: TokenCache, c0: nat): (n: nat)
    ensures CachedToken(c.token, c.slot, false).Some? <==> n == c0
    ensures CachedToken(c.token, c.slot, false).None? <==> n == c0 + 1
  {
    if CachedToken(c.token, c.slot, false).Some? then c0 else c0 + 1
  }

  /** `token` is what `getToken` hands out at the start of a request over
      the cache `c`: the cached token, or else the token of the login
      numbered `c0`. */
  ghost predicate GotToken(b: Backend, c: TokenCache, c0: nat, token: string) {
    var cached := CachedToken(c.token, c.slot, false);
    if cached.Some? then token == cached.value else b.login(c0) == Ok(token)
  }

  /** The stretch `s` of the request log `log` is exactly one `request`
      for the call, started over the token cache `c`, and `r` is what it
      settled to. With no fetch, nothing was cached, the one login failed
      and its error propagates. Otherwise the first fetch carries the token
      `getToken` handed out (the cached one, or the first login's) and is
      settled by its answer unless that answer is a 401; after a 401 the
      refresh is one more login, and either its error propagates or a
      second fetch carries its token and is settled by its answer. */
  ghost predicate Answered(b: Backend, log: seq<HttpRequest>, s: Span, c: TokenCache,
                           endpoint: Endpoint, verb: Verb, body: Option<Json>, r: Result<Json>)
  {
    && s.lo <= s.hi <= |log| && s.c0 <= s.c1
    && (forall i :: s.lo <= i < s.hi ==> CarriesCall(log[i], endpoint, verb, body))
    && if s.hi == s.lo then
         && CachedToken(c.token, c.slot, false).None?
         && s.c1 == s.c0 + 1 && b.login(s.c0).Err? && r == Err(b.login(s.c0).message)
       else
         && GotToken(b, c, s.c0, log[s.lo].bearer)
         && if !IsUnauthorized(b.respond(s.lo, log[s.lo])) then
              s.hi == s.lo + 1 && s.c1 == Held(c, s.c0) && r == SettleOutcome(b.respond(s.lo, log[s.lo]))
            else
              && s.c1 == Held(c, s.c0) + 1
              && var refreshed := b.login(s.c1 - 1);
              && (refreshed.Err? ==> s.hi == s.lo + 1 && r == Err(refreshed.message))
              && (refreshed.Ok? ==>
                    && s.hi == s.lo + 2
                    && log[s.lo + 1].bearer == refreshed.value
                    && r == SettleOutcome(b.respond(s.lo + 1, log[s.lo + 1])))
  }

  /** A run that fetched at all sent the token `getToken` handed out: the
      cached one, or else the first login's; and it counted one login for
      an uncached token and one more after a 401. */
  lemma AnsweredUsesGetToken(b: Backend, log: seq<HttpRequest>, s: Span, c: TokenCache,
                             endpoint: Endpoint, verb: Verb, body: Option<Json>, r: Result<Json>)
    requires Answered(b, log, s, c, endpoint, verb, body, r) && s.lo < s.hi
    ensures var cached := CachedToken(c.token, c.slot, false);
      && (cached.None? ==> b.login(s.c0).Ok?)
      && log[s.lo].bearer == if cached.Some? then cached.value else b.login(s.c0).value
    ensures s.c1 == s.c0 + (if CachedToken(c.token, c.slot, false).Some? then 0 else 1)
      + (if IsUnauthorized(b.respond(s.lo, log[s.lo])) then 1 else 0)
  {
  }

  /** Requests sent later do not change what an earlier stretch was. */
  lemma AnsweredExtends(b: Backend, log: seq<HttpRequest>, longer: seq<HttpRequest>, s: Span, c: TokenCache,
                        endpoint: Endpoint, verb: Verb, body: Option<Json>, r: Result<Json>)
    requires Answered(b, log, s, c, endpoint, verb, body, r) && log <= longer
    ensures Answered(b, longer, s, c, endpoint, verb, body, r)
  {
    assert forall i :: 0 <= i < |log| ==> longer[i] == log[i];
  }

  /** The stretch from a snapshot of the log length and login count to the
      backend's current state. */
  ghost function SinceThen(b: Backend, logLength: nat, logins: nat): Span
    reads b
  {
    Span(logLength, |b.fetchLog|, logins, b.loginCalls)
  }

  /** One authenticated call. The first fetch carries the token `getToken`
      gives; only when it answers 401 is the token refreshed (one forced
      login) and the call sent once more with the new token. The answer to
      the last fetch decides the outcome, and a failed login propagates. */
  method Request(auth: AuthService, endpoint: Endpoint, verb: Verb, body: Option<Json>) returns (r: Result<Json>)
    requires auth.Valid()
    modifies auth, auth.backend
    ensures auth.Valid()
    ensures old(auth.backend.fetchLog) <= auth.backend.fetchLog
    // the outcome: the first login's error, the first answer settled, the
    // refresh's error, or the retried answer settled
    ensures Answered(auth.backend, auth.backend.fetchLog,
                     SinceThen(auth.backend, |old(auth.backend.fetchLog)|, old(auth.backend.loginCalls)), old(auth.Cache()),
                     endpoint, verb, body, r)
    // no fetch at all exactly when getToken had no cached token and its login failed
    ensures var cached := CachedToken(old(auth.token), old(auth.tokenPromise), false);
      |auth.backend.fetchLog| == |old(auth.backend.fetchLog)| <==> cached.None? && auth.backend.login(old(auth.backend.loginCalls)).Err?
    // the first fetch carries the token getToken handed out
    ensures var n := |old(auth.backend.fetchLog)|; var cached := CachedToken(old(auth.token), old(auth.tokenPromise), false);
      |auth.backend.fetchLog| > n ==>
        auth.backend.fetchLog[n].bearer == if cached.Some? then cached.value else auth.backend.login(old(auth.backend.loginCalls)).value
    // one login for an uncached token, one more for the refresh after a 401
    ensures var n := |old(auth.backend.fetchLog)|; var cached := CachedToken(old(auth.token), old(auth.tokenPromise), false);
      auth.backend.loginCalls == old(auth.backend.loginCalls) + (if cached.Some? then 0 else 1)
        + (if |auth.backend.fetchLog| > n && IsUnauthorized(auth.backend.OutcomeAt(n)) then 1 else 0)
    // the cache afterwards is what the logins made of it (so a successful
    // first login or refresh is cached, and a cached call changes nothing)
    ensures auth.Cache() == AfterLogins(auth.backend, old(auth.backend.loginCalls), auth.backend.loginCalls, old(auth.Cache()))
  {
    var backend := auth.backend;
    ghost var log, c0, cache0 := backend.fetchLog, backend.loginCalls, auth.Cache();
    var t := auth.GetToken(false);
    if t.Err? {
      assert backend.loginCalls == c0 + 1 && t == backend.login(c0);
      return Err(t.message);
    }
    ghost var c1, cache1 := backend.loginCalls, auth.Cache();
    assert backend.fetchLog == log && cache1 == AfterLogins(backend, c0, c1, cache0);
    r := Attempt(auth, endpoint, verb, body, t.value, c0, cache0);
    AfterLoginsChain(backend, c0, c1, backend.loginCalls, cache0);
  }

  /** The fetches of `request` once it holds a token: the call with that
      token, and after a 401 the refresh and the retry. `loginsBefore` is
      the login count and `cacheBefore` the cache before `getToken`, which
      handed out `token`. */
  method Attempt(auth: AuthService, endpoint: Endpoint, verb: Verb, body: Option<Json>, token: string,
                 ghost loginsBefore: nat, ghost cacheBefore: TokenCache)
    returns (r: Result<Json>)
    requires auth.Valid()
    requires GotToken(auth.backend, cacheBefore, loginsBefore, token)
    requires auth.backend.loginCalls == Held(cacheBefore, loginsBefore)
    modifies auth, auth.backend
    ensures auth.Valid()
    ensures |auth.backend.fetchLog| > |old(auth.backend.fetchLog)|
    ensures old(auth.backend.fetchLog) <= auth.backend.fetchLog
    ensures auth.backend.fetchLog[|old(auth.backend.fetchLog)|].bearer == token
    ensures Answered(auth.backend, auth.backend.fetchLog,
                     SinceThen(auth.backend, |old(auth.backend.fetchLog)|, loginsBefore), cacheBefore, endpoint, verb, body, r)
    ensures auth.backend.loginCalls == old(auth.backend.loginCalls)
      + (if IsUnauthorized(auth.backend.OutcomeAt(|old(auth.backend.fetchLog)|)) then 1 else 0)
    ensures auth.Cache() == AfterLogins(auth.backend, old(auth.backend.loginCalls), auth.backend.loginCalls, old(auth.Cache()))
  {
    var backend := auth.backend;
    ghost var log, c1, cache1 := backend.fetchLog, backend.loginCalls, auth.Cache();
    var outcome := backend.Fetch(HttpRequest(endpoint, verb, body, token));
    assert backend.fetchLog == log + [HttpRequest(endpoint, verb, body, token)];
    if outcome.Responded? && outcome.response.status == 401 {
      r := Retry(auth, endpoint, verb, body);
      assert auth.Cache() == AfterLogin(cache1, backend.login(c1));
      AnsweredAfterRefresh(backend, backend.fetchLog, SinceThen(auth.backend, |log|, loginsBefore), cacheBefore, endpoint, verb, body, r);
    } else {
      r := SettleOutcome(outcome);
      assert backend.loginCalls == c1 && auth.Cache() == cache1;
      AnsweredAtOnce(backend, backend.fetchLog, SinceThen(auth.backend, |log|, loginsBefore), cacheBefore, endpoint, verb, body, r);
    }
  }

  lemma AnsweredAtOnce(b: Backend, log: seq<HttpRequest>, s: Span, c: TokenCache,
                       endpoint: Endpoint, verb: Verb, body: Option<Json>, r: Result<Json>)
    requires s.hi == s.lo + 1 == |log| && s.c0 <= s.c1 == Held(c, s.c0)
    requires CarriesCall(log[s.lo], endpoint, verb, body) && GotToken(b, c, s.c0, log[s.lo].bearer)
    requires !IsUnauthorized(b.respond(s.lo, log[s.lo])) && r == SettleOutcome(b.respond(s.lo, log[s.lo]))
    ensures Answered(b, log, s, c, endpoint, verb, body, r)
  {
  }

  lemma AnsweredAfterRefresh(b: Backend, log: seq<HttpRequest>, s: Span, c: TokenCache,
                             endpoint: Endpoint, verb: Verb, body: Option<Json>, r: Result<Json>)
    requires s.lo < s.hi == |log| && s.c0 <= s.c1 == Held(c, s.c0) + 1
    requires CarriesCall(log[s.lo], endpoint, verb, body) && GotToken(b, c, s.c0, log[s.lo].bearer)
    requires IsUnauthorized(b.respond(s.lo, log[s.lo]))
    requires var refreshed := b.login(s.c1 - 1);
      && (refreshed.Err? ==> s.hi == s.lo + 1 && r == Err(refreshed.message))
      && (refreshed.Ok? ==>
            && s.hi == s.lo + 2
            && log[s.lo + 1] == HttpRequest(endpoint, verb, body, refreshed.value)
            && r == SettleOutcome(b.respond(s.lo + 1, log[s.lo + 1])))
    ensures Answered(b, log, s, c, endpoint, verb, body, r)
  {
  }

  /** The second attempt after a 401: a forced login, and, when it gives a
      token, the same call once more with that token. */
  method Retry(auth: AuthService, endpoint: Endpoint, verb: Verb, body: Option<Json>) returns (r: Result<Json>)
    requires auth.Valid()
    modifies auth, auth.backend
    ensures auth.Valid()
    ensures auth.backend.loginCalls == old(auth.backend.loginCalls) + 1
    ensures var refreshed := auth.backend.login(old(auth.backend.loginCalls));
      && (refreshed.Err? ==> auth.backend.fetchLog == old(auth.backend.fetchLog) && r == Err(refreshed.message))
      && (refreshed.Ok? ==>
           && auth.backend.fetchLog == old(auth.backend.fetchLog) + [HttpRequest(endpoint, verb, body, refreshed.value)]
           && auth.token == Some(refreshed.value)
           && r == SettleOutcome(auth.backend.OutcomeAt(|old(auth.backend.fetchLog)|)))
    ensures auth.Cache() == AfterLogin(old(auth.Cache()), auth.backend.login(old(auth.backend.loginCalls)))
  {
    var t := auth.GetToken(true);
    if t.Err? {
      return Err(t.message);
    }
    var outcome := auth.backend.Fetch(HttpRequest(endpoint, verb, body, t.value));
    r := SettleOutcome(outcome);
  }
}
