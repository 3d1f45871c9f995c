/**
 * The Hashicorp vault client: it logs in with an AppRole to obtain a token,
 * keeps the token in memory and in the file cache, renews or replaces it as
 * it ages, and fetches secrets with it, remembering each path's outcome.
 *
 * The vault server is the function `server`: the answer to the n-th request
 * of this client. `requests` records every request sent.
 */
module HashicorpVaults {
  import opened PhpValues
  import opened Commons
  import opened Secrets
  import opened BaseVaults
  import opened Tokens
  import opened Caches
  import opened Configs
  import opened HashicorpRules

  const LOGIN_PATH := "/auth/approle/login"
  const RENEW_PATH := "auth/token/renew"

  /** The body of the login request: the AppRole credentials, asking for a renewable token. */
  function LoginBody(cfg: Props): Value
  {
    Obj([Prop("role_id", PhpValues.Get(cfg, "roleId")), Prop("secret_id", PhpValues.Get(cfg, "secretId")),
         Prop("renewable", Bool(true))])
  }

  /** The body of the renewal request: the token to renew. */
  function RenewBody(t: Token): Value
  {
    Obj([Prop("token", t.Attr("client_token"))])
  }

  /** `POST($path, $data)` as a request, sent while `token` is held. */
  function PostRequest(uri: string, path: string, data: Value, token: Option<Token>, env: Env): Request
  {
    var body := env.jsonEncode(data);
    BuildRequest(POST, uri, path, PostHeaders(body), body, token)
  }

  /** An answer that grants a token: no cURL error, an object body, and its `auth` set. */
  predicate Granted(r: Response)
  {
    r.error == 0 && r.Data().Obj? && Field(r.Data(), "auth") != Null
  }

  /** The token built from a granting answer. */
  function GrantedToken(r: Response, env: Env): Token
  {
    TokenOf(Field(r.Data(), "auth"), env)
  }

  /** The token `getToken` starts its checks with: the one held, otherwise the cached one rebuilt. */
  function Held(token: Option<Token>, cached: Value, env: Env): Option<Token>
  {
    if token.Some? then token else if !LooseNull(cached) then Some(TokenOf(cached, env)) else None
  }

  /**
   * What `getToken` does, starting from the token `held` it checks (see
   * `Held`) with `n` requests sent before: the token it ends with, the
   * requests it sends, and whether one of them granted a new token.
   */
  datatype TokenStep = TokenStep(token: Option<Token>, sent: seq<Request>, granted: bool)

  function TokenPlan(held: Option<Token>, cfg: Props, uri: string, server: (nat, Request) -> Exchange,
                     n: nat, env: Env): (p: TokenStep)
    ensures |p.sent| <= 1
    ensures p.sent == [] <==> held.Some? && !IsTokenExpired(held, cfg, env.now) && !ShallRenew(held, cfg, env.now)
    ensures p.sent == [] ==> p.token == held && !p.granted
    ensures held.Some? && !IsTokenExpired(held, cfg, env.now) ==> p.token.Some?
    ensures p.token.None? ==> !p.granted && |p.sent| == 1
    ensures p.granted ==> p.token.Some?
  {
    if held.Some? && !IsTokenExpired(held, cfg, env.now) then
      if ShallRenew(held, cfg, env.now) then
        var req := PostRequest(uri, RENEW_PATH, RenewBody(held.value), held, env);
        var resp := CurlResult(req.url, server(n, req));
        if Granted(resp) then TokenStep(Some(GrantedToken(resp, env)), [req], true)
        else TokenStep(held, [req], false)
      else TokenStep(held, [], false)
    else
      var req := PostRequest(uri, LOGIN_PATH, LoginBody(cfg), None, env);
      var resp := CurlResult(req.url, server(n, req));
      if Granted(resp) then TokenStep(Some(GrantedToken(resp, env)), [req], true)
      else TokenStep(None, [req], false)
  }

  /**
   * What `createCurlResult()` logs as an error: the cURL error message, or
   * the `errors` of a JSON answer that has them; nothing otherwise.
   */
  function SendError(r: Response): (e: Option<Value>)
    ensures r.error != 0 ==> e == Some(Str(r.errorMessage))
    ensures r.error == 0 && r.reply.Some? && r.reply.value.contentType != "application/json" ==> e == None
    ensures e.Some? && r.error == 0 ==> e.value == Field(r.Data(), "errors") && e.value != Null
  {
    if r.error != 0 then Some(Str(r.errorMessage))
    else if r.reply.Some? && r.reply.value.contentType == "application/json" && Field(r.Data(), "errors") != Null
    then Some(Field(r.Data(), "errors"))
    else None
  }

  /** The short class name the logger prefix is built from. */
  const SHORT_NAME := "HashicorpVault"

  /** The head of every "Using token" entry this vault logs. */
  const USING_TOKEN := PrefixOf(SHORT_NAME) + "Using token: "

  predicate IsUsingToken(e: LogEntry)
  {
    |USING_TOKEN| <= |e.message| && e.message[..|USING_TOKEN|] == USING_TOKEN
  }

  /** How many "Using token" entries a log holds. */
  function UsingTokenCount(log: seq<LogEntry>): nat
  {
    if log == [] then 0
    else UsingTokenCount(log[..|log| - 1]) + if IsUsingToken(log[|log| - 1]) then 1 else 0
  }

  /** An entry of this vault whose own text does not start with 'U' is no "Using token" entry. */
  lemma OtherEntry(log: seq<LogEntry>, level: Level, s: string, context: Value)
    requires s != [] && s[0] != 'U'
    ensures UsingTokenCount(log + [LogEntry(level, PrefixOf(SHORT_NAME) + s, context)]) == UsingTokenCount(log)
  {
    var m := PrefixOf(SHORT_NAME) + s;
    assert (log + [LogEntry(level, m, context)])[..|log|] == log;
    assert m[|PrefixOf(SHORT_NAME)|] == s[0];
    assert USING_TOKEN[|PrefixOf(SHORT_NAME)|] == 'U';
  }

  /** The entry `getToken` logs for the token at hand counts once. */
  lemma UsingEntry(log: seq<LogEntry>, info: string)
    ensures UsingTokenCount(log + [LogEntry(Info, PrefixOf(SHORT_NAME) + ("Using token: " + info), Null)]) ==
      UsingTokenCount(log) + 1
  {
    var m := PrefixOf(SHORT_NAME) + ("Using token: " + info);
    assert (log + [LogEntry(Info, m, Null)])[..|log|] == log;
    assert m == USING_TOKEN + info;
    assert m[..|USING_TOKEN|] == USING_TOKEN;
  }

  /** `substr($uri, 0, 5) == 'https'`. */
  predicate IsHttps(uri: string)
  {
    |uri| >= 5 && uri[..5] == "https"
  }

  class HashicorpVault {
    const cfg: Props
    const uri: string
    const isTls: bool
    const base: BaseVault
    const cache: Cache
    const server: (nat, Request) -> Exchange
    var token: Option<Token>
    var secrets: map<string, Memo>
    var loggedToken: bool
    var lastResult: Option<Response>
    var requests: seq<Request>

    /**
     * The logging part is valid; the log holds no "Using token" entry while
     * `loggedToken` is unset, and at most one ever; a held token has its
     * timing properties settled;
     * the memo keeps a failure only for an answer `getSecret` refuses.
     */
    ghost predicate Valid()
      reads this, base
    {
      && base.Valid() && base.shortName == SHORT_NAME
      && uri == StrOf(PhpValues.Get(cfg, "uri"))
      && UsingTokenCount(base.log) <= (if loggedToken then 1 else 0)
      && (token.Some? ==> Settled(token.value.props))
      && (forall p :: p in secrets && secrets[p].Failed? ==> !Successful(secrets[p].response))
      && Answered()
    }

    /** `lastResult` holds the answer to the last request sent, and nothing before the first. */
    ghost predicate Answered()
      reads this
    {
      && (lastResult.None? <==> requests == [])
      && (requests != [] ==> lastResult == Some(Answer(|requests| - 1)))
    }

    /** The server's answer to the `i`-th request sent. */
    function Answer(i: nat): Response
      requires i < |requests|
      reads this
    {
      CurlResult(requests[i].url, server(i, requests[i]))
    }

    /** The answer the server gives to the next request. */
    function Respond(req: Request): Response
      reads this
    {
      CurlResult(req.url, server(|requests|, req))
    }

    /** The constructor, once the configuration has been accepted. */
    constructor(cfg: Props, logger: LoggerKind, file: CacheFile, writable: bool, server: (nat, Request) -> Exchange)
      ensures Valid() && fresh(base) && fresh(cache)
      ensures this.cfg == cfg && this.server == server && uri == StrOf(PhpValues.Get(cfg, "uri"))
      ensures isTls == IsHttps(uri)
      ensures base.shortName == SHORT_NAME && base.logger == logger && base.log == []
      ensures cache.cacheFile == PhpValues.Get(cfg, "cacheFile") && cache.logger == logger
      ensures cache.data == Null && cache.file == file && cache.writable == writable && cache.errors == []
      ensures token == None && secrets == map[] && !loggedToken && lastResult == None && requests == []
    {
      this.cfg := cfg;
      this.server := server;
      var u := StrOf(PhpValues.Get(cfg, "uri"));
      uri := u;
      isTls := IsHttps(u);
      base := new BaseVault(SHORT_NAME, logger);
      cache := new Cache(PhpValues.Get(cfg, "cacheFile"), logger, file, writable);
      token := None;
      secrets := map[];
      loggedToken := false;
      lastResult := None;
      requests := [];
    }

    /** `getLastResult()`: the answer to the last request sent, none before the first. */
    function LastResult(): (r: Option<Response>)
      requires Valid()
      reads this, base
      ensures r.None? <==> requests == []
      ensures r.Some? ==> r.value == Answer(|requests| - 1)
    {
      lastResult
    }

    /** `getTokenStatus(false)`. */
    function TokenStatusCode(now: nat): (r: int)
      reads this
      ensures r == VAULT_ERR_NO_TOKEN <==> token.None?
      ensures r == VAULT_ERR_TOKEN_EXPIRED <==> token.Some? && token.value.IsExpired(now)
      ensures r == VAULT_ERR_RENEWAL <==> token.Some? && !token.value.IsExpired(now) && ShallRenew(token, cfg, now)
      ensures r == VAULT_OK <==> token.Some? && !token.value.IsExpired(now) && !ShallRenew(token, cfg, now)
    {
      TokenStatus(token, cfg, now)
    }

    /** What the memo holds for `path`, if anything. */
    function MemoOf(path: string): Option<Memo>
      reads this
    {
      if path in secrets then Some(secrets[path]) else None
    }

    /** Logs an entry other than "Using token" through the base vault. */
    method LogOther(level: Level, s: string, obj: Value)
      requires Valid() && s != [] && s[0] != 'U'
      modifies base
      ensures Valid()
      ensures base.logger == old(base.logger) && UsingTokenCount(base.log) == UsingTokenCount(old(base.log))
      ensures base.log == old(base.log) + if base.logger == VaultLogger
        then [LogEntry(level, PrefixOf(SHORT_NAME) + s, CleanObject(obj))] else []
    {
      OtherEntry(base.log, level, s, CleanObject(obj));
      base.Log(level, s, obj);
    }

    /** `setLogger($logger)`: the vault and its cache log to the new logger. */
    method SetLogger(logger: LoggerKind)
      requires Valid()
      modifies base, cache
      ensures Valid()
      ensures base.logger == logger && cache.logger == logger
      ensures base.log == old(base.log) && cache.data == old(cache.data) && cache.file == old(cache.file)
    {
      base.SetLogger(logger);
      cache.SetLogger(logger);
    }

    /**
     * `request()` with `createCurlResult()`: the request is built from the
     * joined URL and the headers, answered by the server, logged when it
     * failed or the answer lists errors, and kept as the last result.
     */
    method Send(verb: Verb, path: string, extra: seq<string>, body: string) returns (r: Response)
      requires Valid()
      modifies this, base
      ensures Valid()
      ensures var req := BuildRequest(verb, uri, path, extra, body, token);
        requests == old(requests) + [req] && r == old(Respond(req))
      ensures lastResult == Some(r)
      ensures token == old(token) && secrets == old(secrets) && loggedToken == old(loggedToken)
      ensures UsingTokenCount(base.log) == UsingTokenCount(old(base.log)) && base.logger == old(base.logger)
      ensures base.log == old(base.log) + (if base.logger == VaultLogger && SendError(r).Some?
        then [LogEntry(Error, PrefixOf(SHORT_NAME) + ("Error while calling " + r.url + ": "), CleanObject(SendError(r).value))]
        else [])
    {
      var req := BuildRequest(verb, uri, path, extra, body, token);
      r := CurlResult(req.url, server(|requests|, req));
      requests := requests + [req];
      lastResult := Some(r);
      if r.error == 0 {
        if r.reply.value.contentType == "application/json" && Field(r.Data(), "errors") != Null {
          LogOther(Error, "Error while calling " + r.url + ": ", Field(r.Data(), "errors"));
        }
      } else {
        LogOther(Error, "Error while calling " + r.url + ": ", Str(r.errorMessage));
      }
    }

    /** `POST($path, $data)`: the JSON body with its length and type headers. */
    method Post(path: string, data: Value, env: Env) returns (r: Response)
      requires Valid()
      modifies this, base
      ensures Valid()
      ensures var req := PostRequest(uri, path, data, token, env);
        requests == old(requests) + [req] && r == old(Respond(req))
      ensures lastResult == Some(r)
      ensures token == old(token) && secrets == old(secrets) && loggedToken == old(loggedToken)
      ensures UsingTokenCount(base.log) == UsingTokenCount(old(base.log)) && base.logger == old(base.logger)
    {
      var body := env.jsonEncode(data);
      r := Send(POST, path, PostHeaders(body), body);
    }

    /** `removeToken()`: the token is dropped from the cache and from memory. */
    method RemoveToken()
      requires Valid()
      modifies this, cache
      ensures Valid()
      ensures token == None && Field(cache.data, "token") == Null
      ensures cache.data == if Field(old(cache.Loaded()), "token") != Null
        then UnsetField(old(cache.Loaded()), "token") else old(cache.Loaded())
      ensures requests == old(requests) && secrets == old(secrets) && loggedToken == old(loggedToken)
      ensures lastResult == old(lastResult)
    {
      cache.Delete("token");
      DeleteGet(old(cache.Loaded()), "token", "token");
      token := None;
    }

    /** `setTokenFromCache()`: a cached token that is not loosely NULL is rebuilt. */
    method SetTokenFromCache(env: Env)
      requires Valid()
      modifies this, cache
      ensures Valid()
      ensures var cached := Field(old(cache.Loaded()), "token");
        token == if !LooseNull(cached) then Some(TokenOf(cached, env)) else old(token)
      ensures cache.data == old(cache.Loaded()) && cache.file == old(cache.file)
      ensures requests == old(requests) && secrets == old(secrets) && loggedToken == old(loggedToken)
      ensures lastResult == old(lastResult)
    {
      var cached := cache.Get("token");
      if !LooseNull(cached) {
        var t := NewToken(cached, env);
        TokenOfSettled(cached, env);
        Hold(t);
      }
    }

    /** A token rebuilt from the cache is held; nothing else changes. */
    method Hold(t: Token)
      requires Valid() && Settled(t.props)
      modifies this
      ensures Valid() && token == Some(t)
      ensures requests == old(requests) && secrets == old(secrets) && loggedToken == old(loggedToken)
      ensures lastResult == old(lastResult)
    {
      token := Some(t);
    }

    /**
     * Takes the token an answer grants: the token is replaced and written to
     * the cache only when the answer has no cURL error, an object body and
     * `auth` set; otherwise nothing changes.
     */
    method Accept(resp: Response, renewal: bool, env: Env)
      requires Valid()
      modifies this, base, cache
      ensures Valid()
      ensures token == if Granted(resp) then Some(GrantedToken(resp, env)) else old(token)
      ensures Granted(resp) ==> cache.data == AssignField(old(cache.Loaded()), "token", Obj(token.value.props))
      ensures Granted(resp) && cache.data.Obj? ==> Field(cache.data, "token") == Obj(token.value.props)
      ensures !Granted(resp) ==> cache.data == old(cache.data) && cache.file == old(cache.file)
      ensures requests == old(requests) && secrets == old(secrets) && loggedToken == old(loggedToken)
      ensures lastResult == old(lastResult) && base.logger == old(base.logger)
      ensures UsingTokenCount(base.log) == UsingTokenCount(old(base.log))
    {
      if resp.error == 0 && resp.Data().Obj? {
        if Field(resp.Data(), "auth") != Null {
          var t := NewToken(Field(resp.Data(), "auth"), env);
          TokenOfSettled(Field(resp.Data(), "auth"), env);
          Take(t);
          Announce(renewal);
        }
      }
    }

    /** The granted branch of `Accept`: the new token is held and cached. */
    method Take(t: Token)
      requires Valid() && Settled(t.props)
      modifies this, cache
      ensures Valid()
      ensures token == Some(t)
      ensures cache.data == AssignField(old(cache.Loaded()), "token", Obj(token.value.props))
      ensures cache.data.Obj? ==> Field(cache.data, "token") == Obj(token.value.props)
      ensures requests == old(requests) && secrets == old(secrets) && loggedToken == old(loggedToken)
      ensures lastResult == old(lastResult)
    {
      Store(t);
      token := Some(t);
    }

    /** `$this->cache->set('token', $token)`: the token's properties go into the cache. */
    method Store(t: Token)
      modifies cache
      ensures cache.data == AssignField(old(cache.Loaded()), "token", Obj(t.props))
      ensures cache.data.Obj? ==> Field(cache.data, "token") == Obj(t.props)
    {
      ghost var loaded := cache.Loaded();
      cache.Set("token", Obj(t.props));
      if cache.data.Obj? {
        AssignFieldGet(loaded, "token", Obj(t.props), "token");
      }
    }

    /** The Info entry for a token taken from a login or a renewal. */
    method Announce(renewal: bool)
      requires Valid()
      modifies base
      ensures Valid()
      ensures base.logger == old(base.logger) && UsingTokenCount(base.log) == UsingTokenCount(old(base.log))
      ensures base.log == old(base.log) + if base.logger == VaultLogger
        then [LogEntry(Info, PrefixOf(SHORT_NAME) + (if renewal then "Token renewed" else "Token replaced"), Null)]
        else []
    {
      var note := if renewal then "Token renewed" else "Token replaced";
      assert note[0] == 'T';
      LogOther(Info, note, Null);
    }

    /** `requestNewToken()`: log in with the AppRole credentials. */
    method RequestNewToken(env: Env)
      requires Valid()
      modifies this, base, cache
      ensures Valid()
      ensures var req := PostRequest(uri, LOGIN_PATH, LoginBody(cfg), old(token), env);
        var resp := old(Respond(req));
        requests == old(requests) + [req] && lastResult == Some(resp)
        && token == (if Granted(resp) then Some(GrantedToken(resp, env)) else old(token))
        && (Granted(resp) ==> cache.data == AssignField(old(cache.Loaded()), "token", Obj(token.value.props)))
        && (!Granted(resp) ==> cache.data == old(cache.data) && cache.file == old(cache.file))
        && (Granted(resp) && cache.data.Obj? ==> Field(cache.data, "token") == Obj(token.value.props))
      ensures secrets == old(secrets) && loggedToken == old(loggedToken)
      ensures UsingTokenCount(base.log) == UsingTokenCount(old(base.log)) && base.logger == old(base.logger)
    {
      var rc := Post(LOGIN_PATH, LoginBody(cfg), env);
      Accept(rc, false, env);
    }

    /** `renewToken()`: renew a live token, drop an expired one. */
    method RenewToken(env: Env)
      requires Valid()
      modifies this, base, cache
      ensures Valid()
      ensures old(token).None? ==> token == None && requests == old(requests) && cache.data == old(cache.data)
      ensures old(token).Some? && old(token).value.IsExpired(env.now) ==>
        token == None && requests == old(requests) && Field(cache.data, "token") == Null
      ensures old(token).None? || old(token).value.IsExpired(env.now) ==> lastResult == old(lastResult)
      ensures old(token).Some? && !old(token).value.IsExpired(env.now) ==>
        var req := PostRequest(uri, RENEW_PATH, RenewBody(old(token).value), old(token), env);
        var resp := old(Respond(req));
        requests == old(requests) + [req] && lastResult == Some(resp)
        && token == (if Granted(resp) then Some(GrantedToken(resp, env)) else old(token))
        && (Granted(resp) ==> cache.data == AssignField(old(cache.Loaded()), "token", Obj(token.value.props)))
        && (!Granted(resp) ==> cache.data == old(cache.data) && cache.file == old(cache.file))
        && (Granted(resp) && cache.data.Obj? ==> Field(cache.data, "token") == Obj(token.value.props))
      ensures secrets == old(secrets) && loggedToken == old(loggedToken)
      ensures UsingTokenCount(base.log) == UsingTokenCount(old(base.log)) && base.logger == old(base.logger)
    {
      if token.Some? {
        if !token.value.IsExpired(env.now) {
          var rc := Post(RENEW_PATH, RenewBody(token.value), env);
          Accept(rc, true, env);
        } else {
          RemoveToken();
        }
      }
    }

    /** The plan `getToken()` follows from the current state. */
    ghost function Plan(env: Env): TokenStep
      reads this, cache
    {
      TokenPlan(Held(token, Field(cache.Loaded(), "token"), env), cfg, uri, server, |requests|, env)
    }

    /**
     * What `getToken()` leaves behind besides its token and its requests,
     * measured from the state before it: a usable held token leaves the
     * cache alone, an expired token that no login replaces is gone from the
     * cache, a granted token is in it, a refused renewal or login leaves the
     * cache as `getToken()` found or loaded it, and the log gains "Using token" once
     * per vault, the first time a token is at hand.
     */
    twostate predicate TokenEffects(env: Env)
      reads this, base, cache
    {
      var plan := old(Plan(env));
      var held := Held(old(token), Field(old(cache.Loaded()), "token"), env);
      && loggedToken == (old(loggedToken) || token.Some?)
      && base.logger == old(base.logger)
      && (old(token).Some? && !IsTokenExpired(old(token), cfg, env.now) && !ShallRenew(old(token), cfg, env.now) ==>
            cache.data == old(cache.data) && cache.file == old(cache.file) && cache.errors == old(cache.errors))
      && (held.Some? && IsTokenExpired(held, cfg, env.now) && !plan.granted ==> Field(cache.data, "token") == Null)
      && (plan.granted && cache.data.Obj? ==> Field(cache.data, "token") == Obj(plan.token.value.props))
      && (!plan.granted && !(held.Some? && IsTokenExpired(held, cfg, env.now)) ==>
            cache.data == (if old(token).Some? then old(cache.data) else old(cache.Loaded()))
            && cache.file == old(cache.file))
      && UsingTokenCount(base.log) <= 1
      && (!old(loggedToken) && token.Some? && base.logger == VaultLogger ==> UsingTokenCount(base.log) == 1)
      && (old(loggedToken) || token.None? ==> UsingTokenCount(base.log) == UsingTokenCount(old(base.log)))
    }

    /**
     * `getToken()`: the cache is consulted only when no token is held; a
     * held token that has expired (by its own margin or by `maxTtl`) is
     * removed from memory and from the cache, otherwise one that is due is
     * renewed; a login follows only when no token remains; a granted token
     * is written to the cache; "Using token" is logged once per vault.
     */
    method GetToken(env: Env) returns (t: Option<Token>)
      requires Valid()
      modifies this, base, cache
      ensures Valid()
      ensures t == token
      ensures token == old(Plan(env)).token && requests == old(requests) + old(Plan(env)).sent
      ensures var plan := old(Plan(env));
        lastResult == if plan.sent == [] then old(lastResult)
          else Some(CurlResult(plan.sent[0].url, server(|old(requests)|, plan.sent[0])))
      ensures secrets == old(secrets) && TokenEffects(env)
    {
      Consult(env);
      Refresh(env);
      Ensure(env);
      Note(env);
      t := token;
    }

    /** The first step of `getToken()`: the cache is consulted only when no token is held. */
    method Consult(env: Env)
      requires Valid()
      modifies this, cache
      ensures Valid()
      ensures token == Held(old(token), Field(old(cache.Loaded()), "token"), env)
      ensures old(token).Some? ==>
        cache.data == old(cache.data) && cache.file == old(cache.file) && cache.errors == old(cache.errors)
      ensures old(token).None? ==> cache.data == old(cache.Loaded()) && cache.file == old(cache.file)
      ensures requests == old(requests) && secrets == old(secrets) && loggedToken == old(loggedToken)
      ensures lastResult == old(lastResult)
    {
      if token.None? {
        SetTokenFromCache(env);
      }
    }

    /**
     * The second step of `getToken()`: an expired token is removed from
     * memory and from the cache, a due one renewed.
     */
    method Refresh(env: Env)
      requires Valid()
      modifies this, base, cache
      ensures Valid()
      ensures old(token).None? ==> token == None && requests == old(requests) && unchanged(cache)
      ensures old(token).Some? && IsTokenExpired(old(token), cfg, env.now) ==>
        token == None && requests == old(requests) && Field(cache.data, "token") == Null
      ensures old(token).Some? && !IsTokenExpired(old(token), cfg, env.now) && !ShallRenew(old(token), cfg, env.now) ==>
        token == old(token) && requests == old(requests)
        && cache.data == old(cache.data) && cache.file == old(cache.file) && cache.errors == old(cache.errors)
      ensures old(token).Some? && !IsTokenExpired(old(token), cfg, env.now) && ShallRenew(old(token), cfg, env.now) ==>
        var req := PostRequest(uri, RENEW_PATH, RenewBody(old(token).value), old(token), env);
        var resp := CurlResult(req.url, server(|old(requests)|, req));
        requests == old(requests) + [req] && lastResult == Some(resp)
        && token == (if Granted(resp) then Some(GrantedToken(resp, env)) else old(token))
        && (Granted(resp) && cache.data.Obj? ==> Field(cache.data, "token") == Obj(token.value.props))
        && (!Granted(resp) ==> cache.data == old(cache.data) && cache.file == old(cache.file))
      ensures requests == old(requests) ==> lastResult == old(lastResult)
      ensures secrets == old(secrets) && loggedToken == old(loggedToken)
      ensures UsingTokenCount(base.log) == UsingTokenCount(old(base.log)) && base.logger == old(base.logger)
    {
      if token.Some? {
        if IsTokenExpired(token, cfg, env.now) {
          RemoveToken();
        } else if ShallRenew(token, cfg, env.now) {
          RenewToken(env);
        }
      }
    }

    /** The third step of `getToken()`: a login when no token remains, its token cached when granted. */
    method Ensure(env: Env)
      requires Valid()
      modifies this, base, cache
      ensures Valid()
      ensures old(token).Some? ==>
        token == old(token) && requests == old(requests) && lastResult == old(lastResult) && unchanged(cache)
      ensures old(token).None? ==>
        var req := PostRequest(uri, LOGIN_PATH, LoginBody(cfg), None, env);
        var resp := CurlResult(req.url, server(|old(requests)|, req));
        requests == old(requests) + [req] && lastResult == Some(resp)
        && token == (if Granted(resp) then Some(GrantedToken(resp, env)) else None)
        && (Granted(resp) && cache.data.Obj? ==> Field(cache.data, "token") == Obj(token.value.props))
        && (!Granted(resp) ==> cache.data == old(cache.data) && cache.file == old(cache.file))
      ensures secrets == old(secrets) && loggedToken == old(loggedToken)
      ensures UsingTokenCount(base.log) == UsingTokenCount(old(base.log)) && base.logger == old(base.logger)
    {
      if token.None? {
        RequestNewToken(env);
      }
    }

    /**
     * The last step of `getToken()`: the first time a token is at hand,
     * "Using token" and the token's masked description are logged.
     */
    method Note(env: Env)
      requires Valid()
      modifies this, base
      ensures Valid()
      ensures loggedToken == (old(loggedToken) || token.Some?)
      ensures token == old(token) && requests == old(requests) && secrets == old(secrets)
      ensures lastResult == old(lastResult) && base.logger == old(base.logger)
      ensures !old(loggedToken) && token.Some? && base.logger == VaultLogger ==>
        base.log == old(base.log) + [LogEntry(Info, PrefixOf(SHORT_NAME) + ("Using token: " + token.value.Info(env)), Null)]
        && UsingTokenCount(base.log) == 1
      ensures !(!old(loggedToken) && token.Some? && base.logger == VaultLogger) ==> base.log == old(base.log)
    {
      if token.Some? && !loggedToken {
        UsingEntry(base.log, token.value.Info(env));
        base.Log(Info, "Using token: " + token.value.Info(env), Null);
        loggedToken := true;
      }
    }

    /**
     * `getSecret($path)`: a path seen before is answered from the memo with
     * no token work and no request; a new path costs `getToken()`'s requests
     * and one GET sent with the token it yields, whose outcome is memoized.
     * A memoized failure is thrown as VAULT_ERR_SECRET with the failed
     * result object attached.
     */
    method GetSecret(path: string, env: Env) returns (r: Result<Secret>)
      requires Valid()
      modifies this, base, cache
      ensures Valid()
      ensures path in secrets && r == MemoResult(secrets[path])
      ensures path in old(secrets) ==>
        secrets == old(secrets) && token == old(token) && requests == old(requests) && lastResult == old(lastResult)
        && unchanged(base) && unchanged(cache) && loggedToken == old(loggedToken)
      ensures path !in old(secrets) ==>
        var plan := old(Plan(env));
        var req := BuildRequest(GET, uri, path, [], "", token);
        var resp := CurlResult(req.url, server(|old(requests)| + |plan.sent|, req));
        token == plan.token && requests == old(requests) + plan.sent + [req]
        && lastResult == Some(resp) && secrets == old(secrets)[path := Unwrap(resp)]
      ensures path !in old(secrets) ==> TokenEffects(env)
      ensures |requests| <= |old(requests)| + 2
    {
      if path !in secrets {
        Fetch(path, env);
      }
      r := MemoResult(secrets[path]);
    }

    /** The miss branch of `getSecret($path)`: a token check, then the GET, memoized. */
    method Fetch(path: string, env: Env)
      requires Valid()
      modifies this, base, cache
      ensures Valid()
      ensures var plan := old(Plan(env));
        var req := BuildRequest(GET, uri, path, [], "", token);
        var resp := CurlResult(req.url, server(|old(requests)| + |plan.sent|, req));
        token == plan.token && requests == old(requests) + plan.sent + [req]
        && lastResult == Some(resp) && secrets == old(secrets)[path := Unwrap(resp)]
      ensures TokenEffects(env)
    {
      CheckToken(env);
      Retrieve(path);
    }

    /** The GET of the miss branch, sent with the token held, its answer memoized under the path. */
    method Retrieve(path: string)
      requires Valid()
      modifies this, base
      ensures Valid()
      ensures var req := BuildRequest(GET, uri, path, [], "", token);
        var resp := CurlResult(req.url, server(|old(requests)|, req));
        token == old(token) && requests == old(requests) + [req]
        && lastResult == Some(resp) && secrets == old(secrets)[path := Unwrap(resp)]
      ensures loggedToken == old(loggedToken) && base.logger == old(base.logger)
      ensures UsingTokenCount(base.log) == UsingTokenCount(old(base.log))
      ensures base.log == old(base.log) + (if base.logger == VaultLogger && SendError(lastResult.value).Some?
        then [LogEntry(Error, PrefixOf(SHORT_NAME) + ("Error while calling " + lastResult.value.url + ": "),
                       CleanObject(SendError(lastResult.value).value))]
        else [])
    {
      ghost var req := BuildRequest(GET, uri, path, [], "", token);
      var rc := Send(GET, path, [], "");
      assert rc == CurlResult(req.url, server(|requests| - 1, req));
      Memoize(path, rc);
    }

    /** `$this->secrets[$path] = $rc`, the answer unwrapped. */
    method Memoize(path: string, rc: Response)
      requires Valid()
      modifies this
      ensures Valid()
      ensures secrets == old(secrets)[path := Unwrap(rc)]
      ensures requests == old(requests) && token == old(token)
      ensures loggedToken == old(loggedToken) && lastResult == old(lastResult)
    {
      secrets := secrets[path := Unwrap(rc)];
    }

    /** `getToken()` for its effect alone, as `getSecret` calls it: the memo is left alone. */
    method CheckToken(env: Env)
      requires Valid()
      modifies this, base, cache
      ensures Valid()
      ensures token == old(Plan(env)).token && requests == old(requests) + old(Plan(env)).sent
      ensures var plan := old(Plan(env));
        lastResult == if plan.sent == [] then old(lastResult)
          else Some(CurlResult(plan.sent[0].url, server(|old(requests)|, plan.sent[0])))
      ensures secrets == old(secrets) && TokenEffects(env)
    {
      var _ := GetToken(env);
    }

    /**
     * `dieOn($path)` up to its `exit`: both statuses are logged as errors,
     * and the message it would exit with is returned.
     */
    method DieOn(path: string, env: Env) returns (msg: string)
      requires Valid()
      modifies base
      ensures Valid()
      ensures msg == DieMessage(TokenStatus(token, cfg, env.now), SecretErrorCode(MemoOf(path)))
      ensures base.logger == old(base.logger)
      ensures old(base.logger) == VaultLogger ==> base.log == old(base.log) + [
        LogEntry(Error, PrefixOf(SHORT_NAME) + ("Vault Token Status: " + TokenStatusText(token, cfg, env)), Null),
        LogEntry(Error, PrefixOf(SHORT_NAME) + ("Database Secret Status: " + SecretErrorText(MemoOf(path))), Null)]
      ensures old(base.logger) != VaultLogger ==> base.log == old(base.log)
    {
      LogOther(Error, "Vault Token Status: " + TokenStatusText(token, cfg, env), Null);
      LogOther(Error, "Database Secret Status: " + SecretErrorText(MemoOf(path)), Null);
      msg := DieMessage(TokenStatus(token, cfg, env.now), SecretErrorCode(MemoOf(path)));
    }
  }

  /**
   * `new HashicorpVault($config, $logger)`: a loosely NULL configuration is
   * refused before the Config is built; otherwise the Config's own checks
   * decide.
   */
  method NewHashicorpVault(config: Value, logger: LoggerKind, file: CacheFile, writable: bool,
                           server: (nat, Request) -> Exchange) returns (r: Result<HashicorpVault>)
    ensures LooseNull(config) ==> r == Failure(CONFIG_MISSING)
    ensures !LooseNull(config) ==>
      (r.Failure? <==> ConfigOf(config).Failure?)
      && (r.Failure? ==> r.error == ConfigOf(config).error)
      && (r.Success? ==>
            fresh(r.value) && r.value.Valid() && r.value.cfg == ConfigOf(config).value
            && r.value.token == None && r.value.secrets == map[] && r.value.requests == [])
  {
    if LooseNull(config) {
      return Failure(CONFIG_MISSING);
    }
    var c := NewConfig(config);
    if c.Failure? {
      return Failure(c.error);
    }
    var v := new HashicorpVault(c.value.props, logger, file, writable, server);
    return Success(v);
  }
}
