/**
 * The decisions of the Hashicorp vault client that depend only on its state
 * and the time: how a request URL and its headers are formed, when a token
 * counts as expired or due for renewal, how a secret is unwrapped from the
 * server's answer, and how token and secret problems are reported.
 */
module HashicorpRules {
  import opened PhpValues
  import opened Commons
  import opened Secrets
  import opened Tokens

  // ---------------------------------------------------------------------
  // Requests and responses
  // ---------------------------------------------------------------------

  datatype Verb = GET | POST

  /** One HTTP request as handed to cURL: method, URL, header lines and body. */
  datatype Request = Request(verb: Verb, url: string, headers: seq<string>, body: string)

  /**
   * What cURL reports for one request: its error number and message, and
   * for a completed request the status code, the content type, the raw body
   * and that body as json_decode reads it.
   */
  datatype Exchange = Exchange(errno: nat, errorMessage: string, httpCode: nat, contentType: string,
                               raw: string, decoded: Value)

  /** The part of the result object that exists only when cURL reported no error. */
  datatype Reply = Reply(httpCode: nat, contentType: string, data: Value)

  /** The result object `createCurlResult` builds. */
  datatype Response = Response(url: string, error: nat, errorMessage: string, reply: Option<Reply>)
  {
    /** `$rc->http_code`, NULL when the request failed. */
    function HttpCode(): Value
    {
      if reply.Some? then Int(reply.value.httpCode) else Null
    }

    /** `$rc->data`, NULL when the request failed. */
    function Data(): Value
    {
      if reply.Some? then reply.value.data else Null
    }
  }

  /**
   * `createCurlResult`: a failed request keeps only URL, error number and
   * message; a JSON answer is decoded, any other answer kept as raw text.
   */
  function CurlResult(url: string, ex: Exchange): (r: Response)
    ensures r.url == url && r.error == ex.errno && r.errorMessage == ex.errorMessage
    ensures r.reply.Some? <==> ex.errno == 0
    ensures ex.errno == 0 && ex.contentType == "application/json" ==> r.Data() == ex.decoded
    ensures ex.errno == 0 && ex.contentType != "application/json" ==> r.Data() == Str(ex.raw)
  {
    if ex.errno != 0 then Response(url, ex.errno, ex.errorMessage, None)
    else
      var data := if ex.contentType == "application/json" then ex.decoded else Str(ex.raw);
      Response(url, 0, ex.errorMessage, Some(Reply(ex.httpCode, ex.contentType, data)))
  }

  /**
   * The result object as a PHP object, as it is attached to an exception:
   * `url`, `error` and `errorMessage` always, and the HTTP status, content
   * type and data only when cURL succeeded.
   */
  function ResponseObject(r: Response): (v: Value)
    ensures v.Obj? && |v.props| == if r.reply.Some? then 6 else 3
    ensures Field(v, "url") == Str(r.url) && Field(v, "error") == Int(r.error)
    ensures Field(v, "errorMessage") == Str(r.errorMessage)
    ensures r.reply.None? ==> Field(v, "http_code") == Null && Field(v, "data") == Null
    ensures r.reply.Some? ==> Field(v, "http_code") == Int(r.reply.value.httpCode)
    ensures r.reply.Some? ==> Field(v, "contentType") == Str(r.reply.value.contentType)
    ensures r.reply.Some? ==> Field(v, "data") == r.reply.value.data
  {
    var url, error, message := Prop("url", Str(r.url)), Prop("error", Int(r.error)), Prop("errorMessage", Str(r.errorMessage));
    match r.reply
    case None =>
      LookupThree(url, error, message, []);
      Obj([url, error, message] + [])
    case Some(rp) =>
      var code, contentType, data := Prop("http_code", Int(rp.httpCode)), Prop("contentType", Str(rp.contentType)), Prop("data", rp.data);
      var tail := [code, contentType, data] + [];
      LookupThree(url, error, message, tail);
      LookupThree(code, contentType, data, []);
      Obj([url, error, message] + tail)
  }

  lemma LookupThree(a: Prop, b: Prop, c: Prop, rest: Props)
    ensures forall k :: (Lookup([a, b, c] + rest, k) ==
                         if a.name == k then Some(a.val) else if b.name == k then Some(b.val)
                         else if c.name == k then Some(c.val) else Lookup(rest, k))
  {
    var s1 := [c] + rest;
    var s2 := [b] + s1;
    assert [a, b, c] + rest == [a] + s2;
    forall k
      ensures Lookup([a] + s2, k) == if a.name == k then Some(a.val) else if b.name == k then Some(b.val)
        else if c.name == k then Some(c.val) else Lookup(rest, k)
    {
      LookupCons(a, s2, k);
      LookupCons(b, s1, k);
      LookupCons(c, rest, k);
    }
  }

  // ---------------------------------------------------------------------
  // URL and headers
  // ---------------------------------------------------------------------

  predicate EndsWithSlash(s: string)
  {
    |s| > 0 && s[|s| - 1] == '/'
  }

  predicate StartsWithSlash(s: string)
  {
    |s| > 0 && s[0] == '/'
  }

  /** The URL `request` builds: a slash is added when neither side has one and dropped when both do. */
  function UrlJoin(uri: string, path: string): string
  {
    if !EndsWithSlash(uri) && !StartsWithSlash(path) then uri + "/" + path
    else if EndsWithSlash(uri) && StartsWithSlash(path) then uri + path[1..]
    else uri + path
  }

  /** `uri` without one trailing slash. */
  function DropTrailingSlash(s: string): (r: string)
    ensures !EndsWithSlash(s) ==> r == s
    ensures EndsWithSlash(s) ==> r + "/" == s
  {
    if EndsWithSlash(s) then s[..|s| - 1] else s
  }

  /** `path` without one leading slash. */
  function DropLeadingSlash(s: string): (r: string)
    ensures !StartsWithSlash(s) ==> r == s
    ensures StartsWithSlash(s) ==> "/" + r == s
  {
    if StartsWithSlash(s) then s[1..] else s
  }

  /** The join puts exactly one slash between the URI and the path, whatever each side brings. */
  lemma UrlJoinOneSlash(uri: string, path: string)
    ensures UrlJoin(uri, path) == DropTrailingSlash(uri) + "/" + DropLeadingSlash(path)
  {
    var u, p := DropTrailingSlash(uri), DropLeadingSlash(path);
    if EndsWithSlash(uri) && StartsWithSlash(path) {
      assert uri + path[1..] == (u + "/") + p;
    } else if EndsWithSlash(uri) {
      assert uri + path == (u + "/") + p;
    } else if StartsWithSlash(path) {
      assert uri + path == u + ("/" + p);
    }
  }

  const REQUEST_HEADER := "X-Vault-Request: true"
  const TOKEN_HEADER_PREFIX := "X-Vault-Token: "

  /** The token header: only when a token is held and its `client_token` is set. */
  function TokenHeader(token: Option<Token>): (r: seq<string>)
    ensures |r| <= 1
  {
    if token.Some? && token.value.Attr("client_token") != Null
    then [TOKEN_HEADER_PREFIX + StrOf(token.value.Attr("client_token"))]
    else []
  }

  /** The two headers `POST` adds for its JSON body. */
  function PostHeaders(body: string): seq<string>
  {
    ["Content-Length: " + NatToString(|body|), "Content-Type: application/json"]
  }

  /** The request `request` sends for `path` with the extra headers of `GET` or `POST`. */
  function BuildRequest(verb: Verb, uri: string, path: string, extra: seq<string>, body: string,
                        token: Option<Token>): Request
  {
    Request(verb, UrlJoin(uri, path), extra + [REQUEST_HEADER] + TokenHeader(token), body)
  }

  /** A header line that carries a token. */
  predicate IsTokenHeader(h: string)
  {
    |TOKEN_HEADER_PREFIX| <= |h| && h[..|TOKEN_HEADER_PREFIX|] == TOKEN_HEADER_PREFIX
  }

  /**
   * Every request carries `X-Vault-Request`; it carries a token header
   * exactly when a token with a `client_token` is held (the headers of
   * `GET` and `POST` carry none), and then that header holds the token.
   */
  lemma BuildRequestHeaders(verb: Verb, uri: string, path: string, body: string, token: Option<Token>)
    ensures var extra := if verb == POST then PostHeaders(body) else [];
      var hs := BuildRequest(verb, uri, path, extra, body, token).headers;
      REQUEST_HEADER in hs
      && ((exists i :: 0 <= i < |hs| && IsTokenHeader(hs[i])) <==>
          token.Some? && token.value.Attr("client_token") != Null)
      && (token.Some? && token.value.Attr("client_token") != Null ==>
          hs[|hs| - 1] == TOKEN_HEADER_PREFIX + StrOf(token.value.Attr("client_token")))
  {
    var extra := if verb == POST then PostHeaders(body) else [];
    var hs := BuildRequest(verb, uri, path, extra, body, token).headers;
    assert hs[|extra|] == REQUEST_HEADER;
    assert !IsTokenHeader(REQUEST_HEADER) by {
      assert REQUEST_HEADER[..|TOKEN_HEADER_PREFIX|][8] == 'R';
    }
    if verb == POST {
      assert !IsTokenHeader(extra[0]) by {
        assert extra[0][..|TOKEN_HEADER_PREFIX|][0] == 'C';
      }
      assert !IsTokenHeader(extra[1]) by {
        assert extra[1][..|TOKEN_HEADER_PREFIX|][0] == 'C';
      }
    }
    if token.Some? && token.value.Attr("client_token") != Null {
      var h := hs[|hs| - 1];
      assert h[..|TOKEN_HEADER_PREFIX|] == TOKEN_HEADER_PREFIX;
    } else {
      assert hs == extra + [REQUEST_HEADER];
      forall i | 0 <= i < |hs| ensures !IsTokenHeader(hs[i]) {
        if i < |extra| {
          assert hs[i] == extra[i];
        }
      }
    }
  }

  // ---------------------------------------------------------------------
  // Token lifetime
  // ---------------------------------------------------------------------

  /** `getTokenExpiryTime()` for a held token: its expiry time, capped by `maxTtl` after its creation when `maxTtl` is positive. */
  function EffectiveExpiry(t: Token, maxTtl: Value): int
  {
    var rc := IntOf(t.Attr("expiryTime"));
    if IntOf(maxTtl) > 0 && IntOf(t.Attr("creationTime")) + IntOf(maxTtl) < rc
    then IntOf(t.Attr("creationTime")) + IntOf(maxTtl)
    else rc
  }

  /** `getTokenExpiryTime()`: -1 without a token. */
  function TokenExpiryTime(token: Option<Token>, cfg: Props): int
  {
    if token.None? then -1 else EffectiveExpiry(token.value, PhpValues.Get(cfg, "maxTtl"))
  }

  function Min(a: int, b: int): int
  {
    if a < b then a else b
  }

  /**
   * The effective expiry is the token's own expiry time, or the earlier of
   * that and creation plus `maxTtl` when `maxTtl` is positive; it never
   * exceeds the token's own expiry time.
   */
  lemma EffectiveExpiryIsMin(t: Token, maxTtl: Value)
    ensures IntOf(maxTtl) > 0 ==>
      EffectiveExpiry(t, maxTtl) == Min(IntOf(t.Attr("expiryTime")), IntOf(t.Attr("creationTime")) + IntOf(maxTtl))
    ensures IntOf(maxTtl) <= 0 ==> EffectiveExpiry(t, maxTtl) == IntOf(t.Attr("expiryTime"))
    ensures EffectiveExpiry(t, maxTtl) <= IntOf(t.Attr("expiryTime"))
  {
  }

  /** `isTokenExpired()`: no token, the token's own expiry (with its margin) or the capped expiry has passed. */
  predicate IsTokenExpired(token: Option<Token>, cfg: Props, now: nat)
  {
    token.None? || token.value.IsExpired(now) || now > TokenExpiryTime(token, cfg)
  }

  /** The renewal window: `renewalPeriod` when it exceeds ten seconds, otherwise 300 seconds. */
  function RenewalWindow(renewalPeriod: Value): (r: int)
    ensures r > 10
    ensures IntOf(renewalPeriod) > 10 ==> r == IntOf(renewalPeriod)
    ensures IntOf(renewalPeriod) <= 10 ==> r == 300
  {
    if IntOf(renewalPeriod) > 10 then IntOf(renewalPeriod) else 300
  }

  /**
   * `shallRenewToken()`: a live, renewable token, renewal switched on, a
   * positive effective expiry, and the renewal window before it reached.
   */
  predicate ShallRenew(token: Option<Token>, cfg: Props, now: nat)
  {
    && token.Some? && !token.value.IsExpired(now)
    && Truthy(token.value.Attr("renewable")) && Truthy(PhpValues.Get(cfg, "renewTokens"))
    && TokenExpiryTime(token, cfg) > 0
    && now > TokenExpiryTime(token, cfg) - RenewalWindow(PhpValues.Get(cfg, "renewalPeriod"))
  }

  /**
   * Once renewal is due it stays due until the token itself expires, so the
   * token status reports VAULT_ERR_RENEWAL all that time.
   */
  lemma RenewalStaysDue(token: Option<Token>, cfg: Props, now: nat, later: nat)
    requires ShallRenew(token, cfg, now) && now <= later
    requires !token.value.IsExpired(later)
    ensures ShallRenew(token, cfg, later)
    ensures TokenStatus(token, cfg, later) == VAULT_ERR_RENEWAL
  {
  }

  /** A token whose effective expiry is more than the window away is not due for renewal. */
  lemma RenewalNotYetDue(token: Option<Token>, cfg: Props, now: nat)
    requires token.Some?
    requires now + RenewalWindow(PhpValues.Get(cfg, "renewalPeriod")) <= TokenExpiryTime(token, cfg)
    ensures !ShallRenew(token, cfg, now)
  {
  }

  // ---------------------------------------------------------------------
  // Status reports
  // ---------------------------------------------------------------------

  /** `getTokenStatus(false)`: no token, then expired, then renewal due, then fine. */
  function TokenStatus(token: Option<Token>, cfg: Props, now: nat): (r: int)
    ensures r == VAULT_ERR_NO_TOKEN <==> token.None?
    ensures r == VAULT_ERR_TOKEN_EXPIRED <==> token.Some? && token.value.IsExpired(now)
    ensures r == VAULT_ERR_RENEWAL <==> token.Some? && !token.value.IsExpired(now) && ShallRenew(token, cfg, now)
    ensures r == VAULT_OK <==> token.Some? && !token.value.IsExpired(now) && !ShallRenew(token, cfg, now)
  {
    if token.None? then VAULT_ERR_NO_TOKEN
    else if token.value.IsExpired(now) then VAULT_ERR_TOKEN_EXPIRED
    else if ShallRenew(token, cfg, now) then VAULT_ERR_RENEWAL
    else VAULT_OK
  }

  const NO_TOKEN_TEXT := "no token available"
  const EXPIRED_OPENING := "token expired at "
  const RENEWAL_OPENING := "token valid but needs renewal (expires at "
  const VALID_OPENING := "token valid (expires at "

  /** A sequence that differs from `p` somewhere within both does not start with `p`. */
  lemma NotOpening(p: string, s: string, i: nat)
    requires i < |p| && i < |s| && p[i] != s[i]
    ensures !(p <= s)
  {
  }

  /** `p + r` starts with `p`. */
  lemma Opening(p: string, r: string)
    ensures p <= p + r
  {
    assert (p + r)[..|p|] == p;
  }

  /** Each token status text starts with its own opening and with no other. */
  lemma StatusOpenings(r: string)
    ensures !(EXPIRED_OPENING <= NO_TOKEN_TEXT) && !(RENEWAL_OPENING <= NO_TOKEN_TEXT) && !(VALID_OPENING <= NO_TOKEN_TEXT)
    ensures var t := EXPIRED_OPENING + r;
      EXPIRED_OPENING <= t && t != NO_TOKEN_TEXT && !(RENEWAL_OPENING <= t) && !(VALID_OPENING <= t)
    ensures var t := RENEWAL_OPENING + r;
      RENEWAL_OPENING <= t && t != NO_TOKEN_TEXT && !(EXPIRED_OPENING <= t) && !(VALID_OPENING <= t)
    ensures var t := VALID_OPENING + r;
      VALID_OPENING <= t && t != NO_TOKEN_TEXT && !(EXPIRED_OPENING <= t) && !(RENEWAL_OPENING <= t)
  {
    NotOpening(EXPIRED_OPENING, NO_TOKEN_TEXT, 0);
    NotOpening(RENEWAL_OPENING, NO_TOKEN_TEXT, 0);
    NotOpening(VALID_OPENING, NO_TOKEN_TEXT, 0);
    Opening(EXPIRED_OPENING, r);
    NotOpening(NO_TOKEN_TEXT, EXPIRED_OPENING + r, 0);
    NotOpening(RENEWAL_OPENING, EXPIRED_OPENING + r, 6);
    NotOpening(VALID_OPENING, EXPIRED_OPENING + r, 6);
    Opening(RENEWAL_OPENING, r);
    NotOpening(NO_TOKEN_TEXT, RENEWAL_OPENING + r, 0);
    NotOpening(EXPIRED_OPENING, RENEWAL_OPENING + r, 6);
    NotOpening(VALID_OPENING, RENEWAL_OPENING + r, 12);
    Opening(VALID_OPENING, r);
    NotOpening(NO_TOKEN_TEXT, VALID_OPENING + r, 0);
    NotOpening(EXPIRED_OPENING, VALID_OPENING + r, 6);
    NotOpening(RENEWAL_OPENING, VALID_OPENING + r, 12);
  }

  /**
   * `getTokenStatus(true)`: the same triage in words, each status with an
   * opening of its own; the token statuses go on to name the expiry and
   * the current time.
   */
  function TokenStatusText(token: Option<Token>, cfg: Props, env: Env): (t: string)
    ensures t == NO_TOKEN_TEXT <==> TokenStatus(token, cfg, env.now) == VAULT_ERR_NO_TOKEN
    ensures EXPIRED_OPENING <= t <==> TokenStatus(token, cfg, env.now) == VAULT_ERR_TOKEN_EXPIRED
    ensures RENEWAL_OPENING <= t <==> TokenStatus(token, cfg, env.now) == VAULT_ERR_RENEWAL
    ensures VALID_OPENING <= t <==> TokenStatus(token, cfg, env.now) == VAULT_OK
  {
    if token.None? then
      StatusOpenings("");
      NO_TOKEN_TEXT
    else
      var expires := StrOf(token.value.Attr("expiryString"));
      var current := env.dateAtom(env.now);
      if token.value.IsExpired(env.now) then
        StatusOpenings(expires + " (current time is " + current + ")");
        EXPIRED_OPENING + (expires + " (current time is " + current + ")")
      else
        var r := expires + ", current time is " + current + ")";
        StatusOpenings(r);
        if ShallRenew(token, cfg, env.now) then RENEWAL_OPENING + r else VALID_OPENING + r
  }

  /** What the secret memo holds for a path: a Secret, or the result object of the failed request. */
  datatype Memo = Fetched(secret: Secret) | Failed(response: Response)

  /** A response `getSecret` accepts: no cURL error, status 200, and `data->data` an object. */
  predicate Successful(r: Response)
  {
    r.error == 0 && r.HttpCode() == Int(200) && Field(r.Data(), "data").Obj?
  }

  /**
   * What `getSecret` memoizes for a response. A KV version 2 answer
   * (`data->data->data` set) gives the Secret of `data->data`, any other
   * successful answer the Secret of `data`; an unsuccessful one is kept as it is.
   */
  function Unwrap(r: Response): (m: Memo)
    ensures m.Fetched? <==> Successful(r)
    ensures m.Failed? ==> m.response == r
  {
    if Successful(r) then
      var inner := Field(r.Data(), "data");
      if Field(inner, "data") != Null then Fetched(SecretOf(inner)) else Fetched(SecretOf(r.Data()))
    else Failed(r)
  }

  /** What `getSecret` returns or throws for a memoized entry. */
  function MemoResult(m: Memo): (r: Result<Secret>)
    ensures r.Success? <==> m.Fetched?
    ensures m.Fetched? ==> r.value == m.secret
    ensures m.Failed? ==> r.error.code == VAULT_ERR_SECRET && r.error.details == ResponseObject(m.response)
  {
    match m
    case Fetched(s) => Success(s)
    case Failed(resp) => Failure(VaultError("Secret not available", VAULT_ERR_SECRET, ResponseObject(resp)))
  }

  /** An object answer `{data: {...}}`: a KV version 1 secret. */
  function Kv1Answer(payload: Props): Value
  {
    Obj([Prop("data", Obj(payload))])
  }

  /** An object answer `{data: {data: {...}, metadata: ...}}`: a KV version 2 secret. */
  function Kv2Answer(payload: Props, metadata: Value): Value
  {
    Obj([Prop("data", Obj([Prop("data", Obj(payload)), Prop("metadata", metadata)]))])
  }

  function Answered(body: Value): Response
  {
    Response("", 0, "", Some(Reply(200, "application/json", body)))
  }

  /**
   * A KV version 1 answer whose payload has no `data` entry of its own
   * yields a Secret reading each payload key.
   */
  lemma UnwrapKv1(payload: Props, key: string)
    requires NoDup(payload)
    requires PhpValues.Get(payload, "data") == Null
    ensures var m := Unwrap(Answered(Kv1Answer(payload)));
      m.Fetched? && m.secret.Get(key) == PhpValues.Get(payload, key)
  {
    var body := Kv1Answer(payload);
    var r := Answered(body);
    assert Field(r.Data(), "data") == Obj(payload) by {
      LookupCons(Prop("data", Obj(payload)), [], "data");
    }
    SecretGet(body, key);
  }

  /** A KV version 2 answer yields a Secret reading each key of its inner payload. */
  lemma UnwrapKv2(payload: Props, metadata: Value, key: string)
    requires NoDup(payload)
    ensures var m := Unwrap(Answered(Kv2Answer(payload, metadata)));
      m.Fetched? && m.secret.Get(key) == PhpValues.Get(payload, key)
      && m.secret.Meta() == Stored(metadata)
  {
    var innerProps := [Prop("data", Obj(payload)), Prop("metadata", metadata)];
    var inner := Obj(innerProps);
    var body := Kv2Answer(payload, metadata);
    assert Field(body, "data") == inner by {
      LookupCons(Prop("data", inner), [], "data");
    }
    assert Field(inner, "data") == Obj(payload) by {
      LookupCons(innerProps[0], innerProps[1..], "data");
    }
    assert Lookup(innerProps, "metadata") == Some(metadata) by {
      LookupCons(innerProps[0], innerProps[1..], "metadata");
      LookupCons(innerProps[1], [], "metadata");
      assert innerProps[1..] == [innerProps[1]] + [];
    }
    assert NoDup(innerProps);
    SecretGet(inner, key);
  }

  /** `getSecretError($path, false)`: success, a cURL error, an HTTP error with messages, or an internal error. */
  function SecretErrorCode(memo: Option<Memo>): (r: int)
    ensures r == VAULT_SECRET_OK <==> memo.Some? && memo.value.Fetched?
    ensures memo.Some? && memo.value.Failed? && memo.value.response.error > 0 ==>
      r == VAULT_ERR_CURL_BASE + memo.value.response.error && r > VAULT_ERR_CURL_BASE
    ensures memo.Some? && memo.value.Failed? && HttpDeclined(memo.value.response) ==>
      r == VAULT_ERR_HTTP_BASE + memo.value.response.reply.value.httpCode
    ensures r == VAULT_ERR_SECRET_INTERNAL <==>
      memo.None? || (memo.value.Failed? && memo.value.response.error <= 0 && !HttpDeclined(memo.value.response))
      || (memo.value.Failed? && HttpDeclined(memo.value.response) && memo.value.response.reply.value.httpCode == VAULT_ERR_SECRET_INTERNAL)
  {
    match memo
    case None => VAULT_ERR_SECRET_INTERNAL
    case Some(Fetched(_)) => VAULT_SECRET_OK
    case Some(Failed(resp)) =>
      if resp.error > 0 then VAULT_ERR_CURL_BASE + resp.error
      else if HttpDeclined(resp) then VAULT_ERR_HTTP_BASE + IntOf(resp.HttpCode())
      else VAULT_ERR_SECRET_INTERNAL
  }

  /**
   * The server answered without a cURL error and with a JSON object whose
   * `errors` entry is an array: the vault declined the request.
   */
  predicate HttpDeclined(r: Response)
  {
    r.error <= 0 && r.Data().Obj? && Field(r.Data(), "errors").Arr?
  }

  /** `implode($sep, $list)`: the values' strings in order, `sep` between each two. */
  function Implode(sep: string, es: Props): (r: string)
    ensures es == [] ==> r == ""
    ensures es != [] ==> StrOf(es[0].val) <= r
  {
    if es == [] then ""
    else if |es| == 1 then StrOf(es[0].val)
    else StrOf(es[0].val) + sep + Implode(sep, es[1..])
  }

  /**
   * `getSecretError($path, true)`: the words for each case `SecretErrorCode`
   * tells apart: the cURL error message, the vault's own error messages
   * joined by " / ", or a fixed text.
   */
  function SecretErrorText(memo: Option<Memo>): (t: string)
    ensures SecretErrorCode(memo) == VAULT_SECRET_OK ==> t == "Secret successfully retrieved"
    ensures memo.Some? && memo.value.Failed? && memo.value.response.error > 0 ==>
      t == memo.value.response.errorMessage
    ensures memo.Some? && memo.value.Failed? && HttpDeclined(memo.value.response) ==>
      t == Implode(" / ", Field(memo.value.response.Data(), "errors").entries)
    ensures (SecretErrorCode(memo) == VAULT_ERR_SECRET_INTERNAL
             && !(memo.Some? && memo.value.Failed? && HttpDeclined(memo.value.response))) ==>
      t == "Unknown internal error"
  {
    match memo
    case None => "Unknown internal error"
    case Some(Fetched(_)) => "Secret successfully retrieved"
    case Some(Failed(resp)) =>
      if resp.error > 0 then resp.errorMessage
      else if HttpDeclined(resp) then Implode(" / ", Field(resp.Data(), "errors").entries)
      else "Unknown internal error"
  }

  /**
   * Appending one more value to a non-empty list appends the separator and
   * that value's string: `implode` read from the other end.
   */
  lemma {:induction false} ImplodeSnoc(sep: string, es: Props, e: Prop)
    requires es != []
    ensures Implode(sep, es + [e]) == Implode(sep, es) + sep + StrOf(e.val)
    decreases |es|
  {
    assert (es + [e])[0] == es[0];
    if |es| == 1 {
      assert (es + [e])[1..] == [e];
    } else {
      assert (es + [e])[1..] == es[1..] + [e];
      ImplodeSnoc(sep, es[1..], e);
    }
  }

  /**
   * Read by status code, for a declined answer with a real HTTP status
   * (100 to 599): a code above VAULT_ERR_CURL_BASE gives cURL's message, an
   * HTTP status gives the vault's messages, and the internal code gives
   * "Unknown internal error".
   */
  lemma SecretErrorTextByCode(memo: Option<Memo>)
    requires memo.Some? && memo.value.Failed? && HttpDeclined(memo.value.response) ==>
      100 <= memo.value.response.reply.value.httpCode <= 599
    ensures var code := SecretErrorCode(memo);
      && (code == VAULT_SECRET_OK ==> SecretErrorText(memo) == "Secret successfully retrieved")
      && (code > VAULT_ERR_CURL_BASE ==> SecretErrorText(memo) == memo.value.response.errorMessage)
      && (VAULT_ERR_HTTP_BASE + 100 <= code <= VAULT_ERR_HTTP_BASE + 599 ==>
            SecretErrorText(memo) == Implode(" / ", Field(memo.value.response.Data(), "errors").entries))
      && (code == VAULT_ERR_SECRET_INTERNAL ==> SecretErrorText(memo) == "Unknown internal error")
  {
  }

  /** The text `dieOn` exits with, from the two status codes. */
  function DieMessage(tokenStatus: int, secretStatus: int): string
  {
    if tokenStatus == VAULT_ERR_TOKEN_EXPIRED then "No valid access token"
    else if tokenStatus == VAULT_ERR_NO_TOKEN then "No access token"
    else
      var renewal := tokenStatus == VAULT_ERR_RENEWAL;
      var code := IntToString(secretStatus);
      if secretStatus == VAULT_SECRET_OK then (if renewal then "Token renewal warning" else "OK")
      else if secretStatus == VAULT_ERR_SECRET_INTERNAL then
        (if renewal then "Internal error on renewable token" else "Internal error on secret")
      else if secretStatus >= VAULT_ERR_CURL_BASE then
        (if renewal then "Cannot reach vault with renewable token: " + code else "Cannot reach vault: " + code)
      else (if renewal then "Vault declines renewable token: " + code else "Vault declines: " + code)
  }

  /** Without a usable token the secret does not matter: `dieOn` reports the token. */
  lemma DieOnTokenProblem(token: Option<Token>, cfg: Props, now: nat, memo: Option<Memo>)
    requires token.None? || token.value.IsExpired(now)
    ensures DieMessage(TokenStatus(token, cfg, now), SecretErrorCode(memo)) ==
      if token.None? then "No access token" else "No valid access token"
  {
  }

  /**
   * With a live token and a fetched secret `dieOn` reports "OK", or a
   * renewal warning when renewal is due.
   */
  lemma DieOnFetched(token: Option<Token>, cfg: Props, now: nat, s: Secret)
    requires token.Some? && !token.value.IsExpired(now)
    ensures DieMessage(TokenStatus(token, cfg, now), SecretErrorCode(Some(Fetched(s)))) ==
      if ShallRenew(token, cfg, now) then "Token renewal warning" else "OK"
  {
  }

  /** With a live token and a request cURL could not complete, `dieOn` says the vault is unreachable and names the code. */
  lemma DieOnTransport(token: Option<Token>, cfg: Props, now: nat, r: Response)
    requires token.Some? && !token.value.IsExpired(now) && r.error > 0
    ensures var code := IntToString(VAULT_ERR_CURL_BASE + r.error);
      DieMessage(TokenStatus(token, cfg, now), SecretErrorCode(Some(Failed(r)))) ==
      if ShallRenew(token, cfg, now) then "Cannot reach vault with renewable token: " + code
      else "Cannot reach vault: " + code
  {
  }

  /**
   * With a live token and an answer the vault declined with an HTTP status,
   * `dieOn` says the vault declines and names the status.
   */
  lemma DieOnDeclined(token: Option<Token>, cfg: Props, now: nat, r: Response)
    requires token.Some? && !token.value.IsExpired(now)
    requires HttpDeclined(r) && 100 <= r.reply.value.httpCode <= 599
    ensures var code := IntToString(r.reply.value.httpCode);
      DieMessage(TokenStatus(token, cfg, now), SecretErrorCode(Some(Failed(r)))) ==
      if ShallRenew(token, cfg, now) then "Vault declines renewable token: " + code
      else "Vault declines: " + code
  {
  }

  /**
   * With a live token and nothing memoized for the path, or a failure that
   * is neither a cURL error nor a declined request, `dieOn` reports an
   * internal error.
   */
  lemma DieOnInternal(token: Option<Token>, cfg: Props, now: nat, memo: Option<Memo>)
    requires token.Some? && !token.value.IsExpired(now)
    requires memo.None? || (memo.value.Failed? && memo.value.response.error <= 0 && !HttpDeclined(memo.value.response))
    ensures DieMessage(TokenStatus(token, cfg, now), SecretErrorCode(memo)) ==
      if ShallRenew(token, cfg, now) then "Internal error on renewable token" else "Internal error on secret"
  {
  }
}
