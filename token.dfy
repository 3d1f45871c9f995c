/**
 * The Hashicorp token: the `auth` object of a login or renewal answer,
 * completed with its creation and expiry times when it is built.
 */
module Tokens {
  import opened PhpValues
  import opened Commons

  /** The declared properties of a Token, all NULL before the constructor runs. */
  const DECLARED: Props := [
    Prop("client_token", Null), Prop("accessor", Null), Prop("policies", Null),
    Prop("token_policies", Null), Prop("metadata", Null), Prop("lease_duration", Null),
    Prop("renewable", Null), Prop("entity_id", Null), Prop("token_type", Null),
    Prop("orphan", Null), Prop("creationTime", Null), Prop("expiryTime", Null),
    Prop("expiryString", Null), Prop("now", Null)]

  /** Seconds before `expiryTime` at which a token already counts as expired. */
  const EXPIRY_MARGIN := 5

  datatype Token = Token(props: Props) {

    /** `$token->k`. */
    function Attr(k: string): Value
    {
      PhpValues.Get(props, k)
    }

    /** `isExpired()`: `now` has reached five seconds before the expiry time; a token without one always is. */
    predicate IsExpired(now: nat)
    {
      now >= IntOf(Attr("expiryTime")) - EXPIRY_MARGIN
    }

    /** `getInfo()`: the masked token, creation and expiry, renewability and policies. */
    function Info(env: Env): string
    {
      Masked(StrOf(Attr("client_token"))) +
      InfoDetails(Attr("creationTime"), Attr("expiryString"), Attr("renewable"), Attr("policies"), env)
    }
  }

  /** The part of `getInfo()` after the masked token. */
  function InfoDetails(creationTime: Value, expiryString: Value, renewable: Value, policies: Value, env: Env): string
  {
    " [" +
    "created=" + env.dateAtom(IntOf(creationTime)) +
    ",expires=" + StrOf(expiryString) +
    ",renewable=" + (if Truthy(renewable) then "true" else "false") +
    ",policies=" + env.jsonEncode(policies) +
    "]"
  }

  /** `substr($s, 0, 3).'**********'.substr($s, -3)`: only three characters at each end stay visible. */
  function Masked(s: string): (r: string)
    ensures |s| >= 3 ==> r == s[..3] + "**********" + s[|s| - 3..]
    ensures |s| < 3 ==> r == s + "**********" + s
  {
    var head := if |s| < 3 then s else s[..3];
    var tail := if |s| < 3 then s else s[|s| - 3..];
    head + "**********" + tail
  }

  /** The table after `foreach (get_object_vars($data) ...) $this->$key = $value;`. */
  function Fields(data: Value): Props
  {
    AssignAll(DECLARED, ObjectVars(data))
  }

  /** `creationTime` defaults to now when it is not set. */
  function WithCreation(p: Props, now: nat): Props
  {
    if !Isset(p, "creationTime") then Set(p, "creationTime", Int(now)) else p
  }

  /** `expiryTime` defaults to now plus the lease when it is not set and there is a lease. */
  function WithExpiry(p: Props, now: nat): Props
  {
    if !Isset(p, "expiryTime") && Isset(p, "lease_duration")
    then Set(p, "expiryTime", Int(now + IntOf(PhpValues.Get(p, "lease_duration"))))
    else p
  }

  /** `expiryString` defaults to the formatted expiry time when it is not set and there is one. */
  function WithExpiryString(p: Props, env: Env): Props
  {
    if !Isset(p, "expiryString") && Isset(p, "expiryTime")
    then Set(p, "expiryString", Str(env.dateAtom(IntOf(PhpValues.Get(p, "expiryTime")))))
    else p
  }

  /** The defaults the constructor fills in after copying the input, all read at the one instant `env.now`. */
  function Completed(p: Props, env: Env): Props
  {
    Set(WithExpiryString(WithExpiry(WithCreation(p, env.now), env.now), env), "now", Int(env.now))
  }

  /** The Token `new Token($data)` builds. */
  function TokenOf(data: Value, env: Env): Token
  {
    Token(Completed(Fields(data), env))
  }

  /** The constructor: the loop over the input's properties, then the defaults. */
  method NewToken(data: Value, env: Env) returns (t: Token)
    ensures t == TokenOf(data, env)
  {
    var p := CopyFields(data);
    p := StepCreation(p, env.now);
    p := StepExpiry(p, env.now);
    p := StepExpiryString(p, env);
    p := Set(p, "now", Int(env.now));
    t := Token(p);
  }

  method StepCreation(p0: Props, now: nat) returns (p: Props)
    ensures p == WithCreation(p0, now)
  {
    p := p0;
    if !Isset(p, "creationTime") {
      p := Set(p, "creationTime", Int(now));
    }
  }

  method StepExpiry(p0: Props, now: nat) returns (p: Props)
    ensures p == WithExpiry(p0, now)
  {
    p := p0;
    if !Isset(p, "expiryTime") && Isset(p, "lease_duration") {
      p := Set(p, "expiryTime", Int(now + IntOf(PhpValues.Get(p, "lease_duration"))));
    }
  }

  method StepExpiryString(p0: Props, env: Env) returns (p: Props)
    ensures p == WithExpiryString(p0, env)
  {
    p := p0;
    if !Isset(p, "expiryString") && Isset(p, "expiryTime") {
      p := Set(p, "expiryString", Str(env.dateAtom(IntOf(PhpValues.Get(p, "expiryTime")))));
    }
  }

  /** `foreach (get_object_vars($data) as $key => $value) $this->$key = $value;` over the declared properties. */
  method CopyFields(data: Value) returns (p: Props)
    ensures p == Fields(data)
  {
    var vars := ObjectVars(data);
    p := DECLARED;
    var i := 0;
    while i < |vars|
      invariant 0 <= i <= |vars|
      invariant p == AssignAll(DECLARED, vars[..i])
    {
      assert vars[..i + 1][..i] == vars[..i];
      p := Set(p, vars[i].name, vars[i].val);
      i := i + 1;
    }
    assert vars[..|vars|] == vars;
  }

  lemma DeclaredGet(k: string)
    ensures PhpValues.Get(DECLARED, k) == Null
  {
    LookupFound(DECLARED, k);
    assert forall i :: 0 <= i < |DECLARED| ==> DECLARED[i].val == Null;
  }

  /** After the copy loop every property reads what the input holds, NULL where it holds nothing. */
  lemma FieldsGet(data: Value, k: string)
    requires NoDup(ObjectVars(data))
    ensures PhpValues.Get(Fields(data), k) == PhpValues.Get(ObjectVars(data), k)
  {
    AssignAllLookup(DECLARED, ObjectVars(data), k);
    LookupFound(ObjectVars(data), k);
    DeclaredGet(k);
  }

  /** Reading a property of a table after one assignment. */
  lemma SetGet(ps: Props, k: string, v: Value, j: string)
    ensures PhpValues.Get(Set(ps, k, v), j) == if j == k then v else PhpValues.Get(ps, j)
  {
    SetLookup(ps, k, v, j);
  }

  /** `creationTime` after construction: kept when set, otherwise now. */
  function CreationTimeOf(p: Props, now: nat): (r: Value)
    ensures r != Null
  {
    if Isset(p, "creationTime") then PhpValues.Get(p, "creationTime") else Int(now)
  }

  /** `expiryTime` after construction: kept when set, otherwise now plus the lease when there is one. */
  function ExpiryTimeOf(p: Props, now: nat): (r: Value)
    ensures r == Null <==> !Isset(p, "expiryTime") && !Isset(p, "lease_duration")
  {
    if Isset(p, "expiryTime") then PhpValues.Get(p, "expiryTime")
    else if Isset(p, "lease_duration") then Int(now + IntOf(PhpValues.Get(p, "lease_duration")))
    else Null
  }

  /** `expiryString` after construction: kept when set, otherwise the formatted expiry time when there is one. */
  function ExpiryStringOf(p: Props, env: Env): (r: Value)
    ensures r == Null <==> !Isset(p, "expiryString") && ExpiryTimeOf(p, env.now) == Null
  {
    if Isset(p, "expiryString") then PhpValues.Get(p, "expiryString")
    else if ExpiryTimeOf(p, env.now) != Null then Str(env.dateAtom(IntOf(ExpiryTimeOf(p, env.now))))
    else Null
  }

  lemma WithCreationGet(p: Props, now: nat, k: string)
    ensures PhpValues.Get(WithCreation(p, now), k) ==
      if k == "creationTime" then CreationTimeOf(p, now) else PhpValues.Get(p, k)
  {
    if !Isset(p, "creationTime") {
      SetLookup(p, "creationTime", Int(now), k);
    }
  }

  lemma WithExpiryGet(p: Props, now: nat, k: string)
    ensures PhpValues.Get(WithExpiry(p, now), k) ==
      if k == "expiryTime" then ExpiryTimeOf(p, now) else PhpValues.Get(p, k)
  {
    if !Isset(p, "expiryTime") && Isset(p, "lease_duration") {
      SetLookup(p, "expiryTime", Int(now + IntOf(PhpValues.Get(p, "lease_duration"))), k);
    }
  }

  lemma WithExpiryStringGet(p: Props, env: Env, k: string)
    ensures PhpValues.Get(WithExpiryString(p, env), k) ==
      if k != "expiryString" || Isset(p, "expiryString") then PhpValues.Get(p, k)
      else if Isset(p, "expiryTime") then Str(env.dateAtom(IntOf(PhpValues.Get(p, "expiryTime"))))
      else Null
  {
    if !Isset(p, "expiryString") && Isset(p, "expiryTime") {
      SetLookup(p, "expiryString", Str(env.dateAtom(IntOf(PhpValues.Get(p, "expiryTime")))), k);
    }
  }

  lemma CompletedNow(p: Props, env: Env)
    ensures PhpValues.Get(Completed(p, env), "now") == Int(env.now)
  {
    var p3 := WithExpiryString(WithExpiry(WithCreation(p, env.now), env.now), env);
    SetGet(p3, "now", Int(env.now), "now");
  }

  lemma CompletedOther(p: Props, env: Env, k: string)
    requires k != "now" && k != "creationTime" && k != "expiryTime" && k != "expiryString"
    ensures PhpValues.Get(Completed(p, env), k) == PhpValues.Get(p, k)
  {
    var p1 := WithCreation(p, env.now);
    var p2 := WithExpiry(p1, env.now);
    var p3 := WithExpiryString(p2, env);
    SetGet(p3, "now", Int(env.now), k);
    WithExpiryStringGet(p2, env, k);
    WithExpiryGet(p1, env.now, k);
    WithCreationGet(p, env.now, k);
  }

  lemma CompletedCreationTime(p: Props, env: Env)
    ensures PhpValues.Get(Completed(p, env), "creationTime") == CreationTimeOf(p, env.now)
  {
    var p1 := WithCreation(p, env.now);
    var p2 := WithExpiry(p1, env.now);
    var p3 := WithExpiryString(p2, env);
    SetGet(p3, "now", Int(env.now), "creationTime");
    WithExpiryStringGet(p2, env, "creationTime");
    WithExpiryGet(p1, env.now, "creationTime");
    WithCreationGet(p, env.now, "creationTime");
  }

  lemma CompletedExpiryTime(p: Props, env: Env)
    ensures PhpValues.Get(Completed(p, env), "expiryTime") == ExpiryTimeOf(p, env.now)
  {
    var p1 := WithCreation(p, env.now);
    var p2 := WithExpiry(p1, env.now);
    var p3 := WithExpiryString(p2, env);
    WithCreationGet(p, env.now, "expiryTime");
    WithCreationGet(p, env.now, "lease_duration");
    assert ExpiryTimeOf(p1, env.now) == ExpiryTimeOf(p, env.now);
    WithExpiryGet(p1, env.now, "expiryTime");
    WithExpiryStringGet(p2, env, "expiryTime");
    SetGet(p3, "now", Int(env.now), "expiryTime");
  }

  lemma CompletedExpiryString(p: Props, env: Env)
    ensures PhpValues.Get(Completed(p, env), "expiryString") == ExpiryStringOf(p, env)
  {
    var p1 := WithCreation(p, env.now);
    var p2 := WithExpiry(p1, env.now);
    var p3 := WithExpiryString(p2, env);
    WithCreationGet(p, env.now, "expiryTime");
    WithCreationGet(p, env.now, "lease_duration");
    WithCreationGet(p, env.now, "expiryString");
    assert ExpiryTimeOf(p1, env.now) == ExpiryTimeOf(p, env.now);
    WithExpiryGet(p1, env.now, "expiryTime");
    WithExpiryGet(p1, env.now, "expiryString");
    assert PhpValues.Get(p2, "expiryTime") == ExpiryTimeOf(p, env.now);
    assert PhpValues.Get(p2, "expiryString") == PhpValues.Get(p, "expiryString");
    WithExpiryStringGet(p2, env, "expiryString");
    SetGet(p3, "now", Int(env.now), "expiryString");
  }

  /**
   * Every property of a completed table: the creation time defaults to now,
   * the expiry time to now plus the lease when there is a lease, the expiry
   * string to the formatted expiry time when there is one, `now` is always
   * the construction time, and nothing else is touched.
   */
  lemma CompletedGet(p: Props, env: Env, k: string)
    ensures PhpValues.Get(Completed(p, env), k) ==
      if k == "now" then Int(env.now)
      else if k == "creationTime" then CreationTimeOf(p, env.now)
      else if k == "expiryTime" then ExpiryTimeOf(p, env.now)
      else if k == "expiryString" then ExpiryStringOf(p, env)
      else PhpValues.Get(p, k)
  {
    if k == "now" {
      CompletedNow(p, env);
    } else if k == "creationTime" {
      CompletedCreationTime(p, env);
    } else if k == "expiryTime" {
      CompletedExpiryTime(p, env);
    } else if k == "expiryString" {
      CompletedExpiryString(p, env);
    } else {
      CompletedOther(p, env, k);
    }
  }

  /**
   * A token built from a server answer: every answered property is kept,
   * the timing properties default as `CompletedGet` states.
   */
  lemma TokenOfGet(data: Value, env: Env, k: string)
    requires NoDup(ObjectVars(data))
    ensures var vars := ObjectVars(data);
      TokenOf(data, env).Attr(k) ==
      if k == "now" then Int(env.now)
      else if k == "creationTime" then CreationTimeOf(vars, env.now)
      else if k == "expiryTime" then ExpiryTimeOf(vars, env.now)
      else if k == "expiryString" then ExpiryStringOf(vars, env)
      else PhpValues.Get(vars, k)
  {
    var p := Fields(data);
    var vars := ObjectVars(data);
    CompletedGet(p, env, k);
    if k == "creationTime" {
      FieldsGet(data, "creationTime");
    } else if k == "expiryTime" || k == "expiryString" {
      FieldsGet(data, "expiryTime");
      FieldsGet(data, "lease_duration");
      assert ExpiryTimeOf(p, env.now) == ExpiryTimeOf(vars, env.now);
      if k == "expiryString" {
        FieldsGet(data, "expiryString");
      }
    } else if k != "now" {
      FieldsGet(data, k);
    }
  }

  /** A table whose timing properties need no defaults: what every constructed token holds. */
  predicate Settled(p: Props)
  {
    && Isset(p, "creationTime")
    && (Isset(p, "lease_duration") ==> Isset(p, "expiryTime"))
    && (Isset(p, "expiryTime") ==> Isset(p, "expiryString"))
  }

  lemma CompletedNoDup(p: Props, env: Env)
    requires NoDup(p)
    ensures NoDup(Completed(p, env))
  {
    var p1 := WithCreation(p, env.now);
    var p2 := WithExpiry(p1, env.now);
    var p3 := WithExpiryString(p2, env);
    SetKeepsNoDup(p, "creationTime", Int(env.now));
    SetKeepsNoDup(p1, "expiryTime", Int(env.now + IntOf(PhpValues.Get(p1, "lease_duration"))));
    SetKeepsNoDup(p2, "expiryString", Str(env.dateAtom(IntOf(PhpValues.Get(p2, "expiryTime")))));
    SetKeepsNoDup(p3, "now", Int(env.now));
  }

  /** The declared properties have distinct names. */
  lemma DeclaredNoDup()
    ensures NoDup(DECLARED)
  {
    forall i, j | 0 <= i < j < |DECLARED| ensures DECLARED[i].name != DECLARED[j].name {
      var a, b := DECLARED[i].name, DECLARED[j].name;
      assert |a| != |b| || a[0] != b[0] || a[1] != b[1];
    }
  }

  /** Completing a table settles it. */
  lemma CompletedSettled(p: Props, env: Env)
    ensures Settled(Completed(p, env))
  {
    CompletedCreationTime(p, env);
    CompletedOther(p, env, "lease_duration");
    CompletedExpiryTime(p, env);
    CompletedExpiryString(p, env);
  }

  /** Every constructed token has distinct property names and settled timing properties. */
  lemma TokenOfSettled(data: Value, env: Env)
    ensures NoDup(TokenOf(data, env).props) && Settled(TokenOf(data, env).props)
  {
    var p := Fields(data);
    DeclaredNoDup();
    AssignAllKeepsNoDup(DECLARED, ObjectVars(data));
    CompletedNoDup(p, env);
    CompletedSettled(p, env);
  }

  /** Rebuilding a token from a settled table keeps every property but `now`. */
  lemma RebuildSettled(vars: Props, env: Env, k: string)
    requires NoDup(vars) && Settled(vars)
    ensures TokenOf(Obj(vars), env).Attr(k) == if k == "now" then Int(env.now) else PhpValues.Get(vars, k)
  {
    TokenOfGet(Obj(vars), env, k);
  }

  /**
   * A token rebuilt from its own copy (as the cache hands it back in the same
   * process) keeps its original creation and expiry times and every other
   * property; only `now` moves to the time of rebuilding.
   */
  lemma TokenRebuild(data: Value, env1: Env, env2: Env, k: string)
    ensures var t := TokenOf(data, env1);
      TokenOf(Obj(t.props), env2).Attr(k) == if k == "now" then Int(env2.now) else t.Attr(k)
  {
    TokenOfSettled(data, env1);
    RebuildSettled(TokenOf(data, env1).props, env2, k);
  }

  /**
   * A token read back from the cache file by another process (its JSON
   * encoding decoded again) keeps every property up to that round trip;
   * only `now` moves to the time of rebuilding.
   */
  lemma TokenRebuildFromFile(data: Value, env1: Env, env2: Env, k: string)
    ensures var t := TokenOf(data, env1);
      TokenOf(JsonRoundTrip(Obj(t.props)), env2).Attr(k) ==
      if k == "now" then Int(env2.now) else JsonRoundTrip(t.Attr(k))
  {
    var t := TokenOf(data, env1);
    var vars := JsonRoundTripProps(t.props);
    assert JsonRoundTrip(Obj(t.props)) == Obj(vars);
    TokenOfSettled(data, env1);
    JsonRoundTripSettled(t.props);
    RebuildSettled(vars, env2, k);
    JsonRoundTripGet(t.props, k);
  }

  /** The JSON round trip keeps a settled table settled. */
  lemma JsonRoundTripSettled(p: Props)
    requires NoDup(p) && Settled(p)
    ensures NoDup(JsonRoundTripProps(p)) && Settled(JsonRoundTripProps(p))
  {
    JsonRoundTripNoDup(p);
    JsonRoundTripGet(p, "creationTime");
    JsonRoundTripGet(p, "lease_duration");
    JsonRoundTripGet(p, "expiryTime");
    JsonRoundTripGet(p, "expiryString");
  }

  /**
   * A token granted with a lease of `lease` seconds and no expiry time of its
   * own expires `lease` seconds after it was built, and is not yet expired
   * then exactly when the lease exceeds the five-second margin.
   */
  lemma GrantedLifetime(data: Value, env: Env, lease: int)
    requires NoDup(ObjectVars(data))
    requires PhpValues.Get(ObjectVars(data), "lease_duration") == Int(lease)
    requires !Isset(ObjectVars(data), "expiryTime")
    ensures TokenOf(data, env).Attr("expiryTime") == Int(env.now + lease)
    ensures !TokenOf(data, env).IsExpired(env.now) <==> lease > EXPIRY_MARGIN
  {
    TokenOfGet(data, env, "expiryTime");
  }

  /** Two tokens that differ only in the hidden middle of `client_token` give the same info string. */
  lemma InfoHidesToken(t: Token, env: Env, a: string, b: string)
    requires |a| >= 6 && |b| >= 6
    requires a[..3] == b[..3] && a[|a| - 3..] == b[|b| - 3..]
    ensures Token(Set(t.props, "client_token", Str(a))).Info(env) ==
            Token(Set(t.props, "client_token", Str(b))).Info(env)
  {
    var ta := Token(Set(t.props, "client_token", Str(a)));
    var tb := Token(Set(t.props, "client_token", Str(b)));
    SetGet(t.props, "client_token", Str(a), "client_token");
    SetGet(t.props, "client_token", Str(b), "client_token");
    assert Masked(StrOf(ta.Attr("client_token"))) == Masked(StrOf(tb.Attr("client_token")));
    SetGet(t.props, "client_token", Str(a), "creationTime");
    SetGet(t.props, "client_token", Str(b), "creationTime");
    SetGet(t.props, "client_token", Str(a), "expiryString");
    SetGet(t.props, "client_token", Str(b), "expiryString");
    SetGet(t.props, "client_token", Str(a), "renewable");
    SetGet(t.props, "client_token", Str(b), "renewable");
    SetGet(t.props, "client_token", Str(a), "policies");
    SetGet(t.props, "client_token", Str(b), "policies");
  }
}
