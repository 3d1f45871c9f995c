/**
 * The configuration of the Hashicorp vault client: defaults, overridden by
 * whatever the caller supplies, then three required strings checked.
 */
module Configs {
  import opened PhpValues
  import opened Commons

  /**
   * The property table after the defaults are assigned: the declared
   * properties in declaration order, `uri`, `roleId` and `secretId` still NULL.
   */
  const DEFAULTS: Props := [
    Prop("uri", Null), Prop("roleId", Null), Prop("secretId", Null),
    Prop("timeout", Int(5)), Prop("verifyCertificate", Bool(false)), Prop("debug", Bool(false)),
    Prop("cacheFile", Str("/tmp/vault_client.cache")), Prop("renewTokens", Bool(true)),
    Prop("renewalPeriod", Int(300)), Prop("maxTtl", Int(0))]

  /** The default of each configuration key, NULL for the three required ones and for unknown keys. */
  function Default(k: string): Value
  {
    if k == "timeout" then Int(5)
    else if k == "verifyCertificate" then Bool(false)
    else if k == "debug" then Bool(false)
    else if k == "cacheFile" then Str("/tmp/vault_client.cache")
    else if k == "renewTokens" then Bool(true)
    else if k == "renewalPeriod" then Int(300)
    else if k == "maxTtl" then Int(0)
    else Null
  }

  /** Each entry of the default table holds the default of its name. */
  lemma DefaultsVals()
    ensures forall i :: 0 <= i < |DEFAULTS| ==> DEFAULTS[i].val == Default(DEFAULTS[i].name)
  {
  }

  /** A key the configuration does not declare has no default. */
  lemma DefaultsAbsent(k: string)
    requires k !in Names(DEFAULTS)
    ensures Default(k) == Null
  {
    assert Names(DEFAULTS)[3] == "timeout";
    assert Names(DEFAULTS)[4] == "verifyCertificate";
    assert Names(DEFAULTS)[5] == "debug";
    assert Names(DEFAULTS)[6] == "cacheFile";
    assert Names(DEFAULTS)[7] == "renewTokens";
    assert Names(DEFAULTS)[8] == "renewalPeriod";
    assert Names(DEFAULTS)[9] == "maxTtl";
  }

  /** The default table holds exactly the defaults. */
  lemma DefaultsGet(k: string)
    ensures PhpValues.Get(DEFAULTS, k) == Default(k)
  {
    LookupFound(DEFAULTS, k);
    if k in Names(DEFAULTS) {
      DefaultsVals();
    } else {
      DefaultsAbsent(k);
    }
  }

  /** The table after the supplied keys are copied over the defaults. */
  function Configured(data: Value): Props
  {
    AssignAll(DEFAULTS, Entries(data))
  }

  /** `check($key, ...)` passes: the value is a string that is not blank. */
  predicate ValidField(v: Value)
  {
    v.Str? && !Blank(v.s)
  }

  /** The exception `check($key, $message)` throws. */
  function CheckError(key: string, message: string): (e: VaultError)
    ensures e.code == VAULT_ERR_CONFIG && e.details == Null
  {
    Raise(message + " (" + key + ")", VAULT_ERR_CONFIG)
  }

  const URI_ERROR := CheckError("uri", "Vault URI not set")
  const ROLE_ERROR := CheckError("roleId", "Vault AppRole ID not set")
  const SECRET_ERROR := CheckError("secretId", "Vault Secret ID not set")

  /** `check('roleId', ...)` then `check('secretId', ...)`: the first failure, if any. */
  function CheckCredentials(p: Props): (r: Option<VaultError>)
    ensures r.None? <==> ValidField(PhpValues.Get(p, "roleId")) && ValidField(PhpValues.Get(p, "secretId"))
    ensures r.Some? ==> r.value.code == VAULT_ERR_CONFIG
  {
    if !ValidField(PhpValues.Get(p, "roleId")) then Some(ROLE_ERROR)
    else if !ValidField(PhpValues.Get(p, "secretId")) then Some(SECRET_ERROR)
    else None
  }

  /** The three checks of the constructor, in order: uri, then the credentials. */
  function Validate(p: Props): (r: Option<VaultError>)
    ensures r.None? <==> ValidField(PhpValues.Get(p, "uri")) && CheckCredentials(p).None?
    ensures r.Some? ==> r.value.code == VAULT_ERR_CONFIG
  {
    if !ValidField(PhpValues.Get(p, "uri")) then Some(URI_ERROR) else CheckCredentials(p)
  }

  /** `new Config($data)`: the resulting table, or the exception thrown. */
  function ConfigOf(data: Value): Result<Props>
  {
    if LooseNull(data) then Failure(Raise("Configuration must not be empty", VAULT_ERR_CONFIG_EMPTY))
    else match Validate(Configured(data))
      case Some(e) => Failure(e)
      case None => Success(Configured(data))
  }

  /** A configuration object; its fields are the entries of `props`. */
  class Config {
    var props: Props

    constructor(props: Props)
      ensures this.props == props
    {
      this.props := props;
    }

    /** `$config->k`. */
    function Attr(k: string): Value
      reads this
    {
      PhpValues.Get(props, k)
    }

    /** `setVaultCredentials($roleId, $secretId)`: assign both, then check both; the fields stay assigned when a check fails. */
    method SetVaultCredentials(roleId: Value, secretId: Value) returns (err: Option<VaultError>)
      modifies this
      ensures props == PhpValues.Set(PhpValues.Set(old(props), "roleId", roleId), "secretId", secretId)
      ensures err == CheckCredentials(props)
    {
      props := PhpValues.Set(props, "roleId", roleId);
      props := PhpValues.Set(props, "secretId", secretId);
      err := CheckCredentials(props);
    }
  }

  /** The constructor: the NULL guard, the copy loop over the supplied keys, then the checks. */
  method NewConfig(data: Value) returns (r: Result<Config>)
    ensures r.Failure? <==> ConfigOf(data).Failure?
    ensures r.Failure? ==> r.error == ConfigOf(data).error
    ensures r.Success? ==> fresh(r.value) && r.value.props == ConfigOf(data).value
  {
    if LooseNull(data) {
      return Failure(Raise("Configuration must not be empty", VAULT_ERR_CONFIG_EMPTY));
    }
    var p := CopyOverrides(data);
    var err := Validate(p);
    if err.Some? {
      return Failure(err.value);
    }
    var c := new Config(p);
    return Success(c);
  }

  /** `foreach ($data AS $key => $value) $this->$key = $value;` over the defaults. */
  method CopyOverrides(data: Value) returns (p: Props)
    ensures p == Configured(data)
  {
    var entries := Entries(data);
    p := DEFAULTS;
    var i := 0;
    while i < |entries|
      invariant 0 <= i <= |entries|
      invariant p == AssignAll(DEFAULTS, entries[..i])
    {
      assert entries[..i + 1][..i] == entries[..i];
      p := PhpValues.Set(p, entries[i].name, entries[i].val);
      i := i + 1;
    }
    assert entries[..|entries|] == entries;
  }

  /** Exactly a loosely NULL configuration is refused as empty. */
  lemma ConfigEmpty(data: Value)
    ensures ConfigOf(data).Failure? && ConfigOf(data).error.code == VAULT_ERR_CONFIG_EMPTY <==> LooseNull(data)
  {
  }

  /**
   * A configuration is accepted exactly when it is not empty and `uri`,
   * `roleId` and `secretId`, after the overrides, are non-blank strings;
   * otherwise the first of them that fails names the error.
   */
  lemma ConfigAccepted(data: Value)
    ensures var p := Configured(data);
      ConfigOf(data).Success? <==>
        !LooseNull(data) && ValidField(PhpValues.Get(p, "uri"))
        && ValidField(PhpValues.Get(p, "roleId")) && ValidField(PhpValues.Get(p, "secretId"))
    ensures var p := Configured(data);
      !LooseNull(data) && !ValidField(PhpValues.Get(p, "uri")) ==> ConfigOf(data) == Failure(URI_ERROR)
    ensures var p := Configured(data);
      !LooseNull(data) && ValidField(PhpValues.Get(p, "uri")) && !ValidField(PhpValues.Get(p, "roleId"))
      ==> ConfigOf(data) == Failure(ROLE_ERROR)
    ensures var p := Configured(data);
      (!LooseNull(data) && ValidField(PhpValues.Get(p, "uri")) && ValidField(PhpValues.Get(p, "roleId"))
       && !ValidField(PhpValues.Get(p, "secretId"))) ==> ConfigOf(data) == Failure(SECRET_ERROR)
  {
  }

  /** Every supplied key overrides its default; every other key keeps its default. */
  lemma ConfiguredGet(data: Value, k: string)
    requires NoDup(Entries(data))
    ensures PhpValues.Get(Configured(data), k) ==
      if k in Names(Entries(data)) then PhpValues.Get(Entries(data), k) else Default(k)
  {
    AssignAllLookup(DEFAULTS, Entries(data), k);
    LookupFound(Entries(data), k);
    DefaultsGet(k);
  }

  /** `setVaultCredentials` changes the two credentials and no other field. */
  lemma CredentialsGet(p: Props, roleId: Value, secretId: Value, k: string)
    ensures PhpValues.Get(PhpValues.Set(PhpValues.Set(p, "roleId", roleId), "secretId", secretId), k) ==
      if k == "roleId" then roleId else if k == "secretId" then secretId else PhpValues.Get(p, k)
  {
    SetLookup(PhpValues.Set(p, "roleId", roleId), "secretId", secretId, k);
    SetLookup(p, "roleId", roleId, k);
  }
}
