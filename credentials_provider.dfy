/**
 * The credentials provider: a secret provider that reads a username and a
 * password from the fetched secret, under keys that default to `username`
 * and `password`.
 */
module CredentialsProviders {
  import opened PhpValues
  import opened Commons
  import opened Secrets
  import opened SecretProviders
  import opened SecretTables

  const USERNAME := "username"
  const PASSWORD := "password"

  /** A key as the constructor settles it: a loosely NULL or blank key gives way to the default. */
  function KeyOrDefault(key: Value, default: string): string
  {
    if BlankValue(key) then default else StrOf(key)
  }

  /** A string that starts with a character `trim` keeps is not blank. */
  lemma NotBlank(s: string)
    requires s != [] && !IsTrimChar(s[0])
    ensures !Blank(s)
  {
  }

  /**
   * A string key is kept exactly when it is not blank (it is kept as given,
   * surrounding blanks included); a non-zero integer or `true` is kept as
   * its string form; NULL, false, 0, arrays and objects give way to the
   * default. A default that is not blank, as `username` and `password` are
   * not, makes the settled key never blank.
   */
  lemma KeyChoice(key: Value, default: string)
    requires !Blank(default)
    ensures key.Str? ==> KeyOrDefault(key, default) == if Blank(key.s) then default else key.s
    ensures key.Int? && key.i != 0 ==> KeyOrDefault(key, default) == IntToString(key.i)
    ensures key == Bool(true) ==> KeyOrDefault(key, default) == "1"
    ensures LooseNull(key) || key.Arr? || key.Obj? ==> KeyOrDefault(key, default) == default
    ensures !Blank(KeyOrDefault(key, default))
  {
    match key
    case Int(i) =>
      if i != 0 {
        IntNotBlank(i);
        assert KeyOrDefault(key, default) == IntToString(i);
      } else {
        assert KeyOrDefault(key, default) == default;
      }
    case Bool(b) =>
      if b {
        TrueKey(default);
      } else {
        assert KeyOrDefault(key, default) == default;
      }
    case Str(t) =>
    case _ =>
      assert BlankValue(key);
  }

  /** `true` is kept as "1", which is not blank. */
  lemma TrueKey(default: string)
    ensures KeyOrDefault(Bool(true), default) == "1" && !Blank("1") && !BlankValue(Bool(true))
  {
    assert StrOf(Bool(true)) == "1";
    assert !Blank("1") by { NotBlank("1"); }
    assert !BlankValue(Bool(true));
  }

  /** The string form of an integer is never blank. */
  lemma IntNotBlank(i: int)
    ensures !Blank(IntToString(i))
  {
    var d := NatToString(if i < 0 then -i else i);
    assert '0' <= d[0] <= '9';
    NotBlank(IntToString(i));
  }

  /** Neither default key is blank. */
  lemma DefaultsNotBlank()
    ensures !Blank(USERNAME) && !Blank(PASSWORD)
  {
    NotBlank(USERNAME);
    NotBlank(PASSWORD);
  }

  class CredentialsProvider {
    /** The secret provider this one extends. */
    const provider: SecretProvider
    const usernameKey: string
    const passwordKey: string

    /** The constructor once the parent's checks have passed. */
    constructor(provider: SecretProvider, usernameKey: Value, passwordKey: Value)
      ensures this.provider == provider
      ensures this.usernameKey == KeyOrDefault(usernameKey, USERNAME)
      ensures this.passwordKey == KeyOrDefault(passwordKey, PASSWORD)
    {
      this.provider := provider;
      var u := USERNAME;
      if !BlankValue(usernameKey) {
        u := StrOf(usernameKey);
      }
      var p := PASSWORD;
      if !BlankValue(passwordKey) {
        p := StrOf(passwordKey);
      }
      this.usernameKey := u;
      this.passwordKey := p;
    }

    /** `getUsername()`: `get` with the username key. */
    method GetUsername(answer: Result<Secret>) returns (r: Result<Value>)
      requires provider.Valid()
      modifies provider
      ensures provider.Valid()
      ensures provider.slot == Loaded(old(provider.slot), answer)
      ensures r == Answer(old(provider.slot), answer, usernameKey, StrOf(provider.path))
    {
      r := provider.Get(usernameKey, answer);
    }

    /** `getPassword()`: `get` with the password key. */
    method GetPassword(answer: Result<Secret>) returns (r: Result<Value>)
      requires provider.Valid()
      modifies provider
      ensures provider.Valid()
      ensures provider.slot == Loaded(old(provider.slot), answer)
      ensures r == Answer(old(provider.slot), answer, passwordKey, StrOf(provider.path))
    {
      r := provider.Get(passwordKey, answer);
    }
  }

  /**
   * `new CredentialsProvider($vault, $path, $usernameKey, $passwordKey)`:
   * the parent's NULL checks, then the keys settled.
   */
  method NewCredentialsProvider(hasVault: bool, path: Value, usernameKey: Value, passwordKey: Value)
    returns (r: Result<CredentialsProvider>)
    ensures !hasVault ==> r == Failure(VAULT_NULL)
    ensures hasVault && LooseNull(path) ==> r == Failure(PATH_NULL)
    ensures r.Success? <==> hasVault && !LooseNull(path)
    ensures r.Success? ==>
      fresh(r.value) && fresh(r.value.provider) && r.value.provider.Valid()
      && r.value.provider.path == path && r.value.provider.slot == Empty
      && r.value.usernameKey == KeyOrDefault(usernameKey, USERNAME)
      && r.value.passwordKey == KeyOrDefault(passwordKey, PASSWORD)
  {
    var parent := NewSecretProvider(hasVault, path);
    if parent.Failure? {
      return Failure(parent.error);
    }
    var c := new CredentialsProvider(parent.value, usernameKey, passwordKey);
    return Success(c);
  }

  /** The second secret of the credentials test: custom keys `username-2` and `password-2`. */
  const CUSTOM: Props := [Prop("username-2", Str("username2")), Prop("password-2", Str("password2"))]

  /** A fresh provider reads the custom secret's username and password under the custom keys. */
  lemma CustomKeysRead(path: string)
    ensures var s := Wrap(Arr(CUSTOM));
      Answer(Empty, Success(s), "username-2", path) == Success(Str("username2"))
      && Answer(Empty, Success(s), "password-2", path) == Success(Str("password2"))
  {
    CustomSecret();
    var s := Wrap(Arr(CUSTOM));
    assert Loaded(Empty, Success(s)) == Held(s);
  }

  /** The custom keys are kept. */
  lemma CustomKeys()
    ensures KeyOrDefault(Str("username-2"), USERNAME) == "username-2"
    ensures KeyOrDefault(Str("password-2"), PASSWORD) == "password-2"
  {
    NotBlank("username-2");
    NotBlank("password-2");
    DefaultsNotBlank();
    KeyChoice(Str("username-2"), USERNAME);
    KeyChoice(Str("password-2"), PASSWORD);
  }

  /** The custom secret holds the test's username and password under the custom keys. */
  lemma CustomSecret()
    ensures Wrap(Arr(CUSTOM)).Get("username-2") == Str("username2")
    ensures Wrap(Arr(CUSTOM)).Get("password-2") == Str("password2")
  {
    assert !IsList(CUSTOM) by {
      assert |NatToString(0)| == 1;
      assert |CUSTOM[0].name| == 10;
    }
    WrapReads(Arr(CUSTOM), "username-2");
    WrapReads(Arr(CUSTOM), "password-2");
    assert "password-2" != "username-2" by { assert "password-2"[0] == 'p'; }
    assert PhpValues.Get(CUSTOM, "username-2") == Str("username2");
    assert PhpValues.Get(CUSTOM, "password-2") == Str("password2");
  }
}
