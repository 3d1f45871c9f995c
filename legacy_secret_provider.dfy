/**
 * The secret provider of the older `Vault` namespace: the same lazy fetch
 * that keeps a Secret or the caught exception, with a vault and a path
 * whose types the constructor's signature already fixes (a vault object,
 * a string).
 */
module LegacySecretProviders {
  import opened PhpValues
  import opened Commons
  import opened Secrets
  import opened SecretProviders

  class SecretProvider {
    const path: string
    var slot: Slot
    /** How often the vault has been asked. */
    ghost var asked: nat

    /** The vault has been asked once exactly when something is held. */
    ghost predicate Valid()
      reads this
    {
      asked == if slot.Empty? then 0 else 1
    }

    /** The constructor once the path check has passed: nothing is fetched yet. */
    constructor(path: string)
      ensures Valid() && this.path == path && slot == Empty
    {
      this.path := path;
      slot := Empty;
      asked := 0;
    }

    /** `loadSecret()`: asks the vault only while nothing is held; a caught exception is kept and rethrown. */
    method LoadSecret(answer: Result<Secret>) returns (err: Option<VaultError>)
      requires Valid()
      modifies this
      ensures Valid()
      ensures slot == Loaded(old(slot), answer)
      ensures err == if old(slot).Empty? && answer.Failure? then Some(answer.error) else None
    {
      if slot.Empty? {
        asked := asked + 1;
        match answer
        case Success(s) =>
          slot := Held(s);
        case Failure(e) =>
          slot := Caught(e);
          return Some(e);
      }
      return None;
    }

    /** `get($key)`: fetch if nothing is held, then read the Secret or throw "No such secret". */
    method Get(key: string, answer: Result<Secret>) returns (r: Result<Value>)
      requires Valid()
      modifies this
      ensures Valid()
      ensures slot == Loaded(old(slot), answer) && r == Answer(old(slot), answer, key, path)
    {
      if slot.Empty? {
        var err := LoadSecret(answer);
        if err.Some? {
          return Failure(err.value);
        }
      }
      if slot.Held? {
        return Success(slot.secret.Get(key));
      }
      return Failure(NoSuchSecret(path));
    }
  }

  /**
   * `new SecretProvider(Vault $vault, string $path)`: the vault cannot be
   * NULL by its type, so only the empty path, the one string loosely equal
   * to NULL, is refused.
   */
  method NewSecretProvider(path: string) returns (r: Result<SecretProvider>)
    ensures r.Failure? <==> path == ""
    ensures r.Failure? ==> r.error == PATH_NULL
    ensures r.Success? ==> fresh(r.value) && r.value.Valid() && r.value.path == path && r.value.slot == Empty
  {
    if LooseNull(Str(path)) {
      return Failure(PATH_NULL);
    }
    var p := new SecretProvider(path);
    return Success(p);
  }
}
