/**
 * The secret provider: a vault and a path, and the secret fetched from that
 * path on the first `get`. The provider keeps whatever the first fetch
 * brought, a Secret or the exception the vault threw, and never asks the
 * vault again.
 *
 * The vault's answer to `getSecret($path)` is given to each `get` as
 * `answer`; it is consulted only while nothing has been fetched.
 */
module SecretProviders {
  import opened PhpValues
  import opened Commons
  import opened Secrets

  const VAULT_NULL := Raise("Vault cannot be NULL.", VAULT_ERR_NULL)
  const PATH_NULL := Raise("Path cannot be NULL.", VAULT_ERR_NULL)

  /** What `get` throws once a fetch has failed. */
  function NoSuchSecret(path: string): VaultError
  {
    Raise("No such secret: " + path, VAULT_ERR_NOT_FOUND)
  }

  /** What the provider's `$secret` holds: nothing yet, the Secret fetched, or the exception caught. */
  datatype Slot = Empty | Held(secret: Secret) | Caught(error: VaultError)

  /** `$secret` after `loadSecret()`: an empty slot takes the vault's answer, an occupied one is kept. */
  function Loaded(slot: Slot, answer: Result<Secret>): (r: Slot)
    ensures !r.Empty?
    ensures !slot.Empty? ==> r == slot
  {
    if !slot.Empty? then slot
    else match answer
      case Success(s) => Held(s)
      case Failure(e) => Caught(e)
  }

  /**
   * What `get($key)` returns or throws: the exception of a fetch that fails
   * now is rethrown; afterwards a held Secret is read, and a caught
   * exception turns into "No such secret".
   */
  function Answer(slot: Slot, answer: Result<Secret>, key: string, path: string): Result<Value>
  {
    if slot.Empty? && answer.Failure? then Failure(answer.error)
    else match Loaded(slot, answer)
      case Held(s) => Success(s.Get(key))
      case _ => Failure(NoSuchSecret(path))
  }

  /** One call of `get`: the key asked for and what the vault would answer at that moment. */
  datatype Call = Call(key: string, answer: Result<Secret>)

  /** The results of successive `get` calls on one provider, starting from `slot`. */
  function Replay(slot: Slot, calls: seq<Call>, path: string): (rs: seq<Result<Value>>)
    ensures |rs| == |calls|
    decreases calls
  {
    if calls == [] then []
    else [Answer(slot, calls[0].answer, calls[0].key, path)] + Replay(Loaded(slot, calls[0].answer), calls[1..], path)
  }

  /**
   * The vault is asked at most once: two runs of the same keys agree
   * whatever the vault would answer later, and once something is held the
   * vault's answers do not matter at all.
   */
  lemma {:induction false} AskedOnce(slot: Slot, calls: seq<Call>, others: seq<Call>, path: string)
    requires |calls| == |others|
    requires forall i :: 0 <= i < |calls| ==> calls[i].key == others[i].key
    requires slot.Empty? && calls != [] ==> calls[0].answer == others[0].answer
    ensures Replay(slot, calls, path) == Replay(slot, others, path)
    decreases calls
  {
    if calls != [] {
      assert Loaded(slot, calls[0].answer) == Loaded(slot, others[0].answer);
      AskedOnce(Loaded(slot, calls[0].answer), calls[1..], others[1..], path);
    }
  }

  /** Once a Secret is held, every `get` reads its key from that Secret. */
  lemma {:induction false} HeldReads(s: Secret, calls: seq<Call>, path: string)
    ensures forall i :: 0 <= i < |calls| ==> Replay(Held(s), calls, path)[i] == Success(s.Get(calls[i].key))
  {
    if calls != [] {
      HeldReads(s, calls[1..], path);
    }
  }

  /** Once an exception is caught, every `get` throws "No such secret". */
  lemma {:induction false} CaughtSticks(e: VaultError, calls: seq<Call>, path: string)
    ensures forall i :: 0 <= i < |calls| ==> Replay(Caught(e), calls, path)[i] == Failure(NoSuchSecret(path))
  {
    if calls != [] {
      CaughtSticks(e, calls[1..], path);
    }
  }

  /**
   * A fresh provider: when the first fetch succeeds every `get` reads the
   * fetched Secret; when it fails the first `get` throws the vault's
   * exception and every later one "No such secret".
   */
  lemma FreshReplay(calls: seq<Call>, path: string)
    requires calls != []
    ensures var rs := Replay(Empty, calls, path);
      match calls[0].answer
      case Success(s) => forall i :: 0 <= i < |calls| ==> rs[i] == Success(s.Get(calls[i].key))
      case Failure(e) => rs[0] == Failure(e) && forall i :: 1 <= i < |calls| ==> rs[i] == Failure(NoSuchSecret(path))
  {
    var rs := Replay(Empty, calls, path);
    var rest := Replay(Loaded(Empty, calls[0].answer), calls[1..], path);
    assert rs == [Answer(Empty, calls[0].answer, calls[0].key, path)] + rest;
    match calls[0].answer
    case Success(s) =>
      HeldReads(s, calls[1..], path);
      forall i | 1 <= i < |calls| ensures rs[i] == Success(s.Get(calls[i].key)) {
        assert rs[i] == rest[i - 1] && calls[1..][i - 1] == calls[i];
      }
    case Failure(e) =>
      CaughtSticks(e, calls[1..], path);
      forall i | 1 <= i < |calls| ensures rs[i] == Failure(NoSuchSecret(path)) {
        assert rs[i] == rest[i - 1];
      }
  }

  class SecretProvider {
    /** The path as given; "No such secret" shows its string form. */
    const path: Value
    var slot: Slot
    /** How often the vault has been asked. */
    ghost var asked: nat

    /** The vault has been asked once exactly when something is held. */
    ghost predicate Valid()
      reads this
    {
      asked == if slot.Empty? then 0 else 1
    }

    /** The constructor once the NULL checks have passed: nothing is fetched yet. */
    constructor(path: Value)
      ensures Valid() && this.path == path && slot == Empty
    {
      this.path := path;
      slot := Empty;
      asked := 0;
    }

    /** `loadSecret()`: asks the vault only while nothing is held; a caught exception is kept and rethrown. */
    method LoadSecret(answer: Result<Secret>) returns (err: Option<VaultError>)
      requires Valid()
      modifies this
      ensures Valid()
      ensures slot == Loaded(old(slot), answer)
      ensures err == if old(slot).Empty? && answer.Failure? then Some(answer.error) else None
    {
      if slot.Empty? {
        asked := asked + 1;
        match answer
        case Success(s) =>
          slot := Held(s);
        case Failure(e) =>
          slot := Caught(e);
          return Some(e);
      }
      return None;
    }

    /** `get($key)`: fetch if nothing is held, then read the Secret or throw "No such secret". */
    method Get(key: string, answer: Result<Secret>) returns (r: Result<Value>)
      requires Valid()
      modifies this
      ensures Valid()
      ensures slot == Loaded(old(slot), answer) && r == Answer(old(slot), answer, key, StrOf(path))
    {
      if slot.Empty? {
        var err := LoadSecret(answer);
        if err.Some? {
          return Failure(err.value);
        }
      }
      if slot.Held? {
        return Success(slot.secret.Get(key));
      }
      return Failure(NoSuchSecret(StrOf(path)));
    }
  }

  /**
   * `new SecretProvider($vault, $path)`: a missing vault, then a loosely
   * NULL path, is refused. `hasVault` says whether a vault object is given.
   */
  method NewSecretProvider(hasVault: bool, path: Value) returns (r: Result<SecretProvider>)
    ensures !hasVault ==> r == Failure(VAULT_NULL)
    ensures hasVault && LooseNull(path) ==> r == Failure(PATH_NULL)
    ensures r.Success? <==> hasVault && !LooseNull(path)
    ensures r.Success? ==> fresh(r.value) && r.value.Valid() && r.value.path == path && r.value.slot == Empty
  {
    if !hasVault {
      return Failure(VAULT_NULL);
    }
    if LooseNull(path) {
      return Failure(PATH_NULL);
    }
    var p := new SecretProvider(path);
    return Success(p);
  }
}
