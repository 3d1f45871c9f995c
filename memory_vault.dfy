/**
 * The memory vault: its secrets are given in the configuration under
 * `secrets` as a table from path to data, and never change.
 */
module MemoryVaults {
  import opened PhpValues
  import opened Commons
  import opened Secrets
  import opened BaseVaults
  import opened SecretTables

  /**
   * The entries the constructor iterates: the `secrets` member of an object
   * or key of an array when it is set; nothing otherwise.
   */
  function SecretEntries(config: Value): Props
  {
    Entries(PhpValues.Get(Entries(config), "secrets"))
  }

  class MemoryVault {
    const base: BaseVault
    const secrets: map<string, Secret>
    /** The configured entries the table was built from. */
    ghost const source: Props

    ghost predicate Valid()
    {
      secrets == TableOf(source)
    }

    /** The constructor once the configuration is known not to be empty: the table build. */
    constructor(source: Props, logger: LoggerKind)
      ensures Valid() && this.source == source
      ensures fresh(base) && base.shortName == "MemoryVault" && base.logger == logger
    {
      base := new BaseVault("MemoryVault", logger);
      this.source := source;
      var table := BuildTable(source);
      secrets := table;
    }

    /**
     * `getSecret($path)`: the Secret filed under a configured path, which
     * reads that path's data; "Secret not available" for any other path.
     */
    method GetSecret(path: string) returns (r: Result<Secret>)
      requires Valid()
      ensures r.Success? <==> path in Names(source)
      ensures r.Failure? ==> r.error == NOT_AVAILABLE
      ensures r.Success? && NoDup(source) ==> r.value == Wrap(PhpValues.Get(source, path))
    {
      FindTable(source, path);
      if path !in secrets {
        return Failure(NOT_AVAILABLE);
      }
      return Success(secrets[path]);
    }
  }

  /**
   * `new MemoryVault($config, $logger)`: a loosely NULL configuration is
   * refused; otherwise the vault holds the configured `secrets`, or none.
   */
  method NewMemoryVault(config: Value, logger: LoggerKind) returns (r: Result<MemoryVault>)
    ensures r.Failure? <==> LooseNull(config)
    ensures r.Failure? ==> r.error == CONFIG_MISSING
    ensures r.Success? ==> fresh(r.value) && r.value.Valid() && r.value.source == SecretEntries(config)
  {
    if LooseNull(config) {
      return Failure(CONFIG_MISSING);
    }
    var secrets := Arr([]);
    if config.Obj? && Field(config, "secrets") != Null {
      secrets := Field(config, "secrets");
    } else if config.Arr? && PhpValues.Get(config.entries, "secrets") != Null {
      secrets := PhpValues.Get(config.entries, "secrets");
    }
    var v := new MemoryVault(Entries(secrets), logger);
    return Success(v);
  }

  /** The first secret of the memory vault's test configuration. */
  const SAMPLE_SECRET: Props := [Prop("key-1", Str("value-1-1")), Prop("key-2", Str("value-1-2"))]

  /** The memory vault's test configuration, trimmed to one secret. */
  const SAMPLE_CONFIG: Value := Arr([Prop("secrets", Arr([Prop("path/to/secret1", Arr(SAMPLE_SECRET))]))])

  /** The configured secret is found, and reads back the values configured for its keys. */
  lemma SampleReads()
    ensures var es := SecretEntries(SAMPLE_CONFIG);
      Find(TableOf(es), "path/to/secret1").Success?
      && Find(TableOf(es), "path/to/secret1").value.Get("key-1") == Str("value-1-1")
      && Find(TableOf(es), "path/to/secret1").value.Get("key-2") == Str("value-1-2")
  {
    var es := SecretEntries(SAMPLE_CONFIG);
    assert es == [Prop("path/to/secret1", Arr(SAMPLE_SECRET))];
    assert Names(es)[0] == "path/to/secret1";
    FindTable(es, "path/to/secret1");
    assert PhpValues.Get(es, "path/to/secret1") == Arr(SAMPLE_SECRET);
    assert !IsList(SAMPLE_SECRET) by {
      assert |NatToString(0)| == 1;
      assert |SAMPLE_SECRET[0].name| == 5;
    }
    WrapReads(Arr(SAMPLE_SECRET), "key-1");
    WrapReads(Arr(SAMPLE_SECRET), "key-2");
    assert "key-2" != "key-1" by { assert "key-2"[4] == '2'; }
    assert PhpValues.Get(SAMPLE_SECRET, "key-1") == Str("value-1-1");
    assert PhpValues.Get(SAMPLE_SECRET, "key-2") == Str("value-1-2");
  }
}
