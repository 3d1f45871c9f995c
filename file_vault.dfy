/**
 * The file vault: its secrets live in a JSON file under `secrets`, read on
 * the first `getSecret` and again on every later one while the table it
 * read is empty.
 *
 * Each read is given as `contents`: None when `file_get_contents` fails,
 * otherwise the document `json_decode` makes of the file (NULL when the
 * file is no JSON).
 */
module FileVaults {
  import opened PhpValues
  import opened Commons
  import opened Secrets
  import opened BaseVaults
  import opened SecretTables

  const FILENAME_MISSING := Raise("Configuration must contain filename", VAULT_ERR_CONFIG)
  const FILE_MISSING := Raise("Cannot find secrets file.", VAULT_ERR_FILE_NOT_FOUND)

  /** The entries `load()` iterates: the `secrets` member of a decoded object when it is set; nothing otherwise. */
  function FileEntries(doc: Value): Props
  {
    if doc.Obj? && Field(doc, "secrets") != Null then Entries(Field(doc, "secrets")) else []
  }

  class FileVault {
    const base: BaseVault
    const filename: Value
    /** The table; empty both before the first read and after one that found nothing (PHP's `== NULL` holds for both). */
    var secrets: map<string, Secret>
    /** The entries the table was last built from. */
    ghost var source: Props

    ghost predicate Valid()
      reads this
    {
      secrets == TableOf(source)
    }

    /** The constructor once the configuration has yielded a file name: nothing is read yet. */
    constructor(filename: Value, logger: LoggerKind)
      ensures Valid() && this.filename == filename && secrets == map[]
      ensures fresh(base) && base.shortName == "FileVault" && base.logger == logger
    {
      base := new BaseVault("FileVault", logger);
      this.filename := filename;
      secrets := map[];
      source := [];
    }

    /**
     * `load()`: a table that holds secrets is kept; an empty one is rebuilt
     * from the file, and left empty with "Cannot find secrets file." when
     * the file cannot be read.
     */
    method Load(contents: Option<Value>) returns (err: Option<VaultError>)
      requires Valid()
      modifies this
      ensures Valid()
      ensures |old(secrets)| > 0 ==> secrets == old(secrets) && source == old(source) && err.None?
      ensures |old(secrets)| == 0 && contents.None? ==> secrets == map[] && err == Some(FILE_MISSING)
      ensures |old(secrets)| == 0 && contents.Some? ==> source == FileEntries(contents.value) && err.None?
    {
      if |secrets| == 0 {
        secrets := map[];
        source := [];
        if contents.None? {
          return Some(FILE_MISSING);
        }
        var doc := contents.value;
        var entries := [];
        if doc.Obj? && Field(doc, "secrets") != Null {
          entries := Entries(Field(doc, "secrets"));
        }
        var table := BuildTable(entries);
        secrets := table;
        source := entries;
      }
      return None;
    }

    /**
     * `getSecret($path)`: after the load, the Secret filed under a path of
     * the file, which reads that path's data; "Secret not available" for
     * any other path.
     */
    method GetSecret(path: string, contents: Option<Value>) returns (r: Result<Secret>)
      requires Valid()
      modifies this
      ensures Valid()
      ensures |old(secrets)| > 0 ==> secrets == old(secrets) && source == old(source)
      ensures |old(secrets)| == 0 && contents.None? ==> secrets == map[] && r == Failure(FILE_MISSING)
      ensures |old(secrets)| == 0 && contents.Some? ==> source == FileEntries(contents.value)
      ensures !(|old(secrets)| == 0 && contents.None?) ==>
        (r.Success? <==> path in Names(source))
        && (r.Failure? ==> r.error == NOT_AVAILABLE)
        && (r.Success? && NoDup(source) ==> r.value == Wrap(PhpValues.Get(source, path)))
    {
      var err := Load(contents);
      if err.Some? {
        return Failure(err.value);
      }
      FindTable(source, path);
      if path !in secrets {
        return Failure(NOT_AVAILABLE);
      }
      return Success(secrets[path]);
    }
  }

  /**
   * `new FileVault($config, $logger)`: a loosely NULL configuration is
   * refused as empty, one that is neither object nor array as lacking a
   * file name; otherwise the vault takes its `filename`.
   */
  method NewFileVault(config: Value, logger: LoggerKind) returns (r: Result<FileVault>)
    ensures r.Success? <==> !LooseNull(config) && (config.Obj? || config.Arr?)
    ensures LooseNull(config) ==> r == Failure(CONFIG_MISSING)
    ensures !LooseNull(config) && !config.Obj? && !config.Arr? ==> r == Failure(FILENAME_MISSING)
    ensures r.Success? ==>
      fresh(r.value) && r.value.Valid() && r.value.secrets == map[]
      && r.value.filename == PhpValues.Get(Entries(config), "filename")
  {
    if LooseNull(config) {
      return Failure(CONFIG_MISSING);
    }
    var filename;
    if config.Obj? {
      filename := Field(config, "filename");
    } else if config.Arr? {
      filename := PhpValues.Get(config.entries, "filename");
    } else {
      return Failure(FILENAME_MISSING);
    }
    var v := new FileVault(filename, logger);
    return Success(v);
  }
}
