/**
 * The vault factory: a configuration names a vault type and the
 * configuration to pass on; the type, trimmed and with its first letter
 * upper-cased, names the class `TgVault\<Type>\<Type>Vault` to instantiate.
 * The classes that exist are the three vaults of the library.
 */
module VaultFactories {
  import opened PhpValues
  import opened Commons
  import opened BaseVaults
  import opened Configs
  import opened Caches
  import opened HashicorpRules
  import opened HashicorpVaults
  import opened MemoryVaults
  import opened SecretTables
  import opened FileVaults

  const CONFIG_EMPTY := Raise("Vault configuration cannot be empty", VAULT_ERR_CONFIG_EMPTY)
  const CONFIG_SHAPE := Raise("Vault configuration must be object or array", VAULT_ERR_CONFIG_TYPE)
  const TYPE_EMPTY := Raise("Vault type cannot be empty", VAULT_ERR_TYPE_EMPTY)

  /** The exception for a type whose class does not exist. */
  function TypeNotFound(className: string): VaultError
  {
    Raise("Cannot find Vault instance: " + className, VAULT_ERR_TYPE_NOT_FOUND)
  }

  /** The vault classes of the library. */
  datatype Kind = FileKind | MemoryKind | HashicorpKind

  /** The type name each class is found under. */
  function KindName(k: Kind): string
  {
    match k
    case FileKind => "File"
    case MemoryKind => "Memory"
    case HashicorpKind => "Hashicorp"
  }

  /** `ucfirst` on one character: ASCII lower case to upper case. */
  function UpperChar(c: char): char
  {
    if 'a' <= c <= 'z' then (c as int - 32) as char else c
  }

  /** PHP's `ucfirst`. */
  function UcFirst(s: string): (r: string)
    ensures |r| == |s|
  {
    if s == [] then s else [UpperChar(s[0])] + s[1..]
  }

  /** `'TgVault\\'.$type.'\\'.$type.'Vault'`. */
  function ClassName(t: string): string
  {
    "TgVault\\" + t + "\\" + t + "Vault"
  }

  /** `class_exists($className)` over the library's vault classes, and which one it is. */
  function KnownClass(className: string): Option<Kind>
  {
    if className == ClassName("File") then Some(FileKind)
    else if className == ClassName("Memory") then Some(MemoryKind)
    else if className == ClassName("Hashicorp") then Some(HashicorpKind)
    else None
  }

  /** The class to instantiate and the configuration it receives. */
  datatype Construction = Construction(kind: Kind, config: Value)

  /** `createVault($type, $config)` up to the instantiation. */
  function CreateVault(vaultType: Value, config: Value): (r: Result<Construction>)
    ensures r.Success? ==> r.value.config == config
  {
    if BlankValue(vaultType) then Failure(TYPE_EMPTY)
    else
      var className := ClassName(UcFirst(Trim(StrOf(vaultType))));
      match KnownClass(className)
      case Some(k) => Success(Construction(k, config))
      case None => Failure(TypeNotFound(className))
  }

  /** `create($config)` up to the instantiation: `type` and `config` read from an object or an array. */
  function Create(config: Value): Result<Construction>
  {
    if LooseNull(config) then Failure(CONFIG_EMPTY)
    else if config.Obj? then CreateVault(Field(config, "type"), Field(config, "config"))
    else if config.Arr? then CreateVault(PhpValues.Get(config.entries, "type"), PhpValues.Get(config.entries, "config"))
    else Failure(CONFIG_SHAPE)
  }

  /** Different types name different classes. */
  lemma ClassNameInjective(a: string, b: string)
    requires ClassName(a) == ClassName(b)
    ensures a == b
  {
    var n := |"TgVault\\"|;
    assert |ClassName(a)| == 2 * |a| + 14 && |ClassName(b)| == 2 * |b| + 14;
    assert ClassName(a)[n..n + |a|] == a;
    assert ClassName(b)[n..n + |b|] == b;
  }

  /** The classes found are exactly the three vaults, each under its own type name. */
  lemma KnownClassIff(t: string, k: Kind)
    ensures KnownClass(ClassName(t)) == Some(k) <==> t == KindName(k)
  {
    if KnownClass(ClassName(t)) == Some(k) {
      ClassNameInjective(t, KindName(k));
    }
    if t == KindName(k) {
      assert "File" != "Memory" && "Memory" != "Hashicorp" && "File" != "Hashicorp" by {
        assert |"File"| == 4 && |"Memory"| == 6 && |"Hashicorp"| == 9;
      }
      if k != FileKind {
        if ClassName(t) == ClassName("File") {
          ClassNameInjective(t, "File");
        }
      }
      if k == HashicorpKind {
        if ClassName(t) == ClassName("Memory") {
          ClassNameInjective(t, "Memory");
        }
      }
    }
  }

  /** `ucfirst` yields a type name exactly for that name and for it with a lower-case first letter. */
  lemma UcFirstName(t: string, k: Kind)
    ensures UcFirst(t) == KindName(k) <==>
      t == KindName(k) || t == [(KindName(k)[0] as int + 32) as char] + KindName(k)[1..]
  {
    var name := KindName(k);
    assert 'A' <= name[0] <= 'Z';
    if UcFirst(t) == name {
      assert t != [];
      assert t[1..] == name[1..] by { assert UcFirst(t)[1..] == t[1..]; }
      assert t == [t[0]] + t[1..];
    }
    if t == [(name[0] as int + 32) as char] + name[1..] {
      assert UcFirst(t) == [UpperChar(t[0])] + t[1..];
    }
  }

  /**
   * The type resolves to a vault class exactly when, trimmed, it is that
   * class's type name up to the case of its first letter; a blank type is
   * refused first, and any other names the class it looked for.
   */
  lemma CreateVaultResolves(vaultType: Value, config: Value, k: Kind)
    ensures CreateVault(vaultType, config) == Success(Construction(k, config)) <==>
      !BlankValue(vaultType) && UcFirst(Trim(StrOf(vaultType))) == KindName(k)
    ensures BlankValue(vaultType) ==> CreateVault(vaultType, config) == Failure(TYPE_EMPTY)
    ensures vaultType.Arr? || vaultType.Obj? ==> CreateVault(vaultType, config) == Failure(TYPE_EMPTY)
    ensures !BlankValue(vaultType) && CreateVault(vaultType, config).Failure? ==>
      CreateVault(vaultType, config) == Failure(TypeNotFound(ClassName(UcFirst(Trim(StrOf(vaultType))))))
  {
    KnownClassIff(UcFirst(Trim(StrOf(vaultType))), k);
  }

  /** A string with nothing to trim at either end is its own trim. */
  lemma TrimNoop(s: string)
    requires s != [] && !IsTrimChar(s[0]) && !IsTrimChar(s[|s| - 1])
    ensures Trim(s) == s
  {
  }

  /** An array configuration holds its `type` and its `config` entries. */
  lemma ArrayConfig(vaultType: Value, config: Value)
    ensures PhpValues.Get([Prop("type", vaultType), Prop("config", config)], "type") == vaultType
    ensures PhpValues.Get([Prop("type", vaultType), Prop("config", config)], "config") == config
  {
    var es := [Prop("type", vaultType), Prop("config", config)];
    assert "config" != "type" by { assert |"config"| != |"type"|; }
    assert es == [es[0]] + [es[1]] && [es[1]] == [es[1]] + [];
    LookupCons(es[0], [es[1]], "type");
    LookupCons(es[0], [es[1]], "config");
    LookupCons(es[1], [], "config");
  }

  /** An array configuration hands its `type` and its `config` entries to `createVault`. */
  lemma ArrayCreate(c: Value, vaultType: Value, config: Value)
    requires c == Arr([Prop("type", vaultType), Prop("config", config)])
    ensures Create(c) == CreateVault(vaultType, config)
  {
    ArrayConfig(vaultType, config);
    assert Truthy(c);
  }

  /** The factory's test type `file` names the file vault. */
  lemma FileType(t: string, config: Value)
    requires t == "file"
    ensures CreateVault(Str(t), config) == Success(Construction(FileKind, config))
  {
    TrimNoop(t);
    assert !Blank(t) && !LooseNull(Str(t));
    assert UcFirst(t) == KindName(FileKind);
    CreateVaultResolves(Str(t), config, FileKind);
  }

  /** The factory's test type `memory` names the memory vault. */
  lemma MemoryType(t: string, config: Value)
    requires t == "memory"
    ensures CreateVault(Str(t), config) == Success(Construction(MemoryKind, config))
  {
    TrimNoop(t);
    assert !Blank(t) && !LooseNull(Str(t));
    assert UcFirst(t) == KindName(MemoryKind);
    CreateVaultResolves(Str(t), config, MemoryKind);
  }

  /** A vault of any of the three classes. */
  datatype AnyVault = FileV(file: FileVault) | MemoryV(memory: MemoryVault) | HashicorpV(hashicorp: HashicorpVault)

  function KindOf(v: AnyVault): Kind
  {
    match v
    case FileV(_) => FileKind
    case MemoryV(_) => MemoryKind
    case HashicorpV(_) => HashicorpKind
  }

  /** The exception the class's constructor throws for `config`, if any. */
  function Refusal(k: Kind, config: Value): Option<VaultError>
  {
    if LooseNull(config) then Some(CONFIG_MISSING)
    else match k
      case MemoryKind => None
      case FileKind => if config.Obj? || config.Arr? then None else Some(FILENAME_MISSING)
      case HashicorpKind => if ConfigOf(config).Failure? then Some(ConfigOf(config).error) else None
  }

  /**
   * `VaultFactory::create($config, $logger)`: the construction `Create`
   * decides, then the instantiation. The Hashicorp vault's cache file, its
   * writability and its server are passed through.
   */
  method NewVault(config: Value, logger: LoggerKind, cacheFile: CacheFile, writable: bool,
                  server: (nat, Request) -> Exchange) returns (r: Result<AnyVault>)
    ensures Create(config).Failure? ==> r == Failure(Create(config).error)
    ensures Create(config).Success? ==>
      var c := Create(config).value;
      (r.Failure? <==> Refusal(c.kind, c.config).Some?)
      && (r.Failure? ==> Some(r.error) == Refusal(c.kind, c.config))
      && (r.Success? ==> KindOf(r.value) == c.kind)
    ensures Create(config).Success? ==> var c := Create(config).value;
      && (r.Success? && c.kind == FileKind ==>
            r.value.FileV? && fresh(r.value.file) && r.value.file.Valid()
            && r.value.file.filename == PhpValues.Get(Entries(c.config), "filename") && r.value.file.secrets == map[])
      && (r.Success? && c.kind == MemoryKind ==>
            r.value.MemoryV? && fresh(r.value.memory) && r.value.memory.Valid()
            && r.value.memory.secrets == TableOf(SecretEntries(c.config)))
      && (r.Success? && c.kind == HashicorpKind ==>
            r.value.HashicorpV? && fresh(r.value.hashicorp) && r.value.hashicorp.Valid()
            && ConfigOf(c.config).Success? && r.value.hashicorp.cfg == ConfigOf(c.config).value && r.value.hashicorp.token == None
            && r.value.hashicorp.secrets == map[] && r.value.hashicorp.requests == [])
  {
    var made := Create(config);
    if made.Failure? {
      return Failure(made.error);
    }
    r := Instantiate(made.value, logger, cacheFile, writable, server);
  }

  /** `new $className($config, $logger)`: the constructor's exception propagates. */
  method Instantiate(c: Construction, logger: LoggerKind, cacheFile: CacheFile, writable: bool,
                     server: (nat, Request) -> Exchange) returns (r: Result<AnyVault>)
    ensures r.Failure? <==> Refusal(c.kind, c.config).Some?
    ensures r.Failure? ==> Some(r.error) == Refusal(c.kind, c.config)
    ensures r.Success? ==> KindOf(r.value) == c.kind
    ensures r.Success? && c.kind == FileKind ==>
      r.value.FileV? && fresh(r.value.file) && r.value.file.Valid()
      && r.value.file.filename == PhpValues.Get(Entries(c.config), "filename") && r.value.file.secrets == map[]
    ensures r.Success? && c.kind == MemoryKind ==>
      r.value.MemoryV? && fresh(r.value.memory) && r.value.memory.Valid()
      && r.value.memory.secrets == TableOf(SecretEntries(c.config))
    ensures r.Success? && c.kind == HashicorpKind ==>
      r.value.HashicorpV? && fresh(r.value.hashicorp) && r.value.hashicorp.Valid()
      && ConfigOf(c.config).Success? && r.value.hashicorp.cfg == ConfigOf(c.config).value && r.value.hashicorp.token == None
      && r.value.hashicorp.secrets == map[] && r.value.hashicorp.requests == []
  {
    match c.kind
    case FileKind =>
      r := InstantiateFile(c.config, logger);
    case MemoryKind =>
      r := InstantiateMemory(c.config, logger);
    case HashicorpKind =>
      r := InstantiateHashicorp(c.config, logger, cacheFile, writable, server);
  }

  method InstantiateFile(config: Value, logger: LoggerKind) returns (r: Result<AnyVault>)
    ensures r.Failure? <==> Refusal(FileKind, config).Some?
    ensures r.Failure? ==> Some(r.error) == Refusal(FileKind, config)
    ensures r.Success? ==>
      r.value.FileV? && fresh(r.value.file) && r.value.file.Valid()
      && r.value.file.filename == PhpValues.Get(Entries(config), "filename") && r.value.file.secrets == map[]
  {
    var v := NewFileVault(config, logger);
    if v.Failure? {
      return Failure(v.error);
    }
    return Success(FileV(v.value));
  }

  method InstantiateMemory(config: Value, logger: LoggerKind) returns (r: Result<AnyVault>)
    ensures r.Failure? <==> Refusal(MemoryKind, config).Some?
    ensures r.Failure? ==> Some(r.error) == Refusal(MemoryKind, config)
    ensures r.Success? ==>
      r.value.MemoryV? && fresh(r.value.memory) && r.value.memory.Valid()
      && r.value.memory.secrets == TableOf(SecretEntries(config))
  {
    var v := NewMemoryVault(config, logger);
    if v.Failure? {
      return Failure(v.error);
    }
    return Success(MemoryV(v.value));
  }

  method InstantiateHashicorp(config: Value, logger: LoggerKind, cacheFile: CacheFile, writable: bool,
                              server: (nat, Request) -> Exchange) returns (r: Result<AnyVault>)
    ensures r.Failure? <==> Refusal(HashicorpKind, config).Some?
    ensures r.Failure? ==> Some(r.error) == Refusal(HashicorpKind, config)
    ensures r.Success? ==>
      r.value.HashicorpV? && fresh(r.value.hashicorp) && r.value.hashicorp.Valid()
      && ConfigOf(config).Success? && r.value.hashicorp.cfg == ConfigOf(config).value && r.value.hashicorp.token == None
      && r.value.hashicorp.secrets == map[] && r.value.hashicorp.requests == []
  {
    var v := NewHashicorpVault(config, logger, cacheFile, writable, server);
    ghost var refusal := Refusal(HashicorpKind, config);
    assert LooseNull(config) ==> refusal == Some(CONFIG_MISSING);
    assert !LooseNull(config) ==> refusal == if ConfigOf(config).Failure? then Some(ConfigOf(config).error) else None;
    if v.Failure? {
      return Failure(v.error);
    }
    assert !LooseNull(config) && ConfigOf(config).Success?;
    var h := v.value;
    assert h.Valid() && h.cfg == ConfigOf(config).value;
    return Success(HashicorpV(h));
  }
}
