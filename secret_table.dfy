/**
 * The path table the memory and file vaults build from a `secrets` entry:
 * every path maps to the Secret built from `array('data' => $d)`, and
 * `getSecret` answers from the table or throws "Secret not available".
 */
module SecretTables {
  import opened PhpValues
  import opened Commons
  import opened Secrets

  /** The exception of `getSecret` for a path the table does not hold. */
  const NOT_AVAILABLE := Raise("Secret not available", VAULT_ERR_NOT_FOUND)

  /** `new Secret(array('data' => $d))`. */
  function Wrap(d: Value): Secret
  {
    SecretOf(Arr([Prop("data", d)]))
  }

  /**
   * A wrapped secret reads its keys from `d`: an object directly, an
   * associative array after its conversion to an object; a list or a scalar
   * has no keys to read. It carries no metadata.
   */
  lemma WrapReads(d: Value, k: string)
    ensures d.Obj? ==> Wrap(d).Get(k) == PhpValues.Get(d.props, k)
    ensures d.Arr? && !IsList(d.entries) ==> Wrap(d).Get(k) == JsonRoundTrip(PhpValues.Get(d.entries, k))
    ensures d.Arr? && IsList(d.entries) ==> Wrap(d).Get(k) == Null
    ensures !d.Arr? && !d.Obj? ==> Wrap(d).Get(k) == Null
    ensures Wrap(d).Meta() == Null
  {
    var es := [Prop("data", d)];
    assert "metadata" != "data" by { assert |"metadata"| != |"data"|; }
    assert NoDup(es);
    SecretGet(Arr(es), k);
    LookupCons(Prop("data", d), [], "data");
    LookupCons(Prop("data", d), [], "metadata");
    assert es == [Prop("data", d)] + [];
    if d.Arr? {
      JsonRoundTripGet(d.entries, k);
    }
  }

  /** The data the `foreach` over `secrets` files under each path: a later entry overwrites an earlier one of the same path. */
  function DataOf(es: Props): map<string, Value>
  {
    if es == [] then map[]
    else DataOf(es[..|es| - 1])[es[|es| - 1].name := es[|es| - 1].val]
  }

  /** The table the loop builds: each path's data wrapped as a Secret. */
  function TableOf(es: Props): map<string, Secret>
  {
    var data := DataOf(es);
    map p | p in data :: Wrap(data[p])
  }

  /** The data table holds exactly the paths of the entries. */
  lemma {:induction false} DataKeys(es: Props, path: string)
    ensures path in DataOf(es) <==> path in Names(es)
  {
    if es != [] {
      var init := es[..|es| - 1];
      DataKeys(init, path);
      if path in Names(init) {
        var i :| 0 <= i < |init| && Names(init)[i] == path;
        assert Names(es)[i] == path;
      }
      if path in Names(es) {
        var i :| 0 <= i < |es| && Names(es)[i] == path;
        if i < |init| {
          assert Names(init)[i] == path;
        }
      }
    }
  }

  /** With distinct paths, each path of the entries holds its entry's data. */
  lemma {:induction false} DataGet(es: Props, path: string)
    requires NoDup(es) && path in Names(es)
    ensures path in DataOf(es) && DataOf(es)[path] == PhpValues.Get(es, path)
  {
    var init, last := es[..|es| - 1], es[|es| - 1];
    assert es == init + [last];
    assert NoDup(init);
    DataKeys(es, path);
    LookupAppend(init, last, path);
    LookupFound(init, path);
    if path == last.name {
      assert path !in Names(init) by {
        forall i | 0 <= i < |init| ensures Names(init)[i] != path {
          assert es[i].name != es[|es| - 1].name;
        }
      }
    } else {
      var i :| 0 <= i < |es| && Names(es)[i] == path;
      assert Names(init)[i] == path;
      DataGet(init, path);
    }
  }

  /** One more entry files one more Secret. */
  lemma TableStep(es: Props, e: Prop)
    ensures TableOf(es + [e]) == TableOf(es)[e.name := Wrap(e.val)]
  {
    assert (es + [e])[..|es|] == es;
  }

  /** The `foreach ($secrets AS $path => $data)` loop. */
  method BuildTable(es: Props) returns (m: map<string, Secret>)
    ensures m == TableOf(es)
  {
    m := map[];
    var i := 0;
    while i < |es|
      invariant 0 <= i <= |es|
      invariant m == TableOf(es[..i])
    {
      assert es[..i + 1] == es[..i] + [es[i]];
      TableStep(es[..i], es[i]);
      m := m[es[i].name := Wrap(es[i].val)];
      i := i + 1;
    }
    assert es[..|es|] == es;
  }

  /** `getSecret($path)` over a built table. */
  function Find(table: map<string, Secret>, path: string): Result<Secret>
  {
    if path in table then Success(table[path]) else Failure(NOT_AVAILABLE)
  }

  /**
   * Looking a path up in the table built from `es`: found exactly when it is
   * one of the entries' paths, and then the entry wrapped; otherwise
   * "Secret not available".
   */
  lemma FindTable(es: Props, path: string)
    ensures Find(TableOf(es), path).Success? <==> path in Names(es)
    ensures Find(TableOf(es), path).Failure? ==> Find(TableOf(es), path).error == NOT_AVAILABLE
    ensures NoDup(es) && path in Names(es) ==> Find(TableOf(es), path).value == Wrap(PhpValues.Get(es, path))
  {
    DataKeys(es, path);
    if NoDup(es) && path in Names(es) {
      DataGet(es, path);
    }
  }
}
