/**
 * A Secret: the values a vault returns for one path, plus optional metadata.
 *
 * A Secret is an object whose property table starts with the declared
 * `metadata` and `data` and receives every key of the constructor's input;
 * it never changes after construction.
 */
module Secrets {
  import opened PhpValues

  /** The declared properties of a fresh Secret, both NULL. */
  const DECLARED: Props := [Prop("metadata", Null), Prop("data", Null)]

  datatype Secret = Secret(props: Props) {

    /** `get($key)`: `data->key` when it is set, NULL otherwise. */
    function Get(key: string): (r: Value)
      ensures r != Null ==> PhpValues.Get(props, "data").Obj?
    {
      Field(PhpValues.Get(props, "data"), key)
    }

    /** `keys()`: the property names of `data`; None where PHP 7 yields NULL because `data` is no object. */
    function Keys(): (r: Option<seq<string>>)
      ensures r.Some? <==> PhpValues.Get(props, "data").Obj?
    {
      var d := PhpValues.Get(props, "data");
      if d.Obj? then Some(Names(d.props)) else None
    }

    /** `getMeta()`: the `metadata` property, NULL when unset. */
    function Meta(): (r: Value)
      ensures r == Null <==> !Isset(props, "metadata")
      ensures Lookup(props, "metadata").Some? ==> r == Lookup(props, "metadata").value
    {
      PhpValues.Get(props, "metadata")
    }
  }

  /**
   * `keys()` lists exactly the properties `data` has, each once when `data`
   * has no duplicate names, and `get` returns each listed property's value.
   */
  lemma KeysListGettable(s: Secret, k: string)
    requires s.Keys().Some?
    ensures var d := PhpValues.Get(s.props, "data");
      k in s.Keys().value <==> Lookup(d.props, k).Some?
    ensures var d := PhpValues.Get(s.props, "data");
      k in s.Keys().value ==> s.Get(k) == Lookup(d.props, k).value
    ensures var d := PhpValues.Get(s.props, "data");
      NoDup(d.props) ==> forall i, j :: 0 <= i < j < |s.Keys().value| ==> s.Keys().value[i] != s.Keys().value[j]
  {
    LookupFound(PhpValues.Get(s.props, "data").props, k);
  }

  /** What the constructor stores for one input value: arrays pass through json_encode/json_decode. */
  function Stored(v: Value): (r: Value)
    ensures !v.Arr? ==> r == v
    ensures r == Null <==> v == Null
  {
    if v.Arr? then JsonRoundTrip(v) else v
  }

  function StoredEntries(es: Props): (r: Props)
    ensures |r| == |es| && Names(r) == Names(es)
    ensures forall i :: 0 <= i < |es| ==> r[i] == Prop(es[i].name, Stored(es[i].val))
  {
    seq(|es|, i requires 0 <= i < |es| => Prop(es[i].name, Stored(es[i].val)))
  }

  /**
   * The Secret `new Secret($data)` builds: an object's properties or an
   * array's entries are assigned one by one; anything else becomes `data`.
   */
  function SecretOf(data: Value): Secret
  {
    if data.Obj? || data.Arr? then Secret(AssignAll(DECLARED, StoredEntries(Entries(data))))
    else Secret(Set(DECLARED, "data", data))
  }

  /** One more turn of the constructor's loop assigns one more key. */
  lemma AssignStep(ps: Props, es: Props, i: nat)
    requires i < |es|
    ensures AssignAll(ps, StoredEntries(es[..i + 1])) ==
      Set(AssignAll(ps, StoredEntries(es[..i])), es[i].name, Stored(es[i].val))
  {
    assert StoredEntries(es[..i + 1])[..i] == StoredEntries(es[..i]);
  }

  /** The constructor: the loop over the input's keys. */
  method NewSecret(data: Value) returns (s: Secret)
    ensures s == SecretOf(data)
  {
    if data.Obj? || data.Arr? {
      var es := Entries(data);
      var props := DECLARED;
      var i := 0;
      while i < |es|
        invariant 0 <= i <= |es|
        invariant props == AssignAll(DECLARED, StoredEntries(es[..i]))
      {
        AssignStep(DECLARED, es, i);
        props := Set(props, es[i].name, Stored(es[i].val));
        i := i + 1;
      }
      assert es[..|es|] == es;
      s := Secret(props);
    } else {
      s := Secret(Set(DECLARED, "data", data));
    }
  }

  lemma {:induction false} StoredEntriesLookup(es: Props, k: string)
    ensures Lookup(StoredEntries(es), k) ==
      match Lookup(es, k)
      case Some(v) => Some(Stored(v))
      case None => None
  {
    if es != [] {
      assert StoredEntries(es)[1..] == StoredEntries(es[1..]);
      StoredEntriesLookup(es[1..], k);
    }
  }

  /**
   * Every property of the built Secret: a key of the input holds its stored
   * input value, `metadata` and `data` default to NULL, nothing else exists.
   */
  lemma SecretOfProps(data: Value, k: string)
    requires data.Obj? || data.Arr?
    requires NoDup(Entries(data))
    ensures PhpValues.Get(SecretOf(data).props, k) ==
      if k in Names(Entries(data)) then Stored(PhpValues.Get(Entries(data), k)) else Null
  {
    var es := Entries(data);
    var st := StoredEntries(es);
    assert NoDup(st) by {
      forall i, j | 0 <= i < j < |st| ensures st[i].name != st[j].name {
        assert st[i].name == es[i].name && st[j].name == es[j].name;
      }
    }
    AssignAllLookup(DECLARED, st, k);
    StoredEntriesLookup(es, k);
    LookupFound(DECLARED, k);
  }

  /**
   * Reading a key of a Secret built from an object or array reads that key
   * of its `data` entry, after the array-to-object conversion.
   */
  lemma SecretGet(data: Value, key: string)
    requires data.Obj? || data.Arr?
    requires NoDup(Entries(data))
    ensures SecretOf(data).Get(key) == Field(Stored(PhpValues.Get(Entries(data), "data")), key)
    ensures SecretOf(data).Meta() == Stored(PhpValues.Get(Entries(data), "metadata"))
  {
    SecretOfProps(data, "data");
    SecretOfProps(data, "metadata");
    LookupFound(Entries(data), "data");
    LookupFound(Entries(data), "metadata");
  }

  /** A Secret built from a scalar or NULL holds it as `data`: no key can be read and `keys()` has nothing to list. */
  lemma SecretOfScalar(data: Value, key: string)
    requires !data.Obj? && !data.Arr?
    ensures SecretOf(data).Get(key) == Null
    ensures SecretOf(data).Keys().None?
    ensures SecretOf(data).Meta() == Null
  {
    SetLookup(DECLARED, "data", data, "data");
    SetLookup(DECLARED, "data", data, "metadata");
  }

  /** The test data `data = {key1: value1, key2: value2}`. */
  const SAMPLE: Props := [Prop("key1", Str("value1")), Prop("key2", Str("value2"))]

  /** Built from an object holding `metadata` and `data`, the Secret reads back `value1`/`value2`. */
  lemma ConstructFromObject(time: int)
    ensures var s := SecretOf(Obj([Prop("metadata", Obj([Prop("time", Int(time))])), Prop("data", Obj(SAMPLE))]));
      s.Get("key1") == Str("value1") && s.Get("key2") == Str("value2")
  {
    var o := Obj([Prop("metadata", Obj([Prop("time", Int(time))])), Prop("data", Obj(SAMPLE))]);
    assert NoDup(Entries(o));
    LookupCons(Prop("metadata", Obj([Prop("time", Int(time))])), [Prop("data", Obj(SAMPLE))], "data");
    SecretGet(o, "key1");
    SecretGet(o, "key2");
  }

  /** The array `data` of the test becomes an object that still maps `key1`/`key2` to `value1`/`value2`. */
  lemma StoredSample()
    ensures Field(Stored(Arr(SAMPLE)), "key1") == Str("value1")
    ensures Field(Stored(Arr(SAMPLE)), "key2") == Str("value2")
  {
    assert !IsList(SAMPLE) by { assert SAMPLE[0].name != NatToString(0); }
    JsonRoundTripLookup(SAMPLE, "key1");
    JsonRoundTripLookup(SAMPLE, "key2");
  }

  /** Built from nested arrays, the `data` array becomes an object and reads back `value1`/`value2`. */
  lemma ConstructFromArray(time: int)
    ensures var s := SecretOf(Arr([Prop("metadata", Arr([Prop("time", Int(time))])), Prop("data", Arr(SAMPLE))]));
      s.Get("key1") == Str("value1") && s.Get("key2") == Str("value2")
  {
    var a := Arr([Prop("metadata", Arr([Prop("time", Int(time))])), Prop("data", Arr(SAMPLE))]);
    assert NoDup(Entries(a));
    LookupCons(Prop("metadata", Arr([Prop("time", Int(time))])), [Prop("data", Arr(SAMPLE))], "data");
    SecretGet(a, "key1");
    SecretGet(a, "key2");
    StoredSample();
  }
}
