/**
 * The PHP values this library passes around: scalars, arrays and objects as
 * produced by json_decode, stdClass instances and the library's own objects
 * (whose state is their property table).
 *
 * Arrays and objects are ordered tables of named entries, exactly as PHP keeps
 * them; integer array keys are written as their decimal strings.  The
 * operations below are PHP's own: reading a property (`$o->k`), `isset`,
 * assigning and unsetting a property, `foreach` assignment of one table into
 * another, truthiness and loose comparison with NULL, `trim`, and the
 * json_encode/json_decode round trip.
 */
module PhpValues {

  datatype Option<+T> = None | Some(value: T)

  datatype Value =
    | Null
    | Bool(b: bool)
    | Int(i: int)
    | Str(s: string)
    | Arr(entries: seq<Prop>)
    | Obj(props: seq<Prop>)

  datatype Prop = Prop(name: string, val: Value)

  type Props = seq<Prop>

  /** The names of a table, in order (`array_keys`, `get_object_vars`). */
  function Names(ps: Props): (r: seq<string>)
    ensures |r| == |ps|
    ensures forall i :: 0 <= i < |ps| ==> r[i] == ps[i].name
  {
    seq(|ps|, i requires 0 <= i < |ps| => ps[i].name)
  }

  /** No two entries share a name: every table PHP itself builds has this shape. */
  predicate NoDup(ps: Props)
  {
    forall i, j :: 0 <= i < j < |ps| ==> ps[i].name != ps[j].name
  }

  /** The entry named `k`, if any. */
  function Lookup(ps: Props, k: string): Option<Value>
  {
    if ps == [] then None
    else if ps[0].name == k then Some(ps[0].val)
    else Lookup(ps[1..], k)
  }

  /** The entry is found exactly when the name occurs, and what is found is an entry of the table. */
  lemma {:induction false} LookupFound(ps: Props, k: string)
    ensures Lookup(ps, k).Some? <==> k in Names(ps)
    ensures Lookup(ps, k).Some? ==> exists i :: 0 <= i < |ps| && ps[i] == Prop(k, Lookup(ps, k).value)
  {
    if ps != [] {
      assert Names(ps) == [ps[0].name] + Names(ps[1..]);
      if ps[0].name != k {
        LookupFound(ps[1..], k);
        var r := Lookup(ps[1..], k);
        if r.Some? {
          var i :| 0 <= i < |ps[1..]| && ps[1..][i] == Prop(k, r.value);
          assert ps[i + 1] == Prop(k, r.value);
        }
      }
    }
  }

  lemma LookupCons(p: Prop, ps: Props, k: string)
    ensures Lookup([p] + ps, k) == if p.name == k then Some(p.val) else Lookup(ps, k)
  {
    assert ([p] + ps)[1..] == ps;
  }

  /** `$o->k`: the value of property `k`, NULL when it is not there. */
  function Get(ps: Props, k: string): Value
  {
    match Lookup(ps, k)
    case Some(v) => v
    case None => Null
  }

  /** `isset($o->k)`: the property exists and is not NULL. */
  predicate Isset(ps: Props, k: string)
  {
    Get(ps, k) != Null
  }

  /** The names of a table with one more entry in front. */
  lemma NamesCons(p: Prop, ps: Props)
    ensures Names([p] + ps) == [p.name] + Names(ps)
  {
  }

  /** `$o->k = v`: overwrite the property in place, or append it when new. */
  function Set(ps: Props, k: string, v: Value): (r: Props)
    ensures Names(r) == if k in Names(ps) then Names(ps) else Names(ps) + [k]
  {
    if ps == [] then [Prop(k, v)]
    else
      NamesCons(ps[0], ps[1..]);
      assert ps == [ps[0]] + ps[1..];
      if ps[0].name == k then
        NamesCons(Prop(k, v), ps[1..]);
        [Prop(k, v)] + ps[1..]
      else
        var rest := Set(ps[1..], k, v);
        NamesCons(ps[0], rest);
        [ps[0]] + rest
  }

  /** After `$o->k = v`, `k` reads `v` and every other property reads as before. */
  lemma {:induction false} SetLookup(ps: Props, k: string, v: Value, j: string)
    ensures Lookup(Set(ps, k, v), j) == if j == k then Some(v) else Lookup(ps, j)
  {
    if ps != [] && ps[0].name != k {
      assert ([ps[0]] + Set(ps[1..], k, v))[1..] == Set(ps[1..], k, v);
      SetLookup(ps[1..], k, v, j);
    }
  }

  /** Assigning a new name appends it at the end. */
  lemma {:induction false} SetAbsent(ps: Props, k: string, v: Value)
    requires k !in Names(ps)
    ensures Set(ps, k, v) == ps + [Prop(k, v)]
  {
    if ps != [] {
      assert Names(ps) == [ps[0].name] + Names(ps[1..]);
      SetAbsent(ps[1..], k, v);
      assert [ps[0]] + (ps[1..] + [Prop(k, v)]) == ps + [Prop(k, v)];
    }
  }

  /** Every entry after `$o->k = v` is an entry of `o` or the new one. */
  lemma {:induction false} SetMembers(ps: Props, k: string, v: Value, q: Prop)
    requires q in Set(ps, k, v)
    ensures q in ps || q == Prop(k, v)
  {
    if ps != [] && ps[0].name != k {
      if q != ps[0] {
        assert q in Set(ps[1..], k, v);
        SetMembers(ps[1..], k, v, q);
      }
    } else if ps != [] && q != Prop(k, v) {
      assert q in ps[1..];
    }
  }

  /** `unset($o->k)`: drop the property. */
  function Unset(ps: Props, k: string): (r: Props)
    ensures k !in Names(ps) ==> r == ps
  {
    if ps == [] then []
    else
      var rest := Unset(ps[1..], k);
      assert Names(ps) == [ps[0].name] + Names(ps[1..]);
      if ps[0].name == k then rest else [ps[0]] + rest
  }

  /** After `unset($o->k)`, `k` is gone and every other property reads as before. */
  lemma {:induction false} UnsetLookup(ps: Props, k: string, j: string)
    ensures Lookup(Unset(ps, k), j) == if j == k then None else Lookup(ps, j)
  {
    if ps != [] {
      UnsetLookup(ps[1..], k, j);
      if ps[0].name != k {
        assert ([ps[0]] + Unset(ps[1..], k))[1..] == Unset(ps[1..], k);
      }
    }
  }

  lemma {:induction false} SetKeepsNoDup(ps: Props, k: string, v: Value)
    requires NoDup(ps)
    ensures NoDup(Set(ps, k, v))
  {
    var r := Set(ps, k, v);
    var nr := Names(r);
    if k in Names(ps) {
      assert forall i, j :: 0 <= i < j < |r| ==> r[i].name == nr[i] == Names(ps)[i] == ps[i].name && r[j].name == ps[j].name;
    } else {
      forall i, j | 0 <= i < j < |r|
        ensures r[i].name != r[j].name
      {
        if j < |ps| {
          assert r[i].name == nr[i] == Names(ps)[i];
          assert r[j].name == nr[j] == Names(ps)[j];
        } else {
          assert r[j].name == nr[j] == k;
          assert r[i].name == nr[i] == Names(ps)[i];
        }
      }
    }
  }

  /** `foreach ($vs as $k => $v) $o->$k = $v;` applied to the table `ps`. */
  function AssignAll(ps: Props, vs: Props): Props
    decreases |vs|
  {
    if vs == [] then ps
    else
      var last := vs[|vs| - 1];
      Set(AssignAll(ps, vs[..|vs| - 1]), last.name, last.val)
  }

  /** Every entry of an assigned table comes from the original table or from the assigned one. */
  lemma {:induction false} AssignAllMembers(ps: Props, vs: Props, q: Prop)
    requires q in AssignAll(ps, vs)
    ensures q in ps || q in vs
    decreases |vs|
  {
    if vs != [] {
      var n := |vs| - 1;
      SetMembers(AssignAll(ps, vs[..n]), vs[n].name, vs[n].val, q);
      if q != vs[n] {
        AssignAllMembers(ps, vs[..n], q);
      }
    }
  }

  /** Assigning a table with distinct names into an empty object copies it entry for entry. */
  lemma {:induction false} AssignAllFresh(vs: Props)
    requires NoDup(vs)
    ensures AssignAll([], vs) == vs
    decreases |vs|
  {
    if vs != [] {
      var n := |vs| - 1;
      assert NoDup(vs[..n]);
      AssignAllFresh(vs[..n]);
      assert vs[n].name !in Names(vs[..n]) by {
        forall i | 0 <= i < n ensures Names(vs[..n])[i] != vs[n].name {
          assert vs[i].name != vs[n].name;
        }
      }
      SetAbsent(vs[..n], vs[n].name, vs[n].val);
      assert vs[..n] + [vs[n]] == vs;
    }
  }

  lemma {:induction false} LookupAppend(ps: Props, p: Prop, k: string)
    ensures Lookup(ps + [p], k) ==
      if Lookup(ps, k).Some? then Lookup(ps, k)
      else if p.name == k then Some(p.val) else None
  {
    if ps == [] {
      assert [] + [p] == [p];
    } else {
      assert (ps + [p])[1..] == ps[1..] + [p];
      LookupAppend(ps[1..], p, k);
    }
  }

  lemma LookupUnique(ps: Props, i: int)
    requires NoDup(ps) && 0 <= i < |ps|
    ensures Lookup(ps, ps[i].name) == Some(ps[i].val)
  {
    LookupFound(ps, ps[i].name);
    assert ps[i].name in Names(ps) by { assert Names(ps)[i] == ps[i].name; }
    var r := Lookup(ps, ps[i].name);
    var j :| 0 <= j < |ps| && ps[j] == Prop(ps[i].name, r.value);
    assert i == j;
  }

  /**
   * After assigning a table with distinct names, each of its names holds its
   * value from that table; every other name keeps its old value.
   */
  lemma {:induction false} AssignAllLookup(ps: Props, vs: Props, k: string)
    requires NoDup(vs)
    ensures Lookup(AssignAll(ps, vs), k) ==
      if k in Names(vs) then Lookup(vs, k) else Lookup(ps, k)
    decreases |vs|
  {
    if vs != [] {
      var n := |vs| - 1;
      var init, last := vs[..n], vs[n];
      assert vs == init + [last];
      assert NoDup(init);
      AssignAllLookup(ps, init, k);
      SetLookup(AssignAll(ps, init), last.name, last.val, k);
      LookupAppend(init, last, k);
      LookupFound(init, k);
      assert Names(vs) == Names(init) + [last.name];
      if last.name == k {
        assert k !in Names(init) by {
          forall i | 0 <= i < n ensures Names(init)[i] != k {
            assert vs[i].name != vs[n].name;
          }
        }
      }
    }
  }

  lemma {:induction false} AssignAllKeepsNoDup(ps: Props, vs: Props)
    requires NoDup(ps)
    ensures NoDup(AssignAll(ps, vs))
    decreases |vs|
  {
    if vs != [] {
      var last := vs[|vs| - 1];
      AssignAllKeepsNoDup(ps, vs[..|vs| - 1]);
      SetKeepsNoDup(AssignAll(ps, vs[..|vs| - 1]), last.name, last.val);
    }
  }

  /** Every name of `ps` or `vs` is a name of the assigned table. */
  lemma {:induction false} AssignAllNames(ps: Props, vs: Props, k: string)
    requires k in Names(ps) || k in Names(vs)
    ensures k in Names(AssignAll(ps, vs))
    decreases |vs|
  {
    if vs != [] {
      var n := |vs| - 1;
      assert vs == vs[..n] + [vs[n]];
      LookupAppend(vs[..n], vs[n], k);
      if k in Names(vs[..n]) || k in Names(ps) {
        AssignAllNames(ps, vs[..n], k);
      }
    }
  }

  /** PHP truthiness (`if ($v)`). */
  predicate Truthy(v: Value)
  {
    match v
    case Null => false
    case Bool(b) => b
    case Int(i) => i != 0
    case Str(s) => s != "" && s != "0"
    case Arr(es) => |es| > 0
    case Obj(_) => true
  }

  /** `$v == NULL` with PHP's loose comparison: a string is compared with "", anything else as a boolean. */
  predicate LooseNull(v: Value)
  {
    if v.Str? then v.s == "" else !Truthy(v)
  }

  /** `get_object_vars($v)`; for a non-object PHP 7 warns and yields nothing to iterate. */
  function ObjectVars(v: Value): Props
  {
    if v.Obj? then v.props else []
  }

  /** The property table `foreach` walks for an array or an object; nothing for a scalar. */
  function Entries(v: Value): Props
  {
    match v
    case Arr(es) => es
    case Obj(ps) => ps
    case _ => []
  }

  /** `$v->k ?? null` on any value: only objects have properties. */
  function Field(v: Value, k: string): Value
  {
    if v.Obj? then Get(v.props, k) else Null
  }

  /**
   * `$v->k = x`. PHP 7 turns NULL, false and "" into a fresh stdClass first
   * ("creating default object from empty value"); on any other non-object the
   * assignment is refused with a warning and the value is left as it was.
   */
  function AssignField(v: Value, k: string, x: Value): (r: Value)
    ensures v.Obj? ==> r == Obj(Set(v.props, k, x))
    ensures !v.Obj? && !Promotable(v) ==> r == v
  {
    match v
    case Obj(ps) => Obj(Set(ps, k, x))
    case _ => if Promotable(v) then Obj([Prop(k, x)]) else v
  }

  /** The values PHP 7 silently promotes to an object on property assignment. */
  predicate Promotable(v: Value)
  {
    v == Null || v == Bool(false) || v == Str("")
  }

  /** `unset($v->k)`; a no-op on a non-object. */
  function UnsetField(v: Value, k: string): Value
  {
    if v.Obj? then Obj(Unset(v.props, k)) else v
  }

  /**
   * Reading a value as an integer in arithmetic and comparisons: a string
   * gives its leading integer, as PHP 7 converts "3600" or " 42abc".
   */
  function IntOf(v: Value): int
  {
    match v
    case Int(i) => i
    case Bool(b) => if b then 1 else 0
    case Str(s) => LeadingInt(s)
    case _ => 0
  }

  /** The whitespace PHP skips before a numeric string: space, \t, \n, \r, \x0B and \f. */
  predicate IsNumericSpace(c: char)
  {
    c == ' ' || c == '\t' || c == '\n' || c == '\r' || c == '\U{B}' || c == '\U{C}'
  }

  predicate IsDigit(c: char)
  {
    '0' <= c <= '9'
  }

  function SkipSpace(s: string): (r: string)
    ensures |r| <= |s| && r == s[|s| - |r|..]
    ensures r != [] ==> !IsNumericSpace(r[0])
  {
    if s != [] && IsNumericSpace(s[0]) then SkipSpace(s[1..]) else s
  }

  /** The longest prefix of `s` made of decimal digits. */
  function DigitPrefix(s: string): (r: string)
    ensures |r| <= |s| && r == s[..|r|]
    ensures forall i :: 0 <= i < |r| ==> IsDigit(r[i])
    ensures |r| < |s| ==> !IsDigit(s[|r|])
  {
    if s != [] && IsDigit(s[0]) then [s[0]] + DigitPrefix(s[1..]) else []
  }

  /** The number a string of decimal digits denotes. */
  function DigitsValue(d: string): nat
    requires forall i :: 0 <= i < |d| ==> IsDigit(d[i])
  {
    if d == [] then 0 else DigitsValue(d[..|d| - 1]) * 10 + DigitValue(d[|d| - 1])
  }

  function DigitValue(c: char): nat
    requires IsDigit(c)
  {
    c as int - '0' as int
  }

  /** The integer at the head of `s` after leading whitespace and an optional sign; 0 if none. */
  function LeadingInt(s: string): int
  {
    var t := SkipSpace(s);
    if t != [] && t[0] == '-' then 0 - DigitsValue(DigitPrefix(t[1..]))
    else if t != [] && t[0] == '+' then DigitsValue(DigitPrefix(t[1..]))
    else DigitsValue(DigitPrefix(t))
  }

  /** Reading a value as a string (string conversion of scalars). */
  function StrOf(v: Value): string
  {
    match v
    case Str(s) => s
    case Int(i) => IntToString(i)
    case Bool(b) => if b then "1" else ""
    case Arr(_) => "Array"
    case _ => ""
  }

  /** The characters PHP's `trim` strips by default: space, \t, \n, \r, \0 and \x0B. */
  predicate IsTrimChar(c: char)
  {
    c == ' ' || c == '\t' || c == '\n' || c == '\r' || c == '\0' || c == '\U{B}'
  }

  function TrimLeft(s: string): (r: string)
    ensures |r| <= |s| && r == s[|s| - |r|..]
    ensures r != [] ==> !IsTrimChar(r[0])
    ensures forall i :: 0 <= i < |s| - |r| ==> IsTrimChar(s[i])
  {
    if s != [] && IsTrimChar(s[0]) then
      var r := TrimLeft(s[1..]);
      assert forall i :: 1 <= i < |s| - |r| ==> s[i] == s[1..][i - 1];
      r
    else s
  }

  function TrimRight(s: string): (r: string)
    ensures |r| <= |s| && r == s[..|r|]
    ensures r != [] ==> !IsTrimChar(r[|r| - 1])
    ensures forall i :: |r| <= i < |s| ==> IsTrimChar(s[i])
  {
    if s != [] && IsTrimChar(s[|s| - 1]) then TrimRight(s[..|s| - 1]) else s
  }

  /** PHP's `trim`. */
  function Trim(s: string): (r: string)
    ensures r == "" <==> forall i :: 0 <= i < |s| ==> IsTrimChar(s[i])
    ensures r != [] ==> !IsTrimChar(r[0]) && !IsTrimChar(r[|r| - 1])
  {
    var l := TrimLeft(s);
    var r := TrimRight(l);
    assert l != "" ==> r != "" && r[0] == l[0];
    r
  }

  /** A string that is NULL-like or blank: `$s == NULL || trim($s) == ''`. */
  predicate Blank(s: string)
  {
    Trim(s) == ""
  }

  /**
   * `$v == NULL || trim($v) == ''` on any value, as PHP 7 evaluates it:
   * `trim` of an array or an object warns and yields NULL, which equals ''.
   */
  predicate BlankValue(v: Value)
  {
    match v
    case Arr(_) => true
    case Obj(_) => true
    case _ => LooseNull(v) || Blank(StrOf(v))
  }

  function DigitChar(d: nat): (c: char)
    requires d < 10
  {
    ('0' as int + d) as char
  }

  /** The decimal form of a natural number, without leading zeros. */
  function NatToString(n: nat): (r: string)
    ensures |r| >= 1
    ensures forall i :: 0 <= i < |r| ==> '0' <= r[i] <= '9'
    decreases n
  {
    if n < 10 then [DigitChar(n)] else NatToString(n / 10) + [DigitChar(n % 10)]
  }

  /** The decimal form of an integer, as PHP converts it to a string. */
  function IntToString(i: int): string
  {
    if i < 0 then "-" + NatToString(-i) else NatToString(i)
  }

  lemma {:induction false} NatToStringValue(n: nat)
    ensures DigitPrefix(NatToString(n)) == NatToString(n)
    ensures DigitsValue(NatToString(n)) == n
    decreases n
  {
    var d := NatToString(n);
    assert DigitPrefix(d) == d by {
      DigitPrefixAll(d);
    }
    if n >= 10 {
      NatToStringValue(n / 10);
      assert d[..|d| - 1] == NatToString(n / 10);
    }
  }

  lemma {:induction false} DigitPrefixAll(d: string)
    requires forall i :: 0 <= i < |d| ==> IsDigit(d[i])
    ensures DigitPrefix(d) == d
    decreases |d|
  {
    if d != [] {
      DigitPrefixAll(d[1..]);
    }
  }

  /** Reading the decimal form of an integer back as an integer gives the integer. */
  lemma IntOfIntToString(i: int)
    ensures IntOf(Str(IntToString(i))) == i
  {
    if i < 0 {
      LeadingNegative(-i);
    } else {
      LeadingNatural(i);
    }
  }

  lemma LeadingNatural(n: nat)
    ensures LeadingInt(NatToString(n)) == n
  {
    var d := NatToString(n);
    NatToStringValue(n);
    assert IsDigit(d[0]);
  }

  lemma LeadingNegative(n: nat)
    ensures LeadingInt("-" + NatToString(n)) == 0 - n
  {
    var d := NatToString(n);
    NatToStringValue(n);
    var t := "-" + d;
    assert t[0] == '-' && t[1..] == d;
  }

  /** An array whose keys are 0, 1, …, n-1 in order: json_encode writes it as a JSON list. */
  predicate IsList(es: Props)
  {
    forall i :: 0 <= i < |es| ==> es[i].name == NatToString(i)
  }

  /**
   * `json_decode(json_encode($v))`: lists stay arrays, any other array
   * becomes an object, objects stay objects, scalars are unchanged.
   */
  function JsonRoundTrip(v: Value): (r: Value)
    ensures v.Obj? ==> r.Obj? && Names(r.props) == Names(v.props)
    ensures !v.Arr? && !v.Obj? ==> r == v
    ensures r == Null <==> v == Null
  {
    match v
    case Arr(es) => if IsList(es) then Arr(JsonRoundTripProps(es)) else Obj(JsonRoundTripProps(es))
    case Obj(ps) => Obj(JsonRoundTripProps(ps))
    case _ => v
  }

  function JsonRoundTripProps(ps: Props): (r: Props)
    ensures Names(r) == Names(ps)
    ensures forall i :: 0 <= i < |ps| ==> r[i] == Prop(ps[i].name, JsonRoundTrip(ps[i].val))
  {
    if ps == [] then []
    else
      var rest := JsonRoundTripProps(ps[1..]);
      var r := [Prop(ps[0].name, JsonRoundTrip(ps[0].val))] + rest;
      assert forall i :: 1 <= i < |ps| ==> r[i] == rest[i - 1];
      r
  }

  /** Reading a property after the round trip reads the round-tripped property. */
  lemma {:induction false} JsonRoundTripLookup(ps: Props, k: string)
    ensures Lookup(JsonRoundTripProps(ps), k) ==
      match Lookup(ps, k)
      case Some(v) => Some(JsonRoundTrip(v))
      case None => None
  {
    if ps != [] {
      var r := JsonRoundTripProps(ps);
      assert r[1..] == JsonRoundTripProps(ps[1..]);
      JsonRoundTripLookup(ps[1..], k);
    }
  }

  /** The same, for a property read with NULL as the default. */
  lemma JsonRoundTripGet(ps: Props, k: string)
    ensures Get(JsonRoundTripProps(ps), k) == JsonRoundTrip(Get(ps, k))
  {
    JsonRoundTripLookup(ps, k);
  }

  /** The round trip keeps property names distinct. */
  lemma JsonRoundTripNoDup(ps: Props)
    requires NoDup(ps)
    ensures NoDup(JsonRoundTripProps(ps))
  {
    var r := JsonRoundTripProps(ps);
    forall i, j | 0 <= i < j < |r| ensures r[i].name != r[j].name {
      assert r[i].name == ps[i].name && r[j].name == ps[j].name;
    }
  }

  /**
   * After `$v->k = x` on an object or on a value PHP promotes, `k` reads `x`
   * and every other property reads as before.
   */
  lemma AssignFieldGet(v: Value, k: string, x: Value, j: string)
    requires v.Obj? || Promotable(v)
    ensures Field(AssignField(v, k, x), j) == if j == k then x else Field(v, j)
  {
    if v.Obj? {
      SetLookup(v.props, k, x, j);
    } else {
      LookupCons(Prop(k, x), [], j);
      assert [Prop(k, x)] + [] == [Prop(k, x)];
    }
  }

  /** After `unset($v->k)`, `k` reads NULL and every other property reads as before. */
  lemma UnsetFieldGet(v: Value, k: string, j: string)
    ensures Field(UnsetField(v, k), j) == if j == k then Null else Field(v, j)
  {
    if v.Obj? {
      UnsetLookup(v.props, k, j);
    }
  }

  /** Reading a property of a round-tripped value reads the round-tripped property. */
  lemma JsonRoundTripField(v: Value, k: string)
    requires v.Obj?
    ensures Field(JsonRoundTrip(v), k) == JsonRoundTrip(Field(v, k))
  {
    JsonRoundTripGet(v.props, k);
  }
}
