/**
 * What every vault shares: redaction of objects before they are logged,
 * the memoized logger prefix, and the log helpers that do nothing without a
 * logger.
 */
module BaseVaults {
  import opened PhpValues
  import opened Commons
  import opened Secrets

  const REDACTED := "***REDACTED***"

  /** `strpos($s, $t) !== FALSE`. */
  predicate Contains(s: string, t: string)
    decreases |s|
  {
    |t| <= |s| && (s[..|t|] == t || Contains(s[1..], t))
  }

  /** A property name whose scalar value must never reach a log. */
  predicate Sensitive(k: string)
  {
    k == "username" || k == "password" || k == "passwd" || k == "client_token" || k == "accessor"
    || Contains(k, "pass")
  }

  /**
   * `cleanObject($o)`: NULL-like input gives NULL, any other non-object is
   * returned as it is, an object is copied property by property into a
   * fresh object.
   */
  function CleanObject(o: Value): (r: Value)
    ensures LooseNull(o) ==> r == Null
    ensures !LooseNull(o) && !o.Obj? ==> r == o
    ensures o.Obj? ==> r.Obj?
    decreases o, 1
  {
    if LooseNull(o) then Null
    else if !o.Obj? then o
    else Obj(AssignAll([], CleanProps(o.props)))
  }

  /**
   * The value the copy receives for property `k`: an object is cleaned
   * recursively whatever its name, any other value of a sensitive property
   * becomes the redaction marker, everything else is copied as it is.
   */
  function CleanValue(k: string, v: Value): (r: Value)
    ensures Sensitive(k) && !v.Obj? ==> r == Str(REDACTED)
    ensures !Sensitive(k) && !v.Obj? ==> r == v
    ensures v.Obj? ==> r.Obj?
    decreases v, 2
  {
    if v.Obj? then CleanObject(v) else if Sensitive(k) then Str(REDACTED) else v
  }

  /** The property table of the copy, entry by entry. */
  function CleanProps(ps: Props): (r: Props)
    ensures |r| == |ps| && forall i :: 0 <= i < |ps| ==> r[i].name == ps[i].name
    decreases ps, 0
  {
    if ps == [] then []
    else
      var r := [Prop(ps[0].name, CleanValue(ps[0].name, ps[0].val))] + CleanProps(ps[1..]);
      assert forall i :: 1 <= i < |ps| ==> r[i] == CleanProps(ps[1..])[i - 1];
      r
  }

  /** No sensitive property anywhere in the object tree holds anything but the redaction marker or an object. */
  predicate Scrubbed(v: Value)
    decreases v, 1
  {
    v.Obj? ==> ScrubbedProps(v.props)
  }

  predicate ScrubbedProps(ps: Props)
    decreases ps, 0
  {
    forall i :: 0 <= i < |ps| ==>
      (Sensitive(ps[i].name) && !ps[i].val.Obj? ==> ps[i].val == Str(REDACTED)) && Scrubbed(ps[i].val)
  }

  /** Every object of the tree has distinct property names, as PHP objects always do. */
  predicate WellFormed(v: Value)
    decreases v, 1
  {
    v.Obj? ==> NoDup(v.props) && WellFormedProps(v.props)
  }

  predicate WellFormedProps(ps: Props)
    decreases ps, 0
  {
    forall i :: 0 <= i < |ps| ==> WellFormed(ps[i].val)
  }

  lemma {:induction false} CleanPropsAt(ps: Props, i: int)
    requires 0 <= i < |ps|
    ensures CleanProps(ps)[i] == Prop(ps[i].name, CleanValue(ps[i].name, ps[i].val))
  {
    if i > 0 {
      CleanPropsAt(ps[1..], i - 1);
    }
  }

  /** Whatever is cleaned, nothing sensitive survives in it, at any depth. */
  lemma {:induction false} CleanObjectScrubbed(o: Value)
    ensures Scrubbed(CleanObject(o))
    decreases o, 1
  {
    if o.Obj? && !LooseNull(o) {
      var cp := CleanProps(o.props);
      CleanPropsScrubbed(o.props);
      var r := AssignAll([], cp);
      forall i | 0 <= i < |r|
        ensures (Sensitive(r[i].name) && !r[i].val.Obj? ==> r[i].val == Str(REDACTED)) && Scrubbed(r[i].val)
      {
        AssignAllMembers([], cp, r[i]);
      }
    }
  }

  lemma {:induction false} CleanPropsScrubbed(ps: Props)
    ensures ScrubbedProps(CleanProps(ps))
    decreases ps, 0
  {
    var cp := CleanProps(ps);
    forall i | 0 <= i < |ps|
      ensures (Sensitive(cp[i].name) && !cp[i].val.Obj? ==> cp[i].val == Str(REDACTED)) && Scrubbed(cp[i].val)
    {
      CleanPropsAt(ps, i);
      if ps[i].val.Obj? {
        CleanObjectScrubbed(ps[i].val);
      }
    }
  }

  /** On an object, the copy has exactly the same property names, in the same order. */
  lemma CleanObjectCopy(ps: Props)
    requires NoDup(ps)
    ensures CleanObject(Obj(ps)) == Obj(CleanProps(ps))
    ensures Names(CleanObject(Obj(ps)).props) == Names(ps)
    ensures NoDup(CleanProps(ps))
  {
    var cp := CleanProps(ps);
    assert forall i, j :: 0 <= i < j < |cp| ==> cp[i].name == ps[i].name && cp[j].name == ps[j].name;
    AssignAllFresh(cp);
  }

  /**
   * Each property of the copy reads its input value as `CleanValue` treats
   * it, so non-sensitive scalars and arrays are copied unchanged; a name the
   * input lacks is missing from the copy too.
   */
  lemma CleanObjectField(ps: Props, k: string)
    requires NoDup(ps)
    ensures k !in Names(ps) ==> Field(CleanObject(Obj(ps)), k) == Null
    ensures k in Names(ps) ==> Field(CleanObject(Obj(ps)), k) == CleanValue(k, PhpValues.Get(ps, k))
  {
    CleanObjectCopy(ps);
    if k in Names(ps) {
      var i :| 0 <= i < |ps| && ps[i].name == k;
      LookupUnique(ps, i);
      LookupUnique(CleanProps(ps), i);
      CleanPropsAt(ps, i);
    } else {
      LookupFound(CleanProps(ps), k);
    }
  }

  /** Cleaning keeps every object of the tree free of duplicate names. */
  lemma {:induction false} CleanObjectWellFormed(o: Value)
    requires WellFormed(o)
    ensures WellFormed(CleanObject(o))
    decreases o, 1
  {
    if o.Obj? {
      CleanObjectCopy(o.props);
      CleanPropsWellFormed(o.props);
    }
  }

  lemma {:induction false} CleanPropsWellFormed(ps: Props)
    requires WellFormedProps(ps)
    ensures WellFormedProps(CleanProps(ps))
    decreases ps, 0
  {
    var cp := CleanProps(ps);
    forall i | 0 <= i < |ps| ensures WellFormed(cp[i].val) {
      CleanPropsAt(ps, i);
      if ps[i].val.Obj? {
        CleanObjectWellFormed(ps[i].val);
      }
    }
  }

  /** An object is left as it is by cleaning exactly when it is already scrubbed. */
  lemma {:induction false} CleanObjectFixpoint(o: Value)
    requires o.Obj? && WellFormed(o)
    ensures CleanObject(o) == o <==> Scrubbed(o)
    decreases o, 1
  {
    CleanObjectScrubbed(o);
    CleanObjectCopy(o.props);
    CleanPropsFixpoint(o.props);
  }

  lemma {:induction false} CleanPropsFixpoint(ps: Props)
    requires WellFormedProps(ps)
    ensures CleanProps(ps) == ps <==> ScrubbedProps(ps)
    decreases ps, 0
  {
    CleanPropsScrubbed(ps);
    if ScrubbedProps(ps) {
      var cp := CleanProps(ps);
      forall i | 0 <= i < |ps| ensures cp[i] == ps[i] {
        CleanPropsAt(ps, i);
        if ps[i].val.Obj? {
          CleanObjectFixpoint(ps[i].val);
        }
      }
    }
  }

  /** Cleaning twice is cleaning once. */
  lemma CleanObjectIdempotent(o: Value)
    requires WellFormed(o)
    ensures CleanObject(CleanObject(o)) == CleanObject(o)
  {
    var c := CleanObject(o);
    if c.Obj? {
      CleanObjectWellFormed(o);
      CleanObjectScrubbed(o);
      CleanObjectFixpoint(c);
    }
  }

  /** The kind of object handed in as logger. */
  datatype LoggerKind =
    | NoLogger      // NULL
    | PsrLogger     // a Psr\Log\LoggerInterface: its branch is empty, nothing is logged
    | VaultLogger   // a TgVault\Logger
    | OtherLogger   // any other object

  datatype Level = Debug | Info | Warn | Error

  /** One call received by a TgVault\Logger. */
  datatype LogEntry = LogEntry(level: Level, message: string, context: Value)

  /** The prefix `getLoggerPrefix` builds from the short class name. */
  function PrefixOf(shortName: string): (r: string)
    ensures |r| == |shortName| + 3 && r[0] == '[' && r[|r| - 2..] == "] "
  {
    "[" + shortName + "] "
  }

  /** `BaseVault::getSecret`: a subclass that does not override it always fails. */
  function UnimplementedSecret(path: string): (r: Result<Secret>)
    ensures r.Failure? && r.error.code == VAULT_ERR_INTERNAL && r.error.details == Null
  {
    Failure(Raise("TgVault\\BaseVault::getSecret() must be implemented.", VAULT_ERR_INTERNAL))
  }

  /**
   * The logging part of a vault. `shortName` stands for the short name of
   * the runtime class, which PHP finds by reflection; `log` is what the
   * TgVault\Logger has received.
   */
  class BaseVault {
    const shortName: string
    var logger: LoggerKind
    var prefix: Option<string>
    var log: seq<LogEntry>

    /** The prefix, once built, is the one for this class; nothing unredacted was ever logged. */
    ghost predicate Valid()
      reads this
    {
      (prefix.Some? ==> prefix.value == PrefixOf(shortName))
      && forall i :: 0 <= i < |log| ==> Scrubbed(log[i].context)
    }

    constructor(shortName: string, logger: LoggerKind)
      ensures Valid()
      ensures this.shortName == shortName && this.logger == logger
      ensures prefix == None && log == []
    {
      this.shortName := shortName;
      this.logger := logger;
      prefix := None;
      log := [];
    }

    method SetLogger(logger: LoggerKind)
      requires Valid()
      modifies this
      ensures Valid()
      ensures this.logger == logger && prefix == old(prefix) && log == old(log)
    {
      this.logger := logger;
    }

    /** `getLoggerPrefix()`: built on first use, reused afterwards. */
    method LoggerPrefix() returns (p: string)
      requires Valid()
      modifies this
      ensures Valid()
      ensures p == PrefixOf(shortName) && prefix == Some(p)
      ensures logger == old(logger) && log == old(log)
    {
      if prefix.None? {
        prefix := Some("[" + shortName + "] ");
      }
      p := prefix.value;
    }

    /**
     * `debug`, `info`, `warn` and `error`: without a logger nothing happens;
     * a PSR logger and any other object receive nothing either; a
     * TgVault\Logger receives the prefixed message and the cleaned object.
     */
    method Log(level: Level, s: string, obj: Value)
      requires Valid()
      modifies this
      ensures Valid()
      ensures logger == old(logger)
      ensures old(logger) != VaultLogger ==> log == old(log) && prefix == old(prefix)
      ensures old(logger) == VaultLogger ==>
        log == old(log) + [LogEntry(level, PrefixOf(shortName) + s, CleanObject(obj))]
        && prefix == Some(PrefixOf(shortName))
    {
      if logger != NoLogger {
        var cleaned := CleanObject(obj);
        if logger == PsrLogger {
        } else if logger == VaultLogger {
          var p := LoggerPrefix();
          CleanObjectScrubbed(obj);
          log := log + [LogEntry(level, p + s, cleaned)];
        }
      }
    }
  }
}
