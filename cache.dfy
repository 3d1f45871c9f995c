/**
 * The file cache the Hashicorp vault keeps its token in: an object loaded
 * lazily from a JSON file, written back after every change.
 */
module Caches {
  import opened PhpValues
  import opened BaseVaults

  const READ_ERROR := "[Cache] Cannot read cache"
  const WRITE_ERROR := "[Cache] Cannot write cache"

  /** What `file_exists` and `file_get_contents` find at the cache path. */
  datatype CacheFile =
    | Missing
    | Unreadable            // file_get_contents returns FALSE
    | Holds(text: FileText)

  /** The contents of a readable cache file, as `load()` tells them apart. */
  datatype FileText =
    | EmptyText             // "" or "0": PHP's empty() holds
    | Json(doc: Value)      // anything else, read back through json_decode (NULL when it is not JSON)

  /**
   * The data `load()` leaves behind: data already held (not loosely NULL) is
   * kept; otherwise an existing file is read (an unreadable one leaves the
   * data as it was, an empty one gives a fresh object, any other one its
   * decoded contents); without a path or a file the cache starts empty.
   */
  function LoadFrom(data: Value, cacheFile: Value, file: CacheFile): (r: Value)
    ensures !LooseNull(data) ==> r == data
    ensures LooseNull(data) && (!Truthy(cacheFile) || file == Missing) ==> r == Obj([])
    ensures LooseNull(data) && Truthy(cacheFile) && file.Holds? && file.text.Json? ==> r == file.text.doc
    ensures LooseNull(data) && Truthy(cacheFile) && file == Unreadable ==> r == data
    ensures LooseNull(data) && Truthy(cacheFile) && file == Holds(EmptyText) ==> r == Obj([])
  {
    if !LooseNull(data) then data
    else if Truthy(cacheFile) && file != Missing then
      match file
      case Unreadable => data
      case Holds(EmptyText) => Obj([])
      case Holds(Json(doc)) => doc
    else Obj([])
  }

  /** `save()` writes exactly when there is data and a path, and succeeds when the file system lets it. */
  predicate SaveWrites(data: Value, cacheFile: Value)
  {
    !LooseNull(data) && Truthy(cacheFile)
  }

  /** The file as `save()` leaves it: the JSON encoding of the data, read back as its round trip. */
  function Saved(data: Value): (r: CacheFile)
    ensures r.Holds? && r.text.Json?
  {
    Holds(Json(JsonRoundTrip(data)))
  }

  /**
   * What a freshly created cache on the same path (another request of the
   * same application) loads from a file this cache saved: the saved data up
   * to the JSON round trip.
   */
  lemma {:induction false} SavedLoads(data: Value, cacheFile: Value)
    requires SaveWrites(data, cacheFile)
    ensures LoadFrom(Null, cacheFile, Saved(data)) == JsonRoundTrip(data)
    ensures !LooseNull(JsonRoundTrip(data))
  {
    match data
    case Arr(es) =>
      assert |JsonRoundTripProps(es)| == |es|;
    case Obj(ps) =>
    case _ =>
  }

  /** What the logger receives from `load()`: the read error, when the file could not be read and there is a logger. */
  function ReadErrors(readFails: bool, logger: LoggerKind): (r: seq<string>)
    ensures r == [] || r == [READ_ERROR]
    ensures r != [] <==> readFails && logger != NoLogger
  {
    if readFails && logger != NoLogger then [READ_ERROR] else []
  }

  /** What the logger receives from `save()`: the write error, when a due write failed and there is a logger. */
  function WriteErrors(data: Value, cacheFile: Value, writable: bool, logger: LoggerKind): (r: seq<string>)
    ensures r == [] || r == [WRITE_ERROR]
    ensures r != [] <==> SaveWrites(data, cacheFile) && !writable && logger != NoLogger
  {
    if SaveWrites(data, cacheFile) && !writable && logger != NoLogger then [WRITE_ERROR] else []
  }

  /**
   * A value set under `k` is read back under `k` by a fresh cache on the
   * saved file, up to the JSON round trip, and every other key reads what
   * it read before the write.
   */
  lemma SetReadBack(data: Value, k: string, v: Value, j: string)
    requires data.Obj? || Promotable(data)
    ensures Field(JsonRoundTrip(AssignField(data, k, v)), j) ==
      if j == k then JsonRoundTrip(v) else JsonRoundTrip(Field(data, j))
  {
    AssignFieldGet(data, k, v, j);
    JsonRoundTripField(AssignField(data, k, v), j);
  }

  /**
   * The cache. `file` is the state of the cache path in the file system and
   * `writable` whether `file_put_contents` succeeds there; `errors` are the
   * messages the logger has received.
   */
  class Cache {
    const cacheFile: Value
    const writable: bool
    var logger: LoggerKind
    var data: Value
    var file: CacheFile
    var errors: seq<string>

    /** The constructor: nothing is loaded yet. */
    constructor(cacheFile: Value, logger: LoggerKind, file: CacheFile, writable: bool)
      ensures this.cacheFile == cacheFile && this.logger == logger
      ensures this.file == file && this.writable == writable
      ensures data == Null && errors == []
    {
      this.cacheFile := cacheFile;
      this.logger := logger;
      this.file := file;
      this.writable := writable;
      data := Null;
      errors := [];
    }

    /** The data as the next `load()` leaves it. */
    function Loaded(): Value
      reads this
    {
      LoadFrom(data, cacheFile, file)
    }

    /** The next `load()` hits an unreadable file. */
    predicate ReadFails()
      reads this
    {
      LooseNull(data) && Truthy(cacheFile) && file == Unreadable
    }

    /** `$this->logger->error($msg)` when there is a logger: either kind of logger receives it. */
    method LogError(msg: string)
      modifies this
      ensures errors == old(errors) + (if logger != NoLogger then [msg] else [])
      ensures data == old(data) && file == old(file) && logger == old(logger)
    {
      if logger != NoLogger {
        errors := errors + [msg];
      }
    }

    /** `load()`. */
    method Load()
      modifies this
      ensures data == old(Loaded())
      ensures file == old(file) && logger == old(logger)
      ensures errors == old(errors) + ReadErrors(old(ReadFails()), logger)
    {
      if LooseNull(data) {
        if Truthy(cacheFile) && file != Missing {
          match file
          case Unreadable =>
            LogError(READ_ERROR);
          case Holds(EmptyText) =>
            data := Obj([]);
          case Holds(Json(doc)) =>
            data := doc;
        } else {
          data := Obj([]);
        }
      }
    }

    /** `save()`: the answer is whether the file was written. */
    method Save() returns (ok: bool)
      modifies this
      ensures ok <==> SaveWrites(data, cacheFile) && writable
      ensures file == if ok then Saved(data) else old(file)
      ensures errors == old(errors) + WriteErrors(data, cacheFile, writable, logger)
      ensures data == old(data) && logger == old(logger)
    {
      if !LooseNull(data) && Truthy(cacheFile) {
        if !writable {
          LogError(WRITE_ERROR);
          return false;
        }
        file := Holds(Json(JsonRoundTrip(data)));
        return true;
      }
      return false;
    }

    /** `get($key)`: the loaded data's property, NULL when it has none or is no object. */
    method Get(key: string) returns (v: Value)
      modifies this
      ensures v == Field(old(Loaded()), key)
      ensures data == old(Loaded()) && file == old(file)
      ensures errors == old(errors) + ReadErrors(old(ReadFails()), old(logger)) && logger == old(logger)
    {
      Load();
      v := Field(data, key);
    }

    /** `set($key, $value)`: assign on the loaded data, then save. */
    method Set(key: string, value: Value)
      modifies this
      ensures data == AssignField(old(Loaded()), key, value)
      ensures file == if SaveWrites(data, cacheFile) && writable then Saved(data) else old(file)
      ensures errors == old(errors) + ReadErrors(old(ReadFails()), logger) + WriteErrors(data, cacheFile, writable, logger)
      ensures logger == old(logger)
    {
      Load();
      data := AssignField(data, key, value);
      var _ := Save();
    }

    /** `delete($key)`: only a key that is set is removed, and only then is the cache saved. */
    method Delete(key: string)
      modifies this
      ensures Field(old(Loaded()), key) == Null ==> data == old(Loaded()) && file == old(file)
      ensures Field(old(Loaded()), key) != Null ==>
        data == UnsetField(old(Loaded()), key)
        && file == if SaveWrites(data, cacheFile) && writable then Saved(data) else old(file)
      ensures errors == old(errors) + ReadErrors(old(ReadFails()), logger) +
        (if Field(old(Loaded()), key) != Null then WriteErrors(data, cacheFile, writable, logger) else [])
      ensures logger == old(logger)
    {
      Load();
      if Field(data, key) != Null {
        data := UnsetField(data, key);
        var _ := Save();
      }
    }

    /** `setLogger($logger)`. */
    method SetLogger(logger: LoggerKind)
      modifies this
      ensures this.logger == logger
      ensures data == old(data) && file == old(file) && errors == old(errors)
    {
      this.logger := logger;
    }
  }

  /**
   * After `set($k, $v)` on loaded data that is an object (or a value PHP
   * promotes to one), `k` reads `v` and every other key reads as before.
   */
  lemma SetGet(loaded: Value, k: string, v: Value, j: string)
    requires loaded.Obj? || Promotable(loaded)
    ensures AssignField(loaded, k, v).Obj?
    ensures Field(AssignField(loaded, k, v), j) == if j == k then v else Field(loaded, j)
  {
    AssignFieldGet(loaded, k, v, j);
  }

  /** After `delete($k)`, `k` reads NULL and every other key reads as before. */
  lemma DeleteGet(loaded: Value, k: string, j: string)
    ensures Field(if Field(loaded, k) != Null then UnsetField(loaded, k) else loaded, j) ==
      if j == k then Null else Field(loaded, j)
  {
    UnsetFieldGet(loaded, k, j);
  }
}
