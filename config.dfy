/** The configuration store: a `Config` object owns the live configuration
    (`data`), the history of loads (`log`), the mutation gate (`locked`) and
    the three settings that name the default configuration file. Reading and
    writing files is modelled by a file system passed in and handed back. */
module ConfigStore {
  import opened JsValue
  import opened DotPath
  import opened OverlayMerge

  /** The process environment the constructor reads. The empty string stands
      for a variable that is unset or empty; both are falsy in JavaScript. */
  datatype ProcessEnv = ProcessEnv(
    cwd: string,
    nodeConfigEnv: string,
    nodeConfigDir: string,
    nodeAppInstance: string)

  /** `instance` starts as the number 0 and may be replaced by the (string)
      value of NODE_APP_INSTANCE. */
  datatype Instance = Zero | Named(name: string)

  /** One entry of the load history. */
  datatype LogEntry =
    | ObjectLoad(contents: Value)
    | FileLoad(path: string, contents: Value)

  /** A value `JSON.parse` can return: no `undefined` anywhere in it. */
  type JsonValue = v: Value | IsJson(v) witness Null

  /** A file's text as `JSON.parse` sees it: the value it parses to, or text
      it rejects. */
  datatype FileContent = Json(parsed: JsonValue) | Malformed

  /** The files that can be read, by path; a path that is absent cannot be
      read. */
  type FileSystem = map<string, FileContent>

  datatype ErrorKind = IOError | ParseError | TypeError

  /** How a load or save ends: resolved (or returned), or rejected (or thrown). */
  datatype Status = Done | Failed(error: ErrorKind)

  /** The argument of `load`/`loadSync`, by its JavaScript type: an object, a
      string, or anything else (no argument at all in practice). */
  datatype Source =
    | FromObject(props: map<string, Value>)
    | FromPath(path: string)
    | Default

  /** Reading a file and parsing it as JSON. */
  datatype ReadResult = Parsed(v: Value) | ReadFailed(error: ErrorKind)

  function Read(fs: FileSystem, path: string): (r: ReadResult)
    ensures r.ReadFailed? <==> path !in fs || fs[path].Malformed?
    ensures r.ReadFailed? ==> r.error == (if path in fs then ParseError else IOError)
    ensures r.Parsed? ==> fs[path].Json? && fs[path].parsed == r.v
  {
    if path !in fs then ReadFailed(IOError)
    else match fs[path]
      case Malformed => ReadFailed(ParseError)
      case Json(v) => Parsed(v)
  }

  /** True when `instance` is the number 0 or the string '0'. */
  predicate IsZero(instance: Instance) {
    instance == Zero || instance == Named("0")
  }

  /** The file `load` reads when it is given no argument: the directory, the
      environment name, a suffix and ".json", concatenated with no separator.
      The suffix is a lone "-" for every instance other than 0 or '0': the
      instance's own name never appears in the path. */
  function DefaultPath(configDir: string, environment: string, instance: Instance): (path: string)
    ensures |path| == |configDir| + |environment| + (if IsZero(instance) then 0 else 1) + 5
    ensures path[..|configDir|] == configDir
    ensures path[|configDir|..|configDir| + |environment|] == environment
    ensures !IsZero(instance) ==> path[|configDir| + |environment|] == '-'
    ensures path[|path| - 5..] == ".json"
  {
    var instanceStr := if !IsZero(instance) then "-" else "";
    configDir + environment + instanceStr + ".json"
  }

  /** Every non-zero instance yields the same default path. */
  lemma DefaultPathIgnoresInstanceName(configDir: string, environment: string, a: string, b: string)
    requires a != "0" && b != "0"
    ensures DefaultPath(configDir, environment, Named(a)) == DefaultPath(configDir, environment, Named(b))
  {
  }

  /** The default path determines the directory-and-environment prefix and
      whether the instance is zero. */
  lemma DefaultPathDistinguishesZero(configDir: string, environment: string, i: Instance, j: Instance)
    requires DefaultPath(configDir, environment, i) == DefaultPath(configDir, environment, j)
    ensures IsZero(i) <==> IsZero(j)
  {
  }

  /** The state after loading the file at `path` from `data0` and `log0`:
      a file that cannot be read or parsed changes nothing; a parsed value
      is logged first, then overlaid, and a value whose properties cannot be
      listed (`null`) fails with a TypeError after it has been logged. */
  predicate FileLoaded(
    data0: map<string, Value>, log0: seq<LogEntry>, path: string, fs: FileSystem,
    data1: map<string, Value>, log1: seq<LogEntry>, r: Status)
    ensures FileLoaded(data0, log0, path, fs, data1, log1, r) ==>
      && (r.Failed? ==> data1 == data0)
      && data0.Keys <= data1.Keys
      && log0 <= log1 && |log1| <= |log0| + 1
      && (r == Failed(TypeError) <==> path in fs && fs[path] == Json(Null))
  {
    match Read(fs, path)
    case ReadFailed(e) => r == Failed(e) && data1 == data0 && log1 == log0
    case Parsed(v) =>
      && log1 == log0 + [FileLoad(path, v)]
      && match OwnProperties(v)
         case None => r == Failed(TypeError) && data1 == data0
         case Some(props) => r == Done && data1 == Overlaid(data0, props)
  }

  /** What a save writes, read back and overlaid onto any store, restores
      every saved property: when the saved data holds no `undefined`, the
      result is the store overlaid with exactly the saved data. */
  lemma SavedDataReloads(saved: map<string, Value>, base: map<string, Value>)
    requires IsJson(Obj(saved))
    ensures OwnProperties(JsonImage(Obj(saved))) == Some(saved)
    ensures Overlaid(base, saved) == base + saved
  {
    JsonImageOfJson(Obj(saved));
    OverlaidIsUnion(base, saved);
    assert Defined(saved) == saved;
  }

  class Config {
    var data: map<string, Value>
    var log: seq<LogEntry>
    var locked: bool
    var environment: string
    var configDir: string
    var instance: Instance

    constructor (env: ProcessEnv)
      ensures data == map[] && log == [] && !locked
      ensures environment == (if env.nodeConfigEnv != "" then env.nodeConfigEnv else "default")
      ensures configDir == (if env.nodeConfigDir != "" then env.nodeConfigDir else env.cwd + "/config")
      ensures instance == (if env.nodeAppInstance != "" then Named(env.nodeAppInstance) else Zero)
    {
      data := map[];
      log := [];
      locked := false;
      environment := "default";
      configDir := env.cwd + "/config";
      instance := Zero;
      new;
      ReadEnvironment(env);
    }

    /** Each set (non-empty) environment variable replaces its setting. */
    method ReadEnvironment(env: ProcessEnv)
      modifies this`environment, this`configDir, this`instance
      ensures environment == (if env.nodeConfigEnv != "" then env.nodeConfigEnv else old(environment))
      ensures configDir == (if env.nodeConfigDir != "" then env.nodeConfigDir else old(configDir))
      ensures instance == (if env.nodeAppInstance != "" then Named(env.nodeAppInstance) else old(instance))
    {
      if env.nodeConfigEnv != "" {
        environment := env.nodeConfigEnv;
      }
      if env.nodeConfigDir != "" {
        configDir := env.nodeConfigDir;
      }
      if env.nodeAppInstance != "" {
        instance := Named(env.nodeAppInstance);
      }
    }

    /** The path a source names: its own path, or the default path. */
    function PathOf(source: Source): string
      reads this
      requires !source.FromObject?
    {
      if source.FromPath? then source.path else DefaultPath(configDir, environment, instance)
    }

    /** `load`: an object replaces `data` outright; a path (or no argument)
        loads that file and overlays it. */
    method Load(source: Source, fs: FileSystem) returns (r: Status)
      modifies this`data, this`log
      ensures source.FromObject? ==>
        r == Done && log == old(log) + [ObjectLoad(Obj(source.props))] && data == source.props
      ensures !source.FromObject? ==>
        FileLoaded(old(data), old(log), PathOf(source), fs, data, log, r)
      decreases if source.Default? then 1 else 0
    {
      match source {
        case FromObject(props) =>
          log := log + [ObjectLoad(Obj(props))];
          data := props;
          r := Done;
        case FromPath(path) =>
          r := LoadFile(path, fs);
        case Default =>
          r := Load(FromPath(DefaultPath(configDir, environment, instance)), fs);
      }
    }

    /** `loadSync`: like `load`, except that an object is overlaid onto
        `data` rather than replacing it. */
    method LoadSync(source: Source, fs: FileSystem) returns (r: Status)
      modifies this`data, this`log
      ensures source.FromObject? ==>
        r == Done && log == old(log) + [ObjectLoad(Obj(source.props))]
        && data == Overlaid(old(data), source.props)
      ensures !source.FromObject? ==>
        FileLoaded(old(data), old(log), PathOf(source), fs, data, log, r)
      decreases if source.Default? then 1 else 0
    {
      match source {
        case FromObject(props) =>
          log := log + [ObjectLoad(Obj(props))];
          Overlay(props);
          r := Done;
        case FromPath(path) =>
          r := LoadFile(path, fs);
        case Default =>
          r := LoadSync(FromPath(DefaultPath(configDir, environment, instance)), fs);
      }
    }

    /** The string branch that `load` and `loadSync` share: read, parse,
        log, overlay. */
    method LoadFile(path: string, fs: FileSystem) returns (r: Status)
      modifies this`data, this`log
      ensures FileLoaded(old(data), old(log), path, fs, data, log, r)
    {
      var read := Read(fs, path);
      if read.ReadFailed? {
        return Failed(read.error);
      }
      var parsed := read.v;
      log := log + [FileLoad(path, parsed)];
      var props := OwnProperties(parsed);
      if props.None? {
        return Failed(TypeError);
      }
      Overlay(props.value);
      r := Done;
    }

    /** `overlay`: each own property of `incoming` whose value is not
        `undefined` is written into `data`, one key at a time. */
    method Overlay(incoming: map<string, Value>)
      modifies this`data
      ensures data == Overlaid(old(data), incoming)
    {
      var pending := incoming.Keys;
      while pending != {}
        invariant pending <= incoming.Keys
        invariant forall k :: k in data <==>
          k in old(data) || (k in incoming && k !in pending && incoming[k] != Undefined)
        invariant forall k :: k in data ==>
          data[k] == if k in incoming && k !in pending && incoming[k] != Undefined then incoming[k] else old(data)[k]
        decreases pending
      {
        var key :| key in pending;
        if incoming[key] != Undefined {
          data := data[key := incoming[key]];
        }
        pending := pending - {key};
      }
      forall k ensures k in data <==> k in Overlaid(old(data), incoming) {
        OverlaidAt(old(data), incoming, k);
      }
      forall k | k in data ensures data[k] == Overlaid(old(data), incoming)[k] {
        OverlaidAt(old(data), incoming, k);
      }
    }

    /** `get`: the value at a dotted path, `Undefined` when there is none. */
    function Get(property: string): (r: Value)
      reads this
      ensures r != Undefined ==> Resolves(Obj(data), Split(property))
    {
      GetPath(Obj(data), Split(property))
    }

    /** `set`: stores `value` at a dotted path unless the store is locked or
        the value is `undefined`. Paths that diverge from it keep their
        values. */
    method Set(property: string, value: Value)
      modifies this`data
      ensures data == if !locked && value != Undefined then SetPath(old(data), Split(property), value) else old(data)
      ensures !locked && value != Undefined ==> Get(property) == value
      ensures forall q :: Diverge(Split(property), q) ==> GetPath(Obj(data), q) == GetPath(Obj(old(data)), q)
    {
      if !locked && value != Undefined {
        data := SetPath(data, Split(property), value);
        GetAfterSet(old(data), Split(property), value);
        forall q | Diverge(Split(property), q)
          ensures GetPath(Obj(data), q) == GetPath(Obj(old(data)), q)
        {
          SetKeepsOtherPaths(old(data), Split(property), q, value);
        }
      }
    }

    /** `delete`: removes the property at a dotted path unless the store is
        locked. Deleting a path that does not exist changes nothing, and
        paths that diverge from it keep their values. */
    method Delete(property: string)
      modifies this`data
      ensures data == if !locked then DeletePath(old(data), Split(property)) else old(data)
      ensures !locked ==> Get(property) == Undefined
      ensures !Resolves(Obj(old(data)), Split(property)) ==> data == old(data)
      ensures forall q :: Diverge(Split(property), q) ==> GetPath(Obj(data), q) == GetPath(Obj(old(data)), q)
    {
      if !locked {
        data := DeletePath(data, Split(property));
        GetAfterDelete(old(data), Split(property));
        if !Resolves(Obj(old(data)), Split(property)) {
          DeleteUnresolved(old(data), Split(property));
        }
        forall q | Diverge(Split(property), q)
          ensures GetPath(Obj(data), q) == GetPath(Obj(old(data)), q)
        {
          DeleteKeepsOtherPaths(old(data), Split(property), q);
        }
      }
    }

    method Lock()
      modifies this`locked
      ensures locked
    {
      locked := true;
    }

    method Unlock()
      modifies this`locked
      ensures !locked
    {
      locked := false;
    }

    /** `save`: locks, serialises `data`, writes it to `path` and unlocks
        whether or not the write succeeded. */
    method Save(path: string, fs: FileSystem, writeOk: bool) returns (r: Status, fs': FileSystem)
      modifies this`locked
      ensures !locked
      ensures data == old(data) && log == old(log)
      ensures r == (if writeOk then Done else Failed(IOError))
      ensures fs' == if writeOk then fs[path := Json(JsonImage(Obj(data)))] else fs
    {
      Lock();
      var written := JsonImage(Obj(data));
      fs' := if writeOk then fs[path := Json(written)] else fs;
      Unlock();
      r := if writeOk then Done else Failed(IOError);
    }

    /** `saveSync`: locks, serialises `data`, writes it to `path` and unlocks.
        A failed write throws before the unlock, so the store stays locked. */
    method SaveSync(path: string, fs: FileSystem, writeOk: bool) returns (r: Status, fs': FileSystem)
      modifies this`locked
      ensures locked <==> !writeOk
      ensures data == old(data) && log == old(log)
      ensures r == (if writeOk then Done else Failed(IOError))
      ensures fs' == if writeOk then fs[path := Json(JsonImage(Obj(data)))] else fs
    {
      Lock();
      var written := JsonImage(Obj(data));
      if !writeOk {
        return Failed(IOError), fs;
      }
      fs' := fs[path := Json(written)];
      Unlock();
      r := Done;
    }
  }
}
