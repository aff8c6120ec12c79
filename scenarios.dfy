/** The store's test suite, replayed against the model: each method builds
    a fresh `Config`, drives it as one test does, and returns the values the
    test inspects; its postcondition is the test's expectation. */
module ConfigScenarios {
  import opened JsValue
  import opened ConfigStore
  import opened DotPath
  import opened OverlayMerge

  /** The contents of the test suite's default.json. */
  function Fixture(): Value {
    Obj(map[
      "Name" := Str("John"),
      "Object" := Obj(map["Name" := Str("Jake")]),
      "Values" := Arr([Num(1.0), Num(2.0), Num(3.0), Num(9.0), Num(7.0), Num(8.0)]),
      "Float" := Num(0.01)])
  }

  /** Loading a JSON object into an empty store gives exactly its
      properties. */
  lemma JsonObjectLoaded(props: map<string, Value>)
    requires IsJson(Obj(props))
    ensures Overlaid(map[], props) == props
  {
  }

  /** The one dotted path the tests use splits into its two segments. */
  lemma ObjectNameSplits()
    ensures Split("Object.Name") == ["Object", "Name"]
  {
    SplitTwo("Object", "Name");
    assert "Object" + "." + "Name" == "Object.Name";
  }

  /** Loading the fixture into an empty store gives exactly its
      properties. */
  lemma LoadedFixture()
    ensures Overlaid(map[], Fixture().props) == Fixture().props
  {
    assert IsJson(Fixture().props["Values"]);
    JsonObjectLoaded(Fixture().props);
  }

  /** What the tests read from the fixture, by segments. */
  lemma FixtureValues()
    ensures GetPath(Fixture(), ["Name"]) == Str("John")
    ensures GetPath(Fixture(), ["Object", "Name"]) == Str("Jake")
    ensures GetPath(Fixture(), ["Values"]) == Arr([Num(1.0), Num(2.0), Num(3.0), Num(9.0), Num(7.0), Num(8.0)])
    ensures GetPath(Fixture(), ["Float"]) == Num(0.01)
  {
    var root := Fixture();
    assert ["Object", "Name"][1..] == ["Name"];
    assert GetPath(root.props["Object"], ["Name"]) == Str("Jake");
  }

  /** Loading the fixture, asynchronously or not, makes its "Name"
      readable. */
  method LoadScenario(env: ProcessEnv, fs: FileSystem, path: string, sync: bool)
    returns (r: Status, name: Value)
    requires path in fs && fs[path].Json? && fs[path].parsed == Fixture()
    ensures r == Done && name == Str("John")
  {
    var conf := new Config(env);
    if sync {
      r := conf.LoadSync(FromPath(path), fs);
    } else {
      r := conf.Load(FromPath(path), fs);
    }
    LoadedFixture();
    FixtureValues();
    SplitSegment("Name");
    name := conf.Get("Name");
  }

  /** A nested property of the loaded fixture is read by a dotted path. */
  method ObjectAccessScenario(env: ProcessEnv, fs: FileSystem, path: string)
    returns (objectName: Value)
    requires path in fs && fs[path].Json? && fs[path].parsed == Fixture()
    ensures objectName == Str("Jake")
  {
    var conf := new Config(env);
    var r := conf.Load(FromPath(path), fs);
    LoadedFixture();
    FixtureValues();
    ObjectNameSplits();
    objectName := conf.Get("Object.Name");
  }

  /** An array property of the loaded fixture is read whole. */
  method ArrayAccessScenario(env: ProcessEnv, fs: FileSystem, path: string)
    returns (values: Value)
    requires path in fs && fs[path].Json? && fs[path].parsed == Fixture()
    ensures values == Arr([Num(1.0), Num(2.0), Num(3.0), Num(9.0), Num(7.0), Num(8.0)])
  {
    var conf := new Config(env);
    var r := conf.Load(FromPath(path), fs);
    LoadedFixture();
    FixtureValues();
    SplitSegment("Values");
    values := conf.Get("Values");
  }

  /** A set on an unlocked store is read back; a set of `undefined` is
      ignored. The test loads the fixture; any JSON object whose "Float" is
      0.01 will do. */
  method SetScenario(env: ProcessEnv, fs: FileSystem, path: string, initial: Value)
    returns (before: Value, afterSet: Value, afterUndefined: Value)
    requires path in fs && fs[path].Json? && fs[path].parsed == initial && initial.Obj?
    requires "Float" in initial.props && initial.props["Float"] == Num(0.01)
    ensures before == Num(0.01)
    ensures afterSet == Num(23.4)
    ensures afterUndefined == Num(23.4)
  {
    var conf := new Config(env);
    var r := conf.Load(FromPath(path), fs);
    JsonObjectLoaded(initial.props);
    assert conf.data == initial.props;
    SplitSegment("Float");
    GetTopLevel(initial.props, "Float");
    before := conf.Get("Float");
    conf.Set("Float", Num(23.4));
    afterSet := conf.Get("Float");
    conf.Set("Float", Undefined);
    afterUndefined := conf.Get("Float");
  }

  /** On a freshly loaded store, a set of `undefined` is ignored. */
  method SetUndefinedScenario(env: ProcessEnv, fs: FileSystem, path: string, initial: Value)
    returns (before: Value, afterUndefined: Value)
    requires path in fs && fs[path].Json? && fs[path].parsed == initial && initial.Obj?
    requires "Float" in initial.props && initial.props["Float"] == Num(0.01)
    ensures before == Num(0.01)
    ensures afterUndefined == Num(0.01)
  {
    var conf := new Config(env);
    var r := conf.Load(FromPath(path), fs);
    JsonObjectLoaded(initial.props);
    assert conf.data == initial.props;
    SplitSegment("Float");
    GetTopLevel(initial.props, "Float");
    before := conf.Get("Float");
    conf.Set("Float", Undefined);
    afterUndefined := conf.Get("Float");
  }

  /** A set on a locked store is ignored; after unlocking it takes effect. */
  method LockScenario(env: ProcessEnv, fs: FileSystem, path: string, initial: Value)
    returns (whileLocked: Value, afterUnlock: Value)
    requires path in fs && fs[path].Json? && fs[path].parsed == initial && initial.Obj?
    requires "Float" in initial.props && initial.props["Float"] == Num(0.01)
    ensures whileLocked == Num(0.01)
    ensures afterUnlock == Num(23.4)
  {
    var conf := new Config(env);
    var r := conf.Load(FromPath(path), fs);
    JsonObjectLoaded(initial.props);
    assert conf.data == initial.props;
    SplitSegment("Float");
    GetTopLevel(initial.props, "Float");
    conf.Lock();
    conf.Set("Float", Num(23.4));
    whileLocked := conf.Get("Float");
    conf.Unlock();
    conf.Set("Float", Num(23.4));
    afterUnlock := conf.Get("Float");
  }

  /** Loading a JSON object into an empty store and setting one property
      leaves data that a save writes out and a reload restores unchanged. */
  lemma SetDataReloads(initial: map<string, Value>, key: string, value: Value)
    requires IsJson(Obj(initial)) && IsJson(value)
    ensures IsJson(Obj(SetPath(Overlaid(map[], initial), [key], value)))
    ensures var edited := SetPath(Overlaid(map[], initial), [key], value);
      OwnProperties(JsonImage(Obj(edited))) == Some(edited) && Overlaid(edited, edited) == edited
  {
    JsonObjectLoaded(initial);
    var edited := SetPath(initial, [key], value);
    assert IsJson(Obj(edited));
    SavedDataReloads(edited, edited);
    assert edited + edited == edited;
  }

  /** A value set, saved to a new file and loaded back from it is still
      there, and the store is unlocked after the save. The test does this
      with the fixture; here the loaded file may hold any JSON object. */
  method SaveReloadScenario(env: ProcessEnv, fs: FileSystem, path: string, initial: Value, savePath: string, sync: bool)
    returns (saved: Status, reloaded: Status, name: Value, lockedAfterSave: bool)
    requires path in fs && fs[path].Json? && fs[path].parsed == initial && initial.Obj?
    ensures saved == Done && reloaded == Done
    ensures name == Str("Elizabeth")
    ensures !lockedAfterSave
  {
    var conf := new Config(env);
    var r;
    if sync {
      r := conf.LoadSync(FromPath(path), fs);
    } else {
      r := conf.Load(FromPath(path), fs);
    }
    SplitSegment("Name");
    conf.Set("Name", Str("Elizabeth"));
    SetDataReloads(initial.props, "Name", Str("Elizabeth"));
    var fs';
    if sync {
      saved, fs' := conf.SaveSync(savePath, fs, true);
    } else {
      saved, fs' := conf.Save(savePath, fs, true);
    }
    lockedAfterSave := conf.locked;
    if sync {
      reloaded := conf.LoadSync(FromPath(savePath), fs');
    } else {
      reloaded := conf.Load(FromPath(savePath), fs');
    }
    name := conf.Get("Name");
  }
}
