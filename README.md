# modular-configuration: the `Config` store, in Dafny

This project models the `Config` class of modular-configuration (`index.js`).
A `Config` holds four kinds of state:

- the live configuration `data`, a JavaScript object;
- an append-only `log` of loads;
- a `locked` flag that makes `set` and `delete` do nothing;
- three settings, `environment`, `configDir` and `instance`, that name the default configuration file.

It loads configuration from an in-memory object or from a JSON file, with
`load` (asynchronous) and `loadSync`. Files are merged into `data` by a
shallow overlay. Values are read and written by dotted paths such as
`"Object.Name"`. `save` and `saveSync` write `data` back out, with the store
locked while they serialise it.

Layout:

- `value.dfy` (module `JsValue`) holds JavaScript values, with `Undefined` for
  `undefined`. It also gives the property list `Object.keys` produces, and
  what a value becomes once written as JSON and parsed back.
- `dot_path.dfy` (module `DotPath`) is the dotted-path accessor. It stands in
  for the `dot-prop` library, whose source is not part of this model. A path
  is split on every `.`, and the segments walk nested objects. `set` replaces
  a missing or non-object intermediate with a new empty object.
- `overlay.dfy` (module `OverlayMerge`) specifies the overlay as a function.
  Its lemmas cover what happens to each key, the union form, and idempotence.
- `config.dfy` (module `ConfigStore`) holds the `Config` class. Its methods
  change the fields in place, as the JavaScript does. `overlay` is a loop over
  the incoming keys, proved against the overlay function. Reading a file is a
  lookup in a file system passed in as a value: an absent path is an I/O
  error, and malformed text is a parse error. A save hands back the file
  system with the written file. Whether the write succeeds is a parameter.
- `scenarios.dfy` (module `ConfigScenarios`) replays the repository's tests
  against the class. Each method's postcondition is the test's expectation.

The model follows the code as written; in particular:

- `load` with an object replaces `data` outright (`index.js:23`). `loadSync`
  overlays it instead (`index.js:62`).
- The default path is `configDir + environment + suffix + ".json"`, with no
  separator. The suffix is `"-"` for every instance other than `0` or `'0'`.
  The instance's own value never appears, because `-${instanceStr}` reads the
  still-empty local (`index.js:45-50`, `index.js:78-83`).
- `saveSync` unlocks only after a successful write. When `writeFileSync`
  throws, the store stays locked (`index.js:124-128`). `save` unlocks in the
  write callback, so it unlocks on both outcomes (`index.js:114-120`).
- When a file parses to `null`, the load event is logged first. Then
  `Object.keys(null)` throws inside the `try`, so the load fails with a
  TypeError and `data` is unchanged. A file that parses to an array or a
  string overlays one key per index (`"0"`, `"1"`, ...). One that parses to a
  number or boolean overlays nothing.
- A `load` argument that is neither an object nor a string (no argument, a
  number, a boolean) takes the default-path branch (`Source.Default`).

## Model

| member | source | states |
|---|---|---|
| `JsValue.JsonImage` | index.js:124-128 | serialising a value with `JSON.stringify` and parsing it back always yields a JSON value; objects stay objects |
| `JsValue.JsonImageOfJson` | index.js:111-128 | a JSON value written out and read back is unchanged |
| `JsValue.JsonImageIdempotent` | index.js:124-128 | writing out and reading back twice equals doing it once |
| `JsValue.DecimalInjective` | index.js:88 | distinct array indices have distinct property keys |
| `JsValue.Indexed` | index.js:88 | the keys listed for an array or string are exactly the decimal numerals of its indices, each holding its element |
| `JsValue.OwnProperties` | index.js:88-89 | `Object.keys` throws exactly on `null`/`undefined`; lists an object's own properties and nothing for booleans and numbers |
| `DotPath.Split` | index.js:134-135 | a dotted path splits into at least one segment, none containing a dot |
| `DotPath.JoinSplit` | index.js:134-135 | joining the segments of a path with dots gives the path back |
| `DotPath.SplitJoin` | index.js:134-135 | dot-free segments joined and split again are the same segments |
| `DotPath.SplitTwo` | index.js:134-135 | two dot-free names joined by a dot split into exactly those two segments |
| `DotPath.GetPath` | index.js:134-136 | `get` returns a value other than `undefined` only for a path that resolves |
| `DotPath.Resolves` | index.js:134-136 | a path resolves only when every shorter prefix of it resolves |
| `DotPath.SetPath` | index.js:138-142 | a set adds the path's first segment as a top-level key and leaves every other top-level property as it was |
| `DotPath.DeletePath` | index.js:144-148 | a delete removes the top-level key of a one-segment path and no other key; every other top-level property keeps its value |
| `DotPath.GetAfterSet` | index.js:138-142 | after storing a value at a path, the path resolves and `get` returns that value |
| `DotPath.SetKeepsOtherPaths` | index.js:138-142 | storing at a path leaves the value at every path diverging from it |
| `DotPath.GetAfterDelete` | index.js:144-148 | after a delete the path does not resolve and reads as `undefined` |
| `DotPath.DeleteUnresolved` | index.js:144-148 | deleting a path that does not exist changes nothing |
| `DotPath.DeleteKeepsOtherPaths` | index.js:144-148 | a delete leaves the value at every path diverging from it |
| `OverlayMerge.Overlaid` | index.js:87-95 | an overlay removes no key of the store and adds only keys of the incoming object |
| `OverlayMerge.OverlaidAt` | index.js:87-95 | each defined incoming property is written; a key absent from the incoming object or `undefined` there keeps its presence and value |
| `OverlayMerge.OverlaidIsUnion` | index.js:87-95 | an overlay equals the union of the store with the defined part of the incoming object, incoming winning |
| `OverlayMerge.OverlaidIdempotent` | index.js:87-95 | overlaying the same object twice equals overlaying it once |
| `OverlayMerge.OverlaidNothing` | index.js:90-92 | an object whose properties are all `undefined` changes nothing |
| `OverlayMerge.OverlaidTwice` | index.js:87-95 | successive overlays accumulate, the later load winning on shared keys |
| `ConfigStore.Read` | index.js:26-31 | a read fails with an I/O error when the file is missing and a parse error when the text is malformed; otherwise it yields the parsed value |
| `ConfigStore.DefaultPath` | index.js:45-50 | the default path is `configDir`, then `environment`, then `"-"` exactly when the instance is not `0`/`'0'`, then `.json` |
| `ConfigStore.DefaultPathIgnoresInstanceName` | index.js:78-83 | every instance other than `0`/`'0'` yields the same default path |
| `ConfigStore.DefaultPathDistinguishesZero` | index.js:46-47 | equal default paths for the same directory and environment agree on whether the instance is zero |
| `ConfigStore.FileLoaded` | index.js:25-43 | loading a file: a failed load leaves `data` unchanged; no key is removed; the log grows by at most one entry; the load fails with TypeError exactly when the file parses to `null` |
| `ConfigStore.SavedDataReloads` | index.js:66-73 | data without `undefined`, once saved and loaded back, lists exactly its own properties and overlays as a plain union |
| `ConfigStore.Config.constructor` | index.js:6-14 | a new store is empty, unlocked, with an empty log and settings from the environment or the defaults `'default'`, `cwd + "/config"` and `0` |
| `ConfigStore.Config.ReadEnvironment` | index.js:97-109 | each non-empty environment variable replaces its setting; the others stay |
| `ConfigStore.Config.Load` | index.js:16-54 | an object is logged and replaces `data`; a path (or the default path) is read, logged and overlaid, and a failed read or parse changes nothing |
| `ConfigStore.Config.LoadSync` | index.js:56-85 | as `Load`, except that an object is overlaid onto `data` |
| `ConfigStore.Config.LoadFile` | index.js:25-43 | the string branch: failed read or parse leaves data and log unchanged; success appends exactly one file entry, then overlays or fails with TypeError on `null` |
| `ConfigStore.Config.Overlay` | index.js:87-95 | the loop over the incoming keys leaves `data` equal to the overlay of its old value |
| `ConfigStore.Config.Get` | index.js:134-136 | a value other than `undefined` is only returned for a path that resolves |
| `ConfigStore.Config.Set` | index.js:138-142 | when unlocked and the value is defined, the value is stored at the path and read back; otherwise `data` is unchanged; diverging paths keep their values; `log` and `locked` are not touched |
| `ConfigStore.Config.Delete` | index.js:144-148 | when unlocked the path is removed and reads as `undefined`; locked, or a path that does not exist, leaves `data` unchanged |
| `ConfigStore.Config.Lock` | index.js:154-156 | sets `locked` and nothing else |
| `ConfigStore.Config.Unlock` | index.js:158-160 | clears `locked` and nothing else |
| `ConfigStore.Config.Save` | index.js:111-122 | leaves `data` and `log` unchanged, always ends unlocked, writes the JSON image of `data` on success and reports the write error otherwise |
| `ConfigStore.Config.SaveSync` | index.js:124-128 | leaves `data` and `log` unchanged, writes the JSON image of `data`, and ends unlocked exactly when the write succeeded |
| `ConfigScenarios.JsonObjectLoaded` | test/main.js:18-23 | loading a JSON object into a new store gives exactly its properties |
| `ConfigScenarios.FixtureValues` | test/main.js:27-43 | the fixture holds "John", "Jake", the six values and 0.01 at the paths the tests read |
| `ConfigScenarios.LoadedFixture` | test/main.js:9-23 | loading the fixture into a new store gives exactly the fixture's properties |
| `ConfigScenarios.LoadScenario` | test/main.js:9-23 | after loading the fixture asynchronously or synchronously, the load succeeds and `get('Name')` is "John" |
| `ConfigScenarios.ObjectAccessScenario` | test/main.js:27-34 | after loading the fixture, `get('Object.Name')` is "Jake" |
| `ConfigScenarios.ArrayAccessScenario` | test/main.js:36-43 | after loading the fixture, `get('Values')` is the array 1, 2, 3, 9, 7, 8 |
| `ConfigScenarios.SetScenario` | test/main.js:45-55 | for a loaded JSON object whose "Float" is 0.01, that value is read, a set on the unlocked store is read back, and a later set of `undefined` is ignored |
| `ConfigScenarios.SetUndefinedScenario` | test/main.js:57-67 | for a freshly loaded JSON object whose "Float" is 0.01, a set of `undefined` is ignored and "Float" still reads 0.01 |
| `ConfigScenarios.LockScenario` | test/main.js:69-82 | for a loaded JSON object whose "Float" is 0.01, a set while locked is ignored, and after unlocking it takes effect |
| `ConfigScenarios.SetDataReloads` | test/main.js:107-117 | a loaded JSON object with one property set survives a save and reload unchanged |
| `ConfigScenarios.SaveReloadScenario` | test/main.js:86-117 | a value set, saved to a new file and reloaded from it is read back, and the store is unlocked after a successful save |

## Left out

- `has` (index.js:150-152) calls `dotProp.set` with no value. Its result and its effect on `data` depend on `dot-prop`, which is not part of this model. It does not consult `locked`.
- `all` (index.js:130-132) returns the live `data` object. Values here are immutable, so aliasing is not modelled. Nor is any mutation through that reference, through the caller's object after an asynchronous `load(obj)`, or through nested objects shared by `data` and `log` entries.
- File I/O (`fs.readFile`, `readFileSync`, `writeFile`, `writeFileSync`) and the bluebird promises are left out. A read is a lookup in a file system passed in. A write's success is a parameter, and a failed write leaves the file system as it was. A rejection and a thrown error are both `Failed`.
- JSON text is not modelled. A file holds its already-parsed value or is malformed, and pretty-printing is left out.
- `readEnvironment` reads `process.env`, and the constructor reads `process.cwd()`. Both arrive as a `ProcessEnv` parameter, where an empty string stands for unset.
- Concurrency is left out: interleaved asynchronous `load` and `save` calls, and `set` during a pending `save` write.
- `Config.Save` runs the lock, write and unlock as one step. The window in which a pending write keeps the store locked is not modelled.
- `dot-prop` internals are left out: escaped dots, array-index segments, prototype-key guards and its treatment of non-object roots. The stand-in walks only objects, so an array on a path reads as `undefined`. `set` replaces an array intermediate with an empty object.
- `Overlaid` and `Config.Overlay` treat a `"__proto__"` key like any other and write it into `data`. In JavaScript, `this.data[key] = ...` with that key goes through the prototype setter (`index.js:91`). It creates no own property: a non-object value is ignored, and an object value replaces the prototype of `data`. Prototypes are not modelled, so `OverlaidAt`'s promise that each defined incoming property is written does not hold for that one key.
- Only plain objects are modelled as in-memory `load` sources. `null`, arrays and other values whose `typeof` is `'object'` are not.
- Numbers are opaque reals. NaN and the infinities are not represented.
- A parsed string overlays one key per character. This model's characters are Unicode scalar values, where JavaScript uses UTF-16 code units.
