/** Dotted property paths such as "Object.Name": the stand-in for the
    `dot-prop` library the store delegates `get`, `set` and `delete` to. A
    path is split on every '.' into segments, and the segments walk nested
    objects from the store's root. */
module DotPath {
  import opened JsValue

  /** The segments of `path`, split on every '.'; never empty. */
  function Split(path: string): (segs: seq<string>)
    ensures |segs| >= 1
    ensures forall i :: 0 <= i < |segs| ==> '.' !in segs[i]
  {
    if |path| == 0 then [""]
    else
      var rest := Split(path[1..]);
      if path[0] == '.' then [""] + rest
      else [[path[0]] + rest[0]] + rest[1..]
  }

  /** The path that names `segs`: the segments with '.' between them. */
  function Join(segs: seq<string>): string
    requires |segs| >= 1
  {
    if |segs| == 1 then segs[0] else segs[0] + "." + Join(segs[1..])
  }

  predicate NoDots(segs: seq<string>) {
    forall i :: 0 <= i < |segs| ==> '.' !in segs[i]
  }

  /** Splitting a path and joining its segments gives the path back. */
  lemma {:induction false} JoinSplit(path: string)
    ensures Join(Split(path)) == path
  {
    if |path| > 0 {
      JoinSplit(path[1..]);
      var rest := Split(path[1..]);
      if path[0] != '.' && |rest| > 1 {
        assert Join(rest) == rest[0] + "." + Join(rest[1..]);
      }
    }
  }

  /** Segments without dots survive being joined into a path and split again. */
  lemma {:induction false} SplitJoin(segs: seq<string>)
    requires |segs| >= 1 && NoDots(segs)
    ensures Split(Join(segs)) == segs
  {
    if |segs| == 1 {
      SplitSegment(segs[0]);
    } else {
      SplitJoin(segs[1..]);
      SplitThenDot(segs[0], Join(segs[1..]));
      assert [segs[0]] + segs[1..] == segs;
    }
  }

  /** A dot-free string is a single segment. */
  lemma {:induction false} SplitSegment(s: string)
    requires '.' !in s
    ensures Split(s) == [s]
  {
    if |s| > 0 {
      assert '.' !in s[1..] by {
        forall j | 0 <= j < |s[1..]| ensures s[1..][j] != '.' { assert s[1..][j] == s[j + 1]; }
      }
      SplitSegment(s[1..]);
      assert [s[0]] + s[1..] == s;
    }
  }

  /** A dot-free segment followed by '.' and a tail splits into the segment
      and the tail's segments. */
  lemma {:induction false} SplitThenDot(s: string, tail: string)
    requires '.' !in s
    ensures Split(s + "." + tail) == [s] + Split(tail)
  {
    if |s| == 0 {
      assert s + "." + tail == ['.'] + tail;
      assert (['.'] + tail)[1..] == tail;
    } else {
      assert '.' !in s[1..] by {
        forall j | 0 <= j < |s[1..]| ensures s[1..][j] != '.' { assert s[1..][j] == s[j + 1]; }
      }
      SplitThenDot(s[1..], tail);
      var whole := s + "." + tail;
      assert whole[0] == s[0];
      assert whole[1..] == s[1..] + "." + tail;
      assert [s[0]] + s[1..] == s;
    }
  }

  /** Two dot-free segments joined by a '.' split back into those two. */
  lemma SplitTwo(a: string, b: string)
    requires '.' !in a && '.' !in b
    ensures Split(a + "." + b) == [a, b]
  {
    SplitThenDot(a, b);
    SplitSegment(b);
  }

  /** The value at the end of `segs`, starting from `v`; `Undefined` when a
      segment is missing or an intermediate value is not an object. */
  function GetPath(v: Value, segs: seq<string>): (r: Value)
    ensures r != Undefined ==> Resolves(v, segs)
  {
    if segs == [] then v
    else if v.Obj? && segs[0] in v.props then GetPath(v.props[segs[0]], segs[1..])
    else Undefined
  }

  /** A one-segment path reads a top-level property. */
  lemma GetTopLevel(m: map<string, Value>, key: string)
    ensures GetPath(Obj(m), [key]) == if key in m then m[key] else Undefined
  {
  }

  /** True when every segment of `segs` names an existing property of an
      object, starting from `v`.
      A path resolves only when every shorter prefix of it does. */
  predicate Resolves(v: Value, segs: seq<string>)
    ensures Resolves(v, segs) ==> forall n :: 0 <= n < |segs| ==> Resolves(v, segs[..n])
    decreases |segs|
  {
    PrefixTails(segs);
    segs == [] || (v.Obj? && segs[0] in v.props && Resolves(v.props[segs[0]], segs[1..]))
  }

  /** Taking a prefix and dropping the first segment commute. */
  lemma PrefixTails(segs: seq<string>)
    ensures forall n :: 0 < n <= |segs| ==> segs[..n][1..] == segs[1..][..n - 1]
  {
  }

  /** `m` with `value` stored at the end of `segs`. Every intermediate segment
      that is missing or holds something other than an object is replaced by
      a new empty object, so the assignment always takes place. */
  function SetPath(m: map<string, Value>, segs: seq<string>, value: Value): (r: map<string, Value>)
    requires |segs| >= 1
    ensures r.Keys == m.Keys + {segs[0]}
    ensures forall k :: k in m && k != segs[0] ==> r[k] == m[k]
    decreases |segs|
  {
    var key := segs[0];
    if |segs| == 1 then m[key := value]
    else
      var child := if key in m && m[key].Obj? then m[key].props else map[];
      m[key := Obj(SetPath(child, segs[1..], value))]
  }

  /** `m` with the last segment of `segs` removed from the object the other
      segments lead to; `m` itself when those segments do not lead to an
      object. */
  function DeletePath(m: map<string, Value>, segs: seq<string>): (r: map<string, Value>)
    requires |segs| >= 1
    ensures r.Keys == if |segs| == 1 then m.Keys - {segs[0]} else m.Keys
    ensures forall k :: k in r && k != segs[0] ==> r[k] == m[k]
    decreases |segs|
  {
    var key := segs[0];
    if |segs| == 1 then m - {key}
    else if key in m && m[key].Obj? then m[key := Obj(DeletePath(m[key].props, segs[1..]))]
    else m
  }

  /** After a set, the path resolves and reads back the value set. */
  lemma {:induction false} GetAfterSet(m: map<string, Value>, segs: seq<string>, value: Value)
    requires |segs| >= 1
    ensures Resolves(Obj(SetPath(m, segs, value)), segs)
    ensures GetPath(Obj(SetPath(m, segs, value)), segs) == value
    decreases |segs|
  {
    if |segs| > 1 {
      var key := segs[0];
      var child := if key in m && m[key].Obj? then m[key].props else map[];
      GetAfterSet(child, segs[1..], value);
    }
  }

  /** Two paths diverge when they agree on a prefix and then name different
      properties of the same object. */
  predicate Diverge(p: seq<string>, q: seq<string>) {
    exists i :: 0 <= i < |p| && i < |q| && p[..i] == q[..i] && p[i] != q[i]
  }

  lemma DivergeTails(p: seq<string>, q: seq<string>)
    requires Diverge(p, q) && p[0] == q[0]
    ensures Diverge(p[1..], q[1..])
  {
    var i :| 0 <= i < |p| && i < |q| && p[..i] == q[..i] && p[i] != q[i];
    assert i > 0;
    assert p[1..][..i - 1] == p[1..i] == q[1..i] == q[1..][..i - 1];
    assert p[1..][i - 1] != q[1..][i - 1];
  }

  /** A set leaves the value at every path that diverges from its own. */
  lemma {:induction false} SetKeepsOtherPaths(m: map<string, Value>, p: seq<string>, q: seq<string>, value: Value)
    requires |p| >= 1 && Diverge(p, q)
    ensures GetPath(Obj(SetPath(m, p, value)), q) == GetPath(Obj(m), q)
    decreases |p|
  {
    var key := p[0];
    if q[0] == key {
      DivergeTails(p, q);
      var child := if key in m && m[key].Obj? then m[key].props else map[];
      SetKeepsOtherPaths(child, p[1..], q[1..], value);
      if !(key in m && m[key].Obj?) {
        assert q[1..] != [];
      }
    }
  }

  /** After a delete, the path no longer resolves and reads as `Undefined`. */
  lemma {:induction false} GetAfterDelete(m: map<string, Value>, segs: seq<string>)
    requires |segs| >= 1
    ensures !Resolves(Obj(DeletePath(m, segs)), segs)
    ensures GetPath(Obj(DeletePath(m, segs)), segs) == Undefined
    decreases |segs|
  {
    var key := segs[0];
    if |segs| > 1 && key in m && m[key].Obj? {
      GetAfterDelete(m[key].props, segs[1..]);
    }
  }

  /** Deleting a path that does not resolve changes nothing. */
  lemma {:induction false} DeleteUnresolved(m: map<string, Value>, segs: seq<string>)
    requires |segs| >= 1 && !Resolves(Obj(m), segs)
    ensures DeletePath(m, segs) == m
    decreases |segs|
  {
    var key := segs[0];
    if |segs| > 1 && key in m && m[key].Obj? {
      DeleteUnresolved(m[key].props, segs[1..]);
      assert Obj(m[key].props) == m[key];
    }
  }

  /** A delete leaves the value at every path that diverges from its own. */
  lemma {:induction false} DeleteKeepsOtherPaths(m: map<string, Value>, p: seq<string>, q: seq<string>)
    requires |p| >= 1 && Diverge(p, q)
    ensures GetPath(Obj(DeletePath(m, p)), q) == GetPath(Obj(m), q)
    decreases |p|
  {
    var key := p[0];
    if q[0] == key && |p| > 1 && key in m && m[key].Obj? {
      DivergeTails(p, q);
      DeleteKeepsOtherPaths(m[key].props, p[1..], q[1..]);
    }
  }
}
