/** The deep merge of JSON maps that layers upstream kwargs. */
module JsonMerge {
  import opened Base

  type Name = string

  datatype Json =
    | Null
    | Bool(b: bool)
    | Number(text: string)
    | Str(s: string)
    | Array(items: seq<Json>)
    | Object(fields: map<Name, Json>)

  type JsonMap = map<Name, Json>

  /** The value of one merge: objects merge key by key, anything else is replaced. */
  function Merge(destination: Json, source: Json): Json
    decreases source
  {
    if destination.Object? && source.Object? then
      Object(map k | k in destination.fields.Keys + source.fields.Keys ::
               if k !in source.fields then destination.fields[k]
               else if k !in destination.fields then source.fields[k]
               else Merge(destination.fields[k], source.fields[k]))
    else source
  }

  function MergeMaps(destination: JsonMap, source: JsonMap): JsonMap {
    Merge(Object(destination), Object(source)).fields
  }

  /** The program's loop, over the source's keys in any order: the result is the
      same for every order. */
  method MergeJsonMaps(destination: JsonMap, source: JsonMap) returns (merged: JsonMap)
    ensures merged == MergeMaps(destination, source)
    decreases Object(source)
  {
    merged := destination;
    var pending := source.Keys;
    while pending != {}
      invariant pending <= source.Keys
      invariant merged.Keys == destination.Keys + (source.Keys - pending)
      invariant forall k :: k in destination && (k in pending || k !in source) ==> merged[k] == destination[k]
      invariant forall k :: k in source && k !in pending ==> merged[k] == MergeMaps(destination, source)[k]
      decreases pending
    {
      var key :| key in pending;
      assert key in merged <==> key in destination;
      assert MergeMaps(destination, source)[key] == if key in destination then Merge(destination[key], source[key])
          else source[key];
      if key in merged && merged[key].Object? && source[key].Object? {
        assert source[key] < Object(source);
        assert Object(source[key].fields) == source[key];
        assert Object(merged[key].fields) == merged[key];
        var inner := MergeJsonMaps(merged[key].fields, source[key].fields);
        merged := merged[key := Object(inner)];
      } else {
        merged := merged[key := source[key]];
      }
      pending := pending - {key};
    }
  }

  // ---- meaning, path by path -----------------------------------------------

  type Path = seq<Name>

  function At(j: Json, path: Path): Option<Json> {
    if path == [] then Some(j)
    else if j.Object? && path[0] in j.fields then At(j.fields[path[0]], path[1..])
    else None
  }

  /** Walking `path` through `j` reaches an object that misses the next key. */
  predicate FallsOff(j: Json, path: Path) {
    path != [] && j.Object? && (path[0] !in j.fields || FallsOff(j.fields[path[0]], path[1..]))
  }

  /** What a merge of two objects shows at any path: the destination's value where
      the source's walk falls off, else the source's value, merged when both sides
      have an object there. */
  lemma {:induction false} MergeAt(d: Json, s: Json, path: Path)
    requires d.Object? && s.Object?
    ensures At(Merge(d, s), path) ==
              if FallsOff(s, path) then At(d, path)
              else if At(s, path).None? then None
              else if At(d, path).Some? then Some(Merge(At(d, path).value, At(s, path).value))
              else At(s, path)
    decreases |path|
  {
    if path != [] {
      var k := path[0];
      if k in s.fields { FallingOffMeansAbsent(s.fields[k], path[1..]); }
      if k in s.fields && k in d.fields {
        if d.fields[k].Object? && s.fields[k].Object? {
          MergeAt(d.fields[k], s.fields[k], path[1..]);
        }
      }
    }
  }

  /** Every leaf of the source sits at its own path in the result. */
  lemma {:induction false} SourceLeavesWin(d: Json, s: Json, path: Path)
    requires d.Object? && s.Object? && At(s, path).Some? && !At(s, path).value.Object?
    ensures At(Merge(d, s), path) == At(s, path)
  {
    MergeAt(d, s, path);
    FallingOffMeansAbsent(s, path);
  }

  lemma {:induction false} FallingOffMeansAbsent(j: Json, path: Path)
    ensures FallsOff(j, path) ==> At(j, path).None?
    decreases |path|
  {
    if path != [] && j.Object? && path[0] in j.fields { FallingOffMeansAbsent(j.fields[path[0]], path[1..]); }
  }

  /** A leaf of the destination survives exactly when the source falls off its path
      or repeats it. */
  lemma {:induction false} DestinationLeafSurvives(d: Json, s: Json, path: Path)
    requires d.Object? && s.Object? && At(d, path).Some? && !At(d, path).value.Object?
    ensures At(Merge(d, s), path) == At(d, path) <==> FallsOff(s, path) || At(s, path) == At(d, path)
  {
    MergeAt(d, s, path);
  }

  // ---- idempotence ----------------------------------------------------------

  /** Structural equality from equality of the fields. */
  lemma ObjectsEqual(a: Json, b: Json)
    requires a.Object? && b.Object? && a.fields.Keys == b.fields.Keys
    requires forall k :: k in a.fields ==> a.fields[k] == b.fields[k]
    ensures a == b
  {
    assert a.fields == b.fields;
  }

  lemma {:induction false} MergeWithSelf(a: Json)
    ensures Merge(a, a) == a
  {
    if a.Object? {
      forall k | k in a.fields { MergeWithSelf(a.fields[k]); }
      ObjectsEqual(Merge(a, a), a);
    }
  }

  lemma {:induction false} MergeAgain(a: Json, b: Json)
    ensures Merge(Merge(a, b), b) == Merge(a, b)
    decreases b
  {
    if a.Object? && b.Object? {
      var m := Merge(a, b);
      forall k | k in b.fields ensures k in a.fields ==>
          Merge(Merge(a.fields[k], b.fields[k]), b.fields[k]) == Merge(a.fields[k], b.fields[k]) {
        if k in a.fields { MergeAgain(a.fields[k], b.fields[k]); }
      }
      forall k | k in b.fields { MergeWithSelf(b.fields[k]); }
      ObjectsEqual(Merge(m, b), m);
    } else {
      MergeWithSelf(b);
    }
  }

  // ---- associativity ----------------------------------------------------------

  /** Every path of `a` that merging `c` over it would keep is already in `c`: where
      both are objects, `c` has every key of `a`, and likewise below. */
  predicate Covers(c: Json, a: Json)
    decreases c
  {
    a.Object? && c.Object? ==> forall k :: k in a.fields ==> k in c.fields && Covers(c.fields[k], a.fields[k])
  }

  /** Nowhere does a middle scalar or array stand between two objects of which the
      outer one covers less than the inner one holds. */
  predicate NoClobber(a: Json, b: Json, c: Json)
    decreases c
  {
    if !a.Object? || !c.Object? then true
    else if !b.Object? then Covers(c, a)
    else forall k :: k in a.fields && k in b.fields && k in c.fields ==>
        NoClobber(a.fields[k], b.fields[k], c.fields[k])
  }

  lemma {:induction false} CoversExactly(a: Json, c: Json)
    ensures Merge(a, c) == c <==> Covers(c, a)
    decreases c
  {
    if a.Object? && c.Object? {
      forall k | k in a.fields && k in c.fields { CoversExactly(a.fields[k], c.fields[k]); }
      if Covers(c, a) {
        ObjectsEqual(Merge(a, c), c);
      } else {
        var k :| k in a.fields && !(k in c.fields && Covers(c.fields[k], a.fields[k]));
        assert k in Merge(a, c).fields;
        if k in c.fields { assert Merge(a, c).fields[k] == Merge(a.fields[k], c.fields[k]) != c.fields[k]; }
      }
    }
  }

  /** Merging is associative exactly on the triples with no clobbered object. */
  lemma {:induction false} MergeAssociative(a: Json, b: Json, c: Json)
    ensures Merge(Merge(a, b), c) == Merge(a, Merge(b, c)) <==> NoClobber(a, b, c)
    decreases c
  {
    if a.Object? && c.Object? {
      if !b.Object? {
        CoversExactly(a, c);
      } else {
        var left, right := Merge(Merge(a, b), c), Merge(a, Merge(b, c));
        forall k | k in a.fields && k in b.fields && k in c.fields
          ensures left.fields[k] == right.fields[k] <==> NoClobber(a.fields[k], b.fields[k], c.fields[k])
        {
          MergeAssociative(a.fields[k], b.fields[k], c.fields[k]);
        }
        assert left.fields.Keys == right.fields.Keys;
        if NoClobber(a, b, c) { ObjectsEqual(left, right); }
      }
    }
  }

  // ---- a list merged one by one -------------------------------------------------

  function MergeAll(a: Json, ys: seq<Json>): Json {
    if ys == [] then a else Merge(MergeAll(a, ys[..|ys| - 1]), ys[|ys| - 1])
  }

  /** The values the list has under `k`, in order. */
  function Under(ys: seq<Json>, k: Name): seq<Json> {
    if ys == [] then []
    else (if ys[0].Object? && k in ys[0].fields then [ys[0].fields[k]] else []) + Under(ys[1..], k)
  }

  predicate AllObjects(ys: seq<Json>) {
    forall i :: 0 <= i < |ys| ==> ys[i].Object?
  }

  /** What `a` holds outlives a non-object of the list only as far as the list covers
      it; and the same below every key of `a`. */
  predicate Keeps(a: Json, ys: seq<Json>)
    decreases a
  {
    if !a.Object? || ys == [] then true
    else if !AllObjects(ys) then Covers(MergeAll(ys[0], ys[1..]), a)
    else forall k :: k in a.fields ==> Keeps(a.fields[k], Under(ys, k))
  }

  lemma {:induction false} MergeAllFirst(a: Json, ys: seq<Json>)
    requires ys != []
    ensures MergeAll(a, ys) == MergeAll(Merge(a, ys[0]), ys[1..])
    decreases |ys|
  {
    var n := |ys| - 1;
    if n > 0 {
      MergeAllFirst(a, ys[..n]);
      assert ys[..n][1..] == ys[1..][..n - 1];
    } else {
      assert ys[..0] == [];
    }
  }

  /** A list with a non-object in it forgets where it started. */
  lemma {:induction false} NonObjectForgets(a: Json, b: Json, ys: seq<Json>)
    requires !AllObjects(ys)
    ensures MergeAll(a, ys) == MergeAll(b, ys)
    decreases |ys|
  {
    var n := |ys| - 1;
    if ys[n].Object? {
      var i :| 0 <= i < |ys| && !ys[i].Object?;
      assert !ys[..n][i].Object?;
      NonObjectForgets(a, b, ys[..n]);
    }
  }

  /** Key by key, a list of objects merges what each has under the key. */
  lemma {:induction false} MergeAllAt(a: Json, ys: seq<Json>, k: Name)
    requires a.Object? && AllObjects(ys)
    ensures MergeAll(a, ys).Object?
    ensures var f, u := MergeAll(a, ys).fields, Under(ys, k);
            && (k in f <==> k in a.fields || u != [])
            && (k in a.fields ==> f[k] == MergeAll(a.fields[k], u))
            && (k !in a.fields && u != [] ==> f[k] == MergeAll(u[0], u[1..]))
    decreases |ys|
  {
    if ys != [] {
      MergeAllFirst(a, ys);
      MergeAllAt(Merge(a, ys[0]), ys[1..], k);
      var u, rest := Under(ys, k), Under(ys[1..], k);
      if k in ys[0].fields {
        assert u[0] == ys[0].fields[k] && u[1..] == rest;
        if k in a.fields { MergeAllFirst(a.fields[k], u); }
      } else {
        assert u == rest;
      }
    }
  }

  lemma {:induction false} WholeAt(ys: seq<Json>, k: Name)
    requires ys != [] && AllObjects(ys)
    ensures MergeAll(ys[0], ys[1..]).Object?
    ensures var f, u := MergeAll(ys[0], ys[1..]).fields, Under(ys, k);
            (k in f <==> u != []) && (u != [] ==> f[k] == MergeAll(u[0], u[1..]))
  {
    MergeAllAt(ys[0], ys[1..], k);
    var rest, u := Under(ys[1..], k), Under(ys, k);
    if k in ys[0].fields {
      assert u == [ys[0].fields[k]] + rest;
      assert u[0] == ys[0].fields[k] && u[1..] == rest;
      hide MergeAll, Merge, Under;
    } else {
      assert u == rest;
      hide MergeAll, Merge, Under;
    }
  }

  /** What one key of the two groupings has to do with the list below it. */
  ghost predicate KeyAgrees(a: JsonMap, left: JsonMap, right: JsonMap, ys: seq<Json>, k: Name) {
    && (k in left <==> k in right)
    && (k in a ==> k in left)
    && (k in left && k !in a ==> left[k] == right[k])
    && (k in a && k in left && k in right ==> (left[k] == right[k] <==> Keeps(a[k], Under(ys, k))))
  }

  lemma {:induction false} KeyOf(a: Json, ys: seq<Json>, k: Name)
    requires a.Object? && ys != [] && AllObjects(ys)
    requires k in a.fields && Under(ys, k) != [] ==>
               var u := Under(ys, k);
               (MergeAll(a.fields[k], u) == Merge(a.fields[k], MergeAll(u[0], u[1..])) <==> Keeps(a.fields[k], u))
    ensures MergeAll(a, ys).Object? && Merge(a, MergeAll(ys[0], ys[1..])).Object?
    ensures KeyAgrees(a.fields, MergeAll(a, ys).fields, Merge(a, MergeAll(ys[0], ys[1..])).fields, ys, k)
  {
    MergeAllAt(a, ys, k);
    WholeAt(ys, k);
    assert k in a.fields && Under(ys, k) == [] ==>
             MergeAll(a.fields[k], Under(ys, k)) == a.fields[k] && Keeps(a.fields[k], Under(ys, k));
    hide MergeAll, Under, Keeps, AllObjects;
  }

  lemma {:induction false} GroupingAgrees(a: Json, ys: seq<Json>, left: Json, right: Json)
    requires a.Object? && ys != [] && AllObjects(ys) && left.Object? && right.Object?
    requires forall k :: KeyAgrees(a.fields, left.fields, right.fields, ys, k)
    ensures left == right <==> Keeps(a, ys)
  {
    hide Under, AllObjects;
    forall k ensures k in left.fields <==> k in right.fields {
      assert KeyAgrees(a.fields, left.fields, right.fields, ys, k);
    }
    forall k | k in a.fields
        ensures k in left.fields && (left.fields[k] == right.fields[k] <==> Keeps(a.fields[k], Under(ys, k))) {
      assert KeyAgrees(a.fields, left.fields, right.fields, ys, k);
    }
    if Keeps(a, ys) {
      forall k | k in left.fields ensures left.fields[k] == right.fields[k] {
        assert KeyAgrees(a.fields, left.fields, right.fields, ys, k);
      }
      ObjectsEqual(left, right);
    }
  }

  lemma {:induction false} ClobberedExactly(a: Json, ys: seq<Json>)
    requires ys != [] && a.Object? && !AllObjects(ys)
    ensures MergeAll(a, ys) == Merge(a, MergeAll(ys[0], ys[1..])) <==> Keeps(a, ys)
  {
    MergeAllFirst(a, ys);
    CoversExactly(a, MergeAll(ys[0], ys[1..]));
    if ys[0].Object? {
      var i :| 0 <= i < |ys| && !ys[i].Object?;
      assert !ys[1..][i - 1].Object?;
      NonObjectForgets(Merge(a, ys[0]), ys[0], ys[1..]);
    }
  }

  lemma {:induction false} ScalarGroups(a: Json, ys: seq<Json>)
    requires ys != [] && !a.Object?
    ensures MergeAll(a, ys) == Merge(a, MergeAll(ys[0], ys[1..]))
  {
    MergeAllFirst(a, ys);
    hide MergeAll;
  }

  /** Merging a list onto `a` one by one is merging it as a whole exactly when the
      list keeps `a`. */
  lemma {:induction false} MergeAllExactly(a: Json, ys: seq<Json>)
    requires ys != []
    ensures MergeAll(a, ys) == Merge(a, MergeAll(ys[0], ys[1..])) <==> Keeps(a, ys)
    decreases a
  {
    if !a.Object? {
      ScalarGroups(a, ys);
    } else if !AllObjects(ys) {
      ClobberedExactly(a, ys);
    } else {
      var left, right := MergeAll(a, ys), Merge(a, MergeAll(ys[0], ys[1..]));
      MergeAllAt(a, ys, "");
      WholeAt(ys, "");
      hide MergeAll, Merge, Under, AllObjects, Keeps;
      forall k ensures KeyAgrees(a.fields, left.fields, right.fields, ys, k) {
        if k in a.fields && Under(ys, k) != [] { MergeAllExactly(a.fields[k], Under(ys, k)); }
        KeyOf(a, ys, k);
      }
      GroupingAgrees(a, ys, left, right);
    }
  }

  /** One layer is always kept. */
  lemma {:induction false} OneIsKept(a: Json, y: Json)
    ensures Keeps(a, [y])
    decreases a
  {
    if a.Object? && y.Object? {
      forall k | k in a.fields ensures Keeps(a.fields[k], Under([y], k)) {
        if k in y.fields {
          OneIsKept(a.fields[k], y.fields[k]);
          assert Under([y], k) == [y.fields[k]];
        } else {
          assert Under([y], k) == [];
        }
      }
    }
  }
}
