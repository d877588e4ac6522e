/** When a resolved profile is, in every field, the fold of its flat list. The kwargs
    and the effort map make the difference: at each join the walk merges a parent
    with all it inherits as one layer, the fold merges the same entries one by one. */
module Flatness {
  import opened Base
  import opened JsonMerge
  import opened Profiles
  import opened Templates
  import opened Flattening

  /** The flat override of a whole list, every field included. */
  function Fold(start: Resolved, list: seq<Written>): Resolved {
    if list == [] then start
    else MergeResolved(Fold(start, list[..|list| - 1]), Own(list[|list| - 1]))
  }

  lemma MergeOntoBlank(s: Resolved)
    ensures MergeResolved(BLANK, s) == s
  {
    assert map[] + s.effortMap == s.effortMap;
    assert MergeMaps(map[], s.kwargs) == s.kwargs;
    assert [] + s.prefixes == s.prefixes;
  }

  lemma {:induction false} FoldJoins(start: Resolved, a: seq<Written>, b: seq<Written>)
    ensures Fold(start, a + b) == Fold(Fold(start, a), b)
  {
    if b == [] {
      assert a + b == a;
    } else {
      FoldJoins(start, a, b[..|b| - 1]);
      assert (a + b)[..|a + b| - 1] == a + b[..|b| - 1];
      hide MergeResolved, Own;
    }
  }

  // ---- one join -----------------------------------------------------------------

  function Layers(list: seq<Written>): (ys: seq<Json>)
    ensures |ys| == |list| && AllObjects(ys)
  {
    if list == [] then [] else Layers(list[..|list| - 1]) + [Object(list[|list| - 1].kwargs)]
  }

  predicate SomeTyped(list: seq<Written>) {
    exists w :: w in list && w.effort.Some?
  }

  /** If some entry sets the typed effort and a later one takes it back, the entries
      must together set every level, and the default, that `start` sets. */
  predicate EffortKept(start: Resolved, list: seq<Written>) {
    var fold := Fold(BLANK, list);
    SomeTyped(list) && fold.effort.None? ==>
      start.effortMap.Keys <= fold.effortMap.Keys && (start.effortDefault.Some? ==> fold.effortDefault.Some?)
  }

  predicate JoinKeeps(start: Resolved, list: seq<Written>) {
    Keeps(Object(start.kwargs), Layers(list)) && EffortKept(start, list)
  }

  lemma {:induction false} FoldKwargs(start: Resolved, list: seq<Written>)
    ensures Object(Fold(start, list).kwargs) == MergeAll(Object(start.kwargs), Layers(list))
  {
    if list != [] {
      FoldKwargs(start, list[..|list| - 1]);
      assert Layers(list)[..|list| - 1] == Layers(list[..|list| - 1]);
    }
  }

  lemma KwargsJoin(start: Resolved, list: seq<Written>)
    ensures MergeResolved(start, Fold(BLANK, list)).kwargs == Fold(start, list).kwargs
            <==> Keeps(Object(start.kwargs), Layers(list))
  {
    var ys := Layers(list);
    FoldKwargs(start, list);
    FoldKwargs(BLANK, list);
    var left := Merge(Object(start.kwargs), Object(Fold(BLANK, list).kwargs));
    assert left == Object(MergeResolved(start, Fold(BLANK, list)).kwargs);
    if list == [] {
      assert Object(start.kwargs) == left by { MergeBlank(start); }
    } else {
      MergeAllFirst(Object(map[]), ys);
      ObjectsEqual(Merge(Object(map[]), ys[0]), ys[0]);
      MergeAllExactly(Object(start.kwargs), ys);
    }
  }

  lemma MergeBlank(start: Resolved)
    ensures MergeResolved(start, BLANK) == start
  {
    assert start.effortMap + map[] == start.effortMap;
    assert MergeMaps(start.kwargs, map[]) == start.kwargs;
    assert start.prefixes + [] == start.prefixes;
  }

  /** How a fold from `start` relates to the same fold from nothing: it has forgotten
      the effort fields of `start`, or has them all underneath. */
  predicate EffortUnder(start: Resolved, f: Resolved, g: Resolved, forgets: bool) {
    if forgets then g.effortMap == f.effortMap && g.effortDefault == f.effortDefault
    else
      && f.effort.None? && g.effortMap == start.effortMap + f.effortMap
      && g.effortDefault == Or(f.effortDefault, start.effortDefault)
  }

  lemma EffortStep(start: Resolved, f: Resolved, g: Resolved, forgets: bool, s: Resolved)
    requires EffortUnder(start, f, g, forgets)
    ensures EffortUnder(start, MergeResolved(f, s), MergeResolved(g, s), forgets || s.effort.Some?)
  {
    hide MergeMaps;
    assert start.effortMap + (f.effortMap + s.effortMap) == start.effortMap + f.effortMap + s.effortMap;
  }

  lemma {:induction false} FoldEffort(start: Resolved, list: seq<Written>)
    ensures EffortUnder(start, Fold(BLANK, list), Fold(start, list), SomeTyped(list))
  {
    if list == [] {
      assert start.effortMap + map[] == start.effortMap;
    } else {
      var front, t := list[..|list| - 1], list[|list| - 1];
      FoldEffort(start, front);
      assert SomeTyped(list) <==> SomeTyped(front) || t.effort.Some? by {
        assert list == front + [t];
      }
      EffortStep(start, Fold(BLANK, front), Fold(start, front), SomeTyped(front), Own(t));
      hide MergeResolved, SomeTyped, EffortUnder;
    }
  }

  lemma EffortJoin(start: Resolved, list: seq<Written>)
    ensures var left, right := MergeResolved(start, Fold(BLANK, list)), Fold(start, list);
            (left.effortMap == right.effortMap && left.effortDefault == right.effortDefault) <==>
                EffortKept(start, list)
  {
    FoldEffort(start, list);
    var f := Fold(BLANK, list);
    hide MergeMaps, Fold, SomeTyped;
    assert map[] + f.effortMap == f.effortMap;
    if SomeTyped(list) && f.effort.None? {
      assert start.effortMap + f.effortMap == f.effortMap <==> start.effortMap.Keys <= f.effortMap.Keys by {
        if start.effortMap + f.effortMap == f.effortMap {
          assert forall k :: k in start.effortMap ==> k in start.effortMap + f.effortMap;
        }
      }
    }
  }

  /** The fields in which no join makes a difference. */
  predicate SimplyEqual(a: Resolved, b: Resolved) {
    && a.upstreamModel == b.upstreamModel && a.prefixes == b.prefixes && a.roles == b.roles
    && a.templateFamily == b.templateFamily && a.nativeVision == b.nativeVision
    && a.capabilities == b.capabilities && a.effort == b.effort
  }

  lemma {:induction false} SimpleJoin(start: Resolved, list: seq<Written>)
    ensures SimplyEqual(MergeResolved(start, Fold(BLANK, list)), Fold(start, list))
  {
    if list == [] {
      MergeBlank(start);
    } else {
      var front, t := list[..|list| - 1], list[|list| - 1];
      SimpleJoin(start, front);
      SimpleFieldsGroup(start, Fold(BLANK, front), Own(t));
      hide MergeResolved, Own;
    }
  }

  /** Merging a parent with all it inherits as one layer is merging the entries one
      by one exactly when no entry clobbers what the layer then covers less of. */
  lemma JoinFoldsExactly(start: Resolved, list: seq<Written>)
    ensures MergeResolved(start, Fold(BLANK, list)) == Fold(start, list) <==> JoinKeeps(start, list)
  {
    KwargsJoin(start, list);
    EffortJoin(start, list);
    SimpleJoin(start, list);
    hide MergeResolved, Fold, Keeps, EffortKept, Layers;
  }

  // ---- the whole walk -------------------------------------------------------------

  /** Every join of the walk, at every depth, keeps what was built before it. */
  ghost predicate JoinsKeep(templates: TemplateMap, names: seq<string>, built: Resolved, stack: seq<string>)
    requires ResolveNames(templates, names, built, stack).Ok?
    decreases Rank(templates, names), AllNames(templates) - Elements(stack), |names|
  {
    names == [] ||
    var t := Lookup(templates, names[0]).value;
    PushDecreases(templates, names, stack, t);
    RestDecreases(templates, names);
    var inner := ResolveNames(templates, Names(t.parents), BLANK, stack + [names[0]]).value;
    && JoinsKeep(templates, Names(t.parents), BLANK, stack + [names[0]])
    && JoinKeeps(built, Reached(templates, Names(t.parents), stack + [names[0]]) + [t])
    && JoinsKeep(templates, names[1..], MergeResolved(built, MergeResolved(inner, Own(t))), stack)
  }

  /** Every profile under construction, at every point of the walk, is the fold of
      the entries merged into it so far. */
  ghost predicate FlatThroughout(
      templates: TemplateMap, names: seq<string>, built: Resolved, sofar: seq<Written>, stack: seq<string>)
    requires ResolveNames(templates, names, built, stack).Ok?
    decreases Rank(templates, names), AllNames(templates) - Elements(stack), |names|
  {
    && built == Fold(BLANK, sofar)
    && (names == [] ||
        var t := Lookup(templates, names[0]).value;
        PushDecreases(templates, names, stack, t);
        RestDecreases(templates, names);
        var inner := ResolveNames(templates, Names(t.parents), BLANK, stack + [names[0]]).value;
        var layer := Reached(templates, Names(t.parents), stack + [names[0]]) + [t];
        && FlatThroughout(templates, Names(t.parents), BLANK, [], stack + [names[0]])
        && FlatThroughout(templates, names[1..], MergeResolved(built, MergeResolved(inner, Own(t))), sofar + layer,
            stack))
  }

  lemma {:induction false} FlatAtTheEnd(
      templates: TemplateMap, names: seq<string>, built: Resolved, sofar: seq<Written>, stack: seq<string>)
    requires ResolveNames(templates, names, built, stack).Ok? && FlatThroughout(templates, names, built, sofar, stack)
    ensures ResolveNames(templates, names, built, stack).value == Fold(BLANK, sofar + Reached(templates, names, stack))
    decreases Rank(templates, names), AllNames(templates) - Elements(stack), |names|
  {
    hide MergeResolved, Own, Fold, Lookup, Names, Elements, AllNames, Rank;
    if names == [] {
      assert sofar + [] == sofar;
    } else {
      var t := Lookup(templates, names[0]).value;
      PushDecreases(templates, names, stack, t);
      RestDecreases(templates, names);
      var inner := ResolveNames(templates, Names(t.parents), BLANK, stack + [names[0]]).value;
      var layer := Reached(templates, Names(t.parents), stack + [names[0]]) + [t];
      FlatAtTheEnd(templates, names[1..], MergeResolved(built, MergeResolved(inner, Own(t))), sofar + layer, stack);
      assert Reached(templates, names, stack) == layer + Reached(templates, names[1..], stack);
      assert sofar + layer + Reached(templates, names[1..], stack)
          == sofar + (layer + Reached(templates, names[1..], stack));
    }
  }

  /** One layer more on a flat profile stays flat exactly when the join keeps it. */
  lemma LayerStaysFlat(built: Resolved, sofar: seq<Written>, inner: Resolved, below: seq<Written>, t: Written)
    requires built == Fold(BLANK, sofar) && inner == Fold(BLANK, below)
    ensures MergeResolved(built, MergeResolved(inner, Own(t))) == Fold(BLANK, sofar + (below + [t]))
            <==> JoinKeeps(built, below + [t])
  {
    assert (below + [t])[..|below|] == below;
    FoldJoins(BLANK, sofar, below + [t]);
    JoinFoldsExactly(built, below + [t]);
    hide MergeResolved, Own, JoinKeeps;
  }

  /** The walk is flat throughout if and only if each of its joins keeps what was
      built before it. */
  lemma {:induction false} FlatThroughoutExactly(
      templates: TemplateMap, names: seq<string>, built: Resolved, sofar: seq<Written>, stack: seq<string>)
    requires ResolveNames(templates, names, built, stack).Ok? && built == Fold(BLANK, sofar)
    ensures FlatThroughout(templates, names, built, sofar, stack) <==> JoinsKeep(templates, names, built, stack)
    decreases Rank(templates, names), AllNames(templates) - Elements(stack), |names|
  {
    hide MergeResolved, Own, JoinKeeps;
    if names != [] {
      var t := Lookup(templates, names[0]).value;
      PushDecreases(templates, names, stack, t);
      RestDecreases(templates, names);
      var deeper := stack + [names[0]];
      var inner := ResolveNames(templates, Names(t.parents), BLANK, deeper).value;
      var below := Reached(templates, Names(t.parents), deeper);
      var merged := MergeResolved(built, MergeResolved(inner, Own(t)));
      assert Fold(BLANK, []) == BLANK;
      FlatThroughoutExactly(templates, Names(t.parents), BLANK, [], deeper);
      if FlatThroughout(templates, Names(t.parents), BLANK, [], deeper) {
        FlatAtTheEnd(templates, Names(t.parents), BLANK, [], deeper);
        assert [] + below == below;
        LayerStaysFlat(built, sofar, inner, below, t);
        hide Fold;
        if merged == Fold(BLANK, sofar + (below + [t])) {
          FlatThroughoutExactly(templates, names[1..], merged, sofar + (below + [t]), stack);
        }
      }
    }
  }

  /** A profile each of whose joins keeps what came before is, in every field, the
      fold of its flat list. */
  lemma ResolvedIsFold(templates: TemplateMap, p: Written)
    requires ResolveProfile(templates, p, []).Ok? && JoinsKeep(templates, Names(p.parents), BLANK, [])
    ensures ResolveProfile(templates, p, []).value == Fold(BLANK, Flat(templates, p))
  {
    assert Fold(BLANK, []) == BLANK;
    FlatThroughoutExactly(templates, Names(p.parents), BLANK, [], []);
    FlatAtTheEnd(templates, Names(p.parents), BLANK, [], []);
    var below := Reached(templates, Names(p.parents), []);
    assert [] + below == below;
    assert (below + [p])[..|below|] == below;
    hide MergeResolved, Own, JoinsKeep, FlatThroughout;
  }

  // ---- families that are always flat ------------------------------------------------

  /** Every name but the first leads to a template that extends nothing. */
  predicate LaterAreRoots(templates: TemplateMap, names: seq<string>) {
    forall i :: 0 < i < |names| && Lookup(templates, names[i]).Some? ==>
        Names(Lookup(templates, names[i]).value.parents) == []
  }

  /** So it is for the profile and for every template. */
  predicate OnlyFirstParentsExtend(templates: TemplateMap, p: Written) {
    && LaterAreRoots(templates, Names(p.parents))
    && forall i :: 0 <= i < |templates| ==> LaterAreRoots(templates, Names(templates[i].1.parents))
  }

  lemma {:induction false} FoundIsListed(templates: TemplateMap, name: string)
    ensures FindExact(templates, name).Some? ==>
              exists i :: 0 <= i < |templates| && templates[i].1 == FindExact(templates, name).value
    ensures FindIgnoringCase(templates, name).Some? ==>
              exists i :: 0 <= i < |templates| && templates[i].1 == FindIgnoringCase(templates, name).value
  {
    if templates != [] {
      FoundIsListed(templates[1..], name);
      assert templates[0] in templates;
      assert forall i :: 0 <= i < |templates| - 1 ==> templates[1..][i] == templates[i + 1];
    }
  }

  lemma BlankIsKept(list: seq<Written>)
    ensures JoinKeeps(BLANK, list)
  {
  }

  lemma OneEntryIsKept(start: Resolved, t: Written)
    ensures JoinKeeps(start, [t])
  {
    assert [t][..0] == [];
    assert Layers([t]) == [Object(t.kwargs)];
    OneIsKept(Object(start.kwargs), Object(t.kwargs));
    assert Fold(BLANK, [t]) == MergeResolved(BLANK, Own(t));
    MergeOntoBlank(Own(t));
    hide MergeResolved, Keeps;
  }

  lemma {:induction false} RootsKeep(
      templates: TemplateMap, names: seq<string>, built: Resolved, stack: seq<string>, p: Written)
    requires ResolveNames(templates, names, built, stack).Ok? && OnlyFirstParentsExtend(templates, p)
    requires LaterAreRoots(templates, names)
    requires names == [] || built == BLANK || Names(Lookup(templates, names[0]).value.parents) == []
    ensures JoinsKeep(templates, names, built, stack)
    decreases Rank(templates, names), AllNames(templates) - Elements(stack), |names|
  {
    hide MergeResolved, Own, JoinKeeps, Fold;
    if names != [] {
      var t := Lookup(templates, names[0]).value;
      PushDecreases(templates, names, stack, t);
      RestDecreases(templates, names);
      FoundIsListed(templates, names[0]);
      var deeper := stack + [names[0]];
      var inner := ResolveNames(templates, Names(t.parents), BLANK, deeper).value;
      var below := Reached(templates, Names(t.parents), deeper);
      RootsKeep(templates, Names(t.parents), BLANK, deeper, p);
      if built == BLANK {
        BlankIsKept(below + [t]);
      } else {
        assert below + [t] == [t];
        OneEntryIsKept(built, t);
      }
      var rest := names[1..];
      assert forall i :: 0 <= i < |rest| ==> rest[i] == names[i + 1];
      assert rest != [] ==> Lookup(templates, names[1]).Some? && Names(Lookup(templates, rest[0]).value.parents) == [];
      RootsKeep(templates, rest, MergeResolved(built, MergeResolved(inner, Own(t))), stack, p);
    }
  }

  /** Where only first parents extend anything, every profile that resolves is the
      fold of its flat list: chains, any number of plain mixins, and chains with
      mixins at every level. */
  lemma MixinsAreFlat(templates: TemplateMap, p: Written)
    requires OnlyFirstParentsExtend(templates, p) && ResolveProfile(templates, p, []).Ok?
    ensures ResolveProfile(templates, p, []).value == Fold(BLANK, Flat(templates, p))
  {
    RootsKeep(templates, Names(p.parents), BLANK, [], p);
    ResolvedIsFold(templates, p);
  }

  // ---- a profile that is not flat ---------------------------------------------------

  const PLAIN := Written([], None, None, None, None, None, map[], map[], None, None, None)

  const BASE := PLAIN.(kwargs := map["o" := Object(map["x" := Null])], effortMap := map["low" := Null])
  const CLOBBER := PLAIN.(kwargs := map["o" := Null], effort := Some(Reasoning(0)))
  const REBUILD := PLAIN.(parents := ["b"], kwargs := map["o" := Object(map["y" := Null])],
                           effortMap := map["high" := Null])
  const TWO_PARENTS := PLAIN.(parents := ["a", "c"])
  const THREE: TemplateMap := [("a", BASE), ("b", CLOBBER), ("c", REBUILD)]

  lemma ThreeNames()
    ensures Names([]) == [] && Names(["b"]) == ["b"] && Names(["a", "c"]) == ["a", "c"]
  {
    assert ["b"][1..] == [] && ["c"][1..] == [] && ["a", "c"][1..] == ["c"];
    assert Trim("a") == "a" && Trim("b") == "b" && Trim("c") == "c";
    assert Names(["c"]) == ["c"];
  }

  lemma ThreeLookups()
    ensures Lookup(THREE, "a") == Some(BASE) && Lookup(THREE, "b") == Some(CLOBBER)
        && Lookup(THREE, "c") == Some(REBUILD)
  {
    assert THREE[1..] == [("b", CLOBBER), ("c", REBUILD)];
    assert THREE[1..][1..] == [("c", REBUILD)];
    assert FindExact(THREE[1..][1..], "c") == Some(REBUILD);
    assert FindExact(THREE[1..], "c") == Some(REBUILD);
    assert FindExact(THREE[1..], "b") == Some(CLOBBER);
  }

  lemma ThreeWalk()
    ensures Flat(THREE, TWO_PARENTS) == [BASE, CLOBBER, REBUILD, TWO_PARENTS]
    ensures ResolveProfile(THREE, TWO_PARENTS, [])
         == Ok(MergeResolved(MergeResolved(Own(BASE), MergeResolved(Own(CLOBBER), Own(REBUILD))), Own(TWO_PARENTS)))
  {
    ThreeNames();
    ThreeLookups();
    hide MergeResolved, Own, Lookup, Names;
    MergeOntoBlank(Own(BASE));
    MergeOntoBlank(Own(CLOBBER));
    assert ["b"][1..] == [] && ["c"][1..] == [] && ["a", "c"][1..] == ["c"];
    assert Reached(THREE, [], []) == [] && Reached(THREE, [], ["a"]) == [] && Reached(THREE, [], ["c"]) == []
        && Reached(THREE, [], ["c", "b"]) == [];
    assert ["c"] + ["b"] == ["c", "b"] && [] + ["c"] == ["c"] && [] + ["a"] == ["a"];
    assert Reached(THREE, ["b"], ["c"]) == [CLOBBER];
    assert Reached(THREE, ["c"], []) == [CLOBBER, REBUILD];
    assert ResolveNames(THREE, ["b"], BLANK, ["c"]) == Ok(Own(CLOBBER));
    assert ResolveNames(THREE, [], BLANK, ["a"]) == Ok(BLANK)
        && ResolveNames(THREE, [], BLANK, ["c", "b"]) == Ok(BLANK);
    assert MergeResolved(BLANK, MergeResolved(BLANK, Own(BASE))) == Own(BASE);
    assert ResolveNames(THREE, ["a", "c"], BLANK, []) == ResolveNames(THREE, ["c"], Own(BASE), []);
    assert ResolveNames(THREE, ["c"], Own(BASE), [])
        == Ok(MergeResolved(Own(BASE), MergeResolved(Own(CLOBBER), Own(REBUILD))));
  }

  /** With two parents it need not be: the second parent's own parent clobbers an
      object and the effort map, is overridden in turn, and only then meets what the
      first parent set. */
  lemma SecondParentBreaksFlatness()
    ensures var nested, flat := ResolveProfile(THREE, TWO_PARENTS, []), Fold(BLANK, Flat(THREE, TWO_PARENTS));
            nested.Ok? && nested.value.kwargs != flat.kwargs && nested.value.effortMap != flat.effortMap
  {
    ThreeWalk();
    var a, b, c, p := Own(BASE), Own(CLOBBER), Own(REBUILD), Own(TWO_PARENTS);
    FourFold();
    GroupingShows(a, b, c);
    SilentProfile(MergeResolved(MergeResolved(a, b), c), p);
    SilentProfile(MergeResolved(a, MergeResolved(b, c)), p);
  }

  lemma FourFold()
    ensures Fold(BLANK, [BASE, CLOBBER, REBUILD, TWO_PARENTS])
         == MergeResolved(MergeResolved(MergeResolved(Own(BASE), Own(CLOBBER)), Own(REBUILD)), Own(TWO_PARENTS))
  {
    var list := [BASE, CLOBBER, REBUILD, TWO_PARENTS];
    assert list[..3] == [BASE, CLOBBER, REBUILD] && list[..3][..2] == [BASE, CLOBBER] && list[..3][..2][..1] == [BASE];
    assert [BASE][..0] == [];
    MergeOntoBlank(Own(BASE));
    hide MergeResolved, Own;
    assert Fold(BLANK, [BASE]) == Own(BASE);
    assert Fold(BLANK, list[..2]) == MergeResolved(Own(BASE), Own(CLOBBER));
    assert Fold(BLANK, list[..3]) == MergeResolved(MergeResolved(Own(BASE), Own(CLOBBER)), Own(REBUILD));
  }

  lemma GroupingShows(a: Resolved, b: Resolved, c: Resolved)
    requires a == Own(BASE) && b == Own(CLOBBER) && c == Own(REBUILD)
    ensures MergeResolved(MergeResolved(a, b), c).kwargs != MergeResolved(a, MergeResolved(b, c)).kwargs
    ensures MergeResolved(MergeResolved(a, b), c).effortMap != MergeResolved(a, MergeResolved(b, c)).effortMap
  {
    KwargsGroupExactly(a, b, c);
    hide MergeMaps, NoClobber, MergeResolved;
    assert "x" in a.kwargs["o"].fields && "x" !in c.kwargs["o"].fields;
    RebuiltClobbers(a.kwargs, b.kwargs, c.kwargs, "o", "x");
    assert "high" in c.effortMap;
    RebuiltEffort(a, b, c, "low");
  }

  lemma RebuiltClobbers(a: JsonMap, b: JsonMap, c: JsonMap, o: Name, x: Name)
    requires o in a && o in b && o in c && a[o].Object? && !b[o].Object? && c[o].Object?
    requires x in a[o].fields && x !in c[o].fields
    ensures !NoClobber(Object(a), Object(b), Object(c))
  {
    assert !Covers(c[o], a[o]);
    assert !NoClobber(a[o], b[o], c[o]);
  }

  lemma RebuiltEffort(a: Resolved, b: Resolved, c: Resolved, level: string)
    requires b.effort.Some? && c.effort.None? && c.effortMap != map[]
    requires level in a.effortMap && level !in b.effortMap && level !in c.effortMap
    ensures MergeResolved(MergeResolved(a, b), c).effortMap != MergeResolved(a, MergeResolved(b, c)).effortMap
  {
    hide MergeMaps;
    assert level in MergeResolved(a, MergeResolved(b, c)).effortMap;
    assert level !in MergeResolved(MergeResolved(a, b), c).effortMap;
  }

  lemma SilentProfile(d: Resolved, p: Resolved)
    requires p.kwargs == map[] && p.effortMap == map[] && p.effort.None?
    ensures MergeResolved(d, p).kwargs == d.kwargs && MergeResolved(d, p).effortMap == d.effortMap
  {
  }
}
