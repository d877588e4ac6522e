/** Nested inheritance read as one flat list: everything a profile reaches, in
    depth-first post-order, with the profile itself last. For most fields the
    resolved profile is a plain override along that list. */
module Flattening {
  import opened Base
  import opened JsonMerge
  import opened Profiles
  import opened Templates

  /** The templates a walk merges, in the order it completes them; cut short where
      the walk stops with an error. */
  function Reached(templates: TemplateMap, names: seq<string>, stack: seq<string>): seq<Written>
    decreases Rank(templates, names), AllNames(templates) - Elements(stack), |names|
  {
    if names == [] || names[0] in stack then []
    else
      match Lookup(templates, names[0])
      case None => []
      case Some(t) =>
        PushDecreases(templates, names, stack, t);
        RestDecreases(templates, names);
        Reached(templates, Names(t.parents), stack + [names[0]]) + [t] + Reached(templates, names[1..], stack)
  }

  function Flat(templates: TemplateMap, p: Written): seq<Written> {
    Reached(templates, Names(p.parents), []) + [p]
  }

  /** `t` is what some walk from `names` ends at. */
  ghost predicate WalkedTo(templates: TemplateMap, names: seq<string>, t: Written) {
    exists w :: Walk(templates, names, w) && Declares(templates, w[|w| - 1], t)
  }

  /** The templates listed are exactly the ones some walk ends at. */
  lemma {:induction false} ReachedIsWalkedTo(
      templates: TemplateMap, names: seq<string>, built: Resolved, stack: seq<string>, t: Written)
    requires ResolveNames(templates, names, built, stack).Ok?
    ensures t in Reached(templates, names, stack) <==> WalkedTo(templates, names, t)
    decreases Rank(templates, names), AllNames(templates) - Elements(stack), |names|
  {
    hide MergeResolved, Own;
    if names != [] {
      var head := Lookup(templates, names[0]).value;
      PushDecreases(templates, names, stack, head);
      RestDecreases(templates, names);
      var parents := ResolveNames(templates, Names(head.parents), BLANK, stack + [names[0]]).value;
      ReachedIsWalkedTo(templates, Names(head.parents), BLANK, stack + [names[0]], t);
      ReachedIsWalkedTo(templates, names[1..], MergeResolved(built, MergeResolved(parents, Own(head))), stack, t);
      WalksSplit(templates, names, head, t);
    }
  }

  lemma WalkedFromHead(templates: TemplateMap, names: seq<string>, head: Written, t: Written)
    requires names != [] && Lookup(templates, names[0]) == Some(head)
    ensures head == t || WalkedTo(templates, Names(head.parents), t) || WalkedTo(templates, names[1..], t) ==>
              WalkedTo(templates, names, t)
  {
    hide Lookup, Names, Declares;
    if head == t { WalkedToHead(templates, names, t); }
    if w :| Walk(templates, Names(head.parents), w) && Declares(templates, w[|w| - 1], t) {
      WalkedPastHead(templates, names, head, t, w);
    }
    if w :| Walk(templates, names[1..], w) && Declares(templates, w[|w| - 1], t) {
      SameWalk(templates, names[1..], names, w);
    }
  }

  lemma WalkedToHead(templates: TemplateMap, names: seq<string>, t: Written)
    requires names != [] && Lookup(templates, names[0]) == Some(t)
    ensures WalkedTo(templates, names, t)
  {
    LookupMeaning(templates, names[0]);
    hide Lookup, Names, Declares;
    var one := [names[0]];
    assert Walk(templates, names, one) && Declares(templates, one[|one| - 1], t);
  }

  lemma WalkedPastHead(templates: TemplateMap, names: seq<string>, head: Written, t: Written, w: seq<string>)
    requires names != [] && Lookup(templates, names[0]) == Some(head)
    requires Walk(templates, Names(head.parents), w) && Declares(templates, w[|w| - 1], t)
    ensures WalkedTo(templates, names, t)
  {
    hide Lookup, Names, Declares;
    var longer := [names[0]] + w;
    assert longer[1..] == w && longer[|longer| - 1] == w[|w| - 1];
    WalkOn(templates, names, longer);
  }

  lemma WalksSplit(templates: TemplateMap, names: seq<string>, head: Written, t: Written)
    requires names != [] && Lookup(templates, names[0]) == Some(head)
    ensures WalkedTo(templates, names, t)
       <==> head == t || WalkedTo(templates, Names(head.parents), t) || WalkedTo(templates, names[1..], t)
  {
    WalkedFromHead(templates, names, head, t);
    LookupMeaning(templates, names[0]);
    if w :| Walk(templates, names, w) && Declares(templates, w[|w| - 1], t) {
      if |w| > 1 { WalkOn(templates, names, w); }
      hide Lookup, Names, Declares, Walk;
      HeadOrRest(templates, names, head, t, w);
    }
    hide Lookup, Names, Declares, Walk;
  }

  lemma HeadOrRest(templates: TemplateMap, names: seq<string>, head: Written, t: Written, w: seq<string>)
    requires names != [] && Lookup(templates, names[0]) == Some(head)
    requires Walk(templates, names, w) && Declares(templates, w[|w| - 1], t)
    ensures head == t || WalkedTo(templates, Names(head.parents), t) || WalkedTo(templates, names[1..], t)
  {
    hide Lookup, Names, Declares;
    if w[0] != names[0] {
      assert w[0] in names[1..];
      SameWalk(templates, names, names[1..], w);
    } else {
      ThroughHead(templates, names, head, t, w);
    }
  }

  lemma ThroughHead(templates: TemplateMap, names: seq<string>, head: Written, t: Written, w: seq<string>)
    requires names != [] && Lookup(templates, names[0]) == Some(head) && w != [] && w[0] == names[0]
    requires Walk(templates, names, w) && Declares(templates, w[|w| - 1], t)
    ensures head == t || WalkedTo(templates, Names(head.parents), t)
  {
    if |w| > 1 {
      WalkOn(templates, names, w);
      hide Lookup, Names, Declares, Walk;
      assert w[1..][|w| - 2] == w[|w| - 1];
    } else {
      LookupMeaning(templates, names[0]);
      hide Lookup, Names, Walk;
    }
  }

  lemma SameWalk(templates: TemplateMap, names: seq<string>, others: seq<string>, w: seq<string>)
    requires Walk(templates, names, w) && w[0] in others
    ensures Walk(templates, others, w)
  {
    hide Declares;
  }

  /** When a profile resolves, its flat list holds itself and exactly the templates
      reachable from it. */
  lemma FlatIsReachable(templates: TemplateMap, p: Written, t: Written)
    requires ResolveProfile(templates, p, []).Ok?
    ensures t in Flat(templates, p) <==> t == p || WalkedTo(templates, Names(p.parents), t)
  {
    ReachedIsWalkedTo(templates, Names(p.parents), BLANK, [], t);
  }

  // ---- the prompt prefixes --------------------------------------------------------

  /** The nonblank prefixes of a list, trimmed, in order. */
  function Prefixes(list: seq<Written>): seq<string> {
    if list == [] then []
    else
      var prefix := TrimNonempty(list[0].systemPromptPrefix);
      (if prefix.Some? then [prefix.value] else []) + Prefixes(list[1..])
  }

  lemma {:induction false} PrefixesJoin(a: seq<Written>, b: seq<Written>)
    ensures Prefixes(a + b) == Prefixes(a) + Prefixes(b)
  {
    if a == [] {
      assert a + b == b;
    } else {
      assert (a + b)[1..] == a[1..] + b;
      PrefixesJoin(a[1..], b);
    }
  }

  // ---- the fields that override -------------------------------------------------

  /** What a profile decides about effort: the typed value it leaves, and whether it
      sets both syntaxes at once. */
  datatype Choice = Choice(typed: Option<Reasoning>, both: bool)

  function EffortChoice(r: Resolved): Option<Choice> {
    if r.effort.Some? || SetsEffortMap(r.effortMap, r.effortDefault)
    then Some(Choice(r.effort, Conflicted(r))) else None
  }

  predicate Conflicted(r: Resolved) {
    r.effort.Some? && SetsEffortMap(r.effortMap, r.effortDefault)
  }

  function ModelOf(w: Written): Option<string> { TrimNonempty(w.upstreamModel) }
  function FamilyOf(w: Written): Option<string> { TrimNonempty(w.templateFamily) }
  function VisionOf(w: Written): Option<bool> { w.nativeVision }
  function RolesOf(w: Written): Option<Roles> { w.roles }
  function CapabilitiesOf(w: Written): Option<Capabilities> { w.capabilities }
  function ChoiceOf(w: Written): Option<Choice> {
    var mapped := w.effortMap != map[] || w.effortDefault.Some?;
    if w.effort.Some? || mapped then Some(Choice(w.effort, w.effort.Some? && mapped)) else None
  }

  /** `r` is `start` overridden by the list, field by field. */
  ghost predicate Overrides(start: Resolved, list: seq<Written>, r: Resolved) {
    && r.upstreamModel == Or(LastSet(list, ModelOf), start.upstreamModel)
    && r.templateFamily == Or(LastSet(list, FamilyOf), start.templateFamily)
    && r.nativeVision == Or(LastSet(list, VisionOf), start.nativeVision)
    && r.roles == Or(LastSet(list, RolesOf), start.roles)
    && r.capabilities == Or(LastSet(list, CapabilitiesOf), start.capabilities)
    && EffortChoice(r) == Or(LastSet(list, ChoiceOf), EffortChoice(start))
    && r.prefixes == start.prefixes + Prefixes(list)
  }

  lemma MergeChoice(d: Resolved, s: Resolved)
    ensures EffortChoice(MergeResolved(d, s)) == Or(EffortChoice(s), EffortChoice(d))
  {
    hide MergeMaps;
    if s.effortMap != map[] {
      var k :| k in s.effortMap;
      assert k in MergeResolved(d, s).effortMap;
    }
    assert d.effortMap + map[] == d.effortMap;
  }

  lemma OwnOverrides(start: Resolved, t: Written)
    ensures Overrides(start, [t], MergeResolved(start, Own(t)))
  {
    MergeChoice(start, Own(t));
    LastSetOne(t, ModelOf);
    LastSetOne(t, FamilyOf);
    LastSetOne(t, VisionOf);
    LastSetOne(t, RolesOf);
    LastSetOne(t, CapabilitiesOf);
    LastSetOne(t, ChoiceOf);
    assert Prefixes([t]) == Own(t).prefixes by { assert [t][1..] == []; }
    hide MergeMaps, Trim, EffortChoice, LastSet, Prefixes;
  }

  lemma OverridesJoin(start: Resolved, a: seq<Written>, middle: Resolved, b: seq<Written>, r: Resolved)
    requires Overrides(start, a, middle) && Overrides(middle, b, r)
    ensures Overrides(start, a + b, r)
  {
    LastSetJoins(a, b, ModelOf);
    LastSetJoins(a, b, FamilyOf);
    LastSetJoins(a, b, VisionOf);
    LastSetJoins(a, b, RolesOf);
    LastSetJoins(a, b, CapabilitiesOf);
    LastSetJoins(a, b, ChoiceOf);
    PrefixesJoin(a, b);
    hide LastSet, Prefixes, EffortChoice;
  }

  /** Merging what a list made of nothing is overriding by the list. */
  lemma MergedListOverrides(start: Resolved, list: seq<Written>, s: Resolved)
    requires Overrides(BLANK, list, s)
    ensures Overrides(start, list, MergeResolved(start, s))
  {
    MergeChoice(start, s);
    assert EffortChoice(BLANK) == None;
    hide LastSet, Prefixes, EffortChoice, MergeMaps;
  }

  lemma {:induction false} WalkOverrides(
      templates: TemplateMap, names: seq<string>, built: Resolved, stack: seq<string>)
    requires ResolveNames(templates, names, built, stack).Ok?
    ensures Overrides(built, Reached(templates, names, stack), ResolveNames(templates, names, built, stack).value)
    decreases Rank(templates, names), AllNames(templates) - Elements(stack), |names|
  {
    if names == [] {
    } else {
      var t := Lookup(templates, names[0]).value;
      PushDecreases(templates, names, stack, t);
      RestDecreases(templates, names);
      var inner := ResolveNames(templates, Names(t.parents), BLANK, stack + [names[0]]).value;
      var below := Reached(templates, Names(t.parents), stack + [names[0]]);
      var layer := MergeResolved(inner, Own(t));
      WalkOverrides(templates, Names(t.parents), BLANK, stack + [names[0]]);
      WalkOverrides(templates, names[1..], MergeResolved(built, layer), stack);
      LayerOverrides(built, below, inner, t);
      OverridesJoin(built, below + [t], MergeResolved(built, layer), Reached(templates, names[1..], stack),
                    ResolveNames(templates, names, built, stack).value);
    }
  }

  lemma LayerOverrides(built: Resolved, below: seq<Written>, inner: Resolved, t: Written)
    requires Overrides(BLANK, below, inner)
    ensures Overrides(built, below + [t], MergeResolved(built, MergeResolved(inner, Own(t))))
  {
    hide Overrides, MergeResolved, Own;
    OwnOverrides(inner, t);
    OverridesJoin(BLANK, below, inner, [t], MergeResolved(inner, Own(t)));
    MergedListOverrides(built, below + [t], MergeResolved(inner, Own(t)));
  }

  /** Nested inheritance equals a flat override: the model, family, vision, roles,
      capabilities and effort decision are the last one set along the flat list, and
      the prompt prefixes are its concatenation. */
  lemma ResolvedIsFlatOverride(templates: TemplateMap, p: Written)
    requires ResolveProfile(templates, p, []).Ok?
    ensures Overrides(BLANK, Flat(templates, p), ResolveProfile(templates, p, []).value)
  {
    WalkOverrides(templates, Names(p.parents), BLANK, []);
    var parents := ResolveNames(templates, Names(p.parents), BLANK, []).value;
    OwnOverrides(parents, p);
    OverridesJoin(BLANK, Reached(templates, Names(p.parents), []), parents, [p], MergeResolved(parents, Own(p)));
  }

  /** The effort conflict is reported exactly when the last listed entry that says
      anything about effort says it in both syntaxes. */
  lemma ConflictExactly(templates: TemplateMap, p: Written)
    requires ResolveProfile(templates, p, []).Ok?
    ensures Conflicted(ResolveProfile(templates, p, []).value) <==>
            LastSet(Flat(templates, p), ChoiceOf).Some? && LastSet(Flat(templates, p), ChoiceOf).value.both
  {
    ResolvedIsFlatOverride(templates, p);
  }

  /** So profiles that each keep to one syntax never meet that conflict. */
  lemma OneSyntaxEachNeverConflicts(templates: TemplateMap, p: Written)
    requires ResolveProfile(templates, p, []).Ok?
    requires forall w :: w in Flat(templates, p) ==> w.effort.None? || (w.effortMap == map[] && w.effortDefault.None?)
    ensures !Conflicted(ResolveProfile(templates, p, []).value)
  {
    ConflictExactly(templates, p);
    LastSetMeaning(Flat(templates, p), ChoiceOf);
  }
}
