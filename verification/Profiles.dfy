/** Model profiles and the two merges that layer them: a resolved template onto a
    profile under construction, and a written profile onto it. */
module Profiles {
  import opened Base
  import opened JsonMerge

  /** Opaque configuration values: an identity, and for roles whether their own
      validation accepts them. */
  datatype Roles = Roles(id: nat, valid: bool)
  datatype Capabilities = Capabilities(id: nat)
  datatype Reasoning = Reasoning(id: nat)

  /** A profile or template as written; `parents` are its `extends` names. */
  datatype Written = Written(
    parents: seq<string>,
    upstreamModel: Option<string>,
    systemPromptPrefix: Option<string>,
    roles: Option<Roles>,
    templateFamily: Option<string>,
    nativeVision: Option<bool>,
    kwargs: JsonMap,
    effortMap: map<string, Json>,
    effortDefault: Option<string>,
    capabilities: Option<Capabilities>,
    effort: Option<Reasoning>)

  datatype Resolved = Resolved(
    upstreamModel: Option<string>,
    prefixes: seq<string>,
    roles: Option<Roles>,
    templateFamily: Option<string>,
    nativeVision: Option<bool>,
    kwargs: JsonMap,
    effortMap: map<string, Json>,
    effortDefault: Option<string>,
    capabilities: Option<Capabilities>,
    effort: Option<Reasoning>)

  const BLANK := Resolved(None, [], None, None, None, map[], map[], None, None, None)

  // ---- trimming ---------------------------------------------------------------

  /** The code points with the Unicode White_Space property. */
  predicate IsWhitespace(c: char) {
    var n := c as int;
    || 0x09 <= n <= 0x0D || n == 0x20 || n == 0x85 || n == 0xA0 || n == 0x1680
    || 0x2000 <= n <= 0x200A || n == 0x2028 || n == 0x2029 || n == 0x202F || n == 0x205F || n == 0x3000
  }

  /** The twenty-five characters of that property. */
  const WHITE_SPACE: string :=
    "\U{0009}\U{000A}\U{000B}\U{000C}\U{000D}\U{0020}\U{0085}\U{00A0}\U{1680}" +
    "\U{2000}\U{2001}\U{2002}\U{2003}\U{2004}\U{2005}\U{2006}\U{2007}\U{2008}\U{2009}\U{200A}" +
    "\U{2028}\U{2029}\U{202F}\U{205F}\U{3000}"

  function TrimStart(s: string): string {
    if s != [] && IsWhitespace(s[0]) then TrimStart(s[1..]) else s
  }

  function TrimEnd(s: string): string {
    if s != [] && IsWhitespace(s[|s| - 1]) then TrimEnd(s[..|s| - 1]) else s
  }

  function Trim(s: string): string {
    TrimEnd(TrimStart(s))
  }

  function TrimNonempty(s: Option<string>): Option<string> {
    if s.Some? && Trim(s.value) != [] then Some(Trim(s.value)) else None
  }

  // ---- the two merges ---------------------------------------------------------

  predicate SetsEffortMap(map_: map<string, Json>, default: Option<string>) {
    map_ != map[] || default.Some?
  }

  function MergeResolved(d: Resolved, s: Resolved): Resolved {
    var typed := s.effort.Some?;
    var mapped := !typed && SetsEffortMap(s.effortMap, s.effortDefault);
    Resolved(
      Or(s.upstreamModel, d.upstreamModel),
      d.prefixes + s.prefixes,
      Or(s.roles, d.roles),
      Or(s.templateFamily, d.templateFamily),
      Or(s.nativeVision, d.nativeVision),
      MergeMaps(d.kwargs, s.kwargs),
      (if typed then map[] else d.effortMap) + s.effortMap,
      Or(s.effortDefault, if typed then None else d.effortDefault),
      Or(s.capabilities, d.capabilities),
      if typed then s.effort else if mapped then None else d.effort)
  }

  /** A written profile on its own, before anything it extends. */
  function Own(p: Written): Resolved {
    var prefix := TrimNonempty(p.systemPromptPrefix);
    Resolved(
      TrimNonempty(p.upstreamModel),
      if prefix.Some? then [prefix.value] else [],
      p.roles,
      TrimNonempty(p.templateFamily),
      p.nativeVision,
      p.kwargs, p.effortMap, p.effortDefault, p.capabilities, p.effort)
  }

  /** The profile being built, updated in place. */
  class Building {
    var upstreamModel: Option<string>
    var prefixes: seq<string>
    var roles: Option<Roles>
    var templateFamily: Option<string>
    var nativeVision: Option<bool>
    var kwargs: JsonMap
    var effortMap: map<string, Json>
    var effortDefault: Option<string>
    var capabilities: Option<Capabilities>
    var effort: Option<Reasoning>

    function Value(): Resolved
      reads this
    {
      Resolved(upstreamModel, prefixes, roles, templateFamily, nativeVision, kwargs, effortMap, effortDefault,
               capabilities, effort)
    }

    constructor ()
      ensures Value() == BLANK
    {
      upstreamModel, prefixes, roles, templateFamily, nativeVision := None, [], None, None, None;
      kwargs, effortMap, effortDefault, capabilities, effort := map[], map[], None, None, None;
    }

    /** The rule both merges share for the two effort syntaxes: the typed one wipes
        the mapped one, the mapped one wipes the typed one. */
    method SwitchEffort(typed: Option<Reasoning>, newMap: map<string, Json>, newDefault: Option<string>)
      modifies this
      ensures Value() == old(Value()).(
                effortMap := if typed.Some? then map[] else old(effortMap),
                effortDefault := if typed.Some? then None else old(effortDefault),
                effort := if typed.Some? then typed else if SetsEffortMap(newMap, newDefault) then None
                    else old(effort))
    {
      if typed.Some? {
        effort := typed;
        effortMap := map[];
        effortDefault := None;
      } else if newMap != map[] || newDefault.Some? {
        effort := None;
      }
    }

    method InsertLevels(levels: map<string, Json>)
      modifies this
      ensures Value() == old(Value()).(effortMap := old(effortMap) + levels)
    {
      var pending := levels.Keys;
      while pending != {}
        invariant pending <= levels.Keys
        invariant effortMap == old(effortMap) + (levels - pending)
        invariant Value() == old(Value()).(effortMap := effortMap)
        decreases pending
      {
        var level :| level in pending;
        effortMap := effortMap[level := levels[level]];
        pending := pending - {level};
      }
      assert levels - {} == levels;
    }

    /** The settings a later profile simply overrides when it sets them. */
    method Override(model: Option<string>, family: Option<string>, vision: Option<bool>, newRoles: Option<Roles>,
                    newCapabilities: Option<Capabilities>)
      modifies this
      ensures Value() == old(Value()).(
                upstreamModel := Or(model, old(upstreamModel)),
                templateFamily := Or(family, old(templateFamily)),
                nativeVision := Or(vision, old(nativeVision)),
                roles := Or(newRoles, old(roles)),
                capabilities := Or(newCapabilities, old(capabilities)))
    {
      if model.Some? { upstreamModel := model; }
      if family.Some? { templateFamily := family; }
      if vision.Some? { nativeVision := vision; }
      if newRoles.Some? { roles := newRoles; }
      if newCapabilities.Some? { capabilities := newCapabilities; }
    }

    /** The effort fields and the kwargs, in the order both merges touch them. */
    method MergeSettings(
        typed: Option<Reasoning>, newMap: map<string, Json>, newDefault: Option<string>, newKwargs: JsonMap)
      modifies this
      ensures Value() == old(Value()).(
                kwargs := MergeMaps(old(kwargs), newKwargs),
                effortMap := (if typed.Some? then map[] else old(effortMap)) + newMap,
                effortDefault := Or(newDefault, if typed.Some? then None else old(effortDefault)),
                effort := if typed.Some? then typed else if SetsEffortMap(newMap, newDefault) then None
                    else old(effort))
    {
      SwitchEffort(typed, newMap, newDefault);
      kwargs := MergeJsonMaps(kwargs, newKwargs);
      InsertLevels(newMap);
      if newDefault.Some? { effortDefault := newDefault; }
    }

    method Merge(source: Resolved)
      modifies this
      ensures Value() == MergeResolved(old(Value()), source)
    {
      Override(source.upstreamModel, source.templateFamily, source.nativeVision, source.roles, source.capabilities);
      prefixes := prefixes + source.prefixes;
      MergeSettings(source.effort, source.effortMap, source.effortDefault, source.kwargs);
    }

    /** Merging a written profile is merging what it says on its own. */
    method MergeWritten(source: Written)
      modifies this
      ensures Value() == MergeResolved(old(Value()), Own(source))
    {
      Override(TrimNonempty(source.upstreamModel), TrimNonempty(source.templateFamily), source.nativeVision,
               source.roles, source.capabilities);
      var prefix := TrimNonempty(source.systemPromptPrefix);
      if prefix.Some? { prefixes := prefixes + [prefix.value]; }
      assert prefixes == old(prefixes) + Own(source).prefixes;
      MergeSettings(source.effort, source.effortMap, source.effortDefault, source.kwargs);
    }
  }

  // ---- grouping ---------------------------------------------------------------

  /** The fields in which grouping never matters. */
  lemma SimpleFieldsGroup(a: Resolved, b: Resolved, c: Resolved)
    ensures var left, right := MergeResolved(MergeResolved(a, b), c), MergeResolved(a, MergeResolved(b, c));
            && left.upstreamModel == right.upstreamModel && left.prefixes == right.prefixes && left.roles == right.roles
            && left.templateFamily == right.templateFamily && left.nativeVision == right.nativeVision
            && left.capabilities == right.capabilities && left.effort == right.effort
  {
    hide MergeMaps;
    assert a.prefixes + b.prefixes + c.prefixes == a.prefixes + (b.prefixes + c.prefixes);
  }

  /** Grouping matters to the kwargs exactly when an object is clobbered by a
      non-object and then written over again with less than it held. */
  lemma KwargsGroupExactly(a: Resolved, b: Resolved, c: Resolved)
    ensures MergeResolved(MergeResolved(a, b), c).kwargs == MergeResolved(a, MergeResolved(b, c)).kwargs
            <==> NoClobber(Object(a.kwargs), Object(b.kwargs), Object(c.kwargs))
  {
    MergeAssociative(Object(a.kwargs), Object(b.kwargs), Object(c.kwargs));
    assert Object(MergeMaps(a.kwargs, b.kwargs)) == Merge(Object(a.kwargs), Object(b.kwargs));
    assert Object(MergeMaps(b.kwargs, c.kwargs)) == Merge(Object(b.kwargs), Object(c.kwargs));
  }

  /** What must already be overridden for the effort fields to group: a mapped
      profile over a typed one forgets what lies below only if it is merged last. */
  predicate EffortGroups(a: Resolved, b: Resolved, c: Resolved) {
    b.effort.Some? && c.effort.None? && SetsEffortMap(c.effortMap, c.effortDefault) ==>
      && a.effortMap.Keys <= b.effortMap.Keys + c.effortMap.Keys
      && (a.effortDefault.Some? ==> b.effortDefault.Some? || c.effortDefault.Some?)
  }

  lemma EffortGroupsExactly(a: Resolved, b: Resolved, c: Resolved)
    ensures var left, right := MergeResolved(MergeResolved(a, b), c), MergeResolved(a, MergeResolved(b, c));
            (left.effortMap == right.effortMap && left.effortDefault == right.effortDefault) <==> EffortGroups(a, b, c)
  {
    hide MergeMaps;
    var left, right := MergeResolved(MergeResolved(a, b), c), MergeResolved(a, MergeResolved(b, c));
    if b.effort.Some? && c.effort.None? && SetsEffortMap(c.effortMap, c.effortDefault) {
      assert b.effortMap + c.effortMap != map[] || Or(c.effortDefault, b.effortDefault).Some? by {
        if c.effortMap != map[] {
          var k :| k in c.effortMap;
          assert k in b.effortMap + c.effortMap;
        }
      }
      assert map[] + b.effortMap == b.effortMap;
      assert left.effortMap == b.effortMap + c.effortMap;
      assert right.effortMap == a.effortMap + (b.effortMap + c.effortMap);
      if left.effortMap == right.effortMap {
        assert forall k :: k in a.effortMap ==> k in right.effortMap;
      }
    } else {
      EffortGroupsOtherwise(a, b, c);
    }
  }

  /** The outer profile says nothing in the mapped syntax, or is typed itself. */
  lemma EffortGroupsOtherwise(a: Resolved, b: Resolved, c: Resolved)
    requires !(b.effort.Some? && c.effort.None? && SetsEffortMap(c.effortMap, c.effortDefault))
    ensures var left, right := MergeResolved(MergeResolved(a, b), c), MergeResolved(a, MergeResolved(b, c));
            left.effortMap == right.effortMap && left.effortDefault == right.effortDefault
  {
    if c.effort.Some? {
      TypedOuterGroups(a, b, c);
    } else if b.effort.None? {
      MappedOnlyGroups(a, b, c);
    } else {
      SilentOuterGroups(a, b, c);
    }
  }

  lemma TypedOuterGroups(a: Resolved, b: Resolved, c: Resolved)
    requires c.effort.Some?
    ensures var left, right := MergeResolved(MergeResolved(a, b), c), MergeResolved(a, MergeResolved(b, c));
            left.effortMap == right.effortMap && left.effortDefault == right.effortDefault
  {
    hide MergeMaps, SetsEffortMap;
    assert map[] + (map[] + c.effortMap) == map[] + c.effortMap;
  }

  lemma MappedOnlyGroups(a: Resolved, b: Resolved, c: Resolved)
    requires b.effort.None? && c.effort.None?
    ensures var left, right := MergeResolved(MergeResolved(a, b), c), MergeResolved(a, MergeResolved(b, c));
            left.effortMap == right.effortMap && left.effortDefault == right.effortDefault
  {
    hide MergeMaps, SetsEffortMap;
    assert a.effortMap + b.effortMap + c.effortMap == a.effortMap + (b.effortMap + c.effortMap);
  }

  lemma SilentOuterGroups(a: Resolved, b: Resolved, c: Resolved)
    requires b.effort.Some? && c.effort.None? && !SetsEffortMap(c.effortMap, c.effortDefault)
    ensures var left, right := MergeResolved(MergeResolved(a, b), c), MergeResolved(a, MergeResolved(b, c));
            left.effortMap == right.effortMap && left.effortDefault == right.effortDefault
  {
    hide MergeMaps;
    assert map[] + b.effortMap + map[] == map[] + (b.effortMap + map[]);
  }
}
