/** Turning every written profile into the one the gateway serves, and what makes
    one acceptable. */
module ModelProfiles {
  import opened Base
  import opened JsonMerge
  import opened Profiles
  import opened Templates
  import opened Flattening

  datatype Family = Kimi | Deepseek

  datatype ModelProfile = ModelProfile(
    upstreamModel: Option<string>,
    systemPromptPrefix: Option<string>,
    roles: Option<Roles>,
    family: Option<Family>,
    nativeVision: Option<bool>,
    kwargs: JsonMap,
    effortMap: map<string, Json>,
    effortDefault: Option<string>,
    capabilities: Option<Capabilities>,
    effort: Option<Reasoning>)

  datatype ProfileError = Unresolved(reason: ResolveError) | InvalidRoles | EffortConflict

  // ---- the joined prompt --------------------------------------------------------

  function Nonblank(prefixes: seq<string>): seq<string> {
    if prefixes == [] then []
    else (if Trim(prefixes[0]) == [] then [] else [Trim(prefixes[0])]) + Nonblank(prefixes[1..])
  }

  /** `join` with a blank line between neighbours. */
  function Joined(parts: seq<string>): string {
    if parts == [] then ""
    else if |parts| == 1 then parts[0]
    else parts[0] + "\n\n" + Joined(parts[1..])
  }

  function JoinPromptPrefixes(prefixes: seq<string>): Option<string> {
    if Nonblank(prefixes) == [] then None else Some(Joined(Nonblank(prefixes)))
  }

  lemma {:induction false} TrimStartMeaning(s: string)
    ensures TrimStart(s) == [] || !IsWhitespace(TrimStart(s)[0])
  {
    if s != [] && IsWhitespace(s[0]) { TrimStartMeaning(s[1..]); }
  }

  lemma {:induction false} TrimEndMeaning(s: string)
    ensures TrimEnd(s) == [] || (!IsWhitespace(TrimEnd(s)[|TrimEnd(s)| - 1]) && TrimEnd(s)[0] == s[0])
  {
    if s != [] && IsWhitespace(s[|s| - 1]) { TrimEndMeaning(s[..|s| - 1]); }
  }

  /** Trimming leaves a middle part: white space on both sides of it, none at its ends. */
  lemma {:induction false} StartTrimmed(s: string) returns (i: nat)
    ensures i <= |s| && TrimStart(s) == s[i..] && forall k :: 0 <= k < i ==> IsWhitespace(s[k])
  {
    if s != [] && IsWhitespace(s[0]) {
      var j := StartTrimmed(s[1..]);
      i := j + 1;
      assert s[1..][j..] == s[i..];
      assert forall k :: 0 < k < i ==> s[k] == s[1..][k - 1];
    } else {
      i := 0;
      assert s[0..] == s;
    }
  }

  lemma {:induction false} EndTrimmed(s: string) returns (j: nat)
    ensures j <= |s| && TrimEnd(s) == s[..j] && forall k :: j <= k < |s| ==> IsWhitespace(s[k])
  {
    if s != [] && IsWhitespace(s[|s| - 1]) {
      var front := s[..|s| - 1];
      j := EndTrimmed(front);
      assert front[..j] == s[..j];
      assert forall k :: 0 <= k < |front| ==> front[k] == s[k];
    } else {
      j := |s|;
      assert s[..j] == s;
    }
  }

  lemma TrimMeaning(s: string) returns (i: nat, j: nat)
    ensures i <= j <= |s| && Trim(s) == s[i..j]
    ensures forall k :: 0 <= k < i || j <= k < |s| ==> IsWhitespace(s[k])
    ensures i < j ==> !IsWhitespace(s[i]) && !IsWhitespace(s[j - 1])
  {
    i := StartTrimmed(s);
    var rest := TrimStart(s);
    var n := EndTrimmed(rest);
    j := i + n;
    assert rest[..n] == s[i..j];
    assert forall k :: j <= k < |s| ==> s[k] == rest[k - i];
    TrimStartMeaning(s);
    TrimEndMeaning(rest);
    if i < j { assert s[i] == rest[0] && s[j - 1] == TrimEnd(rest)[n - 1]; }
  }

  lemma WhiteSpaceIs(c: char)
    ensures IsWhitespace(c) <==> c in WHITE_SPACE
  {
    var n := c as int;
    var table := WHITE_SPACE;
    assert |table| == 25;
    assert forall k :: 0 <= k < 5 ==> table[k] as int == 9 + k;
    assert forall k :: 9 <= k < 20 ==> table[k] as int == 0x2000 + k - 9;
    if 9 <= n <= 13 { assert table[n - 9] == c; }
    if 0x2000 <= n <= 0x200A { assert table[n - 0x2000 + 9] == c; }
    if n == 0x20 { assert table[5] == c; }
    if n == 0x85 { assert table[6] == c; }
    if n == 0xA0 { assert table[7] == c; }
    if n == 0x1680 { assert table[8] == c; }
    if n == 0x2028 { assert table[20] == c; }
    if n == 0x2029 { assert table[21] == c; }
    if n == 0x202F { assert table[22] == c; }
    if n == 0x205F { assert table[23] == c; }
    if n == 0x3000 { assert table[24] == c; }
    if c in table {
      var k :| 0 <= k < 25 && table[k] == c;
    }
  }

  lemma TrimAgain(s: string)
    ensures Trim(Trim(s)) == Trim(s)
  {
    TrimStartMeaning(s);
    TrimEndMeaning(TrimStart(s));
  }

  /** What precedes part `i` of a joined text, and what follows it. */
  function Before(parts: seq<string>, i: nat): string
    requires i < |parts|
  {
    if i == 0 then "" else Joined(parts[..i]) + "\n\n"
  }

  function Behind(parts: seq<string>, i: nat): string
    requires i < |parts|
  {
    if i == |parts| - 1 then "" else "\n\n" + Joined(parts[i + 1..])
  }

  lemma BeforeGrows(parts: seq<string>, i: nat)
    requires 0 < i < |parts|
    ensures Before(parts, i) == parts[0] + "\n\n" + Before(parts[1..], i - 1)
  {
    var rest := parts[1..];
    assert rest[..i - 1] == parts[..i][1..] && parts[..i][0] == parts[0];
    if i > 1 {
      assert Joined(parts[..i]) == parts[0] + "\n\n" + Joined(rest[..i - 1]);
    }
  }

  /** Every part occurs in the joined text, in order, a blank line to each neighbour. */
  lemma {:induction false} JoinedMeaning(parts: seq<string>, i: nat)
    requires i < |parts|
    ensures Joined(parts) == Before(parts, i) + parts[i] + Behind(parts, i)
    decreases |parts|
  {
    if i > 0 {
      var rest := parts[1..];
      JoinedMeaning(rest, i - 1);
      assert rest[i - 1 + 1..] == parts[i + 1..] && rest[i - 1] == parts[i];
      BeforeGrows(parts, i);
      assert Behind(rest, i - 1) == Behind(parts, i);
      hide Before, Behind;
      assert Joined(parts) == parts[0] + "\n\n" + Joined(rest);
      hide Joined;
    }
  }

  /** Joining drops nothing of what resolution collected: its prefixes are already
      trimmed and not blank. */
  lemma {:induction false} CollectedPrefixesStay(list: seq<Written>)
    ensures Nonblank(Prefixes(list)) == Prefixes(list)
  {
    if list != [] {
      CollectedPrefixesStay(list[1..]);
      var own := Own(list[0]).prefixes;
      if own != [] {
        TrimAgain(list[0].systemPromptPrefix.value);
        assert Prefixes(list)[1..] == Prefixes(list[1..]);
      } else {
        assert Prefixes(list) == Prefixes(list[1..]);
      }
    }
  }

  // ---- one profile --------------------------------------------------------------

  function LowerAll(s: string): string {
    if s == [] then [] else [Lower(s[0])] + LowerAll(s[1..])
  }

  function NormalizeFamily(value: Option<string>): Option<Family> {
    var trimmed := TrimNonempty(value);
    if trimmed.None? then None
    else if LowerAll(trimmed.value) == "kimi" then Some(Kimi)
    else if LowerAll(trimmed.value) == "deepseek" then Some(Deepseek)
    else None
  }

  function IntoModelProfile(r: Resolved): ModelProfile {
    ModelProfile(r.upstreamModel, JoinPromptPrefixes(r.prefixes), r.roles, NormalizeFamily(r.templateFamily),
                 r.nativeVision, r.kwargs, r.effortMap, r.effortDefault, r.capabilities, r.effort)
  }

  /** What becomes of one written profile. */
  function Outcome(templates: TemplateMap, p: Written): Result<ModelProfile, ProfileError> {
    match ResolveProfile(templates, p, [])
    case Err(e) => Err(Unresolved(e))
    case Ok(r) =>
      var m := IntoModelProfile(r);
      if m.roles.Some? && !m.roles.value.valid then Err(InvalidRoles)
      else if m.effort.Some? && SetsEffortMap(m.effortMap, m.effortDefault) then Err(EffortConflict)
      else Ok(m)
  }

  /** A profile is accepted exactly when every walk from it ends at a declared
      template without meeting a name twice, the last roles set along its flat list
      validate, and the last entry that speaks about effort uses one syntax. */
  lemma AcceptedExactly(templates: TemplateMap, p: Written)
    ensures Outcome(templates, p).Ok? <==>
            && (forall w :: Walk(templates, Names(p.parents), w) ==> Fine(templates, [], w))
            && (LastSet(Flat(templates, p), RolesOf).Some? ==> LastSet(Flat(templates, p), RolesOf).value.valid)
            && (LastSet(Flat(templates, p), ChoiceOf).Some? ==> !LastSet(Flat(templates, p), ChoiceOf).value.both)
  {
    ResolvesExactlyWhenAcyclic(templates, p);
    if ResolveProfile(templates, p, []).Ok? {
      ResolvedIsFlatOverride(templates, p);
      ConflictExactly(templates, p);
    }
    hide LastSet, Walk, Fine;
  }

  lemma SameButCaseSplits(a: string, b: string)
    requires a != [] && b != []
    ensures SameButCase(a, b) <==> SameLetter(a[0], b[0]) && SameButCase(a[1..], b[1..])
  {
    hide SameLetter;
    assert forall i :: 0 < i < |a| ==> a[i] == a[1..][i - 1];
    assert forall i :: 0 < i < |b| ==> b[i] == b[1..][i - 1];
  }

  lemma {:induction false} LowerMeaning(s: string, lower: string)
    requires forall i :: 0 <= i < |lower| ==> 'a' <= lower[i] <= 'z'
    ensures LowerAll(s) == lower <==> SameButCase(s, lower)
  {
    if s != [] && lower != [] {
      LowerMeaning(s[1..], lower[1..]);
      assert LowerAll(s)[0] == Lower(s[0]) && LowerAll(s)[1..] == LowerAll(s[1..]);
      assert Lower(s[0]) == lower[0] <==> SameLetter(s[0], lower[0]);
      SameButCaseSplits(s, lower);
      hide Lower, SameLetter, SameButCase;
      assert lower == [lower[0]] + lower[1..];
    }
  }

  lemma FamilyMeaning(name: string)
    requires name != [] && Trim(name) == name
    ensures NormalizeFamily(Some(name)) == Some(Kimi) <==> SameButCase(name, "kimi")
    ensures NormalizeFamily(Some(name)) == Some(Deepseek) <==> SameButCase(name, "deepseek")
  {
    LowerMeaning(name, "kimi");
    LowerMeaning(name, "deepseek");
    hide Trim, LowerAll, SameButCase;
    assert |"kimi"| != |"deepseek"|;
  }

  lemma FamilyIsTrimmed(list: seq<Written>)
    requires LastSet(list, FamilyOf).Some?
    ensures var name := LastSet(list, FamilyOf).value; name != [] && Trim(name) == name
  {
    LastSetMeaning(list, FamilyOf);
    var i :| 0 <= i < |list| && FamilyOf(list[i]) == LastSet(list, FamilyOf);
    TrimAgain(list[i].templateFamily.value);
    hide Trim, LastSet;
  }

  /** What is served: the fields that override are the last set along the flat list,
      the family the last one named if it is one of the two known up to case, and the
      rest as resolved. */
  lemma ServedFields(templates: TemplateMap, p: Written)
    requires Outcome(templates, p).Ok?
    ensures ResolveProfile(templates, p, []).Ok?
    ensures var m, r, list := Outcome(templates, p).value, ResolveProfile(templates, p, []).value, Flat(templates, p);
            && m.upstreamModel == LastSet(list, ModelOf) && m.nativeVision == LastSet(list, VisionOf)
            && m.roles == LastSet(list, RolesOf) && m.capabilities == LastSet(list, CapabilitiesOf)
            && m.kwargs == r.kwargs && m.effortMap == r.effortMap && m.effortDefault == r.effortDefault
            && m.effort == r.effort
    ensures var m, family := Outcome(templates, p).value, LastSet(Flat(templates, p), FamilyOf);
            && (m.family == Some(Kimi) <==> family.Some? && SameButCase(family.value, "kimi"))
            && (m.family == Some(Deepseek) <==> family.Some? && SameButCase(family.value, "deepseek"))
  {
    ResolvedIsFlatOverride(templates, p);
    var list := Flat(templates, p);
    if LastSet(list, FamilyOf).Some? {
      FamilyIsTrimmed(list);
      FamilyMeaning(LastSet(list, FamilyOf).value);
    }
    hide LastSet, ResolveProfile, Flat, Prefixes, SameButCase, JoinPromptPrefixes, EffortChoice;
  }

  /** The served prompt prefix: everything reached, in order, blank line between. */
  lemma ServedPrompt(templates: TemplateMap, p: Written)
    requires Outcome(templates, p).Ok?
    ensures Outcome(templates, p).value.systemPromptPrefix
         == if Prefixes(Flat(templates, p)) == [] then None else Some(Joined(Prefixes(Flat(templates, p))))
  {
    ResolvedIsFlatOverride(templates, p);
    CollectedPrefixesStay(Flat(templates, p));
    assert [] + Prefixes(Flat(templates, p)) == Prefixes(Flat(templates, p));
    assert ResolveProfile(templates, p, []).value.prefixes == Prefixes(Flat(templates, p));
    hide Overrides, LastSet, Prefixes, ResolveProfile, Flat, NormalizeFamily;
  }

  // ---- all profiles -------------------------------------------------------------

  /** Profile `i` is served under its trimmed name: no later profile shares it. */
  ghost predicate LastOfItsName(profiles: seq<(string, Written)>, i: nat, n: nat)
    requires i < n <= |profiles|
  {
    forall j :: i < j < n ==> Trim(profiles[j].0) != Trim(profiles[i].0)
  }

  ghost predicate Served(
      profiles: seq<(string, Written)>, templates: TemplateMap, n: nat, served: map<string, ModelProfile>)
    requires n <= |profiles|
  {
    && (forall name :: name in served ==> exists i :: 0 <= i < n && Trim(profiles[i].0) == name && name != [])
    && (forall i :: 0 <= i < n && Trim(profiles[i].0) != [] ==>
          && Trim(profiles[i].0) in served
          && (LastOfItsName(profiles, i, n) ==> Outcome(templates, profiles[i].1) == Ok(served[Trim(profiles[i].0)])))
  }

  /** Every profile up to `n` is blank-named or acceptable. */
  ghost predicate AllAccepted(profiles: seq<(string, Written)>, templates: TemplateMap, n: nat)
    requires n <= |profiles|
  {
    forall i :: 0 <= i < n && Trim(profiles[i].0) != [] ==> Outcome(templates, profiles[i].1).Ok?
  }

  /** All profiles, in map order. The first unacceptable one decides the error;
      otherwise each trimmed name serves the last profile written under it. */
  method ResolveModelProfiles(profiles: seq<(string, Written)>, templates: TemplateMap)
    returns (outcome: Result<map<string, ModelProfile>, (string, ProfileError)>)
    ensures outcome.Ok? <==> AllAccepted(profiles, templates, |profiles|)
    ensures outcome.Ok? ==> Served(profiles, templates, |profiles|, outcome.value)
    ensures outcome.Err? ==>
              exists i :: 0 <= i < |profiles| && Trim(profiles[i].0) == outcome.error.0 && outcome.error.0 != []
                       && AllAccepted(profiles, templates, i)
                       && Outcome(templates, profiles[i].1) == Err(outcome.error.1)
  {
    hide Trim, ResolveProfile;
    var served: map<string, ModelProfile> := map[];
    for i := 0 to |profiles|
      invariant AllAccepted(profiles, templates, i)
      invariant Served(profiles, templates, i, served)
    {
      var name := Trim(profiles[i].0);
      if name != [] {
        var stack := new NameStack();
        var resolved := ResolvePersisted(profiles[i].1, templates, stack);
        if resolved.Err? {
          return Err((name, Unresolved(resolved.error)));
        }
        var profile := IntoModelProfile(resolved.value);
        if profile.roles.Some? && !profile.roles.value.valid {
          return Err((name, InvalidRoles));
        }
        if profile.effort.Some? && (profile.effortMap != map[] || profile.effortDefault.Some?) {
          return Err((name, EffortConflict));
        }
        ServedStep(profiles, templates, i, served, profile);
        served := served[name := profile];
      } else {
        BlankStep(profiles, templates, i, served);
      }
    }
    outcome := Ok(served);
  }

  lemma ServedStep(
      profiles: seq<(string, Written)>, templates: TemplateMap, i: nat, served: map<string, ModelProfile>,
      m: ModelProfile)
    requires i < |profiles| && Served(profiles, templates, i, served)
    requires Trim(profiles[i].0) != [] && Outcome(templates, profiles[i].1) == Ok(m)
    ensures Served(profiles, templates, i + 1, served[Trim(profiles[i].0) := m])
  {
    hide Trim, Outcome, LastOfItsName;
    var after := served[Trim(profiles[i].0) := m];
    assert forall name :: name in after ==> name == Trim(profiles[i].0) || name in served;
    forall j | 0 <= j < i + 1 && Trim(profiles[j].0) != []
      ensures Trim(profiles[j].0) in after
      ensures LastOfItsName(profiles, j, i + 1) ==> Outcome(templates, profiles[j].1) == Ok(after[Trim(profiles[j].0)])
    {
      if j < i && LastOfItsName(profiles, j, i + 1) { StaysLast(profiles, j, i); }
    }
  }

  lemma StaysLast(profiles: seq<(string, Written)>, j: nat, i: nat)
    requires j < i < |profiles| && LastOfItsName(profiles, j, i + 1)
    ensures LastOfItsName(profiles, j, i) && Trim(profiles[i].0) != Trim(profiles[j].0)
  {
  }

  lemma BlankStep(profiles: seq<(string, Written)>, templates: TemplateMap, i: nat, served: map<string, ModelProfile>)
    requires i < |profiles| && Served(profiles, templates, i, served) && Trim(profiles[i].0) == []
    ensures Served(profiles, templates, i + 1, served)
  {
    hide Trim, Outcome;
    forall j | 0 <= j < i + 1 && Trim(profiles[j].0) != [] && LastOfItsName(profiles, j, i + 1)
      ensures Trim(profiles[j].0) in served && Outcome(templates, profiles[j].1) == Ok(served[Trim(profiles[j].0)])
    {
      assert LastOfItsName(profiles, j, i);
    }
  }
}
