/** Resolving what a profile extends: a depth-first walk over template names with
    an explicit stack, where names are compared as written and looked up exactly
    first and without case second. */
module Templates {
  import opened Base
  import opened Profiles

  /** The template map in its iteration order. */
  type TemplateMap = seq<(string, Written)>

  datatype ResolveError = Cycle(path: seq<string>) | UnknownTemplate(name: string)

  function Lower(c: char): char {
    if 'A' <= c <= 'Z' then (c as int + 32) as char else c
  }

  predicate EqIgnoreAsciiCase(a: string, b: string) {
    |a| == |b| && forall i :: 0 <= i < |a| ==> Lower(a[i]) == Lower(b[i])
  }

  function FindExact(templates: TemplateMap, name: string): Option<Written> {
    if templates == [] then None
    else if templates[0].0 == name then Some(templates[0].1)
    else FindExact(templates[1..], name)
  }

  function FindIgnoringCase(templates: TemplateMap, name: string): Option<Written> {
    if templates == [] then None
    else if EqIgnoreAsciiCase(templates[0].0, name) then Some(templates[0].1)
    else FindIgnoringCase(templates[1..], name)
  }

  function Lookup(templates: TemplateMap, name: string): Option<Written> {
    Or(FindExact(templates, name), FindIgnoringCase(templates, name))
  }

  // ---- what a lookup answers, from the entries alone ------------------------------

  /** The same ASCII letter in two cases, or the same character. */
  predicate SameLetter(c: char, d: char) {
    || c == d
    || ('A' <= c <= 'Z' && d as int - c as int == 32)
    || ('A' <= d <= 'Z' && c as int - d as int == 32)
  }

  predicate SameButCase(a: string, b: string) {
    |a| == |b| && forall i :: 0 <= i < |a| ==> SameLetter(a[i], b[i])
  }

  ghost predicate HasKey(templates: TemplateMap, name: string) {
    exists i :: 0 <= i < |templates| && templates[i].0 == name
  }

  /** Entry `i` answers to the name: it is the entry under that very name, or, if there
      is none, the first whose key is the name in other case. */
  ghost predicate Answers(templates: TemplateMap, name: string, i: int) {
    0 <= i < |templates| &&
    if HasKey(templates, name)
    then templates[i].0 == name && forall j :: 0 <= j < i ==> templates[j].0 != name
    else SameButCase(templates[i].0, name) && forall j :: 0 <= j < i ==> !SameButCase(templates[j].0, name)
  }

  ghost predicate Declares(templates: TemplateMap, name: string, t: Written) {
    exists i :: Answers(templates, name, i) && templates[i].1 == t
  }

  ghost predicate IsDeclared(templates: TemplateMap, name: string) {
    exists t :: Declares(templates, name, t)
  }

  lemma CaseIgnored(a: string, b: string)
    ensures EqIgnoreAsciiCase(a, b) <==> SameButCase(a, b)
  {
  }

  lemma {:induction false} ExactAnswer(templates: TemplateMap, name: string) returns (i: int)
    ensures FindExact(templates, name).Some? <==> HasKey(templates, name)
    ensures FindExact(templates, name).Some? ==>
              Answers(templates, name, i) && templates[i].1 == FindExact(templates, name).value
  {
    i := 0;
    if templates != [] && templates[0].0 != name {
      var rest := templates[1..];
      assert forall j :: 0 <= j < |rest| ==> rest[j] == templates[j + 1];
      var j := ExactAnswer(rest, name);
      i := j + 1;
      if HasKey(templates, name) {
        var k :| 0 <= k < |templates| && templates[k].0 == name;
        assert rest[k - 1].0 == name;
      }
    }
  }

  lemma {:induction false} CaselessAnswer(templates: TemplateMap, name: string) returns (i: int)
    ensures FindIgnoringCase(templates, name).Some? <==>
            exists k :: 0 <= k < |templates| && SameButCase(templates[k].0, name)
    ensures FindIgnoringCase(templates, name).Some? ==>
              && 0 <= i < |templates| && SameButCase(templates[i].0, name)
              && (forall j :: 0 <= j < i ==> !SameButCase(templates[j].0, name))
              && templates[i].1 == FindIgnoringCase(templates, name).value
  {
    i := 0;
    if templates != [] {
      CaseIgnored(templates[0].0, name);
      hide EqIgnoreAsciiCase, SameButCase;
      if !EqIgnoreAsciiCase(templates[0].0, name) {
        var rest := templates[1..];
        assert forall j :: 0 <= j < |rest| ==> rest[j] == templates[j + 1];
        var j := CaselessAnswer(rest, name);
        i := j + 1;
        if k :| 0 <= k < |templates| && SameButCase(templates[k].0, name) {
          assert SameButCase(rest[k - 1].0, name);
        }
      }
    }
  }

  /** A lookup answers if and only if some key is the name up to ASCII case, and then
      with the entry under the name itself, else the first in map order that is. */
  lemma LookupMeaning(templates: TemplateMap, name: string)
    ensures Lookup(templates, name).Some? <==>
            exists k :: 0 <= k < |templates| && SameButCase(templates[k].0, name)
    ensures forall t :: Declares(templates, name, t) <==> Lookup(templates, name) == Some(t)
  {
    var i := ExactAnswer(templates, name);
    var j := CaselessAnswer(templates, name);
    if HasKey(templates, name) {
      var k :| 0 <= k < |templates| && templates[k].0 == name;
      assert SameButCase(templates[k].0, name);
    }
    hide SameButCase, FindExact, FindIgnoringCase;
    forall t ensures Declares(templates, name, t) <==> Lookup(templates, name) == Some(t) {
      OneAnswer(templates, name);
    }
  }

  lemma OneAnswer(templates: TemplateMap, name: string)
    ensures forall i, j :: Answers(templates, name, i) && Answers(templates, name, j) ==> i == j
  {
    hide SameButCase, HasKey;
  }

  /** The names a profile refers to, trimmed, blanks skipped. */
  function Names(parents: seq<string>): seq<string> {
    if parents == [] then []
    else (if Trim(parents[0]) == [] then [] else [Trim(parents[0])]) + Names(parents[1..])
  }

  lemma {:induction false} NamesMeaning(parents: seq<string>, n: string)
    ensures n in Names(parents) <==> n != [] && exists i :: 0 <= i < |parents| && Trim(parents[i]) == n
  {
    if parents != [] {
      NamesMeaning(parents[1..], n);
      var first := Trim(parents[0]);
      assert forall i :: 0 <= i < |parents| - 1 ==> parents[1..][i] == parents[i + 1];
      hide Trim;
      if n != [] && exists i :: 0 <= i < |parents| && Trim(parents[i]) == n {
        var i :| 0 <= i < |parents| && Trim(parents[i]) == n;
        assert i > 0 ==> Trim(parents[1..][i - 1]) == n;
      }
    }
  }

  function Elements(s: seq<string>): set<string> {
    set n | n in s
  }

  /** Every name some template refers to: the finite set a walk stays in. */
  function AllNames(templates: TemplateMap): set<string> {
    if templates == [] then {} else Elements(Names(templates[0].1.parents)) + AllNames(templates[1..])
  }

  lemma {:induction false} FoundNamesAreKnown(templates: TemplateMap, name: string)
    ensures FindExact(templates, name).Some? ==>
              Elements(Names(FindExact(templates, name).value.parents)) <= AllNames(templates)
    ensures FindIgnoringCase(templates, name).Some? ==>
              Elements(Names(FindIgnoringCase(templates, name).value.parents)) <= AllNames(templates)
  {
    if templates != [] { FoundNamesAreKnown(templates[1..], name); }
  }

  function Rank(templates: TemplateMap, names: seq<string>): nat {
    if Elements(names) <= AllNames(templates) then 0 else 1
  }

  lemma PushDecreases(templates: TemplateMap, names: seq<string>, stack: seq<string>, t: Written)
    requires names != [] && names[0] !in stack && Lookup(templates, names[0]) == Some(t)
    ensures Rank(templates, Names(t.parents)) == 0
    ensures Rank(templates, names) == 0 ==>
              AllNames(templates) - Elements(stack + [names[0]]) < AllNames(templates) - Elements(stack)
  {
    FoundNamesAreKnown(templates, names[0]);
    assert names[0] in Elements(names);
    var before, after := AllNames(templates) - Elements(stack), AllNames(templates) - Elements(stack + [names[0]]);
    assert names[0] in stack + [names[0]] && names[0] !in after;
    assert forall n :: n in stack ==> n in stack + [names[0]];
    assert after <= before;
    assert Rank(templates, names) == 0 ==> names[0] in before;
  }

  lemma RestDecreases(templates: TemplateMap, names: seq<string>)
    requires names != []
    ensures Rank(templates, names[1..]) <= Rank(templates, names)
  {
    assert forall n :: n in names[1..] ==> n in names;
  }

  /** Resolve `names` left to right onto `built`. The walk ends because every push
      is a new name out of the finite set of names as written. */
  function ResolveNames(
      templates: TemplateMap, names: seq<string>, built: Resolved, stack: seq<string>): Result<Resolved, ResolveError>
    decreases Rank(templates, names), AllNames(templates) - Elements(stack), |names|
  {
    if names == [] then Ok(built)
    else if names[0] in stack then Err(Cycle(stack + [names[0]]))
    else
      match Lookup(templates, names[0])
      case None => Err(UnknownTemplate(names[0]))
      case Some(t) =>
        PushDecreases(templates, names, stack, t);
        RestDecreases(templates, names);
        match ResolveNames(templates, Names(t.parents), BLANK, stack + [names[0]])
        case Err(e) => Err(e)
        case Ok(parents) =>
          ResolveNames(templates, names[1..], MergeResolved(built, MergeResolved(parents, Own(t))), stack)
  }

  function ResolveProfile(templates: TemplateMap, p: Written, stack: seq<string>): Result<Resolved, ResolveError> {
    match ResolveNames(templates, Names(p.parents), BLANK, stack)
    case Err(e) => Err(e)
    case Ok(parents) => Ok(MergeResolved(parents, Own(p)))
  }

  /** The mutable stack of names under resolution. */
  class NameStack {
    var names: seq<string>

    constructor ()
      ensures names == []
    {
      names := [];
    }
  }

  /** The program's walk, on its own stack and its own profile under construction.
      On success the stack is back where it was. */
  method ResolvePersisted(profile: Written, templates: TemplateMap, stack: NameStack)
    returns (outcome: Result<Resolved, ResolveError>)
    modifies stack
    ensures outcome == ResolveProfile(templates, profile, old(stack.names))
    ensures outcome.Ok? ==> stack.names == old(stack.names)
    decreases Rank(templates, Names(profile.parents)), AllNames(templates) - Elements(stack.names)
  {
    hide MergeResolved, Own, Trim, Elements, AllNames, Lookup, Rank;
    var resolved := new Building();
    var i := 0;
    assert profile.parents[0..] == profile.parents;
    while i < |profile.parents|
      invariant i <= |profile.parents| && stack.names == old(stack.names) && fresh(resolved)
      invariant ResolveNames(templates, Names(profile.parents[i..]), resolved.Value(), stack.names)
             == ResolveNames(templates, Names(profile.parents), BLANK, old(stack.names))
      invariant Rank(templates, Names(profile.parents[i..])) <= Rank(templates, Names(profile.parents))
    {
      ghost var names := Names(profile.parents[i..]);
      var name := Trim(profile.parents[i]);
      i := i + 1;
      ghost var rest := Names(profile.parents[i..]);
      assert names == (if name == [] then rest else [name] + rest);
      if name != [] {
        RestDecreases(templates, names);
        assert names[1..] == rest;
        if name in stack.names {
          return Err(Cycle(stack.names + [name]));
        }
        var found := Lookup(templates, name);
        if found.None? {
          return Err(UnknownTemplate(name));
        }
        PushDecreases(templates, names, stack.names, found.value);
        stack.names := stack.names + [name];
        var template := ResolvePersisted(found.value, templates, stack);
        if template.Err? {
          return template;
        }
        stack.names := stack.names[..|stack.names| - 1];
        resolved.Merge(template.value);
      }
    }
    resolved.MergeWritten(profile);
    outcome := Ok(resolved.Value());
  }

  // ---- when resolution succeeds -------------------------------------------------

  /** A walk down the reference graph from `names`, name by name as written. */
  ghost predicate Walk(templates: TemplateMap, names: seq<string>, w: seq<string>)
    decreases |w|
  {
    w != [] && w[0] in names &&
    (|w| > 1 ==> exists t :: Declares(templates, w[0], t) && Walk(templates, Names(t.parents), w[1..]))
  }

  /** The walk ends at a template that exists and no name on it repeats. */
  ghost predicate Fine(templates: TemplateMap, stack: seq<string>, w: seq<string>)
    requires w != []
  {
    IsDeclared(templates, w[|w| - 1]) && NoDup(stack + w)
  }

  lemma WalkOn(templates: TemplateMap, names: seq<string>, w: seq<string>)
    requires |w| > 1
    ensures Walk(templates, names, w) <==>
            && w[0] in names && Lookup(templates, w[0]).Some?
            && Walk(templates, Names(Lookup(templates, w[0]).value.parents), w[1..])
  {
    LookupMeaning(templates, w[0]);
    hide Lookup, Declares, Names;
  }

  lemma Declared(templates: TemplateMap, n: string)
    ensures IsDeclared(templates, n) <==> Lookup(templates, n).Some?
  {
    LookupMeaning(templates, n);
    hide Lookup, Declares;
    if Lookup(templates, n).Some? { assert Declares(templates, n, Lookup(templates, n).value); }
  }

  lemma LongerWalk(templates: TemplateMap, stack: seq<string>, w: seq<string>)
    requires |w| > 1
    ensures Fine(templates, stack, w) <==> Fine(templates, stack + [w[0]], w[1..])
    ensures stack + [w[0]] + w[1..] == stack + w && w[1..][|w| - 2] == w[|w| - 1]
  {
    assert stack + [w[0]] + w[1..] == stack + w;
    hide IsDeclared;
  }

  lemma {:induction false} OkMeansFine(
      templates: TemplateMap, names: seq<string>, built: Resolved, stack: seq<string>, w: seq<string>)
    requires ResolveNames(templates, names, built, stack).Ok? && NoDup(stack) && Walk(templates, names, w)
    ensures Fine(templates, stack, w)
    decreases Rank(templates, names), AllNames(templates) - Elements(stack), |names|
  {
    var t := Lookup(templates, names[0]).value;
    PushDecreases(templates, names, stack, t);
    RestDecreases(templates, names);
    var parents := ResolveNames(templates, Names(t.parents), BLANK, stack + [names[0]]).value;
    Declared(templates, names[0]);
    if |w| > 1 { WalkOn(templates, names, w); }
    hide MergeResolved, Own, Lookup, Names, IsDeclared;
    if w[0] == names[0] {
      if |w| > 1 {
        hide NoDup, Fine;
        OkMeansFine(templates, Names(t.parents), BLANK, stack + [names[0]], w[1..]);
        LongerWalk(templates, stack, w);
      } else {
        assert w == [names[0]];
      }
    } else {
      assert w[0] in names[1..];
      if |w| > 1 { WalkOn(templates, names[1..], w); }
      hide NoDup, Fine;
      OkMeansFine(templates, names[1..], MergeResolved(built, MergeResolved(parents, Own(t))), stack, w);
    }
  }

  /** What an error reports: a walk from the profile that ends at a name nobody
      declared, or that comes back to a name still on the stack. */
  ghost predicate Explained(templates: TemplateMap, stack: seq<string>, w: seq<string>, e: ResolveError)
    requires w != []
  {
    match e
    case UnknownTemplate(name) => name == w[|w| - 1] && !IsDeclared(templates, name)
    case Cycle(path) => path == stack + w && w[|w| - 1] in (stack + w)[..|stack + w| - 1]
  }

  lemma {:induction false} ErrMeansBadWalk(
      templates: TemplateMap, names: seq<string>, built: Resolved, stack: seq<string>) returns (w: seq<string>)
    requires ResolveNames(templates, names, built, stack).Err?
    ensures Walk(templates, names, w) && !Fine(templates, stack, w)
    ensures Explained(templates, stack, w, ResolveNames(templates, names, built, stack).error)
    decreases Rank(templates, names), AllNames(templates) - Elements(stack), |names|
  {
    if names[0] in stack || Lookup(templates, names[0]).None? {
      w := [names[0]];
      BadName(templates, stack, names[0]);
    } else {
      var t := Lookup(templates, names[0]).value;
      PushDecreases(templates, names, stack, t);
      RestDecreases(templates, names);
      var parents := ResolveNames(templates, Names(t.parents), BLANK, stack + [names[0]]);
      hide MergeResolved, Own, NoDup, Lookup, Fine, Names;
      if parents.Err? {
        var v := ErrMeansBadWalk(templates, Names(t.parents), BLANK, stack + [names[0]]);
        w := [names[0]] + v;
        assert w[1..] == v;
        LongerWalk(templates, stack, w);
        WalkOn(templates, names, w);
      } else {
        w := ErrMeansBadWalk(templates, names[1..], MergeResolved(built, MergeResolved(parents.value, Own(t))), stack);
        assert w[0] in names;
        if |w| > 1 {
          WalkOn(templates, names[1..], w);
          WalkOn(templates, names, w);
        }
      }
    }
  }

  lemma BadName(templates: TemplateMap, stack: seq<string>, n: string)
    ensures n in stack ==> !Fine(templates, stack, [n]) && Explained(templates, stack, [n], Cycle(stack + [n]))
    ensures Lookup(templates, n).None? ==>
              !Fine(templates, stack, [n]) && Explained(templates, stack, [n], UnknownTemplate(n))
  {
    Declared(templates, n);
    hide IsDeclared, Lookup;
    var all := stack + [n];
    assert all[..|all| - 1] == stack;
    if n in stack {
      var i :| 0 <= i < |stack| && stack[i] == n;
      assert all[i] == all[|stack|];
    }
  }

  /** Resolution succeeds exactly when every walk from the profile ends at a
      declared template without meeting a name twice: every reachable name resolves
      and the reachable graph of names as written has no cycle. Diamonds are fine:
      two walks may share names, one walk may not repeat one. */
  lemma ResolvesExactlyWhenAcyclic(templates: TemplateMap, p: Written)
    ensures ResolveProfile(templates, p, []).Ok? <==>
            forall w :: Walk(templates, Names(p.parents), w) ==> Fine(templates, [], w)
  {
    if ResolveProfile(templates, p, []).Ok? {
      forall w | Walk(templates, Names(p.parents), w) ensures Fine(templates, [], w) {
        OkMeansFine(templates, Names(p.parents), BLANK, [], w);
      }
    } else {
      var w := ErrMeansBadWalk(templates, Names(p.parents), BLANK, []);
    }
  }

  /** Every reported error is real: some walk from the profile shows it. */
  lemma ErrorsAreReal(templates: TemplateMap, p: Written) returns (w: seq<string>)
    requires ResolveProfile(templates, p, []).Err?
    ensures Walk(templates, Names(p.parents), w) && Explained(templates, [], w, ResolveProfile(templates, p, []).error)
  {
    w := ErrMeansBadWalk(templates, Names(p.parents), BLANK, []);
  }

  /** A cycle through case variants is caught on its second round: the template `a`
      extends `A`, which leads back to it. */
  lemma CaseVariantCycleIsReported(a: Written, p: Written)
    requires a.parents == ["A"] && p.parents == ["a"]
    ensures ResolveProfile([("a", a)], p, []) == Err(Cycle(["a", "A", "A"]))
  {
    var templates: TemplateMap := [("a", a)];
    assert ["A"][1..] == [] && ["a"][1..] == [];
    assert Trim("A") == "A" && Trim("a") == "a";
    assert Names([]) == [] && Names(["A"]) == ["A"] && Names(["a"]) == ["a"];
    assert Lookup(templates, "a") == Some(a);
    assert templates[1..] == [] && EqIgnoreAsciiCase("a", "A") && "a" != "A";
    assert FindExact(templates, "A") == None && FindIgnoringCase(templates, "A") == Some(a);
    assert Lookup(templates, "A") == Some(a);
    hide Lookup, Names, MergeResolved, Own;
    assert [] + ["a"] == ["a"] && ["a"] + ["A"] == ["a", "A"] && ["a", "A"] + ["A"] == ["a", "A", "A"];
    assert ResolveNames(templates, ["A"], BLANK, ["a", "A"]) == Err(Cycle(["a", "A", "A"]));
    assert ResolveNames(templates, ["A"], BLANK, ["a"]) == Err(Cycle(["a", "A", "A"]));
    assert ResolveNames(templates, ["a"], BLANK, []) == Err(Cycle(["a", "A", "A"]));
  }
}
