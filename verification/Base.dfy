/** Small vocabulary shared by the other modules: options, duplicate-free
    sequences, and the filter that `VecDeque::retain(|id| id != x)` computes. */
module Base {
  datatype Option<+T> = None | Some(value: T)

  datatype Result<+T, +E> = Ok(value: T) | Err(error: E)

  /** `self.or(other)` of the source's `Option`. */
  function Or<T>(a: Option<T>, b: Option<T>): Option<T> {
    if a.Some? then a else b
  }

  /** A saturating subtraction on machine words that are never negative. */
  function SatSub(a: nat, b: nat): nat {
    if a >= b then a - b else 0
  }

  function Max(a: int, b: int): int {
    if a >= b then a else b
  }

  ghost predicate NoDup<T>(s: seq<T>) {
    forall i, j :: 0 <= i < j < |s| ==> s[i] != s[j]
  }

  /** Where `x` first stands in `s`, or the length. */
  function IndexOf<T(==)>(s: seq<T>, x: T): (i: nat)
    ensures i <= |s| && (i < |s| <==> x in s) && (i < |s| ==> s[i] == x)
  {
    if s == [] || s[0] == x then 0
    else
      assert x in s <==> x in s[1..];
      1 + IndexOf(s[1..], x)
  }

  /** `s` with every occurrence of `x` removed, order kept. */
  function Without<T(==)>(s: seq<T>, x: T): (r: seq<T>)
    ensures |r| <= |s|
  {
    if s == [] then []
    else if s[0] == x then Without(s[1..], x)
    else [s[0]] + Without(s[1..], x)
  }

  lemma {:induction false} WithoutElements<T>(s: seq<T>, x: T)
    ensures forall y :: y in Without(s, x) <==> y in s && y != x
  {
    if s != [] {
      WithoutElements(s[1..], x);
      assert s == [s[0]] + s[1..];
    }
  }

  lemma {:induction false} WithoutAbsent<T>(s: seq<T>, x: T)
    requires x !in s
    ensures Without(s, x) == s
  {
    if s != [] {
      assert s[0] != x;
      WithoutAbsent(s[1..], x);
    }
  }

  lemma {:induction false} WithoutNoDup<T>(s: seq<T>, x: T)
    requires NoDup(s)
    ensures NoDup(Without(s, x))
    ensures x in s ==> |Without(s, x)| == |s| - 1
  {
    if s != [] {
      WithoutNoDup(s[1..], x);
      WithoutElements(s[1..], x);
      if s[0] == x {
        WithoutAbsent(s[1..], x);
      } else {
        assert s[0] !in s[1..];
      }
    }
  }

  /** Dropping the head of a duplicate-free queue is the same as filtering it out. */
  lemma WithoutHead<T>(s: seq<T>)
    requires s != [] && NoDup(s)
    ensures Without(s, s[0]) == s[1..]
  {
    assert s[0] !in s[1..];
    WithoutAbsent(s[1..], s[0]);
  }

  lemma {:induction false} WithoutShorter<T>(s: seq<T>, x: T)
    requires x in s
    ensures |Without(s, x)| < |s|
  {
    if s[0] != x {
      assert x in s[1..];
      WithoutShorter(s[1..], x);
    }
  }

  /** The elements of `s` outside `dropped`, order kept. */
  function Outside<T(==)>(s: seq<T>, dropped: seq<T>): (r: seq<T>)
    ensures |r| <= |s|
  {
    if s == [] then []
    else if s[0] in dropped then Outside(s[1..], dropped)
    else [s[0]] + Outside(s[1..], dropped)
  }

  lemma {:induction false} OutsideNone<T>(s: seq<T>)
    ensures Outside(s, []) == s
  {
    if s != [] { OutsideNone(s[1..]); }
  }

  /** Filtering out one element and then the rest is filtering out all of them. */
  lemma {:induction false} OutsideStep<T>(s: seq<T>, x: T, rest: seq<T>)
    ensures Outside(Without(s, x), rest) == Outside(s, [x] + rest)
  {
    if s != [] { OutsideStep(s[1..], x, rest); }
  }

  /** Filtering a duplicate-free sequence by its own prefix leaves the suffix. */
  lemma {:induction false} OutsidePrefix<T>(s: seq<T>, n: nat)
    requires n <= |s| && NoDup(s)
    ensures Outside(s, s[..n]) == s[n..]
    decreases n
  {
    if n == 0 {
      OutsideNone(s);
      assert s[..0] == [];
    } else {
      WithoutHead(s);
      OutsideStep(s, s[0], s[1..][..n - 1]);
      assert [s[0]] + s[1..][..n - 1] == s[..n];
      OutsidePrefix(s[1..], n - 1);
    }
  }

  // ---- the last and the first value a list sets --------------------------------

  function LastSet<A, T>(list: seq<A>, f: A -> Option<T>): Option<T> {
    if list == [] then None else Or(f(list[|list| - 1]), LastSet(list[..|list| - 1], f))
  }

  function FirstSet<A, T>(list: seq<A>, f: A -> Option<T>): Option<T> {
    if list == [] then None else Or(FirstSet(list[..|list| - 1], f), f(list[|list| - 1]))
  }

  lemma {:induction false} LastSetJoins<A, T>(a: seq<A>, b: seq<A>, f: A -> Option<T>)
    ensures LastSet(a + b, f) == Or(LastSet(b, f), LastSet(a, f))
  {
    if b == [] {
      assert a + b == a;
    } else {
      LastSetJoins(a, b[..|b| - 1], f);
      assert (a + b)[..|a + b| - 1] == a + b[..|b| - 1];
    }
  }

  lemma LastSetOne<A, T>(x: A, f: A -> Option<T>)
    ensures LastSet([x], f) == f(x)
  {
    assert [x][..0] == [];
  }

  /** `LastSet` is what its name says. */
  lemma {:induction false} LastSetMeaning<A, T>(list: seq<A>, f: A -> Option<T>)
    ensures LastSet(list, f).None? <==> forall i :: 0 <= i < |list| ==> f(list[i]).None?
    ensures LastSet(list, f).Some? ==>
              exists i :: 0 <= i < |list| && f(list[i]) == LastSet(list, f)
                       && forall j :: i < j < |list| ==> f(list[j]).None?
  {
    if list != [] {
      var front := list[..|list| - 1];
      LastSetMeaning(front, f);
      assert forall i :: 0 <= i < |front| ==> list[i] == front[i];
      if f(list[|list| - 1]).None? && LastSet(front, f).Some? {
        var i :| 0 <= i < |front| && f(front[i]) == LastSet(front, f)
                 && forall j :: i < j < |front| ==> f(front[j]).None?;
        assert f(list[i]) == LastSet(list, f);
      }
    }
  }

  /** So is `FirstSet`. */
  lemma {:induction false} FirstSetMeaning<A, T>(list: seq<A>, f: A -> Option<T>)
    ensures FirstSet(list, f).None? <==> forall i :: 0 <= i < |list| ==> f(list[i]).None?
    ensures FirstSet(list, f).Some? ==>
              exists i :: 0 <= i < |list| && f(list[i]) == FirstSet(list, f)
                       && forall j :: 0 <= j < i ==> f(list[j]).None?
  {
    if list != [] {
      var front := list[..|list| - 1];
      FirstSetMeaning(front, f);
      assert forall i :: 0 <= i < |front| ==> list[i] == front[i];
      if FirstSet(front, f).Some? {
        var i :| 0 <= i < |front| && f(front[i]) == FirstSet(front, f)
                 && forall j :: 0 <= j < i ==> f(front[j]).None?;
        assert f(list[i]) == FirstSet(list, f);
      } else if f(list[|list| - 1]).Some? {
        assert f(list[|list| - 1]) == FirstSet(list, f);
      }
    }
  }
}
