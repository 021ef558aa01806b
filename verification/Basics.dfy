/** Options, sequence filters and maps used throughout the model. */
module Basics {

  datatype Option<+T> = None | Some(value: T)

  /** The elements of `s` that satisfy `p`, in their order. */
  function Filter<T(!new)>(s: seq<T>, p: T -> bool): (r: seq<T>)
    ensures forall x :: x in r <==> x in s && p(x)
    ensures |r| <= |s|
  {
    if s == [] then []
    else if p(s[0]) then [s[0]] + Filter(s[1..], p)
    else Filter(s[1..], p)
  }

  /** The first element that satisfies `p`, the way `select_one` picks a row. */
  function First<T(!new)>(s: seq<T>, p: T -> bool): (r: Option<T>)
    ensures r.None? <==> forall x :: x in s ==> !p(x)
    ensures r.Some? ==> r.value in s && p(r.value)
  {
    if s == [] then None
    else if p(s[0]) then Some(s[0])
    else First(s[1..], p)
  }

  function Map<T, U>(s: seq<T>, f: T -> U): (r: seq<U>)
    ensures |r| == |s|
    ensures forall i :: 0 <= i < |s| ==> r[i] == f(s[i])
  {
    if s == [] then [] else [f(s[0])] + Map(s[1..], f)
  }

  lemma {:induction false} FilterConcat<T(!new)>(s: seq<T>, t: seq<T>, p: T -> bool)
    ensures Filter(s + t, p) == Filter(s, p) + Filter(t, p)
  {
    if s == [] {
      assert s + t == t;
    } else {
      assert (s + t)[0] == s[0] && (s + t)[1..] == s[1..] + t;
      FilterConcat(s[1..], t, p);
    }
  }

  lemma FilterSnoc<T(!new)>(s: seq<T>, x: T, p: T -> bool)
    ensures Filter(s + [x], p) == Filter(s, p) + if p(x) then [x] else []
  {
    FilterConcat(s, [x], p);
    assert [x][1..] == [];
  }

  lemma {:induction false} FilterSame<T(!new)>(s: seq<T>, p: T -> bool, q: T -> bool)
    requires forall x :: x in s ==> p(x) == q(x)
    ensures Filter(s, p) == Filter(s, q)
    ensures First(s, p) == First(s, q)
  {
    if s != [] {
      assert s[0] in s;
      FilterSame(s[1..], p, q);
    }
  }

  lemma {:induction false} FilterAll<T(!new)>(s: seq<T>, p: T -> bool)
    requires forall x :: x in s ==> p(x)
    ensures Filter(s, p) == s
  {
    if s != [] {
      assert s[0] in s;
      FilterAll(s[1..], p);
      assert s == [s[0]] + s[1..];
    }
  }

  lemma FilterNone<T(!new)>(s: seq<T>, p: T -> bool)
    requires forall x :: x in s ==> !p(x)
    ensures Filter(s, p) == []
  {
    if Filter(s, p) != [] {
      assert Filter(s, p)[0] in Filter(s, p);
    }
  }

  /** Dropping first what the second filter would drop anyway makes no difference. */
  lemma {:induction false} FilterWithin<T(!new)>(s: seq<T>, p: T -> bool, q: T -> bool)
    requires forall x :: x in s && q(x) ==> p(x)
    ensures Filter(Filter(s, p), q) == Filter(s, q)
  {
    if s != [] {
      assert s[0] in s;
      FilterWithin(s[1..], p, q);
      if p(s[0]) {
        assert Filter(s, p)[1..] == Filter(s[1..], p);
      }
    }
  }

  /** A new last element is found when nothing before it is. */
  lemma {:induction false} FirstSnoc<T(!new)>(s: seq<T>, x: T, p: T -> bool)
    requires First(s, p).None? && p(x)
    ensures First(s + [x], p) == Some(x)
  {
    FilterNone(s, p);
    FilterSnoc(s, x, p);
    FirstIsFilterHead(s + [x], p);
  }

  lemma FirstIsFilterHead<T(!new)>(s: seq<T>, p: T -> bool)
    ensures First(s, p) == if Filter(s, p) == [] then None else Some(Filter(s, p)[0])
  {
  }

  lemma {:induction false} MapConcat<T, U>(a: seq<T>, b: seq<T>, f: T -> U)
    ensures Map(a + b, f) == Map(a, f) + Map(b, f)
  {
  }

  lemma MapOne<T, U>(x: T, f: T -> U)
    ensures Map([x], f) == [f(x)]
  {
  }

  lemma {:induction false} MapEqual<T, U>(s: seq<T>, f: T -> U, g: T -> U)
    requires forall x :: x in s ==> f(x) == g(x)
    ensures Map(s, f) == Map(s, g)
  {
    forall i | 0 <= i < |s| ensures Map(s, f)[i] == Map(s, g)[i] { assert s[i] in s; }
  }

  /** Rows of a table carry pairwise distinct keys. */
  ghost predicate Distinct<T>(s: seq<T>) {
    forall i, j :: 0 <= i < j < |s| ==> s[i] != s[j]
  }

  // -- filters and maps in a row --------------------------------------------------------------

  /** The element at `i` is the first that satisfies `p`; past the end there is none. */
  ghost predicate FirstAt<T(!new)>(s: seq<T>, p: T -> bool, i: nat) {
    && i <= |s| && (i < |s| ==> p(s[i])) && forall j :: 0 <= j < i ==> !p(s[j])
  }

  function Both<T>(p: T -> bool, q: T -> bool): T -> bool { x => p(x) && q(x) }
  function On<S, T>(f: S -> T, q: T -> bool): S -> bool { x => q(f(x)) }

  lemma {:induction false} FirstIndex<T(!new)>(s: seq<T>, p: T -> bool) returns (i: nat)
    ensures FirstAt(s, p, i) && First(s, p) == if i < |s| then Some(s[i]) else None
  {
    i := 0;
    if s != [] && !p(s[0]) {
      i := FirstIndex(s[1..], p);
      i := i + 1;
      assert forall j :: 0 < j < i ==> s[j] == s[1..][j - 1];
    }
  }

  lemma {:induction false} FirstOfFilter<T(!new)>(s: seq<T>, p: T -> bool, q: T -> bool)
    ensures First(Filter(s, p), q) == First(s, Both(p, q))
  {
    if s != [] {
      FirstOfFilter(s[1..], p, q);
      if p(s[0]) { assert Filter(s, p) == [s[0]] + Filter(s[1..], p); }
    }
  }

  lemma {:induction false} FirstOfMap<S(!new), T(!new)>(s: seq<S>, f: S -> T, q: T -> bool)
    ensures First(Map(s, f), q) == match First(s, On(f, q)) { case Some(x) => Some(f(x)) case None => None }
  {
    if s != [] {
      FirstOfMap(s[1..], f, q);
      assert Map(s, f) == [f(s[0])] + Map(s[1..], f);
    }
  }

  lemma {:induction false} FilterTwice<T(!new)>(s: seq<T>, p: T -> bool, q: T -> bool)
    ensures Filter(Filter(s, p), q) == Filter(s, Both(p, q))
  {
    if s != [] {
      FilterTwice(s[1..], p, q);
      if p(s[0]) { assert Filter(s, p)[1..] == Filter(s[1..], p); }
    }
  }

  lemma {:induction false} FilterOfMap<S(!new), T(!new)>(s: seq<S>, f: S -> T, q: T -> bool)
    ensures Filter(Map(s, f), q) == Map(Filter(s, On(f, q)), f)
  {
    if s != [] {
      FilterOfMap(s[1..], f, q);
      assert Map(s, f) == [f(s[0])] + Map(s[1..], f);
    }
  }
}
