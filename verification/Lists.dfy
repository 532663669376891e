/**
 List operations: concatenating the results of parsers that may fail, flattening, filtering, and
 picking an element of a set.
 */
module Lists {
  import opened Strconv

  /** All the lists in order, or None when one of them is an error. */
  function Collect<T>(rs: seq<Option<seq<T>>>): Option<seq<T>> {
    if rs == [] then Some([])
    else
      var front, last := Collect(rs[..|rs| - 1]), rs[|rs| - 1];
      if front.None? || last.None? then None else Some(front.value + last.value)
  }

  lemma {:induction false} CollectStep<T>(rs: seq<Option<seq<T>>>, i: nat)
    requires i < |rs|
    ensures Collect(rs[..i + 1]) ==
      if Collect(rs[..i]).None? || rs[i].None? then None else Some(Collect(rs[..i]).value + rs[i].value)
  {
    assert rs[..i + 1][..i] == rs[..i];
  }

  lemma {:induction false} CollectFails<T>(rs: seq<Option<seq<T>>>, i: nat)
    requires i < |rs| && rs[i].None?
    ensures Collect(rs).None?
  {
    if i < |rs| - 1 {
      CollectFails(rs[..|rs| - 1], i);
    }
  }

  /** Membership in a collected list is membership in one of its parts. */
  lemma {:induction false} InCollected<T>(rs: seq<Option<seq<T>>>, h: T)
    requires forall i :: 0 <= i < |rs| ==> rs[i].Some?
    ensures Collect(rs).Some?
    ensures h in Collect(rs).value <==> exists i :: 0 <= i < |rs| && h in rs[i].value
  {
    if rs != [] {
      var front := rs[..|rs| - 1];
      InCollected(front, h);
      assert forall i :: 0 <= i < |front| ==> front[i] == rs[i];
    }
  }

  /** The concatenation of lists. */
  function Flatten<T>(xss: seq<seq<T>>): seq<T> {
    if xss == [] then [] else Flatten(xss[..|xss| - 1]) + xss[|xss| - 1]
  }

  lemma {:induction false} CollectAll<T>(rs: seq<Option<seq<T>>>, xss: seq<seq<T>>)
    requires |rs| == |xss| && forall i :: 0 <= i < |rs| ==> rs[i] == Some(xss[i])
    ensures Collect(rs) == Some(Flatten(xss))
  {
    if rs != [] {
      CollectAll(rs[..|rs| - 1], xss[..|xss| - 1]);
    }
  }

  /** The elements that satisfy p, in order. */
  function Filter<T>(xs: seq<T>, p: T -> bool): seq<T> {
    if xs == [] then []
    else
      var front, x := Filter(xs[..|xs| - 1], p), xs[|xs| - 1];
      if p(x) then front + [x] else front
  }

  lemma {:induction false} FilterStep<T>(xs: seq<T>, p: T -> bool, i: nat)
    requires i < |xs|
    ensures Filter(xs[..i + 1], p) == Filter(xs[..i], p) + if p(xs[i]) then [xs[i]] else []
  {
    assert xs[..i + 1][..i] == xs[..i];
  }

  /** Filtering keeps every copy of the elements that satisfy p, and no other element. */
  lemma {:induction false} FilterCounts<T>(xs: seq<T>, p: T -> bool, x: T)
    ensures multiset(Filter(xs, p))[x] == if p(x) then multiset(xs)[x] else 0
  {
    if xs != [] {
      var front, last := xs[..|xs| - 1], xs[|xs| - 1];
      FilterCounts(front, p, x);
      assert xs == front + [last];
      assert multiset(xs) == multiset(front) + multiset{last};
    }
  }

  lemma {:induction false} Pick<T>(s: set<T>) returns (x: T)
    requires s != {}
    ensures x in s
  {
    x :| x in s;
  }
}
