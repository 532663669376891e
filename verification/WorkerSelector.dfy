/** Filing workers under NodeSets by the longest matching name, and picking usable workers. */
module WorkerSelector {
  import opened Lists
  import opened Strconv

  datatype NodeSet = NodeSet(name: string, hasGpu: bool)

  datatype Worker = Worker(name: string, usable: bool, nodeSet: string, hasGpu: bool)

  datatype Snapshot = Snapshot(
    nodeSets: seq<NodeSet>,
    workers: seq<Worker>,
    cpuWorkers: seq<Worker>,
    gpuWorkers: seq<Worker>,
    byNodeSet: map<string, seq<Worker>>)

  predicate Matches(ns: NodeSet, worker: string) {
    ns.name + "-" <= worker
  }

  /** The NodeSet with the longest matching name. */
  ghost predicate IsHome(ns: NodeSet, nodeSets: set<NodeSet>, worker: string) {
    && ns in nodeSets && Matches(ns, worker)
    && forall other :: other in nodeSets && Matches(other, worker) ==> |other.name| <= |ns.name|
  }

  ghost predicate Homeless(nodeSets: set<NodeSet>, worker: string) {
    forall ns :: ns in nodeSets ==> !Matches(ns, worker)
  }

  ghost predicate DistinctNames(nodeSets: set<NodeSet>) {
    forall a, b :: a in nodeSets && b in nodeSets && a.name == b.name ==> a == b
  }

  function Elements<T>(xs: seq<T>): set<T> {
    set x | x in xs
  }

  /** An order the unstable sort by descending name length may leave. */
  ghost predicate ByLength(order: seq<NodeSet>) {
    forall i, j :: 0 <= i < j < |order| ==> |order[i].name| >= |order[j].name|
  }

  /** c is w, filed under its home. */
  ghost predicate Filed(nodeSets: set<NodeSet>, w: Worker, c: Worker) {
    exists ns :: IsHome(ns, nodeSets, w.name) && c == w.(nodeSet := ns.name, hasGpu := ns.hasGpu)
  }

  ghost predicate AllFiled(nodeSets: set<NodeSet>, workers: seq<Worker>, filed: seq<Worker>) {
    |filed| == |workers| && forall i :: 0 <= i < |workers| ==> Filed(nodeSets, workers[i], filed[i])
  }

  predicate OnGpu(c: Worker) {
    c.hasGpu
  }

  predicate OnCpu(c: Worker) {
    !c.hasGpu
  }

  function Under(name: string): Worker -> bool {
    (c: Worker) => c.nodeSet == name
  }

  predicate Usable(c: Worker) {
    c.usable
  }

  /** The lists and the map are the filed workers, split. */
  ghost predicate Splits(s: Snapshot, filed: seq<Worker>) {
    && s.cpuWorkers == Filter(filed, OnCpu)
    && s.gpuWorkers == Filter(filed, OnGpu)
    && SplitsByName(s.byNodeSet, filed)
  }

  ghost predicate SplitsByName(m: map<string, seq<Worker>>, filed: seq<Worker>) {
    forall name :: name in m ==> m[name] == Filter(filed, Under(name))
  }

  // ---------------------------------------------------------------------------
  // The longest match
  // ---------------------------------------------------------------------------

  /** A worker matches a NodeSet exactly if its name is the NodeSet's name, a dash and any text. */
  lemma {:induction false} MatchingNames(ns: NodeSet, worker: string)
    ensures Matches(ns, worker) <==> exists rest :: worker == ns.name + "-" + rest
  {
    var n := |ns.name| + 1;
    if Matches(ns, worker) {
      assert worker == ns.name + "-" + worker[n..];
    }
    if rest :| worker == ns.name + "-" + rest {
      assert worker[..n] == ns.name + "-";
    }
  }

  /** There is only one home, and it does not depend on any order of the NodeSets. */
  lemma {:induction false} HomeIsUnique(a: NodeSet, b: NodeSet, nodeSets: set<NodeSet>, worker: string)
    requires DistinctNames(nodeSets) && IsHome(a, nodeSets, worker) && IsHome(b, nodeSets, worker)
    ensures a == b
  {
    assert a.name == worker[..|a.name|] by {
      assert (a.name + "-")[..|a.name|] == a.name;
    }
    assert b.name == worker[..|b.name|] by {
      assert (b.name + "-")[..|b.name|] == b.name;
    }
  }

  /** Two filings of the same workers agree. */
  lemma {:induction false} FilingIsUnique(nodeSets: set<NodeSet>, workers: seq<Worker>, a: seq<Worker>, b: seq<Worker>)
    requires DistinctNames(nodeSets) && AllFiled(nodeSets, workers, a) && AllFiled(nodeSets, workers, b)
    ensures a == b
  {
    forall i | 0 <= i < |workers| ensures a[i] == b[i] {
      var x :| IsHome(x, nodeSets, workers[i].name) && a[i] == workers[i].(nodeSet := x.name, hasGpu := x.hasGpu);
      var y :| IsHome(y, nodeSets, workers[i].name) && b[i] == workers[i].(nodeSet := y.name, hasGpu := y.hasGpu);
      HomeIsUnique(x, y, nodeSets, workers[i].name);
    }
  }

  /** Every filed worker is in exactly one of the CPU and GPU lists and under exactly one name. */
  lemma {:induction false} FiledOnce(s: Snapshot, filed: seq<Worker>, c: Worker, name: string)
    requires Splits(s, filed)
    ensures multiset(s.cpuWorkers) + multiset(s.gpuWorkers) == multiset(filed)
    ensures name in s.byNodeSet ==>
      multiset(s.byNodeSet[name])[c] == if c.nodeSet == name then multiset(filed)[c] else 0
  {
    forall x ensures (multiset(s.cpuWorkers) + multiset(s.gpuWorkers))[x] == multiset(filed)[x] {
      FilterCounts(filed, OnCpu, x);
      FilterCounts(filed, OnGpu, x);
    }
    FilterCounts(filed, Under(name), c);
  }

  /** The first match in an order by length is the longest match. */
  method FirstMatch(order: seq<NodeSet>, worker: string) returns (found: Option<NodeSet>)
    requires ByLength(order)
    ensures found.Some? ==> IsHome(found.value, Elements(order), worker)
    ensures found.None? ==> Homeless(Elements(order), worker)
  {
    for i := 0 to |order|
      invariant forall k :: 0 <= k < i ==> !Matches(order[k], worker)
    {
      if Matches(order[i], worker) {
        return Some(order[i]);
      }
    }
    return None;
  }

  method Append(m: map<string, seq<Worker>>, c: Worker, ghost filed: seq<Worker>) returns (m': map<string, seq<Worker>>)
    requires SplitsByName(m, filed) && c.nodeSet in m
    ensures m'.Keys == m.Keys && SplitsByName(m', filed + [c])
  {
    m' := m[c.nodeSet := m[c.nodeSet] + [c]];
    assert (filed + [c])[..|filed|] == filed;
  }

  method EmptyLists(nodeSets: seq<NodeSet>) returns (m: map<string, seq<Worker>>)
    ensures forall name :: name in m <==> exists ns :: ns in nodeSets && ns.name == name
    ensures SplitsByName(m, [])
  {
    m := map[];
    for i := 0 to |nodeSets|
      invariant forall name :: name in m <==> exists k :: 0 <= k < i && nodeSets[k].name == name
      invariant SplitsByName(m, [])
    {
      m := m[nodeSets[i].name := []];
    }
  }

  /** Appends a filed worker to the lists. */
  method File(s: Snapshot, c: Worker, ghost matched: seq<Worker>) returns (s': Snapshot)
    requires Splits(s, matched) && c.nodeSet in s.byNodeSet
    ensures s'.nodeSets == s.nodeSets && s'.byNodeSet.Keys == s.byNodeSet.Keys
    ensures s'.workers == s.workers + [c] && Splits(s', matched + [c])
  {
    var byNodeSet := Append(s.byNodeSet, c, matched);
    assert (matched + [c])[..|matched|] == matched;
    s' := Snapshot(s.nodeSets, s.workers + [c],
                   if c.hasGpu then s.cpuWorkers else s.cpuWorkers + [c],
                   if c.hasGpu then s.gpuWorkers + [c] else s.gpuWorkers,
                   byNodeSet);
  }

  lemma {:induction false} AllFiledNext(nodeSets: set<NodeSet>, workers: seq<Worker>, i: nat, filed: seq<Worker>,
      ns: NodeSet)
    requires i < |workers| && AllFiled(nodeSets, workers[..i], filed) && IsHome(ns, nodeSets, workers[i].name)
    ensures AllFiled(nodeSets, workers[..i + 1], filed + [workers[i].(nodeSet := ns.name, hasGpu := ns.hasGpu)])
  {
    var next := filed + [workers[i].(nodeSet := ns.name, hasGpu := ns.hasGpu)];
    forall k | 0 <= k < i + 1 ensures Filed(nodeSets, workers[..i + 1][k], next[k]) {
      if k < i {
        assert Filed(nodeSets, workers[..i][k], filed[k]);
      }
    }
  }

  lemma {:induction false} NoneHomeless(nodeSets: set<NodeSet>, workers: seq<Worker>, filed: seq<Worker>, i: nat)
    requires AllFiled(nodeSets, workers, filed) && i < |workers|
    ensures !Homeless(nodeSets, workers[i].name)
  {
    assert Filed(nodeSets, workers[i], filed[i]);
  }

  /**
   Files the workers under the given order of the NodeSets. It fails exactly when some worker
   matches no NodeSet; otherwise each worker is filed under its longest match, in order.
   */
  method NewWorkerSnapshot(nodeSets: seq<NodeSet>, order: seq<NodeSet>, workers: seq<Worker>)
      returns (r: Option<Snapshot>)
    requires ByLength(order) && multiset(order) == multiset(nodeSets)
    ensures r.None? <==> exists i :: 0 <= i < |workers| && Homeless(Elements(nodeSets), workers[i].name)
    ensures r.Some? ==>
              && r.value.nodeSets == nodeSets && AllFiled(Elements(nodeSets), workers, r.value.workers)
              && Splits(r.value, r.value.workers)
              && forall name :: name in r.value.byNodeSet <==> exists ns :: ns in nodeSets && ns.name == name
  {
    ghost var all := Elements(nodeSets);
    SameElements(order, nodeSets);
    var m := EmptyLists(nodeSets);
    var s := Snapshot(nodeSets, [], [], [], m);
    var unmatched := [];
    ghost var matched, stray := [], 0;
    for i := 0 to |workers|
      invariant s.nodeSets == nodeSets && s.byNodeSet.Keys == m.Keys && Splits(s, matched)
      invariant unmatched != [] ==> 0 <= stray < i && Homeless(all, workers[stray].name)
      invariant unmatched == [] ==> s.workers == matched && AllFiled(all, workers[..i], matched)
    {
      var home := FirstMatch(order, workers[i].name);
      if home.Some? {
        var c := workers[i].(nodeSet := home.value.name, hasGpu := home.value.hasGpu);
        assert home.value in nodeSets;
        s := File(s, c, matched);
        if unmatched == [] {
          AllFiledNext(all, workers, i, matched, home.value);
        }
        matched := matched + [c];
      } else {
        unmatched := unmatched + [workers[i].name];
        stray := i;
        s := s.(workers := s.workers + [workers[i]]);
      }
    }
    assert workers[..|workers|] == workers;
    if unmatched != [] {
      return None;
    }
    forall i | 0 <= i < |workers| ensures !Homeless(all, workers[i].name) {
      NoneHomeless(all, workers, matched, i);
    }
    return Some(s);
  }

  lemma {:induction false} SameElements<T>(a: seq<T>, b: seq<T>)
    requires multiset(a) == multiset(b)
    ensures Elements(a) == Elements(b)
  {
    forall x ensures x in Elements(a) <==> x in Elements(b) {
      assert x in a <==> x in multiset(a);
      assert x in b <==> x in multiset(b);
    }
  }

  // ---------------------------------------------------------------------------
  // Picking
  // ---------------------------------------------------------------------------

  datatype Picked = InvalidCount | Insufficient | Unavailable | Chosen(workers: seq<Worker>)

  ghost predicate IsPermutation(perm: seq<nat>, n: nat) {
    && |perm| == n
    && (forall i :: 0 <= i < n ==> perm[i] < n)
    && (forall i, j :: 0 <= i < j < n ==> perm[i] != perm[j])
  }

  method UsableWorkers(pool: seq<Worker>) returns (usable: seq<Worker>)
    ensures usable == Filter(pool, Usable)
  {
    usable := [];
    for i := 0 to |pool|
      invariant usable == Filter(pool[..i], Usable)
    {
      FilterStep(pool, Usable, i);
      if pool[i].usable {
        usable := usable + [pool[i]];
      }
    }
    assert pool[..|pool|] == pool;
  }

  /** perm is the random permutation of the usable workers. */
  method PickWorkers(pool: seq<Worker>, configured: int, count: int, perm: seq<nat>) returns (r: Picked)
    requires IsPermutation(perm, |Filter(pool, Usable)|)
    ensures r == InvalidCount <==> count < 1
    ensures r == Insufficient <==> count >= 1 && configured < count
    ensures r == Unavailable <==> 1 <= count <= configured && |Filter(pool, Usable)| < count
    ensures r.Chosen? ==> |r.workers| == count && multiset(r.workers) <= multiset(Filter(pool, Usable))
  {
    if count < 1 {
      return InvalidCount;
    }
    if configured < count {
      return Insufficient;
    }
    var usable := UsableWorkers(pool);
    if |usable| < count {
      return Unavailable;
    }
    var chosen := [];
    for i := 0 to count
      invariant |chosen| == i
      invariant chosen == Selected(usable, perm[..i])
    {
      assert perm[..i + 1][..i] == perm[..i];
      chosen := chosen + [usable[perm[i]]];
    }
    SelectedOnce(usable, perm[..count]);
    return Chosen(chosen);
  }

  predicate Within(indices: seq<nat>, n: nat) {
    forall i :: 0 <= i < |indices| ==> indices[i] < n
  }

  function Selected(xs: seq<Worker>, indices: seq<nat>): seq<Worker>
    requires Within(indices, |xs|)
  {
    if indices == [] then [] else Selected(xs, indices[..|indices| - 1]) + [xs[indices[|indices| - 1]]]
  }

  /** The positions among those given that hold x. */
  function Hits(xs: seq<Worker>, positions: set<nat>, x: Worker): set<nat> {
    set k | k in positions && k < |xs| && xs[k] == x
  }

  function Below(n: nat): (s: set<nat>)
    ensures forall k: nat :: k in s <==> k < n
  {
    if n == 0 then {} else Below(n - 1) + {n - 1}
  }

  lemma {:induction false} HitsNext(xs: seq<Worker>, positions: set<nat>, y: nat, x: Worker)
    requires y < |xs| && y !in positions
    ensures |Hits(xs, positions + {y}, x)| == |Hits(xs, positions, x)| + if xs[y] == x then 1 else 0
  {
    if xs[y] == x {
      assert Hits(xs, positions + {y}, x) == Hits(xs, positions, x) + {y};
    } else {
      assert Hits(xs, positions + {y}, x) == Hits(xs, positions, x);
    }
  }

  lemma {:induction false} SelectedCount(xs: seq<Worker>, indices: seq<nat>, x: Worker)
    requires Within(indices, |xs|)
    requires forall i, j :: 0 <= i < j < |indices| ==> indices[i] != indices[j]
    ensures multiset(Selected(xs, indices))[x] == |Hits(xs, Elements(indices), x)|
  {
    if indices != [] {
      var front, y := indices[..|indices| - 1], indices[|indices| - 1];
      SelectedCount(xs, front, x);
      HitsNext(xs, Elements(front), y, x);
      assert Elements(indices) == Elements(front) + {y};
    }
  }

  lemma {:induction false} AllCount(xs: seq<Worker>, n: nat, x: Worker)
    requires n <= |xs|
    ensures multiset(xs[..n])[x] == |Hits(xs, Below(n), x)|
  {
    if n > 0 {
      AllCount(xs, n - 1, x);
      HitsNext(xs, Below(n - 1), n - 1, x);
      assert xs[..n] == xs[..n - 1] + [xs[n - 1]];
    }
  }

  lemma {:induction false} SmallerSet(a: set<nat>, b: set<nat>)
    requires a <= b
    ensures |a| <= |b|
  {
    assert b == a + (b - a);
  }

  /** Distinct indices select distinct occurrences. */
  lemma {:induction false} SelectedOnce(xs: seq<Worker>, indices: seq<nat>)
    requires Within(indices, |xs|)
    requires forall i, j :: 0 <= i < j < |indices| ==> indices[i] != indices[j]
    ensures multiset(Selected(xs, indices)) <= multiset(xs)
  {
    forall x ensures multiset(Selected(xs, indices))[x] <= multiset(xs)[x] {
      SelectedCount(xs, indices, x);
      AllCount(xs, |xs|, x);
      assert xs[..|xs|] == xs;
      SmallerSet(Hits(xs, Elements(indices), x), Hits(xs, Below(|xs|), x));
    }
  }
}
