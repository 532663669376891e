/**
 Many e2e runs sharing projects and GPU blocks. A run selects a feasible profile and publishes
 its claim in one atomic step, and gives the claim up when it ends; meanwhile instances come
 and go and limits may be raised. No project is ever held twice and no block overcommitted.
 */
module SelectorRuns {
  import opened Selector
  import opened Lists

  datatype System = System(claims: seq<Claim>, limits: map<Block, nat>, usage: map<Block, nat>)

  datatype Step =
    | Select(run: int, tag: string, name: string)
    | Finish(index: nat)
    | Use(block: Block, gpus: nat)
    | Raise(block: Block, limit: nat)

  function LimitOf(s: System, b: Block): nat {
    if b in s.limits then s.limits[b] else 0
  }

  /** What the capacity API answers. */
  function CapacityOf(limits: map<Block, nat>, usage: map<Block, nat>): Capacity {
    (b: Block) => if b in limits then Found(limits[b], if b in usage then usage[b] else 0) else NotFound
  }

  ghost predicate Enabled(cfg: Config, s: System, step: Step) {
    match step
    case Select(_, tag, name) =>
      name in cfg && tag in cfg[name].labels && Feasible(cfg, s.claims, CapacityOf(s.limits, s.usage), name)
    case Finish(index) => index < |s.claims|
    case Use(_, _) => true
    case Raise(block, limit) => limit >= LimitOf(s, block)
  }

  function Next(cfg: Config, s: System, step: Step): System
    requires step.Select? ==> step.name in cfg
    requires step.Finish? ==> step.index < |s.claims|
  {
    match step
    case Select(run, _, name) => s.(claims := s.claims + [Claim(run, name, cfg[name].project)])
    case Finish(index) => s.(claims := s.claims[..index] + s.claims[index + 1..])
    case Use(block, gpus) => s.(usage := s.usage[block := gpus])
    case Raise(block, limit) => s.(limits := s.limits[block := limit])
  }

  datatype Outcome = Stuck | Reached(state: System)

  ghost function Run(cfg: Config, s: System, steps: seq<Step>): Outcome {
    if steps == [] then Reached(s)
    else
      var before := Run(cfg, s, steps[..|steps| - 1]);
      if before.Reached? && Enabled(cfg, before.state, steps[|steps| - 1])
      then Reached(Next(cfg, before.state, steps[|steps| - 1])) else Stuck
  }

  /** GPUs the claim will draw from the block. */
  function Draw(cfg: Config, c: Claim, b: Block): int {
    if c.profile in cfg && cfg[c.profile].tenant == b.tenant && cfg[c.profile].region == b.region
    then Need(cfg[c.profile].nodeSets, b.key) else 0
  }

  /** GPUs all the claims together will draw from the block. */
  function Held(cfg: Config, claims: seq<Claim>, b: Block): int {
    if claims == [] then 0 else Held(cfg, claims[..|claims| - 1], b) + Draw(cfg, claims[|claims| - 1], b)
  }

  // What a loaded configuration guarantees -----------------------------------

  /** Validated profiles have positive nodeset sizes. */
  predicate Validated(cfg: Config) {
    forall name :: name in cfg ==> Positive(cfg[name].nodeSets)
  }

  predicate Positive(sets: seq<NodeSet>) {
    forall i :: 0 <= i < |sets| ==> sets[i].size > 0
  }

  /** No choice of profiles with different projects needs more GPUs under one key than the counters hold. */
  ghost predicate Bounded(cfg: Config) {
    forall claims, key :: Consistent(cfg, claims) && Exclusive(claims) ==> Reserved(cfg, claims, key) < U64
  }

  // The invariant -------------------------------------------------------------

  /** Claims are of known profiles that some label selects, under the profile's project. */
  predicate Consistent(cfg: Config, claims: seq<Claim>) {
    forall i :: 0 <= i < |claims| ==> Selectable(cfg, claims[i])
  }

  predicate Selectable(cfg: Config, c: Claim) {
    c.profile in cfg && c.project == cfg[c.profile].project && cfg[c.profile].labels != []
  }

  /** No two claims share a project. */
  predicate Exclusive(claims: seq<Claim>) {
    forall i, j :: 0 <= i < j < |claims| ==> claims[i].project != claims[j].project
  }

  /** No block is promised more GPUs than its limit. */
  ghost predicate WithinLimits(cfg: Config, s: System) {
    forall b :: Held(cfg, s.claims, b) <= LimitOf(s, b)
  }

  ghost predicate Inv(cfg: Config, s: System) {
    Consistent(cfg, s.claims) && Exclusive(s.claims) && WithinLimits(cfg, s)
  }

  lemma {:induction false} ProductIsNatural(a: nat, b: nat)
    ensures a * b >= 0
  {
  }

  lemma {:induction false} NeedIsNatural(sets: seq<NodeSet>, key: Key)
    requires Positive(sets)
    ensures Need(sets, key) >= 0
    ensures !Draws(sets, key) ==> Need(sets, key) == 0
  {
    if sets != [] {
      var n := |sets| - 1;
      NeedIsNatural(sets[..n], key);
      DrawsStep(sets, n, key);
      assert sets[..n + 1] == sets;
      ProductIsNatural(sets[n].size, GpuCount(sets[n].preset));
    }
  }

  /** A block never holds more than what is reserved under its key across all regions. */
  lemma {:induction false} HeldIsReserved(cfg: Config, claims: seq<Claim>, b: Block)
    requires Validated(cfg)
    ensures 0 <= Held(cfg, claims, b) <= Reserved(cfg, claims, b.key)
  {
    if claims != [] {
      HeldIsReserved(cfg, claims[..|claims| - 1], b);
      var last := claims[|claims| - 1];
      if last.profile in cfg {
        NeedIsNatural(cfg[last.profile].nodeSets, b.key);
      }
    }
  }

  /** What the feasibility test guarantees in true numbers: the block has room for the new claim. */
  lemma {:induction false} RoomForClaim(cfg: Config, s: System, c: Claim, b: Block)
    requires Validated(cfg) && Bounded(cfg) && Inv(cfg, s) && Selectable(cfg, c)
    requires Feasible(cfg, s.claims, CapacityOf(s.limits, s.usage), c.profile)
    requires cfg[c.profile].tenant == b.tenant && cfg[c.profile].region == b.region &&
      Draws(cfg[c.profile].nodeSets, b.key)
    ensures Held(cfg, s.claims, b) + Need(cfg[c.profile].nodeSets, b.key) <= LimitOf(s, b)
  {
    var p := cfg[c.profile];
    assert KeyFits(cfg, s.claims, CapacityOf(s.limits, s.usage), p, b.key);
    assert b == Block(p.tenant, p.region, b.key);
    HeldIsReserved(cfg, s.claims, b);
    NeedIsNatural(p.nodeSets, b.key);
    ReservedWithOneMore(cfg, s.claims, c, b.key);
  }

  /** A validated profile needs at least one GPU under every key it draws from. */
  lemma {:induction false} DrawnIsNeeded(sets: seq<NodeSet>, key: Key)
    requires Positive(sets) && Draws(sets, key)
    ensures Need(sets, key) > 0
  {
    var n := |sets| - 1;
    NeedIsNatural(sets[..n], key);
    DrawsStep(sets, n, key);
    assert sets[..n + 1] == sets;
    if Draws(sets[..n], key) {
      DrawnIsNeeded(sets[..n], key);
    }
    ProductIsPositive(sets[n].size, GpuCount(sets[n].preset));
  }

  lemma {:induction false} ProductIsPositive(a: nat, b: nat)
    ensures a * b >= 0 && (a > 0 && b > 0 ==> a * b > 0)
  {
  }

  /** A selection leaves its need, all reservations under the key and the usage together within the limit. */
  lemma {:induction false} SelectionFits(cfg: Config, s: System, step: Step, key: Key)
    requires Validated(cfg) && Bounded(cfg) && Inv(cfg, s) && step.Select? && Enabled(cfg, s, step)
    requires Draws(cfg[step.name].nodeSets, key)
    ensures
      var p := cfg[step.name];
      var b := Block(p.tenant, p.region, key);
      && b in s.limits
      && Need(p.nodeSets, key) + Reserved(cfg, s.claims, key) + (if b in s.usage then s.usage[b] else 0) <= s.limits[b]
  {
    var p := cfg[step.name];
    assert KeyFits(cfg, s.claims, CapacityOf(s.limits, s.usage), p, key);
    DrawnIsNeeded(p.nodeSets, key);
    HeldIsReserved(cfg, s.claims, Block("", "", key));
    ReservedWithOneMore(cfg, s.claims, Claim(step.run, step.name, p.project), key);
  }

  lemma {:induction false} ReservedWithOneMore(cfg: Config, claims: seq<Claim>, c: Claim, key: Key)
    requires Bounded(cfg) && Consistent(cfg, claims) && Exclusive(claims) && Selectable(cfg, c) &&
      !Occupied(claims, c.project)
    ensures Reserved(cfg, claims, key) + Need(cfg[c.profile].nodeSets, key) < U64
  {
    var more := claims + [c];
    assert more[..|claims|] == claims;
    assert Consistent(cfg, more) && Exclusive(more);
    assert Reserved(cfg, more, key) < U64;
  }

  lemma {:induction false} SelectKeepsInv(cfg: Config, s: System, step: Step)
    requires Validated(cfg) && Bounded(cfg) && Inv(cfg, s) && step.Select? && Enabled(cfg, s, step)
    ensures Inv(cfg, Next(cfg, s, step))
  {
    var s' := Next(cfg, s, step);
    var c := Claim(step.run, step.name, cfg[step.name].project);
    assert s'.claims[..|s.claims|] == s.claims;
    assert forall i :: 0 <= i < |s.claims| ==> s'.claims[i] == s.claims[i];
    forall b ensures Held(cfg, s'.claims, b) <= LimitOf(s', b) {
      assert Held(cfg, s'.claims, b) == Held(cfg, s.claims, b) + Draw(cfg, c, b);
      var p := cfg[step.name];
      if Draws(p.nodeSets, b.key) && p.tenant == b.tenant && p.region == b.region {
        RoomForClaim(cfg, s, c, b);
      } else {
        NeedIsNatural(cfg[step.name].nodeSets, b.key);
      }
    }
  }

  lemma {:induction false} HeldSnoc(cfg: Config, front: seq<Claim>, c: Claim, b: Block)
    ensures Held(cfg, front + [c], b) == Held(cfg, front, b) + Draw(cfg, c, b)
  {
    assert (front + [c])[..|front|] == front;
  }

  lemma {:induction false} FinishShrinks(cfg: Config, claims: seq<Claim>, k: nat, b: Block)
    requires k < |claims|
    ensures Held(cfg, claims[..k] + claims[k + 1..], b) == Held(cfg, claims, b) - Draw(cfg, claims[k], b)
  {
    var n := |claims| - 1;
    var front, last := claims[..n], claims[n];
    var rest := claims[..k] + claims[k + 1..];
    assert claims == front + [last];
    HeldSnoc(cfg, front, last, b);
    if k == n {
      assert rest == front;
    } else {
      var less := front[..k] + front[k + 1..];
      FinishShrinks(cfg, front, k, b);
      assert rest == less + [last];
      HeldSnoc(cfg, less, last, b);
    }
  }

  lemma {:induction false} FinishKeepsInv(cfg: Config, s: System, step: Step)
    requires Validated(cfg) && Inv(cfg, s) && step.Finish? && Enabled(cfg, s, step)
    ensures Inv(cfg, Next(cfg, s, step))
  {
    var s' := Next(cfg, s, step);
    forall b ensures Held(cfg, s'.claims, b) <= LimitOf(s', b) {
      FinishShrinks(cfg, s.claims, step.index, b);
      var c := s.claims[step.index];
      if c.profile in cfg {
        NeedIsNatural(cfg[c.profile].nodeSets, b.key);
      }
    }
  }

  /**
   No overcommit: whatever runs come and go, no two active claims share a project and no block
   is promised more than its limit, although reservations ignore tenant and region.
   */
  lemma {:induction false} NoOvercommit(cfg: Config, s: System, steps: seq<Step>)
    requires Validated(cfg) && Bounded(cfg) && s.claims == [] && Run(cfg, s, steps).Reached?
    ensures Inv(cfg, Run(cfg, s, steps).state)
  {
    if steps != [] {
      var front, last := steps[..|steps| - 1], steps[|steps| - 1];
      NoOvercommit(cfg, s, front);
      var before := Run(cfg, s, front).state;
      match last
      case Select(_, _, _) => SelectKeepsInv(cfg, before, last);
      case Finish(_) => FinishKeepsInv(cfg, before, last);
      case _ =>
    }
  }

  // ---------------------------------------------------------------------------
  // The bound is exact: a configuration beyond it can be driven into overcommit
  // ---------------------------------------------------------------------------

  function NeedOf(cfg: Config, c: Claim, key: Key): int {
    if c.profile in cfg then Need(cfg[c.profile].nodeSets, key) else 0
  }

  lemma {:induction false} ReservedConcat(cfg: Config, a: seq<Claim>, b: seq<Claim>, key: Key)
    ensures Reserved(cfg, a + b, key) == Reserved(cfg, a, key) + Reserved(cfg, b, key)
  {
    if b == [] {
      assert a + b == a;
    } else {
      ReservedConcat(cfg, a, b[..|b| - 1], key);
      assert (a + b)[..|a + b| - 1] == a + b[..|b| - 1];
    }
  }

  lemma {:induction false} ReservedSnoc(cfg: Config, claims: seq<Claim>, c: Claim, key: Key)
    ensures Reserved(cfg, claims + [c], key) == Reserved(cfg, claims, key) + NeedOf(cfg, c, key)
  {
    assert (claims + [c])[..|claims|] == claims;
  }

  lemma {:induction false} ReservedSplits(cfg: Config, claims: seq<Claim>, key: Key, p: Claim -> bool, q: Claim -> bool)
    requires forall c :: q(c) <==> !p(c)
    ensures Reserved(cfg, Filter(claims, p), key) + Reserved(cfg, Filter(claims, q), key) == Reserved(cfg, claims, key)
  {
    if claims != [] {
      var front, last := claims[..|claims| - 1], claims[|claims| - 1];
      ReservedSplits(cfg, front, key, p, q);
      ReservedSnoc(cfg, front, last, key);
      assert front + [last] == claims;
      if p(last) {
        ReservedSnoc(cfg, Filter(front, p), last, key);
      } else {
        ReservedSnoc(cfg, Filter(front, q), last, key);
      }
    }
  }

  lemma {:induction false} ReservedIsNatural(cfg: Config, claims: seq<Claim>, key: Key)
    requires Validated(cfg)
    ensures Reserved(cfg, claims, key) >= 0
  {
    HeldIsReserved(cfg, claims, Block("", "", key));
  }

  lemma {:induction false} FilterMembers(claims: seq<Claim>, p: Claim -> bool, c: Claim)
    ensures c in Filter(claims, p) <==> c in claims && p(c)
  {
    FilterCounts(claims, p, c);
    assert c in Filter(claims, p) <==> multiset(Filter(claims, p))[c] > 0;
    assert c in claims <==> multiset(claims)[c] > 0;
  }

  lemma {:induction false} FilterExclusive(claims: seq<Claim>, p: Claim -> bool)
    requires Exclusive(claims)
    ensures Exclusive(Filter(claims, p))
  {
    if claims != [] {
      var front, last := claims[..|claims| - 1], claims[|claims| - 1];
      FilterExclusive(front, p);
      var kept := Filter(front, p);
      forall i | 0 <= i < |kept| ensures kept[i].project != last.project {
        FilterMembers(front, p, kept[i]);
      }
    }
  }

  ghost predicate Apart(a: seq<Claim>, b: seq<Claim>) {
    forall i, j :: 0 <= i < |a| && 0 <= j < |b| ==> a[i].project != b[j].project
  }

  lemma {:induction false} FilteredApart(claims: seq<Claim>, p: Claim -> bool, q: Claim -> bool)
    requires Exclusive(claims) && forall c :: q(c) <==> !p(c)
    ensures Apart(Filter(claims, p), Filter(claims, q))
  {
    var a, b := Filter(claims, p), Filter(claims, q);
    forall i, j | 0 <= i < |a| && 0 <= j < |b| ensures a[i].project != b[j].project {
      FilterMembers(claims, p, a[i]);
      FilterMembers(claims, q, b[j]);
    }
  }

  /** The claims of profiles in the block's tenant and region. */
  function LocalTo(cfg: Config, b: Block): Claim -> bool {
    (c: Claim) => c.profile in cfg && cfg[c.profile].tenant == b.tenant && cfg[c.profile].region == b.region
  }

  function Elsewhere(cfg: Config, b: Block): Claim -> bool {
    (c: Claim) => !LocalTo(cfg, b)(c)
  }

  /** The block's own claims first, then the others. */
  function LocalFirst(cfg: Config, claims: seq<Claim>, b: Block): seq<Claim> {
    Filter(claims, LocalTo(cfg, b)) + Filter(claims, Elsewhere(cfg, b))
  }

  lemma {:induction false} ExclusiveConcat(a: seq<Claim>, b: seq<Claim>)
    requires Exclusive(a) && Exclusive(b) && Apart(a, b)
    ensures Exclusive(a + b)
  {
  }

  lemma {:induction false} LocalFirstMembers(cfg: Config, claims: seq<Claim>, b: Block, c: Claim)
    ensures c in LocalFirst(cfg, claims, b) <==> c in claims
  {
    FilterMembers(claims, LocalTo(cfg, b), c);
    FilterMembers(claims, Elsewhere(cfg, b), c);
  }

  lemma {:induction false} LocalFirstSums(cfg: Config, claims: seq<Claim>, b: Block)
    ensures |LocalFirst(cfg, claims, b)| == |claims|
    ensures Reserved(cfg, LocalFirst(cfg, claims, b), b.key) == Reserved(cfg, claims, b.key)
  {
    var p, q := LocalTo(cfg, b), Elsewhere(cfg, b);
    FilterLengths(claims, p, q);
    ReservedSplits(cfg, claims, b.key, p, q);
    ReservedConcat(cfg, Filter(claims, p), Filter(claims, q), b.key);
  }

  lemma {:induction false} LocalFirstKeeps(cfg: Config, claims: seq<Claim>, b: Block)
    requires Consistent(cfg, claims) && Exclusive(claims)
    ensures Consistent(cfg, LocalFirst(cfg, claims, b)) && Exclusive(LocalFirst(cfg, claims, b))
  {
    var p, q := LocalTo(cfg, b), Elsewhere(cfg, b);
    FilterExclusive(claims, p);
    FilterExclusive(claims, q);
    FilteredApart(claims, p, q);
    ExclusiveConcat(Filter(claims, p), Filter(claims, q));
    var order := LocalFirst(cfg, claims, b);
    forall i | 0 <= i < |order| ensures Selectable(cfg, order[i]) {
      LocalFirstMembers(cfg, claims, b, order[i]);
    }
  }

  lemma {:induction false} HeldConcat(cfg: Config, xs: seq<Claim>, ys: seq<Claim>, b: Block)
    ensures Held(cfg, xs + ys, b) == Held(cfg, xs, b) + Held(cfg, ys, b)
  {
    if ys == [] {
      assert xs + ys == xs;
    } else {
      HeldConcat(cfg, xs, ys[..|ys| - 1], b);
      assert (xs + ys)[..|xs + ys| - 1] == xs + ys[..|ys| - 1];
    }
  }

  /** The block holds exactly what its own claims reserve, and nothing of the others. */
  lemma {:induction false} HeldLocally(cfg: Config, claims: seq<Claim>, b: Block)
    ensures Held(cfg, Filter(claims, LocalTo(cfg, b)), b) == Reserved(cfg, Filter(claims, LocalTo(cfg, b)), b.key)
    ensures Held(cfg, Filter(claims, Elsewhere(cfg, b)), b) == 0
  {
    if claims != [] {
      var front, last := claims[..|claims| - 1], claims[|claims| - 1];
      HeldLocally(cfg, front, b);
      if LocalTo(cfg, b)(last) {
        HeldConcat(cfg, Filter(front, LocalTo(cfg, b)), [last], b);
        ReservedConcat(cfg, Filter(front, LocalTo(cfg, b)), [last], b.key);
      } else {
        HeldConcat(cfg, Filter(front, Elsewhere(cfg, b)), [last], b);
      }
    }
  }

  // A world in which every block is ample except one -------------------------------

  function AllBlocks(cfg: Config): set<Block> {
    set name, i | name in cfg.Keys && 0 <= i < |cfg[name].nodeSets| ::
      Block(cfg[name].tenant, cfg[name].region, KeyOf(cfg[name].nodeSets[i]))
  }

  function Limits(cfg: Config, b: Block, limit: nat): map<Block, nat> {
    map x | x in AllBlocks(cfg) + {b} :: if x == b then limit else U64 - 1
  }

  lemma {:induction false} DrawnIsLimited(cfg: Config, name: string, key: Key, b: Block, limit: nat)
    requires name in cfg && Draws(cfg[name].nodeSets, key)
    ensures var x := Block(cfg[name].tenant, cfg[name].region, key);
            x in Limits(cfg, b, limit) && Limits(cfg, b, limit)[x] == if x == b then limit else U64 - 1
  {
    var sets := cfg[name].nodeSets;
    var i :| 0 <= i < |sets| && Counted(sets[i]) && KeyOf(sets[i]) == key;
    assert Block(cfg[name].tenant, cfg[name].region, KeyOf(sets[i])) in AllBlocks(cfg);
  }

  ghost predicate FitsTight(cfg: Config, claims: seq<Claim>, c: Claim, b: Block, limit: nat) {
    LocalTo(cfg, b)(c) ==> Wrap(NeedOf(cfg, c, b.key) + Reserved(cfg, claims, b.key)) <= limit
  }

  /** A claim is admitted as soon as it fits the one tight block. */
  lemma {:induction false} Admitted(cfg: Config, claims: seq<Claim>, c: Claim, b: Block, limit: nat, capacity: Capacity)
    requires Selectable(cfg, c) && !Occupied(claims, c.project) && FitsTight(cfg, claims, c, b, limit)
    requires capacity == CapacityOf(Limits(cfg, b, limit), map[])
    ensures Feasible(cfg, claims, capacity, c.profile)
  {
    var p := cfg[c.profile];
    forall key | Draws(p.nodeSets, key) ensures KeyFits(cfg, claims, capacity, p, key) {
      DrawnIsLimited(cfg, c.profile, key, b, limit);
    }
  }

  function Steps(cfg: Config, order: seq<Claim>): seq<Step>
    requires Consistent(cfg, order)
  {
    seq(|order|, i requires 0 <= i < |order| => Select(order[i].run, cfg[order[i].profile].labels[0], order[i].profile))
  }

  /** Claims that are feasible one after the other can be made one after the other. */
  lemma {:induction false} RunSelects(cfg: Config, s: System, order: seq<Claim>)
    requires Consistent(cfg, order) && s.claims == []
    requires forall i :: 0 <= i < |order| ==> Feasible(cfg, order[..i], CapacityOf(s.limits, s.usage), order[i].profile)
    ensures Run(cfg, s, Steps(cfg, order)) == Reached(s.(claims := order))
  {
    if order != [] {
      var n := |order| - 1;
      var front, c := order[..n], order[n];
      forall i | 0 <= i < n ensures Feasible(cfg, front[..i], CapacityOf(s.limits, s.usage), front[i].profile) {
        assert front[..i] == order[..i];
      }
      RunSelects(cfg, s, front);
      assert Steps(cfg, order)[..n] == Steps(cfg, front);
      assert order == front + [c];
    }
  }

  /** The tight block's limit: enough for its own claims one by one, and for the wrapped sum. */
  function TightLimit(own: int, sum: int): int {
    if own >= Wrap(sum) then own else Wrap(sum)
  }

  /** The newcomer shares no project and takes the true sum past the counter width. */
  ghost predicate TooMany(cfg: Config, rest: seq<Claim>, c: Claim, b: Block) {
    && Validated(cfg) && Consistent(cfg, rest) && Exclusive(rest) && Selectable(cfg, c) && !Occupied(rest, c.project)
    && b.tenant == cfg[c.profile].tenant && b.region == cfg[c.profile].region
    && Reserved(cfg, rest, b.key) < U64 <= Reserved(cfg, rest, b.key) + NeedOf(cfg, c, b.key)
  }

  lemma {:induction false} ReservedPrefix(cfg: Config, claims: seq<Claim>, i: nat, key: Key)
    requires Validated(cfg) && i < |claims|
    ensures 0 <= NeedOf(cfg, claims[i], key) + Reserved(cfg, claims[..i], key) <= Reserved(cfg, claims, key)
  {
    assert claims[..i + 1][..i] == claims[..i];
    assert claims == claims[..i + 1] + claims[i + 1..];
    ReservedConcat(cfg, claims[..i + 1], claims[i + 1..], key);
    ReservedIsNatural(cfg, claims[i + 1..], key);
    ReservedIsNatural(cfg, claims[..i + 1], key);
  }

  lemma {:induction false} NotYetOccupied(claims: seq<Claim>, i: nat)
    requires Exclusive(claims) && i < |claims|
    ensures !Occupied(claims[..i], claims[i].project)
  {
  }

  /** The claims in place before the newcomer fit one after the other. */
  lemma {:induction false} OthersFit(cfg: Config, rest: seq<Claim>, b: Block, i: nat, limit: nat)
    requires Validated(cfg) && i < |rest| && Reserved(cfg, rest, b.key) < U64
    requires Reserved(cfg, Filter(rest, LocalTo(cfg, b)), b.key) <= limit
    ensures |LocalFirst(cfg, rest, b)| == |rest|
    ensures FitsTight(cfg, LocalFirst(cfg, rest, b)[..i], LocalFirst(cfg, rest, b)[i], b, limit)
  {
    var order, own := LocalFirst(cfg, rest, b), Filter(rest, LocalTo(cfg, b));
    FilterLengths(rest, LocalTo(cfg, b), Elsewhere(cfg, b));
    if i < |own| {
      assert order[..i] == own[..i];
      ReservedPrefix(cfg, own, i, b.key);
      OwnAtMostAll(cfg, rest, b);
    } else {
      FilterMembers(rest, Elsewhere(cfg, b), order[i]);
      assert order[i] in Filter(rest, Elsewhere(cfg, b));
    }
  }

  lemma {:induction false} OwnAtMostAll(cfg: Config, rest: seq<Claim>, b: Block)
    requires Validated(cfg)
    ensures 0 <= Reserved(cfg, Filter(rest, LocalTo(cfg, b)), b.key) <= Reserved(cfg, rest, b.key)
  {
    ReservedSplits(cfg, rest, b.key, LocalTo(cfg, b), Elsewhere(cfg, b));
    ReservedIsNatural(cfg, Filter(rest, LocalTo(cfg, b)), b.key);
    ReservedIsNatural(cfg, Filter(rest, Elsewhere(cfg, b)), b.key);
  }

  lemma {:induction false} FilterLengths(claims: seq<Claim>, p: Claim -> bool, q: Claim -> bool)
    requires forall c :: q(c) <==> !p(c)
    ensures |Filter(claims, p)| + |Filter(claims, q)| == |claims|
  {
    if claims != [] {
      FilterLengths(claims[..|claims| - 1], p, q);
    }
  }

  /** So does the newcomer, because only the wrapped sum is compared. */
  lemma {:induction false} NewcomerFits(cfg: Config, rest: seq<Claim>, c: Claim, b: Block, limit: nat)
    requires Wrap(Reserved(cfg, rest, b.key) + NeedOf(cfg, c, b.key)) <= limit
    ensures FitsTight(cfg, LocalFirst(cfg, rest, b), c, b, limit)
  {
    LocalFirstSums(cfg, rest, b);
  }

  /** The block then holds more than its limit. */
  lemma {:induction false} NewcomerOvercommits(cfg: Config, rest: seq<Claim>, c: Claim, b: Block, own: int, sum: int)
    requires Validated(cfg) && LocalTo(cfg, b)(c)
    requires own == Reserved(cfg, Filter(rest, LocalTo(cfg, b)), b.key)
    requires Reserved(cfg, rest, b.key) < U64 <= sum == Reserved(cfg, rest, b.key) + NeedOf(cfg, c, b.key)
    ensures Held(cfg, LocalFirst(cfg, rest, b) + [c], b) > TightLimit(own, sum)
  {
    HeldWithNewcomer(cfg, rest, c, b);
    OwnAtMostAll(cfg, rest, b);
    Exceeds(own, Reserved(cfg, rest, b.key), NeedOf(cfg, c, b.key), sum);
  }

  lemma {:induction false} Exceeds(own: int, rest: int, need: int, sum: int)
    requires 0 <= own <= rest < U64 <= sum == rest + need
    ensures own + need > TightLimit(own, sum)
  {
    WrapBelow(sum);
  }

  lemma {:induction false} HeldWithNewcomer(cfg: Config, rest: seq<Claim>, c: Claim, b: Block)
    requires LocalTo(cfg, b)(c)
    ensures Held(cfg, LocalFirst(cfg, rest, b) + [c], b) ==
            Reserved(cfg, Filter(rest, LocalTo(cfg, b)), b.key) + NeedOf(cfg, c, b.key)
  {
    var own, far := Filter(rest, LocalTo(cfg, b)), Filter(rest, Elsewhere(cfg, b));
    HeldConcat(cfg, own + far, [c], b);
    HeldConcat(cfg, own, far, b);
    HeldLocally(cfg, rest, b);
  }

  lemma {:induction false} WrapBelow(x: int)
    requires x >= U64
    ensures Wrap(x) <= x - U64
  {
    WrapShift(x - U64, 1);
    var y := x - U64;
    assert y == (y / U64) * U64 + y % U64 && y / U64 >= 0;
  }

  /** Claims that fit in turn are feasible in turn. */
  lemma {:induction false} OrderAdmitted(cfg: Config, all: seq<Claim>, b: Block, limit: nat, i: nat)
    requires Consistent(cfg, all) && Exclusive(all) && i < |all| && FitsTight(cfg, all[..i], all[i], b, limit)
    ensures Feasible(cfg, all[..i], CapacityOf(Limits(cfg, b, limit), map[]), all[i].profile)
  {
    NotYetOccupied(all, i);
    Admitted(cfg, all[..i], all[i], b, limit, CapacityOf(Limits(cfg, b, limit), map[]));
  }

  lemma {:induction false} AllFit(cfg: Config, rest: seq<Claim>, c: Claim, b: Block, limit: nat, i: nat)
    requires Validated(cfg) && Reserved(cfg, rest, b.key) < U64 && i <= |rest| == |LocalFirst(cfg, rest, b)|
    requires Reserved(cfg, Filter(rest, LocalTo(cfg, b)), b.key) <= limit
    requires Wrap(Reserved(cfg, rest, b.key) + NeedOf(cfg, c, b.key)) <= limit
    ensures var all := LocalFirst(cfg, rest, b) + [c]; FitsTight(cfg, all[..i], all[i], b, limit)
  {
    var order := LocalFirst(cfg, rest, b);
    if i < |rest| {
      OthersFit(cfg, rest, b, i, limit);
      assert (order + [c])[..i] == order[..i];
    } else {
      NewcomerFits(cfg, rest, c, b, limit);
      assert (order + [c])[..i] == order;
    }
  }

  lemma {:induction false} StillExclusive(cfg: Config, rest: seq<Claim>, c: Claim, b: Block)
    requires Consistent(cfg, rest) && Exclusive(rest) && Selectable(cfg, c) && !Occupied(rest, c.project)
    ensures Consistent(cfg, LocalFirst(cfg, rest, b) + [c]) && Exclusive(LocalFirst(cfg, rest, b) + [c])
  {
    var order := LocalFirst(cfg, rest, b);
    LocalFirstKeeps(cfg, rest, b);
    forall i | 0 <= i < |order| ensures order[i].project != c.project {
      LocalFirstMembers(cfg, rest, b, order[i]);
    }
    ExclusiveConcat(order, [c]);
  }

  /** One claim too many: a run in which the wrapped sum admits it into a block without room. */
  lemma {:induction false} OneTooMany(cfg: Config, rest: seq<Claim>, c: Claim, b: Block)
      returns (s: System, steps: seq<Step>)
    requires TooMany(cfg, rest, c, b)
    ensures s.claims == [] && Run(cfg, s, steps).Reached?
    ensures !WithinLimits(cfg, Run(cfg, s, steps).state)
  {
    var all := LocalFirst(cfg, rest, b) + [c];
    var own := Reserved(cfg, Filter(rest, LocalTo(cfg, b)), b.key);
    var sum := Reserved(cfg, rest, b.key) + NeedOf(cfg, c, b.key);
    var limit := TightLimit(own, sum);
    LocalFirstSums(cfg, rest, b);
    StillExclusive(cfg, rest, c, b);
    s := System([], Limits(cfg, b, limit), map[]);
    forall i | 0 <= i < |all| ensures Feasible(cfg, all[..i], CapacityOf(s.limits, s.usage), all[i].profile) {
      AllFit(cfg, rest, c, b, limit, i);
      OrderAdmitted(cfg, all, b, limit, i);
    }
    RunSelects(cfg, s, all);
    steps := Steps(cfg, all);
    NewcomerOvercommits(cfg, rest, c, b, own, sum);
    assert LimitOf(Run(cfg, s, steps).state, b) == limit;
  }

  /** Some prefix of too large a choice is the last that still fits. */
  lemma {:induction false} Crossing(cfg: Config, claims: seq<Claim>, key: Key) returns (n: nat)
    requires Reserved(cfg, claims, key) >= U64
    ensures n < |claims| && Reserved(cfg, claims[..n], key) < U64 <= Reserved(cfg, claims[..n + 1], key)
  {
    n := |claims| - 1;
    assert claims[..n + 1] == claims;
    if Reserved(cfg, claims[..n], key) >= U64 {
      var k := Crossing(cfg, claims[..n], key);
      assert claims[..n][..k] == claims[..k] && claims[..n][..k + 1] == claims[..k + 1];
      n := k;
    }
  }

  ghost predicate Safe(cfg: Config, s: System, steps: seq<Step>) {
    s.claims == [] && Run(cfg, s, steps).Reached? ==> Inv(cfg, Run(cfg, s, steps).state)
  }

  /**
   The exact condition: no run overcommits if and only if no choice of profiles with different
   projects needs 2^64 GPUs or more under one platform and fabric.
   */
  lemma {:induction false} OvercommitCondition(cfg: Config)
    requires Validated(cfg)
    ensures (forall s, steps :: Safe(cfg, s, steps)) <==> Bounded(cfg)
  {
    if Bounded(cfg) {
      forall s, steps ensures Safe(cfg, s, steps) {
        if s.claims == [] && Run(cfg, s, steps).Reached? {
          NoOvercommit(cfg, s, steps);
        }
      }
    } else {
      var claims: seq<Claim>, key: Key :| Consistent(cfg, claims) && Exclusive(claims) &&
        Reserved(cfg, claims, key) >= U64;
      var n := Crossing(cfg, claims, key);
      var c := claims[n];
      NotYetOccupied(claims, n);
      assert claims[..n + 1][..n] == claims[..n];
      var s, steps := OneTooMany(cfg, claims[..n], c, Block(cfg[c.profile].tenant, cfg[c.profile].region, key));
      assert !Safe(cfg, s, steps);
    }
  }

  const HUGE_SET := NodeSet("workers", "gpu-platform", "fabric", "2gpu-x", 0x4000_0000_0000_0000, false)
  const HUGE_BLOCK := Block("tenant", "region", Key("gpu-platform", "fabric"))

  function HugeProfile(project: string): Profile {
    Profile(project, "tenant", "region", ["tag"], [HUGE_SET])
  }

  const HUGE_CONFIG: Config := map["A" := HugeProfile("p"), "B" := HugeProfile("q")]

  lemma {:induction false} HugeNeed()
    ensures Need([HUGE_SET], HUGE_BLOCK.key) == 0x8000_0000_0000_0000
  {
    assert HUGE_SET.preset[1..] == "gpu-x" && HUGE_SET.preset[..1] == "2";
    assert LeadingDigits("gpu-x") == 0;
    assert LeadingDigits("2gpu-x") == 1;
    assert GpuCount("2gpu-x") == 2;
    assert [HUGE_SET][..0] == [];
  }

  /** Two validated profiles of 2^63 GPUs each overcommit the block they share. */
  lemma {:induction false} WrappedCountersOvercommit() returns (s: System, steps: seq<Step>)
    ensures Validated(HUGE_CONFIG) && s.claims == [] && Run(HUGE_CONFIG, s, steps).Reached?
    ensures !WithinLimits(HUGE_CONFIG, Run(HUGE_CONFIG, s, steps).state)
  {
    var rest := [Claim(1, "A", "p")];
    HugeNeed();
    assert rest[..0] == [];
    assert Reserved(HUGE_CONFIG, rest, HUGE_BLOCK.key) == 0x8000_0000_0000_0000;
    s, steps := OneTooMany(HUGE_CONFIG, rest, Claim(2, "B", "q"), HUGE_BLOCK);
  }
}
