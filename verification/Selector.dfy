/**
 The e2e profile selector: picks a test profile whose project nobody holds and whose GPU demand
 fits its capacity blocks, given the claims other runs have published. Counters are unsigned
 64-bit and wrap.
 */
module Selector {
  import opened Decimal
  import opened Strconv

  const U64 := 0x1_0000_0000_0000_0000

  function Wrap(x: int): (r: nat)
    ensures r < U64 && (0 <= x < U64 ==> r == x)
  {
    x % U64
  }

  datatype NodeSet = NodeSet(name: string, platform: string, fabric: string, preset: string, size: int,
    preemptible: bool)

  datatype Profile = Profile(project: string, tenant: string, region: string, labels: seq<string>,
    nodeSets: seq<NodeSet>)

  type Config = map<string, Profile>

  /** What a reservation is keyed by: platform and fabric, not tenant or region. */
  datatype Key = Key(platform: string, fabric: string)

  /** A capacity block group. */
  datatype Block = Block(tenant: string, region: string, key: Key)

  function LeadingDigits(s: string): (n: nat)
    ensures n <= |s|
    ensures forall c :: c in s[..n] ==> IsDigit(c)
  {
    if s == "" || !IsDigit(s[0]) then 0
    else
      assert forall n: nat :: n <= |s| - 1 ==> s[..n + 1] == [s[0]] + s[1..][..n];
      1 + LeadingDigits(s[1..])
  }

  /** The number in front of "gpu-" in a preset name, or 0. */
  function GpuCount(preset: string): (g: nat)
    ensures g < INT64_LIMIT
  {
    var n := LeadingDigits(preset);
    if n == 0 || !("gpu-" <= preset[n..]) then 0
    else
      var parsed := ParseInt(preset[..n], INT64_LIMIT);
      if parsed.None? then 0 else parsed.value
  }

  lemma {:induction false} LeadingDigitsOf(digits: string, rest: string)
    requires (forall c :: c in digits ==> IsDigit(c)) && (rest == "" || !IsDigit(rest[0]))
    ensures LeadingDigits(digits + rest) == |digits|
  {
    if digits == "" {
      assert digits + rest == rest;
    } else {
      LeadingDigitsOf(digits[1..], rest);
      assert (digits + rest)[1..] == digits[1..] + rest;
    }
  }

  /** A number in front of "gpu-" is the count, if it fits. */
  lemma {:induction false} GpuCountReads(digits: string, rest: string)
    requires IsNumeral(digits)
    ensures GpuCount(digits + "gpu-" + rest) == if Value(digits) < INT64_LIMIT then Value(digits) else 0
  {
    var tail := "gpu-" + rest;
    LeadingDigitsOf(digits, tail);
    assert digits + "gpu-" + rest == digits + tail;
    assert (digits + tail)[..|digits|] == digits && (digits + tail)[|digits|..] == tail;
  }

  /** Any other text counts no GPUs. */
  lemma {:induction false} GpuCountNeedsForm(preset: string)
    requires GpuCount(preset) != 0
    ensures exists n :: 0 < n < |preset| && IsNumeral(preset[..n]) && "gpu-" <= preset[n..]
                        && GpuCount(preset) == Value(preset[..n])
  {
    var n := LeadingDigits(preset);
    assert IsNumeral(preset[..n]) && "gpu-" <= preset[n..];
  }

  /** Nodesets that draw from a capacity block. */
  predicate Counted(ns: NodeSet) {
    !ns.preemptible && GpuCount(ns.preset) != 0
  }

  function KeyOf(ns: NodeSet): Key {
    Key(ns.platform, ns.fabric)
  }

  /** The exact number of GPUs the nodesets need under a key. */
  function Need(nodeSets: seq<NodeSet>, key: Key): int {
    if nodeSets == [] then 0
    else
      var last := nodeSets[|nodeSets| - 1];
      Need(nodeSets[..|nodeSets| - 1], key) +
      if Counted(last) && KeyOf(last) == key then last.size * GpuCount(last.preset) else 0
  }

  predicate Draws(nodeSets: seq<NodeSet>, key: Key) {
    exists i :: 0 <= i < |nodeSets| && Counted(nodeSets[i]) && KeyOf(nodeSets[i]) == key
  }

  function At(m: map<Key, nat>, key: Key): nat {
    if key in m then m[key] else 0
  }

  lemma {:induction false} NeedStep(nodeSets: seq<NodeSet>, i: nat, key: Key)
    requires i < |nodeSets|
    ensures Need(nodeSets[..i + 1], key) == Need(nodeSets[..i], key) +
      if Counted(nodeSets[i]) && KeyOf(nodeSets[i]) == key then nodeSets[i].size * GpuCount(nodeSets[i].preset) else 0
  {
    assert nodeSets[..i + 1][..i] == nodeSets[..i];
  }

  lemma {:induction false} WrapAdds(a: int, b: int)
    ensures Wrap(Wrap(a) + b) == Wrap(a + b) && Wrap(a + Wrap(b)) == Wrap(a + b)
  {
    var qa, qb := a / U64, b / U64;
    assert a == qa * U64 + Wrap(a) && b == qb * U64 + Wrap(b);
    WrapShift(Wrap(a) + b, qa);
    WrapShift(a + Wrap(b), qb);
  }

  lemma {:induction false} WrapSums(a: int, b: int)
    ensures Wrap(Wrap(a) + Wrap(b)) == Wrap(a + b)
  {
    WrapAdds(a, Wrap(b));
    WrapAdds(a, b);
  }

  lemma {:induction false} WrapShift(a: int, k: int)
    ensures Wrap(a + k * U64) == Wrap(a)
  {
    var q, r := a / U64, a % U64;
    assert a + k * U64 == (q + k) * U64 + r;
    WrapUnique(a + k * U64, q + k, r);
  }

  lemma {:induction false} WrapUnique(x: int, q: int, r: int)
    requires x == q * U64 + r && 0 <= r < U64
    ensures x % U64 == r
  {
  }

  lemma {:induction false} WrapMultiplies(a: int, b: int)
    ensures Wrap(Wrap(a) * b) == Wrap(a * b)
  {
    var q := a / U64;
    assert a == q * U64 + Wrap(a);
    assert a * b == Wrap(a) * b + (q * b) * U64 by {
      calc {
        a * b;
        (q * U64 + Wrap(a)) * b;
        (q * U64) * b + Wrap(a) * b;
        Wrap(a) * b + (q * b) * U64;
      }
    }
    WrapShift(Wrap(a) * b, q * b);
  }

  /** The map holds exactly the drawn keys, each with its need modulo the counter width. */
  ghost predicate Demanded(demands: map<Key, nat>, sets: seq<NodeSet>) {
    && (forall key :: key in demands <==> Draws(sets, key))
    && (forall key :: At(demands, key) == Wrap(Need(sets, key)))
  }

  /** The map after one more nodeset. */
  function Added(demands: map<Key, nat>, ns: NodeSet): map<Key, nat> {
    if Counted(ns) then
      demands[KeyOf(ns) := Wrap(At(demands, KeyOf(ns)) + Wrap(Wrap(ns.size) * GpuCount(ns.preset)))]
    else demands
  }

  function AddedAll(sets: seq<NodeSet>): map<Key, nat> {
    if sets == [] then map[] else Added(AddedAll(sets[..|sets| - 1]), sets[|sets| - 1])
  }

  /** GPUs needed per key; nodesets without GPUs and preemptible ones draw from no block. */
  method GpuDemands(profile: Profile) returns (demands: map<Key, nat>)
    ensures Demanded(demands, profile.nodeSets)
  {
    demands := map[];
    var sets := profile.nodeSets;
    for i := 0 to |sets|
      invariant demands == AddedAll(sets[..i])
    {
      assert sets[..i + 1][..i] == sets[..i];
      if sets[i].preemptible {
        continue;
      }
      var gpus := GpuCount(sets[i].preset);
      if gpus == 0 {
        continue;
      }
      var key := KeyOf(sets[i]);
      demands := demands[key := Wrap(At(demands, key) + Wrap(Wrap(sets[i].size) * gpus))];
    }
    assert sets[..|sets|] == sets;
    AllDemanded(sets);
  }

  lemma {:induction false} AllDemanded(sets: seq<NodeSet>)
    ensures Demanded(AddedAll(sets), sets)
  {
    if sets != [] {
      var n := |sets| - 1;
      AllDemanded(sets[..n]);
      DemandStep(AddedAll(sets[..n]), sets, n);
      assert sets[..n + 1] == sets;
    }
  }

  lemma {:induction false} DemandStep(demands: map<Key, nat>, sets: seq<NodeSet>, i: nat)
    requires i < |sets| && Demanded(demands, sets[..i])
    ensures Demanded(Added(demands, sets[i]), sets[..i + 1])
  {
    var after := Added(demands, sets[i]);
    forall key ensures key in after <==> Draws(sets[..i + 1], key) {
      DrawnStep(demands, sets, i, key);
    }
    forall key ensures At(after, key) == Wrap(Need(sets[..i + 1], key)) {
      NeededStep(demands, sets, i, key);
    }
  }

  lemma {:induction false} DrawnStep(demands: map<Key, nat>, sets: seq<NodeSet>, i: nat, key: Key)
    requires i < |sets| && (key in demands <==> Draws(sets[..i], key))
    ensures key in Added(demands, sets[i]) <==> Draws(sets[..i + 1], key)
  {
    DrawsStep(sets, i, key);
  }

  lemma {:induction false} NeededStep(demands: map<Key, nat>, sets: seq<NodeSet>, i: nat, key: Key)
    requires i < |sets| && At(demands, key) == Wrap(Need(sets[..i], key))
    ensures At(Added(demands, sets[i]), key) == Wrap(Need(sets[..i + 1], key))
  {
    NeedStep(sets, i, key);
    DemandAt(demands, sets[i], Need(sets[..i], key), key);
  }

  lemma {:induction false} DemandAt(demands: map<Key, nat>, ns: NodeSet, need: int, key: Key)
    requires At(demands, key) == Wrap(need)
    ensures At(Added(demands, ns), key) ==
      Wrap(need + if Counted(ns) && KeyOf(ns) == key then ns.size * GpuCount(ns.preset) else 0)
  {
    var gpus := GpuCount(ns.preset);
    WrapMultiplies(ns.size, gpus);
    WrapAdds(Wrap(need), ns.size * gpus);
    WrapAdds(need, ns.size * gpus);
  }

  lemma {:induction false} DrawsStep(sets: seq<NodeSet>, i: nat, key: Key)
    requires i < |sets|
    ensures Draws(sets[..i + 1], key) <==> Draws(sets[..i], key) || (Counted(sets[i]) && KeyOf(sets[i]) == key)
  {
    if Draws(sets[..i + 1], key) {
      var j :| 0 <= j < i + 1 && Counted(sets[..i + 1][j]) && KeyOf(sets[..i + 1][j]) == key;
      assert j < i ==> sets[..i][j] == sets[j];
    }
    if Draws(sets[..i], key) {
      var j :| 0 <= j < i && Counted(sets[..i][j]) && KeyOf(sets[..i][j]) == key;
      assert sets[..i + 1][j] == sets[j];
    }
    if Counted(sets[i]) && KeyOf(sets[i]) == key {
      assert sets[..i + 1][i] == sets[i];
    }
  }

  // ---------------------------------------------------------------------------
  // Claims and capacity
  // ---------------------------------------------------------------------------

  /** One run's published stake: the profile it took and that profile's project. */
  datatype Claim = Claim(run: int, profile: string, project: string)

  datatype Lookup = Broken | NotFound | Found(limit: nat, usage: nat)

  type Capacity = Block -> Lookup

  function Available(limit: nat, usage: nat): nat {
    if limit > usage then limit - usage else 0
  }

  /** The exact demand of the claimed profiles under a key; unknown profiles count nothing. */
  function Reserved(cfg: Config, claims: seq<Claim>, key: Key): int {
    if claims == [] then 0
    else
      var last := claims[|claims| - 1];
      Reserved(cfg, claims[..|claims| - 1], key) +
      if last.profile in cfg then Need(cfg[last.profile].nodeSets, key) else 0
  }

  /** The need under a key, what others reserved and what is in use fit the limit of the profile's block. */
  predicate KeyFits(cfg: Config, claims: seq<Claim>, capacity: Capacity, p: Profile, key: Key) {
    var block := capacity(Block(p.tenant, p.region, key));
    var w := Wrap(Need(p.nodeSets, key) + Reserved(cfg, claims, key));
    block.Found? && (w == 0 || w + block.usage <= block.limit)
  }

  ghost predicate Fits(cfg: Config, claims: seq<Claim>, capacity: Capacity, p: Profile) {
    forall key :: Draws(p.nodeSets, key) ==> KeyFits(cfg, claims, capacity, p, key)
  }

  predicate Occupied(claims: seq<Claim>, project: string) {
    exists i :: 0 <= i < |claims| && claims[i].project == project
  }

  /** Nobody holds the profile's project and its demand fits. */
  ghost predicate Feasible(cfg: Config, claims: seq<Claim>, capacity: Capacity, name: string) {
    name in cfg && !Occupied(claims, cfg[name].project) && Fits(cfg, claims, capacity, cfg[name])
  }

  /** The reservation map holds every claimed need modulo the counter width. */
  ghost predicate Sums(reserved: map<Key, nat>, cfg: Config, claims: seq<Claim>) {
    forall key :: At(reserved, key) == Wrap(Reserved(cfg, claims, key))
  }

  method ReservedDemand(cfg: Config, claims: seq<Claim>) returns (reserved: map<Key, nat>)
    ensures Sums(reserved, cfg, claims)
  {
    reserved := map[];
    for i := 0 to |claims|
      invariant Sums(reserved, cfg, claims[..i])
    {
      assert claims[..i + 1][..i] == claims[..i];
      if claims[i].profile !in cfg {
        continue;
      }
      var profile := cfg[claims[i].profile];
      var demands := GpuDemands(profile);
      var sum := AddMaps(reserved, demands);
      forall key ensures At(sum, key) == Wrap(Reserved(cfg, claims[..i + 1], key)) {
        assert At(sum, key) == Wrap(At(reserved, key) + At(demands, key));
        WrapSums(Reserved(cfg, claims[..i], key), Need(profile.nodeSets, key));
      }
      reserved := sum;
    }
    assert claims[..|claims|] == claims;
  }

  /** Adds one profile's demands to the reservations, key by key. */
  method AddMaps(reserved: map<Key, nat>, demands: map<Key, nat>) returns (sum: map<Key, nat>)
    requires forall key :: At(reserved, key) < U64
    ensures forall key :: At(sum, key) == Wrap(At(reserved, key) + At(demands, key))
  {
    sum := reserved;
    var left := demands.Keys;
    while left != {}
      invariant left <= demands.Keys
      invariant forall key :: key in left ==> At(sum, key) == At(reserved, key)
      invariant forall key :: key !in left ==> At(sum, key) == Wrap(At(reserved, key) + At(demands, key))
      decreases left
    {
      var key :| key in left;
      sum := sum[key := Wrap(At(sum, key) + demands[key])];
      left := left - {key};
    }
  }

  datatype Answer = Failed | Answer(fits: bool)

  /** Whether the profile's demand fits; the keys are visited in any order. */
  method HasCapacity(cfg: Config, claims: seq<Claim>, capacity: Capacity, p: Profile, reserved: map<Key, nat>)
    returns (r: Answer)
    requires Sums(reserved, cfg, claims)
    ensures r == Answer(true) <==> Fits(cfg, claims, capacity, p)
    ensures r == Failed ==> BrokenFor(capacity, p)
  {
    var demands := GpuDemands(p);
    var left := demands.Keys;
    while left != {}
      invariant left <= demands.Keys
      invariant forall key :: Draws(p.nodeSets, key) && key !in left ==> KeyFits(cfg, claims, capacity, p, key)
      decreases left
    {
      var key :| key in left;
      assert demands[key] == At(demands, key);
      r := KeyHasCapacity(cfg, claims, capacity, p, key, demands[key], At(reserved, key));
      if r != Answer(true) {
        assert Draws(p.nodeSets, key);
        return;
      }
      left := left - {key};
    }
    return Answer(true);
  }

  /** The test for one key. */
  method KeyHasCapacity(ghost cfg: Config, ghost claims: seq<Claim>, capacity: Capacity, p: Profile, key: Key,
      demand: nat, reserved: nat)
    returns (r: Answer)
    requires demand == Wrap(Need(p.nodeSets, key)) && reserved == Wrap(Reserved(cfg, claims, key))
    ensures r == Answer(true) <==> KeyFits(cfg, claims, capacity, p, key)
    ensures r == Failed <==> capacity(Block(p.tenant, p.region, key)).Broken?
  {
    var block := capacity(Block(p.tenant, p.region, key));
    if block.NotFound? {
      return Answer(false);
    }
    if block.Broken? {
      return Failed;
    }
    WrapSums(Need(p.nodeSets, key), Reserved(cfg, claims, key));
    return Answer(Available(block.limit, block.usage) >= Wrap(demand + reserved));
  }

  datatype Filtered = FilterFailed | Names(names: seq<string>)

  /** The lookup of a block the profile draws from failed. */
  ghost predicate BrokenFor(capacity: Capacity, p: Profile) {
    exists key :: Draws(p.nodeSets, key) && capacity(Block(p.tenant, p.region, key)).Broken?
  }

  /** Some candidate whose project is free draws from a block whose lookup failed. */
  ghost predicate SomeBroken(cfg: Config, candidates: seq<string>, claims: seq<Claim>, capacity: Capacity) {
    exists i :: 0 <= i < |candidates| && candidates[i] in cfg && !Occupied(claims, cfg[candidates[i]].project)
                && BrokenFor(capacity, cfg[candidates[i]])
  }

  /** Exactly the feasible candidates, in order. */
  ghost function OnlyFeasible(cfg: Config, claims: seq<Claim>, capacity: Capacity,
      candidates: seq<string>): seq<string> {
    if candidates == [] then []
    else
      var front, last := OnlyFeasible(cfg, claims, capacity, candidates[..|candidates| - 1]),
        candidates[|candidates| - 1];
      if Feasible(cfg, claims, capacity, last) then front + [last] else front
  }

  method FilterFeasible(cfg: Config, candidates: seq<string>, claims: seq<Claim>, capacity: Capacity)
      returns (r: Filtered)
    requires forall i :: 0 <= i < |candidates| ==> candidates[i] in cfg
    ensures r.Names? ==> r.names == OnlyFeasible(cfg, claims, capacity, candidates)
    ensures r.FilterFailed? ==> SomeBroken(cfg, candidates, claims, capacity)
  {
    var occupied: map<string, int> := map[];
    for i := 0 to |claims|
      invariant forall project :: project in occupied <==> Occupied(claims[..i], project)
    {
      forall project ensures Occupied(claims[..i + 1], project) <==>
        Occupied(claims[..i], project) || claims[i].project == project {
        OccupiedStep(claims, i, project);
      }
      occupied := occupied[claims[i].project := claims[i].run];
    }
    assert claims[..|claims|] == claims;
    var reserved := ReservedDemand(cfg, claims);
    var feasible: seq<string> := [];
    for i := 0 to |candidates|
      invariant feasible == OnlyFeasible(cfg, claims, capacity, candidates[..i])
    {
      assert candidates[..i + 1][..i] == candidates[..i];
      var profile := cfg[candidates[i]];
      if profile.project in occupied {
        continue;
      }
      var answer := HasCapacity(cfg, claims, capacity, profile, reserved);
      if answer.Failed? {
        return FilterFailed;
      }
      if answer.fits {
        feasible := feasible + [candidates[i]];
      }
    }
    assert candidates[..|candidates|] == candidates;
    return Names(feasible);
  }

  lemma {:induction false} OccupiedStep(claims: seq<Claim>, i: nat, project: string)
    requires i < |claims|
    ensures Occupied(claims[..i + 1], project) <==> Occupied(claims[..i], project) || claims[i].project == project
  {
    if Occupied(claims[..i + 1], project) {
      var j :| 0 <= j < i + 1 && claims[..i + 1][j].project == project;
      assert j < i ==> claims[..i][j].project == project;
    }
    if Occupied(claims[..i], project) {
      var j :| 0 <= j < i && claims[..i][j].project == project;
      assert claims[..i + 1][j].project == project;
    }
    assert claims[..i + 1][i] == claims[i];
  }

  lemma {:induction false} OnlyFeasibleIsFeasible(cfg: Config, claims: seq<Claim>, capacity: Capacity,
      candidates: seq<string>)
    ensures forall n :: n in OnlyFeasible(cfg, claims, capacity, candidates) <==>
      n in candidates && Feasible(cfg, claims, capacity, n)
  {
    if candidates != [] {
      OnlyFeasibleIsFeasible(cfg, claims, capacity, candidates[..|candidates| - 1]);
      assert candidates == candidates[..|candidates| - 1] + [candidates[|candidates| - 1]];
    }
  }

  // ---------------------------------------------------------------------------
  // The timed retry loop
  // ---------------------------------------------------------------------------

  datatype Listing = ListFailed | Claims(claims: seq<Claim>)

  /** What one attempt meets: the claims and the capacity it sees, the clock at its deadline test. */
  datatype Attempt = Attempt(claims: Listing, capacity: Capacity, now: int, pick: nat, cancelled: bool)

  datatype Selection = NoCandidates | Error | TimedOut | Cancelled | Selected(name: string)

  /** Sleeping for the poll interval takes at least that long. */
  ghost predicate Paced(attempts: nat -> Attempt, start: int, poll: int) {
    attempts(1).now >= start && forall k: nat :: k >= 1 ==> PacedAfter(attempts, k, poll)
  }

  ghost predicate PacedAfter(attempts: nat -> Attempt, k: nat, poll: int) {
    attempts(k + 1).now >= attempts(k).now + poll
  }

  predicate Carries(cfg: Config, tag: string, candidates: seq<string>) {
    && (forall i :: 0 <= i < |candidates| ==> candidates[i] in cfg && tag in cfg[candidates[i]].labels)
    && (forall name :: name in cfg && tag in cfg[name].labels ==> name in candidates)
  }

  /** The attempt saw the claims and no candidate was feasible. */
  ghost predicate Vain(cfg: Config, candidates: seq<string>, a: Attempt) {
    a.claims.Claims? && forall n :: n in candidates ==> !Feasible(cfg, a.claims.claims, a.capacity, n)
  }

  /** The attempt could not see the claims, or a capacity it needed. */
  ghost predicate Broken(cfg: Config, candidates: seq<string>, a: Attempt) {
    a.claims.ListFailed? || SomeBroken(cfg, candidates, a.claims.claims, a.capacity)
  }

  /** With the label's candidates: no profile with the label was feasible. */
  lemma {:induction false} VainForLabel(cfg: Config, tag: string, candidates: seq<string>, a: Attempt)
    requires Carries(cfg, tag, candidates) && Vain(cfg, candidates, a)
    ensures forall name :: name in cfg && tag in cfg[name].labels ==>
      !Feasible(cfg, a.claims.claims, a.capacity, name)
  {
  }

  datatype Try = TryFailed | Nothing | Hit(name: string)

  /** One attempt: the feasible candidates, and one of them picked. */
  method TrySelect(cfg: Config, candidates: seq<string>, a: Attempt) returns (r: Try)
    requires forall i :: 0 <= i < |candidates| ==> candidates[i] in cfg
    ensures r.Hit? ==> r.name in candidates && a.claims.Claims? && Feasible(cfg, a.claims.claims, a.capacity, r.name)
    ensures r.TryFailed? ==> Broken(cfg, candidates, a)
    ensures r.Nothing? ==> Vain(cfg, candidates, a)
  {
    if a.claims.ListFailed? {
      return TryFailed;
    }
    var filtered := FilterFeasible(cfg, candidates, a.claims.claims, a.capacity);
    if filtered.FilterFailed? {
      return TryFailed;
    }
    OnlyFeasibleIsFeasible(cfg, a.claims.claims, a.capacity, candidates);
    if |filtered.names| == 0 {
      return Nothing;
    }
    var name := filtered.names[a.pick % |filtered.names|];
    assert name in filtered.names;
    return Hit(name);
  }

  /** Time spent sleeping before an attempt, at least. */
  function Slept(count: nat, poll: int): int {
    if count <= 1 then 0 else Slept(count - 1, poll) + poll
  }

  /**
   Waits for a feasible profile with the label. A profile that is returned was feasible in the
   attempt that returned it; another attempt is made only while the time surely slept is below
   the timeout.
   */
  method SelectProfile(cfg: Config, tag: string, candidates: seq<string>, start: int, timeout: int, poll: int,
      attempts: nat -> Attempt)
    returns (r: Selection, count: nat)
    requires poll > 0 && Carries(cfg, tag, candidates) && Paced(attempts, start, poll)
    ensures r == NoCandidates <==> candidates == []
    ensures r == NoCandidates <==> forall name :: name in cfg ==> tag !in cfg[name].labels
    ensures r.Selected? ==>
      && r.name in cfg && tag in cfg[r.name].labels && attempts(count).claims.Claims?
      && Feasible(cfg, attempts(count).claims.claims, attempts(count).capacity, r.name)
    ensures count <= 1 || Slept(count, poll) < timeout
    ensures forall k :: 1 <= k < count ==> Vain(cfg, candidates, attempts(k))
    ensures r == TimedOut || r == Cancelled ==> Vain(cfg, candidates, attempts(count))
    ensures r == TimedOut ==> !(attempts(count).now + poll < start + timeout)
    ensures r == Cancelled ==> attempts(count).cancelled
    ensures r == Error ==> Broken(cfg, candidates, attempts(count))
  {
    if candidates == [] {
      return NoCandidates, 0;
    }
    assert candidates[0] in cfg && tag in cfg[candidates[0]].labels;
    var deadline := start + timeout;
    count := 1;
    while true
      invariant count >= 1 && attempts(count).now >= start + Slept(count, poll)
      invariant count == 1 || Slept(count, poll) < timeout
      invariant forall k :: 1 <= k < count ==> Vain(cfg, candidates, attempts(k))
      decreases timeout - Slept(count, poll)
    {
      var a := attempts(count);
      var t := TrySelect(cfg, candidates, a);
      if t.TryFailed? {
        return Error, count;
      }
      if t.Hit? {
        return Selected(t.name), count;
      }
      if !(a.now + poll < deadline) {
        return TimedOut, count;
      }
      if a.cancelled {
        return Cancelled, count;
      }
      assert PacedAfter(attempts, count, poll);
      count := count + 1;
    }
  }

  /** The bound in closed form: at most ceil(timeout / poll) attempts. */
  lemma {:induction false} AttemptBound(count: nat, timeout: int, poll: int)
    requires poll > 0 && timeout > 0 && (count <= 1 || Slept(count, poll) < timeout)
    ensures count <= (timeout + poll - 1) / poll
  {
    SleptIs(count, poll);
    var q := (timeout + poll - 1) / poll;
    MulMonotone(q, count - 1, poll);
    assert timeout + poll - 1 < q * poll + poll;
  }

  lemma {:induction false} SleptIs(count: nat, poll: int)
    ensures count >= 1 ==> Slept(count, poll) == (count - 1) * poll
  {
    if count > 1 {
      SleptIs(count - 1, poll);
    }
  }

  lemma {:induction false} MulMonotone(a: int, b: int, m: int)
    requires m > 0
    ensures a <= b ==> a * m <= b * m
  {
  }
}
