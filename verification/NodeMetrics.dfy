/**
 The exporter's node metrics: which states count as unavailable, draining or failed, and how
 one committed node list updates counters, histograms and start times. Times are integers
 (nanoseconds), so durations are exact.
 */
module NodeMetrics {
  import opened Strconv

  datatype Flag =
    | UNKNOWN | DOWN | IDLE | ALLOCATED | ERROR | MIXED | FUTURE
    | DRAIN | MAINTENANCE | RESERVED | FAIL | NOT_RESPONDING | INVALID
    | POWER_DOWN | POWER_DRAIN | POWERED_DOWN | POWERING_DOWN | POWERING_UP | POWER_UP
    | Other(text: string)

  /** A listed node; gpus is the count read from its resource string (module Tres), None when that does not parse. */
  datatype Node = Node(name: string, flags: set<Flag>, reason: string, gpus: Option<int>)

  /** The first base state present, in the order they are looked for. */
  function BaseState(n: Node): Option<Flag> {
    if UNKNOWN in n.flags then Some(UNKNOWN)
    else if DOWN in n.flags then Some(DOWN)
    else if IDLE in n.flags then Some(IDLE)
    else if ALLOCATED in n.flags then Some(ALLOCATED)
    else if ERROR in n.flags then Some(ERROR)
    else if MIXED in n.flags then Some(MIXED)
    else if FUTURE in n.flags then Some(FUTURE)
    else None
  }

  predicate PowerManaged(n: Node) {
    || POWER_DOWN in n.flags || POWER_DRAIN in n.flags || POWERED_DOWN in n.flags
    || POWERING_DOWN in n.flags || POWERING_UP in n.flags || POWER_UP in n.flags
  }

  predicate Unavailable(n: Node) {
    !PowerManaged(n) &&
    (DOWN in n.flags || NOT_RESPONDING in n.flags
     || (BaseState(n) == Some(IDLE) && DRAIN in n.flags)
     || BaseState(n) == Some(UNKNOWN) || BaseState(n) == Some(ERROR)
     || FAIL in n.flags || INVALID in n.flags)
  }

  predicate Draining(n: Node) {
    DRAIN in n.flags && (BaseState(n) == Some(ALLOCATED) || BaseState(n) == Some(MIXED))
  }

  predicate Failed(n: Node) {
    (DOWN in n.flags || DRAIN in n.flags) && !PowerManaged(n)
  }

  /** The labels of a counter series; the GPU counter has no reason. */
  datatype Series = Series(name: string, base: Option<Flag>, drain: bool, maintenance: bool, reserved: bool,
    reason: string)

  function SeriesOf(n: Node, reason: string): Series {
    Series(n.name, BaseState(n), DRAIN in n.flags, MAINTENANCE in n.flags, RESERVED in n.flags, reason)
  }

  // What the states mean, on flags -------------------------------------------------

  const POWER_FLAGS := {POWER_DOWN, POWER_DRAIN, POWERED_DOWN, POWERING_DOWN, POWERING_UP, POWER_UP}
  const FAULT_FLAGS := {DOWN, NOT_RESPONDING, FAIL, INVALID}
  const WORKING_FLAGS := {IDLE, ALLOCATED, MIXED, MAINTENANCE, RESERVED}

  /** The base states in the order in which they take precedence. */
  const BASE_STATES := [UNKNOWN, DOWN, IDLE, ALLOCATED, ERROR, MIXED, FUTURE]

  /** The i-th base state is present, and none before it is. */
  predicate Leads(n: Node, i: nat)
    requires i < |BASE_STATES|
  {
    BASE_STATES[i] in n.flags && forall j :: 0 <= j < i ==> BASE_STATES[j] !in n.flags
  }

  lemma {:induction false} BaseStateLeads(n: Node, i: nat)
    requires i < |BASE_STATES|
    ensures BaseState(n) == Some(BASE_STATES[i]) <==> Leads(n, i)
    ensures BaseState(n).None? <==> forall j :: 0 <= j < |BASE_STATES| ==> BASE_STATES[j] !in n.flags
  {
    assert BASE_STATES[0] == UNKNOWN && BASE_STATES[1] == DOWN && BASE_STATES[2] == IDLE && BASE_STATES[3] == ALLOCATED;
    assert BASE_STATES[4] == ERROR && BASE_STATES[5] == MIXED && BASE_STATES[6] == FUTURE;
  }

  lemma {:induction false} PowerFlags(n: Node)
    ensures PowerManaged(n) <==> n.flags * POWER_FLAGS != {}
  {
    if PowerManaged(n) {
      var f :| f in n.flags && f in POWER_FLAGS;
      assert f in n.flags * POWER_FLAGS;
    }
  }

  /** A node with a power flag is never unavailable or failed. */
  lemma {:induction false} PowerManagedIsExempt(n: Node)
    requires n.flags * POWER_FLAGS != {}
    ensures !Unavailable(n) && !Failed(n)
  {
    PowerFlags(n);
  }

  /** Without one, a fault flag makes it unavailable, and DOWN or DRAIN makes it failed. */
  lemma {:induction false} FaultsCount(n: Node)
    requires n.flags * POWER_FLAGS == {}
    ensures n.flags * FAULT_FLAGS != {} ==> Unavailable(n)
    ensures Failed(n) <==> n.flags * {DOWN, DRAIN} != {}
  {
    PowerFlags(n);
    if n.flags * FAULT_FLAGS != {} {
      var f :| f in n.flags * FAULT_FLAGS;
    }
    assert DOWN in n.flags ==> DOWN in n.flags * {DOWN, DRAIN};
    assert DRAIN in n.flags ==> DRAIN in n.flags * {DOWN, DRAIN};
  }

  /** Beyond fault flags: an unknown or erroneous base state, or an idle node being drained. */
  lemma {:induction false} UnavailableExactly(n: Node)
    requires n.flags * POWER_FLAGS == {} && n.flags * FAULT_FLAGS == {}
    ensures Unavailable(n) <==> Leads(n, 0) || Leads(n, 4) || (Leads(n, 2) && DRAIN in n.flags)
  {
    PowerFlags(n);
    forall f | f in FAULT_FLAGS ensures f !in n.flags {
      assert f in n.flags ==> f in n.flags * FAULT_FLAGS;
    }
    BaseStateLeads(n, 0);
    BaseStateLeads(n, 4);
    BaseStateLeads(n, 2);
  }

  /** Draining is an allocated or mixed node being drained. */
  lemma {:induction false} DrainingExactly(n: Node)
    ensures Draining(n) <==> DRAIN in n.flags && (Leads(n, 3) || Leads(n, 5))
  {
    BaseStateLeads(n, 3);
    BaseStateLeads(n, 5);
  }

  /** The plain cases: a drained idle node, a draining busy node, a working node. */
  lemma {:induction false} PlainCases(n: Node)
    ensures n.flags == {IDLE, DRAIN} ==> Unavailable(n) && !Draining(n)
    ensures n.flags == {ALLOCATED, DRAIN} || n.flags == {MIXED, DRAIN} ==> Draining(n) && !Unavailable(n)
    ensures n.flags <= WORKING_FLAGS ==> !Unavailable(n) && !Draining(n) && !Failed(n)
  {
  }

  /** A series carries the node's name, its leading base state and its three marks. */
  lemma {:induction false} SeriesTells(n: Node, reason: string, i: nat)
    requires i < |BASE_STATES|
    ensures
      var l := SeriesOf(n, reason);
      && l.name == n.name && l.reason == reason
      && (l.base == Some(BASE_STATES[i]) <==> Leads(n, i))
      && (l.drain <==> DRAIN in n.flags)
      && (l.maintenance <==> MAINTENANCE in n.flags)
      && (l.reserved <==> RESERVED in n.flags)
  {
    BaseStateLeads(n, i);
  }

  type Counters = map<Series, int>

  function Count(m: Counters, l: Series): int {
    if l in m then m[l] else 0
  }

  function Incremented(m: Counters, l: Series, amount: int): Counters {
    m[l := Count(m, l) + amount]
  }

  // ---------------------------------------------------------------------------
  // One committed list
  // ---------------------------------------------------------------------------

  /** The node of that name: the map built from a list keeps the last one. */
  function Named(nodes: seq<Node>, name: string): Option<Node> {
    if nodes == [] then None
    else if nodes[|nodes| - 1].name == name then Some(nodes[|nodes| - 1])
    else Named(nodes[..|nodes| - 1], name)
  }

  ghost predicate UniqueNames(nodes: seq<Node>) {
    forall i, j :: 0 <= i < j < |nodes| ==> nodes[i].name != nodes[j].name
  }

  /** Failure counter: nodes listed before and now that went from not failed to failed. */
  function FailsAfter(fails: Counters, before: seq<Node>, now: seq<Node>): Counters {
    if now == [] then fails
    else
      var front, n := FailsAfter(fails, before, now[..|now| - 1]), now[|now| - 1];
      var was := Named(before, n.name);
      if was.Some? && !Failed(was.value) && Failed(n) then Incremented(front, SeriesOf(n, n.reason), 1) else front
  }

  /** GPU counter: the interval times the GPU count, for nodes whose resources parse. */
  function GpuSecondsAfter(gpu: Counters, now: seq<Node>, interval: int): Counters {
    if now == [] then gpu
    else GpuAdded(GpuSecondsAfter(gpu, now[..|now| - 1], interval), now[|now| - 1], interval)
  }

  function GpuAdded(gpu: Counters, n: Node, interval: int): Counters {
    if n.gpus.None? then gpu else Incremented(gpu, SeriesOf(n, ""), interval * n.gpus.value)
  }

  /** Start times of running episodes, and the durations observed per node. */
  datatype Episodes = Episodes(starts: map<string, int>, observed: map<string, seq<int>>)

  function Observed(e: Episodes, name: string): seq<int> {
    if name in e.observed then e.observed[name] else []
  }

  /** One node's transition: a start is recorded, or an episode is closed and observed. */
  function Transition(e: Episodes, name: string, previous: bool, current: bool, at: int): Episodes {
    if current && !previous then e.(starts := e.starts[name := at])
    else if !current && previous && name in e.starts then
      Episodes(e.starts - {name}, e.observed[name := Observed(e, name) + [at - e.starts[name]]])
    else e
  }

  function EpisodesAfter(e: Episodes, before: seq<Node>, now: seq<Node>, at: int, checker: Node -> bool): Episodes {
    if now == [] then e
    else
      var front, n := EpisodesAfter(e, before, now[..|now| - 1], at, checker), now[|now| - 1];
      var was := Named(before, n.name);
      Transition(front, n.name, was.Some? && checker(was.value), checker(n), at)
  }

  // ---------------------------------------------------------------------------
  // What a list does to one node or one series
  // ---------------------------------------------------------------------------

  lemma {:induction false} NamedIsMember(nodes: seq<Node>, name: string)
    ensures Named(nodes, name).Some? ==> Named(nodes, name).value in nodes && Named(nodes, name).value.name == name
    ensures Named(nodes, name).None? ==> forall i :: 0 <= i < |nodes| ==> nodes[i].name != name
  {
    if nodes != [] {
      NamedIsMember(nodes[..|nodes| - 1], name);
    }
  }

  /** A failure edge: listed before as not failed, listed now as failed, under exactly these labels. */
  predicate FailureEdge(before: seq<Node>, now: seq<Node>, l: Series) {
    var was, n := Named(before, l.name), Named(now, l.name);
    was.Some? && n.Some? && !Failed(was.value) && Failed(n.value) && SeriesOf(n.value, n.value.reason) == l
  }

  lemma {:induction false} FailsCountEdges(fails: Counters, before: seq<Node>, now: seq<Node>, l: Series)
    requires UniqueNames(now)
    ensures Count(FailsAfter(fails, before, now), l) == Count(fails, l) + if FailureEdge(before, now, l) then 1 else 0
  {
    if now != [] {
      var front, n := now[..|now| - 1], now[|now| - 1];
      FailsCountEdges(fails, before, front, l);
      NamedIsMember(front, n.name);
    }
  }

  /** What a list adds to one GPU series. */
  function GpuShare(now: seq<Node>, interval: int, l: Series): int {
    var n := Named(now, l.name);
    if n.Some? && n.value.gpus.Some? && SeriesOf(n.value, "") == l then interval * n.value.gpus.value else 0
  }

  lemma {:induction false} GpuSecondsShare(gpu: Counters, now: seq<Node>, interval: int, l: Series)
    requires UniqueNames(now)
    ensures Count(GpuSecondsAfter(gpu, now, interval), l) == Count(gpu, l) + GpuShare(now, interval, l)
  {
    if now != [] {
      var front, n := now[..|now| - 1], now[|now| - 1];
      GpuSecondsShare(gpu, front, interval, l);
      NamedIsMember(front, n.name);
    }
  }

  /** A counter accepts no negative increment. */
  predicate NodeAddable(n: Node, interval: int) {
    n.gpus.Some? ==> 0 <= interval * n.gpus.value
  }

  ghost predicate Addable(nodes: seq<Node>, interval: int) {
    forall i :: 0 <= i < |nodes| ==> NodeAddable(nodes[i], interval)
  }

  /** While the clock does not go back and no count is negative, every list is accepted. */
  lemma {:induction false} ForwardIsAddable(nodes: seq<Node>, interval: int)
    requires interval >= 0 && forall i :: 0 <= i < |nodes| && nodes[i].gpus.Some? ==> nodes[i].gpus.value >= 0
    ensures Addable(nodes, interval)
  {
  }

  /** The counters never decrease. */
  lemma {:induction false} CountersGrow(fails: Counters, gpu: Counters, before: seq<Node>, now: seq<Node>,
      interval: int, l: Series)
    requires UniqueNames(now) && Addable(now, interval)
    ensures Count(fails, l) <= Count(FailsAfter(fails, before, now), l)
    ensures Count(gpu, l) <= Count(GpuSecondsAfter(gpu, now, interval), l)
  {
    FailsCountEdges(fails, before, now, l);
    GpuSecondsShare(gpu, now, interval, l);
    NamedIsMember(now, l.name);
  }

  /** One node's view of the episodes. */
  datatype Track = Track(start: Option<int>, observed: seq<int>)

  function TrackOf(e: Episodes, name: string): Track {
    Track(if name in e.starts then Some(e.starts[name]) else None, Observed(e, name))
  }

  function Moved(t: Track, previous: bool, current: bool, at: int): Track {
    if current && !previous then t.(start := Some(at))
    else if !current && previous && t.start.Some? then Track(None, t.observed + [at - t.start.value])
    else t
  }

  predicate In(nodes: seq<Node>, name: string, checker: Node -> bool) {
    Named(nodes, name).Some? && checker(Named(nodes, name).value)
  }

  lemma {:induction false} TransitionMoves(e: Episodes, name: string, previous: bool, current: bool, at: int,
      other: string)
    ensures TrackOf(Transition(e, name, previous, current, at), other) ==
            if other == name then Moved(TrackOf(e, name), previous, current, at) else TrackOf(e, other)
  {
  }

  /** A list moves each listed node on its own and leaves the others alone. */
  lemma {:induction false} EpisodesMove(e: Episodes, before: seq<Node>, now: seq<Node>, at: int,
      checker: Node -> bool, name: string)
    requires UniqueNames(now)
    ensures TrackOf(EpisodesAfter(e, before, now, at, checker), name) ==
            if Named(now, name).None? then TrackOf(e, name)
            else Moved(TrackOf(e, name), In(before, name, checker), In(now, name, checker), at)
  {
    if now != [] {
      var front, n := now[..|now| - 1], now[|now| - 1];
      EpisodesMove(e, before, front, at, checker, name);
      NamedIsMember(front, n.name);
      TransitionMoves(EpisodesAfter(e, before, front, at, checker), n.name, In(before, n.name, checker), checker(n),
        at, name);
    }
  }
}
