/**
 The exporter's metrics collector: the published state, the metrics beside it, and the four
 refreshes that fetch, then commit under the state lock unless a newer run already has.
 */
module Exporter {
  import opened NodeMetrics
  import opened NodeHistory
  import opened Strconv

  /** What a sub-collector fetches; jobs, diagnostics and topologies are carried as they come. */
  datatype Payload =
    | NodeList(nodes: seq<Node>)
    | JobList(text: string)
    | DiagReport(text: string)
    | TopologyMap(text: string)

  datatype Kind = Nodes | Jobs | Diag | Topology

  function KindOf(p: Payload): Kind {
    match p
    case NodeList(_) => Nodes
    case JobList(_) => Jobs
    case DiagReport(_) => Diag
    case TopologyMap(_) => Topology
  }

  /** One collector's published data and the sequence of the run it came from. */
  datatype Slot = Slot(sequence: nat, data: Payload)

  datatype State = State(
    gpuUpdated: int,
    nodes: Slot,
    jobs: Slot,
    diag: Slot,
    topologies: Slot,
    unavailableSince: map<string, int>,
    drainingSince: map<string, int>)

  function SlotOf(s: State, k: Kind): Slot {
    match k
    case Nodes => s.nodes
    case Jobs => s.jobs
    case Diag => s.diag
    case Topology => s.topologies
  }

  /** The slots hold data of their own kind. */
  predicate Kinded(s: State) {
    KindOf(s.nodes.data) == Nodes && KindOf(s.jobs.data) == Jobs && KindOf(s.diag.data) == Diag &&
      KindOf(s.topologies.data) == Topology
  }

  function NewState(created: int): State {
    State(created, Slot(0, NodeList([])), Slot(0, JobList("")), Slot(0, DiagReport("")), Slot(0, TopologyMap("")),
      map[], map[])
  }

  datatype Metrics = Metrics(fails: Counters, gpu: Counters, unavailable: map<string, seq<int>>,
    draining: map<string, seq<int>>)

  const NO_METRICS := Metrics(map[], map[], map[], map[])

  /** The state and the metrics together. */
  datatype View = View(state: State, metrics: Metrics)

  function UnavailableEpisodes(v: View): Episodes {
    Episodes(v.state.unavailableSince, v.metrics.unavailable)
  }

  function DrainingEpisodes(v: View): Episodes {
    Episodes(v.state.drainingSince, v.metrics.draining)
  }

  predicate Stale(s: State, sequence: nat, k: Kind) {
    sequence != 0 && sequence <= SlotOf(s, k).sequence
  }

  function Refilled(slot: Slot, sequence: nat, data: Payload): Slot {
    Slot(if sequence != 0 then sequence else slot.sequence, data)
  }

  /** The view after an accepted node list, before its sequence is recorded. */
  function NodesApplied(v: View, c: Commit): View
    requires v.state.nodes.data.NodeList?
  {
    var t := Turn(v.state.nodes.data.nodes, v.state.gpuUpdated, c);
    var u := EpisodeStep(Unavailable)(UnavailableEpisodes(v), t);
    var d := EpisodeStep(Draining)(DrainingEpisodes(v), t);
    View(v.state.(gpuUpdated := c.gpuAt, nodes := v.state.nodes.(data := NodeList(c.nodes)),
                  unavailableSince := u.starts, drainingSince := d.starts),
         Metrics(FailStep()(v.metrics.fails, t), GpuStep()(v.metrics.gpu, t), u.observed, d.observed))
  }

  function NodesCommitted(v: View, sequence: nat, c: Commit): View
    requires v.state.nodes.data.NodeList?
  {
    var w := NodesApplied(v, c);
    w.(state := w.state.(nodes := Refilled(w.state.nodes, sequence, w.state.nodes.data)))
  }

  /** The view after an accepted run of another kind. */
  function OtherCommitted(v: View, sequence: nat, data: Payload): View
    requires !data.NodeList?
  {
    var s := v.state;
    v.(state := match data
                case JobList(_) => s.(jobs := Refilled(s.jobs, sequence, data))
                case DiagReport(_) => s.(diag := Refilled(s.diag, sequence, data))
                case TopologyMap(_) => s.(topologies := Refilled(s.topologies, sequence, data)))
  }

  /** The view after a run has reached the lock with its data. */
  function Committed(v: View, sequence: nat, data: Payload, at: int, gpuAt: int): View
    requires v.state.nodes.data.NodeList?
  {
    if Stale(v.state, sequence, KindOf(data)) then v
    else if data.NodeList? then NodesCommitted(v, sequence, Commit(data.nodes, at, gpuAt))
    else OtherCommitted(v, sequence, data)
  }

  /** The counter add panics: some increment of an accepted list is negative. */
  ghost predicate Panics(v: View, sequence: nat, data: Payload, gpuAt: int) {
    data.NodeList? && !Stale(v.state, sequence, Nodes) && !Addable(data.nodes, gpuAt - v.state.gpuUpdated)
  }

  /** Without a sequence number data is always accepted, and the number on record stays. */
  lemma {:induction false} UnnumberedIsAccepted(v: View, data: Payload, at: int, gpuAt: int)
    requires v.state.nodes.data.NodeList?
    ensures
      var k := KindOf(data);
      SlotOf(Committed(v, 0, data, at, gpuAt).state, k) == Slot(SlotOf(v.state, k).sequence, data)
  {
  }

  ghost predicate Indexes(m: map<string, Node>, nodes: seq<Node>) {
    forall name :: (if name in m then Some(m[name]) else None) == Named(nodes, name)
  }

  method ByName(nodes: seq<Node>) returns (m: map<string, Node>)
    ensures Indexes(m, nodes)
  {
    m := map[];
    for i := 0 to |nodes|
      invariant Indexes(m, nodes[..i])
    {
      m := m[nodes[i].name := nodes[i]];
      assert nodes[..i + 1][..i] == nodes[..i];
    }
    assert nodes[..|nodes|] == nodes;
  }

  /** What a refresh meets: no source to ask (topologies only), an error, or data. */
  datatype Answer = NoSource | NoAnswer | Delivered(data: Payload)

  class MetricsCollector {
    var state: State
    var nodeFails: Counters
    var gpuSeconds: Counters
    var unavailabilityDuration: map<string, seq<int>>
    var drainingDuration: map<string, seq<int>>

    constructor (now: int)
      ensures Value() == View(NewState(now), NO_METRICS) && Valid()
    {
      state := NewState(now);
      nodeFails, gpuSeconds, unavailabilityDuration, drainingDuration := map[], map[], map[], map[];
    }

    ghost predicate Valid()
      reads this
    {
      Kinded(state)
    }

    ghost function Value(): View
      reads this
    {
      View(state, Metrics(nodeFails, gpuSeconds, unavailabilityDuration, drainingDuration))
    }

    method UpdateNodeFailureMetrics(current: seq<Node>, previous: seq<Node>)
      modifies `nodeFails
      ensures nodeFails == FailsAfter(old(nodeFails), previous, current)
    {
      var before := ByName(previous);
      for i := 0 to |current|
        invariant nodeFails == FailsAfter(old(nodeFails), previous, current[..i])
      {
        assert current[..i + 1][..i] == current[..i];
        var n := current[i];
        if n.name in before && !Failed(before[n.name]) && Failed(n) {
          var l := SeriesOf(n, n.reason);
          nodeFails := nodeFails[l := (if l in nodeFails then nodeFails[l] else 0) + 1];
        }
      }
      assert current[..|current|] == current;
    }

    /** The start times of the new state, after the transitions of every listed node. */
    method UpdateNodeStateMetrics(current: seq<Node>, previous: seq<Node>, unavailable: map<string, int>,
        draining: map<string, int>, at: int)
      returns (unavailableSince: map<string, int>, drainingSince: map<string, int>)
      modifies `unavailabilityDuration, `drainingDuration
      ensures Episodes(unavailableSince, unavailabilityDuration) ==
              EpisodesAfter(Episodes(unavailable, old(unavailabilityDuration)), previous, current, at, Unavailable)
      ensures Episodes(drainingSince, drainingDuration) ==
              EpisodesAfter(Episodes(draining, old(drainingDuration)), previous, current, at, Draining)
    {
      var before := ByName(previous);
      unavailableSince, drainingSince := unavailable, draining;
      for i := 0 to |current|
        invariant Episodes(unavailableSince, unavailabilityDuration) ==
                  EpisodesAfter(Episodes(unavailable, old(unavailabilityDuration)), previous, current[..i], at,
                    Unavailable)
        invariant Episodes(drainingSince, drainingDuration) ==
                  EpisodesAfter(Episodes(draining, old(drainingDuration)), previous, current[..i], at, Draining)
      {
        assert current[..i + 1][..i] == current[..i];
        var n := current[i];
        unavailableSince, unavailabilityDuration :=
          ProcessTransition(n, before, Unavailable, unavailableSince, unavailabilityDuration, at, previous);
        drainingSince, drainingDuration :=
          ProcessTransition(n, before, Draining, drainingSince, drainingDuration, at, previous);
      }
      assert current[..|current|] == current;
    }

    static method ProcessTransition(n: Node, before: map<string, Node>, checker: Node -> bool,
        starts: map<string, int>, histogram: map<string, seq<int>>, at: int, ghost previous: seq<Node>)
      returns (starts': map<string, int>, histogram': map<string, seq<int>>)
      requires Indexes(before, previous)
      ensures Episodes(starts', histogram') ==
              Transition(Episodes(starts, histogram), n.name, In(previous, n.name, checker), checker(n), at)
    {
      starts', histogram' := starts, histogram;
      var now := checker(n);
      var was := n.name in before && checker(before[n.name]);
      if now && !was {
        starts' := starts[n.name := at];
      } else if !now && was {
        if n.name in starts {
          var sofar := if n.name in histogram then histogram[n.name] else [];
          histogram' := histogram[n.name := sofar + [at - starts[n.name]]];
          starts' := starts - {n.name};
        }
      }
    }

    method AddGPUSeconds(n: Node, interval: int) returns (panicked: bool)
      modifies `gpuSeconds
      ensures panicked <==> !NodeAddable(n, interval)
      ensures !panicked ==> gpuSeconds == GpuAdded(old(gpuSeconds), n, interval)
    {
      panicked := false;
      var g := n.gpus;
      if g.Some? {
        if interval * g.value < 0 {
          return true;
        }
        var l := SeriesOf(n, "");
        gpuSeconds := gpuSeconds[l := (if l in gpuSeconds then gpuSeconds[l] else 0) + interval * g.value];
      }
    }

    method UpdateGPUSecondsMetrics(nodes: seq<Node>, interval: int) returns (panicked: bool)
      modifies `gpuSeconds
      ensures panicked <==> !Addable(nodes, interval)
      ensures !panicked ==> gpuSeconds == GpuSecondsAfter(old(gpuSeconds), nodes, interval)
    {
      panicked := false;
      for i := 0 to |nodes|
        invariant gpuSeconds == GpuSecondsAfter(old(gpuSeconds), nodes[..i], interval)
        invariant forall k :: 0 <= k < i ==> NodeAddable(nodes[k], interval)
      {
        assert nodes[..i + 1][..i] == nodes[..i];
        panicked := AddGPUSeconds(nodes[i], interval);
        if panicked {
          return;
        }
      }
      assert nodes[..|nodes|] == nodes;
    }

    /** The new state for a node list, and the metrics updates that go with it. */
    method ApplyNodes(nodes: seq<Node>, at: int, gpuAt: int) returns (next: State, panicked: bool)
      requires Valid()
      modifies `nodeFails, `gpuSeconds, `unavailabilityDuration, `drainingDuration
      ensures panicked <==> !Addable(nodes, gpuAt - state.gpuUpdated)
      ensures !panicked ==> View(next, Value().metrics) == NodesApplied(old(Value()), Commit(nodes, at, gpuAt))
    {
      var previous := state.nodes.data.nodes;
      next := state;
      UpdateNodeFailureMetrics(nodes, previous);
      var unavailableSince, drainingSince := UpdateNodeStateMetrics(nodes, previous, state.unavailableSince,
        state.drainingSince, at);
      panicked := UpdateGPUSecondsMetrics(nodes, gpuAt - state.gpuUpdated);
      next := State(gpuAt, Slot(state.nodes.sequence, NodeList(nodes)), state.jobs, state.diag, state.topologies,
        unavailableSince, drainingSince);
    }

    /** Fetches and commits nodes; a failed fetch keeps everything, a panic ends the process. */
    method RefreshNodes(fetched: Option<seq<Node>>, sequence: nat, at: int, gpuAt: int)
        returns (failed: bool, panicked: bool)
      requires Valid()
      modifies this
      ensures Valid() && failed == fetched.None?
      ensures failed ==> !panicked && Value() == old(Value())
      ensures !failed ==> (panicked <==> Panics(old(Value()), sequence, NodeList(fetched.value), gpuAt))
      ensures !failed && !panicked ==> Value() == Committed(old(Value()), sequence, NodeList(fetched.value), at, gpuAt)
      ensures panicked ==> state == old(state)
    {
      failed, panicked := fetched.None?, false;
      if failed || (sequence != 0 && sequence <= state.nodes.sequence) {
        return;
      }
      var next;
      next, panicked := ApplyNodes(fetched.value, at, gpuAt);
      if !panicked {
        if sequence != 0 {
          next := next.(nodes := next.nodes.(sequence := sequence));
        }
        state := next;
      }
    }

    /** Fetches and commits jobs, diagnostics or topologies; without a source there is nothing to do. */
    method RefreshOther(answer: Answer, sequence: nat) returns (failed: bool)
      requires Valid()
      requires answer.Delivered? ==> !answer.data.NodeList?
      modifies `state
      ensures Valid() && failed == answer.NoAnswer?
      ensures !answer.Delivered? ==> Value() == old(Value())
      ensures answer.Delivered? ==>
        forall at, gpuAt :: Value() == Committed(old(Value()), sequence, answer.data, at, gpuAt)
    {
      failed := answer.NoAnswer?;
      if !answer.Delivered? {
        return;
      }
      match answer.data {
        case JobList(_) =>
          if sequence == 0 || sequence > state.jobs.sequence {
            state := state.(jobs := Refilled(state.jobs, sequence, answer.data));
          }
        case DiagReport(_) =>
          if sequence == 0 || sequence > state.diag.sequence {
            state := state.(diag := Refilled(state.diag, sequence, answer.data));
          }
        case TopologyMap(_) =>
          if sequence == 0 || sequence > state.topologies.sequence {
            state := state.(topologies := Refilled(state.topologies, sequence, answer.data));
          }
      }
    }
  }
}
