/**
 The exporter's collection engine as a state machine. Any number of runs of the four
 sub-collectors overlap; each step below is one atomic action of one run, and steps of
 different runs interleave in any order.
 */
module ExporterRuns {
  import opened NodeMetrics
  import opened NodeHistory
  import opened Exporter
  import opened Strconv

  /** Where a run stands; Loaded holds the in-flight count it read before its compare-and-swap. */
  datatype Pc = Starting | Loaded(current: int) | Skipped | Admitted | Fetching | Fetched | Ending | Finished

  /** sequence is 0 until issued; completed says the run reached the lock with its data. */
  datatype Run = Run(kind: Kind, pc: Pc, sequence: nat, data: Option<Payload>, completed: bool)

  datatype Lane = Lane(inflight: int, issued: nat)

  /** history and created are bookkeeping of the proof; panicked ends the process. */
  datatype System = System(
    max: int,
    created: int,
    lanes: map<Kind, Lane>,
    runs: map<nat, Run>,
    view: View,
    clock: int,
    panicked: bool,
    history: seq<Commit>)

  function Init(max: int, created: int): System {
    var l := Lane(0, 0);
    System(max, created, map[Nodes := l, Jobs := l, Diag := l, Topology := l], map[],
           View(NewState(created), NO_METRICS), created, false, [])
  }

  datatype Step =
    | Begin(r: nat, kind: Kind)
    | Load(r: nat)
    | Swap(r: nat)
    | Issue(r: nat)
    | Fetch(r: nat, data: Payload)
    | Fail(r: nat)
    | Publish(r: nat, at: int, gpuAt: int)
    | Finish(r: nat)

  /** Node names are unique within a list. */
  ghost predicate Plausible(p: Payload) {
    p.NodeList? ==> UniqueNames(p.nodes)
  }

  ghost predicate Enabled(s: System, step: Step) {
    && !s.panicked
    && (step.Begin? <==> step.r !in s.runs)
    && (!step.Begin? ==> Ready(s.runs[step.r], step))
    && (step.Publish? ==> s.clock <= step.at <= step.gpuAt)
  }

  /** The run is at the point where it takes the step. */
  ghost predicate Ready(run: Run, step: Step) {
    match step
    case Begin(_, _) => false
    case Load(_) => run.pc == Starting
    case Swap(_) => run.pc.Loaded?
    case Issue(_) => run.pc == Admitted
    case Fetch(_, data) => run.pc == Fetching && KindOf(data) == run.kind && Plausible(data)
    case Fail(_) => run.pc == Fetching
    case Publish(_, _, _) => run.pc == Fetched
    case Finish(_) => run.pc == Ending
  }

  /** The run after a step of its own that is not its publication. */
  function Stepped(run: Run, lane: Lane, max: int, step: Step): Run {
    match step
    case Load(_) => run.(pc := if lane.inflight >= max then Skipped else Loaded(lane.inflight))
    case Swap(_) => run.(pc := if run.pc == Loaded(lane.inflight) then Admitted else Starting)
    case Issue(_) => run.(pc := Fetching, sequence := lane.issued + 1)
    case Fetch(_, data) => run.(pc := Fetched, data := Some(data))
    case Fail(_) => run.(pc := Ending)
    case Finish(_) => run.(pc := Finished)
    case _ => run.(pc := Ending, completed := true)
  }

  function LaneAfter(run: Run, lane: Lane, step: Step): Lane {
    match step
    case Swap(_) => if run.pc == Loaded(lane.inflight) then lane.(inflight := lane.inflight + 1) else lane
    case Issue(_) => lane.(issued := lane.issued + 1)
    case Finish(_) => lane.(inflight := lane.inflight - 1)
    case _ => lane
  }

  /** The commit under the lock: a panic stops the process before anything is stored. */
  ghost function PublishedView(s: System, run: Run, at: int, gpuAt: int): (View, seq<Commit>)
    requires run.data.Some? && s.view.state.nodes.data.NodeList?
  {
    var data := run.data.value;
    (Committed(s.view, run.sequence, data, at, gpuAt),
     if data.NodeList? && !Stale(s.view.state, run.sequence, Nodes) then s.history + [Commit(data.nodes, at, gpuAt)]
       else s.history)
  }

  function NewRun(k: Kind): Run {
    Run(k, Starting, 0, None, false)
  }

  ghost function Next(s: System, step: Step): System
    requires Enabled(s, step) && Shaped(s)
  {
    if step.Begin? then s.(runs := s.runs[step.r := NewRun(step.kind)])
    else
      var run := s.runs[step.r];
      var lane := s.lanes[run.kind];
      var moved := s.(runs := s.runs[step.r := Stepped(run, lane, s.max, step)],
                      lanes := s.lanes[run.kind := LaneAfter(run, lane, step)]);
      if !step.Publish? then moved
      else if Panics(s.view, run.sequence, run.data.value, step.gpuAt) then s.(panicked := true)
      else
        var (view, history) := PublishedView(s, run, step.at, step.gpuAt);
        moved.(view := view, history := history, clock := step.gpuAt)
  }

  // ---------------------------------------------------------------------------
  // Shape of a run
  // ---------------------------------------------------------------------------

  predicate Issued(run: Run) {
    run.pc == Fetching || run.pc == Fetched || run.pc == Ending || run.pc == Finished
  }

  predicate Active(run: Run) {
    run.pc == Admitted || run.pc == Fetching || run.pc == Fetched || run.pc == Ending
  }

  ghost predicate RunShaped(run: Run, max: int) {
    && (run.sequence > 0 <==> Issued(run))
    && (run.pc.Loaded? ==> run.pc.current < max)
    && (run.data.Some? ==> KindOf(run.data.value) == run.kind && Plausible(run.data.value))
    && (run.pc == Fetched || run.completed ==> run.data.Some?)
    && (run.completed ==> run.pc == Ending || run.pc == Finished)
  }

  ghost predicate Shaped(s: System) {
    && (forall k: Kind :: k in s.lanes)
    && Kinded(s.view.state)
    && forall r :: r in s.runs ==> RunShaped(s.runs[r], s.max)
  }

  lemma {:induction false} ShapedKept(s: System, step: Step)
    requires Enabled(s, step) && Shaped(s)
    ensures Shaped(Next(s, step))
  {
    if !step.Begin? {
      var run := s.runs[step.r];
      assert RunShaped(run, s.max);
      SteppedIsShaped(run, s.lanes[run.kind], s.max, step);
    }
  }

  lemma {:induction false} SteppedIsShaped(run: Run, lane: Lane, max: int, step: Step)
    requires RunShaped(run, max) && Ready(run, step)
    ensures RunShaped(Stepped(run, lane, max, step), max)
  {
  }

  // ---------------------------------------------------------------------------
  // In-flight accounting
  // ---------------------------------------------------------------------------

  function Where<V>(m: map<nat, V>, p: V -> bool): set<nat> {
    set r | r in m && p(m[r])
  }

  lemma {:induction false} WhereUpdated<V>(m: map<nat, V>, r: nat, v: V, p: V -> bool)
    ensures |Where(m[r := v], p)| == |Where(m, p)| - (if r in m && p(m[r]) then 1 else 0) + if p(v) then 1 else 0
  {
    var others := Where(m, p) - {r};
    if p(v) {
      assert Where(m[r := v], p) == others + {r};
    } else {
      assert Where(m[r := v], p) == others;
    }
  }

  function ActiveOf(k: Kind): Run -> bool {
    (run: Run) => run.kind == k && Active(run)
  }

  /** In flight stays within bounds and is the number of admitted, unfinished runs. */
  ghost predicate Accounted(runs: map<nat, Run>, lanes: map<Kind, Lane>, max: int) {
    forall k: Kind | k in lanes :: lanes[k].inflight == |Where(runs, ActiveOf(k))| <= max
  }

  lemma {:induction false} AccountedUpdated(runs: map<nat, Run>, lanes: map<Kind, Lane>, max: int, r: nat, run: Run,
      lane: Lane)
    requires Accounted(runs, lanes, max) && run.kind in lanes
    requires r in runs ==> runs[r].kind == run.kind
    requires lane.inflight <= max
    requires lane.inflight - lanes[run.kind].inflight ==
      (if Active(run) then 1 else 0) - if r in runs && Active(runs[r]) then 1 else 0
    ensures Accounted(runs[r := run], lanes[run.kind := lane], max)
  {
    forall k: Kind | k in lanes
      ensures lanes[run.kind := lane][k].inflight == |Where(runs[r := run], ActiveOf(k))| <= max
    {
      WhereUpdated(runs, r, run, ActiveOf(k));
    }
  }

  lemma {:induction false} SteppedAccounts(run: Run, lane: Lane, max: int, step: Step)
    requires RunShaped(run, max) && Ready(run, step) && lane.inflight <= max
    ensures
      var run', lane' := Stepped(run, lane, max, step), LaneAfter(run, lane, step);
      && run'.kind == run.kind && lane'.inflight <= max
      && lane'.inflight - lane.inflight == (if Active(run') then 1 else 0) - if Active(run) then 1 else 0
  {
  }

  lemma {:induction false} AccountedKept(s: System, step: Step)
    requires Enabled(s, step) && Shaped(s) && Accounted(s.runs, s.lanes, s.max)
    ensures Accounted(Next(s, step).runs, Next(s, step).lanes, s.max)
  {
    if step.Begin? {
      var lane := s.lanes[step.kind];
      AccountedUpdated(s.runs, s.lanes, s.max, step.r, NewRun(step.kind), lane);
      assert s.lanes == s.lanes[step.kind := lane];
    } else {
      var run := s.runs[step.r];
      var lane := s.lanes[run.kind];
      SteppedAccounts(run, lane, s.max, step);
      AccountedUpdated(s.runs, s.lanes, s.max, step.r, Stepped(run, lane, s.max, step), LaneAfter(run, lane, step));
    }
  }

  // ---------------------------------------------------------------------------
  // Sequence numbers
  // ---------------------------------------------------------------------------

  /** The issued numbers are exactly 1 to the counter, each held by one run. */
  ghost predicate Numbered(runs: map<nat, Run>, lanes: map<Kind, Lane>) {
    && (forall r :: r in runs && runs[r].kind in lanes ==> runs[r].sequence <= lanes[runs[r].kind].issued)
    && (forall r, q :: r in runs && q in runs && r != q && runs[r].kind == runs[q].kind && runs[r].sequence > 0 ==>
          runs[r].sequence != runs[q].sequence)
    && (forall k: Kind, n: nat | k in lanes && 0 < n <= lanes[k].issued :: Holder(runs, k, n))
  }

  ghost predicate Holder(runs: map<nat, Run>, k: Kind, n: nat) {
    exists r :: r in runs && runs[r].kind == k && runs[r].sequence == n
  }

  /** The run keeps its number, or an unnumbered run takes the next one. */
  predicate Renumbers(runs: map<nat, Run>, r: nat, run: Run, lane: Lane, lane': Lane) {
    var was := if r in runs then runs[r].sequence else 0;
    && (r in runs ==> runs[r].kind == run.kind)
    && ((run.sequence == was && lane'.issued == lane.issued) ||
      (was == 0 && run.sequence == lane'.issued == lane.issued + 1))
  }

  lemma {:induction false} NumberedUpdated(runs: map<nat, Run>, lanes: map<Kind, Lane>, r: nat, run: Run, lane: Lane)
    requires Numbered(runs, lanes) && run.kind in lanes
    requires Renumbers(runs, r, run, lanes[run.kind], lane)
    ensures Numbered(runs[r := run], lanes[run.kind := lane])
  {
    var runs', lanes' := runs[r := run], lanes[run.kind := lane];
    forall k: Kind, n: nat | k in lanes' && 0 < n <= lanes'[k].issued ensures Holder(runs', k, n) {
      if n <= lanes[k].issued {
        assert Holder(runs, k, n);
        var q :| q in runs && runs[q].kind == k && runs[q].sequence == n;
        assert runs'[q].kind == k && runs'[q].sequence == n;
      } else {
        assert runs'[r].kind == k && runs'[r].sequence == n;
      }
    }
  }

  lemma {:induction false} SteppedRenumbers(runs: map<nat, Run>, r: nat, lane: Lane, max: int, step: Step)
    requires r in runs && RunShaped(runs[r], max) && Ready(runs[r], step)
    ensures Stepped(runs[r], lane, max, step).kind == runs[r].kind
    ensures Renumbers(runs, r, Stepped(runs[r], lane, max, step), lane, LaneAfter(runs[r], lane, step))
  {
  }

  lemma {:induction false} NumberedKept(s: System, step: Step)
    requires Enabled(s, step) && Shaped(s) && Numbered(s.runs, s.lanes)
    ensures Numbered(Next(s, step).runs, Next(s, step).lanes)
  {
    if step.Begin? {
      var lane := s.lanes[step.kind];
      NumberedUpdated(s.runs, s.lanes, step.r, NewRun(step.kind), lane);
      assert s.lanes == s.lanes[step.kind := lane];
    } else {
      var run := s.runs[step.r];
      var lane := s.lanes[run.kind];
      SteppedRenumbers(s.runs, step.r, lane, s.max, step);
      NumberedUpdated(s.runs, s.lanes, step.r, Stepped(run, lane, s.max, step), LaneAfter(run, lane, step));
    }
  }

  // ---------------------------------------------------------------------------
  // Published data
  // ---------------------------------------------------------------------------

  /** A completed run of that kind, with that number and data. */
  predicate Completed(run: Run, k: Kind, slot: Slot) {
    run.kind == k && run.completed && run.sequence == slot.sequence && run.data == Some(slot.data)
  }

  /** The slot holds the data of the completed run with the highest number, or what it began with. */
  ghost predicate Latest(runs: map<nat, Run>, k: Kind, slot: Slot, initial: Slot) {
    && (forall r :: r in runs && runs[r].kind == k && runs[r].completed ==> runs[r].sequence <= slot.sequence)
    && (slot == initial || exists r :: r in runs && Completed(runs[r], k, slot))
  }

  ghost predicate Fresh(s: System) {
    forall k: Kind :: Latest(s.runs, k, SlotOf(s.view.state, k), SlotOf(NewState(s.created), k))
  }

  /** A run that changes but does not complete leaves the published data in place. */
  lemma {:induction false} LatestUpdated(runs: map<nat, Run>, r: nat, run: Run, k: Kind, slot: Slot, initial: Slot)
    requires Latest(runs, k, slot, initial)
    requires r in runs ==> runs[r].completed == run.completed && (run.completed ==> run == runs[r].(pc := run.pc))
    requires r !in runs ==> !run.completed
    ensures Latest(runs[r := run], k, slot, initial)
  {
    if slot != initial {
      var q :| q in runs && Completed(runs[q], k, slot);
      assert Completed(runs[r := run][q], k, slot);
    }
  }

  /** A run that completes replaces its slot exactly when its number is higher. */
  lemma {:induction false} LatestPublished(runs: map<nat, Run>, r: nat, run: Run, k: Kind, slot: Slot, slot': Slot,
      initial: Slot)
    requires Latest(runs, k, slot, initial)
    requires r in runs && !runs[r].completed && run.completed && run.data.Some?
    requires slot' == if run.kind == k && run.sequence > slot.sequence then Slot(run.sequence, run.data.value) else slot
    ensures Latest(runs[r := run], k, slot', initial)
  {
    if slot' == slot {
      if slot != initial {
        var q :| q in runs && Completed(runs[q], k, slot);
        assert Completed(runs[r := run][q], k, slot);
      }
    } else {
      assert Completed(runs[r := run][r], k, slot');
    }
  }

  /** A publication touches its own slot only, and only when it is newer. */
  lemma {:induction false} SlotAfter(v: View, sequence: nat, data: Payload, at: int, gpuAt: int, k: Kind)
    requires v.state.nodes.data.NodeList? && sequence > 0
    ensures SlotOf(Committed(v, sequence, data, at, gpuAt).state, k) ==
            var slot := SlotOf(v.state, k);
            if KindOf(data) == k && sequence > slot.sequence then Slot(sequence, data) else slot
  {
  }

  lemma {:induction false} FreshKept(s: System, step: Step)
    requires Enabled(s, step) && Shaped(s) && Fresh(s)
    ensures Fresh(Next(s, step))
  {
    var t := Next(s, step);
    if t.runs != s.runs {
      var run := t.runs[step.r];
      if !step.Begin? {
        assert RunShaped(s.runs[step.r], s.max);
      }
      forall k: Kind ensures Latest(t.runs, k, SlotOf(t.view.state, k), SlotOf(NewState(s.created), k)) {
        var slot, initial := SlotOf(s.view.state, k), SlotOf(NewState(s.created), k);
        if step.Publish? {
          SlotAfter(s.view, run.sequence, run.data.value, step.at, step.gpuAt, k);
          LatestPublished(s.runs, step.r, run, k, slot, SlotOf(t.view.state, k), initial);
        } else {
          LatestUpdated(s.runs, step.r, run, k, slot, initial);
        }
      }
    }
  }

  /** No publication undoes a newer one, disturbs another collector's data, or counts when it is stale. */
  lemma {:induction false} PublishedNeverGoesBack(s: System, step: Step, k: Kind)
    requires Enabled(s, step) && Shaped(s)
    ensures SlotOf(s.view.state, k).sequence <= SlotOf(Next(s, step).view.state, k).sequence
    ensures step.Publish? && s.runs[step.r].kind != k ==> SlotOf(Next(s, step).view.state, k) == SlotOf(s.view.state, k)
    ensures step.Publish? && s.runs[step.r].sequence <= SlotOf(s.view.state, s.runs[step.r].kind).sequence ==>
              Next(s, step).view == s.view && Next(s, step).history == s.history
    ensures !step.Publish? ==> Next(s, step).view == s.view
  {
    if step.Publish? {
      var run := s.runs[step.r];
      assert RunShaped(run, s.max);
      SlotAfter(s.view, run.sequence, run.data.value, step.at, step.gpuAt, k);
    }
  }

  // ---------------------------------------------------------------------------
  // Metrics
  // ---------------------------------------------------------------------------

  /** The view's node figures are those of the history of accepted commits. */
  ghost predicate Records(v: View, created: int, h: seq<Commit>) {
    && v.state.nodes.data == NodeList(ListBefore(h, |h|))
    && v.state.gpuUpdated == GpuBefore(created, h, |h|)
    && v.metrics.fails == Folded(created, h, |h|, map[], FailStep())
    && v.metrics.gpu == Folded(created, h, |h|, map[], GpuStep())
    && UnavailableEpisodes(v) == Folded(created, h, |h|, NO_EPISODES, EpisodeStep(Unavailable))
    && DrainingEpisodes(v) == Folded(created, h, |h|, NO_EPISODES, EpisodeStep(Draining))
  }

  ghost predicate Recorded(s: System) {
    Unique(s.history) && Records(s.view, s.created, s.history) && s.view.state.gpuUpdated <= s.clock
  }

  lemma {:induction false} RecordsCommit(v: View, created: int, h: seq<Commit>, sequence: nat, c: Commit)
    requires Records(v, created, h)
    ensures Records(NodesCommitted(v, sequence, c), created, h + [c])
  {
    FoldedNext(created, h, c, |h|, map[], FailStep());
    FoldedNext(created, h, c, |h|, map[], GpuStep());
    FoldedNext(created, h, c, |h|, NO_EPISODES, EpisodeStep(Unavailable));
    FoldedNext(created, h, c, |h|, NO_EPISODES, EpisodeStep(Draining));
  }

  lemma {:induction false} RecordedKept(s: System, step: Step)
    requires Enabled(s, step) && Shaped(s) && Recorded(s)
    ensures Recorded(Next(s, step))
  {
    if step.Publish? {
      var run := s.runs[step.r];
      assert RunShaped(run, s.max);
      PublishRecords(s, run, step.at, step.gpuAt);
    }
  }

  lemma {:induction false} PublishRecords(s: System, run: Run, at: int, gpuAt: int)
    requires Recorded(s) && run.data.Some? && Plausible(run.data.value) && s.clock <= gpuAt
    ensures
      var (view, history) := PublishedView(s, run, at, gpuAt);
      Unique(history) && Records(view, s.created, history) && view.state.gpuUpdated <= gpuAt
  {
    if run.data.value.NodeList? {
      RecordsCommit(s.view, s.created, s.history, run.sequence, Commit(run.data.value.nodes, at, gpuAt));
    }
  }

  // ---------------------------------------------------------------------------
  // Every execution
  // ---------------------------------------------------------------------------

  ghost predicate Inv(s: System) {
    Shaped(s) && Accounted(s.runs, s.lanes, s.max) && Numbered(s.runs, s.lanes) && Fresh(s) && Recorded(s)
  }

  lemma {:induction false} InitShaped(max: int, created: int)
    ensures Shaped(Init(max, created))
    ensures max >= 1 ==> Inv(Init(max, created))
  {
    var s := Init(max, created);
    forall k: Kind ensures k in s.lanes {
      match k
      case Nodes =>
      case Jobs =>
      case Diag =>
      case Topology =>
    }
    forall k: Kind ensures Where(s.runs, ActiveOf(k)) == {} {
    }
  }

  /** The system after the steps, or None when some step was not enabled. */
  ghost function Execute(max: int, created: int, steps: seq<Step>): (r: Option<System>)
    ensures r.Some? ==> Shaped(r.value)
  {
    if steps == [] then
      InitShaped(max, created);
      Some(Init(max, created))
    else
      var before := Execute(max, created, steps[..|steps| - 1]);
      if before.None? || !Enabled(before.value, steps[|steps| - 1]) then None
      else
        ShapedKept(before.value, steps[|steps| - 1]);
        Some(Next(before.value, steps[|steps| - 1]))
  }

  /**
   Whatever the interleaving: in-flight counts are exact and bounded, sequence numbers are
   1, 2, 3 and so on without repetition, every slot holds its highest completed run, and the
   metrics are those of the accepted history.
   */
  lemma {:induction false} EveryExecution(max: int, created: int, steps: seq<Step>)
    requires max >= 1 && Execute(max, created, steps).Some?
    ensures Inv(Execute(max, created, steps).value)
  {
    if steps == [] {
      InitShaped(max, created);
    } else {
      EveryExecution(max, created, steps[..|steps| - 1]);
      var s := Execute(max, created, steps[..|steps| - 1]).value;
      var step := steps[|steps| - 1];
      ShapedKept(s, step);
      AccountedKept(s, step);
      NumberedKept(s, step);
      FreshKept(s, step);
      RecordedKept(s, step);
    }
  }

  /** The numbers and data of the completed runs of a kind. */
  function Outcomes(runs: map<nat, Run>, k: Kind): set<Slot> {
    set r | r in runs && runs[r].kind == k && runs[r].completed && runs[r].data.Some? ::
      Slot(runs[r].sequence, runs[r].data.value)
  }

  /** The slot is the highest outcome, and the only one with its number. */
  lemma {:induction false} LatestOutcome(s: System, k: Kind)
    requires Inv(s)
    ensures var slot, all := SlotOf(s.view.state, k), Outcomes(s.runs, k);
            && (all == {} ==> slot == SlotOf(NewState(s.created), k))
            && (all != {} ==> slot in all)
            && (forall o :: o in all ==> o.sequence < slot.sequence || o == slot)
  {
    var slot, all := SlotOf(s.view.state, k), Outcomes(s.runs, k);
    assert Latest(s.runs, k, slot, SlotOf(NewState(s.created), k));
    forall o | o in all ensures o.sequence < slot.sequence || o == slot {
      OutcomeBelow(s, k, o);
    }
    if slot != SlotOf(NewState(s.created), k) {
      var q :| q in s.runs && Completed(s.runs[q], k, slot);
      assert Slot(s.runs[q].sequence, s.runs[q].data.value) in all;
    }
  }

  lemma {:induction false} OutcomeBelow(s: System, k: Kind, o: Slot)
    requires Inv(s) && o in Outcomes(s.runs, k)
    ensures 0 < o.sequence
    ensures var slot := SlotOf(s.view.state, k); o.sequence < slot.sequence || o == slot
  {
    var slot := SlotOf(s.view.state, k);
    var r :| r in s.runs && Completed(s.runs[r], k, o);
    assert RunShaped(s.runs[r], s.max);
    assert Latest(s.runs, k, slot, SlotOf(NewState(s.created), k));
    if o.sequence == slot.sequence {
      var q :| q in s.runs && Completed(s.runs[q], k, slot);
      assert q == r;
    }
  }

  /** Two executions in which the same runs completed publish the same data, in whatever order they did. */
  lemma {:induction false} Confluence(max: int, created: int, steps: seq<Step>, max': int, created': int,
      steps': seq<Step>, k: Kind)
    requires max >= 1 && Execute(max, created, steps).Some?
    requires max' >= 1 && Execute(max', created', steps').Some?
    requires Outcomes(Execute(max, created, steps).value.runs, k) ==
      Outcomes(Execute(max', created', steps').value.runs, k)
    ensures SlotOf(Execute(max, created, steps).value.view.state, k) ==
      SlotOf(Execute(max', created', steps').value.view.state, k)
  {
    var s, t := Execute(max, created, steps).value, Execute(max', created', steps').value;
    EveryExecution(max, created, steps);
    EveryExecution(max', created', steps');
    SameOutcomes(s, t, k);
  }

  lemma {:induction false} SameOutcomes(s: System, t: System, k: Kind)
    requires Inv(s) && Inv(t) && Outcomes(s.runs, k) == Outcomes(t.runs, k)
    ensures SlotOf(s.view.state, k) == SlotOf(t.view.state, k)
  {
    LatestOutcome(s, k);
    LatestOutcome(t, k);
  }

  /** In every reachable system, the metrics are the offline figures of the accepted node lists. */
  lemma {:induction false} MetricsAreOffline(s: System, name: string, l: Series, g: int)
    requires Inv(s)
    ensures Tells(TrackOf(UnavailableEpisodes(s.view), name), s.history, |s.history|, name, Unavailable)
    ensures Tells(TrackOf(DrainingEpisodes(s.view), name), s.history, |s.history|, name, Draining)
    ensures Count(s.view.metrics.fails, l) == |Positions(|s.history|, EdgesOf(s.history, l))|
    ensures (forall i :: 0 <= i < |s.history| ==> ChargedAt(s.history, i, name) == g) ==>
              TotalFor(s.view.metrics.gpu, name) == g * (s.view.state.gpuUpdated - s.created)
  {
    EpisodeRefinement(s.created, s.history, |s.history|, name, Unavailable);
    EpisodeRefinement(s.created, s.history, |s.history|, name, Draining);
    FailureRefinement(s.created, s.history, |s.history|, l);
    if forall i :: 0 <= i < |s.history| ==> ChargedAt(s.history, i, name) == g {
      GpuSecondsConserved(s.created, s.history, |s.history|, name, g);
    }
  }

  lemma {:induction false} CommittedGrows(v: View, sequence: nat, data: Payload, at: int, gpuAt: int, l: Series)
    requires v.state.nodes.data.NodeList? && Plausible(data) && !Panics(v, sequence, data, gpuAt)
    ensures Count(v.metrics.gpu, l) <= Count(Committed(v, sequence, data, at, gpuAt).metrics.gpu, l)
    ensures Count(v.metrics.fails, l) <= Count(Committed(v, sequence, data, at, gpuAt).metrics.fails, l)
  {
    if data.NodeList? && !Stale(v.state, sequence, Nodes) {
      CountersGrow(v.metrics.fails, v.metrics.gpu, v.state.nodes.data.nodes, data.nodes, gpuAt - v.state.gpuUpdated, l);
    }
  }

  /**
   In every reachable system, a node that the last accepted list has as DOWN, or otherwise faulty,
   and not power-managed has an open outage since the first commit of its unbroken run.
   */
  lemma {:induction false} OutageIsOpen(s: System, name: string, n: Node)
    requires Inv(s) && s.history != [] && Named(s.history[|s.history| - 1].nodes, name) == Some(n)
    requires n.flags * POWER_FLAGS == {} && n.flags * FAULT_FLAGS != {}
    ensures InAt(s.history, |s.history| - 1, name, Unavailable)
    ensures name in s.view.state.unavailableSince
    ensures
      var first := RunStart(s.history, |s.history| - 1, name, Unavailable);
      s.view.state.unavailableSince[name] == s.history[first].at
  {
    FaultsCount(n);
    StartNext(s.history, |s.history| - 1, name, Unavailable);
    EpisodeRefinement(s.created, s.history, |s.history|, name, Unavailable);
    assert LastIn(s.history, |s.history|, name, Unavailable) == |s.history| - 1;
  }

  /** A node that the last accepted list has as working is outside both states there. */
  lemma {:induction false} WorkingIsOut(s: System, name: string, n: Node)
    requires Inv(s) && s.history != [] && Named(s.history[|s.history| - 1].nodes, name) == Some(n)
    requires n.flags <= WORKING_FLAGS
    ensures OutAt(s.history, |s.history| - 1, name, Unavailable) && OutAt(s.history, |s.history| - 1, name, Draining)
  {
    PlainCases(n);
  }

  /** A start is refused exactly when as many runs as allowed are under way. */
  lemma {:induction false} AdmissionIsExact(s: System, r: nat)
    requires Inv(s) && Enabled(s, Load(r))
    ensures
      var k := s.runs[r].kind;
      Next(s, Load(r)).runs[r].pc == Skipped <==> |Where(s.runs, ActiveOf(k))| >= s.max
  {
  }

  /** A loaded start is admitted exactly when the count has not changed since. */
  lemma {:induction false} SwapIsExact(s: System, r: nat)
    requires Inv(s) && Enabled(s, Swap(r))
    ensures
      var run := s.runs[r];
      && (Next(s, Swap(r)).runs[r].pc == Admitted <==> |Where(s.runs, ActiveOf(run.kind))| == run.pc.current)
      && (Next(s, Swap(r)).runs[r].pc == Admitted || Next(s, Swap(r)).runs[r].pc == Starting)
  {
  }

  /** No step of any run decreases a counter. */
  lemma {:induction false} CountersNeverDecrease(s: System, step: Step, l: Series)
    requires Inv(s) && Enabled(s, step)
    ensures Count(s.view.metrics.gpu, l) <= Count(Next(s, step).view.metrics.gpu, l)
    ensures Count(s.view.metrics.fails, l) <= Count(Next(s, step).view.metrics.fails, l)
  {
    if step.Publish? {
      var run := s.runs[step.r];
      assert RunShaped(run, s.max);
      if !Panics(s.view, run.sequence, run.data.value, step.gpuAt) {
        CommittedGrows(s.view, run.sequence, run.data.value, step.at, step.gpuAt, l);
      }
    }
  }
}
