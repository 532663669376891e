/**
 The node metrics over a whole history of committed node lists. Folded() runs the incremental
 updates; the rest defines the same figures offline, from the history alone, and proves that
 the two agree for every history.
 */
module NodeHistory {
  import opened NodeMetrics
  import opened Strconv

  /** One commit: the list, the time used for episodes and the time used for GPU seconds. */
  datatype Commit = Commit(nodes: seq<Node>, at: int, gpuAt: int)

  ghost predicate Unique(h: seq<Commit>) {
    forall i :: 0 <= i < |h| ==> UniqueNames(h[i].nodes)
  }

  /** A commit, the list it replaces and the time up to which GPU seconds were counted. */
  datatype Turn = Turn(before: seq<Node>, since: int, commit: Commit)

  function ListBefore(h: seq<Commit>, n: nat): seq<Node>
    requires n <= |h|
  {
    if n == 0 then [] else h[n - 1].nodes
  }

  function GpuBefore(created: int, h: seq<Commit>, n: nat): int
    requires n <= |h|
  {
    if n == 0 then created else h[n - 1].gpuAt
  }

  function TurnAt(created: int, h: seq<Commit>, i: nat): Turn
    requires i < |h|
  {
    Turn(ListBefore(h, i), GpuBefore(created, h, i), h[i])
  }

  /** A figure after the first n commits. */
  function Folded<S>(created: int, h: seq<Commit>, n: nat, init: S, step: (S, Turn) -> S): S
    requires n <= |h|
  {
    if n == 0 then init else step(Folded(created, h, n - 1, init, step), TurnAt(created, h, n - 1))
  }

  /** Committing once more is one more step. */
  lemma {:induction false} FoldedNext<S>(created: int, h: seq<Commit>, c: Commit, n: nat, init: S, step: (S, Turn) -> S)
    requires n <= |h|
    ensures Folded(created, h + [c], n, init, step) == Folded(created, h, n, init, step)
    ensures n == |h| ==>
              Folded(created, h + [c], n + 1, init, step) ==
              step(Folded(created, h, n, init, step), Turn(ListBefore(h, n), GpuBefore(created, h, n), c))
  {
    if n > 0 {
      FoldedNext(created, h, c, n - 1, init, step);
    }
  }

  function Sum(n: nat, gain: int -> int): int {
    if n == 0 then 0 else Sum(n - 1, gain) + gain(n - 1)
  }

  /** A measure to which every commit adds its own gain ends as the sum of the gains. */
  lemma {:induction false} Accumulates<S(!new)>(created: int, h: seq<Commit>, n: nat, init: S, step: (S, Turn) -> S,
      measure: S -> int, gain: int -> int)
    requires n <= |h|
    requires forall s: S, i: nat :: i < |h| ==> measure(step(s, TurnAt(created, h, i))) == measure(s) + gain(i)
    ensures measure(Folded(created, h, n, init, step)) == measure(init) + Sum(n, gain)
  {
    if n > 0 {
      Accumulates(created, h, n - 1, init, step, measure, gain);
    }
  }

  // The figures a commit updates.

  const NO_EPISODES := Episodes(map[], map[])

  function FailStep(): (Counters, Turn) -> Counters {
    (m: Counters, t: Turn) => FailsAfter(m, t.before, t.commit.nodes)
  }

  function GpuStep(): (Counters, Turn) -> Counters {
    (m: Counters, t: Turn) => GpuSecondsAfter(m, t.commit.nodes, t.commit.gpuAt - t.since)
  }

  function EpisodeStep(checker: Node -> bool): (Episodes, Turn) -> Episodes {
    (e: Episodes, t: Turn) => EpisodesAfter(e, t.before, t.commit.nodes, t.commit.at, checker)
  }

  // ---------------------------------------------------------------------------
  // Episodes
  // ---------------------------------------------------------------------------

  predicate InAt(h: seq<Commit>, i: int, name: string, checker: Node -> bool) {
    0 <= i < |h| && In(h[i].nodes, name, checker)
  }

  /** Listed, and not in the state. */
  predicate OutAt(h: seq<Commit>, i: int, name: string, checker: Node -> bool) {
    0 <= i < |h| && Named(h[i].nodes, name).Some? && !In(h[i].nodes, name, checker)
  }

  /** A maximal run of commits in the state from first on, closed by a commit listing the node outside it. */
  ghost predicate IsEpisode(h: seq<Commit>, first: int, end: int, name: string, checker: Node -> bool) {
    && first < end
    && (forall k :: first <= k < end ==> InAt(h, k, name, checker))
    && !InAt(h, first - 1, name, checker)
    && OutAt(h, end, name, checker)
  }

  /** Where the run of commits in the state that includes i began. */
  function RunStart(h: seq<Commit>, i: nat, name: string, checker: Node -> bool): (r: nat)
    requires InAt(h, i, name, checker)
    ensures r <= i && !InAt(h, r - 1, name, checker)
    ensures forall k :: r <= k <= i ==> InAt(h, k, name, checker)
  {
    if InAt(h, i - 1, name, checker) then RunStart(h, i - 1, name, checker) else i
  }

  datatype Span = Span(first: nat, end: nat)

  /** The episodes closed by the first n commits, in order. */
  function ClosedSpans(h: seq<Commit>, n: nat, name: string, checker: Node -> bool): seq<Span> {
    if n < 2 then []
    else
      var front := ClosedSpans(h, n - 1, name, checker);
      if InAt(h, n - 2, name, checker) && OutAt(h, n - 1, name, checker)
      then front + [Span(RunStart(h, n - 2, name, checker), n - 1)] else front
  }

  function At(h: seq<Commit>, i: nat): int {
    if i < |h| then h[i].at else 0
  }

  function Lengths(h: seq<Commit>, spans: seq<Span>): seq<int> {
    if spans == [] then []
    else
      var s := spans[|spans| - 1];
      Lengths(h, spans[..|spans| - 1]) + [At(h, s.end) - At(h, s.first)]
  }

  /** Every closed episode is in the list, and nothing else is. */
  lemma {:induction false} ClosedSpansAreEpisodes(h: seq<Commit>, n: nat, name: string, checker: Node -> bool, s: Span)
    requires n <= |h|
    ensures s in ClosedSpans(h, n, name, checker) <==> s.end < n && IsEpisode(h, s.first, s.end, name, checker)
  {
    if n >= 2 {
      ClosedSpansAreEpisodes(h, n - 1, name, checker, s);
      if s.end == n - 1 && IsEpisode(h, s.first, s.end, name, checker) {
        var r := RunStart(h, n - 2, name, checker);
        assert r < s.first ==> InAt(h, s.first - 1, name, checker);
        assert s.first < r ==> InAt(h, r - 1, name, checker);
      }
    }
  }

  ghost predicate InOrder(spans: seq<Span>) {
    forall a, b :: 0 <= a < b < |spans| ==> spans[a].end < spans[b].first
  }

  /** Each episode is listed once: the spans are disjoint and in order. */
  lemma {:induction false} ClosedSpansInOrder(h: seq<Commit>, n: nat, name: string, checker: Node -> bool)
    requires n <= |h|
    ensures InOrder(ClosedSpans(h, n, name, checker))
  {
    if n >= 2 {
      ClosedSpansInOrder(h, n - 1, name, checker);
      if InAt(h, n - 2, name, checker) && OutAt(h, n - 1, name, checker) {
        LaterSpan(h, n - 1, name, checker, ClosedSpans(h, n - 1, name, checker), RunStart(h, n - 2, name, checker));
      }
    }
  }

  lemma {:induction false} LaterSpan(h: seq<Commit>, n: nat, name: string, checker: Node -> bool, front: seq<Span>,
      r: nat)
    requires 0 < n <= |h| && front == ClosedSpans(h, n, name, checker) && InOrder(front)
    requires r < n && forall k :: r <= k < n ==> InAt(h, k, name, checker)
    ensures InOrder(front + [Span(r, n)])
  {
    forall a | 0 <= a < |front| ensures front[a].end < r {
      assert front[a] in front;
      ClosedSpansAreEpisodes(h, n, name, checker, front[a]);
      assert !InAt(h, front[a].end, name, checker);
    }
  }

  /** The last of the first n commits that lists the node in the state, or -1. */
  function LastIn(h: seq<Commit>, n: nat, name: string, checker: Node -> bool): (j: int)
    ensures -1 <= j < n && (j >= 0 ==> InAt(h, j, name, checker))
    ensures forall k :: j < k < n ==> !InAt(h, k, name, checker)
  {
    if n == 0 then -1 else if InAt(h, n - 1, name, checker) then n - 1 else LastIn(h, n - 1, name, checker)
  }

  /**
   The start on record after the first n commits: that of the last run in the state, unless the
   very next commit listed the node outside it. A node that vanished keeps its start.
   */
  function StartOf(h: seq<Commit>, n: nat, name: string, checker: Node -> bool): Option<int> {
    var j := LastIn(h, n, name, checker);
    if j < 0 || (j + 1 < n && OutAt(h, j + 1, name, checker)) then None
    else Some(At(h, RunStart(h, j, name, checker)))
  }

  /** What a node's track says of the first n commits. */
  ghost predicate Tells(t: Track, h: seq<Commit>, n: nat, name: string, checker: Node -> bool) {
    t.observed == Lengths(h, ClosedSpans(h, n, name, checker)) && t.start == StartOf(h, n, name, checker)
  }

  /** One more commit adds at most one length. */
  lemma {:induction false} LengthsNext(h: seq<Commit>, n: nat, name: string, checker: Node -> bool)
    requires n < |h|
    ensures
      var was, now := InAt(h, n - 1, name, checker), OutAt(h, n, name, checker);
      Lengths(h, ClosedSpans(h, n + 1, name, checker)) ==
      Lengths(h, ClosedSpans(h, n, name, checker)) +
      if was && now then [At(h, n) - At(h, RunStart(h, n - 1, name, checker))] else []
  {
    if InAt(h, n - 1, name, checker) && OutAt(h, n, name, checker) {
      var spans := ClosedSpans(h, n + 1, name, checker);
      assert spans[..|spans| - 1] == ClosedSpans(h, n, name, checker);
    }
  }

  /** One more commit starts, keeps or drops the recorded start. */
  lemma {:induction false} StartNext(h: seq<Commit>, n: nat, name: string, checker: Node -> bool)
    requires n < |h|
    ensures InAt(h, n - 1, name, checker) ==>
      StartOf(h, n, name, checker) == Some(At(h, RunStart(h, n - 1, name, checker)))
    ensures StartOf(h, n + 1, name, checker) ==
            if InAt(h, n, name, checker) then
              if InAt(h, n - 1, name, checker) then StartOf(h, n, name, checker) else Some(At(h, n))
            else if InAt(h, n - 1, name, checker) && OutAt(h, n, name, checker) then None
            else StartOf(h, n, name, checker)
  {
    if InAt(h, n - 1, name, checker) {
      assert LastIn(h, n, name, checker) == n - 1;
    }
    if InAt(h, n, name, checker) {
      assert LastIn(h, n + 1, name, checker) == n;
    } else {
      assert LastIn(h, n + 1, name, checker) == LastIn(h, n, name, checker);
    }
  }

  lemma {:induction false} MovedTells(t: Track, h: seq<Commit>, n: nat, name: string, checker: Node -> bool)
    requires n < |h| && Tells(t, h, n, name, checker)
    ensures Named(h[n].nodes, name).None? ==> Tells(t, h, n + 1, name, checker)
    ensures Named(h[n].nodes, name).Some? ==>
              var moved := Moved(t, InAt(h, n - 1, name, checker), InAt(h, n, name, checker), At(h, n));
              Tells(moved, h, n + 1, name, checker)
  {
    LengthsNext(h, n, name, checker);
    StartNext(h, n, name, checker);
  }

  /**
   After every history, the observations of a node are exactly the lengths of its closed
   episodes, in order, and its recorded start is that of its last run in the state until the
   commit right after that run lists it as recovered.
   */
  lemma {:induction false} EpisodeRefinement(created: int, h: seq<Commit>, n: nat, name: string, checker: Node -> bool)
    requires Unique(h) && n <= |h|
    ensures Tells(TrackOf(Folded(created, h, n, NO_EPISODES, EpisodeStep(checker)), name), h, n, name, checker)
  {
    if n > 0 {
      EpisodeRefinement(created, h, n - 1, name, checker);
      var e, c := Folded(created, h, n - 1, NO_EPISODES, EpisodeStep(checker)), h[n - 1];
      EpisodesMove(e, ListBefore(h, n - 1), c.nodes, c.at, checker, name);
      MovedTells(TrackOf(e, name), h, n - 1, name, checker);
    }
  }

  // ---------------------------------------------------------------------------
  // Failures
  // ---------------------------------------------------------------------------

  predicate EdgeAt(h: seq<Commit>, i: int, l: Series) {
    1 <= i < |h| && FailureEdge(h[i - 1].nodes, h[i].nodes, l)
  }

  function EdgesOf(h: seq<Commit>, l: Series): int -> bool {
    i => EdgeAt(h, i, l)
  }

  function Positions(n: nat, p: int -> bool): set<int> {
    set i | 0 <= i < n && p(i)
  }

  function Indicator(p: int -> bool): int -> int {
    i => if p(i) then 1 else 0
  }

  function CountOf(l: Series): Counters -> int {
    m => Count(m, l)
  }

  lemma {:induction false} PositionsNext(n: nat, p: int -> bool)
    ensures |Positions(n + 1, p)| == |Positions(n, p)| + if p(n) then 1 else 0
  {
    var s, t := Positions(n, p), Positions(n + 1, p);
    if p(n) {
      assert t == s + {n};
    } else {
      assert t == s;
    }
  }

  lemma {:induction false} SumCounts(n: nat, p: int -> bool)
    ensures Sum(n, Indicator(p)) == |Positions(n, p)|
  {
    if n == 0 {
      assert Positions(0, p) == {};
    } else {
      SumCounts(n - 1, p);
      PositionsNext(n - 1, p);
    }
  }

  /** The failure counter counts exactly the failure edges between consecutive commits. */
  lemma {:induction false} FailureRefinement(created: int, h: seq<Commit>, n: nat, l: Series)
    requires Unique(h) && n <= |h|
    ensures Count(Folded(created, h, n, map[], FailStep()), l) == |Positions(n, EdgesOf(h, l))|
  {
    forall m: Counters, i: nat | i < |h|
      ensures CountOf(l)(FailStep()(m, TurnAt(created, h, i))) == CountOf(l)(m) + Indicator(EdgesOf(h, l))(i)
    {
      FailsCountEdges(m, ListBefore(h, i), h[i].nodes, l);
    }
    Accumulates(created, h, n, map[], FailStep(), CountOf(l), Indicator(EdgesOf(h, l)));
    SumCounts(n, EdgesOf(h, l));
  }

  // ---------------------------------------------------------------------------
  // GPU seconds
  // ---------------------------------------------------------------------------

  ghost function AnySeries(m: Counters): (l: Series)
    requires m != map[]
    ensures l in m
  {
    var l :| l in m;
    l
  }

  /** Total of one node over all its label sets. */
  ghost function TotalFor(m: Counters, name: string): int
    decreases |m|
  {
    if m == map[] then 0
    else
      var l := AnySeries(m);
      (if l.name == name then m[l] else 0) + TotalFor(m - {l}, name)
  }

  lemma {:induction false} TotalForSplits(m: Counters, l: Series, name: string)
    requires l in m
    ensures TotalFor(m, name) == (if l.name == name then m[l] else 0) + TotalFor(m - {l}, name)
    decreases |m|
  {
    var k := AnySeries(m);
    if k != l {
      TotalForSplits(m - {k}, l, name);
      TotalForSplits(m - {l}, k, name);
      assert m - {k} - {l} == m - {l} - {k};
    }
  }

  lemma {:induction false} TotalIncremented(m: Counters, l: Series, amount: int, name: string)
    ensures TotalFor(Incremented(m, l, amount), name) == TotalFor(m, name) + if l.name == name then amount else 0
  {
    var more := Incremented(m, l, amount);
    TotalForSplits(more, l, name);
    assert more - {l} == m - {l};
    if l in m {
      TotalForSplits(m, l, name);
    } else {
      assert m - {l} == m;
    }
  }

  /** The GPU count charged to a node by one list. */
  function Charged(nodes: seq<Node>, name: string): int {
    var n := Named(nodes, name);
    if n.Some? && n.value.gpus.Some? then n.value.gpus.value else 0
  }

  lemma {:induction false} TotalAfterList(gpu: Counters, now: seq<Node>, interval: int, name: string)
    requires UniqueNames(now)
    ensures TotalFor(GpuSecondsAfter(gpu, now, interval), name) == TotalFor(gpu, name) + interval * Charged(now, name)
  {
    if now != [] {
      var front, n := now[..|now| - 1], now[|now| - 1];
      TotalAfterList(gpu, front, interval, name);
      NamedIsMember(front, n.name);
      if n.gpus.Some? {
        TotalIncremented(GpuSecondsAfter(gpu, front, interval), SeriesOf(n, ""), interval * n.gpus.value, name);
      }
    }
  }

  ghost function TotalOf(name: string): Counters -> int {
    m => TotalFor(m, name)
  }

  function Interval(created: int, h: seq<Commit>, i: int): int {
    if 0 <= i < |h| then h[i].gpuAt - GpuBefore(created, h, i) else 0
  }

  function ChargedAt(h: seq<Commit>, i: int, name: string): int {
    if 0 <= i < |h| then Charged(h[i].nodes, name) else 0
  }

  function Rate(h: seq<Commit>, name: string): int -> int {
    i => ChargedAt(h, i, name)
  }

  /** What each commit charges at a given rate. */
  function GpuTime(created: int, h: seq<Commit>, rate: int -> int): int -> int {
    i => Interval(created, h, i) * rate(i)
  }

  /** A node's total over all its label sets is the sum of what the commits charged it. */
  lemma {:induction false} GpuSecondsTotal(created: int, h: seq<Commit>, n: nat, name: string)
    requires Unique(h) && n <= |h|
    ensures TotalFor(Folded(created, h, n, map[], GpuStep()), name) == Sum(n, GpuTime(created, h, Rate(h, name)))
  {
    forall m: Counters, i: nat | i < |h|
      ensures TotalOf(name)(GpuStep()(m, TurnAt(created, h, i))) ==
        TotalOf(name)(m) + GpuTime(created, h, Rate(h, name))(i)
    {
      TotalAfterList(m, h[i].nodes, Interval(created, h, i), name);
    }
    Accumulates(created, h, n, map[], GpuStep(), TotalOf(name), GpuTime(created, h, Rate(h, name)));
  }

  /**
   Conservation: a node charged g GPUs by every commit has g times the whole time since the
   collector was created, over all its label sets, whatever states it went through.
   */
  lemma {:induction false} GpuSecondsConserved(created: int, h: seq<Commit>, n: nat, name: string, g: int)
    requires Unique(h) && n <= |h|
    requires forall i :: 0 <= i < n ==> ChargedAt(h, i, name) == g
    ensures TotalFor(Folded(created, h, n, map[], GpuStep()), name) == g * (GpuBefore(created, h, n) - created)
  {
    GpuSecondsTotal(created, h, n, name);
    IntervalsTelescope(created, h, n, Rate(h, name), g);
  }

  lemma {:induction false} IntervalsTelescope(created: int, h: seq<Commit>, n: nat, rate: int -> int, g: int)
    requires n <= |h|
    requires forall i :: 0 <= i < n ==> rate(i) == g
    ensures Sum(n, GpuTime(created, h, rate)) == g * (GpuBefore(created, h, n) - created)
  {
    if n > 0 {
      IntervalsTelescope(created, h, n - 1, rate, g);
      assert rate(n - 1) == g;
      Distribute(h[n - 1].gpuAt, GpuBefore(created, h, n - 1), created, g);
    }
  }

  lemma Distribute(a: int, b: int, c: int, g: int)
    ensures g * (a - b) + g * (b - c) == g * (a - c)
  {
  }
}
