/**
 Concurrent resume and suspend calls on one NodeSetPowerState object. The API server is a
 versioned cell; every call gets the object, edits the active set, and updates it under the
 version it read, retrying on conflict. Each get, update and create is one atomic step.
 */
module PowerState {
  import opened Lists

  ghost predicate StrictlyIncreasing(list: seq<int>) {
    forall i, j :: 0 <= i < j < |list| ==> list[i] < list[j]
  }

  function Elems(list: seq<int>): set<int> {
    set x | x in list
  }

  datatype Request = Request(resume: bool, ordinals: seq<int>)

  /** The active set after one request. */
  function Updated(active: set<int>, req: Request): set<int> {
    if req.resume then active + Elems(req.ordinals) else active - Elems(req.ordinals)
  }

  ghost predicate IsMin(s: set<int>, m: int) {
    m in s && forall x :: x in s ==> m <= x
  }

  lemma {:induction false} HasMin(s: set<int>)
    requires s != {}
    ensures exists m :: IsMin(s, m)
  {
    var y := Pick(s);
    if s == {y} {
      assert IsMin(s, y);
    } else {
      HasMin(s - {y});
      var m :| IsMin(s - {y}, m);
      forall x | x in s ensures x >= y || x >= m {
        assert x == y || x in s - {y};
      }
      assert IsMin(s, if y < m then y else m);
    }
  }

  /** The elements of s in ascending order. */
  ghost function Ascending(s: set<int>): (list: seq<int>)
    ensures StrictlyIncreasing(list) && Elems(list) == s
  {
    if s == {} then []
    else
      HasMin(s);
      var m :| IsMin(s, m);
      var rest := Ascending(s - {m});
      ConsAscending(m, rest, s);
      [m] + rest
  }

  lemma {:induction false} ConsAscending(m: int, rest: seq<int>, s: set<int>)
    requires IsMin(s, m) && StrictlyIncreasing(rest) && Elems(rest) == s - {m}
    ensures StrictlyIncreasing([m] + rest) && Elems([m] + rest) == s
  {
    assert forall i :: 0 <= i < |rest| ==> rest[i] in Elems(rest);
    assert Elems([m] + rest) == {m} + Elems(rest);
  }

  /** A strictly increasing list is determined by its elements. */
  lemma {:induction false} AscendingIsUnique(a: seq<int>, b: seq<int>)
    requires StrictlyIncreasing(a) && StrictlyIncreasing(b) && Elems(a) == Elems(b)
    ensures a == b
  {
    assert |a| > 0 ==> a[0] in Elems(a) && a[0] in Elems(b);
    assert |b| > 0 ==> b[0] in Elems(b) && b[0] in Elems(a);
    if a != [] && b != [] {
      assert a[0] == b[0];
      assert Elems(a[1..]) == Elems(a) - {a[0]};
      assert Elems(b[1..]) == Elems(b) - {b[0]};
      AscendingIsUnique(a[1..], b[1..]);
    }
  }

  // ---------------------------------------------------------------------------
  // The edit and the status question
  // ---------------------------------------------------------------------------

  /** The body of the retry closure: apply the request to the list that was read, sorted. */
  method NewActiveNodes(active: seq<int>, ordinals: seq<int>, resume: bool) returns (list: seq<int>)
    ensures list == Ascending(Updated(Elems(active), Request(resume, ordinals)))
  {
    var current: set<int> := {};
    for i := 0 to |active|
      invariant current == Elems(active[..i])
    {
      current := current + {active[i]};
    }
    assert active[..|active|] == active;
    ghost var before := current;
    for i := 0 to |ordinals|
      invariant current == Updated(before, Request(resume, ordinals[..i]))
    {
      if resume {
        current := current + {ordinals[i]};
      } else {
        current := current - {ordinals[i]};
      }
    }
    assert ordinals[..|ordinals|] == ordinals;
    list := SortedKeys(current);
    AscendingIsUnique(list, Ascending(current));
  }

  /** The keys of the set, sorted. */
  method SortedKeys(keys: set<int>) returns (list: seq<int>)
    ensures StrictlyIncreasing(list) && Elems(list) == keys
  {
    list := [];
    var left := keys;
    while left != {}
      invariant StrictlyIncreasing(list)
      invariant Elems(list) !! left && Elems(list) + left == keys
      decreases left
    {
      ghost var some := Pick(left);
      var x :| x in left;
      left := left - {x};
      list := Inserted(list, x);
    }
  }

  method Inserted(list: seq<int>, x: int) returns (r: seq<int>)
    requires StrictlyIncreasing(list) && x !in list
    ensures StrictlyIncreasing(r) && Elems(r) == Elems(list) + {x}
  {
    var k := 0;
    while k < |list| && list[k] < x
      invariant 0 <= k <= |list| && forall i :: 0 <= i < k ==> list[i] < x
    {
      k := k + 1;
    }
    r := list[..k] + [x] + list[k..];
    InsertedInOrder(list, k, x);
    assert list == list[..k] + list[k..];
  }

  lemma {:induction false} InsertedInOrder(list: seq<int>, k: nat, x: int)
    requires StrictlyIncreasing(list) && k <= |list| && x !in list
    requires (forall i :: 0 <= i < k ==> list[i] < x) && (k < |list| ==> x <= list[k])
    ensures StrictlyIncreasing(list[..k] + [x] + list[k..])
  {
    assert k < |list| ==> list[k] != x;
  }

  /** All ordinals active, or none of them. */
  predicate Reflected(active: set<int>, ordinals: seq<int>, added: bool) {
    if added then Elems(ordinals) <= active else Elems(ordinals) !! active
  }

  method CheckNodesStatus(active: seq<int>, ordinals: seq<int>, added: bool) returns (done: bool)
    ensures done <==> Reflected(Elems(active), ordinals, added)
  {
    for i := 0 to |ordinals|
      invariant if added then Elems(ordinals[..i]) <= Elems(active) else Elems(ordinals[..i]) !! Elems(active)
    {
      var present := ordinals[i] in active;
      if present != added {
        assert ordinals[i] in Elems(ordinals);
        return false;
      }
      assert Elems(ordinals[..i + 1]) == Elems(ordinals[..i]) + {ordinals[i]};
    }
    assert ordinals[..|ordinals|] == ordinals;
    return true;
  }

  // ---------------------------------------------------------------------------
  // The protocol
  // ---------------------------------------------------------------------------

  /** The stored object: absent, or a list under a resource version. */
  datatype Cell = Missing | Stored(version: nat, active: seq<int>)

  /**
   A call: about to get; holding what it read; about to create because the get found nothing;
   returned. `found` says whether the last get found the object.
   */
  datatype Client =
    | Getting(req: Request)
    | Holding(req: Request, version: nat, active: seq<int>)
    | Creating(req: Request)
    | Succeeded(req: Request, found: bool)
    | Failed(req: Request)

  /** What changed the stored list, in order. */
  datatype Event = Created(list: seq<int>) | Applied(client: nat, req: Request) | Deleted

  datatype System = System(cell: Cell, next: nat, clients: map<nat, Client>, log: seq<Event>)

  datatype Step =
    | Arrive(c: nat, req: Request)
    | Get(c: nat)
    | Error(c: nat)                    // a request fails without effect and the call gives up
    | Update(c: nat, delivered: bool)  // the write lands; its answer may be lost
    | Conflict(c: nat, retry: bool)    // the version is stale; the call retries or gives up
    | Create(c: nat, delivered: bool)
    | Touch                            // another writer changes status or metadata
    | ForeignCreate(list: seq<int>)
    | ForeignDelete

  predicate Enabled(s: System, step: Step) {
    match step
    case Arrive(c, _) => c !in s.clients
    case Get(c) => c in s.clients && s.clients[c].Getting?
    case Error(c) => c in s.clients && !s.clients[c].Succeeded? && !s.clients[c].Failed?
    case Update(c, _) =>
      c in s.clients && s.clients[c].Holding? && s.cell.Stored? && s.cell.version == s.clients[c].version
    case Conflict(c, _) =>
      c in s.clients && s.clients[c].Holding? && s.cell.Stored? && s.cell.version != s.clients[c].version
    case Create(c, _) => c in s.clients && s.clients[c].Creating? && s.cell.Missing?
    case Touch => s.cell.Stored?
    case ForeignCreate(_) => s.cell.Missing?
    case ForeignDelete => s.cell.Stored?
  }

  ghost function Next(s: System, step: Step): System
    requires Enabled(s, step)
  {
    match step
    case Arrive(c, req) => s.(clients := s.clients[c := Getting(req)])
    case Get(c) =>
      var req := s.clients[c].req;
      s.(clients := s.clients[c :=
        if s.cell.Missing? then Creating(req) else Holding(req, s.cell.version, s.cell.active)])
    case Error(c) => s.(clients := s.clients[c := Failed(s.clients[c].req)])
    case Update(c, delivered) =>
      var h := s.clients[c];
      System(
        Stored(s.next, Ascending(Updated(Elems(h.active), h.req))), s.next + 1,
        s.clients[c := if delivered then Succeeded(h.req, true) else Failed(h.req)],
        s.log + [Applied(c, h.req)])
    case Conflict(c, retry) =>
      s.(clients := s.clients[c := if retry then Getting(s.clients[c].req) else Failed(s.clients[c].req)])
    case Create(c, delivered) =>
      var req := s.clients[c].req;
      System(
        Stored(s.next, []), s.next + 1,
        s.clients[c := if delivered then Succeeded(req, false) else Failed(req)],
        s.log + [Created([])])
    case Touch => s.(cell := s.cell.(version := s.next), next := s.next + 1)
    case ForeignCreate(list) => s.(cell := Stored(s.next, list), next := s.next + 1, log := s.log + [Created(list)])
    case ForeignDelete => s.(cell := Missing, log := s.log + [Deleted])
  }

  /** A holder's write to a stored object meets exactly one end: it lands, or it conflicts. */
  lemma {:induction false} LandsOrConflicts(s: System, c: nat, delivered: bool, retry: bool)
    requires c in s.clients && s.clients[c].Holding?
    ensures Enabled(s, Update(c, delivered)) || Enabled(s, Conflict(c, retry)) <==> s.cell.Stored?
    ensures !(Enabled(s, Update(c, delivered)) && Enabled(s, Conflict(c, retry)))
  {
  }

  datatype Outcome = Stuck | Reached(state: System)

  /** The state after the steps, or Stuck when one of them is not enabled where it is taken. */
  ghost function Run(s: System, steps: seq<Step>): Outcome {
    if steps == [] then Reached(s)
    else
      var before := Run(s, steps[..|steps| - 1]);
      if before.Reached? && Enabled(before.state, steps[|steps| - 1])
      then Reached(Next(before.state, steps[|steps| - 1])) else Stuck
  }

  /** A cluster with an object or without, and no call in progress. */
  predicate Start(s: System) {
    && s.clients == map[]
    && (s.cell.Missing? ==> s.log == [])
    && (s.cell.Stored? ==> s.cell.version < s.next && s.log == [Created(s.cell.active)])
  }

  // ---------------------------------------------------------------------------
  // Serialisability
  // ---------------------------------------------------------------------------

  datatype Content = Nothing | Active(nodes: set<int>)

  /** The sequential meaning of a log: requests applied one after the other. */
  function Replay(log: seq<Event>): Content {
    if log == [] then Nothing
    else
      var before := Replay(log[..|log| - 1]);
      match log[|log| - 1]
      case Created(list) => Active(Elems(list))
      case Deleted => Nothing
      case Applied(_, req) => if before.Active? then Active(Updated(before.nodes, req)) else before
  }

  /** How often a call's request is in the log. */
  function Commits(log: seq<Event>, c: nat): nat {
    if log == [] then 0
    else Commits(log[..|log| - 1], c) + if log[|log| - 1].Applied? && log[|log| - 1].client == c then 1 else 0
  }

  /** The stored list is the sequential result of the log. */
  predicate Serial(s: System) {
    Replay(s.log) == if s.cell.Missing? then Nothing else Active(Elems(s.cell.active))
  }

  /** A version stands for one content. */
  predicate Versions(s: System) {
    && (s.cell.Stored? ==> s.cell.version < s.next)
    && forall c :: c in s.clients && s.clients[c].Holding? ==>
         && s.clients[c].version < s.next
         && (s.cell.Stored? && s.cell.version == s.clients[c].version ==> s.cell.active == s.clients[c].active)
  }

  /** A call that returned success committed exactly once, unless its get found no object: then never. */
  ghost predicate ExactlyOnce(s: System) {
    forall c :: CommitBound(s, c)
  }

  predicate CommitBound(s: System, c: nat) {
    if c !in s.clients then Commits(s.log, c) == 0
    else match s.clients[c]
      case Succeeded(_, found) => Commits(s.log, c) == if found then 1 else 0
      case Failed(_) => Commits(s.log, c) <= 1
      case _ => Commits(s.log, c) == 0
  }

  /** What is logged for a call is that call's own request. */
  predicate OwnRequests(s: System) {
    forall i :: 0 <= i < |s.log| && s.log[i].Applied? ==>
      s.log[i].client in s.clients && s.log[i].req == s.clients[s.log[i].client].req
  }

  /** A list written by a request is strictly increasing. */
  ghost predicate Sorted(s: System) {
    s.log != [] && s.log[|s.log| - 1].Applied? ==> s.cell.Stored? && StrictlyIncreasing(s.cell.active)
  }

  ghost predicate Inv(s: System) {
    Serial(s) && Versions(s) && ExactlyOnce(s) && OwnRequests(s) && Sorted(s)
  }

  lemma {:induction false} LogGrows(log: seq<Event>, e: Event, c: nat)
    ensures Commits(log + [e], c) == Commits(log, c) + if e.Applied? && e.client == c then 1 else 0
    ensures Replay(log + [e]) ==
      match e
      case Created(list) => Active(Elems(list))
      case Deleted => Nothing
      case Applied(_, req) => if Replay(log).Active? then Active(Updated(Replay(log).nodes, req)) else Replay(log)
  {
    assert (log + [e])[..|log|] == log;
  }

  lemma {:induction false} StepKeepsSerial(s: System, step: Step)
    requires Enabled(s, step) && Serial(s) && Versions(s)
    ensures Serial(Next(s, step))
  {
    match step
    case Update(c, _) =>
      UpdateKeepsSerial(s.log, s.cell, s.clients[c], c);
    case Create(c, _) => LogGrows(s.log, Created([]), c);
    case ForeignCreate(list) => LogGrows(s.log, Created(list), 0);
    case ForeignDelete => LogGrows(s.log, Deleted, 0);
    case _ =>
  }

  /** An update made from the stored content is the next request of the log, applied. */
  lemma {:induction false} UpdateKeepsSerial(log: seq<Event>, cell: Cell, h: Client, c: nat)
    requires cell.Stored? && h.Holding? && h.active == cell.active && Replay(log) == Active(Elems(cell.active))
    ensures Replay(log + [Applied(c, h.req)]) == Active(Elems(Ascending(Updated(Elems(h.active), h.req))))
  {
    LogGrows(log, Applied(c, h.req), c);
  }

  lemma {:induction false} StepKeepsVersions(s: System, step: Step)
    requires Enabled(s, step) && Versions(s)
    ensures Versions(Next(s, step))
  {
  }

  lemma {:induction false} StepKeepsCounts(s: System, step: Step)
    requires Enabled(s, step) && ExactlyOnce(s)
    ensures ExactlyOnce(Next(s, step))
  {
    forall c ensures CommitBound(Next(s, step), c) {
      StepKeepsBound(s, step, c);
    }
  }

  lemma {:induction false} StepKeepsBound(s: System, step: Step, c: nat)
    requires Enabled(s, step) && CommitBound(s, c) && (step.Update? ==> CommitBound(s, step.c))
    ensures CommitBound(Next(s, step), c)
  {
    var s' := Next(s, step);
    if |s'.log| > |s.log| {
      LogGrows(s.log, s'.log[|s.log|], c);
    }
  }

  lemma {:induction false} StepKeepsRequests(s: System, step: Step)
    requires Enabled(s, step) && OwnRequests(s) && Sorted(s)
    ensures OwnRequests(Next(s, step)) && Sorted(Next(s, step))
  {
  }

  lemma {:induction false} StartInv(s: System)
    requires Start(s)
    ensures Inv(s)
  {
    if s.cell.Stored? {
      assert s.log == [] + [Created(s.cell.active)];
      forall c ensures CommitBound(s, c) {
        LogGrows([], Created(s.cell.active), c);
      }
      LogGrows([], Created(s.cell.active), 0);
    }
  }

  lemma {:induction false} StepKeepsInv(s: System, step: Step)
    requires Enabled(s, step) && Inv(s)
    ensures Inv(Next(s, step))
  {
    StepKeepsSerial(s, step);
    StepKeepsVersions(s, step);
    StepKeepsCounts(s, step);
    StepKeepsRequests(s, step);
  }

  /** Every reachable state, under any interleaving of calls, conflicts, losses and other writers. */
  lemma {:induction false} Serialisability(s: System, steps: seq<Step>)
    requires Start(s) && Run(s, steps).Reached?
    ensures Inv(Run(s, steps).state)
  {
    if steps == [] {
      StartInv(s);
    } else {
      var front, last := steps[..|steps| - 1], steps[|steps| - 1];
      Serialisability(s, front);
      StepKeepsInv(Run(s, front).state, last);
    }
  }

  // ---------------------------------------------------------------------------
  // When success means that the request was applied
  // ---------------------------------------------------------------------------

  /** Whether the object was stored at the call's last get. */
  ghost predicate FoundAtLastGet(s: System, steps: seq<Step>, c: nat) {
    steps != [] &&
    var front, last := steps[..|steps| - 1], steps[|steps| - 1];
    if last == Get(c) then Run(s, front).Reached? && Run(s, front).state.cell.Stored?
    else FoundAtLastGet(s, front, c)
  }

  /** What a call's state says of its last get. */
  predicate Remembers(client: Client, found: bool) {
    match client
    case Holding(_, _, _) => found
    case Creating(_) => !found
    case Succeeded(_, tag) => tag == found
    case _ => true
  }

  lemma {:induction false} CallsRemember(s: System, steps: seq<Step>, c: nat)
    requires Start(s) && Run(s, steps).Reached? && c in Run(s, steps).state.clients
    ensures Remembers(Run(s, steps).state.clients[c], FoundAtLastGet(s, steps, c))
  {
    if steps != [] {
      var front, last := steps[..|steps| - 1], steps[|steps| - 1];
      if c in Run(s, front).state.clients {
        CallsRemember(s, front, c);
      }
    }
  }

  /**
   The exact condition: a call that returned success committed its request, exactly once, if and
   only if the object was stored when the call last read it.
   */
  lemma {:induction false} SuccessMeansCommitted(s: System, steps: seq<Step>, c: nat)
    requires Start(s) && Run(s, steps).Reached?
    requires c in Run(s, steps).state.clients && Run(s, steps).state.clients[c].Succeeded?
    ensures Commits(Run(s, steps).state.log, c) == if FoundAtLastGet(s, steps, c) then 1 else 0
  {
    Serialisability(s, steps);
    CallsRemember(s, steps, c);
    assert CommitBound(Run(s, steps).state, c);
  }

  lemma {:induction false} StaysStored(s: System, steps: seq<Step>)
    requires Start(s) && s.cell.Stored? && ForeignDelete !in steps && Run(s, steps).Reached?
    ensures Run(s, steps).state.cell.Stored?
  {
    if steps != [] {
      StaysStored(s, steps[..|steps| - 1]);
    }
  }

  lemma {:induction false} AlwaysFound(s: System, steps: seq<Step>, c: nat)
    requires Start(s) && s.cell.Stored? && ForeignDelete !in steps && Run(s, steps).Reached?
    ensures Get(c) in steps ==> FoundAtLastGet(s, steps, c)
  {
    if steps != [] {
      var front, last := steps[..|steps| - 1], steps[|steps| - 1];
      AlwaysFound(s, front, c);
      StaysStored(s, front);
      assert steps == front + [last];
    }
  }

  /** A call past its get has made one. */
  lemma {:induction false} SuccessMeansGot(s: System, steps: seq<Step>, c: nat)
    requires Start(s) && Run(s, steps).Reached? && c in Run(s, steps).state.clients
    ensures var client := Run(s, steps).state.clients[c];
            client.Holding? || client.Creating? || client.Succeeded? ==> Get(c) in steps
  {
    if steps != [] {
      var front, last := steps[..|steps| - 1], steps[|steps| - 1];
      if c in Run(s, front).state.clients {
        SuccessMeansGot(s, front, c);
      }
      assert steps == front + [last];
    }
  }

  /** With the object present throughout, every successful call committed exactly once. */
  lemma {:induction false} PresentMeansExactlyOnce(s: System, steps: seq<Step>, c: nat)
    requires Start(s) && s.cell.Stored? && ForeignDelete !in steps && Run(s, steps).Reached?
    requires c in Run(s, steps).state.clients && Run(s, steps).state.clients[c].Succeeded?
    ensures Commits(Run(s, steps).state.log, c) == 1
  {
    SuccessMeansGot(s, steps, c);
    AlwaysFound(s, steps, c);
    SuccessMeansCommitted(s, steps, c);
  }

  /** From position n on, the log holds only requests that leave the ordinals as they are. */
  ghost predicate Stands(log: seq<Event>, n: nat, req: Request) {
    forall i :: n <= i < |log| ==> Compatible(log[i], req)
  }

  predicate Compatible(e: Event, req: Request) {
    e.Applied? && (e.req.resume == req.resume || Elems(e.req.ordinals) !! Elems(req.ordinals))
  }

  lemma {:induction false} ReflectedAfter(log: seq<Event>, k: nat, c: nat, req: Request)
    requires k < |log| && log[k] == Applied(c, req) && Stands(log, k + 1, req)
    ensures Replay(log).Active? ==> Reflected(Replay(log).nodes, req.ordinals, req.resume)
  {
    var n := |log| - 1;
    if k < n {
      assert Compatible(log[n], req);
      ReflectedAfter(log[..n], k, c, req);
    }
  }

  /**
   A committed request shows in the status answer of every reachable state until something later
   in the log undoes it: a contrary request on its ordinals, or a deletion or creation.
   */
  lemma {:induction false} StatusIsSerial(s: System, steps: seq<Step>, k: nat, c: nat, req: Request)
    requires Start(s) && Run(s, steps).Reached? && Run(s, steps).state.cell.Stored?
    requires k < |Run(s, steps).state.log| && Run(s, steps).state.log[k] == Applied(c, req)
    requires Stands(Run(s, steps).state.log, k + 1, req)
    ensures Replay(Run(s, steps).state.log) == Active(Elems(Run(s, steps).state.cell.active))
    ensures Reflected(Elems(Run(s, steps).state.cell.active), req.ordinals, req.resume)
  {
    Serialisability(s, steps);
    ReflectedAfter(Run(s, steps).state.log, k, c, req);
  }

  /**
   Success does not mean the request was applied: when the object is missing, the call
   creates it empty and returns. SuccessMeansCommitted gives the exact condition.
   */
  lemma {:induction false} RequestLostOnCreate(ordinal: int) returns (s: System, steps: seq<Step>)
    ensures Start(s) && Run(s, steps).Reached?
    ensures
      var t := Run(s, steps).state;
      0 in t.clients && t.clients[0] == Succeeded(Request(true, [ordinal]), false) && t.cell.Stored? &&
        ordinal !in t.cell.active
  {
    s := System(Missing, 0, map[], []);
    steps := [];
    assert Run(s, steps) == Reached(s);
    var s1 := Extend(s, steps, Arrive(0, Request(true, [ordinal])), s);
    steps := steps + [Arrive(0, Request(true, [ordinal]))];
    var s2 := Extend(s, steps, Get(0), s1);
    steps := steps + [Get(0)];
    var s3 := Extend(s, steps, Create(0, true), s2);
    steps := steps + [Create(0, true)];
  }

  lemma {:induction false} Extend(s: System, steps: seq<Step>, step: Step, t: System) returns (t': System)
    requires Run(s, steps) == Reached(t) && Enabled(t, step)
    ensures t' == Next(t, step) && Run(s, steps + [step]) == Reached(t')
  {
    t' := Next(t, step);
    assert (steps + [step])[..|steps|] == steps;
  }
}
