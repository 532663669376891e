/**
 The worker's handoff of its pod to a worker operation: a bounded retry loop around a get and
 a compare-and-set JSON Patch, while a controller may rewrite the pod's labels at any moment,
 any request or reply may be lost, and a patch given up for lost may still land later. A PATCH
 is applied atomically (section 2 of RFC 5789).
 */
module Handoff {

  type Labels = map<string, string>

  const ID := "slurm.nebius.ai/worker-operation-id"
  const PHASE := "slurm.nebius.ai/worker-operation-phase"
  const STOPPING := "stopping"
  const READY := "ready"
  const MAX_ATTEMPTS := 5

  /** A label's value, or the empty string. */
  function Label(labels: Labels, key: string): string {
    if key in labels then labels[key] else ""
  }

  // ---------------------------------------------------------------------------
  // JSON Patch
  // ---------------------------------------------------------------------------

  /** The two operations used, on labels: sections 4.6 and 4.3 of RFC 6902. */
  datatype Op = Test(key: string, value: string) | Replace(key: string, value: string)

  datatype Patched = Rejected | Accepted(labels: Labels)

  /** Operations in order; one failure rejects the whole document (section 5 of RFC 6902). */
  function ApplyPatch(labels: Labels, ops: seq<Op>): Patched {
    if ops == [] then Accepted(labels)
    else
      match ops[0]
      case Test(key, value) =>
        if key in labels && labels[key] == value then ApplyPatch(labels, ops[1..]) else Rejected
      case Replace(key, value) =>
        if key in labels then ApplyPatch(labels[key := value], ops[1..]) else Rejected
  }

  function ReadyPatch(id: string): seq<Op> {
    [Test(ID, id), Test(PHASE, STOPPING), Replace(PHASE, READY)]
  }

  /** The labels in the given phase of the given operation. */
  predicate In(labels: Labels, id: string, phase: string) {
    ID in labels && labels[ID] == id && PHASE in labels && labels[PHASE] == phase
  }

  /** The patch is a compare-and-set from stopping to ready of that one operation, and nothing else. */
  lemma {:induction false} ReadyPatchMeaning(labels: Labels, id: string)
    ensures ApplyPatch(labels, ReadyPatch(id)) ==
            if In(labels, id, STOPPING) then Accepted(labels[PHASE := READY]) else Rejected
  {
    var ops := ReadyPatch(id);
    assert ops[1..] == [Test(PHASE, STOPPING), Replace(PHASE, READY)];
    assert ops[1..][1..] == [Replace(PHASE, READY)];
    assert ApplyPatch(labels[PHASE := READY], ops[1..][1..][1..]) == Accepted(labels[PHASE := READY]);
    assert In(labels, id, STOPPING) ==>
      ApplyPatch(labels, ops[1..][1..]) == Accepted(labels[PHASE := READY]);
    assert In(labels, id, STOPPING) ==> ApplyPatch(labels, ops[1..]) == ApplyPatch(labels, ops[1..][1..]);
  }

  // ---------------------------------------------------------------------------
  // The pod and its environment
  // ---------------------------------------------------------------------------

  /** What the network does to one request; a postponed patch lands later, or never. */
  datatype Fate = Delivered | RequestLost | ReplyLost | Postponed

  /** What happens to the pod meanwhile: the controller writes, or the oldest postponed patch lands. */
  datatype Event = Rewritten(labels: Labels) | Lands

  /** What happens around one request: events before it, and its fate. */
  datatype Turn = Turn(events: seq<Event>, fate: Fate)

  datatype Reply = Failed | Operation(id: string, phase: string)

  /** A value the labels had, and whether the worker wrote it. */
  datatype Entry = Entry(labels: Labels, byWorker: bool)

  /** All postponed patches are for the one operation. */
  predicate AllFor(pending: seq<string>, id: string) {
    forall i :: 0 <= i < |pending| ==> pending[i] == id
  }

  /** No entry from n on was written by the worker. */
  ghost predicate NoWrites(trace: seq<Entry>, n: nat) {
    forall i :: n <= i < |trace| ==> !trace[i].byWorker
  }

  /** Every entry from n on written by the worker turns stopping into ready for this operation. */
  ghost predicate OnlyHandoffs(trace: seq<Entry>, n: nat, id: string) {
    forall i :: n <= i < |trace| && trace[i].byWorker ==>
      && i > 0 && In(trace[i - 1].labels, id, STOPPING)
      && trace[i].labels == trace[i - 1].labels[PHASE := READY]
  }

  /** Nothing was written, or exactly the handoff of this operation. */
  ghost predicate AtMostHandoff(before: seq<Entry>, trace: seq<Entry>, id: string) {
    || trace == before
    || (before != [] && In(before[|before| - 1].labels, id, STOPPING)
        && trace == before + [Entry(before[|before| - 1].labels[PHASE := READY], true)])
  }

  /** The controller never writes. */
  predicate Quiet(future: seq<Turn>) {
    forall i :: 0 <= i < |future| ==> QuietEvents(future[i].events)
  }

  predicate QuietEvents(events: seq<Event>) {
    forall i :: 0 <= i < |events| ==> events[i].Lands?
  }

  /** The number of requests that do not go through. */
  function Faults(future: seq<Turn>): nat {
    if future == [] then 0 else (if future[0].fate == Delivered then 0 else 1) + Faults(future[1..])
  }

  predicate Postpones(future: seq<Turn>) {
    exists i :: 0 <= i < |future| && future[i].fate == Postponed
  }

  /**
   How many attempts the environment can still spoil: one with each request that does not go
   through, and one with a postponed patch that lands between the get and the patch.
   */
  function Debt(future: seq<Turn>, pending: seq<string>, labels: Labels): nat {
    Faults(future) + if Label(labels, PHASE) == STOPPING && (pending != [] || Postpones(future)) then 1 else 0
  }

  lemma {:induction false} FaultsCounted(future: seq<Turn>, fates: seq<Fate>)
    requires |fates| == |future| && forall i :: 0 <= i < |future| ==> fates[i] == future[i].fate
    ensures Faults(future) == |future| - multiset(fates)[Delivered]
  {
    if future != [] {
      FaultsCounted(future[1..], fates[1..]);
      assert fates == [fates[0]] + fates[1..];
      assert multiset(fates) == multiset{fates[0]} + multiset(fates[1..]);
    }
  }

  /** The debt when nothing is under way yet: the failing requests, and one more if one of them may come late. */
  lemma {:induction false} DebtAtStart(future: seq<Turn>, labels: Labels, fates: seq<Fate>)
    requires |fates| == |future| && forall i :: 0 <= i < |future| ==> fates[i] == future[i].fate
    ensures Debt(future, [], labels) <= |future| - multiset(fates)[Delivered] + if Postponed in fates then 1 else 0
  {
    FaultsCounted(future, fates);
    if Postpones(future) {
      var i :| 0 <= i < |future| && future[i].fate == Postponed;
      assert fates[i] == Postponed;
    }
  }

  /** What is left of the environment after one request. */
  function Rest(future: seq<Turn>): seq<Turn> {
    if future == [] then [] else future[1..]
  }

  function NextFate(future: seq<Turn>): Fate {
    if future == [] then Delivered else future[0].fate
  }

  /** None of the next n requests goes through. */
  predicate Starved(future: seq<Turn>, n: nat) {
    n <= |future| && forall i :: 0 <= i < n ==> future[i].fate != Delivered
  }

  /** At most a postponed patch of the operation landed. */
  predicate AtMostLanded(l0: Labels, p0: seq<string>, l1: Labels, p1: seq<string>, id: string) {
    && |p1| <= |p0|
    && (l1 == l0 || (p0 != [] && In(l0, id, STOPPING) && l1 == l0[PHASE := READY]))
  }

  lemma {:induction false} RestPostpones(future: seq<Turn>)
    ensures Postpones(Rest(future)) ==> Postpones(future)
    ensures NextFate(future) == Postponed ==> Postpones(future)
  {
    if Postpones(Rest(future)) {
      var i :| 0 <= i < |Rest(future)| && Rest(future)[i].fate == Postponed;
      assert future[i + 1].fate == Postponed;
    }
  }

  /** A request takes the debt down by one if it does not go through, and never up. */
  lemma {:induction false} DebtFalls(future: seq<Turn>, p0: seq<string>, l0: Labels, p1: seq<string>, l1: Labels,
      id: string)
    requires AtMostLanded(l0, p0, l1, p1, id)
    ensures Debt(Rest(future), p1, l1) + (if NextFate(future) == Delivered then 0 else 1) <= Debt(future, p0, l0)
    ensures l1 != l0 ==> Debt(Rest(future), p1, l1) < Debt(future, p0, l0)
  {
    RestPostpones(future);
  }

  /** How a patch sent while the pod was stopping ends, and whether the worker hears of its success. */
  ghost predicate PatchEnds(future: seq<Turn>, l0: Labels, p1: seq<string>, l1: Labels, p2: seq<string>, l2: Labels,
      id: string, ok: bool) {
    match NextFate(future)
    case RequestLost => p2 == p1 && l2 == l1 && !ok
    case Postponed => p2 == p1 + [id] && l2 == l1 && !ok
    case _ => p2 == p1 && l2 == l0[PHASE := READY] && (ok <==> NextFate(future) == Delivered && l1 == l0)
  }

  /** Every patch that the worker does not hear of takes the debt down. */
  lemma {:induction false} PatchDebtFalls(future: seq<Turn>, p0: seq<string>, l0: Labels, p1: seq<string>,
      l1: Labels, p2: seq<string>, l2: Labels, id: string, ok: bool)
    requires AtMostLanded(l0, p0, l1, p1, id) && In(l0, id, STOPPING)
    requires PatchEnds(future, l0, p1, l1, p2, l2, id, ok)
    ensures l2 == l0[PHASE := READY] || (l2 == l0 && !ok)
    ensures !ok ==> Debt(Rest(future), p2, l2) < Debt(future, p0, l0)
  {
    RestPostpones(future);
    DebtFalls(future, p0, l0, p1, l1, id);
  }

  /**
   The remote pod. `future` is an arbitrary environment; once it is used up, nothing interferes.
   `pending` holds the operation ids of postponed patches, `trace` every value the labels had,
   `seen` the operation ids that reached the worker. Requests of earlier processes that are still
   under way count as the controller's.
   */
  class Pod {
    var labels: Labels
    var pending: seq<string>
    var future: seq<Turn>
    ghost var trace: seq<Entry>
    ghost var seen: seq<string>

    ghost predicate Valid()
      reads this
    {
      trace != [] && trace[|trace| - 1].labels == labels
    }

    constructor (labels: Labels, future: seq<Turn>)
      ensures Valid() && this.labels == labels && this.future == future
      ensures trace == [Entry(labels, false)] && seen == [] && pending == []
    {
      this.labels := labels;
      this.future := future;
      pending, trace, seen := [], [Entry(labels, false)], [];
    }

    /** The server applies a patch, or rejects it and keeps everything. */
    method Apply(id: string) returns (accepted: bool)
      requires Valid()
      modifies `labels, `trace
      ensures Valid() && accepted == In(old(labels), id, STOPPING)
      ensures trace == if accepted then old(trace) + [Entry(old(labels)[PHASE := READY], true)] else old(trace)
    {
      ReadyPatchMeaning(labels, id);
      var patched := ApplyPatch(labels, ReadyPatch(id));
      accepted := patched.Accepted?;
      if accepted {
        trace := trace + [Entry(patched.labels, true)];
        labels := patched.labels;
      }
    }

    /** One event; `id` is the operation of all postponed patches. */
    method Happens(event: Event, ghost id: string)
      requires Valid() && AllFor(pending, id)
      modifies `labels, `trace, `pending
      ensures Valid() && AllFor(pending, id) && (old(pending) == [] ==> pending == [])
      ensures old(trace) <= trace && OnlyHandoffs(trace, |old(trace)|, id)
      ensures old(pending) == [] ==> NoWrites(trace, |old(trace)|)
      ensures event.Lands? ==> AtMostHandoff(old(trace), trace, id)
      ensures |pending| <= |old(pending)|
    {
      match event
      case Rewritten(written) =>
        labels := written;
        trace := trace + [Entry(written, false)];
      case Lands =>
        if pending != [] {
          var landing := pending[0];
          pending := pending[1..];
          var accepted := Apply(landing);
        }
    }

    /** Events happen, then the next request meets its fate. */
    method NextTurn(ghost id: string) returns (fate: Fate)
      requires Valid() && AllFor(pending, id)
      modifies `labels, `trace, `pending, `future
      ensures Valid() && AllFor(pending, id) && (old(pending) == [] ==> pending == [])
      ensures old(trace) <= trace && OnlyHandoffs(trace, |old(trace)|, id)
      ensures old(pending) == [] ==> NoWrites(trace, |old(trace)|)
      ensures Quiet(old(future)) ==> Quiet(future) && AtMostHandoff(old(trace), trace, id)
      ensures future == Rest(old(future)) && fate == NextFate(old(future))
      ensures Quiet(old(future)) ==> AtMostLanded(old(labels), old(pending), labels, pending, id)
    {
      if future == [] {
        return Delivered;
      }
      var turn := future[0];
      future := future[1..];
      fate := turn.fate;
      for i := 0 to |turn.events|
        invariant future == old(future)[1..]
        invariant Valid() && AllFor(pending, id) && (old(pending) == [] ==> pending == [])
        invariant old(trace) <= trace && OnlyHandoffs(trace, |old(trace)|, id)
        invariant old(pending) == [] ==> NoWrites(trace, |old(trace)|)
        invariant QuietEvents(turn.events) ==> AtMostHandoff(old(trace), trace, id)
        invariant |pending| <= |old(pending)|
      {
        ghost var sofar := trace;
        Happens(turn.events[i], id);
        HandoffsJoin(old(trace), sofar, trace, id);
      }
    }

    /** GET: the labels as they are when the server answers. */
    method GetWorkerOperation(ghost id: string) returns (reply: Reply)
      requires Valid() && AllFor(pending, id)
      modifies this
      ensures Valid() && AllFor(pending, id) && (old(pending) == [] ==> pending == [])
      ensures old(trace) <= trace && OnlyHandoffs(trace, |old(trace)|, id)
      ensures old(pending) == [] ==> NoWrites(trace, |old(trace)|)
      ensures reply.Operation? ==> reply == Operation(Label(labels, ID), Label(labels, PHASE))
      ensures reply.Failed? <==> NextFate(old(future)) != Delivered
      ensures future == Rest(old(future))
      ensures seen == if reply.Operation? then old(seen) + [reply.id] else old(seen)
      ensures Quiet(old(future)) ==> Quiet(future) && AtMostHandoff(old(trace), trace, id)
      ensures Quiet(old(future)) ==>
        && AtMostLanded(old(labels), old(pending), labels, pending, id)
        && Debt(future, pending, labels) + (if reply.Failed? then 1 else 0) <=
           Debt(old(future), old(pending), old(labels))
    {
      var fate := NextTurn(id);
      if Quiet(old(future)) {
        DebtFalls(old(future), old(pending), old(labels), pending, labels, id);
      }
      if fate != Delivered {
        return Failed;
      }
      seen := seen + [Label(labels, ID)];
      return Operation(Label(labels, ID), Label(labels, PHASE));
    }

    /** PATCH: compare-and-set, even when the caller never learns the outcome or it comes late. */
    method MarkReady(id: string) returns (ok: bool)
      requires Valid() && AllFor(pending, id)
      modifies `labels, `trace, `pending, `future
      ensures Valid() && AllFor(pending, id)
      ensures old(trace) <= trace && OnlyHandoffs(trace, |old(trace)|, id)
      ensures ok ==> In(labels, id, READY)
      ensures Quiet(old(future)) ==> Quiet(future) && AtMostHandoff(old(trace), trace, id)
      ensures Quiet(old(future)) && In(old(labels), id, STOPPING) ==>
        && (labels == old(labels)[PHASE := READY] || (labels == old(labels) && !ok))
        && (!ok ==> Debt(future, pending, labels) < Debt(old(future), old(pending), old(labels)))
    {
      var fate := NextTurn(id);
      ghost var p1, l1 := pending, labels;
      ok := Arrive(id, fate, old(trace));
      if Quiet(old(future)) && In(old(labels), id, STOPPING) {
        PatchDebtFalls(old(future), old(pending), old(labels), p1, l1, pending, labels, id, ok);
      }
    }

    /** A patch meets its fate. */
    method Arrive(id: string, fate: Fate, ghost start: seq<Entry>) returns (ok: bool)
      requires Valid() && AllFor(pending, id) && start != [] && start <= trace && OnlyHandoffs(trace, |start|, id)
      modifies `labels, `trace, `pending
      ensures Valid() && AllFor(pending, id) && start <= trace && OnlyHandoffs(trace, |start|, id)
      ensures ok ==> In(labels, id, READY)
      ensures AtMostHandoff(start, old(trace), id) ==> AtMostHandoff(start, trace, id)
      ensures
        match fate
        case RequestLost => pending == old(pending) && labels == old(labels) && !ok
        case Postponed => pending == old(pending) + [id] && labels == old(labels) && !ok
        case _ =>
          && pending == old(pending) && (ok <==> fate == Delivered && In(old(labels), id, STOPPING))
          && labels == if In(old(labels), id, STOPPING) then old(labels)[PHASE := READY] else old(labels)
    {
      if fate == RequestLost {
        return false;
      }
      if fate == Postponed {
        pending := pending + [id];
        return false;
      }
      ghost var sofar := trace;
      var accepted := Apply(id);
      HandoffsJoin(start, sofar, trace, id);
      return accepted && fate == Delivered;
    }
  }

  /** Handoffs of one operation after handoffs of it; without the controller there is only one. */
  lemma {:induction false} HandoffsJoin(t0: seq<Entry>, t1: seq<Entry>, t2: seq<Entry>, id: string)
    requires t0 != [] && t0 <= t1 <= t2 && OnlyHandoffs(t1, |t0|, id) && OnlyHandoffs(t2, |t1|, id)
    ensures OnlyHandoffs(t2, |t0|, id)
    ensures AtMostHandoff(t0, t1, id) && AtMostHandoff(t1, t2, id) ==> AtMostHandoff(t0, t2, id)
  {
    forall i | |t0| <= i < |t2| && t2[i].byWorker
      ensures i > 0 && In(t2[i - 1].labels, id, STOPPING) && t2[i].labels == t2[i - 1].labels[PHASE := READY]
    {
      if i < |t1| {
        assert t2[i] == t1[i] && t2[i - 1] == t1[i - 1];
      }
    }
  }

  // ---------------------------------------------------------------------------
  // The handoff loop
  // ---------------------------------------------------------------------------

  datatype Pinned = Unpinned | Pinned(id: string)

  datatype Verdict = Retry | Return(done: bool)

  /** The labels were in the given phase of the operation at some moment from n on. */
  ghost predicate WasIn(trace: seq<Entry>, n: nat, id: string, phase: string) {
    exists i :: n <= i < |trace| && In(trace[i].labels, id, phase)
  }

  /**
   The state of a call that began at trace position n and read position m: the pinned operation
   is the first one read, and the worker's writes so far and still under way are handoffs of it.
   */
  ghost predicate Safe(trace: seq<Entry>, n: nat, seen: seq<string>, m: nat, pending: seq<string>, pinned: Pinned) {
    match pinned
    case Unpinned => NoWrites(trace, n) && |seen| == m && pending == []
    case Pinned(id) => id != "" && OnlyHandoffs(trace, n, id) && |seen| > m && seen[m] == id && AllFor(pending, id)
  }

  /** Without the controller: nothing written yet, or exactly the one handoff. */
  ghost predicate AtMostOne(before: seq<Entry>, trace: seq<Entry>, pinned: Pinned) {
    match pinned
    case Unpinned => trace == before
    case Pinned(id) => AtMostHandoff(before, trace, id)
  }

  function IdOf(pinned: Pinned): string {
    if pinned.Pinned? then pinned.id else ""
  }

  /** The pod is in a phase of an operation that a handoff can finish. */
  predicate Eligible(labels: Labels) {
    Label(labels, ID) != "" && (Label(labels, PHASE) == STOPPING || Label(labels, PHASE) == READY)
  }

  /** The labels after the handoff they call for, if any. */
  function Handed(labels: Labels): Labels {
    if Eligible(labels) && Label(labels, PHASE) == STOPPING then labels[PHASE := READY] else labels
  }

  /** What an attempt without the controller comes to: the handoff and its answer, or one step closer to them. */
  ghost predicate Progress(l0: Labels, l1: Labels, d0: nat, d1: nat, verdict: Verdict, pinned: Pinned) {
    && (pinned.Pinned? ==> pinned.id == Label(l0, ID)) && (l1 == l0 || l1 == Handed(l0))
    && if verdict.Return? then verdict.done == Eligible(l0) && l1 == Handed(l0) else d1 < d0
  }

  /** One pass of the retry loop: read, and pin the operation on the first read. */
  method Attempt(pod: Pod, operationId: Pinned, ghost start: seq<Entry>, ghost m: nat)
    returns (verdict: Verdict, pinned: Pinned)
    requires pod.Valid() && start <= pod.trace && start != []
    requires Safe(pod.trace, |start|, pod.seen, m, pod.pending, operationId)
    modifies pod
    ensures pod.Valid() && start <= pod.trace
    ensures pinned.Pinned? || verdict == Retry ==> Safe(pod.trace, |start|, pod.seen, m, pod.pending, pinned)
    ensures pinned.Unpinned? ==> NoWrites(pod.trace, |start|) && pod.pending == []
    ensures verdict == Return(true) ==> pinned.Pinned? && WasIn(pod.trace, |start| - 1, pinned.id, READY)
    ensures Quiet(old(pod.future)) && AtMostOne(start, old(pod.trace), operationId) ==>
      Quiet(pod.future) && AtMostOne(start, pod.trace, pinned)
    ensures NextFate(old(pod.future)) != Delivered ==> verdict == Retry && pod.future == Rest(old(pod.future))
    ensures Quiet(old(pod.future)) && (operationId.Pinned? ==> operationId.id == Label(old(pod.labels), ID)) ==>
      Progress(old(pod.labels), pod.labels, Debt(old(pod.future), old(pod.pending), old(pod.labels)),
        Debt(pod.future, pod.pending, pod.labels), verdict, pinned)
  {
    pinned := operationId;
    ghost var before := pod.trace;
    var reply := pod.GetWorkerOperation(IdOf(operationId));
    HandoffsJoin(start, before, pod.trace, IdOf(operationId));
    if reply.Failed? {
      return Retry, pinned;
    }
    if reply.id == "" {
      return Return(false), pinned;
    }
    if pinned.Unpinned? {
      pinned := Pinned(reply.id);
    } else if reply.id != pinned.id {
      return Return(false), pinned;
    }
    verdict := Decide(pod, pinned.id, reply.phase, start);
  }

  /** What the phase just read calls for: done, give up, or the patch. */
  method Decide(pod: Pod, id: string, phase: string, ghost start: seq<Entry>) returns (verdict: Verdict)
    requires pod.Valid() && start <= pod.trace && start != [] && OnlyHandoffs(pod.trace, |start|, id)
    requires AllFor(pod.pending, id)
    requires id != "" && Label(pod.labels, ID) == id && Label(pod.labels, PHASE) == phase
    modifies pod
    ensures pod.Valid() && start <= pod.trace && OnlyHandoffs(pod.trace, |start|, id) && pod.seen == old(pod.seen)
    ensures AllFor(pod.pending, id)
    ensures verdict == Return(true) ==> WasIn(pod.trace, |start| - 1, id, READY)
    ensures Quiet(old(pod.future)) && AtMostHandoff(start, old(pod.trace), id) ==>
      Quiet(pod.future) && AtMostHandoff(start, pod.trace, id)
    ensures Quiet(old(pod.future)) ==>
      Progress(old(pod.labels), pod.labels, Debt(old(pod.future), old(pod.pending), old(pod.labels)),
        Debt(pod.future, pod.pending, pod.labels), verdict, Pinned(id))
  {
    if phase == READY {
      assert In(pod.trace[|pod.trace| - 1].labels, id, READY);
      return Return(true);
    }
    if phase != STOPPING {
      return Return(false);
    }
    ghost var before := pod.trace;
    var ok := pod.MarkReady(id);
    HandoffsJoin(start, before, pod.trace, id);
    if ok {
      assert In(pod.trace[|pod.trace| - 1].labels, id, READY);
      return Return(true);
    }
    return Retry;
  }

  /**
   Whatever the controller and the network do: the worker writes only stopping-to-ready
   transitions of the operation it read first, what is still under way is for that operation
   only, and a True result means the pod was in that operation's ready phase at some moment of
   the call. If the controller stays away, at most one write is made however many replies are
   lost or late; and if then at most four requests do not go through, or three when one of them
   is a patch that comes late, the call does its job. If the next five do not go through, it
   does not.
   */
  method HandoffWorkerOperation(pod: Pod) returns (done: bool, ghost pinned: Pinned)
    requires pod.Valid() && pod.pending == []
    modifies pod
    ensures pod.Valid() && old(pod.trace) <= pod.trace
    ensures pinned.Unpinned? ==> NoWrites(pod.trace, |old(pod.trace)|) && pod.pending == []
    ensures pinned.Pinned? ==> Safe(pod.trace, |old(pod.trace)|, pod.seen, |old(pod.seen)|, pod.pending, pinned)
    ensures done ==> pinned.Pinned? && WasIn(pod.trace, |old(pod.trace)| - 1, pinned.id, READY)
    ensures Quiet(old(pod.future)) ==> Quiet(pod.future) && AtMostOne(old(pod.trace), pod.trace, pinned)
    ensures Quiet(old(pod.future)) && Debt(old(pod.future), [], old(pod.labels)) <= 4 ==>
      var id, phase := Label(old(pod.labels), ID), Label(old(pod.labels), PHASE);
      && (done <==> id != "" && (phase == STOPPING || phase == READY))
      && pod.labels == if id != "" && phase == STOPPING then old(pod.labels)[PHASE := READY] else old(pod.labels)
    ensures Starved(old(pod.future), 5) ==> !done
  {
    ghost var start, m := pod.trace, |pod.seen|;
    var operationId := Unpinned;
    for attempt := 1 to MAX_ATTEMPTS + 1
      invariant pod.Valid() && start <= pod.trace
      invariant Safe(pod.trace, |start|, pod.seen, m, pod.pending, operationId)
      invariant Quiet(old(pod.future)) ==> Quiet(pod.future) && AtMostOne(start, pod.trace, operationId)
      invariant Quiet(old(pod.future)) ==>
        && (operationId.Pinned? ==> operationId.id == Label(old(pod.labels), ID))
        && (pod.labels == old(pod.labels) || pod.labels == Handed(old(pod.labels)))
        && Debt(pod.future, pod.pending, pod.labels) + attempt <= Debt(old(pod.future), [], old(pod.labels)) + 1
      invariant Starved(old(pod.future), 5) ==> Starved(pod.future, 6 - attempt)
    {
      var verdict, id := Attempt(pod, operationId, start, m);
      operationId := id;
      if verdict.Return? {
        return verdict.done, operationId;
      }
    }
    return false, operationId;
  }

  /**
   After the call, for as long as anything is still under way: what lands late is again only the
   handoff of the pinned operation, and without the controller still at most one in all.
   */
  method Aftermath(pod: Pod, ghost start: seq<Entry>, ghost pinned: Pinned, turns: nat)
    requires pod.Valid() && start != [] && start <= pod.trace
    requires pinned.Unpinned? ==> NoWrites(pod.trace, |start|) && pod.pending == []
    requires pinned.Pinned? ==> OnlyHandoffs(pod.trace, |start|, pinned.id) && AllFor(pod.pending, pinned.id)
    modifies pod
    ensures pod.Valid() && start <= pod.trace
    ensures pinned.Unpinned? ==> NoWrites(pod.trace, |start|)
    ensures pinned.Pinned? ==> OnlyHandoffs(pod.trace, |start|, pinned.id)
    ensures Quiet(old(pod.future)) && pinned.Pinned? && AtMostHandoff(start, old(pod.trace), pinned.id) ==>
      AtMostHandoff(start, pod.trace, pinned.id)
  {
    for i := 0 to turns
      invariant pod.Valid() && start <= pod.trace
      invariant pinned.Unpinned? ==> NoWrites(pod.trace, |start|) && pod.pending == []
      invariant pinned.Pinned? ==> OnlyHandoffs(pod.trace, |start|, pinned.id) && AllFor(pod.pending, pinned.id)
      invariant Quiet(old(pod.future)) && pinned.Pinned? && AtMostHandoff(start, old(pod.trace), pinned.id) ==>
        Quiet(pod.future) && AtMostHandoff(start, pod.trace, pinned.id)
    {
      ghost var before := pod.trace;
      var fate := pod.NextTurn(IdOf(pinned));
      if pinned.Pinned? {
        HandoffsJoin(start, before, pod.trace, pinned.id);
      }
    }
  }
}
