/**
 The node rebooter: a reconcile loop that drains and reboots its own Kubernetes node on
 request. Node reads come from a cache that may be arbitrarily old, every write may fail or
 land without its answer arriving, other writers change the node at any moment, and the
 machine may boot between any two steps. Each get-mutate-patch is one atomic step.
 */
module Rebooter {
  import opened Strconv

  // ---------------------------------------------------------------------------
  // The node object
  // ---------------------------------------------------------------------------

  const DRAIN := "SlurmNodeDrain"
  const REBOOT := "SlurmNodeReboot"
  const NODE_DRAINING := "NodeDraining"
  const NODE_DRAINED := "NodeDrained"
  const NODE_UNDRAINED := "NodeUndrained"
  const NODE_REBOOTING := "NodeRebooting"
  const NODE_REBOOTED := "NodeRebooted"
  const TAINT_KEY := "node.kubernetes.io/NoExecute"
  const NO_EXECUTE := "NoExecute"

  datatype Status = ConditionTrue | ConditionFalse | ConditionUnknown

  datatype Condition = Condition(kind: string, status: Status, reason: string, transition: int)

  datatype Taint = Taint(key: string, value: string, effect: string)

  datatype Node = Node(unschedulable: bool, taints: seq<Taint>, conditions: seq<Condition>)

  /** The first condition of a kind. */
  function Find(cs: seq<Condition>, kind: string): Option<Condition> {
    if cs == [] then None else if cs[0].kind == kind then Some(cs[0]) else Find(cs[1..], kind)
  }

  /** The condition list with the first condition of c's kind replaced, or c appended. */
  function Put(cs: seq<Condition>, c: Condition): seq<Condition> {
    if cs == [] then [c]
    else if cs[0].kind == c.kind then [Restamped(cs[0], c)] + cs[1..]
    else [cs[0]] + Put(cs[1..], c)
  }

  /** An update that changes neither status nor reason keeps the transition time. */
  function Restamped(before: Condition, c: Condition): Condition {
    if before.status == c.status && before.reason == c.reason then c.(transition := before.transition) else c
  }

  predicate Has(n: Node, kind: string, status: Status, reason: string) {
    var c := Find(n.conditions, kind);
    c.Some? && c.value.status == status && c.value.reason == reason
  }

  /** No condition claims to have changed after the given time. */
  predicate WellTimed(n: Node, at: int) {
    forall c :: c in n.conditions ==> c.transition <= at
  }

  lemma {:induction false} FindIsMember(cs: seq<Condition>, kind: string)
    ensures Find(cs, kind).Some? ==> Find(cs, kind).value in cs
  {
    if cs != [] {
      FindIsMember(cs[1..], kind);
    }
  }

  lemma {:induction false} PutThenFind(cs: seq<Condition>, c: Condition, kind: string)
    ensures kind != c.kind ==> Find(Put(cs, c), kind) == Find(cs, kind)
    ensures
      var found := Find(Put(cs, c), c.kind);
      found.Some? && found.value.status == c.status && found.value.reason == c.reason
    ensures
      var before := Find(cs, c.kind);
      Find(Put(cs, c), c.kind) ==
        if before.Some? && before.value.status == c.status && before.value.reason == c.reason then before else Some(c)
  {
    if cs != [] && cs[0].kind != c.kind {
      PutThenFind(cs[1..], c, kind);
    }
  }

  lemma {:induction false} PutIsTimed(cs: seq<Condition>, c: Condition, at: int)
    requires (forall d :: d in cs ==> d.transition <= at) && c.transition <= at
    ensures forall d :: d in Put(cs, c) ==> d.transition <= at
  {
    if cs != [] && cs[0].kind != c.kind {
      PutIsTimed(cs[1..], c, at);
    }
  }

  predicate Tainted(n: Node) {
    exists i :: 0 <= i < |n.taints| && n.taints[i].key == TAINT_KEY
  }

  predicate Untainted(n: Node) {
    forall i :: 0 <= i < |n.taints| ==> !(n.taints[i].key == TAINT_KEY && n.taints[i].effect == NO_EXECUTE)
  }

  // ---------------------------------------------------------------------------
  // Pods
  // ---------------------------------------------------------------------------

  datatype Toleration = Toleration(effect: string, operator: string)

  datatype Pod = Pod(ownerKinds: seq<string>, tolerations: seq<Toleration>)

  /** Pods that stay on a drained node: owned by a DaemonSet, or tolerating the taint. */
  predicate MayStay(p: Pod) {
    || "DaemonSet" in p.ownerKinds
    || exists i :: 0 <= i < |p.tolerations| &&
                   (p.tolerations[i].effect == NO_EXECUTE || p.tolerations[i].operator == "Exists")
  }

  /** A DaemonSet owner or a toleration of the effect or of everything lets a pod stay, and nothing else does. */
  lemma {:induction false} StayingPods(p: Pod)
    ensures MayStay(p) <==>
      || "DaemonSet" in p.ownerKinds
      || exists t :: t in p.tolerations && (t.effect == "NoExecute" || t.operator == "Exists")
  {
    if t :| t in p.tolerations && (t.effect == "NoExecute" || t.operator == "Exists") {
      var i :| 0 <= i < |p.tolerations| && p.tolerations[i] == t;
    }
  }

  // ---------------------------------------------------------------------------
  // The world
  // ---------------------------------------------------------------------------

  /**
   One stored value of the node: when and in which boot epoch it was written, by whom, and
   which version holds the outside request its reboot condition goes back to.
   */
  datatype Version = Version(node: Node, at: int, epoch: nat, foreign: bool, origin: nat)

  /** A position in the record: how many versions and fetched pod lists came before. */
  datatype Mark = Mark(versions: nat, fetches: nat)

  /** A reboot command: when it was given, when its reconcile began, in which epoch, for which request. */
  datatype Command = Command(at: Mark, began: Mark, epoch: nat, origin: nat, evict: bool)

  /**
   `boots` holds the boot time of every epoch, `fetched` every pod list the API server delivered,
   `began` where the present reconcile began.
   */
  datatype World = World(
    history: seq<Version>,
    clock: int,
    boot: int,
    epoch: nat,
    boots: seq<int>,
    fetched: seq<seq<Pod>>,
    began: Mark,
    commands: seq<Command>)

  function Now(w: World): Mark {
    Mark(|w.history|, |w.fetched|)
  }

  function Current(w: World): Node
    requires w.history != []
  {
    w.history[|w.history| - 1].node
  }

  /** The node asks for a reboot. */
  predicate Wants(n: Node) {
    var c := Find(n.conditions, REBOOT);
    c.Some? && c.value.status == ConditionTrue && c.value.reason != NODE_REBOOTED
  }

  function WantedSince(n: Node): int
    requires Wants(n)
  {
    Find(n.conditions, REBOOT).value.transition
  }

  /** Version o differs from the one before in the reboot condition; the first one counts as a change. */
  predicate ChangesWish(history: seq<Version>, o: nat)
    requires o < |history|
  {
    o > 0 ==> Find(history[o].node.conditions, REBOOT) != Find(history[o - 1].node.conditions, REBOOT)
  }

  /**
   Version o is an outside request for a reboot: another writer changed the reboot condition in
   the given epoch, and the wish is dated after that epoch's boot.
   */
  predicate IsRequest(history: seq<Version>, o: nat, epoch: nat, boot: int) {
    && o < |history| && history[o].foreign && history[o].epoch == epoch && ChangesWish(history, o)
    && Wants(history[o].node) && WantedSince(history[o].node) > boot
  }

  /** Versions of earlier epochs were written before the boot, and no condition is dated ahead. */
  ghost predicate Timed(w: World) {
    && w.history != [] && w.boot <= w.clock && |w.boots| == w.epoch + 1 && w.boots[w.epoch] == w.boot
    && w.began.versions <= |w.history| && w.began.fetches <= |w.fetched|
    && forall i :: 0 <= i < |w.history| ==>
         && WellTimed(w.history[i].node, w.history[i].at) && w.history[i].at <= w.clock
         && w.history[i].epoch <= w.epoch && (w.history[i].epoch < w.epoch ==> w.history[i].at <= w.boot)
  }

  /** A wish dated after the boot goes back to an outside request of this epoch. */
  ghost predicate Traced(w: World) {
    forall i :: 0 <= i < |w.history| && Wants(w.history[i].node) && WantedSince(w.history[i].node) > w.boot ==>
      IsRequest(w.history, w.history[i].origin, w.epoch, w.boot)
  }

  /** Cordoned, tainted and marked as drained. */
  predicate DrainComplete(n: Node) {
    n.unschedulable && Tainted(n) && Has(n, DRAIN, ConditionTrue, NODE_DRAINED)
  }

  /** What a drain leaves behind; only the evict method taints the node. */
  predicate DrainedBy(n: Node, evict: bool) {
    n.unschedulable && (evict ==> Tainted(n)) && Has(n, DRAIN, ConditionTrue, NODE_DRAINED)
  }

  /** The node asks to be drained. */
  predicate AsksDrain(n: Node) {
    var c := Find(n.conditions, DRAIN);
    c.Some? && c.value.status == ConditionTrue
  }

  /** Recorded as rebooted. */
  predicate Rebooted(n: Node) {
    Has(n, REBOOT, ConditionTrue, NODE_REBOOTED)
  }

  /** Back in service: no cordon, no taint, recorded as undrained and rebooted. */
  predicate InService(n: Node) {
    && !n.unschedulable && Untainted(n) && Has(n, DRAIN, ConditionFalse, NODE_UNDRAINED)
    && Rebooted(n)
  }

  /** A pod list was fetched, and it held only pods that may stay. */
  predicate Emptied(pods: Option<seq<Pod>>) {
    pods.Some? && forall i :: 0 <= i < |pods.value| ==> MayStay(pods.value[i])
  }

  /** The last pod list delivered between two positions. */
  function LastFetch(fetched: seq<seq<Pod>>, from: nat, to: nat): Option<seq<Pod>> {
    if from < to <= |fetched| then Some(fetched[to - 1]) else None
  }

  predicate ReadyToReboot(n: Node, pods: Option<seq<Pod>>) {
    DrainComplete(n) && Emptied(pods) && Has(n, REBOOT, ConditionTrue, NODE_REBOOTING)
  }

  /** Nobody else wrote the versions from one position to another. */
  predicate NoneForeign(history: seq<Version>, from: nat, to: nat) {
    forall i :: from <= i < to && i < |history| ==> !history[i].foreign
  }

  /** Among the versions from one position to another, one of the rebooter's own says the reboot is under way. */
  predicate RebootRecorded(history: seq<Version>, from: nat, to: nat) {
    exists i :: from <= i < to && i < |history| && !history[i].foreign
                && Has(history[i].node, REBOOT, ConditionTrue, NODE_REBOOTING)
  }

  /** The command stands in the record where its epoch says. */
  ghost predicate Placed(w: World, c: Command) {
    && c.epoch <= w.epoch < |w.boots| && c.began.versions <= c.at.versions
    && 0 < c.at.versions <= |w.history| && c.at.fetches <= |w.fetched|
    && forall i :: 0 <= i < |w.history| ==>
         if i < c.at.versions then w.history[i].epoch <= c.epoch else c.epoch <= w.history[i].epoch
  }

  /** No boot loop: the command serves an outside request made before it in the very epoch it is given in. */
  ghost predicate Serves(w: World, c: Command)
    requires Placed(w, c)
  {
    c.origin < c.at.versions && IsRequest(w.history, c.origin, c.epoch, w.boots[c.epoch])
  }

  /**
   Drain before reboot: the reconcile recorded the reboot as under way, and if nobody else wrote
   since it began, the node was drained and the last pod list it fetched held only pods that may stay.
   */
  ghost predicate Prepared(w: World, c: Command)
    requires Placed(w, c)
  {
    && RebootRecorded(w.history, c.began.versions, c.at.versions)
    && (c.evict && NoneForeign(w.history, c.began.versions, c.at.versions) ==>
          ReadyToReboot(w.history[c.at.versions - 1].node, LastFetch(w.fetched, c.began.fetches, c.at.fetches)))
  }

  ghost predicate Given(w: World, c: Command) {
    Placed(w, c) && Serves(w, c) && Prepared(w, c)
  }

  ghost predicate Inv(w: World) {
    Timed(w) && Traced(w)
  }

  /** Every command on record was given as it should be. */
  ghost predicate Orderly(w: World) {
    forall i :: 0 <= i < |w.commands| ==> Given(w, w.commands[i])
  }

  /** w1 is reached from w0 within one boot epoch and one reconcile. */
  ghost predicate Later(w0: World, w1: World) {
    && w0.history <= w1.history && w0.clock <= w1.clock && w0.boot == w1.boot && w0.epoch == w1.epoch
    && w0.boots == w1.boots && w0.began == w1.began && w0.fetched <= w1.fetched && w0.commands <= w1.commands
    && (forall i :: |w0.commands| <= i < |w1.commands| ==> w1.commands[i].epoch == w1.epoch)
    && (forall i :: |w0.history| <= i < |w1.history| ==> w1.history[i].epoch == w1.epoch)
  }

  /** No pod list was delivered and no command given between w0 and w1. */
  predicate Idle(w0: World, w1: World) {
    w0.fetched == w1.fetched && w0.commands == w1.commands
  }

  /** Nobody else wrote the node between w0 and w1. */
  predicate Quiet(w0: World, w1: World) {
    NoneForeign(w1.history, |w0.history|, |w1.history|)
  }

  /** Nobody else wrote the node since the reconcile began. */
  predicate QuietSince(w: World) {
    NoneForeign(w.history, w.began.versions, |w.history|)
  }

  /** The last pod list delivered since the reconcile began. */
  function FetchedSince(w: World): Option<seq<Pod>> {
    LastFetch(w.fetched, w.began.fetches, |w.fetched|)
  }

  /** What a reboot for the request needs, before and after it is recorded as under way. */
  ghost predicate MayReboot(w: World, origin: nat, evict: bool, recorded: bool) {
    && w.history != [] && IsRequest(w.history, origin, w.epoch, w.boot)
    && (evict ==> Emptied(FetchedSince(w)))
    && (evict && QuietSince(w) ==> DrainComplete(Current(w)))
    && (recorded ==> RebootRecorded(w.history, w.began.versions, |w.history|))
    && (recorded && evict && QuietSince(w) ==> Has(Current(w), REBOOT, ConditionTrue, NODE_REBOOTING))
  }

  /** If a command was given after w0, it was recorded first and, undisturbed, found the node drained. */
  ghost predicate GivenReady(w0: World, w: World, evict: bool) {
    |w0.commands| < |w.commands| ==>
      && w.history != [] && RebootRecorded(w.history, w.began.versions, |w.history|)
      && (evict && QuietSince(w) ==> ReadyToReboot(Current(w), FetchedSince(w)))
      && forall i :: |w0.commands| <= i < |w.commands| ==>
        w.commands[i].evict == evict && w.commands[i].began == w.began
  }

  // Changes of the world ------------------------------------------------------

  function Written(w: World, n: Node, foreign: bool, origin: nat): World {
    w.(history := w.history + [Version(n, w.clock, w.epoch, foreign, origin)])
  }

  function Booted(w: World): World {
    w.(boot := w.clock, epoch := w.epoch + 1, boots := w.boots + [w.clock])
  }

  function Commanded(w: World, c: Command): World {
    w.(commands := w.commands + [c])
  }

  function Waited(w: World, elapsed: nat): World {
    w.(clock := w.clock + elapsed)
  }

  /** Where the reboot condition of another writer's version comes from. */
  function ForeignOrigin(w: World, n: Node): nat
    requires w.history != []
  {
    if Find(n.conditions, REBOOT) == Find(Current(w).conditions, REBOOT) then w.history[|w.history| - 1].origin
    else |w.history|
  }

  lemma {:induction false} RequestsPersist(h0: seq<Version>, h1: seq<Version>, o: nat, epoch: nat, boot: int)
    requires h0 <= h1 && IsRequest(h0, o, epoch, boot)
    ensures IsRequest(h1, o, epoch, boot)
  {
  }

  /** A command that was given stays so while the record grows. */
  lemma {:induction false} GivenPersists(w: World, w': World, c: Command)
    requires Given(w, c) && w.history <= w'.history && w.fetched <= w'.fetched && w.boots <= w'.boots
    requires c.epoch <= w'.epoch < |w'.boots|
    requires forall i :: |w.history| <= i < |w'.history| ==> c.epoch <= w'.history[i].epoch
    ensures Given(w', c)
  {
    RequestsPersist(w.history, w'.history, c.origin, c.epoch, w.boots[c.epoch]);
    assert forall i :: 0 <= i < |w.history| ==> w'.history[i] == w.history[i];
    var i :| c.began.versions <= i < c.at.versions && !w.history[i].foreign
             && Has(w.history[i].node, REBOOT, ConditionTrue, NODE_REBOOTING);
    assert !w'.history[i].foreign && Has(w'.history[i].node, REBOOT, ConditionTrue, NODE_REBOOTING);
    assert Prepared(w', c);
  }

  /** Writing a version keeps the invariant if its wish, when dated after the boot, is traced. */
  lemma {:induction false} WriteKeepsInv(w: World, n: Node, foreign: bool, origin: nat)
    requires Inv(w) && WellTimed(n, w.clock)
    requires Wants(n) && WantedSince(n) > w.boot ==>
      IsRequest(Written(w, n, foreign, origin).history, origin, w.epoch, w.boot)
    ensures Inv(Written(w, n, foreign, origin)) && Later(w, Written(w, n, foreign, origin))
  {
    var w' := Written(w, n, foreign, origin);
    assert Timed(w');
    forall i | 0 <= i < |w'.history| && Wants(w'.history[i].node) && WantedSince(w'.history[i].node) > w'.boot
      ensures IsRequest(w'.history, w'.history[i].origin, w'.epoch, w'.boot)
    {
      if i < |w.history| {
        assert w'.history[i] == w.history[i];
        RequestsPersist(w.history, w'.history, w.history[i].origin, w.epoch, w.boot);
      }
    }
  }

  lemma {:induction false} SameWish(a: Node, b: Node)
    requires Find(a.conditions, REBOOT) == Find(b.conditions, REBOOT)
    ensures Wants(a) == Wants(b) && (Wants(a) ==> WantedSince(a) == WantedSince(b))
  {
  }

  lemma {:induction false} LastWishTraced(w: World, last: nat)
    requires Traced(w) && last + 1 == |w.history|
    ensures Wants(w.history[last].node) && WantedSince(w.history[last].node) > w.boot ==>
              IsRequest(w.history, w.history[last].origin, w.epoch, w.boot)
  {
  }

  /** A version that inherits its reboot condition inherits the request. */
  lemma {:induction false} InheritedRequest(w: World, n: Node, h: seq<Version>)
    requires Traced(w) && w.history != [] && w.history <= h
    requires Find(n.conditions, REBOOT) == Find(Current(w).conditions, REBOOT)
    ensures Wants(n) && WantedSince(n) > w.boot ==> IsRequest(h, w.history[|w.history| - 1].origin, w.epoch, w.boot)
  {
    SameWish(n, Current(w));
    LastWishTraced(w, |w.history| - 1);
    if Wants(n) && WantedSince(n) > w.boot {
      RequestsPersist(w.history, h, w.history[|w.history| - 1].origin, w.epoch, w.boot);
    }
  }

  lemma {:induction false} ForeignKeepsInv(w: World, n: Node)
    requires Inv(w) && WellTimed(n, w.clock)
    ensures Inv(Written(w, n, true, ForeignOrigin(w, n)))
    ensures Later(w, Written(w, n, true, ForeignOrigin(w, n)))
  {
    ForeignIsTraced(w, n, ForeignOrigin(w, n));
    WriteKeepsInv(w, n, true, ForeignOrigin(w, n));
  }

  lemma {:induction false} ForeignIsTraced(w: World, n: Node, origin: nat)
    requires Traced(w) && w.history != [] && origin == ForeignOrigin(w, n)
    ensures Wants(n) && WantedSince(n) > w.boot ==>
      IsRequest(Written(w, n, true, origin).history, origin, w.epoch, w.boot)
  {
    var h := Written(w, n, true, origin).history;
    if Find(n.conditions, REBOOT) == Find(Current(w).conditions, REBOOT) {
      InheritedRequest(w, n, h);
    } else {
      assert h[|w.history|].node == n && h[|w.history| - 1] == w.history[|w.history| - 1];
    }
  }

  /** Every wish on record is dated at or before the boot: what a boot leaves behind. */
  ghost predicate Settled(w: World) {
    forall i :: 0 <= i < |w.history| && Wants(w.history[i].node) ==> WantedSince(w.history[i].node) <= w.boot
  }

  /** After a boot every wish on record is dated at or before it. */
  lemma {:induction false} BootKeepsInv(w: World)
    requires Inv(w)
    ensures Inv(Booted(w)) && Settled(Booted(w))
  {
    forall i | 0 <= i < |w.history| && Wants(w.history[i].node)
      ensures WantedSince(w.history[i].node) <= w.clock
    {
      FindIsMember(w.history[i].node.conditions, REBOOT);
    }
  }

  /** The record of a command given now. */
  function CommandNow(w: World, origin: nat, evict: bool): Command {
    Command(Now(w), w.began, w.epoch, origin, evict)
  }

  /** A growing record stays orderly. */
  lemma {:induction false} OrderlyPersists(w: World, w': World)
    requires Orderly(w) && w'.commands == w.commands && w.epoch <= w'.epoch < |w'.boots|
    requires w.history <= w'.history && w.fetched <= w'.fetched && w.boots <= w'.boots
    requires forall i :: |w.history| <= i < |w'.history| ==> w.epoch <= w'.history[i].epoch
    ensures Orderly(w')
  {
    forall i | 0 <= i < |w'.commands| ensures Given(w', w'.commands[i]) {
      GivenPersists(w, w', w.commands[i]);
    }
  }

  lemma {:induction false} CommandIsOrderly(w: World, origin: nat, evict: bool)
    requires Timed(w) && Orderly(w) && MayReboot(w, origin, evict, true)
    ensures Orderly(Commanded(w, CommandNow(w, origin, evict)))
  {
    var c := CommandNow(w, origin, evict);
    var w' := Commanded(w, c);
    CommandIsGiven(w, origin, evict);
    GivenPersists(w, w', c);
    forall i | 0 <= i < |w.commands| ensures Given(w', w.commands[i]) {
      GivenPersists(w, w', w.commands[i]);
    }
  }

  lemma {:induction false} CommandIsReady(w0: World, w: World, origin: nat, evict: bool)
    requires MayReboot(w, origin, evict, true) && w0.commands == w.commands
    ensures GivenReady(w0, Commanded(w, CommandNow(w, origin, evict)), evict)
  {
  }

  lemma {:induction false} CommandIsKept(w0: World, w1: World, c: Command)
    requires Later(w0, w1) && Inv(w1) && c.epoch == w1.epoch && w0.commands == w1.commands
    ensures Inv(Commanded(w1, c)) && Later(w0, Commanded(w1, c))
  {
  }

  lemma {:induction false} ReadySince(w0: World, w1: World, w: World, evict: bool)
    requires GivenReady(w1, w, evict) && w0.commands == w1.commands
    ensures GivenReady(w0, w, evict)
  {
  }

  lemma {:induction false} CommandIsGiven(w: World, origin: nat, evict: bool)
    requires Timed(w) && MayReboot(w, origin, evict, true)
    ensures Given(w, CommandNow(w, origin, evict))
  {
  }

  lemma {:induction false} QuietSplits(w0: World, w1: World, w2: World)
    requires Later(w0, w1) && Later(w1, w2) && Quiet(w0, w2)
    ensures Quiet(w0, w1) && Quiet(w1, w2) && Later(w0, w2)
  {
  }

  /** Quiet over a stretch is quiet over both parts of it. */
  lemma {:induction false} QuietMeets(w0: World, w1: World, w2: World)
    requires Later(w0, w1) && Later(w1, w2)
    ensures Later(w0, w2) && (Quiet(w0, w2) <==> Quiet(w0, w1) && Quiet(w1, w2))
  {
    LaterStill(w0, w1, w2);
    if Quiet(w0, w2) {
      QuietSplits(w0, w1, w2);
    }
    if Quiet(w0, w1) && Quiet(w1, w2) {
      QuietJoins(w0, w1, w2);
    }
  }

  lemma {:induction false} QuietJoins(w0: World, w1: World, w2: World)
    requires Later(w0, w1) && Later(w1, w2) && Quiet(w0, w1) && Quiet(w1, w2)
    ensures Quiet(w0, w2)
  {
    forall i | |w0.history| <= i < |w2.history|
      ensures !w2.history[i].foreign
    {
      if i < |w1.history| {
        assert w2.history[i] == w1.history[i];
      }
    }
  }

  // ---------------------------------------------------------------------------
  // The cluster and its environment
  // ---------------------------------------------------------------------------

  /** What becomes of one request to the API server or the machine. */
  datatype Fate = Done | Refused | AnswerLost

  /**
   What happens around one request: time passes, others write the node, the request meets its
   fate; and what the surroundings contribute to it: how far a written time lags behind the
   clock, how late the boot is estimated, how old a cached read is, which pods run.
   */
  datatype Turn = Turn(
    elapsed: nat, writes: seq<Node>, fate: Fate, lag: nat, slack: nat, age: nat, pods: seq<Pod>)

  /** Nothing happens and the request succeeds: the environment once `future` is used up. */
  const CALM := Turn(0, [], Done, 0, 0, 0, [])

  ghost predicate Kept(w0: World, w1: World) {
    Inv(w1) && Later(w0, w1)
  }

  class Cluster {
    var world: World
    var future: seq<Turn>

    /** A node as someone left it, on a machine that booted some time ago. */
    constructor (node: Node, boot: int, clock: int, future: seq<Turn>)
      requires boot <= clock && WellTimed(node, clock)
      ensures Inv(world) && Orderly(world) && world.commands == [] && this.future == future
    {
      world := World([Version(node, clock, 0, true, 0)], clock, boot, 0, [boot], [], Mark(1, 0), []);
      this.future := future;
    }

    /** Time passes and others write; a write dated ahead of the clock does not occur. */
    method Elapse() returns (turn: Turn)
      requires Inv(world)
      modifies this
      ensures Kept(old(world), world)
      ensures Quiet(old(world), world) ==> world.history == old(world).history
      ensures Idle(old(world), world)
      ensures old(future) == [] ==> future == [] && turn == CALM && world == old(world)
    {
      turn := CALM;
      if future != [] {
        turn := future[0];
        future := future[1..];
      }
      world := Waited(world, turn.elapsed);
      ghost var w0, left := world, future;
      for i := 0 to |turn.writes|
        invariant future == left && (i == 0 ==> world == w0)
        invariant Kept(w0, world) && Idle(w0, world)
        invariant world.history == w0.history || world.history[|w0.history|].foreign
      {
        if WellTimed(turn.writes[i], world.clock) {
          ForeignKeepsInv(world, turn.writes[i]);
          world := Written(world, turn.writes[i], true, ForeignOrigin(world, turn.writes[i]));
        }
      }
    }

    /** The pods on the node, when the API server delivers the list. */
    method ListPods() returns (ok: bool, pods: seq<Pod>)
      requires Inv(world)
      modifies this
      ensures Kept(old(world), world) && world.commands == old(world.commands)
      ensures world.fetched == if ok then old(world.fetched) + [pods] else old(world.fetched)
      ensures Quiet(old(world), world) ==> world.history == old(world.history)
      ensures old(future) == [] ==> ok && future == [] && pods == [] && Quiet(old(world), world)
    {
      var turn := Elapse();
      ok, pods := turn.fate == Done, turn.pods;
      if ok {
        world := world.(fetched := world.fetched + [pods]);
      }
    }

    /** A reconcile begins. */
    method Dispatch()
      requires Inv(world)
      modifies this
      ensures Inv(world) && world == old(world).(began := Now(old(world)))
    {
      world := world.(began := Now(world));
    }

    /** The machine is told to reboot; the order may be lost, or land without an answer. */
    method Reboot(origin: nat, evict: bool) returns (ok: bool)
      requires Inv(world) && Orderly(world) && MayReboot(world, origin, evict, true)
      modifies this
      ensures Kept(old(world), world) && Orderly(world) && GivenReady(old(world), world, evict)
      ensures
        || world.commands == old(world.commands)
        || world.commands == old(world.commands) + [CommandNow(world, origin, evict)]
      ensures ok ==> |world.commands| == |old(world.commands)| + 1
      ensures Quiet(old(world), world) ==> world.history == old(world).history
      ensures old(future) == [] ==> ok && future == [] && Quiet(old(world), world)
    {
      ghost var w0 := world;
      var turn := Elapse();
      RebootAwaits(w0, world, origin, evict);
      if turn.fate == Refused {
        return false;
      }
      RebootLands(w0, world, origin, evict);
      world := Commanded(world, CommandNow(world, origin, evict));
      return turn.fate == Done;
    }

    /** The machine boots: whatever ran on it is gone. */
    method Boot(elapsed: nat)
      requires Inv(world)
      modifies this
      ensures Inv(world) && Settled(world)
      ensures world == Booted(Waited(old(world), elapsed))
    {
      world := Waited(world, elapsed);
      BootKeepsInv(world);
      world := Booted(world);
    }
  }

  /** The two nodes differ at most in their conditions of one kind. */
  ghost predicate OnlyKindChanged(n0: Node, n1: Node, kind: string) {
    && n0.unschedulable == n1.unschedulable && n0.taints == n1.taints
    && forall k :: k != kind ==> Find(n0.conditions, k) == Find(n1.conditions, k)
  }

  /** The condition update of a patch, in place in the list. */
  method UpdateConditions(cs: seq<Condition>, c: Condition) returns (r: seq<Condition>)
    ensures r == Put(cs, c)
  {
    for i := 0 to |cs|
      invariant Put(cs, c) == cs[..i] + Put(cs[i..], c)
    {
      if cs[i].kind == c.kind {
        return cs[..i] + [Restamped(cs[i], c)] + cs[i + 1..];
      }
    }
    return cs + [c];
  }

  /** The taints without the NoExecute one; both key and effect must match. */
  method WithoutTaint(taints: seq<Taint>) returns (r: seq<Taint>)
    ensures forall t :: t in r <==> t in taints && !(t.key == TAINT_KEY && t.effect == NO_EXECUTE)
    ensures |r| == |taints| ==> r == taints
  {
    r := [];
    for i := 0 to |taints|
      invariant |r| <= i
      invariant forall t :: t in r <==> t in taints[..i] && !(t.key == TAINT_KEY && t.effect == NO_EXECUTE)
      invariant |r| == i ==> r == taints[..i]
    {
      if taints[i].key != TAINT_KEY || taints[i].effect != NO_EXECUTE {
        r := r + [taints[i]];
      }
    }
  }

  /** What an undisturbed look at node n makes of it: in service if it was rebooted, else almost as it was. */
  ghost predicate Judged(n: Node, after: Node, boot: int) {
    if Wants(n) then WantedSince(n) <= boot ==> InService(after) else OnlyKindChanged(n, after, REBOOT)
  }

  /**
   What an undisturbed reconcile makes of node n: drained if it asks for a drain or a new reboot,
   back in service if it was rebooted and asks for no drain, and otherwise as it was, but for the
   reboot condition.
   */
  ghost predicate Settles(n: Node, after: Node, boot: int, evict: bool) {
    if AsksDrain(n) || (Wants(n) && WantedSince(n) > boot) then DrainedBy(after, evict)
    else if Wants(n) then InService(after)
    else OnlyKindChanged(n, after, REBOOT)
  }

  /** A node in service asks for nothing, so that a further reconcile leaves it in service. */
  lemma {:induction false} ServiceIsStable(n: Node, after: Node, boot: int, evict: bool)
    requires InService(n) && Settles(n, after, boot, evict)
    ensures !AsksDrain(n) && !Wants(n) && OnlyKindChanged(n, after, REBOOT)
  {
  }

  /** A drained node asks for a drain, so that a further reconcile leaves it drained. */
  lemma {:induction false} DrainIsStable(n: Node, after: Node, boot: int, evict: bool)
    requires DrainedBy(n, evict) && Settles(n, after, boot, evict)
    ensures AsksDrain(n) && DrainedBy(after, evict)
  {
  }

  /** A rebooted node comes back into service exactly if it did not ask for a drain. */
  lemma {:induction false} RebootedReturns(n: Node, after: Node, boot: int, evict: bool)
    requires Settles(n, after, boot, evict) && Wants(n) && WantedSince(n) <= boot
    ensures InService(after) <==> !AsksDrain(n)
  {
    if AsksDrain(n) {
      assert after.unschedulable;
    }
  }

  /** A node as a reboot command finds it asks for a drain: after the boot it is drained again. */
  lemma {:induction false} RebootedStaysDrained(n: Node, pods: Option<seq<Pod>>, after: Node, boot: int)
    requires ReadyToReboot(n, pods) && Wants(n) && WantedSince(n) <= boot && Settles(n, after, boot, true)
    ensures DrainComplete(after) && !InService(after)
  {
    assert AsksDrain(n);
    RebootedReturns(n, after, boot, true);
  }

  predicate NeedsReboot(c: Condition) {
    c.reason != NODE_REBOOTED && c.status == ConditionTrue
  }

  // ---------------------------------------------------------------------------
  // The reconciler
  // ---------------------------------------------------------------------------

  datatype Drainage = Drained | NotEvictable | DrainFailed

  class Reconciler {
    const cluster: Cluster
    const evictionMethod: string
    /** The reconcile's copy of the node, overwritten by every successful write. */
    var node: Node

    constructor (cluster: Cluster, evictionMethod: string)
      requires cluster.world.history != []
      ensures this.cluster == cluster && this.evictionMethod == evictionMethod
    {
      this.cluster := cluster;
      this.evictionMethod := evictionMethod;
      this.node := Current(cluster.world);
    }

    /** Stores an own change of the node; `origin` records which request its reboot condition serves. */
    method Patch(turn: Turn, updated: Node, origin: nat) returns (ok: bool)
      requires Inv(cluster.world) && WellTimed(updated, cluster.world.clock)
      requires Wants(updated) && WantedSince(updated) > cluster.world.boot ==>
        IsRequest(cluster.world.history, origin, cluster.world.epoch, cluster.world.boot)
      modifies this, cluster
      ensures Kept(old(cluster.world), cluster.world) && Quiet(old(cluster.world), cluster.world)
      ensures ok ==> node == updated == Current(cluster.world)
      ensures ok ==> |cluster.world.history| == |old(cluster.world.history)| + 1
      ensures cluster.world.history == old(cluster.world.history) || Current(cluster.world) == updated
      ensures Idle(old(cluster.world), cluster.world) && cluster.future == old(cluster.future)
      ensures turn.fate == Done ==> ok
    {
      if turn.fate == Refused {
        return false;
      }
      var w := cluster.world;
      WriteKeepsInv(w, updated, false, origin) by {
        if Wants(updated) && WantedSince(updated) > w.boot {
          RequestsPersist(w.history, Written(w, updated, false, origin).history, origin, w.epoch, w.boot);
        }
      }
      cluster.world := Written(w, updated, false, origin);
      if turn.fate == AnswerLost {
        return false;
      }
      node := updated;
      return true;
    }

    /** Sets a condition. For the reboot condition, `origin` is the request being served. */
    method SetNodeCondition(kind: string, status: Status, reason: string, origin: nat) returns (ok: bool)
      requires Inv(cluster.world)
      requires kind == REBOOT && status == ConditionTrue && reason != NODE_REBOOTED ==>
        IsRequest(cluster.world.history, origin, cluster.world.epoch, cluster.world.boot)
      modifies this, cluster
      ensures Kept(old(cluster.world), cluster.world) && Idle(old(cluster.world), cluster.world)
      ensures ok ==> node == Current(cluster.world) && Has(node, kind, status, reason)
      ensures ok ==>
        |cluster.world.history| > |old(cluster.world.history)| &&
          !cluster.world.history[|cluster.world.history| - 1].foreign
      ensures Quiet(old(cluster.world), cluster.world) ==>
        OnlyKindChanged(Current(old(cluster.world)), Current(cluster.world), kind)
      ensures ok && Quiet(old(cluster.world), cluster.world) ==>
        var n := Current(old(cluster.world));
        Has(n, kind, status, reason) ==> Find(node.conditions, kind) == Find(n.conditions, kind)
      ensures old(cluster.future) == [] ==> ok && cluster.future == [] && Quiet(old(cluster.world), cluster.world)
    {
      var turn := cluster.Elapse();
      var w := cluster.world;
      var current := Current(w);
      var c := Condition(kind, status, reason, w.clock - turn.lag);
      var conditions := UpdateConditions(current.conditions, c);
      var updated := current.(conditions := conditions);
      ConditionUpdate(current, updated, c, w.clock);
      var from := if kind == REBOOT then origin else w.history[|w.history| - 1].origin;
      TracedUpdate(old(cluster.world), w, updated, kind, origin);
      ok := Patch(turn, updated, from);
      ConditionStored(old(cluster.world), w, cluster.world, updated, kind);
    }

    /** Marks the node (un)schedulable; nothing is written when it already is. */
    method SetNodeUnschedulable(unschedulable: bool) returns (ok: bool)
      requires Inv(cluster.world)
      modifies this, cluster
      ensures Kept(old(cluster.world), cluster.world) && Idle(old(cluster.world), cluster.world)
      ensures ok ==> node == Current(cluster.world) && node.unschedulable == unschedulable
      ensures ok && Quiet(old(cluster.world), cluster.world) ==>
        Current(cluster.world) == Current(old(cluster.world)).(unschedulable := unschedulable)
      ensures Quiet(old(cluster.world), cluster.world) ==>
        Current(cluster.world).conditions == Current(old(cluster.world)).conditions
      ensures old(cluster.future) == [] ==> ok && cluster.future == [] && Quiet(old(cluster.world), cluster.world)
    {
      var turn := cluster.Elapse();
      ok := PatchSpec(turn, Current(cluster.world).(unschedulable := unschedulable));
    }

    /** Adds the NoExecute taint unless its key is present, or removes key and effect. */
    method TaintNodeWithNoExecute(add: bool) returns (ok: bool)
      requires Inv(cluster.world)
      modifies this, cluster
      ensures Kept(old(cluster.world), cluster.world) && Idle(old(cluster.world), cluster.world)
      ensures ok ==> node == Current(cluster.world) && (add ==> Tainted(node))
      ensures ok && !add ==> Untainted(node)
      ensures ok && Quiet(old(cluster.world), cluster.world) ==>
        Current(cluster.world) == Current(old(cluster.world)).(taints := Current(cluster.world).taints)
      ensures Quiet(old(cluster.world), cluster.world) ==>
        Current(cluster.world).conditions == Current(old(cluster.world)).conditions
      ensures ok && add && Quiet(old(cluster.world), cluster.world) ==>
        var taints := Current(old(cluster.world)).taints;
        node.taints == if exists t :: t in taints && t.key == TAINT_KEY then taints
          else taints + [Taint(TAINT_KEY, "true", NO_EXECUTE)]
      ensures old(cluster.future) == [] ==> ok && cluster.future == [] && Quiet(old(cluster.world), cluster.world)
    {
      var turn := cluster.Elapse();
      var current := Current(cluster.world);
      if add {
        var taints := current.taints;
        if !Tainted(current) {
          taints := taints + [Taint(TAINT_KEY, "true", NO_EXECUTE)];
          assert taints[|taints| - 1].key == TAINT_KEY;
        }
        ok := PatchSpec(turn, current.(taints := taints));
      } else {
        var taints := WithoutTaint(current.taints);
        ok := PatchSpec(turn, current.(taints := taints));
      }
    }

    /** A change of the node's spec, which leaves the conditions alone; skipped when it changes nothing. */
    method PatchSpec(turn: Turn, updated: Node) returns (ok: bool)
      requires Inv(cluster.world) && updated.conditions == Current(cluster.world).conditions
      modifies this, cluster
      ensures Kept(old(cluster.world), cluster.world) && Quiet(old(cluster.world), cluster.world)
      ensures ok ==> node == updated == Current(cluster.world)
      ensures Current(cluster.world).conditions == updated.conditions
      ensures Idle(old(cluster.world), cluster.world) && cluster.future == old(cluster.future)
      ensures turn.fate == Done ==> ok
    {
      var w := cluster.world;
      if updated == Current(w) {
        if turn.fate != Done {
          return false;
        }
        node := updated;
        return true;
      }
      TracedUpdate(w, w, updated, DRAIN, 0);
      ok := Patch(turn, updated, w.history[|w.history| - 1].origin);
    }

    /** Checks the pods on the node; the first one that must go stops the drain. */
    method AreAllPodsEvicted() returns (result: Drainage)
      requires Inv(cluster.world)
      modifies cluster
      ensures Kept(old(cluster.world), cluster.world) && cluster.world.commands == old(cluster.world.commands)
      ensures var pods := LastFetch(cluster.world.fetched, |old(cluster.world.fetched)|, |cluster.world.fetched|);
              (result == Drained <==> Emptied(pods)) && (result == DrainFailed <==> pods.None?)
      ensures Quiet(old(cluster.world), cluster.world) ==> Current(cluster.world) == Current(old(cluster.world))
      ensures old(cluster.future) == [] ==>
        result == Drained && cluster.future == [] && Quiet(old(cluster.world), cluster.world)
    {
      var ok, pods := cluster.ListPods();
      if !ok {
        return DrainFailed;
      }
      for i := 0 to |pods|
        invariant forall j :: 0 <= j < i ==> MayStay(pods[j])
      {
        if !MayStay(pods[i]) {
          return NotEvictable;
        }
      }
      return Drained;
    }

    /** The first half of the drain: announce it and cordon the node. */
    method Cordon() returns (ok: bool)
      requires Inv(cluster.world)
      modifies this, cluster
      ensures Kept(old(cluster.world), cluster.world) && Idle(old(cluster.world), cluster.world)
      ensures ok && Quiet(old(cluster.world), cluster.world) ==>
        Current(cluster.world).unschedulable && Has(Current(cluster.world), DRAIN, ConditionTrue, NODE_DRAINING)
      ensures old(cluster.future) == [] ==> ok && cluster.future == [] && Quiet(old(cluster.world), cluster.world)
    {
      ghost var w0 := cluster.world;
      ok := SetNodeCondition(DRAIN, ConditionTrue, NODE_DRAINING, 0);
      if ok && !node.unschedulable {
        ghost var w1 := cluster.world;
        ok := SetNodeUnschedulable(true);
        QuietMeets(w0, w1, cluster.world);
      }
    }

    /** Cordons the node and, with the evict method, taints it. */
    method CordonAndTaint() returns (ok: bool)
      requires Inv(cluster.world)
      modifies this, cluster
      ensures Kept(old(cluster.world), cluster.world) && Idle(old(cluster.world), cluster.world)
      ensures ok && Quiet(old(cluster.world), cluster.world) ==>
        Current(cluster.world).unschedulable && (evictionMethod == "evict" ==> Tainted(Current(cluster.world)))
      ensures old(cluster.future) == [] ==> ok && cluster.future == [] && Quiet(old(cluster.world), cluster.world)
    {
      ghost var w0 := cluster.world;
      ok := Cordon();
      if ok && evictionMethod == "evict" {
        ghost var w1 := cluster.world;
        ok := TaintNodeWithNoExecute(true);
        QuietMeets(w0, w1, cluster.world);
      }
    }

    method DrainNodeIfNeeded() returns (result: Drainage)
      requires Inv(cluster.world)
      modifies this, cluster
      ensures Kept(old(cluster.world), cluster.world) && cluster.world.commands == old(cluster.world.commands)
      ensures result == Drained && evictionMethod != "drain" ==>
        Emptied(LastFetch(cluster.world.fetched, |old(cluster.world.fetched)|, |cluster.world.fetched|))
      ensures result == NotEvictable ==>
        var pods := LastFetch(cluster.world.fetched, |old(cluster.world.fetched)|, |cluster.world.fetched|);
        evictionMethod != "drain" && pods.Some? && !Emptied(pods)
      ensures result == Drained && Quiet(old(cluster.world), cluster.world) ==>
        Current(cluster.world).unschedulable && (evictionMethod == "evict" ==> Tainted(Current(cluster.world)))
      ensures old(cluster.future) == [] ==>
        result == Drained && cluster.future == [] && Quiet(old(cluster.world), cluster.world)
    {
      ghost var w0 := cluster.world;
      var ok := CordonAndTaint();
      if !ok {
        return DrainFailed;
      }
      if evictionMethod == "drain" {
        return Drained;
      }
      ghost var w1 := cluster.world;
      result := AreAllPodsEvicted();
      QuietMeets(w0, w1, cluster.world);
    }

    /** Makes the node schedulable and removes the taint; the cordon is judged on the local copy. */
    method UndrainNodeIfNeeded() returns (ok: bool)
      requires Inv(cluster.world)
      modifies this, cluster
      ensures Kept(old(cluster.world), cluster.world) && Idle(old(cluster.world), cluster.world)
      ensures ok ==> Untainted(Current(cluster.world))
      ensures Quiet(old(cluster.world), cluster.world) ==>
        Current(cluster.world).conditions == Current(old(cluster.world)).conditions
      ensures ok && Quiet(old(cluster.world), cluster.world) && old(node) == Current(old(cluster.world)) ==>
        !Current(cluster.world).unschedulable
      ensures old(cluster.future) == [] ==> ok && cluster.future == [] && Quiet(old(cluster.world), cluster.world)
    {
      ghost var w0 := cluster.world;
      if node.unschedulable {
        ok := SetNodeUnschedulable(false);
        if !ok {
          return;
        }
      }
      ghost var w1 := cluster.world;
      ok := TaintNodeWithNoExecute(false);
      QuietMeets(w0, w1, cluster.world);
    }

    method HandleNodeUnDrain() returns (ok: bool)
      requires Inv(cluster.world)
      modifies this, cluster
      ensures Kept(old(cluster.world), cluster.world) && Idle(old(cluster.world), cluster.world)
      ensures ok ==> Has(Current(cluster.world), DRAIN, ConditionFalse, NODE_UNDRAINED)
      ensures ok && Quiet(old(cluster.world), cluster.world) ==> Untainted(Current(cluster.world))
      ensures Quiet(old(cluster.world), cluster.world) ==>
        Find(Current(cluster.world).conditions, REBOOT) == Find(Current(old(cluster.world)).conditions, REBOOT)
      ensures ok && Quiet(old(cluster.world), cluster.world) && old(node) == Current(old(cluster.world)) ==>
        !Current(cluster.world).unschedulable
      ensures old(cluster.future) == [] ==> ok && cluster.future == [] && Quiet(old(cluster.world), cluster.world)
    {
      ghost var w0 := cluster.world;
      ok := UndrainNodeIfNeeded();
      if ok {
        ghost var w1 := cluster.world;
        ok := SetNodeCondition(DRAIN, ConditionFalse, NODE_UNDRAINED, 0);
        QuietMeets(w0, w1, cluster.world);
      }
    }

    /** Reads the node from the cache: some version, not necessarily the last one. */
    method GetNode() returns (ok: bool, index: nat)
      requires Inv(cluster.world)
      modifies this, cluster
      ensures Kept(old(cluster.world), cluster.world) && Idle(old(cluster.world), cluster.world)
      ensures index < |cluster.world.history| && (ok ==> node == cluster.world.history[index].node)
      ensures old(cluster.future) == [] ==>
        && ok && cluster.future == [] && index == |cluster.world.history| - 1 && cluster.world == old(cluster.world)
        && node == Current(old(cluster.world))
    {
      var turn := cluster.Elapse();
      var last := |cluster.world.history| - 1;
      index := if turn.age <= last then last - turn.age else 0;
      ok := turn.fate == Done;
      if ok {
        node := cluster.world.history[index].node;
      }
    }

    /** The boot time computed from the uptime: never before the real one. */
    method NodeStartTime() returns (ok: bool, start: int)
      requires Inv(cluster.world)
      modifies cluster
      ensures Kept(old(cluster.world), cluster.world) && Idle(old(cluster.world), cluster.world)
      ensures start >= cluster.world.boot
      ensures Quiet(old(cluster.world), cluster.world) ==> cluster.world.history == old(cluster.world.history)
      ensures old(cluster.future) == [] ==>
        ok && cluster.future == [] && start == cluster.world.boot && cluster.world == old(cluster.world)
    {
      var turn := cluster.Elapse();
      return turn.fate == Done, cluster.world.boot + turn.slack;
    }

    /** The reboot has happened: undrain the node if that was the wish, and only then say so. */
    method Acknowledge(undrain: bool) returns (ok: bool)
      requires Inv(cluster.world)
      modifies this, cluster
      ensures Kept(old(cluster.world), cluster.world) && Idle(old(cluster.world), cluster.world)
      ensures ok ==> Has(Current(cluster.world), REBOOT, ConditionTrue, NODE_REBOOTED)
      ensures ok && Quiet(old(cluster.world), cluster.world) ==>
        if undrain then old(node) == Current(old(cluster.world)) ==> InService(Current(cluster.world))
        else OnlyKindChanged(Current(old(cluster.world)), Current(cluster.world), REBOOT)
      ensures undrain && Quiet(old(cluster.world), cluster.world) && old(node) == Current(old(cluster.world)) ==>
        !Rebooted(old(node)) && Rebooted(Current(cluster.world)) ==> InService(Current(cluster.world))
      ensures old(cluster.future) == [] ==> ok && cluster.future == [] && Quiet(old(cluster.world), cluster.world)
    {
      ghost var w0 := cluster.world;
      ok := true;
      if undrain {
        ok := HandleNodeUnDrain();
      }
      if ok {
        ghost var w1 := cluster.world;
        ok := SetNodeCondition(REBOOT, ConditionTrue, NODE_REBOOTED, 0);
        QuietMeets(w0, w1, cluster.world);
      }
    }

    /** A reboot condition dated no later than the boot is acknowledged; else the reboot is still to come. */
    method SettleReboot(c: Condition) returns (ok: bool, pending: bool)
      requires Inv(cluster.world)
      modifies this, cluster
      ensures Kept(old(cluster.world), cluster.world) && Idle(old(cluster.world), cluster.world)
      ensures ok && pending ==> c.transition > cluster.world.boot
      ensures ok && !pending ==> Has(Current(cluster.world), REBOOT, ConditionTrue, NODE_REBOOTED)
      ensures ok && !pending && Quiet(old(cluster.world), cluster.world) ==>
        if NeedsReboot(c) then old(node) == Current(old(cluster.world)) ==> InService(Current(cluster.world))
        else OnlyKindChanged(Current(old(cluster.world)), Current(cluster.world), REBOOT)
      ensures ok && pending && Quiet(old(cluster.world), cluster.world) ==>
        cluster.world.history == old(cluster.world).history
      ensures old(cluster.future) == [] ==>
        && ok && cluster.future == [] && Quiet(old(cluster.world), cluster.world)
        && (pending <==> c.transition > cluster.world.boot)
    {
      ghost var w0 := cluster.world;
      pending := false;
      var start: int;
      ok, start := NodeStartTime();
      if !ok {
        return;
      }
      ghost var w1 := cluster.world;
      pending := start < c.transition;
      if !pending {
        ok := Acknowledge(NeedsReboot(c));
        QuietMeets(w0, w1, cluster.world);
      }
    }

    /** Decides what the node needs; after a reboot it also undrains and acknowledges. */
    method GetActions(index: nat) returns (ok: bool, drain: bool, reboot: bool, origin: nat)
      requires Inv(cluster.world)
      requires index < |cluster.world.history| && node == cluster.world.history[index].node
      modifies this, cluster
      ensures Kept(old(cluster.world), cluster.world) && Idle(old(cluster.world), cluster.world)
      ensures ok && reboot ==>
        drain && IsRequest(cluster.world.history, origin, cluster.world.epoch, cluster.world.boot)
      ensures ok && reboot ==> Wants(old(node)) && WantedSince(old(node)) > cluster.world.boot
      ensures ok ==> (drain <==> AsksDrain(old(node)) || reboot)
      ensures
        var c := Find(old(node).conditions, REBOOT);
        ok && c.Some? && c.value.transition <= cluster.world.boot ==>
        !reboot && Has(Current(cluster.world), REBOOT, ConditionTrue, NODE_REBOOTED)
      ensures ok && Quiet(old(cluster.world), cluster.world) && old(node) == Current(old(cluster.world)) ==>
        Judged(old(node), Current(cluster.world), cluster.world.boot)
      ensures old(cluster.future) == [] ==>
        && ok && cluster.future == [] && Quiet(old(cluster.world), cluster.world)
        && (reboot <==> Wants(old(node)) && WantedSince(old(node)) > cluster.world.boot)
    {
      drain, reboot, origin := false, false, cluster.world.history[index].origin;
      var drainCondition := Find(node.conditions, DRAIN);
      if drainCondition.Some? && drainCondition.value.status == ConditionTrue {
        drain := true;
      }
      var rebootCondition := Find(node.conditions, REBOOT);
      if rebootCondition.None? {
        ok := true;
        return;
      }
      var pending;
      ok, pending := SettleReboot(rebootCondition.value);
      if ok && pending && NeedsReboot(rebootCondition.value) {
        assert Wants(cluster.world.history[index].node);
        drain, reboot := true, true;
      }
    }

    method HandleNodeDrain(drain: bool) returns (result: Drainage)
      requires Inv(cluster.world)
      modifies this, cluster
      ensures Kept(old(cluster.world), cluster.world) && cluster.world.commands == old(cluster.world.commands)
      ensures drain && result == Drained && evictionMethod != "drain" ==>
        Emptied(LastFetch(cluster.world.fetched, |old(cluster.world.fetched)|, |cluster.world.fetched|))
      ensures drain && result == Drained && Quiet(old(cluster.world), cluster.world) ==>
        DrainedBy(Current(cluster.world), evictionMethod == "evict")
      ensures !drain ==> result == Drained && cluster.world == old(cluster.world) && node == old(node)
      ensures result == NotEvictable ==>
        var pods := LastFetch(cluster.world.fetched, |old(cluster.world.fetched)|, |cluster.world.fetched|);
        evictionMethod != "drain" && pods.Some? && !Emptied(pods)
      ensures old(cluster.future) == [] ==>
        result == Drained && cluster.future == [] && Quiet(old(cluster.world), cluster.world)
    {
      if !drain {
        return Drained;
      }
      ghost var w0 := cluster.world;
      result := DrainNodeIfNeeded();
      if result != Drained {
        return;
      }
      ghost var w1 := cluster.world;
      var ok := SetNodeCondition(DRAIN, ConditionTrue, NODE_DRAINED, 0);
      QuietMeets(w0, w1, cluster.world);
      if !ok {
        return DrainFailed;
      }
    }

    /** Records the reboot as under way. */
    method RecordReboot(origin: nat) returns (ok: bool)
      requires Inv(cluster.world) && Orderly(cluster.world)
      requires MayReboot(cluster.world, origin, evictionMethod == "evict", false)
      modifies this, cluster
      ensures Kept(old(cluster.world), cluster.world) && Idle(old(cluster.world), cluster.world) &&
        Orderly(cluster.world)
      ensures ok ==> MayReboot(cluster.world, origin, evictionMethod == "evict", true)
      ensures ok ==> RebootRecorded(cluster.world.history, |old(cluster.world.history)|, |cluster.world.history|)
      ensures Quiet(old(cluster.world), cluster.world) ==>
        OnlyKindChanged(Current(old(cluster.world)), Current(cluster.world), REBOOT)
      ensures old(cluster.future) == [] ==> ok && cluster.future == [] && Quiet(old(cluster.world), cluster.world)
    {
      ghost var w0 := cluster.world;
      ok := SetNodeCondition(REBOOT, ConditionTrue, NODE_REBOOTING, origin);
      RebootIsRecorded(w0, cluster.world, origin, evictionMethod == "evict", ok);
    }

    /** Records the reboot as under way, then gives the command. */
    method HandleNodeReboot(origin: nat) returns (ok: bool)
      requires Inv(cluster.world) && Orderly(cluster.world)
      requires MayReboot(cluster.world, origin, evictionMethod == "evict", false)
      modifies this, cluster
      ensures Kept(old(cluster.world), cluster.world) && Orderly(cluster.world)
      ensures GivenReady(old(cluster.world), cluster.world, evictionMethod == "evict")
      ensures |cluster.world.commands| > |old(cluster.world.commands)| ==>
        RebootRecorded(cluster.world.history, |old(cluster.world.history)|, |cluster.world.history|)
      ensures Quiet(old(cluster.world), cluster.world) ==>
        OnlyKindChanged(Current(old(cluster.world)), Current(cluster.world), REBOOT)
      ensures ok ==> |cluster.world.commands| == |old(cluster.world.commands)| + 1
      ensures old(cluster.future) == [] ==> ok && cluster.future == [] && Quiet(old(cluster.world), cluster.world)
    {
      ghost var w0 := cluster.world;
      ok := RecordReboot(origin);
      if ok {
        ghost var w1 := cluster.world;
        ok := RebootNode(origin);
        HandledReboot(w0, w1, cluster.world, evictionMethod == "evict");
      }
    }

    /** The reboot command itself. */
    method RebootNode(origin: nat) returns (ok: bool)
      requires Inv(cluster.world) && Orderly(cluster.world)
      requires MayReboot(cluster.world, origin, evictionMethod == "evict", true)
      modifies cluster
      ensures Kept(old(cluster.world), cluster.world) && Orderly(cluster.world)
      ensures GivenReady(old(cluster.world), cluster.world, evictionMethod == "evict")
      ensures ok ==> |cluster.world.commands| == |old(cluster.world.commands)| + 1
      ensures Quiet(old(cluster.world), cluster.world) ==> cluster.world.history == old(cluster.world.history)
      ensures old(cluster.future) == [] ==> ok && cluster.future == [] && Quiet(old(cluster.world), cluster.world)
    {
      ok := cluster.Reboot(origin, evictionMethod == "evict");
    }

    /** Reads the node and decides what it needs. */
    method Judge() returns (ok: bool, drain: bool, reboot: bool, origin: nat, ghost read: nat)
      requires Inv(cluster.world)
      modifies this, cluster
      ensures Kept(old(cluster.world), cluster.world) && Idle(old(cluster.world), cluster.world)
      ensures ok && reboot ==>
        drain && IsRequest(cluster.world.history, origin, cluster.world.epoch, cluster.world.boot)
      ensures ok ==>
        read < |cluster.world.history| && (drain <==> AsksDrain(cluster.world.history[read].node) || reboot)
      ensures old(cluster.future) == [] ==>
        var n := Current(old(cluster.world));
        && ok && cluster.future == [] && (reboot <==> Wants(n) && WantedSince(n) > cluster.world.boot)
        && (drain <==> AsksDrain(n) || reboot) && Quiet(old(cluster.world), cluster.world)
        && Judged(n, Current(cluster.world), cluster.world.boot)
    {
      ghost var w0 := cluster.world;
      drain, reboot, origin := false, false, 0;
      var index: nat;
      ok, index := GetNode();
      read := index;
      if ok {
        ghost var w1 := cluster.world;
        ok, drain, reboot, origin := GetActions(index);
        LaterStill(w0, w1, cluster.world);
      }
    }

    /**
     One reconcile, from the cached read to the reboot command; any step may end it. A drain that
     the version read asks for is carried out; `result` says how it went. Without faults a rebooted
     node is back in service exactly if it did not ask for a drain, and else it is drained again.
     */
    method Reconcile() returns (ok: bool, ghost read: nat, ghost result: Drainage)
      requires Inv(cluster.world) && Orderly(cluster.world)
      modifies this, cluster
      ensures Kept(old(cluster.world), cluster.world) && Orderly(cluster.world)
      ensures GivenReady(old(cluster.world), cluster.world, evictionMethod == "evict")
      ensures ok ==> result != DrainFailed && read < |cluster.world.history|
      ensures ok && result == Drained && Quiet(old(cluster.world), cluster.world) ==>
        AsksDrain(cluster.world.history[read].node) ==> DrainedBy(Current(cluster.world), evictionMethod == "evict")
      ensures old(cluster.future) == [] ==>
        var n := Current(old(cluster.world));
        && ok
        && |cluster.world.commands| == |old(cluster.world.commands)| +
           if Wants(n) && WantedSince(n) > cluster.world.boot then 1 else 0
      ensures old(cluster.future) == [] ==>
        Settles(Current(old(cluster.world)), Current(cluster.world), cluster.world.boot, evictionMethod == "evict")
    {
      ghost var w0 := cluster.world;
      var drain, reboot, origin;
      ok, drain, reboot, origin, read := Judge();
      result := DrainFailed;
      OrderlyPersists(w0, cluster.world);
      if !ok {
        return;
      }
      ghost var w1 := cluster.world;
      ok, result := Act(drain, reboot, origin);
      LaterStill(w0, w1, cluster.world);
      QuietMeets(w0, w1, cluster.world);
      ReadySince(w0, w1, cluster.world, evictionMethod == "evict");
    }

    /** Drains if asked to; reboots if asked to and the drain went through. */
    method Act(drain: bool, reboot: bool, origin: nat) returns (ok: bool, ghost result: Drainage)
      requires Inv(cluster.world) && Orderly(cluster.world)
      requires reboot ==> drain && IsRequest(cluster.world.history, origin, cluster.world.epoch, cluster.world.boot)
      modifies this, cluster
      ensures Kept(old(cluster.world), cluster.world) && Orderly(cluster.world)
      ensures GivenReady(old(cluster.world), cluster.world, evictionMethod == "evict")
      ensures ok ==> result != DrainFailed
      ensures drain && result == Drained && Quiet(old(cluster.world), cluster.world) ==>
        DrainedBy(Current(cluster.world), evictionMethod == "evict")
      ensures !drain ==> ok && cluster.world == old(cluster.world)
      ensures ok && result == Drained ==>
        |cluster.world.commands| == |old(cluster.world.commands)| + if reboot then 1 else 0
      ensures old(cluster.future) == [] ==>
        ok && result == Drained && Quiet(old(cluster.world), cluster.world)
    {
      ghost var w0 := cluster.world;
      var outcome := HandleNodeDrain(drain);
      result := outcome;
      OrderlyPersists(w0, cluster.world);
      if outcome != Drained {
        return outcome == NotEvictable, result;
      }
      ok := true;
      if reboot {
        ghost var w1 := cluster.world;
        DrainedForReboot(w0, w1, origin, evictionMethod == "evict");
        ok := HandleNodeReboot(origin);
        DrainThenReboot(w0, w1, cluster.world, evictionMethod == "evict");
      }
    }
  }

  datatype Round = MachineBoots(elapsed: nat) | Reconciles

  /** From version n on, no other writer changed the reboot condition. */
  ghost predicate Unasked(history: seq<Version>, n: nat) {
    forall i :: n <= i < |history| && history[i].foreign ==> !ChangesWish(history, i)
  }

  /** A request of this epoch is neither on the settled record nor among unasked writes. */
  lemma {:induction false} NoRequest(w0: World, w: World, o: nat)
    requires Later(w0, w) && Settled(w0) && Unasked(w.history, |w0.history|)
    ensures !IsRequest(w.history, o, w.epoch, w.boot)
  {
    if o < |w0.history| {
      assert w.history[o] == w0.history[o];
    }
  }

  /** Once settled, and until another writer asks again, no command is given. */
  lemma {:induction false} StaysSettled(w0: World, w: World)
    requires Later(w0, w) && Inv(w) && Orderly(w) && Settled(w0) && Unasked(w.history, |w0.history|)
    ensures Settled(w) && w.commands == w0.commands
  {
    forall i | 0 <= i < |w.history| && Wants(w.history[i].node) ensures WantedSince(w.history[i].node) <= w.boot {
      NoRequest(w0, w, w.history[i].origin);
    }
    if |w.commands| > |w0.commands| {
      NoRequest(w0, w, w.commands[|w0.commands|].origin);
    }
  }

  lemma {:induction false} UnaskedSplits(h0: seq<Version>, h1: seq<Version>, n: nat)
    requires n <= |h0| && h0 <= h1 && Unasked(h1, n)
    ensures Unasked(h0, n) && Unasked(h1, |h0|)
  {
    forall i | n <= i < |h0| && h0[i].foreign ensures !ChangesWish(h0, i) {
      assert h1[i] == h0[i] && !ChangesWish(h1, i);
    }
  }

  /** If it began settled and nobody asked since: still settled, and no command was given. */
  ghost predicate QuietUntilAsked(w0: World, w: World) {
    w0.history <= w.history && (Settled(w0) && Unasked(w.history, |w0.history|) ==>
      Settled(w) && w.commands == w0.commands)
  }

  lemma {:induction false} UntilNextRound(w0: World, w1: World, w2: World)
    requires QuietUntilAsked(w0, w1) && QuietUntilAsked(w1, w2)
    ensures QuietUntilAsked(w0, w2)
  {
    if Unasked(w2.history, |w0.history|) {
      UnaskedSplits(w1.history, w2.history, |w0.history|);
    }
  }

  lemma {:induction false} UntilReconciled(w0: World, w: World)
    requires Later(w0, w) && Inv(w) && Orderly(w)
    ensures QuietUntilAsked(w0, w)
  {
    if Settled(w0) && Unasked(w.history, |w0.history|) {
      StaysSettled(w0, w);
    }
  }

  /** The commands given since there were n of them are those of a rebooter with this eviction method. */
  predicate EvictingSince(w: World, n: nat, evict: bool) {
    forall i :: n <= i < |w.commands| ==> w.commands[i].evict == evict
  }

  /**
   Any number of reconciles and boots in any order, under any environment. Afterwards every
   reboot command on record serves an outside request: a change of the reboot condition by another
   writer, made before it in its own boot epoch and dated after that epoch's boot. Its reconcile
   recorded the reboot as under way and, with the evict method and nobody else writing, found the
   node drained. Once a boot has left every wish behind, no command is given until another writer
   changes the condition.
   */
  method Operate(cluster: Cluster, evictionMethod: string, rounds: seq<Round>)
    requires Inv(cluster.world) && Orderly(cluster.world)
    modifies cluster
    ensures Inv(cluster.world) && old(cluster.world).commands <= cluster.world.commands
    ensures Orderly(cluster.world)
    ensures EvictingSince(cluster.world, |old(cluster.world).commands|, evictionMethod == "evict")
    ensures QuietUntilAsked(old(cluster.world), cluster.world)
  {
    ghost var w0 := cluster.world;
    for i := 0 to |rounds|
      invariant Inv(cluster.world) && Orderly(cluster.world) && w0.commands <= cluster.world.commands
      invariant EvictingSince(cluster.world, |w0.commands|, evictionMethod == "evict")
      invariant QuietUntilAsked(w0, cluster.world)
    {
      ghost var w1 := cluster.world;
      match rounds[i]
      case MachineBoots(elapsed) =>
        cluster.Boot(elapsed);
        OrderlyPersists(w1, cluster.world);
        UntilNextRound(w0, w1, cluster.world);
      case Reconciles =>
        cluster.Dispatch();
        OrderlyPersists(w1, cluster.world);
        ghost var w2 := cluster.world;
        var reconciler := new Reconciler(cluster, evictionMethod);
        var ok, _, _ := reconciler.Reconcile();
        UntilReconciled(w2, cluster.world);
        UntilNextRound(w0, w2, cluster.world);
    }
  }

  lemma {:induction false} LaterStill(w0: World, w1: World, w2: World)
    requires Later(w0, w1) && Later(w1, w2)
    ensures Later(w0, w2)
  {
  }

  lemma {:induction false} RecordPersists(h0: seq<Version>, h1: seq<Version>, from: nat)
    requires h0 <= h1 && from <= |h0|
    requires RebootRecorded(h0, from, |h0|)
    ensures RebootRecorded(h1, from, |h1|)
  {
    var i :| from <= i < |h0| && !h0[i].foreign && Has(h0[i].node, REBOOT, ConditionTrue, NODE_REBOOTING);
    assert h1[i] == h0[i];
  }

  lemma {:induction false} HandledReboot(w0: World, w1: World, w: World, evict: bool)
    requires Later(w0, w1) && Idle(w0, w1) && Later(w1, w) && GivenReady(w1, w, evict)
    requires RebootRecorded(w1.history, |w0.history|, |w1.history|) && w0.history != []
    requires Quiet(w0, w1) ==> OnlyKindChanged(Current(w0), Current(w1), REBOOT)
    requires Quiet(w1, w) ==> w.history == w1.history
    ensures Later(w0, w) && GivenReady(w0, w, evict) && RebootRecorded(w.history, |w0.history|, |w.history|)
    ensures Quiet(w0, w) ==> OnlyKindChanged(Current(w0), Current(w), REBOOT)
    ensures Quiet(w0, w1) && Quiet(w1, w) ==> Quiet(w0, w)
  {
    QuietMeets(w0, w1, w);
    LaterStill(w0, w1, w);
    ReadySince(w0, w1, w, evict);
    RecordPersists(w1.history, w.history, |w0.history|);
  }

  /** Quiet since the reconcile began means quiet since any later moment, and before it. */
  lemma {:induction false} QuietWithin(w0: World, w: World)
    requires Later(w0, w) && w0.began.versions <= |w0.history| && QuietSince(w)
    ensures QuietSince(w0) && Quiet(w0, w)
  {
    assert forall i :: 0 <= i < |w0.history| ==> w.history[i] == w0.history[i];
  }

  /** A completed drain prepares the reboot. */
  lemma {:induction false} DrainedForReboot(w0: World, w: World, origin: nat, evict: bool)
    requires Timed(w0) && Later(w0, w) && IsRequest(w0.history, origin, w0.epoch, w0.boot)
    requires evict ==> Emptied(LastFetch(w.fetched, |w0.fetched|, |w.fetched|))
    requires evict && Quiet(w0, w) ==> DrainComplete(Current(w))
    ensures MayReboot(w, origin, evict, false)
  {
    RequestsPersist(w0.history, w.history, origin, w.epoch, w.boot);
    if QuietSince(w) {
      QuietWithin(w0, w);
    }
  }

  /** Recording the reboot leaves a completed drain in place. */
  lemma {:induction false} StillDrained(w0: World, w: World, origin: nat, evict: bool)
    requires Timed(w0) && MayReboot(w0, origin, evict, false) && Later(w0, w) && Idle(w0, w)
    requires Quiet(w0, w) ==> OnlyKindChanged(Current(w0), Current(w), REBOOT)
    requires |w0.history| < |w.history| && !w.history[|w.history| - 1].foreign
    requires Has(Current(w), REBOOT, ConditionTrue, NODE_REBOOTING)
    ensures MayReboot(w, origin, evict, true) && RebootRecorded(w.history, |w0.history|, |w.history|)
  {
    RequestsPersist(w0.history, w.history, origin, w.epoch, w.boot);
    if QuietSince(w) {
      QuietWithin(w0, w);
    }
  }

  /** What others write before the command lands does not touch what it rests on, or shows. */
  lemma {:induction false} StillReady(w0: World, w: World, origin: nat, evict: bool)
    requires Timed(w0) && MayReboot(w0, origin, evict, true) && Later(w0, w) && Idle(w0, w)
    requires Quiet(w0, w) ==> w.history == w0.history
    ensures MayReboot(w, origin, evict, true)
  {
    RequestsPersist(w0.history, w.history, origin, w.epoch, w.boot);
    RecordPersists(w0.history, w.history, w0.began.versions);
    if QuietSince(w) {
      QuietWithin(w0, w);
    }
  }

  /** While the order is on its way nothing it rests on changes. */
  lemma {:induction false} RebootAwaits(w0: World, w: World, origin: nat, evict: bool)
    requires Timed(w0) && Orderly(w0) && MayReboot(w0, origin, evict, true) && Kept(w0, w) && Idle(w0, w)
    requires Quiet(w0, w) ==> w.history == w0.history
    ensures Orderly(w) && MayReboot(w, origin, evict, true) && GivenReady(w0, w, evict)
  {
    StillReady(w0, w, origin, evict);
    OrderlyPersists(w0, w);
  }

  /** The order reaches the machine. */
  lemma {:induction false} RebootLands(w0: World, w: World, origin: nat, evict: bool)
    requires Kept(w0, w) && Idle(w0, w) && Orderly(w) && MayReboot(w, origin, evict, true)
    ensures
      var given := Commanded(w, CommandNow(w, origin, evict));
      Kept(w0, given) && Orderly(given) && GivenReady(w0, given, evict)
  {
    CommandIsOrderly(w, origin, evict);
    CommandIsReady(w0, w, origin, evict);
    CommandIsKept(w0, w, CommandNow(w, origin, evict));
  }

  /** The reboot is recorded as under way, or not. */
  lemma {:induction false} RebootIsRecorded(w0: World, w: World, origin: nat, evict: bool, ok: bool)
    requires Timed(w0) && Orderly(w0) && MayReboot(w0, origin, evict, false) && Kept(w0, w) && Idle(w0, w)
    requires Quiet(w0, w) ==> OnlyKindChanged(Current(w0), Current(w), REBOOT)
    requires ok ==> |w0.history| < |w.history| && !w.history[|w.history| - 1].foreign
    requires ok ==> Has(Current(w), REBOOT, ConditionTrue, NODE_REBOOTING)
    ensures Orderly(w)
    ensures ok ==> MayReboot(w, origin, evict, true) && RebootRecorded(w.history, |w0.history|, |w.history|)
  {
    OrderlyPersists(w0, w);
    if ok {
      StillDrained(w0, w, origin, evict);
    }
  }

  /** A drain, then a reboot. */
  lemma {:induction false} DrainThenReboot(w0: World, w1: World, w: World, evict: bool)
    requires Later(w0, w1) && Later(w1, w) && w0.commands == w1.commands && GivenReady(w1, w, evict)
    requires w0.history != [] && (Quiet(w0, w1) ==> DrainedBy(Current(w1), evict))
    requires Quiet(w1, w) ==> OnlyKindChanged(Current(w1), Current(w), REBOOT)
    ensures Later(w0, w) && GivenReady(w0, w, evict) && (Quiet(w0, w) <==> Quiet(w0, w1) && Quiet(w1, w))
    ensures Quiet(w0, w) ==> DrainedBy(Current(w), evict)
  {
    QuietMeets(w0, w1, w);
    ReadySince(w0, w1, w, evict);
  }

  lemma {:induction false} ConditionUpdate(n: Node, updated: Node, c: Condition, at: int)
    requires WellTimed(n, at) && c.transition <= at && updated == n.(conditions := Put(n.conditions, c))
    ensures WellTimed(updated, at) && OnlyKindChanged(n, updated, c.kind) && Has(updated, c.kind, c.status, c.reason)
    ensures Has(n, c.kind, c.status, c.reason) ==> Find(updated.conditions, c.kind) == Find(n.conditions, c.kind)
  {
    PutIsTimed(n.conditions, c, at);
    forall k ensures k != c.kind ==> Find(updated.conditions, k) == Find(n.conditions, k) {
      PutThenFind(n.conditions, c, k);
    }
    PutThenFind(n.conditions, c, c.kind);
  }

  /** Stored or not, an update that nobody disturbs changes one kind of condition at most. */
  lemma {:induction false} ConditionStored(w0: World, w1: World, w: World, updated: Node, kind: string)
    requires Later(w0, w1) && Later(w1, w) && w0.history != [] && (Quiet(w0, w1) ==> w1.history == w0.history)
    requires w.history == w1.history || Current(w) == updated
    requires OnlyKindChanged(Current(w1), updated, kind)
    ensures Quiet(w0, w) ==> Current(w1) == Current(w0) && OnlyKindChanged(Current(w0), Current(w), kind)
  {
    QuietMeets(w0, w1, w);
  }

  /** A condition update carries its wish for a reboot back to the request it serves. */
  lemma {:induction false} TracedUpdate(w0: World, w: World, updated: Node, kind: string, origin: nat)
    requires w0.history <= w.history && w0.epoch == w.epoch && w0.boot == w.boot && Traced(w) && w0.history != []
    requires kind != REBOOT ==> Find(updated.conditions, REBOOT) == Find(Current(w).conditions, REBOOT)
    requires kind == REBOOT && Wants(updated) ==> IsRequest(w0.history, origin, w0.epoch, w0.boot)
    ensures
      var from := if kind == REBOOT then origin else w.history[|w.history| - 1].origin;
      Wants(updated) && WantedSince(updated) > w.boot ==> IsRequest(w.history, from, w.epoch, w.boot)
  {
    if kind != REBOOT {
      InheritedRequest(w, updated, w.history);
    } else if Wants(updated) {
      RequestsPersist(w0.history, w.history, origin, w.epoch, w.boot);
    }
  }
}
