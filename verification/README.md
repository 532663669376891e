# Soperator protocols in Dafny

Soperator runs Slurm on Kubernetes. This project models the parts of it that are protocols,
parsers or allocators, and proves what they promise for every input, every run and every
interleaving. `dafny verify dfyconfig.toml` checks all of it.

| files | what they model |
|---|---|
| `Hostlist`, `NodeExpansion`, `PowerList`, `PowerAgreement` | the three implementations of the Slurm hostlist language: a recogniser in Python, an expander in Go, an ordinal parser in Go |
| `NodeMetrics`, `NodeHistory`, `Exporter`, `ExporterRuns` | the metrics exporter: incremental node metrics, the snapshot commits, and overlapping collector runs |
| `Rebooter` | the node rebooter, against failing writes, stale reads, other writers and boots |
| `PowerState` | concurrent resume and suspend calls on a versioned object |
| `Handoff` | the worker's compare-and-set handoff over a lossy connection |
| `Selector`, `SelectorRuns` | the e2e profile selector and the runs that share its capacity blocks |
| `Tres` | printing and parsing trackable resources |
| `WorkerSelector` | filing workers under NodeSets and picking usable ones |
| `CheckRunner` | the node check runner and its cached view of the node |
| `Strings`, `Decimal`, `Strconv`, `Lists` | text, numerals, Go's integer parsing, list operations |

How the model is built:

- Code that changes state in a loop is a method with that loop; its contract ties the result to
  a function of the inputs or states the promised property outright. Remote objects (a pod, a
  node, a Slurm node) are classes with an arbitrary script of what the network and other writers
  do to each request.
- Concurrent code is a state machine. A step is one atomic action of one participant, a run is
  any sequence of enabled steps, and the main theorems hold in every reachable state.
- Clocks, random choices, sort orders that the language leaves open, API answers and failures
  are parameters.

Findings about the code, each with its exact condition:

- The Go expander pads to the width of the range's start and the Python recogniser to the wider
  endpoint, and only under zero padding. On a bracket item they name the same hosts if and only
  if the start is written at least as wide as the end or neither endpoint is zero-padded
  (`NodeExpansion.ItemAgreement`); `NodeExpansion.SkewedDisagrees` is a failing item.
- The power manager reads ordinals as numbers. The hosts it acts on for a list are those the list
  denotes if and only if no number in the list is zero-padded (`PowerAgreement.PowerAgrees`);
  `PowerAgreement.SevenDisagrees` is a failing list.
- A resume or suspend call that finds no power-state object creates it empty and reports success
  without applying the request (`PowerState.RequestLostOnCreate`). A successful call committed its
  request, exactly once, if and only if the object was stored when the call last read it
  (`PowerState.SuccessMeansCommitted`); with the object present throughout it always did
  (`PowerState.PresentMeansExactlyOnce`).
- The selector adds unsigned 64-bit counters that wrap. No run overcommits a block if and only if
  no choice of profiles with different projects needs 2^64 GPUs or more under one platform and
  fabric (`SelectorRuns.OvercommitCondition`); `SelectorRuns.WrappedCountersOvercommit` is a
  concrete configuration that fails.
- A rebooted node is undrained and acknowledged, and then drained again by the same reconcile if
  the copy it started from asks for a drain. It is back in service if and only if it did not
  (`Rebooter.RebootedReturns`); the node that a reboot command leaves behind always does
  (`Rebooter.RebootedStaysDrained`).
- Memory in a resource string comes back exactly if and only if the number of bytes fits in 63
  bits and a sign; otherwise its two's complement reduction is returned (`Tres.MemoryExact`).
  `Tres.MemoryWraps` is a failing list.
- A node missing from a list neither opens nor closes an episode, and its start time stays
  recorded; if it comes back in the state, a new episode starts. `NodeHistory.EpisodeRefinement`
  gives the recorded start after every history: that of the last run in the state, unless the
  commit right after that run lists the node as recovered.

## Model

| member | source | states |
|---|---|---|
| Hostlist.SplitHostlist | images/worker/worker_init.py:322-343 | the tokens are the trimmed, non-empty segments between commas outside brackets, where the depth never drops below zero |
| Hostlist.HostlistContains | images/worker/worker_init.py:314-319 | accepts a name exactly when some token of the list denotes it |
| Hostlist.TokenContains | images/worker/worker_init.py:346-366 | sound and complete: accepts a name exactly when it is in the set of names the token denotes, for any number of bracket groups; terminates on token length |
| Hostlist.GroupContains | images/worker/worker_init.py:357-366 | accepts exactly the prefix followed by a word of some item followed by a name of the rest |
| Hostlist.RangeContains | images/worker/worker_init.py:369-387 | accepts exactly the concatenations of a word of the item and a name of the rest, for numeric and literal items |
| Hostlist.NumericRangeContains | images/worker/worker_init.py:390-430 | the same for numeric ranges: empty ranges, zero padding to the wider endpoint, and unpadded numbers |
| Hostlist.PlainRangeContains | images/worker/worker_init.py:414-430 | trying every unpadded prefix of the leading digits misses no split and admits no wrong one |
| Hostlist.PaddedWords | images/worker/worker_init.py:402-412 | the words of a padded range are exactly the digit strings of that width with a value in range |
| Hostlist.PlainWords | images/worker/worker_init.py:420-428 | the words of an unpadded range are exactly the numerals without leading zero with a value in range |
| Hostlist.PaddedCut | images/worker/worker_init.py:406-412 | under padding the only possible split is after the padded width |
| Hostlist.CountDigits | images/worker/worker_init.py:414-418 | the count is the length of the longest prefix made of digits only |
| Strings.JoinOfPieces | internal/slurmapi/job.go:320-355 | splitting at commas is lossless for all three splitters: joining the segments gives the text back |
| Strings.PiecesOfJoin | internal/slurmapi/job.go:320-355 | splitting the join of bracket-closed texts gives those texts back |
| Strings.SignedDepth | internal/slurmapi/job.go:320-355 | the Go splitters' depth is the number of opening less closing brackets read |
| Strings.ClampedDepth | images/worker/worker_init.py:322-343 | the Python splitter's depth is the largest such balance of any end of the text read: a closing bracket that closes nothing counts nothing |
| Strings.TrimCuts | internal/slurmapi/tres.go:26-27 | trimming cuts white space off both ends and leaves none there |
| Strings.TrimFinds | internal/slurmapi/tres.go:26-27 | trimming recovers trimmed text from any white space around it |
| NodeExpansion.SplitNodeString | internal/slurmapi/job.go:320-355 | the parts are the trimmed, non-empty segments between commas at signed bracket depth zero |
| NodeExpansion.EntryAgreement | internal/slurmapi/job.go:357-403 | the expansion of a plain name or of a bracket pattern of agreeing items succeeds, and holds a name exactly when the recogniser's language of the same text does |
| NodeExpansion.InNumbered | internal/slurmapi/job.go:376-399 | the names made for a range are exactly the prefix followed by a number of the range at the given width |
| NodeExpansion.ItemExpands | internal/slurmapi/job.go:376-399 | a number is expanded exactly if it fits 63 bits, a range exactly if moreover it does not descend |
| NodeExpansion.ItemRefused | internal/slurmapi/job.go:376-399 | two dashes, or a character that is no digit, sign or dash, make an item an error |
| NodeExpansion.SkewedDisagrees | internal/slurmapi/job.go:388 | of the item 01-100 the Go expander makes a name ending in 01, which the recogniser's language lacks |
| NodeExpansion.ParseNodeList | internal/slurmapi/job.go:298-318 | the names of all parts in order; a part that is no bracket pattern is itself a name; one bad part fails the list |
| NodeExpansion.ItemAgreement | internal/slurmapi/job.go:376-399 | the Go expansion and the hostlist language agree on a numeric item if and only if the start is at least as wide as the end or neither endpoint is zero-padded |
| NodeExpansion.ItemDisagrees | images/worker/worker_init.py:402-404 | otherwise the start as written is a Go name and not a word of the item |
| NodeExpansion.GroupAgreement | internal/slurmapi/job.go:357-403 | on a bracket pattern of agreeing items, the Go expansion holds a name exactly when the recogniser's language does |
| NodeExpansion.ListAgreement | internal/slurmapi/job.go:298-403 | cross-language agreement on whole comma-separated lists of plain names and bracket patterns |
| PowerList.ParseNodeList | cmd/powermanager/main.go:405-419 | the references of all parts in order, or an error if one part is malformed |
| PowerList.ParseRangeSpec | cmd/powermanager/main.go:491-526 | the ordinals of all items in order; 32-bit bounds; a descending range is empty |
| PowerList.ItemReads | cmd/powermanager/main.go:491-526 | a number is its own ordinal; a range is all numbers from start to end, none if it descends; a number of 2^31 or more is an error |
| PowerList.PartNeedsForm | cmd/powermanager/main.go:457-489 | only a one-line name followed by a dash and a number, or a dash and a non-empty bracketed text without closing bracket, is read |
| PowerList.GroupNodesByNodeSet | cmd/powermanager/main.go:529-535 | grouping keeps every reference under its NodeSet in order and adds nothing |
| PowerList.EntryParses | cmd/powermanager/main.go:457-526 | the written form of a node or a bracket group parses to exactly its references, dashes in the name included |
| PowerList.ListRoundTrip | cmd/powermanager/main.go:405-526 | rendering entries with commas and parsing returns exactly their references, in order |
| PowerList.BracketsExpand | cmd/powermanager/main.go:457-526 | a list with bracket groups parses to the same references as its comma-expanded form |
| PowerAgreement.EntryNames | cmd/powermanager/main.go:457-526 | the hosts of an unpadded entry's references are exactly those the hostlist language gives the same text |
| PowerAgreement.PaddedDisagrees | cmd/powermanager/main.go:491-526 | a list with a zero-padded number denotes a host that no reference names |
| PowerAgreement.PowerAgrees | cmd/powermanager/main.go:405-526 | the power manager's hosts for a list are those the list denotes if and only if no number in it is zero-padded |
| PowerAgreement.SevenDisagrees | cmd/powermanager/main.go:477-484 | for gpu-07 the two differ |
| PowerState.NewActiveNodes | cmd/powermanager/main.go:564-587 | the new list is the strictly increasing list of the old set united with, or reduced by, the ordinals |
| PowerState.CheckNodesStatus | cmd/powermanager/main.go:287-318 | true exactly when all ordinals are active, or, when waiting for removal, when none is |
| PowerState.LandsOrConflicts | cmd/powermanager/main.go:545-590 | a write to a stored object either lands or conflicts, never both |
| PowerState.AscendingIsUnique | cmd/powermanager/main.go:579-585 | a strictly increasing list is determined by its set, so the stored list is canonical |
| PowerState.StepKeepsSerial | cmd/powermanager/main.go:545-590 | no get, update, conflict, create or foreign write breaks the equality of the stored set with the replayed commits |
| PowerState.StepKeepsVersions | cmd/powermanager/main.go:545-590 | a held version stands for the content that was read under it, through every step |
| PowerState.StepKeepsCounts | cmd/powermanager/main.go:545-590 | no step commits a call's request twice, and a conflicting attempt commits nothing |
| PowerState.Serialisability | cmd/powermanager/main.go:539-591 | in every reachable state the stored set is the commits applied in order, no call committed twice, conflicting attempts committed nothing, committed lists are strictly increasing |
| PowerState.SuccessMeansCommitted | cmd/powermanager/main.go:545-590 | a successful call committed exactly once if the object was stored at its last get, and never otherwise |
| PowerState.PresentMeansExactlyOnce | cmd/powermanager/main.go:545-590 | with the object present throughout, every successful call committed exactly once |
| PowerState.StatusIsSerial | cmd/powermanager/main.go:287-318 | in every reachable state a committed request shows in the status answer until a later event undoes it, and the answer is that on the serial result |
| PowerState.RequestLostOnCreate | cmd/powermanager/main.go:552-562 | a run in which a successful resume leaves the ordinal inactive because the object was missing |
| Handoff.ReadyPatchMeaning | images/common/scripts/worker_handoff.py:51-77 | the JSON Patch turns stopping into ready for that operation id and is rejected in every other state (RFC 6902 sections 4.3, 4.6 and 5) |
| Handoff.DebtAtStart | images/common/scripts/worker_handoff.py:99-157 | the attempts that can be spoiled are at most the requests that fail, and one more if a patch may land late |
| Handoff.DebtFalls | images/common/scripts/worker_handoff.py:99-157 | every request that fails lowers the number of attempts that can still be spoiled, and none raises it |
| Handoff.PatchDebtFalls | images/common/scripts/worker_handoff.py:51-77 | so does every patch that is lost, late or beaten by an earlier late one |
| Handoff.Pod.GetWorkerOperation | images/common/scripts/worker_handoff.py:36-49 | returns the labels at the server's answer, writes nothing |
| Handoff.Pod.MarkReady | images/common/scripts/worker_handoff.py:51-77 | writes only the one transition, also when the reply is lost or the patch lands late; an acknowledged call leaves the pod ready; with a quiet controller every patch that is not acknowledged uses up a fault or a late patch |
| Handoff.Attempt | images/common/scripts/worker_handoff.py:104-157 | one pass pins the first operation read, and never acts for another; with a quiet controller it answers rightly or brings the call closer to an answer |
| Handoff.HandoffWorkerOperation | images/common/scripts/worker_handoff.py:99-157 | under lost and late messages and a foreign controller, every write made or still under way is stopping to ready of the first operation read; True implies the pod was ready for it during the call; at most one write if the controller is quiet, and then the call does its job whenever at most four requests fail, or three when one of them is a patch that lands late; five failing requests in a row make it give up |
| Handoff.Aftermath | images/common/scripts/worker_handoff.py:79-97 | a patch that timed out and lands after the call returned is again only the handoff of the pinned operation |
| Rebooter.UpdateConditions | internal/rebooter/reconcile.go:563-582 | the first condition of the kind is replaced in place, keeping its transition time if status and reason are unchanged, or a new one is appended |
| Rebooter.PutThenFind | internal/rebooter/reconcile.go:563-582 | after an update the condition found is the old one if status and reason are unchanged and the new one otherwise; conditions of other kinds are found as before |
| Rebooter.WithoutTaint | internal/rebooter/reconcile.go:395-405 | exactly the taints matching both key and effect are removed |
| Rebooter.Reconciler.SetNodeCondition | internal/rebooter/reconcile.go:521-583 | on success the stored node has the condition, with its old transition time if status and reason were already so; whatever the fate of the patch, undisturbed, other conditions and the spec are untouched, and the boot-loop invariant is kept |
| Rebooter.Reconciler.SetNodeUnschedulable | internal/rebooter/reconcile.go:355-369 | on success only the cordon changed; undisturbed, the conditions never do |
| Rebooter.Reconciler.TaintNodeWithNoExecute | internal/rebooter/reconcile.go:374-415 | on success a taint with the key is present, appended exactly when no taint has the key, whatever its effect; or none with key and effect is |
| Rebooter.Reconciler.AreAllPodsEvicted | internal/rebooter/reconcile.go:460-518 | succeeds exactly when the pod list the API server delivered holds only DaemonSet-owned or tolerating pods, and fails exactly when none was delivered |
| Rebooter.StayingPods | internal/rebooter/reconcile.go:489-518 | a pod may stay exactly if a DaemonSet owns it or it has a toleration of the NoExecute effect or with the Exists operator |
| Rebooter.Reconciler.DrainNodeIfNeeded | internal/rebooter/reconcile.go:312-347 | success means the last list delivered during the call held only pods that may stay, except under the drain method, which does not look; a not-evictable answer means it held one that may not; with no other writer success leaves the node cordoned and, with the evict method, tainted |
| Rebooter.Reconciler.UndrainNodeIfNeeded | internal/rebooter/reconcile.go:212-231 | success leaves no matching taint, whoever else writes, and no cordon when the local copy was current and nobody else wrote |
| Rebooter.Reconciler.HandleNodeUnDrain | internal/rebooter/reconcile.go:200-209 | success leaves the node recorded as undrained, whoever else writes; if nobody else wrote it is untainted, and without cordon if the local copy was current |
| Rebooter.Reconciler.Acknowledge | internal/rebooter/reconcile.go:140-158 | success after an undrain leaves the node in service and recorded as rebooted; whatever fails, an acknowledgement is on record only for a node that is already undrained |
| Rebooter.Reconciler.GetActions | internal/rebooter/reconcile.go:130-168 | a reboot is wanted only for a request of this boot epoch dated after the boot, a drain exactly when the node read asks for one or is to be rebooted; a reboot wish no newer than the boot is answered by undraining the node and acknowledging |
| Rebooter.Reconciler.HandleNodeDrain | internal/rebooter/reconcile.go:171-183 | a completed drain leaves the node cordoned, marked drained and, with the evict method, tainted if nobody else wrote, and its last delivered pod list held only pods that may stay; without a drain to do nothing is written |
| Rebooter.Reconciler.HandleNodeReboot | internal/rebooter/reconcile.go:239-249 | if a command was given, the call itself wrote the reboot as under way before it, under every method and other writers; undisturbed, the node is drained; without faults the command is given |
| Rebooter.Reconciler.Act | internal/rebooter/reconcile.go:100-115 | a drain asked for and reported complete leaves the node drained, also when the reboot after it fails and also when no reboot was asked for; without either nothing is written |
| Rebooter.Reconciler.RebootNode | internal/rebooter/reconcile.go:586-601 | success means the command was given; if it was, then with the evict method and nobody else writing since the reconcile began the stored node is cordoned, tainted, marked drained and rebooting, and the last pod list delivered since then held only pods that may stay |
| Rebooter.Reconciler.Reconcile | internal/rebooter/reconcile.go:87-115 | any reconcile, cut short anywhere, keeps the invariants and gives a command only when recorded and, undisturbed, drained; if the version it read asks for a drain and the drain went through, the undisturbed node is drained; without faults it gives a command exactly when a request newer than the boot is pending, and leaves the node drained exactly as asked, back in service after a reboot, or as it was |
| Rebooter.RebootedReturns | internal/rebooter/reconcile.go:130-168 | an undisturbed reconcile brings a rebooted node back into service if and only if the node did not ask for a drain |
| Rebooter.ServiceIsStable | internal/rebooter/reconcile.go:130-168 | a node in service asks for nothing, and an undisturbed reconcile changes at most its reboot condition |
| Rebooter.DrainIsStable | internal/rebooter/reconcile.go:130-168 | a drained node asks for a drain, and an undisturbed reconcile leaves it drained |
| Rebooter.RebootedStaysDrained | internal/rebooter/reconcile.go:130-168 | the node as every reboot command with the evict method finds it does ask for one, so it ends up drained again |
| Rebooter.WriteKeepsInv | internal/rebooter/reconcile.go:417-445 | a write keeps all invariants as long as its reboot wish goes back to a request of this epoch |
| Rebooter.BootKeepsInv | internal/rebooter/reconcile.go:263-273 | after a boot every recorded wish is dated at or before it, and the invariants hold |
| Rebooter.GivenPersists | internal/rebooter/reconcile.go:87-115 | what was true of a command when it was given stays on record through every later write, fetch and boot |
| Rebooter.StaysSettled | internal/rebooter/reconcile.go:130-168 | once every wish on record is dated at or before the boot, and until another writer changes the reboot condition, this stays so and no command is given |
| Rebooter.Operate | internal/rebooter/reconcile.go:87-273 | no boot loop and drain before reboot over all sequences of reconciles and boots: every command stands in the record in its own boot epoch and serves a change of the reboot condition by another writer before it in that epoch, dated after the epoch's boot; its reconcile wrote the reboot as under way; with the evict method and nobody else writing since the reconcile began, the version it met was cordoned, tainted, marked drained and rebooting, and the last pod list fetched held only pods that may stay; after a boot none is given until another writer changes the condition |
| NodeMetrics.FailsCountEdges | internal/exporter/collector.go:302-330 | one list adds one to a failure series exactly when its node goes from not failed to failed under those labels |
| NodeMetrics.BaseStateLeads | internal/slurmapi/node.go:260-267 | the base state is the first of the seven that the node has, and none exactly if it has none |
| NodeMetrics.PowerManagedIsExempt | internal/exporter/collector.go:204-212 | a node in any of the six power states is neither unavailable nor failed |
| NodeMetrics.FaultsCount | internal/exporter/collector.go:213-235 | otherwise a down, unresponsive, failing or invalid node is unavailable, and it is failed exactly if down or drained |
| NodeMetrics.UnavailableExactly | internal/exporter/collector.go:204-236 | without those flags it is unavailable exactly if its base state is unknown or error, or idle while drained |
| NodeMetrics.DrainingExactly | internal/exporter/collector.go:239-245 | draining is exactly a drained node whose base state is allocated or mixed |
| NodeMetrics.SeriesTells | internal/exporter/collector.go:302-330 | the labels carry the node's name, leading base state and marks |
| NodeMetrics.GpuSecondsShare | internal/exporter/collector.go:247-268 | one list adds interval times GPU count to the series of the node's labels and nothing to any other |
| NodeMetrics.EpisodesMove | internal/exporter/collector.go:270-300 | one list opens or closes the episode of each listed node independently, and leaves unlisted nodes alone |
| NodeMetrics.CountersGrow | internal/exporter/collector.go:247-330 | no list that the counters accept decreases any counter |
| NodeMetrics.ForwardIsAddable | internal/exporter/collector.go:247-268 | the counters accept every list while the clock does not go back and no count is negative |
| NodeHistory.EpisodeRefinement | internal/exporter/collector.go:270-300 | over every history, a node's recorded start is that of its last unbroken run in the state unless the next commit lists it as recovered, and its observations are the lengths of its closed episodes in order |
| NodeHistory.ClosedSpansAreEpisodes | internal/exporter/collector.go:286-296 | the closed episodes are exactly the maximal runs of commits in the state that the next commit ends by listing the node outside it |
| NodeHistory.ClosedSpansInOrder | internal/exporter/collector.go:286-296 | each episode is observed once: the episodes are disjoint and in order |
| NodeHistory.FailureRefinement | internal/exporter/collector.go:302-330 | over every history, a failure series counts exactly the not-failed to failed edges between consecutive commits that list the node |
| NodeHistory.GpuSecondsTotal | internal/exporter/collector.go:247-268 | a node's total over all label sets is the sum of interval times GPU count over the commits that list it |
| NodeHistory.GpuSecondsConserved | internal/exporter/collector.go:384-389 | a node with a constant count g in every commit has g times the time from creation to the last commit, whatever states it went through |
| Exporter.MetricsCollector.UpdateNodeFailureMetrics | internal/exporter/collector.go:302-330 | the loop over the previous-nodes map computes the specified failure counters |
| Exporter.MetricsCollector.UpdateNodeStateMetrics | internal/exporter/collector.go:270-300 | the loop computes the specified start times and observations for both states, which are the ones of UnavailableExactly, FaultsCount and DrainingExactly |
| Exporter.MetricsCollector.UpdateGPUSecondsMetrics | internal/exporter/collector.go:247-268 | the loop computes the specified GPU counters, or panics exactly when some increment is negative |
| Exporter.MetricsCollector.ApplyNodes | internal/exporter/collector.go:384-408 | the new state and the metrics are those of one commit with its two clock readings |
| Exporter.MetricsCollector.RefreshNodes | internal/exporter/collector.go:445-473 | a failed fetch or a stale sequence changes nothing; otherwise the view is that of the commit; sequence 0 bypasses the stale test |
| Exporter.MetricsCollector.RefreshOther | internal/exporter/collector.go:410-443 | topologies, jobs and diagnostics replace their own slot unless stale, and touch nothing else; a failed fetch changes nothing, and neither does an absent topology source, which is no error |
| Exporter.UnnumberedIsAccepted | internal/exporter/collector.go:456-472 | data without a sequence number always replaces its slot and leaves the number on record |
| ExporterRuns.AccountedKept | internal/exporter/exporter.go:65-79 | every load, compare-and-swap and finish keeps the in-flight count equal to the admitted unfinished runs and at most the maximum |
| ExporterRuns.AdmissionIsExact | internal/exporter/exporter.go:65-71 | a start is refused exactly when as many runs as allowed are under way |
| ExporterRuns.SwapIsExact | internal/exporter/exporter.go:72-74 | a start that loaded the count is admitted exactly when the count is still the same, and else tries again |
| ExporterRuns.NumberedKept | internal/exporter/exporter.go:65-75 | the issued sequence numbers stay exactly 1 to the counter, each held by one run |
| ExporterRuns.FreshKept | internal/exporter/collector.go:445-563 | every slot keeps holding the data of its highest-numbered completed run |
| ExporterRuns.PublishedNeverGoesBack | internal/exporter/collector.go:456-472 | a slot's sequence never decreases, a run touches its own slot only, a stale run adds nothing to data or metrics |
| ExporterRuns.EveryExecution | internal/exporter/exporter.go:128-181 | all of the above in every reachable system, under any interleaving of overlapping runs |
| ExporterRuns.LatestOutcome | internal/exporter/collector.go:391-563 | a slot is the unique highest outcome, or the initial value when nothing completed |
| ExporterRuns.Confluence | internal/exporter/collector.go:391-563 | two executions completing the same runs publish the same nodes, jobs, diagnostics and topologies |
| ExporterRuns.MetricsAreOffline | internal/exporter/collector.go:247-330 | in every reachable system the incremental metrics are the offline figures of the accepted node lists |
| ExporterRuns.OutageIsOpen | internal/exporter/collector.go:204-300 | in every reachable system a node that the last accepted list has with a fault flag and no power flag has an open outage since the first commit of its unbroken run |
| ExporterRuns.WorkingIsOut | internal/exporter/collector.go:204-300 | a node that it has as working is in neither state |
| ExporterRuns.CountersNeverDecrease | internal/exporter/collector.go:247-330 | no step of any run decreases a counter |
| Selector.GpuDemands | internal/e2e/capacity.go:57-83 | exactly the keys drawn by non-preemptible GPU nodesets, each with its true need modulo 2^64 |
| Selector.GpuCountReads | internal/e2e/capacity.go:25-38 | a preset that starts with a number and gpu- counts that many GPUs, or none if the number does not fit |
| Selector.GpuCountNeedsForm | internal/e2e/capacity.go:25-38 | no other preset counts any |
| Selector.ReservedDemand | internal/e2e/select.go:171-184 | for every key the claimed need modulo 2^64, unknown profiles counting nothing |
| Selector.HasCapacity | internal/e2e/capacity.go:195-223 | fits exactly when for every drawn key the profile's block exists and its usage plus the wrapped need plus reservation is within the limit, or that need is zero; an error means the lookup of a block the profile draws from failed |
| Selector.FilterFeasible | internal/e2e/select.go:188-220 | the feasible candidates in order, or an error when the lookup of a block failed that a candidate with a free project draws from |
| Selector.OnlyFeasibleIsFeasible | internal/e2e/select.go:188-220 | the filtered list holds a candidate exactly when nobody holds its project and it fits |
| Selector.SelectProfile | internal/e2e/select.go:287-332 | no candidates exactly if no profile carries the label; a returned profile carries it and was feasible in the attempt that returned it; every attempt before it, and every attempt of a call that timed out or was cancelled, had no feasible candidate; an error means a lookup failed; retries stop at the deadline |
| Selector.VainForLabel | internal/e2e/select.go:287-332 | a vain attempt means that no profile with the label was feasible in it |
| Selector.AttemptBound | internal/e2e/select.go:287-332 | with positive poll interval and timeout there are at most ceil(timeout / poll) attempts |
| SelectorRuns.HeldIsReserved | internal/e2e/select.go:171-184 | what a block holds is at most what is reserved under its key across all tenants and regions |
| SelectorRuns.RoomForClaim | internal/e2e/capacity.go:195-223 | within the bound, a feasible profile's block has room for it in true numbers |
| SelectorRuns.SelectionFits | internal/e2e/capacity.go:195-223 | within the bound, whenever a profile is selected its need, all reservations under the key and the usage of its block together stay within the limit |
| SelectorRuns.NoOvercommit | internal/e2e/select.go:171-220 | in every reachable state no two claims share a project and no block's claims exceed its limit |
| SelectorRuns.OneTooMany | internal/e2e/capacity.go:195-223 | beyond the bound there is a run that admits a claim into a block without room |
| SelectorRuns.OvercommitCondition | internal/e2e/capacity.go:57-83 | no run overcommits if and only if no choice of profiles with different projects needs 2^64 GPUs or more under one key |
| SelectorRuns.WrappedCountersOvercommit | internal/e2e/capacity.go:77 | a concrete configuration and run that overcommits |
| Tres.Int64 | internal/slurmapi/tres.go:57-91 | the 64-bit result equals the true one exactly when that fits |
| Tres.ParseTrackableResources | internal/slurmapi/tres.go:16-55 | the pairs are read in order, later ones replacing earlier ones; a bad number fails the whole text; what one pair means is in MemoryUnits, NoOtherUnit, ReadIgnoresSpaces and OtherPairsIgnored |
| Tres.MemoryUnits | internal/slurmapi/tres.go:57-91 | a number followed by nothing or by k, m, g, t or p in either case is that number times 1024 to the power 0 to 5, reduced to 64 bits |
| Tres.NoOtherUnit | internal/slurmapi/tres.go:57-91 | any other last character is an error, and so is no text |
| Tres.ReadIgnoresSpaces | internal/slurmapi/tres.go:26-27 | white space around a key and its value is ignored |
| Tres.OtherPairsIgnored | internal/slurmapi/tres.go:26-52 | a pair without an equals sign or with another key changes nothing |
| Tres.TresListToString | internal/slurmapi/job.go:484-512 | the entries with a count, in order, as key=value joined by commas, memory with its unit |
| Tres.TresRoundTrip | internal/slurmapi/tres.go:16-91 | parsing the printed list gives the last count of each key, memory in bytes modulo 64 bits |
| Tres.MemoryExact | internal/slurmapi/tres.go:57-91 | the parsed memory is the true number of bytes if and only if that fits in 63 bits and a sign |
| Tres.MemoryWraps | internal/slurmapi/tres.go:57-91 | a list with 2^43 megabytes parses to a negative number of bytes |
| WorkerSelector.FirstMatch | e2e/acceptance/framework/worker_selector.go:189-204 | in any order by descending length, the first matching NodeSet is the longest match |
| WorkerSelector.MatchingNames | e2e/acceptance/framework/worker_selector.go:189-204 | a worker matches a NodeSet exactly if its name is the NodeSet's name, a dash and any text |
| WorkerSelector.HomeIsUnique | e2e/acceptance/framework/worker_selector.go:179-204 | with distinct names the longest match is unique, so filing does not depend on the NodeSet order |
| WorkerSelector.FilingIsUnique | e2e/acceptance/framework/worker_selector.go:179-221 | two filings of the same workers are equal |
| WorkerSelector.NewWorkerSnapshot | e2e/acceptance/framework/worker_selector.go:101-221 | fails exactly when some worker matches no NodeSet; otherwise each is filed under its longest match in order, and the lists are the filed workers split |
| WorkerSelector.FiledOnce | e2e/acceptance/framework/worker_selector.go:194-208 | the CPU and GPU lists partition the workers, and each worker is under exactly its own NodeSet |
| WorkerSelector.PickWorkers | e2e/acceptance/framework/worker_selector.go:223-259 | exactly count distinct occurrences of usable workers, or the error of the first failing test |
| CheckRunner.FilterChain | helm/slurm-cluster/slurm_scripts/check_runner.py:194-274 | the five filters with their shortcuts are one order-preserving filter by the conjunction of the conditions |
| CheckRunner.JobGpusCount | helm/slurm-cluster/slurm_scripts/check_runner.py:513-516 | a job has as many GPUs as its comma-separated list has entries |
| CheckRunner.WantedAreChosen | helm/slurm-cluster/slurm_scripts/check_runner.py:194-274 | the filters keep every copy of a check exactly if it lists the context, a tag of the platform and the node state, or any, and is not to be skipped for a job with no GPU or with part of them |
| CheckRunner.HostFirst | helm/slurm-cluster/slurm_scripts/check_runner.py:175-187 | no host check runs after a jail check |
| CheckRunner.Runner.GetNodeInfo | helm/slurm-cluster/slurm_scripts/check_runner.py:442-469 | the cached answer if there is one, else the node as it is, or the empty answer of a failed query; never older than the run's own last write |
| CheckRunner.Runner.ExportNeededEnv | helm/slurm-cluster/slurm_scripts/check_runner.py:349-399 | the node is asked for exactly if it is not cached and a needed variable depends on it, and the memory at most once in a run |
| CheckRunner.Runner.Issue | helm/slurm-cluster/slurm_scripts/check_runner.py:535-585 | the command is on record with the node version it met; the cache is dropped exactly when the command could be started |
| CheckRunner.Runner.Decide | helm/slurm-cluster/slurm_scripts/check_runner.py:313-345 | the write is the one the result, the context and the known node call for, and whenever it depends on the node the knowledge is the cached answer, empty only if a query failed |
| CheckRunner.ReactionAnswers | helm/slurm-cluster/slurm_scripts/check_runner.py:299-345 | a failed drain check sends one drain with its own reason exactly if the node is not known to be drained, a failed comment check one comment; a passed check sends, from the health check program only, a resume or uncomment exactly if the drain or comment on record begins with its reason; nothing else is sent |
| CheckRunner.Runner.React | helm/slurm-cluster/slurm_scripts/check_runner.py:313-345 | the commands added to the record by one check are its answer |
| CheckRunner.Runner.RunCheck | helm/slurm-cluster/slurm_scripts/check_runner.py:277-345 | the log accounts for every check command that ran with its result and for every write sent, one by one; a crash adds neither |
| CheckRunner.Runner.RunChecks | helm/slurm-cluster/slurm_scripts/check_runner.py:145-205 | the applicable host checks then jail checks run in order up to the first failure, and all of them if nothing fails; exit 1 only for a failed prolog; the commands sent are one after the other the answers to the checks that ran; with no other writer every resume sent is from the health check context while the node is really drained for that check's reason, and if no query failed the checks are chosen and answered by the node as it really is |
| CheckRunner.SoundResumes | helm/slurm-cluster/slurm_scripts/check_runner.py:339-342 | in an undisturbed run every resume command goes back to a check that justified it by the node as it was at that moment |

## Left out

- Text beyond ASCII: digits and whitespace of other scripts, which Python's isdigit and strip and Go's TrimSpace also accept.
- Go's formatting limit for widths above a million and the expander's loop at the largest 64-bit value.
- Wrap-around of the 64-bit sequence counter and the 32-bit in-flight counter of the exporter.
- Floating point rounding of seconds and the bucketing of histograms; durations are exact integers and observations are kept as lists.
- Node resource strings inside the exporter: a listed node carries the GPU count that `Tres.Parsed` reads from its string.
- The contents of job lists, diagnostics and topology maps, and everything the exporter only prints from its snapshot.
- The limit on the number of conflict retries in the power manager; a call may give up after any conflict.
- Condition messages and heartbeat times of the rebooter, and requeue delays.
- Requests of earlier worker processes that are still under way during a handoff count as the controller's writes.
- Get, mutate and patch of the rebooter's writes is one atomic step with a retry that either lands or not; the estimated boot time is never before the real one, and other writers do not date conditions ahead of the shared clock.
- Log lines, error texts, skipped-nodeset lists and nodeset name lists of the selector's capacity check.
- The candidate list of the selector is a parameter that holds exactly the profiles with the label; its sorting is not modelled.
- Selecting a profile and publishing its claim is one step; two selectors racing between the two are not modelled.
- Template substitution in check reasons and log paths, command execution and file output; a check carries its substituted reason prefix.
- The wait loop and client setup of the power manager, the HTTP layer of the handoff, and the cluster controllers.
- NodeExpansion.ListAgreement: is stated for lists of well-formed entries whose items meet the exact condition of ItemAgreement; nested or repeated bracket groups, which the Go pattern does not expand, are outside it.
- Exporter.MetricsCollector.RefreshOther: one method stands for the three refreshes of jobs, diagnostics and topologies, which differ only in their slot.
