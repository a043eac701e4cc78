# The cluster simulator's core, modelled and proved

The simulator advances a clock in ticks. In every tick submitters put pods into a pending queue, a
scheduler binds some of them to nodes, metrics are taken of all nodes, and finished pods are collected.
A pod plays back a list of phases, each some seconds of constant resource usage.

The modules, by the code they follow:

| file | of the simulator |
|---|---|
| Pod, PhaseCache, PodLifecycle | a simulated pod, its window of loaded phases, its life and its deletion |
| Allocation, FairShare, ServiceQuality, Overflow, NodeJobs, NodeWorkers, Arithmetic | sharing an overloaded node's CPU and memory, what that says about the quality of service, and all nodes in parallel |
| Pods, HeapOrder, RawQueue, PriorityQueue, Drain | the priority queue: an indexed binary heap and nominations |
| Fifo | the queue with lazy deletion |
| Preemption, PickNode, FindPreemption | choosing victims on a node, and a node to preempt on |
| Workers, ParallelFilter, ParallelScores, Scheduling, HostChoice | one scheduling decision, under every interleaving of its workers, and what makes it choose a host |
| Round, PriorityRound, RoundLaws | a scheduling round with its fail queue, over either queue, and what earlier bindings mean for later ones |
| Admission | the usage estimate, its penalty, and the admission test against it |
| Node, Deletion, Cluster | a node, a deletion on it, and the main loop over the whole cluster |
| Trace | turning a usage trace into phases |

Objects whose methods update fields are classes. Each has a `View` (or the fields themselves) as a value;
the methods' contracts say which function of the old value the new one is, and the lemmas are about those
functions. Parallel workers are state machines whose next step any schedule may choose.

Clocks, randomness, files and the network are parameters: the phases behind a file, the answers of
predicates, prioritizers and extenders, what submitters send in each tick, and the moment of cancellation.

## Where the code does something else than it says

- `BindPod` promises that a pod fails to start when resources do not suffice (pkg/node/node.go:80-82), but
  overwrites its verdict with Ok (pkg/node/node.go:102). The model follows the code: no pod ever fails to
  start (`Nodes.Node.BindingFailedPodsNum`).
- When a submitter or the scheduler fails, `Run` returns the variable that holds the error of time.Parse,
  which is nil (pkg/kubesim.go:179-196), so only cancellation returns an error (`Cluster.KubeSim.Run`).
- The phase cache is not transparent (`PhaseCache.OverrunEndsEarly`); when it is, is stated exactly.
- `Push` of a key already in the priority queue breaks the index (`RawQueue.PushStale`); `Reorder` leaves
  back-indices right only where its sifting happens to swap (`RawQueue.ReorderValidIff`); `Update` leaves a
  replaced pod among the nominated ones (`PriorityQueues.UpdateAgreesIff`).
- A key deleted from the FIFO queue and pushed again takes its old slot (`FifoOrder.PushAppendsIff`), and
  `Len` counts slots (`FifoOrder.LenIsCountIff`).
- Node selection for preemption reads the first victim of every candidate, and panics on an empty list
  (`PickNode.PickOneNodeForPreemption`).
- Memory shares overflow int64 at realistic sizes, and what is left of the demand can wrap around with
  them.  Conservation is lost on a node of 1 GiB (`Overflow.NotConserved`), a pod's guaranteed share and its
  QoS on one of 4 GiB (`Overflow.OverflowTakesAway`); when each is kept is stated exactly
  (`FairShare.ConservationIff`, `Overflow.AlwaysGetsShareIff`, `Overflow.AlwaysSatisfiedIff`).
- The name of a pod that is on a node, submitted again, is both pending and on the node
  (`Cluster.SubmittingKeepsEachInOnePlaceIff`).
- Predicates are kept in a map, so where they object to a node in different ways its order decides
  (`Victims.OrderFreeIff`, `Scheduling.OrderDecidesFiltering`).
- An extender may name nodes it was not given, past the predicates (`RoundLaws.OverrulesIff`).
- A node whose name is empty is lost by the admission test (`Admission.AdmittedAreAdmitted`).

## Model

| member | source | states |
|---|---|---|
| SimPod.Pod.constructor | pkg/pod/pod.go:98-149 | a pod without a file holds all its phases; one with a file holds the first chunk, and forgets the path when that is everything |
| SimPod.Pod.ResourceUsage | pkg/pod/pod.go:245-285 | the returned list and every field afterwards: past phases dropped, their seconds folded into the current phase, a chunk loaded when the current phase is the last one held; `Panic` is the line marked unreachable |
| SimPod.Pod.LoadPod | pkg/pod/pod.go:287-317 | the next chunk is appended, and the path is cleared at the end of the file |
| SimPod.Pod.Delete | pkg/pod/pod.go:348-358 | a running pod is marked deleted at this clock; a terminated or already deleted one is left alone |
| SimPod.Pod.TotalExecutionDuration | pkg/pod/pod.go:451-457 | the sum of the phases held, in nanoseconds |
| SimPod.QueryWindow | pkg/pod/pod.go:245-317 | a query at any clock keeps the loaded spec a window of the file whose head carries the seconds of everything before it |
| SimPod.WindowTotal | pkg/pod/pod.go:451-457 | the cached pod's total time is the file's prefix up to `loadPhase` |
| SimPod.WindowLookup | pkg/pod/pod.go:253-269 | looking a second up in the window finds the phase that the whole file has for it, unless the window has moved past it |
| SimPod.CoveringIs | pkg/pod/pod.go:258-264 | the phase that covers a second is unique, zero-length phases included |
| PhaseCache.CacheExactIffChunkEndsSampled | pkg/pod/pod.go:98-317 | for any phases, chunk size and clocks: every answer about running and usage equals the complete list's if and only if no query passes a chunk whose last phase was never sampled |
| PhaseCache.CacheExactForShortSteps | pkg/pod/pod.go:98-317 | starting at the bind time with steps no longer than any chunk's last phase, every answer equals the complete list's |
| PhaseCache.OverrunEndsEarly | pkg/pod/pod.go:287-345 | a concrete pod and clock for which the cache is wrong: three one-second phases, two held, a two-second step; it ends a second early |
| PhaseCache.AgreesAtIff | pkg/pod/pod.go:245-345 | one answer is wrong exactly when its clock lies past the loaded phases and before the end of the list |
| PhaseCache.QueryMoves | pkg/pod/pod.go:253-281 | a query inside the loaded phases moves the window to the phase it falls in and loads exactly at the last one; any other changes nothing |
| PhaseCache.ProgressHolds | pkg/pod/pod.go:245-317 | after any queries, every chunk boundary passed by loading had its last phase sampled, and the current boundary has not |
| PodLifecycle.NeverLateNeverWrong | pkg/pod/pod.go:245-358 | for any nondecreasing queries and deletions: a pod bound with status Ok may end early but never late, reports no other phase's usage, and never panics |
| PodLifecycle.ReadsOwnPhase | pkg/pod/pod.go:245-269 | a pod that uses resources reports the usage its own execution time has in the complete list |
| PodLifecycle.SoundStep | pkg/pod/pod.go:245-358 | each query or deletion keeps the invariant the claims above rest on |
| PodLifecycle.RepeatedQueriesAgree | pkg/pod/pod.go:245-285 | a second query at the same clock returns the same and changes nothing |
| PodLifecycle.QueryTotal | pkg/pod/pod.go:287-317 | loading never shortens the time a pod will run |
| PodLifecycle.ExactlyOnePhase | pkg/pod/pod.go:321-365 | at each clock exactly one of running, terminated, terminating, deleted and failed-to-start holds |
| PodLifecycle.FinishedForever | pkg/pod/pod.go:321-358 | terminated and deleted are absorbing: no later query or deletion changes such a pod, and it stays terminated or deleted |
| PodLifecycle.DeletionDeletes | pkg/pod/pod.go:331-358 | whatever queries and deletions follow, a pod deleted while it runs never runs or terminates again; it uses resources exactly until its grace period is over and is deleted from then on; and throughout it reports the usage that the complete list has for the second of the deletion |
| PodLifecycle.CondemnedForever | pkg/pod/pod.go:245-358 | no later query or deletion changes when a pod was deleted, or at what usage |
| Deletions.DeletedOnNode | pkg/node/node.go:117-164 | a pod deleted while it runs on a node is counted there, with the usage of that moment, exactly until its grace period is over, whatever else happens on the node; and the first collection after that takes it away for good, as long as its key is not placed again |
| Deletions.UpheldForever | pkg/node/node.go:117-164 | the same from any moment of the deletion on, with garbage collections or without |
| Allocation.PodsMetrics.GuaranteePass | pkg/metrics/metrics.go:96-121 | first pass: every listed pod gets the guaranteed share, the others keep their entries, and what is left of capacity and demand is the int64 that holds the difference to the sum granted (products wrap around too) |
| Allocation.PodsMetrics.SparePass | pkg/metrics/metrics.go:125-143 | second pass: every listed pod gets its part of the spare capacity on top |
| Allocation.PodsMetrics.AllocateKind | pkg/metrics/metrics.go:88-144 | both passes of one resource, and nothing at all when the node is not overloaded |
| Allocation.PodsMetrics.AllocateNode | pkg/metrics/metrics.go:80-240 | CPU, then memory, then the number of pods and of those satisfied, which is all but the pods that have less of CPU or of memory than they use and than they request |
| Allocation.CountIsRest | pkg/metrics/metrics.go:202-237 | exactly the pods are counted that are short neither of CPU nor of memory, short meaning below both usage and request |
| FairShare.GuaranteeBelow | pkg/metrics/metrics.go:161-170 | whatever its product wraps to, a computed guarantee is at most the usage, the request and the exact share of the capacity |
| FairShare.GuaranteeExactIff | pkg/metrics/metrics.go:161-170 | for all sizes: the computed guarantee is the exact share min(usage, request, floor(capacity * request / total)) if and only if the wrapped product reaches it |
| FairShare.GuaranteeNonnegativeIff | pkg/metrics/metrics.go:161-170 | for all sizes: the computed guarantee is nonnegative if and only if the wrapped product is above minus the total request |
| FairShare.FittingReaches | pkg/metrics/metrics.go:161-170 | a product that fits an int64 reaches the exact share |
| FairShare.GrantedBound | pkg/metrics/metrics.go:99-122 | the guaranteed shares, scaled by the total request, stay under the scaled capacity, overflow or not |
| FairShare.GrantedWithinCapacity | pkg/metrics/metrics.go:99-122 | the guaranteed shares together are at most the capacity, for memory even where products overflow; for CPU they are not negative |
| FairShare.LeftAtMost | pkg/metrics/metrics.go:161-170 | with n bytes of total request for each listed pod, or none at all, the guaranteed shares together are at least -2^63 / n |
| FairShare.SpareSums | pkg/metrics/metrics.go:125-143 | upper and strict lower bound on what the second pass hands out, scaled by the unmet demand, also when the sum granted is negative, as long as the unmet demand fits an int64 |
| FairShare.Conservation | pkg/metrics/metrics.go:80-200 | on an overloaded node the allocations total at most the capacity and more than the capacity less one unit a pod; for memory also where products wrap around, as long as the demand less the shares granted fits an int64 |
| FairShare.ConservationIff | pkg/metrics/metrics.go:150-198 | for memory, unless the running demand wraps around twice: the capacity is conserved if and only if the running demand does not wrap around at all or the shares granted come within one unit a pod of the capacity |
| FairShare.MemoryConserved | pkg/metrics/metrics.go:150-198 | a demand below 2^62 bytes, and two bytes of total request for each listed pod or none at all, are enough for conservation |
| FairShare.SharedBetween | pkg/metrics/metrics.go:80-200 | for memory of all sizes, whatever wraps around: no allocation is below the guaranteed share computed or above the usage |
| FairShare.EachPod | pkg/metrics/metrics.go:80-200 | a pod gets at most its usage, and at least its exact guaranteed share when its wrapped product reaches it, whatever the others use; for CPU always |
| FairShare.RequestMet | pkg/metrics/metrics.go:202-237 | when the requests fit a resource, each pod whose product reaches its share has its usage or its request of it |
| FairShare.RequestsFitAllSatisfied | pkg/metrics/metrics.go:80-240 | when the requests fit both resources, and on memory overload every product reaches its share, every listed pod counts as satisfied, however large the demand |
| FairShare.OtherKindKept | pkg/metrics/metrics.go:93-200 | allocating one resource leaves requests, usage and the other resource's allocation alone |
| FairShare.SharedPermuted | pkg/metrics/metrics.go:99-142 | the table after allocation does not depend on the order of the pod keys |
| FairShare.OrderIrrelevant | pkg/metrics/metrics.go:80-240 | the order of the pod keys affects no allocation, no total and no satisfied count |
| NodeJobs.JobIsLocal | pkg/metrics/metrics.go:266-308 | a node's worker changes no entry but its own node's, and depends on no other |
| NodeJobs.BuildIs | pkg/metrics/metrics.go:266-316 | after any number of whole jobs the shared table has each node's pods as that node alone makes them, the QoS and pod totals are the sums over the nodes, and each node's total allocation is its own |
| NodeJobs.BuildDeterministic | pkg/metrics/metrics.go:266-316 | in whatever order the nodes are taken: the same table, QoS sum, pod count and allocation total of every node |
| NodeWorkers.SoloIs | pkg/metrics/metrics.go:93-308 | a worker alone, access by access through all its loops, ends with its node's pods as the allocator's specification has them and reports their satisfied count, number and total allocation |
| NodeWorkers.StepInv | pkg/metrics/metrics.go:100-308 | every single locked access of any worker keeps the invariant that each worker's variables and its node's entries are as if it had worked alone |
| NodeWorkers.WorkersBuild | pkg/metrics/metrics.go:266-316 | under every interleaving of the single locked accesses of any number of workers, the shared table, QoS sum, pod count and node totals are those of the nodes taken one after another |
| NodeWorkers.WorkersAgree | pkg/metrics/metrics.go:266-316 | any two interleavings, over the nodes in any two orders, end alike |
| ServiceQuality.OverbookedIsSeen | pkg/metrics/metrics.go:80-240 | the converse of the QoS claim: if in either resource the pods together need (the lesser of usage and request) more than the capacity, not all of them are counted as satisfied |
| ServiceQuality.ShortCostsOne | pkg/metrics/metrics.go:202-237 | in each resource separately, a pod that stops being short raises the count by one |
| ServiceQuality.SpareInProportion | pkg/metrics/metrics.go:125-143 | what is left of an overloaded node's capacity after the guaranteed shares goes to the pods in proportion to what these leave of their usage, to within one unit |
| ServiceQuality.EnoughForAll | pkg/metrics/metrics.go:80-240 | a node that is not overloaded leaves every pod what it uses and counts all of them |
| ServiceQuality.BuildShort | pkg/metrics/metrics.go:266-316 | over any list of nodes the QoS sum is the number of pods listed less those that end short |
| ServiceQuality.WorkersLeaveOutShort | pkg/metrics/metrics.go:266-316 | however the nodes' workers interleave, the QoS sum they leave is the number of pods listed less those that end short of CPU or memory |
| Overflow.AlwaysGetsShareIff | pkg/metrics/metrics.go:150-198 | for nodes of up to 2^60 bytes: a pod gets its exact guaranteed memory share on every overloaded node, whatever the others request and use within int64s, if and only if its wrapped product reaches it |
| Overflow.AlwaysNonnegativeIff | pkg/metrics/metrics.go:150-198 | its memory allocation is never negative, whatever the others request and use within int64s, if and only if its wrapped product is above minus the total request |
| Overflow.AlwaysSatisfiedIff | pkg/metrics/metrics.go:150-237 | when the requests fit, for nodes of up to 2^60 bytes: a pod is satisfied in memory on every such node if and only if its wrapped product reaches its share |
| Overflow.StarvedLeavesGuarantee | pkg/metrics/metrics.go:150-198 | a node with a demand of 2^63 - 1 on which the sum granted is negative: the running demand wraps around, the second pass is skipped, and the pod ends with just its guarantee |
| Overflow.JustShort | pkg/metrics/metrics.go:150-237 | a pod on a node of 320 GiB whose guarantee is four bytes short of its request, and which is not always satisfied |
| Overflow.NotConserved | pkg/metrics/metrics.go:150-198 | a node of 1 GiB with a deleted pod still listed: the running demand wraps around and the allocations total 1 - 2^63 |
| Overflow.OverflowTakesAway | pkg/metrics/metrics.go:150-237 | a node of 4 GiB where the requests fit, and a pod ends with a negative allocation and is not satisfied |
| Overflow.NegativeGuarantee | pkg/metrics/metrics.go:161-170 | that pod's guarantee wraps around to minus 4 GiB |
| HeapOrder.ComparatorsAreStrictWeakOrders | pkg/queue/priority_queue.go:249-263 | both comparators are strict weak orders |
| HeapOrder.OrdersMean | pkg/queue/priority_queue.go:249-263 | the default comparator puts the higher priority first, and the older pod among equals; the other one the larger memory request |
| HeapOrder.SiftUpMakesHeap | pkg/queue/priority_queue.go:64-71 | sifting the last element up restores a heap |
| HeapOrder.SiftDownOrders | pkg/queue/priority_queue.go:265-282 | sifting down orders the subtree it starts from |
| HeapOrder.SettleMakesHeap | pkg/queue/priority_queue.go:102-120 | after replacing one element, Fix restores a heap |
| HeapOrder.PushKeepsHeap | pkg/queue/priority_queue.go:64-71 | Push keeps heap order |
| HeapOrder.RemoveKeepsHeap | pkg/queue/priority_queue.go:87-100 | Remove at any position keeps heap order |
| HeapOrder.FixKeepsHeap | pkg/queue/priority_queue.go:102-120 | Update's Fix keeps heap order |
| HeapOrder.HalfInitMakesHeap | pkg/queue/priority_queue.go:265-282 | Init from the middle position down makes any sequence a heap |
| HeapOrder.FirstIsBest | pkg/queue/priority_queue.go:73-85 | no element of a heap beats the first |
| RawQueue.DownFacts | pkg/queue/priority_queue.go:195-207 | down moves items only within its range, keeps the pods and the keys/items/index correspondence, and is the sequence's sift-down |
| RawQueue.UpFacts | pkg/queue/priority_queue.go:195-207 | the same of up |
| RawQueue.PushFresh | pkg/queue/priority_queue.go:64-71 | pushing a new key keeps keys, items and back-indices in correspondence and adds exactly that pod |
| RawQueue.PushStale | pkg/queue/priority_queue.go:64-71 | pushing a key already queued always breaks that correspondence |
| RawQueue.RemoveFacts | pkg/queue/priority_queue.go:87-100 | removing position i removes exactly the key there, and keeps the correspondence |
| RawQueue.UpdateFacts | pkg/queue/priority_queue.go:102-120 | replacing a queued pod and fixing keeps the correspondence and changes only that pod |
| RawQueue.ReorderFacts | pkg/queue/priority_queue.go:53-62 | whatever two map iterations yield, the reordered queue is a heap of the same pods |
| RawQueue.ReorderAligned | pkg/queue/priority_queue.go:53-62 | if the two iterations coincide, back-indices are right afterwards |
| RawQueue.ReorderValidIff | pkg/queue/priority_queue.go:53-62 | whatever two map iterations yield, the reordered queue is valid if and only if every position that sifting does not swap already held the item numbered for it |
| RawQueue.InitAligns | pkg/queue/priority_queue.go:265-282 | after Init an item knows its position if and only if it did before or its position was swapped |
| RawQueue.ReorderMisaligned | pkg/queue/priority_queue.go:53-62 | an example of two pods iterated in opposite orders: valid if and only if the heap swaps them; otherwise deleting one leaves a key without a pod |
| PriorityQueues.RawPriorityQueue.Swap | pkg/queue/priority_queue.go:202-207 | keys exchanged and both items' indices rewritten |
| PriorityQueues.RawPriorityQueue.Down | pkg/queue/priority_queue.go:195-207 | container/heap's down over Less and Swap, in place |
| PriorityQueues.RawPriorityQueue.Up | pkg/queue/priority_queue.go:195-207 | container/heap's up, in place |
| PriorityQueues.RawPriorityQueue.Fix | pkg/queue/priority_queue.go:117 | container/heap's Fix, in place |
| PriorityQueues.RawPriorityQueue.Remove | pkg/queue/priority_queue.go:95 | container/heap's Remove, in place, and the pod it returns |
| PriorityQueues.RawPriorityQueue.Init | pkg/queue/priority_queue.go:276 | container/heap's Init, in place |
| PriorityQueues.RawPriorityQueue.Append | pkg/queue/priority_queue.go:210-217 | Push of heap.Interface |
| PriorityQueues.RawPriorityQueue.DropLast | pkg/queue/priority_queue.go:219-231 | Pop of heap.Interface |
| PriorityQueues.PriorityQueue.Push | pkg/queue/priority_queue.go:64-71 | adds the pod under its key; stays valid if and only if the key was not queued; an invalid name changes nothing |
| PriorityQueues.PriorityQueue.Pop | pkg/queue/priority_queue.go:73-78 | removes and returns a pod that no queued pod beats, or reports an empty queue |
| PriorityQueues.PriorityQueue.Front | pkg/queue/priority_queue.go:80-85 | returns such a pod and changes nothing |
| PriorityQueues.PriorityQueue.Delete | pkg/queue/priority_queue.go:87-100 | removes exactly the named pod, its nomination too, and says whether it was queued |
| PriorityQueues.PriorityQueue.Update | pkg/queue/priority_queue.go:102-120 | replaces exactly the named pod, or reports which of three errors |
| PriorityQueues.PriorityQueue.UpdateNominatedNode | pkg/queue/priority_queue.go:122-139 | moves the pod from its old nomination to the new node |
| PriorityQueues.PriorityQueue.RemoveNominatedNode | pkg/queue/priority_queue.go:141-156 | takes the pod off its node's nominations and clears its status |
| PriorityQueues.ClearingAgrees | pkg/queue/priority_queue.go:141-156 | clearing a nomination keeps `nominatedPods` in agreement with the queued pods' statuses |
| PriorityQueues.NominatingAgrees | pkg/queue/priority_queue.go:122-139 | nominating keeps that agreement |
| PriorityQueues.DeleteClearsNomination | pkg/queue/priority_queue.go:87-100 | after Delete no node has the pod nominated |
| PriorityQueues.UpdateAgreesIff | pkg/queue/priority_queue.go:102-120 | Update leaves the old object nominated: queue and nominations still agree if and only if the key was not nominated or the object is the same |
| Draining.Drain | pkg/queue/priority_queue.go:73-78 | popping until empty yields each pod once, and no later pod beats an earlier one: with the default comparator by nonincreasing priority, oldest first among equals, and with the other by nonincreasing memory request |
| Draining.RankedMeans | pkg/queue/priority_queue.go:249-263 | what it means for a list of pods that none is beaten by a later one, for both comparators |
| Draining.NewWithItems | pkg/queue/priority_queue.go:265-282 | a heap of exactly the given items; valid if and only if the numbering and the key order agree at every position that sifting does not swap |
| Fifo.FIFOQueue.Push | pkg/queue/fifo.go:42-52 | the pod is stored and a slot appended; a key without a slot goes last, a queued one keeps its place |
| Fifo.FIFOQueue.Pop | pkg/queue/fifo.go:54-65 | skips deleted slots and removes and returns the first live key's pod |
| Fifo.FIFOQueue.Front | pkg/queue/fifo.go:67-77 | returns it without changing contents or order |
| Fifo.FIFOQueue.Delete | pkg/queue/fifo.go:79-85 | removes one entry from the order and says whether it was there |
| Fifo.FIFOQueue.Update | pkg/queue/fifo.go:87-103 | keeps the order and replaces exactly the named pod, or reports which of three errors |
| FifoOrder.PushAppendsIff | pkg/queue/fifo.go:42-52 | Push puts a key last if and only if it was not queued and every queued key comes before its first stale slot, if it has one |
| FifoOrder.LivePushStale | pkg/queue/fifo.go:42-65 | a deleted key pushed again takes its earlier slot |
| FifoOrder.LenIsCountIff | pkg/queue/fifo.go:130-132 | Len is the number of queued pods if and only if no slot is stale |
| FifoOrder.LiveMembers | pkg/queue/fifo.go:24-33 | with a slot for each, every stored key is in the order exactly once |
| FifoOrder.LiveDelete | pkg/queue/fifo.go:79-85 | deleting from the map deletes one key from the order |
| Victims.PodFitsOnNode | pkg/scheduler/generic_scheduler_k8s.go:251-283 | the result of both passes with the predicates in given orders, one for each pass |
| Victims.PodFitsExactly | pkg/scheduler/generic_scheduler_k8s.go:251-283 | for the predicates in any order: the pod fits if and only if, with the nominated pods and without them, the first predicate that errs or fails, if any, fails silently |
| Victims.OrderMattersWithoutReasons | pkg/scheduler/generic_scheduler_k8s.go:267-277 | a predicate that fails without a reason can hide one after it, so that the answer depends on map order |
| Victims.OrderFreeIff | pkg/scheduler/generic_scheduler_k8s.go:251-283 | the answer is the same, reasons apart, for every order in which the map yields the predicates if and only if all that object do so alike: with an error, with a reason, or silently |
| Victims.FitFreeIff | pkg/scheduler/generic_scheduler_k8s.go:251-283 | whether the pod fits is the same for every order if and only if silent failures do not meet other objections |
| Victims.ReasonsAreSpoken | pkg/scheduler/generic_scheduler_k8s.go:267-277 | where every predicate that fails gives a reason, orders make no difference to fitting anywhere |
| Victims.PodFitsIff | pkg/scheduler/generic_scheduler_k8s.go:251-283 | if failing predicates give reasons, the pod fits if and only if every predicate passes with the nominated pods and without them, in whatever order the map yields them |
| Victims.PodFitsTwice | pkg/scheduler/generic_scheduler_k8s.go:251-301 | the node tested first has the pods there and, of the nominated ones, exactly those of at least the pod's priority and of another name; the pod fits if and only if all predicates pass on it and on the node as it is |
| Victims.SelectVictimsOnNode | pkg/scheduler/generic_scheduler_k8s.go:168-249 | the greedy selection over the lower-priority pods in some order of nonincreasing priority, from the code's two closures and loop; each call may draw its own predicate orders where these make no difference to fitting |
| Victims.ReprieveFits | pkg/scheduler/generic_scheduler_k8s.go:222-246 | the preemptor fits once the victims are gone |
| Victims.ReprieveIsBest | pkg/scheduler/generic_scheduler_k8s.go:222-246 | with predicates that removal never hurts, what is kept is lexicographically best among everything that could be kept |
| Victims.VictimsAreMinimal | pkg/scheduler/generic_scheduler_k8s.go:222-246 | no proper subset of the victims suffices |
| Victims.SelectionKeepsBest | pkg/scheduler/generic_scheduler_k8s.go:168-249 | the same two claims of the whole operation: best among all feasible kept sets |
| Victims.SelectionMeans | pkg/scheduler/generic_scheduler_k8s.go:168-249 | victims are pods of the node of lower priority than the preemptor, highest first; the preemptor fits without them; and with monotone predicates not with fewer gone |
| Victims.NotFitIff | pkg/scheduler/generic_scheduler_k8s.go:189-208 | there is no selection if and only if the preemptor does not fit on the node with just its pods of at least the same priority |
| Victims.VictimsGiveWay | pkg/scheduler/generic_scheduler_k8s.go:222-246 | no pod is given up for pods of lower priority: with monotone predicates no victim could stay together with the pods kept that have at least its priority |
| PickNode.PickOneNodeForPreemption | pkg/scheduler/generic_scheduler_k8s.go:303-412 | no node if and only if there is no candidate; panics if and only if there are two or more candidates and one has no victims; otherwise a lexicographic minimum of head priority, sum of shifted priorities and count |
| PickNode.Eliminate | pkg/scheduler/generic_scheduler_k8s.go:320-396 | one elimination round in place: exactly the slots with the least measure, in order |
| PickNode.RoundsAreLexicographic | pkg/scheduler/generic_scheduler_k8s.go:320-406 | three rounds leave lexicographic minima |
| PickNode.SumSplits | pkg/scheduler/generic_scheduler_k8s.go:361-384 | the second measure adds up priority plus 2^31 over the victims, in whatever way they are split |
| PickNode.NoWorseMeans | pkg/scheduler/generic_scheduler_k8s.go:320-406 | the node picked has no higher first victim than any other; among equals no larger sum, and then no more victims |
| FindPreemption.SelectNodes | pkg/scheduler/generic_scheduler_k8s.go:146-166 | exactly the nodes on which removing lower-priority pods makes room, each with its selected victims |
| FindPreemption.Find | pkg/scheduler/generic_scheduler.go:491-559 | which of the ways out is taken, exactly; a node found has victims of least rank among all candidates, and its lower-priority nominated pods are the ones to clear |
| FindPreemption.PreemptionMakesRoom | pkg/scheduler/generic_scheduler.go:491-559 | the preemptor fits on the node found once the victims are gone; they have lower priority and no fewer would do; and no other node on which room could be made has a lower first victim, or an equal one and a smaller sum, or the same sum with fewer victims |
| ParallelFilter.StepInv | pkg/scheduler/plugin.go:69-108 | every atomic action of any worker keeps the slots, counter, error and failure-reason invariant |
| ParallelFilter.EveryInterleavingAgrees | pkg/scheduler/plugin.go:69-125 | under every interleaving the compacted slots are the passing nodes in list order, the counter counts them, and the reasons are exactly the failing nodes' |
| ParallelFilter.TwoTurnsFinish | pkg/scheduler/plugin.go:69-108 | every worker is done after two actions, whatever the others do |
| ParallelFilter.Compact | pkg/scheduler/plugin.go:114-125 | the index loop copies exactly the filled slots |
| ParallelFilter.PassingSplits | pkg/scheduler/plugin.go:114-125 | the nodes that pass keep their order: those of two lists are those of the first and then those of the second |
| ParallelFilter.FilterWithPlugins | pkg/scheduler/plugin.go:45-128 | passing nodes in order and failure reasons, or an error if and only if some node's check errs |
| ParallelScores.MapStepInv | pkg/scheduler/plugin.go:153-173 | every atomic action of the map phase keeps the matrix and error invariant |
| ParallelScores.EveryMapRunAgrees | pkg/scheduler/plugin.go:147-173 | under every interleaving the score matrix and the error are the same |
| ParallelScores.ReduceStepInv | pkg/scheduler/plugin.go:175-194 | the reduce phase touches only its own row, each once |
| ParallelScores.PrioritizeWithPlugins | pkg/scheduler/plugin.go:130-206 | each node with its weighted sum of reduced scores, or an error if and only if some map or reduce errs |
| ParallelScores.FindMaxScores | pkg/scheduler/generic_scheduler_k8s.go:70-85 | exactly the indices of greatest score, ending with the last |
| ParallelScores.SelectHost | pkg/scheduler/generic_scheduler_k8s.go:54-68 | the last host of greatest score; none for an empty list |
| Scheduling.ExtenderFilter | pkg/scheduler/extender.go:58-124 | the extender's nodes in its order, or an error for an unknown node or an error not ignorable |
| Scheduling.AddExtenderScores | pkg/scheduler/extender.go:126-151 | each node's score raised by the extenders' weighted scores for its host |
| Scheduling.FilterNodes | pkg/scheduler/generic_scheduler.go:272-336 | predicates, in orders drawn for each node, then extenders until no node is left |
| Scheduling.PrioritizeNodes | pkg/scheduler/generic_scheduler.go:338-409 | plugin and extender scores, or 1 for each node when there is nothing to score with |
| Scheduling.ScheduleOne | pkg/scheduler/generic_scheduler.go:203-270 | equals one specification under every interleaving of the parallel workers, and for every predicate order that each of them draws if the predicates that object on a node always do so alike |
| Scheduling.OrderDecidesFiltering | pkg/scheduler/generic_scheduler.go:272-336 | otherwise the order decides: where one predicate fails with a reason and one errs, a node is passed over or filtering fails |
| Scheduling.DecisionMeans | pkg/scheduler/generic_scheduler.go:203-270 | a host is found exactly when filtering leaves nodes and scoring succeeds; it is the last filtered node with the greatest total score |
| Scheduling.FilteredMeans | pkg/scheduler/generic_scheduler.go:272-336 | without extenders, the filtered nodes are exactly the listed nodes on which every predicate passes |
| HostChoice.HostIsUndominated | pkg/scheduler/generic_scheduler.go:203-270 | with no negative weight, no filtered node scores at least as high as the host with every prioritizer and every extender of positive weight, and higher with one; and among those that score alike with all of them the host is the last |
| HostChoice.SinglePrioritizer | pkg/scheduler/plugin.go:130-206 | with a single prioritizer of positive weight and no extender the host is the last of greatest reduced score |
| HostChoice.MarksAre | pkg/scheduler/plugin.go:147-194 | a node's score with one prioritizer is what its reduce makes of the row of its scores, and its weight is the prioritizer's |
| HostChoice.ZeroWeightIsNothing | pkg/scheduler/plugin.go:196-203 | a prioritizer of weight 0 that never errs changes no decision |
| HostChoice.DoubleWeightIsTwice | pkg/scheduler/plugin.go:196-203 | a prioritizer of weight 2w decides like the same prioritizer twice with weight w |
| HostChoice.RowScoreIs | pkg/scheduler/extender.go:126-151 | an extender's part of a host's score is its weight times the sum of the scores it gives that host |
| Rounds.GenericScheduler.VisitFront | pkg/scheduler/generic_scheduler.go:85-180 | one turn: bind and account, or move the pod to the fail queue |
| Rounds.GenericScheduler.VisitPending | pkg/scheduler/generic_scheduler.go:85-180 | the whole loop equals the round's specification, over a FIFO with stale slots too |
| Rounds.GenericScheduler.Requeue | pkg/scheduler/generic_scheduler.go:181-194 | every failed pod goes back and the fail queue ends empty |
| Rounds.GenericScheduler.Schedule | pkg/scheduler/generic_scheduler.go:77-196 | events are the round's bindings; every node ends with exactly the pods it had and the manifests the events bind to it, otherwise the same; pending pods afterwards are those not bound; a stale-free queue ends with the unvisited pods and then the failed ones in order |
| Rounds.RoundConserves | pkg/scheduler/generic_scheduler.go:85-195 | every pod taken up ends up bound, failed or unvisited, exactly once (multisets) |
| Rounds.RoundKeepsOrder | pkg/scheduler/generic_scheduler.go:85-195 | failed pods keep their relative order, unvisited pods are a suffix, at most the timeout plus one fail |
| Rounds.RoundPartitions | pkg/scheduler/generic_scheduler.go:85-195 | a pod stays pending if and only if it was not bound |
| Rounds.DecidedIsKnown | pkg/scheduler/generic_scheduler.go:203-270 | a decision names a node the scheduler was shown |
| Rounds.RoundFills | pkg/scheduler/generic_scheduler.go:154-178 | after a round every node has exactly the pods it had and the manifests bound to it, and its name and capacities are unchanged |
| RoundLaws.EachFitsInTurn | pkg/scheduler/generic_scheduler.go:85-180 | every pod bound passes the predicates on its host as it stands with all earlier bindings of the round, given extenders that name no node they were not given |
| RoundLaws.OverrulesIff | pkg/scheduler/extender.go:58-124 | one extender leaves the predicates their say, whatever the predicates and nodes, if and only if it names only nodes it was given whenever its answer is used |
| RoundLaws.RoundStaysWithinCapacity | pkg/scheduler/generic_scheduler.go:85-180 | with a predicate that asks for room for the requests, a node that receives a pod ends the round with the requests of all its pods within its capacity, and so does one that starts so |
| RoundLaws.BoundWithinCapacity | pkg/scheduler/generic_scheduler.go:85-180 | what a node had and everything bound to it in the round stay together within its capacity, if it received anything |
| RoundLaws.EachFailsInTurn | pkg/scheduler/generic_scheduler.go:109-123 | no pod fails that could have been bound: without extenders and with predicates and prioritizers that do not err, a pod that fails fits on no node as the nodes stand with the pods bound before it |
| RoundLaws.FailedFitsNowhere | pkg/scheduler/generic_scheduler.go:109-123 | with monotone predicates it fits on no node at the end of the round either |
| RoundLaws.SecondPodWaits | pkg/scheduler/generic_scheduler.go:77-196 | a node of 1000 mCPU and two pending pods of 600 mCPU: the first is bound and the second fails |
| PriorityRounds.VisitFront | pkg/scheduler/generic_scheduler.go:85-180 | one turn over the priority queue: the front pod is bound and accounted, or fails |
| PriorityRounds.PutBackAll | pkg/scheduler/generic_scheduler.go:181-194 | every failed pod goes back into the priority queue, which is valid, and the fail queue ends empty |
| PriorityRounds.VisitingEnds | pkg/scheduler/generic_scheduler.go:85-180 | visited and unvisited pods together are all pods, each once, and no pod visited is beaten by a later one |
| PriorityRounds.ScheduleByPriority | pkg/scheduler/generic_scheduler.go:77-196 | over the priority queue: the bindings of the round over some order in which no visited pod is beaten by a later one; every node ends with exactly the pods it had and the manifests the events bind to it; every other pod stays queued, the queue ends valid and the fail queue empty |
| PriorityRounds.VisitedByPriority | pkg/scheduler/generic_scheduler.go:85-180 | with the default comparator the pods are visited by nonincreasing priority, oldest first among equals, and none that is not visited has more |
| Admission.Estimator.Estimate | pkg/scheduler/scheduler.go:104-198 | penalty rule 5, with the way it moves stated: below the target the penalty never falls, above it never rises and falls to 1.1, at the target nothing changes; and the scaled usage of every node |
| Admission.PenaltyStaysInRange | pkg/scheduler/scheduler.go:166-183 | whatever the quality of service does, a penalty that starts in [1, 3] stays there, and one that starts in [1.1, 3] stays there |
| Admission.PenaltyMoves | pkg/scheduler/scheduler.go:166-183 | a quality of service below the target never lowers the penalty, and strictly raises one in (1, 3) if it was lowered last or the quality is below 0.99 of the previous one; above the target it never rises and strictly falls above 1.1; at the target it stays |
| Admission.PenaltyRises | pkg/scheduler/scheduler.go:166-183 | after a tick above the target, one below it raises the penalty by what it was above 1, up to 3 |
| Admission.PenaltyRaisedOnce | pkg/scheduler/scheduler.go:166-183 | while the quality stays where it fell to, the penalty is not raised again |
| Admission.PenaltySettles | pkg/scheduler/scheduler.go:166-183 | as long as the quality stays above the target the penalty falls by at least 0.011 a tick to 1.1, and stays there; after 173 ticks from anywhere in its range |
| Admission.EstimateAboveMeasured | pkg/scheduler/scheduler.go:189-191 | a penalty of at least 1 never estimates below what was measured |
| Admission.EstimateAtMostScaled | pkg/scheduler/scheduler.go:189-191 | a hundred times the estimate is at most, and less than a hundred below, the usage times the penalty in whole hundredths |
| Admission.FilterFitResource | experiments/extender.go:100-160 | whatever the order of its workers, the admitted nodes in order |
| Admission.AdmittedAreAdmitted | experiments/extender.go:116-136 | admitted are exactly the nodes whose estimated usage with the pod's requests is within the allocatable CPU and memory, or that have no estimate, except a node of empty name |
| Admission.AdmittedSplits | experiments/extender.go:138-160 | the admitted nodes keep their order |
| Admission.FitResourceGuards | experiments/extender.go:100-160 | as an extender, filterFitResource names only nodes it was given and that pass its test |
| Admission.GuardedAdmits | experiments/extender.go:100-160 | what passes all extenders passed the admission test |
| Admission.DecidedIsAdmitted | pkg/scheduler/generic_scheduler.go:203-270 | the chosen host has room by its estimate |
| Admission.RoundStaysWithinEstimates | pkg/scheduler/generic_scheduler.go:154-163 | each node cached at round start ends charged with exactly the requests bound to it, and within its allocatable CPU and memory if it received any |
| Admission.UncachedStaysWithin | pkg/scheduler/generic_scheduler.go:154-163 | a node not cached at round start is entered by its first pod, charged with exactly what is bound to it, and stays within its capacity if it receives two pods or more |
| Admission.RoundStaysWithinMeasured | pkg/scheduler/generic_scheduler.go:154-163 | the same of last-measured usage, when the penalty was at least 1 |
| Admission.FitResourceKeepsMeasured | pkg/scheduler/generic_scheduler.go:154-163 | the same with filterFitResource itself as the extender |
| Nodes.Node.BindPod | pkg/node/node.go:84-113 | the new pod is bound at this clock with the given phases and grace period, and starts with status Ok whatever the capacity check says; an invalid name changes nothing |
| Nodes.Node.DeletePod | pkg/node/node.go:117-125 | the named pod, and only it, is deleted |
| Nodes.Node.GCTerminatedPods | pkg/node/node.go:158-164 | exactly the terminated and deleted pods leave the map |
| Nodes.Node.RunningPodsNum | pkg/node/node.go:195-204 | the number of running pods, in whatever order the map is iterated |
| Nodes.Node.TerminatingPodsNum | pkg/node/node.go:207-216 | the number of terminating pods |
| Nodes.Node.BindingFailedPodsNum | pkg/node/node.go:219-228 | always 0 |
| Nodes.Node.RunningAndTerminatingPods | pkg/node/node.go:168-179 | the manifests of exactly the running and terminating pods |
| Nodes.Node.TotalResourceRequest | pkg/node/node.go:183-192 | the sums of requests over running and terminating pods |
| Nodes.Node.TotalResourceUsage | pkg/node/node.go:232-240 | the sum of usage per resource, each pod queried once, no pod panicking |
| Nodes.Node.Metrics | pkg/node/node.go:69-78 | the counts and totals of one clock, all for the same state of the pods |
| Nodes.CollectionUnobserved | pkg/node/node.go:158-164 | collecting garbage at any times or never leaves the same running and terminating pods, in the same state, at every later clock |
| Nodes.TotalsUnobserved | pkg/node/node.go:183-240 | hence no count and no total of requests or usage depends on garbage collection |
| Nodes.FinishedIsInert | pkg/node/node.go:158-164 | a finished pod ignores queries and deletions |
| Nodes.SumRemove | pkg/node/node.go:183-240 | a total does not depend on the order of the map |
| Nodes.PodsNumPositive | pkg/node/node.go:153-155 | PodsNum is positive exactly when a pod runs or terminates |
| Nodes.QueriesSettle | pkg/node/node.go:232-240 | asking a node's pods again at the same clock changes nothing |
| Nodes.TotalAsked | pkg/node/node.go:232-240 | asking a node's pods for their usage leaves what they use together |
| Cluster.SubmittingKeepsOnePlaceIff | pkg/kubesim.go:386-389 | submitting a pod keeps the invariant that no key is both pending and on a node if and only if no node holds a pod of that name |
| Cluster.SubmittingKeepsEachInOnePlaceIff | pkg/kubesim.go:386-389 | the same of what a run promises: no key is both pending and on a node or on two nodes, and `boundPods` has the pod and names its node |
| Cluster.BoundGood | pkg/kubesim.go:440-458 | binding a pod that has left the queue keeps every key in one place |
| Cluster.HandledGood | pkg/kubesim.go:369-416 | every submitter event keeps every key in one place, unless it submits the name of a pod that is on a node |
| Cluster.ShrunkGood | pkg/kubesim.go:479-483 | taking pods off nodes keeps every key in one place |
| Cluster.RoundBinds | pkg/kubesim.go:434-446 | the scheduler's events bind queued pods, each once, to nodes of the cluster |
| Cluster.KubeSim.constructor | pkg/kubesim.go:65-118 | a cluster without pods has the invariant |
| Cluster.KubeSim.SubmitPod | pkg/kubesim.go:370-389 | the pod is queued, or its name is refused and nothing changes |
| Cluster.KubeSim.DeletePodFromNode | pkg/kubesim.go:485-500 | the `boundPods` entry of the name is deleted, and unless the name of a pod on a node was submitted again no other pod of the cluster is touched |
| Cluster.KubeSim.HandleEvent | pkg/kubesim.go:369-416 | each submitter event's effect on the queued pods, the submitters and where pods are, and exactly when it is an error; a delete event for a running pod begins its deletion on its node, other running pods run on, and deletions that have begun go on |
| Cluster.KubeSim.UpdatePod | pkg/kubesim.go:397-409 | a queued pod is replaced; a missing one is only warned about; other errors are returned |
| Cluster.KubeSim.DropOrDelete | pkg/kubesim.go:390-396 | a queued pod is dropped; otherwise the `boundPods` entry of that name, if it runs, is deleted at this clock; pods of other names, and pods already deleted, are untouched, and so is every other pod unless the name of a pod on a node was submitted again |
| Cluster.KubeSim.Submit | pkg/kubesim.go:362-420 | fails if and only if a submitter errs or sends a refused event; otherwise the state is that after all events of all submitters in some order, exactly the terminating submitters are gone, and of the running pods whose names are not submitted exactly those named in a delete event are being deleted |
| Cluster.KubeSim.DeletionMeans | pkg/kubesim.go:485-500 | a pod deleted while it ran on a node is on that node exactly until its grace period is over, uses what it used at the deletion, and is never running or terminated |
| Cluster.KubeSim.DeletionShown | pkg/kubesim.go:424-431 | the scheduler is shown it for exactly that time |
| Cluster.KubeSim.DeletionCollected | pkg/kubesim.go:225-239 | a turn that ends with a collection, with the grace period over, leaves it on no node |
| Cluster.StillSubmitting | pkg/kubesim.go:410-412 | the submitters left are exactly those that have sent no TerminateSubmitterEvent |
| Cluster.KubeSim.BuildInfos | pkg/kubesim.go:424-431 | the scheduler is shown, for every node, exactly the running and terminating pods |
| Cluster.KubeSim.BindOne | pkg/kubesim.go:440-458 | one pod becomes the entry of its key in `boundPods` and on its node, freshly started at this clock |
| Cluster.KubeSim.BindAll | pkg/kubesim.go:440-464 | every pod decided on is afterwards on the node decided for it |
| Cluster.KubeSim.Schedule | pkg/kubesim.go:422-467 | never fails; exactly the pods the scheduler's round binds, given the pods that run or terminate now, leave the queue and become the `boundPods` entries of their keys on the nodes decided on; no other entry changes |
| Cluster.KubeSim.AfterSubmit | pkg/kubesim.go:193-238 | the rest of a turn: that round, every pod asked for its usage, the next cache estimated from it, finished pods gone from every node when metrics are due, the clock moved on; if this round's cache was estimated with a penalty in [1, 3], every node that receives pods under an admitting extender keeps the usage last measured plus what is bound to it within its allocatable amounts |
| Cluster.KubeSim.ProspectKeepsMeasured | pkg/kubesim.go:193-221 | the bindings about to be made keep every node within its last measurement |
| Cluster.KubeSim.BuildMetrics | pkg/kubesim.go:207 | the published node metrics are the usage totals of each node's pods at this clock |
| Cluster.KubeSim.Predict | pkg/kubesim.go:220-221 | the cache becomes the estimate from the published metrics, and a penalty in its range stays there |
| Cluster.KubeSim.MeasureNodes | pkg/kubesim.go:207 | the metrics of every node at this clock, each pod asked once, none panicking; asking again would change nothing |
| Cluster.KubeSim.GCTerminatedPodsInNodes | pkg/kubesim.go:479-483 | exactly the finished pods leave every node, and the invariant is kept |
| Cluster.KubeSim.ToTerminate | pkg/kubesim.go:346-360 | true exactly when the queue is empty, no node has a running or terminating pod, and submitters existed and are gone |
| Cluster.KubeSim.Turn | pkg/kubesim.go:166-239 | a turn ends the run when the loop terminates, or is cancelled, or else exactly when a submitter's events are refused; only cancellation gives an error; otherwise its round is carried out as logged and, from the second turn on, keeps within the last measurement; deletions that have begun go on and those asked for begin, unless a pod of that name is bound or submitted; and no finished pod is left on a node when metrics are due |
| Cluster.KubeSim.Run | pkg/kubesim.go:155-247 | with a positive tick the loop ends at most one tick after the end clock; no turn before the last was cancelled or refused, and the last one says why it ended; an error is returned if and only if the run was cancelled; every pod is sound; `boundPods` is what the turns' rounds made of it; with an admitting extender and a penalty that starts in [1, 3] every round but the first keeps each node within its last measured usage; a delete event for a running pod begins its deletion in that turn, and deletions go on over all turns, unless the name is submitted or bound again; and unless the name of a pod on a node was submitted again, no key is both pending and on a node or on two nodes, and `boundPods` has the pod and names its node |
| Trace.MergeLines | experiments/utils.go:92-162 | fails exactly at the first unreadable line reached; otherwise the phases are, second by second, the first min(total, maximum) seconds of the lines' usage, and neighbours differ |
| Trace.StandsStep | experiments/utils.go:135-160 | one line, cut short at the maximum, extends the expansion |
| Trace.StandsEnd | experiments/utils.go:158-160 | lines after the maximum do not matter |
| Trace.ExpandCovers | experiments/utils.go:170-182 | each second of the expansion is the sample of the phase covering it |
| Trace.PodFollowsTrace | experiments/utils.go:170-182 | the pod made from the phases reports the trace's usage in every second up to the maximum, and has ended after it |

## Left out

- Victims.SelectVictimsOnNode: takes one predicate order for all its checks where silent failures meet other objections, and so does FindPreemption.Find, because the code's answer then depends on each order drawn (`Victims.FitFreeIff`).
- Scheduling.ScheduleOne: takes one predicate order for all nodes where predicates object in different ways, because the code's answer then depends on each order drawn (`Victims.OrderFreeIff`, `Scheduling.OrderDecidesFiltering`).
- FairShare.Conservation: keeps, for the CPU only, the requirement that capacity in thousandths of a core times a pod's request or usage fits an int64, because the second CPU pass multiplies them.
- FairShare.ConservationIff: does not say what happens where the running demand wraps around twice, which takes fewer bytes of total request than listed pods (`FairShare.LeftAtMost`); there a memory share can exceed the int64 range, and Go leaves its conversion to the platform.
- Overflow.AlwaysGetsShareIff: is stated for capacities and total requests up to 2^60 bytes, and Overflow.AlwaysSatisfiedIff with it; that a reaching product is enough is proved for all sizes (`FairShare.EachPod`).
- Allocation.PodsMetrics.SparePass: computes the memory share in exact arithmetic where pkg/metrics/metrics.go:191 uses float64, because rounding of floats is not modelled.
- Allocation.PodsMetrics.AllocateKind: shares that memory pass, and so does Allocation.PodsMetrics.AllocateNode.
- Admission.Estimator.Estimate: uses reals where the code uses float32, and penalty rules 0 to 4 are absent, because the constant in the code selects rule 5.
- ParallelFilter.FilterWithPlugins: takes what `podFitsOnNode` answers per node as given, and does not model the caches of predicate metadata.
- Rounds.GenericScheduler.Schedule: covers keep-scheduling mode, which is the default, over a FIFO queue, as PriorityRounds.ScheduleByPriority does over the priority queue without nominations; the mode that stops at the first failure, and with it the events and nominations that follow a preemption, is absent.
- Scheduling.ExtenderFilter: covers extenders with `NodeCacheCapable` set; the other branch takes the address of a loop variable (pkg/scheduler/extender.go:94-96).
- Cluster.KubeSim.Run: has the FIFO queue and the generic scheduler in place of any queue and any scheduler, so delete events from a scheduler do not occur; the quality of service that each tick's metrics report is any number.
- FindPreemption.Find: is given whether the preemptor is eligible and which nodes failed for unresolvable reasons.
- Trace.MergeLines: starts from cells already read as numbers, with reals for floats, and leaves out the request taken from the first line.
- Integer widths: int32 phase seconds and int64 clocks are unbounded here; wrap-around is modelled only in the allocator and for the starting bounds of node selection.
- Phase seconds are nonnegative; a manifest can hold negative ones.
- Keys are pairs of namespace and name instead of strings joined by a slash.
- A pod's file is read once: the phase list behind a path does not change between loads.
- The node a pod was bound to is fixed in the pod object; the code reads it from the manifest, which a second binding of the same manifest would overwrite.
- container/heap and sort are Go's library: up, down, Fix, Remove, Init are modelled as that library documents them, and sorting is any function that sorts.
- The mutexes of `BuildMetrics` are atomic accesses, and its float32 sums of whole numbers are integers.
- Preemption takes exactly the manifest at hand off a node. NodeInfo.RemovePod takes the first pod of the same UID, and the simulator's UID is the bare name: two pods of one name from different namespaces on one node are not modelled there.
- Kubernetes' own predicates, priorities and quantities are functions and integers; NodeInfo is a set of manifests with two capacities.
- pkg/scheduler/proposed_scheduler.go repeats the generic scheduler and is used by no experiment.
- Creation timestamps, pod and node conditions, `BuildStatus`, submitters' workloads, metrics text and writers, configuration, logging, timing maps and file reading: copying, randomness or I/O.
