# Forwarding map, DeltaQ scheduler and RMT ports

A model in Dafny of three connected parts of the repository, with proofs about them.

**The forwarding map** (`fwdMap/`, with its integer-keyed twin in `plugins/avlpff/`). A
self-balancing tree with a cached height byte, and a trie of such trees that maps byte strings to
values. `AvlSpec` has the tree as a value that remembers which node object sits where, and the
operations on it; `AvlHeight` how high a tree can get, `AvlRuns` whole sequences of edits; `Avl` the
node objects that the code overwrites in place, each method tied to the operation it performs.
`TrieSpec`, `TrieRuns` and `Trie` do the same for the trie, and `TriePrint` for the recursive listing in
`fwdMap/test.c`. The balance rule is the code's own: both the empty tree and a leaf have height 0.
A tree over integer keys stands for both key types; a byte key is an integer from 0 to 255.

**The DeltaQ output scheduler** (`plugins/deltaq/ps.c`). `DeltaQSpec` has ports and classes as values
and the three policy calls as functions; `DeltaQLedger`, `DeltaQOrder`, `DeltaQRate`, `DeltaQWrap` and
`DeltaQUndo` prove what whole runs of the calls keep: the ledger, the order of service, the burst limit,
and exactly when that limit fails; `DeltaQUrgency` which class is served in terms of lateness, `DeltaQLog`
that no class is held back for longer than its sends ask for, and `DeltaQResults` what the results of the
calls tell. `DeltaQLists` and `DeltaQ` are the linked lists, node pools and counters updated in place, with
every call tied to its function; no PDU node and no time node is lost or shared. `send_size` is reduced to
32 bits everywhere. The clock and the drop draw are inputs.

**The N-1 ports of the RMT** (`plugins/edits/rmt.c`). `Rmt` is a state machine with any number of
calling threads, ports and one egress worker; a step is what happens between taking and releasing a
lock, and the worker's write is a step without its lock. `RmtSafety` has what every interleaving
keeps, `RmtCalls` who writes, who wakes the worker and which ports it meets, `RmtAlone` what a send and a
visit come to on their own, and `RmtRaces` how long an enable, a disable and an unbind last, and the runs
in which they do not; `RmtDeltaQ`, `RmtDeltaQRuns`, `RmtDeltaQFifo` and `RmtDeltaQRate` the machine with
DeltaQ as its policy, in which senders and worker carry their PDUs. `RmtInstance` is the port table on the
heap, with one method per locked section, each tied to its step, and the nested loops of `send_worker`, in
between whose steps all other threads may act.

## Where the code falls short of what it is for

- A stored key longer than 256 bytes spoils the listing, as the position in the key buffer is an
  `unsigned char`; `TriePrint.PrintTable` has the exact condition.
- The burst limit fails when `oBurstS` and the largest PDU together reach 2^32, as the test is done in
  32 bits (`DeltaQWrap.RateHoldsIff`). Where they fit, it holds as long as no requeue takes more bytes off
  the log than the class gets back, and can fail as soon as one does (`DeltaQUndo.CoveredRateHoldsIff`): on
  an undo of a PDU smaller than the oldest record, which is the one taken off, and on the return of a PDU
  that the class did not send, after an EAGAIN on a sender's own write.
- `n_sdus` and DeltaQ's `count` drift apart when a PDU written directly, of a class DeltaQ does not
  know, comes back with EAGAIN, as the result of the requeue is not looked at, and in no other way
  (`RmtDeltaQ.RunAgreesIff`, `RmtDeltaQRuns.DriftHappens`).
- A PDU that comes back with EAGAIN to a limited class without a send record makes `requeue_tx` read
  through a null pointer (`RmtDeltaQRuns.StepHappensIff`, `NullReadHappens`); that takes an EAGAIN on a
  sender's own write (`RmtDeltaQFifo.NeverReadsNull`).
- A PDU that comes back with EAGAIN is in the queue but no longer in `pending_ops`, so that a port can
  be freed with PDUs in its queue (`RmtSafety.FreedEmptyIff`, `RmtRaces.EagainLeavesPdu`).
- An EAGAIN on a write under way turns a deallocated port into a disabled one, which its last operation no
  longer frees (`RmtRaces.UnbindLastsIff`, `UnbindIsForgotten`, `DisableLasts`).
- A late class is passed over for one in time when its `oMulOver` is not positive
  (`DeltaQUrgency.LateFirstIff`).
- The worker disables a port again that was enabled after its EAGAIN, and an enable lasts exactly when
  the worker carries none (`RmtRaces.EnableLastsIff`, `EnableIsLost`). No wake-up is lost by that, as the
  port is disabled; but its PDUs wait for another enable.

## Model

| member | source | states |
|---|---|---|
| AvlSpec.BalanceKeepsMap | fwdMap/avl_internals.c:76-94 | rebalancing keeps the search order and every key with its node object and value, in all four rotation cases |
| AvlSpec.BalanceKeepsIds | fwdMap/avl_internals.c:50-94 | rotations keep exactly the same node objects, each once |
| AvlSpec.BalanceRepairs | fwdMap/avl_internals.c:76-94 | with balanced subtrees and a factor from -2 to 2 the result is balanced and at most one lower; a balanced tree is left alone |
| AvlSpec.InsertUpdatesMap | fwdMap/avl.c:16-38 | insertion is map update: one key changes, the order holds, an existing key keeps its node object |
| AvlSpec.InsertKeepsIds | fwdMap/avl.c:22-37 | the node objects after an insertion are the old ones, plus one new one only when the key was absent |
| AvlSpec.InsertKeepsBalance | fwdMap/avl.c:16-38 | insertion keeps the relaxed balance and raises the height by 0 or 1 |
| AvlSpec.FindMinIsLeast | fwdMap/avl_internals.c:37-41 | the leftmost node holds the least key of the tree |
| AvlSpec.RemoveMinUpdatesMap | fwdMap/avl_internals.c:43-48 | removing the leftmost node deletes exactly the least key |
| AvlSpec.RemoveMinKeepsBalance | fwdMap/avl_internals.c:43-48 | it keeps the balance and lowers the height by 0 or 1 |
| AvlSpec.SuccessorReplacesRoot | fwdMap/avl.c:56-58 | the successor put in place of a removed root keeps the order and deletes exactly the root's key |
| AvlSpec.RemoveUpdatesMap | fwdMap/avl.c:40-64 | removal is map deletion: every survivor keeps its node object and its value |
| AvlSpec.RemoveKeepsIds | fwdMap/avl.c:40-64 | the node objects left are the old ones minus the one that held the key |
| AvlSpec.RemoveKeepsBalance | fwdMap/avl.c:40-64 | removal keeps the relaxed balance and lowers the height by 0 or 1 |
| AvlHeight.SizeAtLeast | fwdMap/avl_internals.c:22-35 | a balanced tree of height h has at least Lucas(h+1)-1 nodes |
| AvlHeight.SparseMeetsBound | fwdMap/avl_internals.c:22-35 | for every height there is an ordered balanced tree with exactly that many nodes, so the bound is the best possible |
| AvlHeight.HeightOfByteKeys | fwdMap/avl.h:23-31 | over the 256 byte keys the height is at most 10 |
| AvlHeight.ByteHeightReached | fwdMap/avl.h:23-31 | every height up to 10 occurs with byte keys |
| AvlHeight.HeightOfIntKeys | plugins/avlpff/avl.h:27-31 | over 32-bit integer keys the height is at most 45 |
| AvlHeight.IntHeightReached | plugins/avlpff/avl.h:27-31 | every height up to 45 occurs with integer keys |
| AvlRuns.EditsKeepTree | fwdMap/avl.c:16-64 | after any sequence of insertions and removals on a good tree: order, distinct nodes, balance, and the map that the edits make |
| AvlRuns.EditedHeight | plugins/avlpff/avl.c:28-88 | from the empty tree, after any sequence, the height stays within 45 and the tree is the map of the edits |
| AvlRuns.ChainOfThree | fwdMap/avl_internals.c:22-35 | inserting 1, 2, 3 leaves a chain of three: the usual balance rule does not hold of this code |
| Avl.RecalcH | fwdMap/avl_internals.c:22-27 | the cached byte becomes the height of the tree |
| Avl.BalanceFactorIsExact | fwdMap/avl_internals.c:29-35 | the signed 8-bit factor is the true difference of heights on every tree the bound allows |
| Avl.RotateRightAt | fwdMap/avl_internals.c:50-61 | the in-place rotation turns the nodes of a tree into those of the rotated tree, cached heights included |
| Avl.RotateLeftAt | fwdMap/avl_internals.c:63-74 | likewise to the left |
| Avl.BalanceAt | fwdMap/avl_internals.c:76-94 | in-place rebalancing of a node with a stale height gives the rebalanced tree, cached heights included |
| Avl.Search | fwdMap/avl.c:4-14 | finds the node of the key exactly when the key is present, in at most height + 1 nodes |
| Avl.InsertAt | fwdMap/avl.c:16-38 | in-place insertion gives the inserted tree; when the key is absent the stored node is the one fresh node and is where the key is found, otherwise nothing is added and the caller's pointer comes back |
| Avl.FindMinAt | fwdMap/avl_internals.c:37-41 | hands back the node object of the least key |
| Avl.RemoveMinAt | fwdMap/avl_internals.c:43-48 | in-place removal of the leftmost node, which itself keeps its key and value |
| Avl.PromoteSuccessor | fwdMap/avl.c:56-60 | the successor is relinked over both subtrees, also when it is the root of the right one |
| Avl.RemoveAt | fwdMap/avl.c:40-64 | in-place removal by relinking gives the tree without the key; the one node freed is the one that held it |
| Avl.InsertKeepsGood | plugins/avlpff/avl.c:40-62 | an insertion keeps order, distinct nodes and balance together, and the height within 45 |
| Avl.RemoveKeepsGood | plugins/avlpff/avl.c:64-88 | a removal does too, and brings in no node |
| TrieSpec.InsertUpdates | fwdMap/multiavl.c:21-35 | `mavl_insert` is map update on byte strings |
| TrieSpec.RemoveDeletes | fwdMap/multiavl.c:37-43 | `mavl_remove` is map deletion, whether or not the key was there |
| TrieSpec.InsertKeepsPruned | fwdMap/multiavl_internals.c:3-23 | path creation leaves no node without content and child below the root |
| TrieSpec.RemoveKeepsPruned | fwdMap/multiavl_internals.c:25-51 | pruning on the way back leaves none either |
| TrieSpec.PrunedNodes | fwdMap/multiavl_internals.c:37-49 | in a pruned trie the nodes are exactly the root and the prefixes of the stored keys |
| TrieSpec.OnlyPrunedNodes | fwdMap/multiavl_internals.c:37-49 | and only a pruned trie has that node set |
| TrieSpec.NodesFollowMap | fwdMap/multiavl_internals.c:3-51 | pruned tries with the same map have the same nodes |
| TrieSpec.InsertThenRemove | fwdMap/multiavl_internals.c:3-51 | inserting a fresh key and removing it restores the map and the set of nodes |
| TrieSpec.DepthIsLongest | fwdMap/multiavl.c:59-71 | a prefix leads to a node exactly up to the depth of the key |
| TrieSpec.SearchPrevIsLongestPrefix | fwdMap/multiavl.c:59-71 | `mavl_search_prev` gives the node of the longest existing prefix, except NULL when that prefix is proper and its node has no children |
| TrieSpec.SearchPrevAgrees | fwdMap/multiavl.c:45-71 | it agrees with `mavl_search` whenever the whole path exists |
| TrieHeap.AtIsSub | fwdMap/multiavl.c:45-57 | following a path through the objects and through the abstract trie is the same |
| TrieHeap.Search | fwdMap/multiavl.c:45-57 | returns the node at the end of the path or null; it has content exactly for stored keys, and then their value |
| TrieHeap.InsertR | fwdMap/multiavl_internals.c:3-23 | creates the missing nodes and stores the value at the end of the path, on the nested heap; the returned node is at the key, and old nodes stay where they are |
| TrieHeap.Insert | fwdMap/multiavl.c:21-35 | for every key, the empty one too, updates the map, keeps all trie and AVL nodes unshared, and adds fresh nodes only |
| TrieHeap.RemoveR | fwdMap/multiavl_internals.c:25-51 | removes the key and frees exactly the nodes left without content and child; the others stay where they are |
| TrieHeap.Remove | fwdMap/multiavl.c:37-43 | for every key deletes from the map, keeps all nodes unshared and the trie pruned, and never frees the root |
| TrieHeap.SearchPrev | fwdMap/multiavl.c:59-71 | the loop hands back the object at the longest existing prefix, with the same exception |
| TrieHeap.PrevAtIsSearchPrev | fwdMap/multiavl.c:59-71 | that object is the one of the abstract result |
| TrieRuns.EditsKeepTrie | fwdMap/multiavl.c:21-43 | after any sequence of insertions and removals a pruned trie is pruned and is the map that the edits make |
| TrieRuns.NodesForgetHistory | fwdMap/multiavl_internals.c:3-51 | two sequences from the empty trie that make the same map leave the same nodes: the root and the prefixes of the keys |
| TriePrint.ListingIsOrderedKeys | fwdMap/test.c:24-39 | the listing has every stored non-empty key exactly once, in strict lexicographic order, prefixes first |
| TriePrint.PrintRec | fwdMap/test.c:24-39 | the recursion over the shared buffer emits the listing of its subtree and leaves the prefix in the buffer, as long as the 8-bit position does not wrap |
| TriePrint.PrintTable | fwdMap/test.c:61-65 | a whole table comes out right if and only if no stored key is longer than 256 bytes |
| TriePrint.LongKey | fwdMap/test.c:24-36 | a key of 257 bytes is a stored key of a pruned trie: the failing inputs exist |
| DeltaQLists.Pool.Get | plugins/deltaq/ps.c:73-90 | takes the first free node or a fresh one, and the free list loses exactly that node |
| DeltaQLists.Pool.Release | plugins/deltaq/ps.c:92-98 | puts the node in front of the free list |
| DeltaQLists.NodeQueue.PushBack | plugins/deltaq/ps.c:289-303 | appends to the begin/end list, which stays one acyclic chain; no node of queue or pool is lost or shared |
| DeltaQLists.NodeQueue.PushFront | plugins/deltaq/ps.c:438-447 | prepends likewise, also on an empty list |
| DeltaQLists.NodeQueue.PopFront | plugins/deltaq/ps.c:381-396 | takes the first item; its node goes to the pool and the end pointer is cleared with the last node |
| DeltaQLists.NodeQueue.DropFront | plugins/deltaq/ps.c:449-455 | drops the first item; its node goes nowhere |
| DeltaQ.QosVals.ExpireSends | plugins/deltaq/ps.c:343-358 | the expiry loop takes off the log exactly the leading sends before the limit, and their sizes off `send_size` |
| DeltaQ.QosVals.Judge | plugins/deltaq/ps.c:337-370 | whether the class may send its head and its scaled slack, from list heads and counters |
| DeltaQ.QosVals.TakeHead | plugins/deltaq/ps.c:381-408 | both queues lose their heads, `lastST` is set, and a limited class logs the send |
| DeltaQ.QosVals.Return | plugins/deltaq/ps.c:438-455 | both queues get their heads back, and a limited class loses its oldest send record |
| DeltaQ.PortVals.ScanAll | plugins/deltaq/ps.c:332-375 | the loop over the classes expires every log and finds the class that the specification chooses |
| DeltaQ.PortVals.FindQos | plugins/deltaq/ps.c:33-57 | finds the first class with the key, or null |
| DeltaQ.Scheduler.Enqueue | plugins/deltaq/ps.c:247-308 | on all ports' objects the call does the specified step and returns 0, 1 or -1 as specified; over all ports and the free lists no PDU node and no time node is lost |
| DeltaQ.Scheduler.Dequeue | plugins/deltaq/ps.c:315-413 | the call does the specified step and hands out the head of the chosen class, nothing, or the bad port; over all ports and the free lists no PDU node and no time node is lost |
| DeltaQ.Scheduler.Requeue | plugins/deltaq/ps.c:419-457 | the call does the specified step and returns 0 or -1 as specified, or ends in a read through a null pointer exactly on a limited class without a send record; over all ports and the free lists no PDU node and no time node is lost |
| DeltaQ.Scheduler.NodeHomes | plugins/deltaq/ps.c:100-151 | on all ports together, every PDU node and every time node is in one queue of one class or in the free list, and in no second place |
| DeltaQResults.EnqueueTells | plugins/deltaq/ps.c:258-307 | an enqueue returns 0 exactly when the PDU joined the back of its class's queue and nothing else moved, 1 when it was dropped, -1 when its port or class is unknown |
| DeltaQResults.DequeueTells | plugins/deltaq/ps.c:325-412 | a dequeue hands out exactly the PDU that one class lost from its front; without one no queue changed |
| DeltaQResults.RequeueTells | plugins/deltaq/ps.c:433-457 | a requeue returns 0 exactly when the PDU is back at the front of its class's queue, and -1 when nothing changed |
| DeltaQResults.AnswersAreResults | plugins/edits/rmt.c:925-1044 | what the RMT is told in the combined model is what these calls return: an enqueue is accepted on 0, a poll gets the PDU handed out |
| DeltaQLedger.ExpireIsWindow | plugins/deltaq/ps.c:343-358 | after expiry the log is exactly the sends at or after the limit, in order, and `send_size` their sum in 32 bits |
| DeltaQLedger.EnqueueKeepsInv | plugins/deltaq/ps.c:289-305 | an accepted PDU keeps the ledger: port count, paired and ascending times, log and its sum |
| DeltaQLedger.DequeueKeepsInv | plugins/deltaq/ps.c:332-412 | a dequeue keeps the ledger |
| DeltaQLedger.RequeueKeepsInv | plugins/deltaq/ps.c:438-455 | a requeue keeps the ledger |
| DeltaQLedger.RunKeepsInv | plugins/deltaq/ps.c:247-457 | after every run with a clock that does not go back: `count` is the sum of the queue lengths, as many times as PDUs, ascending from `lastST` to the clock, log in time order, `send_size` its sum |
| DeltaQOrder.ChosenIsFirstLeast | plugins/deltaq/ps.c:332-379 | a dequeue serves the first class with the least scaled slack among those that may send, and returns nothing if and only if none has a slack below KTIME_MAX |
| DeltaQOrder.EarliestDeadlineFirst | plugins/deltaq/ps.c:365-396 | without limits and with one positive multiplier, the PDU taken has the least enqueue time plus allowed wait of all PDUs on the port |
| DeltaQOrder.NothingMeansEmpty | plugins/deltaq/ps.c:377-379 | such a port gives nothing if and only if its count is 0 |
| DeltaQUrgency.ServesMostUrgent | plugins/deltaq/ps.c:365-378 | with positive multipliers, a dequeue serves the first of the classes with the strongest claim: a late head before one in time, among late ones the greatest lateness times `oMulOver`, among others the one due first; nothing only when all that could be served are early by KTIME_MAX/100 |
| DeltaQUrgency.LateFirst | plugins/deltaq/ps.c:365-374 | so as long as a class that can be served is late, the one served is late, and its lateness times its `oMulOver` is no less than that of any other |
| DeltaQUrgency.LateFirstIff | plugins/deltaq/ps.c:366-370 | late classes come first on all ports whose classes have a multiplier if and only if it is positive |
| DeltaQOrder.StepInOrder | plugins/deltaq/ps.c:289-303 | each operation keeps: accepted PDUs in order are the delivered ones followed by the queue, each with its enqueue time |
| DeltaQOrder.FifoWithUndo | plugins/deltaq/ps.c:289-447 | so it holds after every run whose requeues undo the last dequeue of their class |
| DeltaQOrder.RequeueUndoesDequeue | plugins/deltaq/ps.c:381-447 | a dequeue and the requeue of its PDU straight after give back both queues of every class and the count |
| DeltaQOrder.RequeueRestores | plugins/deltaq/ps.c:381-447 | also with any operations in between that neither take from the class nor put back to it: its queues are as they were, followed by what it accepted meanwhile, and the count gets its one back |
| DeltaQRate.TestIsExact | plugins/deltaq/ps.c:360-363 | the 32-bit burst test is right for every log within the limit if and only if limit and PDU together fit 32 bits |
| DeltaQRate.RunWithinBurst | plugins/deltaq/ps.c:343-455 | after every run, requeues included, `send_size` is the true sum of the log and at most `oBurstS`, where one more PDU fits |
| DeltaQRate.RunRemembers | plugins/deltaq/ps.c:343-408 | along a run without requeues every look-back window over all sends of the class stays within the burst |
| DeltaQRate.WindowedBoundsIntervals | plugins/deltaq/ps.c:343-363 | a bound on all look-back windows bounds every closed interval of that length |
| DeltaQRate.RateGuarantee | plugins/deltaq/ps.c:343-408 | in every run without requeues a limited class sends at most `oBurstS` bytes in any closed interval of length `oBurstT`, where the limit and the largest PDU fit 32 bits |
| DeltaQLog.LogIsTail | plugins/deltaq/ps.c:343-408 | in every run without requeues the log of a limited class is exactly the sends that its last scan left, those no older than `oBurstT` before it |
| DeltaQLog.HeldBackIff | plugins/deltaq/ps.c:343-363 | then a limited class with a PDU can be served if and only if the bytes it sent in the last `oBurstT` and its head are within `oBurstS`, where limit and PDU fit 32 bits: it is never held back for longer |
| DeltaQWrap.RateHoldsIff | plugins/deltaq/ps.c:360-363 | for a burst size and a bound on PDU sizes, the guarantee holds of all such runs if and only if the two together fit 32 bits |
| DeltaQWrap.Overflow | plugins/deltaq/ps.c:360-363 | otherwise there is a run that sends the burst size plus a whole PDU at one instant |
| DeltaQWrap.RequeueForgets | plugins/deltaq/ps.c:449-455 | the guarantee fails with a requeue whose oldest record is larger than the PDU put back, on a concrete run: 12 bytes not put back leave within 5 time units where 10 are allowed |
| DeltaQUndo.CoveredRateGuarantee | plugins/deltaq/ps.c:343-455 | in every run with requeues, undos or not, each taking off the log no more bytes than the class gets back, what a limited class sent and did not get back stays within `oBurstS` in any closed interval of length `oBurstT`, where the limit and the largest PDU fit 32 bits |
| DeltaQUndo.CoveredRateHoldsIff | plugins/deltaq/ps.c:449-455 | where limit and PDU fit 32 bits, that limit holds of all runs of non-empty PDUs, each of whose requeues takes at most d bytes more off the log than the class gets back, if and only if d is 0; a requeue of a PDU the class did not send gives nothing back |
| DeltaQUndo.MissedRecordFails | plugins/edits/rmt.c:803-817 | for every burst size and PDU bound from 1 up: a byte is sent, a byte the class did not send is put back and takes the record off the log, and the whole burst follows at the same instant |
| DeltaQUndo.TrailIsDelivered | plugins/deltaq/ps.c:381-455 | along undos what is counted as sent and not got back are the PDUs the class delivered for good, in order |
| DeltaQUndo.UndosCover | plugins/deltaq/ps.c:449-455 | for undos, the requeues take no more bytes than come back if and only if the oldest record is never larger than the PDU put back, however many records there are |
| DeltaQUndo.UndoRateGuarantee | plugins/deltaq/ps.c:343-455 | under undos whose oldest record is never larger than the PDU put back, what is sent and not undone stays within `oBurstS` in any closed interval of length `oBurstT` |
| DeltaQUndo.OneSizeFits | plugins/deltaq/ps.c:449-455 | where all PDUs have one size that condition holds of every run |
| RmtSafety.StepKeepsWakeup | plugins/edits/rmt.c:804-1267 | every step of every thread keeps: an enabled port with PDUs has the tasklet scheduled, or the worker has not finished the port or will reschedule |
| RmtSafety.RunKeepsWakeup | plugins/edits/rmt.c:804-1267 | so no run loses a wake-up, whatever policy and flows answer |
| RmtSafety.RestMeansEmpty | plugins/edits/rmt.c:862-982 | when the worker rests and nothing is scheduled, no enabled port holds a PDU |
| RmtSafety.RunKeepsGuards | plugins/edits/rmt.c:854-918 | in every reachable state: a visit that begins to poll is on a port that is not disabled, and a deallocated port in the table has operations pending on it |
| RmtSafety.FreedIff | plugins/edits/rmt.c:850-1362 | a step frees a port exactly when the port has been unbound, by this step or before, and the step ends the last operation pending on it |
| RmtCalls.QueuesOrWrites | plugins/edits/rmt.c:1028-1066 | a sender that finds PDUs counted or the port disabled leaves its PDU to the policy, which queues or refuses it; any other goes on to write, with the port as it was |
| RmtCalls.WritesPastNothing | plugins/edits/rmt.c:1028-1066 | and no step brings a sender to write on a port in any other way |
| RmtCalls.ReturnsAfterEagain | plugins/edits/rmt.c:802-804 | a sender comes to put its PDU back only from its own write that said EAGAIN |
| RmtCalls.PutBackDisables | plugins/edits/rmt.c:803-826 | after EAGAIN the port is disabled, with the PDU counted exactly when the policy can requeue |
| RmtCalls.WakesIff | plugins/edits/rmt.c:1258-1265 | a calling thread schedules the tasklet exactly when its step makes a port enabled with PDUs counted |
| RmtCalls.ReschedulesIff | plugins/edits/rmt.c:960-979 | the worker reschedules itself exactly for the ports it leaves enabled with PDUs counted |
| RmtCalls.PickIff | plugins/edits/rmt.c:899-918 | the scan visits every picked port that is not deallocated; it frees a deallocated one exactly when no operation is pending on it, which in a reachable state never is so |
| RmtCalls.EntersIff | plugins/edits/rmt.c:911-918 | a visit goes on to poll exactly on a port that is not disabled and has PDUs counted |
| RmtCalls.NullPoll | plugins/edits/rmt.c:925-933 | a poll without a PDU ends the visit, and resets the count exactly under a policy that should not answer null |
| RmtCalls.TaskletMeetsAll | plugins/edits/rmt.c:893-974 | a run of the tasklet, whatever comes in between, picks every port that is bound from its start to its end |
| RmtCalls.BoundIsMet | plugins/edits/rmt.c:893-1192 | a port bound while the tasklet runs is picked by that run exactly when the scan will come by its place in the table |
| RmtAlone.SendAlone | plugins/edits/rmt.c:983-1067 | the small steps of a send that nobody disturbs come to one description of the call: queued, refused, written, or put back on a disabled port |
| RmtAlone.VisitAlone | plugins/edits/rmt.c:893-969 | a visit that nobody disturbs, with good writes, takes the lesser of 10 and all PDUs off an enabled port that has any and asks for rescheduling exactly when some are left |
| RmtAlone.BadVisitAlone | plugins/edits/rmt.c:893-969 | a visit that nobody disturbs ends with the first write that is not good: after an error the PDU is gone and the rest is asked to be rescheduled, after EAGAIN the PDU is back in the queue of a disabled port if the policy can requeue |
| RmtAlone.NothingToVisit | plugins/edits/rmt.c:911-918 | a visit to a disabled or empty port changes nothing |
| RmtSafety.StepKeepsStocked | plugins/edits/rmt.c:910-959 | `n_sdus` is never negative, a poll always has a PDU counted, and a visit never goes over 10 PDUs |
| RmtSafety.StepBalances | plugins/edits/rmt.c:797-1048 | each step keeps `pending_ops` = queued + in flight + refused + forgotten - returned, on every port |
| RmtSafety.RunKeepsAccounted | plugins/edits/rmt.c:797-1048 | so that equation holds in every reachable state |
| RmtSafety.FreedPort | plugins/edits/rmt.c:853-856 | a port freed by any of the four paths leaves queued and in flight exactly returned - refused - forgotten PDUs |
| RmtSafety.FreedEmptyIff | plugins/edits/rmt.c:1346-1362 | a port is freed with nothing queued or in flight if and only if its returns equal its refusals plus resets |
| RmtSafety.CalmRunCounts | plugins/edits/rmt.c:1024-1048 | without EAGAIN, refusals and resets `pending_ops` is what is queued and in flight, and every destroy path frees an empty port |
| RmtRaces.EagainLeavesPdu | plugins/edits/rmt.c:803-829 | with EAGAIN on a direct write, an unbind can free a port with a PDU in its queue |
| RmtRaces.EnableIsOverwritten | plugins/edits/rmt.c:941-962 | a port enabled between the requeue after EAGAIN and the worker's retaking the lock is disabled again by the worker's next three steps |
| RmtRaces.StepKeepsEnabled | plugins/edits/rmt.c:804-962 | an enabled port for which the worker carries no EAGAIN stays bound and enabled, and so without one, through every step that does not unbind or disable it or answer to an EAGAIN on it |
| RmtRaces.EnableLastsIff | plugins/edits/rmt.c:960-962 | an enabled port stays bound and enabled along every run until somebody unbinds or disables it or a write on it says EAGAIN, if and only if the worker does not carry an earlier EAGAIN for it |
| RmtRaces.CallLeadsOn | plugins/edits/rmt.c:1246-1304 | an enable or disable of a port that is not deallocated goes on to its own step, of a deallocated one it returns |
| RmtRaces.EnableEnablesIff | plugins/edits/rmt.c:1257-1263 | an enable of a port that is not deallocated leaves it enabled, and it stays bound and enabled along every undisturbed run exactly when the worker carries no EAGAIN for it |
| RmtRaces.DisableDisables | plugins/edits/rmt.c:1302-1309 | a disable leaves the port disabled |
| RmtRaces.StepKeepsDisabled | plugins/edits/rmt.c:1258-1346 | a step ends that exactly when it enables or unbinds the port |
| RmtRaces.DisableLasts | plugins/edits/rmt.c:1258-1346 | so a disabled port stays bound and disabled along every run until it is enabled or unbound |
| RmtRaces.UnbindLastsIff | plugins/edits/rmt.c:1346-1362 | after an unbind the port is gone, or deallocated with operations pending, and stays so along every run in which nobody disables it and no write on it says EAGAIN, exactly when the worker does not carry an earlier EAGAIN past the port's last operation |
| RmtRaces.UnbindIsForgotten | plugins/edits/rmt.c:803-857 | with EAGAIN on the write under way the port outlives its unbind: at rest it is disabled, with no operation pending and a PDU in its queue |
| RmtRaces.NeverDoomed | plugins/edits/rmt.c:818-826 | under a policy that cannot requeue the worker never carries an EAGAIN, so every enable lasts |
| RmtRaces.EnableIsLost | plugins/edits/rmt.c:960-968 | a run in which nobody asks to disable the port ends at rest with the port disabled and its PDU left behind |
| RmtInstance.Instance.VisitPort | plugins/edits/rmt.c:910-972 | one port of the scan, with other threads acting at every step, ends as a run of the state machine |
| RmtInstance.Instance.Serve | plugins/edits/rmt.c:922-958 | the inner loop of a visit, with other threads acting at every step, ends as a run of the state machine, about to leave the port with the result of the last write, or scanning on when the port was freed |
| RmtInstance.Instance.SendWorker | plugins/edits/rmt.c:862-982 | the tasklet's nested loops end, continue the run of the state machine from its start step, and leave no enabled port with PDUs without a scheduled wake-up |
| RmtInstance.Instance.Known | plugins/edits/rmt.c:854-982 | every state of the heap reached so keeps the wake-up invariant, the accounting equation, and both guards: no poll begun on a disabled port, no deallocated port without pending operations |
| RmtDeltaQ.WorkerStores | plugins/edits/rmt.c:803-823 | what the worker puts back always has a class in DeltaQ |
| RmtDeltaQ.StepAgreesIff | plugins/edits/rmt.c:804-820 | one step keeps `n_sdus` equal to DeltaQ's count on all ports if and only if it is not a sender's return of a PDU whose class DeltaQ does not know |
| RmtDeltaQ.RunAgreesIff | plugins/edits/rmt.c:804-1048 | the counts agree all along a run if and only if no step of it returns such a PDU |
| RmtDeltaQ.CountsAgree | plugins/edits/rmt.c:804-1048 | on such runs, through drops, direct writes, returns and batches, `n_sdus` is DeltaQ's `count`, which is the PDUs in the port's class queues; port numbers are not used again |
| RmtDeltaQRuns.KnownClassesAgree | plugins/edits/rmt.c:984-1048 | the counts agree throughout when DeltaQ knows the class of every PDU sent |
| RmtDeltaQRuns.DriftHappens | plugins/edits/rmt.c:803-820 | a run in which the counts agree up to a possible step after which they differ: the return of a PDU of an unknown class |
| RmtDeltaQRuns.Projects | plugins/edits/rmt.c:925-941 | a run with DeltaQ as the policy is a run of the protocol, so its results apply |
| RmtDeltaQRuns.WritesOnlyWhenEmpty | plugins/edits/rmt.c:1028-1066 | on runs without strays a sender comes to write its PDU itself only when all of DeltaQ's queues of the port are empty: it overtakes nothing |
| RmtDeltaQRuns.StepHappensIff | plugins/deltaq/ps.c:449-451 | a step of the protocol with DeltaQ's answers is a step of the two together if and only if it does not return a PDU to a limited class without a send record |
| RmtDeltaQRuns.NullReadHappens | plugins/deltaq/ps.c:449-451 | such a step is reached: a sender's write says EAGAIN on a limited class that has sent nothing, and no answers of DeltaQ make it possible |
| RmtDeltaQRuns.UnlimitedReadsNoNull | plugins/deltaq/ps.c:449-451 | it never is on a port without limited classes |
| RmtDeltaQFifo.NeverReadsNull | plugins/deltaq/ps.c:449-451 | nor on a port on which no sender's own write says EAGAIN: a PDU the worker puts back finds a send record |
| RmtDeltaQFifo.CallsRun | plugins/edits/rmt.c:804-1048 | the DeltaQ calls of a run of the two are a run of DeltaQ alone with the same end |
| RmtDeltaQFifo.ServiceIsFifo | plugins/edits/rmt.c:804-1048 | with DeltaQ as the policy and no EAGAIN on senders' own writes on the port, every requeue on it is an undo of the worker's last dequeue, and what a class accepted is, in order and with its times, what the worker took for good followed by the queue |
| RmtDeltaQRate.ServiceWithinBurst | plugins/edits/rmt.c:804-1048 | with no EAGAIN on senders' own writes on the port, what the worker takes of a limited class for good stays within `oBurstS` in any closed interval of length `oBurstT`, when the oldest send record is never larger than the PDU put back and limit and PDU fit 32 bits |
| RmtDeltaQRuns.FreedWithDeltaQ | plugins/edits/rmt.c:852-858 | where no returned PDU lacks a class, a freed port leaves in DeltaQ's queues and in flight exactly the PDUs returned beyond those dropped |
| RmtDeltaQRuns.PollServes | plugins/edits/rmt.c:925-935 | on such runs, when DeltaQ limits no class of the port and scales all alike, the worker's poll gets a PDU |

## Left out

- Allocation failure, create and destroy functions and configuration: `plugins/deltaq/ps.c` installs
  policy-set functions as port hooks (lines 550-551), and setting a parameter has no body (lines
  464-508). Ports and classes are given, and a bound port starts with an empty DeltaQ port.
- The drop-probability loop (`plugins/deltaq/ps.c:267-282`): its test never reads the list element, and
  its result feeds a random draw; dropping is an arbitrary input.
- The key buffer of `fwdMap/test.c:47` has 10 bytes; the listing is of a buffer with room for the deepest
  key, or for 256 bytes. Printing is collecting lines. `char` is signed, `avl_release_tree` is not modelled.
- `limiter_rx`, `fwdMap/fwdmap.c` and `fwdMap/fwdmap.h`: commented out.
- `plugins/avlpff/ps.c`: unfinished; no lookup to model.
- The calls of `getSizeTimeNode` without their time argument (`plugins/deltaq/ps.c:400` and 403): the
  time read at line 332 is taken.
- `dequeue_tx` for an unknown port returns -1 as a pointer (`plugins/deltaq/ps.c:327`); the model has an
  outcome of its own for it, and the combined model has only ports DeltaQ knows.
- What happens after `requeue_tx` has read through a null pointer (`plugins/deltaq/ps.c:450`): the call has
  an outcome of its own, and a run has no such step.
- The width of `p->buffer->size` (`plugins/deltaq/ps.c:359`): `struct buffer` is not part of the
  repository, and the size is taken as 32 bits wide. With 64 bits that sum would not wrap.
- 64-bit overflow of times and scaled slacks, and the widths of `int count`, `n_sdus`, `pending_ops`
  and of the loop counters of `mavl_search`: unbounded integers.
- Lists of ports, classes and class parameters as linked lists: fixed sequences, as nothing modelled
  changes them. The two queues and the send log of a class are linked lists.
- A port or class with the same key twice: the first is found, as in the code; the object model numbers
  ports and classes by their place.
- Conservation of send-record nodes: a requeue drops one without giving it to the pool.
- Serialisation, encryption, TTL, receive path, PFF wrappers, queue-monitor and max-queue hooks: a write
  answers success, error or EAGAIN. An error before the write is an error of the write.
- Removing or replacing the policy set while ports are bound: a scheduling policy is installed, which
  may or may not answer null and requeue.
- Threads caught on a port that is freed under them: the code goes on with freed memory; in the model
  the thread or the visit ends.
- The table lock of `send_worker` after a deallocated port (`plugins/edits/rmt.c:906-907`): the code goes
  on without taking it again; the model's scan is as if it did.
- Binding and the policy's port hooks: a bind takes no lock in the code (`plugins/edits/rmt.c:1192`) and is
  one step here; the hooks are not called.
- RmtDeltaQ.CountsAgree: does not cover a port number used again. A reference stands for a port object and
  its number and is never bound twice, so that a new port starts with an empty DeltaQ port.
- User interface, `p2p` programs, manifests and build files.
