# liteco: data structures and scheduler

liteco is a small coroutine runtime in C: an event loop, coroutines, channels with
select, timers, and the intrusive containers they stand on. This project models its
core and proves what that core is for.

* **Red-black tree** (`RbSpec`, `RbLaws`, `RbMemory`, `RbTrees`). Nodes are objects
  with parent, child, thread and colour fields that the methods of
  `RbTrees.RbTree` rewrite in place. A tree value with a zipper (`RbSpec.Tree`,
  `RbSpec.Ctx`) says what the pointers mean, and every method is proved against a
  function on it. No method may write the shared sentinel, which is in no
  `modifies` clause. Keys are integers; colours of new nodes and their links are as
  `liteco_rbt_node_init` leaves them.
* **Resumable Morris iterator** (`Morris`, `RbIterators`). The iterator threads the
  tree through a spare link of each node and suspends in the middle of its loop.
* **Registration pass** (`Registration`). Iteration over one tree while another one
  grows.
* **Heap** (`Powers`, `HeapShape`, `Heaps`). A complete binary tree of linked nodes;
  slots are found by the bits of the count, nodes trade places by swapping links.
* **Timers** (`TimeArithmetic`, `TimerPass`, `Timers`). Start, stop, dispatch pass and
  waiting time of the kqueue event loop on that heap. A heap node is one object with
  the timer that embeds it. What a pass does to each timer is a function of what the
  callbacks do; the loop is proved to compute it, and the laws are about it.
* **Lists and channels** (`LinkedLists`, `ChannelSpec`, `Channels`). The link macros
  on nodes that are linked in place, against sequences; a channel with its ring
  buffer and such lists of waiters against a channel value. The ready queue is such a
  list too.
* **Wake-up protocol** (`Async`, `ReadyQueue`, `Wakeups`). Any number of senders and
  one consumer in any interleaving, each access to shared memory a step of its own;
  then the ready queue of the runtime on top of it, whose first coroutine always gets
  its turn.
* **Coroutines together** (`Scheduler` and its laws). One event-loop thread, any
  number of channels and coroutines, each running any program over push, pop,
  unenforceable push and pop, close, select, yield and finish; the event loop itself
  may push, pop, close and poll a select. The functions on channel values that the
  steps use are those that `Channels.Chan` is proved to implement. `Deliveries` is
  about the order in which channels deliver, `Waiters` and `WaitOrder` about whom a
  step serves and in which order, `Answers` and `Rounds` about what operations and
  rounds of a select return, `Turns` about who runs next.

Four findings about the code, each with its exact condition and a failing input or run:

* Removing a tree node with two children trades it with the leftmost node of its
  own subtree (`src/lc_rbt.c:79`), not with a neighbour in order. Shape, colours and
  the node set survive; the order survives exactly if the left child is a leaf
  (`RbLaws.RemoveKeepsOrderIff`, with the failing input `RbLaws.RemoveMayDisorder`).
* Starting a timer that is active already changes its deadline inside the heap
  (`src/lc_timer.c:37-46`). The heap stays ordered exactly if the new deadline fits
  between those of its neighbours (`Timers.RedatedIff`); `Timers.RestartDisorders`
  starts two timers and one of them again, and ends with a disordered heap.
* A pop serves the newest blocked writer before the ring
  (`src/lc_channel.c:432-443`), so a channel need not deliver in the order in which
  it accepted. Without selects, what was delivered stays the beginning of what was
  accepted exactly if each pop serves the next accepted value
  (`Deliveries.RunDeliversIff`). Where the ring and the blocked writers hold the rest
  in order, a pop fails to exactly if a writer is blocked and the newest one's value
  is not the oldest outstanding (`Deliveries.MissesIff`); when all values are
  different, a whole run is in order exactly if no pop meets a blocked writer with an
  older value outstanding (`Deliveries.OrderOfDistinct`). In the run of
  `Deliveries.OvertakingReachable` 10, 20 and 30 are accepted and 30 is delivered
  first. The refill of the ring at `src/lc_channel.c:448-458` never runs.
* Waking a select whose coroutine is ready already spins for ever in
  `liteco_set_status` (`src/lc_coroutine.c:107-130`), with the channel locked. A
  push, a pop or a round of a select gets there exactly if the first waiter that it
  meets is such a coroutine, a close exactly if such a coroutine still stands in
  either list, and no other operation does (`Spinning.StepSpinsIff`);
  `Spinning.SpinReachable` is a run that leads to such a state. The model marks a
  state after such a step `stuck`, and nothing is claimed of it. Without selects no
  step gets there (`SelectFreeRuns.NeverSpins`).

## Model

| member | source | states |
|---|---|---|
| RbSpec.FixUpInOrder | src/lc_rbt.c:156-198 | the repair loop after insertion leaves the sequence of nodes alone, in all cases and both directions |
| RbSpec.FixUpBalanced | src/lc_rbt.c:156-198 | from a tree whose only fault is a red node under a red parent the loop makes a red-black tree; its measure is the depth, and it looks at no missing grandparent |
| RbSpec.Rm1Order | src/lc_rbt.c:232-321 | the six mutually recursive cases of the deletion repair leave the sequence of nodes alone, whatever the colours |
| RbSpec.Rm1Balanced | src/lc_rbt.c:232-321 | after them the surroundings of the node accept a subtree one black node lower with a red or black root; this covers the repair of a black node with a red child |
| RbLaws.SearchIsMembership | src/lc_rbt.c:58-74 | in an ordered tree the search path ends at a node exactly if some node has the key |
| RbLaws.InsertBalanced | src/lc_rbt.c:33-56 | insertion keeps the tree red-black |
| RbLaws.InsertOrder | src/lc_rbt.c:33-56 | the new node appears at one place in the otherwise unchanged ordered sequence; a taken key changes nothing |
| RbLaws.InsertNodes | src/lc_rbt.c:33-56 | exactly the new node is added |
| RbLaws.RemoveBalanced | src/lc_rbt.c:76-99 | removing any node leaves a red-black tree, whichever partner it trades with |
| RbLaws.RemoveNodes | src/lc_rbt.c:76-99 | removal drops that node and no other |
| RbLaws.RemoveMovesFirst | src/lc_rbt.c:76-99 | with two children, A ++ [f] ++ L ++ [ref] ++ B becomes A ++ L ++ [f] ++ B |
| RbLaws.RemoveOrder | src/lc_rbt.c:76-99 | with a missing child, or the in-order successor as partner, the node just leaves the sequence |
| RbLaws.RemoveKeepsOrderIff | src/lc_rbt.c:76-99 | removal as written keeps an ordered tree ordered exactly if the node lacks a child or its left child is a leaf |
| RbLaws.RemoveMayDisorder | src/lc_rbt.c:76-99 | removing 3 from a tree of 1, 2, 3, 4 leaves 2 before 1 |
| RbLaws.SuccessorKeepsOrder | src/lc_rbt.c:76-99 | with the in-order successor as partner the order always survives |
| RbLaws.TradePositions | src/lc_rbt.c:79-85 | the three copies through the spare node pass these whole trees, also when the partner is the removed node's own child |
| RbLaws.BlackHeightCounts | src/lc_rbt.c:156-198 | a balanced tree of black height h has at least 2^h - 1 nodes and height at most 2h, or 2h + 1 under a red root |
| RbLaws.HeightIsLogarithmic | src/lc_rbt.c:58-74 | the height of a red-black tree is at most twice the logarithm of its size plus one |
| RbMemory.RotationEffect | src/lc_rbt.c:108-154 | what the writes of a rotation, in their order, come to link by link |
| RbMemory.Rotated | src/lc_rbt.c:108-154 | after these writes the pointers describe the rotated tree in the same surroundings |
| RbTrees.RbTree.RotateLeft | src/lc_rbt.c:108-130 | the in-place rotation yields the rotated tree and writes no sentinel |
| RbTrees.RbTree.RotateRight | src/lc_rbt.c:132-154 | likewise, mirrored |
| RbTrees.RbTree.FixStep | src/lc_rbt.c:159-196 | one turn of the repair loop is one step of FixUp |
| RbTrees.RbTree.Fix | src/lc_rbt.c:156-198 | the loop terminates with the tree FixUp of the position |
| RbTrees.RbTree.Insert | src/lc_rbt.c:33-56 | the tree becomes RbLaws.Insert of it; on a conflict nothing is written |
| RbTrees.RbTree.Find | src/lc_rbt.c:58-74 | returns the end of the search path, after at most as many turns as the tree is high |
| RbTrees.RbTree.Min | src/lc_rbt.c:101-106 | returns the first node in order, or the sentinel |
| RbTrees.RbTree.Assign | src/lc_rbt.c:207-226 | puts a copy in the place of a node: the pointers describe the same tree with that node renamed |
| RbTrees.RbTree.Trade | src/lc_rbt.c:79-85 | the three copies through the stack node exchange the removed node and its partner |
| RbTrees.RbTree.Rm1 | src/lc_rbt.c:232-236 | the repair from the node upwards ends in the surroundings Rm1, with termination through case 3 |
| RbTrees.RbTree.Rm2 | src/lc_rbt.c:238-253 | a red sibling is rotated up before the other cases |
| RbTrees.RbTree.Rm3 | src/lc_rbt.c:255-268 | black all round: the sibling turns red and the repair moves to the parent |
| RbTrees.RbTree.Rm4 | src/lc_rbt.c:270-283 | a red parent trades colours with a black sibling that has black children |
| RbTrees.RbTree.Rm5 | src/lc_rbt.c:285-306 | the sibling's inner red child is rotated outwards |
| RbTrees.RbTree.Rm6 | src/lc_rbt.c:308-321 | the parent is rotated over the node |
| RbTrees.RbTree.Replace | src/lc_rbt.c:323-336 | the child takes over the node's slot |
| RbTrees.RbTree.Remove | src/lc_rbt.c:76-99 | the tree becomes RbLaws.Remove at the node's position, which is red-black and lacks exactly that node |
| Morris.ResumeThreaded | src/lc_rbt.c:368-406 | following threads from a subtree's last node leads to its in-order successor |
| Morris.Advanced | src/lc_rbt.c:384-387 | stepping right from a visited node reaches the position from which the rest of the sequence is still to come |
| Morris.Descended | src/lc_rbt.c:391-394 | leaving a thread behind and going left loses nothing of what is to come |
| Morris.ThreadedNil | src/lc_rbt.c:368-412 | a whole tree is threaded as for a traversal with nothing open exactly if all its threads are nil |
| RbIterators.RbIterator.constructor | include/liteco/lc_rbt.h:81 | the whole sequence is to come |
| RbIterators.RbIterator.Predecessor | src/lc_rbt.c:389-390 | the inner loop stops at the last node of the left subtree |
| RbIterators.RbIterator.Turn | src/lc_rbt.c:379-405 | one turn hands out the next node in order or goes down one level |
| RbIterators.RbIterator.Next | src/lc_rbt.c:368-412 | each call hands out the next node in order, writing only threads; after the last one all threads are nil again and the tree is valid |
| RbIterators.Foreach | include/liteco/lc_rbt.h:92-96 | the loop passes the nodes in order, each once, and ends with a valid tree that has no thread |
| Registration.EventLoop.RegisterKey | src/platform/linux/lc_eloop.c:208-226 | registers a key unless it is registered; the issued registrations stay distinct |
| Registration.EventLoop.RegisterAll | src/platform/linux/lc_eloop.c:180-184 | one pass leaves the monitor tree as it was, and the registered keys are the old ones and all monitored ones, each issued at most once over the loop's life |
| HeapShape.SwapEffect | src/lc_heap.c:59-96 | what the struct swap and its repairs come to, link by link |
| HeapShape.SwapJoined | src/lc_heap.c:59-96 | the links then join the level-order sequence with the two nodes exchanged |
| HeapShape.TakeoverJoined | src/lc_heap.c:133-142 | the last node's taking over of the removed node's links puts it in that place |
| HeapShape.RootIsLeast | src/lc_heap.c:23-57 | in an ordered heap no node is earlier than the root |
| HeapShape.StepUp | src/lc_heap.c:52-54 | a step up keeps the only disorder at the moving node |
| HeapShape.StepDown | src/lc_heap.c:144-151 | a step down to the earlier child does too |
| Heaps.OffsetIs | src/lc_heap.c:34-35 | the wrap-around arithmetic gives the offset cnt - 2^(h-1) |
| Heaps.WalkLeads | src/lc_heap.c:37-48 | following the bits of the offset reaches exactly position cnt, through nodes that are there |
| Heaps.Heap.Level | src/lc_heap.c:32-35 | the height loop ends with 2^(h-1) <= cnt < 2^h, within signed shifts |
| Heaps.Heap.Slot | src/lc_heap.c:37-48 | the walk ends at the slot of position cnt in level order |
| Heaps.Heap.Swap | src/lc_heap.c:59-96 | exactly the two nodes trade positions in the level order |
| Heaps.Heap.Insert | src/lc_heap.c:23-57 | the heap stays complete, linked and ordered and gains exactly the node |
| Heaps.Heap.SiftUp | src/lc_heap.c:52-54 | from a heap out of order only towards one node's parent to an ordered one |
| Heaps.Heap.SiftDown | src/lc_heap.c:144-151 | leaves disorder only towards the parent of the node's new place |
| Heaps.Heap.Remove | src/lc_heap.c:98-156 | removes any node of the heap, which stays complete, linked and ordered with exactly the others; an empty heap is left alone |
| Heaps.Heap.RootFirst | src/lc_heap.c:98-156 | there is a root unless the heap is empty, and nothing is earlier |
| Heaps.Heap.Drain | src/lc_heap.c:98-156 | removing the root until the heap is empty hands out all its nodes once, in order of their deadlines |
| TimeArithmetic.PlusIsAddition | src/platform/darwin/internal.h:32-42 | the field-wise sum with carry is normalised and is the sum of microseconds |
| TimeArithmetic.MicrosInverse | src/platform/darwin/internal.h:18-26 | splitting microseconds into fields loses nothing |
| TimeArithmetic.EarlierIsLess | src/platform/darwin/internal.h:44-53 | on normalised times the field-wise comparison is that of microseconds |
| TimeArithmetic.RearmedIsLater | src/platform/darwin/lc_eloop.c:171-176 | a re-armed periodic timer is due after the time of the pass |
| Timers.RestartDisorders | src/lc_timer.c:33-49 | with timers due after 10 and 20 seconds, starting the first again for 30 leaves a complete, linked heap that is not ordered |
| Timers.RedatedIff | src/lc_timer.c:33-49 | changing a deadline in place keeps the heap ordered exactly if it fits between the neighbours |
| Timers.TimerLoop.TimerAdd | src/platform/darwin/lc_eloop.c:144-152 | adds an inactive timer, leaves an active one |
| Timers.TimerLoop.TimerRemove | src/platform/darwin/lc_eloop.c:154-161 | takes an active timer out, leaves an inactive one |
| Timers.TimerLoop.TimerStart | src/lc_timer.c:33-49 | deadline and interval in microseconds; an inactive timer is added, and with an active one the heap is valid exactly if the new deadline fits |
| Timers.TimerLoop.TimerStop | src/lc_timer.c:51-55 | afterwards the timer is inactive and stopped |
| Timers.TimerLoop.Callback | src/platform/darwin/lc_eloop.c:167-169 | the stops and starts of a callback do to every timer what TimerPass.ScriptOn says, and keep the heap valid, if it starts no active timer, nor its own as a periodic one |
| Timers.TimerLoop.Fire | src/platform/darwin/lc_eloop.c:167-177 | the root leaves the heap and such a callback runs; unless the callback starts it, it is back exactly if its interval is a positive number of microseconds and it was not stopped, that much after the clock |
| Timers.TimerLoop.TimerActive | src/platform/darwin/lc_eloop.c:163-182 | with such callbacks the pass terminates with every timer as TimerPass.After says and none active with a deadline before its time; each timer that fired was due, and the earliest, when its turn came |
| TimerPass.FewerDue | src/platform/darwin/lc_eloop.c:163-182 | each turn leaves fewer due timers, whatever the callbacks stop and start, also where a start moves the deadline of an active timer |
| TimerPass.FiredWasDue | src/platform/darwin/lc_eloop.c:163-182 | likewise, a timer that fires was due at the start of the pass with that deadline, which lies before the time of the pass in microseconds, and was not stopped by an earlier callback |
| TimerPass.FiredInOrder | src/platform/darwin/lc_eloop.c:163-182 | likewise, timers fire in nondecreasing order of their deadlines, none twice, when each turn takes the earliest |
| TimerPass.FiresUnlessCalled | src/platform/darwin/lc_eloop.c:163-182 | whatever the callbacks do, a timer due at the start that has not fired when none is due any more was stopped or started by one |
| TimerPass.FiresUnlessStopped | src/platform/darwin/lc_eloop.c:163-182 | if callbacks start no active timer, a timer due at the start has fired exactly unless a callback stopped it before its turn |
| TimerPass.BackIff | src/platform/darwin/lc_eloop.c:171-176 | a fired timer that no later callback starts is back in the end exactly if its interval is a positive number of microseconds and it is not stopped, with a deadline that much after the clock |
| TimerPass.RearmIff | src/platform/darwin/lc_eloop.c:171-176 | an interval counts as periodic exactly if it is positive, also below a second; then and only then, unless stopped, the timer is put back |
| TimerPass.LastCallDecides | src/lc_timer.c:33-55 | of all that a callback does to a timer only the last call matters: stopped and inactive, or active, not stopped, and due timeout (or else interval) after the clock |
| Timers.TimerLoop.TimerWait | src/platform/darwin/lc_eloop.c:184-197 | exactly root deadline minus now, normalised, non-negative unless the root is due; zero without timers |
| Timers.TimerLoop.RunTimers | src/platform/darwin/lc_eloop.c:226-231 | with such callbacks, after a dispatch pass the computed wait is non-negative, normalised and exactly root deadline minus now, or zero without timers |
| LinkedLists.InsertAfter | include/liteco/lc_link.h:32-36 | the node becomes the first of the list |
| LinkedLists.InsertBefore | include/liteco/lc_link.h:38-42 | the node becomes the last of the list |
| LinkedLists.Remove | include/liteco/lc_link.h:44-46 | exactly that node leaves; its own links stay |
| LinkedLists.Foreach | include/liteco/lc_link.h:48-49 | passes the nodes of the list in order and stops |
| LinkedLists.PushPop | include/liteco/lc_link.h:54-64 | pushing then popping a stack gives the node back and restores the list |
| ChannelSpec.WriteHeld | src/lc_channel.c:364-389 | a written value stays in the channel or goes to a reader, and an attempt that is not done changes nothing held |
| ChannelSpec.ReadHeld | src/lc_channel.c:423-462 | what is held before a read is what is held after it and what it returns |
| ChannelSpec.WriteAtEnd | src/lc_channel.c:364-389 | without selects a written value stands last among those outstanding, and readers and writers never wait together |
| ChannelSpec.SleepersInOrder | src/lc_channel.c:117-128 | those whom a close wakes: writers before readers, and each from the front of its list |
| ChannelSpec.WritersWithoutLast | src/lc_channel.c:347-362 | taking back the waiters of a coroutine leaves the others, in their order |
| ChannelSpec.ReadersWithoutLast | src/lc_channel.c:405-421 | likewise for readers |
| ChannelSpec.ReadInOrderIff | src/lc_channel.c:423-462 | a law of the internal order: if ring and blocked writers hold the rest of what was accepted, in order, they do so after a read exactly if no writer is blocked or all values outstanding are equal |
| ChannelSpec.ReadIsNextIff | src/lc_channel.c:423-462 | a read delivers the oldest outstanding value exactly if no writer is blocked or the newest one's value is the same |
| ChannelSpec.ReadOvertakes | src/lc_channel.c:432-443 | with 10 in the ring and 20, 30 blocked behind it a pop delivers 30 |
| Channels.PartPush | src/lc_channel.c:22-24 | storing at the tail and moving it on, around the end, appends to the ring's sequence |
| Channels.PartPop | src/lc_channel.c:15-17 | loading at the head and moving it on takes the first |
| Channels.Chan.IsWBlocked | src/lc_channel.c:472-484 | tells whether the ring is full or absent with no reader waiting, for an open channel |
| Channels.Chan.IsRBlocked | src/lc_channel.c:486-498 | tells whether it is empty or absent with no writer waiting |
| Channels.Chan.W | src/lc_channel.c:364-389 | refines ChannelSpec.Write with every index in range |
| Channels.Chan.R | src/lc_channel.c:423-462 | refines ChannelSpec.Read; the refill of the ring is never reached |
| Channels.Chan.WBlock | src/lc_channel.c:333-345 | a new node linked after the sentinel puts the writer first among those that wait, and nothing else changes |
| Channels.Chan.RBlock | src/lc_channel.c:391-403 | likewise for a reader |
| Channels.Chan.WdBlock | src/lc_channel.c:347-362 | the walk along the list unlinks every writer of one coroutine and keeps the others in order |
| Channels.Chan.RdBlock | src/lc_channel.c:405-421 | likewise for readers |
| Channels.Chan.Close | src/lc_channel.c:109-132 | closes, empties both lists and hands out ChannelSpec.Sleepers, whose order SleepersInOrder tells; a closed channel is left alone |
| Async.RunInv | src/lc_async.c:26-42 | the protocol's invariant holds in every reachable state: one claimant at most per working handler, and whatever is done or signalled has the signal set or is still ahead of the scan |
| Async.HandOverSucceeds | src/lc_async.c:37-39 | in any interleaving the sender's last exchange finds the status it expects |
| Async.CallbacksMatchClaims | src/platform/linux/lc_eloop.c:57-99 | callbacks begun, plus one if the status is not idle, are the successful claims |
| Async.NoLostSend | src/lc_async.c:26-42 | at rest a callback has begun since each send returned |
| Async.SendAnswered | src/lc_async.c:26-42 | for any send that begins in a reachable state: when all is at rest, its handler was taken back, and its callback begun, after that |
| Async.StepsRunOut | src/platform/linux/lc_eloop.c:88-99 | every step but a new send or a spin comes closer to rest |
| Async.NeverStuck | src/platform/linux/lc_eloop.c:88-99 | unless at rest some such step is possible, so the spin always ends |
| Async.ComesToRest | src/lc_async.c:26-42 | from every reachable state the pending sends alone lead to rest |
| ReadyQueue.MergeIs | src/lc_runtime.c:106-118 | the merge keeps what was queued in front and adds exactly the others, nothing twice |
| ReadyQueue.Runtime.Exist | src/lc_runtime.c:36-45 | tells membership in the queue |
| ReadyQueue.Runtime.Join | src/lc_runtime.c:47-69 | appends a coroutine unless it is queued, and sends exactly then |
| ReadyQueue.Runtime.Pop | src/lc_runtime.c:71-85 | takes the first, or reports that there is none |
| ReadyQueue.Runtime.MergePass | src/lc_runtime.c:106-118 | the loop computes Merge |
| Wakeups.NeverStranded | src/lc_runtime.c:36-121 | while a coroutine is queued the handler is claimed or done, its callback runs, or a joiner is about to send, and the loop is not at rest |
| Wakeups.FirstInFirstOut | src/lc_runtime.c:47-121 | over joins, pops and merges on any threads the queue holds nothing twice and hands out in order of entry |
| Wakeups.ReadyAgainQueued | src/lc_runtime.c:87-121 | over a whole pass: after the merge exactly those are queued that were before it and those that came back ready in this pass |
| Wakeups.ReadyAgainInOrder | src/lc_runtime.c:87-121 | they stand in the order in which they came back, if nobody joined them meanwhile |
| Wakeups.JoinedTillRun | src/lc_runtime.c:47-69 | a coroutine that was joined is in the queue until it is taken out to run |
| Wakeups.PassEndsClaimed | src/lc_runtime.c:119-120 | a pass ends with the handler claimed, so the loop is never at rest after it |
| Wakeups.TurnComesCloser | src/lc_runtime.c:71-121 | while a coroutine is queued, every step that neither joins nor begins a send nor spins takes the first one out to run, or keeps it first and lowers a well-founded measure |
| Wakeups.CanMove | src/lc_runtime.c:71-121 | while a coroutine is queued such a step is possible |
| Wakeups.FirstGetsItsTurn | src/lc_runtime.c:71-121 | from every such state steps under way alone lead to the first in the queue being taken out to run, nobody else before it |
| SchedulerSteps.PushInv | src/lc_channel.c:77-100 | a blocking or non-blocking push keeps the invariant of the whole system |
| SchedulerSteps.PopInv | src/lc_channel.c:183-206 | likewise a pop |
| SchedulerSteps.OfferInv | src/lc_channel.c:148-166 | likewise an unenforceable push |
| SchedulerSteps.GrabInv | src/lc_channel.c:168-181 | likewise an unenforceable pop |
| ClosingLaws.CloseInv | src/lc_channel.c:109-132 | likewise closing, with any waiters |
| ClosingLaws.CloseSpinsIff | src/lc_channel.c:117-128 | the wake-ups of a close spin exactly if someone who waits there is ready already |
| ClosingLaws.WakeAllIs | src/lc_channel.c:102-107 | waking a list of coroutines goes through only if they are different and waiting, and makes all of them ready and queued in order |
| SelectLaws.PostIs | src/lc_channel.c:248-258 | posting waiters changes the channel of each case once and no other |
| SelectLaws.ChooseInv | src/lc_channel.c:208-331 | a round of a select keeps the invariant |
| SelectLaws.PollInv | src/lc_channel.c:308-331 | likewise a round that does not wait, made by the event loop itself |
| SelectLaws.ResumeInv | src/lc_coroutine.c:58-96 | resuming the head of the queue finds it ready or starting, and keeps the invariant |
| SelectLaws.EndPassInv | src/lc_runtime.c:106-118 | likewise the merge at the end of a pass, which queues those that yielded in order |
| Turns.StepLine | src/lc_runtime.c:47-121 | resuming takes the first of the queue, a yield goes last, the end of a pass queues those that yielded in order, and who is joined or woken goes behind the queue |
| Turns.TurnsInOrder | src/lc_runtime.c:71-121 | over all runs: whoever is ahead in the queue, or in the pass behind it, is resumed first |
| Turns.YieldIsFair | src/lc_runtime.c:87-104 | over all runs: a coroutine that yields is not resumed before those that were to run when it did |
| Turns.FinishesForGood | src/lc_coroutine.c:51-63 | over all runs: a coroutine that has finished is never resumed or changed again |
| Turns.ClosesInOrder | src/lc_channel.c:109-132 | a close that goes through queues all that wait there, writers before readers, each from the front of its list, behind everyone else |
| Runs.RunInv | src/lc_channel.c:77-462 | every run of all operations in any order keeps the invariant |
| Runs.NothingLost | src/lc_channel.c:77-206 | in every run an open channel's accepted values are the delivered ones, the ring and the blocked writers' ones, select offers aside; the ring never exceeds its size |
| Runs.DoneExactlyOnce | src/lc_channel.c:77-331 | in every run an operation that returned has accepted or delivered exactly what it reports, once; a select under way nothing |
| Runs.NoWaiterLeft | src/lc_channel.c:264-279 | a running coroutine has no waiter on any channel |
| Runs.OnePlace | src/lc_coroutine.c:51-130 | in every run each coroutine is in exactly one place: running, once in the ready queue, once in the pass, or waiting with its waiters posted, one if in a push or pop |
| Waiters.OnlyWokenChange | src/lc_channel.c:102-107 | a step changes no coroutine but the running or the resumed one and those that it wakes; these waited, and are off the list that led to them |
| WaitOrder.StepLists | src/lc_channel.c:333-462 | every step leaves each list of waiters as it is, takes the first off, puts the running coroutine or a value left behind in front, empties it by closing, or takes back the resumed coroutine's; the others keep their order |
| WaitOrder.NewestFirst | src/lc_channel.c:333-462 | over all runs: who waits already when another comes to wait on the same side of a channel, in a push, a pop or a select, stays listed behind it as long as that one waits, unless resumed from another wait |
| WaitOrder.ServedOnce | src/lc_channel.c:364-462 | over all runs: a coroutine that is woken is off the list that led to it until it has been resumed, so no second attempt meets it there |
| Answers.FirstReceives | src/lc_channel.c:371-381 | a push delivers to the first reader in the list, if that is in a pop; it is ready and queued last, and nobody else changes |
| Answers.ParkedReceives | src/lc_channel.c:391-403 | a coroutine that has just begun to wait in a pop is the one that the next value goes to |
| Answers.FirstGives | src/lc_channel.c:432-443 | a pop takes the value of the first writer in the list, if that is no select, and wakes its coroutine if it has one |
| Answers.SelectOnlyWoken | src/lc_channel.c:371-381 | a push or a pop that meets a select first wakes it, takes its waiter off and moves no value to or from it |
| Answers.PushReturns | src/lc_channel.c:77-100 | exactly when a push is refused, done, not done, or waits first in the list of writers |
| Answers.PopReturns | src/lc_channel.c:183-206 | exactly when a pop returns NULL, a value and which, or fails, or waits first in the list of readers |
| Answers.OfferReturns | src/lc_channel.c:148-166 | an unenforceable push is refused exactly on a closed channel; a value without a place stands first among the writers |
| Answers.GrabReturns | src/lc_channel.c:168-181 | an unenforceable pop fails exactly on a closed channel or without a value |
| Answers.ResumedReturns | src/lc_coroutine.c:58-96 | a resumed push is done, a resumed pop has what was stored for it, or NULL and then its channel is closed; a select goes on choosing |
| Runs.WriteSpinsIff | src/lc_coroutine.c:107-130 | a write's wake-up spins exactly if it meets a select that is ready already |
| Runs.ReadSpinsIff | src/lc_coroutine.c:107-130 | likewise a read's |
| Spinning.StepSpinsIff | src/lc_coroutine.c:107-130 | in every reachable state each kind of step spins exactly if it wakes a coroutine that is parked in a select and ready already |
| Spinning.SpinReachable | src/lc_coroutine.c:107-130 | a run of seven steps reaches a state in which closing a channel, or pushing to it, spins |
| Runs.CloseWakesAll | src/lc_channel.c:109-132 | a close that goes through made every coroutine that waited there ready and queued it, and left no waiter |
| Runs.ClosedForGood | src/lc_channel.c:109-132 | from then on, in every run, the channel gains no waiter, takes no value and gives none |
| SelectRuns.OnlyWakingRemoves | src/lc_channel.c:347-462 | other coroutines' steps remove a coroutine's waiters only by waking it from its wait, and leave its operation the same one |
| SelectRuns.SelectRound | src/lc_channel.c:208-331 | until it returns a select has done nothing since it began; the returning round does exactly the returned case, which need not wait, and leaves no waiter |
| Rounds.SelectBegins | src/lc_channel.c:308-310 | a select begins with the cases and the flag it is given, and with nothing else changed |
| Rounds.NothingAvailable | src/lc_channel.c:241-263 | when every case must wait, a select that does not block returns nothing and changes nothing else; one that blocks waits, with a waiter first in the list of every case and no other channel changed |
| Rounds.RoundIs | src/lc_channel.c:212-240 | otherwise a round does what a push or a pop of the first case that need not wait does, and returns that case exactly if this goes through |
| Rounds.PollIs | src/lc_channel.c:308-331 | a round by the event loop is that push or pop, or nothing |
| SelectRuns.ResumedSelect | src/lc_channel.c:264-300 | a resumed select takes back all its waiters and chooses again, with nothing done meanwhile |
| SelectFreeRuns.NeverSpins | src/lc_coroutine.c:107-130 | in runs without selects every change of status, to ready, running, waiting or terminated, finds the status it expects |
| SelectFreeRuns.NeverBothBlocked | src/lc_channel.c:333-498 | in such runs readers and writers never wait together; a blocked writer means a full or absent ring, a blocked reader an empty or absent one |
| SelectFreeRuns.InOrderIff | src/lc_channel.c:423-462 | a law of the internal order: in such runs an open channel that holds the rest of what it accepted, in order, does so after a step exactly if no pop takes from a blocked writer with values outstanding that are not all equal |
| Deliveries.StepDelivers | src/lc_channel.c:77-206 | in runs without selects a step keeps what was delivered the beginning of what was accepted exactly if it is no pop that serves another value than the next; lost order stays lost |
| Deliveries.RunDeliversIff | src/lc_channel.c:77-206 | over a whole such run a channel delivers in order of acceptance exactly if every pop serves the next value |
| Deliveries.MissesIff | src/lc_channel.c:423-462 | in a reachable state whose ring and blocked writers hold the rest in order, a step breaks the order of delivery exactly if it is a pop and the newest blocked writer's value is not the oldest outstanding |
| Deliveries.OrderOfDistinct | src/lc_channel.c:423-462 | when all accepted values are different, a whole run delivers in order of acceptance exactly if no pop meets a blocked writer with an older value outstanding |
| Deliveries.OvertakingReachable | src/lc_channel.c:148-181 | three unenforceable pushes of 10, 20, 30 and one pop on a channel with a ring of one lead from the start to a state in which 30 is delivered first |

## Left out

- Liveness of select: two selects facing each other, a select that pushes to a closed channel, and a second wake of one selector need not end; only safety is claimed.
- Runs.RunInv: claims nothing of a state in which a wake-up spins for ever; Spinning.StepSpinsIff says exactly which steps lead there.
- Runs.CloseWakesAll: speaks of a close that goes through; ClosingLaws.CloseSpinsIff says exactly which do not.
- Coroutines as running code: switching stacks is modelled as control passing between steps of a state machine on values, so aliasing of stack variables (the address a blocked reader stores to) is not captured; what a reader receives is.
- One coroutine resuming another directly, several runtimes, and joining a coroutine again after it has started: only the runtime's pass resumes, and joins from outside are of coroutines that never ran.
- Select cases that name one channel twice: the source would lock a mutex twice.
- Races of several runtime threads on one channel: channel operations are single steps on one event-loop thread; only the wake-up protocol and the ready queue are interleaved.
- Finish callbacks of a coroutine (src/lc_coroutine.c:83-91): a stack that is popped until empty; LinkedLists has the stack.
- Registration.EventLoop.RegisterAll: descriptors are keys of abstract nodes; what the poller does with a registration is not modelled.
- Iteration abandoned before its end, or changes of the tree during it: the source does not support either.
- Key comparison callbacks and the width of the key read (src/lc_rbt.c:353-366): keys are unbounded integers under their usual order.
- Heaps.Heap.Insert: requires fewer than 2^30 nodes, above which the source's signed shifts overflow.
- Timers.TimerLoop.TimerActive: callbacks start no timer that is active, nor their own as a periodic one (TimerPass.Heedful), since the source then changes a deadline inside the heap; what that does to the heap is Timers.RedatedIff, what it does to each timer is in TimerPass.ActOn. Seconds do not overflow, there are fewer than 2^30 timers, and the clock never shows a time before that of the pass.
- Timers.TimerLoop.Callback: the same limit on what a callback starts.
- Timers.TimerLoop.Fire: the same holds for it.
- Timers.TimerLoop.RunTimers: the same holds for it.
- TimerPass.FiredWasDue: supposes turns that take the earliest due timer, as a valid heap does.
- Order of delivery over runs with selects: module Answers says which waiter each value goes to and comes from, but whole runs are compared with the order of acceptance only without selects; conservation holds for all.
- Timer dispatch on Linux (src/platform/linux/lc_eloop.c:112-175): its heap is never initialised and its add and remove re-enter dispatch.
- Failure of allocation, and the release of nodes, waiters and arrays.
- Sockets, pipes, streams, the poller and the assembly routines: the signal is a flag, an exchange is one step, the clock is an input.
