# Light-weight threads: a model and its proofs

The library multiplexes light-weight threads over one kernel thread, lets them
exchange words over channels and wait for groups of channels, allocates its
structures with the Kernighan-Ritchie allocator, and guards the kernel-thread
scheduler with a one-word lock. This project models four parts of it.

* **Intrusive rings** (`lwt_list.h`). `Rings.dfy` has mutable nodes with `n` and
  `p` links; every operation is stated as an edit of the sequence of nodes a ring
  stands for, and moving a node within a family of disjoint lists as the very
  function (`Queues.dfy`) that the thread machine uses. `list_head_add` appends;
  `list_head_append` inserts in front of the last element.
* **The allocator** (`umalloc.c`). `Umalloc.dfy` has the header fields `ptr` and
  `size` as maps from addresses (counted in 8-byte headers), the rover `freep`, the
  in-place code of `ufree`, `morecore` and `umalloc`, and a ghost list of free
  blocks, set of live blocks and list of chunks. `FreeList.dfy` says what the list
  means: a coalesced list is determined by the set of units it covers.
* **Threads, channels and groups** (`lwt.c`, `lwt_chl.c`). `Lwt.dfy` is a machine:
  the current thread makes any permitted call; a call goes on until it returns or
  switches; a thread that blocked in a call finishes it (`Continue`) when it is
  dispatched again. A `Run` is any sequence of calls from `Start`, with a log of
  what was sent, returned, joined and so on. `LwtShape.dfy` and `LwtCalls.dfy` have
  the invariant; `LwtFifo.dfy`, `LwtJoin.dfy`, `LwtGroups.dfy`, `LwtCounters.dfy`,
  `LwtSlots.dfy`, `LwtRoundRobin.dfy`, `LwtHandles.dfy` and `LwtRecycle.dfy` the laws
  over all runs; `LwtFrames.dfy` what a call leaves alone; `LwtExamples.dfy` three
  surprising runs. `LwtKthd.dfy` is the same library as a class whose methods update
  its fields in place the way the C functions do; each method is held to the machine,
  and `Step` as a whole is; `LwtAnswers.dfy` says what callers get.
  `LwtLibrary.dfy` keeps the history of the calls made on that object, which is a
  run, so that the laws over runs hold of the object.
* **The critical-section lock** (`sl.h`, `sl.c`). `CsLock.dfy` has one atomic action
  at a time (read the word, compare-and-swap, switch) for any number of threads,
  interleaved arbitrarily, as a function and as a class with a `Cas` method.

What the code does that its comments do not say, each with an exact condition and,
where a run is needed to see it, a run:

* `lwt_cgrp_wait` blocks without touching `now_rcving`, so a thread that once
  blocked in `lwt_rcv` on a channel and now waits for a group is still taken for a
  receiver of that channel: the next message sent there is lost
  (`LwtFifo.StraysWhen`, `LwtExamples.LostMessage`). First-in first-out holds exactly
  as long as nobody has made such a send (`LwtFifo.Fifo`).
* Adding a ready channel to a group whose owner is blocked in `lwt_cgrp_wait` wakes
  nobody (`LwtGroups.StepMisses`, `LwtExamples.LostWakeup`).
* Two sends to a group before its woken owner has run count the owner out twice
  (`LwtCounters.RewakesWhen`, `LwtExamples.CountedTwice`).
* A yield to a named thread (`lwt.c:218`: "yield to a specific thread") dispatches it
  only if exactly two threads are queued; with more, a caller at the head of the run
  queue just goes on running (`LwtRoundRobin.DirectedYield`).
* For requests of more than 2^32 - 8 bytes the unit count wraps and the payload is
  too small (`Allocator.PayloadFits`); a chunk is larger than its pages exactly when
  its byte count wraps or the page source dries up half-way
  (`Allocator.ChunkInsidePages`, `Allocator.Heap.Morecore`).

## Model

| member | source | states |
|---|---|---|
| Rings.ListNode.constructor | lwt_list.h:25-30 | An initialised node is a ring of its own. |
| Rings.LlAdd | lwt_list.h:15-22 | In any ring, n and p stay mutually inverse and the new node sits directly in front of the link, everything else in place. |
| Rings.LlRem | lwt_list.h:40-46 | The node leaves its own ring, which closes behind it, and becomes a self-loop. |
| Rings.HeadAdd | lwt_list.h:80 | The object becomes the last of the list, not the first. |
| Rings.HeadAppend | lwt_list.h:81 | The object becomes last but one, or the only one of an empty list. |
| Rings.ListRemUnlisted | lwt_list.h:40-46 | Removing a self-loop leaves a self-loop, on which resuming a blocked receiver (lwt_chl.c:105) relies. |
| Rings.Remove | lwt_list.h:79 | Over any family of disjoint lists, a node leaves whichever list it is in; every other list is untouched. |
| Rings.MoveNodeToEnd | lwt_chl.c:84-91 | list_rem then list_head_add on real nodes is, over any family of disjoint lists, the edit the machine makes on sequences. |
| Rings.MoveNodeBeforeLast | lwt_chl.c:105-109 | The same for list_rem then list_head_append, the node being in a list or in none. |
| Rings.GetQueueSize | lwt_chl.c:511-521 | The walk ends and returns the number of objects in the list. |
| Rings.Rotate | lwt_list.h:15-22 | A ring may be read from any of its nodes. |
| Queues.BeforeLastInserts | lwt_list.h:81 | list_head_append is an insertion of one element. |
| Queues.InsertedMembers | lwt_list.h:15-22 | An insertion adds exactly one member and keeps members distinct. |
| Queues.WithoutMembers | lwt_list.h:40-46 | A removal takes exactly one member out and keeps the others distinct. |
| FreeList.Unique | umalloc.c:27-40 | Two coalesced free lists that cover the same units are the same list of (address, size) blocks. |
| FreeList.RoundTrip | umalloc.c:83-93 | Freeing what was just allocated restores the free list, whether the block fitted exactly or was split off. |
| FreeList.FreeRunCovers | umalloc.c:21-41 | A run of frees adds exactly the units of the blocks freed. |
| FreeList.OrderIndependent | umalloc.c:27-40 | Freeing the same blocks in any order leaves the same free list. |
| FreeList.GapExists | umalloc.c:27-29 | An address outside the list falls into one gap of it. |
| FreeList.CoalesceFrees | umalloc.c:30-40 | Linking a block into its gap and joining the neighbours it touches gives a coalesced list with exactly the block's units added, base still in it. |
| FreeList.CutOffTakes | umalloc.c:84-91 | Cutting units off a block's end, or taking it whole, removes exactly those units and keeps the list coalesced, base still in it. |
| FreeList.UnitsTotal | umalloc.c:8-14 | The sizes of a coalesced list add up to the number of units it covers. |
| Allocator.PayloadFits | umalloc.c:78 | The block's payload has at least nbytes bytes if and only if the 32-bit rounding does not wrap. |
| Allocator.NUnitsLeast | umalloc.c:78 | For sizes that do not wrap, the units asked for are the least number whose payload is large enough. |
| Allocator.BytesFit | umalloc.c:55-57 | The refill's byte count wraps only for requests of 2^32 - 15 to 2^32 - 8 bytes. |
| Allocator.ChunkInsidePages | umalloc.c:53-62 | A chunk ends strictly before its last page does if and only if its byte count does not wrap and every page was obtained. |
| Allocator.StopsAtGap | umalloc.c:27-29 | The two loop tests are met at exactly one node of the ring: the one in front of the block's gap, the wrap gap and the one-node ring included. |
| Allocator.LiveReturnable | umalloc.c:26 | A block handed out shares no unit with the free list and reaches neither base nor the unit before it. |
| Allocator.JoinRightLinked | umalloc.c:30-32 | Joining the block behind keeps every header linked but the one still to be rewritten. |
| Allocator.InsertLinked | umalloc.c:34 | The same when nothing is joined. |
| Allocator.FoldLeftLinked | umalloc.c:35-37 | Joining into the block in front closes the ring. |
| Allocator.CloseLink | umalloc.c:39 | So does linking the block in front to it. |
| Allocator.UnlinkLinked | umalloc.c:85-86 | Taking a whole block out closes the ring behind it. |
| Allocator.SplitLinked | umalloc.c:88-90 | Splitting keeps the ring; the tail has a header of its own. |
| Allocator.ChunkFits | umalloc.c:95-98 | Wherever a chunk of n units was inserted or merged, some block of the list then has n units. |
| Allocator.InOneChunk | umalloc.c:43-70 | A block whose units all come from chunks lies in one of them. |
| Allocator.Heap.constructor | umalloc.c:18-19 | The heap starts without a list. |
| Allocator.Heap.FindGap | umalloc.c:27-29 | From any rover the walk ends, within one revolution, in front of the block's gap. |
| Allocator.Heap.LinkIn | umalloc.c:30-40 | The fields rewritten make the coalesced list of the block in its gap, with freep in front of it; no other header changes. |
| Allocator.Heap.Ufree | umalloc.c:21-41 | The heap invariant holds again, the block's units are free, the list is coalesced, exactly that block is no longer live, and freep is at the block that was in front of its gap. |
| Allocator.Heap.TakePages | umalloc.c:53-62 | The chunk's pages are used up, consecutive, or as many of them as there are; -1 comes back exactly when there were none. |
| Allocator.Heap.Morecore | umalloc.c:43-70 | The chunk overruns its pages exactly if its byte count wraps or the pages ran out half-way; without pages NULL comes back and nothing has changed; otherwise one chunk of exactly nu units has been freed into the list, freep is in front of where it went, and exactly its pages are used up. |
| Allocator.Heap.EnsureBase | umalloc.c:79-82 | The first call makes base a ring of one empty block. |
| Allocator.Heap.ScanMoves | umalloc.c:83-98 | The search passes only blocks that are too small and is back at freep only if none fits. |
| Allocator.Heap.Carve | umalloc.c:84-93 | The tail of the block found, and nothing else, goes from free to live; freep is the node in front. |
| Allocator.Heap.Umalloc | umalloc.c:72-99 | For every size and page supply it ends and keeps the heap invariant; it refills at most once, exactly when no block fits and pages are left; it returns 0 exactly when none fits and there are no pages, or the chunk would overrun them; otherwise the tail of the first block behind freep that fits (after a refill, behind the block in front of where the chunk went) goes from free to live and nothing else changes. |
| Allocator.AllocateAndFree | umalloc.c:21-99 | Freeing at once what umalloc returned leaves the free list as before, or, after a refill, as the list before with the chunk freed into it. |
| Allocator.FreeEitherWay | umalloc.c:21-41 | Two live blocks freed in either order leave two equal heaps with equal free lists. |
| Allocator.LiveUnitsTotal | umalloc.c:21-99 | Sizes of live blocks add up to the units they hold. |
| Allocator.Conservation | umalloc.c:43-70 | Free units plus live units are the units of all chunks, in every state that meets the invariant. |
| Allocator.AllReturned | umalloc.c:27-40 | When nothing is live the free list is the coalesced list of the whole chunks. |
| Allocator.InsideOneChunk | umalloc.c:43-70 | No block, free or live, spans two chunks. |
| CsLock.StepKeepsInv | sl.h:104-149 | Every atomic action by every thread keeps the lock invariant. |
| CsLock.RunInv | sl.h:104-149 | It holds in every state of every interleaving. |
| CsLock.MutualExclusion | sl.h:104-149 | At most one thread is between a completed enter and its releasing CAS, the owner field names exactly it, and a contention bit implies an owner. |
| CsLock.NotRecursive | sl.c:30-31 | The assertion against recursive locking never fails. |
| CsLock.SwitchMarks | sl.c:32-37 | A contender turns to the owner only with the word marked and the owner unchanged. |
| CsLock.WordChanges | sl.h:122-148 | The word changes only by an enter, by another thread's mark, or by the owner's release, which goes to the scheduler thread exactly if the bit was set. |
| CsLock.ContentionIsHonoured | sl.c:42-53 | Once set, at whatever point, the bit is cleared only by the owner's release, and that release switches to the scheduler thread. |
| CsLock.ContenderIsHeard | sl.c:32-53 | In every interleaving, once a contender has turned to the owner the word's next change is that owner's release, and it switches to the scheduler thread. |
| CsLock.EntersOnlyWithIt | sl.h:105-126 | In every interleaving sl_cs_enter returns only to a thread that then has the section. |
| CsLock.ExitsOnlyWithoutIt | sl.h:133-149 | In every interleaving sl_cs_exit returns only once the word has been cleared. |
| CsLock.EntersAlone | sl.h:105-126 | Undisturbed, a thread that asks for a free section holds it after three actions, and after leaving it everything is as before. |
| CsLock.ExitsAlone | sl.h:133-149 | Undisturbed, a holder has released it after three, by way of the scheduler thread if and only if the bit was set. |
| CsLock.ContendsAlone | sl.c:25-39 | Undisturbed, a contender is back to ask again, the word being marked. |
| CsLock.FailureMeansProgress | sl.h:112-123 | A CAS fails only because another thread has changed the word meanwhile. |
| CsLock.CriticalSection.Cas | sl.h:148 | ps_cas: writes if and only if the word is as expected. |
| CsLock.CriticalSection.IsOwner | sl.h:95-97 | sl_cs_owner is true exactly for the thread that holds the section. |
| CsLock.CriticalSection.Next | sl.h:104-149 | The in-place action is the action of the interleaving model. |
| LwtShape.ResumeShape | lwt_chl.c:100-110 | Resuming any thread keeps every node in the one ring its state calls for. |
| LwtShape.BlockShape | lwt_chl.c:82-98 | So does blocking the current one. |
| LwtShape.ScheduleShape | lwt.c:72-100 | So does dispatching the first of the run queue. |
| LwtCalls.SndGood | lwt_chl.c:113-157 | lwt_snd keeps placement and channel shape in all its branches. |
| LwtCalls.RcvGood | lwt_chl.c:216-262 | lwt_rcv does. |
| LwtCalls.YieldGood | lwt.c:219-249 | lwt_yield does. |
| LwtCalls.CreateGood | lwt.c:127-168 | lwt_create does, with a fresh or a recycled structure. |
| LwtCalls.DieGood | lwt.c:171-206 | lwt_die does. |
| LwtCalls.JoinGood | lwt.c:252-273 | lwt_join does. |
| LwtCalls.GroupAddGood | lwt_chl.c:349-359 | lwt_cgrp_add does, and members are exactly the channels that name the group. |
| LwtCalls.GroupRemGood | lwt_chl.c:362-375 | lwt_cgrp_rem does. |
| LwtCalls.WaitGood | lwt_chl.c:401-433 | lwt_cgrp_wait does, and a group is marked blocked while its owner waits. |
| LwtCalls.ExecInv | lwt.c:72-273 | Every call, with its switch, keeps the whole invariant. |
| LwtCalls.StartInv | lwt.c:103-111 | The initial state meets it. |
| LwtCalls.RunInv | lwt_chl.c:82-262 | It holds in every state of every run. |
| LwtCalls.ThreadPlacement | lwt_chl.c:82-110 | In every state of every run each thread's node is in the run queue iff runnable or running, in the recycle queue iff a zombie, in exactly one sender queue iff blocked sending, in no ring iff blocked receiving; the current thread is queued and running. |
| LwtCalls.ChannelShape | lwt_chl.c:127-154 | In every state of every run 0 <= tail-head <= size; senders queue only at a full ring, and at an empty one only if size is 0; ready iff there is something to receive; a blocked receiver's channel is empty. |
| LwtCalls.SndRefuses | lwt_chl.c:121-125 | lwt_snd fails without any effect if and only if the channel has no receiver. |
| LwtCalls.FreedForGood | lwt_chl.c:62-79 | A channel that lwt_chan_deref has freed has no receiver, never gets one in any later state of the run, and refuses every later send. |
| LwtFifo.SlotsDiffer | lwt_chl.c:146 | Two indices less than size apart never share a slot. |
| LwtFifo.PutBuffered | lwt_chl.c:143-148 | Writing at tail leaves every unread slot alone. |
| LwtFifo.MessageFree | lwt_chl.c:130 | Overwriting message_data of a thread that is neither a queued sender nor a resumed receiver loses nothing. |
| LwtFifo.SndFlow | lwt_chl.c:113-157 | lwt_snd conserves every channel's messages in order, unless the message strays. |
| LwtFifo.RcvFlow | lwt_chl.c:216-262 | lwt_rcv does, from the ring, from a sender refilling the ring, or directly. |
| LwtFifo.StepFlow | lwt_chl.c:113-262 | So does every call with its switch, for every channel. |
| LwtFifo.RunFlow | lwt_chl.c:113-262 | In every state of every run the numbers sent, returned, in flight and strayed balance. |
| LwtFifo.Fifo | lwt_chl.c:113-262 | In every state of every run, what was accepted equals what was returned followed by what is in flight (handed over, then buffered, then held by queued senders), if and only if no earlier call sent on the channel while its receiver passed the test of line 127 and owned a group marked blocked. |
| LwtFifo.RunStrays | lwt_chl.c:127-136 | Over every run, no message of the channel has strayed if and only if no such send was made. |
| LwtFifo.StaleFields | lwt_chl.c:424-431 | The receiver is blocked in lwt_cgrp_wait with a stale now_rcving if and only if the fields show it: it passes the test of line 127 and owns a group marked blocked. |
| LwtFifo.StraysWhen | lwt_chl.c:127-136 | One call loses its message exactly when it is such a send. |
| LwtSlots.SlotProtected | lwt_chl.c:130-152 | No call by any thread overwrites a message a blocked sender or a resumed receiver holds. |
| LwtSlots.SlotKept | lwt_chl.c:236-261 | Over any stretch of a run the value stays until consumed. |
| LwtFrames.BodyThreads | lwt.c:171-273 | A call changes the place of no thread but the current one. |
| LwtJoin.DieTells | lwt.c:171-184 | lwt_die puts its word into the thread's own channel once. |
| LwtJoin.StepHandshake | lwt.c:171-273 | Every call keeps the two sides of the handshake in step. |
| LwtJoin.JoinHandshake | lwt.c:171-273 | In every state of every run, for each thread's own channel: at most one last word, which is in flight or has been returned by the one join; the thread enters the recycle queue once, after dying, exactly when that life is over. |
| LwtJoin.JoinReturnsLastWord | lwt.c:252-273 | A completed join returns exactly the value its child passed to lwt_die, whoever came first. |
| LwtJoin.JoinRefusedWhen | lwt.c:255-259 | A join is refused exactly to a thread that is not the parent or of a thread created with LWT_NOJOIN, and then changes nothing. |
| LwtJoin.JoinCompletesWhen | lwt.c:261-272 | A join that is not refused completes at once if and only if the child's channel has something to receive. |
| LwtJoin.JoinOfTheDead | lwt.c:252-273 | In every run, once a child has died with v and nobody has joined it, its parent's join is not refused, does not block, and returns v. |
| LwtGroups.RcvReady | lwt_chl.c:216-262 | lwt_rcv blocks if and only if the channel is not ready. |
| LwtGroups.SndWakes | lwt_chl.c:138-142 | A send that makes a channel ready leaves its group's owner awake. |
| LwtGroups.SleepFields | lwt_chl.c:424-431 | An owner is blocked in lwt_cgrp_wait if and only if the group is marked blocked and the owner's state is. |
| LwtGroups.StepMisses | lwt_chl.c:349-359 | One call makes an owner sleep through an event if and only if it adds a ready channel to a sleeping owner's group. |
| LwtGroups.NoLostWakeup | lwt_chl.c:138-142 | Over every run, no wakeup is lost if and only if no such addition was made. |
| LwtGroups.OwnerAddsMissNothing | lwt_chl.c:401-433 | If owners add channels themselves, an owner blocked in lwt_cgrp_wait never has a ready member. |
| LwtGroups.AddKeepsOrder | lwt_chl.c:355 | A channel added stands in front of the last member, the others keep their order. |
| LwtGroups.RemoveKeepsOrder | lwt_chl.c:372 | Taking a member out leaves the others in their order. |
| LwtGroups.OwnerKept | lwt_chl.c:342 | In every run, who made a group owns it. |
| LwtGroups.MembersInOrder | lwt_chl.c:349-359 | In every run, channels c1, .., cn added to a new group, none removed, are listed as c2, .., cn, c1. |
| LwtGroups.WaitReturnsReady | lwt_chl.c:414-422 | lwt_cgrp_wait returns a member that has something to receive. |
| LwtGroups.WaitReturnsFirst | lwt_chl.c:414-422 | It is the first ready member in list order. |
| LwtGroups.WaitInOrder | lwt_chl.c:401-433 | In every run, of channels c1, .., cn added to a new group lwt_cgrp_wait returns the first ready one of c2, .., cn, c1. |
| LwtGroups.RcvAfterWait | lwt_chl.c:401-433 | Whatever happens in between, the first lwt_rcv on a channel returned by lwt_cgrp_wait does not block. |
| LwtCounters.CounterIdentity | lwt_chl.c:82-110 | In every state of every run block_counter is the sum of the other two, nsnding counts blocked senders, zombie_counter the threads inside lwt_die's send, and nrcving the blocked receivers if and only if no earlier call signalled a group still marked blocked whose owner was not. |
| LwtCounters.RunRewakes | lwt_chl.c:139-142 | Over every run, no owner was resumed a second time if and only if no such send was made. |
| LwtCounters.RewakesWhen | lwt_chl.c:139-142 | An owner is resumed twice exactly by a send to a group still marked blocked whose owner is not. |
| LwtRoundRobin.RoundRobin | lwt.c:236-246 | Under lwt_yield(NULL) and lwt_create the thread at run-queue index y is dispatched by exactly the y-th yield, for every queue length. |
| LwtRoundRobin.NoOvertaking | lwt_chl.c:100-110 | Under any calls without a directed yield or a second wake, every queued thread but the last is dispatched by exactly the y-th switch: threads resumed meanwhile come in behind it. |
| LwtRoundRobin.YieldSwitchesWhen | lwt.c:224-228 | lwt_yield switches unless it is to the caller or to a thread that is not queued, and then does nothing. |
| LwtRoundRobin.YieldTo | lwt.c:229-234 | A directed yield leaves its target last but one and the others in their order. |
| LwtRoundRobin.DirectedYield | lwt.c:229-234 | A yield to another queued thread dispatches it if and only if just the two are queued; with more, a caller at the head is dispatched again. |
| LwtRoundRobin.JoinYields | lwt.c:261-262 | A join of a child blocked in lwt_die leaves the child last but one in the run queue; it runs next if and only if the parent alone was queued. |
| LwtRoundRobin.JoinReturnYields | lwt.c:261-262 | A join that had blocked ends by yielding to the child if it is queued, and by returning if not. |
| LwtRoundRobin.WokenBeforeLast | lwt_chl.c:100-110 | Whoever a send, a receive or a death wakes is queued in front of the last thread, everyone else in order. |
| LwtRoundRobin.WokenRunsBeforeLast | lwt_chl.c:100-110 | In every run, a thread woken with n queued runs from the (n-1)-th lwt_yield(NULL) on: before the last of them and after the others. |
| LwtHandles.NewChannel | lwt_chl.c:23-34 | A new channel has the slots asked for, its maker as receiver and no counted sender. |
| LwtHandles.Capacity | lwt_chl.c:25-27 | In every run, a channel made with lwt_chan(n) has n slots for ever. |
| LwtHandles.SendBlocksWhen | lwt_chl.c:143-154 | A send blocks exactly if there is a receiver, it does not wait for the channel, and the unread messages fill the slots. |
| LwtHandles.SendBlocksWhenFull | lwt_chl.c:143-154 | In every run, a send on a channel made with lwt_chan(n) whose receiver does not wait blocks if and only if n messages are unread. |
| LwtHandles.ReferenceCount | lwt_chl.c:37-79 | In every state of every run a channel's receiver is its maker until the maker lets go, its count is sharers less senders that let go, and it has been freed exactly if the last reference of all has gone. |
| LwtHandles.Lineage | lwt.c:127-168 | In every run, for as long as a thread's life lasts its parent is who made it and it is joinable or not as asked for. |
| LwtHandles.JoinMayBe | lwt.c:255-259 | In every run, a join is refused exactly to those who did not make the thread, and to its maker too if it was made with LWT_NOJOIN. |
| LwtRecycle.CreateReuses | lwt.c:131-145 | lwt_create takes the first recycled structure, and a new one only if there is none; the thread is queued last. |
| LwtRecycle.BodyRecycles | lwt.c:171-206 | No other call changes the recycle queue but by putting those who died at its end. |
| LwtRecycle.ReusedInOrder | lwt.c:131-182 | In every state of every run, the threads that have died, in order, are those whose structures were used again, in order, followed by the recycle queue. |
| LwtExamples.LostMessage | lwt_chl.c:424-431 | A run that loses a message on a channel that belongs to no group. |
| LwtExamples.LostWakeup | lwt_chl.c:349-359 | A run after which an owner sleeps although its group has a ready member. |
| LwtExamples.CountedTwice | lwt_chl.c:139-142 | A run after which nrcving is -1 and nobody is blocked. |
| LwtKthd.Kthd.constructor | lwt.c:103-124 | A fresh kernel thread is the machine's start. |
| LwtKthd.Kthd.ResumeThread | lwt_chl.c:100-110 | Does what the machine does. |
| LwtKthd.Kthd.BlockThread | lwt_chl.c:82-98 | Blocks the current thread and dispatches the next. |
| LwtKthd.Kthd.LwtSchedule | lwt.c:72-100 | Dispatches the first of the run queue. |
| LwtKthd.Kthd.LwtYield | lwt.c:219-249 | The machine's yield; says whether it switched. |
| LwtKthd.Kthd.LwtChan | lwt_chl.c:51-59 | The machine's new channel. |
| LwtKthd.Kthd.LwtSnd | lwt_chl.c:113-157 | The machine's send; -1 exactly if there is no receiver, and then nothing changes. |
| LwtKthd.Kthd.RcvBuffered | lwt_chl.c:225-244 | The machine's receive from the ring, with a queued sender refilling it. |
| LwtKthd.Kthd.RcvQueued | lwt_chl.c:247-255 | The machine's receive from the first queued sender. |
| LwtKthd.Kthd.LwtRcv | lwt_chl.c:216-262 | The machine's receive; what is returned is the value the machine takes from the channel, now or, if the call blocks, by Resumed. |
| LwtKthd.Kthd.LwtCreate | lwt.c:127-168 | The machine's create; the first recycled structure if there is one. |
| LwtKthd.Kthd.LwtDie | lwt.c:171-206 | The machine's die. |
| LwtKthd.Kthd.LwtJoin | lwt.c:252-273 | The machine's join; the word returned is the one the machine joins, now or by Resumed; NULL and no change for a thread one may not join. |
| LwtKthd.Kthd.LwtChanDeref | lwt_chl.c:62-79 | The receiver, or else a counted sender, lets go; the channel is freed exactly when neither a receiver nor a counted sender is left. |
| LwtKthd.Kthd.CountSender | lwt_chl.c:37-43 | lwt_create_chan, after its lwt_create, counts one more sender. |
| LwtKthd.Kthd.LwtCgrp | lwt_chl.c:335-346 | The machine's new group. |
| LwtKthd.Kthd.LwtCgrpAdd | lwt_chl.c:349-359 | The machine's addition; -1 and no change exactly for a channel in a group. |
| LwtKthd.Kthd.LwtCgrpRem | lwt_chl.c:362-375 | The machine's removal; 1 for a ready channel, -1 for one of another group, and no change then. |
| LwtKthd.Kthd.FindReady | lwt_chl.c:414-423 | The loop finds the first ready member, or that there is none. |
| LwtKthd.Kthd.LwtCgrpWait | lwt_chl.c:401-433 | The machine's group wait; the channel returned, now or by Resumed, is the ready member the machine finds; NULL exactly for an empty group. |
| LwtKthd.Kthd.Resumed | lwt_chl.c:260-261 | A dispatched thread finishes the call it had blocked in: lwt_rcv and lwt_join return the message handed over, lwt_cgrp_wait a ready member unless it blocks again. |
| LwtKthd.Kthd.Step | lwt.c:72-273 | Any permitted call leaves the class in the state the machine says, with the events and the return value it says, and keeps the invariant. |
| LwtAnswers.Answers | lwt_chl.c:113-433 | For every call, the caller gets a word or a channel exactly if it was taken from a channel or found ready, and a refusal exactly when the call's guard says so; a refused call changes nothing. |
| LwtAnswers.HandlesAreNew | lwt.c:127-168 | A thread, channel or group handed out is a new one or a dead thread's, as asked for and the caller's; every other thread is as before. |
| LwtLibrary.Library.constructor | lwt.c:103-124 | A fresh library has the empty history. |
| LwtLibrary.Library.Invoke | lwt.c:72-273 | After any sequence of calls the object's history is a run of the machine that ends in the object's state. |
| LwtLibrary.InOrder | lwt_chl.c:113-262 | First-in first-out, with its exact condition, for the object after any calls. |
| LwtLibrary.WordsAreLogged | lwt_chl.c:261 | A word a caller gets is the one the log says was taken from a channel. |
| LwtLibrary.JoinedWord | lwt.c:252-273 | A join on the object returned what its child died with. |
| LwtLibrary.AtOnce | lwt_chl.c:401-433 | On the object, receiving from the channel lwt_cgrp_wait returned yields a word at once. |

## Left out

- Allocator.Heap.Morecore: the model stops where a chunk overruns its pages and says so; the code goes on and writes to memory that is not its own, which is not modelled. The page source is consecutive pages until there are none.
- LwtKthd.Kthd.LwtChanDeref: what becomes of the memory of a freed channel; its record keeps its last values, and letting go of it again is not permitted.
- LwtKthd.Kthd.LwtCreate: the allocation itself cannot fail, and fields the code does not initialise start at zero in a fresh structure and keep their values in a recycled one.
- Threads, channels and groups are records in sequences and their queues are sequences of thread numbers, so aliasing between structures is not modelled; `Rings.MoveNodeToEnd` and `Rings.MoveNodeBeforeLast` show on real nodes that the queue edits are these.
- One kernel thread with local channels only: global channels, polling, the wakeup queue and migration are unfinished in the source.
- The assembly context switch, stacks and the trampoline; a switch changes the current thread, and the rest of a blocked call is a value.
- `head` and `tail` are unbounded; the source's are signed 32-bit and would overflow after 2^31 messages.
- Usage the source relies on and does not enforce is `Permitted`: only a channel's receiver receives from it, only a group's owner waits for it, a thread's own channel is used by `lwt_die` and `lwt_join` alone, a freed channel is not let go of or shared again; and somebody is left to run whenever a call must switch (`Enabled`).
- The value a join returns is logged when it is received; the directed yield that follows is modelled and cannot change it.
- `lwt_cgrp_free`, marks, getters and printing.
- Scheduler tokens, budgets, timeouts, `sl_thd_block`, `sl_thd_wakeup` and the scheduling policy; `cos_defswitch` is any choice of who acts next.
- Progress of a thread that retries its CAS is stated for the system (`CsLock.FailureMeansProgress`), not for that thread.
