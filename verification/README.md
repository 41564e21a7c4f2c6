# A verified model of the TrustZone driver

The driver is the normal-world half of a TrustZone messaging stack: clients open sessions to trusted
applications, their parameters are copied into a memory pool shared with the secure world, commands travel
through a queue of slots, and logs come back through a ring buffer. This project models the parts of it that
carry state from one call to the next and proves what they keep. `dafny verify dfyconfig.toml` checks all of it.

| part | files | what is proved |
|---|---|---|
| Mailbox pool | `Dyadic`, `Buddy`, `BuddyInvariant`, `BuddyTheorems`, `Mailbox` | blocks partition the pool after any history, coalescing is maximal, the free blocks are a function of the live ones, an allocation fails only when it has to |
| Command slots | `SmcQueue`, `SmcProtocol`, `SmcInvariants`, `SmcTheorems`, `SmcAnswers`, `SmcKills`, `SmcAbort`, `SmcDriver` | any number of calls against the secure side: slots are exclusive, no half-built command is taken, exactly which returned calls keep a slot, what each answer makes of its call, answers match; and exactly when an abort breaks the matching, for two kinds of secure side |
| Sessions | `Counting`, `Sessions`, `SessionInvariants`, `SessionCounts`, `SessionRefs`, `SessionTables`, `SessionPlaces`, `SessionRuns`, `SessionTheorems`, `SessionEntries`, `SessionCalls`, `SessionCloses`, `SessionLocks`, `SessionProgress` | three levels of counts are exact in every interleaving, sessions are freed once, calls hold what they ask for, one close wins and the others lose to it, calls on a session are serial, a thread waits only for one that can move or waits for one that can, every call and every device close ends after a bounded number of steps, and a device close is complete |
| Image loader | `ImageFrames`, `ImageLoader` | the halving search against the pool, frames that reassemble to the file, the pool restored |
| Client calls | `ParamTypes`, `CallBlocks`, `CallReferences`, `ClientCall` | every block and every reference a call takes is given up, wherever it fails and whatever others do to the device meanwhile; and exactly when a command is sent |
| Shared memory | `SharedMem`, `SharedIndexes` | counts are exact in any order of map, remap, unmap and call; nothing leaks; which requests are granted and which buffer they reach |
| Log ring | `LogItems`, `LogReader`, `LogWritten` | what is written is what is read: any sequence of reads delivers what one scan would, whole items, in order |
| Session token | `TokenStamp`, `Token`, `TokenRuns` | split and combine are inverse, an unanswered submission is rolled back, and exactly when; over any sequence of calls the current token is accepted, and exactly when an old one is |
| Timeouts | `Timeout` | the schedule of sleeps keeps its promise |

`Options` and `Octets` hold types and constants that several parts use.

How the model is built. Code that changes things in place is a class or an in-place method
(`MailboxZone`, `Queue`, `SharedMemDev`, `ParamBlocks`, `ParamRefs`, `Call`, `TloggerReader`, `TokenStore`,
`TimeoutStep`, the loops of the image loader), proved against functions on values; the theorems are about those functions. What runs
concurrently (the slot protocol, the session manager) is a transition system whose steps are the critical
sections of the driver's locks; a theorem about it holds in every state of every run. Results of memory
allocation, user copies, cryptography and the secure side are parameters that may come out either way.

Six properties one might expect do not hold of the code as it is; each is kept as it is, with its exact condition:

- Freeing an address that starts no live block is harmless except for page 0 after the whole pool was allocated
  as one block and freed: the count of page 0 then stays 1 (core/mailbox_mempool.c:261-290).
  `FreeNonLive` is the if-and-only-if, `StaleWholeIsReachable` a history that gets there.
- A call that has returned may still own a slot. It does so if and only if it was suspended, left by the crash exit,
  or was a resend that came back before it began, for want of memory or after a crash (core/smc_smp.c:1826-1827,
  1561-1572, 1918-1921): `ReturnedCallKeepsSlotIff`. In the last two cases the slot is lost for good
  (`StrandedSlotsAreLost`); `RefusedResendStrandsSlot` is a run that loses one.
- The abort taken on a timeout does not look at the out bit (core/smc_smp.c:1608-1636, 1745-1747), and nothing the
  driver says keeps the secure side from answering a command after its abort. For a secure side that is silent while
  the doing bit is clear, aborting can lead to a call collecting an answer that is not its own if and only if the
  command has been answered already: `AbortIsHarmlessIffUnanswered`. For any other, if and only if the abort takes
  effect at all, or an earlier one is still dangerous: `AbortIsHarmlessIffRefused`. `UnansweredAbortMisdelivers` tells
  the two apart.
- An index of shared memory is kept in an int and looked up as an unsigned long (core/tc_client_driver.c:484-501): an
  index below 2^31 names one buffer unless a request comes with an index that is cut down to it.
  `EventKeepsIndexesIff` is the if-and-only-if, `CutIndexIsReused` the two requests.
- A log reader that the writer has overtaken is moved to the oldest data unless the 32-bit loop counter has started
  again from 0 since (tlogger/tlogger.c:388-396): `OvertakenGetsAllIffNotRestarted`.
- The roll-back of the time stamp takes back one submission, while a command may be submitted several times. The
  stamp is restored if and only if there was exactly one: `RollbackRestores`, `UnansweredCallRollsBack`.

What the slot protocol assumes of the secure side is written into `SmcProtocol.Enabled`: it takes a slot only when
its in bit is set and its doing bit clear, answers only what it took, and echoes the event number
(core/smc_smp.h:92-104, core/smc_smp.c:256-267). Ownership, publication and conservation of slots need no more. That
answers match needs two hypotheses, each with a name: `AbortsUnanswered` and `AnswersWhileDoing`.

## Model

| member | source | states |
|---|---|---|
| `Dyadic.BuddyIsOtherHalf` | core/mailbox_mempool.c:264 | xor with 1 << k maps an aligned run to the other half of the run one order up, in both directions |
| `Buddy.InitValid` | core/mailbox_mempool.c:605-620 | the zone as set up satisfies the invariant, has no live block and one free block of the maximal order |
| `BuddyInvariant.CoalesceKeeps` | core/mailbox_mempool.c:261-290 | the coalescing loop restores the whole invariant, no two free buddies included, and stops exactly the given block from being live |
| `BuddyTheorems.AllocKeeps` | core/mailbox_mempool.c:161-192 | an allocation keeps the invariant and adds exactly one live block, aligned and in the pool; a failed one changes nothing |
| `BuddyTheorems.AllocTakesSmallest` | core/mailbox_mempool.c:161-176 | the block handed out is the front of a free block no larger than any other that would do |
| `BuddyTheorems.FreeKeeps` | core/mailbox_mempool.c:234-292 | freeing a live block keeps the invariant and removes exactly that block |
| `BuddyTheorems.FreeNonLive` | core/mailbox_mempool.c:252-290 | freeing an interior or already free page changes nothing and keeps the invariant, if and only if it is not page 0 with a stale count |
| `BuddyTheorems.StaleWholeIsReachable` | core/mailbox_mempool.c:204-218 | allocating and freeing the whole pool leads to the exception, for every pool size |
| `BuddyTheorems.Partition` | core/mailbox_mempool.c:172-190 | every page lies in exactly one live or free block, aligned to its size |
| `BuddyTheorems.FreeRunInFreeBlock` | core/mailbox_mempool.c:261-290 | an aligned run that no live block touches lies inside one free block: coalescing is maximal |
| `BuddyTheorems.AllocComplete` | core/mailbox_mempool.c:146-202 | an allocation fails exactly when no aligned run of its size is clear of every live block |
| `BuddyTheorems.HistoryValid` | core/mailbox_mempool.c:146-292 | the invariant holds after any history of allocations and frees of live blocks |
| `BuddyTheorems.HistoryComplete` | core/mailbox_mempool.c:146-292 | after any such history an allocation fails exactly when it has to |
| `BuddyTheorems.FreeArises` | core/mailbox_mempool.c:234-292 | a free leads from a zone that requests lead to on to another, exactly when it is not the excepted one |
| `BuddyTheorems.Canonical` | core/mailbox_mempool.c:177-187 | two zones with the same live blocks have the same free blocks, whatever their histories |
| `BuddyTheorems.AllocThenFree` | core/mailbox_mempool.c:146-292 | an allocation followed by its free restores the live and the free blocks |
| `BuddyTheorems.AllFreeIsInitial` | core/mailbox_mempool.c:605-620 | when nothing is live the lists are those of the initial zone: one block of the maximal order |
| `Mailbox.OrderFor` | core/mailbox_mempool.c:151 | the least order whose block holds the request |
| `Mailbox.PageOf` | core/mailbox_mempool.c:220-232 | the page of an address, defined exactly for the addresses in the pool |
| `Mailbox.MailboxZone.constructor` | core/mailbox_mempool.c:605-620 | the loops of the set-up produce the initial zone |
| `Mailbox.MailboxZone.SplitBlock` | core/mailbox_mempool.c:177-187 | the split loop in place is the split on values |
| `Mailbox.MailboxZone.TakeBlock` | core/mailbox_mempool.c:164-191 | the locked part of the allocation in place is the allocation on values |
| `Mailbox.MailboxZone.Alloc` | core/mailbox_mempool.c:146-202 | leads on to a zone that requests lead to; fails exactly for size 0, an order above the maximum or no free run; otherwise hands out one new block at its address |
| `Mailbox.MailboxZone.JoinBuddy` | core/mailbox_mempool.c:267-281 | joining in place takes the buddy off its list and moves the head to the lower page |
| `Mailbox.MailboxZone.GiveBack` | core/mailbox_mempool.c:252-290 | the coalescing loop in place is the coalescing on values |
| `Mailbox.MailboxZone.Free` | core/mailbox_mempool.c:234-292 | any address: frees exactly the live block that starts in its page, else changes nothing, with the one exception |
| `SmcQueue.FirstFree` | core/smc_smp.c:270-281 | the least slot whose in bit is clear |
| `SmcQueue.Queue.OccupyFree` | core/smc_smp.c:268-281 | claims the first free slot with the in and doing bits set and the event number written, or changes nothing |
| `SmcQueue.Queue.ReuseEntry` | core/smc_smp.c:315-332 | takes over the last answer as the next command exactly when both bits are set |
| `SmcQueue.Queue.CopyOut` | core/smc_smp.c:351-382 | collects a posted answer; the slot is given up exactly for a final one |
| `SmcQueue.Queue.SetAbort` | core/smc_smp.c:1608-1636 | rewrites a command being processed into a kill and offers it again, else changes nothing |
| `SmcDriver.Step` | core/smc_smp.c:228-398 | each critical section on the slots in memory, called where the retry loop calls it, takes them to the slots of the protocol's next state |
| `SmcDriver.Replay` | core/smc_smp.c:1816-1867 | the critical sections of any run, one after the other, leave the slots in memory as the run says, so every theorem about runs is about them |
| `SmcInvariants.StepKeepsInv` | core/smc_smp.c:1816-1867 | every step of every call and of the secure side keeps the ownership invariant |
| `SmcInvariants.StepKeepsMatch` | core/smc_smp.c:1816-1867 | every step that aborts no answered command and answers none after its abort keeps slots, commands and answers matched |
| `SmcTheorems.RunKeepsInv` | core/smc_smp.c:1816-1867 | the ownership invariant holds in every state of every run |
| `SmcTheorems.SlotsAreExclusive` | core/smc_smp.c:268-281 | in every run a set in bit belongs to exactly one call, calls that came back with an error included, and a call has at most one slot |
| `SmcTheorems.TakenCommandsAreComplete` | core/smc_smp.c:256-307 | a slot with in set and doing clear holds a complete command, so the secure side takes no half-built one |
| `SmcTheorems.ReturnedCallKeepsSlotIff` | core/smc_smp.c:1816-1867 | a returned call owns a slot if and only if it was suspended, left by the crash exit or was a resend refused before it began; it is then the slot it worked with |
| `SmcTheorems.StrandedSlotsAreLost` | core/smc_smp.c:1826-1827 | the slot of a call that left by the crash exit or of a refused resend stays taken in every continuation |
| `SmcTheorems.RefusedResendStrandsSlot` | core/smc_smp.c:1561-1572 | with any number of slots some run loses one: a call answered PENDING whose resend finds no memory |
| `SmcTheorems.CollectFindsAnswer` | core/smc_smp.c:351-360 | the branch for an answer that is not ready, and the release in the clean-up, cannot be reached from the loop |
| `SmcTheorems.AnswersMatch` | core/smc_smp.c:351-382 | in every run whose aborts hit unanswered commands and whose secure side is silent after an abort, each collected answer answers the call's own latest submission, and none is answered twice |
| `SmcAnswers.ReturnedAsAnswered` | core/smc_smp.c:1430-1458 | a returned call finished if and only if the last answer it collected is final; it is suspended or refused only if that answer is PENDING to its latest submission; PENDING2 never makes a call return except through a failure |
| `SmcAnswers.AnswerDecides` | core/smc_smp.c:1799-1814 | in the step that collects an answer, a final one ends the call and gives up its slot, PENDING suspends it and PENDING2 sends it back to send again, both with the slot still its own |
| `SmcAnswers.Pending2SendsAgain` | core/smc_smp.c:1395-1427 | after PENDING2 the next step of the call is to send again in the same slot under the next number, exactly unless the doing bit is clear |
| `SmcKills.AbortOffersKill` | core/smc_smp.c:1608-1643 | an abort takes effect exactly when the command is being processed: it becomes a kill and is offered again, nothing else changes, and the call goes on waiting |
| `SmcKills.AbortedCommandIsKilled` | core/smc_smp.c:1608-1636 | what the secure side takes from the slot of a call in its abort is the kill |
| `SmcKills.KillsComeFromAborts` | core/smc_smp.c:1608-1636 | in a run without an abort that takes effect no kill is ever offered |
| `SmcKills.PostedAnswerIsSeen` | core/smc_smp.c:400-408 | a call that comes back from the secure side when its answer is posted sees it, whatever others do in between |
| `SmcKills.SeenAnswerIsCollected` | core/smc_smp.c:1799-1814 | a call that has seen its answer collects, in its next step, what is posted in its slot |
| `SmcKills.CrashedIff` | core/smc_smp.c:1843-1859 | a call leaves by the crash exit if and only if its SMC failed or the work state was invalid |
| `SmcAbort.NoAbortNoHarm` | core/smc_smp.c:1816-1867 | without a further abort no wrong answer is ever collected, from a matched state for a silent secure side, and for any other where it holds no command after an abort |
| `SmcAbort.AnsweredAbortMisdelivers` | core/smc_smp.c:1608-1636 | from every matched state an abort of an answered command has a continuation that delivers a wrong answer, for either secure side |
| `SmcAbort.AbortIsHarmlessIffUnanswered` | core/smc_smp.c:1608-1643 | for a silent secure side an abort can lead to a wrong answer if and only if the command has been answered already |
| `SmcAbort.EndangeredIffExposed` | core/smc_smp.c:1608-1643 | for any other secure side a wrong answer is possible if and only if it holds a command of a live call whose doing bit an abort has cleared |
| `SmcAbort.AbortIsHarmlessIffRefused` | core/smc_smp.c:1608-1643 | for such a secure side an abort can lead to a wrong answer if and only if it takes effect, or that was so before |
| `SmcAbort.UnansweredAbortMisdelivers` | core/smc_smp.c:1608-1643 | the abort of a command in progress that is not answered is harmless for the one secure side and not for the other |
| `SmcAbort.AnswersMatchWithoutAborts` | core/smc_smp.c:351-382 | for any secure side answers match in every run in which no abort takes effect |
| `SessionRuns.RunKeepsInv` | core/session_manager.c:926-1218 | the invariant of the session manager holds in every state of every interleaving of opens, sends, closes and device closes |
| `SessionRuns.OccupiedSlotsHaveSessions` | core/session_manager.c:1073-1096 | with no call in flight on a device every occupied slot has a listed session of that device |
| `SessionTheorems.ServiceUsageIsExact` | core/session_manager.c:107-149 | a service's usage is the number of device slots and threads holding it, it is listed exactly while that is positive, a uuid has one service and one slot per device |
| `SessionTheorems.ServiceRefIsExact` | core/session_manager.c:465-484 | service_ref is the number of the device's listed sessions plus its opens and closes under way, within 1..255 |
| `SessionTheorems.NoThreadIsLeftDangling` | core/session_manager.c:926-1218 | whatever a thread is about to use or put is still allocated, and a reference to drop has a slot |
| `SessionTheorems.SessionsAreFreedOnce` | core/session_manager.c:78-105 | every session opened is there or freed, never both; it is freed off its list, held by nobody but the thread that frees it |
| `SessionTheorems.OneCloseWins` | core/session_manager.c:1144-1176 | of all closes of one session at most one succeeds |
| `SessionCalls.CallsHoldWhatTheyAskFor` | core/session_manager.c:190-207 | in every state of every run a send or close holds only a session of its device and id under the service of its uuid, and a call has only the service of its uuid |
| `SessionCalls.OpensListTheirSession` | core/session_manager.c:828-842 | an open that succeeds lists a session of its device, of the id it was given, for the service of its uuid |
| `SessionCalls.OpenRefusedOnlyWhenFull` | core/session_manager.c:465-484 | an open is refused for a full count only at 255 sessions and calls, for a full device only with 32 other services, for want of memory for a service only when there is none of its uuid |
| `SessionCalls.CallIsMade` | core/session_manager.c:1180-1218 | a send or close that has come past its call into the secure world has made it, unless it found no service or no session |
| `SessionCalls.OpenListsOrFails` | core/session_manager.c:926-982 | an open that is over has listed a session or failed in one of five named ways |
| `SessionCloses.LoserLostToWinner` | core/session_manager.c:1133-1176 | a call that finds no service or no session lost to a close that succeeded: a session of its id, uuid and device that was listed at any time during the call was taken off its list by a close since then |
| `SessionCloses.CloseWinsOrLoses` | core/session_manager.c:1123-1178 | when a close of a listed session is over, it has taken off its list a session of the id, device and uuid it was called with, or a close called for this one has taken this one since the call began |
| `SessionTheorems.DeviceCloseIsComplete` | core/session_manager.c:1035-1096 | when the close thread is done the device has no slot and no listed session |
| `SessionTheorems.DeviceCloseTouchesOwnDevice` | core/session_manager.c:209-225 | a close thread leaves slots and sessions of other devices alone and gives up one usage per slot cleared |
| `SessionProgress.DeviceCloseProgresses` | core/session_manager.c:1073-1096 | every step of the close thread lowers what remains for it to do |
| `SessionProgress.OthersLeaveClose` | core/session_manager.c:1073-1096 | no step of another thread changes what remains for a close thread to do |
| `SessionProgress.CloseMovesOrWaits` | core/session_manager.c:1073-1096 | before it is done the close thread can take a step, or has come to the operation_lock of its slot's service and another thread holds it |
| `SessionProgress.DeviceCloseEnds` | core/session_manager.c:1035-1096 | in no run does a close thread take more than 165 steps and 3 for each session of the device |
| `SessionProgress.CallsEnd` | core/session_manager.c:926-1218 | in no run does an open, a send or a close take more than 11 steps |
| `SessionLocks.CallsAreSerial` | core/session_manager.c:1148-1151 | at most one send or close at a time has a call into the secure world under way for a session, and the session is allocated as long as it has |
| `SessionLocks.MovesIffNotWaiting` | core/session_manager.c:926-1218 | a thread that has not ended can take a step if and only if no service_lock, operation_lock or ta_session_lock it has come to is held by another |
| `SessionLocks.NoDeadlock` | core/session_manager.c:926-1218 | a thread that has not ended can take a step, or waits for the holder of a lock that can, or for one that waits for a holder that can: no chain of waiting threads is longer, none is a cycle |
| `ImageFrames.FramesCover` | core/session_manager.c:784-787 | all frames but the last are full and the last one is not empty and fits |
| `ImageFrames.FramesReassemble` | core/session_manager.c:688-737 | the frames of a file concatenate to exactly the file, each fits the buffer, only the last has flag 0 |
| `ImageFrames.FillFrame` | core/session_manager.c:668-686 | the frame written into the load buffer is the flag and that part of the file, whatever was there before |
| `ImageFrames.LoadByFrame` | core/session_manager.c:688-737 | sends the frames in order, succeeds exactly when every copy and command does, then the file has arrived; the error for an invalid load size cannot occur |
| `ImageLoader.FirstSize` | core/session_manager.c:773-774 | the search starts with the least whole pages that hold the file, or with 1 MiB |
| `ImageLoader.FindLoadMem` | core/session_manager.c:604-618 | the halving search finds the first size there is room for; it fails exactly when no page of the pool is free; a size found is over 2048 and its block at least that large |
| `ImageLoader.AllocForLoadImage` | core/session_manager.c:604-638 | the three blocks, exactly when there is room for all of them one after the other, or none |
| `ImageLoader.SendImage` | core/session_manager.c:779-787 | the error for a load size too small exactly when there is no room behind the flag; success exactly when every frame is copied and accepted, and then the file has arrived |
| `ImageLoader.LoadImage` | core/session_manager.c:756-793 | a file of 1 byte to 8 MiB arrives whole exactly when there is room in the pool and every frame is copied and accepted; two of the errors are dead; live and free blocks of the pool are as before on every path |
| `SharedMem.OffsetCheckIsExact` | core/gp_ops.c:438-450 | the check, with its wrapping subtraction, admits exactly the references inside the buffer |
| `SharedMem.MmapKeepsInv` | core/tc_client_driver.c:528-576 | mapping, mapping again and every way of failing keep the counts exact |
| `SharedMem.OpenMappingIsFound` | core/tc_client_driver.c:417-428 | the close of an open mapping always finds a buffer |
| `SharedMem.UnmapKeepsInv` | core/tc_client_driver.c:409-442 | closing a mapping keeps the counts exact and the list right |
| `SharedMem.GetOpKeepsInv` | core/gp_ops.c:493-520 | a call's reference keeps the counts exact; without one nothing changes |
| `SharedMem.ReferencesLieInside` | core/gp_ops.c:488-520 | a call gets a reference exactly when the first buffer mapped at its address has all the bytes it names, and it gets that buffer |
| `SharedMem.PutOpKeepsInv` | core/mem.h:37-43 | giving up a held reference finds the buffer there and keeps the counts exact |
| `SharedMem.StepsKeepInv` | core/tc_client_driver.c:409-576 | any sequence of operations by others keeps the invariant and the references one caller holds |
| `SharedMem.UsageIsExact` | core/mem.h:31-43 | in any order of operations usage is the number of mappings (0 to 2) plus references held, positive, and the buffer is listed exactly while mapped |
| `SharedMem.FreedWhenLastReferenceGoes` | core/mem.h:37-43 | a buffer goes in exactly the step that takes its last mapping or reference, and its name is never used again |
| `SharedMem.NothingLeaks` | core/tc_client_driver.c:409-576 | once every mapping is closed and every call over, no buffer is left |
| `SharedIndexes.FirstMappingIsGranted` | core/tc_client_driver.c:504-576 | the first request for a free index makes one buffer of that length under that index and maps it; nothing else changes |
| `SharedIndexes.SecondMappingIsGranted` | core/tc_client_driver.c:484-501 | a buffer mapped once is mapped again by a request of its own length, and by no other |
| `SharedIndexes.OneBufferTwoMappings` | core/tc_client_driver.c:475-576 | two requests of one length for one index give two mappings of one buffer; another length is refused before and after, and so is a third request |
| `SharedIndexes.CloseTakesOneMapping` | core/tc_client_driver.c:409-442 | closing a mapping takes it from the first buffer mapped there, which gives up one count or goes, and from no other |
| `SharedIndexes.EventKeepsIndexesIff` | core/tc_client_driver.c:484-501 | an index below 2^31 names at most one listed buffer, except exactly after a request whose index, cut down to 32 bits, is in use |
| `SharedIndexes.IndexesStayUnique` | core/tc_client_driver.c:475-576 | in any order of events whose indexes fit in 32 bits such an index names at most one buffer |
| `SharedIndexes.CutIndexIsReused` | core/tc_client_driver.c:484-501 | two requests whose indexes differ by 2^32 make two buffers with one index |
| `SharedMem.SharedMemDev.FindOffset` | core/tc_client_driver.c:484-501 | the search for an index finds the first buffer that has it |
| `SharedMem.SharedMemDev.ClientMmap` | core/tc_client_driver.c:528-576 | mapping in place, failed remaps included, is the mapping on values |
| `SharedMem.SharedMemDev.ReleaseVma` | core/tc_client_driver.c:408-443 | closing an open mapping in place is the unmapping on values, and keeps the invariant of the device |
| `SharedMem.SharedMemDev.ReleaseFirst` | core/tc_client_driver.c:417-441 | the loop over the list touches only the first buffer with the address, although it looks at all before it |
| `SharedMem.SharedMemDev.FindUser` | core/gp_ops.c:494-501 | the search for an address finds the first buffer mapped there |
| `CallBlocks.Grab` | core/mailbox_mempool.c:146-202 | a caller's allocation adds one block to those it holds, apart from all others |
| `CallBlocks.Release` | core/mailbox_mempool.c:234-292 | freeing what a caller holds frees that block, which is still live, and nothing else |
| `CallReferences.RefsDetermineCounts` | core/mem.h:31-43 | in a sound device mappings and references held determine every count |
| `CallReferences.PutIsWithRefs` | core/mem.h:37-43 | giving up a reference leaves exactly the device with one reference less: all else is unchanged, and the buffer goes if nothing maps or holds it |
| `CallReferences.TakenAndGivenUp` | core/gp_ops.c:800-838 | taking references and giving all of them up restores the device |
| `CallReferences.WithoutHeldMeans` | core/gp_ops.c:800-838 | what is left of a device, entry by entry: list and mappings are the same, a buffer goes exactly when it is neither mapped nor referred to, and counts drop by the references given up |
| `CallBlocks.ParamBlocks.AllocTmp` | core/gp_ops.c:369-420 | success exactly for a readable parameter of 1 byte to 1 MiB for which the pool has a block, which is then held; whatever fails, what has been taken is where the clean-up will find it |
| `CallReferences.ParamRefs.Search` | core/gp_ops.c:493-503 | finds the buffer that an operation on the device would refer to |
| `ClientCall.Call.AllocRef` | core/gp_ops.c:473-532 | a block and a reference are taken together or neither, exactly when the first buffer mapped at the address has all the bytes named and the pool has a block |
| `ClientCall.Call.AllocOperation` | core/gp_ops.c:584-640 | succeeds exactly when all four parameters are admissible for their types and the pool has room for their blocks one after the other, and each parameter then has the block of its size and the reference its type calls for; otherwise the device and the blocks held are as before |
| `ClientCall.Call.FreeOperation` | core/gp_ops.c:800-838 | gives up exactly the blocks and references that the parameters hold, also when buffers were unmapped meanwhile; the rest of the device is unchanged |
| `ClientCall.Call.ReleaseResources` | core/gp_ops.c:1013-1025 | afterwards the live blocks are those of before the call and the device is the same less the call's references |
| `ClientCall.Call.TcClientCall` | core/gp_ops.c:1097-1142 | the command goes to the secure side exactly when it can be made, all parameters are admissible and the pool has room; the call succeeds exactly when it went and every later step did, and hands on an error exactly when the trusted side answered with one; live and free blocks of the pool are as before on every path, and the device is exactly what others made of it while the command was out, less the references the call held |
| `LogItems.ItemMark` | tlogger/tlogger.c:174-186 | a position holds an item of a fixed length or none, and the validity check says whether it fits |
| `LogItems.StopFindsSame` | tlogger/tlogger.c:188-211 | scanning on from where a scan stopped finds what that scan found |
| `LogItems.ParseIsPrefixOfScan` | tlogger/tlogger.c:220-264 | a pass delivers a prefix of the full scan and leaves off where the rest begins; it reports room left only at the end |
| `LogItems.ParseFits` | tlogger/tlogger.c:220-264 | a pass delivers whole items of its range that fit the buffer, and moves forward within the range |
| `LogReader.ReadTakesPrefix` | tlogger/tlogger.c:299-448 | one read of a ring delivers the first part of what is unread and leaves the reader at the rest: from the reader to the writer across the wrap, or all of the ring for a reader that was overtaken |
| `LogReader.ReadMakesProgress` | tlogger/tlogger.c:355-417 | a read with room for 1024 bytes delivers an item while one remains and never exceeds its buffer |
| `LogReader.ReadsRefineOneScan` | tlogger/tlogger.c:299-448 | any sequence of such reads delivers a prefix of the one scan, and as many reads as there are items deliver all of it |
| `LogReader.ReadsDeliverBytesOfScan` | tlogger/tlogger.c:299-448 | the same in bytes: nothing lost, repeated or split |
| `LogReader.OvertakenGetsAllIffNotRestarted` | tlogger/tlogger.c:388-396 | an overtaken reader gets all that is available if the loop counter has not started again from 0 since; if it has, a reader can lose what lies behind the writer |
| `LogWritten.ItemsAreHeads` | tlogger/tlogger.c:174-186 | the driver takes for items exactly the places where a head announces a text, padded to whole units, that fits |
| `LogWritten.ScanFindsWritten` | tlogger/tlogger.c:188-264 | a scan of items written one after the other finds exactly those items |
| `LogWritten.WrittenItemsAreRead` | tlogger/tlogger.c:299-448 | a reader in the writer's loop that reads often enough is delivered exactly the items written since its position |
| `LogWritten.WrittenRingIsRead` | tlogger/tlogger.c:373-417 | a reader that was overtaken is delivered all items of the ring, the oldest first |
| `LogWritten.RefusedReadMovesNothing` | tlogger/tlogger.c:299-334 | a read that is refused leaves the reader where it is, and reads too small or of a bad ring are refused |
| `LogReader.CheckItem` | tlogger/tlogger.c:174-186 | the check on bytes decides whether an item lies there within the range |
| `LogReader.GetNextLogItem` | tlogger/tlogger.c:188-211 | the loop finds the next item and moves the position also when there is none |
| `LogReader.ParseLogItem` | tlogger/tlogger.c:220-264 | the loop copies out the bytes of the pass on values |
| `LogReader.TloggerReader.Trigger` | tlogger/tlogger.c:373-417 | the reader in place: position, loop count, status and bytes are those of the read on values |
| `LogReader.TloggerReader.ReadOnce` | tlogger/tlogger.c:419-448 | the same with the parameter and ring checks in front |
| `TokenStamp.ScrambleTwice` | auth/security_auth_enhance.c:106-129 | scrambling is its own inverse, for every key |
| `TokenStamp.MovedStamp` | auth/security_auth_enhance.c:130-183 | changing the bytes changes the counter they stand for by one; it fails only at the ends of the 64-bit range |
| `TokenStamp.SubmittedStamp` | auth/security_auth_enhance.c:185-223 | n submissions add n, and succeed exactly as long as the counter fits |
| `TokenStamp.RollbackRestores` | auth/security_auth_enhance.c:225-262 | after n submissions one roll-back leaves n - 1, and restores the bytes if and only if n is 1, for every key |
| `Token.ProcessingSplits` | auth/security_auth_enhance.c:1073-1125 | after every successful post-processing client and session have the same stamp and bytes 0..15 are the client's alone |
| `Token.AnsweredKeepsStamp` | auth/security_auth_enhance.c:1073-1125 | the token of an open, and one marked by the secure world, is split as it came back: the stamp in bytes 32..39 goes to the client and stays in the session unchanged |
| `Token.SplitThenCombine` | auth/security_auth_enhance.c:822-902 | the next call with an unmodified client token is accepted and rebuilds bytes 0..39 |
| `Token.UnansweredCallRollsBack` | auth/security_auth_enhance.c:1073-1125 | a call that is filled, submitted n times and not synchronised leaves client and session bytes as they were if and only if n is 1 |
| `TokenRuns.CallsMoveStamp` | auth/security_auth_enhance.c:861-902 | in any sequence of calls every one is accepted with the client's current part, the token stays split, and the stamp moves by the submissions that were answered or not taken back |
| `TokenRuns.OldTokenAccepted` | auth/security_auth_enhance.c:861-902 | after any sequence of calls the part the client had before it is accepted if and only if each of them was submitted once and not answered |
| `Token.ScramblingTimestamp` | auth/security_auth_enhance.c:106-129 | the loop writes the scrambled bytes in their place and nothing else |
| `Token.TokenStore.DescramblingTimestamp` | auth/security_auth_enhance.c:130-183 | descrambling, changing and scrambling in place changes the stamp of the token only |
| `Token.TokenStore.UpdateTimestamp` | auth/security_auth_enhance.c:185-223 | a submission in place, for commands to trusted applications only, refused for an empty token or a session that is not found |
| `Token.TokenStore.SyncTimestamp` | auth/security_auth_enhance.c:225-262 | rolls back, leaves or refuses by the sync byte, and refuses a roll-back whose session is not found |
| `Token.TokenStore.SaveTokenInfo` | auth/security_auth_enhance.c:822-859 | client bytes and stamp written out, then bytes 0..15 cleared |
| `Token.TokenStore.CombineTempToken` | auth/security_auth_enhance.c:861-902 | the combination in place, with the two bytes at the end overwritten |
| `Token.TokenStore.FillTokenInfo` | auth/security_auth_enhance.c:904-941 | session and pack hold the combined token, or an empty one for an open |
| `Token.TokenStore.PostProcessToken` | auth/security_auth_enhance.c:1073-1125 | the new session, pack and client bytes on success and on every failure |
| `Timeout.MsecsToJiffies` | core/smc_smp.c:1668 | the least number of jiffies not shorter than the time |
| `Timeout.PromiseKept` | core/smc_smp.c:1664-1690 | the steps pass through t - 1, t, t + 1 and t + 2 (from t when t is 1) and add up to the larger of 15 seconds and t + 2 |
| `Timeout.PromiseIsBounded` | core/smc_smp.c:1656-1690 | the schedule ends after 15 seconds or at most two jiffies later, and a request for more than 15 seconds is kept at 15 seconds |
| `Timeout.TimeoutStep.Init` | core/smc_smp.c:1656-1690 | at most five positive steps are written, and they keep that promise; a zero request is one step of 15 seconds |
| `Timeout.TimeoutStep.Sleep` | core/smc_smp.c:1724-1753 | steps are slept one after the other, each at most once, until woken or out of steps; without a timer interrupt one at a time |

## Left out

- The order of a kernel list where it decides only which of several matches is taken: sessions found by id, services found by uuid, free blocks of one order.
- Corruption by a second `list_add_tail` of a node already listed: a free list that would be corrupted holds the page twice in the model.
- The values of the limits: sizes, counts and magic numbers are the constants of the source and are not derived from anything.
- Contents of mailbox blocks other than the load buffer, zeroing on allocation, and the failure of fixed-size memory copies and fills that have valid arguments.
- The sleep between two searches for a free slot: the model fails the call after one search without a free slot, and the real driver may search again.
- The device file of a closed device is freed after its close thread; the model clears the device's slots as the thread gives them up, which the driver leaves to that free.
- The session manager and the slot protocol are transition systems on values, because what is proved is about interleavings; update in place is modelled for the slot queue only.
- SessionLocks.NoDeadlock: g_load_app_lock, which an open takes and gives back under operation_lock while it loads the image (core/session_manager.c:802-824), is not modelled, and a call into the secure world is taken to return; the locks held for one critical section only (session_lock, g_service_list_lock) are inside the steps.
- The unmapping path that returns at once while the daemon is being killed, which leaves its buffers as they are.
- SharedMem.NothingLeaks: every mapping is closed once and under the address it was opened with; a mapping that the kernel splits or moves is closed twice or under another address, since opening the parts is not counted.
- ClientCall.Call.TcClientCall: other threads act on the shared memory while the call waits, but not on the mailbox pool, whose theorems about any history cover that; the secure side leaves the pointers in the command pack alone; whether a token step succeeds is given, not computed.
- ClientCall.Call.AllocRef: the physical address of a pool page is taken to be non-zero, so that the check for it fails exactly when no buffer was found.
- ImageLoader.FindLoadMem: no other thread frees blocks during the search; with such frees a size of 2048 bytes or less can be found.
- LogReader.TloggerReader.ReadOnce: the ring is one snapshot; the log writer runs in the secure world and is not part of this model, nor are failing user copies, which the driver ignores.
- TokenRuns.CallsMoveStamp: the secure world marks the token of a command it answers and leaves the rest of it; the session's token is 42 bytes long.
- Timeout.TimeoutStep.Sleep: kernel threads, which wait without a timeout, and the decision taken after the sleep are in the slot protocol.
- Cryptography, checksums, login data, CPU affinity, shadow threads, interrupts, power management, debug files, ioctl dispatch, agents, notifications and the command monitor.
- core/teek_client_api.c, core/cmdmonitor.c, core/tz_pm.c, core/tee_compat_check.c and core/teek_app_load.c: re-encoding of parameters, bookkeeping and file reading, each settled case by case.
