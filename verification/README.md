# BleskOS in Dafny

A model of the parts of BleskOS that keep state without needing hardware, with proofs of what they keep. Where the
source interleaves cores, interrupts or two address spaces, the model is a machine of small steps and the theorems are
about every run of it. Where the source is a loop over arrays, lists or a table, the model is a class or a method with
that loop, proved against a function, and the properties are proved about the function. Where the source does not do
what one would expect of it, there is a concrete input and the exact condition under which it does.

| module | what it models |
|---|---|
| `Lifecycle`, `LifecycleBooks`, `LifecycleTids`, `LifecycleNodes`, `LifecycleHeads`, `LifecycleParents`, `LifecycleMarks`, `LifecycleDirs` | creating, spawning and killing the threads of a process on several cores, one shared access per step, with the blocks for threads and counters that are freed and reused |
| `LifecycleAlone`, `LifecycleRaces`, `LifecycleFrees`, `LifecycleCuts` | what an undisturbed creation or kill does as a whole, and runs from a new process that go wrong |
| `ProcessRemoval`, `ProcessWalk`, `Chain` | core 0 taking a process out of the list the other cores walk, and count along without a lock; where the walks lead |
| `KernelScan`, `UserScan` | the scan loops that pick the next thread, as classes over their lists |
| `PageAllocator`, `PageStacks` | the page allocator: all cores as one machine, and its routines as classes over the stacks |
| `AmlGrammar`, `AmlMachine`, `AmlDescent`, `AmlBounds`, `AmlTree`, `AmlPackage`, `AmlChecks`, `AmlCleanup`, `AmlParser` | the AML rule table, one turn of the parser, its equality with recursive descent, its bounds, its tree, package lengths and what they bound, what its byte checks let through, freeing the tree, and the parser as a class with its 1024-entry stack |
| `AmlTerms`, `AmlApart` | the terms of the language as the ACPI Specification writes them in bytes, the tree of a term, and that different terms have different trees |
| `AmlLayout`, `AmlReading`, `AmlNames`, `AmlParts`, `AmlRoundTrip` | how trees lie in the parser's arena, how the parser reads names, values, packages and terms, and that it reads back what is written |
| `Ide`, `DiskTransfer` | a PIO read between interrupt, handler thread and timeout; cutting a request into commands and filling the descriptor table |
| `InputRing` | the ring for input events between kernel and program |
| `HardwareTree`, `Forest` | the device tree and its walk without a stack; first-child/next-sibling trees |
| `HBox`, `Line`, `Keyboard`, `Arithmetic` | wrapping a box in two passes, drawing a line, the scan code parser; facts about division |

Nodes on the heap (AML blocks, devices, threads in lists, processes) live in an arena and pointers are indices into it,
-1 being NULL; fresh memory is zeroed. Machine words are unbounded except where wrapping decides (`PageStacks`,
`KernelScan.Expired`).

## Results that contradict the source's intent

Each names a failing input or run, and the exact condition. `Fresh(s, t)` says that a run without an overtaken bitmap
store leads from `s` to `t`; `LifecycleAlone.FreshIsRun` gives its steps.

- Two threads of a process can hold one thread ID. The bitmap is read, searched, read again and stored (scheduler.c
  255-259), and a kill clears its bit by a load and a store too (1081). `LifecycleRaces.OneIdTwice`: two claims of one
  bit. `LifecycleRaces.OneIdTwiceWithoutClash`: a kill's store undoes a claim, and the bit is claimed again. Exactly
  when a store breaks the books is `LifecycleBooks.StepKeepsBooks`, over whole runs `LifecycleBooks.RunKeepsBooks`.
- A kill can unlink and free another thread than its victim: it compares the head of the list with the thread it found
  there before it looked for that one's children, and if one has been pushed meanwhile the failed exchange loads that
  and takes it instead (1010-1016, 1062-1071). `LifecycleHeads.KillHitsIff` says exactly when. The victim stays listed,
  its ID is given back and can go to a second thread: `LifecycleRaces.OneIdTwiceByMistake`.
- A creation can be turned away for lack of an ID although its core has fewer than 32 threads:
  `LifecycleRaces.NoIdWithRoom`; exactly when is `LifecycleTids.NoTidIff`.
- A kill can leave a child of its victim unmarked, so that its creator is dead: the kill stands on a block that another
  core frees and a third reuses (1051-1057, 1107). `LifecycleCuts.LeavesAnOrphan`; exactly when is
  `LifecycleParents.StepKeepsParents`, over whole runs `LifecycleParents.RunKeepsParents`.
- A kill can mark a thread that its victim did not create: the block is reused between the comparison and the mark
  (1054-1055). `LifecycleCuts.MarksAStranger`; exactly when is `LifecycleMarks.KillMarksOnlyItsChildren`.
- A page directory can be freed twice: its counter is lowered and then read again (1092, 1096).
  `LifecycleFrees.FreedTwice`. It can also be freed once although two killers raced, because the counter's block was
  reused: `LifecycleFrees.FreedOnceDespiteRace`. How often it is freed is `LifecycleDirs.FreedHowOften`.
- After such a double free two directories can share a counter, and one be freed while a thread uses it:
  `LifecycleFrees.FreedInUse`. The counters stay right exactly as long as nothing is freed twice:
  `LifecycleDirs.RunKeepsSound`.
- A core that counts processes takes no lock and can go on from a process that has been freed (117-125, 992):
  `ProcessRemoval.ReadsFreed`; exactly when is `ProcessRemoval.StepKeepsReaders`.
- A creator that is interrupted between its look at the current kernel thread and its store (389-390) can cost another
  thread its turns: with `k` such creators one thread gets `k` + 1 and another none, `KernelScan.LateStoresStarve`. By how
  much the turns of two threads differ is `KernelScan.TurnsCount`, and which stores count `KernelScan.LateMeansMoved`.
- A contiguous allocation of size 0, or of a size whose rounding wraps around, returns a page that stays on the free
  stack: `PageStacks.GrantedPageIsTaken`. It also refuses unless four times the requested pages are free, because a
  byte factor is applied to a word pointer (physical_memory.c 230): `PageStacks.GlobalStack.AllocContinuous`.
- A DMA request of 2044 sectors of 4096 bytes does not fit one descriptor page: `DiskTransfer.BigSectorsDoNotFit`;
  exactly when a request fits is `DiskTransfer.PrdtFitsIff`.
- A DMA command for 2044 sectors below sector 2^24 asks the disk for 252: `DiskTransfer.AskedIff`, with the exact
  condition.
- The two passes of the box layout disagree when elements have no width in certain places, as for widths 0 and 5 with
  limit 3 (`HBox.TwoForOne`); `HBox.PassesAgreeIff` gives the places exactly.
- The check for a lead name character of an expected AML state never fails (aml/main.c 289): `AmlChecks.LeadGuardIsBlind`
  and, exactly for which bytes it matters, `AmlChecks.GuardAndChoiceDiffer`. A name segment is accepted, whatever its
  characters, exactly if a fifth byte follows it in its section (525): `AmlChecks.NameSegAcceptedIff`, and
  `AmlChecks.LastNameIsRefused` for code that consists of one name. So for a path of several segments (557), which is
  refused although it lies in its section if it ends with it: `AmlChecks.PathAcceptedIff`, `AmlChecks.LastPathIsRefused`,
  and `AmlChecks.OnePathIsRefused` for code that consists of one such path. What that means for whole code is
  `AmlRoundTrip.RoundTrip`: code with a scope or a device in it that has a name and nothing else, which the ACPI
  Specification allows (20.2.5.1, 20.2.5.2), is refused, as `AmlRoundTrip.EmptyDeviceIsRefused` shows of one device. Of
  the code of terms only that is, and what has an undefined region space or a reserved field flag in it.
- The flags of a method are read with a bit missing in the argument count (670-672); they are right exactly for bytes
  below 4, as is the count exactly for at most three arguments: `AmlChecks.MethodFlagsRightIff`.
- A line that starts at a negative coordinate is not drawn at all, although the loop guards against drawing such points
  (screen.c 119, 123): the coordinate is compared with an unsigned width. `Line.NegativeStart`; a line is drawn whole
  exactly under the condition of `Line.DrawnWholeIff`.

## Model

| member | source | states |
|---|---|---|
| LifecycleBooks.StepKeepsCounts | source/kernel/hardware/devices/cpu/scheduler.c:486-487 | every step of create, spawn and kill keeps the thread counts equal to what is listed plus what is in transit, and no incarnation twice |
| LifecycleBooks.StepKeepsBooks | source/kernel/hardware/devices/cpu/scheduler.c:421-632 | with the TID bits equal to the IDs held as well, every step keeps all of it if and only if it is not an overtaken store of a bitmap: a claim of a bit that is set in memory, a claim or kill whose loaded word differs from memory outside its own bit, or the store of a kill that unlinked another thread than the one whose bit it clears |
| LifecycleBooks.TidsCollideIffClash | source/kernel/hardware/devices/cpu/scheduler.c:254-265 | from right books, a step gives some TID two holders exactly when it is a claim's store and its bit is already set in memory |
| LifecycleBooks.RunKeepsBooks | source/kernel/hardware/devices/cpu/scheduler.c:1043-1112 | over every run, in any interleaving of the cores, the books are right at every moment if and only if no store of a bitmap is overtaken |
| LifecycleBooks.StepChange | source/kernel/hardware/devices/cpu/scheduler.c:486-500 | conservation: by how much each step changes each count of holders, over lists and unfinished operations together |
| LifecycleBooks.BitAfterStep | source/kernel/hardware/devices/cpu/scheduler.c:1081 | a store of a claim or of a kill replaces a core's whole bitmap by the word loaded earlier with one bit changed; no other step changes a bit |
| Lifecycle.LowestClear | source/kernel/hardware/devices/cpu/scheduler.c:254-265 | the search finds a clear bit unless all are set |
| LifecycleAlone.ListWalkAlone | source/kernel/hardware/devices/cpu/scheduler.c:1051-1058 | a kill's walk, block by block, through what is left of a list that nobody disturbs marks exactly the threads that name its TID |
| LifecycleAlone.KillAlone | source/kernel/hardware/devices/cpu/scheduler.c:1043-1112 | a kill that runs alone unlinks its victim, gives back what it held and marks exactly the listed threads that name its TID |
| LifecycleAlone.CreateAlone | source/kernel/hardware/devices/cpu/scheduler.c:421-510 | a creation or spawn that runs alone takes the lowest clear bit and pushes one thread |
| LifecycleRaces.CreatedIs | source/kernel/hardware/devices/cpu/scheduler.c:447-499 | what that changes: one bit, one count, one block, one thread at the head of its list, and no other core's operation |
| LifecycleRaces.KilledIs | source/kernel/hardware/devices/cpu/scheduler.c:1061-1107 | what a kill that ran alone changes: one bit, one count, the victim out of its list and its block on top of the pool |
| LifecycleNodes.StepKeepsHeap | source/kernel/hardware/devices/cpu/scheduler.c:1061-1107 | every step keeps: each block is free or holds one thread, free blocks are free once, following the pointers from a list's head meets its threads in order, and the block a kill found before its victim is still the one before it, whatever is pushed meanwhile |
| LifecycleNodes.UnlinkLinked | source/kernel/hardware/devices/cpu/scheduler.c:1061-1074 | redirecting one pointer takes exactly the victim out of a linked list |
| LifecycleNodes.ReachableHeap | source/kernel/hardware/devices/memory/memory_allocators.c:775-835 | the same in every reachable state, with blocks freed and reused |
| Lifecycle.StepKeepsShape | source/kernel/hardware/devices/cpu/scheduler.c:421-632 | every step keeps threads on the core their TID belongs to, and every unfinished operation's creator or victim in its list |
| LifecycleTids.ReachableCountsAreRight | source/kernel/hardware/devices/cpu/scheduler.c:132-232 | in every reachable state, whatever the stores, the thread counts are right |
| LifecycleTids.ReachableIsBooked | source/kernel/hardware/devices/cpu/scheduler.c:132-232 | from a new process on, every run without an overtaken store ends with right books and no TID held twice |
| LifecycleTids.ListedTidsDiffer | source/kernel/hardware/devices/cpu/scheduler.c:254-265 | two places in the lists that hold the same TID, or the same incarnation, are the same place |
| LifecycleTids.NoTidIff | source/kernel/hardware/devices/cpu/scheduler.c:447-450 | the exit for lack of TIDs is taken exactly when the counted threads of the core and the operations under way on it hold all 32 |
| LifecycleTids.RoomMeansTid | source/kernel/hardware/devices/cpu/scheduler.c:426-450 | with nothing else under way on it, a core with fewer than 32 threads never takes that exit |
| LifecycleTids.QuietCounts | source/kernel/hardware/devices/cpu/scheduler.c:486-487 | between operations each core's thread count is its list's length and the process's is their sum |
| LifecycleTids.QuietBits | source/kernel/hardware/devices/cpu/scheduler.c:1081 | between operations a bit is set exactly when a thread of that core's list has the TID |
| LifecycleTids.NoThreadsNoReturn | source/kernel/hardware/devices/cpu/scheduler.c:930-933 | a process whose thread count is zero has empty lists and no creation under way, and its count stays zero |
| LifecycleRaces.OneIdTwice | source/kernel/hardware/devices/cpu/scheduler.c:255-259 | a run from a new process in which nothing is overtaken, and one more store after which two threads hold one TID |
| LifecycleHeads.KillHitsIff | source/kernel/hardware/devices/cpu/scheduler.c:1010-1074 | over every run from the start of a kill to the step that unlinks: the thread unlinked is the victim if and only if the victim was not the first of its list or nothing has been pushed on the list since; the ID to be given back is the victim's in any case |
| LifecycleHeads.StepKeepsNew | source/kernel/hardware/devices/cpu/scheduler.c:488-500 | every step keeps: threads not listed yet, and threads pushed in front of the victim of a kill under way, have no children |
| LifecycleRaces.OneIdTwiceByMistake | source/kernel/hardware/devices/cpu/scheduler.c:1062-1081 | a run from a new process in which a kill unlinks a thread pushed meanwhile, its store undoes no other and is no clash, and two threads come to hold the victim's TID |
| LifecycleRaces.MissIt | source/kernel/hardware/devices/cpu/scheduler.c:1062-1081 | the same from every state in which a core may kill the first thread of its list, whose bit is below the lowest clear one, while another may create there |
| LifecycleRaces.OneIdTwiceWithoutClash | source/kernel/hardware/devices/cpu/scheduler.c:1081 | a run from a new process in which only a kill's store is overtaken, no claim meets a bit that is set, and two threads come to hold one TID |
| LifecycleRaces.LoseStore | source/kernel/hardware/devices/cpu/scheduler.c:1081 | the same from every state in which a core may create on another that may kill a thread with a bit above the lowest clear one |
| LifecycleRaces.NoIdWithRoom | source/kernel/hardware/devices/cpu/scheduler.c:447-450 | a run from a new process to a core with 31 counted threads that turns a creation away for lack of an ID |
| LifecycleParents.StepKeepsParents | source/kernel/hardware/devices/cpu/scheduler.c:1047-1059 | every step keeps: an unmarked thread's creator is listed and a kill of it has a way ahead to the thread; if and only if the step does not reuse the only way's block |
| LifecycleParents.RunKeepsParents | source/kernel/hardware/devices/cpu/scheduler.c:1047-1059 | over every run that holds at every moment if and only if no block on the way of a kill is reused |
| LifecycleParents.CreatorsAreAlive | source/kernel/hardware/devices/cpu/scheduler.c:460 | after every such run from a new process the creator of a listed, unmarked thread is listed: the same incarnation, not a later holder of its TID |
| LifecycleParents.NoOrphanAtUnlink | source/kernel/hardware/devices/cpu/scheduler.c:1061-1074 | when a kill unlinks a thread, its victim or one pushed in front of it, no list has an unmarked child of that thread |
| LifecycleMarks.KillMarksOnlyItsChildren | source/kernel/hardware/devices/cpu/scheduler.c:1054-1055 | of the listed threads a kill about to mark newly marks the one in its block, and that is the victim's own child if and only if the block still holds the thread whose creator was compared |
| LifecycleMarks.ReachableFamily | source/kernel/hardware/devices/cpu/scheduler.c:1047-1059 | what that needs is so after every run from a new process without overtaken stores and lost ways |
| LifecycleCuts.LeavesAnOrphan | source/kernel/hardware/devices/cpu/scheduler.c:1051-1057 | a run from a new process after which a listed thread is unmarked and its creator is gone |
| LifecycleCuts.MarksAStranger | source/kernel/hardware/devices/cpu/scheduler.c:1054-1055 | a run from a new process after which a thread is marked whose creator is listed, unmarked and not being killed |
| LifecycleDirs.NeverFreedInUse | source/kernel/hardware/devices/cpu/scheduler.c:1091-1103 | after every run from a new process in which no directory is freed twice, no listed or arriving thread uses a freed directory, and each counter counts its directory's users |
| LifecycleDirs.StepKeepsSound | source/kernel/hardware/devices/cpu/scheduler.c:1091-1103 | every step keeps the counters equal to the users, each in a block of its own, if and only if it does not free a directory that has been freed |
| LifecycleDirs.RunKeepsSound | source/kernel/hardware/devices/cpu/scheduler.c:1091-1103 | over every run they stay so at every moment if and only if no directory is freed twice |
| LifecycleDirs.FreedHowOften | source/kernel/hardware/devices/cpu/scheduler.c:1092-1102 | a directory is freed once for the last killer plus once for every other killer then between lowering and reading the counter, less the reads that found it above zero; at least once, and exactly once when all the others found it so |
| LifecycleDirs.MissMeansReused | source/kernel/hardware/devices/cpu/scheduler.c:1102 | such a read looks at the counter of another directory, to which the block has been given |
| LifecycleDirs.NoUserNoReturn | source/kernel/hardware/devices/cpu/scheduler.c:456-459 | a directory without users is never taken into use again |
| LifecycleFrees.FreedTwice | source/kernel/hardware/devices/cpu/scheduler.c:1092-1096 | a run from a new process after which a directory has been freed twice |
| LifecycleFrees.FreedOnceDespiteRace | source/kernel/hardware/devices/cpu/scheduler.c:577-578 | a run from a new process in which two killers raced for a directory and it was freed once |
| LifecycleFrees.FreedInUse | source/kernel/hardware/devices/cpu/scheduler.c:1096-1102 | a run from a new process after which a listed thread's directory is freed |
| ProcessRemoval.StepKeepsInv | source/kernel/hardware/devices/cpu/scheduler.c:911-1003 | every step of core 0's removal, of the other cores' walks and of counting cores keeps list, cursors and locks in order |
| ProcessRemoval.CursorsAreAlive | source/kernel/hardware/devices/cpu/scheduler.c:911-928 | in every reachable state every core's scheduler cursor, and what it is about to put there, is NULL or an unfreed process |
| ProcessRemoval.RepairedIsOutOfReach | source/kernel/hardware/devices/cpu/scheduler.c:978-997 | after the repair loop no scheduler cursor, no pending move and no list link leads to the removed process |
| ProcessRemoval.FreedStaysFreed | source/kernel/hardware/devices/cpu/scheduler.c:990-997 | over every further run a freed process stays out of reach of the schedulers |
| ProcessRemoval.UnlinkCloses | source/kernel/hardware/devices/cpu/scheduler.c:934-976 | whether found behind the previous process, at the head or by the search, the victim alone leaves the list |
| ProcessRemoval.RepairIsNotStuck | source/kernel/hardware/devices/cpu/scheduler.c:979-985 | the repair loop waits only for locks whose holders can go on |
| ProcessRemoval.StepKeepsReaders | source/kernel/hardware/devices/cpu/scheduler.c:117-125 | every step keeps the cores that count without a lock on unfreed processes if and only if it does not free one under them |
| ProcessRemoval.RunKeepsReaders | source/kernel/hardware/devices/cpu/scheduler.c:117-125 | over every run, at every moment, they are about to read unfreed processes only if and only if no process is freed under one of them |
| ProcessRemoval.ReadsFreed | source/kernel/hardware/devices/cpu/scheduler.c:992 | a run from the start after which a counting core reads a freed process |
| ProcessWalk.ReadsNext | source/kernel/hardware/devices/cpu/scheduler.c:915-921 | what a core reads under its lock is the next process of the list: from NULL the first, from a process the one behind it, from the last NULL |
| ProcessWalk.WalkGoesOn | source/kernel/hardware/devices/cpu/scheduler.c:911-928 | while no process comes or goes, in any interleaving of the cores, m moves of a core lead m processes further along the list |
| ProcessWalk.WalkVisitsAll | source/kernel/hardware/devices/cpu/scheduler.c:911-928 | so one move more than there are processes, from NULL, visits every process exactly once, in order, and ends at NULL |
| ProcessWalk.MoveLands | source/kernel/hardware/devices/cpu/scheduler.c:911-928 | an idle core with a free lock can always make a move, and it leads to the next process and changes nothing else |
| ProcessWalk.CountLands | source/kernel/hardware/devices/cpu/scheduler.c:117-125 | the moves of a core that counts lead along the list too |
| ProcessWalk.RepairedStands | source/kernel/hardware/devices/cpu/scheduler.c:978-985 | a core that stands on the process being removed is put on the one that followed it when it was unlinked, whatever other steps come between; every other core keeps its cursor |
| Chain.UnlinkChained | source/kernel/hardware/devices/cpu/scheduler.c:946-956 | redirecting one link takes exactly one node out of a list and keeps the order of the others |
| Chain.WalkFinds | source/kernel/hardware/devices/cpu/scheduler.c:947-955 | the search from the head finds the node before the one to unlink |
| KernelScan.ThreadList.Create | source/kernel/hardware/devices/cpu/scheduler.c:375-392 | a creation that nobody comes between: pushed at the head; the cursor stays on its thread, one place further, or is set to the new one |
| KernelScan.ThreadList.Push | source/kernel/hardware/devices/cpu/scheduler.c:375-386 | a new thread is pushed at the head; the cursor stays on its thread |
| KernelScan.ThreadList.SetCurrent | source/kernel/hardware/devices/cpu/scheduler.c:390 | the creator's store puts the cursor on the new thread, wherever it was |
| KernelScan.ThreadList.Unlink | source/kernel/hardware/devices/cpu/scheduler.c:1175-1217 | both branches take exactly the killed thread out of the linked list |
| KernelScan.ThreadList.Scan | source/kernel/hardware/devices/cpu/scheduler.c:1153-1264 | the loop ends, by list length and distance to its end, with the list and the cursor the scan function says; the thread it switches to is not blocked and not asleep or has slept to the end, it alone is woken, and no other status changes |
| KernelScan.ExpiredIffLater | source/kernel/hardware/devices/cpu/scheduler.c:1246-1254 | the wrapped signed comparison of the clock with the end of a sleep is right for differences that fit a signed word |
| KernelScan.ExpiredIffSlept | source/kernel/hardware/devices/cpu/scheduler.c:1246-1254 | for every clock and end of sleep: the comparison says that a sleep is over if and only if it ended 1 to 2^31 - 1 ticks ago, and otherwise it ends 0 to 2^31 ticks from now |
| KernelScan.ScanPicks | source/kernel/hardware/devices/cpu/scheduler.c:1170-1246 | a scan removes only threads to be killed, keeps the others in order, and switches only to a ready one |
| KernelScan.ScanSkips | source/kernel/hardware/devices/cpu/scheduler.c:1242-1254 | in fields: a scan switches to a thread that is not blocked and not asleep or has slept to the end, and every thread it passed over since it last began at the head is blocked or asleep with the end of its sleep not yet past |
| KernelScan.ScanIsSearch | source/kernel/hardware/devices/cpu/scheduler.c:1153-1246 | without kills a scan takes the first ready thread behind the cursor |
| KernelScan.ScanIsFair | source/kernel/hardware/devices/cpu/scheduler.c:1153-1264 | in any window without kills two threads ready at every scan are switched to equally often up to one and the number of late stores, whatever other threads block, wake or are created |
| KernelScan.TurnsCount | source/kernel/hardware/devices/cpu/scheduler.c:389-390 | exactly: the difference in turns is the change of whose turn it is, less what the stores of creators have changed of it |
| KernelScan.LateMeansMoved | source/kernel/hardware/devices/cpu/scheduler.c:389-390 | a store is late exactly when it moves the cursor in or out of the stretch between the two threads; not if the cursor is NULL and the new thread in front of both |
| KernelScan.LateStoresStarve | source/kernel/hardware/devices/cpu/scheduler.c:389-390 | for every k, a window from a cursor at NULL with k late stores in which one thread gets k + 1 turns and the other none |
| UserScan.ScanSettles | source/kernel/hardware/devices/cpu/scheduler.c:1025-1059 | a scan from the head, or one that kills, leaves no thread before its pick, and none at all at the end of the list, to be killed or not yet told to go |
| UserScan.SignalActs | source/kernel/hardware/devices/cpu/scheduler.c:1025-1042 | a thread newly told to go is killed or can run its handler at once, and the signal is delivered once |
| UserScan.SignalHeeds | source/kernel/hardware/devices/cpu/scheduler.c:1025-1042 | in fields: a thread that is told to go and has not got the signal gets it, neither sleeps nor is blocked, and is to be killed if it has no handler; any other thread is left as it is |
| UserScan.ShorterMeansSettled | source/kernel/hardware/devices/cpu/scheduler.c:1043-1112 | a scan that shortened the list has settled everything up to its pick |
| UserScan.ThreadLists.MarkChildren | source/kernel/hardware/devices/cpu/scheduler.c:1047-1059 | the loops over cores and threads: for every core and place, a thread is told to go if it was or its creator is the ID, and nothing else of any thread changes |
| UserScan.MarksExactly | source/kernel/hardware/devices/cpu/scheduler.c:1047-1059 | the same of the function the scans use |
| UserScan.KilledAreGone | source/kernel/hardware/devices/cpu/scheduler.c:1043-1112 | the IDs of the threads a scan kills are those missing from its list afterwards, as multisets |
| UserScan.KillsOnlyDoomed | source/kernel/hardware/devices/cpu/scheduler.c:1025-1045 | a scan kills only threads that were to be killed, or are told to go, before it or because it killed their creator, and have neither a handler nor got the signal |
| UserScan.ScanTells | source/kernel/hardware/devices/cpu/scheduler.c:1047-1059 | after a scan each thread of another core is as before, but for being told to go exactly if its creator is one of the IDs the scan killed |
| UserScan.ScanLeaves | source/kernel/hardware/devices/cpu/scheduler.c:1025-1059 | each thread that stays in the scanned list was in it before, is told to go exactly if its creator was killed, and changes no more than a signal does; the one switched to is not blocked and not asleep or has slept to the end |
| UserScan.ScanSkips | source/kernel/hardware/devices/cpu/scheduler.c:1113-1122 | the threads a scan passed over since it last began at the head are blocked or asleep with the end of their sleep not yet past |
| UserScan.ThreadLists.Scan | source/kernel/hardware/devices/cpu/scheduler.c:1007-1122 | the user scan ends, with all lists and the cursor the scan function says |
| UserScan.ScanPicks | source/kernel/hardware/devices/cpu/scheduler.c:1007-1146 | a scan keeps the threads of the other cores, and in its own list at least those no scan kills, all in order, and switches only to one that can run |
| PageAllocator.StepConserves | source/kernel/hardware/devices/memory/physical_memory.c:132-220 | every step of every core leaves every page in as many places as before |
| PageAllocator.StepKeepsInv | source/kernel/hardware/devices/memory/physical_memory.c:132-220 | every step keeps the lock, the phases, the sizes and the absence of duplicates |
| PageAllocator.PagesArePartitioned | source/kernel/hardware/devices/memory/physical_memory.c:132-220 | over every run each boot page is in exactly one of global stack, local stack, transit, caller's hands |
| PageAllocator.HeldPageIsNotHandedOutAgain | source/kernel/hardware/devices/memory/physical_memory.c:166-195 | a page handed out is one no caller holds |
| PageAllocator.OverflowPanicIsUnreachable | source/kernel/hardware/devices/memory/physical_memory.c:197-220 | no run whose callers free what they hold reaches the overflow panic |
| PageAllocator.OutOfPagesHoard | source/kernel/hardware/devices/memory/physical_memory.c:175-178 | at an out-of-memory panic the global stack is empty and each core hoards at most 255 pages |
| PageStacks.LoadRun | source/kernel/hardware/devices/memory/physical_memory.c:179-184 | the refill loop of one core, run alone, is the batch move of the code |
| PageStacks.SpillRun | source/kernel/hardware/devices/memory/physical_memory.c:206-214 | the spill loop of one core, run alone where there is room, is the batch move of the code |
| PageStacks.LocalStack.Refill | source/kernel/hardware/devices/memory/physical_memory.c:173-187 | an empty local stack gets the top 64 pages, or all, in the order they are popped |
| PageStacks.LocalStack.AllocPage | source/kernel/hardware/devices/memory/physical_memory.c:166-195 | the page returned and both stacks afterwards, refill and panic included |
| PageStacks.LocalStack.FreePage | source/kernel/hardware/devices/memory/physical_memory.c:197-220 | both stacks afterwards, the spill of 128 pages included, and exactly when the overflow panic is taken |
| PageStacks.GlobalStack.AllocContinuous | source/kernel/hardware/devices/memory/physical_memory.c:222-266 | a grant cuts a run of n consecutive pages out and keeps the rest in order; a refusal changes nothing and means that there is no such run or fewer than 4n pages |
| PageStacks.CutTakesTheBlock | source/kernel/hardware/devices/memory/physical_memory.c:256-262 | exactly the n pages of the returned block leave the stack |
| PageStacks.GrantedPageIsTaken | source/kernel/hardware/devices/memory/physical_memory.c:223-227 | the page returned has left the stack if and only if the size is neither 0 nor wraps when rounded |
| AmlGrammar.TableMakesProgress | source/kernel/firmware/acpi/aml/aml_definition.c:186-656 | a rule that consumes nothing replaces its state by ones of lower rank and keeps an obligation to consume |
| AmlGrammar.TableIsBalanced | source/kernel/firmware/acpi/aml/aml_definition.c:186-656 | exactly the rules that open a section push one state that closes it |
| AmlMachine.Step | source/kernel/firmware/acpi/aml/main.c:247-445 | a turn stays within the code and keeps the pointers between blocks valid |
| AmlMachine.ConsumeAdvances | source/kernel/firmware/acpi/aml/main.c:453-675 | every consumer that accepts has read at least one byte and none past the code |
| AmlMachine.Bounded | source/kernel/firmware/acpi/aml/main.c:490-497 | a package length changes no link |
| AmlDescent.MachineRefinesDescent | source/kernel/firmware/acpi/aml/main.c:247-445 | running a state on top of any stack reads the same bytes and builds the same blocks as parsing it recursively and running the rest |
| AmlDescent.OverflowIffTooDeep | source/kernel/firmware/acpi/aml/main.c:341-346 | the overflow exit is taken exactly when an unlimited run needs more than 1023 entries |
| AmlDescent.BoundedRunRefinesDescent | source/kernel/firmware/acpi/aml/main.c:341-353 | with enough stack the bounded machine is the recursive descent |
| AmlDescent.TurnIsLighter | source/kernel/firmware/acpi/aml/main.c:340-444 | each turn consumes a byte or makes the stack lighter |
| AmlBounds.TurnLowersPotential | source/kernel/firmware/acpi/aml/aml_definition.c:200-225 | five per byte left plus the charges of the states on the stack falls with every turn |
| AmlBounds.ParserStops | source/kernel/firmware/acpi/aml/main.c:247-445 | n bytes take at most 5n+1 turns if accepted and 5n+4094 in any case |
| AmlTree.StepKeepsTidy | source/kernel/firmware/acpi/aml/main.c:296-312 | every turn keeps one tree with `left` as parent, and as many open sections as closing states on the stack; an error leaves a tree too |
| AmlTree.TidyAtEveryTurn | source/kernel/firmware/acpi/aml/main.c:247-445 | the same after any number of turns on any bytes; no block lies deeper than 1023; no section is closed that is not open |
| AmlTree.BlocksAreReachedOnce | source/kernel/firmware/acpi/aml/main.c:296-312 | after any number of turns every block is reached exactly once from the table block |
| AmlTree.CreateGrows | source/kernel/firmware/acpi/aml/main.c:302-310 | a new block is linked as one new last leaf |
| AmlTree.TurnsFollowTheRun | source/kernel/firmware/acpi/aml/main.c:247-451 | the turns counted here are those of the bounded run |
| AmlPackage.LengthRoundTrip | source/kernel/firmware/acpi/aml/main.c:453-502 | a package length encoded as section 20.2.4 of the ACPI Specification says is read back exactly, with all its bytes; zero is refused |
| AmlPackage.PackageBoundsItsSection | source/kernel/firmware/acpi/aml/main.c:490-497 | a package length sets the end of the block that opened the section and of the blocks in it so far, and of no other block |
| AmlPackage.TakenPassesItsCondition | source/kernel/firmware/acpi/aml/main.c:256-294 | an alternative that is taken passes the check of its own condition on the next turn |
| AmlPackage.NothingFits | source/kernel/firmware/acpi/aml/main.c:423-433 | the exit "no state matched" means that no alternative's condition holds |
| AmlPackage.TakenIsFirst | source/kernel/firmware/acpi/aml/main.c:362-421 | what is taken is the first alternative whose condition holds, the empty alternative exactly where that comes before any such, and the search fails exactly where it first comes to a condition that would read behind the code |
| AmlChecks.LeadGuardIsBlind | source/kernel/firmware/acpi/aml/main.c:288-293 | a state that expects a lead name character is entered on every byte of its section |
| AmlChecks.GuardAndChoiceDiffer | source/kernel/firmware/acpi/aml/main.c:288-293 | it lets through wrongly exactly the bytes that are no lead name characters, which the choice of alternatives refuses |
| AmlChecks.NameSegAcceptedIff | source/kernel/firmware/acpi/aml/main.c:522-544 | a name segment is accepted, whatever its characters, if and only if a fifth byte follows it in its section |
| AmlChecks.LastNameIsRefused | source/kernel/firmware/acpi/aml/main.c:525-528 | code that consists of one name is refused |
| AmlChecks.PathAcceptedIff | source/kernel/firmware/acpi/aml/main.c:546-581 | a path of several segments is accepted, whatever its characters, if and only if one more byte of its section follows it |
| AmlChecks.LastPathIsRefused | source/kernel/firmware/acpi/aml/main.c:557-560 | a path whose last byte is the last of its section is refused, however many segments it has |
| AmlChecks.OnePathIsRefused | source/kernel/firmware/acpi/aml/main.c:557-560 | code that consists of one path of one segment is refused |
| AmlChecks.MethodFlagsRightIff | source/kernel/firmware/acpi/aml/main.c:669-672 | the fields of a method's flags are those of section 20.2.5.2 of the ACPI Specification exactly for bytes below 4, the argument count exactly for at most three arguments |
| AmlChecks.FieldFlagsAreWhole | source/kernel/firmware/acpi/aml/main.c:645-652 | an accepted field flag byte is read into its fields without loss |
| AmlChecks.GuardIsTheChoice | source/kernel/firmware/acpi/aml/main.c:256-421 | on opcodes the check before a state and the choice between alternatives agree |
| AmlChecks.ParseStaysInside | source/kernel/firmware/acpi/aml/main.c:247-445 | at every turn of every parse, whatever the bytes: no byte is read behind the end of the section the parser is in |
| AmlChecks.BlocksStartAtOpcodes | source/kernel/firmware/acpi/aml/main.c:256-300 | after any number of turns on any bytes, every block made for an opcode starts at that opcode |
| AmlRoundTrip.RoundTrip | source/kernel/firmware/acpi/aml/main.c:247-445 | for all scopes, devices, methods, operation regions, fields, conversions and constants, nested at will and written in the bytes of section 20.2 of the ACPI Specification: the parser comes to the end of the code if and only if no name is the end of its package, no region is in an undefined space and no field has a reserved flag; then it needs exactly as many stack entries as the terms are deep, and has built their tree: kinds, order and values |
| AmlRoundTrip.EmptyDeviceIsRefused | source/kernel/firmware/acpi/aml/main.c:525-528 | code that consists of the device "DEV0" with nothing in it is refused |
| AmlRoundTrip.BoundedRoundTrip | source/kernel/firmware/acpi/aml/main.c:341-353 | with the stack it has, it accepts the code of such terms exactly if they take at most 1023 entries, and then the tree is theirs |
| AmlRoundTrip.HandedTree | source/kernel/firmware/acpi/aml/main.c:224-451 | the same of the tree that is handed to the caller |
| AmlRoundTrip.TreeHasOneCode | source/kernel/firmware/acpi/aml/aml_definition.c:186-656 | the tree is that of no other terms |
| AmlApart.TermsApart | source/kernel/firmware/acpi/aml/aml_definition.c:186-656 | terms with the same trees are the same: names, flags, values and all that is in them |
| AmlRoundTrip.TermsRead | source/kernel/firmware/acpi/aml/aml_definition.c:200-225 | terms that fill a section are read as their trees, one behind the other, or refused exactly for the reasons of the round trip |
| AmlRoundTrip.RegionRead | source/kernel/firmware/acpi/aml/aml_definition.c:425-434 | an operation region is read as name, space, offset and length, in the order in which section 20.2.5.2 writes them, or refused exactly if its space is neither a defined one nor a vendor's |
| AmlNames.NameRead | source/kernel/firmware/acpi/aml/aml_definition.c:356-423 | a name of section 20.2.2, with root or carets and any number of segments, is read as one block with its text, and refused exactly if its last segment is the end of its section |
| AmlParts.LengthRead | source/kernel/firmware/acpi/aml/main.c:453-502 | a package length becomes the first block of its section, and the section ends where it says |
| AmlParts.ElementsRead | source/kernel/firmware/acpi/aml/aml_definition.c:579-616 | the named fields up to the end of a package are read in order, each with its segment and its number of bits |
| AmlReading.RunsThen | source/kernel/firmware/acpi/aml/main.c:337-358 | states are worked off one after the other, and those that wait count as stack entries |
| AmlLayout.GrowsSection | source/kernel/firmware/acpi/aml/main.c:296-312 | what is parsed in a new section becomes the children of the block that opened it |
| AmlLayout.ChainIsRead | source/kernel/firmware/acpi/aml/main.c:296-312 | a stretch of blocks laid out as trees reads as these trees along `right` and `down` |
| AmlCleanup.FreesEachBlockOnce | source/kernel/firmware/acpi/aml/main.c:181-184 | zero block plus tree are all blocks, each freed once |
| AmlCleanup.FreePartOfTree | source/kernel/firmware/acpi/aml/main.c:156-179 | the loop frees in the order of the recursive definition, looks only at blocks it has not freed, and its 1024-slot stack suffices |
| AmlCleanup.Descend | source/kernel/firmware/acpi/aml/main.c:164-167 | going below a block cuts its link, stays within the slots and keeps what remains to be freed |
| AmlParser.Parser.ProcessCode | source/kernel/firmware/acpi/aml/main.c:224-451 | on every table, the empty one included: it stops, returns the tree of the bounded machine without its zero block, or frees everything |
| AmlParser.Parser.PushStates | source/kernel/firmware/acpi/aml/main.c:341-354 | the downward loop puts the states in front of the rest of the stack, or reports that 1023 entries do not suffice |
| AmlParser.Parser.BoundSection | source/kernel/firmware/acpi/aml/main.c:490-497 | the loop over siblings sets the ends the function says |
| AmlParser.Parser.Choose | source/kernel/firmware/acpi/aml/main.c:362-421 | the loop over alternatives finds the first that can be taken |
| AmlParser.Parser.Round | source/kernel/firmware/acpi/aml/main.c:247-445 | one round on fields and stack array is one turn of the machine |
| AmlParser.RefusalFreesEverything | source/kernel/firmware/acpi/aml/main.c:229-242 | at whatever turn a parse fails, freeing then meets each block made so far exactly once |
| Ide.StepKeepsInv | source/kernel/hardware/controllers/ide/ide.c:289-377 | every step of device, interrupt, handler thread and timeout keeps the command in order |
| Ide.ReadIsSafe | source/kernel/hardware/controllers/ide/ide.c:345-362 | in every run calls, expected and max stay in order with a gap of at most one, the waiting thread is woken at most once, blocks arrive in order, and completion means all have arrived |
| Ide.WokenExactlyOnce | source/kernel/hardware/controllers/ide/ide.c:460-490 | runs are bounded, and when nothing can happen any more the waiting thread has been woken exactly once |
| Ide.NeverStuck | source/kernel/hardware/controllers/ide/ide.c:369-377 | until the wake-up, interrupt, handler thread or timeout can go on without the device |
| Ide.ResultIsFinal | source/kernel/hardware/controllers/ide/ide.c:487-489 | after the wake-up no step changes the status the waiting thread returns |
| Ide.WakerDecides | source/kernel/hardware/controllers/ide/ide.c:312-377 | the step that wakes the waiting thread decides what it finds for good: a timeout "timeout", the handler thread "completed", an interrupt "fault" exactly if the device reported one |
| Ide.FaultWakes | source/kernel/hardware/controllers/ide/ide.c:312-341 | a fault taken while an interrupt is expected wakes the waiting thread |
| DiskTransfer.FillPrdt | source/kernel/hardware/controllers/ide/ide.c:401-424 | for every buffer: it stays inside the table exactly if the table has an entry for each page touched; then the entries concatenate to the physical image of the buffer, none crosses a page and only the last is flagged; otherwise what it has written is a beginning of the image |
| DiskTransfer.PrdtFitsIff | source/kernel/hardware/controllers/ide/ide.c:401-424 | one page of entries suffices exactly for buffers of at most 2 MiB counted from the start of their first page |
| DiskTransfer.ChunkFits | source/kernel/hardware/devices/hard_disk/parallel_ata.c:84-87 | 2044 sectors of 512 bytes need at most 257 entries |
| DiskTransfer.BigSectorsDoNotFit | source/kernel/hardware/devices/hard_disk/parallel_ata.c:200 | 2044 sectors of 4096 bytes never fit |
| DiskTransfer.Transfer | source/kernel/hardware/devices/hard_disk/parallel_ata.c:108-168 | the commands of a read or write ask for every sector once and in order, each within the maximum; a failing command ends the request, and what was sent is a beginning of it |
| DiskTransfer.TransferDma | source/kernel/hardware/devices/hard_disk/parallel_ata.c:108-137 | a DMA request of 512-byte sectors never leaves the table; its commands ask for each sector once and in order, each within the maximum, and its tables, one after the other, describe the physical image of the whole buffer, or of what was sent before a command failed |
| DiskTransfer.AskedIff | source/kernel/hardware/devices/hard_disk/parallel_ata.c:222-246 | the count registers say the number of sectors if and only if the command begins at sector 2^24 or behind it, or is for at most 256 |
| InputRing.StepKeepsInv | source/kernel/software/virtual_hardware/human_input.c:39-61 | every field write, publish, field read and advance keeps the ring in order |
| InputRing.RefinesQueue | source/userspace_library/main.c:140-152 | each step is a put at the end, a take from the front, or nothing, of a queue of at most 127 events |
| InputRing.ConsumerSeesAcceptedEvents | source/userspace_library/main.c:140-152 | in every run what the consumer got is what was published first, in order and untorn |
| InputRing.AcceptsWhatIsOffered | source/kernel/software/virtual_hardware/human_input.c:39-61 | over every run what has gone in is, in order and as given to the calls, what was offered while streaming was on and not dropped at a full ring |
| InputRing.ConsumerSeesOfferedEvents | source/userspace_library/main.c:140-152 | so what the consumer got is the beginning of a selection, in order, of what was offered while streaming was on |
| InputRing.OfferIgnoredIff | source/kernel/software/virtual_hardware/human_input.c:40-42 | an offer changes nothing exactly when streaming is off |
| InputRing.PutsIt | source/kernel/software/virtual_hardware/human_input.c:39-61 | an event offered alone while streaming is on and fewer than 127 slots are occupied goes in as it was given |
| InputRing.TakesOldest | source/userspace_library/main.c:140-152 | a consumer that is not disturbed takes the oldest event that waits |
| InputRing.DeliveredUnchanged | source/kernel/software/virtual_hardware/human_input.c:39-61 | an event offered to an empty ring while streaming is on is what the consumer gets next |
| InputRing.DroppedIffFull | source/kernel/software/virtual_hardware/human_input.c:49-53 | an event is dropped exactly when 127 slots are occupied as the producer reads `consumer` |
| InputRing.SidesStayApart | source/kernel/software/virtual_hardware/human_input.c:54-58 | the slot being read is never the slot being written |
| InputRing.NewsIffNotEmpty | source/userspace_library/main.c:140 | the consumer finds news exactly when an event is waiting |
| HardwareTree.Registry.AddHardware | source/kernel/hardware/main.c:84-115 | the new device is chained behind the last child, the tree stays well linked, and it is one more that waits for its initialiser exactly if it has one |
| HardwareTree.Registry.NextDevice | source/kernel/hardware/main.c:241-261 | one move of the walk does one device of what is to do |
| HardwareTree.Registry.HowManyUninitialized | source/kernel/hardware/main.c:233-265 | the walk ends, visits the devices in preorder, and counts exactly the uninitialised ones |
| HardwareTree.PreorderCounts | source/kernel/hardware/main.c:233-265 | that preorder lists every device exactly once |
| HardwareTree.AttachedWellLinked | source/kernel/hardware/main.c:96-108 | attaching behind the last child keeps a tree with right parents and predecessors |
| Forest.PreorderIsComplete | source/kernel/hardware/main.c:233-265 | in a tree-shaped arena the preorder meets every node exactly once |
| HBox.PassesAgreeIff | source/userspace_library/gui/gui.c:727-775 | the filling pass stays within the counted parts exactly when no run of zero-width elements at the start or behind an oversize element is ended by an oversize element or the end |
| HBox.TwoForOne | source/userspace_library/gui/gui.c:727-775 | for widths 0 and 5 and limit 3 one part is counted and two are filled |
| HBox.ProperWidthsAgree | source/userspace_library/gui/gui.c:727-775 | for widths from 1 to the limit the passes use the same number of parts |
| HBox.PartsPartition | source/userspace_library/gui/gui.c:753-775 | for all elements the parts are consecutive, cover every element in order with its width and height, and only single elements exceed the limit |
| HBox.PartsAreMinimal | source/userspace_library/gui/gui.c:753-775 | no other way to wrap in order within the limit takes fewer parts |
| HBox.CountParts | source/userspace_library/gui/gui.c:728-750 | the loop ends with the number of parts the filling pass is compared with |
| HBox.FillParts | source/userspace_library/gui/gui.c:751-775 | for all elements: the filling loop stays inside the counted array exactly if there is no loose run, and then leaves exactly the parts in it |
| HBox.Layout | source/userspace_library/gui/gui.c:707-785 | for all elements: whether it stays inside, and if so parts, width and height of a box, wrapped or not |
| HBox.WidestIs | source/userspace_library/gui/gui.c:775-781 | the width of a wrapped box is that of a part, and no part is wider |
| HBox.HeightsAddUp | source/userspace_library/gui/gui.c:775-781 | the height of parts below other parts is the sum of both |
| Line.DrawLine | source/userspace_library/screen.c:102-137 | the pixels are the visible points of the rounded ideal line, in order, up to its end or the first point off the box |
| Line.EndsExactly | source/userspace_library/screen.c:115-118 | the end point is reached after max(dx, dy) steps and not before |
| Line.NeverOvershoots | source/userspace_library/screen.c:127-135 | on neither axis does the line pass its end |
| Line.WithinHalfAPixel | source/userspace_library/screen.c:127-135 | every point is within half a pixel of the ideal line |
| Line.ErrorDecides | source/userspace_library/screen.c:127-135 | the error term decides the steps exactly as rounding does |
| Line.StepsAreSmall | source/userspace_library/screen.c:127-135 | each step moves by at most one on each axis and by one on the longer |
| Line.InsideIsDrawnWhole | source/userspace_library/screen.c:119-125 | a line between visible points is drawn whole |
| Line.DrawnWholeIff | source/userspace_library/screen.c:119-125 | all visible points but the end are drawn if and only if the line does not start off the box or none of them is visible |
| Line.NegativeStart | source/userspace_library/screen.c:119-125 | a level line from -1 into the box has visible points and is not drawn at all |
| Line.RightEdge | source/userspace_library/screen.c:119-125 | a level line from a visible point over the right edge is drawn exactly up to it, and stops behind the first column that is not drawn |
| Line.LowerEdge | source/userspace_library/screen.c:119-125 | and so an upright one over the lower edge |
| Keyboard.RoundTrip | source/kernel/hardware/devices/human_input/ps2_keyboard.c:160-182 | for sets 1, 2 and 3 any sequence of strokes, encoded, parses to exactly its reports and leaves the start state |
| Keyboard.ParseConcat | source/kernel/hardware/devices/human_input/ps2_keyboard.c:535-541 | parsing two stretches of bytes one after the other is parsing them together |
| Keyboard.FirstRowDecides | source/kernel/hardware/devices/human_input/ps2_keyboard.c:541-621 | the first row that applies to state and byte decides |
| Keyboard.NoRowResets | source/kernel/hardware/devices/human_input/ps2_keyboard.c:620-627 | a byte to which no row applies is dropped and the parser starts anew |
| Keyboard.Device.ReceiveByte | source/kernel/hardware/devices/human_input/ps2_keyboard.c:542-628 | the search through the rows takes the first that applies, or resets |
| Keyboard.Device.Receive | source/kernel/hardware/devices/human_input/ps2_keyboard.c:535-630 | one buffer is parsed from the state the last one left |
| Keyboard.Device.ReceiveAll | source/kernel/hardware/devices/human_input/ps2_keyboard.c:535-630 | however the bytes are cut into buffers, exactly the strokes are reported |
| Keyboard.StrokeTrip | source/kernel/hardware/devices/human_input/ps2_keyboard.c:313-344 | one stroke, print screen and pause included, for each set |

## Left out

- Choice of the core for a new thread: any core with fewer than 32 threads may be chosen, because the source indexes with the core not chosen yet (scheduler.c 432, 523).
- Filling a block that is not listed yet is one step, and so is the exchange that pushes it with the store of its link; every other access to what cores share is a step of its own, each atomic operation one.
- The blocks for threads and counters are those of one process; other processes and other users of blocks of the same size share the pools. The pools do not run out, and giving surplus blocks back to the heap is left out.
- The creator's look at the current user thread and its store (scheduler.c 500-505, 619-624).
- Stores of a creator that land inside a scan of the kernel threads: between two scans they are covered.
- Kernel thread IDs, kernel stacks, page tables, sleeping and signals are not part of the lifecycle machine; a thread to be killed may be any thread of a core's own list.
- Pushes that land between detaching a list head and putting it back (scheduler.c 965-972, 1205-1212): the recovery code does not restore the list, so unlinking a process or a kernel thread is atomic with respect to pushes.
- The claim that three passes over the scheduler states check everything (scheduler.c 908): it does not hold in general.
- UserScan.ThreadLists.Scan: runs while no other core changes the lists; with the other cores, the marks are part of the lifecycle machine.
- The three-state loop around the scans, interrupt handler threads and the idle state.
- The number of allocated pages: it is updated outside the lock.
- Boot-time alignment of memory regions; interrupts inside the allocator's routines.
- AML strings are sequences; their allocation and freeing, and the log output, are left out. The state that skips a zone occurs in no rule. A refused package length also changes the block's type, which nothing reads.
- A nested package length staying inside its section: the source does not check it.
- AmlRoundTrip.RoundTrip: package lengths in their shortest form. The target of a conversion is a value, as in the rule table; in the ACPI Specification it is a name or nothing (20.2.5.4). Code that is not the code of terms is covered by the bounds, the tree and the checks, not by a meaning.
- Reads past the AML code: the source does not detect them; the model stops there.
- IDE writes, the flush, interrupts raised by other controllers, and a command that starts while the handler thread still copies for one that timed out.
- The IDENTIFY data, and the encoding of sector numbers in the LBA28 and LBA48 registers.
- DiskTransfer.FillPrdt: stops at the end of the table, where the source goes on writing behind it.
- HBox.FillParts: stops at the first access behind the counted parts, where the source goes on; `HBox.Layout` likewise. Sums of widths do not wrap around.
- Vertical boxes, tables, text blocks and scrollbars.
- Line coordinates do not overflow 32 bits; the pixel buffer's layout is left out, a line is the sequence of pixels it sets.
- Keyboard.RoundTrip: a key is a lookup array and a code; which key the arrays name is not modelled, so that codes 0x4A and 0x4E of set 3 stand for two entries each is not visible. Codes without a name, which read past the arrays, are left out.
- Removing hardware and asking whether all of it is initialised: those walks do not match a subtree specification.
- Port access, inline assembly, fonts and widgets, firmware tables, PCI, ELF loading, the ramdisk and string helpers.
