# Verification of CKB's stateful core

This project models four parts of CKB, the Nervos layer-1 node, and proves what they promise
over every run.

- **The script scheduler** (`Machine`, `Scheduler*`). A script may spawn up to sixteen more
  machines, of which at most four are instantiated at a time while the rest are kept as
  snapshots. They talk through pipes, wait for each other and are charged for cycles. The class
  `ScriptScheduler.Scheduler` follows the code method by method and loop by loop. It is proved
  equal to a scheduler on values that has every machine at hand and only lists what it would ask
  of a cache. What a machine instruction does is a parameter. Proved for all programs: the
  structural invariant, genuine deadlocks, order and conservation of bytes in pipes, what every
  request does and its caller is told, and the account of cycles. Proved for the programs that do
  not look at the number of cycles they have consumed: neither the cache nor pauses change what a
  script does.
- **Block verification** (`Chain*`). A tree of blocks with exts, a database transaction, the view
  of the main chain (index, transactions, live cells), the leaves of the Merkle mountain range
  and the proposal table. `ChainProcessor.Processor` follows the code, with its loops over fork
  changes. Proved: which blocks are accepted, that the computed fork is exact, that reorganisation
  equals replay, that blocks marked verified passed their checks in the state given by their own
  ancestors, and that the tip is the heaviest block. That no transaction is committed twice is
  proved from the resolution of inputs and from collision-free hashes. That detaching undoes
  attaching follows from it.
- **The freezer** (`Freezer*`). Index and data files as bytes, file handles that share one cursor
  with the head, repair on opening, and the chain of blocks above. Proved: reads, truncations,
  reopenings and appends at the end of the head file act on it as on a sequence of items, and so
  does a crash in the middle of an append or a truncation. Where an append writes elsewhere is
  stated exactly.
- **Orphans and filters** (`OrphanPool`, `Pipeline`, `BlockFilter`). The pool of blocks without
  parents, the interleaving of broker and verifier as a state machine, and the catch-up of block
  filters across reorganisations.

Some promises turn out to hold only under a condition. Each has a member with an input for which it
fails and one with the exact condition; only for what programs see of moves (in the last point) is
the condition one that is enough.

- When the limit check at the end of an iteration fails, the cycles of the iteration have been
  added to the total and are still in the iteration. The account at the head of
  `script/src/scheduler.rs` (lines 59 to 97) is exact if and only if that check passes
  (`IterateLedger`, `DoubleCount`).
- Reading an item of the head file other than the last moves the cursor that the next append
  writes at. `Append` adds its item if and only if the cursor is at the end, a new file is begun
  or the item is empty (`Append`, `ReadThenAppend`).
- Repair that goes back past the first entry of the head file reopens the file of the dropped
  entry, not that of the entry before. It ends on the right file if and only if some entry of the
  head file fits the bytes found (`RepairExactly`, `SlipLosesItem`). No crash during an append or
  a truncation leads there (`CrashSafe`, `TruncateCrashSafe`).
- A script that is resumed after a pause gets the full limit again (`script/src/verify.rs`, line
  376). It agrees with the run that is not paused if and only if one of its parts hits the limit
  too or the parts together consume no more than it, which is what the assertion at lines 384 to
  389 looks at (`PausesAreTransparent`, `PausesDoNotMatter`). A script that consumes
  16 cycles passes under a limit of 10 when it is paused in between (`FreshLimitLetsThrough`).
  Parts that share one limit have no such condition (`SharedLimitIsTransparent`).
- A program that looks at the number of cycles it has consumed can tell that it was paused, or that
  its machines were moved: the cost of a move reaches the total at the end of an iteration or at a
  pause. A chain of five machines does so from boot: its exit code differs with one pause
  (`PauseCanBeSeen`), and with four and with all machines resident (`ResidencyCanBeSeen`). A pause in
  a turn is hidden from every program if and only if no cost is pending in the iteration and the
  machine whose turn it is is resident (`PauseIsHidden`). Programs that do not look
  (`IgnoresCycles`) notice neither pauses nor moves, over whole runs.

Reading guide: `SchedulerModel` and `SchedulerSystem` define the scheduler on values,
`SchedulerRuns`, `SchedulerTransparency` and `SchedulerPauses` hold the results over whole runs, and
`SchedulerExamples` programs that show where they end. `SchedulerSyscalls`, `SchedulerService` and
`SchedulerTurns` say what each request, the service of pipes and each turn do, from what the program
gave. `ChainEngine` holds the specification of verification and its invariants, `ChainVerdicts` what
becomes of each block, `ChainProcessor` the code. `FreezerRepair` holds crash safety. Collections
that the code iterates in the order of a `BTreeMap` are iterated in ascending order. Errors of the
scheduler that stand for a failed assertion or a missing key are values (`Panic`, `Unexpected`), and
`HistoryKeeps` and `RunKeeps` show that they do not occur.

The scheduler implements the sections Spawn, Pipe, Inherited File Descriptors, Read, Write, Close
and Wait of RFC 0050 (VM Syscalls 3). The proposal window is that of RFC 0020, section Two-Step
Confirmation.

## Model

| member | source | states |
|---|---|---|
| `Machine.RunVmShift` | script/src/scheduler.rs:387-406 | A machine started with another counter and at least as much head-room does the same and adds the same cycles, for programs that do not read the cycle count or read the same one |
| `Machine.RunVmAt` | script/src/scheduler.rs:387-406 | A run that does not hit its limit is the same under every limit that is not below the counter it ends with |
| `Machine.RunVmPausePrefix` | script/src/scheduler.rs:387-406 | A run cut off by the pause signal and then continued ends as the run without the signal |
| `SchedulerTurns.RunVmIs` | script/src/scheduler.rs:387-406 | A machine executes instruction by instruction and stops at the first that exits, faults, posts a request or does not fit the limit, or at the pause signal; what it has consumed is what these cost, requests with 0, 800 or 100800 cycles on top |
| `SchedulerTurns.RunsOneWay` | script/src/scheduler.rs:387-406 | This determines how it stops |
| `SchedulerTurns.TurnIsTaken` | script/src/scheduler.rs:261-337 | It is the turn of the runnable machine with the largest id; its counter is reset, and its request, exit or failure is what is processed |
| `SchedulerTurns.NobodysTurn` | script/src/scheduler.rs:261-275 | Without a runnable machine there is a deadlock and nothing happens |
| `SchedulerTurns.IterationEnds` | script/src/scheduler.rs:343-382 | An iteration costs what its machine consumed and 100000 cycles for each move; it stops the run exactly when that exceeds the limit, the pipes cannot be served or the turn failed, each with its error, and otherwise moves the cost from the limit to the total |
| `SchedulerTurns.BootStarts` | script/src/scheduler.rs:919-938 | A script begins with the image loaded from its program and arguments, alone, with its load cycles on the counter, or with the error of the loader |
| `Basics.LeRoundTrip` | freezer/src/freezer_files.rs:71-95 | Little-endian words decode to the number they were written from |
| `SchedulerInvariant.OnMessageKeeps` | script/src/scheduler.rs:408-653 | Every message keeps the structural invariant: owners and wait targets are live, blocked readers and writers own their end, the counts of machines and descriptors stay within the limits, exited ids are not live; no internal assertion or map index fails |
| `SchedulerInvariant.OnSpawnKeeps` | script/src/scheduler.rs:449-488 | The same for spawn, with hand-over of descriptors |
| `SchedulerInvariant.OnPipeKeeps` | script/src/scheduler.rs:520-544 | The same for pipe, with its limit on descriptors |
| `SchedulerInvariant.OnCloseKeeps` | script/src/scheduler.rs:636-650 | The same for close |
| `SchedulerInvariant.OnInheritedFdKeeps` | script/src/scheduler.rs:598-635 | The same for the inherited descriptors; the lookup by machine id never fails |
| `SchedulerInvariant.WakeJoinersKeeps` | script/src/scheduler.rs:301-324 | All machines waiting for an exited one become runnable and no runnable one stops |
| `SchedulerInvariant.OnResultKeeps` | script/src/scheduler.rs:278-337 | After exit, yield or failure of a machine the invariant holds, or the root machine is all that is left |
| `SchedulerInvariant.ProcessIoKeeps` | script/src/scheduler.rs:655-802 | Serving pipes ends in a quiescent state: no blocked machine has a closed other end, none waits for one that waits for it; only states move, and only forward |
| `SchedulerInvariant.TakeTurnKeeps` | script/src/scheduler.rs:261-337 | A whole turn keeps the invariant and never ends in an assertion failure; it ends in a deadlock exactly when no machine is runnable |
| `SchedulerDeadlock.NoLostWakeUp` | script/src/scheduler.rs:261-275 | In a stuck state every machine waits for a live one that has not done, and is not blocked doing, what would wake it |
| `SchedulerDeadlock.DeadlockIsCircular` | script/src/scheduler.rs:261-275 | In a stuck state some machines wait for each other in a circle |
| `SchedulerDeadlock.DeadlockReported` | script/src/scheduler.rs:261-275 | A deadlock is reported if and only if the state is stuck |
| `SchedulerPipes.OnWriteFifo` | script/src/scheduler.rs:571-597 | A write that is accepted puts its buffer, as it is in the memory of the writer, behind everything offered before on that descriptor; a refused write offers nothing, and no other descriptor is touched; the order of bytes in every pipe is kept |
| `SchedulerPipes.OnSpawnFifo` | script/src/scheduler.rs:473-479 | Handing descriptors over keeps the order of bytes in every pipe |
| `SchedulerPipes.CopiedFifo` | script/src/scheduler.rs:728-799 | One copy moves bytes from the front of what is pending to the end of what is delivered |
| `SchedulerPipes.PairsDisjoint` | script/src/scheduler.rs:668-679 | The read/write pairs are a matching: no machine is in two of them |
| `SchedulerPipes.AnyOrderServes` | script/src/scheduler.rs:713-800 | The order in which pairs are served does not matter to states and descriptors |
| `SchedulerPipes.ProcessIoServes` | script/src/scheduler.rs:655-802 | Serving pipes does to every machine exactly what a description without lists and orders says, and keeps the order of bytes |
| `SchedulerPipes.TakeTurnFifo` | script/src/scheduler.rs:387-653 | A whole turn keeps bytes delivered a prefix of bytes offered, in every pipe |
| `SchedulerReports.FinishClosedReports` | script/src/scheduler.rs:681-711 | A read or write whose other end is gone is told 0, or as many bytes as were delivered before |
| `SchedulerReports.ProcessIoReports` | script/src/scheduler.rs:655-802 | Every read and write that ends finds success and exactly the number of its bytes that went through the pipe; those bytes are in the buffer of the reader, but for what the length word overwrites |
| `SchedulerService.ProcessIoIs` | script/src/scheduler.rs:655-802 | Serving pipes fails if and only if something to be copied or stored is not in a memory; otherwise every machine is, byte for byte and cycle for cycle, what the state before says, whatever the order of service |
| `SchedulerService.TransferIs` | script/src/scheduler.rs:728-799 | The same for one pair |
| `SchedulerService.FinishClosedIs` | script/src/scheduler.rs:681-711 | The same for the ends that are closed |
| `SchedulerSyscalls.ExitTells` | script/src/scheduler.rs:289-333 | An exit fails if and only if a waiting machine has no place for the exit code; otherwise every waiting machine finds success and the code at the address it gave, and runs again; nobody else notices, the code is kept for later waits, and exactly the descriptors of the machine are closed |
| `SchedulerSyscalls.RootExitEnds` | script/src/scheduler.rs:289-299 | The exit of the root machine keeps its code and leaves no other machine |
| `SchedulerSyscalls.WaitTells` | script/src/scheduler.rs:490-519 | A wait for an exited machine finds its exit code, once, or fails if and only if the code has no place; a wait for a machine that does not exist is refused; any other blocks |
| `SchedulerSyscalls.WaitBeforeOrAfter` | script/src/scheduler.rs:301-324 | A machine ends up with the same memory and registers whether it waits before or after the exit |
| `SchedulerSyscalls.SpawnHandsOver` | script/src/scheduler.rs:449-488 | A spawn is refused with the right result code, fails with the error of the loader or for want of a place for the id, or starts a machine under a new id with the image loaded from the program and the arguments in the memory of the parent, which owns exactly the descriptors handed over; the parent learns the id |
| `SchedulerSyscalls.PipeIsNew` | script/src/scheduler.rs:520-544 | A pipe is refused at the limit, fails if and only if a descriptor has no place, or has two new descriptors that are each other's ends, stored at the two addresses in order, with nothing in between |
| `SchedulerSyscalls.InheritedAreTold` | script/src/scheduler.rs:598-635 | A machine is given as many inherited descriptors as it has room for, in order, and told how many there are, or fails if and only if they have no place; descriptors are lost exactly where the buffer overlaps the length word, and no other byte changes |
| `SchedulerSyscalls.ExecReplaces` | script/src/scheduler.rs:412-447 | An exec goes on with the image loaded from the program and the arguments in the old memory, at 75000 cycles and one for every four bytes; when fetching or loading fails, the error carries that code and the old image is still there |
| `SchedulerSyscalls.ReadBlocks` | script/src/scheduler.rs:545-570 | A read is refused exactly when the descriptor is not owned, or owned and its other end gone, each with its code; otherwise the machine blocks and nothing else happens |
| `SchedulerSyscalls.ReadIsServed` | script/src/scheduler.rs:728-769 | A read accepted while a machine writes at the other end finds success, as many bytes as both allow at its buffer address, taken from the memory of the writer, and their number at its length address; no other byte changes, at a cycle for every four bytes |
| `SchedulerSyscalls.ReadWaits` | script/src/scheduler.rs:545-570 | A read accepted while nobody writes stays blocked and finds nothing |
| `SchedulerSyscalls.WriteBlocks` | script/src/scheduler.rs:571-597 | The same as for a read, and an accepted write offers its buffer |
| `SchedulerSyscalls.WriteIsServed` | script/src/scheduler.rs:728-799 | A write accepted while a machine reads at the other end passes on as many bytes as both allow; when these are all, the writer finds success and their number at its length address, and otherwise stays blocked with the rest |
| `SchedulerSyscalls.CloseTells` | script/src/scheduler.rs:636-650 | A close is refused exactly when the descriptor is not owned; otherwise the descriptor is gone, all others keep their owners, and only the result register of the caller changes |
| `SchedulerSyscalls.CloseWakes` | script/src/scheduler.rs:681-711 | A machine blocked at the other end of a closed descriptor runs again after the next service: a reader is told 0, a writer what went through before |
| `SchedulerSyscalls.CloseIsSeen` | script/src/scheduler.rs:545-597 | Later reads and writes of the other end are answered that it is closed |
| `SchedulerLedger.OnMessageBalanced` | script/src/scheduler.rs:408-653 | A message charges machine counters by exactly what it says it charges; exec carries the counter over |
| `SchedulerLedger.ProcessIoBalanced` | script/src/scheduler.rs:735-758 | The same for the copies |
| `SchedulerLedger.TakeTurnBalanced` | script/src/scheduler.rs:343-406 | A turn moves the cycles of the machine that ran to the iteration and charges the rest to live machines |
| `SchedulerCache.BringEffect` | script/src/scheduler.rs:826-864 | Bringing machines in makes them resident, adds no others and stays within the capacity |
| `SchedulerCache.EnoughVictims` | script/src/scheduler.rs:847-861 | There are always enough machines to suspend for those to be resumed, so the pairing of the two lists is complete |
| `SchedulerCache.MakeRoomEffect` | script/src/scheduler.rs:951-959 | Room for a new machine is made by suspending, never by forgetting |
| `SchedulerCache.AttendIs` | script/src/scheduler.rs:826-864 | Exactly the missing machines are resumed, and exactly as many of the others as there is no room for suspended, those with the smallest ids; each move is counted once |
| `SchedulerCache.AdmitIs` | script/src/scheduler.rs:951-959 | A new machine is instantiated at once, and when the cache is full the machine with the smallest id makes room for it |
| `SchedulerCache.ServeAllKeeps` | script/src/scheduler.rs:826-965 | Over any sequence of requests residents are live and at most as many as the capacity |
| `SchedulerRuns.QuiescentIo` | script/src/scheduler.rs:655-802 | Serving pipes changes nothing in a quiescent state |
| `SchedulerRuns.IterateLedger` | script/src/scheduler.rs:343-382 | After an iteration every charged cycle is in exactly one of total, iteration and machine counters, if and only if the limit check did not fail; if it did, those of the iteration are counted twice |
| `SchedulerRuns.DoubleCount` | script/src/scheduler.rs:343-382 | A program and a limit for which they are |
| `SchedulerRuns.IterateKeeps` | script/src/scheduler.rs:343-382 | Total plus remaining limit is constant, a deadlock is genuine and leaves the state as it was, a pause leaves a state that can be taken up again |
| `SchedulerRuns.RunKeeps` | script/src/scheduler.rs:217-231 | A run ends with the exit of the root machine within the limit and an empty iteration, or with an error that is not a fault of the scheduler |
| `SchedulerRuns.HistoryKeeps` | script/src/scheduler.rs:217-231 | Every state of every run satisfies the whole invariant: structure, quiescence, pipe order, residency, ledger |
| `SchedulerRuns.BootKeeps` | script/src/scheduler.rs:919-938 | The first machine starts a state with the invariant, or fails by a fault of the program |
| `SchedulerRuns.ChunksKeep` | script/src/verify.rs:344-400 | The same over runs resumed after any number of pauses |
| `SchedulerRuns.ScriptsEndWell` | script/src/verify.rs:344-400 | From boot to end, for every program, argument list, limit and sequence of pauses |
| `SchedulerTransparency.IterateResident` | script/src/scheduler.rs:343-382 | One iteration with the cache matches one with every machine resident, up to the cost of moves |
| `SchedulerTransparency.ResidencyIsTransparent` | script/src/scheduler.rs:826-917 | For programs that ignore cycles, a run with four resident machines that does not hit its limit executes the same machines in the same order and ends with the same states, descriptors, memories, registers, exit codes and error as one that keeps all of them, at SPAWN_EXTRA_CYCLES_BASE for each suspension and resumption |
| `SchedulerPauses.TurnResumes` | script/src/scheduler.rs:343-406 | A paused turn and the turn that takes it up again make the uninterrupted turn, for programs that ignore cycles and for all others when no cost is pending |
| `SchedulerPauses.IteratePaused` | script/src/scheduler.rs:343-382 | An iteration paused under any limit and taken up again with what is left of a limit hits that limit exactly when the uninterrupted iteration does, and is otherwise equal to it |
| `SchedulerPauses.IterateAt` | script/src/scheduler.rs:343-382 | An iteration costs the same under every limit: limits not below the cost make no difference, the others are hit |
| `SchedulerPauses.SplitRunCompares` | script/src/verify.rs:344-400 | For programs that ignore cycles and any limits of the parts: if no limit was hit in the split run, the uninterrupted run hits its limit if and only if the split run consumed more; if one was hit although every part had enough, so does the uninterrupted run |
| `SchedulerPauses.PausesAreTransparent` | script/src/verify.rs:344-400 | For programs that ignore cycles, a run split by pauses, each part with the full limit, is still paused, or compares exactly: the uninterrupted run hits the limit if and only if a part does or the parts together consumed more; otherwise both end in the same state, cycles included |
| `SchedulerPauses.PausesDoNotMatter` | script/src/verify.rs:344-400 | The same, for the same programs, over whole scripts from boot whose last part is not paused |
| `SchedulerPauses.SharedLimitIsTransparent` | script/src/verify.rs:344-400 | For programs that ignore cycles, when every part gets what the parts before it have left, the split run ends like the uninterrupted one, with the same error also when the limit is hit |
| `SchedulerPauses.ResidencyAndLimit` | script/src/scheduler.rs:826-917 | For programs that ignore cycles, a script hits its limit if and only if the run that keeps every machine, together with SPAWN_EXTRA_CYCLES_BASE for each move, costs more; otherwise it ends as that run does |
| `SchedulerPauses.PauseIsHidden` | script/src/scheduler.rs:343-382 | In a state of a run, a pause of the next turn is hidden from every program, under every limit, if and only if the iteration has no cost pending and the machine whose turn it is is resident |
| `SchedulerExamples.FreshLimitLetsThrough` | script/src/verify.rs:372-391 | A script that exceeds a limit of 10 uninterrupted and ends with 16 cycles when paused once |
| `SchedulerExamples.PauseCanBeSeen` | script/src/scheduler.rs:343-382 | A script that reads its cycles exits from boot with 0 uninterrupted and with 1 when paused once |
| `SchedulerExamples.ResidencyCanBeSeen` | script/src/scheduler.rs:875-917 | A script that reads its cycles exits from boot with 1 when four machines are resident and with 0 when all are |
| `ScriptScheduler.Scheduler.constructor` | script/src/scheduler.rs:131-153 | A new scheduler is the empty system |
| `ScriptScheduler.Scheduler.ResumeVm` | script/src/scheduler.rs:875-892 | The machine becomes resident as it was, one move is counted; an unknown id is an error without effect |
| `ScriptScheduler.Scheduler.SuspendVm` | script/src/scheduler.rs:895-917 | The machine becomes suspended as it was, one move is counted; an unknown id is an error without effect |
| `ScriptScheduler.Scheduler.ResumeWhileRoom` | script/src/scheduler.rs:840-845 | Resumes from the back of the list while there is room; the rest is still to be exchanged |
| `ScriptScheduler.Scheduler.Exchange` | script/src/scheduler.rs:847-861 | Suspends and resumes pairwise |
| `ScriptScheduler.Scheduler.EnsureVmsInstantiated` | script/src/scheduler.rs:826-864 | All requested machines are resident afterwards, no machine has changed; an error exactly for too many or unknown ids |
| `ScriptScheduler.Scheduler.EnsureGetInstantiated` | script/src/scheduler.rs:867-872 | The same for one machine |
| `ScriptScheduler.Scheduler.LoadVmProgram` | script/src/scheduler.rs:968-1001 | Gives the image loaded with arguments from the memory of the parent, which is brought in, or from the vector, and the cycles for the bytes loaded |
| `ScriptScheduler.Scheduler.BootNewVm` | script/src/scheduler.rs:941-965 | Makes room, loads, registers the machine as runnable under the next id |
| `ScriptScheduler.Scheduler.HandleExec` | script/src/scheduler.rs:412-447 | Refines the value-level exec, described by `ExecReplaces`: new image, old counter, both charges, each error in its place |
| `ScriptScheduler.Scheduler.HandleSpawn` | script/src/scheduler.rs:449-488 | Refines the value-level spawn, described by `SpawnHandsOver` |
| `ScriptScheduler.Scheduler.HandleWait` | script/src/scheduler.rs:490-519 | Refines the value-level wait, described by `WaitTells` |
| `ScriptScheduler.Scheduler.HandlePipe` | script/src/scheduler.rs:520-544 | Refines the value-level pipe, described by `PipeIsNew` |
| `ScriptScheduler.Scheduler.HandleRead` | script/src/scheduler.rs:545-570 | Refines the value-level read, described by `ReadBlocks` and `ReadIsServed` |
| `ScriptScheduler.Scheduler.HandleWrite` | script/src/scheduler.rs:571-597 | Refines the value-level write, described by `WriteBlocks` and `WriteIsServed` |
| `ScriptScheduler.Scheduler.HandleInheritedFd` | script/src/scheduler.rs:598-635 | Refines the value-level inherited descriptors, described by `InheritedAreTold` |
| `ScriptScheduler.Scheduler.HandleClose` | script/src/scheduler.rs:636-650 | Refines the value-level close, described by `CloseTells` |
| `ScriptScheduler.Scheduler.ProcessMessageBox` | script/src/scheduler.rs:408-653 | The loop over messages refines the value-level fold and empties the box |
| `ScriptScheduler.Scheduler.WakeAll` | script/src/scheduler.rs:301-324 | The loop over waiting machines refines the value-level wake-up |
| `ScriptScheduler.Scheduler.IterateProcessResults` | script/src/scheduler.rs:278-337 | Refines the value-level end of a run of one machine, root and child |
| `ScriptScheduler.Scheduler.CollectReaders` | script/src/scheduler.rs:659-667 | The loop finds exactly the blocked reads with an open, and with a closed, other end |
| `ScriptScheduler.Scheduler.CollectWriters` | script/src/scheduler.rs:669-679 | The loop finds exactly the matched pairs and the writes with a closed other end |
| `ScriptScheduler.Scheduler.FinishClosedEnds` | script/src/scheduler.rs:681-711 | The loop over closed ends refines the value-level one |
| `ScriptScheduler.Scheduler.DeliverTo` | script/src/scheduler.rs:730-767 | Refines the value-level copy, with its charges on both sides |
| `ScriptScheduler.Scheduler.AdvanceWrite` | script/src/scheduler.rs:771-798 | Refines the value-level progress of a write |
| `ScriptScheduler.Scheduler.TransferPairs` | script/src/scheduler.rs:713-800 | The loop over pairs refines the value-level one, described pair by pair by `TransferIs` |
| `ScriptScheduler.Scheduler.ProcessPipes` | script/src/scheduler.rs:655-802 | Refines the value-level service of all pipes, described by `ProcessIoIs` |
| `ScriptScheduler.Scheduler.FindRunnable` | script/src/scheduler.rs:261-272 | Finds the runnable machine with the largest id, or none |
| `ScriptScheduler.Scheduler.IterateInner` | script/src/scheduler.rs:387-406 | Refines the value-level turn |
| `ScriptScheduler.Scheduler.IterateOuter` | script/src/scheduler.rs:343-382 | Refines the value-level iteration, with the account of cycles in every outcome |
| `ScriptScheduler.Scheduler.BootRootVm` | script/src/scheduler.rs:919-938 | Refines the value-level boot |
| `ScriptScheduler.Scheduler.Run` | script/src/scheduler.rs:217-231 | Equals the value-level run; on success the exit code is that of the root machine, the iteration is empty and the total within the limit |
| `ChainReplay.FreshBefore` | chain/src/verify.rs:611-735 | No transaction of a block that resolves has been committed before: proved from the resolution of inputs, not assumed |
| `ChainReplay.AttachKeeps` | store/src/cell.rs:26-82 | Attaching keeps the view in order: live cells are outputs of the chain, what was spent is gone, the index is the chain |
| `ChainReplay.DetachUndoes` | store/src/cell.rs:85-151 | Detaching a block gives back the view before it was attached, spent cells included |
| `ChainEngine.VerifiedPath` | chain/src/verify.rs:629-735 | Every ancestor of a verified block is verified |
| `ChainEngine.VerifiedReplay` | chain/src/verify.rs:629-735 | The replay of the ancestors of a verified block is a view the block can be attached to |
| `ChainEngine.LiveCells` | rpc/README.md:282-288 | On a verified chain a cell is live if and only if it is an output of a transaction of the chain and not an input of one, and it is then that output |
| `ChainEngine.ConfirmKeeps` | chain/src/verify.rs:758-777 | Marking a checked path verified keeps: every verified block passed its checks against the replay of exactly its ancestors, its parent is verified, and no block is marked failed |
| `ChainEngine.VerifyKeeps` | chain/src/verify.rs:209-432 | Every verification keeps that, and index, live cells, leaves and proposal table equal to the replay of the chain to the tip |
| `ChainEngine.TotalIsSum` | chain/src/verify.rs:280-298 | Stored total difficulties are the sums over their paths |
| `ChainEngine.HeaviestKeeps` | chain/src/verify.rs:300-359 | The tip is at least as heavy as every block with an ext, and changes only to a strictly heavier one |
| `ChainVerdicts.VerdictIs` | chain/src/verify.rs:209-432 | A block is rejected if and only if its parent has no ext, or it would make the heaviest chain and a block of that chain not marked verified fails on top of those before it; a block with an ext changes nothing, a new one not heavier than the tip gets an ext on its branch, and a heavier one that passes becomes the tip, with its whole chain marked |
| `ChainVerdicts.SubmissionEnds` | chain/src/verify.rs:130-198 | A rejected block is deleted and marked invalid; any other stays, has an ext and is not marked |
| `ChainVerdicts.BranchesReorganise` | chain/src/verify.rs:332-376 | A run in which a block is adopted, one beside it stored on a branch, and one on top of that moves the chain over to the branch |
| `ChainVerdicts.BranchesExist` | chain/src/verify.rs:332-376 | Four blocks for which it happens |
| `ChainVerdicts.ReplayIndex` | store/src/transaction.rs:271-296 | The index of a chain holds exactly its hashes, by number |
| `ChainVerdicts.TxPlaces` | store/src/transaction.rs:271-296 | Every transaction of a verified chain is found in its block and at its place |
| `ChainEngine.TreeIsKept` | chain/src/verify.rs:153-181 | A block with an ext is never deleted, so deletion on failure keeps the tree closed under parents |
| `ChainEngine.ConsumeKeeps` | chain/src/verify.rs:130-198 | Verification with deletion and marking on failure keeps the store invariant |
| `ChainEngine.RunKeeps` | chain/src/verify.rs:130-198 | The store invariant over every sequence of arrivals, submissions and invalidations |
| `ChainEngine.InitialInv` | chain/src/verify.rs:209-432 | A store with the first block alone satisfies the invariant |
| `ChainEngine.FirstBlockIsAdopted` | chain/src/verify.rs:332-376 | A block on the first one that passes becomes the tip, and the view is that of both |
| `ChainEngine.BlocksExist` | chain/src/verify.rs:332-376 | Two blocks that meet what the results ask for, the second of which becomes the tip of a store with the first |
| `ChainEngine.CutBackKeeps` | chain/src/verify.rs:867-907 | The result of a truncation satisfies the chain invariant: the target is the tip, its chain the beginning of the old one, and the rest of the store as it was |
| `ChainFork.AgreeBelow` | chain/src/verify.rs:535-576 | Two paths that share a block share everything below it, so the first common block met is the latest |
| `ChainFork.VerifiedBelow` | chain/src/verify.rs:578-608 | On a path verified blocks come first, so the blocks to check are a suffix |
| `ChainProcessor.StoreTransaction.AttachBlock` | store/src/transaction.rs:271-296 | Index and transaction entries of the block are added |
| `ChainProcessor.StoreTransaction.DetachBlock` | store/src/transaction.rs:299-309 | and removed |
| `ChainProcessor.StoreTransaction.AttachBlockCell` | store/src/cell.rs:26-82 | Outputs become live, spent inputs are deleted |
| `ChainProcessor.StoreTransaction.DetachBlockCell` | store/src/cell.rs:85-151 | Spent inputs are restored from their transactions, outputs deleted |
| `ChainProcessor.Processor.AlignmentFork` | chain/src/verify.rs:489-533 | Brings both sides to the same height, whichever is higher, recording what is passed |
| `ChainProcessor.Processor.FindForkUntilLatestCommon` | chain/src/verify.rs:535-576 | Stops right above the latest common ancestor; no lookup fails |
| `ChainProcessor.Processor.FindFork` | chain/src/verify.rs:578-608 | Attached and detached are the two paths above the latest common ancestor, and the dirty exts those of the maximal unverified suffix |
| `ChainProcessor.Processor.Rollback` | chain/src/verify.rs:481-487 | Detaching from the top down leaves the replay of the common part |
| `ChainProcessor.Processor.AttachVerified` | chain/src/verify.rs:625-635 | Attaching the verified prefix without checks leaves the replay of it, and its leaves |
| `ChainProcessor.Processor.CheckDirty` | chain/src/verify.rs:637-735 | Succeeds if and only if every dirty block passes its checks against the replay of its ancestors, and then has attached them all |
| `ChainProcessor.Processor.RemoveDetached` | chain/src/verify.rs:435-437 | Proposals of detached blocks leave the table |
| `ChainProcessor.Processor.InsertAttached` | chain/src/verify.rs:438-441 | Proposals of attached blocks enter it |
| `ChainProcessor.Processor.ReloadProposalTable` | chain/src/verify.rs:446-479 | Numbers that come back into the window are loaded, also when the new chain is lower |
| `ChainProcessor.Processor.Finalize` | util/proposal-table/src/lib.rs:93-157 | The table is exactly the window of the chain, and proposed and gap sets are those of their ranges |
| `ChainProcessor.Processor.UpdateProposalTable` | chain/src/verify.rs:373-377 | All four steps together |
| `ChainProcessor.Processor.TryReorganise` | chain/src/verify.rs:340-346 | Rollback, attach and checks on a transaction; the processor itself is not touched |
| `ChainProcessor.Processor.Adopt` | chain/src/verify.rs:352-383 | Commit, new tip, new table: everything equals the replay to the new tip |
| `ChainProcessor.Processor.VerifyBlock` | chain/src/verify.rs:209-432 | Refines the specification of a verification, whose outcomes `VerdictIs` tells from the store: refused, known, stored on a side branch, new best, or rejected without any write; the proposed and gap sets are those of the chain to the tip |
| `ChainProcessor.Processor.ConsumeUnverifiedBlock` | chain/src/verify.rs:130-198 | The same with deletion and status on failure; the store invariant is kept, and so are the proposed and gap sets of the chain |
| `ChainProcessor.Processor.Truncate` | chain/src/verify.rs:867-907 | The chain, the view, the proposal table and the proposed and gap sets are cut back to the target; leaves above it stay behind |
| `ChainProcessor.Processor.constructor` | chain/src/verify.rs:209-432 | A processor on the first block |
| `FreezerFormat.DecodeEncode` | freezer/src/freezer_files.rs:71-95 | Index entries decode to what was encoded |
| `FreezerFormat.EncodeBytes` | freezer/src/freezer_files.rs:71-79 | The twelve bytes of an entry as numbers: the file in four and the offset in eight, lowest byte first |
| `FreezerFormat.DecodeAt` | freezer/src/freezer_files.rs:211-250 | The bytes at 12 times i are entry i |
| `FreezerRepair.RepairEnds` | freezer/src/freezer_files.rs:430-466 | The repair loop ends with at least entry zero and a head file as long as its last entry says |
| `FreezerRepair.NothingToRepair` | freezer/src/freezer_files.rs:408-485 | Opening consistent files changes nothing |
| `FreezerRepair.CrashSafe` | freezer/src/freezer_files.rs:113-158 | After a crash at any point of an append (part of the data, a new file, part of the index entry) opening yields exactly the old items, or the old ones and the new one once the entry is complete |
| `FreezerRepair.TruncateCrashSafe` | freezer/src/freezer_files.rs:253-281 | After a crash in a truncation, once the index is cut and whatever of the later files is gone, opening yields exactly the items kept |
| `FreezerRepair.LostBytes` | freezer/src/freezer_files.rs:430-466 | If the head file has lost bytes, repair keeps exactly the items that are still complete |
| `FreezerRepair.RepairExactly` | freezer/src/freezer_files.rs:457-461 | Repair ends on the file its last entry names if and only if an entry of the head file fits the bytes found in it |
| `FreezerRepair.SlipLosesItem` | freezer/src/freezer_files.rs:457-461 | An index for which it does not, and an intact item is lost |
| `FreezerFiles.Freezer.GetBounds` | freezer/src/freezer_files.rs:211-250 | Start, end and file of an item, across a change of file |
| `FreezerFiles.Freezer.Retrieve` | freezer/src/freezer_files.rs:168-209 | Item i exactly for i from 1 to number - 1, nothing otherwise, whatever handles are open; and where it leaves the head cursor |
| `FreezerFiles.Freezer.OpenNextFile` | freezer/src/freezer_files.rs:134-146 | A new empty head file, the old one read-only |
| `FreezerFiles.Freezer.Append` | freezer/src/freezer_files.rs:113-158 | The item is added after the others if and only if the head cursor is at the end, a new file is begun or the item is empty; otherwise no items fit the index. A new file is begun exactly when the item would take the head file past its maximal size |
| `FreezerFiles.ReadThenAppend` | freezer/src/freezer_files.rs:168-209 | A sequence of calls after which they do not |
| `FreezerFiles.Freezer.Truncate` | freezer/src/freezer_files.rs:253-281 | Keeps exactly the prefix; out of range nothing changes |
| `FreezerFiles.Freezer.DeleteAfter` | freezer/src/freezer_files.rs:310-321 | Exactly the open files after the given one are closed and removed from disk |
| `FreezerFiles.Freezer.RepairFiles` | freezer/src/freezer_files.rs:430-466 | The loop refines the value-level repair |
| `FreezerFiles.Freezer.Preopen` | freezer/src/freezer_files.rs:284-292 | Succeeds if and only if the files before the head exist; then the head and the latest files before it are open, as many as the limit allows |
| `FreezerFiles.Freezer.constructor` | freezer/src/freezer_files.rs:408-485 | Opening reads the index, repairs and sets the head |
| `FreezerFiles.OpenFreezer` | freezer/src/freezer_files.rs:100-104 | Reopened files hold the items that repair finds |
| `ChainFreezer.BlockFreezer.constructor` | freezer/src/freezer.rs:41-75 | The tip is the last block frozen |
| `ChainFreezer.BlockFreezer.Freeze` | freezer/src/freezer.rs:84-140 | Frozen blocks are those of the source in order, linked by parent hash; stops at the threshold, a missing block, a broken link or the stop signal, and only there |
| `ChainFreezer.BlockFreezer.Retrieve` | freezer/src/freezer.rs:143-149 | Block by number; reading the last block, or one in an earlier file, leaves the freezer ready for more |
| `ChainFreezer.BlockFreezer.Truncate` | freezer/src/freezer.rs:157-176 | Keeps exactly the prefix, with the tip the last of it |
| `ChainFreezer.FreezeTwo` | freezer/src/freezer.rs:84-140 | A new freezer freezes any block, reads it back, freezes its child, reads that back, each as it was written, and is ready for more |
| `OrphanPool.InnerPool.Insert` | chain/src/utils/orphan_block_pool.rs:36-54 | The block is filed under its parent; leaders are exactly the parents that are not in the pool |
| `OrphanPool.InnerPool.RemoveBlocksByParent` | chain/src/utils/orphan_block_pool.rs:56-88 | Takes exactly the descendants of a leader, each once, parents first |
| `Pipeline.StepKeeps` | chain/src/orphan_broker.rs:39-132 | Every step of broker or verifier keeps the order of the queue |
| `Pipeline.LeaderIsServed` | chain/src/orphan_broker.rs:39-73 | From any state with an idle broker: if a leader is stored, or pending and not invalid, all its descendants can be marked and queued, in order; if it is invalid they all fail; otherwise nothing changes |
| `Pipeline.BlockIsDecided` | chain/src/orphan_broker.rs:107-126 | A received block is marked and queued if its parent is pending or stored, fails if it is invalid, and is left to the pool otherwise |
| `Pipeline.QueueIsVerified` | chain/src/verify.rs:130-198 | An idle verifier can get through the whole queue: every block gets an ext or fails, exactly those acceptable get one, and none of them stays pending |
| `Pipeline.QueueIsOrdered` | chain/src/orphan_broker.rs:158-210 | In every interleaving, from any set of recorded blocks, each queued block has a parent with an ext, ahead of it in the queue, being verified, or failed |
| `Pipeline.VerifierIsNeverEarly` | chain/src/verify.rs:86-96 | From there, a block is verified only after its parent has an ext or has failed |
| `Pipeline.TwoBlocksPass` | chain/src/orphan_broker.rs:107-132 | A run in which a child of the first block is being verified and its own child is queued behind it |
| `BlockFilters.BlockFilter.StartNumber` | block-filter/src/filter.rs:78-106 | The walk ends right above the last block that chain and filtered branch share; everything below has a filter |
| `BlockFilters.BlockFilter.FilteredBelow` | block-filter/src/filter.rs:75-122 | Chain blocks below a filtered one are filtered, whatever reorganisations came between |
| `BlockFilters.BlockFilter.BuildForBlock` | block-filter/src/filter.rs:124-172 | Builds on the filter of the parent, which is there; does nothing if the filter exists |
| `BlockFilters.BlockFilter.BuildFilterData` | block-filter/src/filter.rs:75-122 | Filters stay closed under parents and are never changed; only chain blocks are added; a completed pass leaves every chain block filtered |

## Left out

- Machine instructions, program loading and the encoding of snapshots: parameters of the model; a snapshot restores the machine it was made from, counter included.
- The system-call front end beyond the check that descriptors are of the right kind: a call that posts a message yields at once.
- Overflow of 64-bit cycle counters and of 32- and 64-bit file numbers and offsets: numbers are unbounded, and appends require that the new entry fits its fields.
- `Scheduler::peek`, `state` and the data accessors: they only read.
- Cycles of machines that are still alive when the root machine exits: they are dropped with the machines, so the account stops there.
- Contextual rules, scripts, proof of work and epochs: one predicate on the blocks before, the block and the switch; the resolution of inputs is modelled.
- The uncle column, epoch columns and the version-bits index of a database transaction: no claim is made about them.
- The switch that disables all checks: modelled in `VerifyBlock`, but excluded from runs, since no block marked verified has then been checked.
- Truncation in runs: it is kept out of the heaviest-tip result, since heavier blocks remain above the new tip; everything else is kept by it.
- Grouping of inputs by transaction when cells are restored: the same cells are restored one by one.
- Assume-valid targets, transaction-pool updates, notifications, metrics and logs.
- Expiry and shrinking of the orphan pool, and the channel that preloads blocks: the channel is a queue that keeps order.
- Errors of files other than a crash, file locks, compression (an invertible codec) and concurrency inside the freezer.
- The content of filter data: a function of the block.
- The database layer, start and stop of threads, network, RPC and command line: they would only add easier members.
