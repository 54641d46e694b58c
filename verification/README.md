# Proofs about the kernel samples

A Dafny model of the parts of the sample modules that hold real state: the interrupt competition
between CPUs, the other simulated-line samples, the intrusive list, the strings it builds, the
compile-command rewriter and the address arithmetic of `container_of`. `dafny verify dfyconfig.toml`
checks everything.

## What is modelled

**Interrupt competition** (`CompetitionModel`, `CompetitionInvariant`, `CompetitionTheorems`,
`CompetitionTermination`, `CompetitionRuns`, `CompetitionMachine`). Any positive number of CPUs, each a stack of a raiser
thread, a bottom half and a top half, raise one line. Every statement is a step of its own, an
increment is a load and a store, and any enabled step may come next. One inductive invariant is kept by
every statement, and everything else follows from it: no bottom half is lost, the captured counter
values are those of an atomic ticket dispenser, raises are conserved, nothing outlives its resources on
the exit path or on any failure path, nobody spins for a lock held on the same CPU, and every run ends.
`CompetitionRuns` has whole runs: what one uninterrupted raise leaves behind, and what happens when
raises come close together. `Machine` is the same program as variables updated in place, each statement proved against the
transition system. Counters are unbounded numbers, because none of them can wrap: N CPUs make at most
10 N raises and count to at most 20 N (`RaisesAreConserved`).

**The environment.** The kernel is assumed to behave as the comment at
`interrupts/concurrency/interrupt_competition.c:4-18` says, and as its interface promises:

- one pending bit per line, so that raises that come together merge (`RaiseLedgerOf`);
- a delivery while the handler is in progress is dropped, one without a handler discarded (`ApplyDeliver`);
- a tasklet's SCHED bit is cleared before its body runs, and its RUN bit lets it run on one CPU at a
  time (`ApplyStartBottom`);
- local interrupts are off in a top half and between `local_irq_save` and `local_irq_restore`
  (`SoftIrqsOff`), a bottom half does not start on a CPU that runs one, and a raiser runs only when
  nothing is stacked above it;
- unregistering the threads waits for them to stop, `free_irq` for a running handler, `tasklet_kill`
  until the tasklet is neither scheduled nor running (`ModEnabled`);
- a failed registration of the threads may have started any number of them, and stops those again;
- in `disable_irq`, the queued work that services a raised line runs at some time after the raise, and
  nothing bounds that time: it may outlast the one-second sleep that follows the raise, or the last sleep.

**Other lines.** `SoftirqDanger` has any number of users who write to the trigger file any number of
times; removing the files keeps new calls out and waits for those under way. `DisableIrq` has the
disabled/pending/resend states of a line. `NetRxSoftirq` has hook invocations on any number of CPUs, each
of three atomic steps, over counters that wrap at any word size; 16 divides the size of a machine word,
and `WrapIsHarmless` shows that the sampling depends on exactly that.

**The list** (`UserList`, `UserListInit`). Real `next`/`prev` writes on a heap ring with a sentinel, tied
to a ghost sequence, and the set of live allocations. Loops follow only pointers of live nodes. Init runs
for any number of users, any outcome of each allocation and any delete targets.

**Strings** (`Text`, `ShoppingCart`). What `scnprintf` leaves in a buffer; the cart loop for carts of any
length; user names for every 32-bit number.

**The rewriter** (`CompDb`). Parsing, splitting, candidate flags, the shared table of verdicts for any
deterministic probe, rewriting, and what a compiler reads before and after.

**Addresses** (`StructLayout`). Layout of nested structs with any members, on 64-bit addresses that wrap.

## Where the code falls short of its description

- `disable_irq` promises one delivery for any number of raises while disabled. It is one delivery if and
  only if the queued work of the last raise ran while the line was still disabled, or no work ran
  (`OnceExactly`). If an earlier raise has marked the line and the work of the last is late, there are two
  (`TwiceIfTheLastIsLate`), also with the five raises of the sample (`FiveRaisesCanBeTwo`). The sleep after
  each raise is there to rule that out, and `RaisesMergeIntoOne` is the case in which it does.
- `compdb.py` keeps the meaning of the options if and only if no value of a value-taking flag is also a
  candidate flag of some command for the same triple that the probe rejected (`CommandKeepsStructure`).
  The rewriting loop, unlike `candidates`, does not skip such values. `LossyCommandsLoseAValue` has two
  commands, `gcc -fx` and `gcc -o -fx b.c`, and any probe that rejects `-fx`: the second command is written
  with the source path as the value of `-o`. Values that do not start with "-" are safe.

## Model

| member | source | states |
|---|---|---|
| CompetitionTheorems.EveryReachableState | interrupts/concurrency/interrupt_competition.c:51-165 | in every state of every interleaving on any number of CPUs: no lost bottom half, exact tickets, ordered reports, conserved raises, resources outlive their users, no self-deadlock, a lock holder that gets to its unlock, and a clean machine once unloaded |
| CompetitionTheorems.NoLostBottomHalf | interrupts/concurrency/interrupt_competition.c:51-81 | if the newest stamp has not been reported, the tasklet is scheduled, a top half is between its stamp and tasklet_schedule, or a bottom half has not yet read |
| CompetitionTheorems.QuiescentReportsNewest | interrupts/concurrency/interrupt_competition.c:14-18 | when nothing runs and nothing is scheduled, the last reported seq is gs_hardirq_run_count |
| CompetitionTheorems.TopRefines | interrupts/concurrency/interrupt_competition.c:70-76 | the val a top half captures is one more than the number of vals captured before |
| CompetitionTheorems.BottomRefines | interrupts/concurrency/interrupt_competition.c:56-60 | the val a bottom half captures is one more than the number of vals captured before |
| CompetitionTheorems.StepRefinesDispenser | interrupts/concurrency/interrupt_competition.c:56-76 | each statement is one indivisible ticket taken or nothing a ticket dispenser can see |
| CompetitionTheorems.EveryRunRefinesDispenser | interrupts/concurrency/interrupt_competition.c:10-12 | every run of the statements is a run of the atomic dispenser, so the counter stays gap-free across hardirq and softirq |
| CompetitionTheorems.TicketsAreExact | interrupts/concurrency/interrupt_competition.c:56-76 | captured vals are pairwise distinct, exactly 1..gs_shared_count while the lock is free, and the counter is the number of increments of both kinds |
| CompetitionTheorems.ReportsAreOrdered | interrupts/concurrency/interrupt_competition.c:56-79 | reported seqs never decrease, lie in 1..gs_hardirq_run_count, never outnumber tasklet_schedule calls; gs_pending_seq is gs_hardirq_run_count while the lock is free |
| CompetitionTheorems.RaisesAreConserved | interrupts/concurrency/interrupt_competition.c:83-95 | raise calls are delivered, pending, merged, dropped, failed or discarded, at most 10 N of them on N CPUs, and gs_shared_count is at most 20 N |
| CompetitionTheorems.RaiseFates | interrupts/concurrency/interrupt_competition.c:8-10 | each raise fails, merges or makes the line pending; a pending one is delivered if the handler is idle, dropped if it is in progress, discarded if it is gone; only a delivery starts the handler |
| CompetitionTheorems.NothingDiscardedBeforeFree | interrupts/concurrency/interrupt_competition.c:130-165 | no raise meets a line without handler while the handler is registered |
| CompetitionTheorems.ResourcesOutliveUsers | interrupts/concurrency/interrupt_competition.c:143-165 | on exit and on every failure path, a running or scheduled context still has everything it uses |
| CompetitionTheorems.UnloadIsClean | interrupts/concurrency/interrupt_competition.c:143-165 | after the last rung nothing runs, is pending, scheduled or held, and the last hardirq has been reported |
| CompetitionTheorems.SpinnersWaitForOthers | interrupts/concurrency/interrupt_competition.c:56-76 | no context spins for the lock while a context of its own CPU holds it |
| CompetitionTheorems.DeliveryIntoCriticalSectionDeadlocks | interrupts/concurrency/interrupt_competition.c:56-60 | a delivery to a CPU whose bottom half holds the lock, which irqsave rules out, would deadlock that CPU |
| CompetitionTheorems.SelfDeadlockIsForever | interrupts/concurrency/interrupt_competition.c:56-76 | and no later step of anybody would resolve that deadlock |
| CompetitionTheorems.HolderReachesUnlock | interrupts/concurrency/interrupt_competition.c:56-76 | the lock holder always has an enabled step, and each brings the unlock one statement nearer |
| CompetitionInvariant.TopKeepsCounters | interrupts/concurrency/interrupt_competition.c:65-81 | every statement of a top half keeps registers, counters and ticket numbering in agreement |
| CompetitionInvariant.TopKeepsAccounts | interrupts/concurrency/interrupt_competition.c:65-81 | every statement of a top half keeps increments, deliveries and schedule calls accounted for |
| CompetitionInvariant.TopKeepsReports | interrupts/concurrency/interrupt_competition.c:65-81 | every statement of a top half keeps a stamp that nobody has read on its way to a reader |
| CompetitionInvariant.BottomKeepsCounters | interrupts/concurrency/interrupt_competition.c:51-63 | every statement of a bottom half keeps registers, counters and ticket numbering in agreement |
| CompetitionInvariant.BottomKeepsAccounts | interrupts/concurrency/interrupt_competition.c:51-63 | every statement of a bottom half keeps increments, starts and reports accounted for |
| CompetitionInvariant.BottomKeepsReports | interrupts/concurrency/interrupt_competition.c:51-63 | a bottom half reads a stamp no older than any read before and at least 1 |
| CompetitionInvariant.HardKeepsContexts | interrupts/concurrency/interrupt_competition.c:65-81 | a top half step keeps mutual exclusion, one handler in progress, and no bottom half suspended with interrupts off under a top half |
| CompetitionInvariant.SoftKeepsContexts | interrupts/concurrency/interrupt_competition.c:51-63 | the same of a bottom half step |
| CompetitionInvariant.DeliverKeepsInv | interrupts/concurrency/interrupt_competition.c:8-10 | a delivery, taken, dropped or without handler, keeps the invariant |
| CompetitionInvariant.StartBottomKeepsInv | interrupts/concurrency/interrupt_competition.c:14-18 | starting the tasklet, which clears SCHED, keeps the invariant |
| CompetitionInvariant.TaskKeepsInv | interrupts/concurrency/interrupt_competition.c:83-95 | every statement of a raiser keeps the invariant, whether the raise succeeds, merges or fails |
| CompetitionInvariant.ModRaisesRank | interrupts/concurrency/interrupt_competition.c:104-165 | each call of init, unwind and exit goes one rung on, or jumps to the unwind path |
| CompetitionInvariant.ModKeepsHoldings | interrupts/concurrency/interrupt_competition.c:104-165 | on every rung exactly the resources acquired and not yet released are held, and no user of a released one is left |
| CompetitionInvariant.KeepsInv | interrupts/concurrency/interrupt_competition.c:51-165 | every step of every context keeps the whole invariant |
| CompetitionInvariant.RunKeepsInv | interrupts/concurrency/interrupt_competition.c:51-165 | so does every run, of any length |
| CompetitionTermination.EveryStepLowers | interrupts/concurrency/interrupt_competition.c:51-165 | a natural-number measure of the remaining work falls on every step |
| CompetitionTermination.EveryRunIsBounded | interrupts/concurrency/interrupt_competition.c:83-95 | on N CPUs no run has more than 263 N + 12 statements |
| CompetitionTermination.SomethingCanHappen | interrupts/concurrency/interrupt_competition.c:104-165 | until the module is gone some step is enabled, whatever waits for what |
| CompetitionTermination.MaximalRunsUnload | interrupts/concurrency/interrupt_competition.c:143-165 | a run that cannot go on has unloaded the module cleanly |
| CompetitionTermination.EveryRunCanUnload | interrupts/concurrency/interrupt_competition.c:143-165 | wherever a run has got to, some continuation unloads the module cleanly |
| CompetitionTermination.RestIsComplete | interrupts/concurrency/interrupt_competition.c:83-95 | when the loaded module can only be unloaded, every CPU has raised exactly 10 times, nothing is pending and the last hardirq has been reported |
| CompetitionMachine.Machine.constructor | interrupts/concurrency/interrupt_competition.c:41-49 | the variables before module_init are an initial state |
| CompetitionMachine.Machine.TopHalfStep | interrupts/concurrency/interrupt_competition.c:65-81 | one statement of the top half on the variables is that step of the transition system |
| CompetitionMachine.Machine.BottomHalfStep | interrupts/concurrency/interrupt_competition.c:51-63 | one statement of the bottom half on the variables is that step of the transition system |
| CompetitionMachine.Machine.RaiserStep | interrupts/concurrency/interrupt_competition.c:83-95 | one statement of a raiser on the variables is that step of the transition system |
| CompetitionMachine.Machine.DeliverLine | interrupts/concurrency/interrupt_competition.c:7-11 | a delivery on the variables is that step of the transition system |
| CompetitionMachine.Machine.LoaderStep | interrupts/concurrency/interrupt_competition.c:104-165 | one call of init, unwind or exit on the variables is that step of the transition system |
| CompetitionMachine.Machine.Step | interrupts/concurrency/interrupt_competition.c:51-165 | the variables follow the transition system on every event |
| CompetitionRuns.ExecOne | interrupts/concurrency/interrupt_competition.c:51-165 | a run of one event is that event |
| CompetitionRuns.ExecAppend | interrupts/concurrency/interrupt_competition.c:51-165 | runs compose |
| CompetitionRuns.FollowOne | interrupts/concurrency/interrupt_competition.c:51-165 | following one event is that event if it can happen and nothing otherwise |
| CompetitionRuns.FollowAppend | interrupts/concurrency/interrupt_competition.c:51-165 | following composes |
| CompetitionRuns.FollowFeasible | interrupts/concurrency/interrupt_competition.c:51-165 | a schedule that can be run is followed to the letter |
| CompetitionRuns.WholeTopHalf | interrupts/concurrency/interrupt_competition.c:65-81 | eleven uninterrupted statements: one hardirq counted, one ticket, its number stamped, lock free, tasklet scheduled |
| CompetitionRuns.WholeBottomHalf | interrupts/concurrency/interrupt_competition.c:51-63 | nine uninterrupted statements: the stamp reported, one ticket, lock free, tasklet idle |
| CompetitionRuns.OneRaise | interrupts/concurrency/interrupt_competition.c:51-95 | a raise nobody interferes with: the next hardirq number is reported, two tickets, one delivery, and the CPU is ready for the next |
| CompetitionRuns.RaisesInTurn | interrupts/concurrency/interrupt_competition.c:51-95 | k raises one after the other are k hardirqs reported in turn and 2 k tickets |
| CompetitionRuns.OneSoftirqForTwo | interrupts/concurrency/interrupt_competition.c:14-18 | two hardirqs before the softirq runs are one report, of the newer |
| CompetitionRuns.SameHardirqTwice | interrupts/concurrency/interrupt_competition.c:14-18 | a hardirq on top of a bottom half that has not read yet is reported twice |
| CompetitionRuns.FirstRaise | interrupts/concurrency/interrupt_competition.c:51-152 | from before module_init on one CPU: after the first raise the tickets are Hard 1 and Soft 2 and the reports are 1 |
| CompetitionRuns.TenRaises | interrupts/concurrency/interrupt_competition.c:51-152 | all ten raises of one CPU can be reported in turn, 1 to 10, with gs_shared_count 20 |
| CompetitionMachine.Machine.Run | interrupts/concurrency/interrupt_competition.c:51-165 | under any schedule the variables end where following it leads, which is its run if it can be run, with the invariant and every guarantee of EveryReachableState |
| SoftirqDanger.KeepsInv | interrupts/danger/sleep_in_softirq_danger.c:147-260 | every statement of users, handler, tasklet and module keeps resources ahead of their users, raises conserved, and a handler run without a bottom half on its way to one |
| SoftirqDanger.RunKeepsInv | interrupts/danger/sleep_in_softirq_danger.c:147-260 | so does every run, with any number of writes |
| SoftirqDanger.EveryRunIsSafe | interrupts/danger/sleep_in_softirq_danger.c:239-260 | nothing runs after what it uses is released, raises are conserved, and the unloaded module has nothing running, pending or held |
| SoftirqDanger.EveryDeliveryIsCovered | interrupts/danger/sleep_in_softirq_danger.c:147-172 | with the handler idle and the tasklet not scheduled, a bottom half has started after the last handler run |
| SoftirqDanger.RaiseFates | interrupts/danger/sleep_in_softirq_danger.c:166-184 | each write's raise fails, merges or makes the line pending; a pending one is delivered, dropped or discarded; only a delivery starts the handler |
| SoftirqDanger.WholeBottomHalf | interrupts/danger/sleep_in_softirq_danger.c:147-164 | a bottom half sleeps once if it finds the gate armed and not at all if not |
| SoftirqDanger.OneWrite | interrupts/danger/sleep_in_softirq_danger.c:147-184 | a write nobody interferes with is one handler run and one bottom half, which sleeps exactly if the gate is armed |
| SoftirqDanger.FirstWrite | interrupts/danger/sleep_in_softirq_danger.c:147-248 | the same from before module_init, after setting the gate |
| SoftirqDanger.UnarmedNeverSleeps | interrupts/danger/sleep_in_softirq_danger.c:147-164 | if the gate was never armed no bottom half sleeps or is about to |
| SoftirqDanger.ExitStepLowersWork | interrupts/danger/sleep_in_softirq_danger.c:250-260 | once the files are gone every step leaves less to do |
| SoftirqDanger.ExitIsBounded | interrupts/danger/sleep_in_softirq_danger.c:250-260 | and at most nine steps for each write caught under way, plus 26, are left |
| SoftirqDanger.ExitNeverStalls | interrupts/danger/sleep_in_softirq_danger.c:192-260 | until the module is gone some step can always run |
| SoftirqDanger.MaximalRunsUnload | interrupts/danger/sleep_in_softirq_danger.c:192-260 | a run that cannot go on, on exit or on any failure path, has unloaded the module cleanly |
| SoftirqDanger.EveryRunCanUnload | interrupts/danger/sleep_in_softirq_danger.c:192-260 | however many writes a run has seen, some continuation unloads the module cleanly |
| SoftirqDanger.ModStepIsNextRung | interrupts/danger/sleep_in_softirq_danger.c:192-260 | one step of the loading thread in the whole state is one rung of the ladder |
| SoftirqDanger.OthersKeepRung | interrupts/danger/sleep_in_softirq_danger.c:147-184 | no step of users, handler or tasklet touches what the loading thread holds |
| SoftirqDanger.DangerModule.Load | interrupts/danger/sleep_in_softirq_danger.c:192-248 | init returns the error of the first call that fails and then holds nothing, or 0 and holds everything, with the virq it was given; the statics pass through the rungs of the transition system one by one |
| SoftirqDanger.DangerModule.Unload | interrupts/danger/sleep_in_softirq_danger.c:250-260 | exit releases everything, and the statics pass through every rung from the loaded one to the last in order |
| DisableIrq.Successes | interrupts/hardirq/disable_irq.c:65-70 | the raises before the first that fails |
| DisableIrq.DisableIrqModule.Service | interrupts/hardirq/disable_irq.c:25-32 | servicing runs the handler once if enabled, and only marks the line if disabled |
| DisableIrq.DisableIrqModule.Enable | interrupts/hardirq/disable_irq.c:76-77 | enabling turns a mark into one queued resend and runs nothing itself |
| DisableIrq.DisableIrqModule.AfterEnable | interrupts/hardirq/disable_irq.c:77-79 | the resend and the late work each run the handler once if they get their turn |
| DisableIrq.DisableIrqModule.Release | interrupts/hardirq/disable_irq.c:86-93 | the unwind ladder releases everything and runs no handler, even with work still queued |
| DisableIrq.DisableIrqModule.Init | interrupts/hardirq/disable_irq.c:34-94 | for any number of raises and any failure: no handler run while disabled, then exactly the deliveries due; the error code; everything held with the virq given, or nothing |
| DisableIrq.DisableIrqModule.Exit | interrupts/hardirq/disable_irq.c:96-104 | exit releases everything and runs no handler |
| DisableIrq.RaisesMergeIntoOne | interrupts/hardirq/disable_irq.c:62-81 | with the sleeps outlasting the queued work, k raises are one delivery if k >= 1 and none if k = 0 |
| DisableIrq.NoTurnNoDelivery | interrupts/hardirq/disable_irq.c:76-88 | without its turn nothing is delivered, nor is anything without a raise |
| DisableIrq.OnceExactly | interrupts/hardirq/disable_irq.c:62-81 | k >= 1 raises are one delivery if and only if the work of the last ran while disabled or no work did |
| DisableIrq.TwiceIfTheLastIsLate | interrupts/hardirq/disable_irq.c:62-81 | k >= 1 raises are two deliveries if and only if the work of the last is late and that of an earlier one was not |
| DisableIrq.FiveRaisesCanBeTwo | interrupts/hardirq/disable_irq.c:18-81 | the five raises of the sample are two deliveries when only the work of the fifth is late |
| DisableIrq.AtMostOnceOnError | interrupts/hardirq/disable_irq.c:86-93 | after j raises the error path runs the handler at most once in every environment if and only if the last raise is not pending behind an earlier mark |
| NetRxSoftirq.WrapIsHarmless | interrupts/deferred/net_rx_softirq.c:36-38 | the wrapped counter selects every 16th packet if and only if 16 divides the word modulus |
| NetRxSoftirq.KeepsLedger | interrupts/deferred/net_rx_softirq.c:23-49 | every atomic step keeps captures, failed pulls and samples in flight equal to the packets due |
| NetRxSoftirq.RunKeepsLedger | interrupts/deferred/net_rx_softirq.c:23-49 | so does every interleaving |
| NetRxSoftirq.SamplingIsExact | interrupts/deferred/net_rx_softirq.c:23-49 | packets 0, 16, 32, ... are sampled, and with no hook in flight captures and failed pulls are the TCP packets over 16, rounded up |
| NetRxSoftirq.WholeHookCounts | interrupts/deferred/net_rx_softirq.c:23-49 | one whole invocation adds one capture or one failed pull exactly if its packet is a sample |
| NetRxSoftirq.Hook.Arrive | interrupts/deferred/net_rx_softirq.c:30-38 | up to the test: no buffer and other protocols change nothing, a TCP packet is counted, and every 16th goes on |
| NetRxSoftirq.Hook.Pull | interrupts/deferred/net_rx_softirq.c:40-42 | a failed header pull gives the sample up |
| NetRxSoftirq.Hook.Count | interrupts/deferred/net_rx_softirq.c:43 | a capture is counted |
| NetRxSoftirq.Hook.Run | interrupts/deferred/net_rx_softirq.c:23-49 | the counters after one invocation; every packet is accepted |
| UserList.UserRing.constructor | data_structure/list.c:45 | the initialised head is a ring of its own with no users |
| UserList.UserRing.LinkLast | data_structure/list.c:160 | the four pointer writes put the node between the last one and the head |
| UserList.AppendLinksAreLinks | data_structure/list.c:160 | a ring with a node linked behind its last is a well-formed ring with that node at the end |
| UserList.UserRing.ListAddTail | data_structure/list.c:160 | the ring gains exactly that node at the end and stays well formed |
| UserList.SkipLinksAreLinks | data_structure/list.c:119 | a ring whose node k is bypassed is a well-formed ring of the other nodes in the same order |
| UserList.UserRing.Unlink | data_structure/list.c:119 | the pointer writes bypass exactly node k and poison its own pointers |
| UserList.UserRing.ListDel | data_structure/list.c:119 | the ring loses exactly that node, keeps the order of the rest and stays well formed |
| UserList.UserRing.GetUserInfo | data_structure/list.c:60-76 | the first user with that name, or NULL exactly when there is none or no name |
| UserList.UserRing.DeleteUserInfo | data_structure/list.c:111-123 | the first user with that name leaves the ring and is freed; -ENOENT and no change exactly when there is none |
| UserList.DeletedIsGone | data_structure/list.c:111-123 | with distinct names a deleted name is gone, a second delete changes nothing, and nobody else is affected |
| UserList.UserRing.FreeStep | data_structure/list.c:130-133 | one turn frees the user and goes on to the saved successor, which is still live |
| UserList.UserRing.FreeAllUserInfos | data_structure/list.c:125-134 | every user is freed exactly once and the ring is empty |
| UserList.UserRing.CountNodes | data_structure/list.c:96 | the count is the number of users |
| UserList.PrintLines | data_structure/list.c:105-108 | one line for each user, in order, with the cart text |
| UserList.PrintAllUserInfos | data_structure/list.c:92-109 | the count, the first and last names when there are any, and the lines |
| UserListInit.InitNamesDistinct | data_structure/list.c:146-153 | the names init gives to up to 2^32 users are distinct |
| UserListInit.AddUser | data_structure/list.c:147-160 | one turn of the loop appends a filled-in user, or changes nothing when there is no memory |
| UserListInit.AddUsers | data_structure/list.c:146-161 | for any n and any failing allocation: -ENOMEM with the live set as before and an empty ring, or all n users in order |
| UserListInit.DeleteTargets | data_structure/list.c:188-195 | the results and the remaining names of the delete loop, and exactly what left the ring is freed |
| UserListInit.DeletesAddUp | data_structure/list.c:188-195 | users left and successful deletes add up to the users there were |
| UserListInit.DeletedAllIsOthers | data_structure/list.c:188-195 | the delete loop leaves the names that are no target, in their order |
| UserListInit.DeleteResultAt | data_structure/list.c:188-195 | a delete succeeds exactly for a name that is there and was not deleted before |
| UserListInit.SampleDeletes | data_structure/list.c:139-140 | the four deletes of the sample: number 1 and number 4 if there are so many, and -ENOENT for number 1 again and for nobody |
| UserListInit.UpdateUser | data_structure/list.c:175-186 | the first user with that name has the new age and cart, nobody else's change |
| UserListInit.LookUpAll | data_structure/list.c:165-173 | each lookup gives the age of the first user with that name, or none |
| UserListInit.LookUpAndUpdate | data_structure/list.c:163-186 | the listing and the ages logged are those before the update, and username#3 alone gets age 99, milk and ham |
| UserListInit.FindUserName | data_structure/list.c:146-160 | number i is found where init put it |
| UserListInit.SampleLookups | data_structure/list.c:138 | the three lookups of the sample find numbers 2 and 4 as drawn, if there are so many, and nobody else |
| UserListInit.Fill | data_structure/list.c:146-186 | init up to the deletes: the users listed and looked up are as drawn, then number 3 is updated; or nothing is left |
| UserListInit.DeleteFromFilled | data_structure/list.c:188-195 | names left, delete results, users left plus deleted equal to n, each user left as drawn or updated |
| UserListInit.ModuleInit | data_structure/list.c:136-206 | all of that, the listings and ages logged before and after, and live nodes exactly those in the ring; or -ENOMEM with the live set as before |
| UserListInit.ModuleExit | data_structure/list.c:208-212 | every user still in the ring is freed and the ring is empty |
| UserListInit.DeletedAllMembers | data_structure/list.c:188-195 | a name survives the delete loop if and only if it was there and is no target |
| UserListInit.FinalUsers | data_structure/list.c:139-140 | for any n the users left are all but number 1 and number 4 |
| Text.Scnprintf | data_structure/list.c:85-86 | stores what fits before a NUL inside the room given, returns the number stored, touches nothing beyond the room |
| Text.CutAppend | data_structure/list.c:84-86 | filling a buffer piece by piece is cutting the whole text once |
| Text.NumberOfDecimal | data_structure/list.c:153 | the decimal digits of a number determine it |
| Text.DecimalLength | data_structure/list.c:153 | a number below 10^k has at most k digits |
| Text.DigitAt | data_structure/list.c:153 | the j-th digit from the right is the j-th decimal digit |
| Text.NoLeadingZero | data_structure/list.c:153 | no number but 0 starts with 0 |
| Text.NameFits | data_structure/list.c:18 | for every 32-bit i the name fits its 32 bytes uncut |
| Text.NamesAreUnique | data_structure/list.c:153 | names are equal if and only if the numbers are |
| ShoppingCart.GetFoodName | data_structure/list.c:47-53 | every code, valid or not, has a name of 1 to 10 characters without comma or NUL |
| ShoppingCart.AddName | data_structure/list.c:84-86 | one turn keeps the buffer the join of the names so far cut to 127 characters, with len at most 127 |
| ShoppingCart.PrintShoppingCart | data_structure/list.c:78-90 | for a cart of any length the text is the comma-separated join cut to 127 characters, or "(empty)" |
| ShoppingCart.TenItemsFit | data_structure/list.c:78-90 | the text of up to 10 items has at most 118 characters and is not cut |
| ShoppingCart.LongCartIsCut | data_structure/list.c:78-90 | the text is a prefix of the join, all of it or 127 characters |
| ShoppingCart.FoodsInOrder | data_structure/list.c:22-43 | the names of the six codes in the order of the enum |
| ShoppingCart.SampleCarts | data_structure/list.c:84-89 | the texts of an empty cart and of milk and ham |
| ShoppingCart.UnknownFood | data_structure/list.c:49-50 | every other code is printed as "unknown" |
| ShoppingCart.SplitJoined | data_structure/list.c:84-86 | splitting on ", " undoes the join |
| ShoppingCart.CodesOfNames | data_structure/list.c:22-43 | inverting the name table gives the codes back |
| ShoppingCart.CartRoundTrip | data_structure/list.c:78-90 | the printed text of a valid cart gives the cart back |
| ShoppingCart.CartTextInjective | data_structure/list.c:78-90 | valid carts are printed alike if and only if they are equal |
| CompDb.Parse | scripts/compdb.py:19-32 | the command of the last savedcmd line and the file of the last source line in the shortest prefix of the file where both are there and not empty, or in the whole file |
| CompDb.CompleteMeans | scripts/compdb.py:30-31 | reading stops exactly when the last command and the last source so far are both there and not empty |
| CompDb.ParsedSample | scripts/compdb.py:22-31 | of two commands before the source the second is taken, and one after it is not read |
| CompDb.SplitAtSemicolon | scripts/compdb.py:37-38 | nothing from the first ";" on is looked at |
| CompDb.SplitAppend | scripts/compdb.py:39 | without ";" splitting goes piece by piece, so that the order is kept |
| CompDb.SplitDropsDependencies | scripts/compdb.py:39 | no token that begins with -Wp,-MMD or -Wp,-MD is left |
| CompDb.SplitKeepsTheRest | scripts/compdb.py:39 | every token that begins with neither occurs as often as before |
| CompDb.SplitTwice | scripts/compdb.py:35-39 | splitting again changes nothing |
| CompDb.TripleIsTheName | scripts/compdb.py:42-44 | the triple is t if and only if the driver is a file called t-gcc, in whatever directory |
| CompDb.TripleOfPath | scripts/compdb.py:42-44 | the triple of dir/t-gcc is t, for every dir and every t without a slash |
| CompDb.ComputeCandidates | scripts/compdb.py:57-67 | the generator yields exactly the probeable single tokens of the reading after the driver, in order |
| CompDb.FlagTables | scripts/compdb.py:15-16 | the flags that take a value and the tokens that may be probed, spelled out |
| CompDb.CandidatesAreSingles | scripts/compdb.py:57-67 | the candidates of a command are exactly the probeable single tokens of the compiler's reading, in order |
| CompDb.WantedIsAsked | scripts/compdb.py:88 | a pair is probed exactly if some command for the triple has the flag as a probeable single token |
| CompDb.CandidatesAreProbeable | scripts/compdb.py:57-67 | no candidate takes a value, starts with a protected prefix, or is -c or -nostdinc |
| CompDb.CollectWanted | scripts/compdb.py:88 | exactly the pairs of a candidate and its command's triple |
| CompDb.ProbeAll | scripts/compdb.py:88-90 | the table has exactly the wanted pairs with the verdict of the probe, in whatever order the probes run |
| CompDb.RejectedFailedAProbe | scripts/compdb.py:91 | a flag is reported as dropped if and only if some command has it as a probeable single token and the probe for its triple failed |
| CompDb.RewriteTokens | scripts/compdb.py:95-100 | the loop rewrites each token after the driver in order |
| CompDb.RewriteCommand | scripts/compdb.py:95-103 | the two insertions put the prefix after the driver in the right order, with a target only if the triple is not empty |
| CompDb.CrossCommandHasTarget | scripts/compdb.py:86-103 | the command of t-gcc is written with -Qunused-arguments and --target=t after the driver |
| CompDb.PlainCommandHasNone | scripts/compdb.py:86-103 | any other command is written with -Qunused-arguments only |
| CompDb.RewriteAll | scripts/compdb.py:88-104 | each command is rewritten with the one shared table |
| CompDb.DroppedIffRejected | scripts/compdb.py:88-100 | a token other than the source is dropped if and only if some command for the same triple has it as a probeable single token and the probe rejects it; otherwise it stays as it is |
| CompDb.TableIsSound | scripts/compdb.py:57-67 | no key of the table is a value-taking or protected flag or no flag at all |
| CompDb.AlwaysKept | scripts/compdb.py:57-67 | value-taking flags, -I, -D, -U, -Wp, tokens and non-flags survive |
| CompDb.ProtectedSurvive | scripts/compdb.py:16 | whatever follows -I, -D, -U or -Wp, such a token survives |
| CompDb.WriteRead | scripts/compdb.py:15 | writing what was read gives the tokens back |
| CompDb.StructurePreserved | scripts/compdb.py:94-104 | the output reads as the input minus rejected flags and with the source replaced, in order, if and only if no value was rejected |
| CompDb.StructurePreservedForPlainValues | scripts/compdb.py:94-104 | in particular if no value of a value-taking flag starts with "-" |
| CompDb.CommandKeepsStructure | scripts/compdb.py:88-104 | the same of a whole command, with driver and prefix first and the condition in terms of candidates and probe |
| CompDb.LostTokens | scripts/compdb.py:94-100 | each rejected value makes the output one token shorter than intended |
| CompDb.LostValueShiftsReading | scripts/compdb.py:94-100 | whenever the value of -o is a rejected flag, -o takes the source path instead |
| CompDb.LossyCommandsLoseAValue | scripts/compdb.py:88-104 | two commands that lose a value that way under any probe that rejects the flag |
| StructLayout.SizeIsAligned | data_structure/container_of.c:11-21 | sizes are positive multiples of the alignment |
| StructLayout.PathIsAligned | data_structure/container_of.c:11-21 | in an aligned object every member, however deeply nested, is aligned |
| StructLayout.PathIsInside | data_structure/container_of.c:11-21 | every member lies inside the object |
| StructLayout.ApartIsDisjoint | data_structure/container_of.c:11-21 | members neither of which contains the other do not overlap |
| StructLayout.NestedOffset | data_structure/container_of.c:43 | the offset of a nested member is the sum of the two offsets |
| StructLayout.RecoversContainer | data_structure/container_of.c:41-43 | container_of undoes taking a member's address for every base, and the other way round, even where addresses wrap |
| StructLayout.AddressInside | data_structure/container_of.c:34-36 | in an object within the address space a member's address is the base plus its offset, inside the object |
| StructLayout.NestedAddress | data_structure/container_of.c:36 | the address of a nested member is the same in two steps or in one |
| StructLayout.OnlyTheRightMember | data_structure/container_of.c:41-43 | container_of with another member gives the right base if and only if the offsets agree, which they never do for members apart from each other |
| StructLayout.SampleLayout | data_structure/container_of.c:11-21 | the offsets and sizes of the two structs of the sample |
| StructLayout.SampleRecoveries | data_structure/container_of.c:34-66 | the three recoveries of the sample give &obj, wherever obj is |

## Left out

- Log text and context flags (`in_hardirq()` and friends): output only. What the interrupt samples log is kept as history (tickets, reports, run counts), what the list logs as returned values.
- Kernel internals of irq_sim, genirq, tasklets, smpboot, debugfs and the scheduler: only the behaviour listed under "The environment".
- Memory ordering: steps interleave, as atomics and the spinlock promise for the variables they guard; `gs_debugfs_danger_enabled` is one read.
- CPU hotplug: the set of CPUs is fixed, so parking and unparking of raisers is not modelled.
- Time: a sleep is no step; in `disable_irq` whether queued work gets its turn in a sleep is a parameter.
- `SoftirqDanger`: contexts are not placed on CPUs, because the properties are about counts and order; what the illegal sleep does to the kernel is not modelled.
- `DisableIrq.DisableIrqModule.Init`: the number of raises is a parameter instead of 5.
- The netfilter registration around the `net_rx_softirq` hook, and the packet itself beyond what the hook tests.
- The other samples (`tasklet.c`, `bh_workqueue.c`, `workqueue_sample.c`, `threaded_irq.c`, `timer_softirq.c`, `hardirq.c`, `irq_none.c`, `sleep_in_hardirq_danger.c`, `percpu_parallel.c`): easier instances of the same teardown or single-writer counters.
- `UserListInit.ModuleInit`: random ages and carts are arbitrary values within their bounds, and the names to look up and to delete are parameters. A cart is the sequence of its used slots.
- Reuse of a freed address by a later allocation: a freed node is never live again.
- `Text.Scnprintf`: takes text that is already formatted, since only "%s%s" and "%u" occur.
- `compdb.py` before the token lists and after the rewritten ones: globbing, regular expressions, shell splitting, real paths, the filter on paths, subprocesses, the thread pool, JSON. The probe is any deterministic function of flag and triple; an empty argument list, on which `triple_of(args[0])` fails, is not modelled.
- `CompDb.RejectedFailedAProbe`: the sorted order in which dropped flags are printed is not modelled.
- Bit-fields, unions, arrays and packed or over-aligned structs in the layout; the sample is laid out for a 64-bit machine.
- Build plumbing (`Makefile`, `scripts/kmod.mk`, `scripts/sign-module.sh`).
