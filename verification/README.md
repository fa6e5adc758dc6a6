# HBDRAMsim, modelled and proved in Dafny

HBDRAMsim is a cycle-level memory simulator for high-bandwidth DRAM whose banks also feed a
processing array (PIM).  Each channel has a controller that merges, forwards and reorders host
transactions, a command queue with row-hit arbitration, a rotating refresh, and a table-driven timing
model.  On top of the channels sits a PIM command scheduler that tiles a matrix multiplication, and a
crossbar front end for the hybrid memory cube.  This project models that core and proves what it keeps
over whole runs:

* **Timing and bank legality.**  A bank's per-command times are the maximum over the entire issue
  history, so every command that waited for its time meets every applied constraint against every
  earlier command; what the tables ask of any two commands is given in the device's own parameters.  The
  only commands that do not wait are precharges in the PIM weight queue; which of
  them come too soon is known before the cycle, and a run is given in which two that the banks themselves
  asked for break the timing.  Every access hits the row of the activation in force; refreshes find their
  banks closed; the activation window holds although at most one expired entry is dropped per activation.
* **Atomic memory.**  Despite merging, forwarding and out-of-order issue, each read returns the value of
  the latest write to its address accepted before it; every accepted transaction is in exactly one place
  and is returned at most once.  What a cycle fetches is a function of the state before it, and so are the
  two things that can go wrong: it reaches one of the simulator's error exits if and only if its PIM part
  runs and meets a precharge it cannot take, and it loses a read or write if and only if it fetches one
  while the PIM part runs.  A lost address is stuck for ever; on every device a run loses a read.  A fetched
  command is issued otherwise, and a read that an idle controller accepts comes back in a cycle known in
  advance.  Nothing leaves a PIM queue without being issued but activations while a refresh waits.
* **Refresh hand-off and dual issue.**  From the cycle a refresh is at the front until it issues, no
  activation reaches its banks; a second command of a cycle never loses a dequeued access.
* **PIM scheduler.**  All tiles are visited exactly once in lexicographic order, each at the layout place
  computed for it, and each vector is accessed if and only if its step was not a precharge; outputs are
  written only after all their passes; the scheduler's own assertion holds.  In every run a lane is marked
  exactly while an activation sent for it is in force.  Every fair run (activations,
  stalls and refreshes in any order, an advancing cycle always still to come) ends with all steps done,
  provided there is one output tile or the output wait is shorter than the time between two output tiles.
  That condition is exact for granted runs with equal row tiles, and with one row tile there is an exact one
  for the run in which banks have to be opened.  With several column tiles, a request meets a bank with
  another row open, which ends the simulation, exactly in the plans in which the inputs of a row tile
  other than the last run over the end of a bank row.
* **Channels in lock-step.**  Controllers that serve PIM work and no host traffic, and that start alike, are
  asked, answered, sent and advanced alike in every cycle of every run, whatever their channel number.
* **The hybrid memory cube.**  The crossbar together with the controllers of its vaults conserves requests
  and responses, and every response a vault returns is found.  Each logic cycle moves exactly one head to each
  free goal, the first in the order of service, and a request alone in the cube is handed back in the logic
  cycle that its trip through crossbar and vault determines.  **Clock ratio, address mapping, PIM
  transaction encoding.**

## Reading guide

Commands and values: `Commands`, `Sequences`, `Arithmetic`, `Bits`, `Tiling`, `Packets`.
Specifications that the stateful classes are proved against: `TimingSpec` (issue histories and
constraints), `BankSpec` (the bank automaton), `ActivationWindow`, `ChannelSpec`, `QueueSpec`, `PimCycles` and
`HostCycles` (a channel, its queues, and the PIM and host side of a controller, as values), `AgeQueues` and
`Crossbars` (the cube's crossbar as a value), `MemoryBooks` (transactions and the atomic
memory), `PimPlans`, `PimMarks` and `PimCoverage` (the tile sweep).
Classes that update their state in place: `Banks.BankState`, `Channels.ChannelState`,
`CommandQueues.CommandQueue`, `Refreshes.Refresh`, `Controllers.Controller`,
`PimSchedulers.PimScheduler`, `HmcSystems.HmcSystem`, `PimCodec.FrontEnd`.
Whole runs and compositions of these: `Naming`, `PimLockstep`, `Twins`, `LostReads`, `RefreshGaps`,
`PrechargeTimes`, `LoneAccess`, `LoneReads`, `PimPacing`, `PimOpening`, `PimRows`, `HmcVaults`, `HmcTrips`, `HmcCubes`,
`HmcLone`.
Ghost fields (`history`, `log`, `done`, `dram`, `loads`, `streams`, `outs`, `accepted`, ...) record what
happened; they are bookkeeping for the proofs and not part of the simulator.
What lies outside (host traffic, the answers of the channels to the scheduler) is a parameter of each cycle
and unconstrained unless a contract says otherwise.

## Model

| member | source | states |
|---|---|---|
| `TimingSpec.HorizonMeaning` | src/bankstate.cc:216-220 | the running maximum kept per bank and command is reached exactly when the time respects every earlier command of the history |
| `TimingSpec.OnTimeExtend` | src/channel_state.cc:140-197 | one more command leaves the others as they were and meets every constraint of every earlier command exactly when each bank it touches has reached its time |
| `BankSpec.RequiredIsLegal` | src/bankstate.cc:29-214 | the command the bank demands for a request never leads the bank automaton to its abrupt exit |
| `BankSpec.AbortsExactly` | src/bankstate.cc:29-122 | a bank asked for a command ends the simulation exactly for what is neither an access nor, while it is awake, a refresh or a self-refresh entry |
| `BankSpec.ReplayMeaning` | src/bankstate.cc:124-214 | after any history a bank is open exactly when some activation is still in force; that activation names the open row, and the hit counter counts the accesses since it |
| `BankSpec.LegalityExtends` | src/bankstate.cc:124-214 | a command allowed by the replayed banks keeps "accesses hit the open row" and "refreshes find banks closed" for the longer history |
| `ActivationWindow.PushKeepsWindow` | src/channel_state.cc:282-306 | with one expired entry dropped per activation the list stays within its depth and the n-th activation stays a full window after the (n - depth)-th |
| `ActivationWindow.PushSummarises` | src/channel_state.cc:293-306 | the list always holds the most recent activations; every activation it no longer holds had expired |
| `Banks.BankState.UpdateState` | src/bankstate.cc:124-214 | the bank moves as the automaton says, and reports the abrupt exit exactly where the automaton has no successor |
| `Banks.BankState.UpdateTiming` | src/bankstate.cc:216-220 | the time of one command kind is raised to the maximum, the others stay |
| `Channels.ChannelState.constructor` | src/channel_state.cc:4-22 | a fresh channel satisfies all history properties with an empty history |
| `Channels.ChannelState.RankNeedRefresh` | src/channel_state.cc:61-74 | adds the rank's request at the back or drops the first one of that rank |
| `Channels.ChannelState.BankNeedRefresh` | src/channel_state.cc:44-59 | adds the bank's request at the back or drops the first one of that bank |
| `Channels.ChannelState.GetReadyCommand` | src/channel_state.cc:76-115 | the abrupt exit is taken exactly for a request that is neither an access, a refresh nor a self-refresh entry (a self-refresh exit included, as no bank sleeps); otherwise the answer is the one the history implies: a ready one is issuable now and is the request, its activation or a precharge, and none means the request itself is not issuable |
| `Channels.ChannelState.RankReady` | src/channel_state.cc:80-103 | a rank refresh or self-refresh entry is ready only when all its banks are, otherwise the first open bank that can be closed is closed; a self-refresh exit ends the simulation at the first bank |
| `Channels.ChannelState.FanOut` | src/channel_state.cc:140-274 | the four fan-out loops together give every bank exactly the list of its own relation to the issued command |
| `Channels.ChannelState.UpdateActivationTimes` | src/channel_state.cc:293-306 | new window lists of a rank after an activation |
| `Channels.ChannelState.UpdateState` | src/channel_state.cc:117-138 | every touched bank moves without abrupt exit and the finished refresh leaves the queue |
| `Channels.ChannelState.UpdateTimingAndStates` | src/channel_state.cc:140-280 | issuing any command its banks can take extends the history and keeps all whole-run properties (open-row hits, closed refreshes, activation windows, times); it goes on record as early exactly when it came before its time |
| `Channels.ChannelState.SoundTiming` | src/channel_state.cc:140-197 | the whole history meets every constraint between any two of its commands exactly when nothing is on record as early |
| `PrechargeTimes.TooSoonExactly` | src/controller.cc:128-137 | a weight queue in which each precharge is the first entry for its bank and finds it open sends all of them in time exactly when each is due at the start of the cycle and, on devices that separate precharges, no two are for one rank |
| `PrechargeTimes.BreaksTiming` | src/controller.cc:109-137 | a run on every device that separates precharges: two banks answer with a precharge each, both are sent, and the history breaks a constraint |
| `PimCycles.NeverTooSoon` | src/controller.cc:139-202 | nothing but a precharge of the weight queue can come too soon |
| `Channels.ChannelState.OneAccessPerCycle` | src/channel_state.cc:140-175 | in the cycle of a read or write no second read or write is issuable, when all access-to-access delays are positive |
| `CommandQueues.CommandQueue.TargetsHeldBack` | src/command_queue.cc:146-171 | every command for a bank that a refresh targets sits in a queue that the refresh holds back |
| `CommandQueues.CommandQueue.QueueIndexInjective` | src/command_queue.cc:164-171 | with a queue per bank, different banks have different queues |
| `QueueSpec.TurnComes` | src/command_queue.cc:36-54 | the round robin is fair: a queue that could be served but is not comes closer by the steps the turn takes, so it is served before any other is served twice |
| `QueueSpec.ClosesAfterFour` | src/command_queue.cc:77-110 | while a waiting command hits the open row, the row may be closed exactly after the fourth access since the activation that opened it |
| `CommandQueues.CommandQueue.AddCommand` | src/command_queue.cc:127-136 | a command joins the back of its own queue exactly when there is room |
| `CommandQueues.CommandQueue.ArbitratePrecharge` | src/command_queue.cc:77-110 | a precharge is allowed exactly when no earlier entry wants the bank and no later entry hits the open row, or four hits have been served |
| `CommandQueues.CommandQueue.HasRWDependency` | src/command_queue.cc:218-230 | finds a read of the same cell ahead of the entry exactly when there is one |
| `CommandQueues.CommandQueue.GetFirstReadyInQueue` | src/command_queue.cc:178-196 | answers for the earliest eligible entry, and with nothing only if no entry is eligible |
| `CommandQueues.CommandQueue.EraseRWCommand` | src/command_queue.cc:198-208 | the entry that was answered is found and removed, so the exit for a missing command is never taken |
| `CommandQueues.CommandQueue.GetCommandToIssue` | src/command_queue.cc:36-54 | round robin: the first queue not held back that has an eligible entry answers, and a read or write leaves its queue; the answer is the one the queues and the channel determine beforehand |
| `QueueSpec.RoundRobinMeaning` | src/command_queue.cc:36-54 | that answer is the first eligible entry of the first queue that is not passed over, and none exactly when all are |
| `QueueSpec.FirstReadyMeaning` | src/command_queue.cc:178-196 | within a queue it is that of the first eligible entry, and none exactly when no entry is eligible |
| `CommandQueues.CommandQueue.GetRefQIndices` | src/command_queue.cc:146-162 | collects exactly the queues of the refresh's banks |
| `CommandQueues.CommandQueue.FinishRefresh` | src/command_queue.cc:56-75 | answers with an issuable precharge or the front refresh; holding back ends exactly with the refresh |
| `Refreshes.TargetSlot` | src/refresh.cc:70-90 | request n targets the place whose mixed-radix number (group fastest, then bank, then rank) is n modulo the period |
| `Refreshes.TargetStep` | src/refresh.cc:70-90 | stepping the three counters with carries visits the targets in the order of their numbers |
| `Refreshes.OncePerPeriod` | src/refresh.cc:37-90 | in any period of consecutive requests each target is requested exactly once |
| `Refreshes.RefreshedOnce` | src/refresh.cc:37-90 | so of any period of consecutive requests exactly one command acts on the bank, by its rank or by itself |
| `Refreshes.ComingExact` | src/refresh.cc:30-35 | the look-ahead holds exactly when a refresh instant lies within the margin of the 32-bit clock value it uses |
| `Refreshes.PredictsExactly` | src/refresh.cc:30-35 | the look-ahead is right for all intervals and margins exactly from clock 1 to the last 31-bit clock |
| `Refreshes.Refresh.ClockTick` | src/refresh.cc:22-68 | a request joins the queue exactly at the positive multiples of the interval, and it is for the next target in rotation |
| `TimingTables.SpacedExactly` | src/timing.cc:76-182 | the built tables keep any two accesses apart if and only if the access-to-access delays for the bank relations that occur are all positive |
| `TimingTables.BankRefreshDelays` | src/timing.cc:311-332 | a bank refresh constrains the other banks of its rank but not the bank it refreshes |
| `RefreshGaps.RefreshThenActivate` | src/timing.cc:311-332 | on every channel in which a refresh and an activation of one bank are issuable, both are issued in one cycle and neither counts as early: nothing waits for the bank refresh time |
| `TimingTables.CommandDistances` | src/timing.cc:7-300 | in every history that meets the tables: tRC, tRAS, tRCD (host and PIM accesses) and tRP between any two commands, however far apart |
| `TimingTables.NeededExactly` | src/timing.cc:76-357 | the tables ask of a command of kind k on a bank, after any earlier command, exactly the delay that a rule in the device's own parameters gives for the two commands and how their banks lie to each other, or none |
| `TimingTables.TablesMeaning` | src/channel_state.cc:140-197 | so a history meets every constraint of the tables if and only if any two of its commands, on every bank the later one touches, are as far apart as that rule asks |
| `TimingTables.AccessDistances` | src/timing.cc:76-182 | spelled out: the distance from one host access to the next, by kind and by bank, bank group and rank |
| `TimingTables.AccessToClose` | src/timing.cc:20-241 | from a host or PIM access to the precharge of its bank (read to precharge, write recovery), and from one that closes its bank to the bank's next activation or refresh |
| `TimingTables.PimDistances` | src/timing.cc:183-216 | from one PIM access of a bank to the next: read to read, read to write, write to read and write to write |
| `TimingTables.RefreshWaits` | src/timing.cc:131-300 | a rank refresh waits for every bank of the rank: tRP after a precharge, and the recovery as well after a closing access |
| `TimingTables.NeighbourDistances` | src/timing.cc:243-310 | between activations, from an activation to a bank refresh, and between precharges, of different banks of a rank |
| `TimingTables.RefreshDistances` | src/timing.cc:311-340 | likewise tRFC after a rank refresh, and tRFC and tREFI after a refresh of another bank of the rank |
| `TimingTables.RankRefreshDistance` | src/timing.cc:336-341 | two refreshes of one rank are tRFC apart |
| `MemoryBooks.AcceptWriteKeeps` | src/controller.cc:271-305 | accepting a write, merged or queued, keeps the atomic-memory and conservation invariant |
| `MemoryBooks.AcceptReadKeeps` | src/controller.cc:271-305 | accepting a read, forwarded, joined or queued, keeps the invariant |
| `MemoryBooks.ScheduleKeeps` | src/controller.cc:308-338 | moving a transaction into its command queue keeps the invariant, under the conditions the scheduler tests |
| `MemoryBooks.ServeReadKeeps` | src/controller.cc:340-382 | a read command completes all pending reads of its address with the value an atomic memory would return |
| `MemoryBooks.ServeWriteKeeps` | src/controller.cc:340-382 | a write command stores the buffered value without changing what any accepted read will return |
| `MemoryBooks.DiscardKeeps` | src/controller.cc:109-202 | an access fetched while PIM commands wait is lost, on record, and nothing else changes |
| `MemoryBooks.HandBackKeeps` | src/controller.cc:45-63 | handing back a finished transaction keeps the invariant |
| `MemoryBooks.NoReadOvertaken` | src/command_queue.cc:178-230 | when a write may issue, every read of its address accepted before it has been served or is recorded as lost |
| `MemoryBooks.PendingFound` | src/controller.cc:340-382 | every queued read has pending reads and every queued write exactly one pending write, so the two "not in queue" exits are unreachable |
| `MemoryBooks.ExactlyOnce` | src/controller.cc:45-63 | each accepted transaction is in exactly one of returned, about to return, pending; each pending read is backed by exactly one read in flight |
| `MemoryBooks.ReturnedOnce` | src/controller.cc:45-63 | no transaction is returned twice |
| `MemoryBooks.NeverReturned` | src/controller.cc:80-123 | a pending read of an address whose read command was lost is neither returned nor about to be, and no command for it is left |
| `LostReads.LosesRead` | src/controller.cc:73-123 | a run on every device: a read is accepted and queued while PIM work opens its row, and in the next cycle it is fetched and lost to more PIM work |
| `Controllers.Controller.AddTransaction` | src/controller.cc:271-305 | the queues, buffers and return queue change as the accepting transition says and all invariants hold |
| `Controllers.Controller.ReturnDoneTrans` | src/controller.cc:45-63 | hands back the first transaction that is due, and none only if none is due; a returned read carries the latest write accepted before it |
| `Controllers.Controller.ScheduleTransaction` | src/controller.cc:308-338 | the queue served is fixed by the draining count; of it the first transaction with room moves to its command queue, unless it is a write of the split buffer whose address has reads pending, which stops the draining; nothing else moves, and the draining count after the cycle is exact |
| `Controllers.Controller.ReadsGoFirst` | src/controller.cc:325-331 | a buffered write that is first in turn while reads of its address are pending moves nothing and ends the draining, so the next cycle serves the reads unless draining would start anew |
| `HostCycles.DrainStarts` | src/controller.cc:310-316 | draining starts exactly with a full write buffer, or with nine writes while no command waits, and then takes all of them |
| `Controllers.Controller.CommandOf` | src/controller.cc:384-394 | the command accesses the transaction's own address, as a write exactly for a write, and closes its row exactly under the close-page policy |
| `Controllers.Controller.IssueCommand` | src/controller.cc:340-382 | effects of an issued command on channel, pending transactions and memory; the failure exit is taken exactly when nothing is pending for it |
| `Controllers.Controller.IssueFetched` | src/controller.cc:80-107 | a command taken from the queues or the front refresh is issued without reaching an exit, and every invariant holds again |
| `Controllers.Controller.IssueSecond` | src/controller.cc:94-107 | with dual issue a dequeued second access is always issued, nothing is dropped and every invariant holds |
| `Controllers.Controller.FirePim` | src/controller.cc:128-200 | each PIM command goes, waits or ends the simulation as the channel value says; a precharge is sent unchecked or ends it; never an activation while a refresh waits; host transactions are untouched |
| `PimCycles.LeavesExactly` | src/controller.cc:112-200 | when a PIM command leaves its queue: its time has come and its bank is ready for it; it is issued, and only an activation while a refresh waits leaves without being issued |
| `PimCycles.DrainFates` | src/controller.cc:112-200 | whatever a queue holds, each entry stays or leaves, in order, and those that leave are issued in order except the activations a refresh drops |
| `PimCycles.DrainSends` | src/controller.cc:112-200 | the new history entries of a queue are those commands, each stamped with this cycle, and the rest of the queue is what stayed |
| `PimCycles.PimPartSends` | src/controller.cc:112-202 | so after the PIM part of a cycle old queues equal what is left merged with what was newly issued, queue by queue, up to the dropped activations |
| `PimCycles.MergesCounts` | src/controller.cc:112-202 | in particular no access and no precharge leaves a queue without being issued, counted with multiplicity |
| `Controllers.Controller.IssuePim` | src/controller.cc:109-202 | the PIM part of a cycle does what the specification of the three queues says, keeps every invariant and performs no activation while a refresh waits |
| `PimCycles.PimPartExactly` | src/controller.cc:128-187 | it goes through if and only if no precharge stands in the input or output queue and the weight queue goes through, which, when nothing before a precharge there opens its bank or closes it with an access, means that every one finds its bank open and no bank is precharged twice |
| `PimCycles.ClosedPrechargeExits` | src/controller.cc:128-137 | whatever else the weight queue holds, a precharge of a closed bank without an activation of the bank before it ends the simulation |
| `PimCycles.SecondPrechargeExits` | src/controller.cc:128-137 | so does a second precharge of a bank, even when the bank is open at the start of the cycle |
| `PimCycles.TurnExits` | src/controller.cc:128-187 | of the PIM commands only a precharge can end the simulation: in the weight queue on a closed bank, elsewhere always |
| `Controllers.Controller.ClockTick` | src/controller.cc:73-202 | what is fetched is fixed before the cycle: the work of the front refresh, or the first eligible entry in round robin over the queues it does not hold back; an exit is reached exactly when the PIM part runs and does not go through, and otherwise every invariant holds again; an access is lost exactly when it is fetched and the PIM part runs, and a stuck address stays stuck; the commands that come too soon are exactly the precharges the weight queue sends before their time; a waiting refresh keeps its banks shut until it issues, and is then the one removed; when the PIM part runs, all that leaves the PIM queues is issued but for activations dropped for a refresh; when it does not, the fetched command is issued, with dual issue the one the round robin comes to next follows it exactly if one of the two is a read or write, the fetched access is served in the books, and then a transaction moves on |
| `HostCycles.TurnedSends` | src/controller.cc:92-108 | the history after a cycle without PIM work: the fetched command and, with dual issue, the second one exactly when one of the two is a read or write |
| `LoneAccess.LoneTurn` | src/controller.cc:73-108 | while one read is alone in a channel, every cycle keeps the time at which it will be issued, closes or opens its row on the way, and issues it exactly then |
| `LoneReads.ServeLone` | src/controller.cc:45-345 | a read that an idle controller accepts, whatever rows are open, under either page policy and with either kind of issue, is issued in the cycle that the history determines and handed back with the right data as soon as that is there |
| `LoneReads.FirstTime` | src/timing.cc:39-253 | on a fresh bank that is the row-to-column delay of the device after the activation |
| `Tiling.OffsetInjective` | src/dram_system.cc:648-675 | tiled row layouts, partial last tile included: different places have different offsets |
| `Tiling.OffsetOnto` | src/dram_system.cc:498-513 | and every offset of the layout belongs to some place |
| `PimPlans.LoadExit` | src/dram_system.cc:465-470 | the loading loop's exit test fires exactly after the vectors that one bank supplies |
| `PimPlans.LoadPlace` | src/dram_system.cc:409-420 | the code's column offset of a weight vector is its place in the weight layout |
| `PimPlans.RowExit` | src/dram_system.cc:491-614 | the row loops' exit test fires exactly after the last row of a full or partial tile |
| `PimPlans.RowPlace` | src/dram_system.cc:498-513 | the code's column offset of a row is its place in the input or output layout |
| `PimPlans.VisitsFollow` | src/dram_system.cc:590-612 | the nested iterator update ends one tile visit exactly where the next begins, in load and stream numbering |
| `PimPlans.StreamsBehind` | src/dram_system.cc:491-614 | when the sweep is at a later output tile, all passes of an earlier tile have been streamed |
| `PimSchedulers.PimScheduler.constructor` | src/dram_system.cc:255-332 | a launched computation starts with all iterators at the first tile and empty traces |
| `PimSchedulers.PimScheduler.Load` | src/dram_system.cc:403-475 | accesses, and precharges too, are exactly one load step, on record with the group that was sent; nothing and activations are none; an activation is sent unless one is marked or a refresh is awaited; sweep order and layout are kept |
| `PimSchedulers.PimScheduler.Stream` | src/dram_system.cc:491-614 | accesses and precharges are exactly one streaming step, taken when exactly the weights up to this visit are loaded |
| `PimSchedulers.PimScheduler.FinishPass` | src/dram_system.cc:590-612 | the iterators move to the lexicographically next visit; the input is marked exhausted exactly past the last one |
| `PimSchedulers.PimScheduler.AwaitArray` | src/dram_system.cc:615-627 | counts down and goes back to loading exactly when the count is out and no output is waiting |
| `PimSchedulers.PimScheduler.CountDown` | src/dram_system.cc:635-637 | a countdown at zero announces one output tile |
| `PimSchedulers.PimScheduler.Write` | src/dram_system.cc:643-747 | an output row has its step only after every pass of its tile was streamed; PIM mode ends only with the input exhausted, so the code's own assertion holds |
| `PimSchedulers.PimScheduler.Tick` | src/dram_system.cc:378-747 | every cycle, whatever the channels answer, keeps the sweep, layout and output accounting and sets the registers as specified; an announcement is lost exactly when a last-K pass starts while the count runs; the work and the waiting left never grow, and shrink in every cycle that serves its phase as long as nothing is lost; what each lane sends is returned |
| `PimSchedulers.MarksAgree` | src/dram_system.cc:446-471 | in every cycle with any answers: the mark of each lane says exactly whether an activation has been sent since the last closing access and the last awaited refresh, and an activation that is answered in its phase is sent exactly if its lane is not open and no refresh is awaited |
| `PimSchedulers.PimScheduler.Run` | src/dram_system.cc:378-747 | so in every run of any signals no activation is sent while a refresh is awaited or while its lane is open, on all three lanes |
| `PimMarks.OpenedNext` | src/dram_system.cc:561-580 | a lane is open after one more cycle exactly if that sent an activation, or it was open and the cycle neither awaited a refresh nor closed it |
| `PimSchedulers.PimScheduler.OutputsComing` | src/dram_system.cc:585-638 | as long as no announcement has been overwritten, an unfinished run always has an output announced or counting down |
| `PimSchedulers.PimScheduler.Bounded` | src/dram_system.cc:386-475 | no run does more loads, streams or writes than the multiplication has |
| `PimSchedulers.PimScheduler.Finished` | src/dram_system.cc:716-747 | when PIM mode ends all load, stream and write steps of the multiplication have been taken, each in its numbered place |
| `PimPlans.RowPace` | src/dram_system.cc:584-637 | when the waits are paced the output count always runs out before the next output tile can start |
| `PimSchedulers.PimScheduler.RunFair` | src/dram_system.cc:378-747 | every fair run with paced waits, or with one output tile, ends with all steps taken |
| `PimSchedulers.PimScheduler.NeverEnds` | src/dram_system.cc:584-587 | once an output announcement has been overwritten, PIM mode is never left; no later cycle repairs it |
| `PimPacing.LosesOutput` | src/dram_system.cc:584-637 | when the output wait reaches into the second output tile, its first row overwrites the announcement of the first, and after any number of cycles the run is still going |
| `PimPacing.EndsExactlyWhenPaced` | src/dram_system.cc:378-747 | a granted run ends if the waits are paced and never does if the output wait reaches into the second output tile |
| `PimPacing.PacedOrTooLong` | src/dram_system.cc:584-637 | with equal row tiles, or two output tiles in one column, one of the two is the case; with equal row tiles the condition is one output tile or OutWait < NK * (min(M, mt) + InWait + PerBank + 1) |
| `PimPacing.StaysFinished` | src/dram_system.cc:366-379 | a finished run stays finished, so one that is going after any number of cycles never ends |
| `PimPacing.OpeningLosesOutput` | src/dram_system.cc:403-637 | the same failure when banks must be opened before each first access, for one row tile and several column tiles, once the output wait covers the activations too |
| `PimOpening.OpeningEndsExactly` | src/dram_system.cc:378-747 | with one row tile that run ends if and only if there is one column tile or OutWait < NK * (M + InWait + PerBank + 2) + 1 |
| `PimOpening.OpenTick` | src/dram_system.cc:403-637 | each cycle of that run keeps place, open banks and output count in step, so that the count runs out before the next output tile starts |
| `PimPacing.OpenedBetween` | src/dram_system.cc:421-471 | in that run an activation is sent between a closing access and the next access, and before the first access, of weights and of inputs |
| `PimCoverage.EveryLoad` | src/dram_system.cc:403-475 | a complete trace holds every (row tile, column tile, inner tile, vector) at its own place |
| `PimCoverage.EveryRowStreams` | src/dram_system.cc:491-614 | every input row meets every (column tile, inner tile) in exactly one step |
| `PimCoverage.EveryOutput` | src/dram_system.cc:643-747 | every row of every column tile has exactly one writing step |
| `PimCoverage.LoadsAccessed` | src/dram_system.cc:457-471 | a complete run accesses every weight vector if and only if no loading step was a precharge |
| `PimCoverage.RowsAccessed` | src/dram_system.cc:572-591 | likewise every input row for every (column tile, inner tile) |
| `PimCoverage.OutputsAccessed` | src/dram_system.cc:643-747 | likewise every output row of every column tile |
| `PimCoverage.WritesApart` | src/dram_system.cc:648-675 | two writes of a run never share a (row, column) cell |
| `PimCoverage.WeightsApart` | src/dram_system.cc:409-420 | two weight offsets share a cell exactly when tile and vector are the same |
| `PimCoverage.WeightOnto` | src/dram_system.cc:409-420 | the weight layout has no holes |
| `PimCoverage.InputsApart` | src/dram_system.cc:498-513 | two streaming steps read one cell exactly when they read the same row for the same inner tile |
| `PimRows.ServedExactly` | src/bankstate.cc:29-60 | a bank serves a list of accesses, opened where needed, exactly when each finds its own row open or none |
| `PimRows.InputsServed` | src/dram_system.cc:498-519 | a complete run serves all its inputs if and only if there is one column tile or the inputs of every row tile but the last lie in one row of the bank or end at a column end |
| `PimRows.FitsInNumbers` | src/dram_system.cc:498-519 | that condition in numbers, with mt * NK offsets to a row tile |
| `PimRows.Clashes` | src/dram_system.cc:498-519 | a case that fails it: tiles of 256 rows, three inner tiles and 512 columns |
| `PimRows.PrechargeEnds` | src/controller.cc:139-164 | the precharge that answers any other request ends the simulation once it is in the input queue |
| `PimRows.WeightsServed` | src/dram_system.cc:409-425 | loading weights never finds another row open |
| `PimRows.OutputsServed` | src/dram_system.cc:660-688 | neither does writing outputs |
| `Lockstep.GatherAll` | src/dram_system.cc:412-443 | the gathering loop sends all commands of all channels when they are of one kind, and nothing otherwise |
| `Lockstep.GatherStream` | src/dram_system.cc:502-559 | the streaming loop sends the channels after the last gap, without reads if kinds were mixed |
| `Lockstep.ServedExactly` | src/dram_system.cc:502-559 | streaming serves exactly the channels after the last gap, and of a mixed group only those with more than reads |
| `Lockstep.StreamedTogether` | src/dram_system.cc:502-559 | so it serves all channels or none exactly when the channels after the last gap that have something left to send are all or none |
| `Lockstep.PartialStream` | src/dram_system.cc:502-559 | a concrete pair of channels of which only the second is served |
| `Lockstep.OrdersOfFlat` | src/dram_system.cc:750-769 | the delivery loop gives each channel exactly its own commands in order |
| `Lockstep.SameOrders` | src/dram_system.cc:412-559 | channels that answer alike are sent equal commands by either loop |
| `Naming.PlainCycle` | src/controller.cc:73-202 | a cycle of a controller without host traffic does the same whatever the channel number and the byte addresses are |
| `PimLockstep.AllOrNone` | src/dram_system.cc:412-559 | channels in equal states are sent each vector alike: all of them or none |
| `PimLockstep.StepAlike` | src/dram_system.cc:378-778 | they end the simulation together or go on together, and are then in equal states again |
| `PimLockstep.StayAlike` | src/dram_system.cc:378-778 | channels that start in equal states (banks, times, windows, refresh, PIM queues) are in equal states after every run of requests |
| `Twins.TickBoth` | src/controller.cc:73-202 | two controller objects without host traffic in equal states exit together or are in equal states again |
| `Twins.DeliverBoth` | src/dram_system.cc:750-778 | delivering commands alike keeps them in equal states |
| `Twins.TwinBanks` | src/bankstate.cc:124-220 | equal states mean equal bank states and equal times for every command |
| `HmcSystems.ClockRatio` | src/hmc.cc:305-319 | the logic period that follows from the link, cut to the DRAM period; it is usable exactly for logic speeds up to a terahertz |
| `HmcSystems.HmcSystem.WillAcceptTransaction` | src/hmc.cc:330-341 | true exactly when some link has room |
| `HmcSystems.HmcSystem.AddTransaction` | src/hmc.cc:343-395 | a known block size is accepted exactly when a link has room, others are refused; one packet of the right kind joins the first link with room from the next one in turn on, and its response the table |
| `HmcSystems.HmcSystem.InsertReqToLink` | src/hmc.cc:397-417 | succeeds exactly when the link has room, and adds the request together with its awaited response |
| `HmcSystems.HmcSystem.InsertHMCReq` | src/hmc.cc:419-441 | the round-robin search succeeds exactly when some link has room, takes the first one that has, and leaves the turn with the link after it |
| `HmcCubes.TryQuad` | src/hmc.cc:445-459 | from a quadrant the head leaves exactly when it has arrived, its response has room and the controller of its vault takes it |
| `HmcCubes.QuadsToVaults` | src/hmc.cc:445-459 | the heads that enter are exactly those that have arrived with room for their response and a vault that takes them; every other arrived head finds its vault full; vaults that nothing enters stay as they are |
| `HmcSystems.HmcSystem.ServeLink` | src/hmc.cc:468-490 | the head crosses to its quadrant exactly when that has room and is not busy; otherwise the link ages; the head always exists |
| `HmcSystems.HmcSystem.LinksToCpu` | src/hmc.cc:495-509 | each link hands back its head exactly when its time has come, and those are what is newly handed back, in the order of the links |
| `HmcSystems.HmcSystem.ServeQuad` | src/hmc.cc:518-541 | likewise for responses from quadrants to links |
| `HmcSystems.HmcSystem.CrossRequests` | src/hmc.cc:461-490 | requests in a logic cycle: the indicators ease by two flits, then the links are served one by one in the order of the age queue |
| `HmcSystems.HmcSystem.DrainResponses` | src/hmc.cc:493-542 | responses likewise, after due heads have been handed back |
| `Crossbars.CycledExactly` | src/hmc.cc:461-542 | what that comes to in either direction: a goal with room whose indicator has run down takes exactly one head, that of the first queue in the order bound for it; all others bound for it wait and age by one; a goal that is full or busy takes none; queues that hold nothing stay |
| `Crossbars.LightBoth` | src/hmc.cc:468-485 | packets of no length (block size 0) leave their goal free, so there a second one crosses in the same cycle |
| `AgeQueues.ServedOnce` | src/hmc.cc:589-613 | the order of service holds exactly what waits, each once |
| `AgeQueues.DrainBusy` | src/hmc.cc:461-466 | each positive busy indicator drops by two, the others stay |
| `AgeQueues.BuildAgeQueue` | src/hmc.cc:589-613 | lists exactly the indices with a positive age, each once, in the order that comparing ages with indices gives |
| `AgeQueues.TwoServed` | src/hmc.cc:589-613 | of two that wait, the one the walk comes to last is served first exactly when its age exceeds the index of the other |
| `AgeQueues.ByAgeExactly` | src/hmc.cc:589-613 | so two are served by age, as the comment in the code has it, exactly when that lead agrees with the lead in age |
| `HmcSystems.HmcSystem.VaultCallback` | src/hmc.cc:621-635 | an access returned by a vault always finds an awaited response of its address, which leaves the table and joins the response queue of its quadrant, and nothing else changes |
| `HmcCubes.VaultCycle` | src/hmc.cc:544-567 | all vaults return what is due and have their cycle without reaching an exit, and crossbar and vaults still agree |
| `HmcCubes.StartsWhole` | src/hmc.cc:255-297 | a cube that has just been built starts in agreement |
| `HmcVaults.ReturnAll` | src/hmc.cc:544-557 | everything a vault's controller returns in a cycle is something the cube has recorded inside it, so each callback finds its response |
| `HmcVaults.TakeIn` | src/hmc.cc:445-459 | a request that enters a vault with room keeps the cube and the controller in agreement about what is inside |
| `HmcVaults.OpenCount` | src/controller.cc:45-63 | per address a controller never returns more accesses than it accepted |
| `HmcSystems.HmcSystem.PerAddress` | src/hmc.cc:397-542 | per address, accepted requests equal those handed back plus those in link, quadrant, vault and response queues |
| `HmcCubes.LogicCycle` | src/hmc.cc:444-542 | a logic cycle is responses, the vaults' own cycle if it coincides, entries into vaults and requests, each as specified, and the clocks advance by one period |
| `HmcCubes.ClockTick` | src/hmc.cc:569-587 | a DRAM cycle of crossbar and vaults is a logic cycle together with the vaults' cycle, or that alone, and then exactly the logic cycles before the next DRAM cycle, each following from the one before; it keeps conservation, agreement and the clock relation, with nothing assumed of the vaults; a request alone in the cube is where its trip puts it |
| `HmcTrips.VaultTick` | src/hmc.cc:544-567 | a vault that follows a request alone in the cube has it where it should be, cycle by cycle; a vault without pending reads returns nothing new |
| `HmcLone.SendAlone` | src/hmc.cc:343-635 | in an otherwise idle cube a request, read or write, is handed back as its own response, exactly once, in the logic cycle that follows from its length, the clock ratio, the vault's bank and the response's length |
| `HmcSystems.HmcSystem.LogicClock` | src/hmc.cc:569-587 | after n DRAM cycles the logic clock is n times the DRAM period over the logic period, rounded up |
| `AddressMappings.LogBase2` | src/common.cc:69-76 | halving gives the binary logarithm rounded down |
| `AddressMappings.SetAddressMapping` | src/configuration.cc:356-413 | succeeds exactly for twelve characters naming all six fields, and then the fields tile the low bits without gap or overlap, each below those named before it, so the first is the most significant |
| `AddressMappings.BelowAll` | src/configuration.cc:387-398 | whatever the order, the fields take the sum of their widths |
| `AddressMappings.MapAfterUnmap` | src/configuration.cc:33-48 | in-range coordinates survive unmapping and mapping, for every field order |
| `AddressMappings.UnmapAfterMap` | src/configuration.cc:33-48 | mapping and unmapping a byte address clears exactly the low shift bits and the bits above the fields |
| `PimCodec.LoadRoundTrip` | src/dram_system.cc:333-364 | a packed load is decoded to its partition, kind, size and base row |
| `PimCodec.DataflowRoundTrip` | src/dram_system.cc:279-306 | a packed dataflow word is decoded to all ten parameters it was made from, next cuts, kernel and stride included |
| `PimCodec.LaunchRoundTrip` | src/dram_system.cc:235-253 | a launch word is decoded to exactly the first partitions |
| `PimCodec.FrontEnd.Execute` | src/dram_system.cc:214-366 | registers and queue change as the decoded transaction says; a launch stays until every partition has all its sizes |
| `PimCodec.LoadsReplay` | gen_pim_trace2.py:37-67 | the generated load words of either dataflow leave exactly the workload's halved, divided or multiplied sizes and base rows in the registers |
| `PimCodec.TraceReplay` | gen_pim_trace2.py:17-81 | a generated trace of either dataflow configures and starts every partition if and only if no size vanishes (a halved row count does below 2, a divided size never); otherwise its launch never leaves the queue |
| `PimCodec.DividedRoundTrip` | gen_pim_trace2.py:51-57 | a size divided by a replication factor is decoded to the quotient if and only if the factor divides the size or exceeds it |

## Left out

- Self-refresh: entering and leaving it (src/controller.cc:204-259) is not modelled beyond the answers to a self-refresh entry, because a request to a sleeping bank ends in the simulator's own abrupt exit.
- `Channels.ChannelState.UpdateState`: self-refresh commands are excluded, for the same reason.
- `Channels.ChannelState.UpdateTimingAndStates`: self-refresh commands are excluded, for the same reason.
- Simultaneous refresh of all ranks: its loop stops at the first rank, so the rotation does not apply to it.
- Host transactions are identified by their byte address; two byte addresses of one burst are different cells, as in the simulator's maps.
- Timing delays that come out negative for some devices (write to read across ranks) and then wrap around in 64 bits are excluded by `Device.Sane`.
- `PimSchedulers.PimScheduler.RunFair`: with a partial last row tile the pacing condition is sufficient; waits between it and the gap after the first output tile are left open there, because writing earlier outputs can stretch the gap.
- `PimPacing.EndsExactlyWhenPaced`: those waits are excluded, for the same reason.
- `PimOpening.OpeningEndsExactly`: it is shown for one row tile whose tiles stay inside one row of their bank.
- `PimRows.InputsServed`: it follows the bank's own automaton; a refresh that closes the bank in between, and timing, are left out.
- Lock-step of channels that also serve host traffic is not claimed, because host traffic differs between channels.
- Partitioned multi-tenant runs and the second dataflow's schedule (dataflow 1) are not modelled beyond their transaction encoding.
- `HmcSystems.HmcSystem.AddTransaction`: atomic and posted request types, which the host interface never creates, are left out.
- `HmcSystems.HmcSystem.VaultCallback`: among several awaited responses of one address any may be taken, as with the multimap it models.
- `PimCodec.DividedRoundTrip`: floating-point rounding of very large generated words is not modelled.
- `PimCodec.LoadsReplay`: divided sizes are taken where the division leaves no fraction, as in the next line.
- `PimCodec.TraceReplay`: divided sizes are taken where the division leaves no fraction, which `PimCodec.DividedRoundTrip` shows to be exactly where the words are right.
- `AddressMappings.MapAfterUnmap`: field widths above 31 bits in total, where the 32-bit shifts of the code overflow, are excluded.
- Liveness of ordinary traffic beyond a read alone in its channel: no bound on waiting under continual row hits is claimed.
- `LoneReads.ServeLone`: a refresh requested before the read has been issued is excluded; one that comes later is not.
- `HmcLone.SendAlone`: for a read, a refresh requested in its vault before it has been issued is excluded, and the crossbar's busy indicators have run down.
- `Crossbars.CycledExactly`: packets are one flit long at least, because of `Crossbars.LightBoth`.
- Thermal model, power and energy statistics, ideal memory, configuration file parsing, trace-driven processors and output would only add arithmetic or input and output.
