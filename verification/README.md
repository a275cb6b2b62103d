# fake-nvidia accounting, in Dafny

fake-nvidia simulates GPUs for CPU-only tests. Several independent programs change one
small shared state per GPU (total, used and free VRAM, and a list of process records):
the control command line, fake llama-servers registering themselves, and CUDA programs
allocating through a shim library. This project models that accounting system and the
programs around it, and proves what it promises over all inputs and all interleavings,
with the ways upstream commands, telemetry queries and killed processes can get in between;
where a promise does not hold, the exact condition under which it does is proved instead.

## How the model is laid out

| file | models |
|---|---|
| `Accounting.dfy`, `Text.dfy` | process records, devices, lookup by PID, process-owned memory; decimal numbers, white space and lines |
| `Rebase.dfy`, `SinglePid.dfy` | the three-way merge of process lists; edits of one PID, by the registry and the command line |
| `Operations.dfy`, `Observer.dfy` | the observer's view of a device, what each manager operation plans from it and what every operation keeps; the texts that view is read from |
| `Manager.dfy` | the manager as a class over the shared devices, with upstream failures |
| `History.dfy`, `Protocol.dfy` | traces of atomic operations and what holds along them; any number of manager processes interleaved step by step, and their refinement to traces |
| `Safety.dfy`, `LateWrites.dfy` | what holds in every run, writes of killed processes included; concrete runs with such writes |
| `Commuting.dfy` | disjoint concurrent edits, conflicts, the locked path against the direct one |
| `Split.dfy`, `OnePid.dfy`, `Compensation.dfy`, `Registry.dfy` | splitting memory over GPUs; one PID on one GPU; how a registration over several GPUs goes and is rolled back; the registry itself |
| `Interference.dfy` | a registry among other clients |
| `Engine.dfy`, `Ledger.dfy`, `Fleet.dfy` | the CUDA allocation engine; what it promises by itself; all engines and clients against the counters |
| `Bridge.dfy`, `NativeBridge.dfy` | native tokens across threads; single native calls |
| `Server.dfy`, `Scenario.dfy` | the fake llama-server lifecycle; scenario documents, their runner and its events |
| `Pmon.dfy` | the pmon table printed and read back |
| `Config.dfy` | composing the initial state |

## What the model takes as given

- Counters are bytes; a reader sees them rounded down to MiB, as the observer reads whole
  MiB (`internal/control/observe.go:206-215`). Results that are exact to the byte are for
  whole-MiB amounts; what happens for other amounts is proved too.
- The process listing comes from an external program. It is taken to print one line
  per process with four fields separated by commas, the name last and unquoted
  (`internal/control/observe.go:59-62`). The telemetry table is printed by this repository,
  one row per process, of type `C` (`internal/nvmlpmon/collect_linux.go:220-229`) and with
  the name of its record. The telemetry query is optional (`internal/control/observe.go:70-73`).
- A failed upstream write leaves the state as it was. A write is a child process and outlives
  its parent (`internal/control/control.go:19-21`).
- Upstream outcomes are a script, one entry per command, so every pattern of failures is an
  input. Rounding errors of floating-point quotients are an input as well.
- Go's `uint64` and `uint32` are subset types, so no arithmetic in the model can wrap.

## Where the code falls short of what one might expect

Each of these comes with the exact condition and with a concrete case where it happens.

- An edit of one PID rewrites all records as they were read. Other PIDs keep PID, memory and
  trimmed name always; what is shown of them exactly if the telemetry query worked or there was no
  utilization; the record itself exactly if it was of type `C` with a trimmed name and telemetry
  that reads back (`History.UntouchedPid`, `Operations.SeenExactIff`; cases:
  `History.UntouchedPidMayChange`, `History.UntouchedNameMayChange`).
- A process name with a comma, or with a line break before anything visible, makes the listing
  unreadable, and with it every read of every GPU. Nothing checks names, so such a name is
  accepted, and from then on nothing commits anywhere (`Observer.ListingReadsBack`,
  `History.CommitLegibleIff`, `History.UnreadableBlocksAll`; case: `History.UnreadableAccepted`).
  A registration under such a name over two GPUs leaves the PID on the first one
  (`Compensation.UnreadableNeverRestored`, `Compensation.UnreadableNameLeavesPid`).
- An edit of one PID is refused as a conflict although nobody touched that PID, exactly when its
  record has utilization and the telemetry is there in one of the two reads only: a resize, a
  release or a rollback can be refused that way (`Commuting.TelemetryConflictIff`,
  `Commuting.DisjointConflictIff`, `OnePid.EditOnePid`; cases: `Commuting.ConflictWithoutChange`,
  `Compensation.TelemetryFaultLeavesPid`).
- A manager killed while its write is under way drops the lock at once, and the write may land
  later. That is harmless exactly when the operation, begun at that moment, could read the GPUs
  and would plan the same write, and what the process past the lock has read still holds
  afterwards; it goes unnoticed exactly when it changes nothing; otherwise it overwrites
  something (`Protocol.LateWriteIff`). Then committed updates are lost: the late write erases what
  was committed before it, or the lock holder, having read before it, erases the late write
  (cases: `LateWrites.LateWriteLosesUpdate`, `LateWrites.StaleReadLosesUpdate`). Mutual
  exclusion, totals, used+free within the total, unique PIDs and valid records hold all the same
  (`Protocol.RunExclusive`, `Safety.RunSafe`). That process-owned memory is in use is lost exactly
  by a late memory write that puts less in use than the listed processes own, and until the
  next write on that GPU mends it every release and every change of the list there is refused
  (`Safety.LandingOwnedIff`, `Safety.WellFormedIff`, `Safety.UndercutRefuses`; case:
  `LateWrites.LateReleaseUndercuts`). The other results about runs hold for every stretch from a
  moment with the lock free up to the next overwriting.
- A reservation that is not a whole number of MiB shrinks the visible pool by one MiB, and
  its own release is refused unless at least its odd bytes were seen in non-process use before
  (`Operations.ReservePoolIff`, `Operations.ReleaseAfterReserveIff`; case:
  `Operations.OneByteStaysReserved`). `CUDA.md` promises that a free restores the capacity.
- `ReplaceProcesses` accepts a list with a repeated PID, after which every merge on that GPU
  is refused until the whole list is replaced again (`History.ReplaceUniqueIff`,
  `History.RepeatedPidBlocksEdits`; case: `History.RepeatedPidAccepted`). The base configuration
  is not checked for repeated PIDs either (`Config.ComposeDevice`; case:
  `Config.RepeatedPidComposes`).
- When a registration fails and its rollback meets another failure, the PID stays on exactly
  those GPUs whose first entry in the compensation log was not restored
  (`Compensation.PidLeftIff`; case: `Compensation.SecondFaultLeavesPid`). A failed telemetry query
  is enough, although reads do without telemetry otherwise (case:
  `Compensation.TelemetryFaultLeavesPid`). The server then returns with nothing registered and no
  release error, although its documentation promises a release on every return
  (`Server.Server.Run`).
- A device reset takes its tokens out of the table and never gives the native memory back: a
  run gives everything back exactly when no reset found a token (`Bridge.NoLeakIff`,
  `Bridge.DroppedForGood`; case: `Bridge.ResetLeaks`).
- A sample whose process name is only white space, or with a utilization over 100, is printed by
  pmon but not read back (`Pmon.RowReadsBack`, `Pmon.RoundTrip`; case: `Pmon.BlankNameNotRead`).

## Model

| member | source | states |
|---|---|---|
| Rebase.RebaseProcesses | internal/control/manager.go:231-284 | accepts exactly the duplicate-free lists where nobody else changed a PID the caller edits, and returns current order with edits in place followed by additions in desired order |
| Rebase.MergeIsThreeWay | internal/control/manager.go:231-284 | the merged list holds, for every PID, the caller's record if the caller edited that PID and the current record otherwise, and no PID twice |
| Rebase.EditedInOrder | internal/control/manager.go:259-272 | current records that stay keep their order |
| Rebase.AddedInOrder | internal/control/manager.go:274-282 | additions come in the order in which the caller lists them |
| Rebase.AddedLast | internal/control/manager.go:274-282 | additions come after every current record that stays |
| Rebase.EditsCovered | internal/control/manager.go:245-282 | the checks of the three loops together are exactly "no edited PID changed" |
| Rebase.DropRemoved | internal/control/manager.go:245-257 | the removal loop succeeds iff each removed PID still stands unchanged, and removes exactly those |
| Rebase.OverwriteChanged | internal/control/manager.go:259-272 | the overwrite loop succeeds iff each changed PID still stands unchanged, and overwrites in place |
| Rebase.AppendAdded | internal/control/manager.go:274-282 | the addition loop succeeds iff no added PID is taken |
| Rebase.ProcessesByPid | internal/control/manager.go:286-295 | succeeds iff no PID repeats; the map agrees with lookup in the list |
| Rebase.ProcessIndex | internal/control/manager.go:297-304 | the first position of a PID, or -1 |
| SinglePid.MergePut | internal/fakellama/registry.go:119-128 | "take my record out and append it" merges to an overwrite in place, or a plain addition, and touches only that PID |
| SinglePid.MergeWithout | internal/fakellama/registry.go:146-150 | removing a PID merges to the same list without it, and touches only that PID |
| SinglePid.MergeApart | internal/control/manager.go:231-284 | merged into any list, an edit of one PID leaves the rest of that list as it is, order included |
| SinglePid.OnePidConflictIff | internal/control/manager.go:245-282 | an edit of one PID is refused as a conflict iff it changes that PID's record and the current list holds another one than the snapshot |
| SinglePid.MergeOnePid | internal/control/manager.go:231-284 | an edit of one PID that is no conflict does to the current list what it would do if made from it, or nothing if it asked for what the snapshot showed |
| SinglePid.PutUndone | internal/fakellama/registry.go:146-150 | putting the prior record back, or removing an added one, restores the list exactly, order included |
| SinglePid.WithoutPid | internal/fakellama/registry.go:199-207 | the list without that PID, and whether it was there |
| SinglePid.UpsertProcess | internal/controlcli/controlcli.go:238-309 | the PID must be positive and fit in 32 bits; add needs it absent and starts from a bare record, update needs it present and changes just the fields given; bad flags are refused; the edit touches that PID only |
| SinglePid.EachGiven | internal/controlcli/controlcli.go:273-301 | each flag sets its own field and no other; an empty memory flag sets none |
| SinglePid.FilledTwice | internal/controlcli/controlcli.go:273-301 | adding with some flags and updating with others is adding with the others over the first |
| SinglePid.BadFlagsIff | internal/controlcli/controlcli.go:258-304 | flags are refused exactly if they would make an invalid record of a valid one, or give a memory that cannot be read |
| SinglePid.RemoveProcess | internal/controlcli/controlcli.go:313-340 | needs a positive 32-bit PID that is present; what is left is the list without it, in order, and no other PID is touched |
| Observer.AttachProcesses | internal/control/observe.go:132-159 | the processes of each GPU after all lines, or a refusal at the first bad line |
| Observer.EntryReadsBack | internal/control/observe.go:138-156 | a line of the listing is read back with its name trimmed, or refused iff the name has a comma |
| Observer.EntryIff | internal/control/observe.go:138-156 | whatever numbers, UUID and name a line has: it is read iff the PID is positive and fits in 32 bits, the memory fits in 64, a GPU has the UUID and the name has no comma; what it is read as |
| Observer.ListingReadsBack | internal/control/observe.go:132-159 | if every name on every GPU is readable the listing is read, repeated PIDs included, and gives each GPU its records with trimmed names and no telemetry; it is refused if a name is not, unless some name holds both a comma and a line break |
| Observer.ObserverAgrees | internal/control/observe.go:38-75 | listing and telemetry table read one over the other, in any order of rows, give each GPU exactly the modelled view |
| Text.ReadLines | internal/control/observe.go:225-234 | the trimmed lines that are not empty |
| Operations.SeenExactIff | internal/control/observe.go:132-204 | a record reads back as it is iff it is of type C with a trimmed name and its telemetry is in range, or zero when the telemetry query failed |
| Operations.ViewFind | internal/control/observe.go:132-204 | what a reader finds for a PID is that PID's record as it reads |
| Operations.ReconcileConserves | internal/control/manager.go:174-192 | whatever the replacement list, non-process usage and the used+free pool come out as they went in |
| Operations.ReconcileIff | internal/control/manager.go:174-192 | on any device at all: exactly when a replacement is refused; non-process usage comes out as it was, and the pool too, cut down to the total if it was larger |
| Operations.ReconcileRefusal | internal/control/process_memory.go:16-37 | a list is refused iff a record is invalid or it asks for more than the free memory plus what the old list gives back |
| Operations.AtomicKeeps | internal/control/manager.go:70-192 | every operation, for all amounts and lists, keeps used+free <= total, process-owned <= used, unique PIDs and valid records; the pool it leaves is the pool it read; memory operations leave records alone |
| Operations.AtomicExact | internal/control/manager.go:68-136 | on whole-MiB amounts the pool is constant, a reservation adds exactly its amount to non-process usage and a release takes exactly its amount off |
| Operations.AcceptedIff | internal/control/manager.go:70-192 | exactly which amounts and lists each operation accepts on a well-formed device; the overflow checks never fire; set-used sets used exactly |
| Operations.EditLegibleIff | internal/control/control.go:170-181 | a device stays readable after an edit iff the names it writes are readable |
| Operations.ReservePoolIff | internal/control/manager.go:95-110 | on any device the visible pool survives a reservation iff the amount is whole MiB, and otherwise loses exactly one MiB |
| Operations.ReleaseAfterReserveIff | internal/control/manager.go:113-136 | on any well-formed device releasing what was just reserved succeeds iff its odd bytes were seen in non-process use |
| Operations.OneByteStaysReserved | internal/control/manager.go:113-136 | a concrete reservation whose release is refused |
| Control.AddBytes | internal/control/manager.go:322-327 | the sum, or a refusal iff it does not fit in 64 bits |
| Control.CheckProcess | internal/control/control.go:170-181 | true iff the PID is positive, the type empty, C or G, and all utilizations percentages |
| Control.ProcessBytes | internal/control/manager.go:306-320 | the bytes a list owns, or a refusal iff they do not fit in 64 bits |
| Control.ValidatedProcessBytes | internal/control/process_memory.go:39-62 | the bytes owned, or a refusal iff a record is invalid or the bytes do not fit |
| Control.PlanRelease | internal/control/manager.go:119-134 | the counters after a release, refused beyond non-process usage |
| Control.PerformedIsAtomic | internal/control/manager.go:209-229 | a call is one atomic operation on the GPU its target names, or changes nothing; it succeeds iff all GPUs can be read and read, plan and write succeed |
| Control.Manager.SetUsedMemory | internal/control/manager.go:70-92 | the new state is the specified one: used as asked, pool kept, refused outside owned..pool |
| Control.Manager.ReserveMemory | internal/control/manager.go:95-110 | the new state is the specified one; insufficient memory is reported iff the amount exceeds the visible free memory |
| Control.Manager.ReleaseMemory | internal/control/manager.go:113-136 | the new state is the specified one; refused beyond non-process usage |
| Control.Manager.ReplaceProcesses | internal/control/manager.go:140-148 | the new state is the reconciled replacement |
| Control.Manager.ReplaceProcessesFromState | internal/control/manager.go:154-172 | locked: the caller's edit merged into a fresh read; unlocked: the caller's list written over its snapshot |
| Control.Manager.ReconcileProcessesFromState | internal/control/manager.go:174-192 | the reconciled counters are sent, or nothing |
| Control.Manager.SetProcessesReconciled | internal/control/process_memory.go:16-37 | list and counters are sent together, or nothing |
| Control.Manager.Observe | internal/control/observe.go:78-89 | the first device answering to the target, as observed; refused when any name on any GPU is unreadable |
| Protocol.InvStep | internal/control/manager.go:209-229 | every small step of a process keeps mutual exclusion and the freshness of what was read, and is either invisible or one atomic operation |
| Protocol.RunExclusive | internal/control/manager.go:209-229 | mutual exclusion holds in every reachable state of every run, whoever is killed and whenever their writes land |
| Protocol.RunInvariant | internal/control/manager.go:209-229 | over every stretch of a run from a moment with the lock free to the next overwriting, what the process past the lock has read still holds |
| Protocol.RunRefinesAtomic | internal/control/manager.go:154-172 | every such stretch of an interleaving of lock, queries, write, unlock, kill and late landing is on the devices a trace of atomic operations |
| Protocol.LateWriteIff | internal/control/control.go:19-21 | a landing write of a killed process keeps what the lock holder has read and is its atomic operation iff that operation, begun now, could read the GPUs and would plan the same write and the lock holder's reads still hold afterwards; it keeps that and is no operation iff it changes nothing; it is counted as overwriting in all other cases |
| Protocol.FreeIsInv | internal/control/manager.go:209-229 | whatever happened before, whenever the lock is free nothing that anybody has read is stale |
| LateWrites.LateWriteLosesUpdate | internal/control/manager.go:219-228 | a concrete run in which a late write erases a committed reservation |
| LateWrites.StaleReadLosesUpdate | internal/control/manager.go:219-228 | a concrete run in which a late write lands as its operation would still plan it, and the lock holder, who had read before, erases it |
| LateWrites.LateReleaseUndercuts | internal/control/manager.go:113-136 | a concrete run in which a late release leaves less in use than a listed process owns, so that every release and edit is refused |
| Safety.RunSafe | internal/control/manager.go:70-229 | in every reachable state of every run, writes of killed processes landing at any time included, and for all amounts: each GPU keeps its total, used+free within it, unique PIDs, valid records and a pool no larger than at the start; with whole-MiB amounts each pool is constant |
| Safety.LandingOwnedIff | internal/control/manager.go:113-136 | after a write lands, whenever it was planned, process-owned memory is in use iff it is not a memory write that puts less in use than the listed processes own |
| Safety.WellFormedIff | internal/control/control.go:19-21 | in every run a GPU on which something has landed has the whole accounting invariant iff the last write that landed there did not undercut |
| Safety.UndercutRefuses | internal/control/process_memory.go:16-37 | on an undercut GPU every release and every change of the process list is refused |
| Safety.StretchWellFormed | internal/control/manager.go:70-229 | over every stretch from a moment with the lock free to the next overwriting a GPU with the whole accounting invariant keeps it |
| Protocol.RunKeepsUpdates | internal/control/manager.go:150-172 | over every such stretch what a commit wrote for a PID stays until a later commit edits that PID |
| History.EditByPid | internal/control/manager.go:161-171 | a committed edit gives each edited PID the caller's record and every other PID the record just read |
| History.UntouchedPid | internal/control/observe.go:70-73 | an operation keeps PID, trimmed name and memory of every PID it does not edit; exactly when what is shown of it and when the record itself survive |
| History.UntouchedPidMayChange | internal/nvmlpmon/collect_linux.go:220-229 | concrete cases of lost utilization and lost type |
| History.UntouchedNameMayChange | internal/control/observe.go:236-242 | concrete cases of a trimmed name, and of a blank name that loses its utilization |
| History.RecordPersists | internal/control/manager.go:150-172 | between any two states of any trace a PID that no commit edited keeps its record, its telemetry exactly as far as every telemetry query in between worked |
| History.NoLostUpdate | internal/control/manager.go:150-172 | what a commit wrote for a PID stays until a later commit edits that PID, for arbitrary stale or torn snapshots |
| History.CommitLegibleIff | internal/control/control.go:170-181 | a commit leaves the GPUs readable iff every name it writes on purpose is readable |
| History.UnreadableBlocksAll | internal/control/observe.go:138-141 | once one name on one GPU is unreadable, nothing commits on any GPU for the rest of the trace |
| History.UnreadableAccepted | internal/control/control.go:170-181 | a concrete name with a comma that is accepted |
| History.ReplaceUniqueIff | internal/control/manager.go:140-148 | replacing the list keeps PIDs unique iff the new list has them unique |
| History.RepeatedPidAccepted | internal/control/process_memory.go:39-53 | a concrete list with a repeated PID that is accepted |
| History.RepeatedPidBlocksEdits | internal/control/manager.go:240-242 | once a PID repeats, in every trace no edit on that GPU commits until the list is replaced |
| Commuting.DisjointEditsCommute | internal/control/manager.go:231-284 | two edits from one snapshot on different PIDs both merge, in either order, to the same records |
| Commuting.DisjointConflictIff | internal/control/manager.go:161-171 | the second of two disjoint edits is refused as a conflict iff its own telemetry query fails and it edits a PID whose utilization the snapshot had |
| Commuting.TelemetryConflictIff | internal/control/manager.go:154-172 | over any trace in which nobody else edits a PID, an edit of it is refused as a conflict iff it changes a record with utilization and the telemetry is there in one of snapshot and fresh read only |
| Commuting.ConflictWithoutChange | internal/control/observe.go:70-73 | a concrete removal refused with nobody else around |
| Commuting.DisjointEditsOnDevice | internal/control/manager.go:174-192 | whatever the telemetry outcomes, if both orders commit they end with the same used, free and records apart from telemetry; telemetry too if every query worked |
| Commuting.DirectPathAgrees | internal/control/manager.go:154-172 | with nothing changed since the snapshot, the locked and the direct path accept the same duplicate-free lists with the same counters and a permutation of the same records; a repeated PID is refused by the locked path only |
| Split.SplitProcessMiB | internal/fakellama/registry.go:211-240 | each share but the last is its proportion with its rounding error, rounded down, and the last one the rest, so they add up to the request rounded up to MiB for any rounding errors under one MiB in total; without errors no share but the last exceeds its proportion and the last exceeds its own by less than one MiB per other target |
| Split.NumberWeighs | internal/fakellama/registry.go:221-227 | a target given by number weighs what the tensor split has at that number if that is positive, and 1 if it is not or is past the end |
| Split.UuidWeighsOne | internal/fakellama/registry.go:221-227 | a target given by UUID weighs 1 whatever the tensor split |
| Split.SharesByEntry | internal/fakellama/registry.go:221-239 | without rounding errors a split over targets given by number goes by the tensor split's entries at those numbers |
| Split.SharesByTensorSplit | internal/fakellama/registry.go:221-239 | without rounding errors over targets 0 to n-1 each share but the last is the floor of the total in the proportion of its entry to the sum of the tensor split, and the last is the rest |
| Split.SharesEvenly | internal/fakellama/registry.go:221-239 | without a tensor split each share but the last is the n-th part rounded down |
| Split.PortionIs | internal/fakellama/registry.go:234 | that floor is the largest whole number of MiB the entry is entitled to |
| Split.ThreeToOne | internal/fakellama/registry.go:211-240 | four GiB over two GPUs by 3 to 1 are 3072 and 1024 MiB |
| Split.HandOut | internal/fakellama/registry.go:232-237 | the shares handed out never exceed the total, so the remainder does not underflow |
| Split.ExactWhole | internal/fakellama/registry.go:219-231 | exact proportional shares are non-negative and add up to the whole |
| OnePid.EditOnePid | internal/fakellama/registry.go:119-131 | whatever became of either telemetry query, a one-PID edit of what is shown goes through iff the record fits and the two reads of the PID's old record do not differ on it; exactly what is shown then |
| OnePid.HeldAgain | internal/fakellama/registry.go:137-152 | holding one record and then another is holding the other, to the byte, and what fits is the same all along |
| OnePid.HeldSeen | internal/control/observe.go:70-73 | a GPU holding a record, seen without telemetry, is the GPU seen without telemetry holding the record without it |
| OnePid.EarlyTestIff | internal/fakellama/registry.go:101-117 | the early capacity test fires exactly when the final one would |
| OnePid.EarlyTest | internal/fakellama/registry.go:101-117 | overflow or out of memory is reported iff the record does not fit |
| OnePid.EditLeavesRest | internal/fakellama/registry.go:137-152 | a committed one-PID edit, however stale its snapshot and whatever became of telemetry, changes nothing else that is shown: other records in order, non-process usage, pool and total |
| Compensation.PidLeftIff | internal/fakellama/registry.go:137-152 | after a failed registration, for every pattern of failed reads, telemetry queries and writes: a GPU that no registered target named is as it was, one whose first such target was restored has its old record, telemetry aside (and is as it was if no telemetry query failed), and on any other the PID stays |
| Compensation.AllOrNothing | internal/fakellama/registry.go:79-152 | if the commands left when a registration turns back work and the name is readable, every GPU has its old record again, also when a GPU occurs twice among the targets; telemetry included if no telemetry query failed before |
| Compensation.StopsIff | internal/fakellama/registry.go:95-133 | without faults a registration stops only at a target that names no GPU or whose record does not fit, and for want of memory exactly if there is a GPU without the room |
| Compensation.SecondFaultLeavesPid | internal/fakellama/registry.go:139-152 | two concrete failed reads that leave the PID on the first GPU |
| Compensation.UnreadableNeverRestored | internal/fakellama/registry.go:139-152 | a name that cannot be read keeps the rollback from restoring anything |
| Compensation.UnreadableNameLeavesPid | internal/fakellama/registry.go:79-152 | a concrete name with which a registration over two GPUs, nothing failing, leaves the PID on the first |
| Compensation.TelemetryFaultLeavesPid | internal/fakellama/registry.go:139-152 | a concrete registration in which only one telemetry query fails, during the rollback, and the PID stays on the first GPU |
| Compensation.EachTargetHolds | internal/fakellama/registry.go:95-133 | with targets naming different GPUs each registered one holds exactly its record, telemetry aside if a telemetry query failed |
| Registry.PerformedAnyFault | internal/fakellama/registry.go:119-131 | whatever fails, a one-PID edit keeps all devices well-formed, touches at most its target and leaves the rest alone |
| Registry.NvmlRegistry.DeviceAndProcess | internal/fakellama/registry.go:179-196 | the device as observed and the PID's record on it |
| Registry.NvmlRegistry.SendEdit | internal/fakellama/registry.go:119-131 | what is sent is the edit of one PID made from the snapshot |
| Registry.NvmlRegistry.PutRecord | internal/fakellama/registry.go:95-132 | one target, whatever fails: prior record returned and record in place, or every device left alone, exactly as specified |
| Registry.NvmlRegistry.Rollback | internal/fakellama/registry.go:139-152 | whatever fails, exactly the specified entries are restored and nothing apart from the PID on the logged GPUs changes |
| Registry.NvmlRegistry.Apply | internal/fakellama/registry.go:79-135 | each record sent is of type C with the given name, utilizations and its share of the split; for every pattern of failures success and resulting records are exactly the specified ones, failed rollbacks, lost telemetry and unreadable names included; out of memory is reported exactly if it stopped for want of memory; nothing apart from the PID on the targets changes |
| Registry.NvmlRegistry.Release | internal/fakellama/registry.go:156-175 | every target gets its attempt, in order and whatever failed before; each attempt works exactly if its target names a GPU, the GPUs can be read and its own commands work out, and then the PID is off that GPU for good; success iff all attempts work; no GPU gains the PID; nothing apart from it changes |
| Registry.OwnCommandsDecide | internal/fakellama/registry.go:161-172 | a target whose own commands simply work is cleared, whatever failed before it |
| Registry.ReleaseCosts | internal/fakellama/registry.go:161-172 | with readable GPUs and named targets each failed attempt uses up a command that did not simply work, and the GPUs stay readable |
| Registry.FineRelease | internal/fakellama/registry.go:156-175 | without faults a release succeeds iff there is no target or the GPUs can be read and every target names one |
| Registry.NvmlRegistry.RegisterResizeRelease | internal/fakellama/registry.go:67-175 | register, any number of resizes and release, if they succeed, went as told one after the other, to each size; they are the identity on every GPU when the PID was absent; on telemetry too unless a telemetry query failed |
| Registry.FineEnds | internal/fakellama/registry.go:79-135 | without faults a failed registration leaves everything shown as it was |
| Registry.EndsReadable | internal/fakellama/registry.go:79-152 | whatever fails, a registration under a readable name leaves the GPUs readable if they were, and in any case if it succeeds; then all its targets name one |
| Interference.OthersWritesStay | internal/fakellama/registry.go:73-77 | whatever a registry does in between, another PID holds what its last editor wrote |
| Interference.UsageIsNet | internal/control/manager.go:95-192 | over any trace non-process usage moves by the memory operations alone and the pool not at all |
| Interference.ReleaseLeavesOff | internal/fakellama/registry.go:156-175 | a release that succeeds among other clients, its target read without the PID or edited by a committed removal, leaves the PID off as long as nobody else edits it |
| Interference.RegistrationLeavesNoTrace | internal/fakellama/registry.go:67-175 | register, resizes and a release that succeeds, among any other clients: the PID is gone, PIDs nobody else edited have their records, non-process usage moved by what others reserved and released |
| Interference.RegistrationAloneIsIdentity | internal/fakellama/registry.go:67-175 | with nobody else on a GPU it ends with the same counters and records |
| Interference.RegistrationInRun | internal/fakellama/registry.go:67-175 | the same in every interleaving of the lock protocol, over any stretch from a moment with the lock free to the next overwriting |
| Engine.Engine.constructor | internal/cuda/engine.go:95-108 | an empty table on device 0 |
| Engine.Engine.SetDevice | internal/cuda/engine.go:151-159 | the current device changes iff it exists and the read works; unknown iff the read fails, and otherwise invalid device |
| Engine.Engine.TrackAllocation | internal/cuda/engine.go:187-225 | table, success count, counters and status are the specified ones, others acting between the capacity check and the reservation |
| Engine.Engine.FreeAllocation | internal/cuda/engine.go:228-247 | table, counters and status are the specified ones |
| Engine.Engine.TotalOnCurrent | internal/cuda/engine.go:257-266 | the sum of the current device's sizes in any order, refused iff it does not fit in 64 bits |
| Engine.Engine.ResetDevice | internal/cuda/engine.go:250-278 | table, counters and status are the specified ones |
| Engine.SumRemove | internal/cuda/engine.go:257-266 | the total is the same whichever allocation is taken first |
| Engine.NumberedIsIndexed | internal/cuda/backend.go:104-115 | GPUs named by their numbers, with UUIDs that start with a letter, answer to their numbers |
| Engine.NumberedByUuid | internal/control/observe.go:78-89 | they answer to their UUIDs too, the first one if several have the same |
| Engine.NumberedNoOther | internal/control/observe.go:78-89 | they answer to nothing else |
| Ledger.RefusedTrack | internal/cuda/engine.go:187-225 | every status but success of a track leaves table and success count unchanged, and the counters as they were or as others made them |
| Ledger.RefusedFree | internal/cuda/engine.go:228-247 | every status but success of a free leaves table and counters unchanged |
| Ledger.RefusedReset | internal/cuda/engine.go:250-278 | every status but success of a reset leaves table and counters unchanged |
| Ledger.TrackStatusIff | internal/cuda/engine.go:187-225 | over either backend, for any input and any failures, exactly when an allocation answers invalid value, out of memory, invalid device, unknown |
| Ledger.TrackAnswers | internal/cuda/engine.go:187-225 | with upstream working: a bad token or size, a used-up budget, a missing device and missing memory each have their answer, tried in this order |
| Ledger.FreeStatusIff | internal/cuda/engine.go:228-247 | exactly when a free answers invalid value and unknown |
| Ledger.ResetStatusIff | internal/cuda/engine.go:250-278 | exactly when a reset succeeds; any refusal is unknown |
| Ledger.GrantIff | internal/cuda/backend.go:99-109 | exactly when a reservation lacks memory and when it breaks off otherwise |
| Ledger.ReturnIff | internal/cuda/backend.go:111-116 | exactly when memory is taken back |
| Ledger.BudgetHolds | internal/cuda/engine.go:313-315 | with a budget of N no run of calls, frees and resets included and others interfering, sees more than N allocations succeed |
| Ledger.TrackReserves | internal/cuda/engine.go:187-225 | over either backend an allocation in its units succeeds iff the token is new and non-zero, the size non-zero, the budget not used up, the device present and the free memory enough; it then moves exactly its size from free to used |
| Ledger.TrackThenFree | internal/cuda/engine.go:187-247 | over either backend an allocation followed by its free restores table and counters exactly; only the success count stays raised |
| Ledger.LiveTokenFrees | internal/cuda/engine.go:228-247 | over either backend freeing a covered live token succeeds and leaves the rest covered |
| Ledger.FreeAllEmpties | internal/cuda/engine.go:228-247 | freeing a device's tokens one by one in any order gives back exactly their total and empties that device |
| Ledger.ResetEqualsFrees | internal/cuda/engine.go:250-278 | over either backend, byte-exact ones for every size, a reset reaches the same state as those frees, cannot overflow, is not refused, and leaves other devices alone |
| Fleet.CallShifts | internal/cuda/engine.go:187-278 | every successful engine call moves its table and the shared counters together |
| Fleet.BooksBalance | internal/cuda/backend.go:99-116 | in every trace of engines and clients that return only what they reserved, non-process usage on each GPU is its base plus the live allocations of all engines and the clients' outstanding reservations |
| Fleet.BalancedBacked | internal/cuda/engine.go:228-247 | with balanced books every engine's table is covered |
| Fleet.LiveTokenAlwaysFrees | internal/cuda/engine.go:228-247 | in every such trace freeing a live token succeeds iff the upstream commands do |
| Fleet.ResetAlwaysWorks | internal/cuda/engine.go:250-278 | in every such trace a reset succeeds iff it has nothing to release or the upstream commands work, and its sum fits in 64 bits |
| Fleet.BalanceIsReleasable | internal/control/manager.go:126-129 | in every such trace no client is refused the return of what it holds |
| Fleet.BalanceFits | internal/control/manager.go:104-107 | with balanced books an accepted reservation cannot take a client's balance past 64 bits |
| Fleet.LiveTokenFreesInRun | internal/cuda/backend.go:99-116 | the same in every interleaving of the lock protocol, over any stretch from a moment with the lock free to the next overwriting |
| Bridge.PartitionStep | cmd/libcuda/bridge_linux.go:331-375 | every step of every thread keeps live tokens partitioned into in-hand, tracked and dropped |
| Bridge.RunInvariant | cmd/libcuda/bridge_linux.go:514-583 | in every interleaving the partition holds and each address has as many frees as mallocs, or one fewer while live |
| Bridge.NativeCallsSafe | cmd/libcuda/bridge_linux.go:339-349 | no native free hits an address that is not live, and the engine never sees a token it already tracks |
| Bridge.DroppedForGood | cmd/libcuda/bridge_linux.go:514-522 | what a reset drops stays allocated and untracked for the rest of the run |
| Bridge.NoLeakIff | cmd/libcuda/bridge_linux.go:514-522 | with every thread outside and nothing tracked, all native memory is given back iff no reset of the run found a token |
| Bridge.ResetLeaks | cmd/libcuda/bridge_linux.go:514-522 | a concrete run of an allocation and a reset that loses the token |
| NativeBridge.CudaBridge.MemAlloc | cmd/libcuda/bridge_linux.go:331-352 | success hands out a live tracked token of that size; any failure leaves tokens and table alone and changes no counter itself; invalid value iff the size is 0, out of memory if malloc fails, and otherwise the engine's own answer |
| NativeBridge.CudaBridge.MemFree | cmd/libcuda/bridge_linux.go:360-375 | the native token goes exactly when the engine let go of it; the answer is the engine's, invalid value iff the pointer is neither null nor tracked |
| NativeBridge.CudaBridge.DeviceReset | cmd/libcuda/bridge_linux.go:514-522 | the current device's tokens leave the table |
| Server.Server.ReleaseResources | internal/fakellama/server.go:224-239 | success leaves nothing registered and the PID on no target; failure keeps the registration and, with readable GPUs and named targets, has used up a command that did not simply work |
| Server.Server.ReleaseResourcesWithRetry | internal/fakellama/server.go:201-219 | tries again until it works, as often as the deadline allows: with readable GPUs and named targets it succeeds if no more commands are to fail than it has retries; the set of GPUs holding the PID never grows |
| Server.Server.Claim | internal/fakellama/server.go:126-131 | the records sent are this server's, with the shares of the bytes asked for; whatever fails, it ends exactly as specified; without faults a failure leaves no trace |
| Server.Server.Serve | internal/fakellama/server.go:117-195 | ready implies registered at every store; registered iff the registration succeeded, with the required bytes; then it goes on as its load phase and events tell |
| Server.Server.Live | internal/fakellama/server.go:154-195 | a ready server lives up to the first event that ends it, with that event's cause; it grows once, at the first growth event, by the configured bytes, or ends there by overflow or refusal; only a crash takes its readiness at once |
| Server.Server.Run | internal/fakellama/server.go:72-196 | every return is not ready, and nothing is registered or the release failure is reported; exactly which cause each way out has; once registered and released the PID is on no target and, if new, left nothing but perhaps lost telemetry, whatever failed; the release works if no more commands are to fail from its beginning on than it has retries; without upstream failures every GPU shows what it showed before on every exit path; a failed registration reports no release error and leaves exactly what its rollback left |
| Registry.NothingRemains | internal/fakellama/server.go:105-115 | a PID that was nowhere, is on no target now and changed nothing apart from itself, changed nothing |
| Scenario.Validate | internal/scenario/scenario.go:215-262 | accepts exactly the valid documents |
| Scenario.Runner.EventWait | internal/scenario/scenario.go:113-133 | consumes up to the first trimmed line with the name, or fails |
| Scenario.NamedIff | internal/scenario/scenario.go:126-128 | white space around a name on its line does not matter, anything else does |
| Scenario.Runner.Run | internal/scenario/scenario.go:144-191 | sends initial-then-steps exactly up to the first failure and then every cleanup once in order; succeeds iff the main part got through and every cleanup worked |
| Scenario.StopsAtFirstFailure | internal/scenario/scenario.go:163-189 | every operation sent but the last worked; if the document did not get through, the last one sent failed or the next step's wait did |
| Scenario.GetsThroughIff | internal/scenario/scenario.go:144-191 | with operations working a document gets through iff every timed wait comes to its end and its steps' events are a subsequence of the lines |
| Scenario.Runner.CleanUp | internal/scenario/scenario.go:154-161 | sends every cleanup operation in order, also after one failed, and succeeds iff all did |
| Scenario.GreedyIsComplete | internal/scenario/scenario.go:113-133 | waiting on first matches completes iff the names are a subsequence of the lines |
| Pmon.Matches | internal/pmon/pmon.go:24-52 | true for exactly three command lines |
| Pmon.Render | internal/pmon/pmon.go:55-93 | header, then one row for each sample, in an order sorted by GPU and PID |
| Pmon.AttachPmon | internal/control/observe.go:161-204 | each device after all lines, updated in place |
| Pmon.RowReadsBack | internal/pmon/pmon.go:70-91 | a printed row is parsed back exactly, with type C if the sample had none, unless its name is only white space or a utilization is over 100; then it is skipped |
| Pmon.RowLayout | internal/pmon/pmon.go:79-88 | as long as every value fits its column, the seven columns of all rows end at the same places and the name, or a dash for none, begins behind the fiftieth |
| Pmon.OrderedIff | internal/pmon/pmon.go:57-62 | sorted means by GPU, and on one GPU by PID |
| Pmon.BlankNameNotRead | internal/pmon/pmon.go:70-91 | a concrete sample that is printed and not read back |
| Pmon.RoundTrip | internal/control/observe.go:161-204 | reading the printed table gives each process whose sample is read that sample's type and four utilizations and leaves every other process alone |
| Text.AtoiItoa | internal/pmon/pmon.go:79-88 | printed integers parse back |
| Config.ComposeDevice | internal/config/config.go:220-276 | accepts exactly the acceptable requests; used, free and reserved make the total, processes fit in used; well-formed iff no PID repeats |
| Config.RepeatedPidComposes | internal/config/config.go:236-250 | a concrete acceptable request with a repeated PID |
| Config.Compose | internal/config/config.go:133-160 | one to eight devices, each composed from its known profile with total, used, free and reserved adding up as asked for, and a system block with the versions given or their defaults and the numbers of the CUDA version, which must be readable; with no PID listed twice they open balanced books |
| Config.NormalizeSystem | internal/config/config.go:193-217 | empty settings take their defaults; refused iff the version has no two leading numbers between dots |
| Config.VersionReadsBack | internal/config/config.go:201-212 | a printed version, with or without further parts, is read back |

## Left out

- Direct client writes that bypass the manager lock, and the reset of a GPU to its base profile: they sit outside the protocol.
- Process execution, file locks as files, context deadlines as time, JSON and YAML, HTTP handlers and streaming.
- Parsing of nvidia-smi's CSV output beyond the process listing and rounding to MiB: its printer is an external program.
- Observer.ListingReadsBack: a name that holds both a comma and a line break could pass for lines of its own; the model counts it as unreadable, and nothing is claimed for the listing then.
- Observer.ObserverAgrees: the telemetry of a list with a repeated PID, as the order of its rows is not determined; nothing that follows from such a list depends on it.
- The CUDA ABI structures, attribute tables, error strings, symbol lookup and the sticky last-error value.
- Injection, Kubernetes and CDI files, profile catalog loading, flag and size parsing beyond which flags were given.
- Hang-shutdown mode, which releases from a second goroutine while the server keeps going.
- IEEE floating point in the memory split, beyond a bounded rounding error per quotient.
- Wording of errors: the model keeps their kinds.
- Registry.NvmlRegistry.RegisterResizeRelease: the registry class has the devices to itself during a call; other clients in between are `Interference`'s.
- Fleet.BooksBalance: a CUDA process that dies keeps its reservations outstanding; nothing removes an engine from the accounts.
- Engine.Engine.TrackAllocation: the class is modelled over the shared backend; the byte-exact backend exists in the specification only.
- Rebase.RebaseProcesses: its three loops are three methods called in turn.
- Scenario.Runner.Run: its loops and its deferred cleanup are methods called in turn; a missing executor is not modelled.
