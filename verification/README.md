# Bikaya process kernel: model and proofs

Bikaya 2 is a small operating system kernel for the uMPS and uARM machines. It schedules a fixed pool of processes by
priority with aging, gives them semaphores, a process tree and blocking device I/O, and accounts for their processor
time. This project models that part of the kernel and proves what it guarantees over every run from launch. Check it with
`dafny verify dfyconfig.toml`.

## How the model is built

Three layers, each proved against the one above it.

- **Values.** `Sched` gives the scheduler's state and every kernel step (`create_process`, `terminate_proc`, `p`, `v`,
  `time_slice_callback`, `wait_io`, `done_io`) as functions on values; `Machine` adds saved contexts, the old area, clocks,
  the interval timer and device commands, with one event for entering a handler, one for each kernel step and one for
  leaving, and `Interrupts` says which devices a handler finds done. `Invariants`, `Steps`, `Devices`, `Forest`,
  `MachineInvariants` and `Accounting` prove what every step keeps, `Runs` for which runs; `Waiting`, `Semaphores`, `Bypass`,
  `Queueing`, `Starvation` and `Undo` prove what that means for the processes; `Results` and `Histories` state it for every
  state reachable from launch. `Effects`, `Answers`, `Calls` and `Launching` say field by field what each step, handler, system
  call and the launch change and what they leave, without the functions that define them.
- **The kernel in place.** The classes of `Scheduler`, `Asl` and `Nucleus` follow the C functions, updating globals and
  tables; each method is proved to reach exactly the state that the value layer specifies. `Removal` carries the loop and
  recursion of subtree removal. Queues and lists of children are sequences held in fields.
- **The lists in memory.** `ListX`, `ProcQueue` and `PcbTree` work on `next` and `prev` links and show that the intrusive
  circular lists and the first-child-as-sentinel tree realise the sequence operations the kernel layer uses. `Pool` puts the
  free list, the ready queue and all semaphore queues in one pool of links, kept disjoint. `Linked` joins the pool and the
  tree, so that memory holds a whole scheduler state, and runs create_process on it.

`Terminal` is a separate component: the number printers. `Seqs` and `Division` hold facts about sequences and quotients.

## How the model names things

- A process is its index in the PCB table; the table has N + 1 entries, N arbitrary, and the last is the idle process,
  as `get_proc_index` numbers it. `birth` and `births` are history variables that order allocations; they make the tree
  well-founded and are read by no operation. So are `launched`, `charged`, `logical` and `request` in `Machine`.
- The fields of `pcb_t` are spread over three tables: queue and tree fields (`pcbs`), timers (`accounts`), context (`saved`).
- A semaphore key is the address of a cell or the counter of a device. The two-dimensional table of device lists is flattened
  to one index; the number of devices is arbitrary.
- The clock, the interval timer, the trapped state, device statuses and what is pending when an interrupt is handled (raised
  lines, bitmaps, finished halves of terminals) are parameters. The clock never runs backwards. The rows of the table of
  device lists follow the lines, the transmitters of the terminals before their receivers.
- `trap` stands for the trapped state after the handler has moved its program counter by one word: back on uARM after an
  interrupt (`src/core/exceptions/interrupts.c:12`), forward on uMPS after a system call (`src/core/exceptions/handler.c:65`).
- In memory, list heads are named by index within their pool, so that `container_of` is the identity.
- A terminated subtree is named by a listing `order` of exactly its processes, last freed first: the free list depends on
  it. `TerminateProc` returns such a listing, and the theorems hold for every one.
- `int_to_str` and `int_to_str_binary` are one method with the digits as a parameter, and so are the signed and unsigned
  loops, which do the same on the non-negative numbers they are given.

## What the kernel needs of its callers

Kernel steps that block, create or terminate are taken while a real process runs; a pid is NULL or a live process;
semaphores start non-negative and change only through `p` and `v`. Two kinds of side condition concern devices. Neither is
assumed as convenient: each is proved to be exactly what some invariant needs, for all states.

A step is *safe* if it avoids the two branches that put a process in two places or in none. The scheduler invariant
(conservation, dispatch, order, tree) survives a step exactly if it is safe (`Runs.StepInv`), and survives along a path from
launch exactly if all steps are (`Results.InvariantExact`).

- `done_io` dequeues the process being served. If it dequeues another one, that one is dropped from every list
  (`Devices.DoneIoInv`).
- A terminated subtree contains no process that is off every semaphore and has its device pointer set. Such a process takes
  the branch at `src/core/processes/scheduler.c:295-298` and is freed without being dequeued (`Steps.TerminateInv`);
  `Pool.WalkNeverEnds` says what this does to the linked lists.

A step is *polite* if it gets in nobody's way at a device. Under the device protocol every step is safe, and the protocol
survives a step exactly if it is polite (`Runs.StepProtocol`).

- A process that joins the queue of a busy device does not outrank the process being served (`Devices.WaitIoProtocol`).
  The queue is sorted by priority while `done_io` looks only at its head; a process that does outrank the one served goes in
  front, and the next completion is the unsafe one that drops it (`Devices.OvertakerLost`).
- A terminated subtree contains no process that a device is serving (`Devices.TerminateProtocol`). Such a process is on a
  semaphore as well, so it is dequeued, and the device list goes on naming it (`Devices.ServedTerminated`). Its PCB keeps
  `dev_w_list`, which `allocPcb` does not clear: the next process in that PCB is runnable with the pointer set
  (`Devices.StrayCreated`), and terminating that one is the other unsafe step. It also clears the `w_for_res` of a device the
  process never asked for (`Runs.StrayFreed`). A device that was at work then stays busy with nobody served, whatever happens
  (`Runs.StuckForGood`); one that had recovered serves the next caller normally (`Runs.RecoveredServes`).

`Inputs` gives, for each way to break a condition, a run from launch that leads to it.

Runs and histories, in the theorems below, are sequences of any length and mixture of safe steps; where more is needed, the
row says polite.

## Where code and comments disagree

The model follows the code.

- `include/core/processes/scheduler.h:14-18` says that a process being served has left the semaphore queue. In the code it
  stays at the head of the queue until its command completes.
- `include/core/processes/pcb.h:40-41` says that `tod_at_start` holds the clock at the first execution of a process. Only
  `launch` sets it, for one process; for all others the wall-clock time of GETCPUTIME counts from 0
  (`Histories.StartingTime`).
- The comment at `src/core/processes/scheduler.c:229` says that a slice swaps processes when the first ready one has the greater
  priority. The code also swaps at equal priority (`Waiting.SliceEnds`), which is what makes equals take turns.
- `include/core/processes/scheduler.h:88-90` lets `terminate_proc` return -1. On a live process the recursion always
  returns 0.
- `outChild` clears the parent link of a first child only; another child keeps its stale link until its PCB is reused.

## Model

| member | source | states |
|---|---|---|
| `Results.Conservation` | src/core/processes/scheduler.c:114-165 | In every state reached from launch by safe steps each of the N PCBs is in exactly one of the free list, the ready queue, the running slot and the semaphore queues, once; `p_semkey` names the queue it is in; the idle process is on no list |
| `Results.Dispatch` | src/core/processes/scheduler.c:114-124 | In every such state the running process has at least the priority of every ready one, and idle runs only when nothing is ready |
| `Results.Order` | src/core/processes/pcb.c:63-73 | In every such state the ready queue and all semaphore queues are in descending priority, and no process is below its original priority |
| `Results.DeviceProtocol` | src/core/exceptions/interrupts.c:61-119 | After any polite steps from launch a device is either free (count 1, nobody served, nobody queued) or busy (count 0, serving exactly the head of its non-empty queue) |
| `Results.Family` | src/core/processes/pcb.c:126-198 | In every state reached from launch by safe steps the parent of a live process is live, lists it among its children, and is not its descendant; children are distinct and point back |
| `Results.ReachedInv` | src/core/processes/scheduler.c:44-236 | Every state reached from launch by safe steps satisfies the whole kernel invariant, with the tables at their original size |
| `Results.InvariantExact` | src/core/processes/scheduler.c:44-236 | Along any path of steps from launch, of whatever kind, the scheduler invariant holds in every state if and only if every step is safe |
| `Results.DeviceCounts` | src/core/exceptions/interrupts.c:61-119 | In every state reached from launch by safe steps a busy device has somebody recorded as served, and a free one has nobody waiting, also after a served process was terminated or overtaken |
| `Histories.ReachedInv` | src/core/exceptions/handler.c:135-166 | Every state reached from launch by any history of handlers and safe kernel steps satisfies the machine invariant: contexts, requests, clocks and the kernel invariant |
| `Histories.ResumesWhereSaved` | src/core/exceptions/handler.c:144-166 | A switched-out process resumes, after any number of handlers, from exactly the context saved for it, unless in between its command completed or its PCB was reallocated |
| `Histories.SavedIsTrap` | src/core/exceptions/handler.c:150-165 | The state trapped when a process is interrupted is what is saved for it when it is switched out, and what it is resumed with, until something touches it |
| `Histories.ChargedTime` | src/core/processes/scheduler.c:323-337 | In every reachable state the user and kernel time charged to all PCBs together, freed and idle included, is at most the time since launch, and no account exceeds the time since its own `tod_at_start` |
| `Histories.OwnCommand` | src/core/exceptions/interrupts.c:75-109 | After any history of polite steps from launch a busy device holds the command of the process it serves |
| `Histories.OwnRequest` | src/core/exceptions/interrupts.c:103-109 | In every reachable state a process queued on a device has its own command in its saved context, from which the completion before its own reads it |
| `Histories.ElapsedTime` | src/core/processes/scheduler.c:323-337 | In every reachable state, to the tick: the times on all accounts, the times forgotten with reused PCBs and the handler time spent on swaps add up to the time from launch to the last flush, and none of these is negative |
| `Histories.HandlerTimer` | src/core/exceptions/handler.c:135-165 | Whatever a handler does, the process it interrupted goes on with the rest of its slice, at most a whole one, and another process starts with a whole slice |
| `Histories.StartingTime` | src/core/processes/scheduler.c:74-89 | In every reachable state `tod_at_start` is the time of launch for the process that launch started, until its PCB is used again, and 0 for every other process |
| `Accounting.TimeConserved` | src/core/exceptions/handler.c:135-166 | Over any history processor time is conserved: charged, forgotten or spent on a swap |
| `Accounting.TimesGrow` | src/core/processes/scheduler.c:323-333 | Over any history neither time of a PCB goes down, until the PCB is given to another process |
| `Accounting.OwnTime` | src/core/processes/scheduler.c:323-333 | A process gains user time only by trapping or being interrupted, and kernel time only when a handler returns to it or when it blocks, both exactly since its last flush |
| `Undo.Created` | src/core/processes/scheduler.c:126-142 | create_process makes exactly one process live, the last child of its caller, with the given priority; it runs if it strictly outranks the caller and is ready otherwise |
| `Undo.CreateTerminate` | src/core/processes/scheduler.c:126-165 | Terminating a child that has not run restores the free list, every queue, the semaphores and all other PCBs, if its PCB came without a device pointer; if it came with one, the child ends up ready and free at once |
| `Effects.EnqueueJoins` | src/core/processes/pcb.c:63-73 | insertProcQ puts a process behind everybody not lower and in front of everybody lower, and leaves the others in order |
| `Effects.Scheduled` | src/core/processes/scheduler.c:114-124 | schedule_proc: the process runs exactly if it is higher than the running one or idle runs; a process it takes over from falls back to its original priority and joins the ready queue; every other field of every process stays |
| `Effects.VerhogenCounts` | src/core/processes/scheduler.c:202-206 | `v` with nobody waiting adds one unit and does nothing else |
| `Effects.VerhogenWakes` | src/core/processes/scheduler.c:202-219 | `v` with somebody waiting: the first comes off with its original priority, each of the others waiting gains exactly 1, a process it takes over from falls back to its original priority, and every other field of every process stays |
| `Effects.SliceEffect` | src/core/processes/scheduler.c:221-236 | The end of a slice: each ready process gains exactly 1, swap or no swap; the first of them takes over exactly if it then is not below the running one, which falls back to its original priority and joins the others; every other field stays |
| `Effects.PasserenEffect` | src/core/processes/scheduler.c:188-200 | `p` takes a unit if there is one; otherwise its caller joins the queue of the semaphore, the value stays 0, the first ready process runs, or idle, and every other field stays |
| `Effects.WaitIoEffect` | src/core/exceptions/interrupts.c:61-82 | wait_io: the caller joins the queue of the device; if the device was free it becomes busy and the two point to each other; every other field stays |
| `Effects.CompletionEffect` | src/core/exceptions/interrupts.c:86-114 | done_io: the process served becomes runnable at the priority it has, both its device fields are cleared, the next of the queue is served, and nobody gains priority |
| `Effects.CompletionFrees` | src/core/exceptions/interrupts.c:110-114 | With an empty queue done_io frees the device and does nothing else |
| `Effects.CompletionDrops` | src/core/exceptions/interrupts.c:90-109 | With another process than the one served at the head, that process comes off the queue and is put nowhere, and the next is served |
| `Effects.CreationEffect` | src/core/processes/scheduler.c:126-142 | create_process: the first free PCB gets the given priority twice, no semaphore and no children, and the device pointer it had; its parent gets it as last child; every other process keeps every field |
| `Effects.TerminationSpares` | src/core/processes/scheduler.c:144-165 | terminate_proc: survivors keep every field, but that the parent of the root loses it from its children; semaphore values stay, and so does each device record that no stray points to |
| `Waiting.SliceEnds` | src/core/processes/scheduler.c:221-236 | After a slice the running process goes on only if it strictly outranks every aged ready one; otherwise the first of them runs, and the loser is back at its original priority behind all that are not below it |
| `Waiting.BehindEquals` | src/core/processes/pcb.c:63-73 | insertProcQ puts a process behind all of the queue that are not below it |
| `Waiting.BoundedWaiting` | src/core/processes/scheduler.c:221-236 | A ready process of priority r, with R running and arrivals at most m, is passed over by fewer than max(0, m - r) + (max(R, m) - r) + N time slices, whatever safe steps interleave |
| `Waiting.RunPatience` | src/core/processes/scheduler.c:221-236 | Along any run in which a process stays ready, the number of time slices is below a bound read off the first state |
| `Waiting.StepPatience` | src/core/processes/scheduler.c:114-236 | No kernel step raises that bound, and each time slice lowers it by at least one |
| `Waiting.TickPatience` | src/core/processes/scheduler.c:221-236 | A time slice strictly lowers the bound of every process that stays ready |
| `Waiting.SwapAhead` | src/core/processes/scheduler.c:229-235 | When a slice swaps processes, a waiter that has reached m gets one place forward: the loser re-enters behind it |
| `Waiting.LeavesReady` | src/core/processes/scheduler.c:114-236 | In a safe step a process leaves the ready queue only by running or by being terminated |
| `Waiting.StaysRunnable` | src/core/processes/scheduler.c:114-236 | Short of creation and termination, in a safe step a ready process stays ready or runs, and so does a running one that does not block |
| `Waiting.LiveBefore` | src/core/processes/scheduler.c:126-165 | Only creation brings a process to life; no step changes the original priority of a live process |
| `Waiting.EnqueueBehind` | src/core/processes/pcb.c:63-73 | insertProcQ is stable: a process of no greater priority is inserted behind, leaving the number ahead of a waiter unchanged |
| `Bypass.BoundedBypass` | src/core/processes/scheduler.c:202-219 | A waiter of priority r is passed over by fewer than max(0, m - r) + N calls of `v` on its semaphore, if callers of `p` on it have priority at most m |
| `Bypass.RunTurns` | src/core/processes/scheduler.c:202-219 | Along any run in which a process waits, the number of `v` calls on its semaphore is below a bound read off the first state |
| `Bypass.StepTurns` | src/core/processes/scheduler.c:188-219 | No kernel step raises that bound, and each `v` on the semaphore lowers it |
| `Bypass.VerhogenTurns` | src/core/processes/scheduler.c:202-219 | A `v` that wakes somebody else brings each remaining waiter strictly nearer, by aging or by one place |
| `Bypass.PasserenTurns` | src/core/processes/scheduler.c:188-200 | A newcomer of priority at most m does not get in front of a waiter that has reached m |
| `Queueing.ServedInTurn` | src/core/exceptions/interrupts.c:61-119 | While nobody above it asks for the device, a process queued on it is passed over by at most as many completions as there were processes ahead; after that many it is first, and the next safe completion makes it ready or running |
| `Queueing.RunAhead` | src/core/exceptions/interrupts.c:61-119 | Along any such run completions plus the processes still ahead never exceed the processes ahead at the start |
| `Queueing.StepAhead` | src/core/exceptions/interrupts.c:61-119 | No kernel step puts more processes ahead of a waiter, and each completion of its device takes one away |
| `Queueing.NewcomerAhead` | src/core/exceptions/interrupts.c:70-73 | A caller of wait_io that is not higher queues behind a waiter of the same device |
| `Queueing.CompletionAhead` | src/core/exceptions/interrupts.c:89-99 | A completion brings each remaining waiter of the device one place nearer |
| `Queueing.RivalsGoOn` | src/core/exceptions/interrupts.c:61-119 | Two processes of higher priority that ask for the device again whenever they are done can go on in turn for any number of completions |
| `Queueing.DeviceStarvation` | src/core/exceptions/interrupts.c:61-119 | For every number of completions there is a polite run from launch all through which a process waits for the device: device queues are not aged |
| `Starvation.StarvationPossible` | src/core/exceptions/handler.c:150-157 | For every length there is a history from launch, with no time slice used up and every step safe and polite, all through which a ready process stays ready: two others block and wake each other, and each swap starts a whole slice |
| `Starvation.DuelGoesOn` | src/core/processes/scheduler.c:188-219 | Two processes of equal rank that sleep and wake each other can go on for any number of rounds from any moment |
| `Semaphores.StepCounter` | src/core/processes/scheduler.c:188-219 | Value minus queue length falls by one on `p`, rises by one on `v` and by the number of terminated processes that were waiting, and changes in no other step |
| `Semaphores.RunUnits` | src/core/processes/scheduler.c:188-219 | After any run the value is non-negative, waiters imply 0, and value plus units granted equals initial value plus `v` calls |
| `Forest.TerminateFrees` | src/core/processes/scheduler.c:144-165 | terminate_proc ends exactly the processes of the subtree of its argument and puts each of them on the free list; it leaves one in no queue if and only if that one is on a semaphore or has no device pointer |
| `Forest.TerminateSpares` | src/core/processes/scheduler.c:289-321 | Everybody outside the subtree stays in its queue, and nobody inside stays |
| `Forest.SurvivorsKeepOrder` | src/core/processes/scheduler.c:289-302 | Two survivors of a semaphore queue keep their relative order |
| `Forest.TerminateRuns` | src/core/processes/scheduler.c:152-163 | A running process outside the subtree keeps running; otherwise the first survivor of the ready queue runs, or idle if there is none |
| `Forest.Acyclic` | src/core/processes/pcb.c:114-148 | Parent links of live processes lead to live processes that list them, and never round in a circle |
| `Forest.UnderChild` | src/core/processes/pcb.c:126-198 | The subtree of a live process is that process together with the subtrees of its children |
| `Forest.SiblingsApart` | src/core/processes/pcb.c:126-198 | Subtrees of different children do not overlap |
| `Forest.DescriptorLeft` | src/core/processes/asl.c:45-83 | With one process about to block, the active semaphores are fewer than the descriptors |
| `Steps.TerminateInv` | src/core/processes/scheduler.c:289-302 | From any state that satisfies the scheduler invariant, terminate_proc keeps it if and only if everybody in the subtree is on a semaphore or has no pointer into a device list; each process for which that fails ends up in two places |
| `Steps.TerminatePlace` | src/core/processes/scheduler.c:289-307 | After termination each process is in one place, but a terminated process off every semaphore with its device pointer set is in two |
| `Devices.ProtocolCut` | src/core/processes/scheduler.c:295-298 | Under the device protocol nobody is off every semaphore with a device pointer, so that the branch which frees without dequeuing is not taken |
| `Devices.TerminateKept` | src/core/processes/scheduler.c:144-165 | From states that satisfy the protocol, terminate_proc keeps the scheduler invariant, also when a process being served is terminated |
| `Devices.ServedTerminated` | src/core/exceptions/interrupts.c:89-114 | If a served process is terminated, the next completion frees the device when nobody else is queued, and otherwise loses the next waiter; the freed PCB goes on pointing to the device list, also after the device has recovered |
| `Devices.StrayCreated` | src/core/processes/pcb.c:23-50 | A process created in such a PCB is runnable with the stale pointer set |
| `Runs.StrayFreed` | src/core/processes/scheduler.c:295-298 | Terminating such a process clears the `w_for_res` its pointer leads to, whoever is served there |
| `Runs.StuckForGood` | src/core/exceptions/interrupts.c:89-118 | If that device was at work, it is then busy with nobody served: no sequence of steps whatever changes this, and each of its completions changes nothing |
| `Runs.RecoveredServes` | src/core/exceptions/interrupts.c:69-80 | If the device had recovered before, it stays free, and the next wait_io on it is served at once |
| `Devices.StepPointers` | src/core/exceptions/interrupts.c:78-79 | Every kernel step keeps `dev_w_list` pointing into the table of device lists |
| `Inputs.OutrankedReached` | src/core/exceptions/interrupts.c:61-119 | The state from which a caller overtakes is reached from launch by three polite steps |
| `Inputs.OvertakingHappens` | src/core/exceptions/interrupts.c:72-99 | From there wait_io breaks the protocol, and the next completion loses the caller |
| `Inputs.ServedReached` | src/core/exceptions/interrupts.c:61-82 | A state in which the child of the running process is being served is reached from launch by two polite steps |
| `Inputs.ServedTermination` | src/core/processes/scheduler.c:144-165 | Terminating that child breaks the protocol and leaves the scheduler invariant intact |
| `Inputs.StrayTermination` | src/core/processes/scheduler.c:295-298 | When its PCB is used again and the new process is terminated, that process is free and ready at once, and the device list is cleared |
| `Runs.StepInv` | src/core/processes/scheduler.c:114-236 | Every kernel step keeps the scheduler invariant if and only if it is safe, and a safe one keeps the device counts and pointers that make the next step exact too |
| `Runs.StepProtocol` | src/core/processes/scheduler.c:114-236 | Under the device protocol every step is safe, and keeps the protocol if and only if it is polite |
| `Runs.RunInv` | src/core/processes/scheduler.c:114-236 | Any run of safe steps keeps the kernel invariant |
| `Runs.PathExact` | src/core/processes/scheduler.c:114-236 | Along any path from a state with the kernel invariant the scheduler invariant holds throughout if and only if every step is safe |
| `Runs.PoliteRun` | src/core/processes/scheduler.c:114-236 | Any run of polite steps from a state with the device protocol is a run of safe steps and keeps the protocol |
| `Devices.WaitIoInv` | src/core/exceptions/interrupts.c:61-82 | From any state with the scheduler invariant and sound device counts wait_io keeps the scheduler invariant for every caller, whether or not it outranks the process served |
| `Devices.WaitIoProtocol` | src/core/exceptions/interrupts.c:61-82 | wait_io keeps the device protocol if and only if the caller does not outrank the process being served |
| `Devices.OvertakerLost` | src/core/exceptions/interrupts.c:72-99 | A caller that does outrank it is put at the head of the queue, and the next completion removes it from every list |
| `Devices.DoneIoInv` | src/core/exceptions/interrupts.c:89-114 | done_io keeps the scheduler invariant if and only if the dequeued process is the one served; otherwise that process is left in no place |
| `Devices.DoneIoProtocol` | src/core/exceptions/interrupts.c:86-119 | From a state that satisfies the protocol, done_io never drops a waiter and keeps the protocol |
| `Devices.TerminateProtocol` | src/core/processes/scheduler.c:289-302 | Termination keeps the device protocol if and only if no device is serving a process of the subtree |
| `Devices.ServedWaits` | src/core/exceptions/interrupts.c:76-79 | A served process is blocked on its device |
| `Invariants.UnblockInv` | src/core/processes/asl.c:94-108 | removeBlocked on a semaphore with waiters keeps the invariant, with the former head in hand |
| `Invariants.AllocateInv` | src/core/processes/scheduler.c:126-133 | Taking a free PCB for a child of the running process keeps the invariant, with the child in hand |
| `Invariants.ScheduleInv` | src/core/processes/scheduler.c:114-124 | schedule_proc puts the process in hand in its place and keeps order, conservation and dispatch |
| `Invariants.ScheduleEffect` | src/core/processes/scheduler.c:114-124 | schedule_proc changes only the ready queue, the running process and the priority of a process that is stopped, which returns to its original; the ready queue gains exactly the loser |
| `Invariants.EnqueueSorted` | src/core/processes/pcb.c:63-73 | insertProcQ keeps a queue in descending priority |
| `Invariants.EnqueueElements` | src/core/processes/pcb.c:63-73 | insertProcQ adds exactly the given process, once |
| `Invariants.RunNextInv` | src/core/processes/scheduler.c:175-179 | pop_running hands out the running process and installs the best ready one, or idle |
| `Invariants.BlockInv` | src/core/processes/asl.c:60-83 | Blocking the process in hand keeps the invariant, and on an empty queue the FIFO insertion is the priority insertion |
| `Invariants.ReleaseInv` | src/core/processes/scheduler.c:204-214 | Waking the head with its priority restored and aging the others keeps the invariant |
| `Invariants.TickInv` | src/core/processes/scheduler.c:221-236 | time_slice_callback keeps the invariant |
| `Steps.CreateInv` | src/core/processes/scheduler.c:126-142 | create_process keeps the invariant, whether or not a PCB is free |
| `Steps.PasserenInv` | src/core/processes/scheduler.c:188-200 | `p` keeps the invariant |
| `Steps.VerhogenInv` | src/core/processes/scheduler.c:202-219 | `v` keeps the invariant |
| `Steps.MinusSorted` | src/core/processes/pcb.c:100-110 | Taking processes out of a sorted queue leaves it sorted |
| `MachineInvariants.EventInv` | src/core/exceptions/handler.c:48-85 | Each handler entry, safe kernel step and handler exit keeps the machine invariant |
| `MachineInvariants.HistoryInv` | src/core/exceptions/handler.c:48-166 | So does every history of them |
| `MachineInvariants.EventService` | src/core/exceptions/handler.c:48-85 | From a state with the device protocol, events whose kernel steps are polite keep it, and keep the command registers agreeing with the requests of the processes served |
| `MachineInvariants.CourteousHistory` | src/core/exceptions/handler.c:48-166 | So does every history of such events, and all of its steps are safe |
| `MachineInvariants.HistoryIsRun` | src/core/exceptions/handler.c:48-85 | Forgetting contexts and clocks, a history is a run of the scheduler |
| `MachineInvariants.EnterTime` | src/core/exceptions/handler.c:135-142 | Charging user time on entry keeps the time bounds |
| `MachineInvariants.LeaveTime` | src/core/exceptions/handler.c:151-165 | Charging kernel time on exit, or only resetting the clock when processes are swapped, keeps the time bounds |
| `MachineInvariants.StepTime` | src/core/processes/scheduler.c:188-199 | Kernel time charged to a caller that blocks keeps the time bounds, and so does blanking the account of a new process |
| `MachineInvariants.TotalSet` | src/core/processes/scheduler.c:323-333 | Changing one account changes the total by exactly the difference |
| `MachineInvariants.CpuTimeFits` | src/core/exceptions/syscalls.c:13-24 | GETCPUTIME reports non-negative times with user + kernel at most wall-clock time |
| `MachineInvariants.EnterContexts` | src/core/exceptions/handler.c:135-142 | Entering a handler keeps every saved context equal to the context its process should resume with |
| `MachineInvariants.LeaveContexts` | src/core/exceptions/handler.c:150-165 | Leaving a handler saves the interrupted process, loads the resuming one, and keeps that equality |
| `MachineInvariants.SavedKept` | src/core/exceptions/interrupts.c:92-99 | No kernel step changes the saved context of a live process, but for the return register of the one whose command is completed |
| `MachineInvariants.StepContexts` | src/core/exceptions/handler.c:144-166 | Every kernel step keeps the saved context of each live process that is switched out equal to the context it should resume with |
| `MachineInvariants.StepMode` | src/core/exceptions/handler.c:48-55 | While an interrupt is handled, the interrupted process stays running or ready |
| `MachineInvariants.StepCommands` | src/core/exceptions/interrupts.c:75-114 | Under the device protocol every step keeps each busy device agreeing with the request of the process it serves |
| `MachineInvariants.CompletionDelivers` | src/core/exceptions/interrupts.c:89-114 | A completion wakes the process served with the device status in its return register and the rest of its context intact, and sends the next waiter's own command or an acknowledgement |
| `MachineInvariants.CompletionWakes` | src/core/exceptions/interrupts.c:90-114 | After a completion the process served is ready or running, and the device serves the next of the queue, or nobody |
| `MachineInvariants.SyscallRunInv` | src/core/exceptions/handler.c:58-85 | One system call from trap to resumption keeps the machine invariant if its step is safe |
| `MachineInvariants.SyscallRunService` | src/core/exceptions/handler.c:58-85 | It keeps the device protocol and the command registers besides if its step is polite |
| `MachineInvariants.InterruptStep` | src/core/exceptions/interrupts.c:21-58 | Within an interrupt handler a slice or a completion of any device is always possible, and leaves the handler going |
| `Answers.CompletionAnswers` | src/core/exceptions/interrupts.c:92-99 | A completion writes the device status into the return register of the process it completes, into no other register and no other context |
| `Answers.StepAnswers` | src/core/exceptions/syscalls.c:26-34 | create_process and terminate_proc answer in the return register of their caller, -1 if no PCB was free and 0 otherwise; no other register changes, and no other call writes any |
| `Answers.StepSaves` | src/core/processes/scheduler.c:129-130 | A new process starts from the context given for it, and no other saved context changes in a system call |
| `Answers.StepCharges` | src/core/processes/scheduler.c:188-192 | Whom a step charges: the caller of wait_io, and that of `p` exactly if it has to wait; a new process starts with an account of zeros; nobody else's account changes |
| `Answers.WaitIoSends` | src/core/exceptions/interrupts.c:74-77 | wait_io writes its argument to its device exactly if it was free, and to no other |
| `Answers.CompletionSends` | src/core/exceptions/interrupts.c:103-114 | A completion that is not ignored writes to its own device only: the argument saved for the next waiter, or the command 1 that acknowledges |
| `Answers.CallerGoesOn` | src/core/exceptions/handler.c:144-166 | After a system call its caller goes on, at once or when it is next loaded, with the registers of its trap but for the answer; whoever else is resumed starts from what was saved for it, with a whole slice |
| `Answers.TimesShown` | src/core/exceptions/syscalls.c:13-24 | GETCPUTIME: user and kernel time are those the account of the caller shows when the call is over, less the kernel time after it was read; wall-clock time is the time of reading less `tod_at_start` |
| `Answers.IdleAlike` | src/core/exceptions/handler.c:155-156 | No event changes the saved context of the idle process |
| `Calls.CallMeans` | src/core/exceptions/syscalls.c:11-86 | VERHOGEN raises the counter of the semaphore by one and PASSEREN lowers it by one and blocks its caller on it if the value is 0; WAITIO leaves its caller on the device; CREATEPROCESS makes one more process live, child of the caller, with the given priority; TERMINATEPROCESS ends exactly those below its argument or its caller; the two queries change nothing |
| `Interrupts.ServedOnce` | src/core/exceptions/interrupts.c:29-57 | Each device with its interrupt pending (line raised and bit set; for a half of a terminal also that half done) is served exactly once, and no other one is |
| `Interrupts.ServedInOrder` | src/core/exceptions/interrupts.c:29-57 | Devices are served line by line and in the order of their numbers, the terminals last, of each one the receiver before the transmitter |
| `Interrupts.BitIs` | src/core/exceptions/interrupts.c:34-37 | Bit i of a bitmap is the one of weight 2 to the power of i |
| `Interrupts.HandlingIs` | src/core/exceptions/interrupts.c:21-58 | The events of an interrupt handler, one by one: entry, a slice exactly if the timer has run out and right after the entry, one completion with its own status for each device served, exit |
| `Interrupts.TimerAlone` | src/core/exceptions/interrupts.c:22-25 | With no line raised the handler takes one slice if the timer has run out, and leaves the scheduler alone if not |
| `Interrupts.LineServes` | src/core/exceptions/interrupts.c:29-40 | The scan of one line serves a device once if its bit is set, and not otherwise |
| `Interrupts.HalvesServe` | src/core/exceptions/interrupts.c:45-54 | The two halves of a terminal are looked at apart, and each is served if it is done |
| `Interrupts.HandlingInv` | src/core/exceptions/handler.c:48-55 | An interrupt handler keeps the machine invariant if each completion finds at the head of its queue the process it serves, and from a state with the device protocol always |
| `Boot.LaunchedInv` | src/core/processes/scheduler.c:44-89 | The state that init_scheduler and launch leave satisfies the kernel invariant, runs a real process and has nobody blocked |
| `Boot.AdmitAllSteady` | src/core/processes/scheduler.c:55-59 | Admitting the starting processes one by one keeps everything but the choice of the running process, and lengthens the ready queue by their number |
| `Boot.AdmitAllReady` | src/core/processes/scheduler.c:55-59 | Each starting process is ready, in the PCB that its position selects and with the priority it came with |
| `Boot.AdmitAllFree` | src/core/processes/scheduler.c:55-59 | Starting processes receive the PCBs in table order |
| `Boot.LaunchInv` | src/core/processes/scheduler.c:74-76 | The first launch establishes dispatch |
| `Boot.LaunchedMachineInv` | src/core/processes/scheduler.c:74-85 | The machine as launch starts it satisfies the machine invariant, the device protocol and the agreement of commands with requests |
| `Boot.Reachable` | src/core/processes/scheduler.c:44-89 | Every machine state reachable from launch satisfies the machine invariant |
| `Launching.LaunchedIs` | src/core/processes/scheduler.c:44-89 | After launch each starting process has the PCB of its position and its own priority; the highest, of equals the first listed, runs; the others are ready in that order; everything else is free, open or idle |
| `Scheduler.Scheduler.constructor` | src/core/processes/scheduler.c:50-71 | Builds the tables, free lists and device lists of init_scheduler |
| `Scheduler.Scheduler.Boot` | src/core/processes/scheduler.c:44-89 | Initialization and launch in place reach exactly the launched state, its timers and its saved contexts |
| `Scheduler.Scheduler.InitPcbs` | src/core/processes/pcb.c:9-15 | The free list ends up holding the whole table in order |
| `Scheduler.Scheduler.InitDevices` | src/core/processes/scheduler.c:66-71 | Every device list starts with count 1 and nobody served |
| `Scheduler.Scheduler.InitScheduler` | src/core/processes/scheduler.c:55-59 | The loop admits exactly the starting processes, with their contexts and priorities |
| `Scheduler.Scheduler.Launch` | src/core/processes/scheduler.c:74-85 | The best ready process runs, and its two clock fields are set |
| `Scheduler.Scheduler.StopRunningProc` | src/core/processes/scheduler.c:271-278 | The running process re-enters the ready queue at its original priority; idle does not |
| `Scheduler.Scheduler.SetRunningProc` | src/core/processes/scheduler.c:280-287 | Installs a process, or idle for NULL |
| `Scheduler.Scheduler.ScheduleProc` | src/core/processes/scheduler.c:114-124 | Updates the globals to schedule_proc's specified state, priority comparison and idle case included |
| `Scheduler.Scheduler.PopRunning` | src/core/processes/scheduler.c:175-179 | Returns the running process and installs the next one |
| `Scheduler.Scheduler.FlushUserTime` | src/core/processes/scheduler.c:323-327 | Adds the time since the last flush to user time |
| `Scheduler.Scheduler.FlushKernelTime` | src/core/processes/scheduler.c:329-333 | Adds the time since the last flush to kernel time |
| `Scheduler.Scheduler.FlushResetTime` | src/core/processes/scheduler.c:335-337 | Charges nothing and restarts the clock |
| `Scheduler.Scheduler.AllocPcb` | src/core/processes/pcb.c:23-50 | Takes the first free PCB and blanks every field but `dev_w_list`, or reports that none is free |
| `Scheduler.Scheduler.InsertChild` | src/core/processes/pcb.c:126-148 | Links a childless process as last child |
| `Scheduler.Scheduler.CreateProcess` | src/core/processes/scheduler.c:126-142 | Reaches the specified state with the given context saved, or returns -1 and changes nothing when no PCB is free |
| `Scheduler.Scheduler.Sleep` | src/core/processes/scheduler.c:193-197 | Blocks the running process and runs the next; a descriptor is always there, so the panic is dead |
| `Scheduler.Scheduler.P` | src/core/processes/scheduler.c:188-200 | The code that decrements, blocks and increments again reaches the specified state of `p`, charging kernel time only if it blocks |
| `Scheduler.Scheduler.V` | src/core/processes/scheduler.c:202-219 | The code that increments, wakes, ages, schedules and decrements again reaches the specified state of `v` |
| `Scheduler.Scheduler.WakeFirst` | src/core/processes/scheduler.c:204-214 | Takes the first waiter, restores its priority and ages exactly the remaining ones |
| `Scheduler.Scheduler.AgeAll` | src/core/processes/scheduler.c:224-227 | The loop raises the priority of each process of the queue by one, once |
| `Scheduler.Scheduler.TimeSliceCallback` | src/core/processes/scheduler.c:221-236 | Reaches the specified state of a time slice |
| `Scheduler.Scheduler.RemoveChild` | src/core/processes/pcb.c:150-173 | Pops the first child and clears its parent link |
| `Scheduler.Scheduler.OutChild` | src/core/processes/pcb.c:175-198 | Removes a process from its parent's children wherever it stands; only a first child loses its parent link |
| `Scheduler.Scheduler.Disown` | src/core/processes/scheduler.c:295-298 | The branch for a process off every semaphore with a device pointer: what the pointer leads to is cleared, and the process stays in its queue |
| `Scheduler.Scheduler.TakeOut` | src/core/processes/scheduler.c:291-310 | From any state that satisfies the scheduler invariant, removes one process of the subtree by whichever branch applies and frees it; the failure branch is dead |
| `Scheduler.Scheduler.RecursiveRemoveProc` | src/core/processes/scheduler.c:289-321 | From any such state, terminates, returns 0, and frees exactly the subtree, each process once |
| `Scheduler.Scheduler.TerminateProc` | src/core/processes/scheduler.c:144-165 | From any such state, returns 0 and reaches the specified state, for a listing of exactly the subtree of the argument, or of the running process for NULL |
| `Scheduler.Scheduler.PickAfterRemoval` | src/core/processes/scheduler.c:155-163 | Takes the running process back from the ready queue, or replaces it if it was removed |
| `Scheduler.Scheduler.OutChildBlocked` | src/core/processes/asl.c:133-144 | Terminates, visits exactly the process and its descendants, and takes all of them off their semaphores and nobody else |
| `Scheduler.Scheduler.WaitForDevice` | src/core/exceptions/interrupts.c:61-82 | Reaches the specified state of wait_io, and tells whether the command goes out at once |
| `Scheduler.Scheduler.JoinBusy` | src/core/exceptions/interrupts.c:70-73 | The caller is inserted by priority and the count is restored |
| `Scheduler.Scheduler.JoinFree` | src/core/exceptions/interrupts.c:74-80 | The caller is queued first, recorded as served, and given the back-pointer |
| `Scheduler.Scheduler.CompleteDevice` | src/core/exceptions/interrupts.c:90-99 | Dequeues the head and, if it is the one served, schedules it with the device status in its return register |
| `Scheduler.Scheduler.ServeDevice` | src/core/exceptions/interrupts.c:103-114 | The next of the queue is served, or the device is freed |
| `Removal.NextRemovable` | src/core/processes/scheduler.c:312-319 | Before each recursive call the child's subtree is still queued, linked and unfreed, and lies deeper |
| `Removal.ChildThrough` | src/core/processes/scheduler.c:313-318 | After each recursive call exactly that child's subtree has gone in addition |
| `Removal.AllThrough` | src/core/processes/scheduler.c:313-320 | When no child is left the whole subtree has gone |
| `Removal.FinishRemoval` | src/core/processes/scheduler.c:152-153 | The table after the recursion is the specified one, and the processes freed are the subtree |
| `Removal.BaseMinus` | src/core/processes/scheduler.c:152-156 | Inserting the running process for the time of the recursion and taking it back leaves the ready queue as if it had never been inserted |
| `Removal.DropBlocked` | src/core/processes/asl.c:110-122 | Dropping one blocked process from its queue is the same as filtering it out of all queues |
| `Asl.Asl.constructor` | src/core/processes/asl.c:34-43 | All descriptors free, no queue active |
| `Asl.Asl.GetSemd` | src/core/processes/asl.c:9-15 | Finds the descriptor of a key if and only if the key is active |
| `Asl.Asl.RetrieveFreeSemd` | src/core/processes/asl.c:45-58 | Moves a free descriptor to the active list with the key and an empty queue; NULL exactly when none is free |
| `Asl.Asl.InsertBlockedFifo` | src/core/processes/asl.c:60-70 | Appends to the queue of the key and sets `p_semkey`; fails exactly when the key is inactive and no descriptor is free, changing nothing |
| `Asl.Asl.InsertBlocked` | src/core/processes/asl.c:72-83 | Inserts by priority and sets `p_semkey`; fails in the same case only |
| `Asl.Asl.FreeSemdIfEmpty` | src/core/processes/asl.c:86-92 | Returns an emptied descriptor to the free list, so that no active queue is empty |
| `Asl.Asl.RemoveBlocked` | src/core/processes/asl.c:94-108 | Takes the head of the queue of an active key, clears its `p_semkey`, and returns an emptied descriptor |
| `Asl.Asl.OutBlocked` | src/core/processes/asl.c:110-122 | Takes a process out of the queue its `p_semkey` names, and does nothing if it is in none |
| `Asl.Asl.HeadBlocked` | src/core/processes/asl.c:124-131 | The head of the queue of a key, or NULL |
| `Asl.Asl.DescriptorAvailable` | src/core/processes/asl.c:45-58 | Whenever a process is about to block a free descriptor exists, so insertBlocked and insertBlockedFifo never return TRUE |
| `Asl.Activate` | src/core/processes/asl.c:49-56 | Moving a descriptor to the active list keeps keys distinct and each descriptor in one of the two lists |
| `Asl.Deactivate` | src/core/processes/asl.c:86-92 | So does moving it back |
| `Nucleus.Nucleus.Launch` | src/bikaya.c:26-37 | The system launched satisfies the machine invariant; each starting process has its own context and priority, the first of the highest is in the processor with a whole slice, and accounts are zero but for the clock of the one that runs |
| `Nucleus.Nucleus.StartHandler` | src/core/exceptions/handler.c:135-142 | Caches the timer, capped at a slice, records the interrupted process and charges its user time |
| `Nucleus.Nucleus.ConcludeHandler` | src/core/exceptions/handler.c:144-166 | Resumes the interrupted process from the old area, or saves it (unless idle) and loads the running one with a full slice |
| `Nucleus.Nucleus.WaitIo` | src/core/exceptions/interrupts.c:61-82 | wait_io with its command: sent only if the device was free |
| `Nucleus.Nucleus.DoneIo` | src/core/exceptions/interrupts.c:86-119 | done_io with its status and its next command; nothing happens if nobody is served |
| `Nucleus.Nucleus.CreateProcess` | src/core/exceptions/syscalls.c:26-29 | CREATEPROCESS puts the result in the return register of the caller |
| `Nucleus.Nucleus.TerminateProc` | src/core/exceptions/syscalls.c:31-34 | TERMINATEPROCESS does the same with the result of terminate_proc |
| `Nucleus.Nucleus.ConsumeSyscall` | src/core/exceptions/syscalls.c:4-83 | Each call performs the kernel step it stands for, and GETCPUTIME, CREATEPROCESS and GETPID answer as specified; what that means is stated on HandleSyscall |
| `Nucleus.Nucleus.HandleSyscall` | src/core/exceptions/handler.c:58-85 | One system call from trap to resumption, call by call: its effect on semaphore counters, on who is live, on where its caller is; the registers with which its caller goes on; the times, pids and commands that leave the kernel; the invariant if its step is safe, and the device protocol if it is polite |
| `Nucleus.Nucleus.ServeLine` | src/core/exceptions/interrupts.c:32-38 | The loop that shifts a bitmap serves the devices of a line in the order of its set bits |
| `Nucleus.Nucleus.ServeTerminal` | src/core/exceptions/interrupts.c:45-54 | The receiver of a terminal is served before its transmitter, each if it is done |
| `Nucleus.Nucleus.ServeTerminals` | src/core/exceptions/interrupts.c:43-56 | The loop over the terminals serves those whose bits are set, in order |
| `Nucleus.Nucleus.ConsumeInterrupts` | src/core/exceptions/interrupts.c:21-58 | The timer first, then the raised lines, the terminals last: the effect is the trace of one slice and of the completions that the bitmaps call for |
| `Nucleus.Nucleus.HandleInterrupt` | src/core/exceptions/handler.c:48-55 | An interrupt handler is the history of one entry, a slice and completions as the bitmaps say, and one exit; with no line raised it is Tick or nothing, as the timer says; it keeps the machine invariant if the completions are safe, and from a state with the device protocol always |
| `ListX.AddCycle` | include/utils/listx.h:104-112 | Linking between two neighbours inserts into the sequence of members and keeps next and prev inverse |
| `ListX.DelCycle` | include/utils/listx.h:148-164 | Joining the neighbours removes the member from the sequence, whatever its own links still say |
| `ListX.Rotate` | include/utils/listx.h:241-242 | Any member of a circular list can serve as its sentinel |
| `ListX.ListHeads.InitListHead` | include/utils/listx.h:91-95 | A list with no members |
| `ListX.ListHeads.ListAddBetween` | include/utils/listx.h:104-112 | Writes exactly the four links |
| `ListX.ListHeads.ListAdd` | include/utils/listx.h:122-125 | The entry becomes the first member |
| `ListX.ListHeads.ListAddTail` | include/utils/listx.h:135-138 | The entry becomes the last member |
| `ListX.ListHeads.ListDel` | include/utils/listx.h:161-164 | The entry leaves the list and keeps its stale links |
| `ListX.ListHeads.ListEmpty` | include/utils/listx.h:187-190 | True exactly for a list with no members |
| `ListX.ListHeads.ListNext` | include/utils/listx.h:200-206 | The first member, or NULL for an empty list |
| `ProcQueue.ProcQueues.Walk` | include/utils/listx.h:262-265 | Each step of the iteration macro goes from one member to the next, and after the last to the sentinel |
| `ProcQueue.ProcQueues.MkEmptyProcQ` | src/core/processes/pcb.c:53-55 | The empty queue, and no other list written to |
| `ProcQueue.ProcQueues.EmptyProcQ` | src/core/processes/pcb.c:58-60 | True exactly for the empty queue |
| `ProcQueue.ProcQueues.FindSlot` | src/core/processes/pcb.c:66-71 | The walk stops at the first process of strictly lower priority, or at the sentinel |
| `ProcQueue.ProcQueues.InsertProcQ` | src/core/processes/pcb.c:63-73 | The linked list becomes the priority insertion into the sequence, and no other list is written to |
| `ProcQueue.ProcQueues.HeadProcQ` | src/core/processes/pcb.c:76-83 | The first process, or NULL |
| `ProcQueue.ProcQueues.RemoveProcQ` | src/core/processes/pcb.c:86-97 | Takes the first process off, or returns NULL |
| `ProcQueue.ProcQueues.OutProcQ` | src/core/processes/pcb.c:100-110 | Finds and removes a process wherever it is, leaving the others in order; NULL and no change if it is not there |
| `ProcQueue.ProcQueues.FreePcb` | src/core/processes/pcb.c:18-20 | The PCB becomes the first of the free list |
| `ProcQueue.ProcQueues.AllocPcb` | src/core/processes/pcb.c:24-41 | The first PCB of the free list is taken off and left as a list of its own |
| `ProcQueue.ProcQueues.InitPcbs` | src/core/processes/pcb.c:9-15 | The free list ends up in table order |
| `Pool.OneQueue` | include/utils/listx.h:104-164 | Writing to links in which no other queue has a part changes one queue of the pool, and keeps all of them disjoint |
| `Pool.WalkNeverEnds` | src/core/processes/scheduler.c:295-306 | A process freed while it is still queued leads every walk of its queue into the free list, from which it never comes back to its sentinel |
| `Pool.KernelQueues.Empty` | src/core/processes/pcb.c:9-15 | In memory, everything is free and nothing ready |
| `Pool.KernelQueues.Insert` | src/core/processes/pcb.c:63-73 | A process that is in no queue enters one of the pool, and all others stay |
| `Pool.KernelQueues.Out` | src/core/processes/pcb.c:100-110 | A process leaves one of the queues of the pool, and all others stay |
| `Pool.KernelQueues.Take` | src/core/processes/pcb.c:24-41 | The first PCB of the free list comes off and is in no queue, and all other queues stay |
| `Pool.KernelQueues.Free` | src/core/processes/pcb.c:18-20 | A PCB that is in no queue goes to the front of the free list, and all others stay |
| `Pool.KernelQueues.ScheduleProc` | src/core/processes/scheduler.c:114-124 | On the linked lists of the whole kernel, schedule_proc leads to those of the specified state |
| `Pool.KernelQueues.RunNext` | src/core/processes/scheduler.c:175-179 | On the linked lists of the whole kernel, the first ready process is taken off and runs, or idle |
| `Pool.KernelQueues.RemoveOne` | src/core/processes/scheduler.c:291-306 | On the linked lists of the whole kernel, a process is taken off the ready queue or its semaphore and put on the free list |
| `Pool.KernelQueues.RemovedIs` | src/core/processes/scheduler.c:291-306 | That step makes the process the head of the free list and takes it out of every other queue, and nothing else moves or changes |
| `PcbTree.ClearForest` | src/core/processes/pcb.c:34-42 | Clearing the tree links of a PCB that has no relatives leaves every family alone |
| `PcbTree.InsertForest` | src/core/processes/pcb.c:126-148 | insertChild appends to the list of children and leaves every other family alone |
| `PcbTree.RemoveForest` | src/core/processes/pcb.c:150-173 | removeChild pops the first child and hands the role of sentinel to the next |
| `PcbTree.DropSentinel` | src/core/processes/pcb.c:159-166 | list_del applied to the sentinel itself leaves the rest a list with the next sibling as sentinel |
| `PcbTree.OutForest` | src/core/processes/pcb.c:188-192 | outChild deletes a later child from the middle |
| `PcbTree.Tree.EmptyChild` | src/core/processes/pcb.c:121-124 | True exactly for a process without children |
| `PcbTree.Tree.Clear` | src/core/processes/pcb.c:34-42 | In memory, exactly the tree links of the PCB are reset |
| `PcbTree.Tree.InsertChild` | src/core/processes/pcb.c:126-148 | In memory, the forest gains the child at the end of its parent's list |
| `PcbTree.Tree.RemoveChild` | src/core/processes/pcb.c:150-173 | In memory, the forest loses the first child, whose parent link is cleared |
| `PcbTree.Tree.OutChild` | src/core/processes/pcb.c:175-198 | In memory, the forest loses the child at its position; a later child keeps its parent link |
| `PcbTree.Tree.NextSibling` | src/core/processes/pcb.c:201-207 | The next child, or NULL after the last |
| `Linked.LinkedKernel.CreateProcess` | src/core/processes/scheduler.c:126-142 | In memory, create_process leads from the links of one scheduler state, of all its queues and all its families, to those of the specified one, with the result and the pid of the code |
| `Linked.LinkedKernel.NewChild` | src/core/processes/scheduler.c:126-133 | In memory, the first free PCB becomes the last child of the running process and is in no queue |
| `Linked.LinkedKernel.Reserve` | src/core/processes/pcb.c:23-50 | In memory, it comes off the free list with its priorities set, and every other queue stays |
| `Linked.LinkedKernel.Adopt` | src/core/processes/pcb.c:34-42 | In memory, its tree links are cleared and then put it at the end of its parent's children, and all other families stay |
| `Linked.LinkedKernel.Empty` | src/core/processes/pcb.c:9-15 | Memory after initPcbs and mkEmptyProcQ holds the state before launch |
| `Linked.FlatSchedule` | src/core/processes/scheduler.c:114-124 | schedule_proc neither reads nor writes a link of the tree |
| `Terminal.PrintParse` | src/devices/terminal.c:94-122 | Printing an integer and parsing the text gives the integer, for every base and every set of distinct digits without the sign |
| `Terminal.BothRoundTrip` | src/devices/terminal.c:94-122 | In particular for the decimal and the binary printer |
| `Terminal.UsualNotation` | src/devices/terminal.c:94-122 | What the two printers write is the number in decimal and binary notation with the digit characters of ASCII, after a minus sign if it is negative |
| `Terminal.ReadBack` | src/devices/terminal.c:124-138 | The digits printed have the value of the number |
| `Terminal.NumeralCanonical` | src/devices/terminal.c:124-138 | They are digits of the base with no leading zero except in "0" |
| `Terminal.NumeralUnique` | src/devices/terminal.c:124-138 | No other canonical string of digits has that value |
| `Terminal.NumeralLength` | src/devices/terminal.c:127-131 | Their number is the length of the number in that base |
| `Terminal.EndOf` | src/devices/terminal.c:127-131 | The counting loop stops where the representation ends |
| `Terminal.NumToStrBuf` | src/devices/terminal.c:124-155 | The writing loop fills exactly the space the counting loop found, from the last digit back to the first, and nothing else |
| `Terminal.IntToStr` | src/devices/terminal.c:94-122 | Sign, digits and terminator at the start of the buffer, the rest untouched; INT_MIN, which has no positive counterpart, is excluded |
| `Terminal.UintToStr` | src/devices/terminal.c:105-110 | Digits and terminator at the start of the buffer, the rest untouched |

## Left out

- The TLB and program-trap handlers, system calls above 8, breakpoints, SPECPASSUP and the pass-up areas: finite case splits
  around the same `terminate_proc`.
- The emulators and their hardware: `LDST`, status registers, device registers beyond the command last written, and the
  architecture layer.
- `populate_pcb` and the layout of stack frames: a starting process comes with its context and priority.
- Polling terminal and printer I/O, `addokbuf`, debug logging and the longer slice of debug builds.
- 32-bit overflow of priorities, semaphore values and clocks: they are mathematical integers.
- The memory cells of callers: GETCPUTIME, GETPID and CREATEPROCESS answer by value, without aliasing between those cells.
- Panics end the system and are not modelled further: more starting processes than PCBs, no starting process, invalid
  pointers to `insertChild`. The panics of `p`, `outChild` and `recursive_remove_proc` are proved unreachable.
- `list_prev`, `list_is_last` and the backward iteration macros, which nothing uses.
- Scheduler.Scheduler: works on queues and child lists as sequences in fields. ProcQueue and PcbTree prove that linked memory
  realises each of these operations, Pool that schedule_proc, the choice of the next process and the removal of a process
  do so on all process queues at once, and Linked that create_process does so on queues and tree together; the other steps are
  not repeated on linked memory.
- Scheduler.Scheduler.RecursiveRemoveProc: once it has freed a process without dequeuing it, the sequences go on as if a PCB
  could be linked in two lists; in memory the walk of that queue does not end (Pool.WalkNeverEnds).
- Scheduler.Scheduler.AllocPcb: does not model the pass-up areas; the self-links of `p_next` and `p_sib` are in ProcQueue and PcbTree.
- Asl.Asl: the active and free lists of descriptors are sequences of table indices, not linked memory.
- Asl.Asl.InsertBlocked: computes the new queue before it sets `p_semkey`, where the code sets it first; the insertion does not
  read that field.
- Scheduler.Scheduler.OutChildBlocked: steps through the children by position; nextSibling is proved in PcbTree.
- Terminal.IntToStr: requires the number to differ from INT_MIN, whose negation overflows in the code.
- Nucleus.Nucleus.Launch: leaves out the installation of the new areas, which tells the machine where the handlers are.
- Nucleus.Nucleus.ConsumeSyscall: leaves out SPECPASSUP and unknown call numbers, and answers by value.
- Nucleus.Nucleus.HandleSyscall: covers the calls listed in its datatype, with arguments that name existing objects.
