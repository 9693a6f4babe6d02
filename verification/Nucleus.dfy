/** The exception handlers: context switch, system calls and interrupts, driving the scheduler. */
module Nucleus {
  import opened Seqs
  import opened Sched
  import opened Invariants
  import opened Devices
  import opened Runs
  import opened Boot
  import opened Launching
  import opened Semaphores
  import opened Answers
  import opened Calls
  import opened Machine
  import opened MachineInvariants
  import opened Interrupts
  import K = Scheduler

  /** The part of the machine that only the specification follows. */
  datatype Shadow = Shadow(now: int, mode: Mode, launched: int, charged: int, logical: seq<Context>, request: seq<int>)

  ghost function NextShadow(m: Machine, a: Action, tod: int, datum: Context): Shadow
    requires Callable(m.k, a)
  {
    var m' := KernelStep(m, a, tod, datum);
    Shadow(m'.now, m'.mode, m'.launched, m'.charged, m'.logical, m'.request)
  }

  class Nucleus {
    const sched: K.Scheduler
    const commands: array<int>         // the command registers of the devices
    var oldArea: Context
    var interruptedProc: Pid
    var cpu: Context
    var timer: int
    var timerCache: int
    const slice: int
    ghost var h: Shadow

    /** The machine's state as a value. */
    ghost function M(): Machine
      reads this, commands, sched, sched.pcbs, sched.accounts, sched.saved, sched.asl, sched.devWLists
    {
      Machine(sched.S(), sched.accounts[..], sched.saved[..], cpu, oldArea, interruptedProc, timer, timerCache, slice, h.now,
              commands[..], h.mode, h.launched, h.charged, h.logical, h.request)
    }

    /** The handlers' own variables, for a scheduler that has just been launched. */
    constructor (s: K.Scheduler, contexts: seq<Context>, slice: int, tod: int)
      requires s.Valid() && s.saved[..] == Padded(contexts, s.pcbs.Length)
      requires s.accounts[..] == SetAcct(K.Blank(s.pcbs.Length), s.runningProc, Account(0, 0, tod, tod))
      ensures sched.Valid() && sched == s && fresh(commands) && M() == LaunchedMachine(s.S(), contexts, slice, tod)
    {
      sched := s;
      commands := new int[s.devWLists.Length](_ => 0);
      oldArea, interruptedProc, cpu := BLANK_CONTEXT, s.runningProc, s.saved[s.runningProc];
      timer, timerCache, this.slice := slice, slice, slice;
      h := Shadow(tod, User, tod, 0, s.saved[..], seq(s.pcbs.Length, i requires 0 <= i < s.pcbs.Length => 0));
    }

    /** bikaya_launch: the scheduler initialized, its starting processes admitted, the first of them loaded. */
    static method Launch(n: nat, starting: seq<(Context, int)>, cells: map<int, int>, devices: nat, slice: int, tod: int)
      returns (b: Nucleus)
      requires 0 < |starting| <= n && tod >= 0 && forall a :: a in cells ==> cells[a] >= 0
      ensures b.sched.Valid() && MachineInv(b.M())
      ensures var k := Launched(n, K.Priorities(starting), cells, devices);
        b.M() == LaunchedMachine(k, K.Contexts(starting), slice, tod)
      // Every process has its own PCB, priority and context; the first of the highest runs, with a whole slice.
      ensures var s, r := b.sched.S(), b.sched.runningProc;
        && r < |starting| && b.cpu == starting[r].0 && b.timer == slice && b.slice == slice
        && (forall i: Pid :: i < |starting| ==>
             && Prio(s.pcbs, i) == starting[i].1 && At(s.pcbs, i).originalPriority == starting[i].1
             && Ctx(b.sched.saved[..], i) == starting[i].0
             && (i != r ==> i in s.ready && (starting[r].1 > starting[i].1 || (starting[r].1 == starting[i].1 && r < i))))
        && (forall i: Pid :: i <= n ==>
             Acct(b.sched.accounts[..], i) == if i == r then Account(0, 0, tod, tod) else Account(0, 0, 0, 0))
    {
      hide Launched, LaunchedMachine, MachineInv;
      var s := K.Scheduler.Boot(n, starting, cells, devices, tod);
      LaunchedInv(n, K.Priorities(starting), cells, devices);
      b := new Nucleus(s, K.Contexts(starting), slice, tod);
      LaunchedMachineInv(s.S(), K.Contexts(starting), slice, tod);
      LaunchMeans(n, starting, cells, devices, slice, tod);
    }

    static lemma LaunchMeans(n: nat, starting: seq<(Context, int)>, cells: map<int, int>, devices: nat, slice: int,
                             tod: int)
      requires 0 < |starting| <= n
      ensures var k := Launched(n, K.Priorities(starting), cells, devices);
        var m, r := LaunchedMachine(k, K.Contexts(starting), slice, tod), k.running;
        && r < |starting| && m.cpu == starting[r].0 && m.timer == slice && m.slice == slice
        && (forall i: Pid :: i < |starting| ==>
             && Prio(k.pcbs, i) == starting[i].1 && At(k.pcbs, i).originalPriority == starting[i].1
             && Ctx(m.saved, i) == starting[i].0
             && (i != r ==> i in k.ready && (starting[r].1 > starting[i].1 || (starting[r].1 == starting[i].1 && r < i))))
        && (forall i: Pid :: i <= n ==>
             Acct(m.accounts, i) == if i == r then Account(0, 0, tod, tod) else Account(0, 0, 0, 0))
    {
      hide Launched;
      LaunchedIs(n, K.Priorities(starting), cells, devices);
      var k := Launched(n, K.Priorities(starting), cells, devices);
      var r := k.running;
      forall i: Pid | i < |starting| && i != r
        ensures i in k.ready && (starting[r].1 > starting[i].1 || (starting[r].1 == starting[i].1 && r < i))
      {
        assert Before(K.Priorities(starting), r, i);
      }
    }

    method StartHandler(kind: Mode, tod: int, intervalTimer: int, trap: Context)
      requires sched.Valid()
      modifies this, sched.accounts
      ensures sched.Valid() && M() == EnterHandler(old(M()), kind, tod, intervalTimer, trap)
    {
      hide FlushUser, SetCtx;
      ghost var m := M();
      timer, timerCache, oldArea := intervalTimer, if intervalTimer > slice then slice else intervalTimer, trap;
      interruptedProc := sched.runningProc;
      h := h.(now := tod, mode := kind, logical := SetCtx(h.logical, interruptedProc, trap),
              charged := h.charged + (tod - Acct(m.accounts, interruptedProc).todCache));
      sched.FlushUserTime(interruptedProc, tod);
    }

    method ConcludeHandler(tod: int)
      requires sched.Valid() && interruptedProc < sched.pcbs.Length
      modifies this, sched.accounts, sched.saved
      ensures sched.Valid() && M() == LeaveHandler(old(M()), tod)
    {
      hide FlushKernel, FlushReset;
      ghost var m := M();
      var resuming := sched.runningProc;
      if interruptedProc != resuming {
        if interruptedProc != sched.IdleProc() {
          sched.saved[interruptedProc] := oldArea;
        }
        timer, cpu := slice, sched.saved[resuming];
        h := h.(now := tod, mode := User);
        sched.FlushResetTime(resuming, tod);
      } else {
        timer, cpu := timerCache, oldArea;
        h := h.(now := tod, mode := User, charged := h.charged + (tod - Acct(m.accounts, interruptedProc).todCache));
        sched.FlushKernelTime(interruptedProc, tod);
      }
    }

    // ---- Device waiting lists --------------------------------------------------------------------------------------

    /** wait_io: the caller's command is sent at once, or waits in its saved context for the device to be free. */
    method WaitIo(d: nat, command: int, tod: int)
      requires sched.Valid() && KernelInv(sched.S()) && Callable(sched.S(), AWaitIo(d))
      requires commands.Length == sched.devWLists.Length
      modifies commands, sched`readyQueue, sched`runningProc, sched.pcbs, sched.accounts, sched.asl
      modifies sched.asl.semds, sched.devWLists
      ensures sched.Valid() && sched.S() == Spec.WaitIo(old(sched.S()), d)
      ensures sched.accounts[..] == FlushKernel(old(sched.accounts[..]), old(sched.runningProc), tod)
      ensures commands[..] == if old(sched.devWLists[d]).cmdSem - 1 >= 0 then SetWord(old(commands[..]), d, command)
                              else old(commands[..])
    {
      hide Inv;
      var sent := sched.WaitForDevice(d, tod);
      if sent {
        commands[d] := command;
      }
    }

    /** done_io: the served process gets the device's status, and the next one's command goes out. */
    method DoneIo(d: nat, status: int)
      requires sched.Valid() && Linked(sched.S()) && d < sched.devWLists.Length == commands.Length
      modifies commands, sched`readyQueue, sched`runningProc, sched.pcbs, sched.saved, sched.asl
      modifies sched.asl.semds, sched.devWLists
      ensures sched.Valid() && sched.S() == Spec.DoneIo(old(sched.S()), d)
      ensures sched.saved[..] == Delivered(old(sched.S()), d, old(sched.saved[..]), status)
      ensures commands[..] == Reissued(old(sched.S()), d, old(commands[..]), sched.saved[..])
    {
      hide Linked, Complete, ServeNext, KeyLinked;
      ghost var s := sched.S();
      if sched.devWLists[d].res.Some? {
        sched.CompleteDevice(d, status);
        WaitersInTable(s, d);
        var next := sched.ServeDevice(d);
        if next.Some? {
          commands[d] := sched.saved[next.value].arg1;
        } else {
          commands[d] := DEVICE_CMD_ACK;
        }
      }
    }

    static lemma WaitersInTable(s: Sched, d: nat)
      requires Linked(s) && d < |s.devs|
      ensures forall x :: x in QueueOf(Complete(s, d).blocked, Device(d)) ==> x < |s.pcbs|
    {
      if HasWaiter(s, Device(d)) {
        var q := s.blocked[Device(d)];
        assert QueueLinked(s, Device(d), q);
        assert forall x :: x in q[1..] ==> x in q;
      }
    }

    // ---- Kernel steps ----------------------------------------------------------------------------------------------

    method WaitIoStep(d: nat, command: int, tod: int)
      requires sched.Valid() && KernelInv(sched.S()) && Callable(sched.S(), AWaitIo(d))
      requires commands.Length == sched.devWLists.Length && command == oldArea.arg1
      modifies this`h, commands, sched`readyQueue, sched`runningProc, sched.pcbs, sched.accounts, sched.asl
      modifies sched.asl.semds, sched.devWLists
      ensures sched.Valid() && M() == KernelStep(old(M()), AWaitIo(d), tod, BLANK_CONTEXT)
    {
      hide KernelInv, Spec.WaitIo, Callable, K.Scheduler.Valid;
      h := NextShadow(M(), AWaitIo(d), tod, BLANK_CONTEXT);
      WaitIo(d, command, tod);
    }

    method DoneIoStep(d: nat, status: Context, tod: int)
      requires sched.Valid() && Linked(sched.S()) && d < sched.devWLists.Length == commands.Length
      modifies this`h, commands, sched`readyQueue, sched`runningProc, sched.pcbs, sched.saved, sched.asl
      modifies sched.asl.semds, sched.devWLists
      ensures sched.Valid() && M() == KernelStep(old(M()), ADoneIo(d), tod, status)
    {
      h := NextShadow(M(), ADoneIo(d), tod, status);
      DoneIo(d, status.ret);
    }

    method TickStep(tod: int, ghost datum: Context)
      requires sched.Valid() && Inv(sched.S(), None)
      modifies this`h, sched`readyQueue, sched`runningProc, sched.pcbs
      ensures sched.Valid() && M() == KernelStep(old(M()), ATick, tod, datum)
    {
      hide Inv;
      h := NextShadow(M(), ATick, tod, datum);
      sched.TimeSliceCallback();
    }

    method Passeren(a: int, tod: int)
      requires sched.Valid() && KernelInv(sched.S()) && Callable(sched.S(), APasseren(a))
      modifies this`h, sched`sems, sched`readyQueue, sched`runningProc, sched.pcbs, sched.accounts
      modifies sched.asl, sched.asl.semds
      ensures sched.Valid() && M() == KernelStep(old(M()), APasseren(a), tod, BLANK_CONTEXT)
    {
      hide Inv;
      h := NextShadow(M(), APasseren(a), tod, BLANK_CONTEXT);
      sched.P(a, tod);
    }

    method Verhogen(a: int, tod: int)
      requires sched.Valid() && KernelInv(sched.S()) && Callable(sched.S(), AVerhogen(a))
      modifies this`h, sched`sems, sched`readyQueue, sched`runningProc, sched.pcbs, sched.asl, sched.asl.semds
      ensures sched.Valid() && M() == KernelStep(old(M()), AVerhogen(a), tod, BLANK_CONTEXT)
    {
      hide Protocol, Conserved, Lists;
      h := NextShadow(M(), AVerhogen(a), tod, BLANK_CONTEXT);
      sched.V(a);
    }

    method CreateProcess(state: Context, priority: int, tod: int) returns (cpid: Option<Pid>)
      requires sched.Valid() && KernelInv(sched.S()) && Callable(sched.S(), ACreate(priority))
      modifies this`h, this`oldArea, sched`pcbFree, sched`readyQueue, sched`runningProc, sched`birth, sched`births
      modifies sched.pcbs, sched.accounts, sched.saved
      ensures sched.Valid() && M() == KernelStep(old(M()), ACreate(priority), tod, state)
      ensures cpid == if old(sched.pcbFree) == [] then None else Some(old(sched.pcbFree)[0])
    {
      hide Inv, Spec.Create;
      h := NextShadow(M(), ACreate(priority), tod, state);
      var ret;
      ret, cpid := sched.CreateProcess(state, priority);
      oldArea := oldArea.(ret := ret);
    }

    method TerminateProc(p: Option<Pid>, tod: int) returns (ghost order: seq<Pid>)
      requires sched.Valid() && Inv(sched.S(), None) && Pointers(sched.S()) && sched.runningProc != sched.IdleProc()
      requires p.Some? ==> sched.S().Live(p.value)
      modifies this`h, this`oldArea, sched`pcbFree, sched`readyQueue, sched`runningProc
      modifies sched.pcbs, sched.asl, sched.asl.semds, sched.devWLists
      ensures sched.Valid()
      ensures var root := if p.Some? then p.value else old(sched.runningProc);
        && Callable(old(sched.S()), ATerminate(root, order))
        && M() == KernelStep(old(M()), ATerminate(root, order), tod, BLANK_CONTEXT)
    {
      hide Inv, Lists, Cut;
      ghost var m := M();
      var ret;
      ret, order := sched.TerminateProc(p);
      oldArea := oldArea.(ret := ret);
      h := NextShadow(m, ATerminate(if p.Some? then p.value else m.k.running, order), tod, BLANK_CONTEXT);
    }

    // ---- System calls ----------------------------------------------------------------------------------------------

    /** consume_syscall. */
    method ConsumeSyscall(call: Call, tod: int) returns (answer: Answer, ghost act: Option<Action>)
      requires sched.Valid() && KernelInv(sched.S()) && sched.runningProc != sched.IdleProc() && Sane(sched.S(), call)
      requires commands.Length == sched.devWLists.Length && interruptedProc == sched.runningProc
      modifies this`h, this`oldArea, commands, sched, sched.pcbs, sched.accounts, sched.saved, sched.asl
      modifies sched.asl.semds, sched.devWLists
      ensures sched.Valid() && Performs(old(sched.S()), call, act)
      ensures act.Some? ==> Callable(old(sched.S()), act.value)
      ensures M() == if act.Some? then KernelStep(old(M()), act.value, tod, Datum(call)) else old(M())
      ensures call.GetCpuTime? ==> var t := CpuTime(old(M()), tod); answer == Times(t.0, t.1, t.2)
      ensures call.Create? ==> answer == Child(if old(sched.pcbFree) == [] then None else Some(old(sched.pcbFree)[0]))
      ensures call.GetPid? ==>
        answer == Ids(old(sched.runningProc), At(old(sched.pcbs[..]), old(sched.runningProc)).parent)
    {
      hide KernelStep, Inv, Protocol;
      answer, act := Nothing, None;
      match call
      case GetCpuTime =>
        var x := sched.accounts[interruptedProc];
        answer := Times(x.user, x.kernel + (tod - x.todCache), tod - x.todAtStart);
      case Create(state, priority) =>
        act := Some(ACreate(priority));
        var cpid := CreateProcess(state, priority, tod);
        answer := Child(cpid);
      case Terminate(pid) =>
        ghost var root := if pid.Some? then pid.value else sched.runningProc;
        ghost var order := TerminateProc(pid, tod);
        act := Some(ATerminate(root, order));
      case V(a) =>
        act := Some(AVerhogen(a));
        Verhogen(a, tod);
      case P(a) =>
        act := Some(APasseren(a));
        Passeren(a, tod);
      case WaitIo(d) =>
        act := Some(AWaitIo(d));
        WaitIoStep(d, oldArea.arg1, tod);
      case GetPid =>
        answer := Ids(sched.runningProc, sched.pcbs[sched.runningProc].parent);
    }

    // ---- Handlers --------------------------------------------------------------------------------------------------

    /** The handler of a system call: entry, the call, exit. */
    method RunSyscall(call: Call, trap: Context, intervalTimer: int, t0: int, t1: int, t2: int)
      returns (answer: Answer, ghost act: Option<Action>)
      requires sched.Valid() && MachineInv(M()) && Possible(M(), Enter(Syscall, t0, intervalTimer, trap)) && t0 <= t1 <= t2
      requires Sane(sched.S(), call)
      modifies this, commands, sched, sched.pcbs, sched.accounts, sched.saved, sched.asl
      modifies sched.asl.semds, sched.devWLists
      ensures sched.Valid() && Performs(old(sched.S()), call, act) && (act.Some? ==> Callable(old(sched.S()), act.value))
      ensures M() == SyscallRun(old(M()), t0, intervalTimer, trap, act, t1, Datum(call), t2)
      ensures call.GetCpuTime? ==>
        var t := CpuTime(EnterHandler(old(M()), Syscall, t0, intervalTimer, trap), t1); answer == Times(t.0, t.1, t.2)
      ensures call.Create? ==> answer == Child(if old(sched.pcbFree) == [] then None else Some(old(sched.pcbFree)[0]))
      ensures call.GetPid? ==>
        answer == Ids(old(sched.runningProc), At(old(sched.pcbs[..]), old(sched.runningProc)).parent)
    {
      ghost var m := M();
      SyscallEntered(m, t0, intervalTimer, trap);
      StartHandler(Syscall, t0, intervalTimer, trap);
      answer, act := ConsumeSyscall(call, t1);
      ConcludeHandler(t2);
    }

    /** handle_sysbreak on one of the eight system calls. */
    method HandleSyscall(call: Call, trap: Context, intervalTimer: int, t0: int, t1: int, t2: int)
      returns (answer: Answer, ghost act: Option<Action>)
      requires sched.Valid() && MachineInv(M()) && Possible(M(), Enter(Syscall, t0, intervalTimer, trap)) && t0 <= t1 <= t2
      requires Sane(sched.S(), call)
      modifies this, commands, sched, sched.pcbs, sched.accounts, sched.saved, sched.asl
      modifies sched.asl.semds, sched.devWLists
      ensures sched.Valid() && Performs(old(sched.S()), call, act) && (act.Some? ==> Callable(old(sched.S()), act.value))
      // The call's effect on the scheduler.
      ensures call.V? ==>
        var k, k' := old(sched.S()), sched.S();
        call.sem in k'.sems && Counter(k', call.sem) == Counter(k, call.sem) + 1
      ensures call.P? ==>
        var k, k', r := old(sched.S()), sched.S(), old(sched.runningProc);
        && call.sem in k'.sems && Counter(k', call.sem) == Counter(k, call.sem) - 1
        && (if k.sems[call.sem] > 0 then k'.running == r
            else SemKeyOf(k', r) == Some(Cell(call.sem)) && r in QueueOf(k'.blocked, Cell(call.sem)))
      ensures call.WaitIo? ==>
        var k', r := sched.S(), old(sched.runningProc);
        SemKeyOf(k', r) == Some(Device(call.dev)) && r in QueueOf(k'.blocked, Device(call.dev))
      ensures call.Create? ==>
        var k, k', r := old(sched.S()), sched.S(), old(sched.runningProc);
        && (forall x: Pid :: k'.Live(x) <==> k.Live(x) || (k.free != [] && x == k.free[0]))
        && (k.free != [] ==>
             At(k'.pcbs, k.free[0]).parent == Some(r) && Prio(k'.pcbs, k.free[0]) == call.priority)
      ensures call.Terminate? ==>
        var k, k', r := old(sched.S()), sched.S(), old(sched.runningProc);
        forall x: Pid :: k'.Live(x) <==> k.Live(x) && !Below(k, x, if call.pid.Some? then call.pid.value else r)
      ensures call.GetCpuTime? || call.GetPid? ==> sched.S() == old(sched.S())
      // How its caller goes on, and whoever else is loaded.
      ensures var r, p := old(sched.runningProc), old(sched.pcbFree);
        var c := if sched.runningProc == r then cpu else Ctx(sched.saved[..], r);
        && c.arg1 == trap.arg1 && c.rest == trap.rest
        && c.ret == (if call.Create? then (if p == [] then -1 else 0) else if call.Terminate? then 0 else trap.ret)
        && (sched.runningProc != r ==> cpu == Ctx(sched.saved[..], sched.runningProc))
        && (forall x: Pid :: x != r ==>
             Ctx(sched.saved[..], x) ==
               if call.Create? && p != [] && x == p[0] then call.state else old(Ctx(sched.saved[..], x)))
      // What it answers through memory.
      ensures call.GetCpuTime? ==>
        var x := Acct(sched.accounts[..], old(sched.runningProc));
        answer == Times(x.user, x.kernel - (t2 - t1), t1 - x.todAtStart)
      ensures call.Create? ==> answer == Child(if old(sched.pcbFree) == [] then None else Some(old(sched.pcbFree)[0]))
      ensures call.GetPid? ==>
        answer == Ids(old(sched.runningProc), At(old(sched.pcbs[..]), old(sched.runningProc)).parent)
      // What a free device gets to do.
      ensures call.WaitIo? ==> forall d: nat :: d < commands.Length ==>
        commands[d] == if d == call.dev && Dev(old(sched.S()), d).cmdSem == 1 then trap.arg1 else old(Word(commands[..], d))
      // What becomes of the invariants.
      ensures (act.Some? ==> Safe(old(sched.S()), act.value)) ==> MachineInv(M())
      ensures ServiceInv(old(M())) && (act.Some? ==> Polite(old(sched.S()), act.value)) ==> ServiceInv(M())
      ensures M() == SyscallRun(old(M()), t0, intervalTimer, trap, act, t1, Datum(call), t2)
    {
      hide KernelInv, MachineInv, ServiceInv, Possible, Sane, Performs, EnterHandler, LeaveHandler, KernelStep, SyscallRun;
      hide CpuTime, Apply, Callable, Counter, Safe, Polite;
      ghost var m, k := M(), sched.S();
      answer, act := RunSyscall(call, trap, intervalTimer, t0, t1, t2);
      SyscallOver(m, call, t0, intervalTimer, trap, act, t1, t2);
      CallMeans(k, call, act, sched.S());
      CallerGoesOn(m, t0, intervalTimer, trap, act, t1, Datum(call), t2);
      if call.GetCpuTime? {
        TimesShown(m, t0, intervalTimer, trap, t1, t2);
      }
    }

    /** Inside an interrupt handler entered in `m`, after its tick if there was one and the completions `ds`. */
    ghost predicate Serving(m: Machine, p: Pending, ds: seq<nat>, tod: int)
      reads this, commands, sched, sched.pcbs, sched.accounts, sched.saved, sched.asl, sched.asl.semds, sched.devWLists
    {
      var es := Ticks(p, tod) + Completions(p, ds, tod);
      && sched.Valid() && Linked(sched.S()) && DevAt(|p.lines| + 2, 0) <= sched.devWLists.Length == commands.Length
      && M().mode == Interrupt && M().now <= tod && Trace(m, es) && M() == Replay(m, es)
    }

    static lemma DoneLinked(m: Machine, d: nat, tod: int, status: Context)
      requires |m.k.pcbs| >= 2 && |m.k.birth| == |m.k.pcbs| && m.k.running < |m.k.pcbs| && Linked(m.k) && d < |m.k.devs|
      ensures Linked(KernelStep(m, ADoneIo(d), tod, status).k)
    {
      DoneIoLinked(m.k, d);
    }

    /** One completed command, of the device at `row` and `dev`. */
    method ServeDone(ghost m: Machine, p: Pending, ghost ds: seq<nat>, row: nat, dev: nat, tod: int)
      returns (ghost ds': seq<nat>)
      requires Serving(m, p, ds, tod) && row < |p.lines| + 2 && dev < PER_LINE
      modifies this`h, commands, sched`readyQueue, sched`runningProc, sched.pcbs, sched.saved, sched.asl
      modifies sched.asl.semds, sched.devWLists
      ensures ds' == ds + [DevAt(row, dev)] && Serving(m, p, ds', tod)
    {
      var d := DevAt(row, dev);
      ds' := ds + [d];
      hide Shape, Linked, KernelStep;
      ghost var now, e := M(), Kernel(ADoneIo(d), tod, Status(p, d));
      InterruptStep(now, ADoneIo(d), tod, Status(p, d));
      TraceAppend(m, Ticks(p, tod) + Completions(p, ds, tod), e);
      CompletionsNext(p, ds, d, tod);
      assert Ticks(p, tod) + Completions(p, ds + [d], tod) == Ticks(p, tod) + Completions(p, ds, tod) + [e];
      DoneLinked(now, d, tod, Status(p, d));
      DoneIoStep(d, Status(p, d), tod);
    }

    /** The devices of one line, in the order of the bits of its bitmap. */
    method ServeLine(ghost m: Machine, p: Pending, ghost ds: seq<nat>, line: nat, tod: int)
      requires line < |p.lines| && Serving(m, p, ds, tod)
      modifies this`h, commands, sched`readyQueue, sched`runningProc, sched.pcbs, sched.saved, sched.asl
      modifies sched.asl.semds, sched.devWLists
      ensures Serving(m, p, ds + ScanLine(line, p.lines[line], 0), tod)
    {
      hide Serving, Rest, Lowest, DevAt;
      var bitmap, dev := p.lines[line], 0;
      ghost var done := ds;
      while dev < PER_LINE
        invariant 0 <= dev <= PER_LINE && Serving(m, p, done, tod)
        invariant done + ScanLine(line, bitmap, dev) == ds + ScanLine(line, p.lines[line], 0)
      {
        ServeLineStep(line, bitmap, dev, done);
        if Lowest(bitmap) {
          done := ServeDone(m, p, done, line, dev, tod);
        }
        bitmap, dev := Rest(bitmap), dev + 1;
      }
      assert done == ds + ScanLine(line, p.lines[line], 0);
    }

    /** A terminal: first the receiver, then the transmitter, as far as they are done. */
    method ServeTerminal(ghost m: Machine, p: Pending, ghost ds: seq<nat>, dev: nat, tod: int) returns (ghost ds': seq<nat>)
      requires Serving(m, p, ds, tod) && dev < PER_LINE
      modifies this`h, commands, sched`readyQueue, sched`runningProc, sched.pcbs, sched.saved, sched.asl
      modifies sched.asl.semds, sched.devWLists
      ensures ds' == ds + Halves(p, dev) && Serving(m, p, ds', tod)
    {
      hide Serving, Flag, DevAt;
      ds' := ds;
      if Flag(p.received, dev) {
        ds' := ServeDone(m, p, ds', |p.lines| + 1, dev, tod);
      }
      if Flag(p.transmitted, dev) {
        ds' := ServeDone(m, p, ds', |p.lines|, dev, tod);
      }
    }

    /** The terminals whose bits are set, in the order of the bits. */
    method ServeTerminals(ghost m: Machine, p: Pending, ghost ds: seq<nat>, tod: int)
      requires Serving(m, p, ds, tod)
      modifies this`h, commands, sched`readyQueue, sched`runningProc, sched.pcbs, sched.saved, sched.asl
      modifies sched.asl.semds, sched.devWLists
      ensures Serving(m, p, ds + ScanTerminals(p, p.terminals, 0), tod)
    {
      hide Serving, Rest, Lowest, Halves;
      var bitmap, dev := p.terminals, 0;
      ghost var done := ds;
      while dev < PER_LINE
        invariant 0 <= dev <= PER_LINE && Serving(m, p, done, tod)
        invariant done + ScanTerminals(p, bitmap, dev) == ds + ScanTerminals(p, p.terminals, 0)
      {
        ServeTerminalsStep(p, bitmap, dev, done);
        if Lowest(bitmap) {
          done := ServeTerminal(m, p, done, dev, tod);
        }
        bitmap, dev := Rest(bitmap), dev + 1;
      }
      assert done == ds + ScanTerminals(p, p.terminals, 0);
    }

    static lemma StillLinked(s: Sched)
      requires Inv(s, None)
      ensures Linked(s)
    {
    }

    static lemma NothingYet(p: Pending, tod: int)
      ensures Ticks(p, tod) + Completions(p, [], tod) == Ticks(p, tod)
    {
    }

    /** The interval timer, if it has run out. */
    method ServeTick(p: Pending, tod: int)
      requires sched.Valid() && Inv(sched.S(), None) && M().mode == Interrupt && M().now <= tod
      requires DevAt(|p.lines| + 2, 0) <= sched.devWLists.Length == commands.Length
      modifies this`h, sched`readyQueue, sched`runningProc, sched.pcbs
      ensures Serving(old(M()), p, [], tod)
    {
      ghost var m := M();
      StillLinked(m.k);
      hide Inv, KernelStep, Linked;
      if p.tick {
        TickServed(m, tod);
        TickStep(tod, BLANK_CONTEXT);
      }
      NothingYet(p, tod);
    }

    /** consume_interrupts: the interval timer first, then the raised lines one after the other, the terminals last. */
    method ConsumeInterrupts(p: Pending, tod: int)
      requires sched.Valid() && Inv(sched.S(), None) && M().mode == Interrupt && M().now <= tod
      requires DevAt(|p.lines| + 2, 0) <= sched.devWLists.Length == commands.Length
      modifies this`h, commands, sched`readyQueue, sched`runningProc, sched.pcbs, sched.saved, sched.asl
      modifies sched.asl.semds, sched.devWLists
      ensures Serving(old(M()), p, Done(p), tod)
    {
      ghost var m := M();
      hide Serving, Inv, Flag, ScanLine, ScanTerminals;
      ServeTick(p, tod);
      ghost var ds: seq<nat> := [];
      var line := 0;
      while line < |p.lines|
        invariant 0 <= line <= |p.lines| && Serving(m, p, ds, tod)
        invariant ds + ScanLines(p, line) == ScanLines(p, 0)
      {
        ServeLinesStep(p, line, ds);
        if Flag(p.raised, line) {
          ServeLine(m, p, ds, line, tod);
        }
        assert ds + [] == ds;
        ds := ds + LineDone(p, line);
        line := line + 1;
      }
      if Flag(p.raised, |p.lines|) {
        ServeTerminals(m, p, ds, tod);
      }
      assert ds == ScanLines(p, 0);
    }

    static lemma TickLinked(s: Sched)
      requires Inv(s, None)
      ensures Linked(Tick(s))
    {
      TickInv(s);
    }

    static lemma TickServed(m: Machine, tod: int)
      requires Inv(m.k, None) && m.mode == Interrupt && m.now <= tod
      ensures var m' := KernelStep(m, ATick, tod, BLANK_CONTEXT);
        && Linked(m'.k) && m'.mode == Interrupt && m'.now == tod
        && Trace(m, [Kernel(ATick, tod, BLANK_CONTEXT)]) && Replay(m, [Kernel(ATick, tod, BLANK_CONTEXT)]) == m'
    {
      hide Inv, Tick, Linked, Shape;
      TickLinked(m.k);
      assert [Kernel(ATick, tod, BLANK_CONTEXT)][1..] == [];
    }

    static lemma InterruptEntered(m: Machine, tod: int, timer: int, trap: Context)
      requires MachineInv(m) && Possible(m, Enter(Interrupt, tod, timer, trap))
      ensures var m1 := EnterHandler(m, Interrupt, tod, timer, trap);
        && MachineInv(m1) && Inv(m1.k, None) && m1.mode == Interrupt && m1.now == tod && m1.interrupted < |m1.k.pcbs|
        && |m1.commands| == |m1.k.devs|
    {
      hide Inv;
      EventInv(m, Enter(Interrupt, tod, timer, trap));
    }

    lemma AllServed(m: Machine, p: Pending, tod: int)
      requires Serving(m, p, Done(p), tod)
      ensures sched.Valid() && M().mode == Interrupt && M().now <= tod
      ensures Trace(m, Events(p, tod)) && M() == Replay(m, Events(p, tod))
    {
      hide Trace, Replay, Linked, Done;
    }

    /** handle_interrupt: the history of one entry, a tick and a completion for whatever is pending, and one exit. */
    method HandleInterrupt(p: Pending, trap: Context, intervalTimer: int, t0: int, t1: int, t2: int)
      requires sched.Valid() && MachineInv(M()) && Possible(M(), Enter(Interrupt, t0, intervalTimer, trap))
      requires t0 <= t1 <= t2
      requires DevAt(|p.lines| + 2, 0) <= sched.devWLists.Length
      modifies this, commands, sched, sched.pcbs, sched.accounts, sched.saved, sched.asl
      modifies sched.asl.semds, sched.devWLists
      ensures sched.Valid() && M().mode == User
      ensures var es := Handling(p, trap, intervalTimer, t0, t1, t2);
        && Trace(old(M()), es) && M() == Replay(old(M()), es)
        && (AllFair(old(M()), es) ==> MachineInv(M()))
      ensures ServiceInv(old(M())) ==> ServiceInv(M())
      // Without devices: a slice if the timer has run out, and nothing if it has not.
      ensures (forall l :: 0 <= l <= |p.lines| ==> !Flag(p.raised, l)) ==>
        sched.S() == if p.tick then Tick(old(sched.S())) else old(sched.S())
    {
      hide MachineInv, Apply, KernelStep, Serving, Inv, EnterHandler, Events, Handling, Trace, Replay;
      ghost var m := M();
      EventInv(m, Enter(Interrupt, t0, intervalTimer, trap));
      StartHandler(Interrupt, t0, intervalTimer, trap);
      ghost var m1 := M();
      InterruptEntered(m, t0, intervalTimer, trap);
      ConsumeInterrupts(p, t1);
      AllServed(m1, p, t1);
      TraceAppend(m1, Events(p, t1), Leave(t2));
      ConcludeHandler(t2);
      HandlingInv(m, p, trap, intervalTimer, t0, t1, t2);
      if forall l :: 0 <= l <= |p.lines| ==> !Flag(p.raised, l) {
        TimerAlone(m, p, trap, intervalTimer, t0, t1, t2);
      }
    }
  }
}
