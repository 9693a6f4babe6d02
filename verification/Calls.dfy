/** The system calls: what they ask for, and what each of them does. */
module Calls {
  import opened Seqs
  import opened Sched
  import opened Invariants
  import opened Devices
  import opened Runs
  import opened Effects
  import opened Forest
  import opened Semaphores
  import opened Undo
  import opened Machine
  import opened MachineInvariants
  import opened Answers
  import Spec = Sched

  /** The system calls, with their arguments. */
  datatype Call =
    | GetCpuTime
    | Create(state: Context, priority: int)
    | Terminate(pid: Option<Pid>)
    | V(sem: int)
    | P(sem: int)
    | WaitIo(dev: nat)
    | GetPid

  /** What a call needs to find: live processes, existing semaphores and devices. */
  predicate Sane(s: Sched, call: Call) {
    match call
    case Terminate(pid) => pid.Some? ==> s.Live(pid.value)
    case V(a) => a in s.sems
    case P(a) => a in s.sems
    case WaitIo(d) => d < |s.devs|
    case _ => true
  }

  /** The kernel step a call amounts to. */
  predicate Performs(s: Sched, call: Call, act: Option<Action>) {
    match call
    case GetCpuTime => act == None
    case Create(_, priority) => act == Some(ACreate(priority))
    case Terminate(pid) =>
      act.Some? && act.value.ATerminate? && act.value.root == (if pid.Some? then pid.value else s.running)
    case V(a) => act == Some(AVerhogen(a))
    case P(a) => act == Some(APasseren(a))
    case WaitIo(d) => act == Some(AWaitIo(d))
    case GetPid => act == None
  }

  function Datum(call: Call): Context { if call.Create? then call.state else BLANK_CONTEXT }

  /** What a call answers to its caller through memory. */
  datatype Answer = Nothing | Times(user: int, kernel: int, wallclock: int) | Ids(pid: Pid, ppid: Option<Pid>)
                  | Child(cpid: Option<Pid>)

  /** What each call does to the scheduler. */
  lemma CallMeans(k: Sched, call: Call, act: Option<Action>, k': Sched)
    requires KernelInv(k) && Sane(k, call) && Performs(k, call, act) && (act.Some? ==> Callable(k, act.value))
    requires k' == if act.Some? then Apply(k, act.value) else k
    ensures call.V? ==> call.sem in k'.sems && Counter(k', call.sem) == Counter(k, call.sem) + 1
    ensures call.P? ==>
      && call.sem in k'.sems && Counter(k', call.sem) == Counter(k, call.sem) - 1
      && (if k.sems[call.sem] > 0 then k'.running == k.running
          else SemKeyOf(k', k.running) == Some(Cell(call.sem)) && k.running in QueueOf(k'.blocked, Cell(call.sem)))
    ensures call.WaitIo? ==>
      SemKeyOf(k', k.running) == Some(Device(call.dev)) && k.running in QueueOf(k'.blocked, Device(call.dev))
    ensures call.Create? ==>
      && (forall x: Pid :: k'.Live(x) <==> k.Live(x) || (k.free != [] && x == k.free[0]))
      && (k.free != [] ==>
           At(k'.pcbs, k.free[0]).parent == Some(k.running) && Prio(k'.pcbs, k.free[0]) == call.priority)
    ensures call.Terminate? ==>
      forall x: Pid :: k'.Live(x) <==> k.Live(x) && !Below(k, x, if call.pid.Some? then call.pid.value else k.running)
    ensures call.GetCpuTime? || call.GetPid? ==> k' == k
  {
    hide Inv, Sound, Pointers, Lists, Verhogen, Passeren, Spec.WaitIo, Spec.Create, Spec.Terminate, Below;
    match call
    case V(a) => StepCounter(k, AVerhogen(a), a);
    case P(a) =>
      StepCounter(k, APasseren(a), a);
      PasserenEffect(k, a);
      JoinerIn(k, Passeren(k, a), Cell(a));
    case WaitIo(d) =>
      WaitIoEffect(k, d);
      JoinerIn(k, Spec.WaitIo(k, d), Device(d));
    case Create(_, priority) =>
      if k.free == [] { CreationRefused(k, priority); } else { Created(k, priority); }
    case Terminate(pid) =>
      TerminateFrees(k, act.value.root, act.value.order);
    case _ =>
  }

  lemma JoinerIn(k: Sched, k': Sched, key: Key)
    ensures Sleeps(k, k', key) ==> k.running in QueueOf(k'.blocked, key)
  {
    if Sleeps(k, k', key) {
      var q, q' := QueueOf(k.blocked, key), QueueOf(k'.blocked, key);
      var i :| 0 <= i <= |q| && JoinsAt(k.pcbs, q, q', k.running, i);
      assert q'[i] == k.running;
    }
  }

  /** What becomes of the invariants, and what reaches the devices. */
  lemma SyscallOver(m: Machine, call: Call, t0: int, timer: int, trap: Context, act: Option<Action>, t1: int, t2: int)
    requires MachineInv(m) && Possible(m, Enter(Syscall, t0, timer, trap)) && t0 <= t1 <= t2
    requires Performs(m.k, call, act) && (act.Some? ==> Callable(m.k, act.value))
    ensures KernelInv(m.k) && m.k.running != m.k.Idle() && (act.Some? ==> !act.value.ATick? && !act.value.ADoneIo?)
    ensures act.Some? <==> !(call.GetCpuTime? || call.GetPid?)
    ensures act.Some? ==> (act.value.ACreate? <==> call.Create?) && (act.value.ATerminate? <==> call.Terminate?)
    ensures var m' := SyscallRun(m, t0, timer, trap, act, t1, Datum(call), t2);
      && m'.k == (if act.Some? then Apply(m.k, act.value) else m.k)
      && ((act.Some? ==> Safe(m.k, act.value)) ==> MachineInv(m'))
      && (ServiceInv(m) && (act.Some? ==> Polite(m.k, act.value)) ==> ServiceInv(m'))
      && (call.WaitIo? ==> |m'.commands| == |m.commands| == |m.k.devs| && forall d: nat :: d < |m.commands| ==>
           m'.commands[d] == if d == call.dev && m.k.devs[d].cmdSem == 1 then trap.arg1 else m.commands[d])
  {
    hide KernelInv, Apply, Safe, Polite, ServiceInv, ContextsOk, RequestsOk, TimeOk;
    if act.None? || Safe(m.k, act.value) {
      SyscallRunInv(m, t0, timer, trap, act, t1, Datum(call), t2);
    }
    if ServiceInv(m) && (act.Some? ==> Polite(m.k, act.value)) {
      SyscallRunService(m, t0, timer, trap, act, t1, Datum(call), t2);
    }
    if call.WaitIo? {
      SyscallEntered(m, t0, timer, trap);
      var m1 := EnterHandler(m, Syscall, t0, timer, trap);
      forall d: nat | d < |m.commands|
        ensures Word(KernelStep(m1, act.value, t1, Datum(call)).commands, d) ==
          if d == call.dev && m.k.devs[d].cmdSem == 1 then trap.arg1 else m.commands[d]
      {
        WaitIoSends(m1, call.dev, t1, Datum(call), d);
      }
    }
  }
}
