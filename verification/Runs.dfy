/** Runs of kernel steps: which of them keep the scheduler invariant, and which the protocol of the devices as well. */
module Runs {
  import opened Seqs
  import opened Sched
  import opened Invariants
  import opened Steps
  import opened Devices

  // ---- One step ----------------------------------------------------------------------------------------------------

  /** The step takes none of the two branches that put a process in two places, or in none. */
  ghost predicate Safe(s: Sched, a: Action)
    requires Callable(s, a)
  {
    match a
    case ATerminate(_, order) => Clean(s, order)
    case ADoneIo(d) => !DropsWaiter(s, d)
    case _ => true
  }

  /** The step gets in nobody's way at a device. */
  ghost predicate Polite(s: Sched, a: Action)
    requires Callable(s, a)
  {
    match a
    case ATerminate(_, order) => forall x :: x in order ==> WListOf(s, x) == None
    case AWaitIo(d) => JoinsBehind(s, d)
    case _ => true
  }

  lemma CreateSame(s: Sched, priority: int)
    ensures SameDevices(s, Create(s, priority))
  {
    hide Enqueue;
  }

  lemma PasserenSame(s: Sched, a: int)
    requires a in s.sems
    ensures SameDevices(s, Passeren(s, a))
  {
    hide Enqueue;
  }

  lemma VerhogenSame(s: Sched, a: int)
    requires a in s.sems
    ensures SameDevices(s, Verhogen(s, a))
  {
    hide Enqueue, Age;
    if HasWaiter(s, Cell(a)) {
      var s1 := Release(s, Cell(a));
      SameTwice(s, s1, ScheduleProc(s1, s.blocked[Cell(a)][0]));
    }
  }

  lemma TickSame(s: Sched)
    ensures SameDevices(s, Tick(s))
  {
    hide Enqueue;
  }

  lemma OthersSame(s: Sched, a: Action)
    requires Callable(s, a) && !a.ATerminate? && !a.AWaitIo? && !a.ADoneIo?
    ensures SameDevices(s, Apply(s, a))
  {
    hide SameDevices, Lists, Create, Passeren, Verhogen, Tick;
    match a
    case ACreate(priority) => CreateSame(s, priority);
    case APasseren(addr) => PasserenSame(s, addr);
    case AVerhogen(addr) => VerhogenSame(s, addr);
    case ATick => TickSame(s);
  }

  lemma TerminateSound(s: Sched, root: Pid, order: seq<Pid>)
    requires Sound(s) && Clean(s, order)
    ensures Sound(Terminate(s, root, order))
  {
    CleanCut(s, root, order);
    var s' := Terminate(s, root, order);
    forall d: nat | d < |s'.devs|
      ensures SoundDevice(s', d, s'.devs[d])
    {
      assert SoundDevice(s, d, s.devs[d]);
    }
  }

  lemma StepSound(s: Sched, a: Action)
    requires KernelInv(s) && Callable(s, a) && Safe(s, a)
    ensures Sound(Apply(s, a))
  {
    hide Lists, SoundDevice, Sound, Clean;
    match a {
      case ATerminate(root, order) => TerminateSound(s, root, order);
      case AWaitIo(d) => WaitIoSound(s, d);
      case ADoneIo(d) => DoneIoSound(s, d);
      case _ =>
        OthersSame(s, a);
        SoundFrame(s, Apply(s, a));
    }
  }

  lemma StepScheduler(s: Sched, a: Action)
    requires KernelInv(s) && Callable(s, a)
    ensures Inv(Apply(s, a), None) <==> Safe(s, a)
  {
    hide Inv, Sound, Lists;
    match a
    case ACreate(priority) => CreateInv(s, priority);
    case ATerminate(root, order) => TerminateInv(s, root, order);
    case APasseren(addr) => PasserenInv(s, addr);
    case AVerhogen(addr) => VerhogenInv(s, addr);
    case ATick => TickInv(s);
    case AWaitIo(d) => WaitIoInv(s, d);
    case ADoneIo(d) => DoneIoInv(s, d);
  }

  /** A step keeps the scheduler invariant exactly if it is safe, and then everything that makes the next step exact too. */
  lemma StepInv(s: Sched, a: Action)
    requires KernelInv(s) && Callable(s, a)
    ensures Inv(Apply(s, a), None) <==> Safe(s, a)
    ensures Safe(s, a) ==> KernelInv(Apply(s, a))
  {
    hide Inv, Sound, Pointers, Safe, Callable, Apply;
    StepScheduler(s, a);
    StepPointers(s, a);
    if Safe(s, a) { StepSound(s, a); }
  }

  /** Under the protocol every step is safe, and keeps the protocol exactly if it is polite. */
  lemma StepProtocol(s: Sched, a: Action)
    requires ProtocolInv(s) && Callable(s, a)
    ensures Safe(s, a)
    ensures Protocol(Apply(s, a)) <==> Polite(s, a)
  {
    hide KernelInv, Protocol;
    match a {
      case ATerminate(root, order) =>
        ProtocolCut(s, root, order);
        TerminateProtocol(s, root, order);
      case AWaitIo(d) => WaitIoProtocol(s, d);
      case ADoneIo(d) => DoneIoProtocol(s, d);
      case _ =>
        OthersSame(s, a);
        ProtocolKept(s, Apply(s, a));
    }
  }

  lemma ProtocolKept(s: Sched, s': Sched)
    requires ProtocolInv(s) && SameDevices(s, s')
    ensures Protocol(s')
  {
    ProtocolFrame(s, s');
  }

  // ---- Runs --------------------------------------------------------------------------------------------------------

  /** A sequence of steps, each taken when its caller may take it. */
  ghost predicate Path(s: Sched, acts: seq<Action>)
    decreases |acts|
  {
    acts == [] || (Callable(s, acts[0]) && Path(Apply(s, acts[0]), acts[1..]))
  }

  function After(s: Sched, acts: seq<Action>): Sched
    requires Path(s, acts)
    decreases |acts|
  {
    if acts == [] then s else After(Apply(s, acts[0]), acts[1..])
  }

  ghost predicate AllSafe(s: Sched, acts: seq<Action>)
    requires Path(s, acts)
    decreases |acts|
  {
    acts == [] || (Safe(s, acts[0]) && AllSafe(Apply(s, acts[0]), acts[1..]))
  }

  ghost predicate AllPolite(s: Sched, acts: seq<Action>)
    requires Path(s, acts)
    decreases |acts|
  {
    acts == [] || (Polite(s, acts[0]) && AllPolite(Apply(s, acts[0]), acts[1..]))
  }

  ghost predicate Run(s: Sched, acts: seq<Action>) { Path(s, acts) && AllSafe(s, acts) }

  lemma {:induction false} RunInv(s: Sched, acts: seq<Action>)
    requires KernelInv(s) && Run(s, acts)
    ensures KernelInv(After(s, acts))
    decreases |acts|
  {
    hide KernelInv, Callable, Apply;
    if acts != [] {
      StepInv(s, acts[0]);
      RunInv(Apply(s, acts[0]), acts[1..]);
    }
  }

  /** The invariant holds in every state along the path. */
  ghost predicate Upheld(s: Sched, acts: seq<Action>)
    requires Path(s, acts)
    decreases |acts|
  {
    Inv(s, None) && (acts != [] ==> Upheld(Apply(s, acts[0]), acts[1..]))
  }

  /** Along a path the scheduler invariant holds in every state exactly if every step is safe. */
  lemma {:induction false} PathExact(s: Sched, acts: seq<Action>)
    requires KernelInv(s) && Path(s, acts)
    ensures Upheld(s, acts) <==> AllSafe(s, acts)
    decreases |acts|
  {
    hide Inv, Callable, Apply, Sound, Pointers;
    if acts != [] {
      StepInv(s, acts[0]);
      if Safe(s, acts[0]) {
        PathExact(Apply(s, acts[0]), acts[1..]);
      } else {
        assert !Upheld(Apply(s, acts[0]), acts[1..]);
      }
    }
  }

  /** Polite runs are safe ones, and keep the protocol. */
  lemma {:induction false} PoliteRun(s: Sched, acts: seq<Action>)
    requires ProtocolInv(s) && Path(s, acts) && AllPolite(s, acts)
    ensures Run(s, acts) && ProtocolInv(After(s, acts))
    decreases |acts|
  {
    hide KernelInv, Protocol, Callable, Apply, Safe, Polite;
    if acts != [] {
      StepProtocol(s, acts[0]);
      StepInv(s, acts[0]);
      PoliteRun(Apply(s, acts[0]), acts[1..]);
    }
  }

  /** The step is allowed, and leads to `s'`. */
  ghost predicate Goes(s: Sched, a: Action, s': Sched) {
    Callable(s, a) && Polite(s, a) && Apply(s, a) == s'
  }

  /** A sequence of polite steps. */
  ghost predicate Allowed(s: Sched, acts: seq<Action>) { Path(s, acts) && AllPolite(s, acts) }

  lemma AllowedCons(s: Sched, a: Action, s': Sched, acts: seq<Action>)
    requires Goes(s, a, s') && Allowed(s', acts)
    ensures Allowed(s, [a] + acts) && After(s, [a] + acts) == After(s', acts)
  {
    assert ([a] + acts)[1..] == acts;
  }

  lemma AllowedTwo(s: Sched, a: Action, s1: Sched, b: Action, s2: Sched)
    requires Goes(s, a, s1) && Goes(s1, b, s2)
    ensures Allowed(s, [a, b]) && After(s, [a, b]) == s2
  {
    hide Goes;
    AllowedCons(s1, b, s2, []);
    AllowedCons(s, a, s1, [b] + []);
    assert [a] + ([b] + []) == [a, b];
  }

  // ---- Freeing a stray ---------------------------------------------------------------------------------------------

  /** Terminating a stray takes the device list its pointer leads to away from whoever is being served there. */
  lemma StrayFreed(s: Sched, root: Pid, order: seq<Pid>, x: Pid, d: nat)
    requires x in order && Stray(s.pcbs, x) && WListOf(s, x) == Some(d) && d < |s.devs|
    ensures Terminate(s, root, order).devs[d] == s.devs[d].(res := None)
  {
    assert Disowns(s.pcbs, order, d);
  }

  /** A busy device with nobody served: no step changes that, and completions have no effect. */
  lemma StuckStep(s: Sched, a: Action, d: nat)
    requires Callable(s, a) && d < |s.devs| && s.devs[d] == DevWList(0, None)
    ensures d < |Apply(s, a).devs| && Apply(s, a).devs[d] == DevWList(0, None)
    ensures a == ADoneIo(d) ==> Apply(s, a) == s
  {
    hide Lists;
    match a {
      case ATerminate(root, order) =>
      case AWaitIo(e) =>
      case ADoneIo(e) => CompleteLists(s, e);
      case _ => OthersSame(s, a);
    }
  }

  /** A device at work that has lost its record of whom it serves never gets going again, whatever steps are taken. */
  lemma {:induction false} StuckForGood(s: Sched, acts: seq<Action>, d: nat)
    requires Path(s, acts) && d < |s.devs| && s.devs[d] == DevWList(0, None)
    ensures var s' := After(s, acts);
      d < |s'.devs| && s'.devs[d] == DevWList(0, None) && DoneIo(s', d) == s'
    decreases |acts|
  {
    hide Callable, Apply;
    if acts != [] {
      StuckStep(s, acts[0], d);
      StuckForGood(Apply(s, acts[0]), acts[1..], d);
    }
  }

  /** If it had recovered, freeing the stray leaves it free, and the next caller of wait_io is served at once. */
  lemma RecoveredServes(s: Sched, d: nat)
    requires Inv(s, None) && Sound(s) && s.running != s.Idle() && d < |s.devs| && s.devs[d] == DevWList(1, None)
    ensures s.devs[d].(res := None) == s.devs[d]
    ensures var s' := WaitIo(s, d);
      s'.devs[d] == DevWList(0, Some(s.running)) && QueueOf(s'.blocked, Device(d)) == [s.running] && Inv(s', None)
  {
    assert SoundDevice(s, d, s.devs[d]);
    WaitIoInv(s, d);
    hide Inv, Enqueue;
  }
}
