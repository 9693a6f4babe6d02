/** Runs from launch in which a device side condition is not met, and what becomes of the system. */
module Inputs {
  import opened Seqs
  import opened Sched
  import opened Invariants
  import opened Steps
  import opened Devices
  import opened Runs
  import opened Forest
  import opened Boot

  // ---- A process that outranks the one being served ----------------------------------------------------------------

  /** Process 0 is served with priority 1; process 1 runs with priority 5. */
  const OUTRANKED := Sched(
    [Pcb(None, [], 1, 1, Some(Device(0)), Some(0)), Pcb(None, [], 5, 5, None, None), BLANK_PCB],
    [], [], 1, map[Device(0) := [0]], map[], [DevWList(0, Some(0))], [0, 1, 0], 2)

  /** Both processes ask for the device, the first by rank first; its command is completed. */
  const TO_OUTRANKED := [AWaitIo(0), AWaitIo(0), ADoneIo(0)]

  const TWO := Sched(
    [Pcb(None, [], 1, 1, None, None), Pcb(None, [], 5, 5, None, None), BLANK_PCB],
    [], [0], 1, map[], map[], [DevWList(1, None)], [0, 1, 0], 2)

  const TWO_SERVED := TWO.(
    pcbs := TWO.pcbs[1 := Pcb(None, [], 5, 5, Some(Device(0)), Some(0))], ready := [], running := 0,
    blocked := map[Device(0) := [1]], devs := [DevWList(0, Some(1))])

  const TWO_QUEUED := TWO_SERVED.(
    pcbs := TWO_SERVED.pcbs[0 := Pcb(None, [], 1, 1, Some(Device(0)), None)], running := 2,
    blocked := map[Device(0) := [1, 0]])

  lemma EmptyIs(devices: nat)
    requires devices == 1
    ensures Empty(2, map[], devices) == Sched([BLANK_PCB, BLANK_PCB, BLANK_PCB], [0, 1], [], 2, map[], map[],
                                              [DevWList(1, None)], [0, 0, 0], 0)
  {
  }

  lemma TwoLaunched()
    ensures Launched(2, [1, 5], map[], 1) == TWO
  {
    hide Empty;
    var e := Empty(2, map[], 1);
    EmptyIs(1);
    assert [1, 5][..1] == [1] && [1][..0] == [];
    assert AdmitAll(e, []) == e;
    var s1 := Admit(e, 1);
    assert AdmitAll(e, [1]) == s1;
    assert s1.ready == [0] && s1.free == [1];
    assert AdmitAll(e, [1, 5]) == Admit(s1, 5);
    assert Admit(s1, 5).ready == [1, 0];
  }

  lemma FirstWaits()
    ensures Goes(TWO, AWaitIo(0), TWO_SERVED)
  {
    assert QueueOf(TWO.blocked, Device(0)) + [1] == [1];
    assert WaitIo(TWO, 0).pcbs == TWO_SERVED.pcbs;
  }

  lemma SecondWaits()
    ensures Goes(TWO_SERVED, AWaitIo(0), TWO_QUEUED)
  {
    var t := TWO_SERVED.pcbs;
    assert t[1].priority == 5 && t[0].priority == 1;
    assert Prios(t, [1]) == [5] && Slot([5], 1) == 1 + Slot([], 1);
    assert Enqueue(t, [1], 0) == [1, 0];
    assert WaitIo(TWO_SERVED, 0).pcbs == TWO_QUEUED.pcbs;
  }

  lemma FirstDone()
    ensures Goes(TWO_QUEUED, ADoneIo(0), OUTRANKED)
  {
    var s := TWO_QUEUED;
    assert [1, 0][1..] == [0];
    var s1 := Unblock(s, Device(0));
    assert s1.blocked == map[Device(0) := [0]];
    var s2 := s1.(pcbs := Put(s1.pcbs, 1, At(s1.pcbs, 1).(devWList := None)));
    assert Complete(s, 0) == ScheduleProc(s2, 1) == s2.(running := 1);
    assert DoneIo(s, 0).pcbs == OUTRANKED.pcbs;
  }

  /** The state is reached from launch without an impolite step. */
  lemma OutrankedReached()
    ensures var s := Launched(2, [1, 5], map[], 1);
      Allowed(s, TO_OUTRANKED) && After(s, TO_OUTRANKED) == OUTRANKED && ProtocolInv(OUTRANKED)
  {
    hide Polite, Apply, Enqueue;
    hide Goes;
    hide ProtocolInv;
    TwoLaunched();
    LaunchedInv(2, [1, 5], map[], 1);
    FirstWaits();
    SecondWaits();
    FirstDone();
    AllowedTwo(TWO_SERVED, AWaitIo(0), TWO_QUEUED, ADoneIo(0), OUTRANKED);
    AllowedCons(TWO, AWaitIo(0), TWO_SERVED, [AWaitIo(0), ADoneIo(0)]);
    assert [AWaitIo(0)] + [AWaitIo(0), ADoneIo(0)] == TO_OUTRANKED;
    PoliteRun(TWO, TO_OUTRANKED);
  }

  /** From there wait_io puts process 1 in front of process 0, and the completion of 0's command loses process 1. */
  lemma OvertakingHappens()
    ensures ProtocolInv(OUTRANKED) && Callable(OUTRANKED, AWaitIo(0)) && !Protocol(WaitIo(OUTRANKED, 0))
    ensures Places(DoneIo(WaitIo(OUTRANKED, 0), 0), None, 1) == 0
  {
    hide ProtocolInv;
    OutrankedReached();
    WaitIoProtocol(OUTRANKED, 0);
    OvertakerLost(OUTRANKED, 0);
  }

  // ---- A process terminated while it is served ---------------------------------------------------------------------

  /** Process 0, of priority 5, runs; its child 1, of priority 9, is served by the device. */
  const SERVED := Sched(
    [Pcb(None, [1], 5, 5, None, None), Pcb(Some(0), [], 9, 9, Some(Device(0)), Some(0)), BLANK_PCB],
    [], [], 0, map[Device(0) := [1]], map[], [DevWList(0, Some(1))], [0, 1, 0], 2)

  const TO_SERVED := [ACreate(9), AWaitIo(0)]

  const ONE := Sched(
    [Pcb(None, [], 5, 5, None, None), BLANK_PCB, BLANK_PCB],
    [1], [], 0, map[], map[], [DevWList(1, None)], [0, 0, 0], 1)

  const PARENTED := Sched(
    [Pcb(None, [1], 5, 5, None, None), Pcb(Some(0), [], 9, 9, None, None), BLANK_PCB],
    [], [0], 1, map[], map[], [DevWList(1, None)], [0, 1, 0], 2)

  lemma OneLaunched()
    ensures Launched(2, [5], map[], 1) == ONE
  {
    var e := Empty(2, map[], 1);
    EmptyIs(1);
    assert [5][..0] == [];
    assert AdmitAll(e, []) == e;
    assert AdmitAll(e, [5]) == Admit(e, 5);
    assert Admit(e, 5).ready == [0] && Admit(e, 5).free == [1];
  }

  lemma ChildCreated()
    ensures Goes(ONE, ACreate(9), PARENTED)
  {
    var s1 := Allocate(ONE, 9);
    assert s1.pcbs[0] == PARENTED.pcbs[0];
    assert s1.pcbs[1] == PARENTED.pcbs[1];
    assert s1.pcbs[2] == PARENTED.pcbs[2];
    assert s1.free == [];
    assert Enqueue(s1.pcbs, [], 0) == [0];
    assert ScheduleProc(s1, 1).pcbs == PARENTED.pcbs;
  }

  lemma ChildWaits()
    ensures Goes(PARENTED, AWaitIo(0), SERVED)
  {
    assert QueueOf(PARENTED.blocked, Device(0)) + [1] == [1];
    assert WaitIo(PARENTED, 0).pcbs == SERVED.pcbs;
  }

  lemma ServedReached()
    ensures var s := Launched(2, [5], map[], 1);
      Allowed(s, TO_SERVED) && After(s, TO_SERVED) == SERVED && ProtocolInv(SERVED)
  {
    hide Goes;
    hide ProtocolInv;
    OneLaunched();
    LaunchedInv(2, [5], map[], 1);
    ChildCreated();
    ChildWaits();
    AllowedTwo(ONE, ACreate(9), PARENTED, AWaitIo(0), SERVED);
    PoliteRun(ONE, TO_SERVED);
  }

  /** The child terminated: its PCB is free, the device list goes on naming it, and it goes on pointing there. */
  const ORPHANED := Sched(
    [Pcb(None, [], 5, 5, None, None), Pcb(None, [], 9, 9, None, Some(0)), BLANK_PCB],
    [1], [], 0, map[], map[], [DevWList(0, Some(1))], [0, 1, 0], 2)

  /** The child is the whole of its subtree. */
  lemma ChildAlone(s: Sched)
    requires TreeOk(s) && s.running == 0 && 0 < s.N() && s.Live(1) && At(s.pcbs, 1).children == []
    ensures Callable(s, ATerminate(1, [1]))
  {
    OnlyItself(s, 1);
  }

  lemma ChildCut()
    ensures Terminate(SERVED, 1, [1]) == ORPHANED
  {
    assert Leaving(SERVED.pcbs, [1]) == [1] && Without([1], 1) == [];
    assert Minus([1], [1]) == [] && [1] + [] == [1];
    var s1 := Cut(SERVED, 1, [1]);
    assert s1.pcbs == ORPHANED.pcbs && s1.devs == ORPHANED.devs && s1.free == [1];
    assert s1.ready == [] && s1.blocked == map[];
  }

  lemma ServedTermination()
    ensures Callable(SERVED, ATerminate(1, [1])) && Terminate(SERVED, 1, [1]) == ORPHANED
    ensures Inv(ORPHANED, None) && !Protocol(ORPHANED)
  {
    hide Inv;
    hide Terminate;
    ServedReached();
    assert Inv(SERVED, None);
    Treed(SERVED);
    ChildAlone(SERVED);
    ChildCut();
    TerminateKept(SERVED, 1, [1]);
    assert !DeviceOk(ORPHANED, 0, ORPHANED.devs[0]);
  }

  // ---- Its PCB used again ------------------------------------------------------------------------------------------

  /** The PCB of the child serves another one, of priority 3, which is ready and has asked for no device. */
  const STRAYED := Sched(
    [Pcb(None, [1], 5, 5, None, None), Pcb(Some(0), [], 3, 3, None, Some(0)), BLANK_PCB],
    [], [1], 0, map[], map[], [DevWList(0, Some(1))], [0, 2, 0], 3)

  lemma StrayBorn()
    ensures Create(ORPHANED, 3) == STRAYED
  {
    var s1 := Allocate(ORPHANED, 3);
    assert s1.pcbs[0] == STRAYED.pcbs[0];
    assert s1.pcbs[1] == STRAYED.pcbs[1];
    assert s1.pcbs[2] == STRAYED.pcbs[2];
    assert s1.free == [];
    assert Enqueue(s1.pcbs, [], 1) == [1];
  }

  lemma StrayCut()
    ensures var s := Terminate(STRAYED, 1, [1]); s.free == [1] && s.ready == [1] && s.devs == [DevWList(0, None)]
  {
    assert Stray(STRAYED.pcbs, 1) && Leaving(STRAYED.pcbs, [1]) == [];
    assert Minus([1], []) == [1] && [1] + [] == [1];
    assert Disowns(STRAYED.pcbs, [1], 0);
  }

  /** Terminating it leaves it ready and free at once, and clears the `w_for_res` of the device. */
  lemma StrayTermination()
    ensures Callable(ORPHANED, ACreate(3)) && Create(ORPHANED, 3) == STRAYED && Inv(STRAYED, None)
    ensures Callable(STRAYED, ATerminate(1, [1]))
    ensures var s := Terminate(STRAYED, 1, [1]);
      && s.free == [1] && s.ready == [1] && Places(s, None, 1) == 2 && !Inv(s, None)
      && s.devs == [DevWList(0, None)] && DoneIo(s, 0) == s
  {
    hide Inv;
    hide Terminate;
    ServedTermination();
    StrayBorn();
    CreateInv(ORPHANED, 3);
    Treed(STRAYED);
    ChildAlone(STRAYED);
    StrayCut();
    assert Stray(STRAYED.pcbs, 1) && 1 in [1];
    TerminateInv(STRAYED, 1, [1]);
  }

  lemma Treed(s: Sched)
    requires Inv(s, None)
    ensures TreeOk(s)
  {
  }
}
