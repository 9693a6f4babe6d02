/** The waiting-list protocol of the external devices, and exactly when the code keeps to it. */
module Devices {
  import opened Seqs
  import opened Sched
  import opened Invariants
  import opened Steps

  /** `w_for_cmd_sem` is 0 or 1; 0, a served process and a non-empty queue go together; the served process is the head. */
  ghost predicate DeviceOk(s: Sched, d: nat, l: DevWList) {
    && (l.cmdSem == 0 || l.cmdSem == 1)
    && (l.cmdSem == 0 <==> l.res.Some?)
    && (l.res.Some? <==> Device(d) in s.blocked)
    && (l.res.Some? ==> HasWaiter(s, Device(d)) && s.blocked[Device(d)][0] == l.res.value)
    && (l.res.Some? ==> WListOf(s, l.res.value) == Some(d))
  }

  function WListOf(s: Sched, p: Pid): Option<nat> { At(s.pcbs, p).devWList }

  ghost predicate ServedOk(s: Sched, p: Pid) {
    WListOf(s, p).Some? ==> var d := WListOf(s, p).value; d < |s.devs| && s.devs[d].res == Some(p)
  }

  ghost predicate Protocol(s: Sched) {
    && (forall d: nat :: d < |s.devs| ==> DeviceOk(s, d, s.devs[d]))
    && (forall p: Pid :: p < |s.pcbs| ==> ServedOk(s, p))
  }

  /** Pointers into the device lists lead to device lists. */
  ghost predicate Pointers(s: Sched) {
    forall p: Pid :: p < |s.pcbs| && WListOf(s, p).Some? ==> WListOf(s, p).value < |s.devs|
  }

  /** Every pointer of `s'` is one of `s` or leads to `d`. */
  ghost predicate PointsOn(s: Sched, s': Sched, d: Option<nat>) {
    && |s'.devs| == |s.devs| && |s'.pcbs| == |s.pcbs|
    && forall p: Pid :: WListOf(s', p).Some? ==> WListOf(s', p) == WListOf(s, p) || WListOf(s', p) == d
  }

  lemma PointsOnTwice(s: Sched, s1: Sched, s2: Sched, d: Option<nat>)
    requires PointsOn(s, s1, d) && PointsOn(s1, s2, d)
    ensures PointsOn(s, s2, d)
  {
    forall p: Pid | WListOf(s2, p).Some?
      ensures WListOf(s2, p) == WListOf(s, p) || WListOf(s2, p) == d
    {
      assert WListOf(s1, p).Some? || WListOf(s2, p) == d;
    }
  }

  lemma SchedulePoints(s: Sched, p: Pid, d: Option<nat>)
    ensures PointsOn(s, ScheduleProc(s, p), d)
  {
    hide Enqueue;
  }

  lemma VerhogenPoints(s: Sched, a: int, d: Option<nat>)
    requires a in s.sems
    ensures PointsOn(s, Verhogen(s, a), d)
  {
    hide Enqueue;
    if HasWaiter(s, Cell(a)) {
      var s1 := Release(s, Cell(a));
      SchedulePoints(s1, s.blocked[Cell(a)][0], d);
      PointsOnTwice(s, s1, Verhogen(s, a), d);
    }
  }

  lemma DoneIoPoints(s: Sched, d: nat)
    requires d < |s.devs|
    ensures PointsOn(s, DoneIo(s, d), Some(d))
  {
    hide Enqueue;
    if s.devs[d].res.Some? {
      if HasWaiter(s, Device(d)) {
        var p, s1 := s.blocked[Device(d)][0], Unblock(s, Device(d));
        var s2 := s1.(pcbs := Put(s1.pcbs, p, At(s1.pcbs, p).(devWList := None)));
        SchedulePoints(s2, p, Some(d));
        PointsOnTwice(s, s2, ScheduleProc(s2, p), Some(d));
      }
      PointsOnTwice(s, Complete(s, d), DoneIo(s, d), Some(d));
    }
  }

  lemma CreatePoints(s: Sched, priority: int, d: Option<nat>)
    ensures PointsOn(s, Create(s, priority), d)
  {
    hide ScheduleProc;
    if s.free != [] {
      SchedulePoints(Allocate(s, priority), s.free[0], d);
      PointsOnTwice(s, Allocate(s, priority), Create(s, priority), d);
    }
  }

  lemma TerminatePoints(s: Sched, root: Pid, order: seq<Pid>, d: Option<nat>)
    ensures PointsOn(s, Terminate(s, root, order), d)
  {
    forall p: Pid | p < |s.pcbs|
      ensures WListOf(Cut(s, root, order), p) == WListOf(s, p)
    {
      assert At(Cut(s, root, order).pcbs, p) == PrunedPcb(s.pcbs, root, order, p);
    }
  }

  lemma PasserenPoints(s: Sched, a: int, d: Option<nat>)
    requires a in s.sems
    ensures PointsOn(s, Passeren(s, a), d)
  {
    hide Enqueue;
  }

  lemma TickPoints(s: Sched, d: Option<nat>)
    ensures PointsOn(s, Tick(s), d)
  {
    hide Enqueue;
  }

  lemma WaitIoPoints(s: Sched, d: nat)
    requires d < |s.devs|
    ensures PointsOn(s, WaitIo(s, d), Some(d))
  {
    hide Enqueue;
  }

  /** Every step keeps them so. */
  lemma StepPointers(s: Sched, a: Action)
    requires Callable(s, a) && Pointers(s)
    ensures Pointers(Apply(s, a))
  {
    hide Lists, Create, Terminate, Verhogen, DoneIo, Passeren, Tick, WaitIo;
    var d := if a.AWaitIo? || a.ADoneIo? then Some(a.dev) else None;
    match a {
      case ACreate(priority) => CreatePoints(s, priority, d);
      case ATerminate(root, order) => TerminatePoints(s, root, order, d);
      case AVerhogen(addr) => VerhogenPoints(s, addr, d);
      case ADoneIo(e) => DoneIoPoints(s, e);
      case APasseren(addr) => PasserenPoints(s, addr, d);
      case ATick => TickPoints(s, d);
      case AWaitIo(e) => WaitIoPoints(s, e);
    }
    StillPointers(s, Apply(s, a), d);
  }

  lemma StillPointers(s: Sched, s': Sched, d: Option<nat>)
    requires Pointers(s) && PointsOn(s, s', d)
    requires d.Some? ==> d.value < |s.devs|
    ensures Pointers(s')
  {
  }

  lemma ProtocolPointers(s: Sched)
    requires Protocol(s)
    ensures Pointers(s)
  {
    forall p: Pid | p < |s.pcbs| && WListOf(s, p).Some?
      ensures WListOf(s, p).value < |s.devs|
    {
      assert ServedOk(s, p);
    }
  }

  /** A busy device has somebody recorded as served; a free one has nobody waiting. */
  ghost predicate SoundDevice(s: Sched, d: nat, l: DevWList) {
    (l.cmdSem == 0 && l.res.Some?) || (l == DevWList(1, None) && Device(d) !in s.blocked)
  }

  ghost predicate Sound(s: Sched) {
    forall d: nat :: d < |s.devs| ==> SoundDevice(s, d, s.devs[d])
  }

  /** What the scheduler needs of the device lists: less than the protocol, and kept by more runs. */
  ghost predicate KernelInv(s: Sched) {
    Inv(s, None) && Sound(s) && Pointers(s)
  }

  ghost predicate ProtocolInv(s: Sched) {
    KernelInv(s) && Protocol(s)
  }

  lemma ProtocolSound(s: Sched)
    requires Protocol(s)
    ensures Sound(s) && Pointers(s)
  {
    ProtocolPointers(s);
    forall d: nat | d < |s.devs|
      ensures SoundDevice(s, d, s.devs[d])
    {
      assert DeviceOk(s, d, s.devs[d]);
    }
  }

  /** A step that leaves the device lists, their queues and the back-pointers alone. */
  ghost predicate SameDevices(s: Sched, s': Sched) {
    && s'.devs == s.devs && |s'.pcbs| == |s.pcbs|
    && (forall d: nat :: Device(d) in s'.blocked <==> Device(d) in s.blocked)
    && (forall d: nat :: Device(d) in s.blocked && Device(d) in s'.blocked ==>
         s'.blocked[Device(d)] == s.blocked[Device(d)])
    && (forall p: Pid :: WListOf(s', p) == WListOf(s, p))
  }

  lemma SameTwice(s: Sched, s1: Sched, s2: Sched)
    requires SameDevices(s, s1) && SameDevices(s1, s2)
    ensures SameDevices(s, s2)
  {
  }

  lemma SoundFrame(s: Sched, s': Sched)
    requires Sound(s) && SameDevices(s, s')
    ensures Sound(s')
  {
    forall d: nat | d < |s'.devs|
      ensures SoundDevice(s', d, s'.devs[d])
    {
      assert SoundDevice(s, d, s.devs[d]);
    }
  }

  lemma ProtocolFrame(s: Sched, s': Sched)
    requires Protocol(s) && SameDevices(s, s')
    ensures Protocol(s')
  {
    forall d: nat | d < |s'.devs|
      ensures DeviceOk(s', d, s'.devs[d])
    {
      assert DeviceOk(s, d, s.devs[d]);
    }
    forall p: Pid | p < |s'.pcbs|
      ensures ServedOk(s', p)
    {
      assert ServedOk(s, p);
    }
  }

  // ---- wait_io -----------------------------------------------------------------------------------------------------

  lemma WaitIoInv(s: Sched, d: nat)
    requires Inv(s, None) && Sound(s) && s.running != s.Idle() && d < |s.devs|
    ensures Inv(WaitIo(s, d), None)
  {
    hide Inv, Linked;
    RunNextInv(s);
    var s1 := RunNext(s);
    assert SoundDevice(s, d, s.devs[d]);
    BlockInv(s1, Device(d), s.running);
    if s.devs[d].cmdSem == 1 {
      DeviceFieldsInv(Block(s1, Device(d), s.running), WaitIo(s, d), None);
    }
  }

  /** The device fields play no part in the scheduler invariant. */
  lemma DeviceFieldsInv(s: Sched, s': Sched, hand: Option<Pid>)
    requires Inv(s, hand)
    requires s' == s.(devs := s'.devs, pcbs := s'.pcbs) && |s'.devs| == |s.devs| && |s'.pcbs| == |s.pcbs|
    requires forall x: Pid :: OnlyWList(At(s.pcbs, x), At(s'.pcbs, x))
    ensures Inv(s', hand)
  {
    forall x: Pid
      ensures SemKeyOf(s', x) == SemKeyOf(s, x) && Prio(s'.pcbs, x) == Prio(s.pcbs, x)
        && At(s'.pcbs, x).originalPriority == At(s.pcbs, x).originalPriority
        && SameFamily(At(s.pcbs, x), At(s'.pcbs, x))
    {
      assert OnlyWList(At(s.pcbs, x), At(s'.pcbs, x));
    }
    forall x: Pid | x < s'.N()
      ensures Places(s', hand, x) == 1
    {
      assert Places(s, hand, x) == 1;
    }
    LinkFrame(s, s');
    TreeFrame(s, s');
    Reprioritised(s, s');
    forall k | k in s'.blocked
      ensures Usable(s', k)
    {
      assert Usable(s, k);
    }
  }

  predicate OnlyWList(r: Pcb, r': Pcb) { r' == r.(devWList := r'.devWList) }

  /** Whether a process joining the queue of `d` stays behind the process being served. */
  predicate JoinsBehind(s: Sched, d: nat)
    requires d < |s.devs|
  {
    s.devs[d].res.Some? ==> Prio(s.pcbs, s.running) <= Prio(s.pcbs, s.devs[d].res.value)
  }

  lemma WaitIoOthers(s: Sched, d: nat)
    requires ProtocolInv(s) && s.running != s.Idle() && d < |s.devs|
    ensures var s' := WaitIo(s, d); forall e: nat :: e < |s'.devs| && e != d ==> DeviceOk(s', e, s'.devs[e])
  {
    var s' := WaitIo(s, d);
    Apart(s, None);
    forall e: nat | e < |s'.devs| && e != d
      ensures DeviceOk(s', e, s'.devs[e])
    {
      assert DeviceOk(s, e, s.devs[e]);
      if s.devs[e].res.Some? { ServedWaits(s, e); }
    }
  }

  /** wait_io keeps the device protocol exactly when the caller does not outrank the process being served. */
  lemma WaitIoProtocol(s: Sched, d: nat)
    requires ProtocolInv(s) && s.running != s.Idle() && d < |s.devs|
    ensures Protocol(WaitIo(s, d)) <==> JoinsBehind(s, d)
  {
    hide Conserved, Sorted;
    var s', k, p := WaitIo(s, d), Device(d), s.running;
    var q := QueueOf(s.blocked, k);
    assert DeviceOk(s, d, s.devs[d]);
    Apart(s, None);
    if s.devs[d].res.Some? {
      var i := Slot(Prios(s.pcbs, q), Prio(s.pcbs, p));
      assert s'.blocked[k] == q[..i] + [p] + q[i..];
      assert Prios(s.pcbs, q)[0] == Prio(s.pcbs, q[0]);
      assert QueueLinked(s, k, q) && q[0] in q && p != q[0];
      assert DeviceOk(s', d, s'.devs[d]) <==> JoinsBehind(s, d);
    } else {
      assert s'.blocked[k] == [p];
      assert ServedOk(s, p) && WListOf(s, p) == None by { NotServed(s, p); }
    }
    WaitIoOthers(s, d);
    forall x: Pid | x < |s'.pcbs|
      ensures ServedOk(s', x)
    {
      assert ServedOk(s, x);
    }
  }

  /** A served process waits in the queue of its device. */
  lemma ServedWaits(s: Sched, d: nat)
    requires ProtocolInv(s) && d < |s.devs| && s.devs[d].res.Some?
    ensures SemKeyOf(s, s.devs[d].res.value) == Some(Device(d))
  {
    assert DeviceOk(s, d, s.devs[d]);
    assert QueueLinked(s, Device(d), s.blocked[Device(d)]);
  }

  /** A process that waits for no device is served by none, so that the `dev_w_list` branch of termination is dead. */
  lemma NotServed(s: Sched, p: Pid)
    requires ProtocolInv(s) && p < |s.pcbs| && (SemKeyOf(s, p).None? || SemKeyOf(s, p).value.Cell?)
    ensures WListOf(s, p) == None
  {
    assert ServedOk(s, p);
    if WListOf(s, p).Some? { ServedWaits(s, WListOf(s, p).value); }
  }

  lemma WaitIoSound(s: Sched, d: nat)
    requires Sound(s) && d < |s.devs|
    ensures Sound(WaitIo(s, d))
  {
    hide Enqueue;
    var s' := WaitIo(s, d);
    forall e: nat | e < |s'.devs|
      ensures SoundDevice(s', e, s'.devs[e])
    {
      assert SoundDevice(s, e, s.devs[e]);
    }
  }

  // ---- done_io -----------------------------------------------------------------------------------------------------

  /** The branch of done_io in which the dequeued process is not the one served, and is dropped. */
  predicate DropsWaiter(s: Sched, d: nat)
    requires d < |s.devs|
  {
    s.devs[d].res.Some? && HasWaiter(s, Device(d)) && s.devs[d].res != Some(s.blocked[Device(d)][0])
  }

  /** The process dequeued is the one served. */
  predicate Completes(s: Sched, d: nat) {
    d < |s.devs| && HasWaiter(s, Device(d)) && s.devs[d].res == Some(s.blocked[Device(d)][0])
  }

  lemma CompleteInv(s: Sched, d: nat)
    requires Inv(s, None) && d < |s.devs| && s.devs[d].res.Some? && !DropsWaiter(s, d)
    ensures Inv(Complete(s, d), None)
  {
    var k := Device(d);
    if HasWaiter(s, k) {
      var p := s.blocked[k][0];
      UnblockInv(s, k);
      var s1 := Unblock(s, k);
      var s2 := s1.(pcbs := Put(s1.pcbs, p, At(s1.pcbs, p).(devWList := None)));
      DeviceFieldsInv(s1, s2, Some(p));
      ScheduleInv(s2, p);
    }
  }

  lemma WaiterDropped(s: Sched, d: nat)
    requires Inv(s, None) && d < |s.devs| && DropsWaiter(s, d)
    ensures s.blocked[Device(d)][0] < s.N() && Places(DoneIo(s, d), None, s.blocked[Device(d)][0]) == 0
  {
    var k := Device(d);
    var p := s.blocked[k][0];
    assert QueueLinked(s, k, s.blocked[k]) && p in s.blocked[k];
    assert Places(s, None, p) == 1;
  }

  /** done_io keeps every process in exactly one place unless it takes the dropping branch; then it loses the waiter. */
  lemma DoneIoInv(s: Sched, d: nat)
    requires Inv(s, None) && d < |s.devs|
    ensures Inv(DoneIo(s, d), None) <==> !DropsWaiter(s, d)
    ensures DropsWaiter(s, d) ==> Places(DoneIo(s, d), None, s.blocked[Device(d)][0]) == 0
  {
    hide Linked, Enqueue;
    var s' := DoneIo(s, d);
    if DropsWaiter(s, d) {
      WaiterDropped(s, d);
    } else if s.devs[d].res.Some? {
      CompleteInv(s, d);
      DeviceFieldsInv(Complete(s, d), s', None);
    }
  }

  /** What the completion of a command does to the device lists. */
  lemma CompleteDevices(s: Sched, d: nat)
    requires Linked(s) && Completes(s, d)
    ensures var k, q, s1 := Device(d), QueueOf(s.blocked, Device(d)), Complete(s, d);
      && q != [] && s.devs[d].res == Some(q[0])
      && s1.devs == s.devs && |s1.pcbs| == |s.pcbs|
      && s1.blocked == (if |q| == 1 then s.blocked - {k} else s.blocked[k := q[1..]])
      && (forall x: Pid :: WListOf(s1, x) == if x == q[0] then None else WListOf(s, x))
  {
    var q := s.blocked[Device(d)];
    assert QueueLinked(s, Device(d), q) && q[0] in q;
  }

  lemma DoneIoProtocol(s: Sched, d: nat)
    requires ProtocolInv(s) && d < |s.devs|
    ensures !DropsWaiter(s, d) && Protocol(DoneIo(s, d))
  {
    assert DeviceOk(s, d, s.devs[d]);
    if s.devs[d].res.Some? {
      var s1, s' := Complete(s, d), DoneIo(s, d);
      CompleteDevices(s, d);
      var q := s.blocked[Device(d)];
      assert QueueLinked(s, Device(d), q);
      Uncons(q);
      assert |q| > 1 ==> q[1] == q[1..][0] && q[1] in q && q[1] != q[0];
      forall x: Pid | x < |s'.pcbs|
        ensures ServedOk(s', x)
      {
        assert ServedOk(s, x);
      }
      forall e: nat | e < |s'.devs|
        ensures DeviceOk(s', e, s'.devs[e])
      {
        assert DeviceOk(s, e, s.devs[e]);
        if e != d && s.devs[e].res.Some? { ServedWaits(s, e); }
      }
    }
  }

  lemma CompleteLists(s: Sched, d: nat)
    requires d < |s.devs|
    ensures var s1, k := Complete(s, d), Device(d);
      s1.devs == s.devs && s1.blocked == if HasWaiter(s, k) then DropHead(s.blocked, k) else s.blocked
  {
    hide Enqueue;
  }

  lemma DoneIoSound(s: Sched, d: nat)
    requires Sound(s) && Linked(s) && d < |s.devs|
    ensures Sound(DoneIo(s, d))
  {
    CompleteLists(s, d);
    hide Complete;
    var s' := DoneIo(s, d);
    assert Device(d) in s.blocked ==> QueueLinked(s, Device(d), s.blocked[Device(d)]);
    forall e: nat | e < |s'.devs|
      ensures SoundDevice(s', e, s'.devs[e])
    {
      assert SoundDevice(s, e, s.devs[e]);
    }
  }

  // ---- terminate_proc ----------------------------------------------------------------------------------------------

  /** Under the protocol no process is a stray, so that termination dequeues everybody and leaves the device lists alone. */
  lemma ProtocolCut(s: Sched, root: Pid, order: seq<Pid>)
    requires ProtocolInv(s) && forall x :: x in order ==> s.Live(x)
    ensures Clean(s, order) && Leaving(s.pcbs, order) == order
    ensures Cut(s, root, order) == s.(pcbs := Pruned(s.pcbs, root, order), free := order + s.free,
                                      ready := Minus(s.ready, order), blocked := MinusAll(s.blocked, order))
  {
    forall x | x in order
      ensures SemKeyOf(s, x).Some? || At(s.pcbs, x).devWList == None
    {
      if SemKeyOf(s, x).None? { NotServed(s, x); }
    }
    CleanCut(s, root, order);
  }

  lemma TerminateKept(s: Sched, root: Pid, order: seq<Pid>)
    requires ProtocolInv(s) && Callable(s, ATerminate(root, order))
    ensures Inv(Terminate(s, root, order), None)
  {
    ProtocolCut(s, root, order);
    TerminateInv(s, root, order);
  }

  /** Terminating a subtree keeps the protocol exactly when no device is serving one of its processes. */
  lemma TerminateProtocol(s: Sched, root: Pid, order: seq<Pid>)
    requires ProtocolInv(s) && s.running != s.Idle() && s.Live(root) && Lists(order, s, root)
    ensures Protocol(Terminate(s, root, order)) <==> forall x :: x in order ==> WListOf(s, x) == None
  {
    hide Inv, Clean;
    ProtocolCut(s, root, order);
    if x :| x in order && WListOf(s, x).Some? {
      ServedOut(s, root, order, x);
    } else {
      forall d: nat | d < |s.devs| && s.devs[d].res.Some?
        ensures s.devs[d].res.value < |s.pcbs|
      {
        ServedInTable(s, d);
      }
      AllSpared(s, root, order);
    }
  }

  lemma AllSpared(s: Sched, root: Pid, order: seq<Pid>)
    requires Protocol(s) && Clean(s, order) && forall x :: x in order ==> WListOf(s, x) == None
    requires forall d: nat :: d < |s.devs| && s.devs[d].res.Some? ==> s.devs[d].res.value < |s.pcbs|
    ensures Protocol(Terminate(s, root, order))
  {
    var s' := Terminate(s, root, order);
    forall d: nat | d < |s'.devs|
      ensures DeviceOk(s', d, s'.devs[d])
    {
      DeviceSpared(s, root, order, d);
    }
    forall x: Pid | x < |s'.pcbs|
      ensures ServedOk(s', x)
    {
      ServedSpared(s, root, order, x);
    }
  }

  lemma ServedSpared(s: Sched, root: Pid, order: seq<Pid>, x: Pid)
    requires ServedOk(s, x) && Clean(s, order) && x < |s.pcbs|
    ensures ServedOk(Terminate(s, root, order), x)
  {
    CleanCut(s, root, order);
    assert At(Cut(s, root, order).pcbs, x) == PrunedPcb(s.pcbs, root, order, x);
  }

  lemma ServedOut(s: Sched, root: Pid, order: seq<Pid>, x: Pid)
    requires Protocol(s) && Clean(s, order) && x in order && x < |s.pcbs| && WListOf(s, x).Some?
    ensures !Protocol(Terminate(s, root, order))
  {
    CleanCut(s, root, order);
    assert ServedOk(s, x);
    var s', d := Terminate(s, root, order), WListOf(s, x).value;
    assert !DeviceOk(s', d, s'.devs[d]);
  }

  lemma ServedInTable(s: Sched, d: nat)
    requires ProtocolInv(s) && d < |s.devs| && s.devs[d].res.Some?
    ensures s.devs[d].res.value < |s.pcbs|
  {
    ServedWaits(s, d);
  }

  lemma DeviceSpared(s: Sched, root: Pid, order: seq<Pid>, d: nat)
    requires Protocol(s) && Clean(s, order) && d < |s.devs| && forall x :: x in order ==> WListOf(s, x) == None
    requires s.devs[d].res.Some? ==> s.devs[d].res.value < |s.pcbs|
    ensures var s' := Terminate(s, root, order); DeviceOk(s', d, s'.devs[d])
  {
    CleanCut(s, root, order);
    assert DeviceOk(s, d, s.devs[d]);
    if s.devs[d].res.Some? {
      var q := s.blocked[Device(d)];
      assert q[0] !in order && Minus(q, order)[0] == q[0];
      assert At(Cut(s, root, order).pcbs, q[0]) == PrunedPcb(s.pcbs, root, order, q[0]);
    }
  }

  // ---- What goes wrong without the side conditions -----------------------------------------------------------------

  /** A caller that outranks the process being served goes in front of it, and is lost at the next completion. */
  lemma OvertakerLost(s: Sched, d: nat)
    requires ProtocolInv(s) && s.running != s.Idle() && d < |s.devs| && !JoinsBehind(s, d)
    ensures var s1 := WaitIo(s, d);
      DropsWaiter(s1, d) && s1.blocked[Device(d)][0] == s.running && Places(DoneIo(s1, d), None, s.running) == 0
  {
    var q, s1 := s.blocked[Device(d)], WaitIo(s, d);
    assert DeviceOk(s, d, s.devs[d]);
    assert QueueLinked(s, Device(d), q) && q[0] in q;
    Apart(s, None);
    assert Prios(s.pcbs, q)[0] == Prio(s.pcbs, q[0]);
    WaitIoInv(s, d);
    DoneIoInv(s1, d);
  }

  lemma NobodyLeft(s: Sched, d: nat)
    requires d < |s.devs| && s.devs[d].res.Some? && !HasWaiter(s, Device(d))
    ensures DoneIo(s, d) == s.(devs := s.devs[d := DevWList(s.devs[d].cmdSem + 1, None)])
  {
  }

  lemma ServedFreed(s: Sched, root: Pid, order: seq<Pid>, d: nat)
    requires ProtocolInv(s) && Callable(s, ATerminate(root, order)) && d < |s.devs| && s.devs[d].res.Some?
    requires s.devs[d].res.value in order
    ensures var s1, p := Terminate(s, root, order), s.devs[d].res.value;
      && s1.devs == s.devs && s1.blocked == MinusAll(s.blocked, order) && p in s1.free && WListOf(s1, p) == Some(d)
      && s.devs[d].cmdSem == 0 && p < s.N()
  {
    var p := s.devs[d].res.value;
    assert DeviceOk(s, d, s.devs[d]);
    assert s.Live(p);
    ProtocolCut(s, root, order);
    assert At(Cut(s, root, order).pcbs, p) == PrunedPcb(s.pcbs, root, order, p);
  }

  /**
   Terminating the process being served: the device recovers at its next completion if nobody else was queued, and
   otherwise that completion drops the next waiter. Either way the freed PCB goes on pointing to the device list.
   */
  lemma ServedTerminated(s: Sched, root: Pid, order: seq<Pid>, d: nat)
    requires ProtocolInv(s) && Callable(s, ATerminate(root, order)) && d < |s.devs| && s.devs[d].res.Some?
    requires s.devs[d].res.value in order
    ensures var s1, left, p := Terminate(s, root, order), Minus(QueueOf(s.blocked, Device(d)), order), s.devs[d].res.value;
      && Inv(s1, None) && (DropsWaiter(s1, d) <==> left != [])
      && (left == [] ==> Inv(DoneIo(s1, d), None) && DoneIo(s1, d).devs[d] == DevWList(1, None))
      && (left != [] ==> Places(DoneIo(s1, d), None, left[0]) == 0)
      && p in s1.free && WListOf(s1, p) == Some(d)
      && (left == [] ==> p in DoneIo(s1, d).free && WListOf(DoneIo(s1, d), p) == Some(d))
  {
    hide Inv;
    hide Lists;
    hide Terminate;
    var s1, left := Terminate(s, root, order), Minus(QueueOf(s.blocked, Device(d)), order);
    TerminateKept(s, root, order);
    ServedFreed(s, root, order, d);
    assert left != [] ==> left[0] in left;
    DoneIoInv(s1, d);
    if left == [] { NobodyLeft(s1, d); }
  }

  /** When that PCB is used again, its new process is a stray: runnable, and pointing to a device it never asked for. */
  lemma StrayCreated(s: Sched, priority: int, d: nat)
    requires Inv(s, None) && s.running != s.Idle() && s.free != [] && WListOf(s, s.free[0]) == Some(d)
    ensures var s', p := Create(s, priority), s.free[0];
      Inv(s', None) && Stray(s'.pcbs, p) && WListOf(s', p) == Some(d) && (p in s'.ready || s'.running == p)
  {
    var p, s1 := s.free[0], Allocate(s, priority);
    Uncons(s.free);
    CreateInv(s, priority);
    AllocateInv(s, priority);
    Apart(s1, Some(p));
    ScheduleEffect(s1, p);
  }
}
