/** Bounded bypass: how many `v` calls on a semaphore can wake others before a given waiter. */
module Bypass {
  import opened Seqs
  import opened Sched
  import opened Invariants
  import opened Devices
  import opened Runs
  import opened Semaphores
  import opened Waiting

  predicate Waits(s: Sched, w: Pid, k: Key) { w in QueueOf(s.blocked, k) }

  /** How many more `v` calls on `k` can pass `w` over, if arrivals have priority `m` or below. */
  function Turns(s: Sched, w: Pid, k: Key, m: int): int {
    var r := Prio(s.pcbs, w);
    if r < m then (m - r) + s.N() else Ahead(QueueOf(s.blocked, k), w) + 1
  }

  ghost predicate Undisturbed(s: Sched, s': Sched, w: Pid, k: Key) {
    |s'.pcbs| == |s.pcbs| && Prio(s'.pcbs, w) == Prio(s.pcbs, w) && QueueOf(s'.blocked, k) == QueueOf(s.blocked, k)
  }

  lemma ScheduleUndisturbed(s: Sched, p: Pid, w: Pid, k: Key)
    requires w != s.running
    ensures Undisturbed(s, ScheduleProc(s, p), w, k)
  {
  }

  /** Facts about a waiter that every case needs. */
  lemma WaiterFacts(s: Sched, w: Pid, k: Key)
    requires KernelInv(s) && Waits(s, w, k)
    ensures QueueLinked(s, k, QueueOf(s.blocked, k)) && HasWaiter(s, k) && SemKeyOf(s, w) == Some(k)
    ensures w !in s.ready && w !in s.free && w != s.running
    ensures Ahead(QueueOf(s.blocked, k), w) + 1 <= s.N()
    ensures Sorted(s.pcbs, QueueOf(s.blocked, k))
  {
    var q := QueueOf(s.blocked, k);
    assert QueueLinked(s, k, q);
    assert Places(s, None, w) == 1;
    QueueShort(s, q, w);
  }

  lemma VerhogenTurns(s: Sched, a: int, w: Pid, m: int)
    requires KernelInv(s) && a in s.sems && Waits(s, w, Cell(a)) && Waits(Verhogen(s, a), w, Cell(a))
    ensures Turns(Verhogen(s, a), w, Cell(a), m) < Turns(s, w, Cell(a), m)
  {
    hide Inv, DeviceOk, Enqueue;
    var k := Cell(a);
    WaiterFacts(s, w, k);
    var s1, q := Release(s, k), s.blocked[k];
    Uncons(q);
    ScheduleUndisturbed(s1, q[0], w, k);
    assert QueueOf(s1.blocked, k) == q[1..];
    AheadTail(q, w);
  }

  lemma OtherVerhogenTurns(s: Sched, a: int, w: Pid, k: Key)
    requires KernelInv(s) && a in s.sems && Waits(s, w, k) && k != Cell(a)
    ensures Undisturbed(s, Verhogen(s, a), w, k)
  {
    WaiterFacts(s, w, k);
    if HasWaiter(s, Cell(a)) {
      assert QueueLinked(s, Cell(a), s.blocked[Cell(a)]);
      assert w !in s.blocked[Cell(a)];
      var q := s.blocked[Cell(a)];
      assert w !in q[1..] && w != q[0];
      ScheduleUndisturbed(Release(s, Cell(a)), q[0], w, k);
    }
  }

  lemma PasserenTurns(s: Sched, a: int, w: Pid, k: Key, m: int)
    requires KernelInv(s) && a in s.sems && s.running != s.Idle() && Waits(s, w, k)
    requires k == Cell(a) ==> Prio(s.pcbs, s.running) <= m
    ensures Turns(Passeren(s, a), w, k, m) <= Turns(s, w, k, m)
  {
    WaiterFacts(s, w, k);
    if k == Cell(a) && s.sems[a] - 1 < 0 && Prio(s.pcbs, w) >= m {
      EnqueueBehind(s.pcbs, s.blocked[k], s.running, w);
    }
  }

  lemma TerminateTurns(s: Sched, root: Pid, order: seq<Pid>, w: Pid, k: Key, m: int)
    requires KernelInv(s) && Callable(s, ATerminate(root, order))
    requires Waits(s, w, k) && Waits(Terminate(s, root, order), w, k)
    ensures Turns(Terminate(s, root, order), w, k, m) <= Turns(s, w, k, m)
  {
    hide KernelInv, Inv, QueueLinked;
    WaiterFacts(s, w, k);
    var s1 := Cut(s, root, order);
    assert At(s1.pcbs, w) == PrunedPcb(s.pcbs, root, order, w);
    MinusAhead(s.blocked[k], order, w);
  }

  lemma DoneIoTurns(s: Sched, d: nat, w: Pid, a: int)
    requires KernelInv(s) && d < |s.devs| && Waits(s, w, Cell(a))
    ensures Undisturbed(s, DoneIo(s, d), w, Cell(a))
  {
    hide Conserved, Enqueue, ScheduleProc;
    WaiterFacts(s, w, Cell(a));
    if s.devs[d].res.Some? && HasWaiter(s, Device(d)) {
      var p, s1 := s.blocked[Device(d)][0], Unblock(s, Device(d));
      assert QueueLinked(s, Device(d), s.blocked[Device(d)]) && p in s.blocked[Device(d)];
      ScheduleUndisturbed(s1.(pcbs := Put(s1.pcbs, p, At(s1.pcbs, p).(devWList := None))), p, w, Cell(a));
    }
  }

  lemma CreateTurns(s: Sched, priority: int, w: Pid, k: Key)
    requires KernelInv(s) && Waits(s, w, k)
    ensures Undisturbed(s, Create(s, priority), w, k)
  {
    WaiterFacts(s, w, k);
    if s.free != [] {
      Uncons(s.free);
      ScheduleUndisturbed(Allocate(s, priority), s.free[0], w, k);
    }
  }

  lemma TickTurns(s: Sched, w: Pid, k: Key)
    requires KernelInv(s) && Waits(s, w, k)
    ensures Undisturbed(s, Tick(s), w, k)
  {
    WaiterFacts(s, w, k);
  }

  lemma WaitIoTurns(s: Sched, d: nat, w: Pid, a: int)
    requires KernelInv(s) && d < |s.devs| && Waits(s, w, Cell(a))
    ensures Undisturbed(s, WaitIo(s, d), w, Cell(a))
  {
    WaiterFacts(s, w, Cell(a));
  }

  lemma StepTurns(s: Sched, act: Action, w: Pid, a: int, m: int)
    requires KernelInv(s) && Callable(s, act) && Waits(s, w, Cell(a)) && Waits(Apply(s, act), w, Cell(a))
    requires act == APasseren(a) ==> Prio(s.pcbs, s.running) <= m
    ensures Turns(Apply(s, act), w, Cell(a), m) <= Turns(s, w, Cell(a), m) - Count(act == AVerhogen(a))
  {
    var k := Cell(a);
    match act
    case ACreate(priority) =>
      CreateTurns(s, priority, w, k);
    case ATerminate(root, order) =>
      TerminateTurns(s, root, order, w, k, m);
    case APasseren(addr) =>
      PasserenTurns(s, addr, w, k, m);
    case AVerhogen(addr) =>
      if addr == a { VerhogenTurns(s, a, w, m); } else { OtherVerhogenTurns(s, addr, w, k); }
    case ATick =>
      TickTurns(s, w, k);
    case AWaitIo(d) =>
      WaitIoTurns(s, d, w, a);
    case ADoneIo(d) =>
      DoneIoTurns(s, d, w, a);
  }

  /** Along the whole run `w` waits on `a`, and nobody above `m` calls `p` on it. */
  ghost predicate Bypassed(s: Sched, acts: seq<Action>, w: Pid, a: int, m: int)
    requires Run(s, acts)
    decreases |acts|
  {
    Waits(s, w, Cell(a)) &&
    (acts != [] ==>
      (acts[0] == APasseren(a) ==> Prio(s.pcbs, s.running) <= m) && Bypassed(Apply(s, acts[0]), acts[1..], w, a, m))
  }

  lemma {:induction false} RunTurns(s: Sched, acts: seq<Action>, w: Pid, a: int, m: int)
    requires KernelInv(s) && Run(s, acts) && Bypassed(s, acts, w, a, m)
    ensures VCalls(acts, a) < Turns(s, w, Cell(a), m)
    decreases |acts|
  {
    if acts == [] {
    } else {
      StepInv(s, acts[0]);
      RunTurns(Apply(s, acts[0]), acts[1..], w, a, m);
      StepTurns(s, acts[0], w, a, m);
    }
  }

  /** A waiter of priority r is woken within max(0, m - r) + N calls of `v` on its semaphore. */
  lemma BoundedBypass(s: Sched, acts: seq<Action>, w: Pid, a: int, m: int)
    requires KernelInv(s) && Run(s, acts) && Bypassed(s, acts, w, a, m)
    ensures VCalls(acts, a) < Max(0, m - Prio(s.pcbs, w)) + s.N()
  {
    RunTurns(s, acts, w, a, m);
    WaiterFacts(s, w, Cell(a));
  }
}
