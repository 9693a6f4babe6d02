/**
 A bound on the time slices for which a ready process can be passed over: a potential argument over arbitrary runs that
 rests on newcomers queueing behind equals. It counts slices only; without them nothing ages (module Starvation).
 */
module Waiting {
  import opened Seqs
  import opened Sched
  import opened Invariants
  import opened Steps
  import opened Devices
  import opened Runs

  function Max(a: int, b: int): int { if a < b then b else a }

  lemma EnqueueBehind(t: seq<Pcb>, q: seq<Pid>, p: Pid, w: Pid)
    requires Sorted(t, q) && w in q && p != w && Prio(t, p) <= Prio(t, w)
    ensures Ahead(Enqueue(t, q, p), w) == Ahead(q, w)
  {
    var a, ps := Ahead(q, w), Prios(t, q);
    var i, r := Slot(ps, Prio(t, p)), Enqueue(t, q, p);
    assert i < |q| ==> ps[i] == Prio(t, q[i]);
    assert i > a;
    assert forall j :: 0 <= j <= a ==> r[j] == q[j];
  }

  lemma {:induction false} QueueShort(s: Sched, q: seq<Pid>, w: Pid)
    requires NoDup(q) && w in q && forall x :: x in q ==> x < s.N()
    ensures Ahead(q, w) + 1 <= s.N()
  {
    Pigeonhole(q, s.N());
  }

  // ---- The ready queue ---------------------------------------------------------------------------------------------

  /** How many more time slices `w` can be kept in the ready queue, if priorities enter it at `m` or below. */
  function Patience(s: Sched, w: Pid, m: int): int {
    var r, top := Prio(s.pcbs, w), Prio(s.pcbs, s.running);
    if r < m then (m - r) + (Max(top, m) - r) + s.N() else Ahead(s.ready, w) + (top - r) + 1
  }

  predicate OriginalOk(s: Sched, p: Pid, m: int) { At(s.pcbs, p).originalPriority <= m }

  /** No live process has an original priority above `m`. */
  ghost predicate Modest(s: Sched, m: int) {
    forall p: Pid :: s.Live(p) ==> OriginalOk(s, p, m)
  }

  /** The step brings nobody into the ready queue above `m`. */
  ghost predicate ModestStep(s: Sched, a: Action, m: int)
    requires Callable(s, a)
  {
    match a
    case ACreate(priority) => priority <= m
    case ADoneIo(d) => s.devs[d].res.Some? ==> Prio(s.pcbs, s.devs[d].res.value) <= m
    case _ => true
  }

  lemma ModestKept(s: Sched, a: Action, m: int)
    requires KernelInv(s) && Callable(s, a) && Modest(s, m) && ModestStep(s, a, m)
    ensures Modest(Apply(s, a), m)
  {
    var s' := Apply(s, a);
    forall p: Pid | s'.Live(p)
      ensures OriginalOk(s', p, m)
    {
      if s.Live(p) { assert OriginalOk(s, p, m); }
      LiveBefore(s, a, p);
    }
  }

  /** What no step changes, unless it allocates or frees: original priorities, and being on no semaphore. */
  ghost predicate Quiet(s: Sched, s': Sched, r: Pid) {
    && s'.free == s.free && |s'.pcbs| == |s.pcbs|
    && forall x: Pid :: QuietPcb(At(s.pcbs, x), At(s'.pcbs, x), x == r)
  }

  predicate QuietPcb(r: Pcb, r': Pcb, exempt: bool) {
    r'.originalPriority == r.originalPriority && (exempt || r'.semKey == r.semKey || r'.semKey.None?)
  }

  lemma ScheduleQuiet(s: Sched, p: Pid, r: Pid)
    ensures Quiet(s, ScheduleProc(s, p), r)
    ensures forall x: Pid :: SemKeyOf(ScheduleProc(s, p), x) == SemKeyOf(s, x)
  {
  }

  lemma ReleaseQuiet(s: Sched, k: Key, r: Pid)
    requires HasWaiter(s, k)
    ensures Quiet(s, Release(s, k), r)
  {
  }

  lemma CompleteQuiet(s: Sched, d: nat, r: Pid)
    requires d < |s.devs|
    ensures Quiet(s, Complete(s, d), r)
  {
    if HasWaiter(s, Device(d)) {
      var p, s1 := s.blocked[Device(d)][0], Unblock(s, Device(d));
      var s2 := s1.(pcbs := Put(s1.pcbs, p, At(s1.pcbs, p).(devWList := None)));
      assert Quiet(s, s2, r);
      ScheduleQuiet(s2, p, r);
      QuietTwice(s, s2, ScheduleProc(s2, p), r);
    }
  }

  lemma QuietTwice(s: Sched, s1: Sched, s2: Sched, r: Pid)
    requires Quiet(s, s1, r) && Quiet(s1, s2, r)
    ensures Quiet(s, s2, r)
  {
    forall x: Pid
      ensures QuietPcb(At(s.pcbs, x), At(s2.pcbs, x), x == r)
    {
      assert QuietPcb(At(s.pcbs, x), At(s1.pcbs, x), x == r);
      assert QuietPcb(At(s1.pcbs, x), At(s2.pcbs, x), x == r);
    }
  }

  lemma BlockingQuiet(s: Sched, a: Action)
    requires Callable(s, a) && (a.APasseren? || a.AWaitIo?)
    ensures Quiet(s, Apply(s, a), s.running)
  {
  }

  lemma TickQuiet(s: Sched, r: Pid)
    ensures Quiet(s, Tick(s), r)
  {
    hide Enqueue;
  }

  lemma ServeQuiet(s: Sched, d: nat, r: Pid)
    requires d < |s.devs|
    ensures Quiet(s, ServeNext(s, d), r)
  {
  }

  lemma VerhogenQuiet(s: Sched, a: int, r: Pid)
    requires a in s.sems
    ensures Quiet(s, Verhogen(s, a), r)
  {
    if HasWaiter(s, Cell(a)) {
      var s1, p := Release(s, Cell(a)), s.blocked[Cell(a)][0];
      ReleaseQuiet(s, Cell(a), r);
      ScheduleQuiet(s1, p, r);
      QuietTwice(s, s1, ScheduleProc(s1, p), r);
    }
  }

  /** `r` is the caller, or anybody if the step does not block its caller. */
  lemma StepQuiet(s: Sched, a: Action, r: Pid)
    requires Callable(s, a) && !a.ACreate? && !a.ATerminate?
    requires r == s.running || !(a.APasseren? || a.AWaitIo?)
    ensures Quiet(s, Apply(s, a), r)
  {
    match a
    case AVerhogen(addr) =>
      VerhogenQuiet(s, addr, r);
    case ADoneIo(d) =>
      if s.devs[d].res.Some? {
        CompleteQuiet(s, d, r);
        ServeQuiet(Complete(s, d), d, r);
        QuietTwice(s, Complete(s, d), DoneIo(s, d), r);
      }
    case ATick =>
      TickQuiet(s, r);
    case _ =>
      BlockingQuiet(s, a);
  }

  /** Only creation brings a process to life, and no step changes an original priority of a live process. */
  lemma LiveBefore(s: Sched, a: Action, p: Pid)
    requires KernelInv(s) && Callable(s, a) && Apply(s, a).Live(p)
    ensures s.Live(p) || (a.ACreate? && s.free != [] && p == s.free[0])
    ensures a.ACreate? || s.Live(p)
    ensures At(Apply(s, a).pcbs, p).originalPriority ==
            if s.Live(p) then At(s.pcbs, p).originalPriority else a.priority
  {
    hide Protocol, TreeOk, Lists, Linked;
    match a
    case ACreate(priority) =>
      if s.free != [] {
        Uncons(s.free);
        Apart(s, None);
        ScheduleQuiet(Allocate(s, priority), s.free[0], s.running);
        assert QuietPcb(At(Allocate(s, priority).pcbs, p), At(Apply(s, a).pcbs, p), p == s.running);
      }
    case ATerminate(root, order) =>
      assert At(Cut(s, root, order).pcbs, p) == PrunedPcb(s.pcbs, root, order, p);
    case _ =>
      StepQuiet(s, a, s.running);
      assert QuietPcb(At(s.pcbs, p), At(Apply(s, a).pcbs, p), p == s.running);
  }

  lemma SchedulePatience(s: Sched, p: Pid, w: Pid, m: int)
    requires Inv(s, Some(p)) && w in s.ready && Prio(s.pcbs, p) <= m
    ensures w in ScheduleProc(s, p).ready
    ensures Patience(ScheduleProc(s, p), w, m) <= Patience(s, w, m)
  {
    Apart(s, Some(p));
    ScheduleEffect(s, p);
    if !Preempts(s, p) && Prio(s.pcbs, w) >= m {
      EnqueueBehind(s.pcbs, s.ready, p, w);
    }
  }

  lemma NextPatience(s: Sched, w: Pid, m: int)
    requires Sorted(s.pcbs, s.ready) && Dispatched(s) && s.running != s.Idle()
    requires w in RunNext(s).ready && NoDup(s.ready)
    ensures w in s.ready && Patience(RunNext(s), w, m) <= Patience(s, w, m)
  {
    hide Sorted;
    Uncons(s.ready);
    AheadTail(s.ready, w);
  }

  lemma TickPatience(s: Sched, w: Pid, m: int)
    requires Inv(s, None) && w in s.ready && w in Tick(s).ready && OriginalOk(s, s.running, m)
    ensures Patience(Tick(s), w, m) < Patience(s, w, m)
  {
    hide TreeOk, AllSorted, Sorted, Age;
    var s1, s', head, q := s.(pcbs := Age(s.pcbs, s.ready)), Tick(s), s.ready[0], s.ready[1..];
    Apart(s, None);
    QueueShort(s, s.ready, w);
    assert head in s.ready;
    if Prio(s1.pcbs, s.running) <= Prio(s1.pcbs, head) {
      TickSwapAhead(s, w, m);
      Uncons(s.ready);
    }
  }

  /** After a swap at a tick, one process fewer is ahead of `w`, provided `w` has reached `m`. */
  lemma TickSwapAhead(s: Sched, w: Pid, m: int)
    requires Inv(s, None) && w in s.ready && w in Tick(s).ready && OriginalOk(s, s.running, m)
    requires var t := Age(s.pcbs, s.ready); Prio(t, s.running) <= Prio(t, s.ready[0])
    ensures w != s.ready[0]
    ensures Prio(Tick(s).pcbs, w) >= m ==> Ahead(Tick(s).ready, w) == Ahead(s.ready, w) - 1
    ensures Tick(s).running == s.ready[0] && Prio(Tick(s).pcbs, s.ready[0]) == Prio(s.pcbs, s.ready[0]) + 1
  {
    hide Places;
    Apart(s, None);
    Uncons(s.ready);
    AgeReadyInv(s);
    SwapAhead(s.(pcbs := Age(s.pcbs, s.ready)), w, m);
  }

  lemma SwapAhead(s: Sched, w: Pid, m: int)
    requires NoDup(s.ready) && Sorted(s.pcbs, s.ready) && s.ready != [] && s.running !in s.ready
    requires s.running < s.N() && OriginalOk(s, s.running, m) && w in s.ready
    requires w in StopRunning(s.(ready := s.ready[1..])).ready
    ensures w != s.ready[0]
    ensures Prio(s.pcbs, w) >= m ==>
      Ahead(StopRunning(s.(ready := s.ready[1..])).ready, w) == Ahead(s.ready, w) - 1
  {
    var r, q := At(s.pcbs, s.running), s.ready[1..];
    var t := Put(s.pcbs, s.running, r.(priority := r.originalPriority));
    Uncons(s.ready);
    SortedTail(s.pcbs, s.ready);
    SortedFrame(s.pcbs, t, q);
    EnqueueElements(t, q, s.running);
    AheadTail(s.ready, w);
    if Prio(t, w) >= m {
      EnqueueBehind(t, q, s.running, w);
    }
  }

  /**
   At the end of a slice the running process goes on only if it strictly outranks all of the aged ready ones; otherwise
   the first of them takes over, and the loser is back at its original priority, behind everybody not below that.
   */
  lemma SliceEnds(s: Sched)
    requires KernelInv(s) && s.ready != []
    ensures var s', r := Tick(s), s.running;
      if forall p :: p in s.ready ==> Prio(s.pcbs, p) + PRIORITY_INC < Prio(s.pcbs, r) then
        s'.running == r && s'.ready == s.ready
      else
        && s'.running == s.ready[0] && r in s'.ready && Prio(s'.pcbs, r) == At(s.pcbs, r).originalPriority
        && forall w :: w in s'.ready && w != r && Prio(s'.pcbs, w) >= Prio(s'.pcbs, r) ==>
             Ahead(s'.ready, w) < Ahead(s'.ready, r)
  {
    hide Aging, StopRunning;
    Apart(s, None);
    HeadDecides(s.pcbs, s.ready, Prio(s.pcbs, s.running));
    AgeReadyInv(s);
    if Prio(s.pcbs, s.running) <= Prio(s.pcbs, s.ready[0]) + PRIORITY_INC {
      LoserBehind(s.(pcbs := Age(s.pcbs, s.ready)));
    }
  }

  lemma HeadDecides(t: seq<Pcb>, q: seq<Pid>, x: int)
    requires Sorted(t, q) && q != []
    ensures (forall p :: p in q ==> Prio(t, p) + PRIORITY_INC < x) <==> Prio(t, q[0]) + PRIORITY_INC < x
    ensures q[0] in q
  {
    SortedTail(t, q);
    assert q == [q[0]] + q[1..];
  }

  lemma LoserBehind(s: Sched)
    requires NoDup(s.ready) && Sorted(s.pcbs, s.ready) && s.ready != [] && s.running !in s.ready && s.running < s.N()
    ensures var s', r := StopRunning(s.(ready := s.ready[1..])), s.running;
      && r in s'.ready && Prio(s'.pcbs, r) == At(s.pcbs, r).originalPriority
      && forall w :: w in s'.ready && w != r && Prio(s'.pcbs, w) >= Prio(s'.pcbs, r) ==>
           Ahead(s'.ready, w) < Ahead(s'.ready, r)
  {
    var r := At(s.pcbs, s.running);
    var t := Put(s.pcbs, s.running, r.(priority := r.originalPriority));
    Uncons(s.ready);
    SortedTail(s.pcbs, s.ready);
    SortedFrame(s.pcbs, t, s.ready[1..]);
    BehindEquals(t, s.ready[1..], s.running);
  }

  /** insertProcQ puts a process behind all of its queue that are not below it. */
  lemma BehindEquals(t: seq<Pcb>, q: seq<Pid>, p: Pid)
    requires NoDup(q) && Sorted(t, q) && p !in q
    ensures p in Enqueue(t, q, p)
    ensures forall w :: w in Enqueue(t, q, p) && w != p && Prio(t, w) >= Prio(t, p) ==>
      Ahead(Enqueue(t, q, p), w) < Ahead(Enqueue(t, q, p), p)
  {
    var i, e := Slot(Prios(t, q), Prio(t, p)), Enqueue(t, q, p);
    EnqueueElements(t, q, p);
    assert e[i] == p;
    AheadUnique(e, i);
    forall w | w in e && w != p && Prio(t, w) >= Prio(t, p)
      ensures Ahead(e, w) < i
    {
      var j := Ahead(q, w);
      assert q[j] == w;
      assert i < |q| ==> Prios(t, q)[i] == Prio(t, q[i]);
      assert e[j] == w;
      AheadUnique(e, j);
    }
  }

  lemma TerminatePatience(s: Sched, root: Pid, order: seq<Pid>, w: Pid, m: int)
    requires KernelInv(s) && Callable(s, ATerminate(root, order)) && Clean(s, order)
    requires w in s.ready && w in Terminate(s, root, order).ready
    ensures Patience(Terminate(s, root, order), w, m) <= Patience(s, w, m)
  {
    var s1 := Cut(s, root, order);
    CleanCut(s, root, order);
    CutPatience(s, root, order, w, m);
    if s.running in order {
      CutLinked(s, root, order);
      MinusNoDup(s.ready, order);
      CutDispatched(s, root, order);
      NextPatience(s1, w, m);
    }
  }

  lemma CutPatience(s: Sched, root: Pid, order: seq<Pid>, w: Pid, m: int)
    requires Clean(s, order) && w in s.ready && w !in order && w < |s.pcbs| && s.running < |s.pcbs|
    ensures Patience(Cut(s, root, order), w, m) <= Patience(s, w, m)
  {
    CleanCut(s, root, order);
    CutPriorities(s, root, order);
    MinusAhead(s.ready, order, w);
  }

  lemma CutDispatched(s: Sched, root: Pid, order: seq<Pid>)
    requires Dispatched(s) && s.running != s.Idle()
    ensures Dispatched(Cut(s, root, order))
  {
    CutPriorities(s, root, order);
  }

  lemma CreatePatience(s: Sched, priority: int, w: Pid, m: int)
    requires Inv(s, None) && s.running != s.Idle() && priority <= m && w in s.ready
    ensures Patience(Create(s, priority), w, m) <= Patience(s, w, m)
  {
    if s.free != [] {
      AllocateInv(s, priority);
      assert w != s.free[0] by { assert s.free[0] in s.free && Places(s, None, w) == 1; }
      SchedulePatience(Allocate(s, priority), s.free[0], w, m);
    }
  }

  lemma PasserenPatience(s: Sched, a: int, w: Pid, m: int)
    requires Inv(s, None) && s.running != s.Idle() && a in s.sems && w in s.ready && w in Passeren(s, a).ready
    ensures Patience(Passeren(s, a), w, m) <= Patience(s, w, m)
  {
    Apart(s, None);
    if s.sems[a] - 1 < 0 { NextPatience(s, w, m); }
  }

  lemma WaitIoPatience(s: Sched, d: nat, w: Pid, m: int)
    requires Inv(s, None) && s.running != s.Idle() && d < |s.devs| && w in s.ready && w in WaitIo(s, d).ready
    ensures Patience(WaitIo(s, d), w, m) <= Patience(s, w, m)
  {
    Apart(s, None);
    NextPatience(s, w, m);
  }

  lemma SlicePatience(s: Sched, w: Pid, m: int)
    requires Inv(s, None) && Modest(s, m) && w in s.ready && w in Tick(s).ready
    ensures Patience(Tick(s), w, m) < Patience(s, w, m)
  {
    Apart(s, None);
    assert w < s.N() && s.running != s.Idle();
    assert Places(s, None, s.running) == 1;
    assert s.Live(s.running) && OriginalOk(s, s.running, m);
    TickPatience(s, w, m);
  }

  /** No step raises the patience needed, and every time slice lowers it. */
  lemma StepPatience(s: Sched, a: Action, w: Pid, m: int)
    requires KernelInv(s) && Callable(s, a) && Safe(s, a) && Modest(s, m) && ModestStep(s, a, m)
    requires w in s.ready && w in Apply(s, a).ready
    ensures Patience(Apply(s, a), w, m) <= Patience(s, w, m) - Count(a.ATick?)
  {
    hide Inv, Lists, Patience;
    match a
    case ACreate(priority) =>
      CreatePatience(s, priority, w, m);
    case ATerminate(root, order) =>
      TerminatePatience(s, root, order, w, m);
    case APasseren(addr) =>
      PasserenPatience(s, addr, w, m);
    case AVerhogen(addr) =>
      if HasWaiter(s, Cell(addr)) {
        ReleasePatience(s, Cell(addr), w, m);
      } else {
        SamePatience(s, Verhogen(s, addr), w, m);
      }
    case ATick =>
      SlicePatience(s, w, m);
    case AWaitIo(d) =>
      WaitIoPatience(s, d, w, m);
    case ADoneIo(d) =>
      DonePatience(s, d, w, m);
  }

  lemma SamePatience(s: Sched, s': Sched, w: Pid, m: int)
    requires s' == s.(sems := s'.sems)
    ensures Patience(s', w, m) == Patience(s, w, m)
  {
  }

  lemma ReleasePatience(s: Sched, k: Key, w: Pid, m: int)
    requires KernelInv(s) && HasWaiter(s, k) && Modest(s, m) && w in s.ready
    ensures Patience(ScheduleProc(Release(s, k), s.blocked[k][0]), w, m) <= Patience(s, w, m)
  {
    var s1, p := Release(s, k), s.blocked[k][0];
    ReleaseInv(s, k);
    Apart(s, None);
    assert QueueLinked(s, k, s.blocked[k]) && p in s.blocked[k];
    assert Places(s, None, w) == 1 && Places(s, None, p) == 1;
    assert s.Live(p) && OriginalOk(s, p, m);
    SchedulePatience(s1, p, w, m);
  }

  lemma DonePatience(s: Sched, d: nat, w: Pid, m: int)
    requires Inv(s, None) && d < |s.devs| && !DropsWaiter(s, d) && ModestStep(s, ADoneIo(d), m) && w in s.ready
    ensures Patience(DoneIo(s, d), w, m) <= Patience(s, w, m)
  {
    hide Inv, Linked, AllSorted, Enqueue, ScheduleProc;
    if s.devs[d].res.Some? && HasWaiter(s, Device(d)) {
      CompletePatience(s, d, w, m);
    }
  }

  lemma CompletePatience(s: Sched, d: nat, w: Pid, m: int)
    requires Inv(s, None) && d < |s.devs| && HasWaiter(s, Device(d)) && w in s.ready
    requires s.devs[d].res == Some(s.blocked[Device(d)][0]) && Prio(s.pcbs, s.blocked[Device(d)][0]) <= m
    ensures w in Complete(s, d).ready && Patience(Complete(s, d), w, m) <= Patience(s, w, m)
  {
    var k := Device(d);
    var p, s1 := s.blocked[k][0], Unblock(s, k);
    UnblockInv(s, k);
    var s2 := s1.(pcbs := Put(s1.pcbs, p, At(s1.pcbs, p).(devWList := None)));
    DeviceFieldsInv(s1, s2, Some(p));
    SchedulePatience(s2, p, w, m);
  }

  // ---- Runs --------------------------------------------------------------------------------------------------------

  function Ticks(acts: seq<Action>): nat
    decreases |acts|
  {
    if acts == [] then 0 else Count(acts[0].ATick?) + Ticks(acts[1..])
  }

  /** Along the whole run `w` stays ready, and nothing above `m` enters the ready queue. */
  ghost predicate PassedOver(s: Sched, acts: seq<Action>, w: Pid, m: int)
    requires Run(s, acts)
    decreases |acts|
  {
    w in s.ready && (acts != [] ==> ModestStep(s, acts[0], m) && PassedOver(Apply(s, acts[0]), acts[1..], w, m))
  }

  lemma {:induction false} RunPatience(s: Sched, acts: seq<Action>, w: Pid, m: int)
    requires KernelInv(s) && Run(s, acts) && Modest(s, m) && PassedOver(s, acts, w, m)
    ensures Ticks(acts) < Patience(s, w, m)
    decreases |acts|
  {
    if acts == [] {
      Apart(s, None);
    } else {
      var s' := Apply(s, acts[0]);
      StepInv(s, acts[0]);
      ModestKept(s, acts[0], m);
      RunPatience(s', acts[1..], w, m);
      assert w in s'.ready;
      StepPatience(s, acts[0], w, m);
    }
  }

  /**
   A process of priority r that is ready while one of priority R runs leaves the ready queue within
   max(0, m - r) + (max(R, m) - r) + N time slices, whatever else happens meanwhile.
   */
  lemma BoundedWaiting(s: Sched, acts: seq<Action>, w: Pid, m: int)
    requires KernelInv(s) && Run(s, acts) && Modest(s, m) && PassedOver(s, acts, w, m)
    ensures var r, top := Prio(s.pcbs, w), Prio(s.pcbs, s.running);
      Ticks(acts) < Max(0, m - r) + (Max(top, m) - r) + s.N()
  {
    RunPatience(s, acts, w, m);
    QueueShort(s, s.ready, w);
  }

  /** A process leaves the ready queue only to run or to be freed. */
  lemma LeavesReady(s: Sched, a: Action, w: Pid)
    requires KernelInv(s) && Callable(s, a) && Safe(s, a) && w in s.ready && w !in Apply(s, a).ready
    ensures Apply(s, a).running == w || (a.ATerminate? && w in a.order)
  {
    assert Places(s, None, w) == 1;
    match a
    case ACreate(priority) =>
      if s.free != [] {
        AllocateInv(s, priority);
        Apart(Allocate(s, priority), Some(s.free[0]));
        ScheduleEffect(Allocate(s, priority), s.free[0]);
      }
    case ATerminate(root, order) =>
      if w !in order { CutPlace(s, root, order, w); }
    case _ =>
      StaysRunnable(s, a, w);
  }

  /** Short of creation and termination, a ready process stays ready or runs. */
  lemma StaysRunnable(s: Sched, a: Action, w: Pid)
    requires KernelInv(s) && Callable(s, a) && Safe(s, a) && !a.ACreate? && !a.ATerminate? && w < s.N()
    requires w in s.ready || (w == s.running && !a.APasseren? && !a.AWaitIo?)
    ensures w in Apply(s, a).ready || w == Apply(s, a).running
  {
    var s', r := Apply(s, a), if a.APasseren? || a.AWaitIo? then s.running else |s.pcbs|;
    StepInv(s, a);
    StepQuiet(s, a, r);
    assert Places(s, None, w) == 1;
    assert QuietPcb(At(s.pcbs, w), At(s'.pcbs, w), w == r);
    assert Places(s', None, w) == 1;
  }
}
