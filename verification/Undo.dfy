/** What one kernel step does and another takes back. */
module Undo {
  import opened Seqs
  import opened Sched
  import opened Invariants
  import opened Steps
  import opened Devices
  import opened Runs
  import opened Forest
  import opened Removal

  /** create_process makes one process live: the last child of its caller, running if it outranks it, and ready if not. */
  lemma Created(s: Sched, priority: int)
    requires Inv(s, None) && s.running != s.Idle() && s.free != []
    ensures var s', p, up := Create(s, priority), s.free[0], s.running;
      && !s.Live(p) && (forall x: Pid :: s'.Live(x) <==> s.Live(x) || x == p)
      && At(s'.pcbs, p).parent == Some(up) && At(s'.pcbs, p).children == []
      && At(s'.pcbs, up).children == At(s.pcbs, up).children + [p]
      && Prio(s'.pcbs, p) == priority == At(s'.pcbs, p).originalPriority
      && (if priority > Prio(s.pcbs, up) then s'.running == p && up in s'.ready else s'.running == up && p in s'.ready)
  {
    var p, s1 := s.free[0], Allocate(s, priority);
    Uncons(s.free);
    Apart(s, None);
    AllocateInv(s, priority);
    Apart(s1, Some(p));
    ScheduleEffect(s1, p);
  }

  lemma BackAgain(t: seq<Pcb>, q: seq<Pid>, p: Pid)
    requires p !in q
    ensures Minus(Enqueue(t, q, p), [p]) == q
  {
    var i := Slot(Prios(t, q), Prio(t, p));
    InsertedMinus(q[..i], p, q[i..], [p]);
    assert q[..i] + q[i..] == q;
    MinusNothing(q, [p]);
  }

  lemma NobodyOut(m: map<Key, seq<Pid>>, p: Pid)
    requires forall k :: k in m ==> m[k] != [] && p !in m[k]
    ensures MinusAll(m, [p]) == m
  {
    forall k | k in m
      ensures Minus(m[k], [p]) == m[k]
    {
      MinusNothing(m[k], [p]);
    }
  }

  /**
   Terminating a child that has just been created and has not run restores every queue, the free list and the tree, unless
   its PCB kept a device pointer from its last use; then the child is ready and free at once.
   */
  lemma CreateTerminate(s: Sched, priority: int)
    requires KernelInv(s) && s.running != s.Idle() && s.free != [] && priority <= Prio(s.pcbs, s.running)
    ensures var s', p := Create(s, priority), s.free[0];
      && KernelInv(s') && Callable(s', ATerminate(p, [p]))
      && var s2 := Terminate(s', p, [p]);
        if WListOf(s, p) == None then
          && s2 == s.(pcbs := s2.pcbs, birth := s2.birth, births := s2.births)
          && forall x: Pid :: x != p ==> At(s2.pcbs, x) == At(s.pcbs, x)
        else Places(s2, None, p) == 2
  {
    hide Sound, Pointers, SoundDevice;
    var s', p := Create(s, priority), s.free[0];
    Created(s, priority);
    StepInv(s, ACreate(priority));
    OnlyItself(s', p);
    ChildPointer(s, priority);
    if WListOf(s, p) == None {
      ChildTaken(s, priority);
    } else {
      TerminateInv(s', p, [p]);
      assert p in [p] && Stray(s'.pcbs, p);
    }
  }

  lemma ChildPointer(s: Sched, priority: int)
    requires Inv(s, None) && s.running != s.Idle() && s.free != []
    ensures var s', p := Create(s, priority), s.free[0]; WListOf(s', p) == WListOf(s, p) && SemKeyOf(s', p) == None
  {
    var p, s1 := s.free[0], Allocate(s, priority);
    Uncons(s.free);
    Apart(s, None);
    AllocateInv(s, priority);
    Apart(s1, Some(p));
    ScheduleEffect(s1, p);
  }

  lemma ChildTaken(s: Sched, priority: int)
    requires Inv(s, None) && s.running != s.Idle() && s.free != [] && priority <= Prio(s.pcbs, s.running)
    requires WListOf(s, s.free[0]) == None
    ensures var s2, p := Terminate(Create(s, priority), s.free[0], [s.free[0]]), s.free[0];
      && s2 == s.(pcbs := s2.pcbs, birth := s2.birth, births := s2.births)
      && forall x: Pid :: x != p ==> At(s2.pcbs, x) == At(s.pcbs, x)
  {
    var s', p := Create(s, priority), s.free[0];
    ChildPointer(s, priority);
    assert Clean(s', [p]);
    CleanCut(s', p, [p]);
    Uncons(s.free);
    assert Places(s, None, p) == 1;
    BackAgain(s'.pcbs, s.ready, p);
    forall k | k in s.blocked
      ensures s.blocked[k] != [] && p !in s.blocked[k]
    {
      assert QueueLinked(s, k, s.blocked[k]);
    }
    NobodyOut(s.blocked, p);
    ChildDropped(s, priority);
  }

  lemma ChildDropped(s: Sched, priority: int)
    requires Inv(s, None) && s.running != s.Idle() && s.free != [] && priority <= Prio(s.pcbs, s.running)
    ensures var t, p := Pruned(Create(s, priority).pcbs, s.free[0], [s.free[0]]), s.free[0];
      forall x: Pid :: x != p ==> At(t, x) == At(s.pcbs, x)
  {
    var s', p, up := Create(s, priority), s.free[0], s.running;
    var kids := At(s.pcbs, up).children;
    Uncons(s.free);
    Apart(s, None);
    assert KidsOk(s, up) && p !in kids;
    AppendedOut(kids, p);
    forall x: Pid | x != p
      ensures At(Pruned(s'.pcbs, p, [p]), x) == At(s.pcbs, x)
    {
      assert x < |s.pcbs| ==> At(Pruned(s'.pcbs, p, [p]), x) == PrunedPcb(s'.pcbs, p, [p], x);
    }
  }

  lemma {:induction false} AppendedOut(q: seq<Pid>, p: Pid)
    requires p !in q
    ensures Without(q + [p], p) == q
  {
    if q == [] {
      assert [p][1..] == [];
    } else {
      assert (q + [p])[1..] == q[1..] + [p];
      AppendedOut(q[1..], p);
    }
  }
}
