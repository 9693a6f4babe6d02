/** Every kernel step keeps the scheduler invariant. */
module Steps {
  import opened Seqs
  import opened Sched
  import opened Invariants

  // ---- Termination of a subtree ------------------------------------------------------------------------------------

  lemma {:induction false} MinusSorted(t: seq<Pcb>, q: seq<Pid>, out: seq<Pid>)
    requires Sorted(t, q)
    ensures Sorted(t, Minus(q, out))
  {
    if q != [] {
      SortedTail(t, q);
      MinusSorted(t, q[1..], out);
      if q[0] !in out {
        var r := Minus(q[1..], out);
        forall i, j | 0 <= i < j < |[q[0]] + r|
          ensures Prio(t, ([q[0]] + r)[i]) >= Prio(t, ([q[0]] + r)[j])
        {
          assert ([q[0]] + r)[j] == r[j - 1] && r[j - 1] in r;
        }
      }
    }
  }

  /** Nobody in `order` is off every semaphore with a pointer into a device list. */
  ghost predicate Clean(s: Sched, order: seq<Pid>) {
    forall x :: x in order ==> SemKeyOf(s, x).Some? || At(s.pcbs, x).devWList == None
  }

  lemma {:induction false} AllLeave(t: seq<Pcb>, order: seq<Pid>)
    requires forall x :: x in order ==> !Stray(t, x)
    ensures Leaving(t, order) == order
  {
    if order != [] { AllLeave(t, order[1..]); }
  }

  /** Then everybody is dequeued, and no device list is written to. */
  lemma CleanCut(s: Sched, root: Pid, order: seq<Pid>)
    requires Clean(s, order)
    ensures Leaving(s.pcbs, order) == order && Disowned(s.devs, s.pcbs, order) == s.devs
    ensures Cut(s, root, order) == s.(pcbs := Pruned(s.pcbs, root, order), free := order + s.free,
                                      ready := Minus(s.ready, order), blocked := MinusAll(s.blocked, order))
  {
    AllLeave(s.pcbs, order);
  }

  lemma CutTree(s: Sched, root: Pid, order: seq<Pid>)
    requires Inv(s, None) && s.Live(root) && Lists(order, s, root)
    ensures TreeOk(Cut(s, root, order))
  {
    var s' := Cut(s, root, order);
    assert forall x: Pid :: x < |s.pcbs| ==> At(s'.pcbs, x) == PrunedPcb(s.pcbs, root, order, x);
    assert Below(s, root, root);
    forall x: Pid | s'.Live(x)
      ensures UpOk(s', x) && KidsOk(s', x) && Stamp(s', x) < s'.births
    {
      assert s.Live(x) && x !in order;
      assert UpOk(s, x) && KidsOk(s, x);
      var kids := At(s.pcbs, x).children;
      if At(s.pcbs, x).parent.Some? {
        var up := At(s.pcbs, x).parent.value;
        assert s.Live(up) && KidsOk(s, up) && up !in order;
        WithoutProps(At(s.pcbs, up).children, root);
      }
      WithoutProps(kids, root);
      forall c | c in At(s'.pcbs, x).children
        ensures s'.Live(c) && At(s'.pcbs, c).parent == Some(x)
      {
        assert c in kids && s.Live(c) && UpOk(s, c);
        assert c != root;
        assert !Below(s, x, root);
        assert c !in order;
      }
    }
  }

  lemma CutPriorities(s: Sched, root: Pid, order: seq<Pid>)
    ensures forall x: Pid :: x < |s.pcbs| ==> Prio(Cut(s, root, order).pcbs, x) == Prio(s.pcbs, x)
  {
    forall x: Pid | x < |s.pcbs|
      ensures Prio(Cut(s, root, order).pcbs, x) == Prio(s.pcbs, x)
    {
      assert At(Cut(s, root, order).pcbs, x) == PrunedPcb(s.pcbs, root, order, x);
    }
  }

  lemma CutQueue(s: Sched, root: Pid, order: seq<Pid>, k: Key)
    requires Inv(s, None) && k in MinusAll(s.blocked, order)
    ensures var s' := Cut(s, root, order);
      QueueLinked(s', k, s'.blocked[k]) && Sorted(s'.pcbs, s'.blocked[k]) && Usable(s', k)
  {
    var s', q := Cut(s, root, order), s.blocked[k];
    assert QueueLinked(s, k, q) && Usable(s, k);
    MinusNoDup(q, order);
    MinusSorted(s.pcbs, q, order);
    CutPriorities(s, root, order);
    SortedFrame(s.pcbs, s'.pcbs, Minus(q, order));
    forall x | x in Minus(q, order)
      ensures SemKeyOf(s', x) == Some(k)
    {
      assert At(s'.pcbs, x) == PrunedPcb(s.pcbs, root, order, x);
    }
  }

  lemma CutLinked(s: Sched, root: Pid, order: seq<Pid>)
    requires Inv(s, None) && s.Live(root) && Lists(order, s, root)
    ensures Linked(Cut(s, root, order)) && AllSorted(Cut(s, root, order)) && SemsOk(Cut(s, root, order))
  {
    hide TreeOk, Dispatched, QueueLinked, Below;
    var s' := Cut(s, root, order);
    forall k | k in s'.blocked
      ensures QueueLinked(s', k, s'.blocked[k]) && Sorted(s'.pcbs, s'.blocked[k]) && Usable(s', k)
    {
      CutQueue(s, root, order, k);
    }
    forall x: Pid | x < |s'.pcbs|
      ensures KeyLinked(s', x)
    {
      assert KeyLinked(s, x);
      assert At(s'.pcbs, x) == PrunedPcb(s.pcbs, root, order, x);
    }
    CutPriorities(s, root, order);
    MinusSorted(s.pcbs, s.ready, Leaving(s.pcbs, order));
    SortedFrame(s.pcbs, s'.pcbs, s'.ready);
  }

  /** A list of live processes without repetition, such as the listing of a subtree. */
  ghost predicate Alive(s: Sched, order: seq<Pid>) {
    NoDup(order) && forall x :: x in order ==> s.Live(x)
  }

  lemma CutPlace(s: Sched, root: Pid, order: seq<Pid>, x: Pid)
    requires Alive(s, order) && x < |s.pcbs|
    ensures var s1 := Cut(s, root, order);
      if x in order then
        x !in s.free && x in s1.free && (x in s1.ready <==> x in s.ready && Stray(s.pcbs, x)) && SemKeyOf(s1, x) == None
      else (x in s1.free <==> x in s.free) && (x in s1.ready <==> x in s.ready) && SemKeyOf(s1, x) == SemKeyOf(s, x)
  {
    assert At(Cut(s, root, order).pcbs, x) == PrunedPcb(s.pcbs, root, order, x);
    assert x in order ==> s.Live(x);
  }

  lemma CutFree(s: Sched, order: seq<Pid>)
    requires Alive(s, order) && NoDup(s.free) && forall x :: x in s.free ==> x < s.N()
    ensures NoDup(order + s.free) && forall x :: x in order + s.free ==> x < s.N()
  {
    forall p | p in s.free
      ensures p !in order
    {
      assert !s.Live(p);
    }
    NoDupConcat(order, s.free);
  }

  /** Where the next process is chosen, the queue loses its first. */
  lemma TerminateReady(s: Sched, root: Pid, order: seq<Pid>)
    requires NoDup(s.ready)
    ensures var s1, s' := Cut(s, root, order), Terminate(s, root, order);
      && NoDup(s1.ready) && NoDup(s'.ready)
      && (if s.running !in Leaving(s.pcbs, order) then s'.running == s.running && s'.ready == s1.ready
          else if s1.ready == [] then s'.running == s'.Idle() && s'.ready == []
          else s'.running !in s'.ready && forall x :: x in s1.ready <==> x in s'.ready || x == s'.running)
  {
    var q := Minus(s.ready, Leaving(s.pcbs, order));
    MinusNoDup(s.ready, Leaving(s.pcbs, order));
    if q != [] { Uncons(q); }
  }

  /** After termination everybody is in one place, but for the strays, which are in two: freed, and where they were. */
  lemma TerminatePlace(s: Sched, root: Pid, order: seq<Pid>, x: Pid)
    requires Shape(s) && Conserved(s, None) && Alive(s, order) && x < s.N()
    ensures Places(Terminate(s, root, order), None, x) == 1 + Count(x in order && Stray(s.pcbs, x))
  {
    assert Places(s, None, x) == 1;
    assert s.running < s.N() ==> Places(s, None, s.running) == 1;
    CutPlace(s, root, order, x);
    TerminateReady(s, root, order);
  }

  lemma TerminateListed(s: Sched, root: Pid, order: seq<Pid>)
    requires Shape(s) && Listed(s, None) && Alive(s, order)
    ensures Listed(Terminate(s, root, order), None)
  {
    CutFree(s, order);
    TerminateReady(s, root, order);
    assert At(Cut(s, root, order).pcbs, s.Idle()) == PrunedPcb(s.pcbs, root, order, s.Idle());
  }

  lemma TerminateConserved(s: Sched, root: Pid, order: seq<Pid>)
    requires Shape(s) && Conserved(s, None) && Alive(s, order)
    ensures Conserved(Terminate(s, root, order), None) <==> Clean(s, order)
  {
    TerminateListed(s, root, order);
    if Clean(s, order) {
      forall x: Pid | x < s.N()
        ensures Places(Terminate(s, root, order), None, x) == 1
      {
        TerminatePlace(s, root, order, x);
      }
    } else {
      var x :| x in order && Stray(s.pcbs, x);
      TerminatePlace(s, root, order, x);
    }
  }

  /**
   Termination keeps the invariant exactly when everybody in the subtree is on a semaphore or has no pointer into a device
   list; otherwise each process for which that fails ends up in two places.
   */
  lemma TerminateInv(s: Sched, root: Pid, order: seq<Pid>)
    requires Inv(s, None) && Callable(s, ATerminate(root, order))
    ensures Inv(Terminate(s, root, order), None) <==>
      forall x :: x in order ==> SemKeyOf(s, x).Some? || At(s.pcbs, x).devWList == None
    ensures forall x :: x in order && Stray(s.pcbs, x) ==> Places(Terminate(s, root, order), None, x) == 2
  {
    assert Alive(s, order);
    TerminateConserved(s, root, order);
    if Clean(s, order) {
      TerminateLinks(s, root, order);
      TerminateRest(s, root, order);
    }
    forall x | x in order && Stray(s.pcbs, x)
      ensures Places(Terminate(s, root, order), None, x) == 2
    {
      TerminatePlace(s, root, order, x);
    }
  }

  lemma TerminateLinks(s: Sched, root: Pid, order: seq<Pid>)
    requires Inv(s, None) && s.Live(root) && Lists(order, s, root)
    ensures Linked(Terminate(s, root, order)) && TreeOk(Terminate(s, root, order))
    ensures AllSorted(Cut(s, root, order)) && SemsOk(Cut(s, root, order))
  {
    hide Inv, TreeOk, Cut;
    var s1, s' := Cut(s, root, order), Terminate(s, root, order);
    CutTree(s, root, order);
    CutLinked(s, root, order);
    TreeFrame(s1, s');
    LinkFrame(s1, s');
  }

  lemma TerminateRest(s: Sched, root: Pid, order: seq<Pid>)
    requires Inv(s, None) && s.running != s.Idle() && AllSorted(Cut(s, root, order)) && SemsOk(Cut(s, root, order))
    ensures var s' := Terminate(s, root, order);
      Shape(s') && AllSorted(s') && Aging(s') && SemsOk(s') && Dispatched(s')
  {
    var s1, s' := Cut(s, root, order), Terminate(s, root, order);
    CutPriorities(s, root, order);
    CutAging(s, root, order);
    if s1.ready != [] {
      SortedTail(s1.pcbs, s1.ready);
      assert s1.ready[0] in s1.ready;
    }
    forall k | k in s'.blocked
      ensures Usable(s', k)
    {
      assert Usable(s1, k);
    }
  }

  lemma CutAging(s: Sched, root: Pid, order: seq<Pid>)
    requires Aging(s)
    ensures Aging(Cut(s, root, order))
  {
    forall x: Pid | x < |s.pcbs|
      ensures PrioOk(At(Cut(s, root, order).pcbs, x))
    {
      assert PrioOk(At(s.pcbs, x));
      assert At(Cut(s, root, order).pcbs, x) == PrunedPcb(s.pcbs, root, order, x);
    }
  }

  // ---- The other steps ---------------------------------------------------------------------------------------------

  lemma CreateInv(s: Sched, priority: int)
    requires Inv(s, None) && s.running != s.Idle()
    ensures Inv(Create(s, priority), None)
  {
    if s.free != [] {
      AllocateInv(s, priority);
      ScheduleInv(Allocate(s, priority), s.free[0]);
    }
  }

  lemma PasserenInv(s: Sched, a: int)
    requires Inv(s, None) && s.running != s.Idle() && a in s.sems
    ensures Inv(Passeren(s, a), None)
  {
    var s' := Passeren(s, a);
    if s.sems[a] - 1 < 0 {
      RunNextInv(s);
      BlockInv(RunNext(s), Cell(a), s.running);
    } else {
      assert Cell(a) in s.blocked ==> Usable(s, Cell(a));
      SemsFrame(s, s', a);
    }
  }

  lemma SemsFrame(s: Sched, s': Sched, a: int)
    requires Inv(s, None) && a in s.sems && Cell(a) !in s.blocked
    requires a in s'.sems && s' == s.(sems := s.sems[a := s'.sems[a]]) && s'.sems[a] >= 0
    ensures Inv(s', None)
  {
    forall x: Pid | x < s'.N()
      ensures Places(s', None, x) == 1
    {
      assert Places(s, None, x) == 1;
    }
    LinkFrame(s, s');
    TreeFrame(s, s');
    forall k | k in s'.blocked
      ensures Usable(s', k)
    {
      assert Usable(s, k);
    }
  }

  lemma VerhogenInv(s: Sched, a: int)
    requires Inv(s, None) && a in s.sems
    ensures Inv(Verhogen(s, a), None)
  {
    if HasWaiter(s, Cell(a)) {
      ReleaseInv(s, Cell(a));
      ScheduleInv(Release(s, Cell(a)), s.blocked[Cell(a)][0]);
    } else {
      assert Cell(a) in s.blocked ==> QueueLinked(s, Cell(a), s.blocked[Cell(a)]);
      SemsFrame(s, Verhogen(s, a), a);
    }
  }
}
