/** What each kernel step does, process by process and field by field, in terms of the states before and after alone. */
module Effects {
  import opened Seqs
  import opened Sched
  import opened Invariants
  import opened Devices
  import opened Forest

  // ---- Joining a queue ---------------------------------------------------------------------------------------------

  /** `q'` is `q` with `p` put in: behind everybody not lower, and in front of everybody lower. */
  ghost predicate Joins(t: seq<Pcb>, q: seq<Pid>, q': seq<Pid>, p: Pid) {
    exists i :: 0 <= i <= |q| && JoinsAt(t, q, q', p, i)
  }

  ghost predicate JoinsAt(t: seq<Pcb>, q: seq<Pid>, q': seq<Pid>, p: Pid, i: nat)
    requires i <= |q|
  {
    && q' == q[..i] + [p] + q[i..]
    && (forall w :: w in q[..i] ==> Prio(t, w) >= Prio(t, p))
    && (forall w :: w in q[i..] ==> Prio(t, w) < Prio(t, p))
  }

  lemma EnqueueJoins(t: seq<Pcb>, q: seq<Pid>, p: Pid)
    requires Sorted(t, q)
    ensures Joins(t, q, Enqueue(t, q, p), p)
  {
    var ps := Prios(t, q);
    var i := Slot(ps, Prio(t, p));
    assert forall j :: 0 <= j < i ==> ps[j] == Prio(t, q[j]);
    assert i < |q| ==> ps[i] == Prio(t, q[i]);
    hide Slot, Prios;
    assert JoinsAt(t, q, Enqueue(t, q, p), p, i);
  }

  /** Where a process goes that becomes runnable: it runs if it is higher than the running one, or waits its turn. */
  lemma Scheduled(s: Sched, p: Pid)
    requires Shape(s) && Sorted(s.pcbs, s.ready) && s.running !in s.ready && p != s.running
    ensures var s', r := ScheduleProc(s, p), s.running;
      var first := Prio(s.pcbs, p) > Prio(s.pcbs, r) || r == s.Idle();
      && s' == s.(pcbs := s'.pcbs, ready := s'.ready, running := if first then p else r)
      && (if first && r == s.Idle() then s'.ready == s.ready
          else Joins(s'.pcbs, s.ready, s'.ready, if first then r else p))
      && |s'.pcbs| == |s.pcbs|
      && forall x: Pid :: At(s'.pcbs, x) ==
           if first && x == r && r != s.Idle() then At(s.pcbs, x).(priority := At(s.pcbs, x).originalPriority)
           else At(s.pcbs, x)
  {
    hide Enqueue, Joins;
    var r := At(s.pcbs, s.running);
    var t := Put(s.pcbs, s.running, r.(priority := r.originalPriority));
    SortedFrame(s.pcbs, t, s.ready);
    EnqueueJoins(t, s.ready, s.running);
    EnqueueJoins(s.pcbs, s.ready, p);
  }

  // ---- v -----------------------------------------------------------------------------------------------------------

  /** `v` with nobody waiting counts, and does nothing else. */
  lemma VerhogenCounts(s: Sched, a: int)
    requires Inv(s, None) && a in s.sems && QueueOf(s.blocked, Cell(a)) == []
    ensures Verhogen(s, a) == s.(sems := s.sems[a := s.sems[a] + 1])
  {
  }

  /** The state between taking the first waiter off and scheduling it. */
  lemma Released(s: Sched, a: int)
    requires Inv(s, None) && a in s.sems && QueueOf(s.blocked, Cell(a)) != []
    ensures HasWaiter(s, Cell(a))
    ensures var s1, q := Release(s, Cell(a)), QueueOf(s.blocked, Cell(a));
      && Shape(s1) && Sorted(s1.pcbs, s1.ready) && s1.running !in s1.ready && q[0] != s1.running
      && |s1.pcbs| == |s.pcbs| && s1 == s.(pcbs := s1.pcbs, blocked := s1.blocked)
      && s.running !in q && q[0] < |s.pcbs|
      && (forall k :: QueueOf(s1.blocked, k) == if k == Cell(a) then q[1..] else QueueOf(s.blocked, k))
      && (forall x: Pid :: x < |s.pcbs| ==>
           At(s1.pcbs, x) == At(s.pcbs, x).(semKey := if x == q[0] then None else At(s.pcbs, x).semKey,
             priority := if x == q[0] then At(s.pcbs, x).originalPriority
                         else if x in q then Prio(s.pcbs, x) + 1
                         else Prio(s.pcbs, x)))
  {
    hide TreeOk, AllSorted, Aging;
    var k, s1 := Cell(a), Release(s, Cell(a));
    var q := s.blocked[k];
    assert QueueLinked(s, k, q);
    Uncons(q);
    Apart(s, None);
    assert SemKeyOf(s, q[0]) == Some(k);
    ReadyAside(s, k, q);
    ReadySorted(s);
    SortedFrame(s.pcbs, s1.pcbs, s.ready);
  }

  lemma ReadySorted(s: Sched)
    requires AllSorted(s)
    ensures Sorted(s.pcbs, s.ready)
  {
  }

  lemma ReadyAside(s: Sched, k: Key, q: seq<Pid>)
    requires Conserved(s, None) && QueueLinked(s, k, q)
    ensures forall x :: x in s.ready ==> x !in q
  {
    forall x | x in s.ready
      ensures x !in q
    {
      assert Places(s, None, x) == 1;
    }
  }

  /**
   `v` with somebody waiting wakes the first: it comes off with its original priority, each of the others on the semaphore
   gains exactly 1, a process it takes over from falls back to its original priority, and nobody else's changes.
   */
  lemma VerhogenWakes(s: Sched, a: int)
    requires Inv(s, None) && a in s.sems && QueueOf(s.blocked, Cell(a)) != []
    ensures var s', q, r := Verhogen(s, a), QueueOf(s.blocked, Cell(a)), s.running;
      var p := q[0];
      var first := At(s.pcbs, p).originalPriority > Prio(s.pcbs, r) || r == s.Idle();
      && s' == s.(pcbs := s'.pcbs, ready := s'.ready, blocked := s'.blocked, running := if first then p else r)
      && (if first && r == s.Idle() then s'.ready == s.ready
          else Joins(s'.pcbs, s.ready, s'.ready, if first then r else p))
      && (forall k :: QueueOf(s'.blocked, k) == if k == Cell(a) then q[1..] else QueueOf(s.blocked, k))
      && (forall x: Pid :: x < |s.pcbs| ==>
           At(s'.pcbs, x) == At(s.pcbs, x).(semKey := if x == p then None else At(s.pcbs, x).semKey,
             priority := if x == p || (first && x == r && r != s.Idle()) then At(s.pcbs, x).originalPriority
                         else if x in q then Prio(s.pcbs, x) + 1
                         else Prio(s.pcbs, x)))
  {
    hide Inv, Joins, Enqueue, Sorted, ScheduleProc;
    Released(s, a);
    hide Release;
    Scheduled(Release(s, Cell(a)), s.blocked[Cell(a)][0]);
  }

  // ---- The end of a slice ------------------------------------------------------------------------------------------

  /**
   At the end of a slice every ready process gains exactly 1. If the first of them then is not below the running process it
   takes over, and the loser goes back to its original priority and joins the others; nothing else changes.
   */
  lemma SliceEffect(s: Sched)
    requires Inv(s, None)
    ensures var s', r := Tick(s), s.running;
      var swap := s.ready != [] && Prio(s.pcbs, s.ready[0]) + 1 >= Prio(s.pcbs, r);
      && s' == s.(pcbs := s'.pcbs, ready := s'.ready, running := if swap then s.ready[0] else r)
      && (if swap then Joins(s'.pcbs, s.ready[1..], s'.ready, r) else s'.ready == s.ready)
      && (forall x: Pid :: x < |s.pcbs| ==>
           At(s'.pcbs, x) == At(s.pcbs, x).(
             priority := if swap && x == r then At(s.pcbs, x).originalPriority
                         else if x in s.ready then Prio(s.pcbs, x) + 1
                         else Prio(s.pcbs, x)))
  {
    hide Inv, Joins, Enqueue;
    SliceLoser(s);
  }

  lemma SliceLoser(s: Sched)
    requires Inv(s, None)
    ensures s.running !in s.ready && s.running < |s.pcbs|
    ensures s.ready != [] ==>
      var t := Age(s.pcbs, s.ready);
      var t' := Put(t, s.running, At(t, s.running).(priority := At(t, s.running).originalPriority));
      && s.ready[0] in s.ready && s.ready[0] < |s.pcbs| && s.running != s.Idle()
      && Joins(t', s.ready[1..], Enqueue(t', s.ready[1..], s.running), s.running)
  {
    hide Joins, Enqueue, Places;
    Apart(s, None);
    AgeReadyInv(s);
    if s.ready != [] {
      var t := Age(s.pcbs, s.ready);
      var t' := Put(t, s.running, At(t, s.running).(priority := At(t, s.running).originalPriority));
      assert s.ready[0] in s.ready;
      SortedTail(t, s.ready);
      assert forall x :: x in s.ready[1..] ==> x in s.ready;
      SortedFrame(t, t', s.ready[1..]);
      EnqueueJoins(t', s.ready[1..], s.running);
    }
  }

  // ---- p -----------------------------------------------------------------------------------------------------------

  /** The caller goes to sleep on `k`, behind everybody not lower, and the first ready process runs, or idle. */
  ghost predicate Sleeps(s: Sched, s': Sched, k: Key) {
    var r := s.running;
    && (if s.ready == [] then s'.running == s.Idle() && s'.ready == [] else [s'.running] + s'.ready == s.ready)
    && SemKeyOf(s', r) == Some(k) && Joins(s.pcbs, QueueOf(s.blocked, k), QueueOf(s'.blocked, k), r)
    && s'.free == s.free && s'.sems == s.sems && |s'.pcbs| == |s.pcbs|
    && (forall l :: l != k ==> QueueOf(s'.blocked, l) == QueueOf(s.blocked, l))
    && (forall x: Pid :: x != r ==> At(s'.pcbs, x) == At(s.pcbs, x))
  }

  /** `p` takes a unit if there is one; otherwise its caller sleeps, and keeps everything it has. */
  lemma PasserenEffect(s: Sched, a: int)
    requires Inv(s, None) && a in s.sems && s.running != s.Idle()
    ensures var s', r := Passeren(s, a), s.running;
      if s.sems[a] > 0 then s' == s.(sems := s.sems[a := s.sems[a] - 1])
      else
        && s.sems[a] == 0 && Sleeps(s, s', Cell(a)) && s'.devs == s.devs
        && At(s'.pcbs, r) == At(s.pcbs, r).(semKey := Some(Cell(a)))
  {
    hide Joins, Enqueue;
    QueueSorted(s, Cell(a));
    EnqueueJoins(s.pcbs, QueueOf(s.blocked, Cell(a)), s.running);
  }

  lemma QueueSorted(s: Sched, k: Key)
    requires AllSorted(s)
    ensures Sorted(s.pcbs, QueueOf(s.blocked, k))
  {
  }

  // ---- wait_io -----------------------------------------------------------------------------------------------------

  /** A caller of wait_io sleeps on the device; if the device is free it is recorded as served, both ways. */
  lemma WaitIoEffect(s: Sched, d: nat)
    requires Inv(s, None) && Sound(s) && d < |s.devs| && s.running != s.Idle()
    ensures var s', r, busy := WaitIo(s, d), s.running, s.devs[d].cmdSem == 0;
      && Sleeps(s, s', Device(d))
      && s'.devs == (if busy then s.devs else s.devs[d := DevWList(0, Some(r))])
      && At(s'.pcbs, r) == At(s.pcbs, r).(semKey := Some(Device(d)),
           devWList := if busy then At(s.pcbs, r).devWList else Some(d))
  {
    hide Joins, Enqueue;
    assert SoundDevice(s, d, s.devs[d]);
    QueueSorted(s, Device(d));
    EnqueueJoins(s.pcbs, QueueOf(s.blocked, Device(d)), s.running);
    if s.devs[d].cmdSem == 1 { AloneJoins(s.pcbs, QueueOf(s.blocked, Device(d)), s.running); }
  }

  lemma AloneJoins(t: seq<Pcb>, q: seq<Pid>, p: Pid)
    requires q == []
    ensures q + [p] == [p] && Joins(t, q, q + [p], p)
  {
    assert JoinsAt(t, q, [p], p, 0);
  }

  // ---- done_io -----------------------------------------------------------------------------------------------------

  /** A completion that nobody waits for does nothing. */
  lemma CompletionIgnored(s: Sched, d: nat)
    requires d < |s.devs| && s.devs[d].res == None
    ensures DoneIo(s, d) == s
  {
  }

  /**
   A completion lets the first of the device's queue become runnable at the priority it has, ends its being served, and
   serves the next; nobody gains priority.
   */
  lemma CompletionEffect(s: Sched, d: nat)
    requires Inv(s, None) && Completes(s, d)
    ensures var s', q, r := DoneIo(s, d), QueueOf(s.blocked, Device(d)), s.running;
      var p, next := q[0], if |q| > 1 then Some(q[1]) else None;
      var first := Prio(s.pcbs, p) > Prio(s.pcbs, r) || r == s.Idle();
      && s' == s.(pcbs := s'.pcbs, ready := s'.ready, blocked := s'.blocked, running := if first then p else r,
                  devs := s.devs[d := if next.Some? then DevWList(s.devs[d].cmdSem, next)
                                      else DevWList(s.devs[d].cmdSem + 1, None)])
      && (if first && r == s.Idle() then s'.ready == s.ready
          else Joins(s'.pcbs, s.ready, s'.ready, if first then r else p))
      && (forall k :: QueueOf(s'.blocked, k) == if k == Device(d) then q[1..] else QueueOf(s.blocked, k))
      && (forall x: Pid :: x < |s.pcbs| ==>
           At(s'.pcbs, x) == At(s.pcbs, x).(semKey := if x == p then None else At(s.pcbs, x).semKey,
             devWList := if x == p then None else if Some(x) == next then Some(d) else At(s.pcbs, x).devWList,
             priority := if first && x == r && r != s.Idle() then At(s.pcbs, x).originalPriority else Prio(s.pcbs, x)))
  {
    hide Inv, Joins, Enqueue, Sorted, ScheduleProc;
    Dequeued(s, d);
    var k, p, s1 := Device(d), s.blocked[Device(d)][0], Unblock(s, Device(d));
    var s2 := s1.(pcbs := Put(s1.pcbs, p, At(s1.pcbs, p).(devWList := None)));
    Scheduled(s2, p);
    JoinsPriorities(ScheduleProc(s2, p).pcbs, DoneIo(s, d).pcbs, s2.ready, ScheduleProc(s2, p).ready,
      if Prio(s.pcbs, p) > Prio(s.pcbs, s.running) then s.running else p);
  }

  /** With nobody left in the queue, a completion frees the device and does nothing else. */
  lemma CompletionFrees(s: Sched, d: nat)
    requires Linked(s) && d < |s.devs| && s.devs[d].res.Some? && QueueOf(s.blocked, Device(d)) == []
    ensures DoneIo(s, d) == s.(devs := s.devs[d := DevWList(s.devs[d].cmdSem + 1, None)])
  {
    assert Device(d) in s.blocked ==> QueueLinked(s, Device(d), s.blocked[Device(d)]);
    NobodyLeft(s, d);
  }

  /** With another process than the one served at the head, that head comes off and goes nowhere; the next is served. */
  lemma CompletionDrops(s: Sched, d: nat)
    requires Inv(s, None) && d < |s.devs| && DropsWaiter(s, d)
    ensures var s', q := DoneIo(s, d), QueueOf(s.blocked, Device(d));
      var p, next := q[0], if |q| > 1 then Some(q[1]) else None;
      && s' == s.(pcbs := s'.pcbs, blocked := s'.blocked,
                  devs := s.devs[d := if next.Some? then DevWList(s.devs[d].cmdSem, next)
                                      else DevWList(s.devs[d].cmdSem + 1, None)])
      && (forall k :: QueueOf(s'.blocked, k) == if k == Device(d) then q[1..] else QueueOf(s.blocked, k))
      && (forall x: Pid :: x < |s.pcbs| ==>
           At(s'.pcbs, x) == At(s.pcbs, x).(semKey := if x == p then None else At(s.pcbs, x).semKey,
             devWList := if Some(x) == next then Some(d) else At(s.pcbs, x).devWList))
  {
    hide Conserved, TreeOk, AllSorted, Aging, Dispatched;
    var q := s.blocked[Device(d)];
    assert QueueLinked(s, Device(d), q);
    Uncons(q);
    assert |q| > 1 ==> q[1] in q && q[1..][0] == q[1];
  }

  /** Joining a queue depends on priorities alone. */
  lemma JoinsPriorities(t: seq<Pcb>, t': seq<Pcb>, q: seq<Pid>, q': seq<Pid>, p: Pid)
    requires forall x: Pid :: Prio(t', x) == Prio(t, x)
    ensures Joins(t, q, q', p) <==> Joins(t', q, q', p)
  {
    forall i | 0 <= i <= |q|
      ensures JoinsAt(t, q, q', p, i) <==> JoinsAt(t', q, q', p, i)
    {
    }
  }

  lemma Dequeued(s: Sched, d: nat)
    requires Inv(s, None) && Completes(s, d)
    ensures HasWaiter(s, Device(d))
    ensures var q, s1 := QueueOf(s.blocked, Device(d)), Unblock(s, Device(d));
      var s2 := s1.(pcbs := Put(s1.pcbs, q[0], At(s1.pcbs, q[0]).(devWList := None)));
      && Shape(s2) && Sorted(s2.pcbs, s2.ready) && s2.running !in s2.ready && q[0] != s2.running && q[0] < |s.pcbs|
      && (|q| > 1 ==> q[1] != q[0] && q[1] < |s.pcbs| && q[1] != s.running && q[1..] != [] && q[1..][0] == q[1])
      && (forall k :: QueueOf(s2.blocked, k) == if k == Device(d) then q[1..] else QueueOf(s.blocked, k))
      && (HasWaiter(s2, Device(d)) <==> |q| > 1)
  {
    hide TreeOk, AllSorted, Aging;
    var q, s1 := s.blocked[Device(d)], Unblock(s, Device(d));
    assert QueueLinked(s, Device(d), q);
    Uncons(q);
    Apart(s, None);
    assert |q| > 1 ==> q[1] in q;
    ReadySorted(s);
    SortedFrame(s.pcbs, Put(s1.pcbs, q[0], At(s1.pcbs, q[0]).(devWList := None)), s.ready);
  }

  // ---- create_process ----------------------------------------------------------------------------------------------

  lemma CreationRefused(s: Sched, priority: int)
    requires s.free == []
    ensures Create(s, priority) == s
  {
  }

  /** A new process takes the first free PCB, without semaphore and children; its parent gets it as last child. */
  lemma CreationEffect(s: Sched, priority: int)
    requires Inv(s, None) && s.running != s.Idle() && s.free != []
    ensures var s', p, r := Create(s, priority), s.free[0], s.running;
      var first := priority > Prio(s.pcbs, r);
      && s' == s.(pcbs := s'.pcbs, ready := s'.ready, free := s.free[1..], running := if first then p else r,
                  birth := s'.birth, births := s'.births)
      && Joins(s'.pcbs, s.ready, s'.ready, if first then r else p)
      && At(s'.pcbs, p) == Pcb(Some(r), [], priority, priority, None, At(s.pcbs, p).devWList)
      && At(s'.pcbs, r) == At(s.pcbs, r).(children := At(s.pcbs, r).children + [p],
           priority := if first then At(s.pcbs, r).originalPriority else Prio(s.pcbs, r))
      && (forall x: Pid :: x != p && x != r ==> At(s'.pcbs, x) == At(s.pcbs, x))
  {
    hide Joins, Enqueue, Sorted, TreeOk, Linked;
    var s1, p := Allocate(s, priority), s.free[0];
    Uncons(s.free);
    Apart(s, None);
    assert p in s.free && p < |s.pcbs|;
    ReadySorted(s);
    FreeAside(s, p);
    SortedFrame(s.pcbs, s1.pcbs, s.ready);
    Scheduled(s1, p);
  }

  lemma FreeAside(s: Sched, p: Pid)
    requires Conserved(s, None) && p in s.free
    ensures p !in s.ready
  {
    assert Places(s, None, p) == 1;
  }

  // ---- terminate_proc ----------------------------------------------------------------------------------------------

  /** Survivors keep everything; only the parent of the root loses it from its children. Units and counts stay. */
  lemma TerminationSpares(s: Sched, root: Pid, order: seq<Pid>)
    requires Inv(s, None) && Callable(s, ATerminate(root, order))
    ensures var s' := Terminate(s, root, order);
      && |s'.pcbs| == |s.pcbs| && s'.sems == s.sems && |s'.free| == |s.free| + |order|
      && s'.free[|order|..] == s.free
      && (forall x: Pid :: x < |s.pcbs| && !Under(s, x, root) ==>
           At(s'.pcbs, x) == At(s.pcbs, x).(
             children := if At(s.pcbs, root).parent == Some(x) then Without(At(s.pcbs, x).children, root)
                         else At(s.pcbs, x).children))
      && (forall d: nat :: d < |s.devs| ==>
           s'.devs[d] == if exists x :: x in order && SemKeyOf(s, x) == None && WListOf(s, x) == Some(d)
                         then DevWList(s.devs[d].cmdSem, None) else s.devs[d])
  {
    var s1 := Cut(s, root, order);
    forall x: Pid | x < |s.pcbs| && !Under(s, x, root)
      ensures At(s1.pcbs, x) == At(s.pcbs, x).(
             children := if At(s.pcbs, root).parent == Some(x) then Without(At(s.pcbs, x).children, root)
                         else At(s.pcbs, x).children)
    {
      assert At(s1.pcbs, x) == PrunedPcb(s.pcbs, root, order, x);
      assert x !in order;
    }
    forall d: nat | d < |s.devs|
      ensures Disowns(s.pcbs, order, d) <==> exists x :: x in order && SemKeyOf(s, x) == None && WListOf(s, x) == Some(d)
    {
      DisownsIs(s, order, d);
    }
    hide Lists, Inv;
  }

  lemma DisownsIs(s: Sched, order: seq<Pid>, d: nat)
    ensures Disowns(s.pcbs, order, d) <==> exists x :: x in order && SemKeyOf(s, x) == None && WListOf(s, x) == Some(d)
  {
    if x :| x in order && SemKeyOf(s, x) == None && WListOf(s, x) == Some(d) {
      assert Stray(s.pcbs, x);
    }
  }
}
