/** What holds of the scheduler in every reachable state, and the lemmas that carry it through the building blocks. */
module Invariants {
  import opened Seqs
  import opened Sched

  ghost predicate Shape(s: Sched) {
    |s.pcbs| >= 2 && |s.birth| == |s.pcbs| && s.running < |s.pcbs|
  }

  function SemKeyOf(s: Sched, p: Pid): Option<Key> { At(s.pcbs, p).semKey }

  function Count(b: bool): nat { if b then 1 else 0 }

  /** In how many places `p` is; `hand` is a process that a step has taken out and not yet put back. */
  function Places(s: Sched, hand: Option<Pid>, p: Pid): nat {
    Count(p in s.free) + Count(p in s.ready) + Count(p == s.running) + Count(SemKeyOf(s, p).Some?)
      + Count(hand == Some(p))
  }

  /** The lists hold ordinary PCBs without repetition, and the idle process is on none. */
  ghost predicate Listed(s: Sched, hand: Option<Pid>) {
    && NoDup(s.free) && NoDup(s.ready)
    && (forall p :: p in s.free ==> p < s.N()) && (forall p :: p in s.ready ==> p < s.N())
    && SemKeyOf(s, s.Idle()) == None && (hand.Some? ==> hand.value < s.N())
  }

  /** Every ordinary PCB is in exactly one place, the idle process at most in the running slot. */
  ghost predicate Conserved(s: Sched, hand: Option<Pid>) {
    Listed(s, hand) && forall p: Pid :: p < s.N() ==> Places(s, hand, p) == 1
  }

  ghost predicate QueueLinked(s: Sched, k: Key, q: seq<Pid>) {
    q != [] && NoDup(q) && forall p :: p in q ==> p < s.N() && SemKeyOf(s, p) == Some(k)
  }

  ghost predicate KeyLinked(s: Sched, p: Pid) {
    SemKeyOf(s, p).Some? ==> SemKeyOf(s, p).value in s.blocked && p in s.blocked[SemKeyOf(s, p).value]
  }

  /** Active queues are non-empty, and `p_semkey` names exactly the queue a process is in. */
  ghost predicate Linked(s: Sched) {
    && (forall k :: k in s.blocked ==> QueueLinked(s, k, s.blocked[k]))
    && (forall p: Pid :: p < |s.pcbs| ==> KeyLinked(s, p))
  }

  ghost predicate Sorted(t: seq<Pcb>, q: seq<Pid>) {
    forall i, j :: 0 <= i < j < |q| ==> Prio(t, q[i]) >= Prio(t, q[j])
  }

  ghost predicate AllSorted(s: Sched) {
    Sorted(s.pcbs, s.ready) && forall k :: k in s.blocked ==> Sorted(s.pcbs, s.blocked[k])
  }

  predicate PrioOk(r: Pcb) { r.originalPriority <= r.priority }

  ghost predicate Aging(s: Sched) {
    forall p: Pid :: p < |s.pcbs| ==> PrioOk(At(s.pcbs, p))
  }

  /** The running process outranks every ready one; idle runs only when nothing is ready. */
  ghost predicate Dispatched(s: Sched) {
    if s.running == s.Idle() then s.ready == []
    else forall p :: p in s.ready ==> Prio(s.pcbs, p) <= Prio(s.pcbs, s.running)
  }

  /** Ordinary semaphores are never negative, and a semaphore with waiters is 0. */
  ghost predicate SemsOk(s: Sched) {
    && (forall a :: a in s.sems ==> s.sems[a] >= 0)
    && (forall k :: k in s.blocked ==> Usable(s, k))
  }

  /** `k` exists, and a process may be waiting on it. */
  predicate Usable(s: Sched, k: Key) {
    match k
    case Cell(a) => a in s.sems && s.sems[a] == 0
    case Device(d) => d < |s.devs|
  }

  ghost predicate UpOk(s: Sched, x: Pid) {
    At(s.pcbs, x).parent.Some? ==>
      var up := At(s.pcbs, x).parent.value;
      s.Live(up) && x in At(s.pcbs, up).children && Stamp(s, up) < Stamp(s, x)
  }

  ghost predicate KidsOk(s: Sched, x: Pid) {
    var kids := At(s.pcbs, x).children;
    NoDup(kids) && forall c :: c in kids ==> s.Live(c) && At(s.pcbs, c).parent == Some(x)
  }

  /** Live processes form a forest: parent and child links agree and lead only to live processes, upwards to older ones. */
  ghost predicate TreeOk(s: Sched) {
    forall x: Pid :: s.Live(x) ==> UpOk(s, x) && KidsOk(s, x) && Stamp(s, x) < s.births
  }

  /** Everything but the choice of the running process. */
  ghost predicate Steady(s: Sched, hand: Option<Pid>) {
    Shape(s) && Conserved(s, hand) && Linked(s) && AllSorted(s) && Aging(s) && SemsOk(s) && TreeOk(s)
  }

  ghost predicate Inv(s: Sched, hand: Option<Pid>) {
    Steady(s, hand) && Dispatched(s)
  }

  // ---- Queues ------------------------------------------------------------------------------------------------------

  lemma EnqueueElements(t: seq<Pcb>, q: seq<Pid>, p: Pid)
    requires NoDup(q) && p !in q
    ensures NoDup(Enqueue(t, q, p))
    ensures forall x :: x in Enqueue(t, q, p) <==> x in q || x == p
  {
    hide Slot;
    var i := Slot(Prios(t, q), Prio(t, p));
    assert q == q[..i] + q[i..];
  }

  lemma EnqueueSorted(t: seq<Pcb>, q: seq<Pid>, p: Pid)
    requires Sorted(t, q)
    ensures Sorted(t, Enqueue(t, q, p))
  {
    var ps, x := Prios(t, q), Prio(t, p);
    var i, r := Slot(ps, x), Enqueue(t, q, p);
    forall a, b | 0 <= a < b < |r|
      ensures Prio(t, r[a]) >= Prio(t, r[b])
    {
      if a < i { assert ps[a] == Prio(t, q[a]) >= x; }
      if b > i {
        assert ps[i] == Prio(t, q[i]) < x;
        assert r[b] == q[b - 1];
      }
    }
  }

  lemma SortedTail(t: seq<Pcb>, q: seq<Pid>)
    requires Sorted(t, q) && q != []
    ensures Sorted(t, q[1..]) && forall x :: x in q[1..] ==> Prio(t, x) <= Prio(t, q[0])
  {
    forall x | x in q[1..]
      ensures Prio(t, x) <= Prio(t, q[0])
    {
      var i :| 0 <= i < |q[1..]| && q[1..][i] == x;
      assert q[i + 1] == x;
    }
  }

  lemma SortedFrame(t: seq<Pcb>, t': seq<Pcb>, q: seq<Pid>)
    requires Sorted(t, q)
    requires forall x :: x in q ==> Prio(t', x) == Prio(t, x)
    ensures Sorted(t', q)
  {
  }

  // ---- Frames ------------------------------------------------------------------------------------------------------

  /** Nothing that the tree depends on differs. */
  ghost predicate SameTree(s: Sched, s': Sched) {
    && s'.free == s.free && s'.birth == s.birth && s'.births == s.births && |s'.pcbs| == |s.pcbs|
    && forall x: Pid :: SameFamily(At(s.pcbs, x), At(s'.pcbs, x))
  }

  predicate SameFamily(r: Pcb, r': Pcb) { r'.parent == r.parent && r'.children == r.children }

  lemma TreeFrame(s: Sched, s': Sched)
    requires TreeOk(s) && SameTree(s, s')
    ensures TreeOk(s')
  {
    forall x: Pid | s'.Live(x)
      ensures UpOk(s', x) && KidsOk(s', x) && Stamp(s', x) < s'.births
    {
      assert s.Live(x);
      assert SameFamily(At(s.pcbs, x), At(s'.pcbs, x));
      if At(s.pcbs, x).parent.Some? {
        var up := At(s.pcbs, x).parent.value;
        assert SameFamily(At(s.pcbs, up), At(s'.pcbs, up));
      }
      forall c | c in At(s'.pcbs, x).children
        ensures s'.Live(c) && At(s'.pcbs, c).parent == Some(x)
      {
        assert SameFamily(At(s.pcbs, c), At(s'.pcbs, c));
      }
    }
  }

  // ---- schedule_proc -----------------------------------------------------------------------------------------------

  predicate Preempts(s: Sched, p: Pid) {
    Prio(s.pcbs, p) > Prio(s.pcbs, s.running) || s.running == s.Idle()
  }

  /** What schedule_proc may change, in terms independent of how it does it. */
  lemma ScheduleEffect(s: Sched, p: Pid)
    requires Shape(s) && NoDup(s.ready) && Sorted(s.pcbs, s.ready) && s.running !in s.ready && p !in s.ready
    requires p != s.running
    ensures var s' := ScheduleProc(s, p);
      var loser := if Preempts(s, p) then s.running else p;
      && s' == s.(pcbs := s'.pcbs, ready := s'.ready, running := if Preempts(s, p) then p else s.running)
      && |s'.pcbs| == |s.pcbs|
      && (forall x: Pid :: At(s'.pcbs, x) == if x == s.running && Preempts(s, p) && x != s.Idle()
            then At(s.pcbs, x).(priority := At(s.pcbs, x).originalPriority) else At(s.pcbs, x))
      && NoDup(s'.ready) && Sorted(s'.pcbs, s'.ready)
      && (forall x :: x in s'.ready <==> x in s.ready || (x == loser && x != s.Idle()) || (x == p && p == loser))
  {
    if Preempts(s, p) {
      var r := At(s.pcbs, s.running);
      var t := Put(s.pcbs, s.running, r.(priority := r.originalPriority));
      SortedFrame(s.pcbs, t, s.ready);
      EnqueueSorted(t, s.ready, s.running);
      EnqueueElements(t, s.ready, s.running);
    } else {
      EnqueueSorted(s.pcbs, s.ready, p);
      EnqueueElements(s.pcbs, s.ready, p);
    }
  }

  lemma ScheduleInv(s: Sched, p: Pid)
    requires Inv(s, Some(p))
    ensures Inv(ScheduleProc(s, p), None)
  {
    var s' := ScheduleProc(s, p);
    Apart(s, Some(p));
    ScheduleEffect(s, p);
    ScheduleConserved(s, p);
    LinkFrame(s, s');
    QueueFrame(s, s');
    TreeFrame(s, s');
  }

  lemma ScheduleConserved(s: Sched, p: Pid)
    requires Shape(s) && Conserved(s, Some(p)) && Sorted(s.pcbs, s.ready)
    ensures Conserved(ScheduleProc(s, p), None)
  {
    Apart(s, Some(p));
    ScheduleEffect(s, p);
    forall x: Pid | x < s.N()
      ensures Places(ScheduleProc(s, p), None, x) == 1
    {
      assert Places(s, Some(p), x) == 1;
    }
  }

  ghost predicate SameLinks(s: Sched, s': Sched) {
    && s'.blocked == s.blocked && |s'.pcbs| == |s.pcbs|
    && forall x: Pid :: SemKeyOf(s', x) == SemKeyOf(s, x)
  }

  lemma LinkFrame(s: Sched, s': Sched)
    requires Linked(s) && SameLinks(s, s')
    ensures Linked(s')
  {
    forall k | k in s'.blocked
      ensures QueueLinked(s', k, s'.blocked[k])
    {
      assert QueueLinked(s, k, s.blocked[k]);
    }
    forall p: Pid | p < |s'.pcbs|
      ensures KeyLinked(s', p)
    {
      assert KeyLinked(s, p);
    }
  }

  lemma QueueFrame(s: Sched, s': Sched)
    requires Linked(s) && AllSorted(s) && s'.blocked == s.blocked
    requires forall x: Pid :: SemKeyOf(s, x).Some? ==> Prio(s'.pcbs, x) == Prio(s.pcbs, x)
    ensures forall k :: k in s'.blocked ==> Sorted(s'.pcbs, s'.blocked[k])
  {
    forall k | k in s'.blocked
      ensures Sorted(s'.pcbs, s'.blocked[k])
    {
      assert QueueLinked(s, k, s.blocked[k]);
      SortedFrame(s.pcbs, s'.pcbs, s.blocked[k]);
    }
  }

  /** The running process and the one in hand are nowhere else. */
  lemma Apart(s: Sched, hand: Option<Pid>)
    requires Shape(s) && Conserved(s, hand)
    ensures s.running !in s.ready && s.running !in s.free && SemKeyOf(s, s.running) == None && hand != Some(s.running)
    ensures hand.Some? ==> hand.value !in s.ready && hand.value !in s.free && SemKeyOf(s, hand.value) == None
  {
    assert s.running < s.N() ==> Places(s, hand, s.running) == 1;
    assert hand.Some? ==> Places(s, hand, hand.value) == 1;
  }

  // ---- The other building blocks -----------------------------------------------------------------------------------

  lemma RunNextInv(s: Sched)
    requires Inv(s, None) && s.running != s.Idle()
    ensures Inv(RunNext(s), Some(s.running))
  {
    var s' := RunNext(s);
    Apart(s, None);
    if s.ready != [] {
      Uncons(s.ready);
      SortedTail(s.pcbs, s.ready);
    }
    forall x: Pid | x < s'.N()
      ensures Places(s', Some(s.running), x) == 1
    {
      assert Places(s, None, x) == 1;
    }
    assert SameLinks(s, s');
    LinkFrame(s, s');
    QueueFrame(s, s');
    TreeFrame(s, s');
  }

  lemma BlockInv(s: Sched, k: Key, p: Pid)
    requires Inv(s, Some(p)) && Usable(s, k)
    ensures Inv(Block(s, k, p), None)
    ensures k !in s.blocked ==> BlockFifo(s, k, p) == Block(s, k, p)
  {
    var s', q := Block(s, k, p), QueueOf(s.blocked, k);
    EnqueueSorted(s.pcbs, q, p);
    assert q == [] ==> Enqueue(s.pcbs, q, p) == q + [p];
    BlockLinked(s, k, p);
    BlockConserved(s, k, p);
    Reprioritised(s, s');
    TreeFrame(s, s');
  }

  lemma BlockConserved(s: Sched, k: Key, p: Pid)
    requires Shape(s) && Conserved(s, Some(p))
    ensures Conserved(Block(s, k, p), None)
  {
    forall x: Pid | x < s.N()
      ensures Places(Block(s, k, p), None, x) == 1
    {
      assert Places(s, Some(p), x) == 1;
    }
  }

  lemma BlockLinked(s: Sched, k: Key, p: Pid)
    requires Shape(s) && Conserved(s, Some(p)) && Linked(s)
    ensures Linked(Block(s, k, p))
  {
    var s', q := Block(s, k, p), QueueOf(s.blocked, k);
    Apart(s, Some(p));
    assert k in s.blocked ==> QueueLinked(s, k, q);
    EnqueueElements(s.pcbs, q, p);
    forall j | j in s'.blocked
      ensures QueueLinked(s', j, s'.blocked[j])
    {
      assert j in s.blocked ==> QueueLinked(s, j, s.blocked[j]);
    }
    forall x: Pid | x < |s'.pcbs|
      ensures KeyLinked(s', x)
    {
      assert KeyLinked(s, x);
    }
  }

  ghost predicate SamePriorities(s: Sched, s': Sched) {
    forall x: Pid :: Prio(s'.pcbs, x) == Prio(s.pcbs, x)
      && At(s'.pcbs, x).originalPriority == At(s.pcbs, x).originalPriority
  }

  lemma Reprioritised(s: Sched, s': Sched)
    requires SamePriorities(s, s') && |s'.pcbs| == |s.pcbs|
    ensures forall q :: Sorted(s.pcbs, q) ==> Sorted(s'.pcbs, q)
    ensures Aging(s) ==> Aging(s')
  {
    forall p: Pid | p < |s'.pcbs| && Aging(s)
      ensures PrioOk(At(s'.pcbs, p))
    {
      assert PrioOk(At(s.pcbs, p));
    }
  }

  lemma UnblockInv(s: Sched, k: Key)
    requires Inv(s, None) && HasWaiter(s, k)
    ensures Inv(Unblock(s, k), Some(s.blocked[k][0]))
  {
    UnblockLinked(s, k);
    UnblockConserved(s, k);
    Reprioritised(s, Unblock(s, k));
    TreeFrame(s, Unblock(s, k));
  }

  lemma UnblockConserved(s: Sched, k: Key)
    requires Shape(s) && Conserved(s, None) && Linked(s) && HasWaiter(s, k)
    ensures Conserved(Unblock(s, k), Some(s.blocked[k][0]))
  {
    var q := s.blocked[k];
    assert QueueLinked(s, k, q) && q[0] in q;
    forall x: Pid | x < s.N()
      ensures Places(Unblock(s, k), Some(q[0]), x) == 1
    {
      assert Places(s, None, x) == 1;
    }
  }

  lemma UnblockLinked(s: Sched, k: Key)
    requires Shape(s) && Linked(s) && HasWaiter(s, k)
    ensures Linked(Unblock(s, k))
  {
    var s', q := Unblock(s, k), s.blocked[k];
    assert QueueLinked(s, k, q);
    Uncons(q);
    forall j | j in s'.blocked
      ensures QueueLinked(s', j, s'.blocked[j])
    {
      assert QueueLinked(s, j, s.blocked[j]);
      if j != k { assert q[0] !in s.blocked[j]; }
    }
    forall x: Pid | x < |s'.pcbs|
      ensures KeyLinked(s', x)
    {
      assert KeyLinked(s, x);
    }
  }

  ghost predicate OnlyPriorities(s: Sched, s': Sched) {
    && s' == s.(pcbs := s'.pcbs) && |s'.pcbs| == |s.pcbs|
    && forall x: Pid :: OnlyPriority(At(s.pcbs, x), At(s'.pcbs, x))
  }

  predicate OnlyPriority(r: Pcb, r': Pcb) { r' == r.(priority := r'.priority) && (PrioOk(r) ==> PrioOk(r')) }

  lemma PriorityFrame(s: Sched, s': Sched, hand: Option<Pid>)
    requires Steady(s, hand) && OnlyPriorities(s, s') && AllSorted(s')
    ensures Steady(s', hand)
  {
    forall x: Pid | x < s'.N()
      ensures Places(s', hand, x) == 1
    {
      assert Places(s, hand, x) == 1;
      assert OnlyPriority(At(s.pcbs, x), At(s'.pcbs, x));
    }
    forall x: Pid | x < |s'.pcbs|
      ensures PrioOk(At(s'.pcbs, x))
    {
      assert PrioOk(At(s.pcbs, x));
    }
    forall x: Pid
      ensures SemKeyOf(s', x) == SemKeyOf(s, x) && SameFamily(At(s.pcbs, x), At(s'.pcbs, x))
    {
      assert OnlyPriority(At(s.pcbs, x), At(s'.pcbs, x));
    }
    LinkFrame(s, s');
    TreeFrame(s, s');
  }

  /** Waiters of one queue aged, and a process in hand given back its original priority. */
  lemma ReleaseInv(s: Sched, k: Key)
    requires Inv(s, None) && HasWaiter(s, k)
    ensures Inv(Release(s, k), Some(s.blocked[k][0]))
  {
    hide SemsOk, Age;
    UnblockInv(s, k);
    var s1, s', p, rest := Unblock(s, k), Release(s, k), s.blocked[k][0], s.blocked[k][1..];
    Apart(s1, Some(p));
    assert QueueLinked(s, k, s.blocked[k]);
    assert forall x :: x in rest ==> x in s.blocked[k] && x != p;
    forall x | x in s.ready
      ensures Prio(s'.pcbs, x) == Prio(s1.pcbs, x)
    {
      assert Places(s1, Some(p), x) == 1;
      assert SemKeyOf(s1, x) == None;
    }
    assert SemKeyOf(s1, s.running) == None;
    ReleaseSorted(s, k);
    assert PrioOk(At(s1.pcbs, p));
    PriorityFrame(s1, s', Some(p));
  }

  lemma ReleaseSorted(s: Sched, k: Key)
    requires Linked(s) && HasWaiter(s, k) && Linked(Unblock(s, k)) && AllSorted(Unblock(s, k)) && Shape(s)
    ensures forall j :: j in Release(s, k).blocked ==> Sorted(Release(s, k).pcbs, Release(s, k).blocked[j])
  {
    var s1, s', p, rest := Unblock(s, k), Release(s, k), s.blocked[k][0], s.blocked[k][1..];
    assert QueueLinked(s, k, s.blocked[k]);
    Uncons(s.blocked[k]);
    forall j | j in s'.blocked
      ensures Sorted(s'.pcbs, s'.blocked[j])
    {
      assert QueueLinked(s1, j, s1.blocked[j]);
      if j == k {
        assert s'.blocked[j] == rest;
        AgedSorted(s1.pcbs, s'.pcbs, rest);
      } else {
        assert forall x :: x in s1.blocked[j] ==> SemKeyOf(s1, x) == Some(j);
        SortedFrame(s1.pcbs, s'.pcbs, s1.blocked[j]);
      }
    }
  }

  lemma AgedSorted(t: seq<Pcb>, t': seq<Pcb>, q: seq<Pid>)
    requires Sorted(t, q)
    requires forall x :: x in q ==> Prio(t', x) == Prio(t, x) + PRIORITY_INC
    ensures Sorted(t', q)
  {
  }

  lemma AgeReadyInv(s: Sched)
    requires Inv(s, None)
    ensures Steady(s.(pcbs := Age(s.pcbs, s.ready)), None)
  {
    var s' := s.(pcbs := Age(s.pcbs, s.ready));
    forall x: Pid | SemKeyOf(s, x).Some?
      ensures x !in s.ready
    {
      assert x < s.N() ==> Places(s, None, x) == 1;
    }
    QueueFrame(s, s');
    AgedSorted(s.pcbs, s'.pcbs, s.ready);
    PriorityFrame(s, s', None);
  }

  /** The running process and the first ready one trade places. */
  lemma SwapSteady(s: Sched)
    requires Steady(s, None) && s.ready != [] && s.running != s.Idle()
    ensures Steady(s.(ready := Enqueue(s.pcbs, s.ready[1..], s.running), running := s.ready[0]), None)
  {
    var s' := s.(ready := Enqueue(s.pcbs, s.ready[1..], s.running), running := s.ready[0]);
    Uncons(s.ready);
    assert s.ready[0] in s.ready;
    SortedTail(s.pcbs, s.ready);
    EnqueueSorted(s.pcbs, s.ready[1..], s.running);
    SwapConserved(s);
    LinkFrame(s, s');
    QueueFrame(s, s');
    TreeFrame(s, s');
  }

  lemma SwapConserved(s: Sched)
    requires Shape(s) && Conserved(s, None) && s.ready != [] && s.running != s.Idle()
    ensures Conserved(s.(ready := Enqueue(s.pcbs, s.ready[1..], s.running), running := s.ready[0]), None)
  {
    Apart(s, None);
    Uncons(s.ready);
    EnqueueElements(s.pcbs, s.ready[1..], s.running);
    forall x: Pid | x < s.N()
      ensures Places(s.(ready := Enqueue(s.pcbs, s.ready[1..], s.running), running := s.ready[0]), None, x) == 1
    {
      SwapPlace(s, x);
    }
  }

  lemma SwapPlace(s: Sched, x: Pid)
    requires Shape(s) && Conserved(s, None) && s.ready != [] && s.running != s.Idle() && x < s.N()
    ensures Places(s.(ready := Enqueue(s.pcbs, s.ready[1..], s.running), running := s.ready[0]), None, x) == 1
  {
    Apart(s, None);
    Uncons(s.ready);
    EnqueueElements(s.pcbs, s.ready[1..], s.running);
    assert Places(s, None, x) == 1;
  }

  /** The running process's priority set back to its original value. */
  lemma ResetSteady(s: Sched)
    requires Steady(s, None)
    ensures var r := At(s.pcbs, s.running);
      Steady(s.(pcbs := Put(s.pcbs, s.running, r.(priority := r.originalPriority))), None)
  {
    var r := At(s.pcbs, s.running);
    var s' := s.(pcbs := Put(s.pcbs, s.running, r.(priority := r.originalPriority)));
    Apart(s, None);
    SortedFrame(s.pcbs, s'.pcbs, s.ready);
    QueueFrame(s, s');
    PriorityFrame(s, s', None);
  }

  lemma TickInv(s: Sched)
    requires Inv(s, None)
    ensures Inv(Tick(s), None)
  {
    hide Conserved, Linked, Enqueue, KidsOk, Age;
    var s1 := s.(pcbs := Age(s.pcbs, s.ready));
    AgeReadyInv(s);
    Apart(s, None);
    if s.ready != [] && Prio(s1.pcbs, s.running) <= Prio(s1.pcbs, s.ready[0]) {
      var r := At(s1.pcbs, s.running);
      var s2 := s1.(pcbs := Put(s1.pcbs, s.running, r.(priority := r.originalPriority)));
      assert PrioOk(r);
      ResetSteady(s1);
      SwapSteady(s2);
      SwapDispatched(s2);
    }
  }

  lemma SwapDispatched(s: Sched)
    requires Shape(s) && Conserved(s, None) && Sorted(s.pcbs, s.ready) && s.ready != [] && s.running != s.Idle()
    requires Prio(s.pcbs, s.running) <= Prio(s.pcbs, s.ready[0])
    ensures Dispatched(s.(ready := Enqueue(s.pcbs, s.ready[1..], s.running), running := s.ready[0]))
  {
    Apart(s, None);
    Uncons(s.ready);
    SortedTail(s.pcbs, s.ready);
    EnqueueElements(s.pcbs, s.ready[1..], s.running);
  }

  lemma AllocateInv(s: Sched, priority: int)
    requires Inv(s, None) && s.running != s.Idle() && s.free != []
    ensures Inv(Allocate(s, priority), Some(s.free[0]))
  {
    hide QueueLinked, UpOk;
    var p, s' := s.free[0], Allocate(s, priority);
    Uncons(s.free);
    Apart(s, None);
    assert Places(s, None, p) == 1;
    forall x: Pid | x < s'.N()
      ensures Places(s', Some(p), x) == 1
    {
      assert Places(s, None, x) == 1;
    }
    LinkFrame(s, s');
    QueueFrame(s, s');
    forall x: Pid | x < |s'.pcbs|
      ensures PrioOk(At(s'.pcbs, x))
    {
      assert PrioOk(At(s.pcbs, x));
    }
    AllocateTree(s, priority);
  }

  lemma AllocateTree(s: Sched, priority: int)
    requires Inv(s, None) && s.running != s.Idle() && s.free != []
    ensures TreeOk(Allocate(s, priority))
  {
    var p, s' := s.free[0], Allocate(s, priority);
    Uncons(s.free);
    Apart(s, None);
    assert !s.Live(p) && s.Live(s.running);
    forall x: Pid | s'.Live(x)
      ensures UpOk(s', x) && KidsOk(s', x) && Stamp(s', x) < s'.births
    {
      var kids := At(s.pcbs, x).children;
      if x != p {
        assert s.Live(x) && UpOk(s, x) && KidsOk(s, x);
        assert p !in kids;
        forall c | c in At(s'.pcbs, x).children
          ensures s'.Live(c) && At(s'.pcbs, c).parent == Some(x)
        {
          assert c in kids || (c == p && x == s.running);
        }
      } else {
        assert Stamp(s, s.running) < s.births;
      }
    }
  }
}
