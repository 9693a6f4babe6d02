/**
 All process queues of the kernel in memory at once. The free list, the ready queue and the queues of the semaphores share
 one pool of `p_next` links; each step moves a process between lists of that pool and leaves every other list alone.
 */
module Pool {
  import opened Seqs
  import opened ListX
  import opened Sched
  import opened Invariants
  import opened ProcQueue
  import A = Asl
  import Spec = Sched

  /** In the links every sentinel of `m` is followed by its queue, and no PCB is in two of the queues. */
  ghost predicate Pooled(nx: seq<int>, pv: seq<int>, n: nat, m: map<nat, seq<Pid>>) {
    && (forall h :: h in m ==> Ring(nx, pv, n, h, m[h]))
    && (forall g, h :: g in m && h in m && g != h ==> Disjoint(m[g], m[h]))
  }

  ghost predicate Ring(nx: seq<int>, pv: seq<int>, n: nat, h: nat, q: seq<Pid>) {
    Cycle(nx, pv, [h] + q) && n <= h && forall x :: x in q ==> x < n
  }

  ghost predicate Disjoint(q: seq<Pid>, r: seq<Pid>) { forall x :: x in q ==> x !in r }

  ghost predicate Nowhere(m: map<nat, seq<Pid>>, p: Pid) { forall h :: h in m ==> p !in m[h] }

  /** Links that differ only at the heads of `touched`. */
  ghost predicate Differ(nx: seq<int>, pv: seq<int>, nx': seq<int>, pv': seq<int>, touched: seq<nat>) {
    && |nx'| == |nx| && |pv'| == |pv|
    && forall l: nat :: l < |nx| && l < |pv| && l !in touched ==> nx'[l] == nx[l] && pv'[l] == pv[l]
  }

  /** `xs` has nothing to do with the queues other than that of `h`. */
  ghost predicate Own(m: map<nat, seq<Pid>>, h: nat, xs: seq<nat>) {
    forall g :: g in m && g != h ==> g !in xs && Disjoint(m[g], xs)
  }

  lemma OwnQueue(nx: seq<int>, pv: seq<int>, n: nat, m: map<nat, seq<Pid>>, h: nat, xs: seq<nat>)
    requires Pooled(nx, pv, n, m) && h in m
    requires forall x :: x in xs ==> x == h || x in m[h] || (x < n && Nowhere(m, x))
    ensures Own(m, h, xs)
  {
    assert Ring(nx, pv, n, h, m[h]);
    forall g | g in m && g != h
      ensures g !in xs && Disjoint(m[g], xs)
    {
      assert Ring(nx, pv, n, g, m[g]) && Disjoint(m[g], m[h]) && Disjoint(m[h], m[g]);
    }
  }

  /** Writing to links that no other queue has a part in changes one queue only. */
  lemma OneQueue(nx: seq<int>, pv: seq<int>, nx': seq<int>, pv': seq<int>, n: nat, m: map<nat, seq<Pid>>, h: nat,
                 q: seq<Pid>, touched: seq<nat>)
    requires Pooled(nx, pv, n, m) && h in m && Own(m, h, touched) && Own(m, h, q)
    requires Differ(nx, pv, nx', pv', touched) && Ring(nx', pv', n, h, q)
    ensures Pooled(nx', pv', n, m[h := q])
  {
    var m' := m[h := q];
    forall g | g in m'
      ensures Ring(nx', pv', n, g, m'[g])
    {
      if g != h {
        assert Ring(nx, pv, n, g, m[g]) && Disjoint(m[g], touched);
        RingKept(nx, pv, nx', pv', n, g, m[g], touched);
      }
    }
    forall f, g | f in m' && g in m' && f != g
      ensures Disjoint(m'[f], m'[g])
    {
      if f == h {
        assert Disjoint(m[g], q);
      } else if g == h {
        assert Disjoint(m[f], q);
      } else {
        assert Disjoint(m[f], m[g]);
      }
    }
  }

  lemma RingKept(nx: seq<int>, pv: seq<int>, nx': seq<int>, pv': seq<int>, n: nat, g: nat, q: seq<Pid>, touched: seq<nat>)
    requires Ring(nx, pv, n, g, q) && Differ(nx, pv, nx', pv', touched) && g !in touched
    requires forall x :: x in q ==> x !in touched
    ensures Ring(nx', pv', n, g, q)
  {
    OtherCycle(nx, pv, nx', pv', [g] + q);
  }

  ghost predicate Housed(m: map<nat, seq<Pid>>, homes: map<Key, nat>, f: nat, r: nat, k: Key, q: seq<Pid>) {
    k in homes && homes[k] in m && homes[k] != f && homes[k] != r && m[homes[k]] == q
  }

  /** The queues of `s` are those of `m`: behind the free sentinel `f`, the ready sentinel `r`, and one for each key. */
  ghost predicate Lays(m: map<nat, seq<Pid>>, homes: map<Key, nat>, f: nat, r: nat, s: Sched) {
    && f != r && f in m && r in m && m[f] == s.free && m[r] == s.ready
    && (forall k :: k in s.blocked ==> Housed(m, homes, f, r, k, s.blocked[k]))
    && (forall k, l :: k in s.blocked && l in s.blocked && k != l ==> k in homes && l in homes && homes[k] != homes[l])
  }

  lemma ReadyList(m: map<nat, seq<Pid>>, homes: map<Key, nat>, f: nat, r: nat, s: Sched, s': Sched)
    requires Lays(m, homes, f, r, s) && s'.free == s.free && s'.blocked == s.blocked
    ensures Lays(m[r := s'.ready], homes, f, r, s')
  {
    forall k | k in s'.blocked
      ensures Housed(m[r := s'.ready], homes, f, r, k, s'.blocked[k])
    {
      assert Housed(m, homes, f, r, k, s.blocked[k]);
    }
  }

  lemma FreeList(m: map<nat, seq<Pid>>, homes: map<Key, nat>, f: nat, r: nat, s: Sched, s': Sched)
    requires Lays(m, homes, f, r, s) && s'.ready == s.ready && s'.blocked == s.blocked
    ensures Lays(m[f := s'.free], homes, f, r, s')
  {
    forall k | k in s'.blocked
      ensures Housed(m[f := s'.free], homes, f, r, k, s'.blocked[k])
    {
      assert Housed(m, homes, f, r, k, s.blocked[k]);
    }
  }

  /** One waiter out of the queue of `k`, which is active no longer when that leaves it empty. */
  lemma BlockedList(m: map<nat, seq<Pid>>, homes: map<Key, nat>, f: nat, r: nat, s: Sched, s': Sched, k: Key, p: Pid)
    requires Lays(m, homes, f, r, s) && k in s.blocked && k in homes && homes[k] in m
    requires s'.free == s.free && s'.ready == s.ready && s'.blocked == A.DropOut(s.blocked, k, p)
    ensures Lays(m[homes[k] := Without(m[homes[k]], p)], homes, f, r, s')
  {
    var m' := m[homes[k] := Without(m[homes[k]], p)];
    assert Housed(m, homes, f, r, k, s.blocked[k]);
    forall l | l in s'.blocked
      ensures Housed(m', homes, f, r, l, s'.blocked[l])
    {
      assert Housed(m, homes, f, r, l, s.blocked[l]);
    }
  }

  // ---- A process freed where it is queued --------------------------------------------------------------------------

  /** Where a walk along `next` is after `k` steps. */
  function Follow(nx: seq<int>, at: int, k: nat): int {
    if k == 0 then at
    else
      var l := Follow(nx, at, k - 1);
      if 0 <= l < |nx| then nx[l] else NULL
  }

  /** The links after list_add has put the `i`-th of the queue of `h` on the list of `f` without removing it first. */
  function FreedNext(nx: seq<int>, f: nat, free: seq<Pid>, p: Pid): seq<int>
    requires p < |nx| && f < |nx|
  {
    AddNext(nx, p, f, ([f] + free)[Succ(0, |free| + 1)])
  }

  lemma Onwards(nx: seq<int>, pv: seq<int>, n: nat, h: nat, q: seq<Pid>, j: nat)
    requires Ring(nx, pv, n, h, q) && j <= |q|
    ensures var at := ([h] + q)[j]; at < |nx| && nx[at] == ([h] + q)[Succ(j, |q| + 1)]
  {
    var c := [h] + q;
    assert Joined(nx, pv, c[j], c[Succ(j, |c|)]);
  }

  /** The part of the pool that the walk cannot leave. */
  ghost predicate Trap(f: nat, free: seq<Pid>, q: seq<Pid>, i: nat, l: int)
    requires i < |q|
  {
    (exists j :: 0 <= j <= i && l == q[j]) || (exists j :: 0 <= j <= |free| && l == ([f] + free)[j])
  }

  lemma Trapped(nx: seq<int>, pv: seq<int>, n: nat, m: map<nat, seq<Pid>>, f: nat, h: nat, i: nat, l: int)
    requires Pooled(nx, pv, n, m) && f in m && h in m && f != h && i < |m[h]|
    requires l == h || Trap(f, m[f], m[h], i, l)
    ensures Ring(nx, pv, n, h, m[h]) && Ring(nx, pv, n, f, m[f]) && f < |nx| && m[h][i] in m[h] && m[h][i] < |nx|
    ensures 0 <= l < |nx| && Trap(f, m[f], m[h], i, FreedNext(nx, f, m[f], m[h][i])[l])
  {
    var q, free, p := m[h], m[f], m[h][i];
    assert Ring(nx, pv, n, h, q) && Ring(nx, pv, n, f, free) && Disjoint(q, free) && p in q;
    var d := [f] + free;
    Onwards(nx, pv, n, f, free, 0);
    Onwards(nx, pv, n, h, q, i + 1);
    if j :| 0 <= j <= |free| && l == d[j] {
      Onwards(nx, pv, n, f, free, j);
      assert l != p by { assert j > 0 ==> free[j - 1] in free; }
    } else {
      var j: nat := if l == h then 0 else var j :| 0 <= j <= i && l == q[j]; j + 1;
      Onwards(nx, pv, n, h, q, j);
      assert ([h] + q)[j] == l;
      assert l != f by { assert j > 0 ==> q[j - 1] in q; }
      if l == p { assert FreedNext(nx, f, free, p)[l] == d[Succ(0, |free| + 1)]; }
    }
  }

  /**
   What a stray does to the lists: freed while it is still queued, it leads every walk of its queue into the free list, and
   the walk never comes back to the sentinel at which its loop would end.
   */
  lemma {:induction false} WalkNeverEnds(nx: seq<int>, pv: seq<int>, n: nat, m: map<nat, seq<Pid>>, f: nat, h: nat, i: nat,
                                         k: nat)
    requires Pooled(nx, pv, n, m) && f in m && h in m && f != h && i < |m[h]| && k > 0
    ensures f < |nx| && m[h][i] < |nx| && Follow(FreedNext(nx, f, m[f], m[h][i]), h, k) != h
    ensures Trap(f, m[f], m[h], i, Follow(FreedNext(nx, f, m[f], m[h][i]), h, k))
  {
    assert Ring(nx, pv, n, h, m[h]) && Ring(nx, pv, n, f, m[f]);
    assert m[h][i] in m[h] && f in [f] + m[f];
    var nx' := FreedNext(nx, f, m[f], m[h][i]);
    if k > 1 { WalkNeverEnds(nx, pv, n, m, f, h, i, k - 1); }
    Trapped(nx, pv, n, m, f, h, i, Follow(nx', h, k - 1));
    NotSentinel(nx, pv, n, m, f, h, i, Follow(nx', h, k));
  }

  lemma NotSentinel(nx: seq<int>, pv: seq<int>, n: nat, m: map<nat, seq<Pid>>, f: nat, h: nat, i: nat, l: int)
    requires Pooled(nx, pv, n, m) && f in m && h in m && f != h && i < |m[h]| && Trap(f, m[f], m[h], i, l)
    ensures l != h
  {
    assert Ring(nx, pv, n, h, m[h]) && Ring(nx, pv, n, f, m[f]);
    assert forall j :: 0 <= j < |m[h]| ==> m[h][j] in m[h];
    assert forall j :: 0 < j <= |m[f]| ==> ([f] + m[f])[j] in m[f];
  }

  class KernelQueues {
    const queues: ProcQueues
    const freeHead: nat
    const readyHead: nat
    var running: Pid
    ghost var contents: map<nat, seq<Pid>>
    var homes: map<Key, nat>           // the queue sentinel in the descriptor of each active key

    constructor (queues: ProcQueues, freeHead: nat, readyHead: nat, running: Pid)
      ensures this.queues == queues && this.freeHead == freeHead && this.readyHead == readyHead
      ensures this.running == running && contents == map[] && homes == map[]
    {
      this.queues, this.freeHead, this.readyHead, this.running := queues, freeHead, readyHead, running;
      contents, homes := map[], map[];
    }

    /** initPcbs and mkEmptyProcQ: everything free, nothing ready, idle running. */
    static method Empty(n: nat, pcbs: array<Pcb>) returns (r: KernelQueues)
      requires pcbs.Length == n + 1 && n > 0
      ensures r.Valid() && r.queues.pcbs == pcbs && r.contents.Keys == {r.freeHead, r.readyHead}
      ensures fresh(r) && fresh(r.queues) && fresh(r.queues.links.next) && fresh(r.queues.links.prev)
      ensures forall s: Sched ::
        (s.pcbs == pcbs[..] && s.free == seq(n, i requires 0 <= i < n => i) && s.ready == [] && s.running == n
         && s.blocked == map[]) ==> r.Holds(s)
    {
      hide A.Represents;
      var queues := new ProcQueues(pcbs, 2);
      r := new KernelQueues(queues, n + 1, n + 2, n);
      ghost var free := seq(n, i requires 0 <= i < n => i);
      queues.InitPcbs(r.freeHead, n);
      ghost var nx, pv := queues.links.next[..], queues.links.prev[..];
      assert Ring(nx, pv, n + 1, r.freeHead, free);
      queues.MkEmptyProcQ(r.readyHead);
      RingKept(nx, pv, queues.links.next[..], queues.links.prev[..], n + 1, r.freeHead, free, [r.readyHead]);
      assert Ring(queues.links.next[..], queues.links.prev[..], n + 1, r.readyHead, []);
      r.contents := map[r.freeHead := free, r.readyHead := []];
    }

    ghost predicate Valid()
      reads this, queues.links.next, queues.links.prev
    {
      && queues.Valid() && freeHead != readyHead && freeHead in contents && readyHead in contents
      && Pooled(queues.links.next[..], queues.links.prev[..], queues.pcbs.Length, contents)
    }

    /** The lists of the scheduler state `s` are those in memory. */
    ghost predicate Holds(s: Sched)
      reads this, queues.pcbs
    {
      && s.pcbs == queues.pcbs[..] && s.running == running < queues.pcbs.Length
      && Lays(contents, homes, freeHead, readyHead, s)
    }

    /** insertProcQ on one of the queues. */
    method Insert(h: nat, p: Pid)
      requires Valid() && h in contents && Nowhere(contents, p) && p < queues.pcbs.Length
      modifies this`contents, queues.links.next, queues.links.prev
      ensures Valid()
      ensures contents == old(contents)[h := Enqueue(queues.pcbs[..], old(contents)[h], p)]
    {
      ghost var nx, pv, m, q, n := queues.links.next[..], queues.links.prev[..], contents, contents[h], queues.pcbs.Length;
      assert Ring(nx, pv, n, h, q);
      ghost var q' := Enqueue(queues.pcbs[..], q, p);
      Members(queues.pcbs[..], q, p);
      OwnQueue(nx, pv, n, m, h, [h, p] + q);
      OwnQueue(nx, pv, n, m, h, q');
      queues.InsertProcQ(h, p, q);
      OneQueue(nx, pv, queues.links.next[..], queues.links.prev[..], n, m, h, q', [h, p] + q);
      contents := m[h := q'];
    }

    static lemma Members(t: seq<Pcb>, q: seq<Pid>, p: Pid)
      ensures forall x :: x in Enqueue(t, q, p) ==> x in q || x == p
    {
    }

    /** outProcQ on one of the queues. */
    method Out(h: nat, p: Pid) returns (r: Option<Pid>)
      requires Valid() && h in contents && p < queues.pcbs.Length
      modifies this`contents, queues.links.next, queues.links.prev
      ensures Valid() && contents == old(contents)[h := Without(old(contents)[h], p)]
      ensures r == (if p in old(contents)[h] then Some(p) else None)
      ensures r.Some? ==> Nowhere(contents, p)
    {
      ghost var nx, pv, m, q, n := queues.links.next[..], queues.links.prev[..], contents, contents[h], queues.pcbs.Length;
      assert Ring(nx, pv, n, h, q);
      ProcQueues.BehindSentinel(h, q);
      WithoutProps(q, p);
      OwnQueue(nx, pv, n, m, h, [h] + q);
      OwnQueue(nx, pv, n, m, h, Without(q, p));
      r := queues.OutProcQ(h, p, q);
      OneQueue(nx, pv, queues.links.next[..], queues.links.prev[..], n, m, h, Without(q, p), [h] + q);
      contents := m[h := Without(q, p)];
      assert forall g :: g in m && g != h ==> Disjoint(m[h], m[g]);
    }

    /** freePcb: a PCB that is in no queue goes to the front of the free list. */
    method Free(p: Pid)
      requires Valid() && Nowhere(contents, p) && p < queues.pcbs.Length
      modifies this`contents, queues.links.next, queues.links.prev
      ensures Valid() && contents == old(contents)[freeHead := [p] + old(contents)[freeHead]]
    {
      ghost var nx, pv, m, h, n := queues.links.next[..], queues.links.prev[..], contents, freeHead, queues.pcbs.Length;
      ghost var q := contents[h];
      assert Ring(nx, pv, n, h, q);
      OwnQueue(nx, pv, n, m, h, [h, p] + q);
      OwnQueue(nx, pv, n, m, h, [p] + q);
      queues.FreePcb(freeHead, p, q);
      OneQueue(nx, pv, queues.links.next[..], queues.links.prev[..], n, m, h, [p] + q, [h, p] + q);
      contents := m[h := [p] + q];
    }

    /** The list part of allocPcb: the first PCB of the free list, which is then in no queue. */
    method Take() returns (r: Option<Pid>)
      requires Valid()
      modifies this`contents, queues.links.next, queues.links.prev
      ensures Valid()
      ensures var q := old(contents)[freeHead];
        if q == [] then r == None && contents == old(contents)
        else
          && r == Some(q[0]) && contents == old(contents)[freeHead := q[1..]]
          && q[0] < queues.pcbs.Length && Nowhere(contents, q[0])
    {
      ghost var nx, pv, m, h, n := queues.links.next[..], queues.links.prev[..], contents, freeHead, queues.pcbs.Length;
      ghost var q := contents[h];
      assert Ring(nx, pv, n, h, q);
      ProcQueues.BehindSentinel(h, q);
      OwnQueue(nx, pv, n, m, h, [h] + q);
      r := queues.AllocPcb(freeHead, q);
      if r.Some? {
        Uncons(q);
        OwnQueue(nx, pv, n, m, h, q[1..]);
        OneQueue(nx, pv, queues.links.next[..], queues.links.prev[..], n, m, h, q[1..], [h] + q);
        contents := m[h := q[1..]];
        assert forall g :: g in m && g != h ==> Disjoint(m[h], m[g]);
      } else {
        OneQueue(nx, pv, queues.links.next[..], queues.links.prev[..], n, m, h, q, [h] + q);
        assert m[h := q] == m;
      }
    }

    // ---- Steps -----------------------------------------------------------------------------------------------------

    /** schedule_proc, with `p` and the running process in no queue: all lists are those of the specified state. */
    method ScheduleProc(p: Pid, ghost s: Sched)
      requires Valid() && Holds(s) && p < s.N() && Nowhere(contents, p)
      requires s.running == s.Idle() || Nowhere(contents, s.running)
      modifies this`contents, this`running, queues.links.next, queues.links.prev, queues.pcbs
      ensures Valid() && Holds(Spec.ScheduleProc(s, p)) && contents == old(contents)[readyHead := contents[readyHead]]
    {
      hide Pooled;
      hide Enqueue;
      ghost var s' := Spec.ScheduleProc(s, p);
      ReadyList(contents, homes, freeHead, readyHead, s, s');
      var idle := queues.pcbs.Length - 1;
      if queues.pcbs[p].priority > queues.pcbs[running].priority || running == idle {
        StopRunning(s);
        running := p;
      } else {
        Insert(readyHead, p);
      }
    }

    method StopRunning(ghost s: Sched)
      requires Valid() && Holds(s) && s.N() > 0 && (s.running == s.Idle() || Nowhere(contents, s.running))
      modifies this`contents, queues.links.next, queues.links.prev, queues.pcbs
      ensures Valid() && Holds(Spec.StopRunning(s)) && contents == old(contents)[readyHead := contents[readyHead]]
    {
      hide Pooled;
      hide Enqueue;
      if running != queues.pcbs.Length - 1 {
        ReadyList(contents, homes, freeHead, readyHead, s, Spec.StopRunning(s));
        queues.pcbs[running] := queues.pcbs[running].(priority := queues.pcbs[running].originalPriority);
        Insert(readyHead, running);
      }
    }

    /** removeProcQ on the ready queue. */
    method RemoveReady() returns (r: Option<Pid>)
      requires Valid()
      modifies this`contents, queues.links.next, queues.links.prev
      ensures Valid()
      ensures var q := old(contents)[readyHead];
        if q == [] then r == None && contents == old(contents)
        else r == Some(q[0]) && contents == old(contents)[readyHead := q[1..]] && q[0] < queues.pcbs.Length
    {
      ghost var q := contents[readyHead];
      assert Ring(queues.links.next[..], queues.links.prev[..], queues.pcbs.Length, readyHead, q);
      r := queues.HeadProcQ(readyHead, q);
      if r.Some? {
        assert q[0] in q && Without(q, q[0]) == q[1..];
        var _ := Out(readyHead, r.value);
      }
    }

    /** set_running_proc(removeProcQ(&ready_queue)). */
    method RunNext(ghost s: Sched)
      requires Valid() && Holds(s) && s.N() > 0
      modifies this`contents, this`running, queues.links.next, queues.links.prev
      ensures Valid() && Holds(Spec.RunNext(s))
    {
      hide Pooled;
      ReadyList(contents, homes, freeHead, readyHead, s, Spec.RunNext(s));
      var first := RemoveReady();
      running := if first.Some? then first.value else queues.pcbs.Length - 1;
    }

    /** The state after one process has been taken off its queue and freed. */
    static ghost function Removed(s: Sched, p: Pid): Sched {
      var s1 := Dequeued(s, p);
      s1.(free := [p] + s1.free)
    }

    static ghost function Dequeued(s: Sched, p: Pid): Sched {
      match SemKeyOf(s, p)
      case None => s.(ready := Without(s.ready, p))
      case Some(k) =>
        s.(pcbs := Put(s.pcbs, p, At(s.pcbs, p).(semKey := None)),
           blocked := if k in s.blocked then A.DropOut(s.blocked, k, p) else s.blocked)
    }

    /** Taken together: `p` heads the free list and is in no other queue, and nothing else has moved or changed. */
    static lemma RemovedIs(s: Sched, p: Pid)
      requires Linked(s) && NoDup(s.ready) && p < |s.pcbs| && (SemKeyOf(s, p).None? ==> p in s.ready)
      requires SemKeyOf(s, p).Some? ==> p !in s.ready
      ensures var s' := Removed(s, p);
        && s'.free == [p] + s.free && s' == s.(pcbs := s'.pcbs, free := s'.free, ready := s'.ready, blocked := s'.blocked)
        && p !in s'.ready && (forall x :: x in s'.ready <==> x in s.ready && x != p)
        && (forall k, x :: x in QueueOf(s'.blocked, k) <==> x in QueueOf(s.blocked, k) && x != p)
        && (forall x: Pid :: x < |s.pcbs| ==>
             At(s'.pcbs, x) == if x == p then At(s.pcbs, x).(semKey := None) else At(s.pcbs, x))
    {
      hide Without;
      WithoutProps(s.ready, p);
      if SemKeyOf(s, p).Some? { WithoutAbsent(s.ready, p); }
      assert KeyLinked(s, p);
      forall k | k in s.blocked
        ensures forall x :: x in Without(s.blocked[k], p) <==> x in s.blocked[k] && x != p
        ensures SemKeyOf(s, p) != Some(k) ==> p !in s.blocked[k]
      {
        assert QueueLinked(s, k, s.blocked[k]);
        WithoutProps(s.blocked[k], p);
      }
    }

    method Dequeue(p: Pid, ghost s: Sched)
      requires Valid() && Holds(s) && p < queues.pcbs.Length && KeyLinked(s, p)
      requires SemKeyOf(s, p).None? ==> p in s.ready
      modifies this`contents, queues.links.next, queues.links.prev, queues.pcbs
      ensures Valid() && Holds(Dequeued(s, p)) && Nowhere(contents, p)
    {
      hide Pooled;
      if queues.pcbs[p].semKey.Some? {
        var key := queues.pcbs[p].semKey.value;
        assert Housed(contents, homes, freeHead, readyHead, key, s.blocked[key]);
        BlockedList(contents, homes, freeHead, readyHead, s, Dequeued(s, p), key, p);
        var _ := Out(homes[key], p);
        queues.pcbs[p] := queues.pcbs[p].(semKey := None);
      } else {
        ReadyList(contents, homes, freeHead, readyHead, s, Dequeued(s, p));
        var _ := Out(readyHead, p);
      }
    }

    /** What recursive_remove_proc does to a process that is in a queue: off that queue, and to the free list. */
    method RemoveOne(p: Pid, ghost s: Sched)
      requires Valid() && Holds(s) && p < queues.pcbs.Length && !Stray(s.pcbs, p) && KeyLinked(s, p)
      requires SemKeyOf(s, p).None? ==> p in s.ready
      modifies this`contents, queues.links.next, queues.links.prev, queues.pcbs
      ensures Valid() && Holds(Removed(s, p))
    {
      hide Pooled;
      Dequeue(p, s);
      FreeList(contents, homes, freeHead, readyHead, Dequeued(s, p), Removed(s, p));
      Free(p);
    }
  }
}
