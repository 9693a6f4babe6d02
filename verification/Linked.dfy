/**
 The PCB table as the kernel keeps it: queues and tree both as links between PCBs, nothing of either in the table itself.
 create_process moves links of both kinds.
 */
module Linked {
  import opened Seqs
  import opened ListX
  import opened Sched
  import opened Invariants
  import opened Pool
  import opened PcbTree
  import Effects
  import Undo
  import Boot

  // ---- What the links stand for ------------------------------------------------------------------------------------

  /** The fields of a PCB that are not links. */
  function Plain(r: Pcb): Pcb { r.(parent := None, children := []) }

  function Flat(s: Sched): Sched {
    s.(pcbs := seq(|s.pcbs|, i requires 0 <= i < |s.pcbs| => Plain(s.pcbs[i])))
  }

  /** The children of each live process. */
  function Kids(s: Sched): seq<seq<nat>> {
    seq(|s.pcbs|, i requires 0 <= i < |s.pcbs| => if s.Live(i) then s.pcbs[i].children else [])
  }

  function ParentLink(r: Pcb): int { if r.parent.Some? then r.parent.value else NULL }

  ghost predicate Parents(t: Links, s: Sched) {
    |t.up| == |s.pcbs| && forall x: Pid :: x < |s.pcbs| ==> t.up[x] == ParentLink(s.pcbs[x])
  }

  /** Whoever is behind a sentinel other than those of the free list and the ready queue is on a semaphore. */
  ghost predicate OnSemaphores(m: map<nat, seq<Pid>>, f: nat, r: nat, s: Sched) {
    forall h :: h in m && h != f && h != r ==> AllKeyed(s, m[h])
  }

  predicate AllKeyed(s: Sched, q: seq<Pid>) { forall x :: x in q ==> SemKeyOf(s, x).Some? }

  /** Behind `f` is the free list, and the running process is in none of the queues. */
  lemma RunningNowhere(m: map<nat, seq<Pid>>, homes: map<Key, nat>, f: nat, r: nat, s: Sched)
    requires Inv(s, None) && Lays(m, homes, f, r, Flat(s)) && OnSemaphores(m, f, r, s) && s.running != s.Idle()
    ensures Nowhere(m, s.running) && m[f] == s.free
  {
    assert Places(s, None, s.running) == 1;
    forall h | h in m
      ensures s.running !in m[h]
    {
      if h != f && h != r { assert AllKeyed(s, m[h]); }
    }
  }

  /** A free PCB has no relatives. */
  lemma FreeDetached(s: Sched)
    requires Inv(s, None) && s.free != [] && s.running != s.Idle()
    ensures s.running < s.N() && s.running != s.free[0]
    ensures s.free[0] < s.N() && !s.Live(s.free[0]) && Detached(s.free[0], Kids(s)) && Kids(s)[s.free[0]] == []
  {
    var p := s.free[0];
    assert p in s.free;
    Apart(s, None);
    forall x | 0 <= x < |s.pcbs|
      ensures p !in Kids(s)[x]
    {
      assert s.Live(x) ==> KidsOk(s, x);
    }
  }

  lemma FlatPut(t: seq<Pcb>, p: Pid, r: Pcb)
    ensures seq(|t|, i requires 0 <= i < |t| => Plain(Put(t, p, r)[i])) ==
      Put(seq(|t|, i requires 0 <= i < |t| => Plain(t[i])), p, Plain(r))
  {
  }

  lemma FlatEnqueue(s: Sched, q: seq<Pid>, p: Pid)
    ensures Enqueue(Flat(s).pcbs, q, p) == Enqueue(s.pcbs, q, p)
  {
    assert Prios(Flat(s).pcbs, q) == Prios(s.pcbs, q);
  }

  /** schedule_proc looks at no link of the tree and writes to none. */
  lemma FlatSchedule(s: Sched, p: Pid)
    ensures Flat(ScheduleProc(s, p)) == ScheduleProc(Flat(s), p)
  {
    var r := At(s.pcbs, s.running);
    var s1 := s.(pcbs := Put(s.pcbs, s.running, r.(priority := r.originalPriority)));
    FlatPut(s.pcbs, s.running, r.(priority := r.originalPriority));
    FlatEnqueue(s1, s.ready, s.running);
    FlatEnqueue(s, s.ready, p);
    hide Enqueue;
    assert Flat(s1).pcbs == Put(Flat(s).pcbs, s.running, Plain(r.(priority := r.originalPriority)));
  }

  lemma ScheduleFamilies(s: Sched, p: Pid)
    ensures Kids(ScheduleProc(s, p)) == Kids(s)
    ensures forall t: Links :: Parents(t, s) ==> Parents(t, ScheduleProc(s, p))
    ensures forall x: Pid :: SemKeyOf(ScheduleProc(s, p), x) == SemKeyOf(s, x)
  {
    hide Enqueue;
  }

  /** What allocation does to the fields that are not links, and to the families. */
  lemma AllocateLinks(s: Sched, priority: int)
    requires Inv(s, None) && s.free != [] && s.running != s.Idle()
    ensures var s1, p := Allocate(s, priority), s.free[0];
      && s1.running == s.running
      && Flat(s1).pcbs == Put(Flat(s).pcbs, p, Pcb(None, [], priority, priority, None, At(s.pcbs, p).devWList))
      && Kids(s1) == Kids(s)[s.running := Kids(s)[s.running] + [p]]
      && (forall x: Pid :: x < |s.pcbs| ==>
           ParentLink(s1.pcbs[x]) == if x == p then s.running else ParentLink(s.pcbs[x]))
      && (forall x: Pid :: x != p ==> SemKeyOf(s1, x) == SemKeyOf(s, x))
  {
    Uncons(s.free);
    Apart(s, None);
    assert Places(s, None, s.running) == 1;
    assert s.free[0] in s.free;
  }

  lemma LaysAllocated(m: map<nat, seq<Pid>>, homes: map<Key, nat>, f: nat, r: nat, s: Sched, priority: int)
    requires Lays(m, homes, f, r, Flat(s)) && s.free != []
    ensures Lays(m[f := s.free[1..]], homes, f, r, Flat(Allocate(s, priority)))
  {
    FreeList(m, homes, f, r, Flat(s), Flat(Allocate(s, priority)));
  }

  lemma SemaphoresAllocated(m: map<nat, seq<Pid>>, f: nat, r: nat, s: Sched, priority: int)
    requires Inv(s, None) && s.free != [] && s.running != s.Idle() && OnSemaphores(m, f, r, s)
    requires Nowhere(m[f := s.free[1..]], s.free[0])
    ensures OnSemaphores(m[f := s.free[1..]], f, r, Allocate(s, priority))
  {
    AllocateLinks(s, priority);
    hide Inv, Allocate;
    forall h | h in m && h != f && h != r
      ensures AllKeyed(Allocate(s, priority), m[h])
    {
      assert AllKeyed(s, m[h]) && s.free[0] !in m[f := s.free[1..]][h];
    }
  }

  lemma ParentsAllocated(t: Links, s: Sched, priority: int)
    requires Inv(s, None) && s.free != [] && s.running != s.Idle() && Forest(t, Kids(s)) && Parents(t, s)
    ensures s.free[0] < |s.pcbs|
    ensures Parents(WithChild(Cleared(t, s.free[0]), s.running, s.free[0]), Allocate(s, priority))
  {
    AllocateLinks(s, priority);
    FreeDetached(s);
    hide Inv, Allocate, Forest, WithChild;
    ClearForest(t, Kids(s), s.free[0]);
    UpWithChild(Cleared(t, s.free[0]), Kids(s), s.running, s.free[0]);
  }

  /** What memory shows of a new process. */
  lemma ChildHeld(s: Sched, priority: int, m: map<nat, seq<Pid>>, homes: map<Key, nat>, f: nat, r: nat, t: Links)
    requires Inv(s, None) && s.free != [] && s.running != s.Idle()
    requires Lays(m, homes, f, r, Flat(Create(s, priority))) && Parents(t, Create(s, priority))
    ensures var s', p := Create(s, priority), s.free[0];
      && p < |s'.pcbs| && |t.up| == |s'.pcbs| && t.up[p] == s.running
      && Prio(Flat(s').pcbs, p) == priority == At(Flat(s').pcbs, p).originalPriority
      && (s'.running == p <==> priority > Prio(s.pcbs, s.running)) && (s'.running == p || p in m[r])
  {
    Effects.CreationEffect(s, priority);
    Undo.Created(s, priority);
    FreeDetached(s);
    hide Inv, Create;
  }

  // ---- In memory ---------------------------------------------------------------------------------------------------

  class LinkedKernel {
    const queues: KernelQueues
    const tree: Tree

    constructor (queues: KernelQueues, tree: Tree)
      ensures this.queues == queues && this.tree == tree
    {
      this.queues, this.tree := queues, tree;
    }

    /** initPcbs, mkEmptyProcQ and a table of blank PCBs: memory holds the state before launch. */
    static method Empty(n: nat, cells: map<int, int>, devices: nat) returns (r: LinkedKernel)
      requires n > 0
      ensures r.Valid() && r.Holds(Boot.Empty(n, cells, devices))
    {
      hide Pooled, Forest;
      var pcbs := new Pcb[n + 1](_ => BLANK_PCB);
      var queues := KernelQueues.Empty(n, pcbs);
      var tree := new Tree(n + 1);
      r := new LinkedKernel(queues, tree);
      ghost var s := Boot.Empty(n, cells, devices);
      assert Flat(s).pcbs == pcbs[..] && Kids(s) == NoKids(n + 1);
    }

    ghost predicate Valid()
      reads queues, queues.queues.links.next, queues.queues.links.prev
    {
      && queues.Valid() && tree.Valid() && tree.parent.Length == queues.queues.pcbs.Length
      && queues.queues.links.next !in tree.Memory() && queues.queues.links.prev !in tree.Memory()
    }

    /** Memory holds the scheduler state `s`: each queue and each family of it as links, the other fields as they are. */
    ghost predicate Holds(s: Sched)
      reads queues, queues.queues.pcbs, tree.Memory()
    {
      && queues.Holds(Flat(s)) && OnSemaphores(queues.contents, queues.freeHead, queues.readyHead, s)
      && Forest(tree.T(), Kids(s)) && Parents(tree.T(), s)
    }

    /** The new PCB without relatives of its own, then at the end of the children of `up`. */
    method Adopt(up: Pid, p: Pid, ghost kids: seq<seq<nat>>)
      requires Valid() && Forest(tree.T(), kids) && p < |kids| && up < |kids| && p != up
      requires kids[p] == [] && Detached(p, kids)
      modifies tree.Memory()
      ensures Sized(old(tree.T()), |kids|) && tree.T() == WithChild(Cleared(old(tree.T()), p), up, p)
      ensures Forest(tree.T(), kids[up := kids[up] + [p]])
    {
      hide Family;
      tree.Clear(p, kids);
      tree.InsertChild(up, p, kids);
    }

    /** The queues and the plain fields: the first free PCB comes off the free list and gets its priorities. */
    method Reserve(priority: int, ghost s: Sched) returns (cpid: Option<Pid>)
      requires Valid() && Holds(s) && Inv(s, None) && s.running != s.Idle()
      modifies queues`contents, queues.queues.links.next, queues.queues.links.prev, queues.queues.pcbs
      ensures Valid() && cpid == if s.free == [] then None else Some(s.free[0])
      ensures s.free == [] ==> Holds(s)
      ensures s.free != [] ==>
        && queues.Holds(Flat(Allocate(s, priority)))
        && OnSemaphores(queues.contents, queues.freeHead, queues.readyHead, Allocate(s, priority))
        && Nowhere(queues.contents, s.free[0]) && Nowhere(queues.contents, s.running)
    {
      hide Inv, Allocate, Pooled, Lays, OnSemaphores, Parents, Forest;
      ghost var m, homes, f, r := queues.contents, queues.homes, queues.freeHead, queues.readyHead;
      RunningNowhere(m, homes, f, r, s);
      cpid := queues.Take();
      if cpid.Some? {
        var p, pcbs := cpid.value, queues.queues.pcbs;
        AllocateLinks(s, priority);
        LaysAllocated(m, homes, f, r, s, priority);
        SemaphoresAllocated(m, f, r, s, priority);
        pcbs[p] := Pcb(None, [], priority, priority, None, pcbs[p].devWList);
      }
    }

    /** allocPcb, the priorities and insertChild: a new last child of the running process, in no queue yet. */
    method NewChild(priority: int, ghost s: Sched) returns (cpid: Option<Pid>)
      requires Valid() && Holds(s) && Inv(s, None) && s.running != s.Idle()
      modifies queues`contents, queues.queues.links.next, queues.queues.links.prev, queues.queues.pcbs, tree.Memory()
      ensures Valid() && cpid == if s.free == [] then None else Some(s.free[0])
      ensures s.free == [] ==> Holds(s)
      ensures s.free != [] ==> Holds(Allocate(s, priority)) && s.free[0] < s.N()
      ensures s.free != [] ==> Nowhere(queues.contents, s.free[0]) && Nowhere(queues.contents, s.running)
    {
      hide Inv, Allocate, Pooled, Lays, OnSemaphores, Parents, Forest, Cleared, WithChild;
      ghost var t := tree.T();
      cpid := Reserve(priority, s);
      if cpid.Some? {
        FreeDetached(s);
        AllocateLinks(s, priority);
        ParentsAllocated(t, s, priority);
        Adopt(queues.running, cpid.value, Kids(s));
      }
    }

    /** create_process, on both kinds of links at once. */
    method CreateProcess(priority: int, ghost s: Sched) returns (ret: int, cpid: Option<Pid>)
      requires Valid() && Holds(s) && Inv(s, None) && s.running != s.Idle()
      modifies queues`contents, queues`running, queues.queues.links.next, queues.queues.links.prev, queues.queues.pcbs
      modifies tree.Memory()
      ensures Valid() && Holds(Create(s, priority))
      ensures ret == (if s.free == [] then -1 else 0) && cpid == if s.free == [] then None else Some(s.free[0])
      ensures cpid.Some? ==>
        && cpid.value < queues.queues.pcbs.Length == tree.parent.Length && tree.parent[cpid.value] == s.running
        && queues.queues.pcbs[cpid.value].priority == priority
        && queues.queues.pcbs[cpid.value].originalPriority == priority
        && (queues.running == cpid.value <==> priority > Prio(s.pcbs, s.running))
        && (queues.running == cpid.value || cpid.value in queues.contents[queues.readyHead])
    {
      hide Inv, Allocate, Pooled, Lays, Parents, Forest;
      cpid := NewChild(priority, s);
      if cpid.Some? {
        ghost var s1 := Allocate(s, priority);
        FlatSchedule(s1, cpid.value);
        ScheduleFamilies(s1, cpid.value);
        queues.ScheduleProc(cpid.value, Flat(s1));
        ret := 0;
        ChildHeld(s, priority, queues.contents, queues.homes, queues.freeHead, queues.readyHead, tree.T());
      } else {
        ret := -1;
      }
    }
  }
}
