/**
 Process queues and the free list in memory: PCBs linked through `p_next`. The methods realise the queue operations of
 module Sched on the sequence of processes that a sentinel stands for.
 */
module ProcQueue {
  import opened Seqs
  import opened ListX
  import opened Sched

  lemma SlotIs(ps: seq<int>, x: int, i: nat)
    requires i <= |ps| && (forall j :: 0 <= j < i ==> ps[j] >= x) && (i < |ps| ==> ps[i] < x)
    ensures Slot(ps, x) == i
  {
  }

  class ProcQueues {
    const pcbs: array<Pcb>
    const links: ListHeads             // head `i` is the p_next of PCB `i`; the sentinels come after the PCBs

    constructor (pcbs: array<Pcb>, sentinels: nat)
      ensures this.pcbs == pcbs && Valid() && links.next.Length == pcbs.Length + sentinels
      ensures fresh(links) && fresh(links.next) && fresh(links.prev)
    {
      this.pcbs := pcbs;
      links := new ListHeads(pcbs.Length + sentinels);
    }

    ghost predicate Valid() { links.Valid() && pcbs.Length <= links.next.Length }

    /** `q` is the queue behind the sentinel `head`. */
    ghost predicate Queue(head: nat, q: seq<Pid>)
      reads links.next, links.prev
    {
      links.List([head] + q) && (forall x :: x in q ==> x < pcbs.Length) && pcbs.Length <= head
    }

    /** The only list heads written to are those of `touched`. */
    twostate predicate Only(touched: seq<nat>)
      reads links.next, links.prev
    {
      forall l: nat :: l < links.next.Length && l < links.prev.Length && l !in touched ==>
        links.next[l] == old(links.next[l]) && links.prev[l] == old(links.prev[l])
    }

    /** Where list_for_each_entry is after `i` steps. */
    function Position(head: nat, q: seq<Pid>, i: nat): nat {
      if i < |q| then q[i] else head
    }

    lemma Walk(head: nat, q: seq<Pid>, i: nat)
      requires Valid() && Queue(head, q) && i <= |q|
      ensures var at := if i == 0 then head else q[i - 1];
        at < links.next.Length && links.next[at] == Position(head, q, i)
      ensures var to := Position(head, q, i); to < links.next.Length && links.prev[to] == ([head] + q)[i]
      ensures i < |q| ==> q[i] != head && q[i] < pcbs.Length
    {
      var c := [head] + q;
      assert Joined(links.next[..], links.prev[..], c[i], c[Succ(i, |c|)]);
      assert i < |q| ==> q[i] in q && c[i + 1] == q[i] && c[0] == head;
    }

    method MkEmptyProcQ(head: nat)
      requires Valid() && pcbs.Length <= head < links.next.Length
      modifies links.next, links.prev
      ensures Queue(head, []) && Only([head])
    {
      links.InitListHead(head);
      assert [head] + [] == [head];
    }

    method EmptyProcQ(head: nat, ghost q: seq<Pid>) returns (empty: bool)
      requires Valid() && Queue(head, q)
      ensures empty <==> q == []
    {
      empty := links.ListEmpty(head, [head] + q);
    }

    /** The walk of insertProcQ: to the first process of lower priority than `p`, or round to the sentinel. */
    method FindSlot(head: nat, p: Pid, ghost q: seq<Pid>) returns (pos: nat, ghost i: nat)
      requires Valid() && Queue(head, q) && p < pcbs.Length
      ensures i == Slot(Prios(pcbs[..], q), pcbs[p].priority) && pos == Position(head, q, i) && i <= |q|
    {
      ghost var ps := Prios(pcbs[..], q);
      i := 0;
      Walk(head, q, 0);
      pos := links.next[head];
      while pos != head
        invariant 0 <= i <= |q| && pos == Position(head, q, i)
        invariant forall j :: 0 <= j < i ==> ps[j] >= pcbs[p].priority
        decreases |q| - i
      {
        Walk(head, q, i);
        if pcbs[p].priority > pcbs[pos].priority {
          SlotIs(ps, pcbs[p].priority, i);
          return;
        }
        Walk(head, q, i + 1);
        pos := links.next[pos];
        i := i + 1;
      }
      if i < |q| { Walk(head, q, i); }
      SlotIs(ps, pcbs[p].priority, i);
    }

    static lemma InsertAt(head: nat, q: seq<Pid>, i: nat, p: Pid)
      requires i <= |q|
      ensures Inserted([head] + q, i + 1, p) == [head] + (q[..i] + [p] + q[i..])
      ensures forall x :: x in q[..i] + [p] + q[i..] ==> x in q || x == p
    {
      assert ([head] + q)[..i + 1] == [head] + q[..i] && ([head] + q)[i + 1..] == q[i..];
    }

    /** insertProcQ: right before the place where the walk ended. */
    method InsertProcQ(head: nat, p: Pid, ghost q: seq<Pid>)
      requires Valid() && Queue(head, q) && p < pcbs.Length && p !in q
      modifies links.next, links.prev
      ensures Queue(head, Enqueue(pcbs[..], q, p)) && Only([head, p] + q)
    {
      ghost var c := [head] + q;
      var target, i := FindSlot(head, p, q);
      Walk(head, q, i);
      InsertAt(head, q, i, p);
      AddCycle(links.next[..], links.prev[..], c, i, p);
      assert c[Succ(i, |c|)] == target;
      links.ListAddBetween(p, links.prev[target], target);
    }

    method HeadProcQ(head: nat, ghost q: seq<Pid>) returns (r: Option<Pid>)
      requires Valid() && Queue(head, q)
      ensures r == if q == [] then None else Some(q[0])
    {
      var first := links.ListNext(head, [head] + q);
      r := if first == NULL then None else Some(first);
    }

    method RemoveProcQ(head: nat, ghost q: seq<Pid>) returns (r: Option<Pid>)
      requires Valid() && Queue(head, q)
      modifies links.next, links.prev
      ensures if q == [] then r == None && Queue(head, q) else r == Some(q[0]) && Queue(head, q[1..])
      ensures Only([head] + q)
    {
      ghost var c := [head] + q;
      var first := links.ListNext(head, c);
      if first == NULL {
        return None;
      }
      assert Removed(c, 1) == [head] + q[1..];
      DelCycle(links.next[..], links.prev[..], c, 1);
      assert forall x :: x in q[1..] ==> x in q;
      assert first in q;
      links.ListDel(first, c, 1);
      return Some(first);
    }

    /** outProcQ: the list is walked until `p` turns up; nothing changes if it does not. */
    method OutProcQ(head: nat, p: Pid, ghost q: seq<Pid>) returns (r: Option<Pid>)
      requires Valid() && Queue(head, q)
      modifies links.next, links.prev
      ensures r == (if p in q then Some(p) else None) && Queue(head, Without(q, p)) && Only([head] + q)
    {
      ghost var c, i := [head] + q, 0;
      Walk(head, q, 0);
      var pos := links.next[head];
      while pos != head
        invariant 0 <= i <= |q| && pos == Position(head, q, i) && p !in q[..i] && Valid() && Queue(head, q)
        invariant links.next[..] == old(links.next[..]) && links.prev[..] == old(links.prev[..])
        decreases |q| - i
      {
        Walk(head, q, i);
        if pos == p {
          DelCycle(links.next[..], links.prev[..], c, i + 1);
          BehindSentinel(head, q);
          OutAt(head, q, i);
          links.ListDel(p, c, i + 1);
          return Some(p);
        }
        Walk(head, q, i + 1);
        pos := links.next[pos];
        i := i + 1;
      }
      if i < |q| { Walk(head, q, i); }
      assert q[..i] == q;
      WithoutAbsent(q, p);
      return None;
    }

    static lemma OutAt(head: nat, q: seq<Pid>, i: nat)
      requires i < |q| && NoDup(q)
      ensures [head] + Without(q, q[i]) == Removed([head] + q, i + 1)
      ensures forall x :: x in Without(q, q[i]) ==> x in q
    {
      AheadUnique(q, i);
      WithoutIs(q, q[i]);
      RemovedBehind(head, q, i);
    }

    static lemma RemovedBehind(head: nat, q: seq<Pid>, i: nat)
      requires i < |q|
      ensures Removed([head] + q, i + 1) == [head] + (q[..i] + q[i + 1..])
      ensures forall x :: x in q[..i] + q[i + 1..] ==> x in q
    {
      assert ([head] + q)[..i + 1] == [head] + q[..i] && ([head] + q)[i + 2..] == q[i + 1..];
    }

    static lemma BehindSentinel(head: nat, q: seq<Pid>)
      requires NoDup([head] + q)
      ensures NoDup(q) && head !in q
    {
      Uncons([head] + q);
      assert ([head] + q)[1..] == q;
    }

    /** freePcb: to the front of the free list. */
    method FreePcb(head: nat, p: Pid, ghost q: seq<Pid>)
      requires Valid() && Queue(head, q) && p < pcbs.Length && p !in q
      modifies links.next, links.prev
      ensures Queue(head, [p] + q) && Only([head, p] + q)
    {
      ghost var c := [head] + q;
      assert [head, p] + c[1..] == [head] + ([p] + q);
      assert c[Succ(0, |c|)] in c;
      links.ListAdd(p, head, c);
    }

    /** The list part of allocPcb. */
    method AllocPcb(head: nat, ghost q: seq<Pid>) returns (r: Option<Pid>)
      requires Valid() && Queue(head, q)
      modifies links.next, links.prev
      ensures if q == [] then r == None && Queue(head, q)
              else r == Some(q[0]) && Queue(head, q[1..]) && links.List([q[0]])
      ensures Only([head] + q)
    {
      r := RemoveProcQ(head, q);
      if r.Some? {
        ghost var c := [head] + q[1..];
        ghost var nx, pv := links.next[..], links.prev[..];
        assert ([head] + q)[1] == r.value;
        assert forall i :: 0 <= i < |c| ==> c[i] == ([head] + q)[if i == 0 then 0 else i + 1];
        assert r.value in q && r.value !in c;
        links.InitListHead(r.value);
        OtherCycle(nx, pv, links.next[..], links.prev[..], c);
      }
    }

    /** initPcbs: the free list ends up in table order. */
    method InitPcbs(head: nat, n: nat)
      requires Valid() && n <= pcbs.Length <= head < links.next.Length
      modifies links.next, links.prev
      ensures Queue(head, seq(n, i requires 0 <= i < n => i))
    {
      MkEmptyProcQ(head);
      var i := n;
      ghost var q: seq<Pid> := [];
      while i > 0
        invariant 0 <= i <= n && |q| == n - i && Valid() && Queue(head, q)
        invariant forall j :: 0 <= j < n - i ==> q[j] == i + j
      {
        i := i - 1;
        FreePcb(head, i, q);
        q := [i] + q;
      }
      assert q == seq(n, i requires 0 <= i < n => i);
    }
  }
}
