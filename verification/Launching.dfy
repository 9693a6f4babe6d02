/** The state after launch, spelled out: who has which PCB, who runs, and in what order the others wait. */
module Launching {
  import opened Seqs
  import opened Sched
  import opened Invariants
  import opened Effects
  import opened Boot

  /** Of two starting processes the one of higher priority comes first, and of equals the one listed first. */
  predicate Before(priorities: seq<int>, a: Pid, b: Pid) {
    a < |priorities| && b < |priorities| &&
    (priorities[a] > priorities[b] || (priorities[a] == priorities[b] && a < b))
  }

  ghost predicate Ranked(priorities: seq<int>, q: seq<Pid>) {
    forall i, j :: 0 <= i < j < |q| ==> Before(priorities, q[i], q[j])
  }

  /** The PCB of a starting process, or of nobody. */
  predicate Fresh(r: Pcb, priorities: seq<int>, x: Pid) {
    r == if x < |priorities| then Pcb(None, [], priorities[x], priorities[x], None, None)
         else Pcb(None, [], 0, 0, None, None)
  }

  ghost predicate Gathered(s: Sched, n: nat, priorities: seq<int>) {
    && |s.pcbs| == n + 1 && (forall x: Pid :: x <= n ==> Fresh(At(s.pcbs, x), priorities, x))
    && (forall x: Pid :: x in s.ready <==> x < |priorities|) && Ranked(priorities, s.ready)
    && |s.free| == n - |priorities| && forall i :: 0 <= i < |s.free| ==> s.free[i] == |priorities| + i
  }

  lemma RankedSorted(s: Sched, n: nat, priorities: seq<int>)
    requires |priorities| <= n && Gathered(s, n, priorities)
    ensures Sorted(s.pcbs, s.ready) && NoDup(s.ready)
  {
    forall i, j | 0 <= i < j < |s.ready|
      ensures Prio(s.pcbs, s.ready[i]) >= Prio(s.pcbs, s.ready[j]) && s.ready[i] != s.ready[j]
    {
      assert Before(priorities, s.ready[i], s.ready[j]);
      assert Fresh(At(s.pcbs, s.ready[i]), priorities, s.ready[i]) && Fresh(At(s.pcbs, s.ready[j]), priorities, s.ready[j]);
    }
  }

  /** A longer list of priorities ranks the same. */
  lemma RankedOn(short: seq<int>, long: seq<int>, q: seq<Pid>)
    requires Ranked(short, q) && short <= long
    ensures Ranked(long, q)
  {
    forall i, j | 0 <= i < j < |q|
      ensures Before(long, q[i], q[j])
    {
      assert Before(short, q[i], q[j]);
    }
  }

  /** The last of the list queues behind its equals. */
  lemma JoinerRanked(t: seq<Pcb>, priorities: seq<int>, q: seq<Pid>, q': seq<Pid>)
    requires priorities != [] && Ranked(priorities, q) && Joins(t, q, q', |priorities| - 1)
    requires forall x :: x in q ==> x < |priorities| - 1
    requires forall x: Pid :: x < |priorities| ==> Prio(t, x) == priorities[x]
    ensures Ranked(priorities, q') && forall x :: x in q' <==> x in q || x == |priorities| - 1
  {
    hide Before, JoinsAt;
    var p := |priorities| - 1;
    var i :| 0 <= i <= |q| && JoinsAt(t, q, q', p, i);
    JoinerMembers(t, q, q', p, i);
    forall a, b | 0 <= a < b < |q'|
      ensures Before(priorities, q'[a], q'[b])
    {
      JoinerPair(t, priorities, q, q', i, a, b);
    }
  }

  lemma JoinerMembers(t: seq<Pcb>, q: seq<Pid>, q': seq<Pid>, p: Pid, i: nat)
    requires i <= |q| && JoinsAt(t, q, q', p, i)
    ensures forall x :: x in q' <==> x in q || x == p
  {
    assert q == q[..i] + q[i..];
  }

  lemma JoinerPair(t: seq<Pcb>, priorities: seq<int>, q: seq<Pid>, q': seq<Pid>, i: nat, a: nat, b: nat)
    requires priorities != [] && Ranked(priorities, q) && i <= |q| && JoinsAt(t, q, q', |priorities| - 1, i)
    requires forall x :: x in q ==> x < |priorities| - 1
    requires forall x: Pid :: x < |priorities| ==> Prio(t, x) == priorities[x]
    requires a < b < |q'|
    ensures Before(priorities, q'[a], q'[b])
  {
    if b == i {
      Former(t, q, q', |priorities| - 1, i, a);
    } else if a == i {
      Latter(t, q, q', |priorities| - 1, i, b);
    } else {
      assert Before(priorities, q[if a < i then a else a - 1], q[if b < i then b else b - 1]);
    }
  }

  lemma Former(t: seq<Pcb>, q: seq<Pid>, q': seq<Pid>, p: Pid, i: nat, a: nat)
    requires i <= |q| && JoinsAt(t, q, q', p, i) && a < i
    ensures q'[a] in q && Prio(t, q'[a]) >= Prio(t, p) && q'[i] == p
  {
    assert q'[a] == q[..i][a] && q[..i][a] in q[..i] && q[a] in q;
  }

  lemma Latter(t: seq<Pcb>, q: seq<Pid>, q': seq<Pid>, p: Pid, i: nat, b: nat)
    requires i <= |q| && JoinsAt(t, q, q', p, i) && i < b < |q'|
    ensures q'[b] in q && Prio(t, q'[b]) < Prio(t, p) && q'[i] == p
  {
    assert q'[b] == q[i..][b - 1 - i] && q[i..][b - 1 - i] in q[i..] && q[b - 1] in q;
  }

  lemma {:induction false} AllGathered(n: nat, priorities: seq<int>, cells: map<int, int>, devices: nat)
    requires |priorities| <= n
    ensures var e := Empty(n, cells, devices);
      var s := AdmitAll(e, priorities);
      && Gathered(s, n, priorities) && s.running == n
      && s.blocked == map[] && s.sems == cells && s.devs == e.devs
    decreases |priorities|
  {
    hide Joins, Enqueue, Before, Gathered, Admit;
    var e := Empty(n, cells, devices);
    if priorities != [] {
      var last := |priorities| - 1;
      var s := AdmitAll(e, priorities[..last]);
      AllGathered(n, priorities[..last], cells, devices);
      OneMore(s, n, priorities);
    } else {
      NobodyGathered(n, cells, devices);
    }
  }

  lemma NobodyGathered(n: nat, cells: map<int, int>, devices: nat)
    ensures Gathered(Empty(n, cells, devices), n, [])
  {
    var e := Empty(n, cells, devices);
    forall x: Pid | x <= n
      ensures Fresh(At(e.pcbs, x), [], x)
    {
      assert e.pcbs[x] == BLANK_PCB;
    }
  }

  lemma OneMore(s: Sched, n: nat, priorities: seq<int>)
    requires priorities != [] && |priorities| <= n && Gathered(s, n, priorities[..|priorities| - 1])
    ensures s.free != [] && Gathered(Admit(s, priorities[|priorities| - 1]), n, priorities)
    ensures var s' := Admit(s, priorities[|priorities| - 1]);
      s'.running == s.running && s'.blocked == s.blocked && s'.sems == s.sems && s'.devs == s.devs
  {
    hide Joins, Enqueue, Before, Sorted;
    var last := |priorities| - 1;
    var p, s' := s.free[0], Admit(s, priorities[last]);
    assert p == last;
    forall x: Pid | x <= n
      ensures Fresh(At(s'.pcbs, x), priorities, x)
    {
      assert Fresh(At(s.pcbs, x), priorities[..last], x);
    }
    RankedSorted(s, n, priorities[..last]);
    SortedFrame(s.pcbs, s'.pcbs, s.ready);
    EnqueueJoins(s'.pcbs, s.ready, p);
    RankedOn(priorities[..last], priorities, s.ready);
    forall x: Pid | x < |priorities|
      ensures Prio(s'.pcbs, x) == priorities[x]
    {
      assert Fresh(At(s'.pcbs, x), priorities, x);
    }
    JoinerRanked(s'.pcbs, priorities, s.ready, s'.ready);
  }

  /**
   After launch each starting process has the PCB of its position in the list, with its own priority; the highest of them,
   of equals the first, runs; the others are ready in that order. All else is free, open or idle.
   */
  lemma LaunchedIs(n: nat, priorities: seq<int>, cells: map<int, int>, devices: nat)
    requires 0 < |priorities| <= n
    ensures var s := Launched(n, priorities, cells, devices);
      && |s.pcbs| == n + 1 && s.running < |priorities|
      && (forall x: Pid :: x < |priorities| ==>
           At(s.pcbs, x) == Pcb(None, [], priorities[x], priorities[x], None, None))
      && (forall x: Pid :: x < |priorities| && x != s.running ==> x in s.ready && Before(priorities, s.running, x))
      && (forall x :: x in s.ready ==> x < |priorities| && x != s.running)
      && (forall i, j :: 0 <= i < j < |s.ready| ==> Before(priorities, s.ready[i], s.ready[j]))
      && |s.free| == n - |priorities| && (forall i :: 0 <= i < |s.free| ==> s.free[i] == |priorities| + i)
      && s.sems == cells && s.blocked == map[] && |s.devs| == devices
      && (forall d :: 0 <= d < devices ==> s.devs[d] == DevWList(1, None))
  {
    hide AdmitAll;
    var g := AdmitAll(Empty(n, cells, devices), priorities);
    AllGathered(n, priorities, cells, devices);
    LaunchedFirst(g, n, priorities);
  }

  lemma LaunchedFirst(g: Sched, n: nat, priorities: seq<int>)
    requires 0 < |priorities| <= n && Gathered(g, n, priorities)
    ensures var s := RunNext(g);
      && s == g.(ready := s.ready, running := s.running) && s.running < |priorities|
      && (forall x: Pid :: x < |priorities| ==>
           At(s.pcbs, x) == Pcb(None, [], priorities[x], priorities[x], None, None))
      && (forall x: Pid :: x < |priorities| && x != s.running ==> x in s.ready && Before(priorities, s.running, x))
      && (forall x :: x in s.ready ==> x < |priorities| && x != s.running)
      && (forall i, j :: 0 <= i < j < |s.ready| ==> Before(priorities, s.ready[i], s.ready[j]))
  {
    hide Before, Sorted;
    var q := g.ready;
    assert 0 in q;
    RankedSorted(g, n, priorities);
    Uncons(q);
    forall x | x in q && x != q[0]
      ensures Before(priorities, q[0], x)
    {
      HeadFirst(priorities, q, x);
    }
    forall x: Pid | x < |priorities|
      ensures At(g.pcbs, x) == Pcb(None, [], priorities[x], priorities[x], None, None)
    {
      assert Fresh(At(g.pcbs, x), priorities, x);
    }
  }

  lemma HeadFirst(priorities: seq<int>, q: seq<Pid>, x: Pid)
    requires Ranked(priorities, q) && x in q && x != q[0]
    ensures Before(priorities, q[0], x)
  {
    var i :| 0 <= i < |q| && q[i] == x;
    assert Before(priorities, q[0], q[i]);
  }
}
