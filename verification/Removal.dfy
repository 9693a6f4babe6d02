/** How far the recursive removal of a subtree has come, measured against the state in which it started. */
module Removal {
  import opened Seqs
  import opened Sched
  import opened Invariants
  import opened Forest
  import opened Asl

  /** terminate_proc first puts the running process among the ready ones. */
  function Base(s: Sched): seq<Pid> { Enqueue(s.pcbs, s.ready, s.running) }

  /** The ready queue without those of `acc` that have been dequeued; strays are freed without being dequeued. */
  function Rest(s: Sched, acc: seq<Pid>): seq<Pid> { Minus(Base(s), Leaving(s.pcbs, acc)) }

  predicate RemovedPcb(r: Pcb, r': Pcb, gone: bool) {
    r' == r.(parent := r'.parent, children := r'.children, semKey := if gone then None else r.semKey)
  }

  /** In `s` exactly the processes of `acc` have been removed and freed; links may be in flux. */
  ghost predicate Removing(s0: Sched, acc: seq<Pid>, s: Sched) {
    && s == s0.(pcbs := s.pcbs, ready := Rest(s0, acc), blocked := MinusAll(s0.blocked, acc), free := acc + s0.free,
                devs := Disowned(s0.devs, s0.pcbs, acc))
    && |s.pcbs| == |s0.pcbs|
    && forall x: Pid :: RemovedPcb(At(s0.pcbs, x), At(s.pcbs, x), x in acc)
  }

  /** The tree links of the subtree of `p` are those of `s0`, but for the parent link of `p` itself. */
  ghost predicate Intact(s0: Sched, s: Sched, p: Pid) {
    forall x: Pid :: Under(s0, x, p) ==> IntactPcb(At(s0.pcbs, x), At(s.pcbs, x), x == p)
  }

  predicate IntactPcb(r: Pcb, r': Pcb, top: bool) {
    r'.children == r.children && (top || r'.parent == r.parent)
  }

  predicate Stripped(r: Pcb) { r.children == [] && r.parent == None }

  lemma BaseElements(s: Sched)
    requires Inv(s, None)
    ensures NoDup(Base(s)) && forall x :: x in Base(s) <==> x in s.ready || x == s.running
  {
    Apart(s, None);
    EnqueueElements(s.pcbs, s.ready, s.running);
  }

  /** Whatever is live and in no base queue is on the semaphore its key names. */
  lemma Whereabouts(s: Sched, p: Pid)
    requires Inv(s, None) && s.Live(p)
    ensures if SemKeyOf(s, p).Some? then
              p !in Base(s) && SemKeyOf(s, p).value in s.blocked && p in s.blocked[SemKeyOf(s, p).value]
            else p in Base(s) && forall k :: k in s.blocked ==> p !in s.blocked[k]
  {
    BaseElements(s);
    assert Places(s, None, p) == 1;
    assert KeyLinked(s, p);
    if SemKeyOf(s, p).None? {
      forall k | k in s.blocked
        ensures p !in s.blocked[k]
      {
        assert QueueLinked(s, k, s.blocked[k]);
      }
    }
  }

  lemma MinusNobody(s: Sched)
    requires Inv(s, None)
    ensures Rest(s, []) == Base(s) && MinusAll(s.blocked, []) == s.blocked && Disowned(s.devs, s.pcbs, []) == s.devs
  {
    MinusNothing(Base(s), []);
    forall k | k in s.blocked
      ensures Minus(s.blocked[k], []) == s.blocked[k] != []
    {
      assert QueueLinked(s, k, s.blocked[k]);
      MinusNothing(s.blocked[k], []);
    }
  }

  /** Key by key, taking `p` out of one filtered queue is filtering all queues by one more. */
  lemma DropOutAt(m: map<Key, seq<Pid>>, acc: seq<Pid>, k: Key, p: Pid, j: Key)
    requires k in m && k in MinusAll(m, acc) && Without(Minus(m[k], acc), p) == Minus(m[k], [p] + acc)
    requires j in m && j != k ==> Minus(m[j], [p] + acc) == Minus(m[j], acc)
    ensures var left, right := DropOut(MinusAll(m, acc), k, p), MinusAll(m, [p] + acc);
      (j in left <==> j in right) && (j in left && j in right ==> left[j] == right[j])
  {
  }

  /** One process more that is not a stray. */
  lemma OneMore(s: Sched, acc: seq<Pid>, p: Pid)
    requires !Stray(s.pcbs, p)
    ensures Leaving(s.pcbs, [p] + acc) == [p] + Leaving(s.pcbs, acc)
    ensures Disowned(s.devs, s.pcbs, [p] + acc) == Disowned(s.devs, s.pcbs, acc)
  {
    assert ([p] + acc)[1..] == acc;
    forall d: nat
      ensures Disowns(s.pcbs, [p] + acc, d) <==> Disowns(s.pcbs, acc, d)
    {
      DisownsMore(s.pcbs, acc, p, d);
    }
  }

  lemma DisownsMore(t: seq<Pcb>, acc: seq<Pid>, p: Pid, d: nat)
    ensures Disowns(t, [p] + acc, d) <==> Disowns(t, acc, d) || (Stray(t, p) && At(t, p).devWList == Some(d))
  {
    assert forall x :: x in [p] + acc <==> x == p || x in acc;
    assert Disowns(t, acc, d) ==> exists x :: x in acc && Stray(t, x) && At(t, x).devWList == Some(d);
  }

  /** One stray more: it stays where it is queued, and what its pointer leads to is cleared. */
  lemma DropStray(s: Sched, acc: seq<Pid>, p: Pid, d: nat)
    requires Inv(s, None) && s.Live(p) && Stray(s.pcbs, p) && At(s.pcbs, p).devWList == Some(d) && d < |s.devs|
    ensures Rest(s, [p] + acc) == Rest(s, acc) && MinusAll(s.blocked, [p] + acc) == MinusAll(s.blocked, acc)
    ensures var devs := Disowned(s.devs, s.pcbs, acc);
      Disowned(s.devs, s.pcbs, [p] + acc) == devs[d := devs[d].(res := None)]
  {
    assert ([p] + acc)[1..] == acc;
    Whereabouts(s, p);
    NotBlocked(s.blocked, acc, p);
    forall e: nat
      ensures Disowns(s.pcbs, [p] + acc, e) <==> Disowns(s.pcbs, acc, e) || e == d
    {
      DisownsMore(s.pcbs, acc, p, e);
    }
  }

  /** One blocked process more. */
  lemma DropBlocked(s: Sched, acc: seq<Pid>, p: Pid)
    requires Inv(s, None) && s.Live(p) && p !in acc && SemKeyOf(s, p).Some?
    ensures var m, k := MinusAll(s.blocked, acc), SemKeyOf(s, p).value;
      k in m && p in m[k] && NoDup(m[k]) && DropOut(m, k, p) == MinusAll(s.blocked, [p] + acc)
    ensures Rest(s, [p] + acc) == Rest(s, acc)
    ensures Disowned(s.devs, s.pcbs, [p] + acc) == Disowned(s.devs, s.pcbs, acc)
  {
    Whereabouts(s, p);
    OneMore(s, acc, p);
    MinusOther(Base(s), Leaving(s.pcbs, acc), p);
    DropFromQueue(s, acc, p);
  }

  lemma DropFromQueue(s: Sched, acc: seq<Pid>, p: Pid)
    requires Linked(s) && p !in acc && SemKeyOf(s, p).Some?
    requires SemKeyOf(s, p).value in s.blocked && p in s.blocked[SemKeyOf(s, p).value]
    ensures var m, k := MinusAll(s.blocked, acc), SemKeyOf(s, p).value;
      k in m && p in m[k] && NoDup(m[k]) && DropOut(m, k, p) == MinusAll(s.blocked, [p] + acc)
  {
    var k := SemKeyOf(s, p).value;
    assert QueueLinked(s, k, s.blocked[k]);
    MinusNoDup(s.blocked[k], acc);
    WithoutMinus(s.blocked[k], acc, p);
    forall j | j in s.blocked && j != k
      ensures Minus(s.blocked[j], [p] + acc) == Minus(s.blocked[j], acc)
    {
      assert QueueLinked(s, j, s.blocked[j]);
      MinusOther(s.blocked[j], acc, p);
    }
    var left, right := DropOut(MinusAll(s.blocked, acc), k, p), MinusAll(s.blocked, [p] + acc);
    forall j
      ensures j in left <==> j in right
      ensures j in left && j in right ==> left[j] == right[j]
    {
      DropOutAt(s.blocked, acc, k, p, j);
    }
    assert left.Keys == right.Keys;
  }

  lemma MinusOther(q: seq<Pid>, acc: seq<Pid>, p: Pid)
    requires p !in q
    ensures Minus(q, [p] + acc) == Minus(q, acc)
  {
    MinusSame(q, acc, [p] + acc);
  }

  /** One ready process more. */
  lemma DropReady(s: Sched, acc: seq<Pid>, p: Pid)
    requires Inv(s, None) && s.Live(p) && p !in acc && SemKeyOf(s, p).None? && At(s.pcbs, p).devWList.None?
    ensures p in Rest(s, acc) && Without(Rest(s, acc), p) == Rest(s, [p] + acc)
    ensures MinusAll(s.blocked, [p] + acc) == MinusAll(s.blocked, acc)
    ensures Disowned(s.devs, s.pcbs, [p] + acc) == Disowned(s.devs, s.pcbs, acc)
  {
    Whereabouts(s, p);
    BaseElements(s);
    OneMore(s, acc, p);
    WithoutMinus(Base(s), Leaving(s.pcbs, acc), p);
    NotBlocked(s.blocked, acc, p);
  }

  lemma NotBlocked(m: map<Key, seq<Pid>>, acc: seq<Pid>, p: Pid)
    requires forall k :: k in m ==> p !in m[k]
    ensures MinusAll(m, [p] + acc) == MinusAll(m, acc)
  {
    forall k | k in m
      ensures Minus(m[k], [p] + acc) == Minus(m[k], acc)
    {
      MinusOther(m[k], acc, p);
    }
  }

  lemma InsertedMinus(a: seq<Pid>, p: Pid, b: seq<Pid>, out: seq<Pid>)
    requires p in out
    ensures Minus(a + [p] + b, out) == Minus(a + b, out)
  {
    calc {
      Minus(a + [p] + b, out);
      { MinusConcat(a + [p], b, out); }
      Minus(a + [p], out) + Minus(b, out);
      { MinusConcat(a, [p], out); assert [p][1..] == []; }
      Minus(a, out) + Minus(b, out);
      { MinusConcat(a, b, out); }
      Minus(a + b, out);
    }
  }

  /** The temporary insertion of the running process leaves no trace in the ready queue. */
  lemma BaseMinus(s: Sched, order: seq<Pid>)
    requires Inv(s, None)
    ensures s.running in order ==> Minus(Base(s), order) == Minus(s.ready, order)
    ensures s.running !in order ==> Without(Minus(Base(s), order), s.running) == Minus(s.ready, order)
  {
    hide Conserved, Listed;
    var i, out := Slot(Prios(s.pcbs, s.ready), Prio(s.pcbs, s.running)), [s.running] + order;
    assert s.ready == s.ready[..i] + s.ready[i..];
    InsertedMinus(s.ready[..i], s.running, s.ready[i..], out);
    if s.running in order {
      InsertedMinus(s.ready[..i], s.running, s.ready[i..], order);
    } else {
      BaseElements(s);
      WithoutMinus(Base(s), order, s.running);
      Apart(s, None);
      MinusOther(s.ready, order, s.running);
    }
  }

  /** The subtrees of the first `n` children. */
  ghost predicate Handled(s: Sched, kids: seq<Pid>, n: nat, x: Pid) {
    exists i :: 0 <= i < n && i < |kids| && Under(s, x, kids[i])
  }

  lemma HandledNext(s: Sched, kids: seq<Pid>, n: nat, x: Pid)
    requires n < |kids|
    ensures Handled(s, kids, n + 1, x) <==> Handled(s, kids, n, x) || Under(s, x, kids[n])
  {
    if Handled(s, kids, n, x) {
      var i :| 0 <= i < n && i < |kids| && Under(s, x, kids[i]);
      assert i < n + 1;
    }
  }

  lemma HandledAll(s: Sched, p: Pid, x: Pid)
    requires TreeOk(s) && s.Live(p)
    ensures Under(s, x, p) <==> x == p || Handled(s, At(s.pcbs, p).children, |At(s.pcbs, p).children|, x)
  {
    var kids := At(s.pcbs, p).children;
    UnderChild(s, x, p);
    if c :| c in kids && Under(s, x, c) {
      var i :| 0 <= i < |kids| && kids[i] == c;
    }
  }

  /** The subtree of the next child is still untouched. */
  lemma NextApart(s: Sched, p: Pid, n: nat, x: Pid)
    requires TreeOk(s) && s.Live(p) && n < |At(s.pcbs, p).children| && Under(s, x, At(s.pcbs, p).children[n])
    ensures x != p && !Handled(s, At(s.pcbs, p).children, n, x) && Under(s, x, p)
    ensures s.Live(At(s.pcbs, p).children[n]) && Stamp(s, p) < Stamp(s, At(s.pcbs, p).children[n])
  {
    var kids := At(s.pcbs, p).children;
    assert kids[n] in kids && KidsOk(s, p) && UpOk(s, kids[n]);
    BelowOlder(s, x, kids[n]);
    UnderChild(s, x, p);
    if Handled(s, kids, n, x) {
      var i :| 0 <= i < n && Under(s, x, kids[i]);
      assert kids[i] in kids;
      SiblingsApart(s, x, p, kids[i], kids[n]);
    }
  }

  // ---- Progress of one call ----------------------------------------------------------------------------------------

  function Kids(s: Sched, p: Pid): seq<Pid> { At(s.pcbs, p).children }

  /** `dl` lists `p` and the subtrees of its first `n` children. */
  ghost predicate Visited(s0: Sched, p: Pid, dl: seq<Pid>, n: nat) {
    NoDup(dl) && forall x: Pid :: x in dl <==> x == p || Handled(s0, Kids(s0, p), n, x)
  }

  lemma VisitNext(s0: Sched, p: Pid, dl: seq<Pid>, dc: seq<Pid>, n: nat)
    requires Inv(s0, None) && s0.Live(p) && n < |Kids(s0, p)| && Visited(s0, p, dl, n)
    requires NoDup(dc) && forall x: Pid :: x in dc <==> Under(s0, x, Kids(s0, p)[n])
    ensures Visited(s0, p, dc + dl, n + 1)
  {
    forall x: Pid
      ensures x in dc + dl <==> x == p || Handled(s0, Kids(s0, p), n + 1, x)
      ensures x in dl ==> x !in dc
    {
      HandledNext(s0, Kids(s0, p), n, x);
      if Under(s0, x, Kids(s0, p)[n]) { NextApart(s0, p, n, x); }
    }
    NoDupConcat(dc, dl);
  }

  /** How a table entry may differ from the start of the call for `p`; `hand` is a child taken off but not yet removed. */
  predicate ProgressPcb(r: Pcb, r': Pcb, gone: bool, top: bool, hand: bool) {
    if top then r'.parent == r.parent
    else if gone then Stripped(r')
    else if hand then r' == r.(parent := None)
    else r' == r
  }

  /** From `s1` to `s` the call has removed `p` and the subtrees of its first `n` children: the processes of `dl`. */
  ghost predicate Progress(s0: Sched, s1: Sched, s: Sched, p: Pid, acc: seq<Pid>, dl: seq<Pid>, n: nat,
                           hand: Option<Pid>) {
    && Visited(s0, p, dl, n) && Removing(s0, dl + acc, s)
    && (forall x: Pid :: ProgressPcb(At(s1.pcbs, x), At(s.pcbs, x), x in dl, x == p, hand == Some(x)))
  }

  /** The `n`-th child of `p` is in hand as `target`, or all of them have been handled. */
  ghost predicate AtChild(s0: Sched, s1: Sched, s: Sched, p: Pid, acc: seq<Pid>, dl: seq<Pid>, n: nat,
                          target: Option<Pid>) {
    && Progress(s0, s1, s, p, acc, dl, n, target) && n <= |Kids(s0, p)|
    && target == (if n < |Kids(s0, p)| then Some(Kids(s0, p)[n]) else None)
    && Kids(s, p) == (if n < |Kids(s0, p)| then Kids(s0, p)[n + 1..] else [])
  }

  /** The call for `p` is through: `dl` is its subtree. */
  ghost predicate Through(s0: Sched, s1: Sched, s: Sched, p: Pid, acc: seq<Pid>, dl: seq<Pid>) {
    && NoDup(dl) && (forall x: Pid :: x in dl <==> Under(s0, x, p))
    && Removing(s0, dl + acc, s) && Kids(s, p) == []
    && (forall x: Pid :: ProgressPcb(At(s1.pcbs, x), At(s.pcbs, x), x in dl, x == p, false))
  }

  /** What a call needs: its subtree is still queued, linked as at the start, and none of it freed yet. */
  ghost predicate Removable(s0: Sched, s: Sched, p: Pid, acc: seq<Pid>) {
    && s0.Live(p) && Removing(s0, acc, s) && Intact(s0, s, p)
    && (forall x: Pid :: Under(s0, x, p) ==> x !in acc)
  }

  lemma StartProgress(s0: Sched, s1: Sched, s: Sched, p: Pid, acc: seq<Pid>)
    requires Inv(s0, None) && Removable(s0, s1, p, acc) && p < |s1.pcbs|
    requires s == s1.(pcbs := Put(s1.pcbs, p, At(s1.pcbs, p).(semKey := None)), free := [p] + s1.free,
                      ready := s.ready, blocked := s.blocked, devs := s.devs)
    requires s.ready == Rest(s0, [p] + acc) && s.blocked == MinusAll(s0.blocked, [p] + acc)
    requires s.devs == Disowned(s0.devs, s0.pcbs, [p] + acc)
    ensures Progress(s0, s1, s, p, acc, [p], 0, None) && Kids(s, p) == Kids(s0, p)
  {
    hide Steady;
    assert [p] + acc + s0.free == [p] + (acc + s0.free);
    assert Under(s0, p, p) && IntactPcb(At(s0.pcbs, p), At(s1.pcbs, p), true);
    forall x: Pid
      ensures RemovedPcb(At(s0.pcbs, x), At(s.pcbs, x), x in [p] + acc)
    {
      assert RemovedPcb(At(s0.pcbs, x), At(s1.pcbs, x), x in acc);
    }
  }

  lemma TakeProgress(s0: Sched, s1: Sched, s: Sched, s': Sched, p: Pid, acc: seq<Pid>, dl: seq<Pid>, n: nat)
    requires Inv(s0, None) && s0.Live(p) && Progress(s0, s1, s, p, acc, dl, n, None) && n < |Kids(s0, p)|
    requires var c := Kids(s0, p)[n];
      s' == s.(pcbs := Put(Put(s.pcbs, c, At(s.pcbs, c).(parent := None)),
                           p, At(s.pcbs, p).(children := Kids(s0, p)[n + 1..])))
    ensures Progress(s0, s1, s', p, acc, dl, n, Some(Kids(s0, p)[n])) && Kids(s', p) == Kids(s0, p)[n + 1..]
  {
    var c := Kids(s0, p)[n];
    assert KidsOk(s0, p) && c in Kids(s0, p);
    NextApart(s0, p, n, c);
    assert s0.Live(c) && p < |s.pcbs| && c < |s.pcbs|;
    forall x: Pid
      ensures RemovedPcb(At(s0.pcbs, x), At(s'.pcbs, x), x in dl + acc)
      ensures ProgressPcb(At(s1.pcbs, x), At(s'.pcbs, x), x in dl, x == p, Some(c) == Some(x))
    {
      assert RemovedPcb(At(s0.pcbs, x), At(s.pcbs, x), x in dl + acc);
      assert ProgressPcb(At(s1.pcbs, x), At(s.pcbs, x), x in dl, x == p, false);
    }
  }

  /** The child in hand can be removed in its turn. */
  lemma NextRemovable(s0: Sched, s1: Sched, s: Sched, p: Pid, acc: seq<Pid>, dl: seq<Pid>, n: nat)
    requires Inv(s0, None) && Removable(s0, s1, p, acc) && n < |Kids(s0, p)|
    requires AtChild(s0, s1, s, p, acc, dl, n, Some(Kids(s0, p)[n]))
    ensures Removable(s0, s, Kids(s0, p)[n], dl + acc) && Stamp(s0, p) < Stamp(s0, Kids(s0, p)[n]) < s0.births
  {
    var c := Kids(s0, p)[n];
    assert KidsOk(s0, p) && c in Kids(s0, p);
    NextApart(s0, p, n, c);
    forall x: Pid | Under(s0, x, c)
      ensures IntactPcb(At(s0.pcbs, x), At(s.pcbs, x), x == c) && x !in dl + acc
    {
      NextApart(s0, p, n, x);
      assert IntactPcb(At(s0.pcbs, x), At(s1.pcbs, x), x == p);
      assert ProgressPcb(At(s1.pcbs, x), At(s.pcbs, x), x in dl, x == p, Some(c) == Some(x));
    }
  }

  lemma ChildThrough(s0: Sched, s1: Sched, s: Sched, s': Sched, p: Pid, acc: seq<Pid>, dl: seq<Pid>, dc: seq<Pid>,
                     n: nat)
    requires Inv(s0, None) && s0.Live(p) && n < |Kids(s0, p)|
    requires AtChild(s0, s1, s, p, acc, dl, n, Some(Kids(s0, p)[n]))
    requires Through(s0, s, s', Kids(s0, p)[n], dl + acc, dc)
    ensures Progress(s0, s1, s', p, acc, dc + dl, n + 1, None) && Kids(s', p) == Kids(s0, p)[n + 1..]
  {
    hide Removing, Listed;
    assert dc + dl + acc == dc + (dl + acc);
    VisitNext(s0, p, dl, dc, n);
    forall x: Pid
      ensures ProgressPcb(At(s1.pcbs, x), At(s'.pcbs, x), x in dc + dl, x == p, false)
    {
      ChildPcb(s0, s1, s, s', p, acc, dl, dc, n, x);
    }
    assert s0.Live(Kids(s0, p)[n]) by { assert KidsOk(s0, p) && Kids(s0, p)[n] in Kids(s0, p); }
    assert Under(s0, Kids(s0, p)[n], Kids(s0, p)[n]);
    NextApart(s0, p, n, Kids(s0, p)[n]);
    ChildPcb(s0, s1, s, s', p, acc, dl, dc, n, p);
  }

  lemma ChildPcb(s0: Sched, s1: Sched, s: Sched, s': Sched, p: Pid, acc: seq<Pid>, dl: seq<Pid>, dc: seq<Pid>, n: nat,
                 x: Pid)
    requires Inv(s0, None) && s0.Live(p) && n < |Kids(s0, p)|
    requires Progress(s0, s1, s, p, acc, dl, n, Some(Kids(s0, p)[n]))
    requires Through(s0, s, s', Kids(s0, p)[n], dl + acc, dc)
    ensures ProgressPcb(At(s1.pcbs, x), At(s'.pcbs, x), x in dc + dl, x == p, false)
    ensures x == p ==> At(s'.pcbs, x).children == At(s.pcbs, x).children
  {
    var c := Kids(s0, p)[n];
    assert s0.Live(c) by { assert KidsOk(s0, p) && c in Kids(s0, p); }
    assert Under(s0, c, c);
    NextApart(s0, p, n, c);
    if Under(s0, x, c) { NextApart(s0, p, n, x); }
    assert ProgressPcb(At(s1.pcbs, x), At(s.pcbs, x), x in dl, x == p, Some(c) == Some(x));
    assert ProgressPcb(At(s.pcbs, x), At(s'.pcbs, x), x in dc, x == c, false);
  }

  lemma KidsInTable(s0: Sched, s: Sched, p: Pid, n: nat)
    requires Inv(s0, None) && s0.Live(p) && |s.pcbs| == |s0.pcbs| && n <= |Kids(s0, p)| && Kids(s, p) == Kids(s0, p)[n..]
    ensures forall c :: c in Kids(s, p) ==> c < |s.pcbs| && c != p
  {
    assert KidsOk(s0, p);
    forall c | c in Kids(s, p)
      ensures c < |s.pcbs| && c != p
    {
      assert c in Kids(s0, p) && s0.Live(c) && UpOk(s0, c);
    }
  }

  lemma AllThrough(s0: Sched, s1: Sched, s: Sched, p: Pid, acc: seq<Pid>, dl: seq<Pid>)
    requires Inv(s0, None) && s0.Live(p) && AtChild(s0, s1, s, p, acc, dl, |Kids(s0, p)|, None)
    ensures Through(s0, s1, s, p, acc, dl)
  {
    forall x: Pid
      ensures x in dl <==> Under(s0, x, p)
    {
      HandledAll(s0, p, x);
    }
  }

  /** outChild: `root` off its parent's list, its own parent link cleared only if it was the first child. */
  function Detached(t: seq<Pcb>, root: Pid): seq<Pcb> {
    seq(|t|, i requires 0 <= i < |t| =>
      if i == root then t[i].(parent := if KeepsParentLink(t, root) then t[i].parent else None)
      else if At(t, root).parent == Some(i as Pid) then t[i].(children := Without(t[i].children, root))
      else t[i])
  }

  lemma DetachedRoot(t: seq<Pcb>, root: Pid)
    requires At(t, root).parent == None
    ensures Detached(t, root) == t
  {
  }

  /** The state terminate_proc hands to the recursion. */
  function Opened(s0: Sched, root: Pid): Sched {
    s0.(pcbs := Detached(s0.pcbs, root), ready := Base(s0))
  }

  lemma EnqueueFrame(t: seq<Pcb>, t': seq<Pcb>, q: seq<Pid>, p: Pid)
    requires forall x: Pid :: Prio(t', x) == Prio(t, x)
    ensures Enqueue(t', q, p) == Enqueue(t, q, p)
  {
    assert Prios(t', q) == Prios(t, q);
  }

  lemma StartRemoval(s0: Sched, root: Pid)
    requires Inv(s0, None) && s0.Live(root)
    ensures Removable(s0, Opened(s0, root), root, [])
    ensures Enqueue(Detached(s0.pcbs, root), s0.ready, s0.running) == Base(s0)
  {
    hide Enqueue, Shape;
    var s1 := Opened(s0, root);
    MinusNobody(s0);
    assert [] + s0.free == s0.free;
    forall x: Pid
      ensures RemovedPcb(At(s0.pcbs, x), At(s1.pcbs, x), false) && Prio(s1.pcbs, x) == Prio(s0.pcbs, x)
    {
    }
    EnqueueFrame(s0.pcbs, s1.pcbs, s0.ready, s0.running);
    forall x: Pid | Under(s0, x, root)
      ensures IntactPcb(At(s0.pcbs, x), At(s1.pcbs, x), x == root)
    {
      if At(s0.pcbs, root).parent == Some(x) {
        assert UpOk(s0, root);
        BelowOlder(s0, x, root);
        assert false;
      }
    }
  }

  /** What the recursion leaves is the pruned table of the specification. */
  lemma FinishRemoval(s0: Sched, s2: Sched, root: Pid, order: seq<Pid>)
    requires Inv(s0, None) && s0.Live(root) && Through(s0, Opened(s0, root), s2, root, [], order)
    ensures Lists(order, s0, root)
    ensures s2 == Cut(s0, root, order).(ready := Rest(s0, order))
  {
    var s1, t := Opened(s0, root), Pruned(s0.pcbs, root, order);
    assert order + [] == order;
    assert root in order by { assert Under(s0, root, root); }
    forall x: Pid | x < |s0.pcbs|
      ensures s2.pcbs[x] == t[x]
    {
      assert At(t, x) == PrunedPcb(s0.pcbs, root, order, x);
      assert RemovedPcb(At(s0.pcbs, x), At(s2.pcbs, x), x in order + []);
      assert ProgressPcb(At(s1.pcbs, x), At(s2.pcbs, x), x in order, x == root, false);
    }
    assert s2.pcbs == t;
  }

  // ---- outChildBlocked ---------------------------------------------------------------------------------------------

  predicate UnblockedPcb(r: Pcb, r': Pcb, gone: bool) { r' == if gone then r.(semKey := None) else r }

  /** In `s` exactly the processes of `acc` have been taken off the semaphores they waited on. */
  ghost predicate Unblocking(s0: Sched, acc: seq<Pid>, s: Sched) {
    && s == s0.(pcbs := s.pcbs, blocked := MinusAll(s0.blocked, acc)) && |s.pcbs| == |s0.pcbs|
    && forall x: Pid :: UnblockedPcb(At(s0.pcbs, x), At(s.pcbs, x), x in acc)
  }

  lemma UnblockOne(s0: Sched, s: Sched, s': Sched, p: Pid, acc: seq<Pid>)
    requires Inv(s0, None) && s0.Live(p) && Unblocking(s0, acc, s)
    requires s' == s.(pcbs := Put(s.pcbs, p, At(s.pcbs, p).(semKey := None)), blocked := MinusAll(s0.blocked, [p] + acc))
    ensures Unblocking(s0, [p] + acc, s')
  {
    forall x: Pid
      ensures UnblockedPcb(At(s0.pcbs, x), At(s'.pcbs, x), x in [p] + acc)
    {
      assert UnblockedPcb(At(s0.pcbs, x), At(s.pcbs, x), x in acc);
    }
  }

  lemma VisitReady(s0: Sched, p: Pid, acc: seq<Pid>, dl: seq<Pid>, n: nat)
    requires Inv(s0, None) && s0.Live(p) && n < |Kids(s0, p)| && Visited(s0, p, dl, n)
    requires forall x: Pid :: Under(s0, x, p) ==> x !in acc
    ensures var c := Kids(s0, p)[n];
      s0.Live(c) && Stamp(s0, p) < Stamp(s0, c) && forall x: Pid :: Under(s0, x, c) ==> x !in dl + acc
  {
    var c := Kids(s0, p)[n];
    assert KidsOk(s0, p) && c in Kids(s0, p);
    assert Under(s0, c, c);
    forall x: Pid | Under(s0, x, c)
      ensures x !in dl + acc
    {
      NextApart(s0, p, n, x);
    }
    NextApart(s0, p, n, c);
  }

  lemma VisitedAll(s0: Sched, p: Pid, dl: seq<Pid>)
    requires Inv(s0, None) && s0.Live(p) && Visited(s0, p, dl, |Kids(s0, p)|)
    ensures Lists(dl, s0, p)
  {
    forall x: Pid
      ensures x in dl <==> Under(s0, x, p)
    {
      HandledAll(s0, p, x);
    }
  }
}
