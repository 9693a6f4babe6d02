/** The process tree: subtrees, what termination does to them, and the supply of semaphore descriptors. */
module Forest {
  import opened Seqs
  import opened Sched
  import opened Invariants
  import opened Steps

  /** `x` is a live process in the subtree of `root`. */
  predicate Under(s: Sched, x: Pid, root: Pid) { s.Live(x) && Below(s, x, root) }

  lemma {:induction false} BelowOlder(s: Sched, x: Pid, root: Pid)
    requires Below(s, x, root)
    ensures Stamp(s, root) <= Stamp(s, x)
    ensures x != root ==> Stamp(s, root) < Stamp(s, x)
    decreases Stamp(s, x)
  {
    if x != root { BelowOlder(s, At(s.pcbs, x).parent.value, root); }
  }

  lemma {:induction false} BelowLinear(s: Sched, x: Pid, a: Pid, b: Pid)
    requires Below(s, x, a) && Below(s, x, b)
    ensures Below(s, a, b) || Below(s, b, a)
    decreases Stamp(s, x)
  {
    if x != a && x != b { BelowLinear(s, At(s.pcbs, x).parent.value, a, b); }
  }

  lemma {:induction false} BelowTransitive(s: Sched, x: Pid, y: Pid, z: Pid)
    requires Below(s, x, y) && Below(s, y, z)
    ensures Below(s, x, z)
    decreases Stamp(s, x)
  {
    if x != y { BelowTransitive(s, At(s.pcbs, x).parent.value, y, z); }
  }

  /** The subtree of a live process is that process and the subtrees of its children. */
  lemma {:induction false} UnderChild(s: Sched, x: Pid, root: Pid)
    requires TreeOk(s) && s.Live(root)
    ensures Under(s, x, root) <==> x == root || exists c :: c in At(s.pcbs, root).children && Under(s, x, c)
    decreases Stamp(s, x)
  {
    if c :| c in At(s.pcbs, root).children && Under(s, x, c) {
      assert KidsOk(s, root) && UpOk(s, c);
      assert Below(s, root, root);
      BelowTransitive(s, x, c, root);
    }
    if Under(s, x, root) && x != root {
      var up := At(s.pcbs, x).parent.value;
      assert UpOk(s, x);
      if up == root {
        assert Under(s, x, x);
      } else {
        UnderChild(s, up, root);
        var c :| c in At(s.pcbs, root).children && Under(s, up, c);
        assert Under(s, x, c);
      }
    }
  }

  /** The subtree of a process without children. */
  lemma OnlyItself(s: Sched, p: Pid)
    requires TreeOk(s) && s.Live(p) && At(s.pcbs, p).children == []
    ensures Lists([p], s, p)
  {
    forall x: Pid
      ensures x in [p] <==> s.Live(x) && Below(s, x, p)
    {
      UnderChild(s, x, p);
      assert x in [p] <==> x == p;
    }
  }

  lemma SiblingsApart(s: Sched, x: Pid, root: Pid, a: Pid, b: Pid)
    requires TreeOk(s) && s.Live(root) && a in At(s.pcbs, root).children && b in At(s.pcbs, root).children && a != b
    ensures !(Under(s, x, a) && Under(s, x, b))
  {
    assert KidsOk(s, root) && UpOk(s, a) && UpOk(s, b);
    if Under(s, x, a) && Under(s, x, b) {
      BelowLinear(s, x, a, b);
      if Below(s, a, b) { BelowOlder(s, root, b); } else { BelowOlder(s, root, a); }
      assert false;
    }
  }

  /** Nobody is its own ancestor. */
  lemma Acyclic(s: Sched, x: Pid)
    requires TreeOk(s) && s.Live(x) && At(s.pcbs, x).parent.Some?
    ensures var up := At(s.pcbs, x).parent.value; s.Live(up) && x in At(s.pcbs, up).children && !Below(s, up, x)
  {
    assert UpOk(s, x);
    var up := At(s.pcbs, x).parent.value;
    if Below(s, up, x) {
      BelowOlder(s, up, x);
      assert false;
    }
  }

  /**
   terminate_proc ends the lives of the subtree of its argument and of nobody else, and leaves none of it queued but for
   those on no semaphore whose device pointer is set.
   */
  lemma TerminateFrees(s: Sched, root: Pid, order: seq<Pid>)
    requires Inv(s, None) && Callable(s, ATerminate(root, order))
    ensures var s' := Terminate(s, root, order);
      && (forall x: Pid :: s'.Live(x) <==> s.Live(x) && !Under(s, x, root))
      && (forall x: Pid :: Under(s, x, root) ==> x in s'.free && (Freed(s', x) <==> !Stray(s.pcbs, x)))
  {
    var s' := Terminate(s, root, order);
    forall x: Pid | Under(s, x, root)
      ensures x in s'.free && (Freed(s', x) <==> !Stray(s.pcbs, x))
    {
      CutPlace(s, root, order, x);
      TerminatePlace(s, root, order, x);
    }
    forall x: Pid
      ensures s'.Live(x) <==> s.Live(x) && !Under(s, x, root)
    {
      assert x in s'.free <==> x in order || x in s.free;
    }
  }

  predicate Freed(s: Sched, x: Pid) {
    x in s.free && x !in s.ready && x != s.running && SemKeyOf(s, x) == None
  }

  /** Everybody outside the subtree stays in the queue it was in. */
  lemma TerminateSpares(s: Sched, root: Pid, order: seq<Pid>, k: Key, x: Pid)
    requires Inv(s, None) && Callable(s, ATerminate(root, order))
    ensures x in QueueOf(Terminate(s, root, order).blocked, k) <==> x in QueueOf(s.blocked, k) && !Under(s, x, root)
    ensures !Under(s, x, root) ==> (x in Cut(s, root, order).ready <==> x in s.ready)
  {
    if x in QueueOf(s.blocked, k) { QueuedLive(s, x, k); }
    assert x in s.ready ==> Places(s, None, x) == 1;
  }

  /** A running process outside the subtree keeps running; otherwise the first process left ready runs, or idle. */
  lemma TerminateRuns(s: Sched, root: Pid, order: seq<Pid>)
    requires Callable(s, ATerminate(root, order)) && Clean(s, order) && s.Live(s.running)
    ensures var s', left := Terminate(s, root, order), Minus(s.ready, order);
      if !Under(s, s.running, root) then s'.running == s.running && s'.ready == left
      else if left == [] then s'.running == s'.Idle() && s'.ready == []
      else [s'.running] + s'.ready == left
  {
    CleanChoice(s, root, order);
    hide Terminate, Clean;
    assert s.running in order <==> Under(s, s.running, root);
  }

  lemma CleanChoice(s: Sched, root: Pid, order: seq<Pid>)
    requires Clean(s, order)
    ensures var s', left := Terminate(s, root, order), Minus(s.ready, order);
      if s.running !in order then s'.running == s.running && s'.ready == left
      else if left == [] then s'.running == s'.Idle() && s'.ready == []
      else [s'.running] + s'.ready == left
  {
    CleanCut(s, root, order);
    var left := Minus(s.ready, order);
    assert left != [] ==> left == [left[0]] + left[1..];
  }

  lemma QueuedLive(s: Sched, x: Pid, k: Key)
    requires Inv(s, None) && x in QueueOf(s.blocked, k)
    ensures s.Live(x)
  {
    assert QueueLinked(s, k, s.blocked[k]);
    assert Places(s, None, x) == 1;
  }

  lemma SurvivorsKeepOrder(s: Sched, root: Pid, order: seq<Pid>, k: Key, x: Pid, y: Pid)
    requires x in QueueOf(s.blocked, k) && y in QueueOf(s.blocked, k) && x !in order && y !in order
    ensures var q, q' := QueueOf(s.blocked, k), QueueOf(Terminate(s, root, order).blocked, k);
      Ahead(q', x) < Ahead(q', y) <==> Ahead(q, x) < Ahead(q, y)
  {
    CutBlocked(s, root, order);
    hide Terminate;
    MinusOrder(QueueOf(s.blocked, k), order, x, y);
  }

  lemma CutBlocked(s: Sched, root: Pid, order: seq<Pid>)
    ensures Terminate(s, root, order).blocked == MinusAll(s.blocked, order)
  {
  }

  // ---- Semaphore descriptors ---------------------------------------------------------------------------------------

  function HeadOf(s: Sched, k: Key): Pid {
    if HasWaiter(s, k) then s.blocked[k][0] else 0
  }

  /** With a process in hand, fewer semaphores are active than there are descriptors. */
  lemma DescriptorLeft(s: Sched, hand: Pid, keys: seq<Key>)
    requires Inv(s, Some(hand)) && NoDup(keys) && forall k :: k in keys ==> k in s.blocked
    ensures |keys| < s.N()
  {
    var heads := seq(|keys|, i requires 0 <= i < |keys| => HeadOf(s, keys[i]));
    forall i | 0 <= i < |keys|
      ensures heads[i] < s.N() && SemKeyOf(s, heads[i]) == Some(keys[i])
    {
      assert keys[i] in s.blocked && QueueLinked(s, keys[i], s.blocked[keys[i]]);
      assert heads[i] in s.blocked[keys[i]];
    }
    Apart(s, Some(hand));
    NoDupConcat(heads, [hand]);
    Pigeonhole(heads + [hand], s.N());
  }
}
