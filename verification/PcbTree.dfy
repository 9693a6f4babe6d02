/**
 The process tree in memory. A parent's `p_child` leads to its first child; the children of one parent form a circular
 list through `p_sib` with the first child as its sentinel. The methods realise the operations on lists of children
 that module Sched works with. A process is named by its index, and so are the two list heads embedded in it.
 */
module PcbTree {
  import opened Seqs
  import opened ListX

  /** The link fields of all PCBs: p_sib.next, p_sib.prev, p_child.next, p_child.prev and p_parent. */
  datatype Links = Links(sn: seq<int>, sp: seq<int>, cn: seq<int>, cp: seq<int>, up: seq<int>)

  predicate Sized(t: Links, n: nat) { |t.sn| == n && |t.sp| == n && |t.cn| == n && |t.cp| == n && |t.up| == n }

  predicate ChildOk(t: Links, x: nat, k: nat) { k < |t.up| && k != x && t.up[k] == x }

  /** `ks` are the children of `x`, in order. */
  ghost predicate Family(t: Links, x: nat, ks: seq<nat>) {
    && x < |t.cn| && NoDup(ks) && (forall k :: k in ks ==> ChildOk(t, x, k))
    && (if ks == [] then t.cn[x] == NULL
        else t.cn[x] == ks[0] && ks[0] < |t.cp| && t.cp[ks[0]] == x && Cycle(t.sn, t.sp, ks))
  }

  /** The children of each process are those that `kids` says, in that order. */
  ghost predicate Forest(t: Links, kids: seq<seq<nat>>) {
    Sized(t, |kids|) && forall x :: 0 <= x < |kids| ==> Family(t, x, kids[x])
  }

  function NoKids(n: nat): seq<seq<nat>> { seq(n, i => []) }

  /** `p` hangs under nobody. */
  ghost predicate Detached(p: nat, kids: seq<seq<nat>>) {
    forall x :: 0 <= x < |kids| ==> p !in kids[x]
  }

  /** A family whose links have not been written to. */
  lemma FamilyKept(t: Links, t': Links, y: nat, ks: seq<nat>)
    requires Family(t, y, ks) && Sized(t, |t.up|) && Sized(t', |t.up|) && t'.cn[y] == t.cn[y]
    requires forall k :: k in ks ==> t'.up[k] == t.up[k] && t'.cp[k] == t.cp[k] && t'.sn[k] == t.sn[k] && t'.sp[k] == t.sp[k]
    ensures Family(t', y, ks)
  {
    forall k | k in ks
      ensures ChildOk(t', y, k)
    {
      assert ChildOk(t, y, k);
    }
    if ks != [] {
      assert ks[0] in ks;
      OtherCycle(t.sn, t.sp, t'.sn, t'.sp, ks);
    }
  }

  // ---- The operations on link fields -------------------------------------------------------------------------------

  /** The tree part of allocPcb. */
  function Cleared(t: Links, p: nat): Links
    requires Sized(t, |t.up|) && p < |t.up|
  {
    t.(up := t.up[p := NULL], cn := t.cn[p := NULL], cp := t.cp[p := NULL], sn := t.sn[p := p], sp := t.sp[p := p])
  }

  lemma ClearForest(t: Links, kids: seq<seq<nat>>, p: nat)
    requires Forest(t, kids) && p < |kids| && kids[p] == [] && Detached(p, kids)
    ensures Forest(Cleared(t, p), kids)
  {
    forall y | 0 <= y < |kids|
      ensures Family(Cleared(t, p), y, kids[y])
    {
      assert Family(t, y, kids[y]);
      if y != p { FamilyKept(t, Cleared(t, p), y, kids[y]); }
    }
  }

  function WithChild(t: Links, x: nat, p: nat): Links
    requires Sized(t, |t.up|) && x < |t.up| && p < |t.up|
  {
    if t.cn[x] == NULL then
      t.(up := t.up[p := x], cn := t.cn[x := p], cp := t.cp[p := x], sn := t.sn[p := p], sp := t.sp[p := p])
    else if 0 <= t.cn[x] < |t.up| && 0 <= t.sp[t.cn[x]] < |t.up| then
      var first := t.cn[x];
      t.(up := t.up[p := x], sn := AddNext(t.sn, p, t.sp[first], first), sp := AddPrev(t.sp, p, t.sp[first], first),
         cn := t.cn[p := NULL])
    else t
  }

  lemma UpWithChild(t: Links, kids: seq<seq<nat>>, x: nat, p: nat)
    requires Forest(t, kids) && x < |kids| && p < |kids|
    ensures WithChild(t, x, p).up == t.up[p := x]
  {
    assert Family(t, x, kids[x]);
    if kids[x] != [] {
      var last := |kids[x]| - 1;
      assert kids[x][0] in kids[x] && Joined(t.sn, t.sp, kids[x][last], kids[x][Succ(last, |kids[x]|)]);
    }
  }

  /** insertChild appends. */
  lemma InsertForest(t: Links, kids: seq<seq<nat>>, x: nat, p: nat)
    requires Forest(t, kids) && x < |kids| && p < |kids| && p != x && kids[p] == [] && Detached(p, kids)
    ensures Forest(WithChild(t, x, p), kids[x := kids[x] + [p]])
  {
    var t', ks := WithChild(t, x, p), kids[x];
    assert Family(t, x, ks) && Family(t, p, []);
    if ks != [] {
      var last := |ks| - 1;
      assert ks[0] in ks && ks[last] in ks && Joined(t.sn, t.sp, ks[last], ks[Succ(last, |ks|)]);
      AddCycle(t.sn, t.sp, ks, last, p);
      assert Inserted(ks, |ks|, p) == ks + [p];
    }
    forall k | k in ks + [p]
      ensures ChildOk(t', x, k)
    {
      assert k != p ==> ChildOk(t, x, k);
    }
    forall y | 0 <= y < |kids| && y != x
      ensures Family(t', y, kids[y])
    {
      assert Family(t, y, kids[y]);
      OthersApart(t, kids, x, y);
      if y != p { FamilyKept(t, t', y, kids[y]); }
    }
  }

  lemma OthersApart(t: Links, kids: seq<seq<nat>>, x: nat, y: nat)
    requires Forest(t, kids) && x < |kids| && y < |kids| && x != y
    ensures forall k :: k in kids[y] ==> k !in kids[x]
  {
    assert Family(t, x, kids[x]) && Family(t, y, kids[y]);
    forall k | k in kids[y]
      ensures k !in kids[x]
    {
      assert ChildOk(t, y, k);
    }
  }

  function WithoutFirst(t: Links, x: nat): Links
    requires Sized(t, |t.up|) && x < |t.up| && 0 <= t.cn[x] < |t.up|
  {
    var first := t.cn[x];
    var t1 := t.(up := t.up[first := NULL], cp := t.cp[first := NULL]);
    var p, n := t.sp[first], t.sn[first];
    if n == first then t1.(cn := t.cn[x := NULL])
    else if 0 <= n < |t.up| && 0 <= p < |t.up| then
      t1.(cn := t.cn[x := n], cp := t1.cp[n := x], sn := t.sn[p := n], sp := t.sp[n := p])
    else t
  }

  /** list_del applied to the sentinel itself: the next child is the sentinel of the rest. */
  lemma DropSentinel(sn: seq<int>, sp: seq<int>, ks: seq<nat>)
    requires Cycle(sn, sp, ks) && |ks| > 1
    ensures var last := ks[|ks| - 1];
      && ks[0] < |sn| && ks[0] < |sp| && last < |sn| && ks[1] < |sp| && sn[ks[0]] == ks[1] && sp[ks[0]] == last
      && Cycle(sn[last := ks[1]], sp[ks[1] := last], ks[1..])
  {
    var d := ks[1..] + [ks[0]];
    Rotate(sn, sp, ks);
    DelCycle(sn, sp, d, |d| - 1);
    assert Removed(d, |d| - 1) == ks[1..];
    assert ks[0] in ks && ks[1] in ks && ks[|ks| - 1] in ks;
  }

  lemma Single(t: Links, kids: seq<seq<nat>>, x: nat)
    requires Forest(t, kids) && x < |kids| && kids[x] != []
    ensures kids[x][0] < |kids| && t.cn[x] == kids[x][0] && (t.sn[kids[x][0]] == kids[x][0] <==> |kids[x]| == 1)
  {
    var ks := kids[x];
    assert Family(t, x, ks) && ks[0] in ks && ChildOk(t, x, ks[0]);
    assert Joined(t.sn, t.sp, ks[0], ks[Succ(0, |ks|)]);
  }

  /** removeChild pops the first child and hands its role of sentinel on. */
  lemma RemoveForest(t: Links, kids: seq<seq<nat>>, x: nat)
    requires Forest(t, kids) && x < |kids| && kids[x] != []
    ensures 0 <= t.cn[x] < |kids| && Forest(WithoutFirst(t, x), kids[x := kids[x][1..]])
  {
    var ks := kids[x];
    assert Family(t, x, ks);
    Single(t, kids, x);
    Uncons(ks);
    var t' := WithoutFirst(t, x);
    if |ks| > 1 {
      DropSentinel(t.sn, t.sp, ks);
      assert ks[1] in ks && ks[|ks| - 1] in ks;
    }
    forall k | k in ks[1..]
      ensures ChildOk(t', x, k)
    {
      assert ChildOk(t, x, k);
    }
    forall y | 0 <= y < |kids| && y != x
      ensures Family(t', y, kids[y])
    {
      assert Family(t, y, kids[y]);
      OthersApart(t, kids, x, y);
      FamilyKept(t, t', y, kids[y]);
    }
  }

  function WithoutLater(t: Links, p: nat): Links
    requires Sized(t, |t.up|) && p < |t.up| && 0 <= t.sn[p] < |t.up| && 0 <= t.sp[p] < |t.up|
  {
    t.(sn := t.sn[t.sp[p] := t.sn[p]], sp := t.sp[t.sn[p] := t.sp[p]])
  }

  /** The other case of outChild: a child further down the list, whose own links stay as they are. */
  lemma OutForest(t: Links, kids: seq<seq<nat>>, x: nat, at: nat)
    requires Forest(t, kids) && x < |kids| && 0 < at < |kids[x]|
    ensures var p := kids[x][at];
      && p < |kids| && 0 <= t.sn[p] < |kids| && 0 <= t.sp[p] < |kids|
      && Forest(WithoutLater(t, p), kids[x := Removed(kids[x], at)])
  {
    var ks, p := kids[x], kids[x][at];
    assert Family(t, x, ks) && p in ks && ks[0] in ks && ChildOk(t, x, p);
    DelCycle(t.sn, t.sp, ks, at);
    var t' := WithoutLater(t, p);
    forall k | k in Removed(ks, at)
      ensures k in ks && ChildOk(t', x, k)
    {
      assert k in ks[..at] || k in ks[at + 1..];
      assert ChildOk(t, x, k);
    }
    forall y | 0 <= y < |kids| && y != x
      ensures Family(t', y, kids[y])
    {
      assert Family(t, y, kids[y]);
      OthersApart(t, kids, x, y);
      FamilyKept(t, t', y, kids[y]);
    }
  }

  // ---- In memory ---------------------------------------------------------------------------------------------------

  class Tree {
    const sib: ListHeads               // p_sib
    const childNext: array<int>        // p_child.next
    const childPrev: array<int>        // p_child.prev
    const parent: array<int>           // p_parent

    constructor (n: nat)
      ensures Valid() && parent.Length == n && fresh(sib) && fresh(Memory())
      ensures Forest(T(), NoKids(n)) && T().up == seq(n, i => NULL)
    {
      sib := new ListHeads(n);
      childNext := new int[n](_ => NULL);
      childPrev := new int[n](_ => NULL);
      parent := new int[n](_ => NULL);
    }

    ghost function Memory(): set<array<int>> { {sib.next, sib.prev, childNext, childPrev, parent} }

    ghost predicate Valid() {
      && sib.Valid() && sib.next.Length == parent.Length
      && childNext.Length == parent.Length && childPrev.Length == parent.Length
      && childNext != childPrev && childNext != parent && childPrev != parent
      && sib.next != childNext && sib.next != childPrev && sib.next != parent
      && sib.prev != childNext && sib.prev != childPrev && sib.prev != parent
    }

    ghost function T(): Links
      reads Memory()
    {
      Links(sib.next[..], sib.prev[..], childNext[..], childPrev[..], parent[..])
    }

    method EmptyChild(x: nat, ghost kids: seq<seq<nat>>) returns (empty: bool)
      requires Valid() && Forest(T(), kids) && x < |kids|
      ensures empty <==> kids[x] == []
    {
      assert Family(T(), x, kids[x]);
      empty := childNext[x] == NULL;
    }

    /** A PCB that is taken from the free list starts without relatives. */
    method Clear(p: nat, ghost kids: seq<seq<nat>>)
      requires Valid() && Forest(T(), kids) && p < |kids| && kids[p] == [] && Detached(p, kids)
      modifies Memory()
      ensures T() == Cleared(old(T()), p) && Forest(T(), kids)
    {
      ClearForest(T(), kids, p);
      parent[p] := NULL;
      childNext[p] := NULL;
      childPrev[p] := NULL;
      sib.InitListHead(p);
    }

    /** insertChild: the new child is the only one, or goes to the end of the sibling list. */
    method InsertChild(prnt: nat, p: nat, ghost kids: seq<seq<nat>>)
      requires Valid() && Forest(T(), kids) && prnt < |kids| && p < |kids| && p != prnt
      requires kids[p] == [] && Detached(p, kids)
      modifies Memory()
      ensures T() == WithChild(old(T()), prnt, p) && Forest(T(), kids[prnt := kids[prnt] + [p]])
    {
      ghost var t := T();
      InsertForest(t, kids, prnt, p);
      parent[p] := prnt;
      if childNext[prnt] == NULL {
        childNext[prnt] := p;
        childPrev[p] := prnt;
        sib.next[p] := NULL;
        sib.InitListHead(p);
      } else {
        assert Family(t, prnt, kids[prnt]);
        ghost var ks := kids[prnt];
        Tail(t, prnt, ks);
        var first := childNext[prnt];
        sib.ListAddTail(p, first, ks);
        childNext[p] := NULL;
      }
      assert T() == WithChild(t, prnt, p);
    }

    static lemma Tail(t: Links, x: nat, ks: seq<nat>)
      requires Family(t, x, ks) && ks != [] && Sized(t, |t.up|)
      ensures ks[0] < |t.up| && t.sp[ks[0]] == ks[|ks| - 1] && t.cn[x] == ks[0]
    {
      assert ks[0] in ks && ChildOk(t, x, ks[0]);
      assert Joined(t.sn, t.sp, ks[|ks| - 1], ks[Succ(|ks| - 1, |ks|)]);
    }

    /** removeChild. */
    method RemoveChild(x: nat, ghost kids: seq<seq<nat>>) returns (r: int)
      requires Valid() && Forest(T(), kids) && x < |kids|
      modifies Memory()
      ensures kids[x] == [] ==> r == NULL && T() == old(T())
      ensures kids[x] != [] ==> r == kids[x][0] && r < |kids| && parent[r] == NULL && childPrev[r] == NULL
      ensures kids[x] != [] ==> Forest(T(), kids[x := kids[x][1..]])
      ensures forall p: nat :: p < |kids| && p != r ==> parent[p] == old(parent[p])
    {
      hide Cycle;
      ghost var t := T();
      assert Family(t, x, kids[x]);
      if childNext[x] == NULL {
        return NULL;
      }
      Single(t, kids, x);
      RemoveForest(t, kids, x);
      var first := childNext[x];
      parent[first] := NULL;
      childPrev[first] := NULL;
      if sib.next[first] != first {
        DropSentinel(t.sn, t.sp, kids[x]);
        ghost var d := kids[x][1..] + [kids[x][0]];
        Rotate(t.sn, t.sp, kids[x]);
        var next := sib.next[first];
        childNext[x] := next;
        childPrev[next] := x;
        sib.ListDel(first, d, |d| - 1);
      } else {
        childNext[x] := NULL;
      }
      assert T() == WithoutFirst(t, x);
      r := first;
    }

    /** outChild: wherever `p` stands in its parent's list; only a first child loses its parent link. */
    method OutChild(p: nat, ghost kids: seq<seq<nat>>, ghost at: nat) returns (r: int)
      requires Valid() && Forest(T(), kids) && p < |kids|
      requires parent[p] != NULL ==> 0 <= parent[p] < |kids| && at < |kids[parent[p]]| && kids[parent[p]][at] == p
      modifies Memory()
      ensures old(parent[p]) == NULL ==> r == NULL && T() == old(T())
      ensures old(parent[p]) != NULL ==> var up := old(parent[p]);
        r == p && parent[p] == (if at == 0 then NULL else up) && Forest(T(), kids[up := Removed(kids[up], at)])
    {
      var up := parent[p];
      if up == NULL {
        return NULL;
      }
      ghost var t, ks := T(), kids[up];
      assert Family(t, up, ks);
      if childNext[up] == p {
        assert at == 0 && Removed(ks, 0) == ks[1..];
        r := RemoveChild(up, kids);
      } else {
        OutForest(t, kids, up, at);
        DelCycle(t.sn, t.sp, ks, at);
        sib.ListDel(p, ks, at);
        assert T() == WithoutLater(t, p);
        r := p;
      }
    }

    /** nextSibling: the next child after the `i`-th, NULL after the last. */
    method NextSibling(target: nat, first: nat, ghost kids: seq<seq<nat>>, ghost x: nat, ghost i: nat) returns (r: int)
      requires Valid() && Forest(T(), kids) && x < |kids| && i < |kids[x]| && target == kids[x][i] && first == kids[x][0]
      ensures r == if i + 1 < |kids[x]| then kids[x][i + 1] else NULL
    {
      ghost var ks := kids[x];
      assert Family(T(), x, ks) && target in ks && ChildOk(T(), x, target);
      assert Joined(sib.next[..], sib.prev[..], ks[i], ks[Succ(i, |ks|)]);
      if sib.next[target] == first {
        return NULL;
      }
      r := sib.next[target];
    }
  }
}
