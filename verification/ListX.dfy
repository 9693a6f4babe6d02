/**
 Intrusive circular doubly linked lists. The list heads embedded in one kind of structure form a pool, in which each is
 named by its index; an index stands for the address of a head, and container_of is the identity on indices.
 */
module ListX {
  import opened Seqs

  const NULL := -1

  /** Where the walk goes from position `i` of a list of `n` heads. */
  function Succ(i: nat, n: nat): nat { if i + 1 < n then i + 1 else 0 }

  /** `c` is a whole list, its sentinel first: `next` and `prev` lead round it in the two directions. */
  ghost predicate Cycle(nx: seq<int>, pv: seq<int>, c: seq<nat>) {
    && c != [] && NoDup(c) && (forall l :: l in c ==> l < |nx| && l < |pv|)
    && forall i :: 0 <= i < |c| ==> Joined(nx, pv, c[i], c[Succ(i, |c|)])
  }

  /** `b` comes right after `a`. */
  predicate Joined(nx: seq<int>, pv: seq<int>, a: nat, b: nat) {
    a < |nx| && b < |pv| && nx[a] == b && pv[b] == a
  }

  function Inserted(c: seq<nat>, i: nat, x: nat): seq<nat>
    requires i <= |c|
  {
    c[..i] + [x] + c[i..]
  }

  function Removed(c: seq<nat>, i: nat): seq<nat>
    requires i < |c|
  {
    c[..i] + c[i + 1..]
  }

  /** The pool after __list_add(e, p, n). */
  function AddNext(nx: seq<int>, e: nat, p: nat, n: nat): seq<int>
    requires e < |nx| && p < |nx|
  {
    nx[e := n][p := e]
  }

  function AddPrev(pv: seq<int>, e: nat, p: nat, n: nat): seq<int>
    requires e < |pv| && n < |pv|
  {
    pv[n := e][e := p]
  }

  /** Any member can be taken for the sentinel. */
  lemma Rotate(nx: seq<int>, pv: seq<int>, c: seq<nat>)
    requires Cycle(nx, pv, c)
    ensures Cycle(nx, pv, c[1..] + [c[0]])
  {
    var n, d := |c|, c[1..] + [c[0]];
    forall i | 0 <= i < n
      ensures Joined(nx, pv, d[i], d[Succ(i, n)])
    {
      assert Joined(nx, pv, c[Succ(i, n)], c[Succ(Succ(i, n), n)]);
    }
    forall l | l in d
      ensures l in c
    {
      assert l in c[1..] || l == c[0];
    }
  }

  /** The links round a list with `e` added between the neighbours at `i`. */
  lemma AddJoined(nx: seq<int>, pv: seq<int>, c: seq<nat>, i: nat, e: nat, j: nat)
    requires Cycle(nx, pv, c) && i < |c| && e !in c && e < |nx| && e < |pv| && j <= |c|
    ensures c[i] in c && c[Succ(i, |c|)] in c
    ensures var d := Inserted(c, i + 1, e);
      Joined(AddNext(nx, e, c[i], c[Succ(i, |c|)]), AddPrev(pv, e, c[i], c[Succ(i, |c|)]), d[j], d[Succ(j, |d|)])
  {
    if j < i { assert Joined(nx, pv, c[j], c[Succ(j, |c|)]); }
    if j > i + 1 { assert Joined(nx, pv, c[j - 1], c[Succ(j - 1, |c|)]); }
  }

  lemma InsertedOnce(c: seq<nat>, i: nat, e: nat)
    requires NoDup(c) && i <= |c| && e !in c
    ensures NoDup(Inserted(c, i, e)) && forall l :: l in Inserted(c, i, e) <==> l in c || l == e
  {
    var d := Inserted(c, i, e);
    forall j, k | 0 <= j < k < |d|
      ensures d[j] != d[k]
    {
      assert d[j] == if j < i then c[j] else if j == i then e else c[j - 1];
      assert d[k] == if k < i then c[k] else if k == i then e else c[k - 1];
    }
    assert c == c[..i] + c[i..];
  }

  /** Adding between two neighbours inserts into the sequence. */
  lemma AddCycle(nx: seq<int>, pv: seq<int>, c: seq<nat>, i: nat, e: nat)
    requires Cycle(nx, pv, c) && i < |c| && e !in c && e < |nx| && e < |pv|
    ensures c[i] in c && c[Succ(i, |c|)] in c
    ensures Cycle(AddNext(nx, e, c[i], c[Succ(i, |c|)]), AddPrev(pv, e, c[i], c[Succ(i, |c|)]), Inserted(c, i + 1, e))
  {
    var d := Inserted(c, i + 1, e);
    InsertedOnce(c, i + 1, e);
    assert c[i] in c && c[Succ(i, |c|)] in c;
    var nx', pv' := AddNext(nx, e, c[i], c[Succ(i, |c|)]), AddPrev(pv, e, c[i], c[Succ(i, |c|)]);
    hide Joined, Inserted;
    forall j | 0 <= j < |d|
      ensures Joined(nx', pv', d[j], d[Succ(j, |d|)])
    {
      AddJoined(nx, pv, c, i, e, j);
    }
  }

  /** The links round a list without its member at `i`, whose neighbours have been joined. */
  lemma DelJoined(nx: seq<int>, pv: seq<int>, c: seq<nat>, i: nat, j: nat)
    requires Cycle(nx, pv, c) && 0 < i < |c| && j < |c| - 1
    ensures c[i - 1] in c && c[Succ(i, |c|)] in c
    ensures var d := Removed(c, i);
      Joined(nx[c[i - 1] := c[Succ(i, |c|)]], pv[c[Succ(i, |c|)] := c[i - 1]], d[j], d[Succ(j, |d|)])
  {
    if j < i - 1 { assert Joined(nx, pv, c[j], c[Succ(j, |c|)]); }
    if j >= i { assert Joined(nx, pv, c[j + 1], c[Succ(j + 1, |c|)]); }
  }

  /** Joining the neighbours of a member removes it from the sequence; its own links are not looked at any more. */
  lemma DelCycle(nx: seq<int>, pv: seq<int>, c: seq<nat>, i: nat)
    requires Cycle(nx, pv, c) && 0 < i < |c|
    ensures c[i] in c && pv[c[i]] == c[i - 1] && nx[c[i]] == c[Succ(i, |c|)] && c[i - 1] in c && c[Succ(i, |c|)] in c
    ensures Cycle(nx[c[i - 1] := c[Succ(i, |c|)]], pv[c[Succ(i, |c|)] := c[i - 1]], Removed(c, i))
  {
    var d, a, b := Removed(c, i), c[i - 1], c[Succ(i, |c|)];
    assert Joined(nx, pv, c[i - 1], c[Succ(i - 1, |c|)]) && Joined(nx, pv, c[i], b);
    var nx', pv' := nx[a := b], pv[b := a];
    assert c == c[..i] + [c[i]] + c[i + 1..];
    assert forall l :: l in d ==> l in c;
    forall j | 0 <= j < |d|
      ensures Joined(nx', pv', d[j], d[Succ(j, |d|)])
    {
      DelJoined(nx, pv, c, i, j);
    }
  }

  /** A list none of whose heads is written to stays as it was. */
  lemma OtherCycle(nx: seq<int>, pv: seq<int>, nx': seq<int>, pv': seq<int>, d: seq<nat>)
    requires Cycle(nx, pv, d) && |nx'| == |nx| && |pv'| == |pv|
    requires forall l :: l in d ==> nx'[l] == nx[l] && pv'[l] == pv[l]
    ensures Cycle(nx', pv', d)
  {
    forall i | 0 <= i < |d|
      ensures Joined(nx', pv', d[i], d[Succ(i, |d|)])
    {
      assert d[i] in d && d[Succ(i, |d|)] in d && Joined(nx, pv, d[i], d[Succ(i, |d|)]);
    }
  }

  class ListHeads {
    const next: array<int>
    const prev: array<int>

    constructor (n: nat)
      ensures fresh(next) && fresh(prev) && next != prev && next.Length == n && prev.Length == n
      ensures forall l :: 0 <= l < n ==> next[l] == NULL && prev[l] == NULL
    {
      next := new int[n](_ => NULL);
      prev := new int[n](_ => NULL);
    }

    ghost predicate Valid() { next != prev && next.Length == prev.Length }

    ghost predicate List(c: seq<nat>)
      reads next, prev
    {
      Cycle(next[..], prev[..], c)
    }

    /** INIT_LIST_HEAD. */
    method InitListHead(l: nat)
      requires Valid() && l < next.Length
      modifies next, prev
      ensures next[..] == old(next[..])[l := l] && prev[..] == old(prev[..])[l := l] && List([l])
    {
      next[l] := l;
      prev[l] := l;
    }

    /** __list_add: `entry` goes between the neighbours `p` and `n`. */
    method ListAddBetween(entry: nat, p: nat, n: nat)
      requires Valid() && entry < next.Length && p < next.Length && n < next.Length
      modifies next, prev
      ensures next[..] == AddNext(old(next[..]), entry, p, n) && prev[..] == AddPrev(old(prev[..]), entry, p, n)
    {
      prev[n] := entry;
      next[entry] := n;
      prev[entry] := p;
      next[p] := entry;
    }

    /** list_add: right after the sentinel. */
    method ListAdd(entry: nat, head: nat, ghost c: seq<nat>)
      requires Valid() && List(c) && head == c[0] && entry !in c && entry < next.Length
      modifies next, prev
      ensures List([head, entry] + c[1..])
      ensures next[..] == AddNext(old(next[..]), entry, head, c[Succ(0, |c|)])
      ensures prev[..] == AddPrev(old(prev[..]), entry, head, c[Succ(0, |c|)])
    {
      assert Joined(next[..], prev[..], c[0], c[Succ(0, |c|)]);
      AddCycle(next[..], prev[..], c, 0, entry);
      assert Inserted(c, 1, entry) == [head, entry] + c[1..];
      ListAddBetween(entry, head, next[head]);
    }

    /** list_add_tail: right before the sentinel. */
    method ListAddTail(entry: nat, head: nat, ghost c: seq<nat>)
      requires Valid() && List(c) && head == c[0] && entry !in c && entry < next.Length
      modifies next, prev
      ensures List(c + [entry]) && c[|c| - 1] < next.Length && head < next.Length
      ensures next[..] == AddNext(old(next[..]), entry, c[|c| - 1], head)
      ensures prev[..] == AddPrev(old(prev[..]), entry, c[|c| - 1], head)
    {
      ghost var last := |c| - 1;
      assert Joined(next[..], prev[..], c[last], c[Succ(last, |c|)]);
      AddCycle(next[..], prev[..], c, last, entry);
      assert Inserted(c, |c|, entry) == c + [entry];
      ListAddBetween(entry, prev[head], head);
    }

    /** list_del: the neighbours are joined; the entry's own links stay as they were. */
    method ListDel(entry: nat, ghost c: seq<nat>, ghost i: nat)
      requires Valid() && List(c) && 0 < i < |c| && c[i] == entry
      modifies next, prev
      ensures List(Removed(c, i)) && c[i - 1] < next.Length && c[Succ(i, |c|)] < next.Length
      ensures next[..] == old(next[..])[c[i - 1] := c[Succ(i, |c|)]]
      ensures prev[..] == old(prev[..])[c[Succ(i, |c|)] := c[i - 1]]
    {
      DelCycle(next[..], prev[..], c, i);
      var p, n := prev[entry], next[entry];
      prev[n] := p;
      next[p] := n;
    }

    method ListEmpty(head: nat, ghost c: seq<nat>) returns (empty: bool)
      requires Valid() && List(c) && head == c[0]
      ensures empty <==> |c| == 1
    {
      assert Joined(next[..], prev[..], c[0], c[Succ(0, |c|)]);
      empty := next[head] == head;
    }

    /** list_next: NULL for a list with no member. */
    method ListNext(current: nat, ghost c: seq<nat>) returns (r: int)
      requires Valid() && List(c) && current == c[0]
      ensures r == if |c| == 1 then NULL else c[1]
    {
      assert Joined(next[..], prev[..], c[0], c[Succ(0, |c|)]);
      if next[current] == current {
        return NULL;
      }
      return next[current];
    }
  }
}
