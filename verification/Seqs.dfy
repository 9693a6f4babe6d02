/** Sequences of process identifiers: the abstract value of every queue of the kernel. */
module Seqs {

  datatype Option<+T> = None | Some(value: T)

  ghost predicate NoDup<T>(q: seq<T>) {
    forall i, j :: 0 <= i < j < |q| ==> q[i] != q[j]
  }

  /** The elements of `q` that are not in `out`, in their original order. */
  function Minus(q: seq<nat>, out: seq<nat>): (r: seq<nat>)
    ensures forall x :: x in r <==> x in q && x !in out
    ensures |r| <= |q|
  {
    if q == [] then []
    else if q[0] in out then Minus(q[1..], out)
    else [q[0]] + Minus(q[1..], out)
  }

  /** `q` without its first occurrence of `p`. */
  function Without(q: seq<nat>, p: nat): (r: seq<nat>) {
    if q == [] then []
    else if q[0] == p then q[1..]
    else [q[0]] + Without(q[1..], p)
  }

  /** How many elements of `q` precede the first occurrence of `p`. */
  function Ahead(q: seq<nat>, p: nat): (n: nat)
    ensures n <= |q|
    ensures p in q ==> n < |q| && q[n] == p
    ensures forall i :: 0 <= i < n ==> q[i] != p
  {
    if q == [] || q[0] == p then 0 else 1 + Ahead(q[1..], p)
  }

  lemma Uncons(q: seq<nat>)
    requires NoDup(q) && q != []
    ensures NoDup(q[1..]) && q[0] !in q[1..] && q == [q[0]] + q[1..]
    ensures forall x :: x in q <==> x == q[0] || x in q[1..]
  {
    assert q == [q[0]] + q[1..];
  }

  lemma NoDupConcat(a: seq<nat>, b: seq<nat>)
    requires NoDup(a) && NoDup(b) && forall x :: x in b ==> x !in a
    ensures NoDup(a + b)
  {
    forall i, j | 0 <= i < j < |a + b|
      ensures (a + b)[i] != (a + b)[j]
    {
      if i < |a| <= j {
        assert b[j - |a|] in b && a[i] in a;
      }
    }
  }

  lemma {:induction false} MinusNoDup(q: seq<nat>, out: seq<nat>)
    requires NoDup(q)
    ensures NoDup(Minus(q, out))
  {
    if q != [] {
      MinusNoDup(q[1..], out);
      assert q[0] !in q[1..];
    }
  }

  lemma {:induction false} MinusConcat(a: seq<nat>, b: seq<nat>, out: seq<nat>)
    ensures Minus(a + b, out) == Minus(a, out) + Minus(b, out)
  {
    if a == [] {
      assert a + b == b;
    } else {
      assert (a + b)[1..] == a[1..] + b;
      MinusConcat(a[1..], b, out);
    }
  }

  lemma {:induction false} MinusNothing(q: seq<nat>, out: seq<nat>)
    requires forall x :: x in q ==> x !in out
    ensures Minus(q, out) == q
  {
    if q != [] {
      assert forall x :: x in q[1..] ==> x in q;
      MinusNothing(q[1..], out);
    }
  }

  lemma {:induction false} MinusSame(q: seq<nat>, out: seq<nat>, out': seq<nat>)
    requires forall x :: x in q ==> (x in out <==> x in out')
    ensures Minus(q, out) == Minus(q, out')
  {
    if q != [] {
      assert q[0] in q;
      assert forall x :: x in q[1..] ==> x in q;
      MinusSame(q[1..], out, out');
    }
  }

  /** Taking one more element out of an already filtered queue. */
  lemma {:induction false} WithoutMinus(q: seq<nat>, out: seq<nat>, p: nat)
    requires NoDup(q)
    ensures Without(Minus(q, out), p) == Minus(q, [p] + out)
  {
    if q != [] {
      assert q[0] !in q[1..];
      WithoutMinus(q[1..], out, p);
      if q[0] == p {
        MinusSame(q[1..], out, [p] + out);
        if p in out {
          WithoutAbsent(Minus(q[1..], out), p);
        }
      }
    }
  }

  lemma {:induction false} WithoutAbsent(q: seq<nat>, p: nat)
    requires p !in q
    ensures Without(q, p) == q
  {
    if q != [] {
      assert p !in q[1..];
      WithoutAbsent(q[1..], p);
    }
  }

  /** Without drops exactly the position of `p` and nothing else. */
  lemma {:induction false} WithoutIs(q: seq<nat>, p: nat)
    requires p in q
    ensures Without(q, p) == q[..Ahead(q, p)] + q[Ahead(q, p) + 1..]
  {
    if q[0] != p {
      WithoutIs(q[1..], p);
    }
  }

  lemma WithoutProps(q: seq<nat>, p: nat)
    requires NoDup(q)
    ensures NoDup(Without(q, p))
    ensures forall x :: x in Without(q, p) <==> x in q && x != p
    ensures p in q ==> |Without(q, p)| == |q| - 1
  {
    if p in q {
      WithoutIs(q, p);
    } else {
      WithoutAbsent(q, p);
    }
  }

  lemma {:induction false} MinusAhead(q: seq<nat>, out: seq<nat>, p: nat)
    requires p in q && p !in out
    ensures Ahead(Minus(q, out), p) <= Ahead(q, p)
  {
    if q[0] != p {
      MinusAhead(q[1..], out, p);
    }
  }

  lemma AheadTail(q: seq<nat>, p: nat)
    requires p in q && q[0] != p
    ensures Ahead(q[1..], p) == Ahead(q, p) - 1
  {
  }

  lemma {:induction false} AheadUnique(q: seq<nat>, i: nat)
    requires NoDup(q) && i < |q|
    ensures Ahead(q, q[i]) == i
  {
  }

  /** Pigeonhole: distinct numbers below `n` are at most `n`. */
  lemma {:induction false} Pigeonhole(q: seq<nat>, n: nat)
    requires NoDup(q)
    requires forall x :: x in q ==> x < n
    ensures |q| <= n
    decreases n
  {
    if q != [] {
      assert q[0] in q;
      WithoutProps(q, n - 1);
      Pigeonhole(Without(q, n - 1), n - 1);
      if n - 1 !in q {
        WithoutAbsent(q, n - 1);
      }
    }
  }

  /** Filtering keeps the order of what stays. */
  lemma {:induction false} MinusOrder(q: seq<nat>, out: seq<nat>, x: nat, y: nat)
    requires x in q && y in q && x !in out && y !in out
    ensures Ahead(Minus(q, out), x) < Ahead(Minus(q, out), y) <==> Ahead(q, x) < Ahead(q, y)
  {
    if q[0] != x && q[0] != y {
      MinusOrder(q[1..], out, x, y);
    }
  }
}
