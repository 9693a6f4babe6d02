/** The active semaphore list: descriptors move between a free and an active list, each active one with a queue. */
module Asl {
  import opened Seqs
  import opened Sched
  import opened Invariants
  import opened Forest

  datatype Semd = Semd(key: Option<Key>, procQ: seq<Pid>)

  // ---- The lists as values -----------------------------------------------------------------------------------------

  /** Descriptor `i` is the home of its key, and holds that key's queue. */
  ghost predicate Holds(t: seq<Semd>, i: nat, m: map<Key, seq<Pid>>, home: map<Key, nat>) {
    && i < |t| && t[i].key.Some? && t[i].key.value in m && t[i].procQ == m[t[i].key.value]
    && t[i].key.value in home && home[t[i].key.value] == i
  }

  ghost predicate Housed(t: seq<Semd>, active: seq<nat>, k: Key, home: map<Key, nat>) {
    k in home && home[k] in active && home[k] < |t| && t[home[k]].key == Some(k)
  }

  /** Every descriptor is in exactly one of the two lists, and the active ones are the map `m`, one for each key. */
  ghost predicate Represents(t: seq<Semd>, active: seq<nat>, free: seq<nat>, m: map<Key, seq<Pid>>,
                             home: map<Key, nat>) {
    && NoDup(active) && NoDup(free) && |active| + |free| == |t|
    && (forall i :: i in free ==> i < |t| && i !in active)
    && (forall i :: i in active ==> Holds(t, i, m, home))
    && (forall k :: k in m ==> Housed(t, active, k, home))
  }

  lemma Activate(t: seq<Semd>, active: seq<nat>, free: seq<nat>, m: map<Key, seq<Pid>>, home: map<Key, nat>, k: Key)
    requires Represents(t, active, free, m, home) && free != [] && k !in m
    ensures free[0] < |t|
    ensures Represents(t[free[0] := Semd(Some(k), [])], [free[0]] + active, free[1..], m[k := []], home[k := free[0]])
  {
    var i := free[0];
    Uncons(free);
    var t', m', home' := t[i := Semd(Some(k), [])], m[k := []], home[k := i];
    forall j | j in active
      ensures Holds(t', j, m', home')
    {
      assert Holds(t, j, m, home);
    }
    NoDupConcat([i], active);
    forall l | l in m'
      ensures Housed(t', [i] + active, l, home')
    {
      assert l != k ==> Housed(t, active, l, home);
    }
  }

  lemma Refill(t: seq<Semd>, active: seq<nat>, free: seq<nat>, m: map<Key, seq<Pid>>, home: map<Key, nat>,
               i: nat, q: seq<Pid>)
    requires Represents(t, active, free, m, home) && i in active
    ensures Holds(t, i, m, home)
    ensures Represents(t[i := t[i].(procQ := q)], active, free, m[t[i].key.value := q], home)
  {
    assert Holds(t, i, m, home);
    var t', m' := t[i := t[i].(procQ := q)], m[t[i].key.value := q];
    forall j | j in active
      ensures Holds(t', j, m', home)
    {
      assert Holds(t, j, m, home);
    }
    forall l | l in m'
      ensures Housed(t', active, l, home)
    {
      assert Housed(t, active, l, home);
    }
  }

  lemma Deactivate(t: seq<Semd>, active: seq<nat>, free: seq<nat>, m: map<Key, seq<Pid>>, home: map<Key, nat>, i: nat)
    requires Represents(t, active, free, m, home) && i in active
    ensures Holds(t, i, m, home)
    ensures Represents(t, Without(active, i), [i] + free, m - {t[i].key.value}, home)
  {
    assert Holds(t, i, m, home);
    var k := t[i].key.value;
    var left, m' := Without(active, i), m - {k};
    WithoutProps(active, i);
    NoDupConcat([i], free);
    forall j | j in left
      ensures Holds(t, j, m', home)
    {
      assert Holds(t, j, m, home);
    }
    forall l | l in m'
      ensures Housed(t, left, l, home)
    {
      assert Housed(t, active, l, home);
    }
  }

  function KeyAt(t: seq<Semd>, i: nat): Key {
    if i < |t| && t[i].key.Some? then t[i].key.value else Device(0)
  }

  /** A waiting process taken out of its queue, wherever it stands in it. */
  function DropOut(m: map<Key, seq<Pid>>, k: Key, p: Pid): map<Key, seq<Pid>>
    requires k in m
  {
    if Without(m[k], p) == [] then m - {k} else m[k := Without(m[k], p)]
  }

  // ---- The lists in memory -----------------------------------------------------------------------------------------

  class Asl {
    const pcbs: array<Pcb>
    const semds: array<Semd>       // semd_table
    var active: seq<nat>           // semd_h
    var free: seq<nat>             // semdFree_h
    ghost var queues: map<Key, seq<Pid>>
    ghost var home: map<Key, nat>

    ghost predicate Rep()
      reads this, semds
    {
      Represents(semds[..], active, free, queues, home)
    }

    /** No active queue is empty. */
    ghost predicate Valid()
      reads this, semds
    {
      Rep() && forall k :: k in queues ==> queues[k] != []
    }

    /** initASL. */
    constructor (pcbs: array<Pcb>, n: nat)
      ensures Valid() && this.pcbs == pcbs && semds.Length == n && fresh(semds) && queues == map[]
    {
      this.pcbs := pcbs;
      semds := new Semd[n](_ => Semd(None, []));
      active, free, queues, home := [], [], map[], map[];
      new;
      var i := 0;
      while i < n
        invariant i <= n && active == [] && queues == map[] && |free| == i && NoDup(free)
        invariant forall x :: x in free ==> x < i
      {
        semds[i] := Semd(None, []);
        NoDupConcat([i], free);
        free := [i] + free;
        i := i + 1;
      }
    }

    method GetSemd(key: Option<Key>) returns (r: Option<nat>)
      requires Rep()
      ensures r.Some? <==> key.Some? && key.value in queues
      ensures r.Some? ==>
        && r.value in active && r.value < semds.Length
        && semds[r.value] == Semd(key, queues[key.value])
    {
      var i := 0;
      assert key.Some? && key.value in queues ==> Housed(semds[..], active, key.value, home);
      while i < |active|
        invariant 0 <= i <= |active|
        invariant key.Some? && key.value in queues ==> home[key.value] !in active[..i]
      {
        assert active[i] in active && Holds(semds[..], active[i], queues, home);
        if semds[active[i]].key == key {
          return Some(active[i]);
        }
        i := i + 1;
      }
      return None;
    }

    method RetrieveFreeSemd(key: Key) returns (r: Option<nat>)
      requires Rep() && key !in queues
      modifies this, semds
      ensures Rep() && (r.None? <==> old(free) == [])
      ensures r.None? ==>
        && queues == old(queues) && active == old(active) && free == old(free)
        && semds[..] == old(semds[..])
      ensures r.Some? ==>
        && queues == old(queues)[key := []] && r.value in active && r.value < semds.Length
        && semds[r.value] == Semd(Some(key), [])
    {
      if free == [] {
        return None;
      }
      Activate(semds[..], active, free, queues, home, key);
      var i := free[0];
      free := free[1..];
      active := [i] + active;
      semds[i] := Semd(Some(key), []);
      queues, home := queues[key := []], home[key := i];
      return Some(i);
    }

    /** The descriptor of `key`, made active first if it was not; None when none is left. */
    method Descriptor(key: Key) returns (r: Option<nat>)
      requires Valid()
      modifies this, semds
      ensures Rep() && (r.None? <==> key !in old(queues) && old(free) == [])
      ensures r.None? ==> queues == old(queues)
      ensures forall k :: k in queues && queues[k] == [] ==> k == key
      ensures r.Some? ==>
        && queues == old(queues)[key := QueueOf(old(queues), key)] && r.value in active
        && r.value < semds.Length && semds[r.value] == Semd(Some(key), QueueOf(old(queues), key))
    {
      r := GetSemd(Some(key));
      if r.None? {
        r := RetrieveFreeSemd(key);
      }
    }

    method SetQueue(i: nat, q: seq<Pid>)
      requires Rep() && i in active && i < semds.Length && semds[i].key.Some?
      modifies this`queues, semds
      ensures Rep() && queues == old(queues)[old(semds[i]).key.value := q]
      ensures semds[i] == old(semds[i]).(procQ := q)
    {
      ghost var t := semds[..];
      Refill(t, active, free, queues, home, i, q);
      semds[i] := semds[i].(procQ := q);
      assert semds[..] == t[i := t[i].(procQ := q)];
      queues := queues[t[i].key.value := q];
    }

    method SetKey(p: Pid, key: Option<Key>)
      requires p < pcbs.Length
      modifies pcbs
      ensures pcbs[..] == Put(old(pcbs[..]), p, At(old(pcbs[..]), p).(semKey := key))
    {
      pcbs[p] := pcbs[p].(semKey := key);
    }

    /** Gives descriptor `i` the queue `q`, in which `p` is new. */
    method Adopt(i: nat, q: seq<Pid>, p: Pid, key: Key)
      requires Rep() && i in active && i < semds.Length && semds[i].key == Some(key) && p < pcbs.Length && q != []
      requires forall k :: k in queues && queues[k] == [] ==> k == key
      modifies this`queues, semds, pcbs
      ensures Valid() && queues == old(queues)[key := q]
      ensures pcbs[..] == Put(old(pcbs[..]), p, At(old(pcbs[..]), p).(semKey := Some(key)))
    {
      SetKey(p, Some(key));
      SetQueue(i, q);
    }

    method InsertBlockedFifo(key: Key, p: Pid) returns (full: bool)
      requires Valid() && p < pcbs.Length
      modifies this, semds, pcbs
      ensures Valid() && (full <==> key !in old(queues) && old(free) == [])
      ensures full ==> queues == old(queues) && pcbs[..] == old(pcbs[..])
      ensures !full ==> queues == old(queues)[key := QueueOf(old(queues), key) + [p]]
      ensures !full ==> pcbs[..] == Put(old(pcbs[..]), p, At(old(pcbs[..]), p).(semKey := Some(key)))
    {
      hide Represents;
      var target := Descriptor(key);
      if target.None? {
        return true;
      }
      Adopt(target.value, semds[target.value].procQ + [p], p, key);
      return false;
    }

    method InsertBlocked(key: Key, p: Pid) returns (full: bool)
      requires Valid() && p < pcbs.Length
      modifies this, semds, pcbs
      ensures Valid() && (full <==> key !in old(queues) && old(free) == [])
      ensures full ==> queues == old(queues) && pcbs[..] == old(pcbs[..])
      ensures !full ==> queues == old(queues)[key := Enqueue(old(pcbs[..]), QueueOf(old(queues), key), p)]
      ensures !full ==> pcbs[..] == Put(old(pcbs[..]), p, At(old(pcbs[..]), p).(semKey := Some(key)))
    {
      hide Represents;
      var target := Descriptor(key);
      if target.None? {
        return true;
      }
      Adopt(target.value, Enqueue(pcbs[..], semds[target.value].procQ, p), p, key);
      return false;
    }

    /** Gives the descriptor back if its queue has run empty. */
    method FreeSemdIfEmpty(i: nat)
      requires Rep() && i in active && i < semds.Length && semds[i].key.Some?
      requires forall k :: k in queues && queues[k] == [] ==> semds[i].key == Some(k)
      modifies this
      ensures Valid()
      ensures queues == if semds[i].procQ == [] then old(queues) - {semds[i].key.value} else old(queues)
    {
      assert Holds(semds[..], i, queues, home);
      if semds[i].procQ == [] {
        Deactivate(semds[..], active, free, queues, home, i);
        active := Without(active, i);
        free := [i] + free;
        queues := queues - {semds[i].key.value};
      }
    }

    method RemoveBlocked(key: Key) returns (r: Option<Pid>)
      requires Valid() && forall x :: x in QueueOf(queues, key) ==> x < pcbs.Length
      modifies this, semds, pcbs
      ensures Valid() && (r.Some? <==> key in old(queues))
      ensures r.None? ==> queues == old(queues) && pcbs[..] == old(pcbs[..])
      ensures r.Some? ==>
        && old(queues[key] != []) && r.value == old(queues)[key][0]
        && queues == DropHead(old(queues), key)
        && pcbs[..] == Put(old(pcbs[..]), r.value, At(old(pcbs[..]), r.value).(semKey := None))
    {
      hide Represents;
      var target := GetSemd(Some(key));
      if target.None? {
        return None;
      }
      var i := target.value;
      if semds[i].procQ == [] {
        return None;
      }
      var p := semds[i].procQ[0];
      assert p in QueueOf(queues, key);
      SetQueue(i, semds[i].procQ[1..]);
      SetKey(p, None);
      FreeSemdIfEmpty(i);
      return Some(p);
    }

    method OutBlocked(p: Pid) returns (r: Option<Pid>)
      requires Valid() && p < pcbs.Length
      requires pcbs[p].semKey.Some? ==> NoDup(QueueOf(queues, pcbs[p].semKey.value))
      modifies this, semds, pcbs
      ensures Valid()
      ensures var key := old(pcbs[p].semKey);
        if key.Some? && p in QueueOf(old(queues), key.value) then
          && r == Some(p) && queues == DropOut(old(queues), key.value, p)
          && pcbs[..] == Put(old(pcbs[..]), p, At(old(pcbs[..]), p).(semKey := None))
        else r == None && queues == old(queues) && pcbs[..] == old(pcbs[..])
    {
      hide Represents;
      var key := pcbs[p].semKey;
      var target := GetSemd(key);
      if target.None? {
        return None;
      }
      var i := target.value;
      if p in semds[i].procQ {
        SetQueue(i, Without(semds[i].procQ, p));
        SetKey(p, None);
        r := Some(p);
      } else {
        r := None;
      }
      FreeSemdIfEmpty(i);
    }

    method HeadBlocked(key: Key) returns (r: Option<Pid>)
      requires Valid()
      ensures r == if key in queues && queues[key] != [] then Some(queues[key][0]) else None
    {
      var target := GetSemd(Some(key));
      if target.None? || semds[target.value].procQ == [] {
        return None;
      }
      return Some(semds[target.value].procQ[0]);
    }

    /** A descriptor is left whenever a process is about to block: the panic in `p` cannot happen. */
    lemma DescriptorAvailable(s: Sched, hand: Pid)
      requires Valid() && Inv(s, Some(hand)) && s.blocked == queues && semds.Length == s.N()
      ensures free != []
    {
      var t, ids := semds[..], active;
      var keys := seq(|ids|, i requires 0 <= i < |ids| => KeyAt(t, ids[i]));
      forall i | 0 <= i < |ids|
        ensures keys[i] in queues && home[keys[i]] == ids[i]
      {
        assert ids[i] in ids && Holds(t, ids[i], queues, home);
      }
      DescriptorLeft(s, hand, keys);
    }
  }
}
