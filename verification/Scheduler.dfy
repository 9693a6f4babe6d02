/** The scheduler as the kernel runs it: global queues and PCB tables updated in place, step by step. */
module Scheduler {
  import opened Seqs
  import opened Sched
  import opened Invariants
  import opened Devices
  import opened Forest
  import opened Boot
  import opened Machine
  import opened Removal
  import A = Asl
  import Spec = Sched

  /** Aging the processes of a queue one at a time. */
  lemma AgeOneMore(t: seq<Pcb>, q: seq<Pid>, i: nat)
    requires NoDup(q) && i < |q| && q[i] < |t|
    ensures Age(t, q[..i])[q[i] := Aged(Age(t, q[..i])[q[i]])] == Age(t, q[..i + 1])
  {
    assert q[..i + 1] == q[..i] + [q[i]];
    assert q[i] !in q[..i];
  }

  /** Waking somebody does not look at the values of the semaphores. */
  lemma WakeIgnoresValues(s: Sched, v: map<int, int>, k: Key)
    requires HasWaiter(s, k)
    ensures var p := s.blocked[k][0];
      Spec.ScheduleProc(Release(s.(sems := v), k), p).(sems := s.sems) == Spec.ScheduleProc(Release(s, k), p)
  {
  }

  lemma UpAndDown(m: map<int, int>, a: int)
    requires a in m
    ensures var m' := m[a := m[a] + 1]; m'[a := m'[a] - 1] == m
    ensures var m' := m[a := m[a] - 1]; m'[a := m'[a] + 1] == m
  {
  }

  lemma AgeNobody(t: seq<Pcb>)
    ensures Age(t, []) == t
  {
  }

  function Blank(n: nat): seq<Account> {
    seq(n, i requires 0 <= i < n => BLANK_ACCOUNT)
  }

  function Priorities(starting: seq<(Context, int)>): seq<int> {
    seq(|starting|, i requires 0 <= i < |starting| => starting[i].1)
  }

  function Contexts(starting: seq<(Context, int)>): seq<Context> {
    seq(|starting|, i requires 0 <= i < |starting| => starting[i].0)
  }

  class Scheduler {
    const pcbs: array<Pcb>             // pcbFree_table, with idle_proc as its last entry
    const accounts: array<Account>     // the timer fields of the PCBs
    const saved: array<Context>        // the p_s fields of the PCBs
    const asl: A.Asl
    const devWLists: array<DevWList>
    var pcbFree: seq<Pid>
    var readyQueue: seq<Pid>
    var runningProc: Pid
    var sems: map<int, int>            // the cells that `p` and `v` are applied to
    ghost var birth: seq<nat>
    ghost var births: nat

    ghost predicate Valid()
      reads this, asl, asl.semds
    {
      && pcbs.Length >= 2 && accounts.Length == pcbs.Length && saved.Length == pcbs.Length
      && asl.pcbs == pcbs && asl.Valid() && asl.semds.Length == pcbs.Length - 1
      && runningProc < pcbs.Length && |birth| == pcbs.Length
    }

    /** The scheduler's state as a value. */
    ghost function S(): Sched
      reads this, pcbs, asl, devWLists
    {
      Sched(pcbs[..], pcbFree, readyQueue, runningProc, asl.queues, sems, devWLists[..], birth, births)
    }

    function IdleProc(): Pid
      requires pcbs.Length > 0
    {
      pcbs.Length - 1
    }

    // ---- Initialization --------------------------------------------------------------------------------------------

    /** The tables and lists of init_scheduler, before any process is admitted. */
    constructor (n: nat, cells: map<int, int>, devices: nat)
      requires n >= 1
      ensures Valid() && fresh(pcbs) && fresh(accounts) && fresh(saved) && fresh(asl) && fresh(asl.semds)
      ensures fresh(devWLists) && S() == Empty(n, cells, devices)
      ensures accounts[..] == Blank(n + 1) && saved[..] == Padded([], n + 1)
    {
      var table := new Pcb[n + 1](_ => BLANK_PCB);
      pcbs := table;
      accounts := new Account[n + 1](_ => BLANK_ACCOUNT);
      saved := new Context[n + 1](_ => BLANK_CONTEXT);
      asl := new A.Asl(table, n);
      devWLists := new DevWList[devices](_ => DevWList(0, None));
      pcbFree, readyQueue, runningProc, sems := [], [], n, cells;
      birth, births := seq(n + 1, i requires 0 <= i < n + 1 => 0), 0;
      new;
      InitPcbs();
      InitDevices();
      assert S() == Empty(n, cells, devices);
    }

    /** init_scheduler and launch. */
    static method Boot(n: nat, starting: seq<(Context, int)>, cells: map<int, int>, devices: nat, tod: int)
      returns (k: Scheduler)
      requires 0 < |starting| <= n && forall a :: a in cells ==> cells[a] >= 0
      ensures k.Valid() && fresh(k) && k.pcbs.Length == n + 1 && k.devWLists.Length == devices
      ensures k.S() == Launched(n, Priorities(starting), cells, devices)
      ensures k.accounts[..] == SetAcct(Blank(n + 1), k.runningProc, Account(0, 0, tod, tod))
      ensures k.saved[..] == Padded(Contexts(starting), n + 1)
    {
      k := new Scheduler(n, cells, devices);
      k.Start(n, starting, cells, devices, tod);
    }

    /** The starting processes admitted, and the best of them launched. */
    method Start(n: nat, starting: seq<(Context, int)>, ghost cells: map<int, int>, ghost devices: nat, tod: int)
      requires 0 < |starting| <= n && forall a :: a in cells ==> cells[a] >= 0
      requires Valid() && pcbs.Length == n + 1 && S() == Empty(n, cells, devices)
      requires accounts[..] == Blank(n + 1) && saved[..] == Padded([], n + 1)
      modifies this`pcbFree, this`readyQueue, this`runningProc, this`birth, this`births, pcbs, accounts, saved
      ensures Valid() && S() == Launched(n, Priorities(starting), cells, devices)
      ensures accounts[..] == SetAcct(Blank(n + 1), runningProc, Account(0, 0, tod, tod))
      ensures saved[..] == Padded(Contexts(starting), n + 1)
    {
      hide Enqueue, AdmitAll;
      StartingReady(n, Priorities(starting), cells, devices);
      InitScheduler(starting, Empty(n, cells, devices));
      Launch(tod);
    }

    /** initPcbs: every ordinary PCB of the table is put on the free list. */
    method InitPcbs()
      requires pcbs.Length > 0 && pcbFree == []
      modifies this`pcbFree
      ensures pcbFree == Empty(pcbs.Length - 1, map[], 0).free
    {
      var i := pcbs.Length - 1;
      while i > 0
        invariant 0 <= i < pcbs.Length && |pcbFree| == pcbs.Length - 1 - i
        invariant forall j :: 0 <= j < |pcbFree| ==> pcbFree[j] == i + j
      {
        i := i - 1;
        pcbFree := [i] + pcbFree;
      }
    }

    method InitDevices()
      modifies devWLists
      ensures devWLists[..] == Empty(0, map[], devWLists.Length).devs
    {
      var d := 0;
      while d < devWLists.Length
        invariant 0 <= d <= devWLists.Length
        invariant forall e :: 0 <= e < d ==> devWLists[e] == DevWList(1, None)
      {
        devWLists[d] := DevWList(1, None);
        d := d + 1;
      }
    }

    /** launch: the first ready process runs, and its clock starts. */
    method Launch(tod: int)
      requires Valid() && readyQueue != [] && forall x :: x in readyQueue ==> x < pcbs.Length
      modifies this`readyQueue, this`runningProc, accounts
      ensures Valid() && S() == RunNext(old(S()))
      ensures accounts[..] == SetAcct(old(accounts[..]), runningProc,
                Acct(old(accounts[..]), runningProc).(todAtStart := tod, todCache := tod))
    {
      var first := RemoveReady();
      assert first.value in old(readyQueue);
      SetRunningProc(first);
      accounts[runningProc] := accounts[runningProc].(todAtStart := tod, todCache := tod);
    }

    /** The loop of init_scheduler over its starting processes. */
    method InitScheduler(starting: seq<(Context, int)>, ghost empty: Sched)
      requires Valid() && S() == empty && Waking(empty) && |starting| <= |pcbFree|
      requires forall i :: 0 <= i < |pcbFree| ==> pcbFree[i] == i
      requires saved[..] == Padded([], pcbs.Length)
      requires accounts[..] == Blank(pcbs.Length)
      modifies this`pcbFree, this`readyQueue, this`birth, this`births, pcbs, accounts, saved
      ensures Valid() && S() == AdmitAll(empty, Priorities(starting))
      ensures saved[..] == Padded(Contexts(starting), pcbs.Length)
      ensures accounts[..] == old(accounts[..])
    {
      hide Protocol, A.Represents, Enqueue;
      ghost var prios := Priorities(starting);
      assert prios[..0] == [] && Contexts(starting)[..0] == [];
      var j := 0;
      while j < |starting|
        invariant 0 <= j <= |starting| && Valid()
        invariant S() == AdmitAll(empty, prios[..j])
        invariant saved[..] == Padded(Contexts(starting)[..j], pcbs.Length)
        invariant accounts[..] == old(accounts[..])
      {
        AdmitAllFree(empty, prios[..j]);
        AdmitAllSteady(empty, prios[..j]);
        AdmitNext(empty, prios, j);
        PaddedNext(Contexts(starting), pcbs.Length, j);
        AdmitOne(starting[j].0, starting[j].1);
        j := j + 1;
      }
      assert prios[..j] == prios && Contexts(starting)[..j] == Contexts(starting);
    }

    method AdmitOne(state: Context, priority: int)
      requires Valid() && pcbFree != [] && accounts[..] == Blank(pcbs.Length)
      requires forall x :: x in pcbFree ==> x < pcbs.Length
      modifies this`pcbFree, this`readyQueue, this`birth, this`births, pcbs, accounts, saved
      ensures Valid() && S() == Admit(old(S()), priority)
      ensures saved[..] == SetCtx(old(saved[..]), old(pcbFree[0]), state)
      ensures accounts[..] == old(accounts[..])
    {
      ghost var s := S();
      assert pcbFree[0] in pcbFree;
      var free := AllocPcb();
      var p := free.value;
      assert accounts[..] == Blank(pcbs.Length);
      saved[p] := state;
      pcbs[p] := pcbs[p].(priority := priority, originalPriority := priority);
      assert pcbs[..] == Admit(s, priority).pcbs;
      readyQueue := Enqueue(pcbs[..], readyQueue, p);
    }

    // ---- The running process and the ready queue -------------------------------------------------------------------

    method StopRunningProc()
      requires Valid()
      modifies this`readyQueue, pcbs
      ensures Valid() && S() == StopRunning(old(S()))
    {
      if runningProc != IdleProc() {
        pcbs[runningProc] := pcbs[runningProc].(priority := pcbs[runningProc].originalPriority);
        readyQueue := Enqueue(pcbs[..], readyQueue, runningProc);
      }
    }

    method SetRunningProc(p: Option<Pid>)
      requires Valid() && (p.Some? ==> p.value < pcbs.Length)
      modifies this`runningProc
      ensures Valid() && S() == old(S()).(running := if p.Some? then p.value else old(S()).Idle())
    {
      runningProc := if p.Some? then p.value else IdleProc();
    }

    method RemoveReady() returns (p: Option<Pid>)
      requires Valid()
      modifies this`readyQueue
      ensures Valid()
      ensures if old(readyQueue) == [] then p == None && S() == old(S())
              else p == Some(old(readyQueue)[0]) && S() == old(S()).(ready := old(readyQueue)[1..])
    {
      if readyQueue == [] {
        return None;
      }
      p := Some(readyQueue[0]);
      readyQueue := readyQueue[1..];
    }

    method ScheduleProc(p: Pid)
      requires Valid() && p < pcbs.Length
      modifies this`readyQueue, this`runningProc, pcbs
      ensures Valid() && S() == Spec.ScheduleProc(old(S()), p)
    {
      if pcbs[p].priority > pcbs[runningProc].priority || runningProc == IdleProc() {
        StopRunningProc();
        SetRunningProc(Some(p));
      } else {
        readyQueue := Enqueue(pcbs[..], readyQueue, p);
      }
    }

    method PopRunning() returns (prev: Pid)
      requires Valid() && forall x :: x in readyQueue ==> x < pcbs.Length
      modifies this`readyQueue, this`runningProc
      ensures Valid() && S() == RunNext(old(S())) && prev == old(runningProc)
    {
      prev := runningProc;
      assert readyQueue != [] ==> readyQueue[0] in readyQueue;
      var next := RemoveReady();
      SetRunningProc(next);
    }

    // ---- Timers ----------------------------------------------------------------------------------------------------

    method FlushUserTime(p: Pid, tod: int)
      requires Valid() && p < pcbs.Length
      modifies accounts
      ensures accounts[..] == FlushUser(old(accounts[..]), p, tod)
    {
      var x := accounts[p];
      accounts[p] := x.(user := x.user + (tod - x.todCache), todCache := tod);
    }

    method FlushKernelTime(p: Pid, tod: int)
      requires Valid() && p < pcbs.Length
      modifies accounts
      ensures accounts[..] == FlushKernel(old(accounts[..]), p, tod)
    {
      var x := accounts[p];
      accounts[p] := x.(kernel := x.kernel + (tod - x.todCache), todCache := tod);
    }

    method FlushResetTime(p: Pid, tod: int)
      requires Valid() && p < pcbs.Length
      modifies accounts
      ensures accounts[..] == FlushReset(old(accounts[..]), p, tod)
    {
      accounts[p] := accounts[p].(todCache := tod);
    }

    // ---- Creation --------------------------------------------------------------------------------------------------

    method AllocPcb() returns (r: Option<Pid>)
      requires Valid() && forall x :: x in pcbFree ==> x < pcbs.Length
      modifies this`pcbFree, this`birth, this`births, pcbs, accounts, saved
      ensures Valid() && (r.None? <==> old(pcbFree) == [])
      ensures r.None? ==> S() == old(S()) && accounts[..] == old(accounts[..]) && saved[..] == old(saved[..])
      ensures r.Some? ==> r.value == old(pcbFree)[0] && r.value < pcbs.Length
      ensures r.Some? ==>
        && S() == old(S()).(free := old(pcbFree)[1..],
             pcbs := Put(old(pcbs[..]), r.value, BLANK_PCB.(devWList := At(old(pcbs[..]), r.value).devWList)),
             birth := old(birth)[r.value := old(births)], births := old(births) + 1)
        && accounts[..] == SetAcct(old(accounts[..]), r.value, BLANK_ACCOUNT)
        && saved[..] == SetCtx(old(saved[..]), r.value, BLANK_CONTEXT)
    {
      if pcbFree == [] {
        return None;
      }
      var p := pcbFree[0];
      assert p in pcbFree;
      pcbFree := pcbFree[1..];
      pcbs[p] := pcbs[p].(priority := 0, originalPriority := 0, semKey := None, parent := None, children := []);
      accounts[p] := Account(0, 0, 0, 0);
      saved[p] := BLANK_CONTEXT;
      birth, births := birth[p := births], births + 1;
      return Some(p);
    }

    method InsertChild(parent: Pid, p: Pid)
      requires Valid() && parent < pcbs.Length && p < pcbs.Length && p != parent && pcbs[p].children == []
      modifies pcbs
      ensures Valid()
      ensures var t := Put(old(pcbs[..]), p, At(old(pcbs[..]), p).(parent := Some(parent)));
        S() == old(S()).(pcbs := Put(t, parent, At(t, parent).(children := At(t, parent).children + [p])))
    {
      pcbs[p] := pcbs[p].(parent := Some(parent));
      if pcbs[parent].children == [] {
        assert [] + [p] == [p];
        pcbs[parent] := pcbs[parent].(children := [p]);
      } else {
        pcbs[parent] := pcbs[parent].(children := pcbs[parent].children + [p]);
        pcbs[p] := pcbs[p].(children := []);
      }
    }

    /** The part of create_process before scheduling. */
    method NewChild(state: Context, priority: int) returns (cpid: Option<Pid>)
      requires Valid() && Inv(S(), None) && runningProc != IdleProc()
      modifies this`pcbFree, this`birth, this`births, pcbs, accounts, saved
      ensures Valid() && (cpid.None? <==> old(pcbFree) == [])
      ensures cpid.None? ==> S() == old(S()) && saved[..] == old(saved[..]) && accounts[..] == old(accounts[..])
      ensures cpid.Some? ==>
        && cpid.value == old(pcbFree)[0] && cpid.value < pcbs.Length && S() == Allocate(old(S()), priority)
        && saved[..] == SetCtx(old(saved[..]), cpid.value, state)
        && accounts[..] == SetAcct(old(accounts[..]), cpid.value, BLANK_ACCOUNT)
    {
      hide TreeOk, A.Represents;
      ghost var s := S();
      Apart(s, None);
      cpid := AllocPcb();
      if cpid.Some? {
        var p := cpid.value;
        assert p in s.free && p != runningProc;
        saved[p] := state;
        pcbs[p] := pcbs[p].(priority := priority, originalPriority := priority);
        InsertChild(runningProc, p);
        assert pcbs[..] == Allocate(s, priority).pcbs;
      }
    }

    method CreateProcess(state: Context, priority: int) returns (ret: int, cpid: Option<Pid>)
      requires Valid() && Inv(S(), None) && runningProc != IdleProc()
      modifies this`pcbFree, this`readyQueue, this`runningProc, this`birth, this`births, pcbs, accounts, saved
      ensures Valid() && S() == Create(old(S()), priority) && ret == Result(old(S()), ACreate(priority))
      ensures if old(pcbFree) == [] then
                cpid == None && saved[..] == old(saved[..]) && accounts[..] == old(accounts[..])
              else
                && cpid == Some(old(pcbFree)[0])
                && saved[..] == SetCtx(old(saved[..]), old(pcbFree)[0], state)
                && accounts[..] == SetAcct(old(accounts[..]), old(pcbFree)[0], BLANK_ACCOUNT)
    {
      cpid := NewChild(state, priority);
      if cpid.Some? {
        ScheduleProc(cpid.value);
        ret := 0;
      } else {
        ret := -1;
      }
    }

    // ---- Semaphores ------------------------------------------------------------------------------------------------

    /** The running process goes to sleep on `k`, and the next one runs; a descriptor for `k` is always there. */
    method Sleep(k: Key, ghost s: Sched)
      requires Valid() && Inv(s, None) && S() == s.(sems := sems) && runningProc != IdleProc()
      modifies this`readyQueue, this`runningProc, pcbs, asl, asl.semds
      ensures Valid() && S() == Block(RunNext(s), k, s.running).(sems := sems)
    {
      hide A.Represents, Enqueue, Linked;
      RunNextInv(s);
      asl.DescriptorAvailable(RunNext(s), runningProc);
      var full := asl.InsertBlocked(k, runningProc);
      if full {
        assert false;                  // the "No free SEMDs" panic
      }
      assert readyQueue != [] ==> readyQueue[0] in s.ready;
      var next := RemoveReady();
      SetRunningProc(next);
    }

    method P(a: int, tod: int)
      requires Valid() && Inv(S(), None) && runningProc != IdleProc() && a in sems
      modifies this`sems, this`readyQueue, this`runningProc, pcbs, accounts, asl, asl.semds
      ensures Valid() && S() == Passeren(old(S()), a)
      ensures accounts[..] == if Blocks(old(S()), APasseren(a)) then FlushKernel(old(accounts[..]), old(runningProc), tod)
                              else old(accounts[..])
    {
      hide Inv, Conserved, A.Represents, Enqueue;
      ghost var s := S();
      sems := sems[a := sems[a] - 1];
      if sems[a] < 0 {
        FlushKernelTime(runningProc, tod);
        Sleep(Cell(a), s);
        UpAndDown(s.sems, a);
        sems := sems[a := sems[a] + 1];
      }
    }

    method V(a: int)
      requires Valid() && Linked(S()) && a in sems
      modifies this`sems, this`readyQueue, this`runningProc, pcbs, asl, asl.semds
      ensures Valid() && S() == Verhogen(old(S()), a)
    {
      hide Release, StopRunning, KeyLinked;
      ghost var s, k := S(), Cell(a);
      assert k in s.blocked ==> QueueLinked(s, k, s.blocked[k]);
      sems := sems[a := sems[a] + 1];
      ghost var raised := sems;
      var dequeued := WakeFirst(Cell(a));
      if dequeued.Some? {
        WakeIgnoresValues(s, raised, k);
        ScheduleProc(dequeued.value);
        UpAndDown(s.sems, a);
        sems := sems[a := sems[a] - 1];
      }
    }

    /** The first waiter of `k`, its priority restored and the others' raised. */
    method WakeFirst(k: Key) returns (p: Option<Pid>)
      requires Valid() && (k in asl.queues ==> QueueLinked(S(), k, asl.queues[k]))
      modifies pcbs, asl, asl.semds
      ensures Valid() && (p.Some? <==> HasWaiter(old(S()), k)) && (p.None? ==> S() == old(S()))
      ensures p.Some? ==> p.value == old(asl.queues)[k][0] && p.value < pcbs.Length && S() == Release(old(S()), k)
    {
      ghost var s := S();
      assert k in s.blocked ==> s.blocked[k][0] in s.blocked[k];
      p := asl.RemoveBlocked(k);
      if p.Some? {
        Uncons(s.blocked[k]);
        pcbs[p.value] := pcbs[p.value].(priority := pcbs[p.value].originalPriority);
        AgeWaiters(k, s.blocked[k][1..]);
      }
    }

    /** Ages whoever is left on `k`, if its descriptor is still active. */
    method AgeWaiters(k: Key, ghost rest: seq<Pid>)
      requires Valid() && QueueOf(asl.queues, k) == rest && NoDup(rest) && forall x :: x in rest ==> x < pcbs.Length
      modifies pcbs
      ensures Valid() && pcbs[..] == Age(old(pcbs[..]), rest)
    {
      AgeNobody(pcbs[..]);
      var semd := asl.GetSemd(Some(k));
      if semd.Some? {
        AgeAll(asl.semds[semd.value].procQ);
      }
    }

    /** The aging loop of `v` and of time_slice_callback. */
    method AgeAll(q: seq<Pid>)
      requires NoDup(q) && forall x :: x in q ==> x < pcbs.Length
      modifies pcbs
      ensures pcbs[..] == Age(old(pcbs[..]), q)
    {
      ghost var t := pcbs[..];
      AgeNobody(t);
      var i := 0;
      while i < |q|
        invariant 0 <= i <= |q| && pcbs[..] == Age(t, q[..i])
      {
        assert q[i] in q;
        AgeOneMore(t, q, i);
        pcbs[q[i]] := pcbs[q[i]].(priority := pcbs[q[i]].priority + PRIORITY_INC);
        i := i + 1;
      }
      assert q[..i] == q;
    }

    method TimeSliceCallback()
      requires Valid() && Inv(S(), None)
      modifies this`readyQueue, this`runningProc, pcbs
      ensures Valid() && S() == Tick(old(S()))
    {
      AgeAll(readyQueue);
      assert readyQueue != [] ==> readyQueue[0] in readyQueue;
      if readyQueue != [] && pcbs[runningProc].priority <= pcbs[readyQueue[0]].priority {
        var toStart := RemoveReady();
        StopRunningProc();
        SetRunningProc(toStart);
      }
    }

    // ---- Termination -----------------------------------------------------------------------------------------------

    method OutReady(p: Pid) returns (r: Option<Pid>)
      requires Valid()
      modifies this`readyQueue
      ensures Valid() && S() == old(S()).(ready := Without(old(readyQueue), p))
      ensures r == if p in old(readyQueue) then Some(p) else None
    {
      if p in readyQueue {
        readyQueue := Without(readyQueue, p);
        return Some(p);
      }
      WithoutAbsent(readyQueue, p);
      return None;
    }

    method RemoveChild(p: Pid) returns (r: Option<Pid>)
      requires Valid() && p < pcbs.Length && forall c :: c in pcbs[p].children ==> c < pcbs.Length && c != p
      modifies pcbs
      ensures Valid()
      ensures var t, kids := old(pcbs[..]), old(pcbs[p].children);
        if kids == [] then r == None && S() == old(S())
        else
          && r == Some(kids[0])
          && S() == old(S()).(pcbs := Put(Put(t, kids[0], At(t, kids[0]).(parent := None)),
                                          p, At(t, p).(children := kids[1..])))
    {
      if pcbs[p].children == [] {
        return None;
      }
      var first := pcbs[p].children[0];
      assert first in pcbs[p].children;
      pcbs[first] := pcbs[first].(parent := None);
      pcbs[p] := pcbs[p].(children := pcbs[p].children[1..]);
      return Some(first);
    }

    /** Only the first child loses its parent link here. */
    method OutChild(p: Pid) returns (r: Option<Pid>)
      requires Valid() && TreeOk(S()) && S().Live(p)
      modifies pcbs
      ensures Valid() && (r == if old(pcbs[p].parent).Some? then Some(p) else None)
      ensures S() == old(S()).(pcbs := Detached(old(pcbs[..]), p))
    {
      ghost var s := S();
      assert UpOk(s, p);
      var parent := pcbs[p].parent;
      if parent.None? {
        assert pcbs[..] == Detached(old(pcbs[..]), p);
        return None;
      }
      var up := parent.value;
      assert KidsOk(s, up);
      if pcbs[up].children[0] == p {
        r := RemoveChild(up);
      } else {
        pcbs[up] := pcbs[up].(children := Without(pcbs[up].children, p));
        r := Some(p);
      }
      assert pcbs[..] == Detached(old(pcbs[..]), p);
    }

    method FreePcb(p: Pid)
      requires Valid()
      modifies this`pcbFree
      ensures Valid() && S() == old(S()).(free := [p] + old(pcbFree))
    {
      pcbFree := [p] + pcbFree;
    }

    /** The `dev_w_list` branch: what the pointer leads to is cleared, and the process stays in its queue. */
    method Disown(p: Pid, ghost s0: Sched, ghost acc: seq<Pid>)
      requires Valid() && Inv(s0, None) && Pointers(s0) && s0.Live(p) && Removing(s0, acc, S()) && Stray(s0.pcbs, p)
      requires p !in acc
      modifies devWLists
      ensures Valid() && MinusAll(s0.blocked, [p] + acc) == asl.queues && readyQueue == Rest(s0, [p] + acc)
      ensures S() == old(S()).(devs := Disowned(s0.devs, s0.pcbs, [p] + acc))
    {
      ghost var s := S();
      assert RemovedPcb(At(s0.pcbs, p), At(s.pcbs, p), p in acc) && At(s.pcbs, p) == pcbs[p];
      var d := pcbs[p].devWList.value;
      assert WListOf(s0, p) == Some(d);
      DropStray(s0, acc, p, d);
      devWLists[d] := devWLists[d].(res := None);
    }

    /** `p` out of whatever queue it is in, and freed. */
    method TakeOut(p: Pid, ghost s0: Sched, ghost acc: seq<Pid>) returns (freed: bool)
      requires Valid() && Inv(s0, None) && Pointers(s0) && Removable(s0, S(), p, acc)
      modifies this`pcbFree, this`readyQueue, pcbs, asl, asl.semds, devWLists
      ensures Valid() && freed
      ensures Progress(s0, old(S()), S(), p, acc, [p], 0, None) && Kids(S(), p) == Kids(s0, p)
    {
      hide Inv, Linked, A.Represents;
      ghost var s1 := S();
      assert Under(s0, p, p) && RemovedPcb(At(s0.pcbs, p), At(s1.pcbs, p), p in acc);
      Whereabouts(s0, p);
      var toBeFreed: Option<Pid> := None;
      if pcbs[p].semKey.Some? {
        DropBlocked(s0, acc, p);
        toBeFreed := asl.OutBlocked(p);
      } else if pcbs[p].devWList.Some? {
        Disown(p, s0, acc);
        toBeFreed := Some(p);
      } else {
        DropReady(s0, acc, p);
        toBeFreed := OutReady(p);
      }
      if toBeFreed.Some? {
        FreePcb(toBeFreed.value);
      }
      freed := toBeFreed.Some?;
      StartProgress(s0, s1, S(), p, acc);
    }

    /** The next child of `p` off its list, if there is one. */
    method NextChild(p: Pid, ghost s0: Sched, ghost s1: Sched, ghost acc: seq<Pid>, ghost dl: seq<Pid>, ghost n: nat)
      returns (target: Option<Pid>)
      requires Valid() && Inv(s0, None) && s0.Live(p) && Progress(s0, s1, S(), p, acc, dl, n, None)
      requires n <= |Kids(s0, p)| && Kids(S(), p) == Kids(s0, p)[n..]
      modifies pcbs
      ensures Valid() && AtChild(s0, s1, S(), p, acc, dl, n, target)
    {
      ghost var s := S();
      KidsInTable(s0, s, p, n);
      target := RemoveChild(p);
      if target.Some? {
        TakeProgress(s0, s1, s, S(), p, acc, dl, n);
      }
    }

    /** Removes the subtree of `p`; `dl` lists it, the last process freed first. */
    method RecursiveRemoveProc(p: Pid, ghost s0: Sched, ghost acc: seq<Pid>) returns (ret: int, ghost dl: seq<Pid>)
      requires Valid() && Inv(s0, None) && Pointers(s0) && Removable(s0, S(), p, acc)
      modifies this`pcbFree, this`readyQueue, pcbs, asl, asl.semds, devWLists
      ensures Valid() && ret == 0 && Through(s0, old(S()), S(), p, acc, dl)
      decreases s0.births - Stamp(s0, p)
    {
      hide Removing;
      hide Inv;
      hide Progress;
      hide Through;
      hide Pointers;
      ghost var s1 := S();
      var freed := TakeOut(p, s0, acc);
      if !freed {
        return -1, [];
      }
      dl := [p];
      ghost var n := 0;
      var target := NextChild(p, s0, s1, acc, dl, n);
      ghost var s := S();
      while target.Some?
        invariant Valid() && S() == s && AtChild(s0, s1, s, p, acc, dl, n, target)
        decreases |Kids(s0, p)| - n
      {
        ghost var dc;
        NextRemovable(s0, s1, s, p, acc, dl, n);
        ret, dc := RecursiveRemoveProc(target.value, s0, dl + acc);
        if ret != 0 {
          return -1, dl;
        }
        ChildThrough(s0, s1, s, S(), p, acc, dl, dc, n);
        dl, n := dc + dl, n + 1;
        target := NextChild(p, s0, s1, acc, dl, n);
        s := S();
      }
      AllThrough(s0, s1, s, p, acc, dl);
      ret := 0;
    }

    /** A process that has a parent is taken off its list. */
    method DetachRoot(root: Pid)
      requires Valid() && TreeOk(S()) && S().Live(root)
      modifies pcbs
      ensures Valid() && S() == old(S()).(pcbs := Detached(old(pcbs[..]), root))
    {
      if pcbs[root].parent.Some? {
        var _ := OutChild(root);
      } else {
        DetachedRoot(pcbs[..], root);
      }
    }

    /** Off its parent's list, and the running process among the ready ones for the time of the recursion. */
    method OpenRemoval(root: Pid)
      requires Valid() && Inv(S(), None) && S().Live(root)
      modifies this`readyQueue, pcbs
      ensures Valid() && S() == Opened(old(S()), root) && Removable(old(S()), S(), root, [])
    {
      hide Enqueue;
      ghost var s0 := S();
      StartRemoval(s0, root);
      DetachRoot(root);
      readyQueue := Enqueue(pcbs[..], readyQueue, runningProc);
    }

    /** NULL stands for the running process. `order` lists the processes freed. */
    method TerminateProc(p: Option<Pid>) returns (ret: int, ghost order: seq<Pid>)
      requires Valid() && Inv(S(), None) && Pointers(S()) && runningProc != IdleProc() && (p.Some? ==> S().Live(p.value))
      modifies this`pcbFree, this`readyQueue, this`runningProc, pcbs, asl, asl.semds, devWLists
      ensures Valid() && ret == 0
      ensures var root := if p.Some? then p.value else old(runningProc);
        Callable(old(S()), ATerminate(root, order)) && S() == Terminate(old(S()), root, order)
    {
      ghost var s0 := S();
      Apart(s0, None);
      var root := if p.Some? then p.value else runningProc;
      OpenRemoval(root);
      ret, order := RecursiveRemoveProc(root, s0, []);
      FinishRemoval(s0, S(), root, order);
      PickAfterRemoval(s0, root, order);
    }

    /** Takes the running process back, or picks the next one if it was among the removed. */
    method PickAfterRemoval(ghost s0: Sched, ghost root: Pid, ghost order: seq<Pid>)
      requires Valid() && Inv(s0, None) && Lists(order, s0, root) && s0.running != s0.Idle()
      requires S() == Cut(s0, root, order).(ready := Rest(s0, order))
      modifies this`readyQueue, this`runningProc
      ensures Valid() && S() == Terminate(s0, root, order)
    {
      ghost var out := Leaving(s0.pcbs, order);
      BaseMinus(s0, out);
      BaseElements(s0);
      var retrieved := OutReady(runningProc);
      if retrieved.None? {
        WithoutAbsent(Minus(Base(s0), out), s0.running);
        assert readyQueue != [] ==> readyQueue[0] in Minus(s0.ready, out);
        var newProc := RemoveReady();
        SetRunningProc(newProc);
      }
    }

    // ---- outChildBlocked -------------------------------------------------------------------------------------------

    /** outBlocked on one process of the subtree, blocked or not. */
    method UnblockProc(p: Pid, ghost s0: Sched, ghost acc: seq<Pid>)
      requires Valid() && Inv(s0, None) && s0.Live(p) && p !in acc && Unblocking(s0, acc, S())
      modifies pcbs, asl, asl.semds
      ensures Valid() && Unblocking(s0, [p] + acc, S())
    {
      ghost var s := S();
      assert UnblockedPcb(At(s0.pcbs, p), At(s.pcbs, p), p in acc);
      Whereabouts(s0, p);
      if SemKeyOf(s0, p).Some? { DropBlocked(s0, acc, p); } else { NotBlocked(s0.blocked, acc, p); }
      var _ := asl.OutBlocked(p);
      UnblockOne(s0, s, S(), p, acc);
    }

    /** Takes `p` and all its descendants, listed in `dl`, off the semaphores they wait on. */
    method OutChildBlocked(p: Pid, ghost s0: Sched, ghost acc: seq<Pid>) returns (ghost dl: seq<Pid>)
      requires Valid() && Inv(s0, None) && s0.Live(p) && Unblocking(s0, acc, S())
      requires forall x: Pid :: Under(s0, x, p) ==> x !in acc
      modifies pcbs, asl, asl.semds
      ensures Valid() && Lists(dl, s0, p) && Unblocking(s0, dl + acc, S())
      decreases s0.births - Stamp(s0, p)
    {
      assert Under(s0, p, p);
      UnblockProc(p, s0, acc);
      dl := [p];
      var i := 0;
      assert UnblockedPcb(At(s0.pcbs, p), At(S().pcbs, p), p in [p] + acc);
      var kids := pcbs[p].children;
      while i < |kids|
        invariant 0 <= i <= |kids| && kids == Kids(s0, p)
        invariant Valid() && Visited(s0, p, dl, i) && Unblocking(s0, dl + acc, S())
      {
        VisitReady(s0, p, acc, dl, i);
        ghost var dc := OutChildBlocked(kids[i], s0, dl + acc);
        VisitNext(s0, p, dl, dc, i);
        assert dc + (dl + acc) == dc + dl + acc;
        dl, i := dc + dl, i + 1;
      }
      VisitedAll(s0, p, dl);
    }

    // ---- Device queues ---------------------------------------------------------------------------------------------

    /** The running process joins the queue of `d`; `sent` says that the device was free and takes its command. */
    method JoinDevice(d: nat) returns (target: Pid, sent: bool)
      requires Valid() && Inv(S(), None) && runningProc != IdleProc() && d < devWLists.Length
      modifies this`readyQueue, this`runningProc, pcbs, asl, asl.semds, devWLists
      ensures Valid() && S() == WaitIo(old(S()), d)
      ensures target == old(runningProc) && (sent <==> old(devWLists[d]).cmdSem - 1 >= 0)
    {
      hide Inv;
      ghost var s := S();
      RunNextInv(s);
      InTable(s);
      target := PopRunning();
      ghost var s1 := S();
      devWLists[d] := devWLists[d].(cmdSem := devWLists[d].cmdSem - 1);
      if devWLists[d].cmdSem < 0 {
        JoinBusy(d, target, s1);
        sent := false;
      } else {
        JoinFree(d, target, s1);
        sent := true;
      }
    }

    /** The device is at work: into its queue by priority, and the count put back. */
    method JoinBusy(d: nat, target: Pid, ghost s1: Sched)
      requires Valid() && Inv(s1, Some(target)) && d < devWLists.Length == |s1.devs|
      requires S() == s1.(devs := s1.devs[d := s1.devs[d].(cmdSem := s1.devs[d].cmdSem - 1)])
      modifies pcbs, asl, asl.semds, devWLists
      ensures Valid() && S() == Block(s1, Device(d), target)
    {
      asl.DescriptorAvailable(s1, target);
      var _ := asl.InsertBlocked(Device(d), target);
      devWLists[d] := devWLists[d].(cmdSem := devWLists[d].cmdSem + 1);
      assert devWLists[..] == s1.devs;
    }

    /** The device is free: first in its queue, and served. */
    method JoinFree(d: nat, target: Pid, ghost s1: Sched)
      requires Valid() && Inv(s1, Some(target)) && d < devWLists.Length == |s1.devs|
      requires S() == s1.(devs := s1.devs[d := s1.devs[d].(cmdSem := s1.devs[d].cmdSem - 1)])
      modifies pcbs, asl, asl.semds, devWLists
      ensures Valid()
      ensures var s2 := BlockFifo(s1, Device(d), target);
        S() == s2.(devs := s1.devs[d := DevWList(s1.devs[d].cmdSem - 1, Some(target))],
                   pcbs := Put(s2.pcbs, target, At(s2.pcbs, target).(devWList := Some(d))))
    {
      hide A.Represents, Dispatched;
      asl.DescriptorAvailable(s1, target);
      var _ := asl.InsertBlockedFifo(Device(d), target);
      devWLists[d] := devWLists[d].(res := Some(target));
      pcbs[target] := pcbs[target].(devWList := Some(d));
    }

    method WaitForDevice(d: nat, tod: int) returns (sent: bool)
      requires Valid() && Inv(S(), None) && runningProc != IdleProc() && d < devWLists.Length
      modifies this`readyQueue, this`runningProc, pcbs, accounts, asl, asl.semds, devWLists
      ensures Valid() && S() == WaitIo(old(S()), d) && (sent <==> old(devWLists[d]).cmdSem - 1 >= 0)
      ensures accounts[..] == FlushKernel(old(accounts[..]), old(runningProc), tod)
    {
      var target;
      target, sent := JoinDevice(d);
      FlushKernelTime(target, tod);
    }

    static lemma InTable(s: Sched)
      requires Inv(s, None)
      ensures forall x :: x in s.ready ==> x < |s.pcbs|
    {
    }

    /** The head of the queue of `d` comes off; if that is the process served, it is scheduled and given `status`. */
    method CompleteDevice(d: nat, status: int)
      requires Valid() && Linked(S()) && d < devWLists.Length && devWLists[d].res.Some?
      modifies this`readyQueue, this`runningProc, pcbs, saved, asl, asl.semds
      ensures Valid() && S() == Complete(old(S()), d)
      ensures saved[..] == Delivered(old(S()), d, old(saved[..]), status)
    {
      hide A.Represents;
      ghost var s, k := S(), Device(d);
      assert k in s.blocked ==> QueueLinked(s, k, s.blocked[k]) && s.blocked[k][0] in s.blocked[k];
      var done := asl.RemoveBlocked(Device(d));
      if done == devWLists[d].res {
        pcbs[done.value] := pcbs[done.value].(devWList := None);
        ScheduleProc(done.value);
        saved[done.value] := saved[done.value].(ret := status);
      }
    }

    /** The next process of the queue of `d` is served, or the device becomes free. */
    method ServeDevice(d: nat) returns (next: Option<Pid>)
      requires Valid() && d < devWLists.Length
      requires forall x :: x in QueueOf(asl.queues, Device(d)) ==> x < pcbs.Length
      modifies pcbs, devWLists
      ensures Valid() && S() == ServeNext(old(S()), d)
      ensures next == if HasWaiter(old(S()), Device(d)) then Some(old(asl.queues)[Device(d)][0]) else None
      ensures next.Some? ==> next.value < pcbs.Length
    {
      next := asl.HeadBlocked(Device(d));
      if next.Some? {
        assert next.value in QueueOf(asl.queues, Device(d));
        devWLists[d] := devWLists[d].(res := next);
        pcbs[next.value] := pcbs[next.value].(devWList := Some(d));
      } else {
        devWLists[d] := DevWList(devWLists[d].cmdSem + 1, None);
      }
    }
  }
}
