/** The state init_scheduler and launch leave behind, and what holds of everything reachable from it. */
module Boot {
  import opened Seqs
  import opened Sched
  import opened Invariants
  import opened Devices
  import opened Machine
  import opened MachineInvariants

  /** All PCBs free, all devices idle, nothing ready. */
  function Empty(n: nat, cells: map<int, int>, devices: nat): Sched {
    Sched(seq(n + 1, i requires 0 <= i < n + 1 => BLANK_PCB), seq(n, i requires 0 <= i < n => i), [], n, map[], cells,
          seq(devices, i requires 0 <= i < devices => DevWList(1, None)), seq(n + 1, i requires 0 <= i < n + 1 => 0), 0)
  }

  /** One starting process taken from the free list and made ready. */
  function Admit(s: Sched, priority: int): Sched
    requires s.free != []
  {
    var p := s.free[0];
    var t := Put(s.pcbs, p, Pcb(None, [], priority, priority, None, At(s.pcbs, p).devWList));
    s.(pcbs := t, free := s.free[1..], ready := Enqueue(t, s.ready, p),
       birth := if p < |s.birth| then s.birth[p := s.births] else s.birth, births := s.births + 1)
  }

  function AdmitAll(s: Sched, priorities: seq<int>): (s': Sched)
    requires |priorities| <= |s.free|
    ensures |s'.free| == |s.free| - |priorities|
    decreases |priorities|
  {
    if priorities == [] then s
    else
      var last := |priorities| - 1;
      Admit(AdmitAll(s, priorities[..last]), priorities[last])
  }

  lemma AdmitNext(s: Sched, priorities: seq<int>, j: nat)
    requires j < |priorities| <= |s.free|
    ensures AdmitAll(s, priorities[..j + 1]) == Admit(AdmitAll(s, priorities[..j]), priorities[j])
  {
    assert priorities[..j + 1][..j] == priorities[..j];
  }

  lemma EmptySteady(n: nat, cells: map<int, int>, devices: nat)
    requires n >= 1 && forall a :: a in cells ==> cells[a] >= 0
    ensures Steady(Empty(n, cells, devices), None) && Protocol(Empty(n, cells, devices))
  {
    var s := Empty(n, cells, devices);
    forall p: Pid | p < s.N()
      ensures Places(s, None, p) == 1
    {
      assert s.free[p] == p;
    }
    forall x: Pid | x < s.N()
      ensures !s.Live(x)
    {
      assert s.free[x] == x;
    }
  }

  /** Nobody is running yet, and the tree is flat. */
  ghost predicate Waking(s: Sched) {
    Steady(s, None) && Protocol(s) && s.running == s.Idle()
  }

  lemma AdmitConserved(s: Sched, priority: int)
    requires Shape(s) && Conserved(s, None) && s.running == s.Idle() && s.free != []
    ensures Conserved(Admit(s, priority), None)
  {
    var p, s' := s.free[0], Admit(s, priority);
    Uncons(s.free);
    assert Places(s, None, p) == 1;
    EnqueueElements(s'.pcbs, s.ready, p);
    forall x: Pid | x < s'.N()
      ensures Places(s', None, x) == 1
    {
      assert Places(s, None, x) == 1;
    }
  }

  lemma AdmitSteady(s: Sched, priority: int)
    requires Waking(s) && s.free != []
    ensures Waking(Admit(s, priority))
  {
    var p, s' := s.free[0], Admit(s, priority);
    Uncons(s.free);
    assert Places(s, None, p) == 1;
    SortedFrame(s.pcbs, s'.pcbs, s.ready);
    EnqueueSorted(s'.pcbs, s.ready, p);
    AdmitConserved(s, priority);
    LinkFrame(s, s');
    QueueFrame(s, s');
    ProtocolFrame(s, s');
    forall x: Pid | x < |s'.pcbs|
      ensures PrioOk(At(s'.pcbs, x))
    {
      assert PrioOk(At(s.pcbs, x));
    }
    AdmitTree(s, priority);
    forall k | k in s'.blocked
      ensures Usable(s', k)
    {
      assert Usable(s, k);
    }
  }

  lemma AdmitTree(s: Sched, priority: int)
    requires Waking(s) && s.free != []
    ensures TreeOk(Admit(s, priority))
  {
    var p, s' := s.free[0], Admit(s, priority);
    Uncons(s.free);
    forall x: Pid | s'.Live(x)
      ensures UpOk(s', x) && KidsOk(s', x) && Stamp(s', x) < s'.births
    {
      if x != p {
        assert s.Live(x) && UpOk(s, x) && KidsOk(s, x);
      }
    }
  }

  lemma {:induction false} AdmitAllSteady(s: Sched, priorities: seq<int>)
    requires Waking(s) && |priorities| <= |s.free|
    ensures var s' := AdmitAll(s, priorities);
      && Waking(s') && |s'.ready| == |s.ready| + |priorities| && |s'.pcbs| == |s.pcbs|
      && s'.devs == s.devs && s'.blocked == s.blocked
    decreases |priorities|
  {
    if priorities != [] {
      var last := |priorities| - 1;
      AdmitAllSteady(s, priorities[..last]);
      AdmitSteady(AdmitAll(s, priorities[..last]), priorities[last]);
    }
  }

  /** Each starting process is ready, in the PCB its position in the list selects, with the priority it came with. */
  lemma {:induction false} AdmitAllReady(s: Sched, priorities: seq<int>, i: nat)
    requires Waking(s) && i < |priorities| <= |s.free|
    ensures var s' := AdmitAll(s, priorities);
      s.free[i] in s'.ready && Prio(s'.pcbs, s.free[i]) == priorities[i]
    decreases |priorities|
  {
    hide Conserved, Admit, Shape;
    var last := |priorities| - 1;
    var s1 := AdmitAll(s, priorities[..last]);
    AdmitAllSteady(s, priorities[..last]);
    AdmitAllFree(s, priorities[..last]);
    AdmitReady(s1, priorities[last]);
    if i < last { AdmitAllReady(s, priorities[..last], i); }
  }

  lemma AdmitReady(s: Sched, priority: int)
    requires Shape(s) && Conserved(s, None) && s.free != []
    ensures var s', p := Admit(s, priority), s.free[0];
      && p in s'.ready && Prio(s'.pcbs, p) == priority
      && forall x :: x in s.ready ==> x in s'.ready && Prio(s'.pcbs, x) == Prio(s.pcbs, x)
  {
    assert s.free[0] in s.free && Places(s, None, s.free[0]) == 1;
    EnqueueElements(Admit(s, priority).pcbs, s.ready, s.free[0]);
  }

  /** init_scheduler, then the choice launch makes. */
  function Launched(n: nat, priorities: seq<int>, cells: map<int, int>, devices: nat): Sched
    requires |priorities| <= n
  {
    RunNext(AdmitAll(Empty(n, cells, devices), priorities))
  }

  /** The starting processes fit, and the ready queue they form is not empty. */
  lemma StartingReady(n: nat, priorities: seq<int>, cells: map<int, int>, devices: nat)
    requires 0 < |priorities| <= n && forall a :: a in cells ==> cells[a] >= 0
    ensures var e := Empty(n, cells, devices); Waking(e) && |e.free| == n
    ensures var q := AdmitAll(Empty(n, cells, devices), priorities).ready; q != [] && forall x :: x in q ==> x <= n
  {
    EmptySteady(n, cells, devices);
    AdmitAllSteady(Empty(n, cells, devices), priorities);
  }

  lemma LaunchInv(s: Sched)
    requires Waking(s) && s.ready != []
    ensures ProtocolInv(RunNext(s)) && RunNext(s).running != s.Idle()
  {
    var s' := RunNext(s);
    Uncons(s.ready);
    SortedTail(s.pcbs, s.ready);
    forall x: Pid | x < s'.N()
      ensures Places(s', None, x) == 1
    {
      assert Places(s, None, x) == 1;
    }
    LinkFrame(s, s');
    QueueFrame(s, s');
    TreeFrame(s, s');
    ProtocolFrame(s, s');
    ProtocolSound(s');
    forall k | k in s'.blocked
      ensures Usable(s', k)
    {
      assert Usable(s, k);
    }
  }

  lemma LaunchedInv(n: nat, priorities: seq<int>, cells: map<int, int>, devices: nat)
    requires 0 < |priorities| <= n && forall a :: a in cells ==> cells[a] >= 0
    ensures var s := Launched(n, priorities, cells, devices);
      ProtocolInv(s) && s.running != s.Idle() && |s.pcbs| == n + 1 && |s.devs| == devices && s.blocked == map[]
  {
    EmptySteady(n, cells, devices);
    AdmitAllSteady(Empty(n, cells, devices), priorities);
    LaunchInv(AdmitAll(Empty(n, cells, devices), priorities));
  }

  /** Starting processes are given the PCBs in table order. */
  lemma {:induction false} AdmitAllFree(s: Sched, priorities: seq<int>)
    requires |priorities| <= |s.free|
    ensures AdmitAll(s, priorities).free == s.free[|priorities|..]
    decreases |priorities|
  {
    if priorities != [] {
      AdmitAllFree(s, priorities[..|priorities| - 1]);
    }
  }

  /** The machine as launch starts its first process at clock reading `tod`. */
  function LaunchedMachine(k: Sched, contexts: seq<Context>, slice: int, tod: int): Machine {
    var r := k.running;
    var saved := Padded(contexts, |k.pcbs|);
    Machine(k,
      seq(|k.pcbs|, i requires 0 <= i < |k.pcbs| => if i == r then Account(0, 0, tod, tod) else BLANK_ACCOUNT),
      saved, Ctx(saved, r), BLANK_CONTEXT, r, slice, slice, slice, tod,
      seq(|k.devs|, i requires 0 <= i < |k.devs| => 0), User, tod, 0, saved,
      seq(|k.pcbs|, i requires 0 <= i < |k.pcbs| => 0))
  }

  lemma {:induction false} TotalZero(a: seq<Account>)
    requires forall i :: 0 <= i < |a| ==> a[i].user == 0 && a[i].kernel == 0
    ensures Total(a) == 0
  {
    if a != [] { TotalZero(a[1..]); }
  }

  /** Every state the system can reach from launch satisfies all of the invariants. */
  lemma Reachable(n: nat, priorities: seq<int>, cells: map<int, int>, devices: nat, contexts: seq<Context>,
                  slice: int, tod: int, es: seq<Event>)
    requires 0 < |priorities| <= n && tod >= 0 && forall a :: a in cells ==> cells[a] >= 0
    requires History(LaunchedMachine(Launched(n, priorities, cells, devices), contexts, slice, tod), es)
    ensures MachineInv(Replay(LaunchedMachine(Launched(n, priorities, cells, devices), contexts, slice, tod), es))
  {
    var s := Launched(n, priorities, cells, devices);
    LaunchedInv(n, priorities, cells, devices);
    LaunchedMachineInv(s, contexts, slice, tod);
    HistoryInv(LaunchedMachine(s, contexts, slice, tod), es);
  }

  lemma LaunchedMachineInv(s: Sched, contexts: seq<Context>, slice: int, tod: int)
    requires ProtocolInv(s) && s.running != s.Idle() && tod >= 0
    requires s.blocked == map[]
    ensures ServiceInv(LaunchedMachine(s, contexts, slice, tod))
  {
    var m := LaunchedMachine(s, contexts, slice, tod);
    TotalZero(m.accounts);
    forall d: nat | d < |s.devs|
      ensures CommandOk(m, d)
    {
      assert DeviceOk(s, d, s.devs[d]);
    }
    forall p: Pid | p < |s.pcbs|
      ensures RequestOk(m, p)
    {
      assert KeyLinked(s, p);
    }
  }
}
