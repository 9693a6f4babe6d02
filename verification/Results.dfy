/** What the invariants say, for every run of kernel steps that starts where launch leaves the scheduler. */
module Results {
  import opened Seqs
  import opened Sched
  import opened Invariants
  import opened Devices
  import opened Runs
  import opened Forest
  import opened Boot
  import opened MachineInvariants

  /** What the kernel is started with: table size, starting processes, semaphores and devices. */
  datatype System = System(n: nat, priorities: seq<int>, cells: map<int, int>, devices: nat)

  predicate Startable(y: System) {
    0 < |y.priorities| <= y.n && forall a :: a in y.cells ==> y.cells[a] >= 0
  }

  function Started(y: System): Sched
    requires Startable(y)
  {
    Launched(y.n, y.priorities, y.cells, y.devices)
  }

  /** `s` is reached from launch by the safe steps `acts`. */
  ghost predicate Reached(y: System, acts: seq<Action>, s: Sched) {
    Startable(y) && Run(Started(y), acts) && s == After(Started(y), acts)
  }

  lemma {:induction false} PathShape(s: Sched, acts: seq<Action>)
    requires Path(s, acts)
    ensures |After(s, acts).pcbs| == |s.pcbs| && |After(s, acts).devs| == |s.devs|
    decreases |acts|
  {
    if acts != [] {
      StepShape(s, acts[0]);
      PathShape(Apply(s, acts[0]), acts[1..]);
    }
  }

  lemma ReachedInv(y: System, acts: seq<Action>, s: Sched)
    requires Reached(y, acts, s)
    ensures KernelInv(s) && |s.pcbs| == y.n + 1 && |s.devs| == y.devices
  {
    LaunchedInv(y.n, y.priorities, y.cells, y.devices);
    RunInv(Started(y), acts);
    PathShape(Started(y), acts);
  }

  /**
   Along any path of steps from launch the scheduler invariant holds throughout exactly if each step is safe: nobody it
   terminates is off every semaphore with a device pointer, and it completes the command of the process it dequeues.
   */
  lemma InvariantExact(y: System, acts: seq<Action>)
    requires Startable(y) && Path(Started(y), acts)
    ensures Upheld(Started(y), acts) <==> AllSafe(Started(y), acts)
  {
    LaunchedInv(y.n, y.priorities, y.cells, y.devices);
    PathExact(Started(y), acts);
  }

  /** Conservation: each PCB is free, ready, running or on one semaphore, in one place only; idle is on no list. */
  lemma Conservation(y: System, acts: seq<Action>, s: Sched, p: Pid)
    requires Reached(y, acts, s)
    ensures NoDup(s.free) && NoDup(s.ready)
    ensures p < y.n ==>
      Count(p in s.free) + Count(p in s.ready) + Count(p == s.running) + Count(exists k :: p in QueueOf(s.blocked, k)) == 1
    ensures forall k :: NoDup(QueueOf(s.blocked, k)) && (p in QueueOf(s.blocked, k) ==> SemKeyOf(s, p) == Some(k))
    ensures y.n !in s.free && y.n !in s.ready && forall k :: y.n !in QueueOf(s.blocked, k)
  {
    ReachedInv(y, acts, s);
    hide Reached;
    assert p < y.n ==> Places(s, None, p) == 1;
    forall k
      ensures NoDup(QueueOf(s.blocked, k))
      ensures p in QueueOf(s.blocked, k) ==> SemKeyOf(s, p) == Some(k)
      ensures y.n !in QueueOf(s.blocked, k)
    {
      assert k in s.blocked ==> QueueLinked(s, k, s.blocked[k]);
    }
    if p < y.n && SemKeyOf(s, p).Some? {
      assert KeyLinked(s, p);
      assert p in QueueOf(s.blocked, SemKeyOf(s, p).value);
    }
  }

  /** Dispatch: the running process outranks every ready one, and idle runs only when none is ready. */
  lemma Dispatch(y: System, acts: seq<Action>, s: Sched)
    requires Reached(y, acts, s)
    ensures if s.running == y.n then s.ready == []
            else forall p :: p in s.ready ==> Prio(s.pcbs, p) <= Prio(s.pcbs, s.running)
  {
    ReachedInv(y, acts, s);
  }

  /** Ready and semaphore queues are in order of descending priority, and nobody is below its original priority. */
  lemma Order(y: System, acts: seq<Action>, s: Sched, k: Key, p: Pid)
    requires Reached(y, acts, s)
    ensures Sorted(s.pcbs, s.ready) && Sorted(s.pcbs, QueueOf(s.blocked, k))
    ensures p <= y.n ==> At(s.pcbs, p).originalPriority <= Prio(s.pcbs, p)
  {
    ReachedInv(y, acts, s);
    assert p <= y.n ==> PrioOk(At(s.pcbs, p));
  }

  /** The tree: a live process's parent is live, lists it once among its children, and is not one of its descendants. */
  lemma Family(y: System, acts: seq<Action>, s: Sched, x: Pid)
    requires Reached(y, acts, s) && s.Live(x)
    ensures NoDup(At(s.pcbs, x).children)
    ensures forall c :: c in At(s.pcbs, x).children ==> s.Live(c) && At(s.pcbs, c).parent == Some(x)
    ensures At(s.pcbs, x).parent.Some? ==>
      var up := At(s.pcbs, x).parent.value; s.Live(up) && x in At(s.pcbs, up).children && !Below(s, up, x)
  {
    ReachedInv(y, acts, s);
    hide Reached;
    assert KidsOk(s, x);
    if At(s.pcbs, x).parent.Some? { Acyclic(s, x); }
  }

  /** A busy device has somebody recorded as served, and a free one has nobody waiting. */
  lemma DeviceCounts(y: System, acts: seq<Action>, s: Sched, d: nat)
    requires Reached(y, acts, s) && d < y.devices
    ensures var l := Dev(s, d);
      (l.cmdSem == 0 && l.res.Some?) || (l == DevWList(1, None) && QueueOf(s.blocked, Device(d)) == [])
  {
    ReachedInv(y, acts, s);
    assert SoundDevice(s, d, s.devs[d]);
  }

  /** After polite steps only: one command outstanding at most, for the head of the queue. */
  lemma DeviceProtocol(y: System, acts: seq<Action>, s: Sched, d: nat)
    requires Startable(y) && Path(Started(y), acts) && AllPolite(Started(y), acts) && s == After(Started(y), acts)
    requires d < y.devices
    ensures var l, q := Dev(s, d), QueueOf(s.blocked, Device(d));
      (l.cmdSem == 1 && l.res == None && q == []) || (l.cmdSem == 0 && q != [] && l.res == Some(q[0]))
  {
    LaunchedInv(y.n, y.priorities, y.cells, y.devices);
    PoliteRun(Started(y), acts);
    PathShape(Started(y), acts);
    hide Path;
    assert DeviceOk(s, d, s.devs[d]);
  }
}
