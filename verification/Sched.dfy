/**
 The scheduler's data and its steps as functions on values.

 A process is named by its index in the PCB table; the last entry of the table is the idle process, whose index
 is the number of ordinary PCBs. The table holds the fields that the queues and the tree depend on; saved contexts and
 timers live in module Machine.
 */
module Sched {
  import opened Seqs

  type Pid = nat

  /** The address a semaphore is known by: an ordinary cell or the `w_for_cmd_sem` of a device. */
  datatype Key = Cell(addr: int) | Device(dev: nat)

  datatype Pcb = Pcb(
    parent: Option<Pid>,
    children: seq<Pid>,
    priority: int,
    originalPriority: int,
    semKey: Option<Key>,
    devWList: Option<nat>)

  const BLANK_PCB := Pcb(None, [], 0, 0, None, None)

  datatype DevWList = DevWList(cmdSem: int, res: Option<Pid>)

  const PRIORITY_INC := 1

  datatype Sched = Sched(
    pcbs: seq<Pcb>,
    free: seq<Pid>,
    ready: seq<Pid>,
    running: Pid,
    blocked: map<Key, seq<Pid>>,   // the active semaphore list: only non-empty queues appear
    sems: map<int, int>,           // values of the ordinary semaphores
    devs: seq<DevWList>,
    birth: seq<nat>,               // history: when each PCB was last allocated
    births: nat)                   // history: allocations so far
  {
    function N(): nat { if pcbs == [] then 0 else |pcbs| - 1 }

    function Idle(): Pid { N() }

    predicate Live(p: Pid) { p < N() && p !in free }
  }

  // ---- Table access ------------------------------------------------------------------------------------------------

  function At(t: seq<Pcb>, p: Pid): Pcb {
    if p < |t| then t[p] else BLANK_PCB
  }

  function Put(t: seq<Pcb>, p: Pid, r: Pcb): (t': seq<Pcb>)
    ensures |t'| == |t|
    ensures forall x: Pid :: At(t', x) == if x == p && p < |t| then r else At(t, x)
  {
    if p < |t| then t[p := r] else t
  }

  function Prio(t: seq<Pcb>, p: Pid): int { At(t, p).priority }

  function QueueOf(m: map<Key, seq<Pid>>, k: Key): seq<Pid> {
    if k in m then m[k] else []
  }

  function Dev(s: Sched, d: nat): DevWList {
    if d < |s.devs| then s.devs[d] else DevWList(1, None)
  }

  // ---- Priority queues ---------------------------------------------------------------------------------------------

  function Prios(t: seq<Pcb>, q: seq<Pid>): seq<int> {
    seq(|q|, i requires 0 <= i < |q| => Prio(t, q[i]))
  }

  /** The first position whose priority is strictly below `x`. */
  function Slot(ps: seq<int>, x: int): (i: nat)
    ensures i <= |ps|
    ensures forall j :: 0 <= j < i ==> ps[j] >= x
    ensures i < |ps| ==> ps[i] < x
  {
    if ps == [] || x > ps[0] then 0 else 1 + Slot(ps[1..], x)
  }

  /** insertProcQ. */
  function Enqueue(t: seq<Pcb>, q: seq<Pid>, p: Pid): seq<Pid> {
    var i := Slot(Prios(t, q), Prio(t, p));
    q[..i] + [p] + q[i..]
  }

  /** One priority increment for every process of `q`. */
  function Age(t: seq<Pcb>, q: seq<Pid>): (t': seq<Pcb>)
    ensures |t'| == |t|
    ensures forall x: Pid :: At(t', x) == if x in q && x < |t| then Aged(At(t, x)) else At(t, x)
  {
    seq(|t|, i requires 0 <= i < |t| => if i in q then Aged(t[i]) else t[i])
  }

  function Aged(r: Pcb): Pcb { r.(priority := r.priority + PRIORITY_INC) }

  // ---- Building blocks of the steps --------------------------------------------------------------------------------

  function StopRunning(s: Sched): Sched {
    if s.running == s.Idle() then s
    else
      var r := At(s.pcbs, s.running);
      var t := Put(s.pcbs, s.running, r.(priority := r.originalPriority));
      s.(pcbs := t, ready := Enqueue(t, s.ready, s.running))
  }

  function ScheduleProc(s: Sched, p: Pid): Sched {
    if Prio(s.pcbs, p) > Prio(s.pcbs, s.running) || s.running == s.Idle() then
      StopRunning(s).(running := p)
    else
      s.(ready := Enqueue(s.pcbs, s.ready, p))
  }

  /** set_running_proc(removeProcQ(&ready_queue)). */
  function RunNext(s: Sched): Sched {
    if s.ready == [] then s.(running := s.Idle())
    else s.(running := s.ready[0], ready := s.ready[1..])
  }

  /** insertBlocked: a priority insertion into the queue of `k`. */
  function Block(s: Sched, k: Key, p: Pid): Sched {
    s.(pcbs := Put(s.pcbs, p, At(s.pcbs, p).(semKey := Some(k))),
       blocked := s.blocked[k := Enqueue(s.pcbs, QueueOf(s.blocked, k), p)])
  }

  /** insertBlockedFifo: insertion at the tail. */
  function BlockFifo(s: Sched, k: Key, p: Pid): Sched {
    s.(pcbs := Put(s.pcbs, p, At(s.pcbs, p).(semKey := Some(k))),
       blocked := s.blocked[k := QueueOf(s.blocked, k) + [p]])
  }

  function DropHead(m: map<Key, seq<Pid>>, k: Key): map<Key, seq<Pid>>
    requires k in m && m[k] != []
  {
    if |m[k]| == 1 then m - {k} else m[k := m[k][1..]]
  }

  /** removeBlocked on a semaphore that has waiters. */
  function Unblock(s: Sched, k: Key): Sched
    requires k in s.blocked && s.blocked[k] != []
  {
    var p := s.blocked[k][0];
    s.(pcbs := Put(s.pcbs, p, At(s.pcbs, p).(semKey := None)), blocked := DropHead(s.blocked, k))
  }

  predicate HasWaiter(s: Sched, k: Key) {
    k in s.blocked && s.blocked[k] != []
  }

  // ---- Steps -------------------------------------------------------------------------------------------------------

  function Allocate(s: Sched, priority: int): Sched
    requires s.free != []
  {
    var p := s.free[0];
    var up := At(s.pcbs, s.running);
    var t := Put(s.pcbs, p, Pcb(Some(s.running), [], priority, priority, None, At(s.pcbs, p).devWList));
    s.(pcbs := Put(t, s.running, At(t, s.running).(children := At(t, s.running).children + [p])),
       free := s.free[1..],
       birth := if p < |s.birth| then s.birth[p := s.births] else s.birth,
       births := s.births + 1)
  }

  /** create_process. */
  function Create(s: Sched, priority: int): Sched {
    if s.free == [] then s else ScheduleProc(Allocate(s, priority), s.free[0])
  }

  function MinusAll(m: map<Key, seq<Pid>>, out: seq<Pid>): map<Key, seq<Pid>> {
    map k | k in m && Minus(m[k], out) != [] :: Minus(m[k], out)
  }

  /** outChild leaves `p_parent` set when the process is not its parent's first child. */
  predicate KeepsParentLink(t: seq<Pcb>, root: Pid) {
    var up := At(t, root).parent;
    up.Some? && At(t, up.value).children != [] && At(t, up.value).children[0] != root
  }

  /** The table after the subtree listed in `order`, rooted at `root`, has been taken out. */
  function Pruned(t: seq<Pcb>, root: Pid, order: seq<Pid>): (t': seq<Pcb>)
    ensures |t'| == |t|
    ensures forall x: Pid :: x < |t| ==> At(t', x) == PrunedPcb(t, root, order, x)
  {
    seq(|t|, i requires 0 <= i < |t| => PrunedPcb(t, root, order, i))
  }

  function PrunedPcb(t: seq<Pcb>, root: Pid, order: seq<Pid>, x: Pid): Pcb {
    var r := At(t, x);
    if x in order then
      r.(semKey := None, children := [],
         parent := if x == root && KeepsParentLink(t, root) then r.parent else None)
    else if At(t, root).parent == Some(x) then r.(children := Without(r.children, root))
    else r
  }

  /** On no semaphore, but with its pointer into a device list set: such a process is freed where it stands. */
  predicate Stray(t: seq<Pcb>, p: Pid) { At(t, p).semKey.None? && At(t, p).devWList.Some? }

  /** The processes of `order` that are taken out of their queue before they are freed. */
  function Leaving(t: seq<Pcb>, order: seq<Pid>): (r: seq<Pid>)
    ensures forall x :: x in r <==> x in order && !Stray(t, x)
  {
    if order == [] then []
    else if Stray(t, order[0]) then Leaving(t, order[1..])
    else [order[0]] + Leaving(t, order[1..])
  }

  predicate Disowns(t: seq<Pcb>, order: seq<Pid>, d: nat) {
    exists x :: x in order && Stray(t, x) && At(t, x).devWList == Some(d)
  }

  /** Freeing a stray process clears the `w_for_res` that its pointer leads to, whoever is served there. */
  function Disowned(devs: seq<DevWList>, t: seq<Pcb>, order: seq<Pid>): (r: seq<DevWList>)
    ensures |r| == |devs|
  {
    seq(|devs|, i requires 0 <= i < |devs| => if Disowns(t, order, i) then devs[i].(res := None) else devs[i])
  }

  /** The state in which terminate_proc picks the next process, if it must. */
  function Cut(s: Sched, root: Pid, order: seq<Pid>): Sched {
    s.(pcbs := Pruned(s.pcbs, root, order),
       free := order + s.free,
       ready := Minus(s.ready, Leaving(s.pcbs, order)),
       blocked := MinusAll(s.blocked, order),
       devs := Disowned(s.devs, s.pcbs, order))
  }

  /** terminate_proc, freeing the processes of `order` so that the last one freed is the first of the free list. */
  function Terminate(s: Sched, root: Pid, order: seq<Pid>): (s': Sched)
    ensures |s'.devs| == |s.devs|
  {
    var s1 := Cut(s, root, order);
    if s.running in Leaving(s.pcbs, order) then RunNext(s1) else s1
  }

  /** p. */
  function Passeren(s: Sched, a: int): Sched
    requires a in s.sems
  {
    if s.sems[a] - 1 < 0 then Block(RunNext(s), Cell(a), s.running)
    else s.(sems := s.sems[a := s.sems[a] - 1])
  }

  /** The process at the head of `k` taken off with its original priority restored, the others aged. */
  function Release(s: Sched, k: Key): Sched
    requires HasWaiter(s, k)
  {
    var p := s.blocked[k][0];
    var s1 := Unblock(s, k);
    var t := Put(s1.pcbs, p, At(s1.pcbs, p).(priority := At(s1.pcbs, p).originalPriority));
    s1.(pcbs := Age(t, s.blocked[k][1..]))
  }

  /** v. */
  function Verhogen(s: Sched, a: int): Sched
    requires a in s.sems
  {
    if HasWaiter(s, Cell(a)) then ScheduleProc(Release(s, Cell(a)), s.blocked[Cell(a)][0])
    else s.(sems := s.sems[a := s.sems[a] + 1])
  }

  /** time_slice_callback. */
  function Tick(s: Sched): Sched {
    var s1 := s.(pcbs := Age(s.pcbs, s.ready));
    if s.ready != [] && Prio(s1.pcbs, s.running) <= Prio(s1.pcbs, s.ready[0]) then
      StopRunning(s1.(ready := s.ready[1..])).(running := s.ready[0])
    else s1
  }

  /** wait_io. */
  function WaitIo(s: Sched, d: nat): Sched
    requires d < |s.devs|
  {
    var s1 := RunNext(s);
    if s.devs[d].cmdSem - 1 < 0 then Block(s1, Device(d), s.running)
    else
      var s2 := BlockFifo(s1, Device(d), s.running);
      s2.(devs := s.devs[d := DevWList(s.devs[d].cmdSem - 1, Some(s.running))],
          pcbs := Put(s2.pcbs, s.running, At(s2.pcbs, s.running).(devWList := Some(d))))
  }

  /** The first half of done_io: the head of the queue comes off, and is scheduled if it is the one served. */
  function Complete(s: Sched, d: nat): Sched
    requires d < |s.devs|
  {
    var k := Device(d);
    if !HasWaiter(s, k) then s
    else
      var p := s.blocked[k][0];
      var s1 := Unblock(s, k);
      if s.devs[d].res == Some(p) then
        ScheduleProc(s1.(pcbs := Put(s1.pcbs, p, At(s1.pcbs, p).(devWList := None))), p)
      else s1
  }

  /** The second half of done_io: the next waiter is served, or the device becomes free. */
  function ServeNext(s: Sched, d: nat): Sched
    requires d < |s.devs|
  {
    var k := Device(d);
    if HasWaiter(s, k) then
      var p := s.blocked[k][0];
      s.(devs := s.devs[d := s.devs[d].(res := Some(p))],
         pcbs := Put(s.pcbs, p, At(s.pcbs, p).(devWList := Some(d))))
    else s.(devs := s.devs[d := DevWList(s.devs[d].cmdSem + 1, None)])
  }

  /** done_io. */
  function DoneIo(s: Sched, d: nat): Sched
    requires d < |s.devs|
  {
    if s.devs[d].res == None then s else ServeNext(Complete(s, d), d)
  }

  // ---- The transition relation -------------------------------------------------------------------------------------

  datatype Action =
    | ACreate(priority: int)
    | ATerminate(root: Pid, order: seq<Pid>)
    | APasseren(addr: int)
    | AVerhogen(addr: int)
    | ATick
    | AWaitIo(dev: nat)
    | ADoneIo(dev: nat)

  /** What every kernel step needs from its caller, apart from the device side conditions. */
  ghost predicate Callable(s: Sched, a: Action) {
    match a
    case ACreate(_) => s.running != s.Idle()
    case ATerminate(root, order) => s.running != s.Idle() && s.Live(root) && Lists(order, s, root)
    case APasseren(addr) => s.running != s.Idle() && addr in s.sems
    case AVerhogen(addr) => addr in s.sems
    case ATick => true
    case AWaitIo(d) => s.running != s.Idle() && d < |s.devs|
    case ADoneIo(d) => d < |s.devs|
  }

  function Apply(s: Sched, a: Action): Sched
    requires Callable(s, a)
  {
    match a
    case ACreate(priority) => Create(s, priority)
    case ATerminate(root, order) => Terminate(s, root, order)
    case APasseren(addr) => Passeren(s, addr)
    case AVerhogen(addr) => Verhogen(s, addr)
    case ATick => Tick(s)
    case AWaitIo(d) => WaitIo(s, d)
    case ADoneIo(d) => DoneIo(s, d)
  }

  // ---- The process tree --------------------------------------------------------------------------------------------

  function Stamp(s: Sched, p: Pid): nat {
    if p < |s.birth| then s.birth[p] else 0
  }

  /** `x` is `root` or one of its descendants, following the parent links of live processes. */
  predicate Below(s: Sched, x: Pid, root: Pid)
    decreases Stamp(s, x)
  {
    x == root ||
    (s.Live(x) && At(s.pcbs, x).parent.Some? &&
     var up := At(s.pcbs, x).parent.value;
     Stamp(s, up) < Stamp(s, x) && Below(s, up, root))
  }

  /** `order` lists the subtree of `root`, each process once. */
  ghost predicate Lists(order: seq<Pid>, s: Sched, root: Pid) {
    NoDup(order) && forall x: Pid :: x in order <==> s.Live(x) && Below(s, x, root)
  }
}
