/** The stored value and the waiting queue together are the textbook counting semaphore. */
module Semaphores {
  import opened Seqs
  import opened Sched
  import opened Invariants
  import opened Devices
  import opened Runs

  /** The textbook counter: available units, or minus the number of waiters. */
  function Counter(s: Sched, a: int): int
    requires a in s.sems
  {
    s.sems[a] - |QueueOf(s.blocked, Cell(a))|
  }

  /** How many of `order` are in `q`. */
  function Among(order: seq<Pid>, q: seq<Pid>): nat {
    if order == [] then 0 else Count(order[0] in q) + Among(order[1..], q)
  }

  /** How many processes waiting on `a` a step terminates. */
  function Killed(s: Sched, act: Action, a: int): int {
    if act.ATerminate? then Among(act.order, QueueOf(s.blocked, Cell(a))) else 0
  }

  /** Filtering a queue shortens it by those of the list that were in it. */
  lemma {:induction false} MinusLength(q: seq<Pid>, order: seq<Pid>)
    requires NoDup(q) && NoDup(order)
    ensures |Minus(q, order)| == |q| - Among(order, q)
  {
    if order == [] {
      MinusNothing(q, []);
    } else {
      Uncons(order);
      MinusLength(q, order[1..]);
      MinusNoDup(q, order[1..]);
      WithoutMinus(q, order[1..], order[0]);
      WithoutProps(Minus(q, order[1..]), order[0]);
      if order[0] !in q { WithoutAbsent(Minus(q, order[1..]), order[0]); }
    }
  }

  /** `p` that goes through at once, or `v` that wakes somebody: one unit handed out. */
  function Grants(s: Sched, act: Action, a: int): nat {
    if act == APasseren(a) && a in s.sems && s.sems[a] > 0 then 1
    else if act == AVerhogen(a) && HasWaiter(s, Cell(a)) then 1
    else 0
  }

  ghost predicate SameSemaphore(s: Sched, s': Sched, a: int) {
    (a in s.sems <==> a in s'.sems) && (a in s.sems ==> s'.sems[a] == s.sems[a]) &&
    QueueOf(s'.blocked, Cell(a)) == QueueOf(s.blocked, Cell(a))
  }

  lemma ScheduleSems(s: Sched, p: Pid)
    ensures ScheduleProc(s, p).sems == s.sems && ScheduleProc(s, p).blocked == s.blocked
  {
  }

  lemma OtherSems(s: Sched, act: Action, a: int)
    requires Callable(s, act) && !act.ATerminate? && act != APasseren(a) && act != AVerhogen(a)
    ensures SameSemaphore(s, Apply(s, act), a)
  {
    hide Terminate, Complete, Enqueue, Age;
    match act
    case ACreate(priority) =>
      if s.free != [] { ScheduleSems(Allocate(s, priority), s.free[0]); }
    case APasseren(addr) =>
    case AVerhogen(addr) =>
      if HasWaiter(s, Cell(addr)) { ScheduleSems(Release(s, Cell(addr)), s.blocked[Cell(addr)][0]); }
    case ATick =>
    case AWaitIo(d) =>
    case ADoneIo(d) =>
      if s.devs[d].res.Some? { CompleteSems(s, d, a); }
  }

  lemma CompleteSems(s: Sched, d: nat, a: int)
    requires d < |s.devs|
    ensures SameSemaphore(s, Complete(s, d), a)
  {
    if HasWaiter(s, Device(d)) {
      var p, s1 := s.blocked[Device(d)][0], Unblock(s, Device(d));
      ScheduleSems(s1.(pcbs := Put(s1.pcbs, p, At(s1.pcbs, p).(devWList := None))), p);
    }
  }

  /** Every step moves the counter as the textbook says, and no other. */
  lemma StepCounter(s: Sched, act: Action, a: int)
    requires KernelInv(s) && Callable(s, act) && a in s.sems
    ensures a in Apply(s, act).sems
    ensures Counter(Apply(s, act), a)
         == Counter(s, a) - Count(act == APasseren(a)) + Count(act == AVerhogen(a)) + Killed(s, act, a)
    ensures Apply(s, act).sems[a] == s.sems[a] + Count(act == AVerhogen(a)) - Grants(s, act, a)
  {
    hide Conserved, ScheduleProc;
    assert Cell(a) in s.blocked ==> QueueLinked(s, Cell(a), s.blocked[Cell(a)]) && Usable(s, Cell(a));
    match act
    case ATerminate(root, order) =>
      assert NoDup(QueueOf(s.blocked, Cell(a)));
      MinusLength(QueueOf(s.blocked, Cell(a)), order);
    case APasseren(addr) =>
      if addr == a { assert s.sems[a] <= 0 ==> s.sems[a] == 0; } else { OtherSems(s, act, a); }
    case AVerhogen(addr) =>
      if addr != a {
        OtherSems(s, act, a);
      } else if HasWaiter(s, Cell(a)) {
        ScheduleSems(Release(s, Cell(a)), s.blocked[Cell(a)][0]);
      }
    case _ =>
      OtherSems(s, act, a);
  }

  function VCalls(acts: seq<Action>, a: int): nat
    decreases |acts|
  {
    if acts == [] then 0 else Count(acts[0] == AVerhogen(a)) + VCalls(acts[1..], a)
  }

  function AllGrants(s: Sched, acts: seq<Action>, a: int): nat
    requires Run(s, acts)
    decreases |acts|
  {
    if acts == [] then 0 else Grants(s, acts[0], a) + AllGrants(Apply(s, acts[0]), acts[1..], a)
  }

  /** Units are neither made nor lost: what is left plus what was granted is what there was plus what `v` added. */
  lemma {:induction false} RunUnits(s: Sched, acts: seq<Action>, a: int)
    requires KernelInv(s) && Run(s, acts) && a in s.sems
    ensures var s' := After(s, acts);
      && a in s'.sems && s'.sems[a] >= 0 && (Cell(a) in s'.blocked ==> s'.sems[a] == 0)
      && s'.sems[a] + AllGrants(s, acts, a) == s.sems[a] + VCalls(acts, a)
    decreases |acts|
  {
    if acts == [] {
      assert Cell(a) in s.blocked ==> Usable(s, Cell(a));
    } else {
      StepInv(s, acts[0]);
      StepCounter(s, acts[0], a);
      RunUnits(Apply(s, acts[0]), acts[1..], a);
    }
  }
}
