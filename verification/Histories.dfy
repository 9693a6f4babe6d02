/** What the invariants of the machine say, for every history of handlers that starts where launch leaves the system. */
module Histories {
  import opened Seqs
  import opened Sched
  import opened Invariants
  import opened Devices
  import opened Boot
  import opened Machine
  import opened MachineInvariants
  import opened Accounting

  /** What the system is started with. */
  datatype Setup = Setup(n: nat, priorities: seq<int>, contexts: seq<Context>, cells: map<int, int>, devices: nat,
                         slice: int, tod: int)

  predicate Startable(u: Setup) {
    0 < |u.priorities| <= u.n && u.tod >= 0 && forall a :: a in u.cells ==> u.cells[a] >= 0
  }

  function Started(u: Setup): Machine
    requires Startable(u)
  {
    LaunchedMachine(Launched(u.n, u.priorities, u.cells, u.devices), u.contexts, u.slice, u.tod)
  }

  ghost predicate Reached(u: Setup, es: seq<Event>, m: Machine) {
    Startable(u) && History(Started(u), es) && m == Replay(Started(u), es)
  }

  lemma ReachedInv(u: Setup, es: seq<Event>, m: Machine)
    requires Reached(u, es, m)
    ensures MachineInv(m) && m.launched == u.tod
  {
    Reachable(u.n, u.priorities, u.cells, u.devices, u.contexts, u.slice, u.tod, es);
    LaunchKept(Started(u), es);
  }

  lemma {:induction false} LaunchKept(m: Machine, es: seq<Event>)
    requires History(m, es)
    ensures Replay(m, es).launched == m.launched
    decreases |es|
  {
    if es != [] { LaunchKept(Step(m, es[0]), es[1..]); }
  }

  // ---- Contexts ----------------------------------------------------------------------------------------------------

  /** The events that give `p` another context: its own trap, the answer to its own call, its creation, its completion. */
  predicate Touches(m: Machine, e: Event, p: Pid) {
    match e
    case Enter(_, _, _, _) => m.k.running == p
    case Kernel(ACreate(_), _, _) => m.interrupted == p || (m.k.free != [] && m.k.free[0] == p)
    case Kernel(ATerminate(_, _), _, _) => m.interrupted == p
    case Kernel(ADoneIo(d), _, _) => Completed(m.k, ADoneIo(d)) == Some(p)
    case _ => false
  }

  ghost predicate Untouched(m: Machine, es: seq<Event>, p: Pid)
    requires History(m, es)
    decreases |es|
  {
    es == [] || (!Touches(m, es[0], p) && Untouched(Step(m, es[0]), es[1..], p))
  }

  lemma {:induction false} LogicalKept(m: Machine, es: seq<Event>, p: Pid)
    requires History(m, es) && Untouched(m, es, p)
    ensures Ctx(Replay(m, es).logical, p) == Ctx(m.logical, p)
    decreases |es|
  {
    hide Lists, Apply, ScheduleProc;
    if es != [] { LogicalKept(Step(m, es[0]), es[1..], p); }
  }

  /**
   However many handlers come in between, a process that was switched out resumes from the context it was saved with,
   unless its own command was completed or its PCB created anew.
   */
  lemma ResumesWhereSaved(m: Machine, es: seq<Event>, p: Pid)
    requires MachineInv(m) && History(m, es) && Untouched(m, es, p) && m.k.Live(p) && p != Absent(m)
    ensures var m' := Replay(m, es);
      && (m'.k.Live(p) && p != Absent(m') ==> Ctx(m'.saved, p) == Ctx(m.saved, p))
      && (m'.mode == User && m'.k.running == p ==> m'.cpu == Ctx(m.saved, p))
  {
    var m' := Replay(m, es);
    HistoryInv(m, es);
    LogicalKept(m, es, p);
    SameTable(m, es);
    assert ContextOk(m, p);
    assert p < |m'.k.pcbs| ==> ContextOk(m', p);
  }

  lemma {:induction false} SameTable(m: Machine, es: seq<Event>)
    requires History(m, es)
    ensures |Replay(m, es).k.pcbs| == |m.k.pcbs|
    decreases |es|
  {
    if es != [] {
      if es[0].Kernel? { StepShape(m.k, es[0].act); }
      SameTable(Step(m, es[0]), es[1..]);
    }
  }

  /** A trapped process is saved with the state of its trap, and goes on from it, until something touches it. */
  lemma SavedIsTrap(m: Machine, kind: Mode, tod: int, timer: int, trap: Context, es: seq<Event>)
    requires MachineInv(m) && m.k.running != m.k.Idle()
    requires History(m, [Enter(kind, tod, timer, trap)] + es)
    requires Untouched(EnterHandler(m, kind, tod, timer, trap), es, m.k.running)
    ensures var m' := Replay(m, [Enter(kind, tod, timer, trap)] + es);
      && (m'.k.Live(m.k.running) && m.k.running != Absent(m') ==> Ctx(m'.saved, m.k.running) == trap)
      && (m'.mode == User && m'.k.running == m.k.running ==> m'.cpu == trap)
  {
    var all := [Enter(kind, tod, timer, trap)] + es;
    var m1, m', p := EnterHandler(m, kind, tod, timer, trap), Replay(m, all), m.k.running;
    assert all[1..] == es;
    HistoryInv(m, all);
    LogicalKept(m1, es, p);
    SameTable(m, all);
    assert p < |m'.k.pcbs| ==> ContextOk(m', p);
  }

  // ---- The interval timer ------------------------------------------------------------------------------------------

  ghost predicate OnlySteps(es: seq<Event>) { forall i :: 0 <= i < |es| ==> es[i].Kernel? }

  lemma {:induction false} StepsKeepTimer(m: Machine, es: seq<Event>)
    requires History(m, es) && OnlySteps(es)
    ensures var m' := Replay(m, es);
      m'.interrupted == m.interrupted && m'.timerCache == m.timerCache && m'.slice == m.slice
    decreases |es|
  {
    if es != [] {
      assert es[0].Kernel?;
      forall i | 0 <= i < |es[1..]|
        ensures es[1..][i].Kernel?
      {
        assert es[i + 1].Kernel?;
      }
      StepsKeepTimer(Step(m, es[0]), es[1..]);
    }
  }

  /**
   Whatever steps a handler takes: the process it interrupted goes on with what was left of its slice, never more than
   a slice, and another one starts with a whole slice.
   */
  lemma HandlerTimer(m: Machine, kind: Mode, t0: int, timer: int, trap: Context, es: seq<Event>, t1: int)
    requires Possible(m, Enter(kind, t0, timer, trap)) && OnlySteps(es)
    requires History(EnterHandler(m, kind, t0, timer, trap), es)
    ensures var m1 := Replay(EnterHandler(m, kind, t0, timer, trap), es);
      LeaveHandler(m1, t1).timer ==
        if m1.k.running != m.k.running then m.slice else if timer > m.slice then m.slice else timer
  {
    StepsKeepTimer(EnterHandler(m, kind, t0, timer, trap), es);
  }

  // ---- Time --------------------------------------------------------------------------------------------------------

  /** All time ever charged, to whatever process, fits between launch and now; so does what any account shows. */
  lemma ChargedTime(u: Setup, es: seq<Event>, m: Machine, p: Pid)
    requires Reached(u, es, m)
    ensures Total(m.accounts) <= m.charged <= m.now - u.tod
    ensures var x := Acct(m.accounts, p); 0 <= x.user && 0 <= x.kernel && x.user + x.kernel <= m.now - x.todAtStart
  {
    ReachedInv(u, es, m);
    TotalBounds(m.accounts, m.launched, p);
    assert p < |m.accounts| ==> AccountOk(m.accounts[p], m.launched);
  }

  lemma {:induction false} StartKept(m: Machine, es: seq<Event>, p: Pid)
    requires MachineInv(m) && History(m, es)
    ensures Acct(Replay(m, es).accounts, p).todAtStart == if Reuses(m, es, p) then 0 else Acct(m.accounts, p).todAtStart
    decreases |es|
  {
    if es != [] {
      StartTimes(m, es[0], p);
      EventInv(m, es[0]);
      StartKept(Step(m, es[0]), es[1..], p);
    }
  }

  /**
   In every reachable state the process that launch started has the time of launch as its starting time, until its PCB is
   used again, and every other process has 0: its wall-clock time is counted from the clock's own origin.
   */
  lemma StartingTime(u: Setup, es: seq<Event>, m: Machine, p: Pid)
    requires Reached(u, es, m)
    ensures Acct(m.accounts, p).todAtStart ==
      if p == Started(u).k.running && !Reuses(Started(u), es, p) then u.tod else 0
  {
    Reachable(u.n, u.priorities, u.cells, u.devices, u.contexts, u.slice, u.tod, []);
    StartKept(Started(u), es, p);
  }

  /** To the tick: what the accounts show, what was forgotten with reused PCBs and what swaps cost is the time since launch. */
  lemma ElapsedTime(u: Setup, es: seq<Event>, m: Machine)
    requires Reached(u, es, m)
    ensures Total(m.accounts) + AllForgotten(Started(u), es) + AllSpent(Started(u), es) == Flushed(m) - u.tod
    ensures Flushed(m) <= m.now && AllForgotten(Started(u), es) >= 0 && AllSpent(Started(u), es) >= 0
  {
    ReachedInv(u, es, m);
    Reachable(u.n, u.priorities, u.cells, u.devices, u.contexts, u.slice, u.tod, []);
    NeverNegative(Started(u), es);
    TotalZero(Started(u).accounts);
    TimeConserved(Started(u), es);
  }

  // ---- Devices -----------------------------------------------------------------------------------------------------

  /** Along polite steps the command in a busy device's register is the one that the process being served asked for. */
  lemma OwnCommand(u: Setup, es: seq<Event>, m: Machine, d: nat)
    requires Startable(u) && Trace(Started(u), es) && AllCourteous(Started(u), es) && m == Replay(Started(u), es)
    requires d < |m.k.devs| && m.k.devs[d].res.Some?
    ensures var p := m.k.devs[d].res.value; p < |m.request| && d < |m.commands| && m.commands[d] == m.request[p]
  {
    var s := Launched(u.n, u.priorities, u.cells, u.devices);
    LaunchedInv(u.n, u.priorities, u.cells, u.devices);
    LaunchedMachineInv(s, u.contexts, u.slice, u.tod);
    CourteousHistory(Started(u), es);
    assert CommandOk(m, d);
    ServedWaits(m.k, d);
  }

  /** Whoever waits for a device has the command it asked for in its saved context, where the completion before reads it. */
  lemma OwnRequest(u: Setup, es: seq<Event>, m: Machine, d: nat, x: Pid)
    requires Reached(u, es, m) && x in QueueOf(m.k.blocked, Device(d)) && x != Absent(m)
    ensures x < |m.request| && Ctx(m.saved, x).arg1 == m.request[x]
  {
    ReachedInv(u, es, m);
    assert QueueLinked(m.k, Device(d), m.k.blocked[Device(d)]);
    assert ContextOk(m, x) && RequestOk(m, x) && Places(m.k, None, x) == 1;
  }
}
