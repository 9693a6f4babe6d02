/**
 Aging counts slices, and every swap starts a new one: two processes that block and wake each other within a slice can keep
 a third one waiting for as long as they like.
 */
module Starvation {
  import opened Seqs
  import opened Sched
  import opened Runs
  import opened Boot
  import opened Machine
  import opened MachineInvariants
  import opened Histories

  /** The interval timer has been running since the process was loaded, and has not run out. */
  predicate InTime(m: Machine, e: Event) {
    e.Enter? ==> m.timer - (e.tod - m.now) == e.timer && e.timer > 0 && e.tod > m.now
  }

  /** A safe and polite step, within the slice of its process. */
  ghost predicate Harmless(m: Machine, e: Event)
    requires Possible(m, e)
  {
    Fair(m, e) && Courteous(m, e) && InTime(m, e) && !(e.Kernel? && e.act.ATick?)
  }

  /** All along the history `w` is ready, every step is safe and polite, and no slice ends because none is used up. */
  ghost predicate Starves(m: Machine, es: seq<Event>, w: Pid)
    decreases |es|
  {
    w in m.k.ready &&
    (es != [] ==> Possible(m, es[0]) && Harmless(m, es[0]) && Starves(Step(m, es[0]), es[1..], w))
  }

  lemma {:induction false} StarvesHistory(m: Machine, es: seq<Event>, w: Pid)
    requires Starves(m, es, w)
    ensures History(m, es) && w in Replay(m, es).k.ready
    decreases |es|
  {
    if es != [] { StarvesHistory(Step(m, es[0]), es[1..], w); }
  }

  lemma StarvesCons(m: Machine, e: Event, es: seq<Event>, w: Pid)
    requires w in m.k.ready && Possible(m, e) && Harmless(m, e)
    requires Starves(Step(m, e), es, w)
    ensures Starves(m, [e] + es, w)
  {
    assert ([e] + es)[1..] == es;
  }

  /** A running process with more than one tick left of its slice. */
  ghost predicate Running(m: Machine, s: Sched) {
    m.k == s && s.running != s.Idle() && m.mode == User && 1 < m.timer <= m.slice && m.slice > 2
  }

  /** One system call, one tick after its process was loaded or resumed. */
  function CallEvents(m: Machine, a: Action): seq<Event> {
    [Enter(Syscall, m.now + 1, m.timer - 1, BLANK_CONTEXT), Kernel(a, m.now + 2, BLANK_CONTEXT), Leave(m.now + 3)]
  }

  function Called(m: Machine, a: Action): Machine
    requires Callable(m.k, a)
  {
    LeaveHandler(KernelStep(EnterHandler(m, Syscall, m.now + 1, m.timer - 1, BLANK_CONTEXT), a, m.now + 2, BLANK_CONTEXT),
                 m.now + 3)
  }

  /** The call leaves its process with one tick less, or the next one with a whole slice. */
  lemma CalledState(m: Machine, s: Sched, a: Action)
    requires Running(m, s) && Callable(s, a)
    ensures var s', m' := Apply(s, a), Called(m, a);
      && m'.k == s' && m'.mode == User && m'.slice == m.slice
      && m'.timer == if s'.running == s.running then m.timer - 1 else m.slice
  {
    hide Callable;
    hide Apply;
  }

  lemma EnterFirst(m: Machine, s: Sched, rest: seq<Event>, w: Pid)
    requires Running(m, s) && w in s.ready
    requires Starves(EnterHandler(m, Syscall, m.now + 1, m.timer - 1, BLANK_CONTEXT), rest, w)
    ensures Starves(m, [Enter(Syscall, m.now + 1, m.timer - 1, BLANK_CONTEXT)] + rest, w)
  {
    StarvesCons(m, Enter(Syscall, m.now + 1, m.timer - 1, BLANK_CONTEXT), rest, w);
  }

  lemma KernelFirst(m: Machine, a: Action, tod: int, rest: seq<Event>, w: Pid)
    requires m.mode == Syscall && m.now <= tod && w in m.k.ready && Callable(m.k, a)
    requires Safe(m.k, a) && Polite(m.k, a) && !a.ATick? && !a.ADoneIo?
    requires Starves(KernelStep(m, a, tod, BLANK_CONTEXT), rest, w)
    ensures Starves(m, [Kernel(a, tod, BLANK_CONTEXT)] + rest, w)
  {
    hide Callable, Safe, Polite, KernelStep;
    StarvesCons(m, Kernel(a, tod, BLANK_CONTEXT), rest, w);
  }

  lemma LeaveFirst(m: Machine, tod: int, rest: seq<Event>, w: Pid)
    requires m.mode != User && m.now <= tod && w in m.k.ready && Starves(LeaveHandler(m, tod), rest, w)
    ensures Starves(m, [Leave(tod)] + rest, w)
  {
    hide LeaveHandler;
    StarvesCons(m, Leave(tod), rest, w);
  }

  lemma OneCall(m: Machine, s: Sched, a: Action, es: seq<Event>, w: Pid)
    requires Running(m, s) && Callable(s, a) && Safe(s, a) && Polite(s, a) && !a.ATick? && !a.ADoneIo?
    requires w in s.ready && w in Apply(s, a).ready && Starves(Called(m, a), es, w)
    ensures Starves(m, CallEvents(m, a) + es, w)
  {
    hide Callable, Apply, Safe, Polite, LeaveHandler, Starves;
    var cs := CallEvents(m, a);
    var m1 := EnterHandler(m, Syscall, m.now + 1, m.timer - 1, BLANK_CONTEXT);
    var m2 := KernelStep(m1, a, m.now + 2, BLANK_CONTEXT);
    LeaveFirst(m2, m.now + 3, es, w);
    KernelFirst(m1, a, m.now + 2, [cs[2]] + es, w);
    EnterFirst(m, s, [cs[1]] + ([cs[2]] + es), w);
    assert [cs[0]] + ([cs[1]] + ([cs[2]] + es)) == cs + es;
  }

  // ---- The duel ----------------------------------------------------------------------------------------------------

  function Fighter(key: Option<Key>): Pcb { Pcb(None, [], 5, 5, key, None) }

  /** Process 0 has priority 1, processes 1 and 2 have 5; one of these runs, and the other sleeps on `at` or is ready. */
  function Duel(running: Pid, at: Option<int>): Sched {
    var key := if at.Some? then Some(Cell(at.value)) else None;
    Sched([Pcb(None, [], 1, 1, None, None), Fighter(if running == 1 then None else key),
           Fighter(if running == 2 then None else key), BLANK_PCB],
          [], if at.Some? then [0] else [if running == 1 then 2 else 1, 0], running,
          if at.Some? then map[Cell(at.value) := [if running == 1 then 2 else 1]] else map[],
          map[0 := 0, 1 := 0], [], [0, 1, 2, 0], 3)
  }

  /** `p` on its own cell puts the running fighter to sleep and the other one in its place. */
  lemma FighterSleeps(running: Pid, a: int)
    requires (running == 1 && a == 0) || (running == 2 && a == 1)
    ensures Passeren(Duel(running, None), a) == Duel(3 - running, Some(a))
  {
    var s, s' := Duel(running, None), Duel(3 - running, Some(a));
    assert Enqueue(s.pcbs, [], running) == [running];
    hide Enqueue;
    assert s.ready[1..] == [0];
    var t := Passeren(s, a).pcbs;
    assert t[0] == s'.pcbs[0] && t[3] == s'.pcbs[3];
    assert t[1] == s'.pcbs[1] && t[2] == s'.pcbs[2];
  }

  /** The state between waking the sleeper and scheduling it. */
  lemma FighterReleased(running: Pid, a: int)
    requires (running == 2 && a == 0) || (running == 1 && a == 1)
    ensures Release(Duel(running, Some(a)), Cell(a)) == Duel(running, None).(ready := [0])
  {
    var s, p: nat := Duel(running, Some(a)), 3 - running;
    var s1, s' := Release(s, Cell(a)), Duel(running, None);
    assert [p][1..] == [] && s1.blocked == map[];
    assert s1.pcbs[0] == s'.pcbs[0];
    assert s1.pcbs[1] == s'.pcbs[1];
    assert s1.pcbs[2] == s'.pcbs[2];
    assert s1.pcbs[3] == s'.pcbs[3];
  }

  lemma FighterScheduled(running: Pid)
    requires running == 1 || running == 2
    ensures ScheduleProc(Duel(running, None).(ready := [0]), 3 - running) == Duel(running, None)
  {
    var t, p: nat := Duel(running, None).pcbs, 3 - running;
    assert Prio(t, 0) == 1 && Prio(t, p) == 5 == Prio(t, running);
    assert Prios(t, [0]) == [1] && Slot([1], 5) == 0;
    assert Enqueue(t, [0], p) == [p, 0];
  }

  /** `v` on the other's cell wakes it, with no more than equal priority. */
  lemma FighterWakes(running: Pid, a: int)
    requires (running == 2 && a == 0) || (running == 1 && a == 1)
    ensures Verhogen(Duel(running, Some(a)), a) == Duel(running, None)
  {
    hide Release, ScheduleProc;
    FighterReleased(running, a);
    FighterScheduled(running);
  }

  ghost predicate Moves(s: Sched, a: Action, s': Sched) {
    Callable(s, a) && Polite(s, a) && Apply(s, a) == s' && !a.ATick? && !a.ADoneIo? && 0 in s.ready && 0 in s'.ready
  }

  lemma SleepMoves(running: Pid, a: int)
    requires (running == 1 && a == 0) || (running == 2 && a == 1)
    ensures Moves(Duel(running, None), APasseren(a), Duel(3 - running, Some(a)))
  {
    FighterSleeps(running, a);
  }

  lemma WakeMoves(running: Pid, a: int)
    requires (running == 2 && a == 0) || (running == 1 && a == 1)
    ensures Moves(Duel(running, Some(a)), AVerhogen(a), Duel(running, None))
  {
    hide Verhogen;
    FighterWakes(running, a);
  }

  lemma OneMove(m: Machine, s: Sched, a: Action, s': Sched)
    requires Running(m, s) && Moves(s, a, s') && s'.running != s'.Idle() && (s'.running == s.running ==> m.timer > 2)
    ensures Callable(m.k, a) && Running(Called(m, a), s') && Called(m, a).slice == m.slice
    ensures s'.running != s.running ==> Called(m, a).timer == m.slice
  {
    CalledState(m, s, a);
  }

  /** One move of the duel, put in front of a history in which 0 starves. */
  lemma MoveFirst(m: Machine, s: Sched, a: Action, s': Sched, es: seq<Event>)
    requires Running(m, s) && Moves(s, a, s') && Starves(Called(m, a), es, 0)
    ensures Starves(m, CallEvents(m, a) + es, 0)
  {
    OneCall(m, s, a, es, 0);
  }

  /** The running fighter goes to sleep on `a`; the other one gets a whole slice, and wakes it. */
  lemma HalfRound(m: Machine, running: Pid, a: int)
    requires Running(m, Duel(running, None)) && ((running == 1 && a == 0) || (running == 2 && a == 1))
    ensures Callable(m.k, APasseren(a))
    ensures var m1 := Called(m, APasseren(a));
      Running(m1, Duel(3 - running, Some(a))) && Callable(m1.k, AVerhogen(a)) &&
      Running(Called(m1, AVerhogen(a)), Duel(3 - running, None))
  {
    hide Called;
    hide Moves;
    SleepMoves(running, a);
    WakeMoves(3 - running, a);
    OneMove(m, Duel(running, None), APasseren(a), Duel(3 - running, Some(a)));
    OneMove(Called(m, APasseren(a)), Duel(3 - running, Some(a)), AVerhogen(a), Duel(3 - running, None));
  }

  lemma HalfRoundFirst(m: Machine, running: Pid, a: int, es: seq<Event>)
    requires Running(m, Duel(running, None)) && ((running == 1 && a == 0) || (running == 2 && a == 1))
    requires Callable(m.k, APasseren(a)) && Callable(Called(m, APasseren(a)).k, AVerhogen(a))
    requires Starves(Called(Called(m, APasseren(a)), AVerhogen(a)), es, 0)
    ensures var m1 := Called(m, APasseren(a));
      Starves(m, CallEvents(m, APasseren(a)) + (CallEvents(m1, AVerhogen(a)) + es), 0)
  {
    hide Called;
    hide Moves;
    hide CallEvents;
    hide Starves;
    var m1 := Called(m, APasseren(a));
    SleepMoves(running, a);
    WakeMoves(3 - running, a);
    HalfRound(m, running, a);
    MoveFirst(m1, Duel(3 - running, Some(a)), AVerhogen(a), Duel(3 - running, None), es);
    MoveFirst(m, Duel(running, None), APasseren(a), Duel(3 - running, Some(a)), CallEvents(m1, AVerhogen(a)) + es);
  }

  /** The duel can go on for any number of half rounds. */
  lemma {:induction false} DuelGoesOn(m: Machine, running: Pid, k: nat) returns (es: seq<Event>)
    requires Running(m, Duel(running, None)) && (running == 1 || running == 2)
    ensures |es| >= k && Starves(m, es, 0)
    decreases k
  {
    hide Called;
    if k == 0 {
      es := [];
    } else {
      var a := running - 1;
      HalfRound(m, running, a);
      var m1 := Called(m, APasseren(a));
      var rest := DuelGoesOn(Called(m1, AVerhogen(a)), 3 - running, k - 1);
      HalfRoundFirst(m, running, a, rest);
      es := CallEvents(m, APasseren(a)) + (CallEvents(m1, AVerhogen(a)) + rest);
    }
  }

  /** What the duel is started with; a slice is at least three ticks of the clock. */
  function Challenge(slice: int): Setup {
    Setup(3, [1, 5, 5], [], map[0 := 0, 1 := 0], 0, slice, 0)
  }

  /** The state before launch with the first `k` of the three processes admitted. */
  function Arrived(k: nat, cells: map<int, int>, devs: seq<DevWList>): Sched
    requires k <= 3
  {
    Sched([if k > 0 then Pcb(None, [], 1, 1, None, None) else BLANK_PCB, if k > 1 then Fighter(None) else BLANK_PCB,
           if k > 2 then Fighter(None) else BLANK_PCB, BLANK_PCB],
          [0, 1, 2][k..], if k == 0 then [] else if k == 1 then [0] else if k == 2 then [1, 0] else [1, 2, 0], 3, map[],
          cells, devs, [0, if k > 1 then 1 else 0, if k > 2 then 2 else 0, 0], k)
  }

  lemma EnqueueBetween(t: seq<Pcb>, a: Pid, b: Pid, p: Pid)
    requires Prio(t, a) >= Prio(t, p) > Prio(t, b)
    ensures Enqueue(t, [a, b], p) == [a, p, b]
  {
    assert Prios(t, [a, b])[0] == Prio(t, a) && Prios(t, [a, b])[1] == Prio(t, b);
  }

  lemma NobodyArrived(cells: map<int, int>, devices: nat)
    ensures Empty(3, cells, devices) == Arrived(0, cells, Empty(3, cells, devices).devs)
  {
  }

  lemma FirstArrives(cells: map<int, int>, devs: seq<DevWList>)
    ensures Admit(Arrived(0, cells, devs), 1) == Arrived(1, cells, devs)
  {
    assert Admit(Arrived(0, cells, devs), 1).ready == [0];
  }

  lemma SecondArrives(cells: map<int, int>, devs: seq<DevWList>)
    ensures Admit(Arrived(1, cells, devs), 5) == Arrived(2, cells, devs)
  {
    var t := Arrived(2, cells, devs).pcbs;
    assert Admit(Arrived(1, cells, devs), 5).pcbs == t;
    assert Prios(t, [0]) == [1] && Slot([1], 5) == 0;
    assert Enqueue(t, [0], 1) == [1, 0];
  }

  lemma ThirdArrives(cells: map<int, int>, devs: seq<DevWList>)
    ensures Admit(Arrived(2, cells, devs), 5) == Arrived(3, cells, devs)
  {
    var t := Arrived(3, cells, devs).pcbs;
    assert Admit(Arrived(2, cells, devs), 5).pcbs == t;
    EnqueueBetween(t, 1, 0, 2);
  }

  /** Launch with priorities 1, 5 and 5 starts process 1, with 2 and 0 ready. */
  lemma TrioLaunched(cells: map<int, int>, devices: nat)
    ensures Launched(3, [1, 5, 5], cells, devices) ==
      Arrived(3, cells, Empty(3, cells, devices).devs).(running := 1, ready := [2, 0])
  {
    hide Enqueue, Empty;
    var devs := Empty(3, cells, devices).devs;
    NobodyArrived(cells, devices);
    FirstArrives(cells, devs);
    SecondArrives(cells, devs);
    ThirdArrives(cells, devs);
    Admitted(cells, devs);
    assert [1, 2, 0][1..] == [2, 0];
  }

  lemma Admitted(cells: map<int, int>, devs: seq<DevWList>)
    requires Admit(Arrived(0, cells, devs), 1) == Arrived(1, cells, devs)
    requires Admit(Arrived(1, cells, devs), 5) == Arrived(2, cells, devs)
    requires Admit(Arrived(2, cells, devs), 5) == Arrived(3, cells, devs)
    ensures AdmitAll(Arrived(0, cells, devs), [1, 5, 5]) == Arrived(3, cells, devs)
  {
    hide Admit;
    var s := Arrived(0, cells, devs);
    assert [1, 5, 5][..2] == [1, 5] && [1, 5][..1] == [1] && [1][..0] == [];
    assert AdmitAll(s, []) == s;
    assert AdmitAll(s, [1]) == Arrived(1, cells, devs);
    assert AdmitAll(s, [1, 5]) == Arrived(2, cells, devs);
  }

  lemma ChallengeLaunched()
    ensures Launched(3, [1, 5, 5], map[0 := 0, 1 := 0], 0) == Duel(1, None)
  {
    TrioLaunched(map[0 := 0, 1 := 0], 0);
    assert Empty(3, map[0 := 0, 1 := 0], 0).devs == [];
    assert [0, 1, 2][3..] == [];
    assert Arrived(3, map[0 := 0, 1 := 0], []).pcbs == Duel(1, None).pcbs;
  }

  /** For any number of events there is a history from launch in which a ready process gets nowhere. */
  lemma StarvationPossible(slice: int, k: nat)
    requires slice > 2
    ensures Startable(Challenge(slice))
    ensures exists es :: |es| >= k && History(Started(Challenge(slice)), es) && Starves(Started(Challenge(slice)), es, 0)
  {
    ChallengeLaunched();
    var m := Started(Challenge(slice));
    var es := DuelGoesOn(m, 1, k);
    StarvesHistory(m, es, 0);
  }
}
