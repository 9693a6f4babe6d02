/** Waiting for a device: nobody ages there, so that the bound rests on who else asks for it. */
module Queueing {
  import opened Seqs
  import opened Sched
  import opened Invariants
  import opened Devices
  import opened Runs
  import opened Waiting
  import opened Bypass
  import opened MachineInvariants
  import opened Boot
  import opened Starvation

  function Completions(acts: seq<Action>, d: nat): nat {
    if acts == [] then 0 else Count(acts[0] == ADoneIo(d)) + Completions(acts[1..], d)
  }

  predicate First(q: seq<Pid>, w: Pid) { q != [] && q[0] == w }

  // ---- First come, first served among equals -----------------------------------------------------------------------

  lemma DeviceBusy(s: Sched, w: Pid, d: nat)
    requires Sound(s) && d < |s.devs| && Waits(s, w, Device(d))
    ensures s.devs[d].cmdSem == 0 && s.devs[d].res.Some? && HasWaiter(s, Device(d))
  {
    assert SoundDevice(s, d, s.devs[d]);
  }

  lemma CompletionAhead(s: Sched, d: nat, w: Pid)
    requires KernelInv(s) && d < |s.devs| && Waits(s, w, Device(d)) && Waits(DoneIo(s, d), w, Device(d))
    ensures Ahead(QueueOf(DoneIo(s, d).blocked, Device(d)), w) == Ahead(QueueOf(s.blocked, Device(d)), w) - 1
  {
    DeviceBusy(s, w, d);
    WaiterFacts(s, w, Device(d));
    CompleteLists(s, d);
    var q := s.blocked[Device(d)];
    Uncons(q);
    hide Inv, Complete;
    AheadTail(q, w);
  }

  lemma NewcomerAhead(s: Sched, d: nat, w: Pid)
    requires KernelInv(s) && d < |s.devs| && s.running != s.Idle() && Waits(s, w, Device(d))
    requires Prio(s.pcbs, s.running) <= Prio(s.pcbs, w)
    ensures Ahead(QueueOf(WaitIo(s, d).blocked, Device(d)), w) == Ahead(QueueOf(s.blocked, Device(d)), w)
  {
    DeviceBusy(s, w, d);
    WaiterFacts(s, w, Device(d));
    hide Inv, Enqueue;
    EnqueueBehind(s.pcbs, s.blocked[Device(d)], s.running, w);
  }

  lemma TerminateAhead(s: Sched, root: Pid, order: seq<Pid>, d: nat, w: Pid)
    requires KernelInv(s) && Waits(s, w, Device(d)) && Waits(Terminate(s, root, order), w, Device(d))
    ensures Ahead(QueueOf(Terminate(s, root, order).blocked, Device(d)), w) <= Ahead(QueueOf(s.blocked, Device(d)), w)
  {
    hide KernelInv;
    MinusAhead(s.blocked[Device(d)], order, w);
  }

  /** A step leaves a waiter as near as it was, and the completion of a command brings it one nearer. */
  lemma StepAhead(s: Sched, a: Action, d: nat, w: Pid)
    requires KernelInv(s) && Callable(s, a) && d < |s.devs| && Waits(s, w, Device(d)) && Waits(Apply(s, a), w, Device(d))
    requires a == AWaitIo(d) ==> Prio(s.pcbs, s.running) <= Prio(s.pcbs, w)
    ensures Ahead(QueueOf(Apply(s, a).blocked, Device(d)), w) <=
      Ahead(QueueOf(s.blocked, Device(d)), w) - Count(a == ADoneIo(d))
  {
    hide KernelInv, Lists, Ahead;
    match a {
      case ATerminate(root, order) => TerminateAhead(s, root, order, d, w);
      case AWaitIo(e) => if e == d { NewcomerAhead(s, d, w); }
      case ADoneIo(e) => if e == d { CompletionAhead(s, d, w); } else { CompleteLists(s, e); }
      case _ =>
        OthersSame(s, a);
    }
  }

  /** All along the path `w` waits for `d`. */
  ghost predicate Queued(s: Sched, acts: seq<Action>, d: nat, w: Pid)
    requires Path(s, acts)
    decreases |acts|
  {
    Waits(s, w, Device(d)) && (acts != [] ==> Queued(Apply(s, acts[0]), acts[1..], d, w))
  }

  /** Nobody who asks for `d` on the way outranks `w`. */
  ghost predicate Unpassed(s: Sched, acts: seq<Action>, d: nat, w: Pid)
    requires Path(s, acts)
    decreases |acts|
  {
    acts != [] ==>
      && (acts[0] == AWaitIo(d) ==> Prio(s.pcbs, s.running) <= Prio(s.pcbs, w))
      && Unpassed(Apply(s, acts[0]), acts[1..], d, w)
  }

  lemma {:induction false} RunAhead(s: Sched, acts: seq<Action>, d: nat, w: Pid)
    requires KernelInv(s) && Run(s, acts) && d < |s.devs| && Queued(s, acts, d, w) && Unpassed(s, acts, d, w)
    ensures var s' := After(s, acts);
      && d < |s'.devs| && Waits(s', w, Device(d))
      && Completions(acts, d) + Ahead(QueueOf(s'.blocked, Device(d)), w) <= Ahead(QueueOf(s.blocked, Device(d)), w)
    decreases |acts|
  {
    hide KernelInv, Callable, Apply, Ahead, Safe, Waits;
    if acts != [] {
      StepInv(s, acts[0]);
      StepShape(s, acts[0]);
      StepAhead(s, acts[0], d, w);
      RunAhead(Apply(s, acts[0]), acts[1..], d, w);
    }
  }

  /**
   As long as nobody above it asks for the device, a process is passed over by at most as many completions as there were
   processes ahead of it; after that many it is first in the queue, and the next completion wakes it.
   */
  lemma ServedInTurn(s: Sched, acts: seq<Action>, d: nat, w: Pid)
    requires KernelInv(s) && Run(s, acts) && d < |s.devs| && Queued(s, acts, d, w) && Unpassed(s, acts, d, w)
    ensures var s', ahead := After(s, acts), Ahead(QueueOf(s.blocked, Device(d)), w);
      && d < |s'.devs| && Completions(acts, d) <= ahead < s.N()
      && (Completions(acts, d) == ahead ==> First(QueueOf(s'.blocked, Device(d)), w))
      && (Completions(acts, d) == ahead && !DropsWaiter(s', d) ==>
           s'.devs[d].res == Some(w) && (w in DoneIo(s', d).ready || w == DoneIo(s', d).running))
  {
    hide Ahead, Inv, Path;
    RunAhead(s, acts, d, w);
    RunInv(s, acts);
    WaiterFacts(s, w, Device(d));
    if Ahead(QueueOf(After(s, acts).blocked, Device(d)), w) == 0 { AtHead(After(s, acts), d, w); }
  }

  lemma AtHead(s: Sched, d: nat, w: Pid)
    requires KernelInv(s) && d < |s.devs| && Waits(s, w, Device(d)) && Ahead(QueueOf(s.blocked, Device(d)), w) == 0
    ensures First(QueueOf(s.blocked, Device(d)), w)
    ensures !DropsWaiter(s, d) ==> s.devs[d].res == Some(w) && (w in DoneIo(s, d).ready || w == DoneIo(s, d).running)
  {
    hide Inv, DoneIo;
    DeviceBusy(s, w, d);
    if !DropsWaiter(s, d) { CompletionWakes(s, d); }
  }

  // ---- Higher newcomers --------------------------------------------------------------------------------------------

  function Rival(place: Option<nat>): Pcb { Pcb(None, [], 5, 5, Some(Device(0)), place) }

  /** Process 0 has priority 1 and waits for the device behind 1 and 2, of priority 5, the first of whom is served. */
  function Rivals(first: Pid): Sched {
    Sched([Pcb(None, [], 1, 1, Some(Device(0)), None), Rival(if first == 1 then Some(0) else None),
           Rival(if first == 2 then Some(0) else None), BLANK_PCB],
          [], [], 3, map[Device(0) := [first, if first == 1 then 2 else 1, 0]], map[], [DevWList(0, Some(first))],
          [0, 1, 2, 0], 3)
  }

  /** The one served is done and runs, and the other one is served. */
  function RivalRuns(running: Pid): Sched {
    var other := if running == 1 then 2 else 1;
    Rivals(other).(
      pcbs := Rivals(other).pcbs[1 := if running == 1 then Starvation.Fighter(None) else Rival(Some(0))]
                                [2 := if running == 2 then Starvation.Fighter(None) else Rival(Some(0))],
      running := running, blocked := map[Device(0) := [other, 0]])
  }

  lemma RivalDone(first: Pid)
    requires first == 1 || first == 2
    ensures Goes(Rivals(first), ADoneIo(0), RivalRuns(first))
  {
    var s, other: nat := Rivals(first), 3 - first;
    assert [first, other, 0][1..] == [other, 0];
    var s1 := Unblock(s, Device(0));
    assert s1.blocked == map[Device(0) := [other, 0]];
    var s2 := s1.(pcbs := Put(s1.pcbs, first, At(s1.pcbs, first).(devWList := None)));
    assert Complete(s, 0) == ScheduleProc(s2, first) == s2.(running := first);
    hide Enqueue;
    assert DoneIo(s, 0).pcbs == RivalRuns(first).pcbs;
  }

  lemma RivalReturns(running: Pid)
    requires running == 1 || running == 2
    ensures Goes(RivalRuns(running), AWaitIo(0), Rivals(3 - running))
  {
    var s, other: nat := RivalRuns(running), 3 - running;
    EnqueueBetween(s.pcbs, other, 0, running);
    hide Enqueue;
    assert WaitIo(s, 0).pcbs == Rivals(other).pcbs;
  }

  lemma QueuedCons(s: Sched, a: Action, s': Sched, acts: seq<Action>, d: nat, w: Pid)
    requires Goes(s, a, s') && Allowed(s', acts) && Queued(s', acts, d, w) && Waits(s, w, Device(d))
    ensures Allowed(s, [a] + acts) && Queued(s, [a] + acts, d, w)
    ensures Completions([a] + acts, d) == Count(a == ADoneIo(d)) + Completions(acts, d)
  {
    AllowedCons(s, a, s', acts);
    assert ([a] + acts)[1..] == acts;
  }

  /** The two can go on in turn for any number of completions. */
  lemma {:induction false} RivalsGoOn(first: Pid, k: nat) returns (acts: seq<Action>)
    requires first == 1 || first == 2
    ensures Allowed(Rivals(first), acts) && Queued(Rivals(first), acts, 0, 0) && Completions(acts, 0) == k
    decreases k
  {
    hide Goes;
    if k == 0 {
      acts := [];
    } else {
      var rest := RivalsGoOn(3 - first, k - 1);
      RivalDone(first);
      RivalReturns(first);
      QueuedCons(RivalRuns(first), AWaitIo(0), Rivals(3 - first), rest, 0, 0);
      QueuedCons(Rivals(first), ADoneIo(0), RivalRuns(first), [AWaitIo(0)] + rest, 0, 0);
      acts := [ADoneIo(0)] + ([AWaitIo(0)] + rest);
    }
  }

  /** After launch the three ask for the device one after the other. */
  const TO_RIVALS := [AWaitIo(0), AWaitIo(0), AWaitIo(0)]

  const TRIO := Sched(
    [Pcb(None, [], 1, 1, None, None), Starvation.Fighter(None), Starvation.Fighter(None), BLANK_PCB],
    [], [2, 0], 1, map[], map[], [DevWList(1, None)], [0, 1, 2, 0], 3)

  const TRIO_ONE := TRIO.(
    pcbs := TRIO.pcbs[1 := Rival(Some(0))], ready := [0], running := 2,
    blocked := map[Device(0) := [1]], devs := [DevWList(0, Some(1))])

  const TRIO_TWO := TRIO_ONE.(
    pcbs := TRIO_ONE.pcbs[2 := Rival(None)], ready := [], running := 0, blocked := map[Device(0) := [1, 2]])

  lemma TrioIs()
    ensures Launched(3, [1, 5, 5], map[], 1) == TRIO
  {
    TrioLaunched(map[], 1);
    assert Empty(3, map[], 1).devs == [DevWList(1, None)];
    assert [0, 1, 2][3..] == [];
    assert Arrived(3, map[], [DevWList(1, None)]).pcbs == TRIO.pcbs;
  }

  lemma FirstAsks()
    ensures Goes(TRIO, AWaitIo(0), TRIO_ONE)
  {
    assert QueueOf(TRIO.blocked, Device(0)) + [1] == [1] && [2, 0][1..] == [0];
    assert WaitIo(TRIO, 0).pcbs == TRIO_ONE.pcbs;
  }

  lemma SecondAsks()
    ensures Goes(TRIO_ONE, AWaitIo(0), TRIO_TWO)
  {
    var t := TRIO_ONE.pcbs;
    assert Prios(t, [1]) == [5] && Slot([5], 5) == 1 + Slot([], 5);
    assert Enqueue(t, [1], 2) == [1, 2] && [0][1..] == [];
    assert WaitIo(TRIO_ONE, 0).pcbs == TRIO_TWO.pcbs;
  }

  lemma ThirdAsks()
    ensures Goes(TRIO_TWO, AWaitIo(0), Rivals(1))
  {
    var t := TRIO_TWO.pcbs;
    assert Prios(t, [1, 2])[0] == 5 && Prios(t, [1, 2])[1] == 5;
    assert Enqueue(t, [1, 2], 0) == [1, 2, 0];
    hide Enqueue;
    assert WaitIo(TRIO_TWO, 0).pcbs == Rivals(1).pcbs;
  }

  lemma RivalsReached(acts: seq<Action>)
    requires Allowed(Rivals(1), acts)
    ensures Allowed(TRIO, TO_RIVALS) && After(TRIO, TO_RIVALS) == Rivals(1)
    ensures Allowed(TRIO, TO_RIVALS + acts)
  {
    hide Goes, Allowed;
    FirstAsks();
    SecondAsks();
    ThirdAsks();
    AllowedTwo(TRIO_ONE, AWaitIo(0), TRIO_TWO, AWaitIo(0), Rivals(1));
    AllowedCons(TRIO, AWaitIo(0), TRIO_ONE, [AWaitIo(0), AWaitIo(0)]);
    assert [AWaitIo(0)] + [AWaitIo(0), AWaitIo(0)] == TO_RIVALS;
    AllowedCons(TRIO_TWO, AWaitIo(0), Rivals(1), acts);
    AllowedCons(TRIO_ONE, AWaitIo(0), TRIO_TWO, [AWaitIo(0)] + acts);
    AllowedCons(TRIO, AWaitIo(0), TRIO_ONE, [AWaitIo(0)] + ([AWaitIo(0)] + acts));
    assert [AWaitIo(0)] + ([AWaitIo(0)] + ([AWaitIo(0)] + acts)) == TO_RIVALS + acts;
  }

  /** For any number of completions there is a polite run from launch all through which a process waits for a device. */
  lemma DeviceStarvation(k: nat)
    ensures var s := Launched(3, [1, 5, 5], map[], 1);
      && Allowed(s, TO_RIVALS)
      && exists acts :: Completions(acts, 0) == k && Allowed(s, TO_RIVALS + acts) && Allowed(After(s, TO_RIVALS), acts)
           && Queued(After(s, TO_RIVALS), acts, 0, 0)
  {
    hide Allowed, Queued;
    TrioIs();
    var acts := RivalsGoOn(1, k);
    RivalsReached(acts);
  }
}
