/** What handlers do to contexts, accounts and device registers, field by field. */
module Answers {
  import opened Seqs
  import opened Sched
  import opened Invariants
  import opened Devices
  import opened Machine
  import opened MachineInvariants

  // ---- Kernel steps ------------------------------------------------------------------------------------------------

  /** A completion writes the status into the return register of the process it completes, and into nothing else. */
  lemma CompletionAnswers(m: Machine, d: nat, tod: int, status: Context)
    requires MachineInv(m) && Possible(m, Kernel(ADoneIo(d), tod, status)) && Completes(m.k, d)
    ensures var p, m' := m.k.devs[d].res.value, KernelStep(m, ADoneIo(d), tod, status);
      var c, c' := Ctx(m.saved, p), Ctx(m'.saved, p);
      && c'.ret == status.ret && c'.arg1 == c.arg1 && c'.rest == c.rest && m'.oldArea == m.oldArea
      && forall x: Pid :: x != p ==> Ctx(m'.saved, x) == Ctx(m.saved, x)
  {
    hide KernelInv, ContextsOk, RequestsOk, TimeOk;
    CompletedAway(m, d);
  }

  /** Any other completion writes no context. */
  lemma CompletionSilent(m: Machine, d: nat, tod: int, status: Context)
    requires Possible(m, Kernel(ADoneIo(d), tod, status)) && !Completes(m.k, d)
    ensures var m' := KernelStep(m, ADoneIo(d), tod, status); m'.saved == m.saved && m'.oldArea == m.oldArea
  {
  }

  /** create_process and terminate_proc answer in one register of their caller; the other calls leave it alone. */
  lemma StepAnswers(m: Machine, a: Action, tod: int, datum: Context)
    requires Possible(m, Kernel(a, tod, datum))
    ensures var c, c' := m.oldArea, KernelStep(m, a, tod, datum).oldArea;
      && c'.arg1 == c.arg1 && c'.rest == c.rest
      && c'.ret == if a.ACreate? then (if m.k.free == [] then -1 else 0) else if a.ATerminate? then 0 else c.ret
  {
  }

  /** A new process starts from the context given for it; no saved context changes but at its creation or completion. */
  lemma StepSaves(m: Machine, a: Action, tod: int, datum: Context, x: Pid)
    requires MachineInv(m) && Possible(m, Kernel(a, tod, datum)) && !a.ADoneIo?
    ensures Ctx(KernelStep(m, a, tod, datum).saved, x) ==
      if a.ACreate? && m.k.free != [] && x == m.k.free[0] then datum else Ctx(m.saved, x)
  {
    assert m.k.free != [] ==> m.k.free[0] in m.k.free;
  }

  /**
   Whom a step charges: the caller of wait_io, and that of `p` if it has to wait, for the kernel time since the last flush.
   A new process starts with nothing on its account.
   */
  lemma StepCharges(m: Machine, a: Action, tod: int, datum: Context, x: Pid)
    requires MachineInv(m) && Possible(m, Kernel(a, tod, datum)) && x < |m.accounts|
    ensures var c, c' := m.accounts[x], Acct(KernelStep(m, a, tod, datum).accounts, x);
      if a.ACreate? && m.k.free != [] && x == m.k.free[0] then c' == Account(0, 0, 0, 0)
      else if x == m.k.running && (a.AWaitIo? || (a.APasseren? && m.k.sems[a.addr] == 0)) then
        c' == Account(c.user, c.kernel + (tod - c.todCache), tod, c.todAtStart)
      else c' == c
  {
  }

  /** wait_io writes its argument to a free device and to no other. */
  lemma WaitIoSends(m: Machine, d: nat, tod: int, datum: Context, e: nat)
    requires MachineInv(m) && Possible(m, Kernel(AWaitIo(d), tod, datum)) && e < |m.commands|
    ensures Word(KernelStep(m, AWaitIo(d), tod, datum).commands, e) ==
      if e == d && m.k.devs[d].cmdSem == 1 then m.oldArea.arg1 else m.commands[e]
  {
    assert SoundDevice(m.k, d, m.k.devs[d]);
  }

  /**
   A completion that is not ignored writes to its own device only: the argument saved for the next waiter, or the command 1
   that acknowledges.
   */
  lemma CompletionSends(m: Machine, d: nat, tod: int, status: Context, e: nat)
    requires MachineInv(m) && Possible(m, Kernel(ADoneIo(d), tod, status)) && e < |m.commands|
    ensures var q := QueueOf(m.k.blocked, Device(d));
      Word(KernelStep(m, ADoneIo(d), tod, status).commands, e) ==
        if e != d || m.k.devs[d].res == None then m.commands[e] else if |q| > 1 then Ctx(m.saved, q[1]).arg1 else 1
  {
    hide ContextsOk, RequestsOk, TimeOk, DoneIo, Complete;
    var q := QueueOf(m.k.blocked, Device(d));
    CompleteLists(m.k, d);
    if q != [] {
      assert QueueLinked(m.k, Device(d), q);
      assert |q| > 1 ==> q[1..][0] == q[1] && q[0] != q[1];
    }
    if Completes(m.k, d) {
      CompletionAnswers(m, d, tod, status);
    } else {
      CompletionSilent(m, d, tod, status);
    }
  }

  // ---- System calls ------------------------------------------------------------------------------------------------

  function Least(a: int, b: int): int { if a < b then a else b }

  /**
   Whatever a system call does to its caller, the caller goes on from its trap, in the processor or when it is next loaded,
   with nothing changed but the answer. Whoever else is resumed starts from what was saved for it, with a whole slice.
   */
  lemma CallerGoesOn(m: Machine, t0: int, timer: int, trap: Context, act: Option<Action>, t1: int, datum: Context, t2: int)
    requires MachineInv(m) && Possible(m, Enter(Syscall, t0, timer, trap)) && t0 <= t1 <= t2
    requires act.Some? ==> Callable(m.k, act.value) && !act.value.ATick? && !act.value.ADoneIo?
    ensures var m', r := SyscallRun(m, t0, timer, trap, act, t1, datum, t2), m.k.running;
      var c := if m'.k.running == r then m'.cpu else Ctx(m'.saved, r);
      && c.arg1 == trap.arg1 && c.rest == trap.rest
      && c.ret == (if act.None? then trap.ret
                   else if act.value.ACreate? then (if m.k.free == [] then -1 else 0)
                   else if act.value.ATerminate? then 0
                   else trap.ret)
      && (m'.k.running != r ==> m'.cpu == Ctx(m'.saved, m'.k.running))
      && (forall x: Pid :: x != r ==>
           Ctx(m'.saved, x) == if act.Some? && act.value.ACreate? && m.k.free != [] && x == m.k.free[0] then datum
                               else Ctx(m.saved, x))
      && m'.timer == if m'.k.running == r then Least(timer, m.slice) else m.slice
  {
    hide KernelInv, ContextsOk, RequestsOk, TimeOk, Apply, ModeOk, LeaveHandler;
    var m1 := EnterHandler(m, Syscall, t0, timer, trap);
    SyscallEntered(m, t0, timer, trap);
    if act.Some? {
      var m2 := KernelStep(m1, act.value, t1, datum);
      StepAnswers(m1, act.value, t1, datum);
      forall x: Pid
        ensures Ctx(m2.saved, x) ==
          if act.value.ACreate? && m.k.free != [] && x == m.k.free[0] then datum else Ctx(m.saved, x)
      {
        StepSaves(m1, act.value, t1, datum, x);
      }
      StepShape(m.k, act.value);
      LeftBehind(m2, t2);
    } else {
      LeftBehind(m1, t2);
    }
  }

  /** What the end of a handler does with the process it interrupted and with the one it resumes. */
  lemma LeftBehind(m: Machine, tod: int)
    requires m.interrupted != m.k.Idle() && m.interrupted < |m.saved|
    ensures var m', r := LeaveHandler(m, tod), m.interrupted;
      && m'.k == m.k && (if m.k.running == r then m'.cpu else Ctx(m'.saved, r)) == m.oldArea
      && (m.k.running != r ==> m'.cpu == Ctx(m'.saved, m.k.running))
      && (forall x: Pid :: x != r ==> Ctx(m'.saved, x) == Ctx(m.saved, x))
      && m'.timer == if m.k.running == r then m.timerCache else m.slice
  {
  }

  /** GETCPUTIME answers what stands on the caller's account when the call is over, but for the time after it. */
  lemma TimesShown(m: Machine, t0: int, timer: int, trap: Context, t1: int, t2: int)
    requires MachineInv(m) && Possible(m, Enter(Syscall, t0, timer, trap)) && t0 <= t1 <= t2
    ensures var m1 := EnterHandler(m, Syscall, t0, timer, trap);
      var m' := SyscallRun(m, t0, timer, trap, None, t1, BLANK_CONTEXT, t2);
      var t, x := CpuTime(m1, t1), Acct(m'.accounts, m.k.running);
      && x.user == t.0 && x.kernel == t.1 + (t2 - t1) && t.2 == t1 - x.todAtStart
  {
    SyscallEntered(m, t0, timer, trap);
  }

  // ---- The idle process --------------------------------------------------------------------------------------------

  /** Idle is never saved: each time nothing is ready it starts from the context it was set up with. */
  lemma IdleAlike(m: Machine, e: Event)
    requires MachineInv(m) && Possible(m, e)
    ensures Ctx(Step(m, e).saved, m.k.Idle()) == Ctx(m.saved, m.k.Idle())
  {
    hide ContextsOk, RequestsOk, TimeOk;
    if e.Kernel? {
      if e.act.ADoneIo? && Completes(m.k, e.act.dev) {
        CompletedAway(m, e.act.dev);
        CompletionAnswers(m, e.act.dev, e.tod, e.datum);
      }
      assert m.k.free != [] ==> m.k.free[0] in m.k.free;
    }
  }
}
