/** What the handlers guarantee over whole runs: contexts survive, time is not invented, devices get the right commands. */
module MachineInvariants {
  import opened Seqs
  import opened Sched
  import opened Invariants
  import opened Steps
  import opened Devices
  import opened Runs
  import opened Waiting
  import opened Machine

  ghost predicate Sized(m: Machine) {
    |m.accounts| == |m.k.pcbs| && |m.saved| == |m.k.pcbs| && |m.logical| == |m.k.pcbs| && |m.request| == |m.k.pcbs|
    && |m.commands| == |m.k.devs| && m.interrupted < |m.k.pcbs|
  }

  /** Where the interrupted process can be while its handler runs. */
  ghost predicate ModeOk(m: Machine) {
    match m.mode
    case User => true
    case Syscall => m.interrupted == m.k.running != m.k.Idle()
    case Interrupt => m.interrupted == m.k.Idle() || m.interrupted == m.k.running || m.interrupted in m.k.ready
    case Served => true
  }

  // ---- Contexts ----------------------------------------------------------------------------------------------------

  /** The process whose context is not in its PCB: it is in the processor, or in the old area. */
  function Absent(m: Machine): Pid { if m.mode == User then m.k.running else m.interrupted }

  ghost predicate ContextOk(m: Machine, p: Pid) {
    m.k.Live(p) && p != Absent(m) ==> Ctx(m.saved, p) == Ctx(m.logical, p)
  }

  ghost predicate ContextsOk(m: Machine) {
    && (forall p: Pid :: p < |m.k.pcbs| ==> ContextOk(m, p))
    && (m.mode == User && m.k.running != m.k.Idle() ==> m.cpu == Ctx(m.logical, m.k.running))
    && (m.mode != User && m.k.Live(m.interrupted) ==> m.oldArea == Ctx(m.logical, m.interrupted))
  }

  // ---- Device commands ---------------------------------------------------------------------------------------------

  ghost predicate RequestOk(m: Machine, p: Pid) {
    SemKeyOf(m.k, p).Some? && SemKeyOf(m.k, p).value.Device? ==> Ctx(m.logical, p).arg1 == Word(m.request, p)
  }

  ghost predicate CommandOk(m: Machine, d: nat) {
    Dev(m.k, d).res.Some? ==> Word(m.commands, d) == Word(m.request, Dev(m.k, d).res.value)
  }

  ghost predicate RequestsOk(m: Machine) {
    forall p: Pid :: p < |m.k.pcbs| ==> RequestOk(m, p)
  }

  ghost predicate CommandsOk(m: Machine) {
    forall d: nat :: d < |m.k.devs| ==> CommandOk(m, d)
  }

  // ---- Time --------------------------------------------------------------------------------------------------------

  function Total(a: seq<Account>): int {
    if a == [] then 0 else a[0].user + a[0].kernel + Total(a[1..])
  }

  ghost predicate AccountOk(a: Account, launched: int) {
    a.user >= 0 && a.kernel >= 0 && a.todAtStart <= launched
  }

  /** Everything charged so far fits between the launch and the last flush of the process now on the clock. */
  ghost predicate TimeOk(m: Machine) {
    0 <= m.launched && Fits(m.accounts, m.charged, Absent(m), m.launched, m.now)
  }

  ghost predicate Fits(a: seq<Account>, charged: int, p: Pid, launched: int, now: int) {
    && (forall i :: 0 <= i < |a| ==> AccountOk(a[i], launched))
    && Total(a) <= charged <= Acct(a, p).todCache - launched
    && Acct(a, p).todCache <= now
  }

  /** What every safe step keeps. */
  ghost predicate MachineInv(m: Machine) {
    KernelInv(m.k) && Sized(m) && ModeOk(m) && ContextsOk(m) && RequestsOk(m) && TimeOk(m)
  }

  /** What polite steps keep besides: the device protocol, and agreement of commands with requests. */
  ghost predicate ServiceInv(m: Machine) {
    MachineInv(m) && Protocol(m.k) && CommandsOk(m)
  }

  ghost predicate Fair(m: Machine, e: Event)
    requires Possible(m, e)
  {
    e.Kernel? ==> Safe(m.k, e.act)
  }

  ghost predicate Courteous(m: Machine, e: Event)
    requires Possible(m, e)
  {
    e.Kernel? ==> Polite(m.k, e.act)
  }

  // ---- Accounts ----------------------------------------------------------------------------------------------------

  lemma {:induction false} TotalSet(a: seq<Account>, p: nat, x: Account)
    requires p < |a|
    ensures Total(a[p := x]) == Total(a) + (x.user + x.kernel) - (a[p].user + a[p].kernel)
  {
    if p > 0 {
      assert a[p := x][1..] == a[1..][p - 1 := x];
      TotalSet(a[1..], p - 1, x);
    } else {
      assert a[p := x][1..] == a[1..];
    }
  }

  lemma {:induction false} TotalBounds(a: seq<Account>, launched: int, p: nat)
    requires forall i :: 0 <= i < |a| ==> AccountOk(a[i], launched)
    ensures Total(a) >= 0 && (p < |a| ==> a[p].user + a[p].kernel <= Total(a))
  {
    if a != [] {
      assert AccountOk(a[0], launched);
      forall i | 0 <= i < |a[1..]|
        ensures AccountOk(a[1..][i], launched)
      {
        assert AccountOk(a[i + 1], launched);
      }
      TotalBounds(a[1..], launched, if p > 0 then p - 1 else 0);
      if p == 0 { TotalBounds(a[1..], launched, |a|); }
    }
  }

  // ---- Time is not invented ----------------------------------------------------------------------------------------

  /** Putting `x` in place of one account changes the total by the difference. */
  lemma ChargeOne(m: Machine, p: Pid, x: Account)
    requires Sized(m) && TimeOk(m) && p < |m.accounts| && AccountOk(x, m.launched)
    ensures var a := SetAcct(m.accounts, p, x);
      && |a| == |m.accounts|
      && (forall i :: 0 <= i < |a| ==> AccountOk(a[i], m.launched))
      && Total(a) == Total(m.accounts)
           + (x.user + x.kernel) - (m.accounts[p].user + m.accounts[p].kernel)
      && (forall q: Pid :: Acct(a, q) == if q == p then x else Acct(m.accounts, q))
  {
    TotalSet(m.accounts, p, x);
  }

  lemma EnterTime(m: Machine, mode: Mode, tod: int, timer: int, trap: Context)
    requires MachineInv(m) && Possible(m, Enter(mode, tod, timer, trap))
    ensures TimeOk(EnterHandler(m, mode, tod, timer, trap))
  {
    var p := m.k.running;
    var x := Acct(m.accounts, p);
    assert AccountOk(x, m.launched);
    ChargeOne(m, p, x.(user := x.user + (tod - x.todCache), todCache := tod));
  }

  lemma LeaveTime(m: Machine, tod: int)
    requires MachineInv(m) && Possible(m, Leave(tod))
    ensures TimeOk(LeaveHandler(m, tod))
  {
    var i, r := m.interrupted, m.k.running;
    var x, y := Acct(m.accounts, i), Acct(m.accounts, r);
    assert AccountOk(x, m.launched) && AccountOk(y, m.launched);
    if i != r {
      ChargeOne(m, r, y.(todCache := tod));
    } else {
      ChargeOne(m, i, x.(kernel := x.kernel + (tod - x.todCache), todCache := tod));
    }
  }

  /** A new process starts with nothing charged to it; what its PCB was charged before is forgotten. */
  lemma BlankFits(m: Machine, p: Pid, tod: int)
    requires Sized(m) && TimeOk(m) && p < |m.accounts| && p != Absent(m) && m.now <= tod
    ensures Fits(SetAcct(m.accounts, p, BLANK_ACCOUNT), m.charged, Absent(m), m.launched, tod)
  {
    assert AccountOk(Acct(m.accounts, p), m.launched);
    ChargeOne(m, p, BLANK_ACCOUNT);
  }

  lemma FlushFits(m: Machine, p: Pid, tod: int)
    requires Sized(m) && TimeOk(m) && p < |m.accounts| && p == Absent(m) && m.now <= tod
    ensures Fits(FlushKernel(m.accounts, p, tod), m.charged + (tod - Acct(m.accounts, p).todCache), p, m.launched, tod)
  {
    var x := Acct(m.accounts, p);
    assert AccountOk(x, m.launched);
    ChargeOne(m, p, x.(kernel := x.kernel + (tod - x.todCache), todCache := tod));
  }

  lemma StepTime(m: Machine, a: Action, tod: int, datum: Context)
    requires MachineInv(m) && Possible(m, Kernel(a, tod, datum))
    ensures TimeOk(KernelStep(m, a, tod, datum))
  {
    assert Absent(KernelStep(m, a, tod, datum)) == Absent(m);
    if a.ACreate? && m.k.free != [] {
      Uncons(m.k.free);
      Apart(m.k, None);
      BlankFits(m, m.k.free[0], tod);
    } else if Blocks(m.k, a) {
      FlushFits(m, m.k.running, tod);
    }
  }

  /** GETCPUTIME never reports more processor time than wall-clock time. */
  lemma CpuTimeFits(m: Machine, tod: int)
    requires MachineInv(m) && m.mode == Syscall && m.now <= tod
    ensures var t := CpuTime(m, tod); 0 <= t.0 && 0 <= t.1 && t.0 + t.1 <= tod - m.launched <= t.2
  {
    TotalBounds(m.accounts, m.launched, m.interrupted);
    assert AccountOk(Acct(m.accounts, m.interrupted), m.launched);
  }

  // ---- Contexts survive --------------------------------------------------------------------------------------------

  lemma EnterContexts(m: Machine, mode: Mode, tod: int, timer: int, trap: Context)
    requires MachineInv(m) && Possible(m, Enter(mode, tod, timer, trap))
    ensures ContextsOk(EnterHandler(m, mode, tod, timer, trap)) && RequestsOk(EnterHandler(m, mode, tod, timer, trap))
  {
    var m' := EnterHandler(m, mode, tod, timer, trap);
    Apart(m.k, None);
    forall p: Pid | p < |m'.k.pcbs|
      ensures ContextOk(m', p) && RequestOk(m', p)
    {
      assert ContextOk(m, p) && RequestOk(m, p);
    }
  }

  lemma LeaveContexts(m: Machine, tod: int)
    requires MachineInv(m) && Possible(m, Leave(tod))
    ensures ContextsOk(LeaveHandler(m, tod)) && RequestsOk(LeaveHandler(m, tod))
  {
    var m' := LeaveHandler(m, tod);
    Apart(m.k, None);
    forall p: Pid | p < |m'.k.pcbs|
      ensures ContextOk(m', p) && RequestOk(m', p)
    {
      assert ContextOk(m, p) && RequestOk(m, p);
    }
    assert m.k.running != m.k.Idle() ==> ContextOk(m, m.k.running) && m.k.Live(m.k.running);
  }

  /** During an interrupt handler the interrupted process stays runnable. */
  lemma StepMode(m: Machine, a: Action, tod: int, datum: Context)
    requires MachineInv(m) && Possible(m, Kernel(a, tod, datum)) && Safe(m.k, a)
    ensures ModeOk(KernelStep(m, a, tod, datum)) && Sized(KernelStep(m, a, tod, datum))
  {
    hide Apply, TreeOk, TimeOk, ContextsOk, RequestsOk;
    var s, s', i := m.k, Apply(m.k, a), m.interrupted;
    StepShape(s, a);
    if m.mode == Interrupt && i != s.Idle() {
      Apart(s, None);
      StaysRunnable(s, a, i);
    }
  }

  lemma StepShape(s: Sched, a: Action)
    requires Callable(s, a)
    ensures |Apply(s, a).pcbs| == |s.pcbs| && |Apply(s, a).devs| == |s.devs|
  {
    match a
    case ACreate(priority) =>
      if s.free != [] { ScheduleShape(Allocate(s, priority), s.free[0]); }
    case ATerminate(root, order) =>
    case APasseren(addr) =>
    case AVerhogen(addr) =>
      if HasWaiter(s, Cell(addr)) { ScheduleShape(Release(s, Cell(addr)), s.blocked[Cell(addr)][0]); }
    case ATick =>
    case AWaitIo(d) =>
    case ADoneIo(d) =>
      CompleteShape(s, d);
  }

  lemma ScheduleShape(s: Sched, p: Pid)
    ensures |ScheduleProc(s, p).pcbs| == |s.pcbs| && ScheduleProc(s, p).devs == s.devs
  {
  }

  lemma CompleteShape(s: Sched, d: nat)
    requires d < |s.devs|
    ensures |Complete(s, d).pcbs| == |s.pcbs| && Complete(s, d).devs == s.devs
  {
    if HasWaiter(s, Device(d)) {
      var p, s1 := s.blocked[Device(d)][0], Unblock(s, Device(d));
      ScheduleShape(s1.(pcbs := Put(s1.pcbs, p, At(s1.pcbs, p).(devWList := None))), p);
    }
  }

  /** A completed process was waiting, so it is not the one whose context is in the old area. */
  lemma CompletedAway(m: Machine, d: nat)
    requires MachineInv(m) && m.mode == Interrupt && Completes(m.k, d)
    ensures var p := m.k.devs[d].res.value;
      && Completed(m.k, ADoneIo(d)) == Some(p) && p != m.interrupted && m.k.Live(p) && p < |m.k.pcbs|
      && SemKeyOf(m.k, p) == Some(Device(d))
  {
    var p := m.k.devs[d].res.value;
    assert QueueLinked(m.k, Device(d), m.k.blocked[Device(d)]) && p in m.k.blocked[Device(d)];
    assert Places(m.k, None, p) == 1;
    assert m.interrupted < m.k.N() ==> Places(m.k, None, m.interrupted) == 1;
  }

  /** The PCB of a live process keeps its saved context, but for the return register when its own command is completed. */
  lemma SavedKept(m: Machine, a: Action, tod: int, datum: Context, p: Pid)
    requires MachineInv(m) && Possible(m, Kernel(a, tod, datum)) && m.k.Live(p)
    ensures Ctx(KernelStep(m, a, tod, datum).saved, p) ==
      if Completed(m.k, a) == Some(p) then WithRet(Ctx(m.saved, p), datum.ret) else Ctx(m.saved, p)
  {
    hide KernelInv, Apply, ContextsOk, TimeOk, ModeOk;
    if a.ADoneIo? && Completes(m.k, a.dev) { CompletedAway(m, a.dev); }
    assert m.k.free != [] ==> m.k.free[0] in m.k.free;
  }

  lemma StepContext(m: Machine, a: Action, tod: int, datum: Context, p: Pid)
    requires MachineInv(m) && Possible(m, Kernel(a, tod, datum)) && p < |m.k.pcbs|
    ensures ContextOk(KernelStep(m, a, tod, datum), p)
  {
    hide KernelInv, Inv, Apply;
    assert ContextOk(m, p);
    if a.ADoneIo? && Completes(m.k, a.dev) { CompletedAway(m, a.dev); }
    if KernelStep(m, a, tod, datum).k.Live(p) { LiveBefore(m.k, a, p); }
  }

  lemma StepOldArea(m: Machine, a: Action, tod: int, datum: Context)
    requires MachineInv(m) && Possible(m, Kernel(a, tod, datum)) && KernelStep(m, a, tod, datum).k.Live(m.interrupted)
    ensures var m' := KernelStep(m, a, tod, datum); m'.oldArea == Ctx(m'.logical, m'.interrupted)
  {
    Apart(m.k, None);
    if a.ADoneIo? && Completes(m.k, a.dev) { CompletedAway(m, a.dev); }
    LiveBefore(m.k, a, m.interrupted);
  }

  lemma StepContexts(m: Machine, a: Action, tod: int, datum: Context)
    requires MachineInv(m) && Possible(m, Kernel(a, tod, datum))
    ensures ContextsOk(KernelStep(m, a, tod, datum))
  {
    hide MachineInv, Apply, ContextOk;
    var m' := KernelStep(m, a, tod, datum);
    StepShape(m.k, a);
    forall p: Pid | p < |m'.k.pcbs|
      ensures ContextOk(m', p)
    {
      StepContext(m, a, tod, datum, p);
    }
    if m'.k.Live(m.interrupted) {
      StepOldArea(m, a, tod, datum);
    }
  }

  // ---- Devices get the right commands ------------------------------------------------------------------------------

  lemma DeviceKeyBefore(s: Sched, a: Action, p: Pid)
    requires KernelInv(s) && Callable(s, a) && p < |s.pcbs|
    requires SemKeyOf(Apply(s, a), p).Some? && SemKeyOf(Apply(s, a), p).value.Device?
    ensures SemKeyOf(s, p) == SemKeyOf(Apply(s, a), p) || (a.AWaitIo? && p == s.running)
    ensures !(a.ACreate? && s.free != [] && p == s.free[0])
  {
    hide Inv, Release;
    match a
    case ACreate(priority) =>
      CreateKeys(s, priority, p);
    case ATerminate(root, order) =>
      assert At(Cut(s, root, order).pcbs, p) == PrunedPcb(s.pcbs, root, order, p);
    case APasseren(addr) =>
    case _ =>
      var r := if a.AWaitIo? then s.running else |s.pcbs|;
      StepQuiet(s, a, r);
      assert QuietPcb(At(s.pcbs, p), At(Apply(s, a).pcbs, p), p == r);
  }

  lemma CreateKeys(s: Sched, priority: int, p: Pid)
    requires Inv(s, None) && s.running != s.Idle()
    ensures s.free != [] && p == s.free[0] ==> SemKeyOf(Create(s, priority), p) == None
    ensures SemKeyOf(Create(s, priority), p).Some? ==> SemKeyOf(s, p) == SemKeyOf(Create(s, priority), p)
  {
    if s.free != [] {
      Uncons(s.free);
      Apart(s, None);
      ScheduleQuiet(Allocate(s, priority), s.free[0], p);
    }
  }

  lemma StepRequests(m: Machine, a: Action, tod: int, datum: Context)
    requires MachineInv(m) && Possible(m, Kernel(a, tod, datum))
    ensures RequestsOk(KernelStep(m, a, tod, datum))
  {
    hide Callable, Apply;
    var m' := KernelStep(m, a, tod, datum);
    StepShape(m.k, a);
    Apart(m.k, None);
    forall p: Pid | p < |m'.k.pcbs|
      ensures RequestOk(m', p)
    {
      assert RequestOk(m, p);
      if SemKeyOf(m'.k, p).Some? && SemKeyOf(m'.k, p).value.Device? {
        DeviceKeyBefore(m.k, a, p);
      }
    }
  }

  lemma OtherDevs(s: Sched, a: Action)
    requires Callable(s, a) && Safe(s, a) && !a.AWaitIo? && !a.ADoneIo?
    ensures Apply(s, a).devs == s.devs
  {
    if a.ATerminate? { CleanCut(s, a.root, a.order); }
  }

  /** Whoever is second in the queue of a device has its own command in its saved context. */
  lemma NextCommand(m: Machine, d: nat)
    requires MachineInv(m) && m.mode == Interrupt && |QueueOf(m.k.blocked, Device(d))| > 1
    ensures var next := m.k.blocked[Device(d)][1];
      next < |m.k.pcbs| && Ctx(m.saved, next).arg1 == Word(m.request, next)
  {
    hide TimeOk, TreeOk, AllSorted;
    var q := m.k.blocked[Device(d)];
    var next := q[1];
    assert QueueLinked(m.k, Device(d), q) && next in q;
    assert Places(m.k, None, next) == 1;
    assert m.interrupted < m.k.N() ==> Places(m.k, None, m.interrupted) == 1;
    assert ContextOk(m, next) && RequestOk(m, next);
  }

  /** Whom a completion serves next, and what it sends. */
  lemma NextServed(s: Sched, d: nat, commands: seq<int>, saved: seq<Context>)
    requires Linked(s) && Completes(s, d)
    ensures var q := QueueOf(s.blocked, Device(d));
      && Dev(DoneIo(s, d), d).res == (if |q| > 1 then Some(q[1]) else None)
      && Reissued(s, d, commands, saved) ==
           SetWord(commands, d, if |q| > 1 then Ctx(saved, q[1]).arg1 else DEVICE_CMD_ACK)
  {
    CompleteDevices(s, d);
    hide Linked, Complete;
    var q := QueueOf(s.blocked, Device(d));
    assert |q| > 1 ==> q[1] == q[1..][0];
  }

  /** done_io sends the next waiter's own command, or an acknowledgement. */
  lemma CompletionCommands(m: Machine, d: nat, tod: int, status: Context)
    requires MachineInv(m) && Possible(m, Kernel(ADoneIo(d), tod, status)) && Completes(m.k, d)
    ensures var m', q := KernelStep(m, ADoneIo(d), tod, status), QueueOf(m.k.blocked, Device(d));
      Word(m'.commands, d) == if |q| > 1 then Word(m.request, q[1]) else DEVICE_CMD_ACK
  {
    hide TimeOk, ContextsOk, DoneIo, Reissued;
    var q := QueueOf(m.k.blocked, Device(d));
    NextServed(m.k, d, m.commands, NextSaved(m, ADoneIo(d), status));
    if |q| > 1 {
      NextCommand(m, d);
      SecondWaiter(m.k, d);
      SavedKept(m, ADoneIo(d), tod, status, q[1]);
    }
  }

  lemma DoneIoCommands(m: Machine, d: nat, tod: int, datum: Context)
    requires MachineInv(m) && Possible(m, Kernel(ADoneIo(d), tod, datum)) && Completes(m.k, d)
    ensures CommandOk(KernelStep(m, ADoneIo(d), tod, datum), d)
  {
    hide TimeOk, ContextsOk, DoneIo, Reissued;
    CompletionCommands(m, d, tod, datum);
    NextServed(m.k, d, m.commands, m.saved);
  }

  lemma SecondWaiter(s: Sched, d: nat)
    requires Inv(s, None) && Completes(s, d) && |QueueOf(s.blocked, Device(d))| > 1
    ensures s.Live(s.blocked[Device(d)][1]) && s.devs[d].res != Some(s.blocked[Device(d)][1])
  {
    var q := s.blocked[Device(d)];
    assert QueueLinked(s, Device(d), q) && q[1] in q;
    assert Places(s, None, q[1]) == 1;
  }

  /** A step that is not the completion of this device's command leaves the served process and its command agreeing. */
  lemma CommandKept(m: Machine, a: Action, tod: int, datum: Context, d: nat)
    requires ServiceInv(m) && Possible(m, Kernel(a, tod, datum)) && Safe(m.k, a) && d < |m.k.devs|
    requires !(a == ADoneIo(d) && m.k.devs[d].res.Some?)
    ensures CommandOk(KernelStep(m, a, tod, datum), d)
  {
    hide MachineInv, Protocol, Terminate;
    assert CommandOk(m, d);
    match a
    case AWaitIo(e) =>
      WaitIoCommands(m, e, tod, datum, d);
    case ADoneIo(e) =>
      DoneIoDevs(m.k, e);
    case _ =>
      OtherDevs(m.k, a);
  }

  /** wait_io sends the caller's command to a free device, and leaves a busy one alone. */
  lemma WaitIoCommands(m: Machine, e: nat, tod: int, datum: Context, d: nat)
    requires ServiceInv(m) && Possible(m, Kernel(AWaitIo(e), tod, datum)) && d < |m.k.devs|
    ensures CommandOk(KernelStep(m, AWaitIo(e), tod, datum), d)
  {
    hide Lists, WaitIo, TimeOk, ModeOk, TreeOk;
    assert CommandOk(m, d);
    assert DeviceOk(m.k, d, m.k.devs[d]);
    if m.k.devs[d].res.Some? {
      ServedWaits(m.k, d);
      assert Places(m.k, None, m.k.running) == 1;
    }
    WaitIoDevs(m.k, e);
  }

  lemma WaitIoDevs(s: Sched, d: nat)
    requires d < |s.devs|
    ensures WaitIo(s, d).devs ==
      if s.devs[d].cmdSem - 1 < 0 then s.devs
      else s.devs[d := DevWList(s.devs[d].cmdSem - 1, Some(s.running))]
  {
  }

  lemma DoneIoDevs(s: Sched, d: nat)
    requires d < |s.devs|
    ensures |DoneIo(s, d).devs| == |s.devs|
    ensures forall e: nat :: e < |s.devs| && e != d ==> DoneIo(s, d).devs[e] == s.devs[e]
    ensures s.devs[d].res == None ==> DoneIo(s, d) == s
  {
  }

  lemma StepCommands(m: Machine, a: Action, tod: int, datum: Context)
    requires ServiceInv(m) && Possible(m, Kernel(a, tod, datum)) && Safe(m.k, a)
    ensures CommandsOk(KernelStep(m, a, tod, datum))
  {
    StepShape(m.k, a);
    forall d: nat | d < |m.k.devs|
      ensures CommandOk(KernelStep(m, a, tod, datum), d)
    {
      if a == ADoneIo(d) && m.k.devs[d].res.Some? {
        ServedHead(m.k, d);
        DoneIoCommands(m, d, tod, datum);
      } else {
        CommandKept(m, a, tod, datum, d);
      }
    }
  }

  lemma ServedHead(s: Sched, d: nat)
    requires Protocol(s) && d < |s.devs| && s.devs[d].res.Some?
    ensures Completes(s, d)
  {
    assert DeviceOk(s, d, s.devs[d]);
  }

  // ---- Runs --------------------------------------------------------------------------------------------------------

  lemma EventInv(m: Machine, e: Event)
    requires MachineInv(m) && Possible(m, e) && Fair(m, e)
    ensures MachineInv(Step(m, e))
  {
    hide TimeOk, ContextsOk, RequestsOk;
    match e
    case Enter(mode, tod, timer, trap) =>
      EnterTime(m, mode, tod, timer, trap);
      EnterContexts(m, mode, tod, timer, trap);
    case Kernel(a, tod, datum) =>
      StepInv(m.k, a);
      StepTime(m, a, tod, datum);
      StepMode(m, a, tod, datum);
      StepContexts(m, a, tod, datum);
      StepRequests(m, a, tod, datum);
    case Leave(tod) =>
      LeaveTime(m, tod);
      LeaveContexts(m, tod);
  }

  /** Politeness is more than fairness where the protocol holds, and keeps it. */
  lemma EventService(m: Machine, e: Event)
    requires ServiceInv(m) && Possible(m, e) && Courteous(m, e)
    ensures Fair(m, e) && ServiceInv(Step(m, e))
  {
    hide KernelInv, Protocol, TimeOk, ContextsOk, RequestsOk;
    match e {
      case Kernel(a, tod, datum) =>
        StepProtocol(m.k, a);
        EventInv(m, e);
        StepCommands(m, a, tod, datum);
      case _ =>
        EventInv(m, e);
        OutsideKernel(m, e);
    }
  }

  lemma OutsideKernel(m: Machine, e: Event)
    requires CommandsOk(m) && Possible(m, e) && !e.Kernel?
    ensures CommandsOk(Step(m, e)) && Step(m, e).k == m.k
  {
    forall d: nat | d < |m.k.devs|
      ensures CommandOk(Step(m, e), d)
    {
      assert CommandOk(m, d);
    }
  }

  /** Events in an order in which the hardware and the handlers can bring them about. */
  ghost predicate Trace(m: Machine, es: seq<Event>)
    decreases |es|
  {
    es == [] || (Possible(m, es[0]) && Trace(Step(m, es[0]), es[1..]))
  }

  function Replay(m: Machine, es: seq<Event>): Machine
    requires Trace(m, es)
    decreases |es|
  {
    if es == [] then m else Replay(Step(m, es[0]), es[1..])
  }

  ghost predicate AllFair(m: Machine, es: seq<Event>)
    requires Trace(m, es)
    decreases |es|
  {
    es == [] || (Fair(m, es[0]) && AllFair(Step(m, es[0]), es[1..]))
  }

  ghost predicate AllCourteous(m: Machine, es: seq<Event>)
    requires Trace(m, es)
    decreases |es|
  {
    es == [] || (Courteous(m, es[0]) && AllCourteous(Step(m, es[0]), es[1..]))
  }

  /** A trace whose kernel steps are all safe. */
  ghost predicate History(m: Machine, es: seq<Event>) { Trace(m, es) && AllFair(m, es) }

  /** Over whole histories: every invariant of the machine survives any sequence of handlers and kernel steps. */
  lemma {:induction false} HistoryInv(m: Machine, es: seq<Event>)
    requires MachineInv(m) && History(m, es)
    ensures MachineInv(Replay(m, es))
    decreases |es|
  {
    if es != [] {
      EventInv(m, es[0]);
      HistoryInv(Step(m, es[0]), es[1..]);
    }
  }

  /** If the kernel steps are polite besides, commands and requests agree to the end. */
  lemma {:induction false} CourteousHistory(m: Machine, es: seq<Event>)
    requires ServiceInv(m) && Trace(m, es) && AllCourteous(m, es)
    ensures History(m, es) && ServiceInv(Replay(m, es))
    decreases |es|
  {
    hide ServiceInv, Possible, Step, Fair, Courteous;
    if es != [] {
      EventService(m, es[0]);
      CourteousHistory(Step(m, es[0]), es[1..]);
    }
  }

  /** The kernel steps of a history. */
  function Acts(es: seq<Event>): seq<Action>
    decreases |es|
  {
    if es == [] then [] else (if es[0].Kernel? then [es[0].act] else []) + Acts(es[1..])
  }

  /** Forgetting contexts and clocks, a history of the machine is a run of the scheduler. */
  lemma {:induction false} HistoryIsRun(m: Machine, es: seq<Event>)
    requires History(m, es)
    ensures Run(m.k, Acts(es)) && Replay(m, es).k == After(m.k, Acts(es))
    decreases |es|
  {
    if es != [] {
      HistoryIsRun(Step(m, es[0]), es[1..]);
      if es[0].Kernel? {
        assert Acts(es)[1..] == Acts(es[1..]);
      } else {
        assert Acts(es) == Acts(es[1..]);
      }
    }
  }

  /**
   A completed command wakes the process that issued it, with the device's status in its return register and the rest
   of its context as it was; the device then has the next waiter's own command, or an acknowledgement.
   */
  lemma CompletionDelivers(m: Machine, d: nat, tod: int, status: Context)
    requires MachineInv(m) && Possible(m, Kernel(ADoneIo(d), tod, status)) && Completes(m.k, d)
    ensures var p, m' := Dev(m.k, d).res.value, KernelStep(m, ADoneIo(d), tod, status);
      && (p in m'.k.ready || p == m'.k.running) && SemKeyOf(m'.k, p) == None && WListOf(m'.k, p) == None
      && Ctx(m'.saved, p) == WithRet(Ctx(m.saved, p), status.ret)
      && (forall x: Pid :: x != p ==> Ctx(m'.saved, x) == Ctx(m.saved, x))
      && (match Dev(m'.k, d).res
          case Some(next) => next in QueueOf(m.k.blocked, Device(d)) && Word(m'.commands, d) == Word(m.request, next)
          case None => QueueOf(m.k.blocked, Device(d)) == [p] && Word(m'.commands, d) == DEVICE_CMD_ACK)
  {
    hide TimeOk, ContextsOk, RequestsOk, ModeOk, DoneIo;
    var p, m' := m.k.devs[d].res.value, KernelStep(m, ADoneIo(d), tod, status);
    CompletionWakes(m.k, d);
    NextServed(m.k, d, m.commands, m.saved);
    CompletionContexts(m, d, tod, status);
    CompletionCommands(m, d, tod, status);
    hide KernelInv;
    assert |QueueOf(m.k.blocked, Device(d))| == 1 ==> QueueOf(m.k.blocked, Device(d)) == [p];
  }

  lemma CompletionContexts(m: Machine, d: nat, tod: int, status: Context)
    requires MachineInv(m) && Possible(m, Kernel(ADoneIo(d), tod, status)) && Completes(m.k, d)
    ensures var p, m' := m.k.devs[d].res.value, KernelStep(m, ADoneIo(d), tod, status);
      && Ctx(m'.saved, p) == WithRet(Ctx(m.saved, p), status.ret)
      && (forall x: Pid :: x != p ==> Ctx(m'.saved, x) == Ctx(m.saved, x))
  {
    CompletedAway(m, d);
  }

  lemma CompletionWakes(s: Sched, d: nat)
    requires Inv(s, None) && Completes(s, d)
    ensures var p, q, s' := s.devs[d].res.value, QueueOf(s.blocked, Device(d)), DoneIo(s, d);
      && (p in s'.ready || p == s'.running) && SemKeyOf(s', p) == None && WListOf(s', p) == None
      && q != [] && p == q[0] && s'.devs[d].res == (if |q| > 1 then Some(q[1]) else None)
  {
    hide Dispatched, Enqueue, ScheduleProc;
    var p, q := s.devs[d].res.value, QueueOf(s.blocked, Device(d));
    CompleteDevices(s, d);
    assert QueueLinked(s, Device(d), q);
    Uncons(q);
    UnblockInv(s, Device(d));
    var s1 := Unblock(s, Device(d));
    var s2 := s1.(pcbs := Put(s1.pcbs, p, At(s1.pcbs, p).(devWList := None)));
    DeviceFieldsInv(s1, s2, Some(p));
    Apart(s2, Some(p));
    ScheduleEffect(s2, p);
    assert |q| > 1 ==> q[1] == q[1..][0] && q[1] in q && q[1] != p;
  }

  /** No step records a starting time; creation clears that of the PCB it uses. */
  lemma StartTimes(m: Machine, e: Event, p: Pid)
    requires MachineInv(m) && Possible(m, e)
    ensures Acct(Step(m, e).accounts, p).todAtStart ==
      if e.Kernel? && e.act.ACreate? && m.k.free != [] && p == m.k.free[0] then 0 else Acct(m.accounts, p).todAtStart
  {
    hide MachineInv, Callable, Apply;
    if e.Kernel? && e.act.ACreate? && m.k.free != [] {
      assert m.k.free[0] in m.k.free;
    }
  }

  // ---- Whole handler runs ------------------------------------------------------------------------------------------

  lemma {:induction false} TraceAppend(m: Machine, es: seq<Event>, e: Event)
    requires Trace(m, es) && Possible(Replay(m, es), e)
    ensures Trace(m, es + [e]) && Replay(m, es + [e]) == Step(Replay(m, es), e)
    decreases |es|
  {
    hide Possible, Step;
    if es == [] {
      assert [e][1..] == [];
    } else {
      assert (es + [e])[1..] == es[1..] + [e];
      TraceAppend(Step(m, es[0]), es[1..], e);
    }
  }

  /** The state in which a syscall handler starts its work. */
  lemma SyscallEntered(m: Machine, tod: int, timer: int, trap: Context)
    requires MachineInv(m) && Possible(m, Enter(Syscall, tod, timer, trap))
    ensures var m1 := EnterHandler(m, Syscall, tod, timer, trap);
      && MachineInv(m1) && m1.k == m.k && m1.interrupted == m.k.running && m1.now == tod && m1.mode == Syscall
      && |m1.commands| == |m.k.devs| && m.k.running < |m.k.pcbs|
  {
    EventInv(m, Enter(Syscall, tod, timer, trap));
  }

  /** One syscall from trap to resumption; `act` is the kernel step it takes, if it takes one. */
  function SyscallRun(m: Machine, t0: int, timer: int, trap: Context, act: Option<Action>, t1: int, datum: Context,
                      t2: int): Machine
    requires act.Some? ==> Callable(m.k, act.value)
  {
    var m1 := EnterHandler(m, Syscall, t0, timer, trap);
    LeaveHandler(if act.Some? then KernelStep(m1, act.value, t1, datum) else m1, t2)
  }

  /** A syscall keeps the invariant, provided its step is safe. */
  lemma SyscallRunInv(m: Machine, t0: int, timer: int, trap: Context, act: Option<Action>, t1: int, datum: Context, t2: int)
    requires MachineInv(m) && Possible(m, Enter(Syscall, t0, timer, trap)) && t0 <= t1 <= t2
    requires act.Some? ==> Callable(m.k, act.value) && !act.value.ATick? && !act.value.ADoneIo? && Safe(m.k, act.value)
    ensures MachineInv(SyscallRun(m, t0, timer, trap, act, t1, datum, t2))
  {
    var m1 := EnterHandler(m, Syscall, t0, timer, trap);
    SyscallEntered(m, t0, timer, trap);
    if act.Some? {
      EventInv(m1, Kernel(act.value, t1, datum));
      EventInv(KernelStep(m1, act.value, t1, datum), Leave(t2));
    } else {
      EventInv(m1, Leave(t2));
    }
  }

  /** The same with the device protocol, provided its step is polite. */
  lemma SyscallRunService(m: Machine, t0: int, timer: int, trap: Context, act: Option<Action>, t1: int, datum: Context,
                          t2: int)
    requires ServiceInv(m) && Possible(m, Enter(Syscall, t0, timer, trap)) && t0 <= t1 <= t2
    requires act.Some? ==> Callable(m.k, act.value) && !act.value.ATick? && !act.value.ADoneIo? && Polite(m.k, act.value)
    ensures ServiceInv(SyscallRun(m, t0, timer, trap, act, t1, datum, t2))
  {
    hide MachineInv, CommandsOk;
    var m1 := EnterHandler(m, Syscall, t0, timer, trap);
    SyscallEntered(m, t0, timer, trap);
    EventService(m, Enter(Syscall, t0, timer, trap));
    if act.Some? {
      EventService(m1, Kernel(act.value, t1, datum));
      EventService(KernelStep(m1, act.value, t1, datum), Leave(t2));
    } else {
      EventService(m1, Leave(t2));
    }
  }

  /** Events that no process asks for. */
  predicate Unasked(e: Event) { e.Kernel? ==> e.act.ATick? || e.act.ADoneIo? }

  lemma {:induction false} UnaskedCourteous(m: Machine, es: seq<Event>)
    requires Trace(m, es) && forall e :: e in es ==> Unasked(e)
    ensures AllCourteous(m, es)
    decreases |es|
  {
    if es != [] {
      assert Unasked(es[0]);
      UnaskedCourteous(Step(m, es[0]), es[1..]);
    }
  }

  /** Inside an interrupt handler a time slice or a completion is always possible, and leaves it one. */
  lemma InterruptStep(m: Machine, a: Action, tod: int, datum: Context)
    requires m.mode == Interrupt && m.now <= tod
    requires a.ATick? || (a.ADoneIo? && a.dev < |m.k.devs|)
    ensures Possible(m, Kernel(a, tod, datum))
    ensures var m' := KernelStep(m, a, tod, datum);
      && m'.mode == Interrupt && m'.now == tod && |m'.k.devs| == |m.k.devs| && |m'.k.pcbs| == |m.k.pcbs|
      && |m'.commands| == |m.commands| && m'.interrupted == m.interrupted
  {
    StepShape(m.k, a);
    hide Apply;
  }

  /** Completions keep queues and keys linked, even where they lose a waiter. */
  lemma DoneIoLinked(s: Sched, d: nat)
    requires Shape(s) && Linked(s) && d < |s.devs|
    ensures Linked(DoneIo(s, d))
  {
    if s.devs[d].res.Some? {
      var s1 := Complete(s, d);
      if HasWaiter(s, Device(d)) {
        UnblockLinked(s, Device(d));
        CompletedKeys(s, d);
        LinkFrame(Unblock(s, Device(d)), s1);
      }
      LinkFrame(s1, DoneIo(s, d));
    }
  }

  lemma CompletedKeys(s: Sched, d: nat)
    requires d < |s.devs| && HasWaiter(s, Device(d))
    ensures SameLinks(Unblock(s, Device(d)), Complete(s, d))
  {
    hide Enqueue;
  }
}
