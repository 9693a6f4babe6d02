/**
 The scheduler inside its exception handlers: saved contexts, the old area, CPU-time accounting, the interval timer
 and the command registers of the devices. One handler run is Enter, some kernel steps, Leave.
 */
module Machine {
  import opened Seqs
  import opened Sched

  /** A processor state: the two registers the kernel itself reads or writes, and everything else. */
  datatype Context = Context(ret: int, arg1: int, rest: int)

  datatype Account = Account(user: int, kernel: int, todCache: int, todAtStart: int)

  const BLANK_CONTEXT := Context(0, 0, 0)
  const BLANK_ACCOUNT := Account(0, 0, 0, 0)
  const DEVICE_CMD_ACK := 1

  /** Where the processor is: in a process, at the start of a syscall handler, in an interrupt handler, or past a syscall. */
  datatype Mode = User | Syscall | Interrupt | Served

  datatype Machine = Machine(
    k: Sched,
    accounts: seq<Account>,        // the timers of each PCB
    saved: seq<Context>,           // p_s of each PCB
    cpu: Context,                  // what the last LDST loaded
    oldArea: Context,              // processor state at the exception
    interrupted: Pid,
    timer: int, timerCache: int, slice: int,
    now: int,
    commands: seq<int>,            // the last command sent to each device
    mode: Mode,
    launched: int,                 // history: the clock at launch
    charged: int,                  // history: all time ever charged to anyone
    logical: seq<Context>,         // history: the context each process should resume with
    request: seq<int>)             // history: the command of each process's last wait_io

  function Acct(a: seq<Account>, p: Pid): Account {
    if p < |a| then a[p] else BLANK_ACCOUNT
  }

  function SetAcct(a: seq<Account>, p: Pid, x: Account): seq<Account> {
    if p < |a| then a[p := x] else a
  }

  function Ctx(c: seq<Context>, p: Pid): Context {
    if p < |c| then c[p] else BLANK_CONTEXT
  }

  function SetCtx(c: seq<Context>, p: Pid, x: Context): seq<Context> {
    if p < |c| then c[p := x] else c
  }

  /** A table of `n` contexts that starts with the given ones. */
  function Padded(c: seq<Context>, n: nat): seq<Context> {
    seq(n, i requires 0 <= i < n => Ctx(c, i))
  }

  lemma PaddedNext(c: seq<Context>, n: nat, j: nat)
    requires j < |c|
    ensures SetCtx(Padded(c[..j], n), j, c[j]) == Padded(c[..j + 1], n)
  {
  }

  function Word(c: seq<int>, i: nat): int {
    if i < |c| then c[i] else 0
  }

  function SetWord(c: seq<int>, i: nat, x: int): seq<int> {
    if i < |c| then c[i := x] else c
  }

  function FlushUser(a: seq<Account>, p: Pid, tod: int): seq<Account> {
    var x := Acct(a, p);
    SetAcct(a, p, x.(user := x.user + (tod - x.todCache), todCache := tod))
  }

  function FlushKernel(a: seq<Account>, p: Pid, tod: int): seq<Account> {
    var x := Acct(a, p);
    SetAcct(a, p, x.(kernel := x.kernel + (tod - x.todCache), todCache := tod))
  }

  function FlushReset(a: seq<Account>, p: Pid, tod: int): seq<Account> {
    SetAcct(a, p, Acct(a, p).(todCache := tod))
  }

  // ---- Entering and leaving a handler ------------------------------------------------------------------------------

  datatype Event =
    | Enter(mode: Mode, tod: int, timer: int, trap: Context)
    | Kernel(act: Action, tod: int, datum: Context)   // datum: a new process's context, or a device status in `ret`
    | Leave(tod: int)

  /** start_handler, with `trap` what the processor left in the old area. */
  function EnterHandler(m: Machine, mode: Mode, tod: int, timer: int, trap: Context): Machine {
    var p := m.k.running;
    m.(timer := timer,
       timerCache := if timer > m.slice then m.slice else timer,
       interrupted := p,
       accounts := FlushUser(m.accounts, p, tod),
       oldArea := trap, now := tod, mode := mode,
       charged := m.charged + (tod - Acct(m.accounts, p).todCache),
       logical := SetCtx(m.logical, p, trap))
  }

  /** conclude_handler. */
  function LeaveHandler(m: Machine, tod: int): Machine {
    var i, r := m.interrupted, m.k.running;
    if i != r then
      var saved := if i != m.k.Idle() then SetCtx(m.saved, i, m.oldArea) else m.saved;
      m.(accounts := FlushReset(m.accounts, r, tod), timer := m.slice, saved := saved, cpu := Ctx(saved, r),
         now := tod, mode := User)
    else
      m.(timer := m.timerCache, accounts := FlushKernel(m.accounts, i, tod), cpu := m.oldArea, now := tod, mode := User,
         charged := m.charged + (tod - Acct(m.accounts, i).todCache))
  }

  // ---- Kernel steps ------------------------------------------------------------------------------------------------

  /** Whether the step blocks its caller and so charges it kernel time. */
  predicate Blocks(s: Sched, a: Action) {
    (a.APasseren? && a.addr in s.sems && s.sems[a.addr] - 1 < 0) || a.AWaitIo?
  }

  /** The value that create_process and terminate_proc return. */
  function Result(s: Sched, a: Action): int {
    if a.ACreate? && s.free == [] then -1 else 0
  }

  function WithRet(c: Context, v: int): Context { c.(ret := v) }

  /** The process that done_io completes. */
  function Completed(s: Sched, a: Action): Option<Pid> {
    if a.ADoneIo? && HasWaiter(s, Device(a.dev)) && Dev(s, a.dev).res == Some(s.blocked[Device(a.dev)][0])
    then Dev(s, a.dev).res else None
  }

  function NextAccounts(m: Machine, a: Action, tod: int): seq<Account> {
    if a.ACreate? && m.k.free != [] then SetAcct(m.accounts, m.k.free[0], BLANK_ACCOUNT)
    else if Blocks(m.k, a) then FlushKernel(m.accounts, m.k.running, tod)
    else m.accounts
  }

  /** The saved contexts after a completion on `d`. */
  function Delivered(s: Sched, d: nat, saved: seq<Context>, status: int): seq<Context> {
    if Completed(s, ADoneIo(d)).Some? then
      var p := Completed(s, ADoneIo(d)).value;
      SetCtx(saved, p, WithRet(Ctx(saved, p), status))
    else saved
  }

  function NextSaved(m: Machine, a: Action, datum: Context): seq<Context> {
    if a.ACreate? && m.k.free != [] then SetCtx(m.saved, m.k.free[0], datum)
    else if a.ADoneIo? then Delivered(m.k, a.dev, m.saved, datum.ret)
    else m.saved
  }

  /** The command registers after a completion on `d`; the next waiter's command is read from its saved context. */
  function Reissued(s: Sched, d: nat, commands: seq<int>, saved: seq<Context>): seq<int> {
    if d < |s.devs| && s.devs[d].res.Some? then
      var s1 := Complete(s, d);
      SetWord(commands, d,
        if HasWaiter(s1, Device(d)) then Ctx(saved, s1.blocked[Device(d)][0]).arg1 else DEVICE_CMD_ACK)
    else commands
  }

  /** What reaches the device registers. */
  function NextCommands(m: Machine, a: Action, saved: seq<Context>): seq<int>
    requires Callable(m.k, a)
  {
    match a
    case AWaitIo(d) =>
      if m.k.devs[d].cmdSem - 1 < 0 then m.commands else SetWord(m.commands, d, m.oldArea.arg1)
    case ADoneIo(d) => Reissued(m.k, d, m.commands, saved)
    case _ => m.commands
  }

  function NextOldArea(m: Machine, a: Action): Context {
    if a.ACreate? || a.ATerminate? then WithRet(m.oldArea, Result(m.k, a)) else m.oldArea
  }

  function NextLogical(m: Machine, a: Action, datum: Context): seq<Context> {
    match a
    case ACreate(_) =>
      var answered := SetCtx(m.logical, m.interrupted, WithRet(Ctx(m.logical, m.interrupted), Result(m.k, a)));
      if m.k.free == [] then answered else SetCtx(answered, m.k.free[0], datum)
    case ATerminate(_, _) =>
      SetCtx(m.logical, m.interrupted, WithRet(Ctx(m.logical, m.interrupted), Result(m.k, a)))
    case ADoneIo(d) =>
      if Completed(m.k, a).Some? then
        var p := Completed(m.k, a).value;
        SetCtx(m.logical, p, WithRet(Ctx(m.logical, p), datum.ret))
      else m.logical
    case _ => m.logical
  }

  function KernelStep(m: Machine, a: Action, tod: int, datum: Context): Machine
    requires Callable(m.k, a)
  {
    var saved := NextSaved(m, a, datum);
    m.(k := Apply(m.k, a),
       accounts := NextAccounts(m, a, tod),
       saved := saved,
       oldArea := NextOldArea(m, a),
       commands := NextCommands(m, a, saved),
       now := tod,
       mode := if m.mode == Syscall then Served else m.mode,
       charged := m.charged + (if Blocks(m.k, a) then tod - Acct(m.accounts, m.k.running).todCache else 0),
       logical := NextLogical(m, a, datum),
       request := if a.AWaitIo? then SetWord(m.request, m.k.running, m.oldArea.arg1) else m.request)
  }

  function Step(m: Machine, e: Event): Machine
    requires Possible(m, e)
  {
    match e
    case Enter(mode, tod, timer, trap) => EnterHandler(m, mode, tod, timer, trap)
    case Kernel(a, tod, datum) => KernelStep(m, a, tod, datum)
    case Leave(tod) => LeaveHandler(m, tod)
  }

  /** The order in which the hardware and the handlers bring events about; the clock never runs back. */
  ghost predicate Possible(m: Machine, e: Event) {
    match e
    case Enter(mode, tod, _, _) =>
      m.mode == User && m.now <= tod && (mode == Interrupt || (mode == Syscall && m.k.running != m.k.Idle()))
    case Kernel(a, tod, _) =>
      && Callable(m.k, a) && m.now <= tod
      && (if a.ATick? || a.ADoneIo? then m.mode == Interrupt else m.mode == Syscall)
    case Leave(tod) => m.mode != User && m.now <= tod
  }

  /** GETCPUTIME: user time, kernel time and wall-clock time of the caller. */
  function CpuTime(m: Machine, tod: int): (int, int, int) {
    var x := Acct(m.accounts, m.interrupted);
    (x.user, x.kernel + (tod - x.todCache), tod - x.todAtStart)
  }
}
