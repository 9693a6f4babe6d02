/** Processor time is conserved: what the clock has run since launch is charged, forgotten with a PCB, or spent on a swap. */
module Accounting {
  import opened Seqs
  import opened Sched
  import opened Invariants
  import opened Devices
  import opened Machine
  import opened MachineInvariants

  /** Handler time charged to nobody, because the handler ends in another process than it began in. */
  function Spent(m: Machine, e: Event): int {
    if e.Leave? && m.interrupted != m.k.running then e.tod - Acct(m.accounts, m.interrupted).todCache else 0
  }

  /** The times of a finished process, blanked when its PCB is used again. */
  function Forgotten(m: Machine, e: Event): int {
    if e.Kernel? && e.act.ACreate? && m.k.free != [] then
      Acct(m.accounts, m.k.free[0]).user + Acct(m.accounts, m.k.free[0]).kernel
    else 0
  }

  function Flushed(m: Machine): int { Acct(m.accounts, Absent(m)).todCache }

  lemma EnterAccounted(m: Machine, mode: Mode, tod: int, timer: int, trap: Context)
    requires MachineInv(m) && Possible(m, Enter(mode, tod, timer, trap))
    ensures var m' := EnterHandler(m, mode, tod, timer, trap);
      Total(m'.accounts) - Total(m.accounts) == Flushed(m') - Flushed(m)
  {
    var x := Acct(m.accounts, m.k.running);
    assert AccountOk(x, m.launched);
    ChargeOne(m, m.k.running, x.(user := x.user + (tod - x.todCache), todCache := tod));
  }

  lemma LeaveAccounted(m: Machine, tod: int)
    requires MachineInv(m) && Possible(m, Leave(tod))
    ensures var m' := LeaveHandler(m, tod);
      Total(m'.accounts) + Spent(m, Leave(tod)) - Total(m.accounts) == Flushed(m') - Flushed(m)
  {
    var i, r := m.interrupted, m.k.running;
    var x, y := Acct(m.accounts, i), Acct(m.accounts, r);
    assert AccountOk(x, m.launched) && AccountOk(y, m.launched);
    if i != r {
      ChargeOne(m, r, y.(todCache := tod));
    } else {
      ChargeOne(m, i, x.(kernel := x.kernel + (tod - x.todCache), todCache := tod));
    }
  }

  lemma KernelAccounted(m: Machine, a: Action, tod: int, datum: Context)
    requires MachineInv(m) && Possible(m, Kernel(a, tod, datum))
    ensures var m' := KernelStep(m, a, tod, datum);
      Total(m'.accounts) + Forgotten(m, Kernel(a, tod, datum)) - Total(m.accounts) == Flushed(m') - Flushed(m)
  {
    hide Protocol, TreeOk, Apply;
    assert Absent(KernelStep(m, a, tod, datum)) == Absent(m);
    if a.ACreate? && m.k.free != [] {
      Uncons(m.k.free);
      Apart(m.k, None);
      ChargeOne(m, m.k.free[0], BLANK_ACCOUNT);
    } else if Blocks(m.k, a) {
      var x := Acct(m.accounts, m.k.running);
      assert AccountOk(x, m.launched);
      ChargeOne(m, m.k.running, x.(kernel := x.kernel + (tod - x.todCache), todCache := tod));
    }
  }

  function AllSpent(m: Machine, es: seq<Event>): int
    requires History(m, es)
    decreases |es|
  {
    if es == [] then 0 else Spent(m, es[0]) + AllSpent(Step(m, es[0]), es[1..])
  }

  function AllForgotten(m: Machine, es: seq<Event>): int
    requires History(m, es)
    decreases |es|
  {
    if es == [] then 0 else Forgotten(m, es[0]) + AllForgotten(Step(m, es[0]), es[1..])
  }

  /** Over any history, to the tick: time on the accounts, time forgotten and time spent on swaps add up to time elapsed. */
  lemma {:induction false} TimeConserved(m: Machine, es: seq<Event>)
    requires MachineInv(m) && History(m, es)
    ensures var m' := Replay(m, es);
      Total(m'.accounts) + AllForgotten(m, es) + AllSpent(m, es) == Total(m.accounts) + (Flushed(m') - Flushed(m))
    decreases |es|
  {
    if es != [] {
      match es[0] {
        case Enter(mode, tod, timer, trap) => EnterAccounted(m, mode, tod, timer, trap);
        case Kernel(a, tod, datum) => KernelAccounted(m, a, tod, datum);
        case Leave(tod) => LeaveAccounted(m, tod);
      }
      EventInv(m, es[0]);
      TimeConserved(Step(m, es[0]), es[1..]);
    }
  }

  /** Nothing spent or forgotten is negative. */
  lemma NothingNegative(m: Machine, e: Event)
    requires MachineInv(m) && Possible(m, e)
    ensures Spent(m, e) >= 0 && Forgotten(m, e) >= 0
  {
    if Forgotten(m, e) != 0 {
      Uncons(m.k.free);
      assert AccountOk(Acct(m.accounts, m.k.free[0]), m.launched);
    }
  }

  lemma {:induction false} NeverNegative(m: Machine, es: seq<Event>)
    requires MachineInv(m) && History(m, es)
    ensures AllSpent(m, es) >= 0 && AllForgotten(m, es) >= 0
    decreases |es|
  {
    hide MachineInv, Step, Possible, Spent, Forgotten;
    if es != [] {
      NothingNegative(m, es[0]);
      EventInv(m, es[0]);
      NeverNegative(Step(m, es[0]), es[1..]);
    }
  }

  /** The event gives PCB `p` to a new process. */
  predicate Allocates(m: Machine, e: Event, p: Pid) {
    e.Kernel? && e.act.ACreate? && m.k.free != [] && m.k.free[0] == p
  }

  /**
   Which clock runs: a process gains user time only by trapping or being interrupted, and kernel time only when a handler
   returns to it or when it blocks; both exactly since its last flush.
   */
  lemma OwnTime(m: Machine, e: Event, p: Pid)
    requires MachineInv(m) && Possible(m, e) && !Allocates(m, e, p) && p < |m.accounts|
    ensures var x, x' := Acct(m.accounts, p), Acct(Step(m, e).accounts, p);
      && x'.user == x.user + (if e.Enter? && p == m.k.running then e.tod - x.todCache else 0)
      && x'.kernel == x.kernel +
           (if (e.Leave? && p == m.interrupted == m.k.running) || (e.Kernel? && p == m.k.running && Blocks(m.k, e.act))
            then e.tod - x.todCache else 0)
  {
  }

  /** Whether a history gives PCB `p` to a new process. */
  ghost predicate Reuses(m: Machine, es: seq<Event>, p: Pid)
    requires History(m, es)
    decreases |es|
  {
    es != [] && (Allocates(m, es[0], p) || Reuses(Step(m, es[0]), es[1..], p))
  }

  /** No account ever goes down while its PCB is not given to another process. */
  lemma {:induction false} TimesGrow(m: Machine, es: seq<Event>, p: Pid)
    requires MachineInv(m) && History(m, es) && !Reuses(m, es, p) && p < |m.accounts|
    ensures var x, x' := Acct(m.accounts, p), Acct(Replay(m, es).accounts, p); x'.user >= x.user && x'.kernel >= x.kernel
    decreases |es|
  {
    if es != [] {
      OwnTime(m, es[0], p);
      EventInv(m, es[0]);
      TimesGrow(Step(m, es[0]), es[1..], p);
    }
  }
}
