/** Which devices an interrupt handler finds done, and in what order it serves them. */
module Interrupts {
  import opened Sched
  import opened Division
  import opened Invariants
  import opened Machine
  import opened MachineInvariants

  const PER_LINE := 8               // N_DEV_PER_IL

  /** What the handler finds: which lines are raised, the bitmap of each, which halves of the terminals are done. */
  datatype Pending = Pending(
    tick: bool,
    raised: seq<bool>,             // one for each device line, then one for the terminals
    lines: seq<nat>,
    terminals: nat, received: seq<bool>, transmitted: seq<bool>,
    statuses: seq<int>)            // what each device answers

  /** Device `dev` of line `line` in the flattened table of device lists. */
  function DevAt(line: nat, dev: nat): nat { line * PER_LINE + dev }

  function Shifted(b: nat, i: nat): nat {
    if i == 0 then b else Shifted(Rest(b), i - 1)
  }

  /** What is left of a bitmap when its lowest bit is shifted out. */
  function Rest(b: nat): nat { b / 2 }

  predicate Lowest(b: nat) { b % 2 == 1 }

  predicate Bit(b: nat, i: nat) { Lowest(Shifted(b, i)) }

  predicate Flag(f: seq<bool>, i: nat) { i < |f| && f[i] }

  // ---- The scan ----------------------------------------------------------------------------------------------------

  /** The devices of one line from `dev` on, `b` having been shifted that far. */
  function ScanLine(line: nat, b: nat, dev: nat): seq<nat>
    decreases PER_LINE - dev
  {
    if dev >= PER_LINE then []
    else (if Lowest(b) then [DevAt(line, dev)] else []) + ScanLine(line, Rest(b), dev + 1)
  }

  function LineDone(p: Pending, l: nat): seq<nat>
    requires l < |p.lines|
  {
    if Flag(p.raised, l) then ScanLine(l, p.lines[l], 0) else []
  }

  function ScanLines(p: Pending, l: nat): seq<nat>
    decreases |p.lines| - l
  {
    if l >= |p.lines| then [] else LineDone(p, l) + ScanLines(p, l + 1)
  }

  /** The terminals come after the `n` other lines: the row of their transmitters first, then that of their receivers. */
  function Halves(p: Pending, dev: nat): seq<nat> {
    (if Flag(p.received, dev) then [DevAt(|p.lines| + 1, dev)] else [])
    + (if Flag(p.transmitted, dev) then [DevAt(|p.lines|, dev)] else [])
  }

  function ScanTerminals(p: Pending, b: nat, dev: nat): seq<nat>
    decreases PER_LINE - dev
  {
    if dev >= PER_LINE then []
    else (if Lowest(b) then Halves(p, dev) else []) + ScanTerminals(p, Rest(b), dev + 1)
  }

  function Done(p: Pending): seq<nat> {
    ScanLines(p, 0) + if Flag(p.raised, |p.lines|) then ScanTerminals(p, p.terminals, 0) else []
  }

  function Status(p: Pending, d: nat): Context { WithRet(BLANK_CONTEXT, Word(p.statuses, d)) }

  function Completions(p: Pending, ds: seq<nat>, tod: int): seq<Event> {
    seq(|ds|, i requires 0 <= i < |ds| => Kernel(ADoneIo(ds[i]), tod, Status(p, ds[i])))
  }

  function Ticks(p: Pending, tod: int): seq<Event> {
    if p.tick then [Kernel(ATick, tod, BLANK_CONTEXT)] else []
  }

  /** The timer first, then the devices. */
  function Events(p: Pending, tod: int): seq<Event> { Ticks(p, tod) + Completions(p, Done(p), tod) }

  /** What handle_interrupt makes of it. */
  function Handling(p: Pending, trap: Context, timer: int, t0: int, t1: int, t2: int): seq<Event> {
    [Enter(Interrupt, t0, timer, trap)] + (Events(p, t1) + [Leave(t2)])
  }

  // ---- The scan, step by step --------------------------------------------------------------------------------------

  lemma ServeLineStep(line: nat, b: nat, dev: nat, ds: seq<nat>)
    requires dev < PER_LINE
    ensures ds + ScanLine(line, b, dev) ==
      (if Lowest(b) then ds + [DevAt(line, dev)] else ds) + ScanLine(line, Rest(b), dev + 1)
  {
    hide DevAt;
  }

  lemma ServeTerminalsStep(p: Pending, b: nat, dev: nat, ds: seq<nat>)
    requires dev < PER_LINE
    ensures ds + ScanTerminals(p, b, dev) ==
      (if Lowest(b) then ds + Halves(p, dev) else ds) + ScanTerminals(p, Rest(b), dev + 1)
  {
    hide Halves;
  }

  lemma ServeLinesStep(p: Pending, l: nat, ds: seq<nat>)
    requires l < |p.lines|
    ensures ds + ScanLines(p, l) == (ds + LineDone(p, l)) + ScanLines(p, l + 1)
  {
    hide LineDone;
  }

  // ---- What the scan finds -----------------------------------------------------------------------------------------

  /** How often `q` names device `dev` of row `row`. */
  function Times(q: seq<nat>, row: nat, dev: nat): nat { multiset(q)[DevAt(row, dev)] }

  lemma TimesConcat(a: seq<nat>, b: seq<nat>, row: nat, dev: nat)
    ensures Times(a + b, row, dev) == Times(a, row, dev) + Times(b, row, dev)
  {
  }

  lemma TimesOne(line: nat, i: nat, row: nat, dev: nat)
    requires i < PER_LINE && dev < PER_LINE
    ensures Times([DevAt(line, i)], row, dev) == Count(row == line && dev == i)
  {
  }

  lemma BitNext(b: nat, i: nat)
    ensures Bit(b, i) == if i == 0 then Lowest(b) else Bit(Rest(b), i - 1)
  {
    hide Lowest, Rest;
  }

  /** Bit `i` is set in what the scan still has of a bitmap when it comes to `dev`. */
  predicate SetFrom(b: nat, dev: nat, i: nat) { dev <= i && Bit(b, i - dev) }

  lemma SetNext(b: nat, dev: nat, i: nat)
    ensures Count(SetFrom(b, dev, i)) == Count(i == dev && Lowest(b)) + Count(SetFrom(Rest(b), dev + 1, i))
  {
    hide Bit, Rest, Lowest;
    if i >= dev { BitNext(b, i - dev); }
  }

  lemma {:induction false} ScanLineServes(line: nat, b: nat, dev: nat, row: nat, i: nat)
    requires i < PER_LINE
    ensures Times(ScanLine(line, b, dev), row, i) == Count(row == line && SetFrom(b, dev, i))
    decreases PER_LINE - dev
  {
    hide SetFrom, DevAt, Times;
    if dev < PER_LINE {
      TimesConcat(if Lowest(b) then [DevAt(line, dev)] else [], ScanLine(line, Rest(b), dev + 1), row, i);
      TimesOne(line, dev, row, i);
      TimesNone(row, i);
      SetNext(b, dev, i);
      ScanLineServes(line, Rest(b), dev + 1, row, i);
    } else {
      NotFrom(b, dev, i);
      TimesNone(row, i);
    }
  }

  lemma NotFrom(b: nat, dev: nat, i: nat)
    requires i < dev
    ensures !SetFrom(b, dev, i)
  {
  }

  lemma TimesNone(row: nat, dev: nat)
    ensures Times([], row, dev) == 0
  {
  }

  /** Each device of the line `l` is served once if the line is raised and its bit is set, and not otherwise. */
  lemma LineServes(p: Pending, l: nat, row: nat, i: nat)
    requires l < |p.lines| && i < PER_LINE
    ensures Times(LineDone(p, l), row, i) == Count(row == l && Flag(p.raised, l) && Bit(p.lines[l], i))
  {
    hide ScanLine, Bit, DevAt;
    ScanLineServes(l, p.lines[l], 0, row, i);
    assert SetFrom(p.lines[l], 0, i) == Bit(p.lines[l], i);
  }

  predicate LinePending(p: Pending, row: nat, i: nat) {
    row < |p.lines| && Flag(p.raised, row) && Bit(p.lines[row], i)
  }

  lemma {:induction false} ScanLinesServes(p: Pending, l: nat, row: nat, i: nat)
    requires i < PER_LINE
    ensures Times(ScanLines(p, l), row, i) == Count(l <= row && LinePending(p, row, i))
    decreases |p.lines| - l
  {
    hide LineDone, Times, Bit;
    if l < |p.lines| {
      LineServes(p, l, row, i);
      TimesConcat(LineDone(p, l), ScanLines(p, l + 1), row, i);
      ScanLinesServes(p, l + 1, row, i);
    } else {
      TimesNone(row, i);
    }
  }

  predicate HalfPending(p: Pending, row: nat, i: nat) {
    (row == |p.lines| && Flag(p.transmitted, i)) || (row == |p.lines| + 1 && Flag(p.received, i))
  }

  lemma HalvesServe(p: Pending, dev: nat, row: nat, i: nat)
    requires dev < PER_LINE && i < PER_LINE
    ensures Times(Halves(p, dev), row, i) == Count(i == dev && HalfPending(p, row, i))
  {
    hide DevAt, Times;
    TimesConcat(if Flag(p.received, dev) then [DevAt(|p.lines| + 1, dev)] else [],
                if Flag(p.transmitted, dev) then [DevAt(|p.lines|, dev)] else [], row, i);
    TimesOne(|p.lines| + 1, dev, row, i);
    TimesOne(|p.lines|, dev, row, i);
    TimesNone(row, i);
  }

  lemma {:induction false} ScanTerminalsServes(p: Pending, b: nat, dev: nat, row: nat, i: nat)
    requires i < PER_LINE
    ensures Times(ScanTerminals(p, b, dev), row, i) == Count(SetFrom(b, dev, i) && HalfPending(p, row, i))
    decreases PER_LINE - dev
  {
    hide SetFrom, Halves, HalfPending, Times;
    if dev < PER_LINE {
      HalvesServe(p, dev, row, i);
      TimesConcat(if Lowest(b) then Halves(p, dev) else [], ScanTerminals(p, Rest(b), dev + 1), row, i);
      TimesNone(row, i);
      SetNext(b, dev, i);
      ScanTerminalsServes(p, Rest(b), dev + 1, row, i);
    } else {
      NotFrom(b, dev, i);
      TimesNone(row, i);
    }
  }

  predicate TerminalPending(p: Pending, row: nat, i: nat) {
    Flag(p.raised, |p.lines|) && Bit(p.terminals, i) && HalfPending(p, row, i)
  }

  /** Every device that has its interrupt pending is served, once, and no other one is. */
  lemma ServedOnce(p: Pending, row: nat, dev: nat)
    requires dev < 8
    ensures Times(Done(p), row, dev) == Count(LinePending(p, row, dev) || TerminalPending(p, row, dev))
  {
    hide ScanLines, ScanTerminals, Bit, Times;
    TimesConcat(ScanLines(p, 0), if Flag(p.raised, |p.lines|) then ScanTerminals(p, p.terminals, 0) else [], row, dev);
    TimesNone(row, dev);
    ScanLinesServes(p, 0, row, dev);
    ScanTerminalsServes(p, p.terminals, 0, row, dev);
    assert SetFrom(p.terminals, 0, dev) == Bit(p.terminals, dev);
  }

  // ---- What a bitmap means -----------------------------------------------------------------------------------------

  function Weight(i: nat): (w: nat)
    ensures w > 0
  {
    if i == 0 then 1 else 2 * Weight(i - 1)
  }

  lemma {:induction false} ShiftedIs(b: nat, i: nat)
    ensures Shifted(b, i) == b / Weight(i)
  {
    if i > 0 {
      ShiftedIs(Rest(b), i - 1);
      HalfThenDivide(b, Weight(i - 1));
    }
  }

  /** Bit `i` is the one that stands for 2 to the power of `i`. */
  lemma BitIs(b: nat, i: nat)
    ensures Bit(b, i) <==> (b / Weight(i)) % 2 == 1
  {
    ShiftedIs(b, i);
  }

  // ---- In what order -----------------------------------------------------------------------------------------------

  /** When the device at `row` and `dev` has its turn: line by line, then terminal by terminal, the receiver first. */
  function Turn(p: Pending, row: nat, dev: nat): nat {
    var n := |p.lines|;
    if row < n then row * PER_LINE + dev
    else n * PER_LINE + 2 * dev + (if row == n + 1 then 0 else 1)
  }

  function TurnOf(p: Pending, d: nat): nat { Turn(p, d / PER_LINE, d % PER_LINE) }

  lemma TurnAt(p: Pending, row: nat, dev: nat)
    requires dev < PER_LINE
    ensures TurnOf(p, DevAt(row, dev)) == Turn(p, row, dev)
  {
  }

  ghost predicate InTurn(p: Pending, q: seq<nat>, lo: nat, hi: nat) {
    && (forall i :: 0 <= i < |q| ==> lo <= TurnOf(p, q[i]) < hi)
    && forall i, j :: 0 <= i < j < |q| ==> TurnOf(p, q[i]) < TurnOf(p, q[j])
  }

  lemma InTurnConcat(p: Pending, a: seq<nat>, b: seq<nat>, lo: nat, mid: nat, hi: nat)
    requires lo <= mid <= hi && InTurn(p, a, lo, mid) && InTurn(p, b, mid, hi)
    ensures InTurn(p, a + b, lo, hi)
  {
    hide TurnOf;
  }

  lemma OneInTurn(p: Pending, row: nat, dev: nat, lo: nat, hi: nat)
    requires dev < PER_LINE && lo <= Turn(p, row, dev) < hi
    ensures InTurn(p, [DevAt(row, dev)], lo, hi)
  {
    TurnAt(p, row, dev);
    hide TurnOf, DevAt;
  }

  lemma NoneInTurn(p: Pending, lo: nat, hi: nat)
    ensures InTurn(p, [], lo, hi)
  {
  }

  lemma {:induction false} ScanLineInTurn(p: Pending, l: nat, b: nat, dev: nat)
    requires l < |p.lines| && dev <= PER_LINE
    ensures InTurn(p, ScanLine(l, b, dev), l * PER_LINE + dev, l * PER_LINE + PER_LINE)
    decreases PER_LINE - dev
  {
    hide InTurn, DevAt;
    NoneInTurn(p, l * PER_LINE + dev, l * PER_LINE + PER_LINE);
    if dev < PER_LINE {
      NoneInTurn(p, l * PER_LINE + dev, l * PER_LINE + dev + 1);
      OneInTurn(p, l, dev, l * PER_LINE + dev, l * PER_LINE + dev + 1);
      ScanLineInTurn(p, l, Rest(b), dev + 1);
      InTurnConcat(p, if Lowest(b) then [DevAt(l, dev)] else [], ScanLine(l, Rest(b), dev + 1),
        l * PER_LINE + dev, l * PER_LINE + dev + 1, l * PER_LINE + PER_LINE);
    }
  }

  lemma {:induction false} ScanLinesInTurn(p: Pending, l: nat)
    requires l <= |p.lines|
    ensures InTurn(p, ScanLines(p, l), l * PER_LINE, |p.lines| * PER_LINE)
    decreases |p.lines| - l
  {
    hide InTurn, ScanLine;
    NoneInTurn(p, l * PER_LINE, |p.lines| * PER_LINE);
    if l < |p.lines| {
      NoneInTurn(p, l * PER_LINE, l * PER_LINE + PER_LINE);
      ScanLineInTurn(p, l, p.lines[l], 0);
      ScanLinesInTurn(p, l + 1);
      InTurnConcat(p, LineDone(p, l), ScanLines(p, l + 1), l * PER_LINE, (l + 1) * PER_LINE, |p.lines| * PER_LINE);
    }
  }

  lemma HalvesInTurn(p: Pending, dev: nat)
    requires dev < PER_LINE
    ensures var lo := |p.lines| * PER_LINE + 2 * dev; InTurn(p, Halves(p, dev), lo, lo + 2)
  {
    hide InTurn, DevAt;
    var n, lo := |p.lines|, |p.lines| * PER_LINE + 2 * dev;
    NoneInTurn(p, lo, lo + 1);
    NoneInTurn(p, lo + 1, lo + 2);
    OneInTurn(p, n + 1, dev, lo, lo + 1);
    OneInTurn(p, n, dev, lo + 1, lo + 2);
    InTurnConcat(p, if Flag(p.received, dev) then [DevAt(n + 1, dev)] else [],
      if Flag(p.transmitted, dev) then [DevAt(n, dev)] else [], lo, lo + 1, lo + 2);
  }

  lemma {:induction false} ScanTerminalsInTurn(p: Pending, b: nat, dev: nat)
    requires dev <= PER_LINE
    ensures InTurn(p, ScanTerminals(p, b, dev), |p.lines| * PER_LINE + 2 * dev, |p.lines| * PER_LINE + 2 * PER_LINE)
    decreases PER_LINE - dev
  {
    hide InTurn, Halves;
    var lo, hi := |p.lines| * PER_LINE + 2 * dev, |p.lines| * PER_LINE + 2 * PER_LINE;
    NoneInTurn(p, lo, hi);
    if dev < PER_LINE {
      NoneInTurn(p, lo, lo + 2);
      HalvesInTurn(p, dev);
      ScanTerminalsInTurn(p, Rest(b), dev + 1);
      InTurnConcat(p, if Lowest(b) then Halves(p, dev) else [], ScanTerminals(p, Rest(b), dev + 1), lo, lo + 2, hi);
    }
  }

  /** Devices are served line by line and in the order of their numbers, terminals last, their receivers first. */
  lemma ServedInOrder(p: Pending, i: nat, j: nat, row: nat, dev: nat, row': nat, dev': nat)
    requires i < j < |Done(p)| && Done(p)[i] == DevAt(row, dev) && Done(p)[j] == DevAt(row', dev')
    requires dev < 8 && dev' < 8
    ensures Turn(p, row, dev) < Turn(p, row', dev')
  {
    hide ScanLines, ScanTerminals, DevAt, Turn;
    var mid := |p.lines| * PER_LINE;
    ScanLinesInTurn(p, 0);
    NoneInTurn(p, mid, mid + 2 * PER_LINE);
    ScanTerminalsInTurn(p, p.terminals, 0);
    InTurnConcat(p, ScanLines(p, 0), if Flag(p.raised, |p.lines|) then ScanTerminals(p, p.terminals, 0) else [],
      0, mid, mid + 2 * PER_LINE);
    TurnAt(p, row, dev);
    TurnAt(p, row', dev');
  }

  /**
   The events of a handler, one by one: entry, a slice exactly if the timer has run out and right after the entry, a
   completion with its own status for each device served, and exit.
   */
  lemma HandlingIs(p: Pending, trap: Context, timer: int, t0: int, t1: int, t2: int)
    ensures var es, ds, n := Handling(p, trap, timer, t0, t1, t2), Done(p), if p.tick then 2 else 1;
      && |es| == n + |ds| + 1 && es[0] == Enter(Interrupt, t0, timer, trap) && es[n + |ds|] == Leave(t2)
      && (forall i :: 0 <= i < |es| ==> (es[i].Kernel? && es[i].act.ATick? <==> i == 1 && p.tick))
      && (forall i :: 0 < i < |es| - 1 ==> es[i].Kernel? && es[i].tod == t1)
      && (forall i :: 0 <= i < |ds| ==>
           && es[n + i].act == ADoneIo(ds[i])
           && es[n + i].datum.ret == if ds[i] < |p.statuses| then p.statuses[ds[i]] else 0)
  {
    hide ScanLines, ScanTerminals, Done;
  }

  /** With no line raised there is nothing but the timer. */
  lemma NothingRaised(p: Pending)
    requires forall l :: 0 <= l <= |p.lines| ==> !Flag(p.raised, l)
    ensures Done(p) == []
  {
    NoLine(p, 0);
  }

  lemma {:induction false} NoLine(p: Pending, l: nat)
    requires forall l :: 0 <= l <= |p.lines| ==> !Flag(p.raised, l)
    ensures ScanLines(p, l) == []
    decreases |p.lines| - l
  {
    if l < |p.lines| { NoLine(p, l + 1); }
  }

  lemma OneEvent(m: Machine, e: Event)
    requires Trace(m, [e])
    ensures Possible(m, e) && Replay(m, [e]) == Step(m, e)
  {
    assert [e][1..] == [];
  }

  /** Then the handler takes a slice if the timer has run out, and leaves the scheduler alone if not. */
  lemma TimerAlone(m: Machine, p: Pending, trap: Context, timer: int, t0: int, t1: int, t2: int)
    requires Trace(m, Handling(p, trap, timer, t0, t1, t2))
    requires forall l :: 0 <= l <= |p.lines| ==> !Flag(p.raised, l)
    ensures Replay(m, Handling(p, trap, timer, t0, t1, t2)).k == if p.tick then Tick(m.k) else m.k
  {
    hide Tick, Done;
    NothingRaised(p);
    var es := Handling(p, trap, timer, t0, t1, t2);
    var enter, tick, leave := Enter(Interrupt, t0, timer, trap), Kernel(ATick, t1, BLANK_CONTEXT), Leave(t2);
    assert Completions(p, [], t1) == [];
    var m1 := Step(m, enter);
    if p.tick {
      assert es == [enter, tick, leave];
      assert es[1..] == [tick, leave] && [tick, leave][1..] == [leave];
      OneEvent(Step(m1, tick), leave);
    } else {
      assert es == [enter, leave];
      assert es[1..] == [leave];
      OneEvent(m1, leave);
    }
  }

  // ---- Whole handlers ----------------------------------------------------------------------------------------------

  lemma CompletionsNext(p: Pending, ds: seq<nat>, d: nat, tod: int)
    ensures Completions(p, ds + [d], tod) == Completions(p, ds, tod) + [Kernel(ADoneIo(d), tod, Status(p, d))]
  {
  }

  lemma HandlingUnasked(p: Pending, trap: Context, timer: int, t0: int, t1: int, t2: int)
    ensures forall e :: e in Handling(p, trap, timer, t0, t1, t2) ==> Unasked(e)
  {
  }

  /** Interrupts are always polite; they keep the machine's invariant if each completion finds whom it serves. */
  lemma HandlingInv(m: Machine, p: Pending, trap: Context, timer: int, t0: int, t1: int, t2: int)
    requires MachineInv(m) && Possible(m, Enter(Interrupt, t0, timer, trap))
    requires Trace(EnterHandler(m, Interrupt, t0, timer, trap), Events(p, t1) + [Leave(t2)])
    ensures var es := Handling(p, trap, timer, t0, t1, t2);
      && Trace(m, es) && Replay(m, es) == Replay(EnterHandler(m, Interrupt, t0, timer, trap), Events(p, t1) + [Leave(t2)])
      && (AllFair(m, es) ==> MachineInv(Replay(m, es)))
      && (ServiceInv(m) ==> AllFair(m, es) && ServiceInv(Replay(m, es)))
  {
    hide MachineInv, Possible, Unasked, EnterHandler;
    var es := Handling(p, trap, timer, t0, t1, t2);
    assert es[1..] == Events(p, t1) + [Leave(t2)];
    HandlingUnasked(p, trap, timer, t0, t1, t2);
    if AllFair(m, es) { HistoryInv(m, es); }
    if ServiceInv(m) {
      UnaskedCourteous(m, es);
      CourteousHistory(m, es);
    }
  }
}
