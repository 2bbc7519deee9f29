/** The initialisation sequence of `icm20608_init` as a fixed plan of steps,
    and what running a plan against the bus's answers produces. */
module InitSequence {
  import opened Registers
  import opened Bus
  import Conversion

  /** One step of a plan.
      Checked: a call whose failure ends the sequence.
      RegisterWrite: CS low (result ignored), the write with the address's
        direction bit cleared, CS high (result ignored) on both outcomes;
        a failed write ends the sequence.
      Settle: a settling delay, which cannot fail. */
  datatype Step =
    | Checked(call: Event)
    | RegisterWrite(reg: byte, value: byte)
    | Settle(micros: nat)

  /** The trace a run leaves and whether it reported success. */
  datatype Outcome = Outcome(trace: seq<Event>, ok: bool)

  /** Settling delay after each power-management write, `usleep(50 * 1000)`. */
  const ResetSettleMicros: nat := 50 * 1000

  /** icm20608.c:106-233, in order. */
  const InitPlan: seq<Step> := [
    Checked(SpiOpen(DevPath, Mode0, SpiClockHz, SpiWordBits)),
    Checked(GpioExport(CsPin)),
    Checked(GpioSetDirection(CsPin, Out)),
    Checked(GpioSetValue(CsPin, Low)),
    RegisterWrite(PwrMgmt1, 0x80),
    Settle(ResetSettleMicros),
    RegisterWrite(PwrMgmt1, 0x01),
    Settle(ResetSettleMicros),
    RegisterWrite(SmplrtDiv, 0x00),
    RegisterWrite(GyroConfig, Conversion.GyroConfigValue),
    RegisterWrite(AccelConfig, Conversion.AccelConfigValue),
    RegisterWrite(Config, 0x04),
    RegisterWrite(AccelConfig2, 0x04),
    RegisterWrite(PwrMgmt2, 0x00),
    RegisterWrite(LpModeCfg, 0x00),
    RegisterWrite(FifoEn, 0x00)
  ]

  /** The four phases of the plan: bringing up the SPI device and the
      chip-select pin; resetting and waking the device; setting the sample
      rate, the full-scale ranges and the gyroscope filter; setting the
      accelerometer filter and the power, low-power and FIFO modes. */
  const SetupPlan: seq<Step> := InitPlan[..4]
  const ResetPlan: seq<Step> := InitPlan[4..8]
  const RangePlan: seq<Step> := InitPlan[8..12]
  const ModePlan: seq<Step> := InitPlan[12..]

  lemma InitPlanPhases()
    ensures InitPlan == SetupPlan + ResetPlan + RangePlan + ModePlan
  {
    assert InitPlan == InitPlan[..4] + InitPlan[4..8] + InitPlan[8..12] + InitPlan[12..];
  }

  lemma SetupSteps()
    ensures SetupPlan == [
      Checked(SpiOpen(DevPath, Mode0, SpiClockHz, SpiWordBits)),
      Checked(GpioExport(CsPin)),
      Checked(GpioSetDirection(CsPin, Out)),
      Checked(GpioSetValue(CsPin, Low))]
  {
  }

  lemma ResetSteps()
    ensures ResetPlan == [
      RegisterWrite(PwrMgmt1, 0x80), Settle(ResetSettleMicros),
      RegisterWrite(PwrMgmt1, 0x01), Settle(ResetSettleMicros)]
  {
  }

  lemma RangeSteps()
    ensures RangePlan == [
      RegisterWrite(SmplrtDiv, 0x00),
      RegisterWrite(GyroConfig, Conversion.GyroConfigValue),
      RegisterWrite(AccelConfig, Conversion.AccelConfigValue),
      RegisterWrite(Config, 0x04)]
  {
  }

  lemma ModeSteps()
    ensures ModePlan == [
      RegisterWrite(AccelConfig2, 0x04),
      RegisterWrite(PwrMgmt2, 0x00),
      RegisterWrite(LpModeCfg, 0x00),
      RegisterWrite(FifoEn, 0x00)]
  {
  }

  /** The calls a step makes; a step makes the same calls whether it succeeds or not. */
  function Events(s: Step): (calls: seq<Event>)
  {
    match s
    case Checked(e) => [e]
    case RegisterWrite(r, v) => [CsLow, SpiWriteByte(WriteAddress(r), v), CsHigh]
    case Settle(us) => [USleep(us)]
  }

  /** The calls of a whole plan, step after step. */
  function Expected(plan: seq<Step>): (calls: seq<Event>)
  {
    if plan == [] then [] else Events(plan[0]) + Expected(plan[1..])
  }

  /** Performs one step after history `t`. */
  function Exec(s: Step, t: seq<Event>, succeeds: seq<Event> -> bool): (o: Outcome)
    ensures o.trace == t + Events(s)
  {
    match s
    case Checked(e) => Outcome(t + [e], succeeds(t + [e]))
    case RegisterWrite(r, v) =>
      var sent := t + [CsLow, SpiWriteByte(WriteAddress(r), v)];
      Outcome(sent + [CsHigh], succeeds(sent))
    case Settle(us) => Outcome(t + [USleep(us)], true)
  }

  /** Runs a plan, stopping at the first step that fails. */
  function Run(plan: seq<Step>, t: seq<Event>, succeeds: seq<Event> -> bool): Outcome
    decreases |plan|
  {
    if plan == [] then Outcome(t, true)
    else
      var o := Exec(plan[0], t, succeeds);
      if o.ok then Run(plan[1..], o.trace, succeeds) else o
  }

  lemma PrefixOfAppend(a: seq<Event>, b: seq<Event>)
    ensures a <= a + b
  {
    assert (a + b)[..|a|] == a;
  }

  /** Extending a history by a prefix of some calls stays within the history
      extended by all of them. */
  lemma PrefixChain(x: seq<Event>, y: seq<Event>, z: seq<Event>, t: seq<Event>)
    requires x == y + z
    ensures t <= t + y <= t + x
  {
    PrefixOfAppend(t, y);
    assert (t + x)[..|t + y|] == t + y;
  }

  /** Running two plans in sequence is running the first, then the second
      only if the first succeeded. */
  lemma {:induction false} RunAppend(p: seq<Step>, q: seq<Step>, t: seq<Event>, succeeds: seq<Event> -> bool)
    ensures Run(p + q, t, succeeds) ==
      var o := Run(p, t, succeeds);
      if o.ok then Run(q, o.trace, succeeds) else o
    decreases |p|
  {
    if p == [] {
      assert p + q == q;
    } else {
      assert (p + q)[0] == p[0];
      assert (p + q)[1..] == p[1..] + q;
      var o := Exec(p[0], t, succeeds);
      if o.ok {
        RunAppend(p[1..], q, o.trace, succeeds);
      }
    }
  }

  /** Running a plan from step k: perform step k, and continue only if it succeeded. */
  lemma RunFrom(plan: seq<Step>, k: nat, t: seq<Event>, succeeds: seq<Event> -> bool)
    requires k < |plan|
    ensures Run(plan[k..], t, succeeds) ==
      var o := Exec(plan[k], t, succeeds);
      if o.ok then Run(plan[k + 1..], o.trace, succeeds) else o
  {
    assert plan[k..][1..] == plan[k + 1..];
  }

  /** Step `j` of the plan, run after all earlier steps, succeeds. */
  predicate StepSucceeds(plan: seq<Step>, t: seq<Event>, succeeds: seq<Event> -> bool, j: nat)
    requires j < |plan|
  {
    Exec(plan[j], t + Expected(plan[..j]), succeeds).ok
  }

  lemma StepZero(plan: seq<Step>, t: seq<Event>, succeeds: seq<Event> -> bool)
    requires 0 < |plan|
    ensures StepSucceeds(plan, t, succeeds, 0) == Exec(plan[0], t, succeeds).ok
  {
    assert plan[..0] == [];
    assert t + Expected([]) == t;
  }

  lemma ExpectedCons(plan: seq<Step>, j: nat)
    requires 0 < |plan| && j < |plan|
    ensures Expected(plan[..j + 1]) == Events(plan[0]) + Expected(plan[1..][..j])
  {
    assert plan[..j + 1][1..] == plan[1..][..j];
  }

  lemma StepSucceedsCons(plan: seq<Step>, t: seq<Event>, succeeds: seq<Event> -> bool, j: nat)
    requires 0 < |plan| && j + 1 < |plan|
    ensures StepSucceeds(plan, t, succeeds, j + 1)
        == StepSucceeds(plan[1..], t + Events(plan[0]), succeeds, j)
  {
    ExpectedCons(plan, j);
    assert t + Expected(plan[..j + 1]) == t + Events(plan[0]) + Expected(plan[1..][..j]);
  }

  /** A run that reports success made every call of the plan, and every step succeeded. */
  lemma {:induction false} RunCompletes(plan: seq<Step>, t: seq<Event>, succeeds: seq<Event> -> bool)
    requires Run(plan, t, succeeds).ok
    ensures Run(plan, t, succeeds).trace == t + Expected(plan)
    ensures forall j :: 0 <= j < |plan| ==> StepSucceeds(plan, t, succeeds, j)
    decreases |plan|
  {
    if plan != [] {
      var t' := t + Events(plan[0]);
      RunCompletes(plan[1..], t', succeeds);
      forall j | 0 <= j < |plan| ensures StepSucceeds(plan, t, succeeds, j) {
        if j > 0 {
          StepSucceedsCons(plan, t, succeeds, j - 1);
        } else {
          StepZero(plan, t, succeeds);
        }
      }
    }
  }

  /** Conversely, a run in which every step succeeds reports success. */
  lemma {:induction false} RunSucceedsWhenEveryStepDoes(plan: seq<Step>, t: seq<Event>, succeeds: seq<Event> -> bool)
    requires forall j :: 0 <= j < |plan| ==> StepSucceeds(plan, t, succeeds, j)
    ensures Run(plan, t, succeeds).ok
    decreases |plan|
  {
    if plan != [] {
      assert StepSucceeds(plan, t, succeeds, 0);
      StepZero(plan, t, succeeds);
      var t' := t + Events(plan[0]);
      forall j | 0 <= j < |plan| - 1 ensures StepSucceeds(plan[1..], t', succeeds, j) {
        StepSucceedsCons(plan, t, succeeds, j);
      }
      RunSucceedsWhenEveryStepDoes(plan[1..], t', succeeds);
    }
  }

  /** Step `k` is the first step of the plan that fails. */
  predicate FirstFailureAt(plan: seq<Step>, t: seq<Event>, succeeds: seq<Event> -> bool, k: nat)
    requires k < |plan|
  {
    (forall j :: 0 <= j < k ==> StepSucceeds(plan, t, succeeds, j)) &&
    !StepSucceeds(plan, t, succeeds, k)
  }

  /** A run that reports failure stopped at the first step k that failed; it
      made the calls of steps 0..k and nothing later. */
  lemma {:induction false} RunShortCircuits(plan: seq<Step>, t: seq<Event>, succeeds: seq<Event> -> bool)
    requires !Run(plan, t, succeeds).ok
    ensures exists k :: 0 <= k < |plan| && FirstFailureAt(plan, t, succeeds, k) &&
                        Run(plan, t, succeeds).trace == t + Expected(plan[..k + 1])
    decreases |plan|
  {
    var o := Exec(plan[0], t, succeeds);
    var t' := t + Events(plan[0]);
    if !o.ok {
      assert Expected(plan[..1]) == Events(plan[0]) by {
        assert plan[..1][1..] == [];
      }
      StepZero(plan, t, succeeds);
      assert FirstFailureAt(plan, t, succeeds, 0);
    } else {
      RunShortCircuits(plan[1..], t', succeeds);
      var k :| 0 <= k < |plan| - 1 && FirstFailureAt(plan[1..], t', succeeds, k) &&
               Run(plan[1..], t', succeeds).trace == t' + Expected(plan[1..][..k + 1]);
      FirstFailureShifts(plan, t, succeeds, k);
    }
  }

  /** A run that reports success had every step succeed. */
  lemma RunOkSteps(plan: seq<Step>, t: seq<Event>, succeeds: seq<Event> -> bool)
    ensures Run(plan, t, succeeds).ok ==> forall j :: 0 <= j < |plan| ==> StepSucceeds(plan, t, succeeds, j)
  {
    if Run(plan, t, succeeds).ok {
      RunCompletes(plan, t, succeeds);
    }
  }

  /** If step k is the first step that fails, the run reports failure and made
      the calls of steps 0..k and nothing later. */
  lemma FirstFailureStops(plan: seq<Step>, t: seq<Event>, succeeds: seq<Event> -> bool, k: nat)
    requires k < |plan| && FirstFailureAt(plan, t, succeeds, k)
    ensures !Run(plan, t, succeeds).ok
    ensures Run(plan, t, succeeds).trace == t + Expected(plan[..k + 1])
  {
    RunOkSteps(plan, t, succeeds);
    assert !StepSucceeds(plan, t, succeeds, k);
    RunShortCircuits(plan, t, succeeds);
    var k' :| 0 <= k' < |plan| && FirstFailureAt(plan, t, succeeds, k') &&
              Run(plan, t, succeeds).trace == t + Expected(plan[..k' + 1]);
    assert k' == k;
  }

  /** A run only adds calls to the history, and the calls it adds are a prefix
      of the plan's calls. */
  lemma RunWithinPlan(plan: seq<Step>, t: seq<Event>, succeeds: seq<Event> -> bool)
    ensures t <= Run(plan, t, succeeds).trace <= t + Expected(plan)
  {
    var r := Run(plan, t, succeeds);
    if r.ok {
      RunCompletes(plan, t, succeeds);
      PrefixOfAppend(t, Expected(plan));
    } else {
      RunShortCircuits(plan, t, succeeds);
      var k :| 0 <= k < |plan| && FirstFailureAt(plan, t, succeeds, k) &&
               r.trace == t + Expected(plan[..k + 1]);
      StepsWithinPlan(plan, k, t);
    }
  }

  /** The calls of the first k + 1 steps are a prefix of the plan's calls. */
  lemma StepsWithinPlan(plan: seq<Step>, k: nat, t: seq<Event>)
    requires k < |plan|
    ensures t <= t + Expected(plan[..k + 1]) <= t + Expected(plan)
  {
    ExpectedSplit(plan, k);
    PrefixChain(Expected(plan), Expected(plan[..k + 1]), Expected(plan[k + 1..]), t);
  }

  lemma ExpectedSplit(plan: seq<Step>, k: nat)
    requires k < |plan|
    ensures Expected(plan) == Expected(plan[..k + 1]) + Expected(plan[k + 1..])
  {
    var done, later := plan[..k + 1], plan[k + 1..];
    assert done + later == plan;
    ExpectedAppend(done, later);
  }

  /** A failure at step k of the rest of a plan is a failure at step k + 1 of the
      plan, when the plan's first step succeeded. */
  lemma FirstFailureShifts(plan: seq<Step>, t: seq<Event>, succeeds: seq<Event> -> bool, k: nat)
    requires 0 < |plan| && k + 1 < |plan| && Exec(plan[0], t, succeeds).ok
    requires FirstFailureAt(plan[1..], t + Events(plan[0]), succeeds, k)
    ensures FirstFailureAt(plan, t, succeeds, k + 1)
    ensures t + Events(plan[0]) + Expected(plan[1..][..k + 1]) == t + Expected(plan[..k + 2])
  {
    forall j | 0 <= j < k + 1 ensures StepSucceeds(plan, t, succeeds, j) {
      if j > 0 {
        StepSucceedsCons(plan, t, succeeds, j - 1);
      } else {
        StepZero(plan, t, succeeds);
      }
    }
    StepSucceedsCons(plan, t, succeeds, k);
    ExpectedCons(plan, k + 1);
  }

  /** A step whose checked call is not a register transaction. */
  predicate FramesItsTransactions(s: Step)
  {
    s.Checked? ==> !IsTransaction(s.call)
  }

  /** Running a plan whose checked calls are not transactions keeps the trace
      framed, on success and on failure alike. */
  lemma {:induction false} RunPreservesFraming(plan: seq<Step>, t: seq<Event>, succeeds: seq<Event> -> bool)
    requires Framed(t)
    requires forall j :: 0 <= j < |plan| ==> FramesItsTransactions(plan[j])
    ensures Framed(Run(plan, t, succeeds).trace)
    decreases |plan|
  {
    if plan != [] {
      var s := plan[0];
      assert FramesItsTransactions(s);
      match s {
        case Checked(e) => FramedAppendCall(t, e);
        case RegisterWrite(r, v) =>
          FramedTransaction(t, [], SpiWriteByte(WriteAddress(r), v));
          assert [CsLow] + [] + [SpiWriteByte(WriteAddress(r), v), CsHigh] == Events(s);
        case Settle(us) => FramedAppendCall(t, USleep(us));
      }
      var o := Exec(s, t, succeeds);
      if o.ok {
        assert forall j :: 0 <= j < |plan| - 1 ==> plan[1..][j] == plan[j + 1];
        RunPreservesFraming(plan[1..], o.trace, succeeds);
      }
    }
  }

  /** The address/value pairs of the register writes in a trace, in order. */
  function Writes(t: seq<Event>): (w: seq<(byte, byte)>)
  {
    if t == [] then []
    else (if t[0].SpiWriteByte? then [(t[0].addr, t[0].value)] else []) + Writes(t[1..])
  }

  /** The address/value pair a step writes, if it is a register write. */
  function StepWrites(s: Step): (w: seq<(byte, byte)>)
  {
    if s.RegisterWrite? then [(WriteAddress(s.reg), s.value)] else []
  }

  /** The address/value pairs a plan writes, read off its steps. */
  function PlanWrites(plan: seq<Step>): (w: seq<(byte, byte)>)
  {
    if plan == [] then [] else StepWrites(plan[0]) + PlanWrites(plan[1..])
  }

  lemma {:induction false} WritesAppend(a: seq<Event>, b: seq<Event>)
    ensures Writes(a + b) == Writes(a) + Writes(b)
    decreases |a|
  {
    if a == [] {
      assert a + b == b;
    } else {
      var w := if a[0].SpiWriteByte? then [(a[0].addr, a[0].value)] else [];
      assert (a + b)[0] == a[0];
      assert (a + b)[1..] == a[1..] + b;
      WritesAppend(a[1..], b);
      calc {
        Writes(a + b);
        w + Writes(a[1..] + b);
        w + (Writes(a[1..]) + Writes(b));
        (w + Writes(a[1..])) + Writes(b);
      }
    }
  }

  /** The writes in the calls of a plan are the writes its steps name. */
  lemma {:induction false} WritesOfPlan(plan: seq<Step>)
    requires forall j :: 0 <= j < |plan| ==> FramesItsTransactions(plan[j])
    ensures Writes(Expected(plan)) == PlanWrites(plan)
    decreases |plan|
  {
    if plan != [] {
      var s := plan[0];
      assert FramesItsTransactions(s);
      assert forall j :: 0 <= j < |plan| - 1 ==> plan[1..][j] == plan[j + 1];
      WritesOfPlan(plan[1..]);
      WritesAppend(Events(s), Expected(plan[1..]));
      StepEventsWrites(s);
    }
  }

  /** The writes among a step's calls are the write the step names. */
  lemma StepEventsWrites(s: Step)
    requires FramesItsTransactions(s)
    ensures Writes(Events(s)) == StepWrites(s)
  {
    match s {
      case Checked(e) =>
        assert Writes([e]) == [] + Writes([]);
      case RegisterWrite(r, v) =>
        var ev := [CsLow, SpiWriteByte(WriteAddress(r), v), CsHigh];
        assert ev[1..] == [SpiWriteByte(WriteAddress(r), v), CsHigh];
        assert ev[1..][1..] == [CsHigh];
        assert Writes([CsHigh]) == [] + Writes([]);
        assert Writes(ev[1..]) == [(WriteAddress(r), v)] + Writes([CsHigh]);
        assert Writes(ev) == [] + Writes(ev[1..]);
      case Settle(us) =>
        assert Writes([USleep(us)]) == [] + Writes([]);
    }
  }

  lemma {:induction false} PlanWritesAppend(p: seq<Step>, q: seq<Step>)
    ensures PlanWrites(p + q) == PlanWrites(p) + PlanWrites(q)
    decreases |p|
  {
    if p == [] {
      assert p + q == q;
    } else {
      assert (p + q)[0] == p[0];
      assert (p + q)[1..] == p[1..] + q;
      PlanWritesAppend(p[1..], q);
      calc {
        PlanWrites(p + q);
        StepWrites(p[0]) + PlanWrites(p[1..] + q);
        StepWrites(p[0]) + (PlanWrites(p[1..]) + PlanWrites(q));
        (StepWrites(p[0]) + PlanWrites(p[1..])) + PlanWrites(q);
      }
    }
  }

  /** The writes of a four-step phase, step by step. */
  lemma PlanWritesOfFour(a: Step, b: Step, c: Step, d: Step)
    ensures PlanWrites([a, b, c, d]) == StepWrites(a) + (StepWrites(b) + (StepWrites(c) + StepWrites(d)))
  {
    var p := [a, b, c, d];
    assert p[1..] == [b, c, d];
    assert [b, c, d][1..] == [c, d];
    assert [c, d][1..] == [d];
    assert [d][1..] == [];
    assert PlanWrites([d]) == StepWrites(d);
    assert PlanWrites([c, d]) == StepWrites(c) + StepWrites(d);
    assert PlanWrites([b, c, d]) == StepWrites(b) + (StepWrites(c) + StepWrites(d));
  }

  /** No step of the initialisation plan is a bare transaction. */
  lemma InitPlanSteps()
    ensures forall j :: 0 <= j < |InitPlan| ==> FramesItsTransactions(InitPlan[j])
  {
  }

  lemma {:induction false} ExpectedAppend(p: seq<Step>, q: seq<Step>)
    ensures Expected(p + q) == Expected(p) + Expected(q)
    decreases |p|
  {
    if p == [] {
      assert p + q == q;
    } else {
      assert (p + q)[0] == p[0];
      assert (p + q)[1..] == p[1..] + q;
      ExpectedAppend(p[1..], q);
      calc {
        Expected(p + q);
        Events(p[0]) + Expected(p[1..] + q);
        Events(p[0]) + (Expected(p[1..]) + Expected(q));
        (Events(p[0]) + Expected(p[1..])) + Expected(q);
      }
    }
  }

  /** The calls of a four-step phase, step by step. */
  lemma ExpectedOfFour(a: Step, b: Step, c: Step, d: Step)
    ensures Expected([a, b, c, d]) == Events(a) + (Events(b) + (Events(c) + Events(d)))
  {
    assert [a, b, c, d][1..] == [b, c, d];
    assert [b, c, d][1..] == [c, d];
    assert [c, d][1..] == [d];
    assert [d][1..] == [];
    assert Expected([d]) == Events(d);
    assert Expected([c, d]) == Events(c) + Events(d);
    assert Expected([b, c, d]) == Events(b) + (Events(c) + Events(d));
  }

  /** The calls of the setup phase (icm20608.c:106-127): the four checked setup calls; no register write. */
  lemma SetupPhaseCalls()
    ensures Expected(SetupPlan) ==
      [SpiOpen("/dev/spidev2.0", Mode0, 8000000, 8), GpioExport(20),
       GpioSetDirection(20, Out), GpioSetValue(20, Low)]
  {
    SetupSteps();
    ExpectedOfFour(SetupPlan[0], SetupPlan[1], SetupPlan[2], SetupPlan[3]);
  }

  /** The register writes of the setup phase. */
  lemma SetupPhaseWrites()
    ensures PlanWrites(SetupPlan) == []
  {
    SetupSteps();
    PlanWritesOfFour(SetupPlan[0], SetupPlan[1], SetupPlan[2], SetupPlan[3]);
  }

  /** The calls of the reset phase (icm20608.c:130-153): reset, settle, clock source, settle. */
  lemma ResetPhaseCalls()
    ensures Expected(ResetPlan) ==
      [CsLow, SpiWriteByte(0x6B, 0x80), CsHigh, USleep(50000),
       CsLow, SpiWriteByte(0x6B, 0x01), CsHigh, USleep(50000)]
  {
    ResetSteps();
    ExpectedOfFour(ResetPlan[0], ResetPlan[1], ResetPlan[2], ResetPlan[3]);
  }

  /** The register writes of the reset phase. */
  lemma ResetPhaseWrites()
    ensures PlanWrites(ResetPlan) == [(0x6B, 0x80), (0x6B, 0x01)]
  {
    ResetSteps();
    PlanWritesOfFour(ResetPlan[0], ResetPlan[1], ResetPlan[2], ResetPlan[3]);
  }

  /** The calls of the range phase (icm20608.c:155-193): sample rate, ranges, gyroscope filter. */
  lemma RangePhaseCalls()
    ensures Expected(RangePlan) ==
      [CsLow, SpiWriteByte(0x19, 0x00), CsHigh, CsLow, SpiWriteByte(0x1B, 0x18), CsHigh,
       CsLow, SpiWriteByte(0x1C, 0x18), CsHigh, CsLow, SpiWriteByte(0x1A, 0x04), CsHigh]
  {
    RangeSteps();
    ExpectedOfFour(RangePlan[0], RangePlan[1], RangePlan[2], RangePlan[3]);
  }

  /** The register writes of the range phase. */
  lemma RangePhaseWrites()
    ensures PlanWrites(RangePlan) == [(0x19, 0x00), (0x1B, 0x18), (0x1C, 0x18), (0x1A, 0x04)]
  {
    RangeSteps();
    PlanWritesOfFour(RangePlan[0], RangePlan[1], RangePlan[2], RangePlan[3]);
  }

  /** The calls of the mode phase (icm20608.c:195-233): accelerometer filter, power, low-power and FIFO modes. */
  lemma ModePhaseCalls()
    ensures Expected(ModePlan) ==
      [CsLow, SpiWriteByte(0x1D, 0x04), CsHigh, CsLow, SpiWriteByte(0x6C, 0x00), CsHigh,
       CsLow, SpiWriteByte(0x1E, 0x00), CsHigh, CsLow, SpiWriteByte(0x23, 0x00), CsHigh]
  {
    ModeSteps();
    ExpectedOfFour(ModePlan[0], ModePlan[1], ModePlan[2], ModePlan[3]);
  }

  /** The register writes of the mode phase. */
  lemma ModePhaseWrites()
    ensures PlanWrites(ModePlan) == [(0x1D, 0x04), (0x6C, 0x00), (0x1E, 0x00), (0x23, 0x00)]
  {
    ModeSteps();
    PlanWritesOfFour(ModePlan[0], ModePlan[1], ModePlan[2], ModePlan[3]);
  }

  /** The calls of the initialisation plan, literally, phase by phase: setup,
      then ten framed writes, the first two followed by a 50 ms delay. */
  lemma InitPlanCalls()
    ensures Expected(InitPlan) ==
      [SpiOpen("/dev/spidev2.0", Mode0, 8000000, 8), GpioExport(20),
       GpioSetDirection(20, Out), GpioSetValue(20, Low)] +
      [CsLow, SpiWriteByte(0x6B, 0x80), CsHigh, USleep(50000),
       CsLow, SpiWriteByte(0x6B, 0x01), CsHigh, USleep(50000)] +
      [CsLow, SpiWriteByte(0x19, 0x00), CsHigh, CsLow, SpiWriteByte(0x1B, 0x18), CsHigh,
       CsLow, SpiWriteByte(0x1C, 0x18), CsHigh, CsLow, SpiWriteByte(0x1A, 0x04), CsHigh] +
      [CsLow, SpiWriteByte(0x1D, 0x04), CsHigh, CsLow, SpiWriteByte(0x6C, 0x00), CsHigh,
       CsLow, SpiWriteByte(0x1E, 0x00), CsHigh, CsLow, SpiWriteByte(0x23, 0x00), CsHigh]
  {
    InitPlanPhases();
    SetupPhaseCalls(); ResetPhaseCalls(); RangePhaseCalls(); ModePhaseCalls();
    ExpectedAppend(SetupPlan + ResetPlan + RangePlan, ModePlan);
    ExpectedAppend(SetupPlan + ResetPlan, RangePlan);
    ExpectedAppend(SetupPlan, ResetPlan);
  }

  /** The register writes of the initialisation, in order. */
  lemma InitWriteOrder()
    ensures Writes(Expected(InitPlan)) == [
      (0x6B, 0x80), (0x6B, 0x01), (0x19, 0x00), (0x1B, 0x18), (0x1C, 0x18),
      (0x1A, 0x04), (0x1D, 0x04), (0x6C, 0x00), (0x1E, 0x00), (0x23, 0x00)]
  {
    InitPlanSteps();
    WritesOfPlan(InitPlan);
    InitPlanWrites();
  }

  /** The register writes the initialisation plan names, in order, phase by phase. */
  lemma InitPlanWrites()
    ensures PlanWrites(InitPlan) == [
      (0x6B, 0x80), (0x6B, 0x01), (0x19, 0x00), (0x1B, 0x18), (0x1C, 0x18),
      (0x1A, 0x04), (0x1D, 0x04), (0x6C, 0x00), (0x1E, 0x00), (0x23, 0x00)]
  {
    var a, b, c, d := SetupPlan, ResetPlan, RangePlan, ModePlan;
    calc {
      PlanWrites(InitPlan);
    == { InitPlanPhases(); }
      PlanWrites(a + b + c + d);
    == { PlanWritesAppend(a + b + c, d); }
      PlanWrites(a + b + c) + PlanWrites(d);
    == { PlanWritesAppend(a + b, c); }
      PlanWrites(a + b) + PlanWrites(c) + PlanWrites(d);
    == { PlanWritesAppend(a, b); }
      PlanWrites(a) + PlanWrites(b) + PlanWrites(c) + PlanWrites(d);
    == { SetupPhaseWrites(); ResetPhaseWrites(); RangePhaseWrites(); ModePhaseWrites(); }
      [] + [(0x6B, 0x80), (0x6B, 0x01)] +
      [(0x19, 0x00), (0x1B, 0x18), (0x1C, 0x18), (0x1A, 0x04)] +
      [(0x1D, 0x04), (0x6C, 0x00), (0x1E, 0x00), (0x23, 0x00)];
    == { FlattenWrites(); }
      [(0x6B, 0x80), (0x6B, 0x01), (0x19, 0x00), (0x1B, 0x18), (0x1C, 0x18),
       (0x1A, 0x04), (0x1D, 0x04), (0x6C, 0x00), (0x1E, 0x00), (0x23, 0x00)];
    }
  }

  lemma FlattenWrites()
    ensures [] + [(0x6B, 0x80), (0x6B, 0x01)] +
            [(0x19, 0x00), (0x1B, 0x18), (0x1C, 0x18), (0x1A, 0x04)] +
            [(0x1D, 0x04), (0x6C, 0x00), (0x1E, 0x00), (0x23, 0x00)] == [
      (0x6B, 0x80), (0x6B, 0x01), (0x19, 0x00), (0x1B, 0x18), (0x1C, 0x18),
      (0x1A, 0x04), (0x1D, 0x04), (0x6C, 0x00), (0x1E, 0x00), (0x23, 0x00)]
  {
  }

  /** Every register of the plan is below 0x80, so each write address is the register itself. */
  lemma InitWritesKeepRegister(j: nat)
    requires j < |InitPlan| && InitPlan[j].RegisterWrite?
    ensures InitPlan[j].reg < 0x80 && WriteAddress(InitPlan[j].reg) == InitPlan[j].reg
  {
  }

  /** A successful initialisation made exactly the calls of the plan. */
  lemma InitSuccess(t: seq<Event>, succeeds: seq<Event> -> bool)
    requires Run(InitPlan, t, succeeds).ok
    ensures Run(InitPlan, t, succeeds).trace == t + Expected(InitPlan)
    ensures Writes(Run(InitPlan, t, succeeds).trace) == Writes(t) + [
      (0x6B, 0x80), (0x6B, 0x01), (0x19, 0x00), (0x1B, 0x18), (0x1C, 0x18),
      (0x1A, 0x04), (0x1D, 0x04), (0x6C, 0x00), (0x1E, 0x00), (0x23, 0x00)]
  {
    RunCompletes(InitPlan, t, succeeds);
    WritesAppend(t, Expected(InitPlan));
    InitWriteOrder();
  }

  /** A plan made of checked non-transaction calls writes nothing. */
  lemma {:induction false} CheckedPlanWritesNothing(plan: seq<Step>)
    requires forall j :: 0 <= j < |plan| ==> plan[j].Checked?
    ensures PlanWrites(plan) == []
    decreases |plan|
  {
    if plan != [] {
      assert forall j :: 0 <= j < |plan| - 1 ==> plan[1..][j] == plan[j + 1];
      CheckedPlanWritesNothing(plan[1..]);
    }
  }

  /** The setup phase is made of checked calls that are not transactions. */
  lemma SetupPlanChecked()
    ensures |SetupPlan| == 4
    ensures forall j :: 0 <= j < 4 ==> SetupPlan[j].Checked? && FramesItsTransactions(SetupPlan[j])
  {
    SetupSteps();
  }

  /** A failure of spi_open, gpio_export, gpio_set_direction or gpio_set_value
      ends the initialisation before any register write. */
  lemma SetupFailureWritesNothing(t: seq<Event>, succeeds: seq<Event> -> bool)
    requires !(forall j :: 0 <= j < 4 ==> StepSucceeds(InitPlan, t, succeeds, j))
    ensures !Run(InitPlan, t, succeeds).ok
    ensures Writes(Run(InitPlan, t, succeeds).trace) == Writes(t)
  {
    RunOkSteps(InitPlan, t, succeeds);
    assert !Run(InitPlan, t, succeeds).ok;
    RunShortCircuits(InitPlan, t, succeeds);
    var k :| 0 <= k < |InitPlan| && FirstFailureAt(InitPlan, t, succeeds, k) &&
             Run(InitPlan, t, succeeds).trace == t + Expected(InitPlan[..k + 1]);
    var j0 :| 0 <= j0 < 4 && !StepSucceeds(InitPlan, t, succeeds, j0);
    assert k <= j0;
    var done := InitPlan[..k + 1];
    SetupPlanChecked();
    forall j | 0 <= j < |done|
      ensures done[j].Checked? && FramesItsTransactions(done[j])
    {
      assert done[j] == SetupPlan[j];
    }
    WritesOfPlan(done);
    CheckedPlanWritesNothing(done);
    WritesAppend(t, Expected(done));
  }

  /** Initialisation keeps the trace framed whether it succeeds or fails. */
  lemma InitPreservesFraming(t: seq<Event>, succeeds: seq<Event> -> bool)
    requires Framed(t)
    ensures Framed(Run(InitPlan, t, succeeds).trace)
  {
    InitPlanSteps();
    RunPreservesFraming(InitPlan, t, succeeds);
  }
}
