/** Properties of the controller: what each operation does to the state and
    the phase outputs, the invariant every sequence of calls keeps, and the
    worked examples. */
module MotorProperties {
  import opened Commutation
  import opened MotorControl

  /** One call into the controller's public interface, with the Hall levels
      it would sample. */
  datatype Command =
    | SetSpeedCmd(rpm: u16, hall: HallLevels)
    | StartCmd(hall: HallLevels)
    | StopCmd
    | UpdateCmd(hall: HallLevels)

  function Apply(s: Controller, cmd: Command): Controller {
    match cmd
    case SetSpeedCmd(rpm, h) => SetSpeedStep(s, rpm, h)
    case StartCmd(h) => StartStep(s, h)
    case StopCmd => StopStep(s)
    case UpdateCmd(h) => Commutate(s, h)
  }

  function Run(s: Controller, cmds: seq<Command>): Controller
    decreases |cmds|
  {
    if cmds == [] then s else Run(Apply(s, cmds[0]), cmds[1..])
  }

  // ---- the duty formula ----

  /** The worked duty values: half speed gives half range, 1000 rpm gives 204
      after truncation, full speed gives the full range. */
  lemma DutyExamples()
    ensures Duty(0) == 0 && Duty(2500) == 512 && Duty(1000) == 204 && Duty(MaxRpm) == PwmRange
  {
  }

  /** A higher commanded speed never gives a lower duty. */
  lemma DutyMonotonic(x: u16, y: u16)
    requires x <= y
    ensures Duty(x) <= Duty(y)
  {
  }

  // ---- motorSetSpeed ----

  /** After setSpeed the speed getSpeed reports is min(rpm, MaxRpm), the duty
      is that speed's duty, and the run flag is untouched. */
  lemma SetSpeedCapsSpeed(s: Controller, rpm: u16, h: HallLevels)
    ensures SetSpeedStep(s, rpm, h).speed == (if rpm <= MaxRpm then rpm else MaxRpm)
    ensures SetSpeedStep(s, rpm, h).duty == Duty(SetSpeedStep(s, rpm, h).speed)
    ensures SetSpeedStep(s, rpm, h).running == s.running
  {
  }

  /** When stopped, setSpeed leaves the phase outputs as they were. */
  lemma SetSpeedWhileStopped(s: Controller, rpm: u16, h: HallLevels)
    requires !s.running
    ensures SetSpeedStep(s, rpm, h).out == s.out
  {
  }

  /** When running, setSpeed reapplies the pattern at once with the new duty. */
  lemma SetSpeedWhileRunning(s: Controller, rpm: u16, h: HallLevels)
    requires s.running
    ensures SetSpeedStep(s, rpm, h).out == Drive(CommutationTable[HallCode(h)], Duty(ClampSpeed(rpm)))
  {
  }

  // ---- motorStop and motorStart ----

  /** Stop from any state clears the run flag and writes 0 to every phase,
      keeping the speed and the duty. */
  lemma StopDeenergises(s: Controller)
    ensures !StopStep(s).running && StopStep(s).out == Deenergised
    ensures StopStep(s).speed == s.speed && StopStep(s).duty == s.duty
  {
  }

  /** Start sets the run flag and drives the current pattern with the current duty. */
  lemma StartCommutates(s: Controller, h: HallLevels)
    ensures StartStep(s, h).running
    ensures StartStep(s, h).out == Drive(CommutationTable[HallCode(h)], s.duty)
    ensures StartStep(s, h).speed == s.speed && StartStep(s, h).duty == s.duty
  {
  }

  /** Starting straight after initialisation, before any speed is set, runs
      the motor with duty 0 on every phase. */
  lemma StartBeforeSetSpeedDrivesZero(h: HallLevels)
    ensures StartStep(StopStep(PowerOn), h).running
    ensures StartStep(StopStep(PowerOn), h).out == Deenergised
  {
  }

  // ---- updateCommutation ----

  /** Stopped, updateCommutation changes nothing. */
  lemma CommutateWhenStopped(s: Controller, h: HallLevels)
    requires !s.running
    ensures Commutate(s, h) == s
  {
  }

  /** Running, each phase gets the duty when its pattern bit for the code
      4A + 2B + C is set and 0 otherwise; speed, duty and run flag stay. */
  lemma CommutateWhenRunning(s: Controller, h: HallLevels)
    requires s.running
    ensures var p := CommutationTable[4 * Bit(h.a) + 2 * Bit(h.b) + Bit(h.c)];
            Commutate(s, h).out == Phases(if p.a then s.duty else 0, if p.b then s.duty else 0, if p.c then s.duty else 0)
    ensures Commutate(s, h).speed == s.speed && Commutate(s, h).duty == s.duty
    ensures Commutate(s, h).running
  {
  }

  /** An invalid code (0 or 7) de-energises every phase yet the controller
      stays in the running state. */
  lemma InvalidCodeKeepsRunning(s: Controller, h: HallLevels)
    requires s.running && !IsValidCode(HallCode(h))
    ensures Commutate(s, h).running && Commutate(s, h).out == Deenergised
  {
  }

  /** Code 3 (B and C high) drives phases A and B; code 5 (A and C high)
      drives phases A and C. */
  lemma CommutateCodes3And5(s: Controller)
    requires s.running
    ensures Commutate(s, HallLevels(false, true, true)).out == Phases(s.duty, s.duty, 0)
    ensures Commutate(s, HallLevels(true, false, true)).out == Phases(s.duty, 0, s.duty)
  {
  }

  /** Repeating updateCommutation with the same inputs gives the same state. */
  lemma CommutateIdempotent(s: Controller, h: HallLevels)
    ensures Commutate(Commutate(s, h), h) == Commutate(s, h)
  {
  }

  // ---- the state invariant ----

  lemma PowerOnConsistent()
    ensures Consistent(PowerOn)
  {
  }

  /** Every single call keeps the invariant. */
  lemma ApplyKeepsConsistent(s: Controller, cmd: Command)
    requires Consistent(s)
    ensures Consistent(Apply(s, cmd))
  {
  }

  /** Every sequence of calls keeps the invariant. */
  lemma {:induction false} RunKeepsConsistent(s: Controller, cmds: seq<Command>)
    requires Consistent(s)
    ensures Consistent(Run(s, cmds))
    decreases |cmds|
  {
    if cmds != [] {
      ApplyKeepsConsistent(s, cmds[0]);
      RunKeepsConsistent(Apply(s, cmds[0]), cmds[1..]);
    }
  }

  /** In every reachable state the duty is the function of the speed, a
      stopped motor is fully de-energised, and no phase is driven above
      PwmRange. */
  lemma {:induction false} ReachableStatesSafe(cmds: seq<Command>)
    ensures var s := Run(PowerOn, cmds);
            && s.speed <= MaxRpm && s.duty == Duty(s.speed)
            && (!s.running ==> s.out == Deenergised)
            && s.out.a <= PwmRange && s.out.b <= PwmRange && s.out.c <= PwmRange
  {
    PowerOnConsistent();
    RunKeepsConsistent(PowerOn, cmds);
  }

  /** Running a sequence and then one more call is applying that call to
      the state the sequence left. */
  lemma {:induction false} RunAppend(s: Controller, cmds: seq<Command>, cmd: Command)
    ensures Run(s, cmds + [cmd]) == Apply(Run(s, cmds), cmd)
    decreases |cmds|
  {
    if cmds == [] {
      assert Run(s, [cmd]) == Run(Apply(s, cmd), []);
    } else {
      assert (cmds + [cmd])[1..] == cmds[1..] + [cmd];
      RunAppend(Apply(s, cmds[0]), cmds[1..], cmd);
    }
  }

  /** Whatever came before, a stop leaves the motor de-energised. */
  lemma StopAfterAnyRun(s: Controller, cmds: seq<Command>)
    ensures Run(s, cmds + [StopCmd]).out == Deenergised && !Run(s, cmds + [StopCmd]).running
  {
    RunAppend(s, cmds, StopCmd);
  }

  // ---- the controller object, driven as a caller would ----

  /** init, setSpeed(1000), start with Hall code 5: phases A and C at duty
      204, phase B at 0. */
  method ScenarioSetSpeedThenStart() returns (a: nat, b: nat, c: nat, running: bool)
    ensures a == 204 && b == 0 && c == 204 && running
  {
    var m := new Motor();
    m.Init();
    m.SetSpeed(1000, HallLevels(false, false, false));
    m.Start(HallLevels(true, false, true));
    a, b, c, running := m.phaseA, m.phaseB, m.phaseC, m.isRunning;
  }

  /** An over-range request is capped; a later stop de-energises the motor
      and the speed is still reported. */
  method ScenarioOverRangeThenStop() returns (speed: u16, a: nat, b: nat, c: nat)
    ensures speed == MaxRpm && a == 0 && b == 0 && c == 0
  {
    var m := new Motor();
    m.Init();
    m.Start(HallLevels(false, true, true));
    m.SetSpeed(60000, HallLevels(false, true, true));
    m.Stop();
    speed := m.GetSpeed();
    a, b, c := m.phaseA, m.phaseB, m.phaseC;
  }
}
