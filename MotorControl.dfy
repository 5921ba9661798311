/** The motor controller: commanded speed, run flag and duty cycle, and the
    operations that update them and drive the three phase outputs.

    The step functions below describe each operation on a value of the
    controller state; the class Motor performs the same operations in place
    and is proved against them. */
module MotorControl {
  import opened Commutation

  /** MOTOR_MAX_RPM */
  const MaxRpm: nat := 5000
  /** PWM_RANGE: the largest duty a phase output accepts. */
  const PwmRange: nat := 1024
  /** Largest value of the C `int` the duty product is computed in. */
  const Int32Max: nat := 0x7FFF_FFFF

  /** C `uint16_t`: the type of the speed argument and of the speed and duty fields. */
  type u16 = x: int | 0 <= x < 0x1_0000

  /** The commanded speed: over-range requests are capped at the maximum,
      never rejected. The contract characterises the minimum of rpm and MaxRpm. */
  function ClampSpeed(rpm: u16): (r: u16)
    ensures r <= MaxRpm && r <= rpm
    ensures r == rpm || r == MaxRpm
  {
    if rpm > MaxRpm then MaxRpm else rpm
  }

  /** Duty for a commanded speed: rpm * PwmRange / MaxRpm, computed in C `int`
      and truncated. The product never overflows, and the contract pins the
      result down as the truncated quotient. */
  function Duty(rpm: u16): (d: u16)
    ensures rpm * PwmRange <= Int32Max
    ensures d * MaxRpm <= rpm * PwmRange < (d + 1) * MaxRpm
    ensures rpm <= MaxRpm ==> d <= PwmRange
  {
    (rpm * PwmRange) / MaxRpm
  }

  /** The values last written to the three phase outputs. */
  datatype Phases = Phases(a: nat, b: nat, c: nat)

  const Deenergised := Phases(0, 0, 0)

  /** Phase outputs for a pattern: the duty on each enabled phase, 0 elsewhere. */
  function Drive(p: Pattern, duty: nat): Phases {
    Phases(if p.a then duty else 0, if p.b then duty else 0, if p.c then duty else 0)
  }

  /** The whole observable state of the controller. */
  datatype Controller = Controller(speed: u16, running: bool, duty: u16, out: Phases)

  /** The state before any call: the static fields start at zero and the
      phase outputs are created with value 0. */
  const PowerOn := Controller(0, false, 0, Deenergised)

  /** updateCommutation: nothing when stopped; otherwise the pattern for the
      current Hall code, driven with the current duty. */
  function Commutate(s: Controller, h: HallLevels): (r: Controller)
    ensures r.speed == s.speed && r.duty == s.duty && r.running == s.running
    ensures Consistent(s) ==> Consistent(r)
  {
    if !s.running then s
    else s.(out := Drive(CommutationTable[HallCode(h)], s.duty))
  }

  /** motorSetSpeed: clamp, derive the duty, and recommutate when running. */
  function SetSpeedStep(s: Controller, rpm: u16, h: HallLevels): (r: Controller)
    ensures r.speed == ClampSpeed(rpm) && r.duty == Duty(r.speed) && r.duty <= PwmRange
    ensures r.running == s.running
    ensures Consistent(s) ==> Consistent(r)
  {
    var speed := ClampSpeed(rpm);
    var s' := s.(speed := speed, duty := Duty(speed));
    if s'.running then Commutate(s', h) else s'
  }

  /** motorStop: clear the run flag and write 0 to every phase. */
  function StopStep(s: Controller): (r: Controller)
    ensures !r.running && r.out == Deenergised
    ensures r.speed == s.speed && r.duty == s.duty
    ensures Consistent(s) ==> Consistent(r)
  {
    s.(running := false, out := Deenergised)
  }

  /** motorStart: set the run flag, then commutate once. */
  function StartStep(s: Controller, h: HallLevels): (r: Controller)
    ensures r.running && r.speed == s.speed && r.duty == s.duty
    ensures Consistent(s) ==> Consistent(r)
  {
    Commutate(s.(running := true), h)
  }

  /** A phase output is either off or the current duty. */
  predicate OffOrDuty(v: nat, duty: nat) {
    v == 0 || v == duty
  }

  /** The state invariant: the speed is within range, the duty is always the
      function of the speed, a stopped motor has every phase at 0, and a phase
      never carries anything but 0 or the current duty. */
  predicate Consistent(s: Controller) {
    && s.speed <= MaxRpm
    && s.duty == Duty(s.speed)
    && (!s.running ==> s.out == Deenergised)
    && OffOrDuty(s.out.a, s.duty) && OffOrDuty(s.out.b, s.duty) && OffOrDuty(s.out.c, s.duty)
  }

  /** The sensor level digitalRead reports, as a byte. */
  function Level(high: bool): bv8 {
    if high then 1 else 0
  }

  /** The controller. Its fields are the module-level state of the C code;
      phaseA, phaseB and phaseC stand for the last value written to each
      phase's PWM output. Hall sensor readings are passed in where the code
      samples them. */
  class Motor {
    var currentSpeed: u16
    var isRunning: bool
    var pwmDutyCycle: u16
    var phaseA: nat
    var phaseB: nat
    var phaseC: nat

    ghost function State(): Controller
      reads this
    {
      Controller(currentSpeed, isRunning, pwmDutyCycle, Phases(phaseA, phaseB, phaseC))
    }

    ghost predicate Valid()
      reads this
    {
      Consistent(State())
    }

    constructor ()
      ensures State() == PowerOn
      ensures Valid()
    {
      currentSpeed, isRunning, pwmDutyCycle := 0, false, 0;
      phaseA, phaseB, phaseC := 0, 0, 0;
    }

    /** motorInit, of which only the closing stop has an effect on the state. */
    method Init()
      requires Valid()
      modifies this`isRunning, this`phaseA, this`phaseB, this`phaseC
      ensures Valid()
      ensures State() == StopStep(old(State()))
    {
      Stop();
    }

    method SetSpeed(rpm: u16, h: HallLevels)
      requires Valid()
      modifies this`currentSpeed, this`pwmDutyCycle, this`phaseA, this`phaseB, this`phaseC
      ensures Valid()
      ensures State() == SetSpeedStep(old(State()), rpm, h)
      ensures currentSpeed == ClampSpeed(rpm) && isRunning == old(isRunning)
    {
      var speed := rpm;
      if speed > MaxRpm {
        speed := MaxRpm;
      }
      currentSpeed := speed;
      pwmDutyCycle := (speed * PwmRange) / MaxRpm;
      if isRunning {
        UpdateCommutation(h);
      }
    }

    method Stop()
      modifies this`isRunning, this`phaseA, this`phaseB, this`phaseC
      ensures old(Valid()) ==> Valid()
      ensures State() == StopStep(old(State()))
    {
      isRunning := false;
      phaseA := 0;
      phaseB := 0;
      phaseC := 0;
    }

    method Start(h: HallLevels)
      requires Valid()
      modifies this`isRunning, this`phaseA, this`phaseB, this`phaseC
      ensures Valid()
      ensures State() == StartStep(old(State()), h)
    {
      isRunning := true;
      UpdateCommutation(h);
    }

    method GetSpeed() returns (rpm: u16)
      requires Valid()
      ensures rpm == currentSpeed && rpm <= MaxRpm
    {
      rpm := currentSpeed;
    }

    /** updateCommutation. It writes only the phase outputs, which its frame
        states. */
    method UpdateCommutation(h: HallLevels)
      modifies this`phaseA, this`phaseB, this`phaseC
      ensures old(Valid()) ==> Valid()
      ensures State() == Commutate(old(State()), h)
    {
      if !isRunning {
        return;
      }
      var hallState: bv8 := 0;
      hallState := hallState | (Level(h.a) << 2);
      hallState := hallState | (Level(h.b) << 1);
      hallState := hallState | Level(h.c);
      assert hallState as int == HallCode(h);
      var pattern := CommutationTable[hallState as int];
      phaseA := if pattern.a then pwmDutyCycle else 0;
      phaseB := if pattern.b then pwmDutyCycle else 0;
      phaseC := if pattern.c then pwmDutyCycle else 0;
    }
  }
}
