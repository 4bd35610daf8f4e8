/** The control tick of the ESP-IDF prototype
    (test_codes/src/system_code_test_1.c).

    The `static system_state` record (zero-initialised) and the output pins
    the tick drives are updated by four handlers: the sensor read, the motor
    control, the emergency check (the three run in that order inside
    `system_task` while the system is active and not latched), the RFID
    callback and the mode-button interrupt. Pin levels are booleans
    (true = high); the ADC reading is a `uint32_t`. The floating-point
    battery voltage and speed estimate are not part of this model. */
module ControlTick {
  import opened CTypes

  /** `1 << PWM_RESOLUTION` for the 10-bit LEDC timer. */
  const PWM_STEPS: int := 1024
  /** Full scale of the 12-bit ADC as the source divides by it. */
  const ADC_FULL_SCALE: int := 4095

  /** `system_state` (integer fields) and the output pins the tick drives. */
  datatype Tick = Tick(
    systemActive: bool,
    emergencyStop: bool,
    assistanceLevel: uint8,
    bikeMode: bool,          // false = manual, true = auto
    leftRadar: bool,
    rightRadar: bool,
    direction: uint8,        // 0 = left, 1 = center, 2 = right
    leftLight: bool,         // LEFT_LIGHT_GPIO
    rightLight: bool,        // RIGHT_LIGHT_GPIO
    motorEnable: bool,       // MOTOR_ENABLE_GPIO
    motorDir: bool,          // MOTOR_DIR_GPIO
    duty: int)               // LEDC channel 0 duty

  /** What one tick samples: GPIO levels and the raw potentiometer code. */
  datatype Inputs = Inputs(
    leftRadar: bool, rightRadar: bool,
    switch1: bool, switch2: bool, switch3: bool,
    potRaw: uint32,
    emergencyLevel: bool)

  /** `{0}` for the record; outputs low and duty 0 after configuration. */
  function Initial(): Tick
  {
    Tick(false, false, 0, false, false, false, 0, false, false, false, false, 0)
  }

  /** `(uint8_t)((pot_value * 100) / 4095)` in `uint32_t` arithmetic. */
  function AssistanceLevel(raw: uint32): (r: uint8)
    ensures raw <= ADC_FULL_SCALE ==> r == raw * 100 / ADC_FULL_SCALE && r <= 100
    ensures raw == ADC_FULL_SCALE ==> r == 100
    ensures raw < 41 ==> r == 0
  {
    ToUint8(((raw * 100) % TWO_POW_32) / ADC_FULL_SCALE)
  }

  /** For a 12-bit code the assistance level never decreases as the
      potentiometer code grows. */
  lemma AssistanceLevelMonotone(a: uint32, b: uint32)
    requires a <= b <= ADC_FULL_SCALE
    ensures AssistanceLevel(a) <= AssistanceLevel(b)
  {
  }

  /** `(assistance_level * (1 << PWM_RESOLUTION)) / 100`. */
  function Duty(level: uint8): (r: int)
    ensures 0 <= r
    ensures level <= 100 ==> r <= PWM_STEPS
    ensures level <= 100 ==> (r == PWM_STEPS <==> level == 100)
    ensures level == 0 <==> r == 0
  {
    level * PWM_STEPS / 100
  }

  /** A higher assistance level never gives a lower duty. */
  lemma DutyMonotone(a: uint8, b: uint8)
    requires a <= b
    ensures Duty(a) <= Duty(b)
  {
  }

  /** The direction switch: the first of switches 1, 2, 3 that reads low
      selects 0, 1 or 2; with none low the direction stays as it was. */
  function SelectDirection(current: uint8, switch1: bool, switch2: bool, switch3: bool): (r: uint8)
    ensures !switch1 ==> r == 0
    ensures switch1 && !switch2 ==> r == 1
    ensures switch1 && switch2 && !switch3 ==> r == 2
    ensures switch1 && switch2 && switch3 ==> r == current
    ensures current <= 2 ==> r <= 2
  {
    if !switch1 then 0 else if !switch2 then 1 else if !switch3 then 2 else current
  }

  /** `system_read_sensors` (integer parts). */
  function ReadSensors(s: Tick, i: Inputs): (r: Tick)
    ensures r.leftLight == r.leftRadar == i.leftRadar
    ensures r.rightLight == r.rightRadar == i.rightRadar
    ensures r.direction == SelectDirection(s.direction, i.switch1, i.switch2, i.switch3)
    ensures r.assistanceLevel == AssistanceLevel(i.potRaw)
    ensures i.potRaw <= ADC_FULL_SCALE ==> r.assistanceLevel <= 100
    ensures r.systemActive == s.systemActive && r.emergencyStop == s.emergencyStop
    ensures r.bikeMode == s.bikeMode
    ensures r.motorEnable == s.motorEnable && r.motorDir == s.motorDir && r.duty == s.duty
  {
    s.(leftRadar := i.leftRadar, rightRadar := i.rightRadar,
       leftLight := i.leftRadar, rightLight := i.rightRadar,
       direction := SelectDirection(s.direction, i.switch1, i.switch2, i.switch3),
       assistanceLevel := AssistanceLevel(i.potRaw))
  }

  /** `system_control_motor`. */
  function ControlMotor(s: Tick): (r: Tick)
    ensures s.emergencyStop || !s.systemActive ==> !r.motorEnable && r.duty == 0
    ensures s.emergencyStop || !s.systemActive ==> r.motorDir == s.motorDir
    ensures !s.emergencyStop && s.systemActive ==>
              r.motorEnable && r.duty == Duty(s.assistanceLevel) && (r.motorDir <==> s.direction != 0)
    ensures s.assistanceLevel <= 100 ==> r.duty <= PWM_STEPS
    ensures r.(motorEnable := s.motorEnable, motorDir := s.motorDir, duty := s.duty) == s
  {
    if s.emergencyStop || !s.systemActive then
      s.(motorEnable := false, duty := 0)
    else
      s.(motorDir := s.direction != 0, duty := Duty(s.assistanceLevel), motorEnable := true)
  }

  /** `system_check_emergency`: a low emergency input latches the stop. */
  function CheckEmergency(s: Tick, level: bool): (r: Tick)
    ensures !level ==> r.emergencyStop && !r.systemActive
    ensures level ==> r == s
    ensures r.(emergencyStop := s.emergencyStop, systemActive := s.systemActive) == s
  {
    if !level then s.(emergencyStop := true, systemActive := false) else s
  }

  /** `rfid_callback`. */
  function RfidCallback(s: Tick, authenticated: bool): (r: Tick)
    ensures r.systemActive <==> s.systemActive || (authenticated && !s.emergencyStop)
    ensures !(authenticated && !s.emergencyStop) ==> r == s
    ensures r.(systemActive := s.systemActive) == s
  {
    if authenticated && !s.emergencyStop then s.(systemActive := true) else s
  }

  /** `button_isr_handler`. */
  function ButtonIsr(s: Tick): (r: Tick)
    ensures r.bikeMode == !s.bikeMode
    ensures r.(bikeMode := s.bikeMode) == s
  {
    s.(bikeMode := !s.bikeMode)
  }

  /** The gate of `system_task`. */
  predicate Running(s: Tick)
  {
    s.systemActive && !s.emergencyStop
  }

  /** One iteration of `system_task` as written: read, control, check. */
  function TaskTick(s: Tick, i: Inputs): (r: Tick)
    ensures !Running(s) ==> r == s
    ensures Running(s) && !i.emergencyLevel ==> r.emergencyStop && !r.systemActive
    ensures Running(s) && i.emergencyLevel ==> r.systemActive && r.motorEnable
  {
    if Running(s) then CheckEmergency(ControlMotor(ReadSensors(s, i)), i.emergencyLevel) else s
  }

  /** One iteration with the emergency check moved before the motor
      command, so that the latch takes the motor down in the same tick. */
  function SafeTaskTick(s: Tick, i: Inputs): (r: Tick)
    ensures !Running(s) ==> r == s
    ensures Running(s) && !i.emergencyLevel ==>
              r.emergencyStop && !r.systemActive && !r.motorEnable && r.duty == 0
    ensures Running(s) && i.emergencyLevel ==> r == TaskTick(s, i)
  {
    if Running(s) then ControlMotor(CheckEmergency(ReadSensors(s, i), i.emergencyLevel)) else s
  }

  /** Events that change the state: the RFID callback, the mode-button
      interrupt, and one iteration of `system_task`. */
  datatype Event = Rfid(authenticated: bool) | ModeButton | TaskIteration(inputs: Inputs)

  function Step(s: Tick, e: Event): Tick
  {
    match e
    case Rfid(a) => RfidCallback(s, a)
    case ModeButton => ButtonIsr(s)
    case TaskIteration(i) => TaskTick(s, i)
  }

  function SafeStep(s: Tick, e: Event): Tick
  {
    match e
    case Rfid(a) => RfidCallback(s, a)
    case ModeButton => ButtonIsr(s)
    case TaskIteration(i) => SafeTaskTick(s, i)
  }

  function Run(s: Tick, events: seq<Event>): Tick
    decreases |events|
  {
    if events == [] then s else Run(Step(s, events[0]), events[1..])
  }

  function SafeRun(s: Tick, events: seq<Event>): Tick
    decreases |events|
  {
    if events == [] then s else SafeRun(SafeStep(s, events[0]), events[1..])
  }

  /** The latch invariant: a latched emergency stop excludes activity. */
  predicate Latched(s: Tick)
  {
    s.emergencyStop ==> !s.systemActive
  }

  /** The motor is off whenever the system is inactive or latched. */
  predicate MotorSafe(s: Tick)
  {
    !Running(s) ==> !s.motorEnable && s.duty == 0
  }

  /** Every step keeps the latch invariant and never clears the latch. */
  lemma StepKeepsLatch(s: Tick, e: Event)
    requires Latched(s)
    ensures Latched(Step(s, e)) && Latched(SafeStep(s, e))
    ensures s.emergencyStop ==> Step(s, e).emergencyStop && SafeStep(s, e).emergencyStop
  {
  }

  /** From power-on, every reachable state satisfies the latch invariant,
      and once the stop is latched it stays latched. */
  lemma {:induction false} RunKeepsLatch(s: Tick, events: seq<Event>)
    requires Latched(s)
    ensures Latched(Run(s, events))
    ensures s.emergencyStop ==> Run(s, events).emergencyStop
    decreases |events|
  {
    if events != [] {
      StepKeepsLatch(s, events[0]);
      RunKeepsLatch(Step(s, events[0]), events[1..]);
    }
  }

  /** Two mode-button interrupts in a row change nothing. */
  lemma ModeToggleInvolution(s: Tick)
    ensures ButtonIsr(ButtonIsr(s)) == s
  {
  }

  /** Each corrected step keeps the motor off while the system is inactive
      or latched. */
  lemma SafeStepKeepsMotorSafe(s: Tick, e: Event)
    requires MotorSafe(s) && Latched(s)
    ensures MotorSafe(SafeStep(s, e)) && Latched(SafeStep(s, e))
  {
    match e
    case Rfid(a) =>
    case ModeButton =>
    case TaskIteration(i) =>
  }

  /** With the corrected tick, the motor is off in every state reachable
      from power-on while the system is inactive or latched. */
  lemma {:induction false} SafeRunKeepsMotorSafe(s: Tick, events: seq<Event>)
    requires MotorSafe(s) && Latched(s)
    ensures MotorSafe(SafeRun(s, events)) && Latched(SafeRun(s, events))
    decreases |events|
  {
    if events != [] {
      SafeStepKeepsMotorSafe(s, events[0]);
      SafeRunKeepsMotorSafe(SafeStep(s, events[0]), events[1..]);
    }
  }

  lemma ReachableMotorSafe(events: seq<Event>)
    ensures MotorSafe(SafeRun(Initial(), events))
  {
    SafeRunKeepsMotorSafe(Initial(), events);
  }

  /** As written, a tick that latches the emergency stop has already enabled
      the motor, and every later tick is skipped by the gate: after an RFID
      activation and one tick with full assistance and the emergency input
      low, the motor stays enabled at full duty with the stop latched. */
  lemma EmergencyLeavesMotorRunning()
    ensures var i := Inputs(false, false, true, true, true, ADC_FULL_SCALE, false);
      var s := Run(Initial(), [Rfid(true), TaskIteration(i)]);
      s.emergencyStop && s.motorEnable && s.duty == PWM_STEPS && !MotorSafe(s)
  {
    var i := Inputs(false, false, true, true, true, ADC_FULL_SCALE, false);
    var s1 := Step(Initial(), Rfid(true));
    var s2 := Step(s1, TaskIteration(i));
    assert s2.emergencyStop && s2.motorEnable && s2.duty == PWM_STEPS;
    assert [Rfid(true), TaskIteration(i)][1..] == [TaskIteration(i)];
    assert [TaskIteration(i)][1..] == [];
    assert Run(s2, []) == s2;
  }

  /** For every state and input: a tick that latches the emergency stop
      leaves the motor enabled at the duty the potentiometer asked for, so
      the latched state breaks `MotorSafe` whenever that duty is not 0. */
  lemma LatchingTickLeavesMotorEnabled(s: Tick, i: Inputs)
    requires Running(s) && !i.emergencyLevel
    ensures var r := TaskTick(s, i);
      r.emergencyStop && !r.systemActive && r.motorEnable &&
      r.duty == Duty(AssistanceLevel(i.potRaw)) && !MotorSafe(r)
  {
  }

  /** The prototype's state and pins, updated in place by the handlers. */
  class SystemState {
    var systemActive: bool
    var emergencyStop: bool
    var assistanceLevel: uint8
    var bikeMode: bool
    var leftRadar: bool
    var rightRadar: bool
    var direction: uint8
    var leftLight: bool
    var rightLight: bool
    var motorEnable: bool
    var motorDir: bool
    var duty: int

    function State(): Tick
      reads this
    {
      Tick(systemActive, emergencyStop, assistanceLevel, bikeMode, leftRadar, rightRadar,
           direction, leftLight, rightLight, motorEnable, motorDir, duty)
    }

    /** `static system_state_t system_state = {0};` with pins configured low. */
    constructor ()
      ensures State() == Initial()
    {
      systemActive, emergencyStop, assistanceLevel, bikeMode := false, false, 0, false;
      leftRadar, rightRadar, direction := false, false, 0;
      leftLight, rightLight, motorEnable, motorDir, duty := false, false, false, false, 0;
    }

    method SystemReadSensors(i: Inputs)
      modifies this
      ensures State() == ReadSensors(old(State()), i)
    {
      leftRadar := i.leftRadar;
      rightRadar := i.rightRadar;
      leftLight := leftRadar;
      rightLight := rightRadar;
      if !i.switch1 {
        direction := 0;
      } else if !i.switch2 {
        direction := 1;
      } else if !i.switch3 {
        direction := 2;
      }
      var product := (i.potRaw * 100) % TWO_POW_32;
      assistanceLevel := ToUint8(product / ADC_FULL_SCALE);
      assert assistanceLevel == AssistanceLevel(i.potRaw);
    }

    method SystemControlMotor()
      modifies this
      ensures State() == ControlMotor(old(State()))
    {
      if emergencyStop || !systemActive {
        motorEnable := false;
        duty := 0;
        return;
      }
      motorDir := direction != 0;
      duty := assistanceLevel * PWM_STEPS / 100;
      motorEnable := true;
    }

    method SystemCheckEmergency(level: bool)
      modifies this
      ensures State() == CheckEmergency(old(State()), level)
    {
      if !level {
        emergencyStop := true;
        systemActive := false;
      }
    }

    /** One iteration of `system_task` (the delay is not modelled). */
    method SystemTaskIteration(i: Inputs)
      modifies this
      ensures State() == TaskTick(old(State()), i)
    {
      if systemActive && !emergencyStop {
        SystemReadSensors(i);
        SystemControlMotor();
        SystemCheckEmergency(i.emergencyLevel);
      }
    }

    method RfidCallbackHandler(authenticated: bool)
      modifies this
      ensures State() == RfidCallback(old(State()), authenticated)
    {
      if authenticated && !emergencyStop {
        systemActive := true;
      }
    }

    method ButtonIsrHandler()
      modifies this
      ensures State() == ButtonIsr(old(State()))
    {
      bikeMode := !bikeMode;
    }
  }
}
