/** The Arduino prototype (test/arduino_system/ebike_arduino.c): a fixed-UID
    credential check, the hall-sensor interrupt that captures the interval
    between edges, the activation latch that gates the main loop, and the
    final clamp of the speed controller's output.

    The PID law itself is floating-point arithmetic and is not modelled: its
    raw output enters `UpdateSpeedControl` as a parameter. `micros()`, pin
    reads and card reads are parameters; the display calls are left out. */
module ArduinoPrototype {
  import opened CTypes

  /** The one UID the prototype accepts. */
  const EXPECTED_UID: seq<uint8> := [0xDE, 0xAD, 0xBE, 0xEF]
  /** Size of the reader library's UID byte buffer. */
  const UID_BUFFER: nat := 10
  /** `hallInterval`'s initial value, in microseconds. */
  const HALL_INTERVAL_AT_BOOT: uint32 := 1000000
  /** Largest value of the 8-bit LEDC channel. */
  const PWM_MAX: real := 255.0

  /** A card UID as the reader library holds it. */
  datatype Uid = Uid(size: uint8, bytes: seq<uint8>)

  /** What `checkRFID` accepts: a new card, read successfully, whose first
      four UID bytes are DE AD BE EF. The UID's size is not consulted. */
  predicate Authenticates(newCardPresent: bool, serialRead: bool, bytes: seq<uint8>)
    requires |bytes| >= 4
    ensures Authenticates(newCardPresent, serialRead, bytes) <==>
      newCardPresent && serialRead &&
      bytes[0] == 0xDE && bytes[1] == 0xAD && bytes[2] == 0xBE && bytes[3] == 0xEF
    ensures Authenticates(newCardPresent, serialRead, bytes) ==> Authenticates(true, true, bytes[..4])
  {
    newCardPresent && serialRead && bytes[..4] == EXPECTED_UID
  }

  /** `checkRFID`: the early-exit comparison of the UID with the expected
      bytes. `compared` is the number of bytes found equal before the loop
      stopped: the result is false at the first mismatch. */
  method CheckRfid(newCardPresent: bool, serialRead: bool, uid: Uid) returns (ok: bool, compared: nat)
    requires |uid.bytes| == UID_BUFFER
    ensures ok <==> Authenticates(newCardPresent, serialRead, uid.bytes)
    ensures !newCardPresent || !serialRead ==> !ok && compared == 0
    ensures compared <= 4 && uid.bytes[..compared] == EXPECTED_UID[..compared]
    ensures ok ==> compared == 4
    ensures !ok && newCardPresent && serialRead ==>
              compared < 4 && uid.bytes[compared] != EXPECTED_UID[compared]
  {
    compared := 0;
    if !newCardPresent || !serialRead {
      return false, 0;
    }
    while compared < 4
      invariant 0 <= compared <= 4
      invariant uid.bytes[..compared] == EXPECTED_UID[..compared]
    {
      if uid.bytes[compared] != EXPECTED_UID[compared] {
        return false, compared;
      }
      compared := compared + 1;
    }
    assert uid.bytes[..4] == EXPECTED_UID;
    ok := true;
  }

  /** The size is not consulted: a 7-byte UID that starts DE AD BE EF is
      accepted like the expected 4-byte one. */
  lemma LongerUidWithPrefixAccepted()
    ensures Authenticates(true, true, [0xDE, 0xAD, 0xBE, 0xEF, 0x01, 0x02, 0x03, 0, 0, 0])
  {
    assert [0xDE, 0xAD, 0xBE, 0xEF, 0x01, 0x02, 0x03, 0, 0, 0][..4] == EXPECTED_UID;
  }

  /** Arduino's `constrain(x, lo, hi)`. */
  function Constrain(x: real, lo: real, hi: real): (r: real)
    requires lo <= hi
    ensures lo <= r <= hi
    ensures lo <= x <= hi ==> r == x
    ensures x < lo ==> r == lo
    ensures x > hi ==> r == hi
  {
    if x < lo then lo else if x > hi then hi else x
  }

  /** `ledcWrite(0, output)`: the float converted to an integer duty,
      truncating toward zero (which is the floor for a non-negative value). */
  function LedcDuty(output: real): (r: int)
    requires 0.0 <= output <= PWM_MAX
    ensures 0 <= r <= 255
    ensures r as real <= output < r as real + 1.0
  {
    output.Floor
  }

  /** The prototype's globals and output pins. */
  class Bike {
    var systemActivated: bool
    var lastHallTime: uint32
    var hallInterval: uint32
    var currentSpeed: real
    var pwmDuty: int
    var systemLed: bool
    var leftSignal: bool
    var rightSignal: bool

    /** The globals' initial values; `setup()` drives no output high. */
    constructor ()
      ensures !systemActivated && lastHallTime == 0
      ensures hallInterval == HALL_INTERVAL_AT_BOOT && hallInterval > 0
      ensures currentSpeed == 0.0 && pwmDuty == 0 && !systemLed && !leftSignal && !rightSignal
    {
      systemActivated := false;
      lastHallTime := 0;
      hallInterval := HALL_INTERVAL_AT_BOOT;
      currentSpeed := 0.0;
      pwmDuty := 0;
      systemLed, leftSignal, rightSignal := false, false, false;
    }

    /** `onHall` at time `now` (the value `micros()` returned): the interval
        since the previous edge in 32-bit unsigned arithmetic, so a wrap of
        the microsecond counter still yields the true elapsed time. */
    method OnHall(now: uint32)
      modifies this`hallInterval, this`lastHallTime
      ensures hallInterval == Sub32(now, old(lastHallTime))
      ensures (old(lastHallTime) + hallInterval) % TWO_POW_32 == now
      ensures old(lastHallTime) <= now ==> hallInterval == now - old(lastHallTime)
      ensures lastHallTime == now
    {
      hallInterval := Sub32(now, lastHallTime);
      lastHallTime := now;
    }

    /** `updateSpeedControl` around the PID law: the speed is recomputed
        only from a nonzero interval, and the value written to the PWM
        channel is the PID output clamped to [0, 255]. */
    method UpdateSpeedControl(pidOutput: real)
      modifies this`currentSpeed, this`pwmDuty
      ensures hallInterval > 0 ==> currentSpeed == 1000000.0 / hallInterval as real
      ensures hallInterval == 0 ==> currentSpeed == old(currentSpeed)
      ensures pwmDuty == LedcDuty(Constrain(pidOutput, 0.0, PWM_MAX))
      ensures 0 <= pwmDuty <= 255
    {
      if hallInterval > 0 {
        currentSpeed := 1000000.0 / hallInterval as real;
      }
      var output := Constrain(pidOutput, 0.0, PWM_MAX);
      pwmDuty := LedcDuty(output);
    }

    /** `checkTurnSignals`: each signal mirrors its blind-spot sensor. */
    method CheckTurnSignals(blindLeft: bool, blindRight: bool)
      modifies this`leftSignal, this`rightSignal
      ensures leftSignal == blindLeft && rightSignal == blindRight
    {
      leftSignal := blindLeft;
      rightSignal := blindRight;
    }

    /** One call of `loop`. While the system is not activated it only polls
        the credential; afterwards it runs the speed control and the turn
        signals. Nothing sets `systemActivated` back to false. */
    method Loop(newCardPresent: bool, serialRead: bool, uid: Uid,
                pidOutput: real, blindLeft: bool, blindRight: bool)
      requires |uid.bytes| == UID_BUFFER
      modifies this
      ensures old(systemActivated) ==> systemActivated
      ensures !old(systemActivated) ==>
                systemActivated == Authenticates(newCardPresent, serialRead, uid.bytes) &&
                systemLed == (old(systemLed) || systemActivated) &&
                currentSpeed == old(currentSpeed) && pwmDuty == old(pwmDuty) &&
                leftSignal == old(leftSignal) && rightSignal == old(rightSignal)
      ensures old(systemActivated) ==>
                (hallInterval > 0 ==> currentSpeed == 1000000.0 / hallInterval as real) &&
                (hallInterval == 0 ==> currentSpeed == old(currentSpeed)) &&
                pwmDuty == LedcDuty(Constrain(pidOutput, 0.0, PWM_MAX)) &&
                leftSignal == blindLeft && rightSignal == blindRight &&
                systemLed == old(systemLed)
      ensures hallInterval == old(hallInterval) && lastHallTime == old(lastHallTime)
    {
      if !systemActivated {
        var ok, _ := CheckRfid(newCardPresent, serialRead, uid);
        if ok {
          systemActivated := true;
          systemLed := true;
        }
        return;
      }
      UpdateSpeedControl(pidOutput);
      CheckTurnSignals(blindLeft, blindRight);
    }
  }
}
