/** The motor bring-up programs (test_codes/src/motor_sensors.c,
    test_codes/src/motor_function.c, test/motor_test/main/main.c): the duty
    clamp of `set_motor_speed`, the packing of the three hall sensors into
    one state number, and the duty sequences the `app_main` start-up loops
    send to the 10-bit LEDC channel.

    The LEDC channel is modelled as the sequence of duties written to it;
    the delays between writes and the console output are left out. */
module MotorDrive {
  import opened CTypes

  /** Largest duty of the 10-bit PWM channel. */
  const DUTY_MAX: uint32 := 1023

  /** The clamp of `set_motor_speed`. */
  function Clamp(duty: uint32): (r: uint32)
    ensures r <= DUTY_MAX && r <= duty
    ensures duty <= DUTY_MAX ==> r == duty
    ensures duty > DUTY_MAX ==> r == DUTY_MAX
  {
    if duty > 1023 then 1023 else duty
  }

  /** Clamping a clamped duty changes nothing. */
  lemma ClampIdempotent(duty: uint32)
    ensures Clamp(Clamp(duty)) == Clamp(duty)
  {
  }

  /** A larger request never yields a smaller duty. */
  lemma ClampMonotone(a: uint32, b: uint32)
    requires a <= b
    ensures Clamp(a) <= Clamp(b)
  {
  }

  /** `read_hall_sensors`: W in bit 2, V in bit 1, U in bit 0, built with
      shifts and bitwise or as the source does. */
  function HallState(u: bool, v: bool, w: bool): (r: uint32)
    ensures r < 8
  {
    HallBits(u, v, w) as int
  }

  function HallBits(u: bool, v: bool, w: bool): (b: bv32)
    ensures b < 8
  {
    (Level(w) as bv32 << 2) | (Level(v) as bv32 << 1) | Level(u) as bv32
  }

  /** Sensor U read back from a hall state: bit 0. */
  function HallU(state: uint32): bool { state % 2 == 1 }
  /** Sensor V read back from a hall state: bit 1. */
  function HallV(state: uint32): bool { state / 2 % 2 == 1 }
  /** Sensor W read back from a hall state: bit 2. */
  function HallW(state: uint32): bool { state / 4 % 2 == 1 }

  /** The bitwise packing is the sum W*4 + V*2 + U. */
  lemma HallStateIsSum(u: bool, v: bool, w: bool)
    ensures HallState(u, v, w) == 4 * Level(w) + 2 * Level(v) + Level(u)
  {
    if u {
      if v {
        if w { assert HallBits(true, true, true) == 7; }
        else { assert HallBits(true, true, false) == 3; }
      } else {
        if w { assert HallBits(true, false, true) == 5; }
        else { assert HallBits(true, false, false) == 1; }
      }
    } else {
      if v {
        if w { assert HallBits(false, true, true) == 6; }
        else { assert HallBits(false, true, false) == 2; }
      } else {
        if w { assert HallBits(false, false, true) == 4; }
        else { assert HallBits(false, false, false) == 0; }
      }
    }
  }

  /** Each sensor is recovered from its bit, so the packing loses nothing. */
  lemma HallStateDecodes(u: bool, v: bool, w: bool)
    ensures HallU(HallState(u, v, w)) == u
    ensures HallV(HallState(u, v, w)) == v
    ensures HallW(HallState(u, v, w)) == w
  {
    HallStateIsSum(u, v, w);
  }

  /** Two different sensor readings give two different states. */
  lemma HallStateInjective(u: bool, v: bool, w: bool, u': bool, v': bool, w': bool)
    requires HallState(u, v, w) == HallState(u', v', w')
    ensures u == u' && v == v' && w == w'
  {
    HallStateDecodes(u, v, w);
    HallStateDecodes(u', v', w');
  }

  /** Every state 0..7 is the packing of its three bits. */
  lemma HallStateOnto(state: uint32)
    requires state < 8
    ensures HallState(HallU(state), HallV(state), HallW(state)) == state
  {
    HallStateIsSum(HallU(state), HallV(state), HallW(state));
  }

  /** `count` requested duties from `first`, `step` apart. */
  function Ramp(first: nat, step: nat, count: nat): (r: seq<nat>)
    ensures |r| == count
    ensures forall i :: 0 <= i < count ==> r[i] == first + step * i
  {
    if count == 0 then [] else Ramp(first, step, count - 1) + [first + step * (count - 1)]
  }

  /** Consecutive duties of a ramp are `step` apart. */
  lemma RampIncreasing(first: nat, step: nat, count: nat, i: nat)
    requires i + 1 < count
    ensures Ramp(first, step, count)[i + 1] == Ramp(first, step, count)[i] + step
  {
  }

  /** What the channel receives for a sequence of requests. */
  function ClampAll(requests: seq<nat>): (r: seq<uint32>)
    requires forall i :: 0 <= i < |requests| ==> requests[i] < TWO_POW_32
    ensures |r| == |requests|
    ensures forall i :: 0 <= i < |r| ==> r[i] == Clamp(requests[i])
  {
    if requests == [] then []
    else ClampAll(requests[..|requests| - 1]) + [Clamp(requests[|requests| - 1])]
  }

  /** Requests within the channel's range reach it unchanged. */
  lemma {:induction false} ClampAllInRange(requests: seq<nat>)
    requires forall i :: 0 <= i < |requests| ==> requests[i] <= DUTY_MAX
    ensures ClampAll(requests) == requests
  {
    if requests != [] {
      ClampAllInRange(requests[..|requests| - 1]);
    }
  }

  /** The duties of the soft start in motor_sensors.c. */
  function SoftStartDuties(): seq<nat>
  {
    Ramp(0, 10, 50)
  }

  /** The soft start sends 50 duties, 0 to 490, 10 apart, all below the clamp. */
  lemma SoftStartShape()
    ensures var d := SoftStartDuties();
      |d| == 50 && d[0] == 0 && d[49] == 490 &&
      (forall i :: 0 <= i < 49 ==> d[i + 1] == d[i] + 10) &&
      (forall i :: 0 <= i < 50 ==> d[i] < DUTY_MAX)
  {
  }

  /** How many times `for (speed = first; speed <= last; speed += step)` runs. */
  function RampCount(first: nat, last: nat, step: nat): (n: nat)
    requires step > 0
    ensures first <= last ==> first + step * (n - 1) <= last < first + step * n
    ensures last < first ==> n == 0
  {
    if last < first then 0 else (last - first) / step + 1
  }

  /** A loop that ran `k` times and then found `speed > last` ran
      `RampCount` times. */
  lemma RampCountExact(first: nat, last: nat, k: nat)
    requires k > 0 && first + 50 * (k - 1) <= last < first + 50 * k
    ensures RampCount(first, last, 50) == k
  {
  }

  /** The duties `app_main` of motor_function.c and of motor_test sends:
      the ramp from `first` to `last`, `last` again for the hold, then 0. */
  function RampHoldStopDuties(first: nat, last: nat): (d: seq<nat>)
  {
    Ramp(first, 50, RampCount(first, last, 50)) + [last, 0]
  }

  /** What the channel receives for the start-up: the clamped ramp, then
      the clamped hold duty, then 0. */
  lemma RampHoldStopClamped(first: nat, last: nat)
    requires last < TWO_POW_32 - 50
    ensures var ramp := Ramp(first, 50, RampCount(first, last, 50));
      ClampAll(RampHoldStopDuties(first, last)) == ClampAll(ramp) + [Clamp(last), 0]
  {
    var ramp := Ramp(first, 50, RampCount(first, last, 50));
    ClampAllSnoc(ramp, last);
    ClampAllSnoc(ramp + [last], 0);
    assert ramp + [last] + [0] == RampHoldStopDuties(first, last);
  }

  /** With `last` within the channel's range and `first <= last`, the ramp
      rises by 50 from `first`, stays at most `last`, is followed by `last`,
      and the last duty sent stops the motor. */
  lemma RampHoldStopShape(first: nat, last: nat)
    requires first <= last <= DUTY_MAX
    ensures var d := RampHoldStopDuties(first, last);
      var n := RampCount(first, last, 50);
      |d| == n + 2 && d[0] == first &&
      (forall i :: 0 <= i < n - 1 ==> d[i + 1] == d[i] + 50) &&
      (forall i :: 0 <= i < n ==> d[i] <= last) &&
      d[n] == last && d[n + 1] == 0 &&
      (forall i :: 0 <= i < |d| ==> d[i] <= DUTY_MAX)
  {
  }

  /** motor_function.c sends 300, 350, ..., 600, then 600, then 0. */
  lemma MotorFunctionDuties()
    ensures RampHoldStopDuties(300, 600) == [300, 350, 400, 450, 500, 550, 600, 600, 0]
  {
    assert RampCount(300, 600, 50) == 7;
  }

  /** motor_test sends 600, 650, ..., 900, then 900, then 0. */
  lemma MotorTestDuties()
    ensures RampHoldStopDuties(600, 900) == [600, 650, 700, 750, 800, 850, 900, 900, 0]
  {
    assert RampCount(600, 900, 50) == 7;
  }

  /** The LEDC PWM channel, as the sequence of duties written to it. */
  class DutyChannel {
    var duties: seq<uint32>

    /** The channel as configured: nothing written yet (duty 0). */
    constructor ()
      ensures duties == []
    {
      duties := [];
    }

    /** `set_motor_speed`: the clamped duty is written to the channel. */
    method SetMotorSpeed(duty: uint32)
      modifies this
      ensures duties == old(duties) + [Clamp(duty)]
    {
      duties := duties + [Clamp(duty)];
    }

    /** The soft start of motor_sensors.c's `app_main`. */
    method SoftStart()
      modifies this
      ensures duties == old(duties) + SoftStartDuties()
    {
      var speed := 0;
      while speed < 500
        invariant 0 <= speed <= 500 && speed % 10 == 0
        invariant duties == old(duties) + Ramp(0, 10, speed / 10)
      {
        SetMotorSpeed(speed);
        speed := speed + 10;
      }
    }

    /** The ramp loop of `app_main` in motor_function.c and in motor_test:
        `for (speed = first; speed <= last; speed += 50)` through
        `set_motor_speed`. `last` must leave room for one more step: for a
        larger `last` the 32-bit counter can wrap to a small value and the
        loop goes on sending duties from there, possibly for billions of
        steps; it never ends only when `last` is 2^32 - 1 (or 2^32 - 2 with
        an even `first`). */
    method RampUp(first: uint32, last: uint32)
      requires last < TWO_POW_32 - 50
      modifies this
      ensures duties == old(duties) + ClampAll(Ramp(first, 50, RampCount(first, last, 50)))
    {
      var speed := first;
      ghost var k: nat := 0;
      while speed <= last
        invariant speed == first + 50 * k
        invariant k > 0 ==> speed - 50 <= last
        invariant duties == old(duties) + ClampAll(Ramp(first, 50, k))
        decreases last + 50 - speed
      {
        RampUpStep(first, k);
        AppendAssoc(old(duties), ClampAll(Ramp(first, 50, k)), [Clamp(speed)]);
        SetMotorSpeed(speed);
        speed := speed + 50;
        k := k + 1;
      }
      if k > 0 {
        RampCountExact(first, last, k);
      }
    }

    /** The start-up of `app_main` in motor_function.c and in motor_test:
        the ramp, `last` again for the hold, then 0. */
    method RampHoldStop(first: uint32, last: uint32)
      requires last < TWO_POW_32 - 50
      modifies this
      ensures duties == old(duties) + ClampAll(RampHoldStopDuties(first, last))
    {
      RampUp(first, last);
      SetMotorSpeed(last);
      SetMotorSpeed(0);
      RampHoldStopClamped(first, last);
    }

    /** `app_main` of motor_function.c. */
    method MotorFunctionMain()
      modifies this
      ensures duties == old(duties) + [300, 350, 400, 450, 500, 550, 600, 600, 0]
    {
      RampHoldStop(300, 600);
      MotorFunctionDuties();
      ClampAllInRange(RampHoldStopDuties(300, 600));
    }

    /** `app_main` of motor_test. */
    method MotorTestMain()
      modifies this
      ensures duties == old(duties) + [600, 650, 700, 750, 800, 850, 900, 900, 0]
    {
      RampHoldStop(600, 900);
      MotorTestDuties();
      ClampAllInRange(RampHoldStopDuties(600, 900));
    }
  }

  /** One pass of the ramp loop appends the clamp of the next request. */
  lemma RampUpStep(first: nat, k: nat)
    requires first + 50 * k < TWO_POW_32
    ensures ClampAll(Ramp(first, 50, k)) + [Clamp(first + 50 * k)] == ClampAll(Ramp(first, 50, k + 1))
  {
    var ramp := Ramp(first, 50, k);
    assert Ramp(first, 50, k + 1) == ramp + [first + 50 * k];
    ClampAllSnoc(ramp, first + 50 * k);
  }

  lemma AppendAssoc<T>(a: seq<T>, b: seq<T>, c: seq<T>)
    ensures a + b + c == a + (b + c)
  {
  }

  /** Clamping a request appended to a sequence appends its clamp. */
  lemma ClampAllSnoc(requests: seq<nat>, x: nat)
    requires forall i :: 0 <= i < |requests| ==> requests[i] < TWO_POW_32
    requires x < TWO_POW_32
    ensures ClampAll(requests + [x]) == ClampAll(requests) + [Clamp(x)]
  {
    assert (requests + [x])[..|requests|] == requests;
  }
}
