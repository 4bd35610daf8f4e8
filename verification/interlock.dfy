/** Activation and emergency interlock of the production firmware
    (firmware/main/main.c).

    Two globals, `system_activated` and `waiting_tag`, and three output pins
    (power relay, "system active" LED, blind-spot light) form a small state
    machine driven by three kinds of atomic step:
      - the RC522 callback, which may run between any two steps of the main
        loop, including while the loop waits for the emergency button to be
        released;
      - one pass of the polling loop: two samples of the emergency button
        around the 50 ms debounce delay, then the blind-spot step;
      - one sample of the release-wait loop that follows an emergency stop.
    Pin levels are booleans (true = high); the button has a pull-up, so
    pressed reads low. Delays are not modelled: a debounce is two samples. */
module Interlock {

  /** Where the `app_main` loop is: polling, or inside the release-wait loop. */
  datatype Phase = Polling | AwaitingRelease

  /** The globals, the three output levels, and the loop position. */
  datatype Machine = Machine(
    activated: bool,   // system_activated
    waitingTag: bool,  // waiting_tag
    relay: bool,       // POWER_RELAY_GPIO
    indicator: bool,   // SYSTEM_ACTIVE_GPIO
    light: bool,       // BLIND_SPOT_LIGHT_GPIO
    phase: Phase)

  /** One atomic step of the firmware. */
  datatype Event =
    | Tag(piccActive: bool)                        // on_rfid_detection; piccActive: PICC state is ACTIVE
    | Poll(first: bool, second: bool, motion: bool) // one pass of the polling loop
    | Release(level: bool, motion: bool)            // one sample of the release-wait loop

  /** The coupling between the flags and the outputs that every reachable
      state satisfies: activated exactly when not waiting for a tag, relay and
      LED follow activation, and the blind-spot light is never on while the
      system is off. */
  predicate Coupled(m: Machine)
  {
    && m.activated == !m.waitingTag
    && m.relay == m.activated
    && m.indicator == m.activated
    && (m.light ==> m.activated)
  }

  /** The state in which the system is off and re-armed: not activated,
      waiting for a tag, all three outputs low. */
  predicate IsShutDown(m: Machine)
  {
    !m.activated && m.waitingTag && !m.relay && !m.indicator && !m.light
  }

  /** `shutdown_system`: the loop position is not part of it. */
  function Shutdown(m: Machine): (r: Machine)
    ensures IsShutDown(r) && Coupled(r)
    ensures r.phase == m.phase
  {
    m.(activated := false, waitingTag := true, relay := false, indicator := false, light := false)
  }

  /** The state when `app_main` enters `while(1)`: the globals' initial values,
      whatever the output pins held, then `shutdown_system`. */
  function Startup(relay0: bool, indicator0: bool, light0: bool): (r: Machine)
    ensures IsShutDown(r) && Coupled(r) && r.phase == Polling
    ensures r == Startup(false, false, false)
  {
    Shutdown(Machine(false, true, relay0, indicator0, light0, Polling))
  }

  /** `on_rfid_detection`: only a tag seen while waiting, in the ACTIVE PICC
      state, switches the system on. */
  function OnTag(m: Machine, piccActive: bool): (r: Machine)
    ensures r.activated <==> m.activated || (m.waitingTag && piccActive)
    ensures !(m.waitingTag && piccActive) ==> r == m
    ensures m.waitingTag && piccActive ==>
              r.activated && !r.waitingTag && r.relay && r.indicator
    ensures r.light == m.light && r.phase == m.phase
    ensures Coupled(m) ==> Coupled(r)
  {
    if m.waitingTag && piccActive then
      m.(activated := true, waitingTag := false, relay := true, indicator := true)
    else
      m
  }

  /** The blind-spot section of the loop: the light follows the motion sensor
      only while the system is activated. */
  function BlindSpot(m: Machine, motion: bool): (r: Machine)
    ensures m.activated ==> r.light == motion
    ensures !m.activated ==> r == m
    ensures r.(light := m.light) == m
    ensures Coupled(m) ==> Coupled(r)
  {
    if m.activated then m.(light := motion) else m
  }

  /** A debounced press: the button reads low on both samples. */
  predicate DebouncedPress(first: bool, second: bool)
  {
    !first && !second
  }

  /** One step of the firmware. A loop step that cannot happen in the current
      loop position (a poll while waiting for release, a release sample while
      polling) leaves the machine unchanged. */
  function Step(m: Machine, e: Event): (r: Machine)
    ensures Coupled(m) ==> Coupled(r)
    // an emergency press shuts everything down and enters the release wait
    ensures e.Poll? && m.phase == Polling && DebouncedPress(e.first, e.second) ==>
              IsShutDown(r) && r.phase == AwaitingRelease
    // a low sample followed by a high one, or no press, leaves activation alone
    ensures e.Poll? && !DebouncedPress(e.first, e.second) ==>
              r.activated == m.activated && r.waitingTag == m.waitingTag &&
              r.relay == m.relay && r.indicator == m.indicator && r.phase == m.phase
    // a poll without a press, or the release sample, reaches the blind-spot section
    ensures e.Poll? && m.phase == Polling && !DebouncedPress(e.first, e.second) && m.activated ==>
              r.light == e.motion
    ensures e.Release? && m.phase == AwaitingRelease && e.level ==>
              r.phase == Polling && (m.activated ==> r.light == e.motion)
    // while the button is held the loop stays where it is
    ensures e.Release? && !e.level ==> r == m
    // nothing but a tag event switches the system on
    ensures !e.Tag? ==> (r.activated ==> m.activated)
  {
    match e
    case Tag(piccActive) => OnTag(m, piccActive)
    case Poll(first, second, motion) =>
      if m.phase != Polling then m
      else if DebouncedPress(first, second) then Shutdown(m).(phase := AwaitingRelease)
      else BlindSpot(m, motion)
    case Release(level, motion) =>
      if m.phase != AwaitingRelease || !level then m
      else BlindSpot(m.(phase := Polling), motion)
  }

  /** The state after a sequence of steps, oldest first. */
  function Run(m: Machine, events: seq<Event>): Machine
    decreases |events|
  {
    if events == [] then m else Run(Step(m, events[0]), events[1..])
  }

  /** The coupling invariant holds after any sequence of steps that starts
      in a coupled state. */
  lemma {:induction false} RunKeepsCoupled(m: Machine, events: seq<Event>)
    requires Coupled(m)
    ensures Coupled(Run(m, events))
    decreases |events|
  {
    if events != [] {
      RunKeepsCoupled(Step(m, events[0]), events[1..]);
    }
  }

  /** Every state reachable from startup satisfies the coupling invariant:
      `system_activated == !waiting_tag` and the relay and LED follow it. */
  lemma ReachableCoupled(relay0: bool, indicator0: bool, light0: bool, events: seq<Event>)
    ensures Coupled(Run(Startup(relay0, indicator0, light0), events))
  {
    RunKeepsCoupled(Startup(relay0, indicator0, light0), events);
  }

  /** Once the system is off (after an emergency shutdown, say), only a tag
      event in the ACTIVE state, arriving while the firmware waits for a
      tag, can switch it back on. */
  lemma {:induction false} OnlyTagReactivates(m: Machine, events: seq<Event>)
    requires !m.activated
    requires Run(m, events).activated
    ensures exists i :: 0 <= i < |events| && events[i] == Tag(true) && Run(m, events[..i]).waitingTag
    decreases |events|
  {
    assert events != [];
    var m' := Step(m, events[0]);
    if m'.activated {
      assert events[0] == Tag(true);
      assert events[..0] == [];
    } else {
      OnlyTagReactivates(m', events[1..]);
      var i :| 0 <= i < |events[1..]| && events[1..][i] == Tag(true) && Run(m', events[1..][..i]).waitingTag;
      assert events[i + 1] == Tag(true);
      assert events[..i + 1][0] == events[0] && events[..i + 1][1..] == events[1..][..i];
    }
  }

  /** While the system is off and no tag arrives, the relay stays open: no
      amount of polling, button activity or motion switches power on. */
  lemma {:induction false} NoTagKeepsPowerOff(m: Machine, events: seq<Event>)
    requires Coupled(m) && !m.activated
    requires forall i :: 0 <= i < |events| ==> !events[i].Tag?
    ensures IsShutDown(Run(m, events))
    decreases |events|
  {
    if events != [] {
      var m' := Step(m, events[0]);
      assert !m'.activated && Coupled(m');
      NoTagKeepsPowerOff(m', events[1..]);
    }
  }

  /** The release wait does not gate re-activation: a tag presented while
      the emergency button is still held switches the system back on. */
  lemma TagDuringReleaseWaitReactivates()
    ensures var m := Run(Startup(false, false, false), [Tag(true), Poll(false, false, false), Tag(true)]);
      m.activated && m.relay && m.phase == AwaitingRelease
  {
    var m0 := Startup(false, false, false);
    var m1 := Step(m0, Tag(true));
    var m2 := Step(m1, Poll(false, false, false));
    assert m2.phase == AwaitingRelease && m2.waitingTag;
    var m3 := Step(m2, Tag(true));
    assert m3.activated && m3.phase == AwaitingRelease;
    assert Run(m0, [Tag(true), Poll(false, false, false), Tag(true)]) == m3 by {
      assert [Tag(true), Poll(false, false, false), Tag(true)][1..] == [Poll(false, false, false), Tag(true)];
      assert [Poll(false, false, false), Tag(true)][1..] == [Tag(true)];
      assert [Tag(true)][1..] == [];
    }
  }

  /** Shutting down twice is the same as shutting down once. */
  lemma ShutdownIdempotent(m: Machine)
    ensures Shutdown(Shutdown(m)) == Shutdown(m)
  {
  }

  /** The firmware's globals and output pins, updated in place by the RC522
      callback, `shutdown_system` and the two loops of `app_main`. */
  class Firmware {
    var systemActivated: bool
    var waitingTag: bool
    var relay: bool
    var indicator: bool
    var blindSpotLight: bool
    var phase: Phase

    /** The abstract value of the object. */
    function State(): Machine
      reads this
    {
      Machine(systemActivated, waitingTag, relay, indicator, blindSpotLight, phase)
    }

    /** `app_main` up to `while(1)`: the globals' static initial values,
        output pins at whatever level they held, then `shutdown_system`. */
    constructor Boot(relay0: bool, indicator0: bool, light0: bool)
      ensures State() == Startup(relay0, indicator0, light0)
      ensures IsShutDown(State()) && Coupled(State()) && phase == Polling
    {
      systemActivated := false;
      waitingTag := true;
      relay, indicator, blindSpotLight := relay0, indicator0, light0;
      phase := Polling;
      new;
      ShutdownSystem();
    }

    /** `on_rfid_detection` */
    method OnRfidDetection(piccActive: bool)
      modifies this
      ensures State() == OnTag(old(State()), piccActive)
      ensures State() == Step(old(State()), Tag(piccActive))
    {
      if waitingTag && piccActive {
        systemActivated := true;
        waitingTag := false;
        relay := true;
        indicator := true;
      }
    }

    /** `shutdown_system` */
    method ShutdownSystem()
      modifies this
      ensures State() == Shutdown(old(State()))
    {
      systemActivated := false;
      waitingTag := true;
      relay := false;
      indicator := false;
      blindSpotLight := false;
    }

    /** The blind-spot section of the loop body. */
    method BlindSpotControl(motion: bool)
      modifies this
      ensures State() == BlindSpot(old(State()), motion)
    {
      if systemActivated {
        blindSpotLight := motion;
      }
    }

    /** One pass of the polling loop from the emergency check: two button
        samples around the debounce delay, then (unless the button was
        pressed) the blind-spot section. Returns whether the loop went on
        into the release wait. */
    method PollStep(first: bool, second: bool, motion: bool) returns (pressed: bool)
      requires phase == Polling
      modifies this
      ensures pressed <==> DebouncedPress(first, second)
      ensures State() == Step(old(State()), Poll(first, second, motion))
    {
      pressed := false;
      if !first {
        if !second {
          ShutdownSystem();
          phase := AwaitingRelease;
          pressed := true;
        }
      }
      if !pressed {
        BlindSpotControl(motion);
      }
    }

    /** The release-wait loop over a run of button samples: it stays while
        the button reads low; at the first high sample it leaves and runs the
        blind-spot section. `released` says whether that sample came. */
    method AwaitRelease(samples: seq<bool>, motion: bool) returns (released: bool)
      requires phase == AwaitingRelease
      modifies this
      ensures released <==> true in samples
      ensures State() == if released then Step(old(State()), Release(true, motion)) else old(State())
    {
      var i := 0;
      while i < |samples| && !samples[i]
        invariant 0 <= i <= |samples|
        invariant forall j :: 0 <= j < i ==> !samples[j]
      {
        i := i + 1;
      }
      released := i < |samples|;
      if released {
        phase := Polling;
        BlindSpotControl(motion);
      }
    }
  }
}
