# assisted_ebike: a Dafny model of the control logic

This project models the integer-valued logic at the core of the assisted
e-bike firmware and its prototypes. It then proves what that logic
guarantees. The hardware is outside the model: pin levels, ADC codes,
timestamps and card UIDs are parameters, and outputs are fields or traces.
The project has six parts.

- `c_types.dfy` (`CTypes`) holds the C integer types the sources use:
  `uint8_t` and `uint32_t` as subsets of `int`, modular 32-bit subtraction,
  truncation to `uint8_t`, and a pin level as the integer 0 or 1.
- `interlock.dfy` (`Interlock`) models the production firmware's activation
  and emergency interlock (`firmware/main/main.c`). It has the globals
  `system_activated` and `waiting_tag`, and three outputs: the power relay,
  the "system active" LED and the blind-spot light. Each handler is an
  atomic step: the RC522 tag callback, one pass of the polling loop (two
  button samples around the debounce, then the blind-spot section), and one
  sample of the release-wait loop. The loop position is part of the state,
  so a tag callback can fall inside the release wait.
- `control_tick.dfy` (`ControlTick`) models the `system_state` record of the
  ESP-IDF prototype (`test_codes/src/system_code_test_1.c`). Its handlers
  are the sensor read, motor control, emergency check, RFID callback and
  mode-button interrupt, plus the gate of `system_task`.
- `arduino.dfy` (`ArduinoPrototype`) models the Arduino prototype
  (`test/arduino_system/ebike_arduino.c`). It covers the fixed-UID check,
  the hall interrupt's interval capture, the activation latch that gates
  `loop`, and the output clamp of the speed controller.
- `nokia_lcd.dfy` (`Nokia5110`) models the Nokia 5110 text renderer
  (`nokia_lcd/components/lcd_nokia5110/src/lcd_nokia5110.c`). It has the
  6 x 84 framebuffer as an `array2`, the cursor, glyph drawing with clipping
  at the right edge, and the command and data bytes the driver hands to
  `lcd_send_byte` for the PCD8544 controller, recorded as a trace. How
  `lcd_send_byte` packs each byte into an SPI transaction is modelled
  separately (see "## Findings").
- `motor.dfy` (`MotorDrive`) models the motor bring-up programs: the duty
  clamp, the packing of the three hall sensors into a 3-bit state, and the
  exact duty sequences of the start-up loops.

The two state machines, `Interlock` and `ControlTick`, have two layers. The
first is a value datatype with one pure step function per handler, and
lemmas over sequences of steps (reachable-state invariants, latches). The
second is a class with the source's fields, whose methods change them in
place; each method's postcondition ties the new state to the step function
applied to the old state. In `Nokia5110`, the drawing methods of `Lcd` are
tied the same way to functions on a `Screen` value (`PutChar`, `PutString`)
and the transmitting methods to trace functions (`UpdateTrace`,
`ContrastCommands`), while `SetCursor` and `SetContrast` state their new
fields directly. `MotorDrive.DutyChannel` states its duty sequence through
the functions `Clamp`, `Ramp` and `ClampAll`. The `Bike` class of
`ArduinoPrototype` has no value layer: its methods state the new fields
directly, in terms of `Sub32`, `Constrain`, `LedcDuty` and the predicate
`Authenticates`.

## Model

| member | source | states |
|---|---|---|
| CTypes.Sub32 | test/arduino_system/ebike_arduino.c:60 | `unsigned long` subtraction: adding the result back to `b` gives `a` modulo 2^32; without a wrap it is the ordinary difference, with one it is `a + 2^32 - b` |
| CTypes.ToUint8 | test_codes/src/system_code_test_1.c:122 | a cast to `uint8_t` keeps values below 256 unchanged |
| CTypes.Level | test_codes/src/motor_sensors.c:63-65 | a pin level is 0 or 1, and 1 exactly when the pin is high |
| Interlock.Shutdown | firmware/main/main.c:86-93 | `shutdown_system` leaves the system not activated and waiting for a tag, with relay, LED and light all low, and keeps the coupling |
| Interlock.Startup | firmware/main/main.c:115 | the state in which the main loop starts is the shutdown state, whatever the pins held before |
| Interlock.OnTag | firmware/main/main.c:55-61 | activation after a tag happens exactly when the system was active or was waiting and the PICC is ACTIVE; such a tag clears `waiting_tag` and raises relay and LED; any other tag changes nothing |
| Interlock.BlindSpot | firmware/main/main.c:134-137 | while activated the light equals the motion level; while off nothing changes |
| Interlock.Step | firmware/main/main.c:117-141 | a debounced press (low on both samples) shuts down and enters the release wait; a low sample followed by a high one leaves activation and relay alone; while the button is held the wait stays; no step but a tag switches the system on; every step keeps the coupling |
| Interlock.RunKeepsCoupled | firmware/main/main.c:55-93 | any sequence of steps from a coupled state keeps `system_activated == !waiting_tag`, relay and LED equal to activation, and the light off while inactive |
| Interlock.ReachableCoupled | firmware/main/main.c:115-141 | every state reachable from start-up satisfies that coupling: `system_activated == !waiting_tag`, relay and LED follow it, the light only while activated |
| Interlock.OnlyTagReactivates | firmware/main/main.c:55-58 | from a deactivated state, a run that ends activated contains a tag event in the ACTIVE state that arrives while `waiting_tag` is set |
| Interlock.NoTagKeepsPowerOff | firmware/main/main.c:117-141 | with the system off and no tag, any polling, button or motion input leaves it shut down: not activated, waiting for a tag, relay, LED and light low |
| Interlock.TagDuringReleaseWaitReactivates | firmware/main/main.c:125-127 | a tag presented while the loop still waits for the button's release switches the system back on |
| Interlock.ShutdownIdempotent | firmware/main/main.c:86-93 | shutting down twice equals shutting down once |
| Interlock.Firmware.Boot | firmware/main/main.c:114-115 | the object starts in the shutdown state, polling |
| Interlock.Firmware.OnRfidDetection | firmware/main/main.c:50-62 | the callback updates the globals and pins as `OnTag` does |
| Interlock.Firmware.ShutdownSystem | firmware/main/main.c:86-93 | the new state is `Shutdown` of the old one |
| Interlock.Firmware.BlindSpotControl | firmware/main/main.c:133-141 | the new state is `BlindSpot` of the old one |
| Interlock.Firmware.PollStep | firmware/main/main.c:118-141 | reports a press exactly when both samples are low; the new state is `Step` on a poll event |
| Interlock.Firmware.AwaitRelease | firmware/main/main.c:125-130 | leaves the wait exactly when a high sample arrives, then runs the blind-spot section; otherwise nothing changes |
| ControlTick.AssistanceLevel | test_codes/src/system_code_test_1.c:121-122 | for a 12-bit code the level is `code*100/4095`, in 0..100; full scale gives 100 and codes below 41 give 0 |
| ControlTick.AssistanceLevelMonotone | test_codes/src/system_code_test_1.c:122 | for codes up to 4095 the level never decreases as the code grows |
| ControlTick.Duty | test_codes/src/system_code_test_1.c:145 | for a level up to 100 the duty lies in 0..1024; it is 1024 only at level 100 and 0 only at level 0 |
| ControlTick.DutyMonotone | test_codes/src/system_code_test_1.c:145 | a higher level never gives a lower duty |
| ControlTick.SelectDirection | test_codes/src/system_code_test_1.c:111-118 | the first switch reading low selects 0, 1 or 2; with none low the direction is kept |
| ControlTick.ReadSensors | test_codes/src/system_code_test_1.c:103-131 | the warning lights equal the radar inputs, the direction follows `SelectDirection`, the stored level is `AssistanceLevel` of the raw code (so at most 100 for a 12-bit code), and no other field changes |
| ControlTick.ControlMotor | test_codes/src/system_code_test_1.c:133-151 | when latched or inactive, enable is low and duty 0; otherwise enable is high, the duty is `Duty(level)`, and the direction pin is low exactly when the direction is 0 |
| ControlTick.CheckEmergency | test_codes/src/system_code_test_1.c:153-163 | a low input latches the stop and deactivates; a high input changes nothing |
| ControlTick.RfidCallback | test_codes/src/system_code_test_1.c:192-200 | afterwards the system is active exactly when it was active or the credential is authenticated with no latch; otherwise nothing changes |
| ControlTick.ButtonIsr | test_codes/src/system_code_test_1.c:202-211 | toggles the mode and nothing else |
| ControlTick.TaskTick | test_codes/src/system_code_test_1.c:165-190 | the gate skips the tick when inactive or latched; a tick with a low emergency input latches, and one with a high input leaves the motor enabled |
| ControlTick.SafeTaskTick | test_codes/src/system_code_test_1.c:167-170 | with the emergency check before the motor command, a latching tick also turns the motor off; otherwise it equals `TaskTick` |
| ControlTick.StepKeepsLatch | test_codes/src/system_code_test_1.c:153-194 | every handler keeps "latched implies inactive" and never clears the latch |
| ControlTick.RunKeepsLatch | test_codes/src/system_code_test_1.c:52-194 | over any sequence of events, "latched implies inactive" holds and a latched stop stays latched |
| ControlTick.ModeToggleInvolution | test_codes/src/system_code_test_1.c:204 | two mode toggles are the identity |
| ControlTick.SafeStepKeepsMotorSafe | test_codes/src/system_code_test_1.c:134-138 | with the corrected tick, each event keeps the motor off while inactive or latched |
| ControlTick.SafeRunKeepsMotorSafe | test_codes/src/system_code_test_1.c:133-170 | the same over any sequence of events |
| ControlTick.ReachableMotorSafe | test_codes/src/system_code_test_1.c:165-170 | with the corrected tick, every state reachable from power-on has the motor off while inactive or latched |
| ControlTick.LatchingTickLeavesMotorEnabled | test_codes/src/system_code_test_1.c:167-170 | as written, for every running state and every input with the emergency input low, the tick latches the stop and deactivates yet leaves the motor enabled at the duty the potentiometer asked for, which breaks `MotorSafe` |
| ControlTick.EmergencyLeavesMotorRunning | test_codes/src/system_code_test_1.c:167-170 | as written, one activation and one tick with the emergency input low leave the stop latched and the motor enabled at duty 1024 |
| ControlTick.SystemState.constructor | test_codes/src/system_code_test_1.c:52 | the record starts zeroed |
| ControlTick.SystemState.SystemReadSensors | test_codes/src/system_code_test_1.c:103-131 | the new state is `ReadSensors` of the old one |
| ControlTick.SystemState.SystemControlMotor | test_codes/src/system_code_test_1.c:133-151 | the new state is `ControlMotor` of the old one |
| ControlTick.SystemState.SystemCheckEmergency | test_codes/src/system_code_test_1.c:153-163 | the new state is `CheckEmergency` of the old one |
| ControlTick.SystemState.SystemTaskIteration | test_codes/src/system_code_test_1.c:165-190 | the new state is `TaskTick` of the old one |
| ControlTick.SystemState.RfidCallbackHandler | test_codes/src/system_code_test_1.c:192-200 | the new state is `RfidCallback` of the old one |
| ControlTick.SystemState.ButtonIsrHandler | test_codes/src/system_code_test_1.c:202-211 | the new state is `ButtonIsr` of the old one |
| ArduinoPrototype.CheckRfid | test/arduino_system/ebike_arduino.c:65-75 | false without a new card or a successful read; true exactly when the first four UID bytes are DE AD BE EF; on a mismatch it stops at the first differing byte |
| ArduinoPrototype.Authenticates | test/arduino_system/ebike_arduino.c:65-75 | `checkRFID` accepts exactly when a new card is present, its serial is read, and UID bytes 0..3 are DE, AD, BE, EF; only those four bytes matter |
| ArduinoPrototype.LongerUidWithPrefixAccepted | test/arduino_system/ebike_arduino.c:69-72 | the UID size is not consulted: a longer UID with the expected prefix is accepted |
| ArduinoPrototype.Constrain | test/arduino_system/ebike_arduino.c:125 | the output lies in [lo, hi], equals the input inside that range, and is the nearer bound outside it |
| ArduinoPrototype.LedcDuty | test/arduino_system/ebike_arduino.c:126 | the integer written is in 0..255 and is the value truncated toward zero |
| ArduinoPrototype.Bike.constructor | test/arduino_system/ebike_arduino.c:44-53 | starts not activated, with the hall interval 1000000 and so nonzero before any edge |
| ArduinoPrototype.Bike.OnHall | test/arduino_system/ebike_arduino.c:58-62 | the interval is `now - lastHallTime` modulo 2^32 (the true elapsed time across a wrap) and `lastHallTime` becomes `now` |
| ArduinoPrototype.Bike.UpdateSpeedControl | test/arduino_system/ebike_arduino.c:113-127 | the speed is recomputed only from a nonzero interval; the PWM value is the PID output clamped to [0, 255] |
| ArduinoPrototype.Bike.CheckTurnSignals | test/arduino_system/ebike_arduino.c:130-133 | each turn signal equals its blind-spot input |
| ArduinoPrototype.Bike.Loop | test/arduino_system/ebike_arduino.c:152-176 | activation is a one-way latch; while not activated the step only polls the credential and lights the LED on success; once activated it runs speed control (the speed is recomputed from a nonzero hall interval, the PWM value is the clamped PID output) and the turn signals |
| Nokia5110.Blank | nokia_lcd/components/lcd_nokia5110/src/lcd_nokia5110.c:108 | the cleared framebuffer: 6 rows of 84 zero bytes |
| Nokia5110.Printable | nokia_lcd/components/lcd_nokia5110/src/lcd_nokia5110.c:116 | characters in 32..127 are kept and all others become a space |
| Nokia5110.FontIndex | nokia_lcd/components/lcd_nokia5110/src/lcd_nokia5110.c:121 | the glyph index `c - 32` is always in 0..95 |
| Nokia5110.CellColumns | nokia_lcd/components/lcd_nokia5110/src/lcd_nokia5110.c:118-130 | six columns: the five glyph columns, complemented when inverted, then a spacer of 0x00 (0xFF when inverted) |
| Nokia5110.DrawColumns | nokia_lcd/components/lcd_nokia5110/src/lcd_nokia5110.c:118-130 | drawing `k` columns advances the cursor to `min(x + k, 84)` on the same row and changes nothing when `x >= 84` |
| Nokia5110.PutByte | nokia_lcd/components/lcd_nokia5110/src/lcd_nokia5110.c:119-122 | one byte at the cursor moves the cursor one column right |
| Nokia5110.DrawColumnsStep | nokia_lcd/components/lcd_nokia5110/src/lcd_nokia5110.c:118-124 | one more column is one byte at the cursor while it is left of the edge, and nothing once it has reached the edge |
| Nokia5110.PutChar | nokia_lcd/components/lcd_nokia5110/src/lcd_nokia5110.c:113-131 | `write_char` advances the cursor by exactly `min(6, 84 - x)` columns, never past 84, and changes nothing when `x >= 84` |
| Nokia5110.PutCharDraws | nokia_lcd/components/lcd_nokia5110/src/lcd_nokia5110.c:118-130 | `write_char` writes the cell's columns on the cursor row between the old and new cursor, and no other byte changes |
| Nokia5110.UntilNul | nokia_lcd/components/lcd_nokia5110/src/lcd_nokia5110.c:134 | the characters of a C string are the prefix before the first NUL, which contains no NUL |
| Nokia5110.PutString | nokia_lcd/components/lcd_nokia5110/src/lcd_nokia5110.c:133-137 | `write_string` is `write_char` for each character before the first NUL; the cursor row is unchanged and the screen stays drawable |
| Nokia5110.PutStringCursor | nokia_lcd/components/lcd_nokia5110/src/lcd_nokia5110.c:133-137 | `write_string` moves the cursor 6 columns per character up to the NUL, stopping at 84, and leaves every other row unchanged |
| Nokia5110.PutStringPastEdge | nokia_lcd/components/lcd_nokia5110/src/lcd_nokia5110.c:113-137 | with the cursor at or past the right edge (any `x` from 84 to 255 that `set_cursor` allows), `write_string` changes nothing |
| Nokia5110.DataBytes | nokia_lcd/components/lcd_nokia5110/src/lcd_nokia5110.c:150-152 | each byte of a row is sent as data, in order |
| Nokia5110.YAddressIsOr | nokia_lcd/components/lcd_nokia5110/src/lcd_nokia5110.c:148 | the Y-address command of row `r` is `0x40 OR r` |
| Nokia5110.RowTrace | nokia_lcd/components/lcd_nokia5110/src/lcd_nokia5110.c:146-152 | one row of `update` is 2 + 84 transmissions: the command `0x40 OR row`, the command 0x80, then the row's bytes as data |
| Nokia5110.UpdateTrace | nokia_lcd/components/lcd_nokia5110/src/lcd_nokia5110.c:145-154 | what `update` sends for its first `n` rows, 86 transmissions per row |
| Nokia5110.UpdateTraceAt | nokia_lcd/components/lcd_nokia5110/src/lcd_nokia5110.c:145-154 | transmission `86r + k` of `update` is the Y-address command of row `r`, then the X-address command 0x80, then that row's 84 bytes as data |
| Nokia5110.UpdateTraceFull | nokia_lcd/components/lcd_nokia5110/src/lcd_nokia5110.c:145-154 | a full update is 516 transmissions |
| Nokia5110.PayloadOfData | nokia_lcd/components/lcd_nokia5110/src/lcd_nokia5110.c:150-152 | the data bytes of a row's data transmissions are the row |
| Nokia5110.PayloadOfRow | nokia_lcd/components/lcd_nokia5110/src/lcd_nokia5110.c:147-152 | a row's address commands carry no data, so its data bytes are exactly the row |
| Nokia5110.UpdatePayloadIsFramebuffer | nokia_lcd/components/lcd_nokia5110/src/lcd_nokia5110.c:145-154 | the data bytes `update` sends are the framebuffer in row-major order |
| Nokia5110.ContrastCommands | nokia_lcd/components/lcd_nokia5110/src/lcd_nokia5110.c:159-161 | `set_contrast` sends exactly three commands: 0x21, `0x80 OR contrast`, 0x20 |
| Nokia5110.TxDataOfPointer | nokia_lcd/components/lcd_nokia5110/src/lcd_nokia5110.c:13-17 | the four `tx_data` bytes of a transaction whose `tx_buffer` was set are the pointer's address, low byte first: they recombine to the address |
| Nokia5110.SentByteAsWritten | nokia_lcd/components/lcd_nokia5110/src/lcd_nokia5110.c:10-20 | as written, the byte on the bus is the low byte of the address of `byte`, not `byte` |
| Nokia5110.SentByteIgnoresArgument | nokia_lcd/components/lcd_nokia5110/src/lcd_nokia5110.c:13-17 | as written, two calls with the same stack address send the same byte whatever byte they were given |
| Nokia5110.CommandLostAsWritten | nokia_lcd/components/lcd_nokia5110/src/lcd_nokia5110.c:13-17 | with the byte at 0x3FFB1234, the command 0x21 goes out as 0x34 |
| Nokia5110.SentByte | nokia_lcd/components/lcd_nokia5110/src/lcd_nokia5110.c:10-20 | as intended, the transfer sends exactly the byte passed in |
| Nokia5110.InitCommands | nokia_lcd/components/lcd_nokia5110/src/lcd_nokia5110.c:89-94 | the six set-up commands 0x21, `0x80 OR contrast`, 0x06, 0x13, 0x20, 0x0C; the first two and the fifth are those `set_contrast` sends |
| Nokia5110.Lcd.Init | nokia_lcd/components/lcd_nokia5110/src/lcd_nokia5110.c:31-102 | after a successful init the buffer is blank, the cursor is (0, 0), inversion is off, and the six set-up commands have been sent |
| Nokia5110.Lcd.Clear | nokia_lcd/components/lcd_nokia5110/src/lcd_nokia5110.c:106-111 | every framebuffer byte is 0 and the cursor is (0, 0) |
| Nokia5110.Lcd.SetCursor | nokia_lcd/components/lcd_nokia5110/src/lcd_nokia5110.c:139-143 | stores the cursor without a bounds check |
| Nokia5110.Lcd.PutColumn | nokia_lcd/components/lcd_nokia5110/src/lcd_nokia5110.c:119-122 | one column written in place is `PutByte` on the screen |
| Nokia5110.Lcd.DrawCell | nokia_lcd/components/lcd_nokia5110/src/lcd_nokia5110.c:118-130 | the glyph loop and the spacer draw the cell's six columns with clipping, as `DrawColumns` |
| Nokia5110.Lcd.WriteChar | nokia_lcd/components/lcd_nokia5110/src/lcd_nokia5110.c:113-131 | the screen after `write_char` is `PutChar` of the one before |
| Nokia5110.Lcd.WriteString | nokia_lcd/components/lcd_nokia5110/src/lcd_nokia5110.c:133-137 | `write_string` equals `write_char` applied to each character in order up to the NUL |
| Nokia5110.Lcd.SendLine | nokia_lcd/components/lcd_nokia5110/src/lcd_nokia5110.c:150-152 | the inner loop sends the row's 84 bytes as data, left to right |
| Nokia5110.Lcd.SendRow | nokia_lcd/components/lcd_nokia5110/src/lcd_nokia5110.c:147-152 | one row: the address commands, then the row's bytes |
| Nokia5110.Lcd.Update | nokia_lcd/components/lcd_nokia5110/src/lcd_nokia5110.c:145-154 | the bytes handed to `lcd_send_byte` are `UpdateTrace` of the framebuffer |
| Nokia5110.Lcd.SetContrast | nokia_lcd/components/lcd_nokia5110/src/lcd_nokia5110.c:156-162 | stores the contrast and appends `ContrastCommands` to the trace |
| MotorDrive.Clamp | test_codes/src/motor_sensors.c:68-69 | the duty written is `min(duty, 1023)`: never above 1023 or the request, and a request up to 1023 passes unchanged |
| MotorDrive.ClampIdempotent | test_codes/src/motor_function.c:50 | clamping twice equals clamping once |
| MotorDrive.ClampMonotone | test/motor_test/main/main.c:50 | a larger request never gives a smaller duty |
| MotorDrive.HallState | test_codes/src/motor_sensors.c:62-66 | the packed hall state is in 0..7 |
| MotorDrive.HallBits | test_codes/src/motor_sensors.c:63-65 | the shift-and-or packing fits in three bits |
| MotorDrive.HallStateIsSum | test_codes/src/motor_sensors.c:62-66 | the packing equals `W*4 + V*2 + U` |
| MotorDrive.HallStateDecodes | test_codes/src/motor_sensors.c:63-65 | U, V and W are bits 0, 1 and 2 of the state |
| MotorDrive.HallStateInjective | test_codes/src/motor_sensors.c:63-65 | different sensor readings give different states |
| MotorDrive.HallStateOnto | test_codes/src/motor_sensors.c:62-66 | every state 0..7 is the packing of its own bits |
| MotorDrive.Ramp | test_codes/src/motor_function.c:63-66 | element `i` of a ramp is `first + step*i` |
| MotorDrive.RampIncreasing | test/motor_test/main/main.c:63-66 | consecutive ramp duties are exactly `step` apart |
| MotorDrive.ClampAll | test_codes/src/motor_function.c:49-50 | each request reaches the channel as its clamp |
| MotorDrive.ClampAllInRange | test_codes/src/motor_function.c:50 | requests up to 1023 reach the channel unchanged |
| MotorDrive.SoftStartShape | test_codes/src/motor_sensors.c:83-87 | the soft start sends 50 duties from 0 to 490, 10 apart, all below the clamp |
| MotorDrive.RampCount | test_codes/src/motor_function.c:63 | the `for` loop runs as many times as `first + step*(n-1) <= last < first + step*n` allows, and zero times when `last < first` |
| MotorDrive.RampCountExact | test/motor_test/main/main.c:63 | a loop that ran `k` times and then stopped ran `RampCount` times |
| MotorDrive.RampUpStep | test_codes/src/motor_function.c:63-66 | one pass of the ramp loop appends the clamp of the next request |
| MotorDrive.RampHoldStopClamped | test_codes/src/motor_function.c:63-73 | the channel receives the clamped ramp, then the clamped hold duty, then 0 |
| MotorDrive.RampHoldStopShape | test/motor_test/main/main.c:63-73 | for `first <= last <= 1023` the ramp rises by 50 from `first` and stays at most `last`; `last` follows it and the final duty 0 stops the motor |
| MotorDrive.MotorFunctionDuties | test_codes/src/motor_function.c:63-73 | motor_function.c requests 300, 350, ..., 600, then 600, then 0 |
| MotorDrive.MotorTestDuties | test/motor_test/main/main.c:63-73 | motor_test requests 600, 650, ..., 900, then 900, then 0 |
| MotorDrive.DutyChannel.constructor | test_codes/src/motor_function.c:35 | the channel starts with nothing written, as `ledc_channel_config` with `.duty = 0` leaves it |
| MotorDrive.DutyChannel.SetMotorSpeed | test_codes/src/motor_function.c:49-54 | appends the clamped duty to the channel |
| MotorDrive.DutyChannel.SoftStart | test_codes/src/motor_sensors.c:82-87 | the soft-start loop appends exactly `SoftStartDuties` |
| MotorDrive.DutyChannel.RampUp | test/motor_test/main/main.c:63-66 | the ramp loop appends the clamped ramp of `RampCount` requests |
| MotorDrive.DutyChannel.RampHoldStop | test_codes/src/motor_function.c:63-73 | ramp, hold and stop append the clamped `RampHoldStopDuties` |
| MotorDrive.DutyChannel.MotorFunctionMain | test_codes/src/motor_function.c:56-76 | the channel receives 300, 350, ..., 600, 600, 0 |
| MotorDrive.DutyChannel.MotorTestMain | test/motor_test/main/main.c:56-76 | the channel receives 600, 650, ..., 900, 900, 0 |

## Left out

- Peripheral set-up and HAL calls (`gpio_config`, `ledc_*`, `adc1_*`, `spi_bus_*`, `rc522_*`, `MFRC522`, `Adafruit_PCD8544`) are not modelled. Pin levels, ADC codes, card reads and `micros()` are parameters.
- Delays (`vTaskDelay`, `delay`) are not modelled. A debounce is two samples, and the release wait is a run of samples.
- Concurrency is not modelled. The FreeRTOS queues, `xQueueSend` and the UI events are left out, and each handler or interrupt is one atomic step; races on `volatile` globals are not.
- Floating-point values are left out: the battery voltage and simplified speed in system_code_test_1.c, the battery voltage in ebike_arduino.c, and the PID law with `targetSpeed`, `speedIntegral` and `lastSpeedError`. The PID output enters `UpdateSpeedControl` as a parameter, over `real`.
- ArduinoPrototype.Bike.UpdateSpeedControl: `currentSpeed` is stated as the exact real quotient `1000000 / hallInterval`. The source divides in double precision and stores the result in a `float`, so it holds a rounded value (333333.34375 for an interval of 3); that rounding is not modelled.
- ArduinoPrototype.Bike.Loop: once activated, `currentSpeed` is the same exact real quotient as in `UpdateSpeedControl`, without the `float` rounding.
- ArduinoPrototype.Bike.Loop: `updateDisplay` and the display calls after a successful check are not modelled, because they only drive the screen.
- ControlTick.AssistanceLevel: `adc1_get_raw` returns -1 on error. Stored in a `uint32_t`, that is 2^32 - 1, so the model accepts any `uint32_t` code. The 0..100 bound is stated only for codes up to 4095.
- Nokia5110.Lcd.Init: only the successful path is modelled. The allocation and SPI failure returns, the reset-pin sequence and `lcd_nokia5110_deinit` only manage memory and the bus.
- Nokia5110.Lcd.Update: the trace holds the bytes handed to `lcd_send_byte`, each with its D/C level. The SPI transaction encoding is modelled only by `SentByteAsWritten` and `SentByte`, and the rest of the model assumes the intended encoding.
- Nokia5110: the font table's data (font_5x7.h) is not part of this model. The font is an abstract 96 x 5 table.
- Nokia5110: no function in the driver sets `inverted` after init. The invert, pixel, line, rectangle and bitmap functions declared in the header have no implementation in the driver source.
- Nokia5110.Lcd.WriteChar: the cursor row must be inside the buffer (or the cursor past the right edge). `set_cursor` does not check it, and out of that range the source writes outside the array.
- Nokia5110.Lcd.WriteString: a C string is a byte sequence read up to its first NUL or its end.
- MotorDrive.DutyChannel.RampUp: requires `last < 2^32 - 50`. For a larger `last` the 32-bit counter can wrap to a small value, and the loop goes on sending duties from there, possibly for billions of steps; it never ends only when `last` is 2^32 - 1 (or 2^32 - 2 with an even `first`). Both source loops use 600 and 900.
- MotorDrive: the hall `printf` inside the soft start and the endless monitoring loop of motor_sensors.c only print the state, so they are not modelled.
- The older driver variant nokia_lcd/components/lcd_nokia5110/lcd_nokia5110.c, the other display and demo programs, the RFID component that accepts any card, and the vendored Espressif files are not part of this model.
- The code has no separate emergency-stopped state, stale-speed timeout, accelerator deadband or anti-windup PID, so the model has none: the activation state is two flags in firmware/main/main.c and a latch in system_code_test_1.c.

## Findings

| source | as written | input that shows it | evidently intended | confidence | as-written member | corrected member |
|---|---|---|---|---|---|---|
| test_codes/src/system_code_test_1.c:167-170 | `system_task` runs `system_control_motor` before `system_check_emergency`. A tick that latches the stop has already enabled the motor, and the gate then skips every later tick, so the motor stays enabled at its last duty while latched | an RFID activation, then one tick with all direction switches high, the potentiometer at 4095 and the emergency input low: the stop is latched, the motor enabled, duty 1024 | a latching tick turns the motor off in the same tick (check before command), so the motor is off whenever the system is inactive or latched | not executed; high | ControlTick.EmergencyLeavesMotorRunning | ControlTick.SafeTaskTick |
| nokia_lcd/components/lcd_nokia5110/src/lcd_nokia5110.c:13-17 | `lcd_send_byte` sets `.tx_buffer = &byte` and also `SPI_TRANS_USE_TXDATA`. With that flag the SPI driver sends the `tx_data` member, which shares storage with `tx_buffer`, so it sends the bytes of the pointer rather than `byte` | the command 0x21 with `byte` at address 0x3FFB1234: the bus carries 0x34 | the byte itself is sent: either place it in `tx_data` or leave the flag off, as the older driver variant does | not executed; medium (relies on the SPI driver's documented meaning of `SPI_TRANS_USE_TXDATA`) | Nokia5110.SentByteAsWritten | Nokia5110.SentByte |
