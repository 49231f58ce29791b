# Motor speed controller — Dafny model

A model of the control core of a MicroBlaze motor speed controller. A
cooperative main loop samples an operator panel (16 switches, five push
buttons, a rotary encoder with a button and a switch), commits a changed
sample, and runs one of three mode tasks. SET tunes the three PID gains,
RUN turns the encoder count into a speed setpoint and runs one PID tick
against the PMODHB3 motor-driver peripheral, and CRASH zeroes the panel
and halts. A fixed-interval-timer handler is a second sampler that shares
the handshake flag and main.c's committed `sw`. An earlier variant of the program (project2.c) has the
same commit and tuning logic over hard-coded readings.

Files and modules:

- `system_h.dfy` (`SystemH`): the C integer widths as subset types, the
  explicit narrowing conversions, `GET_BIT`, the mode codes and step
  factors, and the arithmetic lemmas that tie `GET_BIT` to binary digits.
- `panel_logic.dfy` (`PanelLogic`): the mode rule and the gain-tuning
  arithmetic, which src/main.c and src/project2.c share line for line.
- `pmodhb3_ip.dfy` (`Pmodhb3`): the motor-driver interface as a class whose
  state is the driver's two statics and the peripheral's register file.
- `system_interrupts.dfy` (`SystemInterrupts`): `FIT_Handler` as a step
  function over its statics and shared globals, and as a class.
- `main_model.dfy` (`MainModel`): src/main.c as step functions over a
  record `Ctl` of its globals and function statics. It holds one function
  per task, the loop pass built from them, and the properties they keep
  over any number of passes.
- `main_controller.dfy` (`MainController`): src/main.c as a class. The
  globals are its fields, `kpid` is an array updated in place, and the
  motor driver is a `Pmodhb3.Driver`. Every task method is proved to
  change the state exactly as the matching `MainModel` function says.
  Each method that talks to the driver is also proved to leave exactly the
  register write that function issues.
- `project2.dfy` (`Project2`): the earlier variant, as functions and as a
  class.

Modelling conventions:

- C narrowing is explicit. A store into a `u8`/`u16` keeps the value
  modulo 2^8/2^16, and a store into an `int16_t`/`int32_t` wraps in two's
  complement (`ToU8`, `ToU16`, `ToI16`, `ToI32`).
- The command word `1<<9 | d<<8 | m` is written as the sum of its three
  disjoint bit fields. `CommandWordFields` proves that decoding it gives
  back each field.
- The hardware reads are parameters: the switch, button and encoder
  registers (`RawPanel`), the encoder's rotary count, the watchdog's
  expired status and the driver's speed register. The speed register is
  read through a `Driver` held by the controller.
- The floating-point PID sum of `pid` (src/main.c:463) and its conversion
  to `u8` are a caller-supplied function `weigh` from the integer terms
  (`PidTerms`) to a `u8`. The clamp to 200 and the command encoding that
  follow it are modelled and proved.
- The endless loop of `crash_task` is a `halted` flag. A pass on a halted
  controller changes nothing, issues no command and does not restart the
  watchdog.
- Where the code and its documentation disagree, the model follows the
  code. Two examples: `set_task` decrements the gain in an `int16_t`
  before clamping, and project2.c's loop never lowers the flag. There is
  one exception: `run_task` in main.c narrows the setpoint to a `u16`
  before it clamps it to 5000. The main-loop model uses the clamp-first
  setpoint instead. The code as written is modelled beside it, see
  Findings. The members whose contracts name the corrected setpoint are
  listed under "Left out". MainModel.Pass, MainModel.ModeStep,
  MainModel.Run, MainController.Controller.ModeTask and
  MainController.Controller.LoopPass inherit it through MainModel.RunStep.

## Model

| member | source | states |
|---|---|---|
| SystemH.GetBit | src/system.h:73 | `GET_BIT(x,pos)` is always 0 or 1 |
| SystemH.GetBitOfDigit | src/system.h:73 | `GET_BIT` returns exactly the binary digit at position pos of a value built from a high part, that digit and a low part |
| SystemH.GetBitSplits | src/system.h:73 | every value splits at pos into the part above, the digit `GET_BIT` returns, and the part below, so `GET_BIT(x,pos)` is bit pos of x |
| SystemH.ModeCodes | src/system.h:74-76 | SET, RUN and CRASH are pairwise distinct, and the `mode > 1` wrap of the toggle maps SET to RUN and RUN to SET |
| SystemH.Not | src/main.c:357 | C's `!x` is 1 exactly when x is 0, and otherwise 0 |
| SystemH.ToU16 | src/main.c:266 | a store into a u16 keeps the value modulo 65536 and leaves in-range values unchanged |
| SystemH.ToI16 | src/main.c:280 | a store into an int16_t keeps the value modulo 65536 in [-32768, 32767] and leaves in-range values unchanged |
| SystemH.ToI32 | src/main.c:460 | the int32 integral accumulator wraps modulo 2^32 and leaves in-range values unchanged |
| SystemH.ToU8 | src/main.c:187 | a store into a u8 keeps the value modulo 256 and leaves in-range values unchanged |
| PanelLogic.SwitchField | src/main.c:215 | `(sw & (3 << lo)) >> lo` is a 2-bit field below 4 |
| PanelLogic.SwitchFieldBits | src/main.c:215 | that field is 2·bit(lo+1) + bit(lo) as `GET_BIT` reads them |
| PanelLogic.StepFactor | src/main.c:215-242 | field 0 gives step 1, field 1 gives 5, fields 2 and 3 give 10; the result is always one of 1, 5 and 10 |
| PanelLogic.NextCursor | src/main.c:250-258 | the cursor always lands in {0,1,2}; from a valid cursor, button bit 0 advances it cyclically and otherwise it is kept |
| PanelLogic.RaiseGain | src/main.c:262-272 | the increased gain is at most 255 and equals min(k+step, 255) whenever the u16 sum does not wrap |
| PanelLogic.LowerGain | src/main.c:276-286 | the decreased gain is below 32768 and, for k < 32768, is k-step or 0 when the step exceeds k |
| PanelLogic.AdjustGain | src/main.c:262-286 | button bit 3 increases and wins over bit 2, which decreases; with neither the gain is kept; a gain ≤ 255 stays ≤ 255 |
| PanelLogic.AdjustGainClamped | src/main.c:262-286 | a gain in [0,255] moves by exactly one step, clamped at 255 on the way up and at 0 on the way down |
| PanelLogic.NextMode | src/main.c:183-196 | encoder switch bit 0 forces CRASH over everything; otherwise button bit 4 maps SET to RUN and RUN to SET; without bit 4 the mode is kept; a valid mode stays valid |
| PanelLogic.ToggleIsInvolution | src/main.c:183-190 | two commits with the centre button held return SET or RUN to itself |
| Pmodhb3.Address | src/PMODHB3_IP.c:41 | a register's bus address is base+offset on the 32-bit bus |
| Pmodhb3.Poke | src/PMODHB3_IP.c:54 | a register write changes the addressed register to the data and no other register |
| Pmodhb3.DistinctRegisters | src/PMODHB3_IP.c:37-59 | the speed register and the command register of one base address are different registers |
| Pmodhb3.Driver.constructor | src/PMODHB3_IP.c:10-11 | the driver starts uninitialised with a zero stored address |
| Pmodhb3.Driver.Peek | src/PMODHB3_IP.c:37-47 | a read returns 0xFFFFFFFF while uninitialised and otherwise the register at (base, offset) |
| Pmodhb3.Driver.Initialize | src/PMODHB3_IP.c:15-35 | a null address fails and de-initialises even an initialised driver; a repeat succeeds and keeps the first address; a first call stores the address and initialises; success iff initialised afterwards |
| Pmodhb3.Driver.GetRpm | src/PMODHB3_IP.c:37-47 | returns the sentinel 0xFFFFFFFF when uninitialised, else the register at the parameter base and offset (not the stored address); changes nothing |
| Pmodhb3.Driver.SetConfig | src/PMODHB3_IP.c:49-59 | uninitialised: fails and writes nothing; initialised: succeeds, writes the data at the parameter (base, offset), a read of it returns the data, and every other register reads as before |
| Pmodhb3.WriteThenRead | src/PMODHB3_IP.c:15-59 | after initialising with a non-null address, a command written to register 1 reads back, and register 0 still holds its old value |
| SystemInterrupts.Seeded | src/system_interrupts.c:41-46 | the first call seeds prevBtns=0x8F and prevSw=0xFFFF and marks the handler initialised; later calls change nothing here |
| SystemInterrupts.FitStep | src/system_interrupts.c:33-66 | while the flag is pending only the seeding happens; the handler never clears the flag; otherwise sw/btns are the readings, prevSw/prevBtns become them, and the flag is raised iff they differ from the last sampled (not committed) values |
| SystemInterrupts.NoChangeIsIdle | src/system_interrupts.c:55-65 | readings equal to the last sampled values raise no flag and leave the prev values as they were |
| SystemInterrupts.PendingIsFrozen | src/system_interrupts.c:49-51 | while the flag is pending, any number of invocations change nothing |
| SystemInterrupts.FirstChangeRetained | src/system_interrupts.c:49-65 | of a burst of readings before the consumer drains the flag, the first one that differs is the one published (single slot, no queue) |
| SystemInterrupts.FirstReadingIsAChange | src/system_interrupts.c:41-46 | after the seeding, the first button reading with bit 7 clear raises the flag |
| SystemInterrupts.FitHandler.constructor | src/system_interrupts.c:35 | statics and globals start at zero with the flag raised |
| SystemInterrupts.FitHandler.Handle | src/system_interrupts.c:33-66 | the handler's new statics and globals are exactly FitStep of the old ones |
| MainModel.Init | src/main.c:29-63 | the starting globals satisfy the loop invariant |
| MainModel.Sample | src/main.c:148-154 | a sample takes the switches and buttons as read, the encoder button from bit 0 and the encoder switch from bit 1 of the encoder register |
| MainModel.InputStep | src/main.c:123-168 | the first call seeds btn=0x8F and sw=0xFFFF and lowers the flag; while the flag is pending nothing is sampled; otherwise the panel is sampled and the flag raised exactly when the sample differs from the committed panel, and copyData is bit 1 of the committed btn; nothing else changes |
| MainModel.FirstSampleIsAChange | src/main.c:129-135 | thanks to the seeds, the first sample raises the flag whenever button bit 7 is clear |
| MainModel.Commit | src/main.c:175-197 | all four sampled values become the committed ones and the mode follows NextMode; nothing else changes |
| MainModel.SetStep | src/main.c:206-287 | the step sizes follow switches 6:5 and 4:3, the cursor moves by NextCursor, only the selected gain changes (by AdjustGain), and gains in [0,255] stay there |
| MainModel.IncreaseWins | src/main.c:262-286 | with the increase button held, the selected gain goes up by one clamped step even when decrease is held too |
| MainModel.CommandedSetpoint | src/main.c:323-335 | the corrected setpoint is never above 5000; it is clamped before it is narrowed (see Findings) |
| MainModel.CommandedSetpointMonotone | src/main.c:323-335 | a larger count never gives a smaller setpoint |
| MainModel.SetpointAsWritten | src/main.c:323-340 | the setpoint as the code computes it (narrowed to u16, then clamped) is still at most 5000 |
| MainModel.SetpointWrapCounterexample | src/main.c:323-335 | as written, 2785 gives 5000 but 2790 gives 111, where the intended value is 5000 |
| MainModel.SetpointAsWrittenAgrees | src/main.c:323-335 | as written and corrected agree on every count up to 2785 |
| MainModel.NextDirection | src/main.c:326-330 | direction is 1 for a positive count, 0 for a negative one, and kept for zero |
| MainModel.SetpointStep | src/main.c:317-360 | rotaryCount is count·set_pt_mod narrowed to int16; the setpoint ≤ 5000; the direction follows the sign; the integral is 0 when the setpoint changed and kept otherwise; encoder button bit 0 flips the latch; setpoint 0 while the latch is 0 |
| MainModel.FullReverseSwing | src/main.c:317-335 | a count of -255 at multiplier 10 gives -2550 counts, the 5000 rpm clamp, and reverse direction |
| MainModel.Duty | src/main.c:448-449 | below 5000 rpm the duty value is rpm·255/6000 and at most 212 |
| MainModel.DutyMonotone | src/main.c:448-449 | the duty conversion is monotone below 5000 rpm |
| MainModel.CommandWordFields | src/main.c:432-433 | the word `1<<9 \| d<<8 \| m` decodes to enable bit 1, direction bit d and magnitude m |
| MainModel.PidStep | src/main.c:421-479 | the first call only arms (`1<<9 \| direction<<8 \| 0x1F`) and touches no error or integral; later calls never re-arm; at or above 5000 rpm nothing is written or changed; otherwise error = target - actual duty, the integral grows by it, and the word written is exactly `1<<9 \| !direction<<8 \| min(weigh(terms), 200)`, which decodes to enable 1, direction !direction and a magnitude never above 200 |
| MainModel.ArmingWordFields | src/main.c:429-437 | the arming word carries the logical direction, the enable bit and magnitude 0x1F |
| MainModel.NotReadyHoldsCommand | src/main.c:444-455 | the driver's not-ready sentinel reads as 65535 rpm, so an armed pid writes nothing and keeps its state |
| MainModel.RunStep | src/main.c:312-364 | after run_task the setpoint is at most 5000 and pid leaves the setpoint and direction as the setpoint part set them |
| MainModel.SetpointChangeResetsIntegral | src/main.c:350-353 | on a tick where the setpoint changed, the integral after pid is just that tick's error (or 0 when the tick is skipped) |
| MainModel.CrashStep | src/main.c:372-388 | crash_task zeroes the committed panel, halts, and changes nothing else |
| MainModel.ModeStep | src/main.c:396-412 | mode_task runs set_task in SET, run_task in RUN, crash_task in CRASH, and nothing for any other code |
| MainModel.WatchdogRestart | src/main.c:96-102 | the watchdog is restarted iff it reports expired and the sampled encoder switch is 0 |
| MainModel.Drained | src/main.c:92-108 | mode_task runs with the flag low: after the commit and flag clear when the sample raised it, on the sampled state otherwise |
| MainModel.Pass | src/main.c:92-111 | a halted controller does nothing; otherwise the watchdog follows WatchdogRestart on the fresh sample and mode_task runs on the drained state — on every pass |
| MainModel.CommitPrecedesDispatch | src/main.c:104-110 | a sample that raised the flag is committed, and its mode rule applied, before mode_task runs in the same pass |
| MainModel.RunActsWithoutCommit | src/main.c:110 | in RUN the setpoint follows the encoder even on a pass that commits nothing |
| MainModel.HeldIncreaseRepeats | src/main.c:110 | a held increase button applies again on every SET pass although the unchanged panel commits nothing |
| MainModel.PassKeepsInv | src/main.c:92-111 | every pass keeps gains in [0,255], cursor in {0,1,2}, a valid mode, setpoints ≤ 5000, step factors in {1,5,10} |
| MainModel.Run | src/main.c:92-114 | successive passes keep the record well formed |
| MainModel.RunKeepsInv | src/main.c:92-114 | from a state satisfying the invariant (such as the start state), any sequence of readings keeps it |
| MainModel.CrashIsTerminal | src/main.c:387 | once halted, no sequence of readings changes the state |
| MainController.Issued | src/PMODHB3_IP.c:49-59 | a task's write lands in the register file only when the driver is initialised |
| MainController.Controller.constructor | src/main.c:29-63 | the controller starts in MainModel.Init with a fresh gain array |
| MainController.Controller.InputTask | src/main.c:123-168 | the new state is InputStep of the old |
| MainController.Controller.SeedInput | src/main.c:129-135 | the first-call block changes the state as SeedOnFirstCall says |
| MainController.Controller.SeedCommitted | src/main.c:130-134 | the seeding stores btn=0x8F, sw=0xFFFF, sets the latch and lowers the flag |
| MainController.Controller.SampleInput | src/main.c:137-168 | the rest of input_task returns early while pending and otherwise samples |
| MainController.Controller.SamplePanel | src/main.c:148-166 | the temps become Sample of the readings, the flag is raised on a difference from the committed panel, copyData is button bit 1 |
| MainController.Controller.UpdateBtnSwVal | src/main.c:175-197 | the new state is Commit of the old |
| MainController.Controller.CommitPanel | src/main.c:178-181 | the committed panel becomes the sampled one |
| MainController.Controller.ApplyModeRule | src/main.c:183-196 | the mode becomes NextMode of the old mode on the committed button and encoder switch |
| MainController.Controller.SetTask | src/main.c:206-287 | the new state, kpid array included, is SetStep of the old |
| MainController.Controller.ChooseSteps | src/main.c:215-242 | the step sizes are StepFactor of switches 6:5 and 4:3 |
| MainController.Controller.MoveCursor | src/main.c:250-258 | the cursor becomes NextCursor of the old one |
| MainController.Controller.AdjustSelectedGain | src/main.c:262-286 | the array changes in place only at the selected index, to AdjustGain of the old gain |
| MainController.Controller.Pid | src/main.c:421-479 | the new state is PidStep of the old with the speed the driver reads, and the register file is the old one plus the command PidStep issues |
| MainController.Controller.ArmDriver | src/main.c:429-437 | the arming write is issued and only the latch changes |
| MainController.Controller.Regulate | src/main.c:439-472 | a later pid call changes the state and registers as PidStep says |
| MainController.Controller.Correct | src/main.c:455-472 | the error and integral update, and the clamped command with the inverted direction |
| MainController.Controller.Accumulate | src/main.c:458-460 | error = target - actual and the integral grows by it with int32 wrap |
| MainController.Controller.RunTask | src/main.c:312-364 | the new state and registers are RunStep of the old |
| MainController.Controller.AdjustSetpoint | src/main.c:317-360 | the setpoint part of run_task changes the state as SetpointStep says |
| MainController.Controller.UpdateSetpoint | src/main.c:317-360 | rotaryCount, the setpoint, the direction, the integral reset, and the latch with its forced 0 |
| MainController.Controller.CrashTask | src/main.c:372-388 | the new state is CrashStep of the old |
| MainController.Controller.ClearCommitted | src/main.c:377-380 | the committed panel is zeroed |
| MainController.Controller.ModeTask | src/main.c:396-412 | the new state and registers are ModeStep of the old |
| MainController.Controller.LoopPass | src/main.c:92-111 | one pass changes state and registers and restarts the watchdog exactly as MainModel.Pass says |
| Project2.Init | src/project2.c:27-49 | the variant starts in SET with the flag raised, gains 0 and the invariant holding |
| Project2.InputStep | src/project2.c:97-135 | seeds on the first call; while the flag is pending returns before sampling; otherwise samples and raises the flag iff the switches or buttons differ from the committed ones |
| Project2.EncoderIgnored | src/project2.c:130-132 | readings that differ only in the encoder register raise the flag alike |
| Project2.Commit | src/project2.c:137-157 | all samples are committed and the mode follows NextMode |
| Project2.SetStep | src/project2.c:159-230 | as in the controller: steps from the switch fields, cursor in {0,1,2}, only the selected gain changes, gains stay in [0,255], increase wins |
| Project2.RunStep | src/project2.c:234-265 | run_task ends with stptRPM == stptRPM_temp ≤ 5000 |
| Project2.RunStepKeepsSetpoint | src/project2.c:243-261 | a held setpoint ≤ 5000 is kept, and a second run_task changes nothing |
| Project2.CrashStep | src/project2.c:267-277 | crash_task leaves the state unchanged |
| Project2.ModeStep | src/project2.c:279-294 | dispatch to set_task in SET, run_task in RUN, nothing otherwise |
| Project2.Pass | src/project2.c:78-89 | a pass with the flag low does nothing; with it raised, the committed panel is the sample and the flag is as input_task left it |
| Project2.Run | src/project2.c:78-89 | successive passes keep the record well formed |
| Project2.PassKeepsInv | src/project2.c:78-89 | every pass keeps gains in [0,255], cursor in {0,1,2}, a valid mode and a setpoint ≤ 5000 |
| Project2.StubTogglesMode | src/project2.c:124-128 | the hard-coded button reading 0x19 has bit 4 set, the encoder switch reads 0 |
| Project2.FirstPass | src/project2.c:79-83 | the first pass seeds, finds the stub a change, commits it and enters RUN |
| Project2.LaterPass | src/project2.c:79-85 | a later pass samples nothing, re-commits the stub and toggles the mode |
| Project2.RunSplit | src/project2.c:78-89 | n+1 passes are n passes followed by one |
| Project2.ModeAlternates | src/project2.c:79-85 | the flag is never lowered, so after n ≥ 1 passes from start the mode is n mod 2 (SET/RUN alternate for ever) |
| Project2.Controller.constructor | src/project2.c:27-49 | the controller starts in Project2.Init |
| Project2.Controller.InputTask | src/project2.c:97-135 | the new state is InputStep of the old |
| Project2.Controller.SeedInput | src/project2.c:105-111 | the first-call block changes the state as SeedOnFirstCall says |
| Project2.Controller.SeedCommitted | src/project2.c:106-110 | the seeding stores btn=0x8F, sw=0xFFFF, sets the latch and lowers the flag |
| Project2.Controller.SampleInput | src/project2.c:114-135 | returns early while pending and otherwise samples |
| Project2.Controller.SamplePanel | src/project2.c:124-132 | the temps become Sample of the readings, the flag is raised on a switch or button difference |
| Project2.Controller.UpdateBtnSwVal | src/project2.c:137-157 | the new state is Commit of the old |
| Project2.Controller.CommitPanel | src/project2.c:139-142 | the committed panel becomes the sampled one |
| Project2.Controller.ApplyModeRule | src/project2.c:144-152 | the mode becomes NextMode of the old mode |
| Project2.Controller.SetTask | src/project2.c:159-230 | the new state, kpid array included, is SetStep of the old |
| Project2.Controller.ChooseSteps | src/project2.c:165-189 | the step sizes are StepFactor of the two switch fields |
| Project2.Controller.MoveCursor | src/project2.c:193-201 | the cursor becomes NextCursor of the old one |
| Project2.Controller.AdjustSelectedGain | src/project2.c:204-221 | only the selected gain changes, to AdjustGain of the old |
| Project2.Controller.RunTask | src/project2.c:234-265 | the new state is RunStep of the old |
| Project2.Controller.CrashTask | src/project2.c:267-277 | the state is unchanged |
| Project2.Controller.ModeTask | src/project2.c:279-294 | the new state is ModeStep of the old |
| Project2.Controller.LoopPass | src/project2.c:78-89 | one pass with the hard-coded readings changes the state as Pass says |

## Left out

- The floating-point PID sum (src/main.c:463, `time_step` at src/main.c:424) and its conversion to `u8` are the parameter `weigh`. `rpm_new` (src/main.c:466) feeds only telemetry and is not modelled.
- `pid`'s `pwmVal` parameter, which `pid` never reads, and `run_task`'s `fmin` assignment to it are not modelled. The parameter is uninitialised when the setpoint is unchanged.
- `usleep`/`sleep` delays are timing only.
- The seven-segment display, the decimal-point toggle `dpOn`, and all `xil_printf`/UART telemetry, including `copyData`'s use, produce output only. `copyData` itself is modelled.
- `do_init`, src/system.c and the platform set-up are peripheral bring-up with no control logic.
- The raw hardware reads (`NX4IO_getSwitches`, `NX4IO_getBtns`, `PMODENC544_getBtnSwReg`, `PMODENC544_getRotaryCount`) are method parameters. The peripheral's registers behind `PMODHB3_IP_mReadReg`/`mWriteReg` are a total map from addresses to words.
- PMODHB3_IP.h is not part of this model. The register offsets are taken as 0 (speed) and 4 (command).
- The `XWdtTb_*` watchdog calls are reduced to the restart predicate and the returned `restartWdt` flag.
- Interleaving of `FIT_Handler` with the main loop is concurrency and is left out; each side is a sequential operation. The handler's `btns` global is its own field, because src/main.c defines no `btns`. Its `sw` (src/system_interrupts.c:16) is the committed `sw` of src/main.c:51, which `input_task` compares against and `set_task` reads. `FitState.sw` stands for that global, but the handler's write to it is not connected to the main-loop model, and neither is the interleaving (the timer hookup is commented out at src/system.c:97-118).
- The endless spin at the end of `crash_task` is the terminal `halted` state.
- The unused globals `pwm`, `switch_val` and `last_switch_val` are not modelled.
- Project2.InputStep: takes the readings as a parameter. The loop pass always supplies the hard-coded 0x57/0x19/0. The function therefore also covers readings the variant never sees.
- MainController.Controller.RunTask and MainModel.RunStep: use the corrected setpoint (clamp before narrowing to u16), not the wrap that src/main.c:323 has; see Findings.
- MainModel.SetpointStep: stptRpmTemp is the corrected CommandedSetpoint (clamp before narrowing to u16). src/main.c:323 narrows first, so for \|rotaryCount\| ≥ 2786 the program can get a wrapped setpoint (111 rpm for 2790) where this model gives 5000. The code as written is MainModel.SetpointAsWritten; see Findings.
- MainModel.RunActsWithoutCommit: states the setpoint as the corrected CommandedSetpoint, not the u16 wrap at src/main.c:323, so it can differ from the program once \|rotaryCount\| ≥ 2786.
- MainController.Controller.AdjustSetpoint: inherits the corrected setpoint from MainModel.SetpointStep, not the u16 wrap at src/main.c:323.
- MainController.Controller.UpdateSetpoint: stores the corrected CommandedSetpoint, not the u16 wrap at src/main.c:323, so it can differ from the program once \|rotaryCount\| ≥ 2786.
- MainModel.PidStep: `integralVal += error` is modelled as a 32-bit two's-complement wrap. C leaves signed overflow undefined.

## Findings

| source | as written | input that shows it | evidently intended | confidence | as-written member | corrected member |
|---|---|---|---|---|---|---|
| src/main.c:323-335 | `stptRPM_temp = abs(rotaryCount) * 6000/255` is stored into a `u16` before the `> 5000` clamp, so a product above 65535 wraps first | rotary count 2790 (279 detents at multiplier 10) gives 65647, stored as 111, so the setpoint becomes 111 rpm instead of 5000; every \|count\| ≥ 2786 wraps | clamp the full product to 5000, then store it | not executed | MainModel.SetpointAsWritten (MainModel.SetpointWrapCounterexample) | MainModel.CommandedSetpoint (MainModel.CommandedSetpointMonotone, MainModel.SetpointAsWrittenAgrees) |
