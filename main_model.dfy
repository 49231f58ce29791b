// Specification of the controller's main loop (src/main.c) as functions
// over a record of its globals and function statics: one function per
// task, the loop pass built from them, and the properties they keep.

module MainModel {
  import opened SystemH
  import opened PanelLogic

  datatype Option<T> = None | Some(value: T)

  /** One reading of the operator panel: switches, buttons, encoder button
      and encoder switch. */
  datatype Panel = Panel(sw: u16, btn: u8, encBtn: u8, encSW: u8)

  /** What input_task reads from the hardware: the switch register, the
      button register and the encoder's button/switch register. */
  datatype RawPanel = RawPanel(switches: u16, buttons: u8, encReg: u32)

  /** The controller's globals and function statics. sampled holds
      sw_temp/btn_temp/encBtn_temp/encSW_temp and committed holds
      sw/btn/encBtn/encSW; halted records that crash_task was entered. */
  datatype Ctl = Ctl(
    inputInitialized: bool,
    newbtnsSw: bool,
    sampled: Panel,
    committed: Panel,
    copyData: u8,
    mode: u8,
    selKParams: u8,
    kParamChange: u8,
    setPtMod: u16,
    kpid: seq<u16>,
    rotaryCount: i16,
    stptRpm: u16,
    stptRpmTemp: u16,
    direction: u8,
    rpm: u8,
    integralVal: i32,
    error: i32,
    pidInitialized: bool,
    halted: bool)

  /** Everything one call into the PID sum depends on: the three enable
      selectors, the gains, the new and the previous error and the
      accumulated integral. */
  datatype PidTerms = PidTerms(
    kpSel: nat, kiSel: nat, kdSel: nat, kpid: seq<u16>,
    error: i32, prevError: i32, integral: i32)

  /** A task's new state and the word it hands to the motor driver's
      register 1, if any. */
  datatype Tick = Tick(state: Ctl, command: Option<u32>)

  /** The hardware readings of one main-loop pass; rpmRaw is what the
      driver's speed-register read returns during it. */
  datatype PassInput = PassInput(panel: RawPanel, wdtExpired: bool, count: i32, rpmRaw: u32)

  /** A pass's new state, its motor command and whether it re-armed the
      watchdog. */
  datatype PassResult = PassResult(state: Ctl, command: Option<u32>, restartWdt: bool)

  // Seeds of the committed panel: the inverse of the idle panel.
  const SEED_BTN: u8 := 0x8F
  const SEED_SW: u16 := 0xFFFF

  const RPM_CEILING := 5000       // setpoint limit and sensor sanity gate
  const RATED_RPM := 6000         // full scale of the duty conversion
  const DUTY_SCALE := 255
  const DUTY_LIMIT := 200         // largest magnitude ever commanded
  const ARMING_DUTY: u8 := 0x1F   // magnitude of the one-shot arming command
  const ENABLE_BIT := 9
  const DIRECTION_BIT := 8

  /** Well-formedness every task relies on. */
  predicate Wf(s: Ctl) {
    |s.kpid| == 3 && s.direction <= 1
  }

  predicate GainsInRange(kpid: seq<u16>) {
    forall i :: 0 <= i < |kpid| ==> kpid[i] <= 255
  }

  predicate IsFactor(f: int) {
    f == FACTOR_1 as int || f == FACTOR_5 as int || f == FACTOR_10 as int
  }

  /** What holds between main-loop passes. */
  predicate Inv(s: Ctl) {
    Wf(s) && GainsInRange(s.kpid) && s.selKParams <= 2 &&
    s.mode <= CRASH_MODE && (s.halted <==> s.mode == CRASH_MODE) &&
    (s.inputInitialized ==> !s.newbtnsSw) &&
    s.rpm <= 1 && s.stptRpm <= RPM_CEILING && s.stptRpmTemp <= RPM_CEILING &&
    IsFactor(s.kParamChange) && IsFactor(s.setPtMod)
  }

  /** The globals as the program starts. */
  function Init(): (s: Ctl)
    ensures Inv(s)
  {
    Ctl(false, true, Panel(0, 0, 0, 0), Panel(0, 0, 0, 0), 0,
        SET_MODE, 0, FACTOR_1, FACTOR_1 as u16, [0, 0, 0],
        0, 0, 0, 0, 1, 0, 0, false, false)
  }

  // ---------------------------------------------------------------- input_task

  /** A panel sample: the encoder button is bit 0 and the encoder switch
      bit 1 of the encoder register. */
  function Sample(raw: RawPanel): (p: Panel)
    ensures p.sw == raw.switches && p.btn == raw.buttons
    ensures p.encBtn == GetBit(raw.encReg, 0) && p.encSW == GetBit(raw.encReg, 1)
  {
    Panel(raw.switches, raw.buttons, raw.encReg % 2, GetBit(raw.encReg, 1))
  }

  /** input_task: the first call seeds the committed buttons and switches
      and lowers the flag; a pending update blocks sampling; otherwise the
      panel is sampled and the flag raised exactly when the sample differs
      from the committed panel. */
  function InputStep(s: Ctl, raw: RawPanel): (r: Ctl)
    ensures r.inputInitialized
    ensures s.inputInitialized && s.newbtnsSw ==> r == s
    ensures !s.inputInitialized ==> r.committed == s.committed.(btn := SEED_BTN, sw := SEED_SW)
    ensures s.inputInitialized ==> r.committed == s.committed
    ensures !s.inputInitialized || !s.newbtnsSw ==>
      r.sampled == Sample(raw) && (r.newbtnsSw <==> r.sampled != r.committed)
    ensures !s.inputInitialized || !s.newbtnsSw ==> r.copyData == GetBit(r.committed.btn, 1)
    ensures r == s.(inputInitialized := r.inputInitialized, newbtnsSw := r.newbtnsSw,
                    sampled := r.sampled, committed := r.committed, copyData := r.copyData)
  {
    SampleUnlessPending(SeedOnFirstCall(s), raw)
  }

  /** The first-call block of input_task. */
  function SeedOnFirstCall(s: Ctl): (r: Ctl)
  {
    if s.inputInitialized then s
    else s.(committed := s.committed.(btn := SEED_BTN, sw := SEED_SW),
            inputInitialized := true, newbtnsSw := false)
  }

  /** The rest of input_task: nothing while an update is pending, else a
      sample compared against the committed panel. */
  function SampleUnlessPending(s: Ctl, raw: RawPanel): (r: Ctl)
  {
    if s.newbtnsSw then s
    else
      var p := Sample(raw);
      s.(sampled := p, newbtnsSw := p != s.committed,
         copyData := GetBit(s.committed.btn, 1))
  }

  /** The seeds make the first sample a change whenever button bit 7 is
      clear, which it is for every real button reading. */
  lemma FirstSampleIsAChange(s: Ctl, raw: RawPanel)
    requires !s.inputInitialized
    requires GetBit(raw.buttons, 7) == 0
    ensures InputStep(s, raw).newbtnsSw
  {
    assert GetBit(SEED_BTN, 7) == 1;
  }

  // ---------------------------------------------------------- update_btnsw_val

  /** update_btnsw_val: commit the sample, then apply the mode rule to the
      committed buttons and encoder switch. */
  function Commit(s: Ctl): (r: Ctl)
    ensures r.committed == s.sampled
    ensures r.mode == NextMode(s.mode, s.sampled.btn, s.sampled.encSW)
    ensures r == s.(committed := r.committed, mode := r.mode)
  {
    s.(committed := s.sampled, mode := NextMode(s.mode, s.sampled.btn, s.sampled.encSW))
  }

  // ------------------------------------------------------------------ set_task

  /** set_task: switches 6:5 choose the gain step and switches 4:3 the
      setpoint multiplier; the cursor moves on button bit 0, and the
      selected gain alone is raised or lowered by the step. */
  function SetStep(s: Ctl): (r: Ctl)
    requires |s.kpid| == 3
    ensures |r.kpid| == 3 && r.selKParams <= 2
    ensures r.kParamChange == StepFactor(SwitchField(s.committed.sw, 5))
    ensures r.setPtMod == StepFactor(SwitchField(s.committed.sw, 3)) as u16
    ensures r.selKParams == NextCursor(s.selKParams, s.committed.btn)
    ensures r.kpid[r.selKParams] == AdjustGain(s.kpid[r.selKParams], s.committed.btn, r.kParamChange)
    ensures forall i :: 0 <= i < 3 && i != r.selKParams as int ==> r.kpid[i] == s.kpid[i]
    ensures GainsInRange(s.kpid) ==> GainsInRange(r.kpid)
    ensures r == s.(kParamChange := r.kParamChange, setPtMod := r.setPtMod,
                    selKParams := r.selKParams, kpid := r.kpid)
  {
    var kpc := StepFactor(SwitchField(s.committed.sw, 5));
    var spm := StepFactor(SwitchField(s.committed.sw, 3));
    var sel := NextCursor(s.selKParams, s.committed.btn);
    s.(kParamChange := kpc, setPtMod := spm as u16, selKParams := sel,
       kpid := s.kpid[sel := AdjustGain(s.kpid[sel], s.committed.btn, kpc)])
  }

  /** With the increase button held, the selected gain goes up by one
      clamped step even when decrease is held too. */
  lemma IncreaseWins(s: Ctl)
    requires |s.kpid| == 3 && GainsInRange(s.kpid)
    requires GetBit(s.committed.btn, 3) == 1
    ensures var r := SetStep(s);
      r.kpid[r.selKParams] == Min(s.kpid[r.selKParams] + r.kParamChange, 255)
  {
    var r := SetStep(s);
    AdjustGainClamped(s.kpid[r.selKParams], s.committed.btn, r.kParamChange);
  }

  // ------------------------------------------------------------------ run_task

  /** The setpoint for a rotary count: |count| * 6000 / 255 clamped to
      5000, the clamp applied before the value is narrowed to a u16. */
  function CommandedSetpoint(rc: i16): (t: u16)
    ensures t <= RPM_CEILING
  {
    Min(Abs(rc) * RATED_RPM / DUTY_SCALE, RPM_CEILING)
  }

  /** A larger count never gives a smaller setpoint. */
  lemma CommandedSetpointMonotone(a: i16, b: i16)
    requires Abs(a) <= Abs(b)
    ensures CommandedSetpoint(a) <= CommandedSetpoint(b)
  {
    assert Abs(a) * RATED_RPM <= Abs(b) * RATED_RPM;
    DivMonotone(Abs(a) * RATED_RPM, Abs(b) * RATED_RPM, DUTY_SCALE);
  }

  lemma DivMonotone(x: nat, y: nat, d: nat)
    requires x <= y && d > 0
    ensures x / d <= y / d
  {
    if x / d > y / d {
      MulAtLeast(x / d - y / d, d);
    }
  }

  /** The setpoint exactly as run_task computes it: the product is stored
      into the u16 stptRPM_temp, and only then clamped to 5000. */
  function SetpointAsWritten(rc: i16): (t: u16)
    ensures t <= RPM_CEILING
  {
    var temp := ToU16(Abs(rc) * RATED_RPM / DUTY_SCALE);
    if temp > RPM_CEILING then RPM_CEILING else temp
  }

  /** As written, a count of 2790 (279 detents at multiplier 10) wraps to a
      setpoint of 111 rpm, although 2785 gives the full 5000. */
  lemma SetpointWrapCounterexample()
    ensures SetpointAsWritten(2785) == 5000
    ensures SetpointAsWritten(2790) == 111
    ensures CommandedSetpoint(2790) == 5000
  {
  }

  /** The two agree on every count whose product fits the u16. */
  lemma SetpointAsWrittenAgrees(rc: i16)
    requires Abs(rc) <= 2785
    ensures SetpointAsWritten(rc) == CommandedSetpoint(rc)
  {
    DivMonotone(Abs(rc) * RATED_RPM, 2785 * RATED_RPM, DUTY_SCALE);
  }

  /** The direction flag: 1 for a positive count, 0 for a negative one,
      kept for zero. */
  function NextDirection(rc: i16, direction: u8): (d: u8)
    ensures rc > 0 ==> d == 1
    ensures rc < 0 ==> d == 0
    ensures rc == 0 ==> d == direction
  {
    if rc > 0 then 1 else if rc < 0 then 0 else direction
  }

  /** The setpoint part of run_task: count times multiplier into the int16
      rotaryCount, the clamped setpoint, the direction, the integral reset
      on a changed setpoint and the motor-enable latch flipped by the
      encoder button. */
  function SetpointStep(s: Ctl, count: i32): (r: Ctl)
    ensures r.rotaryCount == ToI16(count * s.setPtMod)
    ensures r.stptRpmTemp == CommandedSetpoint(r.rotaryCount)
    ensures r.stptRpm <= RPM_CEILING && r.stptRpmTemp <= RPM_CEILING
    ensures r.direction == NextDirection(r.rotaryCount, s.direction)
    ensures r.stptRpmTemp != s.stptRpm ==> r.integralVal == 0
    ensures r.stptRpmTemp == s.stptRpm ==> r.integralVal == s.integralVal
    ensures r.rpm == (if GetBit(s.committed.encBtn, 0) == 1 then Not(s.rpm) else s.rpm)
    ensures r.rpm == 0 ==> r.stptRpm == 0
    ensures r.rpm != 0 ==> r.stptRpm == r.stptRpmTemp
    ensures r == s.(rotaryCount := r.rotaryCount, stptRpmTemp := r.stptRpmTemp,
                    direction := r.direction, integralVal := r.integralVal,
                    rpm := r.rpm, stptRpm := r.stptRpm)
  {
    var rc := ToI16(count * s.setPtMod);
    var temp := CommandedSetpoint(rc);
    var latch := if GetBit(s.committed.encBtn, 0) == 1 then Not(s.rpm) else s.rpm;
    s.(rotaryCount := rc, stptRpmTemp := temp,
       direction := NextDirection(rc, s.direction),
       integralVal := if temp != s.stptRpm then 0 else s.integralVal,
       rpm := latch, stptRpm := if latch == 0 then 0 else temp)
  }

  /** A full reverse swing at multiplier 10: -2550 counts give 60000 rpm,
      clamped to 5000, in reverse. */
  lemma FullReverseSwing(s: Ctl)
    requires s.setPtMod == FACTOR_10 as u16
    ensures SetpointStep(s, -255).rotaryCount == -2550
    ensures SetpointStep(s, -255).stptRpmTemp == 5000
    ensures SetpointStep(s, -255).direction == 0
  {
    assert ToI16(-255 * 10) == -2550;
  }

  // ----------------------------------------------------------------------- pid

  /** An RPM in the duty-equivalent unit, rpm * 255 / 6000, kept in a u8. */
  function Duty(rpm: u16): (d: u8)
    ensures rpm < RPM_CEILING ==> d == rpm * DUTY_SCALE / RATED_RPM && d <= 212
  {
    ToU8(rpm * DUTY_SCALE / RATED_RPM)
  }

  lemma DutyMonotone(a: u16, b: u16)
    requires a <= b < RPM_CEILING
    ensures Duty(a) <= Duty(b)
  {
    DivMonotone(a * DUTY_SCALE, b * DUTY_SCALE, RATED_RPM);
  }

  /** The command word `1 << 9 | dir << 8 | mag`; the three fields occupy
      disjoint bits, so the bitwise or is their sum. */
  function CommandWord(dir: u8, mag: u8): (w: u32)
    requires dir <= 1
  {
    Pow2(ENABLE_BIT) + dir * Pow2(DIRECTION_BIT) + mag
  }

  function CommandEnable(w: u32): nat { GetBit(w, ENABLE_BIT) }
  function CommandDirection(w: u32): nat { GetBit(w, DIRECTION_BIT) }
  function CommandMagnitude(w: u32): nat { w % Pow2(DIRECTION_BIT) }

  /** Decoding a command word gives back its enable bit, its direction bit
      and its magnitude. */
  lemma CommandWordFields(dir: u8, mag: u8)
    requires dir <= 1
    ensures CommandEnable(CommandWord(dir, mag)) == 1
    ensures CommandDirection(CommandWord(dir, mag)) == dir
    ensures CommandMagnitude(CommandWord(dir, mag)) == mag
  {
    var w := CommandWord(dir, mag);
    assert Pow2(8) == 256 && Pow2(9) == 512 && Pow2(10) == 1024;
    GetBitOfDigit(0, 1, dir * 256 + mag, 9);
    GetBitOfDigit(0, dir, mag, 8) by {
      assert w == 1 * 512 + dir * 256 + mag;
      GetBitOfDigit(1, dir, mag, 8);
    }
    DivModUnique(w, 256, 2 + dir, mag);
  }

  /** pid: the first call only arms the driver; later calls read the speed,
      skip the tick when it is at or above 5000, and otherwise update the
      error and the integral and command the clamped weighted sum with the
      driver's inverted direction polarity. */
  function PidStep(s: Ctl, kpSel: nat, kiSel: nat, kdSel: nat, rpmRaw: u32,
                   weigh: PidTerms -> u8): (t: Tick)
    requires s.direction <= 1
    ensures t.state.pidInitialized
    ensures !s.pidInitialized ==>
      t.state == s.(pidInitialized := true) &&
      t.command == Some(CommandWord(s.direction, ARMING_DUTY))
    ensures s.pidInitialized && ToU16(rpmRaw) >= RPM_CEILING ==>
      t.state == s && t.command == None
    ensures s.pidInitialized && ToU16(rpmRaw) < RPM_CEILING ==>
      t.state.error == Duty(s.stptRpm) - Duty(ToU16(rpmRaw)) &&
      t.state.integralVal == ToI32(s.integralVal + t.state.error) &&
      t.command.Some? &&
      CommandEnable(t.command.value) == 1 &&
      CommandDirection(t.command.value) == Not(s.direction) &&
      CommandMagnitude(t.command.value) ==
        Min(weigh(PidTerms(kpSel, kiSel, kdSel, s.kpid, t.state.error, s.error,
                           t.state.integralVal)), DUTY_LIMIT) &&
      CommandMagnitude(t.command.value) <= DUTY_LIMIT &&
      t.command == Some(CommandWord(Not(s.direction),
        Min(weigh(PidTerms(kpSel, kiSel, kdSel, s.kpid, t.state.error, s.error,
                           t.state.integralVal)), DUTY_LIMIT)))
    ensures t.state == s.(pidInitialized := true, error := t.state.error,
                          integralVal := t.state.integralVal)
  {
    if !s.pidInitialized then
      Tick(s.(pidInitialized := true), Some(CommandWord(s.direction, ARMING_DUTY)))
    else
      var prevError := s.error;
      var rpmActual := ToU16(rpmRaw);
      var pwmActual := Duty(rpmActual);
      var pwmTarget := Duty(s.stptRpm);
      if rpmActual < RPM_CEILING then
        var err := pwmTarget - pwmActual;
        var integral := ToI32(s.integralVal + err);
        var pwmNew := weigh(PidTerms(kpSel, kiSel, kdSel, s.kpid, err, prevError, integral));
        var mag := Min(pwmNew, DUTY_LIMIT);
        CommandWordFields(Not(s.direction), mag);
        Tick(s.(error := err, integralVal := integral),
             Some(CommandWord(Not(s.direction), mag)))
      else
        Tick(s, None)
  }

  /** The arming word carries the logical direction, enable and 0x1F. */
  lemma ArmingWordFields(s: Ctl, kpSel: nat, kiSel: nat, kdSel: nat, rpmRaw: u32,
                         weigh: PidTerms -> u8)
    requires s.direction <= 1 && !s.pidInitialized
    ensures var w := PidStep(s, kpSel, kiSel, kdSel, rpmRaw, weigh).command.value;
      CommandEnable(w) == 1 && CommandDirection(w) == s.direction &&
      CommandMagnitude(w) == ARMING_DUTY
  {
    CommandWordFields(s.direction, ARMING_DUTY);
  }

  /** The driver's not-ready sentinel reads as 65535 rpm, so an armed pid
      holds its command and state. */
  lemma NotReadyHoldsCommand(s: Ctl, kpSel: nat, kiSel: nat, kdSel: nat,
                             weigh: PidTerms -> u8)
    requires s.direction <= 1 && s.pidInitialized
    ensures PidStep(s, kpSel, kiSel, kdSel, 0xFFFF_FFFF, weigh) == Tick(s, None)
  {
  }

  /** run_task: the setpoint update, then pid with the kp/ki/kd selectors
      read from switches 2, 1 and 0. */
  function RunStep(s: Ctl, count: i32, rpmRaw: u32, weigh: PidTerms -> u8): (t: Tick)
    requires s.direction <= 1
    ensures t.state.stptRpm <= RPM_CEILING
    ensures t.state.stptRpm == SetpointStep(s, count).stptRpm
    ensures t.state.direction == SetpointStep(s, count).direction
  {
    var s1 := SetpointStep(s, count);
    PidStep(s1, GetBit(s1.committed.sw, 2), GetBit(s1.committed.sw, 1),
            GetBit(s1.committed.sw, 0), rpmRaw, weigh)
  }

  /** A changed setpoint restarts the integral on the same tick: what
      remains in it after pid is at most that tick's error. */
  lemma SetpointChangeResetsIntegral(s: Ctl, count: i32, rpmRaw: u32, weigh: PidTerms -> u8)
    requires s.direction <= 1 && s.pidInitialized
    requires SetpointStep(s, count).stptRpmTemp != s.stptRpm
    ensures var r := RunStep(s, count, rpmRaw, weigh).state;
      r.integralVal == (if ToU16(rpmRaw) < RPM_CEILING then r.error else 0)
  {
  }

  // ---------------------------------------------------------------- crash_task

  /** crash_task: zero the committed panel and halt for good. */
  function CrashStep(s: Ctl): (r: Ctl)
    ensures r.halted && r.committed == Panel(0, 0, 0, 0)
    ensures r == s.(halted := true, committed := r.committed)
  {
    s.(committed := Panel(0, 0, 0, 0), halted := true)
  }

  // ----------------------------------------------------------------- mode_task

  /** mode_task: dispatch on the current mode. */
  function ModeStep(s: Ctl, count: i32, rpmRaw: u32, weigh: PidTerms -> u8): (t: Tick)
    requires Wf(s)
    ensures Wf(t.state)
    ensures s.mode == SET_MODE ==> t == Tick(SetStep(s), None)
    ensures s.mode == RUN_MODE ==> t == RunStep(s, count, rpmRaw, weigh)
    ensures s.mode == CRASH_MODE ==> t == Tick(CrashStep(s), None)
    ensures s.mode > CRASH_MODE ==> t == Tick(s, None)
  {
    if s.mode == SET_MODE then Tick(SetStep(s), None)
    else if s.mode == RUN_MODE then RunStep(s, count, rpmRaw, weigh)
    else if s.mode == CRASH_MODE then Tick(CrashStep(s), None)
    else Tick(s, None)
  }

  // ----------------------------------------------------------------- main loop

  /** The watchdog is re-armed only when it reports expiry and the sampled
      encoder switch is off. */
  function WatchdogRestart(expired: bool, encSWSample: u8): (restart: bool)
    ensures restart ==> expired
    ensures restart <==> expired && encSWSample == 0
  {
    expired && encSWSample == 0
  }

  /** The state in which mode_task runs: after sampling, and after the
      commit and the flag clear when the sample raised the flag. */
  function Drained(s: Ctl, raw: RawPanel): (r: Ctl)
    ensures !r.newbtnsSw
    ensures InputStep(s, raw).newbtnsSw ==> r == Commit(InputStep(s, raw)).(newbtnsSw := false)
    ensures !InputStep(s, raw).newbtnsSw ==> r == InputStep(s, raw)
  {
    var s1 := InputStep(s, raw);
    if s1.newbtnsSw then Commit(s1).(newbtnsSw := false) else s1
  }

  /** One pass of the main loop; a controller halted in crash_task runs no
      more passes, and so never re-arms the watchdog again. */
  function Pass(s: Ctl, input: PassInput, weigh: PidTerms -> u8): (p: PassResult)
    requires Wf(s)
    ensures Wf(p.state)
    ensures s.halted ==> p == PassResult(s, None, false)
    ensures !s.halted ==> !p.state.newbtnsSw
    ensures p.restartWdt <==>
      !s.halted && WatchdogRestart(input.wdtExpired, InputStep(s, input.panel).sampled.encSW)
    ensures !s.halted ==>
      Tick(p.state, p.command) ==
      ModeStep(Drained(s, input.panel), input.count, input.rpmRaw, weigh)
  {
    if s.halted then PassResult(s, None, false)
    else
      var s1 := InputStep(s, input.panel);
      var restart := WatchdogRestart(input.wdtExpired, s1.sampled.encSW);
      var s2 := Drained(s, input.panel);
      var t := ModeStep(s2, input.count, input.rpmRaw, weigh);
      PassResult(t.state, t.command, restart)
  }

  /** A sample that raised the flag is committed and its mode rule applied
      before the tasks run in the same pass. */
  lemma CommitPrecedesDispatch(s: Ctl, input: PassInput, weigh: PidTerms -> u8)
    requires Wf(s) && !s.halted && !(s.inputInitialized && s.newbtnsSw)
    requires InputStep(s, input.panel).newbtnsSw
    ensures var d := Drained(s, input.panel);
      d.committed == Sample(input.panel) &&
      d.mode == NextMode(s.mode, input.panel.buttons, GetBit(input.panel.encReg, 1))
  {
  }

  /** mode_task runs on every pass, not only on a commit: in RUN mode the
      setpoint follows the encoder on a pass that commits nothing. */
  lemma RunActsWithoutCommit(s: Ctl, input: PassInput, weigh: PidTerms -> u8)
    requires Wf(s) && !s.halted && s.mode == RUN_MODE
    requires !InputStep(s, input.panel).newbtnsSw
    ensures Pass(s, input, weigh).state.stptRpmTemp ==
            CommandedSetpoint(ToI16(input.count * s.setPtMod))
  {
  }

  /** A held increase button applies again on every SET-mode pass, although
      the unchanged panel commits nothing. */
  lemma HeldIncreaseRepeats(s: Ctl, input: PassInput, weigh: PidTerms -> u8)
    requires Wf(s) && !s.halted && s.mode == SET_MODE && GainsInRange(s.kpid)
    requires s.inputInitialized
    requires !InputStep(s, input.panel).newbtnsSw
    requires GetBit(s.committed.btn, 3) == 1
    ensures var r := Pass(s, input, weigh).state;
      r.selKParams == NextCursor(s.selKParams, s.committed.btn) &&
      r.kpid[r.selKParams] == Min(s.kpid[r.selKParams] + r.kParamChange, 255)
  {
    var d := Drained(s, input.panel);
    assert d.committed == s.committed && d.kpid == s.kpid && d.mode == SET_MODE;
    IncreaseWins(d);
  }

  /** Every pass keeps the invariant. */
  lemma PassKeepsInv(s: Ctl, input: PassInput, weigh: PidTerms -> u8)
    requires Inv(s)
    ensures Inv(Pass(s, input, weigh).state)
  {
    if !s.halted {
      var d := Drained(s, input.panel);
      assert Wf(d) && GainsInRange(d.kpid) && d.mode <= CRASH_MODE;
      if d.mode == RUN_MODE {
        var s1 := SetpointStep(d, input.count);
        assert s1.rpm <= 1;
      }
    }
  }

  /** Successive passes. */
  function Run(s: Ctl, inputs: seq<PassInput>, weigh: PidTerms -> u8): (r: Ctl)
    requires Wf(s)
    ensures Wf(r)
    decreases |inputs|
  {
    if inputs == [] then s
    else Run(Pass(s, inputs[0], weigh).state, inputs[1..], weigh)
  }

  /** From program start, under any readings: gains stay in [0, 255], the
      setpoint at most 5000, the cursor in {0, 1, 2}, the mode valid. */
  lemma {:induction false} RunKeepsInv(s: Ctl, inputs: seq<PassInput>, weigh: PidTerms -> u8)
    requires Inv(s)
    ensures Inv(Run(s, inputs, weigh))
    decreases |inputs|
  {
    if inputs != [] {
      PassKeepsInv(s, inputs[0], weigh);
      RunKeepsInv(Pass(s, inputs[0], weigh).state, inputs[1..], weigh);
    }
  }

  /** CRASH is terminal: no sequence of readings leaves it. */
  lemma {:induction false} CrashIsTerminal(s: Ctl, inputs: seq<PassInput>, weigh: PidTerms -> u8)
    requires Wf(s) && s.halted
    ensures Run(s, inputs, weigh) == s
    decreases |inputs|
  {
    if inputs != [] {
      CrashIsTerminal(Pass(s, inputs[0], weigh).state, inputs[1..], weigh);
    }
  }
}
