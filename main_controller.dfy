// The controller's main loop (src/main.c) as a class: the C globals and
// function statics are its fields, kpid is a three-element array updated in
// place, and the motor driver is the PMODHB3 driver object. Every method is
// proved to change the state exactly as the matching function of MainModel
// says, and to hand the motor driver the word that function issues.

module MainController {
  import opened SystemH
  import opened PanelLogic
  import opened MainModel
  import opened Pmodhb3

  /** The driver's register file after a task issued cmd to address addr:
      the write lands only when the driver is initialised. */
  function Issued(regs: u32 -> u32, initialized: bool, addr: u32, cmd: Option<u32>): (r: u32 -> u32)
    ensures cmd.None? || !initialized ==> r == regs
    ensures cmd.Some? && initialized ==> r(addr) == cmd.value
  {
    if cmd.Some? && initialized then Poke(regs, addr, cmd.value) else regs
  }

  class Controller {
    // Sampler statics and the handshake flag.
    var inputInitialized: bool
    var newbtnsSw: bool
    // Sampled panel.
    var swTemp: u16
    var btnTemp: u8
    var encBtnTemp: u8
    var encSWTemp: u8
    // Committed panel.
    var sw: u16
    var btn: u8
    var encBtn: u8
    var encSW: u8
    var copyData: u8
    // Mode and tuning.
    var mode: u8
    var selKParams: u8
    var kParamChange: u8
    var setPtMod: u16
    const kpid: array<u16>
    // Setpoint.
    var rotaryCount: i16
    var stptRpm: u16
    var stptRpmTemp: u16
    var direction: u8
    var rpm: u8
    // PID state.
    var integralVal: i32
    var error: i32
    var pidInitialized: bool
    // crash_task was entered.
    var halted: bool
    // The motor driver and the peripheral base address the controller uses.
    const hb3: Driver
    const hb3Base: u32

    function State(): Ctl
      reads this, kpid
    {
      Ctl(inputInitialized, newbtnsSw,
          Panel(swTemp, btnTemp, encBtnTemp, encSWTemp),
          Panel(sw, btn, encBtn, encSW), copyData,
          mode, selKParams, kParamChange, setPtMod, kpid[..],
          rotaryCount, stptRpm, stptRpmTemp, direction, rpm,
          integralVal, error, pidInitialized, halted)
    }

    ghost predicate Valid()
      reads this, kpid
    {
      kpid.Length == 3 && Wf(State())
    }

    constructor (driver: Driver, base: u32)
      ensures Valid() && fresh(kpid)
      ensures State() == Init() && Inv(State())
      ensures hb3 == driver && hb3Base == base
    {
      kpid := new u16[3](_ => 0);
      hb3, hb3Base := driver, base;
      inputInitialized, newbtnsSw := false, true;
      swTemp, btnTemp, encBtnTemp, encSWTemp := 0, 0, 0, 0;
      sw, btn, encBtn, encSW, copyData := 0, 0, 0, 0, 0;
      mode, selKParams, kParamChange, setPtMod := SET_MODE, 0, FACTOR_1, FACTOR_1 as u16;
      rotaryCount, stptRpm, stptRpmTemp, direction, rpm := 0, 0, 0, 0, 1;
      integralVal, error, pidInitialized, halted := 0, 0, false, false;
      new;
      assert kpid[..] == [0, 0, 0];
    }

    /** input_task, with the switch, button and encoder register readings. */
    method InputTask(raw: RawPanel)
      requires Valid()
      modifies this
      ensures Valid()
      ensures State() == InputStep(old(State()), raw)
    {
      SeedInput();
      SampleInput(raw);
    }

    /** The first-call block of input_task. */
    method SeedInput()
      requires Valid()
      modifies this
      ensures Valid()
      ensures State() == SeedOnFirstCall(old(State()))
    {
      if !inputInitialized {
        SeedCommitted();
      }
    }

    /** The rest of input_task, which returns early while an update is
        pending. */
    method SampleInput(raw: RawPanel)
      requires Valid()
      modifies this
      ensures Valid()
      ensures State() == SampleUnlessPending(old(State()), raw)
    {
      if newbtnsSw {
        return;
      }
      ghost var s0 := State();
      SamplePanel(raw);
      assert State() == s0.(sampled := Sample(raw), newbtnsSw := newbtnsSw, copyData := copyData);
    }

    /** First call of input_task: the committed buttons and switches are
        seeded with their inverses and the flag is lowered. */
    method SeedCommitted()
      modifies this`btn, this`sw, this`inputInitialized, this`newbtnsSw
      ensures btn == SEED_BTN && sw == SEED_SW && inputInitialized && !newbtnsSw
    {
      btn := SEED_BTN;
      sw := SEED_SW;
      inputInitialized := true;
      newbtnsSw := false;
    }

    /** The sampling part of input_task: read the panel, raise the flag on a
        difference from the committed panel, and latch the copy request. */
    method SamplePanel(raw: RawPanel)
      modifies this`swTemp, this`btnTemp, this`encBtnTemp, this`encSWTemp,
               this`newbtnsSw, this`copyData
      ensures Panel(swTemp, btnTemp, encBtnTemp, encSWTemp) == Sample(raw)
      ensures newbtnsSw == (old(newbtnsSw) || Sample(raw) != Panel(sw, btn, encBtn, encSW))
      ensures copyData == GetBit(btn, 1)
    {
      swTemp := raw.switches;
      btnTemp := raw.buttons;
      var encBtnSW := raw.encReg;
      encBtnTemp := encBtnSW % 2;
      encSWTemp := GetBit(encBtnSW, 1);
      if sw != swTemp || btn != btnTemp || encBtnTemp != encBtn || encSW != encSWTemp {
        newbtnsSw := true;
      }
      if GetBit(btn, 1) == 1 {
        copyData := 1;
      } else {
        copyData := 0;
      }
    }

    /** update_btnsw_val. */
    method UpdateBtnSwVal()
      requires Valid()
      modifies this
      ensures Valid()
      ensures State() == Commit(old(State()))
    {
      CommitPanel();
      ApplyModeRule();
    }

    /** The sampled panel becomes the committed one. */
    method CommitPanel()
      modifies this`btn, this`sw, this`encBtn, this`encSW
      ensures Panel(sw, btn, encBtn, encSW) == Panel(swTemp, btnTemp, encBtnTemp, encSWTemp)
    {
      btn := btnTemp;
      sw := swTemp;
      encBtn := encBtnTemp;
      encSW := encSWTemp;
    }

    /** The mode rule of update_btnsw_val on the committed panel. */
    method ApplyModeRule()
      modifies this`mode
      ensures mode == NextMode(old(mode), btn, encSW)
    {
      if GetBit(btn, 4) == 1 {
        mode := ToU8(mode as int + 1);
        if mode > 1 {
          mode := SET_MODE;
        }
      }
      if GetBit(encSW, 0) == 1 {
        mode := CRASH_MODE;
      }
    }

    /** set_task: the selected gain is updated in place in kpid. */
    method SetTask()
      requires Valid()
      modifies this, kpid
      ensures Valid()
      ensures State() == SetStep(old(State()))
    {
      ChooseSteps();
      MoveCursor();
      AdjustSelectedGain();
    }

    /** The gain cursor of set_task: button bit 0 advances it, and past Kd
        it wraps to Kp. */
    method MoveCursor()
      modifies this`selKParams
      ensures selKParams == NextCursor(old(selKParams), btn)
    {
      var paramTemp := selKParams;
      if GetBit(btn, 0) == 1 {
        paramTemp := ToU8(paramTemp as int + 1);
      }
      if paramTemp > 2 {
        paramTemp := 0;
      }
      if paramTemp != selKParams {
        selKParams := paramTemp;
      }
    }

    /** The two switch fields of set_task: switches 6:5 choose the gain step,
        switches 4:3 the setpoint multiplier. */
    method ChooseSteps()
      modifies this`kParamChange, this`setPtMod
      ensures kParamChange == StepFactor(SwitchField(sw, 5))
      ensures setPtMod == StepFactor(SwitchField(sw, 3)) as u16
    {
      var field := SwitchField(sw, 5);
      if field == 0 {
        kParamChange := FACTOR_1;
      } else if field == 1 {
        kParamChange := FACTOR_5;
      } else {
        kParamChange := FACTOR_10;
      }
      field := SwitchField(sw, 3);
      if field == 0 {
        setPtMod := FACTOR_1 as u16;
      } else if field == 1 {
        setPtMod := FACTOR_5 as u16;
      } else {
        setPtMod := FACTOR_10 as u16;
      }
    }

    /** The increase and decrease buttons of set_task, applied in place to
        the selected gain. */
    method AdjustSelectedGain()
      requires kpid.Length == 3 && selKParams <= 2
      modifies kpid
      ensures kpid[..] == old(kpid[..])[selKParams := AdjustGain(old(kpid[selKParams]), btn, kParamChange)]
    {
      if GetBit(btn, 3) == 1 {
        var temp := ToU16(kpid[selKParams] + kParamChange);
        if temp > 255 {
          kpid[selKParams] := 255;
        } else {
          kpid[selKParams] := temp;
        }
      } else if GetBit(btn, 2) == 1 {
        var temp := ToI16(kpid[selKParams] - kParamChange);
        if temp < 0 {
          kpid[selKParams] := 0;
        } else {
          kpid[selKParams] := temp;
        }
      }
    }

    /** pid, with the PID sum's conversion to a duty value supplied by weigh;
        the speed is read from, and the command written to, the driver. */
    method Pid(kpSel: nat, kiSel: nat, kdSel: nat, weigh: PidTerms -> u8)
      requires Valid()
      modifies this, hb3`regs
      ensures Valid()
      ensures var t := PidStep(old(State()), kpSel, kiSel, kdSel,
                               old(hb3.Peek(hb3Base, REG0_OFFSET)), weigh);
        State() == t.state &&
        hb3.regs == Issued(old(hb3.regs), hb3.isInitialized, Address(hb3Base, REG1_OFFSET), t.command)
    {
      if !pidInitialized {
        ArmDriver();
        return;
      }
      Regulate(kpSel, kiSel, kdSel, weigh);
    }

    /** The first call of pid: the arming command, and nothing else. */
    method ArmDriver()
      requires Valid() && !pidInitialized
      modifies this, hb3`regs
      ensures Valid()
      ensures State() == old(State()).(pidInitialized := true)
      ensures hb3.regs == Issued(old(hb3.regs), hb3.isInitialized, Address(hb3Base, REG1_OFFSET),
                                 Some(CommandWord(direction, ARMING_DUTY)))
    {
      var st := hb3.SetConfig(hb3Base, REG1_OFFSET, CommandWord(direction, ARMING_DUTY));
      pidInitialized := true;
    }

    /** A later call of pid: read the speed and, below the 5000 rpm gate,
        update the error and integral and issue the clamped command. */
    method Regulate(kpSel: nat, kiSel: nat, kdSel: nat, weigh: PidTerms -> u8)
      requires Valid() && pidInitialized
      modifies this, hb3`regs
      ensures Valid()
      ensures var t := PidStep(old(State()), kpSel, kiSel, kdSel,
                               old(hb3.Peek(hb3Base, REG0_OFFSET)), weigh);
        State() == t.state &&
        hb3.regs == Issued(old(hb3.regs), hb3.isInitialized, Address(hb3Base, REG1_OFFSET), t.command)
    {
      var raw := hb3.GetRpm(hb3Base, REG0_OFFSET);
      var rpmActual := ToU16(raw);
      var pwmActual := Duty(rpmActual);
      var pwmTarget := Duty(stptRpm);
      if rpmActual < RPM_CEILING {
        Correct(kpSel, kiSel, kdSel, weigh, pwmTarget, pwmActual);
      }
    }

    /** The corrective step of pid below the gate: the error and integral
        update, the weighted sum clamped to 200, and the command with the
        inverted direction. */
    method Correct(kpSel: nat, kiSel: nat, kdSel: nat, weigh: PidTerms -> u8,
                   pwmTarget: u8, pwmActual: u8)
      requires Valid()
      modifies this, hb3`regs
      ensures Valid()
      ensures var err := pwmTarget - pwmActual;
        var integral := ToI32(old(integralVal) + err);
        var terms := PidTerms(kpSel, kiSel, kdSel, kpid[..], err, old(error), integral);
        State() == old(State()).(error := err, integralVal := integral) &&
        hb3.regs == Issued(old(hb3.regs), hb3.isInitialized, Address(hb3Base, REG1_OFFSET),
                           Some(CommandWord(Not(direction), Min(weigh(terms), DUTY_LIMIT))))
    {
      var prevError := error;
      Accumulate(pwmTarget, pwmActual);
      var pwmNew := weigh(PidTerms(kpSel, kiSel, kdSel, kpid[..], error, prevError, integralVal));
      pwmNew := Min(pwmNew, DUTY_LIMIT);
      var st := hb3.SetConfig(hb3Base, REG1_OFFSET, CommandWord(Not(direction), pwmNew));
    }

    /** The error and integral update of pid. */
    method Accumulate(pwmTarget: u8, pwmActual: u8)
      modifies this`error, this`integralVal
      ensures error == pwmTarget - pwmActual
      ensures integralVal == ToI32(old(integralVal) + error)
    {
      error := pwmTarget as int - pwmActual as int;
      integralVal := ToI32(integralVal + error);
    }

    /** run_task, with the encoder's rotary count. */
    method RunTask(count: i32, weigh: PidTerms -> u8)
      requires Valid()
      modifies this, hb3`regs
      ensures Valid()
      ensures var t := RunStep(old(State()), count, old(hb3.Peek(hb3Base, REG0_OFFSET)), weigh);
        State() == t.state &&
        hb3.regs == Issued(old(hb3.regs), hb3.isInitialized, Address(hb3Base, REG1_OFFSET), t.command)
    {
      AdjustSetpoint(count);
      Pid(GetBit(sw, 2), GetBit(sw, 1), GetBit(sw, 0), weigh);
    }

    /** The setpoint part of run_task. */
    method AdjustSetpoint(count: i32)
      requires Valid()
      modifies this
      ensures Valid()
      ensures State() == SetpointStep(old(State()), count)
    {
      ghost var s0 := State();
      UpdateSetpoint(count);
      assert State() == s0.(rotaryCount := rotaryCount, stptRpmTemp := stptRpmTemp,
                            direction := direction, integralVal := integralVal,
                            rpm := rpm, stptRpm := stptRpm);
    }

    /** The setpoint statements of run_task: the scaled count, the setpoint
        it commands and the direction; a new setpoint is latched and resets
        the integral; the encoder button toggles the motor on or off. */
    method UpdateSetpoint(count: i32)
      modifies this`rotaryCount, this`stptRpmTemp, this`direction,
               this`stptRpm, this`integralVal, this`rpm
      ensures rotaryCount == ToI16(count * setPtMod)
      ensures stptRpmTemp == CommandedSetpoint(rotaryCount)
      ensures direction == NextDirection(rotaryCount, old(direction))
      ensures integralVal == (if stptRpmTemp != old(stptRpm) then 0 else old(integralVal))
      ensures rpm == (if GetBit(encBtn, 0) == 1 then Not(old(rpm)) else old(rpm))
      ensures stptRpm == (if rpm == 0 then 0 else stptRpmTemp)
    {
      rotaryCount := ToI16(count * setPtMod);
      stptRpmTemp := CommandedSetpoint(rotaryCount);
      if rotaryCount > 0 {
        direction := 1;
      } else if rotaryCount < 0 {
        direction := 0;
      }
      if stptRpmTemp != stptRpm {
        stptRpm := stptRpmTemp;
        integralVal := 0;
      }
      if GetBit(encBtn, 0) == 1 {
        rpm := Not(rpm);
      }
      if rpm == 0 {
        stptRpm := 0;
      }
    }

    /** crash_task: the spin that follows it is the halted state. */
    method CrashTask()
      requires Valid()
      modifies this
      ensures Valid()
      ensures State() == CrashStep(old(State()))
    {
      ClearCommitted();
      halted := true;
    }

    /** crash_task's clearing of the committed panel. */
    method ClearCommitted()
      modifies this`btn, this`sw, this`encBtn, this`encSW
      ensures Panel(sw, btn, encBtn, encSW) == Panel(0, 0, 0, 0)
    {
      btn := 0;
      sw := 0;
      encBtn := 0;
      encSW := 0;
    }

    /** mode_task. */
    method ModeTask(count: i32, weigh: PidTerms -> u8)
      requires Valid()
      modifies this, kpid, hb3`regs
      ensures Valid()
      ensures var t := ModeStep(old(State()), count, old(hb3.Peek(hb3Base, REG0_OFFSET)), weigh);
        State() == t.state &&
        hb3.regs == Issued(old(hb3.regs), hb3.isInitialized, Address(hb3Base, REG1_OFFSET), t.command)
    {
      if mode == SET_MODE {
        SetTask();
      } else if mode == RUN_MODE {
        RunTask(count, weigh);
      } else if mode == CRASH_MODE {
        CrashTask();
      }
    }

    /** One pass of the main loop's body; returns whether the watchdog was
        restarted. Once halted, the controller runs no more passes. */
    method LoopPass(raw: RawPanel, wdtExpired: bool, count: i32, weigh: PidTerms -> u8)
      returns (restartWdt: bool)
      requires Valid()
      modifies this, kpid, hb3`regs
      ensures Valid()
      ensures var p := Pass(old(State()),
                            PassInput(raw, wdtExpired, count, old(hb3.Peek(hb3Base, REG0_OFFSET))),
                            weigh);
        State() == p.state && restartWdt == p.restartWdt &&
        hb3.regs == Issued(old(hb3.regs), hb3.isInitialized, Address(hb3Base, REG1_OFFSET), p.command)
    {
      if halted {
        return false;
      }
      InputTask(raw);
      restartWdt := false;
      if wdtExpired {
        if encSWTemp == 0 {
          restartWdt := true;
        }
      }
      if newbtnsSw {
        UpdateBtnSwVal();
        newbtnsSw := false;
      }
      ModeTask(count, weigh);
    }
  }
}
