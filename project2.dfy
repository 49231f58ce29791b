// The earlier variant of the controller (src/project2.c): the same commit
// and tuning logic as src/main.c, a sampler whose readings are hard-coded,
// a setpoint task without the encoder, a no-op crash task, and a main loop
// that never lowers the handshake flag.

module Project2 {
  import opened SystemH
  import opened PanelLogic
  import MainModel

  type Panel = MainModel.Panel
  type RawPanel = MainModel.RawPanel

  /** The variant's globals and input_task's init latch. */
  datatype P2 = P2(
    inputInitialized: bool,
    newbtnsSw: bool,
    sampled: Panel,
    committed: Panel,
    mode: u8,
    selKParams: u8,
    kParamChange: u8,
    setPtMod: u16,
    kpid: seq<u16>,
    stptRpm: u16,
    stptRpmTemp: u16)

  // The readings input_task has hard-coded in place of the hardware reads.
  const STUB_SW: u16 := 0x57
  const STUB_BTN: u8 := 0x19
  const STUB_ENC: u32 := 0
  const RPM_CEILING := 5000

  function Stub(): RawPanel
  {
    MainModel.RawPanel(STUB_SW, STUB_BTN, STUB_ENC)
  }

  predicate Wf(s: P2) {
    |s.kpid| == 3
  }

  /** What the variant's tasks keep between passes. */
  predicate Inv(s: P2) {
    Wf(s) && MainModel.GainsInRange(s.kpid) && s.selKParams <= 2 &&
    s.mode <= CRASH_MODE && s.stptRpm <= RPM_CEILING
  }

  /** The globals as the program starts: the flag starts raised. */
  function Init(): (s: P2)
    ensures Inv(s) && s.newbtnsSw && !s.inputInitialized && s.mode == SET_MODE
    ensures s.kpid == [0, 0, 0]
  {
    P2(false, true, MainModel.Panel(0, 0, 0, 0), MainModel.Panel(0, 0, 0, 0),
       SET_MODE, 0, FACTOR_1, FACTOR_1 as u16, [0, 0, 0], 0, 0)
  }

  // ---------------------------------------------------------------- input_task

  /** The first-call block of input_task. */
  function SeedOnFirstCall(s: P2): (r: P2)
  {
    if s.inputInitialized then s
    else s.(committed := s.committed.(btn := MainModel.SEED_BTN, sw := MainModel.SEED_SW),
            inputInitialized := true, newbtnsSw := false)
  }

  /** The rest of input_task: while an update is pending nothing is sampled;
      otherwise the flag is raised on a change of the switches or buttons,
      and a change of the encoder alone is not noticed. */
  function SampleUnlessPending(s: P2, raw: RawPanel): (r: P2)
  {
    if s.newbtnsSw then s
    else
      var p := MainModel.Sample(raw);
      s.(sampled := p, newbtnsSw := s.committed.sw != p.sw || s.committed.btn != p.btn)
  }

  /** input_task, with the readings it takes. */
  function InputStep(s: P2, raw: RawPanel): (r: P2)
    ensures r.inputInitialized
    ensures s.inputInitialized && s.newbtnsSw ==> r == s
    ensures !s.inputInitialized ==>
      r.committed == s.committed.(btn := MainModel.SEED_BTN, sw := MainModel.SEED_SW)
    ensures s.inputInitialized ==> r.committed == s.committed
    ensures !s.inputInitialized || !s.newbtnsSw ==>
      r.sampled == MainModel.Sample(raw) &&
      (r.newbtnsSw <==> raw.switches != r.committed.sw || raw.buttons != r.committed.btn)
    ensures r == s.(inputInitialized := r.inputInitialized, newbtnsSw := r.newbtnsSw,
                    sampled := r.sampled, committed := r.committed)
  {
    SampleUnlessPending(SeedOnFirstCall(s), raw)
  }

  /** Only the switches and buttons count: two readings that differ in the
      encoder register alone raise the flag alike. */
  lemma EncoderIgnored(s: P2, a: RawPanel, b: RawPanel)
    requires !s.newbtnsSw || !s.inputInitialized
    requires a.switches == b.switches && a.buttons == b.buttons
    ensures InputStep(s, a).newbtnsSw == InputStep(s, b).newbtnsSw
  {
  }

  // ---------------------------------------------------------- update_btnsw_val

  /** update_btnsw_val: commit the sample and apply the mode rule. */
  function Commit(s: P2): (r: P2)
    ensures r.committed == s.sampled
    ensures r.mode == NextMode(s.mode, s.sampled.btn, s.sampled.encSW)
    ensures r == s.(committed := r.committed, mode := r.mode)
  {
    s.(committed := s.sampled, mode := NextMode(s.mode, s.sampled.btn, s.sampled.encSW))
  }

  // ------------------------------------------------------------------ set_task

  /** set_task: the same step fields, cursor and clamped gain update as the
      controller's. */
  function SetStep(s: P2): (r: P2)
    requires Wf(s)
    ensures Wf(r) && r.selKParams <= 2
    ensures r.kParamChange == StepFactor(SwitchField(s.committed.sw, 5))
    ensures r.setPtMod == StepFactor(SwitchField(s.committed.sw, 3)) as u16
    ensures r.selKParams == NextCursor(s.selKParams, s.committed.btn)
    ensures r.kpid[r.selKParams] == AdjustGain(s.kpid[r.selKParams], s.committed.btn, r.kParamChange)
    ensures forall i :: 0 <= i < 3 && i != r.selKParams as int ==> r.kpid[i] == s.kpid[i]
    ensures MainModel.GainsInRange(s.kpid) ==> MainModel.GainsInRange(r.kpid)
    ensures r == s.(kParamChange := r.kParamChange, setPtMod := r.setPtMod,
                    selKParams := r.selKParams, kpid := r.kpid)
  {
    var kpc := StepFactor(SwitchField(s.committed.sw, 5));
    var spm := StepFactor(SwitchField(s.committed.sw, 3));
    var sel := NextCursor(s.selKParams, s.committed.btn);
    s.(kParamChange := kpc, setPtMod := spm as u16, selKParams := sel,
       kpid := s.kpid[sel := AdjustGain(s.kpid[sel], s.committed.btn, kpc)])
  }

  // ------------------------------------------------------------------ run_task

  /** run_task: the held setpoint is clamped to 5000 and becomes the
      setpoint. */
  function RunStep(s: P2): (r: P2)
    ensures r.stptRpm == r.stptRpmTemp && r.stptRpm <= RPM_CEILING
    ensures r.stptRpmTemp == Min(s.stptRpmTemp, RPM_CEILING)
    ensures r == s.(stptRpm := r.stptRpm, stptRpmTemp := r.stptRpmTemp)
  {
    var temp := if s.stptRpmTemp > RPM_CEILING then RPM_CEILING else s.stptRpmTemp;
    s.(stptRpmTemp := temp, stptRpm := temp)
  }

  /** A setpoint already at most 5000 is kept as it is. */
  lemma RunStepKeepsSetpoint(s: P2)
    requires s.stptRpmTemp <= RPM_CEILING
    ensures RunStep(s).stptRpm == s.stptRpmTemp
    ensures RunStep(RunStep(s)) == RunStep(s)
  {
  }

  // ---------------------------------------------------------------- crash_task

  /** crash_task does nothing in this variant. */
  function CrashStep(s: P2): (r: P2)
    ensures r == s
  {
    s
  }

  // ----------------------------------------------------------------- mode_task

  function ModeStep(s: P2): (r: P2)
    requires Wf(s)
    ensures Wf(r)
    ensures s.mode == SET_MODE ==> r == SetStep(s)
    ensures s.mode == RUN_MODE ==> r == RunStep(s)
    ensures s.mode != SET_MODE && s.mode != RUN_MODE ==> r == s
  {
    if s.mode == SET_MODE then SetStep(s)
    else if s.mode == RUN_MODE then RunStep(s)
    else if s.mode == CRASH_MODE then CrashStep(s)
    else s
  }

  // ----------------------------------------------------------------- main loop

  /** One pass of the loop: while the flag is raised, sample, commit and
      dispatch; the flag is never lowered by the loop. */
  function Pass(s: P2): (r: P2)
    requires Wf(s)
    ensures Wf(r)
    ensures !s.newbtnsSw ==> r == s
    ensures s.newbtnsSw ==>
      (r.inputInitialized &&
       r.committed == InputStep(s, Stub()).sampled &&
       r.newbtnsSw == InputStep(s, Stub()).newbtnsSw)
  {
    if s.newbtnsSw then ModeStep(Commit(InputStep(s, Stub()))) else s
  }

  /** n passes. */
  function Run(s: P2, n: nat): (r: P2)
    requires Wf(s)
    ensures Wf(r)
    decreases n
  {
    if n == 0 then s else Run(Pass(s), n - 1)
  }

  /** Every pass keeps the bounds: gains in [0, 255], cursor in {0, 1, 2},
      mode valid, setpoint at most 5000. */
  lemma PassKeepsInv(s: P2)
    requires Inv(s)
    ensures Inv(Pass(s))
  {
    if s.newbtnsSw {
      var c := Commit(InputStep(s, Stub()));
      assert Inv(c);
    }
  }

  /** The stub's committed panel: centre button (bit 4) held, encoder
      switch off. */
  lemma StubTogglesMode()
    ensures GetBit(STUB_BTN, 4) == 1
    ensures GetBit(MainModel.Sample(Stub()).encSW, 0) == 0
  {
    assert MainModel.Sample(Stub()).encSW == 0;
  }

  /** What holds after the k-th pass from program start (k >= 1). */
  predicate AfterPass(s: P2, k: nat) {
    Wf(s) && s.inputInitialized && s.newbtnsSw &&
    s.sampled == MainModel.Sample(Stub()) && s.mode as int == k % 2
  }

  /** The first pass seeds, samples the stub (a change from the seeds),
      commits it and enters RUN. */
  lemma FirstPass()
    ensures AfterPass(Pass(Init()), 1)
  {
    StubTogglesMode();
    var s1 := InputStep(Init(), Stub());
    assert s1.newbtnsSw by {
      assert STUB_SW != MainModel.SEED_SW;
    }
  }

  /** A later pass finds the flag raised, so samples nothing, re-commits the
      stub and toggles the mode. */
  lemma LaterPass(s: P2, k: nat)
    requires k >= 1 && AfterPass(s, k)
    ensures AfterPass(Pass(s), k + 1)
  {
    StubTogglesMode();
    assert InputStep(s, Stub()) == s;
    var c := Commit(s);
    assert c.mode as int == (k + 1) % 2;
  }

  /** Because the loop never lowers the flag, the hard-coded centre button is
      committed again on every pass and the mode alternates RUN, SET, RUN, …
      for ever: after n passes from start it is n mod 2. */
  lemma {:induction false} ModeAlternates(n: nat)
    requires n >= 1
    ensures AfterPass(Run(Init(), n), n)
    ensures Run(Init(), n).mode as int == n % 2 && Run(Init(), n).newbtnsSw
    decreases n
  {
    if n == 1 {
      FirstPass();
      RunSplit(Init(), 0);
    } else {
      ModeAlternates(n - 1);
      var s := Run(Init(), n - 1);
      RunSplit(Init(), n - 1);
      LaterPass(s, n - 1);
    }
  }

  /** n + 1 passes are n passes followed by one. */
  lemma {:induction false} RunSplit(s: P2, n: nat)
    requires Wf(s)
    ensures Run(s, n + 1) == Pass(Run(s, n))
    decreases n
  {
    if n > 0 {
      RunSplit(Pass(s), n - 1);
    }
  }

  class Controller {
    // input_task's init latch and the handshake flag.
    var inputInitialized: bool
    var newbtnsSw: bool
    // Sampled panel.
    var swTemp: u16
    var btnTemp: u8
    var encBtnTemp: u8
    var encSWTemp: u8
    // Committed panel.
    var sw: u16
    var btn: u8
    var encBtn: u8
    var encSW: u8
    // Mode, tuning and setpoint.
    var mode: u8
    var selKParams: u8
    var kParamChange: u8
    var setPtMod: u16
    const kpid: array<u16>
    var stptRpm: u16
    var stptRpmTemp: u16

    function State(): P2
      reads this, kpid
    {
      P2(inputInitialized, newbtnsSw,
         MainModel.Panel(swTemp, btnTemp, encBtnTemp, encSWTemp),
         MainModel.Panel(sw, btn, encBtn, encSW),
         mode, selKParams, kParamChange, setPtMod, kpid[..], stptRpm, stptRpmTemp)
    }

    ghost predicate Valid()
      reads this, kpid
    {
      kpid.Length == 3
    }

    constructor ()
      ensures Valid() && fresh(kpid)
      ensures State() == Init()
    {
      kpid := new u16[3](_ => 0);
      inputInitialized, newbtnsSw := false, true;
      swTemp, btnTemp, encBtnTemp, encSWTemp := 0, 0, 0, 0;
      sw, btn, encBtn, encSW := 0, 0, 0, 0;
      mode, selKParams, kParamChange, setPtMod := SET_MODE, 0, FACTOR_1, FACTOR_1 as u16;
      stptRpm, stptRpmTemp := 0, 0;
      new;
      assert kpid[..] == [0, 0, 0];
    }

    /** input_task, with the readings it takes. */
    method InputTask(raw: RawPanel)
      requires Valid()
      modifies this
      ensures Valid()
      ensures State() == InputStep(old(State()), raw)
    {
      SeedInput();
      SampleInput(raw);
    }

    /** The first-call block of input_task. */
    method SeedInput()
      requires Valid()
      modifies this
      ensures Valid()
      ensures State() == SeedOnFirstCall(old(State()))
    {
      if !inputInitialized {
        SeedCommitted();
      }
    }

    method SeedCommitted()
      modifies this`btn, this`sw, this`inputInitialized, this`newbtnsSw
      ensures btn == MainModel.SEED_BTN && sw == MainModel.SEED_SW
      ensures inputInitialized && !newbtnsSw
    {
      btn := MainModel.SEED_BTN;
      sw := MainModel.SEED_SW;
      inputInitialized := true;
      newbtnsSw := false;
    }

    /** The rest of input_task, which returns early while an update is
        pending. */
    method SampleInput(raw: RawPanel)
      requires Valid()
      modifies this
      ensures Valid()
      ensures State() == SampleUnlessPending(old(State()), raw)
    {
      if newbtnsSw {
        return;
      }
      ghost var s0 := State();
      SamplePanel(raw);
      assert State() == s0.(sampled := MainModel.Sample(raw), newbtnsSw := newbtnsSw);
    }

    /** The reads and the change test of input_task. */
    method SamplePanel(raw: RawPanel)
      modifies this`swTemp, this`btnTemp, this`encBtnTemp, this`encSWTemp, this`newbtnsSw
      ensures MainModel.Panel(swTemp, btnTemp, encBtnTemp, encSWTemp) == MainModel.Sample(raw)
      ensures newbtnsSw == (old(newbtnsSw) || sw != raw.switches || btn != raw.buttons)
    {
      swTemp := raw.switches;
      btnTemp := raw.buttons;
      var encBtnSW := raw.encReg;
      encBtnTemp := encBtnSW % 2;
      encSWTemp := GetBit(encBtnSW, 1);
      if sw != swTemp || btn != btnTemp {
        newbtnsSw := true;
      }
    }

    /** update_btnsw_val. */
    method UpdateBtnSwVal()
      requires Valid()
      modifies this
      ensures Valid()
      ensures State() == Commit(old(State()))
    {
      CommitPanel();
      ApplyModeRule();
    }

    method CommitPanel()
      modifies this`btn, this`sw, this`encBtn, this`encSW
      ensures MainModel.Panel(sw, btn, encBtn, encSW) ==
              MainModel.Panel(swTemp, btnTemp, encBtnTemp, encSWTemp)
    {
      btn := btnTemp;
      sw := swTemp;
      encBtn := encBtnTemp;
      encSW := encSWTemp;
    }

    method ApplyModeRule()
      modifies this`mode
      ensures mode == NextMode(old(mode), btn, encSW)
    {
      if GetBit(btn, 4) == 1 {
        mode := ToU8(mode as int + 1);
        if mode > 1 {
          mode := SET_MODE;
        }
      }
      if GetBit(encSW, 0) == 1 {
        mode := CRASH_MODE;
      }
    }

    /** set_task: the selected gain is updated in place in kpid. */
    method SetTask()
      requires Valid()
      modifies this, kpid
      ensures Valid()
      ensures State() == SetStep(old(State()))
    {
      ChooseSteps();
      MoveCursor();
      AdjustSelectedGain();
    }

    method ChooseSteps()
      modifies this`kParamChange, this`setPtMod
      ensures kParamChange == StepFactor(SwitchField(sw, 5))
      ensures setPtMod == StepFactor(SwitchField(sw, 3)) as u16
    {
      var field := SwitchField(sw, 5);
      if field == 0 {
        kParamChange := FACTOR_1;
      } else if field == 1 {
        kParamChange := FACTOR_5;
      } else {
        kParamChange := FACTOR_10;
      }
      field := SwitchField(sw, 3);
      if field == 0 {
        setPtMod := FACTOR_1 as u16;
      } else if field == 1 {
        setPtMod := FACTOR_5 as u16;
      } else {
        setPtMod := FACTOR_10 as u16;
      }
    }

    method MoveCursor()
      modifies this`selKParams
      ensures selKParams == NextCursor(old(selKParams), btn)
    {
      var paramTemp := selKParams;
      if GetBit(btn, 0) == 1 {
        paramTemp := ToU8(paramTemp as int + 1);
      }
      if paramTemp > 2 {
        paramTemp := 0;
      }
      if paramTemp != selKParams {
        selKParams := paramTemp;
      }
    }

    method AdjustSelectedGain()
      requires kpid.Length == 3 && selKParams <= 2
      modifies kpid
      ensures kpid[..] == old(kpid[..])[selKParams := AdjustGain(old(kpid[selKParams]), btn, kParamChange)]
    {
      if GetBit(btn, 3) == 1 {
        var temp := ToU16(kpid[selKParams] + kParamChange);
        if temp > 255 {
          kpid[selKParams] := 255;
        } else {
          kpid[selKParams] := temp;
        }
      } else if GetBit(btn, 2) == 1 {
        var temp := ToI16(kpid[selKParams] - kParamChange);
        if temp < 0 {
          kpid[selKParams] := 0;
        } else {
          kpid[selKParams] := temp;
        }
      }
    }

    /** run_task. */
    method RunTask()
      requires Valid()
      modifies this
      ensures Valid()
      ensures State() == RunStep(old(State()))
    {
      if stptRpmTemp > RPM_CEILING {
        stptRpmTemp := RPM_CEILING;
      }
      if stptRpmTemp != stptRpm {
        stptRpm := stptRpmTemp;
      }
      stptRpm := stptRpmTemp;
    }

    /** crash_task: nothing. */
    method CrashTask()
      requires Valid()
      modifies this
      ensures Valid()
      ensures State() == CrashStep(old(State()))
    {
    }

    /** mode_task. */
    method ModeTask()
      requires Valid()
      modifies this, kpid
      ensures Valid()
      ensures State() == ModeStep(old(State()))
    {
      if mode == SET_MODE {
        SetTask();
      } else if mode == RUN_MODE {
        RunTask();
      } else if mode == CRASH_MODE {
        CrashTask();
      }
    }

    /** One pass of the loop body, with input_task's hard-coded readings. */
    method LoopPass()
      requires Valid()
      modifies this, kpid
      ensures Valid()
      ensures State() == Pass(old(State()))
    {
      if newbtnsSw {
        InputTask(Stub());
        UpdateBtnSwVal();
        ModeTask();
      }
    }
  }
}
