// Mode transitions and gain-tuning arithmetic shared, line for line, by
// the controller (src/main.c) and its earlier variant (src/project2.c).

module PanelLogic {
  import opened SystemH

  /** The 2-bit switch field at bits lo+1 and lo, `(sw & (3 << lo)) >> lo`. */
  function SwitchField(sw: u16, lo: nat): (f: nat)
    ensures f < 4
  {
    (sw / Pow2(lo)) % 4
  }

  /** The field is made of the two switch bits GET_BIT reads. */
  lemma SwitchFieldBits(sw: u16, lo: nat)
    ensures SwitchField(sw, lo) == 2 * GetBit(sw, lo + 1) + GetBit(sw, lo)
  {
    var p := Pow2(lo);
    var q := sw / p;
    assert sw == q * p + sw % p;
    assert q == (q / 2) * 2 + q % 2;
    assert sw == (q / 2) * (2 * p) + ((q % 2) * p + sw % p);
    DivModUnique(sw, 2 * p, q / 2, (q % 2) * p + sw % p);
    assert GetBit(sw, lo + 1) == (q / 2) % 2;
    assert q == ((q / 2) / 2) * 4 + (2 * ((q / 2) % 2) + q % 2);
    DivModUnique(q, 4, (q / 2) / 2, 2 * ((q / 2) % 2) + q % 2);
  }

  /** The step size a switch field selects: the `switch` of set_task. */
  function StepFactor(field: nat): (factor: u8)
    requires field < 4
    ensures factor == FACTOR_1 || factor == FACTOR_5 || factor == FACTOR_10
    ensures field == 0 ==> factor == FACTOR_1
    ensures field == 1 ==> factor == FACTOR_5
    ensures field >= 2 ==> factor == FACTOR_10
  {
    match field
    case 0 => FACTOR_1
    case 1 => FACTOR_5
    case _ => FACTOR_10
  }

  /** The gain cursor after set_task: button bit 0 advances it through
      Kp, Ki, Kd and back; it always lands in {0, 1, 2}. */
  function NextCursor(sel: u8, btn: u8): (r: u8)
    ensures r <= 2
    ensures sel <= 2 && GetBit(btn, 0) == 1 ==> r == (sel + 1) % 3
    ensures sel <= 2 && GetBit(btn, 0) == 0 ==> r == sel
  {
    var t := if GetBit(btn, 0) == 1 then ToU8(sel + 1) else sel;
    if t > 2 then 0 else t
  }

  /** Increase: the sum is formed in a u16 and clamped at 255. */
  function RaiseGain(k: u16, step: u8): (r: u16)
    ensures r <= 255
    ensures k + step < 0x1_0000 ==> r == Min(k + step, 255)
  {
    var temp := ToU16(k + step);
    if temp > 255 then 255 else temp
  }

  /** Decrease: the difference is formed in an int16 and clamped at 0. */
  function LowerGain(k: u16, step: u8): (r: u16)
    ensures r < 0x8000
    ensures k < 0x8000 ==> r == (if k >= step then k - step else 0)
  {
    var temp := ToI16(k - step);
    if temp < 0 then 0 else temp
  }

  /** The selected gain after set_task: increase (button bit 3) is checked
      first and wins over decrease (button bit 2). */
  function AdjustGain(k: u16, btn: u8, step: u8): (r: u16)
    ensures GetBit(btn, 3) == 1 ==> r == RaiseGain(k, step)
    ensures GetBit(btn, 3) == 0 && GetBit(btn, 2) == 1 ==> r == LowerGain(k, step)
    ensures GetBit(btn, 3) == 0 && GetBit(btn, 2) == 0 ==> r == k
    ensures k <= 255 ==> r <= 255
  {
    if GetBit(btn, 3) == 1 then RaiseGain(k, step)
    else if GetBit(btn, 2) == 1 then LowerGain(k, step)
    else k
  }

  /** A gain inside [0, 255] moves by exactly one clamped step. */
  lemma AdjustGainClamped(k: u16, btn: u8, step: u8)
    requires k <= 255
    ensures GetBit(btn, 3) == 1 ==> AdjustGain(k, btn, step) == Min(k + step, 255)
    ensures GetBit(btn, 3) == 0 && GetBit(btn, 2) == 1 ==>
      AdjustGain(k, btn, step) == (if k >= step then k - step else 0)
  {
  }

  /** The mode after a commit: button bit 4 increments the mode and wraps
      anything above RUN back to SET; encoder switch bit 0 then forces
      CRASH. */
  function NextMode(mode: u8, btn: u8, encSW: u8): (r: u8)
    ensures GetBit(encSW, 0) == 1 ==> r == CRASH_MODE
    ensures GetBit(encSW, 0) == 0 && GetBit(btn, 4) == 1 && mode == SET_MODE ==> r == RUN_MODE
    ensures GetBit(encSW, 0) == 0 && GetBit(btn, 4) == 1 && mode == RUN_MODE ==> r == SET_MODE
    ensures GetBit(encSW, 0) == 0 && GetBit(btn, 4) == 0 ==> r == mode
    ensures mode <= CRASH_MODE ==> r <= CRASH_MODE
  {
    var toggled :=
      if GetBit(btn, 4) == 1 then
        var m := ToU8(mode + 1);
        if m > 1 then SET_MODE else m
      else mode;
    if GetBit(encSW, 0) == 1 then CRASH_MODE else toggled
  }

  /** Two commits with the centre button held return SET or RUN to itself. */
  lemma ToggleIsInvolution(mode: u8, btn: u8, encSW: u8)
    requires mode == SET_MODE || mode == RUN_MODE
    requires GetBit(encSW, 0) == 0
    ensures NextMode(NextMode(mode, btn, encSW), btn, encSW) == mode
  {
  }
}
