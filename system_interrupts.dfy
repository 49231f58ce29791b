// The fixed-interval-timer sampler (FIT_Handler, src/system_interrupts.c):
// it samples switches and buttons, compares them against the values it
// sampled last, and raises the single-slot handshake flag on a change.
// It only ever sets the flag; the consumer clears it.

module SystemInterrupts {
  import opened SystemH

  // Seeds for the comparison values: the inverse of the idle panel, so
  // that the first real reading counts as a change.
  const SEED_BTNS: u8 := 0x8F
  const SEED_SW: u16 := 0xFFFF

  /** The handler's statics (isInitialized, prevBtns, prevSw) and the three
      shared globals (newbtnsSw, sw, btns). */
  datatype FitState = FitState(
    isInitialized: bool,
    prevBtns: u8,
    prevSw: u16,
    newbtnsSw: bool,
    sw: u16,
    btns: u8)

  /** The statics after the first-call initialisation. */
  function Seeded(s: FitState): (r: FitState)
    ensures r.isInitialized
    ensures s.isInitialized ==> r == s
    ensures !s.isInitialized ==> r == s.(isInitialized := true, prevBtns := SEED_BTNS, prevSw := SEED_SW)
  {
    if s.isInitialized then s
    else s.(isInitialized := true, prevBtns := SEED_BTNS, prevSw := SEED_SW)
  }

  /** One invocation of FIT_Handler, with the raw switch and button
      readings it would take. */
  function FitStep(s: FitState, switches: u16, buttons: u8): (r: FitState)
    ensures r.isInitialized
    // A pending update blocks sampling: nothing but the seeding happens.
    ensures s.newbtnsSw ==> r == Seeded(s)
    // The handler never clears the flag.
    ensures s.newbtnsSw ==> r.newbtnsSw
    // Otherwise the readings are published and remembered as the last
    // sampled ones, and the flag says whether they differ from those.
    ensures !s.newbtnsSw ==>
      r.sw == switches && r.btns == buttons &&
      r.prevSw == switches && r.prevBtns == buttons &&
      (r.newbtnsSw <==> switches != Seeded(s).prevSw || buttons != Seeded(s).prevBtns)
  {
    var s1 := Seeded(s);
    if s1.newbtnsSw then s1
    else
      var s2 := s1.(sw := switches);
      var s3 := if s2.prevSw != s2.sw then s2.(newbtnsSw := true, prevSw := s2.sw) else s2;
      var s4 := s3.(btns := buttons);
      if s4.prevBtns != s4.btns then s4.(newbtnsSw := true, prevBtns := s4.btns) else s4
  }

  /** Successive handler invocations over a sequence of readings. */
  function FitRun(s: FitState, readings: seq<(u16, u8)>): (r: FitState)
    decreases |readings|
  {
    if readings == [] then s
    else FitRun(FitStep(s, readings[0].0, readings[0].1), readings[1..])
  }

  /** No-change idempotence: readings equal to the last sampled values
      leave the state as it was (apart from republishing them) and raise
      no flag. */
  lemma NoChangeIsIdle(s: FitState, switches: u16, buttons: u8)
    requires s.isInitialized && !s.newbtnsSw
    requires switches == s.prevSw && buttons == s.prevBtns
    ensures FitStep(s, switches, buttons) == s.(sw := switches, btns := buttons)
  {
  }

  /** While an update is pending, any number of invocations change nothing. */
  lemma {:induction false} PendingIsFrozen(s: FitState, readings: seq<(u16, u8)>)
    requires s.isInitialized && s.newbtnsSw
    ensures FitRun(s, readings) == s
    decreases |readings|
  {
    if readings != [] {
      PendingIsFrozen(FitStep(s, readings[0].0, readings[0].1), readings[1..]);
    }
  }

  /** Single slot, no queueing: of a burst of readings arriving before the
      consumer drains the flag, the first one that differs from the last
      sampled values is the one kept. */
  lemma {:induction false} FirstChangeRetained(s: FitState, readings: seq<(u16, u8)>, k: nat)
    requires s.isInitialized && !s.newbtnsSw
    requires k < |readings|
    requires forall i :: 0 <= i < k ==> readings[i] == (s.prevSw, s.prevBtns)
    requires readings[k] != (s.prevSw, s.prevBtns)
    ensures FitRun(s, readings).newbtnsSw
    ensures FitRun(s, readings).sw == readings[k].0
    ensures FitRun(s, readings).btns == readings[k].1
    decreases k
  {
    var s' := FitStep(s, readings[0].0, readings[0].1);
    if k == 0 {
      PendingIsFrozen(s', readings[1..]);
    } else {
      assert readings[0] == (s.prevSw, s.prevBtns);
      assert forall i :: 0 <= i < k - 1 ==> readings[1..][i] == readings[i + 1];
      FirstChangeRetained(s', readings[1..], k - 1);
    }
  }

  /** The first invocation counts any button reading with bit 7 clear (the
      buttons occupy bits 0 to 4) as a change. */
  lemma FirstReadingIsAChange(s: FitState, switches: u16, buttons: u8)
    requires !s.isInitialized && !s.newbtnsSw
    requires GetBit(buttons, 7) == 0
    ensures FitStep(s, switches, buttons).newbtnsSw
  {
    assert GetBit(SEED_BTNS, 7) == 1;
  }

  class FitHandler {
    // Statics of FIT_Handler.
    var isInitialized: bool
    var prevBtns: u8
    var prevSw: u16
    // Globals shared with the main loop.
    var newbtnsSw: bool
    var sw: u16
    var btns: u8

    function State(): FitState
      reads this
    {
      FitState(isInitialized, prevBtns, prevSw, newbtnsSw, sw, btns)
    }

    /** Program start: statics and globals zero, and the handshake flag
        starts raised as the main program defines it. */
    constructor ()
      ensures State() == FitState(false, 0, 0, true, 0, 0)
    {
      isInitialized, prevBtns, prevSw := false, 0, 0;
      newbtnsSw, sw, btns := true, 0, 0;
    }

    /** FIT_Handler with the raw readings of the switches and buttons. */
    method Handle(switches: u16, buttons: u8)
      modifies this
      ensures State() == FitStep(old(State()), switches, buttons)
    {
      if !isInitialized {
        prevBtns := SEED_BTNS;
        prevSw := SEED_SW;
        isInitialized := true;
      }
      if newbtnsSw {
        return;
      }
      sw := switches;
      if prevSw != sw {
        newbtnsSw := true;
        prevSw := sw;
      }
      btns := buttons;
      if prevBtns != btns {
        newbtnsSw := true;
        prevBtns := btns;
      }
    }
  }
}
