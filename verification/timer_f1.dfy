/**
 * The STM32F1 timer driver: the common timer API, except that settings only
 * the advanced timers (TIM1, TIM8) have are skipped on every other timer,
 * SR flags are cleared read-modify-write, EGR can be overwritten, and three
 * functions differ from the common driver. Each of those three is modelled
 * as written next to a lemma exhibiting the difference; the common driver's
 * version is the corrected behaviour.
 */
module TimerF1 {
  import opened Bits
  import opened TimerCommon

  /**
   * The controls the F1 driver applies only to TIM1 and TIM8: the idle
   * states, CCUS and CCPC, the complementary outputs' polarity and enable
   * bits, and every BDTR bit.
   */
  predicate AdvancedOnly(c: Control)
  {
    match c
    case IdleState(_) => true
    case CompareControlUpdateOnTrigger => true
    case PreloadComplementary => true
    case OcPolarityLow(oc) => Complementary(oc)
    case OcOutputEnable(oc) => Complementary(oc)
    case _ => RegOf(c) == BDTR
  }

  /**
   * A single-bit setter on timer `advanced` (TIM1 or TIM8) or another timer:
   * an advanced-only control leaves a basic or general-purpose timer's
   * register alone; otherwise the common setter applies.
   */
  function SetControl(advanced: bool, r: Reg, c: Control, on: bool): (s: Reg)
    ensures !advanced && AdvancedOnly(c) ==> s == r
    ensures advanced || !AdvancedOnly(c) ==> IsOn(s, c) == on && Agree(s, r, !BitOf(c))
  {
    if !advanced && AdvancedOnly(c) then r else TimerCommon.SetControl(r, c, on)
  }

  /**
   * The polarity setters touch a channel's own output on every timer, and
   * its complementary output only on an advanced one.
   */
  lemma PolarityGuarded(r: Reg, oc: OcId, on: bool)
    ensures !Complementary(oc) ==> IsOn(SetControl(false, r, OcPolarityLow(oc), on), OcPolarityLow(oc)) == on
    ensures Complementary(oc) ==> SetControl(false, r, OcPolarityLow(oc), on) == r
  {
  }

  /** Likewise the output enable and disable setters. */
  lemma OutputEnableGuarded(r: Reg, oc: OcId, on: bool)
    ensures !Complementary(oc) ==> IsOn(SetControl(false, r, OcOutputEnable(oc), on), OcOutputEnable(oc)) == on
    ensures Complementary(oc) ==> SetControl(false, r, OcOutputEnable(oc), on) == r
  {
  }

  /** `timer_set_output_idle_state`, which only acts on an advanced timer. */
  function SetOutputIdleState(advanced: bool, cr2: Reg, outputs: Reg): (r: Reg)
    ensures !advanced ==> r == cr2
    ensures advanced ==> Agree(r, 0xFFFF_FFFF, outputs & 0x7F00) && Agree(r, cr2, !(outputs & 0x7F00))
  {
    if advanced then TimerCommon.SetOutputIdleState(cr2, outputs) else cr2
  }

  /** `timer_reset_output_idle_state`, which only acts on an advanced timer. */
  function ResetOutputIdleState(advanced: bool, cr2: Reg, outputs: Reg): (r: Reg)
    ensures !advanced ==> r == cr2
    ensures advanced ==> Agree(r, 0, outputs & 0x7F00) && Agree(r, cr2, !(outputs & 0x7F00))
  {
    if advanced then TimerCommon.ResetOutputIdleState(cr2, outputs) else cr2
  }

  /**
   * `timer_set_break_lock` and `timer_set_deadtime`: the value is or-ed into
   * BDTR of an advanced timer; another timer's BDTR is left alone.
   */
  function OrIntoBdtr(advanced: bool, bdtr: Reg, value: Reg): (r: Reg)
    ensures !advanced ==> r == bdtr
    ensures advanced ==> r & value == value && Agree(r, bdtr, !value)
  {
    if advanced then Set(bdtr, value) else bdtr
  }

  /** `timer_set_repetition_counter`: RCR is written on an advanced timer only. */
  function SetRepetitionCounter(advanced: bool, rcr: Reg, value: Reg): (r: Reg)
    ensures r == value || r == rcr
    ensures r == value <==> advanced || rcr == value
  {
    if advanced then value else rcr
  }

  /**
   * `timer_clear_flag` here reads SR, clears the flags and writes the result
   * back: the flags end up clear and every other bit keeps the value read.
   */
  function ClearFlag(sr: Reg, flag: Reg): (r: Reg)
    ensures r & flag == 0
    ensures Agree(r, sr, !flag)
  {
    Clear(sr, flag)
  }

  /**
   * With no flag set by the hardware between the read and the write, the
   * read-modify-write leaves SR as the common driver's write of `~flag` does.
   */
  lemma ClearFlagAgreesWithCommon(sr: Reg, flag: Reg)
    ensures ClearFlag(sr, flag) == ApplySrWrite(sr, ClearFlagWrite(flag))
  {
  }

  /** `timer_force_event`: EGR becomes exactly the event bits, nothing else. */
  function ForceEvent(egr: Reg, event: U8): (r: Reg)
    ensures r & (event as Reg) == event as Reg
    ensures r & !(event as Reg) == 0
  {
    event
  }

  /**
   * Forcing and generating an event agree exactly when EGR holds no other
   * bit: generating keeps the bits already there, forcing drops them.
   */
  lemma ForceVersusGenerate(egr: Reg, event: U8)
    ensures ForceEvent(egr, event) ^ GenerateEvent(egr, event) == egr & !(event as Reg)
  {
  }

  /*
   * ---------------- Functions as written ----------------
   */

  /**
   * The CCxS code of `timer_ic_set_input` as written: for channels 2 and 4
   * the condition assigns TI2 to the value instead of comparing with it, so
   * every value other than TI1 is turned into 2 and flipped to 1.
   */
  function InputCodeAsWritten(ch: Channel, i: IcInput): (c: Reg)
    ensures c <= 3
    ensures ch == C1 || ch == C3 ==> c == InputCode(ch, i)
    ensures ch == C2 || ch == C4 ==> (c == 2 <==> IcInputValue(i) & 3 == 1)
  {
    var v := IcInputValue(i) & 3;
    if ch == C2 || ch == C4 then (if v == 1 then 2 else 1) else v
  }

  /** `timer_ic_set_input` as written. */
  function IcSetInputAsWritten(c: Ccmr, ch: Channel, i: IcInput): (d: Ccmr)
    ensures Agree(ChannelByte(d, ch), ChannelByte(c, ch), !3)
    ensures forall o :: o != ch ==> ChannelByte(d, o) == ChannelByte(c, o)
  {
    WithChannelByte(c, ch, Replace(ChannelByte(c, ch), 3, InputCodeAsWritten(ch, i)))
  }

  /**
   * Asking for an output (or for TRC) on channel 2 or 4 configures the
   * channel as an input from its own pin instead.
   */
  lemma IcSetInputAsWrittenCounterexample(c: Ccmr)
    ensures SelectedInput(C2, ChannelByte(IcSetInputAsWritten(c, C2, Out), C2) & 3) == InTi2
    ensures SelectedInput(C2, ChannelByte(IcSetInput(c, C2, Out), C2) & 3) == Out
    ensures SelectedInput(C4, ChannelByte(IcSetInputAsWritten(c, C4, InTrc), C4) & 3) == InTi4
  {
  }

  /**
   * `timer_set_oc_mode` as written. OC1 and OC2 match the common driver.
   * For OC3 and OC4 the CCxS mask is applied to CCMR1 (so to the byte of
   * channel 1 or 2), and the ACTIVE code is or-ed into CCMR1 as well; only
   * the other modes reach channel 3 or 4.
   */
  function SetOcModeAsWritten(c: Ccmr, oc: OcId, mode: OcMode): (d: Ccmr)
    ensures oc != OC3 && oc != OC4 ==> d == SetOcMode(c, oc, mode)
  {
    match oc
    case OC3 =>
      c.(ch1 := (c.ch1 & !3) | (if mode == Active then 0x10 else 0),
         ch3 := (c.ch3 & !0x70) | (if mode == Active then 0 else OcModeCode(mode) << 4))
    case OC4 =>
      c.(ch2 := (c.ch2 & !3) | (if mode == Active then 0x10 else 0),
         ch4 := (c.ch4 & !0x70) | (if mode == Active then 0 else OcModeCode(mode) << 4))
    case _ => SetOcMode(c, oc, mode)
  }

  /**
   * Setting OC3 to ACTIVE when channels 1 and 3 are inputs from their own
   * pins: channel 3 stays an input in FROZEN mode, and channel 1 is turned
   * into an ACTIVE output.
   */
  lemma SetOcModeAsWrittenCounterexample()
    ensures SetOcModeAsWritten(Ccmr(1, 0, 1, 0), OC3, Active) == Ccmr(0x10, 0, 1, 0)
    ensures SetOcMode(Ccmr(1, 0, 1, 0), OC3, Active) == Ccmr(1, 0, 0x10, 0)
  {
  }

  /**
   * `timer_ic_set_prescaler` as written: channel 3's field is cleared at bits
   * 2..3 but the code is shifted by 4, into the input filter bits.
   */
  function IcSetPrescalerAsWritten(c: Ccmr, ch: Channel, p: IcPrescaler): (d: Ccmr)
    ensures ch != C3 ==> d == IcSetPrescaler(c, ch, p)
  {
    if ch == C3 then c.(ch3 := (c.ch3 & !0xC) | (PrescalerCode(p) << 4))
    else IcSetPrescaler(c, ch, p)
  }

  /** On channel 3 any prescaler other than "off" is lost. */
  lemma IcSetPrescalerAsWrittenCounterexample(c: Ccmr)
    ensures PrescalerOf(ChannelByte(IcSetPrescalerAsWritten(c, C3, Psc2), C3)) == PscOff
    ensures PrescalerOf(ChannelByte(IcSetPrescaler(c, C3, Psc2), C3)) == Psc2
  {
  }
}
