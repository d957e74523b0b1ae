/**
 * Register arithmetic of the general-purpose and advanced timers, as the
 * common driver does it for every STM32 family that shares this timer.
 *
 * CR1: CEN 0, UDIS 1, URS 2, OPM 3, DIR 4, CMS 5..6, ARPE 7, CKD 8..9.
 * CR2: CCPC 0, CCUS 2, CCDS 3, MMS 4..6, TI1S 7, OIS1 8, OIS1N 9, OIS2 10,
 * OIS2N 11, OIS3 12, OIS3N 13, OIS4 14. SR and DIER: UIF 0, CC1IF..CC4IF
 * 1..4, COMIF 5, TIF 6, BIF 7. CCMR1 holds channels 1 (bits 0..7) and 2
 * (bits 8..15), CCMR2 channels 3 and 4 likewise; within a channel's byte
 * CCxS is bits 0..1, the input prescaler bits 2..3 and the output compare
 * mode bits 4..6. CCER: per channel k (0..3) CCxE 4k, CCxP 4k+1, CCxNE
 * 4k+2, CCxNP 4k+3. BDTR: OSSI 10, OSSR 11, BKE 12, BKP 13, AOE 14, MOE 15.
 */
module TimerCommon {
  import opened Bits

  /** The registers a single-bit control lives in. */
  datatype RegName = CR1 | CR2 | CCER | BDTR

  /*
   * ---------------- Identifiers ----------------
   */

  /** `enum tim_oc_id`, in declaration order (the enum value is the index). */
  datatype OcId = OC1 | OC1N | OC2 | OC2N | OC3 | OC3N | OC4

  function OcIndex(oc: OcId): (i: Reg)
    ensures i <= 6
  {
    match oc
    case OC1 => 0
    case OC1N => 1
    case OC2 => 2
    case OC2N => 3
    case OC3 => 4
    case OC3N => 5
    case OC4 => 6
  }

  predicate Complementary(oc: OcId) { oc == OC1N || oc == OC2N || oc == OC3N }

  /** `enum tim_ic_id`: the four capture/compare channels. */
  datatype Channel = C1 | C2 | C3 | C4

  function ChannelIndex(ch: Channel): (k: Reg)
    ensures k <= 3
  {
    match ch
    case C1 => 0
    case C2 => 1
    case C3 => 2
    case C4 => 3
  }

  function ChannelOf(oc: OcId): Channel
  {
    match oc
    case OC1 => C1
    case OC1N => C1
    case OC2 => C2
    case OC2N => C2
    case OC3 => C3
    case OC3N => C3
    case OC4 => C4
  }

  /*
   * ---------------- Single-bit controls ----------------
   */

  /**
   * Every control the driver sets or clears with one `|=` or `&= ~` of a
   * single bit of CR1, CR2, CCER or BDTR.
   */
  datatype Control =
    | AutoReloadPreload | DirectionDown | OnePulse | UpdateOnOverflow | UpdateDisable | CounterEnable
    | Ti1Xor | DmaOnUpdate | CompareControlUpdateOnTrigger | PreloadComplementary | IdleState(oc: OcId)
    | OcPolarityLow(oc: OcId) | OcOutputEnable(oc: OcId)
    | OffStateIdle | OffStateRun | BreakEnable | BreakPolarityHigh | AutomaticOutput | MainOutput

  function RegOf(c: Control): RegName
  {
    match c
    case AutoReloadPreload => CR1
    case DirectionDown => CR1
    case OnePulse => CR1
    case UpdateOnOverflow => CR1
    case UpdateDisable => CR1
    case CounterEnable => CR1
    case Ti1Xor => CR2
    case DmaOnUpdate => CR2
    case CompareControlUpdateOnTrigger => CR2
    case PreloadComplementary => CR2
    case IdleState(_) => CR2
    case OcPolarityLow(_) => CCER
    case OcOutputEnable(_) => CCER
    case OffStateIdle => BDTR
    case OffStateRun => BDTR
    case BreakEnable => BDTR
    case BreakPolarityHigh => BDTR
    case AutomaticOutput => BDTR
    case MainOutput => BDTR
  }

  /**
   * The CCER bit of an output: CCxE / CCxNE (`polarity` false) or CCxP /
   * CCxNP (`polarity` true) of the output's channel.
   */
  function CcerBit(oc: OcId, polarity: bool): (m: Reg)
    ensures m & !0xFFFF == 0 && m != 0
  {
    1 << (4 * ChannelIndex(ChannelOf(oc)) + (if Complementary(oc) then 2 else 0) + (if polarity then 1 else 0))
  }

  function BitOf(c: Control): (m: Reg)
    ensures m != 0
  {
    match c
    case AutoReloadPreload => 0x80
    case DirectionDown => 0x10
    case OnePulse => 0x8
    case UpdateOnOverflow => 0x4
    case UpdateDisable => 0x2
    case CounterEnable => 0x1
    case Ti1Xor => 0x80
    case DmaOnUpdate => 0x8
    case CompareControlUpdateOnTrigger => 0x4
    case PreloadComplementary => 0x1
    case IdleState(oc) => 1 << (8 + OcIndex(oc))
    case OcPolarityLow(oc) => CcerBit(oc, true)
    case OcOutputEnable(oc) => CcerBit(oc, false)
    case OffStateIdle => 0x400
    case OffStateRun => 0x800
    case BreakEnable => 0x1000
    case BreakPolarityHigh => 0x2000
    case AutomaticOutput => 0x4000
    case MainOutput => 0x8000
  }

  /** The control is on in its register's value `r`. */
  predicate IsOn(r: Reg, c: Control)
  {
    r & BitOf(c) != 0
  }

  /**
   * The single-bit setters (`timer_enable_preload`, `timer_direction_down`,
   * `timer_one_shot_mode`, `timer_update_on_overflow`,
   * `timer_disable_update_event`, `timer_enable_counter`, the CR2 selectors,
   * `timer_set_oc_idle_state_set`, `timer_set_oc_polarity_low`,
   * `timer_enable_oc_output`, the BDTR enables) and their counterparts, on
   * the control's register `r`: the control's bit becomes `on` and no other
   * bit changes.
   */
  function SetControl(r: Reg, c: Control, on: bool): (s: Reg)
    ensures IsOn(s, c) == on
    ensures Agree(s, r, !BitOf(c))
  {
    Assign(r, BitOf(c), on)
  }

  /** Setting a clear control and clearing it again restores the register. */
  lemma SetControlUndo(r: Reg, c: Control)
    requires r & BitOf(c) == 0
    ensures SetControl(SetControl(r, c, true), c, false) == r
  {
  }

  /**
   * Each output's idle-state bit is bit 8 plus its `tim_oc_id` value: OIS1,
   * OIS1N, OIS2, OIS2N, OIS3, OIS3N, OIS4 in turn, all inside the OIS field.
   */
  lemma IdleStateBits(oc: OcId)
    ensures BitOf(IdleState(oc)) & !0x7F00 == 0
    ensures oc == OC1 ==> BitOf(IdleState(oc)) == 0x100
    ensures oc == OC4 ==> BitOf(IdleState(oc)) == 0x4000
  {
  }

  /*
   * ---------------- CR1 and CR2 fields ----------------
   */

  /**
   * `timer_set_mode`: CKD, CMS and DIR are cleared, then the three
   * arguments are or-ed in as given.
   */
  function SetMode(cr1: Reg, clockDiv: Reg, alignment: Reg, direction: Reg): (r: Reg)
    ensures Agree(r, clockDiv | alignment | direction, 0x370)
    ensures Agree(r, cr1 | clockDiv | alignment | direction, !0x370)
  {
    Merge(cr1, 0x370, clockDiv | alignment | direction)
  }

  /** With arguments inside their fields, set_mode changes only CKD, CMS and DIR. */
  lemma SetModeFrame(cr1: Reg, clockDiv: Reg, alignment: Reg, direction: Reg)
    requires clockDiv & !0x300 == 0 && alignment & !0x60 == 0 && direction & !0x10 == 0
    ensures Agree(SetMode(cr1, clockDiv, alignment, direction), cr1, !0x370)
    ensures (SetMode(cr1, clockDiv, alignment, direction) >> 8) & 3 == clockDiv >> 8
  {
  }

  /** `timer_set_clock_division`: the argument is masked to CKD first. */
  function SetClockDivision(cr1: Reg, clockDiv: Reg): (r: Reg)
    ensures Agree(r, clockDiv, 0x300)
    ensures Agree(r, cr1, !0x300)
  {
    Replace(cr1, 0x300, clockDiv & 0x300)
  }

  /** `timer_set_alignment`: the argument is masked to CMS first. */
  function SetAlignment(cr1: Reg, alignment: Reg): (r: Reg)
    ensures Agree(r, alignment, 0x60)
    ensures Agree(r, cr1, !0x60)
  {
    Replace(cr1, 0x60, alignment & 0x60)
  }

  /** `timer_set_master_mode`: MMS cleared, then `mode` or-ed in unmasked. */
  function SetMasterMode(cr2: Reg, mode: Reg): (r: Reg)
    ensures Agree(r, mode, 0x70)
    ensures Agree(r, cr2 | mode, !0x70)
  {
    Merge(cr2, 0x70, mode)
  }

  /** `timer_set_output_idle_state`: the OIS bits of `outputs` are set. */
  function SetOutputIdleState(cr2: Reg, outputs: Reg): (r: Reg)
    ensures Agree(r, 0xFFFF_FFFF, outputs & 0x7F00)
    ensures Agree(r, cr2, !(outputs & 0x7F00))
  {
    cr2 | (outputs & 0x7F00)
  }

  /** `timer_reset_output_idle_state`: the OIS bits of `outputs` are cleared. */
  function ResetOutputIdleState(cr2: Reg, outputs: Reg): (r: Reg)
    ensures Agree(r, 0, outputs & 0x7F00)
    ensures Agree(r, cr2, !(outputs & 0x7F00))
  {
    cr2 & !(outputs & 0x7F00)
  }

  /*
   * ---------------- Interrupts and status ----------------
   */

  /** Enabling then disabling an irq mask restores DIER when those bits were clear. */
  lemma IrqEnableDisable(dier: Reg, irq: Reg)
    requires dier & irq == 0
    ensures Clear(Set(dier, irq), irq) == dier
  {
  }

  /**
   * `timer_interrupt_source`: false for any flag above BIF, otherwise true
   * when some bit of the flag is both pending and enabled.
   */
  function InterruptSource(sr: Reg, dier: Reg, flag: Reg): (b: bool)
    ensures b ==> flag <= 0x80 && sr & flag != 0 && dier & flag != 0
  {
    !(sr & dier & flag == 0 || flag > 0x80)
  }

  /**
   * For a single flag: an interrupt flag (UIF .. BIF, bits 0..7) is reported
   * exactly when it is pending and enabled; the overcapture flags and every
   * higher bit are never reported.
   */
  lemma InterruptSourceBit(sr: Reg, dier: Reg, i: nat)
    requires i < 32
    ensures i < 8 ==> (InterruptSource(sr, dier, Bit(i)) <==> IsSet(sr, i) && IsSet(dier, i))
    ensures i >= 8 ==> !InterruptSource(sr, dier, Bit(i))
  {
  }

  /**
   * `timer_clear_flag` writes the complement of the flags: SR bits are
   * cleared by writing 0 and unaffected by writing 1.
   */
  function ClearFlagWrite(flag: Reg): (w: Reg)
    ensures w & flag == 0 && Agree(w, 0xFFFF_FFFF, !flag)
  {
    !flag
  }

  /** The hardware's rule for SR writes (rc_w0): a 0 clears, a 1 keeps. */
  function ApplySrWrite(sr: Reg, w: Reg): Reg
  {
    sr & w
  }

  /** The write clears exactly the given flags and keeps every other pending flag. */
  lemma ClearFlagEffect(sr: Reg, flag: Reg)
    ensures ApplySrWrite(sr, ClearFlagWrite(flag)) & flag == 0
    ensures Agree(ApplySrWrite(sr, ClearFlagWrite(flag)), sr, !flag)
  {
  }

  /** `timer_generate_event`: the event bits are or-ed into EGR. */
  function GenerateEvent(egr: Reg, event: Reg): (r: Reg)
    ensures r & event == event
    ensures Agree(r, egr, !event)
  {
    egr | event
  }

  /*
   * ---------------- Capture/compare mode registers ----------------
   */

  /**
   * The two capture/compare mode registers as their four channel bytes:
   * CCMR1 is `ch1 | ch2 << 8`, CCMR2 is `ch3 | ch4 << 8`.
   */
  datatype Ccmr = Ccmr(ch1: Reg, ch2: Reg, ch3: Reg, ch4: Reg)

  predicate ValidCcmr(c: Ccmr)
  {
    c.ch1 <= 0xFF && c.ch2 <= 0xFF && c.ch3 <= 0xFF && c.ch4 <= 0xFF
  }

  function ChannelByte(c: Ccmr, ch: Channel): Reg
  {
    match ch
    case C1 => c.ch1
    case C2 => c.ch2
    case C3 => c.ch3
    case C4 => c.ch4
  }

  function WithChannelByte(c: Ccmr, ch: Channel, b: Reg): (d: Ccmr)
    ensures ChannelByte(d, ch) == b
    ensures forall o :: o != ch ==> ChannelByte(d, o) == ChannelByte(c, o)
  {
    match ch
    case C1 => c.(ch1 := b)
    case C2 => c.(ch2 := b)
    case C3 => c.(ch3 := b)
    case C4 => c.(ch4 := b)
  }

  /** CCMR1 as the register word. */
  function Ccmr1Word(c: Ccmr): Reg { c.ch1 | (c.ch2 << 8) }

  /** CCMR2 as the register word. */
  function Ccmr2Word(c: Ccmr): Reg { c.ch3 | (c.ch4 << 8) }

  /** `enum tim_oc_mode`, with its OCxM code. */
  datatype OcMode = Frozen | Active | Inactive | Toggle | ForceLow | ForceHigh | Pwm1 | Pwm2

  function OcModeCode(m: OcMode): (c: Reg)
    ensures c <= 7
  {
    match m
    case Frozen => 0
    case Active => 1
    case Inactive => 2
    case Toggle => 3
    case ForceLow => 4
    case ForceHigh => 5
    case Pwm1 => 6
    case Pwm2 => 7
  }

  /** The compare mode a channel byte holds in bits 4..6. */
  function OcModeOf(b: Reg): OcMode
  {
    var code := (b >> 4) & 7;
    if code == 0 then Frozen else if code == 1 then Active
    else if code == 2 then Inactive else if code == 3 then Toggle
    else if code == 4 then ForceLow else if code == 5 then ForceHigh
    else if code == 6 then Pwm1 else Pwm2
  }

  /** A channel byte with CCxS cleared and OCxM replaced by the mode's code. */
  function OcModeByte(b: Reg, mode: OcMode): (r: Reg)
    ensures r & 3 == 0
    ensures OcModeOf(r) == mode
    ensures Agree(r, b, !0x73)
  {
    (b & !0x73) | (OcModeCode(mode) << 4)
  }

  /**
   * `timer_set_oc_mode`: for OC1..OC4 the channel becomes an output (CCxS =
   * 0) with compare mode `mode`; the complementary outputs have no mode of
   * their own and leave the registers unchanged. The other channels never
   * change.
   */
  function SetOcMode(c: Ccmr, oc: OcId, mode: OcMode): (d: Ccmr)
    ensures Complementary(oc) ==> d == c
    ensures !Complementary(oc) ==> ChannelByte(d, ChannelOf(oc)) & 3 == 0
    ensures !Complementary(oc) ==> OcModeOf(ChannelByte(d, ChannelOf(oc))) == mode
    ensures !Complementary(oc) ==> Agree(ChannelByte(d, ChannelOf(oc)), ChannelByte(c, ChannelOf(oc)), !0x73)
    ensures forall o :: o != ChannelOf(oc) ==> ChannelByte(d, o) == ChannelByte(c, o)
  {
    if Complementary(oc) then c
    else WithChannelByte(c, ChannelOf(oc), OcModeByte(ChannelByte(c, ChannelOf(oc)), mode))
  }

  /**
   * The per-channel output-compare switches of a CCMR byte: clear enable
   * OCxCE (bit 7), preload enable OCxPE (bit 3) and fast enable OCxFE
   * (bit 2).
   */
  datatype OcFeature = OcClear | OcPreload | OcFast

  function FeatureBit(f: OcFeature): (m: Reg)
    ensures m & !0x8C == 0 && m != 0
  {
    match f
    case OcClear => 0x80
    case OcPreload => 0x8
    case OcFast => 0x4
  }

  /**
   * `timer_enable_oc_clear` / `timer_disable_oc_clear`,
   * `timer_set_oc_fast_mode` / `timer_set_oc_slow_mode` and
   * `timer_enable_oc_preload` / `timer_disable_oc_preload`: for OC1..OC4 the
   * feature's bit of the channel's byte becomes `on` and nothing else
   * changes; a complementary output is ignored, as the switch has no action
   * for it.
   */
  function SetOcFeature(c: Ccmr, oc: OcId, f: OcFeature, on: bool): (d: Ccmr)
    ensures Complementary(oc) ==> d == c
    ensures !Complementary(oc) ==> (ChannelByte(d, ChannelOf(oc)) & FeatureBit(f) != 0) == on
    ensures Agree(ChannelByte(d, ChannelOf(oc)), ChannelByte(c, ChannelOf(oc)), !FeatureBit(f))
    ensures forall o :: o != ChannelOf(oc) ==> ChannelByte(d, o) == ChannelByte(c, o)
    ensures ValidCcmr(c) ==> ValidCcmr(d)
  {
    if Complementary(oc) then c
    else WithChannelByte(c, ChannelOf(oc), Assign(ChannelByte(c, ChannelOf(oc)), FeatureBit(f), on))
  }

  /**
   * Enabling a feature that was off and disabling it again restores both
   * CCMR registers.
   */
  lemma SetOcFeatureUndo(c: Ccmr, oc: OcId, f: OcFeature)
    requires ChannelByte(c, ChannelOf(oc)) & FeatureBit(f) == 0
    ensures SetOcFeature(SetOcFeature(c, oc, f, true), oc, f, false) == c
  {
    if !Complementary(oc) {
      var ch, m := ChannelOf(oc), FeatureBit(f);
      var b := ChannelByte(c, ch);
      assert Assign(Assign(b, m, true), m, false) == b;
      WithChannelByteTwice(c, ch, Assign(b, m, true));
    }
  }

  /** Writing a channel's byte and then its old value back restores the pair. */
  lemma WithChannelByteTwice(c: Ccmr, ch: Channel, x: Reg)
    ensures WithChannelByte(WithChannelByte(c, ch, x), ch, ChannelByte(c, ch)) == c
  {
  }

  /** `enum tim_ic_input`, with its C value. */
  datatype IcInput = Out | InTi1 | InTi2 | InTrc | InTi3 | InTi4

  function IcInputValue(i: IcInput): (v: Reg)
    ensures v <= 6
  {
    match i
    case Out => 0
    case InTi1 => 1
    case InTi2 => 2
    case InTrc => 3
    case InTi3 => 5
    case InTi4 => 6
  }

  /**
   * What a CCxS code selects for a channel, as the register header names
   * the codes: channels 1 and 3 take their own input at 1 and the
   * neighbouring one at 2, channels 2 and 4 the other way round.
   */
  function SelectedInput(ch: Channel, ccs: Reg): IcInput
    requires ccs <= 3
  {
    if ccs == 0 then Out
    else if ccs == 3 then InTrc
    else match ch
      case C1 => if ccs == 1 then InTi1 else InTi2
      case C2 => if ccs == 1 then InTi2 else InTi1
      case C3 => if ccs == 1 then InTi3 else InTi4
      case C4 => if ccs == 1 then InTi4 else InTi3
  }

  /** The inputs a channel can take: its own, its neighbour's, TRC, or none. */
  predicate InputFor(ch: Channel, i: IcInput)
  {
    i == Out || i == InTrc ||
    (if ch == C1 || ch == C2 then i == InTi1 || i == InTi2 else i == InTi3 || i == InTi4)
  }

  /**
   * The CCxS code `timer_ic_set_input` computes: the value reduced to two
   * bits, then flipped for channels 2 and 4 when it is 1 or 2.
   */
  function InputCode(ch: Channel, i: IcInput): (c: Reg)
    ensures c <= 3
    ensures InputFor(ch, i) ==> SelectedInput(ch, c) == i
  {
    var v := IcInputValue(i) & 3;
    if (ch == C2 || ch == C4) && (v == 1 || v == 2) then v ^ 3 else v
  }

  /**
   * `timer_ic_set_input`: CCxS of the channel takes the input's code, so the
   * channel then captures from the requested input; nothing else changes.
   */
  function IcSetInput(c: Ccmr, ch: Channel, i: IcInput): (d: Ccmr)
    ensures InputFor(ch, i) ==> SelectedInput(ch, ChannelByte(d, ch) & 3) == i
    ensures Agree(ChannelByte(d, ch), ChannelByte(c, ch), !3)
    ensures forall o :: o != ch ==> ChannelByte(d, o) == ChannelByte(c, o)
  {
    WithChannelByte(c, ch, Replace(ChannelByte(c, ch), 3, InputCode(ch, i)))
  }

  /** `enum tim_ic_psc`, with its ICxPSC code. */
  datatype IcPrescaler = PscOff | Psc2 | Psc4 | Psc8

  function PrescalerCode(p: IcPrescaler): (c: Reg)
    ensures c <= 3
  {
    match p
    case PscOff => 0
    case Psc2 => 1
    case Psc4 => 2
    case Psc8 => 3
  }

  /** The prescaler a channel byte holds in bits 2..3. */
  function PrescalerOf(b: Reg): IcPrescaler
  {
    var code := (b >> 2) & 3;
    if code == 0 then PscOff else if code == 1 then Psc2 else if code == 2 then Psc4 else Psc8
  }

  /** A channel byte with ICxPSC replaced by the prescaler's code. */
  function PrescalerByte(b: Reg, p: IcPrescaler): (r: Reg)
    ensures PrescalerOf(r) == p
    ensures Agree(r, b, !0xC)
  {
    (b & !0xC) | (PrescalerCode(p) << 2)
  }

  /**
   * `timer_ic_set_prescaler`: bits 2..3 of the channel's byte take the
   * prescaler's code; nothing else changes.
   */
  function IcSetPrescaler(c: Ccmr, ch: Channel, p: IcPrescaler): (d: Ccmr)
    ensures PrescalerOf(ChannelByte(d, ch)) == p
    ensures Agree(ChannelByte(d, ch), ChannelByte(c, ch), !0xC)
    ensures forall o :: o != ch ==> ChannelByte(d, o) == ChannelByte(c, o)
  {
    WithChannelByte(c, ch, PrescalerByte(ChannelByte(c, ch), p))
  }

  /*
   * ---------------- Capture enable ----------------
   */

  /** `timer_ic_enable` / `timer_ic_disable`: bit `ic * 4` of CCER. */
  function IcSetEnable(ccer: Reg, ch: Channel, on: bool): (r: Reg)
    ensures (r & (1 << (ChannelIndex(ch) * 4)) != 0) == on
    ensures Agree(r, ccer, !(1 << (ChannelIndex(ch) * 4)))
  {
    Assign(ccer, 1 << (ChannelIndex(ch) * 4), on)
  }

  /** A channel's CCxE bit is bit `4k`, and CCxNE bit `4k + 2`. */
  lemma CcerEnableBit(oc: OcId)
    ensures !Complementary(oc) ==> CcerBit(oc, false) == 1 << (ChannelIndex(ChannelOf(oc)) * 4)
    ensures Complementary(oc) ==> CcerBit(oc, false) == 1 << (ChannelIndex(ChannelOf(oc)) * 4 + 2)
  {
  }

  /** The capture enable bit is the same CCxE bit as the channel's output enable. */
  lemma IcEnableIsOutputEnable(ccer: Reg, ch: Channel, on: bool, oc: OcId)
    requires !Complementary(oc) && ChannelOf(oc) == ch
    ensures IcSetEnable(ccer, ch, on) == SetControl(ccer, OcOutputEnable(oc), on)
  {
    CcerEnableBit(oc);
  }

  /** Enabling then disabling capture on a channel restores CCER when it was off. */
  lemma IcEnableDisable(ccer: Reg, ch: Channel)
    requires ccer & (1 << (ChannelIndex(ch) * 4)) == 0
    ensures IcSetEnable(IcSetEnable(ccer, ch, true), ch, false) == ccer
  {
  }
}
