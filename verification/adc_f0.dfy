/**
 * The STM32F0 ADC driver's register arithmetic: the channel-selection
 * sequence with its scan direction, the operation modes, the analog
 * watchdog, and the field setters for the clock source, resolution and
 * sample time.
 *
 * The F0 ADC header is not part of this model; the bit positions below are
 * those of the STM32F0 reference manual (RM0091): CFGR1 AWDCH 26..30,
 * AWDEN 23, AWDSGL 22, DISCEN 16, CONT 13, RES 3..4, SCANDIR 2; CFGR2
 * CKMODE 30..31; SMPR SMP 0..2; TR HT 16..27 and LT 0..11.
 */
module AdcF0 {
  import opened Bits

  const AWDCH: Reg := 0x7C00_0000
  const AWDEN: Reg := 0x80_0000
  const AWDSGL: Reg := 0x40_0000
  const DISCEN: Reg := 0x1_0000
  const CONT: Reg := 0x2000
  const RES: Reg := 0x18
  const SCANDIR: Reg := 0x4
  const CKMODE: Reg := 0xC000_0000
  const HT: Reg := 0xFFF_0000
  const LT: Reg := 0xFFF

  /*
   * ---------------- Channel selection ----------------
   */

  /** The first `n` channels are bit positions of CHSELR. */
  predicate ChannelsInRange(s: seq<U8>, n: nat)
  {
    n <= |s| && forall k :: 0 <= k < n ==> s[k] < 32
  }

  /** The CHSELR value for the first `n` channels: bit `c` for every listed `c`. */
  function ChannelMask(s: seq<U8>, n: nat): Reg
    requires ChannelsInRange(s, n)
  {
    if n == 0 then 0 else ChannelMask(s, n - 1) | ((1 as Reg) << s[n - 1])
  }

  lemma OneBit(c: U8, d: U8)
    requires c < 32 && d < 32
    ensures ((1 as Reg) << d) & ((1 as Reg) << c) != 0 <==> c == d
  {
  }

  lemma OrBit(a: Reg, b: Reg, m: Reg)
    ensures (a | b) & m != 0 <==> a & m != 0 || b & m != 0
  {
  }

  /** Channel `c` is selected in the mask exactly when it is among the first `n`. */
  lemma {:induction false} ChannelMaskSelects(s: seq<U8>, n: nat, c: U8)
    requires ChannelsInRange(s, n) && c < 32
    ensures ChannelMask(s, n) & ((1 as Reg) << c) != 0 <==> c in s[..n]
  {
    if n > 0 {
      ChannelMaskSelects(s, n - 1, c);
      OneBit(c, s[n - 1]);
      OrBit(ChannelMask(s, n - 1), (1 as Reg) << s[n - 1], (1 as Reg) << c);
      assert s[..n] == s[..n - 1] + [s[n - 1]];
    }
  }

  /** Some adjacent pair among the first `n` channels increases. */
  predicate StepsUp(s: seq<U8>, n: nat)
    requires n <= |s|
  {
    n >= 2 && (StepsUp(s, n - 1) || s[n - 2] < s[n - 1])
  }

  /** Some adjacent pair among the first `n` channels decreases. */
  predicate StepsDown(s: seq<U8>, n: nat)
    requires n <= |s|
  {
    n >= 2 && (StepsDown(s, n - 1) || s[n - 2] > s[n - 1])
  }

  /** `StepsUp` means what it says: an adjacent pair increases. */
  lemma {:induction false} StepsUpWitness(s: seq<U8>, n: nat)
    requires n <= |s|
    ensures StepsUp(s, n) <==> exists i :: 1 <= i < n && s[i - 1] < s[i]
  {
    if n >= 2 {
      StepsUpWitness(s, n - 1);
    }
  }

  /** `StepsDown` means what it says: an adjacent pair decreases. */
  lemma {:induction false} StepsDownWitness(s: seq<U8>, n: nat)
    requires n <= |s|
    ensures StepsDown(s, n) <==> exists i :: 1 <= i < n && s[i - 1] > s[i]
  {
    if n >= 2 {
      StepsDownWitness(s, n - 1);
    }
  }

  /** Channels with no decreasing pair are in ascending order. */
  lemma {:induction false} NoStepDownAscending(s: seq<U8>, n: nat)
    requires n <= |s| && !StepsDown(s, n)
    ensures forall i, j :: 0 <= i <= j < n ==> s[i] <= s[j]
  {
    if n >= 2 {
      NoStepDownAscending(s, n - 1);
    }
  }

  /** Channels with no increasing pair are in descending order. */
  lemma {:induction false} NoStepUpDescending(s: seq<U8>, n: nat)
    requires n <= |s| && !StepsUp(s, n)
    ensures forall i, j :: 0 <= i <= j < n ==> s[i] >= s[j]
  {
    if n >= 2 {
      NoStepUpDescending(s, n - 1);
    }
  }

  /** One more channel: its bit joins the mask and its pair with the previous one is compared. */
  lemma NextChannel(s: seq<U8>, i: nat)
    requires 1 <= i && ChannelsInRange(s, i + 1)
    ensures ChannelMask(s, i + 1) == ChannelMask(s, i) | ((1 as Reg) << s[i])
    ensures StepsUp(s, i + 1) == (StepsUp(s, i) || s[i - 1] < s[i])
    ensures StepsDown(s, i + 1) == (StepsDown(s, i) || s[i - 1] > s[i])
  {
  }

  /** SCANDIR set for a downward scan, cleared for an upward one; nothing else changes. */
  function ScanDirection(cfgr1: Reg, down: bool): (r: Reg)
    ensures r & SCANDIR != 0 <==> down
    ensures Agree(r, cfgr1, !SCANDIR)
  {
    Assign(cfgr1, SCANDIR, down)
  }

  /** The registers `adc_set_regular_sequence` writes. */
  datatype Regs = Regs(cfgr1: Reg, chselr: Reg)

  /**
   * What `adc_set_regular_sequence` leaves behind: the registers, or the
   * assertion failure a list that both rises and falls reaches (the
   * failure handler does not return, so no register is written).
   */
  datatype Outcome = Written(regs: Regs) | Unordered

  /**
   * The loop of `adc_set_regular_sequence`: one pass over the first `n`
   * channels collecting their CHSELR bits and whether any adjacent pair
   * rises or falls.
   */
  method ScanChannels(channel: seq<U8>, n: nat) returns (reg: Reg, stepUp: bool, stepDown: bool)
    requires 1 <= n && ChannelsInRange(channel, n)
    ensures reg == ChannelMask(channel, n)
    ensures stepUp == StepsUp(channel, n) && stepDown == StepsDown(channel, n)
  {
    reg := (1 as Reg) << channel[0];
    stepUp, stepDown := false, false;
    var i := 1;
    while i < n
      invariant 1 <= i <= n
      invariant reg == ChannelMask(channel, i)
      invariant stepUp == StepsUp(channel, i)
      invariant stepDown == StepsDown(channel, i)
    {
      NextChannel(channel, i);
      reg := reg | ((1 as Reg) << channel[i]);
      stepUp := stepUp || channel[i - 1] < channel[i];
      stepDown := stepDown || channel[i - 1] > channel[i];
      i := i + 1;
    }
  }

  /**
   * `adc_set_regular_sequence`. A zero length clears CHSELR and leaves CFGR1
   * alone. Otherwise CHSELR selects exactly the listed channels and SCANDIR
   * is set when the list falls somewhere and cleared otherwise; a list that
   * both rises and falls fails the assertion instead.
   */
  method SetRegularSequence(a: Regs, length: U8, channel: seq<U8>) returns (o: Outcome)
    requires ChannelsInRange(channel, length as int)
    ensures length == 0 ==> o == Written(a.(chselr := 0))
    ensures length > 0 ==>
      (o == Unordered <==> StepsUp(channel, length as int) && StepsDown(channel, length as int))
    ensures length > 0 && o.Written? ==> o.regs.chselr == ChannelMask(channel, length as int)
    ensures length > 0 && o.Written? ==> (o.regs.cfgr1 & SCANDIR != 0 <==> StepsDown(channel, length as int))
    ensures length > 0 && o.Written? ==> Agree(o.regs.cfgr1, a.cfgr1, !SCANDIR)
  {
    if length == 0 {
      return Written(a.(chselr := 0));
    }
    var reg, stepUp, stepDown := ScanChannels(channel, length as int);
    if stepUp && stepDown {
      return Unordered;
    }
    return Written(Regs(ScanDirection(a.cfgr1, stepDown), reg));
  }

  /*
   * ---------------- Operation mode ----------------
   */

  datatype OpMode = Sequential | Scan | ScanInfinite | Grouped

  /**
   * `adc_set_operation_mode`: sequential mode is discontinuous and not
   * continuous, scan mode neither, infinite scan continuous and not
   * discontinuous; grouped mode has no case and changes nothing. No other
   * bit of CFGR1 changes.
   */
  function SetOperationMode(cfgr1: Reg, mode: OpMode): (r: Reg)
    ensures mode == Grouped ==> r == cfgr1
    ensures mode != Grouped ==>
      && (r & CONT != 0 <==> mode == ScanInfinite)
      && (r & DISCEN != 0 <==> mode == Sequential)
      && Agree(r, cfgr1, !(CONT | DISCEN))
  {
    match mode
    case Sequential => Set(Clear(cfgr1, CONT), DISCEN)
    case Scan => Clear(cfgr1, CONT | DISCEN)
    case ScanInfinite => Set(Clear(cfgr1, DISCEN), CONT)
    case Grouped => cfgr1
  }

  /**
   * `adc_set_continuous_conversion_mode` (on) and
   * `adc_set_single_conversion_mode` (off): CONT only.
   */
  function SetContinuous(cfgr1: Reg, on: bool): (r: Reg)
    ensures (r & CONT != 0) == on && Agree(r, cfgr1, !CONT)
  {
    Assign(cfgr1, CONT, on)
  }

  /**
   * `adc_enable_discontinuous_mode` (on) and
   * `adc_disable_discontinuous_mode` (off): DISCEN only.
   */
  function SetDiscontinuous(cfgr1: Reg, on: bool): (r: Reg)
    ensures (r & DISCEN != 0) == on && Agree(r, cfgr1, !DISCEN)
  {
    Assign(cfgr1, DISCEN, on)
  }

  /**
   * Sequential mode is single conversion with discontinuous mode on; the
   * two scan modes have discontinuous mode off, and differ in CONT.
   */
  lemma OperationModeIsToggles(cfgr1: Reg, mode: OpMode)
    requires mode != Grouped
    ensures SetOperationMode(cfgr1, mode) ^ SetDiscontinuous(SetContinuous(cfgr1, mode == ScanInfinite), mode == Sequential) == 0
  {
  }

  /*
   * ---------------- Watchdog ----------------
   */

  /** `adc_enable_analog_watchdog_on_all_channels`: AWDEN set, AWDSGL cleared. */
  function WatchdogOnAllChannels(cfgr1: Reg): (r: Reg)
    ensures r & AWDEN != 0 && r & AWDSGL == 0
    ensures Agree(r, cfgr1, !(AWDEN | AWDSGL))
  {
    Clear(Set(cfgr1, AWDEN), AWDSGL)
  }

  /**
   * `adc_enable_analog_watchdog_on_selected_channel`: AWDCH takes the
   * channel (shifted, not masked), then AWDEN and AWDSGL are set.
   */
  function WatchdogOnChannel(cfgr1: Reg, chan: U8): (r: Reg)
    ensures chan < 32 ==> (r & AWDCH) >> 26 == chan
    ensures r & AWDEN != 0 && r & AWDSGL != 0
    ensures chan < 32 ==> Agree(r, cfgr1, !(AWDCH | AWDEN | AWDSGL))
  {
    Set(Merge(cfgr1, AWDCH, (chan as Reg) << 26), AWDEN | AWDSGL)
  }

  /** `adc_disable_analog_watchdog`: AWDEN cleared, the channel settings kept. */
  function DisableWatchdog(cfgr1: Reg): (r: Reg)
    ensures r & AWDEN == 0 && Agree(r, cfgr1, !AWDEN)
  {
    Clear(cfgr1, AWDEN)
  }

  /** Re-enabling on all channels after a disable restores AWDEN and keeps AWDCH. */
  lemma DisableThenEnableAll(cfgr1: Reg)
    ensures WatchdogOnAllChannels(DisableWatchdog(cfgr1)) & AWDCH == cfgr1 & AWDCH
    ensures WatchdogOnAllChannels(DisableWatchdog(cfgr1)) == WatchdogOnAllChannels(cfgr1)
  {
  }

  /** `adc_set_watchdog_high_threshold`: HT takes the 8-bit threshold; LT is kept. */
  function SetHighThreshold(tr: Reg, threshold: U8): (r: Reg)
    ensures (r & HT) >> 16 == threshold
    ensures Agree(r, tr, !HT)
  {
    Replace(tr, HT, (threshold as Reg) << 16)
  }

  /** `adc_set_watchdog_low_threshold`: LT takes the 8-bit threshold; HT is kept. */
  function SetLowThreshold(tr: Reg, threshold: U8): (r: Reg)
    ensures r & LT == threshold
    ensures Agree(r, tr, !LT)
  {
    Replace(tr, LT, threshold)
  }

  /** Both thresholds in place over the rest of TR. */
  function Thresholds(tr: Reg, high: U8, low: U8): Reg
  {
    (tr & !(HT | LT)) | ((high as Reg) << 16) | low
  }

  lemma HighAfterLow(tr: Reg, high: U8, low: U8)
    ensures SetHighThreshold(SetLowThreshold(tr, low), high) == Thresholds(tr, high, low)
  {
    assert ((high as Reg) << 16) & !HT == 0;
  }

  lemma LowAfterHigh(tr: Reg, high: U8, low: U8)
    ensures SetLowThreshold(SetHighThreshold(tr, high), low) == Thresholds(tr, high, low)
  {
    assert ((high as Reg) << 16) & !HT == 0;
  }

  /** The two thresholds are independent: setting them in either order gives the same TR. */
  lemma ThresholdsCommute(tr: Reg, high: U8, low: U8)
    ensures SetHighThreshold(SetLowThreshold(tr, low), high) == SetLowThreshold(SetHighThreshold(tr, high), low)
  {
    HighAfterLow(tr, high, low);
    LowAfterHigh(tr, high, low);
  }

  /*
   * ---------------- Field setters ----------------
   */

  /** `adc_set_clk_source`: CKMODE cleared and the source or-ed in. */
  function SetClockSource(cfgr2: Reg, source: Reg): (r: Reg)
    ensures source & !CKMODE == 0 ==> r & CKMODE == source && Agree(r, cfgr2, !CKMODE)
    ensures Agree(r, source, CKMODE)
  {
    Merge(cfgr2, CKMODE, source)
  }

  /** `adc_set_resolution`: RES cleared and the resolution or-ed in. */
  function SetResolution(cfgr1: Reg, resolution: U16): (r: Reg)
    ensures resolution & !RES == 0 ==> r & RES == resolution && Agree(r, cfgr1, !RES)
    ensures Agree(r, resolution, RES)
  {
    Merge(cfgr1, RES, resolution)
  }

  /** `adc_set_sample_time_on_all_channels`: SMPR becomes the time's SMP bits alone. */
  function SetSampleTime(time: U8): (r: Reg)
    ensures r <= 7 && Agree(r, time, 7)
  {
    (time as Reg) & 7
  }
}
