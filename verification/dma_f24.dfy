/**
 * Stream configuration of the STM32F2/F4 DMA controller. A stream is its
 * six registers; the controller's four interrupt status and flag clear
 * registers are shared by the eight streams, each stream owning a group of
 * five flags at an offset that depends on the stream number.
 *
 * SxCR: EN 0, DMEIE 1, TEIE 2, HTIE 3, TCIE 4, PFCTRL 5, DIR 6..7
 * (memory to memory = 2), CIRC 8, PINC 9, MINC 10, PSIZE 11..12, MSIZE
 * 13..14, PINCOS 15, PL 16..17, DBM 18, CT 19, PBURST 21..22, MBURST 23..24,
 * CHSEL 25..27. SxFCR: FTH 0..1, DMDIS 2, FS 3..5, FEIE 7. Flag group of a
 * stream, before the offset: FEIF 0, DMEIF 2, TEIF 3, HTIF 4, TCIF 5.
 */
module DmaF24 {
  import opened Bits

  datatype Stream = Stream(cr: Reg, ndtr: Reg, par: Reg, m0ar: Reg, m1ar: Reg, fcr: Reg)

  /**
   * The controller-wide flag registers: status (LISR, HISR) as the hardware
   * last set it, and the flag clear registers (LIFCR, HIFCR) as last written.
   */
  datatype Flags = Flags(lisr: Reg, hisr: Reg, lifcr: Reg, hifcr: Reg)

  /** A stream together with the controller's flag registers. */
  datatype Unit = Unit(st: Stream, flags: Flags)

  predicate Enabled(cr: Reg) { cr & 1 != 0 }
  predicate DoubleBuffered(cr: Reg) { cr & 0x4_0000 != 0 }

  /*
   * ---------------- Interrupt flag groups ----------------
   */

  /**
   * Bit offset of a stream's flag group inside LISR/LIFCR (streams 0..3) or
   * HISR/HIFCR (streams 4..7).
   */
  function IsrOffset(stream: U8): (o: Reg)
    ensures stream & 3 == 0 ==> o == 0
    ensures stream & 3 == 1 ==> o == 6
    ensures stream & 3 == 2 ==> o == 16
    ensures stream & 3 == 3 ==> o == 22
  {
    6 * (stream & 1) + 16 * ((stream & 2) >> 1)
  }

  /** The five flags of a stream, in place. */
  function IsrMask(stream: U8): (m: Reg)
    ensures stream & 3 == 0 ==> m == 0x3D
    ensures stream & 3 == 1 ==> m == 0xF40
    ensures stream & 3 == 2 ==> m == 0x3D_0000
    ensures stream & 3 == 3 ==> m == 0xF40_0000
  {
    0x3D << IsrOffset(stream)
  }

  /** Streams in different positions of a half own disjoint flag groups. */
  lemma IsrMasksDisjoint(s: U8, t: U8)
    requires s & 3 != t & 3
    ensures IsrMask(s) & IsrMask(t) == 0
  {
  }

  /** The flag clear register a stream's flags live in is the low one. */
  predicate LowHalf(stream: U8) { stream < 4 }

  /**
   * `dma_clear_interrupt_flags`: write the shifted flags to the stream's
   * flag clear register. The write replaces the register; nothing else
   * changes.
   */
  function ClearInterruptFlags(f: Flags, stream: U8, interrupts: Reg): (g: Flags)
    requires interrupts & !0x3D == 0
    ensures LowHalf(stream) ==> g == f.(lifcr := g.lifcr)
    ensures !LowHalf(stream) ==> g == f.(hifcr := g.hifcr)
    ensures (if LowHalf(stream) then g.lifcr else g.hifcr) & !IsrMask(stream) == 0
    ensures (if LowHalf(stream) then g.lifcr else g.hifcr) >> IsrOffset(stream) == interrupts
  {
    var flags := interrupts << IsrOffset(stream);
    if LowHalf(stream) then f.(lifcr := flags) else f.(hifcr := flags)
  }

  /** `dma_get_interrupt_flag`: the shifted flag read from the status register. */
  function GetInterruptFlag(f: Flags, stream: U8, interrupt: Reg): (b: bool)
    ensures interrupt & !0x3D == 0 ==>
      (b <==> Field(if LowHalf(stream) then f.lisr else f.hisr, IsrOffset(stream), 0x3D) & interrupt != 0)
  {
    (if LowHalf(stream) then f.lisr else f.hisr) & (interrupt << IsrOffset(stream)) != 0
  }

  /**
   * The hardware's rule for the flag clear registers: every 1 written clears
   * the status flag at the same position.
   */
  function ApplyClear(f: Flags): (g: Flags)
  {
    f.(lisr := Clear(f.lisr, f.lifcr), hisr := Clear(f.hisr, f.hifcr))
  }

  /**
   * The get operation reads the bit the clear operation writes: once the
   * hardware has acted on a clear of `flag`, reading `flag` gives false.
   */
  lemma ClearThenGet(f: Flags, stream: U8, flag: Reg)
    requires flag & !0x3D == 0
    ensures !GetInterruptFlag(ApplyClear(ClearInterruptFlags(f, stream, flag)), stream, flag)
  {
  }

  /**
   * Clearing one stream's flags never writes a 1 into the flag group of a
   * stream in another position, so no other stream's flag is cleared.
   */
  lemma ClearLeavesOtherStreams(f: Flags, stream: U8, other: U8, flags: Reg)
    requires flags & !0x3D == 0
    requires stream & 3 != other & 3
    ensures var g := ClearInterruptFlags(f, stream, flags);
            (if LowHalf(stream) then g.lifcr else g.hifcr) & IsrMask(other) == 0
  {
  }

  /*
   * ---------------- Reset ----------------
   */

  /**
   * `dma_stream_reset`: the stream's registers return to their reset values
   * (disabled, no addresses, FIFO threshold half, direct mode) and the
   * stream's five flags are or-ed into its flag clear register.
   */
  function StreamReset(u: Unit, stream: U8): (v: Unit)
    ensures !Enabled(v.st.cr) && v.st.cr == 0 && v.st.ndtr == 0
    ensures v.st.par == 0 && v.st.m0ar == 0 && v.st.m1ar == 0
    ensures v.st.fcr == 0x21 && v.st.fcr & 3 == 1 && v.st.fcr & 4 == 0 && v.st.fcr & 0x80 == 0
    ensures LowHalf(stream) ==> v.flags == u.flags.(lifcr := v.flags.lifcr)
    ensures !LowHalf(stream) ==> v.flags == u.flags.(hifcr := v.flags.hifcr)
    ensures var c := if LowHalf(stream) then v.flags.lifcr else v.flags.hifcr;
            var c0 := if LowHalf(stream) then u.flags.lifcr else u.flags.hifcr;
            c & IsrMask(stream) == IsrMask(stream) && Agree(c, c0, !IsrMask(stream))
  {
    var st := Stream(0, 0, 0, 0, 0, 0x21);
    var mask := IsrMask(stream);
    Unit(st, if LowHalf(stream) then u.flags.(lifcr := Set(u.flags.lifcr, mask))
             else u.flags.(hifcr := Set(u.flags.hifcr, mask)))
  }

  /*
   * ---------------- Stream control register ----------------
   */

  /**
   * `dma_set_transfer_mode`: the DIR field is replaced; memory to memory
   * also turns circular and double-buffer mode off.
   */
  function SetTransferMode(cr: Reg, direction: Reg): (r: Reg)
    ensures Agree(r, direction, 0xC0)
    ensures direction == 0x80 ==> r & 0x4_0100 == 0 && Agree(r, cr, !0x4_01C0)
    ensures direction != 0x80 ==> Agree(r, cr | direction, !0xC0)
  {
    Merge(if direction == 0x80 then cr & !0x4_0100 else cr, 0xC0, direction)
  }

  /** `dma_set_priority`: the PL field takes `prio`. */
  function SetPriority(cr: Reg, prio: Reg): (r: Reg)
    ensures Agree(r, prio, 0x3_0000)
    ensures Agree(r, cr | prio, !0x3_0000)
  {
    Merge(cr, 0x3_0000, prio)
  }

  /** `dma_set_memory_size`: the MSIZE field takes `size`. */
  function SetMemorySize(cr: Reg, size: Reg): (r: Reg)
    ensures Agree(r, size, 0x6000)
    ensures Agree(r, cr | size, !0x6000)
  {
    Merge(cr, 0x6000, size)
  }

  /** `dma_set_peripheral_size`: the PSIZE field takes `size`. */
  function SetPeripheralSize(cr: Reg, size: Reg): (r: Reg)
    ensures Agree(r, size, 0x1800)
    ensures Agree(r, cr | size, !0x1800)
  {
    Merge(cr, 0x1800, size)
  }

  /** `dma_set_memory_burst`: the MBURST field takes `burst`. */
  function SetMemoryBurst(cr: Reg, burst: Reg): (r: Reg)
    ensures Agree(r, burst, 0x180_0000)
    ensures Agree(r, cr | burst, !0x180_0000)
  {
    Merge(cr, 0x180_0000, burst)
  }

  /** `dma_set_peripheral_burst`: the PBURST field takes `burst`. */
  function SetPeripheralBurst(cr: Reg, burst: Reg): (r: Reg)
    ensures Agree(r, burst, 0x60_0000)
    ensures Agree(r, cr | burst, !0x60_0000)
  {
    Merge(cr, 0x60_0000, burst)
  }

  /**
   * `dma_enable_peripheral_increment_mode`: the peripheral address steps
   * with the peripheral data size (PINC set, PINCOS clear).
   */
  function EnablePeripheralIncrement(cr: Reg): (r: Reg)
    ensures r & 0x8200 == 0x200
    ensures Agree(r, cr, !0x8200)
  {
    (cr | 0x200) & !0x8000
  }

  /** `dma_enable_fixed_peripheral_increment_mode`: steps of 4 (PINC, PINCOS). */
  function EnableFixedPeripheralIncrement(cr: Reg): (r: Reg)
    ensures r & 0x8200 == 0x8200
    ensures Agree(r, cr, !0x8200)
  {
    Set(cr, 0x8200)
  }

  /** `dma_disable_peripheral_increment_mode`: PINC cleared, PINCOS kept. */
  function DisablePeripheralIncrement(cr: Reg): (r: Reg)
    ensures r & 0x200 == 0
    ensures Agree(r, cr, !0x200)
  {
    Clear(cr, 0x200)
  }

  /** Disabling after either enable leaves PINC clear and PINCOS as the enable set it. */
  lemma PeripheralIncrementModes(cr: Reg)
    ensures DisablePeripheralIncrement(EnablePeripheralIncrement(cr)) & 0x8200 == 0
    ensures DisablePeripheralIncrement(EnableFixedPeripheralIncrement(cr)) & 0x8200 == 0x8000
  {
  }

  /**
   * The CR bits the single-bit enable and disable operations own: memory
   * increment, circular mode, double buffering, peripheral flow control and
   * the stream enable.
   */
  datatype CrSwitch = MemoryIncrement | Circular | DoubleBuffer | PeripheralFlowControl | StreamEnable

  function SwitchBit(w: CrSwitch): (m: Reg)
    ensures m == 0x400 || m == 0x100 || m == 0x4_0000 || m == 0x20 || m == 1
  {
    match w
    case MemoryIncrement => 0x400
    case Circular => 0x100
    case DoubleBuffer => 0x4_0000
    case PeripheralFlowControl => 0x20
    case StreamEnable => 1
  }

  /**
   * `dma_enable_memory_increment_mode`, `dma_enable_circular_mode`,
   * `dma_enable_double_buffer_mode`, `dma_set_peripheral_flow_control`,
   * `dma_enable_stream`, and their clearing counterparts (circular mode has
   * none in this driver; `on` is then always true).
   */
  function Switch(cr: Reg, w: CrSwitch, on: bool): (r: Reg)
    ensures (r & SwitchBit(w) != 0) == on
    ensures Agree(r, cr, !SwitchBit(w))
  {
    Assign(cr, SwitchBit(w), on)
  }

  /**
   * `dma_channel_select` as written: the channel is or-ed into CR without
   * clearing CHSEL, so a second selection merges with the first.
   */
  function ChannelSelectAsWritten(cr: Reg, channel: Reg): (r: Reg)
    ensures r & channel == channel
    ensures Agree(r, cr, !channel)
  {
    cr | channel
  }

  /** Selecting channel 5 and then channel 2 leaves channel 7 selected. */
  lemma ChannelSelectMergesCounterexample()
    ensures ChannelSelectAsWritten(ChannelSelectAsWritten(0, 5 << 25), 2 << 25) & 0xE00_0000 == 7 << 25
  {
  }

  /**
   * Channel selection as the other field setters of the driver do it: the
   * CHSEL field is replaced, so the last selection wins.
   */
  function ChannelSelect(cr: Reg, channel: Reg): (r: Reg)
    requires channel & !0xE00_0000 == 0
    ensures r & 0xE00_0000 == channel
    ensures Agree(r, cr, !0xE00_0000)
  {
    Replace(cr, 0xE00_0000, channel)
  }

  /** With the field replaced, selecting twice is selecting the second channel. */
  lemma ChannelSelectLastWins(cr: Reg, a: Reg, b: Reg)
    requires a & !0xE00_0000 == 0 && b & !0xE00_0000 == 0
    ensures ChannelSelect(ChannelSelect(cr, a), b) & 0xE00_0000 == b
    ensures Agree(ChannelSelect(ChannelSelect(cr, a), b), ChannelSelect(cr, b), 0xFFFF_FFFF)
  {
  }

  /*
   * ---------------- Current target ----------------
   */

  /** `dma_get_target`: the memory area in use, 1 when CT is set. */
  function GetTarget(cr: Reg): (t: U8)
    ensures t <= 1
    ensures t == 1 <==> cr & 0x8_0000 != 0
  {
    if cr & 0x8_0000 != 0 then 1 else 0
  }

  /** `dma_set_initial_target`: CT becomes `memory == 1`. */
  function SetInitialTarget(cr: Reg, memory: U8): (r: Reg)
    ensures GetTarget(r) == (if memory == 1 then 1 else 0)
    ensures Agree(r, cr, !0x8_0000)
  {
    (cr & !0x8_0000) | (if memory == 1 then 0x8_0000 else 0)
  }

  /*
   * ---------------- Guarded address writes ----------------
   */

  /** `dma_set_peripheral_address`: PAR is written only while EN is clear. */
  function SetPeripheralAddress(s: Stream, address: Reg): (r: Stream)
    ensures r.par == (if Enabled(s.cr) then s.par else address)
    ensures r == s.(par := r.par)
  {
    if !Enabled(s.cr) then s.(par := address) else s
  }

  /** M0AR may be written: the stream is off, or double buffering is using M1. */
  predicate M0Writable(cr: Reg)
  {
    !Enabled(cr) || (cr & 0x8_0000 != 0 && DoubleBuffered(cr))
  }

  /** M1AR may be written: the stream is off, or double buffering is using M0. */
  predicate M1Writable(cr: Reg)
  {
    !Enabled(cr) || (cr & 0x8_0000 == 0 && DoubleBuffered(cr))
  }

  /** `dma_set_memory_address`: M0AR is written only when the guard allows. */
  function SetMemoryAddress(s: Stream, address: Reg): (r: Stream)
    ensures r.m0ar == (if M0Writable(s.cr) then address else s.m0ar)
    ensures r == s.(m0ar := r.m0ar)
  {
    var reg := s.cr;
    if reg & 1 == 0 || (reg & 0x8_0000 != 0 && reg & 0x4_0000 != 0) then s.(m0ar := address) else s
  }

  /** `dma_set_memory_address_1`: M1AR is written only when the guard allows. */
  function SetMemoryAddress1(s: Stream, address: Reg): (r: Stream)
    ensures r.m1ar == (if M1Writable(s.cr) then address else s.m1ar)
    ensures r == s.(m1ar := r.m1ar)
  {
    var reg := s.cr;
    if reg & 1 == 0 || (reg & 0x8_0000 == 0 && reg & 0x4_0000 != 0) then s.(m1ar := address) else s
  }

  /**
   * An enabled double-buffered stream accepts exactly one of the two memory
   * address writes: the one for the area the current target is not using.
   * An enabled single-buffered stream accepts neither.
   */
  lemma DoubleBufferWritesExclusive(cr: Reg)
    requires Enabled(cr)
    ensures DoubleBuffered(cr) ==> (M0Writable(cr) <==> !M1Writable(cr))
    ensures DoubleBuffered(cr) ==> (M0Writable(cr) <==> GetTarget(cr) == 1)
    ensures !DoubleBuffered(cr) ==> !M0Writable(cr) && !M1Writable(cr)
  {
  }

  /** `dma_set_number_of_data`: NDTR takes the 16-bit count. */
  function SetNumberOfData(s: Stream, number: U16): (r: Stream)
    ensures r.ndtr <= 0xFFFF && r.ndtr == number
    ensures r == s.(ndtr := r.ndtr)
  {
    s.(ndtr := number)
  }

  /*
   * ---------------- Interrupts ----------------
   */

  datatype Interrupt = TransferError | HalfTransfer | TransferComplete | DirectModeError | FifoError

  /** The interrupt's flag within a stream's group. */
  function FlagOf(i: Interrupt): (f: Reg)
    ensures f & !0x3D == 0 && f != 0
  {
    match i
    case TransferError => 0x8
    case HalfTransfer => 0x10
    case TransferComplete => 0x20
    case DirectModeError => 0x4
    case FifoError => 0x1
  }

  /** The interrupt's enable bit: in CR, except the FIFO error's, in FCR. */
  function EnableBitOf(i: Interrupt): (b: Reg)
    ensures b == 0x4 || b == 0x8 || b == 0x10 || b == 0x2 || b == 0x80
  {
    match i
    case TransferError => 0x4
    case HalfTransfer => 0x8
    case TransferComplete => 0x10
    case DirectModeError => 0x2
    case FifoError => 0x80
  }

  /** The stream half of `dma_enable_*_interrupt`: set the enable bit only. */
  function SetEnableBit(s: Stream, i: Interrupt): (r: Stream)
    ensures i == FifoError ==> r == s.(fcr := r.fcr) && r.fcr & 0x80 != 0 && Agree(r.fcr, s.fcr, !0x80)
    ensures i != FifoError ==> r == s.(cr := r.cr) && r.cr & EnableBitOf(i) != 0 && Agree(r.cr, s.cr, !EnableBitOf(i))
  {
    if i == FifoError then s.(fcr := Set(s.fcr, 0x80)) else s.(cr := Set(s.cr, EnableBitOf(i)))
  }

  /**
   * `dma_enable_*_interrupt`: clear the interrupt's pending flag, then set
   * its enable bit; no other stream register changes.
   */
  function EnableInterrupt(u: Unit, stream: U8, i: Interrupt): (v: Unit)
    ensures v.flags == ClearInterruptFlags(u.flags, stream, FlagOf(i))
    ensures v.st == SetEnableBit(u.st, i)
  {
    Unit(SetEnableBit(u.st, i), ClearInterruptFlags(u.flags, stream, FlagOf(i)))
  }

  /** `dma_disable_*_interrupt`: clear the enable bit only. */
  function DisableInterrupt(s: Stream, i: Interrupt): (r: Stream)
    ensures i == FifoError ==> r == s.(fcr := r.fcr) && r.fcr & 0x80 == 0 && Agree(r.fcr, s.fcr, !0x80)
    ensures i != FifoError ==> r == s.(cr := r.cr) && r.cr & EnableBitOf(i) == 0 && Agree(r.cr, s.cr, !EnableBitOf(i))
  {
    if i == FifoError then s.(fcr := Clear(s.fcr, 0x80)) else s.(cr := Clear(s.cr, EnableBitOf(i)))
  }

  /**
   * Enabling an interrupt leaves its flag read as clear once the hardware
   * has processed the write, and disabling it again restores the stream's
   * registers when the enable bit was clear to begin with.
   */
  lemma {:induction false} EnableThenDisable(u: Unit, stream: U8, i: Interrupt)
    requires i == FifoError ==> u.st.fcr & 0x80 == 0
    requires i != FifoError ==> u.st.cr & EnableBitOf(i) == 0
    ensures !GetInterruptFlag(ApplyClear(EnableInterrupt(u, stream, i).flags), stream, FlagOf(i))
    ensures DisableInterrupt(EnableInterrupt(u, stream, i).st, i) == u.st
  {
    ClearThenGet(u.flags, stream, FlagOf(i));
  }

  /*
   * ---------------- FIFO control register ----------------
   */

  /** `dma_enable_direct_mode` / `dma_enable_fifo_mode`: DMDIS cleared / set. */
  function SetFifoMode(fcr: Reg, fifo: bool): (r: Reg)
    ensures (r & 4 != 0) == fifo
    ensures Agree(r, fcr, !4)
  {
    Assign(fcr, 4, fifo)
  }

  /** `dma_set_fifo_threshold`: the FTH field takes `threshold`. */
  function SetFifoThreshold(fcr: Reg, threshold: Reg): (r: Reg)
    ensures Agree(r, threshold, 3)
    ensures Agree(r, fcr | threshold, !3)
  {
    Merge(fcr, 3, threshold)
  }

  /**
   * `dma_fifo_status`: the FS field, left in place at bits 3..5. The header's
   * constants for the three "below n/4" levels are written unshifted (0, 1,
   * 2, 3 rather than n << 3), so only "below 1/4", full and empty can ever
   * compare equal to what this returns.
   */
  function FifoStatus(fcr: Reg): (s: Reg)
    ensures s & !0x38 == 0
    ensures Agree(s, fcr, 0x38)
  {
    fcr & 0x38
  }

  /** The header's "at least 1/4, below 2/4 full" code as written. */
  const FsLt2_4AsWritten: Reg := 1

  /** No FIFO control register value reports the as-written "below 2/4" code. */
  lemma FifoStatusAsWrittenUnreachable(fcr: Reg)
    ensures FifoStatus(fcr) != FsLt2_4AsWritten
    ensures FifoStatus(fcr) != 2 && FifoStatus(fcr) != 3
  {
  }

  /** The FS codes placed where the field lies: level `n` is `n << 3`. */
  function FsCode(n: Reg): (c: Reg)
    requires n <= 7
    ensures c & !0x38 == 0 && c >> 3 == n
  {
    n << 3
  }

  /** Every value the status read returns is the placed code of its level. */
  lemma FifoStatusIsPlacedCode(fcr: Reg)
    ensures FifoStatus(fcr) == FsCode((fcr >> 3) & 7)
  {
  }
}
