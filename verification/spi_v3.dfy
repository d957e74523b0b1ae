/**
 * Register arithmetic of the SPI driver for the third SPI design (the
 * STM32H7 family's), whose configuration lives in CFG1 and CFG2.
 *
 * The SPI header of this design is not part of this model; the bit
 * positions follow the STM32H7 reference manual (RM0433):
 * CR1: SPE 0, CSTART 9, SSI 12. CR2: TSIZE 0..15, TSER 16..31.
 * CFG1: DSIZE 0..4, FTHLV 5..8, RXDMAEN 14, TXDMAEN 15, CRCSIZE 16..20,
 * CRCEN 22, MBR 28..30 (bit 31 reserved).
 * CFG2: MSSI 0..3, COMM 17..18, MASTER 22, LSBFRST 23, CPHA 24, CPOL 25,
 * SSM 26, SSOE 29, AFCNTR 31.
 * IER: RXPIE 0, TXPIE 1, CRCEIE 7, TIFREIE 8. SR: EOT 3. IFCR: EOTC 3.
 */
module SpiV3 {
  import opened Bits

  const SPE: Reg := 0x1
  const CSTART: Reg := 0x200
  const TSIZE: Reg := 0xFFFF
  const DSIZE: Reg := 0x1F
  const FTHLV: Reg := 0x1E0
  const CRCSIZE: Reg := 0x1F_0000
  const MBR: Reg := 0x7000_0000
  const MSSI: Reg := 0xF
  const COMM: Reg := 0x6_0000
  const CPHA: Reg := 0x100_0000
  const CPOL: Reg := 0x200_0000
  const SSM: Reg := 0x400_0000
  const SSOE: Reg := 0x2000_0000
  const AFCNTR: Reg := 0x8000_0000
  const ERROR_IRQS: Reg := 0x180
  const EOT: Reg := 0x8

  /** The registers of one SPI peripheral the driver writes. */
  datatype Spi = Spi(cr1: Reg, cr2: Reg, cfg1: Reg, cfg2: Reg, ier: Reg)

  /*
   * ---------------- Single-bit controls ----------------
   */

  datatype RegName = CR1 | CFG1 | CFG2 | IER

  /**
   * Every control the driver sets or clears with one `|=` or `&= ~` of a
   * single bit: the CRC and DMA enables, master mode, clock polarity and
   * phase, frame order, the slave-select output, the internal slave
   * select, and the TXP and RXP interrupts.
   */
  datatype Control =
    | CrcEnable | TxDma | RxDma
    | Master | ClockPolarity | ClockPhase | LsbFirst | SsOutput
    | InternalSlaveSelect | TxInterrupt | RxInterrupt

  function RegOf(c: Control): RegName
  {
    match c
    case CrcEnable => CFG1
    case TxDma => CFG1
    case RxDma => CFG1
    case InternalSlaveSelect => CR1
    case TxInterrupt => IER
    case RxInterrupt => IER
    case _ => CFG2
  }

  function BitOf(c: Control): (m: Reg)
    ensures m != 0
  {
    match c
    case CrcEnable => 0x40_0000
    case TxDma => 0x8000
    case RxDma => 0x4000
    case Master => 0x40_0000
    case ClockPolarity => CPOL
    case ClockPhase => CPHA
    case LsbFirst => 0x80_0000
    case SsOutput => SSOE
    case InternalSlaveSelect => 0x1000
    case TxInterrupt => 0x2
    case RxInterrupt => 0x1
  }

  /** The control is on in its register's value `r`. */
  predicate IsOn(r: Reg, c: Control)
  {
    r & BitOf(c) != 0
  }

  /**
   * The single-bit setters (`spi_enable_crc`, `spi_enable_tx_dma`,
   * `spi_enable_rx_dma`, `spi_set_master_mode`, `spi_set_clock_polarity_1`,
   * `spi_set_clock_phase_1`, `spi_send_lsb_first`, `spi_enable_ss_output`,
   * `spi_set_nss_high`, the TXP/RXP interrupt enables) and their
   * counterparts, on the control's register `r`: the control's bit becomes
   * `on` and no other bit changes.
   */
  function SetControl(r: Reg, c: Control, on: bool): (s: Reg)
    ensures IsOn(s, c) == on
    ensures Agree(s, r, !BitOf(c))
  {
    Assign(r, BitOf(c), on)
  }

  /**
   * Enable and disable undo each other: enabling a control that was off and
   * disabling it again, or disabling one that was on and enabling it again,
   * restores the register.
   */
  lemma SetControlUndo(r: Reg, c: Control)
    ensures !IsOn(r, c) ==> SetControl(SetControl(r, c, true), c, false) == r
    ensures IsOn(r, c) ==> SetControl(SetControl(r, c, false), c, true) == r
  {
    AssignUndo(r, BitOf(c));
  }

  lemma AssignUndo(r: Reg, m: Reg)
    ensures r & m == 0 ==> Assign(Assign(r, m, true), m, false) == r
    ensures r & m == m ==> Assign(Assign(r, m, false), m, true) == r
  {
  }

  /**
   * `spi_enable_software_slave_management` sets SSM and SSOE; the disabling
   * counterpart clears SSM only.
   */
  function SoftwareSlaveManagement(cfg2: Reg, on: bool): (r: Reg)
    ensures (r & SSM != 0) == on
    ensures on ==> r & SSOE != 0 && Agree(r, cfg2, !(SSM | SSOE))
    ensures !on ==> Agree(r, cfg2, !SSM)
  {
    if on then Set(Set(cfg2, SSM), SSOE) else Clear(cfg2, SSM)
  }

  /** `spi_disable`: SPE cleared, every other bit of CR1 kept. */
  function Disable(cr1: Reg): (r: Reg)
    ensures r & SPE == 0
    ensures Agree(r, cr1, !SPE)
  {
    Clear(cr1, SPE)
  }

  /*
   * ---------------- Fields ----------------
   */

  /** `spi_set_baudrate_prescaler`: a prescaler above 7 is ignored; otherwise MBR takes it. */
  function SetBaudratePrescaler(cfg1: Reg, baudrate: U8): (r: Reg)
    ensures baudrate > 7 ==> r == cfg1
    ensures baudrate <= 7 ==> (r & MBR) >> 28 == baudrate && Agree(r, cfg1, !MBR)
  {
    if baudrate > 7 then cfg1 else Replace(cfg1, MBR, (baudrate as Reg) << 28)
  }

  /** `enum` of the COMM field: the four communication modes, by code. */
  datatype Comm = FullDuplex | SimplexTx | SimplexRx | HalfDuplex

  function CommCode(c: Comm): (v: Reg)
    ensures v <= 3
  {
    match c
    case FullDuplex => 0
    case SimplexTx => 1
    case SimplexRx => 2
    case HalfDuplex => 3
  }

  /** The communication mode COMM holds. */
  function CommOf(cfg2: Reg): Comm
  {
    var v := (cfg2 & COMM) >> 17;
    if v == 0 then FullDuplex else if v == 1 then SimplexTx else if v == 2 then SimplexRx else HalfDuplex
  }

  /** Replace COMM with a mode's code. */
  function SetComm(cfg2: Reg, c: Comm): (r: Reg)
    ensures CommOf(r) == c
    ensures Agree(r, cfg2, !COMM)
  {
    Replace(cfg2, COMM, CommCode(c) << 17)
  }

  /** `spi_set_full_duplex_mode`. */
  function SetFullDuplexMode(cfg2: Reg): (r: Reg)
    ensures CommOf(r) == FullDuplex && Agree(r, cfg2, !COMM)
  {
    SetComm(cfg2, FullDuplex)
  }

  /** `spi_set_receive_only_mode`: simplex, receiving. */
  function SetReceiveOnlyMode(cfg2: Reg): (r: Reg)
    ensures CommOf(r) == SimplexRx && Agree(r, cfg2, !COMM)
  {
    SetComm(cfg2, SimplexRx)
  }

  /** `spi_set_bidirectional_receive_only_mode`: half duplex. */
  function SetBidirectionalReceiveOnlyMode(cfg2: Reg): (r: Reg)
    ensures CommOf(r) == HalfDuplex && Agree(r, cfg2, !COMM)
  {
    SetComm(cfg2, HalfDuplex)
  }

  /** `spi_set_bidirectional_transmit_only_mode`: half duplex as well. */
  function SetBidirectionalTransmitOnlyMode(cfg2: Reg): (r: Reg)
    ensures CommOf(r) == HalfDuplex && Agree(r, cfg2, !COMM)
  {
    SetComm(cfg2, HalfDuplex)
  }

  /**
   * The two bidirectional setters write the same register: the direction of
   * a half-duplex transfer is not chosen by either of them.
   */
  lemma BidirectionalModesAgree(cfg2: Reg)
    ensures SetBidirectionalReceiveOnlyMode(cfg2) == SetBidirectionalTransmitOnlyMode(cfg2)
  {
  }

  /** Setting the mode twice is setting it once, with the last mode. */
  lemma SetCommLastWins(cfg2: Reg, a: Comm, b: Comm)
    ensures SetComm(SetComm(cfg2, a), b) == SetComm(cfg2, b)
  {
    assert (CommCode(a) << 17) & !COMM == 0;
    assert (CommCode(b) << 17) & !COMM == 0;
  }

  /**
   * What `spi_set_transfer_size` does: it clears a pending end-of-transfer
   * flag through IFCR (only when SR shows one), replaces TSIZE and starts
   * the transfer.
   */
  datatype TransferStart = TransferStart(clearEot: bool, cr2: Reg, cr1: Reg)

  function SetTransferSize(sr: Reg, cr1: Reg, cr2: Reg, size: U16): (t: TransferStart)
    ensures t.clearEot <==> sr & EOT != 0
    ensures t.cr2 & TSIZE == size && Agree(t.cr2, cr2, !TSIZE)
    ensures t.cr1 & CSTART != 0 && Agree(t.cr1, cr1, !CSTART)
  {
    TransferStart(sr & EOT != 0, Replace(cr2, TSIZE, size), Set(cr1, CSTART))
  }

  /**
   * `spi_set_data_size`: DSIZE cleared and the size or-ed in unshifted and
   * unmasked, so a size above 31 spills into the bits above DSIZE.
   */
  function SetDataSize(cfg1: Reg, size: U16): (r: Reg)
    ensures Agree(r, size, DSIZE)
    ensures size <= 0x1F ==> r & DSIZE == size && Agree(r, cfg1, !DSIZE)
    ensures Agree(r, cfg1, !(DSIZE | size))
  {
    Merge(cfg1, DSIZE, size)
  }

  /** `spi_set_crcl_8bit` (`sixteen` false) and `spi_set_crcl_16bit`: CRCSIZE holds the length less one. */
  function SetCrcLength(cfg1: Reg, sixteen: bool): (r: Reg)
    ensures (r & CRCSIZE) >> 16 == if sixteen then 15 else 7
    ensures Agree(r, cfg1, !CRCSIZE)
  {
    Replace(cfg1, CRCSIZE, (if sixteen then 15 else 7) << 16)
  }

  /**
   * `spi_fifo_reception_threshold_8bit` (`sixteen` false) and
   * `spi_fifo_reception_threshold_16bit`: FTHLV holds 0 or 1.
   */
  function SetFifoThreshold(cfg1: Reg, sixteen: bool): (r: Reg)
    ensures (r & FTHLV) >> 5 == if sixteen then 1 else 0
    ensures Agree(r, cfg1, !FTHLV)
  {
    Replace(cfg1, FTHLV, if sixteen then 0x20 else 0)
  }

  /*
   * ---------------- Standard mode ----------------
   */

  /**
   * `spi_set_standard_mode` as written: a mode above 3 is ignored;
   * otherwise CPOL and CPHA are cleared and the mode number is or-ed in at
   * bit 0, which is MSSI here, not CPOL and CPHA.
   */
  function SetStandardModeAsWritten(cfg2: Reg, mode: U8): (r: Reg)
    ensures mode > 3 ==> r == cfg2
    ensures mode <= 3 ==> r & (CPOL | CPHA) == 0
    ensures mode <= 3 ==> r & 3 == (cfg2 & 3) | mode
    ensures mode <= 3 ==> Agree(r, cfg2, !(CPOL | CPHA | 3))
  {
    if mode > 3 then cfg2 else Clear(cfg2, CPOL | CPHA) | mode
  }

  /** Asking for mode 3 leaves both clock bits clear and sets MSSI to 3. */
  lemma SetStandardModeAsWrittenCounterexample()
    ensures SetStandardModeAsWritten(0, 3) == 3
    ensures SetStandardMode(0, 3) == CPOL | CPHA
  {
  }

  /**
   * `spi_set_standard_mode` as intended: CPOL is bit 1 of the mode and CPHA
   * bit 0, every other bit of CFG2 kept; a mode above 3 is ignored.
   */
  function SetStandardMode(cfg2: Reg, mode: U8): (r: Reg)
    ensures mode > 3 ==> r == cfg2
    ensures mode <= 3 ==> (r & CPOL != 0 <==> mode >= 2)
    ensures mode <= 3 ==> (r & CPHA != 0 <==> mode == 1 || mode == 3)
    ensures Agree(r, cfg2, !(CPOL | CPHA))
  {
    if mode > 3 then cfg2 else Replace(cfg2, CPOL | CPHA, (mode as Reg) << 24)
  }

  /** A standard mode is the polarity and phase setters applied together. */
  lemma StandardModeIsPolarityAndPhase(cfg2: Reg, mode: U8)
    requires mode <= 3
    ensures SetStandardMode(cfg2, mode) == SetControl(SetControl(cfg2, ClockPolarity, mode >= 2), ClockPhase, mode == 1 || mode == 3)
  {
  }

  /*
   * ---------------- Enable, error interrupts, master initialisation ----------------
   */

  /**
   * `spi_enable` as written: SPE set in CR1, and the CFG2 bit AFCNTR or-ed
   * into CFG1, where bit 31 is reserved.
   */
  function EnableAsWritten(s: Spi): (t: Spi)
    ensures t == s.(cr1 := t.cr1, cfg1 := t.cfg1)
    ensures t.cr1 & SPE != 0 && Agree(t.cr1, s.cr1, !SPE)
    ensures t.cfg1 & AFCNTR != 0 && Agree(t.cfg1, s.cfg1, !AFCNTR)
  {
    s.(cr1 := Set(s.cr1, SPE), cfg1 := Set(s.cfg1, AFCNTR))
  }

  /** After enabling, the pins are still not claimed by the peripheral. */
  lemma EnableAsWrittenCounterexample()
    ensures EnableAsWritten(Spi(0, 0, 0, 0, 0)).cfg2 & AFCNTR == 0
    ensures Enable(Spi(0, 0, 0, 0, 0)).cfg2 & AFCNTR != 0
  {
  }

  /** `spi_enable` as intended: SPE set in CR1 and AFCNTR in CFG2. */
  function Enable(s: Spi): (t: Spi)
    ensures t == s.(cr1 := t.cr1, cfg2 := t.cfg2)
    ensures t.cr1 & SPE != 0 && Agree(t.cr1, s.cr1, !SPE)
    ensures t.cfg2 & AFCNTR != 0 && Agree(t.cfg2, s.cfg2, !AFCNTR)
  {
    s.(cr1 := Set(s.cr1, SPE), cfg2 := Set(s.cfg2, AFCNTR))
  }

  /** Disabling an enabled peripheral leaves SPE clear and CR1 otherwise as before. */
  lemma EnableThenDisable(s: Spi)
    ensures Disable(Enable(s).cr1) == Clear(s.cr1, SPE)
    ensures s.cr1 & SPE == 0 ==> Disable(Enable(s).cr1) == s.cr1
  {
  }

  /**
   * `spi_enable_error_interrupt` / `spi_disable_error_interrupt` as
   * written: the IER bits TIFREIE and CRCEIE are set in or cleared from
   * CR2, where bits 7 and 8 belong to TSIZE.
   */
  function ErrorInterruptAsWritten(s: Spi, on: bool): (t: Spi)
    ensures t == s.(cr2 := t.cr2)
    ensures Agree(t.cr2, if on then ERROR_IRQS else 0, ERROR_IRQS) && Agree(t.cr2, s.cr2, !ERROR_IRQS)
  {
    s.(cr2 := Assign(s.cr2, ERROR_IRQS, on))
  }

  /** Enabling the error interrupts turns a 16-frame transfer into a 400-frame one. */
  lemma ErrorInterruptAsWrittenCounterexample()
    ensures ErrorInterruptAsWritten(Spi(0, 16, 0, 0, 0), true).cr2 & TSIZE == 400
    ensures ErrorInterrupt(Spi(0, 16, 0, 0, 0), true).cr2 & TSIZE == 16
  {
  }

  /** The error interrupts as intended: TIFREIE and CRCEIE set in or cleared from IER. */
  function ErrorInterrupt(s: Spi, on: bool): (t: Spi)
    ensures t == s.(ier := t.ier)
    ensures Agree(t.ier, if on then ERROR_IRQS else 0, ERROR_IRQS) && Agree(t.ier, s.ier, !ERROR_IRQS)
  {
    s.(ier := Assign(s.ier, ERROR_IRQS, on))
  }

  /** The CFG2 updates of `spi_init_master`, in the order the driver makes them. */
  function MasterSteps(cfg2: Reg, cpol: bool, cpha: bool, lsbFirst: bool): Reg
  {
    var master := Set(cfg2, BitOf(Master));
    var clock := Assign(Assign(master, CPOL, cpol), CPHA, cpha);
    Set(Assign(clock, BitOf(LsbFirst), lsbFirst), SSOE)
  }

  lemma MasterStepsBits(cfg2: Reg, cpol: bool, cpha: bool, lsbFirst: bool)
    ensures var r := MasterSteps(cfg2, cpol, cpha, lsbFirst);
      IsOn(r, Master) && IsOn(r, SsOutput) && IsOn(r, ClockPolarity) == cpol
  {
  }

  lemma MasterStepsOrder(cfg2: Reg, cpol: bool, cpha: bool, lsbFirst: bool)
    ensures var r := MasterSteps(cfg2, cpol, cpha, lsbFirst);
      IsOn(r, ClockPhase) == cpha && IsOn(r, LsbFirst) == lsbFirst
  {
  }

  lemma MasterStepsKeep(cfg2: Reg, cpol: bool, cpha: bool, lsbFirst: bool)
    ensures Agree(MasterSteps(cfg2, cpol, cpha, lsbFirst), cfg2, !0x23C0_0000)
  {
  }

  /**
   * The CFG2 settings `spi_init_master` makes: master, the given clock
   * polarity, phase and frame order, and the slave-select output; no other
   * CFG2 bit changes.
   */
  function MasterCfg2(cfg2: Reg, cpol: bool, cpha: bool, lsbFirst: bool): (r: Reg)
    ensures IsOn(r, Master) && IsOn(r, SsOutput)
    ensures IsOn(r, ClockPolarity) == cpol && IsOn(r, ClockPhase) == cpha && IsOn(r, LsbFirst) == lsbFirst
    ensures Agree(r, cfg2, !0x23C0_0000)
  {
    MasterStepsBits(cfg2, cpol, cpha, lsbFirst);
    MasterStepsOrder(cfg2, cpol, cpha, lsbFirst);
    MasterStepsKeep(cfg2, cpol, cpha, lsbFirst);
    MasterSteps(cfg2, cpol, cpha, lsbFirst)
  }

  /**
   * `spi_init_master` as written: CFG1 is overwritten with the truth value
   * of `br < 7`, so it ends up 1 or 0 whatever the baud rate and whatever
   * CFG1 held. CR1 ends with SPE set.
   */
  function InitMasterAsWritten(s: Spi, br: Reg, cpol: bool, cpha: bool, lsbFirst: bool): (t: Spi)
    ensures t.cfg1 == 1 <==> br < 7
    ensures t.cfg1 <= 1
    ensures t.cr1 & SPE != 0 && Agree(t.cr1, s.cr1, !SPE)
    ensures t.cfg2 == MasterCfg2(s.cfg2, cpol, cpha, lsbFirst)
    ensures t.cr2 == s.cr2 && t.ier == s.ier
  {
    Spi(Set(Clear(s.cr1, SPE), SPE), s.cr2, if br < 7 then 1 else 0, MasterCfg2(s.cfg2, cpol, cpha, lsbFirst), s.ier)
  }

  /**
   * From CFG1's reset value (8-bit CRC, 8-bit frames) and the divide-by-8
   * prescaler, the code as written leaves the clock undivided by 2 and the
   * frame size at 2 bits.
   */
  lemma InitMasterAsWrittenCounterexample()
    ensures InitMasterAsWritten(Spi(0, 0, 0x7_0007, 0, 0), 2, false, false, false).cfg1 == 1
    ensures InitMaster(Spi(0, 0, 0x7_0007, 0, 0), 2, false, false, false).cfg1 == 0x2007_0007
  {
  }

  /**
   * `spi_init_master` as intended: MBR takes the baud rate prescaler as
   * `spi_set_baudrate_prescaler` would set it, and no other CFG1 bit
   * changes.
   */
  function InitMaster(s: Spi, br: Reg, cpol: bool, cpha: bool, lsbFirst: bool): (t: Spi)
    ensures br <= 7 ==> (t.cfg1 & MBR) >> 28 == br
    ensures br <= 7 ==> Agree(t.cfg1, s.cfg1, !MBR)
    ensures br > 7 ==> t.cfg1 == s.cfg1
    ensures t.cr1 & SPE != 0 && Agree(t.cr1, s.cr1, !SPE)
    ensures t.cfg2 == MasterCfg2(s.cfg2, cpol, cpha, lsbFirst)
    ensures t.cr2 == s.cr2 && t.ier == s.ier
  {
    var cfg1 := if br <= 7 then SetBaudratePrescaler(s.cfg1, br) else s.cfg1;
    Spi(Set(Clear(s.cr1, SPE), SPE), s.cr2, cfg1, MasterCfg2(s.cfg2, cpol, cpha, lsbFirst), s.ier)
  }
}
