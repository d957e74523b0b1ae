/**
 * The FDCAN driver's message arithmetic: the data-length-code table of
 * CAN FD (ISO 11898-1:2015), transmit-buffer selection, the two header
 * words of a Tx buffer element and their decoding from an Rx FIFO element,
 * acceptance-filter words, and the interrupt-line and FIFO acknowledge
 * registers. Message RAM is given as the element words the driver reads or
 * writes; payload copying is not modelled.
 *
 * Word 0 of a buffer element: ESI bit 31, XTD bit 30 (the driver's header
 * says bit 20), RTR bit 29, identifier bits 0..28 (extended) or 18..28
 * (standard). Word 1: filter index bits 24..31, FDF bit 21, BRS bit 20, DLC
 * bits 16..19, Rx timestamp bits 0..15. Rx FIFO status: fill level bits
 * 0..3, get index bits 8..9. Interrupt line enable: INT0 bit 0, INT1 bit 1.
 */
module Fdcan {
  import opened Bits

  // Return codes (FDCAN_E_*).
  const E_OK: int := 0
  const E_INVALID: int := -3
  const E_BUSY: int := -4
  const E_NOTAVAIL: int := -5

  /** The payload lengths a CAN or CAN FD frame can carry. */
  predicate ValidLength(n: Reg)
  {
    n <= 8 || n == 12 || n == 16 || n == 20 || n == 24 || n == 32 || n == 48 || n == 64
  }

  /*
   * ---------------- Data length code ----------------
   */

  /**
   * Payload length of a DLC. The arithmetic is done on `uint32_t` and the
   * result returned as `uint8_t`, so codes beyond 26 wrap modulo 256.
   */
  function DlcToLength(dlc: Reg): (n: U8)
    ensures dlc <= 15 ==> ValidLength(n)
    ensures dlc <= 8 ==> n == dlc
    ensures 8 < dlc <= 15 ==> 8 < n
    ensures dlc == 15 ==> n == 64
  {
    (if dlc <= 8 then dlc
     else if dlc <= 12 then 8 + (dlc - 8) * 4
     else 16 + (dlc - 12) * 16) & 0xFF
  }

  /**
   * `fdcan_length_to_dlc` as written: lengths above 24 are only checked for
   * being a multiple of 16, so 80, 96, ..., 240 get codes 16..26, which do
   * not fit the 4-bit DLC field. 0xFF means "no code".
   */
  function LengthToDlcAsWritten(length: U8): (d: Reg)
    ensures d <= 26 || d == 0xFF
    ensures d != 0xFF ==> DlcToLength(d) == length
    ensures ValidLength(length) ==> d <= 15
  {
    if length <= 8 then length
    else if length <= 24 then
      if length % 4 != 0 then 0xFF else 8 + (length - 8) / 4
    else
      if length % 16 != 0 then 0xFF else 11 + length / 16
  }

  /**
   * The conversion as documented: 0xFF for every length that has no DLC,
   * including the ones above 64.
   */
  function LengthToDlc(length: U8): (d: Reg)
    ensures d != 0xFF <==> ValidLength(length)
    ensures d != 0xFF ==> d <= 15 && DlcToLength(d) == length
  {
    if length <= 8 then length
    else if length <= 24 then
      if length % 4 != 0 then 0xFF else 8 + (length - 8) / 4
    else if length <= 64 && length % 16 == 0 then 11 + length / 16
    else 0xFF
  }

  /** Every code 0..15 survives decoding and re-encoding. */
  lemma DlcRoundTrip(dlc: Reg)
    requires dlc <= 15
    ensures LengthToDlc(DlcToLength(dlc)) == dlc
  {
  }

  /** The two conversions differ only above the largest CAN FD payload. */
  lemma LengthToDlcAgreesUpTo64(length: U8)
    requires length <= 64
    ensures LengthToDlc(length) == LengthToDlcAsWritten(length)
  {
  }

  /**
   * 80 bytes is no CAN FD length, yet the written conversion gives code 16;
   * shifted into the DLC field that code lands on the BRS flag (bit 20) and
   * leaves a DLC of 0.
   */
  lemma LengthToDlcOversizeCounterexample()
    ensures !ValidLength(80)
    ensures LengthToDlcAsWritten(80) == 16
    ensures LengthToDlc(80) == 0xFF
    ensures (16 as bv32) << 16 == 0x0010_0000
  {
  }

  /*
   * ---------------- Transmit buffer ----------------
   */

  /** `fdcan_get_free_txbuf`: the first of the three Tx buffers with no pending request. */
  function GetFreeTxBuf(txbrp: Reg): (r: int)
    ensures r == E_BUSY <==> txbrp & 7 == 7
    ensures r != E_BUSY ==>
      0 <= r < 3 && !IsSet(txbrp, r) && forall j :: 0 <= j < r ==> IsSet(txbrp, j)
  {
    if txbrp & 1 == 0 then 0
    else if txbrp & 2 == 0 then 1
    else if txbrp & 4 == 0 then 2
    else E_BUSY
  }

  /** `fdcan_available_tx`: some Tx buffer is free. */
  function AvailableTx(txbrp: Reg): (b: bool)
    ensures b <==> exists i :: 0 <= i < 3 && !IsSet(txbrp, i)
  {
    GetFreeTxBuf(txbrp) != E_BUSY
  }

  /*
   * ---------------- Identifier word ----------------
   */

  datatype Ident = Ident(id: Reg, ext: bool)

  /** The identifier bits an element can carry: 29 for extended, 11 for standard. */
  function MaskedId(id: Reg, ext: bool): Reg
  {
    if ext then id & 0x1FFF_FFFF else id & 0x7FF
  }

  /**
   * Word 0 as `fdcan_transmit` builds it: the header's extended flag (bit 20)
   * or'ed with the 29-bit identifier, or the 11-bit identifier at bit 18;
   * then the remote flag.
   */
  function PackIdAsWritten(id: Reg, ext: bool, rtr: bool): (w: Reg)
    ensures ext ==> w & 0x0010_0000 != 0
    ensures (w & 0x2000_0000 != 0) == rtr
  {
    (if ext then 0x0010_0000 | (id & 0x1FFF_FFFF) else (id & 0x7FF) << 18)
    | (if rtr then 0x2000_0000 else 0)
  }

  /** Identifier and type as `fdcan_receive` reads them, testing bit 20. */
  function UnpackIdAsWritten(w: Reg): (r: Ident)
    ensures r.ext <==> w & 0x0010_0000 != 0
  {
    if w & 0x0010_0000 == 0x0010_0000 then Ident(w & 0x1FFF_FFFF, true)
    else Ident((w >> 18) & 0x7FF, false)
  }

  /**
   * Standard identifier 4 has the bit that lands on bit 20 and comes back as
   * an extended identifier; extended identifier 1 comes back with bit 20 set.
   */
  lemma XtdAsWrittenCounterexample()
    ensures UnpackIdAsWritten(PackIdAsWritten(4, false, false)) == Ident(0x10_0000, true)
    ensures UnpackIdAsWritten(PackIdAsWritten(1, true, false)) == Ident(0x10_0001, true)
  {
  }

  /** Every standard identifier with bit 2 set is received as an extended one. */
  lemma XtdAsWrittenMisreadsStandard(id: Reg, rtr: bool)
    requires id & 4 != 0
    ensures UnpackIdAsWritten(PackIdAsWritten(id, false, rtr)).ext
  {
  }

  /** Word 0 of a Tx buffer element carrying a standard identifier. */
  function PackStdId(id: Reg, rtr: bool): (w: Reg)
    ensures w & 0x6000_0000 == (if rtr then 0x2000_0000 else 0)
    ensures Agree(w >> 18, id, 0x7FF)
  {
    ((id & 0x7FF) << 18) | (if rtr then 0x2000_0000 else 0)
  }

  /** Word 0 of a Tx buffer element carrying an extended identifier. */
  function PackExtId(id: Reg, rtr: bool): (w: Reg)
    ensures w & 0x6000_0000 == (if rtr then 0x6000_0000 else 0x4000_0000)
    ensures Agree(w, id, 0x1FFF_FFFF)
  {
    0x4000_0000 | (id & 0x1FFF_FFFF) | (if rtr then 0x2000_0000 else 0)
  }

  /** Word 0 of a Tx buffer element, with the extended flag at bit 30. */
  function PackId(id: Reg, ext: bool, rtr: bool): (w: Reg)
    ensures (w & 0x4000_0000 != 0) == ext
    ensures (w & 0x2000_0000 != 0) == rtr
  {
    if ext then PackExtId(id, rtr) else PackStdId(id, rtr)
  }

  /** Identifier and type of word 0 of an Rx FIFO element, testing bit 30. */
  function UnpackId(w: Reg): (r: Ident)
    ensures r.ext <==> w & 0x4000_0000 != 0
    ensures r.id == MaskedId(r.id, r.ext)
  {
    if w & 0x4000_0000 == 0x4000_0000 then Ident(w & 0x1FFF_FFFF, true)
    else Ident((w >> 18) & 0x7FF, false)
  }

  /** A standard identifier survives packing and unpacking. */
  lemma StdIdRoundTrip(id: Reg, rtr: bool)
    ensures UnpackId(PackStdId(id, rtr)) == Ident(id & 0x7FF, false)
  {
  }

  /** An extended identifier survives packing and unpacking. */
  lemma ExtIdRoundTrip(id: Reg, rtr: bool)
    ensures UnpackId(PackExtId(id, rtr)) == Ident(id & 0x1FFF_FFFF, true)
  {
  }

  /** Every identifier, standard or extended, survives packing and unpacking. */
  lemma {:induction false} IdRoundTrip(id: Reg, ext: bool, rtr: bool)
    ensures UnpackId(PackId(id, ext, rtr)) == Ident(MaskedId(id, ext), ext)
  {
    if ext {
      ExtIdRoundTrip(id, rtr);
    } else {
      StdIdRoundTrip(id, rtr);
    }
  }

  /*
   * ---------------- Transmit and receive ----------------
   */

  /** The two header words of a Tx buffer element. */
  datatype TxHeader = TxHeader(idFlags: Reg, fmtDlc: Reg)

  /** What a header describes: identifier, flags and payload length. */
  datatype FrameInfo = FrameInfo(id: Reg, ext: bool, rtr: bool, fdf: bool, brs: bool, length: U8)

  /** How the controller reads the header words of a Tx buffer element. */
  function ReadTxHeader(h: TxHeader): FrameInfo
  {
    var ident := UnpackId(h.idFlags);
    FrameInfo(ident.id, ident.ext, h.idFlags & 0x2000_0000 != 0,
              h.fmtDlc & 0x0020_0000 != 0, h.fmtDlc & 0x0010_0000 != 0,
              DlcToLength((h.fmtDlc >> 16) & 0xF))
  }

  /** Word 1 of a Tx buffer element: the DLC at bit 16 and the FDF and BRS flags. */
  function PackFmtDlc(dlc: Reg, fdf: bool, brs: bool): (w: Reg)
    requires dlc <= 15
    ensures (w >> 16) & 0xF == dlc
    ensures (w & 0x0020_0000 != 0) == fdf
    ensures (w & 0x0010_0000 != 0) == brs
  {
    (dlc << 16) | (if fdf then 0x0020_0000 else 0) | (if brs then 0x0010_0000 else 0)
  }

  /** The header words `fdcan_transmit` writes for a frame whose length has code `dlc`. */
  function BuildTxHeader(id: Reg, ext: bool, rtr: bool, fdf: bool, brs: bool, dlc: Reg): (h: TxHeader)
    requires dlc <= 15
    ensures ReadTxHeader(h) == FrameInfo(MaskedId(id, ext), ext, rtr, fdf, brs, DlcToLength(dlc))
  {
    IdRoundTrip(id, ext, rtr);
    TxHeader(PackId(id, ext, rtr), PackFmtDlc(dlc, fdf, brs))
  }

  datatype TxResult =
    | TxQueued(mailbox: nat, header: TxHeader, txbar: Reg)
    | TxError(code: int)
  {
    /** The integer `fdcan_transmit` returns. */
    function ReturnValue(): int
    {
      match this
      case TxQueued(m, _, _) => m
      case TxError(c) => c
    }
  }

  /**
   * `fdcan_transmit` on Tx buffer pending register `txbrp` and add-request
   * register `txbar`: no free buffer gives BUSY; a length without DLC gives
   * INVALID; otherwise the frame's header words go to the first free
   * buffer and that buffer's add-request bit is set.
   */
  function Transmit(txbrp: Reg, txbar: Reg, id: Reg, ext: bool, rtr: bool,
                    fdf: bool, brs: bool, length: U8): (r: TxResult)
    ensures r == TxError(E_BUSY) <==> !AvailableTx(txbrp)
    ensures r == TxError(E_INVALID) <==> AvailableTx(txbrp) && !ValidLength(length)
    ensures r.TxError? || r.ReturnValue() == GetFreeTxBuf(txbrp)
    ensures r.TxQueued? ==>
      && r.mailbox < 3
      && IsSet(r.txbar, r.mailbox)
      && Agree(r.txbar, txbar, !Bit(r.mailbox))
      && ReadTxHeader(r.header) == FrameInfo(MaskedId(id, ext), ext, rtr, fdf, brs, length)
  {
    var mailbox := GetFreeTxBuf(txbrp);
    if mailbox == E_BUSY then TxError(E_BUSY)
    else
      var dlc := LengthToDlc(length);
      if dlc == 0xFF then TxError(E_INVALID)
      else TxQueued(mailbox, BuildTxHeader(id, ext, rtr, fdf, brs, dlc), Set(txbar, Bit(mailbox)))
  }

  /** The two header words of an Rx FIFO element. */
  datatype RxElement = RxElement(idFlags: Reg, fmtDlcTs: Reg)

  datatype RxFrame = RxFrame(id: Reg, ext: bool, rtr: bool, fmi: Reg, length: U8, timestamp: Reg)

  datatype RxResult =
    | RxNotAvail
    | RxOk(frame: RxFrame, rxfia: Reg)

  /**
   * Number of frames waiting in the FIFO whose status register is `rxfis`:
   * F0FL[3:0], the width of the G4 family (H7 has a 7-bit field).
   */
  function FillLevel(rxfis: Reg): Reg
  {
    rxfis & 0xF
  }

  /**
   * Index of the oldest frame in the FIFO whose status register is `rxfis`:
   * F0GI[1:0], the width of the G4 family (H7 has a 6-bit field).
   */
  function GetIndex(rxfis: Reg): (i: Reg)
    ensures i < 4
  {
    (rxfis >> 8) & 0x3
  }

  /** `fdcan_available_rx`: the fill level is not zero. */
  function AvailableRx(rxfis: Reg): (b: bool)
    ensures b <==> rxfis & 1 != 0 || rxfis & 2 != 0 || rxfis & 4 != 0 || rxfis & 8 != 0
  {
    FillLevel(rxfis) != 0
  }

  /**
   * The frame described by an Rx element's header words: identifier and
   * type from the first word, filter index, length and timestamp from the
   * second.
   */
  function ReadRxElement(e: RxElement): (f: RxFrame)
    ensures f.id == MaskedId(f.id, f.ext)
    ensures Ident(f.id, f.ext) == UnpackId(e.idFlags)
    ensures f.rtr <==> e.idFlags & 0x2000_0000 != 0
    ensures f.fmi <= 0xFF && f.fmi == (e.fmtDlcTs >> 24) & 0xFF
    ensures f.length == DlcToLength((e.fmtDlcTs >> 16) & 0xF)
    ensures f.timestamp <= 0xFFFF && f.timestamp == e.fmtDlcTs & 0xFFFF
  {
    var ident := UnpackId(e.idFlags);
    RxFrame(ident.id, ident.ext, e.idFlags & 0x2000_0000 == 0x2000_0000,
            (e.fmtDlcTs >> 24) & 0xFF, DlcToLength((e.fmtDlcTs >> 16) & 0xF), e.fmtDlcTs & 0xFFFF)
  }

  /**
   * `fdcan_receive` on FIFO status `rxfis`, acknowledge register `rxfia`
   * and the FIFO's elements: nothing pending gives NOTAVAIL; otherwise the
   * oldest element is decoded and, when `release` is set, acknowledged.
   */
  function Receive(rxfis: Reg, rxfia: Reg, fifo: seq<RxElement>, release: bool): (r: RxResult)
    requires GetIndex(rxfis) as int < |fifo|
    ensures r.RxNotAvail? <==> !AvailableRx(rxfis)
    ensures r.RxOk? ==>
      var e := fifo[GetIndex(rxfis)];
      && r.frame.id == MaskedId(r.frame.id, r.frame.ext)
      && Ident(r.frame.id, r.frame.ext) == UnpackId(e.idFlags)
      && (r.frame.rtr <==> e.idFlags & 0x2000_0000 != 0)
      && r.frame.fmi == (e.fmtDlcTs >> 24) & 0xFF
      && r.frame.length == DlcToLength((e.fmtDlcTs >> 16) & 0xF)
      && r.frame.timestamp == e.fmtDlcTs & 0xFFFF
      && r.rxfia == (if release then ReleaseFifo(rxfis, rxfia) else rxfia)
  {
    if FillLevel(rxfis) == 0 then RxNotAvail
    else
      var frame := ReadRxElement(fifo[GetIndex(rxfis)]);
      RxOk(frame, if release then rxfia | GetIndex(rxfis) else rxfia)
  }

  /**
   * A queued frame whose header words arrive in an Rx element (the receive
   * side may add timestamp and filter bits outside the DLC field) is read
   * back with the identifier, type, remote flag and length it was sent with.
   */
  lemma TransmitReceiveRoundTrip(
      txbrp: Reg, txbar: Reg, id: Reg, ext: bool, rtr: bool, fdf: bool, brs: bool, length: U8,
      rxfis: Reg, rxfia: Reg, fifo: seq<RxElement>, release: bool)
    requires Transmit(txbrp, txbar, id, ext, rtr, fdf, brs, length).TxQueued?
    requires AvailableRx(rxfis) && GetIndex(rxfis) as int < |fifo|
    requires fifo[GetIndex(rxfis)].idFlags == Transmit(txbrp, txbar, id, ext, rtr, fdf, brs, length).header.idFlags
    requires (fifo[GetIndex(rxfis)].fmtDlcTs ^ Transmit(txbrp, txbar, id, ext, rtr, fdf, brs, length).header.fmtDlc)
             & 0xF_0000 == 0
    ensures var r := Receive(rxfis, rxfia, fifo, release);
      r.RxOk? && r.frame.id == MaskedId(id, ext) && r.frame.ext == ext
      && r.frame.rtr == rtr && r.frame.length == length
  {
  }

  /*
   * ---------------- FIFO release ----------------
   */

  /**
   * `fdcan_release_fifo` as written: the get index and fill level are masked
   * with the fields' shift constants (8 and 0) instead of their masks, so
   * the fill level always reads 0 and nothing is ever acknowledged.
   */
  function ReleaseFifoAsWritten(rxfis: Reg, rxfia: Reg): (a: Reg)
    ensures a == rxfia
  {
    var getIndex := (rxfis >> 8) & 8;
    var pending := rxfis & 0;
    if pending != 0 then rxfia | getIndex else rxfia
  }

  /** A FIFO holding one frame at get index 1 is not released by the written code. */
  lemma ReleaseFifoCounterexample()
    ensures AvailableRx(0x101) && GetIndex(0x101) == 1
    ensures ReleaseFifoAsWritten(0x101, 0) == 0
    ensures ReleaseFifo(0x101, 0) == 1
  {
  }

  /** The release as documented: acknowledge the oldest frame if there is one. */
  function ReleaseFifo(rxfis: Reg, rxfia: Reg): (a: Reg)
    ensures Agree(a, rxfia, !3)
    ensures AvailableRx(rxfis) ==> a & 3 == (rxfia & 3) | GetIndex(rxfis)
    ensures !AvailableRx(rxfis) ==> a & 3 == rxfia & 3
  {
    rxfia | (if FillLevel(rxfis) != 0 then GetIndex(rxfis) else 0)
  }

  /*
   * ---------------- Acceptance filters ----------------
   */

  /**
   * `fdcan_set_std_filter`: filter type at bit 30, action at bit 27, the two
   * identifiers cut to 11 bits at bits 16 and 0. Type and action are taken
   * from their enumerations, which is all the driver relies on.
   */
  function StdFilter(listMode: Reg, id1: Reg, id2: Reg, action: Reg): (w: Reg)
    requires listMode <= 3 && action <= 7
    ensures w >> 30 == listMode
    ensures (w >> 27) & 7 == action
    ensures ((w >> 16) ^ id1) & 0x7FF == 0
    ensures (w ^ id2) & 0x7FF == 0
    ensures w & 0xF800 == 0
  {
    (listMode << 30) | (action << 27) | ((id1 & 0x7FF) << 16) | (id2 & 0x7FF)
  }

  datatype ExtFilterWords = ExtFilterWords(confId1: Reg, typeId2: Reg)

  /**
   * `fdcan_set_ext_filter`: action at bit 29 next to the first identifier,
   * filter type at bit 30 next to the second, both identifiers cut to 29 bits.
   */
  function ExtFilter(listMode: Reg, id1: Reg, id2: Reg, action: Reg): (f: ExtFilterWords)
    requires listMode <= 3 && action <= 7
    ensures f.confId1 >> 29 == action
    ensures (f.confId1 ^ id1) & 0x1FFF_FFFF == 0
    ensures f.typeId2 >> 30 == listMode
    ensures (f.typeId2 ^ id2) & 0x1FFF_FFFF == 0
    ensures f.typeId2 & 0x2000_0000 == 0
  {
    ExtFilterWords((action << 29) | (id1 & 0x1FFF_FFFF), (listMode << 30) | (id2 & 0x1FFF_FFFF))
  }

  /*
   * ---------------- Interrupt lines ----------------
   */

  /** `fdcan_enable_irq`: only the requested line-enable bits are set. */
  function EnableIrq(ile: Reg, irq: Reg): (r: Reg)
    ensures Agree(r, ile, !(irq & 3))
    ensures r & irq & 3 == irq & 3
  {
    ile | (irq & (1 | 2))
  }

  /** `fdcan_disable_irq`: only the requested line-enable bits are cleared. */
  function DisableIrq(ile: Reg, irq: Reg): (r: Reg)
    ensures Agree(r, ile, !(irq & 3))
    ensures r & irq & 3 == 0
  {
    ile & !(irq & (1 | 2))
  }

  /** Enabling and then disabling lines that were off restores the register. */
  lemma EnableDisableIrq(ile: Reg, irq: Reg)
    requires ile & irq & 3 == 0
    ensures DisableIrq(EnableIrq(ile, irq), irq) == ile
  {
  }
}
