/**
 * The host-channel logic of the USB host backend for the DesignWare OTG
 * core: packet counts, the frame window in which a waiting channel is
 * re-enabled, channel allocation, the control-transfer stages, bulk and
 * interrupt submission, cancellation, and the per-channel interrupt
 * handler, as a state machine over an immutable channel record.
 *
 * HCCHAR: CHENA 31, CHDIS 30, ODDFRM 29, DAD 22..28, MCNT 20..21, EPTYP
 * 18..19, LSDEV 17, EPDIR 15, EPNUM 11..14, MPSIZ 0..10. HCTSIZ: DPID
 * 29..30, PKTCNT 19..28, XFRSIZ 0..18. HCINT and HCINTMSK: XFRC 0, CHH 1,
 * STALL 3, NAK 4, ACK 5, TXERR 7, BBERR 8, FRMOR 9, DTERR 10.
 *
 * The current frame number is the FRNUM field of HFNUM, which the core
 * counts from 0 to 0x3FFF and then wraps; it is a parameter here.
 */
module UsbhDwcOtg {
  import opened Bits

  datatype Option<T> = None | Some(value: T)

  /** A frame number: the core counts frames modulo 0x4000. */
  type Frame = x: int | 0 <= x < 0x4000

  /** A `uint16_t` count. */
  type Count16 = x: int | 0 <= x <= 0xFFFF

  const CHENA: Reg := 0x8000_0000
  const CHDIS: Reg := 0x4000_0000
  const ODDFRM: Reg := 0x2000_0000
  const EPDIR_IN: Reg := 0x8000
  const LSDEV: Reg := 0x2_0000
  const MCNT_1: Reg := 0x10_0000
  const PKTCNT: Reg := 0x1FF8_0000
  const XFRSIZ: Reg := 0x7_FFFF
  const DPID_DATA0: Reg := 0
  const DPID_DATA1: Reg := 0x4000_0000
  const DPID_MDATA: Reg := 0x6000_0000

  const XFRC: Reg := 0x1
  const CHH: Reg := 0x2
  const STALL: Reg := 0x8
  const NAK: Reg := 0x10
  const ACK: Reg := 0x20
  const TXERR: Reg := 0x80
  const BBERR: Reg := 0x100
  const FRMOR: Reg := 0x200
  const DTERR: Reg := 0x400

  /*
   * ---------------- Arithmetic helpers ----------------
   */

  /**
   * `NEXT_MULT_OF_4`, for the 16-bit endpoint sizes it is meant for: a value
   * already a multiple of 4 is kept; otherwise its low two bits are filled
   * and one added. The result is the least multiple of 4 not below the value.
   */
  function NextMultOf4(v: U16): (r: Reg)
    ensures r & 3 == 0 && v <= r && r - v <= 3
  {
    if v & 3 != 0 then RoundUp(v); (v | 3) + 1 else v
  }

  lemma RoundUp(v: U16)
    requires v & 3 != 0
    ensures ((v | 3) + 1) & 3 == 0
    ensures v < (v | 3) + 1 <= v + 3
  {
  }

  lemma NextMultOf4Examples()
    ensures NextMultOf4(0) == 0 && NextMultOf4(1) == 4 && NextMultOf4(3) == 4
    ensures NextMultOf4(4) == 4 && NextMultOf4(6) == 8
  {
  }

  /**
   * `CALC_PKTCNT`: one packet for an empty transfer, otherwise the number of
   * `epSize` packets needed to hold `len` bytes, the last one possibly short.
   */
  function PacketCount(len: Count16, epSize: Count16): (n: Count16)
    requires len > 0 ==> epSize > 0
    ensures len == 0 ==> n == 1
    ensures len > 0 ==> (n - 1) * epSize < len <= n * epSize
  {
    if len == 0 then 1 else (len + epSize - 1) / epSize
  }

  /**
   * `CALC_PKTCNT` divides by the packet size only for a non-empty
   * transfer, so only then must the size be non-zero.
   */
  predicate Packetable(t: Transfer) { t.length > 0 ==> t.epSize > 0 }

  /** Starting a transfer counts packets for bulk and interrupt endpoints only. */
  predicate StartsPacketable(t: Transfer)
  {
    t.epType == Bulk || t.epType == Interrupt ==> Packetable(t)
  }

  /** Completing a stage counts packets only when SETUP leads to a data stage. */
  predicate CompletesPacketable(c: Chan, t: Transfer)
  {
    c.state == CtrlSetup && t.wLength != 0 ==> Packetable(t)
  }

  lemma MulAtLeast(k: int, e: int)
    requires k >= 1 && e > 0
    ensures k * e >= e
  {
    assert k * e == (k - 1) * e + e;
  }

  /** Euclidean division has one quotient. */
  lemma DivUnique(a: int, e: int, q: int, r: int)
    requires e > 0 && a == q * e + r && 0 <= r < e
    ensures a / e == q
  {
    var q', r' := a / e, a % e;
    assert (q - q') * e == r' - r by {
      assert q' * e + r' == a;
      assert (q - q') * e == q * e - q' * e;
    }
    if q > q' {
      MulAtLeast(q - q', e);
    } else if q < q' {
      MulAtLeast(q' - q, e);
    }
  }

  /**
   * A non-empty transfer fills its last packet exactly when its length is a
   * multiple of the packet size; otherwise one more, short, packet is needed.
   */
  lemma {:induction false} PacketCountExact(len: Count16, epSize: Count16)
    requires len > 0 && epSize > 0
    ensures PacketCount(len, epSize) * epSize == len <==> len % epSize == 0
    ensures len % epSize == 0 ==> PacketCount(len, epSize) == len / epSize
    ensures len % epSize != 0 ==> PacketCount(len, epSize) == len / epSize + 1
  {
    var q, r := len / epSize, len % epSize;
    if r == 0 {
      DivUnique(len + epSize - 1, epSize, q, epSize - 1);
    } else {
      DivUnique(len + epSize - 1, epSize, q + 1, r - 1);
      assert (q + 1) * epSize == len + epSize - r;
    }
  }

  /*
   * ---------------- Channels ----------------
   */

  /** The channel states, in the driver's enumeration order. */
  datatype ChanState = Free | Cancelled | CtrlSetup | CtrlDataIn | CtrlDataOut | CtrlStatusIn | CtrlStatusOut | Callback

  datatype EpType = Control | Isochronous | Bulk | Interrupt

  predicate Periodic(e: EpType) { e == Interrupt || e == Isochronous }

  /**
   * What the backend reads of a transfer and of its device: the endpoint
   * type, address (bit 7 set for IN) and size, the length, the polling
   * interval, the ZERO_PACKET and NO_SHORT_PACKET flags, the setup packet's
   * direction bit and wLength, the device address and speed, and the
   * device's data toggle for this endpoint.
   */
  datatype Transfer = Transfer(
    epType: EpType, epAddr: U8, epSize: Count16, length: Count16, interval: Count16,
    zeroPacket: bool, noShortPacket: bool, requestIn: bool, wLength: Count16,
    address: U8, lowSpeed: bool, dtog: bool)

  /** An OUT endpoint has bit 7 of its address clear. */
  predicate OutEndpoint(t: Transfer) { t.epAddr & 0x80 == 0 }

  /**
   * A request block: its transfer and the backend tag (the channel it
   * occupies; `None` is INVALID_BACKEND_TAG).
   */
  datatype Urb = Urb(id: nat, transfer: Transfer, tag: Option<nat>)

  /** One host channel: the driver's bookkeeping and the channel's registers. */
  datatype Chan = Chan(
    state: ChanState, urb: Option<Urb>, needScheduling: bool, submitFrame: Frame,
    hcchar: Reg, hctsiz: Reg, hcintmsk: Reg, hcint: Reg)

  /**
   * The backend's invariant: a channel busy with a transfer, or waiting for
   * its frame, has a request block.
   */
  predicate Attached(c: Chan)
  {
    (c.needScheduling || c.state !in {Free, Cancelled}) ==> c.urb.Some?
  }

  /*
   * ---------------- Scheduling window ----------------
   */

  /** The first frame of the window: a frame early for periodic transfers. */
  function WindowLow(submit: Frame, periodic: bool): (low: Frame)
    ensures !periodic ==> low == submit
    ensures periodic ==> low == (submit - 1) % 0x4000
  {
    if !periodic then submit else if submit != 0 then submit - 1 else 0x3FFF
  }

  /** The last frame of the window, 0x1FFF frames after the submit frame. */
  function WindowHigh(submit: Frame): (high: Frame)
    ensures (high - submit) % 0x4000 == 0x1FFF
  {
    (submit + 0x1FFF) % 0x4000
  }

  /**
   * `schedule_channels`' test: the frame lies between low and high, where
   * the range wraps past 0x3FFF when high is not above low.
   */
  predicate InWindow(frame: Frame, low: Frame, high: Frame)
  {
    if low < high then low <= frame <= high else frame >= low || frame <= high
  }

  /**
   * The window is the 0x2000 frames starting at the submit frame, plus the
   * frame before it for periodic transfers.
   */
  lemma WindowByDistance(frame: Frame, submit: Frame, periodic: bool)
    ensures InWindow(frame, WindowLow(submit, periodic), WindowHigh(submit))
      <==> (frame - submit) % 0x4000 < 0x2000 || (periodic && frame == (submit - 1) % 0x4000)
  {
  }

  /** The submit frame itself always lies in the window. */
  lemma SubmitFrameInWindow(submit: Frame, periodic: bool)
    ensures InWindow(submit, WindowLow(submit, periodic), WindowHigh(submit))
  {
    WindowByDistance(submit, submit, periodic);
  }

  /** Frames half the counter away or further are outside the window. */
  lemma FarFrameOutsideWindow(frame: Frame, submit: Frame, periodic: bool)
    requires 0x2000 <= (frame - submit) % 0x4000 < 0x3FFF
    ensures !InWindow(frame, WindowLow(submit, periodic), WindowHigh(submit))
  {
    WindowByDistance(frame, submit, periodic);
  }

  /** A waiting channel's frame has come: the current frame is in its window. */
  predicate Due(c: Chan, frame: Frame)
    requires c.urb.Some?
  {
    InWindow(frame, WindowLow(c.submitFrame, Periodic(c.urb.value.transfer.epType)), WindowHigh(c.submitFrame))
  }

  /**
   * One channel's step of `schedule_channels`: a channel waiting for its
   * frame is enabled, and no longer waits, once the frame is in its window;
   * nothing else about the channel changes.
   */
  function ScheduleChannel(c: Chan, frame: Frame): (d: Chan)
    requires Attached(c)
    ensures d.needScheduling <==> c.needScheduling && !Due(c, frame)
    ensures c.needScheduling && Due(c, frame) ==> d.hcchar & CHENA != 0
    ensures Agree(d.hcchar, c.hcchar, !CHENA)
    ensures !(c.needScheduling && Due(c, frame)) ==> d.hcchar == c.hcchar
    ensures d.(needScheduling := c.needScheduling, hcchar := c.hcchar) == c
    ensures Attached(d)
  {
    if c.needScheduling && Due(c, frame) then c.(needScheduling := false, hcchar := Set(c.hcchar, CHENA))
    else c
  }

  /** `schedule_channels`: every channel takes its step, in turn. */
  method ScheduleChannels(chans: seq<Chan>, frame: Frame) returns (out: seq<Chan>)
    requires forall k :: 0 <= k < |chans| ==> Attached(chans[k])
    ensures |out| == |chans|
    ensures forall k :: 0 <= k < |chans| ==> out[k] == ScheduleChannel(chans[k], frame)
    ensures forall k :: 0 <= k < |chans| ==> Attached(out[k])
  {
    out := [];
    var i := 0;
    while i < |chans|
      invariant 0 <= i <= |chans| && |out| == i
      invariant forall k :: 0 <= k < i ==> out[k] == ScheduleChannel(chans[k], frame)
    {
      out := out + [ScheduleChannel(chans[i], frame)];
      i := i + 1;
    }
  }

  /*
   * ---------------- Allocation, submission, cancellation ----------------
   */

  /** `get_any_free_channel`: the lowest-numbered free channel, or -1 if none is free. */
  method FreeChannel(chans: seq<Chan>) returns (i: int)
    ensures -1 <= i < |chans|
    ensures i == -1 <==> forall k :: 0 <= k < |chans| ==> chans[k].state != Free
    ensures i >= 0 ==> chans[i].state == Free && forall k :: 0 <= k < i ==> chans[k].state != Free
  {
    i := 0;
    while i < |chans|
      invariant 0 <= i <= |chans|
      invariant forall k :: 0 <= k < i ==> chans[k].state != Free
    {
      if chans[i].state == Free {
        return;
      }
      i := i + 1;
    }
    i := -1;
  }

  /**
   * The HCCHAR word a stage writes: channel enabled, one transaction per
   * frame, the endpoint type, direction and parity of frame given, and the
   * device address, endpoint number and packet size from the transfer.
   */
  function Characteristics(t: Transfer, epType: EpType, dirIn: bool, oddFrame: bool): (r: Reg)
    ensures r & CHENA != 0 && r & CHDIS == 0
    ensures (r & EPDIR_IN != 0) == dirIn && (r & ODDFRM != 0) == oddFrame
    ensures (r & LSDEV != 0) == t.lowSpeed
    ensures (r & 0xC_0000) >> 18 == EpTypeCode(epType)
    ensures r & 0x30_0000 == MCNT_1
    ensures Agree(r, EndpointFields(t), 0x1FC0_7FFF)
  {
    var flags := ChannelFlags(epType, dirIn, oddFrame, t.lowSpeed);
    var fields := EndpointFields(t);
    AgreeOr(fields, flags, 0x1FC0_7FFF);
    AgreeOr(flags, fields, !0x1FC0_7FFF);
    var r := flags | fields;
    AgreeOn(r, flags, !0x1FC0_7FFF, CHENA);
    AgreeOn(r, flags, !0x1FC0_7FFF, CHDIS);
    AgreeOn(r, flags, !0x1FC0_7FFF, EPDIR_IN);
    AgreeOn(r, flags, !0x1FC0_7FFF, ODDFRM);
    AgreeOn(r, flags, !0x1FC0_7FFF, LSDEV);
    AgreeOn(r, flags, !0x1FC0_7FFF, 0xC_0000);
    AgreeOn(r, flags, !0x1FC0_7FFF, 0x30_0000);
    r
  }

  /** The HCCHAR bits outside the endpoint fields. */
  function ChannelFlags(epType: EpType, dirIn: bool, oddFrame: bool, lowSpeed: bool): (f: Reg)
    ensures f & 0x1FC0_7FFF == 0
    ensures f & CHENA != 0 && f & CHDIS == 0
    ensures (f & EPDIR_IN != 0) == dirIn && (f & ODDFRM != 0) == oddFrame
    ensures (f & LSDEV != 0) == lowSpeed
    ensures (f & 0xC_0000) >> 18 == EpTypeCode(epType)
    ensures f & 0x30_0000 == MCNT_1
  {
    CHENA | MCNT_1 | (EpTypeCode(epType) << 18) | (if oddFrame then ODDFRM else 0)
      | (if lowSpeed then LSDEV else 0) | (if dirIn then EPDIR_IN else 0)
  }

  /** The EPTYP code of an endpoint type. */
  function EpTypeCode(e: EpType): (v: Reg)
    ensures v <= 3
  {
    match e
    case Control => 0
    case Isochronous => 1
    case Bulk => 2
    case Interrupt => 3
  }

  /** The DAD, EPNUM and MPSIZ fields, each cut to its width. */
  function EndpointFields(t: Transfer): (r: Reg)
    ensures r & !0x1FC0_7FFF == 0
    ensures Field(r, 22, 0x7F) == t.address & 0x7F
    ensures Field(r, 11, 0xF) == t.epAddr & 0xF
    ensures r & 0x7FF == (t.epSize as Reg) & 0x7FF
  {
    (0x1FC0_0000 & (t.address << 22)) | (0x7800 & (t.epAddr << 11)) | (0x7FF & (t.epSize as Reg))
  }

  /**
   * The HCTSIZ word: a data PID, the packet count cut to the 10 bits of its
   * field, and the transfer size.
   */
  function TransferSize(pid: Reg, pktcnt: Reg, xfrsiz: Reg): (r: Reg)
    requires pid & !0x6000_0000 == 0 && xfrsiz <= XFRSIZ
    ensures r & 0x6000_0000 == pid
    ensures Field(r, 19, 0x3FF) == pktcnt & 0x3FF
    ensures r & XFRSIZ == xfrsiz
  {
    pid | (PKTCNT & (pktcnt << 19)) | xfrsiz
  }

  /** `control_setup_stage`: the 8-byte SETUP packet goes out with the MDATA PID. */
  function SetupStage(c: Chan, t: Transfer, frame: Frame): (d: Chan)
    ensures d.state == CtrlSetup && !d.needScheduling && d.submitFrame == frame && d.urb == c.urb
    ensures d.hcint & 0xFFF == 0 && d.hcintmsk == 0xFFF
    ensures d.hctsiz == TransferSize(DPID_MDATA, 1, 8)
    ensures d.hcchar == Characteristics(t, Control, false, false)
  {
    c.(state := CtrlSetup, needScheduling := false, submitFrame := frame, hcint := Clear(c.hcint, 0xFFF), hcintmsk := 0xFFF,
       hctsiz := TransferSize(DPID_MDATA, 1, 8), hcchar := Characteristics(t, Control, false, false))
  }

  /** A host-to-device request: the direction bit of bmRequestType is clear. */
  predicate HostToDevice(t: Transfer) { !t.requestIn }

  /**
   * `control_data_stage`: DATA1, the packets the length needs, and the
   * direction the request asks for; a host-to-device stage pushes its first
   * packet.
   */
  function DataStage(c: Chan, t: Transfer, frame: Frame): (d: Chan)
    requires Packetable(t)
    ensures d.state == (if HostToDevice(t) then CtrlDataOut else CtrlDataIn)
    ensures !d.needScheduling && d.submitFrame == frame && d.urb == c.urb
    ensures d.hctsiz == TransferSize(DPID_DATA1, PacketCount(t.length, t.epSize) as Reg, t.length as Reg)
    ensures d.hcchar == Characteristics(t, Control, !HostToDevice(t), false)
    ensures d.hcint == c.hcint && d.hcintmsk == c.hcintmsk
  {
    c.(state := if HostToDevice(t) then CtrlDataOut else CtrlDataIn, needScheduling := false, submitFrame := frame,
       hctsiz := TransferSize(DPID_DATA1, PacketCount(t.length, t.epSize) as Reg, t.length as Reg),
       hcchar := Characteristics(t, Control, !HostToDevice(t), false))
  }

  /**
   * `control_status_stage`: one empty DATA1 packet in the direction opposite
   * to the data stage: IN after a host-to-device request, OUT otherwise.
   */
  function StatusStage(c: Chan, t: Transfer, frame: Frame): (d: Chan)
    ensures d.state == (if HostToDevice(t) then CtrlStatusIn else CtrlStatusOut)
    ensures !d.needScheduling && d.submitFrame == frame && d.urb == c.urb
    ensures d.hctsiz == TransferSize(DPID_DATA1, 1, 0)
    ensures d.hcchar == Characteristics(t, Control, HostToDevice(t), false)
    ensures d.hcint == c.hcint && d.hcintmsk == c.hcintmsk
  {
    c.(state := if HostToDevice(t) then CtrlStatusIn else CtrlStatusOut, needScheduling := false, submitFrame := frame,
       hctsiz := TransferSize(DPID_DATA1, 1, 0), hcchar := Characteristics(t, Control, HostToDevice(t), false))
  }

  /**
   * The packet count of a bulk transfer: an OUT transfer of whole packets
   * with ZERO_PACKET set gets one more, empty, packet (the count is a
   * `uint16_t`).
   */
  function BulkPacketCount(t: Transfer): (n: Count16)
    requires Packetable(t)
    ensures n == PacketCount(t.length, t.epSize) || n == (PacketCount(t.length, t.epSize) + 1) % 0x10000
    ensures n != PacketCount(t.length, t.epSize) ==> OutEndpoint(t) && t.zeroPacket && t.length > 0
  {
    var p := PacketCount(t.length, t.epSize);
    if OutEndpoint(t) && t.length > 0 && t.zeroPacket && p * t.epSize == t.length then (p + 1) % 0x10000 else p
  }

  /**
   * A bulk transfer needs the packets its length needs, except that a
   * non-empty OUT transfer with ZERO_PACKET set gets one more exactly when
   * its length is a multiple of the packet size.
   */
  lemma {:induction false} BulkZeroLengthPacket(t: Transfer)
    requires Packetable(t)
    ensures !(OutEndpoint(t) && t.zeroPacket && 0 < t.length) ==> BulkPacketCount(t) == PacketCount(t.length, t.epSize)
    ensures OutEndpoint(t) && t.zeroPacket && 0 < t.length && t.length % t.epSize == 0 ==>
      BulkPacketCount(t) == (t.length / t.epSize + 1) % 0x10000
    ensures OutEndpoint(t) && t.zeroPacket && 0 < t.length && t.length % t.epSize != 0 ==>
      BulkPacketCount(t) == t.length / t.epSize + 1
  {
    if 0 < t.length {
      PacketCountExact(t.length, t.epSize);
    }
  }

  /** The data PID from the device's toggle for the endpoint. */
  function TogglePid(t: Transfer): (pid: Reg)
    ensures pid == DPID_DATA0 || pid == DPID_DATA1
    ensures pid == DPID_DATA1 <==> t.dtog
  {
    if t.dtog then DPID_DATA1 else DPID_DATA0
  }

  /**
   * `bulk_transfer`: the whole transfer in one go, the channel then waits
   * for completion; an OUT transfer pushes its first packet.
   */
  function BulkTransfer(c: Chan, t: Transfer, frame: Frame): (d: Chan)
    requires Packetable(t)
    ensures d.state == Callback && !d.needScheduling && d.submitFrame == frame && d.urb == c.urb
    ensures d.hcint & 0xFFF == 0 && d.hcintmsk == 0xFFF
    ensures d.hctsiz == TransferSize(TogglePid(t), BulkPacketCount(t) as Reg, t.length as Reg)
    ensures d.hcchar == Characteristics(t, Bulk, !OutEndpoint(t), false)
  {
    c.(state := Callback, needScheduling := false, submitFrame := frame, hcint := Clear(c.hcint, 0xFFF), hcintmsk := 0xFFF,
       hctsiz := TransferSize(TogglePid(t), BulkPacketCount(t) as Reg, t.length as Reg),
       hcchar := Characteristics(t, Bulk, !OutEndpoint(t), false))
  }

  /**
   * `interrupt_transfer`: as bulk, but first sent in the next frame, whose
   * parity goes into ODDFRM.
   */
  function InterruptTransfer(c: Chan, t: Transfer, frame: Frame): (d: Chan)
    requires Packetable(t)
    ensures d.state == Callback && !d.needScheduling && d.urb == c.urb
    ensures d.submitFrame == (frame + 1) % 0x4000
    ensures d.hcint & 0xFFF == 0 && d.hcintmsk == 0xFFF
    ensures d.hctsiz == TransferSize(TogglePid(t), PacketCount(t.length, t.epSize) as Reg, t.length as Reg)
    ensures d.hcchar == Characteristics(t, Interrupt, !OutEndpoint(t), d.submitFrame % 2 == 1)
  {
    var next := (frame + 1) % 0x4000;
    c.(state := Callback, needScheduling := false, submitFrame := next, hcint := Clear(c.hcint, 0xFFF), hcintmsk := 0xFFF,
       hctsiz := TransferSize(TogglePid(t), PacketCount(t.length, t.epSize) as Reg, t.length as Reg),
       hcchar := Characteristics(t, Interrupt, !OutEndpoint(t), next % 2 == 1))
  }

  /**
   * The stage a newly assigned channel starts in, by endpoint type; an
   * isochronous transfer is not started at all.
   */
  function StartTransfer(c: Chan, t: Transfer, frame: Frame): (d: Chan)
    requires StartsPacketable(t)
    ensures t.epType == Isochronous ==> d == c
    ensures t.epType == Control ==> d.state == CtrlSetup
    ensures t.epType == Bulk || t.epType == Interrupt ==> d.state == Callback
    ensures d.urb == c.urb && !d.needScheduling == (t.epType != Isochronous || !c.needScheduling)
  {
    match t.epType
    case Control => SetupStage(c, t, frame)
    case Bulk => BulkTransfer(c, t, frame)
    case Interrupt => InterruptTransfer(c, t, frame)
    case Isochronous => c
  }

  /**
   * `usbh_dwc_otg_transfer_submit`: with no free channel nothing happens;
   * otherwise the lowest free channel takes the request block, whose tag
   * becomes that channel, and the transfer starts.
   */
  method Submit(chans: seq<Chan>, urb: Urb, frame: Frame) returns (out: seq<Chan>, u: Urb)
    requires StartsPacketable(urb.transfer)
    requires forall k :: 0 <= k < |chans| ==> Attached(chans[k])
    ensures (forall k :: 0 <= k < |chans| ==> chans[k].state != Free) ==> out == chans && u == urb
    ensures (exists k :: 0 <= k < |chans| && chans[k].state == Free) ==>
      && u == urb.(tag := u.tag) && u.tag.Some?
      && var i := u.tag.value;
      && i < |chans| && chans[i].state == Free
      && (forall k :: 0 <= k < i ==> chans[k].state != Free)
      && out == chans[i := StartTransfer(chans[i].(urb := Some(u)), urb.transfer, frame)]
    ensures forall k :: 0 <= k < |out| ==> Attached(out[k])
  {
    var i := FreeChannel(chans);
    if i == -1 {
      return chans, urb;
    }
    u := urb.(tag := Some(i));
    out := chans[i := StartTransfer(chans[i].(urb := Some(u)), urb.transfer, frame)];
  }

  /**
   * `usbh_dwc_otg_transfer_cancel`: a request block with no channel is left
   * alone. Otherwise its tag is invalidated and its channel is cancelled:
   * no request block, not waiting, only the halt interrupt unmasked, all
   * flags cleared, and the channel asked to halt.
   */
  function Cancel(chans: seq<Chan>, urb: Urb): (r: (seq<Chan>, Urb))
    requires urb.tag.Some? ==> urb.tag.value < |chans|
    ensures urb.tag.None? ==> r == (chans, urb)
    ensures urb.tag.Some? ==>
      && r.1 == urb.(tag := None)
      && r.0 == chans[urb.tag.value := CancelledChannel(chans[urb.tag.value])]
  {
    if urb.tag.None? then (chans, urb)
    else (chans[urb.tag.value := CancelledChannel(chans[urb.tag.value])], urb.(tag := None))
  }

  /**
   * The channel `Cancel` leaves behind: no request block, not waiting, only
   * the halt interrupt unmasked, every flag acknowledged (HCINT flags clear
   * when written with 1), no transfer size, and the channel asked to halt.
   */
  function CancelledChannel(c: Chan): (d: Chan)
    ensures d.state == Cancelled && d.urb.None? && !d.needScheduling && d.submitFrame == c.submitFrame
    ensures d.hcintmsk == CHH && d.hcint & 0xFFF == 0 && d.hctsiz == 0 && d.hcchar == CHENA | CHDIS
    ensures Attached(d)
  {
    c.(urb := None, state := Cancelled, needScheduling := false, hcintmsk := CHH, hcint := Clear(c.hcint, 0xFFF),
       hctsiz := 0, hcchar := CHENA | CHDIS)
  }

  /**
   * A cancelled channel keeps the backend's invariant and is not handed out
   * again until the core reports it halted; then it is free, with every
   * interrupt masked.
   */
  lemma {:induction false} CancelThenHalt(chans: seq<Chan>, urb: Urb, frame: Frame)
    requires urb.tag.Some? && urb.tag.value < |chans|
    requires forall k :: 0 <= k < |chans| ==> Attached(chans[k])
    ensures var (cs, u) := Cancel(chans, urb);
      && u.tag.None? && cs[urb.tag.value].state == Cancelled
      && (forall k :: 0 <= k < |cs| ==> Attached(cs[k]))
      && var halted := cs[urb.tag.value].(hcint := Set(cs[urb.tag.value].hcint, CHH));
      && ChannelInterrupt(halted, frame).0.state == Free
      && ChannelInterrupt(halted, frame).0.hcintmsk == 0
  {
    var (cs, u) := Cancel(chans, urb);
    forall k | 0 <= k < |cs|
      ensures Attached(cs[k])
    {
      if k != urb.tag.value {
        assert cs[k] == chans[k];
      }
    }
  }

  /*
   * ---------------- Reset ----------------
   */

  /**
   * One channel of `reset_channels` as written: the channel is cancelled
   * and loses its request block (whose tag is invalidated by the caller),
   * but whether it waits for a frame is left as it was.
   */
  function ResetChannelAsWritten(c: Chan): (d: Chan)
    ensures d == CancelledChannel(c).(needScheduling := c.needScheduling)
  {
    c.(urb := None, state := Cancelled, hcintmsk := CHH, hcint := Clear(c.hcint, 0xFFF), hctsiz := 0,
       hcchar := CHENA | CHDIS)
  }

  /**
   * A periodic channel that was waiting for its next frame when the device
   * disconnected is still waiting after the reset, with no request block:
   * `schedule_channels`, which runs next in the same poll, reads the
   * transfer of that missing block.
   */
  lemma ResetChannelAsWrittenCounterexample(c: Chan)
    requires c.needScheduling
    ensures !Attached(ResetChannelAsWritten(c))
    ensures Attached(ResetChannel(c))
  {
  }

  /**
   * One channel of `reset_channels`, corrected: cancelled exactly as
   * `Cancel` does, so that it no longer waits for a frame either.
   */
  function ResetChannel(c: Chan): (d: Chan)
    ensures d.state == Cancelled && d.urb.None? && !d.needScheduling
    ensures Attached(d)
  {
    CancelledChannel(c)
  }

  /**
   * `reset_channels`: every channel is reset, and the request block each
   * occupied (if any) comes back with its tag invalidated.
   */
  method ResetChannels(chans: seq<Chan>) returns (out: seq<Chan>, released: seq<Option<Urb>>)
    ensures |out| == |chans| == |released|
    ensures forall k :: 0 <= k < |chans| ==> out[k] == ResetChannel(chans[k])
    ensures forall k :: 0 <= k < |chans| ==> Attached(out[k])
    ensures forall k :: 0 <= k < |chans| ==> released[k].Some? == chans[k].urb.Some?
    ensures forall k :: 0 <= k < |chans| && released[k].Some? ==>
      released[k].value == chans[k].urb.value.(tag := None)
  {
    out, released := [], [];
    var i := 0;
    while i < |chans|
      invariant 0 <= i <= |chans| && |out| == i == |released|
      invariant forall k :: 0 <= k < i ==> out[k] == ResetChannel(chans[k])
      invariant forall k :: 0 <= k < i ==> released[k].Some? == chans[k].urb.Some?
      invariant forall k :: 0 <= k < i && released[k].Some? ==> released[k].value == chans[k].urb.value.(tag := None)
    {
      var u := if chans[i].urb.Some? then Some(chans[i].urb.value.(tag := None)) else None;
      released := released + [u];
      out := out + [ResetChannel(chans[i])];
      i := i + 1;
    }
  }

  /** After a reset a channel is not scheduled, whatever the frame. */
  lemma ResetThenSchedule(c: Chan, frame: Frame)
    ensures ScheduleChannel(ResetChannel(c), frame) == ResetChannel(c)
  {
  }

  /*
   * ---------------- Channel interrupts ----------------
   */

  datatype Status = Success | Stall | DataToggle | Babble | Io | ShortPacket

  /**
   * What the handler asks of the rest of the host stack: push the next OUT
   * packet into the FIFO, toggle the device's data toggle, or finish the
   * request block with a status (`usbh_urb_free`).
   */
  datatype Action = Action(push: bool, toggle: bool, finish: Option<Status>)

  const NoAction := Action(false, false, None)

  /**
   * The first error flag set, in the order STALL, DTERR, BBERR, FRMOR,
   * TXERR, with its status.
   */
  function FirstError(hcint: Reg): (e: Option<(Reg, Status)>)
    ensures e.Some? ==> hcint & e.value.0 != 0
    ensures e.None? <==> hcint & (STALL | DTERR | BBERR | FRMOR | TXERR) == 0
    ensures hcint & STALL != 0 ==> e == Some((STALL, Stall))
    ensures hcint & STALL == 0 && hcint & DTERR != 0 ==> e == Some((DTERR, DataToggle))
    ensures hcint & (STALL | DTERR) == 0 && hcint & BBERR != 0 ==> e == Some((BBERR, Babble))
    ensures hcint & (STALL | DTERR | BBERR) == 0 && hcint & FRMOR != 0 ==> e == Some((FRMOR, Io))
    ensures hcint & (STALL | DTERR | BBERR | FRMOR) == 0 && hcint & TXERR != 0 ==> e == Some((TXERR, Io))
  {
    if hcint & STALL != 0 then Some((STALL, Stall))
    else if hcint & DTERR != 0 then Some((DTERR, DataToggle))
    else if hcint & BBERR != 0 then Some((BBERR, Babble))
    else if hcint & FRMOR != 0 then Some((FRMOR, Io))
    else if hcint & TXERR != 0 then Some((TXERR, Io))
    else None
  }

  /**
   * The next periodic frame, `interval` frames on, with ODDFRM set to its
   * parity.
   */
  function NextPeriod(c: Chan, interval: Count16): (d: Chan)
    ensures d.(submitFrame := c.submitFrame, hcchar := c.hcchar) == c
    ensures d.submitFrame == (c.submitFrame + interval) % 0x4000
    ensures (d.hcchar & ODDFRM != 0) == (d.submitFrame % 2 == 1) && Agree(d.hcchar, c.hcchar, !ODDFRM)
  {
    var f := (c.submitFrame + interval) % 0x4000;
    c.(submitFrame := f, hcchar := Assign(c.hcchar, ODDFRM, f % 2 == 1))
  }

  /**
   * A NAK: control and bulk channels are simply re-enabled; a periodic
   * channel moves to its next period and either waits for it (interval
   * above 1) or is re-enabled at once.
   */
  function OnNak(c: Chan, t: Transfer): (d: Chan)
    ensures !Periodic(t.epType) ==> d == c.(hcchar := Set(c.hcchar, CHENA))
    ensures Periodic(t.epType) ==> d.submitFrame == (c.submitFrame + t.interval) % 0x4000
    ensures Periodic(t.epType) ==> (d.hcchar & ODDFRM != 0) == (d.submitFrame % 2 == 1)
    ensures Periodic(t.epType) ==> d.needScheduling == (t.interval > 1 || c.needScheduling)
    ensures Periodic(t.epType) && t.interval <= 1 ==> d.hcchar & CHENA != 0
    ensures Periodic(t.epType) && t.interval > 1 ==> d.hcchar == Assign(c.hcchar, ODDFRM, d.submitFrame % 2 == 1)
    ensures d.(submitFrame := c.submitFrame, hcchar := c.hcchar, needScheduling := c.needScheduling) == c
    ensures Agree(d.hcchar, c.hcchar, !(ODDFRM | CHENA))
  {
    if !Periodic(t.epType) then
      AgreeChain(Set(c.hcchar, CHENA), c.hcchar, c.hcchar, !CHENA, !0, !(ODDFRM | CHENA));
      c.(hcchar := Set(c.hcchar, CHENA))
    else
      var n := NextPeriod(c, t.interval);
      if t.interval > 1 then
        AgreeChain(n.hcchar, c.hcchar, c.hcchar, !ODDFRM, !0, !(ODDFRM | CHENA));
        n.(needScheduling := true)
      else
        var h := Set(n.hcchar, CHENA);
        AgreeChain(h, n.hcchar, c.hcchar, !CHENA, !ODDFRM, !(ODDFRM | CHENA));
        n.(hcchar := h)
  }

  /**
   * A periodic channel after an ACK: on to its next period; if the
   * interval is above 1 and packets remain it waits for that period and
   * is asked to halt meanwhile.
   */
  function AckPeriodic(c: Chan, t: Transfer): (d: Chan)
    ensures d.submitFrame == (c.submitFrame + t.interval) % 0x4000
    ensures d.needScheduling == (c.needScheduling || (t.interval > 1 && c.hctsiz & PKTCNT != 0))
    ensures (d.hcchar & ODDFRM != 0) == (d.submitFrame % 2 == 1)
    ensures t.interval > 1 && c.hctsiz & PKTCNT != 0 ==> d.hcchar & (CHENA | CHDIS) == CHENA | CHDIS
    ensures !(t.interval > 1 && c.hctsiz & PKTCNT != 0) ==> d == NextPeriod(c, t.interval)
    ensures d.(submitFrame := c.submitFrame, hcchar := c.hcchar, needScheduling := c.needScheduling) == c
    ensures Agree(d.hcchar, c.hcchar, !(ODDFRM | CHENA | CHDIS))
  {
    var n := NextPeriod(c, t.interval);
    if t.interval > 1 && c.hctsiz & PKTCNT != 0 then
      var d := WaitHalted(n);
      AgreeChain(d.hcchar, n.hcchar, c.hcchar, !(CHENA | CHDIS), !ODDFRM, !(ODDFRM | CHENA | CHDIS));
      d
    else
      AgreeChain(n.hcchar, c.hcchar, c.hcchar, !ODDFRM, !0, !(ODDFRM | CHENA | CHDIS));
      n
  }

  /** A channel that waits for its frame, asked to halt meanwhile. */
  function WaitHalted(c: Chan): (d: Chan)
    ensures d.needScheduling && d.hcchar & (CHENA | CHDIS) == CHENA | CHDIS
    ensures Agree(d.hcchar, c.hcchar, !(CHENA | CHDIS))
    ensures d.hcchar & ODDFRM == c.hcchar & ODDFRM && d.submitFrame == c.submitFrame
    ensures d.(hcchar := c.hcchar, needScheduling := c.needScheduling) == c
  {
    c.(needScheduling := true, hcchar := Set(c.hcchar, CHENA | CHDIS))
  }

  /**
   * An ACK: an OUT endpoint's toggle flips. A control DATA OUT stage and a
   * bulk OUT transfer push the next packet. A periodic channel moves to
   * its next period, waits for it (and is asked to halt meanwhile) if the
   * interval is above 1 and packets remain, and pushes the next packet if
   * it is OUT.
   */
  function OnAck(c: Chan, t: Transfer): (r: (Chan, Action))
    ensures r.1.toggle == OutEndpoint(t) && r.1.finish.None?
    ensures t.epType == Control ==> r.0 == c && r.1.push == (c.state == CtrlDataOut)
    ensures t.epType == Bulk ==> r.0 == c && r.1.push == OutEndpoint(t)
    ensures Periodic(t.epType) ==> r.1.push == OutEndpoint(t)
    ensures Periodic(t.epType) ==> r.0 == AckPeriodic(c, t)
    ensures r.0.(submitFrame := c.submitFrame, hcchar := c.hcchar, needScheduling := c.needScheduling) == c
    ensures Agree(r.0.hcchar, c.hcchar, !(ODDFRM | CHENA | CHDIS))
  {
    match t.epType
    case Control => (c, Action(c.state == CtrlDataOut, OutEndpoint(t), None))
    case Bulk => (c, Action(OutEndpoint(t), OutEndpoint(t), None))
    case _ => (AckPeriodic(c, t), Action(OutEndpoint(t), OutEndpoint(t), None))
  }

  /**
   * A completed transfer moves the channel on: SETUP to DATA when the
   * request has data (wLength not 0), else to STATUS; DATA to STATUS; a
   * STATUS stage or a bulk or interrupt transfer finishes the request block
   * successfully.
   */
  function OnComplete(c: Chan, t: Transfer, frame: Frame): (r: (Chan, Action))
    requires CompletesPacketable(c, t)
    ensures c.state == CtrlSetup && t.wLength != 0 ==> r == (DataStage(c, t, frame), Action(HostToDevice(t), false, None))
    ensures (c.state == CtrlSetup && t.wLength == 0) || c.state in {CtrlDataIn, CtrlDataOut} ==> r == (StatusStage(c, t, frame), NoAction)
    ensures c.state in {CtrlStatusIn, CtrlStatusOut, Callback} ==> r == (c, Action(false, false, Some(Success)))
    ensures c.state in {Free, Cancelled} ==> r == (c, NoAction)
  {
    match c.state
    case CtrlSetup =>
      if t.wLength != 0 then (DataStage(c, t, frame), Action(HostToDevice(t), false, None))
      else (StatusStage(c, t, frame), NoAction)
    case CtrlDataIn => (StatusStage(c, t, frame), NoAction)
    case CtrlDataOut => (StatusStage(c, t, frame), NoAction)
    case CtrlStatusIn => (c, Action(false, false, Some(Success)))
    case CtrlStatusOut => (c, Action(false, false, Some(Success)))
    case Callback => (c, Action(false, false, Some(Success)))
    case _ => (c, NoAction)
  }

  /**
   * A control transfer with a data stage runs SETUP, DATA, STATUS and then
   * succeeds; the data stage goes the way the request says and the status
   * stage the other way.
   */
  lemma {:induction false} ControlTransferStages(c: Chan, t: Transfer, f0: Frame, f1: Frame, f2: Frame)
    requires Packetable(t) && t.wLength != 0
    ensures var s := SetupStage(c, t, f0);
      var (d, a) := OnComplete(s, t, f1);
      var (e, b) := OnComplete(d, t, f2);
      var (g, z) := OnComplete(e, t, f2);
      && d.state == (if HostToDevice(t) then CtrlDataOut else CtrlDataIn) && a.push == HostToDevice(t)
      && e.state == (if HostToDevice(t) then CtrlStatusIn else CtrlStatusOut) && b == NoAction
      && (e.hcchar & EPDIR_IN != 0) == (d.hcchar & EPDIR_IN == 0)
      && z.finish == Some(Success)
  {
  }

  /** The halt flag: a cancelled channel becomes free with every interrupt masked. */
  function OnHalt(c: Chan): (d: Chan)
    ensures d.hcint & CHH == 0 && Agree(d.hcint, c.hcint, !CHH)
    ensures c.state == Cancelled ==> d.state == Free && d.hcintmsk == 0
    ensures c.state != Cancelled ==> d.state == c.state && d.hcintmsk == c.hcintmsk
    ensures d.(state := c.state, hcintmsk := c.hcintmsk, hcint := c.hcint) == c
  {
    var d := c.(hcint := Clear(c.hcint, CHH));
    if c.state != Cancelled then d else d.(state := Free, hcintmsk := 0)
  }

  /**
   * The flags of a busy channel, by priority, each acknowledged once
   * handled: NAK, ACK, the first error flag (which finishes the request
   * block with its status), and finally transfer completion (XFRC).
   */
  function OnBusy(c: Chan, t: Transfer, frame: Frame): (r: (Chan, Action))
    requires CompletesPacketable(c, t)
    ensures c.hcint & NAK != 0 ==> r.1 == NoAction && r.0 == OnNak(c, t).(hcint := Clear(c.hcint, NAK))
    ensures c.hcint & NAK == 0 && c.hcint & ACK != 0 ==> r == (OnAck(c, t).0.(hcint := Clear(c.hcint, ACK)), OnAck(c, t).1)
    ensures c.hcint & (NAK | ACK) == 0 && FirstError(c.hcint).Some? ==>
      r.0 == c.(hcint := Clear(c.hcint, FirstError(c.hcint).value.0))
      && r.1 == Action(false, false, Some(FirstError(c.hcint).value.1))
    ensures c.hcint & (NAK | ACK) == 0 && FirstError(c.hcint).None? ==> r == OnComplete(c.(hcint := Clear(c.hcint, XFRC)), t, frame)
  {
    if c.hcint & NAK != 0 then (OnNak(c, t).(hcint := Clear(c.hcint, NAK)), NoAction)
    else if c.hcint & ACK != 0 then
      var a := OnAck(c, t);
      (a.0.(hcint := Clear(c.hcint, ACK)), a.1)
    else match FirstError(c.hcint)
      case Some(e) => (c.(hcint := Clear(c.hcint, e.0)), Action(false, false, Some(e.1)))
      case None => OnComplete(c.(hcint := Clear(c.hcint, XFRC)), t, frame)
  }

  /**
   * `process_channel_interrupt`: the halt flag first, whatever the state;
   * then a free or cancelled channel ignores the interrupt; a busy channel
   * handles its flags.
   */
  function ChannelInterrupt(c: Chan, frame: Frame): (r: (Chan, Action))
    requires Attached(c)
    requires c.urb.Some? ==> CompletesPacketable(c, c.urb.value.transfer)
    ensures c.hcint & CHH != 0 ==> r == (OnHalt(c), NoAction)
    ensures c.hcint & CHH == 0 && c.state in {Free, Cancelled} ==> r == (c, NoAction)
    ensures c.hcint & CHH == 0 && c.state !in {Free, Cancelled} ==> r == OnBusy(c, c.urb.value.transfer, frame)
    ensures r.1.finish.Some? ==> c.hcint & CHH == 0 && c.state !in {Free, Cancelled}
  {
    if c.hcint & CHH != 0 then (OnHalt(c), NoAction)
    else if c.state in {Free, Cancelled} then (c, NoAction)
    else OnBusy(c, c.urb.value.transfer, frame)
  }

  /** The interrupt handler keeps the backend's invariant. */
  lemma {:induction false} ChannelInterruptAttached(c: Chan, frame: Frame)
    requires Attached(c)
    requires c.urb.Some? ==> CompletesPacketable(c, c.urb.value.transfer)
    ensures Attached(ChannelInterrupt(c, frame).0)
  {
    if c.hcint & CHH == 0 && c.state !in {Free, Cancelled} {
      var t := c.urb.value.transfer;
      var r := OnBusy(c, t, frame);
      if c.hcint & NAK != 0 {
        assert r.0.urb == c.urb;
      } else if c.hcint & ACK != 0 {
        assert r.0.urb == c.urb;
      } else if FirstError(c.hcint).None? {
        assert r.0.urb == c.urb by {
          var x := c.(hcint := Clear(c.hcint, XFRC));
          assert x.urb == c.urb;
        }
      }
    }
  }

  /*
   * ---------------- Received packets ----------------
   */

  /**
   * What `handle_rxflvl_interrupt` does with one FIFO entry: the channel
   * afterwards, the FIFO words discarded or the bytes copied out, whether
   * the device's toggle flips, and whether the request block finishes.
   */
  datatype Rx = Rx(chan: Chan, discarded: nat, copied: nat, toggle: bool, finish: Option<Status>)

  /**
   * The discarding loop as written: its counter `j` never moves (the
   * channel number is stepped instead), so with a non-empty packet it never
   * ends. Run for at most `fuel` iterations after `words` reads, it reports
   * the words read when it ends, and `None` when it is still running.
   */
  function DiscardAsWritten(len: Count16, j: nat, i: bv8, words: nat, fuel: nat): (r: Option<nat>)
    ensures r.Some? <==> j >= len
    ensures r.Some? ==> r.value == words
    decreases fuel
  {
    if j >= len then Some(words)
    else if fuel == 0 then None
    else DiscardAsWritten(len, j, i + 4, words + 1, fuel - 1)
  }

  /** However many iterations it is given, the loop as written has not ended. */
  lemma DiscardAsWrittenCounterexample(len: Count16, i: bv8, fuel: nat)
    requires len > 0
    ensures DiscardAsWritten(len, 0, i, 0, fuel) == None
  {
  }

  /**
   * The discarding loop corrected: the counter steps by one 32-bit word, so
   * the loop reads each word of the packet once.
   */
  method Discard(len: Count16) returns (words: nat)
    ensures words == (len + 3) / 4
    ensures 4 * words >= len && (len > 0 ==> 4 * (words - 1) < len)
  {
    var j := 0;
    words := 0;
    while j < len
      invariant j == 4 * words && (j < len + 4)
      invariant words <= (len + 3) / 4
      invariant j < len ==> words < (len + 3) / 4
    {
      j := j + 4;
      words := words + 1;
    }
  }

  /** While packets remain, the channel is re-enabled for the next one. */
  function Resume(c: Chan): (d: Chan)
    ensures Agree(d.hcchar, c.hcchar, !CHENA)
    ensures c.hctsiz & PKTCNT != 0 ==> d.hcchar & CHENA != 0
    ensures c.hctsiz & PKTCNT == 0 ==> d == c
    ensures d.(hcchar := c.hcchar) == c
  {
    if c.hctsiz & PKTCNT != 0 then c.(hcchar := Set(c.hcchar, CHENA)) else c
  }

  /**
   * `handle_rxflvl_interrupt` for an entry of `len` bytes for channel `c`
   * with packet status IN (`pktstsIn`). Other entries and empty packets are
   * ignored. A short packet on a transfer that forbids them is discarded
   * from the FIFO and finishes the request block with a short-packet error.
   * Otherwise the channel is re-enabled while packets remain, the bytes are
   * copied out and the toggle flips.
   */
  method RxPacket(c: Chan, pktstsIn: bool, len: Count16) returns (r: Rx)
    requires pktstsIn && len > 0 ==> c.urb.Some?
    ensures !pktstsIn || len == 0 ==> r == Rx(c, 0, 0, false, None)
    ensures pktstsIn && len > 0 && c.urb.value.transfer.noShortPacket && len < c.urb.value.transfer.epSize ==>
      r == Rx(c, (len + 3) / 4, 0, false, Some(ShortPacket))
    ensures pktstsIn && len > 0 && !(c.urb.value.transfer.noShortPacket && len < c.urb.value.transfer.epSize) ==>
      r == Rx(Resume(c), 0, len, true, None)
  {
    if !pktstsIn || len == 0 {
      return Rx(c, 0, 0, false, None);
    }
    var t := c.urb.value.transfer;
    if t.noShortPacket && len < t.epSize {
      var words := Discard(len);
      return Rx(c, words, 0, false, Some(ShortPacket));
    }
    r := Rx(Resume(c), 0, len, true, None);
  }
}
