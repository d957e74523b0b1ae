# libopencm3 register arithmetic, modelled in Dafny

This project models the register arithmetic of a set of libopencm3 drivers for
STM32 peripherals and the host-channel logic of its USB host backend for the
DesignWare OTG core:

- `fdcan.dfy` (module `Fdcan`): the CAN FD data-length-code table, Tx buffer
  selection, identifier packing on transmit and unpacking on receive, the
  acceptance-filter words, the interrupt-line enables and the Rx FIFO
  acknowledge.
- `dma_f24.dfy` (module `DmaF24`): STM32F2/F4 DMA streams. It covers the
  per-stream interrupt-flag groups in LISR/HISR and LIFCR/HIFCR, stream reset,
  the CR field setters, the increment modes and the current target. It also
  covers the address writes that are guarded in double-buffer mode, the
  interrupt enables, and the FIFO control register.
- `timer_common.dfy` (module `TimerCommon`): the common STM32 timer driver. It
  covers the single-bit controls of CR1, CR2, CCER and BDTR and the CR1/CR2
  field setters. It also covers interrupt source and flag clearing, output
  compare modes, input-capture input selection and prescalers, and the
  input-capture enables. CCMR1/CCMR2 are modelled as four channel bytes.
- `timer_f1.dfy` (module `TimerF1`): the STM32F1 timer driver. It covers the
  TIM1/TIM8-only guards, its read-modify-write flag clear and `timer_force_event`.
  It also includes the three functions that differ from the common driver.
- `adc_f4.dfy` (module `AdcF4`): the STM32F4 ADC. It covers the regular and
  injected sequences as 5-bit slots with a length field, sample-time
  placement, the watchdog and its thresholds, and the clock and resolution
  fields. It also covers the discontinuous mode, the CR2 selection bits, the
  external triggers, and the injected data and offset registers.
- `adc_f0.dfy` (module `AdcF0`): the STM32F0 ADC. It covers the CHSELR bitmask
  and its scan-direction detection, the operation-mode table, the watchdog and
  its thresholds, and the clock source, resolution and sample-time fields.
- `spi_v3.dfy` (module `SpiV3`): the SPI v3 (STM32H7-style) driver. It covers
  its single-bit controls, the COMM, MBR, TSIZE, DSIZE, CRCSIZE and FTHLV
  fields, `spi_set_standard_mode`, enable/disable, the error interrupt and
  `spi_init_master`.
- `usbh_dwc_otg.dfy` (module `UsbhDwcOtg`): the USB host channel logic. It
  covers packet counts, rounding up to a multiple of 4, and the 14-bit
  circular frame window in which a waiting channel is re-enabled. It also
  covers free-channel selection, the register words of each transfer kind,
  and the control-transfer stages. Submission, cancellation, channel reset,
  the per-channel interrupt handler and the receive-FIFO handler complete it.
- `bits.dfy` (module `Bits`): shared 32-bit register helpers. `Agree(a, b, m)`
  says two words agree on the bits of `m`. `Set`, `Clear`, `Assign`, `Replace`
  and `Merge` are the usual read-modify-write idioms, each with its frame
  stated.

A register is a `bv32` (`Reg`). Every driver call is a pure function from the
register values it reads to the values it writes. Its contract states the
fields it sets and, through `Agree(new, old, !mask)`, that every other bit is
unchanged. The USB channel is an immutable record (state, request block,
scheduling flag, submit frame, and the HCCHAR/HCTSIZ/HCINTMSK/HCINT words).
Interrupt handling returns the new channel together with an `Action`. The
`Action` says whether a packet is pushed to the FIFO, whether the device's data
toggle flips, and whether the request block is finished and with what status.

Where the code disagrees with its own documentation, with a sibling driver or
with the hardware layout, the code as written is modelled next to a
counterexample lemma. A corrected definition carries the intended property;
the rest of the model uses the corrected definition. These cases are listed
under "## Findings".

## Model

| member | source | states |
|---|---|---|
| Fdcan.DlcToLength | lib/stm32/common/fdcan.c:210-219 | DLCs 0..8 are their own length; 9..15 give lengths above 8 that a CAN FD frame can carry; DLC 15 gives exactly 64 bytes |
| Fdcan.LengthToDlc | lib/stm32/common/fdcan.c:186-201 | the 0xFF sentinel is returned exactly for lengths no CAN FD frame carries; any other result is a DLC of at most 15 that decodes back to the length |
| Fdcan.DlcRoundTrip | lib/stm32/common/fdcan.c:186-219 | encoding the length of any DLC 0..15 gives that DLC back |
| Fdcan.LengthToDlcAgreesUpTo64 | lib/stm32/common/fdcan.c:186-201 | for every length up to 64 the corrected encoder and the code as written agree |
| Fdcan.LengthToDlcAsWritten | lib/stm32/common/fdcan.c:186-201 | the encoder as written returns a value of at most 26 or 0xFF; a non-sentinel result decodes back to the length; valid lengths get a DLC of at most 15 |
| Fdcan.LengthToDlcOversizeCounterexample | lib/stm32/common/fdcan.c:197-199 | length 80 is not a frame length, yet the code as written encodes it as 16, which lands in the BRS/FDF bits when shifted into the header |
| Fdcan.GetFreeTxBuf | lib/stm32/common/fdcan.c:104-115 | BUSY exactly when all three TRP bits are set; otherwise the lowest Tx buffer whose pending bit is clear |
| Fdcan.AvailableTx | lib/stm32/common/fdcan.c:755-758 | true exactly when one of the three Tx buffers is not pending |
| Fdcan.PackIdAsWritten | lib/stm32/common/fdcan.c:587-595 | with the header's XTD value (bit 20), an extended identifier sets bit 20 and RTR is bit 29 |
| Fdcan.UnpackIdAsWritten | lib/stm32/common/fdcan.c:663-671 | the receive side as written reads a frame as extended exactly when bit 20 is set |
| Fdcan.XtdAsWrittenCounterexample | include/libopencm3/stm32/fdcan.h:701 | standard identifier 4 is read back as extended identifier 0x100000, and extended identifier 1 as 0x100001 |
| Fdcan.XtdAsWrittenMisreadsStandard | lib/stm32/common/fdcan.c:587-595 | every standard identifier with bit 2 set is misread as extended |
| Fdcan.PackStdId | lib/stm32/common/fdcan.c:590-591 | the 11-bit identifier sits at bits 18..28; XTD is clear and RTR follows the flag |
| Fdcan.PackExtId | lib/stm32/common/fdcan.c:587-589 | the 29-bit identifier sits at bits 0..28; XTD (bit 30) is set and RTR follows the flag |
| Fdcan.PackId | lib/stm32/common/fdcan.c:587-599 | the XTD bit says whether the identifier is extended; the RTR bit says whether the frame is remote |
| Fdcan.UnpackId | lib/stm32/common/fdcan.c:663-671 | extended exactly when XTD is set, and the identifier fits its kind's width |
| Fdcan.StdIdRoundTrip | lib/stm32/common/fdcan.c:590-591 | a standard identifier is received as its low 11 bits, marked standard |
| Fdcan.ExtIdRoundTrip | lib/stm32/common/fdcan.c:587-589 | an extended identifier is received as its low 29 bits, marked extended |
| Fdcan.IdRoundTrip | lib/stm32/common/fdcan.c:587-599 | unpacking a packed identifier returns it, masked to its kind's width, with its kind |
| Fdcan.PackFmtDlc | lib/stm32/common/fdcan.c:601-610 | the DLC, FDF and BRS are each readable from their own field of word 1 |
| Fdcan.BuildTxHeader | lib/stm32/common/fdcan.c:587-610 | the two header words read back as the identifier, its kind, the remote, FD-format and bit-rate-switch flags, and the DLC's length |
| Fdcan.Transmit | lib/stm32/common/fdcan.c:563-616 | BUSY exactly when no buffer is free. Otherwise INVALID exactly for a length with no DLC. Otherwise the result is the chosen buffer: only its add-request bit changes, and its header reads back as the frame sent |
| Fdcan.GetIndex | lib/stm32/common/fdcan.c:128-136 | the get index is a FIFO slot below 4: F0GI is 2 bits wide on G4 (see "## Left out" for H7) |
| Fdcan.AvailableRx | lib/stm32/common/fdcan.c:767-775 | true exactly when the fill level is non-zero |
| Fdcan.ReadRxElement | lib/stm32/common/fdcan.c:657-685 | the identifier and its kind come from word 0, the remote flag is its RTR bit, and the filter index, DLC length and timestamp come from their fields of word 1 |
| Fdcan.Receive | lib/stm32/common/fdcan.c:639-696 | NOTAVAIL exactly when the FIFO is empty. Otherwise the oldest element's identifier, kind, remote flag, filter index, length and timestamp are returned, and the FIFO is acknowledged exactly when release is asked |
| Fdcan.TransmitReceiveRoundTrip | lib/stm32/common/fdcan.c:563-696 | a queued frame whose header words arrive in the FIFO is received with the identifier, kind, remote flag and length it was sent with |
| Fdcan.ReleaseFifoAsWritten | lib/stm32/common/fdcan.c:708-721 | as written, the acknowledge register never changes |
| Fdcan.ReleaseFifoCounterexample | lib/stm32/common/fdcan.c:711-715 | with one frame pending at get index 1, the code as written acknowledges nothing; the corrected release acknowledges slot 1 |
| Fdcan.ReleaseFifo | lib/stm32/common/fdcan.c:708-721 | with a frame pending, the get index is or-ed into the acknowledge field; with none, nothing changes; other bits are kept |
| Fdcan.StdFilter | lib/stm32/common/fdcan.c:495-516 | type at bits 30..31 and action at 27..29; both identifiers are masked to 11 bits at bits 16 and 0, so they never spill into the type or action |
| Fdcan.ExtFilter | lib/stm32/common/fdcan.c:535-548 | the action sits above the 29-bit first identifier, and the type above the 29-bit second identifier; the identifiers never spill into either |
| Fdcan.EnableIrq | lib/stm32/common/fdcan.c:731-734 | the requested interrupt lines become enabled; every other bit, including a line not requested, is kept |
| Fdcan.DisableIrq | lib/stm32/common/fdcan.c:744-747 | the requested interrupt lines become disabled; every other bit, including a line not requested, is kept |
| Fdcan.EnableDisableIrq | lib/stm32/common/fdcan.c:731-747 | disabling lines that were just enabled restores the register, if they were off before |
| DmaF24.IsrOffset | lib/stm32/common/dma_common_f24.c:95-108 | the flag group of streams 0..3 (and again 4..7) starts at bit 0, 6, 16 or 22 |
| DmaF24.IsrMask | lib/stm32/common/dma_common_f24.c:95-108 | the five flag bits of each stream's group at its offset |
| DmaF24.IsrMasksDisjoint | lib/stm32/common/dma_common_f24.c:95-133 | two streams sharing a register have disjoint flag groups |
| DmaF24.GetInterruptFlag | lib/stm32/common/dma_common_f24.c:121-133 | for flags inside the interrupt group, true exactly when one of the requested flags is set in the stream's group of LISR (streams 0..3) or HISR (4..7) |
| DmaF24.ClearInterruptFlags | lib/stm32/common/dma_common_f24.c:95-108 | only the stream's clear register (LIFCR for 0..3, HIFCR for 4..7) is written; it holds exactly the requested flags at the stream's offset |
| DmaF24.ClearThenGet | lib/stm32/common/dma_common_f24.c:95-133 | after a clear, the flag reads as not set through the same register and offset |
| DmaF24.ClearLeavesOtherStreams | lib/stm32/common/dma_common_f24.c:95-133 | clearing one stream's flags clears nothing of another stream's group |
| DmaF24.StreamReset | lib/stm32/common/dma_common_f24.c:60-81 | CR, NDTR, PAR, M0AR and M1AR are 0; FCR is back to 0x21 (half-full threshold, direct mode, FIFO error interrupt off); the stream's whole flag group is set in its clear register, whose other bits and the other clear register are kept |
| DmaF24.SetTransferMode | lib/stm32/common/dma_common_f24.c:149-161 | the DIR field becomes the direction. Memory-to-memory also clears CIRC and DBM and keeps every other bit; for the other directions the register outside DIR becomes `cr | direction` (the source only ors the direction in) |
| DmaF24.SetPriority | lib/stm32/common/dma_common_f24.c:177-181 | the PL field takes the priority's bits; the rest is the old register or-ed with the argument |
| DmaF24.SetMemorySize | lib/stm32/common/dma_common_f24.c:196-200 | the MSIZE field takes the size's bits; the rest is kept or-ed with the argument |
| DmaF24.SetPeripheralSize | lib/stm32/common/dma_common_f24.c:217-222 | the PSIZE field takes the size's bits; the rest is kept or-ed with the argument |
| DmaF24.SetMemoryBurst | lib/stm32/common/dma_common_f24.c:361-365 | the MBURST field takes the burst's bits; the rest is kept or-ed with the argument |
| DmaF24.SetPeripheralBurst | lib/stm32/common/dma_common_f24.c:380-384 | the PBURST field takes the burst's bits; the rest is kept or-ed with the argument |
| DmaF24.EnablePeripheralIncrement | lib/stm32/common/dma_common_f24.c:269-277 | PINC is set and PINCOS cleared; nothing else changes |
| DmaF24.EnableFixedPeripheralIncrement | lib/stm32/common/dma_common_f24.c:302-305 | PINC and PINCOS are both set; nothing else changes |
| DmaF24.DisablePeripheralIncrement | lib/stm32/common/dma_common_f24.c:278-287 | PINC is cleared; nothing else changes |
| DmaF24.PeripheralIncrementModes | lib/stm32/common/dma_common_f24.c:269-305 | disabling after variable increment leaves neither bit set; after fixed increment it leaves PINCOS alone |
| DmaF24.Switch | lib/stm32/common/dma_common_f24.c:237-708 | the memory increment (237-254), circular (324-327), double-buffer (446-461), peripheral flow-control (475-494) and stream enable (691-708) switches each set or clear their one bit and keep every other bit |
| DmaF24.ChannelSelectAsWritten | lib/stm32/common/dma_common_f24.c:343-346 | as written the channel bits are or-ed in and nothing is cleared |
| DmaF24.ChannelSelectMergesCounterexample | lib/stm32/common/dma_common_f24.c:343-346 | selecting channel 5 and then channel 2 leaves channel 7 selected |
| DmaF24.ChannelSelect | lib/stm32/common/dma_common_f24.c:343-346 | CHSEL becomes the channel; nothing else changes |
| DmaF24.ChannelSelectLastWins | lib/stm32/common/dma_common_f24.c:343-346 | selecting twice is selecting the last channel once |
| DmaF24.GetTarget | lib/stm32/common/dma_common_f24.c:422-429 | 1 exactly when CT is set, else 0 |
| DmaF24.SetInitialTarget | lib/stm32/common/dma_common_f24.c:399-407 | reading the target back gives 1 exactly when memory 1 was asked; nothing outside CT changes |
| DmaF24.SetPeripheralAddress | lib/stm32/common/dma_common_f24.c:724-729 | PAR takes the address unless the stream is enabled; no other register changes |
| DmaF24.SetMemoryAddress | lib/stm32/common/dma_common_f24.c:746-753 | M0AR takes the address exactly when it is writable (stream disabled, or double-buffered with CT set); no other register changes |
| DmaF24.SetMemoryAddress1 | lib/stm32/common/dma_common_f24.c:768-775 | M1AR takes the address exactly when it is writable (stream disabled, or double-buffered with CT clear); no other register changes |
| DmaF24.DoubleBufferWritesExclusive | lib/stm32/common/dma_common_f24.c:746-775 | on an enabled double-buffered stream exactly one of M0AR and M1AR is writable, M0AR when the target is 1; without double buffering neither is |
| DmaF24.SetNumberOfData | lib/stm32/common/dma_common_f24.c:789-792 | NDTR becomes the 16-bit count; no other register changes |
| DmaF24.FlagOf | lib/stm32/common/dma_common_f24.c:503-619 | each interrupt's flag is one non-empty part of the five-flag group |
| DmaF24.SetEnableBit | lib/stm32/common/dma_common_f24.c:503-619 | the FIFO error interrupt sets FEIE in FCR; the others set their enable bit in CR; nothing else changes |
| DmaF24.EnableInterrupt | lib/stm32/common/dma_common_f24.c:503-619 | enabling first clears the interrupt's pending flag, then sets its enable bit |
| DmaF24.DisableInterrupt | lib/stm32/common/dma_common_f24.c:503-619 | disabling clears exactly the interrupt's enable bit |
| DmaF24.EnableThenDisable | lib/stm32/common/dma_common_f24.c:503-619 | after enabling, the flag reads clear; disabling again restores the stream if the interrupt was off |
| DmaF24.SetFifoMode | lib/stm32/common/dma_common_f24.c:648-665 | DMDIS is set for FIFO mode and cleared for direct mode; nothing else changes |
| DmaF24.SetFifoThreshold | lib/stm32/common/dma_common_f24.c:678-682 | the FTH field takes the threshold's bits; the rest is kept or-ed with the argument |
| DmaF24.FifoStatus | lib/stm32/common/dma_common_f24.c:632-635 | the FS field of FCR and nothing else |
| DmaF24.FifoStatusAsWrittenUnreachable | include/libopencm3/stm32/common/dma_common_f24.h:547-552 | the status never equals the unshifted values 1, 2 and 3 the header defines for "less than 2/4, 3/4, 4/4 full" |
| DmaF24.FsCode | include/libopencm3/stm32/common/dma_common_f24.h:547-552 | a 3-bit FIFO level code placed at the FS field |
| DmaF24.FifoStatusIsPlacedCode | lib/stm32/common/dma_common_f24.c:632-635 | the status always equals the placed code of the FS level it holds |
| TimerCommon.SetControl | lib/stm32/common/timer_common_all.c:274-1212 | every single-bit setter of CR1, CR2, CCER and BDTR and its counterpart sets or clears its control's bit and keeps every other bit: CR1 bits (274-444), CR2 bits (497-525, 542-570, 575-640), output polarity (1070-1146), output enable (1148-1227), the idle-state bits (1229-1310) and the BDTR bits (1353-1561). The CCMR feature bits are `SetOcFeature` |
| TimerCommon.SetOcFeature | lib/stm32/common/timer_common_all.c:696-852 | for OC1..OC4 the output-compare clear, fast or preload bit of the channel's CCMR byte becomes `on`, every other bit of that byte and every other channel's byte is kept, and bytes stay bytes; a complementary output leaves both CCMR registers unchanged |
| TimerCommon.SetOcFeatureUndo | lib/stm32/common/timer_common_all.c:1003-1068 | enabling a feature that was off and disabling it again restores both CCMR registers |
| TimerCommon.SetControlUndo | lib/stm32/common/timer_common_all.c:274-444 | turning a control on and off again restores the register if it was off |
| TimerCommon.IdleStateBits | lib/stm32/common/timer_common_all.c:1229-1310 | the idle-state bits of outputs OC1..OC4 lie in OIS1..OIS4 (bits 8..14) |
| TimerCommon.SetMode | lib/stm32/common/timer_common_all.c:231-243 | CKD, CMS and DIR take the arguments' bits; the rest is the old CR1 or-ed with the arguments |
| TimerCommon.SetModeFrame | lib/stm32/common/timer_common_all.c:231-243 | with in-field arguments, nothing outside CKD, CMS and DIR changes and CKD reads back as the clock division |
| TimerCommon.SetClockDivision | lib/stm32/common/timer_common_all.c:257-262 | CKD takes the argument's bits and nothing else of CR1 changes |
| TimerCommon.SetAlignment | lib/stm32/common/timer_common_all.c:305-310 | CMS takes the argument's bits and nothing else of CR1 changes |
| TimerCommon.SetMasterMode | lib/stm32/common/timer_common_all.c:527-531 | MMS takes the mode's bits; the rest of CR2 is kept or-ed with the argument |
| TimerCommon.SetOutputIdleState | lib/stm32/common/timer_common_all.c:462-469 | the requested OIS bits are set and no other bit changes |
| TimerCommon.ResetOutputIdleState | lib/stm32/common/timer_common_all.c:477-485 | the requested OIS bits are cleared and no other bit changes |
| TimerCommon.IrqEnableDisable | lib/stm32/common/timer_common_all.c:125-142 | enabling and then disabling an interrupt mask restores DIER if those bits were clear |
| TimerCommon.InterruptSource | lib/stm32/common/timer_common_all.c:160-169 | a source is reported only for a flag up to BIF that is both pending and enabled |
| TimerCommon.InterruptSourceBit | lib/stm32/common/timer_common_all.c:160-169 | for a single flag below bit 8 the source is reported exactly when it is pending and enabled; for a higher flag never |
| TimerCommon.ClearFlagWrite | lib/stm32/common/timer_common_all.c:197-201 | the word written to SR is all ones except the flags |
| TimerCommon.ClearFlagEffect | lib/stm32/common/timer_common_all.c:197-201 | with SR's write-0-to-clear behaviour the flags end up clear and every other flag is kept |
| TimerCommon.GenerateEvent | lib/stm32/common/timer_common_all.c:1606-1609 | the event bits are set in EGR and the others are kept |
| TimerCommon.WithChannelByte | lib/stm32/common/timer_common_all.c:854-992 | one channel's CCMR byte is replaced and the other three are kept |
| TimerCommon.OcModeByte | lib/stm32/common/timer_common_all.c:854-992 | the channel is an output (CCxS 0) in the requested mode; the other bits of its byte are kept |
| TimerCommon.SetOcMode | lib/stm32/common/timer_common_all.c:854-992 | a complementary output changes nothing. Otherwise the output's channel becomes an output in the requested mode, keeping its other bits, and the other channels are kept |
| TimerCommon.InputCode | lib/stm32/common/timer_common_all.c:1730-1759 | the CCxS code selects the requested input, including the TI1/TI2 (TI3/TI4) swap for channels 2 and 4 |
| TimerCommon.IcSetInput | lib/stm32/common/timer_common_all.c:1730-1759 | the channel's CCxS selects the requested input; the rest of its byte and the other channels are kept |
| TimerCommon.PrescalerByte | lib/stm32/common/timer_common_all.c:1686-1707 | ICxPSC holds the prescaler; the other bits of the byte are kept |
| TimerCommon.IcSetPrescaler | lib/stm32/common/timer_common_all.c:1686-1707 | the channel's prescaler reads back as requested; the rest of its byte and the other channels are kept |
| TimerCommon.IcSetEnable | lib/stm32/common/timer_common_all.c:1768-1783 | only bit 4·channel of CCER is set or cleared |
| TimerCommon.CcerEnableBit | lib/stm32/common/timer_common_all.c:1148-1212 | an output's enable bit is CCxE at 4·channel, or CCxNE two bits higher for a complementary output |
| TimerCommon.IcEnableIsOutputEnable | lib/stm32/common/timer_common_all.c:1148-1212 | enabling an input-capture channel writes the same bit as enabling its output |
| TimerCommon.IcEnableDisable | lib/stm32/common/timer_common_all.c:1768-1783 | enabling then disabling a capture channel restores CCER if it was off |
| TimerF1.SetControl | lib/stm32/f1/timer.c:573-1594 | on a timer other than TIM1/TIM8, the advanced-only controls leave the register as it was: CCUS/CCPC (573-630), OCxN polarity and enable (1050-1258), the single-output idle states (1273-1346) and every BDTR bit (1399-1594). Any other control, or any control on TIM1/TIM8, gets the common single-bit setter |
| TimerF1.PolarityGuarded | lib/stm32/f1/timer.c:1050-1148 | on a basic or general-purpose timer, OCx polarity is set as asked and OCxN polarity is not touched |
| TimerF1.OutputEnableGuarded | lib/stm32/f1/timer.c:1160-1258 | on a basic or general-purpose timer, OCx is enabled as asked and OCxN is not touched |
| TimerF1.SetOutputIdleState | lib/stm32/f1/timer.c:466-474 | on TIM1/TIM8 the requested OIS bits are set, nothing else; on another timer CR2 is unchanged |
| TimerF1.ResetOutputIdleState | lib/stm32/f1/timer.c:481-489 | on TIM1/TIM8 the requested OIS bits are cleared, nothing else; on another timer CR2 is unchanged |
| TimerF1.OrIntoBdtr | lib/stm32/f1/timer.c:1609-1637 | the lock or deadtime bits are or-ed into BDTR of an advanced timer only |
| TimerF1.SetRepetitionCounter | lib/stm32/f1/timer.c:658-662 | RCR takes the value on an advanced timer and is unchanged otherwise |
| TimerF1.ClearFlag | lib/stm32/f1/timer.c:223-226 | the flags are cleared and every other SR bit keeps the value read |
| TimerF1.ClearFlagAgreesWithCommon | lib/stm32/f1/timer.c:223-226 | the read-modify-write clear gives the same SR as the common driver's write of the inverted flags |
| TimerF1.ForceEvent | lib/stm32/f1/timer.c:1915-1918 | EGR becomes exactly the event bits |
| TimerF1.ForceVersusGenerate | lib/stm32/f1/timer.c:1915-1918 | forcing and generating an event differ exactly in the other EGR bits already set |
| TimerF1.InputCodeAsWritten | lib/stm32/f1/timer.c:1759-1787 | channels 1 and 3 get the common code; on channels 2 and 4 the code is 2 exactly when the input's value has low bits 1, whatever input was asked |
| TimerF1.IcSetInputAsWritten | lib/stm32/f1/timer.c:1759-1787 | only CCxS of the channel changes |
| TimerF1.IcSetInputAsWrittenCounterexample | lib/stm32/f1/timer.c:1764 | asking for an output on channel 2 selects TI2 as input; TRC on channel 4 selects TI4 |
| TimerF1.SetOcModeAsWritten | lib/stm32/f1/timer.c:838-976 | for every output other than OC3 and OC4 it behaves as the common driver |
| TimerF1.SetOcModeAsWrittenCounterexample | lib/stm32/f1/timer.c:906-969 | setting OC3 to ACTIVE on input channels 1 and 3 turns channel 1 into an ACTIVE output and leaves channel 3 an input |
| TimerF1.IcSetPrescalerAsWritten | lib/stm32/f1/timer.c:1716-1736 | channels other than 3 get the common prescaler |
| TimerF1.IcSetPrescalerAsWrittenCounterexample | lib/stm32/f1/timer.c:1729 | a divide-by-2 prescaler on channel 3 reads back as "off" |
| AdcF4.SlotValue | lib/stm32/f4/adc.c:739-751 | each 5-bit slot of a sequence register holds a channel below 32 |
| AdcF4.Unpack | lib/stm32/f4/adc.c:739-751 | the slots lo..hi of a register, in order |
| AdcF4.PackWithin | lib/stm32/f4/adc.c:739-751 | packing at most six channels occupies only their slots |
| AdcF4.SlotOfPack | lib/stm32/f4/adc.c:739-751 | slot k of a packed list holds the list's k-th channel |
| AdcF4.UnpackPack | lib/stm32/f4/adc.c:739-751 | unpacking a packed list returns the list |
| AdcF4.LengthField | lib/stm32/f4/adc.c:748-749 | the L field holds length - 1, and length 0 wraps to all ones above bit 20 as the unsigned shift does |
| AdcF4.RegularSequence | lib/stm32/f4/adc.c:730-752 | a length above 16 leaves SQR1..3 unchanged |
| AdcF4.RegularSequenceReadBack | lib/stm32/f4/adc.c:739-751 | channels 1..6 are in SQR3, 7..12 in SQR2 and 13..16 in SQR1, and L is length - 1 |
| AdcF4.RegularSequenceEmpty | lib/stm32/f4/adc.c:730-752 | length 0 writes SQR1 = 0xFFF00000 and clears SQR2 and SQR3 |
| AdcF4.SequenceLength | lib/stm32/f4/adc.c:1033 | the sequence length read from L is between 1 and 16 |
| AdcF4.CurrentSequence | lib/stm32/f4/adc.c:739-751 | the channel list the registers hold, of the length L says |
| AdcF4.RewriteRoundTrip | lib/stm32/f4/adc.c:730-752 | a sequence of exactly `length` channels below 32 reads back as itself |
| AdcF4.RegularSequenceRoundTrip | lib/stm32/f4/adc.c:730-752 | reading the registers back after setting a sequence of length 1..16 gives that sequence |
| AdcF4.ChangeSingleChannelAsWritten | lib/stm32/f4/adc.c:1030-1050 | L becomes the old L - 1 (all bits from 20 up set when L was 0); a location up to 6 puts a channel below 32 in SQR3's slot location - 1 with the earlier slots reading 0 and nothing else set, 7..12 likewise in SQR2, 13..16 in SQR1 under the length field; the other registers are cleared, and a location above 16 clears all three but L |
| AdcF4.ChangeSingleChannelAsWrittenCounterexample | lib/stm32/f4/adc.c:1030-1050 | changing location 2 of sequence [1, 2, 3] to 5 leaves the sequence [0, 5] |
| AdcF4.ChangeSingleChannel | lib/stm32/f4/adc.c:1030-1050 | location 0, a location beyond the sequence's end plus one, or beyond 16 changes nothing |
| AdcF4.ChangeSingleChannelReplaces | lib/stm32/f4/adc.c:1030-1050 | a location inside the sequence replaces that channel and keeps the others and the length |
| AdcF4.ChangeSingleChannelAppends | lib/stm32/f4/adc.c:1030-1050 | the location just past the end appends the channel |
| AdcF4.ChangeSingleChannelExample | lib/stm32/f4/adc.c:1030-1050 | changing location 2 of [1, 2, 3] to 5 gives [1, 5, 3] |
| AdcF4.SequenceOneTwoThree | lib/stm32/f4/adc.c:730-752 | the sequence [1, 2, 3] is SQR1 = 0x200000 and SQR3 = 0xC41, and reads back as [1, 2, 3] |
| AdcF4.InjectedSequenceAsWritten | lib/stm32/f4/adc.c:766-781 | lengths 5 and above leave JSQR unchanged; length 0 is not rejected and writes 0xFFF00000 |
| AdcF4.InjectedSequenceAsWrittenCounterexample | lib/stm32/f4/adc.c:775-776 | a one-channel sequence [7] is written as an empty slot 4: channel 7 is lost |
| AdcF4.InjectedSequence | lib/stm32/f4/adc.c:766-781 | length 0 or above 4 leaves JSQR unchanged |
| AdcF4.InjectedSequenceReadBack | lib/stm32/f4/adc.c:766-781 | the channels occupy the last `length` slots in order and JL is length - 1 |
| AdcF4.SetSingleChannel | lib/stm32/f4/adc.c:1011-1015 | L becomes 0 (one conversion) and SQR2 is kept; a channel below 32 is in slot 1 of SQR3 and every other SQR3 bit is clear |
| AdcF4.SampleTime | lib/stm32/f4/adc.c:645-660 | a channel's sample time is a 3-bit code |
| AdcF4.PlaceTime | lib/stm32/f4/adc.c:645-660 | the 3-bit field at the shift holds the time; other bits are kept |
| AdcF4.SetSampleTime | lib/stm32/f4/adc.c:645-660 | the channel's sample time reads back as the time; channels below 10 use SMPR2 and leave SMPR1, the others the reverse |
| AdcF4.SetSampleTimeKeepsOthers | lib/stm32/f4/adc.c:645-660 | every other channel's sample time is kept |
| AdcF4.WatchdogThreshold | lib/stm32/f4/adc.c:693-716 | only the low 12 bits of the threshold are stored |
| AdcF4.WatchdogOnChannel | lib/stm32/f4/adc.c:306-315 | AWDCH is the channel if below 18 and 0 otherwise, AWDSGL is set, and nothing else changes |
| AdcF4.WatchdogOnAllChannels | lib/stm32/f4/adc.c:285-288 | AWDSGL is cleared and nothing else changes |
| AdcF4.SetClock | lib/stm32/f4/adc.c:112-115 | ADCPRE takes the prescaler's bits; an in-field prescaler reads back and the rest of CCR is kept |
| AdcF4.SetResolutionAsWritten | lib/stm32/f4/adc.c:793-796 | outside RES, CR1 becomes the old value or-ed with the low 16 bits of the argument: the argument is truncated to 16 bits before use |
| AdcF4.SetResolutionAsWrittenCounterexample | lib/stm32/f4/adc.c:793 | asking for 8-bit resolution (RES = 2) leaves 12-bit resolution |
| AdcF4.SetResolution | lib/stm32/f4/adc.c:793-796 | RES takes the resolution's bits; an in-field resolution reads back and the rest of CR1 is kept |
| AdcF4.DiscontinuousRegularAsWritten | lib/stm32/f4/adc.c:200-205 | lengths above 8 change nothing; otherwise DISCEN is set and the rest of CR1, DISCNUM included, is kept, while only bits 13..17 of CR2 may change |
| AdcF4.DiscontinuousRegularAsWrittenCounterexample | lib/stm32/f4/adc.c:204 | length 3 leaves DISCNUM 0 and sets a bit of CR2 |
| AdcF4.DiscontinuousRegular | lib/stm32/f4/adc.c:200-205 | for lengths 1..8 DISCEN is set, DISCNUM is length - 1 and nothing else changes; other lengths change nothing |
| AdcF4.DisableDiscontinuousRegular | lib/stm32/f4/adc.c:213-216 | DISCEN is cleared and nothing else changes |
| AdcF4.SetCr2BitAsWritten | lib/stm32/f4/adc.c:927-966 | the EOCS or DDS bit is applied to CR1, and CR2 is unchanged |
| AdcF4.SetCr2BitAsWrittenCounterexample | lib/stm32/f4/adc.c:929 | selecting end of conversion after each conversion sets bit 10 of CR1, not EOCS of CR2 |
| AdcF4.SetCr2Bit | lib/stm32/f4/adc.c:927-966 | EOCS or DDS of CR2 is set or cleared; CR1 and the rest of CR2 are kept |
| AdcF4.ExternalTriggerAsWritten | lib/stm32/f4/adc.c:483-489 | the trigger and polarity are or-ed into CR2 without clearing the fields |
| AdcF4.ExternalTriggerAsWrittenCounterexample | lib/stm32/f4/adc.c:483-489 | switching from trigger 1 to trigger 2 selects trigger 3 |
| AdcF4.ExternalTrigger | lib/stm32/f4/adc.c:483-519 | for the regular (EXTSEL/EXTEN) or injected (JEXTSEL/JEXTEN) fields, a trigger and polarity that fit them become their value and nothing else changes |
| AdcF4.ReadInjected | lib/stm32/f4/adc.c:903-916 | registers 1..4 read JDR1..4; any other number reads 0 |
| AdcF4.SetInjectedOffset | lib/stm32/f4/adc.c:980-996 | offset register 1..4 takes the offset; other numbers and other registers are unchanged |
| AdcF0.ChannelMaskSelects | lib/stm32/f0/adc.c:534-554 | a channel's CHSELR bit is set exactly when the channel is in the list |
| AdcF0.StepsUpWitness | lib/stm32/f0/adc.c:538-552 | the "increasing" flag is set exactly when some adjacent pair increases |
| AdcF0.StepsDownWitness | lib/stm32/f0/adc.c:538-552 | the "decreasing" flag is set exactly when some adjacent pair decreases |
| AdcF0.NoStepDownAscending | lib/stm32/f0/adc.c:538-552 | a list with no decreasing pair is in ascending order |
| AdcF0.NoStepUpDescending | lib/stm32/f0/adc.c:538-552 | a list with no increasing pair is in descending order |
| AdcF0.ScanDirection | lib/stm32/f0/adc.c:547-552 | SCANDIR is set exactly for a downward scan and nothing else changes |
| AdcF0.ScanChannels | lib/stm32/f0/adc.c:534-542 | the loop's bitmask is the OR of the channels' bits, and its flags record an increasing and a decreasing pair |
| AdcF0.SetRegularSequence | lib/stm32/f0/adc.c:523-555 | length 0 clears CHSELR only. A list with both an increasing and a decreasing pair reaches the not-reached assertion. Otherwise CHSELR is the list's bitmask, SCANDIR is set exactly for a decreasing list, and no other CFGR1 bit changes |
| AdcF0.SetOperationMode | lib/stm32/f0/adc.c:155-172 | sequential: DISCEN set, CONT clear; scan: both clear; infinite scan: CONT set, DISCEN clear; grouped: unchanged; nothing else changes |
| AdcF0.SetContinuous | lib/stm32/f0/adc.c:57-74 | CONT is set or cleared and nothing else changes |
| AdcF0.SetDiscontinuous | lib/stm32/f0/adc.c:82-96 | DISCEN is set or cleared and nothing else changes |
| AdcF0.OperationModeIsToggles | lib/stm32/f0/adc.c:155-172 | each operation mode gives the same CFGR1 as the matching continuous and discontinuous setters |
| AdcF0.WatchdogOnAllChannels | lib/stm32/f0/adc.c:776-780 | AWDEN set and AWDSGL cleared; nothing else changes |
| AdcF0.WatchdogOnChannel | lib/stm32/f0/adc.c:789-795 | AWDCH is the channel, AWDEN and AWDSGL are set, and nothing else changes |
| AdcF0.DisableWatchdog | lib/stm32/f0/adc.c:802-805 | AWDEN is cleared and nothing else changes |
| AdcF0.DisableThenEnableAll | lib/stm32/f0/adc.c:776-805 | disabling before enabling on all channels makes no difference, and keeps AWDCH |
| AdcF0.SetHighThreshold | lib/stm32/f0/adc.c:814-817 | HT holds the threshold and LT is kept |
| AdcF0.SetLowThreshold | lib/stm32/f0/adc.c:826-829 | LT holds the threshold and HT is kept |
| AdcF0.ThresholdsCommute | lib/stm32/f0/adc.c:814-829 | setting the two thresholds in either order gives the same register |
| AdcF0.HighAfterLow | lib/stm32/f0/adc.c:814-829 | low then high gives both thresholds with the other bits kept |
| AdcF0.LowAfterHigh | lib/stm32/f0/adc.c:814-829 | high then low gives both thresholds with the other bits kept |
| AdcF0.SetClockSource | lib/stm32/f0/adc.c:501-504 | CKMODE takes the source's bits; an in-field source reads back and the rest of CFGR2 is kept |
| AdcF0.SetResolution | lib/stm32/f0/adc.c:582-585 | RES takes the resolution's bits; an in-field resolution reads back and the rest of CFGR1 is kept |
| AdcF0.SetSampleTime | lib/stm32/f0/adc.c:567-570 | SMPR holds the time masked to 3 bits |
| SpiV3.SetControl | lib/stm32/common/spi_common_v3.c:288-677 | each single-bit setter and its counterpart sets or clears its control's bit and keeps every other bit |
| SpiV3.SetControlUndo | lib/stm32/common/spi_common_v3.c:288-677 | each enable/disable pair undoes the other when the bit started in the opposite state |
| SpiV3.SoftwareSlaveManagement | lib/stm32/common/spi_common_v3.c:365-384 | SSM follows the switch; enabling also sets SSOE; nothing else changes |
| SpiV3.Disable | lib/stm32/common/spi_common_v3.c:134-141 | SPE is cleared and the rest of CR1 is kept |
| SpiV3.SetBaudratePrescaler | lib/stm32/common/spi_common_v3.c:449-460 | values above 7 change nothing; otherwise MBR holds the value and nothing else changes |
| SpiV3.SetComm | lib/stm32/common/spi_common_v3.c:256-355 | COMM reads back as the mode and nothing else of CFG2 changes |
| SpiV3.SetCommLastWins | lib/stm32/common/spi_common_v3.c:256-355 | setting two modes in a row is setting the last one |
| SpiV3.SetFullDuplexMode | lib/stm32/common/spi_common_v3.c:338-342 | COMM is full duplex and nothing else changes |
| SpiV3.SetReceiveOnlyMode | lib/stm32/common/spi_common_v3.c:351-355 | COMM is simplex receiver and nothing else changes |
| SpiV3.SetBidirectionalReceiveOnlyMode | lib/stm32/common/spi_common_v3.c:256-260 | COMM is half duplex and nothing else changes |
| SpiV3.SetBidirectionalTransmitOnlyMode | lib/stm32/common/spi_common_v3.c:272-276 | COMM is half duplex and nothing else changes |
| SpiV3.BidirectionalModesAgree | lib/stm32/common/spi_common_v3.c:256-276 | the two bidirectional setters give the same register |
| SpiV3.SetTransferSize | lib/stm32/common/spi_common_v3.c:315-325 | EOT is acknowledged exactly when set; TSIZE holds the size and CSTART is set, with the rest kept |
| SpiV3.SetDataSize | lib/stm32/common/spi_common_v3.c:803-807 | a size up to 0x1F is placed in DSIZE and nothing else changes |
| SpiV3.SetCrcLength | lib/stm32/common/spi_common_v3.c:779-795 | CRCSIZE becomes 7 (8-bit) or 15 (16-bit) and nothing else changes |
| SpiV3.SetFifoThreshold | lib/stm32/common/spi_common_v3.c:815-831 | FTHLV becomes one or two data frames and nothing else changes |
| SpiV3.SetStandardModeAsWritten | lib/stm32/common/spi_common_v3.c:694-702 | modes above 3 change nothing; otherwise CPOL and CPHA end up clear, the mode number is or-ed into bits 0..1 (MSSI), and every other bit is kept |
| SpiV3.SetStandardModeAsWrittenCounterexample | lib/stm32/common/spi_common_v3.c:701 | mode 3 writes the MSSI bits 0..1 instead of CPOL and CPHA |
| SpiV3.SetStandardMode | lib/stm32/common/spi_common_v3.c:694-702 | for modes 0..3, CPOL is set for modes 2 and 3 and CPHA for modes 1 and 3; other modes change nothing; other bits are kept |
| SpiV3.StandardModeIsPolarityAndPhase | lib/stm32/common/spi_common_v3.c:491-530 | each standard mode is the matching clock-polarity and clock-phase settings |
| SpiV3.EnableAsWritten | lib/stm32/common/spi_common_v3.c:119-123 | SPE set in CR1, and the AFCNTR bit set in CFG1 |
| SpiV3.EnableAsWrittenCounterexample | lib/stm32/common/spi_common_v3.c:122 | enabling leaves AFCNTR of CFG2 clear |
| SpiV3.Enable | lib/stm32/common/spi_common_v3.c:119-123 | SPE is set and AFCNTR of CFG2 is set; nothing else changes |
| SpiV3.EnableThenDisable | lib/stm32/common/spi_common_v3.c:119-141 | disabling after enabling clears SPE, restoring CR1 if it was off |
| SpiV3.ErrorInterruptAsWritten | lib/stm32/common/spi_common_v3.c:582-596 | the error-interrupt enables are written to CR2 |
| SpiV3.ErrorInterruptAsWrittenCounterexample | lib/stm32/common/spi_common_v3.c:584 | enabling error interrupts changes the transfer size from 16 to 400 |
| SpiV3.ErrorInterrupt | lib/stm32/common/spi_common_v3.c:582-596 | TIFREIE and CRCEIE of IER are set or cleared; nothing else changes |
| SpiV3.MasterCfg2 | lib/stm32/common/spi_common_v3.c:732-752 | master mode and SS output on, polarity, phase and frame order as asked, the other bits of CFG2 kept |
| SpiV3.InitMasterAsWritten | lib/stm32/common/spi_common_v3.c:721-755 | CFG1 becomes 1 or 0, the truth of `br < 7`; CFG2 and SPE as in the corrected version |
| SpiV3.InitMasterAsWrittenCounterexample | lib/stm32/common/spi_common_v3.c:730 | a prescaler of 2 wipes CFG1 to 1, losing the data size and FIFO threshold |
| SpiV3.InitMaster | lib/stm32/common/spi_common_v3.c:721-755 | MBR holds a prescaler up to 7 with the rest of CFG1 kept, and a larger one leaves CFG1 alone; SPE set; CFG2 configured as a master; CR2 and IER kept |
| UsbhDwcOtg.NextMultOf4 | lib/usbh/backend/usbh_dwc_otg.c:53-68 | the least multiple of 4 not below the value |
| UsbhDwcOtg.NextMultOf4Examples | lib/usbh/backend/usbh_dwc_otg.c:60-63 | 0, 1, 3, 4 and 6 round to 0, 4, 4, 4 and 8 |
| UsbhDwcOtg.PacketCount | lib/usbh/backend/usbh_dwc_otg.c:44-51 | one packet for a zero-length transfer; otherwise the least count whose packets cover the length |
| UsbhDwcOtg.PacketCountExact | lib/usbh/backend/usbh_dwc_otg.c:44-51 | the packets exactly fill the length iff it is a multiple of the endpoint size; the count is len/size, rounded up |
| UsbhDwcOtg.WindowLow | lib/usbh/backend/usbh_dwc_otg.c:232-242 | the submit frame, or the frame before it (wrapping 0 to 0x3FFF) for a periodic transfer |
| UsbhDwcOtg.WindowHigh | lib/usbh/backend/usbh_dwc_otg.c:233 | 0x1FFF frames after the submit frame, modulo 0x4000 |
| UsbhDwcOtg.WindowByDistance | lib/usbh/backend/usbh_dwc_otg.c:246-259 | a frame is in the window iff it is at most 0x1FFF frames after the submit frame, or, for a periodic transfer, the frame just before |
| UsbhDwcOtg.SubmitFrameInWindow | lib/usbh/backend/usbh_dwc_otg.c:246-259 | the submit frame is always in the window |
| UsbhDwcOtg.FarFrameOutsideWindow | lib/usbh/backend/usbh_dwc_otg.c:246-259 | a frame 0x2000 or more frames after the submit frame, and not the one just before it, is outside |
| UsbhDwcOtg.ScheduleChannel | lib/usbh/backend/usbh_dwc_otg.c:216-269 | a waiting channel whose window holds the frame stops waiting and has CHENA set; any other channel is unchanged; only CHENA and the flag can change |
| UsbhDwcOtg.ScheduleChannels | lib/usbh/backend/usbh_dwc_otg.c:216-269 | every channel is scheduled independently and stays consistent |
| UsbhDwcOtg.FreeChannel | lib/usbh/backend/usbh_dwc_otg.c:428-442 | the lowest FREE channel, or -1 exactly when none is free |
| UsbhDwcOtg.Characteristics | lib/usbh/backend/usbh_dwc_otg.c:500-509 | CHENA set and CHDIS clear; MCNT is 1; direction, odd frame, low speed and endpoint type as asked; the address, endpoint and size fields are the transfer's |
| UsbhDwcOtg.ChannelFlags | lib/usbh/backend/usbh_dwc_otg.c:500-506 | the flag bits lie outside the endpoint fields: CHENA set, CHDIS clear, MCNT 1, and direction, odd frame, low speed and endpoint type as asked |
| UsbhDwcOtg.EpTypeCode | lib/usbh/backend/usbh_dwc_otg.c:500-509 | a 2-bit endpoint type code |
| UsbhDwcOtg.EndpointFields | lib/usbh/backend/usbh_dwc_otg.c:500-509 | DAD holds the device address (7 bits), EPNUM the endpoint number (4 bits) and MPSIZ the packet size (11 bits); nothing lies outside these fields |
| UsbhDwcOtg.TransferSize | lib/usbh/backend/usbh_dwc_otg.c:625-628 | DPID, PKTCNT (10 bits of the count) and XFRSIZ read back from HCTSIZ |
| UsbhDwcOtg.SetupStage | lib/usbh/backend/usbh_dwc_otg.c:484-512 | SETUP state; one 8-byte MDATA packet on an OUT control channel; all interrupts unmasked and acknowledged; not waiting |
| UsbhDwcOtg.DataStage | lib/usbh/backend/usbh_dwc_otg.c:520-556 | DATA_OUT for host-to-device requests, else DATA_IN; DATA1 packets covering the length, in the request's direction |
| UsbhDwcOtg.StatusStage | lib/usbh/backend/usbh_dwc_otg.c:564-590 | STATUS_IN after a host-to-device request, else STATUS_OUT; one empty DATA1 packet in the direction opposite to the data |
| UsbhDwcOtg.BulkPacketCount | lib/usbh/backend/usbh_dwc_otg.c:606-621 | the packet count the length needs, or one more modulo 2^16 (`pktcnt` is a `uint16_t`), and the extra packet only for a non-empty OUT transfer with the zero-packet flag |
| UsbhDwcOtg.BulkZeroLengthPacket | lib/usbh/backend/usbh_dwc_otg.c:614-621 | a non-empty OUT transfer with the zero-packet flag and a length that is a multiple of the endpoint size gets exactly one extra packet; otherwise the plain count |
| UsbhDwcOtg.TogglePid | lib/usbh/backend/usbh_dwc_otg.c:605-626 | DATA0 or DATA1, and DATA1 exactly when the device's toggle bit for the endpoint is set |
| UsbhDwcOtg.BulkTransfer | lib/usbh/backend/usbh_dwc_otg.c:597-643 | CALLBACK state; bulk characteristics in the endpoint's direction; the toggle PID, packet count and length in HCTSIZ |
| UsbhDwcOtg.InterruptTransfer | lib/usbh/backend/usbh_dwc_otg.c:650-689 | CALLBACK state; the transfer goes out in the next frame, whose parity sets ODDFRM |
| UsbhDwcOtg.StartTransfer | lib/usbh/backend/usbh_dwc_otg.c:712-724 | control starts at SETUP; bulk and interrupt at CALLBACK; isochronous changes nothing |
| UsbhDwcOtg.Submit | lib/usbh/backend/usbh_dwc_otg.c:697-726 | with no free channel nothing changes. Otherwise the lowest free channel gets the request block, tagged with that channel's index, and the transfer is started there |
| UsbhDwcOtg.Cancel | lib/usbh/backend/usbh_dwc_otg.c:733-757 | an untagged request block is left alone; otherwise its tag is invalidated and its channel cancelled, with the other channels kept |
| UsbhDwcOtg.CancelledChannel | lib/usbh/backend/usbh_dwc_otg.c:742-756 | CANCELLED with no request block and not waiting; only CHH unmasked, all flags acknowledged, HCTSIZ 0, and the channel asked to halt |
| UsbhDwcOtg.CancelThenHalt | lib/usbh/backend/usbh_dwc_otg.c:733-800 | after a cancel, the halted interrupt turns the channel FREE with every interrupt masked |
| UsbhDwcOtg.ResetChannelAsWritten | lib/usbh/backend/usbh_dwc_otg.c:153-171 | the cancelled channel, but with the waiting flag as it was |
| UsbhDwcOtg.ResetChannelAsWrittenCounterexample | lib/usbh/backend/usbh_dwc_otg.c:159-164 | a waiting channel is left waiting with no request block, which the next scheduling pass dereferences |
| UsbhDwcOtg.ResetChannel | lib/usbh/backend/usbh_dwc_otg.c:153-171 | CANCELLED, no request block and not waiting |
| UsbhDwcOtg.ResetChannels | lib/usbh/backend/usbh_dwc_otg.c:153-171 | every channel is reset; each request block that was attached is released with its tag invalidated |
| UsbhDwcOtg.ResetThenSchedule | lib/usbh/backend/usbh_dwc_otg.c:365-375 | the scheduling pass after a disconnect leaves a reset channel alone, whatever the frame |
| UsbhDwcOtg.FirstError | lib/usbh/backend/usbh_dwc_otg.c:910-931 | none exactly when no error flag is set; otherwise the first set flag in the order STALL, data toggle error, babble, frame overrun, transaction error, with its status (the last two an I/O error) |
| UsbhDwcOtg.NextPeriod | lib/usbh/backend/usbh_dwc_otg.c:813-820 | the submit frame advances by the interval modulo 0x4000, and ODDFRM follows its parity |
| UsbhDwcOtg.OnNak | lib/usbh/backend/usbh_dwc_otg.c:802-845 | a non-periodic channel is re-enabled and nothing else changes. A periodic one moves to its next period and its frame parity; it waits when the interval exceeds 1, and is otherwise re-enabled at once. Only the submit frame, the waiting flag, ODDFRM and CHENA can change |
| UsbhDwcOtg.OnAck | lib/usbh/backend/usbh_dwc_otg.c:847-908 | OUT endpoints flip their toggle. The next packet is pushed on a control DATA_OUT stage or an OUT bulk or periodic endpoint. Control and bulk channels are kept; periodic ones change as `AckPeriodic` states. Only the submit frame, the waiting flag, ODDFRM, CHENA and CHDIS can change |
| UsbhDwcOtg.AckPeriodic | lib/usbh/backend/usbh_dwc_otg.c:868-892 | the submit frame advances by the interval modulo 0x4000 and ODDFRM follows its parity. With an interval above 1 and packets left, the channel waits and has CHENA and CHDIS set; otherwise it is just moved to the next period |
| UsbhDwcOtg.WaitHalted | lib/usbh/backend/usbh_dwc_otg.c:886-891 | the channel is marked as waiting with CHENA and CHDIS set; every other field and bit is kept |
| UsbhDwcOtg.OnComplete | lib/usbh/backend/usbh_dwc_otg.c:940-962 | SETUP goes to DATA when wLength is non-zero, else to STATUS. DATA goes to STATUS. STATUS and CALLBACK finish successfully. FREE and CANCELLED change nothing |
| UsbhDwcOtg.ControlTransferStages | lib/usbh/backend/usbh_dwc_otg.c:484-590 | a control request with data passes SETUP, DATA and STATUS, then finishes successfully |
| UsbhDwcOtg.OnHalt | lib/usbh/backend/usbh_dwc_otg.c:772-789 | CHH is acknowledged; a CANCELLED channel becomes FREE with every interrupt masked; any other channel keeps its state |
| UsbhDwcOtg.OnBusy | lib/usbh/backend/usbh_dwc_otg.c:802-962 | NAK is handled first, then ACK, then the first error, then transfer complete, each acknowledging its flag |
| UsbhDwcOtg.ChannelInterrupt | lib/usbh/backend/usbh_dwc_otg.c:766-970 | a halted channel is handled as a halt; a FREE or CANCELLED one is ignored; only a busy channel can finish its request block |
| UsbhDwcOtg.ChannelInterruptAttached | lib/usbh/backend/usbh_dwc_otg.c:766-970 | a channel that is busy or waiting keeps a request block through interrupt handling |
| UsbhDwcOtg.DiscardAsWritten | lib/usbh/backend/usbh_dwc_otg.c:1029-1031 | the loop as written finishes exactly when `j` already covers the packet length, because it never advances `j`, and the count of words read is then unchanged |
| UsbhDwcOtg.DiscardAsWrittenCounterexample | lib/usbh/backend/usbh_dwc_otg.c:1029 | the discard loop as written never finishes for a non-empty packet |
| UsbhDwcOtg.Discard | lib/usbh/backend/usbh_dwc_otg.c:1027-1031 | the FIFO words read are the fewest that cover the packet |
| UsbhDwcOtg.Resume | lib/usbh/backend/usbh_dwc_otg.c:1038-1040 | the channel is re-enabled exactly when packets remain; nothing else changes |
| UsbhDwcOtg.RxPacket | lib/usbh/backend/usbh_dwc_otg.c:979-1050 | non-IN or empty packets are ignored. A short packet under the no-short-packet flag is discarded and finishes with a short-packet error. Any other packet is copied, the channel resumed and the toggle flipped |

## Left out

- Memory-mapped I/O is not modelled. Each call is a function of the register values it reads, and a write-1-to-clear register (DMA LIFCR/HIFCR, USB HCINT) is given the effect of the write.
- Busy waits and polling are not modelled: `adc_start_conversion_*`, the end-of-conversion reads, `fdcan_cccr_init_cfg`'s timeout loop, `spi_read`, `spi_send`, `spi_xfer`, `spi_clean_disable`, and `core_reset` and `prepare_fifo` in the USB backend. Their results depend on the hardware changing registers between reads.
- Peripheral reset through the RCC (`spi_reset`, `rcc_periph_reset_pulse`) is left out. It is a call into code that is not part of this model.
- Payload copying is left out: the FDCAN data words, `fdcan_get_msgram_addr`, and USB `fifo_to_memory`/`memory_to_fifo`. The USB model records only that a packet is pushed or copied (`Action.push`, `Rx.copied`).
- `usbh_urb_free`, `usbh_urb_get_data_pointer` and `usbh_root_device_disconnected` are events only: `Action.finish` carries the status the request block is finished with.
- USB port connect, reset and speed negotiation in `usbh_dwc_otg_poll` are left out. They are timing-driven.
- USB isochronous submission is modelled as the source has it: the channel receives the request block and stays FREE, because the source leaves isochronous transfers unimplemented.
- `cm3_assert_not_reached` in the F0 `adc_set_regular_sequence` is the `Unordered` outcome. No register is written on that path.
- The register headers for the F0 ADC, the SPI v3 peripheral and the USB backend's private headers are not part of this model. The F0 ADC bit positions follow the STM32F0 reference manual (RM0091), and the SPI v3 positions the STM32H7 reference manual (RM0433). `DIV_AND_CEIL` is taken to be ceiling division, and `IS_OUT_ENDPOINT` to be "bit 7 of the endpoint address clear".
- Fdcan.GetIndex, Fdcan.AvailableRx, Fdcan.Receive and Fdcan.ReleaseFifo: `FDCAN_RXFIFO_FL_MASK`, `FDCAN_RXFIFO_GI_MASK` and `FDCAN_RXFIFO_AI_MASK` are defined in the G4 and H7 family headers, which are not part of this model. The fields are taken at their G4 widths, as fdcan.h's `F0FL[3:0]` and `F0GI[1:0]` comments give them: fill level 0xF, get index 0x3. On H7 the fields are 7 and 6 bits wide, so an H7 fill level of 16 or more, or a get index of 4 or more, is read differently by the model.
- AdcF0.SetRegularSequence: requires every listed channel below 32 (`ChannelsInRange`, also on `ChannelMask`). This excludes only C's undefined `1 << channel` for channels of 32 and above; the source documents channels 0..18.
- UsbhDwcOtg.ScheduleChannel: the frame is taken as FRNUM below 0x4000, the 14 bits the core counts. The header's FRNUM mask is 16 bits wide.
- UsbhDwcOtg.DiscardAsWritten: the non-terminating loop is given a fuel bound, so "never finishes" is stated as "returns no result for any amount of fuel".
- Fdcan.StdFilter: the list mode and action codes are required to fit their fields, as the driver's comment tells callers to pass its defined constants. Out-of-range codes overflowing into neighbouring fields are not modelled.
- Fdcan.ExtFilter: the same requirement on the list mode and action codes.
- AdcF4.RegularSequence: its own contract covers only the rejected lengths. The slot placement is stated by `RegularSequenceReadBack` and `RegularSequenceRoundTrip`.
- AdcF4.ChangeSingleChannel: its own contract covers only the ignored locations. Replacement and appending are stated by `ChangeSingleChannelReplaces` and `ChangeSingleChannelAppends`.
- TimerCommon.InterruptSource: its own contract states one direction. The converse, for a single flag, is `InterruptSourceBit`.
- Timer and DMA setters that or the whole argument into the register (`timer_set_mode`, `dma_set_priority` and similar) are stated for arbitrary arguments. Bits of an out-of-field argument leak into the rest of the register, as in the source.
- The remaining F4 ADC API (power on/off, the injected-group switches, the temperature sensor and the multi-ADC mode) consists of single-bit or whole-field writes like those modelled, and is left out.
- Fdcan.Transmit: built on the corrected `LengthToDlc` and `PackId`. As written, the source encodes length 80 as DLC 16 and puts XTD at bit 20 instead of bit 30 (see "## Findings").
- Fdcan.Receive: built on the corrected `UnpackId`, which reads XTD at bit 30 (see "## Findings").
- UsbhDwcOtg.ResetChannels: built on the corrected `ResetChannel`, which also clears the waiting flag. As written, the source keeps it (see "## Findings").
- UsbhDwcOtg.RxPacket: built on the terminating `Discard`. As written, the source's discard loop never ends (see "## Findings").
- AdcF4.SetSampleTime: requires a channel up to 18. The source accepts any channel; above 18 its shift runs past SMPR1's fields, and that write is not modelled.
- AdcF4.ChangeSingleChannelAsWritten: requires a location from 1. At location 0 the source shifts by `(0 - 1) * 5`, a negative amount, which C leaves undefined. The slot contents are stated for channels below 32 only; a larger channel spills into the next slot, as in `Pack`.
- DmaF24.ClearInterruptFlags: requires the flags to lie in one stream's group (0x3D), because the argument's documentation refers callers to `dma_if_offset`. Bits outside the group would clear another stream's flags, and that is not modelled.
- DmaF24.GetInterruptFlag: its contract speaks of flags in the group (0x3D) only, for the same reason. The function itself takes any argument.
- UsbhDwcOtg.Submit: requires a non-zero packet size for bulk and interrupt transfers with data; the completion handlers require it when a SETUP stage is followed by a data stage. Those are the paths where the source divides by `ep_size`. The SETUP and STATUS stages and empty transfers never divide and carry no such requirement.
- Floating point and concurrency do not occur in the modelled code.

## Findings

| source | as written | input that shows it | evidently intended | confidence | as-written member | corrected member |
|---|---|---|---|---|---|---|
| lib/stm32/common/fdcan.c:197-199 | lengths above 24 that are multiples of 16 encode as 11 + length/16 | length 80 gives DLC 16, which is not a DLC | only 32, 48 and 64 encode; any other length returns 0xFF | not executed | Fdcan.LengthToDlcOversizeCounterexample | Fdcan.LengthToDlc |
| include/libopencm3/stm32/fdcan.h:701 | the extended-identifier flag is bit 20, inside the 29-bit identifier | standard identifier 4 is received as extended identifier 0x100000 | XTD is bit 30 of word 0, as the common FDCAN header defines it | not executed | Fdcan.XtdAsWrittenCounterexample | Fdcan.IdRoundTrip |
| lib/stm32/common/fdcan.c:711-715 | get index and fill level are masked with their shift constants | one frame pending at get index 1: nothing is acknowledged | mask with the fields' masks and acknowledge the get index | not executed | Fdcan.ReleaseFifoCounterexample | Fdcan.ReleaseFifo |
| lib/stm32/common/dma_common_f24.c:343-346 | the channel is or-ed into CR without clearing CHSEL | channel 5 then channel 2 selects channel 7 | CHSEL replaced by the channel | not executed | DmaF24.ChannelSelectMergesCounterexample | DmaF24.ChannelSelectLastWins |
| include/libopencm3/stm32/common/dma_common_f24.h:547-552 | the three "less than full" FIFO levels are defined unshifted as 1, 2, 3 | no FCR value gives a status equal to them | the level codes shifted to the FS field | not executed | DmaF24.FifoStatusAsWrittenUnreachable | DmaF24.FifoStatusIsPlacedCode |
| lib/stm32/f1/timer.c:1764 | `in = TIM_IC_IN_TI2` assigns instead of comparing | TIM_IC_OUT on channel 2 selects input TI2 | swap TI1 and TI2 only, as the common driver does | not executed | TimerF1.IcSetInputAsWrittenCounterexample | TimerCommon.IcSetInput |
| lib/stm32/f1/timer.c:906-969 | OC3/OC4 clear the CCxS bits in CCMR1, and ACTIVE is or-ed into CCMR1 | OC3 set to ACTIVE on input channels 1 and 3 changes channel 1 | configure channel 3 or 4 in CCMR2 only | not executed | TimerF1.SetOcModeAsWrittenCounterexample | TimerCommon.SetOcMode |
| lib/stm32/f1/timer.c:1729 | the IC3 prescaler code is shifted by 4 | divide-by-2 on channel 3 reads back as off | shift by 2, as for the other channels | not executed | TimerF1.IcSetPrescalerAsWrittenCounterexample | TimerCommon.IcSetPrescaler |
| lib/stm32/f4/adc.c:204 | DISCNUM is written to CR2 as length + 1 | length 3 leaves DISCNUM 0 and sets CR2 bit 15 | CR1 DISCNUM = length - 1 | not executed | AdcF4.DiscontinuousRegularAsWrittenCounterexample | AdcF4.DiscontinuousRegular |
| lib/stm32/f4/adc.c:775-776 | slot 4 - i gets `channel[4 - i]`, the last entries of a four-entry array | sequence [7] of length 1 writes slot 4 empty | the `length` channels fill the last `length` slots in order | not executed | AdcF4.InjectedSequenceAsWrittenCounterexample | AdcF4.InjectedSequenceReadBack |
| lib/stm32/f4/adc.c:793 | the resolution is passed as a 16-bit value | RES code 2 (0x2000000) is truncated to 0 | a 32-bit argument | not executed | AdcF4.SetResolutionAsWrittenCounterexample | AdcF4.SetResolution |
| lib/stm32/f4/adc.c:929 | EOCS and DDS (CR2 bits) are applied to CR1 | end of conversion after each conversion sets CR1 bit 10 | set or clear them in CR2 | not executed | AdcF4.SetCr2BitAsWrittenCounterexample | AdcF4.SetCr2Bit |
| lib/stm32/f4/adc.c:483-489 | a masked copy of CR2 is or-ed back, so old trigger bits stay | trigger 1 then trigger 2 selects trigger 3 | the trigger fields replaced | not executed | AdcF4.ExternalTriggerAsWrittenCounterexample | AdcF4.ExternalTrigger |
| lib/stm32/f4/adc.c:1030-1050 | L is written as the old L - 1 and every other slot is cleared | location 2 of [1, 2, 3] set to 5 gives [0, 5] | replace the channel at the location and keep the rest | not executed | AdcF4.ChangeSingleChannelAsWrittenCounterexample | AdcF4.ChangeSingleChannelReplaces |
| lib/stm32/common/spi_common_v3.c:701 | the mode is or-ed into bits 0..1 (MSSI) | mode 3 writes 3 to CFG2 and leaves CPOL and CPHA clear | CPOL = mode bit 1, CPHA = mode bit 0 | not executed | SpiV3.SetStandardModeAsWrittenCounterexample | SpiV3.StandardModeIsPolarityAndPhase |
| lib/stm32/common/spi_common_v3.c:122 | the CFG2 AFCNTR bit is set in CFG1 | enabling leaves CFG2's AFCNTR clear | set AFCNTR in CFG2 | not executed | SpiV3.EnableAsWrittenCounterexample | SpiV3.Enable |
| lib/stm32/common/spi_common_v3.c:584 | the IER error-interrupt bits are written to CR2 | enabling turns transfer size 16 into 400 | write them to IER | not executed | SpiV3.ErrorInterruptAsWrittenCounterexample | SpiV3.ErrorInterrupt |
| lib/stm32/common/spi_common_v3.c:730 | CFG1 is assigned the comparison `br < SPI_CFG1_MBR_MASK` | prescaler 2 sets CFG1 to 1, wiping the data size | MBR replaced by the prescaler, the rest of CFG1 kept | not executed | SpiV3.InitMasterAsWrittenCounterexample | SpiV3.InitMaster |
| lib/usbh/backend/usbh_dwc_otg.c:159-164 | the request block is dropped but the waiting flag is kept | a channel waiting for its frame when the device disconnects | clear the waiting flag too | not executed | UsbhDwcOtg.ResetChannelAsWrittenCounterexample | UsbhDwcOtg.ResetThenSchedule |
| lib/usbh/backend/usbh_dwc_otg.c:1029 | the discard loop advances `i` instead of `j` | any short packet under the no-short-packet flag | step `j` by 4 until the packet is read | not executed | UsbhDwcOtg.DiscardAsWrittenCounterexample | UsbhDwcOtg.Discard |
