/**
 * The STM32F4 ADC driver's register arithmetic: regular and injected
 * conversion sequences packed as 5-bit channel slots, per-channel sample
 * times, the watchdog thresholds and channel, discontinuous mode, the
 * external trigger fields, the prescaler and resolution fields, and the
 * injected data and offset registers. Six functions are modelled both as
 * written and as intended, each with a lemma exhibiting the difference.
 *
 * Register layout: SQR1 L at bits 20..23, JSQR JL at bits 20..21, 5-bit
 * channel slots from bit 0 in SQR1..3 and JSQR; CR1 RES 24..25, DISCNUM
 * 13..15, DISCEN 11, JAUTO 10, AWDSGL 9, AWDCH 0..4; CR2 EXTEN 28..29,
 * EXTSEL 24..27, JEXTEN 20..21, JEXTSEL 16..19, EOCS 10, DDS 9; CCR ADCPRE
 * 16..17.
 */
module AdcF4 {
  import opened Bits

  /*
   * ---------------- Channel slots ----------------
   */

  /** Every channel number fits a 5-bit slot. */
  predicate SlotChannels(s: seq<U8>)
  {
    forall k :: 0 <= k < |s| ==> s[k] < 32
  }

  /**
   * Channels or-ed into a sequence register, the `k`-th shifted to bit
   * `5 * k`, as the driver's loops place them. The channel is shifted but
   * not masked, so a number of 32 or more spills into the next slot.
   */
  function Pack(s: seq<U8>): Reg
  {
    if |s| == 0 then 0 else (s[0] as Reg) | (Pack(s[1..]) << 5)
  }

  /** The channel the hardware reads from slot `k`: bits `5 * k` to `5 * k + 4`. */
  function SlotValue(r: Reg, k: nat): (c: U8)
    ensures c < 32
  {
    if k == 0 then r & 0x1F else SlotValue(r >> 5, k - 1)
  }

  /** The channels in slots `lo` to `hi - 1` of a register. */
  function Unpack(r: Reg, lo: nat, hi: nat): (s: seq<U8>)
    requires lo <= hi
    ensures |s| == hi - lo
    ensures forall k :: 0 <= k < hi - lo ==> s[k] == SlotValue(r, lo + k)
  {
    seq<U8>(hi - lo, k requires 0 <= k < hi - lo => SlotValue(r, lo + k))
  }

  /** The bits of the first `n` slots. */
  function SlotMask(n: nat): (m: Reg)
    requires n < 7
    ensures n <= 4 ==> m & !0xF_FFFF == 0
  {
    [0, 0x1F, 0x3FF, 0x7FFF, 0xF_FFFF, 0x1FF_FFFF, 0x3FFF_FFFF][n]
  }

  lemma SlotMaskStep(n: nat)
    requires 1 <= n < 7
    ensures SlotMask(n) == (SlotMask(n - 1) << 5) | 0x1F
  {
  }

  /** Packed channels below 32 occupy only their own slots. */
  lemma {:induction false} PackWithin(s: seq<U8>)
    requires |s| < 7 && SlotChannels(s)
    ensures Pack(s) & !SlotMask(|s|) == 0
  {
    if |s| > 0 {
      PackWithin(s[1..]);
      SlotMaskStep(|s|);
    }
  }

  /** Slot `k` of a packed run holds the run's `k`-th channel. */
  lemma {:induction false} SlotOfPack(s: seq<U8>, k: nat)
    requires |s| <= 6 && SlotChannels(s) && k < |s|
    ensures SlotValue(Pack(s), k) == s[k]
  {
    if k > 0 {
      PackWithin(s[1..]);
      assert Pack(s) >> 5 == Pack(s[1..]);
      SlotOfPack(s[1..], k - 1);
    }
  }

  lemma AgreeShifted(x: Reg, y: Reg, m: Reg)
    requires Agree(x, y, (m << 5) | 0x1F)
    ensures Agree(x >> 5, y >> 5, m)
  {
  }

  /** Slot `k` depends only on the bits of the first `k + 1` slots. */
  lemma {:induction false} SlotValueAgree(x: Reg, y: Reg, k: nat)
    requires k < 6 && Agree(x, y, SlotMask(k + 1))
    ensures SlotValue(x, k) == SlotValue(y, k)
  {
    if k > 0 {
      SlotMaskStep(k + 1);
      AgreeShifted(x, y, SlotMask(k));
      SlotValueAgree(x >> 5, y >> 5, k - 1);
    }
  }

  lemma AgreeBelowHighBits(x: Reg, h: Reg, m: Reg)
    requires h & 0xF_FFFF == 0 && m & !0xF_FFFF == 0
    ensures Agree(x | h, x, m)
  {
  }

  /** Reading back slots `lo..hi` of a packed run gives that part of the run. */
  lemma UnpackPack(s: seq<U8>, lo: nat, hi: nat)
    requires lo <= hi <= |s| <= 6 && SlotChannels(s)
    ensures Unpack(Pack(s), lo, hi) == s[lo..hi]
  {
    forall k | lo <= k < hi
      ensures SlotValue(Pack(s), k) == s[k]
    {
      SlotOfPack(s, k);
    }
  }

  /** A run of `n` empty slots. */
  function Zeros(n: nat): (s: seq<U8>)
    ensures |s| == n && SlotChannels(s)
  {
    seq<U8>(n, k => 0)
  }

  /** Bits from 20 up leave the first four slots alone. */
  lemma UnpackBelowHighBits(x: Reg, h: Reg, lo: nat, hi: nat)
    requires lo <= hi <= 4 && h & 0xF_FFFF == 0
    ensures Unpack(x | h, lo, hi) == Unpack(x, lo, hi)
  {
    forall k | lo <= k < hi
      ensures SlotValue(x | h, k) == SlotValue(x, k)
    {
      AgreeBelowHighBits(x, h, SlotMask(k + 1));
      SlotValueAgree(x | h, x, k);
    }
  }

  /** Up to four packed channels leave bits 20 up to a high-bits value or-ed in. */
  lemma HighBitsOverPack(s: seq<U8>, h: Reg)
    requires |s| <= 4 && SlotChannels(s)
    ensures (Pack(s) | h) >> 20 == h >> 20
  {
    PackWithin(s);
  }

  /*
   * ---------------- Regular and injected sequences ----------------
   */

  /**
   * The length field `(length - 1) << 20` as C computes it: `length` is
   * promoted to `int`, so a length of 0 gives -1 and sets every bit from
   * 20 up.
   */
  function LengthField(length: U8): (r: Reg)
    ensures r & 0xF_FFFF == 0
    ensures length == 0 ==> r == 0xFFF0_0000
    ensures 0 < length ==> r >> 20 == (length as Reg) - 1
  {
    ((length as Reg) - 1) << 20
  }

  function Min(a: int, b: int): int { if a < b then a else b }

  /** The regular sequence registers SQR1..SQR3. */
  datatype Sqr = Sqr(sqr1: Reg, sqr2: Reg, sqr3: Reg)

  /**
   * `adc_set_regular_sequence`: a length above 16 changes nothing;
   * otherwise channels 1..6 fill SQR3, 7..12 SQR2 and 13..16 SQR1, SQR1's L
   * field takes `length - 1`, and every other bit of the three registers
   * is cleared.
   */
  function RegularSequence(q: Sqr, length: U8, channel: seq<U8>): (r: Sqr)
    requires |channel| >= length as int
    ensures length > 16 ==> r == q
  {
    if length > 16 then q
    else
      var n := length as int;
      Sqr(Pack(channel[Min(n, 12)..n]) | LengthField(length),
          Pack(channel[Min(n, 6)..Min(n, 12)]),
          Pack(channel[..Min(n, 6)]))
  }

  /** Up to four channels packed under a length field stay readable. */
  lemma PackUnderLength(s: seq<U8>, length: U8)
    requires |s| <= 4 && SlotChannels(s)
    ensures Unpack(Pack(s) | LengthField(length), 0, |s|) == s
  {
    UnpackPack(s, 0, |s|);
    UnpackBelowHighBits(Pack(s), LengthField(length), 0, |s|);
  }

  /** The length field stays readable over up to four packed channels. */
  lemma LengthOverPack(s: seq<U8>, length: U8)
    requires |s| <= 4 && SlotChannels(s)
    ensures (Pack(s) | LengthField(length)) >> 20 == LengthField(length) >> 20
  {
    HighBitsOverPack(s, LengthField(length));
  }

  /** A part of a run of channels below 32 is one too. */
  lemma SlotChannelsSlice(s: seq<U8>, n: nat, lo: nat, hi: nat)
    requires lo <= hi <= n <= |s| && SlotChannels(s[..n])
    ensures SlotChannels(s[lo..hi])
  {
    assert forall k :: 0 <= k < hi - lo ==> s[lo..hi][k] == s[..n][lo + k];
  }

  /** SQR3 holds the first six channels. */
  lemma Sqr3ReadBack(q: Sqr, length: U8, channel: seq<U8>)
    requires 1 <= length <= 16 && |channel| >= length as int && SlotChannels(channel[..length])
    ensures var n := length as int;
      Unpack(RegularSequence(q, length, channel).sqr3, 0, Min(n, 6)) == channel[..Min(n, 6)]
  {
    var n := length as int;
    SlotChannelsSlice(channel, n, 0, Min(n, 6));
    UnpackPack(channel[..Min(n, 6)], 0, Min(n, 6));
  }

  /** SQR2 holds the seventh to twelfth channels. */
  lemma Sqr2ReadBack(q: Sqr, length: U8, channel: seq<U8>)
    requires 1 <= length <= 16 && |channel| >= length as int && SlotChannels(channel[..length])
    ensures var n := length as int;
      Unpack(RegularSequence(q, length, channel).sqr2, 0, Min(n, 12) - Min(n, 6)) == channel[Min(n, 6)..Min(n, 12)]
  {
    var n := length as int;
    SlotChannelsSlice(channel, n, Min(n, 6), Min(n, 12));
    UnpackPack(channel[Min(n, 6)..Min(n, 12)], 0, Min(n, 12) - Min(n, 6));
  }

  /** SQR1 holds the thirteenth to sixteenth channels under the L field. */
  lemma Sqr1ReadBack(q: Sqr, length: U8, channel: seq<U8>)
    requires 1 <= length <= 16 && |channel| >= length as int && SlotChannels(channel[..length])
    ensures var r, n := RegularSequence(q, length, channel), length as int;
      && Unpack(r.sqr1, 0, n - Min(n, 12)) == channel[Min(n, 12)..n]
      && r.sqr1 >> 20 == (length as Reg) - 1
  {
    var n := length as int;
    SlotChannelsSlice(channel, n, Min(n, 12), n);
    PackUnderLength(channel[Min(n, 12)..n], length);
    LengthOverPack(channel[Min(n, 12)..n], length);
  }

  /**
   * For a sequence of 1 to 16 channels below 32, SQR3's slots read back the
   * first six, SQR2's the next six and SQR1's the rest, and SQR1's L field
   * reads `length - 1`.
   */
  lemma RegularSequenceReadBack(q: Sqr, length: U8, channel: seq<U8>)
    requires 1 <= length <= 16 && |channel| >= length as int && SlotChannels(channel[..length])
    ensures var r, n := RegularSequence(q, length, channel), length as int;
      && Unpack(r.sqr3, 0, Min(n, 6)) == channel[..Min(n, 6)]
      && Unpack(r.sqr2, 0, Min(n, 12) - Min(n, 6)) == channel[Min(n, 6)..Min(n, 12)]
      && Unpack(r.sqr1, 0, n - Min(n, 12)) == channel[Min(n, 12)..n]
      && r.sqr1 >> 20 == (length as Reg) - 1
  {
    Sqr3ReadBack(q, length, channel);
    Sqr2ReadBack(q, length, channel);
    Sqr1ReadBack(q, length, channel);
  }

  /** A zero length is not rejected: SQR1 gets every bit from 20 up, so L reads 16 conversions. */
  lemma RegularSequenceEmpty(q: Sqr, channel: seq<U8>)
    ensures RegularSequence(q, 0, channel) == Sqr(0xFFF0_0000, 0, 0)
  {
  }

  /** The number of conversions SQR1's L field selects: L + 1. */
  function SequenceLength(q: Sqr): (n: nat)
    ensures 1 <= n <= 16
  {
    ((q.sqr1 >> 20) & 0xF) as int + 1
  }

  /**
   * The regular sequence the hardware converts: L + 1 channels, read from
   * SQR3's slots, then SQR2's, then SQR1's.
   */
  function CurrentSequence(q: Sqr): (s: seq<U8>)
    ensures |s| == SequenceLength(q) && SlotChannels(s)
  {
    var n := SequenceLength(q);
    Unpack(q.sqr3, 0, Min(n, 6)) + Unpack(q.sqr2, 0, Min(n, 12) - Min(n, 6)) + Unpack(q.sqr1, 0, n - Min(n, 12))
  }

  lemma LengthOfField(x: Reg, length: U8)
    requires 1 <= length <= 16 && x == (length as Reg) - 1
    ensures (x & 0xF) as int + 1 == length as int
  {
  }

  lemma SplitThree<T>(c: seq<T>, a: nat, b: nat, n: nat)
    requires a <= b <= n <= |c|
    ensures c[..a] + c[a..b] + c[b..n] == c[..n]
  {
  }

  /**
   * Writing a regular sequence of 1 to 16 channels below 32 and reading it
   * back gives the sequence.
   */
  lemma RegularSequenceRoundTrip(q: Sqr, length: U8, channel: seq<U8>)
    requires 1 <= length <= 16 && |channel| >= length as int && SlotChannels(channel[..length])
    ensures CurrentSequence(RegularSequence(q, length, channel)) == channel[..length]
  {
    var n := length as int;
    var r := RegularSequence(q, length, channel);
    RegularSequenceReadBack(q, length, channel);
    LengthOfField(r.sqr1 >> 20, length);
    assert SequenceLength(r) == n;
    SplitThree(channel, Min(n, 6), Min(n, 12), n);
  }

  /** Rewriting a whole sequence reads back that sequence. */
  lemma RewriteRoundTrip(q: Sqr, length: U8, s: seq<U8>)
    requires 1 <= length <= 16 && |s| == length as int && SlotChannels(s)
    ensures CurrentSequence(RegularSequence(q, length, s)) == s
  {
    assert s[..length] == s;
    RegularSequenceRoundTrip(q, length, s);
  }

  /** L + 1 as a `uint8_t`. */
  function LengthCount(q: Sqr): (n: U8)
    ensures n as int == SequenceLength(q)
  {
    ((q.sqr1 >> 20) & 0xF) + 1
  }

  /** SQR1's L field, masked and then shifted down. */
  function LField(q: Sqr): (l: U8)
    ensures l as int == SequenceLength(q) - 1
  {
    (q.sqr1 & 0xF0_0000) >> 20
  }

  lemma OneChannelFits(n: nat, channel: U8)
    requires channel < 32
    ensures SlotChannels(Zeros(n) + [channel])
  {
    var s := Zeros(n) + [channel];
    assert forall k :: 0 <= k < |s| ==> s[k] < 32;
  }

  /** One channel below 32 after `n` empty slots reads back and stays in its slots. */
  lemma OneChannelSlots(n: nat, channel: U8)
    requires n <= 5
    ensures channel < 32 ==>
      && Unpack(Pack(Zeros(n) + [channel]), 0, n + 1) == Zeros(n) + [channel]
      && Pack(Zeros(n) + [channel]) & !SlotMask(n + 1) == 0
  {
    if channel < 32 {
      var s := Zeros(n) + [channel];
      OneChannelFits(n, channel);
      UnpackPack(s, 0, n + 1);
      PackWithin(s);
    }
  }

  /** The same in SQR1's four slots, under the length field. */
  lemma OneChannelUnderLength(n: nat, channel: U8, length: U8)
    requires n <= 3
    ensures channel < 32 ==>
      && (Pack(Zeros(n) + [channel]) | LengthField(length)) >> 20 == LengthField(length) >> 20
      && Unpack(Pack(Zeros(n) + [channel]) | LengthField(length), 0, n + 1) == Zeros(n) + [channel]
  {
    if channel < 32 {
      var s := Zeros(n) + [channel];
      OneChannelFits(n, channel);
      PackUnderLength(s, length);
      LengthOverPack(s, length);
    }
  }

  /** Slots 0 to `n` of `x` read as `n` empty slots and then `channel`. */
  predicate ReadsOneChannel(x: Reg, n: nat, channel: U8)
  {
    Unpack(x, 0, n + 1) == Zeros(n) + [channel]
  }

  /** The same, and no bit above slot `n` is set. */
  predicate HoldsOneChannel(x: Reg, n: nat, channel: U8)
    requires n <= 5
  {
    ReadsOneChannel(x, n, channel) && x & !SlotMask(n + 1) == 0
  }

  /** The register value with `channel` in slot `n` and nothing before it. */
  function OneChannelRun(n: nat, channel: U8): (x: Reg)
    requires n <= 5
    ensures channel < 32 ==> HoldsOneChannel(x, n, channel)
  {
    OneChannelSlots(n, channel);
    Pack(Zeros(n) + [channel])
  }

  /** SQR1's value with `channel` in slot `n` under the length field. */
  function OneChannelOverLength(n: nat, channel: U8, length: U8): (x: Reg)
    requires n <= 3
    ensures channel < 32 ==> x >> 20 == LengthField(length) >> 20 && ReadsOneChannel(x, n, channel)
  {
    OneChannelUnderLength(n, channel, length);
    Pack(Zeros(n) + [channel]) | LengthField(length)
  }

  /**
   * `adc_change_single_channel` as written, for a location from 1 (a
   * location of 0 makes the shift negative). L is read as a count but
   * written back as `count - 1`, so every call shortens the sequence by
   * one (a one-channel sequence becomes sixteen), and all three registers are
   * rebuilt from zero, so every other channel of the sequence is lost.
   * L never exceeds 15, so the length check never returns early. For a
   * channel below 32 the location's slot holds the channel, the slots
   * before it read as channel 0 and nothing else is set.
   */
  function ChangeSingleChannelAsWritten(q: Sqr, channel: U8, location: U8): (r: Sqr)
    requires 1 <= location
    ensures var l := location as int;
      l <= 6 ==> (
        && r.sqr1 == LengthField(LField(q)) && r.sqr2 == 0
        && (channel < 32 ==> HoldsOneChannel(r.sqr3, l - 1, channel)))
    ensures var l := location as int;
      6 < l <= 12 ==> (
        && r.sqr1 == LengthField(LField(q)) && r.sqr3 == 0
        && (channel < 32 ==> HoldsOneChannel(r.sqr2, l - 7, channel)))
    ensures var l := location as int;
      12 < l <= 16 ==> (
        && r.sqr2 == 0 && r.sqr3 == 0
        && (channel < 32 ==> (
             && r.sqr1 >> 20 == LengthField(LField(q)) >> 20
             && ReadsOneChannel(r.sqr1, l - 13, channel))))
    ensures 16 < location as int ==> r == Sqr(LengthField(LField(q)), 0, 0)
  {
    var l := location as int;
    var length := LField(q);
    var lf := LengthField(length);
    if l <= 6 then Sqr(lf, 0, OneChannelRun(l - 1, channel))
    else if l <= 12 then Sqr(lf, OneChannelRun(l - 7, channel), 0)
    else if l <= 16 then Sqr(OneChannelOverLength(l - 13, channel, length), 0, 0)
    else Sqr(lf, 0, 0)
  }

  /**
   * `adc_change_single_channel` as intended: the channel at a location
   * from 1 to the current length is replaced, a location one past the end
   * (up to 16) appends the channel, and the rest of the sequence is kept.
   * Any other location changes nothing.
   */
  function ChangeSingleChannel(q: Sqr, channel: U8, location: U8): (r: Sqr)
    ensures location as int == 0 || location as int > SequenceLength(q) + 1 || location as int > 16 ==> r == q
  {
    var cur, l := CurrentSequence(q), location as int;
    if 1 <= l <= |cur| then RegularSequence(q, LengthCount(q), cur[l - 1 := channel])
    else if l == |cur| + 1 <= 16 then RegularSequence(q, location, cur + [channel])
    else q
  }

  /** Changing a channel inside the sequence replaces exactly that channel. */
  lemma ChangeSingleChannelReplaces(q: Sqr, channel: U8, location: U8)
    requires channel < 32 && 1 <= location as int <= SequenceLength(q)
    ensures CurrentSequence(ChangeSingleChannel(q, channel, location))
      == CurrentSequence(q)[location as int - 1 := channel]
  {
    RewriteRoundTrip(q, LengthCount(q), CurrentSequence(q)[location as int - 1 := channel]);
  }

  /** Changing the channel one past the end appends it. */
  lemma ChangeSingleChannelAppends(q: Sqr, channel: U8, location: U8)
    requires channel < 32 && location as int == SequenceLength(q) + 1 <= 16
    ensures CurrentSequence(ChangeSingleChannel(q, channel, location)) == CurrentSequence(q) + [channel]
  {
    RewriteRoundTrip(q, location, CurrentSequence(q) + [channel]);
  }

  /** The registers holding the three-channel sequence 1, 2, 3. */
  lemma SequenceOneTwoThree()
    ensures RegularSequence(Sqr(0, 0, 0), 3, [1, 2, 3]) == Sqr(0x20_0000, 0, 0xC41)
    ensures CurrentSequence(Sqr(0x20_0000, 0, 0xC41)) == [1, 2, 3]
  {
    var c: seq<U8> := [1, 2, 3];
    assert c[..3] == c && c[3..3] == [] && c[..Min(3, 6)] == c;
    assert Pack(c) == 0xC41 by {
      assert c[1..] == [2, 3] && c[1..][1..] == [3];
    }
    assert Pack([]) == 0;
    RegularSequenceRoundTrip(Sqr(0, 0, 0), 3, c);
  }

  /**
   * Changing the second of the channels 1, 2, 3 to 5: as written the
   * sequence becomes two channels long and its first channel is lost.
   */
  lemma ChangeSingleChannelAsWrittenCounterexample()
    ensures ChangeSingleChannelAsWritten(Sqr(0x20_0000, 0, 0xC41), 5, 2) == Sqr(0x10_0000, 0, 0xA0)
    ensures CurrentSequence(Sqr(0x10_0000, 0, 0xA0)) == [0, 5]
  {
    assert Zeros(1) + [5] == [0, 5];
    assert Pack([0, 5]) == 0xA0 by {
      assert [0, 5][1..] == [5];
    }
    var u := Unpack(0xA0, 0, 2);
    assert u[0] == 0 && u[1] == 5;
  }

  /** As intended, only the second channel changes. */
  lemma ChangeSingleChannelExample()
    ensures CurrentSequence(ChangeSingleChannel(Sqr(0x20_0000, 0, 0xC41), 5, 2)) == [1, 5, 3]
  {
    SequenceOneTwoThree();
    ChangeSingleChannelReplaces(Sqr(0x20_0000, 0, 0xC41), 5, 2);
    assert [1, 2, 3][1 := 5] == [1, 5, 3];
  }

  /**
   * `adc_set_injected_sequence` as written. The length check compares
   * `length - 1` as an `int`, so only lengths above 4 are refused and a zero
   * length passes. For `i` from 1 to `length` the loop puts `channel[4 - i]`
   * into slot `4 - i`, so the last `length` entries of a four-entry array are
   * read, not the first `length`; JL takes `length - 1`.
   */
  function InjectedSequenceAsWritten(jsqr: Reg, length: U8, channel: seq<U8>): (r: Reg)
    requires length == 0 || length > 4 || |channel| >= 4
    ensures length > 4 ==> r == jsqr
    ensures length == 0 ==> r == 0xFFF0_0000
  {
    if length > 4 then jsqr
    else if length == 0 then LengthField(0)
    else
      var n := length as int;
      Pack(Zeros(4 - n) + channel[4 - n..4]) | LengthField(length)
  }

  /**
   * `adc_set_injected_sequence` as intended: a length of 1 to 4 is accepted,
   * the `length` channels given go to the last `length` slots in order (the
   * hardware converts JSQ(4 - JL) up to JSQ4), and JL takes `length - 1`.
   */
  function InjectedSequence(jsqr: Reg, length: U8, channel: seq<U8>): (r: Reg)
    requires |channel| >= length as int
    ensures length == 0 || length > 4 ==> r == jsqr
  {
    if length == 0 || length > 4 then jsqr
    else
      var n := length as int;
      Pack(Zeros(4 - n) + channel[..n]) | LengthField(length)
  }

  /** Empty slots followed by channels below 32 are a run of channels below 32. */
  lemma ZerosThenChannels(c: seq<U8>, n: nat)
    requires n <= 4 && |c| >= n && SlotChannels(c[..n])
    ensures |Zeros(4 - n) + c[..n]| == 4 && SlotChannels(Zeros(4 - n) + c[..n])
    ensures (Zeros(4 - n) + c[..n])[4 - n..4] == c[..n]
  {
    var s := Zeros(4 - n) + c[..n];
    assert forall k :: 4 - n <= k < 4 ==> s[k] == c[..n][k - (4 - n)];
  }

  /**
   * The intended injected sequence reads back: the last `length` slots hold
   * the channels given, in order, and JL reads `length - 1`.
   */
  lemma InjectedSequenceReadBack(jsqr: Reg, length: U8, channel: seq<U8>)
    requires 1 <= length <= 4 && |channel| >= length as int && SlotChannels(channel[..length])
    ensures var r, n := InjectedSequence(jsqr, length, channel), length as int;
      && Unpack(r, 4 - n, 4) == channel[..n]
      && r >> 20 == (length as Reg) - 1
  {
    InjectedSlots(jsqr, length, channel);
    InjectedLength(jsqr, length, channel);
  }

  lemma InjectedSlots(jsqr: Reg, length: U8, channel: seq<U8>)
    requires 1 <= length <= 4 && |channel| >= length as int && SlotChannels(channel[..length])
    ensures var n := length as int; Unpack(InjectedSequence(jsqr, length, channel), 4 - n, 4) == channel[..n]
  {
    var n := length as int;
    InjectedSequenceShape(jsqr, length, channel);
    ZerosThenChannels(channel, n);
    LastSlots(Zeros(4 - n) + channel[..n], length, 4 - n);
  }

  lemma InjectedLength(jsqr: Reg, length: U8, channel: seq<U8>)
    requires 1 <= length <= 4 && |channel| >= length as int && SlotChannels(channel[..length])
    ensures InjectedSequence(jsqr, length, channel) >> 20 == (length as Reg) - 1
  {
    var n := length as int;
    var s := Zeros(4 - n) + channel[..n];
    InjectedSequenceShape(jsqr, length, channel);
    ZerosThenChannels(channel, n);
    LengthOverPack(s, length);
  }

  /** The last slots of four packed under a length field read back the run's end. */
  lemma LastSlots(s: seq<U8>, length: U8, lo: nat)
    requires |s| == 4 && SlotChannels(s) && lo <= 4
    ensures Unpack(Pack(s) | LengthField(length), lo, 4) == s[lo..4]
  {
    PackUnderLength(s, length);
    UnpackSuffix(Pack(s) | LengthField(length), s, lo);
  }

  /** For each valid length the intended sequence is the packed slots under JL. */
  lemma InjectedSequenceShape(jsqr: Reg, length: U8, channel: seq<U8>)
    requires 1 <= length <= 4 && |channel| >= length as int
    ensures var n := length as int;
      InjectedSequence(jsqr, length, channel) == Pack(Zeros(4 - n) + channel[..n]) | LengthField(length)
  {
    if length == 1 {
    } else if length == 2 {
    } else if length == 3 {
    } else {
    }
  }

  /** A register whose first four slots read `s` reads the end of `s` from its last slots. */
  lemma UnpackSuffix(r: Reg, s: seq<U8>, lo: nat)
    requires |s| == 4 && lo <= 4 && Unpack(r, 0, |s|) == s
    ensures Unpack(r, lo, 4) == s[lo..4]
  {
    assert forall k :: 0 <= k < 4 - lo ==> Unpack(r, lo, 4)[k] == Unpack(r, 0, 4)[lo + k];
  }

  /**
   * A one-channel injected sequence as written converts the fourth array
   * entry instead of the first; the intended sequence puts the first entry
   * in JSQ4.
   */
  lemma InjectedSequenceAsWrittenCounterexample()
    ensures InjectedSequenceAsWritten(0, 1, [7, 0, 0, 0]) == 0
    ensures InjectedSequence(0, 1, [7, 0, 0, 0]) == 7 << 15
  {
    var c: seq<U8> := [7, 0, 0, 0];
    assert c[4 - 1..4] == [0] && c[..1] == [7];
    assert Zeros(3) + [0] == [0, 0, 0, 0];
    assert Zeros(3) + [7] == [0, 0, 0, 7];
    assert LengthField(1) == 0;
    assert Pack([0, 0, 0, 0]) == 0 by {
      assert Pack([0]) == 0;
      assert [0, 0][1..] == [0];
      assert [0, 0, 0][1..] == [0, 0];
      assert [0, 0, 0, 0][1..] == [0, 0, 0];
    }
    assert Pack([0, 0, 0, 7]) == 7 << 15 by {
      assert Pack([7]) == 7;
      assert [0, 7][1..] == [7];
      assert [0, 0, 7][1..] == [0, 7];
      assert [0, 0, 0, 7][1..] == [0, 0, 7];
    }
  }

  /**
   * `adc_set_single_channel`: SQR1 is cleared, so L selects one conversion,
   * and SQR3 is overwritten with the channel, which lands in the first slot.
   * SQR2 is not written.
   */
  function SetSingleChannel(q: Sqr, channel: U8): (r: Sqr)
    ensures r.sqr1 >> 20 == 0 && r.sqr2 == q.sqr2
    ensures channel < 32 ==> SlotValue(r.sqr3, 0) == channel && r.sqr3 >> 5 == 0
  {
    Sqr(0, q.sqr2, channel)
  }

  /*
   * ---------------- Sample times ----------------
   */

  /** The sample time registers: SMPR1 for channels 10 to 18, SMPR2 for 0 to 9. */
  datatype Smpr = Smpr(smpr1: Reg, smpr2: Reg)

  /** The bit position of a channel's 3-bit field within its SMPR register. */
  function SampleShift(channel: U8): (s: bv32)
    requires channel <= 18
    ensures s <= 27
  {
    if channel < 10 then channel * 3 else (channel - 10) * 3
  }

  /** The sample time field of `channel`. */
  function SampleTime(m: Smpr, channel: U8): (t: Reg)
    requires channel <= 18
    ensures t <= 7
  {
    ((if channel < 10 then m.smpr2 else m.smpr1) >> SampleShift(channel)) & 7
  }

  /**
   * `reg &= ~(7 << s); reg |= time << s`: the field takes the low three bits
   * of `time`, and bits of `time` above those are or-ed in above the field.
   */
  function PlaceTime(r: Reg, s: bv32, time: U8): (v: Reg)
    requires s <= 27
    ensures (v >> s) & 7 == time & 7
    ensures time <= 7 ==> Agree(v, r, !(7 << s))
  {
    var v := (r & !(7 << s)) | ((time as Reg) << s);
    PlaceTimeReads(r, s, time);
    if time <= 7 then PlaceTimeKeeps(r, s, time); v else v
  }

  lemma PlaceTimeReads(r: Reg, s: bv32, time: Reg)
    requires s <= 27 && time <= 0xFF
    ensures (((r & !(7 << s)) | (time << s)) >> s) & 7 == time & 7
  {
  }

  lemma PlaceTimeKeeps(r: Reg, s: bv32, time: Reg)
    requires s <= 27 && time <= 7
    ensures Agree((r & !(7 << s)) | (time << s), r, !(7 << s))
  {
  }

  /**
   * `adc_set_sample_time`: a channel below 10 goes to SMPR2, the others to
   * SMPR1; the other register is not touched.
   */
  function SetSampleTime(m: Smpr, channel: U8, time: U8): (r: Smpr)
    requires channel <= 18
    ensures channel < 10 ==> r.smpr1 == m.smpr1
    ensures channel >= 10 ==> r.smpr2 == m.smpr2
    ensures SampleTime(r, channel) == time & 7
  {
    if channel < 10 then m.(smpr2 := PlaceTime(m.smpr2, SampleShift(channel), time))
    else m.(smpr1 := PlaceTime(m.smpr1, SampleShift(channel), time))
  }

  /** Fields that do not overlap: a change outside one leaves the other alone. */
  lemma DistinctFields(v: Reg, r: Reg, s: bv32, t: bv32)
    requires s <= 27 && t <= 27 && ((7 as Reg) << s) & ((7 as Reg) << t) == 0 && Agree(v, r, !(7 << s))
    ensures (v >> t) & 7 == (r >> t) & 7
  {
    AgreeInside(v, r, (7 as Reg) << s, (7 as Reg) << t);
    FieldOfAgree(v, r, t);
  }

  lemma AgreeInside(v: Reg, r: Reg, m: Reg, f: Reg)
    requires m & f == 0 && Agree(v, r, !m)
    ensures Agree(v, r, f)
  {
  }

  lemma FieldOfAgree(v: Reg, r: Reg, t: bv32)
    requires t <= 27 && Agree(v, r, (7 as Reg) << t)
    ensures (v >> t) & 7 == (r >> t) & 7
  {
  }

  lemma SampleShiftsApart(a: U8, b: U8)
    requires a <= 18 && b <= 18 && a != b && (a < 10 <==> b < 10)
    ensures ((7 as Reg) << SampleShift(a)) & ((7 as Reg) << SampleShift(b)) == 0
  {
  }

  /** A sample time below 8 leaves every other channel's sample time alone. */
  lemma SetSampleTimeKeepsOthers(m: Smpr, channel: U8, time: U8, other: U8)
    requires channel <= 18 && other <= 18 && other != channel && time <= 7
    ensures SampleTime(SetSampleTime(m, channel, time), other) == SampleTime(m, other)
  {
    if (channel < 10) == (other < 10) {
      KeepOther(if channel < 10 then m.smpr2 else m.smpr1, channel, time, other);
    }
  }

  lemma KeepOther(r: Reg, channel: U8, time: U8, other: U8)
    requires channel <= 18 && other <= 18 && other != channel && time <= 7 && (channel < 10 <==> other < 10)
    ensures (PlaceTime(r, SampleShift(channel), time) >> SampleShift(other)) & 7 == (r >> SampleShift(other)) & 7
  {
    SampleShiftsApart(channel, other);
    DistinctFields(PlaceTime(r, SampleShift(channel), time), r, SampleShift(channel), SampleShift(other));
  }

  /*
   * ---------------- Watchdog ----------------
   */

  /**
   * `adc_set_watchdog_high_threshold` and `adc_set_watchdog_low_threshold`:
   * the register takes the threshold's low twelve bits; bits 12 to 15 are
   * dropped.
   */
  function WatchdogThreshold(threshold: U16): (r: Reg)
    ensures r <= 0xFFF
    ensures Agree(r, threshold, 0xFFF)
  {
    (threshold as Reg) & !0xFFFF_F000
  }

  /**
   * `adc_enable_analog_watchdog_on_selected_channel`: AWDCH takes a channel
   * below 18 and is cleared for any other, AWDSGL is set, and the rest of
   * CR1 is kept.
   */
  function WatchdogOnChannel(cr1: Reg, channel: U8): (r: Reg)
    ensures r & 0x1F == (if channel < 18 then channel else 0)
    ensures r & 0x200 != 0
    ensures Agree(r, cr1, !0x21F)
  {
    Set(Replace(cr1, 0x1F, if channel < 18 then channel else 0), 0x200)
  }

  /** `adc_enable_analog_watchdog_on_all_channels` clears AWDSGL only. */
  function WatchdogOnAllChannels(cr1: Reg): (r: Reg)
    ensures r & 0x200 == 0 && Agree(r, cr1, !0x200)
  {
    Clear(cr1, 0x200)
  }

  /*
   * ---------------- Prescaler and resolution ----------------
   */

  /** `adc_set_clk`: ADCPRE (CCR bits 16..17) cleared, the prescale value or-ed in. */
  function SetClock(ccr: Reg, prescale: Reg): (r: Reg)
    ensures prescale & !0x3_0000 == 0 ==> r & 0x3_0000 == prescale && Agree(r, ccr, !0x3_0000)
    ensures Agree(r, prescale, 0x3_0000)
  {
    Merge(ccr, 0x3_0000, prescale)
  }

  /**
   * `adc_set_resolution` as written: the resolution parameter is a
   * `uint16_t`, so a RES constant (at bits 24..25) is cut to its low 16 bits,
   * which are 0, before RES is cleared and the value or-ed in.
   */
  function SetResolutionAsWritten(cr1: Reg, resolution: Reg): (r: Reg)
    ensures Agree(r, cr1 | (resolution & 0xFFFF), !0x300_0000)
  {
    Merge(cr1, 0x300_0000, resolution & 0xFFFF)
  }

  /** Asking for 8-bit resolution leaves RES at 12 bits. */
  lemma SetResolutionAsWrittenCounterexample(cr1: Reg)
    ensures SetResolutionAsWritten(cr1, 0x200_0000) & 0x300_0000 == 0
    ensures SetResolution(cr1, 0x200_0000) & 0x300_0000 == 0x200_0000
  {
  }

  /** `adc_set_resolution` as intended, with a 32-bit parameter. */
  function SetResolution(cr1: Reg, resolution: Reg): (r: Reg)
    ensures resolution & !0x300_0000 == 0 ==> r & 0x300_0000 == resolution && Agree(r, cr1, !0x300_0000)
    ensures Agree(r, resolution, 0x300_0000)
  {
    Merge(cr1, 0x300_0000, resolution)
  }

  /*
   * ---------------- Discontinuous mode ----------------
   */

  /** The control registers CR1 and CR2. */
  datatype Cr = Cr(cr1: Reg, cr2: Reg)

  /**
   * `adc_enable_discontinous_mode_regular` as written: DISCEN is set in CR1,
   * but `length + 1` is shifted to DISCNUM's position in CR2, where bits 13
   * to 15 are reserved and 16 up belong to the injected trigger.
   */
  function DiscontinuousRegularAsWritten(c: Cr, length: U8): (d: Cr)
    ensures length > 8 ==> d == c
    ensures length <= 8 ==> d.cr1 == Set(c.cr1, 0x800) && Agree(d.cr2, c.cr2, !0x3_E000)
  {
    if length > 8 then c
    else Cr(Set(c.cr1, 0x800), c.cr2 | (((length as Reg) + 1) << 13))
  }

  /**
   * Asking for three channels per trigger leaves DISCNUM at one channel and
   * sets the reserved CR2 bit 15.
   */
  lemma DiscontinuousRegularAsWrittenCounterexample()
    ensures DiscontinuousRegularAsWritten(Cr(0, 0), 3) == Cr(0x800, 0x8000)
    ensures DiscontinuousRegular(Cr(0, 0), 3) == Cr(0x4800, 0)
  {
  }

  /**
   * `adc_enable_discontinous_mode_regular` as intended: for 1 to 8 channels
   * DISCEN is set and DISCNUM (CR1 bits 13..15) takes `length - 1`; CR2 and
   * the rest of CR1 are kept. Other lengths change nothing.
   */
  function DiscontinuousRegular(c: Cr, length: U8): (d: Cr)
    ensures length == 0 || length > 8 ==> d == c
    ensures 1 <= length <= 8 ==>
      && (d.cr1 >> 13) & 7 == (length as Reg) - 1 && d.cr1 & 0x800 != 0
      && Agree(d.cr1, c.cr1, !0xE800) && d.cr2 == c.cr2
  {
    if length == 0 || length > 8 then c
    else Cr(Replace(Set(c.cr1, 0x800), 0xE000, ((length as Reg) - 1) << 13), c.cr2)
  }

  /** `adc_disable_discontinous_mode_regular` clears DISCEN only. */
  function DisableDiscontinuousRegular(cr1: Reg): (r: Reg)
    ensures r & 0x800 == 0 && Agree(r, cr1, !0x800)
  {
    Clear(cr1, 0x800)
  }

  /*
   * ---------------- EOCS and DDS ----------------
   */

  /**
   * `adc_eoc_after_each`, `adc_eoc_after_group`, `adc_set_dma_disable` and
   * `adc_clear_dma_disable` as written: CR2's EOCS (bit 10) and DDS (bit 9)
   * masks are applied to CR1, where those bits are JAUTO and AWDSGL.
   */
  function SetCr2BitAsWritten(c: Cr, bit: Reg, on: bool): (d: Cr)
    ensures d.cr2 == c.cr2
    ensures d.cr1 == Assign(c.cr1, bit, on)
  {
    c.(cr1 := Assign(c.cr1, bit, on))
  }

  /**
   * Selecting end of conversion after each conversion turns on automatic
   * injected conversion instead, and leaves EOCS clear.
   */
  lemma SetCr2BitAsWrittenCounterexample()
    ensures SetCr2BitAsWritten(Cr(0, 0), 0x400, true) == Cr(0x400, 0)
    ensures SetCr2Bit(Cr(0, 0), 0x400, true) == Cr(0, 0x400)
  {
  }

  /** The four EOCS/DDS functions as intended, on CR2. */
  function SetCr2Bit(c: Cr, bit: Reg, on: bool): (d: Cr)
    ensures d.cr1 == c.cr1
    ensures d.cr2 & bit == (if on then bit else 0) && Agree(d.cr2, c.cr2, !bit)
  {
    c.(cr2 := Assign(c.cr2, bit, on))
  }

  /*
   * ---------------- External triggers ----------------
   */

  /**
   * `adc_enable_external_trigger_regular` and `..._injected` as written: CR2
   * with the trigger fields cleared, or-ed with the trigger and polarity, is
   * or-ed back into CR2, so the fields are never cleared.
   */
  function ExternalTriggerAsWritten(cr2: Reg, mask: Reg, trigger: Reg, polarity: Reg): (r: Reg)
    ensures r == cr2 | trigger | polarity
  {
    cr2 | ((cr2 & !mask) | trigger | polarity)
  }

  /**
   * Switching the regular trigger from EXTSEL 1 to EXTSEL 2 leaves EXTSEL 3
   * selected.
   */
  lemma ExternalTriggerAsWrittenCounterexample()
    ensures ExternalTriggerAsWritten(0x100_0000, 0x3F00_0000, 0x200_0000, 0) == 0x300_0000
    ensures ExternalTrigger(0x100_0000, 0x3F00_0000, 0x200_0000, 0) == 0x200_0000
  {
  }

  /**
   * The external trigger functions as intended: EXTSEL/EXTEN (bits 24..29)
   * or JEXTSEL/JEXTEN (bits 16..21) take the trigger and polarity, the rest
   * of CR2 is kept.
   */
  function ExternalTrigger(cr2: Reg, mask: Reg, trigger: Reg, polarity: Reg): (r: Reg)
    requires mask == 0x3F00_0000 || mask == 0x3F_0000
    ensures (trigger | polarity) & !mask == 0 ==> r & mask == trigger | polarity && Agree(r, cr2, !mask)
  {
    Merge(cr2, mask, trigger | polarity)
  }

  /*
   * ---------------- Injected data and offsets ----------------
   */

  /** `adc_read_injected`: JDR1..JDR4 for register numbers 1 to 4, 0 for any other. */
  function ReadInjected(jdr: seq<Reg>, reg: U8): (v: Reg)
    requires |jdr| == 4
    ensures 1 <= reg <= 4 ==> v == jdr[reg - 1]
    ensures reg == 0 || reg > 4 ==> v == 0
  {
    if 1 <= reg <= 4 then jdr[reg - 1] else 0
  }

  /** `adc_set_injected_offset`: JOFR1..JOFR4 for 1 to 4; any other number writes nothing. */
  function SetInjectedOffset(jofr: seq<Reg>, reg: U8, offset: Reg): (r: seq<Reg>)
    requires |jofr| == 4
    ensures |r| == 4
    ensures 1 <= reg <= 4 ==> r[reg - 1] == offset
    ensures forall k :: 0 <= k < 4 && k + 1 != reg as int ==> r[k] == jofr[k]
  {
    if 1 <= reg <= 4 then jofr[reg - 1 := offset] else jofr
  }
}
