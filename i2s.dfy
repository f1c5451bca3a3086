/**
 * The ESWIN I2S stereo DAI: capability discovery from the component
 * parameter registers, hw_params validation and clock-divider programming,
 * the clock-provider check of set_fmt, and the stream-activity bookkeeping
 * of trigger and open.
 *
 * The COMP_PARAM_1/2 field extractors, the register offsets and the
 * RESOLUTION_* codes live in headers that are not part of this model: the
 * decoded fields are inputs and the registers are named symbolically.
 */
module I2s {
  import opened CArith

  // ---------------------------------------------------------------------
  // Constants.

  const MAX_SAMPLE_RATE_SUPPORT := 192000
  const DIV_NUM_MASK: bv32 := 0x1f
  const VO_MCLK_DIVSOR_MASK: bv32 := 0xff0
  const VO_MCLK_DIVSOR_OFFSET: bv32 := 4
  const COMP1_MAX_WORDSIZE := 5
  const TWO_CHANNEL_SUPPORT := 2
  /** MIN_CHANNEL_NUM of the DesignWare I2S header. */
  const MIN_CHANNEL_NUM := 2

  /** Clock-provider field of the DAI format (SND_SOC_DAIFMT_*, include/sound/soc-dai.h). */
  const DAIFMT_CLOCK_PROVIDER_MASK: bv32 := 0xf000
  const DAIFMT_BP_FP: bv32 := 0x1000
  const DAIFMT_BC_FP: bv32 := 0x2000
  const DAIFMT_BP_FC: bv32 := 0x3000
  const DAIFMT_BC_FC: bv32 := 0x4000

  /** PCM trigger commands (SNDRV_PCM_TRIGGER_*, include/sound/pcm.h). */
  const TRIGGER_STOP := 0
  const TRIGGER_START := 1
  const TRIGGER_PAUSE_PUSH := 3
  const TRIGGER_PAUSE_RELEASE := 4
  const TRIGGER_SUSPEND := 5
  const TRIGGER_RESUME := 6

  datatype Stream = Playback | Capture

  datatype PcmFormat = S16Le | S24Le | S32Le | OtherFormat(code: nat)

  /** The channel resolution codes RESOLUTION_16/24/32_BIT. */
  datatype Resolution = Res16Bit | Res24Bit | Res32Bit

  function ResolutionBits(r: Resolution): nat
  {
    match r
    case Res16Bit => 16
    case Res24Bit => 24
    case Res32Bit => 32
  }

  // ---------------------------------------------------------------------
  // i2s_configure_dai.

  /** The COMP_PARAM_1/2 fields configure_dai reads, already extracted. */
  datatype Comp = Comp(fifoDepthField: nat, txEnabled: bool, txWordsize: nat, txChannels: nat,
                       rxEnabled: bool, rxWordsize: nat, rxChannels: nat, masterMode: bool)

  /** What configure_dai fills in for one direction of the DAI. */
  datatype StreamCaps = StreamCaps(formats: set<PcmFormat>, channelsMin: nat, channelsMax: nat, rates: nat)

  /** What configure_dai leaves behind: the two directions it filled in (None: untouched) and its result. */
  datatype DaiConfig = DaiConfig(playback: Option<StreamCaps>, capture: Option<StreamCaps>, ret: int)

  function Pow2(n: nat): (p: nat)
    ensures p >= 1
  {
    if n == 0 then 1 else 2 * Pow2(n - 1)
  }

  /** `1 << (1 + field)`. */
  function FifoDepth(field: nat): nat
  {
    Pow2(1 + field)
  }

  /** The i2s_formats table: the formats a channel of word size index `idx` can carry. */
  function WordsizeFormats(idx: nat): set<PcmFormat>
    requires idx < COMP1_MAX_WORDSIZE
  {
    if idx <= 1 then {S16Le}
    else if idx <= 3 then {S24Le, S16Le}
    else {S32Le, S24Le, S16Le}
  }

  function Caps(wordsize: nat, channels: nat, rates: nat): StreamCaps
    requires wordsize < COMP1_MAX_WORDSIZE
  {
    StreamCaps(WordsizeFormats(wordsize), MIN_CHANNEL_NUM, (channels + 1) * 2, rates)
  }

  /**
   * The DAI description configure_dai produces. A word size index outside
   * the table fails with -EINVAL; the playback side is already filled in
   * when the capture side fails.
   */
  function ConfigureDaiSpec(c: Comp, rates: nat): DaiConfig
  {
    if c.txEnabled && c.txWordsize >= COMP1_MAX_WORDSIZE then DaiConfig(None, None, -EINVAL)
    else
      var play := if c.txEnabled then Some(Caps(c.txWordsize, c.txChannels, rates)) else None;
      if c.rxEnabled && c.rxWordsize >= COMP1_MAX_WORDSIZE then DaiConfig(play, None, -EINVAL)
      else DaiConfig(play, if c.rxEnabled then Some(Caps(c.rxWordsize, c.rxChannels, rates)) else None, 0)
  }

  /**
   * configure_dai fails exactly when an enabled direction has a word size
   * index of 5 or more; each enabled direction accepts 2 up to
   * `(field + 1) * 2` channels and always at least S16_LE.
   */
  lemma ConfigureDaiOutcome(c: Comp, rates: nat)
    ensures ConfigureDaiSpec(c, rates).ret == -EINVAL
            <==> (c.txEnabled && c.txWordsize >= COMP1_MAX_WORDSIZE) || (c.rxEnabled && c.rxWordsize >= COMP1_MAX_WORDSIZE)
    ensures ConfigureDaiSpec(c, rates).ret != -EINVAL ==> ConfigureDaiSpec(c, rates).ret == 0
    ensures ConfigureDaiSpec(c, rates).ret == 0 ==>
              (ConfigureDaiSpec(c, rates).playback.Some? <==> c.txEnabled)
              && (ConfigureDaiSpec(c, rates).capture.Some? <==> c.rxEnabled)
    ensures ConfigureDaiSpec(c, rates).playback.Some? ==>
              var p := ConfigureDaiSpec(c, rates).playback.value;
              p.channelsMin == 2 && p.channelsMax == (c.txChannels + 1) * 2 && S16Le in p.formats && p.rates == rates
    ensures ConfigureDaiSpec(c, rates).capture.Some? ==>
              var p := ConfigureDaiSpec(c, rates).capture.value;
              p.channelsMin == 2 && p.channelsMax == (c.rxChannels + 1) * 2 && S16Le in p.formats && p.rates == rates
  {
  }

  /** A wider channel carries every format a narrower one does, and S32_LE only at index 4. */
  lemma WordsizeFormatsMonotone(i: nat, j: nat)
    requires i <= j < COMP1_MAX_WORDSIZE
    ensures WordsizeFormats(i) <= WordsizeFormats(j)
    ensures S32Le in WordsizeFormats(j) <==> j == 4
    ensures S24Le in WordsizeFormats(j) <==> j >= 2
  {
  }

  /** The FIFO threshold is half the FIFO depth, `2^field`. */
  lemma {:induction false} FifoThresholdHalfDepth(field: nat)
    ensures FifoDepth(field) / 2 == Pow2(field)
    ensures FifoDepth(field) == 2 * Pow2(field)
  {
  }

  // ---------------------------------------------------------------------
  // i2s_hw_params: validation and clock-divider arithmetic.

  /** The sample format's data width and transfer resolution; other formats are refused. */
  function FormatParams(f: PcmFormat): Option<(nat, Resolution)>
  {
    match f
    case S16Le => Some((16, Res16Bit))
    case S24Le => Some((24, Res24Bit))
    case S32Le => Some((32, Res32Bit))
    case OtherFormat(_) => None
  }

  /** Exactly the three little-endian formats are accepted, each with the resolution of its width. */
  lemma FormatParamsAccepted(f: PcmFormat)
    ensures FormatParams(f).Some? <==> !f.OtherFormat?
    ensures FormatParams(f).Some? ==> FormatParams(f).value.0 == ResolutionBits(FormatParams(f).value.1)
  {
  }

  /** The eswin-platform divider for `rate`: 192000 must be a multiple of it. */
  function DivNum(rate: nat): Option<nat>
    requires rate > 0
  {
    if MAX_SAMPLE_RATE_SUPPORT % rate != 0 then None
    else Some(MAX_SAMPLE_RATE_SUPPORT / rate - 1)
  }

  /** The divider exists iff the rate divides 192000, and then the divided 192 kHz clock is the rate. */
  lemma DivNumDividesClock(rate: nat)
    requires rate > 0
    ensures DivNum(rate).Some? <==> MAX_SAMPLE_RATE_SUPPORT % rate == 0
    ensures DivNum(rate).Some? ==> (DivNum(rate).value + 1) * rate == MAX_SAMPLE_RATE_SUPPORT
  {
  }

  /**
   * The rates the DAI advertises all have a divider that fits the 5-bit
   * field; 44.1 kHz has none on this platform.
   */
  lemma AdvertisedRatesFit()
    ensures DivNum(192000) == Some(0) && DivNum(96000) == Some(1) && DivNum(48000) == Some(3)
    ensures DivNum(32000) == Some(5) && DivNum(16000) == Some(11) && DivNum(8000) == Some(23)
    ensures DivNum(44100) == None
  {
  }

  /** The divider register after the update: low five bits cleared, then the divider OR-ed in unmasked. */
  function DivReg(prev: bv32, d: bv32): bv32
  {
    (prev & !DIV_NUM_MASK) | d
  }

  /** A divider that fits five bits lands in the field and leaves the other bits alone. */
  lemma DivRegFields(prev: bv32, d: bv32)
    requires d <= DIV_NUM_MASK
    ensures DivReg(prev, d) & DIV_NUM_MASK == d
    ensures DivReg(prev, d) & !DIV_NUM_MASK == prev & !DIV_NUM_MASK
  {
  }

  /**
   * The divider is not masked: a rate such as 4 kHz, which divides 192000
   * but is not advertised, gives divider 47 and sets bit 5 of the register.
   */
  lemma DivRegUnmasked(prev: bv32)
    ensures DivNum(4000) == Some(47)
    ensures DivReg(prev, 47) & 0x20 == 0x20
  {
  }

  /** The VO_MCLK divisor code bits 11:4 take for a rate, on the other platform. */
  function MclkDivisor(rate: nat): Option<bv32>
  {
    if rate == 96000 then Some(0x10)
    else if rate == 48000 then Some(0x12)
    else if rate == 44100 then Some(0x11)
    else None
  }

  /** The vo_mclk_sel register after the update with divisor code `code`. */
  function MclkSel(prev: bv32, code: bv32): bv32
  {
    (prev & !VO_MCLK_DIVSOR_MASK) | (code << VO_MCLK_DIVSOR_OFFSET)
  }

  /** Only 96, 48 and 44.1 kHz have a divisor code, and the three codes differ. */
  lemma MclkDivisorRates(rate: nat)
    ensures MclkDivisor(rate).Some? <==> rate == 96000 || rate == 48000 || rate == 44100
    ensures MclkDivisor(rate).Some? ==> 0x10 <= MclkDivisor(rate).value <= 0x12
    ensures MclkDivisor(96000) != MclkDivisor(48000) && MclkDivisor(48000) != MclkDivisor(44100)
            && MclkDivisor(96000) != MclkDivisor(44100)
  {
  }

  /** The code lands in bits 11:4 and every other bit of vo_mclk_sel is kept. */
  lemma MclkSelFields(prev: bv32, code: bv32)
    requires code <= 0xff
    ensures (MclkSel(prev, code) & VO_MCLK_DIVSOR_MASK) >> VO_MCLK_DIVSOR_OFFSET == code
    ensures MclkSel(prev, code) & !VO_MCLK_DIVSOR_MASK == prev & !VO_MCLK_DIVSOR_MASK
  {
  }

  // ---------------------------------------------------------------------
  // i2s_set_fmt.

  /** set_fmt's answer for DAI format `fmt` given the master/slave capability bits. */
  function SetFmt(fmt: bv32, canMaster: bool, canSlave: bool): int
  {
    var p := fmt & DAIFMT_CLOCK_PROVIDER_MASK;
    if p == DAIFMT_BC_FC then (if canSlave then 0 else -EINVAL)
    else if p == DAIFMT_BP_FP then (if canMaster then 0 else -EINVAL)
    else -EINVAL
  }

  /**
   * The controller accepts being clock consumer for both clocks iff it can
   * be a slave, provider for both iff it can be a master, and nothing else.
   */
  lemma SetFmtAccepts(fmt: bv32, canMaster: bool, canSlave: bool)
    ensures SetFmt(fmt, canMaster, canSlave) == 0 || SetFmt(fmt, canMaster, canSlave) == -EINVAL
    ensures SetFmt(fmt, canMaster, canSlave) == 0
            <==> (fmt & DAIFMT_CLOCK_PROVIDER_MASK == DAIFMT_BC_FC && canSlave)
                 || (fmt & DAIFMT_CLOCK_PROVIDER_MASK == DAIFMT_BP_FP && canMaster)
    ensures SetFmt(DAIFMT_BC_FP, canMaster, canSlave) == -EINVAL && SetFmt(DAIFMT_BP_FC, canMaster, canSlave) == -EINVAL
  {
  }

  // ---------------------------------------------------------------------
  // Register writes and the stream-activity state.

  /** The register writes the model records; offsets live in a header, so the registers are named. */
  datatype Write =
    | ChannelsOff(stream: Stream)                            // TER(0) / RER(0) := 0
    | ChannelResolution(stream: Stream, ch: nat, res: Resolution)  // TCR / RCR
    | ChannelThreshold(stream: Stream, ch: nat, value: nat)  // TFCR / RFCR
    | ChannelOn(stream: Stream, ch: nat)                     // TER / RER := 1
    | ClockConfig                                            // CCR := 32 cycles, no gating
    | DivNumReg(reg: bv32)                                   // VO_I2Sx_DIV_NUM
    | MclkSelReg(reg: bv32)                                  // vo_mclk_sel in the syscon
    | Enable(on: bool)                                       // IER
    | StreamEnable(stream: Stream, on: bool)                 // ITER / IRER
    | ClockEnable(on: bool)                                  // CER

  /** The per-pair writes of i2s_config for channel pairs `0 .. n`, the threshold being `fifo_th - 1` as a u32. */
  function ChannelWrites(stream: Stream, n: nat, res: Resolution, fifoTh: nat): (w: seq<Write>)
    ensures |w| == 3 * n
  {
    if n == 0 then []
    else ChannelWrites(stream, n - 1, res, fifoTh)
         + [ChannelResolution(stream, n - 1, res), ChannelThreshold(stream, n - 1, U32(fifoTh - 1)), ChannelOn(stream, n - 1)]
  }

  /** Pair `c` gets its resolution, its threshold and is enabled, in that order, at positions `3c .. 3c + 3`. */
  lemma {:induction false} ChannelWritesPair(stream: Stream, n: nat, res: Resolution, fifoTh: nat, c: nat)
    requires c < n
    ensures ChannelWrites(stream, n, res, fifoTh)[3 * c .. 3 * c + 3]
            == [ChannelResolution(stream, c, res), ChannelThreshold(stream, c, U32(fifoTh - 1)), ChannelOn(stream, c)]
  {
    var prefix := ChannelWrites(stream, n - 1, res, fifoTh);
    var last := [ChannelResolution(stream, n - 1, res), ChannelThreshold(stream, n - 1, U32(fifoTh - 1)), ChannelOn(stream, n - 1)];
    assert ChannelWrites(stream, n, res, fifoTh) == prefix + last;
    if c < n - 1 {
      ChannelWritesPair(stream, n - 1, res, fifoTh, c);
      assert (prefix + last)[3 * c .. 3 * c + 3] == prefix[3 * c .. 3 * c + 3];
    } else {
      assert (prefix + last)[3 * c .. 3 * c + 3] == last;
    }
  }

  /** What i2s_config writes: the first pair disabled, then every pair of `chanNr` channels configured. */
  function ConfigWrites(stream: Stream, chanNr: nat, res: Resolution, fifoTh: nat): seq<Write>
  {
    [ChannelsOff(stream)] + ChannelWrites(stream, chanNr / 2, res, fifoTh)
  }

  /** `2^n` fits a u32 below `n = 32`. */
  lemma {:induction false} Pow2Fits(n: nat)
    requires n < 32
    ensures Pow2(n) < U32_MODULUS
    decreases 32 - n
  {
    if n < 31 {
      Pow2Fits(n + 1);
      assert Pow2(n + 1) == 2 * Pow2(n);
    } else {
      Pow2Add(10, 21);
      Pow2Add(10, 11);
      Pow2Add(10, 1);
      assert Pow2(10) == 1024;
    }
  }

  /** `2^(a + b) == 2^a * 2^b`. */
  lemma {:induction false} Pow2Add(a: nat, b: nat)
    ensures Pow2(a + b) == Pow2(a) * Pow2(b)
  {
    if a > 0 {
      Pow2Add(a - 1, b);
      assert Pow2(a + b) == 2 * Pow2(a - 1 + b);
    }
  }

  /** For the two channels hw_params accepts: one pair, its threshold half the FIFO depth less one. */
  lemma StereoConfig(stream: Stream, res: Resolution, field: nat)
    requires field < 31
    ensures ConfigWrites(stream, 2, res, FifoDepth(field) / 2)
            == [ChannelsOff(stream), ChannelResolution(stream, 0, res), ChannelThreshold(stream, 0, Pow2(field) - 1),
                ChannelOn(stream, 0)]
  {
    FifoThresholdHalfDepth(field);
    Pow2Fits(field);
  }

  /** The master-clock part of hw_params on the current clock state. */
  datatype Clocking = Clocking(divNum: nat, divReg: bv32, mclkSel: bv32)

  /**
   * The rate step of hw_params for a master: on the eswin platform the
   * divider, which a second stream must share; otherwise the vo_mclk_sel
   * divisor after looking up the syscon (`sysconErr`, `propErr`: 0 or the
   * lookup's error). Returns the new clock state, the writes and the result.
   */
  function RateSetup(eswinPlat: bool, rate: nat, active: int, c: Clocking, sysconErr: int, propErr: int)
    : (Clocking, seq<Write>, int)
    requires rate > 0
  {
    if !eswinPlat then
      if sysconErr != 0 then (c, [], sysconErr)
      else if propErr != 0 then (c, [], propErr)
      else match MclkDivisor(rate)
        case None => (c, [], -EINVAL)
        case Some(code) =>
          var v := MclkSel(c.mclkSel, code);
          (c.(mclkSel := v), [MclkSelReg(v)], 0)
    else match DivNum(rate)
      case None => (c, [], -EINVAL)
      case Some(d) =>
        if active != 0 then (c, [], if c.divNum != d then -EINVAL else 0)
        else
          var v := DivReg(c.divReg, d as bv32);
          (c.(divNum := d, divReg := v), [DivNumReg(v)], 0)
  }

  /**
   * On the eswin platform the rate is accepted iff it divides 192000 and,
   * while a stream runs, needs the running divider; only an idle controller
   * programs the divider, and a refused rate writes nothing.
   */
  lemma RateSetupDivider(rate: nat, active: int, c: Clocking)
    requires rate > 0
    ensures var (c2, w, r) := RateSetup(true, rate, active, c, 0, 0);
            (r == 0 <==> DivNum(rate).Some? && (active == 0 || c.divNum == DivNum(rate).value))
            && (r != 0 ==> r == -EINVAL && c2 == c && w == [])
            && (r == 0 && active != 0 ==> c2 == c && w == [])
            && (r == 0 && active == 0 ==> c2.divNum == DivNum(rate).value && c2.mclkSel == c.mclkSel
                                          && w == [DivNumReg(c2.divReg)]
                                          && c2.divReg == DivReg(c.divReg, DivNum(rate).value as bv32))
  {
  }

  /**
   * On the other platform the rate is accepted iff it has a divisor code,
   * which then lands in vo_mclk_sel; lookup failures are passed on.
   */
  lemma RateSetupMclk(rate: nat, active: int, c: Clocking, sysconErr: int, propErr: int)
    requires rate > 0
    ensures var (c2, w, r) := RateSetup(false, rate, active, c, sysconErr, propErr);
            (sysconErr != 0 ==> r == sysconErr && c2 == c && w == [])
            && (sysconErr == 0 && propErr != 0 ==> r == propErr && c2 == c && w == [])
            && (sysconErr == 0 && propErr == 0 ==>
                  (r == 0 <==> MclkDivisor(rate).Some?)
                  && (r != 0 ==> r == -EINVAL && c2 == c && w == [])
                  && (r == 0 ==> c2 == c.(mclkSel := MclkSel(c.mclkSel, MclkDivisor(rate).value))
                                 && w == [MclkSelReg(c2.mclkSel)]))
  {
  }

  /**
   * The rate step of i2s_hw_params as the driver runs it: the switch on the
   * rate for vo_mclk_sel, or the 192 kHz divider on the eswin platform.
   */
  method RateStep(eswinPlat: bool, rate: nat, active: int, c: Clocking, sysconErr: int, propErr: int)
    returns (c2: Clocking, w: seq<Write>, ret: int)
    requires rate > 0
    ensures (c2, w, ret) == RateSetup(eswinPlat, rate, active, c, sysconErr, propErr)
  {
    c2, w, ret := c, [], 0;
    if !eswinPlat {
      if sysconErr != 0 {
        return c, [], sysconErr;
      }
      if propErr != 0 {
        return c, [], propErr;
      }
      var code: bv32;
      if rate == 96000 {
        code := 0x10;
      } else if rate == 48000 {
        code := 0x12;
      } else if rate == 44100 {
        code := 0x11;
      } else {
        return c, [], -EINVAL;
      }
      var sel := MclkSel(c.mclkSel, code);
      c2 := c.(mclkSel := sel);
      w := [MclkSelReg(sel)];
    } else {
      if MAX_SAMPLE_RATE_SUPPORT % rate != 0 {
        return c, [], -EINVAL;
      }
      var divNum := MAX_SAMPLE_RATE_SUPPORT / rate - 1;
      if active != 0 {
        if c.divNum != divNum {
          ret := -EINVAL;
        }
      } else {
        var reg := DivReg(c.divReg, divNum as bv32);
        c2 := c.(divNum := divNum, divReg := reg);
        w := [DivNumReg(reg)];
      }
    }
  }

  /** The activity state trigger and open share. */
  datatype Activity = Activity(active: int, playbackActive: bool, captureActive: bool)

  predicate StartCommand(cmd: int)
  {
    cmd == TRIGGER_START || cmd == TRIGGER_RESUME || cmd == TRIGGER_PAUSE_RELEASE
  }

  predicate StopCommand(cmd: int)
  {
    cmd == TRIGGER_STOP || cmd == TRIGGER_SUSPEND || cmd == TRIGGER_PAUSE_PUSH
  }

  function SetFlag(a: Activity, stream: Stream, on: bool): Activity
  {
    if stream == Playback then a.(playbackActive := on) else a.(captureActive := on)
  }

  function Flag(a: Activity, stream: Stream): bool
  {
    if stream == Playback then a.playbackActive else a.captureActive
  }

  /** i2s_open: a stream that is already running is busy. */
  function OpenResult(a: Activity, stream: Stream): int
  {
    if Flag(a, stream) then -EBUSY else 0
  }

  /** i2s_start's writes (the PIO interrupt and DMA enables aside). */
  function StartWrites(stream: Stream): seq<Write>
  {
    [Enable(true), StreamEnable(stream, true), ClockEnable(true)]
  }

  /** i2s_stop's writes given the count after the decrement: the last stream turns the block off. */
  function StopWrites(stream: Stream, active: int): seq<Write>
  {
    [StreamEnable(stream, false)] + (if active == 0 then [ClockEnable(false), Enable(false)] else [])
  }

  /** i2s_trigger: the new activity state, the writes and the result. */
  function Trigger(a: Activity, cmd: int, stream: Stream): (Activity, seq<Write>, int)
  {
    if StartCommand(cmd) then (SetFlag(a.(active := a.active + 1), stream, true), StartWrites(stream), 0)
    else if StopCommand(cmd) then
      (SetFlag(a.(active := a.active - 1), stream, false), StopWrites(stream, a.active - 1), 0)
    else (a, [], -EINVAL)
  }

  /**
   * A start counts the stream in and marks it busy for open; a stop counts
   * it out and frees it; any other command changes nothing and fails.
   */
  lemma TriggerOutcome(a: Activity, cmd: int, stream: Stream)
    ensures var (b, w, r) := Trigger(a, cmd, stream);
            (StartCommand(cmd) ==> r == 0 && b.active == a.active + 1 && OpenResult(b, stream) == -EBUSY)
            && (StopCommand(cmd) ==> r == 0 && b.active == a.active - 1 && OpenResult(b, stream) == 0)
            && (!StartCommand(cmd) && !StopCommand(cmd) ==> r == -EINVAL && b == a && w == [])
            && (StartCommand(cmd) || StopCommand(cmd) ==> Flag(b, OtherStream(stream)) == Flag(a, OtherStream(stream)))
  {
  }

  function OtherStream(s: Stream): Stream
  {
    if s == Playback then Capture else Playback
  }

  /** A stop turns the controller off (CER, IER) exactly when it ends the last active stream. */
  lemma StopTurnsOffLast(a: Activity, cmd: int, stream: Stream)
    requires StopCommand(cmd)
    ensures ClockEnable(false) in Trigger(a, cmd, stream).1 <==> a.active == 1
    ensures Enable(false) in Trigger(a, cmd, stream).1 <==> a.active == 1
  {
    var w := Trigger(a, cmd, stream).1;
    if a.active != 1 {
      assert w == [StreamEnable(stream, false)];
    }
  }

  /** A start then a stop of the same stream restores the count and leaves the stream free to open. */
  lemma StartStopRestores(a: Activity, stream: Stream)
    ensures var b := Trigger(Trigger(a, TRIGGER_START, stream).0, TRIGGER_STOP, stream).0;
            b.active == a.active && OpenResult(b, stream) == 0
            && Flag(b, OtherStream(stream)) == Flag(a, OtherStream(stream))
  {
  }

  // ---------------------------------------------------------------------
  // The device.

  /** One I2S controller instance. */
  class I2sDev {
    const eswinPlat: bool
    var canMaster: bool
    var canSlave: bool
    var fifoTh: nat
    var dataWidth: nat
    var xferResolution: Resolution
    var chanNr: nat
    var sampleRate: nat
    var clocking: Clocking
    var activity: Activity
    var writes: seq<Write>

    /** A zero-filled device structure, as kzalloc leaves it. */
    constructor (eswinPlat: bool, divReg: bv32, mclkSel: bv32)
      ensures !canMaster && !canSlave && fifoTh == 0 && chanNr == 0
      ensures clocking == Clocking(0, divReg, mclkSel) && activity == Activity(0, false, false) && writes == []
    {
      this.eswinPlat := eswinPlat;
      canMaster := false;
      canSlave := false;
      fifoTh := 0;
      dataWidth := 0;
      xferResolution := Res16Bit;
      chanNr := 0;
      sampleRate := 0;
      clocking := Clocking(0, divReg, mclkSel);
      activity := Activity(0, false, false);
      writes := [];
    }

    /**
     * i2s_configure_dai: the DAI description, and on success the master or
     * slave capability bit and the FIFO threshold.
     */
    method ConfigureDai(c: Comp, rates: nat) returns (cfg: DaiConfig)
      requires c.fifoDepthField < 31
      modifies this
      ensures cfg == ConfigureDaiSpec(c, rates)
      ensures cfg.ret != 0 ==> canMaster == old(canMaster) && canSlave == old(canSlave) && fifoTh == old(fifoTh)
      ensures cfg.ret == 0 ==> canMaster == (old(canMaster) || c.masterMode) && canSlave == (old(canSlave) || !c.masterMode)
                               && fifoTh == Pow2(c.fifoDepthField)
      ensures clocking == old(clocking) && activity == old(activity) && writes == old(writes) && chanNr == old(chanNr)
      ensures dataWidth == old(dataWidth) && xferResolution == old(xferResolution) && sampleRate == old(sampleRate)
    {
      var fifoDepth := FifoDepth(c.fifoDepthField);
      var play: Option<StreamCaps> := None;
      var capture: Option<StreamCaps> := None;
      if c.txEnabled {
        if c.txWordsize >= COMP1_MAX_WORDSIZE {
          return DaiConfig(None, None, -EINVAL);
        }
        play := Some(Caps(c.txWordsize, c.txChannels, rates));
      }
      if c.rxEnabled {
        if c.rxWordsize >= COMP1_MAX_WORDSIZE {
          return DaiConfig(play, None, -EINVAL);
        }
        capture := Some(Caps(c.rxWordsize, c.rxChannels, rates));
      }
      if c.masterMode {
        canMaster := true;
      } else {
        canSlave := true;
      }
      FifoThresholdHalfDepth(c.fifoDepthField);
      fifoTh := fifoDepth / 2;
      cfg := DaiConfig(play, capture, 0);
    }

    /** i2s_config: disable the first pair, then configure and enable each pair of `chanNr` channels. */
    method Config(stream: Stream)
      modifies this
      ensures writes == old(writes) + ConfigWrites(stream, chanNr, xferResolution, fifoTh)
      ensures chanNr == old(chanNr) && xferResolution == old(xferResolution) && fifoTh == old(fifoTh)
      ensures canMaster == old(canMaster) && canSlave == old(canSlave) && dataWidth == old(dataWidth)
      ensures sampleRate == old(sampleRate) && clocking == old(clocking) && activity == old(activity)
    {
      writes := writes + [ChannelsOff(stream)];
      var w0 := writes;
      var n, res, th := chanNr, xferResolution, fifoTh;
      var ch := 0;
      while ch < n / 2
        invariant 0 <= ch <= n / 2
        invariant chanNr == n && xferResolution == res && fifoTh == th
        invariant canMaster == old(canMaster) && canSlave == old(canSlave) && dataWidth == old(dataWidth)
        invariant sampleRate == old(sampleRate) && clocking == old(clocking) && activity == old(activity)
        invariant writes == w0 + ChannelWrites(stream, ch, res, th)
      {
        writes := writes + [ChannelResolution(stream, ch, res), ChannelThreshold(stream, ch, U32(th as int - 1)), ChannelOn(stream, ch)];
        ch := ch + 1;
      }
    }

    /**
     * i2s_hw_params. `sysconErr` and `propErr` are the results of the
     * vo_mclk_sel syscon lookups (0 or an error). ALSA never passes a zero
     * rate, which the divider computation divides by.
     */
    method HwParams(stream: Stream, format: PcmFormat, channels: nat, rate: nat, sysconErr: int, propErr: int)
      returns (ret: int)
      requires rate > 0
      modifies this
      ensures activity == old(activity) && canMaster == old(canMaster) && canSlave == old(canSlave) && fifoTh == old(fifoTh)
      ensures FormatParams(format).None? ==>
                ret == -EINVAL && writes == old(writes) && chanNr == old(chanNr) && clocking == old(clocking)
                && dataWidth == old(dataWidth) && xferResolution == old(xferResolution) && sampleRate == old(sampleRate)
      ensures FormatParams(format).Some? ==>
                (dataWidth, xferResolution) == FormatParams(format).value && chanNr == channels
      ensures FormatParams(format).Some? && channels != TWO_CHANNEL_SUPPORT ==>
                ret == -EINVAL && writes == old(writes) && clocking == old(clocking) && sampleRate == old(sampleRate)
      ensures FormatParams(format).Some? && channels == TWO_CHANNEL_SUPPORT ==>
                var head := old(writes) + ConfigWrites(stream, 2, xferResolution, fifoTh) + [ClockConfig];
                sampleRate == rate
                && (!canMaster ==> ret == 0 && writes == head && clocking == old(clocking))
                && (canMaster ==> var (c, w, r) := RateSetup(eswinPlat, rate, activity.active, old(clocking), sysconErr, propErr);
                                  clocking == c && writes == head + w && ret == r)
    {
      var fp := FormatParams(format);
      if fp.None? {
        return -EINVAL;
      }
      dataWidth, xferResolution := fp.value.0, fp.value.1;
      chanNr := channels;
      if chanNr != TWO_CHANNEL_SUPPORT {
        return -EINVAL;
      }
      Config(stream);
      writes := writes + [ClockConfig];
      sampleRate := rate;
      ret := 0;
      if canMaster {
        ret := SetRate(rate, sysconErr, propErr);
      }
    }

    /** The master-clock tail of i2s_hw_params for `rate`. */
    method SetRate(rate: nat, sysconErr: int, propErr: int) returns (ret: int)
      requires rate > 0
      modifies this
      ensures var (c, w, r) := RateSetup(eswinPlat, rate, old(activity).active, old(clocking), sysconErr, propErr);
              clocking == c && writes == old(writes) + w && ret == r
      ensures activity == old(activity) && canMaster == old(canMaster) && canSlave == old(canSlave) && fifoTh == old(fifoTh)
      ensures dataWidth == old(dataWidth) && xferResolution == old(xferResolution) && chanNr == old(chanNr)
      ensures sampleRate == old(sampleRate)
    {
      var c, w;
      c, w, ret := RateStep(eswinPlat, rate, activity.active, clocking, sysconErr, propErr);
      clocking := c;
      writes := writes + w;
    }

    /** i2s_trigger. */
    method TriggerStream(cmd: int, stream: Stream) returns (ret: int)
      modifies this
      ensures var (a, w, r) := Trigger(old(activity), cmd, stream);
              activity == a && writes == old(writes) + w && ret == r
      ensures canMaster == old(canMaster) && canSlave == old(canSlave) && fifoTh == old(fifoTh)
      ensures chanNr == old(chanNr) && clocking == old(clocking)
      ensures dataWidth == old(dataWidth) && xferResolution == old(xferResolution) && sampleRate == old(sampleRate)
    {
      ret := 0;
      if StartCommand(cmd) {
        activity := activity.(active := activity.active + 1);
        writes := writes + StartWrites(stream);
        activity := SetFlag(activity, stream, true);
      } else if StopCommand(cmd) {
        activity := activity.(active := activity.active - 1);
        writes := writes + [StreamEnable(stream, false)];
        if activity.active == 0 {
          writes := writes + [ClockEnable(false), Enable(false)];
        }
        activity := SetFlag(activity, stream, false);
      } else {
        ret := -EINVAL;
      }
    }

    /** i2s_open. */
    method Open(stream: Stream) returns (ret: int)
      ensures ret == OpenResult(activity, stream)
      ensures ret == -EBUSY <==> (stream == Playback && activity.playbackActive) || (stream == Capture && activity.captureActive)
    {
      if (stream == Playback && activity.playbackActive) || (stream == Capture && activity.captureActive) {
        return -EBUSY;
      }
      return 0;
    }
  }
}
