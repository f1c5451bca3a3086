/**
 * Core-clock and card-clock control of the ESWIN SDHCI hosts (sdhci-eswin.c).
 *
 * `set_core_clock` picks a source clock (208 MHz when it divides the request
 * exactly, 200 MHz otherwise), searches the smallest divider that brings the
 * source down to the request, and reprograms the core-clock register with the
 * card clock gated off.  The layout of the core-clock register and the two
 * source rates come from sdhci-eswin.h, which is not part of this model; they
 * are parameters here.
 */
module SdhciClock {
  import opened CArith

  /** SDHCI_CLOCK_CONTROL bits (sdhci.h). */
  const CLOCK_INT_EN: bv16 := 0x0001
  const CLOCK_INT_STABLE: bv16 := 0x0002
  const CLOCK_CARD_EN: bv16 := 0x0004

  /**
   * The rates of sdhci-eswin.h that the divider search uses; the layout of
   * the core-clock register is held by the host (SdhciClocks) itself.
   */
  datatype ClockConfig = ClockConfig(
    clk208: nat,        // SDHCI_CLK_208M
    clk200: nat,        // SDHCI_CLK_200M
    maxDiv: nat)        // MAX_CORE_CLK_DIV

  // ---------------------------------------------------------------------
  // Divisor selection.

  /** The source clock: (flag_sel, max_clk). */
  function ClockSource(cfg: ClockConfig, clock: nat): (flagMax: (nat, nat))
    requires clock > 0
  {
    if cfg.clk208 % clock == 0 then (1, cfg.clk208) else (0, cfg.clk200)
  }

  /** The divider search from candidate `d` on, as `div` after the final `div--`. */
  function DivisorFrom(maxClk: nat, clock: nat, maxDiv: nat, d: nat): nat
    requires d >= 1
    decreases maxDiv + 1 - d
  {
    if d > maxDiv then maxDiv
    else if maxClk / d <= clock then d - 1
    else DivisorFrom(maxClk, clock, maxDiv, d + 1)
  }

  function Divisor(maxClk: nat, clock: nat, maxDiv: nat): nat
  {
    DivisorFrom(maxClk, clock, maxDiv, 1)
  }

  /** `divide`: the divider value actually programmed. */
  function Divide(div: nat): nat
  {
    if div <= 1 then 2 else (div + 1) * 2
  }

  /**
   * The loop of set_core_clock: `div` ends one below the smallest candidate
   * that brings `maxClk` down to `clock`, or at MAX_CORE_CLK_DIV.
   */
  method SelectDivisor(maxClk: nat, clock: nat, maxDiv: nat) returns (div: nat)
    ensures div == Divisor(maxClk, clock, maxDiv)
  {
    div := 1;
    while div <= maxDiv
      invariant 1 <= div <= maxDiv + 1
      invariant DivisorFrom(maxClk, clock, maxDiv, div) == Divisor(maxClk, clock, maxDiv)
      decreases maxDiv + 1 - div
    {
      if maxClk / div <= clock {
        break;
      }
      div := div + 1;
    }
    div := div - 1;
  }

  lemma {:induction false} DivisorFromSpec(maxClk: nat, clock: nat, maxDiv: nat, d: nat)
    requires 1 <= d <= maxDiv + 1
    requires forall e :: 1 <= e < d ==> maxClk / e > clock
    ensures DivisorFrom(maxClk, clock, maxDiv, d) <= maxDiv
    ensures forall e :: 1 <= e <= DivisorFrom(maxClk, clock, maxDiv, d) ==> maxClk / e > clock
    ensures DivisorFrom(maxClk, clock, maxDiv, d) < maxDiv ==>
              maxClk / (DivisorFrom(maxClk, clock, maxDiv, d) + 1) <= clock
    decreases maxDiv + 1 - d
  {
    if d <= maxDiv && maxClk / d > clock {
      DivisorFromSpec(maxClk, clock, maxDiv, d + 1);
    }
  }

  /**
   * `div + 1` is the smallest candidate in 1..MAX_CORE_CLK_DIV whose quotient
   * does not exceed the request; `div` is MAX_CORE_CLK_DIV only when no
   * candidate below it qualifies.
   */
  lemma DivisorMinimal(maxClk: nat, clock: nat, maxDiv: nat)
    ensures Divisor(maxClk, clock, maxDiv) <= maxDiv
    ensures forall e :: 1 <= e <= Divisor(maxClk, clock, maxDiv) ==> maxClk / e > clock
    ensures Divisor(maxClk, clock, maxDiv) < maxDiv ==>
              maxClk / (Divisor(maxClk, clock, maxDiv) + 1) <= clock
  {
    DivisorFromSpec(maxClk, clock, maxDiv, 1);
  }

  /** With no qualifying candidate at all, the search ends at MAX_CORE_CLK_DIV. */
  lemma {:induction false} DivisorNoneQualifies(maxClk: nat, clock: nat, maxDiv: nat, d: nat)
    requires 1 <= d
    requires forall e :: d <= e <= maxDiv ==> maxClk / e > clock
    ensures DivisorFrom(maxClk, clock, maxDiv, d) == maxDiv
    decreases maxDiv + 1 - d
  {
    if d <= maxDiv {
      DivisorNoneQualifies(maxClk, clock, maxDiv, d + 1);
    }
  }

  /** The programmed divider is even and between 2 and 2*(MAX_CORE_CLK_DIV+1). */
  lemma DivideRange(div: nat, maxDiv: nat)
    requires div <= maxDiv
    ensures Divide(div) % 2 == 0
    ensures 2 <= Divide(div) <= 2 * (maxDiv + 1)
    ensures div >= 2 ==> Divide(div) == 2 * (div + 1)
  {
  }

  /** The 208 MHz source is chosen exactly when it is a multiple of the request. */
  lemma SourceChoice(cfg: ClockConfig, clock: nat)
    requires clock > 0
    ensures ClockSource(cfg, clock).0 == 1 <==> cfg.clk208 % clock == 0
    ensures ClockSource(cfg, clock).0 == 1 ==> ClockSource(cfg, clock).1 == cfg.clk208
    ensures ClockSource(cfg, clock).0 == 0 ==> ClockSource(cfg, clock).1 == cfg.clk200
  {
  }

  // ---------------------------------------------------------------------
  // Core-clock register values.
  //
  // coreclk_config writes the register three times: with the enable bit
  // cleared, with the new divisor and select flag, and with the enable bit
  // set again.  The frequency field is `MASK << SHIFT` in place and the new
  // divisor enters it as `(divisor & MASK) << SHIFT`.

  /** A shift amount within a 32-bit register. */
  type ShiftAmount = s: bv32 | s < 32

  /** The value of the last write, with `field` the frequency field in place and `x` the shifted divisor. */
  function Reprogram(v: bv32, en: bv32, field: bv32, sel: bv32, x: bv32, flag: bv32): bv32
  {
    (((((v & !en) & !field) | x) & !sel) | flag) | en
  }

  /** The value of the second write. */
  function Program(v: bv32, en: bv32, field: bv32, sel: bv32, x: bv32, flag: bv32): bv32
  {
    ((((v & !en) & !field) | x) & !sel) | flag
  }

  lemma ReprogramField(v: bv32, en: bv32, field: bv32, sel: bv32, x: bv32, flag: bv32)
    requires en & field == 0 && sel & field == 0 && x & !field == 0 && flag & !sel == 0
    ensures Reprogram(v, en, field, sel, x, flag) & field == x
  {
  }

  lemma ReprogramSelect(v: bv32, en: bv32, field: bv32, sel: bv32, x: bv32, flag: bv32)
    requires en & sel == 0 && flag & !sel == 0
    ensures Reprogram(v, en, field, sel, x, flag) & sel == flag
  {
  }

  lemma ReprogramKeeps(v: bv32, en: bv32, field: bv32, sel: bv32, x: bv32, flag: bv32)
    requires x & !field == 0 && flag & !sel == 0
    ensures Reprogram(v, en, field, sel, x, flag) & !(en | sel | field) == v & !(en | sel | field)
  {
  }

  /** The core clock is off during the second write (the first only clears the enable bit). */
  lemma ProgramGated(v: bv32, en: bv32, field: bv32, sel: bv32, x: bv32, flag: bv32)
    requires en & field == 0 && en & sel == 0 && x & !field == 0 && flag & !sel == 0
    ensures Program(v, en, field, sel, x, flag) & en == 0
  {
  }

  /**
   * The last write turns the core clock on: the enable bit reads set, and
   * every other bit of the register is what the second write left.
   */
  lemma ReprogramEnables(v: bv32, en: bv32, field: bv32, sel: bv32, x: bv32, flag: bv32)
    ensures Reprogram(v, en, field, sel, x, flag) & en == en
    ensures Reprogram(v, en, field, sel, x, flag) & !en == Program(v, en, field, sel, x, flag) & !en
  {
  }

  /**
   * The core-clock register after coreclk_config(divisor, flag_sel) on a
   * register holding v, for the layout ENABLE / FREQ_BIT_MASK /
   * FREQ_BIT_SHIFT / SEL_BIT.
   */
  function CoreClkAfter(en: bv32, mask: bv32, shift: ShiftAmount, sel: bv32, v: bv32, divisor: bv32, flagSel: bv32): bv32
  {
    Reprogram(v, en, mask << shift, sel, (divisor & mask) << shift, flagSel)
  }

  lemma CoreClkAfterUnfold(en: bv32, mask: bv32, shift: ShiftAmount, sel: bv32, v: bv32, divisor: bv32, flagSel: bv32)
    ensures CoreClkAfter(en, mask, shift, sel, v, divisor, flagSel)
            == Reprogram(v, en, mask << shift, sel, (divisor & mask) << shift, flagSel)
  {
  }

  /**
   * After coreclk_config the frequency field holds exactly the masked
   * divisor, when the field overlaps neither the enable nor the select bit
   * and flag_sel stays within the select bit.
   */
  lemma CoreClkConfigField(en: bv32, mask: bv32, shift: ShiftAmount, sel: bv32, v: bv32, divisor: bv32, flagSel: bv32)
    requires en & (mask << shift) == 0 && sel & (mask << shift) == 0 && flagSel & !sel == 0
    ensures Reprogram(v, en, mask << shift, sel, (divisor & mask) << shift, flagSel) & (mask << shift)
            == (divisor & mask) << shift
  {
  }

  /** The masked divisor, shifted into place, lies inside the frequency field. */
  lemma ShiftedDivisorInField(mask: bv32, divisor: bv32, shift: ShiftAmount)
    ensures ((divisor & mask) << shift) & !(mask << shift) == 0
  {
    ShiftMasked(mask, divisor & mask, shift);
  }

  lemma ShiftMasked(m: bv32, d: bv32, s: ShiftAmount)
    requires d & m == d
    ensures (d << s) & !(m << s) == 0
  {
  }

  /** coreclk_disable clears the enable bit and nothing else. */
  lemma CoreClkDisableEffect(v: bv32, en: bv32)
    ensures (v & !en) & en == 0
    ensures (v & !en) & !en == v & !en
  {
  }

  // ---------------------------------------------------------------------
  // The host's clock registers.

  /** Register writes, named by the read-modify-write that produces them. */
  datatype ClockWrite =
    | CoreClkGate                            // core_clk_reg with MSHC_CORE_CLK_ENABLE cleared
    | CoreClkProgram(divisor: bv32, flagSel: bv32) // core_clk_reg with new divisor and select flag
    | CoreClkUngate                          // core_clk_reg with MSHC_CORE_CLK_ENABLE set
    | CardClkOff                             // SDHCI_CLOCK_CONTROL with CARD_EN cleared
    | InternalClkOn                          // SDHCI_CLOCK_CONTROL with INT_EN set
    | CardClkOn                              // SDHCI_CLOCK_CONTROL as polled, with CARD_EN set

  class SdhciClocks {
    const cfg: ClockConfig
    /** MSHC_CORE_CLK_ENABLE, MSHC_CORE_CLK_FREQ_BIT_MASK, MSHC_CORE_CLK_FREQ_BIT_SHIFT, MSHC_CORE_CLK_SEL_BIT. */
    const enable: bv32
    const freqMask: bv32
    const freqShift: ShiftAmount
    const selBit: bv32
    /** The core-clock register (core_clk_reg). */
    var coreClk: bv32
    /** SDHCI_CLOCK_CONTROL as last read or written. */
    var clockCtrl: bv16
    /** Every register write, oldest first. */
    var log: seq<ClockWrite>

    constructor (cfg: ClockConfig, enable: bv32, freqMask: bv32, freqShift: ShiftAmount, selBit: bv32,
                 coreClk: bv32, clockCtrl: bv16)
      ensures this.cfg == cfg && this.enable == enable && this.freqMask == freqMask
      ensures this.freqShift == freqShift && this.selBit == selBit
      ensures this.coreClk == coreClk && this.clockCtrl == clockCtrl && log == []
    {
      this.cfg := cfg;
      this.enable, this.freqMask, this.freqShift, this.selBit := enable, freqMask, freqShift, selBit;
      this.coreClk := coreClk;
      this.clockCtrl := clockCtrl;
      this.log := [];
    }

    method WriteCore(w: ClockWrite, v: bv32)
      modifies this
      ensures coreClk == v && clockCtrl == old(clockCtrl)
      ensures log == old(log) + [w]
    {
      coreClk := v;
      log := log + [w];
    }

    method WriteCtrl(w: ClockWrite, v: bv16)
      modifies this
      ensures clockCtrl == v && coreClk == old(coreClk)
      ensures log == old(log) + [w]
    {
      clockCtrl := v;
      log := log + [w];
    }

    /** eswin_mshc_coreclk_config; the settling delays are not modelled. */
    method CoreClkConfig(divisor: bv32, flagSel: bv32)
      modifies this
      ensures log == old(log) + [CoreClkGate, CoreClkProgram(divisor, flagSel), CoreClkUngate]
      ensures coreClk == Reprogram(old(coreClk), enable, freqMask << freqShift, selBit,
                                   (divisor & freqMask) << freqShift, flagSel)
      ensures clockCtrl == old(clockCtrl)
    {
      var v := coreClk;
      v := v & !enable;
      WriteCore(CoreClkGate, v);
      v := v & !(freqMask << freqShift);
      v := v | ((divisor & freqMask) << freqShift);
      v := v & !selBit;
      v := v | flagSel;
      WriteCore(CoreClkProgram(divisor, flagSel), v);
      v := v | enable;
      WriteCore(CoreClkUngate, v);
    }

    /** eswin_mshc_coreclk_disable. */
    method CoreClkDisable()
      modifies this
      ensures coreClk == old(coreClk) & !enable && clockCtrl == old(clockCtrl)
      ensures log == old(log) + [CoreClkGate]
    {
      WriteCore(CoreClkGate, coreClk & !enable);
    }

    /** eswin_sdhci_disable_card_clk: clears only SDHCI_CLOCK_CARD_EN. */
    method DisableCardClk()
      modifies this
      ensures clockCtrl == old(clockCtrl) & !CLOCK_CARD_EN && coreClk == old(coreClk)
      ensures log == old(log) + [CardClkOff]
    {
      WriteCtrl(CardClkOff, clockCtrl & !CLOCK_CARD_EN);
    }

    /**
     * eswin_sdhci_enable_card_clk.  The 150 ms stabilisation wait is an
     * input: `stable` is the clock-control value read when INT_STABLE was
     * seen, or None when the wait timed out.
     */
    method EnableCardClk(stable: Option<bv16>)
      requires stable.Some? ==> stable.value & CLOCK_INT_STABLE != 0
      modifies this
      ensures coreClk == old(coreClk)
      ensures stable.None? ==> log == old(log) + [InternalClkOn] && clockCtrl == old(clockCtrl) | CLOCK_INT_EN
      ensures stable.Some? ==> log == old(log) + [InternalClkOn, CardClkOn]
                               && clockCtrl == stable.value | CLOCK_CARD_EN
    {
      WriteCtrl(InternalClkOn, clockCtrl | CLOCK_INT_EN);
      if stable.None? {
        return;
      }
      clockCtrl := stable.value;
      WriteCtrl(CardClkOn, clockCtrl | CLOCK_CARD_EN);
    }

    /** eswin_sdhci_set_core_clock. */
    method SetCoreClock(clock: nat, stable: Option<bv16>) returns (divisor: bv32, flagSel: bv32)
      requires stable.Some? ==> stable.value & CLOCK_INT_STABLE != 0
      modifies this
      ensures clock == 0 ==> log == old(log) + [CoreClkGate]
                             && coreClk == old(coreClk) & !enable && clockCtrl == old(clockCtrl)
      ensures clock > 0 ==> divisor == CoreDivisor(cfg, clock) && flagSel == FlagSel(cfg, clock)
      ensures clock > 0 ==>
                && log == old(log) + [CardClkOff, CoreClkGate, CoreClkProgram(divisor, flagSel),
                                      CoreClkUngate, InternalClkOn] + (if stable.Some? then [CardClkOn] else [])
                && coreClk == CoreClkAfter(enable, freqMask, freqShift, selBit, old(coreClk), divisor, flagSel)
                && clockCtrl == if stable.Some? then stable.value | CLOCK_CARD_EN
                                else (old(clockCtrl) & !CLOCK_CARD_EN) | CLOCK_INT_EN
    {
      if clock == 0 {
        CoreClkDisable();
        return 0, 0;
      }
      divisor, flagSel := ClockDivider(cfg, clock);
      Reclock(divisor, flagSel, stable);
    }

    /** The body of set_core_clock once the divider is known: gate, reprogram, ungate. */
    method Reclock(divisor: bv32, flagSel: bv32, stable: Option<bv16>)
      requires stable.Some? ==> stable.value & CLOCK_INT_STABLE != 0
      modifies this
      ensures log == old(log) + [CardClkOff, CoreClkGate, CoreClkProgram(divisor, flagSel), CoreClkUngate,
                                 InternalClkOn] + (if stable.Some? then [CardClkOn] else [])
      ensures coreClk == CoreClkAfter(enable, freqMask, freqShift, selBit, old(coreClk), divisor, flagSel)
      ensures clockCtrl == if stable.Some? then stable.value | CLOCK_CARD_EN
                           else (old(clockCtrl) & !CLOCK_CARD_EN) | CLOCK_INT_EN
    {
      DisableCardClk();
      CoreClkAfterUnfold(enable, freqMask, freqShift, selBit, coreClk, divisor, flagSel);
      CoreClkConfig(divisor, flagSel);
      EnableCardClk(stable);
    }
  }

  /**
   * The first half of set_core_clock: the clock source chosen for `clock`
   * and the divisor found by the search loop, as passed to coreclk_config.
   */
  method ClockDivider(cfg: ClockConfig, clock: nat) returns (divisor: bv32, flagSel: bv32)
    requires clock > 0
    ensures divisor == CoreDivisor(cfg, clock) && flagSel == FlagSel(cfg, clock)
  {
    var flag, maxClk := ClockSource(cfg, clock).0, ClockSource(cfg, clock).1;
    var div := SelectDivisor(maxClk, clock, cfg.maxDiv);
    divisor := U16(Divide(div));
    flagSel := if flag == 1 then 1 else 0;
  }

  /** The `uint16_t divisor` that set_core_clock passes to coreclk_config. */
  function CoreDivisor(cfg: ClockConfig, clock: nat): bv32
    requires clock > 0
  {
    U16(Divide(Divisor(ClockSource(cfg, clock).1, clock, cfg.maxDiv)))
  }

  /** `flag_sel` as the register bits it is ORed in as. */
  function FlagSel(cfg: ClockConfig, clock: nat): bv32
    requires clock > 0
  {
    if ClockSource(cfg, clock).0 == 1 then 1 else 0
  }

  /** The low 16 bits of an unsigned value (the `uint16_t divisor` parameter). */
  function U16(x: nat): bv32
  {
    (x % 0x10000) as bv32
  }

  // ---------------------------------------------------------------------
  // Device-tree clock phases and drive strength.

  /**
   * The return value of of_property_read_variable_u32_array(np, prop, cells,
   * 2, 0) for a property `prop`: None when it is missing or too short (a
   * negative errno, -EINVAL standing for all of them), otherwise the two
   * cells it read and the count 2.
   */
  function PhaseReadReturn(prop: Option<(int, int)>): (ret: int)
    ensures ret < 0 <==> prop.None?
    ensures ret != 0
  {
    if prop.None? then -EINVAL else 2
  }

  /**
   * eswin_sdhci_dt_read_clk_phase as written: it keeps the predefined phases
   * whenever the read returns non-zero, which the two-cell count of a
   * successful read also is, so no phase is ever stored.
   */
  method ReadClkPhaseAsWritten(phaseIn: array<int>, phaseOut: array<int>, timing: nat, prop: Option<(int, int)>)
    requires timing < phaseIn.Length && timing < phaseOut.Length && phaseIn != phaseOut
    modifies phaseIn, phaseOut
    ensures phaseIn[..] == old(phaseIn[..]) && phaseOut[..] == old(phaseOut[..])
  {
    var ret := PhaseReadReturn(prop);
    if ret != 0 {
      return;
    }
    // The stores of the two phases that follow the test are never reached.
    assert false;
  }

  /**
   * eswin_sdhci_dt_read_clk_phase with the failure test the comment in the
   * driver describes: predefined phases are kept only when the read fails.
   */
  method ReadClkPhase(phaseIn: array<int>, phaseOut: array<int>, timing: nat, prop: Option<(int, int)>)
    requires timing < phaseIn.Length && timing < phaseOut.Length && phaseIn != phaseOut
    modifies phaseIn, phaseOut
    ensures prop.None? ==> phaseIn[..] == old(phaseIn[..]) && phaseOut[..] == old(phaseOut[..])
    ensures prop.Some? ==> phaseIn[..] == old(phaseIn[..])[timing := prop.value.0]
                           && phaseOut[..] == old(phaseOut[..])[timing := prop.value.1]
  {
    var ret := PhaseReadReturn(prop);
    if ret < 0 {
      return;
    }
    phaseIn[timing] := prop.value.0;
    phaseOut[timing] := prop.value.1;
  }

  /** The PHYCTRL_DR_* drive-strength codes. */
  datatype DriveStrength = Dr100Ohm | Dr66Ohm | Dr50Ohm | Dr40Ohm | Dr33Ohm

  /** eswin_convert_drive_impedance_ohm: unsupported values fall back to 50 ohm. */
  function ConvertDriveImpedance(ohm: nat): DriveStrength
  {
    match ohm
    case 100 => Dr100Ohm
    case 66 => Dr66Ohm
    case 50 => Dr50Ohm
    case 40 => Dr40Ohm
    case 33 => Dr33Ohm
    case _ => Dr50Ohm
  }

  /** The impedance each code stands for. */
  function DriveOhms(d: DriveStrength): (ohm: nat)
    ensures ohm in {100, 66, 50, 40, 33}
  {
    match d
    case Dr100Ohm => 100
    case Dr66Ohm => 66
    case Dr50Ohm => 50
    case Dr40Ohm => 40
    case Dr33Ohm => 33
  }

  /** Every supported impedance maps to its own code, and every other value to 50 ohm. */
  lemma DriveImpedanceRoundTrip(d: DriveStrength, ohm: nat)
    ensures ConvertDriveImpedance(DriveOhms(d)) == d
    ensures ohm in {100, 66, 50, 40, 33} ==> DriveOhms(ConvertDriveImpedance(ohm)) == ohm
    ensures ohm !in {100, 66, 50, 40, 33} ==> ConvertDriveImpedance(ohm) == Dr50Ohm
  {
  }
}
