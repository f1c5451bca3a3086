/**
 * The EIC7700 real-time clock driver (drivers/rtc/rtc-eswin.c): the alarm
 * interrupt enable bits in the control register, setting and reading the
 * alarm, the alarm interrupt, the register programming done at probe and
 * the wake-up bookkeeping of suspend and resume.
 *
 * The RTC registers are fields of a class (they read back what was last
 * written), and every register write is also logged in order. The time
 * conversions of the RTC core are left to the caller: an alarm arrives as
 * the `time64_t` the conversion produced and leaves as the `time64_t` it is
 * handed back to. Framework calls whose only effect is a result (the IRQ
 * number, resource lookups, clock enabling, `device_may_wakeup`,
 * `enable_irq_wake`) are parameters.
 */
module Rtc {
  import opened CArith

  /** The routing word with bits 13 and 14 cleared sends the RTC interrupt to the U84 cores. */
  const RTC_INT_TO_U84: bv32 := 0xffff_9fff
  const RTC_CCR_IE: bv32 := 0x1
  const RTC_CCR_MASK: bv32 := 0x2
  const RTC_CCR_EN: bv32 := 0x4
  const RTC_CCR_PEN: bv32 := 0x10
  const RTC_STAT_BIT: bv32 := 0x1

  const S64_MIN := -0x8000_0000_0000_0000
  const S64_LIMIT := 0x8000_0000_0000_0000

  datatype IrqReturn = IrqNone | IrqHandled

  /** A write to an RTC register or to the interrupt-routing word of the system controller. */
  datatype Write = Ccr(reg: bv32) | Cmr(compare: nat) | Cpsr(reg: bv32) | Route(reg: bv32)

  // ---------------------------------------------------------------------
  // Alarm enable bits
  // ---------------------------------------------------------------------

  /** The control register eswin_rtc_alarm_irq_enable writes back after reading `ccr`. */
  function AlarmCcr(ccr: bv32, enabled: bool): bv32
  {
    if enabled then (ccr & !RTC_CCR_MASK) | RTC_CCR_IE
    else (ccr & !RTC_CCR_IE) | RTC_CCR_MASK
  }

  /**
   * Enabling sets IE and clears MASK, disabling clears IE and sets MASK,
   * and every other control bit is kept.
   */
  lemma AlarmCcrBits(ccr: bv32, enabled: bool)
    ensures AlarmCcr(ccr, enabled) & RTC_CCR_IE == (if enabled then RTC_CCR_IE else 0)
    ensures AlarmCcr(ccr, enabled) & RTC_CCR_MASK == (if enabled then 0 else RTC_CCR_MASK)
    ensures AlarmCcr(ccr, enabled) & !(RTC_CCR_IE | RTC_CCR_MASK) == ccr & !(RTC_CCR_IE | RTC_CCR_MASK)
  {
  }

  /** Only the last enable counts: a second call overrides the first whatever it was. */
  lemma AlarmCcrLastWins(ccr: bv32, first: bool, second: bool)
    ensures AlarmCcr(AlarmCcr(ccr, first), second) == AlarmCcr(ccr, second)
  {
    var mid := AlarmCcr(ccr, first);
    AlarmCcrBits(ccr, first);
    AlarmCcrBits(mid, second);
    AlarmCcrBits(ccr, second);
    assert mid & !(RTC_CCR_IE | RTC_CCR_MASK) == ccr & !(RTC_CCR_IE | RTC_CCR_MASK);
  }

  /** The `enabled` flag read_alarm reports: the IE bit, as 0 or 1. */
  function AlarmEnabled(ccr: bv32): (e: nat)
    ensures e <= 1
    ensures e == 1 <==> ccr & RTC_CCR_IE != 0
  {
    (ccr & RTC_CCR_IE) as nat
  }

  /** Reading back after an enable call reports exactly whether the call enabled the alarm. */
  lemma EnabledAfterAlarmCcr(ccr: bv32, enabled: bool)
    ensures AlarmEnabled(AlarmCcr(ccr, enabled)) == (if enabled then 1 else 0)
  {
    AlarmCcrBits(ccr, enabled);
  }

  // ---------------------------------------------------------------------
  // Alarm time
  // ---------------------------------------------------------------------

  /** A `u64` handed to a `time64_t` parameter: the two's-complement reading. */
  function S64(u: nat): (t: int)
    requires u < U64_MODULUS
    ensures S64_MIN <= t < S64_LIMIT
    ensures (t - u) % U64_MODULUS == 0
  {
    if u < S64_LIMIT then u else u - U64_MODULUS
  }

  /**
   * The alarm time survives the round trip through the `unsigned long`
   * alarm_time field: what read_alarm hands to the conversion is what
   * set_alarm got from it.
   */
  lemma AlarmTimeRoundTrip(t: int)
    requires S64_MIN <= t < S64_LIMIT
    ensures S64(U64(t)) == t
  {
    if t < 0 {
      assert U64(t) == t + U64_MODULUS;
    }
  }

  /**
   * The alarm compare register holds the `(u32)` cast of the stored alarm
   * time: an alarm time that fits 32 bits is compared as is; one at or
   * beyond 2^32 seconds (the year 2106) is compared modulo 2^32, while
   * read_alarm still reports the full value.
   */
  lemma CompareValueWraps(alarmTime: nat)
    ensures alarmTime < U32_MODULUS ==> U32(alarmTime) == alarmTime
    ensures alarmTime >= U32_MODULUS ==> U32(alarmTime) != alarmTime && U32(alarmTime) == alarmTime % U32_MODULUS
  {
  }

  // ---------------------------------------------------------------------
  // Interrupt
  // ---------------------------------------------------------------------

  /** The interrupt is the RTC's iff bit 0 of the status register is set. */
  function IrqOutcome(stat: bv32): (r: IrqReturn)
    ensures r == IrqHandled <==> stat & RTC_STAT_BIT != 0
  {
    if stat & RTC_STAT_BIT == 0 then IrqNone else IrqHandled
  }

  // ---------------------------------------------------------------------
  // Probe
  // ---------------------------------------------------------------------

  /** The routing word after probe: the RTC interrupt goes to the U84 cores. */
  function RouteToU84(reg: bv32): bv32
  {
    reg & RTC_INT_TO_U84
  }

  /** Probe clears bits 13 and 14 of the routing word and no other bit. */
  lemma RouteToU84Bits(reg: bv32)
    ensures RouteToU84(reg) & 0x6000 == 0
    ensures RouteToU84(reg) & !0x6000 == reg & !0x6000
  {
  }

  /**
   * The results of the framework calls probe makes (0 or an error code
   * where the call returns one).
   */
  datatype ProbeEnv = ProbeEnv(
    mapErr: int,        // devm_ioremap_resource
    irq: int,           // platform_get_irq
    requestErr: int,    // devm_request_irq
    regmapErr: int,     // syscon_regmap_lookup_by_phandle
    intOffFound: bool,  // the "eswin,syscfg" routing offset
    freqFound: bool,    // the "clock-frequency" property
    resetFound: bool,   // the optional "rtcrst" reset
    clkFound: bool,     // the "rtcclk" clock
    enableErr: int,     // clk_prepare_enable
    registerErr: int)   // devm_rtc_device_register

  /**
   * Probe up to the routing update: 0 when the routing word is written,
   * otherwise the error probe returns (a missing routing offset gives -1).
   */
  function ProbeEarly(e: ProbeEnv): (r: int)
    ensures r != 0 ==> r == e.mapErr || r == e.irq || r == e.requestErr || r == e.regmapErr || r == -1
    ensures r == 0 <==> e.mapErr == 0 && e.irq >= 0 && e.requestErr == 0 && e.regmapErr == 0 && e.intOffFound
  {
    if e.mapErr != 0 then e.mapErr
    else if e.irq < 0 then e.irq
    else if e.requestErr != 0 then e.requestErr
    else if e.regmapErr != 0 then e.regmapErr
    else if !e.intOffFound then -1
    else 0
  }

  /**
   * Probe between the routing update and the control-register programming,
   * as written: the check after clk_prepare_enable tests the result left over
   * from reading "clock-frequency", so a missing property fails here and a
   * failed clock enable goes unnoticed.
   */
  function ProbeLateAsWritten(e: ProbeEnv): int
  {
    if !e.resetFound then -EFAULT
    else if !e.clkFound then -ENODEV
    else if !e.freqFound then -ENODEV
    else 0
  }

  /** As written, probe programs a clock that failed to start. */
  lemma ProbeIgnoresEnableFailure()
    ensures ProbeLateAsWritten(ProbeEnv(0, 5, 0, 0, true, true, true, true, -EIO, 0)) == 0
  {
  }

  /**
   * Probe between the routing update and the control-register programming,
   * with the clk_prepare_enable result checked as the error message intends;
   * a missing "clock-frequency" is only reported.
   */
  function ProbeLate(e: ProbeEnv): (r: int)
    ensures r == 0 <==> e.resetFound && e.clkFound && e.enableErr == 0
    ensures r != 0 ==> r == -EFAULT || r == -ENODEV
  {
    if !e.resetFound then -EFAULT
    else if !e.clkFound then -ENODEV
    else if e.enableErr != 0 then -ENODEV
    else 0
  }

  /**
   * The two versions differ exactly where the clock enable result and the
   * property lookup disagree; with both succeeding they agree.
   */
  lemma ProbeLateDiffers(e: ProbeEnv)
    ensures e.freqFound && e.enableErr == 0 ==> ProbeLate(e) == ProbeLateAsWritten(e)
    ensures e.resetFound && e.clkFound && e.freqFound && e.enableErr != 0 ==>
              ProbeLateAsWritten(e) == 0 && ProbeLate(e) == -ENODEV
  {
  }

  /**
   * The writes probe issues from the routing word `route` and control
   * register `ccr` it reads: routing, then EN, the prescaler, then PEN.
   */
  function ProbeWrites(route: bv32, ccr: bv32, clkFreq: bv32): seq<Write>
  {
    [Route(RouteToU84(route))] + StartWrites(ccr, clkFreq)
  }

  /** The writes that start the counter from control register `ccr`. */
  function StartWrites(ccr: bv32, clkFreq: bv32): seq<Write>
  {
    [Ccr(RTC_CCR_EN | ccr), Cpsr(clkFreq), Ccr(RTC_CCR_PEN | (RTC_CCR_EN | ccr))]
  }

  /**
   * The counter and prescaler are switched on in that order, after the
   * prescale value is written, and the other control bits are kept.
   */
  lemma ProbeWritesOrder(route: bv32, ccr: bv32, clkFreq: bv32)
    ensures var w := ProbeWrites(route, ccr, clkFreq);
            |w| == 4 && w[0].Route? && w[1].Ccr? && w[2] == Cpsr(clkFreq) && w[3].Ccr?
            && w[1].reg & RTC_CCR_EN != 0 && w[1].reg & RTC_CCR_PEN == ccr & RTC_CCR_PEN
            && w[3].reg & (RTC_CCR_EN | RTC_CCR_PEN) == RTC_CCR_EN | RTC_CCR_PEN
            && w[3].reg & !(RTC_CCR_EN | RTC_CCR_PEN) == ccr & !(RTC_CCR_EN | RTC_CCR_PEN)
  {
  }

  // ---------------------------------------------------------------------
  // The device
  // ---------------------------------------------------------------------

  /** struct eswin_rtc_dev with the registers it drives. */
  class RtcDev {
    var alarmTime: nat      // unsigned long alarm_time
    var irqWake: nat        // irq_wake
    var ccr: bv32           // RTC_CCR
    var cmr: nat            // RTC_CMR
    var cpsr: bv32          // RTC_CPSR
    var route: bv32         // the routing word at the syscon offset
    var clkOn: bool         // the RTC clock is enabled
    var wakeArmed: bool     // the interrupt is armed as a wake-up source
    var eoiReads: nat       // reads of RTC_EOI, each clearing the interrupt
    var alarmEvents: nat    // alarm events reported to the RTC core
    var writes: seq<Write>

    predicate Valid()
      reads this
    {
      alarmTime < U64_MODULUS && irqWake <= 1 && (irqWake == 1 ==> wakeArmed)
    }

    /** The zeroed structure of devm_kzalloc beside the hardware's register contents. */
    constructor (ccr: bv32, route: bv32)
      ensures Valid()
      ensures alarmTime == 0 && irqWake == 0 && this.ccr == ccr && this.route == route
      ensures !clkOn && !wakeArmed && eoiReads == 0 && alarmEvents == 0 && writes == []
    {
      alarmTime := 0;
      irqWake := 0;
      this.ccr := ccr;
      cmr := 0;
      cpsr := 0;
      this.route := route;
      clkOn := false;
      wakeArmed := false;
      eoiReads := 0;
      alarmEvents := 0;
      writes := [];
    }

    /** eswin_rtc_alarm_irq_enable: a read-modify-write of the control register. */
    method AlarmIrqEnable(enabled: nat) returns (ret: int)
      modifies this
      ensures ccr == AlarmCcr(old(ccr), enabled != 0) && writes == old(writes) + [Ccr(ccr)] && ret == 0
      ensures alarmTime == old(alarmTime) && irqWake == old(irqWake) && cmr == old(cmr) && cpsr == old(cpsr)
      ensures route == old(route) && clkOn == old(clkOn) && wakeArmed == old(wakeArmed)
      ensures eoiReads == old(eoiReads) && alarmEvents == old(alarmEvents)
    {
      var v := ccr;
      if enabled != 0 {
        v := v & !RTC_CCR_MASK;
        v := v | RTC_CCR_IE;
      } else {
        v := v & !RTC_CCR_IE;
        v := v | RTC_CCR_MASK;
      }
      ccr := v;
      writes := writes + [Ccr(v)];
      ret := 0;
    }

    /**
     * eswin_rtc_set_alarm, given the converted alarm time `t`: the time is
     * kept, its low 32 bits go to the compare register, then the enable bits.
     */
    method SetAlarm(t: int, enabled: nat) returns (ret: int)
      requires Valid()
      modifies this
      ensures Valid()
      ensures alarmTime == U64(t) && cmr == U32(alarmTime) && ccr == AlarmCcr(old(ccr), enabled != 0)
      ensures writes == old(writes) + [Cmr(cmr), Ccr(ccr)] && ret == 0
      ensures irqWake == old(irqWake) && cpsr == old(cpsr) && route == old(route) && clkOn == old(clkOn)
      ensures wakeArmed == old(wakeArmed) && eoiReads == old(eoiReads) && alarmEvents == old(alarmEvents)
    {
      alarmTime := U64(t);
      cmr := U32(alarmTime);
      writes := writes + [Cmr(cmr)];
      var _ := AlarmIrqEnable(enabled);
      ret := 0;
    }

    /** eswin_rtc_read_alarm: the stored time as a `time64_t` and the IE bit. */
    method ReadAlarm() returns (t: int, enabled: nat, ret: int)
      requires Valid()
      ensures t == S64(alarmTime) && enabled == AlarmEnabled(ccr) && ret == 0
    {
      t := S64(alarmTime);
      enabled := (ccr & RTC_CCR_IE) as nat;
      ret := 0;
    }

    /** eswin_rtc_interrupt, with `stat` the value read from RTC_STAT. */
    method Interrupt(stat: bv32) returns (r: IrqReturn)
      modifies this
      ensures r == IrqOutcome(stat)
      ensures r == IrqNone ==> eoiReads == old(eoiReads) && alarmEvents == old(alarmEvents)
      ensures r == IrqHandled ==> eoiReads == old(eoiReads) + 1 && alarmEvents == old(alarmEvents) + 1
      ensures alarmTime == old(alarmTime) && irqWake == old(irqWake) && ccr == old(ccr) && cmr == old(cmr)
      ensures cpsr == old(cpsr) && route == old(route) && clkOn == old(clkOn) && wakeArmed == old(wakeArmed)
      ensures writes == old(writes)
    {
      if stat & RTC_STAT_BIT == 0 {
        return IrqNone;
      }
      eoiReads := eoiReads + 1;
      alarmEvents := alarmEvents + 1;
      r := IrqHandled;
    }

    /**
     * eswin_rtc_probe from the register side, with the corrected check of
     * the clock enable result. `clkFreq` is what the "clock-frequency"
     * lookup left in its variable.
     */
    method Probe(e: ProbeEnv, clkFreq: bv32) returns (ret: int)
      modifies this
      ensures ProbeEarly(e) != 0 ==> ret == ProbeEarly(e) && writes == old(writes) && route == old(route)
                                     && ccr == old(ccr) && cpsr == old(cpsr) && clkOn == old(clkOn)
      ensures ProbeEarly(e) == 0 && ProbeLate(e) != 0 ==>
                ret == ProbeLate(e) && route == RouteToU84(old(route)) && ccr == old(ccr) && cpsr == old(cpsr)
                && writes == old(writes) + [Route(route)]
                && (if e.resetFound && e.clkFound then !clkOn else clkOn == old(clkOn))
      ensures ProbeEarly(e) == 0 && ProbeLate(e) == 0 ==>
                ret == e.registerErr && route == RouteToU84(old(route))
                && ccr == RTC_CCR_PEN | (RTC_CCR_EN | old(ccr)) && cpsr == clkFreq
                && writes == old(writes) + ProbeWrites(old(route), old(ccr), clkFreq)
                && clkOn == (e.registerErr == 0)
      ensures alarmTime == old(alarmTime) && irqWake == old(irqWake) && cmr == old(cmr)
      ensures wakeArmed == old(wakeArmed) && eoiReads == old(eoiReads) && alarmEvents == old(alarmEvents)
    {
      ret := ProbeEarly(e);
      if ret != 0 {
        return;
      }
      ghost var w0, r0, c0 := writes, route, ccr;
      route := RouteToU84(route);
      writes := writes + [Route(route)];
      ret := ProbeLate(e);
      if e.resetFound && e.clkFound {
        clkOn := e.enableErr == 0;
      }
      if ret != 0 {
        return;
      }
      StartCounter(clkFreq);
      assert writes == w0 + [Route(RouteToU84(r0))] + StartWrites(c0, clkFreq);
      ret := e.registerErr;
      if ret != 0 {
        clkOn := false;
      }
    }

    /** The tail of probe: the counter on, the prescale value, then the prescaler on. */
    method StartCounter(clkFreq: bv32)
      modifies this
      ensures ccr == RTC_CCR_PEN | (RTC_CCR_EN | old(ccr)) && cpsr == clkFreq
      ensures writes == old(writes) + StartWrites(old(ccr), clkFreq)
      ensures alarmTime == old(alarmTime) && irqWake == old(irqWake) && cmr == old(cmr) && route == old(route)
      ensures clkOn == old(clkOn) && wakeArmed == old(wakeArmed) && eoiReads == old(eoiReads)
      ensures alarmEvents == old(alarmEvents)
    {
      var v := RTC_CCR_EN | ccr;
      var w := RTC_CCR_PEN | v;
      ccr := w;
      cpsr := clkFreq;
      writes := writes + [Ccr(v), Cpsr(clkFreq), Ccr(w)];
    }

    /**
     * eswin_rtc_suspend: with wake-up allowed, irq_wake records a successful
     * enable_irq_wake (`wakeErr` its result); otherwise the alarm interrupt
     * is switched off and the clock stopped.
     */
    method Suspend(mayWakeup: bool, wakeErr: int) returns (ret: int)
      requires Valid()
      modifies this
      ensures Valid() && ret == 0
      ensures mayWakeup ==> ccr == old(ccr) && writes == old(writes) && clkOn == old(clkOn)
                            && irqWake == (if wakeErr == 0 then 1 else old(irqWake))
                            && wakeArmed == (wakeErr == 0 || old(wakeArmed))
      ensures !mayWakeup ==> ccr == AlarmCcr(old(ccr), false) && writes == old(writes) + [Ccr(ccr)] && !clkOn
                             && irqWake == old(irqWake) && wakeArmed == old(wakeArmed)
      ensures alarmTime == old(alarmTime) && cmr == old(cmr) && cpsr == old(cpsr) && route == old(route)
      ensures eoiReads == old(eoiReads) && alarmEvents == old(alarmEvents)
    {
      if mayWakeup {
        if wakeErr == 0 {
          wakeArmed := true;
          irqWake := 1;
        }
      } else {
        var _ := AlarmIrqEnable(0);
        clkOn := false;
      }
      ret := 0;
    }

    /**
     * eswin_rtc_resume: with wake-up allowed, an armed wake-up is undone and
     * irq_wake cleared; otherwise the clock restarts and the alarm interrupt
     * is switched on.
     */
    method Resume(mayWakeup: bool) returns (ret: int)
      requires Valid()
      modifies this
      ensures Valid() && ret == 0
      ensures mayWakeup ==> irqWake == 0 && ccr == old(ccr) && writes == old(writes) && clkOn == old(clkOn)
                            && wakeArmed == (old(wakeArmed) && old(irqWake) == 0)
      ensures !mayWakeup ==> ccr == AlarmCcr(old(ccr), true) && writes == old(writes) + [Ccr(ccr)] && clkOn
                             && irqWake == old(irqWake) && wakeArmed == old(wakeArmed)
      ensures alarmTime == old(alarmTime) && cmr == old(cmr) && cpsr == old(cpsr) && route == old(route)
      ensures eoiReads == old(eoiReads) && alarmEvents == old(alarmEvents)
    {
      if mayWakeup {
        if irqWake != 0 {
          wakeArmed := false;
          irqWake := 0;
        }
      } else {
        clkOn := true;
        var _ := AlarmIrqEnable(1);
      }
      ret := 0;
    }
  }

  /**
   * Setting an alarm and reading it back gives the same time and the same
   * enable flag, for every time the conversion can produce.
   */
  method SetThenRead(d: RtcDev, t: int, enabled: nat) returns (t2: int, e2: nat)
    requires d.Valid() && S64_MIN <= t < S64_LIMIT
    modifies d
    ensures t2 == t && e2 == (if enabled != 0 then 1 else 0)
  {
    var _ := d.SetAlarm(t, enabled);
    var r;
    t2, e2, r := d.ReadAlarm();
    AlarmTimeRoundTrip(t);
    EnabledAfterAlarmCcr(old(d.ccr), enabled != 0);
  }

  /**
   * A suspend and resume with wake-up allowed leaves irq_wake cleared and no
   * wake-up armed by the pair, whatever enable_irq_wake returned.
   */
  method WakeCycle(d: RtcDev, wakeErr: int)
    requires d.Valid() && d.irqWake == 0 && !d.wakeArmed
    modifies d
    ensures d.Valid() && d.irqWake == 0 && !d.wakeArmed && d.ccr == old(d.ccr) && d.writes == old(d.writes)
  {
    var _ := d.Suspend(true, wakeErr);
    var _ := d.Resume(true);
  }

  /**
   * Without wake-up, a suspend and resume leaves the alarm interrupt
   * enabled and the clock running, whether or not it was enabled before.
   */
  method SleepCycle(d: RtcDev)
    requires d.Valid()
    modifies d
    ensures d.Valid() && d.clkOn && AlarmEnabled(d.ccr) == 1
    ensures d.ccr == AlarmCcr(old(d.ccr), true)
  {
    var _ := d.Suspend(false, 0);
    var _ := d.Resume(false);
    AlarmCcrLastWins(old(d.ccr), false, true);
    EnabledAfterAlarmCcr(old(d.ccr), true);
  }
}
