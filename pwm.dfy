/**
 * The ESWIN PWM driver (drivers/pwm/pwm-eswin.c), built on a bank of eight
 * DesignWare-style timers.
 *
 * A waveform is programmed as two counts of input-clock periods: LD_CNT
 * holds the low width minus one and LD_CNT2 the high width minus one.  The
 * counts are the requested widths divided by the clock period, rounded to
 * the nearest integer, and each must lie in 1 .. 2^32.
 *
 * Registers hold 32-bit unsigned values; they are naturals below 2^32 here,
 * and the enable bit of a control register is its lowest bit (`v % 2`).
 * The clock period comes from the clock framework at probe time and is a
 * parameter.
 */
module Pwm {
  import opened CArith

  /** ESWIN_TIMERS_TOTAL. */
  const TIMERS_TOTAL: nat := 8
  /** NSEC_TO_SEC. */
  const NSEC_PER_SEC: nat := 1_000_000_000

  /** ESWIN_TIM_CTRL_MODE_USER | ESWIN_TIM_CTRL_PWM. */
  const CTRL_USER_PWM: nat := 0x2 + 0x8

  // ---------------------------------------------------------------------
  // Register map.

  /** ESWIN_TIM_LD_CNT(n). */
  function LdCnt(n: nat): nat { n * 0x14 }
  /** ESWIN_TIM_CUR_VAL(n). */
  function CurVal(n: nat): nat { n * 0x14 + 0x04 }
  /** ESWIN_TIM_CTRL(n). */
  function Ctrl(n: nat): nat { n * 0x14 + 0x08 }
  /** ESWIN_TIM_EOI(n). */
  function Eoi(n: nat): nat { n * 0x14 + 0x0c }
  /** ESWIN_TIM_INT_STS(n). */
  function IntSts(n: nat): nat { n * 0x14 + 0x10 }
  /** ESWIN_TIM_LD_CNT2(n). */
  function LdCnt2(n: nat): nat { n * 4 + 0xb0 }

  /** The per-channel registers, by kind 0..5 in the order above. */
  function ChannelReg(n: nat, kind: nat): nat
    requires kind < 6
  {
    match kind
    case 0 => LdCnt(n)
    case 1 => CurVal(n)
    case 2 => Ctrl(n)
    case 3 => Eoi(n)
    case 4 => IntSts(n)
    case _ => LdCnt2(n)
  }

  /** ESWIN_TIMERS_INT_STS, _EOI, _RAW_INT_STS and _COMP_VERSION. */
  predicate IsGlobalReg(off: nat)
  {
    off == 0xa0 || off == 0xa4 || off == 0xa8 || off == 0xac
  }

  /**
   * For the eight channels every per-channel register has its own offset,
   * and none of them is one of the global registers.
   */
  lemma RegisterMapDisjoint(n: nat, k: nat, m: nat, j: nat)
    requires n < TIMERS_TOTAL && m < TIMERS_TOTAL && k < 6 && j < 6
    ensures ChannelReg(n, k) == ChannelReg(m, j) <==> n == m && k == j
    ensures !IsGlobalReg(ChannelReg(n, k))
  {
  }

  // ---------------------------------------------------------------------
  // Count arithmetic.

  /**
   * DIV_ROUND_CLOSEST_ULL(x, d): (x + d/2) / d in 64-bit unsigned
   * arithmetic, so the sum wraps for x close to 2^64.
   */
  function DivRoundClosest(x: nat, d: nat): nat
    requires d > 0
  {
    U64(x + d / 2) / d
  }

  /** Without wrap-around the quotient is x / d rounded to nearest, halves up. */
  lemma DivRoundClosestNearest(x: nat, d: nat)
    requires d > 0 && x + d / 2 < U64_MODULUS
    ensures var q := DivRoundClosest(x, d);
            q * d <= x + d / 2 < q * d + d
  {
  }

  /** An exact multiple is divided exactly. */
  lemma DivRoundClosestExact(q: nat, d: nat)
    requires d > 0 && q * d + d / 2 < U64_MODULUS
    ensures DivRoundClosest(q * d, d) == q
  {
    assert U64(q * d + d / 2) == q * d + d / 2;
    DivUnique(q * d + d / 2, d, q);
  }

  /** The quotient of `a` by `d` is the `q` with q*d <= a < q*d + d. */
  lemma DivUnique(a: int, d: int, q: int)
    requires d > 0 && q * d <= a < q * d + d
    ensures a / d == q
  {
    var p := a / d;
    var r := a % d;
    assert a == p * d + r && 0 <= r < d;
    assert (p - q) * d == (a - r) - q * d;
    if p - q >= 1 {
      MulAtLeast(p - q, d);
    } else if p - q <= -1 {
      MulAtLeast(q - p, d);
    }
  }

  lemma MulAtLeast(k: int, d: int)
    requires k >= 1 && d > 0
    ensures k * d >= d
  {
  }

  /** The hardware limit on a rounded count: 1 .. 2^32 clock periods. */
  predicate CountInRange(t: nat)
  {
    1 <= t <= U32_MODULUS
  }

  /** The requested waveform (struct pwm_state); widths are u64 nanoseconds. */
  datatype Polarity = Normal | Inversed
  datatype PwmState = PwmState(enabled: bool, dutyCycle: nat, period: nat, polarity: Polarity)

  /**
   * The two counts of __eswin_pwm_configure_timer, (high, low), or None for
   * -ERANGE.  period - duty_cycle is a u64 subtraction.
   */
  function Counts(clkPeriodNs: nat, duty: nat, period: nat): (r: Option<(nat, nat)>)
    requires clkPeriodNs > 0
    ensures r.Some? ==> r.value.0 < U32_MODULUS && r.value.1 < U32_MODULUS
  {
    var th := DivRoundClosest(duty, clkPeriodNs);
    if !CountInRange(th) then None
    else
      var tl := DivRoundClosest(U64(period - duty), clkPeriodNs);
      if !CountInRange(tl) then None
      else Some((th - 1, tl - 1))
  }

  /**
   * The counts are rejected exactly when one of the rounded widths lies
   * outside 1 .. 2^32, and otherwise are those widths minus one.
   */
  lemma CountsSpec(clkPeriodNs: nat, duty: nat, period: nat)
    requires clkPeriodNs > 0
    ensures var th := DivRoundClosest(duty, clkPeriodNs);
            var tl := DivRoundClosest(U64(period - duty), clkPeriodNs);
            (Counts(clkPeriodNs, duty, period).Some? <==> CountInRange(th) && CountInRange(tl))
            && (Counts(clkPeriodNs, duty, period).Some? ==>
                  Counts(clkPeriodNs, duty, period).value == (th - 1, tl - 1))
  {
  }

  /** A duty cycle below half a clock period rounds to zero periods and is rejected. */
  lemma TinyDutyRejected(clkPeriodNs: nat, duty: nat, period: nat)
    requires 0 < clkPeriodNs < U32_MODULUS && 2 * duty < clkPeriodNs
    ensures Counts(clkPeriodNs, duty, period).None?
  {
    assert U64(duty + clkPeriodNs / 2) == duty + clkPeriodNs / 2;
    DivUnique(duty + clkPeriodNs / 2, clkPeriodNs, 0);
  }

  // ---------------------------------------------------------------------
  // Registers.

  /** A register; offsets never written read as 0. */
  function Reg(regs: map<nat, nat>, off: nat): nat
  {
    if off in regs then regs[off] else 0
  }

  /** A register value with the enable bit (ESWIN_TIM_CTRL_EN, bit 0) set or cleared. */
  function WithEnable(v: nat, enabled: bool): nat
  {
    if enabled then v - v % 2 + 1 else v - v % 2
  }

  /** Only bit 0 changes, and it then reads back as requested. */
  lemma WithEnableOnlyBit0(v: nat, enabled: bool)
    ensures WithEnable(v, enabled) / 2 == v / 2
    ensures (WithEnable(v, enabled) % 2 == 1) == enabled
  {
  }

  /** One MMIO write. */
  datatype Write = Write(off: nat, value: nat)

  /** __eswin_pwm_set_enable's write: CTRL with bit 0 set as requested. */
  function EnableWrite(regs: map<nat, nat>, n: nat, enabled: bool): Write
  {
    Write(Ctrl(n), WithEnable(Reg(regs, Ctrl(n)), enabled))
  }

  /** Apply a sequence of writes to the registers, in order. */
  function ApplyWrites(regs: map<nat, nat>, ws: seq<Write>): map<nat, nat>
    decreases |ws|
  {
    if ws == [] then regs else ApplyWrites(regs[ws[0].off := ws[0].value], ws[1..])
  }

  /** Writes applied one after the other. */
  lemma {:induction false} ApplyWritesAppend(regs: map<nat, nat>, ws: seq<Write>, w: Write)
    ensures ApplyWrites(regs, ws + [w]) == ApplyWrites(regs, ws)[w.off := w.value]
    decreases |ws|
  {
    if ws == [] {
      assert ws + [w] == [w];
    } else {
      assert (ws + [w])[1..] == ws[1..] + [w];
      ApplyWritesAppend(regs[ws[0].off := ws[0].value], ws[1..], w);
    }
  }

  /**
   * The writes of a successful __eswin_pwm_configure_timer on channel `n`
   * whose CTRL register held `ctrl`: disable, LD_CNT := low, LD_CNT2 :=
   * high, CTRL := USER | PWM, then set the enable bit as requested.
   */
  function ConfigureWrites(ctrl: nat, n: nat, high: nat, low: nat, enabled: bool): seq<Write>
  {
    [Write(Ctrl(n), WithEnable(ctrl, false)),
     Write(LdCnt(n), low),
     Write(LdCnt2(n), high),
     Write(Ctrl(n), CTRL_USER_PWM),
     Write(Ctrl(n), WithEnable(CTRL_USER_PWM, enabled))]
  }

  /**
   * __eswin_pwm_configure_timer: the writes it makes and its return value.
   * An out-of-range count returns -ERANGE before any write.
   */
  function Configure(regs: map<nat, nat>, clkPeriodNs: nat, n: nat, state: PwmState): (seq<Write>, int)
    requires clkPeriodNs > 0
  {
    match Counts(clkPeriodNs, state.dutyCycle, state.period)
    case None => ([], -ERANGE)
    case Some((high, low)) => (ConfigureWrites(Reg(regs, Ctrl(n)), n, high, low, state.enabled), 0)
  }

  /**
   * eswin_pwm_get_state on channel `n`: enabled from CTRL bit 0, duty from
   * LD_CNT, period from LD_CNT2 plus the duty, in u64 arithmetic; the
   * polarity is always reported inversed.
   */
  function ReadState(regs: map<nat, nat>, clkPeriodNs: nat, n: nat): PwmState
  {
    var duty := U64((Reg(regs, LdCnt(n)) + 1) * clkPeriodNs);
    var period := U64(U64((Reg(regs, LdCnt2(n)) + 1) * clkPeriodNs) + duty);
    PwmState(Reg(regs, Ctrl(n)) % 2 == 1, duty, period, Inversed)
  }

  /**
   * Configure-then-read: when both widths are whole multiples of the clock
   * period, get_state reports the requested period and enable flag; the
   * duty it reports is the LOW width, period - duty_cycle, with the polarity
   * inversed.
   */
  lemma ConfigureReadback(regs: map<nat, nat>, clkPeriodNs: nat, n: nat, state: PwmState, hi: nat, lo: nat)
    requires 0 < clkPeriodNs < U32_MODULUS && n < TIMERS_TOTAL
    requires state.dutyCycle == hi * clkPeriodNs && state.period == state.dutyCycle + lo * clkPeriodNs
    requires 1 <= hi <= U32_MODULUS && 1 <= lo <= U32_MODULUS
    requires state.period + clkPeriodNs < U64_MODULUS
    ensures Configure(regs, clkPeriodNs, n, state).1 == 0
    ensures ReadState(ApplyWrites(regs, Configure(regs, clkPeriodNs, n, state).0), clkPeriodNs, n)
            == PwmState(state.enabled, state.period - state.dutyCycle, state.period, Inversed)
  {
    ExactCounts(clkPeriodNs, state.dutyCycle, state.period, hi, lo);
    ReadbackAfterConfigure(regs, clkPeriodNs, n, hi - 1, lo - 1, state.enabled);
  }

  /** Whole multiples of the clock period give the multiples minus one as counts. */
  lemma ExactCounts(clkPeriodNs: nat, duty: nat, period: nat, hi: nat, lo: nat)
    requires 0 < clkPeriodNs < U32_MODULUS
    requires duty == hi * clkPeriodNs && period == duty + lo * clkPeriodNs
    requires 1 <= hi <= U32_MODULUS && 1 <= lo <= U32_MODULUS
    requires period + clkPeriodNs < U64_MODULUS
    ensures Counts(clkPeriodNs, duty, period) == Some((hi - 1, lo - 1))
  {
    var c := clkPeriodNs;
    var rest := period - duty;
    assert rest == lo * c;
    assert duty + c / 2 < U64_MODULUS && rest + c / 2 < U64_MODULUS;
    DivRoundClosestExact(hi, c);
    DivRoundClosestExact(lo, c);
  }

  /** get_state after the configuration writes reads back LD_CNT, LD_CNT2 and the enable bit. */
  lemma ReadbackAfterConfigure(regs: map<nat, nat>, clkPeriodNs: nat, n: nat, high: nat, low: nat, enabled: bool)
    requires 0 < clkPeriodNs < U32_MODULUS && n < TIMERS_TOTAL
    requires high < U32_MODULUS && low < U32_MODULUS
    requires (high + 1) * clkPeriodNs + (low + 1) * clkPeriodNs < U64_MODULUS
    ensures ReadState(ApplyWrites(regs, ConfigureWrites(Reg(regs, Ctrl(n)), n, high, low, enabled)), clkPeriodNs, n)
            == PwmState(enabled, (low + 1) * clkPeriodNs, (high + 1) * clkPeriodNs + (low + 1) * clkPeriodNs,
                        Inversed)
  {
    var after := ApplyWrites(regs, ConfigureWrites(Reg(regs, Ctrl(n)), n, high, low, enabled));
    ConfiguredRegisters(regs, n, high, low, enabled);
    var d := (low + 1) * clkPeriodNs;
    var p := (high + 1) * clkPeriodNs;
    assert 0 <= d && 0 <= p;
  }

  /** The configuration writes leave LD_CNT, LD_CNT2 and the enable bit as requested. */
  lemma ConfiguredRegisters(regs: map<nat, nat>, n: nat, high: nat, low: nat, enabled: bool)
    requires n < TIMERS_TOTAL
    ensures var after := ApplyWrites(regs, ConfigureWrites(Reg(regs, Ctrl(n)), n, high, low, enabled));
            Reg(after, LdCnt(n)) == low && Reg(after, LdCnt2(n)) == high && (Reg(after, Ctrl(n)) % 2 == 1) == enabled
  {
    RegisterMapDisjoint(n, 0, n, 2);
    RegisterMapDisjoint(n, 5, n, 2);
    RegisterMapDisjoint(n, 0, n, 5);
    var after := ApplyWrites(regs, ConfigureWrites(Reg(regs, Ctrl(n)), n, high, low, enabled));
    ConfigureWritesApplied(regs, ConfigureWrites(Reg(regs, Ctrl(n)), n, high, low, enabled));
    assert Reg(after, Ctrl(n)) == WithEnable(CTRL_USER_PWM, enabled);
    WithEnableOnlyBit0(CTRL_USER_PWM, enabled);
  }

  /** The five writes of a configuration, applied in order. */
  lemma ConfigureWritesApplied(regs: map<nat, nat>, ws: seq<Write>)
    requires |ws| == 5
    ensures ApplyWrites(regs, ws)
            == regs[ws[0].off := ws[0].value][ws[1].off := ws[1].value][ws[2].off := ws[2].value]
                   [ws[3].off := ws[3].value][ws[4].off := ws[4].value]
  {
    assert ws == [ws[0], ws[1], ws[2], ws[3]] + [ws[4]];
    assert [ws[0], ws[1], ws[2], ws[3]] == [ws[0], ws[1], ws[2]] + [ws[3]];
    assert [ws[0], ws[1], ws[2]] == [ws[0], ws[1]] + [ws[2]];
    assert [ws[0], ws[1]] == [ws[0]] + [ws[1]];
    assert [ws[0]] == [] + [ws[0]];
    ApplyWritesAppend(regs, [], ws[0]);
    ApplyWritesAppend(regs, [ws[0]], ws[1]);
    ApplyWritesAppend(regs, [ws[0], ws[1]], ws[2]);
    ApplyWritesAppend(regs, [ws[0], ws[1], ws[2]], ws[3]);
    ApplyWritesAppend(regs, [ws[0], ws[1], ws[2], ws[3]], ws[4]);
  }

  /** A rejected configuration writes nothing. */
  lemma ConfigureRejectsSilently(regs: map<nat, nat>, clkPeriodNs: nat, n: nat, state: PwmState)
    requires clkPeriodNs > 0 && Counts(clkPeriodNs, state.dutyCycle, state.period).None?
    ensures Configure(regs, clkPeriodNs, n, state) == ([], -ERANGE)
  {
  }

  /**
   * clk_period_ns of probe: DIV_ROUND_CLOSEST_ULL(NSEC_TO_SEC, clk_rate),
   * stored in a u32.
   */
  function ClkPeriodNs(clkRate: nat): nat
    requires clkRate > 0
  {
    U32(DivRoundClosest(NSEC_PER_SEC, clkRate))
  }

  /**
   * The period is 10^9 / rate rounded to nearest, and it is 0 only for a
   * rate above 2 GHz.  clk_rate is a C `int`, so it is below 2^31.
   */
  lemma ClkPeriodNsNearest(clkRate: nat)
    requires 0 < clkRate < 0x8000_0000
    ensures var p := ClkPeriodNs(clkRate);
            p * clkRate <= NSEC_PER_SEC + clkRate / 2 < p * clkRate + clkRate
    ensures ClkPeriodNs(clkRate) == 0 <==> clkRate > 2 * NSEC_PER_SEC
  {
    var a := NSEC_PER_SEC + clkRate / 2;
    assert U64(a) == a;
    var q := a / clkRate;
    assert a == q * clkRate + a % clkRate;
    if q >= 1 {
      MulAtLeast(clkRate, q);
    }
    assert q <= a;
    assert U32(q) == q;
    if clkRate > 2 * NSEC_PER_SEC {
      DivUnique(a, clkRate, 0);
    }
  }

  // ---------------------------------------------------------------------
  // The chip.

  class EswinPwm {
    /** clk_period_ns. */
    const clkPeriodNs: nat
    /** The timer bank's registers. */
    var regs: map<nat, nat>
    /** Every write made so far, oldest first. */
    var writes: seq<Write>
    /** The registers before the first recorded write. */
    const initial: map<nat, nat>

    ghost predicate Valid()
      reads this
    {
      0 < clkPeriodNs < U32_MODULUS && regs == ApplyWrites(initial, writes)
    }


    constructor (clkPeriodNs: nat, regs: map<nat, nat>)
      requires 0 < clkPeriodNs < U32_MODULUS
      ensures Valid() && this.clkPeriodNs == clkPeriodNs && this.regs == regs && writes == []
    {
      this.clkPeriodNs := clkPeriodNs;
      this.regs := regs;
      this.initial := regs;
      this.writes := [];
    }

    /** One MMIO write (eswin_pwm_writel). */
    method WriteReg(w: Write)
      requires Valid()
      modifies this
      ensures Valid()
      ensures regs == old(regs)[w.off := w.value] && writes == old(writes) + [w]
    {
      ApplyWritesAppend(initial, writes, w);
      regs := regs[w.off := w.value];
      writes := writes + [w];
    }

    /** __eswin_pwm_set_enable. */
    method SetEnable(n: nat, enabled: bool)
      requires Valid()
      modifies this
      ensures Valid()
      ensures writes == old(writes) + [EnableWrite(old(regs), n, enabled)]
    {
      var reg := Reg(regs, Ctrl(n));
      if enabled {
        reg := WithEnable(reg, true);
      } else {
        reg := WithEnable(reg, false);
      }
      WriteReg(Write(Ctrl(n), reg));
    }

    /** __eswin_pwm_configure_timer. */
    method ConfigureTimer(n: nat, state: PwmState) returns (ret: int)
      requires Valid()
      modifies this
      ensures Valid()
      ensures var (ws, r) := Configure(old(regs), clkPeriodNs, n, state);
              writes == old(writes) + ws && ret == r
    {
      var tmp := DivRoundClosest(state.dutyCycle, clkPeriodNs);
      if tmp < 1 || tmp > U32_MODULUS {
        return -ERANGE;
      }
      var high := tmp - 1;
      tmp := DivRoundClosest(U64(state.period - state.dutyCycle), clkPeriodNs);
      if tmp < 1 || tmp > U32_MODULUS {
        return -ERANGE;
      }
      var low := tmp - 1;
      ghost var ctrl0 := Reg(regs, Ctrl(n));
      SetEnable(n, false);
      WriteReg(Write(LdCnt(n), low));
      WriteReg(Write(LdCnt2(n), high));
      WriteReg(Write(Ctrl(n), CTRL_USER_PWM));
      assert Reg(regs, Ctrl(n)) == CTRL_USER_PWM;
      SetEnable(n, state.enabled);
      assert writes == old(writes) + ConfigureWrites(ctrl0, n, high, low, state.enabled);
      ret := 0;
    }

    /** eswin_pwm_apply: the configuration's result is dropped and 0 returned. */
    method Apply(n: nat, state: PwmState) returns (ret: int)
      requires Valid()
      modifies this
      ensures Valid()
      ensures writes == old(writes) + Configure(old(regs), clkPeriodNs, n, state).0
      ensures ret == 0
    {
      var _ := ConfigureTimer(n, state);
      ret := 0;
    }

    /** eswin_pwm_get_state. */
    method GetState(n: nat) returns (state: PwmState)
      ensures state == ReadState(regs, clkPeriodNs, n)
      ensures state.polarity == Inversed && state.enabled == (Reg(regs, Ctrl(n)) % 2 == 1)
    {
      var enabled := Reg(regs, Ctrl(n)) % 2 == 1;
      var duty := U64((Reg(regs, LdCnt(n)) + 1) * clkPeriodNs);
      var period := U64(U64((Reg(regs, LdCnt2(n)) + 1) * clkPeriodNs) + duty);
      state := PwmState(enabled, duty, period, Inversed);
    }
  }
}
