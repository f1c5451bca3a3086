/**
 * The EIC7700 system-clock-and-reset block's reset controller
 * (drivers/reset/reset-eswin.c).
 *
 * A consumer names a reset by two device-tree cells, a device id and a
 * bit mask.  `of_xlate` turns the pair into a small integer id by searching
 * an idr table of the pairs seen so far and appending the pair when it is
 * new.  Asserting a reset clears the mask in the register
 * 0x400 + 4 * dev_id of the syscon regmap; deasserting sets it (the resets
 * are active low).
 *
 * The idr is a sequence: this driver never removes an entry, and
 * `idr_alloc(.., 0, 0, ..)` hands out the lowest free id, so the ids in use
 * are always 0 .. n-1 and a new entry gets id n.  The regmap is a map from
 * offset to value; the status a regmap access returns, the allocation
 * failures and the idr's own failure are inputs.
 */
module ResetCtrl {
  import opened CArith

  /** SYSCRG_RESET_OFFSET. */
  const SYSCRG_RESET_OFFSET: nat := 0x400

  /** of_reset_n_cells as set in probe. */
  const RESET_N_CELLS: nat := 2

  /** eswin_reset_control: the two cells of one consumer's reset specifier. */
  datatype Control = Control(devId: bv32, resetBit: bv32)

  /** A syscon register; offsets never written read as 0. */
  function Reg(regs: map<nat, bv32>, off: nat): bv32
  {
    if off in regs then regs[off] else 0
  }

  /** The reset control register of device `devId`: one 32-bit word per device from 0x400 on. */
  function ResetRegister(devId: nat): (off: nat)
    ensures off >= SYSCRG_RESET_OFFSET && off % 4 == 0
  {
    SYSCRG_RESET_OFFSET + devId * 4
  }

  // ---------------------------------------------------------------------
  // Register update (eswin_reset_set).

  /** regmap_clear_bits (assert) or regmap_set_bits (deassert) of `mask` at `off`. */
  function UpdateBits(regs: map<nat, bv32>, off: nat, mask: bv32, asserted: bool): map<nat, bv32>
  {
    regs[off := Updated(Reg(regs, off), mask, asserted)]
  }

  /** The register value after clearing (assert) or setting (deassert) `mask`. */
  function Updated(v: bv32, mask: bv32, asserted: bool): bv32
  {
    if asserted then v & !mask else v | mask
  }

  /**
   * eswin_reset_set: the registers and the return value for reset `id`.
   * `io` is what the regmap access returns; a failed access writes nothing.
   */
  function ResetSet(controls: seq<Control>, regs: map<nat, bv32>, id: nat, asserted: bool, io: int)
    : (map<nat, bv32>, int)
  {
    if id >= |controls| then (regs, -EINVAL)
    else if io != 0 then (regs, io)
    else (UpdateBits(regs, ResetRegister(controls[id].devId as nat), controls[id].resetBit, asserted), 0)
  }

  /** Assert clears exactly the mask bits in the device's register. */
  lemma AssertClears(regs: map<nat, bv32>, off: nat, mask: bv32)
    ensures Reg(UpdateBits(regs, off, mask, true), off) & mask == 0
    ensures Reg(UpdateBits(regs, off, mask, true), off) & !mask == Reg(regs, off) & !mask
  {
  }

  /** Deassert sets exactly the mask bits in the device's register. */
  lemma DeassertSets(regs: map<nat, bv32>, off: nat, mask: bv32)
    ensures Reg(UpdateBits(regs, off, mask, false), off) & mask == mask
    ensures Reg(UpdateBits(regs, off, mask, false), off) & !mask == Reg(regs, off) & !mask
  {
  }

  /** No other register changes. */
  lemma UpdateBitsFrame(regs: map<nat, bv32>, off: nat, mask: bv32, asserted: bool, other: nat)
    requires other != off
    ensures Reg(UpdateBits(regs, off, mask, asserted), other) == Reg(regs, other)
  {
  }

  /** A reset id that was never handed out is rejected and nothing is written. */
  lemma ResetSetUnknown(controls: seq<Control>, regs: map<nat, bv32>, id: nat, asserted: bool, io: int)
    requires id >= |controls|
    ensures ResetSet(controls, regs, id, asserted, io) == (regs, -EINVAL)
  {
  }

  /**
   * eswin_reset_reset: assert, then deassert unless the assert failed.
   * `io1` and `io2` are the two regmap statuses.
   */
  function ResetPulse(controls: seq<Control>, regs: map<nat, bv32>, id: nat, io1: int, io2: int)
    : (map<nat, bv32>, int)
  {
    var first := ResetSet(controls, regs, id, true, io1);
    if first.1 != 0 then first
    else ResetSet(controls, first.0, id, false, io2)
  }

  /**
   * A full reset pulse leaves the device's register with the mask set and
   * every other bit as it was, the same as a lone deassert.
   */
  lemma ResetPulseEndsDeasserted(controls: seq<Control>, regs: map<nat, bv32>, id: nat)
    requires id < |controls|
    ensures ResetPulse(controls, regs, id, 0, 0) == ResetSet(controls, regs, id, false, 0)
  {
    UpdateTwice(regs, ResetRegister(controls[id].devId as nat), controls[id].resetBit);
  }

  /** Clearing and then setting a mask is the same as setting it. */
  lemma UpdateTwice(regs: map<nat, bv32>, off: nat, mask: bv32)
    ensures UpdateBits(UpdateBits(regs, off, mask, true), off, mask, false) == UpdateBits(regs, off, mask, false)
  {
    var v := Reg(regs, off);
    assert Reg(UpdateBits(regs, off, mask, true), off) == Updated(v, mask, true);
    PulseBits(v, mask);
    SameUpdate(UpdateBits(regs, off, mask, true), regs, off, Updated(v, mask, false));
  }

  /** Two maps that differ at most at `off` agree once `off` is overwritten. */
  lemma SameUpdate(a: map<nat, bv32>, b: map<nat, bv32>, off: nat, x: bv32)
    requires forall k :: k != off ==> (k in a <==> k in b)
    requires forall k :: k in a && k in b && k != off ==> a[k] == b[k]
    ensures a[off := x] == b[off := x]
  {
  }

  /** Setting a mask after clearing it is the same as setting it. */
  lemma PulseBits(v: bv32, m: bv32)
    ensures Updated(Updated(v, m, true), m, false) == Updated(v, m, false)
  {
    assert Updated(v, m, true) == v & !m;
    ClearThenSet(v, m);
  }

  /** (v & ~m) | m == v | m. */
  lemma ClearThenSet(v: bv32, m: bv32)
    ensures (v & !m) | m == v | m
  {
  }

  /** A failing assert is returned and the deassert is not attempted. */
  lemma ResetPulseStopsOnAssertFailure(controls: seq<Control>, regs: map<nat, bv32>, id: nat, io1: int,
                                       io2: int)
    requires id < |controls| && io1 != 0
    ensures ResetPulse(controls, regs, id, io1, io2) == (regs, io1)
  {
  }

  // ---------------------------------------------------------------------
  // Translation (eswin_reset_of_xlate).

  /** The specifier's cells name this control. */
  predicate Matches(c: Control, a0: bv32, a1: bv32)
  {
    a0 == c.devId && a1 == c.resetBit
  }

  /**
   * idr_for_each with eswin_reset_of_xlate_lookup_id from id `k` on: the
   * callback returns the id of a matching entry and 0 otherwise, and the walk
   * stops at the first nonzero return.  A match at id 0 therefore returns 0
   * and is indistinguishable from "not found".
   */
  function LookupFrom(controls: seq<Control>, a0: bv32, a1: bv32, k: nat): nat
    requires k <= |controls|
    decreases |controls| - k
  {
    if k == |controls| then 0
    else
      var r := if Matches(controls[k], a0, a1) then k else 0;
      if r != 0 then r else LookupFrom(controls, a0, a1, k + 1)
  }

  /** The lookup's result: the first matching id above 0, or 0 when there is none. */
  lemma {:induction false} LookupFromSpec(controls: seq<Control>, a0: bv32, a1: bv32, k: nat)
    requires k <= |controls|
    ensures var r := LookupFrom(controls, a0, a1, k);
            (r != 0 ==> k <= r < |controls| && Matches(controls[r], a0, a1)
                        && forall j :: k <= j < r && j != 0 ==> !Matches(controls[j], a0, a1))
            && (r == 0 <==> forall j :: k <= j < |controls| && j != 0 ==> !Matches(controls[j], a0, a1))
    decreases |controls| - k
  {
    if k < |controls| {
      LookupFromSpec(controls, a0, a1, k + 1);
    }
  }

  /** The result of the whole walk. */
  lemma LookupSpec(controls: seq<Control>, a0: bv32, a1: bv32)
    ensures var r := LookupFrom(controls, a0, a1, 0);
            (r != 0 ==> 0 < r < |controls| && Matches(controls[r], a0, a1)
                        && forall j :: 0 < j < r ==> !Matches(controls[j], a0, a1))
            && (r == 0 <==> forall j :: 0 < j < |controls| ==> !Matches(controls[j], a0, a1))
  {
    LookupFromSpec(controls, a0, a1, 0);
  }

  /**
   * eswin_reset_of_xlate: the new idr contents and the return value.
   * `args` are the specifier's cells (args_count is their number),
   * `memOk` says whether devm_kzalloc succeeded and `idrErr` is 0 when
   * idr_alloc succeeds and its negative error otherwise.
   */
  function Xlate(controls: seq<Control>, args: seq<bv32>, memOk: bool, idrErr: int)
    : (seq<Control>, int)
  {
    if |args| != RESET_N_CELLS then (controls, -EINVAL)
    else
      var found := LookupFrom(controls, args[0], args[1], 0);
      if found != 0 then (controls, found)
      else if !memOk then (controls, -ENOMEM)
      else if idrErr != 0 then (controls, idrErr)
      else (controls + [Control(args[0], args[1])], |controls|)
  }

  /** A specifier with other than two cells is rejected and nothing is stored. */
  lemma XlateArity(controls: seq<Control>, args: seq<bv32>, memOk: bool, idrErr: int)
    requires |args| != 2
    ensures Xlate(controls, args, memOk, idrErr) == (controls, -EINVAL)
  {
  }

  /**
   * A successful translation yields an id whose control holds the
   * specifier's cells, and the table only ever grows by that one entry.
   */
  lemma XlateResult(controls: seq<Control>, args: seq<bv32>, memOk: bool, idrErr: int)
    requires |args| == 2
    ensures var (after, ret) := Xlate(controls, args, memOk, idrErr);
            ret >= 0 && idrErr <= 0 ==>
              0 <= ret < |after| && after[ret] == Control(args[0], args[1])
              && after[..|controls|] == controls && |after| <= |controls| + 1
  {
    LookupSpec(controls, args[0], args[1]);
  }

  /** A pair registered at some id above 0 is found again and not duplicated. */
  lemma XlateFindsRegistered(controls: seq<Control>, args: seq<bv32>, memOk: bool, idrErr: int, k: nat)
    requires |args| == 2 && 0 < k < |controls| && Matches(controls[k], args[0], args[1])
    ensures var (after, ret) := Xlate(controls, args, memOk, idrErr);
            after == controls && 0 < ret <= k && Matches(controls[ret], args[0], args[1])
  {
    LookupSpec(controls, args[0], args[1]);
  }

  /**
   * The pair stored at id 0 is never found: translating it again stores a
   * second copy under a new id.
   */
  lemma XlateDuplicatesIdZero(controls: seq<Control>, args: seq<bv32>)
    requires |args| == 2 && |controls| > 0 && Matches(controls[0], args[0], args[1])
    requires forall j :: 0 < j < |controls| ==> !Matches(controls[j], args[0], args[1])
    ensures var (after, ret) := Xlate(controls, args, true, 0);
            ret == |controls| && |after| == |controls| + 1 && after[ret] == after[0]
  {
    LookupSpec(controls, args[0], args[1]);
  }

  /**
   * Translating a specifier and then asserting or deasserting the returned
   * id programs the register 0x400 + 4 * args[0] with the mask args[1].
   */
  lemma XlateThenSet(controls: seq<Control>, regs: map<nat, bv32>, args: seq<bv32>, memOk: bool,
                     idrErr: int, asserted: bool)
    requires |args| == 2 && idrErr <= 0
    ensures var (after, ret) := Xlate(controls, args, memOk, idrErr);
            ret >= 0 ==>
              ResetSet(after, regs, ret, asserted, 0)
              == (UpdateBits(regs, ResetRegister(args[0] as nat), args[1], asserted), 0)
  {
    XlateResult(controls, args, memOk, idrErr);
  }

  // ---------------------------------------------------------------------
  // Register map of the dt-bindings header.

  /** The reset consumers of the dt-bindings header, SNOC to LNOC (RESERVED, id 0x2F, has none). */
  datatype Consumer =
    SNOC | GPU | DSP | D2D | DDR | TCU | NPU | HSPDMA | PCIE | I2C | FAN | PVT | MBOX | UART |
    GPIO | TIMER | SSI | WDT | LSP_CFG | U84 | SCPU | LPCPU | VC | JD | JE | VD | VE | G2D | VI |
    DVP | ISP0 | ISP1 | SHUTTER | VO_PHY | VO_I2S | VO | BOOTSPI | I2C1 | I2C0 | DMA1 | FPRT |
    HBLOCK | SECSR | OTP | PKA | SPACC | TRNG | TIMER0 | TIMER1 | TIMER2 | TIMER3 | RTC | MNOC |
    RNOC | CNOC | LNOC

  /** The dev id the header assigns to each consumer (the *_RST_CTRL values). */
  function ConsumerId(c: Consumer): nat
  {
    match c
    case SNOC => 0x00
    case GPU => 0x01
    case DSP => 0x02
    case D2D => 0x03
    case DDR => 0x04
    case TCU => 0x05
    case NPU => 0x06
    case HSPDMA => 0x07
    case PCIE => 0x08
    case I2C => 0x09
    case FAN => 0x0A
    case PVT => 0x0B
    case MBOX => 0x0C
    case UART => 0x0D
    case GPIO => 0x0E
    case TIMER => 0x0F
    case SSI => 0x10
    case WDT => 0x11
    case LSP_CFG => 0x12
    case U84 => 0x13
    case SCPU => 0x14
    case LPCPU => 0x15
    case VC => 0x16
    case JD => 0x17
    case JE => 0x18
    case VD => 0x19
    case VE => 0x1A
    case G2D => 0x1B
    case VI => 0x1C
    case DVP => 0x1D
    case ISP0 => 0x1E
    case ISP1 => 0x1F
    case SHUTTER => 0x20
    case VO_PHY => 0x21
    case VO_I2S => 0x22
    case VO => 0x23
    case BOOTSPI => 0x24
    case I2C1 => 0x25
    case I2C0 => 0x26
    case DMA1 => 0x27
    case FPRT => 0x28
    case HBLOCK => 0x29
    case SECSR => 0x2A
    case OTP => 0x2B
    case PKA => 0x2C
    case SPACC => 0x2D
    case TRNG => 0x2E
    case TIMER0 => 0x30
    case TIMER1 => 0x31
    case TIMER2 => 0x32
    case TIMER3 => 0x33
    case RTC => 0x34
    case MNOC => 0x35
    case RNOC => 0x36
    case CNOC => 0x37
    case LNOC => 0x38
  }

  /** EIC7700_REG_OFFSET_*_RST_CTRL for each consumer. */
  function ConsumerRegister(c: Consumer): nat
  {
    match c
    case SNOC => 0x400
    case GPU => 0x404
    case DSP => 0x408
    case D2D => 0x40C
    case DDR => 0x410
    case TCU => 0x414
    case NPU => 0x418
    case HSPDMA => 0x41C
    case PCIE => 0x420
    case I2C => 0x424
    case FAN => 0x428
    case PVT => 0x42C
    case MBOX => 0x430
    case UART => 0x434
    case GPIO => 0x438
    case TIMER => 0x43C
    case SSI => 0x440
    case WDT => 0x444
    case LSP_CFG => 0x448
    case U84 => 0x44C
    case SCPU => 0x450
    case LPCPU => 0x454
    case VC => 0x458
    case JD => 0x45C
    case JE => 0x460
    case VD => 0x464
    case VE => 0x468
    case G2D => 0x46C
    case VI => 0x470
    case DVP => 0x474
    case ISP0 => 0x478
    case ISP1 => 0x47C
    case SHUTTER => 0x480
    case VO_PHY => 0x484
    case VO_I2S => 0x488
    case VO => 0x48C
    case BOOTSPI => 0x490
    case I2C1 => 0x494
    case I2C0 => 0x498
    case DMA1 => 0x49C
    case FPRT => 0x4A0
    case HBLOCK => 0x4A4
    case SECSR => 0x4A8
    case OTP => 0x4AC
    case PKA => 0x4B0
    case SPACC => 0x4B4
    case TRNG => 0x4B8
    case TIMER0 => 0x4C0
    case TIMER1 => 0x4C4
    case TIMER2 => 0x4C8
    case TIMER3 => 0x4CC
    case RTC => 0x4D0
    case MNOC => 0x4D4
    case RNOC => 0x4D8
    case CNOC => 0x4DC
    case LNOC => 0x4E0
  }

  /** Every consumer's dev id addresses its own EIC7700_REG_OFFSET_*_RST_CTRL register. */
  lemma HeaderOffsetsAgree(c: Consumer)
    ensures ResetRegister(ConsumerId(c)) == ConsumerRegister(c)
  {
    match c
    case SNOC =>
    case GPU =>
    case DSP =>
    case D2D =>
    case DDR =>
    case TCU =>
    case NPU =>
    case HSPDMA =>
    case PCIE =>
    case I2C =>
    case FAN =>
    case PVT =>
    case MBOX =>
    case UART =>
    case GPIO =>
    case TIMER =>
    case SSI =>
    case WDT =>
    case LSP_CFG =>
    case U84 =>
    case SCPU =>
    case LPCPU =>
    case VC =>
    case JD =>
    case JE =>
    case VD =>
    case VE =>
    case G2D =>
    case VI =>
    case DVP =>
    case ISP0 =>
    case ISP1 =>
    case SHUTTER =>
    case VO_PHY =>
    case VO_I2S =>
    case VO =>
    case BOOTSPI =>
    case I2C1 =>
    case I2C0 =>
    case DMA1 =>
    case FPRT =>
    case HBLOCK =>
    case SECSR =>
    case OTP =>
    case PKA =>
    case SPACC =>
    case TRNG =>
    case TIMER0 =>
    case TIMER1 =>
    case TIMER2 =>
    case TIMER3 =>
    case RTC =>
    case MNOC =>
    case RNOC =>
    case CNOC =>
    case LNOC =>
  }

  // ---------------------------------------------------------------------
  // The controller.

  class ResetData {
    /** The idr: control `i` is the one handed out as id `i`. */
    var controls: seq<Control>
    /** The syscon regmap. */
    var regs: map<nat, bv32>

    /** idr_init in probe: no control yet. */
    constructor (regs: map<nat, bv32>)
      ensures controls == [] && this.regs == regs
    {
      controls := [];
      this.regs := regs;
    }

    /** eswin_reset_set.  `io` is the status of the regmap access. */
    method Set(id: nat, asserted: bool, io: int) returns (ret: int)
      modifies this
      ensures (regs, ret) == ResetSet(controls, old(regs), id, asserted, io)
      ensures controls == old(controls)
    {
      if id >= |controls| {
        return -EINVAL;
      }
      var control := controls[id];
      if io != 0 {
        return io;
      }
      regs := UpdateBits(regs, ResetRegister(control.devId as nat), control.resetBit, asserted);
      ret := 0;
    }

    /** eswin_reset_reset. */
    method Reset(id: nat, io1: int, io2: int) returns (ret: int)
      modifies this
      ensures (regs, ret) == ResetPulse(controls, old(regs), id, io1, io2)
      ensures controls == old(controls)
    {
      ret := Set(id, true, io1);
      if ret != 0 {
        return;
      }
      ret := Set(id, false, io2);
    }

    /** eswin_reset_assert. */
    method Assert(id: nat, io: int) returns (ret: int)
      modifies this
      ensures (regs, ret) == ResetSet(controls, old(regs), id, true, io)
      ensures controls == old(controls)
    {
      ret := Set(id, true, io);
    }

    /** eswin_reset_deassert. */
    method Deassert(id: nat, io: int) returns (ret: int)
      modifies this
      ensures (regs, ret) == ResetSet(controls, old(regs), id, false, io)
      ensures controls == old(controls)
    {
      ret := Set(id, false, io);
    }

    /** idr_for_each(.., eswin_reset_of_xlate_lookup_id, ..). */
    method LookupId(a0: bv32, a1: bv32) returns (r: nat)
      ensures r == LookupFrom(controls, a0, a1, 0)
      ensures r != 0 ==> 0 < r < |controls| && Matches(controls[r], a0, a1)
    {
      LookupSpec(controls, a0, a1);
      var k := 0;
      while k < |controls|
        invariant k <= |controls|
        invariant LookupFrom(controls, a0, a1, k) == LookupFrom(controls, a0, a1, 0)
      {
        r := if Matches(controls[k], a0, a1) then k else 0;
        if r != 0 {
          return;
        }
        k := k + 1;
      }
      r := 0;
    }

    /** eswin_reset_of_xlate. */
    method OfXlate(args: seq<bv32>, memOk: bool, idrErr: int) returns (ret: int)
      modifies this
      ensures (controls, ret) == Xlate(old(controls), args, memOk, idrErr)
      ensures regs == old(regs)
    {
      if |args| != RESET_N_CELLS {
        return -EINVAL;
      }
      var found := LookupId(args[0], args[1]);
      if found != 0 {
        return found;
      }
      if !memOk {
        return -ENOMEM;
      }
      var control := Control(args[0], args[1]);
      if idrErr != 0 {
        return idrErr;
      }
      ret := |controls|;
      controls := controls + [control];
    }
  }
}
