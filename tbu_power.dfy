/**
 * TBU power control and stream-ID register packing of the EIC7700 SMMU
 * glue (drivers/iommu/eswin/eic7700-sid.c).
 *
 * A TBU is powered up by setting its `qreqn` bit in a syscon register and
 * powered down by clearing it and polling until the hardware clears the
 * matching `qacceptn` bit.  Shared TBUs are reference counted: only the
 * first user powers up and only the last user powers down.
 *
 * The EIC7700_TBUID_* values come from dt-bindings/memory/eic7700-sid.h,
 * which is not part of this model; they are parameters (`ids` for the table
 * entries, `noneId` for EIC7700_TBUID_0xF00).  Syscon registers are a map
 * from offset to value; the values the power-down poll reads back are an
 * input, since the hardware sets them.
 */
module TbuPower {
  import opened CArith

  // ---------------------------------------------------------------------
  // Stream-ID register (eic7700_aon_sid_cfg).

  /**
   * The value written to a device's SID register: the stream id in the
   * write-SID field (bits 31:24) and the read-SID field (bits 15:8), with
   * both sub-stream-id fields zero.
   */
  function SidRegValue(sid: bv32): bv32
  {
    ((sid << 24) & 0xFF00_0000) | ((sid << 8) & 0x0000_FF00)
  }

  /** The write-SID field reads back the low byte of the stream id. */
  lemma SidWriteField(sid: bv32)
    ensures SidRegValue(sid) >> 24 == sid & 0xFF
  {
  }

  /** The read-SID field reads back the same byte. */
  lemma SidReadField(sid: bv32)
    ensures (SidRegValue(sid) >> 8) & 0xFF == sid & 0xFF
  {
  }

  /** Both SSID fields (bits 23:16 and 7:0) are zero. */
  lemma SidSsidZero(sid: bv32)
    ensures SidRegValue(sid) & 0x00FF_00FF == 0
  {
  }

  // ---------------------------------------------------------------------
  // Register bits.

  /** A bit position in a 32-bit register. */
  type BitIndex = n: bv32 | n < 32

  /** BIT(n). */
  function Bit(n: BitIndex): bv32
  {
    1 << n
  }

  /** The poll's test: the accept bit reads as 0. */
  predicate Accepted(v: bv32, accept: bv32)
  {
    v & accept == 0
  }

  /** A syscon register; offsets never written read as 0. */
  function Reg(regs: map<nat, bv32>, off: nat): bv32
  {
    if off in regs then regs[off] else 0
  }

  // ---------------------------------------------------------------------
  // The client table.

  /** tbu_reg_cfg_info: the syscon register and its two bits. */
  datatype TbuRegCfg = TbuRegCfg(regOffset: nat, qreqnBit: BitIndex, qacceptnBit: BitIndex)

  /**
   * eic7700_tbu_client.  `refcounted` says whether tbu_power_ctl_register
   * is set (the TBU is shared and reference counted).
   */
  datatype TbuClient = TbuClient(tbuId: nat, reg: TbuRegCfg, refcounted: bool)

  /** eic7700_tbu_clients in table order, with the thirteen TBU ids given by `ids`. */
  function TbuClients(ids: seq<nat>): (t: seq<TbuClient>)
    requires |ids| == 13
    ensures |t| == 13
    ensures forall i :: 0 <= i < 13 ==> t[i].tbuId == ids[i]
  {
    [TbuClient(ids[0], TbuRegCfg(0x3d8, 7, 6), true),      // tbu0: ISP, DW200
     TbuClient(ids[1], TbuRegCfg(0x3d4, 31, 30), false),   // tbu1_0: video decoder
     TbuClient(ids[2], TbuRegCfg(0x3d4, 23, 22), false),   // tbu1_1: video encoder
     TbuClient(ids[3], TbuRegCfg(0x3d4, 7, 6), false),     // tbu1_2: JPEG encoder
     TbuClient(ids[4], TbuRegCfg(0x3d4, 15, 14), false),   // tbu1_3: JPEG decoder
     TbuClient(ids[5], TbuRegCfg(0x3d8, 15, 14), true),    // tbu2: shared by many
     TbuClient(ids[6], TbuRegCfg(0x3d8, 23, 22), false),   // tbu3: PCIe
     TbuClient(ids[7], TbuRegCfg(0x3d8, 31, 30), true),    // tbu4: shared by many
     TbuClient(ids[8], TbuRegCfg(0x3d0, 15, 14), false),   // tbu5: NPU
     TbuClient(ids[9], TbuRegCfg(0x3f8, 7, 6), false),     // tbu7_0: DSP0
     TbuClient(ids[10], TbuRegCfg(0x3f8, 15, 14), false),  // tbu7_1: DSP1
     TbuClient(ids[11], TbuRegCfg(0x3f8, 23, 22), false),  // tbu7_2: DSP2
     TbuClient(ids[12], TbuRegCfg(0x3f8, 31, 30), false)]  // tbu7_3: DSP3
  }

  /** In every entry the qacceptn bit is the bit just below qreqn. */
  lemma TableAcceptBelowRequest(ids: seq<nat>)
    requires |ids| == 13
    ensures forall i :: 0 <= i < 13 ==>
              TbuClients(ids)[i].reg.qacceptnBit + 1 == TbuClients(ids)[i].reg.qreqnBit
  {
  }

  /** No two entries drive the same request bit of the same register. */
  lemma TableRequestBitsDistinct(ids: seq<nat>)
    requires |ids| == 13
    ensures forall i, j :: 0 <= i < j < 13 ==>
              TbuClients(ids)[i].reg.regOffset != TbuClients(ids)[j].reg.regOffset
              || TbuClients(ids)[i].reg.qreqnBit != TbuClients(ids)[j].reg.qreqnBit
  {
  }

  // ---------------------------------------------------------------------
  // Lookup (eic7700_get_tbu_priv).

  /** The first table index from `k` on whose id is `id`. */
  function FindTbuFrom(table: seq<TbuClient>, id: nat, k: nat): (r: Option<nat>)
    requires k <= |table|
    ensures r.Some? ==> k <= r.value < |table| && table[r.value].tbuId == id
    ensures r.Some? ==> forall j :: k <= j < r.value ==> table[j].tbuId != id
    ensures r.None? ==> forall j :: k <= j < |table| ==> table[j].tbuId != id
    decreases |table| - k
  {
    if k == |table| then None
    else if table[k].tbuId == id then Some(k)
    else FindTbuFrom(table, id, k + 1)
  }

  function FindTbu(table: seq<TbuClient>, id: nat): Option<nat>
  {
    FindTbuFrom(table, id, 0)
  }

  // ---------------------------------------------------------------------
  // The power-down poll.

  /**
   * The poll loop from read `k` on: the value of `loop_cnt` when it stops,
   * which is the index of the first read with the accept bit clear, or 11
   * when none of the eleven reads has it clear.
   */
  function PollFrom(polled: seq<bv32>, accept: bv32, k: nat): nat
    requires k <= 10 < |polled|
    decreases 10 - k
  {
    if Accepted(polled[k], accept) then k
    else if k == 10 then 11
    else PollFrom(polled, accept, k + 1)
  }

  function PollCount(polled: seq<bv32>, accept: bv32): nat
    requires 10 < |polled|
  {
    PollFrom(polled, accept, 0)
  }

  lemma {:induction false} PollFromSpec(polled: seq<bv32>, accept: bv32, k: nat)
    requires k <= 10 < |polled|
    ensures k <= PollFrom(polled, accept, k) <= 11
    ensures forall i :: k <= i < PollFrom(polled, accept, k) && i <= 10 ==> !Accepted(polled[i], accept)
    ensures PollFrom(polled, accept, k) <= 10 ==> Accepted(polled[PollFrom(polled, accept, k)], accept)
    decreases 10 - k
  {
    if !Accepted(polled[k], accept) && k < 10 {
      PollFromSpec(polled, accept, k + 1);
    }
  }

  /**
   * The poll gives up (loop_cnt > 10) exactly when none of the first eleven
   * reads shows the accept bit clear; otherwise it stops at the first that does.
   */
  lemma PollTimeout(polled: seq<bv32>, accept: bv32)
    requires 10 < |polled|
    ensures PollCount(polled, accept) > 10 <==> forall i :: 0 <= i <= 10 ==> !Accepted(polled[i], accept)
    ensures PollCount(polled, accept) <= 10 ==> Accepted(polled[PollCount(polled, accept)], accept)
  {
    PollFromSpec(polled, accept, 0);
  }

  /** The poll loop of __do_eic7700_tbu_power_ctl; `polled` are the successive register values. */
  method PollAccept(polled: seq<bv32>, accept: bv32) returns (loopCnt: nat)
    requires 10 < |polled|
    ensures loopCnt == PollCount(polled, accept)
  {
    loopCnt := 0;
    while true
      invariant loopCnt <= 10
      invariant PollFrom(polled, accept, loopCnt) == PollCount(polled, accept)
      decreases 10 - loopCnt
    {
      var regVal := polled[loopCnt];
      if Accepted(regVal, accept) {
        break;
      }
      loopCnt := loopCnt + 1;
      if loopCnt > 10 {
        break;
      }
    }
  }

  // ---------------------------------------------------------------------
  // Reference definitions of the power operations.

  /** The syscon registers and the per-entry reference counts of one node. */
  datatype TbuState = TbuState(regs: map<nat, bv32>, refcount: seq<nat>)

  /** The readl / set_bit or clear_bit / writel of the QREQn bit. */
  function RequestWrite(regs: map<nat, bv32>, cfg: TbuRegCfg, powerUp: bool): map<nat, bv32>
  {
    regs[cfg.regOffset := if powerUp then Reg(regs, cfg.regOffset) | Bit(cfg.qreqnBit)
                          else Reg(regs, cfg.regOffset) & !Bit(cfg.qreqnBit)]
  }

  /**
   * __do_eic7700_tbu_power_ctl: the new registers and the return value.
   * `present` says whether the node's syscon block was initialised.
   */
  function HwPowerCtl(present: bool, regs: map<nat, bv32>, cfg: TbuRegCfg, powerUp: bool,
                      polled: seq<bv32>): (map<nat, bv32>, int)
    requires 10 < |polled|
  {
    if !present then (regs, -EFAULT)
    else if powerUp then (RequestWrite(regs, cfg, true), 0)
    else (RequestWrite(regs, cfg, false), if PollCount(polled, Bit(cfg.qacceptnBit)) > 10 then -1 else 0)
  }

  /** eic7700_tbu_power_ctl_register for table entry `i`. */
  function RefPowerCtl(present: bool, st: TbuState, i: nat, cfg: TbuRegCfg, powerUp: bool,
                       polled: seq<bv32>): (TbuState, int)
    requires i < |st.refcount| && 10 < |polled|
  {
    var count := st.refcount[i];
    if !powerUp then
      if count == 0 then (st, 0)
      else if count - 1 == 0 then
        var hw := HwPowerCtl(present, st.regs, cfg, false, polled);
        (TbuState(hw.0, st.refcount[i := 0]), hw.1)
      else (TbuState(st.regs, st.refcount[i := count - 1]), 0)
    else
      var hw := if count == 0 then HwPowerCtl(present, st.regs, cfg, true, polled) else (st.regs, 0);
      (TbuState(hw.0, st.refcount[i := count + 1]), hw.1)
  }

  /** The body of eic7700_tbu_power's loop for one listed id. */
  function PowerOne(table: seq<TbuClient>, noneId: nat, present: bool, st: TbuState, id: nat,
                    powerUp: bool, polled: seq<bv32>): (TbuState, int)
    requires |st.refcount| == |table| && 10 < |polled|
  {
    match FindTbu(table, id)
    case Some(i) =>
      if table[i].refcounted then RefPowerCtl(present, st, i, table[i].reg, powerUp, polled)
      else
        var hw := HwPowerCtl(present, st.regs, table[i].reg, powerUp, polled);
        (TbuState(hw.0, st.refcount), hw.1)
    case None =>
      if id == noneId then (st, 0) else (st, -1)
  }

  ghost predicate PollsValid(polls: seq<seq<bv32>>)
  {
    forall k :: 0 <= k < |polls| ==> 10 < |polls[k]|
  }

  /**
   * eic7700_tbu_power over the ids of the `tbus` property, in order, with
   * `polls[k]` the values the power-down poll polled for the k-th id.  The
   * first failure ends the walk and is returned.
   */
  function PowerIds(table: seq<TbuClient>, noneId: nat, present: bool, st: TbuState, ids: seq<nat>,
                    powerUp: bool, polls: seq<seq<bv32>>): (TbuState, int)
    requires |st.refcount| == |table| && |polls| == |ids| && PollsValid(polls)
    decreases |ids|
  {
    if ids == [] then (st, 0)
    else
      var one := PowerOne(table, noneId, present, st, ids[0], powerUp, polls[0]);
      PowerOneKeepsCounts(table, noneId, present, st, ids[0], powerUp, polls[0]);
      if one.1 != 0 then one
      else PowerIds(table, noneId, present, one.0, ids[1..], powerUp, polls[1..])
  }

  lemma PowerOneKeepsCounts(table: seq<TbuClient>, noneId: nat, present: bool, st: TbuState, id: nat,
                            powerUp: bool, polled: seq<bv32>)
    requires |st.refcount| == |table| && 10 < |polled|
    ensures |PowerOne(table, noneId, present, st, id, powerUp, polled).0.refcount| == |table|
  {
  }

  // ---------------------------------------------------------------------
  // Properties.

  /** Powering up sets the request bit, keeps every other bit and every other register. */
  lemma HwPowerUpSets(regs: map<nat, bv32>, cfg: TbuRegCfg, polled: seq<bv32>, off: nat)
    requires 10 < |polled|
    ensures var after := HwPowerCtl(true, regs, cfg, true, polled);
      after.1 == 0
      && Reg(after.0, cfg.regOffset) & Bit(cfg.qreqnBit) == Bit(cfg.qreqnBit)
      && Reg(after.0, cfg.regOffset) & !Bit(cfg.qreqnBit) == Reg(regs, cfg.regOffset) & !Bit(cfg.qreqnBit)
      && (off != cfg.regOffset ==> Reg(after.0, off) == Reg(regs, off))
  {
  }

  /**
   * Powering down clears the request bit and keeps every other bit; it
   * fails with -1 exactly when none of the eleven polled values shows the
   * accept bit clear.
   */
  lemma HwPowerDownClears(regs: map<nat, bv32>, cfg: TbuRegCfg, polled: seq<bv32>, off: nat)
    requires 10 < |polled|
    ensures var after := HwPowerCtl(true, regs, cfg, false, polled);
      Reg(after.0, cfg.regOffset) & Bit(cfg.qreqnBit) == 0
      && Reg(after.0, cfg.regOffset) & !Bit(cfg.qreqnBit) == Reg(regs, cfg.regOffset) & !Bit(cfg.qreqnBit)
      && (off != cfg.regOffset ==> Reg(after.0, off) == Reg(regs, off))
      && (after.1 == -1 <==> forall i :: 0 <= i <= 10 ==> !Accepted(polled[i], Bit(cfg.qacceptnBit)))
      && (after.1 == -1 || after.1 == 0)
  {
    PollTimeout(polled, Bit(cfg.qacceptnBit));
  }

  /** Without an initialised syscon block nothing is written and the result is -EFAULT. */
  lemma HwPowerAbsent(regs: map<nat, bv32>, cfg: TbuRegCfg, powerUp: bool, polled: seq<bv32>)
    requires 10 < |polled|
    ensures HwPowerCtl(false, regs, cfg, powerUp, polled) == (regs, -EFAULT)
  {
  }

  /** Powering down an entry whose count is already 0 changes nothing and succeeds. */
  lemma RefDownAtZero(present: bool, st: TbuState, i: nat, cfg: TbuRegCfg, polled: seq<bv32>)
    requires i < |st.refcount| && 10 < |polled| && st.refcount[i] == 0
    ensures RefPowerCtl(present, st, i, cfg, false, polled) == (st, 0)
  {
  }

  /**
   * Powering down decrements the count; the hardware is touched only when
   * the count reaches 0.
   */
  lemma RefDown(present: bool, st: TbuState, i: nat, cfg: TbuRegCfg, polled: seq<bv32>)
    requires i < |st.refcount| && 10 < |polled| && st.refcount[i] > 0
    ensures RefPowerCtl(present, st, i, cfg, false, polled).0.refcount == st.refcount[i := st.refcount[i] - 1]
    ensures st.refcount[i] > 1 ==>
              RefPowerCtl(present, st, i, cfg, false, polled) == (TbuState(st.regs, st.refcount[i := st.refcount[i] - 1]), 0)
    ensures st.refcount[i] == 1 ==>
              RefPowerCtl(present, st, i, cfg, false, polled).0.regs == HwPowerCtl(present, st.regs, cfg, false, polled).0
              && RefPowerCtl(present, st, i, cfg, false, polled).1 == HwPowerCtl(present, st.regs, cfg, false, polled).1
  {
  }

  /**
   * Powering up always increments the count, even when the hardware step
   * fails; the hardware is touched only when the old count was 0.
   */
  lemma RefUp(present: bool, st: TbuState, i: nat, cfg: TbuRegCfg, polled: seq<bv32>)
    requires i < |st.refcount| && 10 < |polled|
    ensures RefPowerCtl(present, st, i, cfg, true, polled).0.refcount == st.refcount[i := st.refcount[i] + 1]
    ensures st.refcount[i] > 0 ==>
              RefPowerCtl(present, st, i, cfg, true, polled).0.regs == st.regs && RefPowerCtl(present, st, i, cfg, true, polled).1 == 0
    ensures st.refcount[i] == 0 ==> RefPowerCtl(present, st, i, cfg, true, polled).0.regs
                                      == HwPowerCtl(present, st.regs, cfg, true, polled).0
  {
  }

  /** Up then down from 0 brings the count back to 0. */
  lemma RefUpDown(st: TbuState, i: nat, cfg: TbuRegCfg, polled: seq<bv32>)
    requires i < |st.refcount| && 10 < |polled| && st.refcount[i] == 0
    ensures var up := RefPowerCtl(true, st, i, cfg, true, polled).0;
      RefPowerCtl(true, up, i, cfg, false, polled).0.refcount == st.refcount
  {
    var up := RefPowerCtl(true, st, i, cfg, true, polled).0;
    assert up.refcount[i] == 1;
    assert up.refcount[i := 0] == st.refcount;
  }

  /** The walk over `a + b` is the walk over `a` and, if that succeeded, the walk over `b` from there. */
  lemma {:induction false} PowerIdsAppend(table: seq<TbuClient>, noneId: nat, present: bool, st: TbuState,
                                          a: seq<nat>, b: seq<nat>, powerUp: bool,
                                          pa: seq<seq<bv32>>, pb: seq<seq<bv32>>)
    requires |st.refcount| == |table|
    requires |pa| == |a| && |pb| == |b| && PollsValid(pa) && PollsValid(pb)
    ensures PollsValid(pa + pb)
    ensures |PowerIds(table, noneId, present, st, a, powerUp, pa).0.refcount| == |table|
    ensures PowerIds(table, noneId, present, st, a + b, powerUp, pa + pb) ==
              var first := PowerIds(table, noneId, present, st, a, powerUp, pa);
              if first.1 != 0 then first
              else PowerIds(table, noneId, present, first.0, b, powerUp, pb)
    decreases |a|
  {
    assert PollsValid(pa + pb) by {
      forall k | 0 <= k < |pa + pb|
        ensures 10 < |(pa + pb)[k]|
      {
        if k < |pa| { assert (pa + pb)[k] == pa[k]; } else { assert (pa + pb)[k] == pb[k - |pa|]; }
      }
    }
    if a != [] {
      var one := PowerOne(table, noneId, present, st, a[0], powerUp, pa[0]);
      PowerOneKeepsCounts(table, noneId, present, st, a[0], powerUp, pa[0]);
      assert (a + b)[0] == a[0] && (a + b)[1..] == a[1..] + b;
      assert (pa + pb)[0] == pa[0] && (pa + pb)[1..] == pa[1..] + pb;
      assert PollsValid(pa[1..]) by {
        forall k | 0 <= k < |pa[1..]|
          ensures 10 < |pa[1..][k]|
        {
          assert pa[1..][k] == pa[k + 1];
        }
      }
      if one.1 == 0 {
        PowerIdsAppend(table, noneId, present, one.0, a[1..], b, powerUp, pa[1..], pb);
      }
    } else {
      assert a + b == b && pa + pb == pb;
    }
  }

  /**
   * The placeholder id EIC7700_TBUID_0xF00, which no table entry carries, is
   * accepted: it changes nothing and returns 0.
   */
  lemma NoneIdSkipped(table: seq<TbuClient>, noneId: nat, present: bool, st: TbuState, powerUp: bool,
                      polled: seq<bv32>)
    requires |st.refcount| == |table| && 10 < |polled|
    requires FindTbu(table, noneId).None?
    ensures PowerOne(table, noneId, present, st, noneId, powerUp, polled) == (st, 0)
  {
  }

  /**
   * An unknown id (neither in the table nor 0xF00) aborts the walk with -1;
   * what the ids before it did stays done and the ids after it are not visited.
   */
  lemma UnknownIdAborts(table: seq<TbuClient>, noneId: nat, present: bool, st: TbuState,
                        before: seq<nat>, id: nat, after: seq<nat>, powerUp: bool,
                        pb: seq<seq<bv32>>, polled: seq<bv32>, pa: seq<seq<bv32>>)
    requires |st.refcount| == |table|
    requires |pb| == |before| && |pa| == |after| && PollsValid(pb) && PollsValid(pa) && 10 < |polled|
    requires FindTbu(table, id).None? && id != noneId
    requires PowerIds(table, noneId, present, st, before, powerUp, pb).1 == 0
    ensures PollsValid(pb + [polled] + pa)
    ensures PowerIds(table, noneId, present, st, before + [id] + after, powerUp, pb + [polled] + pa)
            == (PowerIds(table, noneId, present, st, before, powerUp, pb).0, -1)
  {
    assert PollsValid([polled] + pa) by {
      forall k | 0 <= k < |[polled] + pa|
        ensures 10 < |([polled] + pa)[k]|
      {
        if k > 0 { assert ([polled] + pa)[k] == pa[k - 1]; }
      }
    }
    assert before + [id] + after == before + ([id] + after);
    assert pb + [polled] + pa == pb + ([polled] + pa);
    PowerIdsAppend(table, noneId, present, st, before, [id] + after, powerUp, pb, [polled] + pa);
    assert ([id] + after)[0] == id;
  }

  // ---------------------------------------------------------------------
  // The driver's state for one node.

  class TbuPowerCtl {
    /** The node's tbu_priv array, one entry per table entry. */
    const table: seq<TbuClient>
    /** EIC7700_TBUID_0xF00: a listed id that names no TBU. */
    const noneId: nat
    /** Whether syscon_sid_cfg[nid] was set up. */
    const present: bool
    var regs: map<nat, bv32>
    var refcount: seq<nat>

    ghost predicate Valid()
      reads this
    {
      |refcount| == |table|
    }

    function State(): TbuState
      reads this
    {
      TbuState(regs, refcount)
    }

    /** eic7700_tbu_powr_priv_init: every reference count starts at 0. */
    constructor (table: seq<TbuClient>, noneId: nat, present: bool, regs: map<nat, bv32>)
      ensures Valid()
      ensures this.table == table && this.noneId == noneId && this.present == present
      ensures this.regs == regs && refcount == seq(|table|, _ => 0)
    {
      this.table := table;
      this.noneId := noneId;
      this.present := present;
      this.regs := regs;
      this.refcount := seq(|table|, _ => 0);
    }

    /** __do_eic7700_tbu_power_ctl. */
    method DoPowerCtl(cfg: TbuRegCfg, powerUp: bool, polled: seq<bv32>) returns (ret: int)
      requires 10 < |polled|
      modifies this
      ensures (regs, ret) == HwPowerCtl(present, old(regs), cfg, powerUp, polled)
      ensures refcount == old(refcount)
    {
      if !present {
        return -EFAULT;
      }
      // readl, set_bit / clear_bit, writel
      regs := RequestWrite(regs, cfg, powerUp);
      if powerUp {
        ret := 0;
      } else {
        var loopCnt := PollAccept(polled, Bit(cfg.qacceptnBit));
        ret := if loopCnt > 10 then -1 else 0;
      }
    }

    /** eic7700_tbu_power_ctl_register for entry `i`. */
    method PowerCtlRegister(i: nat, powerUp: bool, polled: seq<bv32>) returns (ret: int)
      requires Valid() && i < |table| && 10 < |polled|
      modifies this
      ensures Valid()
      ensures (State(), ret) == RefPowerCtl(present, old(State()), i, table[i].reg, powerUp, polled)
    {
      ret := 0;
      var oldCount := refcount[i];
      if !powerUp {
        if oldCount == 0 {
          return;
        }
        refcount := refcount[i := oldCount - 1];
        if refcount[i] == 0 {
          ret := DoPowerCtl(table[i].reg, false, polled);
        }
      } else {
        if oldCount == 0 {
          ret := DoPowerCtl(table[i].reg, true, polled);
        }
        refcount := refcount[i := oldCount + 1];
      }
    }

    /** eic7700_get_tbu_priv: 0 and the first matching index, or -1. */
    method GetTbuPriv(id: nat) returns (ret: int, idx: nat)
      ensures ret == 0 || ret == -1
      ensures ret == 0 <==> FindTbu(table, id).Some?
      ensures ret == 0 ==> idx == FindTbu(table, id).value
    {
      var i := 0;
      while i < |table|
        invariant i <= |table|
        invariant FindTbuFrom(table, id, i) == FindTbu(table, id)
      {
        if id == table[i].tbuId {
          return 0, i;
        }
        i := i + 1;
      }
      return -1, 0;
    }

    /** The body of eic7700_tbu_power's loop for one id. */
    method PowerOneId(id: nat, powerUp: bool, polled: seq<bv32>) returns (ret: int)
      requires Valid() && 10 < |polled|
      modifies this
      ensures Valid()
      ensures (State(), ret) == PowerOne(table, noneId, present, old(State()), id, powerUp, polled)
    {
      var found, i := GetTbuPriv(id);
      if found == 0 {
        if table[i].refcounted {
          ret := PowerCtlRegister(i, powerUp, polled);
        } else {
          ret := DoPowerCtl(table[i].reg, powerUp, polled);
        }
      } else if id == noneId {
        ret := 0;
      } else {
        ret := -1;
      }
    }

    /** eic7700_tbu_power for the ids of the device's `tbus` property. */
    method TbuPowerIds(ids: seq<nat>, powerUp: bool, polls: seq<seq<bv32>>) returns (ret: int)
      requires Valid() && |polls| == |ids| && PollsValid(polls)
      modifies this
      ensures Valid()
      ensures (State(), ret) == PowerIds(table, noneId, present, old(State()), ids, powerUp, polls)
    {
      ret := 0;
      var k := 0;
      while k < |ids|
        invariant Valid() && k <= |ids|
        invariant PollsValid(polls[k..])
        invariant PowerIds(table, noneId, present, State(), ids[k..], powerUp, polls[k..])
                  == PowerIds(table, noneId, present, old(State()), ids, powerUp, polls)
        invariant ret == 0
      {
        assert ids[k..][0] == ids[k] && ids[k..][1..] == ids[k + 1..];
        assert polls[k..][0] == polls[k] && polls[k..][1..] == polls[k + 1..];
        ret := PowerOneId(ids[k], powerUp, polls[k]);
        if ret != 0 {
          return;
        }
        k := k + 1;
      }
    }

    /**
     * eic7700_tbu_power: a device with no NUMA node is refused with -EFAULT
     * under CONFIG_NUMA and otherwise handled on node 0, which this
     * instance then stands for; the walk over the `tbus` ids follows.
     */
    method TbuPower(hasNode: bool, numa: bool, ids: seq<nat>, powerUp: bool, polls: seq<seq<bv32>>)
      returns (ret: int)
      requires Valid() && |polls| == |ids| && PollsValid(polls)
      modifies this
      ensures Valid()
      ensures !hasNode && numa ==> ret == -EFAULT && State() == old(State())
      ensures hasNode || !numa ==> (State(), ret) == PowerIds(table, noneId, present, old(State()), ids, powerUp, polls)
    {
      if !hasNode && numa {
        return -EFAULT;
      }
      ret := TbuPowerIds(ids, powerUp, polls);
    }
  }
}
