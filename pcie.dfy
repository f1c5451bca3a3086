/**
 * Register programming of the ESWIN PCIe root complex glue
 * (drivers/pci/controller/dwc/pcie-eswin.c).
 *
 * Two register blocks are involved: the controller's management block
 * (`mgmt`, device type, LTSSM enable, PHY reset hold, link state) and the
 * DesignWare core's configuration space (`dbi`).  `host_init` sets the
 * device type to root port, releases the PHY and then writes the
 * Max Link Speed and Maximum Link Width fields of the Link Capabilities
 * register (section 7.5.3.6 of the PCI Express Base Specification r4.0),
 * the Target Link Speed of Link Control 2 (section 7.5.3.19) and clears the
 * MSI-X Table Size (section 7.7.2).
 *
 * Both blocks are maps from offset to value.  The clock, reset and TBU
 * power calls that precede the writes are represented by their return
 * values; the wait for pm_sel_aux_clk is assumed to end.
 */
module Pcie {
  import opened CArith

  /** A register; offsets never written read as 0. */
  function Reg(regs: map<nat, bv32>, off: nat): bv32
  {
    if off in regs then regs[off] else 0
  }

  // ---------------------------------------------------------------------
  // Management block.

  /** PCIEMGMT_APP_LTSSM_ENABLE. */
  const APP_LTSSM_ENABLE: bv32 := 0x20
  /** PCIEMGMT_APP_HOLD_PHY_RST. */
  const APP_HOLD_PHY_RST: bv32 := 0x40
  /** The link-state register of the management block. */
  const MGMT_LINK_STATE: nat := 0x100

  /** eswin_pcie_link_up: the low byte of the state register is (0x11 << 2) | 3. */
  predicate LinkUp(state: bv32)
  {
    state & 0xff == 0x47
  }

  /**
   * The link is up exactly when the LTSSM state (bits 7:2) is 0x11 and
   * both bits 1:0 are set; the upper bits do not matter.
   */
  lemma LinkUpFields(state: bv32)
    ensures LinkUp(state) <==> (state >> 2) & 0x3f == 0x11 && state & 0x3 == 0x3
  {
  }

  /** eswin_pcie_start_link's new value: LTSSM enable set. */
  function StartLinkValue(v: bv32): bv32
  {
    v | APP_LTSSM_ENABLE
  }

  /** start_link sets bit 5 and keeps every other bit. */
  lemma StartLinkOnlyLtssm(v: bv32)
    ensures (v | 0x20) & 0x20 == 0x20
    ensures (v | 0x20) & !0x20 == v & !0x20
  {
  }

  /** host_init's "set device type: rc": the low nibble becomes 4. */
  function DeviceTypeRc(v: bv32): bv32
  {
    (v & 0xFFFF_FFF0) | 0x4
  }

  /** Device type 4 in bits 3:0, other bits kept. */
  lemma DeviceTypeRcFields(v: bv32)
    ensures ((v & 0xFFFF_FFF0) | 0x4) & 0xF == 0x4
    ensures ((v & 0xFFFF_FFF0) | 0x4) & 0xFFFF_FFF0 == v & 0xFFFF_FFF0
  {
  }

  /** The release of app_hold_phy_rst after PERST is deasserted. */
  function ReleasePhy(v: bv32): bv32
  {
    v & !APP_HOLD_PHY_RST
  }

  /** Bit 6 clears and every other bit is kept. */
  lemma ReleasePhyFields(v: bv32)
    ensures (v & !0x40) & 0x40 == 0
    ensures (v & !0x40) & !0x40 == v & !0x40
  {
  }

  // ---------------------------------------------------------------------
  // Configuration space fields.

  /** DBI offsets written by host_init. */
  const DBI_ID: nat := 0x0
  const DBI_MSI_CAP: nat := 0x50
  const DBI_LINK_CAP: nat := 0x7c
  const DBI_LINK_CTL2: nat := 0xa0
  const DBI_MSIX_CAP: nat := 0xb0
  const DBI_LANE_FIX: nat := 0x8c0

  /** The speed code: 3 for gen 3, 2 for gen 2, 1 for anything else. */
  function LinkSpeed(genX: int): (s: bv32)
    ensures 1 <= s <= 3
  {
    if genX == 3 then 3 else if genX == 2 then 2 else 1
  }

  /** Link Control 2 as written: 0x0001000g. */
  function LinkCtl2Value(genX: int): bv32
  {
    0x0001_0000 | LinkSpeed(genX)
  }

  /** Link Control 2 carries the speed as Target Link Speed (bits 3:0) and nothing else but bit 16. */
  lemma LinkCtl2Fields(genX: int)
    ensures LinkCtl2Value(genX) & 0xF == LinkSpeed(genX)
    ensures LinkCtl2Value(genX) & 0xFFFF_FFF0 == 0x0001_0000
  {
  }

  /** The width in lanes: 4, 2, or 1 for anything else. */
  function LinkWidth(laneX: int): (w: nat)
    ensures w == 1 || w == 2 || w == 4
    ensures w == laneX <==> laneX == 2 || laneX == 4 || laneX == 1
  {
    if laneX == 4 then 4 else if laneX == 2 then 2 else 1
  }

  /** The Maximum Link Width field value, already in bits 9:4. */
  function LinkWidthBits(laneX: int): (b: bv32)
    ensures b == 0x40 || b == 0x20 || b == 0x10
  {
    if laneX == 4 then 0x40 else if laneX == 2 then 0x20 else 0x10
  }

  /** The field reads back as the width. */
  lemma LinkWidthBitsValue(laneX: int)
    ensures (LinkWidthBits(laneX) >> 4) as nat == LinkWidth(laneX)
  {
  }

  /** The speed write to Link Capabilities: bits 3:0 replaced. */
  function SpeedUpdate(v: bv32, genX: int): bv32
  {
    (v & 0xFFFF_FFF0) | LinkSpeed(genX)
  }

  /** The width write to Link Capabilities: bits 9:4 replaced. */
  function WidthUpdate(v: bv32, laneX: int): bv32
  {
    (v & 0xFFFF_FC0F) | LinkWidthBits(laneX)
  }

  /** Link Capabilities after the speed write and then the width write. */
  function LinkCapValue(v: bv32, genX: int, laneX: int): bv32
  {
    WidthUpdate(SpeedUpdate(v, genX), laneX)
  }

  /**
   * Max Link Speed (bits 3:0) is the speed code, Maximum Link Width
   * (bits 9:4) holds the width field, and bits 31:10 are kept.
   */
  lemma LinkCapFields(v: bv32, genX: int, laneX: int)
    ensures LinkCapValue(v, genX, laneX) & 0xF == LinkSpeed(genX)
    ensures LinkCapValue(v, genX, laneX) & 0x3F0 == LinkWidthBits(laneX)
    ensures LinkCapValue(v, genX, laneX) & 0xFFFF_FC00 == v & 0xFFFF_FC00
  {
    LinkCapBits(v, LinkSpeed(genX), LinkWidthBits(laneX));
  }

  lemma LinkCapBits(v: bv32, s: bv32, w: bv32)
    requires s & 0xFFFF_FFF0 == 0 && w & 0xFFFF_FC0F == 0
    ensures (((v & 0xFFFF_FFF0) | s) & 0xFFFF_FC0F) | w == (v & 0xFFFF_FC00) | w | s
  {
  }

  /** The lane-fix code of register 0x8c0: 0x44, 0x42 or 0x41 by lane count. */
  function LaneFixCode(laneX: int): (c: bv32)
    ensures c == 0x40 | LinkWidth(laneX) as bv32
  {
    if laneX == 4 then 0x44 else if laneX == 2 then 0x42 else 0x41
  }

  /** Register 0x8c0 with its low seven bits replaced. */
  function LaneFixValue(v: bv32, laneX: int): bv32
  {
    (v & 0xFFFF_FF80) | LaneFixCode(laneX)
  }

  /** The low seven bits are the code and bits 31:7 are kept. */
  lemma LaneFixFields(v: bv32, laneX: int)
    ensures LaneFixValue(v, laneX) & 0x7F == LaneFixCode(laneX)
    ensures LaneFixValue(v, laneX) & 0xFFFF_FF80 == v & 0xFFFF_FF80
  {
    var c := LaneFixCode(laneX);
    LowBitsReplaced(v, c);
  }

  lemma LowBitsReplaced(v: bv32, c: bv32)
    requires c & 0xFFFF_FF80 == 0
    ensures ((v & 0xFFFF_FF80) | c) & 0x7F == c
    ensures ((v & 0xFFFF_FF80) | c) & 0xFFFF_FF80 == v & 0xFFFF_FF80
  {
  }

  /** The MSI-X capability header with Table Size (bits 26:16) cleared. */
  function MsixTableSizeCleared(v: bv32): bv32
  {
    v & !(0x7ff << 16)
  }

  /** Bits 26:16 read as 0 and the other bits are kept. */
  lemma MsixTableSizeFields(v: bv32)
    ensures MsixTableSizeCleared(v) & 0x07FF_0000 == 0
    ensures MsixTableSizeCleared(v) & 0xF800_FFFF == v & 0xF800_FFFF
  {
    assert (0x7ff as bv32) << 16 == 0x07FF_0000;
  }

  /** The management register 0 after host_init: device type set, then the PHY released. */
  function HostInitMgmt(mgmt: map<nat, bv32>): map<nat, bv32>
  {
    var m1 := mgmt[0 := DeviceTypeRc(Reg(mgmt, 0))];
    m1[0 := ReleasePhy(Reg(m1, 0))]
  }

  /**
   * After host_init the management register has device type 4 in bits 3:0,
   * app_hold_phy_rst (bit 6) clear, and every other bit as before.
   */
  lemma HostInitMgmtValue(mgmt: map<nat, bv32>)
    ensures Reg(HostInitMgmt(mgmt), 0) == (Reg(mgmt, 0) & 0xFFFF_FFB0) | 0x4
  {
    var v := Reg(mgmt, 0);
    var w := Reg(HostInitMgmt(mgmt), 0);
    assert w == ReleasePhy(DeviceTypeRc(v));
    MaskThenClear(v, w);
  }

  lemma MaskThenClear(v: bv32, w: bv32)
    requires w == ReleasePhy(DeviceTypeRc(v))
    ensures w == (v & 0xFFFF_FFB0) | 0x4
  {
  }

  /** The closed form: type 4 in bits 3:0, bit 6 clear, the rest kept. */
  lemma MgmtClosedFormFields(v: bv32)
    ensures ((v & 0xFFFF_FFB0) | 0x4) & 0xF == 0x4
    ensures ((v & 0xFFFF_FFB0) | 0x4) & 0x40 == 0
    ensures ((v & 0xFFFF_FFB0) | 0x4) & 0xFFFF_FFB0 == v & 0xFFFF_FFB0
  {
  }

  /** The configuration space after host_init's writes, in their order. */
  function HostInitDbi(dbi: map<nat, bv32>, genX: int, laneX: int): map<nat, bv32>
  {
    var d1 := dbi[DBI_ID := 0x20301fe1][DBI_LINK_CTL2 := LinkCtl2Value(genX)];
    var d2 := d1[DBI_LINK_CAP := SpeedUpdate(Reg(d1, DBI_LINK_CAP), genX)];
    var d3 := d2[DBI_LINK_CAP := WidthUpdate(Reg(d2, DBI_LINK_CAP), laneX)];
    var d4 := d3[DBI_LANE_FIX := LaneFixValue(Reg(d3, DBI_LANE_FIX), laneX)];
    var d5 := d4[DBI_MSIX_CAP := MsixTableSizeCleared(Reg(d4, DBI_MSIX_CAP))];
    d5[DBI_MSI_CAP := 0x018a7005]
  }

  /**
   * After host_init each configuration register holds the value its own
   * field rules give, computed from what it held before; registers
   * host_init does not write are unchanged.
   */
  lemma HostInitDbiValues(dbi: map<nat, bv32>, genX: int, laneX: int, other: nat)
    requires other !in {DBI_ID, DBI_MSI_CAP, DBI_LINK_CAP, DBI_LINK_CTL2, DBI_MSIX_CAP, DBI_LANE_FIX}
    ensures var d := HostInitDbi(dbi, genX, laneX);
            Reg(d, DBI_ID) == 0x20301fe1
            && Reg(d, DBI_LINK_CTL2) == LinkCtl2Value(genX)
            && Reg(d, DBI_LINK_CAP) == LinkCapValue(Reg(dbi, DBI_LINK_CAP), genX, laneX)
            && Reg(d, DBI_LANE_FIX) == LaneFixValue(Reg(dbi, DBI_LANE_FIX), laneX)
            && Reg(d, DBI_MSIX_CAP) == MsixTableSizeCleared(Reg(dbi, DBI_MSIX_CAP))
            && Reg(d, DBI_MSI_CAP) == 0x018a7005
            && Reg(d, other) == Reg(dbi, other)
  {
  }

  // ---------------------------------------------------------------------
  // The controller.

  class EswinPcie {
    /** gen_x and lane_x from the device tree. */
    const genX: int
    const laneX: int
    /** The management block and the configuration space. */
    var mgmt: map<nat, bv32>
    var dbi: map<nat, bv32>

    constructor (genX: int, laneX: int, mgmt: map<nat, bv32>, dbi: map<nat, bv32>)
      ensures this.genX == genX && this.laneX == laneX && this.mgmt == mgmt && this.dbi == dbi
    {
      this.genX := genX;
      this.laneX := laneX;
      this.mgmt := mgmt;
      this.dbi := dbi;
    }

    /** eswin_pcie_link_up. */
    method IsLinkUp() returns (up: int)
      ensures up == 1 <==> LinkUp(Reg(mgmt, MGMT_LINK_STATE))
      ensures up == 0 || up == 1
    {
      var val := Reg(mgmt, MGMT_LINK_STATE);
      if val & 0xff == (0x11 << 2) | 0x3 {
        return 1;
      } else {
        return 0;
      }
    }

    /** eswin_pcie_start_link. */
    method StartLink() returns (ret: int)
      modifies this
      ensures mgmt == old(mgmt)[0 := StartLinkValue(Reg(old(mgmt), 0))]
      ensures dbi == old(dbi) && ret == 0
    {
      mgmt := mgmt[0 := StartLinkValue(Reg(mgmt, 0))];
      ret := 0;
    }

    /**
     * eswin_pcie_host_init.  `clkRet`, `powerRet` and `tbuRet` are what the
     * clock enable, the reset pulses and the TBU power-up return; the first
     * nonzero one is returned before any register is touched.
     */
    method HostInit(clkRet: int, powerRet: int, tbuRet: int) returns (ret: int)
      modifies this
      ensures clkRet != 0 ==> ret == clkRet
      ensures clkRet == 0 && powerRet != 0 ==> ret == powerRet
      ensures clkRet == 0 && powerRet == 0 && tbuRet != 0 ==> ret == tbuRet
      ensures ret != 0 ==> mgmt == old(mgmt) && dbi == old(dbi)
      ensures ret == 0 ==> clkRet == 0 && powerRet == 0 && tbuRet == 0
      ensures ret == 0 ==> mgmt == HostInitMgmt(old(mgmt))
      ensures ret == 0 ==> dbi == HostInitDbi(old(dbi), genX, laneX)
    {
      if clkRet != 0 {
        return clkRet;
      }
      if powerRet != 0 {
        return powerRet;
      }
      if tbuRet != 0 {
        return tbuRet;
      }
      // set device type: rc
      mgmt := mgmt[0 := DeviceTypeRc(Reg(mgmt, 0))];
      // PERST# is asserted and deasserted here; then app_hold_phy_rst is released
      mgmt := mgmt[0 := ReleasePhy(Reg(mgmt, 0))];
      // vendor and device id
      dbi := dbi[DBI_ID := 0x20301fe1];
      dbi := dbi[DBI_LINK_CTL2 := LinkCtl2Value(genX)];
      dbi := dbi[DBI_LINK_CAP := SpeedUpdate(Reg(dbi, DBI_LINK_CAP), genX)];
      dbi := dbi[DBI_LINK_CAP := WidthUpdate(Reg(dbi, DBI_LINK_CAP), laneX)];
      dbi := dbi[DBI_LANE_FIX := LaneFixValue(Reg(dbi, DBI_LANE_FIX), laneX)];
      dbi := dbi[DBI_MSIX_CAP := MsixTableSizeCleared(Reg(dbi, DBI_MSIX_CAP))];
      // 32 MSI vectors
      dbi := dbi[DBI_MSI_CAP := 0x018a7005];
      ret := 0;
    }
  }
}
