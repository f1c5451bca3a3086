/**
 * Software tuning of the ESWIN SDIO host (sdhci-of-eswin-sdio.c).
 *
 * Tuning first scans the PHY clock delay line, code by code, looking for the
 * widest window of consecutive codes at which a tuning command succeeds, then
 * scans the vendor phase-code register for the first such window.  Each probe
 * (`mmc_send_tuning`) is an oracle: `delayStatus[i]` / `phaseStatus[p]` is the
 * status the card returns with delay code `i` / phase code `p` programmed,
 * 0 meaning success.
 *
 * The host is a register file plus the ordered log of everything the driver
 * does to the hardware, so that write order and probe order can be stated.
 */
module SdioTuning {
  import opened CArith

  /** Registers the tuning code touches (offsets come from sdhci.h and sdhci-eswin.h). */
  datatype Reg =
    | HostControl2     // SDHCI_HOST_CONTROL2
    | CmdData          // SDHCI_CMD_DATA
    | VendorAtCtrl     // VENDOR_AT_CTRL_R
    | VendorAtSata     // VENDOR_AT_SATA_R: the sampling phase code
    | PhyDelayCnfg     // PHY_SDCLKDL_CNFG_R: delay-line update control
    | PhyDelayCode     // PHY_SDCLKDL_DC_R: delay-line code

  datatype Event =
    | CardClockOff                   // eswin_sdhci_disable_card_clk
    | CardClockOn                    // eswin_sdhci_enable_card_clk
    | WriteReg(reg: Reg, value: bv16)
    | DelayProbe(code: nat)          // mmc_send_tuning during the delay scan
    | PhaseProbe(code: nat)          // mmc_send_tuning during the phase scan
    | ResetCmdData                   // reset of the CMD and DATA lines, then 200 us settle

  /** SDHCI_CTRL_TUNED_CLK in the host control 2 register. */
  const CTRL_TUNED_CLK: bv16 := 0x0080
  /** Width of a delay window that ends the delay scan early. */
  const DELAY_RANGE_THRESHOLD := 20

  /**
   * Constants of sdhci-eswin.h that the model takes as parameters, and the
   * fallback delay code read from the device tree.
   */
  datatype TuningConfig = TuningConfig(
    delayCodeMax: nat,       // PHY_DELAY_CODE_MAX: codes 0..delayCodeMax are probed
    maxPhaseCode: nat,       // MAX_PHASE_CODE: codes 0..maxPhaseCode are probed
    delayMask: bv8,          // PHY_CLK_MAX_DELAY_MASK (its low byte)
    updateDelayCode: bv8,    // PHY_UPDATE_DELAY_CODE
    swTuneEnable: bv16,      // SW_TUNE_ENABLE (assumed within the low 16 bits)
    fallbackDelay: int)      // phy.delay_code

  /** A register never written reads as its reset value 0. */
  function Get(regs: map<Reg, bv16>, r: Reg): bv16
  {
    if r in regs then regs[r] else 0
  }

  function Apply(regs: map<Reg, bv16>, e: Event): map<Reg, bv16>
  {
    if e.WriteReg? then regs[e.reg := e.value] else regs
  }

  /** The register file after the events of `t`, in order. */
  function ApplyTrace(regs: map<Reg, bv16>, t: seq<Event>): map<Reg, bv16>
    decreases |t|
  {
    if t == [] then regs else Apply(ApplyTrace(regs, t[..|t| - 1]), t[|t| - 1])
  }

  lemma {:induction false} ApplyTraceAppend(regs: map<Reg, bv16>, a: seq<Event>, b: seq<Event>)
    ensures ApplyTrace(regs, a + b) == ApplyTrace(ApplyTrace(regs, a), b)
    decreases |b|
  {
    if b == [] {
      assert a + b == a;
    } else {
      assert (a + b)[..|a + b| - 1] == a + b[..|b| - 1];
      ApplyTraceAppend(regs, a, b[..|b| - 1]);
    }
  }

  /** A trace with no register write leaves the register file alone. */
  lemma {:induction false} ApplyTraceNoWrites(regs: map<Reg, bv16>, t: seq<Event>)
    requires forall k :: 0 <= k < |t| ==> !t[k].WriteReg?
    ensures ApplyTrace(regs, t) == regs
    decreases |t|
  {
    if t != [] {
      ApplyTraceNoWrites(regs, t[..|t| - 1]);
    }
  }

  /** The last write to `r` in `t` decides its value when nothing after it writes `r`. */
  lemma {:induction false} ApplyTraceLastWrite(regs: map<Reg, bv16>, t: seq<Event>, k: nat, r: Reg)
    requires k < |t| && t[k].WriteReg? && t[k].reg == r
    requires forall j :: k < j < |t| ==> !(t[j].WriteReg? && t[j].reg == r)
    ensures Get(ApplyTrace(regs, t), r) == t[k].value
    decreases |t|
  {
    if k < |t| - 1 {
      ApplyTraceLastWrite(regs, t[..|t| - 1], k, r);
    }
  }

  // ---------------------------------------------------------------------
  // Register values as the C writes them.

  /** `delay &= PHY_CLK_MAX_DELAY_MASK` followed by the byte write's truncation. */
  function MaskDelay(cfg: TuningConfig, delay: int): bv16
  {
    ((delay % 256) as bv8 & cfg.delayMask) as bv16
  }

  /** The truncation of `sdhci_writew`. */
  function Trunc16(x: int): bv16
  {
    (x % 0x1_0000) as bv16
  }

  /** eswin_sdhci_sdio_config_phy_delay: arm the update, write the code, disarm. */
  function PhyDelayWrites(cfg: TuningConfig, delay: int): seq<Event>
  {
    [WriteReg(PhyDelayCnfg, cfg.updateDelayCode as bv16),
     WriteReg(PhyDelayCode, MaskDelay(cfg, delay)),
     WriteReg(PhyDelayCnfg, 0)]
  }

  /** A change of the sampling point made with the card clock gated off. */
  function ClockGated(ws: seq<Event>): seq<Event>
  {
    [CardClockOff] + ws + [CardClockOn]
  }

  // ---------------------------------------------------------------------
  // The delay-line scan as a reference function.

  /**
   * Scan variables: the committed delay, the open window [lo, hi] (-1 when
   * unset), the widest range scored so far and whether the scan stopped early.
   */
  datatype DelayWindow = DelayWindow(delay: int, lo: int, hi: int, range: int, done: bool)

  const DelayStart := DelayWindow(-1, -1, -1, -1, false)

  /** One iteration of the delay loop after probing `code` with result `status`. */
  function DelayStep(w: DelayWindow, code: nat, status: int): DelayWindow
  {
    if status != 0 then
      if w.lo != -1 && w.hi != -1 then
        if w.hi - w.lo > w.range then
          var range := w.hi - w.lo;
          var delay := CDiv(w.lo + w.hi, 2);
          if range > DELAY_RANGE_THRESHOLD then DelayWindow(delay, w.lo, w.hi, range, true)
          else DelayWindow(delay, -1, -1, range, false)
        else w.(lo := -1, hi := -1)
      else w
    else if w.lo == -1 then w.(lo := code)
    else w.(hi := code)
  }

  /** Scans codes i.. and returns the final variables and the number of probes made. */
  function DelayScanFrom(status: seq<int>, i: nat, w: DelayWindow): (DelayWindow, nat)
    requires i <= |status|
    decreases |status| - i
  {
    if i == |status| || w.done then (w, i)
    else DelayScanFrom(status, i + 1, DelayStep(w, i, status[i]))
  }

  function DelayScan(status: seq<int>): (DelayWindow, nat)
  {
    DelayScanFrom(status, 0, DelayStart)
  }

  /** The delay code programmed when the scan ends: the window midpoint, or the fallback. */
  function DelayCommitted(cfg: TuningConfig, status: seq<int>): int
  {
    var w := DelayScan(status).0;
    if w.delay == -1 then cfg.fallbackDelay else w.delay
  }

  /** Return value of the delay scan: 0, or the status of the last probe when no window was scored. */
  function DelayResult(status: seq<int>): int
    requires |status| > 0
  {
    DelayScanFromProbes(status, 0, DelayStart);
    var (w, n) := DelayScan(status);
    if w.delay != -1 then 0
    else if n == 0 then 0
    else status[n - 1]
  }

  /** Events of probing one delay code. */
  function DelayAttempt(cfg: TuningConfig, code: nat, st: int): seq<Event>
  {
    ClockGated(PhyDelayWrites(cfg, code)) + [DelayProbe(code)] + (if st != 0 then [ResetCmdData] else [])
  }

  function DelayProbeTrace(cfg: TuningConfig, status: seq<int>, n: nat): seq<Event>
    requires n <= |status|
  {
    if n == 0 then [] else DelayProbeTrace(cfg, status, n - 1) + DelayAttempt(cfg, n - 1, status[n - 1])
  }

  lemma {:induction false} DelayScanFromProbes(status: seq<int>, i: nat, w: DelayWindow)
    requires i <= |status|
    ensures i <= DelayScanFrom(status, i, w).1 <= |status|
    decreases |status| - i
  {
    if i < |status| && !w.done {
      DelayScanFromProbes(status, i + 1, DelayStep(w, i, status[i]));
    }
  }

  /** Everything the delay scan does: the probes, then the committed code, clock-gated. */
  lemma DelayProbeTraceStep(cfg: TuningConfig, status: seq<int>, i: nat, log0: seq<Event>, log: seq<Event>)
    requires i < |status|
    requires log == log0 + DelayProbeTrace(cfg, status, i) + DelayAttempt(cfg, i, status[i])
    ensures log == log0 + DelayProbeTrace(cfg, status, i + 1)
  {
  }

  /** What the delay loop's variables say once the loop has ended. */
  lemma DelayScanExit(cfg: TuningConfig, status: seq<int>, i: nat, w: DelayWindow, ret: int)
    requires 0 < i <= |status|
    requires DelayScanFrom(status, i, w) == DelayScan(status)
    requires i == |status| || w.done
    requires ret == status[i - 1]
    ensures DelayScan(status) == (w, i)
    ensures DelayResult(status) == (if w.delay == -1 then ret else 0)
    ensures DelayTrace(cfg, status) == DelayProbeTrace(cfg, status, i)
              + ClockGated(PhyDelayWrites(cfg, if w.delay == -1 then cfg.fallbackDelay else w.delay))
  {
  }

  function DelayTrace(cfg: TuningConfig, status: seq<int>): seq<Event>
  {
    DelayScanFromProbes(status, 0, DelayStart);
    DelayProbeTrace(cfg, status, DelayScan(status).1) + ClockGated(PhyDelayWrites(cfg, DelayCommitted(cfg, status)))
  }

  // ---------------------------------------------------------------------
  // The phase-code scan as a reference function.

  /** Scan variables: the window [lo, hi] (-1 when unset) and whether the scan stopped. */
  datatype PhaseWindow = PhaseWindow(lo: int, hi: int, done: bool)

  const PhaseStart := PhaseWindow(-1, -1, false)

  /** One iteration of the phase loop: a failure after a complete window stops the scan. */
  function PhaseStep(w: PhaseWindow, code: nat, status: int): PhaseWindow
  {
    if status != 0 then
      if w.lo != -1 && w.hi != -1 then w.(done := true) else w
    else if w.lo == -1 then w.(lo := code)
    else w.(hi := code)
  }

  function PhaseScanFrom(status: seq<int>, i: nat, w: PhaseWindow): (PhaseWindow, nat)
    requires i <= |status|
    decreases |status| - i
  {
    if i == |status| || w.done then (w, i)
    else PhaseScanFrom(status, i + 1, PhaseStep(w, i, status[i]))
  }

  function PhaseScan(status: seq<int>): (PhaseWindow, nat)
  {
    PhaseScanFrom(status, 0, PhaseStart)
  }

  predicate PhaseFound(status: seq<int>)
  {
    var w := PhaseScan(status).0;
    !(w.lo == -1 && w.hi == -1)
  }

  /** The phase code programmed at the end: `(code_min + code_max) / 2` in C, or 0. */
  function PhaseCommitted(status: seq<int>): int
  {
    var w := PhaseScan(status).0;
    if !PhaseFound(status) then 0 else CDiv(w.lo + w.hi, 2)
  }

  function PhaseResult(status: seq<int>): int
  {
    if PhaseFound(status) then 0 else -EIO
  }

  function PhaseAttempt(code: nat, st: int): seq<Event>
  {
    ClockGated([WriteReg(VendorAtSata, Trunc16(code))]) + [PhaseProbe(code)] + (if st != 0 then [ResetCmdData] else [])
  }

  function PhaseProbeTrace(status: seq<int>, n: nat): seq<Event>
    requires n <= |status|
  {
    if n == 0 then [] else PhaseProbeTrace(status, n - 1) + PhaseAttempt(n - 1, status[n - 1])
  }

  lemma {:induction false} PhaseScanFromProbes(status: seq<int>, i: nat, w: PhaseWindow)
    requires i <= |status|
    ensures i <= PhaseScanFrom(status, i, w).1 <= |status|
    decreases |status| - i
  {
    if i < |status| && !w.done {
      PhaseScanFromProbes(status, i + 1, PhaseStep(w, i, status[i]));
    }
  }

  lemma PhaseProbeTraceStep(status: seq<int>, i: nat, log0: seq<Event>, log: seq<Event>)
    requires i < |status|
    requires log == log0 + PhaseProbeTrace(status, i) + PhaseAttempt(i, status[i])
    ensures log == log0 + PhaseProbeTrace(status, i + 1)
  {
  }

  /** What the phase loop's variables say once the loop has ended. */
  lemma PhaseScanExit(status: seq<int>, phase: nat, codeMin: int, codeMax: int, stop: bool)
    requires phase <= |status|
    requires PhaseScanFrom(status, phase, PhaseWindow(codeMin, codeMax, stop)) == PhaseScan(status)
    requires phase == |status| || stop
    ensures PhaseScan(status) == (PhaseWindow(codeMin, codeMax, stop), phase)
    ensures PhaseResult(status) == (if codeMin == -1 && codeMax == -1 then -EIO else 0)
    ensures PhaseTrace(status) == PhaseProbeTrace(status, phase) + ClockGated([WriteReg(VendorAtSata,
              Trunc16(if codeMin == -1 && codeMax == -1 then 0 else CDiv(codeMin + codeMax, 2)))])
  {
  }

  function PhaseTrace(status: seq<int>): seq<Event>
  {
    PhaseScanFromProbes(status, 0, PhaseStart);
    PhaseProbeTrace(status, PhaseScan(status).1) + ClockGated([WriteReg(VendorAtSata, Trunc16(PhaseCommitted(status)))])
  }

  // ---------------------------------------------------------------------
  // The whole tuning entry point as a reference function.

  /** Preparation in software-tuning mode, before the delay scan. */
  function SetupEvents(cfg: TuningConfig, regs: map<Reg, bv16>): seq<Event>
  {
    [CardClockOff,
     WriteReg(HostControl2, Get(regs, HostControl2) & !CTRL_TUNED_CLK),
     WriteReg(VendorAtCtrl, Get(regs, VendorAtCtrl) | cfg.swTuneEnable),
     WriteReg(VendorAtSata, 0),
     CardClockOn,
     WriteReg(CmdData, 0)]
  }

  function TuningTrace(cfg: TuningConfig, swTuning: bool, phaseCode: int, regs: map<Reg, bv16>,
                       delayStatus: seq<int>, phaseStatus: seq<int>): seq<Event>
    requires |delayStatus| > 0
  {
    if !swTuning then
      if phaseCode != -1 then ClockGated([WriteReg(VendorAtSata, Trunc16(phaseCode))]) else []
    else if DelayResult(delayStatus) < 0 then
      SetupEvents(cfg, regs) + DelayTrace(cfg, delayStatus)
    else
      SetupEvents(cfg, regs) + DelayTrace(cfg, delayStatus) + PhaseTrace(phaseStatus)
  }

  function TuningResult(swTuning: bool, delayStatus: seq<int>, phaseStatus: seq<int>): int
    requires |delayStatus| > 0
  {
    if !swTuning then 0
    else if DelayResult(delayStatus) < 0 then DelayResult(delayStatus)
    else if PhaseResult(phaseStatus) < 0 then PhaseResult(phaseStatus)
    else 0
  }

  // ---------------------------------------------------------------------
  // The tuning policy read at probe time.

  /**
   * `phase_code` as probe sets it: the `phase_code` device-tree property
   * (a u32) stored into an `int`, or -1 when the property is absent.
   */
  function PhaseCodeProperty(prop: Option<nat>): (code: int)
    requires prop.Some? ==> prop.value < U32_MODULUS
    ensures prop.None? ==> code == -1
    ensures prop.Some? ==> -0x8000_0000 <= code < 0x8000_0000 && (code - prop.value) % U32_MODULUS == 0
  {
    if prop.None? then -1
    else if prop.value < 0x8000_0000 then prop.value
    else prop.value - U32_MODULUS
  }

  // ---------------------------------------------------------------------
  // The window bookkeeping of the two loops, as the C writes it.

  /** The delay loop's bookkeeping after probing `code` with result `ret`. */
  method UpdateDelayWindow(code: nat, ret: int, delay0: int, min0: int, max0: int, range0: int)
    returns (delay: int, delayMin: int, delayMax: int, delayRange: int, stop: bool)
    ensures DelayWindow(delay, delayMin, delayMax, delayRange, stop)
            == DelayStep(DelayWindow(delay0, min0, max0, range0, false), code, ret)
  {
    delay, delayMin, delayMax, delayRange, stop := delay0, min0, max0, range0, false;
    if ret != 0 {
      if delayMin != -1 && delayMax != -1 {
        if delayMax - delayMin > delayRange {
          delayRange := delayMax - delayMin;
          delay := CDiv(delayMin + delayMax, 2);
          stop := delayRange > DELAY_RANGE_THRESHOLD;
        }
        if !stop {
          delayMin := -1;
          delayMax := -1;
        }
      }
    } else {
      if delayMin == -1 {
        delayMin := code;
      } else {
        delayMax := code;
      }
    }
  }

  /** The phase loop's bookkeeping after probing `code` with result `ret`. */
  method UpdatePhaseWindow(code: nat, ret: int, min0: int, max0: int)
    returns (codeMin: int, codeMax: int, stop: bool)
    ensures PhaseWindow(codeMin, codeMax, stop) == PhaseStep(PhaseWindow(min0, max0, false), code, ret)
  {
    codeMin, codeMax, stop := min0, max0, false;
    if ret != 0 {
      if codeMin != -1 && codeMax != -1 {
        stop := true;
      }
    } else {
      if codeMin == -1 {
        codeMin := code;
      } else {
        codeMax := code;
      }
    }
  }

  // ---------------------------------------------------------------------
  // The host and its tuning methods.

  class SdioHost {
    const cfg: TuningConfig
    /** "enable_sw_tuning" device-tree property present. */
    const swTuning: bool
    /** "phase_code" device-tree property, -1 when absent. */
    const phaseCode: int
    /** Register contents when the host was set up. */
    const initRegs: map<Reg, bv16>
    /** Everything done to the hardware so far, oldest first. */
    var log: seq<Event>

    constructor (cfg: TuningConfig, swTuning: bool, phaseCode: int, regs: map<Reg, bv16>)
      ensures this.cfg == cfg && this.swTuning == swTuning && this.phaseCode == phaseCode
      ensures Regs() == regs && log == []
    {
      this.cfg := cfg;
      this.swTuning := swTuning;
      this.phaseCode := phaseCode;
      this.initRegs := regs;
      this.log := [];
    }

    /** The register file: the initial contents updated by every write in the log. */
    function Regs(): map<Reg, bv16>
      reads this
    {
      ApplyTrace(initRegs, log)
    }

    /** Performs one hardware event. */
    method Emit(e: Event)
      modifies this
      ensures log == old(log) + [e]
    {
      log := log + [e];
    }

    method EmitAll(es: seq<Event>)
      modifies this
      ensures log == old(log) + es
    {
      var k := 0;
      while k < |es|
        invariant 0 <= k <= |es|
        invariant log == old(log) + es[..k]
      {
        Emit(es[k]);
        k := k + 1;
        assert es[..k] == es[..k - 1] + [es[k - 1]];
      }
      assert es[..k] == es;
    }

    /** eswin_sdhci_sdio_config_phy_delay. */
    method ConfigPhyDelay(delay: int)
      modifies this
      ensures log == old(log) + PhyDelayWrites(cfg, delay)
    {
      Emit(WriteReg(PhyDelayCnfg, cfg.updateDelayCode as bv16));
      Emit(WriteReg(PhyDelayCode, MaskDelay(cfg, delay)));
      Emit(WriteReg(PhyDelayCnfg, 0));
    }

    /** Program `delay` with the card clock gated off. */
    method SetDelay(delay: int)
      modifies this
      ensures log == old(log) + ClockGated(PhyDelayWrites(cfg, delay))
    {
      Emit(CardClockOff);
      ConfigPhyDelay(delay);
      Emit(CardClockOn);
    }

    /** Program the phase register with the card clock gated off. */
    method SetPhase(code: int)
      modifies this
      ensures log == old(log) + ClockGated([WriteReg(VendorAtSata, Trunc16(code))])
    {
      Emit(CardClockOff);
      Emit(WriteReg(VendorAtSata, Trunc16(code)));
      Emit(CardClockOn);
    }

    /** One delay-loop probe: program `code`, send the tuning command, reset the lines on failure. */
    method TryDelay(code: nat, status: seq<int>) returns (st: int)
      requires code < |status|
      modifies this
      ensures st == status[code]
      ensures log == old(log) + DelayAttempt(cfg, code, st)
    {
      SetDelay(code);
      Emit(DelayProbe(code));
      st := status[code];
      if st != 0 {
        Emit(ResetCmdData);
      }
    }

    /** One phase-loop probe. */
    method TryPhase(code: nat, status: seq<int>) returns (st: int)
      requires code < |status|
      modifies this
      ensures st == status[code]
      ensures log == old(log) + PhaseAttempt(code, st)
    {
      SetPhase(code);
      Emit(PhaseProbe(code));
      st := status[code];
      if st != 0 {
        Emit(ResetCmdData);
      }
    }

    /** eswin_sdhci_sdio_delay_tuning. */
    method DelayTuning(status: seq<int>) returns (ret: int)
      requires |status| == cfg.delayCodeMax + 1
      modifies this
      ensures ret == DelayResult(status)
      ensures log == old(log) + DelayTrace(cfg, status)
    {
      var delay;
      delay, ret := ScanDelays(status);
      ghost var probed := log;
      ret := CommitDelay(delay, ret);
      assert log == old(log) + (probed[|old(log)|..] + log[|probed|..]);
    }

    /** The loop of eswin_sdhci_sdio_delay_tuning: probe codes 0..PHY_DELAY_CODE_MAX, scoring windows. */
    method ScanDelays(status: seq<int>) returns (delay: int, ret: int)
      requires |status| == cfg.delayCodeMax + 1
      modifies this
      ensures delay == DelayScan(status).0.delay
      ensures delay == -1 ==> ret == DelayResult(status)
      ensures DelayScan(status).1 <= |status|
      ensures log == old(log) + DelayProbeTrace(cfg, status, DelayScan(status).1)
    {
      var delayMin, delayMax, delayRange := -1, -1, -1;
      delay := -1;
      var i := 0;
      var stop := false;
      ret := 0;
      while i <= cfg.delayCodeMax && !stop
        invariant 0 <= i <= |status|
        invariant DelayScanFrom(status, i, DelayWindow(delay, delayMin, delayMax, delayRange, stop)) == DelayScan(status)
        invariant log == old(log) + DelayProbeTrace(cfg, status, i)
        invariant (i > 0 ==> ret == status[i - 1]) && (stop ==> i > 0)
      {
        ret := TryDelay(i, status);
        DelayProbeTraceStep(cfg, status, i, old(log), log);
        delay, delayMin, delayMax, delayRange, stop := UpdateDelayWindow(i, ret, delay, delayMin, delayMax, delayRange);
        i := i + 1;
      }
      DelayScanExit(cfg, status, i, DelayWindow(delay, delayMin, delayMax, delayRange, stop), ret);
    }

    /** The end of the delay scan: program the scored delay, or the fallback and pass `ret` on. */
    method CommitDelay(delay: int, ret0: int) returns (ret: int)
      modifies this
      ensures ret == (if delay == -1 then ret0 else 0)
      ensures log == old(log) + ClockGated(PhyDelayWrites(cfg, if delay == -1 then cfg.fallbackDelay else delay))
    {
      if delay == -1 {
        SetDelay(cfg.fallbackDelay);
        return ret0;
      }
      SetDelay(delay);
      return 0;
    }

    /** eswin_sdhci_sdio_phase_code_tuning. */
    method PhaseCodeTuning(status: seq<int>) returns (ret: int)
      requires |status| == cfg.maxPhaseCode + 1
      modifies this
      ensures ret == PhaseResult(status)
      ensures log == old(log) + PhaseTrace(status)
    {
      var codeMin, codeMax := -1, -1;
      var phase := 0;
      var stop := false;
      while phase <= cfg.maxPhaseCode && !stop
        invariant 0 <= phase <= |status|
        invariant PhaseScanFrom(status, phase, PhaseWindow(codeMin, codeMax, stop)) == PhaseScan(status)
        invariant log == old(log) + PhaseProbeTrace(status, phase)
      {
        var st := TryPhase(phase, status);
        PhaseProbeTraceStep(status, phase, old(log), log);
        codeMin, codeMax, stop := UpdatePhaseWindow(phase, st, codeMin, codeMax);
        phase := phase + 1;
      }
      PhaseScanExit(status, phase, codeMin, codeMax, stop);
      ret := CommitPhase(codeMin, codeMax);
    }

    /** The end of the phase scan: commit the midpoint of the window, or 0 and -EIO. */
    method CommitPhase(codeMin: int, codeMax: int) returns (ret: int)
      modifies this
      ensures ret == (if codeMin == -1 && codeMax == -1 then -EIO else 0)
      ensures log == old(log) + ClockGated([WriteReg(VendorAtSata,
                      Trunc16(if codeMin == -1 && codeMax == -1 then 0 else CDiv(codeMin + codeMax, 2)))])
    {
      if codeMin == -1 && codeMax == -1 {
        SetPhase(0);
        return -EIO;
      }
      SetPhase(CDiv(codeMin + codeMax, 2));
      return 0;
    }

    /** eswin_sdhci_sdio_executing_tuning. */
    method ExecuteTuning(delayStatus: seq<int>, phaseStatus: seq<int>) returns (ret: int)
      requires |delayStatus| == cfg.delayCodeMax + 1 && |phaseStatus| == cfg.maxPhaseCode + 1
      modifies this
      ensures ret == TuningResult(swTuning, delayStatus, phaseStatus)
      ensures log == old(log) + TuningTrace(cfg, swTuning, phaseCode, old(Regs()), delayStatus, phaseStatus)
    {
      if !swTuning {
        if phaseCode != -1 {
          SetPhase(phaseCode);
        }
        return 0;
      }
      EmitAll(SetupEvents(cfg, Regs()));
      ret := DelayTuning(delayStatus);
      if ret < 0 {
        return ret;
      }
      ret := PhaseCodeTuning(phaseStatus);
      if ret < 0 {
        return ret;
      }
      return 0;
    }
  }
}

/** Properties of the SDIO tuning scans, stated on the reference functions. */
module SdioTuningProperties {
  import opened CArith
  import opened SdioTuning

  // ---------------------------------------------------------------------
  // Segments of the delay scan.

  /** Failing probes change nothing while no complete window is open. */
  lemma {:induction false} DelayFailsKeep(status: seq<int>, i: nat, j: nat, w: DelayWindow)
    requires i <= j <= |status|
    requires !w.done && !(w.lo != -1 && w.hi != -1)
    requires forall k :: i <= k < j ==> status[k] != 0
    ensures DelayScanFrom(status, i, w) == DelayScanFrom(status, j, w)
    decreases j - i
  {
    if i < j {
      assert DelayStep(w, i, status[i]) == w;
      DelayFailsKeep(status, i + 1, j, w);
    }
  }

  /** Passing probes after an opened window move its upper bound. */
  lemma {:induction false} DelayPassesExtend(status: seq<int>, i: nat, j: nat, w: DelayWindow)
    requires i < j <= |status|
    requires !w.done && w.lo != -1
    requires forall k :: i <= k < j ==> status[k] == 0
    ensures DelayScanFrom(status, i, w) == DelayScanFrom(status, j, w.(hi := j - 1))
    decreases j - i
  {
    var w' := w.(hi := i);
    assert DelayStep(w, i, status[i]) == w';
    if i + 1 < j {
      DelayPassesExtend(status, i + 1, j, w');
      assert w'.(hi := j - 1) == w.(hi := j - 1);
    }
  }

  /** A run of passing codes a..b (a < b) met with no window open becomes the window [a, b]. */
  lemma DelayRunOpens(status: seq<int>, a: nat, b: nat, w: DelayWindow)
    requires a < b < |status|
    requires !w.done && w.lo == -1 && w.hi == -1
    requires forall k :: a <= k <= b ==> status[k] == 0
    ensures DelayScanFrom(status, a, w) == DelayScanFrom(status, b + 1, w.(lo := a, hi := b))
  {
    assert DelayStep(w, a, status[a]) == w.(lo := a);
    DelayPassesExtend(status, a + 1, b + 1, w.(lo := a));
  }

  /** The scan after all codes have been considered from a state with no complete window. */
  lemma DelayFailsToEnd(status: seq<int>, i: nat, w: DelayWindow)
    requires i <= |status|
    requires w.done || !(w.lo != -1 && w.hi != -1)
    requires forall k :: i <= k < |status| ==> status[k] != 0
    ensures DelayScanFrom(status, i, w) == (w, if w.done then i else |status|)
  {
    if !w.done {
      DelayFailsKeep(status, i, |status|, w);
    }
  }

  // ---------------------------------------------------------------------
  // What the delay scan commits.

  /** A single passing window [a, b], closed by a failure, is committed at its midpoint. */
  lemma {:induction false} DelaySingleWindow(cfg: TuningConfig, status: seq<int>, a: nat, b: nat)
    requires a < b && b + 1 < |status|
    requires forall k :: 0 <= k < |status| ==> (status[k] == 0 <==> a <= k <= b)
    ensures DelayScan(status).0.delay == (a + b) / 2
    ensures DelayCommitted(cfg, status) == (a + b) / 2
    ensures DelayResult(status) == 0
  {
    DelayFailsKeep(status, 0, a, DelayStart);
    DelayRunOpens(status, a, b, DelayStart);
    var w := DelayStep(DelayStart.(lo := a, hi := b), b + 1, status[b + 1]);
    assert w.delay == (a + b) / 2;
    DelayFailsToEnd(status, b + 2, w);
  }

  /**
   * Of two windows, the second replaces the first only when strictly wider;
   * the first window must not itself end the scan early.
   */
  lemma {:induction false} DelayWiderWindowWins(status: seq<int>, a1: nat, b1: nat, a2: nat, b2: nat)
    requires a1 < b1 && b1 + 1 < a2 && a2 < b2 && b2 + 1 < |status|
    requires b1 - a1 <= DELAY_RANGE_THRESHOLD
    requires forall k :: 0 <= k < |status| ==> (status[k] == 0 <==> (a1 <= k <= b1 || a2 <= k <= b2))
    ensures DelayScan(status).0.delay == if b2 - a2 > b1 - a1 then (a2 + b2) / 2 else (a1 + b1) / 2
  {
    DelayFailsKeep(status, 0, a1, DelayStart);
    DelayRunOpens(status, a1, b1, DelayStart);
    var w1 := DelayStep(DelayStart.(lo := a1, hi := b1), b1 + 1, status[b1 + 1]);
    assert w1 == DelayWindow((a1 + b1) / 2, -1, -1, b1 - a1, false);
    DelayFailsKeep(status, b1 + 2, a2, w1);
    DelayRunOpens(status, a2, b2, w1);
    var w2 := DelayStep(w1.(lo := a2, hi := b2), b2 + 1, status[b2 + 1]);
    if b2 - a2 > b1 - a1 {
      assert w2.delay == (a2 + b2) / 2;
    } else {
      assert w2 == w1;
    }
    DelayFailsToEnd(status, b2 + 2, w2);
  }

  /**
   * The windows the delay scan from code `i` closes, in order: the
   * (delay_min, delay_max) pair of every window a failing code scores,
   * whether or not it is then kept.
   */
  function DelayClosed(status: seq<int>, i: nat, w: DelayWindow): seq<(int, int)>
    requires i <= |status|
    decreases |status| - i
  {
    if i == |status| || w.done then []
    else
      var here := if status[i] != 0 && w.lo != -1 && w.hi != -1 then [(w.lo, w.hi)] else [];
      here + DelayClosed(status, i + 1, DelayStep(w, i, status[i]))
  }

  /** The width `delay_max - delay_min` a window is scored by. */
  function Width(c: (int, int)): int
  {
    c.1 - c.0
  }

  /** The delay code a window commits: its midpoint, rounded as C division rounds. */
  function Mid(c: (int, int)): int
  {
    CDiv(c.0 + c.1, 2)
  }

  /** `cs[k]` is the first of the widest windows in `cs`. */
  ghost predicate FirstWidest(cs: seq<(int, int)>, k: int)
  {
    0 <= k < |cs|
    && (forall j :: 0 <= j < |cs| ==> Width(cs[j]) <= Width(cs[k]))
    && (forall j :: 0 <= j < k ==> Width(cs[j]) < Width(cs[k]))
  }

  /** No window in `cs` is wider than `best`. */
  ghost predicate NoneWider(cs: seq<(int, int)>, best: int)
  {
    forall j :: 0 <= j < |cs| ==> Width(cs[j]) <= best
  }

  /** Every window in `cs` has its lower bound, at least 0, below its upper bound. */
  ghost predicate BoundsOrdered(cs: seq<(int, int)>)
  {
    forall j :: 0 <= j < |cs| ==> 0 <= cs[j].0 < cs[j].1
  }

  /** The bounds of an open window lie among the codes probed so far, delay_min first. */
  ghost predicate DelayBoundsBefore(w: DelayWindow, i: nat)
  {
    (w.lo != -1 ==> 0 <= w.lo < i) && (w.hi != -1 ==> w.lo != -1 && w.lo < w.hi < i)
  }

  /**
   * One step of the scan: a code that closes a window replaces the best
   * window with it exactly when it is strictly wider; any other step keeps
   * the best window. The bounds stay among the probed codes.
   */
  lemma DelayStepScores(w: DelayWindow, i: nat, st: int)
    requires DelayBoundsBefore(w, i)
    ensures var w' := DelayStep(w, i, st);
            DelayBoundsBefore(w', i + 1)
            && (if st != 0 && w.lo != -1 && w.hi != -1 && w.hi - w.lo > w.range
                then w'.range == w.hi - w.lo && w'.delay == CDiv(w.lo + w.hi, 2)
                else w'.range == w.range && w'.delay == w.delay)
  {
  }

  /** Every window the scan closes has delay_min below delay_max. */
  lemma {:induction false} DelayClosedOrdered(status: seq<int>, i: nat, w: DelayWindow)
    requires i <= |status| && DelayBoundsBefore(w, i)
    ensures BoundsOrdered(DelayClosed(status, i, w))
    decreases |status| - i
  {
    if i < |status| && !w.done {
      var w' := DelayStep(w, i, status[i]);
      var rest := DelayClosed(status, i + 1, w');
      var cs := DelayClosed(status, i, w);
      DelayStepScores(w, i, status[i]);
      DelayClosedOrdered(status, i + 1, w');
      if status[i] != 0 && w.lo != -1 && w.hi != -1 {
        assert cs == [(w.lo, w.hi)] + rest;
        forall j | 1 <= j < |cs|
          ensures 0 <= cs[j].0 < cs[j].1
        {
          assert cs[j] == rest[j - 1];
        }
      } else {
        assert cs == rest;
      }
    }
  }

  /**
   * The best window's (range, delay) after a list of closed windows: each
   * replaces the best only when strictly wider.
   */
  function KeptWindow(cs: seq<(int, int)>, range: int, delay: int): (int, int)
    decreases |cs|
  {
    if cs == [] then (range, delay)
    else if Width(cs[0]) > range then KeptWindow(cs[1..], Width(cs[0]), Mid(cs[0]))
    else KeptWindow(cs[1..], range, delay)
  }

  /** From any point, the scan's final best window is the fold of the windows it closes. */
  lemma {:induction false} DelayScanKeeps(status: seq<int>, i: nat, w: DelayWindow)
    requires i <= |status|
    ensures var r := DelayScanFrom(status, i, w).0;
            (r.range, r.delay) == KeptWindow(DelayClosed(status, i, w), w.range, w.delay)
    decreases |status| - i
  {
    if i < |status| && !w.done {
      var w' := DelayStep(w, i, status[i]);
      var rest := DelayClosed(status, i + 1, w');
      var cs := DelayClosed(status, i, w);
      DelayScanKeeps(status, i + 1, w');
      if status[i] != 0 && w.lo != -1 && w.hi != -1 {
        assert cs == [(w.lo, w.hi)] + rest;
        assert cs[0] == (w.lo, w.hi) && cs[1..] == rest;
      } else {
        assert cs == rest;
      }
    }
  }

  /** When no window in the list is wider than the best, the best is kept. */
  lemma {:induction false} KeptNoneWider(cs: seq<(int, int)>, range: int, delay: int)
    requires NoneWider(cs, range)
    ensures KeptWindow(cs, range, delay) == (range, delay)
    decreases |cs|
  {
    if cs != [] {
      assert Width(cs[0]) <= range;
      assert NoneWider(cs[1..], range) by {
        forall j | 0 <= j < |cs| - 1
          ensures Width(cs[1..][j]) <= range
        {
          assert cs[1..][j] == cs[j + 1];
        }
      }
      KeptNoneWider(cs[1..], range, delay);
    }
  }

  /** The fold ends with the first of the widest windows when that one beats the starting best. */
  lemma {:induction false} KeptFirstWidest(cs: seq<(int, int)>, range: int, delay: int, k: int)
    requires FirstWidest(cs, k) && Width(cs[k]) > range
    ensures KeptWindow(cs, range, delay) == (Width(cs[k]), Mid(cs[k]))
    decreases |cs|
  {
    var rest := cs[1..];
    if k == 0 {
      assert NoneWider(rest, Width(cs[0])) by {
        forall j | 0 <= j < |rest|
          ensures Width(rest[j]) <= Width(cs[0])
        {
          assert rest[j] == cs[j + 1];
        }
      }
      KeptNoneWider(rest, Width(cs[0]), Mid(cs[0]));
    } else {
      assert Width(cs[0]) < Width(cs[k]) && rest[k - 1] == cs[k];
      assert FirstWidest(rest, k - 1) by {
        forall j | 0 <= j < |rest|
          ensures Width(rest[j]) <= Width(rest[k - 1])
        {
          assert rest[j] == cs[j + 1];
        }
        forall j | 0 <= j < k - 1
          ensures Width(rest[j]) < Width(rest[k - 1])
        {
          assert rest[j] == cs[j + 1];
        }
      }
      if Width(cs[0]) > range {
        KeptFirstWidest(rest, Width(cs[0]), Mid(cs[0]), k - 1);
      } else {
        KeptFirstWidest(rest, range, delay, k - 1);
      }
    }
  }

  /**
   * Over the whole delay scan, for any number of windows: the committed
   * delay is the midpoint of the first of the widest windows the scan
   * closed, and stays -1 when it closed none.
   */
  lemma DelayCommitsFirstWidest(status: seq<int>)
    ensures var cs := DelayClosed(status, 0, DelayStart);
            (cs == [] ==> DelayScan(status).0.delay == -1)
            && (forall k :: FirstWidest(cs, k) ==> DelayScan(status).0.delay == Mid(cs[k]))
  {
    DelayCommitsFrom(status, 0, DelayStart);
  }

  /** The same from any point of the scan at which no window has yet been committed. */
  lemma DelayCommitsFrom(status: seq<int>, i: nat, w: DelayWindow)
    requires i <= |status| && DelayBoundsBefore(w, i) && w.range == -1 && w.delay == -1
    ensures var cs := DelayClosed(status, i, w);
            (cs == [] ==> DelayScanFrom(status, i, w).0.delay == -1)
            && (forall k :: FirstWidest(cs, k) ==> DelayScanFrom(status, i, w).0.delay == Mid(cs[k]))
  {
    var r := DelayScanFrom(status, i, w).0;
    DelayScanKeeps(status, i, w);
    DelayClosedOrdered(status, i, w);
    KeptFromStart(DelayClosed(status, i, w), r.range, r.delay);
  }

  /** From no window at all, the fold over ordered windows commits the first widest one. */
  lemma KeptFromStart(cs: seq<(int, int)>, range: int, delay: int)
    requires BoundsOrdered(cs) && (range, delay) == KeptWindow(cs, -1, -1)
    ensures cs == [] ==> delay == -1
    ensures forall k :: FirstWidest(cs, k) ==> delay == Mid(cs[k])
  {
    forall k | FirstWidest(cs, k)
      ensures delay == Mid(cs[k])
    {
      KeptFirstWidest(cs, -1, -1, k);
    }
  }

  /** A non-empty list of windows has a first widest one. */
  lemma {:induction false} FirstWidestExists(cs: seq<(int, int)>)
    requires cs != []
    ensures exists k :: FirstWidest(cs, k)
  {
    if |cs| == 1 {
      assert FirstWidest(cs, 0);
    } else {
      var init := cs[..|cs| - 1];
      FirstWidestExists(init);
      var k :| FirstWidest(init, k);
      if Width(cs[|cs| - 1]) > Width(cs[k]) {
        assert FirstWidest(cs, |cs| - 1) by {
          forall j | 0 <= j < |cs| - 1
            ensures Width(cs[j]) < Width(cs[|cs| - 1])
          {
            assert cs[j] == init[j];
          }
        }
      } else {
        assert FirstWidest(cs, k) by {
          forall j | 0 <= j < |cs|
            ensures Width(cs[j]) <= Width(cs[k])
          {
            if j < |cs| - 1 {
              assert cs[j] == init[j];
            }
          }
          forall j | 0 <= j < k
            ensures Width(cs[j]) < Width(cs[k])
          {
            assert cs[j] == init[j];
          }
        }
      }
    }
  }

  /**
   * A first window wider than DELAY_RANGE_THRESHOLD ends the scan at the
   * failure that closes it: later codes are never probed, whatever they would return.
   */
  lemma {:induction false} DelayEarlyExit(status: seq<int>, a: nat, b: nat)
    requires a < b && b + 1 < |status| && b - a > DELAY_RANGE_THRESHOLD
    requires forall k :: 0 <= k < a ==> status[k] != 0
    requires forall k :: a <= k <= b ==> status[k] == 0
    requires status[b + 1] != 0
    ensures DelayScan(status).0.delay == (a + b) / 2
    ensures DelayScan(status).1 == b + 2
    ensures DelayResult(status) == 0
  {
    DelayFailsKeep(status, 0, a, DelayStart);
    DelayRunOpens(status, a, b, DelayStart);
    var w := DelayStep(DelayStart.(lo := a, hi := b), b + 1, status[b + 1]);
    assert w.done && w.delay == (a + b) / 2;
  }

  /** When every probe fails the fallback delay is programmed and the last failure is returned. */
  lemma {:induction false} DelayAllFail(cfg: TuningConfig, status: seq<int>)
    requires |status| > 0
    requires forall k :: 0 <= k < |status| ==> status[k] != 0
    ensures DelayScan(status) == (DelayStart, |status|)
    ensures DelayCommitted(cfg, status) == cfg.fallbackDelay
    ensures DelayResult(status) == status[|status| - 1] && DelayResult(status) != 0
  {
    DelayFailsKeep(status, 0, |status|, DelayStart);
  }

  /**
   * A window that reaches the last code is never closed by a failure, so it is
   * never scored: the fallback delay is programmed, yet the scan returns the
   * last probe's status, 0.
   */
  lemma {:induction false} DelayRunToLastCodeUnscored(cfg: TuningConfig, status: seq<int>, a: nat)
    requires a + 1 < |status|
    requires forall k :: 0 <= k < |status| ==> (status[k] == 0 <==> a <= k)
    ensures DelayScan(status).0.delay == -1
    ensures DelayCommitted(cfg, status) == cfg.fallbackDelay
    ensures DelayResult(status) == 0
  {
    DelayFailsKeep(status, 0, a, DelayStart);
    DelayRunOpens(status, a, |status| - 1, DelayStart);
  }

  /**
   * A lone passing code keeps its lower bound across failures, so a later
   * pass forms a window spanning failed codes, and its midpoint is a code that failed.
   */
  lemma {:induction false} DelayLoneCodeJoinsLaterPass(status: seq<int>, a: nat, c: nat)
    requires a + 1 < c && c + 1 < |status|
    requires forall k :: 0 <= k < |status| ==> (status[k] == 0 <==> (k == a || k == c))
    ensures DelayScan(status).0.delay == (a + c) / 2
    ensures a < (a + c) / 2 < c && status[(a + c) / 2] != 0
  {
    DelayFailsKeep(status, 0, a, DelayStart);
    var w0 := DelayStart.(lo := a);
    assert DelayStep(DelayStart, a, status[a]) == w0;
    DelayFailsKeep(status, a + 1, c, w0);
    assert DelayStep(w0, c, status[c]) == w0.(hi := c);
    var w := DelayStep(w0.(hi := c), c + 1, status[c + 1]);
    assert w.delay == (a + c) / 2;
    DelayFailsToEnd(status, c + 2, w);
  }

  // ---------------------------------------------------------------------
  // Segments of the phase scan and what it commits.

  lemma {:induction false} PhaseFailsKeep(status: seq<int>, i: nat, j: nat, w: PhaseWindow)
    requires i <= j <= |status|
    requires !w.done && !(w.lo != -1 && w.hi != -1)
    requires forall k :: i <= k < j ==> status[k] != 0
    ensures PhaseScanFrom(status, i, w) == PhaseScanFrom(status, j, w)
    decreases j - i
  {
    if i < j {
      assert PhaseStep(w, i, status[i]) == w;
      PhaseFailsKeep(status, i + 1, j, w);
    }
  }

  lemma {:induction false} PhasePassesExtend(status: seq<int>, i: nat, j: nat, w: PhaseWindow)
    requires i < j <= |status|
    requires !w.done && w.lo != -1
    requires forall k :: i <= k < j ==> status[k] == 0
    ensures PhaseScanFrom(status, i, w) == PhaseScanFrom(status, j, w.(hi := j - 1))
    decreases j - i
  {
    var w' := w.(hi := i);
    assert PhaseStep(w, i, status[i]) == w';
    if i + 1 < j {
      PhasePassesExtend(status, i + 1, j, w');
      assert w'.(hi := j - 1) == w.(hi := j - 1);
    }
  }

  /**
   * The first passing window [a, b] closed by a failure is committed at its
   * midpoint and ends the scan; nothing after the closing failure is probed.
   */
  lemma {:induction false} PhaseFirstWindowWins(status: seq<int>, a: nat, b: nat)
    requires a < b && b + 1 < |status|
    requires forall k :: 0 <= k < a ==> status[k] != 0
    requires forall k :: a <= k <= b ==> status[k] == 0
    requires status[b + 1] != 0
    ensures PhaseScan(status) == (PhaseWindow(a, b, true), b + 2)
    ensures PhaseCommitted(status) == (a + b) / 2
    ensures PhaseResult(status) == 0
  {
    PhaseFailsKeep(status, 0, a, PhaseStart);
    assert PhaseStep(PhaseStart, a, status[a]) == PhaseStart.(lo := a);
    PhasePassesExtend(status, a + 1, b + 1, PhaseStart.(lo := a));
  }

  /** With no passing phase code the register is reset to 0 and -EIO is returned. */
  lemma {:induction false} PhaseAllFail(status: seq<int>)
    requires forall k :: 0 <= k < |status| ==> status[k] != 0
    ensures PhaseScan(status) == (PhaseStart, |status|)
    ensures PhaseCommitted(status) == 0
    ensures PhaseResult(status) == -EIO
  {
    PhaseFailsKeep(status, 0, |status|, PhaseStart);
  }

  /**
   * With exactly one passing phase code k the upper bound stays -1, and C's
   * truncating `(k + -1) / 2` is committed: for k > 0 a code that failed,
   * while success is reported.
   */
  lemma {:induction false} PhaseSingleCode(status: seq<int>, k: nat)
    requires k < |status|
    requires forall j :: 0 <= j < |status| ==> (status[j] == 0 <==> j == k)
    ensures PhaseCommitted(status) == CDiv(k - 1, 2)
    ensures k == 0 ==> PhaseCommitted(status) == 0
    ensures k > 0 ==> PhaseCommitted(status) < k && status[PhaseCommitted(status)] != 0
    ensures PhaseResult(status) == 0
  {
    PhaseFailsKeep(status, 0, k, PhaseStart);
    var w := PhaseStart.(lo := k);
    assert PhaseStep(PhaseStart, k, status[k]) == w;
    PhaseFailsKeep(status, k + 1, |status|, w);
    assert PhaseScan(status) == (w, |status|);
  }

  // ---------------------------------------------------------------------
  // Shapes of the event traces.

  /** Every write of the delay-line code is armed, disarmed and made with the card clock off. */
  predicate WritesDelayCode(e: Event)
  {
    e.WriteReg? && e.reg == PhyDelayCode
  }

  ghost predicate DelayWritesBracketed(cfg: TuningConfig, t: seq<Event>)
  {
    forall k {:trigger WritesDelayCode(t[k])} :: 0 <= k < |t| && WritesDelayCode(t[k]) ==>
      2 <= k < |t| - 2 && t[k - 2] == CardClockOff
      && t[k - 1] == WriteReg(PhyDelayCnfg, cfg.updateDelayCode as bv16)
      && t[k + 1] == WriteReg(PhyDelayCnfg, 0) && t[k + 2] == CardClockOn
  }

  lemma BracketedConcat(cfg: TuningConfig, a: seq<Event>, b: seq<Event>)
    requires DelayWritesBracketed(cfg, a) && DelayWritesBracketed(cfg, b)
    ensures DelayWritesBracketed(cfg, a + b)
  {
    var t := a + b;
    forall k | 0 <= k < |t| && WritesDelayCode(t[k])
      ensures 2 <= k < |t| - 2 && t[k - 2] == CardClockOff
        && t[k - 1] == WriteReg(PhyDelayCnfg, cfg.updateDelayCode as bv16)
        && t[k + 1] == WriteReg(PhyDelayCnfg, 0) && t[k + 2] == CardClockOn
    {
      if k < |a| {
        assert a[k] == t[k];
      } else {
        assert b[k - |a|] == t[k];
      }
    }
  }

  lemma GatedDelayBracketed(cfg: TuningConfig, delay: int, rest: seq<Event>)
    requires forall k :: 0 <= k < |rest| ==> !rest[k].WriteReg?
    ensures DelayWritesBracketed(cfg, ClockGated(PhyDelayWrites(cfg, delay)) + rest)
  {
    var t := ClockGated(PhyDelayWrites(cfg, delay)) + rest;
    assert t[0] == CardClockOff && t[1] == WriteReg(PhyDelayCnfg, cfg.updateDelayCode as bv16);
    assert t[2] == WriteReg(PhyDelayCode, MaskDelay(cfg, delay)) && t[3] == WriteReg(PhyDelayCnfg, 0);
    assert t[4] == CardClockOn;
    assert forall k :: 5 <= k < |t| ==> t[k] == rest[k - 5];
  }

  lemma DelayAttemptBracketed(cfg: TuningConfig, code: nat, st: int)
    ensures DelayWritesBracketed(cfg, DelayAttempt(cfg, code, st))
  {
    var rest: seq<Event> := [DelayProbe(code)] + (if st != 0 then [ResetCmdData] else []);
    GatedDelayBracketed(cfg, code, rest);
    assert DelayAttempt(cfg, code, st) == ClockGated(PhyDelayWrites(cfg, code)) + rest;
  }

  lemma {:induction false} DelayProbeTraceBracketed(cfg: TuningConfig, status: seq<int>, n: nat)
    requires n <= |status|
    ensures DelayWritesBracketed(cfg, DelayProbeTrace(cfg, status, n))
  {
    if n > 0 {
      DelayProbeTraceBracketed(cfg, status, n - 1);
      DelayAttemptBracketed(cfg, n - 1, status[n - 1]);
      BracketedConcat(cfg, DelayProbeTrace(cfg, status, n - 1), DelayAttempt(cfg, n - 1, status[n - 1]));
    }
  }

  /** The delay scan never writes the delay line without the arm/disarm writes and the clock gate. */
  lemma DelayTraceBracketed(cfg: TuningConfig, status: seq<int>)
    ensures DelayWritesBracketed(cfg, DelayTrace(cfg, status))
  {
    DelayScanFromProbes(status, 0, DelayStart);
    DelayProbeTraceBracketed(cfg, status, DelayScan(status).1);
    GatedDelayBracketed(cfg, DelayCommitted(cfg, status), []);
    assert ClockGated(PhyDelayWrites(cfg, DelayCommitted(cfg, status))) + [] == ClockGated(PhyDelayWrites(cfg, DelayCommitted(cfg, status)));
    BracketedConcat(cfg, DelayProbeTrace(cfg, status, DelayScan(status).1),
                    ClockGated(PhyDelayWrites(cfg, DelayCommitted(cfg, status))));
  }

  /** The codes the delay probes were made at, in order. */
  function ProbedDelays(t: seq<Event>): seq<nat>
    decreases |t|
  {
    if t == [] then []
    else ProbedDelays(t[..|t| - 1]) + (if t[|t| - 1].DelayProbe? then [t[|t| - 1].code] else [])
  }

  function ProbedPhases(t: seq<Event>): seq<nat>
    decreases |t|
  {
    if t == [] then []
    else ProbedPhases(t[..|t| - 1]) + (if t[|t| - 1].PhaseProbe? then [t[|t| - 1].code] else [])
  }

  lemma {:induction false} ProbedConcat(a: seq<Event>, b: seq<Event>)
    ensures ProbedDelays(a + b) == ProbedDelays(a) + ProbedDelays(b)
    ensures ProbedPhases(a + b) == ProbedPhases(a) + ProbedPhases(b)
    decreases |b|
  {
    if b == [] {
      assert a + b == a;
    } else {
      assert (a + b)[..|a + b| - 1] == a + b[..|b| - 1];
      ProbedConcat(a, b[..|b| - 1]);
    }
  }

  /** 0, 1, ..., n - 1. */
  function Iota(n: nat): (r: seq<nat>)
    ensures |r| == n && forall k :: 0 <= k < n ==> r[k] == k
  {
    if n == 0 then [] else Iota(n - 1) + [n - 1]
  }

  /** A trace without probes contributes no probed code. */
  lemma {:induction false} NoProbes(t: seq<Event>)
    requires forall k :: 0 <= k < |t| ==> !t[k].DelayProbe? && !t[k].PhaseProbe?
    ensures ProbedDelays(t) == [] && ProbedPhases(t) == []
    decreases |t|
  {
    if t != [] {
      NoProbes(t[..|t| - 1]);
    }
  }

  lemma ProbedOne(e: Event)
    ensures ProbedDelays([e]) == (if e.DelayProbe? then [e.code] else [])
    ensures ProbedPhases([e]) == (if e.PhaseProbe? then [e.code] else [])
  {
    assert [e][..0] == [];
  }

  lemma NoProbesGated(ws: seq<Event>)
    requires forall k :: 0 <= k < |ws| ==> ws[k].WriteReg?
    ensures ProbedDelays(ClockGated(ws)) == [] && ProbedPhases(ClockGated(ws)) == []
  {
    var g := ClockGated(ws);
    assert forall k :: 1 <= k <= |ws| ==> g[k] == ws[k - 1];
    assert g[0] == CardClockOff && g[|g| - 1] == CardClockOn;
    NoProbes(g);
  }

  /** The probes of an attempt: its gated writes, its probe, and the optional reset. */
  lemma ProbedAttempt(gated: seq<Event>, probe: Event, st: int)
    requires ProbedDelays(gated) == [] && ProbedPhases(gated) == []
    ensures ProbedDelays(gated + [probe] + (if st != 0 then [ResetCmdData] else []))
            == (if probe.DelayProbe? then [probe.code] else [])
    ensures ProbedPhases(gated + [probe] + (if st != 0 then [ResetCmdData] else []))
            == (if probe.PhaseProbe? then [probe.code] else [])
  {
    var tail: seq<Event> := if st != 0 then [ResetCmdData] else [];
    ProbedOne(ResetCmdData);
    ProbedOne(probe);
    ProbedConcat(gated, [probe]);
    ProbedConcat(gated + [probe], tail);
  }

  lemma ProbedAttempts(cfg: TuningConfig, code: nat, st: int)
    ensures ProbedDelays(DelayAttempt(cfg, code, st)) == [code]
    ensures ProbedPhases(DelayAttempt(cfg, code, st)) == []
    ensures ProbedDelays(PhaseAttempt(code, st)) == []
    ensures ProbedPhases(PhaseAttempt(code, st)) == [code]
  {
    NoProbesGated(PhyDelayWrites(cfg, code));
    ProbedAttempt(ClockGated(PhyDelayWrites(cfg, code)), DelayProbe(code), st);
    NoProbesGated([WriteReg(VendorAtSata, Trunc16(code))]);
    ProbedAttempt(ClockGated([WriteReg(VendorAtSata, Trunc16(code))]), PhaseProbe(code), st);
  }

  lemma {:induction false} DelayProbeTraceOrder(cfg: TuningConfig, status: seq<int>, n: nat)
    requires n <= |status|
    ensures ProbedDelays(DelayProbeTrace(cfg, status, n)) == Iota(n)
    ensures ProbedPhases(DelayProbeTrace(cfg, status, n)) == []
  {
    if n > 0 {
      DelayProbeTraceOrder(cfg, status, n - 1);
      ProbedConcat(DelayProbeTrace(cfg, status, n - 1), DelayAttempt(cfg, n - 1, status[n - 1]));
      ProbedAttempts(cfg, n - 1, status[n - 1]);
    }
  }

  lemma {:induction false} PhaseProbeTraceOrder(status: seq<int>, n: nat)
    requires n <= |status|
    ensures ProbedPhases(PhaseProbeTrace(status, n)) == Iota(n)
    ensures ProbedDelays(PhaseProbeTrace(status, n)) == []
  {
    if n > 0 {
      PhaseProbeTraceOrder(status, n - 1);
      ProbedConcat(PhaseProbeTrace(status, n - 1), PhaseAttempt(n - 1, status[n - 1]));
      ProbedAttempts(TuningConfig(0, 0, 0, 0, 0, 0), n - 1, status[n - 1]);
    }
  }

  /**
   * The delay scan probes codes 0, 1, 2, ... in increasing order, each once,
   * never beyond PHY_DELAY_CODE_MAX, and makes no phase probe.
   */
  lemma DelayProbeOrder(cfg: TuningConfig, status: seq<int>)
    ensures DelayScan(status).1 <= |status|
    ensures ProbedDelays(DelayTrace(cfg, status)) == Iota(DelayScan(status).1)
    ensures ProbedPhases(DelayTrace(cfg, status)) == []
  {
    DelayScanFromProbes(status, 0, DelayStart);
    var n := DelayScan(status).1;
    DelayProbeTraceOrder(cfg, status, n);
    NoProbesGated(PhyDelayWrites(cfg, DelayCommitted(cfg, status)));
    ProbedConcat(DelayProbeTrace(cfg, status, n), ClockGated(PhyDelayWrites(cfg, DelayCommitted(cfg, status))));
  }

  /** The phase scan probes phase codes 0, 1, 2, ... in increasing order, each once, and no delay code. */
  lemma PhaseProbeOrder(status: seq<int>)
    ensures PhaseScan(status).1 <= |status|
    ensures ProbedPhases(PhaseTrace(status)) == Iota(PhaseScan(status).1)
    ensures ProbedDelays(PhaseTrace(status)) == []
  {
    PhaseScanFromProbes(status, 0, PhaseStart);
    var n := PhaseScan(status).1;
    PhaseProbeTraceOrder(status, n);
    var commit := [WriteReg(VendorAtSata, Trunc16(PhaseCommitted(status)))];
    NoProbesGated(commit);
    ProbedConcat(PhaseProbeTrace(status, n), ClockGated(commit));
  }

  // ---------------------------------------------------------------------
  // Register contents after tuning.

  ghost predicate NoWriteTo(t: seq<Event>, r: Reg)
  {
    forall k :: 0 <= k < |t| ==> !(t[k].WriteReg? && t[k].reg == r)
  }

  lemma {:induction false} PhaseProbeTraceNoDelayWrite(status: seq<int>, n: nat)
    requires n <= |status|
    ensures NoWriteTo(PhaseProbeTrace(status, n), PhyDelayCode)
  {
    if n > 0 {
      PhaseProbeTraceNoDelayWrite(status, n - 1);
      var a := PhaseProbeTrace(status, n - 1);
      var b := PhaseAttempt(n - 1, status[n - 1]);
      var t: seq<Event> := a + b;
      forall k | 0 <= k < |t|
        ensures !(t[k].WriteReg? && t[k].reg == PhyDelayCode)
      {
        if k >= |a| {
          assert t[k] == b[k - |a|];
        }
      }
    }
  }

  /** After the delay scan the delay line holds the committed code (masked) and is disarmed. */
  lemma DelayTraceCommits(cfg: TuningConfig, regs: map<Reg, bv16>, status: seq<int>)
    ensures Get(ApplyTrace(regs, DelayTrace(cfg, status)), PhyDelayCode) == MaskDelay(cfg, DelayCommitted(cfg, status))
    ensures Get(ApplyTrace(regs, DelayTrace(cfg, status)), PhyDelayCnfg) == 0
  {
    DelayScanFromProbes(status, 0, DelayStart);
    var p := DelayProbeTrace(cfg, status, DelayScan(status).1);
    var t := DelayTrace(cfg, status);
    assert t == p + ClockGated(PhyDelayWrites(cfg, DelayCommitted(cfg, status)));
    ApplyTraceLastWrite(regs, t, |p| + 2, PhyDelayCode);
    ApplyTraceLastWrite(regs, t, |p| + 3, PhyDelayCnfg);
  }

  /** After the phase scan the phase register holds the committed phase code. */
  lemma PhaseTraceCommits(regs: map<Reg, bv16>, status: seq<int>)
    ensures Get(ApplyTrace(regs, PhaseTrace(status)), VendorAtSata) == Trunc16(PhaseCommitted(status))
  {
    PhaseScanFromProbes(status, 0, PhaseStart);
    var p := PhaseProbeTrace(status, PhaseScan(status).1);
    var t := PhaseTrace(status);
    ApplyTraceLastWrite(regs, t, |p| + 1, VendorAtSata);
  }

  // ---------------------------------------------------------------------
  // The tuning entry point.

  /**
   * A negative status from the delay scan is returned as is and no phase code
   * is probed or written.
   */
  lemma DelayFailureSkipsPhase(cfg: TuningConfig, phaseCode: int, regs: map<Reg, bv16>,
                               delayStatus: seq<int>, phaseStatus: seq<int>)
    requires |delayStatus| > 0 && DelayResult(delayStatus) < 0
    ensures TuningResult(true, delayStatus, phaseStatus) == DelayResult(delayStatus)
    ensures ProbedPhases(TuningTrace(cfg, true, phaseCode, regs, delayStatus, phaseStatus)) == []
    ensures NoWriteTo(TuningTrace(cfg, true, phaseCode, regs, delayStatus, phaseStatus)[6..], VendorAtSata)
  {
    var s := SetupEvents(cfg, regs);
    var d := DelayTrace(cfg, delayStatus);
    ProbedConcat(s, d);
    NoProbes(s);
    DelayProbeOrder(cfg, delayStatus);
    DelayTraceNoPhaseWrite(cfg, delayStatus);
    assert (s + d)[6..] == d;
  }

  lemma DelayTraceNoPhaseWrite(cfg: TuningConfig, status: seq<int>)
    ensures NoWriteTo(DelayTrace(cfg, status), VendorAtSata)
  {
    DelayScanFromProbes(status, 0, DelayStart);
    DelayProbeTraceNoPhaseWrite(cfg, status, DelayScan(status).1);
  }

  lemma {:induction false} DelayProbeTraceNoPhaseWrite(cfg: TuningConfig, status: seq<int>, n: nat)
    requires n <= |status|
    ensures NoWriteTo(DelayProbeTrace(cfg, status, n), VendorAtSata)
  {
    if n > 0 {
      DelayProbeTraceNoPhaseWrite(cfg, status, n - 1);
      var a := DelayProbeTrace(cfg, status, n - 1);
      var b := DelayAttempt(cfg, n - 1, status[n - 1]);
      var t: seq<Event> := a + b;
      forall k | 0 <= k < |t|
        ensures !(t[k].WriteReg? && t[k].reg == VendorAtSata)
      {
        if k >= |a| {
          assert t[k] == b[k - |a|];
        }
      }
    }
  }

  /**
   * A delay scan that found no window but whose last probe passed returns 0,
   * so the phase scan still runs.
   */
  lemma DelayFallbackStillRunsPhase(cfg: TuningConfig, phaseCode: int, regs: map<Reg, bv16>,
                                    delayStatus: seq<int>, phaseStatus: seq<int>, a: nat)
    requires a + 1 < |delayStatus|
    requires forall k :: 0 <= k < |delayStatus| ==> (delayStatus[k] == 0 <==> a <= k)
    ensures DelayCommitted(cfg, delayStatus) == cfg.fallbackDelay
    ensures TuningTrace(cfg, true, phaseCode, regs, delayStatus, phaseStatus)
            == SetupEvents(cfg, regs) + DelayTrace(cfg, delayStatus) + PhaseTrace(phaseStatus)
    ensures TuningResult(true, delayStatus, phaseStatus) == PhaseResult(phaseStatus)
  {
    DelayRunToLastCodeUnscored(cfg, delayStatus, a);
  }

  /**
   * Without software tuning a configured phase code is written once, clock-gated,
   * with no probe; without one nothing is done.  Either way the result is 0.
   */
  lemma StaticPhase(cfg: TuningConfig, phaseCode: int, regs: map<Reg, bv16>,
                    delayStatus: seq<int>, phaseStatus: seq<int>)
    requires |delayStatus| > 0
    ensures TuningResult(false, delayStatus, phaseStatus) == 0
    ensures phaseCode != -1 ==>
      TuningTrace(cfg, false, phaseCode, regs, delayStatus, phaseStatus)
        == [CardClockOff, WriteReg(VendorAtSata, Trunc16(phaseCode)), CardClockOn]
      && Get(ApplyTrace(regs, TuningTrace(cfg, false, phaseCode, regs, delayStatus, phaseStatus)), VendorAtSata)
        == Trunc16(phaseCode)
    ensures phaseCode == -1 ==> TuningTrace(cfg, false, phaseCode, regs, delayStatus, phaseStatus) == []
    ensures ProbedDelays(TuningTrace(cfg, false, phaseCode, regs, delayStatus, phaseStatus)) == []
    ensures ProbedPhases(TuningTrace(cfg, false, phaseCode, regs, delayStatus, phaseStatus)) == []
  {
    var t := TuningTrace(cfg, false, phaseCode, regs, delayStatus, phaseStatus);
    NoProbes(t);
    if phaseCode != -1 {
      ApplyTraceLastWrite(regs, t, 1, VendorAtSata);
    }
  }

  /**
   * The static phase code is skipped exactly when the property is absent or
   * holds 0xFFFFFFFF, which the `int` conversion turns into -1 as well.
   */
  lemma PhaseCodeAbsent(prop: Option<nat>)
    requires prop.Some? ==> prop.value < U32_MODULUS
    ensures PhaseCodeProperty(prop) == -1 <==> prop.None? || prop.value == 0xFFFF_FFFF
    ensures prop.Some? && prop.value < 0x8000_0000 ==> PhaseCodeProperty(prop) == prop.value
  {
  }

  /** Without software tuning and without the property, tuning does nothing and succeeds. */
  lemma StaticWithoutProperty(cfg: TuningConfig, regs: map<Reg, bv16>, delayStatus: seq<int>, phaseStatus: seq<int>)
    requires |delayStatus| > 0
    ensures TuningTrace(cfg, false, PhaseCodeProperty(None), regs, delayStatus, phaseStatus) == []
    ensures TuningResult(false, delayStatus, phaseStatus) == 0
  {
  }

  /**
   * Successful software tuning leaves the committed delay code in the delay
   * line and the committed phase code in the phase register.
   */
  lemma TuningCommitsBoth(cfg: TuningConfig, phaseCode: int, regs: map<Reg, bv16>,
                          delayStatus: seq<int>, phaseStatus: seq<int>)
    requires |delayStatus| > 0 && TuningResult(true, delayStatus, phaseStatus) == 0
    ensures var after := ApplyTrace(regs, TuningTrace(cfg, true, phaseCode, regs, delayStatus, phaseStatus));
      Get(after, PhyDelayCode) == MaskDelay(cfg, DelayCommitted(cfg, delayStatus))
      && Get(after, VendorAtSata) == Trunc16(PhaseCommitted(phaseStatus))
  {
    var s := SetupEvents(cfg, regs);
    var d := DelayTrace(cfg, delayStatus);
    var p := PhaseTrace(phaseStatus);
    assert TuningTrace(cfg, true, phaseCode, regs, delayStatus, phaseStatus) == (s + d) + p;
    ApplyTraceAppend(regs, s + d, p);
    PhaseTraceCommits(ApplyTrace(regs, s + d), phaseStatus);
    ApplyTraceAppend(regs, s, d);
    DelayTraceCommits(cfg, ApplyTrace(regs, s), delayStatus);
    PhaseScanFromProbes(phaseStatus, 0, PhaseStart);
    PhaseProbeTraceNoDelayWrite(phaseStatus, PhaseScan(phaseStatus).1);
    PhaseTraceKeeps(ApplyTrace(regs, s + d), phaseStatus);
  }

  /** The phase scan leaves the delay line alone. */
  lemma PhaseTraceKeeps(regs: map<Reg, bv16>, status: seq<int>)
    ensures Get(ApplyTrace(regs, PhaseTrace(status)), PhyDelayCode) == Get(regs, PhyDelayCode)
  {
    PhaseScanFromProbes(status, 0, PhaseStart);
    PhaseProbeTraceNoDelayWrite(status, PhaseScan(status).1);
    KeepsUnwritten(regs, PhaseTrace(status), PhyDelayCode);
  }

  lemma {:induction false} KeepsUnwritten(regs: map<Reg, bv16>, t: seq<Event>, r: Reg)
    requires NoWriteTo(t, r)
    ensures Get(ApplyTrace(regs, t), r) == Get(regs, r)
    decreases |t|
  {
    if t != [] {
      KeepsUnwritten(regs, t[..|t| - 1], r);
    }
  }
}
