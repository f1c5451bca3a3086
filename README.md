# ESWIN EIC7700 driver core, modelled in Dafny

This project models the decision logic of twelve Linux drivers for the ESWIN
EIC7700 SoC and proves what each of them promises. Each driver file is one
Dafny module, and the model keeps the driver's own form:

| file | module | driver |
|---|---|---|
| `sdio_tuning.dfy` | `SdioTuning`, `SdioTuningProperties` | software tuning of the SDIO host: the PHY delay-code scan, the phase-code scan and the tuning entry point |
| `sdhci_clock.dfy` | `SdhciClock` | shared SDHCI core-clock divisor, core-clock and card-clock register updates, device-tree clock phases, drive impedance |
| `tbu_power.dfy` | `TbuPower` | TBU power reference counting, the Q-channel handshake and SID register packing of the IOMMU glue |
| `reset_ctrl.dfy` | `ResetCtrl` | the reset controller: active-low reset bits and the id-table translation |
| `pwm.dfy` | `Pwm` | PWM count arithmetic, register writes and read-back |
| `pcie.dfy` | `Pcie` | PCIe link-up test, LTSSM start and the capability-field encodings of host init |
| `fusb303b.dfy` | `Fusb303b` | the FUSB303B Type-C controller: debug-log ring buffer, masked I2C writes, IRQ decoding, toggling |
| `hdcp.dfy` | `Hdcp` | the DesignWare HDMI HDCP 1.x glue: masked register update, key loading, start/stop, interrupt handling, sysfs controls |
| `i2s.dfy` | `I2s` | the I2S DAI: hardware parameters, divider and MCLK selection, format, trigger and open |
| `rtc.dfy` | `Rtc` | the RTC: alarm enable and CCR bits, alarm set/read, interrupt, probe register writes, suspend/resume wake |
| `es_fb.dfy` | `EsFb` | DRM framebuffer creation with GEM reference release on error, plane lookup, mode-config limits |
| `es_drv.dfy` | `EsDrv` | DRM pitch alignment, IOMMU attach/detach bookkeeping, the device-tree port walk |
| `c_arith.dfy` | `CArith` | C arithmetic shared by the modules: truncating division, 32- and 64-bit wrap-around, error numbers |

Conventions used throughout:

- Registers are bit-vectors (`bv8`, `bv16`, `bv32`) or maps from register to
  value. A read-modify-write is written out as the mask arithmetic the driver
  performs.
- State the driver keeps across calls is a `class` whose methods say in their
  `ensures` what the new state is. Where the order of register writes
  matters, the class also keeps the ordered list of writes it issued (`log`
  or `writes`), so a contract can state the order as well as the final
  register values.
- Loops in the driver are `while` loops in the model. Each is proved against a
  reference function of its inputs, and the driver's promises are lemmas
  about that function.
- Hardware answers, such as a tuning probe's status, a polled register value
  or a failing framework call, are parameters. A busy-wait is reduced to
  its outcome, which is an input.
- Kernel error codes are the negated Linux numbers in `CArith`.
- Where the driver's own code is wrong, the model keeps a member that does
  what the code does, proves the wrong behaviour on a concrete input, and
  uses a corrected member everywhere else (see "## Findings").

## Model

| member | source | states |
|---|---|---|
| CArith.CDivTruncates | drivers/mmc/host/sdhci-of-eswin-sdio.c:274 | C division truncates toward zero: the remainder has the sign of the dividend, and `(-1)/2` is 0 |
| CArith.U32 | drivers/gpu/drm/eswin/es_fb.c:80-84 | reduction modulo 2^32 gives the unique value below 2^32 congruent to its input, as C `u32` arithmetic does |
| CArith.U64 | drivers/rtc/rtc-eswin.c:110-124 | reduction modulo 2^64 gives the unique value below 2^64 congruent to its input, as a C `u64` does |
| SdioTuning.ApplyTraceLastWrite | drivers/mmc/host/sdhci-of-eswin-sdio.c:86-95 | after a sequence of register writes, a register holds the value of the last write to it |
| SdioTuning.DelayScanExit | drivers/mmc/host/sdhci-of-eswin-sdio.c:188-232 | when the delay loop ends, by a `break` or by running out of codes, the scan result, the return value (the last probe's status if no window was scored, else 0) and the write trace are those of the reference scan |
| SdioTuning.PhaseScanExit | drivers/mmc/host/sdhci-of-eswin-sdio.c:244-281 | when the phase loop ends, the return value is -EIO exactly when no code passed, and the trace ends with the committed phase write gated by the card clock |
| SdioTuning.PhaseCodeProperty | drivers/mmc/host/sdhci-of-eswin-sdio.c:969-973 | a missing `phase_code` property gives -1; a present one is read as the 32-bit signed value of the `u32` |
| SdioTuning.UpdateDelayWindow | drivers/mmc/host/sdhci-of-eswin-sdio.c:193-212 | one iteration of the delay loop's window bookkeeping, written with the C's branches, equals one step of the reference scan |
| SdioTuning.UpdatePhaseWindow | drivers/mmc/host/sdhci-of-eswin-sdio.c:250-263 | one iteration of the phase loop's bookkeeping equals one step of the reference scan |
| SdioTuning.SdioHost.constructor | drivers/mmc/host/sdhci-of-eswin-sdio.c:964-973 | a host starts with the given tuning policy and register file and an empty trace |
| SdioTuning.SdioHost.ConfigPhyDelay | drivers/mmc/host/sdhci-of-eswin-sdio.c:86-95 | a delay write is three writes: arm the update, write the masked delay, clear the config register |
| SdioTuning.SdioHost.SetDelay | drivers/mmc/host/sdhci-of-eswin-sdio.c:189-191 | a delay write is bracketed by card-clock disable and enable |
| SdioTuning.SdioHost.SetPhase | drivers/mmc/host/sdhci-of-eswin-sdio.c:245-247 | a phase write is the 16-bit phase code written to `VENDOR_AT_SATA_R`, bracketed by card-clock disable and enable |
| SdioTuning.SdioHost.TryDelay | drivers/mmc/host/sdhci-of-eswin-sdio.c:189-195 | one delay attempt writes the delay, probes that code once and resets CMD/DATA only on failure; it returns the probe's status |
| SdioTuning.SdioHost.TryPhase | drivers/mmc/host/sdhci-of-eswin-sdio.c:245-252 | one phase attempt writes the phase code, probes once and resets CMD/DATA only on failure |
| SdioTuning.SdioHost.ScanDelays | drivers/mmc/host/sdhci-of-eswin-sdio.c:188-215 | the delay loop probes codes in increasing order up to the reference scan's exit point and finds the reference scan's candidate delay |
| SdioTuning.SdioHost.CommitDelay | drivers/mmc/host/sdhci-of-eswin-sdio.c:216-232 | without a candidate the static `delay_code` is written back and the last status returned; otherwise the candidate is written and 0 returned |
| SdioTuning.SdioHost.DelayTuning | drivers/mmc/host/sdhci-of-eswin-sdio.c:174-233 | the delay tuning returns the reference result and issues exactly the reference write-and-probe trace |
| SdioTuning.SdioHost.CommitPhase | drivers/mmc/host/sdhci-of-eswin-sdio.c:265-281 | with no passing code it writes 0 and returns -EIO; otherwise it writes `(code_min + code_max) / 2` with C truncation and returns 0 |
| SdioTuning.SdioHost.PhaseCodeTuning | drivers/mmc/host/sdhci-of-eswin-sdio.c:235-282 | the phase tuning returns the reference result and issues exactly the reference trace |
| SdioTuning.SdioHost.ExecuteTuning | drivers/mmc/host/sdhci-of-eswin-sdio.c:284-333 | the tuning entry point returns the reference result and issues the reference trace: the static phase write when software tuning is off, else setup, delay scan and, unless it failed, the phase scan |
| SdioTuningProperties.DelayFailsKeep | drivers/mmc/host/sdhci-of-eswin-sdio.c:193-205 | failing codes while no full window is open leave the scan state unchanged, so a lone passing code keeps `delay_min` |
| SdioTuningProperties.DelayPassesExtend | drivers/mmc/host/sdhci-of-eswin-sdio.c:206-212 | a run of passing codes after `delay_min` is set moves `delay_max` to the last of them |
| SdioTuningProperties.DelayRunOpens | drivers/mmc/host/sdhci-of-eswin-sdio.c:206-212 | a run of two or more passing codes from a cleared window opens the window `[first, last]` |
| SdioTuningProperties.DelayFailsToEnd | drivers/mmc/host/sdhci-of-eswin-sdio.c:188-215 | if every remaining code fails and no full window is open, the scan ends unchanged at the last code |
| SdioTuningProperties.DelaySingleWindow | drivers/mmc/host/sdhci-of-eswin-sdio.c:193-232 | one passing run `[a, b]` closed by a failure commits the midpoint `(a + b) / 2` and returns 0 |
| SdioTuningProperties.DelayWiderWindowWins | drivers/mmc/host/sdhci-of-eswin-sdio.c:196-199 | of two scored windows the later replaces the earlier only if strictly wider |
| SdioTuningProperties.DelayScanKeeps | drivers/mmc/host/sdhci-of-eswin-sdio.c:193-215 | the best window the scan ends with is the one kept from the windows it closes, in order, each replacing the best only when strictly wider |
| SdioTuningProperties.KeptNoneWider | drivers/mmc/host/sdhci-of-eswin-sdio.c:196-199 | windows none wider than the best leave the best as it was |
| SdioTuningProperties.KeptFirstWidest | drivers/mmc/host/sdhci-of-eswin-sdio.c:196-199 | of any number of windows, the first of the widest is the one kept, with its midpoint |
| SdioTuningProperties.DelayStepScores | drivers/mmc/host/sdhci-of-eswin-sdio.c:193-212 | one step replaces the best window exactly when the code fails, a full window is open and it is strictly wider; the open bounds stay among the probed codes |
| SdioTuningProperties.DelayClosedOrdered | drivers/mmc/host/sdhci-of-eswin-sdio.c:193-212 | every window the scan closes has `0 <= delay_min < delay_max` |
| SdioTuningProperties.DelayCommitsFirstWidest | drivers/mmc/host/sdhci-of-eswin-sdio.c:188-232 | with no closed window no midpoint is chosen; otherwise the scan chooses the midpoint of the first of the widest windows it closed |
| SdioTuningProperties.FirstWidestExists | drivers/mmc/host/sdhci-of-eswin-sdio.c:196-199 | any non-empty list of windows has a first widest one, so the choice above is always defined |
| SdioTuningProperties.DelayEarlyExit | drivers/mmc/host/sdhci-of-eswin-sdio.c:200-201 | a window wider than 20 codes stops the scan right after the failure that closes it (with line 46) |
| SdioTuningProperties.DelayAllFail | drivers/mmc/host/sdhci-of-eswin-sdio.c:214-224 | if every code fails, the whole range is probed, the static `delay_code` is committed and the (non-zero) last status returned |
| SdioTuningProperties.DelayRunToLastCodeUnscored | drivers/mmc/host/sdhci-of-eswin-sdio.c:193-224 | a passing run that reaches the last code is never scored: the static delay is committed and the last status, 0, is returned as success |
| SdioTuningProperties.DelayLoneCodeJoinsLaterPass | drivers/mmc/host/sdhci-of-eswin-sdio.c:196-212 | a lone passing code keeps `delay_min`, so a later pass forms a window spanning failed codes and its midpoint can be a code that failed |
| SdioTuningProperties.PhaseFailsKeep | drivers/mmc/host/sdhci-of-eswin-sdio.c:250-254 | phase failures before both bounds are set change nothing, and the bounds are never cleared |
| SdioTuningProperties.PhasePassesExtend | drivers/mmc/host/sdhci-of-eswin-sdio.c:255-262 | passing phase codes after `code_min` is set move `code_max` to the last of them |
| SdioTuningProperties.PhaseFirstWindowWins | drivers/mmc/host/sdhci-of-eswin-sdio.c:244-281 | the phase scan stops at the first failure after a window with both ends and commits its midpoint |
| SdioTuningProperties.PhaseAllFail | drivers/mmc/host/sdhci-of-eswin-sdio.c:265-272 | if every phase code fails, 0 is written and -EIO returned |
| SdioTuningProperties.PhaseSingleCode | drivers/mmc/host/sdhci-of-eswin-sdio.c:274-281 | with one passing code k the committed phase is `(k - 1) / 2` truncated, because `code_max` is still -1; for k > 0 that is a failed code |
| SdioTuningProperties.DelayTraceBracketed | drivers/mmc/host/sdhci-of-eswin-sdio.c:189-230 | in the delay trace every write of the delay code is preceded by card-clock off and followed by card-clock on |
| SdioTuningProperties.DelayProbeOrder | drivers/mmc/host/sdhci-of-eswin-sdio.c:188-192 | the delay scan probes codes 0, 1, 2, ... in order, no more than `PHY_DELAY_CODE_MAX + 1` of them, and no phase code |
| SdioTuningProperties.PhaseProbeOrder | drivers/mmc/host/sdhci-of-eswin-sdio.c:244-249 | the phase scan probes phase codes 0, 1, 2, ... in order and no delay code |
| SdioTuningProperties.DelayTraceCommits | drivers/mmc/host/sdhci-of-eswin-sdio.c:216-232 | after the delay tuning the delay register holds the masked committed delay and the config register is 0 (with lines 86-95) |
| SdioTuningProperties.PhaseTraceCommits | drivers/mmc/host/sdhci-of-eswin-sdio.c:265-281 | after the phase tuning the phase register holds the committed phase code |
| SdioTuningProperties.PhaseTraceKeeps | drivers/mmc/host/sdhci-of-eswin-sdio.c:235-282 | the phase tuning never changes the delay register |
| SdioTuningProperties.DelayTraceNoPhaseWrite | drivers/mmc/host/sdhci-of-eswin-sdio.c:174-233 | the delay tuning never writes the phase register |
| SdioTuningProperties.DelayFailureSkipsPhase | drivers/mmc/host/sdhci-of-eswin-sdio.c:322-325 | a negative delay result is returned as is, and no phase code is probed or written after setup |
| SdioTuningProperties.DelayFallbackStillRunsPhase | drivers/mmc/host/sdhci-of-eswin-sdio.c:322-332 | when the delay scan falls back with a last status of 0, the phase scan still runs and its result is returned (with lines 216-224) |
| SdioTuningProperties.StaticPhase | drivers/mmc/host/sdhci-of-eswin-sdio.c:298-304 | without software tuning nothing is probed and 0 is returned; a `phase_code` other than -1 is written, gated by the card clock |
| SdioTuningProperties.PhaseCodeAbsent | drivers/mmc/host/sdhci-of-eswin-sdio.c:969-973 | the static phase write is skipped exactly when the property is absent or holds 0xFFFFFFFF (with line 299) |
| SdioTuningProperties.StaticWithoutProperty | drivers/mmc/host/sdhci-of-eswin-sdio.c:298-304 | without software tuning and without the property, tuning writes nothing and succeeds (with lines 969-973) |
| SdioTuningProperties.TuningCommitsBoth | drivers/mmc/host/sdhci-of-eswin-sdio.c:284-333 | successful software tuning leaves the committed delay in the delay register and the committed phase in the phase register |
| SdhciClock.SelectDivisor | drivers/mmc/host/sdhci-eswin.c:128-132 | the divider search loop, as written with `break` and the final `div--`, computes the reference divisor |
| SdhciClock.DivisorMinimal | drivers/mmc/host/sdhci-eswin.c:128-132 | `div` is one less than the smallest `d` in 1..`MAX_CORE_CLK_DIV` with `max_clk / d <= clock`, and is `MAX_CORE_CLK_DIV` when no `d` qualifies |
| SdhciClock.DivideRange | drivers/mmc/host/sdhci-eswin.c:134-138 | `divide` is always even, lies in [2, 2 * (MAX_CORE_CLK_DIV + 1)], and is `2 * (div + 1)` for `div >= 2` |
| SdhciClock.SourceChoice | drivers/mmc/host/sdhci-eswin.c:120-126 | the 208 MHz source (`flag_sel = 1`) is chosen exactly when 208 MHz is a multiple of `clock`; otherwise 200 MHz with `flag_sel = 0` |
| SdhciClock.ClockDivider | drivers/mmc/host/sdhci-eswin.c:115-138 | the divisor and select flag passed to `coreclk_config` are the 16-bit `divide` for the chosen source and that source's flag |
| SdhciClock.ReprogramField | drivers/mmc/host/sdhci-eswin.c:41-43 | after `coreclk_config` the frequency field holds the masked divisor |
| SdhciClock.ReprogramSelect | drivers/mmc/host/sdhci-eswin.c:44-45 | after `coreclk_config` the select bit equals `flag_sel` |
| SdhciClock.ReprogramKeeps | drivers/mmc/host/sdhci-eswin.c:36-51 | `coreclk_config` keeps every bit outside the enable bit, the select bit and the frequency field |
| SdhciClock.ProgramGated | drivers/mmc/host/sdhci-eswin.c:37-46 | the value programmed with the new divisor still has the enable bit clear |
| SdhciClock.ReprogramEnables | drivers/mmc/host/sdhci-eswin.c:49-50 | the last write has the enable bit set and leaves every other bit as the second write left it |
| SdhciClock.CoreClkConfigField | drivers/mmc/host/sdhci-eswin.c:41-43 | with the register's real field layout (`MASK << SHIFT`), the frequency field ends up holding `(divisor & MASK) << SHIFT` |
| SdhciClock.CoreClkDisableEffect | drivers/mmc/host/sdhci-eswin.c:55-67 | disabling the core clock clears the enable bit and keeps all other bits |
| SdhciClock.SdhciClocks.constructor | drivers/mmc/host/sdhci-eswin.c:26-53 | a host starts with the given register layout and register values and an empty write log |
| SdhciClock.SdhciClocks.CoreClkConfig | drivers/mmc/host/sdhci-eswin.c:26-53 | `coreclk_config` issues three writes (gate, program, ungate) and leaves the reprogrammed value; the card-clock register is untouched |
| SdhciClock.SdhciClocks.CoreClkDisable | drivers/mmc/host/sdhci-eswin.c:55-67 | `coreclk_disable` writes once and clears only the enable bit; divisor and select bits are untouched |
| SdhciClock.SdhciClocks.DisableCardClk | drivers/mmc/host/sdhci-eswin.c:69-77 | `disable_card_clk` clears only `CARD_EN` |
| SdhciClock.SdhciClocks.EnableCardClk | drivers/mmc/host/sdhci-eswin.c:79-107 | `enable_card_clk` sets `INT_EN`; it sets `CARD_EN` as well only when `INT_STABLE` was seen before the timeout, otherwise it stops after the first write |
| SdhciClock.SdhciClocks.SetCoreClock | drivers/mmc/host/sdhci-eswin.c:109-145 | clock 0 only gates the core clock; any other clock disables the card clock, reprograms the core clock with the computed divisor and flag, and re-enables the card clock |
| SdhciClock.SdhciClocks.Reclock | drivers/mmc/host/sdhci-eswin.c:141-144 | the reclocking sequence issues its writes in the driver's order and leaves the core-clock register reprogrammed |
| SdhciClock.PhaseReadReturn | drivers/mmc/host/sdhci-eswin.c:171-172 | the array read returns a negative error exactly when the two-cell property is missing or short, and never 0 (2, the count, on success) |
| SdhciClock.ReadClkPhaseAsWritten | drivers/mmc/host/sdhci-eswin.c:171-181 | as written, the early return is taken on every outcome of the read, so neither phase array ever changes |
| SdhciClock.ReadClkPhase | drivers/mmc/host/sdhci-eswin.c:159-182 | corrected to test for a negative return: a failed read leaves both phase arrays unchanged; a successful one changes only entry `timing` of each, to phase[0] and phase[1] |
| SdhciClock.DriveOhms | drivers/mmc/host/sdhci-eswin.c:221-240 | every drive strength stands for one of 100, 66, 50, 40 and 33 ohms |
| SdhciClock.DriveImpedanceRoundTrip | drivers/mmc/host/sdhci-eswin.c:221-240 | 100/66/50/40/33 ohms map to their own code and back, and any other value maps to the 50-ohm code |
| TbuPower.SidWriteField | drivers/iommu/eswin/eic7700-sid.c:194-199 | the packed SID register carries the stream id in bits 31:24 (the write SID) (with line 26) |
| TbuPower.SidReadField | drivers/iommu/eswin/eic7700-sid.c:194-199 | the packed SID register carries the same stream id in bits 15:8 (the read SID) (with line 28) |
| TbuPower.SidSsidZero | drivers/iommu/eswin/eic7700-sid.c:194-199 | both substream-id fields of the packed SID register are zero (with lines 27, 29) |
| TbuPower.TbuClients | drivers/iommu/eswin/eic7700-sid.c:341-407 | the client table has thirteen entries, with the given TBU ids in order |
| TbuPower.TableAcceptBelowRequest | drivers/iommu/eswin/eic7700-sid.c:341-407 | in every table entry the `qacceptn` bit is the `qreqn` bit minus one |
| TbuPower.TableRequestBitsDistinct | drivers/iommu/eswin/eic7700-sid.c:341-407 | no two table entries share the same register offset and `qreqn` bit |
| TbuPower.FindTbuFrom | drivers/iommu/eswin/eic7700-sid.c:582-592 | the lookup finds the first entry with the requested id, or reports that none has it |
| TbuPower.PollFromSpec | drivers/iommu/eswin/eic7700-sid.c:437-451 | the power-down poll stops at the first read showing `qacceptn` clear, after at most eleven reads |
| TbuPower.PollTimeout | drivers/iommu/eswin/eic7700-sid.c:437-455 | the poll gives up (count above 10) exactly when none of the eleven reads shows `qacceptn` clear |
| TbuPower.PollAccept | drivers/iommu/eswin/eic7700-sid.c:437-451 | the `do ... while` poll loop, with its `break`s, ends with the reference count of reads |
| TbuPower.HwPowerUpSets | drivers/iommu/eswin/eic7700-sid.c:425-432 | power-up sets the `qreqn` bit, keeps every other bit and register, and returns 0 |
| TbuPower.HwPowerDownClears | drivers/iommu/eswin/eic7700-sid.c:433-456 | power-down clears the `qreqn` bit, keeps every other bit and register, and returns -1 exactly when the poll times out |
| TbuPower.HwPowerAbsent | drivers/iommu/eswin/eic7700-sid.c:420-422 | with no initialised syscon block nothing is written and -EFAULT is returned |
| TbuPower.RefDownAtZero | drivers/iommu/eswin/eic7700-sid.c:493-497 | power-down with a reference count of 0 changes nothing and returns 0 |
| TbuPower.RefDown | drivers/iommu/eswin/eic7700-sid.c:499-506 | power-down decrements the count and touches the hardware only when the count reaches 0 |
| TbuPower.RefUp | drivers/iommu/eswin/eic7700-sid.c:508-516 | power-up always increments the count and touches the hardware only when the old count was 0 |
| TbuPower.RefUpDown | drivers/iommu/eswin/eic7700-sid.c:493-516 | powering up and then down from a count of 0 restores the count |
| TbuPower.PowerIdsAppend | drivers/iommu/eswin/eic7700-sid.c:631-654 | the ids are processed in list order: a list split in two is the first part followed by the second, unless the first part failed |
| TbuPower.NoneIdSkipped | drivers/iommu/eswin/eic7700-sid.c:647-649 | the placeholder id `EIC7700_TBUID_0xF00`, which no table entry carries, changes nothing and is accepted |
| TbuPower.UnknownIdAborts | drivers/iommu/eswin/eic7700-sid.c:650-653 | an unknown id aborts with -1; the ids before it keep their effect and the ids after it are not processed |
| TbuPower.TbuPowerCtl.constructor | drivers/iommu/eswin/eic7700-sid.c:525-570 | a node starts with its client table, every reference count 0 and the given registers |
| TbuPower.TbuPowerCtl.DoPowerCtl | drivers/iommu/eswin/eic7700-sid.c:414-460 | the direct power control leaves the registers and result of the reference definition and keeps the counts |
| TbuPower.TbuPowerCtl.PowerCtlRegister | drivers/iommu/eswin/eic7700-sid.c:481-523 | the reference-counted power control leaves the state and result of the reference definition |
| TbuPower.TbuPowerCtl.GetTbuPriv | drivers/iommu/eswin/eic7700-sid.c:572-593 | the lookup returns 0 and the index of the first matching entry exactly when one exists, and -1 otherwise |
| TbuPower.TbuPowerCtl.PowerOneId | drivers/iommu/eswin/eic7700-sid.c:633-653 | one id of the `tbus` list is handled as the reference definition says: counted, direct, placeholder or unknown |
| TbuPower.TbuPowerCtl.TbuPower | drivers/iommu/eswin/eic7700-sid.c:608-661 | a device with no NUMA node under CONFIG_NUMA gets -EFAULT with nothing changed; otherwise (node 0 without CONFIG_NUMA) the ids are walked as `TbuPowerIds` states |
| TbuPower.TbuPowerCtl.TbuPowerIds | drivers/iommu/eswin/eic7700-sid.c:608-662 | `eic7700_tbu_power` processes the ids in order and stops at the first failure, leaving the reference state and result |
| ResetCtrl.ResetRegister | drivers/reset/reset-eswin.c:35-95 | the register of a device id is `0x400 + 4 * dev_id`: word-aligned and never below the reset block |
| ResetCtrl.AssertClears | drivers/reset/reset-eswin.c:90-92 | assert clears the `reset_bit` mask in the device's register and keeps every other bit |
| ResetCtrl.DeassertSets | drivers/reset/reset-eswin.c:93-95 | deassert sets the `reset_bit` mask in the device's register and keeps every other bit |
| ResetCtrl.UpdateBitsFrame | drivers/reset/reset-eswin.c:90-96 | an assert or deassert changes no other register |
| ResetCtrl.ResetSetUnknown | drivers/reset/reset-eswin.c:82-88 | an id with no control gives -EINVAL and writes nothing |
| ResetCtrl.ResetPulseEndsDeasserted | drivers/reset/reset-eswin.c:101-117 | a reset whose writes succeed ends exactly as a deassert would leave the register |
| ResetCtrl.UpdateTwice | drivers/reset/reset-eswin.c:106-111 | deasserting right after asserting gives the same registers as deasserting alone |
| ResetCtrl.ResetPulseStopsOnAssertFailure | drivers/reset/reset-eswin.c:106-109 | a failing assert is returned at once and the deassert is skipped |
| ResetCtrl.LookupSpec | drivers/reset/reset-eswin.c:137-174 | the idr walk returns the first id above 0 whose control matches both cells, and 0 when none does; the entry at id 0 cannot be reported |
| ResetCtrl.XlateArity | drivers/reset/reset-eswin.c:171-220 | a specifier with other than two cells gives -EINVAL and stores nothing |
| ResetCtrl.XlateResult | drivers/reset/reset-eswin.c:174-186 | a successful translation returns an id whose control holds `args[0]` as `dev_id` and `args[1]` as `reset_bit`; the table grows by at most that entry |
| ResetCtrl.XlateFindsRegistered | drivers/reset/reset-eswin.c:174-177 | a pair already registered at an id above 0 is found again and not stored twice |
| ResetCtrl.XlateDuplicatesIdZero | drivers/reset/reset-eswin.c:142-186 | the pair stored at id 0 is never found, so translating it again stores a copy under a new id |
| ResetCtrl.XlateThenSet | drivers/reset/reset-eswin.c:91-95 | asserting or deasserting a translated id programs register `0x400 + 4 * args[0]` with mask `args[1]` (with lines 183-186) |
| ResetCtrl.HeaderOffsetsAgree | include/dt-bindings/reset/eic7700-syscrg.h:152-269 | for every consumer, `0x400 + 4 * id` equals the register offset the header lists for it |
| ResetCtrl.ResetData.constructor | drivers/reset/reset-eswin.c:224 | a controller starts with an empty id table and the given registers |
| ResetCtrl.ResetData.Set | drivers/reset/reset-eswin.c:75-99 | `eswin_reset_set` leaves the registers and result of the reference definition and keeps the table |
| ResetCtrl.ResetData.Reset | drivers/reset/reset-eswin.c:101-117 | `eswin_reset_reset` is an assert followed, if it succeeded, by a deassert |
| ResetCtrl.ResetData.Assert | drivers/reset/reset-eswin.c:119-123 | assert is `eswin_reset_set` with `assert` true |
| ResetCtrl.ResetData.Deassert | drivers/reset/reset-eswin.c:125-129 | deassert is `eswin_reset_set` with `assert` false |
| ResetCtrl.ResetData.LookupId | drivers/reset/reset-eswin.c:137-174 | the walk over the table, stopping at the first non-zero callback result, returns the reference lookup's result |
| ResetCtrl.ResetData.OfXlate | drivers/reset/reset-eswin.c:164-187 | `eswin_reset_of_xlate` leaves the table and result of the reference definition and writes no register |
| Pwm.RegisterMapDisjoint | drivers/pwm/pwm-eswin.c:24-36 | for channels below 8 the six per-channel register offsets are pairwise distinct, and none hits the global registers 0xa0-0xac |
| Pwm.DivRoundClosestNearest | drivers/pwm/pwm-eswin.c:105-111 | `DIV_ROUND_CLOSEST_ULL` rounds to the nearest quotient, halves up, when `x + d/2` does not wrap |
| Pwm.DivRoundClosestExact | drivers/pwm/pwm-eswin.c:105-111 | an exact multiple of the divisor rounds to its own quotient |
| Pwm.Counts | drivers/pwm/pwm-eswin.c:105-114 | accepted counts fit in 32 bits |
| Pwm.CountsSpec | drivers/pwm/pwm-eswin.c:105-114 | the counts are rejected exactly when a rounded width (duty, or `period - duty` in `u64`) lies outside 1..2^32; otherwise they are the widths minus one |
| Pwm.TinyDutyRejected | drivers/pwm/pwm-eswin.c:105-107 | a duty cycle below half a clock period rounds to 0 and is rejected |
| Pwm.WithEnableOnlyBit0 | drivers/pwm/pwm-eswin.c:75-88 | `set_enable` changes only bit 0 of CTRL, which becomes `enabled` |
| Pwm.ExactCounts | drivers/pwm/pwm-eswin.c:105-114 | widths that are whole multiples of the clock period give those multiples minus one as counts |
| Pwm.ConfigureReadback | drivers/pwm/pwm-eswin.c:90-148 | after configuring whole multiples of the clock period, `get_state` reports the requested period and enable, the duty as `period - duty`, and inversed polarity (with lines 168-195) |
| Pwm.ReadbackAfterConfigure | drivers/pwm/pwm-eswin.c:130-190 | after the configuration writes, `get_state` reports duty `(LD_CNT + 1) * clk`, period `(LD_CNT2 + 1) * clk + duty`, the enable bit and inversed polarity |
| Pwm.ConfigureRejectsSilently | drivers/pwm/pwm-eswin.c:106-113 | rejected counts give -ERANGE and no register write |
| Pwm.ClkPeriodNsNearest | drivers/pwm/pwm-eswin.c:215-252 | `clk_period_ns` is 10^9 / rate rounded to nearest, and is 0 only for a rate above 2 GHz |
| Pwm.EswinPwm.constructor | drivers/pwm/pwm-eswin.c:251-252 | a chip starts with its clock period, the given registers and no writes; the period must be above 0 (see Left out) |
| Pwm.EswinPwm.WriteReg | drivers/pwm/pwm-eswin.c:70-73 | a register write changes that one register and is logged |
| Pwm.EswinPwm.SetEnable | drivers/pwm/pwm-eswin.c:75-88 | `set_enable` issues one write: CTRL with bit 0 replaced by `enabled` |
| Pwm.EswinPwm.ConfigureTimer | drivers/pwm/pwm-eswin.c:90-148 | on success the writes are, in order: disable, `LD_CNT := low`, `LD_CNT2 := high`, `CTRL := USER or PWM`, enable bit := `enabled`; on a range error there are none |
| Pwm.EswinPwm.Apply | drivers/pwm/pwm-eswin.c:150-166 | `apply` issues the configuration's writes and returns 0 even when the configuration was rejected |
| Pwm.EswinPwm.GetState | drivers/pwm/pwm-eswin.c:168-195 | `get_state` reports the reference read-back, with polarity inversed and `enabled` equal to CTRL bit 0 |
| Pcie.LinkUpFields | drivers/pci/controller/dwc/pcie-eswin.c:82-116 | the link counts as up exactly when bits 7:2 of the link-state register are 0x11 and bits 1:0 are both set |
| Pcie.StartLinkOnlyLtssm | drivers/pci/controller/dwc/pcie-eswin.c:79-102 | starting the link sets `APP_LTSSM_ENABLE` (bit 5) and keeps every other bit |
| Pcie.DeviceTypeRcFields | drivers/pci/controller/dwc/pcie-eswin.c:226-229 | the device-type nibble becomes 4 (root complex) and the other bits are kept |
| Pcie.ReleasePhyFields | drivers/pci/controller/dwc/pcie-eswin.c:239-242 | `app_hold_phy_rst` (bit 6) is cleared and the other bits are kept |
| Pcie.LinkSpeed | drivers/pci/controller/dwc/pcie-eswin.c:259-287 | the link speed code is 1, 2 or 3 |
| Pcie.LinkCtl2Fields | drivers/pci/controller/dwc/pcie-eswin.c:261-280 | Link Control 2 is written `0x0001000g`: Target Link Speed (section 7.5.3.19 of the PCI Express Base Specification r4.0) is the generation code and the rest is 0x00010000 |
| Pcie.LinkWidth | drivers/pci/controller/dwc/pcie-eswin.c:292-298 | the advertised width is 1, 2 or 4 lanes, and equals `lane_x` exactly when `lane_x` is one of those |
| Pcie.LinkWidthBitsValue | drivers/pci/controller/dwc/pcie-eswin.c:291-298 | the value ORed into bits 9:4 is the lane count |
| Pcie.LinkCapFields | drivers/pci/controller/dwc/pcie-eswin.c:264-300 | in Link Capabilities (section 7.5.3.6) Max Link Speed becomes 3, 2 or 1 for gen 3, gen 2 or anything else, Maximum Link Width becomes 4, 2 or 1 for `lane_x` 4, 2 or anything else, and bits 31:10 are kept |
| Pcie.LinkCapBits | drivers/pci/controller/dwc/pcie-eswin.c:264-300 | the two read-modify-writes of Link Capabilities combine into one replacement of bits 9:0 |
| Pcie.LaneFixCode | drivers/pci/controller/dwc/pcie-eswin.c:305-311 | the lane-fix code is 0x40 ORed with the lane count: 0x44, 0x42 or 0x41 |
| Pcie.LaneFixFields | drivers/pci/controller/dwc/pcie-eswin.c:303-312 | the low 7 bits of register 0x8c0 become the lane-fix code and the other bits are kept |
| Pcie.MsixTableSizeFields | drivers/pci/controller/dwc/pcie-eswin.c:315-317 | the MSI-X Table Size field (bits 26:16, section 7.7.2) is cleared and every other bit is kept |
| Pcie.HostInitMgmtValue | drivers/pci/controller/dwc/pcie-eswin.c:226-242 | after host init the management register is the old value with the device type 4 and bit 6 cleared |
| Pcie.MgmtClosedFormFields | drivers/pci/controller/dwc/pcie-eswin.c:226-242 | in that value the device type is 4, `app_hold_phy_rst` is clear and all other bits are the old ones |
| Pcie.HostInitDbiValues | drivers/pci/controller/dwc/pcie-eswin.c:257-320 | after host init the vendor/device id, Link Control 2, Link Capabilities, lane fix, MSI-X and MSI registers hold the values above, and no other configuration register changes |
| Pcie.EswinPcie.constructor | drivers/pci/controller/dwc/pcie-eswin.c:206-212 | a controller starts with its generation, lane count and register contents |
| Pcie.EswinPcie.IsLinkUp | drivers/pci/controller/dwc/pcie-eswin.c:106-117 | `link_up` returns 1 exactly when the link-state test holds, and 0 otherwise |
| Pcie.EswinPcie.StartLink | drivers/pci/controller/dwc/pcie-eswin.c:93-104 | `start_link` changes only the management register, sets bit 5 there and returns 0 |
| Pcie.EswinPcie.HostInit | drivers/pci/controller/dwc/pcie-eswin.c:206-323 | the first failing step among clock enable, power-on and TBU power-up is returned with no register changed; on success both register blocks hold the values above |
| Fusb303b.Truncate | drivers/usb/typec/tcpm/fusb303b.c:179-204 | formatting into a 128-byte buffer keeps a prefix of at most 127 characters, and a shorter text whole |
| Fusb303b.Distance | drivers/usb/typec/tcpm/fusb303b.c:228-231 | the number of unread entries is below 1024 and is 0 exactly when `tail == head` (with line 119) |
| Fusb303b.LogFullIffAlmostWrapped | drivers/usb/typec/tcpm/fusb303b.c:159-163 | the buffer is full (`tail == (head + 1) % 1024`) exactly when 1023 entries are unread |
| Fusb303b.RingIndex | drivers/usb/typec/tcpm/fusb303b.c:205-230 | an index advanced round the ring stays in [0, 1024) |
| Fusb303b.RingReach | drivers/usb/typec/tcpm/fusb303b.c:228-231 | walking from `tail` reaches `head` after exactly the unread count of steps, and not before |
| Fusb303b.AdvanceTail | drivers/usb/typec/tcpm/fusb303b.c:230 | advancing `tail` towards `head` reduces the unread count by one |
| Fusb303b.AdvanceHead | drivers/usb/typec/tcpm/fusb303b.c:205 | advancing `head` of a buffer that is not full adds one unread entry |
| Fusb303b.PendingNIndex | drivers/usb/typec/tcpm/fusb303b.c:228-231 | the i-th unread text is the text of the slot i places after `tail` |
| Fusb303b.LogStaysInRange | drivers/usb/typec/tcpm/fusb303b.c:183-205 | logging keeps 1024 slots and leaves `head` in [0, 1024), so the index check at 188-193 never fires |
| Fusb303b.LogAllocFailure | drivers/usb/typec/tcpm/fusb303b.c:172-177 | when the slot at `head` has no memory and the allocation fails, nothing changes |
| Fusb303b.LogAppends | drivers/usb/typec/tcpm/fusb303b.c:195-205 | below capacity an entry (time stamp and truncated text) is written at `head` and `head` advances mod 1024 |
| Fusb303b.AppendPending | drivers/usb/typec/tcpm/fusb303b.c:202-231 | writing at `head` and advancing it is a FIFO append: the unread texts are the old ones followed by the new one |
| Fusb303b.LogOverflowReplacesNewest | drivers/usb/typec/tcpm/fusb303b.c:183-205 | when full with `head > 0`, `head` steps back, the newest entry is replaced by "overflow", and the buffer stays full |
| Fusb303b.LogOverflowAtZeroEmpties | drivers/usb/typec/tcpm/fusb303b.c:183-205 | when full with `head == 0`, `head` ends equal to `tail`, so 1023 unread entries become none |
| Fusb303b.LogBuffer.constructor | drivers/usb/typec/tcpm/fusb303b.c:119-120 | a log starts empty, with `head == tail == 0` and no slot allocated |
| Fusb303b.LogBuffer.Log | drivers/usb/typec/tcpm/fusb303b.c:165-209 | `_fusb303b_log` changes the slots and `head` as the reference definition says and never changes `tail` |
| Fusb303b.LogBuffer.DebugShow | drivers/usb/typec/tcpm/fusb303b.c:221-237 | `debug_show` emits the unread entries from `tail` up to `head` in order, and then sets `tail := head` unless the output overflowed |
| Fusb303b.MaskedByteFields | drivers/usb/typec/tcpm/fusb303b.c:303-304 | masking `old` with `~mask` and OR-ing in `value` puts `value` under the mask and ORs it, unmasked, into the other bits |
| Fusb303b.MaskWriteReadFailure | drivers/usb/typec/tcpm/fusb303b.c:300-302 | a failed read is returned and nothing is written |
| Fusb303b.MaskWriteChangesOnlyMasked | drivers/usb/typec/tcpm/fusb303b.c:294-310 | a successful masked write changes only its own register, as described above |
| Fusb303b.PortRoleOneHot | drivers/usb/typec/tcpm/fusb303b.c:513-526 | DRP, source and sink select distinct single bits among bits 2:0 of PORTROLE |
| Fusb303b.CcStatus | drivers/usb/typec/tcpm/fusb303b.c:92 | the CC status is bits 5:4 of STATUS, a value below 4 (with line 599) |
| Fusb303b.IrqAsWrittenMissesInterrupt1 | drivers/usb/typec/tcpm/fusb303b.c:578-612 | as written, a pending INTERRUPT1 flag is not acknowledged when INTERRUPT is clear, and INTERRUPT's flags are written into INTERRUPT1 |
| Fusb303b.IrqAcknowledgesBothRegisters | drivers/usb/typec/tcpm/fusb303b.c:609-612 | the corrected handler writes back each non-zero flag byte to its own register and nothing else |
| Fusb303b.IrqVbus | drivers/usb/typec/tcpm/fusb303b.c:590-598 | `vbus_present` changes only on a `VBUS_CHG` interrupt, then becomes the VBUSOK bit, and `tcpm_vbus_change` fires exactly when it changes |
| Fusb303b.IrqPolarity | drivers/usb/typec/tcpm/fusb303b.c:599-607 | CC status 1 selects CC1 and 2 selects CC2, each with a CC-change event; any other value keeps the polarity and raises no event |
| Fusb303b.IrqReadFailure | drivers/usb/typec/tcpm/fusb303b.c:578-613 | a failed read ends the handler with no state change and no write |
| Fusb303b.Chip.constructor | drivers/usb/typec/tcpm/fusb303b.c:122-156 | a chip starts with the given registers, VBUS absent, polarity CC1 and no events |
| Fusb303b.Chip.MaskWrite | drivers/usb/typec/tcpm/fusb303b.c:294-310 | `mask_write` changes registers and writes as the reference definition says and nothing else |
| Fusb303b.Chip.StartToggling | drivers/usb/typec/tcpm/fusb303b.c:503-529 | `start_toggling` issues one PORTROLE write of DRP, SRC or SNK by port type and returns the write's error or 0 |
| Fusb303b.Chip.HandleIrq | drivers/usb/typec/tcpm/fusb303b.c:566-616 | the interrupt handler leaves VBUS, polarity, acknowledgements and event counts as the corrected reference handler says |
| Hdcp.ModbFields | drivers/gpu/drm/eswin/dw_hdmi_hdcp.c:457-464 | `hdcp_modb` leaves the bits outside the mask as read and puts `data` in the bits under it |
| Hdcp.ModbIdempotent | drivers/gpu/drm/eswin/dw_hdmi_hdcp.c:457-464 | repeating a `hdcp_modb` with the same data and mask changes nothing more |
| Hdcp.LoadKeysCbAsWrittenKeepsFreed | drivers/gpu/drm/eswin/dw_hdmi_hdcp.c:477-485 | as written, a failed seed allocation frees the key buffer but leaves the pointer set, so the next load takes freed memory for loaded keys (with lines 536-541) |
| Hdcp.LoadKeysCbOutcome | drivers/gpu/drm/eswin/dw_hdmi_hdcp.c:477-501 | corrected, a failure is -ENOMEM with no key buffer left; success takes the keys from bytes 0..307 and the seeds from bytes 308..309 of the key table (with lines 34-35) |
| Hdcp.KsvWrites | drivers/gpu/drm/eswin/dw_hdmi_hdcp.c:562-563 | the KSV loop issues five writes |
| Hdcp.KsvWritesIndex | drivers/gpu/drm/eswin/dw_hdmi_hdcp.c:562-563 | write q of the KSV loop puts KSV byte 4-q into DPK0+4-q |
| Hdcp.KsvOrder | drivers/gpu/drm/eswin/dw_hdmi_hdcp.c:561-563 | the KSV bytes are written from byte 4 down to byte 0, each to its own DPK register |
| Hdcp.Group | drivers/gpu/drm/eswin/dw_hdmi_hdcp.c:582-584 | one device-key group is seven writes |
| Hdcp.DpkWrites | drivers/gpu/drm/eswin/dw_hdmi_hdcp.c:581-591 | g groups are 7g writes |
| Hdcp.DpkWritesIndex | drivers/gpu/drm/eswin/dw_hdmi_hdcp.c:581-584 | write q of group k puts device-key byte 7k+6-q (key-table byte 8+7k+6-q) into DPK0+6-q |
| Hdcp.DpkCoversDeviceKeyOnce | drivers/gpu/drm/eswin/dw_hdmi_hdcp.c:581-584 | the 40 groups write each of the 280 device-key bytes exactly once: the write-position to byte map is an involution of 0..279 (with line 407) |
| Hdcp.FirstFail | drivers/gpu/drm/eswin/dw_hdmi_hdcp.c:585-590 | the group whose poll ends the loop is the first failing one, with every earlier poll successful |
| Hdcp.WriteGroup | drivers/gpu/drm/eswin/dw_hdmi_hdcp.c:582-584 | the inner loop (j from 6 down to 0) issues exactly the group's writes |
| Hdcp.WriteDeviceKey | drivers/gpu/drm/eswin/dw_hdmi_hdcp.c:580-592 | the outer loop writes groups until a poll fails and returns that poll's error, or 0 after all 40 |
| Hdcp.WriteKeys | drivers/gpu/drm/eswin/dw_hdmi_hdcp.c:543-592 | `dw_hdmi_hdcp_load_key` past the key check issues the writes and returns the value of the reference definition |
| Hdcp.KeyLoadBadWidth | drivers/gpu/drm/eswin/dw_hdmi_hdcp.c:543-548 | a register width other than 1 or 4 is -EPERM before any write |
| Hdcp.KeyLoadComplete | drivers/gpu/drm/eswin/dw_hdmi_hdcp.c:550-592 | with every poll successful the load writes decryption-off, DPK6/DPK5 cleared, KSV, seeds (or RMCTL 0) and all 40 groups, and returns 0 |
| Hdcp.KeyLoadGroupTimeout | drivers/gpu/drm/eswin/dw_hdmi_hdcp.c:585-590 | a poll timing out after group g stops the load after that group with the poll's error |
| Hdcp.StartOutcome | drivers/gpu/drm/eswin/dw_hdmi_hdcp.c:602-607 | start is -EPERM and changes nothing when disabled; it changes nothing in AUTH_START or AUTH_SUCCESS; otherwise it refills the retry budget and enters AUTH_START (with lines 640, 685) |
| Hdcp.StartIdempotent | drivers/gpu/drm/eswin/dw_hdmi_hdcp.c:605-607 | starting twice is starting once (with line 685) |
| Hdcp.StopOutcome | drivers/gpu/drm/eswin/dw_hdmi_hdcp.c:702-731 | stop is -EPERM when disabled, otherwise DISABLED and 0 |
| Hdcp.KsvCheckAsWrittenNeverSucceeds | drivers/gpu/drm/eswin/dw_hdmi_hdcp.c:827-837 | as written, `val` OR-ed with `SHA1_STATUS` is never 0, so the verification-succeeded branch never runs |
| Hdcp.KsvCheckSeesStatusBit | drivers/gpu/drm/eswin/dw_hdmi_hdcp.c:825-838 | corrected with `&`, a KSV/SHA-1 completion interrupt resets the HDCP engine exactly when the SHA-1 status bit is clear, that is when the KSV list verified; no other interrupt resets it |
| Hdcp.IsrAuthFail | drivers/gpu/drm/eswin/dw_hdmi_hdcp.c:840-849 | an authentication failure sets AUTH_FAIL, counts a budget above 1 down, and disables encryption exactly when the budget is 1 |
| Hdcp.IsrAuthSuccess | drivers/gpu/drm/eswin/dw_hdmi_hdcp.c:850-852 | an authentication success without a failure bit sets AUTH_SUCCESS and nothing else |
| Hdcp.IsrNack | drivers/gpu/drm/eswin/dw_hdmi_hdcp.c:853-859 | an I2C NACK counts up, and the twentieth resets the count and stops HDCP; the count stays in [0, 20) |
| Hdcp.TwentyNacksStop | drivers/gpu/drm/eswin/dw_hdmi_hdcp.c:853-859 | from any count, the NACKs that bring it to twenty stop HDCP and leave the count 0 |
| Hdcp.TrytimesWriteSets | drivers/gpu/drm/eswin/dw_hdmi_hdcp.c:924-943 | a parsed write sets the retry budget (and what remains of it when it differs), repeating it changes nothing, and a parse failure is -EINVAL |
| Hdcp.EnableWriteOff | drivers/gpu/drm/eswin/dw_hdmi_hdcp.c:899-904 | disabling leaves HDCP disabled and DISABLED, stopping it first when it was not |
| Hdcp.EnableWriteOn | drivers/gpu/drm/eswin/dw_hdmi_hdcp.c:888-898 | enabling without an HDCP 2 hot plug starts authentication exactly when the sink is detected |
| Hdcp.StatusTextInjective | drivers/gpu/drm/eswin/dw_hdmi_hdcp.c:947-966 | the four states read back as four different texts |
| Hdcp.KeysAfter | drivers/gpu/drm/eswin/dw_hdmi_hdcp.c:536-541 | `load_key` keeps keys that are present and otherwise runs `hdcp_load_keys_cb`, whose error is 0 or -ENOMEM |
| Hdcp.DwHdcp.constructor | drivers/gpu/drm/eswin/dw_hdmi_hdcp.c:1007-1008 | the instance probe sets up, before the enable write it issues at line 1015: disabled, DISABLED, retry budget 0 (unlimited), no keys and no writes |
| Hdcp.DwHdcp.LoadKey | drivers/gpu/drm/eswin/dw_hdmi_hdcp.c:528-593 | `dw_hdmi_hdcp_load_key` returns -ENOMEM with no write when the keys cannot be loaded, otherwise appends the key-load writes and returns their result; the key buffers are those of the load step; the authentication state is unchanged |
| Hdcp.DwHdcp.Start | drivers/gpu/drm/eswin/dw_hdmi_hdcp.c:595-694 | `dw_hdmi_hdcp1x_start` moves the state as the start outcome says. When it goes ahead with the six key-status bits clear, the key buffers and writes are those `dw_hdmi_hdcp_load_key` leaves, its result ignored; otherwise keys, seeds and writes are unchanged |
| Hdcp.DwHdcp.Stop | drivers/gpu/drm/eswin/dw_hdmi_hdcp.c:696-740 | `dw_hdmi_hdcp1x_stop` moves the state as the stop outcome says and touches no key |
| Hdcp.DwHdcp.HandleIsr | drivers/gpu/drm/eswin/dw_hdmi_hdcp.c:818-861 | the interrupt handler (with the corrected KSV test) moves the state and appends the engine actions of the reference definition |
| Hdcp.DwHdcp.TrytimesWrite | drivers/gpu/drm/eswin/dw_hdmi_hdcp.c:924-943 | `hdcp_trytimes_write` moves the state as the reference definition says |
| Hdcp.DwHdcp.EnableWrite | drivers/gpu/drm/eswin/dw_hdmi_hdcp.c:875-908 | `hdcp_enable_write` moves the state as the reference definition says. Keys, seeds and writes change only when turning HDCP on with a sink and no hot plug runs a start that loads keys, and then as `dw_hdmi_hdcp_load_key` leaves them |
| I2s.Pow2 | sound/soc/eswin/i2s-stereo.c:330 | a power of two is at least 1 |
| I2s.ConfigureDaiOutcome | sound/soc/eswin/i2s-stereo.c:320-365 | `i2s_configure_dai` fails with -EINVAL exactly when an enabled direction reports a word-size index of 5 or more, else returns 0; each enabled direction gets 2 up to `(channels field + 1) * 2` channels, the given rates and at least S16_LE |
| I2s.WordsizeFormatsMonotone | sound/soc/eswin/i2s-stereo.c:311-318 | a larger word-size index never removes a format; S24_LE needs index 2 or more and S32_LE index 4 |
| I2s.FifoThresholdHalfDepth | sound/soc/eswin/i2s-stereo.c:330-363 | the FIFO depth is `2^(1 + field)` and the threshold, half of it, is `2^field` |
| I2s.FormatParamsAccepted | sound/soc/eswin/i2s-stereo.c:482-504 | `hw_params` accepts exactly S16_LE, S24_LE and S32_LE, each with a data width equal to its transfer resolution |
| I2s.DivNumDividesClock | sound/soc/eswin/i2s-stereo.c:550-555 | a rate is accepted on the eswin platform exactly when it divides 192000, and then `(div_num + 1) * rate == 192000` (with line 46) |
| I2s.AdvertisedRatesFit | sound/soc/eswin/i2s-stereo.c:55-60 | the advertised rates 192000 down to 8000 get dividers 0, 1, 3, 5, 11, 23; 44100 is refused (with lines 550-555) |
| I2s.DivRegFields | sound/soc/eswin/i2s-stereo.c:563-564 | a divider that fits the 5-bit field lands in it and the other bits of the register are kept (with line 53) |
| I2s.DivRegUnmasked | sound/soc/eswin/i2s-stereo.c:563-564 | a rate of 4000, which is not advertised, gives divider 47, which does not fit the field and sets bit 5 of the register (with lines 53, 555) |
| I2s.MclkDivisorRates | sound/soc/eswin/i2s-stereo.c:533-547 | vo_mclk_sel has a divisor code exactly for 96000, 48000 and 44100, three different codes in 0x10..0x12 |
| I2s.MclkSelFields | sound/soc/eswin/i2s-stereo.c:531-541 | the code lands in bits 11:4 of vo_mclk_sel and the other bits are kept (with lines 43-44) |
| I2s.SetFmtAccepts | sound/soc/eswin/i2s-stereo.c:623-650 | `i2s_set_fmt` returns 0 exactly for consumer mode on a slave-capable or provider mode on a master-capable controller, and -EINVAL otherwise, always for the mixed modes |
| I2s.ChannelWrites | sound/soc/eswin/i2s-stereo.c:116-130 | the channel loop issues three writes per channel pair |
| I2s.ChannelWritesPair | sound/soc/eswin/i2s-stereo.c:116-130 | pair c gets its resolution, the threshold `fifo_th - 1` (as a u32) and its enable, in that order |
| I2s.Pow2Fits | sound/soc/eswin/i2s-stereo.c:330 | the FIFO depth shift stays within a u32 for a field below 31 |
| I2s.Pow2Add | sound/soc/eswin/i2s-stereo.c:330-363 | powers of two multiply by adding exponents |
| I2s.StereoConfig | sound/soc/eswin/i2s-stereo.c:111-131 | for two channels `i2s_config` disables the first pair, then configures pair 0 with threshold `2^field - 1` (with line 363) |
| I2s.RateSetupDivider | sound/soc/eswin/i2s-stereo.c:549-570 | on the eswin platform a rate is accepted iff it divides 192000 and, while a stream runs, matches the running divider; only an idle controller writes the divider; a refusal writes nothing |
| I2s.RateSetupMclk | sound/soc/eswin/i2s-stereo.c:517-548 | otherwise syscon and property errors are returned first, and a rate is accepted iff it has a divisor code, which is written to vo_mclk_sel |
| I2s.RateStep | sound/soc/eswin/i2s-stereo.c:516-573 | the rate step returns the clock state, writes and result of the reference definition |
| I2s.TriggerOutcome | sound/soc/eswin/i2s-stereo.c:588-621 | a start counts the stream in and makes open busy, a stop counts it out and frees it, the other stream's flag is untouched, and other commands are -EINVAL with no change (with lines 768-769) |
| I2s.StopTurnsOffLast | sound/soc/eswin/i2s-stereo.c:255-275 | a stop turns the clock and the block off exactly when it ends the last active stream (with lines 608-609) |
| I2s.StartStopRestores | sound/soc/eswin/i2s-stereo.c:594-615 | a start then a stop of one stream restores the count and frees the stream |
| I2s.I2sDev.constructor | sound/soc/eswin/i2s-stereo.c:979-984 | a device starts with no capability, no channels, no active stream and no writes |
| I2s.I2sDev.ConfigureDai | sound/soc/eswin/i2s-stereo.c:320-365 | the method returns the reference description; on success it adds the master or slave capability and sets the threshold to half the FIFO depth, on failure it changes neither; word size, resolution and rate are untouched |
| I2s.I2sDev.Config | sound/soc/eswin/i2s-stereo.c:111-131 | `i2s_config` appends the channel writes and changes nothing else |
| I2s.I2sDev.HwParams | sound/soc/eswin/i2s-stereo.c:467-574 | `i2s_hw_params` refuses other formats and channel counts with -EINVAL, leaving the clocking, writes and rate unchanged; for stereo it configures the channels and the clock, then on a master runs the rate step |
| I2s.I2sDev.SetRate | sound/soc/eswin/i2s-stereo.c:516-571 | the rate step on the device's own clock state, as the reference definition says |
| I2s.I2sDev.TriggerStream | sound/soc/eswin/i2s-stereo.c:588-621 | `i2s_trigger` changes the activity and writes as the reference definition says and no other field |
| I2s.I2sDev.Open | sound/soc/eswin/i2s-stereo.c:763-774 | `i2s_open` is -EBUSY exactly when the stream is already active, else 0 |
| Rtc.AlarmCcrBits | drivers/rtc/rtc-eswin.c:97-105 | enabling sets IE and clears MASK, disabling clears IE and sets MASK, and every other CCR bit is kept (with lines 41-42) |
| Rtc.AlarmCcrLastWins | drivers/rtc/rtc-eswin.c:97-105 | of two alarm enables in a row only the second counts |
| Rtc.AlarmEnabled | drivers/rtc/rtc-eswin.c:87 | the enabled flag read back is 0 or 1, and 1 exactly when IE is set |
| Rtc.EnabledAfterAlarmCcr | drivers/rtc/rtc-eswin.c:87-105 | after an alarm enable the flag read back is the one written |
| Rtc.S64 | drivers/rtc/rtc-eswin.c:57-86 | reading the stored `unsigned long` back as a 64-bit time gives a value in the signed range congruent to it mod 2^64 |
| Rtc.AlarmTimeRoundTrip | drivers/rtc/rtc-eswin.c:86-118 | every signed 64-bit alarm time stored as `unsigned long` reads back unchanged |
| Rtc.CompareValueWraps | drivers/rtc/rtc-eswin.c:119 | the compare register gets the alarm time mod 2^32: unchanged below 2^32, different from it at or above |
| Rtc.IrqOutcome | drivers/rtc/rtc-eswin.c:138-146 | the interrupt is handled exactly when the status bit is set |
| Rtc.RouteToU84Bits | drivers/rtc/rtc-eswin.c:194-196 | the routing update clears bits 14:13 and keeps every other bit (with line 35) |
| Rtc.ProbeEarly | drivers/rtc/rtc-eswin.c:165-193 | probe reaches the routing update exactly when the mapping, the IRQ, its request, the syscon and the offset all succeed; otherwise it returns the first failure's error, -1 for a missing offset |
| Rtc.ProbeIgnoresEnableFailure | drivers/rtc/rtc-eswin.c:198-220 | as written, a clock enable that fails with -EIO still lets probe continue, because the check tests the result of the clock-frequency lookup |
| Rtc.ProbeLate | drivers/rtc/rtc-eswin.c:202-220 | corrected, probe continues exactly when the reset and the clock are found and the clock enables; failures are -EFAULT or -ENODEV |
| Rtc.ProbeLateDiffers | drivers/rtc/rtc-eswin.c:198-220 | both versions agree when the property is found and the clock enables, and differ on a failed enable |
| Rtc.ProbeWritesOrder | drivers/rtc/rtc-eswin.c:194-234 | probe writes the routing word, then CCR with EN, then the prescale value, then CCR with EN and PEN, keeping the other CCR bits |
| Rtc.RtcDev.constructor | drivers/rtc/rtc-eswin.c:159 | a zero-allocated device: alarm time 0, no wake-up, clock off, no writes |
| Rtc.RtcDev.AlarmIrqEnable | drivers/rtc/rtc-eswin.c:92-108 | `alarm_irq_enable` rewrites CCR as the alarm-bits update says, returns 0 and changes nothing else |
| Rtc.RtcDev.SetAlarm | drivers/rtc/rtc-eswin.c:110-124 | `set_alarm` stores the time as `unsigned long`, writes its low 32 bits to CMR, then updates CCR, and returns 0 |
| Rtc.RtcDev.ReadAlarm | drivers/rtc/rtc-eswin.c:83-90 | `read_alarm` returns the stored time as a 64-bit time and the IE bit |
| Rtc.RtcDev.Interrupt | drivers/rtc/rtc-eswin.c:134-147 | the handler reads EOI and reports one alarm exactly when the status bit is set, and writes nothing |
| Rtc.RtcDev.Probe | drivers/rtc/rtc-eswin.c:149-246 | probe (corrected) returns the first failure and writes nothing before the routing update, the routing word alone after it, and otherwise issues the four probe writes and returns the registration result, turning the clock off when that fails |
| Rtc.RtcDev.StartCounter | drivers/rtc/rtc-eswin.c:227-234 | the counter is started by the three CCR/CPSR writes in order |
| Rtc.RtcDev.Suspend | drivers/rtc/rtc-eswin.c:259-275 | with wake-up allowed suspend arms the wake-up and records `irq_wake` when that succeeds; otherwise it disables the alarm interrupt and stops the clock; it returns 0 |
| Rtc.RtcDev.Resume | drivers/rtc/rtc-eswin.c:277-295 | with wake-up allowed resume disarms a recorded wake-up and clears `irq_wake`; otherwise it restarts the clock and enables the alarm interrupt; it returns 0 |
| Rtc.SetThenRead | drivers/rtc/rtc-eswin.c:83-124 | an alarm set and read back gives the same time and enabled flag |
| Rtc.WakeCycle | drivers/rtc/rtc-eswin.c:259-295 | a suspend and resume with wake-up allowed leaves `irq_wake` clear and no wake-up armed |
| Rtc.SleepCycle | drivers/rtc/rtc-eswin.c:259-295 | without wake-up, a suspend and resume leaves the clock running and the alarm interrupt enabled |
| EsFb.PlaneSizeExact | drivers/gpu/drm/eswin/es_fb.c:60-83 | when `height * pitch + offset` fits an `unsigned int`, the computed size is the plane's true extent |
| EsFb.PlaneSizeWraps | drivers/gpu/drm/eswin/es_fb.c:60-85 | the `unsigned int` size wraps: a 65536-line plane of pitch 65536 is computed as size 0 |
| EsFb.Lookup | drivers/gpu/drm/eswin/es_fb.c:73-74 | a handle lookup finds an object exactly when the handle is in the file's table |
| EsFb.FirstBad | drivers/gpu/drm/eswin/es_fb.c:72-92 | the plane that ends the loop is the first one whose lookup or size check fails, every earlier plane passing |
| EsFb.Objs | drivers/gpu/drm/eswin/es_fb.c:91 | `objs[j]` is the object plane j's handle names |
| EsFb.ApplyAppend | drivers/gpu/drm/eswin/es_fb.c:73-104 | reference operations compose: applying `a + b` is applying `a` then `b` |
| EsFb.ApplyGets | drivers/gpu/drm/eswin/es_fb.c:73 | taking references to `objs` adds exactly `objs` to the held references |
| EsFb.ApplyPutsRev | drivers/gpu/drm/eswin/es_fb.c:102-105 | dropping `objs` last first, after taking them, restores the held references and never drops one not held |
| EsFb.ApplyGetPut | drivers/gpu/drm/eswin/es_fb.c:73-86 | a reference taken and dropped at once leaves the held references as they were |
| EsFb.CreateRefusesFormat | drivers/gpu/drm/eswin/es_fb.c:64-70 | an unknown format, or one with more planes than MAX_NUM_PLANES, is -EINVAL before any lookup |
| EsFb.CreateSucceeds | drivers/gpu/drm/eswin/es_fb.c:52-108 | `es_fb_create` succeeds exactly when every plane names a large enough object and the framebuffer is allocated and registered; slot i then holds plane i's object and the slots past the plane count are empty |
| EsFb.CreateReferences | drivers/gpu/drm/eswin/es_fb.c:72-107 | on every error path each reference taken is dropped exactly once and none before it was taken; on success the references held are exactly the framebuffer's objects |
| EsFb.SlotIdsPrefix | drivers/gpu/drm/eswin/es_fb.c:32-39 | the filled slots of a zeroed framebuffer, read in order, are the objects stored |
| EsFb.SlotIdsOfSlots | drivers/gpu/drm/eswin/es_fb.c:32-39 | reading back the slots `es_fb_alloc` fills gives its object list |
| EsFb.FbAlloc | drivers/gpu/drm/eswin/es_fb.c:25-50 | `es_fb_alloc` returns -ENOMEM when the allocation fails, else the init result, and a framebuffer holding the objects in its first slots exactly when that is 0 |
| EsFb.GetGemObjAsWrittenPastEnd | drivers/gpu/drm/eswin/es_fb.c:110-117 | as written, `plane == MAX_NUM_PLANES` passes the `>` check and reads past the slot array when MAX_NUM_PLANES is the slot count |
| EsFb.GetGemObj | drivers/gpu/drm/eswin/es_fb.c:110-117 | corrected with `>=`, a lookup never reads past the slots and a plane at or beyond MAX_NUM_PLANES gives no object |
| EsFb.GetGemObjOfCreated | drivers/gpu/drm/eswin/es_fb.c:110-117 | on a framebuffer `es_fb_create` made, the corrected lookup returns plane p's object for each plane of the format and none otherwise, and agrees with the lookup as written except at `plane == MAX_NUM_PLANES` (with lines 38-39) |
| EsFb.DefaultLimits | drivers/gpu/drm/eswin/es_fb.c:130-138 | the mode limits get nonzero maxima: they are kept when both maxima are set, otherwise replaced by 0..4096 in both directions |
| EsFb.DefaultLimitsIdempotent | drivers/gpu/drm/eswin/es_fb.c:130-138 | initialising the limits twice is initialising them once |
| EsFb.EsDrm.constructor | drivers/gpu/drm/eswin/es_fb.c:53-58 | a device holds the given plane limit, handle table and mode limits and has taken no reference |
| EsFb.EsDrm.ModeConfigInit | drivers/gpu/drm/eswin/es_fb.c:130-141 | `es_mode_config_init` sets the limits as the default-limits definition says and takes no reference |
| EsFb.EsDrm.FbCreate | drivers/gpu/drm/eswin/es_fb.c:52-108 | `es_fb_create` returns the framebuffer and result of the reference definition and appends its reference operations to the log |
| EsFb.TakePlanes | drivers/gpu/drm/eswin/es_fb.c:72-92 | the lookup loop keeps the objects of the planes that pass, takes their references, and on the first failure drops a too-small object at once and returns -ENXIO or -EINVAL |
| EsFb.ReleasePlanes | drivers/gpu/drm/eswin/es_fb.c:102-105 | the error loop drops the references from the last plane to the first |
| EsDrv.Raise | drivers/gpu/drm/eswin/es_drv.c:155-162 | the pitch alignment after an update is the larger of the current one and the request |
| EsDrv.RaiseAllIsMax | drivers/gpu/drm/eswin/es_drv.c:155-162 | after any sequence of updates the alignment is the maximum of the initial one and all requests (with line 246) |
| EsDrv.RaiseAllMonotone | drivers/gpu/drm/eswin/es_drv.c:155-162 | further updates never lower the alignment |
| EsDrv.OfProbeResult | drivers/gpu/drm/eswin/es_drv.c:378-426 | `es_drm_platform_of_probe` returns 0 exactly when there is a node and some port's display controller is available, and -ENODEV otherwise |
| EsDrv.IommuAfterOnlyClears | drivers/gpu/drm/eswin/es_drv.c:400-407 | the walk only ever clears `has_iommu`, and walking the same tree again changes nothing (with line 44) |
| EsDrv.OfProbe | drivers/gpu/drm/eswin/es_drv.c:378-426 | the port walk returns the probe result above and leaves `has_iommu` set exactly when it was set and every available controller has an available IOMMU |
| EsDrv.EsDrm.constructor | drivers/gpu/drm/eswin/es_drv.c:246-247 | a device starts with the IOMMU in use, pitch alignment 64, no domain and the DRM device as DMA device (with line 44) |
| EsDrv.EsDrm.PlatformOfProbe | drivers/gpu/drm/eswin/es_drv.c:378-426 | the probe walk on the device updates `has_iommu` and nothing else |
| EsDrv.EsDrm.UpdatePitchAlignment | drivers/gpu/drm/eswin/es_drv.c:155-162 | `es_drm_update_pitch_alignment` raises the alignment to the request when it is larger and changes nothing else |
| EsDrv.EsDrm.IommuAttach | drivers/gpu/drm/eswin/es_drv.c:118-140 | without the IOMMU attach is 0 and a no-op; the first attach fetches the domain, returns a lookup error without attaching, else makes `dev` the DMA device; every attach to a domain returns the attach result |
| EsDrv.EsDrm.IommuDetach | drivers/gpu/drm/eswin/es_drv.c:142-153 | detach detaches from the cached domain and hands the DMA role back to the DRM device when `dev` held it |
| EsDrv.AttachThenDetach | drivers/gpu/drm/eswin/es_drv.c:118-153 | attaching then detaching the first device leaves the domain cached and the DRM device as DMA device |
| EsDrv.SecondAttachJoins | drivers/gpu/drm/eswin/es_drv.c:126-133 | a second device joins the cached domain and does not become the DMA device |
| EsDrv.FailedLookupSticks | drivers/gpu/drm/eswin/es_drv.c:126-133 | a failed domain lookup stays cached as an error pointer, and the next attach does not look again but attaches to it |

## Left out

- Register accessors, I2C transfers, regmap and syscon calls are not modelled as bus traffic. Registers are maps or fields that read back what was last written. The value a read returns, or the failure of a transfer, is a parameter.
- Busy-wait and timeout loops are reduced to their outcome, which is an input. This covers the card-clock stabilisation in `eswin_sdhci_enable_card_clk`, the PCIe auxiliary-clock wait and `readx_poll_timeout` in the HDCP key load. The TBU `qacceptn` poll is the exception: its loop is modelled over the sequence of values the reads return.
- `udelay`, `msleep` and `mdelay` are left out. They only pace the hardware.
- Mutexes, spinlocks, atomics and IRQ threading are left out. Each operation runs as one sequential step.
- Probe, remove and driver-registration plumbing is left out, apart from the policy values probe derives. This plumbing covers clock, reset and regulator acquisition, device-tree parsing and callback tables. The policy values kept are the SDIO tuning fields, the RTC register programming and the TBU table.
- Constants defined in headers outside this model are parameters with the stated assumptions:
  - `PHY_DELAY_CODE_MAX`, `MAX_PHASE_CODE` and `PHY_CLK_MAX_DELAY_MASK`;
  - `SDHCI_CLK_208M`, `SDHCI_CLK_200M`, `MAX_CORE_CLK_DIV` and the core-clock register layout;
  - `MAX_NUM_PLANES`, assumed at most the four framebuffer slots;
  - the `EIC7700_TBUID_*` ids;
  - the I2S `COMP1_*`/`COMP2_*` field extractors, register offsets and `RESOLUTION_*` codes, which become decoded inputs and named registers;
  - the HDMI core's clock-gate and HDCPCFG field constants.
- Library conversions and randomness are inputs:
  - `rtc_time64_to_tm` and `rtc_tm_to_time64`;
  - the HDCP An value from `get_random_bytes`;
  - the FUSB303B time stamp from `local_clock` and the text `vsnprintf` produces;
  - `drm_format_info`, `drm_format_info_plane_height` and `drm_gem_object_lookup`.
- The fixed PHY pad configuration of the SDIO host, CQE setup, clock-provider registration and the SMMU SID writes in probe are left out. So are the I2S PCM, DMA and PIO paths, and the I2S interrupt and DMA enables inside `i2s_start`/`i2s_stop`.
- Hdcp.DwHdcp.Start: the register writes of `dw_hdmi_hdcp1x_start` other than the key load are not recorded. These are the An value, clock gates, HDCPCFG fields and HDCP 2 overrides, whose constants are in the HDMI core's header. So are the HDCP 2 wait loop and the `hdcp2` hand-over in `dw_hdmi_hdcp_start`/`stop`.
- Hdcp.DwHdcp.Stop: the clock-gate and RXDETECT writes of `dw_hdmi_hdcp1x_stop` are not recorded, for the same reason. Only the status change is stated.
- Hdcp.Auth: the NACK counter `trytimes` is a file-scope global in the driver. The model keeps it per instance, which is the same for the single instance the driver supports.
- The HDCP key table is a parameter. It stands for the 320-byte constant array, whose contents are not restated. The `size < HDCP_KEY_SIZE + HDCP_KEY_SEED_SIZE` branch of `hdcp_load_keys_cb` is not modelled: `size` is set to 320 just before it, so the branch can never run.
- `hdcp_status_read`'s "unknown status" text is not modelled: the status is always one of the four states.
- Fusb303b.LogBuffer.Log: the index check before the write is not modelled, because `LogStaysInRange` proves that it never fires.
- Fusb303b.Chip.HandleIrq: acknowledgements are recorded as the bus writes issued. The chip's write-1-to-clear behaviour is not modelled.
- The `fusb303b_log` calls inside the interrupt handler are not part of the handler's model. Only the ring buffer itself is modelled.
- ResetCtrl.ResetSetUnknown: the driver dereferences the missing control in `dev_dbg` before testing it for NULL. The model gives the -EINVAL the test intends.
- Rtc.RtcDev.SetAlarm: the read of CCVR in `eswin_rtc_set_alarm` is not modelled, since its value is never used.
- Rtc.RtcDev.Probe: the result of the routing `regmap_read` is ignored, as in the driver. The reset assert/deassert WARNs and `device_init_wakeup` are not modelled.
- `eswin_rtc_read_time`, `eswin_rtc_set_time` and `eswin_rtc_remove` are not modelled. They are plain pass-throughs of the time conversions.
- I2s.I2sDev.HwParams: the rate is required to be positive, because ALSA never passes a zero rate and the driver divides by it.
- I2s.I2sDev.ConfigureDai: the FIFO-depth field is required to be below 31, so the shift stays within 32 bits.
- Pwm.EswinPwm.constructor: requires a clock period above 0. For a clock rate above 2 GHz, probe stores a period of 0 (pwm-eswin.c:251-252; `ClkPeriodNsNearest` states when). `DIV_ROUND_CLOSEST_ULL` at pwm-eswin.c:105 and 110-111 would then divide by zero. A clock rate of 0 already divides by zero at line 252. Neither division fault is modelled.
- EsDrv.EsDrm.constructor: sets `has_iommu` as module load does. In the driver the flag is a file-scope static (es_drv.c:44) that survives unbind and rebind, so once a probe has cleared it, a later bind keeps it cleared. The model keeps the flag per device instance and starts each instance with it set.
- ResetCtrl.ResetRegister: the register offset `0x400 + dev_id * 4` is not truncated to the 32-bit regmap register. Every id in the binding header is below 0x39, where nothing wraps.
- TbuPower.TbuPowerCtl.GetTbuPriv: with no initialised block for the node (`present` false), the driver dereferences the NULL `syscon_sid_cfg[nid]` in `eic7700_get_tbu_priv` (eic7700-sid.c:574-576) and crashes. The model instead goes on to the -EFAULT test of eic7700-sid.c:420-422, which the driver never reaches from `eic7700_tbu_power`. The crash is not modelled.
- TbuPower.TbuPowerCtl.PowerOneId: inherits the missing NULL-dereference crash of `GetTbuPriv` for an uninitialised node.
- TbuPower.TbuPowerCtl.TbuPowerIds: inherits the missing NULL-dereference crash of `GetTbuPriv` for an uninitialised node. A device with no NUMA node outside CONFIG_NUMA is handled as node 0, which the instance stands for.
- EsDrv.FailedLookupSticks: the error pointer that `es_drm_iommu_attach_device` caches after a failed domain lookup is modelled as written. The model does not state what the IOMMU core does when it is later handed that pointer.
- EsFb.EsDrm.ModeConfigInit: the callback tables `es_mode_config_init` installs are not modelled.
- SDIO tuning: the tuning command is an oracle of statuses indexed by code. The CMD/DATA line reset and the card-clock toggles are recorded as events in the host's log, not as register traffic.
- Hdcp.Group: the device key is taken to start at byte 8 of `struct hdcp_keys`, after an 8-byte KSV field. The header that defines the structure is not part of this model, so this layout is assumed, not read from it. The same assumption carries into `DpkWrites`, `DpkWritesIndex`, `DpkCoversDeviceKeyOnce` and `WriteDeviceKey`.
- SdhciClock.ReprogramField: the masks `MSHC_CORE_CLK_ENABLE`, `MSHC_CORE_CLK_FREQ_BIT_MASK << MSHC_CORE_CLK_FREQ_BIT_SHIFT` and `MSHC_CORE_CLK_SEL_BIT` are defined in a header that is not part of this model. The lemmas require the layout the driver relies on: the three fields do not overlap, and `flag_sel` lies within the SEL bit (`flag & !sel == 0`). For the driver's `flag_sel` of 1, that means SEL is bit 0. These are assumptions about the header, not facts drawn from it.
- SdhciClock.ReprogramSelect: assumes the same register layout as `ReprogramField`.
- SdhciClock.ReprogramKeeps: assumes the same register layout as `ReprogramField`.
- SdhciClock.ProgramGated: assumes the same register layout as `ReprogramField`.
- SdhciClock.CoreClkConfigField: assumes the same register layout as `ReprogramField`.

## Findings

| source | as written | input that shows it | evidently intended | confidence | as-written member | corrected member |
|---|---|---|---|---|---|---|
| drivers/gpu/drm/eswin/dw_hdmi_hdcp.c:827-837 | the KSV/SHA-1 result is checked by OR-ing `val` with `HDMI_A_KSVMEMCTRL_KSV_SHA1_STATUS`, which is never 0, so the "verification succeeded" branch with its engine reset can never run | a KSVMEMCTRL value of 0x00 after a KSV/SHA-1 completion interrupt | test the status bit with `&`: success and the reset exactly when the bit is clear | high; not executed | Hdcp.KsvCheckAsWrittenNeverSucceeds | Hdcp.KsvCheckSeesStatusBit |
| drivers/gpu/drm/eswin/dw_hdmi_hdcp.c:481-485 | when the seed allocation fails, `hdcp->keys` is freed but not reset to NULL, so the next `dw_hdmi_hdcp_load_key` skips the reload and writes freed memory to the controller | the key allocation succeeds and the seed allocation fails | reset the freed pointer, so that any failure leaves no key buffer and the next load retries | high; not executed | Hdcp.LoadKeysCbAsWrittenKeepsFreed | Hdcp.LoadKeysCbOutcome |
| drivers/usb/typec/tcpm/fusb303b.c:581-612 | `interrupt1` is read from `FUSB303B_REG_INTERRUPT` instead of `FUSB303B_REG_INTERRUPT1`, so INTERRUPT1's flags are never acknowledged and INTERRUPT's flags are written into INTERRUPT1 | INTERRUPT = 0x00 and INTERRUPT1 = 0x01: no acknowledgement; INTERRUPT = 0x10 and INTERRUPT1 = 0x00: 0x10 is written to both registers | read INTERRUPT1 from its own register and write each register back with its own flags | high; not executed | Fusb303b.IrqAsWrittenMissesInterrupt1 | Fusb303b.IrqAcknowledgesBothRegisters |
| drivers/gpu/drm/eswin/es_fb.c:113 | `es_fb_get_gem_obj` refuses only `plane > MAX_NUM_PLANES`, so `plane == MAX_NUM_PLANES` reads a slot `es_fb_alloc` never fills, or past the slot array | `plane == MAX_NUM_PLANES` with MAX_NUM_PLANES equal to the four framebuffer slots | refuse `plane >= MAX_NUM_PLANES` | medium (MAX_NUM_PLANES is outside this model); not executed | EsFb.GetGemObjAsWrittenPastEnd | EsFb.GetGemObj |
| drivers/rtc/rtc-eswin.c:198-220 | after `clk_prepare_enable` the driver tests `ret`, which still holds the result of the "clock-frequency" lookup, so a failed clock enable is ignored and a missing property aborts probe with -ENODEV | "clock-frequency" present and `clk_prepare_enable` returning -EIO: probe goes on and programs the counter | test the result of `clk_prepare_enable` | high; not executed | Rtc.ProbeIgnoresEnableFailure | Rtc.ProbeLate |
| drivers/mmc/host/sdhci-eswin.c:171-181 | `if (of_property_read_variable_u32_array(...))` returns early for any non-zero result. On success the call returns the number of cells read, 2, so the device-tree clock phases are never stored | a `clk-phase-*` property with two cells | test for a negative return, so that a successful read stores phase[0] and phase[1] at `timing` | high; not executed | SdhciClock.ReadClkPhaseAsWritten | SdhciClock.ReadClkPhase |
