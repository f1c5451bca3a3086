/**
 * HDCP 1.x support of the DesignWare HDMI transmitter: the masked register
 * update, loading of the device keys into the controller, and the
 * authentication state kept by start, stop, the interrupt handler and the
 * sysfs attributes.
 *
 * Register writes whose field constants live in the HDMI core's header
 * (pixel and HDCP clock gates, HDCPCFG0/1 fields) are not modelled bit by
 * bit; the two the interrupt handler issues are recorded as actions.
 */
module Hdcp {
  import opened CArith

  // ---------------------------------------------------------------------
  // hdcp_modb.

  /** The byte hdcp_modb writes back: `mask` bits from `data`, the rest from the register. */
  function Modb(prev: bv8, data: bv8, mask: bv8): bv8
  {
    (prev & !mask) | (data & mask)
  }

  /** Bits outside the mask keep the register's value; bits inside it take `data`'s. */
  lemma ModbFields(prev: bv8, data: bv8, mask: bv8)
    ensures Modb(prev, data, mask) & !mask == prev & !mask
    ensures Modb(prev, data, mask) & mask == data & mask
  {
  }

  /** A second identical masked update changes nothing. */
  lemma ModbIdempotent(prev: bv8, data: bv8, mask: bv8)
    ensures Modb(Modb(prev, data, mask), data, mask) == Modb(prev, data, mask)
  {
  }

  // ---------------------------------------------------------------------
  // Key material.

  const HDCP_KEY_SIZE := 308
  const HDCP_KEY_SEED_SIZE := 2
  const VENDOR_DATA_SIZE := 320
  /** Offset of `devicekey` in the key buffer: it follows the 8-byte KSV field. */
  const DEVICEKEY_OFFSET := 8
  const DW_HDMI_HDCP_DPK_LEN := 280
  /** Number of seven-byte groups the device key is written in. */
  const DPK_GROUPS := 40

  /**
   * hdcp_load_keys_cb: the keys are the first 308 bytes of the built-in
   * key table and the seeds the two bytes after them; an allocation
   * failure returns -ENOMEM and leaves no key buffer behind.
   */
  function LoadKeysCb(table: seq<bv8>, keysAllocOk: bool, seedsAllocOk: bool)
    : (Option<seq<bv8>>, Option<seq<bv8>>, int)
    requires |table| == VENDOR_DATA_SIZE
  {
    if !keysAllocOk || !seedsAllocOk then (None, None, -ENOMEM)
    else (Some(table[..HDCP_KEY_SIZE]), Some(table[HDCP_KEY_SIZE..HDCP_KEY_SIZE + HDCP_KEY_SEED_SIZE]), 0)
  }

  /** The key buffer pointer as the driver leaves it: a freed buffer is not reset to NULL. */
  datatype KeyBuf = NoKeys | Keys(bytes: seq<bv8>) | Freed

  /** hdcp_load_keys_cb as written: when the seed allocation fails the key buffer is freed but kept. */
  function LoadKeysCbAsWritten(table: seq<bv8>, keysAllocOk: bool, seedsAllocOk: bool)
    : (KeyBuf, Option<seq<bv8>>, int)
    requires |table| == VENDOR_DATA_SIZE
  {
    if !keysAllocOk then (NoKeys, None, -ENOMEM)
    else if !seedsAllocOk then (Freed, None, -ENOMEM)
    else (Keys(table[..HDCP_KEY_SIZE]), Some(table[HDCP_KEY_SIZE..HDCP_KEY_SIZE + HDCP_KEY_SEED_SIZE]), 0)
  }

  /** dw_hdmi_hdcp_load_key reloads only when the key pointer is NULL. */
  predicate NeedsLoad(k: KeyBuf)
  {
    k.NoKeys?
  }

  /**
   * As written, a failed seed allocation leaves a freed key buffer that the
   * next load_key takes for loaded keys, so it writes freed memory to the
   * controller instead of retrying.
   */
  lemma LoadKeysCbAsWrittenKeepsFreed(table: seq<bv8>)
    requires |table| == VENDOR_DATA_SIZE
    ensures LoadKeysCbAsWritten(table, true, false).0 == Freed
    ensures LoadKeysCbAsWritten(table, true, false).2 == -ENOMEM
    ensures !NeedsLoad(LoadKeysCbAsWritten(table, true, false).0)
  {
  }

  /**
   * Corrected: every failure leaves no key buffer, so the next load_key
   * retries; on success the keys are bytes 0..307 and the seeds bytes
   * 308..309 of the table.
   */
  lemma LoadKeysCbOutcome(table: seq<bv8>, keysAllocOk: bool, seedsAllocOk: bool)
    requires |table| == VENDOR_DATA_SIZE
    ensures var (k, s, e) := LoadKeysCb(table, keysAllocOk, seedsAllocOk);
            (e != 0 <==> k.None?) && (e != 0 ==> e == -ENOMEM && s.None?)
    ensures var (k, s, e) := LoadKeysCb(table, keysAllocOk, seedsAllocOk);
            e == 0 ==> |k.value| == HDCP_KEY_SIZE && |s.value| == HDCP_KEY_SEED_SIZE
                       && (forall i :: 0 <= i < HDCP_KEY_SIZE ==> k.value[i] == table[i])
                       && s.value[0] == table[308] && s.value[1] == table[309]
  {
  }

  // ---------------------------------------------------------------------
  // Key writes.

  const HDCPREG_RMCTL: nat := 0x780e
  const HDCPREG_SEED0: nat := 0x7810
  const HDCPREG_SEED1: nat := 0x7811
  const HDCPREG_DPK0: nat := 0x7812
  const HDCPREG_DPK5: nat := 0x7817
  const HDCPREG_DPK6: nat := 0x7818

  datatype Write = Write(addr: nat, data: bv8)

  /** The KSV writes for bytes 4 down to `i`. */
  function KsvWrites(keys: seq<bv8>, i: int): (w: seq<Write>)
    requires 0 <= i <= 5 && |keys| == HDCP_KEY_SIZE
    ensures |w| == 5 - i
    decreases 5 - i
  {
    if i == 5 then [] else KsvWrites(keys, i + 1) + [Write(HDCPREG_DPK0 + i, keys[i])]
  }

  /** The KSV goes out high byte first: byte `4 - q` into DPK`4 - q`. */
  lemma {:induction false} KsvWritesIndex(keys: seq<bv8>, i: int, q: int)
    requires 0 <= i <= 5 && |keys| == HDCP_KEY_SIZE && 0 <= q < 5 - i
    ensures KsvWrites(keys, i)[q] == Write(HDCPREG_DPK0 + 4 - q, keys[4 - q])
    decreases 5 - i
  {
    if q < 4 - i {
      KsvWritesIndex(keys, i + 1, q);
    }
  }

  /**
   * The writes of the device-key group starting at byte `base`: offsets 6
   * down to 0 into DPK6 down to DPK0.
   */
  function Group(keys: seq<bv8>, base: nat): (w: seq<Write>)
    requires DEVICEKEY_OFFSET + base + 7 <= |keys|
    ensures |w| == 7
  {
    var o := DEVICEKEY_OFFSET + base;
    [Write(HDCPREG_DPK0 + 6, keys[o + 6]), Write(HDCPREG_DPK0 + 5, keys[o + 5]), Write(HDCPREG_DPK0 + 4, keys[o + 4]),
     Write(HDCPREG_DPK0 + 3, keys[o + 3]), Write(HDCPREG_DPK0 + 2, keys[o + 2]), Write(HDCPREG_DPK0 + 1, keys[o + 1]),
     Write(HDCPREG_DPK0, keys[o])]
  }

  /** The first `g` device-key groups. */
  function DpkWrites(keys: seq<bv8>, g: nat): (w: seq<Write>)
    requires g <= DPK_GROUPS && |keys| == HDCP_KEY_SIZE
    ensures |w| == 7 * g
  {
    if g == 0 then [] else DpkWrites(keys, g - 1) + Group(keys, 7 * (g - 1))
  }

  /** Position `p` of the device-key writes carries device-key byte `DpkByte(p)`. */
  function DpkByte(p: nat): nat
  {
    7 * (p / 7) + 6 - p % 7
  }

  /**
   * Position `7k + q` of the device-key writes, in group `k`, carries
   * device-key byte `7k + 6 - q` into DPK`6 - q`.
   */
  lemma {:induction false} DpkWritesIndex(keys: seq<bv8>, g: nat, k: nat, q: nat)
    requires g <= DPK_GROUPS && |keys| == HDCP_KEY_SIZE && k < g && q < 7
    ensures DpkWrites(keys, g)[7 * k + q] == Write(HDCPREG_DPK0 + 6 - q, keys[DEVICEKEY_OFFSET + 7 * k + 6 - q])
  {
    var prefix, group := DpkWrites(keys, g - 1), Group(keys, 7 * (g - 1));
    assert DpkWrites(keys, g) == prefix + group;
    if k < g - 1 {
      DpkWritesIndex(keys, g - 1, k, q);
      AppendLeft(prefix, group, 7 * k + q);
    } else {
      assert |prefix| == 7 * k;
      AppendRight(prefix, group, q);
      GroupIndex(keys, 7 * k, q);
    }
  }

  /** Write `q` of a group carries byte `6 - q` of the group into DPK`6 - q`. */
  lemma GroupIndex(keys: seq<bv8>, base: nat, q: nat)
    requires DEVICEKEY_OFFSET + base + 7 <= |keys| && q < 7
    ensures Group(keys, base)[q] == Write(HDCPREG_DPK0 + 6 - q, keys[DEVICEKEY_OFFSET + base + 6 - q])
  {
  }

  lemma AppendLeft<T>(a: seq<T>, b: seq<T>, i: nat)
    requires i < |a|
    ensures (a + b)[i] == a[i]
  {
  }

  lemma AppendRight<T>(a: seq<T>, b: seq<T>, i: nat)
    requires i < |b|
    ensures (a + b)[|a| + i] == b[i]
  {
  }

  /** Quotient and remainder by 7 of a number in `[7k, 7k + 7)`. */
  lemma DivBySeven(p: int, k: int)
    requires 7 * k <= p < 7 * k + 7
    ensures p / 7 == k && p % 7 == p - 7 * k
  {
  }

  /**
   * The forty groups write each of the 280 device-key bytes exactly once:
   * position `p` carries byte `DpkByte(p)`, and `DpkByte` is its own inverse
   * on 0..279.
   */
  lemma DpkCoversDeviceKeyOnce(p: nat)
    requires p < DW_HDMI_HDCP_DPK_LEN
    ensures DpkByte(p) < DW_HDMI_HDCP_DPK_LEN
    ensures DpkByte(DpkByte(p)) == p
  {
    var q, r := p / 7, p % 7;
    DivBySeven(p, q);
    DivBySeven(7 * q + 6 - r, q);
  }

  /** The seed writes: decryption enabled and both seeds, or decryption disabled when there are none. */
  function SeedWrites(seeds: Option<seq<bv8>>): seq<Write>
    requires seeds.Some? ==> |seeds.value| == HDCP_KEY_SEED_SIZE
  {
    match seeds
    case Some(s) => [Write(HDCPREG_RMCTL, 1), Write(HDCPREG_SEED1, s[0]), Write(HDCPREG_SEED0, s[1])]
    case None => [Write(HDCPREG_RMCTL, 0)]
  }

  /**
   * The writes up to the KSV poll: decryption off, DPK6 and DPK5 cleared,
   * then the KSV.
   */
  function KsvPhase(keys: seq<bv8>): seq<Write>
    requires |keys| == HDCP_KEY_SIZE
  {
    [Write(HDCPREG_RMCTL, 0), Write(HDCPREG_DPK6, 0), Write(HDCPREG_DPK5, 0)] + KsvWrites(keys, 0)
  }

  /**
   * The outcome of the completion poll after device-key group `g`. Poll `k`
   * of load_key is `poll(k)`: 0 after the decryption-off write, 1 after the
   * KSV, `2 + g` after group `g`.
   */
  function GroupPoll(poll: nat -> int, g: nat): int
  {
    poll(2 + g)
  }

  /** The first device-key group from `g` on whose poll fails, or DPK_GROUPS when none does. */
  function FirstFail(poll: nat -> int, g: nat): (f: nat)
    requires g <= DPK_GROUPS
    ensures g <= f <= DPK_GROUPS
    ensures f < DPK_GROUPS ==> GroupPoll(poll, f) != 0
    ensures forall h :: g <= h < f ==> GroupPoll(poll, h) == 0
    decreases DPK_GROUPS - g
  {
    if g == DPK_GROUPS then DPK_GROUPS
    else if GroupPoll(poll, g) != 0 then g
    else FirstFail(poll, g + 1)
  }

  /**
   * dw_hdmi_hdcp_load_key once the keys are present: the writes issued and
   * the return value. A width other than 1 or 4 bytes is refused before any
   * write; a poll that times out ends the load with its error.
   */
  function KeyLoad(keys: seq<bv8>, seeds: Option<seq<bv8>>, width: int, poll: nat -> int): (seq<Write>, int)
    requires |keys| == HDCP_KEY_SIZE && (seeds.Some? ==> |seeds.value| == HDCP_KEY_SEED_SIZE)
  {
    if width != 4 && width != 1 then ([], -EPERM)
    else
      var w0 := [Write(HDCPREG_RMCTL, 0)];
      if poll(0) != 0 then (w0, poll(0))
      else
        var w1 := KsvPhase(keys);
        if poll(1) != 0 then (w1, poll(1))
        else
          var (wd, e) := DpkPhase(keys, poll);
          (w1 + SeedWrites(seeds) + wd, e)
  }

  /**
   * The device-key phase of load_key: groups are written until one's poll
   * fails, which ends the phase with that poll's error.
   */
  function DpkPhase(keys: seq<bv8>, poll: nat -> int): (seq<Write>, int)
    requires |keys| == HDCP_KEY_SIZE
  {
    var f := FirstFail(poll, 0);
    if f == DPK_GROUPS then (DpkWrites(keys, DPK_GROUPS), 0)
    else (DpkWrites(keys, f + 1), GroupPoll(poll, f))
  }

  /** The writes of one device-key group, offsets 6 down to 0. */
  method WriteGroup(keys: seq<bv8>, base: nat) returns (out: seq<Write>)
    requires DEVICEKEY_OFFSET + base + 7 <= |keys|
    ensures out == Group(keys, base)
  {
    out := [];
    var j := 6;
    while j >= 0
      invariant -1 <= j <= 6
      invariant out == Group(keys, base)[..6 - j]
    {
      out := out + [Write(HDCPREG_DPK0 + j, keys[DEVICEKEY_OFFSET + base + j])];
      j := j - 1;
    }
  }

  /** The device-key loop of load_key: the writes issued and the last poll's result. */
  method WriteDeviceKey(keys: seq<bv8>, poll: nat -> int) returns (out: seq<Write>, ret: int)
    requires |keys| == HDCP_KEY_SIZE
    ensures (out, ret) == DpkPhase(keys, poll)
  {
    out := [];
    ret := 0;
    var g := 0;  // groups written, which numbers the polls
    var i := 0;
    while i < DW_HDMI_HDCP_DPK_LEN - 6
      invariant 0 <= g <= DPK_GROUPS && i == 7 * g
      invariant g <= FirstFail(poll, 0) && FirstFail(poll, 0) == FirstFail(poll, g)
      invariant out == DpkWrites(keys, g)
      decreases DPK_GROUPS - g
    {
      var group := WriteGroup(keys, i);
      out := out + group;
      ret := poll(2 + g);
      if ret != 0 {
        assert FirstFail(poll, g) == g;
        return;
      }
      g := g + 1;
      i := i + 7;
    }
    assert g == DPK_GROUPS;
    ret := 0;
  }

  /**
   * dw_hdmi_hdcp_load_key once the keys are present, register by register:
   * the writes issued and the return value.
   */
  method WriteKeys(keys: seq<bv8>, seeds: Option<seq<bv8>>, width: int, poll: nat -> int)
    returns (out: seq<Write>, ret: int)
    requires |keys| == HDCP_KEY_SIZE && (seeds.Some? ==> |seeds.value| == HDCP_KEY_SEED_SIZE)
    ensures (out, ret) == KeyLoad(keys, seeds, width, poll)
  {
    if width != 4 && width != 1 {
      return [], -EPERM;
    }
    out := [Write(HDCPREG_RMCTL, 0)];
    ret := poll(0);
    if ret != 0 {
      return;
    }
    out := out + [Write(HDCPREG_DPK6, 0), Write(HDCPREG_DPK5, 0)];
    var i := 4;
    while i >= 0
      invariant -1 <= i <= 4
      invariant out == [Write(HDCPREG_RMCTL, 0), Write(HDCPREG_DPK6, 0), Write(HDCPREG_DPK5, 0)] + KsvWrites(keys, i + 1)
    {
      out := out + [Write(HDCPREG_DPK0 + i, keys[i])];
      i := i - 1;
    }
    ret := poll(1);
    if ret != 0 {
      return;
    }
    if seeds.Some? {
      out := out + [Write(HDCPREG_RMCTL, 1), Write(HDCPREG_SEED1, seeds.value[0]), Write(HDCPREG_SEED0, seeds.value[1])];
    } else {
      out := out + [Write(HDCPREG_RMCTL, 0)];
    }
    var dpk;
    dpk, ret := WriteDeviceKey(keys, poll);
    out := out + dpk;
  }

  /** An unsupported register width is refused with -EPERM and nothing written. */
  lemma KeyLoadBadWidth(keys: seq<bv8>, seeds: Option<seq<bv8>>, width: int, poll: nat -> int)
    requires |keys| == HDCP_KEY_SIZE && (seeds.Some? ==> |seeds.value| == HDCP_KEY_SEED_SIZE)
    requires width != 1 && width != 4
    ensures KeyLoad(keys, seeds, width, poll) == ([], -EPERM)
  {
  }

  /**
   * When every poll succeeds the load returns 0 having written the
   * decryption-off and DPK6/DPK5 clears, the KSV, the seeds and then the
   * whole device key.
   */
  lemma KeyLoadComplete(keys: seq<bv8>, seeds: Option<seq<bv8>>, width: int, poll: nat -> int)
    requires |keys| == HDCP_KEY_SIZE && (seeds.Some? ==> |seeds.value| == HDCP_KEY_SEED_SIZE)
    requires width == 1 || width == 4
    requires poll(0) == 0 && poll(1) == 0
    requires forall g :: 0 <= g < DPK_GROUPS ==> GroupPoll(poll, g) == 0
    ensures KeyLoad(keys, seeds, width, poll)
            == (KsvPhase(keys) + SeedWrites(seeds) + DpkWrites(keys, DPK_GROUPS), 0)
  {
    var f := FirstFail(poll, 0);
    assert f == DPK_GROUPS;
  }

  /** A poll that times out after group `g` ends the load with its error, the groups up to `g` written. */
  lemma KeyLoadGroupTimeout(keys: seq<bv8>, seeds: Option<seq<bv8>>, width: int, poll: nat -> int, g: nat)
    requires |keys| == HDCP_KEY_SIZE && (seeds.Some? ==> |seeds.value| == HDCP_KEY_SEED_SIZE)
    requires width == 1 || width == 4
    requires poll(0) == 0 && poll(1) == 0
    requires g < DPK_GROUPS && GroupPoll(poll, g) != 0
    requires forall h :: 0 <= h < g ==> GroupPoll(poll, h) == 0
    ensures KeyLoad(keys, seeds, width, poll)
            == (KsvPhase(keys) + SeedWrites(seeds) + DpkWrites(keys, g + 1), GroupPoll(poll, g))
  {
    var f := FirstFail(poll, 0);
    assert f == g;
  }

  /** The KSV goes out as bytes 4 down to 0 into DPK4 down to DPK0. */
  lemma KsvOrder(keys: seq<bv8>)
    requires |keys| == HDCP_KEY_SIZE
    ensures KsvWrites(keys, 0) == [Write(HDCPREG_DPK0 + 4, keys[4]), Write(HDCPREG_DPK0 + 3, keys[3]),
                                   Write(HDCPREG_DPK0 + 2, keys[2]), Write(HDCPREG_DPK0 + 1, keys[1]),
                                   Write(HDCPREG_DPK0, keys[0])]
  {
    forall q | 0 <= q < 5
      ensures KsvWrites(keys, 0)[q] == Write(HDCPREG_DPK0 + 4 - q, keys[4 - q])
    {
      KsvWritesIndex(keys, 0, q);
    }
  }

  // ---------------------------------------------------------------------
  // Authentication state.

  datatype Status = Disabled | AuthStart | AuthSuccess | AuthFail

  /** The fields start, stop, the interrupt handler and sysfs share (`trytimes` is a global in the driver). */
  datatype Auth = Auth(enable: bool, status: Status, retryTimes: int, remainingTimes: int, nacks: int)

  /** Register updates of the interrupt handler whose field constants the model does not carry. */
  datatype Action = ResetEngine | DisableEncryption

  /** dw_hdmi_hdcp1x_start's effect on the state; already authenticating or authenticated is a no-op. */
  function StartAuth(a: Auth): (Auth, int)
  {
    if !a.enable then (a, -EPERM)
    else if a.status == AuthStart || a.status == AuthSuccess then (a, 0)
    else (a.(status := AuthStart, remainingTimes := a.retryTimes), 0)
  }

  /** dw_hdmi_hdcp1x_stop's effect on the state. */
  function StopAuth(a: Auth): (Auth, int)
  {
    if !a.enable then (a, -EPERM)
    else (a.(status := Disabled), 0)
  }

  /** start is refused while disabled and otherwise leaves authentication started with a full retry budget. */
  lemma StartOutcome(a: Auth)
    ensures !a.enable ==> StartAuth(a) == (a, -EPERM)
    ensures a.enable ==> StartAuth(a).1 == 0
    ensures a.enable && (a.status == AuthStart || a.status == AuthSuccess) ==> StartAuth(a).0 == a
    ensures a.enable && a.status != AuthStart && a.status != AuthSuccess
            ==> StartAuth(a).0.status == AuthStart && StartAuth(a).0.remainingTimes == a.retryTimes
    ensures StartAuth(a).0.enable == a.enable && StartAuth(a).0.retryTimes == a.retryTimes && StartAuth(a).0.nacks == a.nacks
  {
  }

  /** A second start changes nothing. */
  lemma StartIdempotent(a: Auth)
    ensures StartAuth(StartAuth(a).0) == StartAuth(a)
  {
  }

  /** stop is refused while disabled and otherwise only sets the status to DISABLED. */
  lemma StopOutcome(a: Auth)
    ensures !a.enable ==> StopAuth(a) == (a, -EPERM)
    ensures a.enable ==> StopAuth(a) == (a.(status := Disabled), 0)
  {
  }

  /** The KSV/SHA-1 status check as written: `val | STATUS` is never zero. */
  predicate KsvVerifiedAsWritten(val: bv8)
  {
    val | 0x08 == 0
  }

  /** The check as intended: verification succeeded when the SHA-1 status bit is clear. */
  predicate KsvVerified(val: bv8)
  {
    val & 0x08 == 0
  }

  /** As written, the verification-succeeded branch (the HDCP reset) can never run. */
  lemma KsvCheckAsWrittenNeverSucceeds(val: bv8)
    ensures !KsvVerifiedAsWritten(val)
  {
  }

  /** The NACK count at which HDCP gives up. */
  const NACK_LIMIT := 20

  /**
   * dw_hdmi_hdcp_isr: `hdcpInt` is the interrupt status and `ksvStatus` the
   * KSVMEMCTRL byte it reads for a KSV/SHA-1 completion.
   */
  function Isr(a: Auth, hdcpInt: bv32, ksvStatus: bv8): (Auth, seq<Action>)
  {
    var reset := if hdcpInt & 0x20 != 0 && KsvVerified(ksvStatus) then [ResetEngine] else [];
    if hdcpInt & 0x40 != 0 then
      var r := a.remainingTimes;
      (a.(status := AuthFail, remainingTimes := if r > 1 then r - 1 else r),
       if r == 1 then reset + [DisableEncryption] else reset)
    else if hdcpInt & 0x80 != 0 then
      (a.(status := AuthSuccess), reset)
    else if hdcpInt & 0x10 != 0 then
      if a.nacks + 1 == NACK_LIMIT then (StopAuth(a.(nacks := 0)).0, reset)
      else (a.(nacks := a.nacks + 1), reset)
    else (a, reset)
  }

  /**
   * Corrected, the handler resets the HDCP engine (SWRESET in HDCPCFG1) on a
   * KSV/SHA-1 completion exactly when the SHA-1 status bit of KSVMEMCTRL is
   * clear, that is when the repeater's KSV list verified; no other interrupt
   * resets it.
   */
  lemma KsvCheckSeesStatusBit(a: Auth, hdcpInt: bv32, ksvStatus: bv8)
    ensures hdcpInt & 0x20 != 0 ==> (ResetEngine in Isr(a, hdcpInt, ksvStatus).1 <==> ksvStatus & 0x08 == 0)
    ensures hdcpInt & 0x20 == 0 ==> ResetEngine !in Isr(a, hdcpInt, ksvStatus).1
  {
  }

  /**
   * An authentication failure counts the retry budget down to 1; at 1 it
   * disables encryption instead, and a budget of 0 (unlimited) never changes.
   */
  lemma IsrAuthFail(a: Auth, hdcpInt: bv32, ksvStatus: bv8)
    requires hdcpInt & 0x40 != 0
    ensures Isr(a, hdcpInt, ksvStatus).0.status == AuthFail
    ensures a.remainingTimes > 1 ==> Isr(a, hdcpInt, ksvStatus).0.remainingTimes == a.remainingTimes - 1
    ensures a.remainingTimes <= 1 ==> Isr(a, hdcpInt, ksvStatus).0.remainingTimes == a.remainingTimes
    ensures DisableEncryption in Isr(a, hdcpInt, ksvStatus).1 <==> a.remainingTimes == 1
  {
  }

  /** A success interrupt without the failure bit marks authentication successful. */
  lemma IsrAuthSuccess(a: Auth, hdcpInt: bv32, ksvStatus: bv8)
    requires hdcpInt & 0x40 == 0 && hdcpInt & 0x80 != 0
    ensures Isr(a, hdcpInt, ksvStatus).0 == a.(status := AuthSuccess)
  {
  }

  /**
   * A NACK interrupt alone counts; the twentieth resets the count and stops
   * HDCP. The count therefore stays below the limit.
   */
  lemma IsrNack(a: Auth, hdcpInt: bv32, ksvStatus: bv8)
    requires hdcpInt & 0xC0 == 0 && hdcpInt & 0x10 != 0
    requires 0 <= a.nacks < NACK_LIMIT
    ensures 0 <= Isr(a, hdcpInt, ksvStatus).0.nacks < NACK_LIMIT
    ensures a.nacks + 1 < NACK_LIMIT ==> Isr(a, hdcpInt, ksvStatus).0 == a.(nacks := a.nacks + 1)
    ensures a.nacks + 1 == NACK_LIMIT ==> Isr(a, hdcpInt, ksvStatus).0 == StopAuth(a.(nacks := 0)).0
  {
    assert hdcpInt & 0x40 == 0 && hdcpInt & 0x80 == 0 by {
      NackBits(hdcpInt);
    }
  }

  lemma NackBits(x: bv32)
    requires x & 0xC0 == 0
    ensures x & 0x40 == 0 && x & 0x80 == 0
  {
  }

  /** `n` NACK-only interrupts in a row. */
  function Nacks(a: Auth, n: nat): Auth
    decreases n
  {
    if n == 0 then a else Nacks(Isr(a, 0x10, 0).0, n - 1)
  }

  /**
   * Starting from a zero count with HDCP enabled, twenty NACKs in a row stop
   * HDCP and reset the count.
   */
  lemma {:induction false} TwentyNacksStop(a: Auth, n: nat)
    requires 0 <= a.nacks < NACK_LIMIT && a.nacks + n == NACK_LIMIT && a.enable
    ensures Nacks(a, n) == a.(status := Disabled, nacks := 0)
    decreases n
  {
    var b := Isr(a, 0x10, 0).0;
    if a.nacks + 1 == NACK_LIMIT {
      assert b == a.(status := Disabled, nacks := 0);
      assert Nacks(b, 0) == b;
    } else {
      assert b == a.(nacks := a.nacks + 1);
      TwentyNacksStop(b, n - 1);
    }
  }

  /**
   * hdcp_trytimes_write with the parsed value (`None` when parsing fails):
   * a different value sets both the retry budget and what remains of it.
   */
  function WriteTrytimes(a: Auth, parsed: Option<int>, count: int): (Auth, int)
  {
    match parsed
    case None => (a, -EINVAL)
    case Some(v) => (if a.retryTimes != v then a.(retryTimes := v, remainingTimes := v) else a, count)
  }

  /** After a parsed write the retry budget is the value written; writing it again changes nothing. */
  lemma TrytimesWriteSets(a: Auth, v: int, count: int)
    ensures WriteTrytimes(a, Some(v), count).0.retryTimes == v
    ensures a.retryTimes != v ==> WriteTrytimes(a, Some(v), count).0.remainingTimes == v
    ensures a.retryTimes == v ==> WriteTrytimes(a, Some(v), count).0 == a
    ensures WriteTrytimes(WriteTrytimes(a, Some(v), count).0, Some(v), count) == WriteTrytimes(a, Some(v), count)
    ensures WriteTrytimes(a, None, count) == (a, -EINVAL)
  {
  }

  /**
   * hdcp_enable_write with the parsed value; `hotPlug` is whether an HDCP 2
   * driver is attached and hot-plugged and `hpd` the sink-detect bit.
   */
  function WriteEnable(a: Auth, parsed: Option<bool>, hotPlug: bool, hpd: bool, count: int): (Auth, int)
  {
    match parsed
    case None => (a, -EINVAL)
    case Some(e) =>
      if a.enable == e then (a, count)
      else if e then
        var b := a.(enable := true);
        if hotPlug || !hpd then (b, count) else (StartAuth(b).0, count)
      else
        var b := if a.status != Disabled then StopAuth(a).0 else a;
        (b.(enable := false), count)
  }

  /** Disabling ends with HDCP disabled and DISABLED, whatever the status was. */
  lemma EnableWriteOff(a: Auth, hotPlug: bool, hpd: bool, count: int)
    requires a.enable
    ensures WriteEnable(a, Some(false), hotPlug, hpd, count) == (a.(enable := false, status := Disabled), count)
  {
  }

  /** Enabling with a sink present and no HDCP 2 hot plug starts authentication. */
  lemma EnableWriteOn(a: Auth, hpd: bool, count: int)
    requires !a.enable
    ensures WriteEnable(a, Some(true), false, hpd, count).0.enable
    ensures hpd ==> WriteEnable(a, Some(true), false, hpd, count).0 == StartAuth(a.(enable := true)).0
    ensures !hpd ==> WriteEnable(a, Some(true), false, hpd, count).0 == a.(enable := true)
  {
  }

  /** hdcp_status_read. */
  function StatusText(s: Status): string
  {
    match s
    case Disabled => "hdcp disable\n"
    case AuthStart => "hdcp_auth_start\n"
    case AuthSuccess => "hdcp_auth_success\n"
    case AuthFail => "hdcp_auth_fail\n"
  }

  /** Different states read back as different texts. */
  lemma StatusTextInjective(s: Status, t: Status)
    ensures StatusText(s) == StatusText(t) <==> s == t
  {
    if s != t {
      assert StatusText(s)[5] != StatusText(t)[5] || StatusText(s)[10] != StatusText(t)[10]
          || |StatusText(s)| != |StatusText(t)|;
    }
  }

  /**
   * The key and seed buffers after the load step of dw_hdmi_hdcp_load_key,
   * and its error: present keys are kept, otherwise hdcp_load_keys_cb runs.
   */
  function KeysAfter(keys: Option<seq<bv8>>, seeds: Option<seq<bv8>>, table: seq<bv8>,
                     keysAllocOk: bool, seedsAllocOk: bool): (r: ((Option<seq<bv8>>, Option<seq<bv8>>), int))
    requires |table| == VENDOR_DATA_SIZE
    ensures r.1 == 0 || r.1 == -ENOMEM
    ensures keys.Some? ==> r == ((keys, seeds), 0)
    ensures keys.None? ==> r.0 == (LoadKeysCb(table, keysAllocOk, seedsAllocOk).0, LoadKeysCb(table, keysAllocOk, seedsAllocOk).1)
                           && r.1 == LoadKeysCb(table, keysAllocOk, seedsAllocOk).2
  {
    if keys.Some? then ((keys, seeds), 0)
    else
      var (k, s, e) := LoadKeysCb(table, keysAllocOk, seedsAllocOk);
      ((k, s), e)
  }

  /**
   * Whether dw_hdmi_hdcp1x_start goes on to load the keys: HDCP is enabled,
   * authentication has neither started nor succeeded, and the six key-status
   * bits of `rmsts` are clear.
   */
  predicate StartLoads(a: Auth, rmsts: bv8)
  {
    a.enable && a.status != AuthStart && a.status != AuthSuccess && rmsts & 0x3f == 0
  }

  /** Whether hdcp_enable_write runs dw_hdmi_hdcp1x_start: HDCP turned on, no HDCP 2 hot plug, a sink present. */
  predicate EnableStarts(a: Auth, parsed: Option<bool>, hotPlug: bool, hpd: bool)
  {
    parsed == Some(true) && !a.enable && !hotPlug && hpd
  }

  /** One HDCP 1.x instance: its authentication state, key buffers and the register writes issued. */
  class DwHdcp {
    const regIoWidth: int
    const table: seq<bv8>
    var enable: bool
    var status: Status
    var retryTimes: int
    var remainingTimes: int
    var nacks: int
    var keys: Option<seq<bv8>>
    var seeds: Option<seq<bv8>>
    var writes: seq<Write>
    var actions: seq<Action>

    function State(): Auth
      reads this
    {
      Auth(enable, status, retryTimes, remainingTimes, nacks)
    }

    predicate Valid()
      reads this
    {
      |table| == VENDOR_DATA_SIZE
      && (keys.Some? ==> |keys.value| == HDCP_KEY_SIZE)
      && (seeds.Some? ==> |seeds.value| == HDCP_KEY_SEED_SIZE)
    }

    /**
     * The key buffers and write log are those dw_hdmi_hdcp_load_key leaves
     * when started from buffers `k0`, `s0` and log `w0`: the buffers after
     * the load step, and the key writes appended only when that step succeeded.
     */
    ghost predicate KeysLoadedFrom(k0: Option<seq<bv8>>, s0: Option<seq<bv8>>, w0: seq<Write>,
                                   keysAllocOk: bool, seedsAllocOk: bool, poll: nat -> int)
      reads this
    {
      Valid()
      && var (ks, err) := KeysAfter(k0, s0, table, keysAllocOk, seedsAllocOk);
         (keys, seeds) == ks
         && (err != 0 ==> writes == w0)
         && (err == 0 ==> keys.Some? && writes == w0 + KeyLoad(keys.value, seeds, regIoWidth, poll).0)
    }

    /** Probe: retry budget 0 (unlimited), nothing loaded, HDCP disabled. */
    constructor (regIoWidth: int, table: seq<bv8>)
      requires |table| == VENDOR_DATA_SIZE
      ensures Valid()
      ensures State() == Auth(false, Disabled, 0, 0, 0)
      ensures keys.None? && seeds.None? && writes == [] && actions == []
    {
      this.regIoWidth := regIoWidth;
      this.table := table;
      enable := false;
      status := Disabled;
      retryTimes := 0;
      remainingTimes := 0;
      nacks := 0;
      keys := None;
      seeds := None;
      writes := [];
      actions := [];
    }

    /** dw_hdmi_hdcp_load_key, loading the keys first when there are none. */
    method LoadKey(keysAllocOk: bool, seedsAllocOk: bool, poll: nat -> int) returns (ret: int)
      requires Valid()
      modifies this
      ensures Valid()
      ensures State() == old(State()) && actions == old(actions)
      ensures KeysLoadedFrom(old(keys), old(seeds), old(writes), keysAllocOk, seedsAllocOk, poll)
      ensures KeysAfter(old(keys), old(seeds), table, keysAllocOk, seedsAllocOk).1 != 0 ==> ret == -ENOMEM
      ensures KeysAfter(old(keys), old(seeds), table, keysAllocOk, seedsAllocOk).1 == 0
              ==> ret == KeyLoad(keys.value, seeds, regIoWidth, poll).1
    {
      if keys.None? {
        if !keysAllocOk || !seedsAllocOk {
          keys, seeds := None, None;
          return -ENOMEM;
        }
        keys := Some(table[..HDCP_KEY_SIZE]);
        seeds := Some(table[HDCP_KEY_SIZE..HDCP_KEY_SIZE + HDCP_KEY_SEED_SIZE]);
      }
      var out;
      out, ret := WriteKeys(keys.value, seeds, regIoWidth, poll);
      writes := writes + out;
    }

    /**
     * dw_hdmi_hdcp1x_start. `rmsts` is the key-status register it reads:
     * when its low six bits are clear the keys are loaded first, and the
     * load's result is ignored as in the driver.
     */
    method Start(rmsts: bv8, keysAllocOk: bool, seedsAllocOk: bool, poll: nat -> int) returns (ret: int)
      requires Valid()
      modifies this
      ensures Valid()
      ensures (State(), ret) == StartAuth(old(State()))
      ensures actions == old(actions)
      ensures StartLoads(old(State()), rmsts)
              ==> KeysLoadedFrom(old(keys), old(seeds), old(writes), keysAllocOk, seedsAllocOk, poll)
      ensures !StartLoads(old(State()), rmsts) ==> keys == old(keys) && seeds == old(seeds) && writes == old(writes)
    {
      if !enable {
        return -EPERM;
      }
      if status == AuthStart || status == AuthSuccess {
        return 0;
      }
      if rmsts & 0x3f == 0 {
        var _ := LoadKey(keysAllocOk, seedsAllocOk, poll);
      }
      remainingTimes := retryTimes;
      status := AuthStart;
      ret := 0;
    }

    /** dw_hdmi_hdcp1x_stop. */
    method Stop() returns (ret: int)
      modifies this
      ensures (State(), ret) == StopAuth(old(State()))
      ensures keys == old(keys) && seeds == old(seeds) && writes == old(writes) && actions == old(actions)
    {
      if !enable {
        return -EPERM;
      }
      status := Disabled;
      ret := 0;
    }

    /** dw_hdmi_hdcp_isr, with the KSV/SHA-1 status checked with `&`. */
    method HandleIsr(hdcpInt: bv32, ksvStatus: bv8)
      modifies this
      ensures (State(), actions) == (Isr(old(State()), hdcpInt, ksvStatus).0, old(actions) + Isr(old(State()), hdcpInt, ksvStatus).1)
      ensures keys == old(keys) && seeds == old(seeds) && writes == old(writes)
    {
      assert actions + [] == actions;
      if hdcpInt & 0x20 != 0 {
        if ksvStatus & 0x08 == 0 {
          actions := actions + [ResetEngine];
        }
      }
      assert actions == old(actions) + (if hdcpInt & 0x20 != 0 && KsvVerified(ksvStatus) then [ResetEngine] else []);
      if hdcpInt & 0x40 != 0 {
        status := AuthFail;
        if remainingTimes > 1 {
          remainingTimes := remainingTimes - 1;
        } else if remainingTimes == 1 {
          ghost var reset := actions[|old(actions)|..];
          assert actions == old(actions) + reset;
          actions := actions + [DisableEncryption];
          assert actions == old(actions) + (reset + [DisableEncryption]);
        }
      } else if hdcpInt & 0x80 != 0 {
        status := AuthSuccess;
      } else if hdcpInt & 0x10 != 0 {
        nacks := nacks + 1;
        if nacks == NACK_LIMIT {
          nacks := 0;
          var _ := Stop();
        }
      }
    }

    /** hdcp_trytimes_write. */
    method TrytimesWrite(parsed: Option<int>, count: int) returns (ret: int)
      modifies this
      ensures (State(), ret) == WriteTrytimes(old(State()), parsed, count)
      ensures keys == old(keys) && seeds == old(seeds) && writes == old(writes) && actions == old(actions)
    {
      if parsed.None? {
        return -EINVAL;
      }
      if retryTimes != parsed.value {
        retryTimes := parsed.value;
        remainingTimes := retryTimes;
      }
      ret := count;
    }

    /** hdcp_enable_write; the last four parameters are those of the start it may run. */
    method EnableWrite(parsed: Option<bool>, hotPlug: bool, hpd: bool, count: int,
                       rmsts: bv8, keysAllocOk: bool, seedsAllocOk: bool, poll: nat -> int) returns (ret: int)
      requires Valid()
      modifies this
      ensures Valid()
      ensures (State(), ret) == WriteEnable(old(State()), parsed, hotPlug, hpd, count)
      ensures actions == old(actions)
      ensures EnableStarts(old(State()), parsed, hotPlug, hpd) && StartLoads(old(State()).(enable := true), rmsts)
              ==> KeysLoadedFrom(old(keys), old(seeds), old(writes), keysAllocOk, seedsAllocOk, poll)
      ensures !(EnableStarts(old(State()), parsed, hotPlug, hpd) && StartLoads(old(State()).(enable := true), rmsts))
              ==> keys == old(keys) && seeds == old(seeds) && writes == old(writes)
    {
      if parsed.None? {
        return -EINVAL;
      }
      var e := parsed.value;
      if enable != e {
        if e {
          enable := e;
          if hotPlug {
            return count;
          }
          if hpd {
            var _ := Start(rmsts, keysAllocOk, seedsAllocOk, poll);
          }
        } else {
          if status != Disabled {
            var _ := Stop();
          }
          enable := e;
        }
      }
      ret := count;
    }
  }
}
