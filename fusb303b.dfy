/**
 * FUSB303B USB Type-C port controller: the debug-log ring buffer, the
 * masked register write, the port-role write of start_toggling and the
 * decoding done by the interrupt handler.
 *
 * The I2C bus is outside the model: each transfer's outcome is a parameter
 * (negative means the transfer failed), the chip's registers are a map the
 * reads look up, and every write the driver issues is recorded in order.
 */
module Fusb303b {
  import opened CArith

  // ---------------------------------------------------------------------
  // Debug-log ring buffer.

  const LOG_BUFFER_ENTRIES := 1024
  const LOG_BUFFER_ENTRY_SIZE := 128

  predicate InRange(i: int)
  {
    0 <= i < LOG_BUFFER_ENTRIES
  }

  /** An entry slot: `None` while no memory has been allocated for it. */
  type Slot = Option<string>

  /** What `%s` prints for a slot (the kernel prints "(null)" for a NULL string). */
  function Text(slot: Slot): string
  {
    match slot
    case None => "(null)"
    case Some(s) => s
  }

  /** Formatting into a buffer of LOG_BUFFER_ENTRY_SIZE bytes keeps at most 127 characters. */
  function Truncate(s: string): (t: string)
    ensures |t| < LOG_BUFFER_ENTRY_SIZE && |t| <= |s|
    ensures t == s[..|t|]
    ensures |s| < LOG_BUFFER_ENTRY_SIZE ==> t == s
  {
    if |s| < LOG_BUFFER_ENTRY_SIZE then s else s[..LOG_BUFFER_ENTRY_SIZE - 1]
  }

  /** fusb303b_log_full: the slot after `head` is the oldest unread one. */
  predicate LogFull(head: int, tail: int)
    requires InRange(head)
  {
    tail == (head + 1) % LOG_BUFFER_ENTRIES
  }

  /** Number of unread entries between `tail` and `head`, going round the ring. */
  function Distance(tail: int, head: int): (d: nat)
    requires InRange(tail) && InRange(head)
    ensures d < LOG_BUFFER_ENTRIES
    ensures d == 0 <==> tail == head
  {
    (head - tail) % LOG_BUFFER_ENTRIES
  }

  /** The buffer is full exactly when 1023 entries are unread. */
  lemma LogFullIffAlmostWrapped(head: int, tail: int)
    requires InRange(head) && InRange(tail)
    ensures LogFull(head, tail) <==> Distance(tail, head) == LOG_BUFFER_ENTRIES - 1
  {
  }

  /** The ring position `i` places after position `t`. */
  function RingIndex(t: int, i: int): (j: int)
    ensures InRange(j)
  {
    (t + i) % LOG_BUFFER_ENTRIES
  }

  /** The slot `i` places after slot `t`, going round the ring. */
  function SlotAt(slots: seq<Slot>, t: int, i: int): Slot
    requires |slots| == LOG_BUFFER_ENTRIES
  {
    slots[RingIndex(t, i)]
  }

  /** Stepping once from position `i` after `t` reaches position `i + 1` after `t`. */
  lemma RingStep(t: int, i: int)
    ensures RingIndex(RingIndex(t, i), 1) == RingIndex(t, i + 1)
    ensures RingIndex(RingIndex(t, 1), i) == RingIndex(t, i + 1)
  {
    ModShift(t + i, 1);
    ModShift(t + 1, i);
  }

  /** Reducing the first summand modulo the ring size does not change the sum modulo it. */
  lemma ModShift(x: int, y: int)
    ensures (x % LOG_BUFFER_ENTRIES + y) % LOG_BUFFER_ENTRIES == (x + y) % LOG_BUFFER_ENTRIES
  {
    var q := x / LOG_BUFFER_ENTRIES;
    assert x % LOG_BUFFER_ENTRIES + y == (x + y) - q * LOG_BUFFER_ENTRIES;
    ModMultiple(x + y, q);
  }

  /** Subtracting a multiple of the ring size does not change the remainder. */
  lemma ModMultiple(z: int, q: int)
    ensures (z - q * LOG_BUFFER_ENTRIES) % LOG_BUFFER_ENTRIES == z % LOG_BUFFER_ENTRIES
  {
  }

  /** Walking `Distance(t, h)` steps from `t` reaches `h`, and no earlier step does. */
  lemma RingReach(t: int, h: int, i: int)
    requires InRange(t) && InRange(h)
    ensures RingIndex(t, Distance(t, h)) == h
    ensures 0 <= i < Distance(t, h) ==> RingIndex(t, i) != h
  {
  }

  /** Advancing the reader shortens the unread stretch by one. */
  lemma AdvanceTail(t: int, h: int)
    requires InRange(t) && InRange(h) && t != h
    ensures Distance(RingIndex(t, 1), h) == Distance(t, h) - 1
  {
  }

  /** Advancing the writer of a buffer that is not full lengthens it by one. */
  lemma AdvanceHead(t: int, h: int)
    requires InRange(t) && InRange(h) && !LogFull(h, t)
    ensures Distance(t, RingIndex(h, 1)) == Distance(t, h) + 1
  {
    if h + 1 == LOG_BUFFER_ENTRIES {
      assert RingIndex(h, 1) == 0 && t != 0;
      assert Distance(t, 0) == LOG_BUFFER_ENTRIES - t;
    } else {
      assert RingIndex(h, 1) == h + 1 && t != h + 1;
    }
  }

  /** `n` entries read from the ring starting at slot `t`. */
  function PendingN(slots: seq<Slot>, t: int, n: nat): (r: seq<string>)
    requires |slots| == LOG_BUFFER_ENTRIES && InRange(t)
    ensures |r| == n
    decreases n
  {
    if n == 0 then [] else [Text(slots[t])] + PendingN(slots, RingIndex(t, 1), n - 1)
  }

  /** The unread entries, oldest first: what debug_show prints. */
  function Pending(slots: seq<Slot>, tail: int, head: int): seq<string>
    requires |slots| == LOG_BUFFER_ENTRIES && InRange(tail) && InRange(head)
  {
    PendingN(slots, tail, Distance(tail, head))
  }

  /** Entry `i` of a read is the slot `i` places after its start. */
  lemma {:induction false} PendingNIndex(slots: seq<Slot>, t: int, n: nat, i: nat)
    requires |slots| == LOG_BUFFER_ENTRIES && InRange(t) && i < n
    ensures PendingN(slots, t, n)[i] == Text(SlotAt(slots, t, i))
    decreases n
  {
    if i > 0 {
      PendingNIndex(slots, RingIndex(t, 1), n - 1, i - 1);
      RingStep(t, i - 1);
    } else {
      assert RingIndex(t, 0) == t;
    }
  }

  /** Reading one more entry appends the slot that follows the ones already read. */
  lemma PendingNSnoc(slots: seq<Slot>, t: int, n: nat)
    requires |slots| == LOG_BUFFER_ENTRIES && InRange(t)
    ensures PendingN(slots, t, n + 1) == PendingN(slots, t, n) + [Text(SlotAt(slots, t, n))]
  {
    var a := PendingN(slots, t, n + 1);
    var b := PendingN(slots, t, n) + [Text(SlotAt(slots, t, n))];
    forall i | 0 <= i < n + 1
      ensures a[i] == b[i]
    {
      PendingNIndex(slots, t, n + 1, i);
      if i < n {
        PendingNIndex(slots, t, n, i);
      }
    }
  }

  /** A read of `n` entries depends only on the `n` slots it visits. */
  lemma PendingNFrame(slots: seq<Slot>, other: seq<Slot>, t: int, n: nat)
    requires |slots| == LOG_BUFFER_ENTRIES && |other| == LOG_BUFFER_ENTRIES && InRange(t)
    requires forall i :: 0 <= i < n ==> SlotAt(slots, t, i) == SlotAt(other, t, i)
    ensures PendingN(slots, t, n) == PendingN(other, t, n)
  {
    forall i | 0 <= i < n
      ensures PendingN(slots, t, n)[i] == PendingN(other, t, n)[i]
    {
      PendingNIndex(slots, t, n, i);
      PendingNIndex(other, t, n, i);
    }
  }

  /**
   * _fusb303b_log, with `stamp` the formatted "[seconds.micros] " prefix
   * (the clock is outside the model) and `allocOk` whether the entry's
   * allocation succeeds when the slot at `head` has none. The result is
   * the new slots and the new `head`; `tail` is never changed here.
   * The index check at lines 188-192 is not written: the new head is
   * `head` or `max(head - 1, 0)`, so it is always in range.
   */
  function LogSpec(slots: seq<Slot>, head: int, tail: int, text: string, stamp: string, allocOk: bool)
    : (seq<Slot>, int)
    requires |slots| == LOG_BUFFER_ENTRIES && InRange(head)
  {
    if slots[head].None? && !allocOk then (slots, head)
    else
      var s1 := if slots[head].None? then slots[head := Some("")] else slots;
      var full := LogFull(head, tail);
      var h1 := if full then (if head - 1 > 0 then head - 1 else 0) else head;
      var msg := if full then "overflow" else Truncate(text);
      if s1[h1].None? then (s1, h1)
      else (s1[h1 := Some(Truncate(stamp + msg))], RingIndex(h1, 1))
  }

  /** The entry a successful log call stores. */
  function Entry(stamp: string, msg: string): string
  {
    Truncate(stamp + Truncate(msg))
  }

  /** Logging keeps the ring's size and its head in range. */
  lemma LogStaysInRange(slots: seq<Slot>, head: int, tail: int, text: string, stamp: string, allocOk: bool)
    requires |slots| == LOG_BUFFER_ENTRIES && InRange(head)
    ensures |LogSpec(slots, head, tail, text, stamp, allocOk).0| == LOG_BUFFER_ENTRIES
    ensures InRange(LogSpec(slots, head, tail, text, stamp, allocOk).1)
  {
  }

  /** When the slot at `head` has no memory and allocation fails, nothing changes. */
  lemma LogAllocFailure(slots: seq<Slot>, head: int, tail: int, text: string, stamp: string)
    requires |slots| == LOG_BUFFER_ENTRIES && InRange(head) && slots[head].None?
    ensures LogSpec(slots, head, tail, text, stamp, false) == (slots, head)
  {
  }

  /**
   * Below capacity a log call stores its entry in the slot at `head` and
   * advances `head` round the ring.
   */
  lemma LogAppends(slots: seq<Slot>, head: int, tail: int, text: string, stamp: string, allocOk: bool)
    requires |slots| == LOG_BUFFER_ENTRIES && InRange(head) && InRange(tail)
    requires !LogFull(head, tail)
    requires slots[head].Some? || allocOk
    ensures LogSpec(slots, head, tail, text, stamp, allocOk)
            == (slots[head := Some(Entry(stamp, text))], RingIndex(head, 1))
  {
    assert slots[head := Some("")][head := Some(Entry(stamp, text))] == slots[head := Some(Entry(stamp, text))];
  }

  /**
   * Storing an entry at `head` of a buffer that is not full and advancing
   * `head` is a FIFO append: the unread entries are the old ones followed
   * by the new one.
   */
  lemma AppendPending(slots: seq<Slot>, head: int, tail: int, x: Slot)
    requires |slots| == LOG_BUFFER_ENTRIES && InRange(head) && InRange(tail)
    requires !LogFull(head, tail)
    ensures Pending(slots[head := x], tail, RingIndex(head, 1)) == Pending(slots, tail, head) + [Text(x)]
  {
    var after := slots[head := x];
    var d := Distance(tail, head);
    AdvanceHead(tail, head);
    RingReach(tail, head, 0);
    PendingNSnoc(after, tail, d);
    forall i | 0 <= i < d
      ensures SlotAt(after, tail, i) == SlotAt(slots, tail, i)
    {
      RingReach(tail, head, i);
    }
    PendingNFrame(after, slots, tail, d);
  }

  /**
   * When the buffer is full and `head` is not 0, the newest entry is
   * replaced by "overflow", `head` stays where it was and the buffer stays full.
   */
  lemma LogOverflowReplacesNewest(slots: seq<Slot>, head: int, tail: int, text: string, stamp: string, allocOk: bool)
    requires |slots| == LOG_BUFFER_ENTRIES && InRange(head) && 0 < head
    requires LogFull(head, tail)
    requires slots[head].Some? || allocOk
    requires slots[head - 1].Some?
    ensures LogSpec(slots, head, tail, text, stamp, allocOk).1 == head
    ensures LogSpec(slots, head, tail, text, stamp, allocOk).0[head - 1] == Some(Entry(stamp, "overflow"))
    ensures LogFull(LogSpec(slots, head, tail, text, stamp, allocOk).1, tail)
  {
  }

  /**
   * When the buffer is full with `head` at 0, the clamp keeps `head` at 0,
   * the entry lands in slot 0 and `head` moves to 1, which is `tail`: every
   * unread entry is then lost from view and the buffer reads as empty.
   */
  lemma LogOverflowAtZeroEmpties(slots: seq<Slot>, tail: int, text: string, stamp: string, allocOk: bool)
    requires |slots| == LOG_BUFFER_ENTRIES && InRange(tail)
    requires LogFull(0, tail)
    requires slots[0].Some? || allocOk
    ensures LogSpec(slots, 0, tail, text, stamp, allocOk).1 == tail
    ensures Pending(LogSpec(slots, 0, tail, text, stamp, allocOk).0, tail, tail) == []
    ensures |Pending(slots, tail, 0)| == LOG_BUFFER_ENTRIES - 1
  {
  }

  /** The log buffer of one chip (its `logbuffer_*` fields). */
  class LogBuffer {
    const slots: array<Slot>
    var head: int
    var tail: int

    predicate Valid()
      reads this
    {
      slots.Length == LOG_BUFFER_ENTRIES && InRange(head) && InRange(tail)
    }

    /** The chip structure is zero-allocated: no slot has memory and the buffer is empty. */
    constructor ()
      ensures Valid() && fresh(slots)
      ensures head == 0 && tail == 0
      ensures forall i :: 0 <= i < slots.Length ==> slots[i] == None
    {
      slots := new Slot[LOG_BUFFER_ENTRIES](_ => None);
      head := 0;
      tail := 0;
    }

    /** _fusb303b_log. */
    method Log(text: string, stamp: string, allocOk: bool)
      requires Valid()
      modifies this, slots
      ensures Valid()
      ensures (slots[..], head) == LogSpec(old(slots[..]), old(head), old(tail), text, stamp, allocOk)
      ensures tail == old(tail)
    {
      ghost var before := slots[..];
      if slots[head].None? {
        if !allocOk {
          return;
        }
        slots[head] := Some("");
      }
      var msg := Truncate(text);
      if LogFull(head, tail) {
        head := if head - 1 > 0 then head - 1 else 0;
        msg := "overflow";
      }
      if slots[head].None? {
        return;
      }
      slots[head] := Some(Truncate(stamp + msg));
      head := RingIndex(head, 1);
    }

    /**
     * fusb303b_debug_show: prints the unread entries oldest first and marks
     * them read unless the output buffer overflowed (`overflowed`).
     */
    method DebugShow(overflowed: bool) returns (out: seq<string>)
      requires Valid()
      modifies this
      ensures Valid()
      ensures out == Pending(slots[..], old(tail), head)
      ensures head == old(head)
      ensures tail == if overflowed then old(tail) else head
    {
      var t0, h := tail, head;
      var t := t0;
      var k := 0;
      out := [];
      while t != h
        invariant InRange(t) && head == h && tail == t0
        invariant k + Distance(t, h) == Distance(t0, h)
        invariant t == RingIndex(t0, k)
        invariant out == PendingN(slots[..], t0, k)
        decreases Distance(t, h)
      {
        PendingNSnoc(slots[..], t0, k);
        AdvanceTail(t, h);
        RingStep(t0, k);
        out := out + [Text(slots[t])];
        t := RingIndex(t, 1);
        k := k + 1;
      }
      if !overflowed {
        tail := t;
      }
    }
  }

  // ---------------------------------------------------------------------
  // Registers.

  const REG_PORTROLE: nat := 0x3
  const REG_CONTROL: nat := 0x4
  const REG_STATUS: nat := 0x11
  const REG_INTERRUPT: nat := 0x14
  const REG_INTERRUPT1: nat := 0x15

  const PORTROLE_DRP: bv8 := 0x4
  const PORTROLE_SINK: bv8 := 0x2
  const PORTROLE_SOURCE: bv8 := 0x1

  const STATUS_VBUSOK: bv8 := 0x8
  const STATUS_MASK: bv8 := 0x30
  const INT_I_VBUS_CHG: bv8 := 0x10

  /** A chip register as last known; registers never written read as 0. */
  function Reg(regs: map<nat, bv8>, addr: nat): bv8
  {
    if addr in regs then regs[addr] else 0
  }

  /** The byte fusb303b_i2c_mask_write writes: `mask` bits cleared, then `value` or-ed in unmasked. */
  function MaskedByte(prev: bv8, mask: bv8, value: bv8): bv8
  {
    (prev & !mask) | value
  }

  /**
   * Bits outside `mask` keep their old value unless `value` sets them;
   * bits inside `mask` take `value`'s bits; with value 0 (clear_bits) only the
   * masked bits clear.
   */
  lemma MaskedByteFields(prev: bv8, mask: bv8, value: bv8)
    ensures ((prev & !mask) | value) & mask == value & mask
    ensures ((prev & !mask) | value) & !mask == (prev | value) & !mask
    ensures ((prev & !mask) | 0) == prev & !mask
  {
  }

  /** One bus write: recorded whatever its outcome, stored in the chip only when it succeeds. */
  datatype Write = Write(addr: nat, data: bv8)

  /** fusb303b_i2c_mask_write: new registers, writes issued, return value. */
  function MaskWriteSpec(regs: map<nat, bv8>, addr: nat, mask: bv8, value: bv8, readErr: int, writeErr: int)
    : (map<nat, bv8>, seq<Write>, int)
  {
    if readErr < 0 then (regs, [], readErr)
    else
      var data := MaskedByte(Reg(regs, addr), mask, value);
      if writeErr < 0 then (regs, [Write(addr, data)], writeErr)
      else (regs[addr := data], [Write(addr, data)], 0)
  }

  /** A failed read issues no write and returns the read's error. */
  lemma MaskWriteReadFailure(regs: map<nat, bv8>, addr: nat, mask: bv8, value: bv8, readErr: int, writeErr: int)
    requires readErr < 0
    ensures MaskWriteSpec(regs, addr, mask, value, readErr, writeErr).1 == []
    ensures MaskWriteSpec(regs, addr, mask, value, readErr, writeErr).2 == readErr
  {
  }

  /** A successful mask write changes only `addr`, and only its masked bits and the bits `value` sets. */
  lemma MaskWriteChangesOnlyMasked(regs: map<nat, bv8>, addr: nat, mask: bv8, value: bv8, other: nat)
    requires other != addr
    ensures Reg(MaskWriteSpec(regs, addr, mask, value, 0, 0).0, other) == Reg(regs, other)
    ensures Reg(MaskWriteSpec(regs, addr, mask, value, 0, 0).0, addr) & mask == value & mask
    ensures Reg(MaskWriteSpec(regs, addr, mask, value, 0, 0).0, addr) & !mask == (Reg(regs, addr) | value) & !mask
    ensures MaskWriteSpec(regs, addr, mask, value, 0, 0).2 == 0
  {
    var w := Reg(MaskWriteSpec(regs, addr, mask, value, 0, 0).0, addr);
    assert w == MaskedByte(Reg(regs, addr), mask, value);
    MaskedByteAt(Reg(regs, addr), mask, value, w);
  }

  lemma MaskedByteAt(prev: bv8, mask: bv8, value: bv8, w: bv8)
    requires w == MaskedByte(prev, mask, value)
    ensures w & mask == value & mask
    ensures w & !mask == (prev | value) & !mask
  {
  }

  /** The Type-C port types start_toggling distinguishes. */
  datatype PortType = Src | Snk | Drp

  /** The PORTROLE byte start_toggling writes. */
  function PortRole(t: PortType): (v: bv8)
  {
    match t
    case Drp => PORTROLE_DRP
    case Src => PORTROLE_SOURCE
    case Snk => PORTROLE_SINK
  }

  /** Each port type selects exactly one PORTROLE bit, and different types different bits. */
  lemma PortRoleOneHot(t: PortType, u: PortType)
    ensures PortRole(t) != 0 && PortRole(t) & (PortRole(t) - 1) == 0
    ensures PortRole(t) & 0xF8 == 0
    ensures PortRole(t) == PortRole(u) <==> t == u
  {
  }

  datatype Polarity = CC1 | CC2

  /** What one run of the interrupt handler leaves behind. */
  datatype IrqEffect = IrqEffect(
    vbusPresent: bool,
    polarity: Polarity,
    vbusChanged: bool,   // tcpm_vbus_change called
    ccChanged: bool,     // tcpm_cc_change called
    acks: seq<Write>)    // write-back of the interrupt flags

  /** Bits 5:4 of STATUS: 1 is a connection on CC1, 2 on CC2. */
  function CcStatus(status: bv8): (cc: bv8)
    ensures cc < 4
  {
    (status & STATUS_MASK) >> 4
  }

  /**
   * fusb303b_irq, reading the second flag byte from `int1Addr`. The three
   * reads' outcomes are `readErrs`; a failed read ends the handler with no
   * effect. The write-backs' results are ignored by the handler.
   */
  function IrqFrom(int1Addr: nat, regs: map<nat, bv8>, vbusPresent: bool, polarity: Polarity,
                   readErr0: int, readErr1: int, readErr2: int): IrqEffect
  {
    if readErr0 < 0 || readErr1 < 0 || readErr2 < 0 then IrqEffect(vbusPresent, polarity, false, false, [])
    else
      var interrupt := Reg(regs, REG_INTERRUPT);
      var interrupt1 := Reg(regs, int1Addr);
      var status := Reg(regs, REG_STATUS);
      var chg := interrupt & INT_I_VBUS_CHG != 0;
      var vbus := if chg then status & STATUS_VBUSOK != 0 else vbusPresent;
      var cc := CcStatus(status);
      var pol := if cc == 1 then CC1 else if cc == 2 then CC2 else polarity;
      var acks := (if interrupt != 0 then [Write(REG_INTERRUPT, interrupt)] else [])
                + (if interrupt1 != 0 then [Write(REG_INTERRUPT1, interrupt1)] else []);
      IrqEffect(vbus, pol, chg && vbus != vbusPresent, cc == 1 || cc == 2, acks)
  }

  /** The handler as written: the second flag byte is read from INTERRUPT again. */
  function IrqAsWritten(regs: map<nat, bv8>, vbusPresent: bool, polarity: Polarity,
                        readErr0: int, readErr1: int, readErr2: int): IrqEffect
  {
    IrqFrom(REG_INTERRUPT, regs, vbusPresent, polarity, readErr0, readErr1, readErr2)
  }

  /** The handler with the second flag byte read from INTERRUPT1, as its name says. */
  function Irq(regs: map<nat, bv8>, vbusPresent: bool, polarity: Polarity,
               readErr0: int, readErr1: int, readErr2: int): IrqEffect
  {
    IrqFrom(REG_INTERRUPT1, regs, vbusPresent, polarity, readErr0, readErr1, readErr2)
  }

  /**
   * As written, a pending INTERRUPT1 flag is never acknowledged when
   * INTERRUPT is clear, and INTERRUPT's flags are written into INTERRUPT1.
   */
  lemma IrqAsWrittenMissesInterrupt1()
    ensures IrqAsWritten(map[REG_INTERRUPT := 0, REG_INTERRUPT1 := 0x1], false, CC1, 0, 0, 0).acks == []
    ensures IrqAsWritten(map[REG_INTERRUPT := 0x10, REG_INTERRUPT1 := 0], false, CC1, 0, 0, 0).acks
            == [Write(REG_INTERRUPT, 0x10), Write(REG_INTERRUPT1, 0x10)]
  {
  }

  /** Corrected: each flag register is written back with exactly its own pending flags, when it has any. */
  lemma IrqAcknowledgesBothRegisters(regs: map<nat, bv8>, vbusPresent: bool, polarity: Polarity)
    ensures Write(REG_INTERRUPT, Reg(regs, REG_INTERRUPT)) in Irq(regs, vbusPresent, polarity, 0, 0, 0).acks
            <==> Reg(regs, REG_INTERRUPT) != 0
    ensures Write(REG_INTERRUPT1, Reg(regs, REG_INTERRUPT1)) in Irq(regs, vbusPresent, polarity, 0, 0, 0).acks
            <==> Reg(regs, REG_INTERRUPT1) != 0
    ensures forall w :: w in Irq(regs, vbusPresent, polarity, 0, 0, 0).acks ==> w.data == Reg(regs, w.addr) != 0
  {
  }

  /**
   * vbus_present changes only on a VBUS_CHG interrupt, and then becomes the
   * VBUSOK status bit; tcpm_vbus_change fires exactly when it changes.
   */
  lemma IrqVbus(regs: map<nat, bv8>, vbusPresent: bool, polarity: Polarity, e0: int, e1: int, e2: int)
    ensures var r := Irq(regs, vbusPresent, polarity, e0, e1, e2);
            r.vbusChanged <==> r.vbusPresent != vbusPresent
    ensures var r := Irq(regs, vbusPresent, polarity, e0, e1, e2);
            r.vbusPresent != vbusPresent ==> Reg(regs, REG_INTERRUPT) & INT_I_VBUS_CHG != 0
    ensures e0 >= 0 && e1 >= 0 && e2 >= 0 && Reg(regs, REG_INTERRUPT) & INT_I_VBUS_CHG != 0 ==>
            Irq(regs, vbusPresent, polarity, e0, e1, e2).vbusPresent == (Reg(regs, REG_STATUS) & STATUS_VBUSOK != 0)
  {
  }

  /** Status bits 5:4 equal to 1 select CC1 and 2 select CC2; any other value keeps the polarity. */
  lemma IrqPolarity(regs: map<nat, bv8>, vbusPresent: bool, polarity: Polarity)
    ensures var r := Irq(regs, vbusPresent, polarity, 0, 0, 0);
            var cc := Reg(regs, REG_STATUS) & 0x30;
            (cc == 0x10 ==> r.polarity == CC1 && r.ccChanged)
            && (cc == 0x20 ==> r.polarity == CC2 && r.ccChanged)
            && (cc != 0x10 && cc != 0x20 ==> r.polarity == polarity && !r.ccChanged)
  {
    var status := Reg(regs, REG_STATUS);
    CcStatusValues(status);
  }

  lemma CcStatusValues(status: bv8)
    ensures (status & 0x30 == 0x10) <==> ((status & 0x30) >> 4 == 1)
    ensures (status & 0x30 == 0x20) <==> ((status & 0x30) >> 4 == 2)
  {
  }

  /** A failed read leaves every piece of driver state as it was and writes nothing. */
  lemma IrqReadFailure(regs: map<nat, bv8>, vbusPresent: bool, polarity: Polarity, e0: int, e1: int, e2: int)
    requires e0 < 0 || e1 < 0 || e2 < 0
    ensures Irq(regs, vbusPresent, polarity, e0, e1, e2) == IrqEffect(vbusPresent, polarity, false, false, [])
  {
  }

  /** The chip's port state and the bus traffic the driver generates. */
  class Chip {
    var regs: map<nat, bv8>
    var writes: seq<Write>
    var vbusPresent: bool
    var polarity: Polarity
    var vbusEvents: nat
    var ccEvents: nat

    constructor (regs: map<nat, bv8>)
      ensures this.regs == regs && writes == []
      ensures !vbusPresent && polarity == CC1 && vbusEvents == 0 && ccEvents == 0
    {
      this.regs := regs;
      writes := [];
      vbusPresent := false;
      polarity := CC1;
      vbusEvents := 0;
      ccEvents := 0;
    }

    /** fusb303b_i2c_mask_write. */
    method MaskWrite(addr: nat, mask: bv8, value: bv8, readErr: int, writeErr: int) returns (ret: int)
      modifies this
      ensures var (r, w, e) := MaskWriteSpec(old(regs), addr, mask, value, readErr, writeErr);
              regs == r && writes == old(writes) + w && ret == e
      ensures vbusPresent == old(vbusPresent) && polarity == old(polarity)
      ensures vbusEvents == old(vbusEvents) && ccEvents == old(ccEvents)
    {
      if readErr < 0 {
        return readErr;
      }
      var data := MaskedByte(Reg(regs, addr), mask, value);
      writes := writes + [Write(addr, data)];
      if writeErr < 0 {
        return writeErr;
      }
      regs := regs[addr := data];
      ret := 0;
    }

    /** tcpm_start_toggling: writes the port role for `portType`. */
    method StartToggling(portType: PortType, writeErr: int) returns (ret: int)
      modifies this
      ensures writes == old(writes) + [Write(REG_PORTROLE, PortRole(portType))]
      ensures regs == if writeErr < 0 then old(regs) else old(regs)[REG_PORTROLE := PortRole(portType)]
      ensures ret == if writeErr < 0 then writeErr else 0
      ensures vbusPresent == old(vbusPresent) && polarity == old(polarity)
      ensures vbusEvents == old(vbusEvents) && ccEvents == old(ccEvents)
    {
      var role: bv8;
      match portType {
        case Drp => role := PORTROLE_DRP;
        case Src => role := PORTROLE_SOURCE;
        case Snk => role := PORTROLE_SINK;
      }
      writes := writes + [Write(REG_PORTROLE, role)];
      if writeErr < 0 {
        return writeErr;
      }
      regs := regs[REG_PORTROLE := role];
      ret := 0;
    }

    /** fusb303b_irq, with the second flag byte read from INTERRUPT1. */
    method HandleIrq(readErr0: int, readErr1: int, readErr2: int)
      modifies this
      ensures var r := Irq(old(regs), old(vbusPresent), old(polarity), readErr0, readErr1, readErr2);
              vbusPresent == r.vbusPresent && polarity == r.polarity && writes == old(writes) + r.acks
              && vbusEvents == old(vbusEvents) + (if r.vbusChanged then 1 else 0)
              && ccEvents == old(ccEvents) + (if r.ccChanged then 1 else 0)
      ensures regs == old(regs)
    {
      if readErr0 < 0 {
        return;
      }
      var interrupt := Reg(regs, REG_INTERRUPT);
      if readErr1 < 0 {
        return;
      }
      var interrupt1 := Reg(regs, REG_INTERRUPT1);
      if readErr2 < 0 {
        return;
      }
      var status := Reg(regs, REG_STATUS);
      if interrupt & INT_I_VBUS_CHG != 0 {
        var present := status & STATUS_VBUSOK != 0;
        if present != vbusPresent {
          vbusPresent := present;
          vbusEvents := vbusEvents + 1;
        }
      }
      var cc := CcStatus(status);
      if cc == 1 {
        polarity := CC1;
        ccEvents := ccEvents + 1;
      } else if cc == 2 {
        polarity := CC2;
        ccEvents := ccEvents + 1;
      }
      if interrupt != 0 {
        writes := writes + [Write(REG_INTERRUPT, interrupt)];
      }
      if interrupt1 != 0 {
        writes := writes + [Write(REG_INTERRUPT1, interrupt1)];
      }
    }
  }
}
