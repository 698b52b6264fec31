/** The 64-bit pin word that the board passes between its chips each cycle.

    The bit positions are those of the chip headers m6502.h, m6522.h and
    m6561.h (not part of this model): the three chips share the address bus
    (bits 0-15), the data bus (bits 16-23), the RW line (bit 24) and the
    interrupt-request bit position (bit 26); the bits from 40 up are
    chip-specific (chip-selects, port lines, the audio sample strobe). */
module Pins {

  /** A 16-bit CPU address, as an integer. */
  type Addr = a: nat | a < 0x1_0000
  /** A 16-bit word, the result of a video-chip fetch. */
  type Word = w: nat | w < 0x1_0000

  // ---- m6502 pins ----
  const A4: bv64 := 1 << 4
  const A5: bv64 := 1 << 5
  const ADDR_MASK: bv64 := 0xFFFF
  const DATA_MASK: bv64 := 0xFF_0000
  const RW: bv64 := 1 << 24
  const IRQ: bv64 := 1 << 26
  const NMI: bv64 := 1 << 27
  const RES: bv64 := 1 << 30
  /** The pins the CPU shares with the other chips (bits 0-39). */
  const PIN_MASK: bv64 := (1 << 40) - 1

  // ---- m6522 pins ----
  const VIA_RW: bv64 := 1 << 24
  const VIA_IRQ: bv64 := 1 << 26
  const VIA_CS1: bv64 := 1 << 40
  const VIA_PA0: bv64 := 1 << 48
  const VIA_PA1: bv64 := 1 << 49
  const VIA_PA7: bv64 := 1 << 55
  const VIA_PA_MASK: bv64 := 0xFF << 48

  // ---- m6561 pins ----
  const VIC_RW: bv64 := 1 << 24
  const VIC_CS: bv64 := 1 << 40
  const VIC_SAMPLE: bv64 := 1 << 41

  /** Two pin words agree on every bit of `keep`. */
  predicate Agree(a: bv64, b: bv64, keep: bv64)
  {
    (a ^ b) & keep == 0
  }

  /** Words that agree with a third on two sets of bits agree with each
      other on the bits common to both. */
  lemma AgreeChain(a: bv64, b: bv64, c: bv64, k1: bv64, k2: bv64)
    requires Agree(a, b, k1) && Agree(b, c, k2)
    ensures Agree(a, c, k1 & k2)
  {
  }

  /** Words that agree on a set of bits agree on any part of it. */
  lemma AgreeWeaken(a: bv64, b: bv64, keep: bv64, part: bv64)
    requires Agree(a, b, keep) && part & keep == part
    ensures Agree(a, b, part)
  {
    assert (a ^ b) & part == ((a ^ b) & keep) & part;
  }

  /** Words that agree on a set of bits holding the IRQ line agree on it. */
  lemma AgreeOnIrq(a: bv64, b: bv64, keep: bv64)
    requires Agree(a, b, keep) && keep & IRQ == IRQ
    ensures a & IRQ != 0 <==> b & IRQ != 0
  {
    assert (a ^ b) & IRQ == ((a ^ b) & keep) & IRQ;
  }

  /** Words that agree on a set of bits holding the NMI line agree on it. */
  lemma AgreeOnNmi(a: bv64, b: bv64, keep: bv64)
    requires Agree(a, b, keep) && keep & NMI == NMI
    ensures a & NMI != 0 <==> b & NMI != 0
  {
    assert (a ^ b) & NMI == ((a ^ b) & keep) & NMI;
  }

  /** The 16-bit address on the address bus. */
  function GetAddr(pins: bv64): (a: Addr)
    ensures a as bv64 == pins & ADDR_MASK
  {
    (pins & ADDR_MASK) as int
  }

  /** The byte on the data bus. */
  function GetData(pins: bv64): (d: bv8)
    ensures d as bv64 == (pins & DATA_MASK) >> 16
  {
    ((pins >> 16) & 0xFF) as bv8
  }

  /** The pin word with its data bus replaced by `d`. */
  function SetData(pins: bv64, d: bv8): (r: bv64)
    ensures GetData(r) == d
    ensures Agree(r, pins, !DATA_MASK)
  {
    (pins & !DATA_MASK) | ((d as bv64) << 16)
  }

  /** The data bus of `from` copied onto `to`. */
  function CopyData(to: bv64, from: bv64): (r: bv64)
    ensures GetData(r) == GetData(from)
    ensures Agree(r, to, !DATA_MASK)
  {
    (to & !DATA_MASK) | (from & DATA_MASK)
  }

  /** A VIA pin word with its port-A input lines replaced by `a`. */
  function SetPortA(pins: bv64, a: bv8): (r: bv64)
    ensures (r & VIA_PA_MASK) >> 48 == a as bv64
    ensures Agree(r, pins, !VIA_PA_MASK)
  {
    (pins & !VIA_PA_MASK) | ((a as bv64) << 48)
  }

  /** The byte on a VIA's port-B lines. */
  function GetPortB(pins: bv64): (b: bv8)
    ensures b as bv64 == pins >> 56
  {
    (pins >> 56) as bv8
  }

  /** A chip drives the data bus when it is selected (`cs`) and read from. */
  predicate DrivesData(chipPins: bv64, cs: bv64, rw: bv64)
  {
    chipPins & (cs | rw) == cs | rw
  }

  /** The address lies in the I/O window 0x9000..0x93FF. */
  predicate InIoWindow(pins: bv64)
  {
    pins & 0xFC00 == 0x9000
  }

  /** The video chip snoops the address bus for A8-A11 and A13 low and A12
      high (A14 and A15 are not looked at). */
  predicate VicSelected(pins: bv64)
  {
    pins & 0x3F00 == 0x1000
  }

  /** The I/O window, as a range of addresses. */
  lemma IoWindowRange(pins: bv64)
    ensures InIoWindow(pins) <==> 0x9000 <= GetAddr(pins) < 0x9400
  {
    var a := pins & ADDR_MASK;
    assert InIoWindow(pins) <==> 0x9000 <= a < 0x9400;
    assert a < 0x9400 <==> a as int < 0x9400;
    assert 0x9000 <= a <==> 0x9000 <= a as int;
  }

  /** Inside the I/O window the video chip answers only on 0x9000..0x90FF. */
  lemma VicSelectedInWindow(pins: bv64)
    requires InIoWindow(pins)
    ensures VicSelected(pins) <==> 0x9000 <= GetAddr(pins) < 0x9100
  {
    var a := pins & ADDR_MASK;
    assert VicSelected(pins) <==> 0x9000 <= a < 0x9100;
    assert a < 0x9100 <==> a as int < 0x9100;
    assert 0x9000 <= a <==> 0x9000 <= a as int;
  }
}
