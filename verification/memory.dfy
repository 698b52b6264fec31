/** The board's byte banks and the two layered address spaces (CPU-visible
    and video-chip-visible) that are built from region registrations over
    them. */
module Memory {
  import opened Pins

  /** What an unmapped address reads as. */
  const UNMAPPED: bv8 := 0xFF

  /** The banks a region can be registered over. The optional 3 KB and 8 KB
      expansion RAM blocks are never registered, so they are no bank here. */
  datatype Bank = ColorRam | Ram0 | Ram1 | CharRom | BasicRom | KernalRom

  function BankSize(b: Bank): nat
  {
    match b
    case ColorRam => 0x400
    case Ram0 => 0x400
    case Ram1 => 0x1000
    case CharRom => 0x1000
    case BasicRom => 0x2000
    case KernalRom => 0x2000
  }

  /** The contents of every byte bank of the board, including the expansion
      RAM (3 KB, and four 8 KB blocks laid end to end) that no region maps. */
  datatype Banks = Banks(
    colorRam: seq<bv8>,
    ram0: seq<bv8>,
    ram3k: seq<bv8>,
    ram1: seq<bv8>,
    charRom: seq<bv8>,
    basicRom: seq<bv8>,
    kernalRom: seq<bv8>,
    ramExp: seq<bv8>)
  {
    /** Every bank has its fixed size. */
    predicate Valid()
    {
      && |colorRam| == BankSize(ColorRam)
      && |ram0| == BankSize(Ram0)
      && |ram3k| == 0xC00
      && |ram1| == BankSize(Ram1)
      && |charRom| == BankSize(CharRom)
      && |basicRom| == BankSize(BasicRom)
      && |kernalRom| == BankSize(KernalRom)
      && |ramExp| == 4 * 0x2000
    }

    function Get(b: Bank): (s: seq<bv8>)
      requires Valid()
      ensures |s| == BankSize(b)
    {
      match b
      case ColorRam => colorRam
      case Ram0 => ram0
      case Ram1 => ram1
      case CharRom => charRom
      case BasicRom => basicRom
      case KernalRom => kernalRom
    }

    /** The banks with byte `i` of bank `b` replaced by `v`. */
    function Put(b: Bank, i: nat, v: bv8): (r: Banks)
      requires Valid() && i < BankSize(b)
      ensures r.Valid()
      ensures r.Get(b) == Get(b)[i := v]
      ensures forall o :: o != b ==> r.Get(o) == Get(o)
      ensures r.ram3k == ram3k && r.ramExp == ramExp
    {
      match b
      case ColorRam => this.(colorRam := colorRam[i := v])
      case Ram0 => this.(ram0 := ram0[i := v])
      case Ram1 => this.(ram1 := ram1[i := v])
      case CharRom => this.(charRom := charRom[i := v])
      case BasicRom => this.(basicRom := basicRom[i := v])
      case KernalRom => this.(kernalRom := kernalRom[i := v])
    }
  }

  datatype Access = ReadWrite | ReadOnly

  /** One registration: `size` addresses from `start` on map to the bytes of
      `bank` from offset 0 on, at priority `layer` (0 overlays 1). */
  datatype Region = Region(layer: nat, start: nat, size: nat, bank: Bank, access: Access)
  {
    predicate Covers(addr: int)
    {
      start <= addr < start + size
    }

    predicate Fits()
    {
      layer < 2 && start + size <= 0x1_0000 && size <= BankSize(bank)
    }
  }

  /** A list of registrations, in the order they were made. */
  type MemMap = seq<Region>

  predicate MapFits(rs: MemMap)
  {
    forall i :: 0 <= i < |rs| ==> rs[i].Fits()
  }

  /** No two registrations share a bank, so no byte is reachable from two
      addresses. */
  predicate DistinctBanks(rs: MemMap)
  {
    forall i, j :: 0 <= i < j < |rs| ==> rs[i].bank != rs[j].bank
  }

  /** Registers `bank` read-write. */
  function MapRam(rs: MemMap, layer: nat, start: nat, size: nat, bank: Bank): MemMap
  {
    rs + [Region(layer, start, size, bank, ReadWrite)]
  }

  /** Registers `bank` read-only: writes to it are dropped. */
  function MapRom(rs: MemMap, layer: nat, start: nat, size: nat, bank: Bank): MemMap
  {
    rs + [Region(layer, start, size, bank, ReadOnly)]
  }

  /** The index of the registration that answers for `addr`, or -1 when none
      covers it: one of the lowest layer among those covering it, the latest
      registered on a tie. */
  function Winner(rs: MemMap, addr: int): (k: int)
    ensures -1 <= k < |rs|
    ensures k >= 0 ==> rs[k].Covers(addr)
  {
    if rs == [] then -1
    else
      var k := Winner(rs[..|rs| - 1], addr);
      var r := rs[|rs| - 1];
      if r.Covers(addr) && (k < 0 || r.layer <= rs[k].layer) then |rs| - 1 else k
  }

  /** Nothing answers exactly when no registration covers the address, and
      what answers has the lowest layer of all registrations covering it. */
  lemma {:induction false} WinnerIsLowest(rs: MemMap, addr: int)
    ensures Winner(rs, addr) < 0 <==> forall i :: 0 <= i < |rs| ==> !rs[i].Covers(addr)
    ensures forall i :: 0 <= Winner(rs, addr) && 0 <= i < |rs| && rs[i].Covers(addr) ==>
      rs[Winner(rs, addr)].layer <= rs[i].layer
  {
    if rs != [] {
      var prefix := rs[..|rs| - 1];
      WinnerIsLowest(prefix, addr);
      assert forall i :: 0 <= i < |prefix| ==> prefix[i] == rs[i];
    }
  }

  /** The address is answered by a read-write registration. */
  predicate Writable(rs: MemMap, addr: int)
  {
    var k := Winner(rs, addr);
    k >= 0 && rs[k].access == ReadWrite
  }

  /** A read: the winning registration's byte, or the fill value. */
  function Read(b: Banks, rs: MemMap, addr: Addr): (v: bv8)
    requires b.Valid() && MapFits(rs)
    ensures (forall i :: 0 <= i < |rs| ==> !rs[i].Covers(addr)) ==> v == UNMAPPED
    ensures Winner(rs, addr) >= 0 ==> v == b.Get(rs[Winner(rs, addr)].bank)[addr - rs[Winner(rs, addr)].start]
  {
    WinnerIsLowest(rs, addr);
    var k := Winner(rs, addr);
    if k < 0 then UNMAPPED else b.Get(rs[k].bank)[addr - rs[k].start]
  }

  /** A write: lands in the winning registration's bank if that registration
      is read-write, and is dropped otherwise (read-only or unmapped). */
  function Write(b: Banks, rs: MemMap, addr: Addr, v: bv8): (r: Banks)
    requires b.Valid() && MapFits(rs)
    ensures r.Valid() && r.ram3k == b.ram3k && r.ramExp == b.ramExp
    ensures !Writable(rs, addr) ==> r == b
    ensures Writable(rs, addr) ==>
      var k := Winner(rs, addr);
      r.Get(rs[k].bank)[addr - rs[k].start] == v
  {
    var k := Winner(rs, addr);
    if k >= 0 && rs[k].access == ReadWrite then b.Put(rs[k].bank, addr - rs[k].start, v) else b
  }

  /** A write changes at most one byte: the winning registration's byte for
      the address. */
  lemma WriteChangesOneByte(b: Banks, rs: MemMap, addr: Addr, v: bv8, o: Bank, i: nat)
    requires b.Valid() && MapFits(rs) && i < BankSize(o)
    requires Write(b, rs, addr, v).Get(o)[i] != b.Get(o)[i]
    ensures Writable(rs, addr)
    ensures o == rs[Winner(rs, addr)].bank && i == addr - rs[Winner(rs, addr)].start
  {
  }

  /** Reading back what was written through a read-write registration gives the
      written byte. */
  lemma WriteThenRead(b: Banks, rs: MemMap, addr: Addr, v: bv8)
    requires b.Valid() && MapFits(rs) && Writable(rs, addr)
    ensures Read(Write(b, rs, addr, v), rs, addr) == v
  {
  }

  /** When no two registrations share a bank, a write at one address does not
      change what any other address reads. */
  lemma ReadAfterOtherWrite(b: Banks, rs: MemMap, a1: Addr, a2: Addr, v: bv8)
    requires b.Valid() && MapFits(rs) && DistinctBanks(rs)
    requires a1 != a2
    ensures Read(Write(b, rs, a2, v), rs, a1) == Read(b, rs, a1)
  {
    var k := Winner(rs, a1);
    if k >= 0 {
      var o, i := rs[k].bank, a1 - rs[k].start;
      if Write(b, rs, a2, v).Get(o)[i] != b.Get(o)[i] {
        WriteChangesOneByte(b, rs, a2, v, o, i);
        assert false;
      }
    }
  }

  /** When an address is covered on layer 0 by one registration only, it reads
      that registration's byte, whatever layer 1 holds there. */
  lemma LayerZeroWins(b: Banks, rs: MemMap, addr: Addr, k: nat)
    requires b.Valid() && MapFits(rs)
    requires k < |rs| && rs[k].layer == 0 && rs[k].Covers(addr)
    requires forall i :: 0 <= i < |rs| && i != k && rs[i].Covers(addr) ==> rs[i].layer != 0
    ensures Read(b, rs, addr) == b.Get(rs[k].bank)[addr - rs[k].start]
  {
    WinnerIsLowest(rs, addr);
  }

  /** Bytes written one after another from `addr` on, as a run of writes. */
  function WriteAll(b: Banks, rs: MemMap, addr: nat, bytes: seq<bv8>): (r: Banks)
    requires b.Valid() && MapFits(rs)
    requires addr + |bytes| <= 0x1_0000
    ensures r.Valid() && r.ram3k == b.ram3k && r.ramExp == b.ramExp
  {
    if bytes == [] then b
    else Write(WriteAll(b, rs, addr, bytes[..|bytes| - 1]), rs, addr + |bytes| - 1, bytes[|bytes| - 1])
  }

  /** A run of writes extended by one byte is the run, then that byte's write. */
  lemma WriteAllSnoc(b: Banks, rs: MemMap, addr: nat, bytes: seq<bv8>, v: bv8)
    requires b.Valid() && MapFits(rs)
    requires addr + |bytes| < 0x1_0000
    ensures WriteAll(b, rs, addr, bytes + [v]) == Write(WriteAll(b, rs, addr, bytes), rs, addr + |bytes|, v)
  {
    assert (bytes + [v])[..|bytes|] == bytes;
  }

  /** Writes `bytes` one by one from `start` on while the address is below
      `end`; nothing is written when `end` is not above `start`. */
  method WriteRun(b0: Banks, rs: MemMap, start: Addr, end: Addr, bytes: seq<bv8>) returns (b: Banks)
    requires b0.Valid() && MapFits(rs)
    requires start < end ==> end - start <= |bytes|
    ensures b == WriteAll(b0, rs, start, bytes[..if start < end then end - start else 0])
  {
    b := b0;
    var addr := start;
    var i := 0;
    while addr < end
      invariant start <= addr && (start < end ==> addr <= end) && (start >= end ==> addr == start)
      invariant i == addr - start
      invariant b.Valid() && b == WriteAll(b0, rs, start, bytes[..i])
    {
      WriteAllSnoc(b0, rs, start, bytes[..i], bytes[i]);
      assert bytes[..i] + [bytes[i]] == bytes[..i + 1];
      b := Write(b, rs, addr, bytes[i]);
      addr := addr + 1;
      i := i + 1;
    }
  }

  /** When no two registrations share a bank, a run of writes leaves every
      address outside the run reading as before. */
  lemma {:induction false} WriteAllFrame(b: Banks, rs: MemMap, addr: nat, bytes: seq<bv8>, a: Addr)
    requires b.Valid() && MapFits(rs) && DistinctBanks(rs)
    requires addr + |bytes| <= 0x1_0000
    requires a < addr || addr + |bytes| <= a
    ensures Read(WriteAll(b, rs, addr, bytes), rs, a) == Read(b, rs, a)
    decreases |bytes|
  {
    if bytes != [] {
      var prefix := bytes[..|bytes| - 1];
      WriteAllFrame(b, rs, addr, prefix, a);
      ReadAfterOtherWrite(WriteAll(b, rs, addr, prefix), rs, a, addr + |bytes| - 1, bytes[|bytes| - 1]);
    }
  }

  /** A run of writes leaves every bank alone that no read-write registration
      uses. */
  lemma {:induction false} WriteAllKeeps(b: Banks, rs: MemMap, addr: nat, bytes: seq<bv8>, o: Bank)
    requires b.Valid() && MapFits(rs)
    requires addr + |bytes| <= 0x1_0000
    requires forall i :: 0 <= i < |rs| && rs[i].bank == o ==> rs[i].access == ReadOnly
    ensures WriteAll(b, rs, addr, bytes).Get(o) == b.Get(o)
  {
    if bytes != [] {
      var prefix := bytes[..|bytes| - 1];
      WriteAllKeeps(b, rs, addr, prefix, o);
      var before := WriteAll(b, rs, addr, prefix);
      var after := Write(before, rs, addr + |bytes| - 1, bytes[|bytes| - 1]);
      assert after.Get(o) == before.Get(o);
    }
  }

  /** After a run of writes over registrations that share no bank, each
      address that landed in read-write memory reads its own byte of the run. */
  lemma {:induction false} WriteAllReadBack(b: Banks, rs: MemMap, addr: nat, bytes: seq<bv8>, k: nat)
    requires b.Valid() && MapFits(rs) && DistinctBanks(rs)
    requires addr + |bytes| <= 0x1_0000 && k < |bytes|
    requires Writable(rs, addr + k)
    ensures Read(WriteAll(b, rs, addr, bytes), rs, addr + k) == bytes[k]
    decreases |bytes|, 1
  {
    if k == |bytes| - 1 {
      WriteThenRead(WriteAll(b, rs, addr, bytes[..k]), rs, addr + k, bytes[k]);
    } else {
      ReadBackBeforeLast(b, rs, addr, bytes, k);
    }
  }

  /** The step of WriteAllReadBack for a byte before the last one: the last
      write lands elsewhere. */
  lemma {:induction false} ReadBackBeforeLast(b: Banks, rs: MemMap, addr: nat, bytes: seq<bv8>, k: nat)
    requires b.Valid() && MapFits(rs) && DistinctBanks(rs)
    requires addr + |bytes| <= 0x1_0000 && k < |bytes| - 1
    requires Writable(rs, addr + k)
    ensures Read(WriteAll(b, rs, addr, bytes), rs, addr + k) == bytes[k]
    decreases |bytes|, 0
  {
    var prefix := bytes[..|bytes| - 1];
    WriteAllReadBack(b, rs, addr, prefix, k);
    ReadAfterOtherWrite(WriteAll(b, rs, addr, prefix), rs, addr + k, addr + |bytes| - 1, bytes[|bytes| - 1]);
  }

  // ---- the board's two address spaces ----

  /** The CPU-visible map: RAM and ROM on layer 1, so that layer 0 stays free
      for cartridges. */
  function CpuMap(): (rs: MemMap)
    ensures MapFits(rs)
  {
    var m0 := MapRam([], 1, 0x0000, 0x0400, Ram0);
    var m1 := MapRam(m0, 1, 0x1000, 0x1000, Ram1);
    var m2 := MapRom(m1, 1, 0x8000, 0x1000, CharRom);
    var m3 := MapRam(m2, 1, 0x9400, 0x0400, ColorRam);
    var m4 := MapRom(m3, 1, 0xC000, 0x2000, BasicRom);
    MapRom(m4, 1, 0xE000, 0x2000, KernalRom)
  }

  /** The video chip's 16 KB view of the same banks, all read-only. */
  function VicMap(): (rs: MemMap)
    ensures MapFits(rs)
  {
    var m0 := MapRom([], 0, 0x0000, 0x1000, CharRom);
    var m1 := MapRom(m0, 0, 0x2000, 0x0400, Ram0);
    MapRom(m1, 0, 0x3000, 0x1000, Ram1)
  }

  /** Neither map reaches a bank through two registrations. */
  lemma MapsHaveDistinctBanks()
    ensures DistinctBanks(CpuMap()) && DistinctBanks(VicMap())
  {
  }

  /** An address covered by exactly one registration is answered by it. */
  lemma OnlyCover(rs: MemMap, addr: int, j: nat)
    requires j < |rs| && rs[j].Covers(addr)
    requires forall i :: 0 <= i < |rs| && i != j ==> !rs[i].Covers(addr)
    ensures Winner(rs, addr) == j
  {
    WinnerIsLowest(rs, addr);
  }

  /** Which CPU registration answers each address. */
  lemma CpuWinner(addr: Addr)
    ensures Winner(CpuMap(), addr) ==
      if addr < 0x0400 then 0
      else if 0x1000 <= addr < 0x2000 then 1
      else if 0x8000 <= addr < 0x9000 then 2
      else if 0x9400 <= addr < 0x9800 then 3
      else if 0xC000 <= addr < 0xE000 then 4
      else if 0xE000 <= addr then 5
      else -1
  {
    var rs := CpuMap();
    assert rs == [Region(1, 0x0000, 0x0400, Ram0, ReadWrite), Region(1, 0x1000, 0x1000, Ram1, ReadWrite),
                  Region(1, 0x8000, 0x1000, CharRom, ReadOnly), Region(1, 0x9400, 0x0400, ColorRam, ReadWrite),
                  Region(1, 0xC000, 0x2000, BasicRom, ReadOnly), Region(1, 0xE000, 0x2000, KernalRom, ReadOnly)];
    if addr < 0x0400 { OnlyCover(rs, addr, 0); }
    else if 0x1000 <= addr < 0x2000 { OnlyCover(rs, addr, 1); }
    else if 0x8000 <= addr < 0x9000 { OnlyCover(rs, addr, 2); }
    else if 0x9400 <= addr < 0x9800 { OnlyCover(rs, addr, 3); }
    else if 0xC000 <= addr < 0xE000 { OnlyCover(rs, addr, 4); }
    else if 0xE000 <= addr { OnlyCover(rs, addr, 5); }
    else { WinnerIsLowest(rs, addr); }
  }

  /** Which video-chip registration answers each address. */
  lemma VicWinner(addr: Addr)
    ensures Winner(VicMap(), addr) ==
      if addr < 0x1000 then 0
      else if 0x2000 <= addr < 0x2400 then 1
      else if 0x3000 <= addr < 0x4000 then 2
      else -1
  {
    var rs := VicMap();
    if addr < 0x1000 { OnlyCover(rs, addr, 0); }
    else if 0x2000 <= addr < 0x2400 { OnlyCover(rs, addr, 1); }
    else if 0x3000 <= addr < 0x4000 { OnlyCover(rs, addr, 2); }
    else { WinnerIsLowest(rs, addr); }
  }

  /** What each CPU address reads: RAM at 0000-03FF, 1000-1FFF and 9400-97FF,
      ROM at 8000-8FFF and C000-FFFF, the fill value elsewhere. */
  lemma CpuMapLayout(b: Banks, addr: Addr)
    requires b.Valid()
    ensures Read(b, CpuMap(), addr) ==
      if addr < 0x0400 then b.ram0[addr]
      else if 0x1000 <= addr < 0x2000 then b.ram1[addr - 0x1000]
      else if 0x8000 <= addr < 0x9000 then b.charRom[addr - 0x8000]
      else if 0x9400 <= addr < 0x9800 then b.colorRam[addr - 0x9400]
      else if 0xC000 <= addr < 0xE000 then b.basicRom[addr - 0xC000]
      else if 0xE000 <= addr then b.kernalRom[addr - 0xE000]
      else UNMAPPED
  {
    CpuWinner(addr);
  }

  /** The CPU can write exactly its RAM. */
  lemma CpuWritable(addr: Addr)
    ensures Writable(CpuMap(), addr) <==> addr < 0x0400 || 0x1000 <= addr < 0x2000 || 0x9400 <= addr < 0x9800
  {
    CpuWinner(addr);
  }

  /** A CPU write lands only in RAM: the ROM banks never change. */
  lemma CpuWriteKeepsRoms(b: Banks, addr: Addr, v: bv8)
    requires b.Valid()
    ensures var r := Write(b, CpuMap(), addr, v);
      r.charRom == b.charRom && r.basicRom == b.basicRom && r.kernalRom == b.kernalRom
  {
    CpuWinner(addr);
  }

  /** The video chip sees main RAM at 0x3000 and the zero page at 0x2000, so
      what the CPU writes there it reads back 0x2000 higher. */
  lemma VicSeesCpuWrites(b: Banks, i: nat, v: bv8)
    requires b.Valid()
    ensures i < 0x1000 ==> Read(Write(b, CpuMap(), 0x1000 + i, v), VicMap(), 0x3000 + i) == v
    ensures i < 0x0400 ==> Read(Write(b, CpuMap(), i, v), VicMap(), 0x2000 + i) == v
  {
    if i < 0x1000 {
      CpuWinner(0x1000 + i);
      VicWinner(0x3000 + i);
    }
    if i < 0x0400 {
      CpuWinner(i);
      VicWinner(0x2000 + i);
    }
  }

  /** The video chip's map is read-only: a write through it changes nothing. */
  lemma VicMapReadOnly(b: Banks, addr: Addr, v: bv8)
    requires b.Valid()
    ensures Write(b, VicMap(), addr, v) == b
  {
    VicWinner(addr);
  }

  /** A video-chip fetch: the color-RAM byte at the same index in the high
      byte, the video map's byte in the low byte. */
  function VicFetch(b: Banks, rs: MemMap, addr: Addr): (w: Word)
    requires b.Valid() && MapFits(rs)
    ensures w / 0x100 == b.colorRam[addr % 0x400] as nat
    ensures w % 0x100 == Read(b, rs, addr) as nat
  {
    b.colorRam[addr % 0x400] as nat * 0x100 + Read(b, rs, addr) as nat
  }
}
