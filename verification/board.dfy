/** The board as a value: its state layout, one bus cycle, the execution
    loop, reset, quickload and snapshots, each a function of the state.

    The chips the board wires together (the 6502 CPU, the two 6522 VIAs, the
    6561 VIC, the keyboard matrix) are not part of this model: their state is
    an opaque type and their behaviour a function supplied in `Chips`, so
    every property below holds whatever the chips do. */
module Board {
  import opened Wrappers
  import opened Pins
  import opened Memory
  import opened Keyboard

  /** Bumped when the state layout changes; a snapshot of another version is
      refused. */
  const SNAPSHOT_VERSION: int := 1
  /** The system clock in Hz. */
  const FREQUENCY: int := 1108404
  const MAX_AUDIO_SAMPLES: int := 1024
  const DEFAULT_AUDIO_SAMPLES: int := 128

  type CpuState(!new)
  type ViaState(!new)
  type VicState(!new)
  type KbdState(!new)
  /** The state of a host debugger that the debug hook updates. */
  type DebugState(!new)
  /** An audio sample, as the VIC produces it. */
  type Sample(0,!new)

  /** The chip emulators: initial states, one tick each, and the other entry
      points the board calls. */
  datatype Chips = Chips(
    cpuInit: (CpuState, bv64),
    cpuTick: (CpuState, bv64) -> (CpuState, bv64),
    cpuOnSave: CpuState -> CpuState,
    cpuOnLoad: (CpuState, CpuState) -> CpuState,
    viaInit: ViaState,
    viaTick: (ViaState, bv64) -> (ViaState, bv64),
    viaReset: ViaState -> ViaState,
    vicInit: VicState,
    vicTick: (VicState, bv64, Addr -> Word) -> (VicState, bv64),
    vicReset: VicState -> VicState,
    vicSample: VicState -> Sample,
    vicOnSave: VicState -> VicState,
    vicOnLoad: (VicState, VicState) -> VicState,
    kbdInit: KbdState,
    kbdScanLines: KbdState -> bv8,
    kbdSetActiveColumns: (KbdState, bv8) -> KbdState,
    kbdUpdate: (KbdState, nat) -> KbdState,
    kbdKeyDown: (KbdState, KeyMap, int) -> KbdState,
    kbdKeyUp: (KbdState, KeyMap, int) -> KbdState)

  /** The optional debug hook: called with the pins after every tick, it
      updates the host debugger, which can ask the execution loop to stop. */
  datatype Debug =
    | NoDebug
    | Debug(state: DebugState, step: (DebugState, bv64) -> DebugState, stopped: DebugState -> bool)

  /** The audio sample buffer: `numSamples` of its slots are filled, one by
      one from `samplePos`, and handed to the callback (if one is set) when
      full. */
  datatype Audio = Audio(callback: bool, numSamples: int, samplePos: int, buffer: seq<Sample>)
  {
    predicate Valid()
    {
      AudioFits(|buffer|, numSamples, samplePos)
    }
  }

  /** The buffer has its fixed size and the position lies inside its used
      part. */
  predicate AudioFits(bufferLength: int, numSamples: int, samplePos: int)
  {
    bufferLength == MAX_AUDIO_SAMPLES && 0 <= samplePos < numSamples <= MAX_AUDIO_SAMPLES
  }

  /** A board's audio state fits its buffer and its memory is wired. */
  predicate BoardFits(bufferLength: int, numSamples: int, samplePos: int, banks: Banks, memCpu: MemMap, memVic: MemMap)
  {
    AudioFits(bufferLength, numSamples, samplePos) && Wired(banks, memCpu, memVic)
  }

  /** The banks have their sizes and the two memory maps are the board's. */
  predicate Wired(banks: Banks, memCpu: MemMap, memVic: MemMap)
  {
    banks.Valid() && memCpu == CpuMap() && memVic == VicMap()
  }

  /** The whole board state. */
  datatype Machine = Machine(
    cpu: CpuState,
    via1: ViaState,
    via2: ViaState,
    vic: VicState,
    pins: bv64,
    kbd: KbdState,
    keys: KeyMap,
    memCpu: MemMap,
    memVic: MemMap,
    valid: bool,
    debug: Debug,
    audio: Audio,
    banks: Banks)
  {
    predicate Valid()
    {
      audio.Valid() && Wired(banks, memCpu, memVic)
    }
  }

  // ---------------------------------------------------------------- audio

  datatype Pushed = Pushed(audio: Audio, flushed: Option<seq<Sample>>)

  /** A position one past the last slot wraps to 0; any other is itself. */
  lemma WrapAround(pos: int, n: int)
    requires 0 < pos <= n
    ensures pos % n == if pos == n then 0 else pos
  {
  }

  /** Stores a sample at the current position and advances it; when the
      buffer is full the position wraps to 0 and the filled part is handed to
      the callback, if one is set. */
  function PushSample(a: Audio, s: Sample): (r: Pushed)
    requires a.Valid()
    ensures r.audio.Valid()
    ensures r.audio.callback == a.callback && r.audio.numSamples == a.numSamples
    ensures r.audio.buffer == a.buffer[a.samplePos := s]
    ensures r.audio.samplePos == (a.samplePos + 1) % a.numSamples
    ensures r.flushed.Some? <==> a.callback && a.samplePos + 1 == a.numSamples
    ensures r.flushed.Some? ==> r.flushed.value == r.audio.buffer[..a.numSamples]
  {
    var buffer := a.buffer[a.samplePos := s];
    var pos := a.samplePos + 1;
    WrapAround(pos, a.numSamples);
    if pos == a.numSamples then
      Pushed(a.(buffer := buffer, samplePos := 0), if a.callback then Some(buffer[..a.numSamples]) else None)
    else
      Pushed(a.(buffer := buffer, samplePos := pos), None)
  }

  /** The samples pushed one after another, with every block handed over. */
  function PushAll(a: Audio, ss: seq<Sample>): (r: (Audio, seq<seq<Sample>>))
    requires a.Valid()
    ensures r.0.Valid() && r.0.numSamples == a.numSamples && r.0.callback == a.callback
    decreases |ss|
  {
    if ss == [] then (a, [])
    else
      var p := PushSample(a, ss[0]);
      var rest := PushAll(p.audio, ss[1..]);
      (rest.0, (if p.flushed.Some? then [p.flushed.value] else []) + rest.1)
  }

  /** Fewer samples than fill the buffer from an empty one hand nothing over
      and sit at the start of the buffer. */
  lemma {:induction false} PartialBlock(a: Audio, ss: seq<Sample>)
    requires a.Valid() && a.samplePos + |ss| < a.numSamples
    ensures PushAll(a, ss).1 == []
    ensures PushAll(a, ss).0.samplePos == a.samplePos + |ss|
    ensures PushAll(a, ss).0.buffer[a.samplePos..a.samplePos + |ss|] == ss
    ensures forall i :: 0 <= i < a.samplePos ==> PushAll(a, ss).0.buffer[i] == a.buffer[i]
    decreases |ss|
  {
    if ss != [] {
      var p := PushSample(a, ss[0]);
      PartialBlock(p.audio, ss[1..]);
      var r := PushAll(p.audio, ss[1..]).0;
      assert r.buffer[a.samplePos] == p.audio.buffer[a.samplePos] == ss[0];
      assert r.buffer[a.samplePos + 1..a.samplePos + |ss|] == ss[1..];
    }
  }

  /** From an empty buffer, exactly `numSamples` samples are handed to the
      callback as one block, in the order they were pushed, and the buffer is
      empty again. */
  lemma FullBlockDelivered(a: Audio, ss: seq<Sample>)
    requires a.Valid() && a.samplePos == 0 && a.callback && |ss| == a.numSamples
    ensures PushAll(a, ss).1 == [ss]
    ensures PushAll(a, ss).0.samplePos == 0
  {
    var n := a.numSamples;
    var front := ss[..n - 1];
    PartialBlock(a, front);
    PushAllSplit(a, front, [ss[n - 1]]);
    assert front + [ss[n - 1]] == ss;
    var mid := PushAll(a, front).0;
    var p := PushSample(mid, ss[n - 1]);
    assert p.flushed.value == p.audio.buffer[..n];
    assert p.audio.buffer[..n] == front + [ss[n - 1]];
  }

  /** Pushing two runs one after the other is pushing their concatenation. */
  lemma {:induction false} PushAllSplit(a: Audio, xs: seq<Sample>, ys: seq<Sample>)
    requires a.Valid()
    ensures PushAll(a, xs + ys).0 == PushAll(PushAll(a, xs).0, ys).0
    ensures PushAll(a, xs + ys).1 == PushAll(a, xs).1 + PushAll(PushAll(a, xs).0, ys).1
    decreases |xs|
  {
    if xs != [] {
      var p := PushSample(a, xs[0]);
      assert (xs + ys)[0] == xs[0];
      assert (xs + ys)[1..] == xs[1..] + ys;
      PushAllSplit(p.audio, xs[1..], ys);
    } else {
      assert xs + ys == ys;
    }
  }

  // ---------------------------------------------------------------- one tick

  /** The pins VIA 1 gets: the CPU's shared pins, selected inside the I/O
      window 0x9000..0x93FF when A4 is high. */
  function Via1Select(p: bv64): (r: bv64)
    ensures r & VIA_CS1 != 0 <==> InIoWindow(p) && p & A4 != 0
    ensures Agree(r, p & PIN_MASK, !VIA_CS1)
  {
    var shared := p & PIN_MASK;
    if InIoWindow(p) && p & A4 != 0 then shared | VIA_CS1 else shared
  }

  /** The pins VIA 2 gets: selected inside the I/O window when A5 is high. */
  function Via2Select(p: bv64): (r: bv64)
    ensures r & VIA_CS1 != 0 <==> InIoWindow(p) && p & A5 != 0
    ensures Agree(r, p & PIN_MASK, !VIA_CS1)
  {
    var shared := p & PIN_MASK;
    if InIoWindow(p) && p & A5 != 0 then shared | VIA_CS1 else shared
  }

  /** The pins the VIC gets: selected inside the I/O window when the address
      lines it snoops match. */
  function VicSelect(p: bv64): (r: bv64)
    ensures r & VIC_CS != 0 <==> InIoWindow(p) && VicSelected(p)
    ensures Agree(r, p & PIN_MASK, !VIC_CS)
  {
    var shared := p & PIN_MASK;
    if InIoWindow(p) && VicSelected(p) then shared | VIC_CS else shared
  }

  /** The CPU's pins after the memory access, and the banks after it. */
  datatype Accessed = Accessed(pins: bv64, banks: Banks)

  /** The memory access. Inside the I/O window memory is not touched;
      outside it the CPU map is read (the byte goes onto the data bus) or
      written (with the byte on the data bus), according to RW. */
  function MemAccess(p: bv64, memCpu: MemMap, banks: Banks): (d: Accessed)
    requires banks.Valid() && MapFits(memCpu)
    ensures d.banks.Valid()
    ensures Agree(d.pins, p, !DATA_MASK)
    ensures InIoWindow(p) || p & RW == 0 ==> d.pins == p
    ensures InIoWindow(p) || p & RW != 0 ==> d.banks == banks
    ensures !InIoWindow(p) && p & RW != 0 ==> GetData(d.pins) == Read(banks, memCpu, GetAddr(p))
    ensures !InIoWindow(p) && p & RW == 0 ==> d.banks == Write(banks, memCpu, GetAddr(p), GetData(p))
  {
    if InIoWindow(p) then Accessed(p, banks)
    else if p & RW != 0 then Accessed(SetData(p, Read(banks, memCpu, GetAddr(p))), banks)
    else Accessed(p, Write(banks, memCpu, GetAddr(p), GetData(p)))
  }

  /** VIA 1's port A lines 0, 1 and 7 are held high. */
  function Via1Input(p: bv64): (r: bv64)
    ensures r & (VIA_PA0 | VIA_PA1 | VIA_PA7) == VIA_PA0 | VIA_PA1 | VIA_PA7
    ensures Agree(r, p, !(VIA_PA0 | VIA_PA1 | VIA_PA7))
  {
    p | VIA_PA0 | VIA_PA1 | VIA_PA7
  }

  /** After VIA 1's tick: its IRQ drives the CPU's NMI, and when it is
      selected and read its data goes onto the bus. */
  function Via1Merge(pins: bv64, via: bv64): (r: bv64)
    ensures r & NMI != 0 <==> pins & NMI != 0 || via & VIA_IRQ != 0
    ensures GetData(r) == if DrivesData(via, VIA_CS1, VIA_RW) then GetData(via) else GetData(pins)
    ensures Agree(r, pins, !(NMI | DATA_MASK))
  {
    var pins' := if via & VIA_IRQ != 0 then pins | NMI else pins;
    if DrivesData(via, VIA_CS1, VIA_RW) then CopyData(pins', via) else pins'
  }

  /** After VIA 2's tick: its IRQ drives the CPU's IRQ, and when it is
      selected and read its data goes onto the bus. */
  function Via2Merge(pins: bv64, via: bv64): (r: bv64)
    ensures r & IRQ != 0 <==> pins & IRQ != 0 || via & VIA_IRQ != 0
    ensures GetData(r) == if DrivesData(via, VIA_CS1, VIA_RW) then GetData(via) else GetData(pins)
    ensures Agree(r, pins, !(IRQ | DATA_MASK))
  {
    var pins' := if via & VIA_IRQ != 0 then pins | IRQ else pins;
    if DrivesData(via, VIA_CS1, VIA_RW) then CopyData(pins', via) else pins'
  }

  /** After the VIC's tick: when it is selected and read its data goes onto
      the bus. */
  function VicMerge(pins: bv64, vic: bv64): (r: bv64)
    ensures GetData(r) == if DrivesData(vic, VIC_CS, VIC_RW) then GetData(vic) else GetData(pins)
    ensures Agree(r, pins, !DATA_MASK)
  {
    if DrivesData(vic, VIC_CS, VIC_RW) then CopyData(pins, vic) else pins
  }

  /** The audio buffer after the VIC's tick: its current sample is pushed
      when it strobes SAMPLE. */
  function VicAudio(c: Chips, vic: VicState, out: bv64, audio: Audio): (r: Pushed)
    requires audio.Valid()
    ensures r.audio.Valid()
    ensures out & VIC_SAMPLE != 0 ==> r == PushSample(audio, c.vicSample(vic))
    ensures out & VIC_SAMPLE == 0 ==> r == Pushed(audio, None)
  {
    if out & VIC_SAMPLE != 0 then PushSample(audio, c.vicSample(vic)) else Pushed(audio, None)
  }

  /** The interrupt lines of the pins merged after the three chip ticks,
      from a bus whose interrupt lines were cleared. */
  lemma MergeInterrupts(p: bv64, bus: bv64, out1: bv64, out2: bv64, out3: bv64)
    requires Agree(bus, p & !(IRQ | NMI), !DATA_MASK)
    ensures var r := VicMerge(Via2Merge(Via1Merge(bus, out1), out2), out3);
            && (r & NMI != 0 <==> out1 & VIA_IRQ != 0)
            && (r & IRQ != 0 <==> out2 & VIA_IRQ != 0)
  {
    var cleared := p & !(IRQ | NMI);
    var pins1 := Via1Merge(bus, out1);
    var pins2 := Via2Merge(pins1, out2);
    var pins3 := VicMerge(pins2, out3);
    AgreeOnNmi(bus, cleared, !DATA_MASK);
    AgreeOnIrq(bus, cleared, !DATA_MASK);
    AgreeOnIrq(pins1, bus, !(NMI | DATA_MASK));
    AgreeOnNmi(pins2, pins1, !(IRQ | DATA_MASK));
    AgreeOnNmi(pins3, pins2, !DATA_MASK);
    AgreeOnIrq(pins3, pins2, !DATA_MASK);
  }

  /** The pins merged after the three chip ticks differ from the pins the
      CPU drove in the data byte and the interrupt lines at most. */
  lemma MergeKeepsOtherPins(p: bv64, bus: bv64, out1: bv64, out2: bv64, out3: bv64)
    requires Agree(bus, p & !(IRQ | NMI), !DATA_MASK)
    ensures Agree(VicMerge(Via2Merge(Via1Merge(bus, out1), out2), out3), p, !(DATA_MASK | IRQ | NMI))
  {
    var pins1 := Via1Merge(bus, out1);
    var pins2 := Via2Merge(pins1, out2);
    var pins3 := VicMerge(pins2, out3);
    var k0 := !DATA_MASK & !(IRQ | NMI);
    var k1 := !(NMI | DATA_MASK) & k0;
    var k2 := !(IRQ | DATA_MASK) & k1;
    var k3 := !DATA_MASK & k2;
    assert Agree(p & !(IRQ | NMI), p, !(IRQ | NMI));
    AgreeChain(bus, p & !(IRQ | NMI), p, !DATA_MASK, !(IRQ | NMI));
    AgreeChain(pins1, bus, p, !(NMI | DATA_MASK), k0);
    AgreeChain(pins2, pins1, p, !(IRQ | DATA_MASK), k1);
    AgreeChain(pins3, pins2, p, !DATA_MASK, k2);
    AgreeWeaken(pins3, p, k3, !(DATA_MASK | IRQ | NMI));
  }

  /** A memory access through the CPU map never changes the ROMs. */
  lemma MemAccessKeepsRoms(p: bv64, memCpu: MemMap, banks: Banks)
    requires banks.Valid() && MapFits(memCpu)
    ensures var b := MemAccess(p, memCpu, banks).banks;
            memCpu == CpuMap() ==>
              b.charRom == banks.charRom && b.basicRom == banks.basicRom && b.kernalRom == banks.kernalRom
  {
    if memCpu == CpuMap() && !InIoWindow(p) && p & RW == 0 {
      CpuWriteKeepsRoms(banks, GetAddr(p), GetData(p));
    }
  }

  /** Clearing the interrupt lines leaves the address bus alone. */
  lemma ClearedAddress(p: bv64)
    ensures InIoWindow(p & !(IRQ | NMI)) == InIoWindow(p)
  {
  }

  /** The fetch function the VIC is given: its own map over the banks. */
  function Fetcher(banks: Banks, memVic: MemMap): (f: Addr -> Word)
    requires banks.Valid() && MapFits(memVic)
    ensures forall a :: f(a) == VicFetch(banks, memVic, a)
  {
    a => VicFetch(banks, memVic, a)
  }

  /** A chip's tick as the board wires it: the chip's new state, the pins it
      drove, and the CPU's pins after they are merged in. */
  datatype Stepped<S> = Stepped(state: S, out: bv64, pins: bv64)

  /** VIA 1's tick on the decoded pins, merged into the CPU's pins. */
  function Via1Step(c: Chips, via: ViaState, selected: bv64, pins: bv64): (r: Stepped<ViaState>)
    ensures exists q :: (r.state, r.out) == c.viaTick(via, q) &&
              q & (VIA_PA0 | VIA_PA1 | VIA_PA7) == VIA_PA0 | VIA_PA1 | VIA_PA7 &&
              Agree(q, selected, !(VIA_PA0 | VIA_PA1 | VIA_PA7))
    ensures r.pins == Via1Merge(pins, r.out)
  {
    var (via', out) := c.viaTick(via, Via1Input(selected));
    Stepped(via', out, Via1Merge(pins, out))
  }

  /** VIA 2's tick: port A reads the keyboard's scanned lines, port B then
      drives its active columns; the keyboard comes back with it. */
  function Via2Step(c: Chips, via: ViaState, kbd: KbdState, selected: bv64, pins: bv64): (r: (Stepped<ViaState>, KbdState))
    ensures exists q :: (r.0.state, r.0.out) == c.viaTick(via, q) &&
              (q & VIA_PA_MASK) >> 48 == (!c.kbdScanLines(kbd)) as bv64 && Agree(q, selected, !VIA_PA_MASK)
    ensures r.1 == c.kbdSetActiveColumns(kbd, !GetPortB(r.0.out))
    ensures r.0.pins == Via2Merge(pins, r.0.out)
  {
    var (via', out) := c.viaTick(via, SetPortA(selected, !c.kbdScanLines(kbd)));
    (Stepped(via', out, Via2Merge(pins, out)), c.kbdSetActiveColumns(kbd, !GetPortB(out)))
  }

  /** The VIC's tick on the decoded pins with its fetch function, merged into
      the CPU's pins. */
  function VicStep(c: Chips, vic: VicState, selected: bv64, fetch: Addr -> Word, pins: bv64): (r: Stepped<VicState>)
    ensures (r.state, r.out) == c.vicTick(vic, selected, fetch)
    ensures GetData(r.pins) == if DrivesData(r.out, VIC_CS, VIC_RW) then GetData(r.out) else GetData(pins)
    ensures Agree(r.pins, pins, !DATA_MASK)
  {
    var (vic', out) := c.vicTick(vic, selected, fetch);
    Stepped(vic', out, VicMerge(pins, out))
  }

  /** What one tick's chip stages did: the CPU, its pins with the interrupt
      lines cleared, the memory access, each chip's step and the keyboard. */
  datatype Stages = Stages(
    cpu: CpuState, cpuPins: bv64, cleared: bv64, bus: Accessed,
    via1: Stepped<ViaState>, via2: Stepped<ViaState>, kbd: KbdState, vic: Stepped<VicState>)

  /** The chip stages of one tick: the CPU, interrupt lines cleared, address
      decoding and memory, VIA 1, VIA 2 with the keyboard, then the VIC,
      which fetches through its own map over the banks as they are after
      this tick's memory access. */
  function StagesOf(c: Chips, cpu: CpuState, via1: ViaState, via2: ViaState, vic: VicState, kbd: KbdState,
                    memCpu: MemMap, memVic: MemMap, banks: Banks, pins: bv64): (k: Stages)
    requires banks.Valid() && MapFits(memCpu) && MapFits(memVic)
    ensures k.bus.banks.Valid()
  {
    var (cpu', cpuPins) := c.cpuTick(cpu, pins);
    var p := cpuPins & !(IRQ | NMI);
    var bus := MemAccess(p, memCpu, banks);
    var s1 := Via1Step(c, via1, Via1Select(p), bus.pins);
    var (s2, kbd') := Via2Step(c, via2, kbd, Via2Select(p), s1.pins);
    var s3 := VicStep(c, vic, VicSelect(p), Fetcher(bus.banks, memVic), s2.pins);
    Stages(cpu', cpuPins, p, bus, s1, s2, kbd', s3)
  }

  /** The interrupt wiring of a tick, whatever the chips do: the CPU's NMI
      is VIA 1's IRQ and its IRQ is VIA 2's, whatever the CPU drove. */
  lemma TickInterrupts(c: Chips, cpu: CpuState, via1: ViaState, via2: ViaState, vic: VicState, kbd: KbdState,
                       memCpu: MemMap, memVic: MemMap, banks: Banks, pins: bv64)
    requires banks.Valid() && MapFits(memCpu) && MapFits(memVic)
    ensures var t := StagesOf(c, cpu, via1, via2, vic, kbd, memCpu, memVic, banks, pins);
      && (t.vic.pins & NMI != 0 <==> t.via1.out & VIA_IRQ != 0)
      && (t.vic.pins & IRQ != 0 <==> t.via2.out & VIA_IRQ != 0)
  {
    var t := StagesOf(c, cpu, via1, via2, vic, kbd, memCpu, memVic, banks, pins);
    assert t.vic.pins == VicMerge(Via2Merge(Via1Merge(t.bus.pins, t.via1.out), t.via2.out), t.vic.out);
    MergeInterrupts(t.cpuPins, t.bus.pins, t.via1.out, t.via2.out, t.vic.out);
  }

  /** The data bus after a tick comes from the last chip that is selected
      and read (the VIC, then VIA 2, then VIA 1), else from the memory
      access. */
  lemma TickDataBus(c: Chips, cpu: CpuState, via1: ViaState, via2: ViaState, vic: VicState, kbd: KbdState,
                    memCpu: MemMap, memVic: MemMap, banks: Banks, pins: bv64)
    requires banks.Valid() && MapFits(memCpu) && MapFits(memVic)
    ensures var t := StagesOf(c, cpu, via1, via2, vic, kbd, memCpu, memVic, banks, pins);
      GetData(t.vic.pins) ==
        (if DrivesData(t.vic.out, VIC_CS, VIC_RW) then GetData(t.vic.out)
         else if DrivesData(t.via2.out, VIA_CS1, VIA_RW) then GetData(t.via2.out)
         else if DrivesData(t.via1.out, VIA_CS1, VIA_RW) then GetData(t.via1.out)
         else GetData(t.bus.pins))
  {
    var t := StagesOf(c, cpu, via1, via2, vic, kbd, memCpu, memVic, banks, pins);
    assert t.vic.pins == VicMerge(t.via2.pins, t.vic.out);
    assert t.via2.pins == Via2Merge(t.via1.pins, t.via2.out);
    assert t.via1.pins == Via1Merge(t.bus.pins, t.via1.out);
  }

  /** Every pin other than the data bus and the interrupt lines is left as
      the CPU drove it. */
  lemma TickOtherPins(c: Chips, cpu: CpuState, via1: ViaState, via2: ViaState, vic: VicState, kbd: KbdState,
                      memCpu: MemMap, memVic: MemMap, banks: Banks, pins: bv64)
    requires banks.Valid() && MapFits(memCpu) && MapFits(memVic)
    ensures var t := StagesOf(c, cpu, via1, via2, vic, kbd, memCpu, memVic, banks, pins);
      Agree(t.vic.pins, t.cpuPins, !(DATA_MASK | IRQ | NMI))
  {
    var t := StagesOf(c, cpu, via1, via2, vic, kbd, memCpu, memVic, banks, pins);
    assert t.vic.pins == VicMerge(Via2Merge(Via1Merge(t.bus.pins, t.via1.out), t.via2.out), t.vic.out);
    MergeKeepsOtherPins(t.cpuPins, t.bus.pins, t.via1.out, t.via2.out, t.vic.out);
  }

  /** The chips' inputs in a tick: the CPU ticks on the given pins and its
      interrupt lines are cleared; VIA 1 ticks on its decoded pins with port A
      lines 0, 1 and 7 pulled high; VIA 2's port A reads the inverted scan
      lines of the keyboard, every other pin as decoded, and the keyboard's
      active columns become VIA 2's inverted port B. */
  lemma TickWiring(c: Chips, cpu: CpuState, via1: ViaState, via2: ViaState, vic: VicState, kbd: KbdState,
                   memCpu: MemMap, memVic: MemMap, banks: Banks, pins: bv64)
    requires banks.Valid() && MapFits(memCpu) && MapFits(memVic)
    ensures var t := StagesOf(c, cpu, via1, via2, vic, kbd, memCpu, memVic, banks, pins);
      && (t.cpu, t.cpuPins) == c.cpuTick(cpu, pins)
      && t.cleared & (IRQ | NMI) == 0 && Agree(t.cleared, t.cpuPins, !(IRQ | NMI))
      && (exists q :: (t.via1.state, t.via1.out) == c.viaTick(via1, q) &&
            q & (VIA_PA0 | VIA_PA1 | VIA_PA7) == VIA_PA0 | VIA_PA1 | VIA_PA7 &&
            Agree(q, Via1Select(t.cleared), !(VIA_PA0 | VIA_PA1 | VIA_PA7)))
      && (exists q :: (t.via2.state, t.via2.out) == c.viaTick(via2, q) &&
            (q & VIA_PA_MASK) >> 48 == (!c.kbdScanLines(kbd)) as bv64 &&
            Agree(q, Via2Select(t.cleared), !VIA_PA_MASK))
      && t.kbd == c.kbdSetActiveColumns(kbd, !GetPortB(t.via2.out))
  {
    var t := StagesOf(c, cpu, via1, via2, vic, kbd, memCpu, memVic, banks, pins);
    assert t.via1 == Via1Step(c, via1, Via1Select(t.cleared), t.bus.pins);
    assert (t.via2, t.kbd) == Via2Step(c, via2, kbd, Via2Select(t.cleared), t.via1.pins);
    assert Agree(t.cleared, t.cpuPins, !(IRQ | NMI));
  }

  /** The VIC's inputs in a tick: it ticks on the CPU's shared pins, with its
      chip-select set exactly for the I/O window's VIC addresses, and fetches
      through its own map over the banks as the memory access left them. */
  lemma TickVic(c: Chips, cpu: CpuState, via1: ViaState, via2: ViaState, vic: VicState, kbd: KbdState,
                memCpu: MemMap, memVic: MemMap, banks: Banks, pins: bv64)
    requires banks.Valid() && MapFits(memCpu) && MapFits(memVic)
    ensures var t := StagesOf(c, cpu, via1, via2, vic, kbd, memCpu, memVic, banks, pins);
      exists q, f :: (t.vic.state, t.vic.out) == c.vicTick(vic, q, f) &&
        (q & VIC_CS != 0 <==> InIoWindow(t.cleared) && VicSelected(t.cleared)) &&
        Agree(q, t.cleared & PIN_MASK, !VIC_CS) &&
        forall a :: f(a) == VicFetch(t.bus.banks, memVic, a)
  {
    var t := StagesOf(c, cpu, via1, via2, vic, kbd, memCpu, memVic, banks, pins);
    var q := VicSelect(t.cleared);
    var f := Fetcher(t.bus.banks, memVic);
    assert t.vic == VicStep(c, vic, q, f, t.via2.pins);
    assert (t.vic.state, t.vic.out) == c.vicTick(vic, q, f);
    assert forall a :: f(a) == VicFetch(t.bus.banks, memVic, a);
  }

  /** An access to the I/O window leaves memory alone, and through the CPU
      map no ROM changes. */
  lemma TickMemory(c: Chips, cpu: CpuState, via1: ViaState, via2: ViaState, vic: VicState, kbd: KbdState,
                   memCpu: MemMap, memVic: MemMap, banks: Banks, pins: bv64)
    requires banks.Valid() && MapFits(memCpu) && MapFits(memVic)
    ensures var t := StagesOf(c, cpu, via1, via2, vic, kbd, memCpu, memVic, banks, pins);
      && t.bus == MemAccess(t.cleared, memCpu, banks)
      && (InIoWindow(t.cpuPins) ==> t.bus.banks == banks)
      && (memCpu == CpuMap() ==>
            && t.bus.banks.charRom == banks.charRom && t.bus.banks.basicRom == banks.basicRom
            && t.bus.banks.kernalRom == banks.kernalRom)
  {
    var t := StagesOf(c, cpu, via1, via2, vic, kbd, memCpu, memVic, banks, pins);
    assert t.bus == MemAccess(t.cleared, memCpu, banks);
    ClearedAddress(t.cpuPins);
    MemAccessKeepsRoms(t.cleared, memCpu, banks);
  }

  datatype TickResult = TickResult(m: Machine, pins: bv64, flushed: Option<seq<Sample>>)

  /** The board after one tick, the pins it returns, and the sample block
      handed to the audio callback, if any. */
  function Tick(c: Chips, m: Machine, pins: bv64): (r: TickResult)
    requires m.Valid()
    ensures r.m.Valid()
    ensures r.m.pins == m.pins && r.m.valid == m.valid && r.m.debug == m.debug && r.m.keys == m.keys
  {
    var k := StagesOf(c, m.cpu, m.via1, m.via2, m.vic, m.kbd, m.memCpu, m.memVic, m.banks, pins);
    var a := VicAudio(c, k.vic.state, k.vic.out, m.audio);
    TickResult(
      m.(cpu := k.cpu, via1 := k.via1.state, via2 := k.via2.state, vic := k.vic.state, kbd := k.kbd,
         audio := a.audio, banks := k.bus.banks),
      k.vic.pins, a.flushed)
  }

  /** What a tick leaves: the chips' new states and the banks of its stages,
      the pins the stages returned, and the VIC's sample pushed into the audio
      buffer exactly when the VIC strobes SAMPLE. */
  lemma TickOutcome(c: Chips, m: Machine, pins: bv64)
    requires m.Valid()
    ensures var t := StagesOf(c, m.cpu, m.via1, m.via2, m.vic, m.kbd, m.memCpu, m.memVic, m.banks, pins);
            var r := Tick(c, m, pins);
      && r.pins == t.vic.pins && r.m.banks == t.bus.banks && r.m.cpu == t.cpu && r.m.kbd == t.kbd
      && r.m.via1 == t.via1.state && r.m.via2 == t.via2.state && r.m.vic == t.vic.state
      && (t.vic.out & VIC_SAMPLE != 0 ==>
            var pushed := PushSample(m.audio, c.vicSample(t.vic.state));
            r.m.audio == pushed.audio && r.flushed == pushed.flushed)
      && (t.vic.out & VIC_SAMPLE == 0 ==> r.m.audio == m.audio && r.flushed == None)
  {
  }

  /** A tick neither reads nor changes the debug hook. */
  lemma TickIgnoresDebug(c: Chips, m: Machine, d: Debug, pins: bv64)
    requires m.Valid()
    ensures Tick(c, m.(debug := d), pins) == Tick(c, m, pins).(m := Tick(c, m, pins).m.(debug := d))
  {
  }

  // ---------------------------------------------------------------- execution

  /** The ticks in `us` microseconds at the system clock, as the 32-bit
      count the board computes. */
  function TicksFor(us: nat): (n: nat)
    ensures n < 0x1_0000_0000
    ensures FREQUENCY * us < 0x1_0000_0000 * 1_000_000 ==> n * 1_000_000 <= FREQUENCY * us < (n + 1) * 1_000_000
  {
    (FREQUENCY * us / 1_000_000) % 0x1_0000_0000
  }

  lemma TicksExamples()
    ensures TicksFor(1000) == 1108
    ensures TicksFor(0) == 0
  {
  }

  datatype RunResult = RunResult(m: Machine, pins: bv64, delivered: seq<seq<Sample>>, ticks: nat)

  function Blocks(flushed: Option<seq<Sample>>): seq<seq<Sample>>
  {
    if flushed.Some? then [flushed.value] else []
  }

  /** The tick as a step function over boards. The host only ever runs a
      valid board; any other board is left as it is. */
  function Step(c: Chips): (step: (Machine, bv64) -> TickResult)
  {
    (m: Machine, pins: bv64) => if m.Valid() then Tick(c, m, pins) else TickResult(m, pins, None)
  }

  /** `n` steps without a debug hook, each fed the pins the previous one
      returned: the first `n - 1` steps, then one more. */
  function Run(step: (Machine, bv64) -> TickResult, m: Machine, pins: bv64, n: nat): (r: RunResult)
    ensures r.ticks == n && |r.delivered| <= n
    decreases n
  {
    if n == 0 then RunResult(m, pins, [], 0)
    else
      var prev := Run(step, m, pins, n - 1);
      var t := step(prev.m, prev.pins);
      RunResult(t.m, t.pins, prev.delivered + Blocks(t.flushed), n)
  }

  /** The debug loop's result: the run, and the hook after it. */
  datatype DebugRun = DebugRun(run: RunResult, hook: Debug)

  /** Up to `n` steps with a debug hook: before each step the loop stops if
      the debugger says so; after each step the hook sees the pins. A run
      that stopped before its budget ran out stays as it is. */
  function RunDebug(step: (Machine, bv64) -> TickResult, m: Machine, hook: Debug, pins: bv64, n: nat): (r: DebugRun)
    requires hook.Debug?
    ensures r.run.ticks <= n && |r.run.delivered| <= r.run.ticks
    ensures r.hook.Debug? && r.hook.step == hook.step && r.hook.stopped == hook.stopped
    ensures r.run.ticks < n ==> r.hook.stopped(r.hook.state)
    decreases n
  {
    if n == 0 then DebugRun(RunResult(m, pins, [], 0), hook)
    else
      var prev := RunDebug(step, m, hook, pins, n - 1);
      if prev.run.ticks < n - 1 || prev.hook.stopped(prev.hook.state) then prev
      else
        var t := step(prev.run.m, prev.run.pins);
        DebugRun(RunResult(t.m, t.pins, prev.run.delivered + Blocks(t.flushed), n),
                 prev.hook.(state := prev.hook.step(prev.hook.state, t.pins)))
  }

  /** `r` is board `m` after some ticks: still valid, with the same stored
      pins, valid flag and key map, and a debug hook exactly when `m` has
      one. */
  predicate Kept(m: Machine, r: Machine)
  {
    r.Valid() && r.pins == m.pins && r.valid == m.valid && r.debug.Debug? == m.debug.Debug? && r.keys == m.keys
  }

  /** A step function that takes every valid board to one it keeps. */
  ghost predicate KeepsBoards(step: (Machine, bv64) -> TickResult)
  {
    forall m: Machine, pins: bv64 :: m.Valid() ==> Kept(m, step(m, pins).m)
  }

  /** The tick keeps every valid board. */
  lemma StepKeepsBoards(c: Chips)
    ensures KeepsBoards(Step(c))
  {
    forall m: Machine, pins: bv64 | m.Valid()
      ensures Kept(m, Step(c)(m, pins).m)
    {
      assert Step(c)(m, pins) == Tick(c, m, pins);
    }
  }

  /** Running a step function that keeps boards keeps the board. */
  lemma {:induction false} RunKeepsValid(step: (Machine, bv64) -> TickResult, m: Machine, pins: bv64, n: nat)
    requires KeepsBoards(step) && m.Valid()
    ensures Kept(m, Run(step, m, pins, n).m)
    decreases n
  {
    if n > 0 {
      RunKeepsValid(step, m, pins, n - 1);
    }
  }

  /** The same for the debug loop. */
  lemma {:induction false} RunDebugKeepsValid(step: (Machine, bv64) -> TickResult, m: Machine, hook: Debug, pins: bv64, n: nat)
    requires KeepsBoards(step) && m.Valid() && hook.Debug?
    ensures Kept(m, RunDebug(step, m, hook, pins, n).run.m)
    decreases n
  {
    if n > 0 {
      RunDebugKeepsValid(step, m, hook, pins, n - 1);
    }
  }

  /** Once the debugger has stopped the loop, a larger budget changes
      nothing. */
  lemma {:induction false} StoppedRunStays(step: (Machine, bv64) -> TickResult, m: Machine, hook: Debug, pins: bv64, i: nat, n: nat)
    requires hook.Debug? && i <= n
    requires var r := RunDebug(step, m, hook, pins, i); r.run.ticks == i && r.hook.stopped(r.hook.state)
    ensures RunDebug(step, m, hook, pins, n) == RunDebug(step, m, hook, pins, i)
    decreases n
  {
    if n > i {
      StoppedRunStays(step, m, hook, pins, i, n - 1);
    }
  }

  /** A hook that never stops makes the debug loop run exactly the steps of
      the free loop, to the same board, pins and delivered samples. */
  lemma {:induction false} NeverStoppedRunsAll(step: (Machine, bv64) -> TickResult, m: Machine, hook: Debug, pins: bv64, n: nat)
    requires hook.Debug?
    requires forall s :: !hook.stopped(s)
    ensures RunDebug(step, m, hook, pins, n).run == Run(step, m, pins, n)
    decreases n
  {
    if n > 0 {
      NeverStoppedRunsAll(step, m, hook, pins, n - 1);
    }
  }

  /** The debugger's state after the first `k` ticks of the free loop from
      `m`: it starts as the hook's own state and is advanced by the hook's
      step on the pins each tick returns. */
  function HookAfter(step: (Machine, bv64) -> TickResult, m: Machine, hook: Debug, pins: bv64, k: nat): DebugState
    requires hook.Debug?
    decreases k
  {
    if k == 0 then hook.state
    else hook.step(HookAfter(step, m, hook, pins, k - 1), Run(step, m, pins, k).pins)
  }

  /** Whatever the hook does, the debug loop runs the free loop's first
      `ticks` steps, the hook has seen the pins after each of them, the
      debugger let every one of them start, and a run that ended early was
      stopped by the debugger. */
  lemma {:induction false} RunDebugTrace(step: (Machine, bv64) -> TickResult, m: Machine, hook: Debug, pins: bv64, n: nat)
    requires hook.Debug?
    ensures var r := RunDebug(step, m, hook, pins, n);
      && r.run == Run(step, m, pins, r.run.ticks)
      && r.hook == hook.(state := HookAfter(step, m, hook, pins, r.run.ticks))
      && (forall i: nat :: i < r.run.ticks ==> !hook.stopped(HookAfter(step, m, hook, pins, i)))
      && (r.run.ticks < n ==> hook.stopped(HookAfter(step, m, hook, pins, r.run.ticks)))
    decreases n
  {
    if n > 0 {
      RunDebugTrace(step, m, hook, pins, n - 1);
    }
  }

  datatype ExecResult = ExecResult(m: Machine, ticks: nat, executed: nat, delivered: seq<seq<Sample>>)

  /** Runs the board for `us` microseconds: the free loop without a hook, the
      debug loop with one; the final pins are stored, the keyboard's timers
      advance by `us`, and the computed tick count is returned even when the
      debug loop stopped early. */
  function Exec(c: Chips, m: Machine, us: nat): (r: ExecResult)
    requires m.Valid()
    ensures r.m.Valid() && r.ticks == TicksFor(us) && r.m.debug.Debug? == m.debug.Debug?
    ensures r.m.valid == m.valid && r.m.keys == m.keys
    ensures m.debug.NoDebug? ==> r.executed == r.ticks
    ensures m.debug.Debug? ==> r.executed <= r.ticks && (r.executed < r.ticks ==> r.m.debug.stopped(r.m.debug.state))
    ensures m.debug.NoDebug? ==>
              var run := Run(Step(c), m, m.pins, TicksFor(us));
              r.m == run.m.(pins := run.pins, kbd := c.kbdUpdate(run.m.kbd, us)) && r.delivered == run.delivered
    ensures m.debug.Debug? ==>
              var dr := RunDebug(Step(c), m, m.debug, m.pins, TicksFor(us));
              && r.m == dr.run.m.(pins := dr.run.pins, kbd := c.kbdUpdate(dr.run.m.kbd, us), debug := dr.hook)
              && r.delivered == dr.run.delivered && r.executed == dr.run.ticks
  {
    var n := TicksFor(us);
    if m.debug.NoDebug? then
      var run := Run(Step(c), m, m.pins, n);
      StepKeepsBoards(c);
      RunKeepsValid(Step(c), m, m.pins, n);
      ExecResult(run.m.(pins := run.pins, kbd := c.kbdUpdate(run.m.kbd, us)), n, run.ticks, run.delivered)
    else
      var dr := RunDebug(Step(c), m, m.debug, m.pins, n);
      StepKeepsBoards(c);
      RunDebugKeepsValid(Step(c), m, m.debug, m.pins, n);
      ExecResult(dr.run.m.(pins := dr.run.pins, kbd := c.kbdUpdate(dr.run.m.kbd, us), debug := dr.hook),
                 n, dr.run.ticks, dr.run.delivered)
  }

  /** Zero microseconds run no tick: only the keyboard's timers are told. */
  lemma ExecZero(c: Chips, m: Machine)
    requires m.Valid()
    ensures Exec(c, m, 0) == ExecResult(m.(kbd := c.kbdUpdate(m.kbd, 0)), 0, 0, [])
  {
    assert TicksFor(0) == 0;
  }

  // ---------------------------------------------------------------- init, reset, keys

  /** The configuration of a new board. */
  datatype Desc = Desc(
    debug: Debug,
    audioCallback: bool,
    numSamples: int,
    charRom: seq<bv8>,
    basicRom: seq<bv8>,
    kernalRom: seq<bv8>)

  function Zeros(n: nat): (s: seq<bv8>)
    ensures |s| == n && forall i :: 0 <= i < n ==> s[i] == 0
  {
    seq(n, _ => 0)
  }

  /** The sample count in use: the configured one, or 128 when it is 0. */
  function SampleCount(requested: int): (n: int)
    ensures requested != 0 ==> n == requested
    ensures requested == 0 ==> n == DEFAULT_AUDIO_SAMPLES
  {
    if requested != 0 then requested else DEFAULT_AUDIO_SAMPLES
  }

  /** A freshly initialised board: zeroed RAM, the ROM images copied in,
      chips in their initial states, the key map registered, both memory maps
      built, and an empty sample buffer of the configured size. */
  ghost predicate Initial(c: Chips, desc: Desc, m: Machine)
  {
    && m.Valid()
    && m.valid && m.debug == desc.debug
    && m.audio.callback == desc.audioCallback
    && m.audio.numSamples == SampleCount(desc.numSamples)
    && m.audio.samplePos == 0
    && m.banks == Banks(Zeros(0x400), Zeros(0x400), Zeros(0xC00), Zeros(0x1000),
                        desc.charRom, desc.basicRom, desc.kernalRom, Zeros(4 * 0x2000))
    && (m.cpu, m.pins) == c.cpuInit
    && m.via1 == c.viaInit && m.via2 == c.viaInit && m.vic == c.vicInit
    && m.kbd == c.kbdInit && KeyMapSpec(m.keys)
  }

  /** Reset: the CPU's RES pin is raised and the VIAs and the VIC are reset;
      the CPU itself, memory, keyboard and audio are left alone. */
  function Reset(c: Chips, m: Machine): (r: Machine)
    ensures r.pins & RES != 0 && Agree(r.pins, m.pins, !RES)
    ensures r.via1 == c.viaReset(m.via1) && r.via2 == c.viaReset(m.via2) && r.vic == c.vicReset(m.vic)
    ensures r.banks == m.banks && r.cpu == m.cpu && r.kbd == m.kbd && r.audio == m.audio
    ensures r.memCpu == m.memCpu && r.memVic == m.memVic && r.keys == m.keys && r.valid == m.valid
    ensures r.debug == m.debug
  {
    m.(pins := m.pins | RES, via1 := c.viaReset(m.via1), via2 := c.viaReset(m.via2), vic := c.vicReset(m.vic))
  }

  // ---------------------------------------------------------------- quickload

  /** The load address: the first two bytes, little-endian. */
  function LoadAddress(data: seq<bv8>): (a: Addr)
    requires |data| >= 2
    ensures a % 0x100 == data[0] as int && a / 0x100 == data[1] as int
  {
    data[1] as int * 0x100 + data[0] as int
  }

  /** How many payload bytes are written: the end address is computed in 16
      bits, and bytes go out while the address is below it. */
  function LoadCount(data: seq<bv8>): (n: nat)
    requires |data| >= 2
    ensures n <= |data| - 2 && LoadAddress(data) + n <= 0x1_0000
    ensures LoadAddress(data) + |data| - 2 < 0x1_0000 ==> n == |data| - 2
    ensures 0x1_0000 <= LoadAddress(data) + |data| - 2 && |data| - 2 <= 0x1_0000 ==> n == 0
    ensures n > 0 ==> LoadAddress(data) + n == (LoadAddress(data) + |data| - 2) % 0x1_0000
    ensures n == 0 ==> (LoadAddress(data) + |data| - 2) % 0x1_0000 <= LoadAddress(data)
  {
    var start := LoadAddress(data);
    var end := (start + |data| - 2) % 0x1_0000;
    if start < end then end - start else 0
  }

  datatype Loaded = Loaded(ok: bool, banks: Banks)

  /** Quickload: refused when there is no load address; otherwise the
      payload is written through the CPU map from the load address on. */
  function Quickload(banks: Banks, memCpu: MemMap, data: seq<bv8>): (r: Loaded)
    requires banks.Valid() && MapFits(memCpu)
    ensures r.banks.Valid()
    ensures r.ok <==> |data| >= 2
    ensures !r.ok ==> r.banks == banks
  {
    if |data| < 2 then Loaded(false, banks)
    else
      var start := LoadAddress(data);
      Loaded(true, WriteAll(banks, memCpu, start, data[2..2 + LoadCount(data)]))
  }

  /** Through the CPU map a quickload never changes the ROMs. */
  lemma QuickloadKeepsRoms(banks: Banks, data: seq<bv8>)
    requires banks.Valid()
    ensures var b := Quickload(banks, CpuMap(), data).banks;
            b.charRom == banks.charRom && b.basicRom == banks.basicRom && b.kernalRom == banks.kernalRom
  {
    if |data| >= 2 {
      var bytes := data[2..2 + LoadCount(data)];
      var start := LoadAddress(data);
      WriteAllKeeps(banks, CpuMap(), start, bytes, CharRom);
      WriteAllKeeps(banks, CpuMap(), start, bytes, BasicRom);
      WriteAllKeeps(banks, CpuMap(), start, bytes, KernalRom);
    }
  }

  /** A quickload changes no byte outside the payload's addresses: every
      other CPU address reads as before, and the unmapped expansion RAM is
      untouched. */
  lemma QuickloadKeepsOthers(banks: Banks, data: seq<bv8>, a: Addr)
    requires banks.Valid() && |data| >= 2
    requires a < LoadAddress(data) || LoadAddress(data) + LoadCount(data) <= a
    ensures var b := Quickload(banks, CpuMap(), data).banks;
            Read(b, CpuMap(), a) == Read(banks, CpuMap(), a) && b.ram3k == banks.ram3k && b.ramExp == banks.ramExp
  {
    MapsHaveDistinctBanks();
    WriteAllFrame(banks, CpuMap(), LoadAddress(data), data[2..2 + LoadCount(data)], a);
  }

  /** Every payload byte that lands on RAM reads back from its address. */
  lemma QuickloadReadBack(banks: Banks, data: seq<bv8>, i: nat)
    requires banks.Valid() && |data| >= 2 && i < LoadCount(data)
    requires Writable(CpuMap(), LoadAddress(data) + i)
    ensures Read(Quickload(banks, CpuMap(), data).banks, CpuMap(), LoadAddress(data) + i) == data[2 + i]
  {
    var bytes := data[2..2 + LoadCount(data)];
    MapsHaveDistinctBanks();
    WriteAllReadBack(banks, CpuMap(), LoadAddress(data), bytes, i);
  }

  /** The file `00 10 AA BB` puts 0xAA at 0x1000 and 0xBB at 0x1001. */
  lemma QuickloadExample(banks: Banks)
    requires banks.Valid()
    ensures var b := Quickload(banks, CpuMap(), [0x00, 0x10, 0xAA, 0xBB]).banks;
            Read(b, CpuMap(), 0x1000) == 0xAA && Read(b, CpuMap(), 0x1001) == 0xBB
  {
    var data: seq<bv8> := [0x00, 0x10, 0xAA, 0xBB];
    assert LoadAddress(data) == 0x1000 && LoadCount(data) == 2;
    CpuWritable(0x1000);
    CpuWritable(0x1001);
    QuickloadReadBack(banks, data, 0);
    QuickloadReadBack(banks, data, 1);
  }

  // ---------------------------------------------------------------- snapshots

  /** A snapshot: a copy of the board with the host hooks (debug hook, audio
      callback) dropped and the chips' own references cleared. */
  function Save(c: Chips, m: Machine): (r: Machine)
    ensures r.debug == NoDebug && !r.audio.callback
    ensures r.banks == m.banks && r.pins == m.pins && r.via1 == m.via1 && r.via2 == m.via2 && r.kbd == m.kbd
    ensures r.audio == m.audio.(callback := false)
    ensures r.cpu == c.cpuOnSave(m.cpu) && r.vic == c.vicOnSave(m.vic)
    ensures r.valid == m.valid && r.keys == m.keys && r.memCpu == m.memCpu && r.memVic == m.memVic
  {
    m.(debug := NoDebug, audio := m.audio.(callback := false), cpu := c.cpuOnSave(m.cpu), vic := c.vicOnSave(m.vic))
  }

  datatype Restored = Restored(ok: bool, m: Machine)

  /** Loading a snapshot: another version is refused and the board left as
      it is; otherwise the snapshot replaces the board, keeping the live
      board's host hooks and chip references. */
  function Load(c: Chips, live: Machine, version: int, src: Machine): (r: Restored)
    ensures version != SNAPSHOT_VERSION ==> r == Restored(false, live)
    ensures version == SNAPSHOT_VERSION ==>
              && r.ok && r.m.debug == live.debug && r.m.audio.callback == live.audio.callback
              && r.m.banks == src.banks && r.m.pins == src.pins && r.m.kbd == src.kbd
              && r.m.audio.samplePos == src.audio.samplePos && r.m.audio.numSamples == src.audio.numSamples
    ensures version == SNAPSHOT_VERSION ==>
              r.m == src.(debug := live.debug, audio := src.audio.(callback := live.audio.callback),
                          cpu := c.cpuOnLoad(src.cpu, live.cpu), vic := c.vicOnLoad(src.vic, live.vic))
  {
    if version != SNAPSHOT_VERSION then Restored(false, live)
    else
      Restored(true, src.(debug := live.debug, audio := src.audio.(callback := live.audio.callback),
                          cpu := c.cpuOnLoad(src.cpu, live.cpu), vic := c.vicOnLoad(src.vic, live.vic)))
  }

  /** Saving and at once loading back restores the board exactly, given
      that the chips restore their own references. */
  lemma SaveLoadRoundTrip(c: Chips, m: Machine)
    requires forall s :: c.cpuOnLoad(c.cpuOnSave(s), s) == s
    requires forall s :: c.vicOnLoad(c.vicOnSave(s), s) == s
    ensures Load(c, m, SNAPSHOT_VERSION, Save(c, m)) == Restored(true, m)
  {
    var r := Load(c, m, SNAPSHOT_VERSION, Save(c, m)).m;
    assert r.cpu == m.cpu && r.vic == m.vic;
    assert r.audio == m.audio;
  }

  /** Save, load, save: the second snapshot equals the first. */
  lemma SaveLoadSave(c: Chips, m: Machine)
    requires forall s :: c.cpuOnLoad(c.cpuOnSave(s), s) == s
    requires forall s :: c.vicOnLoad(c.vicOnSave(s), s) == s
    ensures Save(c, Load(c, m, SNAPSHOT_VERSION, Save(c, m)).m) == Save(c, m)
  {
    SaveLoadRoundTrip(c, m);
  }
}
