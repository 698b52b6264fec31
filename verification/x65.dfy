/** The board as the object the host program drives: its fields are updated
    in place by each entry point, the audio sample buffer is a fixed-size
    array, and every method is proved to do to the state what the matching
    function of `Board` says. */
module X65System {
  import opened Wrappers
  import opened Pins
  import opened Memory
  import opened Keyboard
  import opened Board

  class X65 {
    /** The chip emulators the board is built from. */
    const chips: Chips

    var cpu: CpuState
    var via1: ViaState
    var via2: ViaState
    var vic: VicState
    var pins: bv64
    var kbd: KbdState
    /** The key registrations of the keyboard matrix. */
    var keys: KeyMap
    var memCpu: MemMap
    var memVic: MemMap
    var valid: bool
    var debug: Debug
    /** The RAM and ROM banks, replaced as a whole by each write. */
    var banks: Banks

    var audioCallback: bool
    var numSamples: int
    var samplePos: int
    const sampleBuffer: array<Sample>

    /** The sample buffer has its fixed size and the position lies inside
        its used part. */
    predicate AudioValid()
      reads this`numSamples, this`samplePos
    {
      AudioFits(sampleBuffer.Length, numSamples, samplePos)
    }

    /** The audio state is consistent, the banks have their sizes, and the
        two memory maps are the board's. */
    predicate Valid()
      reads this`numSamples, this`samplePos, this`banks, this`memCpu, this`memVic
    {
      BoardFits(sampleBuffer.Length, numSamples, samplePos, banks, memCpu, memVic)
    }

    /** The audio state. */
    function AudioValue(): (a: Audio)
      requires AudioValid()
      reads this`audioCallback, this`numSamples, this`samplePos, sampleBuffer
      ensures a.Valid()
    {
      Audio(audioCallback, numSamples, samplePos, sampleBuffer[..])
    }

    /** The whole board as a value. */
    function State(): (m: Machine)
      requires Valid()
      reads this, sampleBuffer
      ensures m.Valid()
    {
      Machine(cpu, via1, via2, vic, pins, kbd, keys, memCpu, memVic, valid, debug, AudioValue(), banks)
    }

    /** A new board: zeroed RAM, the ROM images copied in, the chips in their
        initial states, the key map registered and both memory maps built.
        The configuration must carry ROM images of the right sizes and a
        sample count the buffer can hold. */
    constructor(chips: Chips, desc: Desc)
      requires |desc.charRom| == 0x1000 && |desc.basicRom| == 0x2000 && |desc.kernalRom| == 0x2000
      requires 0 <= desc.numSamples <= MAX_AUDIO_SAMPLES
      ensures Valid() && Initial(chips, desc, State())
      ensures this.chips == chips && fresh(sampleBuffer)
    {
      this.chips := chips;
      valid := true;
      debug := desc.debug;
      audioCallback := desc.audioCallback;
      numSamples := SampleCount(desc.numSamples);
      samplePos := 0;
      sampleBuffer := new Sample[MAX_AUDIO_SAMPLES];
      banks := Banks(Zeros(0x400), Zeros(0x400), Zeros(0xC00), Zeros(0x1000),
                     desc.charRom, desc.basicRom, desc.kernalRom, Zeros(4 * 0x2000));
      cpu, pins := chips.cpuInit.0, chips.cpuInit.1;
      via1 := chips.viaInit;
      via2 := chips.viaInit;
      vic := chips.vicInit;
      kbd := chips.kbdInit;
      var km := InitKeyMap();
      keys := km;
      memCpu := CpuMap();
      memVic := VicMap();
    }

    /** Marks the board as no longer in use. */
    method Discard()
      requires Valid() && valid
      modifies this`valid
      ensures Valid() && !valid
      ensures State() == old(State()).(valid := false)
    {
      valid := false;
    }

    /** Raises the CPU's RES pin and resets the VIAs and the VIC. */
    method Reset()
      requires Valid() && valid
      modifies this`pins, this`via1, this`via2, this`vic
      ensures Valid()
      ensures State() == Board.Reset(chips, old(State()))
    {
      SetPins(pins | RES);
      SetVias(chips.viaReset(via1), chips.viaReset(via2));
      SetVic(chips.vicReset(vic));
    }

    /** Stores a sample and advances the position; a full buffer goes to the
        audio callback (returned here) and the position restarts at 0. */
    method PushSample(s: Sample) returns (flushed: Option<seq<Sample>>)
      requires AudioValid()
      modifies this`samplePos, sampleBuffer
      ensures AudioValid()
      ensures var r := Board.PushSample(old(AudioValue()), s); AudioValue() == r.audio && flushed == r.flushed
    {
      sampleBuffer[samplePos] := s;
      samplePos := samplePos + 1;
      flushed := None;
      if samplePos == numSamples {
        if audioCallback {
          flushed := Some(sampleBuffer[..numSamples]);
        }
        samplePos := 0;
      }
    }

    /** The VIC's audio sample pushed into the buffer when its output pins
        strobe SAMPLE. */
    method Sound(vicState: VicState, out: bv64) returns (flushed: Option<seq<Sample>>)
      requires Valid()
      modifies this`samplePos, sampleBuffer
      ensures Valid()
      ensures var r := VicAudio(chips, vicState, out, old(AudioValue()));
              State() == old(State()).(audio := r.audio) && flushed == r.flushed
    {
      flushed := None;
      if out & VIC_SAMPLE != 0 {
        flushed := PushSample(chips.vicSample(vicState));
      }
    }

    /** The chip stages of a tick (CPU, memory, VIA 1, VIA 2 with the
        keyboard, VIC), applied to the board's fields. */
    method RunStages(p0: bv64) returns (k: Stages)
      requires Valid()
      modifies this`cpu, this`banks, this`via1, this`via2, this`kbd, this`vic
      ensures Valid()
      ensures k == StagesOf(chips, old(cpu), old(via1), old(via2), old(vic), old(kbd), memCpu, memVic, old(banks), p0)
      ensures State() == old(State()).(cpu := k.cpu, via1 := k.via1.state, via2 := k.via2.state, vic := k.vic.state,
                                      kbd := k.kbd, banks := k.bus.banks)
    {
      k := StagesOf(chips, cpu, via1, via2, vic, kbd, memCpu, memVic, banks, p0);
      Commit(k);
    }

    /** Stores the chips' new states and the banks a tick's stages left. */
    method Commit(k: Stages)
      requires Valid() && k.bus.banks.Valid()
      modifies this`cpu, this`banks, this`via1, this`via2, this`kbd, this`vic
      ensures Valid()
      ensures State() == old(State()).(cpu := k.cpu, via1 := k.via1.state, via2 := k.via2.state, vic := k.vic.state,
                                      kbd := k.kbd, banks := k.bus.banks)
    {
      SetCpu(k.cpu);
      SetBanks(k.bus.banks);
      SetVias(k.via1.state, k.via2.state);
      SetKbd(k.kbd);
      SetVic(k.vic.state);
    }

    /** One tick: the chip stages, then the VIC's audio sample when it
        strobes SAMPLE. Returns the CPU's pins and the sample block handed
        to the audio callback, if any. */
    method Tick(p0: bv64) returns (p: bv64, flushed: Option<seq<Sample>>)
      requires Valid()
      modifies this, sampleBuffer
      ensures Valid()
      ensures TickResult(State(), p, flushed) == Board.Tick(chips, old(State()), p0)
    {
      ghost var m0 := State();
      var k := RunStages(p0);
      assert k == StagesOf(chips, m0.cpu, m0.via1, m0.via2, m0.vic, m0.kbd, m0.memCpu, m0.memVic, m0.banks, p0);
      p := k.vic.pins;
      flushed := Sound(k.vic.state, k.vic.out);
    }

    /** The free loop: `n` ticks, each fed the pins the previous one
        returned, collecting the sample blocks handed to the callback. */
    method RunFree(n: nat, p0: bv64) returns (p: bv64, delivered: seq<seq<Sample>>)
      requires Valid()
      modifies this, sampleBuffer
      ensures Valid()
      ensures var r := Run(Step(chips), old(State()), p0, n); State() == r.m && p == r.pins && delivered == r.delivered
    {
      ghost var m0 := State();
      p, delivered := p0, [];
      for i := 0 to n
        invariant Valid()
        invariant Run(Step(chips), m0, p0, i) == RunResult(State(), p, delivered, i)
      {
        var flushed;
        p, flushed := Tick(p);
        delivered := delivered + Blocks(flushed);
      }
    }

    /** The debug loop: before each of at most `n` ticks it stops if the
        debugger says so, and after each tick the hook sees the pins.
        Returns the hook with the debugger's state after the loop. */
    method RunHooked(n: nat, p0: bv64) returns (p: bv64, delivered: seq<seq<Sample>>, executed: nat, hook: Debug)
      requires Valid() && debug.Debug?
      modifies this, sampleBuffer
      ensures Valid()
      ensures var r := RunDebug(Step(chips), old(State()), old(debug), p0, n);
              State() == r.run.m && p == r.run.pins && delivered == r.run.delivered &&
              executed == r.run.ticks && hook == r.hook
    {
      ghost var m0 := State();
      hook := debug;
      p, delivered, executed := p0, [], 0;
      while executed < n && !hook.stopped(hook.state)
        invariant Valid() && executed <= n
        invariant RunDebug(Step(chips), m0, m0.debug, p0, executed) == DebugRun(RunResult(State(), p, delivered, executed), hook)
        decreases n - executed
      {
        var flushed;
        p, flushed := Tick(p);
        delivered := delivered + Blocks(flushed);
        executed := executed + 1;
        hook := hook.(state := hook.step(hook.state, p));
      }
      if executed < n {
        StoppedRunStays(Step(chips), m0, m0.debug, p0, executed, n);
      }
    }

    /** Runs the board for `us` microseconds: the free loop, or the debug
        loop when a hook is set; the final pins are stored and the keyboard's
        timers advanced. Returns the computed tick count and the sample
        blocks handed to the audio callback. */
    method Exec(us: nat) returns (ticks: nat, delivered: seq<seq<Sample>>)
      requires Valid() && valid
      modifies this, sampleBuffer
      ensures Valid()
      ensures var r := Board.Exec(chips, old(State()), us); State() == r.m && ticks == r.ticks && delivered == r.delivered
    {
      ghost var m0 := State();
      ghost var r := Board.Exec(chips, m0, us);
      ticks := TicksFor(us);
      var p;
      if debug.NoDebug? {
        p, delivered := RunFree(ticks, pins);
        ghost var run := Run(Step(chips), m0, m0.pins, ticks);
        assert r.m == run.m.(pins := p, kbd := chips.kbdUpdate(kbd, us)) && r.delivered == delivered;
      } else {
        var executed, hook;
        p, delivered, executed, hook := RunHooked(ticks, pins);
        ghost var dr := RunDebug(Step(chips), m0, m0.debug, m0.pins, ticks);
        assert r.m == dr.run.m.(pins := p, kbd := chips.kbdUpdate(kbd, us), debug := hook) && r.delivered == delivered;
        SetDebug(hook);
      }
      SetPins(p);
      SetKbd(chips.kbdUpdate(kbd, us));
    }

    /** A host key goes down in the keyboard matrix. */
    method KeyDown(code: int)
      requires Valid() && valid
      modifies this`kbd
      ensures Valid()
      ensures State() == old(State()).(kbd := chips.kbdKeyDown(old(kbd), keys, code))
    {
      kbd := chips.kbdKeyDown(kbd, keys, code);
    }

    /** A host key goes up in the keyboard matrix. */
    method KeyUp(code: int)
      requires Valid() && valid
      modifies this`kbd
      ensures Valid()
      ensures State() == old(State()).(kbd := chips.kbdKeyUp(old(kbd), keys, code))
    {
      kbd := chips.kbdKeyUp(kbd, keys, code);
    }

    /** Loads a program file: the first two bytes are the load address, the
        rest is written byte by byte through the CPU map while the 16-bit
        address is below the 16-bit end address. A file shorter than two
        bytes is refused. */
    method Quickload(data: seq<bv8>) returns (ok: bool)
      requires Valid() && valid && |data| > 0
      modifies this`banks
      ensures Valid()
      ensures var r := Board.Quickload(old(banks), memCpu, data); ok == r.ok && banks == r.banks
    {
      if |data| < 2 {
        return false;
      }
      var start := LoadAddress(data);
      var end := (start + (|data| - 2)) % 0x1_0000;
      assert (if start < end then end - start else 0) == LoadCount(data);
      assert data[2..][..LoadCount(data)] == data[2..2 + LoadCount(data)];
      banks := WriteRun(banks, memCpu, start, end, data[2..]);
      ok := true;
    }

    /** A snapshot of the board: a copy with the host hooks and the chips'
        references dropped, and the version it is tagged with. */
    method SaveSnapshot() returns (version: int, snap: Machine)
      requires Valid()
      ensures version == SNAPSHOT_VERSION && snap == Save(chips, State())
    {
      version := SNAPSHOT_VERSION;
      snap := Save(chips, State());
    }

    /** Overwrites the whole sample buffer. */
    method CopySamples(samples: seq<Sample>)
      requires |samples| == sampleBuffer.Length
      modifies sampleBuffer
      ensures sampleBuffer[..] == samples
    {
      forall i | 0 <= i < sampleBuffer.Length {
        sampleBuffer[i] := samples[i];
      }
    }

    /** Overwrites the whole board with a board value. */
    method Store(im: Machine)
      requires Valid() && im.Valid()
      modifies this, sampleBuffer
      ensures Valid() && State() == im
    {
      SetCpu(im.cpu);
      SetPins(im.pins);
      SetVias(im.via1, im.via2);
      SetVic(im.vic);
      SetKbd(im.kbd);
      SetBanks(im.banks);
      SetMaps(im.memCpu, im.memVic);
      SetHost(im.keys, im.valid, im.debug);
      SetAudio(im.audio);
    }

    // ---- field updates, each stated on the board value

    /** Replaces the CPU's state. */
    method SetCpu(c: CpuState)
      requires Valid()
      modifies this`cpu
      ensures Valid() && State() == old(State()).(cpu := c)
    {
      cpu := c;
    }

    /** Replaces the stored CPU pins. */
    method SetPins(p: bv64)
      requires Valid()
      modifies this`pins
      ensures Valid() && State() == old(State()).(pins := p)
    {
      pins := p;
    }

    /** Replaces both VIAs' states. */
    method SetVias(v1: ViaState, v2: ViaState)
      requires Valid()
      modifies this`via1, this`via2
      ensures Valid() && State() == old(State()).(via1 := v1, via2 := v2)
    {
      via1, via2 := v1, v2;
    }

    /** Replaces the VIC's state. */
    method SetVic(v: VicState)
      requires Valid()
      modifies this`vic
      ensures Valid() && State() == old(State()).(vic := v)
    {
      vic := v;
    }

    /** Replaces the keyboard matrix's state. */
    method SetKbd(k: KbdState)
      requires Valid()
      modifies this`kbd
      ensures Valid() && State() == old(State()).(kbd := k)
    {
      kbd := k;
    }

    /** Replaces the memory banks with banks of the right sizes. */
    method SetBanks(b: Banks)
      requires Valid() && b.Valid()
      modifies this`banks
      ensures Valid() && State() == old(State()).(banks := b)
    {
      banks := b;
    }

    /** Stores the board's two memory maps. */
    method SetMaps(mc: MemMap, mv: MemMap)
      requires Valid() && mc == CpuMap() && mv == VicMap()
      modifies this`memCpu, this`memVic
      ensures Valid() && State() == old(State()).(memCpu := mc, memVic := mv)
    {
      memCpu, memVic := mc, mv;
    }

    /** Replaces the key registrations, the valid flag and the debug hook. */
    method SetHost(k: KeyMap, v: bool, d: Debug)
      requires Valid()
      modifies this`keys, this`valid, this`debug
      ensures Valid() && State() == old(State()).(keys := k, valid := v, debug := d)
    {
      keys, valid, debug := k, v, d;
    }

    /** Replaces the debug hook. */
    method SetDebug(d: Debug)
      requires Valid()
      modifies this`debug
      ensures Valid() && State() == old(State()).(debug := d)
    {
      debug := d;
    }

    /** Replaces the audio state, copying its samples into the buffer. */
    method SetAudio(a: Audio)
      requires Valid() && a.Valid()
      modifies this`audioCallback, this`numSamples, this`samplePos, sampleBuffer
      ensures Valid() && State() == old(State()).(audio := a)
    {
      CopySamples(a.buffer);
      audioCallback, numSamples, samplePos := a.callback, a.numSamples, a.samplePos;
    }

    /** Restores a snapshot of a valid board: the snapshot is copied, given
        this board's host hooks and chip references, and the copy replaces
        the board; a snapshot of another version is refused and nothing
        changes. */
    method LoadSnapshot(version: int, src: Machine) returns (ok: bool)
      requires Valid() && src.Valid()
      modifies this, sampleBuffer
      ensures Valid()
      ensures var r := Board.Load(chips, old(State()), version, src); ok == r.ok && State() == r.m
    {
      if version != SNAPSHOT_VERSION {
        return false;
      }
      var im := src.(debug := debug, audio := src.audio.(callback := audioCallback),
                     cpu := chips.cpuOnLoad(src.cpu, cpu), vic := chips.vicOnLoad(src.vic, vic));
      Store(im);
      ok := true;
    }
  }
}
