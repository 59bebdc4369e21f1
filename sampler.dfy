/** The 12-slot drum sampler: note-to-slot mapping by `note mod 12`, per-slot raw and scaled
    MIDI parameters, Note On/Off bookkeeping, and the stereo mix with linear panning that
    advances each playing slot's cursor and stops it at the sample's end. */
module Sampler {
  import opened Common

  /** The size of the fixed slot pool. */
  const SlotCount: nat := 12

  /** What the sampler knows about one slot's sample (the sample data itself is the
      waveform passed to Process). */
  datatype SampleInfo = SampleInfo(
    length: nat,
    sampleRate: U16,
    isLoaded: bool,
    volume: real,
    pan: real,
    pitch: real,
    decayMidi: U8,
    volumeMidi: U8,
    panMidi: U8,
    pitchMidi: U8)

  /** Every slot as the sampler is constructed: 1000 samples at 44.1 kHz, loaded, full volume,
      centre pan, native pitch, raw values 64/127/64/64. */
  const DefaultInfo: SampleInfo := SampleInfo(1000, 44100, true, 1.0, 0.5, 1.0, 64, 127, 64, 64)

  /** The slot a note plays: `note mod 12`. */
  function SlotOf(note: U8): (i: nat)
    ensures i < SlotCount
    ensures (note - i) % SlotCount == 0
  {
    note % SlotCount
  }

  /** Notes an octave apart share a slot, so selecting note 15 selects the same slot as 3. */
  lemma SlotOfOctave(note: U8)
    requires note + 12 <= 0xFF
    ensures SlotOf(note + 12) == SlotOf(note)
  {
  }

  /** Raw 0-127 pitch control to a playback rate ratio, linearly from 0.5x to 2x. */
  function PitchFromMidi(v: U8): (r: real)
    ensures v <= MidiMax ==> 0.5 <= r <= 2.0
    ensures v == 0 ==> r == 0.5
    ensures v == MidiMax ==> r == 2.0
    ensures (r - 0.5) / 1.5 == CcToUnit(v)
  {
    0.5 + CcToUnit(v) * 1.5
  }

  /** One slot together with its playback state. */
  datatype SlotView = SlotView(info: SampleInfo, active: bool, position: real, velocity: U8)
  {
    /** Only active slots with a loaded sample are mixed. */
    predicate Playing() {
      active && info.isLoaded
    }

    /** The slot's mono contribution to one frame: the waveform at the cursor, scaled by the
        slot volume, the master volume and velocity/127; nothing when not playing. */
    function Gain(master: real, wave: real -> real): real {
      if Playing() then wave(position) * (info.volume * master) * (velocity as real / 127.0) else 0.0
    }

    /** The share of the gain sent to the left channel: linear panning, pan 0 is hard left. */
    function LeftGain(master: real, wave: real -> real): real {
      Gain(master, wave) * (1.0 - info.pan)
    }

    /** The share of the gain sent to the right channel. */
    function RightGain(master: real, wave: real -> real): real {
      Gain(master, wave) * info.pan
    }

    /** The slot after one frame: a playing slot's cursor moves on by the pitch ratio and the
        slot stops once the cursor reaches the sample length. */
    function Advance(): SlotView {
      if Playing() then
        var p := position + info.pitch;
        this.(position := p, active := !(p >= info.length as real))
      else this
    }
  }

  function Zip(samples: seq<SampleInfo>, active: seq<bool>, position: seq<real>, velocity: seq<U8>): seq<SlotView>
    requires |active| == |samples| && |position| == |samples| && |velocity| == |samples|
  {
    seq(|samples|, k requires 0 <= k < |samples| => SlotView(samples[k], active[k], position[k], velocity[k]))
  }

  function AdvanceAll(vs: seq<SlotView>): seq<SlotView> {
    seq(|vs|, k requires 0 <= k < |vs| => vs[k].Advance())
  }

  /** The left output of one frame: each slot's gain times (1 - pan), summed in slot order. */
  function MixLeft(vs: seq<SlotView>, master: real, wave: real -> real): real
    decreases |vs|
  {
    if vs == [] then 0.0
    else
      var last := vs[|vs| - 1];
      MixLeft(vs[..|vs| - 1], master, wave) + last.LeftGain(master, wave)
  }

  /** The right output of one frame: each slot's gain times pan, summed in slot order. */
  function MixRight(vs: seq<SlotView>, master: real, wave: real -> real): real
    decreases |vs|
  {
    if vs == [] then 0.0
    else
      var last := vs[|vs| - 1];
      MixRight(vs[..|vs| - 1], master, wave) + last.RightGain(master, wave)
  }

  /** Mixing one more slot adds its panned gain to each side. */
  lemma MixStep(vs: seq<SlotView>, i: nat, master: real, wave: real -> real)
    requires i < |vs|
    ensures MixLeft(vs[..i + 1], master, wave)
         == MixLeft(vs[..i], master, wave) + vs[i].LeftGain(master, wave)
    ensures MixRight(vs[..i + 1], master, wave)
         == MixRight(vs[..i], master, wave) + vs[i].RightGain(master, wave)
  {
    assert vs[..i + 1][..i] == vs[..i];
  }

  /** The unpanned mono sum of every slot's gain. */
  function MixMono(vs: seq<SlotView>, master: real, wave: real -> real): real
    decreases |vs|
  {
    if vs == [] then 0.0 else MixMono(vs[..|vs| - 1], master, wave) + vs[|vs| - 1].Gain(master, wave)
  }

  /** Linear panning loses and adds nothing: left and right together are the mono sum. */
  lemma {:induction false} PanningPreservesGain(vs: seq<SlotView>, master: real, wave: real -> real)
    ensures MixLeft(vs, master, wave) + MixRight(vs, master, wave) == MixMono(vs, master, wave)
    decreases |vs|
  {
    if vs != [] {
      PanningPreservesGain(vs[..|vs| - 1], master, wave);
    }
  }

  /** Slots panned hard left (pan 0) put nothing on the right channel and all of their
      gain on the left. */
  lemma {:induction false} HardLeftPan(vs: seq<SlotView>, master: real, wave: real -> real)
    requires forall k :: 0 <= k < |vs| ==> vs[k].info.pan == 0.0
    ensures MixRight(vs, master, wave) == 0.0
    ensures MixLeft(vs, master, wave) == MixMono(vs, master, wave)
    decreases |vs|
  {
    if vs != [] {
      HardLeftPan(vs[..|vs| - 1], master, wave);
    }
  }

  /** Only playing slots are heard: when none plays, the frame is silent on both sides. */
  lemma {:induction false} SilentWhenNothingPlays(vs: seq<SlotView>, master: real, wave: real -> real)
    requires forall k :: 0 <= k < |vs| ==> !vs[k].Playing()
    ensures MixLeft(vs, master, wave) == 0.0 && MixRight(vs, master, wave) == 0.0
    decreases |vs|
  {
    if vs != [] {
      SilentWhenNothingPlays(vs[..|vs| - 1], master, wave);
    }
  }

  /** A frame leaves slots that were not playing exactly as they were, moves each playing
      slot's cursor on by its pitch, and a playing slot stays active exactly when its cursor is
      still before the end of its sample. */
  lemma AdvanceOnlyMovesPlayingSlots(vs: seq<SlotView>, k: nat)
    requires k < |vs|
    ensures !vs[k].Playing() ==> AdvanceAll(vs)[k] == vs[k]
    ensures vs[k].Playing() ==> AdvanceAll(vs)[k].position == vs[k].position + vs[k].info.pitch
    ensures vs[k].Playing() ==>
              (AdvanceAll(vs)[k].active <==> vs[k].position + vs[k].info.pitch < vs[k].info.length as real)
    ensures AdvanceAll(vs)[k].info == vs[k].info && AdvanceAll(vs)[k].velocity == vs[k].velocity
  {
  }

  /** A slot whose cursor is still at the start of its sample reads the waveform at 0, so
      when the waveform is 0 there, a frame in which every playing slot is at the start is
      silent on both sides. */
  lemma {:induction false} SilentAtStart(vs: seq<SlotView>, master: real, wave: real -> real)
    requires wave(0.0) == 0.0
    requires forall k :: 0 <= k < |vs| && vs[k].Playing() ==> vs[k].position == 0.0
    ensures MixLeft(vs, master, wave) == 0.0 && MixRight(vs, master, wave) == 0.0
    decreases |vs|
  {
    if vs != [] {
      SilentAtStart(vs[..|vs| - 1], master, wave);
    }
  }

  class Sampler {
    const samples: array<SampleInfo>
    const active: array<bool>
    const position: array<real>
    const velocity: array<U8>
    var volume: real
    var sendReverb: real
    var sendDelay: real
    var selectedNote: U8

    ghost predicate Valid()
      reads this
    {
      && samples.Length == SlotCount
      && active.Length == SlotCount
      && position.Length == SlotCount
      && velocity.Length == SlotCount
      && selectedNote < SlotCount
    }

    /** Slot `k` as the arrays hold it. */
    function SlotAt(k: nat): SlotView
      reads this, samples, active, position, velocity
      requires Valid() && k < SlotCount
    {
      SlotView(samples[k], active[k], position[k], velocity[k])
    }

    /** The pool as values, slot by slot. */
    function Slots(): seq<SlotView>
      reads this, samples, active, position, velocity
      requires Valid()
    {
      Zip(samples[..], active[..], position[..], velocity[..])
    }

    /** The source leaves the playback velocities uninitialised; here they start at 0. */
    constructor ()
      ensures Valid() && fresh(samples) && fresh(active) && fresh(position) && fresh(velocity)
      ensures Slots() == seq(SlotCount, _ => SlotView(DefaultInfo, false, 0.0, 0))
      ensures volume == 1.0 && sendReverb == 0.0 && sendDelay == 0.0 && selectedNote == 0
    {
      samples := new SampleInfo[SlotCount](_ => DefaultInfo);
      active := new bool[SlotCount](_ => false);
      position := new real[SlotCount](_ => 0.0);
      velocity := new U8[SlotCount](_ => 0);
      volume, sendReverb, sendDelay := 1.0, 0.0, 0.0;
      selectedNote := 0;
    }

    /** Resets the master volume, the sends and the selection; the slots are left alone. */
    method Init()
      requires Valid()
      modifies this`volume, this`sendReverb, this`sendDelay, this`selectedNote
      ensures Valid()
      ensures volume == 1.0 && sendReverb == 0.0 && sendDelay == 0.0 && selectedNote == 0
    {
      volume := 1.0;
      sendReverb := 0.0;
      sendDelay := 0.0;
      selectedNote := 0;
    }

    method SelectNote(note: U8)
      requires Valid()
      modifies this`selectedNote
      ensures Valid() && selectedNote == SlotOf(note)
    {
      selectedNote := note % SlotCount;
    }

    /** The selected slot's sample rate; 44100 for a selection outside the pool, which
        `SelectNote` never stores. */
    function GetSoundSamplerate(): (r: U16)
      reads this, samples
      requires samples.Length == SlotCount
      ensures selectedNote < SlotCount ==> r == samples[selectedNote].sampleRate
      ensures selectedNote >= SlotCount ==> r == 44100
    {
      if selectedNote < SlotCount then samples[selectedNote].sampleRate else 44100
    }

    /** The selected slot's raw decay; 64 for a selection outside the pool, which
        `SelectNote` never stores. */
    function GetSoundDecayMidi(): (r: U8)
      reads this, samples
      requires samples.Length == SlotCount
      ensures selectedNote < SlotCount ==> r == samples[selectedNote].decayMidi
      ensures selectedNote >= SlotCount ==> r == 64
    {
      if selectedNote < SlotCount then samples[selectedNote].decayMidi else 64
    }

    /** The selected slot's raw pan; 64 for a selection outside the pool, which
        `SelectNote` never stores. */
    function GetSoundPanMidi(): (r: U8)
      reads this, samples
      requires samples.Length == SlotCount
      ensures selectedNote < SlotCount ==> r == samples[selectedNote].panMidi
      ensures selectedNote >= SlotCount ==> r == 64
    {
      if selectedNote < SlotCount then samples[selectedNote].panMidi else 64
    }

    /** The selected slot's raw pitch; 64 for a selection outside the pool, which
        `SelectNote` never stores. */
    function GetSoundPitchMidi(): (r: U8)
      reads this, samples
      requires samples.Length == SlotCount
      ensures selectedNote < SlotCount ==> r == samples[selectedNote].pitchMidi
      ensures selectedNote >= SlotCount ==> r == 64
    {
      if selectedNote < SlotCount then samples[selectedNote].pitchMidi else 64
    }

    /** The selected slot's raw volume; 127 for a selection outside the pool, which
        `SelectNote` never stores. */
    function GetSoundVolumeMidi(): (r: U8)
      reads this, samples
      requires samples.Length == SlotCount
      ensures selectedNote < SlotCount ==> r == samples[selectedNote].volumeMidi
      ensures selectedNote >= SlotCount ==> r == 127
    {
      if selectedNote < SlotCount then samples[selectedNote].volumeMidi else 127
    }

    /** The pool size: every note's slot lies below it. */
    function GetSamplesCount(): (r: int)
      ensures r == SlotCount
      ensures forall note: U8 :: SlotOf(note) < r
    {
      SlotCount
    }

    /** Whether the note's slot is playing; notes an octave apart report the same slot. */
    function IsSampleActive(note: U8): (r: bool)
      reads this, active
      requires Valid()
      ensures r == active[SlotOf(note)]
    {
      var idx := note % SlotCount;
      if idx < SlotCount then active[idx] else false
    }

    method SetNotePanMidi(data1: U8)
      requires Valid()
      modifies samples
      ensures Valid()
      ensures samples[..] == old(samples[..])[selectedNote := old(samples[selectedNote]).(panMidi := data1, pan := CcToUnit(data1))]
      ensures GetSoundPanMidi() == data1
    {
      if selectedNote < SlotCount {
        samples[selectedNote] := samples[selectedNote].(panMidi := data1, pan := CcToUnit(data1));
      }
    }

    method SetNoteDecayMidi(data1: U8)
      requires Valid()
      modifies samples
      ensures Valid()
      ensures samples[..] == old(samples[..])[selectedNote := old(samples[selectedNote]).(decayMidi := data1)]
      ensures GetSoundDecayMidi() == data1
    {
      if selectedNote < SlotCount {
        samples[selectedNote] := samples[selectedNote].(decayMidi := data1);
      }
    }

    method SetNoteVolumeMidi(data1: U8)
      requires Valid()
      modifies samples
      ensures Valid()
      ensures samples[..] == old(samples[..])[selectedNote := old(samples[selectedNote]).(volumeMidi := data1, volume := CcToUnit(data1))]
      ensures GetSoundVolumeMidi() == data1
    {
      if selectedNote < SlotCount {
        samples[selectedNote] := samples[selectedNote].(volumeMidi := data1, volume := CcToUnit(data1));
      }
    }

    method SetSoundPitchMidi(data1: U8)
      requires Valid()
      modifies samples
      ensures Valid()
      ensures samples[..] == old(samples[..])[selectedNote := old(samples[selectedNote]).(pitchMidi := data1, pitch := PitchFromMidi(data1))]
      ensures GetSoundPitchMidi() == data1
    {
      if selectedNote < SlotCount {
        samples[selectedNote] := samples[selectedNote].(pitchMidi := data1, pitch := PitchFromMidi(data1));
      }
    }

    /** Sets the pitch ratio directly; the raw pitch value is left as it was. */
    method SetSoundPitch(value: real)
      requires Valid()
      modifies samples
      ensures Valid()
      ensures samples[..] == old(samples[..])[selectedNote := old(samples[selectedNote]).(pitch := value)]
    {
      if selectedNote < SlotCount {
        samples[selectedNote] := samples[selectedNote].(pitch := value);
      }
    }

    method SetDelaySend(lvl: U8)
      requires Valid()
      modifies this`sendDelay
      ensures Valid()
      ensures sendDelay == CcToUnit(lvl)
    {
      sendDelay := CcToUnit(lvl);
    }

    method SetReverbSend(lvl: U8)
      requires Valid()
      modifies this`sendReverb
      ensures Valid()
      ensures sendReverb == CcToUnit(lvl)
    {
      sendReverb := CcToUnit(lvl);
    }

    method SetVolume(value: real)
      requires Valid()
      modifies this`volume
      ensures Valid()
      ensures volume == value
    {
      volume := value;
    }

    /** Starts the note's slot from the top at the given velocity, if its sample is loaded;
        every other slot is left as it was. */
    method NoteOn(note: U8, vol: U8)
      requires Valid()
      modifies active, position, velocity
      ensures Valid()
      ensures var s := SlotOf(note);
        Slots() == if old(Slots())[s].info.isLoaded
                   then old(Slots())[s := old(Slots())[s].(active := true, position := 0.0, velocity := vol)]
                   else old(Slots())
      ensures samples[SlotOf(note)].isLoaded ==> IsSampleActive(note)
    {
      var idx := note % SlotCount;
      if idx < SlotCount && samples[idx].isLoaded {
        active[idx] := true;
        position[idx] := 0.0;
        velocity[idx] := vol;
      }
    }

    /** Stops the note's slot; its cursor stays where it was and every other slot is left
        as it was. */
    method NoteOff(note: U8)
      requires Valid()
      modifies active
      ensures Valid()
      ensures var s := SlotOf(note); Slots() == old(Slots())[s := old(Slots())[s].(active := false)]
      ensures !IsSampleActive(note)
    {
      var idx := note % SlotCount;
      if idx < SlotCount {
        active[idx] := false;
      }
    }

    /** One stereo frame. `wave` stands for the mock sample data, `sin(2*PI*p/100)` at cursor
        position p. */
    method Process(wave: real -> real) returns (left: real, right: real)
      requires Valid()
      modifies active, position
      ensures Valid()
      ensures left == MixLeft(old(Slots()), volume, wave)
      ensures right == MixRight(old(Slots()), volume, wave)
      ensures Slots() == AdvanceAll(old(Slots()))
    {
      ghost var before := Slots();
      left := 0.0;
      right := 0.0;
      var i := 0;
      while i < SlotCount
        invariant 0 <= i <= SlotCount
        invariant forall k :: 0 <= k < i ==> SlotAt(k) == before[k].Advance()
        invariant forall k :: i <= k < SlotCount ==> SlotAt(k) == before[k]
        invariant left == MixLeft(before[..i], volume, wave)
        invariant right == MixRight(before[..i], volume, wave)
      {
        MixStep(before, i, volume, wave);
        var slotLeft, slotRight := MixSlot(i, wave);
        left := left + slotLeft;
        right := right + slotRight;
        i := i + 1;
      }
      assert before[..SlotCount] == before;
    }

    /** One pass of the frame loop over slot `i`: a playing slot contributes its panned gain
        and moves its position on by its pitch, stopping at the end of the sample; a slot that
        is not playing contributes nothing and stays as it is. */
    method MixSlot(i: nat, wave: real -> real) returns (slotLeft: real, slotRight: real)
      requires Valid() && i < SlotCount
      modifies active, position
      ensures Valid()
      ensures slotLeft == old(SlotAt(i)).LeftGain(volume, wave)
      ensures slotRight == old(SlotAt(i)).RightGain(volume, wave)
      ensures SlotAt(i) == old(SlotAt(i)).Advance()
      ensures forall k :: 0 <= k < SlotCount && k != i ==> SlotAt(k) == old(SlotAt(k))
    {
      slotLeft, slotRight := 0.0, 0.0;
      if active[i] && samples[i].isLoaded {
        var sampleValue := wave(position[i]);
        sampleValue := sampleValue * (samples[i].volume * volume);
        sampleValue := sampleValue * (velocity[i] as real / 127.0);
        var pan := samples[i].pan;
        slotLeft := sampleValue * (1.0 - pan);
        slotRight := sampleValue * pan;
        position[i] := position[i] + samples[i].pitch;
        if position[i] >= samples[i].length as real {
          active[i] := false;
        }
      }
    }
  }

  /** The constructor centres every slot's pan (raw 64), and Init does not touch the slots, so
      reading the pan back after Init gives 64. */
  method PanReadbackAfterInit() returns (pan: U8)
    ensures pan == 64
  {
    var sampler := new Sampler();
    assert sampler.Slots()[0].info == DefaultInfo;
    sampler.Init();
    pan := sampler.GetSoundPanMidi();
  }

  /** A fresh sampler that starts note 36 and mixes one frame reads every sample at cursor 0.
      With the mock waveform sin(2*PI*p/100), which is 0 there, both channels are exactly 0. */
  method FirstFrameAfterNoteOn(wave: real -> real) returns (left: real, right: real)
    requires wave(0.0) == 0.0
    ensures left == 0.0 && right == 0.0
  {
    var sampler := new Sampler();
    sampler.Init();
    sampler.NoteOn(36, 127);
    SilentAtStart(sampler.Slots(), sampler.volume, wave);
    left, right := sampler.Process(wave);
  }
}
