/** The monophonic acid voice: an Idle/Sounding note state machine with a matching-note guard
    on Note Off, a forced stop, a slide flag, and volume/cutoff/resonance parameters. */
module SynthVoice {
  import opened Common

  const Pi: real := 3.1415926535897932384626433832795
  const SampleRate: real := 44100.0

  /** Everything the voice stores, as one value. */
  datatype VoiceState = VoiceState(
    volume: real,
    cutoff: real,
    resonance: real,
    currentNote: U8,
    velocity: U8,
    noteActive: bool,
    slide: bool)
  {
    /** Note On: take the note and velocity and sound, whatever the voice was doing. */
    function NoteOn(note: U8, vel: U8): VoiceState {
      this.(currentNote := note, noteActive := true, velocity := vel)
    }

    /** Note Off: fall silent only when the released note is the one sounding. */
    function NoteOff(note: U8): VoiceState {
      if currentNote == note then this.(noteActive := false) else this
    }

    /** StopSound: fall silent whatever the note. */
    function Stop(): VoiceState {
      this.(noteActive := false)
    }
  }

  /** A note event as it reaches the voice. */
  datatype Event = On(note: U8, velocity: U8) | Off(note: U8) | StopAll

  function Apply(s: VoiceState, e: Event): VoiceState {
    match e
    case On(n, v) => s.NoteOn(n, v)
    case Off(n) => s.NoteOff(n)
    case StopAll => s.Stop()
  }

  /** The state after a sequence of events, in order. */
  function Run(s: VoiceState, es: seq<Event>): VoiceState
    decreases |es|
  {
    if es == [] then s else Run(Apply(s, es[0]), es[1..])
  }

  /** Whether an event silences a voice holding note `n`. */
  predicate Silences(e: Event, n: U8) {
    e.StopAll? || (e.Off? && e.note == n)
  }

  predicate ReleasedIn(n: U8, es: seq<Event>) {
    exists i :: 0 <= i < |es| && Silences(es[i], n)
  }

  predicate NoNoteOn(es: seq<Event>) {
    forall i :: 0 <= i < |es| ==> !es[i].On?
  }

  /** A retrigger replaces the previous note outright: there is no voice stealing to undo. */
  lemma RetriggerForgetsPreviousNote(s: VoiceState, a: U8, va: U8, b: U8, vb: U8)
    ensures s.NoteOn(a, va).NoteOn(b, vb) == s.NoteOn(b, vb)
    ensures s.NoteOn(b, vb).noteActive && s.NoteOn(b, vb).currentNote == b
  {
  }

  /** Releasing the sounding note silences it and keeps it as the current note; a stale release
      (any other note) changes nothing. */
  lemma NoteOffGuard(s: VoiceState, n: U8, v: U8, m: U8)
    ensures s.NoteOn(n, v).NoteOff(n) == s.NoteOn(n, v).Stop()
    ensures !s.NoteOn(n, v).NoteOff(n).noteActive && s.NoteOn(n, v).NoteOff(n).currentNote == n
    ensures m != n ==> s.NoteOn(n, v).NoteOff(m) == s.NoteOn(n, v)
  {
  }

  lemma NoteOffIdempotent(s: VoiceState, n: U8)
    ensures s.NoteOff(n).NoteOff(n) == s.NoteOff(n)
  {
  }

  lemma {:induction false} RunAppend(s: VoiceState, es: seq<Event>, fs: seq<Event>)
    ensures Run(s, es + fs) == Run(Run(s, es), fs)
    decreases |es|
  {
    if es == [] {
      assert es + fs == fs;
    } else {
      assert (es + fs)[1..] == es[1..] + fs;
      RunAppend(Apply(s, es[0]), es[1..], fs);
    }
  }

  /** Without a Note On, only the note and parameters held before decide anything: the voice
      stays sounding exactly when it was sounding and nothing released its note. */
  lemma {:induction false} RunWithoutNoteOn(s: VoiceState, es: seq<Event>)
    requires NoNoteOn(es)
    ensures Run(s, es) == s.(noteActive := s.noteActive && !ReleasedIn(s.currentNote, es))
    decreases |es|
  {
    if es != [] {
      var t := Apply(s, es[0]);
      assert NoNoteOn(es[1..]) by {
        forall i | 0 <= i < |es[1..]| ensures !es[1..][i].On? {
          assert es[1..][i] == es[i + 1];
        }
      }
      RunWithoutNoteOn(t, es[1..]);
      assert t.currentNote == s.currentNote;
      assert ReleasedIn(s.currentNote, es) <==> Silences(es[0], s.currentNote) || ReleasedIn(s.currentNote, es[1..]) by {
        if ReleasedIn(s.currentNote, es[1..]) {
          var i :| 0 <= i < |es[1..]| && Silences(es[1..][i], s.currentNote);
          assert es[i + 1] == es[1..][i];
        }
        if ReleasedIn(s.currentNote, es) && !Silences(es[0], s.currentNote) {
          var i :| 0 <= i < |es| && Silences(es[i], s.currentNote);
          assert i > 0 && es[1..][i - 1] == es[i];
        }
      }
    }
  }

  /** The last Note On of a run decides the voice: its note is the current note, and the voice
      sounds exactly when no later event released that note. */
  lemma LastNoteOnDecides(s: VoiceState, es: seq<Event>, k: nat)
    requires k < |es| && es[k].On?
    requires NoNoteOn(es[k + 1..])
    ensures Run(s, es).currentNote == es[k].note
    ensures Run(s, es).velocity == es[k].velocity
    ensures Run(s, es).noteActive <==> !ReleasedIn(es[k].note, es[k + 1..])
  {
    assert es == es[..k] + [es[k]] + es[k + 1..];
    RunAppend(s, es[..k] + [es[k]], es[k + 1..]);
    RunAppend(s, es[..k], [es[k]]);
    var t := Run(s, es[..k]);
    assert Run(t, [es[k]]) == t.NoteOn(es[k].note, es[k].velocity);
    RunWithoutNoteOn(t.NoteOn(es[k].note, es[k].velocity), es[k + 1..]);
  }

  /** The next phase of the oscillator: advance by one sample's worth of `freq` and wrap once. */
  function AdvancePhase(phase: real, freq: real): (r: real)
    ensures 0.0 <= phase <= 2.0 * Pi && 0.0 <= freq <= SampleRate ==> 0.0 <= r <= 2.0 * Pi
  {
    var p := phase + 2.0 * Pi * freq / SampleRate;
    if p > 2.0 * Pi then p - 2.0 * Pi else p
  }

  /** Equal-tempered pitch with A4 (note 69) at 440 Hz; `exp2` stands for `pow(2, _)`. */
  function Frequency(note: U8, exp2: real -> real): real {
    440.0 * exp2((note - 69) as real / 12.0)
  }

  /** Given only that `exp2` is 1 at 0 and doubles when its argument grows by 1, A4 sounds at
      440 Hz and a note twelve semitones up sounds at twice the frequency. */
  lemma FrequencyOctave(note: U8, exp2: real -> real)
    requires exp2(0.0) == 1.0
    requires forall a :: exp2(a + 1.0) == 2.0 * exp2(a)
    requires note + 12 < 0x100
    ensures Frequency(69, exp2) == 440.0
    ensures Frequency(note + 12, exp2) == 2.0 * Frequency(note, exp2)
  {
    var e := (note - 69) as real / 12.0;
    assert (note + 12 - 69) as real / 12.0 == e + 1.0;
    assert exp2(e + 1.0) == 2.0 * exp2(e);
  }

  /** The oscillator phase accumulator, which the source keeps in one function-static variable
      shared by every voice. */
  class Oscillator {
    var phase: real

    constructor ()
      ensures phase == 0.0
    {
      phase := 0.0;
    }
  }

  class Voice {
    var volume: real
    var cutoff: real
    var resonance: real
    var currentNote: U8
    var velocity: U8
    var noteActive: bool
    var slide: bool

    function State(): VoiceState
      reads this
    {
      VoiceState(volume, cutoff, resonance, currentNote, velocity, noteActive, slide)
    }

    function IsActive(): (r: bool)
      reads this
      ensures r == State().noteActive
    {
      noteActive
    }

    function GetCurrentNote(): (r: U8)
      reads this
      ensures r == State().currentNote
    {
      currentNote
    }

    function GetVolume(): (r: real)
      reads this
      ensures r == State().volume
    {
      volume
    }

    function GetCutoff(): (r: real)
      reads this
      ensures r == State().cutoff
    {
      cutoff
    }

    function GetResonance(): (r: real)
      reads this
      ensures r == State().resonance
    {
      resonance
    }

    function IsSlideEnabled(): (r: bool)
      reads this
      ensures r == State().slide
    {
      slide
    }

    /** The source leaves the velocity uninitialised; here it starts at 0. */
    constructor ()
      ensures State() == VoiceState(1.0, 1000.0, 0.0, 0, 0, false, false)
    {
      volume, cutoff, resonance := 1.0, 1000.0, 0.0;
      currentNote, velocity := 0, 0;
      noteActive, slide := false, false;
    }

    /** Back to the idle defaults; the velocity is the only field Init does not reset. */
    method Init()
      modifies this
      ensures !IsActive() && GetCurrentNote() == 0 && !IsSlideEnabled()
      ensures GetVolume() == 1.0 && GetCutoff() == 1000.0 && GetResonance() == 0.0
      ensures velocity == old(velocity)
    {
      volume := 1.0;
      cutoff := 1000.0;
      resonance := 0.0;
      currentNote := 0;
      noteActive := false;
      slide := false;
    }

    method NoteOn(note: U8, vel: U8)
      modifies this
      ensures State() == old(State()).NoteOn(note, vel)
      ensures IsActive() && GetCurrentNote() == note
    {
      currentNote := note;
      noteActive := true;
      velocity := vel;
    }

    /** The release velocity is ignored. */
    method NoteOff(note: U8, vel: U8)
      modifies this
      ensures State() == old(State()).NoteOff(note)
      ensures old(currentNote) == note ==> !IsActive()
      ensures old(currentNote) != note ==> State() == old(State())
    {
      if currentNote == note {
        noteActive := false;
      }
    }

    method StopSound()
      modifies this
      ensures State() == old(State()).Stop()
      ensures !IsActive() && GetCurrentNote() == old(currentNote)
    {
      noteActive := false;
    }

    method SetSlideOn()
      modifies this
      ensures State() == old(State()).(slide := true)
      ensures IsSlideEnabled()
    {
      slide := true;
    }

    method SetSlideOff()
      modifies this
      ensures State() == old(State()).(slide := false)
      ensures !IsSlideEnabled()
    {
      slide := false;
    }

    method SetVolume(val: real)
      modifies this
      ensures State() == old(State()).(volume := val)
      ensures GetVolume() == val
    {
      volume := val;
    }

    method SetCutoff(val: real)
      modifies this
      ensures State() == old(State()).(cutoff := val)
      ensures GetCutoff() == val
    {
      cutoff := val;
    }

    method SetResonance(val: real)
      modifies this
      ensures State() == old(State()).(resonance := val)
      ensures GetResonance() == val
    {
      resonance := val;
    }

    /** One output sample. Idle: silence, and the shared phase does not move. Sounding: advance
        the shared phase by the note's frequency and scale `sine` of it by velocity/127 and the
        volume. `exp2` and `sine` stand for the C library's `pow(2, _)` and `sin`. */
    method Process(osc: Oscillator, exp2: real -> real, sine: real -> real) returns (out: real)
      modifies osc
      ensures !noteActive ==> out == 0.0 && osc.phase == old(osc.phase)
      ensures noteActive ==> osc.phase == AdvancePhase(old(osc.phase), Frequency(currentNote, exp2))
      ensures noteActive ==> out == sine(osc.phase) * (velocity as real / 127.0) * volume
    {
      if !noteActive {
        return 0.0;
      }
      var freq := Frequency(currentNote, exp2);
      osc.phase := osc.phase + 2.0 * Pi * freq / SampleRate;
      if osc.phase > 2.0 * Pi {
        osc.phase := osc.phase - 2.0 * Pi;
      }
      out := sine(osc.phase) * (velocity as real / 127.0) * volume;
    }
  }
}
