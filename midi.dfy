/** The MIDI channel-voice dispatcher: routes a message by the high nibble of its status byte
    (MIDI 1.0 Detailed Specification, Channel Voice Messages: Note Off 0x8n, Note On 0x9n with
    velocity 0 meaning Note Off, Control Change 0xBn), guards Note Off by the last note played,
    and maps four Control Change numbers onto stored parameter values. */
module Midi {
  import opened Common

  const NoteOffStatus: U8 := 0x80
  const NoteOnStatus: U8 := 0x90
  const ControlChangeStatus: U8 := 0xB0
  const PitchBendStatus: U8 := 0xE0

  /** The Control Change numbers of the 303 voice. */
  const CcVolume: U8 := 7
  const CcPan: U8 := 10
  const CcWaveform: U8 := 70
  const CcResonance: U8 := 71
  const CcDecay: U8 := 72
  const CcAttack: U8 := 73
  const CcCutoff: U8 := 74
  const CcEnvModLevel: U8 := 75
  const CcAccentLevel: U8 := 76
  const CcReverbSend: U8 := 91
  const CcDelaySend: U8 := 92
  const CcDistortion: U8 := 94
  const CcOverdrive: U8 := 95

  /** The CC numbers that move a stored parameter; the rest of the table is not acted on. */
  predicate IsMappedCc(cc: U8) {
    cc == CcCutoff || cc == CcResonance || cc == CcVolume || cc == CcPan
  }

  datatype Message = Message(status: U8, channel: U8, data1: U8, data2: U8)

  /** `status & 0xF0`: the message type, with the channel nibble cleared. On a byte, masking
      off the low four bits is rounding down to a multiple of 16. */
  function StatusKind(status: U8): (r: U8)
    ensures r % 16 == 0 && r <= status < r + 16
  {
    status / 16 * 16
  }

  /** Everything the handler stores, as one value. */
  datatype HandlerState = HandlerState(
    lastNote: U8,
    lastVelocity: U8,
    lastCcNumber: U8,
    lastCcValue: U8,
    noteCount: int,
    cutoffValue: U8,
    resonanceValue: U8,
    volumeValue: U8,
    panValue: U8)
  {
    function NoteOn(note: U8, velocity: U8): HandlerState {
      this.(lastNote := note, lastVelocity := velocity, noteCount := noteCount + 1)
    }

    /** Only a release of the last note played counts; any other release is ignored. */
    function NoteOff(note: U8): HandlerState {
      if lastNote == note then this.(lastVelocity := 0, noteCount := noteCount - 1) else this
    }

    function ControlChange(cc: U8, value: U8): HandlerState {
      var t := this.(lastCcNumber := cc, lastCcValue := value);
      if cc == CcCutoff then t.(cutoffValue := value)
      else if cc == CcResonance then t.(resonanceValue := value)
      else if cc == CcVolume then t.(volumeValue := value)
      else if cc == CcPan then t.(panValue := value)
      else t
    }

    function Process(m: Message): HandlerState {
      var kind := StatusKind(m.status);
      if kind == NoteOnStatus then
        if m.data2 > 0 then NoteOn(m.data1, m.data2) else NoteOff(m.data1)
      else if kind == NoteOffStatus then NoteOff(m.data1)
      else if kind == ControlChangeStatus then ControlChange(m.data1, m.data2)
      else this
    }

    /** The mapped parameter values, which only Control Change touches. */
    function Mapped(): (U8, U8, U8, U8) {
      (cutoffValue, resonanceValue, volumeValue, panValue)
    }

    /** What note messages touch. */
    function Notes(): (U8, U8, int) {
      (lastNote, lastVelocity, noteCount)
    }
  }

  const Initial: HandlerState := HandlerState(0, 0, 0, 0, 0, 64, 0, 127, 64)

  function Run(s: HandlerState, ms: seq<Message>): HandlerState
    decreases |ms|
  {
    if ms == [] then s else Run(s.Process(ms[0]), ms[1..])
  }

  /** Two status bytes with the same high nibble are routed the same way: the channel nibble
      of the status, and the separate channel field, never affect the outcome. */
  lemma RoutingIgnoresChannel(s: HandlerState, m: Message, status: U8, channel: U8)
    requires StatusKind(status) == StatusKind(m.status)
    ensures s.Process(m.(status := status, channel := channel)) == s.Process(m)
  {
  }

  /** The status kind of `base + ch` is `base` for every type nibble and channel. */
  lemma StatusKindOfChannel(base: U8, ch: U8)
    requires base % 16 == 0 && ch < 16
    ensures base + ch < 0x100 && StatusKind(base + ch) == base
  {
  }

  /** A Note On with velocity 0, on any channel, does exactly what a Note Off for that note
      does, whatever its channel and release velocity. */
  lemma ZeroVelocityNoteOnIsNoteOff(s: HandlerState, ch: U8, ch': U8, note: U8, vel: U8)
    requires ch < 16 && ch' < 16
    ensures s.Process(Message(NoteOnStatus + ch, ch, note, 0))
         == s.Process(Message(NoteOffStatus + ch', ch', note, vel))
         == s.NoteOff(note)
  {
    StatusKindOfChannel(NoteOnStatus, ch);
    StatusKindOfChannel(NoteOffStatus, ch');
  }

  /** A sounding Note On records the note and velocity and counts one more note; the CC
      fields are untouched. */
  lemma NoteOnCounts(s: HandlerState, m: Message)
    requires StatusKind(m.status) == NoteOnStatus && m.data2 > 0
    ensures var t := s.Process(m);
      t.lastNote == m.data1 && t.lastVelocity == m.data2 && t.noteCount == s.noteCount + 1
      && t == s.(lastNote := t.lastNote, lastVelocity := t.lastVelocity, noteCount := t.noteCount)
  {
  }

  /** A Note Off changes the handler only when it releases the last note played, and then
      clears the velocity and counts one note less. */
  lemma NoteOffGuard(s: HandlerState, m: Message)
    requires StatusKind(m.status) == NoteOffStatus
    ensures m.data1 != s.lastNote ==> s.Process(m) == s
    ensures m.data1 == s.lastNote ==>
      s.Process(m) == s.(lastVelocity := 0, noteCount := s.noteCount - 1)
  {
  }

  /** Pressing and releasing the same note leaves the note count where it was. */
  lemma PressReleaseBalances(s: HandlerState, note: U8, vel: U8)
    ensures s.NoteOn(note, vel).NoteOff(note).noteCount == s.noteCount
    ensures s.NoteOn(note, vel).NoteOff(note).lastVelocity == 0
  {
  }

  /** A Control Change always records its number and value; it moves exactly the parameter
      its number maps to, and no parameter when the number is not in the map. */
  lemma ControlChangeTable(s: HandlerState, cc: U8, value: U8)
    ensures var t := s.ControlChange(cc, value);
      && t.lastCcNumber == cc && t.lastCcValue == value
      && t.Notes() == s.Notes()
      && t.cutoffValue == (if cc == CcCutoff then value else s.cutoffValue)
      && t.resonanceValue == (if cc == CcResonance then value else s.resonanceValue)
      && t.volumeValue == (if cc == CcVolume then value else s.volumeValue)
      && t.panValue == (if cc == CcPan then value else s.panValue)
    ensures !IsMappedCc(cc) ==> s.ControlChange(cc, value).Mapped() == s.Mapped()
  {
  }

  /** Statuses other than Note Off, Note On and Control Change (pitch bend 0xE0, say) are
      ignored. */
  lemma OtherStatusesIgnored(s: HandlerState, m: Message)
    requires StatusKind(m.status) !in {NoteOffStatus, NoteOnStatus, ControlChangeStatus}
    ensures s.Process(m) == s
  {
  }

  predicate AllControlChanges(ms: seq<Message>) {
    forall i :: 0 <= i < |ms| ==> StatusKind(ms[i].status) == ControlChangeStatus
  }

  /** Any run of Control Change messages leaves the note bookkeeping as it was. */
  lemma {:induction false} ControlChangesKeepNotes(s: HandlerState, ms: seq<Message>)
    requires AllControlChanges(ms)
    ensures Run(s, ms).Notes() == s.Notes()
    decreases |ms|
  {
    if ms != [] {
      assert AllControlChanges(ms[1..]) by {
        forall i | 0 <= i < |ms[1..]| ensures StatusKind(ms[1..][i].status) == ControlChangeStatus {
          assert ms[1..][i] == ms[i + 1];
        }
      }
      ControlChangesKeepNotes(s.Process(ms[0]), ms[1..]);
    }
  }

  predicate NoControlChanges(ms: seq<Message>) {
    forall i :: 0 <= i < |ms| ==> StatusKind(ms[i].status) != ControlChangeStatus
  }

  /** Any run without Control Change messages leaves the mapped parameters and the last CC
      fields as they were. */
  lemma {:induction false} NotesKeepControls(s: HandlerState, ms: seq<Message>)
    requires NoControlChanges(ms)
    ensures Run(s, ms).Mapped() == s.Mapped()
    ensures Run(s, ms).lastCcNumber == s.lastCcNumber && Run(s, ms).lastCcValue == s.lastCcValue
    decreases |ms|
  {
    if ms != [] {
      assert NoControlChanges(ms[1..]) by {
        forall i | 0 <= i < |ms[1..]| ensures StatusKind(ms[1..][i].status) != ControlChangeStatus {
          assert ms[1..][i] == ms[i + 1];
        }
      }
      NotesKeepControls(s.Process(ms[0]), ms[1..]);
    }
  }

  class MidiHandler {
    var lastNote: U8
    var lastVelocity: U8
    var lastCcNumber: U8
    var lastCcValue: U8
    var noteCount: int
    var cutoffValue: U8
    var resonanceValue: U8
    var volumeValue: U8
    var panValue: U8

    function State(): HandlerState
      reads this
    {
      HandlerState(lastNote, lastVelocity, lastCcNumber, lastCcValue, noteCount,
                   cutoffValue, resonanceValue, volumeValue, panValue)
    }

    constructor ()
      ensures State() == Initial
      ensures noteCount == 0 && lastNote == 0 && lastVelocity == 0
      ensures cutoffValue == 64 && resonanceValue == 0 && volumeValue == 127 && panValue == 64
    {
      lastNote, lastVelocity, lastCcNumber, lastCcValue, noteCount := 0, 0, 0, 0, 0;
      cutoffValue, resonanceValue, volumeValue, panValue := 64, 0, 127, 64;
    }

    method HandleNoteOn(channel: U8, note: U8, velocity: U8)
      modifies this
      ensures State() == old(State()).NoteOn(note, velocity)
    {
      lastNote := note;
      lastVelocity := velocity;
      noteCount := noteCount + 1;
    }

    method HandleNoteOff(channel: U8, note: U8, velocity: U8)
      modifies this
      ensures State() == old(State()).NoteOff(note)
    {
      if lastNote == note {
        lastVelocity := 0;
        noteCount := noteCount - 1;
      }
    }

    method HandleControlChange(channel: U8, ccNumber: U8, ccValue: U8)
      modifies this
      ensures State() == old(State()).ControlChange(ccNumber, ccValue)
    {
      lastCcNumber := ccNumber;
      lastCcValue := ccValue;
      if ccNumber == CcCutoff {
        cutoffValue := ccValue;
      } else if ccNumber == CcResonance {
        resonanceValue := ccValue;
      } else if ccNumber == CcVolume {
        volumeValue := ccValue;
      } else if ccNumber == CcPan {
        panValue := ccValue;
      }
    }

    method ProcessMidiMessage(msg: Message)
      modifies this
      ensures State() == old(State()).Process(msg)
    {
      var kind := StatusKind(msg.status);
      if kind == NoteOnStatus {
        if msg.data2 > 0 {
          HandleNoteOn(msg.channel, msg.data1, msg.data2);
        } else {
          HandleNoteOff(msg.channel, msg.data1, msg.data2);
        }
      } else if kind == NoteOffStatus {
        HandleNoteOff(msg.channel, msg.data1, msg.data2);
      } else if kind == ControlChangeStatus {
        HandleControlChange(msg.channel, msg.data1, msg.data2);
      }
    }
  }

  /** Three notes pressed and then a release of the middle one: the release does not match
      the last note played (67), so the count stays at 3. */
  method ReleaseOfEarlierNoteIsIgnored() returns (count: int)
    ensures count == 3
  {
    var handler := new MidiHandler();
    handler.ProcessMidiMessage(Message(NoteOnStatus, 1, 60, 100));
    handler.ProcessMidiMessage(Message(NoteOnStatus, 1, 64, 110));
    handler.ProcessMidiMessage(Message(NoteOnStatus, 1, 67, 120));
    handler.ProcessMidiMessage(Message(NoteOffStatus, 1, 64, 0));
    count := handler.noteCount;
  }

  /** The controller midpoint 64 scales to 64/127, more than 0.001 above one half, and 63
      scales to more than 0.001 below it. */
  lemma MidpointIsNotHalf()
    ensures CcToUnit(64) > 0.5 + 0.001
    ensures CcToUnit(63) < 0.5 - 0.001
  {
  }
}
