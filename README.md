# AcidBoxCoreS3 test mocks in Dafny

This project models the behavioural core that the AcidBoxCoreS3 native test suite exercises.
That core is five mock components:

- **MockSynthVoice**: the monophonic acid voice. It plays one note at a time. A Note Off
  silences the voice only when it names the sounding note. StopSound silences it whatever the
  note. The voice also keeps a slide flag, a volume, a filter cutoff and a resonance, and
  produces a sine sample per frame.
- **MockSampler**: the drum sampler with a pool of 12 sample slots. Note `n` plays slot
  `n mod 12`. Each slot keeps raw 0-127 MIDI parameters next to their scaled values. One frame
  mixes every playing slot to stereo with linear panning, moves each cursor on by its pitch
  ratio, and stops a slot at the end of its sample.
- **MockMidiHandler**: the MIDI channel-voice dispatcher. It routes a message on the high
  nibble of the status byte. A Note On with velocity 0 counts as a Note Off. A Note Off is
  ignored unless it names the last note played. The handler keeps a running note count and
  applies four Control Change mappings: cutoff 74, resonance 71, volume 7 and pan 10.
- **MockFillRectPerformanceLCD::fillRect**: clips a rectangle to the 320x240 screen. It then
  fills a 512-pixel buffer with the RGB565 colour, high byte first, and hands the buffer to
  the serial write in batches of at most 512 pixels.
- **MockST7701_LCD**: the same clipping and batching, with `width()`, `height()` and
  `fillScreen`.

The model is organised in seven modules:

- `Common` holds the byte-sized integer types, `Option`, the 0-127 to 0.0-1.0 control scaling
  and the int16 narrowing.
- `SynthVoice`, `Sampler` and `Midi` each model one stateful mock as a Dafny class. Each class
  has a pure value view (`State()` or `Slots()`). Each method is specified as a transition on
  that view, and the lemmas are proved about the transitions.
- `Display` holds what both display mocks share: clipping, batch splitting and colour
  serialisation.
- `FillRectPerformance` and `LcdPerformance` hold the two `fillRect` loops. The drawing
  methods change no state: each returns the log of what it sends. For the first mock that is
  the byte payload of every write. For the second it is the size of every timed batch.

C++ `float` arithmetic is modelled with exact reals. `sin` and `pow(2, _)` are function
parameters of the operations that use them.

## Model

| member | source | states |
|---|---|---|
| `Common.CcToUnit` | test/test_midi.h:259-268 | The scaled control value times 127 is the raw value. It is in [0, 1] for raw values up to 127, and it is 0 exactly at raw 0 and 1 exactly at raw 127. |
| `Common.Wrap16` | test/test_fillrect_performance.cpp:38-39 | Storing an int sum into an `int16_t` keeps it modulo 2^16 and leaves in-range values unchanged. |
| `SynthVoice.RetriggerForgetsPreviousNote` | test/test_synthvoice.h:22-26 | A second Note On replaces the first outright. The voice then sounds the new note. |
| `SynthVoice.NoteOffGuard` | test/test_synthvoice.h:28-32 | Releasing the sounding note equals a stop and keeps the note. A release of any other note changes nothing. |
| `SynthVoice.NoteOffIdempotent` | test/test_synthvoice.h:28-32 | Releasing the same note twice is the same as releasing it once. |
| `SynthVoice.RunAppend` | test/test_synthvoice.h:22-36 | Running two event sequences one after the other is running their concatenation. |
| `SynthVoice.RunWithoutNoteOn` | test/test_synthvoice.h:28-36 | Without a Note On, the voice keeps its note and parameters. It still sounds exactly when it sounded before and no later Note Off for its note or StopSound came. |
| `SynthVoice.LastNoteOnDecides` | test/test_synthvoice.h:22-36 | After any event sequence, the note and velocity are those of the last Note On. The voice sounds exactly when nothing after that Note On released its note or stopped the voice. |
| `SynthVoice.AdvancePhase` | test/test_synthvoice.h:49-51 | From a phase in [0, 2*PI] and a frequency up to the sample rate, one step with a single wrap stays in [0, 2*PI]. |
| `SynthVoice.FrequencyOctave` | test/test_synthvoice.h:48 | When `pow(2, _)` is 1 at 0 and satisfies pow(2, a + 1) = 2 pow(2, a) for every a, note 69 is 440 Hz and twelve semitones up is twice the frequency. |
| `SynthVoice.Oscillator.constructor` | test/test_synthvoice.h:49 | The function-static phase starts at 0. |
| `SynthVoice.Voice.constructor` | test/test_synthvoice.h:10-11 | A new voice has volume 1, cutoff 1000, resonance 0, note 0 and no sound or slide. |
| `SynthVoice.Voice.Init` | test/test_synthvoice.h:13-20 | Init restores those defaults and keeps the stored velocity. |
| `SynthVoice.Voice.NoteOn` | test/test_synthvoice.h:22-26 | The new state is the Note On transition: the voice is active on the given note. |
| `SynthVoice.Voice.NoteOff` | test/test_synthvoice.h:28-32 | The new state is the guarded Note Off. Releasing the current note deactivates the voice. Any other note leaves the whole state unchanged. |
| `SynthVoice.Voice.StopSound` | test/test_synthvoice.h:34-36 | The voice is inactive and keeps its note. |
| `SynthVoice.Voice.SetSlideOn` | test/test_synthvoice.h:38 | Slide is on and nothing else changes. |
| `SynthVoice.Voice.SetSlideOff` | test/test_synthvoice.h:39 | Slide is off and nothing else changes. |
| `SynthVoice.Voice.SetVolume` | test/test_synthvoice.h:40 | The volume reads back as set and nothing else changes. |
| `SynthVoice.Voice.SetCutoff` | test/test_synthvoice.h:41 | The cutoff reads back as set and nothing else changes. |
| `SynthVoice.Voice.SetResonance` | test/test_synthvoice.h:42 | The resonance reads back as set and nothing else changes. |
| `SynthVoice.Voice.Process` | test/test_synthvoice.h:44-55 | An idle voice outputs 0 and leaves the shared phase alone. A sounding voice advances the phase by its note's frequency and outputs sin(phase) times velocity/127 times volume. |
| `SynthVoice.Voice.IsActive` | test/test_synthvoice.h:57 | Reads whether a note is sounding. |
| `SynthVoice.Voice.GetCurrentNote` | test/test_synthvoice.h:58 | Reads the current note. |
| `SynthVoice.Voice.GetVolume` | test/test_synthvoice.h:59 | Reads the volume. |
| `SynthVoice.Voice.GetCutoff` | test/test_synthvoice.h:60 | Reads the cutoff. |
| `SynthVoice.Voice.GetResonance` | test/test_synthvoice.h:61 | Reads the resonance. |
| `SynthVoice.Voice.IsSlideEnabled` | test/test_synthvoice.h:62 | Reads the slide flag. |
| `Sampler.SlotOf` | test/test_sampler.h:52-54 | The slot index is below 12 and congruent to the note modulo 12. |
| `Sampler.SlotOfOctave` | test/test_sampler.h:196-205 | Notes an octave apart select the same slot. |
| `Sampler.PitchFromMidi` | test/test_sampler.h:76-82 | The raw pitch control maps linearly onto ratios from 0.5 at raw 0 to 2.0 at raw 127. The position within that range is the control scaled to [0, 1]. |
| `Sampler.PanningPreservesGain` | test/test_sampler.h:129-132 | Left plus right output is the unpanned mono sum of the slot gains. |
| `Sampler.HardLeftPan` | test/test_sampler.h:129-132 | When every slot is panned to 0, the right channel is silent and the left carries the mono sum. |
| `Sampler.SilentWhenNothingPlays` | test/test_sampler.h:118-123 | When no slot is both active and loaded, both channels are 0. |
| `Sampler.AdvanceOnlyMovesPlayingSlots` | test/test_sampler.h:134-140 | A frame leaves idle slots unchanged and moves a playing slot's cursor by its pitch. A playing slot stays active exactly when its advanced cursor is still before the end of its sample. |
| `Sampler.SilentAtStart` | test/test_sampler.h:123-140 | When the waveform is 0 at cursor 0 and every playing slot is at the start of its sample, both channels of the frame are 0. |
| `Sampler.Sampler.constructor` | test/test_sampler.h:24-43 | All 12 slots hold the default sample info and are stopped at position 0. The master volume is 1, the sends are 0 and slot 0 is selected. |
| `Sampler.Sampler.Init` | test/test_sampler.h:45-50 | Init resets the master volume, the sends and the selection, and touches no slot. |
| `Sampler.Sampler.SelectNote` | test/test_sampler.h:52-54 | The selection is the note's slot. |
| `Sampler.Sampler.SetNotePanMidi` | test/test_sampler.h:56-61 | Only the selected slot changes. Its raw pan is the value, its pan is the value scaled to [0, 1], and the raw pan reads back. |
| `Sampler.Sampler.SetNoteDecayMidi` | test/test_sampler.h:63-67 | Only the selected slot's raw decay changes, and it reads back. |
| `Sampler.Sampler.SetNoteVolumeMidi` | test/test_sampler.h:69-74 | Only the selected slot changes. Its raw volume and its scaled volume are set, and the raw volume reads back. |
| `Sampler.Sampler.SetSoundPitchMidi` | test/test_sampler.h:76-82 | Only the selected slot changes. Its raw pitch and its pitch ratio are set, and the raw pitch reads back. |
| `Sampler.Sampler.SetSoundPitch` | test/test_sampler.h:84-88 | Only the selected slot's pitch ratio changes. |
| `Sampler.Sampler.SetDelaySend` | test/test_sampler.h:90-92 | The delay send is the level scaled to [0, 1]. |
| `Sampler.Sampler.SetReverbSend` | test/test_sampler.h:94-96 | The reverb send is the level scaled to [0, 1]. |
| `Sampler.Sampler.SetVolume` | test/test_sampler.h:98-100 | The master volume is the value. |
| `Sampler.Sampler.NoteOn` | test/test_sampler.h:102-109 | If the note's slot is loaded, it restarts at position 0 with the velocity and plays. Every other slot is unchanged. |
| `Sampler.Sampler.NoteOff` | test/test_sampler.h:111-116 | The note's slot stops with its cursor kept. Every other slot is unchanged. |
| `Sampler.Sampler.Process` | test/test_sampler.h:118-143 | The outputs are the left and right mixes of the slots as they were. The new slots are every old slot advanced by one frame. |
| `Sampler.Sampler.MixSlot` | test/test_sampler.h:123-140 | One loop pass over slot i returns that slot's left and right share and advances that slot only. |
| `Sampler.Sampler.GetSoundSamplerate` | test/test_sampler.h:145-147 | The selected slot's sample rate. A selection outside the pool gives 44100, but `SelectNote` never stores one. |
| `Sampler.Sampler.GetSoundDecayMidi` | test/test_sampler.h:149-151 | The selected slot's raw decay. A selection outside the pool gives 64, but `SelectNote` never stores one. |
| `Sampler.Sampler.GetSoundPanMidi` | test/test_sampler.h:153-155 | The selected slot's raw pan. A selection outside the pool gives 64, but `SelectNote` never stores one. |
| `Sampler.Sampler.GetSoundPitchMidi` | test/test_sampler.h:157-159 | The selected slot's raw pitch. A selection outside the pool gives 64, but `SelectNote` never stores one. |
| `Sampler.Sampler.GetSoundVolumeMidi` | test/test_sampler.h:161-163 | The selected slot's raw volume. A selection outside the pool gives 127, but `SelectNote` never stores one. |
| `Sampler.Sampler.GetSamplesCount` | test/test_sampler.h:165-167 | The pool holds 12 slots, and every note maps to a slot below that count. |
| `Sampler.Sampler.IsSampleActive` | test/test_sampler.h:169-172 | Whether the note's slot (note mod 12) is playing. The source's fallback to false never applies, because the slot is always inside the pool. |
| `Sampler.FirstFrameAfterNoteOn` | test/test_sampler.h:306-318 | A fresh sampler, after Init, Note On 36 and one frame, outputs exactly 0 on both channels whenever the waveform is 0 at cursor 0. |
| `Sampler.PanReadbackAfterInit` | test/test_sampler.h:188-194 | After construction and Init, the selected slot's raw pan reads 64, the constructor's centre value. |
| `Midi.StatusKind` | test/test_midi.h:76 | `status & 0xF0` is the multiple of 16 that the status lies in, below the next one. |
| `Midi.StatusKindOfChannel` | test/test_midi.h:16-19 | A type nibble plus any channel 0-15 has that type. |
| `Midi.RoutingIgnoresChannel` | test/test_midi.h:75-91 | Two messages whose statuses have the same high nibble are handled the same, whatever their channel nibble or channel field. |
| `Midi.ZeroVelocityNoteOnIsNoteOff` | test/test_midi.h:77-86 | A Note On with velocity 0 on any channel does exactly what a Note Off for that note does on any channel and at any release velocity. |
| `Midi.NoteOnCounts` | test/test_midi.h:41-45 | A sounding Note On records the note and velocity, counts one more note and changes nothing else. |
| `Midi.NoteOffGuard` | test/test_midi.h:47-52 | A Note Off for a note other than the last one changes nothing. For the last note, it clears the velocity and counts one note less. |
| `Midi.PressReleaseBalances` | test/test_midi.h:41-52 | Pressing and releasing the same note restores the count and leaves velocity 0. |
| `Midi.ControlChangeTable` | test/test_midi.h:54-73 | A Control Change records its number and value and moves exactly the parameter that number maps to. An unmapped number moves none, and the note fields are unchanged. |
| `Midi.OtherStatusesIgnored` | test/test_midi.h:75-91 | Any status other than Note Off, Note On and Control Change, such as pitch bend, changes nothing. |
| `Midi.ControlChangesKeepNotes` | test/test_midi.h:54-73 | A run of Control Change messages keeps the last note, velocity and count. |
| `Midi.NotesKeepControls` | test/test_midi.h:41-52 | A run without Control Change messages keeps the four mapped parameters and the last CC fields. |
| `Midi.MidiHandler.constructor` | test/test_midi.h:38-39 | A new handler has zero notes. Cutoff starts at 64, resonance at 0, volume at 127 and pan at 64. |
| `Midi.MidiHandler.HandleNoteOn` | test/test_midi.h:41-45 | The new state is the Note On transition. |
| `Midi.MidiHandler.HandleNoteOff` | test/test_midi.h:47-52 | The new state is the guarded Note Off transition. |
| `Midi.MidiHandler.HandleControlChange` | test/test_midi.h:54-73 | The new state is the Control Change transition. |
| `Midi.MidiHandler.ProcessMidiMessage` | test/test_midi.h:75-91 | The new state is the dispatch on the status's high nibble. |
| `Midi.ReleaseOfEarlierNoteIsIgnored` | test/test_midi.h:236-257 | Three Note Ons and then a Note Off for the middle note leave the count at 3. |
| `Midi.MidpointIsNotHalf` | test/test_midi.h:259-266 | Controller value 64 scales to more than 0.501 and 63 to less than 0.499, so neither value next to one half lies within 0.001 of it. |
| `Display.Clip` | test/test_fillrect_performance.cpp:38-42 | A clipped rectangle is non-empty and lies on the screen. When the int16 sums do not wrap, clipping is the intersection with the screen. |
| `Display.ClipRect` | test/test_lcd_performance.cpp:24-28 | The in-place clipping code computes `Clip`, and leaves a non-positive extent exactly when nothing is drawn. |
| `Display.ClippedArea` | test/test_fillrect_performance.cpp:42-44 | The painted pixel count is at most 320*240, and it is 0 exactly when clipping leaves nothing. |
| `Display.ClipExamples` | test/test_fillrect_performance.cpp:38-42 | Clipping keeps the on-screen quarter of a rectangle that hangs over the corner. A rectangle wholly off screen or of zero size gives nothing, and an oversized one is cut to the screen. |
| `Display.ClipWhenSumWraps` | test/test_fillrect_performance.cpp:38 | At x = -30000 with width -30000 the intersection is empty, yet the narrowed sum paints a full-width band. |
| `Display.Batches` | test/test_fillrect_performance.cpp:58-62 | The batch sizes add up to the pixel count. |
| `Display.BatchBounds` | test/test_fillrect_performance.cpp:59 | Every batch holds 1 to 512 pixels. |
| `Display.BatchCount` | test/test_fillrect_performance.cpp:58-62 | The number of batches is the pixel count divided by 512, rounded up. |
| `Display.HighByte` | test/test_fillrect_performance.cpp:50 | `color >> 8` is the quotient of the colour by 256. |
| `Display.LowByte` | test/test_fillrect_performance.cpp:51 | `color & 0xFF` is congruent to the colour modulo 256. |
| `Display.PixelBytesRoundTrip` | test/test_fillrect_performance.cpp:50-51 | The high and low bytes put back together give the colour again. |
| `Display.ColorRunDecodes` | test/test_fillrect_performance.cpp:52-55 | Every pixel of a colour run decodes back to the colour. |
| `Display.PayloadsCarryEveryPixel` | test/test_fillrect_performance.cpp:58-62 | The payloads for a list of batches carry two bytes per batched pixel, and each payload is a colour run. |
| `Display.PayloadShape` | test/test_fillrect_performance.cpp:58-62 | For a pixel count, each write carries 1 to 512 whole pixels of the colour. The writes carry two bytes per pixel in all, and there are none for no pixels. |
| `FillRectPerformance.FillRect` | test/test_fillrect_performance.cpp:36-63 | The writes are the colour runs of the batches of the clipped area, and none when clipping leaves nothing. Each write is 2 to 1024 bytes of the colour, and the total is twice the clipped area, at most 2*320*240 bytes. |
| `FillRectPerformance.PrefilledBuffer` | test/test_fillrect_performance.cpp:47-55 | The buffer holds 512 pixels of the colour, high byte first. |
| `FillRectPerformance.SendRuns` | test/test_fillrect_performance.cpp:57-62 | The loop writes the colour-run prefixes of the buffer for exactly the batches of the pixel count. |
| `LcdPerformance.Width` | test/test_lcd_performance.cpp:18 | The reported width is the width that clipping uses. |
| `LcdPerformance.Height` | test/test_lcd_performance.cpp:19 | The reported height is the height that clipping uses. |
| `LcdPerformance.FillRect` | test/test_lcd_performance.cpp:22-49 | The timed batches are the batches of the clipped area: none when nothing is left, each 1 to 512 pixels, adding up to the clipped area. |
| `LcdPerformance.SendBatches` | test/test_lcd_performance.cpp:38-45 | The loop sends exactly the batches of the pixel count. |
| `LcdPerformance.FillScreen` | test/test_lcd_performance.cpp:51-53 | Filling the screen clips nothing away and sends width times height pixels as 150 full batches of 512. |
| `LcdPerformance.FullBatches` | test/test_lcd_performance.cpp:38-45 | A multiple of 512 pixels goes out in full batches only. |

## Left out

- Timing is not modelled: `simulateSpiDelay`, `simulateDelay` and the `std::chrono` measurements, with their microsecond thresholds. Each transfer is recorded as its payload or its batch size instead.
- The test functions and `main` of the test files are not modelled, and neither is `test_fillrect_thread`. Their concrete expectations appear only as the example lemmas above.
- The real ST7701 driver, the synthesiser's filters and effects, and the sampler's sample loading are not part of this model.
- Floating point is modelled as exact real arithmetic. Rounding of `float` and of the `/ 127.0f` scalings is not captured.
- `sin` and `pow(2, _)` are function parameters. The sampler's mock sample data, `sin(2*PI*p/100)` at cursor p, is the parameter `wave` of `Sampler.Sampler.Process`.
- The sampler's `data` pointer is not modelled: nothing reads it.
- The voice's `_velocity` and the sampler's `playback_velocity[]` are uninitialised in the source. The model starts them at 0.
- Each getter's contract states the source's default for a selection outside the pool. No reachable state selects it, because `SelectNote` always stores a value below 12 and `Valid()` keeps it there.
- `note_count` is an `int` and would overflow after 2^31 net Note Ons. The model uses an unbounded integer.
- `SynthVoice.AdvancePhase` states the phase range only for frequencies up to the sample rate. Higher frequencies can leave the phase above 2*PI after one wrap, as in the source.
- The sampler test at test/test_sampler.h:193 expects pan 0 after Init. The code gives 64, which `Sampler.PanReadbackAfterInit` states.
- The MIDI test at test/test_midi.h:254-256 expects a count of 2. The code gives 3, which `Midi.ReleaseOfEarlierNoteIsIgnored` states.
- The sampler tests at test/test_sampler.h:317 and test/test_sampler.h:380 expect output above 0.01 in the first frame after a Note On. That frame reads the mock waveform at cursor 0, where `sin(2*PI*0/100)` is 0, so both channels are exactly 0. `Sampler.FirstFrameAfterNoteOn` states this.
- The MIDI test at test/test_midi.h:266 expects 64/127 within 0.001 of 0.5. It is about 0.5039, which `Midi.MidpointIsNotHalf` states.
- `LcdPerformance.FillRect` clips with the shared 320x240 screen constants. `MOCK_WIDTH` and `MOCK_HEIGHT` are equal to them, which `LcdPerformance.Width` and `LcdPerformance.Height` state.
- `Sampler.Sampler.GetSoundPanMidi` returns a byte, where the source returns `uint16_t`. The field it reads is a byte, so the value is the same.
- The `uint16_t` batch size and the `(uint32_t)w * h` product cannot overflow after clipping: a batch is at most 512 and the area at most 76800. They are modelled as unbounded naturals.
