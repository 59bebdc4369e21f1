/** Machine integer widths and small helpers shared by the engine modules. */
module Common {

  /** `uint8_t`: MIDI data bytes, raw control values, serial bytes. */
  type U8 = x: int | 0 <= x < 0x100

  /** `uint16_t`: packed RGB565 colours, sample rates. */
  type U16 = x: int | 0 <= x < 0x1_0000

  /** `int16_t`: display coordinates and extents. */
  type I16 = x: int | -0x8000 <= x < 0x8000

  datatype Option<+T> = None | Some(value: T)

  /** Largest raw value of a MIDI data byte. */
  const MidiMax: int := 127

  /** `(float)v / 127.0f`: the linear scaling of a raw 0-127 control value to 0.0-1.0,
      used by the sampler's pan and volume setters, its effect sends and the CC conversion. */
  function CcToUnit(v: U8): (r: real)
    ensures r * 127.0 == v as real
    ensures v <= MidiMax ==> 0.0 <= r <= 1.0
    ensures v == 0 <==> r == 0.0
    ensures v == MidiMax <==> r == 1.0
  {
    v as real / 127.0
  }

  /** The conversion to int16_t that C++ applies when an int result is stored back into an
      `int16_t` variable: the value modulo 2^16, read as two's complement. */
  function Wrap16(v: int): (r: I16)
    ensures (r - v) % 0x1_0000 == 0
    ensures -0x8000 <= v < 0x8000 ==> r == v
  {
    (v + 0x8000) % 0x1_0000 - 0x8000
  }
}
