/**
 * The three-byte MIDI message record passed between routing nodes
 * (src/data.rs). The status byte carries the message type in its high nibble
 * and the channel in its low nibble, as in the Channel Voice Messages table of
 * the MIDI 1.0 Detailed Specification.
 */
module Data {

  /** Rust's `u8`. */
  type Byte = bv8

  datatype MidiData = MidiData(instruction: Byte, channel: Byte, note: Byte, velocity: Byte)

  /** Message types (high nibble of the status byte). */
  const NOTE_OFF: Byte := 0x8
  const NOTE_ON: Byte := 0x9

  /** `*data.get(i).unwrap_or(&0)`: the byte at `i`, or 0 past the end. */
  function ByteAt(data: seq<Byte>, i: nat): Byte
  {
    if i < |data| then data[i] else 0
  }

  /** `MidiData::from_slice`: unpack a raw message; missing bytes read as 0. */
  function FromSlice(data: seq<Byte>): (m: MidiData)
    ensures m.instruction < 16 && m.channel < 16
    ensures |data| > 0 ==> m.instruction as int == data[0] as int / 16
    ensures |data| > 0 ==> m.channel as int == data[0] as int % 16
    ensures |data| == 0 ==> m == MidiData(0, 0, 0, 0)
  {
    var (instruction, channel) :=
      if |data| > 0 then ((data[0] & 0xF0) >> 4, data[0] & 0x0F) else (0, 0);
    MidiData(instruction, channel, ByteAt(data, 1), ByteAt(data, 2))
  }

  /** `MidiData::to_array`: pack a record into its three wire bytes. */
  function ToArray(m: MidiData): (bytes: seq<Byte>)
    ensures |bytes| == 3
    ensures m.instruction < 16 && m.channel < 16 ==>
              bytes[0] as int == m.instruction as int * 16 + m.channel as int
  {
    [(m.instruction << 4) | m.channel, m.note, m.velocity]
  }

  /** A note-on with velocity 0 counts as a note-off (MIDI 1.0). */
  predicate SoundsNote(m: MidiData)
  {
    m.instruction == NOTE_ON && m.velocity != 0
  }

  /** Packing what was unpacked gives back the first three bytes; later bytes are ignored. */
  lemma BytesRoundTrip(data: seq<Byte>)
    requires |data| >= 3
    ensures ToArray(FromSlice(data)) == data[..3]
  {
  }

  /** Unpacking what was packed gives back any record whose nibbles fit. */
  lemma RecordRoundTrip(m: MidiData)
    requires m.instruction < 16 && m.channel < 16
    ensures FromSlice(ToArray(m)) == m
  {
  }

  /** Note and velocity pass through packing unchanged, at indices 1 and 2. */
  lemma PassThroughBytes(m: MidiData)
    ensures ToArray(m)[1] == m.note && ToArray(m)[2] == m.velocity
  {
  }

  /** Short input: every byte the slice lacks reads as 0. */
  lemma ShortInputDefaults(data: seq<Byte>)
    requires |data| < 3
    ensures FromSlice(data).velocity == 0
    ensures |data| < 2 ==> FromSlice(data).note == 0
    ensures |data| == 0 ==> FromSlice(data) == MidiData(0, 0, 0, 0)
  {
  }

  /**
   * Packing keeps only the low nibble of the instruction: its high bits are
   * shifted out of the status byte, so unpacking gives back the instruction
   * modulo 16 and every other field unchanged.
   */
  lemma WideInstructionTruncates(m: MidiData)
    requires m.channel < 16
    ensures FromSlice(ToArray(m)) == m.(instruction := m.instruction % 16)
  {
  }

  /** For example, instruction 0x19 comes back as a note-on. */
  lemma WideNoteOnExample()
    ensures FromSlice(ToArray(MidiData(0x19, 0, 60, 100))).instruction == NOTE_ON
  {
    WideInstructionTruncates(MidiData(0x19, 0, 60, 100));
  }
}
