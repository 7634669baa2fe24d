/** MIDI messages as the firmware's event handler sees them. */
module Midi {

  /** An unsigned 8-bit value: the firmware stores notes, velocities,
      controller numbers and the sequencer cursor as uint8_t. */
  type Byte = x: int | 0 <= x < 256

  /** A decoded MIDI event. Only the three message kinds the handler
      dispatches on carry data; every other kind is ignored. The channel
      is only written to the debug trace, so it is not kept. */
  datatype MidiEvent =
    | NoteOn(note: Byte, velocity: Byte)
    | NoteOff(note: Byte, velocity: Byte)
    | ControlChange(control: Byte, value: Byte)
    | OtherMessage
}
