/** The numeric side of the converter in src/main.rs: MIDI note numbers, tick
    lengths at 480 ticks per quarter note, the Set Tempo value, and the machine
    integer behaviour (saturating float casts, saturating position arithmetic,
    debug-build overflow aborts, the lossy narrowing into MIDI field widths). */
module Midi {
  import opened Primitive

  const TicksPerQuarter: nat := 480
  /** One minute in microseconds. */
  const MicrosPerMinute: nat := 60_000_000

  const U32Max: nat := 0xFFFF_FFFF
  /** usize::MAX on a 64-bit target. */
  const UsizeMax: nat := 0xFFFF_FFFF_FFFF_FFFF
  const U64Max: nat := 0xFFFF_FFFF_FFFF_FFFF
  const I32Min: int := -0x8000_0000
  const I32Max: int := 0x7FFF_FFFF

  /** The reasons the conversion aborts. */
  datatype Fault =
    | NotOnePart(count: nat)     // assert_eq!(v.part.len(), 1)
    | ChordAsPrimary             // assert!(note.chord.is_none()) on a pitched note
    | ArithmeticOverflow         // u8 / i32 arithmetic overflow in midi_note_number
    | DivideByZero               // a tempo that rounds to 0 beats per minute

  datatype Outcome<+T> = Value(value: T) | Abort(fault: Fault)

  /** The channel messages and the meta message the converter emits. */
  datatype Message =
    | NoteOn(channel: nat, key: nat, velocity: nat)
    | NoteOff(channel: nat, key: nat, velocity: nat)
    | Tempo(micros: nat)

  /** Narrowing into a MIDI data byte (u7): the top bit is dropped. */
  function Key7(k: nat): (r: nat)
    ensures r < 128 && (k < 128 ==> r == k)
  {
    k % 128
  }

  /** Narrowing into the 24-bit tempo field. */
  function Micros24(us: nat): (r: nat)
    ensures r < 0x100_0000 && (us < 0x100_0000 ==> r == us)
  {
    us % 0x100_0000
  }

  function On(key: nat): Message {
    NoteOn(0, Key7(key), 127)
  }

  function Off(key: nat): Message {
    NoteOff(0, Key7(key), 0)
  }

  // ---------------------------------------------------------------- rounding and casts

  /** f64::round: to the nearest integer, halves away from zero. */
  function Round(x: real): (n: int)
    ensures x - 0.5 <= n as real <= x + 0.5
    ensures n as real == x + 0.5 ==> x > 0.0
    ensures n as real == x - 0.5 ==> x < 0.0
  {
    if x >= 0.0 then (x + 0.5).Floor else -((0.5 - x).Floor)
  }

  /** A float-to-unsigned `as` cast: truncation toward zero, clamped into 0..=max. */
  function CastUnsigned(x: real, max: nat): (n: nat)
    ensures n <= max
    ensures 0.0 <= x < max as real ==> n == x.Floor
    ensures x <= 0.0 ==> n == 0
    ensures x >= max as real ==> n == max
  {
    if x <= 0.0 then 0 else if x >= max as real then max else x.Floor
  }

  /** `(duration / divisions) * 480.0` cast to an unsigned type; a zero divisor
      yields +inf (clamped to max) for a positive duration and -inf or NaN (both 0)
      otherwise. */
  function ScaledTicks(duration: real, divisions: real, max: nat): (n: nat)
    ensures n <= max
    ensures divisions != 0.0 && 0.0 <= duration / divisions * TicksPerQuarter as real < max as real ==>
              n == (duration / divisions * TicksPerQuarter as real).Floor
    ensures divisions != 0.0 && duration / divisions * TicksPerQuarter as real <= 0.0 ==> n == 0
    ensures divisions != 0.0 && duration / divisions * TicksPerQuarter as real >= max as real ==> n == max
    ensures divisions == 0.0 ==> (duration > 0.0 ==> n == max) && (duration <= 0.0 ==> n == 0)
  {
    if divisions == 0.0 then (if duration > 0.0 then max else 0)
    else CastUnsigned(duration / divisions * TicksPerQuarter as real, max)
  }

  /** The tick length of a note: cast to u32. */
  function Ticks(duration: real, divisions: real): (n: nat)
    ensures n <= U32Max
    ensures divisions != 0.0 && 0.0 <= duration / divisions * TicksPerQuarter as real < U32Max as real ==>
              n == (duration / divisions * TicksPerQuarter as real).Floor
  {
    ScaledTicks(duration, divisions, U32Max)
  }

  /** The tick length of a backup: cast to usize. */
  function BackupTicks(duration: real, divisions: real): (n: nat)
    ensures n <= UsizeMax
    ensures divisions != 0.0 && 0.0 <= duration / divisions * TicksPerQuarter as real < UsizeMax as real ==>
              n == (duration / divisions * TicksPerQuarter as real).Floor
  {
    ScaledTicks(duration, divisions, UsizeMax)
  }

  lemma TicksOfWholeDivisions(duration: nat, divisions: nat)
    requires divisions > 0 && duration * TicksPerQuarter / divisions <= U32Max
    ensures Ticks(duration as real, divisions as real) == duration * TicksPerQuarter / divisions
  {
    var q := duration as real / divisions as real * TicksPerQuarter as real;
    var n := duration * TicksPerQuarter / divisions;
    var rem := duration * TicksPerQuarter % divisions;
    assert duration * TicksPerQuarter == n * divisions + rem;
    assert q == (n * divisions + rem) as real / divisions as real;
    assert q == n as real + rem as real / divisions as real;
    assert 0.0 <= rem as real / divisions as real < 1.0;
  }

  /** usize::saturating_add: never above usize::MAX. */
  function SatAdd(a: nat, b: nat): (r: nat)
    requires a <= UsizeMax
    ensures a <= r <= UsizeMax
    ensures a + b <= UsizeMax ==> r == a + b
    ensures a + b > UsizeMax ==> r == UsizeMax
  {
    if a + b <= UsizeMax then a + b else UsizeMax
  }

  /** usize::saturating_sub: never below zero. */
  function SatSub(a: nat, b: nat): (r: nat)
    ensures r <= a
    ensures b <= a ==> r == a - b
    ensures b > a ==> r == 0
  {
    if b <= a then a - b else 0
  }

  // ---------------------------------------------------------------- note numbers

  /** Semitones above C of each step. */
  function Semitone(step: Step): (s: nat)
    ensures s < 12
  {
    match step
    case C => 0
    case D => 2
    case E => 4
    case F => 5
    case G => 7
    case A => 9
    case B => 11
  }

  function CastI32(n: int): (r: int)
    ensures I32Min <= r <= I32Max
  {
    if n < I32Min then I32Min else if n > I32Max then I32Max else n
  }

  /** midi_note_number: `(((octave + 1) * 12 + base) as i32 + alter.round() as i32) as u8`,
      where the u8 and i32 arithmetic aborts on overflow and the final cast wraps. */
  function MidiNoteNumber(step: Step, octave: U8, alter: real): (r: Outcome<nat>)
    ensures r.Value? ==> r.value < 256
  {
    var up := octave + 1;
    var scaled := up * 12;
    var base := scaled + Semitone(step);
    var bent := base + CastI32(Round(alter));
    if up > 255 || scaled > 255 || base > 255 || bent > I32Max then Abort(ArithmeticOverflow)
    else Value(bent % 256)
  }

  /** The MIDI 1.0 numbering: twelve semitones per octave, C of octave -1 is key 0. */
  lemma NoteNumberFormula(step: Step, octave: U8, alter: real)
    ensures (octave + 1) * 12 + Semitone(step) > 255 ==>
              MidiNoteNumber(step, octave, alter) == Abort(ArithmeticOverflow)
    ensures var n := (octave + 1) * 12 + Semitone(step) + Round(alter);
            (octave + 1) * 12 + Semitone(step) <= 255 && I32Min <= Round(alter) <= I32Max - 255 ==>
              MidiNoteNumber(step, octave, alter) == Value(n % 256)
    ensures var n := (octave + 1) * 12 + Semitone(step) + Round(alter);
            (octave + 1) * 12 + Semitone(step) <= 255 && 0 <= n <= 255 ==>
              MidiNoteNumber(step, octave, alter) == Value(n)
  {
  }

  lemma MiddleCExamples()
    ensures MidiNoteNumber(C, 4, 0.0) == Value(60)
    ensures MidiNoteNumber(G, 4, 0.0) == Value(67)
    ensures MidiNoteNumber(A, 4, 0.0) == Value(69)
    ensures MidiNoteNumber(C, 4, 1.0) == Value(61)
    ensures MidiNoteNumber(C, 4, 0.5) == Value(61)
    ensures MidiNoteNumber(C, 4, -0.5) == Value(59)
    ensures MidiNoteNumber(C, 0, -13.0) == Value(255)
    ensures MidiNoteNumber(C, 21, 0.0) == Abort(ArithmeticOverflow)
  {
  }

  // ---------------------------------------------------------------- tempo

  /** The Set Tempo value for a `tempo` in beats per minute: 60_000_000 divided by
      the bpm rounded and cast to u64; a divisor of 0 aborts. */
  function TempoMicros(bpm: real): (r: Outcome<nat>)
    ensures r.Value? ==> r.value <= MicrosPerMinute
  {
    var divisor := CastUnsigned(Round(bpm) as real, U64Max);
    if divisor == 0 then Abort(DivideByZero) else Value(MicrosPerMinute / divisor)
  }

  /** The tempo aborts exactly when it rounds to zero or below. */
  lemma TempoZeroIffBelowHalf(bpm: real)
    ensures TempoMicros(bpm).Abort? <==> bpm < 0.5
    ensures 0.5 <= bpm < 1000.0 ==> TempoMicros(bpm) == Value(MicrosPerMinute / Round(bpm))
  {
  }

  lemma TempoExamples()
    ensures TempoMicros(120.0) == Value(500000)
    ensures TempoMicros(60.0) == Value(1000000)
    ensures TempoMicros(0.4) == Abort(DivideByZero)
  {
  }
}
