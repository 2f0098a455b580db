# NeoClef core, modelled in Dafny

NeoClef converts a MusicXML `score-partwise` document into a single-track
Standard MIDI File. This project models its three core parts.

- **The model builder** (src/musicxml.rs). A recursive-descent parser pulls
  events from an XML reader and builds the typed score tree: ScorePartwise,
  Part, Measure, then the measure items (Print, Attributes, Note, Barline,
  Backup, Direction). It also builds their children: Sound, Key, Time, Clef,
  Pitch, Chord, Tie and Rest.
  - The reader is a finite list of tokens (`Start(name, attrs)`, `End(name)`,
    `Text`, `Other`) with a cursor.
  - The reader has two primitive reads besides single events. `read_to_end`
    skips the rest of an element, counting nested elements of the same name.
    `read_text` returns the text inside an element.
  - Every parser is a method over a `Reader` class. Each method is proved equal
    to a function over the token list. That function returns
    `Done(value, next)` or `Fail(error)`.
  - Aborts (`unwrap`, `expect`, `assert_eq!`) are error values
    (`Panic(reason)`), so every function is total.
- **The converter** (`parse` and `midi_note_number` in src/main.rs).
  - Scheduling walks the measure items of the single part. It keeps a divisions
    scale and a tick cursor at 480 ticks per quarter note. It files NoteOn,
    NoteOff and Set Tempo messages in a tick-indexed map, which is the
    `BTreeMap<usize, Vec<TrackEvent>>` in the source.
  - Encoding turns that map into a track with delta times.
  - The scheduler is specified as a function over a log of filed messages. The
    map is the grouping of that log by tick.
  - The methods that fill the map and build the track are proved against these
    functions.
  - Machine arithmetic is written out:
    - float-to-integer casts saturate and truncate toward zero;
    - the position uses saturating add and subtract;
    - `u8`/`i32` overflow in the note number aborts, as in a debug build;
    - a tempo that rounds to 0 is a division by zero;
    - keys, tempos and deltas are narrowed to the MIDI field widths (7, 24 and
      28 bits).
- **The field-order check** (the `State` trait and the test-module
  `ScorePartwise::parse` in src/main.rs). A cursor over the ordered child kinds
  of `score-partwise`: work, movement-number, movement-title, identification,
  defaults, credit, part-list, part. A repeated credit is allowed, and so is a
  repeated part.

Durations, divisions and tempi are exact `real` numbers. The textual number
parser accepts plain decimal notation.

Behaviour of the code that the model keeps as it is:
- Tick lengths truncate toward zero.
- A tempo below 0.5 BPM aborts with a division by zero.
- An unknown child of `score-partwise` aborts the field-order check (an
  `unwrap` on `from_xml`).
- A repeated attribute name keeps its first value. The checked attribute
  iterator reports the repeat as an error, and `filter_map(|r| r.ok())` drops it.
- A part before the part-list is accepted. The cursor after a part is
  PartList, which still allows PartList.
- The deltas sum to the tick of the last filed event, not to the final cursor.
  A trailing rest adds no delta.
- The chord in the source's own conversion test is A4, D5, F5.
- A grace or cue note ends in `MissingTag("duration")`, because the duration is
  never set.
- A tie-stop chord note gets a NoteOff but no NoteOn. Over a whole run, the
  NoteOn keys are therefore a sub-multiset of the NoteOff keys, not equal to
  them.
- A gap wider than 2^28 ticks between filed events wraps in the 28-bit
  delta field.

## Model

| member | source | states |
|---|---|---|
| Xml.Peek | src/musicxml.rs:93 | the next event is the token at the cursor, or end of input exactly when the cursor is at the end |
| Xml.SkipFrom | src/musicxml.rs:114 | `read_to_end` from nesting depth d, when it succeeds, ends just after an end tag of the element's own name, inside the input |
| Xml.ReadTextAt | src/main.rs:281 | `read_text` succeeds exactly when `read_to_end` does and then stops where it stops; on failure the cursor is at end of input |
| Xml.Reader.ReadEvent | src/musicxml.rs:93 | reads the token at the cursor and advances by one, or reports end of input without moving |
| Xml.Reader.ReadToEnd | src/musicxml.rs:114 | the loop that counts same-name nesting returns exactly what `Skip` computes and leaves the cursor there (at the end on failure) |
| Xml.Reader.ReadText | src/main.rs:281 | the text and cursor are exactly `ReadTextAt`'s |
| Primitive.StartStopDecodesExactlyNames | src/musicxml.rs:573-584 | `StartStop::parse` yields a kind exactly for "start" and "stop", and the kind is the one whose name was given |
| Primitive.ParseStartStop | src/musicxml.rs:573-584 | `StartStop::parse` accepts exactly the texts "start" and "stop" |
| Primitive.ParseYesNo | src/musicxml.rs:777-786 | true exactly for "yes"; "no" and every other value are false |
| Primitive.StepFromText | src/musicxml.rs:817-835 | None exactly when the text is not one of the letters A to G; a step read back renders as the text |
| Primitive.StepRoundTrip | src/musicxml.rs:817-835 | every step's letter reads back as that step |
| Primitive.ClefSignFromStr | src/musicxml.rs:853-866 | an accepted sign renders as the text; any other text gives the error message "unknown clef sign: " followed by the text |
| Primitive.ClefSignRoundTrip | src/musicxml.rs:853-866 | every clef sign's name reads back as that sign |
| Primitive.ParseMagnitude | src/musicxml.rs:792-800 | a plain decimal numeral reads as a non-negative number |
| Primitive.ParseDecimal | src/main.rs:285 | `text.parse::<f64>()`: an accepted text is not empty; with a leading minus the number is at most 0, otherwise at least 0 |
| Primitive.ParseU8 | src/main.rs:285 | `text.parse::<u8>()`: an accepted text is not empty and starts with a plus sign or a digit |
| Primitive.U8ReadsAsDecimal | src/main.rs:285 | a text accepted as a `u8` reads as the same number when parsed as an `f64` |
| Primitive.MagnitudeFraction | src/musicxml.rs:792-800 | digits, a point and at least one more digit read as the whole digits' value plus the fraction, each digit after the point weighing a tenth of the one before (so "2.25" is 2 + 0.25) |
| Primitive.Signed | src/musicxml.rs:792-800 | a numeral starting with a digit reads as its magnitude, and behind a minus sign as the negated magnitude |
| Primitive.Fraction | src/musicxml.rs:792-800 | the digits after a point are worth at least 0 and less than 1 |
| Primitive.NatStringParses | src/musicxml.rs:792-800 | a rendered natural number reads back as itself as a decimal, and as a `u8` exactly when it is below 256 |
| Elements.AssignedAbsent | src/musicxml.rs:167-185 | a field the loop never meets keeps its initial value |
| Elements.AssignedIsLast | src/musicxml.rs:167-185 | a field assigned inside a child-reading loop holds the value of the last child with its name |
| Elements.AssignedIsFirst | src/musicxml.rs:548-554 | through the checked attribute iterator, a local assigned per attribute holds the value of the FIRST attribute with its name; later repeats are dropped |
| Elements.CheckedAbsent | src/musicxml.rs:548-554 | through the checked attribute iterator, a local whose attribute is absent keeps its initial value |
| Elements.RepeatedAttributeKeepsFirst | src/musicxml.rs:288-293 | `type="start" type="stop"` decodes as a start, and `tempo="60" tempo="120"` gives tempo 60 |
| Elements.ReadDecimal | src/main.rs:276-290 | `read_text_and_parse` as a `Reader` method: value and cursor are exactly `ReadDecimalAt`'s |
| Elements.ReadU8 | src/main.rs:276-290 | the same for `u8` values |
| Elements.ReadSign | src/main.rs:276-290 | the same for clef signs |
| Elements.ReadStep | src/musicxml.rs:817-835 | `Step::parse` on the reader: value and cursor are exactly `ReadStepAt`'s |
| Elements.SkipElementAt | src/musicxml.rs:145-148 | skipping an element ends just after its own end tag; end of input first is the `unwrap` abort `SkipEof` |
| Elements.PrintAt | src/musicxml.rs:145-148 | Print skips its subtree: it ends after its end tag or aborts with `SkipEof` |
| Elements.ParsePrint | src/musicxml.rs:145-148 | the method's result and cursor agree with `PrintAt` |
| Elements.BarlineAt | src/musicxml.rs:201-204 | Barline skips its subtree: it ends after its end tag or aborts with `SkipEof` |
| Elements.ParseBarline | src/musicxml.rs:201-204 | the method agrees with `BarlineAt` |
| Elements.ChordAt | src/musicxml.rs:636-639 | Chord skips its subtree; end of input first is the reader's own error, propagated with `?` |
| Elements.ParseChord | src/musicxml.rs:636-639 | the method agrees with `ChordAt` |
| Elements.SoundAt | src/musicxml.rs:285-298 | the tempo comes only from the `tempo` attribute, read through the checked iterator, so the first one wins (children are skipped); failure is only the skip abort |
| Elements.ParseSound | src/musicxml.rs:285-298 | the method agrees with `SoundAt` |
| Elements.TieAt | src/musicxml.rs:544-562 | the kind is the first `type` attribute decoded by `StartStop::parse`, read through the checked iterator; a missing or invalid kind aborts (`MissingTieKind`), as does a failed skip |
| Elements.ParseTie | src/musicxml.rs:544-562 | the method agrees with `TieAt` |
| Elements.RestAt | src/musicxml.rs:649-662 | `measure` is the first `measure` attribute read as yes/no, through the checked iterator (false when absent); failure is only the skip abort |
| Elements.ParseRest | src/musicxml.rs:649-662 | the method agrees with `RestAt` |
| Elements.PitchAt | src/musicxml.rs:596-629 | a parsed Pitch ends just after its own end tag |
| Elements.ParsePitch | src/musicxml.rs:596-629 | the reading loop agrees with `PitchAt` |
| Elements.BackupAt | src/musicxml.rs:214-244 | a parsed Backup ends just after its own end tag |
| Elements.ParseBackup | src/musicxml.rs:214-244 | the reading loop agrees with `BackupAt` |
| Elements.DirectionAt | src/musicxml.rs:254-276 | a parsed Direction ends just after its own end tag |
| Elements.ParseDirection | src/musicxml.rs:254-276 | the reading loop agrees with `DirectionAt` |
| Elements.KeyAt | src/musicxml.rs:308-336 | a parsed Key ends just after its own end tag |
| Elements.ParseKey | src/musicxml.rs:308-336 | the reading loop agrees with `KeyAt` |
| Elements.TimeAt | src/musicxml.rs:347-373 | a parsed Time ends just after its own end tag |
| Elements.ParseTime | src/musicxml.rs:347-373 | the reading loop agrees with `TimeAt` |
| Elements.ClefAt | src/musicxml.rs:384-409 | a parsed Clef ends just after its own end tag |
| Elements.ParseClef | src/musicxml.rs:384-409 | the reading loop agrees with `ClefAt` |
| Elements.AttributesAt | src/musicxml.rs:161-193 | parsed Attributes end just after their own end tag |
| Elements.ParseAttributes | src/musicxml.rs:161-193 | the reading loop agrees with `AttributesAt` |
| Layout.BackupFromChildren | src/musicxml.rs:214-244 | over text-only children, Backup fails with UnexpectedEof when input ends before its end tag; at the end tag it yields the last `duration` child's value, or MissingTag("duration") when there is none |
| Layout.BackupRoundTrip | src/musicxml.rs:214-244 | a backup written with one duration child reads back as that duration |
| Layout.KeyFromChildren | src/musicxml.rs:308-336 | over text-only children, Key fails with UnexpectedEof at end of input; at the end tag it yields the last `fifths` text, or MissingTag("fifths") |
| Layout.TimeFromChildren | src/musicxml.rs:347-373 | over text-only children, Time fails with UnexpectedEof at end of input; at the end tag it yields the last beats and beat-type, or aborts when either is missing |
| Layout.TimeRoundTrip | src/musicxml.rs:347-373 | a time written as beats and beat-type reads back as the same pair |
| Layout.ClefFromChildren | src/musicxml.rs:384-409 | over text-only children, Clef fails with UnexpectedEof at end of input; at the end tag it yields the last sign and line, or aborts on a missing or unknown sign |
| Layout.ClefRoundTrip | src/musicxml.rs:384-409 | a clef written with its sign and optional line reads back as the same clef |
| Layout.PitchFromChildren | src/musicxml.rs:596-629 | over text-only children, Pitch fails with UnexpectedEof at end of input; at the end tag it yields the last step, alter and octave, or aborts on a missing step or octave |
| Layout.PitchRoundTrip | src/musicxml.rs:596-629 | a pitch written with step, optional whole-number alter and octave reads back as the same pitch |
| Layout.SettleCollects | src/musicxml.rs:161-193 | Attributes reads its children without error exactly when every key, time and clef child is readable; divisions is then the last `divisions` child, and keys, times and clefs are appended in document order |
| Layout.SettleStops | src/musicxml.rs:161-193 | a failing Attributes parse stops at its first unreadable child, with that child's error |
| Layout.AttributesFromSettings | src/musicxml.rs:161-193 | over any children laid out in sequence (unknown ones skipped), Attributes yields the children's settled value at its end tag, the first child error, or UnexpectedEof when input ends first |
| Layout.MeasureFromBlocks | src/musicxml.rs:89-127 | a Measure yields one item per recognised child, in document order, skipping the others; end of input before its end tag is UnexpectedEof |
| Layout.PartFromBlocks | src/musicxml.rs:59-81 | a Part yields one measure per `measure` child, in order, skipping the others; end of input first is UnexpectedEof |
| Layout.ScoreFromBlocks | src/musicxml.rs:29-51 | a ScorePartwise yields one part per `part` child, in order, skipping the others; end of input first is UnexpectedEof |
| Layout.LatestIsLastFound | src/musicxml.rs:254-276 | the sound a Direction keeps is the last `sound` child's, or the initial one when there is none |
| Layout.DirectionFromBlocks | src/musicxml.rs:254-276 | a Direction yields the last `sound` child's Sound, or none, at its end tag; end of input first is UnexpectedEof |
| Layout.NoteOf | src/musicxml.rs:515-532 | a note from text children is an error exactly when no duration was read, and the error is MissingTag("duration"); otherwise it is Regular with that duration |
| Layout.NoteFoldDuration | src/musicxml.rs:483 | a note's duration is the last `duration` child's value |
| Layout.NoteFromChildren | src/musicxml.rs:435-533 | a note whose children are text elements: UnexpectedEof when input ends first; MissingTag("note") when it has no child; otherwise the children read in order (the first included), with MissingTag("duration") when no duration was read |
| Layout.NoteRoundTrip | src/musicxml.rs:435-533 | a note written with one duration child reads back as a Regular note with that duration |
| Notes.FirstChild | src/musicxml.rs:447-461 | the loop for the first child stops at a start tag and resumes just after it; it fails only with UnexpectedEof, MissingTag("note") or an abort |
| Notes.Finish | src/musicxml.rs:515-532 | a note is produced only with a duration, and a loop that read no duration gives MissingTag("duration") |
| Notes.SkippedNoteAt | src/musicxml.rs:463-477 | a grace or cue note (whole note skipped) never produces a note |
| Notes.NoteAt | src/musicxml.rs:435-533 | a parsed note ends just after its own end tag |
| Notes.ReadFirstChild | src/musicxml.rs:447-461 | the method agrees with `FirstChild`: the first start tag and the cursor after it, or its error |
| Notes.HandleChild | src/musicxml.rs:479-495 | the `handle_start` closure as a method agrees with `NoteChildAt` |
| Notes.ParseNote | src/musicxml.rs:435-533 | the method, dispatching the first child like every later one, agrees with `NoteAt` |
| Notes.ParsedNotesAreRegular | src/musicxml.rs:463-477 | every parsed note is Regular: a note whose first child is `grace` is always rejected |
| Notes.NoteWithoutDurationRejected | src/musicxml.rs:515-520 | a note with no `duration` element anywhere after its start is rejected |
| Notes.FirstChildLostAsWritten | src/musicxml.rs:497 | a concrete note whose only child is `duration`: the corrected parser reads it, the code as written fails |
| Notes.NoteAtAsWritten | src/musicxml.rs:497 | `Note::parse` as written, dispatching the note's own start tag instead of the first child; whatever it parses still ends just after an end tag of the note's name |
| Score.ItemAt | src/musicxml.rs:93-115 | a recognised measure child ends after its own end tag, and its item kind follows its name: `print`, `attributes`, `note`, `barline`, `backup` and `direction` become exactly the Print, Attributes, Note, Barline, Backup and Direction items |
| Score.MeasureAt | src/musicxml.rs:89-127 | a parsed Measure ends just after its own end tag |
| Score.PartAt | src/musicxml.rs:59-81 | a parsed Part ends just after its own end tag |
| Score.ScoreAt | src/musicxml.rs:29-51 | a parsed ScorePartwise ends just after its own end tag |
| Score.ParseItem | src/musicxml.rs:93-115 | the dispatch on the child name agrees with `ItemAt` |
| Score.ParseMeasure | src/musicxml.rs:89-127 | the reading loop agrees with `MeasureAt` |
| Score.ParsePart | src/musicxml.rs:59-81 | the reading loop agrees with `PartAt` |
| Score.ParseScore | src/musicxml.rs:29-51 | the reading loop agrees with `ScoreAt` |
| Score.MeasuresItemsAppend | src/main.rs:72-76 | flattening measures into items keeps each measure's items together and in order |
| Midi.Key7 | src/main.rs:123 | the key written into a MIDI message is below 128 and equals the key when it fits |
| Midi.Micros24 | src/main.rs:218 | the Set Tempo value is below 2^24 and equals the microseconds when they fit |
| Midi.Round | src/main.rs:263 | `f64::round`: within one half of the input, ties away from zero |
| Midi.CastUnsigned | src/main.rs:103 | a float-to-unsigned cast never exceeds the type's maximum and truncates toward zero in range |
| Midi.Ticks | src/main.rs:101-103 | a note's tick length is `duration / divisions * 480` truncated toward zero when that lies in `u32` range, and never above `u32::MAX` |
| Midi.TicksOfWholeDivisions | src/main.rs:101-103 | for whole durations and divisions, ticks are duration times 480 divided by divisions, truncated |
| Midi.BackupTicks | src/main.rs:202-203 | a backup's tick length is `duration / divisions * 480` truncated toward zero when that lies in `usize` range, and never above `usize::MAX` |
| Midi.ScaledTicks | src/main.rs:101-103 | `(duration / divisions) * 480.0 as` an unsigned type: truncation toward zero in range, 0 at or below 0, the maximum at or above it, and for a zero divisor the maximum for a positive duration and 0 otherwise |
| Midi.SatAdd | src/main.rs:167 | `saturating_add`: the sum when it fits, `usize::MAX` otherwise, never below the start |
| Midi.SatSub | src/main.rs:203 | `saturating_sub`: the difference when it is not negative, 0 otherwise |
| Midi.NoteNumberFormula | src/main.rs:250-266 | the `u8` overflow of (octave+1)*12 + semitone aborts; below that, with round(alter) in `i32` range, the note number is (octave+1)*12 + semitone + round(alter) wrapped to `u8`, and exactly that sum when it lies in 0..255 |
| Midi.MidiNoteNumber | src/main.rs:250-266 | `midi_note_number`: a computed note number is below 256 (its value is stated by NoteNumberFormula) |
| Midi.MiddleCExamples | src/main.rs:250-266 | C4 is 60, G4 67, A4 69, C4 with alter 1 is 61, half-steps round away from zero, octave 21 overflows |
| Midi.TempoZeroIffBelowHalf | src/main.rs:207-221 | the tempo aborts (division by zero) exactly when the BPM is below 0.5, so rounds to 0; from 0.5 up to 1000 BPM it is 60,000,000 over the rounded BPM |
| Midi.TempoExamples | src/main.rs:14-21 | 120 BPM gives 500000 microseconds per quarter, 60 gives 1000000, 0.4 aborts |
| Midi.TempoMicros | src/main.rs:207-212 | the Set Tempo microseconds never exceed 60,000,000, the micros of a minute (when it aborts is stated by TempoZeroIffBelowHalf) |
| Schedule.GroupSnoc | src/main.rs:118 | filing one more message appends it to the list at its tick |
| Schedule.GroupIsFilter | src/main.rs:81 | the tick map holds exactly the ticks that have messages, each with its messages in filing order |
| Schedule.ChordEnd | src/main.rs:130-165 | the look-ahead consumes exactly the run of chord-and-pitch notes that follows, stopping at the first item that is not one |
| Schedule.ChordOnsKeys | src/main.rs:130-165 | the chord look-ahead aborts exactly when a chord note's key overflows; otherwise it keeps every chord note's key in order and files a NoteOn at the cursor for exactly the chord notes not tied with a stop |
| Schedule.ChordAbortPersists | src/main.rs:136-140 | once a chord note's key overflows, the whole chord aborts |
| Schedule.Releases | src/main.rs:182-193 | one NoteOff per chord key, all at the release tick, in order |
| Schedule.PlayCursor | src/main.rs:100-193 | a pitched primary note aborts exactly when it is chord-flagged or a key overflows; otherwise reading resumes after its chord notes, divisions stay, and the cursor advances by the note's own ticks (saturating) |
| Schedule.PlayAt | src/main.rs:100-193 | playing a pitched note moves reading forward, keeps the cursor within `usize`, and only appends to the log |
| Schedule.PlayFilesNote | src/main.rs:111-180 | a primary note not tied with a stop files its NoteOn at the cursor p and its NoteOff at p + its ticks |
| Schedule.PlayFilesChord | src/main.rs:130-193 | each chord note gets a NoteOff at the primary's release tick, whatever its own duration, and a NoteOn at p unless its own tie is a stop |
| Schedule.PlayFilesOnly | src/main.rs:100-193 | a played note files nothing else: only those NoteOns at p and NoteOffs at the release tick |
| Schedule.StepAt | src/main.rs:86-224 | one item keeps the cursor within `usize`, only appends to the log, and moves reading forward |
| Schedule.RunFrom | src/main.rs:83-225 | the scheduling loop only appends to the log |
| Schedule.Run | src/main.rs:72-225 | the whole scheduling loop from divisions 1 and tick 0 ends, if it does not abort, with the cursor within `usize` |
| Schedule.RunFromCursor | src/main.rs:83-225 | from any item on, a run that does not abort leaves the cursor within `usize` |
| Schedule.StepBalanced | src/main.rs:86-224 | one item never files a NoteOn whose key is not released: the NoteOn keys stay a sub-multiset of the NoteOff keys |
| Schedule.NoteOnsAreReleased | src/main.rs:72-225 | over a whole run, every NoteOn key has a matching NoteOff |
| Schedule.FileChord | src/main.rs:130-165 | the look-ahead loop leaves the map equal to the grouping of the log extended by the chord's NoteOns and returns the chord's end and keys, or aborts as `ChordOns` does |
| Schedule.Release | src/main.rs:182-193 | the release loop leaves the map equal to the grouping of the log extended by the NoteOffs |
| Schedule.PlayNote | src/main.rs:100-193 | the note branch leaves cursor and map as `PlayAt` says |
| Schedule.ScheduleItems | src/main.rs:72-225 | the scheduling loop returns the grouping of `Run`'s log, or its abort |
| Schedule.FourBeatsSchedule | src/main.rs:305-378 | the conversion test's measure files G4 at 0-480, the chord A4 D5 F5 at 480-960, G4 at 960-1440, and ends at 1920 after the rest |
| Encode.Wire28 | src/main.rs:235 | the delta written is below 2^28 and equals the gap when it fits |
| Encode.Stamp | src/main.rs:234-238 | the first message at a tick gets the delta, later ones 0, in order |
| Encode.EncodeFromMin | src/main.rs:230-239 | the walk takes the smallest tick first, with delta tick − previous tick |
| Encode.StampInto | src/main.rs:234-238 | the inner loop appends exactly `Stamp` |
| Encode.EncodeEvents | src/main.rs:227-239 | the outer loop over the map in ascending tick order builds exactly `Encoded` |
| Encode.DecodeEncode | src/main.rs:227-239 | summing deltas back into ticks and regrouping restores the map: ascending order and per-tick order are kept |
| Encode.DeltasSumToLastTick | src/main.rs:227-239 | the deltas sum to the largest tick holding an event |
| Encode.Convert | src/main.rs:68-247 | the method computes exactly `Converted`: an abort unless there is exactly one part, otherwise a single-track file at 480 ticks per quarter whose track encodes the schedule |
| Encode.ConvertedTrackDecodes | src/main.rs:68-247 | decoding the converted track gives, at every tick, exactly the messages the scheduler filed there, in filing order |
| Fields.Index | src/main.rs:634-636 | each field kind has its position in the declared order |
| Fields.FromXmlNames | src/main.rs:624-632 | every kind's kebab-case name reads back as that kind, and only those names are recognised |
| Fields.FromXml | src/main.rs:624-632 | `from_xml`: a recognised name is the kebab-case name of the kind it yields (that every kind is recognised is FromXmlNames) |
| Fields.Next | src/main.rs:590-595 | `next` is the following kind, or the last kind itself |
| Fields.Previous | src/main.rs:597-599 | `previous` is the kind before |
| Fields.AfterAcceptCursor | src/main.rs:683-716 | after accepting a kind the cursor is the next one, but after a credit it stays Credit and after a part it is PartList |
| Fields.FollowsIsAllowed | src/main.rs:605-607 | a kind may follow another exactly when `is_allowed` holds at the cursor the first leaves |
| Fields.IsAllowed | src/main.rs:605-607 | `is_allowed`: a kind is allowed at its own cursor, a part at every cursor, and nothing declared before the cursor |
| Fields.AcceptsIffOrdered | src/main.rs:676-728 | a sequence of kinds passes the check exactly when each neighbour pair is in order |
| Fields.AcceptsSnoc | src/main.rs:683-716 | accepting one more allowed kind keeps the sequence accepted and moves the cursor |
| Fields.OrderExamples | src/main.rs:683-716 | repeated credits and parts pass, a credit after part-list is refused, a part before part-list passes, a repeated work is refused |
| Fields.SummaryFlags | src/main.rs:689-703 | each of work, movement-number, movement-title, identification and defaults is recorded exactly when it occurs |
| Fields.SummaryCounts | src/main.rs:689-718 | the five optional flags are set exactly when their fields occur, and the counts are the numbers of credits and parts |
| Fields.FieldLoop | src/main.rs:676-728 | an accepted loop has seen an accepted sequence, records its summary and ends after the root's end tag |
| Fields.ScoreFieldsAt | src/main.rs:642-795 | an accepted document's kinds are in order and summarised |
| Fields.PartWithMeasureAsWritten | src/main.rs:711-716 | as written, a part's first child reaches the field loop: a part holding a measure is refused as an unknown field |
| Fields.ScoreFieldsAsWritten | src/main.rs:676-728 | the field-order check as written (the part's children read as fields): an accepted document's kinds are in order and summarised |
| Fields.EmptyPartAsWritten | src/main.rs:711-716 | as written, an empty part's end tag reaches the field loop and aborts |
| Fields.PartSkipped | src/main.rs:711-719 | with the part skipped, both documents are accepted with one part |
| Fields.RenderedDocuments | src/main.rs:642-795 | a document of empty field elements is accepted with its summary exactly when its kinds are in order; otherwise it is refused at the first kind out of order |
| Fields.ReadStart | src/main.rs:549-561 | `read_start` returns the first start tag's name and the cursor after it |
| Fields.ParseScoreFields | src/main.rs:642-795 | the loop agrees with `ScoreFieldsAt` (with the part's subtree skipped) |

## Left out

- `main`, file reading and writing, `env_logger`, `log::error!`, `dbg!` and
  `println!` (src/main.rs:23-36 and the logging calls): input and output only.
- The exploratory early-exit block (src/main.rs:39-66), which ends the process
  before the conversion.
- The serde `quick_xml::de::from_str` call (src/main.rs:68). The conversion
  starts from a `ScorePartwise` value, the one the parsers build.
- The XML tokeniser: escaping, byte spans, UTF-8 validation and the reader's
  configuration are not modelled. The reader is an abstract token list with
  empty elements already expanded. `read_text` returns the concatenated text
  tokens inside the element.
- End-tag names: a wrong end tag is modelled as the `assert_eq!` panic
  (`Panic(EndMismatch)`). A default quick_xml reader would already refuse it in
  `read_event` with an error that `?` propagates. The panic is therefore reached
  only through token lists such a reader refuses, or through the over-read at
  src/musicxml.rs:497.
- `note.duration.parse().unwrap()` (src/main.rs:101) is not modelled: the parsed
  note already holds its duration as a number.
- The checked attribute iterator is modelled only in how it treats a repeated
  name, which it drops. Its other errors (malformed attribute syntax) have no
  counterpart in the token model.
- The `midly` writer and binary header. A file is a value with a format, a
  timing and a list of tracks.
- Floating point: numbers are exact reals. ParseDecimal reads only plain decimal
  notation, without exponents, infinities or NaN.
- The test scaffolding: `MyEvent`, `ReadUtils`, and the `gen_state!`
  kebab-case generation, which is replaced by an explicit name table. These
  only support the field-order test.
- Multi-part handling. Only the assertion that there is exactly one part is
  modelled.
- Xml.Reader.constructor and Xml.Reader.Valid only set up the cursor; they carry
  no source behaviour.
- Elements.PitchAt, Elements.BackupAt, Elements.KeyAt, Elements.TimeAt,
  Elements.ClefAt, Elements.AttributesAt, Elements.DirectionAt, Score.MeasureAt,
  Score.PartAt, Score.ScoreAt and Notes.NoteAt: their own contracts state only
  where parsing ends. What they compute is stated by the Layout lemmas, for
  children laid out as text elements or as recognised blocks. An arbitrary
  nesting of unknown children is covered only through the skip.
- Layout.NoteFromChildren: covers notes whose children are all text elements
  other than pitch, tie, grace and cue. Those four are modelled in Notes.NoteAt
  and Notes.SkippedNoteAt, but are not part of the layout lemma.
- Schedule.StepAt: for attributes, rests, backups and directions, the contract
  states only the invariants. Their effect on the cursor and divisions is read
  from the function itself.

## Findings

| source | as written | input that shows it | evidently intended | confidence | as-written member | corrected member |
|---|---|---|---|---|---|---|
| src/musicxml.rs:497 | `handle_start(start)` dispatches the note's own start tag instead of the first child that the loop above just read | `<note><duration>4</duration></note>` inside a measure: the `note` start tag is dispatched to the catch-all and skipped with `read_to_end("note")`; the first child is lost, the end of the enclosing measure is taken for the note's end, and the name assertion fails | the first child is dispatched like every later child (`handle_start(&first)`), so the note parses with duration 4 | not executed | Notes.FirstChildLostAsWritten | Notes.NoteAt |
| src/main.rs:711-716 | after a `part`, the loop `continue`s without skipping the part's subtree | a part holding a measure is refused with an unknown field `measure`, and an empty part reaches the `todo!("Unexpected end")` | the part's subtree is skipped like every other field's, so one part is counted and parsing goes on after it | not executed | Fields.PartWithMeasureAsWritten | Fields.RenderedDocuments |
