/** The element parsers of src/musicxml.rs below the measure level: every one a
    loop that pulls events from the reader, dispatches on the child's name, skips
    the children it does not know, and stops at its own end tag. Each parser is a
    method over `Xml.Reader` proved against a spec function over the token list. */
module Elements {
  import opened Xml
  import opened Primitive

  datatype Print = Print
  datatype Barline = Barline
  datatype Chord = Chord
  datatype Backup = Backup(duration: real)
  datatype Sound = Sound(tempo: Option<real>)
  datatype Direction = Direction(sound: Option<Sound>)
  datatype Key = Key(fifths: string)
  datatype Time = Time(beats: string, beatType: string)
  datatype Clef = Clef(sign: ClefSign, line: Option<U8>)
  datatype Tie = Tie(kind: StartStop, timeOnly: Option<string>)
  datatype Rest = Rest(measure: bool)
  datatype Pitch = Pitch(step: Step, alter: Option<real>, octave: U8)
  datatype Attributes = Attributes(divisions: Option<real>, key: seq<Key>, time: seq<Time>, clef: seq<Clef>)

  // ================================================================ attribute loops

  /** The value of a local that starts as `init` and, for every attribute named
      `key` in order, is reassigned `decode(value)`. */
  function Assigned<T>(attrs: seq<Attr>, key: string, decode: string -> T, init: T): T {
    if attrs == [] then init
    else if attrs[|attrs| - 1].key == key then decode(attrs[|attrs| - 1].value)
    else Assigned(attrs[..|attrs| - 1], key, decode, init)
  }

  /** With no attribute named `key` the value stays `init`. */
  lemma {:induction false} AssignedAbsent<T>(attrs: seq<Attr>, key: string, decode: string -> T, init: T)
    requires forall i :: 0 <= i < |attrs| ==> attrs[i].key != key
    ensures Assigned(attrs, key, decode, init) == init
  {
    if attrs != [] {
      AssignedAbsent(attrs[..|attrs| - 1], key, decode, init);
    }
  }

  /** The last attribute named `key` decides the value. */
  lemma {:induction false} AssignedIsLast<T>(attrs: seq<Attr>, key: string, decode: string -> T, init: T, i: nat)
    requires i < |attrs| && attrs[i].key == key
    requires forall j :: i < j < |attrs| ==> attrs[j].key != key
    ensures Assigned(attrs, key, decode, init) == decode(attrs[i].value)
  {
    if i < |attrs| - 1 {
      AssignedIsLast(attrs[..|attrs| - 1], key, decode, init, i);
    }
  }

  /** The names of a list of attributes. */
  function Keys(attrs: seq<Attr>): set<string> {
    if attrs == [] then {} else Keys(attrs[..|attrs| - 1]) + {attrs[|attrs| - 1].key}
  }

  /** `attributes().filter_map(|r| r.ok())`: the checked attribute iterator
      reports a repeated name as an error, which the filter drops, so only the
      first attribute of each name is seen. */
  function Checked(attrs: seq<Attr>): seq<Attr> {
    if attrs == [] then []
    else
      var init, last := attrs[..|attrs| - 1], attrs[|attrs| - 1];
      if last.key in Keys(init) then Checked(init) else Checked(init) + [last]
  }

  lemma {:induction false} KeysHas(attrs: seq<Attr>, j: nat)
    requires j < |attrs|
    ensures attrs[j].key in Keys(attrs)
  {
    if j < |attrs| - 1 {
      KeysHas(attrs[..|attrs| - 1], j);
    }
  }

  lemma {:induction false} KeysLack(attrs: seq<Attr>, key: string)
    requires forall j :: 0 <= j < |attrs| ==> attrs[j].key != key
    ensures key !in Keys(attrs)
  {
    if attrs != [] {
      KeysLack(attrs[..|attrs| - 1], key);
    }
  }

  /** Through the checked iterator, the FIRST attribute named `key` decides the
      value: a repeat of the name is never assigned. */
  lemma {:induction false} AssignedIsFirst<T>(attrs: seq<Attr>, key: string, decode: string -> T, init: T, i: nat)
    requires i < |attrs| && attrs[i].key == key
    requires forall j :: 0 <= j < i ==> attrs[j].key != key
    ensures Assigned(Checked(attrs), key, decode, init) == decode(attrs[i].value)
  {
    var front, last := attrs[..|attrs| - 1], attrs[|attrs| - 1];
    var c := Checked(front);
    assert (c + [last])[..|c|] == c;
    if i == |attrs| - 1 {
      assert forall j :: 0 <= j < |front| ==> front[j].key != key by {
        assert forall j :: 0 <= j < |front| ==> front[j] == attrs[j];
      }
      KeysLack(front, key);
      assert Checked(attrs) == c + [last];
    } else {
      assert forall j :: 0 <= j < i ==> front[j] == attrs[j];
      AssignedIsFirst(front, key, decode, init, i);
      if last.key == key {
        KeysHas(front, i);
        assert Checked(attrs) == c;
      }
    }
  }

  /** Through the checked iterator, with no attribute named `key` the value stays `init`. */
  lemma {:induction false} CheckedAbsent<T>(attrs: seq<Attr>, key: string, decode: string -> T, init: T)
    requires forall j :: 0 <= j < |attrs| ==> attrs[j].key != key
    ensures Assigned(Checked(attrs), key, decode, init) == init
  {
    KeysLack(attrs, key);
    CheckedLacks(attrs, key);
    KeysOnly(Checked(attrs), key);
    AssignedAbsent(Checked(attrs), key, decode, init);
  }

  /** Dropping repeats removes no name. */
  lemma {:induction false} CheckedLacks(attrs: seq<Attr>, key: string)
    requires key !in Keys(attrs)
    ensures key !in Keys(Checked(attrs))
  {
    if attrs != [] {
      CheckedLacks(attrs[..|attrs| - 1], key);
    }
  }

  lemma {:induction false} KeysOnly(attrs: seq<Attr>, key: string)
    requires key !in Keys(attrs)
    ensures forall j :: 0 <= j < |attrs| ==> attrs[j].key != key
  {
    if attrs != [] {
      KeysOnly(attrs[..|attrs| - 1], key);
    }
  }

  function SomeText(s: string): Option<string> {
    Some(s)
  }

  // ================================================================ text readers

  /** read_text_as::<f64>: a missing text or a failed conversion reads as absent. */
  function ReadDecimalAt(toks: seq<Token>, pos: nat, name: string): (r: (Option<real>, nat))
    requires pos <= |toks|
    ensures pos <= r.1 <= |toks|
  {
    var (t, n) := ReadTextAt(toks, pos, name);
    (if t.Some? then ParseDecimal(t.value) else None, n)
  }

  function ReadU8At(toks: seq<Token>, pos: nat, name: string): (r: (Option<U8>, nat))
    requires pos <= |toks|
    ensures pos <= r.1 <= |toks|
  {
    var (t, n) := ReadTextAt(toks, pos, name);
    (if t.Some? then ParseU8(t.value) else None, n)
  }

  function ReadSignAt(toks: seq<Token>, pos: nat, name: string): (r: (Option<ClefSign>, nat))
    requires pos <= |toks|
    ensures pos <= r.1 <= |toks|
  {
    var (t, n) := ReadTextAt(toks, pos, name);
    (if t.Some? then SignFromText(t.value) else None, n)
  }

  /** Step::parse: the text (empty when it cannot be read) as a step letter. */
  function ReadStepAt(toks: seq<Token>, pos: nat, name: string): (r: (Option<Step>, nat))
    requires pos <= |toks|
    ensures pos <= r.1 <= |toks|
  {
    var (t, n) := ReadTextAt(toks, pos, name);
    (StepFromText(t.GetOr("")), n)
  }

  method ReadDecimal(r: Reader, name: string) returns (v: Option<real>)
    requires r.Valid()
    modifies r
    ensures r.Valid() && (v, r.pos) == ReadDecimalAt(r.toks, old(r.pos), name)
  {
    var t := r.ReadText(name);
    v := if t.Some? then ParseDecimal(t.value) else None;
  }

  method ReadU8(r: Reader, name: string) returns (v: Option<U8>)
    requires r.Valid()
    modifies r
    ensures r.Valid() && (v, r.pos) == ReadU8At(r.toks, old(r.pos), name)
  {
    var t := r.ReadText(name);
    v := if t.Some? then ParseU8(t.value) else None;
  }

  method ReadSign(r: Reader, name: string) returns (v: Option<ClefSign>)
    requires r.Valid()
    modifies r
    ensures r.Valid() && (v, r.pos) == ReadSignAt(r.toks, old(r.pos), name)
  {
    var t := r.ReadText(name);
    v := if t.Some? then SignFromText(t.value) else None;
  }

  method ReadStep(r: Reader, name: string) returns (v: Option<Step>)
    requires r.Valid()
    modifies r
    ensures r.Valid() && (v, r.pos) == ReadStepAt(r.toks, old(r.pos), name)
  {
    var t := r.ReadText(name);
    v := StepFromText(t.GetOr(""));
  }

  // ================================================================ skipped wholesale

  /** Print::parse and Barline::parse: skip the element; end of input aborts. */
  function SkipElementAt(toks: seq<Token>, pos: nat, name: string): (r: Parsed<()>)
    requires pos <= |toks|
    ensures r.Done? ==> pos < r.next <= |toks| && toks[r.next - 1] == End(name)
    ensures r.Fail? ==> r.error == Panic(SkipEof(name))
  {
    match Skip(toks, pos, name)
    case None => Fail(Panic(SkipEof(name)))
    case Some(n) => Done((), n)
  }

  method ParsePrint(r: Reader, name: string) returns (res: Result<Print>)
    requires r.Valid()
    modifies r
    ensures r.Valid() && old(r.pos) <= r.pos
    ensures Agrees(res, r.pos, PrintAt(r.toks, old(r.pos), name))
  {
    var ok := r.ReadToEnd(name);
    if !ok {
      return Err(Panic(SkipEof(name)));
    }
    return Ok(Print);
  }

  function PrintAt(toks: seq<Token>, pos: nat, name: string): (r: Parsed<Print>)
    requires pos <= |toks|
    ensures r.Done? ==> pos < r.next <= |toks| && toks[r.next - 1] == End(name)
    ensures r.Fail? ==> r.error == Panic(SkipEof(name))
  {
    match SkipElementAt(toks, pos, name)
    case Fail(e) => Fail(e)
    case Done(_, n) => Done(Print, n)
  }

  function BarlineAt(toks: seq<Token>, pos: nat, name: string): (r: Parsed<Barline>)
    requires pos <= |toks|
    ensures r.Done? ==> pos < r.next <= |toks| && toks[r.next - 1] == End(name)
    ensures r.Fail? ==> r.error == Panic(SkipEof(name))
  {
    match SkipElementAt(toks, pos, name)
    case Fail(e) => Fail(e)
    case Done(_, n) => Done(Barline, n)
  }

  method ParseBarline(r: Reader, name: string) returns (res: Result<Barline>)
    requires r.Valid()
    modifies r
    ensures r.Valid() && old(r.pos) <= r.pos
    ensures Agrees(res, r.pos, BarlineAt(r.toks, old(r.pos), name))
  {
    var ok := r.ReadToEnd(name);
    if !ok {
      return Err(Panic(SkipEof(name)));
    }
    return Ok(Barline);
  }

  /** Chord::parse: like the above, but the token source's error is propagated. */
  function ChordAt(toks: seq<Token>, pos: nat, name: string): (r: Parsed<Chord>)
    requires pos <= |toks|
    ensures r.Done? ==> pos < r.next <= |toks| && toks[r.next - 1] == End(name)
    ensures r.Fail? ==> r.error == MissedEnd(name)
  {
    match Skip(toks, pos, name)
    case None => Fail(MissedEnd(name))
    case Some(n) => Done(Chord, n)
  }

  method ParseChord(r: Reader, name: string) returns (res: Result<Chord>)
    requires r.Valid()
    modifies r
    ensures r.Valid() && old(r.pos) <= r.pos
    ensures Agrees(res, r.pos, ChordAt(r.toks, old(r.pos), name))
  {
    var ok := r.ReadToEnd(name);
    if !ok {
      return Err(MissedEnd(name));
    }
    return Ok(Chord);
  }

  // ================================================================ attribute-only elements

  function SoundOf(attrs: seq<Attr>): Sound {
    Sound(Assigned(Checked(attrs), "tempo", ParseDecimal, None))
  }

  /** Sound::parse: the tempo comes from the `tempo` attribute only; the subtree is skipped. */
  function SoundAt(toks: seq<Token>, pos: nat, name: string, attrs: seq<Attr>): (r: Parsed<Sound>)
    requires pos <= |toks|
    ensures r.Done? ==> pos < r.next <= |toks| && toks[r.next - 1] == End(name)
    ensures r.Done? ==> r.value == SoundOf(attrs)
    ensures r.Fail? ==> r.error == Panic(SkipEof(name))
  {
    match SkipElementAt(toks, pos, name)
    case Fail(e) => Fail(e)
    case Done(_, n) => Done(SoundOf(attrs), n)
  }

  method ParseSound(r: Reader, name: string, attrs: seq<Attr>) returns (res: Result<Sound>)
    requires r.Valid()
    modifies r
    ensures r.Valid() && old(r.pos) <= r.pos
    ensures Agrees(res, r.pos, SoundAt(r.toks, old(r.pos), name, attrs))
  {
    var tempo: Option<real> := None;
    var seen: set<string> := {};
    for i := 0 to |attrs|
      invariant seen == Keys(attrs[..i])
      invariant tempo == Assigned(Checked(attrs[..i]), "tempo", ParseDecimal, None)
    {
      assert attrs[..i + 1][..i] == attrs[..i];
      if attrs[i].key !in seen && attrs[i].key == "tempo" {
        tempo := ParseDecimal(attrs[i].value);
      }
      seen := seen + {attrs[i].key};
    }
    assert attrs[..|attrs|] == attrs;
    var ok := r.ReadToEnd(name);
    if !ok {
      return Err(Panic(SkipEof(name)));
    }
    return Ok(Sound(tempo));
  }

  /** Tie::parse: kind from `type`, time-only from `time-only`; a missing or
      invalid kind aborts, after the subtree has been skipped. */
  function TieAt(toks: seq<Token>, pos: nat, name: string, attrs: seq<Attr>): (r: Parsed<Tie>)
    requires pos <= |toks|
    ensures r.Done? ==> pos < r.next <= |toks| && toks[r.next - 1] == End(name)
    ensures r.Done? ==> Some(r.value.kind) == Assigned(Checked(attrs), "type", ParseStartStop, None)
    ensures r.Fail? ==> r.error in {Panic(SkipEof(name)), Panic(MissingTieKind)}
  {
    var kind := Assigned(Checked(attrs), "type", ParseStartStop, None);
    var timeOnly := Assigned(Checked(attrs), "time-only", SomeText, None);
    match SkipElementAt(toks, pos, name)
    case Fail(e) => Fail(e)
    case Done(_, n) =>
      if kind.None? then Fail(Panic(MissingTieKind)) else Done(Tie(kind.value, timeOnly), n)
  }

  method ParseTie(r: Reader, name: string, attrs: seq<Attr>) returns (res: Result<Tie>)
    requires r.Valid()
    modifies r
    ensures r.Valid() && old(r.pos) <= r.pos
    ensures Agrees(res, r.pos, TieAt(r.toks, old(r.pos), name, attrs))
  {
    var kind: Option<StartStop> := None;
    var timeOnly: Option<string> := None;
    var seen: set<string> := {};
    for i := 0 to |attrs|
      invariant seen == Keys(attrs[..i])
      invariant kind == Assigned(Checked(attrs[..i]), "type", ParseStartStop, None)
      invariant timeOnly == Assigned(Checked(attrs[..i]), "time-only", SomeText, None)
    {
      assert attrs[..i + 1][..i] == attrs[..i];
      if attrs[i].key in seen {
      } else if attrs[i].key == "type" {
        kind := ParseStartStop(attrs[i].value);
      } else if attrs[i].key == "time-only" {
        timeOnly := SomeText(attrs[i].value);
      }
      seen := seen + {attrs[i].key};
    }
    assert attrs[..|attrs|] == attrs;
    var ok := r.ReadToEnd(name);
    if !ok {
      return Err(Panic(SkipEof(name)));
    }
    if kind.None? {
      return Err(Panic(MissingTieKind));
    }
    return Ok(Tie(kind.value, timeOnly));
  }

  /** Rest::parse: whole-measure flag from the `measure` attribute (yes/no). */
  function RestAt(toks: seq<Token>, pos: nat, name: string, attrs: seq<Attr>): (r: Parsed<Rest>)
    requires pos <= |toks|
    ensures r.Done? ==> pos < r.next <= |toks| && toks[r.next - 1] == End(name)
    ensures r.Done? ==> r.value.measure == Assigned(Checked(attrs), "measure", ParseYesNo, false)
    ensures r.Fail? ==> r.error == Panic(SkipEof(name))
  {
    match SkipElementAt(toks, pos, name)
    case Fail(e) => Fail(e)
    case Done(_, n) => Done(Rest(Assigned(Checked(attrs), "measure", ParseYesNo, false)), n)
  }

  /** A repeated attribute name keeps its first value: `type="start" type="stop"`
      is a start, `tempo="60" tempo="120"` is 60. */
  lemma RepeatedAttributeKeepsFirst()
    ensures Assigned(Checked([Attr("type", "start"), Attr("type", "stop")]), "type", ParseStartStop, None)
            == Some(StartStop.Start)
    ensures SoundOf([Attr("tempo", "60"), Attr("tempo", "120")]).tempo == Some(60.0)
  {
    AssignedIsFirst([Attr("type", "start"), Attr("type", "stop")], "type", ParseStartStop, None, 0);
    AssignedIsFirst([Attr("tempo", "60"), Attr("tempo", "120")], "tempo", ParseDecimal, None, 0);
    NatStringParses(60);
    assert NatString(60) == "60";
  }

  method ParseRest(r: Reader, name: string, attrs: seq<Attr>) returns (res: Result<Rest>)
    requires r.Valid()
    modifies r
    ensures r.Valid() && old(r.pos) <= r.pos
    ensures Agrees(res, r.pos, RestAt(r.toks, old(r.pos), name, attrs))
  {
    var measure := false;
    var seen: set<string> := {};
    for i := 0 to |attrs|
      invariant seen == Keys(attrs[..i])
      invariant measure == Assigned(Checked(attrs[..i]), "measure", ParseYesNo, false)
    {
      assert attrs[..i + 1][..i] == attrs[..i];
      if attrs[i].key !in seen && attrs[i].key == "measure" {
        measure := ParseYesNo(attrs[i].value);
      }
      seen := seen + {attrs[i].key};
    }
    assert attrs[..|attrs|] == attrs;
    var ok := r.ReadToEnd(name);
    if !ok {
      return Err(Panic(SkipEof(name)));
    }
    return Ok(Rest(measure));
  }

  // ================================================================ pitch

  /** The children of `pitch` read so far. */
  datatype PitchParts = PitchParts(step: Option<Step>, alter: Option<real>, octave: Option<U8>)

  /** One child of `pitch`, read from just after its start tag. */
  function PitchChild(toks: seq<Token>, pos: nat, n: string, acc: PitchParts): (r: Parsed<PitchParts>)
    requires pos <= |toks|
    ensures r.Done? ==> pos <= r.next <= |toks|
  {
    if n == "step" then
      var (v, next) := ReadStepAt(toks, pos, n);
      Done(acc.(step := v), next)
    else if n == "alter" then
      var (v, next) := ReadDecimalAt(toks, pos, n);
      Done(acc.(alter := v), next)
    else if n == "octave" then
      var (v, next) := ReadU8At(toks, pos, n);
      Done(acc.(octave := v), next)
    else
      (match Skip(toks, pos, n)
      case None => Fail(Panic(SkipEof(n)))
      case Some(next) => Done(acc, next))
  }

  function PitchLoop(toks: seq<Token>, pos: nat, name: string, acc: PitchParts): (r: Parsed<Pitch>)
    requires pos <= |toks|
    ensures r.Done? ==> pos < r.next <= |toks| && toks[r.next - 1] == End(name)
    decreases |toks| - pos
  {
    if pos == |toks| then Fail(UnexpectedEof)
    else match toks[pos]
      case Start(n, _) =>
        (match PitchChild(toks, pos + 1, n, acc)
        case Fail(e) => Fail(e)
        case Done(a, next) => PitchLoop(toks, next, name, a))
      case End(n) =>
        if n != name then Fail(Panic(EndMismatch(name, n)))
        else if acc.step.None? then Fail(Panic(MissingStep))
        else if acc.octave.None? then Fail(Panic(MissingOctave))
        else Done(Pitch(acc.step.value, acc.alter, acc.octave.value), pos + 1)
      case _ => PitchLoop(toks, pos + 1, name, acc)
  }

  /** Pitch::parse: step and octave are required (their absence aborts), alter is optional. */
  function PitchAt(toks: seq<Token>, pos: nat, name: string): (r: Parsed<Pitch>)
    requires pos <= |toks|
    ensures r.Done? ==> pos < r.next <= |toks| && toks[r.next - 1] == End(name)
  {
    PitchLoop(toks, pos, name, PitchParts(None, None, None))
  }

  method ParsePitch(r: Reader, name: string) returns (res: Result<Pitch>)
    requires r.Valid()
    modifies r
    ensures r.Valid() && old(r.pos) <= r.pos
    ensures Agrees(res, r.pos, PitchAt(r.toks, old(r.pos), name))
  {
    var step: Option<Step> := None;
    var alter: Option<real> := None;
    var octave: Option<U8> := None;
    while true
      invariant r.Valid() && old(r.pos) <= r.pos
      invariant PitchLoop(r.toks, r.pos, name, PitchParts(step, alter, octave)) == PitchAt(r.toks, old(r.pos), name)
      decreases |r.toks| - r.pos
    {
      var e := r.ReadEvent();
      match e {
        case None =>
          return Err(UnexpectedEof);
        case Some(Start(n, _)) =>
          if n == "step" {
            step := ReadStep(r, n);
          } else if n == "alter" {
            alter := ReadDecimal(r, n);
          } else if n == "octave" {
            octave := ReadU8(r, n);
          } else {
            var ok := r.ReadToEnd(n);
            if !ok {
              return Err(Panic(SkipEof(n)));
            }
          }
        case Some(End(n)) =>
          if n != name {
            return Err(Panic(EndMismatch(name, n)));
          }
          if step.None? {
            return Err(Panic(MissingStep));
          }
          if octave.None? {
            return Err(Panic(MissingOctave));
          }
          return Ok(Pitch(step.value, alter, octave.value));
        case Some(_) =>
      }
    }
  }

  // ================================================================ backup

  /** One child of `backup`, read from just after its start tag: the duration
      read so far. */
  function BackupChild(toks: seq<Token>, pos: nat, n: string, duration: Option<real>): (r: Parsed<Option<real>>)
    requires pos <= |toks|
    ensures r.Done? ==> pos <= r.next <= |toks|
  {
    if n == "duration" then
      var (v, next) := ReadDecimalAt(toks, pos, n);
      Done(v, next)
    else
      (match Skip(toks, pos, n)
      case None => Fail(Panic(SkipEof(n)))
      case Some(next) => Done(duration, next))
  }

  function BackupLoop(toks: seq<Token>, pos: nat, name: string, duration: Option<real>): (r: Parsed<Backup>)
    requires pos <= |toks|
    ensures r.Done? ==> pos < r.next <= |toks| && toks[r.next - 1] == End(name)
    decreases |toks| - pos
  {
    if pos == |toks| then Fail(UnexpectedEof)
    else match toks[pos]
      case Start(n, _) =>
        (match BackupChild(toks, pos + 1, n, duration)
        case Fail(e) => Fail(e)
        case Done(d, next) => BackupLoop(toks, next, name, d))
      case End(n) =>
        if n != name then Fail(Panic(EndMismatch(name, n)))
        else if duration.None? then Fail(MissingTag("duration"))
        else Done(Backup(duration.value), pos + 1)
      case _ => BackupLoop(toks, pos + 1, name, duration)
  }

  /** Backup::parse: a duration child is required. */
  function BackupAt(toks: seq<Token>, pos: nat, name: string): (r: Parsed<Backup>)
    requires pos <= |toks|
    ensures r.Done? ==> pos < r.next <= |toks| && toks[r.next - 1] == End(name)
  {
    BackupLoop(toks, pos, name, None)
  }

  method ParseBackup(r: Reader, name: string) returns (res: Result<Backup>)
    requires r.Valid()
    modifies r
    ensures r.Valid() && old(r.pos) <= r.pos
    ensures Agrees(res, r.pos, BackupAt(r.toks, old(r.pos), name))
  {
    var duration: Option<real> := None;
    while true
      invariant r.Valid() && old(r.pos) <= r.pos
      invariant BackupLoop(r.toks, r.pos, name, duration) == BackupAt(r.toks, old(r.pos), name)
      decreases |r.toks| - r.pos
    {
      var e := r.ReadEvent();
      match e {
        case None =>
          return Err(UnexpectedEof);
        case Some(Start(n, _)) =>
          if n == "duration" {
            duration := ReadDecimal(r, n);
          } else {
            var ok := r.ReadToEnd(n);
            if !ok {
              return Err(Panic(SkipEof(n)));
            }
          }
        case Some(End(n)) =>
          if n != name {
            return Err(Panic(EndMismatch(name, n)));
          }
          if duration.None? {
            return Err(MissingTag("duration"));
          }
          return Ok(Backup(duration.value));
        case Some(_) =>
      }
    }
  }

  // ================================================================ direction

  function DirectionLoop(toks: seq<Token>, pos: nat, name: string, sound: Option<Sound>): (r: Parsed<Direction>)
    requires pos <= |toks|
    ensures r.Done? ==> pos < r.next <= |toks| && toks[r.next - 1] == End(name)
    decreases |toks| - pos
  {
    if pos == |toks| then Fail(UnexpectedEof)
    else match toks[pos]
      case Start(n, attrs) =>
        if n == "sound" then
          (match SoundAt(toks, pos + 1, n, attrs)
          case Fail(e) => Fail(e)
          case Done(s, next) => DirectionLoop(toks, next, name, Some(s)))
        else
          (match Skip(toks, pos + 1, n)
          case None => Fail(Panic(SkipEof(n)))
          case Some(next) => DirectionLoop(toks, next, name, sound))
      case End(n) =>
        if n != name then Fail(Panic(EndMismatch(name, n)))
        else Done(Direction(sound), pos + 1)
      case _ => DirectionLoop(toks, pos + 1, name, sound)
  }

  /** Direction::parse: the last sound child, if any. */
  function DirectionAt(toks: seq<Token>, pos: nat, name: string): (r: Parsed<Direction>)
    requires pos <= |toks|
    ensures r.Done? ==> pos < r.next <= |toks| && toks[r.next - 1] == End(name)
  {
    DirectionLoop(toks, pos, name, None)
  }

  method ParseDirection(r: Reader, name: string) returns (res: Result<Direction>)
    requires r.Valid()
    modifies r
    ensures r.Valid() && old(r.pos) <= r.pos
    ensures Agrees(res, r.pos, DirectionAt(r.toks, old(r.pos), name))
  {
    var sound: Option<Sound> := None;
    while true
      invariant r.Valid() && old(r.pos) <= r.pos
      invariant DirectionLoop(r.toks, r.pos, name, sound) == DirectionAt(r.toks, old(r.pos), name)
      decreases |r.toks| - r.pos
    {
      var e := r.ReadEvent();
      match e {
        case None =>
          return Err(UnexpectedEof);
        case Some(Start(n, attrs)) =>
          if n == "sound" {
            var s := ParseSound(r, n, attrs);
            if s.Err? {
              return Err(s.error);
            }
            sound := Some(s.value);
          } else {
            var ok := r.ReadToEnd(n);
            if !ok {
              return Err(Panic(SkipEof(n)));
            }
          }
        case Some(End(n)) =>
          if n != name {
            return Err(Panic(EndMismatch(name, n)));
          }
          return Ok(Direction(sound));
        case Some(_) =>
      }
    }
  }

  // ================================================================ key

  /** One child of `key`, read from just after its start tag: the fifths read
      so far. */
  function KeyChild(toks: seq<Token>, pos: nat, n: string, fifths: Option<string>): (r: Parsed<Option<string>>)
    requires pos <= |toks|
    ensures r.Done? ==> pos <= r.next <= |toks|
  {
    if n == "fifths" then
      var (v, next) := ReadTextAt(toks, pos, n);
      Done(v, next)
    else
      (match Skip(toks, pos, n)
      case None => Fail(Panic(SkipEof(n)))
      case Some(next) => Done(fifths, next))
  }

  function KeyLoop(toks: seq<Token>, pos: nat, name: string, fifths: Option<string>): (r: Parsed<Key>)
    requires pos <= |toks|
    ensures r.Done? ==> pos < r.next <= |toks| && toks[r.next - 1] == End(name)
    decreases |toks| - pos
  {
    if pos == |toks| then Fail(UnexpectedEof)
    else match toks[pos]
      case Start(n, _) =>
        (match KeyChild(toks, pos + 1, n, fifths)
        case Fail(e) => Fail(e)
        case Done(f, next) => KeyLoop(toks, next, name, f))
      case End(n) =>
        if n != name then Fail(Panic(EndMismatch(name, n)))
        else if fifths.None? then Fail(MissingTag("fifths"))
        else Done(Key(fifths.value), pos + 1)
      case _ => KeyLoop(toks, pos + 1, name, fifths)
  }

  /** Key::parse: a fifths child is required. */
  function KeyAt(toks: seq<Token>, pos: nat, name: string): (r: Parsed<Key>)
    requires pos <= |toks|
    ensures r.Done? ==> pos < r.next <= |toks| && toks[r.next - 1] == End(name)
  {
    KeyLoop(toks, pos, name, None)
  }

  method ParseKey(r: Reader, name: string) returns (res: Result<Key>)
    requires r.Valid()
    modifies r
    ensures r.Valid() && old(r.pos) <= r.pos
    ensures Agrees(res, r.pos, KeyAt(r.toks, old(r.pos), name))
  {
    var fifths: Option<string> := None;
    while true
      invariant r.Valid() && old(r.pos) <= r.pos
      invariant KeyLoop(r.toks, r.pos, name, fifths) == KeyAt(r.toks, old(r.pos), name)
      decreases |r.toks| - r.pos
    {
      var e := r.ReadEvent();
      match e {
        case None =>
          return Err(UnexpectedEof);
        case Some(Start(n, _)) =>
          if n == "fifths" {
            fifths := r.ReadText(n);
          } else {
            var ok := r.ReadToEnd(n);
            if !ok {
              return Err(Panic(SkipEof(n)));
            }
          }
        case Some(End(n)) =>
          if n != name {
            return Err(Panic(EndMismatch(name, n)));
          }
          if fifths.None? {
            return Err(MissingTag("fifths"));
          }
          return Ok(Key(fifths.value));
        case Some(_) =>
      }
    }
  }

  // ================================================================ time

  /** The children of `time` read so far. */
  datatype TimeParts = TimeParts(beats: Option<string>, beatType: Option<string>)

  /** One child of `time`, read from just after its start tag. */
  function TimeChild(toks: seq<Token>, pos: nat, n: string, acc: TimeParts): (r: Parsed<TimeParts>)
    requires pos <= |toks|
    ensures r.Done? ==> pos <= r.next <= |toks|
  {
    if n == "beats" then
      var (v, next) := ReadTextAt(toks, pos, n);
      Done(acc.(beats := v), next)
    else if n == "beat-type" then
      var (v, next) := ReadTextAt(toks, pos, n);
      Done(acc.(beatType := v), next)
    else
      (match Skip(toks, pos, n)
      case None => Fail(Panic(SkipEof(n)))
      case Some(next) => Done(acc, next))
  }

  function TimeLoop(toks: seq<Token>, pos: nat, name: string, acc: TimeParts): (r: Parsed<Time>)
    requires pos <= |toks|
    ensures r.Done? ==> pos < r.next <= |toks| && toks[r.next - 1] == End(name)
    decreases |toks| - pos
  {
    if pos == |toks| then Fail(UnexpectedEof)
    else match toks[pos]
      case Start(n, _) =>
        (match TimeChild(toks, pos + 1, n, acc)
        case Fail(e) => Fail(e)
        case Done(a, next) => TimeLoop(toks, next, name, a))
      case End(n) =>
        if n != name then Fail(Panic(EndMismatch(name, n)))
        else if acc.beats.None? then Fail(Panic(MissingBeats))
        else if acc.beatType.None? then Fail(Panic(MissingBeatType))
        else Done(Time(acc.beats.value, acc.beatType.value), pos + 1)
      case _ => TimeLoop(toks, pos + 1, name, acc)
  }

  /** Time::parse: beats and beat-type are required (their absence aborts). */
  function TimeAt(toks: seq<Token>, pos: nat, name: string): (r: Parsed<Time>)
    requires pos <= |toks|
    ensures r.Done? ==> pos < r.next <= |toks| && toks[r.next - 1] == End(name)
  {
    TimeLoop(toks, pos, name, TimeParts(None, None))
  }

  method ParseTime(r: Reader, name: string) returns (res: Result<Time>)
    requires r.Valid()
    modifies r
    ensures r.Valid() && old(r.pos) <= r.pos
    ensures Agrees(res, r.pos, TimeAt(r.toks, old(r.pos), name))
  {
    var beats: Option<string> := None;
    var beatType: Option<string> := None;
    while true
      invariant r.Valid() && old(r.pos) <= r.pos
      invariant TimeLoop(r.toks, r.pos, name, TimeParts(beats, beatType)) == TimeAt(r.toks, old(r.pos), name)
      decreases |r.toks| - r.pos
    {
      var e := r.ReadEvent();
      match e {
        case None =>
          return Err(UnexpectedEof);
        case Some(Start(n, _)) =>
          if n == "beats" {
            beats := r.ReadText(n);
          } else if n == "beat-type" {
            beatType := r.ReadText(n);
          } else {
            var ok := r.ReadToEnd(n);
            if !ok {
              return Err(Panic(SkipEof(n)));
            }
          }
        case Some(End(n)) =>
          if n != name {
            return Err(Panic(EndMismatch(name, n)));
          }
          if beats.None? {
            return Err(Panic(MissingBeats));
          }
          if beatType.None? {
            return Err(Panic(MissingBeatType));
          }
          return Ok(Time(beats.value, beatType.value));
        case Some(_) =>
      }
    }
  }

  // ================================================================ clef

  /** The children of `clef` read so far. */
  datatype ClefParts = ClefParts(sign: Option<ClefSign>, line: Option<U8>)

  /** One child of `clef`, read from just after its start tag. */
  function ClefChild(toks: seq<Token>, pos: nat, n: string, acc: ClefParts): (r: Parsed<ClefParts>)
    requires pos <= |toks|
    ensures r.Done? ==> pos <= r.next <= |toks|
  {
    if n == "sign" then
      var (v, next) := ReadSignAt(toks, pos, n);
      Done(acc.(sign := v), next)
    else if n == "line" then
      var (v, next) := ReadU8At(toks, pos, n);
      Done(acc.(line := v), next)
    else
      (match Skip(toks, pos, n)
      case None => Fail(Panic(SkipEof(n)))
      case Some(next) => Done(acc, next))
  }

  function ClefLoop(toks: seq<Token>, pos: nat, name: string, acc: ClefParts): (r: Parsed<Clef>)
    requires pos <= |toks|
    ensures r.Done? ==> pos < r.next <= |toks| && toks[r.next - 1] == End(name)
    decreases |toks| - pos
  {
    if pos == |toks| then Fail(UnexpectedEof)
    else match toks[pos]
      case Start(n, _) =>
        (match ClefChild(toks, pos + 1, n, acc)
        case Fail(e) => Fail(e)
        case Done(a, next) => ClefLoop(toks, next, name, a))
      case End(n) =>
        if n != name then Fail(Panic(EndMismatch(name, n)))
        else if acc.sign.None? then Fail(Panic(MissingSign))
        else Done(Clef(acc.sign.value, acc.line), pos + 1)
      case _ => ClefLoop(toks, pos + 1, name, acc)
  }

  /** Clef::parse: a valid sign is required (its absence aborts), line is optional. */
  function ClefAt(toks: seq<Token>, pos: nat, name: string): (r: Parsed<Clef>)
    requires pos <= |toks|
    ensures r.Done? ==> pos < r.next <= |toks| && toks[r.next - 1] == End(name)
  {
    ClefLoop(toks, pos, name, ClefParts(None, None))
  }

  method ParseClef(r: Reader, name: string) returns (res: Result<Clef>)
    requires r.Valid()
    modifies r
    ensures r.Valid() && old(r.pos) <= r.pos
    ensures Agrees(res, r.pos, ClefAt(r.toks, old(r.pos), name))
  {
    var sign: Option<ClefSign> := None;
    var line: Option<U8> := None;
    while true
      invariant r.Valid() && old(r.pos) <= r.pos
      invariant ClefLoop(r.toks, r.pos, name, ClefParts(sign, line)) == ClefAt(r.toks, old(r.pos), name)
      decreases |r.toks| - r.pos
    {
      var e := r.ReadEvent();
      match e {
        case None =>
          return Err(UnexpectedEof);
        case Some(Start(n, _)) =>
          if n == "sign" {
            sign := ReadSign(r, n);
          } else if n == "line" {
            line := ReadU8(r, n);
          } else {
            var ok := r.ReadToEnd(n);
            if !ok {
              return Err(Panic(SkipEof(n)));
            }
          }
        case Some(End(n)) =>
          if n != name {
            return Err(Panic(EndMismatch(name, n)));
          }
          if sign.None? {
            return Err(Panic(MissingSign));
          }
          return Ok(Clef(sign.value, line));
        case Some(_) =>
      }
    }
  }

  // ================================================================ attributes

  /** One child of `attributes`, read from just after its start tag: the
      accumulated attributes it leaves behind and the position after it. */
  function AttributesChild(toks: seq<Token>, pos: nat, n: string, acc: Attributes): (r: Parsed<Attributes>)
    requires pos <= |toks|
    ensures r.Done? ==> pos <= r.next <= |toks|
  {
    if n == "divisions" then
      var (v, next) := ReadDecimalAt(toks, pos, n);
      Done(acc.(divisions := v), next)
    else if n == "key" then
      (match KeyAt(toks, pos, n)
      case Fail(e) => Fail(e)
      case Done(k, next) => Done(acc.(key := acc.key + [k]), next))
    else if n == "time" then
      (match TimeAt(toks, pos, n)
      case Fail(e) => Fail(e)
      case Done(t, next) => Done(acc.(time := acc.time + [t]), next))
    else if n == "clef" then
      (match ClefAt(toks, pos, n)
      case Fail(e) => Fail(e)
      case Done(c, next) => Done(acc.(clef := acc.clef + [c]), next))
    else
      (match Skip(toks, pos, n)
      case None => Fail(Panic(SkipEof(n)))
      case Some(next) => Done(acc, next))
  }

  function AttributesLoop(toks: seq<Token>, pos: nat, name: string, acc: Attributes): (r: Parsed<Attributes>)
    requires pos <= |toks|
    ensures r.Done? ==> pos < r.next <= |toks| && toks[r.next - 1] == End(name)
    decreases |toks| - pos
  {
    if pos == |toks| then Fail(UnexpectedEof)
    else match toks[pos]
      case Start(n, _) =>
        var child := AttributesChild(toks, pos + 1, n, acc);
        if child.Fail? then Fail(child.error)
        else AttributesLoop(toks, child.next, name, child.value)
      case End(n) =>
        if n != name then Fail(Panic(EndMismatch(name, n)))
        else Done(acc, pos + 1)
      case _ => AttributesLoop(toks, pos + 1, name, acc)
  }

  const NoAttributes := Attributes(None, [], [], [])

  /** Attributes::parse: divisions is singular (the last one counts), keys, times
      and clefs are collected in document order. */
  function AttributesAt(toks: seq<Token>, pos: nat, name: string): (r: Parsed<Attributes>)
    requires pos <= |toks|
    ensures r.Done? ==> pos < r.next <= |toks| && toks[r.next - 1] == End(name)
  {
    AttributesLoop(toks, pos, name, NoAttributes)
  }

  method ParseAttributes(r: Reader, name: string) returns (res: Result<Attributes>)
    requires r.Valid()
    modifies r
    ensures r.Valid() && old(r.pos) <= r.pos
    ensures Agrees(res, r.pos, AttributesAt(r.toks, old(r.pos), name))
  {
    var divisions: Option<real> := None;
    var key: seq<Key> := [];
    var time: seq<Time> := [];
    var clef: seq<Clef> := [];
    while true
      invariant r.Valid() && old(r.pos) <= r.pos
      invariant AttributesLoop(r.toks, r.pos, name, Attributes(divisions, key, time, clef))
                == AttributesAt(r.toks, old(r.pos), name)
      decreases |r.toks| - r.pos
    {
      var e := r.ReadEvent();
      match e {
        case None =>
          return Err(UnexpectedEof);
        case Some(Start(n, _)) =>
          if n == "divisions" {
            divisions := ReadDecimal(r, n);
          } else if n == "key" {
            var k := ParseKey(r, n);
            if k.Err? {
              return Err(k.error);
            }
            key := key + [k.value];
          } else if n == "time" {
            var t := ParseTime(r, n);
            if t.Err? {
              return Err(t.error);
            }
            time := time + [t.value];
          } else if n == "clef" {
            var c := ParseClef(r, n);
            if c.Err? {
              return Err(c.error);
            }
            clef := clef + [c.value];
          } else {
            var ok := r.ReadToEnd(n);
            if !ok {
              return Err(Panic(SkipEof(n)));
            }
          }
        case Some(End(n)) =>
          if n != name {
            return Err(Panic(EndMismatch(name, n)));
          }
          return Ok(Attributes(divisions, key, time, clef));
        case Some(_) =>
      }
    }
  }
}
