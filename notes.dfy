/** Note::parse of src/musicxml.rs: classification by the first child element,
    then the dispatch of every child of a regular note. */
module Notes {
  import opened Xml
  import opened Primitive
  import opened Elements

  datatype NoteKind = Grace | Cue | Regular

  datatype Note = Note(
    pitch: Option<Pitch>,
    chord: Option<Chord>,
    duration: real,
    voice: Option<string>,
    kind: Option<string>,
    stem: Option<string>,
    rest: Option<Rest>,
    tie: Option<Tie>,
    noteKind: NoteKind)

  /** The locals of Note::parse while its children are read. */
  datatype NoteFields = NoteFields(
    pitch: Option<Pitch>,
    chord: Option<Chord>,
    duration: Option<real>,
    voice: Option<string>,
    kind: Option<string>,
    stem: Option<string>,
    rest: Option<Rest>,
    tie: Option<Tie>)

  const NoFields := NoteFields(None, None, None, None, None, None, None, None)

  /** The position of the note's first child start tag; an end tag first means an
      empty note. */
  function FirstChild(toks: seq<Token>, pos: nat, name: string): (r: Parsed<nat>)
    requires pos <= |toks|
    ensures r.Done? ==> pos <= r.value < |toks| && toks[r.value].Start? && r.next == r.value + 1
    ensures r.Fail? ==> r.error in {UnexpectedEof, MissingTag("note")} || r.error.Panic?
    decreases |toks| - pos
  {
    if pos == |toks| then Fail(UnexpectedEof)
    else match toks[pos]
      case Start(_, _) => Done(pos, pos + 1)
      case End(n) =>
        if n != name then Fail(Panic(EndMismatch(name, n))) else Fail(MissingTag("note"))
      case _ => FirstChild(toks, pos + 1, name)
  }

  /** The handle_start closure: one child of a regular note. */
  function NoteChildAt(toks: seq<Token>, pos: nat, n: string, attrs: seq<Attr>, acc: NoteFields): (r: Parsed<NoteFields>)
    requires pos <= |toks|
    ensures r.Done? ==> pos <= r.next <= |toks|
  {
    if n == "pitch" then
      match PitchAt(toks, pos, n)
      case Fail(e) => Fail(e)
      case Done(p, m) => Done(acc.(pitch := Some(p)), m)
    else if n == "chord" then
      match ChordAt(toks, pos, n)
      case Fail(e) => Fail(e)
      case Done(c, m) => Done(acc.(chord := Some(c)), m)
    else if n == "duration" then
      var (v, m) := ReadDecimalAt(toks, pos, n);
      Done(acc.(duration := v), m)
    else if n == "voice" then
      var (v, m) := ReadTextAt(toks, pos, n);
      Done(acc.(voice := v), m)
    else if n == "type" then
      var (v, m) := ReadTextAt(toks, pos, n);
      Done(acc.(kind := v), m)
    else if n == "stem" then
      var (v, m) := ReadTextAt(toks, pos, n);
      Done(acc.(stem := v), m)
    else if n == "rest" then
      match RestAt(toks, pos, n, attrs)
      case Fail(e) => Fail(e)
      case Done(x, m) => Done(acc.(rest := Some(x)), m)
    else if n == "tie" then
      match TieAt(toks, pos, n, attrs)
      case Fail(e) => Fail(e)
      case Done(t, m) => Done(acc.(tie := Some(t)), m)
    else
      match Skip(toks, pos, n)
      case None => Fail(Panic(SkipEof(n)))
      case Some(m) => Done(acc, m)
  }

  /** The loop over the remaining children of a regular note. */
  function NoteLoop(toks: seq<Token>, pos: nat, name: string, acc: NoteFields): (r: Parsed<NoteFields>)
    requires pos <= |toks|
    ensures r.Done? ==> pos < r.next <= |toks| && toks[r.next - 1] == End(name)
    decreases |toks| - pos
  {
    if pos == |toks| then Fail(UnexpectedEof)
    else match toks[pos]
      case Start(n, attrs) =>
        (match NoteChildAt(toks, pos + 1, n, attrs, acc)
         case Fail(e) => Fail(e)
         case Done(acc', next) => NoteLoop(toks, next, name, acc'))
      case End(n) =>
        if n != name then Fail(Panic(EndMismatch(name, n))) else Done(acc, pos + 1)
      case _ => NoteLoop(toks, pos + 1, name, acc)
  }

  /** The closing duration check: a note that never set a duration is rejected. */
  function Finish(p: Parsed<NoteFields>): (r: Parsed<Note>)
    ensures r.Done? ==> p.Done? && r.next == p.next && p.value.duration == Some(r.value.duration)
    ensures p.Done? && p.value.duration.None? ==> r == Fail(MissingTag("duration"))
  {
    match p
    case Fail(e) => Fail(e)
    case Done(f, next) =>
      if f.duration.None? then Fail(MissingTag("duration"))
      else Done(Note(f.pitch, f.chord, f.duration.value, f.voice, f.kind, f.stem, f.rest, f.tie, Regular), next)
  }

  /** A grace or cue note: the first child and the rest of the note are skipped and
      the duration is never set. */
  function SkippedNoteAt(toks: seq<Token>, pos: nat, first: string, name: string): (r: Parsed<Note>)
    requires pos <= |toks|
    ensures r.Fail?
  {
    match Skip(toks, pos, first)
    case None => Fail(Panic(SkipEof(first)))
    case Some(m) =>
      match Skip(toks, m, name)
      case None => Fail(Panic(SkipEof(name)))
      case Some(_) => Fail(MissingTag("duration"))
  }

  /** Note::parse, with the first child dispatched like every later one. */
  function NoteAt(toks: seq<Token>, pos: nat, name: string): (r: Parsed<Note>)
    requires pos <= |toks|
    ensures r.Done? ==> pos < r.next <= |toks| && toks[r.next - 1] == End(name)
  {
    match FirstChild(toks, pos, name)
    case Fail(e) => Fail(e)
    case Done(p, next) =>
      var first := toks[p];
      if first.name == "grace" || first.name == "cue" then SkippedNoteAt(toks, next, first.name, name)
      else
        Finish(match NoteChildAt(toks, next, first.name, first.attrs, NoFields)
               case Fail(e) => Fail(e)
               case Done(f, m) => NoteLoop(toks, m, name, f))
  }

  /** Note::parse as written: the closure is first applied to the note's own start
      tag instead of the first child, so the first child is never dispatched and the
      note's own name is handed to the catch-all skip. */
  function NoteAtAsWritten(toks: seq<Token>, pos: nat, name: string, attrs: seq<Attr>): (r: Parsed<Note>)
    requires pos <= |toks|
    ensures r.Done? ==> pos < r.next <= |toks| && toks[r.next - 1] == End(name)
  {
    match FirstChild(toks, pos, name)
    case Fail(e) => Fail(e)
    case Done(p, next) =>
      var first := toks[p];
      if first.name == "grace" || first.name == "cue" then SkippedNoteAt(toks, next, first.name, name)
      else
        Finish(match NoteChildAt(toks, next, name, attrs, NoFields)
               case Fail(e) => Fail(e)
               case Done(f, m) => NoteLoop(toks, m, name, f))
  }

  // ---------------------------------------------------------------- the reader methods

  method ReadFirstChild(r: Reader, name: string) returns (res: Result<Token>)
    requires r.Valid()
    modifies r
    ensures r.Valid() && old(r.pos) <= r.pos
    ensures match FirstChild(r.toks, old(r.pos), name)
            case Fail(e) => res == Err(e)
            case Done(p, next) => res == Ok(r.toks[p]) && r.pos == next
  {
    while true
      invariant r.Valid() && old(r.pos) <= r.pos
      invariant FirstChild(r.toks, r.pos, name) == FirstChild(r.toks, old(r.pos), name)
      decreases |r.toks| - r.pos
    {
      var e := r.ReadEvent();
      match e {
        case None =>
          return Err(UnexpectedEof);
        case Some(Start(n, a)) =>
          return Ok(Token.Start(n, a));
        case Some(End(n)) =>
          if n != name {
            return Err(Panic(EndMismatch(name, n)));
          }
          return Err(MissingTag("note"));
        case Some(_) =>
      }
    }
  }

  method HandleChild(r: Reader, n: string, attrs: seq<Attr>, acc: NoteFields) returns (res: Result<NoteFields>)
    requires r.Valid()
    modifies r
    ensures r.Valid() && old(r.pos) <= r.pos
    ensures Agrees(res, r.pos, NoteChildAt(r.toks, old(r.pos), n, attrs, acc))
  {
    if n == "pitch" {
      var p := ParsePitch(r, n);
      if p.Err? {
        return Err(p.error);
      }
      return Ok(acc.(pitch := Some(p.value)));
    } else if n == "chord" {
      var c := ParseChord(r, n);
      if c.Err? {
        return Err(c.error);
      }
      return Ok(acc.(chord := Some(c.value)));
    } else if n == "duration" {
      var v := ReadDecimal(r, n);
      return Ok(acc.(duration := v));
    } else if n == "voice" {
      var v := r.ReadText(n);
      return Ok(acc.(voice := v));
    } else if n == "type" {
      var v := r.ReadText(n);
      return Ok(acc.(kind := v));
    } else if n == "stem" {
      var v := r.ReadText(n);
      return Ok(acc.(stem := v));
    } else if n == "rest" {
      var x := ParseRest(r, n, attrs);
      if x.Err? {
        return Err(x.error);
      }
      return Ok(acc.(rest := Some(x.value)));
    } else if n == "tie" {
      var t := ParseTie(r, n, attrs);
      if t.Err? {
        return Err(t.error);
      }
      return Ok(acc.(tie := Some(t.value)));
    } else {
      var ok := r.ReadToEnd(n);
      if !ok {
        return Err(Panic(SkipEof(n)));
      }
      return Ok(acc);
    }
  }

  method ParseNote(r: Reader, name: string) returns (res: Result<Note>)
    requires r.Valid()
    modifies r
    ensures r.Valid() && old(r.pos) <= r.pos
    ensures Agrees(res, r.pos, NoteAt(r.toks, old(r.pos), name))
  {
    var first := ReadFirstChild(r, name);
    if first.Err? {
      return Err(first.error);
    }
    var n, attrs := first.value.name, first.value.attrs;
    if n == "grace" || n == "cue" {
      var ok := r.ReadToEnd(n);
      if !ok {
        return Err(Panic(SkipEof(n)));
      }
      ok := r.ReadToEnd(name);
      if !ok {
        return Err(Panic(SkipEof(name)));
      }
      return Err(MissingTag("duration"));
    }
    var firstDone := HandleChild(r, n, attrs, NoFields);
    if firstDone.Err? {
      return Err(firstDone.error);
    }
    var acc := firstDone.value;
    ghost var rest := NoteLoop(r.toks, r.pos, name, acc);
    while true
      invariant r.Valid() && old(r.pos) <= r.pos
      invariant NoteLoop(r.toks, r.pos, name, acc) == rest
      decreases |r.toks| - r.pos
    {
      var e := r.ReadEvent();
      match e {
        case None =>
          return Err(UnexpectedEof);
        case Some(Start(c, a)) =>
          var next := HandleChild(r, c, a, acc);
          if next.Err? {
            return Err(next.error);
          }
          acc := next.value;
        case Some(End(c)) =>
          if c != name {
            return Err(Panic(EndMismatch(name, c)));
          }
          if acc.duration.None? {
            return Err(MissingTag("duration"));
          }
          var f := acc;
          return Ok(Note(f.pitch, f.chord, f.duration.value, f.voice, f.kind, f.stem, f.rest, f.tie, Regular));
        case Some(_) =>
      }
    }
  }

  // ---------------------------------------------------------------- properties

  /** Only regular notes are ever produced: a leading grace or cue child always ends
      in an error, because the duration is then never set. */
  lemma ParsedNotesAreRegular(toks: seq<Token>, pos: nat, name: string)
    requires pos <= |toks|
    ensures NoteAt(toks, pos, name).Done? ==> NoteAt(toks, pos, name).value.noteKind == Regular
    ensures forall p, a :: pos <= p < |toks| && toks[p] == Token.Start("grace", a) &&
                           FirstChild(toks, pos, name) == Done(p, p + 1) ==>
              NoteAt(toks, pos, name).Fail?
  {
  }

  /** A note whose children never set a duration is rejected with MissingTag("duration"). */
  lemma {:induction false} NoDurationRejected(toks: seq<Token>, pos: nat, name: string, acc: NoteFields)
    requires pos <= |toks| && acc.duration.None?
    requires forall j :: pos <= j < |toks| && toks[j].Start? ==> toks[j].name != "duration"
    ensures Finish(NoteLoop(toks, pos, name, acc)).Done? == false
    decreases |toks| - pos
  {
    if pos < |toks| {
      match toks[pos]
      case Start(n, attrs) =>
        match NoteChildAt(toks, pos + 1, n, attrs, acc) {
          case Fail(_) =>
          case Done(acc', next) =>
            assert acc'.duration.None?;
            NoDurationRejected(toks, next, name, acc');
        }
      case End(_) =>
      case Text(_) => NoDurationRejected(toks, pos + 1, name, acc);
      case Other => NoDurationRejected(toks, pos + 1, name, acc);
    }
  }

  /** A note none of whose remaining children is a duration element is rejected. */
  lemma NoteWithoutDurationRejected(toks: seq<Token>, pos: nat, name: string)
    requires pos <= |toks|
    requires forall j :: pos <= j < |toks| && toks[j].Start? ==> toks[j].name != "duration"
    ensures NoteAt(toks, pos, name).Fail?
  {
    match FirstChild(toks, pos, name) {
      case Fail(_) =>
      case Done(p, next) =>
        var first := toks[p];
        if first.name != "grace" && first.name != "cue" {
          match NoteChildAt(toks, next, first.name, first.attrs, NoFields) {
            case Fail(_) =>
            case Done(f, m) => NoDurationRejected(toks, m, name, f);
          }
        }
    }
  }

  /** A note holding only a duration, followed by the end of its measure. */
  const DurationOnly: seq<Token> :=
    [Token.Start("duration", []), Text("4"), End("duration"), End("note"), End("measure")]

  /** As written, the first child is never dispatched: the note's own name goes to
      the catch-all skip, which runs past the note's end tag, and the loop then
      meets the measure's end tag. With the first child dispatched, the same tokens
      give a four-division note. */
  lemma FirstChildLostAsWritten()
    ensures NoteAt(DurationOnly, 0, "note")
            == Done(Note(None, None, 4.0, None, None, None, None, None, Regular), 4)
    ensures NoteAtAsWritten(DurationOnly, 0, "note", []) == Fail(Panic(EndMismatch("note", "measure")))
  {
    var t := DurationOnly;
    assert ParseDecimal("4") == Some(4.0) by {
      assert IndexOf("4", '.') == None;
      assert DigitsValue("4") == 4 by {
        assert "4"[..0] == [];
      }
    }
    assert Skip(t, 1, "duration") == Some(3);
    assert TextOf(t[1..2]) == "4" by {
      assert t[1..2] == [Text("4")];
      assert t[1..2][1..] == [];
    }
    assert Skip(t, 1, "note") == Some(4);
  }
}
