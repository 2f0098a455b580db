/** The timeline scheduler of `parse` in src/main.rs: it walks the measure items of
    the single part, keeps a divisions scale and a tick cursor, and files NoteOn,
    NoteOff and Tempo messages under the tick they sound at. */
module Schedule {
  import opened Xml
  import opened Primitive
  import opened Elements
  import opened Notes
  import opened Score
  import opened Midi

  /** A message and the tick it is filed under, in filing order. */
  datatype Placed = Placed(at: nat, msg: Message)

  /** The scheduler's state; `log` lists every message in the order it was filed. */
  datatype Sched = Sched(divisions: real, position: nat, log: seq<Placed>)

  const Start := Sched(1.0, 0, [])

  // ---------------------------------------------------------------- the tick map

  /** BTreeMap::entry(at).or_default().push(msg). */
  function File(events: map<nat, seq<Message>>, at: nat, msg: Message): map<nat, seq<Message>> {
    events[at := (if at in events then events[at] else []) + [msg]]
  }

  /** The tick map built by filing the log's messages in order. */
  function Group(log: seq<Placed>): map<nat, seq<Message>> {
    if log == [] then map[]
    else File(Group(log[..|log| - 1]), log[|log| - 1].at, log[|log| - 1].msg)
  }

  lemma GroupSnoc(log: seq<Placed>, p: Placed)
    ensures Group(log + [p]) == File(Group(log), p.at, p.msg)
  {
    assert (log + [p])[..|log|] == log;
  }

  /** Regrouping a note's filed pieces; a separate lemma so that the method's
      proof does not do the sequence reasoning in its own large context. */
  lemma Regroup(log: seq<Placed>, on: seq<Placed>, chord: seq<Placed>, off: seq<Placed>, released: seq<Placed>)
    ensures log + on + chord + off + released == log + (on + chord) + (off + released)
  {
  }

  /** The messages of the log filed under `at`, in filing order. */
  function At(log: seq<Placed>, at: nat): seq<Message> {
    if log == [] then []
    else At(log[..|log| - 1], at) + (if log[|log| - 1].at == at then [log[|log| - 1].msg] else [])
  }

  /** The tick map holds exactly the ticks that have messages, each with its
      messages in filing order. */
  lemma {:induction false} GroupIsFilter(log: seq<Placed>, at: nat)
    ensures at in Group(log) <==> At(log, at) != []
    ensures at in Group(log) ==> Group(log)[at] == At(log, at)
  {
    if log != [] {
      GroupIsFilter(log[..|log| - 1], at);
    }
  }

  // ---------------------------------------------------------------- notes

  function TiedStop(n: Note): bool {
    n.tie.Some? && n.tie.value.kind == StartStop.Stop
  }

  function KeyOf(p: Pitch): Outcome<nat> {
    MidiNoteNumber(p.step, p.octave, p.alter.GetOr(0.0))
  }

  /** A note that joins the chord of the note before it: chord marker and pitch. */
  predicate IsChordNote(item: MeasureItem) {
    item.NoteItem? && item.note.chord.Some? && item.note.pitch.Some?
  }

  /** The end of the run of chord notes starting at j. */
  function ChordEnd(items: seq<MeasureItem>, j: nat): (k: nat)
    requires j <= |items|
    ensures j <= k <= |items|
    ensures forall x :: j <= x < k ==> IsChordNote(items[x])
    ensures k < |items| ==> !IsChordNote(items[k])
    decreases |items| - j
  {
    if j < |items| && IsChordNote(items[j]) then ChordEnd(items, j + 1) else j
  }

  /** The chord notes items[lo..hi]: their NoteOns at `at` (skipping those whose
      tie is a stop) and the keys to release later (all of them). */
  function ChordOns(items: seq<MeasureItem>, lo: nat, hi: nat, at: nat): Outcome<(seq<Placed>, seq<nat>)>
    requires lo <= hi <= |items|
    requires forall x :: lo <= x < hi ==> IsChordNote(items[x])
    decreases hi
  {
    if hi == lo then Value(([], []))
    else match ChordOns(items, lo, hi - 1, at)
      case Abort(f) => Abort(f)
      case Value(acc) =>
        assert IsChordNote(items[hi - 1]);
        var note := items[hi - 1].note;
        match KeyOf(note.pitch.value)
        case Abort(f) => Abort(f)
        case Value(key) =>
          Value((acc.0 + (if TiedStop(note) then [] else [Placed(at, On(key))]), acc.1 + [key]))
  }

  /** The NoteOffs for `keys`, all at `at`. */
  function Releases(keys: seq<nat>, at: nat): (r: seq<Placed>)
    ensures |r| == |keys|
    ensures forall x :: 0 <= x < |keys| ==> r[x] == Placed(at, Off(keys[x]))
  {
    if keys == [] then [] else Releases(keys[..|keys| - 1], at) + [Placed(at, Off(keys[|keys| - 1]))]
  }

  /** `c` holds the keys of the chord notes items[lo..hi] in order, and NoteOns at
      `at` for exactly those whose tie is not a stop. */
  ghost predicate ChordFiled(items: seq<MeasureItem>, lo: nat, hi: nat, at: nat, c: (seq<Placed>, seq<nat>))
    requires lo <= hi <= |items|
  {
    |c.1| == hi - lo &&
    (forall x :: lo <= x < hi && IsChordNote(items[x]) ==> KeyOf(items[x].note.pitch.value) == Value(c.1[x - lo])) &&
    (forall x :: lo <= x < hi && IsChordNote(items[x]) && !TiedStop(items[x].note) ==> Placed(at, On(c.1[x - lo])) in c.0) &&
    (forall e :: e in c.0 ==>
       exists x :: lo <= x < hi && IsChordNote(items[x]) && !TiedStop(items[x].note) && e == Placed(at, On(c.1[x - lo])))
  }

  lemma ChordFiledSnoc(items: seq<MeasureItem>, lo: nat, hi: nat, at: nat, acc: (seq<Placed>, seq<nat>), key: nat)
    requires lo < hi <= |items|
    requires forall x :: lo <= x < hi ==> IsChordNote(items[x])
    requires ChordFiled(items, lo, hi - 1, at, acc)
    requires IsChordNote(items[hi - 1]) && KeyOf(items[hi - 1].note.pitch.value) == Value(key)
    ensures ChordFiled(items, lo, hi, at,
                       (acc.0 + (if TiedStop(items[hi - 1].note) then [] else [Placed(at, On(key))]), acc.1 + [key]))
  {
    var c := (acc.0 + (if TiedStop(items[hi - 1].note) then [] else [Placed(at, On(key))]), acc.1 + [key]);
    forall e | e in c.0
      ensures exists x :: lo <= x < hi && !TiedStop(items[x].note) && e == Placed(at, On(c.1[x - lo]))
    {
      if e in acc.0 {
        var x :| lo <= x < hi - 1 && IsChordNote(items[x]) && !TiedStop(items[x].note) && e == Placed(at, On(acc.1[x - lo]));
        assert c.1[x - lo] == acc.1[x - lo];
      } else {
        assert c.1[hi - 1 - lo] == key;
      }
    }
  }

  /** The chord look-ahead: it aborts exactly when some chord note's key overflows;
      otherwise it keeps every chord note's key, in order, and files a NoteOn at
      `at` for exactly the chord notes whose tie is not a stop. */
  lemma {:induction false} ChordOnsKeys(items: seq<MeasureItem>, lo: nat, hi: nat, at: nat)
    requires lo <= hi <= |items|
    requires forall x :: lo <= x < hi ==> IsChordNote(items[x])
    ensures ChordOns(items, lo, hi, at).Abort? <==>
              exists x :: lo <= x < hi && KeyOf(items[x].note.pitch.value).Abort?
    ensures ChordOns(items, lo, hi, at).Value? ==> ChordFiled(items, lo, hi, at, ChordOns(items, lo, hi, at).value)
    decreases hi
  {
    if hi > lo {
      ChordOnsKeys(items, lo, hi - 1, at);
      var prefix := ChordOns(items, lo, hi - 1, at);
      var last := KeyOf(items[hi - 1].note.pitch.value);
      if prefix.Value? && last.Value? {
        ChordFiledSnoc(items, lo, hi, at, prefix.value, last.value);
      } else if prefix.Value? {
        assert ChordOns(items, lo, hi, at).Abort?;
      }
    }
  }

  // ---------------------------------------------------------------- one item

  /** A pitched note at items[i] and the chord notes that follow it: its NoteOn and
      theirs at the cursor, the cursor advanced by its ticks, then its NoteOff and
      theirs at the new cursor; a tie stop silences a note's NoteOn, and the
      primary's NoteOff too. */
  function PlayAt(items: seq<MeasureItem>, i: nat, st: Sched): (r: Outcome<(Sched, nat)>)
    requires i < |items| && st.position <= UsizeMax
    requires items[i].NoteItem? && items[i].note.pitch.Some?
    ensures r.Value? ==> i < r.value.1 <= |items| && r.value.0.position <= UsizeMax
    ensures r.Value? ==> st.log <= r.value.0.log
  {
    var note := items[i].note;
    if note.chord.Some? then Abort(ChordAsPrimary)
    else match KeyOf(note.pitch.value)
      case Abort(f) => Abort(f)
      case Value(key) =>
        var silent := TiedStop(note);
        var p := st.position;
        var k := ChordEnd(items, i + 1);
        match ChordOns(items, i + 1, k, p)
        case Abort(f) => Abort(f)
        case Value(chord) =>
          var p' := SatAdd(p, Ticks(note.duration, st.divisions));
          var ons := (if silent then [] else [Placed(p, On(key))]) + chord.0;
          var offs := (if silent then [] else [Placed(p', Off(key))]) + Releases(chord.1, p');
          Value((Sched(st.divisions, p', st.log + ons + offs), k))
  }

  /** The messages a played note files after the log it started from. */
  function Added(log: seq<Placed>, next: Outcome<(Sched, nat)>): seq<Placed>
    requires next.Value? && log <= next.value.0.log
  {
    next.value.0.log[|log|..]
  }

  lemma PlayUnfold(items: seq<MeasureItem>, i: nat, st: Sched)
    requires i < |items| && st.position <= UsizeMax
    requires items[i].NoteItem? && items[i].note.pitch.Some?
    requires PlayAt(items, i, st).Value?
    ensures items[i].note.chord.None? && KeyOf(items[i].note.pitch.value).Value?
    ensures ChordOns(items, i + 1, ChordEnd(items, i + 1), st.position).Value?
    ensures var note := items[i].note;
            var key := KeyOf(note.pitch.value).value;
            var p' := SatAdd(st.position, Ticks(note.duration, st.divisions));
            var chord := ChordOns(items, i + 1, ChordEnd(items, i + 1), st.position).value;
            Added(st.log, PlayAt(items, i, st)) ==
              (if TiedStop(note) then [] else [Placed(st.position, On(key))]) + chord.0 +
              ((if TiedStop(note) then [] else [Placed(p', Off(key))]) + Releases(chord.1, p'))
  {
    var note := items[i].note;
    var p := st.position;
    var end := ChordEnd(items, i + 1);
    var p' := SatAdd(p, Ticks(note.duration, st.divisions));
    assert note.chord.None? && KeyOf(note.pitch.value).Value?;
    var key := KeyOf(note.pitch.value).value;
    var chord := ChordOns(items, i + 1, end, p);
    assert chord.Value?;
    var ons := (if TiedStop(note) then [] else [Placed(p, On(key))]) + chord.value.0;
    var offs := (if TiedStop(note) then [] else [Placed(p', Off(key))]) + Releases(chord.value.1, p');
    assert PlayAt(items, i, st) == Value((Sched(st.divisions, p', st.log + ons + offs), end));
    assert (st.log + ons + offs)[|st.log|..] == ons + offs;
  }

  /** A pitched primary note aborts exactly when it carries a chord marker or its
      key or a chord note's key overflows; otherwise reading resumes after the
      chord notes, the divisions stay, and the cursor advances by the note's own
      ticks (saturating), whatever the chord notes' durations. */
  lemma PlayCursor(items: seq<MeasureItem>, i: nat, st: Sched)
    requires i < |items| && st.position <= UsizeMax
    requires items[i].NoteItem? && items[i].note.pitch.Some?
    ensures items[i].note.chord.Some? ==> PlayAt(items, i, st) == Abort(ChordAsPrimary)
    ensures PlayAt(items, i, st).Value? <==>
              items[i].note.chord.None? && KeyOf(items[i].note.pitch.value).Value? &&
              forall x :: i < x < ChordEnd(items, i + 1) ==> KeyOf(items[x].note.pitch.value).Value?
    ensures PlayAt(items, i, st).Value? ==>
              PlayAt(items, i, st).value.1 == ChordEnd(items, i + 1) &&
              PlayAt(items, i, st).value.0.divisions == st.divisions &&
              PlayAt(items, i, st).value.0.position == SatAdd(st.position, Ticks(items[i].note.duration, st.divisions))
  {
    ChordOnsKeys(items, i + 1, ChordEnd(items, i + 1), st.position);
  }

  /** The messages filed for a note with key `key` and chord `chord`, read as what
      they are: NoteOns at p and NoteOffs at p' for the note (unless silent) and
      its chord notes, NoteOns only for those not tied. */
  lemma FiledShape(items: seq<MeasureItem>, lo: nat, hi: nat, p: nat, p': nat, silent: bool, key: nat,
                   chord: (seq<Placed>, seq<nat>), added: seq<Placed>)
    requires lo <= hi <= |items|
    requires forall x :: lo <= x < hi ==> IsChordNote(items[x])
    requires ChordFiled(items, lo, hi, p, chord)
    requires added == (if silent then [] else [Placed(p, On(key))]) + chord.0 +
                      ((if silent then [] else [Placed(p', Off(key))]) + Releases(chord.1, p'))
    ensures !silent ==> Placed(p, On(key)) in added && Placed(p', Off(key)) in added
    ensures forall x, k :: lo <= x < hi && KeyOf(items[x].note.pitch.value) == Value(k) ==>
              Placed(p', Off(k)) in added && (!TiedStop(items[x].note) ==> Placed(p, On(k)) in added)
    ensures forall e :: e in added ==>
              (!silent && (e == Placed(p, On(key)) || e == Placed(p', Off(key)))) ||
              exists x, k :: lo <= x < hi && KeyOf(items[x].note.pitch.value) == Value(k) &&
                             (e == Placed(p, On(k)) || e == Placed(p', Off(k)))
  {
    var released := Releases(chord.1, p');
    forall x, k | lo <= x < hi && KeyOf(items[x].note.pitch.value) == Value(k)
      ensures Placed(p', Off(k)) in added
    {
      assert released[x - lo] == Placed(p', Off(chord.1[x - lo]));
    }
    forall e | e in added
      ensures (!silent && (e == Placed(p, On(key)) || e == Placed(p', Off(key)))) ||
              exists x, k :: lo <= x < hi && KeyOf(items[x].note.pitch.value) == Value(k) &&
                             (e == Placed(p, On(k)) || e == Placed(p', Off(k)))
    {
      if e in chord.0 {
        var x :| lo <= x < hi && IsChordNote(items[x]) && !TiedStop(items[x].note) && e == Placed(p, On(chord.1[x - lo]));
      } else if e in released {
        var j :| 0 <= j < |released| && released[j] == e;
        assert KeyOf(items[j + lo].note.pitch.value) == Value(chord.1[j]);
      }
    }
  }

  /** A played note with key `key` files its NoteOn at the cursor p and its
      NoteOff at p' = p + its ticks, unless its tie is a stop. */
  lemma PlayFilesNote(items: seq<MeasureItem>, i: nat, st: Sched, key: nat)
    requires i < |items| && st.position <= UsizeMax
    requires items[i].NoteItem? && items[i].note.pitch.Some?
    requires PlayAt(items, i, st).Value? && KeyOf(items[i].note.pitch.value) == Value(key)
    ensures var p' := SatAdd(st.position, Ticks(items[i].note.duration, st.divisions));
            !TiedStop(items[i].note) ==>
              Placed(st.position, On(key)) in Added(st.log, PlayAt(items, i, st)) &&
              Placed(p', Off(key)) in Added(st.log, PlayAt(items, i, st))
  {
    var end := ChordEnd(items, i + 1);
    var p' := SatAdd(st.position, Ticks(items[i].note.duration, st.divisions));
    var added := Added(st.log, PlayAt(items, i, st));
    PlayUnfold(items, i, st);
    ChordOnsKeys(items, i + 1, end, st.position);
    var chord := ChordOns(items, i + 1, end, st.position).value;
    FiledShape(items, i + 1, end, st.position, p', TiedStop(items[i].note), key, chord, added);
  }

  /** Every chord note after a played note gets a NoteOff at p' (the primary's
      release tick, whatever its own duration) and, unless its own tie is a stop,
      a NoteOn at the cursor p. */
  lemma PlayFilesChord(items: seq<MeasureItem>, i: nat, st: Sched, key: nat)
    requires i < |items| && st.position <= UsizeMax
    requires items[i].NoteItem? && items[i].note.pitch.Some?
    requires PlayAt(items, i, st).Value? && KeyOf(items[i].note.pitch.value) == Value(key)
    ensures var p' := SatAdd(st.position, Ticks(items[i].note.duration, st.divisions));
            forall x, k :: i + 1 <= x < ChordEnd(items, i + 1) && KeyOf(items[x].note.pitch.value) == Value(k) ==>
              Placed(p', Off(k)) in Added(st.log, PlayAt(items, i, st)) &&
              (!TiedStop(items[x].note) ==> Placed(st.position, On(k)) in Added(st.log, PlayAt(items, i, st)))
  {
    var end := ChordEnd(items, i + 1);
    var p' := SatAdd(st.position, Ticks(items[i].note.duration, st.divisions));
    var added := Added(st.log, PlayAt(items, i, st));
    PlayUnfold(items, i, st);
    ChordOnsKeys(items, i + 1, end, st.position);
    var chord := ChordOns(items, i + 1, end, st.position).value;
    FiledShape(items, i + 1, end, st.position, p', TiedStop(items[i].note), key, chord, added);
  }

  /** A played note files nothing else: each message is its own NoteOn at p or
      NoteOff at p' (when its tie is not a stop) or a chord note's. */
  lemma PlayFilesOnly(items: seq<MeasureItem>, i: nat, st: Sched, key: nat)
    requires i < |items| && st.position <= UsizeMax
    requires items[i].NoteItem? && items[i].note.pitch.Some?
    requires PlayAt(items, i, st).Value? && KeyOf(items[i].note.pitch.value) == Value(key)
    ensures var p' := SatAdd(st.position, Ticks(items[i].note.duration, st.divisions));
            forall e :: e in Added(st.log, PlayAt(items, i, st)) ==>
              (!TiedStop(items[i].note) && (e == Placed(st.position, On(key)) || e == Placed(p', Off(key)))) ||
              exists x, k :: i + 1 <= x < ChordEnd(items, i + 1) && KeyOf(items[x].note.pitch.value) == Value(k) &&
                             (e == Placed(st.position, On(k)) || e == Placed(p', Off(k)))
  {
    var end := ChordEnd(items, i + 1);
    var p' := SatAdd(st.position, Ticks(items[i].note.duration, st.divisions));
    var added := Added(st.log, PlayAt(items, i, st));
    PlayUnfold(items, i, st);
    ChordOnsKeys(items, i + 1, end, st.position);
    var chord := ChordOns(items, i + 1, end, st.position).value;
    FiledShape(items, i + 1, end, st.position, p', TiedStop(items[i].note), key, chord, added);
  }

  /** The effect of items[i]: the new state and the index of the next item to
      read (past the chord notes a pitched note consumed). */
  function StepAt(items: seq<MeasureItem>, i: nat, st: Sched): (r: Outcome<(Sched, nat)>)
    requires i < |items| && st.position <= UsizeMax
    ensures r.Value? ==> i < r.value.1 <= |items| && r.value.0.position <= UsizeMax
    ensures r.Value? ==> st.log <= r.value.0.log
  {
    match items[i]
    case AttributesItem(a) =>
      Value((st.(divisions := a.divisions.GetOr(st.divisions)), i + 1))
    case NoteItem(note) =>
      if note.pitch.Some? then PlayAt(items, i, st)
      else if note.rest.Some? then
        Value((st.(position := SatAdd(st.position, Ticks(note.duration, st.divisions))), i + 1))
      else
        Value((st, i + 1))
    case BackupItem(b) =>
      Value((st.(position := SatSub(st.position, BackupTicks(b.duration, st.divisions))), i + 1))
    case DirectionItem(d) =>
      if d.sound.Some? && d.sound.value.tempo.Some? then
        match TempoMicros(d.sound.value.tempo.value)
        case Abort(f) => Abort(f)
        case Value(us) => Value((st.(log := st.log + [Placed(st.position, Tempo(Micros24(us)))]), i + 1))
      else Value((st, i + 1))
    case PrintItem(_) => Value((st, i + 1))
    case BarlineItem(_) => Value((st, i + 1))
  }

  function RunFrom(items: seq<MeasureItem>, i: nat, st: Sched): (r: Outcome<Sched>)
    requires i <= |items| && st.position <= UsizeMax
    ensures r.Value? ==> st.log <= r.value.log
    decreases |items| - i
  {
    if i == |items| then Value(st)
    else match StepAt(items, i, st)
      case Abort(f) => Abort(f)
      case Value(next) => RunFrom(items, next.1, next.0)
  }

  /** The scheduler over a whole item sequence, from divisions 1 and tick 0. */
  /** The cursor stays within `usize` over a whole run. */
  lemma {:induction false} RunFromCursor(items: seq<MeasureItem>, i: nat, st: Sched)
    requires i <= |items| && st.position <= UsizeMax
    ensures RunFrom(items, i, st).Value? ==> RunFrom(items, i, st).value.position <= UsizeMax
    decreases |items| - i
  {
    if i < |items| {
      var step := StepAt(items, i, st);
      if step.Value? {
        RunFromCursor(items, step.value.1, step.value.0);
      }
    }
  }

  function Run(items: seq<MeasureItem>): (r: Outcome<Sched>)
    ensures r.Value? ==> r.value.position <= UsizeMax
  {
    RunFromCursor(items, 0, Start);
    RunFrom(items, 0, Start)
  }

  // ---------------------------------------------------------------- the methods

  /** Once a chord note's key overflows, the whole chord aborts. */
  lemma {:induction false} ChordAbortPersists(items: seq<MeasureItem>, lo: nat, mid: nat, hi: nat, at: nat)
    requires lo <= mid <= hi <= |items|
    requires forall x :: lo <= x < hi ==> IsChordNote(items[x])
    requires ChordOns(items, lo, mid, at).Abort?
    ensures ChordOns(items, lo, hi, at) == ChordOns(items, lo, mid, at)
    decreases hi - mid
  {
    if mid < hi {
      ChordAbortPersists(items, lo, mid, hi - 1, at);
    }
  }

  /** One more chord note extends the NoteOns and the kept keys. */
  lemma ChordOnsSnoc(items: seq<MeasureItem>, lo: nat, i: nat, at: nat, ons: seq<Placed>, off: seq<nat>, key: nat)
    requires lo <= i < |items| && IsChordNote(items[i])
    requires forall x :: lo <= x < i ==> IsChordNote(items[x])
    requires ChordOns(items, lo, i, at) == Value((ons, off))
    requires KeyOf(items[i].note.pitch.value) == Value(key)
    ensures ChordOns(items, lo, i + 1, at)
            == Value((ons + (if TiedStop(items[i].note) then [] else [Placed(at, On(key))]), off + [key]))
  {
  }

  /** The scheduling loop takes one step: the run from i is the run after items[i]. */
  lemma RunFromStep(items: seq<MeasureItem>, i: nat, st: Sched)
    requires i < |items| && st.position <= UsizeMax
    ensures RunFrom(items, i, st) == match StepAt(items, i, st)
                                      case Abort(f) => Abort(f)
                                      case Value(next) => RunFrom(items, next.1, next.0)
  {
  }

  /** The chord look-ahead: each following chord note is consumed, its NoteOn filed
      at `at` unless its tie is a stop, and its key kept for release. */
  method FileChord(items: seq<MeasureItem>, lo: nat, at: nat, events: map<nat, seq<Message>>, ghost log: seq<Placed>)
    returns (res: Outcome<(nat, seq<nat>, map<nat, seq<Message>>)>, ghost log': seq<Placed>)
    requires lo <= |items| && events == Group(log)
    ensures match ChordOns(items, lo, ChordEnd(items, lo), at)
            case Abort(f) => res == Abort(f)
            case Value(chord) =>
              log' == log + chord.0 && res == Value((ChordEnd(items, lo), chord.1, Group(log')))
  {
    var i := lo;
    var off: seq<nat> := [];
    var events' := events;
    ghost var ons: seq<Placed> := [];
    log' := log;
    while i < |items| && IsChordNote(items[i])
      invariant lo <= i <= |items|
      invariant forall x :: lo <= x < i ==> IsChordNote(items[x])
      invariant ChordEnd(items, lo) == ChordEnd(items, i)
      invariant ChordOns(items, lo, i, at) == Value((ons, off))
      invariant log' == log + ons && events' == Group(log')
      decreases |items| - i
    {
      var chordNote := items[i].note;
      var chordKey := KeyOf(chordNote.pitch.value);
      if chordKey.Abort? {
        ChordAbortPersists(items, lo, i + 1, ChordEnd(items, lo), at);
        return Abort(chordKey.fault), log';
      }
      ghost var added := if TiedStop(chordNote) then [] else [Placed(at, On(chordKey.value))];
      ChordOnsSnoc(items, lo, i, at, ons, off, chordKey.value);
      i := i + 1;
      off := off + [chordKey.value];
      if !TiedStop(chordNote) {
        GroupSnoc(log', Placed(at, On(chordKey.value)));
        events' := File(events', at, On(chordKey.value));
      } else {
        assert log' + added == log';
      }
      log' := log' + added;
      ons := ons + added;
    }
    return Value((i, off, events')), log';
  }

  /** `for pitch in off`: a NoteOff for every kept key, in order. */
  method Release(keys: seq<nat>, at: nat, events: map<nat, seq<Message>>, ghost log: seq<Placed>)
    returns (events': map<nat, seq<Message>>, ghost log': seq<Placed>)
    requires events == Group(log)
    ensures log' == log + Releases(keys, at) && events' == Group(log')
  {
    events', log' := events, log;
    for x := 0 to |keys|
      invariant log' == log + Releases(keys[..x], at) && events' == Group(log')
    {
      assert keys[..x + 1][..x] == keys[..x];
      GroupSnoc(log', Placed(at, Off(keys[x])));
      events' := File(events', at, Off(keys[x]));
      log' := log' + [Placed(at, Off(keys[x]))];
    }
    assert keys[..|keys|] == keys;
  }

  /** A pitched note and the chord notes after it: NoteOns at the cursor, the
      cursor advanced by the note's ticks, NoteOffs at the new cursor. */
  method PlayNote(items: seq<MeasureItem>, here: nat, divisions: real, position: nat,
                  events: map<nat, seq<Message>>, ghost log: seq<Placed>)
    returns (res: Outcome<(nat, nat, map<nat, seq<Message>>)>, ghost log': seq<Placed>)
    requires here < |items| && position <= UsizeMax && events == Group(log)
    requires items[here].NoteItem? && items[here].note.pitch.Some?
    ensures match PlayAt(items, here, Sched(divisions, position, log))
            case Abort(f) => res == Abort(f)
            case Value(next) =>
              res == Value((next.1, next.0.position, Group(next.0.log))) && log' == next.0.log
  {
    var note := items[here].note;
    log' := log;
    if note.chord.Some? {
      return Abort(ChordAsPrimary), log';
    }
    var key := KeyOf(note.pitch.value);
    if key.Abort? {
      return Abort(key.fault), log';
    }
    var silent := TiedStop(note);
    ghost var on := if silent then [] else [Placed(position, On(key.value))];
    var events' := events;
    if !silent {
      GroupSnoc(log, Placed(position, On(key.value)));
      events' := File(events', position, On(key.value));
    } else {
      assert log + on == log;
    }
    log' := log + on;
    var chord;
    chord, log' := FileChord(items, here + 1, position, events', log');
    if chord.Abort? {
      return Abort(chord.fault), log';
    }
    ghost var c := ChordOns(items, here + 1, ChordEnd(items, here + 1), position);
    assert c.Value? && log' == log + on + c.value.0;
    var next, off;
    next, off, events' := chord.value.0, chord.value.1, chord.value.2;
    assert next == ChordEnd(items, here + 1) && off == c.value.1;
    ghost var afterOns := log';
    var position' := SatAdd(position, Ticks(note.duration, divisions));
    ghost var offPrimary := if silent then [] else [Placed(position', Off(key.value))];
    if !silent {
      GroupSnoc(log', Placed(position', Off(key.value)));
      events' := File(events', position', Off(key.value));
    } else {
      assert log' + offPrimary == log';
    }
    log' := log' + offPrimary;
    events', log' := Release(off, position', events', log');
    assert log' == log + on + c.value.0 + offPrimary + Releases(off, position');
    Regroup(log, on, c.value.0, offPrimary, Releases(off, position'));
    assert PlayAt(items, here, Sched(divisions, position, log)) == Value((Sched(divisions, position', log'), next));
    return Value((next, position', events')), log';
  }

  /** The scheduler loop (src/main.rs:72-225), filing into the tick map in place. */
  method ScheduleItems(items: seq<MeasureItem>) returns (res: Outcome<map<nat, seq<Message>>>)
    ensures match Run(items)
            case Abort(f) => res == Abort(f)
            case Value(st) => res == Value(Group(st.log))
  {
    var divisions := 1.0;
    var position: nat := 0;
    var events: map<nat, seq<Message>> := map[];
    ghost var log: seq<Placed> := [];
    var i := 0;
    while i < |items|
      invariant i <= |items| && position <= UsizeMax
      invariant events == Group(log)
      invariant RunFrom(items, i, Sched(divisions, position, log)) == Run(items)
      decreases |items| - i
    {
      RunFromStep(items, i, Sched(divisions, position, log));
      match items[i] {
        case AttributesItem(a) =>
          if a.divisions.Some? {
            divisions := a.divisions.value;
          }
          i := i + 1;
        case NoteItem(note) =>
          if note.pitch.Some? {
            var played;
            played, log := PlayNote(items, i, divisions, position, events, log);
            if played.Abort? {
              return Abort(played.fault);
            }
            i, position, events := played.value.0, played.value.1, played.value.2;
          } else {
            if note.rest.Some? {
              position := SatAdd(position, Ticks(note.duration, divisions));
            }
            i := i + 1;
          }
        case BackupItem(b) =>
          position := SatSub(position, BackupTicks(b.duration, divisions));
          i := i + 1;
        case DirectionItem(d) =>
          if d.sound.Some? && d.sound.value.tempo.Some? {
            var us := TempoMicros(d.sound.value.tempo.value);
            if us.Abort? {
              return Abort(us.fault);
            }
            GroupSnoc(log, Placed(position, Tempo(Micros24(us.value))));
            events := File(events, position, Tempo(Micros24(us.value)));
            log := log + [Placed(position, Tempo(Micros24(us.value)))];
          }
          i := i + 1;
        case PrintItem(_) =>
          i := i + 1;
        case BarlineItem(_) =>
          i := i + 1;
      }
    }
    return Value(events);
  }

  // ---------------------------------------------------------------- every NoteOn is released

  /** The keys of the NoteOn messages of a log. */
  function OnKeys(log: seq<Placed>): multiset<nat> {
    if log == [] then multiset{}
    else OnKeys(log[..|log| - 1]) + (if log[|log| - 1].msg.NoteOn? then multiset{log[|log| - 1].msg.key} else multiset{})
  }

  /** The keys of the NoteOff messages of a log. */
  function OffKeys(log: seq<Placed>): multiset<nat> {
    if log == [] then multiset{}
    else OffKeys(log[..|log| - 1]) + (if log[|log| - 1].msg.NoteOff? then multiset{log[|log| - 1].msg.key} else multiset{})
  }

  lemma {:induction false} OnKeysAppend(a: seq<Placed>, b: seq<Placed>)
    ensures OnKeys(a + b) == OnKeys(a) + OnKeys(b)
    decreases |b|
  {
    if b == [] {
      assert a + b == a;
    } else {
      var last, init := b[|b| - 1], b[..|b| - 1];
      var one := if last.msg.NoteOn? then multiset{last.msg.key} else multiset{};
      OnKeysAppend(a, init);
      assert OnKeys(a + b) == OnKeys(a + init) + one by {
        assert (a + b)[..|a + b| - 1] == a + init;
        assert (a + b)[|a + b| - 1] == last;
      }
      assert OnKeys(b) == OnKeys(init) + one;
    }
  }

  lemma {:induction false} OffKeysAppend(a: seq<Placed>, b: seq<Placed>)
    ensures OffKeys(a + b) == OffKeys(a) + OffKeys(b)
    decreases |b|
  {
    if b == [] {
      assert a + b == a;
    } else {
      var last, init := b[|b| - 1], b[..|b| - 1];
      var one := if last.msg.NoteOff? then multiset{last.msg.key} else multiset{};
      OffKeysAppend(a, init);
      assert OffKeys(a + b) == OffKeys(a + init) + one by {
        assert (a + b)[..|a + b| - 1] == a + init;
        assert (a + b)[|a + b| - 1] == last;
      }
      assert OffKeys(b) == OffKeys(init) + one;
    }
  }

  lemma KeysAppend(a: seq<Placed>, b: seq<Placed>)
    ensures OnKeys(a + b) == OnKeys(a) + OnKeys(b)
    ensures OffKeys(a + b) == OffKeys(a) + OffKeys(b)
  {
    OnKeysAppend(a, b);
    OffKeysAppend(a, b);
  }

  /** The chord notes file only NoteOns, and releasing the kept keys files a
      NoteOff for each of them. */
  lemma {:induction false} ChordBalanced(items: seq<MeasureItem>, lo: nat, hi: nat, at: nat, at': nat)
    requires lo <= hi <= |items|
    requires forall x :: lo <= x < hi ==> IsChordNote(items[x])
    requires ChordOns(items, lo, hi, at).Value?
    ensures var chord := ChordOns(items, lo, hi, at).value;
            OffKeys(chord.0) == multiset{} && OnKeys(Releases(chord.1, at')) == multiset{} &&
            OnKeys(chord.0) <= OffKeys(Releases(chord.1, at'))
    decreases hi
  {
    if hi > lo {
      ChordBalanced(items, lo, hi - 1, at, at');
      var prev := ChordOns(items, lo, hi - 1, at).value;
      var note := items[hi - 1].note;
      var key := KeyOf(note.pitch.value).value;
      var added := if TiedStop(note) then [] else [Placed(at, On(key))];
      KeysAppend(prev.0, added);
      assert (prev.1 + [key])[..|prev.1|] == prev.1;
      KeysAppend(Releases(prev.1, at'), [Placed(at', Off(key))]);
      assert OnKeys([Placed(at', Off(key))]) == multiset{};
    }
  }

  /** A pitched note and its chord release at least every key they sound. */
  lemma {:induction false} PlayBalanced(items: seq<MeasureItem>, i: nat, st: Sched)
    requires i < |items| && st.position <= UsizeMax
    requires items[i].NoteItem? && items[i].note.pitch.Some?
    requires PlayAt(items, i, st).Value?
    requires OnKeys(st.log) <= OffKeys(st.log)
    ensures var next := PlayAt(items, i, st).value.0; OnKeys(next.log) <= OffKeys(next.log)
  {
    var note := items[i].note;
    var key := KeyOf(note.pitch.value).value;
    var p := st.position;
    var k := ChordEnd(items, i + 1);
    var chord := ChordOns(items, i + 1, k, p).value;
    var p' := SatAdd(p, Ticks(note.duration, st.divisions));
    var on := if TiedStop(note) then [] else [Placed(p, On(key))];
    var off := if TiedStop(note) then [] else [Placed(p', Off(key))];
    ChordBalanced(items, i + 1, k, p, p');
    KeysAppend(on, chord.0);
    KeysAppend(off, Releases(chord.1, p'));
    KeysAppend(st.log, on + chord.0);
    KeysAppend(st.log + (on + chord.0), off + Releases(chord.1, p'));
    assert st.log + (on + chord.0) + (off + Releases(chord.1, p')) == st.log + (on + chord.0) + (off + Releases(chord.1, p'));
    assert OnKeys(on) == OffKeys(off);
  }

  lemma {:induction false} StepBalanced(items: seq<MeasureItem>, i: nat, st: Sched)
    requires i < |items| && st.position <= UsizeMax
    requires StepAt(items, i, st).Value?
    requires OnKeys(st.log) <= OffKeys(st.log)
    ensures var next := StepAt(items, i, st).value.0; OnKeys(next.log) <= OffKeys(next.log)
  {
    match items[i]
    case NoteItem(note) =>
      if note.pitch.Some? {
        PlayBalanced(items, i, st);
      }
    case DirectionItem(d) =>
      if d.sound.Some? && d.sound.value.tempo.Some? {
        var us := TempoMicros(d.sound.value.tempo.value).value;
        KeysAppend(st.log, [Placed(st.position, Tempo(Micros24(us)))]);
        assert OnKeys([Placed(st.position, Tempo(Micros24(us)))]) == multiset{};
      }
    case _ =>
  }

  lemma {:induction false} RunFromBalanced(items: seq<MeasureItem>, i: nat, st: Sched)
    requires i <= |items| && st.position <= UsizeMax
    requires RunFrom(items, i, st).Value?
    requires OnKeys(st.log) <= OffKeys(st.log)
    ensures var last := RunFrom(items, i, st).value; OnKeys(last.log) <= OffKeys(last.log)
    decreases |items| - i
  {
    if i < |items| {
      StepBalanced(items, i, st);
      var next := StepAt(items, i, st).value;
      RunFromBalanced(items, next.1, next.0);
    }
  }

  /** No key is left sounding: a score that schedules files, for every key, at
      least as many NoteOffs as NoteOns (more when a chord note's tie stop
      silenced only its NoteOn). */
  lemma NoteOnsAreReleased(items: seq<MeasureItem>)
    requires Run(items).Value?
    ensures OnKeys(Run(items).value.log) <= OffKeys(Run(items).value.log)
  {
    RunFromBalanced(items, 0, Start);
  }

  // ---------------------------------------------------------------- a worked score

  function Quarter(step: Step, octave: U8, chord: bool): MeasureItem {
    NoteItem(Note(Some(Pitch(step, None, octave)), if chord then Some(Chord) else None, 1.0,
                  None, None, None, None, None, Regular))
  }

  /** One measure at one division per quarter: G4, the chord A4 D5 F5, G4, a rest. */
  const FourBeats: seq<MeasureItem> := [
    AttributesItem(Attributes(Some(1.0), [Key("0")], [Time("4", "4")], [Clef(SignG, Some(2))])),
    Quarter(G, 4, false),
    Quarter(A, 4, false), Quarter(D, 5, true), Quarter(F, 5, true),
    Quarter(G, 4, false),
    NoteItem(Note(None, None, 1.0, None, None, None, Some(Rest(false)), None, Regular))]

  lemma FourBeatsKeys()
    ensures Ticks(1.0, 1.0) == 480
    ensures KeyOf(Pitch(G, None, 4)) == Value(67) && KeyOf(Pitch(A, None, 4)) == Value(69)
    ensures KeyOf(Pitch(D, None, 5)) == Value(74) && KeyOf(Pitch(F, None, 5)) == Value(77)
  {
  }

  /** The chord notes D5 and F5 after A4 sound at tick 480 and are kept for release. */
  lemma FourBeatsChord()
    ensures ChordEnd(FourBeats, 3) == 5
    ensures ChordOns(FourBeats, 3, 5, 480) == Value(([Placed(480, On(74)), Placed(480, On(77))], [74, 77]))
  {
    var items := FourBeats;
    FourBeatsKeys();
    assert items[3] == Quarter(D, 5, true) && items[4] == Quarter(F, 5, true);
    assert ChordOns(items, 3, 3, 480) == Value(([], []));
    assert KeyOf(items[3].note.pitch.value) == Value(74);
    assert ChordOns(items, 3, 4, 480).value.1 == [74];
    assert ChordOns(items, 3, 4, 480).value.0 == [Placed(480, On(74))];
    assert ChordOns(items, 3, 5, 480).value.1 == [74, 77];
    assert ChordOns(items, 3, 5, 480).value.0 == [Placed(480, On(74)), Placed(480, On(77))];
  }

  const FourBeats1 := Sched(1.0, 480, [Placed(0, On(67)), Placed(480, Off(67))])
  const FourBeats2 := Sched(1.0, 960, FourBeats1.log + [
    Placed(480, On(69)), Placed(480, On(74)), Placed(480, On(77)),
    Placed(960, Off(69)), Placed(960, Off(74)), Placed(960, Off(77))])
  const FourBeats3 := Sched(1.0, 1440, FourBeats2.log + [Placed(960, On(67)), Placed(1440, Off(67))])

  lemma FourBeatsFirst()
    ensures StepAt(FourBeats, 1, Sched(1.0, 0, [])) == Value((FourBeats1, 2))
  {
    var items := FourBeats;
    var s1 := Sched(1.0, 0, []);
    FourBeatsKeys();
    assert ChordEnd(items, 2) == 2;
    assert ChordOns(items, 2, 2, 0) == Value(([], []));
    assert Releases([], 480) == [];
    assert PlayAt(items, 1, s1).Value? && PlayAt(items, 1, s1).value.0.log == FourBeats1.log;
  }

  lemma FourBeatsSecond()
    ensures StepAt(FourBeats, 2, FourBeats1) == Value((FourBeats2, 5))
  {
    var items := FourBeats;
    FourBeatsKeys();
    FourBeatsChord();
    assert Releases([74, 77], 960) == [Placed(960, Off(74)), Placed(960, Off(77))] by {
      assert [74, 77][..1] == [74];
      assert [74][..0] == [];
    }
    assert PlayAt(items, 2, FourBeats1).Value? && PlayAt(items, 2, FourBeats1).value.0.log == FourBeats2.log;
  }

  lemma FourBeatsThird()
    ensures StepAt(FourBeats, 5, FourBeats2) == Value((FourBeats3, 6))
  {
    var items := FourBeats;
    FourBeatsKeys();
    assert ChordEnd(items, 6) == 6;
    assert ChordOns(items, 6, 6, 960) == Value(([], []));
    assert Releases([], 1440) == [];
    assert PlayAt(items, 5, FourBeats2).Value? && PlayAt(items, 5, FourBeats2).value.0.log == FourBeats3.log;
  }

  const FourBeats4 := FourBeats3.(position := 1920)

  /** The attributes set one division per quarter; the closing rest only moves the cursor. */
  lemma FourBeatsEnds()
    ensures StepAt(FourBeats, 0, Start) == Value((Sched(1.0, 0, []), 1))
    ensures StepAt(FourBeats, 6, FourBeats3) == Value((FourBeats4, 7))
  {
    FourBeatsKeys();
  }

  lemma FourBeatsRun()
    ensures Run(FourBeats) == Value(FourBeats4)
  {
    var items := FourBeats;
    FourBeatsEnds();
    FourBeatsFirst();
    FourBeatsSecond();
    FourBeatsThird();
    assert RunFrom(items, 7, FourBeats4) == Value(FourBeats4);
    assert RunFrom(items, 6, FourBeats3) == Value(FourBeats4);
    assert RunFrom(items, 5, FourBeats2) == Value(FourBeats4);
    assert RunFrom(items, 2, FourBeats1) == Value(FourBeats4);
    assert RunFrom(items, 1, Sched(1.0, 0, [])) == Value(FourBeats4);
  }

  /** Each quarter lasts 480 ticks; the chord notes sound and stop with A4; the
      rest only moves the cursor, to 1920. The log is grouped by the pitched note
      that filed it. */
  lemma FourBeatsSchedule()
    ensures Run(FourBeats) == Value(Sched(1.0, 1920,
      [Placed(0, On(67)), Placed(480, Off(67))] +
      [Placed(480, On(69)), Placed(480, On(74)), Placed(480, On(77)),
       Placed(960, Off(69)), Placed(960, Off(74)), Placed(960, Off(77))] +
      [Placed(960, On(67)), Placed(1440, Off(67))]))
  {
    FourBeatsRun();
  }
}
