/** The containers of src/musicxml.rs: score-partwise holds parts, a part holds
    measures, a measure holds the items the converter consumes. */
module Score {
  import opened Xml
  import opened Elements
  import opened Notes

  datatype MeasureItem =
    | PrintItem(printed: Print)
    | AttributesItem(attributes: Attributes)
    | NoteItem(note: Note)
    | BarlineItem(barline: Barline)
    | BackupItem(backup: Backup)
    | DirectionItem(direction: Direction)

  datatype Measure = Measure(content: seq<MeasureItem>)
  datatype Part = Part(measure: seq<Measure>)
  datatype ScorePartwise = ScorePartwise(part: seq<Part>)

  /** The child names a measure turns into items. */
  predicate IsItemName(n: string) {
    n in {"print", "attributes", "note", "barline", "backup", "direction"}
  }

  /** The item parser for a recognised child of a measure. */
  function ItemAt(toks: seq<Token>, pos: nat, n: string): (r: Parsed<MeasureItem>)
    requires pos <= |toks| && IsItemName(n)
    ensures r.Done? ==> pos < r.next <= |toks| && toks[r.next - 1] == End(n)
    ensures r.Done? ==> (n == "print" <==> r.value.PrintItem?)
    ensures r.Done? ==> (n == "attributes" <==> r.value.AttributesItem?)
    ensures r.Done? ==> (n == "note" <==> r.value.NoteItem?)
    ensures r.Done? ==> (n == "barline" <==> r.value.BarlineItem?)
    ensures r.Done? ==> (n == "backup" <==> r.value.BackupItem?)
    ensures r.Done? ==> (n == "direction" <==> r.value.DirectionItem?)
  {
    if n == "print" then
      match PrintAt(toks, pos, n)
      case Fail(e) => Fail(e)
      case Done(x, m) => Done(PrintItem(x), m)
    else if n == "attributes" then
      match AttributesAt(toks, pos, n)
      case Fail(e) => Fail(e)
      case Done(x, m) => Done(AttributesItem(x), m)
    else if n == "note" then
      match NoteAt(toks, pos, n)
      case Fail(e) => Fail(e)
      case Done(x, m) => Done(NoteItem(x), m)
    else if n == "barline" then
      match BarlineAt(toks, pos, n)
      case Fail(e) => Fail(e)
      case Done(x, m) => Done(BarlineItem(x), m)
    else if n == "backup" then
      match BackupAt(toks, pos, n)
      case Fail(e) => Fail(e)
      case Done(x, m) => Done(BackupItem(x), m)
    else
      match DirectionAt(toks, pos, n)
      case Fail(e) => Fail(e)
      case Done(x, m) => Done(DirectionItem(x), m)
  }

  /** One child of `measure`, read from just after its start tag: the content so far. */
  function MeasureChild(toks: seq<Token>, pos: nat, n: string, content: seq<MeasureItem>): (r: Parsed<seq<MeasureItem>>)
    requires pos <= |toks|
    ensures r.Done? ==> pos <= r.next <= |toks| && content <= r.value
  {
    if IsItemName(n) then
      (match ItemAt(toks, pos, n)
       case Fail(e) => Fail(e)
       case Done(x, next) => Done(content + [x], next))
    else
      (match Skip(toks, pos, n)
       case None => Fail(Panic(SkipEof(n)))
       case Some(next) => Done(content, next))
  }

  function MeasureLoop(toks: seq<Token>, pos: nat, name: string, content: seq<MeasureItem>): (r: Parsed<Measure>)
    requires pos <= |toks|
    ensures r.Done? ==> pos < r.next <= |toks| && toks[r.next - 1] == End(name)
    ensures r.Done? ==> content <= r.value.content
    decreases |toks| - pos
  {
    if pos == |toks| then Fail(UnexpectedEof)
    else match toks[pos]
      case Start(n, _) =>
        (match MeasureChild(toks, pos + 1, n, content)
         case Fail(e) => Fail(e)
         case Done(x, next) => MeasureLoop(toks, next, name, x))
      case End(n) =>
        if n != name then Fail(Panic(EndMismatch(name, n))) else Done(Measure(content), pos + 1)
      case _ => MeasureLoop(toks, pos + 1, name, content)
  }

  /** Measure::parse: one item per recognised child, in document order. */
  function MeasureAt(toks: seq<Token>, pos: nat, name: string): (r: Parsed<Measure>)
    requires pos <= |toks|
    ensures r.Done? ==> pos < r.next <= |toks| && toks[r.next - 1] == End(name)
  {
    MeasureLoop(toks, pos, name, [])
  }

  /** One child of `part`, read from just after its start tag: the measures so far. */
  function PartChild(toks: seq<Token>, pos: nat, n: string, measures: seq<Measure>): (r: Parsed<seq<Measure>>)
    requires pos <= |toks|
    ensures r.Done? ==> pos <= r.next <= |toks| && measures <= r.value
  {
    if n == "measure" then
      (match MeasureAt(toks, pos, n)
       case Fail(e) => Fail(e)
       case Done(x, next) => Done(measures + [x], next))
    else
      (match Skip(toks, pos, n)
       case None => Fail(Panic(SkipEof(n)))
       case Some(next) => Done(measures, next))
  }

  function PartLoop(toks: seq<Token>, pos: nat, name: string, measures: seq<Measure>): (r: Parsed<Part>)
    requires pos <= |toks|
    ensures r.Done? ==> pos < r.next <= |toks| && toks[r.next - 1] == End(name)
    ensures r.Done? ==> measures <= r.value.measure
    decreases |toks| - pos
  {
    if pos == |toks| then Fail(UnexpectedEof)
    else match toks[pos]
      case Start(n, _) =>
        (match PartChild(toks, pos + 1, n, measures)
         case Fail(e) => Fail(e)
         case Done(x, next) => PartLoop(toks, next, name, x))
      case End(n) =>
        if n != name then Fail(Panic(EndMismatch(name, n))) else Done(Part(measures), pos + 1)
      case _ => PartLoop(toks, pos + 1, name, measures)
  }

  /** Part::parse: the measures in document order. */
  function PartAt(toks: seq<Token>, pos: nat, name: string): (r: Parsed<Part>)
    requires pos <= |toks|
    ensures r.Done? ==> pos < r.next <= |toks| && toks[r.next - 1] == End(name)
  {
    PartLoop(toks, pos, name, [])
  }

  /** One child of `score-partwise`, read from just after its start tag: the parts so far. */
  function ScoreChild(toks: seq<Token>, pos: nat, n: string, parts: seq<Part>): (r: Parsed<seq<Part>>)
    requires pos <= |toks|
    ensures r.Done? ==> pos <= r.next <= |toks| && parts <= r.value
  {
    if n == "part" then
      (match PartAt(toks, pos, n)
       case Fail(e) => Fail(e)
       case Done(x, next) => Done(parts + [x], next))
    else
      (match Skip(toks, pos, n)
       case None => Fail(Panic(SkipEof(n)))
       case Some(next) => Done(parts, next))
  }

  function ScoreLoop(toks: seq<Token>, pos: nat, name: string, parts: seq<Part>): (r: Parsed<ScorePartwise>)
    requires pos <= |toks|
    ensures r.Done? ==> pos < r.next <= |toks| && toks[r.next - 1] == End(name)
    ensures r.Done? ==> parts <= r.value.part
    decreases |toks| - pos
  {
    if pos == |toks| then Fail(UnexpectedEof)
    else match toks[pos]
      case Start(n, _) =>
        (match ScoreChild(toks, pos + 1, n, parts)
         case Fail(e) => Fail(e)
         case Done(x, next) => ScoreLoop(toks, next, name, x))
      case End(n) =>
        if n != name then Fail(Panic(EndMismatch(name, n))) else Done(ScorePartwise(parts), pos + 1)
      case _ => ScoreLoop(toks, pos + 1, name, parts)
  }

  /** ScorePartwise::parse: the parts in document order. */
  function ScoreAt(toks: seq<Token>, pos: nat, name: string): (r: Parsed<ScorePartwise>)
    requires pos <= |toks|
    ensures r.Done? ==> pos < r.next <= |toks| && toks[r.next - 1] == End(name)
  {
    ScoreLoop(toks, pos, name, [])
  }

  // ---------------------------------------------------------------- the reader methods

  method ParseItem(r: Reader, n: string) returns (res: Result<MeasureItem>)
    requires r.Valid() && IsItemName(n)
    modifies r
    ensures r.Valid() && old(r.pos) <= r.pos
    ensures Agrees(res, r.pos, ItemAt(r.toks, old(r.pos), n))
  {
    if n == "print" {
      var x := ParsePrint(r, n);
      if x.Err? {
        return Err(x.error);
      }
      return Ok(PrintItem(x.value));
    } else if n == "attributes" {
      var x := ParseAttributes(r, n);
      if x.Err? {
        return Err(x.error);
      }
      return Ok(AttributesItem(x.value));
    } else if n == "note" {
      var x := ParseNote(r, n);
      if x.Err? {
        return Err(x.error);
      }
      return Ok(NoteItem(x.value));
    } else if n == "barline" {
      var x := ParseBarline(r, n);
      if x.Err? {
        return Err(x.error);
      }
      return Ok(BarlineItem(x.value));
    } else if n == "backup" {
      var x := ParseBackup(r, n);
      if x.Err? {
        return Err(x.error);
      }
      return Ok(BackupItem(x.value));
    } else {
      var x := ParseDirection(r, n);
      if x.Err? {
        return Err(x.error);
      }
      return Ok(DirectionItem(x.value));
    }
  }

  method ParseMeasure(r: Reader, name: string) returns (res: Result<Measure>)
    requires r.Valid()
    modifies r
    ensures r.Valid() && old(r.pos) <= r.pos
    ensures Agrees(res, r.pos, MeasureAt(r.toks, old(r.pos), name))
  {
    var content: seq<MeasureItem> := [];
    while true
      invariant r.Valid() && old(r.pos) <= r.pos
      invariant MeasureLoop(r.toks, r.pos, name, content) == MeasureAt(r.toks, old(r.pos), name)
      decreases |r.toks| - r.pos
    {
      var e := r.ReadEvent();
      match e {
        case None =>
          return Err(UnexpectedEof);
        case Some(Start(n, _)) =>
          if IsItemName(n) {
            var item := ParseItem(r, n);
            if item.Err? {
              return Err(item.error);
            }
            content := content + [item.value];
          } else {
            var ok := r.ReadToEnd(n);
            if !ok {
              return Err(Panic(SkipEof(n)));
            }
          }
        case Some(End(n)) =>
          if n != name {
            return Err(Panic(EndMismatch(name, n)));
          }
          return Ok(Measure(content));
        case Some(_) =>
      }
    }
  }

  method ParsePart(r: Reader, name: string) returns (res: Result<Part>)
    requires r.Valid()
    modifies r
    ensures r.Valid() && old(r.pos) <= r.pos
    ensures Agrees(res, r.pos, PartAt(r.toks, old(r.pos), name))
  {
    var measures: seq<Measure> := [];
    while true
      invariant r.Valid() && old(r.pos) <= r.pos
      invariant PartLoop(r.toks, r.pos, name, measures) == PartAt(r.toks, old(r.pos), name)
      decreases |r.toks| - r.pos
    {
      var e := r.ReadEvent();
      match e {
        case None =>
          return Err(UnexpectedEof);
        case Some(Start(n, _)) =>
          if n == "measure" {
            var m := ParseMeasure(r, n);
            if m.Err? {
              return Err(m.error);
            }
            measures := measures + [m.value];
          } else {
            var ok := r.ReadToEnd(n);
            if !ok {
              return Err(Panic(SkipEof(n)));
            }
          }
        case Some(End(n)) =>
          if n != name {
            return Err(Panic(EndMismatch(name, n)));
          }
          return Ok(Part(measures));
        case Some(_) =>
      }
    }
  }

  method ParseScore(r: Reader, name: string) returns (res: Result<ScorePartwise>)
    requires r.Valid()
    modifies r
    ensures r.Valid() && old(r.pos) <= r.pos
    ensures Agrees(res, r.pos, ScoreAt(r.toks, old(r.pos), name))
  {
    var parts: seq<Part> := [];
    while true
      invariant r.Valid() && old(r.pos) <= r.pos
      invariant ScoreLoop(r.toks, r.pos, name, parts) == ScoreAt(r.toks, old(r.pos), name)
      decreases |r.toks| - r.pos
    {
      var e := r.ReadEvent();
      match e {
        case None =>
          return Err(UnexpectedEof);
        case Some(Start(n, _)) =>
          if n == "part" {
            var p := ParsePart(r, n);
            if p.Err? {
              return Err(p.error);
            }
            parts := parts + [p.value];
          } else {
            var ok := r.ReadToEnd(n);
            if !ok {
              return Err(Panic(SkipEof(n)));
            }
          }
        case Some(End(n)) =>
          if n != name {
            return Err(Panic(EndMismatch(name, n)));
          }
          return Ok(ScorePartwise(parts));
        case Some(_) =>
      }
    }
  }

  // ---------------------------------------------------------------- the converter's view

  /** The measure items of all parts, part by part and measure by measure, in order. */
  function Items(score: ScorePartwise): seq<MeasureItem> {
    PartsItems(score.part)
  }

  function PartsItems(parts: seq<Part>): seq<MeasureItem> {
    if parts == [] then [] else PartsItems(parts[..|parts| - 1]) + MeasuresItems(parts[|parts| - 1].measure)
  }

  function MeasuresItems(measures: seq<Measure>): seq<MeasureItem> {
    if measures == [] then [] else MeasuresItems(measures[..|measures| - 1]) + measures[|measures| - 1].content
  }

  /** Flattening keeps every measure's items together and in order. */
  lemma {:induction false} MeasuresItemsAppend(a: seq<Measure>, b: seq<Measure>)
    ensures MeasuresItems(a + b) == MeasuresItems(a) + MeasuresItems(b)
    decreases |b|
  {
    if b == [] {
      assert a + b == a;
    } else {
      var b' := b[..|b| - 1];
      assert (a + b)[..|a + b| - 1] == a + b';
      assert (a + b)[|a + b| - 1] == b[|b| - 1];
      MeasuresItemsAppend(a, b');
    }
  }
}
