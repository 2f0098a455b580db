/** The element parsers of src/musicxml.rs read against a description of the
    element's children: a sequence of text-only children for the leaf elements,
    a sequence of settings for attributes, a sequence of parsed blocks for the
    containers. Each lemma says what the parser makes of any such layout: which
    child decides each field, which errors the source raises for a missing or
    unreadable child, and that end of input before the element's end tag is
    UnexpectedEof. */
module Layout {
  import opened Xml
  import opened Primitive
  import opened Elements
  import opened Notes
  import opened Score

  // ================================================================ text-only children

  /** The tokens of text-only children, each `<key>value</key>`, in order. */
  function TextTokens(cs: seq<Attr>): (ts: seq<Token>)
    ensures |ts| == 3 * |cs|
  {
    if cs == [] then []
    else [Token.Start(cs[0].key, []), Text(cs[0].value), End(cs[0].key)] + TextTokens(cs[1..])
  }

  /** The children `cs` from `pos` on, each a text-only element `<key>value</key>`
      written as a (name, text) pair, in order. */
  predicate TextChildren(toks: seq<Token>, pos: nat, cs: seq<Attr>) {
    pos + 3 * |cs| <= |toks| && toks[pos..pos + 3 * |cs|] == TextTokens(cs)
  }

  /** The text-only element `<key>value</key>` at `pos`. */
  predicate TextElementAt(toks: seq<Token>, pos: nat, c: Attr) {
    pos + 3 <= |toks| && toks[pos] == Token.Start(c.key, []) &&
    toks[pos + 1] == Text(c.value) && toks[pos + 2] == End(c.key)
  }

  /** The first child, and the rest after it. */
  lemma TextChildrenSplit(toks: seq<Token>, pos: nat, cs: seq<Attr>)
    requires TextChildren(toks, pos, cs) && cs != []
    ensures TextChildren(toks, pos, [cs[0]]) && TextChildren(toks, pos + 3, cs[1..])
  {
    var all := toks[pos..pos + 3 * |cs|];
    assert [cs[0]][1..] == [];
    assert TextTokens([cs[0]]) == TextTokens(cs)[..3];
    assert toks[pos..pos + 3] == all[..3];
    assert toks[pos + 3..pos + 3 * |cs|] == all[3..];
  }

  lemma TextChildHead(toks: seq<Token>, pos: nat, c: Attr)
    requires TextChildren(toks, pos, [c])
    ensures TextElementAt(toks, pos, c)
  {
    assert [c][1..] == [];
    assert toks[pos..pos + 3][0] == toks[pos];
    assert toks[pos..pos + 3][1] == toks[pos + 1];
    assert toks[pos..pos + 3][2] == toks[pos + 2];
  }

  /** The text and end tag of a text-only element, read from just after its start tag. */
  lemma TextElementRead(toks: seq<Token>, pos: nat, n: string, t: string)
    requires pos + 2 <= |toks| && toks[pos] == Text(t) && toks[pos + 1] == End(n)
    ensures Skip(toks, pos, n) == Some(pos + 2)
    ensures ReadTextAt(toks, pos, n) == (Some(t), pos + 2)
  {
    assert SkipFrom(toks, pos + 1, n, 0) == Some(pos + 2);
    assert toks[pos..pos + 1] == [Text(t)];
    assert [Text(t)][1..] == [];
    assert TextOf([Text(t)]) == t + [];
    assert t + [] == t;
  }

  /** Reassigning from the front: the first child's assignment is the starting
      value of the rest. */
  lemma {:induction false} AssignedCons<T>(c: Attr, rest: seq<Attr>, key: string, decode: string -> T, init: T)
    ensures Assigned([c] + rest, key, decode, init)
            == Assigned(rest, key, decode, if c.key == key then decode(c.value) else init)
    decreases |rest|
  {
    if rest == [] {
      assert [c] + rest == [c];
      assert [c][..0] == [];
    } else {
      var all := [c] + rest;
      assert all[..|all| - 1] == [c] + rest[..|rest| - 1];
      assert all[|all| - 1] == rest[|rest| - 1];
      AssignedCons(c, rest[..|rest| - 1], key, decode, init);
    }
  }

  /** A reference outcome as a parser outcome ending at `next`. */
  function Finished<T>(r: Result<T>, next: nat): (p: Parsed<T>)
    ensures p.Done? <==> r.Ok?
  {
    match r
    case Ok(v) => Done(v, next)
    case Err(e) => Fail(e)
  }

  // ---------------------------------------------------------------- backup

  /** The duration a backup's children assign, starting from `d`. */
  function BackupFold(cs: seq<Attr>, d: Option<real>): Option<real> {
    Assigned(cs, "duration", ParseDecimal, d)
  }

  /** What Backup::parse makes of text-only children: the last duration child. */
  function BackupOf(cs: seq<Attr>): (r: Result<Backup>)
    ensures r.Err? ==> r.error == MissingTag("duration")
  {
    var d := BackupFold(cs, None);
    if d.None? then Err(MissingTag("duration")) else Ok(Backup(d.value))
  }

  function BackupAssign(c: Attr, d: Option<real>): Option<real> {
    if c.key == "duration" then ParseDecimal(c.value) else d
  }

  lemma BackupFoldCons(cs: seq<Attr>, d: Option<real>)
    requires cs != []
    ensures BackupFold(cs, d) == BackupFold(cs[1..], BackupAssign(cs[0], d))
  {
    assert [cs[0]] + cs[1..] == cs;
    AssignedCons(cs[0], cs[1..], "duration", ParseDecimal, d);
  }

  /** One pass of the loop over the first child. */
  lemma BackupStep(toks: seq<Token>, pos: nat, name: string, cs: seq<Attr>, d: Option<real>)
    requires TextChildren(toks, pos, cs) && cs != []
    ensures TextChildren(toks, pos + 3, cs[1..])
    ensures BackupLoop(toks, pos, name, d) == BackupLoop(toks, pos + 3, name, BackupAssign(cs[0], d))
  {
    TextChildrenSplit(toks, pos, cs);
    TextChildHead(toks, pos, cs[0]);
    TextElementRead(toks, pos + 1, cs[0].key, cs[0].value);
  }

  lemma {:induction false} BackupChildren(toks: seq<Token>, pos: nat, name: string, cs: seq<Attr>, d: Option<real>)
    requires TextChildren(toks, pos, cs)
    ensures BackupLoop(toks, pos, name, d) == BackupLoop(toks, pos + 3 * |cs|, name, BackupFold(cs, d))
    decreases |cs|
  {
    if cs != [] {
      var rest := cs[1..];
      var next := BackupAssign(cs[0], d);
      assert pos + 3 + 3 * |rest| == pos + 3 * |cs|;
      BackupStep(toks, pos, name, cs, d);
      BackupChildren(toks, pos + 3, name, rest, next);
      BackupFoldCons(cs, d);
    }
  }

  /** Backup::parse: the last duration child decides, a backup without a readable
      duration is MissingTag("duration"), and end of input before the end tag is
      UnexpectedEof. */
  lemma BackupFromChildren(toks: seq<Token>, pos: nat, name: string, cs: seq<Attr>)
    requires TextChildren(toks, pos, cs)
    ensures pos + 3 * |cs| == |toks| ==> BackupAt(toks, pos, name) == Fail(UnexpectedEof)
    ensures pos + 3 * |cs| < |toks| && toks[pos + 3 * |cs|] == End(name) ==>
              BackupAt(toks, pos, name) == Finished(BackupOf(cs), pos + 3 * |cs| + 1)
  {
    BackupChildren(toks, pos, name, cs, None);
  }

  // ---------------------------------------------------------------- key

  /** The fifths a key's children assign, starting from `f`. */
  function KeyFold(cs: seq<Attr>, f: Option<string>): Option<string> {
    Assigned(cs, "fifths", SomeText, f)
  }

  /** What Key::parse makes of text-only children: the last fifths child. */
  function KeyOf(cs: seq<Attr>): (r: Result<Key>)
    ensures r.Err? ==> r.error == MissingTag("fifths")
  {
    var f := KeyFold(cs, None);
    if f.None? then Err(MissingTag("fifths")) else Ok(Key(f.value))
  }

  function KeyAssign(c: Attr, f: Option<string>): Option<string> {
    if c.key == "fifths" then Some(c.value) else f
  }

  lemma KeyFoldCons(cs: seq<Attr>, f: Option<string>)
    requires cs != []
    ensures KeyFold(cs, f) == KeyFold(cs[1..], KeyAssign(cs[0], f))
  {
    assert [cs[0]] + cs[1..] == cs;
    AssignedCons(cs[0], cs[1..], "fifths", SomeText, f);
  }

  /** One pass of the loop over the first child. */
  lemma KeyStep(toks: seq<Token>, pos: nat, name: string, cs: seq<Attr>, f: Option<string>)
    requires TextChildren(toks, pos, cs) && cs != []
    ensures TextChildren(toks, pos + 3, cs[1..])
    ensures KeyLoop(toks, pos, name, f) == KeyLoop(toks, pos + 3, name, KeyAssign(cs[0], f))
  {
    TextChildrenSplit(toks, pos, cs);
    TextChildHead(toks, pos, cs[0]);
    TextElementRead(toks, pos + 1, cs[0].key, cs[0].value);
  }

  lemma {:induction false} KeyChildren(toks: seq<Token>, pos: nat, name: string, cs: seq<Attr>, f: Option<string>)
    requires TextChildren(toks, pos, cs)
    ensures KeyLoop(toks, pos, name, f) == KeyLoop(toks, pos + 3 * |cs|, name, KeyFold(cs, f))
    decreases |cs|
  {
    if cs != [] {
      var rest := cs[1..];
      var next := KeyAssign(cs[0], f);
      assert pos + 3 + 3 * |rest| == pos + 3 * |cs|;
      KeyStep(toks, pos, name, cs, f);
      KeyChildren(toks, pos + 3, name, rest, next);
      KeyFoldCons(cs, f);
    }
  }

  /** Key::parse: the last fifths child decides, a key without one is
      MissingTag("fifths"), and end of input before the end tag is UnexpectedEof. */
  lemma KeyFromChildren(toks: seq<Token>, pos: nat, name: string, cs: seq<Attr>)
    requires TextChildren(toks, pos, cs)
    ensures pos + 3 * |cs| == |toks| ==> KeyAt(toks, pos, name) == Fail(UnexpectedEof)
    ensures pos + 3 * |cs| < |toks| && toks[pos + 3 * |cs|] == End(name) ==>
              KeyAt(toks, pos, name) == Finished(KeyOf(cs), pos + 3 * |cs| + 1)
  {
    KeyChildren(toks, pos, name, cs, None);
  }

  // ---------------------------------------------------------------- time

  /** The beats and beat type a time's children assign, starting from `acc`. */
  function TimeFold(cs: seq<Attr>, acc: TimeParts): TimeParts {
    TimeParts(Assigned(cs, "beats", SomeText, acc.beats), Assigned(cs, "beat-type", SomeText, acc.beatType))
  }

  /** What Time::parse makes of text-only children: the last beats and beat-type
      children; a missing one aborts. */
  function TimeOf(cs: seq<Attr>): (r: Result<Time>)
    ensures r.Err? ==> r.error in {Panic(MissingBeats), Panic(MissingBeatType)}
  {
    var parts := TimeFold(cs, TimeParts(None, None));
    if parts.beats.None? then Err(Panic(MissingBeats))
    else if parts.beatType.None? then Err(Panic(MissingBeatType))
    else Ok(Time(parts.beats.value, parts.beatType.value))
  }

  function TimeAssign(c: Attr, acc: TimeParts): TimeParts {
    if c.key == "beats" then acc.(beats := Some(c.value))
    else if c.key == "beat-type" then acc.(beatType := Some(c.value))
    else acc
  }

  lemma TimeFoldCons(cs: seq<Attr>, acc: TimeParts)
    requires cs != []
    ensures TimeFold(cs, acc) == TimeFold(cs[1..], TimeAssign(cs[0], acc))
  {
    assert [cs[0]] + cs[1..] == cs;
    AssignedCons(cs[0], cs[1..], "beats", SomeText, acc.beats);
    AssignedCons(cs[0], cs[1..], "beat-type", SomeText, acc.beatType);
  }

  /** One pass of the loop over the first child. */
  lemma TimeStep(toks: seq<Token>, pos: nat, name: string, cs: seq<Attr>, acc: TimeParts)
    requires TextChildren(toks, pos, cs) && cs != []
    ensures TextChildren(toks, pos + 3, cs[1..])
    ensures TimeLoop(toks, pos, name, acc) == TimeLoop(toks, pos + 3, name, TimeAssign(cs[0], acc))
  {
    TextChildrenSplit(toks, pos, cs);
    TextChildHead(toks, pos, cs[0]);
    TextElementRead(toks, pos + 1, cs[0].key, cs[0].value);
  }

  lemma {:induction false} TimeChildren(toks: seq<Token>, pos: nat, name: string, cs: seq<Attr>, acc: TimeParts)
    requires TextChildren(toks, pos, cs)
    ensures TimeLoop(toks, pos, name, acc) == TimeLoop(toks, pos + 3 * |cs|, name, TimeFold(cs, acc))
    decreases |cs|
  {
    if cs == [] {
      assert TimeFold(cs, acc) == acc;
    } else {
      var rest := cs[1..];
      var next := TimeAssign(cs[0], acc);
      assert pos + 3 + 3 * |rest| == pos + 3 * |cs|;
      TimeStep(toks, pos, name, cs, acc);
      TimeChildren(toks, pos + 3, name, rest, next);
      TimeFoldCons(cs, acc);
    }
  }

  /** Time::parse: the last beats and beat-type children decide, a missing one
      aborts, and end of input before the end tag is UnexpectedEof. */
  lemma TimeFromChildren(toks: seq<Token>, pos: nat, name: string, cs: seq<Attr>)
    requires TextChildren(toks, pos, cs)
    ensures pos + 3 * |cs| == |toks| ==> TimeAt(toks, pos, name) == Fail(UnexpectedEof)
    ensures pos + 3 * |cs| < |toks| && toks[pos + 3 * |cs|] == End(name) ==>
              TimeAt(toks, pos, name) == Finished(TimeOf(cs), pos + 3 * |cs| + 1)
  {
    TimeChildren(toks, pos, name, cs, TimeParts(None, None));
  }

  // ---------------------------------------------------------------- clef

  /** The sign and line a clef's children assign, starting from `acc`. */
  function ClefFold(cs: seq<Attr>, acc: ClefParts): ClefParts {
    ClefParts(Assigned(cs, "sign", SignFromText, acc.sign), Assigned(cs, "line", ParseU8, acc.line))
  }

  /** What Clef::parse makes of text-only children: the last sign and line
      children; a missing or unknown sign aborts. */
  function ClefOf(cs: seq<Attr>): (r: Result<Clef>)
    ensures r.Err? ==> r.error == Panic(MissingSign)
  {
    var parts := ClefFold(cs, ClefParts(None, None));
    if parts.sign.None? then Err(Panic(MissingSign)) else Ok(Clef(parts.sign.value, parts.line))
  }

  function ClefAssign(c: Attr, acc: ClefParts): ClefParts {
    if c.key == "sign" then acc.(sign := SignFromText(c.value))
    else if c.key == "line" then acc.(line := ParseU8(c.value))
    else acc
  }

  lemma ClefFoldCons(cs: seq<Attr>, acc: ClefParts)
    requires cs != []
    ensures ClefFold(cs, acc) == ClefFold(cs[1..], ClefAssign(cs[0], acc))
  {
    assert [cs[0]] + cs[1..] == cs;
    AssignedCons(cs[0], cs[1..], "sign", SignFromText, acc.sign);
    AssignedCons(cs[0], cs[1..], "line", ParseU8, acc.line);
  }

  /** One pass of the loop over the first child. */
  lemma ClefStep(toks: seq<Token>, pos: nat, name: string, cs: seq<Attr>, acc: ClefParts)
    requires TextChildren(toks, pos, cs) && cs != []
    ensures TextChildren(toks, pos + 3, cs[1..])
    ensures ClefLoop(toks, pos, name, acc) == ClefLoop(toks, pos + 3, name, ClefAssign(cs[0], acc))
  {
    TextChildrenSplit(toks, pos, cs);
    TextChildHead(toks, pos, cs[0]);
    TextElementRead(toks, pos + 1, cs[0].key, cs[0].value);
  }

  lemma {:induction false} ClefChildren(toks: seq<Token>, pos: nat, name: string, cs: seq<Attr>, acc: ClefParts)
    requires TextChildren(toks, pos, cs)
    ensures ClefLoop(toks, pos, name, acc) == ClefLoop(toks, pos + 3 * |cs|, name, ClefFold(cs, acc))
    decreases |cs|
  {
    if cs == [] {
      assert ClefFold(cs, acc) == acc;
    } else {
      var rest := cs[1..];
      var next := ClefAssign(cs[0], acc);
      assert pos + 3 + 3 * |rest| == pos + 3 * |cs|;
      ClefStep(toks, pos, name, cs, acc);
      ClefChildren(toks, pos + 3, name, rest, next);
      ClefFoldCons(cs, acc);
    }
  }

  /** Clef::parse: the last sign and line children decide, a missing or unknown
      sign aborts, and end of input before the end tag is UnexpectedEof. */
  lemma ClefFromChildren(toks: seq<Token>, pos: nat, name: string, cs: seq<Attr>)
    requires TextChildren(toks, pos, cs)
    ensures pos + 3 * |cs| == |toks| ==> ClefAt(toks, pos, name) == Fail(UnexpectedEof)
    ensures pos + 3 * |cs| < |toks| && toks[pos + 3 * |cs|] == End(name) ==>
              ClefAt(toks, pos, name) == Finished(ClefOf(cs), pos + 3 * |cs| + 1)
  {
    ClefChildren(toks, pos, name, cs, ClefParts(None, None));
  }

  // ---------------------------------------------------------------- pitch

  /** The step, alter and octave a pitch's children assign, starting from `acc`. */
  function PitchFold(cs: seq<Attr>, acc: PitchParts): PitchParts {
    PitchParts(Assigned(cs, "step", StepFromText, acc.step),
               Assigned(cs, "alter", ParseDecimal, acc.alter),
               Assigned(cs, "octave", ParseU8, acc.octave))
  }

  /** What Pitch::parse makes of text-only children: the last step, alter and
      octave children; a missing or unreadable step or octave aborts. */
  function PitchOf(cs: seq<Attr>): (r: Result<Pitch>)
    ensures r.Err? ==> r.error in {Panic(MissingStep), Panic(MissingOctave)}
  {
    var parts := PitchFold(cs, PitchParts(None, None, None));
    if parts.step.None? then Err(Panic(MissingStep))
    else if parts.octave.None? then Err(Panic(MissingOctave))
    else Ok(Pitch(parts.step.value, parts.alter, parts.octave.value))
  }

  function PitchAssign(c: Attr, acc: PitchParts): PitchParts {
    if c.key == "step" then acc.(step := StepFromText(c.value))
    else if c.key == "alter" then acc.(alter := ParseDecimal(c.value))
    else if c.key == "octave" then acc.(octave := ParseU8(c.value))
    else acc
  }

  lemma PitchFoldCons(cs: seq<Attr>, acc: PitchParts)
    requires cs != []
    ensures PitchFold(cs, acc) == PitchFold(cs[1..], PitchAssign(cs[0], acc))
  {
    assert [cs[0]] + cs[1..] == cs;
    AssignedCons(cs[0], cs[1..], "step", StepFromText, acc.step);
    AssignedCons(cs[0], cs[1..], "alter", ParseDecimal, acc.alter);
    AssignedCons(cs[0], cs[1..], "octave", ParseU8, acc.octave);
  }

  /** One pass of the loop over the first child. */
  lemma PitchStep(toks: seq<Token>, pos: nat, name: string, cs: seq<Attr>, acc: PitchParts)
    requires TextChildren(toks, pos, cs) && cs != []
    ensures TextChildren(toks, pos + 3, cs[1..])
    ensures PitchLoop(toks, pos, name, acc) == PitchLoop(toks, pos + 3, name, PitchAssign(cs[0], acc))
  {
    TextChildrenSplit(toks, pos, cs);
    TextChildHead(toks, pos, cs[0]);
    TextElementRead(toks, pos + 1, cs[0].key, cs[0].value);
  }

  lemma {:induction false} PitchChildren(toks: seq<Token>, pos: nat, name: string, cs: seq<Attr>, acc: PitchParts)
    requires TextChildren(toks, pos, cs)
    ensures PitchLoop(toks, pos, name, acc) == PitchLoop(toks, pos + 3 * |cs|, name, PitchFold(cs, acc))
    decreases |cs|
  {
    if cs == [] {
      assert PitchFold(cs, acc) == acc;
    } else {
      var rest := cs[1..];
      var next := PitchAssign(cs[0], acc);
      assert pos + 3 + 3 * |rest| == pos + 3 * |cs|;
      PitchStep(toks, pos, name, cs, acc);
      PitchChildren(toks, pos + 3, name, rest, next);
      PitchFoldCons(cs, acc);
    }
  }

  /** Pitch::parse: the last step, alter and octave children decide, a missing
      step or octave aborts, and end of input before the end tag is UnexpectedEof. */
  lemma PitchFromChildren(toks: seq<Token>, pos: nat, name: string, cs: seq<Attr>)
    requires TextChildren(toks, pos, cs)
    ensures pos + 3 * |cs| == |toks| ==> PitchAt(toks, pos, name) == Fail(UnexpectedEof)
    ensures pos + 3 * |cs| < |toks| && toks[pos + 3 * |cs|] == End(name) ==>
              PitchAt(toks, pos, name) == Finished(PitchOf(cs), pos + 3 * |cs| + 1)
  {
    PitchChildren(toks, pos, name, cs, PitchParts(None, None, None));
  }

  // ================================================================ written children

  /** Children written out as tokens are laid out where they are written, so the
      element lemmas above apply to them. */
  lemma TextTokensLaid(pre: seq<Token>, cs: seq<Attr>, post: seq<Token>)
    ensures TextChildren(pre + TextTokens(cs) + post, |pre|, cs)
  {
    var toks := pre + TextTokens(cs) + post;
    assert toks[|pre|..|pre| + 3 * |cs|] == TextTokens(cs);
  }

  /** The decimal rendering of an integer, with a minus sign when negative. */
  function IntString(k: int): string {
    if k < 0 then "-" + NatString(-k) else NatString(k)
  }

  lemma IntStringParses(k: int)
    ensures ParseDecimal(IntString(k)) == Some(k as real)
  {
    if k < 0 {
      var s := IntString(k);
      NatStringParses(-k);
      assert s[1..] == NatString(-k);
      var d := NatString(-k);
      assert IsDigit(d[0]);
      assert ParseDecimal(d) == ParseMagnitude(d);
    } else {
      NatStringParses(k);
    }
  }

  function AsReal(k: Option<int>): Option<real> {
    match k
    case None => None
    case Some(v) => Some(v as real)
  }

  /** The children of a written `<pitch>`: step, an optional whole-number alter, octave. */
  function PitchWritten(step: Step, alter: Option<int>, octave: U8): seq<Attr> {
    [Attr("step", StepName(step))]
    + (if alter.Some? then [Attr("alter", IntString(alter.value))] else [])
    + [Attr("octave", NatString(octave))]
  }

  /** A written pitch reads back as the same pitch. */
  lemma PitchRoundTrip(step: Step, alter: Option<int>, octave: U8)
    ensures PitchOf(PitchWritten(step, alter, octave)) == Ok(Pitch(step, AsReal(alter), octave))
  {
    var cs := PitchWritten(step, alter, octave);
    StepRoundTrip(step);
    NatStringParses(octave);
    AssignedIsLast(cs, "step", StepFromText, None, 0);
    AssignedIsLast(cs, "octave", ParseU8, None, |cs| - 1);
    if alter.Some? {
      IntStringParses(alter.value);
      AssignedIsLast(cs, "alter", ParseDecimal, None, 1);
    } else {
      AssignedAbsent(cs, "alter", ParseDecimal, None);
    }
  }

  /** The children of a written `<clef>`: sign and an optional line. */
  function ClefWritten(sign: ClefSign, line: Option<U8>): seq<Attr> {
    [Attr("sign", ClefSignName(sign))]
    + (if line.Some? then [Attr("line", NatString(line.value))] else [])
  }

  /** A written clef reads back as the same clef. */
  lemma ClefRoundTrip(sign: ClefSign, line: Option<U8>)
    ensures ClefOf(ClefWritten(sign, line)) == Ok(Clef(sign, line))
  {
    var cs := ClefWritten(sign, line);
    ClefSignRoundTrip(sign);
    AssignedIsLast(cs, "sign", SignFromText, None, 0);
    if line.Some? {
      NatStringParses(line.value);
      AssignedIsLast(cs, "line", ParseU8, None, 1);
    } else {
      AssignedAbsent(cs, "line", ParseU8, None);
    }
  }

  /** A written backup of a whole number of divisions reads back as that duration. */
  lemma BackupRoundTrip(duration: nat)
    ensures BackupOf([Attr("duration", NatString(duration))]) == Ok(Backup(duration as real))
  {
    NatStringParses(duration);
    AssignedIsLast([Attr("duration", NatString(duration))], "duration", ParseDecimal, None, 0);
  }

  /** A written time signature reads back as the same beats and beat type. */
  lemma TimeRoundTrip(beats: string, beatType: string)
    ensures TimeOf([Attr("beats", beats), Attr("beat-type", beatType)]) == Ok(Time(beats, beatType))
  {
    var cs := [Attr("beats", beats), Attr("beat-type", beatType)];
    AssignedIsLast(cs, "beats", SomeText, None, 0);
    AssignedIsLast(cs, "beat-type", SomeText, None, 1);
  }

  // ================================================================ attributes

  /** A child of `attributes`: a text-only element (a divisions or an element the
      parser skips), or a key, time or clef with text-only children. */
  datatype Setting =
    | Plain(child: Attr)
    | KeyBlock(keyChildren: seq<Attr>)
    | TimeBlock(timeChildren: seq<Attr>)
    | ClefBlock(clefChildren: seq<Attr>)

  function SettingSize(s: Setting): nat {
    match s
    case Plain(_) => 3
    case KeyBlock(cs) => 3 * |cs| + 2
    case TimeBlock(cs) => 3 * |cs| + 2
    case ClefBlock(cs) => 3 * |cs| + 2
  }

  /** An element `name` with text-only children `cs`, from `pos` on. */
  predicate BlockAt(toks: seq<Token>, pos: nat, name: string, cs: seq<Attr>) {
    pos + 3 * |cs| + 2 <= |toks| && toks[pos] == Token.Start(name, []) &&
    TextChildren(toks, pos + 1, cs) && toks[pos + 3 * |cs| + 1] == End(name)
  }

  /** The setting `s` at `pos`; a plain child is not one the parser reads as a block. */
  predicate SettingAt(toks: seq<Token>, pos: nat, s: Setting) {
    match s
    case Plain(c) => c.key !in {"key", "time", "clef"} && TextChildren(toks, pos, [c])
    case KeyBlock(cs) => BlockAt(toks, pos, "key", cs)
    case TimeBlock(cs) => BlockAt(toks, pos, "time", cs)
    case ClefBlock(cs) => BlockAt(toks, pos, "clef", cs)
  }

  /** The settings `ss` laid out one after another from `pos` on. */
  predicate SettingsAt(toks: seq<Token>, pos: nat, ss: seq<Setting>)
    decreases |ss|
  {
    ss == [] || (SettingAt(toks, pos, ss[0]) && SettingsAt(toks, pos + SettingSize(ss[0]), ss[1..]))
  }

  function SettingsEnd(pos: nat, ss: seq<Setting>): nat
    decreases |ss|
  {
    if ss == [] then pos else SettingsEnd(pos + SettingSize(ss[0]), ss[1..])
  }

  /** What Attributes::parse makes of one child, starting from `acc`: a divisions
      replaces the divisions, a key, time or clef is appended (or its error stops
      the parse), anything else leaves `acc` as it is. */
  function SettleOne(s: Setting, acc: Attributes): Result<Attributes>
  {
    match s
    case Plain(c) =>
      Ok(if c.key == "divisions" then acc.(divisions := ParseDecimal(c.value)) else acc)
    case KeyBlock(cs) =>
      (match KeyOf(cs)
       case Err(e) => Err(e)
       case Ok(k) => Ok(acc.(key := acc.key + [k])))
    case TimeBlock(cs) =>
      (match TimeOf(cs)
       case Err(e) => Err(e)
       case Ok(t) => Ok(acc.(time := acc.time + [t])))
    case ClefBlock(cs) =>
      (match ClefOf(cs)
       case Err(e) => Err(e)
       case Ok(c) => Ok(acc.(clef := acc.clef + [c])))
  }

  /** What Attributes::parse makes of its children, starting from `acc`: each child
      settled in document order, the first failing one stopping the whole. */
  function Settle(ss: seq<Setting>, acc: Attributes): Result<Attributes>
    decreases |ss|
  {
    if ss == [] then Ok(acc)
    else match SettleOne(ss[0], acc)
      case Err(e) => Err(e)
      case Ok(a) => Settle(ss[1..], a)
  }

  /** A child Attributes::parse reads without error. */
  predicate Readable(s: Setting) {
    match s
    case Plain(_) => true
    case KeyBlock(cs) => KeyOf(cs).Ok?
    case TimeBlock(cs) => TimeOf(cs).Ok?
    case ClefBlock(cs) => ClefOf(cs).Ok?
  }

  /** The error a child stops the parse with. */
  function ReadError(s: Setting): Error
    requires !Readable(s)
  {
    match s
    case KeyBlock(cs) => KeyOf(cs).error
    case TimeBlock(cs) => TimeOf(cs).error
    case ClefBlock(cs) => ClefOf(cs).error
  }

  /** The text-only children, in document order. */
  function PlainChildren(ss: seq<Setting>): seq<Attr>
    decreases |ss|
  {
    if ss == [] then [] else (if ss[0].Plain? then [ss[0].child] else []) + PlainChildren(ss[1..])
  }

  /** The keys, times and clefs read, in document order. */
  function KeysIn(ss: seq<Setting>): seq<Key>
    decreases |ss|
  {
    if ss == [] then []
    else (if ss[0].KeyBlock? && KeyOf(ss[0].keyChildren).Ok? then [KeyOf(ss[0].keyChildren).value] else []) + KeysIn(ss[1..])
  }

  function TimesIn(ss: seq<Setting>): seq<Time>
    decreases |ss|
  {
    if ss == [] then []
    else (if ss[0].TimeBlock? && TimeOf(ss[0].timeChildren).Ok? then [TimeOf(ss[0].timeChildren).value] else []) + TimesIn(ss[1..])
  }

  function ClefsIn(ss: seq<Setting>): seq<Clef>
    decreases |ss|
  {
    if ss == [] then []
    else (if ss[0].ClefBlock? && ClefOf(ss[0].clefChildren).Ok? then [ClefOf(ss[0].clefChildren).value] else []) + ClefsIn(ss[1..])
  }

  /** The attributes `acc` after the children `ss`, all of them readable. */
  function Collected(ss: seq<Setting>, acc: Attributes): Attributes {
    Attributes(Assigned(PlainChildren(ss), "divisions", ParseDecimal, acc.divisions),
               acc.key + KeysIn(ss), acc.time + TimesIn(ss), acc.clef + ClefsIn(ss))
  }

  lemma DivisionsCons(ss: seq<Setting>, d: Option<real>)
    requires ss != []
    ensures Assigned(PlainChildren(ss), "divisions", ParseDecimal, d) ==
            Assigned(PlainChildren(ss[1..]), "divisions", ParseDecimal,
                     if ss[0].Plain? && ss[0].child.key == "divisions" then ParseDecimal(ss[0].child.value) else d)
  {
    if ss[0].Plain? {
      assert PlainChildren(ss) == [ss[0].child] + PlainChildren(ss[1..]);
      AssignedCons(ss[0].child, PlainChildren(ss[1..]), "divisions", ParseDecimal, d);
    } else {
      assert PlainChildren(ss) == PlainChildren(ss[1..]);
    }
  }

  lemma KeysCons(ss: seq<Setting>, acc: Attributes)
    requires ss != [] && Readable(ss[0])
    ensures acc.key + KeysIn(ss) == SettleOne(ss[0], acc).value.key + KeysIn(ss[1..])
  {
    if ss[0].KeyBlock? {
      assert KeysIn(ss) == [KeyOf(ss[0].keyChildren).value] + KeysIn(ss[1..]);
    } else {
      assert KeysIn(ss) == KeysIn(ss[1..]);
    }
  }

  lemma TimesCons(ss: seq<Setting>, acc: Attributes)
    requires ss != [] && Readable(ss[0])
    ensures acc.time + TimesIn(ss) == SettleOne(ss[0], acc).value.time + TimesIn(ss[1..])
  {
    if ss[0].TimeBlock? {
      assert TimesIn(ss) == [TimeOf(ss[0].timeChildren).value] + TimesIn(ss[1..]);
    } else {
      assert TimesIn(ss) == TimesIn(ss[1..]);
    }
  }

  lemma ClefsCons(ss: seq<Setting>, acc: Attributes)
    requires ss != [] && Readable(ss[0])
    ensures acc.clef + ClefsIn(ss) == SettleOne(ss[0], acc).value.clef + ClefsIn(ss[1..])
  {
    if ss[0].ClefBlock? {
      assert ClefsIn(ss) == [ClefOf(ss[0].clefChildren).value] + ClefsIn(ss[1..]);
    } else {
      assert ClefsIn(ss) == ClefsIn(ss[1..]);
    }
  }

  /** Settling one more child: readable children move `Collected` by themselves. */
  lemma CollectedCons(ss: seq<Setting>, acc: Attributes)
    requires ss != [] && Readable(ss[0])
    ensures SettleOne(ss[0], acc).Ok?
    ensures Collected(ss, acc) == Collected(ss[1..], SettleOne(ss[0], acc).value)
  {
    var a := SettleOne(ss[0], acc).value;
    DivisionsCons(ss, acc.divisions);
    assert a.divisions == if ss[0].Plain? && ss[0].child.key == "divisions" then ParseDecimal(ss[0].child.value) else acc.divisions;
    KeysCons(ss, acc);
    TimesCons(ss, acc);
    ClefsCons(ss, acc);
  }

  /** Attributes::parse reads its children without error exactly when each is
      readable; divisions is then set by the last divisions child, and keys,
      times and clefs are appended in document order. */
  lemma {:induction false} SettleCollects(ss: seq<Setting>, acc: Attributes)
    ensures Settle(ss, acc).Ok? <==> forall i :: 0 <= i < |ss| ==> Readable(ss[i])
    ensures Settle(ss, acc).Ok? ==> Settle(ss, acc).value == Collected(ss, acc)
    decreases |ss|
  {
    if ss == [] {
      assert Collected(ss, acc) == acc;
    } else {
      var rest := ss[1..];
      assert forall i :: 0 <= i < |rest| ==> rest[i] == ss[i + 1];
      if Readable(ss[0]) {
        CollectedCons(ss, acc);
        SettleCollects(rest, SettleOne(ss[0], acc).value);
        if forall i :: 0 <= i < |rest| ==> Readable(rest[i]) {
          assert forall i :: 0 <= i < |ss| ==> Readable(ss[i]) by {
            forall i | 0 <= i < |ss| ensures Readable(ss[i]) {
              if i > 0 { assert ss[i] == rest[i - 1]; }
            }
          }
        }
      } else {
        assert SettleOne(ss[0], acc).Err?;
      }
    }
  }

  /** Child `i` is the first one Attributes::parse cannot read. */
  predicate StopsAt(ss: seq<Setting>, i: int) {
    0 <= i < |ss| && !Readable(ss[i]) && forall j :: 0 <= j < i ==> Readable(ss[j])
  }

  lemma StopsAtShift(ss: seq<Setting>, i: int)
    requires ss != [] && Readable(ss[0]) && StopsAt(ss[1..], i)
    ensures StopsAt(ss, i + 1) && ss[i + 1] == ss[1..][i]
  {
    forall j | 0 <= j < i + 1 ensures Readable(ss[j]) {
      if j > 0 { assert ss[j] == ss[1..][j - 1]; }
    }
  }

  /** A failing Attributes::parse stops at its first unreadable child, with that
      child's error. */
  lemma {:induction false} SettleStops(ss: seq<Setting>, acc: Attributes)
    ensures Settle(ss, acc).Err? ==> exists i :: StopsAt(ss, i) && Settle(ss, acc).error == ReadError(ss[i])
    decreases |ss|
  {
    if ss != [] && Settle(ss, acc).Err? {
      if Readable(ss[0]) {
        var a := SettleOne(ss[0], acc).value;
        assert Settle(ss, acc) == Settle(ss[1..], a);
        SettleStops(ss[1..], a);
        var i :| StopsAt(ss[1..], i) && Settle(ss[1..], a).error == ReadError(ss[1..][i]);
        StopsAtShift(ss, i);
      } else {
        assert StopsAt(ss, 0);
      }
    }
  }

  lemma PlainRead(toks: seq<Token>, pos: nat, c: Attr, acc: Attributes)
    requires c.key !in {"key", "time", "clef"} && TextChildren(toks, pos, [c])
    ensures pos + 3 <= |toks| && toks[pos] == Token.Start(c.key, [])
    ensures AttributesChild(toks, pos + 1, c.key, acc)
            == Done(if c.key == "divisions" then acc.(divisions := ParseDecimal(c.value)) else acc, pos + 3)
  {
    TextChildHead(toks, pos, c);
    TextElementRead(toks, pos + 1, c.key, c.value);
  }

  lemma KeyBlockRead(toks: seq<Token>, pos: nat, cs: seq<Attr>, acc: Attributes)
    requires BlockAt(toks, pos, "key", cs)
    ensures KeyOf(cs).Err? ==> AttributesChild(toks, pos + 1, "key", acc) == Fail(KeyOf(cs).error)
    ensures KeyOf(cs).Ok? ==>
              AttributesChild(toks, pos + 1, "key", acc)
              == Done(acc.(key := acc.key + [KeyOf(cs).value]), pos + 3 * |cs| + 2)
  {
    KeyFromChildren(toks, pos + 1, "key", cs);
  }

  lemma TimeBlockRead(toks: seq<Token>, pos: nat, cs: seq<Attr>, acc: Attributes)
    requires BlockAt(toks, pos, "time", cs)
    ensures TimeOf(cs).Err? ==> AttributesChild(toks, pos + 1, "time", acc) == Fail(TimeOf(cs).error)
    ensures TimeOf(cs).Ok? ==>
              AttributesChild(toks, pos + 1, "time", acc)
              == Done(acc.(time := acc.time + [TimeOf(cs).value]), pos + 3 * |cs| + 2)
  {
    TimeFromChildren(toks, pos + 1, "time", cs);
  }

  lemma ClefBlockRead(toks: seq<Token>, pos: nat, cs: seq<Attr>, acc: Attributes)
    requires BlockAt(toks, pos, "clef", cs)
    ensures ClefOf(cs).Err? ==> AttributesChild(toks, pos + 1, "clef", acc) == Fail(ClefOf(cs).error)
    ensures ClefOf(cs).Ok? ==>
              AttributesChild(toks, pos + 1, "clef", acc)
              == Done(acc.(clef := acc.clef + [ClefOf(cs).value]), pos + 3 * |cs| + 2)
  {
    ClefFromChildren(toks, pos + 1, "clef", cs);
  }

  lemma SettingRead(toks: seq<Token>, pos: nat, s: Setting, acc: Attributes)
    requires SettingAt(toks, pos, s)
    ensures pos + SettingSize(s) <= |toks| && toks[pos].Start?
    ensures SettleOne(s, acc).Err? ==>
              AttributesChild(toks, pos + 1, toks[pos].name, acc) == Fail(SettleOne(s, acc).error)
    ensures SettleOne(s, acc).Ok? ==>
              AttributesChild(toks, pos + 1, toks[pos].name, acc) == Done(SettleOne(s, acc).value, pos + SettingSize(s))
  {
    match s
    case Plain(c) => PlainRead(toks, pos, c, acc);
    case KeyBlock(cs) => KeyBlockRead(toks, pos, cs, acc);
    case TimeBlock(cs) => TimeBlockRead(toks, pos, cs, acc);
    case ClefBlock(cs) => ClefBlockRead(toks, pos, cs, acc);
  }

  /** One pass of Attributes::parse's loop over a child element. */
  lemma AttributesStep(toks: seq<Token>, pos: nat, name: string, acc: Attributes, r: Parsed<Attributes>)
    requires pos < |toks| && toks[pos].Start?
    requires AttributesChild(toks, pos + 1, toks[pos].name, acc) == r
    ensures r.Fail? ==> AttributesLoop(toks, pos, name, acc) == Fail(r.error)
    ensures r.Done? ==> AttributesLoop(toks, pos, name, acc) == AttributesLoop(toks, r.next, name, r.value)
  {
  }

  lemma SettingStep(toks: seq<Token>, pos: nat, name: string, s: Setting, acc: Attributes)
    requires SettingAt(toks, pos, s)
    ensures pos + SettingSize(s) <= |toks|
    ensures SettleOne(s, acc).Err? ==> AttributesLoop(toks, pos, name, acc) == Fail(SettleOne(s, acc).error)
    ensures SettleOne(s, acc).Ok? ==>
              AttributesLoop(toks, pos, name, acc)
              == AttributesLoop(toks, pos + SettingSize(s), name, SettleOne(s, acc).value)
  {
    SettingRead(toks, pos, s, acc);
    AttributesStep(toks, pos, name, acc, AttributesChild(toks, pos + 1, toks[pos].name, acc));
  }

  lemma {:induction false} SettingsRead(toks: seq<Token>, pos: nat, name: string, ss: seq<Setting>, acc: Attributes)
    requires SettingsAt(toks, pos, ss) && SettingsEnd(pos, ss) <= |toks|
    ensures Settle(ss, acc).Err? ==> AttributesLoop(toks, pos, name, acc) == Fail(Settle(ss, acc).error)
    ensures Settle(ss, acc).Ok? ==>
              AttributesLoop(toks, pos, name, acc) == AttributesLoop(toks, SettingsEnd(pos, ss), name, Settle(ss, acc).value)
    decreases |ss|
  {
    if ss != [] {
      var one := SettleOne(ss[0], acc);
      var next := pos + SettingSize(ss[0]);
      assert SettingsEnd(pos, ss) == SettingsEnd(next, ss[1..]);
      SettingStep(toks, pos, name, ss[0], acc);
      if one.Ok? {
        assert Settle(ss, acc) == Settle(ss[1..], one.value);
        SettingsRead(toks, next, name, ss[1..], one.value);
      } else {
        assert Settle(ss, acc) == Err(one.error);
      }
    }
  }

  lemma {:induction false} SettingsEndBound(toks: seq<Token>, pos: nat, ss: seq<Setting>)
    requires SettingsAt(toks, pos, ss) && pos <= |toks|
    ensures pos <= SettingsEnd(pos, ss) <= |toks|
    decreases |ss|
  {
    if ss != [] {
      SettingsEndBound(toks, pos + SettingSize(ss[0]), ss[1..]);
    }
  }

  /** Attributes::parse over any children laid out as settings: the outcome is
      Settle's, a failing key, time or clef stops the parse with its error, and
      end of input before the end tag is UnexpectedEof. */
  lemma AttributesFromSettings(toks: seq<Token>, pos: nat, name: string, ss: seq<Setting>)
    requires pos <= |toks| && SettingsAt(toks, pos, ss)
    ensures SettingsEnd(pos, ss) <= |toks|
    ensures Settle(ss, NoAttributes).Err? ==> AttributesAt(toks, pos, name) == Fail(Settle(ss, NoAttributes).error)
    ensures Settle(ss, NoAttributes).Ok? && SettingsEnd(pos, ss) == |toks| ==>
              AttributesAt(toks, pos, name) == Fail(UnexpectedEof)
    ensures SettingsEnd(pos, ss) < |toks| && toks[SettingsEnd(pos, ss)] == End(name) ==>
              AttributesAt(toks, pos, name) == Finished(Settle(ss, NoAttributes), SettingsEnd(pos, ss) + 1)
  {
    var settled := Settle(ss, NoAttributes);
    var end := SettingsEnd(pos, ss);
    SettingsEndBound(toks, pos, ss);
    assert AttributesAt(toks, pos, name) == AttributesLoop(toks, pos, name, NoAttributes);
    if settled.Ok? {
      assert AttributesAt(toks, pos, name) == AttributesLoop(toks, end, name, settled.value) by {
        SettingsRead(toks, pos, name, ss, NoAttributes);
      }
      LoopClosed(toks, end, name, settled.value);
      assert Finished(settled, end + 1) == Done(settled.value, end + 1);
    } else {
      assert AttributesAt(toks, pos, name) == Fail(settled.error) by {
        SettingsRead(toks, pos, name, ss, NoAttributes);
      }
      assert Finished(settled, end + 1) == Fail(settled.error);
    }
  }

  /** The attribute loop at the end of input, or at the closing tag. */
  lemma LoopClosed(toks: seq<Token>, end: nat, name: string, a: Attributes)
    requires end <= |toks|
    ensures end == |toks| ==> AttributesLoop(toks, end, name, a) == Fail(UnexpectedEof)
    ensures end < |toks| && toks[end] == End(name) ==> AttributesLoop(toks, end, name, a) == Done(a, end + 1)
  {
  }

  // ================================================================ containers

  /** A child of a container: its element name, the value parsed from it (none
      for a child the container skips), and the position after its end tag. */
  datatype Block<T> = Block(name: string, value: Option<T>, end: nat)

  /** The values of the blocks that have one, in order. */
  function Found<T>(bs: seq<Block<T>>): (r: seq<T>)
    ensures |r| <= |bs|
  {
    if bs == [] then [] else (if bs[0].value.Some? then [bs[0].value.value] else []) + Found(bs[1..])
  }

  /** Splitting off the first block, for the values found and the end position. */
  lemma FirstBlock<T>(pos: nat, bs: seq<Block<T>>, acc: seq<T>)
    requires bs != []
    ensures acc + Found(bs) == (acc + Found([bs[0]])) + Found(bs[1..])
    ensures BlocksEnd(bs[0].end, bs[1..]) == BlocksEnd(pos, bs)
  {
    assert [bs[0]][1..] == [];
    assert Found([bs[0]]) + [] == Found([bs[0]]);
  }

  function BlocksEnd<T>(pos: nat, bs: seq<Block<T>>): nat {
    if bs == [] then pos else bs[|bs| - 1].end
  }

  /** A skipped child: its subtree ends at `end`. */
  predicate SkippedAt<T>(toks: seq<Token>, pos: nat, b: Block<T>) {
    pos < |toks| && b.value.None? && Skip(toks, pos + 1, b.name) == Some(b.end)
  }

  /** One child of a measure at `pos`: a start tag, then an item read by the item
      parser, or a subtree that is skipped. */
  predicate ItemBlockAt(toks: seq<Token>, pos: nat, b: Block<MeasureItem>) {
    pos < |toks| && toks[pos].Start? && toks[pos].name == b.name &&
    if IsItemName(b.name)
    then b.value.Some? && ItemAt(toks, pos + 1, b.name) == Done(b.value.value, b.end)
    else SkippedAt(toks, pos, b)
  }

  /** The children of a measure laid out one after another from `pos` on. */
  predicate ItemBlocks(toks: seq<Token>, pos: nat, bs: seq<Block<MeasureItem>>)
    decreases |bs|
  {
    bs == [] || (ItemBlockAt(toks, pos, bs[0]) && ItemBlocks(toks, bs[0].end, bs[1..]))
  }

  lemma ItemBlockRead(toks: seq<Token>, pos: nat, b: Block<MeasureItem>, content: seq<MeasureItem>)
    requires ItemBlockAt(toks, pos, b)
    ensures b.end <= |toks|
    ensures MeasureChild(toks, pos + 1, b.name, content) == Done(content + Found([b]), b.end)
  {
    var f := if b.value.Some? then [b.value.value] else [];
    assert [b][1..] == [];
    assert Found([b]) == f + [] == f;
    if b.value.None? {
      assert content + f == content;
    }
  }

  lemma ItemBlockStep(toks: seq<Token>, pos: nat, name: string, b: Block<MeasureItem>, content: seq<MeasureItem>)
    requires ItemBlockAt(toks, pos, b)
    ensures b.end <= |toks|
    ensures MeasureLoop(toks, pos, name, content) == MeasureLoop(toks, b.end, name, content + Found([b]))
  {
    ItemBlockRead(toks, pos, b, content);
  }

  lemma {:induction false} ItemBlocksRead(toks: seq<Token>, pos: nat, name: string, bs: seq<Block<MeasureItem>>, content: seq<MeasureItem>)
    requires pos <= |toks| && ItemBlocks(toks, pos, bs)
    ensures BlocksEnd(pos, bs) <= |toks|
    ensures MeasureLoop(toks, pos, name, content) == MeasureLoop(toks, BlocksEnd(pos, bs), name, content + Found(bs))
    decreases |bs|
  {
    if bs == [] {
      assert content + [] == content;
    } else {
      var b := bs[0];
      ItemBlockStep(toks, pos, name, b, content);
      ItemBlocksRead(toks, b.end, name, bs[1..], content + Found([b]));
      FirstBlock(pos, bs, content);
    }
  }

  /** Measure::parse over children laid out as blocks: one item per recognised
      child, in document order, skipped children contribute nothing, and end of
      input before the end tag is UnexpectedEof. */
  lemma MeasureFromBlocks(toks: seq<Token>, pos: nat, name: string, bs: seq<Block<MeasureItem>>)
    requires pos <= |toks| && ItemBlocks(toks, pos, bs)
    ensures BlocksEnd(pos, bs) == |toks| ==> MeasureAt(toks, pos, name) == Fail(UnexpectedEof)
    ensures BlocksEnd(pos, bs) < |toks| && toks[BlocksEnd(pos, bs)] == End(name) ==>
              MeasureAt(toks, pos, name) == Done(Measure(Found(bs)), BlocksEnd(pos, bs) + 1)
  {
    ItemBlocksRead(toks, pos, name, bs, []);
    assert [] + Found(bs) == Found(bs);
  }

  /** One child of a part at `pos`: a start tag, then a measure, or a subtree
      that is skipped. */
  predicate MeasureBlockAt(toks: seq<Token>, pos: nat, b: Block<Measure>) {
    pos < |toks| && toks[pos].Start? && toks[pos].name == b.name &&
    if b.name == "measure"
    then b.value.Some? && MeasureAt(toks, pos + 1, b.name) == Done(b.value.value, b.end)
    else SkippedAt(toks, pos, b)
  }

  /** The children of a part laid out one after another from `pos` on. */
  predicate MeasureBlocks(toks: seq<Token>, pos: nat, bs: seq<Block<Measure>>)
    decreases |bs|
  {
    bs == [] || (MeasureBlockAt(toks, pos, bs[0]) && MeasureBlocks(toks, bs[0].end, bs[1..]))
  }

  lemma MeasureBlockRead(toks: seq<Token>, pos: nat, b: Block<Measure>, measures: seq<Measure>)
    requires MeasureBlockAt(toks, pos, b)
    ensures b.end <= |toks|
    ensures PartChild(toks, pos + 1, b.name, measures) == Done(measures + Found([b]), b.end)
  {
    var f := if b.value.Some? then [b.value.value] else [];
    assert [b][1..] == [];
    assert Found([b]) == f + [] == f;
    if b.value.None? {
      assert measures + f == measures;
    }
  }

  lemma MeasureBlockStep(toks: seq<Token>, pos: nat, name: string, b: Block<Measure>, measures: seq<Measure>)
    requires MeasureBlockAt(toks, pos, b)
    ensures b.end <= |toks|
    ensures PartLoop(toks, pos, name, measures) == PartLoop(toks, b.end, name, measures + Found([b]))
  {
    MeasureBlockRead(toks, pos, b, measures);
  }

  lemma {:induction false} MeasureBlocksRead(toks: seq<Token>, pos: nat, name: string, bs: seq<Block<Measure>>, measures: seq<Measure>)
    requires pos <= |toks| && MeasureBlocks(toks, pos, bs)
    ensures BlocksEnd(pos, bs) <= |toks|
    ensures PartLoop(toks, pos, name, measures) == PartLoop(toks, BlocksEnd(pos, bs), name, measures + Found(bs))
    decreases |bs|
  {
    if bs == [] {
      assert measures + [] == measures;
    } else {
      var b := bs[0];
      MeasureBlockStep(toks, pos, name, b, measures);
      MeasureBlocksRead(toks, b.end, name, bs[1..], measures + Found([b]));
      FirstBlock(pos, bs, measures);
    }
  }

  /** Part::parse over children laid out as blocks: the measures in document
      order, other children skipped, and end of input before the end tag is
      UnexpectedEof. */
  lemma PartFromBlocks(toks: seq<Token>, pos: nat, name: string, bs: seq<Block<Measure>>)
    requires pos <= |toks| && MeasureBlocks(toks, pos, bs)
    ensures BlocksEnd(pos, bs) == |toks| ==> PartAt(toks, pos, name) == Fail(UnexpectedEof)
    ensures BlocksEnd(pos, bs) < |toks| && toks[BlocksEnd(pos, bs)] == End(name) ==>
              PartAt(toks, pos, name) == Done(Part(Found(bs)), BlocksEnd(pos, bs) + 1)
  {
    MeasureBlocksRead(toks, pos, name, bs, []);
    assert [] + Found(bs) == Found(bs);
  }

  /** One child of a score-partwise at `pos`: a start tag, then a part, or a subtree
      that is skipped. */
  predicate PartBlockAt(toks: seq<Token>, pos: nat, b: Block<Part>) {
    pos < |toks| && toks[pos].Start? && toks[pos].name == b.name &&
    if b.name == "part"
    then b.value.Some? && PartAt(toks, pos + 1, b.name) == Done(b.value.value, b.end)
    else SkippedAt(toks, pos, b)
  }

  /** The children of a score-partwise laid out one after another from `pos` on. */
  predicate PartBlocks(toks: seq<Token>, pos: nat, bs: seq<Block<Part>>)
    decreases |bs|
  {
    bs == [] || (PartBlockAt(toks, pos, bs[0]) && PartBlocks(toks, bs[0].end, bs[1..]))
  }

  lemma PartBlockRead(toks: seq<Token>, pos: nat, b: Block<Part>, parts: seq<Part>)
    requires PartBlockAt(toks, pos, b)
    ensures b.end <= |toks|
    ensures ScoreChild(toks, pos + 1, b.name, parts) == Done(parts + Found([b]), b.end)
  {
    var f := if b.value.Some? then [b.value.value] else [];
    assert [b][1..] == [];
    assert Found([b]) == f + [] == f;
    if b.value.None? {
      assert parts + f == parts;
    }
  }

  lemma PartBlockStep(toks: seq<Token>, pos: nat, name: string, b: Block<Part>, parts: seq<Part>)
    requires PartBlockAt(toks, pos, b)
    ensures b.end <= |toks|
    ensures ScoreLoop(toks, pos, name, parts) == ScoreLoop(toks, b.end, name, parts + Found([b]))
  {
    PartBlockRead(toks, pos, b, parts);
  }

  lemma {:induction false} PartBlocksRead(toks: seq<Token>, pos: nat, name: string, bs: seq<Block<Part>>, parts: seq<Part>)
    requires pos <= |toks| && PartBlocks(toks, pos, bs)
    ensures BlocksEnd(pos, bs) <= |toks|
    ensures ScoreLoop(toks, pos, name, parts) == ScoreLoop(toks, BlocksEnd(pos, bs), name, parts + Found(bs))
    decreases |bs|
  {
    if bs == [] {
      assert parts + [] == parts;
    } else {
      var b := bs[0];
      PartBlockStep(toks, pos, name, b, parts);
      PartBlocksRead(toks, b.end, name, bs[1..], parts + Found([b]));
      FirstBlock(pos, bs, parts);
    }
  }

  /** ScorePartwise::parse over children laid out as blocks: the parts in
      document order, other children (part-list, work, ...) skipped, and end of
      input before the end tag is UnexpectedEof. */
  lemma ScoreFromBlocks(toks: seq<Token>, pos: nat, name: string, bs: seq<Block<Part>>)
    requires pos <= |toks| && PartBlocks(toks, pos, bs)
    ensures BlocksEnd(pos, bs) == |toks| ==> ScoreAt(toks, pos, name) == Fail(UnexpectedEof)
    ensures BlocksEnd(pos, bs) < |toks| && toks[BlocksEnd(pos, bs)] == End(name) ==>
              ScoreAt(toks, pos, name) == Done(ScorePartwise(Found(bs)), BlocksEnd(pos, bs) + 1)
  {
    PartBlocksRead(toks, pos, name, bs, []);
    assert [] + Found(bs) == Found(bs);
  }

  // ---------------------------------------------------------------- direction

  /** One child of a direction at `pos`: a start tag, then a sound read from its
      attributes, or a subtree that is skipped. */
  predicate SoundBlockAt(toks: seq<Token>, pos: nat, b: Block<Sound>) {
    pos < |toks| && toks[pos].Start? && toks[pos].name == b.name &&
    if b.name == "sound"
    then b.value.Some? && SoundAt(toks, pos + 1, b.name, toks[pos].attrs) == Done(b.value.value, b.end)
    else SkippedAt(toks, pos, b)
  }

  /** The children of a direction laid out one after another from `pos` on. */
  predicate SoundBlocks(toks: seq<Token>, pos: nat, bs: seq<Block<Sound>>)
    decreases |bs|
  {
    bs == [] || (SoundBlockAt(toks, pos, bs[0]) && SoundBlocks(toks, bs[0].end, bs[1..]))
  }

  /** The sound a direction holds after the blocks `bs`, starting from `s`. */
  function Latest(bs: seq<Block<Sound>>, s: Option<Sound>): Option<Sound>
    decreases |bs|
  {
    if bs == [] then s else Latest(bs[1..], if bs[0].value.Some? then bs[0].value else s)
  }

  /** The sound kept is the last one found, or the starting one when there is none. */
  lemma {:induction false} LatestIsLastFound(bs: seq<Block<Sound>>, s: Option<Sound>)
    ensures Latest(bs, s) == if Found(bs) == [] then s else Some(Found(bs)[|Found(bs)| - 1])
    decreases |bs|
  {
    if bs != [] {
      var s' := if bs[0].value.Some? then bs[0].value else s;
      LatestIsLastFound(bs[1..], s');
      FirstBlock(0, bs, []);
      assert [] + Found(bs) == Found(bs);
      assert [] + Found([bs[0]]) == Found([bs[0]]);
      assert [bs[0]][1..] == [];
    }
  }

  lemma SoundBlockStep(toks: seq<Token>, pos: nat, name: string, b: Block<Sound>, s: Option<Sound>)
    requires SoundBlockAt(toks, pos, b)
    ensures b.end <= |toks|
    ensures DirectionLoop(toks, pos, name, s) == DirectionLoop(toks, b.end, name, if b.value.Some? then b.value else s)
  {
  }

  lemma {:induction false} SoundBlocksRead(toks: seq<Token>, pos: nat, name: string, bs: seq<Block<Sound>>, s: Option<Sound>)
    requires pos <= |toks| && SoundBlocks(toks, pos, bs)
    ensures BlocksEnd(pos, bs) <= |toks|
    ensures DirectionLoop(toks, pos, name, s) == DirectionLoop(toks, BlocksEnd(pos, bs), name, Latest(bs, s))
    decreases |bs|
  {
    if bs != [] {
      var b := bs[0];
      SoundBlockStep(toks, pos, name, b, s);
      SoundBlocksRead(toks, b.end, name, bs[1..], if b.value.Some? then b.value else s);
      FirstBlock(pos, bs, []);
    }
  }

  /** Direction::parse over children laid out as blocks: the last sound child
      decides, other children are skipped, and end of input before the end tag
      is UnexpectedEof. */
  lemma DirectionFromBlocks(toks: seq<Token>, pos: nat, name: string, bs: seq<Block<Sound>>)
    requires pos <= |toks| && SoundBlocks(toks, pos, bs)
    ensures BlocksEnd(pos, bs) == |toks| ==> DirectionAt(toks, pos, name) == Fail(UnexpectedEof)
    ensures BlocksEnd(pos, bs) < |toks| && toks[BlocksEnd(pos, bs)] == End(name) ==>
              DirectionAt(toks, pos, name)
              == Done(Direction(if Found(bs) == [] then None else Some(Found(bs)[|Found(bs)| - 1])), BlocksEnd(pos, bs) + 1)
  {
    SoundBlocksRead(toks, pos, name, bs, None);
    LatestIsLastFound(bs, None);
  }

  // ---------------------------------------------------------------- note

  /** The children of a note that can be written as text-only elements: all but
      pitch and tie (which need children or attributes) and the grace and cue
      markers. */
  predicate NoteTextKey(k: string) {
    k !in {"pitch", "tie", "grace", "cue"}
  }

  /** What one text-only child sets in a regular note. */
  function NoteAssign(c: Attr, acc: NoteFields): NoteFields {
    if c.key == "chord" then acc.(chord := Some(Chord))
    else if c.key == "duration" then acc.(duration := ParseDecimal(c.value))
    else if c.key == "voice" then acc.(voice := Some(c.value))
    else if c.key == "type" then acc.(kind := Some(c.value))
    else if c.key == "stem" then acc.(stem := Some(c.value))
    else if c.key == "rest" then acc.(rest := Some(Rest(false)))
    else acc
  }

  function NoteFold(cs: seq<Attr>, acc: NoteFields): NoteFields
    decreases |cs|
  {
    if cs == [] then acc else NoteFold(cs[1..], NoteAssign(cs[0], acc))
  }

  /** What Note::parse makes of text-only children: a regular note, or
      MissingTag("duration") when no child set a readable duration. */
  function NoteOf(cs: seq<Attr>): (r: Result<Note>)
    ensures r.Err? <==> NoteFold(cs, NoFields).duration.None?
    ensures r.Err? ==> r.error == MissingTag("duration")
    ensures r.Ok? ==> r.value.noteKind == Regular && Some(r.value.duration) == NoteFold(cs, NoFields).duration
  {
    var f := NoteFold(cs, NoFields);
    if f.duration.None? then Err(MissingTag("duration"))
    else Ok(Note(f.pitch, f.chord, f.duration.value, f.voice, f.kind, f.stem, f.rest, f.tie, Regular))
  }

  /** The duration of a note is set by its last duration child. */
  lemma {:induction false} NoteFoldDuration(cs: seq<Attr>, acc: NoteFields)
    ensures NoteFold(cs, acc).duration == Assigned(cs, "duration", ParseDecimal, acc.duration)
    decreases |cs|
  {
    if cs != [] {
      NoteFoldDuration(cs[1..], NoteAssign(cs[0], acc));
      assert [cs[0]] + cs[1..] == cs;
      AssignedCons(cs[0], cs[1..], "duration", ParseDecimal, acc.duration);
    }
  }

  /** The handle_start closure on a text-only child. */
  lemma NoteChildText(toks: seq<Token>, pos: nat, c: Attr, acc: NoteFields)
    requires TextElementAt(toks, pos, c) && NoteTextKey(c.key)
    ensures NoteChildAt(toks, pos + 1, c.key, [], acc) == Done(NoteAssign(c, acc), pos + 3)
  {
    TextElementRead(toks, pos + 1, c.key, c.value);
    if c.key == "rest" {
      assert Assigned([], "measure", ParseYesNo, false) == false;
    }
  }

  lemma NoteStep(toks: seq<Token>, pos: nat, name: string, cs: seq<Attr>, acc: NoteFields)
    requires TextChildren(toks, pos, cs) && cs != [] && NoteTextKey(cs[0].key)
    ensures TextChildren(toks, pos + 3, cs[1..])
    ensures NoteLoop(toks, pos, name, acc) == NoteLoop(toks, pos + 3, name, NoteAssign(cs[0], acc))
  {
    TextChildrenSplit(toks, pos, cs);
    TextChildHead(toks, pos, cs[0]);
    NoteChildText(toks, pos, cs[0], acc);
  }

  lemma {:induction false} NoteChildren(toks: seq<Token>, pos: nat, name: string, cs: seq<Attr>, acc: NoteFields)
    requires TextChildren(toks, pos, cs) && forall i :: 0 <= i < |cs| ==> NoteTextKey(cs[i].key)
    ensures NoteLoop(toks, pos, name, acc) == NoteLoop(toks, pos + 3 * |cs|, name, NoteFold(cs, acc))
    decreases |cs|
  {
    if cs != [] {
      var rest := cs[1..];
      var next := NoteAssign(cs[0], acc);
      assert pos + 3 + 3 * |rest| == pos + 3 * |cs|;
      assert forall i :: 0 <= i < |rest| ==> rest[i] == cs[i + 1];
      NoteStep(toks, pos, name, cs, acc);
      NoteChildren(toks, pos + 3, name, rest, next);
    }
  }

  /** The note's first child is read like every later one. */
  lemma NoteFirst(toks: seq<Token>, pos: nat, name: string, cs: seq<Attr>)
    requires TextChildren(toks, pos, cs) && cs != [] && NoteTextKey(cs[0].key)
    ensures TextChildren(toks, pos + 3, cs[1..])
    ensures NoteAt(toks, pos, name) == Finish(NoteLoop(toks, pos + 3, name, NoteAssign(cs[0], NoFields)))
  {
    TextChildrenSplit(toks, pos, cs);
    TextChildHead(toks, pos, cs[0]);
    NoteChildText(toks, pos, cs[0], NoFields);
  }

  /** Note::parse over text-only children: an empty note is MissingTag("note"),
      the children otherwise set the fields (the last duration deciding), a note
      without a readable duration is MissingTag("duration"), and end of input
      before the first child or before the end tag is UnexpectedEof. */
  lemma NoteFromChildren(toks: seq<Token>, pos: nat, name: string, cs: seq<Attr>)
    requires TextChildren(toks, pos, cs) && forall i :: 0 <= i < |cs| ==> NoteTextKey(cs[i].key)
    ensures pos + 3 * |cs| == |toks| ==> NoteAt(toks, pos, name) == Fail(UnexpectedEof)
    ensures cs == [] && pos < |toks| && toks[pos] == End(name) ==> NoteAt(toks, pos, name) == Fail(MissingTag("note"))
    ensures cs != [] && pos + 3 * |cs| < |toks| && toks[pos + 3 * |cs|] == End(name) ==>
              NoteAt(toks, pos, name) == Finished(NoteOf(cs), pos + 3 * |cs| + 1)
  {
    if cs == [] {
      NoteWithoutChild(toks, pos, name);
    } else {
      NoteThrough(toks, pos, name, cs);
      NoteClosed(toks, pos + 3 * |cs|, name, NoteFold(cs, NoFields));
    }
  }

  /** All children of a note read, up to the position after the last one. */
  lemma NoteThrough(toks: seq<Token>, pos: nat, name: string, cs: seq<Attr>)
    requires TextChildren(toks, pos, cs) && cs != [] && forall i :: 0 <= i < |cs| ==> NoteTextKey(cs[i].key)
    ensures pos + 3 * |cs| <= |toks|
    ensures NoteAt(toks, pos, name) == Finish(NoteLoop(toks, pos + 3 * |cs|, name, NoteFold(cs, NoFields)))
  {
    var rest := cs[1..];
    assert pos + 3 + 3 * |rest| == pos + 3 * |cs|;
    NoteFirst(toks, pos, name, cs);
    assert forall i :: 0 <= i < |rest| ==> rest[i] == cs[i + 1];
    NoteChildren(toks, pos + 3, name, rest, NoteAssign(cs[0], NoFields));
  }

  /** A note with no child before end of input or its end tag. */
  lemma NoteWithoutChild(toks: seq<Token>, pos: nat, name: string)
    requires pos <= |toks|
    ensures pos == |toks| ==> NoteAt(toks, pos, name) == Fail(UnexpectedEof)
    ensures pos < |toks| && toks[pos] == End(name) ==> NoteAt(toks, pos, name) == Fail(MissingTag("note"))
  {
  }

  /** The note loop at end of input, or at the closing tag, and the duration check after it. */
  lemma NoteClosed(toks: seq<Token>, end: nat, name: string, f: NoteFields)
    requires end <= |toks|
    ensures end == |toks| ==> Finish(NoteLoop(toks, end, name, f)) == Fail(UnexpectedEof)
    ensures end < |toks| && toks[end] == End(name) ==> Finish(NoteLoop(toks, end, name, f)) == Finish(Done(f, end + 1))
  {
  }

  /** A written note holding only a whole-number duration reads back as a
      regular note of that duration. */
  lemma NoteRoundTrip(duration: nat)
    ensures NoteOf([Attr("duration", NatString(duration))])
            == Ok(Note(None, None, duration as real, None, None, None, None, None, Regular))
  {
    NatStringParses(duration);
    var cs := [Attr("duration", NatString(duration))];
    assert NoteFold(cs, NoFields) == NoteFold([], NoteAssign(cs[0], NoFields));
  }
}
