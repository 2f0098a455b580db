/** The ordered-field reader of the test module in src/main.rs: `score-partwise`
    children must come in the order work, movement-number, movement-title,
    identification, defaults, credit, part-list, part. A cursor over that ordered
    enum (`trait State`) says which kinds may still come; credit and part step the
    cursor back one after advancing it, so they may repeat. */
module Fields {
  import opened Xml

  datatype Field = Work | MovementNumber | MovementTitle | Identification | Defaults | Credit | PartList | Part

  /** VARIANTS, in declaration order. */
  const Variants: seq<Field> := [Work, MovementNumber, MovementTitle, Identification, Defaults, Credit, PartList, Part]

  /** as_usize: the declaration index, which the derived order compares. */
  function Index(f: Field): (i: nat)
    ensures i < |Variants| && Variants[i] == f
  {
    match f
    case Work => 0
    case MovementNumber => 1
    case MovementTitle => 2
    case Identification => 3
    case Defaults => 4
    case Credit => 5
    case PartList => 6
    case Part => 7
  }

  /** The kebab-case element name of each variant. */
  function FieldName(f: Field): string {
    match f
    case Work => "work"
    case MovementNumber => "movement-number"
    case MovementTitle => "movement-title"
    case Identification => "identification"
    case Defaults => "defaults"
    case Credit => "credit"
    case PartList => "part-list"
    case Part => "part"
  }

  /** from_xml: the variant whose kebab-case name is the tag name. */
  function FromXml(name: string): (r: Option<Field>)
    ensures r.Some? ==> FieldName(r.value) == name
  {
    if name == "work" then Some(Work)
    else if name == "movement-number" then Some(MovementNumber)
    else if name == "movement-title" then Some(MovementTitle)
    else if name == "identification" then Some(Identification)
    else if name == "defaults" then Some(Defaults)
    else if name == "credit" then Some(Credit)
    else if name == "part-list" then Some(PartList)
    else if name == "part" then Some(Part)
    else None
  }

  /** Every variant is recognised by its own name, and only names of variants are. */
  lemma FromXmlNames(f: Field, name: string)
    ensures FromXml(FieldName(f)) == Some(f)
    ensures FromXml(name).None? <==> forall g :: FieldName(g) != name
  {
    if FromXml(name).None? {
      forall g ensures FieldName(g) != name {
        assert FromXml(FieldName(g)) == Some(g);
      }
    }
  }

  /** next: the following variant, or the last one (LAST) after the last. */
  function Next(f: Field): (g: Field)
    ensures Index(f) + 1 < |Variants| ==> Index(g) == Index(f) + 1
    ensures Index(f) + 1 == |Variants| ==> g == f
  {
    if Index(f) + 1 < |Variants| then Variants[Index(f) + 1] else Variants[|Variants| - 1]
  }

  /** previous: the preceding variant; the first has none (index underflow panics). */
  function Previous(f: Field): (g: Field)
    requires Index(f) > 0
    ensures Index(g) + 1 == Index(f)
  {
    Variants[Index(f) - 1]
  }

  /** is_allowed: a kind is allowed when it is not before the cursor. */
  predicate IsAllowed(cursor: Field, got: Field)
    ensures got == cursor ==> IsAllowed(cursor, got)
    ensures got == Part ==> IsAllowed(cursor, got)
    ensures Index(got) < Index(cursor) ==> !IsAllowed(cursor, got)
  {
    Index(got) >= Index(cursor)
  }

  /** The cursor after accepting `f`: next(f), stepped back once for credit and part
      (allow_for_one_more). */
  function AfterAccept(f: Field): Field {
    var n := Next(f);
    if f == Credit || f == Part then Previous(n) else n
  }

  /** Credit and part may repeat; part-list may come again after a part; every other
      kind must be followed by a later one. */
  lemma AfterAcceptCursor(f: Field)
    ensures AfterAccept(Credit) == Credit
    ensures AfterAccept(Part) == PartList
    ensures f != Credit && f != Part ==> Index(AfterAccept(f)) == Index(f) + 1
  {
  }

  // ---------------------------------------------------------------- accepted sequences

  /** The cursor once the fields `fs` have been accepted. */
  function CursorAfter(fs: seq<Field>): Field {
    if fs == [] then Work else AfterAccept(fs[|fs| - 1])
  }

  /** The cursor walk accepts every field of `fs` in turn. */
  predicate Accepts(fs: seq<Field>) {
    fs == [] || (Accepts(fs[..|fs| - 1]) && IsAllowed(CursorAfter(fs[..|fs| - 1]), fs[|fs| - 1]))
  }

  /** The order written out pair by pair: strictly later, or credit after credit,
      part after part, part-list after part. */
  predicate Follows(a: Field, b: Field) {
    Index(a) < Index(b) || (a == b && (a == Credit || a == Part)) || (a == Part && b == PartList)
  }

  predicate Ordered(fs: seq<Field>) {
    forall i :: 0 <= i < |fs| - 1 ==> Follows(fs[i], fs[i + 1])
  }

  lemma FollowsIsAllowed(a: Field, b: Field)
    ensures Follows(a, b) <==> IsAllowed(AfterAccept(a), b)
  {
  }

  /** The cursor walk accepts exactly the sequences ordered pair by pair. */
  lemma {:induction false} AcceptsIffOrdered(fs: seq<Field>)
    ensures Accepts(fs) <==> Ordered(fs)
  {
    if fs != [] {
      var init := fs[..|fs| - 1];
      AcceptsIffOrdered(init);
      if |fs| > 1 {
        FollowsIsAllowed(fs[|fs| - 2], fs[|fs| - 1]);
        assert init[|init| - 1] == fs[|fs| - 2];
      }
      assert Ordered(fs) <==> Ordered(init) && (|fs| > 1 ==> Follows(fs[|fs| - 2], fs[|fs| - 1])) by {
        if Ordered(init) && (|fs| > 1 ==> Follows(fs[|fs| - 2], fs[|fs| - 1])) {
          forall i | 0 <= i < |fs| - 1
            ensures Follows(fs[i], fs[i + 1])
          {
            if i < |fs| - 2 {
              assert fs[i] == init[i] && fs[i + 1] == init[i + 1];
            }
          }
        }
        if Ordered(fs) {
          forall i | 0 <= i < |init| - 1
            ensures Follows(init[i], init[i + 1])
          {
            assert fs[i] == init[i] && fs[i + 1] == init[i + 1];
          }
        }
      }
    }
  }

  /** Accepting one more allowed field keeps the walk accepting. */
  lemma AcceptsSnoc(seen: seq<Field>, f: Field)
    requires Accepts(seen) && IsAllowed(CursorAfter(seen), f)
    ensures Accepts(seen + [f]) && CursorAfter(seen + [f]) == AfterAccept(f)
  {
    assert (seen + [f])[..|seen|] == seen;
  }

  lemma OrderExamples()
    ensures Accepts([Credit, Credit, PartList, Part, Part])
    ensures !Accepts([PartList, Credit])
    ensures !Accepts([MovementTitle, MovementNumber])
    ensures Accepts([Part, PartList])
    ensures !Accepts([Work, Work])
  {
    AcceptsIffOrdered([Credit, Credit, PartList, Part, Part]);
    AcceptsIffOrdered([PartList, Credit]);
    AcceptsIffOrdered([MovementTitle, MovementNumber]);
    AcceptsIffOrdered([Part, PartList]);
    AcceptsIffOrdered([Work, Work]);
  }

  // ---------------------------------------------------------------- the record

  /** The locals of ScorePartwise::parse: the optional fields as flags, the
      repeated ones as counts (part-list carries nothing). */
  datatype ScoreFields = ScoreFields(
    work: bool, movementNumber: bool, movementTitle: bool, identification: bool,
    defaults: bool, credits: nat, parts: nat)

  const NoFields := ScoreFields(false, false, false, false, false, 0, 0)

  /** The record after accepting one more field. */
  function Record(acc: ScoreFields, f: Field): ScoreFields {
    match f
    case Work => acc.(work := true)
    case MovementNumber => acc.(movementNumber := true)
    case MovementTitle => acc.(movementTitle := true)
    case Identification => acc.(identification := true)
    case Defaults => acc.(defaults := true)
    case Credit => acc.(credits := acc.credits + 1)
    case PartList => acc
    case Part => acc.(parts := acc.parts + 1)
  }

  function Summary(fs: seq<Field>): ScoreFields {
    if fs == [] then NoFields else Record(Summary(fs[..|fs| - 1]), fs[|fs| - 1])
  }

  /** The flags say exactly which optional fields occurred. */
  lemma {:induction false} SummaryFlags(fs: seq<Field>)
    ensures Summary(fs).work <==> Work in fs
    ensures Summary(fs).movementNumber <==> MovementNumber in fs
    ensures Summary(fs).movementTitle <==> MovementTitle in fs
    ensures Summary(fs).identification <==> Identification in fs
    ensures Summary(fs).defaults <==> Defaults in fs
  {
    if fs != [] {
      var init, last := fs[..|fs| - 1], fs[|fs| - 1];
      SummaryFlags(init);
      assert fs == init + [last];
      SummarySnoc(init, last);
    }
  }

  /** The record says which optional fields occurred and how many credits and parts. */
  lemma {:induction false} SummaryCounts(fs: seq<Field>)
    ensures Summary(fs).work <==> Work in fs
    ensures Summary(fs).movementNumber <==> MovementNumber in fs
    ensures Summary(fs).movementTitle <==> MovementTitle in fs
    ensures Summary(fs).identification <==> Identification in fs
    ensures Summary(fs).defaults <==> Defaults in fs
    ensures Summary(fs).credits == multiset(fs)[Credit]
    ensures Summary(fs).parts == multiset(fs)[Part]
  {
    SummaryFlags(fs);
    SummaryTallies(fs);
  }

  /** The counts are the numbers of credits and parts. */
  lemma {:induction false} SummaryTallies(fs: seq<Field>)
    ensures Summary(fs).credits == multiset(fs)[Credit]
    ensures Summary(fs).parts == multiset(fs)[Part]
  {
    if fs != [] {
      var init, last := fs[..|fs| - 1], fs[|fs| - 1];
      SummaryTallies(init);
      assert fs == init + [last];
      SummarySnoc(init, last);
    }
  }

  /** One more field moves the flags and counts by that field alone. */
  lemma SummarySnoc(init: seq<Field>, last: Field)
    ensures Summary(init + [last]) == Record(Summary(init), last)
    ensures multiset(init + [last])[Credit] == multiset(init)[Credit] + (if last == Credit then 1 else 0)
    ensures multiset(init + [last])[Part] == multiset(init)[Part] + (if last == Part then 1 else 0)
    ensures Work in init + [last] <==> Work in init || last == Work
    ensures MovementNumber in init + [last] <==> MovementNumber in init || last == MovementNumber
    ensures MovementTitle in init + [last] <==> MovementTitle in init || last == MovementTitle
    ensures Identification in init + [last] <==> Identification in init || last == Identification
    ensures Defaults in init + [last] <==> Defaults in init || last == Defaults
  {
    assert (init + [last])[..|init|] == init;
    assert multiset(init + [last]) == multiset(init) + multiset{last};
  }

  // ---------------------------------------------------------------- the token-level reader

  /** The ways ScorePartwise::parse panics. */
  datatype Halt =
    | NoScore                    // read_start reached end of input
    | EndBeforeStart             // read_start: "got end instead of start"
    | NotPartwise(name: string)  // the root is not score-partwise
    | UnknownField(name: string) // from_xml(..).unwrap()
    | OutOfOrder(field: Field)   // "Out of order field"
    | UnexpectedEnd(name: string)
    | UnexpectedText
    | EofInLoop                  // end of input inside the root
    | SkipPastEnd(name: string)  // read_to_end(..).unwrap()

  /** The outcome: the record, the fields in document order and the position after
      the root's end tag; or the panic. */
  datatype Checked = Accepted(fields: ScoreFields, seen: seq<Field>, next: nat) | Rejected(why: Halt)

  /** What ScorePartwise::parse returns, or the panic that stops it. */
  datatype Outcome = Parsed(fields: ScoreFields) | Halted(why: Halt)

  /** read_start: skip to the first start tag; an end tag first panics. */
  function ReadStartAt(toks: seq<Token>, pos: nat): (r: Option<(string, nat)>)
    requires pos <= |toks|
    ensures r.Some? ==> pos < r.value.1 <= |toks| && toks[r.value.1 - 1].Start? &&
                        toks[r.value.1 - 1].name == r.value.0
    decreases |toks| - pos
  {
    if pos == |toks| then None
    else match toks[pos]
      case Start(n, _) => Some((n, pos + 1))
      case End(_) => None
      case _ => ReadStartAt(toks, pos + 1)
  }

  /** Why read_start gives up: end of input, or an end tag first. */
  function StartFailure(toks: seq<Token>, pos: nat): Halt
    requires pos <= |toks|
    decreases |toks| - pos
  {
    if pos == |toks| then NoScore
    else if toks[pos].End? then EndBeforeStart
    else StartFailure(toks, pos + 1)
  }

  /** What one token does to the field loop: stop with an outcome, or go on from
      a later position with more fields accepted. */
  datatype Move = Stop(outcome: Checked) | Go(next: nat, seen: seq<Field>)

  /** One token of the field loop at `pos`, having accepted `seen`. With `skipPart`
      false a part is not skipped (the `continue`), so its children reach the loop. */
  function FieldStep(toks: seq<Token>, pos: nat, seen: seq<Field>, skipPart: bool): (m: Move)
    requires pos < |toks| && Accepts(seen)
    ensures m.Go? ==> pos < m.next <= |toks| && Accepts(m.seen)
    ensures m.Stop? && m.outcome.Accepted? ==>
              m.outcome == Accepted(Summary(seen), seen, pos + 1) && toks[pos] == End("score-partwise")
  {
    match toks[pos]
    case Other => Go(pos + 1, seen)
    case Text(_) => Stop(Rejected(UnexpectedText))
    case End(n) =>
      if n == "score-partwise" then Stop(Accepted(Summary(seen), seen, pos + 1))
      else Stop(Rejected(UnexpectedEnd(n)))
    case Start(n, _) =>
      match FromXml(n)
      case None => Stop(Rejected(UnknownField(n)))
      case Some(f) =>
        if !IsAllowed(CursorAfter(seen), f) then Stop(Rejected(OutOfOrder(f)))
        else
          AcceptsSnoc(seen, f);
          if f == Part && !skipPart then Go(pos + 1, seen + [f])
          else match Skip(toks, pos + 1, n)
            case None => Stop(Rejected(SkipPastEnd(n)))
            case Some(k) => Go(k, seen + [f])
  }

  /** The field loop from `pos`, having accepted `seen`. */
  function FieldLoop(toks: seq<Token>, pos: nat, seen: seq<Field>, skipPart: bool): (r: Checked)
    requires pos <= |toks| && Accepts(seen)
    ensures r.Accepted? ==> Accepts(r.seen) && r.fields == Summary(r.seen)
    ensures r.Accepted? ==> pos < r.next <= |toks| && toks[r.next - 1] == End("score-partwise")
    decreases |toks| - pos
  {
    if pos == |toks| then Rejected(EofInLoop)
    else
      var m := FieldStep(toks, pos, seen, skipPart);
      if m.Stop? then m.outcome else FieldLoop(toks, m.next, m.seen, skipPart)
  }

  /** One turn of the field loop. */
  lemma FieldLoopStep(toks: seq<Token>, pos: nat, seen: seq<Field>, skipPart: bool)
    requires pos < |toks| && Accepts(seen)
    ensures FieldStep(toks, pos, seen, skipPart).Go? ==>
              FieldLoop(toks, pos, seen, skipPart) ==
              FieldLoop(toks, FieldStep(toks, pos, seen, skipPart).next, FieldStep(toks, pos, seen, skipPart).seen, skipPart)
    ensures FieldStep(toks, pos, seen, skipPart).Stop? ==>
              FieldLoop(toks, pos, seen, skipPart) == FieldStep(toks, pos, seen, skipPart).outcome
  {
  }

  function ScoreFieldsAt(toks: seq<Token>, pos: nat, skipPart: bool): (r: Checked)
    requires pos <= |toks|
    ensures r.Accepted? ==> Ordered(r.seen) && r.fields == Summary(r.seen) && pos < r.next <= |toks|
  {
    match ReadStartAt(toks, pos)
    case None => Rejected(StartFailure(toks, pos))
    case Some((name, p)) =>
      if name != "score-partwise" then Rejected(NotPartwise(name))
      else
        var r := FieldLoop(toks, p, [], skipPart);
        if r.Accepted? then AcceptsIffOrdered(r.seen); r else r
  }

  /** ScorePartwise::parse as written: a part's children are read as fields. */
  function ScoreFieldsAsWritten(toks: seq<Token>): (r: Checked)
    ensures r.Accepted? ==> Ordered(r.seen) && r.fields == Summary(r.seen) && 0 < r.next <= |toks|
  {
    ScoreFieldsAt(toks, 0, false)
  }

  /** ScorePartwise::parse with each part skipped like every other field. */
  function ScoreFieldsChecked(toks: seq<Token>): Checked {
    ScoreFieldsAt(toks, 0, true)
  }

  // ---------------------------------------------------------------- the reader methods

  /** Tokens of `<score-partwise><part-list></part-list><part><measure></measure></part></score-partwise>`. */
  const OnePart: seq<Token> := [
    Token.Start("score-partwise", []), Token.Start("part-list", []), End("part-list"),
    Token.Start("part", []), Token.Start("measure", []), End("measure"), End("part"),
    End("score-partwise")]

  /** The same with an empty part. */
  const EmptyPart: seq<Token> := [
    Token.Start("score-partwise", []), Token.Start("part-list", []), End("part-list"),
    Token.Start("part", []), End("part"), End("score-partwise")]

  lemma PartListThenPart()
    ensures Accepts([PartList]) && Accepts([PartList, Part])
    ensures CursorAfter([PartList]) == Part && CursorAfter([PartList, Part]) == PartList
    ensures Summary([PartList, Part]).parts == 1
  {
    assert [PartList][..0] == [];
    assert [PartList, Part][..1] == [PartList];
  }

  /** A part-list right after the root's start tag is accepted and skipped. */
  lemma {:induction false} PartListTurn(toks: seq<Token>, skipPart: bool)
    requires 3 < |toks| && toks[1] == Token.Start("part-list", []) && toks[2] == End("part-list")
    ensures FieldLoop(toks, 1, [], skipPart) == FieldLoop(toks, 3, [PartList], skipPart)
  {
    assert FromXml("part-list") == Some(PartList);
    assert Skip(toks, 2, "part-list") == Some(3);
    assert FieldStep(toks, 1, [], skipPart) == Go(3, [PartList]);
    FieldLoopStep(toks, 1, [], skipPart);
  }

  /** A part after the part-list is accepted; as written the loop goes on inside
      it, otherwise past its end tag. */
  lemma {:induction false} PartTurn(toks: seq<Token>, skipPart: bool)
    requires 4 < |toks| && toks[3] == Token.Start("part", [])
    ensures !skipPart ==> FieldLoop(toks, 3, [PartList], false) == FieldLoop(toks, 4, [PartList, Part], false)
    ensures skipPart && Skip(toks, 4, "part").Some? ==>
              FieldLoop(toks, 3, [PartList], true) == FieldLoop(toks, Skip(toks, 4, "part").value, [PartList, Part], true)
  {
    PartListThenPart();
    assert FromXml("part") == Some(Part);
    if skipPart {
      if Skip(toks, 4, "part").Some? {
        assert FieldStep(toks, 3, [PartList], true) == Go(Skip(toks, 4, "part").value, [PartList, Part]);
        FieldLoopStep(toks, 3, [PartList], true);
      }
    } else {
      assert FieldStep(toks, 3, [PartList], false) == Go(4, [PartList, Part]);
      FieldLoopStep(toks, 3, [PartList], false);
    }
  }

  /** The opening both documents share: the root, an empty part-list, a part. */
  predicate OpensWithPart(toks: seq<Token>) {
    4 < |toks| && toks[0] == Token.Start("score-partwise", []) &&
    toks[1] == Token.Start("part-list", []) && toks[2] == End("part-list") && toks[3] == Token.Start("part", [])
  }

  /** As written, the token after a part's start tag reaches the field loop. */
  lemma {:induction false} PartChildAsWritten(toks: seq<Token>)
    requires OpensWithPart(toks)
    ensures Accepts([PartList, Part]) && ScoreFieldsAsWritten(toks) == FieldLoop(toks, 4, [PartList, Part], false)
  {
    PartListThenPart();
    assert ReadStartAt(toks, 0) == Some(("score-partwise", 1));
    PartListTurn(toks, false);
    PartTurn(toks, false);
  }

  /** As written, a part's first child reaches the field loop: a measure is no field. */
  lemma PartWithMeasureAsWritten()
    ensures ScoreFieldsAsWritten(OnePart) == Rejected(UnknownField("measure"))
  {
    PartChildAsWritten(OnePart);
    PartListThenPart();
    assert FromXml("measure") == None;
    assert FieldStep(OnePart, 4, [PartList, Part], false) == Stop(Rejected(UnknownField("measure")));
    FieldLoopStep(OnePart, 4, [PartList, Part], false);
  }

  /** As written, an empty part's own end tag reaches the field loop. */
  lemma EmptyPartAsWritten()
    ensures ScoreFieldsAsWritten(EmptyPart) == Rejected(UnexpectedEnd("part"))
  {
    PartChildAsWritten(EmptyPart);
    PartListThenPart();
    assert FieldStep(EmptyPart, 4, [PartList, Part], false) == Stop(Rejected(UnexpectedEnd("part")));
    FieldLoopStep(EmptyPart, 4, [PartList, Part], false);
  }

  /** With each part skipped, a document whose part closes right before the root
      does is read: one part-list, one part. */
  lemma {:induction false} PartSkippedIn(toks: seq<Token>)
    requires OpensWithPart(toks) && Skip(toks, 4, "part") == Some(|toks| - 1)
    requires toks[|toks| - 1] == End("score-partwise")
    ensures ScoreFieldsChecked(toks) == Accepted(Summary([PartList, Part]), [PartList, Part], |toks|)
  {
    calc {
      ScoreFieldsChecked(toks);
      { assert ReadStartAt(toks, 0) == Some(("score-partwise", 1)); }
      FieldLoop(toks, 1, [], true);
      { PartListTurn(toks, true); }
      FieldLoop(toks, 3, [PartList], true);
      { PartTurn(toks, true); }
      FieldLoop(toks, |toks| - 1, [PartList, Part], true);
      { PartListThenPart();
        RootEndStep(toks, |toks| - 1, [PartList, Part]); }
      Accepted(Summary([PartList, Part]), [PartList, Part], |toks|);
    }
  }

  /** With each part skipped, both documents are read: one part-list, one part. */
  lemma PartSkipped()
    ensures ScoreFieldsChecked(OnePart) == Accepted(Summary([PartList, Part]), [PartList, Part], 8)
    ensures ScoreFieldsChecked(EmptyPart) == Accepted(Summary([PartList, Part]), [PartList, Part], 6)
    ensures Summary([PartList, Part]).parts == 1
  {
    assert Skip(OnePart, 4, "part") == Some(7);
    PartSkippedIn(OnePart);
    assert Skip(EmptyPart, 4, "part") == Some(5);
    PartSkippedIn(EmptyPart);
    PartListThenPart();
  }

  // ---------------------------------------------------------------- rendered documents

  /** The fields `fs` written out as empty elements, in order. */
  function Render(fs: seq<Field>): (toks: seq<Token>)
    ensures |toks| == 2 * |fs|
  {
    if fs == [] then []
    else [Token.Start(FieldName(fs[0]), []), End(FieldName(fs[0]))] + Render(fs[1..])
  }

  /** A score-partwise root holding the fields `fs`. */
  function Document(fs: seq<Field>): seq<Token> {
    [Token.Start("score-partwise", [])] + Render(fs) + [End("score-partwise")]
  }

  /** From `pos` on, `toks` holds the fields `rest` as empty elements and then the
      root's end tag. */
  ghost predicate LaysFrom(toks: seq<Token>, pos: nat, rest: seq<Field>)
    decreases |rest|
  {
    if rest == [] then pos < |toks| && toks[pos] == End("score-partwise")
    else
      pos + 1 < |toks| &&
      toks[pos] == Token.Start(FieldName(rest[0]), []) && toks[pos + 1] == End(FieldName(rest[0])) &&
      LaysFrom(toks, pos + 2, rest[1..])
  }

  lemma {:induction false} RenderLays(before: seq<Token>, fs: seq<Field>)
    ensures LaysFrom(before + Render(fs) + [End("score-partwise")], |before|, fs)
    decreases |fs|
  {
    if fs != [] {
      var element := [Token.Start(FieldName(fs[0]), []), End(FieldName(fs[0]))];
      assert before + Render(fs) + [End("score-partwise")] ==
             (before + element) + Render(fs[1..]) + [End("score-partwise")];
      RenderLays(before + element, fs[1..]);
    }
  }

  lemma DocumentLays(fs: seq<Field>)
    ensures LaysFrom(Document(fs), 1, fs) && |Document(fs)| == 2 * |fs| + 2
  {
    RenderLays([Token.Start("score-partwise", [])], fs);
  }

  /** The cursor walk over the fields `rest`, having accepted `seen`: the record of
      everything once all are allowed (the read ending at `end`), otherwise the
      first field the cursor refuses. */
  function WalkFrom(seen: seq<Field>, rest: seq<Field>, end: nat): Checked
    decreases |rest|
  {
    if rest == [] then Accepted(Summary(seen), seen, end)
    else if !IsAllowed(CursorAfter(seen), rest[0]) then Rejected(OutOfOrder(rest[0]))
    else WalkFrom(seen + [rest[0]], rest[1..], end)
  }

  lemma WalkFromStep(seen: seq<Field>, rest: seq<Field>, end: nat)
    requires rest != []
    ensures IsAllowed(CursorAfter(seen), rest[0]) ==>
              WalkFrom(seen, rest, end) == WalkFrom(seen + [rest[0]], rest[1..], end)
    ensures !IsAllowed(CursorAfter(seen), rest[0]) ==> WalkFrom(seen, rest, end) == Rejected(OutOfOrder(rest[0]))
  {
  }

  /** The first of `rest` that the cursor refuses after `seen`. */
  function FirstOut(seen: seq<Field>, rest: seq<Field>): Field
    requires rest != []
    decreases |rest|
  {
    if IsAllowed(CursorAfter(seen), rest[0]) && |rest| > 1 then FirstOut(seen + [rest[0]], rest[1..])
    else rest[0]
  }

  /** An empty field element at `pos` is checked against the cursor of the fields
      before it and, when allowed, skipped. */
  lemma EmptyFieldStep(toks: seq<Token>, pos: nat, seen: seq<Field>, f: Field)
    requires pos + 1 < |toks| && Accepts(seen)
    requires toks[pos] == Token.Start(FieldName(f), []) && toks[pos + 1] == End(FieldName(f))
    ensures IsAllowed(CursorAfter(seen), f) ==>
              Accepts(seen + [f]) &&
              FieldLoop(toks, pos, seen, true) == FieldLoop(toks, pos + 2, seen + [f], true)
    ensures !IsAllowed(CursorAfter(seen), f) ==>
              FieldLoop(toks, pos, seen, true) == Rejected(OutOfOrder(f))
  {
    FromXmlNames(f, FieldName(f));
    assert Skip(toks, pos + 1, FieldName(f)) == Some(pos + 2);
    if IsAllowed(CursorAfter(seen), f) {
      AcceptsSnoc(seen, f);
      assert FieldStep(toks, pos, seen, true) == Go(pos + 2, seen + [f]);
    } else {
      assert FieldStep(toks, pos, seen, true) == Stop(Rejected(OutOfOrder(f)));
    }
    FieldLoopStep(toks, pos, seen, true);
  }

  /** The root's end tag closes the field loop with the record of what was seen. */
  lemma RootEndStep(toks: seq<Token>, pos: nat, seen: seq<Field>)
    requires pos < |toks| && toks[pos] == End("score-partwise") && Accepts(seen)
    ensures FieldLoop(toks, pos, seen, true) == Accepted(Summary(seen), seen, pos + 1)
  {
    assert FieldStep(toks, pos, seen, true) == Stop(Accepted(Summary(seen), seen, pos + 1));
    FieldLoopStep(toks, pos, seen, true);
  }

  /** A laid-out field the cursor allows is read and the walk moves past it. */
  lemma LaidAllowed(toks: seq<Token>, pos: nat, seen: seq<Field>, rest: seq<Field>, end: nat)
    requires LaysFrom(toks, pos, rest) && Accepts(seen) && rest != []
    requires IsAllowed(CursorAfter(seen), rest[0])
    ensures Accepts(seen + [rest[0]]) && LaysFrom(toks, pos + 2, rest[1..])
    ensures FieldLoop(toks, pos, seen, true) == FieldLoop(toks, pos + 2, seen + [rest[0]], true)
    ensures WalkFrom(seen, rest, end) == WalkFrom(seen + [rest[0]], rest[1..], end)
  {
    EmptyFieldStep(toks, pos, seen, rest[0]);
    WalkFromStep(seen, rest, end);
  }

  /** A laid-out field the cursor refuses ends the loop and the walk alike. */
  lemma LaidRefused(toks: seq<Token>, pos: nat, seen: seq<Field>, rest: seq<Field>, end: nat)
    requires LaysFrom(toks, pos, rest) && Accepts(seen) && rest != []
    requires !IsAllowed(CursorAfter(seen), rest[0])
    ensures FieldLoop(toks, pos, seen, true) == WalkFrom(seen, rest, end)
  {
    EmptyFieldStep(toks, pos, seen, rest[0]);
    WalkFromStep(seen, rest, end);
  }

  /** The field loop over laid-out fields is the cursor walk over them, the read
      ending just past the root's end tag. */
  lemma {:induction false} LaidWalk(toks: seq<Token>, pos: nat, seen: seq<Field>, rest: seq<Field>, end: nat)
    requires LaysFrom(toks, pos, rest) && Accepts(seen) && end == pos + 2 * |rest| + 1
    ensures FieldLoop(toks, pos, seen, true) == WalkFrom(seen, rest, end)
    decreases |rest|
  {
    if rest == [] {
      RootEndStep(toks, pos, seen);
    } else if IsAllowed(CursorAfter(seen), rest[0]) {
      LaidAllowed(toks, pos, seen, rest, end);
      LaidWalk(toks, pos + 2, seen + [rest[0]], rest[1..], end);
    } else {
      LaidRefused(toks, pos, seen, rest, end);
    }
  }

  /** A walk that accepts `seen + [f]` allowed `f` after `seen`. */
  lemma AcceptsLast(seen: seq<Field>, f: Field)
    requires Accepts(seen + [f])
    ensures IsAllowed(CursorAfter(seen), f)
  {
    assert (seen + [f])[..|seen|] == seen;
  }

  lemma {:induction false} AcceptsPrefix(fs: seq<Field>, k: nat)
    requires k <= |fs| && Accepts(fs)
    ensures Accepts(fs[..k])
    decreases |fs| - k
  {
    if k < |fs| {
      AcceptsPrefix(fs[..|fs| - 1], k);
      assert fs[..|fs| - 1][..k] == fs[..k];
    } else {
      assert fs[..k] == fs;
    }
  }

  /** The walk accepts exactly when every field is allowed in turn, and otherwise
      names the first field refused. */
  lemma {:induction false} WalkAccepts(seen: seq<Field>, rest: seq<Field>, end: nat)
    requires Accepts(seen)
    ensures Accepts(seen + rest) ==> WalkFrom(seen, rest, end) == Accepted(Summary(seen + rest), seen + rest, end)
    ensures !Accepts(seen + rest) ==> rest != [] && WalkFrom(seen, rest, end) == Rejected(OutOfOrder(FirstOut(seen, rest)))
    decreases |rest|
  {
    if rest == [] {
      assert seen + rest == seen;
    } else {
      var f := rest[0];
      assert seen + rest == (seen + [f]) + rest[1..];
      if IsAllowed(CursorAfter(seen), f) {
        AcceptsSnoc(seen, f);
        WalkAccepts(seen + [f], rest[1..], end);
        if rest[1..] == [] {
          assert seen + rest == seen + [f];
        }
      } else {
        AcceptedHead(seen, rest);
      }
    }
  }

  /** Every field of an accepted sequence was allowed in turn, the one after
      `seen` included. */
  lemma AcceptedHead(seen: seq<Field>, rest: seq<Field>)
    requires rest != []
    ensures Accepts(seen + rest) ==> IsAllowed(CursorAfter(seen), rest[0])
  {
    var whole := seen + rest;
    if Accepts(whole) {
      AcceptsPrefix(whole, |seen| + 1);
      assert whole[..|seen| + 1] == seen + [rest[0]];
      AcceptsLast(seen, rest[0]);
    }
  }

  /** A document of empty field elements is read exactly when its fields are in
      order, and the record then counts them; otherwise the read stops at the
      first field out of order. */
  lemma RenderedDocuments(fs: seq<Field>)
    ensures Ordered(fs) ==> ScoreFieldsChecked(Document(fs)) == Accepted(Summary(fs), fs, |Document(fs)|)
    ensures !Ordered(fs) ==> fs != [] && ScoreFieldsChecked(Document(fs)) == Rejected(OutOfOrder(FirstOut([], fs)))
  {
    DocumentLays(fs);
    DocumentOpens(fs);
    LaidFields(Document(fs), fs);
  }

  /** A laid-out document opened by the root's start tag is read by the field loop. */
  lemma DocumentOpens(fs: seq<Field>)
    ensures ScoreFieldsChecked(Document(fs)) == FieldLoop(Document(fs), 1, [], true)
  {
    assert ReadStartAt(Document(fs), 0) == Some(("score-partwise", 1));
  }

  lemma LaidFields(toks: seq<Token>, fs: seq<Field>)
    requires LaysFrom(toks, 1, fs) && |toks| == 2 * |fs| + 2
    ensures Ordered(fs) ==> FieldLoop(toks, 1, [], true) == Accepted(Summary(fs), fs, |toks|)
    ensures !Ordered(fs) ==> fs != [] && FieldLoop(toks, 1, [], true) == Rejected(OutOfOrder(FirstOut([], fs)))
  {
    LaidWalk(toks, 1, [], fs, |toks|);
    WalkAccepts([], fs, |toks|);
    assert [] + fs == fs;
    AcceptsIffOrdered(fs);
  }

  /** read_start followed by the root-name assertion. */
  method ReadStart(r: Reader) returns (res: Option<string>)
    requires r.Valid()
    modifies r
    ensures r.Valid()
    ensures match ReadStartAt(r.toks, old(r.pos))
            case None => res.None?
            case Some((n, p)) => res == Some(n) && r.pos == p
  {
    while true
      invariant r.Valid() && old(r.pos) <= r.pos
      invariant ReadStartAt(r.toks, r.pos) == ReadStartAt(r.toks, old(r.pos))
      decreases |r.toks| - r.pos
    {
      var e := r.ReadEvent();
      match e {
        case None => return None;
        case Some(Start(n, _)) => return Some(n);
        case Some(End(_)) => return None;
        case Some(_) =>
      }
    }
  }

  /** ScorePartwise::parse, each part skipped: the result and the reader position
      agree with ScoreFieldsChecked. */
  method ParseScoreFields(r: Reader) returns (res: Outcome)
    requires r.Valid()
    modifies r
    ensures r.Valid()
    ensures match ScoreFieldsAt(r.toks, old(r.pos), true)
            case Accepted(fields, _, next) => res == Parsed(fields) && r.pos == next
            case Rejected(h) => res == Halted(h)
  {
    var start := r.pos;
    var root := ReadStart(r);
    if root.None? {
      return Halted(StartFailure(r.toks, start));
    }
    if root.value != "score-partwise" {
      return Halted(NotPartwise(root.value));
    }
    var fields := NoFields;
    ghost var seen: seq<Field> := [];
    var cursor := Work;
    while true
      invariant r.Valid() && Accepts(seen)
      invariant fields == Summary(seen) && cursor == CursorAfter(seen)
      invariant FieldLoop(r.toks, r.pos, seen, true) == ScoreFieldsAt(r.toks, old(r.pos), true)
      decreases |r.toks| - r.pos
    {
      var e := r.ReadEvent();
      if e.None? {
        return Halted(EofInLoop);
      }
      match e.value {
        case Other =>
        case Text(_) =>
          return Halted(UnexpectedText);
        case End(n) =>
          if n == "score-partwise" {
            return Parsed(fields);
          }
          return Halted(UnexpectedEnd(n));
        case Start(n, _) =>
          var field := FromXml(n);
          if field.None? {
            return Halted(UnknownField(n));
          }
          var f := field.value;
          if !IsAllowed(cursor, f) {
            return Halted(OutOfOrder(f));
          }
          AcceptsSnoc(seen, f);
          cursor := Next(f);
          if f == Credit || f == Part {
            cursor := Previous(cursor);
          }
          fields := Record(fields, f);
          seen := seen + [f];
          var ok := r.ReadToEnd(n);
          if !ok {
            return Halted(SkipPastEnd(n));
          }
      }
    }
  }
}
