/** The pull-based token source the MusicXML parsers read from: a finite list of
    tokens and a cursor. Reading past the last token yields end of input, again and
    again. The two primitives the parsers use besides reading one event are "skip the
    rest of this element" (read_to_end) and "read the text of this element" (read_text). */
module Xml {

  datatype Option<+T> = None | Some(value: T) {
    function GetOr(default: T): T {
      match this
      case Some(v) => v
      case None => default
    }
  }

  datatype Attr = Attr(key: string, value: string)

  /** One event of the token source. Empty elements arrive expanded (a start tag
      immediately followed by its end tag). Other stands for comments, declarations,
      processing instructions and the like, which every parsing loop ignores. */
  datatype Token =
    | Start(name: string, attrs: seq<Attr>)
    | End(name: string)
    | Text(text: string)
    | Other

  /** Why the program aborts: an unwrap, expect or assertion that fails. */
  datatype Reason =
    | SkipEof(element: string)          // read_to_end(..).unwrap() reached end of input
    | EndMismatch(expected: string, got: string)  // assert_eq! on the closing tag's name
    | MissingStep                       // expect("missing step in pitch")
    | MissingOctave                     // expect("missing octave in pitch")
    | MissingBeats                      // beats.unwrap() in Time::parse
    | MissingBeatType                   // beat_type.unwrap() in Time::parse
    | MissingSign                       // sign.unwrap() in Clef::parse
    | MissingTieKind                    // kind.expect("Missing kind") in Tie::parse

  /** MusicXmlParseError, plus the aborts of the program as values. */
  datatype Error =
    | MissingTag(tag: string)
    | UnexpectedEof
    | MissedEnd(element: string)        // the token source's own error, propagated with `?`
    | Panic(reason: Reason)

  datatype Result<+T> = Ok(value: T) | Err(error: Error)

  /** What a parser computes from a cursor position: the value and the position
      just after the element, or the error it stops with. */
  datatype Parsed<+T> = Done(value: T, next: nat) | Fail(error: Error)

  /** A method's (result, reader position) agrees with a spec function's outcome. */
  predicate Agrees<T(==)>(res: Result<T>, pos: nat, p: Parsed<T>) {
    match p
    case Done(v, n) => res == Ok(v) && pos == n
    case Fail(e) => res == Err(e)
  }

  function Peek(toks: seq<Token>, pos: nat): (e: Option<Token>)
    ensures e.Some? <==> pos < |toks|
    ensures pos < |toks| ==> e.value == toks[pos]
  {
    if pos < |toks| then Some(toks[pos]) else None
  }

  /** read_to_end(name) after the start tag of `name` has been read: scan forward,
      counting nested start tags of the same name, until the end tag that closes it.
      Returns the position just after that end tag, or None at end of input. */
  function SkipFrom(toks: seq<Token>, pos: nat, name: string, depth: nat): (r: Option<nat>)
    requires pos <= |toks|
    ensures r.Some? ==> pos < r.value <= |toks| && toks[r.value - 1] == End(name)
    decreases |toks| - pos
  {
    if pos == |toks| then None
    else match toks[pos]
      case Start(n, _) =>
        SkipFrom(toks, pos + 1, name, if n == name then depth + 1 else depth)
      case End(n) =>
        if n != name then SkipFrom(toks, pos + 1, name, depth)
        else if depth == 0 then Some(pos + 1)
        else SkipFrom(toks, pos + 1, name, depth - 1)
      case _ => SkipFrom(toks, pos + 1, name, depth)
  }

  function Skip(toks: seq<Token>, pos: nat, name: string): (r: Option<nat>)
    requires pos <= |toks|
    ensures r.Some? ==> pos < r.value <= |toks| && toks[r.value - 1] == End(name)
  {
    SkipFrom(toks, pos, name, 0)
  }

  /** The character data of a token span, in order. */
  function TextOf(ts: seq<Token>): string {
    if ts == [] then []
    else (if ts[0].Text? then ts[0].text else []) + TextOf(ts[1..])
  }

  /** read_text(name): skip to the closing tag and return the text inside;
      at end of input there is no text and the cursor stays at the end. */
  function ReadTextAt(toks: seq<Token>, pos: nat, name: string): (r: (Option<string>, nat))
    requires pos <= |toks|
    ensures pos <= r.1 <= |toks|
    ensures r.0.Some? <==> Skip(toks, pos, name).Some?
    ensures r.0.None? ==> r.1 == |toks|
    ensures r.0.Some? ==> r.1 == Skip(toks, pos, name).value
  {
    match Skip(toks, pos, name)
    case None => (None, |toks|)
    case Some(n) => (Some(TextOf(toks[pos..n - 1])), n)
  }

  class Reader {
    const toks: seq<Token>
    var pos: nat

    ghost predicate Valid()
      reads this
    {
      pos <= |toks|
    }

    constructor (toks: seq<Token>)
      ensures Valid() && this.toks == toks && pos == 0
    {
      this.toks := toks;
      pos := 0;
    }

    /** read_event: the next token, or None at end of input (which does not advance). */
    method ReadEvent() returns (e: Option<Token>)
      requires Valid()
      modifies this
      ensures Valid()
      ensures e == Peek(toks, old(pos))
      ensures pos == if e.Some? then old(pos) + 1 else old(pos)
    {
      if pos < |toks| {
        e := Some(toks[pos]);
        pos := pos + 1;
      } else {
        e := None;
      }
    }

    /** read_to_end(name); false is the token source's error (end of input first). */
    method ReadToEnd(name: string) returns (ok: bool)
      requires Valid()
      modifies this
      ensures Valid()
      ensures ok == Skip(toks, old(pos), name).Some?
      ensures pos == if ok then Skip(toks, old(pos), name).value else |toks|
    {
      var depth: nat := 0;
      while true
        invariant Valid() && old(pos) <= pos
        invariant SkipFrom(toks, pos, name, depth) == Skip(toks, old(pos), name)
        decreases |toks| - pos
      {
        var e := ReadEvent();
        match e {
          case None =>
            return false;
          case Some(Start(n, _)) =>
            if n == name {
              depth := depth + 1;
            }
          case Some(End(n)) =>
            if n == name {
              if depth == 0 {
                return true;
              }
              depth := depth - 1;
            }
          case Some(_) =>
        }
      }
    }

    /** read_text(name). */
    method ReadText(name: string) returns (t: Option<string>)
      requires Valid()
      modifies this
      ensures Valid()
      ensures (t, pos) == ReadTextAt(toks, old(pos), name)
    {
      var from := pos;
      var ok := ReadToEnd(name);
      if ok {
        t := Some(TextOf(toks[from..pos - 1]));
      } else {
        t := None;
      }
    }
  }
}
