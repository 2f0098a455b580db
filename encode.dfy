/** The delta encoder at the end of `parse` in src/main.rs: the tick map is walked
    in ascending tick order and every message becomes a track event whose delta is
    the distance from the previous tick (carried by the first message of a tick,
    zero for the rest); then the whole conversion from a score to a single-track
    Standard MIDI File at 480 ticks per quarter note. */
module Encode {
  import opened Score
  import opened Midi
  import opened Schedule

  /** A track event: a delta time and a message. */
  datatype TrackEvent = TrackEvent(delta: nat, msg: Message)

  datatype Format = SingleTrack

  /** The file: format 0, metrical timing, its tracks. */
  datatype Smf = Smf(format: Format, ticksPerQuarter: nat, tracks: seq<seq<TrackEvent>>)

  /** `(delta as u32).into()` into the 28-bit delta field: truncation to 32 bits,
      then to the low 28. */
  function Wire28(delta: nat): (r: nat)
    ensures r < 0x1000_0000 && (delta < 0x1000_0000 ==> r == delta)
  {
    delta % 0x1_0000_0000 % 0x1000_0000
  }

  // ---------------------------------------------------------------- the specification

  /** The smallest element of a nonempty set of ticks. */
  ghost function Least(s: set<nat>): (k: nat)
    requires s != {}
    ensures k in s && forall j :: j in s ==> k <= j
    decreases s
  {
    var x :| x in s;
    if s == {x} then x
    else
      var m := Least(s - {x});
      assert forall j :: j in s ==> j == x || j in s - {x};
      if x < m then x else m
  }

  /** The smallest tick of a nonempty tick map: the first a BTreeMap yields. */
  ghost function MinKey(events: map<nat, seq<Message>>): (k: nat)
    requires events != map[]
    ensures k in events && forall j :: j in events ==> k <= j
  {
    assert events.Keys != {} by {
      var j :| j in events;
      assert j in events.Keys;
    }
    Least(events.Keys)
  }

  /** The events of one tick: the first carries the delta, the others zero. */
  function Stamp(msgs: seq<Message>, delta: nat): (r: seq<TrackEvent>)
    ensures |r| == |msgs|
    ensures forall j :: 0 <= j < |msgs| ==> r[j] == TrackEvent(if j == 0 then delta else 0, msgs[j])
  {
    if msgs == [] then [] else [TrackEvent(delta, msgs[0])] + Stamp(msgs[1..], 0)
  }

  /** The track for the ticks of `events`, starting from the tick `prev`. */
  ghost function EncodeFrom(events: map<nat, seq<Message>>, prev: nat): seq<TrackEvent>
    requires forall k :: k in events ==> prev <= k
    decreases |events.Keys|
  {
    if events == map[] then []
    else
      var p := MinKey(events);
      var rest := events - {p};
      assert rest.Keys == events.Keys - {p};
      Stamp(events[p], Wire28(p - prev)) + EncodeFrom(rest, p)
  }

  ghost function Encoded(events: map<nat, seq<Message>>): seq<TrackEvent> {
    EncodeFrom(events, 0)
  }

  // ---------------------------------------------------------------- the method

  /** One step of the walk: the smallest tick first, then the rest from there. */
  lemma EncodeFromMin(events: map<nat, seq<Message>>, prev: nat, p: nat)
    requires forall k :: k in events ==> prev <= k
    requires p in events && forall k :: k in events ==> p <= k
    ensures EncodeFrom(events, prev) == Stamp(events[p], Wire28(p - prev)) + EncodeFrom(events - {p}, p)
  {
    assert p == MinKey(events);
  }

  /** The inner loop: the events of one tick appended to the track. */
  method StampInto(track: seq<TrackEvent>, msgs: seq<Message>, delta: nat) returns (track': seq<TrackEvent>)
    ensures track' == track + Stamp(msgs, delta)
  {
    track' := track;
    for j := 0 to |msgs|
      invariant track' == track + Stamp(msgs[..j], delta)
    {
      assert msgs[..j + 1] == msgs[..j] + [msgs[j]];
      StampSnoc(msgs[..j], msgs[j], delta);
      track' := track' + [TrackEvent(if j == 0 then delta else 0, msgs[j])];
    }
    assert msgs[..|msgs|] == msgs;
  }

  /** The encoder loop: `for (position, events) in events`, ascending. */
  method EncodeEvents(events: map<nat, seq<Message>>) returns (track: seq<TrackEvent>)
    ensures track == Encoded(events)
  {
    track := [];
    var rest := events;
    var prev: nat := 0;
    while rest != map[]
      invariant forall k :: k in rest ==> prev <= k
      invariant track + EncodeFrom(rest, prev) == Encoded(events)
      decreases |rest.Keys|
    {
      ghost var least := MinKey(rest);
      var position :| position in rest && forall k :: k in rest ==> position <= k;
      EncodeFromMin(rest, prev, position);
      ghost var before := track;
      ghost var stamped := Stamp(rest[position], Wire28(position - prev));
      ghost var tail := EncodeFrom(rest - {position}, position);
      track := StampInto(track, rest[position], Wire28(position - prev));
      Associate(before, stamped, tail);
      assert (rest - {position}).Keys == rest.Keys - {position};
      rest := rest - {position};
      prev := position;
    }
  }

  /** Regrouping the track's three pieces; a separate lemma so that the loop's
      proof does not do the sequence reasoning in its own large context. */
  lemma Associate(a: seq<TrackEvent>, b: seq<TrackEvent>, c: seq<TrackEvent>)
    ensures a + b + c == a + (b + c)
  {
  }

  lemma {:induction false} StampSnoc(msgs: seq<Message>, m: Message, delta: nat)
    ensures Stamp(msgs + [m], delta) == Stamp(msgs, delta) + [TrackEvent(if msgs == [] then delta else 0, m)]
  {
  }

  // ---------------------------------------------------------------- reading the track back

  /** The messages `msgs`, all at `at`. */
  function Pin(at: nat, msgs: seq<Message>): (r: seq<Placed>)
    ensures |r| == |msgs|
  {
    if msgs == [] then [] else [Placed(at, msgs[0])] + Pin(at, msgs[1..])
  }

  /** A track read back: every event at the running sum of the deltas from `t`. */
  function Placements(track: seq<TrackEvent>, t: nat): seq<Placed> {
    if track == [] then []
    else [Placed(t + track[0].delta, track[0].msg)] + Placements(track[1..], t + track[0].delta)
  }

  /** The tick map in ascending tick order, flattened. */
  ghost function Flatten(events: map<nat, seq<Message>>): seq<Placed>
    decreases |events.Keys|
  {
    if events == map[] then []
    else
      var p := MinKey(events);
      assert (events - {p}).Keys == events.Keys - {p};
      Pin(p, events[p]) + Flatten(events - {p})
  }

  lemma {:induction false} PlacementsStamp(msgs: seq<Message>, delta: nat, more: seq<TrackEvent>, t: nat)
    requires msgs != []
    ensures Placements(Stamp(msgs, delta) + more, t) == Pin(t + delta, msgs) + Placements(more, t + delta)
    decreases |msgs|
  {
    var head := [TrackEvent(delta, msgs[0])];
    assert Stamp(msgs, delta) + more == head + (Stamp(msgs[1..], 0) + more);
    if |msgs| > 1 {
      PlacementsStamp(msgs[1..], 0, more, t + delta);
    } else {
      assert Stamp(msgs[1..], 0) + more == more;
    }
  }

  /** Every tick's list is nonempty and every gap fits the 28-bit delta field. */
  ghost predicate Encodable(events: map<nat, seq<Message>>) {
    forall k :: k in events ==> events[k] != [] && k < 0x1000_0000
  }

  /** Summing the deltas from `prev` restores every tick. */
  lemma {:induction false} PlacementsEncode(events: map<nat, seq<Message>>, prev: nat)
    requires Encodable(events)
    requires forall k :: k in events ==> prev <= k
    ensures Placements(EncodeFrom(events, prev), prev) == Flatten(events)
    decreases |events.Keys|
  {
    if events != map[] {
      var p := MinKey(events);
      var rest := events - {p};
      assert rest.Keys == events.Keys - {p};
      PlacementsEncode(rest, p);
      PlacementsStamp(events[p], p - prev, EncodeFrom(rest, p), prev);
    }
  }

  lemma {:induction false} AtAppend(a: seq<Placed>, b: seq<Placed>, at: nat)
    ensures At(a + b, at) == At(a, at) + At(b, at)
    decreases |b|
  {
    if b == [] {
      assert a + b == a;
    } else {
      AtAppend(a, b[..|b| - 1], at);
      assert (a + b)[..|a + b| - 1] == a + b[..|b| - 1];
    }
  }

  lemma {:induction false} AtPin(p: nat, msgs: seq<Message>, at: nat)
    ensures At(Pin(p, msgs), at) == if at == p then msgs else []
    decreases |msgs|
  {
    if msgs != [] {
      AtPin(p, msgs[1..], at);
      AtAppend([Placed(p, msgs[0])], Pin(p, msgs[1..]), at);
      assert At([Placed(p, msgs[0])], at) == if at == p then [msgs[0]] else [] by {
        assert [Placed(p, msgs[0])][..0] == [];
      }
    }
  }

  /** The flattened map lists, at each tick, exactly that tick's messages. */
  lemma {:induction false} AtFlatten(events: map<nat, seq<Message>>, at: nat)
    ensures At(Flatten(events), at) == if at in events then events[at] else []
    decreases |events.Keys|
  {
    if events != map[] {
      var p := MinKey(events);
      var rest := events - {p};
      assert rest.Keys == events.Keys - {p};
      AtFlatten(rest, at);
      AtAppend(Pin(p, events[p]), Flatten(rest), at);
      AtPin(p, events[p], at);
    }
  }

  /** Reading a track back and filing its events under their ticks restores the
      tick map it was encoded from. */
  lemma DecodeEncode(events: map<nat, seq<Message>>)
    requires Encodable(events)
    ensures Group(Placements(Encoded(events), 0)) == events
  {
    PlacementsEncode(events, 0);
    var g := Group(Flatten(events));
    forall at | true
      ensures at in g <==> at in events
      ensures at in g ==> g[at] == events[at]
    {
      GroupIsFilter(Flatten(events), at);
      AtFlatten(events, at);
    }
  }

  // ---------------------------------------------------------------- the delta sum

  function SumDeltas(track: seq<TrackEvent>): nat {
    if track == [] then 0 else track[0].delta + SumDeltas(track[1..])
  }

  lemma {:induction false} SumDeltasAppend(a: seq<TrackEvent>, b: seq<TrackEvent>)
    ensures SumDeltas(a + b) == SumDeltas(a) + SumDeltas(b)
    decreases |a|
  {
    if a == [] {
      assert a + b == b;
    } else {
      SumDeltasAppend(a[1..], b);
      assert (a + b)[1..] == a[1..] + b;
    }
  }

  lemma {:induction false} SumStamp(msgs: seq<Message>, delta: nat)
    requires msgs != []
    ensures SumDeltas(Stamp(msgs, delta)) == delta
    decreases |msgs|
  {
    if |msgs| > 1 {
      SumStamp(msgs[1..], 0);
    }
  }

  /** The largest tick of a tick map, `from` when it is empty. */
  ghost function LastTick(events: map<nat, seq<Message>>, from: nat): (t: nat)
    ensures from <= t
    ensures forall k :: k in events ==> k <= t
    ensures events != map[] && (forall k :: k in events ==> from <= k) ==> t in events
    decreases |events.Keys|
  {
    if events == map[] then from
    else
      var p := MinKey(events);
      var rest := events - {p};
      assert rest.Keys == events.Keys - {p};
      var t := LastTick(rest, if from < p then p else from);
      assert forall k :: k in events ==> k == p || k in rest;
      t
  }

  /** The first tick's events carry the gap from `prev`; the rest follow from it. */
  lemma FirstGapSum(events: map<nat, seq<Message>>, prev: nat)
    requires Encodable(events) && events != map[]
    requires forall k :: k in events ==> prev <= k
    ensures var p := MinKey(events);
            SumDeltas(EncodeFrom(events, prev)) == p - prev + SumDeltas(EncodeFrom(events - {p}, p))
  {
    var p := MinKey(events);
    assert Wire28(p - prev) == p - prev;
    SumStamp(events[p], p - prev);
    SumDeltasAppend(Stamp(events[p], p - prev), EncodeFrom(events - {p}, p));
  }

  /** The deltas add up to the last tick that holds a message, measured from `prev`. */
  lemma {:induction false} DeltasSumFrom(events: map<nat, seq<Message>>, prev: nat)
    requires Encodable(events)
    requires forall k :: k in events ==> prev <= k
    ensures SumDeltas(EncodeFrom(events, prev)) == LastTick(events, prev) - prev
    decreases |events.Keys|
  {
    if events != map[] {
      var p := MinKey(events);
      var rest := events - {p};
      assert rest.Keys == events.Keys - {p};
      FirstGapSum(events, prev);
      DeltasSumFrom(rest, p);
      assert LastTick(events, prev) == LastTick(rest, p);
    }
  }

  /** The track lasts up to its last message: the deltas sum to the largest tick. */
  lemma DeltasSumToLastTick(events: map<nat, seq<Message>>)
    requires Encodable(events) && events != map[]
    ensures SumDeltas(Encoded(events)) == LastTick(events, 0)
    ensures LastTick(events, 0) in events
  {
    DeltasSumFrom(events, 0);
  }

  // ---------------------------------------------------------------- the conversion

  /** `parse` after deserialisation: exactly one part, its measure items scheduled,
      the tick map encoded as the one track of a format 0 file at 480 ticks per
      quarter note. */
  ghost function Converted(score: ScorePartwise): Outcome<Smf> {
    if |score.part| != 1 then Abort(NotOnePart(|score.part|))
    else match Run(Items(score))
      case Abort(f) => Abort(f)
      case Value(st) => Value(Smf(SingleTrack, TicksPerQuarter, [Encoded(Group(st.log))]))
  }

  method Convert(score: ScorePartwise) returns (r: Outcome<Smf>)
    ensures r == Converted(score)
  {
    if |score.part| != 1 {
      return Abort(NotOnePart(|score.part|));
    }
    var events := ScheduleItems(Items(score));
    if events.Abort? {
      return Abort(events.fault);
    }
    var track := EncodeEvents(events.value);
    return Value(Smf(SingleTrack, TicksPerQuarter, [track]));
  }

  /** A tick map built by filing messages never holds an empty list. */
  lemma GroupEncodable(log: seq<Placed>)
    requires forall x :: 0 <= x < |log| ==> log[x].at < 0x1000_0000
    ensures Encodable(Group(log))
  {
    forall at | at in Group(log)
      ensures Group(log)[at] != [] && at < 0x1000_0000
    {
      GroupIsFilter(log, at);
      AtTicks(log, at);
    }
  }

  /** A tick that has messages is the tick of some filed message. */
  lemma {:induction false} AtTicks(log: seq<Placed>, at: nat)
    requires At(log, at) != []
    ensures exists x :: 0 <= x < |log| && log[x].at == at
  {
    var last := log[|log| - 1];
    if last.at != at {
      AtTicks(log[..|log| - 1], at);
      var x :| 0 <= x < |log| - 1 && log[..|log| - 1][x].at == at;
      assert log[x].at == at;
    }
  }

  /** The file holds one track; reading it back by summing the deltas gives, tick
      by tick, the messages the scheduler filed there, in filing order. */
  lemma ConvertedTrackDecodes(score: ScorePartwise)
    requires |score.part| == 1 && Run(Items(score)).Value?
    requires var log := Run(Items(score)).value.log;
             forall x :: 0 <= x < |log| ==> log[x].at < 0x1000_0000
    ensures Converted(score).Value? && |Converted(score).value.tracks| == 1
    ensures var log := Run(Items(score)).value.log;
            forall at :: At(log, at) != [] <==> at in Group(Placements(Converted(score).value.tracks[0], 0))
    ensures var log := Run(Items(score)).value.log;
            forall at :: At(log, at) != [] ==> Group(Placements(Converted(score).value.tracks[0], 0))[at] == At(log, at)
  {
    var log := Run(Items(score)).value.log;
    GroupEncodable(log);
    DecodeEncode(Group(log));
    forall at
      ensures At(log, at) != [] <==> at in Group(log)
      ensures at in Group(log) ==> Group(log)[at] == At(log, at)
    {
      GroupIsFilter(log, at);
    }
  }
}
