/**
 Properties of the flub engine that relate several events, several tracks
 or several draw streams.
 */
module FlubProperties {
  import opened Midi
  import opened Randomness
  import opened Substitute
  import opened Engine

  /** True when `e` is a note event (on or off) whose intended pitch is `p`. */
  predicate Touches(e: Event, p: int) {
    Classify(e) != Pass && e.pitch == p
  }

  /** Processing `rest` after a run that may already have failed. */
  function ThenTrack(first: Option<Run>, rest: seq<Event>, draws: seq<Unit>): Option<Run> {
    match first
    case None => None
    case Some(a) =>
      match ProcessTrack(a.state, rest, draws, a.pos)
      case None => None
      case Some(b) => Some(Run(a.events + b.events, b.state, b.pos))
  }

  /** The events of all tracks, one after the other. */
  function Concat(tracks: seq<Track>): seq<Event> {
    if tracks == [] then [] else tracks[0] + Concat(tracks[1..])
  }

  /** A track whose first event steps successfully continues with the rest
      from the state and draw position that step leaves. */
  lemma StepThen(s: State, e: Event, rest: seq<Event>, draws: seq<Unit>, pos: nat, st: Stepped)
    requires Step(s, e, draws, pos) == Some(st)
    ensures ProcessTrack(s, [e] + rest, draws, pos) == ThenTrack(Some(Run([st.event], st.state, st.pos)), rest, draws)
  {
    assert ([e] + rest)[0] == e;
    assert ([e] + rest)[1..] == rest;
  }

  /** The fold over a track splits at any point: the second part starts from
      the state and the draw position the first part leaves. */
  lemma {:induction false} TrackAppend(s: State, a: seq<Event>, b: seq<Event>, draws: seq<Unit>, pos: nat)
    ensures ProcessTrack(s, a + b, draws, pos) == ThenTrack(ProcessTrack(s, a, draws, pos), b, draws)
    decreases |a|
  {
    if a == [] {
      assert a + b == b;
      var rb := ProcessTrack(s, b, draws, pos);
      if rb.Some? {
        assert [] + rb.value.events == rb.value.events;
      }
    } else {
      var e, tail := a[0], a[1..];
      assert a == [e] + tail;
      assert a + b == [e] + (tail + b);
      var step := Step(s, e, draws, pos);
      if step.None? {
        assert (a + b)[0] == e && a[0] == e;
        return;
      }
      var st := step.value;
      StepThen(s, e, tail + b, draws, pos, st);
      StepThen(s, e, tail, draws, pos, st);
      TrackAppend(st.state, tail, b, draws, st.pos);
      var ra := ProcessTrack(st.state, tail, draws, st.pos);
      if ra.Some? {
        var rb := ProcessTrack(ra.value.state, b, draws, ra.value.pos);
        if rb.Some? {
          assert [st.event] + (ra.value.events + rb.value.events) == ([st.event] + ra.value.events) + rb.value.events;
        }
      }
    }
  }

  /** Since the state is never reset, a song is processed exactly like the
      single track made of all its tracks' events in order. */
  lemma {:induction false} SongIsOneLongTrack(s: State, tracks: seq<Track>, draws: seq<Unit>, pos: nat)
    ensures ProcessSong(s, tracks, draws, pos).Some? <==> ProcessTrack(s, Concat(tracks), draws, pos).Some?
    ensures ProcessSong(s, tracks, draws, pos).Some? ==>
      var a := ProcessSong(s, tracks, draws, pos).value;
      var b := ProcessTrack(s, Concat(tracks), draws, pos).value;
      Concat(a.tracks) == b.events && a.state == b.state && a.pos == b.pos
    decreases |tracks|
  {
    if tracks != [] {
      TrackAppend(s, tracks[0], Concat(tracks[1..]), draws, pos);
      var run := ProcessTrack(s, tracks[0], draws, pos);
      if run.Some? {
        SongIsOneLongTrack(run.value.state, tracks[1..], draws, run.value.pos);
        var rest := ProcessSong(run.value.state, tracks[1..], draws, run.value.pos);
        if rest.Some? {
          assert ([run.value.events] + rest.value.tracks)[1..] == rest.value.tracks;
        }
      }
    }
  }

  /** Events that are not note events of intended pitch `p` leave the flub
      record of `p` as it was. */
  lemma {:induction false} FlubRecordFrame(s: State, events: seq<Event>, draws: seq<Unit>, pos: nat, p: int)
    requires forall i :: 0 <= i < |events| ==> !Touches(events[i], p)
    requires ProcessTrack(s, events, draws, pos).Some?
    ensures SameEntry(s.flubs, ProcessTrack(s, events, draws, pos).value.state.flubs, p)
    decreases |events|
  {
    if events != [] {
      var st := Step(s, events[0], draws, pos).value;
      assert !Touches(events[0], p);
      FlubRecordFrame(st.state, events[1..], draws, st.pos, p);
    }
  }

  /** Pairing: a note-off finds the key its note-on actually played, however
      many unrelated events lie between them, and that key is then free.
      It holds unless a stale record for the pitch survives from an earlier
      flub whose note-off never came and the note-on is played as written. */
  lemma PairedNoteOff(s: State, on: Event, mid: seq<Event>, off: Event, draws: seq<Unit>, pos: nat)
    requires Classify(on) == Press && Classify(off) == Release && off.pitch == on.pitch
    requires forall i :: 0 <= i < |mid| ==> !Touches(mid[i], on.pitch)
    requires on.pitch !in s.flubs || on.pitch in s.held
    ensures var r := ProcessTrack(s, [on] + mid + [off], draws, pos);
      r.Some? ==> r.value.events[|mid| + 1].pitch == r.value.events[0].pitch && r.value.events[0].pitch !in r.value.state.held
  {
    var rest := mid + [off];
    assert [on] + mid + [off] == [on] + rest;
    var step := Step(s, on, draws, pos);
    if step.None? {
      assert ([on] + rest)[0] == on;
      return;
    }
    var st := step.value;
    PressResolves(s, on, draws, pos);
    TrackAppend(st.state, mid, [off], draws, st.pos);
    var ra := ProcessTrack(st.state, mid, draws, st.pos);
    if ra.None? {
      StepThen(s, on, rest, draws, pos, st);
      return;
    }
    FlubRecordFrame(st.state, mid, draws, st.pos, on.pitch);
    ClosingNoteOff(ra.value.state, off, draws, ra.value.pos);
    var rb := ProcessTrack(ra.value.state, [off], draws, ra.value.pos).value;
    StepThen(s, on, rest, draws, pos, st);
    var events := [st.event] + (ra.value.events + rb.events);
    assert events[|mid| + 1] == rb.events[0];
  }

  /** A track made of one note-off releases the key its pitch resolves to. */
  lemma ClosingNoteOff(s: State, off: Event, draws: seq<Unit>, pos: nat)
    requires Classify(off) == Release
    ensures var r := ProcessTrack(s, [off], draws, pos);
      && r.Some?
      && r.value.events == [off.(pitch := Resolve(s.flubs, off.pitch))]
      && Resolve(s.flubs, off.pitch) !in r.value.state.held
      && off.pitch !in r.value.state.flubs
      && r.value.pos == pos
  {
    var last := HandleNoteOff(s, off, pos);
    assert [off][1..] == [];
    assert Step(s, off, draws, pos) == Some(last);
    assert ProcessTrack(last.state, [], draws, last.pos) == Some(Run([], last.state, last.pos));
    assert [last.event] + [] == [last.event];
  }

  /** Right after a note-on, a note-off of its intended pitch would release
      the played key, unless a stale record was outstanding. */
  lemma PressResolves(s: State, on: Event, draws: seq<Unit>, pos: nat)
    requires Classify(on) == Press
    requires on.pitch !in s.flubs || on.pitch in s.held
    requires Step(s, on, draws, pos).Some?
    ensures Resolve(Step(s, on, draws, pos).value.state.flubs, on.pitch) == Step(s, on, draws, pos).value.event.pitch
  {
    assert Step(s, on, draws, pos) == HandleNoteOn(s, on, draws, pos);
  }

  /** Supplying more draws than a run reads changes nothing: the length of
      the stream only bounds the search. */
  lemma {:induction false} SearchFromExtends(held: set<int>, p: int, draws: seq<Unit>, extra: seq<Unit>, at: nat, k: nat)
    requires SearchFrom(held, p, draws, at, k).Some?
    ensures SearchFrom(held, p, draws + extra, at, k) == SearchFrom(held, p, draws, at, k)
    decreases |draws| - at - 2 * k
  {
    assert HasAttempt(draws, at, k);
    assert (draws + extra)[at + 2 * k] == draws[at + 2 * k];
    assert (draws + extra)[at + 2 * k + 1] == draws[at + 2 * k + 1];
    assert Candidate(p, draws + extra, at, k) == Candidate(p, draws, at, k);
    if Candidate(p, draws, at, k) in held {
      SearchFromExtends(held, p, draws, extra, at, k + 1);
    }
  }

  lemma FlubExtends(s: State, e: Event, draws: seq<Unit>, extra: seq<Unit>, at: nat)
    requires Flub(s, e, draws, at).Some?
    ensures Flub(s, e, draws + extra, at) == Flub(s, e, draws, at)
  {
    SearchFromExtends(s.held, e.pitch, draws, extra, at, 0);
    assert Search(s.held, e.pitch, draws + extra, at) == Search(s.held, e.pitch, draws, at);
  }

  lemma StepExtends(s: State, e: Event, draws: seq<Unit>, extra: seq<Unit>, pos: nat)
    requires Step(s, e, draws, pos).Some?
    ensures Step(s, e, draws + extra, pos) == Step(s, e, draws, pos)
  {
    if Classify(e) == Press {
      assert Step(s, e, draws, pos) == HandleNoteOn(s, e, draws, pos);
      assert Step(s, e, draws + extra, pos) == HandleNoteOn(s, e, draws + extra, pos);
      if e.pitch in s.held {
        FlubExtends(s, e, draws, extra, pos);
      } else {
        PlayFreeKeyExtends(s, e, draws, extra, pos);
      }
    }
  }

  lemma PlayFreeKeyExtends(s: State, e: Event, draws: seq<Unit>, extra: seq<Unit>, pos: nat)
    requires e.pitch !in s.held
    requires PlayFreeKey(s, e, draws, pos).Some?
    ensures PlayFreeKey(s, e, draws + extra, pos) == PlayFreeKey(s, e, draws, pos)
  {
    assert (draws + extra)[pos] == draws[pos];
    if FlubByChance(draws[pos]) {
      FlubExtends(s, e, draws, extra, pos + 1);
    }
  }

  lemma {:induction false} TrackExtends(s: State, events: seq<Event>, draws: seq<Unit>, extra: seq<Unit>, pos: nat)
    requires ProcessTrack(s, events, draws, pos).Some?
    ensures ProcessTrack(s, events, draws + extra, pos) == ProcessTrack(s, events, draws, pos)
    decreases |events|
  {
    if events != [] {
      StepExtends(s, events[0], draws, extra, pos);
      var st := Step(s, events[0], draws, pos).value;
      TrackExtends(st.state, events[1..], draws, extra, st.pos);
    }
  }

  /** A song that completes on some draws completes identically on any
      longer stream. */
  lemma {:induction false} SongExtends(s: State, tracks: seq<Track>, draws: seq<Unit>, extra: seq<Unit>, pos: nat)
    requires ProcessSong(s, tracks, draws, pos).Some?
    ensures ProcessSong(s, tracks, draws + extra, pos) == ProcessSong(s, tracks, draws, pos)
    decreases |tracks|
  {
    if tracks != [] {
      TrackExtends(s, tracks[0], draws, extra, pos);
      var run := ProcessTrack(s, tracks[0], draws, pos).value;
      SongExtends(run.state, tracks[1..], draws, extra, run.pos);
    }
  }

  /** A track with no note events passes through untouched: same events,
      same state, no draw consumed. */
  lemma {:induction false} PassThroughTrack(s: State, events: seq<Event>, draws: seq<Unit>, pos: nat)
    requires forall i :: 0 <= i < |events| ==> Classify(events[i]) == Pass
    ensures ProcessTrack(s, events, draws, pos) == Some(Run(events, s, pos))
    decreases |events|
  {
    if events != [] {
      PassThroughTrack(s, events[1..], draws, pos);
      assert [events[0]] + events[1..] == events;
    }
  }

  /** Among the `|held|` keys above a held key at least one is free. */
  lemma {:induction false} FreeKeyAbove(held: set<int>, p: int) returns (c: int)
    requires p in held
    ensures p < c <= p + |held| && c !in held
    decreases |held|
  {
    if p + 1 !in held {
      c := p + 1;
    } else {
      c := FreeKeyAbove(held - {p}, p + 1);
    }
  }

  /** A magnitude draw that lands exactly `d` keys away. */
  lemma MagnitudeDraw(d: int, range: int) returns (u: Unit)
    requires 1 <= d <= range
    ensures Magnitude(u, range) == d
  {
    var x: real := (d as real - 0.5) / range as real;
    FractionBounds(d as real - 0.5, range as real);
    u := x;
    var m := Magnitude(u, range);
    assert u * range as real == d as real - 0.5;
    assert m as real - 1.0 < d as real - 0.5 <= m as real;
  }

  /** A proper fraction of positive reals lies strictly between 0 and 1. */
  lemma FractionBounds(a: real, b: real)
    requires 0.0 < a < b
    ensures 0.0 < a / b < 1.0 && (a / b) * b == a
  {
    var q := a / b;
    assert q * b == a;
    if q >= 1.0 {
      ScaleAtLeast(q, b);
    }
  }

  lemma ScaleAtLeast(q: real, b: real)
    requires b > 0.0 && q >= 1.0
    ensures q * b >= b
  {
  }

  /** A stream of `2k` zero draws followed by one attempt: the `k` leading
      attempts all land on the intended key. */
  lemma {:induction false} ZeroAttempts(p: int, k: nat, last: seq<Unit>) returns (draws: seq<Unit>)
    requires |last| == 2
    ensures |draws| == 2 * k + 2 && draws[2 * k..] == last
    ensures forall j: nat :: j < k ==> Candidate(p, draws, 0, j) == p
  {
    var zeros: seq<Unit> := seq(2 * k, i => 0.0);
    draws := zeros + last;
    assert draws[2 * k..] == last;
    forall j: nat | j < k
      ensures Candidate(p, draws, 0, j) == p
    {
      assert draws[2 * j + 1] == zeros[2 * j + 1] == 0.0;
      CandidateStays(p, draws, 0, j);
    }
  }

  /** The search is not doomed: for every set of held keys some draw stream
      of at most `2 * (20 * |held| + 1)` values makes it succeed. */
  lemma SearchCanSucceed(held: set<int>, p: int) returns (draws: seq<Unit>)
    ensures Search(held, p, draws, 0).Some?
    ensures |draws| <= 2 * (AttemptsPerRadius * |held| + 1)
  {
    if p !in held {
      draws := [0.0, 0.0];
      CandidateStays(p, draws, 0, 0);
      SearchIsFirstFree(held, p, draws, 0, 1, p);
      return;
    }
    var c := FreeKeyAbove(held, p);
    var d := c - p;
    var k: nat := if d <= FlubProximity then 0 else AttemptsPerRadius * (d - FlubProximity);
    var range := FlubRange(k);
    assert d <= range;
    var u := MagnitudeDraw(d, range);
    draws := ZeroAttempts(p, k, [0.0, u]);
    assert draws[2 * k] == 0.0 && draws[2 * k + 1] == u;
    assert Candidate(p, draws, 0, k) == c;
    SearchIsFirstFree(held, p, draws, 0, k + 1, c);
  }
}
