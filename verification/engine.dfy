/**
 The flub engine: a fold over every event of every track that keeps the
 set of held keys and the map from intended pitch to the pitch actually
 played. Note-offs are redirected through that map; note-ons are played as
 written or flubbed to a free key nearby. The state is not reset between
 tracks: one state is threaded through the whole song. The random draws
 are one fixed stream read from left to right; `pos` is the next unread
 draw.
 */
module Engine {
  import opened Midi
  import opened Randomness
  import opened Substitute

  /** The keys currently held down (in played pitches) and, for each
      flubbed intended pitch, the pitch that was played instead. */
  datatype State = State(held: set<int>, flubs: map<int, int>)

  /** Nothing held, nothing flubbed: the state before the first track. */
  const Initial: State := State({}, map[])

  /** One processed event, the state after it and the next unread draw. */
  datatype Stepped = Stepped(event: Event, state: State, pos: nat)

  /** A processed track or song, the state after it and the next unread draw. */
  datatype Run = Run(events: seq<Event>, state: State, pos: nat)
  datatype SongRun = SongRun(tracks: seq<Track>, state: State, pos: nat)

  /** The pitch a note-off for `p` releases. */
  function Resolve(flubs: map<int, int>, p: int): (r: int)
    ensures p in flubs ==> r == flubs[p]
    ensures p !in flubs ==> r == p
  {
    if p in flubs then flubs[p] else p
  }

  /** The same entry (or the same absence of one) for `p` in both maps. */
  predicate SameEntry(m: map<int, int>, m': map<int, int>, p: int) {
    (p in m <==> p in m') && (p in m ==> m[p] == m'[p])
  }

  /** A note-off: its pitch is redirected to the flubbed pitch when one is
      recorded, the record is dropped, and the released pitch is no longer
      held. No draw is consumed. */
  function HandleNoteOff(s: State, e: Event, pos: nat): (r: Stepped)
    ensures SameButPitch(e, r.event) && r.pos == pos
    ensures e.pitch in s.flubs ==> r.event.pitch == s.flubs[e.pitch]
    ensures e.pitch !in s.flubs ==> r.event == e
    ensures e.pitch !in r.state.flubs
    ensures forall p :: p != e.pitch ==> SameEntry(s.flubs, r.state.flubs, p)
    ensures r.event.pitch !in r.state.held
    ensures forall p :: p != r.event.pitch ==> (p in r.state.held <==> p in s.held)
  {
    var note := Resolve(s.flubs, e.pitch);
    var e' := if e.pitch in s.flubs then e.(pitch := note) else e;
    Stepped(e', State(s.held - {note}, s.flubs - {e.pitch}), pos)
  }

  /** A flubbed note-on whose search starts at draw `at`: the pitch becomes
      the first free candidate and the map records intended pitch to played
      pitch, replacing any earlier record for the same intended pitch. */
  function Flub(s: State, e: Event, draws: seq<Unit>, at: nat): (r: Option<Stepped>)
    ensures r.None? ==> AllHeld(s.held, e.pitch, draws, at)
    ensures AllHeld(s.held, e.pitch, draws, at) ==> r.None?
    ensures r.Some? ==> SameButPitch(e, r.value.event) && at < r.value.pos <= |draws|
    // Two draws per attempt: the draws consumed are exactly those of the accepted attempt and the ones before it.
    ensures r.Some? ==> (r.value.pos - at) % 2 == 0
    ensures r.Some? ==> FirstFree(s.held, e.pitch, draws, at, (r.value.pos - at) / 2, r.value.event.pitch)
    ensures r.Some? ==> r.value.event.pitch !in s.held
    ensures r.Some? ==> r.value.state == State(s.held + {r.value.event.pitch}, s.flubs[e.pitch := r.value.event.pitch])
    ensures r.Some? ==> Resolve(r.value.state.flubs, e.pitch) == r.value.event.pitch
    ensures r.Some? ==> forall p :: p != e.pitch ==> SameEntry(s.flubs, r.value.state.flubs, p)
  {
    match Search(s.held, e.pitch, draws, at)
    case None => None
    case Some(f) =>
      Some(Stepped(e.(pitch := f.pitch), State(s.held + {f.pitch}, s.flubs[e.pitch := f.pitch]), at + 2 * f.attempts))
  }

  /** A note-on: flubbed whenever its key is already held, and otherwise
      when its chance draw says so; the played pitch is then held. Fails
      only when the draws run out. */
  function HandleNoteOn(s: State, e: Event, draws: seq<Unit>, pos: nat): (r: Option<Stepped>)
    ensures r.Some? ==> SameButPitch(e, r.value.event) && pos < r.value.pos <= |draws|
    ensures r.Some? ==> r.value.event.pitch !in s.held
    ensures r.Some? ==> r.value.state.held == s.held + {r.value.event.pitch}
    ensures r.Some? ==> forall p :: p != e.pitch ==> SameEntry(s.flubs, r.value.state.flubs, p)
    // A held key is always flubbed, without a chance draw: the search starts at `pos`.
    ensures e.pitch in s.held ==> (r.None? <==> AllHeld(s.held, e.pitch, draws, pos))
    ensures r.Some? && e.pitch in s.held ==>
      && r.value.event.pitch != e.pitch
      && (r.value.pos - pos) % 2 == 0
      && FirstFree(s.held, e.pitch, draws, pos, (r.value.pos - pos) / 2, r.value.event.pitch)
      && r.value.state.flubs == s.flubs[e.pitch := r.value.event.pitch]
    // A free key is left to its chance draw.
    ensures e.pitch !in s.held ==> r == PlayFreeKey(s, e, draws, pos)
    // A later note-off of the intended pitch will find the played pitch,
    // unless a stale record from an earlier flub of that pitch is still around.
    ensures r.Some? && (e.pitch !in s.flubs || e.pitch in s.held) ==>
      Resolve(r.value.state.flubs, e.pitch) == r.value.event.pitch
  {
    if e.pitch in s.held then Flub(s, e, draws, pos) else PlayFreeKey(s, e, draws, pos)
  }

  /** A note-on of a key that is not held: one chance draw decides whether
      it is played as written or flubbed from the next draw on. */
  function PlayFreeKey(s: State, e: Event, draws: seq<Unit>, pos: nat): (r: Option<Stepped>)
    requires e.pitch !in s.held
    ensures r.Some? ==> SameButPitch(e, r.value.event) && pos < r.value.pos <= |draws|
    ensures r.Some? ==> r.value.event.pitch !in s.held
    ensures r.Some? ==> r.value.state.held == s.held + {r.value.event.pitch}
    ensures r.Some? ==> forall p :: p != e.pitch ==> SameEntry(s.flubs, r.value.state.flubs, p)
    ensures r.Some? && FlubByChance(draws[pos]) ==>
      && (r.value.pos - (pos + 1)) % 2 == 0
      && FirstFree(s.held, e.pitch, draws, pos + 1, (r.value.pos - (pos + 1)) / 2, r.value.event.pitch)
      && r.value.state.flubs == s.flubs[e.pitch := r.value.event.pitch]
    ensures pos < |draws| && !FlubByChance(draws[pos]) ==>
      r == Some(Stepped(e, State(s.held + {e.pitch}, s.flubs), pos + 1))
    ensures r.None? <==> |draws| <= pos || (FlubByChance(draws[pos]) && AllHeld(s.held, e.pitch, draws, pos + 1))
    ensures r.Some? && e.pitch !in s.flubs ==> Resolve(r.value.state.flubs, e.pitch) == r.value.event.pitch
  {
    if |draws| <= pos then None
    else if FlubByChance(draws[pos]) then Flub(s, e, draws, pos + 1)
    else Some(Stepped(e, State(s.held + {e.pitch}, s.flubs), pos + 1))
  }

  /** One event of the fold. */
  function Step(s: State, e: Event, draws: seq<Unit>, pos: nat): (r: Option<Stepped>)
    ensures Classify(e) == Pass ==> r == Some(Stepped(e, s, pos))
    ensures Classify(e) == Release ==> r == Some(HandleNoteOff(s, e, pos))
    ensures Classify(e) == Press ==> r == HandleNoteOn(s, e, draws, pos)
    ensures r.Some? ==> SameButPitch(e, r.value.event) && pos <= r.value.pos
    ensures r.Some? ==> forall p :: p != e.pitch ==> SameEntry(s.flubs, r.value.state.flubs, p)
  {
    match Classify(e)
    case Pass => Some(Stepped(e, s, pos))
    case Release => Some(HandleNoteOff(s, e, pos))
    case Press => HandleNoteOn(s, e, draws, pos)
  }

  /** The events of one track in order, from state `s` and draw `pos`. Only
      note numbers change; event count, order and every other field are kept. */
  function ProcessTrack(s: State, events: seq<Event>, draws: seq<Unit>, pos: nat): (r: Option<Run>)
    ensures r.Some? ==> |r.value.events| == |events| && pos <= r.value.pos
    ensures r.Some? ==> forall i :: 0 <= i < |events| ==> SameButPitch(events[i], r.value.events[i])
    ensures r.Some? ==> forall i :: 0 <= i < |events| && Classify(events[i]) == Pass ==> r.value.events[i] == events[i]
    decreases |events|
  {
    if events == [] then Some(Run([], s, pos))
    else
      match Step(s, events[0], draws, pos)
      case None => None
      case Some(st) =>
        match ProcessTrack(st.state, events[1..], draws, st.pos)
        case None => None
        case Some(run) =>
          var out := [st.event] + run.events;
          assert forall i :: 1 <= i < |out| ==> out[i] == run.events[i - 1];
          Some(Run(out, run.state, run.pos))
  }

  /** The tracks of a song in order, threading one state through all of
      them. Every track keeps its length and every non-pitch field. */
  function ProcessSong(s: State, tracks: seq<Track>, draws: seq<Unit>, pos: nat): (r: Option<SongRun>)
    ensures r.Some? ==> |r.value.tracks| == |tracks| && pos <= r.value.pos
    ensures r.Some? ==> forall t :: 0 <= t < |tracks| ==> |r.value.tracks[t]| == |tracks[t]|
    ensures r.Some? ==> forall t, i :: 0 <= t < |tracks| && 0 <= i < |tracks[t]| ==> SameButPitch(tracks[t][i], r.value.tracks[t][i])
    decreases |tracks|
  {
    if tracks == [] then Some(SongRun([], s, pos))
    else
      match ProcessTrack(s, tracks[0], draws, pos)
      case None => None
      case Some(run) =>
        match ProcessSong(run.state, tracks[1..], draws, run.pos)
        case None => None
        case Some(rest) => Some(SongRun([run.events] + rest.tracks, rest.state, rest.pos))
  }

  /** The whole program on a decoded song: nothing held at the start, the
      draws read from the first one on. */
  function Flubber(song: seq<Track>, draws: seq<Unit>): (r: Option<seq<Track>>)
    ensures r.Some? ==> |r.value| == |song|
    ensures r.Some? ==> forall t :: 0 <= t < |song| ==> |r.value[t]| == |song[t]|
    ensures r.Some? ==> forall t, i :: 0 <= t < |song| && 0 <= i < |song[t]| ==>
      SameButPitch(song[t][i], r.value[t][i])
  {
    match ProcessSong(Initial, song, draws, 0)
    case None => None
    case Some(run) => Some(run.tracks)
  }
}
