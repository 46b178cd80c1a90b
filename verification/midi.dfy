/**
 Decoded MIDI events as the flub engine sees them: a type tag, a note
 number, an optional velocity and whatever other fields the decoder
 attached (delta time, channel, meta payload), which the engine never reads.
 */
module Midi {

  datatype Option<+T> = None | Some(value: T)

  /** A `type` tag other than the two note tags. The tags `noteOn` and
      `noteOff` are always decoded as `NoteOn` and `NoteOff`, so they cannot
      appear here. */
  type OtherTag = name: string | name != "noteOn" && name != "noteOff" witness "controller"

  /** The `type` tag of a decoded event. Every tag other than the two note
      tags is carried verbatim and ignored. */
  datatype Kind = NoteOn | NoteOff | OtherKind(name: OtherTag)

  /** Pitches are unbounded integers: the engine never clamps them to 0..127.
      A missing velocity is `None`. */
  datatype Event = Event(kind: Kind, pitch: int, velocity: Option<int>, fields: map<string, int>)

  type Track = seq<Event>

  /** How the engine treats an event. */
  datatype Class = Press | Release | Pass

  /** True when the velocity is falsy: zero or absent. */
  predicate Silent(v: Option<int>) {
    v == None || v == Some(0)
  }

  /** A `NoteOff` always releases; a `NoteOn` releases when its velocity is
      zero or missing and presses otherwise; every other event passes. */
  function Classify(e: Event): (c: Class)
    ensures c == Press <==> e.kind == NoteOn && e.velocity.Some? && e.velocity.value != 0
    ensures c == Release <==> e.kind == NoteOff || (e.kind == NoteOn && Silent(e.velocity))
    ensures c == Pass <==> e.kind.OtherKind?
  {
    match e.kind
    case NoteOff => Release
    case NoteOn => if Silent(e.velocity) then Release else Press
    case OtherKind(_) => Pass
  }

  /** The same event with only its note number replaced. */
  predicate SameButPitch(e: Event, e': Event) {
    e' == e.(pitch := e'.pitch)
  }
}
