# Flubber flub engine in Dafny

Flubber takes a decoded MIDI song and deliberately mis-plays a few notes.
This project models its only logic, the per-event handler in `index.js`.
The handler walks every event of every track in order. It keeps two pieces of
state: the keys currently held down, and a map from each flubbed intended
pitch to the pitch played instead.

- A note-off, or a note-on whose velocity is zero or missing, is redirected
  through the flub map. Its record is dropped and the released key stops
  being held.
- A note-on is flubbed when its key is already held, or otherwise when its
  chance draw exceeds the skill of 19/20. A flub searches for a free key near
  the intended one. Each attempt draws a sign and a magnitude of at most
  `flubProximity + floor(i / 20)`. The event is rewritten, the map records
  the substitution, and the played key becomes held.

Modules:

- `Midi` (`midi.dfy`): events and their three-way classification.
- `Randomness` (`randomness.dfy`): the constants and how one value of
  `random()` becomes a decision, a sign or a magnitude.
- `Substitute` (`substitute.dfy`): the do-while search for a substitute. It
  is written as a recursive function and as a loop, and both are proved
  against one declarative meaning, "the first attempt that lands on a free
  key".
- `Engine` (`engine.dfy`): the state, the note-off and note-on handlers, and
  the fold over tracks and the song.
- `FlubProperties` (`properties.dfy`): properties that span several events
  or draw streams. These cover pairing of note-off with note-on, the frame
  of the flub map, splitting a fold, extra draws changing nothing, and a
  favourable draw stream always existing.
- `Scenarios` (`scenarios.dfy`): concrete runs on short tracks.

Randomness is an injected, finite stream of draws (`seq<Unit>`, reals in
[0, 1)). It is read left to right in exactly the order `index.js` calls
`random()`:

- one chance draw per note-on whose key is free (`||` short-circuits, so a
  held key consumes none);
- then two draws, sign and magnitude, per search attempt.

The length of the stream is the fuel of the search. When the draws run out
the result is `None`.

The model follows the code where a reader might expect otherwise:

- The state is never reset between tracks. `heldKeys` and `flubbedNotes` are
  module-level and the loop over tracks never clears them. One state is
  threaded through the whole song, and `SongIsOneLongTrack` proves that a
  song behaves like the concatenation of its tracks.
- A note-on is a press whenever its velocity is truthy, so a negative
  velocity presses too. Only zero or a missing velocity releases.
- `ceil(random() * range)` is 0 when the draw is exactly 0. A flub by chance
  can therefore "substitute" the intended pitch itself.
- Pitches are unbounded integers and are never clamped to 0..127.

## Model

| member | source | states |
|---|---|---|
| Midi.Classify | index.js:33-35 | An event is a press exactly when it is a `noteOn` with a non-zero velocity. It is a release exactly when it is a `noteOff`, or a `noteOn` whose velocity is zero or missing. Every other type passes; the decoder never gives an other-type event the tag `noteOn` or `noteOff`. |
| Randomness.Sign | index.js:58 | The sign is +1 or -1, and +1 exactly when the draw is below one half. |
| Randomness.FlubRange | index.js:57 | The radius is never below `flubProximity`. It equals `flubProximity` for the first 20 attempts and never exceeds `flubProximity + k` on attempt `k`. |
| Randomness.FlubRangeGrows | index.js:57 | After the first 20 attempts, the radius is one more than it was 20 attempts earlier. |
| Randomness.FlubByChance | index.js:52 | A chance draw flubs a free key exactly when it lies above the skill of 19/20, so only draws in (19/20, 1) flub. |
| Randomness.Magnitude | index.js:59 | `ceil(u * range)` lies in 0..range and is 0 exactly when the draw is 0. |
| Randomness.Ceil | index.js:59 | `Math.ceil`: the result is the least integer not below its argument. |
| Substitute.Candidate | index.js:57-59 | On attempt `k` the candidate differs from the intended pitch by at most the radius of that attempt, `flubProximity + floor(k / 20)`, so by at most 2 during the first 20 attempts. |
| Substitute.CandidateStays | index.js:57-59 | A candidate equals the intended pitch exactly when its magnitude draw is 0, so a chance flub can play the intended key. |
| Substitute.SearchFrom | index.js:54-61 | A search resumed at attempt `k` returns a free candidate. Every attempt between `k` and that one landed on a held key. If it finds none, every attempt the stream pays for landed on a held key. |
| Substitute.Search | index.js:53-61 | The search returns the first attempt whose candidate is not held, and that candidate lies within the radius of its attempt. It fails exactly when every attempt paid for by the draws hits a held key. |
| Substitute.FindSubstitute | index.js:53-61 | The do-while loop stops at the first free candidate, or reports failure when every affordable attempt was held. It agrees with `Search`. |
| Substitute.SearchIsFirstFree | index.js:54-61 | The first free attempt is unique: any attempt that is free and preceded only by held attempts is the one the search returns. |
| Engine.Resolve | index.js:41-43 | The pitch a note-off sounds: the recorded substitute when the intended pitch has a flub record, otherwise the pitch itself. |
| Engine.HandleNoteOff | index.js:37-47 | A note-off with a flub record takes the recorded pitch. Without one it stays unchanged. The record of its pitch is gone and no other record changes. The released pitch is no longer held and no other key changes. No draw is read. |
| Engine.Flub | index.js:53-64 | A flub fails exactly when every affordable attempt is held. Otherwise the event gets the first free candidate, which was not held, and only its pitch changes. Exactly two draws are read per attempt, up to and including the accepted one. The key becomes held, and the map records intended to played, overwriting any earlier record. |
| Engine.HandleNoteOn | index.js:48-67 | The played key was not held and is held afterwards, and records of other pitches never change. A held key is always flubbed, without reading a chance draw, to the first free candidate, which differs from the intended pitch. It reads exactly two draws per attempt, its record is updated, and it fails exactly when every affordable attempt is held. A free key is decided by `PlayFreeKey`. A later note-off finds the played pitch unless a stale record for the intended pitch exists. |
| Engine.PlayFreeKey | index.js:52-67 | A free key reads one chance draw. Above the skill it is flubbed to the first free candidate from the next draw on, reading exactly two further draws per attempt, and its record is updated. Otherwise it is played as written with the map left alone. Either way the played key becomes held. It fails exactly when the draws run out first. |
| Engine.Step | index.js:32-68 | An event that is neither note-on nor note-off comes back unchanged, and the state and draw position are untouched. Every release, a `noteOff` or a silent `noteOn`, takes the note-off branch and never fails. Every press, a `noteOn` with a non-zero velocity, takes the note-on branch of `HandleNoteOn`. Only the pitch of an event changes, and only the record of its own pitch. |
| Engine.ProcessTrack | index.js:32-69 | A processed track has the same number of events in the same order. Only pitches differ, and events that are not note events are unchanged. |
| Engine.ProcessSong | index.js:32-69 | A processed song has the same number of tracks and each track keeps its length. Every event differs from its input at most in its pitch. |
| Engine.Flubber | index.js:20-69 | Starting with nothing held and nothing flubbed, the output song has as many tracks as the input, every track keeps its length, and only pitches change. |
| FlubProperties.StepThen | index.js:32-69 | A track continues after its first event from the state and draw position that event leaves. The output is that event followed by the rest, and the track fails exactly when the rest does. |
| FlubProperties.TrackAppend | index.js:32-69 | Processing `a + b` equals processing `a` and then `b` from the state and draw position `a` left. |
| FlubProperties.SongIsOneLongTrack | index.js:20-32 | State is shared across tracks, so a song succeeds exactly when the concatenation of its tracks does. The outputs, final state and draw position agree. |
| FlubProperties.FlubRecordFrame | index.js:41-64 | Events that are not note events of intended pitch `p` leave the flub record of `p` exactly as it was. |
| FlubProperties.PairedNoteOff | index.js:38-67 | A note-off is rewritten to the pitch its note-on actually played, whatever unrelated events lie between them, and that key is free afterwards. |
| FlubProperties.PressResolves | index.js:38-64 | Right after a note-on, looking up its intended pitch in the flub map gives the played key, unless a stale record was outstanding for a free key. |
| FlubProperties.ClosingNoteOff | index.js:37-47 | A lone note-off always succeeds and reads no draw. It is rewritten to the pitch its flub record names, or kept when there is none. That key is not held afterwards and the record is gone. |
| FlubProperties.SearchFromExtends | index.js:54-61 | Appending draws to a stream on which the search succeeds does not change its result. |
| FlubProperties.FlubExtends | index.js:53-64 | Appending draws does not change a successful flub. |
| FlubProperties.PlayFreeKeyExtends | index.js:52-67 | Appending draws does not change a successful note-on of a free key. |
| FlubProperties.StepExtends | index.js:32-68 | Appending draws does not change a successful event step. |
| FlubProperties.TrackExtends | index.js:32-69 | Appending draws does not change a successful track. |
| FlubProperties.SongExtends | index.js:32-69 | Appending draws does not change a successful song: the fuel bound does not change the output. |
| FlubProperties.PassThroughTrack | index.js:33-48 | A track without note events comes back unchanged with the same state, and no draw is read. |
| FlubProperties.SearchCanSucceed | index.js:55-61 | For every set of held keys, some stream of at most `2 * (20 * |held| + 1)` draws makes the search succeed. The growing radius always leaves a way out. |
| Scenarios.PlainNote | index.js:32-68 | A note with a chance draw of 0.5 and its note-off pass through unchanged, and the state ends empty. |
| Scenarios.Retrigger | index.js:35-67 | A second note-on of a held key 60 is flubbed to 61 without a chance draw. The two velocity-0 note-ons that follow release 61 and then 60. |
| Scenarios.OverwrittenRecord | index.js:41-64 | Two overlapping note-ons of 60 are both flubbed by chance, to 61 and then 59. The second record overwrites the first, so 61 is never released and a note-off is sent for the unplayed key 60. |
| Scenarios.StaleMispair | index.js:41-67 | The first note-on of 60 is flubbed to 61 and still sounds. A second note-on of 60 finds 60 free and is played as written, and the following note-off of 60 follows the stale record to 61. Key 60 stays held. |

## Left out

- File reading, output writing and command-line handling (index.js:25-28, 72-74) are I/O around the engine.
- `parseMidi` and `writeMidi` belong to the `midi-file` package, which is not part of this model. Events are abstract records: type, pitch, optional velocity, and the remaining fields carried untouched.
- The probability distribution of `Math.random` and the resulting flub rate are not reasoned about. The skill 19/20, the one-half sign threshold and `flubProximity` are kept as constants.
- Reals stand in for double-precision numbers. A rounding of `random() * flubRange` up to the next integer is not modelled.
- The do-while search ends in the source only because the draws are random. Here it is bounded by the finite draw stream and yields `None` when that runs out. `SearchCanSucceed` shows a successful stream always exists; termination under fair randomness is not proved.
- Pitches are used as JavaScript object keys. The model uses integers, and non-integer or missing note numbers are not modelled. `heldKeys[note] = false` is modelled as removal from a set, which is the same for the truthiness test the code makes.
- Velocity values other than an integer or a missing one (`null`, `NaN`) are not modelled.
- FlubProperties.PairedNoteOff: requires that no stale flub record for the pitch is outstanding, or that the key is held. Otherwise the source itself does not pair the note-off with its note-on (see `Scenarios.StaleMispair`).
