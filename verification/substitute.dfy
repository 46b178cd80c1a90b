/**
 The search for a substitute pitch: a do-while loop that draws a sign and a
 magnitude per attempt and stops at the first candidate that is not held.
 The radius starts at `FlubProximity` and grows by one every
 `AttemptsPerRadius` attempts. The loop ends in the source only because the
 draws are random; here it ends when the supplied draws run out, which
 makes the length of the draw stream the fuel of the search. The stream is
 read from a position `at` onwards; attempt `k` uses the two draws at
 `at + 2k` and `at + 2k + 1`.
 */
module Substitute {
  import opened Midi
  import opened Randomness

  /** An accepted substitute and the number of attempts it took. */
  datatype Found = Found(pitch: int, attempts: nat)

  /** True when the stream holds both draws of attempt `k` of a search that
      starts at position `at`. */
  predicate HasAttempt(draws: seq<Unit>, at: nat, k: nat) {
    at + 2 * k + 2 <= |draws|
  }

  /** The candidate of attempt `k`: the first of its two draws picks the
      sign, the second the magnitude within the radius of that attempt. */
  function Candidate(intended: int, draws: seq<Unit>, at: nat, k: nat): (c: int)
    requires HasAttempt(draws, at, k)
    ensures -FlubRange(k) <= c - intended <= FlubRange(k)
  {
    intended + Sign(draws[at + 2 * k]) * Magnitude(draws[at + 2 * k + 1], FlubRange(k))
  }

  /** A candidate is the intended pitch itself exactly when its magnitude
      draw is zero, since `ceil(0 * range)` is 0. */
  lemma CandidateStays(intended: int, draws: seq<Unit>, at: nat, k: nat)
    requires HasAttempt(draws, at, k)
    ensures Candidate(intended, draws, at, k) == intended <==> draws[at + 2 * k + 1] == 0.0
  {
    var m := Magnitude(draws[at + 2 * k + 1], FlubRange(k));
    assert Candidate(intended, draws, at, k) == intended + Sign(draws[at + 2 * k]) * m;
  }

  /** Reference meaning of the search: attempt `n - 1` is the first one
      whose candidate is free, and `q` is that candidate. */
  ghost predicate FirstFree(held: set<int>, intended: int, draws: seq<Unit>, at: nat, n: nat, q: int) {
    && 1 <= n
    && HasAttempt(draws, at, n - 1)
    && q == Candidate(intended, draws, at, n - 1)
    && q !in held
    && forall k: nat :: k < n - 1 ==> Candidate(intended, draws, at, k) in held
  }

  /** Reference meaning of a failed search: every attempt the stream pays
      for lands on a held key. */
  ghost predicate AllHeld(held: set<int>, intended: int, draws: seq<Unit>, at: nat) {
    forall k: nat :: HasAttempt(draws, at, k) ==> Candidate(intended, draws, at, k) in held
  }

  /** The search continued from attempt `k`, all earlier attempts having hit
      held keys. */
  function SearchFrom(held: set<int>, intended: int, draws: seq<Unit>, at: nat, k: nat): (r: Option<Found>)
    ensures r.Some? ==> k < r.value.attempts && HasAttempt(draws, at, r.value.attempts - 1)
    ensures r.Some? ==> r.value.pitch == Candidate(intended, draws, at, r.value.attempts - 1)
    ensures r.Some? ==> r.value.pitch !in held
    ensures r.Some? ==> forall j: nat :: k <= j < r.value.attempts - 1 ==> Candidate(intended, draws, at, j) in held
    ensures r.None? ==> forall j: nat :: k <= j && HasAttempt(draws, at, j) ==> Candidate(intended, draws, at, j) in held
    decreases |draws| - at - 2 * k
  {
    if !HasAttempt(draws, at, k) then None
    else
      var c := Candidate(intended, draws, at, k);
      if c !in held then Some(Found(c, k + 1)) else SearchFrom(held, intended, draws, at, k + 1)
  }

  /** The whole search from position `at`. Either it finds the first free
      candidate, or the stream runs out with every paid-for attempt held. */
  function Search(held: set<int>, intended: int, draws: seq<Unit>, at: nat): (r: Option<Found>)
    ensures r.Some? ==> FirstFree(held, intended, draws, at, r.value.attempts, r.value.pitch)
    ensures r.Some? ==> -FlubRange(r.value.attempts - 1) <= r.value.pitch - intended <= FlubRange(r.value.attempts - 1)
    ensures r.None? <==> AllHeld(held, intended, draws, at)
  {
    SearchFrom(held, intended, draws, at, 0)
  }

  /** The source's do-while loop, run on the draw stream until a free key
      turns up or the stream is exhausted. */
  method FindSubstitute(held: set<int>, intended: int, draws: seq<Unit>, at: nat) returns (r: Option<Found>)
    ensures r.Some? ==> FirstFree(held, intended, draws, at, r.value.attempts, r.value.pitch)
    ensures r.None? ==> AllHeld(held, intended, draws, at)
    ensures r == Search(held, intended, draws, at)
  {
    var i: nat := 0;
    var note := intended;
    var searching := true;
    while searching
      invariant i == 0 || HasAttempt(draws, at, i - 1)
      invariant searching ==> forall k: nat :: k < i ==> Candidate(intended, draws, at, k) in held
      invariant !searching ==> 1 <= i && HasAttempt(draws, at, i - 1)
      invariant !searching ==> note == Candidate(intended, draws, at, i - 1) && note !in held
      invariant !searching ==> forall k: nat :: k < i - 1 ==> Candidate(intended, draws, at, k) in held
      decreases |draws| - at - 2 * i, searching
    {
      if !HasAttempt(draws, at, i) {
        return None;
      }
      note := Candidate(intended, draws, at, i);
      i := i + 1;
      searching := note in held;
    }
    r := Some(Found(note, i));
    SearchIsFirstFree(held, intended, draws, at, i, note);
  }

  /** The first free attempt is unique, so any witness of `FirstFree` is the
      search's own answer. */
  lemma {:induction false} SearchIsFirstFree(held: set<int>, intended: int, draws: seq<Unit>, at: nat, n: nat, q: int)
    requires FirstFree(held, intended, draws, at, n, q)
    ensures Search(held, intended, draws, at) == Some(Found(q, n))
  {
    var r := Search(held, intended, draws, at);
    assert !AllHeld(held, intended, draws, at) by {
      assert HasAttempt(draws, at, n - 1) && Candidate(intended, draws, at, n - 1) !in held;
    }
    var m := r.value.attempts;
    assert Candidate(intended, draws, at, m - 1) !in held;
  }
}
