/**
 Concrete runs of the engine on short tracks with chosen draws.
 */
module Scenarios {
  import opened Midi
  import opened Randomness
  import opened Substitute
  import opened Engine
  import opened FlubProperties

  function On(p: int): Event {
    Event(NoteOn, p, Some(80), map[])
  }

  /** A note-on with velocity 0, which the engine treats as a note-off. */
  function SilentOn(p: int): Event {
    Event(NoteOn, p, Some(0), map[])
  }

  function Off(p: int): Event {
    Event(NoteOff, p, None, map[])
  }

  // Prepending one event to a short literal track. Stated once here so that
  // the scenarios below need not re-derive sequence equality on literals.
  lemma Cons1(a: Event)
    ensures [a] + [] == [a]
  {
  }

  lemma Cons2(a: Event, b: Event)
    ensures [a] + [b] == [a, b]
  {
  }

  lemma Cons3(a: Event, b: Event, c: Event)
    ensures [a] + [b, c] == [a, b, c]
  {
  }

  lemma Cons4(a: Event, b: Event, c: Event, d: Event)
    ensures [a] + [b, c, d] == [a, b, c, d]
  {
  }

  /** A chance draw at or below `Skill` plays a free key as written, and its
      note-off releases it. */
  lemma PlainNote()
    ensures ProcessTrack(Initial, [On(60), Off(60)], [0.5], 0)
      == Some(Run([On(60), Off(60)], Initial, 1))
  {
    var draws: seq<Unit> := [0.5];
    var s1 := State({60}, map[]);
    assert Initial.held + {60} == s1.held;
    var st1 := Stepped(On(60), s1, 1);
    assert Step(Initial, On(60), draws, 0) == Some(st1);
    assert s1.held - {60} == {} && s1.flubs - {60} == map[];
    var st2 := Stepped(Off(60), Initial, 1);
    assert Step(s1, Off(60), draws, 1) == Some(st2);
    StepThen(s1, Off(60), [], draws, 1, st2);
    Cons1(Off(60));
    StepThen(Initial, On(60), [Off(60)], draws, 0, st1);
    Cons2(On(60), Off(60));
  }

  /** A retriggered key is flubbed without a chance draw; the two silent
      note-ons that follow release the substitute first and the original
      key second. */
  lemma Retrigger()
    ensures ProcessTrack(Initial, [On(60), On(60), SilentOn(60), SilentOn(60)], [0.5, 0.0, 0.25], 0)
      == Some(Run([On(60), On(61), SilentOn(61), SilentOn(60)], Initial, 3))
  {
    var draws: seq<Unit> := [0.5, 0.0, 0.25];
    var s1 := State({60}, map[]);
    var s2 := State({60, 61}, map[60 := 61]);
    var s3 := State({60}, map[]);
    assert Initial.held + {60} == s1.held;
    var st1 := Stepped(On(60), s1, 1);
    assert Step(Initial, On(60), draws, 0) == Some(st1);
    RetriggerFlub(draws, s1, s2);
    var st2 := Stepped(On(61), s2, 3);
    assert s2.held - {61} == s3.held && s2.flubs - {60} == s3.flubs;
    var st3 := Stepped(SilentOn(61), s3, 3);
    assert Step(s2, SilentOn(60), draws, 3) == Some(st3);
    assert s3.held - {60} == {} && s3.flubs - {60} == map[];
    var st4 := Stepped(SilentOn(60), Initial, 3);
    assert Step(s3, SilentOn(60), draws, 3) == Some(st4);
    StepThen(s3, SilentOn(60), [], draws, 3, st4);
    Cons1(SilentOn(60));
    StepThen(s2, SilentOn(60), [SilentOn(60)], draws, 3, st3);
    Cons2(SilentOn(60), SilentOn(60));
    Cons2(SilentOn(61), SilentOn(60));
    StepThen(s1, On(60), [SilentOn(60), SilentOn(60)], draws, 1, st2);
    Cons3(On(60), SilentOn(60), SilentOn(60));
    Cons3(On(61), SilentOn(61), SilentOn(60));
    StepThen(Initial, On(60), [On(60), SilentOn(60), SilentOn(60)], draws, 0, st1);
    Cons4(On(60), On(60), SilentOn(60), SilentOn(60));
    Cons4(On(60), On(61), SilentOn(61), SilentOn(60));
  }

  lemma RetriggerFlub(draws: seq<Unit>, s1: State, s2: State)
    requires draws == [0.5, 0.0, 0.25] && s1 == State({60}, map[]) && s2 == State({60, 61}, map[60 := 61])
    ensures Step(s1, On(60), draws, 1) == Some(Stepped(On(61), s2, 3))
  {
    assert Magnitude(0.25, 2) == 1;
    assert Candidate(60, draws, 1, 0) == 61;
    assert Search(s1.held, 60, draws, 1) == Some(Found(61, 1));
    assert s1.held + {61} == s2.held && s1.flubs[60 := 61] == s2.flubs;
  }

  /** Two overlapping note-ons of one pitch, both flubbed by chance: the
      second record overwrites the first, so the first substitute (61) is
      never released and a note-off is sent for the unplayed key 60. */
  lemma OverwrittenRecord(draws: seq<Unit>)
    requires draws == [0.99, 0.0, 0.25, 0.99, 0.9, 0.25]
    ensures ProcessTrack(Initial, [On(60), On(60), Off(60), Off(60)], draws, 0)
      == Some(Run([On(61), On(59), Off(59), Off(60)], State({61}, map[]), 6))
  {
    var s1 := State({61}, map[60 := 61]);
    var s2 := State({61, 59}, map[60 := 59]);
    var s3 := State({61}, map[]);
    FirstChanceFlub(draws, s1);
    var st1 := Stepped(On(61), s1, 3);
    OverwrittenMiddle(draws, s1, s2, s3);
    StepThen(Initial, On(60), [On(60), Off(60), Off(60)], draws, 0, st1);
    Cons4(On(60), On(60), Off(60), Off(60));
    Cons4(On(61), On(59), Off(59), Off(60));
  }

  /** The case the pairing property excludes: while a flub record for 60 is
      outstanding (the first note was flubbed to 61 and is still sounding), a
      second note-on of 60 finds 60 free and is played as written. The next
      note-off of 60 follows the stale record and releases 61, so the key
      that was actually played last, 60, stays held. */
  lemma StaleMispair(draws: seq<Unit>)
    requires draws == [0.99, 0.0, 0.25, 0.5]
    ensures ProcessTrack(Initial, [On(60), On(60), Off(60)], draws, 0)
      == Some(Run([On(61), On(60), Off(61)], State({60}, map[]), 4))
  {
    var s1 := State({61}, map[60 := 61]);
    var s2 := State({61, 60}, map[60 := 61]);
    var s3 := State({60}, map[]);
    FirstChanceFlub(draws, s1);
    var st1 := Stepped(On(61), s1, 3);
    StaleTail(draws, s1, s2, s3);
    StepThen(Initial, On(60), [On(60), Off(60)], draws, 0, st1);
    Cons3(On(60), On(60), Off(60));
    Cons3(On(61), On(60), Off(61));
  }

  lemma StaleTail(draws: seq<Unit>, s1: State, s2: State, s3: State)
    requires draws == [0.99, 0.0, 0.25, 0.5]
    requires s1 == State({61}, map[60 := 61]) && s2 == State({61, 60}, map[60 := 61]) && s3 == State({60}, map[])
    ensures ProcessTrack(s1, [On(60), Off(60)], draws, 3) == Some(Run([On(60), Off(61)], s3, 4))
  {
    assert !FlubByChance(draws[3]);
    assert s1.held + {60} == s2.held;
    var st2 := Stepped(On(60), s2, 4);
    assert Step(s1, On(60), draws, 3) == Some(st2);
    assert s2.held - {61} == s3.held && s2.flubs - {60} == s3.flubs;
    var st3 := Stepped(Off(61), s3, 4);
    assert Step(s2, Off(60), draws, 4) == Some(st3);
    StepThen(s2, Off(60), [], draws, 4, st3);
    Cons1(Off(61));
    Cons1(Off(60));
    StepThen(s1, On(60), [Off(60)], draws, 3, st2);
    Cons2(On(60), Off(60));
    Cons2(On(60), Off(61));
  }

  lemma OverwrittenMiddle(draws: seq<Unit>, s1: State, s2: State, s3: State)
    requires draws == [0.99, 0.0, 0.25, 0.99, 0.9, 0.25]
    requires s1 == State({61}, map[60 := 61]) && s2 == State({61, 59}, map[60 := 59]) && s3 == State({61}, map[])
    ensures ProcessTrack(s1, [On(60), Off(60), Off(60)], draws, 3) == Some(Run([On(59), Off(59), Off(60)], s3, 6))
  {
    SecondChanceFlub(draws, s1, s2);
    var st2 := Stepped(On(59), s2, 6);
    OverwrittenTail(draws, s2, s3);
    StepThen(s1, On(60), [Off(60), Off(60)], draws, 3, st2);
    Cons3(On(60), Off(60), Off(60));
    Cons3(On(59), Off(59), Off(60));
  }

  lemma OverwrittenTail(draws: seq<Unit>, s2: State, s3: State)
    requires s2 == State({61, 59}, map[60 := 59]) && s3 == State({61}, map[])
    ensures ProcessTrack(s2, [Off(60), Off(60)], draws, 6) == Some(Run([Off(59), Off(60)], s3, 6))
  {
    OverwrittenReleases(draws, s2, s3);
    var st3 := Stepped(Off(59), s3, 6);
    var st4 := Stepped(Off(60), s3, 6);
    StepThen(s3, Off(60), [], draws, 6, st4);
    Cons1(Off(60));
    StepThen(s2, Off(60), [Off(60)], draws, 6, st3);
    Cons2(Off(60), Off(60));
    Cons2(Off(59), Off(60));
  }

  lemma OverwrittenReleases(draws: seq<Unit>, s2: State, s3: State)
    requires s2 == State({61, 59}, map[60 := 59]) && s3 == State({61}, map[])
    ensures Step(s2, Off(60), draws, 6) == Some(Stepped(Off(59), s3, 6))
    ensures Step(s3, Off(60), draws, 6) == Some(Stepped(Off(60), s3, 6))
  {
    assert s2.held - {59} == s3.held && s2.flubs - {60} == s3.flubs;
    assert s3.held - {60} == s3.held && s3.flubs - {60} == s3.flubs;
  }

  lemma FirstChanceFlub(draws: seq<Unit>, s1: State)
    requires |draws| >= 3 && draws[0] == 0.99 && draws[1] == 0.0 && draws[2] == 0.25
    requires s1 == State({61}, map[60 := 61])
    ensures Step(Initial, On(60), draws, 0) == Some(Stepped(On(61), s1, 3))
  {
    assert Magnitude(0.25, 2) == 1;
    assert FlubByChance(draws[0]) && Candidate(60, draws, 1, 0) == 61;
    assert Search(Initial.held, 60, draws, 1) == Some(Found(61, 1));
    assert Initial.held + {61} == s1.held && Initial.flubs[60 := 61] == s1.flubs;
  }

  lemma SecondChanceFlub(draws: seq<Unit>, s1: State, s2: State)
    requires draws == [0.99, 0.0, 0.25, 0.99, 0.9, 0.25]
    requires s1 == State({61}, map[60 := 61]) && s2 == State({61, 59}, map[60 := 59])
    ensures Step(s1, On(60), draws, 3) == Some(Stepped(On(59), s2, 6))
  {
    assert Magnitude(0.25, 2) == 1;
    assert FlubByChance(draws[3]) && Candidate(60, draws, 4, 0) == 59;
    assert Search(s1.held, 60, draws, 4) == Some(Found(59, 1));
    assert s1.held + {59} == s2.held && s1.flubs[60 := 59] == s2.flubs;
  }
}
