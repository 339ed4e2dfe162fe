/**
 The ring of playback tracks.  A play request takes the first idle track from the cursor, or
 steals the track at the cursor, and hands out a handle stamped with the track's generation.
 */
module Tracks {
  import opened Arithmetic
  import opened Vids

  const NO_INSTANCE := Vid(NO_ID, 0)

  // `playing` is what the mixer answers for the track.
  datatype Track = Track(active: bool, generation: nat, playing: bool)

  datatype Ring = Ring(tracks: seq<Track>, next: nat)

  // What the mixer does with one play request.
  datatype Outcome = NotLoaded | AudioRefused | PlayRefused | Plays

  ghost predicate RingValid(r: Ring) {
    && |r.tracks| < NO_ID
    && (r.tracks == [] ==> r.next == 0) && (r.tracks != [] ==> r.next < |r.tracks|)
    && forall i :: 0 <= i < |r.tracks| ==> r.tracks[i].generation < WRAP
  }

  predicate Idle(t: Track) { !t.active || !t.playing }

  // The k-th track from the cursor.
  function At(r: Ring, k: nat): nat
    requires r.tracks != []
  {
    (r.next + k) % |r.tracks|
  }

  // How many tracks from the cursor are busy before the first idle one.
  function BusyRun(r: Ring, k: nat): nat
    requires k <= |r.tracks|
    decreases |r.tracks| - k
  {
    if k == |r.tracks| || Idle(r.tracks[At(r, k)]) then k else BusyRun(r, k + 1)
  }

  function Chosen(r: Ring): nat
    requires r.tracks != []
  {
    var k := BusyRun(r, 0);
    if k < |r.tracks| then At(r, k) else r.next
  }

  function Played(r: Ring, outcome: Outcome): Ring
    requires RingValid(r)
  {
    if r.tracks == [] || outcome == NotLoaded then r
    else
      var c := Chosen(r);
      var moved := r.(next := (c + 1) % |r.tracks|);
      if outcome == AudioRefused then moved
      else
        var t := r.tracks[c];
        moved.(tracks := r.tracks[c := Track(outcome == Plays, Bump(t.generation), outcome == Plays || t.playing)])
  }

  function Handle(r: Ring, outcome: Outcome): Vid
    requires RingValid(r)
  {
    if r.tracks == [] || outcome != Plays then NO_INSTANCE
    else Vid(Chosen(r), Bump(r.tracks[Chosen(r)].generation))
  }

  predicate Resolves(r: Ring, h: Vid) {
    h.id != NO_ID && h.id < |r.tracks| &&
    r.tracks[h.id].active && r.tracks[h.id].generation == h.version && r.tracks[h.id].playing
  }

  function Stopped(r: Ring, h: Vid): Ring {
    if Resolves(r, h) then r.(tracks := r.tracks[h.id := r.tracks[h.id].(playing := false)]) else r
  }

  // The mixer's own steps: a track runs out, and its stopped callback runs.
  function Ended(r: Ring, i: nat, callback: bool): Ring {
    if i < |r.tracks| then
      r.(tracks := r.tracks[i := r.tracks[i].(playing := false, active := r.tracks[i].active && !callback)])
    else r
  }

  // ----- the choice of track -----

  lemma {:induction false} BusyRunIs(r: Ring, k: nat)
    requires k <= |r.tracks| && r.tracks != []
    ensures k <= BusyRun(r, k) <= |r.tracks|
    ensures forall j :: k <= j < BusyRun(r, k) ==> !Idle(r.tracks[At(r, j)])
    ensures BusyRun(r, k) < |r.tracks| ==> Idle(r.tracks[At(r, BusyRun(r, k))])
    decreases |r.tracks| - k
  {
    if k < |r.tracks| && !Idle(r.tracks[At(r, k)]) { BusyRunIs(r, k + 1); }
  }

  lemma Around(i: nat, n: nat)
    requires i < n
    ensures i % n == i && (i + n) % n == i
  {
  }

  // Every track is some number of places after the cursor.
  lemma Reached(r: Ring, i: nat) returns (k: nat)
    requires RingValid(r) && i < |r.tracks|
    ensures k < |r.tracks| && At(r, k) == i
  {
    k := if r.next <= i then i - r.next else i + |r.tracks| - r.next;
    Around(i, |r.tracks|);
  }

  /** A busy track is stolen only when every track is busy, and then it is the one at the cursor. */
  lemma StealsOnlyWhenFull(r: Ring)
    requires RingValid(r) && r.tracks != []
    ensures Chosen(r) < |r.tracks|
    ensures !Idle(r.tracks[Chosen(r)]) <==> forall i :: 0 <= i < |r.tracks| ==> !Idle(r.tracks[i])
    ensures !Idle(r.tracks[Chosen(r)]) ==> Chosen(r) == r.next
  {
    BusyRunIs(r, 0);
    if BusyRun(r, 0) == |r.tracks| {
      forall i | 0 <= i < |r.tracks| ensures !Idle(r.tracks[i]) {
        var k := Reached(r, i);
      }
    }
  }

  /** The chosen idle track is the nearest one at or after the cursor. */
  lemma ChosenIsNearest(r: Ring, k: nat)
    requires RingValid(r) && k < |r.tracks| && Idle(r.tracks[At(r, k)])
    ensures exists j :: 0 <= j <= k && Chosen(r) == At(r, j)
  {
    BusyRunIs(r, 0);
    assert BusyRun(r, 0) <= k;
  }

  // ----- handles -----

  lemma PlayedStaysValid(r: Ring, outcome: Outcome)
    requires RingValid(r)
    ensures RingValid(Played(r, outcome)) && |Played(r, outcome).tracks| == |r.tracks|
    ensures Handle(r, outcome) != NO_INSTANCE ==> Resolves(Played(r, outcome), Handle(r, outcome))
    ensures Handle(r, outcome) != NO_INSTANCE <==> r.tracks != [] && outcome == Plays
  {
  }

  /** Every request that finds its sound moves the cursor past the chosen track, whatever the mixer answers. */
  lemma CursorMoves(r: Ring, outcome: Outcome)
    requires RingValid(r) && r.tracks != []
    ensures Played(r, NotLoaded) == r
    ensures outcome != NotLoaded ==>
              Chosen(r) < |r.tracks| &&
              Played(r, outcome).next == if Chosen(r) == |r.tracks| - 1 then 0 else Chosen(r) + 1
  {
    hide *;
    StealsOnlyWhenFull(r);
    PlayedNext(r, outcome);
    Around(if Chosen(r) == |r.tracks| - 1 then 0 else Chosen(r) + 1, |r.tracks|);
  }

  lemma PlayedNext(r: Ring, outcome: Outcome)
    requires RingValid(r) && r.tracks != []
    ensures Played(r, NotLoaded) == r
    ensures outcome != NotLoaded ==> Played(r, outcome).next == (Chosen(r) + 1) % |r.tracks|
  {
    hide Chosen, Bump;
  }

  /** So when every track is busy they are stolen in turn. */
  lemma {:induction false} StolenInTurn(r: Ring, k: nat)
    requires RingValid(r) && r.tracks != [] && forall i :: 0 <= i < |r.tracks| ==> !Idle(r.tracks[i])
    ensures RingValid(PlayedTimes(r, k)) && |PlayedTimes(r, k).tracks| == |r.tracks|
    ensures Chosen(PlayedTimes(r, k)) == (r.next + k) % |r.tracks|
    ensures forall i :: 0 <= i < |r.tracks| ==> !Idle(PlayedTimes(r, k).tracks[i])
    decreases k
  {
    if k == 0 {
      StealsOnlyWhenFull(r);
      Around(r.next, |r.tracks|);
    } else {
      StolenInTurn(r, k - 1);
      BusyStays(PlayedTimes(r, k - 1));
      NextAround(r.next + k - 1, |r.tracks|);
      hide Played, Chosen, RingValid, Idle;
    }
  }

  lemma BusyStays(r: Ring)
    requires RingValid(r) && r.tracks != [] && forall i :: 0 <= i < |r.tracks| ==> !Idle(r.tracks[i])
    ensures var after := Played(r, Plays);
            && RingValid(after) && |after.tracks| == |r.tracks|
            && (forall i :: 0 <= i < |r.tracks| ==> !Idle(after.tracks[i]))
            && Chosen(after) == after.next == if Chosen(r) == |r.tracks| - 1 then 0 else Chosen(r) + 1
  {
    CursorMoves(r, Plays);
    PlayedStaysValid(r, Plays);
    StealsOnlyWhenFull(r);
    hide Chosen, Bump;
    StealsOnlyWhenFull(Played(r, Plays));
  }

  function PlayedTimes(r: Ring, k: nat): Ring
    requires RingValid(r)
    ensures RingValid(PlayedTimes(r, k))
    decreases k
  {
    if k == 0 then r
    else
      PlayedStaysValid(PlayedTimes(r, k - 1), Plays);
      Played(PlayedTimes(r, k - 1), Plays)
  }

  lemma NextAround(a: nat, n: nat)
    requires n > 0
    ensures (a + 1) % n == if a % n == n - 1 then 0 else a % n + 1
  {
    var q, r := a / n, a % n;
    assert a == n * q + r;
    if r == n - 1 {
      assert a + 1 == n * (q + 1) + 0;
      Division(a + 1, n, q + 1, 0);
    } else {
      assert a + 1 == n * q + (r + 1);
      Division(a + 1, n, q, r + 1);
    }
  }

  /** A play request touches the chosen track and the cursor and no other track. */
  lemma PlayedElsewhere(r: Ring, outcome: Outcome, i: nat)
    requires RingValid(r) && i < |r.tracks| && i != Chosen(r)
    ensures Played(r, outcome).tracks[i] == r.tracks[i]
  {
  }

  /** An old handle to the chosen track never resolves right after the track is reissued. */
  lemma ReissueInvalidates(r: Ring, outcome: Outcome, h: Vid)
    requires RingValid(r) && r.tracks != [] && (outcome == Plays || outcome == PlayRefused)
    requires h.id == Chosen(r) && Resolves(r, h)
    ensures !Resolves(Played(r, outcome), h)
  {
  }

  // ----- the mixer and the game over a whole run -----

  datatype Step = Request(outcome: Outcome) | Stop(handle: Vid) | End(track: nat, callback: bool)

  function After(r: Ring, step: Step): Ring
    requires RingValid(r)
  {
    match step
    case Request(outcome) => Played(r, outcome)
    case Stop(h) => Stopped(r, h)
    case End(i, callback) => Ended(r, i, callback)
  }

  lemma AfterStaysValid(r: Ring, step: Step)
    requires RingValid(r)
    ensures RingValid(After(r, step)) && |After(r, step).tracks| == |r.tracks|
  {
  }

  function Run(r: Ring, steps: seq<Step>): (result: Ring)
    requires RingValid(r)
    ensures RingValid(result) && |result.tracks| == |r.tracks|
    decreases |steps|
  {
    if steps == [] then r
    else
      AfterStaysValid(r, steps[0]);
      Run(After(r, steps[0]), steps[1..])
  }

  // Does this step reissue track i?
  predicate Issues(r: Ring, step: Step, i: nat) {
    r.tracks != [] && step.Request? && (step.outcome == Plays || step.outcome == PlayRefused) && Chosen(r) == i
  }

  function IssueCount(r: Ring, steps: seq<Step>, i: nat): nat
    requires RingValid(r)
    decreases |steps|
  {
    if steps == [] then 0
    else
      AfterStaysValid(r, steps[0]);
      (if Issues(r, steps[0], i) then 1 else 0) + IssueCount(After(r, steps[0]), steps[1..], i)
  }

  lemma AfterGeneration(r: Ring, step: Step, i: nat)
    requires RingValid(r) && i < |r.tracks|
    ensures After(r, step).tracks != [] && i < |After(r, step).tracks|
    ensures After(r, step).tracks[i].generation ==
            if Issues(r, step, i) then Bump(r.tracks[i].generation) else r.tracks[i].generation
  {
  }

  /** A generation counts the issues of its track, modulo its width. */
  lemma {:induction false} GenerationCounts(r: Ring, steps: seq<Step>, i: nat)
    requires RingValid(r) && i < |r.tracks|
    ensures Run(r, steps).tracks[i].generation == Advanced(r.tracks[i].generation, IssueCount(r, steps, i))
    decreases |steps|
  {
    if steps != [] {
      hide After, Issues, Bump, Chosen, Advanced;
      AfterStaysValid(r, steps[0]);
      AfterGeneration(r, steps[0], i);
      GenerationCounts(After(r, steps[0]), steps[1..], i);
      CountsOn(r.tracks[i].generation, Issues(r, steps[0], i), IssueCount(After(r, steps[0]), steps[1..], i));
    }
  }

  /** A handle still matches its track exactly when the issues since then are a multiple of 2^32. */
  lemma StaleHandle(r: Ring, h: Vid, steps: seq<Step>)
    requires RingValid(r) && Resolves(r, h)
    ensures var end := Run(r, steps);
            Resolves(end, h) <==>
            end.tracks[h.id].active && end.tracks[h.id].playing && IssueCount(r, steps, h.id) % WRAP == 0
  {
    GenerationCounts(r, steps, h.id);
    WrapsOnlyAround(h.version, IssueCount(r, steps, h.id));
  }

  // A track alone in the ring is reissued by every play.
  lemma {:induction false} LoneTrack(r: Ring, n: nat)
    requires RingValid(r) && |r.tracks| == 1
    ensures IssueCount(r, seq(n, i => Request(Plays)), 0) == n
    ensures n > 0 ==> Run(r, seq(n, i => Request(Plays))).tracks[0].active
    ensures n > 0 ==> Run(r, seq(n, i => Request(Plays))).tracks[0].playing
    decreases n
  {
    if n > 0 {
      StealsOnlyWhenFull(r);
      AfterStaysValid(r, Request(Plays));
      assert seq(n, i => Request(Plays))[1..] == seq(n - 1, i => Request(Plays));
      LoneTrack(After(r, Request(Plays)), n - 1);
      if n == 1 {
        assert Run(r, [Request(Plays)]) == Played(r, Plays);
        assert seq(n, i => Request(Plays)) == [Request(Plays)];
      }
    }
  }

  /** So the wrap is real: after 2^32 reissues of its track an old handle resolves again. */
  lemma StaleHandleRevives(r: Ring, h: Vid)
    requires RingValid(r) && |r.tracks| == 1 && Resolves(r, h)
    ensures Resolves(Run(r, seq(WRAP, i => Request(Plays))), h)
  {
    LoneTrack(r, WRAP);
    StaleHandle(r, h, seq(WRAP, i => Request(Plays)));
  }

  // ----- the mixer object -----

  class Audio {
    const initialized: bool
    var runtimes: seq<Track>
    var nextTrack: nat

    ghost function View(): Ring
      reads this
    {
      Ring(runtimes, nextTrack)
    }

    ghost predicate Valid()
      reads this
    {
      RingValid(View()) && (!initialized ==> runtimes == [])
    }

    constructor (trackCount: nat, ok: bool)
      requires trackCount < NO_ID
      ensures Valid() && initialized == ok
      ensures View() == Ring(seq(if ok then trackCount else 0, i => Track(false, 0, false)), 0)
    {
      initialized := ok;
      runtimes := seq(if ok then trackCount else 0, i => Track(false, 0, false));
      nextTrack := 0;
    }

    method ChooseTrack() returns (chosen: nat)
      requires Valid() && runtimes != []
      modifies this`nextTrack
      ensures chosen == old(Chosen(View())) && chosen < |runtimes|
      ensures nextTrack == (chosen + 1) % |runtimes|
    {
      StealsOnlyWhenFull(View());
      ghost var start := View();
      for offset := 0 to |runtimes|
        invariant View() == start
        invariant BusyRun(start, 0) == BusyRun(start, offset)
      {
        var index := (nextTrack + offset) % |runtimes|;
        var candidate := runtimes[index];
        if !candidate.active || !candidate.playing {
          chosen := index;
          nextTrack := (index + 1) % |runtimes|;
          return;
        }
      }
      chosen := nextTrack;
      nextTrack := (nextTrack + 1) % |runtimes|;
    }

    method PlayAudioAssetInstance(outcome: Outcome) returns (handle: Vid)
      requires Valid()
      modifies this
      ensures Valid() && View() == Played(old(View()), outcome)
      ensures handle == Handle(old(View()), outcome)
    {
      if !initialized || runtimes == [] {
        return NO_INSTANCE;
      }
      if outcome == NotLoaded {
        return NO_INSTANCE;
      }
      PlayedStaysValid(View(), outcome);
      var index := ChooseTrack();
      if outcome == AudioRefused {
        return NO_INSTANCE;
      }
      var generation := (runtimes[index].generation + 1) % WRAP;
      runtimes := runtimes[index := runtimes[index].(generation := generation, active := true)];
      if outcome == PlayRefused {
        runtimes := runtimes[index := runtimes[index].(active := false)];
        return NO_INSTANCE;
      }
      runtimes := runtimes[index := runtimes[index].(playing := true)];
      return Vid(index, generation);
    }

    method IsAudioInstancePlaying(handle: Vid) returns (playing: bool)
      requires Valid()
      ensures playing <==> Resolves(View(), handle)
    {
      if handle.id == NO_ID || handle.id >= |runtimes| {
        return false;
      }
      var runtime := runtimes[handle.id];
      if !runtime.active || runtime.generation != handle.version || !runtime.playing {
        return false;
      }
      return true;
    }

    method StopAudioInstance(handle: Vid) returns (stopped: bool)
      requires Valid()
      modifies this`runtimes
      ensures Valid() && View() == Stopped(old(View()), handle)
      ensures stopped == old(Resolves(View(), handle)) && !Resolves(View(), handle)
    {
      stopped := IsAudioInstancePlaying(handle);
      if stopped {
        runtimes := runtimes[handle.id := runtimes[handle.id].(playing := false)];
      }
    }

    // The mixer ends a track, and may run its callback.
    method EndTrack(track: nat, callback: bool)
      requires Valid()
      modifies this`runtimes
      ensures Valid() && View() == Ended(old(View()), track, callback)
    {
      if track < |runtimes| {
        runtimes := runtimes[track := runtimes[track].(playing := false)];
        if callback {
          OnAudioInstanceTrackStopped(track);
        }
      }
    }

    method OnAudioInstanceTrackStopped(track: nat)
      requires Valid() && track < |runtimes|
      modifies this`runtimes
      ensures Valid() && View() == Ended(old(View()), track, true)
      ensures forall h: Vid :: h.id == track ==> !Resolves(View(), h)
    {
      runtimes := runtimes[track := runtimes[track].(active := false, playing := false)];
    }
  }
}
