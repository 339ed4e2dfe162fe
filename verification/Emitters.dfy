/**
 Emitters over tracks: what one frame does to every emitter, and what no run of frames, other
 sounds, stops and track endings can break.
 */
module Emitters {
  import opened Options
  import opened Tracks
  import opened Vids
  import opened EmitterPool

  datatype World = World(pool: Pool, ring: Ring)

  // A track that ran out; its stopped callback may still be to come.
  datatype End = End(track: nat, callback: bool)

  // The audio thread and the mixer during one emitter's turn: the endings before it, an ending
  // between its two looks at its own track, and the answer to a play request.
  datatype Env = Env(ends: seq<End>, race: bool, outcome: Outcome)

  // The entity centres, for the entities that still exist.
  type Census = Vid -> Option<Vec>

  function AllEnded(r: Ring, ends: seq<End>): Ring
    decreases |ends|
  {
    if ends == [] then r else AllEnded(Ended(r, ends[0].track, ends[0].callback), ends[1..])
  }

  function Detached(e: Emitter, ownerMissing: bool): Emitter {
    var d := e.(source := FixedWorldPos, attached := None, offset := ORIGIN);
    if ownerMissing then d.(owner := None) else d
  }

  predicate Tolerates(e: Emitter) {
    e.policy == KeepPlayingDetached || (e.policy == FinishCurrentPlay && e.mode == OneShot)
  }

  predicate OwnerGone(e: Emitter, census: Census) { e.owner.Some? && census(e.owner.value).None? }

  predicate Follows(e: Emitter) { e.source == AttachedEnt && e.attached.Some? }

  predicate TargetGone(e: Emitter, census: Census) { Follows(e) && census(e.attached.value).None? }

  // None if the emitter has to stop.
  function Resolved(e: Emitter, census: Census): Option<Emitter> {
    if OwnerGone(e, census) then (if Tolerates(e) then Some(Detached(e, true)) else None)
    else if TargetGone(e, census) then (if Tolerates(e) then Some(Detached(e, false)) else None)
    else if Follows(e) then Some(e.(position := Sum(census(e.attached.value).value, e.offset)))
    else Some(e)
  }

  function Replaced(p: Pool, id: nat, e: Emitter): Pool
    requires id < |p.emitters|
  {
    p.(emitters := p.emitters[id := e])
  }

  function Started(w: World, id: nat, e: Emitter, outcome: Outcome): World
    requires id < |w.pool.emitters| && RingValid(w.ring)
  {
    var h := Handle(w.ring, outcome);
    World(Replaced(w.pool, id, e.(instance := h, started := h.id != NO_ID)), Played(w.ring, outcome))
  }

  function Reaped(w: World, id: nat, e: Emitter): World
    requires id < |w.pool.emitters|
  {
    w.(pool := Deactivated(Replaced(w.pool, id, e), id))
  }

  // A started emitter whose sound is over.
  function Finished(w: World, id: nat, e: Emitter, outcome: Outcome): World
    requires id < |w.pool.emitters| && RingValid(w.ring)
  {
    if e.mode == Looping then Started(w, id, Stilled(e), outcome) else Reaped(w, id, e)
  }

  function Raced(r: Ring, h: Vid, race: bool): Ring {
    if race then Ended(r, h.id, true) else r
  }

  // A started emitter that keeps its place.
  function Continued(w: World, id: nat, e: Emitter, env: Env): World
    requires id < |w.pool.emitters| && RingValid(w.ring)
  {
    if !Resolves(w.ring, e.instance) then Finished(w, id, e, env.outcome)
    else
      var v := World(Replaced(w.pool, id, e), Raced(w.ring, e.instance, env.race));
      if Resolves(v.ring, e.instance) then v else Finished(v, id, e, env.outcome)
  }

  // The turn of an active emitter.
  function ActiveTurn(w: World, id: nat, census: Census, env: Env): World
    requires id < |w.pool.emitters| && RingValid(w.ring)
  {
    var e := w.pool.emitters[id];
    match Resolved(e, census)
    case None => Reaped(w.(ring := Stopped(w.ring, e.instance)), id, e)
    case Some(e1) =>
      if !e1.started then Started(w, id, e1, env.outcome) else Continued(w, id, e1, env)
  }

  function Turn(w: World, id: nat, census: Census, env: Env): World
    requires id < |w.pool.emitters| && RingValid(w.ring)
  {
    EndedIsValid(w.ring, env.ends);
    var w0 := w.(ring := AllEnded(w.ring, env.ends));
    if w0.pool.emitters[id].active then ActiveTurn(w0, id, census, env) else w0
  }

  lemma {:induction false} EndedIsValid(r: Ring, ends: seq<End>)
    requires RingValid(r)
    ensures RingValid(AllEnded(r, ends)) && |AllEnded(r, ends).tracks| == |r.tracks|
    ensures forall i :: 0 <= i < |r.tracks| ==> AllEnded(r, ends).tracks[i].generation == r.tracks[i].generation
    decreases |ends|
  {
    if ends != [] { EndedIsValid(Ended(r, ends[0].track, ends[0].callback), ends[1..]); }
  }

  // ----- validity -----

  ghost predicate WorldValid(w: World) {
    PoolValid(w.pool) && RingValid(w.ring)
  }

  lemma ResolvedSame(e: Emitter, census: Census)
    ensures Resolved(e, census).Some? ==>
              var e1 := Resolved(e, census).value;
              e1.active == e.active && e1.vid == e.vid && e1.instance == e.instance && e1.started == e.started &&
              e1.mode == e.mode
  {
  }

  lemma StartedValid(w: World, id: nat, e: Emitter, outcome: Outcome)
    requires WorldValid(w) && id < POOL_SIZE && w.pool.emitters[id].active && e.active &&
             e.vid == w.pool.emitters[id].vid
    ensures WorldValid(Started(w, id, e, outcome)) && WorldValid(Reaped(w, id, e)) &&
            WorldValid(Finished(w, id, e, outcome))
    ensures WorldValid(w.(pool := Replaced(w.pool, id, e)))
  {
    var h := Handle(w.ring, outcome);
    PlayedStaysValid(w.ring, outcome);
    EditIsValid(w.pool, id, e.(instance := h, started := h.id != NO_ID));
    EditIsValid(w.pool, id, Stilled(e).(instance := h, started := h.id != NO_ID));
    EditIsValid(w.pool, id, e);
    DeactivatedIsValid(Replaced(w.pool, id, e), id);
    hide Played, Handle, PoolValid, RingValid, Deactivated;
  }

  lemma RingEdgeValid(r: Ring, h: Vid, race: bool)
    requires RingValid(r)
    ensures RingValid(Stopped(r, h)) && RingValid(Raced(r, h, race))
  {
  }

  /** One emitter's turn keeps pool and ring valid. */
  lemma TurnValid(w: World, id: nat, census: Census, env: Env)
    requires WorldValid(w) && id < POOL_SIZE
    ensures WorldValid(Turn(w, id, census, env))
  {
    assert |w.pool.emitters| == POOL_SIZE;
    EndedIsValid(w.ring, env.ends);
    var w0 := w.(ring := AllEnded(w.ring, env.ends));
    var e := w0.pool.emitters[id];
    hide Started, Reaped, Finished, Resolved, Stopped, Raced, AllEnded, PoolValid, RingValid, Resolves;
    if e.active {
      ResolvedSame(e, census);
      match Resolved(e, census)
      case None =>
        RingEdgeValid(w0.ring, e.instance, false);
        StartedValid(w0.(ring := Stopped(w0.ring, e.instance)), id, e, env.outcome);
      case Some(e1) =>
        StartedValid(w0, id, e1, env.outcome);
        RingEdgeValid(w0.ring, e1.instance, env.race);
        var w1 := World(Replaced(w0.pool, id, e1), Raced(w0.ring, e1.instance, env.race));
        assert w1.pool.emitters[id] == e1;
        StartedValid(w1, id, e1, env.outcome);
    }
  }

  // ----- a whole frame -----

  // What a turn leaves alone.
  ghost predicate OnlySlot(w: World, v: World, id: nat) {
    && RingValid(v.ring) && |v.pool.emitters| == |w.pool.emitters| && |v.ring.tracks| == |w.ring.tracks|
    && forall k :: 0 <= k < |w.pool.emitters| && k != id ==> v.pool.emitters[k] == w.pool.emitters[k]
  }

  lemma StartedShape(w: World, id: nat, e: Emitter, outcome: Outcome)
    requires id < |w.pool.emitters| && RingValid(w.ring)
    ensures OnlySlot(w, Started(w, id, e, outcome), id)
    ensures OnlySlot(w, Reaped(w, id, e), id)
    ensures OnlySlot(w, Finished(w, id, e, outcome), id)
  {
  }

  lemma RingEdgeShape(w: World, id: nat, e: Emitter, h: Vid, race: bool)
    requires id < |w.pool.emitters| && RingValid(w.ring)
    ensures OnlySlot(w, w.(ring := Stopped(w.ring, h)), id)
    ensures OnlySlot(w, World(Replaced(w.pool, id, e), Raced(w.ring, h, race)), id)
  {
  }

  lemma TurnShape(w: World, id: nat, census: Census, env: Env)
    requires id < |w.pool.emitters| && RingValid(w.ring)
    ensures OnlySlot(w, Turn(w, id, census, env), id)
  {
    hide Started, Reaped, Finished, Resolved, RingValid, Stopped, Raced, AllEnded, Resolves;
    EndedIsValid(w.ring, env.ends);
    var w0 := w.(ring := AllEnded(w.ring, env.ends));
    var e := w0.pool.emitters[id];
    if e.active {
      match Resolved(e, census)
      case None =>
        RingEdgeShape(w0, id, e, e.instance, false);
        StartedShape(w0.(ring := Stopped(w0.ring, e.instance)), id, e, env.outcome);
      case Some(e1) =>
        StartedShape(w0, id, e1, env.outcome);
        RingEdgeShape(w0, id, e1, e1.instance, env.race);
        StartedShape(World(Replaced(w0.pool, id, e1), Raced(w0.ring, e1.instance, env.race)), id, e1, env.outcome);
    }
  }

  function Frame(w: World, id: nat, census: Census, envs: seq<Env>): World
    requires id <= |w.pool.emitters| == |envs| && RingValid(w.ring)
    decreases |envs| - id
  {
    if id == |envs| then w
    else
      TurnShape(w, id, census, envs[id]);
      Frame(Turn(w, id, census, envs[id]), id + 1, census, envs)
  }

  lemma {:induction false} FrameValid(w: World, id: nat, census: Census, envs: seq<Env>)
    requires WorldValid(w) && id <= POOL_SIZE == |envs|
    ensures WorldValid(Frame(w, id, census, envs))
    decreases POOL_SIZE - id
  {
    if id < POOL_SIZE {
      TurnValid(w, id, census, envs[id]);
      TurnShape(w, id, census, envs[id]);
      hide Turn, PoolValid, RingValid;
      FrameValid(Turn(w, id, census, envs[id]), id + 1, census, envs);
    }
  }

  // ----- what a turn decides, in terms of the fields -----

  predicate LostOwner(e: Emitter, census: Census) { e.owner.Some? && census(e.owner.value).None? }

  predicate OnTarget(e: Emitter) { e.source == AttachedEnt && e.attached.Some? }

  predicate Lost(e: Emitter, census: Census) {
    LostOwner(e, census) || (OnTarget(e) && census(e.attached.value).None?)
  }

  // An emitter that lost its owner or target may go on only as its policy says.
  predicate MustGo(e: Emitter, census: Census) {
    Lost(e, census) && (e.policy == StopImmediately || (e.policy == FinishCurrentPlay && e.mode == Looping))
  }

  // What stays of an emitter: it is where its target is, or where it was when it lost it.
  predicate Kept(e: Emitter, f: Emitter, census: Census) {
    && f.active && f.vid == e.vid && f.asset == e.asset && f.volume == e.volume && f.mode == e.mode
    && f.policy == e.policy
    && if Lost(e, census) then
         && f.source == FixedWorldPos && f.attached == None && f.offset == ORIGIN && f.position == e.position
         && f.owner == if LostOwner(e, census) then None else e.owner
       else
         && f.source == e.source && f.attached == e.attached && f.offset == e.offset && f.owner == e.owner
         && f.position == if OnTarget(e) then Sum(census(e.attached.value).value, e.offset) else e.position
  }

  // Its sound goes on through the turn.
  predicate PlaysOn(r: Ring, e: Emitter, env: Env) {
    e.started && Resolves(AllEnded(r, env.ends), e.instance) && !env.race
  }

  predicate Sounds(r: Ring, env: Env) { r.tracks != [] && env.outcome == Plays }

  // Its sound goes on, or the mixer's answer decides.
  predicate Sounding(r: Ring, e: Emitter, f: Emitter, s: Ring, env: Env) {
    && (f.started ==> Resolves(s, f.instance)) && (!f.started ==> f.instance == NO_INSTANCE)
    && if PlaysOn(r, e, env) then f.started && f.instance == e.instance else f.started <==> Sounds(r, env)
  }

  // The whole turn of an active emitter e that becomes f, on a ring r that becomes s.
  predicate Decided(r: Ring, e: Emitter, f: Emitter, s: Ring, census: Census, env: Env) {
    && (!f.active <==> MustGo(e, census) || (e.mode == OneShot && e.started && !PlaysOn(r, e, env)))
    && (f.active ==> Kept(e, f, census) && Sounding(r, e, f, s, env))
    && (!f.active ==> Blank(f) && !Resolves(s, e.instance))
    && (!f.active || PlaysOn(r, e, env) ==> Untouched(AllEnded(r, env.ends), s, e.instance))
  }

  // No track is issued, and none but that of a handle changes.
  predicate Untouched(r: Ring, s: Ring, h: Vid) {
    && |s.tracks| == |r.tracks| && s.next == r.next
    && forall i :: 0 <= i < |r.tracks| ==>
         s.tracks[i].generation == r.tracks[i].generation && (i != h.id ==> s.tracks[i] == r.tracks[i])
  }

  lemma ResolvedIs(e: Emitter, census: Census)
    ensures Resolved(e, census).None? <==> MustGo(e, census)
    ensures Resolved(e, census).Some? && e.active ==>
              var e1 := Resolved(e, census).value;
              Kept(e, e1, census) && e1.started == e.started && e1.instance == e.instance
  {
  }

  lemma StartSounds(w: World, id: nat, e: Emitter, outcome: Outcome)
    requires id < |w.pool.emitters| && RingValid(w.ring)
    ensures var v := Started(w, id, e, outcome);
            var f := v.pool.emitters[id];
            && f == e.(started := f.started, instance := f.instance)
            && (f.started <==> w.ring.tracks != [] && outcome == Plays)
            && (f.started ==> Resolves(v.ring, f.instance)) && (!f.started ==> f.instance == NO_INSTANCE)
  {
    PlayedStaysValid(w.ring, outcome);
    if w.ring.tracks != [] { StealsOnlyWhenFull(w.ring); }
    hide Played, Chosen;
  }

  lemma ReapIs(w: World, id: nat, e: Emitter)
    requires id < |w.pool.emitters| && e.active
    ensures Reaped(w, id, e).ring == w.ring
    ensures !Reaped(w, id, e).pool.emitters[id].active && Blank(Reaped(w, id, e).pool.emitters[id])
  {
  }

  lemma FinishIs(w: World, id: nat, e: Emitter, outcome: Outcome)
    requires id < |w.pool.emitters| && RingValid(w.ring) && e.active
    ensures var v := Finished(w, id, e, outcome);
            var f := v.pool.emitters[id];
            && (e.mode == OneShot ==> v.ring == w.ring && !f.active && Blank(f))
            && (e.mode == Looping ==>
                  && f == e.(started := f.started, instance := f.instance)
                  && (f.started <==> w.ring.tracks != [] && outcome == Plays)
                  && (f.started ==> Resolves(v.ring, f.instance)) && (!f.started ==> f.instance == NO_INSTANCE))
  {
    hide Started, Reaped, Resolves, RingValid, Blank;
    if e.mode == Looping { StartSounds(w, id, Stilled(e), outcome); } else { ReapIs(w, id, e); }
  }

  lemma ContinueIs(w: World, id: nat, e: Emitter, env: Env)
    requires id < |w.pool.emitters| && RingValid(w.ring) && e.active
    ensures var v := Continued(w, id, e, env);
            var f, on := v.pool.emitters[id], Resolves(w.ring, e.instance) && !env.race;
            && (on ==> f == e && Resolves(v.ring, e.instance)) && (on ==> v.ring == w.ring)
            && (!f.active ==> Untouched(w.ring, v.ring, e.instance))
            && (!on && e.mode == OneShot ==> !f.active && Blank(f) && !Resolves(v.ring, e.instance))
            && (!on && e.mode == Looping ==>
                  && f == e.(started := f.started, instance := f.instance)
                  && (f.started <==> w.ring.tracks != [] && env.outcome == Plays)
                  && (f.started ==> Resolves(v.ring, f.instance)) && (!f.started ==> f.instance == NO_INSTANCE))
  {
    RingEdgeValid(w.ring, e.instance, env.race);
    RaceSilences(w.ring, e.instance, env.race);
    var v := World(Replaced(w.pool, id, e), Raced(w.ring, e.instance, env.race));
    hide Finished, Resolves, RingValid, Blank, Raced, Untouched;
    FinishIs(w, id, e, env.outcome);
    FinishIs(v, id, e, env.outcome);
  }

  lemma RaceSilences(r: Ring, h: Vid, race: bool)
    ensures race ==> !Resolves(Raced(r, h, race), h)
    ensures !race ==> Raced(r, h, race) == r
    ensures |Raced(r, h, race).tracks| == |r.tracks| && !Resolves(Stopped(r, h), h)
    ensures Untouched(r, r, h) && Untouched(r, Raced(r, h, race), h) && Untouched(r, Stopped(r, h), h)
  {
  }

  // The same, written out.
  lemma DecidedSays(r: Ring, e: Emitter, f: Emitter, s: Ring, census: Census, env: Env)
    requires Decided(r, e, f, s, census, env)
    ensures var attached := e.source == AttachedEnt && e.attached.Some?;
            var lost := (e.owner.Some? && census(e.owner.value).None?) ||
                        (attached && census(e.attached.value).None?);
            var over := env.race || !Resolves(AllEnded(r, env.ends), e.instance);
            && (!f.active <==>
                || (lost && (e.policy == StopImmediately || (e.policy == FinishCurrentPlay && e.mode == Looping)))
                || (e.mode == OneShot && e.started && over))
            && (f.active && e.started && !over ==> f.started && f.instance == e.instance)
            && (f.active && (!e.started || over) ==> (f.started <==> r.tracks != [] && env.outcome == Plays))
            && (f.active && f.started ==> Resolves(s, f.instance))
            && (f.active && lost ==> f.source == FixedWorldPos && f.position == e.position)
            && (f.active && !lost ==>
                  f.position == if attached then Sum(census(e.attached.value).value, e.offset) else e.position)
  {
    hide Resolves, AllEnded, Blank, Untouched;
  }

  /**
   What a turn makes of an active emitter. It is reaped exactly if it lost its owner or its target
   and its policy does not bear that, or if it is a one-shot whose sound was started and is over.
   */
  lemma TurnDecides(w: World, id: nat, census: Census, env: Env)
    requires id < |w.pool.emitters| && RingValid(w.ring) && w.pool.emitters[id].active
    ensures |Turn(w, id, census, env).pool.emitters| == |w.pool.emitters|
    ensures var v := Turn(w, id, census, env);
            Decided(w.ring, w.pool.emitters[id], v.pool.emitters[id], v.ring, census, env)
    ensures var e, v := w.pool.emitters[id], Turn(w, id, census, env);
            var f, attached := v.pool.emitters[id], e.source == AttachedEnt && e.attached.Some?;
            var lost := (e.owner.Some? && census(e.owner.value).None?) ||
                        (attached && census(e.attached.value).None?);
            var over := env.race || !Resolves(AllEnded(w.ring, env.ends), e.instance);
            && (!f.active <==>
                || (lost && (e.policy == StopImmediately || (e.policy == FinishCurrentPlay && e.mode == Looping)))
                || (e.mode == OneShot && e.started && over))
            && (f.active && e.started && !over ==> f.started && f.instance == e.instance)
            && (f.active && (!e.started || over) ==> (f.started <==> w.ring.tracks != [] && env.outcome == Plays))
            && (f.active && f.started ==> Resolves(v.ring, f.instance))
            && (f.active && lost ==> f.source == FixedWorldPos && f.position == e.position)
            && (f.active && !lost ==>
                  f.position == if attached then Sum(census(e.attached.value).value, e.offset) else e.position)
  {
    TurnIs(w, id, census, env);
    hide *;
    DecidedSays(w.ring, w.pool.emitters[id], Turn(w, id, census, env).pool.emitters[id], Turn(w, id, census, env).ring,
                census, env);
  }

  lemma TurnIs(w: World, id: nat, census: Census, env: Env)
    requires id < |w.pool.emitters| && RingValid(w.ring) && w.pool.emitters[id].active
    ensures |Turn(w, id, census, env).pool.emitters| == |w.pool.emitters|
    ensures var v := Turn(w, id, census, env);
            Decided(w.ring, w.pool.emitters[id], v.pool.emitters[id], v.ring, census, env)
  {
    TurnShape(w, id, census, env);
    EndedIsValid(w.ring, env.ends);
    var r, e := AllEnded(w.ring, env.ends), w.pool.emitters[id];
    var w0 := w.(ring := r);
    ResolvedIs(e, census);
    hide AllEnded, Resolved, Started, Reaped, Continued, RingValid, Resolves, Stopped, Kept, MustGo, Blank, Untouched,
         Raced;
    match Resolved(e, census)
    case None =>
      RaceSilences(r, e.instance, false);
      ReapIs(w0.(ring := Stopped(r, e.instance)), id, e);
    case Some(e1) =>
      KeptSame(e, e1, census);
      RaceSilences(r, e.instance, env.race);
      if e1.started {
        ContinueIs(w0, id, e1, env);
      } else {
        StartSounds(w0, id, e1, env.outcome);
      }
  }

  // Whether it sounds does not matter for what is kept.
  lemma KeptSame(e: Emitter, f: Emitter, census: Census)
    requires Kept(e, f, census)
    ensures f.active && f.mode == e.mode
    ensures forall started: bool, instance: Vid :: Kept(e, f.(started := started, instance := instance), census)
  {
  }

  // What a frame may make of an emitter, whatever becomes of the tracks meanwhile.
  predicate Fate(e: Emitter, f: Emitter, census: Census, sounds: bool) {
    && (!e.active ==> f == e)
    && (e.active && MustGo(e, census) ==> !f.active)
    && (e.active && !f.active ==> MustGo(e, census) || (e.mode == OneShot && e.started))
    && (e.active && f.active ==>
          && Kept(e, f, census) && (!e.started ==> (f.started <==> sounds))
          // a started one-shot is never started again
          && (e.started && e.mode == OneShot ==> f.started && f.instance == e.instance)
          // a started loop plays on, or is started again
          && (e.started && e.mode == Looping ==> (f.started && f.instance == e.instance) || (f.started <==> sounds)))
  }

  /** A turn starts what was not started, and stops nothing that may go on. */
  lemma TurnFate(w: World, id: nat, census: Census, env: Env)
    requires id < |w.pool.emitters| && RingValid(w.ring)
    ensures |Turn(w, id, census, env).pool.emitters| == |w.pool.emitters|
    ensures Fate(w.pool.emitters[id], Turn(w, id, census, env).pool.emitters[id], census, Sounds(w.ring, env))
  {
    TurnShape(w, id, census, env);
    if w.pool.emitters[id].active { TurnDecides(w, id, census, env); }
    EndedIsValid(w.ring, env.ends);
    hide ActiveTurn, AllEnded, RingValid, Kept, MustGo, Resolves, Blank;
  }

  /** Every emitter meets its fate in every frame, on its own turn. */
  lemma {:induction false} FrameFate(w: World, id: nat, census: Census, envs: seq<Env>, k: nat)
    requires id <= |w.pool.emitters| == |envs| && RingValid(w.ring) && k < |envs|
    ensures |Frame(w, id, census, envs).pool.emitters| == |envs|
    ensures k < id ==> Frame(w, id, census, envs).pool.emitters[k] == w.pool.emitters[k]
    ensures k >= id ==>
              Fate(w.pool.emitters[k], Frame(w, id, census, envs).pool.emitters[k], census, Sounds(w.ring, envs[k]))
    decreases |envs| - id
  {
    if id < |envs| {
      TurnShape(w, id, census, envs[id]);
      TurnFate(w, id, census, envs[id]);
      hide Turn, Fate, RingValid;
      FrameFate(Turn(w, id, census, envs[id]), id + 1, census, envs, k);
    }
  }

  // The world just before the turn of slot k.
  function BeforeTurn(w: World, id: nat, census: Census, envs: seq<Env>, k: nat): World
    requires id <= k < |w.pool.emitters| == |envs| && RingValid(w.ring)
    decreases k - id
  {
    if id == k then w
    else
      TurnShape(w, id, census, envs[id]);
      BeforeTurn(Turn(w, id, census, envs[id]), id + 1, census, envs, k)
  }

  /** In a frame each active emitter becomes what its own turn decides, on the tracks as they then are. */
  lemma {:induction false} FrameDecides(w: World, id: nat, census: Census, envs: seq<Env>, k: nat)
    requires id <= k < |w.pool.emitters| == |envs| && RingValid(w.ring) && w.pool.emitters[k].active
    ensures var v := BeforeTurn(w, id, census, envs, k);
            && RingValid(v.ring) && k < |v.pool.emitters| == |envs| && v.pool.emitters[k] == w.pool.emitters[k]
            && k < |Turn(v, k, census, envs[k]).pool.emitters|
            && |Frame(w, id, census, envs).pool.emitters| == |envs|
            && Frame(w, id, census, envs).pool.emitters[k] == Turn(v, k, census, envs[k]).pool.emitters[k]
            && Decided(v.ring, w.pool.emitters[k], Turn(v, k, census, envs[k]).pool.emitters[k],
                       Turn(v, k, census, envs[k]).ring, census, envs[k])
    decreases k - id
  {
    TurnShape(w, id, census, envs[id]);
    if id == k {
      TurnDecides(w, k, census, envs[k]);
      hide Turn, RingValid, Decided;
      FrameFate(Turn(w, k, census, envs[k]), k + 1, census, envs, k);
    } else {
      hide Turn, RingValid, Decided;
      FrameDecides(Turn(w, id, census, envs[id]), id + 1, census, envs, k);
    }
  }

  // ----- making and stopping emitters -----

  datatype Params = Params(asset: nat, volume: real, mode: PlaybackMode, policy: LossPolicy, owner: Option<Vid>)

  function Filled(e: Emitter, p: Params): Emitter {
    e.(asset := p.asset, volume := p.volume, mode := p.mode, policy := p.policy, owner := p.owner)
  }

  function Placed(e: Emitter, p: Params, position: Vec): Emitter {
    Filled(e, p).(source := FixedWorldPos, position := position)
  }

  function AttachedTo(e: Emitter, p: Params, target: Vid, offset: Vec, centre: Option<Vec>): Emitter {
    var owned := Filled(e, p).(owner := if p.owner.Some? then p.owner else Some(target));
    var tied := owned.(source := AttachedEnt, attached := Some(target), offset := offset);
    if centre.Some? then tied.(position := Sum(centre.value, offset)) else tied
  }

  datatype Birth =
    | AtPoint(params: Params, position: Vec)
    | OnEnt(params: Params, target: Vid, offset: Vec, centre: Option<Vec>)

  function Born(e: Emitter, b: Birth): Emitter {
    match b
    case AtPoint(p, position) => Placed(e, p, position)
    case OnEnt(p, target, offset, centre) => AttachedTo(e, p, target, offset, centre)
  }

  function Created(p: Pool, b: Birth): Pool
    requires PoolValid(p)
  {
    if p.free == [] then p
    else
      AcquiredIsValid(p);
      var q := Acquired(p);
      Replaced(q, NextId(p), Born(q.emitters[NextId(p)], b))
  }

  // A new emitter: live, not started, and where and whose it was asked to be.
  predicate AsAsked(f: Emitter, b: Birth) {
    && f.active && !f.started && f.instance == NO_INSTANCE && f.asset == b.params.asset
    && f.volume == b.params.volume && f.mode == b.params.mode && f.policy == b.params.policy
    && match b
       case AtPoint(p, position) =>
         f.source == FixedWorldPos && f.attached == None && f.owner == p.owner && f.position == position
       case OnEnt(p, target, offset, centre) =>
         && f.source == AttachedEnt && f.attached == Some(target) && f.offset == offset
         && f.owner == (if p.owner.Some? then p.owner else Some(target))
         && f.position == if centre.Some? then Sum(centre.value, offset) else ORIGIN
  }

  /** What is created: the next free slot, as asked, and no other slot changes. */
  lemma CreatedIs(p: Pool, b: Birth)
    requires PoolValid(p)
    ensures p.free == [] ==> Created(p, b) == p
    ensures p.free != [] ==>
              var q, id := Created(p, b), NextId(p);
              && id < |q.emitters| == |p.emitters| && AsAsked(q.emitters[id], b) && q.free == p.free[..|p.free| - 1]
              && q.emitters[id].vid == Vid(id, Bump(p.emitters[id].vid.version))
              && forall k :: 0 <= k < |p.emitters| && k != id ==> q.emitters[k] == p.emitters[k]
  {
    if p.free != [] { AcquiredIsValid(p); }
  }

  function EmitterStopped(w: World, v: Vid): World {
    if Live(w.pool, v) then
      World(Deactivated(w.pool, v.id), Stopped(w.ring, w.pool.emitters[v.id].instance))
    else w
  }

  // ----- loops owned by an entity -----

  predicate OwnedBy(e: Emitter, owner: Vid, asset: nat, mode: PlaybackMode) {
    e.active && e.owner == Some(owner) && e.asset == asset && e.mode == mode
  }

  // The first such emitter from slot i on.
  function FirstOwned(p: Pool, owner: Vid, asset: nat, mode: PlaybackMode, i: nat): Option<Vid>
    decreases |p.emitters| - i
  {
    if i >= |p.emitters| then None
    else if OwnedBy(p.emitters[i], owner, asset, mode) then Some(p.emitters[i].vid)
    else FirstOwned(p, owner, asset, mode, i + 1)
  }

  lemma {:induction false} FirstOwnedIs(p: Pool, owner: Vid, asset: nat, mode: PlaybackMode, i: nat)
    requires PoolValid(p) && i <= POOL_SIZE
    ensures var found := FirstOwned(p, owner, asset, mode, i);
            && (found.None? <==> forall k :: i <= k < POOL_SIZE ==> !OwnedBy(p.emitters[k], owner, asset, mode))
            && (found.Some? ==>
                  Live(p, found.value) && found.value == p.emitters[found.value.id].vid &&
                  i <= found.value.id && OwnedBy(p.emitters[found.value.id], owner, asset, mode) &&
                  forall k :: i <= k < found.value.id ==> !OwnedBy(p.emitters[k], owner, asset, mode))
    decreases POOL_SIZE - i
  {
    if i < POOL_SIZE && !OwnedBy(p.emitters[i], owner, asset, mode) { FirstOwnedIs(p, owner, asset, mode, i + 1); }
  }

  function Refreshed(e: Emitter, target: Vid, offset: Vec, volume: real, policy: LossPolicy): Emitter {
    e.(volume := volume, source := AttachedEnt, attached := Some(target), offset := offset, policy := policy)
  }

  function Ensured(
    p: Pool, owner: Vid, target: Vid, offset: Vec, asset: nat, volume: real, policy: LossPolicy,
    centre: Option<Vec>): Pool
    requires PoolValid(p)
  {
    FirstOwnedIs(p, owner, asset, Looping, 0);
    var found := FirstOwned(p, owner, asset, Looping, 0);
    if found.Some? then
      Replaced(p, found.value.id, Refreshed(p.emitters[found.value.id], target, offset, volume, policy))
    else Created(p, OnEnt(Params(asset, volume, Looping, policy, Some(owner)), target, offset, centre))
  }

  // The slot an Ensured call ends on, if it ends on one.
  lemma EnsuredFinds(
    p: Pool, owner: Vid, target: Vid, offset: Vec, asset: nat, volume: real, policy: LossPolicy, centre: Option<Vec>)
    requires PoolValid(p)
    ensures var q := Ensured(p, owner, target, offset, asset, volume, policy, centre);
            var found := FirstOwned(p, owner, asset, Looping, 0);
            && PoolValid(q)
            && (found.Some? ==> FirstOwned(q, owner, asset, Looping, 0) == found)
            && (found.None? && p.free != [] ==>
                  FirstOwned(q, owner, asset, Looping, 0) == Some(q.emitters[NextId(p)].vid))
            && (found.None? && p.free == [] ==> FirstOwned(q, owner, asset, Looping, 0) == None)
  {
    var q := Ensured(p, owner, target, offset, asset, volume, policy, centre);
    var found := FirstOwned(p, owner, asset, Looping, 0);
    FirstOwnedIs(p, owner, asset, Looping, 0);
    if found.Some? {
      EditIsValid(p, found.value.id, Refreshed(p.emitters[found.value.id], target, offset, volume, policy));
    } else if p.free != [] {
      var b := OnEnt(Params(asset, volume, Looping, policy, Some(owner)), target, offset, centre);
      AcquiredIsValid(p);
      EditIsValid(Acquired(p), NextId(p), Born(Issued(p.emitters[NextId(p)]), b));
    }
    FirstOwnedIs(q, owner, asset, Looping, 0);
  }

  /** What is ensured: the first loop of the owner follows the target as asked, or a new one does. */
  lemma EnsuredIs(
    p: Pool, owner: Vid, target: Vid, offset: Vec, asset: nat, volume: real, policy: LossPolicy, centre: Option<Vec>)
    requires PoolValid(p)
    ensures var q := Ensured(p, owner, target, offset, asset, volume, policy, centre);
            var found := FirstOwned(p, owner, asset, Looping, 0);
            && |q.emitters| == |p.emitters|
            && (found.Some? ==>
                  var id := found.value.id;
                  && id < |p.emitters| && q.free == p.free
                  && q.emitters[id] == p.emitters[id].(volume := volume, policy := policy, source := AttachedEnt,
                                                       attached := Some(target), offset := offset)
                  && forall k :: 0 <= k < |p.emitters| && k != id ==> q.emitters[k] == p.emitters[k])
            && (found.None? && p.free != [] ==>
                  NextId(p) < |q.emitters| &&
                  AsAsked(q.emitters[NextId(p)],
                          OnEnt(Params(asset, volume, Looping, policy, Some(owner)), target, offset, centre)))
  {
    FirstOwnedIs(p, owner, asset, Looping, 0);
    CreatedIs(p, OnEnt(Params(asset, volume, Looping, policy, Some(owner)), target, offset, centre));
    hide Created, FirstOwned, AsAsked;
  }

  /** Repeating the call neither makes a second loop nor changes the first. */
  lemma EnsuredTwice(
    p: Pool, owner: Vid, target: Vid, offset: Vec, asset: nat, volume: real, policy: LossPolicy, centre: Option<Vec>)
    requires PoolValid(p)
    ensures var q := Ensured(p, owner, target, offset, asset, volume, policy, centre);
            PoolValid(q) && Ensured(q, owner, target, offset, asset, volume, policy, centre) == q
  {
    EnsuredFinds(p, owner, target, offset, asset, volume, policy, centre);
    FirstOwnedIs(p, owner, asset, Looping, 0);
    if p.free != [] { AcquiredIsValid(p); }
  }

  // ----- stopping everything -----

  predicate Gone(e: Emitter, k: nat, w: World) {
    k < |w.pool.emitters| && !w.pool.emitters[k].active && !Resolves(w.ring, e.instance)
  }

  // Each slot that was active is as it was, or inactive with its handle silenced.
  ghost predicate Standing(start: seq<Emitter>, w: World) {
    && |w.pool.emitters| == |start| == POOL_SIZE
    && (forall k :: 0 <= k < POOL_SIZE ==> start[k].vid.id == k)
    && (forall k :: 0 <= k < POOL_SIZE ==>
          if start[k].active then w.pool.emitters[k] == start[k] || Gone(start[k], k, w)
          else !w.pool.emitters[k].active)
  }

  lemma StopStands(start: seq<Emitter>, w: World, v: Vid, before: seq<Vid>)
    requires WorldValid(w) && Standing(start, w)
    requires forall k :: 0 <= k < POOL_SIZE && start[k].active && start[k].vid in before ==> Gone(start[k], k, w)
    ensures Standing(start, EmitterStopped(w, v))
    ensures forall k :: 0 <= k < POOL_SIZE && start[k].active && (start[k].vid in before || start[k].vid == v) ==>
              Gone(start[k], k, EmitterStopped(w, v))
  {
  }

  lemma FrameConsequences(w: World, census: Census, envs: seq<Env>)
    requires WorldValid(w) && |envs| == POOL_SIZE
    ensures |Frame(w, 0, census, envs).pool.emitters| == POOL_SIZE
    ensures forall k :: 0 <= k < POOL_SIZE ==>
              Fate(w.pool.emitters[k], Frame(w, 0, census, envs).pool.emitters[k], census, Sounds(w.ring, envs[k]))
  {
    FrameFate(w, 0, census, envs, 0);
    forall k | 0 <= k < POOL_SIZE
      ensures Fate(w.pool.emitters[k], Frame(w, 0, census, envs).pool.emitters[k], census, Sounds(w.ring, envs[k]))
    {
      FrameFate(w, 0, census, envs, k);
    }
  }

  // The active emitters among the first n slots, and the world with a list of them stopped.
  function ActiveVids(p: Pool, n: nat): seq<Vid>
    requires n <= |p.emitters|
  {
    if n == 0 then []
    else if p.emitters[n - 1].active then ActiveVids(p, n - 1) + [p.emitters[n - 1].vid]
    else ActiveVids(p, n - 1)
  }

  function ListStopped(w: World, vids: seq<Vid>, n: nat): World
    requires n <= |vids|
  {
    if n == 0 then w else EmitterStopped(ListStopped(w, vids, n - 1), vids[n - 1])
  }

  function AllStopped(w: World): World {
    var vids := ActiveVids(w.pool, |w.pool.emitters|);
    ListStopped(w, vids, |vids|)
  }

  lemma {:induction false} ActiveListed(p: Pool, n: nat, k: nat)
    requires k < n <= |p.emitters| && p.emitters[k].active
    ensures p.emitters[k].vid in ActiveVids(p, n)
  {
    if k < n - 1 { ActiveListed(p, n - 1, k); }
  }

  lemma StopValid(w: World, v: Vid)
    requires WorldValid(w)
    ensures WorldValid(EmitterStopped(w, v))
  {
    if Live(w.pool, v) {
      DeactivatedIsValid(w.pool, v.id);
      RingEdgeValid(w.ring, w.pool.emitters[v.id].instance, false);
    }
  }

  lemma {:induction false} ListStands(w: World, vids: seq<Vid>, n: nat)
    requires WorldValid(w) && n <= |vids|
    ensures var u := ListStopped(w, vids, n);
            && WorldValid(u) && Standing(w.pool.emitters, u)
            && forall k :: 0 <= k < POOL_SIZE && w.pool.emitters[k].active && w.pool.emitters[k].vid in vids[..n] ==>
                 Gone(w.pool.emitters[k], k, u)
  {
    if n > 0 {
      ListStands(w, vids, n - 1);
      var u := ListStopped(w, vids, n - 1);
      StopStands(w.pool.emitters, u, vids[n - 1], vids[..n - 1]);
      StopValid(u, vids[n - 1]);
      hide PoolValid, RingValid, EmitterStopped, Gone, Standing;
      assert vids[..n] == vids[..n - 1] + [vids[n - 1]];
    }
  }

  /** Stopping everything leaves no emitter active, and silences every handle one held. */
  lemma StoppedStand(w: World, vids: seq<Vid>)
    requires WorldValid(w) && vids == ActiveVids(w.pool, POOL_SIZE)
    ensures var u := ListStopped(w, vids, |vids|);
            && u == AllStopped(w) && |u.pool.emitters| == POOL_SIZE
            && forall k :: 0 <= k < POOL_SIZE ==>
                 !u.pool.emitters[k].active &&
                 (w.pool.emitters[k].active ==> !Resolves(u.ring, w.pool.emitters[k].instance))
  {
    ListStands(w, vids, |vids|);
    assert vids[..|vids|] == vids;
    var u := ListStopped(w, vids, |vids|);
    forall k | 0 <= k < POOL_SIZE
      ensures !u.pool.emitters[k].active &&
              (w.pool.emitters[k].active ==> !Resolves(u.ring, w.pool.emitters[k].instance))
    {
      if w.pool.emitters[k].active { ActiveListed(w.pool, POOL_SIZE, k); }
    }
  }
}
