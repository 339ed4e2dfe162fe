/**
 Which emitter owns which track. Handles outlive their tracks, generations wrap, and anything
 else in the game may take tracks from the same ring; still no two emitters share one.
 */
module Ownership {
  import opened Options
  import opened Tracks
  import opened Vids
  import opened EmitterPool
  import opened Emitters

  // ----- how old a handle is -----

  function Generations(r: Ring): seq<nat> {
    seq(|r.tracks|, i requires 0 <= i < |r.tracks| => r.tracks[i].generation)
  }

  // How often a track was issued since it had this version, going around once.
  function Age(generation: nat, version: nat): nat
    requires version < WRAP
  {
    (generation + WRAP - version) % WRAP
  }

  // The handle was issued by its track, at most k issues ago.
  ghost predicate Recent(gens: seq<nat>, h: Vid, k: nat) {
    h != NO_INSTANCE ==> h.id < |gens| && h.version < WRAP && Age(gens[h.id], h.version) <= k
  }

  ghost predicate HandlesDistinct(emitters: seq<Emitter>) {
    forall i, j :: 0 <= i < j < |emitters| && emitters[i].instance != NO_INSTANCE ==>
      emitters[i].instance != emitters[j].instance
  }

  // In the middle of a frame: emitters that had their turn hold handles at most n issues old, the
  // others handles at most k issues older than that.
  ghost predicate Halfway(gens: seq<nat>, emitters: seq<Emitter>, id: nat, n: nat, k: nat) {
    && HandlesDistinct(emitters)
    && forall i :: 0 <= i < |emitters| ==> Recent(gens, emitters[i].instance, if i < id then n else n + k)
  }

  /** Between frames: the held handles are distinct, and none is more than k issues old. */
  ghost predicate Owned(w: World, k: nat) {
    Halfway(Generations(w.ring), w.pool.emitters, 0, 0, k)
  }

  // The issues a step of the ring made: one if a generation moved.
  ghost function IssuedBetween(r: Ring, s: Ring): nat {
    if Generations(r) == Generations(s) then 0 else 1
  }

  // At most one track is issued, and that once.
  ghost predicate OneIssue(a: seq<nat>, b: seq<nat>) {
    a == b || exists c :: 0 <= c < |a| && b == a[c := Bump(a[c])]
  }

  /** No two emitters hold handles that resolve to the same track. */
  lemma Exclusive(w: World, k: nat, i: nat, j: nat)
    requires WorldValid(w) && Owned(w, k) && i < j < POOL_SIZE
    requires Resolves(w.ring, w.pool.emitters[i].instance) && Resolves(w.ring, w.pool.emitters[j].instance)
    ensures w.pool.emitters[i].instance.id != w.pool.emitters[j].instance.id
  {
  }

  lemma AgesBy(generation: nat, version: nat)
    requires generation < WRAP && version < WRAP
    ensures Age(generation, generation) == 0 && generation != Bump(generation)
    ensures Age(Bump(generation), version) <= Age(generation, version) + 1
    ensures Bump(generation) == version ==> Age(generation, version) == WRAP - 1
    ensures Age(generation, version) == 0 ==> generation == version
  {
  }

  // ----- the pieces of a turn -----

  lemma PlayIssues(r: Ring, outcome: Outcome)
    requires RingValid(r)
    ensures var a, b, h := Generations(r), Generations(Played(r, outcome)), Handle(r, outcome);
            && OneIssue(a, b)
            && (h != NO_INSTANCE ==> h.id < |a| && h.version == Bump(a[h.id]) && b == a[h.id := h.version])
  {
    PlayedStaysValid(r, outcome);
    if r.tracks != [] {
      StealsOnlyWhenFull(r);
      var c, a, b := Chosen(r), Generations(r), Generations(Played(r, outcome));
      hide Chosen, Bump;
      assert b == a || b == a[c := Bump(a[c])];
    }
  }

  lemma MixerIssuesNothing(r: Ring, h: Vid, race: bool, ends: seq<End>)
    requires RingValid(r)
    ensures Generations(Stopped(r, h)) == Generations(r) == Generations(Raced(r, h, race))
    ensures Generations(AllEnded(r, ends)) == Generations(r)
  {
    EndedIsValid(r, ends);
  }

  ghost predicate Wrapped(gens: seq<nat>) { forall i :: 0 <= i < |gens| ==> gens[i] < WRAP }

  // An issue makes every handle one older at most.
  lemma IssueAges(a: seq<nat>, b: seq<nat>, emitters: seq<Emitter>, id: nat, n: nat, k: nat)
    requires Halfway(a, emitters, id, n, k) && OneIssue(a, b) && Wrapped(a)
    ensures Halfway(b, emitters, id, if a == b then n else n + 1, k)
  {
    if a != b {
      var c :| 0 <= c < |a| && b == a[c := Bump(a[c])];
      forall i | 0 <= i < |emitters| && emitters[i].instance != NO_INSTANCE
        ensures Recent(b, emitters[i].instance, if i < id then n + 1 else n + 1 + k)
      {
        AgesBy(a[c], emitters[i].instance.version);
      }
    }
  }

  // At the end of its turn an emitter holds nothing, or a handle at its track's generation.
  ghost predicate Fresh(gens: seq<nat>, h: Vid) {
    h != NO_INSTANCE ==> h.id < |gens| && h.version == gens[h.id] < WRAP
  }

  lemma TurnEnds(gens: seq<nat>, emitters: seq<Emitter>, id: nat, e: Emitter, n: nat, k: nat)
    requires Halfway(gens, emitters, id, n, k) && id < |emitters| && Fresh(gens, e.instance)
    requires e.instance == NO_INSTANCE ||
             forall i :: 0 <= i < |emitters| && i != id ==> emitters[i].instance != e.instance
    ensures Halfway(gens, emitters[id := e], id + 1, n, k)
  {
    if e.instance != NO_INSTANCE { AgesBy(e.instance.version, e.instance.version); }
  }

  // A new handle is not the old one of another emitter.
  lemma StartEnds(a: seq<nat>, b: seq<nat>, emitters: seq<Emitter>, id: nat, e: Emitter, n: nat, k: nat)
    requires Halfway(a, emitters, id, n, k) && OneIssue(a, b) && Wrapped(a) && Wrapped(b) && id < |emitters|
    requires var h := e.instance;
             h != NO_INSTANCE ==> h.id < |a| && h.version == Bump(a[h.id]) && b == a[h.id := h.version]
    requires a != b ==> n + k + 1 < WRAP
    ensures Halfway(b, emitters[id := e], id + 1, if a == b then n else n + 1, k)
  {
    var h := e.instance;
    IssueAges(a, b, emitters, id, n, k);
    forall i | 0 <= i < |emitters| && h != NO_INSTANCE ensures emitters[i].instance != h {
      if emitters[i].instance == h { AgesBy(a[h.id], h.version); }
    }
    hide Age;
    TurnEnds(b, emitters, id, e, if a == b then n else n + 1, k);
  }

  // ----- one turn -----

  ghost predicate Mid(w: World, id: nat, n: nat, k: nat) {
    Halfway(Generations(w.ring), w.pool.emitters, id, n, k)
  }

  lemma StartedOwns(w: World, id: nat, e: Emitter, outcome: Outcome, n: nat, k: nat)
    requires WorldValid(w) && Mid(w, id, n, k) && id < POOL_SIZE
    requires n + k + IssuedBetween(w.ring, Started(w, id, e, outcome).ring) < WRAP
    ensures var v := Started(w, id, e, outcome);
            Mid(v, id + 1, n + IssuedBetween(w.ring, v.ring), k)
  {
    var h := Handle(w.ring, outcome);
    PlayIssues(w.ring, outcome);
    PlayedStaysValid(w.ring, outcome);
    assert Wrapped(Generations(w.ring)) && Wrapped(Generations(Played(w.ring, outcome)));
    hide Played, Handle, PoolValid, RingValid, Halfway, Generations;
    StartEnds(Generations(w.ring), Generations(Played(w.ring, outcome)), w.pool.emitters, id,
              e.(instance := h, started := h.id != NO_ID), n, k);
  }

  // A play succeeds, and this is the handle the chosen track issued WRAP - 1 issues ago.
  predicate Oldest(r: Ring, outcome: Outcome, h: Vid)
    requires RingValid(r)
  {
    && r.tracks != [] && outcome == Plays && h.id == Chosen(r) && h.version < WRAP
    && Age(r.tracks[Chosen(r)].generation, h.version) == WRAP - 1
  }

  lemma OldestIs(r: Ring, outcome: Outcome, h: Vid)
    requires RingValid(r)
    ensures Oldest(r, outcome, h) <==> Handle(r, outcome) != NO_INSTANCE && h == Handle(r, outcome)
  {
    PlayedStaysValid(r, outcome);
    if r.tracks != [] {
      StealsOnlyWhenFull(r);
      OldestBy(r.tracks[Chosen(r)].generation, h.version);
    }
    hide Chosen, Played, Age, Bump;
  }

  lemma OldestBy(generation: nat, version: nat)
    requires generation < WRAP
    ensures version == Bump(generation) <==> version < WRAP && Age(generation, version) == WRAP - 1
  {
  }

  lemma DistinctWith(emitters: seq<Emitter>, id: nat, e: Emitter)
    requires HandlesDistinct(emitters) && id < |emitters|
    ensures HandlesDistinct(emitters[id := e]) <==>
            e.instance == NO_INSTANCE ||
            forall i: nat :: i < |emitters| && i != id ==> emitters[i].instance != e.instance
  {
    var after := emitters[id := e];
    if HandlesDistinct(after) && e.instance != NO_INSTANCE {
      forall i: nat | i < |emitters| && i != id ensures emitters[i].instance != e.instance {
        assert after[i] == emitters[i] && after[id] == e;
      }
    }
  }

  /**
   One start puts two emitters on one track exactly if another emitter holds the oldest handle of
   the chosen track, and then it is that emitter which comes to share.
   */
  lemma StartShares(w: World, id: nat, e: Emitter, outcome: Outcome)
    requires WorldValid(w) && HandlesDistinct(w.pool.emitters) && id < POOL_SIZE
    ensures var before, v := w.pool.emitters, Started(w, id, e, outcome);
            && (HandlesDistinct(v.pool.emitters) <==>
                forall i: nat :: i < POOL_SIZE && i != id ==> !Oldest(w.ring, outcome, before[i].instance))
            && forall i: nat :: i < POOL_SIZE && i != id ==>
                 (Oldest(w.ring, outcome, before[i].instance) <==>
                  Resolves(v.ring, v.pool.emitters[i].instance) &&
                  v.pool.emitters[i].instance == v.pool.emitters[id].instance)
  {
    var before, h := w.pool.emitters, Handle(w.ring, outcome);
    PlayedStaysValid(w.ring, outcome);
    hide Handle, Played, Oldest, HandlesDistinct, RingValid;
    DistinctWith(before, id, e.(instance := h, started := h.id != NO_ID));
    forall i: nat | i < POOL_SIZE
      ensures Oldest(w.ring, outcome, before[i].instance) <==> h != NO_INSTANCE && before[i].instance == h
    {
      OldestIs(w.ring, outcome, before[i].instance);
    }
  }

  lemma ReapedOwns(w: World, id: nat, e: Emitter, n: nat, k: nat)
    requires Mid(w, id, n, k) && id < |w.pool.emitters| && e.active
    ensures Mid(Reaped(w, id, e), id + 1, n, k) && Reaped(w, id, e).ring == w.ring
  {
    hide Halfway, Generations;
    assert Reaped(w, id, e).pool.emitters == w.pool.emitters[id := Retired(e)];
    TurnEnds(Generations(w.ring), w.pool.emitters, id, Retired(e), n, k);
  }

  lemma FinishedOwns(w: World, id: nat, e: Emitter, outcome: Outcome, n: nat, k: nat)
    requires WorldValid(w) && Mid(w, id, n, k) && id < POOL_SIZE && e.active
    requires n + k + IssuedBetween(w.ring, Finished(w, id, e, outcome).ring) < WRAP
    ensures var v := Finished(w, id, e, outcome);
            Mid(v, id + 1, n + IssuedBetween(w.ring, v.ring), k)
  {
    assert |w.pool.emitters| == POOL_SIZE;
    hide Started, Reaped, Mid, PoolValid, RingValid, Generations;
    if e.mode == Looping { StartedOwns(w, id, Stilled(e), outcome, n, k); } else { ReapedOwns(w, id, e, n, k); }
  }

  // An emitter whose handle resolves keeps it.
  lemma KeptOwns(w: World, id: nat, e: Emitter, n: nat, k: nat)
    requires WorldValid(w) && Mid(w, id, n, k) && id < POOL_SIZE && e.instance == w.pool.emitters[id].instance
    ensures Mid(w.(pool := Replaced(w.pool, id, e)), id, n, k)
    ensures Resolves(w.ring, e.instance) ==> Mid(w.(pool := Replaced(w.pool, id, e)), id + 1, n, k)
  {
    if Resolves(w.ring, e.instance) {
      TurnEnds(Generations(w.ring), w.pool.emitters, id, e, n, k);
    }
    hide Age;
  }

  lemma RingOwns(w: World, s: Ring, id: nat, n: nat, k: nat)
    requires Mid(w, id, n, k) && Generations(s) == Generations(w.ring)
    ensures Mid(w.(ring := s), id, n, k) && forall r :: IssuedBetween(s, r) == IssuedBetween(w.ring, r)
  {
  }

  /**
   One emitter's turn keeps the ownership of the tracks, and leaves that emitter with a handle
   as old as the turn, however old the handle was that it came with.
   */
  lemma TurnOwns(w: World, id: nat, census: Census, env: Env, n: nat, k: nat)
    requires WorldValid(w) && Mid(w, id, n, k) && id < POOL_SIZE
    requires n + k + IssuedBetween(w.ring, Turn(w, id, census, env).ring) < WRAP
    ensures var v := Turn(w, id, census, env);
            Mid(v, id + 1, n + IssuedBetween(w.ring, v.ring), k)
  {
    assert |w.pool.emitters| == POOL_SIZE;
    EndedIsValid(w.ring, env.ends);
    MixerIssuesNothing(w.ring, NO_INSTANCE, false, env.ends);
    var w0 := w.(ring := AllEnded(w.ring, env.ends));
    var e := w0.pool.emitters[id];
    RingOwns(w, w0.ring, id, n, k);
    hide Started, Reaped, Finished, Resolved, Stopped, Raced, AllEnded, Resolves, Mid, IssuedBetween, Generations,
         PoolValid, RingValid, ActiveTurn;
    if !e.active {
      IdleOwns(w0, id, n, k);
    } else {
      ActiveOwns(w0, id, census, env, n, k);
    }
  }

  lemma IdleOwns(w: World, id: nat, n: nat, k: nat)
    requires WorldValid(w) && Mid(w, id, n, k) && id < POOL_SIZE && !w.pool.emitters[id].active
    ensures Mid(w, id + 1, n + IssuedBetween(w.ring, w.ring), k)
  {
  }

  lemma ActiveOwns(w: World, id: nat, census: Census, env: Env, n: nat, k: nat)
    requires WorldValid(w) && Mid(w, id, n, k) && id < POOL_SIZE && w.pool.emitters[id].active
    requires n + k + IssuedBetween(w.ring, ActiveTurn(w, id, census, env).ring) < WRAP
    ensures var v := ActiveTurn(w, id, census, env);
            Mid(v, id + 1, n + IssuedBetween(w.ring, v.ring), k)
  {
    assert |w.pool.emitters| == POOL_SIZE;
    var e := w.pool.emitters[id];
    ResolvedSame(e, census);
    hide Started, Reaped, Continued, Resolved, Stopped, Resolves, Mid, Generations, PoolValid, RingValid;
    match Resolved(e, census)
    case None =>
      var s := Stopped(w.ring, e.instance);
      MixerIssuesNothing(w.ring, e.instance, false, []);
      RingOwns(w, s, id, n, k);
      ReapedOwns(w.(ring := s), id, e, n, k);
    case Some(e1) =>
      if !e1.started {
        StartedOwns(w, id, e1, env.outcome, n, k);
      } else {
        ContinuedOwns(w, id, e1, env, n, k);
      }
  }

  lemma ContinuedOwns(w: World, id: nat, e: Emitter, env: Env, n: nat, k: nat)
    requires WorldValid(w) && Mid(w, id, n, k) && id < POOL_SIZE
    requires n + k + IssuedBetween(w.ring, Continued(w, id, e, env).ring) < WRAP
    requires w.pool.emitters[id].active && e.active && e.vid == w.pool.emitters[id].vid
    requires e.instance == w.pool.emitters[id].instance
    ensures var v := Continued(w, id, e, env);
            Mid(v, id + 1, n + IssuedBetween(w.ring, v.ring), k)
  {
    assert |w.pool.emitters| == POOL_SIZE;
    var s := Raced(w.ring, e.instance, env.race);
    var w1 := w.(pool := Replaced(w.pool, id, e));
    MixerIssuesNothing(w.ring, e.instance, env.race, []);
    RingEdgeValid(w.ring, e.instance, env.race);
    KeptOwns(w, id, e, n, k);
    StartedValid(w, id, e, env.outcome);
    RingOwns(w1, s, id, n, k);
    hide Finished, Raced, Mid, Generations, PoolValid, RingValid;
    if !Resolves(w.ring, e.instance) {
      FinishedOwns(w, id, e, env.outcome, n, k);
    } else if Resolves(s, e.instance) {
      RingOwns(w1, s, id + 1, n, k);
    } else {
      FinishedOwns(w1.(ring := s), id, e, env.outcome, n, k);
    }
  }

  // ----- a whole frame -----

  // How many tracks a frame issues, from slot id on.
  ghost function FrameIssues(w: World, id: nat, census: Census, envs: seq<Env>): nat
    requires id <= |w.pool.emitters| == |envs| && RingValid(w.ring)
    decreases |envs| - id
  {
    if id == |envs| then 0
    else
      TurnShape(w, id, census, envs[id]);
      var v := Turn(w, id, census, envs[id]);
      IssuedBetween(w.ring, v.ring) + FrameIssues(v, id + 1, census, envs)
  }

  // What the rest of a frame makes of its middle.
  ghost predicate FrameEnds(w: World, id: nat, census: Census, envs: seq<Env>, n: nat, k: nat)
    requires id <= |w.pool.emitters| == |envs| && RingValid(w.ring)
  {
    var m := FrameIssues(w, id, census, envs);
    n + k + m < WRAP ==> Mid(Frame(w, id, census, envs), |envs|, n + m, k)
  }

  lemma {:induction false} FrameHalfway(w: World, id: nat, census: Census, envs: seq<Env>, n: nat, k: nat)
    requires id <= |w.pool.emitters| == |envs| && RingValid(w.ring) && WorldValid(w) && Mid(w, id, n, k)
    ensures FrameEnds(w, id, census, envs, n, k)
    decreases |envs| - id
  {
    assert |w.pool.emitters| == POOL_SIZE;
    hide PoolValid, RingValid, Turn, Mid, IssuedBetween, Frame, FrameIssues, OnlySlot;
    FrameStep(w, id, census, envs);
    if id < |envs| {
      var v := Turn(w, id, census, envs[id]);
      var m := IssuedBetween(w.ring, v.ring);
      TurnValid(w, id, census, envs[id]);
      if n + k + m < WRAP {
        TurnOwns(w, id, census, envs[id], n, k);
        FrameHalfway(v, id + 1, census, envs, n + m, k);
      }
    }
  }

  lemma FrameStep(w: World, id: nat, census: Census, envs: seq<Env>)
    requires id <= |w.pool.emitters| == |envs| && RingValid(w.ring)
    ensures id == |envs| ==> Frame(w, id, census, envs) == w && FrameIssues(w, id, census, envs) == 0
    ensures id < |envs| ==>
              var v := Turn(w, id, census, envs[id]);
              && RingValid(v.ring) && |v.pool.emitters| == |envs|
              && Frame(w, id, census, envs) == Frame(v, id + 1, census, envs)
              && FrameIssues(w, id, census, envs) ==
                 IssuedBetween(w.ring, v.ring) + FrameIssues(v, id + 1, census, envs)
  {
    if id < |envs| { TurnShape(w, id, census, envs[id]); }
    hide Turn, RingValid, IssuedBetween;
  }

  /** A frame makes every handle that is held as young as the frame. */
  lemma FrameOwns(w: World, census: Census, envs: seq<Env>, k: nat)
    requires WorldValid(w) && Owned(w, k) && |envs| == POOL_SIZE && k + FrameIssues(w, 0, census, envs) < WRAP
    ensures WorldValid(Frame(w, 0, census, envs)) && Owned(Frame(w, 0, census, envs), FrameIssues(w, 0, census, envs))
  {
    FrameValid(w, 0, census, envs);
    FrameHalfway(w, 0, census, envs, 0, k);
    hide Frame, FrameIssues, RingValid, Recent;
  }

  // ----- whole runs -----

  // OtherSound is a play outside the emitters: it takes tracks from the same ring.
  datatype Action =
    | Create(birth: Birth)
    | Ensure(owner: Vid, target: Vid, offset: Vec, asset: nat, volume: real, policy: LossPolicy, centre: Option<Vec>)
    | Update(census: Census, envs: seq<Env>)
    | StopEmitter(vid: Vid)
    | StopAll
    | OtherSound(outcome: Outcome)
    | Endings(ends: seq<End>)
    | ClearEmitters

  predicate Proper(a: Action) { a.Update? ==> |a.envs| == POOL_SIZE }

  function Acted(w: World, a: Action): World
    requires WorldValid(w) && Proper(a)
  {
    match a
    case Create(b) => w.(pool := Created(w.pool, b))
    case Ensure(owner, target, offset, asset, volume, policy, centre) =>
      w.(pool := Ensured(w.pool, owner, target, offset, asset, volume, policy, centre))
    case Update(census, envs) => Frame(w, 0, census, envs)
    case StopEmitter(v) => EmitterStopped(w, v)
    case StopAll => AllStopped(w)
    case OtherSound(outcome) => w.(ring := Played(w.ring, outcome))
    case Endings(ends) => w.(ring := AllEnded(w.ring, ends))
    case ClearEmitters => w.(pool := Cleared(w.pool))
  }

  // How many tracks an action issues.
  ghost function IssuesOf(w: World, a: Action): nat
    requires WorldValid(w) && Proper(a)
  {
    match a
    case Update(census, envs) => FrameIssues(w, 0, census, envs)
    case OtherSound(outcome) => IssuedBetween(w.ring, Played(w.ring, outcome))
    case _ => 0
  }

  // How many have been issued since the last frame began.
  ghost function IssuesSince(w: World, a: Action, k: nat): nat
    requires WorldValid(w) && Proper(a)
  {
    if a.Update? then IssuesOf(w, a) else k + IssuesOf(w, a)
  }

  // Slots change, and hold what they held or nothing.
  lemma SlotsOwn(w: World, p: Pool, k: nat)
    requires Owned(w, k) && |p.emitters| == |w.pool.emitters|
    requires forall i :: 0 <= i < |p.emitters| ==>
               p.emitters[i].instance == NO_INSTANCE || p.emitters[i].instance == w.pool.emitters[i].instance
    ensures Owned(w.(pool := p), k)
  {
    hide Age;
  }

  lemma CreatedKeeps(p: Pool, b: Birth)
    requires PoolValid(p)
    ensures PoolValid(Created(p, b)) && HandlesKept(p, Created(p, b))
  {
    if p.free != [] {
      AcquiredIsValid(p);
      EditIsValid(Acquired(p), NextId(p), Born(Issued(p.emitters[NextId(p)]), b));
    }
  }

  ghost predicate HandlesKept(p: Pool, q: Pool) {
    |q.emitters| == |p.emitters| && forall i :: 0 <= i < |p.emitters| ==>
      q.emitters[i].instance == NO_INSTANCE || q.emitters[i].instance == p.emitters[i].instance
  }

  lemma EnsuredKeeps(
    p: Pool, owner: Vid, target: Vid, offset: Vec, asset: nat, volume: real, policy: LossPolicy, centre: Option<Vec>)
    requires PoolValid(p)
    ensures var q := Ensured(p, owner, target, offset, asset, volume, policy, centre); PoolValid(q) && HandlesKept(p, q)
  {
    EnsuredFinds(p, owner, target, offset, asset, volume, policy, centre);
    FirstOwnedIs(p, owner, asset, Looping, 0);
    CreatedKeeps(p, OnEnt(Params(asset, volume, Looping, policy, Some(owner)), target, offset, centre));
    hide Created, FirstOwned, PoolValid;
    assert |p.emitters| == POOL_SIZE;
  }

  lemma StoppedKeeps(w: World, v: Vid)
    requires WorldValid(w)
    ensures var u := EmitterStopped(w, v);
            WorldValid(u) && HandlesKept(w.pool, u.pool) && Generations(u.ring) == Generations(w.ring)
  {
    StopValid(w, v);
    if Live(w.pool, v) { MixerIssuesNothing(w.ring, w.pool.emitters[v.id].instance, false, []); }
  }

  lemma {:induction false} ListStoppedKeeps(w: World, vids: seq<Vid>, n: nat)
    requires WorldValid(w) && n <= |vids|
    ensures var u := ListStopped(w, vids, n);
            WorldValid(u) && HandlesKept(w.pool, u.pool) && Generations(u.ring) == Generations(w.ring)
  {
    if n > 0 {
      ListStoppedKeeps(w, vids, n - 1);
      StoppedKeeps(ListStopped(w, vids, n - 1), vids[n - 1]);
    }
  }

  /** Each action keeps the world valid. */
  lemma ActedValid(w: World, a: Action)
    requires WorldValid(w) && Proper(a)
    ensures WorldValid(Acted(w, a))
  {
    match a
    case Create(b) => CreatedKeeps(w.pool, b);
    case Ensure(owner, target, offset, asset, volume, policy, centre) =>
      EnsuredKeeps(w.pool, owner, target, offset, asset, volume, policy, centre);
    case Update(census, envs) => FrameValid(w, 0, census, envs);
    case StopEmitter(v) => StoppedKeeps(w, v);
    case StopAll => ListStoppedKeeps(w, ActiveVids(w.pool, POOL_SIZE), |ActiveVids(w.pool, POOL_SIZE)|);
    case OtherSound(outcome) => PlayedStaysValid(w.ring, outcome);
    case Endings(ends) => EndedIsValid(w.ring, ends);
    case ClearEmitters => ClearedIsValid(w.pool);
  }

  /** And the ownership, with the issues since the last frame began counted. */
  lemma ActedOwns(w: World, a: Action, k: nat)
    requires WorldValid(w) && Proper(a) && Owned(w, k) && (a.Update? ==> k + IssuesOf(w, a) < WRAP)
    ensures Owned(Acted(w, a), IssuesSince(w, a, k))
  {
    assert |w.pool.emitters| == POOL_SIZE;
    hide Created, Ensured, Frame, FrameIssues, EmitterStopped, ListStopped, Played, AllEnded, Cleared, PoolValid,
         RingValid, Halfway, Generations;
    match a
    case Create(b) => CreatedKeeps(w.pool, b); SlotsOwn(w, Created(w.pool, b), k);
    case Ensure(owner, target, offset, asset, volume, policy, centre) =>
      EnsuredKeeps(w.pool, owner, target, offset, asset, volume, policy, centre);
      SlotsOwn(w, Acted(w, a).pool, k);
    case Update(census, envs) => FrameOwns(w, census, envs, k);
    case StopEmitter(v) => StoppedKeeps(w, v); SlotsOwn(w, Acted(w, a).pool, k);
    case StopAll =>
      ListStoppedKeeps(w, ActiveVids(w.pool, POOL_SIZE), |ActiveVids(w.pool, POOL_SIZE)|);
      SlotsOwn(w, Acted(w, a).pool, k);
    case OtherSound(outcome) => PlayOwns(w, outcome, k);
    case Endings(ends) => MixerIssuesNothing(w.ring, NO_INSTANCE, false, ends);
    case ClearEmitters => ClearOwns(w, k);
  }

  lemma ClearOwns(w: World, k: nat)
    requires Owned(w, k)
    ensures Owned(w.(pool := Cleared(w.pool)), k)
  {
    SlotsOwn(w, Cleared(w.pool), k);
  }

  lemma PlayOwns(w: World, outcome: Outcome, k: nat)
    requires WorldValid(w) && Owned(w, k)
    ensures Owned(w.(ring := Played(w.ring, outcome)), k + IssuedBetween(w.ring, Played(w.ring, outcome)))
  {
    PlayIssues(w.ring, outcome);
    assert Wrapped(Generations(w.ring));
    IssueAges(Generations(w.ring), Generations(Played(w.ring, outcome)), w.pool.emitters, 0, 0, k);
    hide Played, Recent, Generations;
  }

  function Ran(w: World, actions: seq<Action>): World
    requires WorldValid(w) && forall a :: a in actions ==> Proper(a)
    decreases |actions|
  {
    if actions == [] then w
    else
      ActedValid(w, actions[0]);
      Ran(Acted(w, actions[0]), actions[1..])
  }

  // From the beginning of a frame to the end of the next, fewer than 2^32 tracks are issued.
  ghost predicate Paced(w: World, actions: seq<Action>, k: nat)
    requires WorldValid(w) && forall a :: a in actions ==> Proper(a)
    decreases |actions|
  {
    actions == [] ||
    var a := actions[0];
    ActedValid(w, a);
    (a.Update? ==> k + IssuesOf(w, a) < WRAP) && Paced(Acted(w, a), actions[1..], IssuesSince(w, a, k))
  }

  /**
   No run of any length lets two emitters resolve to one track, or breaks the pool, as long as
   fewer than 2^32 tracks are issued from the beginning of each frame to the end of the next.
   */
  lemma {:induction false} RunKeeps(w: World, actions: seq<Action>, k: nat)
    requires WorldValid(w) && Owned(w, k) && (forall a :: a in actions ==> Proper(a)) && Paced(w, actions, k)
    ensures var end := Ran(w, actions);
            && WorldValid(end) && (exists m :: Owned(end, m))
            && forall i, j :: 0 <= i < j < POOL_SIZE && Resolves(end.ring, end.pool.emitters[i].instance)
                              && Resolves(end.ring, end.pool.emitters[j].instance)
                              ==> end.pool.emitters[i].instance.id != end.pool.emitters[j].instance.id
    decreases |actions|
  {
    if actions == [] {
      forall i, j | 0 <= i < j < POOL_SIZE && Resolves(w.ring, w.pool.emitters[i].instance)
                    && Resolves(w.ring, w.pool.emitters[j].instance)
        ensures w.pool.emitters[i].instance.id != w.pool.emitters[j].instance.id
      {
        Exclusive(w, k, i, j);
      }
    } else {
      var a := actions[0];
      hide Acted, Owned, PoolValid, RingValid, Resolves, IssuesOf, IssuesSince;
      ActedValid(w, a);
      ActedOwns(w, a, k);
      RunKeeps(Acted(w, a), actions[1..], IssuesSince(w, a, k));
    }
  }

  // A pace that can be read off the actions: m plays since the last frame, and never too many.
  predicate FewPlays(actions: seq<Action>, m: nat)
    decreases |actions|
  {
    actions == [] ||
    if actions[0].Update? then m + 2 * POOL_SIZE < WRAP && FewPlays(actions[1..], 0)
    else FewPlays(actions[1..], if actions[0].OtherSound? then m + 1 else m)
  }

  lemma {:induction false} FrameIssuesFew(w: World, id: nat, census: Census, envs: seq<Env>)
    requires id <= |w.pool.emitters| == |envs| && RingValid(w.ring)
    ensures FrameIssues(w, id, census, envs) <= |envs| - id
    decreases |envs| - id
  {
    FrameStep(w, id, census, envs);
    hide Turn, RingValid, Frame, FrameIssues;
    if id < |envs| { FrameIssuesFew(Turn(w, id, census, envs[id]), id + 1, census, envs); }
  }

  lemma IssuesFew(w: World, a: Action)
    requires WorldValid(w) && Proper(a)
    ensures IssuesOf(w, a) <= if a.Update? then POOL_SIZE else if a.OtherSound? then 1 else 0
  {
    if a.Update? { FrameIssuesFew(w, 0, a.census, a.envs); }
    hide FrameIssues, Played;
  }

  /** Fewer than 2^32 - 512 plays between two frames are few enough. */
  lemma {:induction false} FewPlaysPace(w: World, actions: seq<Action>, m: nat, k: nat)
    requires WorldValid(w) && (forall a :: a in actions ==> Proper(a)) && FewPlays(actions, m) && k <= m + POOL_SIZE
    ensures Paced(w, actions, k)
    decreases |actions|
  {
    if actions != [] {
      var a := actions[0];
      ActedValid(w, a);
      IssuesFew(w, a);
      hide Acted, WorldValid, IssuesOf;
      var since := if a.Update? then 0 else if a.OtherSound? then m + 1 else m;
      FewPlaysPace(Acted(w, a), actions[1..], since, IssuesSince(w, a, k));
    }
  }

  // ----- why the pace matters -----

  const BELL := AtPoint(Params(0, 1.0, Looping, KeepPlayingDetached, None), ORIGIN)

  // A game with one track and nothing sounding.
  function Silence(): World {
    World(Pool(seq(POOL_SIZE, i requires 0 <= i < POOL_SIZE => BLANK.(vid := Vid(i, 0))), CountDown(POOL_SIZE)),
          Ring([Track(false, 0, false)], 0))
  }

  lemma SilenceValid()
    ensures WorldValid(Silence()) && Owned(Silence(), 0)
  {
    forall k: nat ensures k in CountDown(POOL_SIZE) <==> k < POOL_SIZE {
      assert k < POOL_SIZE ==> CountDown(POOL_SIZE)[POOL_SIZE - 1 - k] == k;
    }
  }

  // A frame in which nothing ends, and emitter 0 gets the answer given; emitter 1 may play.
  function Quiet(first: Outcome): seq<Env> {
    seq(POOL_SIZE, i requires 0 <= i < POOL_SIZE => Env([], false, if i == 0 then first else Plays))
  }

  const NOBODY: Census := _ => None

  // Two loops at a point, and one track; emitter 1 holds h.
  ghost predicate TwoLoops(w: World, h: Vid) {
    && WorldValid(w) && |w.ring.tracks| == 1
    && (forall i :: 0 <= i < POOL_SIZE ==> (w.pool.emitters[i].active <==> i < 2))
    && (forall i :: 0 <= i < 2 ==> var e := w.pool.emitters[i];
          e.mode == Looping && e.source == FixedWorldPos && e.owner == None)
    && !w.pool.emitters[0].started && w.pool.emitters[1].instance == h
    && (w.pool.emitters[1].started <==> h != NO_INSTANCE)
  }

  lemma {:induction false} RestIdle(w: World, id: nat, census: Census, envs: seq<Env>)
    requires WorldValid(w) && id <= POOL_SIZE == |envs|
    requires forall i :: id <= i < POOL_SIZE ==> !w.pool.emitters[i].active && envs[i].ends == []
    ensures Frame(w, id, census, envs) == w
    decreases POOL_SIZE - id
  {
    if id < POOL_SIZE {
      assert Turn(w, id, census, envs[id]) == w;
      hide Turn;
      RestIdle(w, id + 1, census, envs);
    }
  }

  lemma LoneChosen(r: Ring)
    requires RingValid(r) && |r.tracks| == 1
    ensures Chosen(r) == 0
  {
    StealsOnlyWhenFull(r);
  }

  // The frame in which the first loop finds no sound and the second starts.
  lemma SecondStarts(w: World)
    requires TwoLoops(w, NO_INSTANCE)
    ensures var v, g := Frame(w, 0, NOBODY, Quiet(NotLoaded)), Bump(w.ring.tracks[0].generation);
            TwoLoops(v, Vid(0, g)) && v.ring == Ring([Track(true, g, true)], 0)
  {
    var envs := Quiet(NotLoaded);
    FirstWaits(w, envs[0]);
    var a := Turn(w, 0, NOBODY, envs[0]);
    SecondPlays(a, envs[1]);
    hide Turn, Bump, PoolValid, RingValid;
    RestIdle(Turn(a, 1, NOBODY, envs[1]), 2, NOBODY, envs);
  }

  lemma FirstWaits(w: World, env: Env)
    requires TwoLoops(w, NO_INSTANCE) && env == Env([], false, NotLoaded)
    ensures TwoLoops(Turn(w, 0, NOBODY, env), NO_INSTANCE) && Turn(w, 0, NOBODY, env).ring == w.ring
  {
    TurnValid(w, 0, NOBODY, env);
    var a := Turn(w, 0, NOBODY, env);
    assert a.pool.emitters == w.pool.emitters[0 := w.pool.emitters[0].(instance := NO_INSTANCE, started := false)];
  }

  lemma SecondPlays(w: World, env: Env)
    requires TwoLoops(w, NO_INSTANCE) && env == Env([], false, Plays)
    ensures var v, g := Turn(w, 1, NOBODY, env), Bump(w.ring.tracks[0].generation);
            TwoLoops(v, Vid(0, g)) && v.ring == Ring([Track(true, g, true)], 0)
  {
    TurnValid(w, 1, NOBODY, env);
    LoneChosen(w.ring);
    hide Bump, Chosen;
  }

  // The frame in which the first loop starts on the generation the second one holds.
  lemma FirstJoins(w: World, h: Vid)
    requires TwoLoops(w, h) && h != NO_INSTANCE && h == Vid(0, Bump(w.ring.tracks[0].generation))
    ensures var v := Frame(w, 0, NOBODY, Quiet(Plays));
            && WorldValid(v) && v.pool.emitters[0].instance == v.pool.emitters[1].instance == h && Resolves(v.ring, h)
  {
    var envs := Quiet(Plays);
    LoneChosen(w.ring);
    var a := Turn(w, 0, NOBODY, envs[0]);
    TurnValid(w, 0, NOBODY, envs[0]);
    assert a.pool.emitters == w.pool.emitters[0 := w.pool.emitters[0].(instance := h, started := true)];
    assert Resolves(a.ring, h);
    var b := Turn(a, 1, NOBODY, envs[1]);
    TurnValid(a, 1, NOBODY, envs[1]);
    assert b == a;
    hide Turn;
    RestIdle(b, 2, NOBODY, envs);
  }

  function Others(n: nat): seq<Action> { seq(n, _ => OtherSound(Plays)) }

  lemma {:induction false} OthersPlay(w: World, n: nat)
    requires WorldValid(w) && |w.ring.tracks| == 1
    ensures var v := Ran(w, Others(n));
            && WorldValid(v) && v.pool == w.pool && |v.ring.tracks| == 1
            && v.ring.tracks[0].generation == Advanced(w.ring.tracks[0].generation, n)
    decreases n
  {
    if n > 0 {
      LoneChosen(w.ring);
      PlayedStaysValid(w.ring, Plays);
      var v := Acted(w, OtherSound(Plays));
      assert Others(n)[0] == OtherSound(Plays) && Others(n)[1..] == Others(n - 1);
      CountsOn(w.ring.tracks[0].generation, true, n - 1);
      hide Advanced, Bump;
      OthersPlay(v, n - 1);
    }
  }

  lemma {:induction false} RanOn(w: World, a: seq<Action>, b: seq<Action>)
    requires WorldValid(w) && forall x :: x in a + b ==> Proper(x)
    ensures (forall x :: x in a ==> Proper(x)) && WorldValid(Ran(w, a))
    ensures Ran(w, a + b) == Ran(Ran(w, a), b)
    decreases |a|
  {
    assert forall x :: x in a ==> x in a + b;
    hide Acted, WorldValid;
    if a == [] {
      assert a + b == b;
    } else {
      ActedValid(w, a[0]);
      assert (a + b)[1..] == a[1..] + b && forall x :: x in a[1..] + b ==> x in a + b;
      RanOn(Acted(w, a[0]), a[1..], b);
    }
  }

  lemma TwoCreated()
    ensures WorldValid(Silence())
    ensures var w := Acted(Silence(), Create(BELL));
            && WorldValid(w) && WorldValid(Acted(w, Create(BELL)))
            && TwoLoops(Acted(w, Create(BELL)), NO_INSTANCE)
            && Acted(w, Create(BELL)).ring == Silence().ring
  {
    SilenceValid();
    var p := Silence().pool;
    CreatedKeeps(p, BELL);
    var q := Created(p, BELL);
    assert NextId(p) == 0;
    CreatedKeeps(q, BELL);
    assert NextId(q) == 1;
  }

  function Opening(): seq<Action> { [Create(BELL), Create(BELL), Update(NOBODY, Quiet(NotLoaded))] }

  // Two loops and a frame, then 2^32 - 1 other plays, then the frame in which the first one starts.
  function Collision(): seq<Action> { Opening() + Others(WRAP - 1) + [Update(NOBODY, Quiet(Plays))] }

  lemma CollisionProper()
    ensures forall a :: a in Collision() ==> Proper(a)
  {
  }

  lemma ThreeRan(w: World, a: Action, b: Action, d: Action)
    requires WorldValid(w) && Proper(a) && Proper(b) && Proper(d)
    ensures WorldValid(Acted(w, a)) && WorldValid(Acted(Acted(w, a), b))
    ensures Ran(w, [a, b, d]) == Acted(Acted(Acted(w, a), b), d)
  {
    hide WorldValid, Acted, Ran, Proper;
    ActedValid(w, a);
    ActedValid(Acted(w, a), b);
    ActedValid(Acted(Acted(w, a), b), d);
    RanStep(w, [a, b, d]);
    assert [a, b, d][1..] == [b, d] && [b, d][1..] == [d] && [d][1..] == [];
    RanStep(Acted(w, a), [b, d]);
    RanStep(Acted(Acted(w, a), b), [d]);
    RanNothing(Acted(Acted(Acted(w, a), b), d));
  }

  lemma OpeningRan()
    ensures WorldValid(Silence()) && forall a :: a in Opening() ==> Proper(a)
    ensures TwoLoops(Ran(Silence(), Opening()), Vid(0, 1))
    ensures Ran(Silence(), Opening()).ring == Ring([Track(true, 1, true)], 0)
  {
    hide *;
    SilenceValid();
    TwoCreated();
    OpeningIs();
    var last := Update(NOBODY, Quiet(NotLoaded));
    var w2 := Acted(Acted(Silence(), Create(BELL)), Create(BELL));
    SecondStarts(w2);
    LastActed(w2);
    BumpOfZero();
    ThreeRan(Silence(), Create(BELL), Create(BELL), last);
  }

  lemma BumpOfZero()
    ensures Bump(0) == 1
  {
  }

  lemma OpeningIs()
    ensures Opening() == [Create(BELL), Create(BELL), Update(NOBODY, Quiet(NotLoaded))]
    ensures forall a :: a in Opening() ==> Proper(a)
    ensures Proper(Create(BELL)) && Proper(Update(NOBODY, Quiet(NotLoaded)))
    ensures Silence().ring == Ring([Track(false, 0, false)], 0)
  {
  }

  lemma LastActed(w: World)
    requires WorldValid(w) && Proper(Update(NOBODY, Quiet(NotLoaded)))
    ensures |Quiet(NotLoaded)| == POOL_SIZE
    ensures Acted(w, Update(NOBODY, Quiet(NotLoaded))) == Frame(w, 0, NOBODY, Quiet(NotLoaded))
  {
  }

  lemma RanStep(w: World, actions: seq<Action>)
    requires WorldValid(w) && (forall a :: a in actions ==> Proper(a)) && actions != []
    ensures WorldValid(Acted(w, actions[0])) && Ran(w, actions) == Ran(Acted(w, actions[0]), actions[1..])
  {
    ActedValid(w, actions[0]);
  }

  // Emitters 0 and 1 hold one handle, and it resolves.
  predicate Shares(w: World) {
    |w.pool.emitters| == POOL_SIZE && w.pool.emitters[0].instance == w.pool.emitters[1].instance &&
    Resolves(w.ring, w.pool.emitters[0].instance)
  }

  // The run from the opening on.
  lemma CollisionEnds(w: World)
    requires TwoLoops(w, Vid(0, 1)) && w.ring == Ring([Track(true, 1, true)], 0)
    ensures WorldValid(w) && WorldValid(Ran(w, Others(WRAP - 1)))
    ensures Shares(Ran(Ran(w, Others(WRAP - 1)), [Update(NOBODY, Quiet(Plays))]))
  {
    var last := Update(NOBODY, Quiet(Plays));
    OthersPlay(w, WRAP - 1);
    var v := Ran(w, Others(WRAP - 1));
    assert TwoLoops(v, Vid(0, 1)) && v.ring.tracks[0].generation == 0;
    hide Others, Ran;
    FirstJoins(v, Vid(0, 1));
    hide Frame, TwoLoops;
    RanStep(v, [last]);
    RanNothing(Acted(v, last));
  }

  lemma RanNothing(w: World)
    requires WorldValid(w)
    ensures Ran(w, []) == w
  {
  }

  /** With 2^32 - 1 other plays between two frames, two emitters end up on one track. */
  lemma SharedTrack()
    ensures WorldValid(Silence()) && Owned(Silence(), 0) && forall a :: a in Collision() ==> Proper(a)
    ensures Shares(Ran(Silence(), Collision()))
  {
    CollisionProper();
    SilenceValid();
    OpeningRan();
    CollisionEnds(Ran(Silence(), Opening()));
    hide Shares, WorldValid, TwoLoops, Owned, Silence, Opening, Others, Quiet, Ran;
    assert forall x :: x in Opening() + Others(WRAP - 1) ==> x in Collision();
    RanOn(Silence(), Opening(), Others(WRAP - 1));
    RanOn(Silence(), Opening() + Others(WRAP - 1), [Update(NOBODY, Quiet(Plays))]);
  }
}
