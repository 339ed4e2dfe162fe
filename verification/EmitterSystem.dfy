/**
 The emitter functions of the game, over the pool object and the mixer object.
 */
module EmitterSystem {
  import opened Options
  import opened Tracks
  import opened Vids
  import opened EmitterPool
  import opened Emitters
  import opened Ownership

  class SoundSystem {
    const manager: AudioEmitterManager
    const audio: Audio

    ghost function View(): World
      reads manager, audio
    {
      World(manager.View(), audio.View())
    }

    ghost predicate Valid()
      reads manager, audio
    {
      PoolValid(manager.View()) && audio.Valid()
    }

    constructor (trackCount: nat, ok: bool)
      requires trackCount < NO_ID
      ensures Valid() && Owned(View(), 0) && fresh(manager) && fresh(audio)
    {
      manager := new AudioEmitterManager.New();
      audio := new Audio(trackCount, ok);
    }

    // The audio thread: tracks run out and their callbacks run.
    method AudioThread(ends: seq<End>)
      requires Valid()
      modifies audio
      ensures Valid() && audio.View() == AllEnded(old(audio.View()), ends)
    {
      EndedIsValid(audio.View(), ends);
      for i := 0 to |ends|
        invariant audio.Valid()
        invariant AllEnded(audio.View(), ends[i..]) == AllEnded(old(audio.View()), ends)
      {
        assert ends[i..][1..] == ends[i + 1..];
        EndedIsValid(audio.View(), [ends[i]]);
        assert AllEnded(audio.View(), [ends[i]]) == Ended(audio.View(), ends[i].track, ends[i].callback);
        audio.EndTrack(ends[i].track, ends[i].callback);
      }
      assert ends[|ends|..] == [];
    }

    method HandleMissingTarget(e: Emitter, ownerMissing: bool) returns (kept: Option<Emitter>)
      ensures kept == if Tolerates(e) then Some(Detached(e, ownerMissing)) else None
      ensures kept.None? <==> e.policy == StopImmediately || (e.policy == FinishCurrentPlay && e.mode == Looping)
      ensures kept.Some? ==>
                kept.value == e.(source := FixedWorldPos, attached := None, offset := ORIGIN,
                                 owner := if ownerMissing then None else e.owner)
    {
      match e.policy
      case StopImmediately => return None;
      case FinishCurrentPlay =>
        if e.mode == Looping {
          return None;
        }
        var d := e.(source := FixedWorldPos);
        d := d.(attached := None, offset := ORIGIN);
        if ownerMissing {
          d := d.(owner := None);
        }
        return Some(d);
      case KeepPlayingDetached =>
        var d := e.(source := FixedWorldPos);
        d := d.(attached := None, offset := ORIGIN);
        if ownerMissing {
          d := d.(owner := None);
        }
        return Some(d);
    }

    method ResolveEmitterWorldPos(e: Emitter, census: Census) returns (kept: Option<Emitter>)
      ensures kept == Resolved(e, census)
      ensures kept.None? <==> MustGo(e, census)
      ensures kept.Some? && e.active ==> Kept(e, kept.value, census)
    {
      if e.owner.Some? && census(e.owner.value).None? {
        kept := HandleMissingTarget(e, true);
        return;
      }
      if e.source != AttachedEnt || e.attached.None? {
        return Some(e);
      }
      var centre := census(e.attached.value);
      if centre.Some? {
        return Some(e.(position := Sum(centre.value, e.offset)));
      }
      kept := HandleMissingTarget(e, false);
    }

    method WriteEmitter(id: nat, e: Emitter)
      requires Valid() && id < POOL_SIZE
      requires manager.emitters[id].active && e.active && e.vid == manager.emitters[id].vid
      modifies manager
      ensures Valid() && manager.View() == Replaced(old(manager.View()), id, e)
    {
      EditIsValid(manager.View(), id, e);
      manager.emitters := manager.emitters[id := e];
    }

    method StartEmitterInstance(id: nat, e: Emitter, outcome: Outcome) returns (started: bool)
      requires Valid() && id < POOL_SIZE
      requires manager.emitters[id].active && e.active && e.vid == manager.emitters[id].vid
      modifies manager, audio
      ensures Valid() && View() == Started(old(View()), id, e, outcome)
      ensures started == manager.emitters[id].started
    {
      var handle := audio.PlayAudioAssetInstance(outcome);
      WriteEmitter(id, e.(instance := handle, started := handle.id != NO_ID));
      started := handle.id != NO_ID;
    }

    method ReapEmitter(id: nat, e: Emitter)
      requires Valid() && id < POOL_SIZE
      requires manager.emitters[id].active && e.active && e.vid == manager.emitters[id].vid
      modifies manager
      ensures Valid() && View() == Reaped(old(View()), id, e)
    {
      WriteEmitter(id, e);
      manager.DeactivateEmitter(id);
    }

    method FinishEmitter(id: nat, e: Emitter, outcome: Outcome)
      requires Valid() && id < POOL_SIZE
      requires manager.emitters[id].active && e.active && e.vid == manager.emitters[id].vid
      modifies manager, audio
      ensures Valid() && View() == Finished(old(View()), id, e, outcome)
    {
      if e.mode == Looping {
        var _ := StartEmitterInstance(id, e.(started := false, instance := NO_INSTANCE), outcome);
        return;
      }
      ReapEmitter(id, e);
    }

    // The rest of the turn of an emitter that was started and keeps its position.
    method ContinueEmitter(id: nat, e: Emitter, env: Env)
      requires Valid() && id < POOL_SIZE && manager.emitters[id].active
      requires e.active && e.vid == manager.emitters[id].vid
      modifies manager, audio
      ensures Valid() && View() == Continued(old(View()), id, e, env)
    {
      hide Played, Handle, AllEnded, RingValid;
      var playing := audio.IsAudioInstancePlaying(e.instance);
      if e.instance.id == NO_ID || !playing {
        FinishEmitter(id, e, env.outcome);
        return;
      }
      WriteEmitter(id, e);
      if env.race {
        audio.EndTrack(e.instance.id, true);
      }
      var updated := audio.IsAudioInstancePlaying(e.instance);
      if updated {
        return;
      }
      FinishEmitter(id, e, env.outcome);
    }

    method UpdateEmitter(id: nat, census: Census, env: Env)
      requires Valid() && id < POOL_SIZE
      modifies manager, audio
      ensures Valid() && View() == Turn(old(View()), id, census, env)
    {
      AudioThread(env.ends);
      var e := manager.emitters[id];
      if !e.active {
        return;
      }
      ResolvedSame(e, census);
      var kept := ResolveEmitterWorldPos(e, census);
      hide Resolved, Continued, Reaped, Started, AllEnded;
      if kept.None? {
        if e.instance.id != NO_ID {
          var _ := audio.StopAudioInstance(e.instance);
        }
        ReapEmitter(id, e);
        return;
      }
      if !kept.value.started {
        var _ := StartEmitterInstance(id, kept.value, env.outcome);
        return;
      }
      ContinueEmitter(id, kept.value, env);
    }

    /** One frame: each slot in turn, deactivating slots and starting tracks on the way. */
    method UpdateAudioEmitters(census: Census, envs: seq<Env>)
      requires Valid() && |envs| == POOL_SIZE
      modifies manager, audio
      ensures Valid() && View() == Frame(old(View()), 0, census, envs)
      ensures forall k: nat ::
                old(Owned(View(), k) && k + FrameIssues(View(), 0, census, envs) < WRAP) ==>
                Owned(View(), old(FrameIssues(View(), 0, census, envs)))
      ensures forall k :: 0 <= k < POOL_SIZE ==>
                Fate(old(manager.emitters)[k], manager.emitters[k], census, Sounds(old(audio.View()), envs[k]))
    {
      hide Turn, Owned, Fate, FrameIssues;
      FrameConsequences(View(), census, envs);
      forall k: nat | Owned(View(), k) && k + FrameIssues(View(), 0, census, envs) < WRAP
        ensures Owned(Frame(View(), 0, census, envs), FrameIssues(View(), 0, census, envs))
      {
        FrameOwns(View(), census, envs, k);
      }
      for id := 0 to POOL_SIZE
        invariant Valid()
        invariant Frame(View(), id, census, envs) == Frame(old(View()), 0, census, envs)
      {
        UpdateEmitter(id, census, envs[id]);
      }
    }

    method GetEmitter(vid: Vid) returns (e: Option<Emitter>)
      requires Valid()
      ensures e == if Live(manager.View(), vid) then Some(manager.emitters[vid.id]) else None
    {
      var slot := manager.GetEmitterMut(vid);
      e := if slot.Some? then Some(manager.emitters[slot.value]) else None;
    }

    method FindOwnedSoundEmitter(owner: Vid, asset: nat, mode: PlaybackMode) returns (found: Option<Vid>)
      requires Valid()
      ensures found == FirstOwned(manager.View(), owner, asset, mode, 0)
    {
      for i := 0 to |manager.emitters|
        invariant FirstOwned(manager.View(), owner, asset, mode, 0) == FirstOwned(manager.View(), owner, asset, mode, i)
      {
        var e := manager.emitters[i];
        if !e.active || e.owner.None? {
          continue;
        }
        if e.owner.value == owner && e.asset == asset && e.mode == mode {
          return Some(e.vid);
        }
      }
      found := None;
    }

    method PlayWorldSoundEmitter(position: Vec, params: Params) returns (vid: Option<Vid>)
      requires Valid()
      modifies manager
      ensures Valid() && manager.View() == Created(old(manager.View()), AtPoint(params, position))
      ensures vid.Some? <==> old(manager.availableIds) != []
      ensures vid.Some? ==> Live(manager.View(), vid.value) && vid.value.id == NextId(old(manager.View()))
    {
      vid := manager.NewEmitter();
      if vid.None? {
        return;
      }
      var slot := manager.GetEmitterMut(vid.value);
      var id := slot.value;
      WriteEmitter(id, Placed(manager.emitters[id], params, position));
    }

    method PlayAttachedSoundEmitter(target: Vid, offset: Vec, params: Params, census: Census) returns (vid: Option<Vid>)
      requires Valid()
      modifies manager
      ensures Valid() && manager.View() == Created(old(manager.View()), OnEnt(params, target, offset, census(target)))
      ensures vid.Some? <==> old(manager.availableIds) != []
      ensures vid.Some? ==> Live(manager.View(), vid.value) && vid.value.id == NextId(old(manager.View()))
      ensures vid.Some? ==> vid.value == manager.emitters[vid.value.id].vid
    {
      vid := manager.NewEmitter();
      if vid.None? {
        return;
      }
      var slot := manager.GetEmitterMut(vid.value);
      var id := slot.value;
      WriteEmitter(id, AttachedTo(manager.emitters[id], params, target, offset, census(target)));
    }

    /** Find or make the one loop of an owner; calling it again changes nothing. */
    method EnsureAttachedLoopingSoundEmitter(
      owner: Vid, target: Vid, offset: Vec, asset: nat, volume: real, policy: LossPolicy, census: Census)
      returns (vid: Option<Vid>)
      requires Valid()
      modifies manager
      ensures Valid()
      ensures manager.View() ==
              Ensured(old(manager.View()), owner, target, offset, asset, volume, policy, census(target))
      ensures vid == FirstOwned(manager.View(), owner, asset, Looping, 0)
      ensures vid.Some? ==> Live(manager.View(), vid.value)
    {
      EnsuredFinds(manager.View(), owner, target, offset, asset, volume, policy, census(target));
      FirstOwnedIs(manager.View(), owner, asset, Looping, 0);
      vid := FindOwnedSoundEmitter(owner, asset, Looping);
      hide FirstOwned, Created;
      if vid.Some? {
        var slot := manager.GetEmitterMut(vid.value);
        var id := slot.value;
        WriteEmitter(id, Refreshed(manager.emitters[id], target, offset, volume, policy));
        return;
      }
      var params := Params(asset, volume, Looping, policy, Some(owner));
      vid := PlayAttachedSoundEmitter(target, offset, params, census);
    }

    method StopSoundEmitter(vid: Vid) returns (stopped: bool)
      requires Valid()
      modifies manager, audio
      ensures Valid() && View() == EmitterStopped(old(View()), vid)
      ensures stopped == old(Live(manager.View(), vid)) && !Live(manager.View(), vid)
    {
      var e := GetEmitter(vid);
      if e.None? {
        return false;
      }
      if e.value.instance.id != NO_ID {
        var _ := audio.StopAudioInstance(e.value.instance);
      }
      manager.SetInactiveVid(e.value.vid);
      stopped := true;
    }

    method StopOwnedSoundEmitter(owner: Vid, asset: nat, mode: PlaybackMode) returns (stopped: bool)
      requires Valid()
      modifies manager, audio
      ensures Valid()
      ensures var found := old(FirstOwned(manager.View(), owner, asset, mode, 0));
              && stopped == found.Some?
              && View() == if found.Some? then EmitterStopped(old(View()), found.value) else old(View())
    {
      FirstOwnedIs(manager.View(), owner, asset, mode, 0);
      var found := FindOwnedSoundEmitter(owner, asset, mode);
      if found.None? {
        return false;
      }
      stopped := StopSoundEmitter(found.value);
    }

    /** No emitter is left, and no track plays on for one that was there. */
    method StopAllSoundEmitters()
      requires Valid()
      modifies manager, audio
      ensures Valid() && View() == AllStopped(old(View()))
      ensures forall i :: 0 <= i < POOL_SIZE ==> !manager.emitters[i].active
      ensures forall i :: 0 <= i < POOL_SIZE && old(manager.emitters)[i].active ==>
                !Resolves(audio.View(), old(manager.emitters)[i].instance)
    {
      ghost var start := View();
      var vids: seq<Vid> := [];
      for i := 0 to |manager.emitters|
        invariant View() == start && vids == ActiveVids(start.pool, i)
      {
        if manager.emitters[i].active {
          vids := vids + [manager.emitters[i].vid];
        }
      }
      StoppedStand(start, vids);
      hide PoolValid, RingValid, EmitterStopped;
      for j := 0 to |vids|
        invariant Valid() && View() == ListStopped(start, vids, j)
      {
        var _ := StopSoundEmitter(vids[j]);
      }
    }
  }
}
