# Splonks: verified models of the game's stateful algorithms

This project models, in Dafny, the algorithms of the Splonks game on which its networking, audio,
animation and content checks rest, and proves what they promise. `dafny verify dfyconfig.toml`
checks everything. Objects that update their fields are classes with those fields and methods in
the source's own branches and loops; each method is proved equal to a function on values, or to
state its property outright, and the promises are lemmas about those functions.

**Networking.** `InputFrames`, `InputBuffer` and `WireRecords` are the lockstep input buffer: packing
of frames, storing of actual, predicted and canonical records, and their wire form. `Simulation` is
the game tick seen from outside, a deterministic function of the state and the frame's inputs.
`Rollback` is the predict, snapshot, roll back and replay loop of the latency harness. `PeerRollback`
is the windowed one of a networked peer and `PeerSessions` its session object; `HostSessions` is the
host, which makes inputs canonical and sends them again and again in bursts of packets; `HostStream`
runs peer and host together, from any frame at which a session may be resumed, over a network that
loses, delays and doubles what either sends; `LostFrames` and `TornBursts` build the runs in which a
frame is lost for the peer, and `OwnBursts` those in which one is lost for the host. `FakeNetwork` with
`Lockstep` is the two lockstep peers of the test harness. `ReplayCursor` replays a recorded desync,
`LobbyInput` maps lobby devices onto player slots, and `JoinLadder` is the fallback from direct join to
NAT punch to relay.

**Audio.** `Tracks` is the ring of playback tracks with generation counters and stealing, `EmitterPool`
the pool of 256 emitters with its queue of free ids, `Emitters` and `EmitterSystem` the frame loop that
runs the second over the first, and `Ownership` the question which emitter owns which track.
`AudioFilter` and `Reverb` are the four audio processors over the reals.

**The rest.** `Animator` is animation playback, `AnimationDb` the animation database, `FixedPoint` the
integer square root, `Fnv`, `ByteStrings` and `ContentHash` the hashes and the canonical content stream,
`NameCollision` two names with one hash, `Effects` the timed effects of an entity and `ToolInventory` its
tool slots. `Options`, `Vids`, `Arithmetic`, `Counting`, `Sorting` and `Snapshots` hold what several
modules share.

Seven promises turned out to hold only under a condition. Each is proved with its condition, and with
an input at which it fails:

- A peer's rollback repairs a wrong prediction only while the frame is in its windows, and a frame that
  left wrong is never repaired (`HostStream.NeverRepaired`). A step leaves a true past behind exactly if
  the frame that leaves the input window is confirmed (`PeerRollback.StepKeepsPastExactly`). Host and
  peer both send their last 13 frames again with every frame, of which a host may have kept 12. A session begins at a frame `base`: at 0
  after a reset, later with the host's state of that frame after a join or a resync; the host may still
  hold inputs the peer sent before.
  - A peer queues its inputs up to the input delay before it sends any, so its first burst begins at
    base + delay - 12. If the host lacks a frame between `base` and that, it never gets it and never
    goes on, over a perfect network too (`HostStream.UnfedRun`). A host that holds nothing of the peer is in this case
    exactly if the delay is more than 12 frames (`LostFrames.FreshFed`); it may be set up to 60.
  - Host and peer wait for each other if the delay is more than the rollback window plus the smaller of
    window and `base`. The peer takes its first step in some run exactly if they do not, and the host
    gets every frame that step needs (`HostStream.NeverStarts`, `LostFrames.StartsExactly`).
  - If bursts are lost whole, a peer of any number of players is right in every run exactly if its window
    is at most 12 frames, which is the default, or it never starts, or the host lacks such a frame
    (`HostStream.SafeRun`, `LostFrames.SafeExactly`). The window may be set up to 120. The failing runs
    end at rest, with everything confirmed and nothing requested. `LostFrames.ResumedLoses` is a session
    resumed at frame 1000 with window 20 and delay 30, by a host that holds frames 1000 to 1017.
  - A burst for two players is two packets. If one of them can be lost without the other, the default
    settings are not right in every run either. Of the other sessions, exactly those are that
    `TornBursts.Gapless` lists: a window of two or three frames and a session that begins at frame 8 or
    later, or a delay that lets the peer step only when it has heard all the host has sent, and a session
    whose first frames fit one packet, or nearly so (`TornBursts.TornExactly`). Only the exchange of state
    hashes, which is not part of this model, can notice that a peer rests wrong.
  - The host is never left without an input that the peer's latest burst does not bring, however many
    were lost, exactly if window and delay are at most 12 frames (`OwnBursts.FeedsExactly`, for a host
    that begins with nothing of the peer). Otherwise there are runs after which it never goes on
    (`OwnBursts.CutsOff`, `OwnBursts.CutOffForGood`). With such a window, one burst that gets through in
    each direction is enough for the peer to step and to be exactly in the host's state, whatever was
    lost before, if they do not wait for each other (`OwnBursts.OneExchange`).
- The host decides exactly what was recorded, which is a peer's last word (`HostSessions.DecidesHeard`),
  and never revises it (`HostSessions.HostSession.PrepareInputLockstepFrame`). A record
  a peer sends makes it ask for a rollback exactly if it changes an undecided input recorded for a frame
  already stepped (`HostSessions.AskedExactly`). Two late records for a frame that has left the window do
  that, and then the snapshot is gone and the host starts a resync (`HostSessions.LateRecordsStall`).
- A generation or version is 32-bit: a handle that was given up resolves again exactly when its track or
  slot has been reissued a multiple of 2^32 times (`Tracks.StaleHandle`, `EmitterPool.StaleVid`; runs in
  which one does: `Tracks.StaleHandleRevives`, `EmitterPool.ReleasedRevives`). No two emitters ever share
  a track, in runs of any length, as long as fewer than 2^32 tracks are issued from the beginning of each
  frame to the end of the next (`Ownership.RunKeeps`); 2^32 - 1 other plays between two frames break it
  (`Ownership.SharedTrack`). One start puts two emitters on a track exactly if another emitter holds the
  handle the chosen track issued 2^32 - 1 issues ago (`Ownership.StartShares`).
- Adding sticky bombs to an owner of plain bombs with a free slot gives it both kinds, and no other call
  does (`ToolInventory.AdditionKeepsGood`, `ToolInventory.AfterGood`, `ToolInventory.BothBombs`).
- Looking up an animation by the hash of a name that does not exist may find another animation
  (`AnimationDb.LookupsAgree`): looking up "altarage" finds "zinke" (`NameCollision.LookupsDiffer`).
- `SetForcedFrame` accepts any frame index, and one past the end makes the next step of a running
  animation read out of bounds; nothing else does (`Animator.ControlKeeps`, `Animator.ForcedOutOfBounds`).
- A replay of records that are not in frame order skips some of them; `ReplayCursor.CursorTakes` says
  which, for every order, and `ReplayCursor.WrongOrderSkips` is the case of two.

## Model

| member | source | states |
|---|---|---|
| InputFrames.UnpackPack | src/network/input_lockstep.cpp:47-94 | unpacking a packed frame gives the frame back, all 19 buttons and the mouse |
| InputFrames.UnpackDigits | src/network/input_lockstep.cpp:71-94 | unpacking reads each button from its own bit, whatever the other bits are |
| InputFrames.InputFramesEqualIsEquality | src/network/input_lockstep.cpp:39-43 | the packed comparison the buffer uses is equality of whole frames |
| InputBuffer.LockstepInputBuffer.Store | src/network/input_lockstep.cpp:96-156 | one store, as the record-by-record loop with all its early returns: the new table and the reported insertion, replacement, change and mismatch |
| InputBuffer.LockstepInputBuffer.FindRecord | src/network/input_lockstep.cpp:173-183 | finds the record of a player and frame exactly when there is one |
| InputBuffer.LockstepInputBuffer.Find | src/network/input_lockstep.cpp:162-171 | the input of that record |
| InputBuffer.LockstepInputBuffer.FindLatestRecordBefore | src/network/input_lockstep.cpp:185-199 | the player's latest earlier record that is not a prediction; none is passed over |
| InputBuffer.LatestRepeats | src/network/net_lobby_input_lockstep.cpp:1952-1963 | a prediction is that record's input, or neutral if there is none, and nothing else |
| InputBuffer.LockstepInputBuffer.LatestFrameForPlayer | src/network/input_lockstep.cpp:201-218 | the player's highest recorded frame, with or without predictions |
| InputBuffer.LockstepInputBuffer.BuildFrameInputs | src/network/input_lockstep.cpp:233-249 | inputs in player order exactly when every required player has one |
| InputBuffer.LockstepInputBuffer.PredictedRecordCount | src/network/input_lockstep.cpp:327-335 | the number of predicted keys |
| InputBuffer.LockstepInputBuffer.ClearBefore | src/network/input_lockstep.cpp:364-375 | drops exactly the records before the frame |
| InputBuffer.MismatchIsAChangedInput | src/network/input_lockstep.cpp:96-156 | a mismatch is reported exactly when the stored input of an existing record changed; the insertion and replaced-prediction flags are exact too |
| InputBuffer.CanonicalStands | src/cli_state_smoke.cpp:1389-1501 | a canonical record the host did not guess is never overwritten by a non-canonical one |
| InputBuffer.CanonicalInputWins | src/network/input_lockstep.cpp:96-156 | after any sequence of stores, in any order and with duplicates, a key that got one canonical input holds it |
| WireRecords.EntryRoundTrip | src/network/net_lobby_input_lockstep.cpp:1552-1582 | a record sent as a wire entry comes back the same but for the predicted flag, which is not sent: the two flag bits and the button bits do not disturb each other |
| Rollback.RollbackRun.RunLatency | src/cli_state_smoke.cpp:3333-3517 | for any script, any tick function and any list of late, reordered or duplicated deliveries that covers every frame: no snapshot is ever missing; the predictions made are the frames whose input had not been brought by their own tick, the misses those guessed wrong, the late matches the rest, and the rollbacks the ticks that bring a wrongly guessed frame; after every tick t the game shows the fold of the inputs seen by then up to frame t + 1; and in the end the state is the no-latency run's with no predictions left |
| Rollback.RollbackRun.RunTick | src/cli_state_smoke.cpp:3400-3485 | one tick: afterwards every frame up to the tick is stepped, on what was brought by then and on guesses for the rest, and the counters say so |
| Rollback.GuessRepeats | src/cli_state_smoke.cpp:3297-3303 | a guess is the last input of player 2 that was brought by the frame's tick, or neutral if none was |
| Rollback.RollbackRun.ReplayPending | src/cli_state_smoke.cpp:3431-3463 | the requested snapshot is always there, and the replay comes back to the frame it left with the invariant restored |
| Rollback.RollbackRun.StepNext | src/cli_state_smoke.cpp:3465-3484 | one new frame is stepped when the local input is there, predicting the remote one if it is not |
| Rollback.RollbackRun.DeliverDue | src/cli_state_smoke.cpp:3409-3429 | takes the due deliveries in list order and keeps the invariant |
| Rollback.RollbackRun.DeliverOne | src/cli_state_smoke.cpp:3410-3428 | one delivery: the counters and the earliest pending rollback frame |
| Rollback.RollbackRun.BuildRollbackInputs | src/cli_state_smoke.cpp:3297-3331 | the inputs of both players, repeating player 2's last actual input as a prediction when its own is missing |
| Rollback.RollbackRun.StoreLocal | src/cli_state_smoke.cpp:3401-3407 | stores the local input of the tick |
| Rollback.StoreKeepsConsistent | src/cli_state_smoke.cpp:3409-3429 | any store keeps the invariant once its mismatch has become a request: up to the requested frame each snapshot is the fold of the inputs recorded now |
| Rollback.StepKeepsConsistent | src/cli_state_smoke.cpp:3465-3484 | saving the snapshot and stepping keeps the invariant |
| Rollback.DeliveryKeeps | src/cli_state_smoke.cpp:3409-3429 | a delivery keeps invariant and accounts: a miss at a stepped frame leaves a rollback pending |
| Rollback.PredictionKeeps | src/cli_state_smoke.cpp:3316-3324 | a prediction keeps the invariant and is accounted for |
| Rollback.RestoreKeeps | src/cli_state_smoke.cpp:3431-3442 | the snapshot of the pending frame exists and is the fold of the inputs before it |
| Rollback.SettledIsTruth | src/cli_state_smoke.cpp:3486-3512 | at rest with every input in, nothing is predicted, no rollback happened without a miss, and the state is the no-latency state |
| Rollback.SettledRunIsTruth | src/cli_state_smoke.cpp:3392-3398 | once both players' records are actual, folding the records is folding the script |
| Simulation.RunDependsOnPrefix | src/cli_state_smoke.cpp:3392-3398 | the state after n frames depends on the inputs of those frames only |
| Snapshots.FindRollbackSnapshot | src/cli_state_smoke.cpp:3266-3276 | the first snapshot saved for the frame |
| Snapshots.SaveRollbackSnapshot | src/cli_state_smoke.cpp:3278-3295 | replaces the frame's snapshot or appends one |
| Snapshots.FindSaved | src/cli_state_smoke.cpp:3266-3295 | what was saved last for a frame is what is found for it, and no other frame is affected |
| PeerSessions.PeerSession.PrepareInputLockstepFrame | src/network/net_lobby_input_lockstep.cpp:2886-2951 | goes on unchanged without a session, stands still while something holds the session up, and otherwise waits, asks for a resync (exactly if the request lies before the session or more than the window and 4 frames back), or steps (exactly if no remote player is too far behind and every own input is there); the new session is the replayed one with predictions and a new frame, with records and snapshots kept for exactly the windows; what has left the windows is not stepped again; and the past stays true if the frame that leaves is confirmed |
| PeerSessions.PeerSession.ReplayRollbackWindow | src/network/net_lobby_input_lockstep.cpp:2077-2156 | fails exactly when the request lies before the snapshot window; otherwise it is the replay of the recorded inputs up to where the peer was |
| PeerSessions.PeerSession.StepNew | src/network/net_lobby_input_lockstep.cpp:2926-2950 | predicts the remote inputs that are missing, steps exactly when every local one is there, and trims the windows |
| PeerSessions.PeerSession.BuildOrPredictFrameInputs | src/network/net_lobby_input_lockstep.cpp:2030-2075 | a peer's inputs for a frame: ready exactly when every local input is there, remote ones recorded or predicted by repeating the last actual input, complete frames untouched |
| PeerSessions.PeerSession.HandleInputFrameRecords | src/network/net_lobby_input_lockstep.cpp:2987-3027 | any records in any order and number leave the invariant, the canonical ones are stored in order and the others ignored; an honest host's records keep the peer faithful |
| PeerRollback.AsksExactly | src/network/net_lobby_input_lockstep.cpp:3005-3025 | a record makes a peer ask for a rollback exactly if it changes an input recorded for a stepped frame, and the earliest such frame is asked for |
| PeerSessions.PeerSession.RequestRollbackFromFrame | src/network/net_lobby_input_lockstep.cpp:1862-1871 | keeps the earliest request before the next frame |
| PeerSessions.PeerSession.CanStepWithoutRunningAhead | src/network/net_lobby_input_lockstep.cpp:1468-1502 | true exactly when every remote player's latest actual input is within delay and rollback window of the next frame |
| PeerRollback.CanStepSays | src/network/net_lobby_input_lockstep.cpp:1468-1502 | written out: every remote player has an actual input, and the next frame plus the delay is at most its latest one's frame plus the window |
| PeerSessions.PeerSession.PruneRollbackSnapshots | src/network/net_lobby_input_lockstep.cpp:1921-1941 | drops exactly the snapshots before the window |
| PeerSessions.PeerSession.ClearInputHistory | src/network/net_lobby_input_lockstep.cpp:2940-2948 | drops exactly the records before the input window |
| PeerSessions.PeerSession.StoreLocalInput | src/network/net_lobby_input_lockstep.cpp:1539-1545 | stores the peer's own input; the invariant stays for a frame not stepped yet, or one whose input does not change |
| PeerSessions.PeerSession.QueueLocalInputsThroughTargetFrame | src/network/net_lobby_input_lockstep.cpp:1528-1550 | queues the own inputs of every frame up to the input delay, one sequence number a frame; the invariant stays and nothing but the records changes (what they hold: `HostStream.QueuedFramesHold`) |
| HostStream.QueuedFramesAre | src/network/net_lobby_input_lockstep.cpp:1528-1550 | afterwards the own input of every frame up to the delay is there, no record is gone, no firm record has changed, and only own inputs are new |
| HostStream.QueuedFramesHold | src/network/net_lobby_input_lockstep.cpp:1528-1550 | every record that is new is actual and holds the input its player holds, with one sequence number a frame |
| PeerSessions.PeerSession.BuildLocalInputFramePackets | src/network/net_lobby_input_lockstep.cpp:1592-1646 | what a peer sends: the records of its own players for the 13 frames up to the end of its queue, in packets of 16 |
| PeerSessions.OwnRecordsCarry | src/network/net_lobby_input_lockstep.cpp:1608-1623 | these are the own inputs of those frames that are recorded, and nothing else |
| PeerRollback.PreparedWhen | src/network/net_lobby_input_lockstep.cpp:2886-2951 | waiting, resync and stepping happen exactly when they should |
| PeerRollback.PreparedKeeps | src/network/net_lobby_input_lockstep.cpp:2886-2951 | at rest again, the window's records kept, what has left the snapshot window not stepped again, and the past true if the frame that leaves is confirmed |
| PeerRollback.ReplayedKeeps | src/network/net_lobby_input_lockstep.cpp:2077-2156 | a replay comes back to where it was with the invariant restored and leaves alone what is before the snapshot window |
| PeerRollback.StepKeepsPastExactly | src/network/net_lobby_input_lockstep.cpp:2926-2950 | whatever the host may yet decide, a step leaves a true past behind exactly if the frame that leaves the input window is confirmed in the buffer |
| PeerRollback.Converged | src/network/net_lobby_input_lockstep.cpp:2077-2156 | with nothing requested, the window confirmed and the past true, the state is the fold of the host's inputs |
| PeerRollback.StoreKeeps | src/network/net_lobby_input_lockstep.cpp:3005-3025 | any store of the host's keeps the windowed invariant once its mismatch has become a request |
| PeerRollback.RestoreKeeps | src/network/net_lobby_input_lockstep.cpp:2090-2106 | restoring a requested snapshot inside the window gives a peer that replays consistently up to where it was |
| PeerRollback.StepKeeps | src/network/net_lobby_input_lockstep.cpp:2109-2128 | saving the snapshot and stepping a complete frame keeps the invariant |
| PeerRollback.PruneKeeps | src/network/net_lobby_input_lockstep.cpp:1921-1941 | pruning drops only what lies outside the window |
| PeerRollback.ClearKeeps | src/network/net_lobby_input_lockstep.cpp:2940-2948 | clearing drops only what lies outside the window |
| PeerRollback.SnapshotThere | src/network/net_lobby_input_lockstep.cpp:2090-2094 | the requested snapshot is there exactly when the request lies inside the snapshot window |
| InputBuffer.LockstepInputBuffer.CollectRecords | src/network/input_lockstep.cpp:251-274 | all the records of the players, frame by frame and in player order, as many as may be collected |
| InputBuffer.LockstepInputBuffer.CollectCanonicalRecords | src/network/input_lockstep.cpp:276-299 | the canonical ones among them |
| HostSessions.HostSession.PrepareInputLockstepFrame | src/network/net_lobby_input_lockstep.cpp:2886-2951 | the host waits, starts a resync exactly if a request has lost its snapshot, and steps exactly when every player's input is there; a frame it steps is decided to be exactly the inputs that were recorded for it, nothing that was decided before is decided again, and after any call its state is the fold of what it decided |
| HostSessions.HostSession.StoreHostCanonicalInput | src/network/net_lobby_input_lockstep.cpp:1965-1989 | the input becomes canonical with the next sequence number and nothing else changes |
| HostSessions.HostSession.HandleInputFrameRecords | src/network/net_lobby_input_lockstep.cpp:2987-3027 | whatever peers send, canonical records are skipped, the others stored in order with the request each makes, and no decision changes |
| HostSessions.HeardLast | src/network/net_lobby_input_lockstep.cpp:3005-3025 | what is then recorded for a key that had no record is the peers' last word for it: the record of the latest sequence, and of those the last to come; and there is a record exactly if one came |
| HostSessions.DecidesHeard | src/network/net_lobby_input_lockstep.cpp:2030-2075 | so the input the host decides for a player it knew nothing of is that last word |
| HostSessions.AskedExactly | src/network/net_lobby_input_lockstep.cpp:3021-3025 | a record makes the host ask for a rollback, or an earlier one, exactly if it changes an undecided input recorded for a stepped frame; for a player of the session such a frame has left the input window |
| HostSessions.LateRecordsStall | src/network/net_lobby_input_lockstep.cpp:2077-2106 | two late records for a frame that has left the window leave a request whose snapshot is gone |
| HostSessions.ReplayIdle | src/network/net_lobby_input_lockstep.cpp:2077-2156 | where the snapshot is there, the host's replay changes neither its inputs nor its state |
| HostSessions.HearsRight | src/network/net_lobby_input_lockstep.cpp:3005-3025 | any record of a peer leaves the host's state the fold of what it decided |
| HostSessions.HostSession.BuildLocalInputFramePackets | src/network/net_lobby_input_lockstep.cpp:1592-1607 | what the host sends is the burst of its last frame, cut into packets of 16 records |
| HostSessions.CollectedIsBurst | src/network/net_lobby_input_lockstep.cpp:1584-1607 | asking the buffer for 13 frames gives the burst, also when it has kept only 12 |
| HostSessions.BurstStands | src/network/net_lobby_input_lockstep.cpp:1965-1989 | later decisions do not change what an earlier burst was |
| HostStream.BurstCarries | src/network/net_lobby_input_lockstep.cpp:1592-1607 | a burst has every player's input for each of its frames and no other record |
| HostStream.PrepareStreams | src/network/net_lobby_input_lockstep.cpp:2886-2951 | when every frame of the window below the last one heard is confirmed, a frame is prepared without a resync and that stays so |
| HostStream.SafeRun | src/network/net_lobby_input_lockstep.cpp:2886-3027 | with a rollback window of at most 12 frames, from any first frame and over every run in which bursts are lost, late or doubled in any way: no resync is asked for, what has left the window was stepped on the host's inputs, and a peer with its window confirmed and nothing requested is in the host's state |
| HostStream.CatchesUp | src/network/net_lobby_input_lockstep.cpp:2886-3027 | in such a run one burst with the peer's last frame is enough: the replay it asks for ends on the host's state |
| HostStream.NeverRepaired | src/network/net_lobby_input_lockstep.cpp:2077-2156 | in any run, a frame that left the snapshot window on another input than the host's is never repaired |
| HostStream.NeverStarts | src/network/net_lobby_input_lockstep.cpp:1468-1502 | with an input delay beyond the window plus the smaller of window and first frame, or without a frame the host needs for the peer's first step, the peer never takes it in any run, torn bursts included |
| HostStream.UnfedRun | src/network/net_lobby_input_lockstep.cpp:2043-2048 | a host that lacks a frame from before the peer's first burst never decides it; the peer then stays within the window of its first frame, asks for no resync and is right at rest, whatever is lost |
| HostStream.ResumesWithin | src/network/net_lobby_join.cpp:489-491 | what the host may hold of a peer's inputs when a session is resumed in its turn is what a session may begin with |
| LostFrames.LostBursts | src/network/net_lobby_input_lockstep.cpp:1584-1607 | for every other window, delay, first frame, set of players and stock of the host's, a run that only loses whole bursts and ends at rest, all confirmed, nothing requested, and not in the host's state |
| LostFrames.SafeExactly | src/network/net_lobby_input_lockstep.cpp:2886-3027 | with bursts lost whole in both directions, a peer at rest with its window confirmed is right in every run exactly if the window is at most 12 frames, the session never starts, or the host lacks a frame from before the peer's first burst |
| LostFrames.SafeAtRest | src/network/net_lobby_input_lockstep.cpp:2886-3027 | the safe direction for any tick, and without a resync |
| LostFrames.StartsExactly | src/network/net_lobby_input_lockstep.cpp:1468-1502 | some run takes a first step exactly if the delay is at most the window plus the smaller of window and first frame, and the host has or gets every frame that step needs |
| LostFrames.FreshFed | src/network/net_lobby_input_lockstep.cpp:1528-1550 | a host that holds nothing of the peer gets every frame it needs exactly if the delay is at most 12 frames |
| LostFrames.ResumedLoses | src/network/net_lobby_input_lockstep.cpp:2660-2667 | a session resumed at frame 1000 with window 20 and delay 30, by a host that holds the peer's inputs up to its first burst, that starts and loses a frame |
| TornBursts.PacketCarries | src/network/net_lobby_input_lockstep.cpp:1627-1645 | a packet of a two-player burst has both players' records of its eight frames and no others |
| TornBursts.TornSafeRun | src/network/net_lobby_input_lockstep.cpp:2886-3027 | with two players and settings that leave no gap, every run is right whatever packets are lost, late or doubled |
| TornBursts.LostPackets | src/network/net_lobby_input_lockstep.cpp:1627-1645 | with two players, for every other window, delay and first frame with which the peer starts and the host is not without a frame, a run that loses packets of bursts and ends wrong for good |
| TornBursts.TornExactly | src/network/net_lobby_input_lockstep.cpp:2886-3027 | so with two players and packets lost singly a peer is right in every run exactly if its settings leave no gap, it never starts, or the host lacks a frame from before its first burst |
| OwnBursts.SendsOwnBurst | src/network/net_lobby_input_lockstep.cpp:1608-1623 | in every run, what a peer sends after queueing are its inputs for the 13 frames up to the end of its queue, from its first frame on |
| OwnBursts.SendsInputs | src/network/net_lobby_input_lockstep.cpp:1608-1623 | and in every run without a resync each of those records holds what its player held when the frame was queued, unless the host's decision has come, and then that |
| OwnBursts.NeverCutOff | src/network/net_lobby_input_lockstep.cpp:1608-1623 | if at most 12 frames may go unheard from one step to the next, the peer's latest burst brings everything queued that the host lacks, whatever was lost before |
| OwnBursts.CutOffForGood | src/network/net_lobby_input_lockstep.cpp:2043-2048 | a host that lacks a frame from before the latest burst never decides it, unless a burst sent before comes late |
| OwnBursts.CutsOff | src/network/net_lobby_input_lockstep.cpp:1608-1623 | with a longer window or delay, a run of lost bursts after which the host lacks such a frame |
| OwnBursts.FeedsExactly | src/network/net_lobby_input_lockstep.cpp:1608-1623 | a host that begins with nothing of the peer is never cut off by lost bursts exactly if window and delay are at most 12 frames |
| OwnBursts.OneExchange | src/network/net_lobby_input_lockstep.cpp:2886-3027 | with a window of at most 12 frames, from any state of any run one burst in each direction lets the peer step and puts it exactly into the host's state |
| FakeNetwork.DeliverySorts | src/cli_state_smoke.cpp:1033-1043 | delivery is a sorted rearrangement of what was due |
| FakeNetwork.DeliveredInTurn | src/cli_state_smoke.cpp:1033-1043 | what is delivered first was due first, or was due in the same tick and sent first |
| FakeNetwork.FakeLockstepNetwork.Send | src/cli_state_smoke.cpp:993-1010 | one send: lost, delayed, duplicated; packets sent and duplicated equal dropped, received and in flight |
| FakeNetwork.FakeLockstepNetwork.ReceiveForPeer | src/cli_state_smoke.cpp:1012-1051 | everything due for the peer leaves the network, in order of due tick and sending, and nothing else does |
| FakeNetwork.PickedPartition | src/cli_state_smoke.cpp:1016-1031 | due and not due divide the packets in flight |
| Lockstep.LockstepCase.RunCase | src/cli_state_smoke.cpp:4404-4548 | whatever the network and the pump schedules do, the peers never record different hashes for a frame, and each peer is exactly as far as its own inputs and those that had arrived for one of its turns go; the case finishes at exactly the first tick after which that is every frame for both, with equal histories, and times out exactly if there is none |
| Lockstep.ReachingCompletes | src/cli_state_smoke.cpp:4404-4548 | there is one if each peer's complete inputs get through once to a later turn of the other |
| Lockstep.LockstepCase.Pump0 | src/cli_state_smoke.cpp:4456-4477 | the turn of peer 0 in a tick, or its absence: it then has its inputs so far and all that has arrived |
| Lockstep.LockstepCase.Pump1 | src/cli_state_smoke.cpp:4478-4501 | the turn of peer 1, which comes after and may already receive what peer 0 sent in this tick |
| Lockstep.LockstepCase.CompareHashes | src/cli_state_smoke.cpp:4503-4518 | the hashes both peers have are always equal |
| Lockstep.FakeLockstepPeer.BuildInputPacket | src/cli_state_smoke.cpp:1116-1139 | the packet holds every frame of every owned player up to the latest, and no other; the buffer holds them too and nothing else is new |
| Lockstep.FakeLockstepPeer.StepReadyFrames | src/cli_state_smoke.cpp:1350-1387 | steps every ready frame in order up to the first that misses an input, because clearing old records never removes one still needed |
| Lockstep.TakeTurn | src/cli_state_smoke.cpp:4456-4501 | one turn of a peer: it has all its inputs so far and what has arrived, is as far as both go and no further, its inputs are on their way exactly as the network decides, and only what was due for it is gone |
| Lockstep.Absorb | src/cli_state_smoke.cpp:4460-4477 | storing what arrived and stepping what is ready: as far as the inputs of both players go, and no further |
| Lockstep.SendInputs | src/cli_state_smoke.cpp:4456-4459 | what a turn puts into the network |
| Lockstep.TakeArrivals | src/cli_state_smoke.cpp:4460-4465 | what a turn takes out of the network |
| Lockstep.StepAgrees | src/cli_state_smoke.cpp:1350-1387 | stepping on honest inputs keeps state and hash history equal to the folded script |
| Lockstep.StoreHonest | src/cli_state_smoke.cpp:4462-4464 | storing script records only ever adds keys |
| FixedPoint.FxLength | src/fxp.hpp:52-61 | for every pair, the floor of the Euclidean length, or the largest raw value if that is bigger |
| FixedPoint.SqrtFloor | src/fxp.hpp:32-48 | the exact floor of the square root of every 64-bit value, with termination and no overflow |
| FixedPoint.ExtractDigit | src/fxp.hpp:38-46 | trying one binary digit of the root is exact |
| FixedPoint.RootUnique | src/fxp.hpp:32-48 | there is one floor of the root, so the contract determines the result |
| FixedPoint.RawSquares | src/fxp.hpp:53-55 | the sum of squares fits 64 signed bits for every raw pair except the two minimum values |
| Animator.StepCountsDown | src/aframe_animator.cpp:289-316 | one call of Step takes exactly one off the steps that remain, and the last finishes |
| Animator.FinishesExactly | src/aframe_animator.cpp:289-316 | playback is finished after exactly the remaining number of steps and not before |
| Animator.PlayLength | src/aframe_animator.cpp:246-287 | a fresh play of N passes takes N times the sum of the frames' rounded-up steps, twice that for ping-pong over more than one frame |
| Animator.FinishedStays | src/aframe_animator.cpp:289-292 | after that no step changes anything |
| Animator.LoopRepeats | src/aframe_animator.cpp:58-87 | a looping animation is back at its start exactly when its pass is over, and never finishes |
| Animator.ForcedFrameAfterFinish | src/aframe_animator.cpp:220-226 | forcing a frame of a finished animation plays out one pass and finishes again, exactly unless the play count is the largest, when the counter wraps |
| Animator.ForwardCounts | src/aframe_animator.cpp:89-113 | a forward step uses up one step of the pass |
| Animator.ReverseCounts | src/aframe_animator.cpp:115-134 | a reverse step uses up one step of the pass |
| Animator.ModeStepCounts | src/aframe_animator.cpp:136-191 | so does a step in every mode, ping-pong included |
| Animator.AFrameAnimator.Step | src/aframe_animator.cpp:289-316 | one step of the object: idle cases, lazy initialisation, then the mode's step (what is shown after any number of steps: `Animator.FrameShown`) |
| Animator.FrameShown | src/aframe_animator.cpp:58-191 | which frame a play shows after k steps, in every mode: the frame i with k between the steps to i and to i + 1, counted from the end in reverse and on the way back; and when it is over, the last frame for a forward play and the first otherwise |
| Animator.ShownAfter | src/aframe_animator.cpp:58-191 | the same from the middle of a pass, with the time spent on the frame |
| Animator.ForcedShows | src/aframe_animator.cpp:220-226 | a forced frame is shown from its beginning |
| Animator.AFrameAnimator.StepForward | src/aframe_animator.cpp:89-113 | the forward step on the object |
| Animator.AFrameAnimator.StepReverse | src/aframe_animator.cpp:115-134 | the reverse step on the object |
| Animator.AFrameAnimator.StepPingPong | src/aframe_animator.cpp:136-191 | the ping-pong step on the object, with its own copies of the branches |
| Animator.AFrameAnimator.FinishOrRestart | src/aframe_animator.cpp:67-87 | the end of a pass: loop, play again, or finish and hold the frame it ended on |
| Animator.AFrameAnimator.InitializePlayback | src/aframe_animator.cpp:24-56 | the start of a pass in each mode |
| Animator.AFrameAnimator.RestartPlayback | src/aframe_animator.cpp:58-65 | a restart is a fresh start |
| Animator.AFrameAnimator.PlayNTimes | src/aframe_animator.cpp:281-287 | a play of N passes is finished after exactly its length in steps, for every number of steps |
| Animator.AFrameAnimator.Play | src/aframe_animator.cpp:246-260 | everything a play sets |
| Animator.AFrameAnimator.SetAnim | src/aframe_animator.cpp:209-218 | a new animation restarts, the same one changes nothing |
| Animator.AFrameAnimator.SetForcedFrame | src/aframe_animator.cpp:220-226 | a forced frame keeps the plays completed |
| Animator.AFrameAnimator.SetPlaybackMode | src/aframe_animator.cpp:236-239 | a new mode restarts |
| Animator.AFrameAnimator.SetPlayCount | src/aframe_animator.cpp:241-244 | a play count of at least one, and a restart |
| Animator.AFrameAnimator.SetSpeed | src/aframe_animator.cpp:228-230 | the raw speed is the clamped value rounded to the nearest 4096th, between 41 and 40960 |
| Animator.ControlKeeps | src/aframe_animator.cpp:209-316 | every control and every step leaves the frame index in range, except exactly a frame forced beyond the animation |
| Animator.RunInFrame | src/aframe_animator.cpp:209-316 | so no run in which forced frames are frames of their animations reads out of bounds |
| Animator.ForcedOutOfBounds | src/aframe_animator.cpp:220-226 | forcing a frame makes the next step read out of bounds exactly if a running animation has no such frame |
| AudioFilter.TowardStays | src/audio_filter.cpp:15-47 | a smoothing step stays between where it is and where it goes |
| AudioFilter.OnePoleAlpha | src/audio_filter.cpp:15-21 | the filter coefficient lies strictly between 0 and 1 |
| AudioFilter.FoldSplit | src/audio_filter.cpp:56-120 | folding any frame processor over a concatenation is folding it over the parts, when the first is whole frames |
| AudioFilter.LowPassBounded | src/audio_filter.cpp:130-176 | the low pass never amplifies |
| AudioFilter.GainProcessor.ProcessBlock | src/audio_filter.cpp:96-120 | the gain loop is the fold of its frame step |
| AudioFilter.GainNears | src/audio_filter.cpp:96-120 | the gain nears its target geometrically: what is missing shrinks by one factor a frame |
| AudioFilter.GainOverBlock | src/audio_filter.cpp:96-120 | each sample of a block is scaled by the gain of its frame, one smoothing step for every frame up to it |
| AudioFilter.StereoPanProcessor.ProcessBlock | src/audio_filter.cpp:56-88 | the pan loop is the fold of its frame step |
| AudioFilter.PannedIs | src/audio_filter.cpp:56-88 | the first two channels have a gain each, a single one has their mean, and any more are left alone |
| AudioFilter.LowPassProcessor.ProcessBlock | src/audio_filter.cpp:130-176 | the low-pass loop is the fold of its frame step |
| AudioFilter.LowPassIs | src/audio_filter.cpp:130-176 | one frame: the first two channels near their input from the memory, or start from it after a reset, and are mixed with it; the others are left alone |
| AudioFilter.GainProcessor.Reset | src/audio_filter.cpp:90-94 | reset to a clamped gain |
| AudioFilter.StereoPanProcessor.Reset | src/audio_filter.cpp:49-54 | reset to clamped gains |
| AudioFilter.LowPassProcessor.Reset | src/audio_filter.cpp:122-128 | reset to clamped parameters and silent memory |
| Reverb.DelayReverbProcessor.ProcessBlock | src/audio_filter.cpp:196-272 | the reverb loop, ring and all, is the fold of its frame step |
| Reverb.StepEchoes | src/audio_filter.cpp:235-271 | one frame: the parameters near their targets, what was written the delay ago passes the low pass, the mean of the frame plus what comes back is written, and the echo is mixed into every channel |
| Reverb.EchoReturns | src/audio_filter.cpp:235-271 | an impulse comes back through the low pass after exactly the delay, and not before |
| Reverb.DesiredIs | src/audio_filter.cpp:225-230 | what a block wants of the parameters: in their ranges, and no echo when it is off |
| Reverb.MonoIs | src/audio_filter.cpp:248-252 | the mean of a frame lies between its samples and is their sum over their number |
| Reverb.DelayReverbProcessor.Reset | src/audio_filter.cpp:178-194 | reset clears the ring |
| Reverb.AlwaysStable | src/audio_filter.cpp:178-272 | with every dry sample within m, ring and memory stay within 20 m over any sequence of resets and blocks with any targets |
| Reverb.StepStable | src/audio_filter.cpp:235-271 | one frame keeps that bound |
| Reverb.ReadsTheDelay | src/audio_filter.cpp:241-255 | the ring read is the sample written exactly the delay ago, silence if there was none since the reset |
| Reverb.BlockSplits | src/audio_filter.cpp:196-272 | one block over a concatenation is two blocks, when the first is whole frames |
| Reverb.ResetSilencesLine | src/audio_filter.cpp:178-194 | after a reset the line is empty |
| Reverb.AlwaysLine | src/audio_filter.cpp:178-272 | over any run of resets and blocks, at whatever sample rates, the ring holds exactly what was written since the last reset or new ring, and the delay stays in its range |
| Reverb.ReadsWholeDelay | src/audio_filter.cpp:212-255 | so in any reachable state a frame reads what was written its rounded delay ago, never a shortened one |
| Tracks.StealsOnlyWhenFull | src/audio_sound_effects.cpp:168-189 | a busy track is taken exactly when every track is busy, and then it is the one at the cursor |
| Tracks.ChosenIsNearest | src/audio_sound_effects.cpp:168-183 | otherwise the nearest idle track from the cursor is taken |
| Tracks.CursorMoves | src/audio_sound_effects.cpp:167-187 | a request that finds its sound moves the cursor just past the chosen track, whatever the mixer answers, and any other moves nothing |
| Tracks.StolenInTurn | src/audio_sound_effects.cpp:168-187 | so when every track is busy they are stolen in turn |
| Tracks.PlayedStaysValid | src/audio_sound_effects.cpp:155-220 | a request keeps the ring, and gives a handle that resolves exactly when it plays |
| Tracks.PlayedElsewhere | src/audio_sound_effects.cpp:155-220 | a request touches the chosen track only |
| Tracks.ReissueInvalidates | src/audio_sound_effects.cpp:195-218 | a handle to a track that is reissued stops resolving, even if the new play fails |
| Tracks.GenerationCounts | src/audio_sound_effects.cpp:196-197 | over any run a generation counts the issues of its track modulo 2^32 |
| Tracks.StaleHandle | src/audio_sound_effects.cpp:288-306 | a handle resolves at the end of a run exactly if its track is active and playing and was reissued a multiple of 2^32 times |
| Tracks.StaleHandleRevives | src/audio_sound_effects.cpp:288-306 | a run of 2^32 plays on a lone track in which an old handle resolves again |
| Tracks.Audio.PlayAudioAssetInstance | src/audio_sound_effects.cpp:155-220 | one request: track, cursor, generation and handle for every answer of the mixer |
| Tracks.Audio.ChooseTrack | src/audio_sound_effects.cpp:167-189 | the scan for a track and the move of the cursor |
| Tracks.Audio.IsAudioInstancePlaying | src/audio_sound_effects.cpp:254-306 | true exactly when the handle resolves |
| Tracks.Audio.StopAudioInstance | src/audio_sound_effects.cpp:243-252 | stops the track of a handle that resolves |
| Tracks.Audio.OnAudioInstanceTrackStopped | src/audio_sound_effects.cpp:308-318 | after the callback no handle to the track resolves |
| EmitterPool.AcquiredIsValid | src/audio_emitters.cpp:140-158 | issuing keeps the pool: free list without repeats, exactly the inactive ids, inactive slots blank |
| EmitterPool.DeactivatedIsValid | src/audio_emitters.cpp:21-31 | so does deactivating |
| EmitterPool.ClearedIsValid | src/audio_emitters.cpp:194-203 | and clearing |
| EmitterPool.FreePlusActive | src/audio_emitters.cpp:21-31 | free ids and active slots add up to 256 |
| EmitterPool.FirstInFirstOut | src/audio_emitters.cpp:140-166 | over any run without clearing, ids issued then ids still free are ids free at the start then ids given back, in order |
| EmitterPool.ReissuedLast | src/audio_emitters.cpp:140-166 | a released id is issued again only after every id that was free before it |
| EmitterPool.VersionCounts | src/audio_emitters.cpp:149 | a version counts the issues of its slot modulo 2^32, clearing included |
| EmitterPool.StaleVid | src/audio_emitters.cpp:168-192 | a handle resolves exactly if its slot is active and was reissued a multiple of 2^32 times |
| EmitterPool.ReleasedIsDead | src/audio_emitters.cpp:160-192 | a released handle never resolves again within 2^32 issues of its slot |
| EmitterPool.AudioEmitterManager.New | src/audio_emitters.cpp:126-138 | 256 inactive slots, to be issued from 0 up |
| EmitterPool.AudioEmitterManager.NewEmitter | src/audio_emitters.cpp:140-158 | issues the next free id with a new version, or nothing when the pool is full |
| EmitterPool.AudioEmitterManager.GetEmitterMut | src/audio_emitters.cpp:168-179 | the slot of a handle exactly if it resolves |
| EmitterPool.AudioEmitterManager.DeactivateEmitter | src/audio_emitters.cpp:21-31 | deactivates a slot once and puts its id at the back of the queue |
| EmitterPool.AudioEmitterManager.SetInactiveVid | src/audio_emitters.cpp:160-166 | releases a handle that resolves |
| EmitterPool.AudioEmitterManager.ClearAll | src/audio_emitters.cpp:194-203 | no active slot is left |
| Emitters.TurnFate | src/audio_emitters.cpp:435-479 | what a turn may make of its emitter, whatever else becomes of the tracks |
| Emitters.TurnDecides | src/audio_emitters.cpp:33-122 | an active emitter is reaped exactly if it lost its owner or target under StopImmediately, or under FinishCurrentPlay while looping, or if it is a one-shot that was started and whose sound is over; otherwise a sound that goes on is kept, and one that was not started or is over is started exactly if there is a track and the mixer plays, with a handle that resolves; and it sits at its target, or where it was when it lost it |
| Emitters.FrameDecides | src/audio_emitters.cpp:432-480 | in a frame each emitter becomes what its own turn decides, on the tracks as they then are |
| Emitters.FrameFate | src/audio_emitters.cpp:432-480 | in every frame: what was not started is started exactly if the mixer plays, a started one-shot is never started again, nothing is reaped but for a lost target or a sound that is over, and survivors are detached or at their target |
| Emitters.CreatedIs | src/audio_emitters.cpp:243-301 | what is created: the next free slot, active, not started, as asked, and no other slot changes |
| Emitters.EnsuredIs | src/audio_emitters.cpp:345-384 | what is ensured: the first loop of the owner follows the target as asked, or a new one does |
| Emitters.EnsuredTwice | src/audio_emitters.cpp:345-384 | ensuring a loop twice neither makes a second one nor changes the first |
| Emitters.EnsuredFinds | src/audio_emitters.cpp:345-384 | after ensuring, the loop found for the owner is the one refreshed or made |
| EmitterSystem.SoundSystem.HandleMissingTarget | src/audio_emitters.cpp:33-58 | which emitters survive a missing owner or target, and how they are detached, written out on the fields |
| EmitterSystem.SoundSystem.ResolveEmitterWorldPos | src/audio_emitters.cpp:60-81 | owner first, then target, then position |
| EmitterSystem.SoundSystem.StartEmitterInstance | src/audio_emitters.cpp:112-122 | starts a track for an emitter and records the handle |
| EmitterSystem.SoundSystem.FindOwnedSoundEmitter | src/audio_emitters.cpp:221-238 | the first active emitter of an owner, sound and mode |
| EmitterSystem.SoundSystem.PlayWorldSoundEmitter | src/audio_emitters.cpp:243-267 | an emitter at a point, or none when the pool is full |
| EmitterSystem.SoundSystem.PlayAttachedSoundEmitter | src/audio_emitters.cpp:271-301 | an emitter on an entity, owned by it unless told otherwise |
| EmitterSystem.SoundSystem.EnsureAttachedLoopingSoundEmitter | src/audio_emitters.cpp:345-384 | finds or makes the loop and returns a handle that resolves |
| EmitterSystem.SoundSystem.StopSoundEmitter | src/audio_emitters.cpp:387-398 | stops the track and frees the slot of a handle that resolves |
| EmitterSystem.SoundSystem.StopOwnedSoundEmitter | src/audio_emitters.cpp:401-414 | stops the owned emitter, if there is one |
| EmitterPool.ReleasedRevives | src/audio_emitters.cpp:140-192 | a run of 2^32 reissues, in a full pool, in which a released handle resolves again |
| Ownership.Exclusive | src/audio_sound_effects.cpp:288-306 | no two emitters hold handles that resolve to one track |
| Ownership.TurnOwns | src/audio_emitters.cpp:435-479 | one emitter's turn keeps the ownership of the tracks, whatever the mixer does meanwhile, and leaves that emitter with a handle as old as the turn |
| Ownership.FrameOwns | src/audio_emitters.cpp:432-480 | so after a whole frame no held handle is older than the frame, however old they were |
| Ownership.ActedOwns | src/audio_emitters.cpp:194-480 | creating, ensuring, updating, stopping, clearing, other sounds and track endings all keep the ownership |
| Ownership.RunKeeps | src/audio_emitters.cpp:194-480 | over runs of any length no two emitters resolve to one track and the pool stays right, as long as fewer than 2^32 tracks are issued from the beginning of each frame to the end of the next |
| Ownership.FewPlaysPace | src/audio_emitters.cpp:432-480 | fewer than 2^32 - 512 other plays between two frames are few enough |
| Ownership.SharedTrack | src/audio_emitters.cpp:432-480 | a run from silence with 2^32 - 1 other plays between two frames after which two emitters share a track |
| Ownership.StartShares | src/audio_emitters.cpp:112-122 | one start puts two emitters on one track exactly if another emitter holds the handle the chosen track issued 2^32 - 1 issues ago, and it is that emitter which comes to share |
| EmitterSystem.SoundSystem.UpdateAudioEmitters | src/audio_emitters.cpp:432-480 | the frame loop on the objects, with the ownership kept, every emitter's fate, and of each turn which emitters are reaped and which are started |
| EmitterSystem.SoundSystem.StopAllSoundEmitters | src/audio_emitters.cpp:417-428 | the emitters that were active are stopped one by one; no emitter is active and no handle one held resolves |
| Emitters.StoppedStand | src/audio_emitters.cpp:417-428 | stopping the listed emitters leaves none active and silences every handle one held |
| Fnv.Step32Bijective | src/aframe_id.hpp:15-22 | a step of the 32-bit hash is a bijection of the state (FNV-1a, section 2 of draft-eastlake-fnv) |
| Fnv.Step64Bijective | src/content_compat.cpp:18-24 | a step of the 64-bit hash is a bijection of the state |
| Fnv.FoldInjective | src/aframe_id.hpp:15-22 | hashing the same bytes keeps different states different |
| Fnv.OneByteApart | src/aframe_id.hpp:15-22 | strings that may differ in one byte hash alike exactly when that byte is the same |
| Fnv.OneByteNeverCollides | src/content_compat.cpp:18-24 | for both hashes, equal-length strings that differ in one byte never collide |
| Fnv.HashAFrameId | src/aframe_id.hpp:15-26 | the name hash loop is the fold of its step |
| ContentHash.StreamInjective | src/content_compat.cpp:65-87 | the bytes fed to the hash determine the list of paths and contents |
| ContentHash.LittleEndianInjective | src/content_compat.cpp:26-30 | eight little-endian bytes determine a 64-bit number |
| ContentHash.FieldPrefix | src/content_compat.cpp:32-50 | a length-prefixed field can be read off the front of a stream |
| ContentHash.EditChangesHash | src/content_compat.cpp:39-87 | changing one byte of one file always changes the content hash |
| ContentHash.ComputeGameplayContentHash | src/content_compat.cpp:54-88 | the hash of the sorted stream, or failure exactly when the root is missing or a file does not open |
| ContentHash.HashByte | src/content_compat.cpp:21-24 | one step of the hash |
| ContentHash.HashU64 | src/content_compat.cpp:26-30 | hashes the eight little-endian bytes |
| ContentHash.HashField | src/content_compat.cpp:32-37 | hashes a length-prefixed field |
| ByteStrings.LessTotal | src/content_compat.cpp:76-79 | the byte-wise order of strings is total and strict |
| ByteStrings.LessAtDifference | src/content_compat.cpp:76-79 | the first byte in which two strings differ decides, and a prefix comes first |
| ContentHash.OrderIrrelevant | src/content_compat.cpp:65-87 | directory entries in any order give the same content hash |
| Sorting.SortSorts | src/content_compat.cpp:76-79 | sorting by a strict weak order gives an ordered rearrangement |
| Sorting.OrderUnique | src/content_compat.cpp:76-79 | in a total order a collection, repeats included, has one order |
| ByteStrings.BytesInOrder | src/content_compat.cpp:76-79 | the order of the paths is total |
| AnimationDb.FromRaw | src/aframe.cpp:98-180 | succeeds exactly when every raw frame is valid, no name repeats a frame number or mixes tile flags, and no two names share a hash; the result is the database of those frames |
| AnimationDb.FrameSays | src/aframe.cpp:48-117 | each frame of the database: path, name, number and flag of its raw frame, its image, a duration of at least one, and the default boxes |
| AnimationDb.AnimSays | src/aframe.cpp:136-168 | two places of one animation: frames of its name, in rising number |
| AnimationDb.Determined | src/aframe.cpp:98-180 | there is one such database, whatever the iteration order of the hash maps or the stability of the sort |
| AnimationDb.Partition | src/aframe.cpp:136-177 | each frame is in exactly one animation, at one place |
| AnimationDb.NeighboursSuffice | src/aframe.cpp:142-163 | checking neighbours in frame order is checking every pair |
| AnimationDb.InternedOnce | src/aframe.cpp:100-116 | the image paths are the paths of the frames, each once |
| AnimationDb.ConvertAll | src/aframe.cpp:98-117 | converts every frame and interns its path, or fails on an invalid one |
| AnimationDb.ToFrame | src/aframe.cpp:48-94 | checks and converts one raw frame, with the default duration and boxes |
| AnimationDb.GroupByName | src/aframe.cpp:119-124 | the frames of each name |
| AnimationDb.BuildAnim | src/aframe.cpp:136-168 | one animation in strict frame order, or failure |
| AnimationDb.BuildAll | src/aframe.cpp:132-178 | all animations in name order with both indexes, or failure |
| AnimationDb.FindAnim | src/aframe.cpp:182-188 | lookup by name agrees with a linear scan |
| AnimationDb.FindAnimById | src/aframe.cpp:190-196 | lookup by hashed name agrees with a linear scan |
| AnimationDb.LookupsAgree | src/aframe.cpp:182-196 | looking up a name and looking up its hash agree exactly when the name exists or its hash is nobody's |
| AnimationDb.FindFrame | src/aframe.cpp:198-204 | the n-th frame: the one with n frames of its name before it |
| NameCollision.LookupsDiffer | src/aframe.cpp:182-196 | a right database of one animation in which looking up a missing name by its hash finds that animation |
| NameCollision.OneId | src/aframe_id.hpp:15-26 | two names with one 32-bit hash |
| Effects.TimersOverRuns | src/effects.cpp:195-215 | after k steps exactly the permanent effects and those with more than k frames are left, in order, k frames on |
| Effects.RunSound | src/effects.cpp:144-215 | over every run of adds, removes and steps the ids stay distinct and there are at most twelve |
| Effects.NeverFull | src/effects.cpp:144-173 | there are as many slots as effects, so an entity without an effect always has room for it |
| Effects.AddThenRemove | src/effects.cpp:144-185 | removing what was just added gives the list back |
| Effects.WithoutSound | src/effects.cpp:12-24 | removing keeps the rest and the effect is gone |
| Effects.Ent.AddEffect | src/effects.cpp:144-173 | adds or tops up, and fails exactly for the two ids that are no effects |
| Effects.AdditionsSum | src/effects.cpp:144-173 | however effects are added, each holds the sum of what was added to it and the last timer it was given |
| Effects.Ent.RemoveEffectAt | src/effects.cpp:12-24 | shifts the rest down, clears the last slot, drops an empty box |
| Effects.Ent.RemoveEffect | src/effects.cpp:175-185 | removes the effect of the id |
| Effects.Ent.SetEffect | src/effects.cpp:187-193 | adds or removes |
| Effects.Ent.FindEffect | src/effects.cpp:116-142 | finds the effect of the id exactly when there is one |
| Effects.Ent.StepEffectTimers | src/effects.cpp:195-215 | one step of every timer, removing while it goes over the slots; box and default slots stay right |
| ToolInventory.AdditionKeepsGood | src/ent_tool_inventory.cpp:64-138 | an addition keeps an owner's kinds distinct and its bombs of one kind, exactly unless it adds sticky bombs to an owner of plain ones with a free slot |
| ToolInventory.BothBombs | src/ent_tool_inventory.cpp:64-138 | a case of that exception |
| ToolInventory.RaiseIsCapped | src/ent_tool_inventory.cpp:130-136 | a count rises by the amount up to 65535, exactly unless the 32-bit sum wraps |
| ToolInventory.OnlyTargetChanges | src/ent_tool_inventory.cpp:80-136 | only the chosen slot changes, and it holds the kind and the raised count |
| ToolInventory.TargetIs | src/ent_tool_inventory.cpp:80-124 | which slot is chosen, and when there is none |
| ToolInventory.NewKindGoes | src/ent_tool_inventory.cpp:99-120 | a new kind of bomb goes to the first slot and ropes to the second, if free, and else to the first that is |
| ToolInventory.UpgradeKeepsGood | src/ent_tool_inventory.cpp:140-181 | an upgrade keeps every count and leaves no plain bombs |
| ToolInventory.BombsStayUpgraded | src/ent_tool_inventory.cpp:80-88 | plain bombs picked up later become sticky |
| ToolInventory.AfterGood | src/ent_tool_inventory.cpp:7-181 | every call but that exception keeps the inventory good, and that one never does |
| ToolInventory.RunGood | src/ent_tool_inventory.cpp:7-181 | so owners stay unique and slots good over every run without it |
| ToolInventory.EntToolInventoryState.AddToolCount | src/ent_tool_inventory.cpp:64-138 | one addition: which owner and slot change, and when it fails |
| ToolInventory.EntToolInventoryState.UpgradeBombsToSticky | src/ent_tool_inventory.cpp:140-181 | one upgrade, and whether the owner has sticky bombs after it |
| ToolInventory.EntToolInventoryState.FindToolSlot | src/ent_tool_inventory.cpp:38-52 | the slot of an owner, if owner and slot exist |
| ToolInventory.EntToolInventoryState.Step | src/ent_tool_inventory.cpp:7-18 | every active slot's cooldown goes down by one |
| ToolInventory.CoolsDown | src/ent_tool_inventory.cpp:7-18 | a cooldown of c steps is over after exactly c |
| ToolInventory.EntToolInventoryState.EnsureToolSlot | src/ent_tool_inventory.cpp:54-62 | where the owner's slot is and what it holds, with empty slots appended for a new owner |
| ToolInventory.EntToolInventoryState.FillToolSlot | src/tools/tool_spec.cpp:58-64 | writing through that reference: this slot holds the tool, and no other slot or owner changes |
| ReplayCursor.ReplayDesyncToState | src/cli.cpp:809-825 | the cursor replay is the plain filter of the records by frame, up to a target that may be the largest 64-bit frame |
| ReplayCursor.CursorTakes | src/cli.cpp:711-726 | what the cursor takes in a frame is exactly the reached records of that frame, in order, for records in any order |
| ReplayCursor.OrderedReached | src/cli.cpp:711-726 | in frame order every record is reached |
| ReplayCursor.OrderedApplied | src/cli.cpp:711-726 | in frame order each record is applied in its own tick and no other |
| ReplayCursor.NothingAfter | src/cli.cpp:711-726 | a record the cursor stops at hides the later ones of the frame |
| ReplayCursor.ApplyReplayInputsForFrame | src/cli.cpp:701-727 | one frame: skip, then deliver the run, the primary player's to the snapshot |
| ReplayCursor.EachDelivered | src/cli.cpp:701-727 | the primary player's last input goes to the snapshot, any other's to that player, and nothing else changes |
| ReplayCursor.WrongOrderSkips | src/cli.cpp:711-726 | of two records in the wrong order the second is never applied |
| LobbyInput.PlayerIdsAre | src/gubsy_shell_input.cpp:43-73 | with a slot per id: at least as many players as devices, none twice, every local player among them, a primary one first |
| LobbyInput.PlayerIdsOrder | src/gubsy_shell_input.cpp:54-63 | the local players come first, primary ones before the others, and each kind by id |
| LobbyInput.FilledIs | src/gubsy_shell_input.cpp:65-71 | filling reaches the count, keeps the list and repeats nothing |
| LobbyInput.FillsSmallest | src/gubsy_shell_input.cpp:65-71 | each added id is the smallest positive one still missing, and at most the count |
| LobbyInput.Pigeonhole | src/gubsy_shell_input.cpp:65-71 | why filling ends |
| LobbyInput.EachLands | src/gubsy_shell_input.cpp:92-100 | with no player twice, each device's frame is at its player's place and everything else is neutral |
| LobbyInput.LobbyState.LocalPlayerIdsForLobbyInput | src/gubsy_shell_input.cpp:43-73 | the sorted local ids, filled up |
| LobbyInput.LobbyState.ApplyLobbyGameplayInput | src/gubsy_shell_input.cpp:77-102 | every place holds the frame of the last device that plays it, or the neutral frame; there are as many places as the highest player |
| JoinLadder.StepClimbs | src/gubsy_shell.cpp:832-924 | a status check keeps the attempt, climbs the ladder with a new timer, or ends with everything cleared |
| JoinLadder.StepEnds | src/gubsy_shell.cpp:832-924 | a pending join ends exactly when the host accepted or time is up and nothing is left to try |
| JoinLadder.StepKeeps | src/gubsy_shell.cpp:832-924 | a join kept waiting keeps its attempt and restarts its timer, and until time is up nothing changes |
| JoinLadder.StepFallsBack | src/gubsy_shell.cpp:832-924 | when time is up: a punch if the attempt was direct and one can be made, else a relay, else nothing |
| JoinLadder.WaitsOn | src/gubsy_shell.cpp:832-924 | however long a host keeps a join waiting, it waits on |
| JoinLadder.FewTimeouts | src/gubsy_shell.cpp:832-924 | over any run a join times out at most once per rung it has left, so at most three times |
| JoinLadder.EndsInTime | src/gubsy_shell.cpp:832-924 | a join the host never answers is over within three timeouts and two gaps between checks |
| JoinLadder.Shell.SyncDirectJoinStatus | src/gubsy_shell.cpp:832-924 | one status check on the object, with 64-bit clock arithmetic |
| JoinLadder.Shell.TryPlan | src/gubsy_shell.cpp:622-688 | only the first usable candidate is tried: the join starts exactly if that one does |
| JoinLadder.FirstUsable | src/gubsy_shell.cpp:622-688 | the candidate that is tried: usable, and none before it is |
| JoinLadder.Shell.JoinSplonksFromGubsy | src/gubsy_shell.cpp:599-704 | the first attempt, from the room's plan if the room has one and from the given host otherwise, with its timer |

## Left out

- The game tick itself (entities, physics, stages, fingerprints): a deterministic function of state and inputs, with an abstract hash.
- Clocks, sockets, files, SDL, SDL_mixer and the lobby runtime: their answers are parameters of the methods, one value per question asked.
- Random fates of packets: any sequence of fates is allowed, so loss rates and the jitter formula are not modelled.
- TornBursts.TornExactly: two players; with more of them packet boundaries fall inside frames.
- OwnBursts.FeedsExactly: for a host that begins with nothing of the peer; `OwnBursts.NeverCutOff` and `OwnBursts.OneExchange` are for any that holds the peer's frames without a hole.
- Production packet codecs, the join barrier, snapshot resync, settings schedules, replay capture and hash exchange.
- Arbitration of missing players and the seeding of neutral inputs at a join barrier: the host of `HostSessions` decides by the inputs that came. Players, window and delay are fixed during a session; a session of `HostStream` begins with an empty buffer and the host's state, so a peer that keeps its buffer through a topology barrier is not modelled, nor that records from before a join lack the new player. The host's own object begins at frame 0, as every host does: only a peer's counters are ever set to another frame.
- In `HostStream` the host's own checks before it steps are that it has the peer's inputs and is not too far ahead of the last of them; other peers can only hold it back further. A peer's burst arrives whole, as it does for one local player, and packets of an earlier session do not arrive in a later one.
- HostSessions.HostSession.PrepareInputLockstepFrame: the resync that a lost snapshot starts, its transfer and its end are not modelled.
- PeerSessions.PeerSession.PrepareInputLockstepFrame: whether a session is active, and whether a join barrier, a fatal desync, a resync, a pending join or the lack of any player holds it up, is a parameter; rollback is enabled, the largest rollback is fixed during a session, and the tick is made inside the step instead of just after it.
- PeerSessions.PeerSession.QueueLocalInputsThroughTargetFrame: called with the queue not behind the session, as the code keeps it: it queues before it prepares, and steps one frame at most.
- PeerSessions.PeerSession.ReplayRollbackWindow: presentation state, statistics and hash records are not modelled, so the failure when replayed hashes show a fatal desync is not, and what a resync does after a failure is not either.
- Frame numbers, sequences and counters of the networking modules are unbounded; the replay's frame counter and the join clock are 64-bit and wrap.
- Flag words are sums of binary digits; bit operations on them are not bit-vector operations.
- Lockstep.LockstepCase.RunCase: the two peers of the harness with players 1 and 2; the input delay and schedules are arbitrary.
- EmitterSystem.SoundSystem.StartEmitterInstance: volume, pan and acoustics of a playback are not modelled; entities are a function from handles to centres that does not change during a frame.
- EmitterSystem.SoundSystem.UpdateAudioEmitters: the audio thread acts before each emitter's turn and between the two looks at its own track, not at every instruction, and memory ordering is not modelled.
- Tracks.Audio.StopAudioInstance: the mixer stops a track at once and runs its callback later.
- PlayEntSoundEmitter and PlayEntCenterSoundEmitter only fill in arguments of the two functions modelled.
- Audio filters are over the reals: IEEE rounding, infinities and NaN are not modelled, and blocks are whole frames, as the code assumes.
- Animator.AFrameAnimator.Step: a read out of bounds has no result, so the step requires a frame in range, which `Animator.RunInFrame` establishes; sums of 32-bit raw times are unbounded; with durations of at most 2^19 - 10 frames they do not overflow. The fixed-point type is not part of this model beyond its 12 fractional bits.
- Animator.AFrameAnimator.SetSpeed: which way a tie is rounded is not modelled.
- FixedPoint.FxLength: the signed sum that overflows for two minimum values is undefined in C++; the model takes the wrapped value.
- FxNormalizeOrZero divides by a fixed-point operator that is not part of this model.
- AnimationDb.FromRaw: error texts, source locations, draw offsets, centres, emit points and tags are not modelled; the sort is stable, which `AnimationDb.Determined` shows not to matter.
- ContentHash.ComputeGameplayContentHash: the cached result, and files that change while they are read, are not modelled.
- Effects: counts are unbounded integers; effect modifiers and hooks are not modelled.
- ToolInventory.EntToolInventoryState.EnsureToolSlot: a reference is an index and a slot number, which stay right until the owner is removed; a slot number beyond two is undefined.
- JoinLadder.Shell.JoinSplonksFromGubsy: the connection plan is a list of candidates with their decisions; how it is planned is not modelled.
- Contact cooldowns, player queries, buying, content names, menus, graphics and scripts: easier members of the same kinds, or interface code.
