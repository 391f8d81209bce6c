# PlayOnAir verification model

PlayOnAir receives AirPlay streams and plays them on Google Cast devices. Three parties have to stay in
agreement while pauses, flushes, stalls, replacement starts and ends race with Cast commands that run in
detached tasks: the AirPlay receiver, the per-device session slot of the bridge, and the Cast worker. These
files model those protocols and the data structures between them, and prove what they guarantee.

`dafny verify dfyconfig.toml` checks everything.

## What is modelled

Concurrent parts are transition systems. One step is one lock section, one atomic access, one lock or queue
operation, or one Cast command, and a run is any interleaving; Cast answers are chosen by the environment.
The theorems hold in every state of every run. Where the program updates fields in place, a class repeats the
section as a method and ties it to the function the transition system takes for the same section.

| file | content |
|---|---|
| `session_rules.dfy`, `session_model.dfy` | one Playing generation: device worker, PAUSE / PLAY tasks behind the transport lock, re-LOAD flows behind the flight lock, WAV rollovers, blocking LOAD tasks with the in-flight slot, teardown, and what the user does on the Cast device |
| `session_history.dfy`, `load_history.dfy` | an exact history of the session's fields and of every LOAD |
| `session_locks.dfy` | what the locks, the two atomics and the teardown order guarantee |
| `flush_ledger.dfy` | a flush stays owed until a LOAD sent after it is accepted |
| `stop_discipline.dfy`, `replace_stop.dfy` | which STOPs a dying generation sends, at a full end and at a replace |
| `teardown_joins.dfy`, `teardown_ends.dfy` | which LOADs a teardown waits for, and which it can miss; that it can always end |
| `paused_safety.dfy`, `device_pauses.dfy` | a paused session is being silenced; pauses on the Cast device and their reports |
| `live_session.dfy`, `draining.dfy`, `settling.dfy` | where a live session comes to rest: with Cast playing or silent, in which orders |
| `session_effects.dfy`, `paying.dfy` | what a pause, a resume, a re-LOAD or a failed PLAY of a live session leads to; that debts are paid |
| `late_commands.dfy` | which PAUSE and PLAY commands a dead generation can still send |
| `session_examples.dfy`, `silent_resume.dfy` | reachable states that show where a claim stops |
| `playing_session.dfy`, `slots.dfy` | the session's lock sections and the generation-stamped slot, in place |
| `receiver.dfy` | receiver, event queue and device worker: no zombie session, and which streams play |
| `group.dfy`, `group_table.dfy`, `group_history.dfy` | multi-select groups: single feeder, generation fencing, the tables in place, an exact history of membership |
| `reconcile.dfy`, `membership.dfy` | the debounced reconcile task and the member list it sends |
| `cast_worker.dfy`, `ownership.dfy`, `worker_history.dfy` | ownership probes, loss, internal re-LOAD, abandoned LOAD, and what the worker remembers |
| `coalesce.dfy`, `remote_tracker.dfy` | command coalescing; telling our own echoes from user changes |
| `pcm_ring.dfy`, `group_volume.dfy`, `names.dfy`, `txt.dfy` | PCM ring, group volume, AirPlay names, TXT attributes |

## Hypotheses

- `audio_init` calls on one receiver do not overlap; audio sessions may be dropped at any time in between.
- In the group model, ending a group together with its owner's session is one step. What separate sections
  would allow is stated exactly (`Groups.EndGroupAloneIffNoFeeder`, `Groups.SplitEndLetsTwoFeed`).
- The bounded joins of a teardown do not time out; an aborted task stops at an await point and a blocking task
  runs to completion.
- Clocks do not go back, and the 64-bit generations and counters do not saturate. The 8-bit streaks of the
  Cast worker saturate as in the program.
- Levels and samples are reals; the clamps and the rounding of the sample conversion are kept.
- Bonjour's name comparison is a parameter; the distinctness results ask that two id-suffixed names compare
  equal only if their suffixes are equal and the names before them compare equal, and
  `Names.LoweredKeepsSuffix` shows this for lower-casing. Whitespace is a parameter of the TXT parser.
- A command is on the wire from the last check before it until its answer, so commands of two threads that are
  on the wire together take effect in either order.

## Where the program differs from its own description

- A replaced generation can still send Cast STOP, although the comment at
  `crates/play-on-air/src/bridge/load.rs:73-74` says it never stops the superseding session: it can exactly
  when a LOAD is about to act on a pause (`ReplaceStop.ReplacedStopIffPausedLoad`).
- The teardown of a WAV session can send its STOP while a LOAD is on the wire: exactly a LOAD whose handle a
  rollover had taken and dropped when it was aborted while joining it (`TeardownJoins.MissedIffDropped`,
  `SessionExamples.WavTeardownCanMissALoad`). That LOAD still stops Cast itself
  (`StopDiscipline.FullEndStopsAfterLastLoad`).
- A resume can leave Cast silent with nothing owed. `Settling.ResumedSettlesIff` says exactly when. A re-LOAD
  that a pause abandoned may send its STOP after the PLAY (`SilentResume.ResumedSessionCanBeSilent`); and a
  resume that sent no PLAY because a flush was owed relies on a re-LOAD, which returns when the flush was
  covered by one that the PAUSE had silenced (`SilentResume.CoveredResumeEndsSilent`).
- A pause on the Cast device sets the flag without a PAUSE, on the ground that Cast paused itself
  (`crates/play-on-air/src/bridge/remote.rs:120-124`). When a LOAD or PLAY overtakes its report, Cast plays on
  while the session is paused (`DevicePauses.DevicePausePlaysIff`, `SilentResume.OvertakenDevicePausePlays`).
- A group that is removed while its reconcile task runs, and created again, can have two tasks, and only such
  a group (`Reconcile.RemovalDoublesIff`, `Reconcile.RecreatedGroupHasTwoTasks`); no membership change is lost
  by that.
- The stand-down mark of an ended session keeps its probes from reporting a loss, but not its PINGs: two dead
  PINGs with no tick due to probe from the first on report one (`CastWorker.EndedSessionIsLostIff`,
  `CastWorker.EndedSessionCanBeLost`).
- Advertised names need not stay distinct after clash resolution: a device may fall back to a name by which
  another is called (`Names.NamesDifferIff`, `Names.ClashingDevices`).
- A coalesced volume burst differs from the single commands exactly when the attempt for its last command
  fails and an earlier one would have succeeded and changed the volume (`Coalesce.CoalescedBurstIff`).

## Model

| member | source | states |
|---|---|---|
| FlushLedger.CoverageIsReal | crates/play-on-air/src/bridge/load.rs:577-626 | In every reachable state of one generation, over all interleavings: `flush_reload_done` never exceeds `flush_reload_requested`, and every flush it counts has an accepted LOAD whose command went out after that flush. |
| FlushLedger.FlushPrecedesItsLoad | crates/play-on-air/src/bridge/load.rs:606-626 | The order behind it: the flush is an earlier step of the run than the LOAD command, which is earlier than now, and that LOAD is among the accepted ones. |
| FlushLedger.OwedFlushIsPaidByItsLoad | crates/play-on-air/src/bridge/load.rs:508-560 | Between a moment at which a flush is owed and one at which the ledger calls it done, a live and unpaused generation accepted a LOAD that went out after that flush; pauses, failures and older competing LOADs never clear it. |
| FlushLedger.SkippedReloadIsCovered | crates/play-on-air/src/bridge/load.rs:409-450 | A re-LOAD that returns at a gate as already satisfied really is covered. |
| FlushLedger.ResumePlaysOnlyCoveredMedia | crates/play-on-air/src/bridge/playback.rs:340-384 | A resume picks PLAY only when no flush and no stall re-LOAD is owed and the pause was short, so every flush so far is covered; a flush is owed if and only if it starts a re-LOAD for all of them. |
| FlushLedger.CoverageIsKept | crates/play-on-air/src/bridge/load.rs:617-620 | Along a run coverage only grows: a flush that is covered once stays covered. |
| StopDiscipline.FullEndStopsAfterLastLoad | crates/play-on-air/src/bridge/teardown.rs:100-197 | After a full end, once no LOAD task runs, every LOAD the generation ever sent has a later Cast STOP, whatever the interleaving, also for LOADs that outlive the teardown. |
| StopDiscipline.NoLoadPublishedAfterTake | crates/play-on-air/src/bridge/load.rs:459-497 | Once the teardown took the in-flight slot, no LOAD of the generation is published any more. |
| TeardownJoins.UnjoinedLoadWasDropped | crates/play-on-air/src/bridge/teardown.rs:100-175 | Of every session: when the teardown sends its STOP, or is over, a LOAD task can only be running if a rollover was aborted while it joined that very LOAD. |
| TeardownJoins.MissedIffDropped | crates/play-on-air/src/bridge/load.rs:196-240 | The exact condition, with the converse: once the tasks are joined, some continuation sends the STOP and ends with a LOAD running if and only if that LOAD runs now and a rollover was aborted while it joined it. |
| TeardownJoins.FlacTeardownJoinsEveryLoad | crates/play-on-air/src/bridge/teardown.rs:150-163 | A FLAC session has no rollovers, so its teardown reaches the STOP only after every published LOAD has finished. |
| StopDiscipline.QuietMeansStopAfterLoads | crates/play-on-air/src/bridge/teardown.rs:175-197 | The inductive form used for the full end says exactly that each LOAD in a command log has a later STOP. |
| SessionExamples.WavTeardownCanMissALoad | crates/play-on-air/src/bridge/load.rs:196-240 | That a WAV teardown can miss a LOAD: a reachable run in which a rollover took the handle of an aborted re-LOAD, was aborted while joining it, and the teardown sent STOP with that LOAD on the wire. |
| ReplaceStop.ReplacedGenerationNeverLateStops | crates/play-on-air/src/bridge/teardown.rs:106-118 | While a generation plays or is being replaced, it sends no STOP for being dead: every STOP it sends is of a LOAD that saw the pause flag, and one that no sender and no report from Cast ever paused sends none. |
| ReplaceStop.ReplacedStopIffPausedLoad | crates/play-on-air/src/bridge/load.rs:461-560 | Exactly when a replaced generation can still stop Cast: some continuation sends a STOP if and only if a LOAD task or a refused re-LOAD is about to act on the pause flag. |
| SessionExamples.ReplacedGenerationCanStop | crates/play-on-air/src/bridge/load.rs:69-77 | The comment that a replaced session never stops the superseding one is false: a reachable replaced generation that can still STOP. |
| PausedSafety.PausedSessionIsBeingSilenced | crates/play-on-air/src/bridge/playback.rs:127-183 | In every reachable state, a live session flagged paused while Cast plays has a PAUSE task ahead or a LOAD before the check that stops it, unless since the flag was set the PAUSE failed, the user started Cast, a rollover LOAD of a WAV session started it, or the flag was set for a pause on the device that a start had overtaken. |
| DevicePauses.DevicePausePlaysIff | crates/play-on-air/src/bridge/remote.rs:125-143 | A session paused for a report from Cast gets no PAUSE task. Exactly when Cast plays all the same: a LOAD or PLAY took effect, or the user started Cast, after that report was queued, and nothing silenced it since. |
| DevicePauses.DevicePauseIsSilentUnlessOvertaken | crates/play-on-air/src/bridge/remote.rs:74-106 | For any report of the queue, also one from before the session: while the session stays paused for it, Cast plays only if it was started after the report was queued. |
| DevicePauses.PlaysIffStarted | crates/play-on-air/src/bridge/playback.rs:127-183 | From a silent moment on, Cast plays exactly when a LOAD, a PLAY or the user started it and no PAUSE, STOP or user silenced it since. |
| SilentResume.OvertakenDevicePausePlays | crates/play-on-air/src/bridge/playback.rs:283-287 | A reachable FLAC session that is flagged paused with nothing running while Cast plays, because a re-LOAD overtook the report; a pause by the sender then changes nothing. |
| Settling.EndsIff | crates/play-on-air/src/bridge/playback.rs:127-264 | In every reachable state of a live session, with any tasks, re-LOADs and rollovers under way: some way of finishing all of them ends with Cast playing (or silent) if and only if the last PAUSE or PLAY ahead does that, or the last LOAD or STOP ahead does, or neither is ahead and Cast does it already. |
| Settling.ResumedSettlesIff | crates/play-on-air/src/bridge/playback.rs:318-334 | Exactly when a session that is not paused may stay silent once everything has finished: a PAUSE is on the wire with no PLAY ahead, or a LOAD that saw the flag has its STOP to send with no LOAD ahead, or Cast is silent with neither ahead; otherwise every order ends with Cast playing. |
| Settling.PausedSettlesIff | crates/play-on-air/src/bridge/load.rs:399-560 | Exactly when a paused session may go on playing once everything has finished: a PLAY is on the wire with no PAUSE ahead, or a rollover LOAD is ahead, or Cast plays with neither a PAUSE nor the STOP of a paused LOAD ahead. |
| Settling.FinishAll | crates/play-on-air/src/bridge/load.rs:399-560 | No deadlock: from every reachable live state the worker, the tasks behind the transport lock, the re-LOADs behind the flight lock and their LOADs can all be run to their end. |
| PausedSafety.ShortPausesSettleOnTheFlag | crates/play-on-air/src/bridge/playback.rs:230-334 | The runs that always settle: with short pauses and resumes, nothing owed, no failed command and no re-LOAD step in between, Cast plays if and only if the flag is clear once the tasks have drained, in whatever order they got the transport lock. What a failed PLAY leads to is `SessionEffects.FailedPlayReloads`. |
| SessionEffects.FailedPlayReloads | crates/play-on-air/src/bridge/playback.rs:230-264 | In every reachable live state, a PLAY on the wire that Cast refuses falls back to a re-LOAD: the transport lock is free, a re-LOAD is ahead, and the next section of the task starts an owned re-LOAD, in planning and for no particular flush; while the flag stays clear, some way of finishing everything ends with Cast playing. |
| SessionEffects.PauseSilences | crates/play-on-air/src/bridge/playback.rs:273-313 | In every reachable live state, a first pause can end with Cast silent, and can end with Cast playing if and only if a rollover LOAD, which looks at no flag, is ahead. |
| SessionEffects.ResumePlays | crates/play-on-air/src/bridge/playback.rs:318-384 | A resume of a session that is paused or owes a re-LOAD can end with Cast playing, unless a re-LOAD already under way covers every flush that is owed. |
| SessionEffects.ReloadPlays | crates/play-on-air/src/bridge/load.rs:399-626 | Any re-LOAD started while the session is not paused, and any rollover, can end with Cast playing. |
| Paying.ResumePaysAll | crates/play-on-air/src/bridge/playback.rs:340-384 | A resume that owes anything pays it: in whatever order the tasks, re-LOADs and LOADs finish, at the end every flush so far is covered by an accepted LOAD and no stalled re-LOAD is owed. |
| Paying.ReloadPaysAll | crates/play-on-air/src/bridge/stall.rs:217-236 | So does every re-LOAD of a session that is not paused, also the one after an abandoned stall re-LOAD. |
| SessionHistory.FactHoldsIff | crates/play-on-air/src/bridge/load.rs:399-626 | Exactly what holds of a session after any run, step by step: pause flag, owed stall, covered flushes, the worker's decision after a resume, every PAUSE and PLAY task, every re-LOAD and what it is for, every LOAD and what it covers, the three locks, the in-flight slot and the teardown's stores each hold if and only if a step that brings them about came and none that ends them since. |
| SessionHistory.FlushesAreCounted | crates/play-on-air/src/bridge/playback.rs:395-411 | The number of the last flush is the number of flushes of the run. |
| SessionHistory.FactsAtFirst | crates/play-on-air/src/bridge/start.rs:581-606 | A fresh session starts with nothing owed, held, running or ended. |
| LoadHistory.FactHoldsIff | crates/play-on-air/src/bridge/load.rs:451-560 | Exactly what became of every LOAD after any run: the flushes it is published for, who joins it or waits for it, what Cast answered, how its task ended, which STOP it sends, and whether it was accepted, refused or dropped. |
| TeardownEnds.EveryTeardownCanEnd | crates/play-on-air/src/bridge/teardown.rs:100-197 | No deadlock: from every reachable state the generation can be ended, for a replace or in full, and its teardown run to its end, whatever tasks, re-LOADs, rollovers and LOADs are under way and whichever locks they hold. |
| TeardownEnds.SenderIsHeard | crates/play-on-air/src/bridge/playback.rs:273-334 | A live session takes a pause, a flush and a resume at any time, at the latest after the second section of a resume. |
| TeardownEnds.LoopsAreFree | crates/play-on-air/src/bridge/stall.rs:217-236 | Re-LOADs, rollovers, the WAV switch and reports from Cast are never held up by other tasks, only by the end of the generation. |
| SilentResume.ResumedSessionCanBeSilent | crates/play-on-air/src/bridge/load.rs:481-487 | A reachable resumed session with nothing owed and its PLAY ahead that may end silent or playing: a re-LOAD that saw the pause sends its STOP before or after the PLAY. |
| SilentResume.CoveredResumeEndsSilent | crates/play-on-air/src/bridge/load.rs:420-423 | A reachable resumed session that must end silent: the resume sent no PLAY because a flush was owed, and its re-LOAD finds the flush covered by one that a PAUSE silenced. |
| SessionLocks.RunHasStructure | crates/play-on-air/src/bridge/load.rs:340-497 | In every reachable state: one task per transport lock, one flow per flight lock and per slot lock, and the two atomics follow the teardown phase. |
| SessionLocks.DeadGenerationStaysFrozen | crates/play-on-air/src/bridge/mod.rs:166-181 | From the moment a generation lost its slot, no step of any kind writes its ledger, accepts a LOAD for it or gives it a PAUSE or PLAY task. |
| LateCommands.DeadGenerationControlsIffPassed | crates/play-on-air/src/bridge/playback.rs:230-264 | Exactly when a generation that lost its slot can still PAUSE or PLAY the session that replaced it, also while its `session_alive` is still set: some continuation does if and only if a task is on the wire, or had passed the generation check, meets a liveness check only while `session_alive` is set, and the frozen pause flag wants its command. |
| PlayingSessions.PlayingSession.HandlePause | crates/play-on-air/src/bridge/playback.rs:273-313 | The pause section sets the flag, its mirror and the pause time, and starts a PAUSE task exactly for the first pause. |
| PlayingSessions.PlayingSession.PauseLocally | crates/play-on-air/src/bridge/remote.rs:125-143 | The section for a pause on the device does the same without a PAUSE task, and tells the sender exactly for the first pause. |
| PlayingSessions.PlayingSession.PlanResume | crates/play-on-air/src/bridge/playback.rs:340-384 | The resume section clears the pause state whatever it decides; PLAY, or nothing, is decided only when every flush is covered and no stall is owed, and a flush re-LOAD is for all flushes so far. |
| PlayingSessions.PlayingSession.HandleFlush | crates/play-on-air/src/bridge/playback.rs:395-411 | A flush adds one to the requests and changes nothing else of the ledger. |
| SessionRules.GateServesRequest | crates/play-on-air/src/bridge/load.rs:577-601 | What the gate means for a re-LOAD that a flush asked for: if it proceeds and is accepted the next resume owes nothing; if it is skipped its flush is covered; if a pause holds it back the next resume re-LOADs for it and all later flushes; only a stale one is dropped. |
| PlayingSessions.PlayingSession.AcceptReload | crates/play-on-air/src/bridge/load.rs:606-626 | Acceptance raises the covered count to the maximum and clears the owed stall re-LOAD only for a live, unpaused generation; when no flush came since the gate, nothing is owed any more. |
| PlayingSessions.PlayingSession.OweStallReload | crates/play-on-air/src/bridge/stall.rs:217-236 | An abandoned stall re-LOAD is owed to the next resume, or re-LOADs now when the pause is already over; a stale generation changes nothing. |
| PlayingSessions.PlayingSession.ForbidLateStop | crates/play-on-air/src/bridge/teardown.rs:104-110 | The first store of a teardown: after a replace, no reader stops a late LOAD whatever it reads of `session_alive`. |
| PlayingSessions.PlayingSession.ClearAlive | crates/play-on-air/src/bridge/teardown.rs:106-118 | The second store leaves the first as it is; from then on a late LOAD is stopped exactly after a full end. |
| Slots.StaleGenerationChangesNothing | crates/play-on-air/src/bridge/start.rs:282-298 | Install, clear and take for a generation other than the live one leave a slot as it is. |
| Slots.DeviceSlot.Accept | crates/play-on-air/src/bridge/start.rs:108-131 | An accepted start bumps the counter, installs Starting with it and hands out the session that played before. |
| Slots.DeviceSlot.Install | crates/play-on-air/src/bridge/start.rs:581-606 | Playing replaces only the Starting of its own generation; otherwise the session is an orphan, to be torn down without STOP exactly when another start or session holds the slot. |
| Slots.DeviceSlot.TakeIfGeneration | crates/play-on-air/src/bridge/teardown.rs:338-355 | Takes the session exactly when the generation matches. |
| Groups.LiveGenerationIsCounter | crates/play-on-air/src/bridge/group.rs:315-393 | In every reachable state a live slot carries its counter, also after a hand-over moved a session into it. |
| Groups.AcceptedGenerationsIncrease | crates/play-on-air/src/bridge/start.rs:108-131 | Generations accepted for one device strictly increase along any run, with groups, hand-overs and ends in between. |
| Groups.StaleStepChangesNoSlot | crates/play-on-air/src/bridge/teardown.rs:338-355 | A step that acts for a generation other than the live one changes no slot at all. |
| Receiver.NoZombieSession | crates/play-on-air/src/airplay/mod.rs:153-169 | When no event is queued, handled or about to be sent, a live slot plays the receiver's current ring and the audio session feeding it is open. That streams do play is `Receiver.StartPlaysIff`. |
| Receiver.SupersededRingHasEventAhead | crates/play-on-air/src/bridge/teardown.rs:245-314 | The invariant behind it: a playing slot with a superseded ring always has an Ended, or the Started of the current ring, ahead of it. |
| Receiver.OpenStreamIsNeverEnded | crates/play-on-air/src/airplay/mod.rs:145-169 | While a session or a start is on the current ring, no Ended is queued or in hand that could end it: what sending Ended under the ring lock is for. |
| Receiver.StartPlaysIff | crates/play-on-air/src/bridge/start.rs:482-606 | Exactly which starts end in Playing: those for which the ring was current at both checks, prebuffer and LOAD succeeded and the slot was still its own Starting at both rechecks. Then it took eight sections, and the slot plays that ring in the generation after the one before. |
| Receiver.StartLoadsIff | crates/play-on-air/src/bridge/start.rs:482-580 | A start sends its LOAD if and only if its first five sections went well. |
| Receiver.UndisturbedStartPlays | crates/play-on-air/src/bridge/start.rs:482-606 | A Started for the current ring that no new ring, close or end from outside disturbs ends with the slot playing that ring, after eight sections that succeed. |
| Receiver.PlaysIffInstalled | crates/play-on-air/src/bridge/teardown.rs:338-355 | A slot plays a ring in a generation exactly from its install until a newer start, an end from outside or its own Ended. |
| Receiver.StartingIffAccepted | crates/play-on-air/src/bridge/start.rs:108-131 | A slot is starting in a generation exactly from the accept of that start until it is installed, cleared, ended or superseded. |
| Receiver.EveryStateCanPlay | crates/play-on-air/src/airplay/mod.rs:141-169 | No deadlock: from every state, whatever is queued, in hand or half announced, the receiver and its worker can be run until a new stream plays. |
| Receiver.ClosedStreamEnds | crates/play-on-air/src/airplay/mod.rs:153-169 | A stream that is closed at rest ends its session in three steps of the worker; an end from outside ends any session at once. |
| Receiver.DeviceAudioState.EndIfCurrent | crates/play-on-air/src/airplay/mod.rs:153-169 | Only the session that owns the ring slot installs a placeholder and sends Ended. |
| Receiver.DeviceAudioState.Replace | crates/play-on-air/src/airplay/mod.rs:141-143 | audio_init puts a new ring into the slot. |
| Receiver.DeviceAudioState.Announce | crates/play-on-air/src/airplay/mod.rs:337-344 | Started carries the ring that was installed. |
| Groups.AtMostOneFeeder | crates/play-on-air/src/bridge/group.rs:143-218 | In every reachable state, a device that starts as owner or plays for a group is that group's owner, so two devices never feed one group, through simultaneous starts, hand-overs, promotions and owner loss. |
| Groups.EndGroupAloneIffNoFeeder | crates/play-on-air/src/bridge/group.rs:493-518 | Forgetting a group by itself keeps that claim if and only if nobody feeds the group at that moment. |
| Groups.SplitEndLetsTwoFeed | crates/play-on-air/src/bridge/stall.rs:270-276 | Taking the owner's session and ending its group are two sections: a concrete interleaving in which two devices feed one group. |
| GroupTables.GroupTable.EnterGroup | crates/play-on-air/src/bridge/group.rs:143-218 | The in-place operation is the step of the transition system, with the role it answers. One that follows is a follower of the group, and its slot follows that group in the next generation; the owner and the other followers stay; an owner feeds alone. |
| GroupHistory.FactHoldsIff | crates/play-on-air/src/bridge/group.rs:143-218 | Exactly what holds of the groups and slots after any run: who follows, is barred, owns, is confirmed by Cast, is being promoted, starts, plays for a group or alone, or follows one in its slot: each if and only if a step that makes it so came and none that undoes it since. |
| GroupHistory.FollowerIsDesired | crates/play-on-air/src/bridge/group.rs:557-680 | A device that joined a group stays among its followers, and so on the member list that goes to Cast, until a step drops it: forgotten, failed in an answer, promoted or handed the session, or the group removed. |
| GroupHistory.JoinOrderIsKept | crates/play-on-air/src/bridge/group.rs:143-218 | Of two members that stay listed the one that joined first stays first, and a new one comes last. |
| GroupHistory.HeirIff | crates/play-on-air/src/bridge/group.rs:330-349 | Exactly who can be handed the owner's session: a confirmed follower whose slot follows in the owner's format. |
| GroupHistory.WorkCanFinish | crates/play-on-air/src/bridge/start.rs:581-606 | Whatever a device's worker is busy with can be finished. |
| GroupHistory.MemberComesToPlay | crates/play-on-air/src/bridge/group.rs:143-218 | A device that takes part comes to play: a barred member alone, a member of a group with a live owner as its follower, any other as the owner, each in its next generation. |
| GroupHistory.DeviceComesToPlayAlone | crates/play-on-air/src/bridge/start.rs:108-131 | A device without a group comes to play alone in its next generation. |
| GroupHistory.DeadOwnerIsReplaced | crates/play-on-air/src/bridge/group.rs:410-490 | A group whose owner is found dead keeps its followers and asks the first one to start, unless one of them is asked already. |
| GroupHistory.GroupEnds | crates/play-on-air/src/bridge/group.rs:493-518 | The end of a session that plays for a group stops it and every follower, and forgets the group. |
| GroupTables.GroupTable.FindSurvivor | crates/play-on-air/src/bridge/group.rs:330-349 | The survivor is the first follower in join order that Cast confirmed, that still follows and has the owner's format; none is found if and only if there is none. |
| GroupTables.GroupTable.OwnerLeft | crates/play-on-air/src/bridge/group.rs:315-393 | The session is handed over if and only if it still plays in that generation and some member can take it; otherwise nothing changes. |
| GroupTables.GroupTable.CheckOwner | crates/play-on-air/src/bridge/group.rs:410-430 | The loop over all groups drops the dead device as owner and from the barred members, and every group left empty. |
| GroupTables.GroupTable.EndGroup | crates/play-on-air/src/bridge/group.rs:493-518 | Exactly the members that still follow the group are ended, and the group is forgotten. |
| Reconcile.ScheduledChangeIsSeen | crates/play-on-air/src/bridge/group.rs:538-590 | No lost change: if membership changed, a reconcile was scheduled later, the group was kept and no task is left, then a plan was taken after the change. |
| Reconcile.UnseenChangeHasATask | crates/play-on-air/src/bridge/group.rs:557-590 | In every reachable state, an unseen scheduled change has a task before its snapshot, or a dirty flag and a task that will find it; groups may be removed and created again with old tasks running. |
| Reconcile.AtMostOneTask | crates/play-on-air/src/bridge/group.rs:538-555 | While a group is only removed when no task runs, it has one reconcile task at most, so its requests go out one at a time. |
| Reconcile.TaskEnds | crates/play-on-air/src/bridge/group.rs:557-590 | A task that is left alone ends after the sections it has left, with the flags clear; if it was before its snapshot, or a change was marked meanwhile, its last plan is of the newest membership. |
| Reconcile.ChangeComesToBeSeen | crates/play-on-air/src/bridge/group.rs:538-590 | From every reachable state with a group: a change that is scheduled is in the last plan of the task that then runs to its end, a new task or the one that was busy. |
| Reconcile.RemovalDoublesIff | crates/play-on-air/src/bridge/group.rs:538-570 | The exact condition: a removal lets a second task run beside the first, in some continuation that removes the group only when no task runs, if and only if a task was running at that removal. |
| Reconcile.RecreatedGroupHasTwoTasks | crates/play-on-air/src/bridge/group.rs:538-570 | A group removed and created again while its task sleeps gets a second one. |
| Reconcile.ReconcileFlags.Schedule | crates/play-on-air/src/bridge/group.rs:538-555 | A busy task is marked dirty, otherwise a new one is started. |
| Reconcile.ReconcileFlags.FinishPass | crates/play-on-air/src/bridge/group.rs:581-590 | A pass ends the task exactly when nothing became dirty meanwhile. |
| Membership.DesiredMembers | crates/play-on-air/src/bridge/group.rs:110-119 | The loop computes the desired list. |
| Membership.DesiredIsMembership | crates/play-on-air/src/bridge/group.rs:109-119 | It names exactly the owner and the followers, each once, with the confirmed members that stay first and in their order. |
| Membership.JoinersComeInOrder | crates/play-on-air/src/bridge/group.rs:109-119 | After the confirmed members that stay come the owner and the followers that Cast does not have yet, in join order. |
| Membership.AnsweredPlanIsSettled | crates/play-on-air/src/bridge/group.rs:653-680 | Reconciliation converges: after Cast answered a plan, with any members it could not add, no second plan is due. |
| CastWorker.LossIsEvidenced | crates/play-on-air/src/cast/pool.rs:1879-1972 | Exactly when an ownership loss is sent, over any sequence of idle ticks and commands: by a loss signal, when an earlier signal stands that no owned probe, stood-down probe, installed or cleared session has forgotten; the same session was tracked from that signal on. Which probes are signals is `Ownership.VerdictIff`. |
| Ownership.VerdictIff | crates/play-on-air/src/cast/pool.rs:335-427 | Exactly when a probe gives each verdict, in terms of what Cast answered, the buffering streak, the re-LOAD mark and the ten-second guard. |
| Ownership.TickProbesIff | crates/play-on-air/src/cast/pool.rs:1393-1422 | Exactly when an idle tick asks Cast: the link is up and stays up through the PING, the probe is due, and a session is tracked for three seconds that the bridge has not ended. |
| Ownership.StolenSessionIsLost | crates/play-on-air/src/cast/pool.rs:1879-1972 | Over any run: two probes that see another app hold the player, or our session gone, with nothing between them that speaks for the session, send exactly one loss, at the second one, and the worker lets the session go. |
| Ownership.HealthySessionIsKept | crates/play-on-air/src/cast/pool.rs:1879-1957 | A probe that finds the session there and not in trouble sends no loss, keeps it, and clears the streak and the re-LOAD mark. |
| Ownership.FailedProbeReconnects | crates/play-on-air/src/cast/pool.rs:1930-1957 | A probe that the transport fails decides nothing about the session: the worker reconnects. |
| WorkerHistory.FactHoldsIff | crates/play-on-air/src/cast/pool.rs:1879-2143 | Exactly what the worker remembers after any run: which session it tracks and since when, whether the bridge has ended it, whether its re-LOAD was tried and which LOAD it would send again, each from the step that made it so until one that undoes it. |
| WorkerHistory.LinkIff | crates/play-on-air/src/cast/pool.rs:1569-1640 | Exactly when the worker has its link: since the last reconnect that succeeded no LOAD, STOP, take-over, PING, probe or command has lost it. |
| WorkerHistory.StuckIff | crates/play-on-air/src/cast/pool.rs:1879-1957 | A buffering player counts as stuck exactly at the third probe in a row that finds it so. |
| CastWorker.OneLossPerSession | crates/play-on-air/src/cast/pool.rs:2130-2143 | Between two losses a session was installed. |
| CastWorker.EndedSessionIsLostIff | crates/play-on-air/src/cast/pool.rs:1393-1422 | Exactly when a session that the bridge has ended is still reported as lost: a PING and its reconnect fail and an earlier signal stands; while the session is ended, signals are exactly the dead PINGs, and an idle tick forgets them if and only if it is due to probe. |
| CastWorker.EndedSessionCanBeLost | crates/play-on-air/src/cast/pool.rs:1745-1780 | A reachable run with the program's deadlines in which an ended session is reported as lost by two dead PINGs. |
| CastWorker.InternalLoadKeepsDistance | crates/play-on-air/src/cast/pool.rs:415-427 | An internal re-LOAD comes at least ten seconds after any other LOAD or take-over of the same worker, on a monotone clock. |
| CastWorker.AbandonedLoadLeavesNoSession | crates/play-on-air/src/cast/pool.rs:1270-1290 | A session is delivered if and only if the LOAD succeeded, the abandon flag was not set before the last check and the caller listens, and then it is the active one; with the flag set or the caller gone no session is active. |
| CastWorker.ActiveSessionIsAcknowledged | crates/play-on-air/src/cast/pool.rs:1270-1290 | In every run, an active session was delivered to the caller of its LOAD, taken over, or recovered by an internal re-LOAD, and has been active ever since: the worker never tracks a session nobody knows of. |
| CastWorker.LateSuccessIsStopped | crates/play-on-air/src/cast/pool.rs:2198-2258 | A LOAD that succeeded but is not delivered is stopped, and only it, unless the connection is gone. |
| CastWorker.WorkerState.Check | crates/play-on-air/src/cast/pool.rs:1879-1957 | The probe updates streaks, the re-LOAD mark and the session in place as specified; what each verdict takes is `Ownership.VerdictIff`. |
| CastWorker.WorkerState.OnIdleTick | crates/play-on-air/src/cast/pool.rs:1393-1422 | The idle tick in its order: a disconnected worker only reconnects; otherwise the PING if due, then the probe if due. |
| CastWorker.WorkerState.PingHeartbeat | crates/play-on-air/src/cast/pool.rs:1745-1780 | A PING failure counts only when the reconnect fails and a session is tracked. |
| CastWorker.WorkerState.Load | crates/play-on-air/src/cast/pool.rs:2145-2196 | First try, one reconnect and the retry, with the abandon checks in between. |
| CastWorker.WorkerState.CommitLoadSession | crates/play-on-air/src/cast/pool.rs:2198-2240 | The checks before and after a session is installed. |
| CastWorker.WorkerState.RunLoadCommand | crates/play-on-air/src/cast/pool.rs:1270-1290 | The last check and the delivery to the caller. |
| CastWorker.WorkerState.HandleStop | crates/play-on-air/src/cast/pool.rs:2554-2597 | STOP clears the tracked session before it touches the wire. |
| Coalesce.CoalescingPreservesMeaning | crates/play-on-air/src/cast/pool.rs:1355-1371 | If the one attempt for each drained burst succeeds, the worker loop leaves receiver volume and metadata as if every command had run alone, and every other command runs at the same volume and metadata; other commands may succeed or fail, whatever their level. |
| Coalesce.CoalescedBurstIff | crates/play-on-air/src/cast/pool.rs:1291-1300 | One burst gives the volume of running it one by one if and only if the attempt for its last command succeeds, or the last command that would have succeeded sets, clamped, the volume the burst began at. |
| Coalesce.EveryReplyOnce | crates/play-on-air/src/cast/pool.rs:1291-1300 | Every caller is answered exactly once, in order, whatever the drains see. |
| Coalesce.OthersInOrder | crates/play-on-air/src/cast/pool.rs:1197-1203 | All other commands run once and in order, also those that waited in the pending slot. |
| Coalesce.WorkerLoop | crates/play-on-air/src/cast/pool.rs:1195-1350 | The loop with its pending slot computes the specified passes. |
| Coalesce.CoalesceSetVolume | crates/play-on-air/src/cast/pool.rs:1355-1371 | The drain keeps the last level, every reply, the first other command and the rest of the queue. |
| Coalesce.CoalesceMetadata | crates/play-on-air/src/cast/pool.rs:1333-1347 | The same for metadata: the latest wins. |
| EchoTracker.EchoRefinesHistory | crates/play-on-air/src/cast/pool.rs:137-161 | Although entries leave only from the front and 128 are kept, the echo check answers exactly whether one of the last 128 commanded levels, at most ten seconds old, matches. |
| EchoTracker.VolumeReportIff | crates/play-on-air/src/cast/pool.rs:164-177 | Exactly when a volume status is reported as a user change, and which level: no volume command of the last 1.5 seconds, and against the last level heard the mute state changed, or the level did and echoes none of the last 128 commands of ten seconds; all in terms of the commands and statuses of the run. |
| EchoTracker.PlayerReportIff | crates/play-on-air/src/cast/pool.rs:104-134 | Exactly when a player status is reported, and what: Cast plays (or is paused), the last that was told of the session, by a command or an earlier report, is the opposite, and no command of the session came in the last 1.5 seconds. |
| EchoTracker.PlayerReportsAlternate | crates/play-on-air/src/cast/pool.rs:116-134 | Consecutive player reports with no command or session end between them alternate. |
| EchoTracker.FirstReportContradictsCommand | crates/play-on-air/src/cast/pool.rs:104-134 | The first report after a player command is the opposite of what was commanded. |
| EchoTracker.RemoteTracker.IsVolumeEcho | crates/play-on-air/src/cast/pool.rs:151-161 | The loop drops expired entries from the front and searches the rest. |
| EchoTracker.RemoteTracker.SeeVolume | crates/play-on-air/src/cast/pool.rs:164-177 | The in-place update of the volume baseline, and its report. |
| EchoTracker.RemoteTracker.SeePlayer | crates/play-on-air/src/cast/pool.rs:116-134 | The in-place update of the player intent, and its report. |
| EchoTracker.RemoteTracker.ExpectLevel | crates/play-on-air/src/cast/pool.rs:137-143 | A commanded level is remembered; a full history forgets its oldest. |
| AudioRing.RingRefinesLog | crates/play-on-air/src/audio/pcm.rs:47-123 | After any operations the ring holds the newest `capacity` samples pushed and not consumed since, and its pops hand out exactly that log, in order. |
| AudioRing.SamplesAreConserved | crates/play-on-air/src/audio/pcm.rs:47-73 | For any operations: pushed = popped + cleared + buffered + the overflow counter, but for the part frames that overflows cut. |
| AudioRing.WholeFramePushesStayAligned | crates/play-on-air/src/audio/pcm.rs:47-73 | While every push is whole frames the ring stays on a frame boundary and no part frame goes uncounted. |
| AudioRing.PcmRing.Push | crates/play-on-air/src/audio/pcm.rs:47-73 | Overflow drops from the head, also when a push alone exceeds the capacity. |
| AudioRing.PcmRing.Pop16 | crates/play-on-air/src/audio/pcm.rs:79-108 | Popping over the two halves of the deque, wherever it wraps, is popping the flat queue and converting each sample: each value out is the 16-bit value nearest to its sample. |
| AudioRing.PcmRing.Pop32 | crates/play-on-air/src/audio/pcm.rs:114-123 | Pops whole frames unconverted and counts no underrun. |
| AudioRing.ToI16IsSymmetricAndMonotone | crates/play-on-air/src/audio/pcm.rs:153-158 | The conversion fits 16 bits, is symmetric and monotone. |
| AudioRing.ToI16IsNearest | crates/play-on-air/src/audio/pcm.rs:153-158 | The conversion gives the one 16-bit value nearest to the sample at full scale 32767, halves away from zero, with louder samples at full scale. |
| AudioRing.PopTakesMost | crates/play-on-air/src/audio/pcm.rs:79-123 | A pop takes as many whole frames as are asked for and there, and leaves the rest in place. |
| AudioRing.UnderrunsAreEmptyPops | crates/play-on-air/src/audio/pcm.rs:79-108 | Over any operations the underrun counter counts exactly the 16-bit pops that found no whole frame. |
| GroupVolumes.GroupVolumeLatestWins | crates/play-on-air/src/bridge/volume.rs:141-193 | Over all interleavings targets are taken in order, and once no task is left the last target taken is the last one queued. |
| GroupVolumes.PendingTargetHasOneTask | crates/play-on-air/src/bridge/volume.rs:141-155 | A pending target has a running task, and there is never a second one. |
| GroupVolumes.QueuedTargetIsTaken | crates/play-on-air/src/bridge/volume.rs:141-193 | From every reachable state: a target that is queued is taken by the task that runs, or the one it starts, which then ends. |
| GroupVolumes.MeanBecomesTargetIff | crates/play-on-air/src/bridge/volume.rs:65-83 | For levels that are not negative, the members' mean is never above the target, and equals it if and only if the group is about silent or no member would have to be louder than full. |
| GroupVolumes.ScaledLevelIs | crates/play-on-air/src/bridge/volume.rs:65-83 | Every member's new level is its old one times the factor that takes the mean to the target, clamped. |
| GroupVolumes.SilentLevelIs | crates/play-on-air/src/bridge/volume.rs:65-83 | In a group that is about silent every member gets the target. |
| GroupVolumes.BalanceIsKept | crates/play-on-air/src/bridge/volume.rs:65-83 | Two members that need not be louder than full keep the ratio of their levels. |
| GroupVolumes.GroupVolume.QueueLevel | crates/play-on-air/src/bridge/volume.rs:141-150 | The queue section replaces the target and starts a task exactly when none runs. |
| GroupVolumes.GroupVolume.TakeTarget | crates/play-on-air/src/bridge/volume.rs:160-175 | The apply section takes the target, or clears the running mark. |
| Names.AirplayNames | crates/play-on-air/src/names.rs:32-80 | The names are a function of the set of devices, configuration and Home names: not of the order of the devices nor of the order in which hash-map groups are visited. |
| Names.NamingIsUnique | crates/play-on-air/src/names.rs:28-30 | Two results for the same set of devices are the same map. |
| Names.KeysAndFixedNames | crates/play-on-air/src/names.rs:22-31 | The keys are exactly the devices not hidden; Home names and config renames come out verbatim, also after clash resolution. |
| Names.GivenNameIs | crates/play-on-air/src/names.rs:32-163 | Which name a device is given, in terms of the devices alone: its own if it is a Home name, a rename or no other device has it, else that with its model when the model tells it from the others of that name, else that with the shortest beginning of its id that does; and one that wants what another wants gets the shortest beginning of its id among all devices. |
| Names.ToldByModelIsNamed | crates/play-on-air/src/names.rs:98-118 | Of two devices of one name, one with a model that tells it from the other is called by that model, unless the other wants to be called so. |
| Names.IdSuffix | crates/play-on-air/src/names.rs:120-134 | The loop ends and finds the shortest prefix of at least four characters that no other id of the group starts with, or the whole id. |
| Names.SuffixIsShortest | crates/play-on-air/src/names.rs:120-134 | The suffix is the one beginning of the id with that property. |
| Names.DashesAndCaseDoNotCount | crates/play-on-air/src/names.rs:136-142 | Characters other than ASCII letters and digits do not count in an id, nor does case. |
| Names.SuffixesDiffer | crates/play-on-air/src/names.rs:120-134 | Ids whose alphanumerics differ get different suffixes. |
| Names.IdSuffixedRivalsDiffer | crates/play-on-air/src/names.rs:98-118 | Id-suffixed devices of one collision group get names that Bonjour tells apart. |
| Names.NamesDifferIff | crates/play-on-air/src/names.rs:144-163 | All names differ if and only if the Home names and renames do and no device falls back to a name by which another is called; both said in terms of names, models and ids. |
| Names.OrdinaryNamesDifferIff | crates/play-on-air/src/names.rs:144-163 | When no device is called, by its own name or that with its model, like a colliding one with its fallback suffix, only Home names and renames can be advertised twice. |
| Names.ReplacedIffTaken | crates/play-on-air/src/names.rs:146-163 | Which generated names fall back: exactly those of colliding devices that another device shows too, and never one id-suffixed name because of another. |
| Names.HomeNameCanClash | crates/play-on-air/src/names.rs:144-163 | The promise that every advertised name stays distinct is false: a Home name that looks like a generated one is advertised twice. |
| Names.ClashingDevices | crates/play-on-air/src/names.rs:144-163 | Three concrete devices for which it fails. |
| Names.Disambiguate | crates/play-on-air/src/names.rs:98-118 | Each auto-named member gets its model when that tells it apart, else its id suffix. |
| Names.ResolveSuffixClashes | crates/play-on-air/src/names.rs:146-163 | Generated names that another device has too fall back to the id suffix among all ids, and no other name changes. |
| TxtBlob.ParseUndoesJoin | crates/play-on-air/src/discover.rs:316-324 | Round trip: attributes with distinct plain keys and any values, escaped and joined with blanks, are parsed back exactly. |
| TxtBlob.SplitUndoesJoin | crates/play-on-air/src/discover.rs:326-349 | Splitting at unescaped whitespace gives back the joined parts. |
| TxtBlob.SplitKeepsEverything | crates/play-on-air/src/discover.rs:326-349 | Of any blob, well formed or not, splitting loses nothing but the unescaped whitespace. |
| TxtBlob.CollectedIff | crates/play-on-air/src/discover.rs:316-324 | For any parts: a key is found if and only if some part has it before its first equals sign, and its value is the unescaped rest of the last such part. |
| TxtBlob.LoneBackslashIsDropped | crates/play-on-air/src/discover.rs:351-365 | A backslash that nothing follows is dropped from a value. |
| TxtBlob.UnescapeUndoesEscape | crates/play-on-air/src/discover.rs:351-365 | Unescaping undoes escaping, for any value and any notion of whitespace. |
| TxtBlob.SplitTxtParts | crates/play-on-air/src/discover.rs:326-349 | The loop computes the specified parts. |
| TxtBlob.UnescapeDnsSd | crates/play-on-air/src/discover.rs:351-365 | The loop computes the specified value. |
| TxtBlob.ParseTxtBlob | crates/play-on-air/src/discover.rs:316-324 | The last of several parts with one key counts; a part without an equals sign is ignored. |

## Left out

- PausedSafety.PausedSessionIsBeingSilenced: keeps the exceptions it names; `Settling.PausedSettlesIff` says exactly when a paused session goes on playing.
- PausedSafety.ShortPausesSettleOnTheFlag: leaves out runs with re-LOAD steps, for which `Settling.ResumedSettlesIff` and `Settling.PausedSettlesIff` give the exact condition.
- Settling.EndsIff: the ways of finishing in which Cast accepts every command; what a failed command leads to is in the run theorems.
- TeardownJoins.FlacTeardownJoinsEveryLoad: FLAC sessions only; `TeardownJoins.MissedIffDropped` is for every session.
- Groups.AtMostOneFeeder: takes the end of a group and of its owner's session as one step.
- CastWorker.LossIsEvidenced: a worker operation is one step, so the bridge's stand-down mark falls before or after it, not inside an internal re-LOAD.
- GroupVolumes.MeanBecomesTargetIff: for levels that are not negative; Cast reports levels from 0 to 1.
- Session model: the teardown aborts and joins session tasks, watchdog and rollover in one phase; re-LOADs started by the stall watchdog, the WAV switch, group moves and media recovery are environment steps that may happen at any time; the `paused` field and its atomic mirror are one; transport tasks are not aborted by the teardown, they find the generation gone.
- Session model: a hand-over to another device's slot and a WAV switch that replaces the media server are not steps of one generation's model; hand-overs are in the group model.
- Device pauses: whether the Cast worker attributes a change to the user (`EchoTracker`), events of Cast groups, which the bridge ignores, and the commands and volume levels that are forwarded to the AirPlay sender.
- Receiver model: pause, resume, flush and now-playing events, and events for group followers.
- Groups: session host keys, `follow_session_endpoint`, receiver volume routing and the events that promotion queues; a promoted or redispatched member simply starts.
- Reconcile: what a plan sends and how Cast answers, beyond the member list.
- Cast worker: one clock reading per deadline; terminal failures, reconnect backoff, endpoint refresh, multizone requests and payloads; reconnecting is an answer of the environment.
- Command loop: shutdown, which drops the commands behind it, and a link that fails between two attempts because they were made one by one; metadata means the track of the worker's last LOAD.
- Names: trimming of models, the configuration lookup and the sort by id, which the result does not need.
- Sockets, TLS, relays, discovery processes, HTTP media serving, pairing, persistence, FLAC and WAV encoding, JSON payloads, artwork, command line and logging.
- AirPlay kicks and re-advertising, registry and maintenance loop: they would only add easy members.
- Liveness under timeouts, and any claim that a Cast device obeys a command.
