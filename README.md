# Speech-in-noise training game: session controller and word player

This project models, in Dafny, the two state machines at the core of a VR
speech-in-noise training game built on the LiSN paradigm.

- **The training-session controller** (`TrainingGameManager`). It runs an
  adaptive SNR staircase. A talker sentence plays against distracter
  stories, and the trainee picks the word they heard. A hit lowers the talker
  volume. In main mode, a miss or "unsure" raises it; in practice mode they
  leave it alone. The controller also tracks:
  - practice rounds and the exit from practice mode;
  - the reward streak;
  - the "repeat once on unsure" flag;
  - the per-round SNR record, and the session average it reports at the end.
- **The demo word player** (`DemoGameManager.Update`). This frame-stepped
  sequencer plays a generated sentence one word per idle frame. After the
  last word it opens the sentence UI, and it waits for Space before it
  creates the next sentence.

Files:

- `stubs.dfy`, module `Stubs`: observable stand-ins for the collaborators.
  - The audio manager records talker volume, playback starts, the loaded
    sentence, the distracter voice and the feedback sounds.
  - The word-selection UI records whether it is shown and each selection it
    was asked to start.
  - The reward screen records the ordinals it showed.
  - The result screen records the last summary it was given and how often it
    was shown.
  - The user store records its `(average, rewards)` entries.
  - For the demo, there is a game object with `SetActive` and an audio
    source that records the clips it played.
- `staircase.dfy`, module `Staircase`: the controller as a function per
  callback on a value `State`. `State` holds the manager's fields plus what
  the collaborators have recorded. Lemmas cover single events and event
  sequences (`Exec`).
- `training_game.dfy`, module `TrainingGame`: class `TrainingGameManager`.
  Each callback is a method that updates the fields and calls the stubs. It
  is proved to make exactly the transition of its `Staircase` function
  (`Snap() == Staircase.OnX(cfg, old(Snap()))`). `SNR_values` is an
  `array<real>` written in place, and the session average is computed with
  the source's summing loop.
- `word_sequencer.dfy`, module `WordSequencer`: `Update` as a function on a
  `Scene` value, with lemmas over runs of frames, next-word button presses
  and `showObjects` calls.
- `demo_game.dfy`, module `DemoGame`: class `DemoGameManager`. Its methods are
  proved to step exactly as `WordSequencer`.

How the source's terms are represented:

- **Talker volume** is an exact `real`, in dB.
- **The sentence** is a generation counter. `createSentence` increments it,
  so "no new sentence was generated" is a statement about that counter.
- **`Random.Range(0, targetSelectables.Length)`** is the `group` parameter of
  `OnPlayingDone`. It is required to lie in that range only when the
  sentence is not being repeated, since a repeat draws no group.
- **`sent` and `lisnData`** are null until `OnStart` creates them. In the
  model, `database` is `None` until then.
- **The session average** is `NoData` when no round was played. The source's
  float division yields NaN there.
- **`targetSource.isPlaying` and `Input.GetKeyDown(KeyCode.Space)`** are the
  two inputs of `Update`.

Behaviour of the code that the model keeps as written:

- `OnPlayingDone` does not clear the repeat flag.
- `OnUnsure` in practice mode applies the same practice-exit test as
  `OnMiss`.
- The SNR of a round is written at `roundsPlayed-1`.
- A handler faults in two ways, and both are preconditions of the handler.
  `Staircase.Enabled` collects them, and `Staircase.Exec` reports a
  violation as `Threw`.
  - An out-of-range `SNR_values` access.
  - Use of `sent` or `lisnData` before `OnStart` creates them. A non-repeat
    `OnPlayingDone` (line 174) and a non-final, non-repeat `OnContinue`
    (line 298) dereference them.
- A session of zero rounds is not guarded: it yields the "no data" average.

The order in which the collaborators deliver callbacks is `Staircase.Allowed`:

- The voice arrives once, before any other callback.
- A started playback is followed by its playing-done callback and nothing
  else. The selection UI is hidden while a sentence plays (lines 114, 275,
  287).
- Hit, miss, unsure and continue arrive only while no playback is pending.

## Model

| member | source | states |
|---|---|---|
| Stubs.VoiceOf | Assets/MyAssets/Scripts/TrainingGame/TrainingGameManager.cs:95-105 | voice id 0 selects the male database and distracter stories, every other id the female ones |
| Staircase.Initial | Assets/MyAssets/Scripts/TrainingGame/TrainingGameManager.cs:50-68 | a session starts in practice mode with every counter at 0, no repeat pending and no SNR array |
| Staircase.AverageOf | Assets/MyAssets/Scripts/TrainingGame/TrainingGameManager.cs:131-136 | the average is "no data" exactly when no round was recorded, otherwise the sum divided by the count |
| Staircase.MeanWithin | Assets/MyAssets/Scripts/TrainingGame/TrainingGameManager.cs:131-136 | the session average lies between the smallest and the largest recorded SNR |
| Staircase.MeanOfConstant | Assets/MyAssets/Scripts/TrainingGame/TrainingGameManager.cs:131-136 | a session whose every recorded SNR is v averages to exactly v |
| Staircase.OnStart | Assets/MyAssets/Scripts/TrainingGame/TrainingGameManager.cs:88-124 | OnStart picks the voice's database and distracters, allocates a zeroed SNR array of gameLength entries, hides the UI, generates and loads a new sentence, starts playback once, and leaves mode and counters alone |
| Staircase.OnPlayingDone | Assets/MyAssets/Scripts/TrainingGame/TrainingGameManager.cs:149-179 | the UI is shown afterwards in both branches; with the repeat flag set there is no SNR write and no selection, and the flag stays set; otherwise it starts one selection of 4 options for the drawn group, writes the talker volume at roundsPlayed-1 in main mode and records nothing in practice, and needs the database OnStart created; no counter moves |
| Staircase.OnHit | Assets/MyAssets/Scripts/TrainingGame/TrainingGameManager.cs:184-214 | a hit clears the repeat flag and never ends practice; in practice it changes volume by exactly -3.0 and leaves hits, streak and rewards alone; in main mode it adds onHit_SNR and counts the hit, and a streak reaching rewardHits shows the pre-increment ordinal, increments rewards and resets the streak to 0 |
| Staircase.OnMiss | Assets/MyAssets/Scripts/TrainingGame/TrainingGameManager.cs:218-245 | a miss clears the repeat flag; in practice it changes no volume and leaves practice iff practiceRounds >= min_practiceRounds; in main mode it counts the miss, adds onMiss_SNR and resets the streak to 0 |
| Staircase.OnUnsure | Assets/MyAssets/Scripts/TrainingGame/TrainingGameManager.cs:247-282 | unsure toggles the repeat flag: from false it replays the same sentence and hides the UI, from true it does neither; volume changes by onUnsure_SNR only in main mode; practice ends iff practiceRounds >= min_practiceRounds |
| Staircase.OnSessionDone | Assets/MyAssets/Scripts/TrainingGame/TrainingGameManager.cs:126-144 | the result screen gets (average of SNR_values[0..roundsPlayed), rewards, hits, misses, roundsPlayed) and is shown once; the user store gets (average, rewards) appended |
| Staircase.OnContinue | Assets/MyAssets/Scripts/TrainingGame/TrainingGameManager.cs:284-319 | continue hides the UI; once roundsPlayed >= gameLength it does not replay, hands the summary to the result screen, shows it once and appends (average, rewards) to the user store once; otherwise, without a pending repeat, it needs the database, generates and loads one new sentence and counts exactly one practice or main round, and it always restarts playback; a non-final continue leaves the repeat flag, the streak, hits, misses, rewards, the talker volume, the result screen, the user store and the selections alone; roundsPlayed <= gameLength is kept |
| Staircase.StartEstablishesInv | Assets/MyAssets/Scripts/TrainingGame/TrainingGameManager.cs:88-124 | after OnStart on a freshly loaded scene the session invariant holds and the next playing-done callback is safe |
| Staircase.StepKeepsInv | Assets/MyAssets/Scripts/TrainingGame/TrainingGameManager.cs:149-319 | every callback keeps roundsPlayed <= gameLength, the SNR array's length, and a streak below the reward threshold; only OnStart sets the database |
| Staircase.CallbacksBeforeStartFault | Assets/MyAssets/Scripts/TrainingGame/TrainingGameManager.cs:174 | on the loaded scene, before OnStart, a playing-done callback faults (it dereferences the database here), and a continue faults exactly when gameLength > 0 (it generates a sentence, line 298) |
| Staircase.StepStoresOnlyAtSessionEnd | Assets/MyAssets/Scripts/TrainingGame/TrainingGameManager.cs:126-144 | the user store gains exactly one (average, rewards) entry and the results are shown once at the continue that ends the session; every other callback leaves the store, the result and its show count alone |
| Staircase.PracticeExit | Assets/MyAssets/Scripts/TrainingGame/TrainingGameManager.cs:218-258 | practice mode is left by an event iff it is a Miss or an Unsure with practiceRounds >= min_practiceRounds, and is never re-entered |
| Staircase.PlaybackStartsInBounds | Assets/MyAssets/Scripts/TrainingGame/TrainingGameManager.cs:167-171 | after any callback that starts playback, the next playing-done callback writes SNR_values[roundsPlayed-1] inside [0, gameLength), or writes nothing |
| Staircase.StepKeepsRecorded | Assets/MyAssets/Scripts/TrainingGame/TrainingGameManager.cs:167-171 | each callback keeps the stored volumes filling SNR_values from the front, one per counted main round, except a round whose playback is still pending |
| Staircase.ExecAppend | Assets/MyAssets/Scripts/TrainingGame/TrainingGameManager.cs:88-319 | running one more callback after a run continues from the state the run completed in |
| Staircase.ProtocolNeverThrows | Assets/MyAssets/Scripts/TrainingGame/TrainingGameManager.cs:149-319 | once the voice is chosen, no protocol-conforming event sequence makes a callback fault, and the session invariant holds at the end |
| Staircase.SessionNeverThrows | Assets/MyAssets/Scripts/TrainingGame/TrainingGameManager.cs:88-319 | from the loaded scene, any event sequence is either rejected by the protocol or runs without a fault with roundsPlayed <= gameLength; a first event other than the voice is rejected, and the voice's event runs OnStart |
| Staircase.RunKeepsRecorded | Assets/MyAssets/Scripts/TrainingGame/TrainingGameManager.cs:149-319 | over any protocol-conforming run after the voice is chosen, the stored volumes keep filling SNR_values from the front, one per counted main round |
| Staircase.SnrHoldsRecordings | Assets/MyAssets/Scripts/TrainingGame/TrainingGameManager.cs:167-171 | over a whole session, the front of SNR_values is exactly the talker volumes stored by main-mode, non-repeat playing-done callbacks, in order, one per counted main round (the round still playing excepted) |
| Staircase.ReportedAverageIsMeanOfRecordings | Assets/MyAssets/Scripts/TrainingGame/TrainingGameManager.cs:126-144 | when gameLength rounds were counted and no playback is pending, the final continue reports the mean of exactly the gameLength stored volumes, over gameLength rounds, with the session's rewards; it shows the results once and appends (that mean, rewards) to the user store once |
| Staircase.MainModeIsFinal | Assets/MyAssets/Scripts/TrainingGame/TrainingGameManager.cs:218-319 | over any event sequence, main mode never returns to practice, and the round, hit, miss, reward and sentence counters never decrease |
| Staircase.StreakBelowThreshold | Assets/MyAssets/Scripts/TrainingGame/TrainingGameManager.cs:198-212 | k main-mode hits below the threshold extend the streak by k, count k hits, show no reward and lower the volume by k times onHit_SNR |
| Staircase.StreakPaysOut | Assets/MyAssets/Scripts/TrainingGame/TrainingGameManager.cs:205-212 | the hit that brings the streak to rewardHits shows exactly one reward, with the ordinal rewards had before, and resets the streak to 0 |
| Staircase.StreakAcrossRounds | Assets/MyAssets/Scripts/TrainingGame/TrainingGameManager.cs:198-212 | a streak builds across rounds: a hit in each of k+1 consecutive main rounds (hit, next sentence, its playing-done) reaching rewardHits shows exactly one reward with the old ordinal, counts k+1 hits and k rounds, and resets the streak |
| Staircase.DoubleUnsureRepeatsOnce | Assets/MyAssets/Scripts/TrainingGame/TrainingGameManager.cs:266-280 | Unsure, replay done, Unsure replays exactly once, draws no group, generates no sentence, starts no selection and clears the flag, so the following Continue generates a new sentence |
| Staircase.SampleSession | Assets/MyAssets/Scripts/TrainingGame/TrainingGameManager.cs:88-319 | a concrete session from the loaded scene: the voice, a practice miss, then two main hits whose volumes 0 and -1.5 dB are the session's recordings, earns reward 0 and reports average -0.75 over 2 rounds with 2 hits and 0 misses |
| TrainingGame.TrainingGameManager.constructor | Assets/MyAssets/Scripts/TrainingGame/TrainingGameManager.cs:50-68 | the fields start as initialised in the source, and SNR_values is not yet allocated (empty) |
| TrainingGame.TrainingGameManager.OnStart | Assets/MyAssets/Scripts/TrainingGame/TrainingGameManager.cs:88-124 | makes exactly the Staircase.OnStart transition; SNR_values is a fresh array of gameLength entries |
| TrainingGame.TrainingGameManager.SessionAverage | Assets/MyAssets/Scripts/TrainingGame/TrainingGameManager.cs:130-136 | the summing loop over SNR_values[0..roundsPlayed) yields the mean of exactly those entries, or no data for zero rounds |
| TrainingGame.TrainingGameManager.OnSessionDone | Assets/MyAssets/Scripts/TrainingGame/TrainingGameManager.cs:126-144 | makes exactly the Staircase.OnSessionDone transition |
| TrainingGame.TrainingGameManager.OnPlayingDone | Assets/MyAssets/Scripts/TrainingGame/TrainingGameManager.cs:149-179 | makes exactly the Staircase.OnPlayingDone transition, writing SNR_values in place |
| TrainingGame.TrainingGameManager.OnHit | Assets/MyAssets/Scripts/TrainingGame/TrainingGameManager.cs:184-214 | makes exactly the Staircase.OnHit transition |
| TrainingGame.TrainingGameManager.OnMiss | Assets/MyAssets/Scripts/TrainingGame/TrainingGameManager.cs:218-245 | makes exactly the Staircase.OnMiss transition |
| TrainingGame.TrainingGameManager.OnUnsure | Assets/MyAssets/Scripts/TrainingGame/TrainingGameManager.cs:247-282 | makes exactly the Staircase.OnUnsure transition |
| TrainingGame.TrainingGameManager.OnContinue | Assets/MyAssets/Scripts/TrainingGame/TrainingGameManager.cs:284-319 | makes exactly the Staircase.OnContinue transition and keeps roundsPlayed <= gameLength |
| WordSequencer.Initial | Assets/MyAssets/Scripts/DemoGameManager.cs:19-25 | the player starts at word 0 with no sentence pending, outside the scene, having played nothing |
| WordSequencer.ShowObjects | Assets/MyAssets/Scripts/DemoGameManager.cs:213-218 | showObjects(show) sets talker and distractor visibility and sceneEntered to show, and nothing else |
| WordSequencer.Start | Assets/MyAssets/Scripts/DemoGameManager.cs:35-46 | Start hides the sentence UI, the talker and the distractor and leaves the scene, without touching the word sequencing |
| WordSequencer.NextWordBtn | Assets/MyAssets/Scripts/DemoGameManager.cs:175-179 | the next-word button only hides the sentence UI |
| WordSequencer.Update | Assets/MyAssets/Scripts/DemoGameManager.cs:49-79 | a frame changes nothing outside the scene or while the source plays; it plays at most the clip of word wordIx of the current sentence and then increments wordIx by exactly 1; a new sentence comes only from Space with none pending and resets wordIx to 0; sentenceReady is cleared exactly when an idle frame in the scene finds wordIx == wordCount, and that frame shows the UI without playing; 0 <= wordIx <= wordCount is kept |
| WordSequencer.StartLeavesSceneIdle | Assets/MyAssets/Scripts/DemoGameManager.cs:35-46 | after Start on the loaded scene no sentence is pending, the UI is hidden and the scene not entered; showObjects(true) enters it |
| WordSequencer.Run | Assets/MyAssets/Scripts/DemoGameManager.cs:20-22 | over any run of frames, next-word presses and showObjects calls, 0 <= wordIx <= wordCount holds |
| WordSequencer.IdleFramesPlayWords | Assets/MyAssets/Scripts/DemoGameManager.cs:58-61 | while a sentence is pending, k idle frames play its next k words in order, one per frame, and change nothing else |
| WordSequencer.SentenceThenUi | Assets/MyAssets/Scripts/DemoGameManager.cs:58-77 | Space with no sentence pending, then idle frames: the new sentence's words 0..wordCount-1 are played in order, each once, and the next frame opens the UI |
| WordSequencer.UpdateKeepsSequenced | Assets/MyAssets/Scripts/DemoGameManager.cs:58-77 | each frame keeps "the current sentence's words played so far are exactly 0..wordIx-1, and no clip belongs to a later sentence" |
| WordSequencer.ActKeepsSequenced | Assets/MyAssets/Scripts/DemoGameManager.cs:49-79 | frames, the next-word button and showObjects all keep that invariant |
| WordSequencer.RunKeepsSequenced | Assets/MyAssets/Scripts/DemoGameManager.cs:49-79 | the same holds after any run of frames, button presses and showObjects calls |
| WordSequencer.UiOpensOnlyAfterWholeSentence | Assets/MyAssets/Scripts/DemoGameManager.cs:63-70 | from the loaded scene after Start, on any run of frames, button presses and showObjects calls, every frame that takes the UI-opening branch (it clears sentenceReady) finds every word 0..wordCount-1 of the current sentence played exactly once, in order, and shows the UI; this covers every opening, not only the first |
| WordSequencer.UiCanOpen | Assets/MyAssets/Scripts/DemoGameManager.cs:58-70 | entering the scene, pressing Space and letting the sentence play reaches the UI-opening frame; the button, Space and the next sentence reach it again |
| DemoGame.DemoGameManager.constructor | Assets/MyAssets/Scripts/DemoGameManager.cs:19-25 | the fields start as initialised in the source |
| DemoGame.DemoGameManager.Start | Assets/MyAssets/Scripts/DemoGameManager.cs:35-46 | makes exactly the WordSequencer.Start step |
| DemoGame.DemoGameManager.ShowObjects | Assets/MyAssets/Scripts/DemoGameManager.cs:213-218 | makes exactly the WordSequencer.ShowObjects step |
| DemoGame.DemoGameManager.NextWordBtn | Assets/MyAssets/Scripts/DemoGameManager.cs:175-179 | makes exactly the WordSequencer.NextWordBtn step |
| DemoGame.DemoGameManager.Update | Assets/MyAssets/Scripts/DemoGameManager.cs:49-79 | makes exactly the WordSequencer.Update frame, keeping 0 <= wordIx <= wordCount |

## Left out

- `TrainingGameManager.Start` (Unity lifecycle) is left out. It only wires
  the callbacks, shows the settings panel and places the level objects. The
  event protocol in `Staircase.Allowed` stands in for the wiring.
- `LevelObjectManager`, `MainMenu`, `GameMangerScript` and `SceneManagement`
  are not part of this model. They are transforms, menus and scene
  lifecycle.
- `LiSN_database`, `Sentence.createSentence`, `getSelectableWords` and
  `getSelectableWordIndex` are not part of this model. Their internals are
  not available. Creating a sentence is a generation counter. A word
  selection is recorded as its group and option count, not its words and
  icons.
- The internals of `TrainingGameAudioManager` are not part of this model.
  - `changeTalkerVolume` is taken to add its argument exactly, with no
    clamping.
  - `startWordSelection` is taken to show the selection UI, as the comment
    at line 176 says.
  - `isPlaying` is an input of the demo's `Update`, not derived from the
    clips played.
- Staircase.OnHit, Staircase.OnMiss, Staircase.OnUnsure: talker volume is an
  exact real. The single-precision float rounding of the volume and of the
  sum in `OnSessionDone` is not modelled.
- Staircase.OnSessionDone: the NaN of a zero-round average is the explicit
  `NoData` value rather than float semantics.
- Counters are unbounded naturals. 32-bit overflow of `hits`, `rounds` and
  the other counters is not modelled.
- `Debug.Log` calls are not modelled.
- In `DemoGameManager`, these parts are left out:
  - `setObjectPositions`: vector arithmetic on transforms.
  - `getUserWordSelection`: depends on the unavailable database. Its
    `CopyTo` at line 165 copies from the result into the database's array,
    so it does not select distractors.
  - The commented-out `getFalseWordsFromGroup`.
  - `getCurrentSentence`: a string accessor on the unavailable `Sentence`.
  - The empty `loadSameVoice` and `loadDifferentVoice`.
  - The unused fields `clipCount` and `sentenceAudio`.
  - `lisnData` is abstracted together with `createSentence`, which takes it
    (line 74). A new sentence is the next value of the generation counter.
- Staircase.ProtocolNeverThrows and Staircase.SessionNeverThrows cover only
  the callback order of `Staircase.Allowed`. Other interleavings are reported
  as `OutOfProtocol` and not analysed further. The selection UI's own source
  is not part of this model, so that order cannot be derived from it.
- Staircase.Allowed: a session whose `targetSelectables` is empty
  (`selectableGroups == 0`) is not analysed. There `Random.Range(0, 0)`
  yields 0, and what `getSelectableWordIndex(0)` and `getSelectableWords`
  then do (line 174) depends on `Sentence` and `LiSN_database`, which are not
  part of this model. `Allowed` rejects every non-repeat playing-done as out of
  protocol in that configuration.
- Staircase.Config: `gameLength` is a natural number. A negative serialized
  `gameLength` makes `new float[gameLength]` throw inside `OnStart`
  (line 111). That case is not modelled.
