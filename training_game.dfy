/** TrainingGameManager: the event-driven controller of a training session.
    Each callback is a method that updates the manager's control fields and
    calls into its collaborators, and is proved to make exactly the transition
    that the matching function of module Staircase describes. The sentence is
    represented by a generation counter: createSentence increments it. */
module TrainingGame {
  import opened Stubs
  import Staircase

  class TrainingGameManager {
    const cfg: Staircase.Config

    const audio: AudioStub
    const selection: SelectionStub
    const rewardUi: RewardStub
    const results: ResultStub
    const store: UserStoreStub

    var database: Option<Voice>
    var sentence: nat

    var practiceMode: bool
    var practiceRounds: nat
    var roundsPlayed: nat
    var rewardCount: nat
    var repeatSentence: bool
    var hits: nat
    var misses: nat
    var rewards: nat

    /** SNR_values. Before OnStart allocates it the source has no array; an
        empty array stands for that, so every access before OnStart is out of
        range, as it would fail in the source. */
    var snrValues: array<real>

    ghost predicate Valid()
      reads this
    {
      roundsPlayed <= cfg.gameLength &&
      (rewardCount == 0 || rewardCount < cfg.rewardHits)
    }

    /** The manager's fields together with what its collaborators recorded. */
    ghost function Snap(): Staircase.State
      reads this, audio, selection, rewardUi, results, store, snrValues
    {
      Staircase.State(database, sentence, practiceMode, practiceRounds, roundsPlayed,
                      rewardCount, repeatSentence, hits, misses, rewards, snrValues[..],
                      audio.talkerVolume, audio.playCount, audio.targetSentence, audio.distracters,
                      audio.hitSounds, audio.missSounds, audio.rewardSounds,
                      selection.shown, selection.selections,
                      rewardUi.shown, results.last, results.showCount, store.entries)
    }

    /** The scene is loaded: field initialisers, collaborators in their
        initial state with the given talker volume. */
    constructor (cfg: Staircase.Config, volume: real)
      ensures Valid() && this.cfg == cfg
      ensures Snap() == Staircase.Initial(volume)
    {
      this.cfg := cfg;
      audio := new AudioStub(volume);
      selection := new SelectionStub();
      rewardUi := new RewardStub();
      results := new ResultStub();
      store := new UserStoreStub();
      database := None;
      sentence := 0;
      practiceMode := true;
      practiceRounds := 0;
      roundsPlayed := 0;
      rewardCount := 0;
      repeatSentence := false;
      hits, misses, rewards := 0, 0, 0;
      snrValues := new real[0];
    }

    method OnStart(voice: int)
      requires Valid()
      modifies this, audio, selection
      ensures Valid() && fresh(snrValues) && snrValues.Length == cfg.gameLength
      ensures Snap() == Staircase.OnStart(cfg, old(Snap()), voice)
    {
      database := Some(VoiceOf(voice));
      audio.SetDistracterSequences(VoiceOf(voice));
      snrValues := new real[cfg.gameLength](_ => 0.0);
      selection.ShowWordSelectionUI(false);
      sentence := sentence + 1;
      audio.SetTargetSentence(sentence);
      audio.StartPlaying();
      assert snrValues[..] == seq(cfg.gameLength, _ => 0.0);
    }

    /** Averages SNR_values[0..roundsPlayed) with the session's summing loop. */
    method SessionAverage() returns (average: Average)
      requires roundsPlayed <= snrValues.Length
      ensures average == Staircase.AverageOf(snrValues[..roundsPlayed])
    {
      var total := 0.0;
      var i := 0;
      while i < roundsPlayed
        invariant 0 <= i <= roundsPlayed
        invariant total == Staircase.Sum(snrValues[..i])
      {
        assert snrValues[..i + 1][..i] == snrValues[..i];
        total := total + snrValues[i];
        i := i + 1;
      }
      assert snrValues[..roundsPlayed] == snrValues[..i];
      average := if roundsPlayed == 0 then NoData else Mean(total / roundsPlayed as real);
    }

    method OnSessionDone()
      requires roundsPlayed <= snrValues.Length
      modifies results, store
      ensures Snap() == Staircase.OnSessionDone(old(Snap()))
    {
      var average := SessionAverage();
      results.SetTrainingGameResults(average, rewards, hits, misses, roundsPlayed);
      results.ShowResults();
      store.AddUserResults(average, rewards);
    }

    /** The audio manager reports that playback finished. `group` is the value
        Random.Range(0, targetSelectables.Length) draws. Drawing the words
        uses the database and sentence OnStart created (`database` is None
        while they are null). */
    method OnPlayingDone(group: int)
      requires Valid()
      requires repeatSentence || practiceMode || 1 <= roundsPlayed <= snrValues.Length
      requires !repeatSentence ==> 0 <= group < cfg.selectableGroups && database.Some?
      modifies selection, snrValues
      ensures Valid()
      ensures Snap() == Staircase.OnPlayingDone(cfg, old(Snap()), group)
    {
      if repeatSentence {
        selection.ShowWordSelectionUI(true);
        return;
      }
      if !practiceMode {
        var volume := audio.GetTalkerVolume();
        snrValues[roundsPlayed - 1] := volume;
      }
      selection.StartWordSelection(group, Staircase.SelectionOptions);
    }

    method OnHit()
      requires Valid()
      modifies this, audio, rewardUi
      ensures Valid()
      ensures Snap() == Staircase.OnHit(cfg, old(Snap()))
    {
      audio.PlayOnHit();
      repeatSentence := false;
      if practiceMode {
        audio.ChangeTalkerVolume(Staircase.PracticeHitStep);
        return;
      }
      audio.ChangeTalkerVolume(cfg.onHitSnr);
      hits := hits + 1;
      rewardCount := rewardCount + 1;
      if rewardCount >= cfg.rewardHits {
        audio.PlayOnReward();
        rewardUi.ShowReward(rewards);
        rewards := rewards + 1;
        rewardCount := 0;
      }
    }

    method OnMiss()
      requires Valid()
      modifies this, audio
      ensures Valid()
      ensures Snap() == Staircase.OnMiss(cfg, old(Snap()))
    {
      audio.PlayOnMiss();
      repeatSentence := false;
      if practiceMode {
        if practiceRounds >= cfg.minPracticeRounds {
          practiceMode := false;
        }
        return;
      }
      misses := misses + 1;
      audio.ChangeTalkerVolume(cfg.onMissSnr);
      rewardCount := 0;
    }

    method OnUnsure()
      requires Valid()
      modifies this, audio, selection
      ensures Valid()
      ensures Snap() == Staircase.OnUnsure(cfg, old(Snap()))
    {
      if practiceMode {
        if practiceRounds >= cfg.minPracticeRounds {
          practiceMode := false;
        }
      } else {
        audio.ChangeTalkerVolume(cfg.onUnsureSnr);
      }
      if !repeatSentence {
        repeatSentence := true;
        audio.StartPlaying();
        selection.ShowWordSelectionUI(false);
      } else {
        repeatSentence := false;
      }
    }

    method OnContinue()
      requires Valid()
      requires roundsPlayed >= cfg.gameLength ==> roundsPlayed <= snrValues.Length
      requires roundsPlayed < cfg.gameLength && !repeatSentence ==> database.Some?
      modifies this, audio, selection, results, store
      ensures Valid()
      ensures Snap() == Staircase.OnContinue(cfg, old(Snap()))
    {
      selection.ShowWordSelectionUI(false);
      if roundsPlayed >= cfg.gameLength {
        OnSessionDone();
        return;
      }
      if !repeatSentence {
        sentence := sentence + 1;
        audio.SetTargetSentence(sentence);
        if practiceMode {
          practiceRounds := practiceRounds + 1;
        } else {
          roundsPlayed := roundsPlayed + 1;
        }
      }
      audio.StartPlaying();
    }
  }
}
