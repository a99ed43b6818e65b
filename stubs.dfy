/** Observable stand-ins for the collaborators the two game managers call into.
    Each stub keeps only what a caller can observe: a value, a counter of calls,
    or the last thing handed to it. Audio playback, UI widgets, sprites and the
    persistent user profile are not modelled beyond these records. */
module Stubs {

  datatype Option<T> = None | Some(value: T)

  /** The two target voices; voice id 0 selects the male database and
      distracter stories, every other id the female ones. */
  datatype Voice = Male | Female

  function VoiceOf(voice: int): (v: Voice)
    ensures v == Male <==> voice == 0
  {
    if voice == 0 then Male else Female
  }

  /** The session's average SNR. The source divides a float sum by the number
      of rounds; with zero rounds that is 0/0, a NaN, which is modelled as an
      explicit "no data" value. */
  datatype Average = NoData | Mean(value: real)

  /** The tuple handed to the result screen. */
  datatype SessionResult = SessionResult(average: Average, rewards: nat, hits: nat, misses: nat, roundsPlayed: nat)

  /** One entry of the user's stored training history. */
  datatype UserEntry = UserEntry(average: Average, rewards: nat)

  /** One request for a word selection: the selectable group that was drawn and
      how many options (correct word plus distractors) were asked for. */
  datatype Selection = Selection(group: int, options: nat)

  /** Training-game audio: talker volume (dB offset, exact), how often playback
      was (re)started, which generated sentence is loaded, which distracter
      stories are set, and how many feedback sounds were played. */
  class AudioStub {
    var talkerVolume: real
    var playCount: nat
    var targetSentence: nat
    var distracters: Option<Voice>
    var hitSounds: nat
    var missSounds: nat
    var rewardSounds: nat

    constructor (volume: real)
      ensures talkerVolume == volume && playCount == 0 && targetSentence == 0
      ensures distracters == None && hitSounds == 0 && missSounds == 0 && rewardSounds == 0
    {
      talkerVolume := volume;
      playCount := 0;
      targetSentence := 0;
      distracters := None;
      hitSounds, missSounds, rewardSounds := 0, 0, 0;
    }

    method StartPlaying()
      modifies this
      ensures playCount == old(playCount) + 1
      ensures talkerVolume == old(talkerVolume) && targetSentence == old(targetSentence)
      ensures distracters == old(distracters)
      ensures hitSounds == old(hitSounds) && missSounds == old(missSounds) && rewardSounds == old(rewardSounds)
    {
      playCount := playCount + 1;
    }

    method SetTargetSentence(sentence: nat)
      modifies this
      ensures targetSentence == sentence
      ensures talkerVolume == old(talkerVolume) && playCount == old(playCount)
      ensures distracters == old(distracters)
      ensures hitSounds == old(hitSounds) && missSounds == old(missSounds) && rewardSounds == old(rewardSounds)
    {
      targetSentence := sentence;
    }

    method SetDistracterSequences(voice: Voice)
      modifies this
      ensures distracters == Some(voice)
      ensures talkerVolume == old(talkerVolume) && playCount == old(playCount)
      ensures targetSentence == old(targetSentence)
      ensures hitSounds == old(hitSounds) && missSounds == old(missSounds) && rewardSounds == old(rewardSounds)
    {
      distracters := Some(voice);
    }

    method ChangeTalkerVolume(delta: real)
      modifies this
      ensures talkerVolume == old(talkerVolume) + delta
      ensures playCount == old(playCount) && targetSentence == old(targetSentence)
      ensures distracters == old(distracters)
      ensures hitSounds == old(hitSounds) && missSounds == old(missSounds) && rewardSounds == old(rewardSounds)
    {
      talkerVolume := talkerVolume + delta;
    }

    method GetTalkerVolume() returns (v: real)
      ensures v == talkerVolume
    {
      v := talkerVolume;
    }

    method PlayOnHit()
      modifies this
      ensures hitSounds == old(hitSounds) + 1
      ensures talkerVolume == old(talkerVolume) && playCount == old(playCount)
      ensures targetSentence == old(targetSentence) && distracters == old(distracters)
      ensures missSounds == old(missSounds) && rewardSounds == old(rewardSounds)
    {
      hitSounds := hitSounds + 1;
    }

    method PlayOnMiss()
      modifies this
      ensures missSounds == old(missSounds) + 1
      ensures talkerVolume == old(talkerVolume) && playCount == old(playCount)
      ensures targetSentence == old(targetSentence) && distracters == old(distracters)
      ensures hitSounds == old(hitSounds) && rewardSounds == old(rewardSounds)
    {
      missSounds := missSounds + 1;
    }

    method PlayOnReward()
      modifies this
      ensures rewardSounds == old(rewardSounds) + 1
      ensures talkerVolume == old(talkerVolume) && playCount == old(playCount)
      ensures targetSentence == old(targetSentence) && distracters == old(distracters)
      ensures hitSounds == old(hitSounds) && missSounds == old(missSounds)
    {
      rewardSounds := rewardSounds + 1;
    }
  }

  /** The word-selection UI: whether it is shown, and the selections started. */
  class SelectionStub {
    var shown: bool
    var selections: seq<Selection>

    constructor ()
      ensures !shown && selections == []
    {
      shown := false;
      selections := [];
    }

    method ShowWordSelectionUI(show: bool)
      modifies this
      ensures shown == show && selections == old(selections)
    {
      shown := show;
    }

    /** Starting a selection lays out the words and shows the UI. */
    method StartWordSelection(group: int, options: nat)
      modifies this
      ensures selections == old(selections) + [Selection(group, options)]
      ensures shown
    {
      selections := selections + [Selection(group, options)];
      shown := true;
    }
  }

  /** The reward presenter: the ordinals of the rewards shown, in order. */
  class RewardStub {
    var shown: seq<nat>

    constructor ()
      ensures shown == []
    {
      shown := [];
    }

    method ShowReward(ordinal: nat)
      modifies this
      ensures shown == old(shown) + [ordinal]
    {
      shown := shown + [ordinal];
    }
  }

  /** The result screen: the last results stored and how often it was shown. */
  class ResultStub {
    var last: Option<SessionResult>
    var showCount: nat

    constructor ()
      ensures last == None && showCount == 0
    {
      last := None;
      showCount := 0;
    }

    method SetTrainingGameResults(average: Average, rewards: nat, hits: nat, misses: nat, roundsPlayed: nat)
      modifies this
      ensures last == Some(SessionResult(average, rewards, hits, misses, roundsPlayed))
      ensures showCount == old(showCount)
    {
      last := Some(SessionResult(average, rewards, hits, misses, roundsPlayed));
    }

    method ShowResults()
      modifies this
      ensures showCount == old(showCount) + 1 && last == old(last)
    {
      showCount := showCount + 1;
    }
  }

  /** The user-management store: the sequence of results added to the profile. */
  class UserStoreStub {
    var entries: seq<UserEntry>

    constructor ()
      ensures entries == []
    {
      entries := [];
    }

    method AddUserResults(average: Average, rewards: nat)
      modifies this
      ensures entries == old(entries) + [UserEntry(average, rewards)]
    {
      entries := entries + [UserEntry(average, rewards)];
    }
  }

  /** A Unity game object whose only modelled property is SetActive. */
  class GameObjectStub {
    var active: bool

    constructor (initiallyActive: bool)
      ensures active == initiallyActive
    {
      active := initiallyActive;
    }

    method SetActive(value: bool)
      modifies this
      ensures active == value
    {
      active := value;
    }
  }

  /** The demo's target AudioSource: the clips played, in order, each
      identified by the generated sentence it belongs to and its word slot. */
  datatype Clip = Clip(sentence: nat, word: nat)

  class AudioSourceStub {
    var played: seq<Clip>

    constructor ()
      ensures played == []
    {
      played := [];
    }

    method PlayOneShot(clip: Clip)
      modifies this
      ensures played == old(played) + [clip]
    {
      played := played + [clip];
    }
  }
}
