/** DemoGameManager: the per-frame word player of the demo scene. Update is a
    method over the manager's fields, with the target AudioSource's isPlaying
    and the Space key as inputs, proved to step exactly as WordSequencer.Update. */
module DemoGame {
  import opened Stubs
  import WordSequencer

  class DemoGameManager {
    var wordIx: int
    var sentenceReady: bool
    var sceneEntered: bool
    /** The sentence object, as the number of sentences created so far. */
    var sentence: nat

    const targetSource: AudioSourceStub
    const sentenceUI: GameObjectStub
    const talkerObj: GameObjectStub
    const distractorObj: GameObjectStub

    ghost predicate Valid()
      reads this
    {
      0 <= wordIx <= WordSequencer.WordCount &&
      sentenceUI != talkerObj && sentenceUI != distractorObj && talkerObj != distractorObj
    }

    ghost function Snap(): WordSequencer.Scene
      reads this, targetSource, sentenceUI, talkerObj, distractorObj
    {
      WordSequencer.Scene(wordIx, sentenceReady, sceneEntered, sentence, targetSource.played,
                          sentenceUI.active, talkerObj.active, distractorObj.active)
    }

    /** The scene is loaded: field initialisers; the scene objects keep the
        visibility they were given. */
    constructor (uiActive: bool, talkerActive: bool, distractorActive: bool)
      ensures Valid()
      ensures Snap() == WordSequencer.Initial(uiActive, talkerActive, distractorActive)
    {
      wordIx := 0;
      sentenceReady := false;
      sceneEntered := false;
      sentence := 0;
      targetSource := new AudioSourceStub();
      sentenceUI := new GameObjectStub(uiActive);
      talkerObj := new GameObjectStub(talkerActive);
      distractorObj := new GameObjectStub(distractorActive);
    }

    method Start()
      requires Valid()
      modifies this, sentenceUI, talkerObj, distractorObj
      ensures Valid()
      ensures Snap() == WordSequencer.Start(old(Snap()))
    {
      sentenceUI.SetActive(false);
      ShowObjects(false);
    }

    method ShowObjects(show: bool)
      requires Valid()
      modifies this, talkerObj, distractorObj
      ensures Valid()
      ensures Snap() == WordSequencer.ShowObjects(old(Snap()), show)
    {
      talkerObj.SetActive(show);
      distractorObj.SetActive(show);
      sceneEntered := show;
    }

    method NextWordBtn()
      requires Valid()
      modifies sentenceUI
      ensures Valid()
      ensures Snap() == WordSequencer.NextWordBtn(old(Snap()))
    {
      sentenceUI.SetActive(false);
    }

    /** One frame. `isPlaying` is targetSource.isPlaying; `spacePressed` is
        whether Space went down this frame. */
    method Update(isPlaying: bool, spacePressed: bool)
      requires Valid()
      modifies this, targetSource, sentenceUI
      ensures Valid()
      ensures Snap() == WordSequencer.Update(old(Snap()), isPlaying, spacePressed)
    {
      if !sceneEntered {
        return;
      }
      if !isPlaying {
        if wordIx < WordSequencer.WordCount && sentenceReady {
          targetSource.PlayOneShot(Clip(sentence, wordIx));
          wordIx := wordIx + 1;
        } else if sentenceReady {
          sentenceReady := false;
          sentenceUI.SetActive(true);
        } else if spacePressed {
          sentence := sentence + 1;
          wordIx := 0;
          sentenceReady := true;
        }
      }
    }
  }
}
