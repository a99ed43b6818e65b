/** The frame-stepped word player of DemoGameManager as a state machine on
    values. Each frame either does nothing (scene not entered, or the target
    source still playing), plays the next word of the current sentence, opens
    the sentence UI after the last word, or, when Space is pressed with no
    sentence pending, generates a new sentence. The class in demo_game.dfy is
    proved to make exactly these steps. */
module WordSequencer {
  import opened Stubs

  /** Words per sentence (the manager's wordCount; it is never reassigned). */
  const WordCount: nat := 6

  /** The manager's fields, the clips the target source played, and the
      visibility of the sentence UI and of the talker and distractor objects.
      `sentence` counts the sentences generated so far. */
  datatype Scene = Scene(
    wordIx: int,
    sentenceReady: bool,
    sceneEntered: bool,
    sentence: nat,
    played: seq<Clip>,
    uiActive: bool,
    talkerActive: bool,
    distractorActive: bool)

  /** The field initialisers, with the scene objects as the scene had them. */
  function Initial(uiActive: bool, talkerActive: bool, distractorActive: bool): (s: Scene)
    ensures s.wordIx == 0 && !s.sentenceReady && !s.sceneEntered && s.played == []
  {
    Scene(0, false, false, 0, [], uiActive, talkerActive, distractorActive)
  }

  /** The invariant on the word index: 0 <= wordIx <= wordCount. */
  predicate InRange(s: Scene)
  {
    0 <= s.wordIx <= WordCount
  }

  /** showObjects: show or hide talker and distractor and mark the scene as
      entered or left. */
  function ShowObjects(s: Scene, show: bool): (r: Scene)
    ensures r.sceneEntered == show && r.talkerActive == show && r.distractorActive == show
    ensures r.wordIx == s.wordIx && r.sentenceReady == s.sentenceReady && r.sentence == s.sentence
    ensures r.played == s.played && r.uiActive == s.uiActive
  {
    s.(talkerActive := show, distractorActive := show, sceneEntered := show)
  }

  /** Start: hide the sentence UI and leave the scene. */
  function Start(s: Scene): (r: Scene)
    ensures !r.uiActive && !r.sceneEntered && !r.talkerActive && !r.distractorActive
    ensures r.wordIx == s.wordIx && r.sentenceReady == s.sentenceReady && r.sentence == s.sentence
    ensures r.played == s.played
  {
    ShowObjects(s.(uiActive := false), false)
  }

  /** The "next word" button hides the sentence UI. */
  function NextWordBtn(s: Scene): (r: Scene)
    ensures !r.uiActive && r == s.(uiActive := false)
  {
    s.(uiActive := false)
  }

  /** One frame of Update. */
  function Update(s: Scene, isPlaying: bool, spacePressed: bool): (r: Scene)
    requires InRange(s)
    ensures InRange(r)
    ensures !s.sceneEntered || isPlaying ==> r == s
    ensures r.sceneEntered == s.sceneEntered && r.talkerActive == s.talkerActive
    ensures r.distractorActive == s.distractorActive
    ensures r.played == s.played ||
      (s.sentenceReady && s.wordIx < WordCount &&
       r.played == s.played + [Clip(s.sentence, s.wordIx)] && r.wordIx == s.wordIx + 1 &&
       r.sentence == s.sentence && r.sentenceReady && r.uiActive == s.uiActive)
    ensures r.sentence != s.sentence ==>
      !s.sentenceReady && spacePressed && r.sentence == s.sentence + 1 &&
      r.wordIx == 0 && r.sentenceReady && r.played == s.played
    ensures r.sentence == s.sentence && r.wordIx != s.wordIx ==> r.wordIx == s.wordIx + 1
    ensures r.uiActive != s.uiActive ==>
      !s.uiActive && s.sentenceReady && s.wordIx == WordCount && !r.sentenceReady &&
      r.played == s.played && r.wordIx == s.wordIx
    ensures s.sentenceReady && !r.sentenceReady <==>
      s.sceneEntered && !isPlaying && s.sentenceReady && s.wordIx == WordCount
    ensures s.sentenceReady && !r.sentenceReady ==> r.uiActive && r.played == s.played
  {
    if !s.sceneEntered || isPlaying then
      s
    else if s.wordIx < WordCount && s.sentenceReady then
      s.(played := s.played + [Clip(s.sentence, s.wordIx)], wordIx := s.wordIx + 1)
    else if s.sentenceReady then
      s.(sentenceReady := false, uiActive := true)
    else if spacePressed then
      s.(sentence := s.sentence + 1, wordIx := 0, sentenceReady := true)
    else
      s
  }

  /** Start from the loaded scene: no sentence pending, UI hidden, scene not
      entered; entering it is showObjects(true). */
  lemma StartLeavesSceneIdle(ui: bool, talker: bool, distractor: bool)
    ensures var s := Start(Initial(ui, talker, distractor));
      !s.sentenceReady && !s.uiActive && !s.sceneEntered && s.wordIx == 0 && InRange(s)
    ensures ShowObjects(Start(Initial(ui, talker, distractor)), true).sceneEntered
  {
  }

  // ---------------------------------------------------------------- runs

  /** What can happen to the scene after Start: a frame of Update with its two
      inputs, the "next word" button, or showObjects. */
  datatype Action = Frame(isPlaying: bool, spacePressed: bool) | NextWord | ShowScene(show: bool)

  function Act(s: Scene, a: Action): (r: Scene)
    requires InRange(s)
    ensures InRange(r)
  {
    match a
    case Frame(isPlaying, spacePressed) => Update(s, isPlaying, spacePressed)
    case NextWord => NextWordBtn(s)
    case ShowScene(show) => ShowObjects(s, show)
  }

  /** The scene after a run of actions; 0 <= wordIx <= wordCount throughout. */
  function Run(s: Scene, actions: seq<Action>): (r: Scene)
    requires InRange(s)
    ensures InRange(r)
    decreases |actions|
  {
    if actions == [] then s
    else Run(Act(s, actions[0]), actions[1..])
  }

  /** Frames in which the source is idle and Space is not pressed. */
  function Idle(n: nat): (actions: seq<Action>)
    ensures |actions| == n && forall i :: 0 <= i < n ==> actions[i] == Frame(false, false)
  {
    seq(n, _ => Frame(false, false))
  }

  /** The clips of words from .. from+n-1 of sentence g, in order. */
  function Clips(g: nat, from: nat, n: nat): (cs: seq<Clip>)
    ensures |cs| == n && forall i :: 0 <= i < n ==> cs[i] == Clip(g, from + i)
  {
    seq(n, i requires 0 <= i => Clip(g, from + i))
  }

  lemma {:induction false} RunAppend(s: Scene, xs: seq<Action>, ys: seq<Action>)
    requires InRange(s)
    ensures Run(s, xs + ys) == Run(Run(s, xs), ys)
    decreases |xs|
  {
    if xs != [] {
      assert (xs + ys)[1..] == xs[1..] + ys;
      RunAppend(Act(s, xs[0]), xs[1..], ys);
    } else {
      assert xs + ys == ys;
    }
  }

  /** While a sentence is pending, k idle frames play its next k words in
      order, one per frame, and change nothing else. */
  lemma {:induction false} IdleFramesPlayWords(s: Scene, k: nat)
    requires InRange(s) && s.sceneEntered && s.sentenceReady && s.wordIx + k <= WordCount
    ensures Run(s, Idle(k)) ==
      s.(wordIx := s.wordIx + k, played := s.played + Clips(s.sentence, s.wordIx, k))
    decreases k
  {
    if k > 0 {
      var r := Update(s, false, false);
      assert Idle(k)[1..] == Idle(k - 1);
      IdleFramesPlayWords(r, k - 1);
      assert [Clip(s.sentence, s.wordIx)] + Clips(s.sentence, s.wordIx + 1, k - 1) == Clips(s.sentence, s.wordIx, k);
    } else {
      assert Clips(s.sentence, s.wordIx, 0) == [];
    }
  }

  /** Pressing Space with no sentence pending, then idle frames: the new
      sentence's wordCount words are played in order 0 .. wordCount-1, each
      once, and the frame after the last word opens the UI without playing. */
  lemma SentenceThenUi(s: Scene)
    requires InRange(s) && s.sceneEntered && !s.sentenceReady
    ensures Run(s, [Frame(false, true)] + Idle(WordCount + 1)) ==
      s.(sentence := s.sentence + 1, wordIx := WordCount, sentenceReady := false, uiActive := true,
         played := s.played + Clips(s.sentence + 1, 0, WordCount))
  {
    var s1 := Update(s, false, true);
    assert ([Frame(false, true)] + Idle(WordCount + 1))[1..] == Idle(WordCount + 1);
    assert Idle(WordCount + 1) == Idle(WordCount) + [Frame(false, false)];
    IdleFramesPlayWords(s1, WordCount);
    RunAppend(s1, Idle(WordCount), [Frame(false, false)]);
  }

  // ---------------------------------------------------------------- every sentence in order

  /** The word slots of sentence g among the played clips, in playing order. */
  function WordsOf(played: seq<Clip>, g: nat): (words: seq<nat>)
    ensures |words| <= |played|
  {
    if played == [] then []
    else
      var last := played[|played| - 1];
      WordsOf(played[..|played| - 1], g) + (if last.sentence == g then [last.word] else [])
  }

  /** The invariant behind "each sentence is played in order, once": the words
      of the current sentence played so far are exactly 0 .. wordIx-1, and no
      clip belongs to a sentence not yet generated. */
  predicate Sequenced(s: Scene)
  {
    InRange(s) &&
    WordsOf(s.played, s.sentence) == seq(s.wordIx, i => i) &&
    forall k :: 0 <= k < |s.played| ==> s.played[k].sentence <= s.sentence
  }

  lemma {:induction false} NoWordsOfLaterSentence(played: seq<Clip>, g: nat)
    requires forall k :: 0 <= k < |played| ==> played[k].sentence < g
    ensures WordsOf(played, g) == []
    decreases |played|
  {
    if played != [] {
      NoWordsOfLaterSentence(played[..|played| - 1], g);
    }
  }

  lemma UpdateKeepsSequenced(s: Scene, isPlaying: bool, spacePressed: bool)
    requires Sequenced(s)
    ensures Sequenced(Update(s, isPlaying, spacePressed))
  {
    var r := Update(s, isPlaying, spacePressed);
    if r.played != s.played {
      assert r.played[..|r.played| - 1] == s.played;
      assert WordsOf(r.played, s.sentence) == seq(s.wordIx, i => i) + [s.wordIx as nat];
      assert seq(s.wordIx, i => i) + [s.wordIx as nat] == seq(r.wordIx, i => i);
    } else if r.sentence != s.sentence {
      NoWordsOfLaterSentence(s.played, r.sentence);
    }
  }

  /** Every action keeps Sequenced: the button and showObjects touch neither
      the clips nor the word index. */
  lemma ActKeepsSequenced(s: Scene, a: Action)
    requires Sequenced(s)
    ensures Sequenced(Act(s, a))
  {
    if a.Frame? {
      UpdateKeepsSequenced(s, a.isPlaying, a.spacePressed);
    }
  }

  lemma {:induction false} RunKeepsSequenced(s: Scene, actions: seq<Action>)
    requires Sequenced(s)
    ensures Sequenced(Run(s, actions))
    decreases |actions|
  {
    if actions != [] {
      ActKeepsSequenced(s, actions[0]);
      RunKeepsSequenced(Act(s, actions[0]), actions[1..]);
    }
  }

  /** From the loaded scene after Start, whatever the frames, button presses
      and scene changes: every frame that takes the "open the UI" branch (the
      one that clears sentenceReady) finds every word 0 .. wordCount-1 of the
      current sentence played exactly once, in order, and leaves the UI shown.
      This covers every opening, also after the button hid the UI and Space
      started another sentence. */
  lemma UiOpensOnlyAfterWholeSentence(ui: bool, talker: bool, distractor: bool, actions: seq<Action>,
                                       isPlaying: bool, spacePressed: bool)
    requires var s := Run(Start(Initial(ui, talker, distractor)), actions);
      s.sentenceReady && !Update(s, isPlaying, spacePressed).sentenceReady
    ensures var s := Run(Start(Initial(ui, talker, distractor)), actions);
      WordsOf(s.played, s.sentence) == seq(WordCount, i => i) &&
      Update(s, isPlaying, spacePressed).uiActive
  {
    var s0 := Start(Initial(ui, talker, distractor));
    assert WordsOf(s0.played, s0.sentence) == [];
    RunKeepsSequenced(s0, actions);
  }

  /** The UI does open, and opens again: entering the scene, pressing Space
      and letting the sentence play reaches a frame that opens it; pressing
      the button, Space and letting the next sentence play reaches another. */
  lemma UiCanOpen(ui: bool, talker: bool, distractor: bool)
    ensures var first := [ShowScene(true), Frame(false, true)] + Idle(WordCount);
      var s := Run(Start(Initial(ui, talker, distractor)), first);
      s.sentenceReady && !Update(s, false, false).sentenceReady
    ensures var again := [ShowScene(true), Frame(false, true)] + Idle(WordCount) +
                         [Frame(false, false), NextWord, Frame(false, true)] + Idle(WordCount);
      var s := Run(Start(Initial(ui, talker, distractor)), again);
      s.sentenceReady && !Update(s, false, false).sentenceReady && s.sentence == 2
  {
    var s0 := Start(Initial(ui, talker, distractor));
    var enter := [ShowScene(true), Frame(false, true)];
    var s1 := Update(ShowObjects(s0, true), false, true);
    assert Run(s0, enter) == s1 by {
      assert enter[1..] == [Frame(false, true)];
      assert enter[1..][1..] == [];
    }
    RunAppend(s0, enter, Idle(WordCount));
    IdleFramesPlayWords(s1, WordCount);
    var s2 := Run(s1, Idle(WordCount));
    var next := [Frame(false, false), NextWord, Frame(false, true)];
    var s3 := Update(NextWordBtn(Update(s2, false, false)), false, true);
    assert Run(s2, next) == s3 by {
      assert next[1..] == [NextWord, Frame(false, true)];
      assert next[1..][1..] == [Frame(false, true)];
      assert next[1..][1..][1..] == [];
    }
    RunAppend(s0, enter + Idle(WordCount), next);
    RunAppend(s0, enter + Idle(WordCount) + next, Idle(WordCount));
    IdleFramesPlayWords(s3, WordCount);
  }
}
