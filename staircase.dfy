/** The adaptive SNR staircase of the training game as a state machine on
    values: one function per event handler of TrainingGameManager, each taking
    the controller's fields together with what its collaborators recorded, and
    giving the same after the handler ran. The class in training_game.dfy is
    proved to make exactly these transitions; the lemmas here state what the
    transitions promise over single events and over whole event sequences. */
module Staircase {
  import opened Stubs

  /** Talker-volume change on a hit in practice mode (a literal in the handler). */
  const PracticeHitStep: real := -3.0

  /** Number of word options (correct word plus distractors) per selection. */
  const SelectionOptions: nat := 4

  /** The serialized settings of the manager. They are fixed for a session.
      `selectableGroups` is the length of `targetSelectables`. */
  datatype Config = Config(
    gameLength: nat,
    minPracticeRounds: int,
    rewardHits: int,
    onHitSnr: real,
    onMissSnr: real,
    onUnsureSnr: real,
    selectableGroups: nat)

  /** The controller's fields followed by what its collaborators have recorded.
      `sentence` counts the sentences generated so far (0: none yet), and
      `snr` is the content of the SNR_values array. */
  datatype State = State(
    database: Option<Voice>,
    sentence: nat,
    practiceMode: bool,
    practiceRounds: nat,
    roundsPlayed: nat,
    rewardCount: nat,
    repeatSentence: bool,
    hits: nat,
    misses: nat,
    rewards: nat,
    snr: seq<real>,
    // audio manager
    volume: real,
    playCount: nat,
    target: nat,
    distracters: Option<Voice>,
    hitSounds: nat,
    missSounds: nat,
    rewardSounds: nat,
    // word-selection UI
    uiShown: bool,
    selections: seq<Selection>,
    // reward and result screens, user store
    rewardsShown: seq<nat>,
    result: Option<SessionResult>,
    resultShows: nat,
    userEntries: seq<UserEntry>)

  /** The state of a freshly loaded scene: the field initialisers of the
      manager, no SNR array yet, and collaborators that have recorded nothing. */
  function Initial(volume: real): (s: State)
    ensures s.practiceMode && !s.repeatSentence && s.snr == []
    ensures s.practiceRounds == s.roundsPlayed == s.rewardCount == 0
    ensures s.hits == s.misses == s.rewards == 0
  {
    State(None, 0, true, 0, 0, 0, false, 0, 0, 0, [],
          volume, 0, 0, None, 0, 0, 0,
          false, [], [], None, 0, [])
  }

  /** The counters and flags that only the outcome and continue handlers move. */
  predicate SameProgress(s: State, r: State)
  {
    r.practiceMode == s.practiceMode && r.practiceRounds == s.practiceRounds &&
    r.roundsPlayed == s.roundsPlayed && r.rewardCount == s.rewardCount &&
    r.repeatSentence == s.repeatSentence && r.hits == s.hits &&
    r.misses == s.misses && r.rewards == s.rewards
  }

  /** The records that only the session end writes: the result screen's
      summary, how often it was shown, and the user store. */
  predicate SameRecords(s: State, r: State)
  {
    r.result == s.result && r.resultShows == s.resultShows && r.userEntries == s.userEntries
  }

  // ---------------------------------------------------------------- averages

  /** Sum of a sequence, accumulated from the front as the session loop does. */
  function Sum(values: seq<real>): (total: real)
  {
    if values == [] then 0.0 else Sum(values[..|values| - 1]) + values[|values| - 1]
  }

  /** The session average: no data for zero rounds, otherwise the mean. */
  function AverageOf(values: seq<real>): (a: Average)
    ensures a.NoData? <==> values == []
  {
    if values == [] then NoData else Mean(Sum(values) / |values| as real)
  }

  lemma {:induction false} SumBounds(values: seq<real>, lo: real, hi: real)
    requires forall i :: 0 <= i < |values| ==> lo <= values[i] <= hi
    ensures |values| as real * lo <= Sum(values) <= |values| as real * hi
  {
    if values != [] {
      var n := |values|;
      SumBounds(values[..n - 1], lo, hi);
      assert (n - 1) as real * lo + lo == n as real * lo;
      assert (n - 1) as real * hi + hi == n as real * hi;
    }
  }

  /** The mean lies between the smallest and the largest recorded value. */
  lemma MeanWithin(values: seq<real>, lo: real, hi: real)
    requires values != []
    requires forall i :: 0 <= i < |values| ==> lo <= values[i] <= hi
    ensures lo <= AverageOf(values).value <= hi
  {
    var n := |values| as real;
    SumBounds(values, lo, hi);
    assert n * lo <= Sum(values) <= n * hi;
    assert n > 0.0;
    DivideBounds(Sum(values), n, lo, hi);
  }

  lemma DivideBounds(x: real, n: real, lo: real, hi: real)
    requires n > 0.0 && n * lo <= x <= n * hi
    ensures lo <= x / n <= hi
  {
    assert x / n * n == x;
  }

  /** A session whose every recorded SNR is the same value averages to it. */
  lemma MeanOfConstant(values: seq<real>, v: real)
    requires values != []
    requires forall i :: 0 <= i < |values| ==> values[i] == v
    ensures AverageOf(values) == Mean(v)
  {
    MeanWithin(values, v, v);
  }

  // ---------------------------------------------------------------- handlers

  /** OnStart: choose the voice's database and distracter stories, allocate a
      zeroed SNR array of gameLength entries, hide the selection UI, generate a
      sentence, hand it to the audio manager and start playing. No counter or
      mode changes: the handler does not reset a session. */
  function OnStart(c: Config, s: State, voice: int): (r: State)
    ensures r.database == r.distracters == Some(VoiceOf(voice))
    ensures |r.snr| == c.gameLength && forall i :: 0 <= i < |r.snr| ==> r.snr[i] == 0.0
    ensures r.sentence == s.sentence + 1 && r.target == r.sentence
    ensures r.playCount == s.playCount + 1 && !r.uiShown
    ensures SameProgress(s, r) && r.volume == s.volume
    ensures SameRecords(s, r) && r.selections == s.selections && r.rewardsShown == s.rewardsShown
  {
    s.(database := Some(VoiceOf(voice)), distracters := Some(VoiceOf(voice)),
       snr := seq(c.gameLength, _ => 0.0), uiShown := false,
       sentence := s.sentence + 1, target := s.sentence + 1, playCount := s.playCount + 1)
  }

  /** What OnPlayingDone needs so that its array write stays in bounds. */
  predicate PlaybackDoneSafe(s: State)
  {
    s.repeatSentence || s.practiceMode || 1 <= s.roundsPlayed <= |s.snr|
  }

  /** OnPlayingDone: on a repeat only re-show the selection UI (the repeat flag
      stays set). Otherwise record the talker volume for the round just played
      when in main mode, and start a word selection for the drawn group, which
      shows the UI. Drawing the words dereferences the database and sentence
      that OnStart creates, so that branch needs a chosen voice. */
  function OnPlayingDone(c: Config, s: State, group: int): (r: State)
    requires PlaybackDoneSafe(s)
    requires !s.repeatSentence ==> 0 <= group < c.selectableGroups && s.database.Some?
    ensures SameProgress(s, r) && r.sentence == s.sentence && r.database == s.database
    ensures r.volume == s.volume && r.playCount == s.playCount && r.uiShown
    ensures SameRecords(s, r) && r.rewardsShown == s.rewardsShown
    ensures s.repeatSentence ==> r.snr == s.snr && r.selections == s.selections
    ensures !s.repeatSentence ==> r.selections == s.selections + [Selection(group, SelectionOptions)]
    ensures |r.snr| == |s.snr|
    ensures forall i :: 0 <= i < |r.snr| ==>
      r.snr[i] == if !s.repeatSentence && !s.practiceMode && i == s.roundsPlayed - 1 then s.volume else s.snr[i]
  {
    if s.repeatSentence then
      s.(uiShown := true)
    else
      var recorded := if s.practiceMode then s.snr else s.snr[s.roundsPlayed - 1 := s.volume];
      s.(snr := recorded, selections := s.selections + [Selection(group, SelectionOptions)], uiShown := true)
  }

  /** OnHit: always clears the repeat flag and plays the hit sound. In practice
      mode it only lowers the talker volume by 3 dB. In main mode it applies
      onHit_SNR, counts the hit and extends the streak; a streak that reaches
      rewardHits shows the reward with the ordinal before the increment. */
  function OnHit(c: Config, s: State): (r: State)
    ensures !r.repeatSentence && r.hitSounds == s.hitSounds + 1
    ensures r.practiceMode == s.practiceMode
    ensures r.practiceRounds == s.practiceRounds && r.roundsPlayed == s.roundsPlayed
    ensures r.misses == s.misses && r.sentence == s.sentence && r.snr == s.snr
    ensures r.playCount == s.playCount && r.uiShown == s.uiShown
    ensures SameRecords(s, r) && r.selections == s.selections
    ensures s.practiceMode ==>
      r.volume == s.volume + PracticeHitStep && r.hits == s.hits &&
      r.rewardCount == s.rewardCount && r.rewards == s.rewards && r.rewardsShown == s.rewardsShown
    ensures !s.practiceMode ==> r.volume == s.volume + c.onHitSnr && r.hits == s.hits + 1
    ensures !s.practiceMode && s.rewardCount + 1 >= c.rewardHits ==>
      r.rewardCount == 0 && r.rewards == s.rewards + 1 &&
      r.rewardsShown == s.rewardsShown + [s.rewards] && r.rewardSounds == s.rewardSounds + 1
    ensures !s.practiceMode && s.rewardCount + 1 < c.rewardHits ==>
      r.rewardCount == s.rewardCount + 1 && r.rewards == s.rewards &&
      r.rewardsShown == s.rewardsShown && r.rewardSounds == s.rewardSounds
  {
    var s := s.(hitSounds := s.hitSounds + 1, repeatSentence := false);
    if s.practiceMode then
      s.(volume := s.volume + PracticeHitStep)
    else
      var s := s.(volume := s.volume + c.onHitSnr, hits := s.hits + 1, rewardCount := s.rewardCount + 1);
      if s.rewardCount >= c.rewardHits then
        s.(rewardSounds := s.rewardSounds + 1, rewardsShown := s.rewardsShown + [s.rewards],
           rewards := s.rewards + 1, rewardCount := 0)
      else
        s
  }

  /** OnMiss: clears the repeat flag and plays the miss sound. In practice mode
      the volume is left alone and practice ends once enough practice rounds
      were played; in main mode the miss is counted, onMiss_SNR applied and
      the streak reset. */
  function OnMiss(c: Config, s: State): (r: State)
    ensures !r.repeatSentence && r.missSounds == s.missSounds + 1
    ensures s.practiceMode ==>
      r.practiceMode == (s.practiceRounds < c.minPracticeRounds) &&
      r.volume == s.volume && r.misses == s.misses && r.rewardCount == s.rewardCount
    ensures !s.practiceMode ==>
      !r.practiceMode && r.misses == s.misses + 1 && r.volume == s.volume + c.onMissSnr && r.rewardCount == 0
    ensures r.hits == s.hits && r.rewards == s.rewards && r.rewardsShown == s.rewardsShown
    ensures r.practiceRounds == s.practiceRounds && r.roundsPlayed == s.roundsPlayed
    ensures r.sentence == s.sentence && r.snr == s.snr && r.playCount == s.playCount && r.uiShown == s.uiShown
    ensures SameRecords(s, r) && r.selections == s.selections
  {
    var s := s.(missSounds := s.missSounds + 1, repeatSentence := false);
    if s.practiceMode then
      if s.practiceRounds >= c.minPracticeRounds then s.(practiceMode := false) else s
    else
      s.(misses := s.misses + 1, volume := s.volume + c.onMissSnr, rewardCount := 0)
  }

  /** OnUnsure: the practice exit check of OnMiss in practice mode, onUnsure_SNR
      in main mode; then toggle the repeat flag. Setting it replays the same
      sentence with the selection UI hidden; clearing it does nothing else. */
  function OnUnsure(c: Config, s: State): (r: State)
    ensures r.repeatSentence == !s.repeatSentence
    ensures !s.repeatSentence ==> r.playCount == s.playCount + 1 && !r.uiShown
    ensures s.repeatSentence ==> r.playCount == s.playCount && r.uiShown == s.uiShown
    ensures r.volume == if s.practiceMode then s.volume else s.volume + c.onUnsureSnr
    ensures r.practiceMode == (s.practiceMode && s.practiceRounds < c.minPracticeRounds)
    ensures r.sentence == s.sentence && r.target == s.target && r.snr == s.snr
    ensures r.practiceRounds == s.practiceRounds && r.roundsPlayed == s.roundsPlayed
    ensures r.rewardCount == s.rewardCount && r.hits == s.hits && r.misses == s.misses && r.rewards == s.rewards
    ensures SameRecords(s, r) && r.selections == s.selections && r.rewardsShown == s.rewardsShown
  {
    var s :=
      if s.practiceMode then
        if s.practiceRounds >= c.minPracticeRounds then s.(practiceMode := false) else s
      else
        s.(volume := s.volume + c.onUnsureSnr);
    if !s.repeatSentence then
      s.(repeatSentence := true, playCount := s.playCount + 1, uiShown := false)
    else
      s.(repeatSentence := false)
  }

  /** OnSessionDone: average the SNRs of the rounds played, hand the summary to
      the result screen, show it, and add (average, rewards) to the user store. */
  function OnSessionDone(s: State): (r: State)
    requires s.roundsPlayed <= |s.snr|
    ensures r.result == Some(SessionResult(AverageOf(s.snr[..s.roundsPlayed]), s.rewards, s.hits, s.misses, s.roundsPlayed))
    ensures r.resultShows == s.resultShows + 1
    ensures r.userEntries == s.userEntries + [UserEntry(AverageOf(s.snr[..s.roundsPlayed]), s.rewards)]
    ensures SameProgress(s, r) && r.sentence == s.sentence && r.snr == s.snr
    ensures r.volume == s.volume && r.playCount == s.playCount && r.uiShown == s.uiShown
  {
    var average := AverageOf(s.snr[..s.roundsPlayed]);
    s.(result := Some(SessionResult(average, s.rewards, s.hits, s.misses, s.roundsPlayed)),
       resultShows := s.resultShows + 1,
       userEntries := s.userEntries + [UserEntry(average, s.rewards)])
  }

  /** OnContinue: hide the selection UI. Once gameLength rounds were played the
      session ends without replaying. Otherwise, unless the sentence is being
      repeated, generate a new one and count exactly one practice or main
      round; in every non-final case restart playback. Generating a sentence
      dereferences the sentence and database that OnStart creates. */
  function OnContinue(c: Config, s: State): (r: State)
    requires s.roundsPlayed >= c.gameLength ==> s.roundsPlayed <= |s.snr|
    requires s.roundsPlayed < c.gameLength && !s.repeatSentence ==> s.database.Some?
    ensures !r.uiShown && r.practiceMode == s.practiceMode && r.snr == s.snr && r.database == s.database
    ensures s.roundsPlayed >= c.gameLength ==>
      r.playCount == s.playCount && r.sentence == s.sentence && SameProgress(s, r) &&
      r.result == Some(SessionResult(AverageOf(s.snr[..s.roundsPlayed]), s.rewards, s.hits, s.misses, s.roundsPlayed)) &&
      r.resultShows == s.resultShows + 1 &&
      r.userEntries == s.userEntries + [UserEntry(AverageOf(s.snr[..s.roundsPlayed]), s.rewards)]
    ensures s.roundsPlayed >= c.gameLength || SameRecords(s, r)
    ensures s.roundsPlayed < c.gameLength ==> r.playCount == s.playCount + 1
    ensures r.selections == s.selections && r.rewardsShown == s.rewardsShown
    ensures s.roundsPlayed < c.gameLength ==>
      r.repeatSentence == s.repeatSentence && r.rewardCount == s.rewardCount &&
      r.hits == s.hits && r.misses == s.misses && r.rewards == s.rewards &&
      r.rewardsShown == s.rewardsShown && r.volume == s.volume
    ensures s.roundsPlayed < c.gameLength && !s.repeatSentence ==>
      r.sentence == s.sentence + 1 && r.target == r.sentence &&
      r.practiceRounds + r.roundsPlayed == s.practiceRounds + s.roundsPlayed + 1 &&
      (if s.practiceMode then r.practiceRounds == s.practiceRounds + 1 else r.roundsPlayed == s.roundsPlayed + 1)
    ensures s.roundsPlayed < c.gameLength && s.repeatSentence ==>
      r.sentence == s.sentence && r.practiceRounds == s.practiceRounds && r.roundsPlayed == s.roundsPlayed
    ensures s.roundsPlayed <= c.gameLength ==> r.roundsPlayed <= c.gameLength
  {
    var s := s.(uiShown := false);
    if s.roundsPlayed >= c.gameLength then
      OnSessionDone(s)
    else
      var s :=
        if !s.repeatSentence then
          var s := s.(sentence := s.sentence + 1, target := s.sentence + 1);
          if s.practiceMode then s.(practiceRounds := s.practiceRounds + 1)
          else s.(roundsPlayed := s.roundsPlayed + 1)
        else s;
      s.(playCount := s.playCount + 1)
  }

  // ---------------------------------------------------------------- events

  /** The callbacks the collaborators deliver. */
  datatype Event = Start(voice: int) | PlayingDone(group: int) | Hit | Miss | Unsure | Continue

  /** The handler for `e` runs without a fault: no out-of-range SNR_values
      access, and no use of the database or sentence before OnStart made them. */
  predicate Enabled(c: Config, s: State, e: Event)
  {
    match e
    case PlayingDone(g) =>
      PlaybackDoneSafe(s) && (!s.repeatSentence ==> 0 <= g < c.selectableGroups && s.database.Some?)
    case Continue =>
      (s.roundsPlayed >= c.gameLength ==> s.roundsPlayed <= |s.snr|) &&
      (s.roundsPlayed < c.gameLength && !s.repeatSentence ==> s.database.Some?)
    case _ => true
  }

  function Step(c: Config, s: State, e: Event): (r: State)
    requires Enabled(c, s, e)
  {
    match e
    case Start(v) => OnStart(c, s, v)
    case PlayingDone(g) => OnPlayingDone(c, s, g)
    case Hit => OnHit(c, s)
    case Miss => OnMiss(c, s)
    case Unsure => OnUnsure(c, s)
    case Continue => OnContinue(c, s)
  }

  /** The order in which the collaborators deliver callbacks. The settings
      panel delivers the voice once, before anything else (no voice chosen
      yet). A started playback is followed by its playing-done callback and
      nothing else (`pending`); the random group is drawn from
      [0, selectableGroups) when the sentence is not being repeated. The
      selection UI delivers hit, miss, unsure and continue only while no
      playback is pending. */
  predicate Allowed(c: Config, s: State, pending: bool, e: Event)
  {
    match e
    case Start(_) => s.database.None? && !pending
    case PlayingDone(g) => s.database.Some? && pending && (!s.repeatSentence ==> 0 <= g < c.selectableGroups)
    case _ => s.database.Some? && !pending
  }

  /** How a sequence of events ends: every handler ran (with the final state
      and whether a playback is still awaiting its playing-done callback), a
      handler faulted, or the sequence broke the event protocol. */
  datatype Outcome = Completed(final: State, awaiting: bool) | Threw | OutOfProtocol

  function Exec(c: Config, s: State, pending: bool, events: seq<Event>): (o: Outcome)
    decreases |events|
  {
    if events == [] then Completed(s, pending)
    else if !Allowed(c, s, pending, events[0]) then OutOfProtocol
    else if !Enabled(c, s, events[0]) then Threw
    else
      var r := Step(c, s, events[0]);
      Exec(c, r, r.playCount > s.playCount, events[1..])
  }

  /** The talker volume a callback stores into SNR_values, if any. */
  function Stored(s: State, e: Event): (vs: seq<real>)
    ensures |vs| <= 1
  {
    if e.PlayingDone? && !s.repeatSentence && !s.practiceMode then [s.volume] else []
  }

  /** The talker volumes that the run's playing-done callbacks store into
      SNR_values (those in main mode with no repeat pending), in order. */
  function Recordings(c: Config, s: State, pending: bool, events: seq<Event>): (vs: seq<real>)
    ensures |vs| <= |events|
    decreases |events|
  {
    if events == [] || !Allowed(c, s, pending, events[0]) || !Enabled(c, s, events[0]) then []
    else
      var e := events[0];
      var r := Step(c, s, e);
      Stored(s, e) + Recordings(c, r, r.playCount > s.playCount, events[1..])
  }

  /** The session invariant: at most gameLength main rounds, the SNR array has
      its allocated length, and a streak never stands at the reward threshold. */
  predicate Inv(c: Config, s: State)
  {
    s.roundsPlayed <= c.gameLength && |s.snr| == c.gameLength &&
    (s.rewardCount == 0 || s.rewardCount < c.rewardHits)
  }

  /** `vs` are the recordings so far: they fill SNR_values from the front, one
      per main round counted, except for the round whose playback is still
      pending, which is recorded when it ends. */
  predicate RecordedSoFar(s: State, pending: bool, vs: seq<real>)
  {
    |vs| <= |s.snr| && s.snr[..|vs|] == vs &&
    |vs| == (if pending && !s.repeatSentence && !s.practiceMode then s.roundsPlayed - 1 else s.roundsPlayed)
  }

  // ---------------------------------------------------------------- single-event properties

  lemma StartEstablishesInv(c: Config, volume: real, voice: int)
    ensures Inv(c, OnStart(c, Initial(volume), voice))
    ensures PlaybackDoneSafe(OnStart(c, Initial(volume), voice))
  {
  }

  /** Every callback keeps the session invariant; only OnStart chooses the
      database. */
  lemma StepKeepsInv(c: Config, s: State, e: Event)
    requires Inv(c, s) && Enabled(c, s, e)
    ensures Inv(c, Step(c, s, e))
    ensures !e.Start? ==> Step(c, s, e).database == s.database
  {
  }

  /** Before OnStart no database or sentence exists, so the playing-done
      callback of a new sentence, and a continue that generates a sentence,
      fault. */
  lemma CallbacksBeforeStartFault(c: Config, volume: real, group: int)
    ensures !Enabled(c, Initial(volume), PlayingDone(group))
    ensures c.gameLength > 0 <==> !Enabled(c, Initial(volume), Continue)
  {
  }

  /** The user store gains an entry, and the result screen is shown, only at
      the continue that ends the session; every other callback leaves them. */
  lemma StepStoresOnlyAtSessionEnd(c: Config, s: State, e: Event)
    requires Enabled(c, s, e)
    ensures var r := Step(c, s, e);
      if e.Continue? && s.roundsPlayed >= c.gameLength then
        r.userEntries == s.userEntries + [UserEntry(AverageOf(s.snr[..s.roundsPlayed]), s.rewards)] &&
        r.resultShows == s.resultShows + 1
      else
        SameRecords(s, r)
  {
  }

  /** Practice mode is left only by a Miss or an Unsure with at least
      min_practiceRounds practice rounds played, and is never re-entered. */
  lemma PracticeExit(c: Config, s: State, e: Event)
    requires Enabled(c, s, e)
    ensures s.practiceMode && !Step(c, s, e).practiceMode <==>
      s.practiceMode && (e.Miss? || e.Unsure?) && s.practiceRounds >= c.minPracticeRounds
    ensures !s.practiceMode ==> !Step(c, s, e).practiceMode
  {
  }

  /** Every event that starts playback leaves a state in which the following
      playing-done callback writes SNR_values[roundsPlayed-1] inside
      [0, gameLength), or writes nothing. */
  lemma PlaybackStartsInBounds(c: Config, s: State, e: Event)
    requires Inv(c, s) && Enabled(c, s, e) && !e.Start?
    requires Step(c, s, e).playCount > s.playCount
    ensures PlaybackDoneSafe(Step(c, s, e))
    ensures var r := Step(c, s, e);
      !r.repeatSentence && !r.practiceMode ==> 0 <= r.roundsPlayed - 1 < c.gameLength
  {
  }

  /** One protocol-conforming callback keeps the recordings filling SNR_values
      from the front, one per main round. */
  lemma StepKeepsRecorded(c: Config, s: State, pending: bool, vs: seq<real>, e: Event)
    requires Inv(c, s) && Allowed(c, s, pending, e) && Enabled(c, s, e) && !e.Start?
    requires RecordedSoFar(s, pending, vs)
    ensures var r := Step(c, s, e); RecordedSoFar(r, r.playCount > s.playCount, vs + Stored(s, e))
    ensures var r := Step(c, s, e);
      Inv(c, r) && r.database == s.database && (r.playCount > s.playCount ==> PlaybackDoneSafe(r))
  {
    var r := Step(c, s, e);
    StepKeepsInv(c, s, e);
    if r.playCount > s.playCount {
      PlaybackStartsInBounds(c, s, e);
    }
    if e.PlayingDone? && !s.repeatSentence && !s.practiceMode {
      var n := |vs|;
      assert r.snr == s.snr[n := s.volume];
      assert r.snr[..n + 1] == s.snr[..n] + [s.volume];
    }
  }

  // ---------------------------------------------------------------- event sequences

  /** Running a protocol-conforming event runs its handler. */
  lemma ExecFirst(c: Config, s: State, pending: bool, e: Event, rest: seq<Event>)
    requires Allowed(c, s, pending, e) && Enabled(c, s, e)
    ensures Exec(c, s, pending, [e] + rest) ==
      Exec(c, Step(c, s, e), Step(c, s, e).playCount > s.playCount, rest)
  {
    assert ([e] + rest)[1..] == rest;
  }

  /** Running one more event after a run continues from where it completed. */
  lemma {:induction false} ExecAppend(c: Config, s: State, pending: bool, events: seq<Event>, e: Event)
    ensures Exec(c, s, pending, events + [e]) ==
      match Exec(c, s, pending, events)
      case Completed(f, p) => Exec(c, f, p, [e])
      case o => o
    decreases |events|
  {
    if events == [] {
      assert events + [e] == [e];
    } else {
      assert (events + [e])[1..] == events[1..] + [e];
      if Allowed(c, s, pending, events[0]) && Enabled(c, s, events[0]) {
        var r := Step(c, s, events[0]);
        ExecAppend(c, r, r.playCount > s.playCount, events[1..], e);
      }
    }
  }

  /** Under the event protocol no handler faults once the voice is chosen,
      and the session invariant holds after every event. */
  lemma {:induction false} ProtocolNeverThrows(c: Config, s: State, pending: bool, events: seq<Event>)
    requires Inv(c, s) && s.database.Some? && (pending ==> PlaybackDoneSafe(s))
    ensures Exec(c, s, pending, events) != Threw
    ensures Exec(c, s, pending, events).Completed? ==> Inv(c, Exec(c, s, pending, events).final)
    decreases |events|
  {
    if events != [] && Allowed(c, s, pending, events[0]) {
      var e := events[0];
      assert Enabled(c, s, e);
      var r := Step(c, s, e);
      StepKeepsInv(c, s, e);
      if r.playCount > s.playCount {
        PlaybackStartsInBounds(c, s, e);
      }
      ProtocolNeverThrows(c, r, r.playCount > s.playCount, events[1..]);
    }
  }

  /** A whole session from the loaded scene: the voice is chosen first and
      once, and then no callback faults, whatever the events. */
  lemma SessionNeverThrows(c: Config, volume: real, events: seq<Event>)
    ensures Exec(c, Initial(volume), false, events) != Threw
    ensures Exec(c, Initial(volume), false, events).Completed? ==>
      Exec(c, Initial(volume), false, events).final.roundsPlayed <= c.gameLength
    ensures events != [] && !events[0].Start? ==> Exec(c, Initial(volume), false, events) == OutOfProtocol
    ensures events != [] && events[0].Start? ==>
      Exec(c, Initial(volume), false, events) ==
      Exec(c, OnStart(c, Initial(volume), events[0].voice), true, events[1..])
  {
    if events != [] && events[0].Start? {
      var s1 := OnStart(c, Initial(volume), events[0].voice);
      StartEstablishesInv(c, volume, events[0].voice);
      ProtocolNeverThrows(c, s1, true, events[1..]);
    }
  }

  /** Running and recording a protocol-conforming run: its first callback,
      then the rest. */
  lemma RunFirst(c: Config, s: State, pending: bool, events: seq<Event>)
    requires events != [] && Allowed(c, s, pending, events[0]) && Enabled(c, s, events[0])
    ensures var r := Step(c, s, events[0]);
      Exec(c, s, pending, events) == Exec(c, r, r.playCount > s.playCount, events[1..]) &&
      Recordings(c, s, pending, events) ==
        Stored(s, events[0]) + Recordings(c, r, r.playCount > s.playCount, events[1..])
  {
  }

  /** The recordings keep filling SNR_values from the front over any
      protocol-conforming run. */
  lemma {:induction false} RunKeepsRecorded(c: Config, s: State, pending: bool, vs: seq<real>, events: seq<Event>)
    requires Inv(c, s) && s.database.Some? && (pending ==> PlaybackDoneSafe(s))
    requires RecordedSoFar(s, pending, vs)
    ensures var o := Exec(c, s, pending, events);
      o.Completed? ==> RecordedSoFar(o.final, o.awaiting, vs + Recordings(c, s, pending, events))
    decreases |events|
  {
    if events == [] {
      assert vs + [] == vs;
    } else if Allowed(c, s, pending, events[0]) && Enabled(c, s, events[0]) {
      var e := events[0];
      var r := Step(c, s, e);
      var p := r.playCount > s.playCount;
      RunFirst(c, s, pending, events);
      StepKeepsRecorded(c, s, pending, vs, e);
      RunKeepsRecorded(c, r, p, vs + Stored(s, e), events[1..]);
      assert vs + Stored(s, e) + Recordings(c, r, p, events[1..]) == vs + Recordings(c, s, pending, events);
    }
  }

  /** Over a whole session, SNR_values begins with exactly the talker volumes
      stored by main-mode, non-repeat playing-done callbacks, in the order they
      were stored, one per main round counted (the round whose playback is
      still pending excepted). */
  lemma SnrHoldsRecordings(c: Config, volume: real, events: seq<Event>)
    requires Exec(c, Initial(volume), false, events).Completed?
    ensures var o := Exec(c, Initial(volume), false, events);
      var vs := Recordings(c, Initial(volume), false, events);
      |vs| <= |o.final.snr| && o.final.snr[..|vs|] == vs &&
      |vs| == if o.awaiting && !o.final.repeatSentence && !o.final.practiceMode
              then o.final.roundsPlayed - 1 else o.final.roundsPlayed
  {
    if events != [] {
      SessionNeverThrows(c, volume, events);
      var s1 := OnStart(c, Initial(volume), events[0].voice);
      StartEstablishesInv(c, volume, events[0].voice);
      assert s1.snr[..0] == [];
      RunKeepsRecorded(c, s1, true, [], events[1..]);
      assert Recordings(c, Initial(volume), false, events) == [] + Recordings(c, s1, true, events[1..]);
    }
  }

  /** The average the session reports is the mean of exactly the recorded
      SNRs: when gameLength rounds were counted and no playback is pending,
      the final continue reports AverageOf the gameLength recordings. */
  lemma ReportedAverageIsMeanOfRecordings(c: Config, volume: real, events: seq<Event>)
    requires var o := Exec(c, Initial(volume), false, events);
      o.Completed? && !o.awaiting && o.final.database.Some? && o.final.roundsPlayed >= c.gameLength
    ensures var vs := Recordings(c, Initial(volume), false, events);
      var before := Exec(c, Initial(volume), false, events).final;
      var o := Exec(c, Initial(volume), false, events + [Continue]);
      |vs| == c.gameLength && o.Completed? && o.final.result.Some? &&
      o.final.result.value.average == AverageOf(vs) && o.final.result.value.roundsPlayed == |vs| &&
      o.final.result.value.rewards == before.rewards &&
      o.final.resultShows == before.resultShows + 1 &&
      o.final.userEntries == before.userEntries + [UserEntry(AverageOf(vs), before.rewards)]
  {
    var o := Exec(c, Initial(volume), false, events);
    SessionNeverThrows(c, volume, events);
    SnrHoldsRecordings(c, volume, events);
    if events[0].Start? {
      StartEstablishesInv(c, volume, events[0].voice);
      ProtocolNeverThrows(c, OnStart(c, Initial(volume), events[0].voice), true, events[1..]);
    }
    ExecAppend(c, Initial(volume), false, events, Continue);
    ExecFirst(c, o.final, false, Continue, []);
  }

  /** Once in main mode, no sequence of events returns to practice mode, and
      none of the counters ever decreases. */
  lemma {:induction false} MainModeIsFinal(c: Config, s: State, pending: bool, events: seq<Event>)
    requires Exec(c, s, pending, events).Completed?
    ensures var r := Exec(c, s, pending, events).final;
      (!s.practiceMode ==> !r.practiceMode) &&
      s.practiceRounds <= r.practiceRounds && s.roundsPlayed <= r.roundsPlayed &&
      s.hits <= r.hits && s.misses <= r.misses && s.rewards <= r.rewards && s.sentence <= r.sentence
    decreases |events|
  {
    if events != [] {
      var r := Step(c, s, events[0]);
      PracticeExit(c, s, events[0]);
      MainModeIsFinal(c, r, r.playCount > s.playCount, events[1..]);
    }
  }

  function HitStreak(k: nat): (es: seq<Event>)
    ensures |es| == k && forall i :: 0 <= i < k ==> es[i] == Hit
  {
    seq(k, _ => Hit)
  }

  /** Consecutive main-mode hits that stay below the threshold extend the
      streak one by one, show no reward and lower the volume by onHit_SNR each. */
  lemma {:induction false} StreakBelowThreshold(c: Config, s: State, k: nat)
    requires s.database.Some? && !s.practiceMode && s.rewardCount + k < c.rewardHits
    ensures Exec(c, s, false, HitStreak(k)).Completed?
    ensures var r := Exec(c, s, false, HitStreak(k)).final;
      r.rewardCount == s.rewardCount + k && r.hits == s.hits + k &&
      r.rewards == s.rewards && r.rewardsShown == s.rewardsShown &&
      r.volume == s.volume + k as real * c.onHitSnr && !r.practiceMode
    decreases k
  {
    if k > 0 {
      var r := OnHit(c, s);
      assert HitStreak(k)[1..] == HitStreak(k - 1);
      StreakBelowThreshold(c, r, k - 1);
    }
  }

  /** A main-mode streak that reaches rewardHits shows exactly one reward, with
      the ordinal the rewards counter had, and starts a new streak. */
  lemma {:induction false} StreakPaysOut(c: Config, s: State, k: nat)
    requires s.database.Some? && !s.practiceMode && k >= 1 && s.rewardCount + k == c.rewardHits
    ensures Exec(c, s, false, HitStreak(k)).Completed?
    ensures var r := Exec(c, s, false, HitStreak(k)).final;
      r.rewardCount == 0 && r.hits == s.hits + k &&
      r.rewards == s.rewards + 1 && r.rewardsShown == s.rewardsShown + [s.rewards]
    decreases k
  {
    var r := OnHit(c, s);
    assert HitStreak(k)[1..] == HitStreak(k - 1);
    if k > 1 {
      StreakPaysOut(c, r, k - 1);
    }
  }

  /** k main rounds, each a hit, the next sentence and its playing-done. */
  function HitRounds(k: nat, group: int): (es: seq<Event>)
    ensures |es| == 3 * k
  {
    if k == 0 then [] else [Hit, Continue, PlayingDone(group)] + HitRounds(k - 1, group)
  }

  /** A streak builds across rounds: neither the next sentence nor its
      playing-done callback touches the streak, so a hit in each of k + 1
      consecutive main rounds reaching rewardHits shows exactly one reward,
      with the ordinal the rewards counter had, and starts a new streak. */
  lemma {:induction false} StreakAcrossRounds(c: Config, s: State, group: int, k: nat)
    requires Inv(c, s) && s.database.Some? && !s.practiceMode && !s.repeatSentence
    requires s.roundsPlayed + k <= c.gameLength && 0 <= group < c.selectableGroups
    requires s.rewardCount + k + 1 == c.rewardHits
    ensures var o := Exec(c, s, false, HitRounds(k, group) + [Hit]);
      o.Completed? && !o.awaiting &&
      o.final.rewardCount == 0 && o.final.rewards == s.rewards + 1 &&
      o.final.rewardsShown == s.rewardsShown + [s.rewards] &&
      o.final.hits == s.hits + k + 1 && o.final.roundsPlayed == s.roundsPlayed + k
    decreases k
  {
    if k == 0 {
      assert HitRounds(0, group) + [Hit] == [Hit] + [];
      ExecFirst(c, s, false, Hit, []);
    } else {
      var rest := HitRounds(k - 1, group) + [Hit];
      assert HitRounds(k, group) + [Hit] == [Hit] + ([Continue] + ([PlayingDone(group)] + rest));
      var s1 := OnHit(c, s);
      var s2 := OnContinue(c, s1);
      var s3 := OnPlayingDone(c, s2, group);
      ExecFirst(c, s, false, Hit, [Continue] + ([PlayingDone(group)] + rest));
      ExecFirst(c, s1, false, Continue, [PlayingDone(group)] + rest);
      ExecFirst(c, s2, true, PlayingDone(group), rest);
      StreakAcrossRounds(c, s3, group, k - 1);
    }
  }

  /** Unsure, the replay finishing, and Unsure again: the sentence is replayed
      exactly once, no sentence is generated and no word selection started, and
      the repeat flag ends cleared, so the next Continue moves on to a new
      sentence instead of repeating again. The replay draws no group. */
  lemma DoubleUnsureRepeatsOnce(c: Config, s: State, group: int)
    requires s.database.Some? && !s.repeatSentence
    requires s.roundsPlayed < c.gameLength
    ensures var es := [Unsure, PlayingDone(group), Unsure];
      Exec(c, s, false, es).Completed? &&
      var r := Exec(c, s, false, es).final;
      !r.repeatSentence && r.sentence == s.sentence && r.playCount == s.playCount + 1 &&
      r.selections == s.selections && r.roundsPlayed == s.roundsPlayed &&
      r.practiceRounds == s.practiceRounds && r.uiShown
    ensures var es := [Unsure, PlayingDone(group), Unsure, Continue];
      Exec(c, s, false, es).Completed? &&
      Exec(c, s, false, es).final.sentence == s.sentence + 1
  {
    var s1 := OnUnsure(c, s);
    var s2 := OnPlayingDone(c, s1, group);
    var s3 := OnUnsure(c, s2);
    var s4 := OnContinue(c, s3);
    assert [Unsure, PlayingDone(group), Unsure][1..] == [PlayingDone(group), Unsure];
    assert [PlayingDone(group), Unsure][1..] == [Unsure];
    assert [Unsure][1..] == [];
    assert Exec(c, s2, false, [Unsure]) == Completed(s3, false);
    assert Exec(c, s1, true, [PlayingDone(group), Unsure]) == Completed(s3, false);
    assert [Unsure, PlayingDone(group), Unsure, Continue][1..] == [PlayingDone(group), Unsure, Continue];
    assert [PlayingDone(group), Unsure, Continue][1..] == [Unsure, Continue];
    assert [Unsure, Continue][1..] == [Continue];
    assert [Continue][1..] == [];
    assert Exec(c, s3, false, [Continue]) == Completed(s4, true);
    assert Exec(c, s2, false, [Unsure, Continue]) == Completed(s4, true);
    assert Exec(c, s1, true, [PlayingDone(group), Unsure, Continue]) == Completed(s4, true);
  }

  /** The first two rounds of the sample session below, handler by handler:
      the practice round and the first main round. */
  lemma SampleFirstRounds(c: Config)
    requires c == Config(2, 0, 2, -1.5, 2.5, 1.5, 1)
    ensures var s0 := OnStart(c, Initial(0.0), 0);
      var s3 := OnContinue(c, OnMiss(c, OnPlayingDone(c, s0, 0)));
      var s6 := OnContinue(c, OnHit(c, OnPlayingDone(c, s3, 0)));
      !s3.practiceMode && s3.roundsPlayed == 1 && s6.roundsPlayed == 2 && !s6.practiceMode &&
      s6.database.Some? && !s6.repeatSentence && s6.snr == [0.0, 0.0] && s6.volume == -1.5 && s6.rewardCount == 1 &&
      s6.hits == 1 && s6.misses == 0 && s6.rewards == 0 && s6.rewardsShown == [] && s6.userEntries == []
  {
    var s0 := OnStart(c, Initial(0.0), 0);
    var s1 := OnPlayingDone(c, s0, 0);
    var s2 := OnMiss(c, s1);
    var s3 := OnContinue(c, s2);
    var s4 := OnPlayingDone(c, s3, 0);
    assert s4.snr == [0.0, 0.0];
    var s5 := OnHit(c, s4);
    assert s5.volume == -1.5 && s5.rewardCount == 1;
  }

  /** The last round of the sample session below and its report. */
  lemma SampleLastRound(c: Config, s6: State)
    requires c == Config(2, 0, 2, -1.5, 2.5, 1.5, 1)
    requires s6.database.Some? && s6.roundsPlayed == 2 && !s6.practiceMode && !s6.repeatSentence
    requires s6.snr == [0.0, 0.0] && s6.volume == -1.5 && s6.rewardCount == 1
    requires s6.hits == 1 && s6.misses == 0 && s6.rewards == 0 && s6.rewardsShown == [] && s6.userEntries == []
    ensures var s8 := OnHit(c, OnPlayingDone(c, s6, 0));
      s8.snr == [0.0, -1.5] && s8.roundsPlayed == 2 && s8.hits == 2 && s8.misses == 0 &&
      s8.rewards == 1 && s8.rewardsShown == [0] && s8.userEntries == [] &&
      OnContinue(c, s8).result == Some(SessionResult(Mean(-0.75), 1, 2, 0, 2)) &&
      OnContinue(c, s8).userEntries == [UserEntry(Mean(-0.75), 1)]
  {
    var s7 := OnPlayingDone(c, s6, 0);
    assert s7.snr == [0.0, -1.5];
    var s8 := OnHit(c, s7);
    assert s8.snr[..2] == [0.0, -1.5];
    assert Sum([0.0, -1.5]) == -1.5 by {
      assert [0.0, -1.5][..1] == [0.0];
      assert [0.0][..0] == [];
    }
  }

  /** The states of the sample session below, handler by handler. */
  lemma SampleStates(c: Config)
    requires c == Config(2, 0, 2, -1.5, 2.5, 1.5, 1)
    ensures var s0 := OnStart(c, Initial(0.0), 0);
      var s3 := OnContinue(c, OnMiss(c, OnPlayingDone(c, s0, 0)));
      var s6 := OnContinue(c, OnHit(c, OnPlayingDone(c, s3, 0)));
      var s8 := OnHit(c, OnPlayingDone(c, s6, 0));
      !s3.practiceMode && s3.roundsPlayed == 1 && s6.roundsPlayed == 2 &&
      s8.snr == [0.0, -1.5] && s8.roundsPlayed == 2 && s8.hits == 2 && s8.misses == 0 &&
      s8.rewards == 1 && s8.rewardsShown == [0] && s8.userEntries == [] &&
      OnContinue(c, s8).result == Some(SessionResult(Mean(-0.75), 1, 2, 0, 2)) &&
      OnContinue(c, s8).userEntries == [UserEntry(Mean(-0.75), 1)]
  {
    SampleFirstRounds(c);
    var s0 := OnStart(c, Initial(0.0), 0);
    var s3 := OnContinue(c, OnMiss(c, OnPlayingDone(c, s0, 0)));
    SampleLastRound(c, OnContinue(c, OnHit(c, OnPlayingDone(c, s3, 0))));
  }

  /** The last four events of the sample session below: the second round and
      the session end. */
  lemma SampleTail(c: Config, s5: State)
    requires c.gameLength == 2 && c.selectableGroups == 1
    requires s5.database.Some? && !s5.practiceMode && !s5.repeatSentence
    requires s5.roundsPlayed == 1 && |s5.snr| == 2
    ensures var s9 := OnContinue(c, OnHit(c, OnPlayingDone(c, OnContinue(c, s5), 0)));
      Exec(c, s5, false, [Continue, PlayingDone(0), Hit, Continue]) == Completed(s9, false)
  {
    var s6 := OnContinue(c, s5);
    var s7 := OnPlayingDone(c, s6, 0);
    var s8 := OnHit(c, s7);
    ExecFirst(c, s8, false, Continue, []);
    ExecFirst(c, s7, false, Hit, [Continue]);
    ExecFirst(c, s6, true, PlayingDone(0), [Hit, Continue]);
    ExecFirst(c, s5, false, Continue, [PlayingDone(0), Hit, Continue]);
  }

  /** The first five events of the sample session below: the practice round
      and the first main round up to its hit. */
  lemma SampleHead(c: Config, s0: State, tail: seq<Event>)
    requires c.gameLength == 2 && c.selectableGroups == 1 && c.minPracticeRounds == 0
    requires s0.database.Some? && s0.practiceMode && !s0.repeatSentence
    requires s0.roundsPlayed == 0 && s0.practiceRounds == 0 && |s0.snr| == 2
    ensures var s5 := OnHit(c, OnPlayingDone(c, OnContinue(c, OnMiss(c, OnPlayingDone(c, s0, 0))), 0));
      Exec(c, s0, true, [PlayingDone(0), Miss, Continue, PlayingDone(0), Hit] + tail) ==
      Exec(c, s5, false, tail)
  {
    var s1 := OnPlayingDone(c, s0, 0);
    var s2 := OnMiss(c, s1);
    var s3 := OnContinue(c, s2);
    var s4 := OnPlayingDone(c, s3, 0);
    ExecFirst(c, s4, false, Hit, tail);
    ExecFirst(c, s3, true, PlayingDone(0), [Hit] + tail);
    assert [PlayingDone(0)] + ([Hit] + tail) == [PlayingDone(0), Hit] + tail;
    ExecFirst(c, s2, false, Continue, [PlayingDone(0), Hit] + tail);
    assert [Continue] + ([PlayingDone(0), Hit] + tail) == [Continue, PlayingDone(0), Hit] + tail;
    ExecFirst(c, s1, false, Miss, [Continue, PlayingDone(0), Hit] + tail);
    assert [Miss] + ([Continue, PlayingDone(0), Hit] + tail) == [Miss, Continue, PlayingDone(0), Hit] + tail;
    ExecFirst(c, s0, true, PlayingDone(0), [Miss, Continue, PlayingDone(0), Hit] + tail);
    assert [PlayingDone(0)] + ([Miss, Continue, PlayingDone(0), Hit] + tail) ==
      [PlayingDone(0), Miss, Continue, PlayingDone(0), Hit] + tail;
  }

  /** A complete two-round session with gameLength 2, min_practiceRounds 0 and
      rewardHits 2, the default SNR steps and a talker volume starting at 0 dB:
      a practice Miss leaves practice mode, two main-mode hits are recorded at
      0 and -1.5 dB, the second hit earns reward number 0, and the final
      Continue reports an average of -0.75 dB over the two recordings. */
  lemma SampleSession()
    ensures var c := Config(2, 0, 2, -1.5, 2.5, 1.5, 1);
      var es := [Start(0), PlayingDone(0), Miss, Continue, PlayingDone(0), Hit,
                 Continue, PlayingDone(0), Hit, Continue];
      var o := Exec(c, Initial(0.0), false, es);
      o.Completed? &&
      o.final.result == Some(SessionResult(Mean(-0.75), 1, 2, 0, 2)) &&
      o.final.userEntries == [UserEntry(Mean(-0.75), 1)] &&
      o.final.rewardsShown == [0] && o.final.snr == [0.0, -1.5] &&
      Recordings(c, Initial(0.0), false, es) == [0.0, -1.5]
  {
    var c := Config(2, 0, 2, -1.5, 2.5, 1.5, 1);
    SampleStates(c);
    var s0 := OnStart(c, Initial(0.0), 0);
    var tail := [Continue, PlayingDone(0), Hit, Continue];
    SampleHead(c, s0, tail);
    var s5 := OnHit(c, OnPlayingDone(c, OnContinue(c, OnMiss(c, OnPlayingDone(c, s0, 0))), 0));
    SampleTail(c, s5);
    var rest := [PlayingDone(0), Miss, Continue, PlayingDone(0), Hit, Continue, PlayingDone(0), Hit, Continue];
    assert [PlayingDone(0), Miss, Continue, PlayingDone(0), Hit] + tail == rest;
    ExecFirst(c, Initial(0.0), false, Start(0), rest);
    var es := [Start(0)] + rest;
    SnrHoldsRecordings(c, 0.0, es);
  }
}
