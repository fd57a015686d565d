// What each message does to the session record: one relation per handler
// between the record before and after and the commands handed back, and the
// properties of those relations.

module Steps {
  import opened Kana
  import opened Strings
  import opened Model
  import opened Game

  /** The interval between two ticks. */
  const RefreshRate: int := 100 * Millisecond

  /** The keys the engine tells apart; KeyRunes carries the typed characters. */
  datatype Key =
    | KeyCtrlC | KeyEsc | KeyUp | KeyShiftTab | KeyDown | KeyTab | KeyLeft | KeyRight
    | KeyEnter | KeySpace | KeyBackspace | KeyRunes(runes: string) | KeyOther

  /** The messages delivered to the engine: a tick, the end of the pause after a
      correct answer, the end of the pause after feedback, a key, or anything else. */
  datatype Msg = TickMsg | CorrectDelayMsg | FeedbackDelayMsg | KeyMsg(key: Key) | OtherMsg

  /** The commands handed back to the runtime: deliver a tick after the refresh
      interval, deliver CorrectDelayMsg or FeedbackDelayMsg after 500 ms, or quit.
      No command is the empty sequence; a batch lists its commands in order. */
  datatype Cmd = TickCmd | CorrectDelayCmd | FeedbackDelayCmd | QuitCmd

  // ---------------------------------------------------------------- menu

  /** One step up through [lo, hi], wrapping from hi to lo. */
  function WrapUp(v: int, lo: int, hi: int): (r: int)
    requires lo <= hi
    ensures lo <= v <= hi ==> lo <= r <= hi
    ensures v < hi ==> r == v + 1
  {
    if v + 1 > hi then lo else v + 1
  }

  /** One step down through [lo, hi], wrapping from lo to hi. */
  function WrapDown(v: int, lo: int, hi: int): (r: int)
    requires lo <= hi
    ensures lo <= v <= hi ==> lo <= r <= hi
    ensures v > lo ==> r == v - 1
  {
    if v - 1 < lo then hi else v - 1
  }

  /** Up on the selected section: the cursor moves back, the dakuten switch
      flips, the start level or start lives go up. */
  function MenuUp(st: Settings): Settings {
    if st.menuSection == MenuSectionKana then st.(menuCursor := WrapDown(st.menuCursor, 0, 2))
    else if st.menuSection == MenuSectionDakuten then st.(dakutenEnabled := !st.dakutenEnabled)
    else if st.menuSection == MenuSectionLevel then st.(startLevel := WrapUp(st.startLevel, 1, 10))
    else if st.menuSection == MenuSectionLives then st.(startLives := WrapUp(st.startLives, 1, 10))
    else st
  }

  /** Down on the selected section: the mirror image of MenuUp. */
  function MenuDown(st: Settings): Settings {
    if st.menuSection == MenuSectionKana then st.(menuCursor := WrapUp(st.menuCursor, 0, 2))
    else if st.menuSection == MenuSectionDakuten then st.(dakutenEnabled := !st.dakutenEnabled)
    else if st.menuSection == MenuSectionLevel then st.(startLevel := WrapDown(st.startLevel, 1, 10))
    else if st.menuSection == MenuSectionLives then st.(startLives := WrapDown(st.startLives, 1, 10))
    else st
  }

  /** Enter or Space on a section other than Start: on the kana section the
      script under the cursor is chosen; every such section moves on by one. */
  function MenuSelect(st: Settings): Settings {
    if st.menuSection == MenuSectionKana then st.(selectedKana := st.menuCursor, menuSection := MenuSectionDakuten)
    else st.(menuSection := st.menuSection + 1)
  }

  /** Left: the previous section, wrapping from Kana to Start. */
  function MenuLeft(st: Settings): Settings {
    st.(menuSection := WrapDown(st.menuSection, MenuSectionKana, MenuSectionStart))
  }

  /** Right: the next section, wrapping from Start to Kana. */
  function MenuRight(st: Settings): Settings {
    st.(menuSection := WrapUp(st.menuSection, MenuSectionKana, MenuSectionStart))
  }

  /** Ctrl+C or Esc: the record is marked as quitting. */
  function Quit(s: Session): Session {
    s.(status := s.status.(quitting := true))
  }

  /** A key in the menu. */
  predicate MenuStep(s: Session, key: Key, t: Session, cmds: seq<Cmd>) {
    match key
    case KeyCtrlC | KeyEsc => t == Quit(s) && cmds == [QuitCmd]
    case KeyUp | KeyShiftTab => t == s.(settings := MenuUp(s.settings)) && cmds == []
    case KeyDown | KeyTab => t == s.(settings := MenuDown(s.settings)) && cmds == []
    case KeyLeft => t == s.(settings := MenuLeft(s.settings)) && cmds == []
    case KeyRight => t == s.(settings := MenuRight(s.settings)) && cmds == []
    case KeyEnter | KeySpace =>
      if s.settings.menuSection == MenuSectionStart then StartedGame(s, t) && cmds == [TickCmd]
      else t == s.(settings := MenuSelect(s.settings)) && cmds == []
    case _ => t == s && cmds == []
  }

  /** Up and Down undo each other on every section of a well-formed menu. */
  lemma MenuUpDownRoundTrip(st: Settings)
    requires 0 <= st.menuCursor <= 2 && 1 <= st.startLevel <= 10 && 1 <= st.startLives <= 10
    ensures MenuDown(MenuUp(st)) == st
    ensures MenuUp(MenuDown(st)) == st
  {
    var sec := st.menuSection;
    if sec == MenuSectionKana {
      WrapRoundTrip(st.menuCursor, 0, 2);
    } else if sec == MenuSectionLevel {
      WrapRoundTrip(st.startLevel, 1, 10);
    } else if sec == MenuSectionLives {
      WrapRoundTrip(st.startLives, 1, 10);
    }
  }

  /** One step up and one step down through a range undo each other. */
  lemma WrapRoundTrip(v: int, lo: int, hi: int)
    requires lo <= v <= hi
    ensures WrapDown(WrapUp(v, lo, hi), lo, hi) == v
    ensures WrapUp(WrapDown(v, lo, hi), lo, hi) == v
  {
  }

  /** Left and Right undo each other, and walking Right five times returns to
      the section started from. */
  lemma MenuLeftRightRoundTrip(section: int)
    requires MenuSectionKana <= section <= MenuSectionStart
    ensures WrapUp(WrapDown(section, MenuSectionKana, MenuSectionStart), MenuSectionKana, MenuSectionStart) == section
    ensures WrapDown(WrapUp(section, MenuSectionKana, MenuSectionStart), MenuSectionKana, MenuSectionStart) == section
    ensures var r1 := WrapUp(section, MenuSectionKana, MenuSectionStart);
            var r2 := WrapUp(r1, MenuSectionKana, MenuSectionStart);
            var r3 := WrapUp(r2, MenuSectionKana, MenuSectionStart);
            var r4 := WrapUp(r3, MenuSectionKana, MenuSectionStart);
            WrapUp(r4, MenuSectionKana, MenuSectionStart) == section
  {
  }

  /** The menu keys keep the settings in their ranges; moving on from a section
      other than Start cannot leave the range either. */
  lemma MenuKeysKeepRanges(st: Settings)
    requires SettingsInRange(st)
    ensures SettingsInRange(MenuUp(st)) && SettingsInRange(MenuDown(st))
    ensures SettingsInRange(MenuLeft(st)) && SettingsInRange(MenuRight(st))
    ensures st.menuSection != MenuSectionStart ==> SettingsInRange(MenuSelect(st))
  {
  }

  /** A session in the menu stays well formed whatever happens to its settings,
      as long as they stay in range. */
  lemma SettingsChangePreservesConsistent(s: Session, st: Settings)
    requires Consistent(s) && s.status.state == StateMenu
    requires SettingsInRange(st)
    ensures Consistent(s.(settings := st))
  {
  }

  lemma MenuStepPreservesConsistent(s: Session, key: Key, t: Session, cmds: seq<Cmd>)
    requires Consistent(s) && s.status.state == StateMenu
    requires MenuStep(s, key, t, cmds)
    ensures Consistent(t)
  {
    MenuKeysKeepRanges(s.settings);
    match key {
      case KeyUp | KeyShiftTab => SettingsChangePreservesConsistent(s, MenuUp(s.settings));
      case KeyDown | KeyTab => SettingsChangePreservesConsistent(s, MenuDown(s.settings));
      case KeyLeft => SettingsChangePreservesConsistent(s, MenuLeft(s.settings));
      case KeyRight => SettingsChangePreservesConsistent(s, MenuRight(s.settings));
      case KeyEnter | KeySpace =>
        if s.settings.menuSection == MenuSectionStart {
          StartedGamePreservesConsistent(s, t);
        } else {
          SettingsChangePreservesConsistent(s, MenuSelect(s.settings));
        }
      case _ =>
    }
  }

  lemma StartedGamePreservesConsistent(s: Session, t: Session)
    requires Consistent(s)
    requires StartedGame(s, t)
    ensures Consistent(t)
  {
    var kanaSet := GetKanaSet(s.settings.selectedKana, s.settings.dakutenEnabled);
    forall i | 0 <= i < |t.fallingKanas|
      ensures InField(t.fallingKanas[i], t.area.maxFallHeight, t.area.playAreaWidth)
      ensures t.fallingKanas[i].kana in kanaSet
    {
      assert IsSpawn(t.fallingKanas[i], s.settings.selectedKana, s.settings.dakutenEnabled, s.area.playAreaWidth);
    }
  }

  // ---------------------------------------------------------------- ticks

  /** A kana is missed in a fall step when it is not shown as answered and its
      next row is at or past the bottom. */
  predicate IsMiss(fk: FallingKana, maxFallHeight: int) {
    !fk.showingCorrect && fk.fallPosition + 1 >= maxFallHeight
  }

  /** The number of missed kana, counted from the front. */
  function Misses(ks: seq<FallingKana>, maxFallHeight: int): (n: nat)
    ensures n <= |ks|
  {
    if ks == [] then 0
    else Misses(ks[..|ks| - 1], maxFallHeight) + (if IsMiss(ks[|ks| - 1], maxFallHeight) then 1 else 0)
  }

  /** The positions of the missed kana. */
  function MissedPositions(ks: seq<FallingKana>, maxFallHeight: int): set<int> {
    set i | 0 <= i < |ks| && IsMiss(ks[i], maxFallHeight)
  }

  /** Misses counts exactly the missed positions. */
  lemma {:induction false} MissesCountsMissedPositions(ks: seq<FallingKana>, maxFallHeight: int)
    ensures Misses(ks, maxFallHeight) == |MissedPositions(ks, maxFallHeight)|
    decreases |ks|
  {
    if ks != [] {
      var front := ks[..|ks| - 1];
      var last := |ks| - 1;
      MissesCountsMissedPositions(front, maxFallHeight);
      if IsMiss(ks[last], maxFallHeight) {
        assert MissedPositions(ks, maxFallHeight) == MissedPositions(front, maxFallHeight) + {last};
      } else {
        assert MissedPositions(ks, maxFallHeight) == MissedPositions(front, maxFallHeight);
      }
    }
  }

  /** A prefix never holds more missed kana than the whole board. */
  lemma {:induction false} MissesOfPrefix(ks: seq<FallingKana>, i: int, maxFallHeight: int)
    requires 0 <= i <= |ks|
    ensures Misses(ks[..i], maxFallHeight) <= Misses(ks, maxFallHeight)
    decreases |ks| - i
  {
    if i < |ks| {
      MissesOfPrefix(ks, i + 1, maxFallHeight);
      assert ks[..i + 1][..i] == ks[..i];
    } else {
      assert ks[..i] == ks;
    }
  }

  /** Counting one more kana of the board. */
  lemma MissesStep(ks: seq<FallingKana>, i: int, maxFallHeight: int)
    requires 0 <= i < |ks|
    ensures Misses(ks[..i + 1], maxFallHeight) == Misses(ks[..i], maxFallHeight) + (if IsMiss(ks[i], maxFallHeight) then 1 else 0)
  {
    assert ks[..i + 1][..i] == ks[..i];
  }

  /** How one kana changes in a fall step that does not end the game: one shown
      as answered stays, a missed one is replaced by a fresh spawn, any other
      moves down one row. */
  predicate Moved(before: FallingKana, after: FallingKana, s: Session) {
    if before.showingCorrect then after == before
    else if IsMiss(before, s.area.maxFallHeight) then
      IsSpawn(after, s.settings.selectedKana, s.settings.dakutenEnabled, s.area.playAreaWidth)
    else after == before.(fallPosition := before.fallPosition + 1)
  }

  /** The board after a fall step, kana by kana, in the same order. */
  predicate Fell(before: seq<FallingKana>, after: seq<FallingKana>, s: Session) {
    |after| == |before| && forall i :: 0 <= i < |before| ==> Moved(before[i], after[i], s)
  }

  /** The fall step moves the board one kana at a time. */
  lemma FellExtend(ks: seq<FallingKana>, i: int, after: seq<FallingKana>, next: FallingKana, s: Session)
    requires 0 <= i < |ks|
    requires Fell(ks[..i], after, s) && Moved(ks[i], next, s)
    ensures Fell(ks[..i + 1], after + [next], s)
  {
    assert ks[..i + 1] == ks[..i] + [ks[i]];
  }

  /** The number of misses that ends the game: the lives left, or one when none
      are left. */
  function MissesToLose(lives: int): (k: int)
    ensures k >= 1
    ensures lives >= 1 ==> k == lives
  {
    if lives <= 1 then 1 else lives
  }

  /** A fall step, on the record whose accumulator has already been reduced.
      When the misses reach MissesToLose the game ends at that miss: every miss
      costs a life and counts as a question, the record is marked over and the
      board is left as it was. Otherwise every miss costs a life, counts as a
      question and is replaced by a spawn; any miss clears the input, latches
      "wrong" feedback and schedules one FeedbackDelayMsg beside the next tick. */
  predicate FallStep(s: Session, t: Session, cmds: seq<Cmd>) {
    var n := Misses(s.fallingKanas, s.area.maxFallHeight);
    var k := MissesToLose(s.score.lives);
    if n >= k then t == LostRecord(s, k) && cmds == [QuitCmd]
    else
      && Fell(s.fallingKanas, t.fallingKanas, s)
      && t == FellRecord(s, n, t.fallingKanas)
      && cmds == (if n > 0 then [TickCmd, FeedbackDelayCmd] else [TickCmd])
  }

  /** Wrong feedback latched: the input cleared, the feedback type "wrong" and
      the feedback shown. A miss and a wrong answer both do this. */
  function WrongFeedback(s: Session): Session {
    s.(typing := s.typing.(input := "", feedbackType := "wrong", showingFeedback := true))
  }

  /** Latching wrong feedback discards whatever was typed. */
  lemma WrongFeedbackClearsTyped(g: Session, typed: string)
    ensures WrongFeedback(g.(typing := g.typing.(input := typed))) == WrongFeedback(g)
  {
  }

  /** The score after n misses: n lives fewer and n more questions. */
  function MissedScore(sc: Score, n: int): Score {
    sc.(lives := sc.lives - n, total := sc.total + n)
  }

  /** The record when the game is lost at the k-th miss of a fall step: the
      earlier misses of the step latched wrong feedback, the last did not. */
  function LostRecord(s: Session, k: int): Session {
    var base := if k > 1 then WrongFeedback(s) else s;
    base.(score := MissedScore(s.score, k), status := Status(StateGameOver, true, true))
  }

  /** The record after a fall step with n misses that does not end the game. */
  function FellRecord(s: Session, n: int, after: seq<FallingKana>): Session {
    var base := if n > 0 then WrongFeedback(s) else s;
    base.(fallingKanas := after, score := MissedScore(s.score, n))
  }

  /** A further miss that leaves a life: the record after n misses, with the
      life and the question taken into account and wrong feedback latched, is
      the record after n + 1 misses. */
  lemma FellRecordNextMiss(s: Session, n: int, ks: seq<FallingKana>)
    requires n >= 0
    ensures WrongFeedback(FellRecord(s, n, ks).(score := MissedScore(s.score, n + 1)))
            == FellRecord(s, n + 1, ks)
  {
  }

  /** The miss that uses up the lives: the record after n misses, with the life
      and the question taken into account and the game marked over, is the
      record of a game lost at miss n + 1. */
  lemma FellRecordLastMiss(s: Session, n: int)
    requires n >= 0
    ensures FellRecord(s, n, s.fallingKanas).(score := MissedScore(s.score, n + 1),
                                              status := Status(StateGameOver, true, true))
            == LostRecord(s, n + 1)
  {
  }

  /** A fall step that reaches the losing miss ends in the lost record. */
  lemma FallStepLost(s: Session, k: int)
    requires k == MissesToLose(s.score.lives) <= Misses(s.fallingKanas, s.area.maxFallHeight)
    ensures FallStep(s, LostRecord(s, k), [QuitCmd])
  {
  }

  /** A fall step that moves every kana without reaching the losing miss ends
      in the record of its misses. */
  lemma FallStepDone(s: Session, after: seq<FallingKana>, feedbackQueued: bool)
    requires Misses(s.fallingKanas, s.area.maxFallHeight) < MissesToLose(s.score.lives)
    requires feedbackQueued <==> Misses(s.fallingKanas, s.area.maxFallHeight) > 0
    requires Fell(s.fallingKanas, after, s)
    ensures FallStep(s, FellRecord(s, Misses(s.fallingKanas, s.area.maxFallHeight), after),
                     if feedbackQueued then [TickCmd, FeedbackDelayCmd] else [TickCmd])
  {
  }

  /** A tick: ignored once quitting or over; otherwise the refresh interval is
      added to the accumulator, and when that reaches the fall interval one fall
      interval is taken off and a fall step happens. */
  predicate TickStep(s: Session, t: Session, cmds: seq<Cmd>) {
    if s.status.quitting || s.status.gameOver then t == s && cmds == []
    else
      var acc := s.timing.timeAccumulated + RefreshRate;
      if acc < s.timing.fallSpeed then t == s.(timing := s.timing.(timeAccumulated := acc)) && cmds == [TickCmd]
      else FallStep(s.(timing := s.timing.(timeAccumulated := acc - s.timing.fallSpeed)), t, cmds)
  }

  /** The accounting of a tick during play: the lives lost equal the questions
      added, at most one per kana; correct answers do not change; the game ends
      exactly when a fall step brings the misses to MissesToLose, and then only
      quitting is scheduled; otherwise the ticks keep coming, with at most one
      FeedbackDelayMsg, which is scheduled exactly when a life was lost. */
  lemma TickAccounting(s: Session, t: Session, cmds: seq<Cmd>)
    requires Consistent(s) && s.status.state == StatePlaying && !s.status.quitting
    requires TickStep(s, t, cmds)
    ensures s.score.lives - t.score.lives == t.score.total - s.score.total
    ensures 0 <= s.score.lives - t.score.lives <= |s.fallingKanas|
    ensures t.score.correct == s.score.correct
    ensures t.status.gameOver <==>
              s.timing.timeAccumulated + RefreshRate >= s.timing.fallSpeed
              && Misses(s.fallingKanas, s.area.maxFallHeight) >= s.score.lives
    ensures t.status.gameOver ==> t.score.lives == 0 && cmds == [QuitCmd]
    ensures !t.status.gameOver ==> t.score.lives >= 1 && (cmds == [TickCmd] || cmds == [TickCmd, FeedbackDelayCmd])
    ensures !t.status.gameOver ==> (FeedbackDelayCmd in cmds <==> t.score.lives < s.score.lives)
    ensures !t.status.gameOver && t.score.lives < s.score.lives ==>
              t.typing == s.typing.(input := "", feedbackType := "wrong", showingFeedback := true)
    ensures t.score.lives == s.score.lives ==> t.typing == s.typing && t.status == s.status
  {
  }

  /** The accumulator after a tick during play, and the board untouched when
      the fall interval was not reached. */
  lemma TickTiming(s: Session, t: Session, cmds: seq<Cmd>)
    requires Consistent(s) && s.status.state == StatePlaying && !s.status.quitting
    requires TickStep(s, t, cmds)
    ensures s.timing.timeAccumulated + RefreshRate < s.timing.fallSpeed ==>
              t.timing.timeAccumulated == s.timing.timeAccumulated + RefreshRate && t.fallingKanas == s.fallingKanas
    ensures s.timing.timeAccumulated + RefreshRate >= s.timing.fallSpeed ==>
              t.timing.timeAccumulated == s.timing.timeAccumulated + RefreshRate - s.timing.fallSpeed
    ensures t.timing == s.timing.(timeAccumulated := t.timing.timeAccumulated)
    ensures TimingInRange(t.timing)
  {
  }

  lemma FellPreservesField(s: Session, after: seq<FallingKana>)
    requires Consistent(s) && s.status.state == StatePlaying
    requires Fell(s.fallingKanas, after, s)
    ensures forall i :: 0 <= i < |after| ==> InField(after[i], s.area.maxFallHeight, s.area.playAreaWidth)
    ensures FromSet(after, GetKanaSet(s.settings.selectedKana, s.settings.dakutenEnabled))
  {
    forall i | 0 <= i < |after|
      ensures InField(after[i], s.area.maxFallHeight, s.area.playAreaWidth)
      ensures after[i].kana in GetKanaSet(s.settings.selectedKana, s.settings.dakutenEnabled)
    {
      assert Moved(s.fallingKanas[i], after[i], s);
      assert InField(s.fallingKanas[i], s.area.maxFallHeight, s.area.playAreaWidth);
    }
  }

  lemma FellPreservesConsistent(s: Session, n: int, after: seq<FallingKana>)
    requires Consistent(s) && s.status.state == StatePlaying
    requires 0 <= n < MissesToLose(s.score.lives)
    requires Fell(s.fallingKanas, after, s)
    ensures Consistent(FellRecord(s, n, after))
  {
    FellPreservesField(s, after);
  }

  lemma LostPreservesConsistent(s: Session, k: int)
    requires Consistent(s) && s.status.state == StatePlaying
    requires k == MissesToLose(s.score.lives)
    ensures Consistent(LostRecord(s, k))
  {
  }

  lemma TickPreservesConsistent(s: Session, t: Session, cmds: seq<Cmd>)
    requires Consistent(s) && s.status.state == StatePlaying
    requires TickStep(s, t, cmds)
    ensures Consistent(t)
  {
    if !s.status.quitting && !s.status.gameOver && s.timing.timeAccumulated + RefreshRate >= s.timing.fallSpeed {
      var r := s.(timing := s.timing.(timeAccumulated := s.timing.timeAccumulated + RefreshRate - s.timing.fallSpeed));
      var n := Misses(r.fallingKanas, r.area.maxFallHeight);
      if n < MissesToLose(r.score.lives) {
        FellPreservesConsistent(r, n, t.fallingKanas);
      } else {
        LostPreservesConsistent(r, MissesToLose(r.score.lives));
      }
    }
  }

  // ---------------------------------------------------------------- typing

  /** The index of the first kana whose romanization is the answer, or -1. */
  function FirstMatch(ks: seq<FallingKana>, answer: string): (r: int)
    ensures -1 <= r < |ks|
    ensures r >= 0 ==> ks[r].kana.romaji == answer
    ensures r >= 0 ==> forall j :: 0 <= j < r ==> ks[j].kana.romaji != answer
    ensures r == -1 ==> forall j :: 0 <= j < |ks| ==> ks[j].kana.romaji != answer
  {
    if ks == [] then -1
    else if ks[0].kana.romaji == answer then 0
    else
      var r := FirstMatch(ks[1..], answer);
      if r == -1 then -1 else r + 1
  }

  /** The answer can still grow into the romanization of some falling kana. */
  predicate IsPrefixOfSome(ks: seq<FallingKana>, answer: string) {
    exists i :: 0 <= i < |ks| && answer <= ks[i].kana.romaji
  }

  /** Every kana unmarked, in place. */
  function ClearMarks(ks: seq<FallingKana>): (r: seq<FallingKana>)
    ensures |r| == |ks|
    ensures !AnyShowingCorrect(r)
    ensures forall i :: 0 <= i < |r| ==> r[i] == ks[i].(showingCorrect := false)
  {
    seq(|ks|, i requires 0 <= i < |ks| => ks[i].(showingCorrect := false))
  }

  /** The kana at i marked as answered. */
  function MarkAt(ks: seq<FallingKana>, i: int): (r: seq<FallingKana>)
    requires 0 <= i < |ks|
    ensures |r| == |ks| && r[i].showingCorrect
    ensures forall j :: 0 <= j < |r| ==> r[j].kana == ks[j].kana && r[j].fallPosition == ks[j].fallPosition
                                         && r[j].horizontalPos == ks[j].horizontalPos
    ensures forall j :: 0 <= j < |r| && j != i ==> r[j] == ks[j]
  {
    ks[i := ks[i].(showingCorrect := true)]
  }

  /** The input cleared and every mark removed, which a key does first while a
      kana is still shown as answered. */
  function ClearGuess(s: Session): Session {
    s.(typing := s.typing.(input := ""), fallingKanas := ClearMarks(s.fallingKanas))
  }

  /** The record a typed key works on. */
  function GuessBase(s: Session): (g: Session)
    ensures !AnyShowingCorrect(g.fallingKanas)
    ensures |g.fallingKanas| == |s.fallingKanas|
  {
    if AnyShowingCorrect(s.fallingKanas) then ClearGuess(s) else s
  }

  /** Typed characters: ignored when over or while feedback shows. Otherwise
      they are appended to the input and the answer is the input lower-cased
      and trimmed. The first falling kana with that romanization is marked and
      scores a question and a correct answer; every twentieth correct answer
      also speeds the fall up and tops the board up to the level. An answer no
      romanization starts with is wrong: the input is cleared and feedback
      latched. Anything else is a prefix still being typed. */
  predicate RuneStep(s: Session, runes: string, t: Session, cmds: seq<Cmd>) {
    if s.status.gameOver || s.typing.showingFeedback then t == s && cmds == []
    else Judged(GuessBase(s), GuessBase(s).typing.input + runes, t, cmds)
  }

  /** The answer judged on the record g with the whole typed input. */
  predicate Judged(g: Session, typed: string, t: Session, cmds: seq<Cmd>) {
    var answer := Normalize(typed);
    var idx := FirstMatch(g.fallingKanas, answer);
    if idx >= 0 then HitStep(RuneHit(g, typed, idx), t) && cmds == [CorrectDelayCmd]
    else if !IsPrefixOfSome(g.fallingKanas, answer) then t == WrongFeedback(g) && cmds == [FeedbackDelayCmd]
    else t == Pending(g, typed) && cmds == []
  }

  /** A judgement with a match: the hit, then the pause. */
  lemma JudgedHit(g: Session, typed: string, idx: int, t: Session)
    requires idx == FirstMatch(g.fallingKanas, Normalize(typed)) && idx >= 0
    requires HitStep(RuneHit(g, typed, idx), t)
    ensures Judged(g, typed, t, [CorrectDelayCmd])
  {
  }

  /** A judgement without a match that no romanization starts with. */
  lemma JudgedWrong(g: Session, typed: string)
    requires FirstMatch(g.fallingKanas, Normalize(typed)) == -1
    requires !IsPrefixOfSome(g.fallingKanas, Normalize(typed))
    ensures Judged(g, typed, WrongFeedback(g), [FeedbackDelayCmd])
  {
  }

  /** A judgement without a match that some romanization starts with. */
  lemma JudgedPending(g: Session, typed: string)
    requires FirstMatch(g.fallingKanas, Normalize(typed)) == -1
    requires IsPrefixOfSome(g.fallingKanas, Normalize(typed))
    ensures Judged(g, typed, Pending(g, typed), [])
  {
  }

  /** A correct answer: the input kept, one more question and one more correct
      answer, the feedback type "correct", the kana at idx marked and the
      accumulator reset. */
  function RuneHit(g: Session, typed: string, idx: int): Session
    requires 0 <= idx < |g.fallingKanas|
  {
    g.(typing := g.typing.(input := typed, feedbackType := "correct"),
       score := g.score.(total := g.score.total + 1, correct := g.score.correct + 1),
       fallingKanas := MarkAt(g.fallingKanas, idx),
       timing := g.timing.(timeAccumulated := 0))
  }

  /** After a correct answer: on a multiple of twenty the fall speeds up and the
      board is topped up to the new level with spawns. */
  predicate HitStep(h: Session, t: Session) {
    if h.score.correct % 20 == 0 then
      && PaddedTo(h.fallingKanas, t.fallingKanas, LevelFor(h.score.correct),
                  h.settings.selectedKana, h.settings.dakutenEnabled, h.area.playAreaWidth)
      && t == h.(timing := h.timing.(fallSpeed := SpeedUp(h.timing.fallSpeed)), fallingKanas := t.fallingKanas)
    else t == h
  }

  /** An answer still being typed: the input kept and the feedback type cleared. */
  function Pending(g: Session, typed: string): Session {
    g.(typing := g.typing.(input := typed, feedbackType := ""))
  }

  /** A correct answer scores one question and one correct answer, costs no
      life, and speeds the fall up, never below the floor, exactly on a multiple
      of twenty. */
  lemma HitScoring(g: Session, typed: string, idx: int, t: Session)
    requires TimingInRange(g.timing)
    requires 0 <= idx < |g.fallingKanas|
    requires HitStep(RuneHit(g, typed, idx), t)
    ensures t.score.correct == g.score.correct + 1 && t.score.total == g.score.total + 1
    ensures t.score.lives == g.score.lives && t.status == g.status
    ensures MinFallSpeed <= t.timing.fallSpeed <= g.timing.fallSpeed
    ensures t.timing.fallSpeed < g.timing.fallSpeed ==> t.score.correct % 20 == 0
    ensures t.score.correct % 20 == 0 ==> t.timing.fallSpeed == SpeedUp(g.timing.fallSpeed)
  {
  }

  /** The twentieth correct answer of a game still at the base interval brings
      the fall interval down to 595 ms. */
  lemma TwentiethHitSpeedsUp(g: Session, typed: string, idx: int, t: Session)
    requires 0 <= idx < |g.fallingKanas|
    requires g.score.correct == 19 && g.timing.fallSpeed == BaseFallSpeed
    requires HitStep(RuneHit(g, typed, idx), t)
    ensures t.score.correct == 20
    ensures t.timing.fallSpeed == 595 * Millisecond
  {
    SpeedUpFromBase();
  }

  /** The scoring of a judged answer: at most one answer, which counts both as
      a question and as correct, exactly when a kana matched. */
  lemma JudgedScoring(g: Session, typed: string, t: Session, cmds: seq<Cmd>)
    requires TimingInRange(g.timing)
    requires Judged(g, typed, t, cmds)
    ensures t.score.lives == g.score.lives && t.status == g.status
    ensures t.score.correct - g.score.correct == t.score.total - g.score.total
    ensures g.score.correct <= t.score.correct <= g.score.correct + 1
    ensures t.score.correct == g.score.correct + 1 <==> cmds == [CorrectDelayCmd]
    ensures MinFallSpeed <= t.timing.fallSpeed <= g.timing.fallSpeed
    ensures t.timing.fallSpeed < g.timing.fallSpeed ==> t.score.correct % 20 == 0
  {
    var idx := FirstMatch(g.fallingKanas, Normalize(typed));
    if idx >= 0 {
      HitScoring(g, typed, idx, t);
    }
  }

  /** Typing never costs a life and scores at most one answer, which counts both
      as a question and as correct; the fall only ever speeds up, and only on a
      multiple of twenty correct answers. */
  lemma RuneScoring(s: Session, runes: string, t: Session, cmds: seq<Cmd>)
    requires Consistent(s) && s.status.state == StatePlaying
    requires RuneStep(s, runes, t, cmds)
    ensures t.score.lives == s.score.lives && t.status == s.status
    ensures t.score.correct - s.score.correct == t.score.total - s.score.total
    ensures s.score.correct <= t.score.correct <= s.score.correct + 1
    ensures t.score.correct == s.score.correct + 1 <==> cmds == [CorrectDelayCmd]
    ensures MinFallSpeed <= t.timing.fallSpeed <= s.timing.fallSpeed
    ensures t.timing.fallSpeed < s.timing.fallSpeed ==> t.score.correct % 20 == 0
  {
    if !s.status.gameOver && !s.typing.showingFeedback {
      var g := GuessBase(s);
      assert g.score == s.score && g.timing == s.timing && g.status == s.status;
      JudgedScoring(g, g.typing.input + runes, t, cmds);
    }
  }

  /** A correct answer on a board without marks leaves exactly one kana
      marked: the one at the matched index. */
  lemma HitMarksOnly(g: Session, typed: string, idx: int, t: Session)
    requires !AnyShowingCorrect(g.fallingKanas)
    requires 0 <= idx < |g.fallingKanas|
    requires HitStep(RuneHit(g, typed, idx), t)
    ensures idx < |t.fallingKanas| && t.fallingKanas[idx].showingCorrect
    ensures t.fallingKanas[idx].kana == g.fallingKanas[idx].kana
    ensures forall j :: 0 <= j < |t.fallingKanas| && t.fallingKanas[j].showingCorrect ==> j == idx
    ensures t.typing.input == typed
  {
    var h := RuneHit(g, typed, idx);
    assert t.fallingKanas[..|h.fallingKanas|] == h.fallingKanas;
    assert t.fallingKanas[idx] == h.fallingKanas[idx];
    forall j | 0 <= j < |t.fallingKanas| && j != idx
      ensures !t.fallingKanas[j].showingCorrect
    {
      if j < |h.fallingKanas| {
        assert t.fallingKanas[j] == h.fallingKanas[j] == g.fallingKanas[j];
      } else {
        assert IsSpawn(t.fallingKanas[j], h.settings.selectedKana, h.settings.dakutenEnabled, h.area.playAreaWidth);
      }
    }
  }

  /** After a correct answer exactly one kana is marked: the first one whose
      romanization is the answer. */
  lemma HitMarksOne(s: Session, runes: string, t: Session, cmds: seq<Cmd>)
    requires RuneStep(s, runes, t, cmds) && cmds == [CorrectDelayCmd]
    ensures exists i :: 0 <= i < |t.fallingKanas| && t.fallingKanas[i].showingCorrect
              && t.fallingKanas[i].kana.romaji == Normalize(t.typing.input)
              && forall j :: 0 <= j < |t.fallingKanas| && t.fallingKanas[j].showingCorrect ==> j == i
  {
    JudgedMarksOne(GuessBase(s), GuessBase(s).typing.input + runes, t, cmds);
  }

  /** A correct judgement on a board without marks marks exactly the kana
      that matched. */
  lemma JudgedMarksOne(g: Session, typed: string, t: Session, cmds: seq<Cmd>)
    requires !AnyShowingCorrect(g.fallingKanas)
    requires Judged(g, typed, t, cmds) && cmds == [CorrectDelayCmd]
    ensures exists i :: 0 <= i < |t.fallingKanas| && t.fallingKanas[i].showingCorrect
              && t.fallingKanas[i].kana.romaji == Normalize(t.typing.input)
              && forall j :: 0 <= j < |t.fallingKanas| && t.fallingKanas[j].showingCorrect ==> j == i
  {
    var idx := FirstMatch(g.fallingKanas, Normalize(typed));
    assert idx >= 0;
    HitMarksOnly(g, typed, idx, t);
  }

  /** Characters that leave nothing once trimmed neither score nor count as
      wrong: the empty answer begins every romanization, and none is empty. */
  lemma BlankAnswerIsPending(s: Session, runes: string, t: Session, cmds: seq<Cmd>)
    requires Consistent(s) && s.status.state == StatePlaying
    requires !s.status.gameOver && !s.typing.showingFeedback
    requires Normalize(GuessBase(s).typing.input + runes) == ""
    requires RuneStep(s, runes, t, cmds)
    ensures cmds == [] && !t.typing.showingFeedback
    ensures t.score == s.score
  {
    var g := GuessBase(s);
    var kanaSet := GetKanaSet(s.settings.selectedKana, s.settings.dakutenEnabled);
    assert g.fallingKanas[0].kana in kanaSet;
    forall j | 0 <= j < |g.fallingKanas|
      ensures g.fallingKanas[j].kana.romaji != ""
    {
      assert g.fallingKanas[j].kana in kanaSet;
    }
  }

  lemma GuessBasePreservesConsistent(s: Session)
    requires Consistent(s) && s.status.state == StatePlaying
    ensures Consistent(GuessBase(s))
    ensures GuessBase(s).status == s.status && GuessBase(s).settings == s.settings
    ensures GuessBase(s).score == s.score && GuessBase(s).timing == s.timing
  {
  }

  lemma HitPreservesConsistent(g: Session, typed: string, idx: int, t: Session)
    requires Consistent(g) && g.status.state == StatePlaying
    requires 0 <= idx < |g.fallingKanas|
    requires HitStep(RuneHit(g, typed, idx), t)
    ensures Consistent(t)
  {
    var h := RuneHit(g, typed, idx);
    var kanaSet := GetKanaSet(g.settings.selectedKana, g.settings.dakutenEnabled);
    LevelStep(g.score.correct);
    if h.score.correct % 20 == 0 {
      forall i | 0 <= i < |t.fallingKanas|
        ensures InField(t.fallingKanas[i], t.area.maxFallHeight, t.area.playAreaWidth)
        ensures t.fallingKanas[i].kana in kanaSet
      {
        if i < |h.fallingKanas| {
          assert t.fallingKanas[i] == h.fallingKanas[i];
        } else {
          assert IsSpawn(t.fallingKanas[i], g.settings.selectedKana, g.settings.dakutenEnabled, g.area.playAreaWidth);
        }
      }
    }
  }

  lemma JudgedPreservesConsistent(g: Session, typed: string, t: Session, cmds: seq<Cmd>)
    requires Consistent(g) && g.status.state == StatePlaying
    requires Judged(g, typed, t, cmds)
    ensures Consistent(t)
  {
    var idx := FirstMatch(g.fallingKanas, Normalize(typed));
    if idx >= 0 {
      HitPreservesConsistent(g, typed, idx, t);
    }
  }

  lemma RunePreservesConsistent(s: Session, runes: string, t: Session, cmds: seq<Cmd>)
    requires Consistent(s) && s.status.state == StatePlaying
    requires RuneStep(s, runes, t, cmds)
    ensures Consistent(t)
  {
    if !s.status.gameOver && !s.typing.showingFeedback {
      GuessBasePreservesConsistent(s);
      JudgedPreservesConsistent(GuessBase(s), GuessBase(s).typing.input + runes, t, cmds);
    }
  }

  /** Backspace: ignored when over or while feedback shows; while a kana is
      shown as answered it clears the input and every mark; otherwise it drops
      the last typed character, if any, and the feedback text. */
  function Backspaced(s: Session): (t: Session)
    ensures s.status.gameOver || s.typing.showingFeedback ==> t == s
    ensures t.status == s.status && t.settings == s.settings && t.area == s.area
    ensures t.score == s.score && t.timing == s.timing
    ensures t.typing.feedbackType == s.typing.feedbackType && t.typing.showingFeedback == s.typing.showingFeedback
    ensures |t.fallingKanas| == |s.fallingKanas|
    ensures forall i :: 0 <= i < |t.fallingKanas| ==>
              t.fallingKanas[i] == s.fallingKanas[i].(showingCorrect := t.fallingKanas[i].showingCorrect)
  {
    if s.status.gameOver || s.typing.showingFeedback then s
    else if AnyShowingCorrect(s.fallingKanas) then ClearGuess(s)
    else if |s.typing.input| > 0 then
      s.(typing := s.typing.(input := s.typing.input[..|s.typing.input| - 1], feedback := ""))
    else s
  }

  /** After Backspace no kana is marked and the input is a prefix of what it
      was, one character shorter unless it was empty or a mark was cleared;
      scores, lives and the board's kana stay. */
  lemma BackspaceShortens(s: Session)
    requires !s.status.gameOver && !s.typing.showingFeedback
    ensures var t := Backspaced(s);
            && !AnyShowingCorrect(t.fallingKanas)
            && t.typing.input <= s.typing.input
            && (!AnyShowingCorrect(s.fallingKanas) && |s.typing.input| > 0 ==> |t.typing.input| == |s.typing.input| - 1)
            && t.score == s.score
            && |t.fallingKanas| == |s.fallingKanas|
  {
  }

  lemma BackspacePreservesConsistent(s: Session)
    requires Consistent(s) && s.status.state == StatePlaying
    ensures Consistent(Backspaced(s))
  {
  }

  // ---------------------------------------------------------------- delays

  /** The board without the kana shown as answered, in the same order. */
  function Unmarked(ks: seq<FallingKana>): (r: seq<FallingKana>)
    ensures |r| <= |ks|
    ensures !AnyShowingCorrect(r)
    ensures forall i :: 0 <= i < |r| ==> r[i] in ks
  {
    if ks == [] then []
    else if ks[0].showingCorrect then Unmarked(ks[1..])
    else [ks[0]] + Unmarked(ks[1..])
  }

  /** A kana survives the removal exactly when it is on the board and unmarked. */
  lemma {:induction false} UnmarkedMembers(ks: seq<FallingKana>, fk: FallingKana)
    ensures fk in Unmarked(ks) <==> fk in ks && !fk.showingCorrect
  {
    if ks != [] {
      UnmarkedMembers(ks[1..], fk);
      assert ks == [ks[0]] + ks[1..];
    }
  }

  /** The removal works piece by piece, which fixes the order of the survivors. */
  lemma {:induction false} UnmarkedConcat(a: seq<FallingKana>, b: seq<FallingKana>)
    ensures Unmarked(a + b) == Unmarked(a) + Unmarked(b)
  {
    if a != [] {
      assert (a + b)[1..] == a[1..] + b;
      UnmarkedConcat(a[1..], b);
    } else {
      assert a + b == b;
    }
  }

  /** A board without marks is left as it is. */
  lemma {:induction false} UnmarkedOfUnmarked(ks: seq<FallingKana>)
    requires !AnyShowingCorrect(ks)
    ensures Unmarked(ks) == ks
  {
    if ks != [] {
      assert !ks[0].showingCorrect;
      assert forall i :: 0 <= i < |ks[1..]| ==> ks[1..][i] == ks[i + 1];
      UnmarkedOfUnmarked(ks[1..]);
    }
  }

  /** The end of the pause after a correct answer: the answered kana leave, the
      board is topped up to the level with spawns, the input and the
      accumulator are reset. */
  predicate CorrectDelayStep(s: Session, t: Session) {
    && PaddedTo(Unmarked(s.fallingKanas), t.fallingKanas, LevelFor(s.score.correct),
                s.settings.selectedKana, s.settings.dakutenEnabled, s.area.playAreaWidth)
    && t == s.(fallingKanas := t.fallingKanas, typing := s.typing.(input := ""),
               timing := s.timing.(timeAccumulated := 0))
  }

  /** After the pause no kana is marked, the board holds at least the level's
      number of kana, and every unmarked kana is still on it. */
  lemma CorrectDelayRefills(s: Session, t: Session)
    requires CorrectDelayStep(s, t)
    ensures !AnyShowingCorrect(t.fallingKanas)
    ensures |t.fallingKanas| >= LevelFor(s.score.correct)
    ensures forall fk :: fk in s.fallingKanas && !fk.showingCorrect ==> fk in t.fallingKanas
  {
    var kept := Unmarked(s.fallingKanas);
    forall i | 0 <= i < |t.fallingKanas|
      ensures !t.fallingKanas[i].showingCorrect
    {
      if i < |kept| {
        assert t.fallingKanas[i] == kept[i];
      } else {
        assert IsSpawn(t.fallingKanas[i], s.settings.selectedKana, s.settings.dakutenEnabled, s.area.playAreaWidth);
      }
    }
    forall fk | fk in s.fallingKanas && !fk.showingCorrect
      ensures fk in t.fallingKanas
    {
      UnmarkedMembers(s.fallingKanas, fk);
      var j :| 0 <= j < |kept| && kept[j] == fk;
      assert t.fallingKanas[j] == fk;
    }
  }

  lemma CorrectDelayPreservesConsistent(s: Session, t: Session)
    requires Consistent(s) && s.status.state == StatePlaying
    requires CorrectDelayStep(s, t)
    ensures Consistent(t)
  {
    var kept := Unmarked(s.fallingKanas);
    var kanaSet := GetKanaSet(s.settings.selectedKana, s.settings.dakutenEnabled);
    forall i | 0 <= i < |t.fallingKanas|
      ensures InField(t.fallingKanas[i], t.area.maxFallHeight, t.area.playAreaWidth)
      ensures t.fallingKanas[i].kana in kanaSet
    {
      if i < |kept| {
        assert t.fallingKanas[i] == kept[i];
        var j :| 0 <= j < |s.fallingKanas| && s.fallingKanas[j] == kept[i];
      } else {
        assert IsSpawn(t.fallingKanas[i], s.settings.selectedKana, s.settings.dakutenEnabled, s.area.playAreaWidth);
      }
    }
  }

  /** The end of the pause after feedback: the feedback is dropped. */
  function FeedbackCleared(s: Session): Session {
    s.(typing := s.typing.(showingFeedback := false, feedback := "", feedbackType := ""))
  }

  /** Clearing feedback twice is clearing it once, and it touches nothing else. */
  lemma FeedbackClearedIdempotent(s: Session)
    ensures FeedbackCleared(FeedbackCleared(s)) == FeedbackCleared(s)
    ensures !s.typing.showingFeedback && s.typing.feedback == "" && s.typing.feedbackType == "" ==>
              FeedbackCleared(s) == s
  {
  }

  // ---------------------------------------------------------------- dispatch

  /** A message during play. */
  predicate PlayingStep(s: Session, msg: Msg, t: Session, cmds: seq<Cmd>) {
    match msg
    case CorrectDelayMsg => CorrectDelayStep(s, t) && cmds == []
    case FeedbackDelayMsg => t == FeedbackCleared(s) && cmds == []
    case TickMsg => TickStep(s, t, cmds)
    case KeyMsg(key) =>
      (match key
       case KeyCtrlC | KeyEsc => t == Quit(s) && cmds == [QuitCmd]
       case KeyBackspace => t == Backspaced(s) && cmds == []
       case KeyRunes(runes) => RuneStep(s, runes, t, cmds)
       case _ => t == s && cmds == [])
    case OtherMsg => t == s && cmds == []
  }

  /** One message: the menu handles keys, play handles everything, and a game
      that is over only asks to quit. */
  predicate UpdateStep(s: Session, msg: Msg, t: Session, cmds: seq<Cmd>) {
    match s.status.state
    case StateMenu =>
      (match msg
       case KeyMsg(key) => MenuStep(s, key, t, cmds)
       case _ => t == s && cmds == [])
    case StatePlaying => PlayingStep(s, msg, t, cmds)
    case StateGameOver => t == Quit(s) && cmds == [QuitCmd]
  }

  /** Every message handled during play keeps the session well formed. */
  lemma PlayingPreservesConsistent(s: Session, msg: Msg, t: Session, cmds: seq<Cmd>)
    requires Consistent(s) && s.status.state == StatePlaying
    requires PlayingStep(s, msg, t, cmds)
    ensures Consistent(t)
  {
    match msg {
      case CorrectDelayMsg => CorrectDelayPreservesConsistent(s, t);
      case FeedbackDelayMsg =>
      case TickMsg => TickPreservesConsistent(s, t, cmds);
      case KeyMsg(key) =>
        if key == KeyBackspace {
          BackspacePreservesConsistent(s);
        } else if key.KeyRunes? {
          RunePreservesConsistent(s, key.runes, t, cmds);
        }
      case OtherMsg =>
    }
  }

  /** Every message keeps the session well formed. */
  lemma UpdatePreservesConsistent(s: Session, msg: Msg, t: Session, cmds: seq<Cmd>)
    requires Consistent(s)
    requires UpdateStep(s, msg, t, cmds)
    ensures Consistent(t)
  {
    if s.status.state == StateMenu {
      if msg.KeyMsg? {
        MenuStepPreservesConsistent(s, msg.key, t, cmds);
      }
    } else if s.status.state == StatePlaying {
      PlayingPreservesConsistent(s, msg, t, cmds);
    }
  }

  /** A menu key either stays in the menu or starts the game with the first tick. */
  lemma MenuStepStates(s: Session, key: Key, t: Session, cmds: seq<Cmd>)
    requires s.status.state == StateMenu
    requires MenuStep(s, key, t, cmds)
    ensures t.status.state == StateMenu || (t.status.state == StatePlaying && cmds == [TickCmd])
  {
  }

  /** A tick keeps the game running or ends it with a request to quit. */
  lemma TickStepStates(s: Session, t: Session, cmds: seq<Cmd>)
    requires s.status.state == StatePlaying
    requires TickStep(s, t, cmds)
    ensures t.status.state == StatePlaying
            || (t.status.state == StateGameOver && t.status.quitting && cmds == [QuitCmd])
  {
  }

  /** Judging an answer keeps the state. */
  lemma JudgedStates(g: Session, typed: string, t: Session, cmds: seq<Cmd>)
    requires Judged(g, typed, t, cmds)
    ensures t.status.state == g.status.state
  {
  }

  /** Typed text never leaves play. */
  lemma RuneStepStates(s: Session, runes: string, t: Session, cmds: seq<Cmd>)
    requires s.status.state == StatePlaying
    requires RuneStep(s, runes, t, cmds)
    ensures t.status.state == StatePlaying
  {
    if !s.status.gameOver && !s.typing.showingFeedback {
      JudgedStates(GuessBase(s), GuessBase(s).typing.input + runes, t, cmds);
    }
  }

  /** Play only ever ends through a tick that runs out of lives, with a request to quit. */
  lemma PlayingStepStates(s: Session, msg: Msg, t: Session, cmds: seq<Cmd>)
    requires s.status.state == StatePlaying
    requires PlayingStep(s, msg, t, cmds)
    ensures t.status.state == StatePlaying
            || (t.status.state == StateGameOver && t.status.quitting && cmds == [QuitCmd])
  {
    match msg {
      case CorrectDelayMsg =>
      case FeedbackDelayMsg =>
      case TickMsg => TickStepStates(s, t, cmds);
      case KeyMsg(key) =>
        if key.KeyRunes? {
          RuneStepStates(s, key.runes, t, cmds);
        }
      case OtherMsg =>
    }
  }

  /** A finished game stays finished and keeps asking to quit; the state only
      ever moves forward from menu to play to game over. */
  lemma StatesMoveForward(s: Session, msg: Msg, t: Session, cmds: seq<Cmd>)
    requires UpdateStep(s, msg, t, cmds)
    ensures s.status.state == StateGameOver ==>
              t.status.state == StateGameOver && t.status.quitting && cmds == [QuitCmd]
    ensures s.status.state == StatePlaying ==> t.status.state != StateMenu
    ensures t.status.state == StateGameOver && s.status.state != StateGameOver ==>
              cmds == [QuitCmd] && t.status.quitting
    ensures s.status.state == StateMenu && t.status.state == StatePlaying ==> cmds == [TickCmd]
  {
    if s.status.state == StateMenu {
      if msg.KeyMsg? {
        MenuStepStates(s, msg.key, t, cmds);
      }
    } else if s.status.state == StatePlaying {
      PlayingStepStates(s, msg, t, cmds);
    }
  }
}
