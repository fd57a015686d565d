// The engine's message handlers, updating the session record in place. Each
// handler is proved to take the record from its old value to one that the
// relation of the same name in Steps allows, and to hand back the commands
// that relation names.

module Update {
  import opened Kana
  import opened Strings
  import opened Model
  import opened Random
  import opened Game
  import opened Steps

  // ---------------------------------------------------------------- menu

  /** Up or Shift+Tab on the selected section. */
  method MenuUpKey(m: Model)
    modifies m
    ensures m.View() == old(m.View()).(settings := MenuUp(old(m.View()).settings))
  {
    if m.menuSection == MenuSectionKana {
      var cursor := m.menuCursor - 1;
      if cursor < 0 {
        cursor := 2;
      }
      m.menuCursor := cursor;
    } else if m.menuSection == MenuSectionDakuten {
      m.dakutenEnabled := !m.dakutenEnabled;
    } else if m.menuSection == MenuSectionLevel {
      var level := m.startLevel + 1;
      if level > 10 {
        level := 1;
      }
      m.startLevel := level;
    } else if m.menuSection == MenuSectionLives {
      var lives := m.startLives + 1;
      if lives > 10 {
        lives := 1;
      }
      m.startLives := lives;
    }
  }

  /** Down or Tab on the selected section. */
  method MenuDownKey(m: Model)
    modifies m
    ensures m.View() == old(m.View()).(settings := MenuDown(old(m.View()).settings))
  {
    if m.menuSection == MenuSectionKana {
      var cursor := m.menuCursor + 1;
      if cursor > 2 {
        cursor := 0;
      }
      m.menuCursor := cursor;
    } else if m.menuSection == MenuSectionDakuten {
      m.dakutenEnabled := !m.dakutenEnabled;
    } else if m.menuSection == MenuSectionLevel {
      var level := m.startLevel - 1;
      if level < 1 {
        level := 10;
      }
      m.startLevel := level;
    } else if m.menuSection == MenuSectionLives {
      var lives := m.startLives - 1;
      if lives < 1 {
        lives := 10;
      }
      m.startLives := lives;
    }
  }

  /** Left: the previous section. */
  method MenuLeftKey(m: Model)
    modifies m
    ensures m.View() == old(m.View()).(settings := MenuLeft(old(m.View()).settings))
  {
    m.menuSection := m.menuSection - 1;
    if m.menuSection < MenuSectionKana {
      m.menuSection := MenuSectionStart;
    }
  }

  /** Right: the next section. */
  method MenuRightKey(m: Model)
    modifies m
    ensures m.View() == old(m.View()).(settings := MenuRight(old(m.View()).settings))
  {
    m.menuSection := m.menuSection + 1;
    if m.menuSection > MenuSectionStart {
      m.menuSection := MenuSectionKana;
    }
  }

  /** Enter or Space: choose the script, start the game, or move on. */
  method MenuEnterKey(m: Model, rng: Rand) returns (cmds: seq<Cmd>)
    requires m.playAreaWidth > 0
    modifies m, rng
    ensures MenuStep(old(m.View()), KeyEnter, m.View(), cmds)
  {
    if m.menuSection == MenuSectionKana {
      m.selectedKana := m.menuCursor;
      m.menuSection := MenuSectionDakuten;
      cmds := [];
    } else if m.menuSection == MenuSectionStart {
      StartGame(m, rng);
      cmds := [TickCmd];
    } else {
      m.menuSection := m.menuSection + 1;
      cmds := [];
    }
  }

  /** Ctrl+C or Esc, in the menu or in play. */
  method QuitKey(m: Model) returns (cmds: seq<Cmd>)
    modifies m
    ensures m.View() == Quit(old(m.View())) && cmds == [QuitCmd]
  {
    m.quitting := true;
    cmds := [QuitCmd];
  }

  /** A message in the menu: only keys do anything. */
  method UpdateMenu(m: Model, rng: Rand, msg: Msg) returns (cmds: seq<Cmd>)
    requires m.playAreaWidth > 0
    modifies m, rng
    ensures msg.KeyMsg? ==> MenuStep(old(m.View()), msg.key, m.View(), cmds)
    ensures !msg.KeyMsg? ==> m.View() == old(m.View()) && cmds == []
  {
    cmds := [];
    if msg.KeyMsg? {
      match msg.key {
        case KeyCtrlC => cmds := QuitKey(m);
        case KeyEsc => cmds := QuitKey(m);
        case KeyUp => MenuUpKey(m);
        case KeyShiftTab => MenuUpKey(m);
        case KeyDown => MenuDownKey(m);
        case KeyTab => MenuDownKey(m);
        case KeyLeft => MenuLeftKey(m);
        case KeyRight => MenuRightKey(m);
        case KeyEnter => cmds := MenuEnterKey(m, rng);
        case KeySpace => cmds := MenuEnterKey(m, rng);
        case _ =>
      }
    }
  }

  // ---------------------------------------------------------------- delays

  /** The board without the kana shown as answered. */
  method KeepUnmarked(m: Model)
    modifies m
    ensures m.View() == old(m.View()).(fallingKanas := Unmarked(old(m.fallingKanas)))
  {
    ghost var before := m.View();
    ghost var ks := m.fallingKanas;
    var newFalling: seq<FallingKana> := [];
    for i := 0 to |m.fallingKanas|
      invariant m.View() == before
      invariant newFalling == Unmarked(ks[..i])
    {
      var fk := m.fallingKanas[i];
      UnmarkedConcat(ks[..i], [fk]);
      assert ks[..i + 1] == ks[..i] + [fk];
      if !fk.showingCorrect {
        newFalling := newFalling + [fk];
      }
    }
    assert ks[..|ks|] == ks;
    m.fallingKanas := newFalling;
  }

  /** Spawns kana onto the end of the board until it holds the level's number. */
  method PadToLevel(m: Model, rng: Rand)
    requires m.playAreaWidth > 0
    modifies m, rng
    ensures PaddedTo(old(m.fallingKanas), m.fallingKanas, LevelFor(old(m.correct)),
                     m.selectedKana, m.dakutenEnabled, m.playAreaWidth)
    ensures m.View() == old(m.View()).(fallingKanas := m.fallingKanas)
  {
    ghost var n := |m.fallingKanas|;
    var level := m.GetLevel();
    var padded := m.fallingKanas;
    while |padded| < level
      modifies rng
      invariant n <= |padded|
      invariant n < level ==> |padded| <= level
      invariant n >= level ==> |padded| == n
      invariant padded[..n] == m.fallingKanas
      invariant forall i :: n <= i < |padded| ==>
                  IsSpawn(padded[i], m.selectedKana, m.dakutenEnabled, m.playAreaWidth)
      decreases level - |padded|
    {
      var fk := SpawnKana(m, rng);
      padded := padded + [fk];
    }
    m.fallingKanas := padded;
  }

  /** The end of the pause after a correct answer. */
  method CorrectDelay(m: Model, rng: Rand)
    requires m.playAreaWidth > 0
    modifies m, rng
    ensures CorrectDelayStep(old(m.View()), m.View())
  {
    KeepUnmarked(m);
    PadToLevel(m, rng);
    m.input := "";
    m.timeAccumulated := 0;
  }

  /** The end of the pause after feedback. */
  method FeedbackDelay(m: Model)
    modifies m
    ensures m.View() == FeedbackCleared(old(m.View()))
  {
    m.showingFeedback := false;
    m.feedback := "";
    m.feedbackType := "";
  }

  // ---------------------------------------------------------------- backspace

  /** Every mark removed, kana by kana. */
  method ClearAllMarks(m: Model)
    modifies m
    ensures m.View() == old(m.View()).(fallingKanas := ClearMarks(old(m.fallingKanas)))
  {
    ghost var before := m.View();
    for i := 0 to |m.fallingKanas|
      invariant |m.fallingKanas| == |before.fallingKanas|
      invariant forall j :: 0 <= j < i ==> m.fallingKanas[j] == before.fallingKanas[j].(showingCorrect := false)
      invariant forall j :: i <= j < |m.fallingKanas| ==> m.fallingKanas[j] == before.fallingKanas[j]
      invariant m.View() == before.(fallingKanas := m.fallingKanas)
    {
      m.fallingKanas := m.fallingKanas[i := m.fallingKanas[i].(showingCorrect := false)];
    }
  }

  /** The input cleared and every mark removed. */
  method ClearGuessed(m: Model)
    modifies m
    ensures m.View() == ClearGuess(old(m.View()))
  {
    m.input := "";
    ClearAllMarks(m);
  }

  /** Backspace during play. */
  method Backspace(m: Model)
    modifies m
    ensures m.View() == Backspaced(old(m.View()))
  {
    if m.gameOver {
      return;
    }
    if m.showingFeedback {
      return;
    }
    var hasShowingCorrect := m.HasShowingCorrect();
    if hasShowingCorrect {
      ClearGuessed(m);
      return;
    }
    if |m.input| > 0 {
      m.input := m.input[..|m.input| - 1];
      m.feedback := "";
    }
  }

  // ---------------------------------------------------------------- ticks

  /** A miss: one life less and one more question. */
  method LoseLife(m: Model)
    modifies m
    ensures m.View() == old(m.View()).(score := MissedScore(old(m.View()).score, 1))
  {
    m.lives := m.lives - 1;
    m.total := m.total + 1;
  }

  /** The game lost: marked over and quitting. */
  method EndGame(m: Model)
    modifies m
    ensures m.View() == old(m.View()).(status := Status(StateGameOver, true, true))
  {
    m.gameOver := true;
    m.state := StateGameOver;
    m.quitting := true;
  }

  /** Wrong feedback latched and the input cleared. */
  method LatchWrong(m: Model)
    modifies m
    ensures m.View() == WrongFeedback(old(m.View()))
  {
    m.feedbackType := "wrong";
    m.showingFeedback := true;
    m.input := "";
  }

  /** A kana past the bottom, after n earlier misses in the same fall step:
      one life less and one more question, then either the game is lost or
      wrong feedback is latched. */
  method Miss(m: Model, ghost s: Session, ghost n: int) returns (lost: bool)
    requires n >= 0 && m.View() == FellRecord(s, n, s.fallingKanas)
    modifies m
    ensures lost ==> n + 1 >= MissesToLose(s.score.lives) && m.View() == LostRecord(s, n + 1)
    ensures !lost ==> n + 1 < MissesToLose(s.score.lives) && m.View() == FellRecord(s, n + 1, s.fallingKanas)
  {
    LoseLife(m);
    if m.lives <= 0 {
      EndGame(m);
      FellRecordLastMiss(s, n);
      return true;
    }
    LatchWrong(m);
    FellRecordNextMiss(s, n, s.fallingKanas);
    return false;
  }

  /** One kana of a fall step, after n misses earlier in the step: one shown as
      answered stays, one that reaches the bottom is a miss and is replaced by
      a spawn unless the game is lost, any other moves down a row. */
  method FallOne(m: Model, rng: Rand, fk: FallingKana, ghost s: Session, ghost n: int)
      returns (lost: bool, missed: bool, next: FallingKana)
    requires s.area.playAreaWidth > 0
    requires 0 <= n < MissesToLose(s.score.lives) && m.View() == FellRecord(s, n, s.fallingKanas)
    modifies m, rng
    ensures missed == IsMiss(fk, s.area.maxFallHeight)
    ensures lost ==> missed && n + 1 >= MissesToLose(s.score.lives) && m.View() == LostRecord(s, n + 1)
    ensures !lost ==> Moved(fk, next, s) && n + (if missed then 1 else 0) < MissesToLose(s.score.lives)
    ensures !lost ==> m.View() == FellRecord(s, n + (if missed then 1 else 0), s.fallingKanas)
  {
    lost, missed, next := false, false, fk;
    if fk.showingCorrect {
      return;
    }
    next := fk.(fallPosition := fk.fallPosition + 1);
    if next.fallPosition >= m.maxFallHeight {
      missed := true;
      lost := Miss(m, s, n);
      if lost {
        return;
      }
      next := SpawnKana(m, rng);
    }
  }

  /** One fall step over the board, in order; the game ends at the miss that
      uses up the lives. */
  method FallKanas(m: Model, rng: Rand) returns (cmds: seq<Cmd>)
    requires m.playAreaWidth > 0
    modifies m, rng
    ensures FallStep(old(m.View()), m.View(), cmds)
  {
    ghost var s := m.View();
    ghost var ks := m.fallingKanas;
    ghost var h := m.maxFallHeight;
    var newFalling: seq<FallingKana> := [];
    var feedbackQueued := false;
    ghost var misses := 0;
    for i := 0 to |m.fallingKanas|
      invariant misses == Misses(ks[..i], h)
      invariant m.View() == FellRecord(s, misses, ks)
      invariant misses < MissesToLose(s.score.lives)
      invariant feedbackQueued <==> misses > 0
      invariant Fell(ks[..i], newFalling, s)
    {
      MissesStep(ks, i, h);
      var lost, missed, next := FallOne(m, rng, m.fallingKanas[i], s, misses);
      if lost {
        MissesOfPrefix(ks, i + 1, h);
        FallStepLost(s, misses + 1);
        return [QuitCmd];
      }
      if missed && !feedbackQueued {
        feedbackQueued := true;
      }
      FellExtend(ks, i, newFalling, next, s);
      newFalling := newFalling + [next];
      misses := misses + if missed then 1 else 0;
    }
    assert ks[..|ks|] == ks;
    FallStepDone(s, newFalling, feedbackQueued);
    m.fallingKanas := newFalling;
    cmds := if feedbackQueued then [TickCmd, FeedbackDelayCmd] else [TickCmd];
  }

  /** A tick during play. */
  method Tick(m: Model, rng: Rand) returns (cmds: seq<Cmd>)
    requires m.playAreaWidth > 0
    modifies m, rng
    ensures TickStep(old(m.View()), m.View(), cmds)
  {
    if m.quitting || m.gameOver {
      return [];
    }
    m.timeAccumulated := m.timeAccumulated + RefreshRate;
    if m.timeAccumulated >= m.fallSpeed {
      m.timeAccumulated := m.timeAccumulated - m.fallSpeed;
      cmds := FallKanas(m, rng);
      return;
    }
    return [TickCmd];
  }

  // ---------------------------------------------------------------- typing

  /** The first kana whose romanization is the answer, scanning the board in
      order, and whether the answer is a prefix of some romanization seen
      before the scan stopped. */
  method MatchAnswer(ks: seq<FallingKana>, answer: string) returns (matchedIndex: int, isValidPrefix: bool)
    ensures matchedIndex == FirstMatch(ks, answer)
    ensures matchedIndex >= 0 ==> isValidPrefix
    ensures matchedIndex == -1 ==> (isValidPrefix <==> IsPrefixOfSome(ks, answer))
  {
    matchedIndex, isValidPrefix := -1, false;
    for i := 0 to |ks|
      invariant forall j :: 0 <= j < i ==> ks[j].kana.romaji != answer
      invariant isValidPrefix <==> exists j :: 0 <= j < i && answer <= ks[j].kana.romaji
    {
      if answer == ks[i].kana.romaji {
        matchedIndex := i;
        isValidPrefix := true;
        break;
      }
      if answer <= ks[i].kana.romaji {
        isValidPrefix := true;
      }
    }
  }

  /** The typed characters appended to the input, after any mark is cleared. */
  method AppendTyped(m: Model, runes: string)
    modifies m
    ensures var g := GuessBase(old(m.View())); m.View() == g.(typing := g.typing.(input := g.typing.input + runes))
  {
    var hasShowingCorrect := m.HasShowingCorrect();
    if hasShowingCorrect {
      ClearGuessed(m);
    }
    m.input := m.input + runes;
  }

  /** The kana at idx scored as answered, on the record g with the typed input. */
  method RecordHit(m: Model, idx: int, ghost g: Session, ghost typed: string)
    requires 0 <= idx < |g.fallingKanas| && m.View() == g.(typing := g.typing.(input := typed))
    modifies m
    ensures m.View() == RuneHit(g, typed, idx)
  {
    m.total := m.total + 1;
    m.correct := m.correct + 1;
    m.feedbackType := "correct";
    m.fallingKanas := m.fallingKanas[idx := m.fallingKanas[idx].(showingCorrect := true)];
    m.timeAccumulated := 0;
  }

  /** The fall interval scaled by 0.85, never below the floor. */
  method SpeedUpFall(m: Model)
    modifies m
    ensures m.View() == old(m.View()).(timing := old(m.View()).timing.(fallSpeed := SpeedUp(old(m.fallSpeed))))
  {
    m.fallSpeed := ScaleSpeed(m.fallSpeed);
    if m.fallSpeed < MinFallSpeed {
      m.fallSpeed := MinFallSpeed;
    }
  }

  /** A correct answer, with the speed-up and the top-up on every twentieth. */
  method Hit(m: Model, rng: Rand, idx: int, ghost g: Session, ghost typed: string)
    requires g.area.playAreaWidth > 0 && 0 <= idx < |g.fallingKanas| && m.View() == g.(typing := g.typing.(input := typed))
    modifies m, rng
    ensures HitStep(RuneHit(g, typed, idx), m.View())
  {
    RecordHit(m, idx, g, typed);
    if m.correct % 20 == 0 {
      SpeedUpFall(m);
      PadToLevel(m, rng);
    }
  }

  /** The answer judged on the record g, once the typed input is in place. */
  method Judge(m: Model, rng: Rand, ghost g: Session, ghost typed: string) returns (cmds: seq<Cmd>)
    requires g.area.playAreaWidth > 0 && m.View() == g.(typing := g.typing.(input := typed))
    modifies m, rng
    ensures Judged(g, typed, m.View(), cmds)
  {
    var answer := Normalize(m.input);
    var matchedIndex, isValidPrefix := MatchAnswer(m.fallingKanas, answer);
    if matchedIndex != -1 {
      Hit(m, rng, matchedIndex, g, typed);
      JudgedHit(g, typed, matchedIndex, m.View());
      return [CorrectDelayCmd];
    } else if !isValidPrefix {
      LatchWrong(m);
      WrongFeedbackClearsTyped(g, typed);
      JudgedWrong(g, typed);
      return [FeedbackDelayCmd];
    } else {
      KeepTyping(m, g, typed);
      JudgedPending(g, typed);
      return [];
    }
  }

  /** An answer still being typed: the feedback type cleared. */
  method KeepTyping(m: Model, ghost g: Session, ghost typed: string)
    requires m.View() == g.(typing := g.typing.(input := typed))
    modifies m
    ensures m.View() == Pending(g, typed)
  {
    m.feedbackType := "";
  }

  /** Typed characters during play. */
  method Runes(m: Model, rng: Rand, runes: string) returns (cmds: seq<Cmd>)
    requires m.playAreaWidth > 0
    modifies m, rng
    ensures RuneStep(old(m.View()), runes, m.View(), cmds)
  {
    if m.gameOver {
      return [];
    }
    if m.showingFeedback {
      return [];
    }
    ghost var g := GuessBase(m.View());
    AppendTyped(m, runes);
    cmds := Judge(m, rng, g, g.typing.input + runes);
  }

  // ---------------------------------------------------------------- dispatch

  /** A message during play. */
  method UpdatePlaying(m: Model, rng: Rand, msg: Msg) returns (cmds: seq<Cmd>)
    requires m.playAreaWidth > 0
    modifies m, rng
    ensures PlayingStep(old(m.View()), msg, m.View(), cmds)
  {
    cmds := [];
    match msg {
      case CorrectDelayMsg => CorrectDelay(m, rng);
      case FeedbackDelayMsg => FeedbackDelay(m);
      case TickMsg => cmds := Tick(m, rng);
      case KeyMsg(key) =>
        match key {
          case KeyCtrlC => cmds := QuitKey(m);
          case KeyEsc => cmds := QuitKey(m);
          case KeyBackspace => Backspace(m);
          case KeyRunes(runes) => cmds := Runes(m, rng, runes);
          case _ =>
        }
      case OtherMsg =>
    }
  }

  /** One message, handled by the menu, by play, or, once the game is over, by
      a request to quit. The record stays well formed. */
  method Update(m: Model, rng: Rand, msg: Msg) returns (cmds: seq<Cmd>)
    requires m.Valid()
    modifies m, rng
    ensures UpdateStep(old(m.View()), msg, m.View(), cmds)
    ensures m.Valid()
  {
    ghost var s := m.View();
    match m.state {
      case StateMenu => cmds := UpdateMenu(m, rng, msg);
      case StatePlaying => cmds := UpdatePlaying(m, rng, msg);
      case StateGameOver => cmds := QuitKey(m);
    }
    UpdatePreservesConsistent(s, msg, m.View(), cmds);
  }
}
