// Setting up a session: spawning a kana, the initial record, and starting a
// game from the menu settings.

module Game {
  import opened Kana
  import opened Model
  import opened Random

  /** The fall interval at level 1. */
  const BaseFallSpeed: int := 700 * Millisecond

  /** A kana as the spawner creates it: at the top row, not marked, drawn from
      the selected set, in a column of the play area. */
  predicate IsSpawn(fk: FallingKana, kanaType: KanaType, includeDakuten: bool, playAreaWidth: int) {
    && fk.fallPosition == 0
    && !fk.showingCorrect
    && fk.kana in GetKanaSet(kanaType, includeDakuten)
    && 0 <= fk.horizontalPos < playAreaWidth
  }

  /** The kana spawned for the two draws: an index into the selected set and a column. */
  function NewFallingKana(kanaType: KanaType, includeDakuten: bool, playAreaWidth: int,
                          kanaIndex: int, horizontalPos: int): (fk: FallingKana)
    requires 0 <= kanaIndex < |GetKanaSet(kanaType, includeDakuten)|
    requires 0 <= horizontalPos < playAreaWidth
    ensures IsSpawn(fk, kanaType, includeDakuten, playAreaWidth)
    ensures fk.kana == GetKanaSet(kanaType, includeDakuten)[kanaIndex]
    ensures fk.horizontalPos == horizontalPos
  {
    FallingKana(GetKanaSet(kanaType, includeDakuten)[kanaIndex], 0, horizontalPos, false)
  }

  /** Spawns one kana for the session's settings. */
  method SpawnKana(m: Model, rng: Rand) returns (fk: FallingKana)
    requires m.playAreaWidth > 0
    modifies rng
    ensures IsSpawn(fk, m.selectedKana, m.dakutenEnabled, m.playAreaWidth)
  {
    var kanaSet := GetKanaSet(m.selectedKana, m.dakutenEnabled);
    var kanaIndex := rng.Intn(|kanaSet|);
    var horizontalPos := rng.Intn(m.playAreaWidth);
    fk := NewFallingKana(m.selectedKana, m.dakutenEnabled, m.playAreaWidth, kanaIndex, horizontalPos);
  }

  /** `after` is `before` followed by fresh spawns until it holds at least n kana. */
  predicate PaddedTo(before: seq<FallingKana>, after: seq<FallingKana>, n: int,
                     kanaType: KanaType, includeDakuten: bool, playAreaWidth: int) {
    && |after| == (if |before| < n then n else |before|)
    && after[..|before|] == before
    && forall i :: |before| <= i < |after| ==> IsSpawn(after[i], kanaType, includeDakuten, playAreaWidth)
  }

  /** The record at program start: in the menu, both scripts with dakuten, the
      cursor on "Both", the Start section selected, level 1, four lives. */
  function InitialSession(): (s: Session)
    ensures Consistent(s)
    ensures s.status.state == StateMenu && s.fallingKanas == [] && s.score.correct == 0 && s.score.total == 0
    ensures KanaTypeName(s.settings.selectedKana) == "Both" && s.settings.dakutenEnabled
    ensures s.settings.menuCursor == 2 && s.settings.menuSection == MenuSectionStart
    ensures s.score.lives == s.settings.startLives && s.timing.fallSpeed == BaseFallSpeed
    ensures s.settings.startLevel == 1 && s.score.lives == 4 && s.area == Area(15, 55)
  {
    Session(
      status := Status(state := StateMenu, gameOver := false, quitting := false),
      settings := Settings(selectedKana := KanaTypeBoth, dakutenEnabled := true, menuCursor := 2,
                           menuSection := MenuSectionStart, startLevel := 1, startLives := 4),
      area := Area(maxFallHeight := 15, playAreaWidth := 55),
      fallingKanas := [],
      typing := Typing(input := "", feedback := "", feedbackType := "", showingFeedback := false),
      score := Score(correct := 0, total := 0, lives := 4, levelOffset := 0),
      timing := Timing(fallSpeed := BaseFallSpeed, timeAccumulated := 0))
  }

  method InitialModel() returns (m: Model)
    ensures fresh(m)
    ensures m.View() == InitialSession() && m.Valid()
  {
    m := new Model(InitialSession());
  }

  /** The start level actually used: the setting forced into [1, 10]. */
  function ClampLevel(level: int): (r: int)
    ensures 1 <= r <= 10
    ensures 1 <= level <= 10 ==> r == level
    ensures level < 1 ==> r == 1
    ensures level > 10 ==> r == 10
  {
    if level < 1 then 1 else if level > 10 then 10 else level
  }

  /** A duration scaled by 0.85 and truncated toward zero. */
  function ScaleSpeed(d: int): (r: int)
    ensures d >= 0 ==> 0 <= r <= d
    ensures d > 0 ==> r < d
    ensures d >= 0 ==> r * 100 <= d * 85 < (r + 1) * 100
  {
    DivTrunc(d * 85, 100)
  }

  /** One speed-up: 0.85 times the interval, but never below the floor. */
  function SpeedUp(d: int): (r: int)
    ensures r >= MinFallSpeed
    ensures d >= MinFallSpeed ==> r <= d
    ensures d > MinFallSpeed ==> r < d
    ensures d == MinFallSpeed ==> r == d
  {
    var scaled := ScaleSpeed(d);
    if scaled < MinFallSpeed then MinFallSpeed else scaled
  }

  /** The start-speed loop: at most `steps` scalings of `speed`, stopping at the
      floor as soon as a scaling falls below it. */
  function StartSpeedFrom(speed: int, steps: nat): int
  {
    if steps == 0 then speed
    else
      var scaled := ScaleSpeed(speed);
      if scaled < MinFallSpeed then MinFallSpeed else StartSpeedFrom(scaled, steps - 1)
  }

  /** The fall interval a game started at the (clamped) level begins with. */
  function StartSpeed(level: int): (r: int)
    requires 1 <= level
    ensures MinFallSpeed <= r <= BaseFallSpeed
    ensures level == 1 ==> r == BaseFallSpeed
  {
    StartSpeedFromBounds(BaseFallSpeed, level - 1);
    StartSpeedFrom(BaseFallSpeed, level - 1)
  }

  lemma {:induction false} StartSpeedFromBounds(speed: int, steps: nat)
    requires speed >= MinFallSpeed
    ensures MinFallSpeed <= StartSpeedFrom(speed, steps) <= speed
  {
    if steps > 0 {
      var scaled := ScaleSpeed(speed);
      if scaled >= MinFallSpeed {
        StartSpeedFromBounds(scaled, steps - 1);
      }
    }
  }

  /** `n` successive in-game speed-ups. */
  function IterSpeedUp(d: int, n: nat): int
    decreases n
  {
    if n == 0 then d else IterSpeedUp(SpeedUp(d), n - 1)
  }

  lemma {:induction false} IterSpeedUpAtFloor(n: nat)
    ensures IterSpeedUp(MinFallSpeed, n) == MinFallSpeed
  {
    if n > 0 {
      IterSpeedUpAtFloor(n - 1);
    }
  }

  /** Stopping the start-speed loop at the floor gives the same interval as
      applying every speed-up: a game started at level L begins at the interval
      that a game started at level 1 reaches after L - 1 speed-ups. */
  lemma {:induction false} StartSpeedIsIteratedSpeedUp(speed: int, steps: nat)
    requires speed >= MinFallSpeed
    ensures StartSpeedFrom(speed, steps) == IterSpeedUp(speed, steps)
  {
    if steps > 0 {
      var scaled := ScaleSpeed(speed);
      if scaled < MinFallSpeed {
        IterSpeedUpAtFloor(steps - 1);
      } else {
        StartSpeedIsIteratedSpeedUp(scaled, steps - 1);
      }
    }
  }

  lemma {:induction false} IterSpeedUpNonIncreasing(d: int, n: nat)
    requires d >= MinFallSpeed
    ensures MinFallSpeed <= IterSpeedUp(d, n + 1) <= IterSpeedUp(d, n)
  {
    if n > 0 {
      IterSpeedUpNonIncreasing(SpeedUp(d), n - 1);
    }
  }

  /** A higher start level never starts slower. */
  lemma StartSpeedNonIncreasing(level: int)
    requires 1 <= level
    ensures StartSpeed(level + 1) <= StartSpeed(level)
  {
    StartSpeedIsIteratedSpeedUp(BaseFallSpeed, level);
    StartSpeedIsIteratedSpeedUp(BaseFallSpeed, level - 1);
    IterSpeedUpNonIncreasing(BaseFallSpeed, level - 1);
  }

  /** Level 2 starts at 595 ms. */
  lemma StartSpeedLevelTwo()
    ensures StartSpeed(2) == 595 * Millisecond
  {
    assert ScaleSpeed(BaseFallSpeed) == 595 * Millisecond;
    assert StartSpeedFrom(595 * Millisecond, 0) == 595 * Millisecond;
  }

  /** The first speed-up from the base interval gives 595 ms, the interval a
      game started at level 2 begins with. */
  lemma SpeedUpFromBase()
    ensures SpeedUp(BaseFallSpeed) == 595 * Millisecond
    ensures SpeedUp(BaseFallSpeed) == StartSpeed(2)
  {
    assert ScaleSpeed(BaseFallSpeed) == 595 * Millisecond;
    StartSpeedLevelTwo();
  }

  /** What starting a game does to the record: the clamped start level fixes the
      fall interval, the level offset and the number of kana spawned; scores,
      input, feedback, flags and the accumulator are reset; lives come from the
      menu setting. */
  predicate StartedGame(s: Session, t: Session) {
    var level := ClampLevel(s.settings.startLevel);
    && PaddedTo([], t.fallingKanas, level, s.settings.selectedKana, s.settings.dakutenEnabled, s.area.playAreaWidth)
    && t == s.(status := Status(StatePlaying, false, false),
               score := Score(0, 0, s.settings.startLives, level - 1),
               typing := Typing("", "", "", false),
               timing := Timing(StartSpeed(level), 0),
               fallingKanas := t.fallingKanas)
  }

  /** A started game holds exactly the clamped start level's number of kana, all
      fresh at the top row, and begins in [100 ms, 700 ms]. */
  lemma StartedGameShape(s: Session, t: Session)
    requires StartedGame(s, t)
    ensures |t.fallingKanas| == ClampLevel(s.settings.startLevel)
    ensures forall i :: 0 <= i < |t.fallingKanas| ==>
              t.fallingKanas[i].fallPosition == 0 && !t.fallingKanas[i].showingCorrect
    ensures MinFallSpeed <= t.timing.fallSpeed <= BaseFallSpeed
    ensures t.score.levelOffset == ClampLevel(s.settings.startLevel) - 1
  {
  }

  /** The loop of StartGame that derives the start interval, leaving it at the
      floor as soon as a scaling falls below it. */
  method StartSpeedLoop(startLevel: int) returns (speed: int)
    requires 1 <= startLevel
    ensures speed == StartSpeed(startLevel)
  {
    speed := BaseFallSpeed;
    for i := 1 to startLevel
      invariant StartSpeedFrom(speed, startLevel - i) == StartSpeed(startLevel)
    {
      speed := ScaleSpeed(speed);
      if speed < MinFallSpeed {
        speed := MinFallSpeed;
        break;
      }
    }
  }

  /** The loop of StartGame that fills the emptied board with `count` spawns. */
  method SpawnInitialKanas(m: Model, rng: Rand, count: nat)
    requires m.playAreaWidth > 0 && m.fallingKanas == []
    modifies m, rng
    ensures PaddedTo([], m.fallingKanas, count, m.selectedKana, m.dakutenEnabled, m.playAreaWidth)
    ensures m.View() == old(m.View()).(fallingKanas := m.fallingKanas)
  {
    ghost var before := m.View();
    for i := 0 to count
      invariant |m.fallingKanas| == i
      invariant forall j :: 0 <= j < i ==>
                  IsSpawn(m.fallingKanas[j], m.selectedKana, m.dakutenEnabled, m.playAreaWidth)
      invariant m.View() == before.(fallingKanas := m.fallingKanas)
    {
      var fk := SpawnKana(m, rng);
      m.fallingKanas := m.fallingKanas + [fk];
    }
  }

  /** The first half of the assignments of StartGame: the session enters play
      at the given level and interval with the scores and lives reset. */
  method EnterPlay(m: Model, startLevel: int, speed: int)
    modifies m
    ensures m.View() == old(m.View()).(status := Status(StatePlaying, false, false),
                                       score := Score(0, 0, old(m.startLives), startLevel - 1),
                                       timing := Timing(speed, old(m.timeAccumulated)))
  {
    m.state := StatePlaying;
    m.fallSpeed := speed;
    ResetScore(m, startLevel);
    m.gameOver := false;
    m.quitting := false;
  }

  /** The counters reset, the lives taken from the menu and the level offset
      recorded. */
  method ResetScore(m: Model, startLevel: int)
    modifies m
    ensures m.View() == old(m.View()).(score := Score(0, 0, old(m.startLives), startLevel - 1))
  {
    m.correct := 0;
    m.total := 0;
    m.levelOffset := startLevel - 1;
    m.lives := m.startLives;
  }

  /** The second half: input, feedback and the accumulator are cleared and the
      board is emptied. */
  method ClearBoard(m: Model)
    modifies m
    ensures m.View() == old(m.View()).(typing := Typing("", "", "", false),
                                       timing := Timing(old(m.fallSpeed), 0), fallingKanas := [])
  {
    m.input := "";
    m.feedback := "";
    m.feedbackType := "";
    m.showingFeedback := false;
    m.timeAccumulated := 0;
    m.fallingKanas := [];
  }

  method StartGame(m: Model, rng: Rand)
    requires m.playAreaWidth > 0
    modifies m, rng
    ensures StartedGame(old(m.View()), m.View())
  {
    var startLevel := m.startLevel;
    if startLevel < 1 {
      startLevel := 1;
    }
    if startLevel > 10 {
      startLevel := 10;
    }

    var speed := StartSpeedLoop(startLevel);

    EnterPlay(m, startLevel, speed);
    ClearBoard(m);
    SpawnInitialKanas(m, rng, startLevel);
  }
}
