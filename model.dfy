// The game state: the falling kana, the session record mutated by the engine,
// and the quantities derived from it.

module Model {
  import opened Kana

  /** Durations are integer nanoseconds, as Go's time.Duration. */
  const Millisecond: int := 1_000_000

  /** The fall interval never goes below this floor. */
  const MinFallSpeed: int := 100 * Millisecond

  /** One kana in flight: its glyph and romanization, its row, its column, and
      whether it is being shown as answered. */
  datatype FallingKana = FallingKana(kana: Kana, fallPosition: int, horizontalPos: int, showingCorrect: bool)

  datatype GameState = StateMenu | StatePlaying | StateGameOver

  // The menu sections, in the order the Left and Right keys walk through them.
  const MenuSectionKana: int := 0
  const MenuSectionDakuten: int := 1
  const MenuSectionLevel: int := 2
  const MenuSectionLives: int := 3
  const MenuSectionStart: int := 4

  /** Where the session is, and whether it is over or quitting. */
  datatype Status = Status(state: GameState, gameOver: bool, quitting: bool)

  /** The choices made in the menu. */
  datatype Settings = Settings(
    selectedKana: KanaType,
    dakutenEnabled: bool,
    menuCursor: int,
    menuSection: int,
    startLevel: int,
    startLives: int)

  /** The size of the play area: rows and columns. */
  datatype Area = Area(maxFallHeight: int, playAreaWidth: int)

  /** The typed input and the feedback shown about it. */
  datatype Typing = Typing(input: string, feedback: string, feedbackType: string, showingFeedback: bool)

  /** The answers counted so far, the lives left and the level offset. */
  datatype Score = Score(correct: int, total: int, lives: int, levelOffset: int)

  /** The fall interval and the time accumulated towards the next fall step. */
  datatype Timing = Timing(fallSpeed: int, timeAccumulated: int)

  /** The value of every field of the session record at one moment, grouped
      by concern. */
  datatype Session = Session(
    status: Status,
    settings: Settings,
    area: Area,
    fallingKanas: seq<FallingKana>,
    typing: Typing,
    score: Score,
    timing: Timing)

  /** Go's integer division, which truncates toward zero. */
  function DivTrunc(a: int, b: int): int
    requires b > 0
  {
    if a >= 0 then a / b else -((-a) / b)
  }

  /** The current level: one more than the number of completed groups of
      twenty correct answers. The level offset of the session is not part of it. */
  function LevelFor(correct: int): (r: int)
    ensures correct >= 0 ==> r >= 1
    ensures correct >= 0 ==> (r - 1) * 20 <= correct < r * 20
  {
    DivTrunc(correct, 20) + 1
  }

  /** The level rises by exactly one when the count of correct answers reaches a
      multiple of twenty, and stays the same otherwise. */
  lemma LevelStep(correct: int)
    requires correct >= 0
    ensures LevelFor(correct + 1) == LevelFor(correct) + (if (correct + 1) % 20 == 0 then 1 else 0)
  {
    var l, l' := LevelFor(correct), LevelFor(correct + 1);
    if (correct + 1) % 20 == 0 {
      assert correct + 1 == l * 20;
    } else {
      assert (correct + 1) != l * 20;
    }
  }

  /** The level never decreases as the count of correct answers grows. */
  lemma {:induction false} LevelMonotone(a: int, b: int)
    requires 0 <= a <= b
    ensures LevelFor(a) <= LevelFor(b)
    decreases b - a
  {
    if a < b {
      LevelStep(a);
      LevelMonotone(a + 1, b);
    }
  }

  /** The score: a hundred points per correct answer. */
  function PointsFor(correct: int): (r: int)
    ensures r % 100 == 0 && r / 100 == correct
    ensures correct >= 0 ==> r >= 0
  {
    correct * 100
  }

  predicate AnyShowingCorrect(ks: seq<FallingKana>) {
    exists i :: 0 <= i < |ks| && ks[i].showingCorrect
  }

  /** A kana lies inside the play area. */
  predicate InField(fk: FallingKana, maxFallHeight: int, playAreaWidth: int) {
    0 <= fk.fallPosition < maxFallHeight && 0 <= fk.horizontalPos < playAreaWidth
  }

  /** Every falling kana is an entry of the given set. */
  predicate FromSet(ks: seq<FallingKana>, kanaSet: seq<Kana>) {
    forall i :: 0 <= i < |ks| ==> ks[i].kana in kanaSet
  }

  /** The menu settings stay in their ranges. */
  predicate SettingsInRange(st: Settings) {
    && 1 <= st.startLevel <= 10
    && 1 <= st.startLives <= 10
    && 0 <= st.menuCursor <= 2
    && MenuSectionKana <= st.menuSection <= MenuSectionStart
  }

  /** The fall interval is at least the floor and the accumulator stays below it. */
  predicate TimingInRange(tm: Timing) {
    tm.fallSpeed >= MinFallSpeed && 0 <= tm.timeAccumulated < tm.fallSpeed
  }

  /** The invariant the engine keeps over every session it builds or updates. */
  predicate Consistent(s: Session) {
    && s.area.playAreaWidth > 0
    && s.area.maxFallHeight > 0
    && TimingInRange(s.timing)
    && SettingsInRange(s.settings)
    && 0 <= s.score.correct <= s.score.total
    && 0 <= s.score.lives
    && (s.status.gameOver <==> s.status.state == StateGameOver)
    && (s.status.state == StatePlaying ==> s.score.lives >= 1 && |s.fallingKanas| >= LevelFor(s.score.correct))
    && (forall i :: 0 <= i < |s.fallingKanas| ==> InField(s.fallingKanas[i], s.area.maxFallHeight, s.area.playAreaWidth))
    && (s.status.state == StatePlaying ==>
          FromSet(s.fallingKanas, GetKanaSet(s.settings.selectedKana, s.settings.dakutenEnabled)))
  }

  /** The session record, updated in place by the engine. */
  class Model {
    var state: GameState
    var selectedKana: KanaType
    var dakutenEnabled: bool
    var menuCursor: int
    var menuSection: int
    var startLevel: int
    var startLives: int
    var levelOffset: int
    var fallingKanas: seq<FallingKana>
    var input: string
    var feedback: string
    var feedbackType: string
    var correct: int
    var total: int
    var lives: int
    var quitting: bool
    var gameOver: bool
    var maxFallHeight: int
    var playAreaWidth: int
    var showingFeedback: bool
    var fallSpeed: int
    var timeAccumulated: int

    /** A record holding the given field values. */
    constructor (s: Session)
      ensures View() == s
    {
      state, gameOver, quitting := s.status.state, s.status.gameOver, s.status.quitting;
      selectedKana, dakutenEnabled := s.settings.selectedKana, s.settings.dakutenEnabled;
      menuCursor, menuSection := s.settings.menuCursor, s.settings.menuSection;
      startLevel, startLives := s.settings.startLevel, s.settings.startLives;
      maxFallHeight, playAreaWidth := s.area.maxFallHeight, s.area.playAreaWidth;
      fallingKanas := s.fallingKanas;
      input, feedback := s.typing.input, s.typing.feedback;
      feedbackType, showingFeedback := s.typing.feedbackType, s.typing.showingFeedback;
      correct, total, lives, levelOffset := s.score.correct, s.score.total, s.score.lives, s.score.levelOffset;
      fallSpeed, timeAccumulated := s.timing.fallSpeed, s.timing.timeAccumulated;
    }

    /** The current value of every field. */
    function View(): Session
      reads this
    {
      Session(
        Status(state, gameOver, quitting),
        Settings(selectedKana, dakutenEnabled, menuCursor, menuSection, startLevel, startLives),
        Area(maxFallHeight, playAreaWidth),
        fallingKanas,
        Typing(input, feedback, feedbackType, showingFeedback),
        Score(correct, total, lives, levelOffset),
        Timing(fallSpeed, timeAccumulated))
    }

    ghost predicate Valid()
      reads this
    {
      Consistent(View())
    }

    function GetLevel(): int
      reads this
    {
      LevelFor(correct)
    }

    function GetPoints(): int
      reads this
    {
      PointsFor(correct)
    }

    /** Whether some falling kana is being shown as answered. */
    method HasShowingCorrect() returns (b: bool)
      ensures b == AnyShowingCorrect(fallingKanas)
    {
      for i := 0 to |fallingKanas|
        invariant forall j :: 0 <= j < i ==> !fallingKanas[j].showingCorrect
      {
        if fallingKanas[i].showingCorrect {
          return true;
        }
      }
      return false;
    }
  }
}
