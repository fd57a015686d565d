# gokana engine, modelled in Dafny

gokana is a terminal typing drill: kana fall down a play area and the player
types their romanization before they reach the bottom. This project models the
engine behind it: the session record that the handlers change in place, the
menu that sets a game up, starting a game, the tick that makes the kana fall,
the typed answer and its judgement, backspace, the two delayed messages, and
the kana catalogue the spawner draws from.

Layout:

- `kana.dfy` (module `Kana`): the six tables, `GetKanaSet`, and the display
  name of a script selection.
- `strings.dfy` (module `Strings`): ASCII lower-casing and trimming, which
  build the comparison value of an answer.
- `model.dfy` (module `Model`): the falling kana, the class `Model.Model`
  holding every field of the session record, the level and the points, and
  the invariant `Consistent` every handler keeps.
- `random.dfy` (module `Random`): the source of the spawner's random draws.
- `game.dfy` (module `Game`): the spawner, the initial record and starting a game.
- `steps.dfy` (module `Steps`): one relation per handler between the record
  before, the record after and the commands handed back, plus the
  properties of those relations.
- `update.dfy` (module `Update`): the handlers as methods that update the
  record in place, each proved to realise the relation of the same name.

Modelling notes:

- `Model.Model` keeps the source's flat fields. `View()` reads them into a
  `Session` value grouped by concern: status, menu settings, play area,
  board, typing, score and timing. The relations and lemmas are stated on
  that value.
- The record has fields that the struct in internal/model/model.go:6-21
  omits but the engine uses: the state, the selected script, the dakuten
  switch, the menu cursor and section, the start level, the start lives and
  the level offset. The menu sections are 0 to 4, in the order Kana,
  Dakuten, Level, Lives, Start, which is the order the Left and Right keys
  walk through.
- Durations are integer nanoseconds, like Go's `time.Duration`. Scaling a
  duration by 0.85 is `d * 85 / 100`, truncated toward zero.
- The commands a handler returns are a sequence of tags:
  - no command is `[]`;
  - the tick is `[TickCmd]`;
  - the batched tick and feedback pause is `[TickCmd, FeedbackDelayCmd]`;
  - the pause after a correct answer is `[CorrectDelayCmd]`;
  - quitting is `[QuitCmd]`.
- The random draws come from a `Random.Rand` object. Its only promise is
  that a draw lies in `[0, n)`.
- The level is `correct / 20 + 1`, exactly as `GetLevel` computes it. The
  level offset that `StartGame` records is never read.
- The state is a three-valued datatype. The default branch of `Update`
  (internal/game/update.go:49-50) therefore cannot be reached in the model.
- Space is its own key. During play neither Space nor any key other than
  Ctrl+C, Esc, Backspace and typed characters does anything.

## Model

| member | source | states |
|---|---|---|
| Kana.KanaTypeName | internal/model/kana.go:11-22 | each of the three selections gets its own name, and exactly the values outside them are "Unknown" |
| Kana.GetKanaSet | internal/model/kana.go:94-132 | the selected set has 46/71 (hiragana), 46/72 (katakana) or 92/143 (both) kana without/with dakuten, and 46 for any other value; it is never empty and every romanization is non-empty lower-case ASCII |
| Kana.TablesAreRomaji | internal/model/kana.go:38-91 | every romanization in the six tables is a non-empty word of lower-case ASCII letters |
| Kana.PlainIsPrefixOfDakuten | internal/model/kana.go:96-113 | for a single script, the set without dakuten is a prefix of the set with dakuten |
| Kana.BothPlainIsContainedNotPrefix | internal/model/kana.go:114-128 | for both scripts, every kana of the plain set is in the dakuten set, but the plain set is not a prefix of it |
| Kana.BothIsHiraganaThenKatakana | internal/model/kana.go:114-128 | the set for both scripts is the hiragana selection followed by the katakana selection, with or without dakuten |
| Kana.UnknownTypeIsMainHiragana | internal/model/kana.go:129-130 | any selection outside the three named values yields the main hiragana table |
| Strings.ToLower | internal/game/update.go:242 | lower-casing keeps the length, leaves no upper-case letter, shifts only upper-case letters and keeps white space where it was |
| Strings.ToLowerIdempotent | internal/game/update.go:242 | lower-casing twice is lower-casing once |
| Strings.TrimSpace | internal/game/update.go:242 | the trimmed answer is a contiguous slice of the input with only white space before and after it, and it neither starts nor ends with white space |
| Strings.TrimSpaceIdempotent | internal/game/update.go:242 | trimming twice is trimming once |
| Strings.TrimSpaceOfBlank | internal/game/update.go:242 | input made of white space only trims to the empty answer |
| Strings.NormalizeWord | internal/game/update.go:242-247 | a romanization, typed in lower or upper case, normalizes to itself, so it matches its kana |
| Model.LevelFor | internal/model/model.go:24-26 | the level is at least 1, and `correct` lies in the level's window of twenty answers |
| Model.LevelStep | internal/model/model.go:24-26 | one more correct answer raises the level by exactly one when the count becomes a multiple of twenty, and by nothing otherwise |
| Model.LevelMonotone | internal/model/model.go:24-26 | the level never decreases as the count of correct answers grows |
| Model.PointsFor | internal/model/model.go:29-31 | the points are a hundred per correct answer, and are never negative for a non-negative count |
| Model.Model.HasShowingCorrect | internal/model/model.go:34-41 | the scan answers true exactly when some falling kana is shown as answered |
| Game.NewFallingKana | internal/game/game.go:10-18 | the spawned kana sits at the top row, is unmarked, is the drawn entry of the selected set and stands in the drawn column |
| Game.SpawnKana | internal/game/game.go:10-18 | a spawned kana is a spawn for the session's settings: top row, unmarked, from the selected set, in a column of the play area |
| Game.InitialSession | internal/game/game.go:20-38 | the initial record is in the menu with both scripts and dakuten, the cursor on "Both", the Start section, start level 1, four lives equal to the start lives, a 15 by 55 play area, a 700 ms fall interval, no scores and an empty board, and it satisfies the engine invariant |
| Game.InitialModel | internal/game/game.go:20-38 | the new record holds exactly the initial session and is well formed |
| Game.ClampLevel | internal/game/game.go:41-47 | the level used is the setting forced into [1, 10]: unchanged inside, 1 below and 10 above |
| Game.ScaleSpeed | internal/game/game.go:52 | scaling by 0.85 truncates `d * 0.85` toward zero, so a positive interval strictly shrinks |
| Game.SpeedUp | internal/game/update.go:265-268 | a speed-up never goes below 100 ms, never lengthens an interval at or above the floor, strictly shortens one above it, and leaves the floor fixed |
| Game.StartSpeed | internal/game/game.go:50-57 | the start interval lies in [100 ms, 700 ms], and level 1 starts at exactly 700 ms |
| Game.StartSpeedLoop | internal/game/game.go:50-57 | the loop with its early exit at the floor computes the start interval of the level |
| Game.StartSpeedIsIteratedSpeedUp | internal/game/game.go:50-57 | stopping the loop at the floor gives the same interval as applying every floored speed-up, so level L starts where level 1 is after L - 1 speed-ups |
| Game.StartSpeedNonIncreasing | internal/game/game.go:50-57 | a higher start level never starts at a longer interval |
| Game.StartSpeedLevelTwo | internal/game/game.go:50-57 | level 2 starts at 595 ms |
| Game.SpeedUpFromBase | internal/game/update.go:264-268 | the first speed-up from the 700 ms base interval gives 595 ms, the interval level 2 starts at |
| Game.EnterPlay | internal/game/game.go:59-66 | the session enters play, not over and not quitting, at the given interval, with the scores reset, and nothing else changes |
| Game.ResetScore | internal/game/game.go:61-64 | both counters become zero, the lives are the menu's start lives and the level offset is level - 1, and nothing else changes |
| Game.ClearBoard | internal/game/game.go:67-72 | the input, feedback text, feedback type, feedback flag and accumulator are cleared and the board emptied, and nothing else changes |
| Game.SpawnInitialKanas | internal/game/game.go:74-77 | the emptied board receives exactly `count` fresh spawns in order, and nothing else changes |
| Game.StartGame | internal/game/game.go:40-78 | starting a game sets play, resets scores, input, feedback, flags and the accumulator, takes lives from the menu, records the level offset, sets the start interval and fills the emptied board with the clamped level's number of spawns |
| Game.StartedGameShape | internal/game/game.go:59-77 | a started game holds exactly the clamped start level's number of kana, all at the top row and unmarked, starts within [100 ms, 700 ms] and records the level offset as level - 1 |
| Steps.MenuUpDownRoundTrip | internal/game/update.go:61-100 | on every section, Down undoes Up and Up undoes Down while the cursor, start level and start lives are in range |
| Steps.MenuLeftRightRoundTrip | internal/game/update.go:101-110 | Left and Right undo each other, and five steps Right return to the section started from |
| Steps.MenuKeysKeepRanges | internal/game/update.go:61-120 | the menu keys keep the cursor in [0, 2], the start level and lives in [1, 10] and the section between Kana and Start |
| Steps.MenuStepPreservesConsistent | internal/game/update.go:54-124 | every menu key leaves a well-formed record, including a game started from the Start section |
| Steps.MenuStepStates | internal/game/update.go:111-120 | a menu key either stays in the menu or starts play and schedules the first tick |
| Update.MenuUpKey | internal/game/update.go:61-80 | Up moves the cursor back, flips dakuten, or raises the start level or lives, wrapping, and changes nothing else |
| Update.MenuDownKey | internal/game/update.go:81-100 | Down is the mirror image of Up and changes nothing else |
| Update.MenuLeftKey | internal/game/update.go:101-105 | Left selects the previous section, wrapping from Kana to Start |
| Update.MenuRightKey | internal/game/update.go:106-110 | Right selects the next section, wrapping from Start to Kana |
| Update.MenuEnterKey | internal/game/update.go:111-120 | Enter chooses the script under the cursor, starts the game with a tick, or moves on one section |
| Update.QuitKey | internal/game/update.go:58-60 | Ctrl+C and Esc mark the record as quitting and ask to quit |
| Update.UpdateMenu | internal/game/update.go:54-124 | in the menu, a key does what the menu relation says and any other message changes nothing and schedules nothing |
| Steps.MissesCountsMissedPositions | internal/game/update.go:164-191 | the misses of a fall step are exactly the unmarked kana whose next row reaches the bottom |
| Steps.MissesOfPrefix | internal/game/update.go:164-191 | the misses among the first kana never exceed the misses of the whole board |
| Steps.FellRecordNextMiss | internal/game/update.go:171-187 | a further miss that leaves a life takes a life, adds a question and latches "wrong" feedback with the input cleared |
| Steps.FellRecordLastMiss | internal/game/update.go:171-178 | the miss that uses up the lives also marks the game over and quitting, leaving the board as it was |
| Steps.TickAccounting | internal/game/update.go:152-198 | the lives a tick takes equal the questions it adds, at most one per kana; correct answers stay; the game ends exactly when the fall step's misses reach the lives, asking only to quit; otherwise a tick follows, with one feedback pause exactly when a life was lost, and then the input is cleared and "wrong" feedback latched |
| Steps.TickTiming | internal/game/update.go:157-159 | a tick adds 100 ms to the accumulator, and once that reaches the fall interval it takes one interval off rather than resetting; the board does not move before that; the accumulator stays below the interval |
| Steps.FellPreservesField | internal/game/update.go:161-193 | after a fall step every kana is still inside the play area and drawn from the selected set |
| Steps.TickPreservesConsistent | internal/game/update.go:152-198 | a tick leaves a well-formed record |
| Steps.TickStepStates | internal/game/update.go:152-198 | a tick keeps the game in play or ends it with the record quitting and a request to quit |
| Update.LoseLife | internal/game/update.go:172-173 | a miss takes one life and adds one question, and changes nothing else |
| Update.EndGame | internal/game/update.go:175-177 | losing marks the record over, in the game-over state and quitting |
| Update.LatchWrong | internal/game/update.go:180-186 | wrong feedback is latched and the input cleared |
| Update.Miss | internal/game/update.go:171-187 | after n misses, one more either ends the game at the losing miss or leaves the record of n + 1 misses |
| Update.FallOne | internal/game/update.go:164-190 | one kana of the fall step stays when marked, moves down a row, or is a miss replaced by a spawn, unless it ends the game |
| Update.FallKanas | internal/game/update.go:161-197 | the fall loop over the board realises the fall step: the game lost at the losing miss, or every kana moved in order with the misses accounted and at most one feedback pause beside the tick |
| Update.Tick | internal/game/update.go:152-198 | a tick does what the tick relation says |
| Update.MatchAnswer | internal/game/update.go:244-255 | the scan finds the first kana whose romanization is the answer; without a match it reports exactly whether the answer begins some romanization |
| Steps.FirstMatch | internal/game/update.go:244-255 | the index is the first whose romanization equals the answer, or -1 when none does |
| Steps.HitScoring | internal/game/update.go:257-273 | a correct answer adds one question and one correct answer, costs no life, and on a multiple of twenty shortens the interval by the floored speed-up; the interval stays at least 100 ms and never grows |
| Steps.JudgedScoring | internal/game/update.go:242-282 | a judged answer scores at most one answer, which counts as a question and as correct exactly when the pause after a correct answer is scheduled |
| Steps.RuneScoring | internal/game/update.go:226-283 | typed characters never cost a life, score at most one answer, and only ever speed the fall up, and only on a multiple of twenty |
| Steps.TwentiethHitSpeedsUp | internal/game/update.go:257-268 | the twentieth correct answer of a game still at 700 ms brings the interval down to 595 ms |
| Steps.HitMarksOnly | internal/game/update.go:257-273 | on a board without marks, a correct answer marks exactly the matched kana and keeps the typed input |
| Steps.HitMarksOne | internal/game/update.go:233-274 | after a correct answer exactly one kana is marked, and its romanization is the normalized input |
| Steps.BlankAnswerIsPending | internal/game/update.go:242-255 | an answer that trims to nothing is never wrong while a kana is on the board, and scores nothing |
| Steps.RunePreservesConsistent | internal/game/update.go:226-283 | typed characters leave a well-formed record |
| Steps.RuneStepStates | internal/game/update.go:226-283 | typed characters never leave play |
| Update.AppendTyped | internal/game/update.go:233-241 | the typed characters are appended to the input, after a board with a mark has been cleared of marks and input |
| Update.RecordHit | internal/game/update.go:258-262 | a correct answer scores, latches "correct", marks the matched kana and resets the accumulator |
| Update.SpeedUpFall | internal/game/update.go:265-268 | the interval becomes the floored speed-up, and nothing else changes |
| Update.Hit | internal/game/update.go:257-273 | a correct answer does what the hit relation says, including the speed-up and the top-up on every twentieth |
| Update.Judge | internal/game/update.go:242-282 | the answer is judged as a hit, as wrong with feedback, or as a prefix still being typed |
| Update.KeepTyping | internal/game/update.go:280-282 | an answer that begins some romanization keeps the typed input and clears the feedback type, and nothing else changes |
| Update.Runes | internal/game/update.go:226-283 | typed characters do what the typing relation says, and do nothing when over or while feedback shows |
| Steps.Backspaced | internal/game/update.go:206-224 | Backspace is ignored when the game is over or feedback shows, and it never changes the status, settings, play area, scores, timing, feedback type or flag, the number of kana or any kana other than its mark |
| Steps.BackspaceShortens | internal/game/update.go:206-224 | Backspace leaves no mark, leaves the input a prefix of what it was and one character shorter unless it was empty or a mark was cleared, and keeps the scores and the number of kana |
| Steps.BackspacePreservesConsistent | internal/game/update.go:206-224 | Backspace leaves a well-formed record |
| Update.ClearAllMarks | internal/game/update.go:216-218 | the loop unmarks every kana in place and changes nothing else |
| Update.ClearGuessed | internal/game/update.go:214-219 | the input is cleared and every mark removed |
| Update.Backspace | internal/game/update.go:206-224 | Backspace does what the backspace relation says |
| Steps.UnmarkedMembers | internal/game/update.go:129-135 | a kana survives the removal exactly when it was on the board unmarked |
| Steps.UnmarkedConcat | internal/game/update.go:129-135 | the removal works piece by piece, so the survivors keep their order |
| Steps.UnmarkedOfUnmarked | internal/game/update.go:129-135 | a board without marks is left as it is |
| Steps.CorrectDelayRefills | internal/game/update.go:128-144 | after the pause no kana is marked, the board holds at least the level's number of kana, and every unmarked kana is still on it |
| Steps.CorrectDelayPreservesConsistent | internal/game/update.go:128-144 | the end of the pause leaves a well-formed record |
| Steps.FeedbackClearedIdempotent | internal/game/update.go:146-150 | clearing feedback twice is clearing it once, and a record without feedback is left as it is |
| Update.KeepUnmarked | internal/game/update.go:129-135 | the loop keeps exactly the unmarked kana, in order, and changes nothing else |
| Update.PadToLevel | internal/game/update.go:137-140 | the board is topped up with spawns at its end until it holds the level's number of kana; nothing else changes |
| Update.CorrectDelay | internal/game/update.go:128-144 | the end of the pause after a correct answer does what its relation says |
| Update.FeedbackDelay | internal/game/update.go:146-150 | the end of the feedback pause clears the feedback and nothing else |
| Update.UpdatePlaying | internal/game/update.go:126-286 | a message during play does what the play relation says |
| Update.Update | internal/game/update.go:40-52 | a message does what the menu, play or game-over relation says, and the record stays well formed |
| Steps.PlayingPreservesConsistent | internal/game/update.go:126-286 | every message handled during play leaves a well-formed record |
| Steps.UpdatePreservesConsistent | internal/game/update.go:40-52 | every message leaves a well-formed record |
| Steps.StatesMoveForward | internal/game/update.go:40-52 | a finished game keeps asking to quit; play never returns to the menu; the game ends only with a request to quit; the menu only starts play with the first tick |

## Left out

- The terminal rendering and styling (internal/ui) and the program wiring in
  main.go are not part of this model.
- `Init`, which schedules nothing, is not modelled.
- The real timers of the runtime are not modelled. Scheduling a tick, a
  pause or quitting is a returned tag, and the 500 ms pause length is not
  represented.
- The distribution of the random draws is not modelled. A draw is only known
  to lie in its range, and the generator's recurrence is a stand-in.
- IEEE rounding of the 0.85 scaling is not modelled. Scaling is exact
  integer arithmetic, truncated toward zero.
- Game.ScaleSpeed: does not model 64-bit overflow of the duration, because
  every interval the engine produces lies in [100 ms, 700 ms].
- Unicode is not modelled. Lower-casing touches only ASCII letters, and
  trimming removes only the ASCII white space characters.
- Steps.Backspaced: drops the last character, where the source drops the
  last byte. The two differ only for input containing multi-byte characters.
- Typed runes are appended as characters. The conversion of a rune slice to
  a string is not modelled.
