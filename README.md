# Morse code quiz engine

A Dafny model of the quiz engine of the RP2040 Morse code game in
`assignments/assign02/assign02.c`. The player keys in dots, dashes and
spaces with one button. An assembly routine classifies each press into one
of four input events: 1 is a dot, 2 a dash, 3 a space and 4 enter. The
engine works on those events. It stores the marks in the 20-slot buffer
`inputSequence` and compares the submitted string with the code of the
current question. It keeps the lives, the streak and the totals, and it
moves through four levels:

- levels 1 and 2 ask for a random letter or figure;
- levels 3 and 4 ask for the words CAT, CODE, MICRO, INTEL and GROUP in turn.

It shows the remaining lives as the colour of an RGB LED.

The project has the following files:

- `morse_table.dfy` (module `MorseTable`) holds the tables `alp` and `que` and the 36-entry `table` that `morse_init` fills. The letter and figure codes are those of the International Morse Code, ITU-R M.1677-1, Part I, section 1.1. The file also proves the table invariants.
- `c_string.dfy` (module `CStrings`) gives the C meaning of a `char` buffer: the string before its first `'\0'`, and `strcmp` equality.
- `colour.dfy` (module `Colour`) models `urgb_u32` and the colour choice of `RGB_Lives_Display`.
- `quiz.dfy` (module `Quiz`) is the specification. A `Session` value holds every global the engine reads or writes. Each C function that updates globals is a function from session to session, except the one-field setters `level_select_true`, `level_select_false` and `set_level`. `ChooseLevel` applies those as record updates. `checkAnswer`, `check_level_complete` and `r` only compute a value, and they are functions of what they read. `select_level` computes the level from the buffer and then clears the buffer. The model splits it into `SelectLevel`, which gives the level, and `InitializeInputArray`, which `ChooseLevel` applies afterwards. `DetectInput` is the handler of one input event.
- `quiz_properties.dfy` (module `QuizProperties`) holds the lemmas about what one event does: storing marks, scoring, level changes, level choice, game over and the word cycle.
- `game.dfy` (module `MorseGame`) is the imperative model. Class `Game` has one field per global that the engine writes, and `inputSequence` is an `array<char>` written in place. The engine's C functions are methods of `Game`, with three exceptions:
  - `get_level` only reads, and is a function;
  - `morse_init` fills the lookup `table` once, and is the constant `MorseTable.MorseInit()`;
  - `urgb_u32` is the function `Colour.Urgb`.

  The methods that update fields are proved to leave `State()` where the `Quiz` function of the same name says. `SelectLevel` is an exception: it returns `Quiz.SelectLevel` of the buffer and leaves the state `Quiz.InitializeInputArray` gives. `level_select_true`, `level_select_false` and `set_level` each assign one field, and their methods say so directly. `CheckAnswer`, `CheckAlphanumeric`, `CheckLevelComplete` and `Random` change no field, and return what `Quiz.CheckAnswer`, `Quiz.Matches`, `Quiz.CheckLevelComplete` and `Quiz.R` say. `checkAlphanumeric` and `initializeInputArray` keep their loops.
- `buffer_finding.dfy` (module `BufferFinding`) holds the finding about the buffer size (see "## Findings").

Things outside the engine become inputs of the model:

- The value of `rand()` is a parameter `rand`. `r(low, high)` is modelled exactly, as `low + rand % (high - low + 1)`.
- The LED is the field `pixel`, which records the last colour pushed.
- Printed text is not modelled, except the entries `checkAlphanumeric` reports. They are returned as a `diagnostic` sequence.

The source has no bounds checks on the buffer. The preconditions in
`Quiz.Defined` are where the C code stays defined:

- a mark needs `i` below the buffer length;
- enter needs `i >= 1`, because it writes slot `i - 1`.

The model follows what the code does, also where the source's own comments suggest otherwise:

- Lives are reset only when a level is chosen (`gameStart`). They are not reset when a level is completed: `progress_level` does not call `gameStart`.
- `check_level_complete` reports "you've lost the game" when the lives reach 0 (assign02.c:1008). Nothing then stops play: `select_level_input` stays 1, and further answers are still scored.
- `Remaining_Lives` is documented as ranging from 0 to 3 (assign02.c:304), and `RGB_Lives_Display` expects a count in [0,3] (assign02.c:231). A wrong answer at 0 lives still subtracts one, so the lives can go below 0. The LED then keeps its last colour.
- The doc comment of `RGB_Lives_Display` (assign02.c:226-229) says the LED goes off at 0 lives and red at 1. The code shows red at 0, orange at 1, yellow at 2 and green at 3. The model follows the code.
- `progress_level` says the player "completed the game" on level 4 (assign02.c:692). Nothing ends the game there either. The streak stays at 5, no question is asked, and the next correct answer makes it 6 and asks the next word.
- An unrecognised level code only clears the buffer. No message is printed for it.

## Model

| member | source | states |
|---|---|---|
| MorseTable.MorseInit | assignments/assign02/assign02.c:411-486 | `table` has 36 entries; entry k holds the code `alp[k]` and the single letter of `que[k]` |
| MorseTable.CodesDistinct | assignments/assign02/assign02.c:491-533 | the 41 codes of `alp` are pairwise different |
| MorseTable.CodesDiffer | assignments/assign02/assign02.c:491-533 | two different entries of `alp` have different codes |
| MorseTable.LevelCodesDistinct | assignments/assign02/assign02.c:519-522 | the four level-selection codes (figures 1-4) differ pairwise |
| MorseTable.WordSpelledCat | assignments/assign02/assign02.c:528 | the code of CAT is the codes of C, A, T joined by one space |
| MorseTable.WordSpelledCode | assignments/assign02/assign02.c:529 | the code of CODE is the codes of C, O, D, E joined by one space |
| MorseTable.WordSpelledMicro | assignments/assign02/assign02.c:530 | the code of MICRO is the codes of M, I, C, R, O joined by one space |
| MorseTable.WordSpelledIntel | assignments/assign02/assign02.c:531 | the code of INTEL is the codes of I, N, T, E, L joined by one space |
| MorseTable.WordSpelledGroup | assignments/assign02/assign02.c:532 | the code of GROUP is the codes of G, R, O, U, P joined by one space |
| MorseTable.WordLettersCat | assignments/assign02/assign02.c:575 | `que` for CAT is the letters C, A, T of the table |
| MorseTable.WordLettersCode | assignments/assign02/assign02.c:576 | `que` for CODE is the letters C, O, D, E |
| MorseTable.WordLettersMicro | assignments/assign02/assign02.c:577 | `que` for MICRO is the letters M, I, C, R, O |
| MorseTable.WordLettersIntel | assignments/assign02/assign02.c:578 | `que` for INTEL is the letters I, N, T, E, L |
| MorseTable.WordLettersGroup | assignments/assign02/assign02.c:579 | `que` for GROUP is the letters G, R, O, U, P |
| MorseTable.CodesAreMarks | assignments/assign02/assign02.c:491-533 | every code consists of dots, dashes and spaces only |
| MorseTable.CodeLengths | assignments/assign02/assign02.c:528-532 | GROUP is 20 marks long; every other code is at most 18 |
| CStrings.CString | assignments/assign02/assign02.c:1111 | the C string of a buffer is its prefix before the first `'\0'` (the whole buffer if there is none) |
| CStrings.Strcmp | assignments/assign02/assign02.c:1170 | `strcmp` returns 0 exactly when the two C strings are equal |
| CStrings.CStringOfUnterminated | assignments/assign02/assign02.c:491-533 | a string without `'\0'` is its own C string |
| CStrings.CStringOfTerminated | assignments/assign02/assign02.c:1111 | a buffer with `'\0'` at n and none before has the first n characters as C string |
| Colour.Urgb | assignments/assign02/assign02.c:218-221 | the packed value is below 2^24, with g in bits 16-23, r in bits 8-15 and b in bits 0-7 |
| Colour.UrgbInjective | assignments/assign02/assign02.c:218-221 | different colour triples pack to different values |
| Colour.LivesColour | assignments/assign02/assign02.c:233-254 | a life count has a colour exactly when it is 0..3 |
| Colour.LivesColoursDistinct | assignments/assign02/assign02.c:233-254 | the colours of different life counts differ, and none is the start-up blue |
| Quiz.Initial | assignments/assign02/assign02.c:306-372 | the power-on globals satisfy the engine invariant: empty buffer, 3 lives, no level, blue LED |
| Quiz.InitializeInputArray | assignments/assign02/assign02.c:1066-1075 | every buffer slot is `'\0'`, `i` and `inputComplete` are 0, nothing else changes |
| Quiz.CheckAnswer | assignments/assign02/assign02.c:1168-1179 | the answer is correct exactly when the buffer's C string is the code asked for |
| Quiz.Answer | assignments/assign02/assign02.c:1111-1113 | enter is a correct answer exactly when the submitted string is the code asked for |
| Quiz.OnlyExactCodeAccepted | assignments/assign02/assign02.c:1168-1179 | a proper prefix, a proper extension or a one-mark change of the code is rejected |
| Quiz.MatchesBelowMembers | assignments/assign02/assign02.c:628-643 | the reverse lookup reports exactly the entries whose code is the buffer's string |
| Quiz.NoEarlierMatch | assignments/assign02/assign02.c:628-643 | in a table without repeats, no entry before j has the code of entry j |
| Quiz.MatchesOfCode | assignments/assign02/assign02.c:628-643 | in a table without repeats, the lookup of the code of entry k reports k alone |
| Quiz.MatchesAtMostOne | assignments/assign02/assign02.c:628-643 | in a table without repeats, the lookup reports at most one entry |
| Quiz.LookupInDistinctTable | assignments/assign02/assign02.c:628-643 | in a table without repeats: at most one entry is reported, none exactly when no code matches ("?"), and entry k for its own code |
| Quiz.ReverseLookup | assignments/assign02/assign02.c:628-643 | `checkAlphanumeric` on `alp` reports at most one entry, none exactly when no code matches, and entry k for the code of k |
| Quiz.MatchesBelow | assignments/assign02/assign02.c:631-638 | the entries below n whose code is the string, in increasing order; it has no contract of its own, and `MatchesBelowMembers`, `MatchesOfCode` and `MatchesAtMostOne` pin it down |
| Quiz.Matches | assignments/assign02/assign02.c:628-643 | what `checkAlphanumeric` reports, with none meaning "?"; it has no contract of its own, and `ReverseLookup` pins it down |
| Quiz.ResponseDiagnostic | assignments/assign02/assign02.c:1041-1044 | `response` runs the lookup exactly on a wrong answer on level 1 or 2; it has no contract of its own, and `MorseGame.Game.Response` is proved to report it |
| Quiz.Response | assignments/assign02/assign02.c:1022-1047 | a correct answer raises the streak and the total by one, wins a life back only below 3 (counted in the gained lives) and sets `inputComplete`; a wrong answer costs a life, counts as wrong and resets the streak; lives never rise above 3; every other global stays |
| Quiz.CheckLevelComplete | assignments/assign02/assign02.c:996-1015 | 1 exactly for a streak of 5; 2 exactly for no lives and no streak of 5; else 0 |
| Quiz.RgbLivesDisplay | assignments/assign02/assign02.c:233-254 | the LED shows the colour of a life count in 0..3; otherwise nothing changes |
| Quiz.GameStart | assignments/assign02/assign02.c:601-608 | 3 lives, streak, wrong count and gained lives 0, green LED (the colour of 3 lives); every other global stays |
| Quiz.SelectLevel | assignments/assign02/assign02.c:651-676 | level l (1-4) exactly when the buffer spells the code of figure l; 5 for anything else |
| Quiz.LevelCodeIsFigure | assignments/assign02/assign02.c:565-569 | the code selecting level l is the Morse code of the figure l |
| Quiz.R | assignments/assign02/assign02.c:719-725 | the draw lies in [low, high]; it is `high` when the range is empty |
| Quiz.Level1Question | assignments/assign02/assign02.c:735-746 | level 1 is set and the question is the `r(0, 35)` draw, a letter or figure; nothing else changes |
| Quiz.Level2Question | assignments/assign02/assign02.c:756-767 | level 2 is set and the question is the `r(0, 35)` draw, a letter or figure; nothing else changes |
| Quiz.NextWord | assignments/assign02/assign02.c:782-842 | a cursor 0..4 asks entry 36 + cursor and moves to (cursor + 1) mod 5; any other cursor asks nothing |
| Quiz.Level3Question | assignments/assign02/assign02.c:772-842 | level 3 is set; the word under the level-3 cursor is asked and the cursor advances; the level-4 cursor is untouched |
| Quiz.Level4Question | assignments/assign02/assign02.c:847-911 | level 4 is set; the word under the level-4 cursor is asked and the cursor advances; the level-3 cursor is untouched |
| Quiz.AskQuestion | assignments/assign02/assign02.c:916-934 | levels 1-2 ask the drawn letter or figure and keep both cursors; level 3 (4) asks the word under its own cursor, advances that cursor mod 5 and keeps the other; only the question and the cursors change; no level, no change |
| Quiz.Append | assignments/assign02/assign02.c:1091-1108 | a mark goes to slot `i`, and `i` moves on; it has no contract of its own, and `AppendMark` and `KeyInAppends` pin it down |
| Quiz.Trim | assignments/assign02/assign02.c:1111 | enter overwrites the last mark with `'\0'`; it has no contract of its own, and `SubmittedIsTypedWithoutLast` pins it down |
| Quiz.Scored | assignments/assign02/assign02.c:1111-1117 | enter during a level, up to the outcome: trim, `response`, clear, LED; it has no contract of its own, and `ScoredFacts` pins it down |
| Quiz.Proceed | assignments/assign02/assign02.c:1118-1127 | the outcome: ask again after a correct answer, move up after five, else wait; it has no contract of its own, and `ProceedFacts` and `ProceedAfterCorrect` pin it down |
| Quiz.SubmitAnswer | assignments/assign02/assign02.c:1109-1128 | enter during a level; it has no contract of its own, and `SubmitKeepsValid`, `SubmitChecksQuestion`, `CorrectAnswerScoring` and `WrongAnswerScoring` pin it down |
| Quiz.ChooseLevel | assignments/assign02/assign02.c:1131-1149 | enter before a level is chosen; it has no contract of its own, and `ChooseKeepsValid`, `LevelChosen`, `LevelStartAsks` and `InvalidChoice` pin it down |
| Quiz.DetectInput | assignments/assign02/assign02.c:1089-1150 | the handler of one input event; it has no contract of its own, and `DetectInputKeepsValid`, `AppendMark`, `OtherInputsIgnored`, `SubmitClears`, `CorrectAnswerScoring` and `WrongAnswerScoring` pin it down |
| Quiz.Diagnostic | assignments/assign02/assign02.c:1041-1044 | the lookup `detectInput` reports, which comes only from enter during a level; it has no contract of its own, and `MorseGame.Game.DetectInput` is proved to report it |
| Quiz.ProgressLevel | assignments/assign02/assign02.c:681-705 | below level 4 the level rises by one, the streak is 0 and the question of the new level is asked from its cursor; at 4 nothing changes; lives are not touched |
| QuizProperties.DetectInputKeepsValid | assignments/assign02/assign02.c:1089-1150 | every defined input event keeps the engine invariant (buffer shape, lives at most 3, question fits level, streak below 5 under level 4) |
| QuizProperties.ScoredFacts | assignments/assign02/assign02.c:1113-1117 | after scoring, the buffer is clear and the counters, lives and LED are as `response` and `RGB_Lives_Display` leave them; with lives below 0 the LED keeps its colour |
| QuizProperties.ProceedFacts | assignments/assign02/assign02.c:1118-1127 | after scoring, the fifth correct answer leaves a level below 4 and asks the next level's question; another correct answer asks the level's next question unless no lives are left; a wrong answer asks nothing |
| QuizProperties.SubmitKeepsValid | assignments/assign02/assign02.c:1109-1128 | enter during a level keeps the engine invariant |
| QuizProperties.ChooseKeepsValid | assignments/assign02/assign02.c:1131-1149 | enter before a level is chosen keeps the engine invariant |
| QuizProperties.AppendMark | assignments/assign02/assign02.c:1091-1108 | inputs 1-3 store '.', '-' or ' ' at slot `i` and advance `i` by one; nothing else changes |
| QuizProperties.OtherInputsIgnored | assignments/assign02/assign02.c:1089-1150 | an input outside 1-4 changes nothing |
| QuizProperties.SubmittedIsTypedWithoutLast | assignments/assign02/assign02.c:1111 | enter compares the marks keyed in, without the last one |
| QuizProperties.SubmitClears | assignments/assign02/assign02.c:1115 | after enter the buffer is all `'\0'` and `i` and `inputComplete` are 0 |
| QuizProperties.SubmitChecksQuestion | assignments/assign02/assign02.c:1111-1114 | enter scores a correct answer exactly when the marks before the last spell the code asked for |
| QuizProperties.CorrectAnswerScoring | assignments/assign02/assign02.c:1109-1127 | a correct answer raises streak and total, wins a life below 3, keeps the wrong count; the fifth in a row below level 4 moves up a level and asks that level's question; on level 4 it asks nothing; any other correct answer asks the level's next question (its own cursor advances, the other stays) unless the lives only came back to 0 |
| QuizProperties.CorrectAnswerNextQuestion | assignments/assign02/assign02.c:1118-1127 | the question after a correct answer: the next one of the level, the first of the next level after five in a row, or none on level 4 or with no lives |
| QuizProperties.ProceedAfterCorrect | assignments/assign02/assign02.c:1118-1127 | the same question choice, stated after scoring and before the outcome is acted on |
| QuizProperties.WrongAnswerScoring | assignments/assign02/assign02.c:1036-1045 | a wrong answer costs a life, counts as wrong, resets the streak and leaves the question and cursors as they were; the LED shows the new life count, or keeps its colour once the lives are below 0 |
| QuizProperties.LevelChangesOnlyAfterFive | assignments/assign02/assign02.c:1118-1127 | the level changes exactly on the fifth correct answer in a row below level 4 |
| QuizProperties.LivesCarryOver | assignments/assign02/assign02.c:681-690 | moving up a level does not reset the lives |
| QuizProperties.FinalLevelStays | assignments/assign02/assign02.c:692-704 | the fifth correct answer on level 4 leaves level, question and cursor, with the streak at 5 |
| QuizProperties.GameOverDoesNotStopPlay | assignments/assign02/assign02.c:1005-1014 | losing the last life gives outcome 2 and a red LED, but the level stays selected |
| QuizProperties.LivesGoNegative | assignments/assign02/assign02.c:1038 | a wrong answer with no lives left makes the lives -1 |
| QuizProperties.LevelChosen | assignments/assign02/assign02.c:1131-1143 | the code of figure l starts level l with 3 lives, zero counters except the total, green LED and a question of that level |
| QuizProperties.LevelCodeChosen | assignments/assign02/assign02.c:651-676 | `select_level` finds l in the code of the figure l |
| QuizProperties.LevelStarts | assignments/assign02/assign02.c:1137-1142 | a level found by `select_level` starts afresh (3 lives, zero counters, green LED, total kept) with a question of that level's kind |
| QuizProperties.AskFromKept | assignments/assign02/assign02.c:916-934 | `ask_question` asks from the current question and cursors only, so a session with the same ones gets the same question |
| QuizProperties.LevelStartAsks | assignments/assign02/assign02.c:1131-1142 | the first question of a chosen level: the drawn letter or figure on levels 1-2, the word under that level's own cursor on 3-4 with that cursor advancing and the other kept |
| QuizProperties.InvalidChoice | assignments/assign02/assign02.c:1144-1147 | any other code before a level is chosen only clears the buffer |
| QuizProperties.WordCursorCycle | assignments/assign02/assign02.c:772-842 | five level-3 questions ask each of the five words once and bring the cursor back |
| BufferFinding.InputOf | assignments/assign02/assign02.c:1091-1108 | each mark has the input event that stores it |
| BufferFinding.KeyIn | assignments/assign02/assign02.c:1091-1108 | keying in n marks advances `i` by n and changes only the buffer |
| BufferFinding.KeyInAppends | assignments/assign02/assign02.c:1091-1108 | keying in marks appends them to what was typed and keeps the invariant |
| BufferFinding.KeyInAnswer | assignments/assign02/assign02.c:1091-1108 | keying in a code and a closing space fills one slot more than the code's length |
| BufferFinding.AnswerFits | assignments/assign02/assign02.c:1089-1127 | with more slots than the code has marks, keying in the code, a space and enter is scored correct |
| BufferFinding.GroupNeverSubmitted | assignments/assign02/assign02.c:347 | with 20 slots enter never submits the code of GROUP |
| BufferFinding.GroupAlwaysWrong | assignments/assign02/assign02.c:347 | with 20 slots every answer to GROUP costs a life |
| BufferFinding.OtherCodesFit | assignments/assign02/assign02.c:347 | with 20 slots every code except GROUP can be answered |
| BufferFinding.GroupFitsCorrectedBuffer | assignments/assign02/assign02.c:347 | with 21 slots GROUP, keyed in with its closing space, is scored correct |
| MorseGame.Game.constructor | assignments/assign02/assign02.c:306-372 | the fields start as the globals do, with an all-`'\0'` buffer of the given size |
| MorseGame.Game.InitializeInputArray | assignments/assign02/assign02.c:1066-1075 | the clearing loop leaves the state `Quiz.InitializeInputArray` gives |
| MorseGame.Game.CheckAnswer | assignments/assign02/assign02.c:1168-1179 | the result is true exactly when the buffer's C string is the code asked for |
| MorseGame.Game.CheckAlphanumeric | assignments/assign02/assign02.c:628-643 | the search loop returns the entries `Quiz.Matches` gives for the buffer's C string |
| MorseGame.Game.Response | assignments/assign02/assign02.c:1022-1047 | the counters are updated as `Quiz.Response` says, and the reverse lookup runs exactly on a wrong answer on level 1 or 2 |
| MorseGame.Game.CheckLevelComplete | assignments/assign02/assign02.c:996-1015 | 1 exactly for a streak of 5, 2 exactly for no lives otherwise, else 0 |
| MorseGame.Game.RgbLivesDisplay | assignments/assign02/assign02.c:233-254 | the LED is set as `Quiz.RgbLivesDisplay` says |
| MorseGame.Game.GameStart | assignments/assign02/assign02.c:601-608 | the fields are reset as `Quiz.GameStart` says |
| MorseGame.Game.LevelSelectTrue | assignments/assign02/assign02.c:613-615 | only `select_level_input` changes, to 1 |
| MorseGame.Game.LevelSelectFalse | assignments/assign02/assign02.c:620-622 | only `select_level_input` changes, to 0 |
| MorseGame.Game.SelectLevel | assignments/assign02/assign02.c:651-676 | returns `Quiz.SelectLevel` of the buffer and clears the buffer |
| MorseGame.Game.GetLevel | assignments/assign02/assign02.c:941-944 | the current level, which is 1..4 once one has been chosen |
| MorseGame.Game.SetLevel | assignments/assign02/assign02.c:951-954 | only the level changes |
| MorseGame.Game.Random | assignments/assign02/assign02.c:719-725 | the draw lies in [low, high] when the range is not empty |
| MorseGame.Game.Level1Question | assignments/assign02/assign02.c:735-746 | the state `Quiz.Level1Question` gives; returns the entry asked |
| MorseGame.Game.Level2Question | assignments/assign02/assign02.c:756-767 | the state `Quiz.Level2Question` gives; returns the entry asked |
| MorseGame.Game.Level3Question | assignments/assign02/assign02.c:772-842 | the state `Quiz.Level3Question` gives; returns 36 + the old cursor, or 0 for a cursor outside 0..4 |
| MorseGame.Game.Level4Question | assignments/assign02/assign02.c:847-911 | the state `Quiz.Level4Question` gives; returns 36 + the old cursor, or 0 for a cursor outside 0..4 |
| MorseGame.Game.AskQuestion | assignments/assign02/assign02.c:916-934 | the state `Quiz.AskQuestion` gives |
| MorseGame.Game.ProgressLevel | assignments/assign02/assign02.c:681-705 | the state `Quiz.ProgressLevel` gives |
| MorseGame.Game.SubmitAnswer | assignments/assign02/assign02.c:1109-1128 | enter during a level leaves the state `Quiz.SubmitAnswer` gives and reports the reverse lookup it ran |
| MorseGame.Game.ChooseLevel | assignments/assign02/assign02.c:1131-1149 | enter before a level is chosen leaves the state `Quiz.ChooseLevel` gives |
| MorseGame.Game.DetectInput | assignments/assign02/assign02.c:1089-1150 | every defined input event leaves the state `Quiz.DetectInput` gives and reports `Quiz.Diagnostic` |

## Left out

- Pico SDK plumbing is not modelled, because it is calls into the SDK: GPIO wrappers, the watchdog, `put_pixel` over PIO, clock reads and `main`. The LED is the field `pixel`, and the blue set by `main` is the initial value.
- `main_asm`, which times the presses and turns them into events 1-4, is not part of this model. Its output is the `input` parameter.
- `srand(time(NULL))` and `rand()` are not modelled. The value `rand()` returns is the parameter `rand`.
- `compute_Accuracy` and `print_Stats` are not modelled, because they are float arithmetic and output only. `compute_Accuracy` divides by zero when both counters are 0.
- `checkMorseCode` is not modelled. It compares pointers and is never called.
- Printed text, banners and echoed marks are not modelled. The entries `checkAlphanumeric` prints are returned as `diagnostic`.
- The unused globals `userInput`, `userInputLength` and `lastInput` are not modelled.
- The return values of the question functions are ignored by `ask_question`. They are modelled only on the `Game` methods.
- Quiz.InitializeInputArray: clears every slot of the buffer, where the source clears a fixed 20. The two agree for the source's 20-slot buffer, which is the only size the source uses.
- Writes past the buffer (undefined behaviour in C) are not modelled. `Quiz.Defined` excludes them.
- C `int` overflow of the counters is not modelled; the counters are unbounded integers.

## Findings

| source | as written | input that shows it | evidently intended | confidence | as-written member | corrected member |
|---|---|---|---|---|---|---|
| assignments/assign02/assign02.c:347 | `inputSequence` has 20 slots. Enter overwrites the mark before it, so at most 19 marks are compared. GROUP's code is 20 marks. | On level 3 or 4 at GROUP: key in `--. .-. --- ..- .--.` and a space (21 marks). The 21st mark is written past the buffer. Stopping at 20 marks submits only 19, so the answer is scored wrong every time. | 21 slots, so that GROUP plus the closing mark fits, and GROUP can be answered | not executed | BufferFinding.GroupNeverSubmitted | BufferFinding.GroupFitsCorrectedBuffer |
