/**
 * The quiz engine of the Morse code game, as pure functions on the whole
 * session. `Session` holds every global the engine reads or writes. Each
 * C function that updates globals is a function below returning the globals
 * as it leaves them, except the one-field setters `level_select_true`,
 * `level_select_false` and `set_level`, which `ChooseLevel` applies as
 * record updates. The C functions that only compute a value are functions
 * of what they read. `select_level` does both: `SelectLevel` gives the
 * level, and `ChooseLevel` clears the buffer after it. `DetectInput` is the
 * handler of one classified button event (1 = dot, 2 = dash, 3 = space,
 * 4 = enter).
 *
 * The class in game.dfy implements these functions imperatively and is
 * proved to agree with them; the lemmas here state what the engine promises.
 */
module Quiz {
  import opened Wrappers
  import opened MorseTable
  import opened CStrings
  import opened Colour

  /** The length of `inputSequence` in the source. */
  const SourceBufferSize := 20

  /** The globals of the engine. */
  datatype Session = Session(
    inputSequence: seq<char>,  // the marks keyed in so far, then '\0's
    inputLength: int,          // `i`: where the next mark goes
    inputComplete: int,
    remainingLives: int,
    gainedLives: int,
    correctCounter: int,       // the current streak of correct answers
    correctTotal: int,
    wrongCounter: int,
    levelIndex: int,           // 0 until a level is chosen, then 1..4
    tmpIndex: int,             // the entry of `Alp` the current question asks for
    selectLevelInput: int,     // 0 while a level is being chosen, 1 once one is
    level3QuestionIdx: int,    // word cursor of level 3
    level4QuestionIdx: int,    // word cursor of level 4
    pixel: bv32)               // the last colour pushed to the LED

  /** The code of dot, dash and space input events. */
  function MarkOf(input: int): char
    requires 1 <= input <= 3
  {
    if input == 1 then '.' else if input == 2 then '-' else ' '
  }

  /** The marks keyed in since the buffer was last cleared. */
  function Typed(s: Session): seq<char>
    requires 0 <= s.inputLength <= |s.inputSequence|
  {
    s.inputSequence[..s.inputLength]
  }

  /**
   * What holds between two input events: the buffer holds `inputLength`
   * marks followed by '\0's, lives never exceed 3, the counters are not
   * negative, the question is a letter or figure on levels 1-2 and a word on
   * levels 3-4, and a level below 4 is left as soon as the streak reaches 5.
   * Lives are not bounded below: play goes on after they reach 0.
   */
  ghost predicate Valid(s: Session) {
    && 0 <= s.inputLength <= |s.inputSequence|
    && (forall k :: 0 <= k < s.inputLength ==> IsMark(s.inputSequence[k]))
    && (forall k :: s.inputLength <= k < |s.inputSequence| ==> s.inputSequence[k] == '\0')
    && s.inputComplete == 0
    && s.remainingLives <= 3
    && 0 <= s.gainedLives && 0 <= s.correctCounter && 0 <= s.correctTotal && 0 <= s.wrongCounter
    && 0 <= s.tmpIndex < EntryCount
    && 0 <= s.level3QuestionIdx <= 4 && 0 <= s.level4QuestionIdx <= 4
    && (s.selectLevelInput == 0 || s.selectLevelInput == 1)
    && (s.selectLevelInput == 0 ==> s.levelIndex == 0)
    && (s.selectLevelInput == 1 ==>
          && 1 <= s.levelIndex <= 4
          && (s.levelIndex <= 2 ==> s.tmpIndex < AlphanumericCount)
          && (s.levelIndex >= 3 ==> s.tmpIndex >= AlphanumericCount)
          && (s.levelIndex < 4 ==> s.correctCounter < 5))
  }

  /** The globals at power-on, after `main` has turned the LED blue. */
  function Initial(size: nat): (s: Session)
    ensures Valid(s) && |s.inputSequence| == size && Typed(s) == []
    ensures s.selectLevelInput == 0 && s.remainingLives == 3 && s.pixel == BluePixel
  {
    Session(seq(size, _ => '\0'), 0, 0, 3, 0, 0, 0, 0, 0, 0, 0, 0, 0, BluePixel)
  }

  // ---------------------------------------------------------------- buffer

  /** `initializeInputArray`: every slot back to '\0', `i` and `inputComplete` to 0. */
  function InitializeInputArray(s: Session): (t: Session)
    ensures |t.inputSequence| == |s.inputSequence|
    ensures forall k :: 0 <= k < |t.inputSequence| ==> t.inputSequence[k] == '\0'
    ensures t.inputLength == 0 && t.inputComplete == 0 && Typed(t) == []
    ensures t.(inputSequence := s.inputSequence, inputLength := s.inputLength,
               inputComplete := s.inputComplete) == s
  {
    s.(inputSequence := seq(|s.inputSequence|, _ => '\0'), inputLength := 0, inputComplete := 0)
  }

  /** `detectInput` on a dot, dash or space: the mark goes to slot `i`, and `i` moves on. */
  function Append(s: Session, mark: char): Session
    requires 0 <= s.inputLength < |s.inputSequence|
  {
    s.(inputSequence := s.inputSequence[s.inputLength := mark], inputLength := s.inputLength + 1)
  }

  /** On enter the mark before it is overwritten by the terminator. */
  function Trim(s: Session): Session
    requires 1 <= s.inputLength <= |s.inputSequence|
  {
    s.(inputSequence := s.inputSequence[s.inputLength - 1 := '\0'])
  }

  /** The string `strcmp` sees on enter. */
  function Submitted(s: Session): seq<char>
    requires 1 <= s.inputLength <= |s.inputSequence|
  {
    CString(Trim(s).inputSequence)
  }

  // ------------------------------------------------------- answer checking

  lemma TableCodeIsCString(k: int)
    requires 0 <= k < EntryCount
    ensures CString(Alp[k]) == Alp[k]
  {
    CodesAreMarks();
    assert '\0' !in Alp[k] by {
      forall m | 0 <= m < |Alp[k]| ensures Alp[k][m] != '\0' {
        assert IsMark(Alp[k][m]);
      }
    }
    CStringOfUnterminated(Alp[k]);
  }

  /** `checkAnswer`: the buffer's string against the code of entry `k`. */
  function CheckAnswer(buf: seq<char>, k: int): (correct: bool)
    requires 0 <= k < EntryCount
    ensures correct <==> CString(buf) == Alp[k]
  {
    TableCodeIsCString(k);
    Strcmp(buf, Alp[k]) == 0
  }

  /** Only the exact code is accepted: a proper prefix, a proper extension or one changed mark is not. */
  lemma OnlyExactCodeAccepted(buf: seq<char>, k: int)
    requires 0 <= k < EntryCount
    ensures CString(buf) < Alp[k] ==> !CheckAnswer(buf, k)
    ensures Alp[k] < CString(buf) ==> !CheckAnswer(buf, k)
    ensures forall m :: 0 <= m < |CString(buf)| && m < |Alp[k]| && CString(buf)[m] != Alp[k][m] ==>
      !CheckAnswer(buf, k)
  {
  }

  /** The entries among the first `n` of `table` whose code is `code`, in increasing order. */
  function MatchesBelow(table: seq<string>, code: string, n: int): seq<int>
    requires 0 <= n <= |table|
  {
    if n == 0 then []
    else
      var earlier := MatchesBelow(table, code, n - 1);
      if table[n - 1] == code then earlier + [n - 1] else earlier
  }

  /** The entries `checkAlphanumeric` reports for `code`; none means it prints "?". */
  function Matches(code: string): seq<int> {
    MatchesBelow(Alp, code, EntryCount)
  }

  /** No two entries of `table` share a code. */
  ghost predicate Distinct(table: seq<string>) {
    forall j, k :: 0 <= j < k < |table| ==> table[j] != table[k]
  }

  /** `MatchesBelow` holds exactly the entries below `n` with code `code`. */
  lemma {:induction false} MatchesBelowMembers(table: seq<string>, code: string, n: int)
    requires 0 <= n <= |table|
    ensures forall k :: k in MatchesBelow(table, code, n) <==> 0 <= k < n && table[k] == code
  {
    if n > 0 {
      MatchesBelowMembers(table, code, n - 1);
    }
  }

  /** In a table without repeated codes, nothing before entry `j` has the code of entry `j`. */
  lemma {:induction false} NoEarlierMatch(table: seq<string>, n: int, j: int)
    requires Distinct(table) && 0 <= n <= j < |table|
    ensures MatchesBelow(table, table[j], n) == []
  {
    if n > 0 {
      NoEarlierMatch(table, n - 1, j);
    }
  }

  /** In a table without repeated codes, the lookup of the code of entry `k` finds `k` and only `k`. */
  lemma {:induction false} MatchesOfCode(table: seq<string>, n: int, k: int)
    requires Distinct(table) && 0 <= k < n <= |table|
    ensures MatchesBelow(table, table[k], n) == [k]
  {
    if n == k + 1 {
      NoEarlierMatch(table, k, k);
    } else {
      MatchesOfCode(table, n - 1, k);
    }
  }

  /** In a table without repeated codes, the lookup reports at most one entry. */
  lemma {:induction false} MatchesAtMostOne(table: seq<string>, code: string, n: int)
    requires Distinct(table) && 0 <= n <= |table|
    ensures |MatchesBelow(table, code, n)| <= 1
  {
    if n > 0 {
      if table[n - 1] == code {
        NoEarlierMatch(table, n - 1, n - 1);
      } else {
        MatchesAtMostOne(table, code, n - 1);
      }
    }
  }

  /** In a table without repeated codes, the lookup reports entry `k` for its code and at most one entry for any string. */
  lemma LookupInDistinctTable(table: seq<string>, code: string)
    requires Distinct(table)
    ensures |MatchesBelow(table, code, |table|)| <= 1
    ensures MatchesBelow(table, code, |table|) == [] <==> forall k :: 0 <= k < |table| ==> table[k] != code
    ensures forall k :: 0 <= k < |table| && table[k] == code ==> MatchesBelow(table, code, |table|) == [k]
  {
    MatchesAtMostOne(table, code, |table|);
    MatchesBelowMembers(table, code, |table|);
    forall k | 0 <= k < |table| && table[k] == code ensures MatchesBelow(table, code, |table|) == [k] {
      MatchesOfCode(table, |table|, k);
    }
    var m := MatchesBelow(table, code, |table|);
    if m != [] {
      assert m[0] in m;
      assert table[m[0]] == code;
    }
  }

  /** `checkAlphanumeric` reports exactly entry `k` for its code, and at most one entry for any string. */
  lemma ReverseLookup(code: string)
    ensures |Matches(code)| <= 1
    ensures Matches(code) == [] <==> forall k :: 0 <= k < EntryCount ==> Alp[k] != code
    ensures forall k :: 0 <= k < EntryCount && Alp[k] == code ==> Matches(code) == [k]
  {
    CodesDistinct();
    LookupInDistinctTable(Alp, code);
  }

  // ------------------------------------------------------ scoring, levels

  /** `response`: the counters after a correct or a wrong answer. */
  function Response(s: Session, answer: bool): (t: Session)
    ensures s.remainingLives <= 3 ==> t.remainingLives <= 3
    ensures t.correctTotal + t.wrongCounter == s.correctTotal + s.wrongCounter + 1
    ensures answer ==>
      && t.correctCounter == s.correctCounter + 1 && t.correctTotal == s.correctTotal + 1
      && t.wrongCounter == s.wrongCounter && t.inputComplete == 1
      && t.remainingLives == (if s.remainingLives < 3 then s.remainingLives + 1 else s.remainingLives)
      && t.gainedLives == (if s.remainingLives < 3 then s.gainedLives + 1 else s.gainedLives)
    ensures !answer ==>
      && t.correctCounter == 0 && t.correctTotal == s.correctTotal
      && t.wrongCounter == s.wrongCounter + 1 && t.inputComplete == s.inputComplete
      && t.remainingLives == s.remainingLives - 1 && t.gainedLives == s.gainedLives
    ensures t.(inputComplete := s.inputComplete, correctCounter := s.correctCounter,
               correctTotal := s.correctTotal, wrongCounter := s.wrongCounter,
               remainingLives := s.remainingLives, gainedLives := s.gainedLives) == s
  {
    if answer then
      s.(inputComplete := 1,
         correctCounter := s.correctCounter + 1,
         correctTotal := s.correctTotal + 1,
         remainingLives := if s.remainingLives < 3 then s.remainingLives + 1 else s.remainingLives,
         gainedLives := if s.remainingLives < 3 then s.gainedLives + 1 else s.gainedLives)
    else
      s.(remainingLives := s.remainingLives - 1,
         wrongCounter := s.wrongCounter + 1,
         correctCounter := 0)
  }

  /** What `response` prints after `checkAlphanumeric`: only for a wrong answer on level 1 or 2. */
  function ResponseDiagnostic(s: Session, answer: bool): Option<seq<int>> {
    if !answer && (s.levelIndex == 1 || s.levelIndex == 2) then Some(Matches(CString(s.inputSequence)))
    else None
  }

  /** `check_level_complete`: 1 for a streak of 5, else 2 for no lives, else 0. */
  function CheckLevelComplete(s: Session): (status: int)
    ensures status == 1 <==> s.correctCounter == 5
    ensures status == 2 <==> s.correctCounter != 5 && s.remainingLives == 0
    ensures status == 0 <==> s.correctCounter != 5 && s.remainingLives != 0
  {
    if s.correctCounter == 5 then 1
    else if s.remainingLives == 0 then 2
    else 0
  }

  /** `RGB_Lives_Display`: the LED shows the colour of the life count, if it has one. */
  function RgbLivesDisplay(s: Session): (t: Session)
    ensures 0 <= s.remainingLives <= 3 ==> Some(t.pixel) == LivesColour(s.remainingLives)
    ensures !(0 <= s.remainingLives <= 3) ==> t == s
    ensures t.(pixel := s.pixel) == s
  {
    match LivesColour(s.remainingLives)
    case Some(c) => s.(pixel := c)
    case None => s
  }

  /** `gameStart`: a fresh set of lives and counters for a chosen level; `correctTotal` stays. */
  function GameStart(s: Session): (t: Session)
    ensures t.remainingLives == 3 && t.correctCounter == 0 && t.wrongCounter == 0 && t.gainedLives == 0
    ensures t.pixel == GreenPixel && Some(t.pixel) == LivesColour(3)
    ensures t.(pixel := s.pixel, correctCounter := s.correctCounter, remainingLives := s.remainingLives,
               wrongCounter := s.wrongCounter, gainedLives := s.gainedLives) == s
  {
    s.(pixel := GreenPixel, correctCounter := 0, remainingLives := 3, wrongCounter := 0, gainedLives := 0)
  }

  /** `select_level`: the level whose code the buffer spells (the figures 1-4), or 5 for anything else. */
  function SelectLevel(buf: seq<char>): (level: int)
    ensures 1 <= level <= 5
    ensures level == 1 <==> CString(buf) == Alp[27]
    ensures level == 2 <==> CString(buf) == Alp[28]
    ensures level == 3 <==> CString(buf) == Alp[29]
    ensures level == 4 <==> CString(buf) == Alp[30]
  {
    TableCodeIsCString(27);
    TableCodeIsCString(28);
    TableCodeIsCString(29);
    TableCodeIsCString(30);
    LevelCodesDistinct();
    if Strcmp(buf, Alp[27]) == 0 then 1
    else if Strcmp(buf, Alp[28]) == 0 then 2
    else if Strcmp(buf, Alp[29]) == 0 then 3
    else if Strcmp(buf, Alp[30]) == 0 then 4
    else 5
  }

  /** The code that selects level `l` is the Morse code of the figure `l`. */
  lemma LevelCodeIsFigure(l: int)
    requires 1 <= l <= 4
    ensures Que[AlphanumericCount - 10 + l] == [('0' as int + l) as char]
  {
  }

  // -------------------------------------------------------------- questions

  /** `r`: `low + rand() % (high - low + 1)`, or `high` when the range is empty. */
  function R(low: int, high: int, rand: nat): (n: int)
    ensures low <= high ==> low <= n <= high
    ensures low > high ==> n == high
  {
    if low > high then high else low + rand % (high - low + 1)
  }

  /** `level_1_question` with `rand()` returning `rand`. */
  function Level1Question(s: Session, rand: nat): (t: Session)
    ensures t.tmpIndex == R(0, 35, rand) && 0 <= t.tmpIndex < AlphanumericCount && t.levelIndex == 1
    ensures t.(levelIndex := s.levelIndex, tmpIndex := s.tmpIndex) == s
  {
    s.(levelIndex := 1, tmpIndex := R(0, 35, rand))
  }

  /** `level_2_question` with `rand()` returning `rand`. */
  function Level2Question(s: Session, rand: nat): (t: Session)
    ensures t.tmpIndex == R(0, 35, rand) && 0 <= t.tmpIndex < AlphanumericCount && t.levelIndex == 2
    ensures t.(levelIndex := s.levelIndex, tmpIndex := s.tmpIndex) == s
  {
    s.(levelIndex := 2, tmpIndex := R(0, 35, rand))
  }

  /**
   * The word chain shared by `level_3_question` and `level_4_question`: the
   * word a cursor asks for and the cursor after it, CAT, CODE, MICRO, INTEL,
   * GROUP and back to CAT; None is the fall-through for a cursor outside 0..4.
   */
  function NextWord(cursor: int): (w: Option<(int, int)>)
    ensures w.Some? <==> 0 <= cursor <= 4
    ensures w.Some? ==> w.value.0 == AlphanumericCount + cursor
    ensures w.Some? ==> 0 <= w.value.1 <= 4 && w.value.1 == (cursor + 1) % 5
  {
    if cursor == 0 then Some((36, 1))
    else if cursor == 1 then Some((37, 2))
    else if cursor == 2 then Some((38, 3))
    else if cursor == 3 then Some((39, 4))
    else if cursor == 4 then Some((40, 0))
    else None
  }

  /** `level_3_question`: the word under the level-3 cursor; the level-4 cursor is untouched. */
  function Level3Question(s: Session): (t: Session)
    ensures t.levelIndex == 3 && t.level4QuestionIdx == s.level4QuestionIdx
    ensures 0 <= s.level3QuestionIdx <= 4 ==>
      t.tmpIndex == AlphanumericCount + s.level3QuestionIdx &&
      t.level3QuestionIdx == (s.level3QuestionIdx + 1) % 5
    ensures t.(levelIndex := s.levelIndex, tmpIndex := s.tmpIndex,
               level3QuestionIdx := s.level3QuestionIdx) == s
  {
    match NextWord(s.level3QuestionIdx)
    case Some((q, next)) => s.(levelIndex := 3, tmpIndex := q, level3QuestionIdx := next)
    case None => s.(levelIndex := 3)
  }

  /** `level_4_question`: the word under the level-4 cursor; the level-3 cursor is untouched. */
  function Level4Question(s: Session): (t: Session)
    ensures t.levelIndex == 4 && t.level3QuestionIdx == s.level3QuestionIdx
    ensures 0 <= s.level4QuestionIdx <= 4 ==>
      t.tmpIndex == AlphanumericCount + s.level4QuestionIdx &&
      t.level4QuestionIdx == (s.level4QuestionIdx + 1) % 5
    ensures t.(levelIndex := s.levelIndex, tmpIndex := s.tmpIndex,
               level4QuestionIdx := s.level4QuestionIdx) == s
  {
    match NextWord(s.level4QuestionIdx)
    case Some((q, next)) => s.(levelIndex := 4, tmpIndex := q, level4QuestionIdx := next)
    case None => s.(levelIndex := 4)
  }

  /** The question and the word cursors are as they were. */
  predicate KeepsQuestion(s: Session, t: Session) {
    t.tmpIndex == s.tmpIndex && t.level3QuestionIdx == s.level3QuestionIdx &&
    t.level4QuestionIdx == s.level4QuestionIdx
  }

  /**
   * `t` asks the question of `level` from the cursors of `s`: the drawn
   * letter or figure on levels 1-2, the word under that level's own cursor
   * on levels 3-4 (which then advances while the other cursor stays), and
   * nothing on any other level.
   */
  predicate AsksQuestion(s: Session, t: Session, level: int, rand: nat) {
    if level == 1 || level == 2 then
      t.tmpIndex == R(0, 35, rand) &&
      t.level3QuestionIdx == s.level3QuestionIdx && t.level4QuestionIdx == s.level4QuestionIdx
    else if level == 3 then
      t.level4QuestionIdx == s.level4QuestionIdx &&
      (0 <= s.level3QuestionIdx <= 4 ==>
         t.tmpIndex == AlphanumericCount + s.level3QuestionIdx &&
         t.level3QuestionIdx == (s.level3QuestionIdx + 1) % 5)
    else if level == 4 then
      t.level3QuestionIdx == s.level3QuestionIdx &&
      (0 <= s.level4QuestionIdx <= 4 ==>
         t.tmpIndex == AlphanumericCount + s.level4QuestionIdx &&
         t.level4QuestionIdx == (s.level4QuestionIdx + 1) % 5)
    else KeepsQuestion(s, t)
  }

  /** `ask_question`: the question generator of the current level; none outside 1..4. */
  function AskQuestion(s: Session, rand: nat): (t: Session)
    ensures !(1 <= s.levelIndex <= 4) ==> t == s
    ensures AsksQuestion(s, t, s.levelIndex, rand)
    ensures s.levelIndex == 1 || s.levelIndex == 2 ==> 0 <= t.tmpIndex < AlphanumericCount
    ensures s.levelIndex == 3 && 0 <= s.level3QuestionIdx <= 4 ==>
      AlphanumericCount <= t.tmpIndex < EntryCount && 0 <= t.level3QuestionIdx <= 4
    ensures s.levelIndex == 4 && 0 <= s.level4QuestionIdx <= 4 ==>
      AlphanumericCount <= t.tmpIndex < EntryCount && 0 <= t.level4QuestionIdx <= 4
    ensures t.(tmpIndex := s.tmpIndex, level3QuestionIdx := s.level3QuestionIdx,
               level4QuestionIdx := s.level4QuestionIdx) == s
  {
    if s.levelIndex == 1 then Level1Question(s, rand)
    else if s.levelIndex == 2 then Level2Question(s, rand)
    else if s.levelIndex == 3 then Level3Question(s)
    else if s.levelIndex == 4 then Level4Question(s)
    else s
  }

  /** `progress_level`: below level 4, the next level and its first question; at 4, nothing changes. */
  function ProgressLevel(s: Session, rand: nat): (t: Session)
    ensures s.levelIndex < 4 ==> t.levelIndex == s.levelIndex + 1 && t.correctCounter == 0
    ensures s.levelIndex < 4 ==> AsksQuestion(s, t, s.levelIndex + 1, rand)
    ensures s.levelIndex >= 4 ==> t == s
    ensures t.(levelIndex := s.levelIndex, correctCounter := s.correctCounter, tmpIndex := s.tmpIndex,
               level3QuestionIdx := s.level3QuestionIdx, level4QuestionIdx := s.level4QuestionIdx) == s
  {
    if s.levelIndex < 4 then AskQuestion(s.(levelIndex := s.levelIndex + 1, correctCounter := 0), rand)
    else s
  }

  // ------------------------------------------------------------ detectInput

  /**
   * When `detectInput` stays inside `inputSequence` and `alp`: a mark needs a
   * free slot, and enter needs at least one mark (it overwrites slot `i - 1`).
   */
  predicate Defined(s: Session, input: int) {
    && (1 <= input <= 3 ==> 0 <= s.inputLength < |s.inputSequence|)
    && (input == 4 && (s.selectLevelInput == 0 || s.selectLevelInput == 1) ==>
          1 <= s.inputLength <= |s.inputSequence|)
    && (input == 4 && s.selectLevelInput == 1 ==> 0 <= s.tmpIndex < EntryCount)
  }

  /** Whether enter during a level is a correct answer: `checkAnswer` on the trimmed buffer. */
  function Answer(s: Session): (correct: bool)
    requires 1 <= s.inputLength <= |s.inputSequence| && 0 <= s.tmpIndex < EntryCount
    ensures correct <==> Submitted(s) == Alp[s.tmpIndex]
  {
    CheckAnswer(Trim(s).inputSequence, s.tmpIndex)
  }

  /** Enter during a level, up to the outcome: score the answer, clear the buffer, show the lives. */
  function Scored(s: Session, answer: bool): Session
    requires 1 <= s.inputLength <= |s.inputSequence|
  {
    RgbLivesDisplay(InitializeInputArray(Response(Trim(s), answer)))
  }

  /** Enter during a level, after scoring: ask again after a correct answer, progress after five, else wait. */
  function Proceed(shown: Session, answer: bool, rand: nat): Session {
    var status := CheckLevelComplete(shown);
    if status == 0 && answer then AskQuestion(shown, rand)
    else if status == 1 then ProgressLevel(shown, rand)
    else shown
  }

  /** Enter during a level: check, score, clear, show the lives, then ask again, progress or stop. */
  function SubmitAnswer(s: Session, rand: nat): Session
    requires 1 <= s.inputLength <= |s.inputSequence| && 0 <= s.tmpIndex < EntryCount
  {
    var answer := Answer(s);
    Proceed(Scored(s, answer), answer, rand)
  }

  /** Enter before a level is chosen: a level code starts that level, anything else is ignored. */
  function ChooseLevel(s: Session, rand: nat): Session
    requires 1 <= s.inputLength <= |s.inputSequence|
  {
    var trimmed := Trim(s).(selectLevelInput := 1);
    var level := SelectLevel(trimmed.inputSequence);
    var cleared := InitializeInputArray(trimmed);
    if 0 < level < 5 then AskQuestion(GameStart(cleared.(levelIndex := level)), rand)
    else cleared.(selectLevelInput := 0)
  }

  /** `detectInput(input)`, with `rand()` returning `rand` should a question be drawn. */
  function DetectInput(s: Session, input: int, rand: nat): Session
    requires Defined(s, input)
  {
    if 1 <= input <= 3 then Append(s, MarkOf(input))
    else if input == 4 && s.selectLevelInput == 1 then SubmitAnswer(s, rand)
    else if input == 4 && s.selectLevelInput == 0 then ChooseLevel(s, rand)
    else s
  }

  /** The entries `checkAlphanumeric` reports while `detectInput` handles `input`, if it runs. */
  function Diagnostic(s: Session, input: int): Option<seq<int>>
    requires Defined(s, input)
  {
    if input == 4 && s.selectLevelInput == 1 then ResponseDiagnostic(Trim(s), Answer(s))
    else None
  }
}
