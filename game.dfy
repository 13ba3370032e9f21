/**
 * The engine as the program runs it: the globals the engine writes are the
 * fields of one `Game`, and `inputSequence` is a fixed array written in
 * place. The engine's C functions are methods, except `get_level`, which
 * only reads and is a function; `morse_init` and `urgb_u32` are the constant
 * `MorseInit()` and the function `Urgb` of their own modules.
 *
 * The methods that update fields are proved to leave `State()` where the
 * `Quiz` function of the same name says, with two kinds of exception:
 * `SelectLevel` returns `Quiz.SelectLevel` of the buffer and leaves the
 * state `Quiz.InitializeInputArray` gives, and the one-field setters state
 * their new state directly. `CheckAnswer`, `CheckAlphanumeric`,
 * `CheckLevelComplete` and `Random` change no field and return what
 * `Quiz.CheckAnswer`, `Quiz.Matches`, `Quiz.CheckLevelComplete` and `Quiz.R`
 * say.
 */
module MorseGame {
  import opened Wrappers
  import opened MorseTable
  import opened CStrings
  import opened Colour
  import Quiz

  class Game {
    const inputSequence: array<char>
    var inputLength: int   // `i`
    var inputComplete: int
    var remainingLives: int
    var gainedLives: int
    var correctCounter: int
    var correctTotal: int
    var wrongCounter: int
    var levelIndex: int
    var tmpIndex: int
    var selectLevelInput: int
    var level3QuestionIdx: int
    var level4QuestionIdx: int
    var pixel: bv32

    /** The globals as one value. */
    function State(): Quiz.Session
      reads this, inputSequence
    {
      Quiz.Session(inputSequence[..], inputLength, inputComplete, remainingLives, gainedLives,
                   correctCounter, correctTotal, wrongCounter, levelIndex, tmpIndex,
                   selectLevelInput, level3QuestionIdx, level4QuestionIdx, pixel)
    }

    /** Power-on: the globals' initial values, and the LED turned blue by `main`. */
    constructor (size: nat)
      ensures State() == Quiz.Initial(size) && fresh(inputSequence)
    {
      inputSequence := new char[size](_ => '\0');
      inputLength := 0;
      inputComplete := 0;
      remainingLives := 3;
      gainedLives := 0;
      correctCounter := 0;
      correctTotal := 0;
      wrongCounter := 0;
      levelIndex := 0;
      tmpIndex := 0;
      selectLevelInput := 0;
      level3QuestionIdx := 0;
      level4QuestionIdx := 0;
      pixel := Urgb(0x00, 0x00, 0x7F);
      new;
      assert inputSequence[..] == seq(size, _ => '\0');
    }

    /** `initializeInputArray`: clears the buffer slot by slot. */
    method InitializeInputArray()
      modifies this, inputSequence
      ensures State() == Quiz.InitializeInputArray(old(State()))
    {
      var j := 0;
      while j < inputSequence.Length
        invariant 0 <= j <= inputSequence.Length
        invariant forall k :: 0 <= k < j ==> inputSequence[k] == '\0'
        invariant State() == old(State()).(inputSequence := inputSequence[..])
      {
        inputSequence[j] := '\0';
        j := j + 1;
      }
      inputComplete := 0;
      inputLength := 0;
    }

    /** `checkAnswer`: `strcmp` of the buffer against the code asked for. */
    method CheckAnswer() returns (correct: bool)
      requires 0 <= tmpIndex < EntryCount
      ensures correct <==> CString(inputSequence[..]) == Alp[tmpIndex]
    {
      Quiz.TableCodeIsCString(tmpIndex);
      correct := Strcmp(inputSequence[..], Alp[tmpIndex]) == 0;
    }

    /** `checkAlphanumeric`: every entry whose code the buffer spells; empty when it prints "?". */
    method CheckAlphanumeric() returns (matches: seq<int>)
      ensures matches == Quiz.Matches(CString(inputSequence[..]))
    {
      var typed := inputSequence[..];
      matches := [];
      var n := 0;
      while n <= EntryCount - 1
        invariant 0 <= n <= EntryCount
        invariant matches == Quiz.MatchesBelow(Alp, CString(typed), n)
      {
        Quiz.TableCodeIsCString(n);
        if Strcmp(typed, Alp[n]) == 0 {
          matches := matches + [n];
        }
        n := n + 1;
      }
    }

    /** `response`: updates the counters; after a wrong answer on level 1 or 2 it runs `checkAlphanumeric`. */
    method Response(answer: bool) returns (diagnostic: Option<seq<int>>)
      modifies this
      ensures State() == Quiz.Response(old(State()), answer)
      ensures diagnostic == Quiz.ResponseDiagnostic(old(State()), answer)
    {
      diagnostic := None;
      if answer {
        inputComplete := 1;
        correctCounter := correctCounter + 1;
        correctTotal := correctTotal + 1;
        if remainingLives < 3 {
          remainingLives := remainingLives + 1;
          gainedLives := gainedLives + 1;
        }
      } else {
        remainingLives := remainingLives - 1;
        wrongCounter := wrongCounter + 1;
        correctCounter := 0;
        if levelIndex == 1 || levelIndex == 2 {
          assert inputSequence[..] == old(State()).inputSequence;
          var matches := CheckAlphanumeric();
          diagnostic := Some(matches);
        }
      }
    }

    /** `check_level_complete`: 1 for a streak of 5, 2 for no lives, else 0. */
    method CheckLevelComplete() returns (status: int)
      ensures status == Quiz.CheckLevelComplete(State())
      ensures status == 1 <==> correctCounter == 5
      ensures status == 2 <==> correctCounter != 5 && remainingLives == 0
    {
      if correctCounter == 5 {
        return 1;
      }
      if remainingLives == 0 {
        return 2;
      }
      return 0;
    }

    /** `RGB_Lives_Display`: pushes the colour of the life count; no colour outside 0..3. */
    method RgbLivesDisplay()
      modifies this
      ensures State() == Quiz.RgbLivesDisplay(old(State()))
    {
      if remainingLives == 0 {
        pixel := Urgb(0x7F, 0x00, 0x00);
      } else if remainingLives == 1 {
        pixel := Urgb(0xFF, 0x55, 0x00);
      } else if remainingLives == 2 {
        pixel := Urgb(0xFF, 0xA5, 0x00);
      } else if remainingLives == 3 {
        pixel := Urgb(0x00, 0x7F, 0x00);
      }
    }

    /** `gameStart`: green LED, three lives, counters but the total back to 0. */
    method GameStart()
      modifies this
      ensures State() == Quiz.GameStart(old(State()))
    {
      pixel := Urgb(0x00, 0x7F, 0x00);
      correctCounter := 0;
      remainingLives := 3;
      wrongCounter := 0;
      gainedLives := 0;
    }

    method LevelSelectTrue()
      modifies this
      ensures State() == old(State()).(selectLevelInput := 1)
    {
      selectLevelInput := 1;
    }

    method LevelSelectFalse()
      modifies this
      ensures State() == old(State()).(selectLevelInput := 0)
    {
      selectLevelInput := 0;
    }

    /** `select_level`: the level the buffer names (5 for none); the buffer is cleared. */
    method SelectLevel() returns (level: int)
      modifies this, inputSequence
      ensures level == Quiz.SelectLevel(old(inputSequence[..]))
      ensures State() == Quiz.InitializeInputArray(old(State()))
    {
      var typed := inputSequence[..];
      Quiz.TableCodeIsCString(27);
      Quiz.TableCodeIsCString(28);
      Quiz.TableCodeIsCString(29);
      Quiz.TableCodeIsCString(30);
      if Strcmp(typed, Alp[27]) == 0 {
        level := 1;
      } else if Strcmp(typed, Alp[28]) == 0 {
        level := 2;
      } else if Strcmp(typed, Alp[29]) == 0 {
        level := 3;
      } else if Strcmp(typed, Alp[30]) == 0 {
        level := 4;
      } else {
        level := 5;
      }
      InitializeInputArray();
    }

    /** `get_level`. */
    function GetLevel(): (level: int)
      reads this, inputSequence
      ensures level == State().levelIndex
      ensures selectLevelInput == 1 && Quiz.Valid(State()) ==> 1 <= level <= 4
    {
      levelIndex
    }

    /** `set_level`. */
    method SetLevel(level: int)
      modifies this
      ensures State() == old(State()).(levelIndex := level)
    {
      levelIndex := level;
    }

    /** `r(low, high)` with `rand()` returning `rand`. */
    static method Random(low: int, high: int, rand: nat) returns (n: int)
      ensures n == Quiz.R(low, high, rand)
      ensures low <= high ==> low <= n <= high
    {
      if low > high {
        return high;
      }
      return low + rand % (high - low + 1);
    }

    /** `level_1_question`: a random letter or figure. */
    method Level1Question(rand: nat) returns (q: int)
      modifies this
      ensures State() == Quiz.Level1Question(old(State()), rand) && q == tmpIndex
    {
      levelIndex := 1;
      var tmp := Random(0, 35, rand);
      tmpIndex := tmp;
      return tmp;
    }

    /** `level_2_question`: a random letter or figure. */
    method Level2Question(rand: nat) returns (q: int)
      modifies this
      ensures State() == Quiz.Level2Question(old(State()), rand) && q == tmpIndex
    {
      levelIndex := 2;
      var tmp := Random(0, 35, rand);
      tmpIndex := tmp;
      return tmp;
    }

    /** `level_3_question`: the word under the level-3 cursor, which moves on; 0 for a cursor outside 0..4. */
    method Level3Question() returns (q: int)
      modifies this
      ensures State() == Quiz.Level3Question(old(State()))
      ensures q == (if 0 <= old(level3QuestionIdx) <= 4 then AlphanumericCount + old(level3QuestionIdx) else 0)
    {
      levelIndex := 3;
      q := 0;
      if level3QuestionIdx == 0 {
        q := 36; tmpIndex := q; level3QuestionIdx := 1;
      } else if level3QuestionIdx == 1 {
        q := 37; tmpIndex := q; level3QuestionIdx := 2;
      } else if level3QuestionIdx == 2 {
        q := 38; tmpIndex := q; level3QuestionIdx := 3;
      } else if level3QuestionIdx == 3 {
        q := 39; tmpIndex := q; level3QuestionIdx := 4;
      } else if level3QuestionIdx == 4 {
        q := 40; tmpIndex := q; level3QuestionIdx := 0;
      }
    }

    /** `level_4_question`: the word under the level-4 cursor, which moves on; 0 for a cursor outside 0..4. */
    method Level4Question() returns (q: int)
      modifies this
      ensures State() == Quiz.Level4Question(old(State()))
      ensures q == (if 0 <= old(level4QuestionIdx) <= 4 then AlphanumericCount + old(level4QuestionIdx) else 0)
    {
      levelIndex := 4;
      q := 0;
      if level4QuestionIdx == 0 {
        q := 36; tmpIndex := q; level4QuestionIdx := 1;
      } else if level4QuestionIdx == 1 {
        q := 37; tmpIndex := q; level4QuestionIdx := 2;
      } else if level4QuestionIdx == 2 {
        q := 38; tmpIndex := q; level4QuestionIdx := 3;
      } else if level4QuestionIdx == 3 {
        q := 39; tmpIndex := q; level4QuestionIdx := 4;
      } else if level4QuestionIdx == 4 {
        q := 40; tmpIndex := q; level4QuestionIdx := 0;
      }
    }

    /** `ask_question`: the question generator of the current level. */
    method AskQuestion(rand: nat)
      modifies this
      ensures State() == Quiz.AskQuestion(old(State()), rand)
    {
      if levelIndex == 1 {
        var _ := Level1Question(rand);
      } else if levelIndex == 2 {
        var _ := Level2Question(rand);
      } else if levelIndex == 3 {
        var _ := Level3Question();
      } else if levelIndex == 4 {
        var _ := Level4Question();
      }
    }

    /** `progress_level`: the next level and its first question, or nothing at level 4. */
    method ProgressLevel(rand: nat)
      modifies this
      ensures State() == Quiz.ProgressLevel(old(State()), rand)
    {
      if levelIndex < 4 {
        levelIndex := levelIndex + 1;
        correctCounter := 0;
        AskQuestion(rand);
      }
    }

    /** Enter during a level: check, score, clear, show the lives, then ask again or progress. */
    method SubmitAnswer(rand: nat) returns (diagnostic: Option<seq<int>>)
      requires 1 <= inputLength <= inputSequence.Length && 0 <= tmpIndex < EntryCount
      modifies this, inputSequence
      ensures State() == Quiz.SubmitAnswer(old(State()), rand)
      ensures diagnostic == Quiz.ResponseDiagnostic(Quiz.Trim(old(State())), Quiz.Answer(old(State())))
    {
      ghost var s := State();
      inputSequence[inputLength - 1] := '\0';
      assert State() == Quiz.Trim(s);
      var answer := CheckAnswer();
      diagnostic := Response(answer);
      InitializeInputArray();
      RgbLivesDisplay();
      assert State() == Quiz.Scored(s, answer);
      var status := CheckLevelComplete();
      if status == 0 && answer {
        AskQuestion(rand);
      } else if status == 1 {
        ProgressLevel(rand);
      }
    }

    /** Enter before a level is chosen: start the level the buffer names, or go on choosing. */
    method ChooseLevel(rand: nat)
      requires 1 <= inputLength <= inputSequence.Length
      modifies this, inputSequence
      ensures State() == Quiz.ChooseLevel(old(State()), rand)
    {
      ghost var s := State();
      inputSequence[inputLength - 1] := '\0';
      LevelSelectTrue();
      assert State() == Quiz.Trim(s).(selectLevelInput := 1);
      var level := SelectLevel();
      if level > 0 && level < 5 {
        SetLevel(level);
        GameStart();
        AskQuestion(rand);
      } else {
        LevelSelectFalse();
      }
    }

    /** `detectInput(input)`: one button event; `diagnostic` is what `checkAlphanumeric` reported, if it ran. */
    method DetectInput(input: int, rand: nat) returns (diagnostic: Option<seq<int>>)
      requires Quiz.Defined(State(), input)
      modifies this, inputSequence
      ensures State() == Quiz.DetectInput(old(State()), input, rand)
      ensures diagnostic == Quiz.Diagnostic(old(State()), input)
    {
      diagnostic := None;
      if input == 1 {
        inputSequence[inputLength] := '.';
        inputLength := inputLength + 1;
      } else if input == 2 {
        inputSequence[inputLength] := '-';
        inputLength := inputLength + 1;
      } else if input == 3 {
        inputSequence[inputLength] := ' ';
        inputLength := inputLength + 1;
      } else if input == 4 && selectLevelInput == 1 {
        diagnostic := SubmitAnswer(rand);
      } else if input == 4 && selectLevelInput == 0 {
        ChooseLevel(rand);
      }
    }
  }
}
