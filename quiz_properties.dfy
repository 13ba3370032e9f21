/**
 * What one input event does to the session, stated per kind of event: the
 * marks go into the buffer, enter scores the submitted string and clears the
 * buffer, five correct answers in a row leave a level, and a level code
 * starts that level with fresh lives.
 */
module QuizProperties {
  import opened Wrappers
  import opened MorseTable
  import opened CStrings
  import opened Colour
  import opened Quiz

  /** The state between events is preserved by every event the engine handles without undefined behaviour. */
  lemma DetectInputKeepsValid(s: Session, input: int, rand: nat)
    requires Valid(s) && Defined(s, input)
    ensures Valid(DetectInput(s, input, rand))
    ensures |DetectInput(s, input, rand).inputSequence| == |s.inputSequence|
  {
    if input == 4 && s.selectLevelInput == 1 {
      SubmitKeepsValid(s, rand);
    } else if input == 4 && s.selectLevelInput == 0 {
      ChooseKeepsValid(s, rand);
    }
  }

  /**
   * Scoring an answer clears the buffer and keeps the lives at most 3; it
   * leaves the level, the question and the cursors alone, and a correct
   * answer raises the streak by one while a wrong one resets it.
   */
  lemma ScoredFacts(s: Session, answer: bool)
    requires Valid(s) && s.selectLevelInput == 1 && 1 <= s.inputLength
    ensures var t := Scored(s, answer);
      && |t.inputSequence| == |s.inputSequence|
      && (forall k :: 0 <= k < |t.inputSequence| ==> t.inputSequence[k] == '\0')
      && t.inputLength == 0 && t.inputComplete == 0
      && t.remainingLives <= 3
      && 0 <= t.gainedLives && 0 <= t.correctTotal && 0 <= t.wrongCounter
      && t.correctCounter == (if answer then s.correctCounter + 1 else 0)
      && t.correctTotal == (if answer then s.correctTotal + 1 else s.correctTotal)
      && t.wrongCounter == (if answer then s.wrongCounter else s.wrongCounter + 1)
      && t.remainingLives == (if !answer then s.remainingLives - 1
                              else if s.remainingLives < 3 then s.remainingLives + 1 else 3)
      && t.gainedLives == (if answer && s.remainingLives < 3 then s.gainedLives + 1 else s.gainedLives)
      && (0 <= t.remainingLives ==> Some(t.pixel) == LivesColour(t.remainingLives))
      && (t.remainingLives < 0 ==> t.pixel == s.pixel)
      && t.levelIndex == s.levelIndex && t.tmpIndex == s.tmpIndex && t.selectLevelInput == 1
      && t.level3QuestionIdx == s.level3QuestionIdx && t.level4QuestionIdx == s.level4QuestionIdx
  {
  }

  /**
   * After scoring, only the level, the streak, the question and the word
   * cursors can change: the fifth correct answer leaves a level below 4 and
   * resets the streak, and after a wrong answer nothing changes at all.
   */
  lemma ProceedFacts(shown: Session, answer: bool, rand: nat)
    ensures var t := Proceed(shown, answer, rand);
      && t.(levelIndex := shown.levelIndex, correctCounter := shown.correctCounter,
            tmpIndex := shown.tmpIndex, level3QuestionIdx := shown.level3QuestionIdx,
            level4QuestionIdx := shown.level4QuestionIdx) == shown
      && (shown.correctCounter == 5 && shown.levelIndex < 4 ==>
            t.levelIndex == shown.levelIndex + 1 && t.correctCounter == 0)
      && (!(shown.correctCounter == 5 && shown.levelIndex < 4) ==>
            t.levelIndex == shown.levelIndex && t.correctCounter == shown.correctCounter)
      && (!answer && shown.correctCounter != 5 ==> t == shown)
      && (shown.correctCounter == 5 && shown.levelIndex >= 4 ==> t == shown)
      && (answer && shown.correctCounter != 5 && shown.remainingLives != 0 ==>
            AsksQuestion(shown, t, shown.levelIndex, rand))
      && (answer && shown.correctCounter != 5 && shown.remainingLives == 0 ==> t == shown)
      && (shown.correctCounter == 5 && shown.levelIndex < 4 ==>
            AsksQuestion(shown, t, shown.levelIndex + 1, rand))
  {
  }

  lemma SubmitKeepsValid(s: Session, rand: nat)
    requires Valid(s) && s.selectLevelInput == 1 && 1 <= s.inputLength
    ensures Valid(SubmitAnswer(s, rand)) && |SubmitAnswer(s, rand).inputSequence| == |s.inputSequence|
  {
    var answer := Answer(s);
    var shown := Scored(s, answer);
    ScoredFacts(s, answer);
    ProceedFacts(shown, answer, rand);
    assert shown.correctCounter != 5 ==> Valid(shown);
  }

  lemma ChooseKeepsValid(s: Session, rand: nat)
    requires Valid(s) && s.selectLevelInput == 0 && 1 <= s.inputLength
    ensures Valid(ChooseLevel(s, rand)) && |ChooseLevel(s, rand).inputSequence| == |s.inputSequence|
  {
  }

  /** A dot, dash or space is stored at slot `i`, `i` moves on by one, and nothing else changes. */
  lemma AppendMark(s: Session, input: int, rand: nat)
    requires Valid(s) && 1 <= input <= 3 && Defined(s, input)
    ensures var t := DetectInput(s, input, rand);
      && t.inputSequence == s.inputSequence[s.inputLength := MarkOf(input)]
      && t.inputLength == s.inputLength + 1
      && Typed(t) == Typed(s) + [MarkOf(input)]
      && t.(inputSequence := s.inputSequence, inputLength := s.inputLength) == s
  {
    var t := DetectInput(s, input, rand);
    assert Typed(t) == Typed(s) + [MarkOf(input)];
  }

  /** An input other than 1-4 leaves the session as it is. */
  lemma OtherInputsIgnored(s: Session, input: int, rand: nat)
    requires !(1 <= input <= 4)
    ensures Defined(s, input) && DetectInput(s, input, rand) == s
  {
  }

  /** Enter compares the marks keyed in before the last one. */
  lemma SubmittedIsTypedWithoutLast(s: Session)
    requires Valid(s) && 1 <= s.inputLength
    ensures Submitted(s) == Typed(s)[..s.inputLength - 1]
  {
    var buf := Trim(s).inputSequence;
    forall k | 0 <= k < s.inputLength - 1 ensures buf[k] != '\0' {
      assert IsMark(s.inputSequence[k]);
    }
    CStringOfTerminated(buf, s.inputLength - 1);
  }

  /** After enter, in a level or before one, the buffer is all '\0' and `i` and `inputComplete` are 0. */
  lemma SubmitClears(s: Session, rand: nat)
    requires Valid(s) && 1 <= s.inputLength
    ensures var t := DetectInput(s, 4, rand);
      && |t.inputSequence| == |s.inputSequence|
      && (forall k :: 0 <= k < |t.inputSequence| ==> t.inputSequence[k] == '\0')
      && t.inputLength == 0 && t.inputComplete == 0
  {
    if s.selectLevelInput == 1 {
      var answer := Answer(s);
      ScoredFacts(s, answer);
      ProceedFacts(Scored(s, answer), answer, rand);
    }
  }

  /** Enter in a level counts the submitted string as correct exactly when it is the code asked for. */
  lemma SubmitChecksQuestion(s: Session, rand: nat)
    requires Valid(s) && s.selectLevelInput == 1 && 1 <= s.inputLength
    ensures var t := DetectInput(s, 4, rand);
      t.correctTotal == s.correctTotal + 1 <==> Typed(s)[..s.inputLength - 1] == Alp[s.tmpIndex]
  {
    SubmittedIsTypedWithoutLast(s);
  }

  /**
   * A correct answer: the streak and the total rise by one, a life is won
   * back up to 3, and the wrong count is kept. The fifth in a row below
   * level 4 moves to the next level with the streak back at 0 and asks that
   * level's question; the fifth in a row on level 4 asks nothing. Any other
   * correct answer asks the next question of the level, unless the lives
   * were at -1 and the won life only brings them to 0.
   */
  lemma CorrectAnswerScoring(s: Session, rand: nat)
    requires Valid(s) && s.selectLevelInput == 1 && 1 <= s.inputLength
    requires Submitted(s) == Alp[s.tmpIndex]
    ensures var t := DetectInput(s, 4, rand);
      && t.correctTotal == s.correctTotal + 1
      && t.wrongCounter == s.wrongCounter
      && t.remainingLives == (if s.remainingLives < 3 then s.remainingLives + 1 else 3)
      && t.gainedLives == (if s.remainingLives < 3 then s.gainedLives + 1 else s.gainedLives)
      && t.selectLevelInput == 1
      && (s.correctCounter == 4 && s.levelIndex < 4 ==>
            t.levelIndex == s.levelIndex + 1 && t.correctCounter == 0)
      && (!(s.correctCounter == 4 && s.levelIndex < 4) ==>
            t.levelIndex == s.levelIndex && t.correctCounter == s.correctCounter + 1)
      && (s.correctCounter != 4 && s.remainingLives != -1 ==> AsksQuestion(s, t, s.levelIndex, rand))
      && (s.correctCounter != 4 && s.remainingLives == -1 ==> KeepsQuestion(s, t))
      && (s.correctCounter == 4 && s.levelIndex < 4 ==> AsksQuestion(s, t, s.levelIndex + 1, rand))
      && (s.correctCounter == 4 && s.levelIndex == 4 ==> KeepsQuestion(s, t))
  {
    ScoredFacts(s, true);
    ProceedFacts(Scored(s, true), true, rand);
    CorrectAnswerNextQuestion(s, rand);
  }

  /** Which question a correct answer asks next: see `CorrectAnswerScoring`. */
  lemma CorrectAnswerNextQuestion(s: Session, rand: nat)
    requires Valid(s) && s.selectLevelInput == 1 && 1 <= s.inputLength
    requires Submitted(s) == Alp[s.tmpIndex]
    ensures var t := DetectInput(s, 4, rand);
      && (s.correctCounter != 4 && s.remainingLives != -1 ==> AsksQuestion(s, t, s.levelIndex, rand))
      && (s.correctCounter != 4 && s.remainingLives == -1 ==> KeepsQuestion(s, t))
      && (s.correctCounter == 4 && s.levelIndex < 4 ==> AsksQuestion(s, t, s.levelIndex + 1, rand))
      && (s.correctCounter == 4 && s.levelIndex == 4 ==> KeepsQuestion(s, t))
  {
    ProceedAfterCorrect(s, rand);
  }

  /** The question `Proceed` asks after a correct answer has been scored. */
  lemma ProceedAfterCorrect(s: Session, rand: nat)
    requires Valid(s) && s.selectLevelInput == 1 && 1 <= s.inputLength
    ensures var t := Proceed(Scored(s, true), true, rand);
      && (s.correctCounter != 4 && s.remainingLives != -1 ==> AsksQuestion(s, t, s.levelIndex, rand))
      && (s.correctCounter != 4 && s.remainingLives == -1 ==> KeepsQuestion(s, t))
      && (s.correctCounter == 4 && s.levelIndex < 4 ==> AsksQuestion(s, t, s.levelIndex + 1, rand))
      && (s.correctCounter == 4 && s.levelIndex == 4 ==> KeepsQuestion(s, t))
  {
    var shown := Scored(s, true);
    ScoredFacts(s, true);
    ProceedFacts(shown, true, rand);
    assert KeepsQuestion(s, shown);
  }

  /**
   * A wrong answer: a life is lost, the wrong count rises, the streak is
   * reset, and the same question stays open (nothing is asked again).
   */
  lemma WrongAnswerScoring(s: Session, rand: nat)
    requires Valid(s) && s.selectLevelInput == 1 && 1 <= s.inputLength
    requires Submitted(s) != Alp[s.tmpIndex]
    ensures var t := DetectInput(s, 4, rand);
      && t.remainingLives == s.remainingLives - 1
      && t.wrongCounter == s.wrongCounter + 1
      && t.correctCounter == 0
      && t.correctTotal == s.correctTotal && t.gainedLives == s.gainedLives
      && t.levelIndex == s.levelIndex && t.tmpIndex == s.tmpIndex
      && t.level3QuestionIdx == s.level3QuestionIdx && t.level4QuestionIdx == s.level4QuestionIdx
      && t.selectLevelInput == 1
      && (0 <= t.remainingLives ==> Some(t.pixel) == LivesColour(t.remainingLives))
      && (t.remainingLives < 0 ==> t.pixel == s.pixel)
  {
    ScoredFacts(s, false);
    ProceedFacts(Scored(s, false), false, rand);
  }

  /** The level changes on enter exactly when the answer is the fifth correct one in a row below level 4. */
  lemma LevelChangesOnlyAfterFive(s: Session, rand: nat)
    requires Valid(s) && s.selectLevelInput == 1 && 1 <= s.inputLength
    ensures DetectInput(s, 4, rand).levelIndex != s.levelIndex <==>
      Submitted(s) == Alp[s.tmpIndex] && s.correctCounter == 4 && s.levelIndex < 4
  {
    if Submitted(s) == Alp[s.tmpIndex] {
      CorrectAnswerScoring(s, rand);
    } else {
      WrongAnswerScoring(s, rand);
    }
  }

  /** Lives are not reset when a level is left: they carry over, at most one up for the answer. */
  lemma LivesCarryOver(s: Session, rand: nat)
    requires Valid(s) && s.selectLevelInput == 1 && 1 <= s.inputLength
    requires Submitted(s) == Alp[s.tmpIndex] && s.correctCounter == 4 && s.levelIndex < 4
    requires s.remainingLives < 2
    ensures var t := DetectInput(s, 4, rand);
      t.levelIndex == s.levelIndex + 1 && t.remainingLives == s.remainingLives + 1 && t.remainingLives < 3
  {
    CorrectAnswerScoring(s, rand);
  }

  /**
   * The fifth correct answer in a row on level 4 changes nothing but the
   * counters: the level and the question stay, and the streak stays at 5.
   */
  lemma FinalLevelStays(s: Session, rand: nat)
    requires Valid(s) && s.selectLevelInput == 1 && 1 <= s.inputLength
    requires s.levelIndex == 4 && s.correctCounter == 4 && Submitted(s) == Alp[s.tmpIndex]
    ensures var t := DetectInput(s, 4, rand);
      && t.levelIndex == 4 && t.correctCounter == 5 && t.tmpIndex == s.tmpIndex
      && t.level4QuestionIdx == s.level4QuestionIdx && t.selectLevelInput == 1
  {
    ScoredFacts(s, true);
    ProceedFacts(Scored(s, true), true, rand);
  }

  /** Losing the last life ends nothing: the outcome is 2, but the level stays selected and input goes on being scored. */
  lemma GameOverDoesNotStopPlay(s: Session, rand: nat)
    requires Valid(s) && s.selectLevelInput == 1 && 1 <= s.inputLength
    requires s.remainingLives == 1 && Submitted(s) != Alp[s.tmpIndex]
    ensures var t := DetectInput(s, 4, rand);
      && t.remainingLives == 0 && CheckLevelComplete(t) == 2
      && t.selectLevelInput == 1 && Valid(t) && t.pixel == RedPixel
  {
    WrongAnswerScoring(s, rand);
    DetectInputKeepsValid(s, 4, rand);
  }

  /** After game over a further wrong answer takes the lives below zero. */
  lemma LivesGoNegative(s: Session, rand: nat)
    requires Valid(s) && s.selectLevelInput == 1 && 1 <= s.inputLength
    requires s.remainingLives == 0 && Submitted(s) != Alp[s.tmpIndex]
    ensures DetectInput(s, 4, rand).remainingLives == -1
  {
    WrongAnswerScoring(s, rand);
  }

  /**
   * Before a level is chosen, the code of the figure `l` (1-4) starts level
   * `l`: three lives, no streak, no wrong or gained lives, a green LED and a
   * question of that level, with the total of correct answers kept.
   */
  lemma LevelChosen(s: Session, l: int, rand: nat)
    requires Valid(s) && s.selectLevelInput == 0 && 1 <= s.inputLength
    requires 1 <= l <= 4 && Submitted(s) == Alp[AlphanumericCount - 10 + l]
    ensures var t := DetectInput(s, 4, rand);
      && t.selectLevelInput == 1 && t.levelIndex == l
      && t.remainingLives == 3 && t.correctCounter == 0 && t.wrongCounter == 0 && t.gainedLives == 0
      && t.correctTotal == s.correctTotal && t.pixel == GreenPixel
      && (l <= 2 ==> t.tmpIndex < AlphanumericCount)
      && (l >= 3 ==> AlphanumericCount <= t.tmpIndex)
  {
    LevelCodeChosen(s, l);
    LevelStarts(s, rand);
  }

  /** `select_level` finds level `l` in the submitted code of the figure `l`. */
  lemma LevelCodeChosen(s: Session, l: int)
    requires 1 <= s.inputLength <= |s.inputSequence|
    requires 1 <= l <= 4 && Submitted(s) == Alp[AlphanumericCount - 10 + l]
    ensures SelectLevel(Trim(s).inputSequence) == l
  {
    if l == 1 {
      assert Submitted(s) == Alp[27];
    } else if l == 2 {
      assert Submitted(s) == Alp[28];
    } else if l == 3 {
      assert Submitted(s) == Alp[29];
    } else {
      assert Submitted(s) == Alp[30];
    }
  }

  /** A level found by `select_level` is started afresh, and its first question asked. */
  lemma LevelStarts(s: Session, rand: nat)
    requires Valid(s) && s.selectLevelInput == 0 && 1 <= s.inputLength
    requires SelectLevel(Trim(s).inputSequence) <= 4
    ensures var t := DetectInput(s, 4, rand);
      var l := SelectLevel(Trim(s).inputSequence);
      && t.selectLevelInput == 1 && t.levelIndex == l
      && t.remainingLives == 3 && t.correctCounter == 0 && t.wrongCounter == 0 && t.gainedLives == 0
      && t.correctTotal == s.correctTotal && t.pixel == GreenPixel
      && (l <= 2 ==> t.tmpIndex < AlphanumericCount)
      && (l >= 3 ==> AlphanumericCount <= t.tmpIndex)
  {
  }

  /** Asking from a session whose question and cursors are those of `s` asks as from `s`. */
  lemma AskFromKept(s: Session, u: Session, rand: nat)
    requires KeepsQuestion(s, u)
    ensures AsksQuestion(s, AskQuestion(u, rand), u.levelIndex, rand)
  {
  }

  /**
   * The first question of a level chosen by its code: the drawn letter or
   * figure on levels 1-2, the word under that level's own cursor on levels
   * 3-4, with that cursor advancing and the other kept.
   */
  lemma LevelStartAsks(s: Session, rand: nat)
    requires Valid(s) && s.selectLevelInput == 0 && 1 <= s.inputLength
    requires SelectLevel(Trim(s).inputSequence) <= 4
    ensures AsksQuestion(s, DetectInput(s, 4, rand), SelectLevel(Trim(s).inputSequence), rand)
  {
    var l := SelectLevel(Trim(s).inputSequence);
    AskFromKept(s, GameStart(InitializeInputArray(Trim(s).(selectLevelInput := 1)).(levelIndex := l)), rand);
  }

  /** Any other code before a level is chosen only clears the buffer. */
  lemma InvalidChoice(s: Session, rand: nat)
    requires Valid(s) && s.selectLevelInput == 0 && 1 <= s.inputLength
    requires forall k :: AlphanumericCount - 9 <= k <= AlphanumericCount - 6 ==> Submitted(s) != Alp[k]
    ensures DetectInput(s, 4, rand) == InitializeInputArray(s)
  {
    var trimmed := Trim(s).(selectLevelInput := 1);
    assert CString(trimmed.inputSequence) == Submitted(s);
    assert SelectLevel(trimmed.inputSequence) == 5 by {
      assert Submitted(s) != Alp[27] && Submitted(s) != Alp[28];
      assert Submitted(s) != Alp[29] && Submitted(s) != Alp[30];
    }
  }

  /**
   * Five level-3 questions in a row ask each of the five words once, in
   * table order from the cursor on, and bring the cursor back where it was.
   */
  lemma {:induction false} WordCursorCycle(s: Session)
    requires 0 <= s.level3QuestionIdx <= 4
    ensures var t1 := Level3Question(s);
      var t2 := Level3Question(t1);
      var t3 := Level3Question(t2);
      var t4 := Level3Question(t3);
      var t5 := Level3Question(t4);
      && t5.level3QuestionIdx == s.level3QuestionIdx
      && {t1.tmpIndex, t2.tmpIndex, t3.tmpIndex, t4.tmpIndex, t5.tmpIndex} == {36, 37, 38, 39, 40}
      && t5.level4QuestionIdx == s.level4QuestionIdx
  {
    var c := s.level3QuestionIdx;
    var t1 := Level3Question(s);
    var t2 := Level3Question(t1);
    var t3 := Level3Question(t2);
    var t4 := Level3Question(t3);
    var t5 := Level3Question(t4);
    assert t1.tmpIndex == 36 + c;
    assert t2.tmpIndex == 36 + (c + 1) % 5;
    assert t3.tmpIndex == 36 + (c + 2) % 5;
    assert t4.tmpIndex == 36 + (c + 3) % 5;
    assert t5.tmpIndex == 36 + (c + 4) % 5;
  }
}
