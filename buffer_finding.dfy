/**
 * The input buffer is one slot short for the longest code. The protocol ends
 * every answer with a mark that enter then overwrites, so an answer of `n`
 * marks needs `n + 1` slots. GROUP is 20 marks long and `inputSequence` has
 * 20 slots: with that buffer GROUP can never be answered, while with 21 slots
 * it can. Every other code is at most 18 marks long and fits either way.
 */
module BufferFinding {
  import opened MorseTable
  import opened CStrings
  import opened Quiz
  import opened QuizProperties

  /** The buffer length that leaves room for GROUP and the mark before enter. */
  const CorrectedBufferSize := 21

  /** The input event that keys in a mark. */
  function InputOf(mark: char): (input: int)
    requires IsMark(mark)
    ensures 1 <= input <= 3 && MarkOf(input) == mark
  {
    if mark == '.' then 1 else if mark == '-' then 2 else 3
  }

  /** The session after keying in `marks`, one input event per mark. */
  function KeyIn(s: Session, marks: seq<char>, rand: nat): (t: Session)
    requires 0 <= s.inputLength && s.inputLength + |marks| <= |s.inputSequence|
    requires forall k :: 0 <= k < |marks| ==> IsMark(marks[k])
    ensures t.inputLength == s.inputLength + |marks| && |t.inputSequence| == |s.inputSequence|
    ensures t.(inputSequence := s.inputSequence, inputLength := s.inputLength) == s
    decreases |marks|
  {
    if marks == [] then s
    else KeyIn(DetectInput(s, InputOf(marks[0]), rand), marks[1..], rand)
  }

  /** Keying in marks appends them to what was typed and changes nothing else. */
  lemma {:induction false} KeyInAppends(s: Session, marks: seq<char>, rand: nat)
    requires Valid(s) && s.inputLength + |marks| <= |s.inputSequence|
    requires forall k :: 0 <= k < |marks| ==> IsMark(marks[k])
    ensures var t := KeyIn(s, marks, rand);
      Valid(t) && Typed(t) == Typed(s) + marks
    decreases |marks|
  {
    if marks != [] {
      var input := InputOf(marks[0]);
      var next := DetectInput(s, input, rand);
      AppendMark(s, input, rand);
      DetectInputKeepsValid(s, input, rand);
      KeyInAppends(next, marks[1..], rand);
      assert Typed(s) + [marks[0]] + marks[1..] == Typed(s) + marks;
    }
  }

  /** The session after keying in the code asked for and a closing space. */
  function KeyInAnswer(s: Session, rand: nat): (t: Session)
    requires s.inputLength == 0 && 0 <= s.tmpIndex < EntryCount
    requires |Alp[s.tmpIndex]| < |s.inputSequence|
    ensures t.inputLength == |Alp[s.tmpIndex]| + 1 && |t.inputSequence| == |s.inputSequence|
    ensures t.selectLevelInput == s.selectLevelInput && t.tmpIndex == s.tmpIndex
  {
    CodesAreMarks();
    KeyIn(s, Alp[s.tmpIndex] + " ", rand)
  }

  /**
   * With an empty buffer that has more slots than the code asked for has
   * marks, keying in the code and a closing space and then pressing enter
   * is scored as a correct answer.
   */
  lemma AnswerFits(s: Session, rand: nat)
    requires Valid(s) && s.selectLevelInput == 1 && s.inputLength == 0
    requires |Alp[s.tmpIndex]| < |s.inputSequence|
    ensures Defined(KeyInAnswer(s, rand), 4)
    ensures DetectInput(KeyInAnswer(s, rand), 4, rand).correctTotal == s.correctTotal + 1
  {
    var code := Alp[s.tmpIndex];
    CodesAreMarks();
    var marks := code + " ";
    assert forall k :: 0 <= k < |marks| ==> IsMark(marks[k]);
    var t := KeyIn(s, marks, rand);
    KeyInAppends(s, marks, rand);
    assert Typed(t) == marks;
    SubmittedIsTypedWithoutLast(t);
    assert Submitted(t) == code by {
      assert Typed(t)[..t.inputLength - 1] == code;
    }
    CorrectAnswerScoring(t, rand);
  }

  /**
   * As written: with the 20-slot buffer, whatever was keyed in, enter never
   * submits the code of GROUP, since at most 19 marks survive the trim.
   */
  lemma GroupNeverSubmitted(s: Session)
    requires Valid(s) && |s.inputSequence| == SourceBufferSize && 1 <= s.inputLength
    ensures Submitted(s) != Alp[EntryCount - 1]
  {
    SubmittedIsTypedWithoutLast(s);
    CodeLengths();
  }

  /** As written, GROUP is asked on levels 3 and 4 but every answer to it is scored wrong. */
  lemma GroupAlwaysWrong(s: Session, rand: nat)
    requires Valid(s) && |s.inputSequence| == SourceBufferSize && 1 <= s.inputLength
    requires s.selectLevelInput == 1 && s.tmpIndex == EntryCount - 1
    ensures DetectInput(s, 4, rand).correctTotal == s.correctTotal
    ensures DetectInput(s, 4, rand).remainingLives == s.remainingLives - 1
  {
    GroupNeverSubmitted(s);
    WrongAnswerScoring(s, rand);
  }

  /** Every code but GROUP can be answered with the 20-slot buffer. */
  lemma OtherCodesFit(s: Session, rand: nat)
    requires Valid(s) && |s.inputSequence| == SourceBufferSize
    requires s.selectLevelInput == 1 && s.inputLength == 0 && s.tmpIndex < EntryCount - 1
    ensures DetectInput(KeyInAnswer(s, rand), 4, rand).correctTotal == s.correctTotal + 1
  {
    CodeLengths();
    AnswerFits(s, rand);
  }

  /** Corrected: with 21 slots GROUP, keyed in with its closing space, is accepted. */
  lemma GroupFitsCorrectedBuffer(s: Session, rand: nat)
    requires Valid(s) && |s.inputSequence| == CorrectedBufferSize
    requires s.selectLevelInput == 1 && s.inputLength == 0 && s.tmpIndex == EntryCount - 1
    ensures KeyInAnswer(s, rand).inputLength == CorrectedBufferSize
    ensures DetectInput(KeyInAnswer(s, rand), 4, rand).correctTotal == s.correctTotal + 1
  {
    CodeLengths();
    AnswerFits(s, rand);
  }
}
