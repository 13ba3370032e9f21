/**
 * The symbol tables of the Morse code quiz: `alp` (codes), `que` (what each
 * code spells) and `table` (filled by `morse_init`). Entries 0..35 are the
 * letters A-Z and the figures 0-9 of the International Morse Code
 * (ITU-R M.1677-1, Part I, section 1.1); entries 36..40 are the five quiz
 * words, written as letter codes separated by one space.
 */
module MorseTable {

  /** Number of letters and figures (`table_SIZE`). */
  const AlphanumericCount := 36

  /** Number of entries of `alp` and `que`: 36 letters and figures, 5 words. */
  const EntryCount := 41

  /** `alp`: the code of every entry, as the player has to key it in. */
  const Alp: seq<string> := [
    ".-", "-...", "-.-.", "-..", ".", "..-.", "--.", "....", "..", ".---",
    "-.-", ".-..", "--", "-.", "---", ".--.", "--.-", ".-.", "...", "-",
    "..-", "...-", ".--", "-..-", "-.--", "--..", "-----", ".----", "..---", "...--",
    "....-", ".....", "-....", "--...", "---..", "----.",
    "-.-. .- -",
    "-.-. --- -.. .",
    "-- .. -.-. .-. ---",
    ".. -. - . .-..",
    "--. .-. --- ..- .--."
  ]

  /** `que`: the text each entry of `Alp` stands for. */
  const Que: seq<string> := [
    "A", "B", "C", "D", "E", "F", "G", "H", "I", "J", "K", "L", "M",
    "N", "O", "P", "Q", "R", "S", "T", "U", "V", "W", "X", "Y", "Z",
    "0", "1", "2", "3", "4", "5", "6", "7", "8", "9", "CAT", "CODE", "MICRO",
    "INTEL", "GROUP"
  ]

  /** One mark of a code: a dot, a dash or the space between letters of a word. */
  predicate IsMark(c: char) {
    c == '.' || c == '-' || c == ' '
  }

  /** `struct morsecode`: a letter or figure and its code. */
  datatype MorseCode = MorseCode(letter: char, code: string)

  /** The letters `morse_init` stores in `table`, in table order. */
  const TableLetters: string := "ABCDEFGHIJKLMNOPQRSTUVWXYZ0123456789"

  /** The codes `morse_init` stores in `table`, in table order. */
  const TableCodes: seq<string> := [
    ".-", "-...", "-.-.", "-..", ".", "..-.", "--.", "....", "..", ".---",
    "-.-", ".-..", "--", "-.", "---", ".--.", "--.-", ".-.", "...", "-",
    "..-", "...-", ".--", "-..-", "-.--", "--..", "-----", ".----", "..---", "...--",
    "....-", ".....", "-....", "--...", "---..", "----."
  ]

  /**
   * `morse_init`: the 36-entry `table`. Its letters and codes are written out
   * independently of `Alp` and `Que`, as the source writes them twice; the
   * contract states that the two copies agree.
   */
  function MorseInit(): (table: seq<MorseCode>)
    ensures |table| == AlphanumericCount
    ensures forall k :: 0 <= k < AlphanumericCount ==>
      table[k].code == Alp[k] && |Que[k]| == 1 && table[k].letter == Que[k][0]
  {
    TableCodesAgreeLow();
    TableCodesAgreeHigh();
    TableLettersAgree();
    seq(AlphanumericCount, k requires 0 <= k < AlphanumericCount => MorseCode(TableLetters[k], TableCodes[k]))
  }

  lemma TableCodesAgreeLow()
    ensures forall k :: 0 <= k < 18 ==> TableCodes[k] == Alp[k]
  {
  }

  lemma TableCodesAgreeHigh()
    ensures forall k :: 18 <= k < AlphanumericCount ==> TableCodes[k] == Alp[k]
  {
  }

  lemma TableLettersAgree()
    ensures forall k :: 0 <= k < AlphanumericCount ==> Que[k] == [TableLetters[k]]
  {
    TableLettersAgreeLow();
    TableLettersAgreeHigh();
  }

  lemma TableLettersAgreeLow()
    ensures forall k :: 0 <= k < 18 ==> Que[k] == [TableLetters[k]]
  {
  }

  lemma TableLettersAgreeHigh()
    ensures forall k :: 18 <= k < AlphanumericCount ==> Que[k] == [TableLetters[k]]
  {
  }

  lemma CodesDistinctFrom0To1()
    ensures forall j, k :: 0 <= j < 2 && j < k < EntryCount ==> Alp[j] != Alp[k]
  {
  }

  lemma CodesDistinctFrom2To3()
    ensures forall j, k :: 2 <= j < 4 && j < k < EntryCount ==> Alp[j] != Alp[k]
  {
  }

  lemma CodesDistinctFrom4To5()
    ensures forall j, k :: 4 <= j < 6 && j < k < EntryCount ==> Alp[j] != Alp[k]
  {
  }

  lemma CodesDistinctFrom6To7()
    ensures forall j, k :: 6 <= j < 8 && j < k < EntryCount ==> Alp[j] != Alp[k]
  {
  }

  lemma CodesDistinctFrom8To10()
    ensures forall j, k :: 8 <= j < 11 && j < k < EntryCount ==> Alp[j] != Alp[k]
  {
  }

  lemma CodesDistinctFrom11To13()
    ensures forall j, k :: 11 <= j < 14 && j < k < EntryCount ==> Alp[j] != Alp[k]
  {
  }

  lemma CodesDistinctFrom14To17()
    ensures forall j, k :: 14 <= j < 18 && j < k < EntryCount ==> Alp[j] != Alp[k]
  {
  }

  lemma CodesDistinctFrom18To23()
    ensures forall j, k :: 18 <= j < 24 && j < k < EntryCount ==> Alp[j] != Alp[k]
  {
  }

  lemma CodesDistinctFrom24To40()
    ensures forall j, k :: 24 <= j < 41 && j < k < EntryCount ==> Alp[j] != Alp[k]
  {
  }

  /** No two entries of `Alp` share a code, so a code names at most one entry. */
  lemma CodesDistinct()
    ensures forall j, k :: 0 <= j < EntryCount && 0 <= k < EntryCount && j != k ==> Alp[j] != Alp[k]
  {
    CodesDistinctFrom0To1();
    CodesDistinctFrom2To3();
    CodesDistinctFrom4To5();
    CodesDistinctFrom6To7();
    CodesDistinctFrom8To10();
    CodesDistinctFrom11To13();
    CodesDistinctFrom14To17();
    CodesDistinctFrom18To23();
    CodesDistinctFrom24To40();
  }

  /** The codes of two different entries differ. */
  lemma CodesDiffer(j: int, k: int)
    requires 0 <= j < EntryCount && 0 <= k < EntryCount && j != k
    ensures Alp[j] != Alp[k]
  {
    CodesDistinct();
  }

  /** The codes of the figures 1-4, which choose the levels, differ pairwise. */
  lemma LevelCodesDistinct()
    ensures Alp[27] != Alp[28] && Alp[27] != Alp[29] && Alp[27] != Alp[30]
    ensures Alp[28] != Alp[29] && Alp[28] != Alp[30] && Alp[29] != Alp[30]
  {
    assert Alp[27][1] != Alp[28][1] && Alp[27][1] != Alp[29][1] && Alp[27][1] != Alp[30][1];
    assert Alp[28][2] != Alp[29][2] && Alp[28][2] != Alp[30][2] && Alp[29][3] != Alp[30][3];
  }

  /** The word CAT is its letters in order. */
  lemma WordLettersCat()
    ensures Que[36] == Que[2] + Que[0] + Que[19]
  {
  }

  lemma CatWordCodes()
    ensures Alp[36] == "-.-. .- -" && Alp[2] == "-.-." && Alp[0] == ".-" && Alp[19] == "-"
  {
  }

  /** The code of CAT is the codes of its letters joined by single spaces. */
  lemma WordSpelledCat()
    ensures Alp[36] == Alp[2] + " " + Alp[0] + " " + Alp[19]
  {
    CatWordCodes();
    assert "-.-. .- -" == "-.-." + " " + ".-" + " " + "-";
  }

  /** The word CODE is its letters in order. */
  lemma WordLettersCode()
    ensures Que[37] == Que[2] + Que[14] + Que[3] + Que[4]
  {
  }

  lemma CodeWordCodes()
    ensures Alp[37] == "-.-. --- -.. ." && Alp[2] == "-.-." && Alp[14] == "---" && Alp[3] == "-.." && Alp[4] == "."
  {
  }

  /** The code of CODE is the codes of its letters joined by single spaces. */
  lemma WordSpelledCode()
    ensures Alp[37] == Alp[2] + " " + Alp[14] + " " + Alp[3] + " " + Alp[4]
  {
    CodeWordCodes();
    assert "-.-. --- -.. ." == "-.-." + " " + "---" + " " + "-.." + " " + ".";
  }

  /** The word MICRO is its letters in order. */
  lemma WordLettersMicro()
    ensures Que[38] == Que[12] + Que[8] + Que[2] + Que[17] + Que[14]
  {
  }

  lemma MicroWordCodes()
    ensures Alp[38] == "-- .. -.-. .-. ---" && Alp[12] == "--" && Alp[8] == ".." && Alp[2] == "-.-." && Alp[17] == ".-." && Alp[14] == "---"
  {
  }

  /** The code of MICRO is the codes of its letters joined by single spaces. */
  lemma WordSpelledMicro()
    ensures Alp[38] == Alp[12] + " " + Alp[8] + " " + Alp[2] + " " + Alp[17] + " " + Alp[14]
  {
    MicroWordCodes();
    assert "-- .. -.-. .-. ---" == "--" + " " + ".." + " " + "-.-." + " " + ".-." + " " + "---";
  }

  /** The word INTEL is its letters in order. */
  lemma WordLettersIntel()
    ensures Que[39] == Que[8] + Que[13] + Que[19] + Que[4] + Que[11]
  {
  }

  lemma IntelWordCodes()
    ensures Alp[39] == ".. -. - . .-.." && Alp[8] == ".." && Alp[13] == "-." && Alp[19] == "-" && Alp[4] == "." && Alp[11] == ".-.."
  {
  }

  /** The code of INTEL is the codes of its letters joined by single spaces. */
  lemma WordSpelledIntel()
    ensures Alp[39] == Alp[8] + " " + Alp[13] + " " + Alp[19] + " " + Alp[4] + " " + Alp[11]
  {
    IntelWordCodes();
    assert ".. -. - . .-.." == ".." + " " + "-." + " " + "-" + " " + "." + " " + ".-..";
  }

  /** The word GROUP is its letters in order. */
  lemma WordLettersGroup()
    ensures Que[40] == Que[6] + Que[17] + Que[14] + Que[20] + Que[15]
  {
  }

  lemma GroupWordCodes()
    ensures Alp[40] == "--. .-. --- ..- .--." && Alp[6] == "--." && Alp[17] == ".-." && Alp[14] == "---" && Alp[20] == "..-" && Alp[15] == ".--."
  {
  }

  /** The code of GROUP is the codes of its letters joined by single spaces. */
  lemma WordSpelledGroup()
    ensures Alp[40] == Alp[6] + " " + Alp[17] + " " + Alp[14] + " " + Alp[20] + " " + Alp[15]
  {
    GroupWordCodes();
    assert "--. .-. --- ..- .--." == "--." + " " + ".-." + " " + "---" + " " + "..-" + " " + ".--.";
  }


  /** Every code is made of marks only; in particular no code holds a `'\0'`. */
  lemma CodesAreMarks()
    ensures forall k, m :: 0 <= k < EntryCount && 0 <= m < |Alp[k]| ==> IsMark(Alp[k][m])
  {
    LowCodesAreMarks();
    HighCodesAreMarks();
  }

  lemma LowCodesAreMarks()
    ensures forall k, m :: 0 <= k < 20 && 0 <= m < |Alp[k]| ==> IsMark(Alp[k][m])
  {
  }

  lemma HighCodesAreMarks()
    ensures forall k, m :: 20 <= k < EntryCount && 0 <= m < |Alp[k]| ==> IsMark(Alp[k][m])
  {
  }

  /** The longest code is that of GROUP, 20 marks; every other code has at most 18. */
  lemma CodeLengths()
    ensures |Alp[40]| == 20
    ensures forall k :: 0 <= k < 40 ==> |Alp[k]| <= 18
  {
  }
}
