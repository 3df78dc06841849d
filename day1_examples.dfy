/** The word-aware extraction on the lines its unit test lists, each
    word alone, and the empty line; evaluated position by position. */
module Day1Examples {
  import opened Text
  import opened Day1

  /** A position holding no digit pushes nothing when each word starting
      with its character differs from the text in the next character. */
  lemma NoWordFrom(line: string, i: nat)
    requires i < |line| && !IsDigit(line[i])
    requires forall j :: 0 <= j < |Words| && Words[j].0[0] == line[i] ==>
      i + 1 >= |line| || line[i + 1] != Words[j].0[1]
    ensures PushAt(line, i) == None
  {
    var slice := Window(line, i);
    forall j | 0 <= j < |Words|
      ensures !StartsWith(slice, Words[j].0)
    {
      if Words[j].0[0] == line[i] {
        Differs(slice, Words[j].0, 1);
      } else {
        Differs(slice, Words[j].0, 0);
      }
    }
    FirstWordFinds(slice, 0);
  }

  lemma Digits123OneAt0()
    ensures PushAt("123one", 0) == Some(1)
  {
    DigitPushed("123one", 0);
  }

  lemma Digits123OneAt1()
    ensures PushAt("123one", 1) == Some(2)
  {
    DigitPushed("123one", 1);
  }

  lemma Digits123OneAt2()
    ensures PushAt("123one", 2) == Some(3)
  {
    DigitPushed("123one", 2);
  }

  lemma Digits123OneAt3()
    ensures PushAt("123one", 3) == Some(1)
  {
    assert Window("123one", 3) == "one";
    assert Window("123one", 3)[..3] == "one";
  }

  lemma Digits123OneAt4()
    ensures PushAt("123one", 4) == None
  {
    NoWordFrom("123one", 4);
  }

  lemma Digits123OneAt5()
    ensures PushAt("123one", 5) == None
  {
    NoWordFrom("123one", 5);
  }

  /** Literal digits first, then a word. */
  lemma Digits123One()
    ensures TextNumbers("123one") == [1, 2, 3, 1]
  {
    Digits123OneAt0();
    assert Scan("123one", 1) == [1];
    Digits123OneAt1();
    assert Scan("123one", 2) == [1, 2];
    Digits123OneAt2();
    assert Scan("123one", 3) == [1, 2, 3];
    Digits123OneAt3();
    assert Scan("123one", 4) == [1, 2, 3, 1];
    Digits123OneAt4();
    assert Scan("123one", 5) == [1, 2, 3, 1];
    Digits123OneAt5();
    assert Scan("123one", 6) == [1, 2, 3, 1];
  }

  lemma Five2Eight5At0()
    ensures PushAt("five2eight5", 0) == Some(5)
  {
    Differs(Window("five2eight5", 0), "four", 1);
    assert Window("five2eight5", 0) == "five2";
    assert Window("five2eight5", 0)[..4] == "five";
  }

  lemma Five2Eight5At1()
    ensures PushAt("five2eight5", 1) == None
  {
    NothingPushed("five2eight5", 1);
  }

  lemma Five2Eight5At2()
    ensures PushAt("five2eight5", 2) == None
  {
    NothingPushed("five2eight5", 2);
  }

  lemma Five2Eight5At3()
    ensures PushAt("five2eight5", 3) == None
  {
    NoWordFrom("five2eight5", 3);
  }

  lemma Five2Eight5At4()
    ensures PushAt("five2eight5", 4) == Some(2)
  {
    DigitPushed("five2eight5", 4);
  }

  lemma Five2Eight5At5()
    ensures PushAt("five2eight5", 5) == Some(8)
  {
    assert Window("five2eight5", 5) == "eight";
    assert Window("five2eight5", 5)[..5] == "eight";
  }

  lemma Five2Eight5At6()
    ensures PushAt("five2eight5", 6) == None
  {
    NothingPushed("five2eight5", 6);
  }

  lemma Five2Eight5At7()
    ensures PushAt("five2eight5", 7) == None
  {
    NothingPushed("five2eight5", 7);
  }

  lemma Five2Eight5At8()
    ensures PushAt("five2eight5", 8) == None
  {
    NothingPushed("five2eight5", 8);
  }

  lemma Five2Eight5At9()
    ensures PushAt("five2eight5", 9) == None
  {
    NoWordFrom("five2eight5", 9);
  }

  lemma Five2Eight5At10()
    ensures PushAt("five2eight5", 10) == Some(5)
  {
    DigitPushed("five2eight5", 10);
  }

  /** Words and literal digits mix in line order. */
  lemma Five2Eight5()
    ensures TextNumbers("five2eight5") == [5, 2, 8, 5]
  {
    Five2Eight5At0();
    assert Scan("five2eight5", 1) == [5];
    Five2Eight5At1();
    assert Scan("five2eight5", 2) == [5];
    Five2Eight5At2();
    assert Scan("five2eight5", 3) == [5];
    Five2Eight5At3();
    assert Scan("five2eight5", 4) == [5];
    Five2Eight5At4();
    assert Scan("five2eight5", 5) == [5, 2];
    Five2Eight5At5();
    assert Scan("five2eight5", 6) == [5, 2, 8];
    Five2Eight5At6();
    assert Scan("five2eight5", 7) == [5, 2, 8];
    Five2Eight5At7();
    assert Scan("five2eight5", 8) == [5, 2, 8];
    Five2Eight5At8();
    assert Scan("five2eight5", 9) == [5, 2, 8];
    Five2Eight5At9();
    assert Scan("five2eight5", 10) == [5, 2, 8];
    Five2Eight5At10();
    assert Scan("five2eight5", 11) == [5, 2, 8, 5];
  }

  lemma OneFourTimesAt0()
    ensures PushAt("oneoneoneone", 0) == Some(1)
  {
    assert Window("oneoneoneone", 0) == "oneon";
    assert Window("oneoneoneone", 0)[..3] == "one";
  }

  lemma OneFourTimesAt1()
    ensures PushAt("oneoneoneone", 1) == None
  {
    NoWordFrom("oneoneoneone", 1);
  }

  lemma OneFourTimesAt2()
    ensures PushAt("oneoneoneone", 2) == None
  {
    NoWordFrom("oneoneoneone", 2);
  }

  lemma OneFourTimesAt3()
    ensures PushAt("oneoneoneone", 3) == Some(1)
  {
    assert Window("oneoneoneone", 3) == "oneon";
    assert Window("oneoneoneone", 3)[..3] == "one";
  }

  lemma OneFourTimesAt4()
    ensures PushAt("oneoneoneone", 4) == None
  {
    NoWordFrom("oneoneoneone", 4);
  }

  lemma OneFourTimesAt5()
    ensures PushAt("oneoneoneone", 5) == None
  {
    NoWordFrom("oneoneoneone", 5);
  }

  lemma OneFourTimesAt6()
    ensures PushAt("oneoneoneone", 6) == Some(1)
  {
    assert Window("oneoneoneone", 6) == "oneon";
    assert Window("oneoneoneone", 6)[..3] == "one";
  }

  lemma OneFourTimesAt7()
    ensures PushAt("oneoneoneone", 7) == None
  {
    NoWordFrom("oneoneoneone", 7);
  }

  lemma OneFourTimesAt8()
    ensures PushAt("oneoneoneone", 8) == None
  {
    NoWordFrom("oneoneoneone", 8);
  }

  lemma OneFourTimesAt9()
    ensures PushAt("oneoneoneone", 9) == Some(1)
  {
    assert Window("oneoneoneone", 9) == "one";
    assert Window("oneoneoneone", 9)[..3] == "one";
  }

  lemma OneFourTimesAt10()
    ensures PushAt("oneoneoneone", 10) == None
  {
    NoWordFrom("oneoneoneone", 10);
  }

  lemma OneFourTimesAt11()
    ensures PushAt("oneoneoneone", 11) == None
  {
    NoWordFrom("oneoneoneone", 11);
  }

  /** A repeated word yields its digit every time. */
  lemma OneFourTimes()
    ensures TextNumbers("oneoneoneone") == [1, 1, 1, 1]
  {
    OneFourTimesAt0();
    assert Scan("oneoneoneone", 1) == [1];
    OneFourTimesAt1();
    assert Scan("oneoneoneone", 2) == [1];
    OneFourTimesAt2();
    assert Scan("oneoneoneone", 3) == [1];
    OneFourTimesAt3();
    assert Scan("oneoneoneone", 4) == [1, 1];
    OneFourTimesAt4();
    assert Scan("oneoneoneone", 5) == [1, 1];
    OneFourTimesAt5();
    assert Scan("oneoneoneone", 6) == [1, 1];
    OneFourTimesAt6();
    assert Scan("oneoneoneone", 7) == [1, 1, 1];
    OneFourTimesAt7();
    assert Scan("oneoneoneone", 8) == [1, 1, 1];
    OneFourTimesAt8();
    assert Scan("oneoneoneone", 9) == [1, 1, 1];
    OneFourTimesAt9();
    assert Scan("oneoneoneone", 10) == [1, 1, 1, 1];
    OneFourTimesAt10();
    assert Scan("oneoneoneone", 11) == [1, 1, 1, 1];
    OneFourTimesAt11();
    assert Scan("oneoneoneone", 12) == [1, 1, 1, 1];
  }

  lemma FourOneThree3At0()
    ensures PushAt("fouronethree3", 0) == Some(4)
  {
    assert Window("fouronethree3", 0) == "fouro";
    assert Window("fouronethree3", 0)[..4] == "four";
  }

  lemma FourOneThree3At1()
    ensures PushAt("fouronethree3", 1) == None
  {
    NoWordFrom("fouronethree3", 1);
  }

  lemma FourOneThree3At2()
    ensures PushAt("fouronethree3", 2) == None
  {
    NothingPushed("fouronethree3", 2);
  }

  lemma FourOneThree3At3()
    ensures PushAt("fouronethree3", 3) == None
  {
    NothingPushed("fouronethree3", 3);
  }

  lemma FourOneThree3At4()
    ensures PushAt("fouronethree3", 4) == Some(1)
  {
    assert Window("fouronethree3", 4) == "oneth";
    assert Window("fouronethree3", 4)[..3] == "one";
  }

  lemma FourOneThree3At5()
    ensures PushAt("fouronethree3", 5) == None
  {
    NoWordFrom("fouronethree3", 5);
  }

  lemma FourOneThree3At6()
    ensures PushAt("fouronethree3", 6) == None
  {
    NoWordFrom("fouronethree3", 6);
  }

  lemma FourOneThree3At7()
    ensures PushAt("fouronethree3", 7) == Some(3)
  {
    Differs(Window("fouronethree3", 7), "two", 1);
    assert Window("fouronethree3", 7) == "three";
    assert Window("fouronethree3", 7)[..5] == "three";
  }

  lemma FourOneThree3At8()
    ensures PushAt("fouronethree3", 8) == None
  {
    NothingPushed("fouronethree3", 8);
  }

  lemma FourOneThree3At9()
    ensures PushAt("fouronethree3", 9) == None
  {
    NothingPushed("fouronethree3", 9);
  }

  lemma FourOneThree3At10()
    ensures PushAt("fouronethree3", 10) == None
  {
    NoWordFrom("fouronethree3", 10);
  }

  lemma FourOneThree3At11()
    ensures PushAt("fouronethree3", 11) == None
  {
    NoWordFrom("fouronethree3", 11);
  }

  lemma FourOneThree3At12()
    ensures PushAt("fouronethree3", 12) == Some(3)
  {
    DigitPushed("fouronethree3", 12);
  }

  /** Three words, then a literal digit. */
  lemma FourOneThree3()
    ensures TextNumbers("fouronethree3") == [4, 1, 3, 3]
  {
    FourOneThree3At0();
    assert Scan("fouronethree3", 1) == [4];
    FourOneThree3At1();
    assert Scan("fouronethree3", 2) == [4];
    FourOneThree3At2();
    assert Scan("fouronethree3", 3) == [4];
    FourOneThree3At3();
    assert Scan("fouronethree3", 4) == [4];
    FourOneThree3At4();
    assert Scan("fouronethree3", 5) == [4, 1];
    FourOneThree3At5();
    assert Scan("fouronethree3", 6) == [4, 1];
    FourOneThree3At6();
    assert Scan("fouronethree3", 7) == [4, 1];
    FourOneThree3At7();
    assert Scan("fouronethree3", 8) == [4, 1, 3];
    FourOneThree3At8();
    assert Scan("fouronethree3", 9) == [4, 1, 3];
    FourOneThree3At9();
    assert Scan("fouronethree3", 10) == [4, 1, 3];
    FourOneThree3At10();
    assert Scan("fouronethree3", 11) == [4, 1, 3];
    FourOneThree3At11();
    assert Scan("fouronethree3", 12) == [4, 1, 3];
    FourOneThree3At12();
    assert Scan("fouronethree3", 13) == [4, 1, 3, 3];
  }

  lemma OnesOnlyAt0()
    ensures PushAt("1111", 0) == Some(1)
  {
    DigitPushed("1111", 0);
  }

  lemma OnesOnlyAt1()
    ensures PushAt("1111", 1) == Some(1)
  {
    DigitPushed("1111", 1);
  }

  lemma OnesOnlyAt2()
    ensures PushAt("1111", 2) == Some(1)
  {
    DigitPushed("1111", 2);
  }

  lemma OnesOnlyAt3()
    ensures PushAt("1111", 3) == Some(1)
  {
    DigitPushed("1111", 3);
  }

  /** A line of digits alone yields those digits. */
  lemma OnesOnly()
    ensures TextNumbers("1111") == [1, 1, 1, 1]
  {
    OnesOnlyAt0();
    assert Scan("1111", 1) == [1];
    OnesOnlyAt1();
    assert Scan("1111", 2) == [1, 1];
    OnesOnlyAt2();
    assert Scan("1111", 3) == [1, 1, 1];
    OnesOnlyAt3();
    assert Scan("1111", 4) == [1, 1, 1, 1];
  }

  lemma TwoneFourAt0()
    ensures PushAt("twonefour", 0) == Some(2)
  {
    assert Window("twonefour", 0) == "twone";
    assert Window("twonefour", 0)[..3] == "two";
  }

  lemma TwoneFourAt1()
    ensures PushAt("twonefour", 1) == None
  {
    NothingPushed("twonefour", 1);
  }

  lemma TwoneFourAt2()
    ensures PushAt("twonefour", 2) == Some(1)
  {
    assert Window("twonefour", 2) == "onefo";
    assert Window("twonefour", 2)[..3] == "one";
  }

  lemma TwoneFourAt3()
    ensures PushAt("twonefour", 3) == None
  {
    NoWordFrom("twonefour", 3);
  }

  lemma TwoneFourAt4()
    ensures PushAt("twonefour", 4) == None
  {
    NoWordFrom("twonefour", 4);
  }

  lemma TwoneFourAt5()
    ensures PushAt("twonefour", 5) == Some(4)
  {
    assert Window("twonefour", 5) == "four";
    assert Window("twonefour", 5)[..4] == "four";
  }

  lemma TwoneFourAt6()
    ensures PushAt("twonefour", 6) == None
  {
    NoWordFrom("twonefour", 6);
  }

  lemma TwoneFourAt7()
    ensures PushAt("twonefour", 7) == None
  {
    NothingPushed("twonefour", 7);
  }

  lemma TwoneFourAt8()
    ensures PushAt("twonefour", 8) == None
  {
    NothingPushed("twonefour", 8);
  }

  /** Overlapping words each yield their digit: `two` and `one` share the `o`. */
  lemma TwoneFour()
    ensures TextNumbers("twonefour") == [2, 1, 4]
  {
    TwoneFourAt0();
    assert Scan("twonefour", 1) == [2];
    TwoneFourAt1();
    assert Scan("twonefour", 2) == [2];
    TwoneFourAt2();
    assert Scan("twonefour", 3) == [2, 1];
    TwoneFourAt3();
    assert Scan("twonefour", 4) == [2, 1];
    TwoneFourAt4();
    assert Scan("twonefour", 5) == [2, 1];
    TwoneFourAt5();
    assert Scan("twonefour", 6) == [2, 1, 4];
    TwoneFourAt6();
    assert Scan("twonefour", 7) == [2, 1, 4];
    TwoneFourAt7();
    assert Scan("twonefour", 8) == [2, 1, 4];
    TwoneFourAt8();
    assert Scan("twonefour", 9) == [2, 1, 4];
  }

  lemma WordOneAt0()
    ensures PushAt("one", 0) == Some(1)
  {
    assert Window("one", 0) == "one";
    assert Window("one", 0)[..3] == "one";
  }

  lemma WordOneAt1()
    ensures PushAt("one", 1) == None
  {
    NoWordFrom("one", 1);
  }

  lemma WordOneAt2()
    ensures PushAt("one", 2) == None
  {
    NoWordFrom("one", 2);
  }

  lemma WordOne()
    ensures TextNumbers("one") == [1]
  {
    WordOneAt0();
    assert Scan("one", 1) == [1];
    WordOneAt1();
    assert Scan("one", 2) == [1];
    WordOneAt2();
    assert Scan("one", 3) == [1];
  }

  lemma WordTwoAt0()
    ensures PushAt("two", 0) == Some(2)
  {
    assert Window("two", 0) == "two";
    assert Window("two", 0)[..3] == "two";
  }

  lemma WordTwoAt1()
    ensures PushAt("two", 1) == None
  {
    NothingPushed("two", 1);
  }

  lemma WordTwoAt2()
    ensures PushAt("two", 2) == None
  {
    NoWordFrom("two", 2);
  }

  lemma WordTwo()
    ensures TextNumbers("two") == [2]
  {
    WordTwoAt0();
    assert Scan("two", 1) == [2];
    WordTwoAt1();
    assert Scan("two", 2) == [2];
    WordTwoAt2();
    assert Scan("two", 3) == [2];
  }

  lemma WordThreeAt0()
    ensures PushAt("three", 0) == Some(3)
  {
    Differs(Window("three", 0), "two", 1);
    assert Window("three", 0) == "three";
    assert Window("three", 0)[..5] == "three";
  }

  lemma WordThreeAt1()
    ensures PushAt("three", 1) == None
  {
    NothingPushed("three", 1);
  }

  lemma WordThreeAt2()
    ensures PushAt("three", 2) == None
  {
    NothingPushed("three", 2);
  }

  lemma WordThreeAt3()
    ensures PushAt("three", 3) == None
  {
    NoWordFrom("three", 3);
  }

  lemma WordThreeAt4()
    ensures PushAt("three", 4) == None
  {
    NoWordFrom("three", 4);
  }

  lemma WordThree()
    ensures TextNumbers("three") == [3]
  {
    WordThreeAt0();
    assert Scan("three", 1) == [3];
    WordThreeAt1();
    assert Scan("three", 2) == [3];
    WordThreeAt2();
    assert Scan("three", 3) == [3];
    WordThreeAt3();
    assert Scan("three", 4) == [3];
    WordThreeAt4();
    assert Scan("three", 5) == [3];
  }

  lemma WordFourAt0()
    ensures PushAt("four", 0) == Some(4)
  {
    assert Window("four", 0) == "four";
    assert Window("four", 0)[..4] == "four";
  }

  lemma WordFourAt1()
    ensures PushAt("four", 1) == None
  {
    NoWordFrom("four", 1);
  }

  lemma WordFourAt2()
    ensures PushAt("four", 2) == None
  {
    NothingPushed("four", 2);
  }

  lemma WordFourAt3()
    ensures PushAt("four", 3) == None
  {
    NothingPushed("four", 3);
  }

  lemma WordFour()
    ensures TextNumbers("four") == [4]
  {
    WordFourAt0();
    assert Scan("four", 1) == [4];
    WordFourAt1();
    assert Scan("four", 2) == [4];
    WordFourAt2();
    assert Scan("four", 3) == [4];
    WordFourAt3();
    assert Scan("four", 4) == [4];
  }

  lemma WordFiveAt0()
    ensures PushAt("five", 0) == Some(5)
  {
    Differs(Window("five", 0), "four", 1);
    assert Window("five", 0) == "five";
    assert Window("five", 0)[..4] == "five";
  }

  lemma WordFiveAt1()
    ensures PushAt("five", 1) == None
  {
    NothingPushed("five", 1);
  }

  lemma WordFiveAt2()
    ensures PushAt("five", 2) == None
  {
    NothingPushed("five", 2);
  }

  lemma WordFiveAt3()
    ensures PushAt("five", 3) == None
  {
    NoWordFrom("five", 3);
  }

  lemma WordFive()
    ensures TextNumbers("five") == [5]
  {
    WordFiveAt0();
    assert Scan("five", 1) == [5];
    WordFiveAt1();
    assert Scan("five", 2) == [5];
    WordFiveAt2();
    assert Scan("five", 3) == [5];
    WordFiveAt3();
    assert Scan("five", 4) == [5];
  }

  lemma WordSixAt0()
    ensures PushAt("six", 0) == Some(6)
  {
    assert Window("six", 0) == "six";
    assert Window("six", 0)[..3] == "six";
  }

  lemma WordSixAt1()
    ensures PushAt("six", 1) == None
  {
    NothingPushed("six", 1);
  }

  lemma WordSixAt2()
    ensures PushAt("six", 2) == None
  {
    NothingPushed("six", 2);
  }

  lemma WordSix()
    ensures TextNumbers("six") == [6]
  {
    WordSixAt0();
    assert Scan("six", 1) == [6];
    WordSixAt1();
    assert Scan("six", 2) == [6];
    WordSixAt2();
    assert Scan("six", 3) == [6];
  }

  lemma WordSevenAt0()
    ensures PushAt("seven", 0) == Some(7)
  {
    Differs(Window("seven", 0), "six", 1);
    assert Window("seven", 0) == "seven";
    assert Window("seven", 0)[..5] == "seven";
  }

  lemma WordSevenAt1()
    ensures PushAt("seven", 1) == None
  {
    NoWordFrom("seven", 1);
  }

  lemma WordSevenAt2()
    ensures PushAt("seven", 2) == None
  {
    NothingPushed("seven", 2);
  }

  lemma WordSevenAt3()
    ensures PushAt("seven", 3) == None
  {
    NoWordFrom("seven", 3);
  }

  lemma WordSevenAt4()
    ensures PushAt("seven", 4) == None
  {
    NoWordFrom("seven", 4);
  }

  lemma WordSeven()
    ensures TextNumbers("seven") == [7]
  {
    WordSevenAt0();
    assert Scan("seven", 1) == [7];
    WordSevenAt1();
    assert Scan("seven", 2) == [7];
    WordSevenAt2();
    assert Scan("seven", 3) == [7];
    WordSevenAt3();
    assert Scan("seven", 4) == [7];
    WordSevenAt4();
    assert Scan("seven", 5) == [7];
  }

  lemma WordEightAt0()
    ensures PushAt("eight", 0) == Some(8)
  {
    assert Window("eight", 0) == "eight";
    assert Window("eight", 0)[..5] == "eight";
  }

  lemma WordEightAt1()
    ensures PushAt("eight", 1) == None
  {
    NothingPushed("eight", 1);
  }

  lemma WordEightAt2()
    ensures PushAt("eight", 2) == None
  {
    NothingPushed("eight", 2);
  }

  lemma WordEightAt3()
    ensures PushAt("eight", 3) == None
  {
    NothingPushed("eight", 3);
  }

  lemma WordEightAt4()
    ensures PushAt("eight", 4) == None
  {
    NoWordFrom("eight", 4);
  }

  lemma WordEight()
    ensures TextNumbers("eight") == [8]
  {
    WordEightAt0();
    assert Scan("eight", 1) == [8];
    WordEightAt1();
    assert Scan("eight", 2) == [8];
    WordEightAt2();
    assert Scan("eight", 3) == [8];
    WordEightAt3();
    assert Scan("eight", 4) == [8];
    WordEightAt4();
    assert Scan("eight", 5) == [8];
  }

  lemma WordNineAt0()
    ensures PushAt("nine", 0) == Some(9)
  {
    assert Window("nine", 0) == "nine";
    assert Window("nine", 0)[..4] == "nine";
  }

  lemma WordNineAt1()
    ensures PushAt("nine", 1) == None
  {
    NothingPushed("nine", 1);
  }

  lemma WordNineAt2()
    ensures PushAt("nine", 2) == None
  {
    NoWordFrom("nine", 2);
  }

  lemma WordNineAt3()
    ensures PushAt("nine", 3) == None
  {
    NoWordFrom("nine", 3);
  }

  lemma WordNine()
    ensures TextNumbers("nine") == [9]
  {
    WordNineAt0();
    assert Scan("nine", 1) == [9];
    WordNineAt1();
    assert Scan("nine", 2) == [9];
    WordNineAt2();
    assert Scan("nine", 3) == [9];
    WordNineAt3();
    assert Scan("nine", 4) == [9];
  }

  lemma SampleTwo1NineAt0()
    ensures PushAt("two1nine", 0) == Some(2)
  {
    assert Window("two1nine", 0) == "two1n";
    assert Window("two1nine", 0)[..3] == "two";
  }

  lemma SampleTwo1NineAt1()
    ensures PushAt("two1nine", 1) == None
  {
    NothingPushed("two1nine", 1);
  }

  lemma SampleTwo1NineAt2()
    ensures PushAt("two1nine", 2) == None
  {
    NoWordFrom("two1nine", 2);
  }

  lemma SampleTwo1NineAt3()
    ensures PushAt("two1nine", 3) == Some(1)
  {
    DigitPushed("two1nine", 3);
  }

  lemma SampleTwo1NineAt4()
    ensures PushAt("two1nine", 4) == Some(9)
  {
    assert Window("two1nine", 4) == "nine";
    assert Window("two1nine", 4)[..4] == "nine";
  }

  lemma SampleTwo1NineAt5()
    ensures PushAt("two1nine", 5) == None
  {
    NothingPushed("two1nine", 5);
  }

  lemma SampleTwo1NineAt6()
    ensures PushAt("two1nine", 6) == None
  {
    NoWordFrom("two1nine", 6);
  }

  lemma SampleTwo1NineAt7()
    ensures PushAt("two1nine", 7) == None
  {
    NoWordFrom("two1nine", 7);
  }

  lemma SampleTwo1Nine()
    ensures TextNumbers("two1nine") == [2, 1, 9]
  {
    SampleTwo1NineAt0();
    assert Scan("two1nine", 1) == [2];
    SampleTwo1NineAt1();
    assert Scan("two1nine", 2) == [2];
    SampleTwo1NineAt2();
    assert Scan("two1nine", 3) == [2];
    SampleTwo1NineAt3();
    assert Scan("two1nine", 4) == [2, 1];
    SampleTwo1NineAt4();
    assert Scan("two1nine", 5) == [2, 1, 9];
    SampleTwo1NineAt5();
    assert Scan("two1nine", 6) == [2, 1, 9];
    SampleTwo1NineAt6();
    assert Scan("two1nine", 7) == [2, 1, 9];
    SampleTwo1NineAt7();
    assert Scan("two1nine", 8) == [2, 1, 9];
  }

  lemma SampleEightwoThreeAt0()
    ensures PushAt("eightwothree", 0) == Some(8)
  {
    assert Window("eightwothree", 0) == "eight";
    assert Window("eightwothree", 0)[..5] == "eight";
  }

  lemma SampleEightwoThreeAt1()
    ensures PushAt("eightwothree", 1) == None
  {
    NothingPushed("eightwothree", 1);
  }

  lemma SampleEightwoThreeAt2()
    ensures PushAt("eightwothree", 2) == None
  {
    NothingPushed("eightwothree", 2);
  }

  lemma SampleEightwoThreeAt3()
    ensures PushAt("eightwothree", 3) == None
  {
    NothingPushed("eightwothree", 3);
  }

  lemma SampleEightwoThreeAt4()
    ensures PushAt("eightwothree", 4) == Some(2)
  {
    assert Window("eightwothree", 4) == "twoth";
    assert Window("eightwothree", 4)[..3] == "two";
  }

  lemma SampleEightwoThreeAt5()
    ensures PushAt("eightwothree", 5) == None
  {
    NothingPushed("eightwothree", 5);
  }

  lemma SampleEightwoThreeAt6()
    ensures PushAt("eightwothree", 6) == None
  {
    NoWordFrom("eightwothree", 6);
  }

  lemma SampleEightwoThreeAt7()
    ensures PushAt("eightwothree", 7) == Some(3)
  {
    Differs(Window("eightwothree", 7), "two", 1);
    assert Window("eightwothree", 7) == "three";
    assert Window("eightwothree", 7)[..5] == "three";
  }

  lemma SampleEightwoThreeAt8()
    ensures PushAt("eightwothree", 8) == None
  {
    NothingPushed("eightwothree", 8);
  }

  lemma SampleEightwoThreeAt9()
    ensures PushAt("eightwothree", 9) == None
  {
    NothingPushed("eightwothree", 9);
  }

  lemma SampleEightwoThreeAt10()
    ensures PushAt("eightwothree", 10) == None
  {
    NoWordFrom("eightwothree", 10);
  }

  lemma SampleEightwoThreeAt11()
    ensures PushAt("eightwothree", 11) == None
  {
    NoWordFrom("eightwothree", 11);
  }

  lemma SampleEightwoThree()
    ensures TextNumbers("eightwothree") == [8, 2, 3]
  {
    SampleEightwoThreeAt0();
    assert Scan("eightwothree", 1) == [8];
    SampleEightwoThreeAt1();
    assert Scan("eightwothree", 2) == [8];
    SampleEightwoThreeAt2();
    assert Scan("eightwothree", 3) == [8];
    SampleEightwoThreeAt3();
    assert Scan("eightwothree", 4) == [8];
    SampleEightwoThreeAt4();
    assert Scan("eightwothree", 5) == [8, 2];
    SampleEightwoThreeAt5();
    assert Scan("eightwothree", 6) == [8, 2];
    SampleEightwoThreeAt6();
    assert Scan("eightwothree", 7) == [8, 2];
    SampleEightwoThreeAt7();
    assert Scan("eightwothree", 8) == [8, 2, 3];
    SampleEightwoThreeAt8();
    assert Scan("eightwothree", 9) == [8, 2, 3];
    SampleEightwoThreeAt9();
    assert Scan("eightwothree", 10) == [8, 2, 3];
    SampleEightwoThreeAt10();
    assert Scan("eightwothree", 11) == [8, 2, 3];
    SampleEightwoThreeAt11();
    assert Scan("eightwothree", 12) == [8, 2, 3];
  }

  lemma SampleAbcOne2At0()
    ensures PushAt("abcone2threexyz", 0) == None
  {
    NothingPushed("abcone2threexyz", 0);
  }

  lemma SampleAbcOne2At1()
    ensures PushAt("abcone2threexyz", 1) == None
  {
    NothingPushed("abcone2threexyz", 1);
  }

  lemma SampleAbcOne2At2()
    ensures PushAt("abcone2threexyz", 2) == None
  {
    NothingPushed("abcone2threexyz", 2);
  }

  lemma SampleAbcOne2At3()
    ensures PushAt("abcone2threexyz", 3) == Some(1)
  {
    assert Window("abcone2threexyz", 3) == "one2t";
    assert Window("abcone2threexyz", 3)[..3] == "one";
  }

  lemma SampleAbcOne2At4()
    ensures PushAt("abcone2threexyz", 4) == None
  {
    NoWordFrom("abcone2threexyz", 4);
  }

  lemma SampleAbcOne2At5()
    ensures PushAt("abcone2threexyz", 5) == None
  {
    NoWordFrom("abcone2threexyz", 5);
  }

  lemma SampleAbcOne2At6()
    ensures PushAt("abcone2threexyz", 6) == Some(2)
  {
    DigitPushed("abcone2threexyz", 6);
  }

  lemma SampleAbcOne2At7()
    ensures PushAt("abcone2threexyz", 7) == Some(3)
  {
    Differs(Window("abcone2threexyz", 7), "two", 1);
    assert Window("abcone2threexyz", 7) == "three";
    assert Window("abcone2threexyz", 7)[..5] == "three";
  }

  lemma SampleAbcOne2At8()
    ensures PushAt("abcone2threexyz", 8) == None
  {
    NothingPushed("abcone2threexyz", 8);
  }

  lemma SampleAbcOne2At9()
    ensures PushAt("abcone2threexyz", 9) == None
  {
    NothingPushed("abcone2threexyz", 9);
  }

  lemma SampleAbcOne2At10()
    ensures PushAt("abcone2threexyz", 10) == None
  {
    NoWordFrom("abcone2threexyz", 10);
  }

  lemma SampleAbcOne2At11()
    ensures PushAt("abcone2threexyz", 11) == None
  {
    NoWordFrom("abcone2threexyz", 11);
  }

  lemma SampleAbcOne2At12()
    ensures PushAt("abcone2threexyz", 12) == None
  {
    NothingPushed("abcone2threexyz", 12);
  }

  lemma SampleAbcOne2At13()
    ensures PushAt("abcone2threexyz", 13) == None
  {
    NothingPushed("abcone2threexyz", 13);
  }

  lemma SampleAbcOne2At14()
    ensures PushAt("abcone2threexyz", 14) == None
  {
    NothingPushed("abcone2threexyz", 14);
  }

  lemma SampleAbcOne2()
    ensures TextNumbers("abcone2threexyz") == [1, 2, 3]
  {
    SampleAbcOne2At0();
    assert Scan("abcone2threexyz", 1) == [];
    SampleAbcOne2At1();
    assert Scan("abcone2threexyz", 2) == [];
    SampleAbcOne2At2();
    assert Scan("abcone2threexyz", 3) == [];
    SampleAbcOne2At3();
    assert Scan("abcone2threexyz", 4) == [1];
    SampleAbcOne2At4();
    assert Scan("abcone2threexyz", 5) == [1];
    SampleAbcOne2At5();
    assert Scan("abcone2threexyz", 6) == [1];
    SampleAbcOne2At6();
    assert Scan("abcone2threexyz", 7) == [1, 2];
    SampleAbcOne2At7();
    assert Scan("abcone2threexyz", 8) == [1, 2, 3];
    SampleAbcOne2At8();
    assert Scan("abcone2threexyz", 9) == [1, 2, 3];
    SampleAbcOne2At9();
    assert Scan("abcone2threexyz", 10) == [1, 2, 3];
    SampleAbcOne2At10();
    assert Scan("abcone2threexyz", 11) == [1, 2, 3];
    SampleAbcOne2At11();
    assert Scan("abcone2threexyz", 12) == [1, 2, 3];
    SampleAbcOne2At12();
    assert Scan("abcone2threexyz", 13) == [1, 2, 3];
    SampleAbcOne2At13();
    assert Scan("abcone2threexyz", 14) == [1, 2, 3];
    SampleAbcOne2At14();
    assert Scan("abcone2threexyz", 15) == [1, 2, 3];
  }

  lemma SampleXtwone3At0()
    ensures PushAt("xtwone3four", 0) == None
  {
    NothingPushed("xtwone3four", 0);
  }

  lemma SampleXtwone3At1()
    ensures PushAt("xtwone3four", 1) == Some(2)
  {
    assert Window("xtwone3four", 1) == "twone";
    assert Window("xtwone3four", 1)[..3] == "two";
  }

  lemma SampleXtwone3At2()
    ensures PushAt("xtwone3four", 2) == None
  {
    NothingPushed("xtwone3four", 2);
  }

  lemma SampleXtwone3At3()
    ensures PushAt("xtwone3four", 3) == Some(1)
  {
    assert Window("xtwone3four", 3) == "one3f";
    assert Window("xtwone3four", 3)[..3] == "one";
  }

  lemma SampleXtwone3At4()
    ensures PushAt("xtwone3four", 4) == None
  {
    NoWordFrom("xtwone3four", 4);
  }

  lemma SampleXtwone3At5()
    ensures PushAt("xtwone3four", 5) == None
  {
    NoWordFrom("xtwone3four", 5);
  }

  lemma SampleXtwone3At6()
    ensures PushAt("xtwone3four", 6) == Some(3)
  {
    DigitPushed("xtwone3four", 6);
  }

  lemma SampleXtwone3At7()
    ensures PushAt("xtwone3four", 7) == Some(4)
  {
    assert Window("xtwone3four", 7) == "four";
    assert Window("xtwone3four", 7)[..4] == "four";
  }

  lemma SampleXtwone3At8()
    ensures PushAt("xtwone3four", 8) == None
  {
    NoWordFrom("xtwone3four", 8);
  }

  lemma SampleXtwone3At9()
    ensures PushAt("xtwone3four", 9) == None
  {
    NothingPushed("xtwone3four", 9);
  }

  lemma SampleXtwone3At10()
    ensures PushAt("xtwone3four", 10) == None
  {
    NothingPushed("xtwone3four", 10);
  }

  lemma SampleXtwone3()
    ensures TextNumbers("xtwone3four") == [2, 1, 3, 4]
  {
    SampleXtwone3At0();
    assert Scan("xtwone3four", 1) == [];
    SampleXtwone3At1();
    assert Scan("xtwone3four", 2) == [2];
    SampleXtwone3At2();
    assert Scan("xtwone3four", 3) == [2];
    SampleXtwone3At3();
    assert Scan("xtwone3four", 4) == [2, 1];
    SampleXtwone3At4();
    assert Scan("xtwone3four", 5) == [2, 1];
    SampleXtwone3At5();
    assert Scan("xtwone3four", 6) == [2, 1];
    SampleXtwone3At6();
    assert Scan("xtwone3four", 7) == [2, 1, 3];
    SampleXtwone3At7();
    assert Scan("xtwone3four", 8) == [2, 1, 3, 4];
    SampleXtwone3At8();
    assert Scan("xtwone3four", 9) == [2, 1, 3, 4];
    SampleXtwone3At9();
    assert Scan("xtwone3four", 10) == [2, 1, 3, 4];
    SampleXtwone3At10();
    assert Scan("xtwone3four", 11) == [2, 1, 3, 4];
  }

  lemma Sample4NineEightAt0()
    ensures PushAt("4nineeightseven2", 0) == Some(4)
  {
    DigitPushed("4nineeightseven2", 0);
  }

  lemma Sample4NineEightAt1()
    ensures PushAt("4nineeightseven2", 1) == Some(9)
  {
    assert Window("4nineeightseven2", 1) == "ninee";
    assert Window("4nineeightseven2", 1)[..4] == "nine";
  }

  lemma Sample4NineEightAt2()
    ensures PushAt("4nineeightseven2", 2) == None
  {
    NothingPushed("4nineeightseven2", 2);
  }

  lemma Sample4NineEightAt3()
    ensures PushAt("4nineeightseven2", 3) == None
  {
    NoWordFrom("4nineeightseven2", 3);
  }

  lemma Sample4NineEightAt4()
    ensures PushAt("4nineeightseven2", 4) == None
  {
    NoWordFrom("4nineeightseven2", 4);
  }

  lemma Sample4NineEightAt5()
    ensures PushAt("4nineeightseven2", 5) == Some(8)
  {
    assert Window("4nineeightseven2", 5) == "eight";
    assert Window("4nineeightseven2", 5)[..5] == "eight";
  }

  lemma Sample4NineEightAt6()
    ensures PushAt("4nineeightseven2", 6) == None
  {
    NothingPushed("4nineeightseven2", 6);
  }

  lemma Sample4NineEightAt7()
    ensures PushAt("4nineeightseven2", 7) == None
  {
    NothingPushed("4nineeightseven2", 7);
  }

  lemma Sample4NineEightAt8()
    ensures PushAt("4nineeightseven2", 8) == None
  {
    NothingPushed("4nineeightseven2", 8);
  }

  lemma Sample4NineEightAt9()
    ensures PushAt("4nineeightseven2", 9) == None
  {
    NoWordFrom("4nineeightseven2", 9);
  }

  lemma Sample4NineEightAt10()
    ensures PushAt("4nineeightseven2", 10) == Some(7)
  {
    Differs(Window("4nineeightseven2", 10), "six", 1);
    assert Window("4nineeightseven2", 10) == "seven";
    assert Window("4nineeightseven2", 10)[..5] == "seven";
  }

  lemma Sample4NineEightAt11()
    ensures PushAt("4nineeightseven2", 11) == None
  {
    NoWordFrom("4nineeightseven2", 11);
  }

  lemma Sample4NineEightAt12()
    ensures PushAt("4nineeightseven2", 12) == None
  {
    NothingPushed("4nineeightseven2", 12);
  }

  lemma Sample4NineEightAt13()
    ensures PushAt("4nineeightseven2", 13) == None
  {
    NoWordFrom("4nineeightseven2", 13);
  }

  lemma Sample4NineEightAt14()
    ensures PushAt("4nineeightseven2", 14) == None
  {
    NoWordFrom("4nineeightseven2", 14);
  }

  lemma Sample4NineEightAt15()
    ensures PushAt("4nineeightseven2", 15) == Some(2)
  {
    DigitPushed("4nineeightseven2", 15);
  }

  lemma Sample4NineEight()
    ensures TextNumbers("4nineeightseven2") == [4, 9, 8, 7, 2]
  {
    Sample4NineEightAt0();
    assert Scan("4nineeightseven2", 1) == [4];
    Sample4NineEightAt1();
    assert Scan("4nineeightseven2", 2) == [4, 9];
    Sample4NineEightAt2();
    assert Scan("4nineeightseven2", 3) == [4, 9];
    Sample4NineEightAt3();
    assert Scan("4nineeightseven2", 4) == [4, 9];
    Sample4NineEightAt4();
    assert Scan("4nineeightseven2", 5) == [4, 9];
    Sample4NineEightAt5();
    assert Scan("4nineeightseven2", 6) == [4, 9, 8];
    Sample4NineEightAt6();
    assert Scan("4nineeightseven2", 7) == [4, 9, 8];
    Sample4NineEightAt7();
    assert Scan("4nineeightseven2", 8) == [4, 9, 8];
    Sample4NineEightAt8();
    assert Scan("4nineeightseven2", 9) == [4, 9, 8];
    Sample4NineEightAt9();
    assert Scan("4nineeightseven2", 10) == [4, 9, 8];
    Sample4NineEightAt10();
    assert Scan("4nineeightseven2", 11) == [4, 9, 8, 7];
    Sample4NineEightAt11();
    assert Scan("4nineeightseven2", 12) == [4, 9, 8, 7];
    Sample4NineEightAt12();
    assert Scan("4nineeightseven2", 13) == [4, 9, 8, 7];
    Sample4NineEightAt13();
    assert Scan("4nineeightseven2", 14) == [4, 9, 8, 7];
    Sample4NineEightAt14();
    assert Scan("4nineeightseven2", 15) == [4, 9, 8, 7];
    Sample4NineEightAt15();
    assert Scan("4nineeightseven2", 16) == [4, 9, 8, 7, 2];
  }

  lemma SampleZoneightAt0()
    ensures PushAt("zoneight234", 0) == None
  {
    NothingPushed("zoneight234", 0);
  }

  lemma SampleZoneightAt1()
    ensures PushAt("zoneight234", 1) == Some(1)
  {
    assert Window("zoneight234", 1) == "oneig";
    assert Window("zoneight234", 1)[..3] == "one";
  }

  lemma SampleZoneightAt2()
    ensures PushAt("zoneight234", 2) == None
  {
    NoWordFrom("zoneight234", 2);
  }

  lemma SampleZoneightAt3()
    ensures PushAt("zoneight234", 3) == Some(8)
  {
    assert Window("zoneight234", 3) == "eight";
    assert Window("zoneight234", 3)[..5] == "eight";
  }

  lemma SampleZoneightAt4()
    ensures PushAt("zoneight234", 4) == None
  {
    NothingPushed("zoneight234", 4);
  }

  lemma SampleZoneightAt5()
    ensures PushAt("zoneight234", 5) == None
  {
    NothingPushed("zoneight234", 5);
  }

  lemma SampleZoneightAt6()
    ensures PushAt("zoneight234", 6) == None
  {
    NothingPushed("zoneight234", 6);
  }

  lemma SampleZoneightAt7()
    ensures PushAt("zoneight234", 7) == None
  {
    NoWordFrom("zoneight234", 7);
  }

  lemma SampleZoneightAt8()
    ensures PushAt("zoneight234", 8) == Some(2)
  {
    DigitPushed("zoneight234", 8);
  }

  lemma SampleZoneightAt9()
    ensures PushAt("zoneight234", 9) == Some(3)
  {
    DigitPushed("zoneight234", 9);
  }

  lemma SampleZoneightAt10()
    ensures PushAt("zoneight234", 10) == Some(4)
  {
    DigitPushed("zoneight234", 10);
  }

  lemma SampleZoneight()
    ensures TextNumbers("zoneight234") == [1, 8, 2, 3, 4]
  {
    SampleZoneightAt0();
    assert Scan("zoneight234", 1) == [];
    SampleZoneightAt1();
    assert Scan("zoneight234", 2) == [1];
    SampleZoneightAt2();
    assert Scan("zoneight234", 3) == [1];
    SampleZoneightAt3();
    assert Scan("zoneight234", 4) == [1, 8];
    SampleZoneightAt4();
    assert Scan("zoneight234", 5) == [1, 8];
    SampleZoneightAt5();
    assert Scan("zoneight234", 6) == [1, 8];
    SampleZoneightAt6();
    assert Scan("zoneight234", 7) == [1, 8];
    SampleZoneightAt7();
    assert Scan("zoneight234", 8) == [1, 8];
    SampleZoneightAt8();
    assert Scan("zoneight234", 9) == [1, 8, 2];
    SampleZoneightAt9();
    assert Scan("zoneight234", 10) == [1, 8, 2, 3];
    SampleZoneightAt10();
    assert Scan("zoneight234", 11) == [1, 8, 2, 3, 4];
  }

  lemma Sample7PqrAt0()
    ensures PushAt("7pqrstsixteen", 0) == Some(7)
  {
    DigitPushed("7pqrstsixteen", 0);
  }

  lemma Sample7PqrAt1()
    ensures PushAt("7pqrstsixteen", 1) == None
  {
    NothingPushed("7pqrstsixteen", 1);
  }

  lemma Sample7PqrAt2()
    ensures PushAt("7pqrstsixteen", 2) == None
  {
    NothingPushed("7pqrstsixteen", 2);
  }

  lemma Sample7PqrAt3()
    ensures PushAt("7pqrstsixteen", 3) == None
  {
    NothingPushed("7pqrstsixteen", 3);
  }

  lemma Sample7PqrAt4()
    ensures PushAt("7pqrstsixteen", 4) == None
  {
    NoWordFrom("7pqrstsixteen", 4);
  }

  lemma Sample7PqrAt5()
    ensures PushAt("7pqrstsixteen", 5) == None
  {
    NoWordFrom("7pqrstsixteen", 5);
  }

  lemma Sample7PqrAt6()
    ensures PushAt("7pqrstsixteen", 6) == Some(6)
  {
    assert Window("7pqrstsixteen", 6) == "sixte";
    assert Window("7pqrstsixteen", 6)[..3] == "six";
  }

  lemma Sample7PqrAt7()
    ensures PushAt("7pqrstsixteen", 7) == None
  {
    NothingPushed("7pqrstsixteen", 7);
  }

  lemma Sample7PqrAt8()
    ensures PushAt("7pqrstsixteen", 8) == None
  {
    NothingPushed("7pqrstsixteen", 8);
  }

  lemma Sample7PqrAt9()
    ensures PushAt("7pqrstsixteen", 9) == None
  {
    NoWordFrom("7pqrstsixteen", 9);
  }

  lemma Sample7PqrAt10()
    ensures PushAt("7pqrstsixteen", 10) == None
  {
    NoWordFrom("7pqrstsixteen", 10);
  }

  lemma Sample7PqrAt11()
    ensures PushAt("7pqrstsixteen", 11) == None
  {
    NoWordFrom("7pqrstsixteen", 11);
  }

  lemma Sample7PqrAt12()
    ensures PushAt("7pqrstsixteen", 12) == None
  {
    NoWordFrom("7pqrstsixteen", 12);
  }

  lemma Sample7Pqr()
    ensures TextNumbers("7pqrstsixteen") == [7, 6]
  {
    Sample7PqrAt0();
    assert Scan("7pqrstsixteen", 1) == [7];
    Sample7PqrAt1();
    assert Scan("7pqrstsixteen", 2) == [7];
    Sample7PqrAt2();
    assert Scan("7pqrstsixteen", 3) == [7];
    Sample7PqrAt3();
    assert Scan("7pqrstsixteen", 4) == [7];
    Sample7PqrAt4();
    assert Scan("7pqrstsixteen", 5) == [7];
    Sample7PqrAt5();
    assert Scan("7pqrstsixteen", 6) == [7];
    Sample7PqrAt6();
    assert Scan("7pqrstsixteen", 7) == [7, 6];
    Sample7PqrAt7();
    assert Scan("7pqrstsixteen", 8) == [7, 6];
    Sample7PqrAt8();
    assert Scan("7pqrstsixteen", 9) == [7, 6];
    Sample7PqrAt9();
    assert Scan("7pqrstsixteen", 10) == [7, 6];
    Sample7PqrAt10();
    assert Scan("7pqrstsixteen", 11) == [7, 6];
    Sample7PqrAt11();
    assert Scan("7pqrstsixteen", 12) == [7, 6];
    Sample7PqrAt12();
    assert Scan("7pqrstsixteen", 13) == [7, 6];
  }

  const PartOneSample: seq<string> := ["1abc2", "pqr3stu8vwx", "a1b2c3d4e5f", "treb7uchet"]

  const PartTwoSample: seq<string> := [
    "two1nine", "eightwothree", "abcone2threexyz", "xtwone3four", "4nineeightseven2", "zoneight234", "7pqrstsixteen"]

  lemma BelowTwelve(i: int)
    requires 0 <= i < 12
    ensures i == 0 || i == 1 || i == 2 || i == 3 || i == 4 || i == 5 || i == 6 || i == 7 || i == 8 || i == 9 || i == 10 || i == 11
  {
  }

  /** The digits of a line, read off its digit positions. */
  lemma Extracted(line: string, ps: seq<nat>, ds: seq<nat>)
    requires DigitPositions(line, ps) && |ds| == |ps|
    requires forall j :: 0 <= j < |ps| ==> ds[j] == DigitValue(line[ps[j]])
    ensures ExtractNumbers(line) == ds
  {
    ExtractAtPositions(line, ps);
  }

  lemma OneAbc2Positions()
    ensures DigitPositions("1abc2", [0, 4])
  {
    var s := "1abc2";
    forall i | 0 <= i < |s| && IsDigit(s[i])
      ensures i in [0, 4]
    {
      BelowTwelve(i);
    }
  }

  lemma SampleOneAbc2()
    ensures ExtractNumbers("1abc2") == [1, 2]
  {
    OneAbc2Positions();
    Extracted("1abc2", [0, 4], [1, 2]);
  }

  lemma Pqr3Positions()
    ensures DigitPositions("pqr3stu8vwx", [3, 7])
  {
    var s := "pqr3stu8vwx";
    forall i | 0 <= i < |s| && IsDigit(s[i])
      ensures i in [3, 7]
    {
      BelowTwelve(i);
    }
  }

  lemma SamplePqr3()
    ensures ExtractNumbers("pqr3stu8vwx") == [3, 8]
  {
    Pqr3Positions();
    Extracted("pqr3stu8vwx", [3, 7], [3, 8]);
  }

  lemma A1b2Positions()
    ensures DigitPositions("a1b2c3d4e5f", [1, 3, 5, 7, 9])
  {
    var s := "a1b2c3d4e5f";
    forall i | 0 <= i < |s| && IsDigit(s[i])
      ensures i in [1, 3, 5, 7, 9]
    {
      BelowTwelve(i);
    }
  }

  lemma SampleA1b2()
    ensures ExtractNumbers("a1b2c3d4e5f") == [1, 2, 3, 4, 5]
  {
    A1b2Positions();
    Extracted("a1b2c3d4e5f", [1, 3, 5, 7, 9], [1, 2, 3, 4, 5]);
  }

  lemma Treb7Positions()
    ensures DigitPositions("treb7uchet", [4])
  {
    var s := "treb7uchet";
    forall i | 0 <= i < |s| && IsDigit(s[i])
      ensures i in [4]
    {
      BelowTwelve(i);
    }
  }

  lemma SampleTreb7()
    ensures ExtractNumbers("treb7uchet") == [7]
  {
    Treb7Positions();
    Extracted("treb7uchet", [4], [7]);
  }

  lemma PartOneDigits()
    ensures ExtractAll(PartOneSample, ExtractNumbers) == [[1, 2], [3, 8], [1, 2, 3, 4, 5], [7]]
  {
    SampleOneAbc2();
    SamplePqr3();
    SampleA1b2();
    SampleTreb7();
  }

  /** The part 1 sample lines are worth 12, 38, 15 and 77: 142 in all. */
  lemma PartOneSampleTotal()
    ensures AllFound(ExtractAll(PartOneSample, ExtractNumbers))
    ensures CalibrationSum(ExtractAll(PartOneSample, ExtractNumbers)) == 142
  {
    PartOneDigits();
    FourValues(ExtractAll(PartOneSample, ExtractNumbers));
  }

  lemma FourValues(v: seq<seq<nat>>)
    requires v == [[1, 2], [3, 8], [1, 2, 3, 4, 5], [7]]
    ensures AllFound(v) && CalibrationSum(v) == 142
  {
    assert AllFound(v);
    assert v[..1][..0] == v[..0];
    assert CalibrationSum(v[..1]) == 12;
    assert v[..2][..1] == v[..1];
    assert CalibrationSum(v[..2]) == 50;
    assert v[..3][..2] == v[..2];
    assert CalibrationSum(v[..3]) == 65;
    assert v[..4][..3] == v[..3];
    assert CalibrationSum(v[..4]) == 142;
    assert v[..4] == v;
  }

  lemma PartTwoDigits()
    ensures ExtractAll(PartTwoSample, TextNumbers) ==
      [[2, 1, 9], [8, 2, 3], [1, 2, 3], [2, 1, 3, 4], [4, 9, 8, 7, 2], [1, 8, 2, 3, 4], [7, 6]]
  {
    SampleTwo1Nine();
    SampleEightwoThree();
    SampleAbcOne2();
    SampleXtwone3();
    Sample4NineEight();
    SampleZoneight();
    Sample7Pqr();
    SevenLines(PartTwoSample, TextNumbers);
  }

  lemma SevenLines(lines: seq<string>, extract: string -> seq<nat>)
    requires |lines| == 7
    requires extract(lines[0]) == [2, 1, 9] && extract(lines[1]) == [8, 2, 3] && extract(lines[2]) == [1, 2, 3]
    requires extract(lines[3]) == [2, 1, 3, 4] && extract(lines[4]) == [4, 9, 8, 7, 2]
    requires extract(lines[5]) == [1, 8, 2, 3, 4] && extract(lines[6]) == [7, 6]
    ensures ExtractAll(lines, extract) ==
      [[2, 1, 9], [8, 2, 3], [1, 2, 3], [2, 1, 3, 4], [4, 9, 8, 7, 2], [1, 8, 2, 3, 4], [7, 6]]
  {
  }

  /** The part 2 sample lines are worth 29, 83, 13, 24, 42, 14 and 76: 281
      in all. */
  lemma PartTwoSampleTotal()
    ensures AllFound(ExtractAll(PartTwoSample, TextNumbers))
    ensures CalibrationSum(ExtractAll(PartTwoSample, TextNumbers)) == 281
  {
    PartTwoDigits();
    SevenValues(ExtractAll(PartTwoSample, TextNumbers));
  }

  lemma SevenValues(v: seq<seq<nat>>)
    requires v == [[2, 1, 9], [8, 2, 3], [1, 2, 3], [2, 1, 3, 4], [4, 9, 8, 7, 2], [1, 8, 2, 3, 4], [7, 6]]
    ensures AllFound(v) && CalibrationSum(v) == 281
  {
    assert AllFound(v);
    assert v[..1][..0] == v[..0];
    assert CalibrationSum(v[..1]) == 29;
    assert v[..2][..1] == v[..1];
    assert CalibrationSum(v[..2]) == 112;
    assert v[..3][..2] == v[..2];
    assert CalibrationSum(v[..3]) == 125;
    assert v[..4][..3] == v[..3];
    assert CalibrationSum(v[..4]) == 149;
    assert v[..5][..4] == v[..4];
    assert CalibrationSum(v[..5]) == 191;
    assert v[..6][..5] == v[..5];
    assert CalibrationSum(v[..6]) == 205;
    assert v[..7][..6] == v[..6];
    assert CalibrationSum(v[..7]) == 281;
    assert v[..7] == v;
  }

  /** Non-empty lines without a newline come back from their text. */
  lemma LinesKept(lines: seq<string>)
    requires forall i :: 0 <= i < |lines| ==> lines[i] != [] && '\n' !in lines[i]
    ensures NonEmptyLines(JoinLines(lines)) == lines
  {
    LinesRoundTrip(lines);
    DropEmptyKeeps(lines);
  }

  /** The part 1 sample glued with newlines splits back into its lines. */
  lemma PartOneLinesKept()
    ensures NonEmptyLines(JoinLines(PartOneSample)) == PartOneSample
  {
    var one := PartOneSample;
    assert one[0] != [] && '\n' !in one[0] && one[1] != [] && '\n' !in one[1];
    assert one[2] != [] && '\n' !in one[2] && one[3] != [] && '\n' !in one[3];
    LinesKept(one);
  }

  /** The part 2 sample glued with newlines splits back into its lines. */
  lemma PartTwoLinesKept()
    ensures NonEmptyLines(JoinLines(PartTwoSample)) == PartTwoSample
  {
    var two := PartTwoSample;
    assert two[0] != [] && '\n' !in two[0] && two[1] != [] && '\n' !in two[1];
    assert two[2] != [] && '\n' !in two[2] && two[3] != [] && '\n' !in two[3];
    assert two[4] != [] && '\n' !in two[4] && two[5] != [] && '\n' !in two[5];
    assert two[6] != [] && '\n' !in two[6];
    LinesKept(two);
  }

  /** Lines that come back from their text carry their total over to it. */
  lemma TextTotal(lines: seq<string>, extract: string -> seq<nat>, total: nat)
    requires NonEmptyLines(JoinLines(lines)) == lines
    requires AllFound(ExtractAll(lines, extract)) && CalibrationSum(ExtractAll(lines, extract)) == total
    ensures Calibrated(JoinLines(lines), extract)
    ensures CalibrationSum(ExtractAll(NonEmptyLines(JoinLines(lines)), extract)) == total
  {
    var v := ExtractAll(lines, extract);
    assert forall i :: 0 <= i < |lines| ==> |extract(lines[i])| > 0 by {
      assert AllFound(v);
    }
  }

  /** The part 1 sample written as a text, one line per row, is one that
      `part_1` accepts, and its answer is 142, as `part_1_test` expects. */
  lemma PartOneText()
    ensures Calibrated(JoinLines(PartOneSample), ExtractNumbers)
    ensures CalibrationSum(ExtractAll(NonEmptyLines(JoinLines(PartOneSample)), ExtractNumbers)) == 142
  {
    PartOneLinesKept();
    PartOneSampleTotal();
    TextTotal(PartOneSample, ExtractNumbers, 142);
  }

  /** The part 2 sample as a text is ASCII, as `part_2` needs. */
  lemma PartTwoAscii()
    ensures Ascii(JoinLines(PartTwoSample))
  {
    PartTwoLinesAscii();
    AsciiLines(PartTwoSample);
  }

  lemma PartTwoLinesAscii()
    ensures forall i :: 0 <= i < |PartTwoSample| ==> Ascii(PartTwoSample[i])
  {
    FirstAscii();
    LastAscii();
  }

  lemma FirstAscii()
    ensures Ascii("two1nine") && Ascii("eightwothree") && Ascii("abcone2threexyz") && Ascii("xtwone3four")
  {
  }

  lemma LastAscii()
    ensures Ascii("4nineeightseven2") && Ascii("zoneight234") && Ascii("7pqrstsixteen")
  {
  }

  /** The part 2 sample as a text meets `part_2`'s needs, and its answer is
      281, as `part_2_test` expects. */
  lemma PartTwoText()
    ensures Ascii(JoinLines(PartTwoSample))
    ensures Calibrated(JoinLines(PartTwoSample), TextNumbers)
    ensures CalibrationSum(ExtractAll(NonEmptyLines(JoinLines(PartTwoSample)), TextNumbers)) == 281
  {
    PartTwoAscii();
    PartTwoLinesKept();
    PartTwoSampleTotal();
    TextTotal(PartTwoSample, TextNumbers, 281);
  }

  lemma EmptyLine()
    ensures TextNumbers("") == []
    ensures ExtractNumbers("") == []
  {
  }

  /** Each word alone yields just its digit. */
  lemma WordAlone(j: nat)
    requires j < |Words|
    ensures TextNumbers(Words[j].0) == [Words[j].1]
  {
    if j == 0 { WordOne(); }
    else if j == 1 { WordTwo(); }
    else if j == 2 { WordThree(); }
    else if j == 3 { WordFour(); }
    else if j == 4 { WordFive(); }
    else if j == 5 { WordSix(); }
    else if j == 6 { WordSeven(); }
    else if j == 7 { WordEight(); }
    else { WordNine(); }
  }
}
