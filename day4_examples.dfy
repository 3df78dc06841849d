/** The puzzle's six sample cards, scored by both parts, and short lines
    that show how the reader treats `|` and zeros. */
module Day4Examples {
  import opened Text
  import opened Day4

  const Winning1: seq<nat> := [41, 48, 83, 86, 17]
  const Numbers1: seq<nat> := [83, 86, 6, 31, 17, 9, 48, 53]
  const Winning2: seq<nat> := [13, 32, 20, 16, 61]
  const Numbers2: seq<nat> := [61, 30, 68, 82, 17, 32, 24, 19]
  const Winning3: seq<nat> := [1, 21, 53, 59, 44]
  const Numbers3: seq<nat> := [69, 82, 63, 72, 16, 21, 14, 1]
  const Winning4: seq<nat> := [41, 92, 73, 84, 69]
  const Numbers4: seq<nat> := [59, 84, 76, 51, 58, 5, 54, 83]
  const Winning5: seq<nat> := [87, 83, 26, 28, 32]
  const Numbers5: seq<nat> := [88, 30, 70, 12, 93, 22, 82, 36]
  const Winning6: seq<nat> := [31, 18, 13, 56, 72]
  const Numbers6: seq<nat> := [74, 77, 10, 23, 35, 67, 36, 11]

  const SampleCards: seq<Card> := [
    Card(Winning1, Numbers1),
    Card(Winning2, Numbers2),
    Card(Winning3, Numbers3),
    Card(Winning4, Numbers4),
    Card(Winning5, Numbers5),
    Card(Winning6, Numbers6)]

  lemma SampleTail1()
    ensures Matches(Winning1, Numbers1[4..]) == 2
  {
    var w := Winning1;
    var n := Numbers1;
    assert Matches(w, n[8..]) == 0;
    assert n[7] !in w;
    assert n[7..][1..] == n[8..];
    assert Matches(w, n[7..]) == 0;
    assert n[6] in w;
    assert n[6..][1..] == n[7..];
    assert Matches(w, n[6..]) == 1;
    assert n[5] !in w;
    assert n[5..][1..] == n[6..];
    assert Matches(w, n[5..]) == 1;
    assert n[4] in w;
    assert n[4..][1..] == n[5..];
    assert Matches(w, n[4..]) == 2;
  }

  lemma SampleMatches1()
    ensures CardMatches(SampleCards[0]) == 4
  {
    var w := Winning1;
    var n := Numbers1;
    SampleTail1();
    assert n[3] !in w;
    assert n[3..][1..] == n[4..];
    assert Matches(w, n[3..]) == 2;
    assert n[2] !in w;
    assert n[2..][1..] == n[3..];
    assert Matches(w, n[2..]) == 2;
    assert n[1] in w;
    assert n[1..][1..] == n[2..];
    assert Matches(w, n[1..]) == 3;
    assert n[0] in w;
    assert n[0..][1..] == n[1..];
    assert Matches(w, n[0..]) == 4;
    assert n[0..] == n;
  }

  lemma SampleTail2()
    ensures Matches(Winning2, Numbers2[4..]) == 1
  {
    var w := Winning2;
    var n := Numbers2;
    assert Matches(w, n[8..]) == 0;
    assert n[7] !in w;
    assert n[7..][1..] == n[8..];
    assert Matches(w, n[7..]) == 0;
    assert n[6] !in w;
    assert n[6..][1..] == n[7..];
    assert Matches(w, n[6..]) == 0;
    assert n[5] in w;
    assert n[5..][1..] == n[6..];
    assert Matches(w, n[5..]) == 1;
    assert n[4] !in w;
    assert n[4..][1..] == n[5..];
    assert Matches(w, n[4..]) == 1;
  }

  lemma SampleMatches2()
    ensures CardMatches(SampleCards[1]) == 2
  {
    var w := Winning2;
    var n := Numbers2;
    SampleTail2();
    assert n[3] !in w;
    assert n[3..][1..] == n[4..];
    assert Matches(w, n[3..]) == 1;
    assert n[2] !in w;
    assert n[2..][1..] == n[3..];
    assert Matches(w, n[2..]) == 1;
    assert n[1] !in w;
    assert n[1..][1..] == n[2..];
    assert Matches(w, n[1..]) == 1;
    assert n[0] in w;
    assert n[0..][1..] == n[1..];
    assert Matches(w, n[0..]) == 2;
    assert n[0..] == n;
  }

  lemma SampleTail3()
    ensures Matches(Winning3, Numbers3[4..]) == 2
  {
    var w := Winning3;
    var n := Numbers3;
    assert Matches(w, n[8..]) == 0;
    assert n[7] in w;
    assert n[7..][1..] == n[8..];
    assert Matches(w, n[7..]) == 1;
    assert n[6] !in w;
    assert n[6..][1..] == n[7..];
    assert Matches(w, n[6..]) == 1;
    assert n[5] in w;
    assert n[5..][1..] == n[6..];
    assert Matches(w, n[5..]) == 2;
    assert n[4] !in w;
    assert n[4..][1..] == n[5..];
    assert Matches(w, n[4..]) == 2;
  }

  lemma SampleMatches3()
    ensures CardMatches(SampleCards[2]) == 2
  {
    var w := Winning3;
    var n := Numbers3;
    SampleTail3();
    assert n[3] !in w;
    assert n[3..][1..] == n[4..];
    assert Matches(w, n[3..]) == 2;
    assert n[2] !in w;
    assert n[2..][1..] == n[3..];
    assert Matches(w, n[2..]) == 2;
    assert n[1] !in w;
    assert n[1..][1..] == n[2..];
    assert Matches(w, n[1..]) == 2;
    assert n[0] !in w;
    assert n[0..][1..] == n[1..];
    assert Matches(w, n[0..]) == 2;
    assert n[0..] == n;
  }

  lemma SampleTail4()
    ensures Matches(Winning4, Numbers4[4..]) == 0
  {
    var w := Winning4;
    var n := Numbers4;
    assert Matches(w, n[8..]) == 0;
    assert n[7] !in w;
    assert n[7..][1..] == n[8..];
    assert Matches(w, n[7..]) == 0;
    assert n[6] !in w;
    assert n[6..][1..] == n[7..];
    assert Matches(w, n[6..]) == 0;
    assert n[5] !in w;
    assert n[5..][1..] == n[6..];
    assert Matches(w, n[5..]) == 0;
    assert n[4] !in w;
    assert n[4..][1..] == n[5..];
    assert Matches(w, n[4..]) == 0;
  }

  lemma SampleMatches4()
    ensures CardMatches(SampleCards[3]) == 1
  {
    var w := Winning4;
    var n := Numbers4;
    SampleTail4();
    assert n[3] !in w;
    assert n[3..][1..] == n[4..];
    assert Matches(w, n[3..]) == 0;
    assert n[2] !in w;
    assert n[2..][1..] == n[3..];
    assert Matches(w, n[2..]) == 0;
    assert n[1] in w;
    assert n[1..][1..] == n[2..];
    assert Matches(w, n[1..]) == 1;
    assert n[0] !in w;
    assert n[0..][1..] == n[1..];
    assert Matches(w, n[0..]) == 1;
    assert n[0..] == n;
  }

  lemma SampleTail5()
    ensures Matches(Winning5, Numbers5[4..]) == 0
  {
    var w := Winning5;
    var n := Numbers5;
    assert Matches(w, n[8..]) == 0;
    assert n[7] !in w;
    assert n[7..][1..] == n[8..];
    assert Matches(w, n[7..]) == 0;
    assert n[6] !in w;
    assert n[6..][1..] == n[7..];
    assert Matches(w, n[6..]) == 0;
    assert n[5] !in w;
    assert n[5..][1..] == n[6..];
    assert Matches(w, n[5..]) == 0;
    assert n[4] !in w;
    assert n[4..][1..] == n[5..];
    assert Matches(w, n[4..]) == 0;
  }

  lemma SampleMatches5()
    ensures CardMatches(SampleCards[4]) == 0
  {
    var w := Winning5;
    var n := Numbers5;
    SampleTail5();
    assert n[3] !in w;
    assert n[3..][1..] == n[4..];
    assert Matches(w, n[3..]) == 0;
    assert n[2] !in w;
    assert n[2..][1..] == n[3..];
    assert Matches(w, n[2..]) == 0;
    assert n[1] !in w;
    assert n[1..][1..] == n[2..];
    assert Matches(w, n[1..]) == 0;
    assert n[0] !in w;
    assert n[0..][1..] == n[1..];
    assert Matches(w, n[0..]) == 0;
    assert n[0..] == n;
  }

  lemma SampleTail6()
    ensures Matches(Winning6, Numbers6[4..]) == 0
  {
    var w := Winning6;
    var n := Numbers6;
    assert Matches(w, n[8..]) == 0;
    assert n[7] !in w;
    assert n[7..][1..] == n[8..];
    assert Matches(w, n[7..]) == 0;
    assert n[6] !in w;
    assert n[6..][1..] == n[7..];
    assert Matches(w, n[6..]) == 0;
    assert n[5] !in w;
    assert n[5..][1..] == n[6..];
    assert Matches(w, n[5..]) == 0;
    assert n[4] !in w;
    assert n[4..][1..] == n[5..];
    assert Matches(w, n[4..]) == 0;
  }

  lemma SampleMatches6()
    ensures CardMatches(SampleCards[5]) == 0
  {
    var w := Winning6;
    var n := Numbers6;
    SampleTail6();
    assert n[3] !in w;
    assert n[3..][1..] == n[4..];
    assert Matches(w, n[3..]) == 0;
    assert n[2] !in w;
    assert n[2..][1..] == n[3..];
    assert Matches(w, n[2..]) == 0;
    assert n[1] !in w;
    assert n[1..][1..] == n[2..];
    assert Matches(w, n[1..]) == 0;
    assert n[0] !in w;
    assert n[0..][1..] == n[1..];
    assert Matches(w, n[0..]) == 0;
    assert n[0..] == n;
  }

  lemma PointsStep(cards: seq<Card>, k: nat)
    requires k < |cards|
    ensures TotalPoints(cards[..k + 1]) == TotalPoints(cards[..k]) + Points(CardMatches(cards[k]))
  {
    assert cards[..k + 1][..k] == cards[..k];
  }

  /** Six cards with the sample's match counts score 8 + 2 + 2 + 1 = 13
      points. */
  lemma SixCardPoints(cards: seq<Card>)
    requires |cards| == 6
    requires CardMatches(cards[0]) == 4
    requires CardMatches(cards[1]) == 2
    requires CardMatches(cards[2]) == 2
    requires CardMatches(cards[3]) == 1
    requires CardMatches(cards[4]) == 0
    requires CardMatches(cards[5]) == 0
    ensures TotalPoints(cards) == 13
  {
    assert Points(4) == 8 && Points(2) == 2 && Points(1) == 1 && Points(0) == 0;
    PointsStep(cards, 0);
    PointsStep(cards, 1);
    PointsStep(cards, 2);
    PointsStep(cards, 3);
    PointsStep(cards, 4);
    PointsStep(cards, 5);
    assert cards[..0] == [];
    assert cards[..6] == cards;
  }

  lemma SixCardFits(cards: seq<Card>)
    requires |cards| == 6
    requires CardMatches(cards[0]) == 4
    requires CardMatches(cards[1]) == 2
    requires CardMatches(cards[2]) == 2
    requires CardMatches(cards[3]) == 1
    requires CardMatches(cards[4]) == 0
    requires CardMatches(cards[5]) == 0
    ensures Fits(cards)
  {
    forall i | 0 <= i < |cards|
      ensures i + CardMatches(cards[i]) < |cards|
    {
      if i == 0 {} else if i == 1 {} else if i == 2 {} else if i == 3 {} else if i == 4 {} else {}
    }
  }

  /** The last three sample cards stand for 2, 1 and 1 cards. */
  lemma LateScores(cards: seq<Card>)
    requires |cards| == 6 && Fits(cards)
    requires CardMatches(cards[0]) == 4
    requires CardMatches(cards[1]) == 2
    requires CardMatches(cards[2]) == 2
    requires CardMatches(cards[3]) == 1
    requires CardMatches(cards[4]) == 0
    requires CardMatches(cards[5]) == 0
    ensures Score(cards, 5) == 1 && Score(cards, 4) == 1 && Score(cards, 3) == 2
  {
    assert Score(cards, 5) == 1 + Following(cards, 5, 0) == 1;
    assert Score(cards, 4) == 1 + Following(cards, 4, 0) == 1;
    assert Following(cards, 3, 1) == Following(cards, 3, 0) + Score(cards, 4) == 1;
  }

  /** The first three sample cards stand for 15, 7 and 4 cards. */
  lemma EarlyScores(cards: seq<Card>)
    requires |cards| == 6 && Fits(cards)
    requires CardMatches(cards[0]) == 4
    requires CardMatches(cards[1]) == 2
    requires CardMatches(cards[2]) == 2
    requires CardMatches(cards[3]) == 1
    requires CardMatches(cards[4]) == 0
    requires CardMatches(cards[5]) == 0
    requires Score(cards, 5) == 1 && Score(cards, 4) == 1 && Score(cards, 3) == 2
    ensures Score(cards, 2) == 4 && Score(cards, 1) == 7 && Score(cards, 0) == 15
  {
    assert Following(cards, 2, 1) == Following(cards, 2, 0) + Score(cards, 3) == 2;
    assert Following(cards, 2, 2) == Following(cards, 2, 1) + Score(cards, 4) == 3;
    assert Score(cards, 2) == 4;
    assert Following(cards, 1, 1) == Following(cards, 1, 0) + Score(cards, 2) == 4;
    assert Following(cards, 1, 2) == Following(cards, 1, 1) + Score(cards, 3) == 6;
    assert Score(cards, 1) == 7;
    assert Following(cards, 0, 1) == Following(cards, 0, 0) + Score(cards, 1) == 7;
    assert Following(cards, 0, 2) == Following(cards, 0, 1) + Score(cards, 2) == 11;
    assert Following(cards, 0, 3) == Following(cards, 0, 2) + Score(cards, 3) == 13;
    assert Following(cards, 0, 4) == Following(cards, 0, 3) + Score(cards, 4) == 14;
  }

  /** Six cards with the sample's match counts stand for 15, 7, 4, 2, 1 and
      1 cards: 30 in all. */
  lemma SixCardScores(cards: seq<Card>)
    requires |cards| == 6
    requires CardMatches(cards[0]) == 4
    requires CardMatches(cards[1]) == 2
    requires CardMatches(cards[2]) == 2
    requires CardMatches(cards[3]) == 1
    requires CardMatches(cards[4]) == 0
    requires CardMatches(cards[5]) == 0
    ensures Fits(cards)
    ensures TotalScore(cards) == 30
  {
    SixCardFits(cards);
    LateScores(cards);
    EarlyScores(cards);
    assert ScoreSum(cards, 1) == 15;
    assert ScoreSum(cards, 2) == 22;
    assert ScoreSum(cards, 3) == 26;
    assert ScoreSum(cards, 4) == 28;
    assert ScoreSum(cards, 5) == 29;
  }

  lemma SampleMatches()
    ensures |SampleCards| == 6
    ensures CardMatches(SampleCards[0]) == 4
    ensures CardMatches(SampleCards[1]) == 2
    ensures CardMatches(SampleCards[2]) == 2
    ensures CardMatches(SampleCards[3]) == 1
    ensures CardMatches(SampleCards[4]) == 0
    ensures CardMatches(SampleCards[5]) == 0
  {
    SampleMatches1();
    SampleMatches2();
    SampleMatches3();
    SampleMatches4();
    SampleMatches5();
    SampleMatches6();
  }

  /** The sample scores 13 points. */
  lemma SamplePoints()
    ensures TotalPoints(SampleCards) == 13
  {
    SampleMatches();
    SixCardPoints(SampleCards);
  }

  /** The sample cards stand for 30 cards. */
  lemma SampleScores()
    ensures Fits(SampleCards)
    ensures TotalScore(SampleCards) == 30
  {
    SampleMatches();
    SixCardScores(SampleCards);
  }

  /** The sample written out as a card file parses back to the sample
      cards, so both parts give 13 and 30 on that text. */
  lemma SampleFile()
    ensures CardLines(JoinLines(Listing(SampleCards)))
    ensures Cards(JoinLines(Listing(SampleCards))) == SampleCards
    ensures TotalPoints(Cards(JoinLines(Listing(SampleCards)))) == 13
    ensures Fits(Cards(JoinLines(Listing(SampleCards))))
    ensures TotalScore(Cards(JoinLines(Listing(SampleCards)))) == 30
  {
    InputRoundTrip(SampleCards);
    SamplePoints();
    SampleScores();
  }

  /** A `|` right after a digit only ends the number: both numbers stay
      winning numbers. */
  lemma BarAfterDigit()
    ensures CardOf("1|2") == Card([1, 2], [])
  {
    assert "1|2"[..2] == "1|";
    assert "1|"[..1] == "1";
    assert "1"[..0] == "";
  }

  /** A zero is never recorded. */
  lemma ZeroDropped()
    ensures CardOf("0|0") == Card([], [])
  {
    assert "0|0"[..2] == "0|";
    assert "0|"[..1] == "0";
    assert "0"[..0] == "";
  }
}
