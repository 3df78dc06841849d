/** The five sample games of the day 2 puzzle, stated as parsed records,
    with their per-colour maxima and the two answers the unit tests expect
    (8 and 2286); the written-out sample text reads back as these games. */
module Day2Examples {
  import opened Text
  import opened Day2

  function B(n: nat): Cube { Cube(n, Blue) }
  function R(n: nat): Cube { Cube(n, Red) }
  function G(n: nat): Cube { Cube(n, Green) }

  const Game1: Game := Game(1, [[B(3), R(4)], [R(1), G(2), B(6)], [G(2)]])
  const Game2: Game := Game(2, [[B(1), G(2)], [G(3), B(4), R(1)], [G(1), B(1)]])
  const Game3: Game := Game(3, [[G(8), B(6), R(20)], [B(5), R(4), G(13)], [G(5), R(1)]])
  const Game4: Game := Game(4, [[G(1), R(3), B(6)], [G(3), R(6)], [G(3), B(15), R(14)]])
  const Game5: Game := Game(5, [[R(6), B(1), G(3)], [B(2), R(1), G(2)]])

  const Sample: seq<Game> := [Game1, Game2, Game3, Game4, Game5]

  /** What one cube contributes to the maximum of `color`. */
  function Seen(c: Cube, color: Color): nat {
    if c.color == color then c.count else 0
  }

  lemma SetOf1(a: Cube)
    ensures forall color :: SetHighest([a], color) == Seen(a, color)
  {
    assert [a][..0] == [];
  }

  lemma SetOf2(a: Cube, b: Cube)
    ensures forall color :: SetHighest([a, b], color) == Max(Seen(a, color), Seen(b, color))
  {
    assert [a, b][..1] == [a];
    SetOf1(a);
  }

  lemma SetOf3(a: Cube, b: Cube, c: Cube)
    ensures forall color ::
      SetHighest([a, b, c], color) == Max(Max(Seen(a, color), Seen(b, color)), Seen(c, color))
  {
    assert [a, b, c][..2] == [a, b];
    SetOf2(a, b);
  }

  lemma HighestOf2(x: seq<Cube>, y: seq<Cube>)
    ensures forall color :: Highest([x, y], color) == Max(SetHighest(x, color), SetHighest(y, color))
  {
    assert [x, y][..1] == [x];
  }

  lemma HighestOf3(x: seq<Cube>, y: seq<Cube>, z: seq<Cube>)
    ensures forall color ::
      Highest([x, y, z], color) == Max(Max(SetHighest(x, color), SetHighest(y, color)), SetHighest(z, color))
  {
    assert [x, y, z][..2] == [x, y];
    HighestOf2(x, y);
  }

  lemma Game1Highest()
    ensures Highest(Game1.cubeSets, Red) == 4
    ensures Highest(Game1.cubeSets, Green) == 2
    ensures Highest(Game1.cubeSets, Blue) == 6
  {
    SetOf2(B(3), R(4));
    SetOf3(R(1), G(2), B(6));
    SetOf1(G(2));
    HighestOf3(Game1.cubeSets[0], Game1.cubeSets[1], Game1.cubeSets[2]);
  }

  lemma Game2Highest()
    ensures Highest(Game2.cubeSets, Red) == 1
    ensures Highest(Game2.cubeSets, Green) == 3
    ensures Highest(Game2.cubeSets, Blue) == 4
  {
    SetOf2(B(1), G(2));
    SetOf3(G(3), B(4), R(1));
    SetOf2(G(1), B(1));
    HighestOf3(Game2.cubeSets[0], Game2.cubeSets[1], Game2.cubeSets[2]);
  }

  lemma Game3Highest()
    ensures Highest(Game3.cubeSets, Red) == 20
    ensures Highest(Game3.cubeSets, Green) == 13
    ensures Highest(Game3.cubeSets, Blue) == 6
  {
    SetOf3(G(8), B(6), R(20));
    SetOf3(B(5), R(4), G(13));
    SetOf2(G(5), R(1));
    HighestOf3(Game3.cubeSets[0], Game3.cubeSets[1], Game3.cubeSets[2]);
  }

  lemma Game4Highest()
    ensures Highest(Game4.cubeSets, Red) == 14
    ensures Highest(Game4.cubeSets, Green) == 3
    ensures Highest(Game4.cubeSets, Blue) == 15
  {
    SetOf3(G(1), R(3), B(6));
    SetOf2(G(3), R(6));
    SetOf3(G(3), B(15), R(14));
    HighestOf3(Game4.cubeSets[0], Game4.cubeSets[1], Game4.cubeSets[2]);
  }

  lemma Game5Highest()
    ensures Highest(Game5.cubeSets, Red) == 6
    ensures Highest(Game5.cubeSets, Green) == 3
    ensures Highest(Game5.cubeSets, Blue) == 2
  {
    SetOf3(R(6), B(1), G(3));
    SetOf3(B(2), R(1), G(2));
    HighestOf2(Game5.cubeSets[0], Game5.cubeSets[1]);
  }

  lemma Game1Scores()
    ensures Possible(Game1) && Power(Game1) == 48
  {
    Game1Highest();
  }

  lemma Game2Scores()
    ensures Possible(Game2) && Power(Game2) == 12
  {
    Game2Highest();
  }

  lemma Game3Scores()
    ensures !Possible(Game3) && Power(Game3) == 1560
  {
    Game3Highest();
  }

  lemma Game4Scores()
    ensures !Possible(Game4) && Power(Game4) == 630
  {
    Game4Highest();
  }

  lemma Game5Scores()
    ensures Possible(Game5) && Power(Game5) == 36
  {
    Game5Highest();
  }

  /** Both totals grow by the score of a game appended to the list. */
  lemma SumsAppend(games: seq<Game>, game: Game)
    requires WellFormed(games) && game.cubeSets != []
    ensures WellFormed(games + [game])
    ensures PossibleSum(games + [game]) == PossibleSum(games) + (if Possible(game) then game.num else 0)
    ensures PowerSum(games + [game]) == PowerSum(games) + Power(game)
  {
    assert (games + [game])[..|games|] == games;
  }

  lemma FirstTwoSums()
    ensures WellFormed([Game1, Game2])
    ensures PossibleSum([Game1, Game2]) == 3 && PowerSum([Game1, Game2]) == 60
  {
    Game1Scores();
    Game2Scores();
    SumsAppend([], Game1);
    assert [] + [Game1] == [Game1];
    SumsAppend([Game1], Game2);
    assert [Game1] + [Game2] == [Game1, Game2];
  }

  lemma FirstFourSums()
    ensures WellFormed([Game1, Game2, Game3, Game4])
    ensures PossibleSum([Game1, Game2, Game3, Game4]) == 3
    ensures PowerSum([Game1, Game2, Game3, Game4]) == 2250
  {
    FirstTwoSums();
    Game3Scores();
    Game4Scores();
    SumsAppend([Game1, Game2], Game3);
    assert [Game1, Game2] + [Game3] == [Game1, Game2, Game3];
    SumsAppend([Game1, Game2, Game3], Game4);
    assert [Game1, Game2, Game3] + [Game4] == [Game1, Game2, Game3, Game4];
  }

  /** Games 1, 2 and 5 fit in the bag; game 3 has 20 red and game 4 has
      15 blue: part 1 gives 1 + 2 + 5 = 8. Part 2 adds the powers 48, 12,
      1560, 630 and 36 to 2286. */
  lemma SampleSums()
    ensures WellFormed(Sample)
    ensures PossibleSum(Sample) == 8
    ensures PowerSum(Sample) == 2286
  {
    FirstFourSums();
    Game5Scores();
    SumsAppend([Game1, Game2, Game3, Game4], Game5);
    assert [Game1, Game2, Game3, Game4] + [Game5] == Sample;
  }

  lemma Game1Cubes()
    ensures CubeText(B(3)) == " 3 blue" && CubeText(R(4)) == " 4 red"
    ensures CubeText(R(1)) == " 1 red" && CubeText(G(2)) == " 2 green"
    ensures CubeText(B(6)) == " 6 blue"
  {
    assert Decimal(3) == "3" && Decimal(4) == "4";
    assert Decimal(1) == "1" && Decimal(2) == "2" && Decimal(6) == "6";
  }

  lemma Game1Sets()
    ensures SetText([B(3), R(4)]) == " 3 blue, 4 red"
    ensures SetText([R(1), G(2), B(6)]) == " 1 red, 2 green, 6 blue"
    ensures SetText([G(2)]) == " 2 green"
  {
    Game1Cubes();
    assert [R(1), G(2), B(6)][1..] == [G(2), B(6)];
    assert [G(2), B(6)][1..] == [B(6)];
    assert [B(3), R(4)][1..] == [R(4)];
  }

  lemma Game1Pieces()
    ensures Pieces(Game1) == ["Game 1:" + " 3 blue, 4 red", " 1 red, 2 green, 6 blue", " 2 green"]
  {
    var p := Pieces(Game1);
    Game1Sets();
    assert Decimal(1) == "1";
    assert p[0] == "Game 1:" + " 3 blue, 4 red";
    assert p[1] == " 1 red, 2 green, 6 blue";
    assert p[2] == " 2 green";
  }

  /** The first sample game written out is the sample's first line,
      `Game 1: 3 blue, 4 red; 1 red, 2 green, 6 blue; 2 green`, here as its
      three pieces joined by semicolons. */
  lemma Game1Line()
    ensures GameLine(Game1) == "Game 1: 3 blue, 4 red" + ";" + (" 1 red, 2 green, 6 blue" + ";" + " 2 green")
  {
    Game1Pieces();
    var p := ["Game 1:" + " 3 blue, 4 red", " 1 red, 2 green, 6 blue", " 2 green"];
    assert p[1..][1..] == [p[2]];
    assert Join(p[1..], ';') == p[1] + ";" + p[2];
  }

  /** The sample written out, one game per line, parses back to the five
      games, so both parts of the puzzle give 8 and 2286 on it. */
  lemma SampleFile()
    ensures GameLines(JoinLines(Listing(Sample)))
    ensures Games(JoinLines(Listing(Sample))) == Sample
    ensures PossibleSum(Games(JoinLines(Listing(Sample)))) == 8
    ensures PowerSum(Games(JoinLines(Listing(Sample)))) == 2286
  {
    SampleSums();
    InputRoundTrip(Sample);
  }

  /** A colour name outside the three is refused. */
  lemma PurpleRefused()
    ensures ColorFrom("purple") == None
  {
  }
}
