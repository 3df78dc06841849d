/** Day 2: games of coloured cubes drawn from a bag. Each input line
    `Game N: 3 blue, 4 red; 1 red, 2 green` records the sets drawn in one
    game; part 1 sums the numbers of the games possible with 12 red,
    13 green and 14 blue cubes, part 2 sums each game's product of
    per-colour maxima. */
module Day2 {
  import opened Text

  datatype Color = Blue | Red | Green

  /** The name `Color::from` maps to each colour. */
  function ColorName(c: Color): string {
    match c
    case Blue => "blue"
    case Red => "red"
    case Green => "green"
  }

  /** `Color::from`: exactly the three names are accepted; any other string
      panics in the source and is `None` here. */
  function ColorFrom(s: string): (r: Option<Color>)
    ensures r.Some? ==> ColorName(r.value) == s
    ensures r.None? <==> s != "blue" && s != "red" && s != "green"
  {
    if s == "blue" then Some(Blue)
    else if s == "red" then Some(Red)
    else if s == "green" then Some(Green)
    else None
  }

  /** Every colour's name decodes to that colour. */
  lemma ColorRoundTrip(c: Color)
    ensures ColorFrom(ColorName(c)) == Some(c)
  {
  }

  // ---------------------------------------------------------------------
  // The two patterns of `Game::from`, scanned by hand
  // ---------------------------------------------------------------------

  /** `\s` of the regex crate: the Unicode White_Space characters. */
  predicate IsSpace(c: char) {
    ('\t' <= c <= '\r') || c == ' ' || c == '\U{0085}' || c == '\U{00A0}' || c == '\U{1680}'
    || ('\U{2000}' <= c <= '\U{200A}') || c == '\U{2028}' || c == '\U{2029}' || c == '\U{202F}'
    || c == '\U{205F}' || c == '\U{3000}'
  }

  /** Length of the run of ASCII digits starting at `p`; `[0-9]+` is
      greedy, so a match takes all of it. */
  function DigitRun(s: string, p: nat): (n: nat)
    requires p <= |s|
    ensures p + n <= |s|
    decreases |s| - p
  {
    if p < |s| && IsDigit(s[p]) then 1 + DigitRun(s, p + 1) else 0
  }

  /** The run is all ASCII digits and stops at the first other character. */
  lemma {:induction false} DigitRunFacts(s: string, p: nat)
    requires p <= |s|
    ensures forall k :: p <= k < p + DigitRun(s, p) ==> IsDigit(s[k])
    ensures p + DigitRun(s, p) < |s| ==> !IsDigit(s[p + DigitRun(s, p)])
    decreases |s| - p
  {
    if p < |s| && IsDigit(s[p]) {
      DigitRunFacts(s, p + 1);
    }
  }

  /** The value of the first `n` digits of the run at `p`: what
      `str::parse::<usize>` makes of the captured digits. */
  function NumberValue(s: string, p: nat, n: nat): nat
    requires p <= |s| && n <= DigitRun(s, p)
  {
    if n == 0 then 0
    else
      DigitRunFacts(s, p);
      NumberValue(s, p, n - 1) * 10 + DigitValue(s[p + n - 1])
  }

  /** It is the decimal value of those digits. */
  lemma {:induction false} NumberValueDecimal(s: string, p: nat, n: nat)
    requires p <= |s| && n <= DigitRun(s, p)
    ensures AllDigits(s[p..p + n]) && NumberValue(s, p, n) == DecimalValue(s[p..p + n])
  {
    DigitRunFacts(s, p);
    if n > 0 {
      NumberValueDecimal(s, p, n - 1);
      assert s[p..p + n][..n - 1] == s[p..p + n - 1];
    }
  }

  /** Length of the run of `\s` characters starting at `p`. */
  function SpaceRun(s: string, p: nat): (n: nat)
    requires p <= |s|
    ensures p + n <= |s|
    decreases |s| - p
  {
    if p < |s| && IsSpace(s[p]) then 1 + SpaceRun(s, p + 1) else 0
  }

  /** The run is all `\\s` characters and stops at the first other character. */
  lemma {:induction false} SpaceRunFacts(s: string, p: nat)
    requires p <= |s|
    ensures forall k :: p <= k < p + SpaceRun(s, p) ==> IsSpace(s[k])
    ensures p + SpaceRun(s, p) < |s| ==> !IsSpace(s[p + SpaceRun(s, p)])
    decreases |s| - p
  {
    if p < |s| && IsSpace(s[p]) {
      SpaceRunFacts(s, p + 1);
    }
  }

  /** The length of a colour's name (see `NameChars`). */
  function NameLength(c: Color): nat {
    match c
    case Blue => 4
    case Red => 3
    case Green => 5
  }

  /** The alternative of `(blue|green|red)` that matches at `p`, tried in
      that order; `Color::from` of the captured name is that colour (see
      `ColorRoundTrip`), so it cannot panic here. */
  function NameAt(s: string, p: nat): (r: Option<Color>)
    requires p <= |s|
    ensures r.Some? ==> p + NameLength(r.value) <= |s|
  {
    if p + 4 <= |s| && s[p] == 'b' && s[p + 1] == 'l' && s[p + 2] == 'u' && s[p + 3] == 'e' then Some(Blue)
    else if p + 5 <= |s| && s[p] == 'g' && s[p + 1] == 'r' && s[p + 2] == 'e' && s[p + 3] == 'e' && s[p + 4] == 'n'
    then Some(Green)
    else if p + 3 <= |s| && s[p] == 'r' && s[p + 1] == 'e' && s[p + 2] == 'd' then Some(Red)
    else None
  }

  datatype Cube = Cube(count: nat, color: Color)

  /** A match of the cube pattern: the cube it captures and where it ends. */
  datatype Match = Match(cube: Cube, end: nat)

  /** The match of `([0-9]+)\s*(blue|green|red)` that starts at `p`, if
      any: the whole digit run there, the spaces after it, and a colour
      name; its count is the digit run's value. */
  function MatchAt(s: string, p: nat): (r: Option<Match>)
    requires p < |s|
    ensures r.Some? ==> p < r.value.end <= |s|
  {
    var d := DigitRun(s, p);
    if d == 0 then None
    else
      var w := p + d + SpaceRun(s, p + d);
      match NameAt(s, w)
      case Some(c) => Some(Match(Cube(NumberValue(s, p, d), c), w + NameLength(c)))
      case None => None
  }

  /** `captures_iter` of the cube pattern over `s` from `p`, each capture
      turned into a count and a colour: the leftmost match, then the
      matches after it. A digit run that is not followed by a colour name
      matches at none of its positions. */
  function CubesFrom(s: string, p: nat): seq<Cube>
    requires p <= |s|
    decreases |s| - p
  {
    if p == |s| then []
    else
      match MatchAt(s, p)
      case Some(m) => [m.cube] + CubesFrom(s, m.end)
      case None => CubesFrom(s, p + 1)
  }

  function CubesIn(s: string): seq<Cube> {
    CubesFrom(s, 0)
  }

  /** Where `Game ([0-9]+):` matches at `p`. */
  predicate HeaderAt(s: string, p: nat)
    requires p <= |s|
  {
    p + 5 <= |s| && s[p] == 'G' && s[p + 1] == 'a' && s[p + 2] == 'm' && s[p + 3] == 'e' && s[p + 4] == ' '
    && 0 < DigitRun(s, p + 5) && p + 5 + DigitRun(s, p + 5) < |s| && s[p + 5 + DigitRun(s, p + 5)] == ':'
  }

  /** The number captured by the first match of `Game ([0-9]+):` from `p`
      on, `None` when the pattern does not occur there. */
  function GameNumberFrom(s: string, p: nat): (r: Option<nat>)
    requires p <= |s|
    ensures r.None? <==> forall k :: p <= k < |s| ==> !HeaderAt(s, k)
    decreases |s| - p
  {
    if p == |s| then None
    else if HeaderAt(s, p) then
      DigitRunFacts(s, p + 5);
      assert AllDigits(s[p + 5..p + 5 + DigitRun(s, p + 5)]);
      Some(DecimalValue(s[p + 5..p + 5 + DigitRun(s, p + 5)]))
    else GameNumberFrom(s, p + 1)
  }

  function GameNumber(s: string): Option<nat> {
    GameNumberFrom(s, 0)
  }

  // ---------------------------------------------------------------------
  // Games
  // ---------------------------------------------------------------------

  /** A game's number and its cube sets, in the order they were drawn. */
  datatype Game = Game(num: nat, cubeSets: seq<seq<Cube>>)

  /** A line `Game::from` reads without panicking: the game-number pattern
      occurs in it (its `unwrap` panics otherwise). */
  predicate HasNumber(line: string) {
    GameNumber(line).Some?
  }

  /** The cube sets of a line: the cubes found in each `;`-separated piece;
      the first piece also holds the `Game N:` header. */
  function CubeSets(line: string): (r: seq<seq<Cube>>)
    ensures |r| == Count(line, ';') + 1
    ensures forall i :: 0 <= i < |r| ==> r[i] == CubesIn(Split(line, ';')[i])
  {
    var pieces := Split(line, ';');
    seq(|pieces|, i requires 0 <= i < |pieces| => CubesIn(pieces[i]))
  }

  /** The game a line describes. */
  function GameOf(line: string): (g: Game)
    requires HasNumber(line)
    ensures g.cubeSets != []
  {
    Game(GameNumber(line).value, CubeSets(line))
  }

  /** `Game::from`: takes the number, then pushes the cubes of each
      `;`-separated piece. */
  method GameFrom(line: string) returns (game: Game)
    requires HasNumber(line)
    ensures game == GameOf(line)
  {
    var num := GameNumber(line).value;
    var pieces := Split(line, ';');
    var cubeSets: seq<seq<Cube>> := [];
    for i := 0 to |pieces|
      invariant |cubeSets| == i
      invariant forall k :: 0 <= k < i ==> cubeSets[k] == CubesIn(pieces[k])
    {
      cubeSets := cubeSets + [CubesIn(pieces[i])];
    }
    game := Game(num, cubeSets);
  }

  /** Every non-empty piece of the split input is a game line. */
  predicate NumberedPieces(pieces: seq<string>) {
    forall i :: 0 <= i < |pieces| ==> pieces[i] != [] ==> HasNumber(pieces[i])
  }

  /** An input `parse_input` reads without panicking. */
  predicate GameLines(input: string) {
    NumberedPieces(Split(input, '\n'))
  }

  lemma {:induction false} NumberedKept(pieces: seq<string>)
    requires NumberedPieces(pieces)
    ensures forall i :: 0 <= i < |DropEmpty(pieces)| ==> HasNumber(DropEmpty(pieces)[i])
  {
    if pieces != [] {
      NumberedKept(pieces[1..]);
    }
  }

  /** A game as `parse_input` produces it: at least one cube set. */
  predicate WellFormed(games: seq<Game>) {
    forall i :: 0 <= i < |games| ==> games[i].cubeSets != []
  }

  /** One game per line, each parsed from its line. */
  function GamesOf(lines: seq<string>): seq<Game>
    requires forall i :: 0 <= i < |lines| ==> HasNumber(lines[i])
  {
    seq(|lines|, i requires 0 <= i < |lines| => GameOf(lines[i]))
  }

  /** `parse_input`: one game per non-empty line, in order. */
  function Games(input: string): (games: seq<Game>)
    requires GameLines(input)
    ensures |games| == |NonEmptyLines(input)|
    ensures forall i :: 0 <= i < |games| ==> games[i] == GameOf(NonEmptyLines(input)[i])
    ensures WellFormed(games)
  {
    NumberedKept(Split(input, '\n'));
    GamesOf(NonEmptyLines(input))
  }

  // ---------------------------------------------------------------------
  // Highest count of a colour
  // ---------------------------------------------------------------------

  function Max(a: nat, b: nat): nat {
    if a < b then b else a
  }

  /** The largest count of `color` in one set, 0 when the colour is absent
      (`.filter(..).max().unwrap_or(0)`). */
  function SetHighest(cubes: seq<Cube>, color: Color): nat {
    if cubes == [] then 0
    else
      var last := cubes[|cubes| - 1];
      Max(SetHighest(cubes[..|cubes| - 1], color), if last.color == color then last.count else 0)
  }

  /** `highest_occurrence_of_color_in_game`: the largest of the per-set
      maxima (`.max().unwrap()` needs a set). */
  function Highest(sets: seq<seq<Cube>>, color: Color): nat
    requires sets != []
  {
    var here := SetHighest(sets[|sets| - 1], color);
    if |sets| == 1 then here else Max(Highest(sets[..|sets| - 1], color), here)
  }

  /** `b` is at least every count of `color` in the sets. */
  predicate Bounds(sets: seq<seq<Cube>>, color: Color, b: nat) {
    forall i, j :: 0 <= i < |sets| && 0 <= j < |sets[i]| && sets[i][j].color == color ==> sets[i][j].count <= b
  }

  /** Some set holds `n` cubes of `color`. */
  predicate Shows(sets: seq<seq<Cube>>, color: Color, n: nat) {
    exists i, j :: 0 <= i < |sets| && 0 <= j < |sets[i]| && sets[i][j] == Cube(n, color)
  }

  /** The maximum of one set bounds its counts of the colour and is 0 or
      one of them. */
  lemma {:induction false} SetHighestBounds(cubes: seq<Cube>, color: Color)
    ensures forall j :: 0 <= j < |cubes| && cubes[j].color == color ==> cubes[j].count <= SetHighest(cubes, color)
    ensures SetHighest(cubes, color) == 0 || exists j :: 0 <= j < |cubes| && cubes[j] == Cube(SetHighest(cubes, color), color)
  {
    if cubes != [] {
      var init := cubes[..|cubes| - 1];
      SetHighestBounds(init, color);
      assert forall j :: 0 <= j < |init| ==> init[j] == cubes[j];
      var r := SetHighest(cubes, color);
      if r != 0 && r == SetHighest(init, color) {
        var j :| 0 <= j < |init| && init[j] == Cube(r, color);
        assert cubes[j] == Cube(r, color);
      }
    }
  }

  /** The highest count of a colour is at least every count of it in the
      game, and it is 0 or one of those counts. */
  lemma HighestBounds(sets: seq<seq<Cube>>, color: Color)
    requires sets != []
    ensures Bounds(sets, color, Highest(sets, color))
    ensures Highest(sets, color) == 0 || Shows(sets, color, Highest(sets, color))
  {
    HighestBound(sets, color);
    HighestShown(sets, color);
  }

  lemma {:induction false} HighestBound(sets: seq<seq<Cube>>, color: Color)
    requires sets != []
    ensures Bounds(sets, color, Highest(sets, color))
  {
    SetHighestBounds(sets[|sets| - 1], color);
    if |sets| > 1 {
      var init := sets[..|sets| - 1];
      HighestBound(init, color);
      assert forall i :: 0 <= i < |init| ==> init[i] == sets[i];
    }
  }

  lemma {:induction false} HighestShown(sets: seq<seq<Cube>>, color: Color)
    requires sets != []
    ensures Highest(sets, color) == 0 || Shows(sets, color, Highest(sets, color))
  {
    var last := sets[|sets| - 1];
    SetHighestBounds(last, color);
    var r := Highest(sets, color);
    if |sets| > 1 {
      var init := sets[..|sets| - 1];
      HighestShown(init, color);
      if r != 0 && r == Highest(init, color) {
        var i, j :| 0 <= i < |init| && 0 <= j < |init[i]| && init[i][j] == Cube(r, color);
        assert sets[i][j] == Cube(r, color);
      }
    }
    if r != 0 && r == SetHighest(last, color) {
      var j :| 0 <= j < |last| && last[j] == Cube(r, color);
      assert sets[|sets| - 1][j] == Cube(r, color);
    }
  }

  /** The highest count is the least bound: any bound on every count of
      the colour bounds it too. */
  lemma HighestIsLeast(sets: seq<seq<Cube>>, color: Color, bound: nat)
    requires sets != []
    ensures Highest(sets, color) <= bound <==> Bounds(sets, color, bound)
  {
    HighestBounds(sets, color);
  }

  /** The highest count is 0 exactly when no set holds a positive count of
      the colour. */
  lemma HighestZero(sets: seq<seq<Cube>>, color: Color)
    requires sets != []
    ensures Highest(sets, color) == 0 <==> Bounds(sets, color, 0)
  {
    HighestIsLeast(sets, color, 0);
  }

  // ---------------------------------------------------------------------
  // Part 1
  // ---------------------------------------------------------------------

  /** The bag: 12 red, 13 green and 14 blue cubes. */
  function Limit(c: Color): nat {
    match c
    case Red => 12
    case Green => 13
    case Blue => 14
  }

  /** The test `part_1` applies to each game's per-colour maxima. */
  predicate Possible(game: Game)
    requires game.cubeSets != []
  {
    Highest(game.cubeSets, Red) <= 12 && Highest(game.cubeSets, Green) <= 13 && Highest(game.cubeSets, Blue) <= 14
  }

  /** A game is possible exactly when no set shows more cubes of a colour
      than the bag holds. */
  lemma PossibleIff(game: Game)
    requires game.cubeSets != []
    ensures Possible(game) <==>
      forall i, j :: 0 <= i < |game.cubeSets| && 0 <= j < |game.cubeSets[i]| ==>
        game.cubeSets[i][j].count <= Limit(game.cubeSets[i][j].color)
  {
    var sets := game.cubeSets;
    HighestIsLeast(sets, Red, 12);
    HighestIsLeast(sets, Green, 13);
    HighestIsLeast(sets, Blue, 14);
    if Possible(game) {
      forall i, j | 0 <= i < |sets| && 0 <= j < |sets[i]|
        ensures sets[i][j].count <= Limit(sets[i][j].color)
      {
        match sets[i][j].color
        case Red =>
        case Green =>
        case Blue =>
      }
    }
  }

  /** The numbers of the possible games, added in order. */
  function PossibleSum(games: seq<Game>): nat
    requires WellFormed(games)
  {
    if games == [] then 0
    else
      var last := games[|games| - 1];
      PossibleSum(games[..|games| - 1]) + (if Possible(last) then last.num else 0)
  }

  /** The sum of all game numbers. */
  function NumSum(games: seq<Game>): nat {
    if games == [] then 0 else NumSum(games[..|games| - 1]) + games[|games| - 1].num
  }

  /** `part_1`: per game, the maxima of red, blue and green go into a map
      and the game's number is added when all three are within the bag. */
  method Part1(input: string) returns (total: nat)
    requires GameLines(input)
    ensures total == PossibleSum(Games(input))
  {
    total := PossibleTotal(Games(input));
  }

  /** The loop of `part_1` over the parsed games. */
  method PossibleTotal(games: seq<Game>) returns (total: nat)
    requires WellFormed(games)
    ensures total == PossibleSum(games)
  {
    total := 0;
    for k := 0 to |games|
      invariant total == PossibleSum(games[..k])
    {
      var game := games[k];
      var colors := [Red, Blue, Green];
      var occurrence: map<Color, nat> := map[];
      for j := 0 to |colors|
        invariant forall c :: c in occurrence <==> c in colors[..j]
        invariant forall c :: c in occurrence ==> occurrence[c] == Highest(game.cubeSets, c)
      {
        occurrence := occurrence[colors[j] := Highest(game.cubeSets, colors[j])];
      }
      assert colors[..3] == colors;
      if occurrence[Red] <= 12 && occurrence[Green] <= 13 && occurrence[Blue] <= 14 {
        total := total + game.num;
      }
      assert games[..k + 1][..k] == games[..k];
    }
    assert games[..|games|] == games;
  }

  /** Part 1 never exceeds the sum of all game numbers, and reaches it when
      every game is possible. */
  lemma {:induction false} PossibleSumBound(games: seq<Game>)
    requires WellFormed(games)
    ensures PossibleSum(games) <= NumSum(games)
    ensures (forall i :: 0 <= i < |games| ==> Possible(games[i])) ==> PossibleSum(games) == NumSum(games)
  {
    if games != [] {
      PossibleSumBound(games[..|games| - 1]);
    }
  }

  // ---------------------------------------------------------------------
  // Part 2
  // ---------------------------------------------------------------------

  /** The product of the highest counts of `colors`, in order. */
  function ColorsProduct(sets: seq<seq<Cube>>, colors: seq<Color>): nat
    requires sets != []
  {
    if colors == [] then 1
    else ColorsProduct(sets, colors[..|colors| - 1]) * Highest(sets, colors[|colors| - 1])
  }

  /** The game score of `part_2`: red, blue and green maxima multiplied. */
  function Power(game: Game): (p: nat)
    requires game.cubeSets != []
    ensures p == Highest(game.cubeSets, Red) * Highest(game.cubeSets, Blue) * Highest(game.cubeSets, Green)
  {
    var sets := game.cubeSets;
    var colors := [Red, Blue, Green];
    assert colors[..2] == [Red, Blue] && colors[..2][..1] == [Red] && [Red][..0] == [];
    assert ColorsProduct(sets, [Red]) == Highest(sets, Red);
    assert ColorsProduct(sets, [Red, Blue]) == Highest(sets, Red) * Highest(sets, Blue);
    ColorsProduct(sets, colors)
  }

  function PowerSum(games: seq<Game>): nat
    requires WellFormed(games)
  {
    if games == [] then 0 else PowerSum(games[..|games| - 1]) + Power(games[|games| - 1])
  }

  /** `part_2`: per game, the score starts at 1 and is multiplied by the
      maximum of red, blue and green in turn; the scores are added. */
  method Part2(input: string) returns (total: nat)
    requires GameLines(input)
    ensures total == PowerSum(Games(input))
  {
    total := PowerTotal(Games(input));
  }

  /** The loop of `part_2` over the parsed games. */
  method PowerTotal(games: seq<Game>) returns (total: nat)
    requires WellFormed(games)
    ensures total == PowerSum(games)
  {
    total := 0;
    for k := 0 to |games|
      invariant total == PowerSum(games[..k])
    {
      var game := games[k];
      var colors := [Red, Blue, Green];
      var score := 1;
      for j := 0 to |colors|
        invariant score == ColorsProduct(game.cubeSets, colors[..j])
      {
        assert colors[..j + 1][..j] == colors[..j];
        score := score * Highest(game.cubeSets, colors[j]);
      }
      assert colors[..3] == colors;
      total := total + score;
      assert games[..k + 1][..k] == games[..k];
    }
    assert games[..|games|] == games;
  }

  /** Some set holds a positive count of `color`. */
  predicate Appears(sets: seq<seq<Cube>>, color: Color) {
    exists i, j :: 0 <= i < |sets| && 0 <= j < |sets[i]| && sets[i][j].color == color && sets[i][j].count > 0
  }

  /** A game scores more than 0 exactly when every colour shows a positive
      count in some set; a game missing a colour scores 0. */
  lemma PowerPositive(game: Game)
    requires game.cubeSets != []
    ensures Power(game) > 0 <==>
      Appears(game.cubeSets, Red) && Appears(game.cubeSets, Blue) && Appears(game.cubeSets, Green)
  {
    var sets := game.cubeSets;
    HighestZero(sets, Red);
    HighestZero(sets, Blue);
    HighestZero(sets, Green);
    ProductPositive(Highest(sets, Red), Highest(sets, Blue), Highest(sets, Green));
  }

  lemma ProductPositive(r: nat, b: nat, g: nat)
    ensures r * b * g > 0 <==> r > 0 && b > 0 && g > 0
  {
    if r > 0 && b > 0 && g > 0 {
      assert r * b > 0;
    }
  }

  // ---------------------------------------------------------------------
  // Game lines written back as text
  // ---------------------------------------------------------------------

  /** One cube as the puzzle input spells it, after its comma: ` 3 blue`. */
  function CubeText(c: Cube): string {
    " " + Decimal(c.count) + " " + ColorName(c.color)
  }

  /** One set: its cubes separated by commas. */
  function SetText(cubes: seq<Cube>): string {
    if cubes == [] then ""
    else if |cubes| == 1 then CubeText(cubes[0])
    else CubeText(cubes[0]) + "," + SetText(cubes[1..])
  }

  function Header(num: nat): string {
    "Game " + Decimal(num) + ":"
  }

  /** The `;`-separated pieces of a game's line; the header leads the first. */
  function Pieces(game: Game): (p: seq<string>)
    requires game.cubeSets != []
    ensures |p| == |game.cubeSets|
  {
    seq(|game.cubeSets|, i requires 0 <= i < |game.cubeSets| =>
      (if i == 0 then Header(game.num) else "") + SetText(game.cubeSets[i]))
  }

  /** A game written as an input line: `Game 1: 3 blue, 4 red; 2 green`. */
  function GameLine(game: Game): string
    requires game.cubeSets != []
  {
    Join(Pieces(game), ';')
  }

  /** The characters a written set is made of. */
  predicate Plain(s: string) {
    forall k :: 0 <= k < |s| ==> s[k] == ' ' || s[k] == ',' || IsDigit(s[k]) || 'a' <= s[k] <= 'z'
  }

  lemma {:induction false} SetTextPlain(cubes: seq<Cube>)
    ensures Plain(SetText(cubes))
  {
    if |cubes| > 1 {
      SetTextPlain(cubes[1..]);
    }
  }

  /** The digit run at `p` is the one a caller can see. */
  lemma DigitRunIs(s: string, p: nat, n: nat)
    requires p + n <= |s|
    requires forall k :: p <= k < p + n ==> IsDigit(s[k])
    requires p + n < |s| ==> !IsDigit(s[p + n])
    ensures DigitRun(s, p) == n
  {
    DigitRunFacts(s, p);
  }

  lemma SpaceRunIs(s: string, p: nat, n: nat)
    requires p + n <= |s|
    requires forall k :: p <= k < p + n ==> IsSpace(s[k])
    requires p + n < |s| ==> !IsSpace(s[p + n])
    ensures SpaceRun(s, p) == n
  {
    SpaceRunFacts(s, p);
  }

  /** No match starts at `p` when there is no digit run there, or no
      colour name after it. */
  lemma MatchNone(s: string, p: nat)
    requires p < |s|
    requires DigitRun(s, p) == 0 || NameAt(s, p + DigitRun(s, p) + SpaceRun(s, p + DigitRun(s, p))).None?
    ensures MatchAt(s, p).None?
  {
  }

  /** A digit run, spaces and a colour name make a match. */
  lemma MatchSome(s: string, p: nat, d: nat, w: nat, c: Color)
    requires p < |s| && d == DigitRun(s, p) > 0 && w == p + d + SpaceRun(s, p + d)
    requires NameAt(s, w) == Some(c)
    ensures MatchAt(s, p) == Some(Match(Cube(NumberValue(s, p, d), c), w + NameLength(c)))
  {
  }

  /** No match starts at `p`: the scan moves on by one. */
  lemma CubesSkip(s: string, p: nat)
    requires p < |s| && MatchAt(s, p).None?
    ensures CubesFrom(s, p) == CubesFrom(s, p + 1)
  {
  }

  /** A match at `p` is recorded, and the scan goes on after it. */
  lemma CubesTake(s: string, p: nat, m: Match)
    requires p < |s| && MatchAt(s, p) == Some(m)
    ensures CubesFrom(s, p) == [m.cube] + CubesFrom(s, m.end)
  {
  }

  /** Text without digits holds no match of the cube pattern. */
  lemma {:induction false} NoDigitsFrom(s: string, p: nat, e: nat)
    requires p <= e <= |s|
    requires forall k :: p <= k < e ==> !IsDigit(s[k])
    ensures CubesFrom(s, p) == CubesFrom(s, e)
    decreases e - p
  {
    if p < e {
      NonDigitSkipped(s, p);
      NoDigitsFrom(s, p + 1, e);
    }
  }

  /** A digit run ended by `:` (the game number) holds no match either. */
  lemma {:induction false} DigitsColonFrom(s: string, p: nat, e: nat)
    requires p <= e < |s| && s[e] == ':'
    requires forall k :: p <= k < e ==> IsDigit(s[k])
    ensures CubesFrom(s, p) == CubesFrom(s, e + 1)
    decreases e - p
  {
    if p < e {
      DigitRunIs(s, p, e - p);
      SpaceRunIs(s, e, 0);
      assert NameAt(s, e) == None;
      MatchNone(s, p);
      CubesSkip(s, p);
      DigitsColonFrom(s, p + 1, e);
    } else {
      NonDigitSkipped(s, e);
    }
  }

  /** The characters of each colour's name. */
  lemma NameChars(c: Color)
    ensures NameLength(c) == |ColorName(c)|
    ensures c == Blue ==> ColorName(c) == ['b', 'l', 'u', 'e']
    ensures c == Green ==> ColorName(c) == ['g', 'r', 'e', 'e', 'n']
    ensures c == Red ==> ColorName(c) == ['r', 'e', 'd']
  {
  }

  /** `t` is written in `s` from position `p` on. */
  predicate WrittenAt(s: string, p: nat, t: string)
    decreases |t|
  {
    p + |t| <= |s| && (t == [] || (s[p] == t[0] && WrittenAt(s, p + 1, t[1..])))
  }

  /** Each character of written text is in its place. */
  lemma {:induction false} WrittenChar(s: string, p: nat, t: string, k: nat)
    requires WrittenAt(s, p, t) && k < |t|
    ensures p + k < |s| && s[p + k] == t[k]
    decreases k
  {
    if k > 0 {
      WrittenChar(s, p + 1, t[1..], k - 1);
    }
  }

  /** Text written character by character is written. */
  lemma {:induction false} WrittenFromChars(s: string, p: nat, t: string)
    requires p + |t| <= |s|
    requires forall k :: 0 <= k < |t| ==> s[p + k] == t[k]
    ensures WrittenAt(s, p, t)
    decreases |t|
  {
    if t != [] {
      forall k | 0 <= k < |t| - 1
        ensures s[p + 1 + k] == t[1..][k]
      {
        assert s[p + (k + 1)] == t[k + 1];
      }
      assert s[p + 0] == t[0];
      WrittenFromChars(s, p + 1, t[1..]);
    }
  }

  /** A text is written in itself from its start. */
  lemma WrittenSelf(s: string)
    ensures WrittenAt(s, 0, s)
  {
    WrittenFromChars(s, 0, s);
  }

  /** Text written as two parts is each part written in its place. */
  lemma {:induction false} WrittenSplit(s: string, p: nat, a: string, b: string)
    requires WrittenAt(s, p, a + b)
    ensures WrittenAt(s, p, a) && WrittenAt(s, p + |a|, b)
    decreases |a|
  {
    if a == [] {
      assert a + b == b;
    } else {
      assert (a + b)[1..] == a[1..] + b;
      WrittenSplit(s, p + 1, a[1..], b);
    }
  }

  /** A colour's name written at `q` is what the name alternatives match. */
  lemma NameAtIs(s: string, q: nat, c: Color)
    requires WrittenAt(s, q, ColorName(c))
    ensures NameAt(s, q) == Some(c)
  {
    NameChars(c);
    WrittenChar(s, q, ColorName(c), 0);
    WrittenChar(s, q, ColorName(c), 1);
    WrittenChar(s, q, ColorName(c), 2);
    if c != Red {
      WrittenChar(s, q, ColorName(c), 3);
    }
    if c == Green {
      WrittenChar(s, q, ColorName(c), 4);
    }
  }

  /** The decimal spelling of `v` at `q`, ended by a non-digit, is read
      as `v`. */
  lemma NumberAt(s: string, q: nat, v: nat)
    requires WrittenAt(s, q, Decimal(v))
    requires q + |Decimal(v)| < |s| && !IsDigit(s[q + |Decimal(v)|])
    ensures DigitRun(s, q) == |Decimal(v)| && NumberValue(s, q, |Decimal(v)|) == v
  {
    var d := Decimal(v);
    var n := |d|;
    forall k | q <= k < q + n
      ensures IsDigit(s[k])
    {
      WrittenChar(s, q, d, k - q);
    }
    DigitRunIs(s, q, n);
    NumberValueDecimal(s, q, n);
    forall k | 0 <= k < n
      ensures s[q..q + n][k] == d[k]
    {
      WrittenChar(s, q, d, k);
    }
    assert s[q..q + n] == d;
    DecimalRoundTrip(v);
  }

  /** A character that starts no digit run is skipped. */
  lemma NonDigitSkipped(s: string, p: nat)
    requires p < |s| && !IsDigit(s[p])
    ensures CubesFrom(s, p) == CubesFrom(s, p + 1)
  {
    DigitRunIs(s, p, 0);
    MatchNone(s, p);
    CubesSkip(s, p);
  }

  /** The number of characters a written cube takes. */
  function CubeWidth(c: Cube): nat {
    2 + |Decimal(c.count)| + NameLength(c.color)
  }

  lemma CubeWidthIs(c: Cube)
    ensures |CubeText(c)| == CubeWidth(c)
  {
    NameChars(c.color);
  }

  /** Where a written cube sits at `p`: a space, its count, a space and
      its colour's name. */
  lemma CubeLayout(s: string, p: nat, c: Cube)
    requires WrittenAt(s, p, CubeText(c))
    ensures p + CubeWidth(c) <= |s|
    ensures s[p] == ' ' && s[p + 1 + |Decimal(c.count)|] == ' '
    ensures WrittenAt(s, p + 1, Decimal(c.count))
    ensures NameAt(s, p + 2 + |Decimal(c.count)|) == Some(c.color)
  {
    var d := Decimal(c.count);
    var name := ColorName(c.color);
    NameChars(c.color);
    assert CubeText(c) == [' '] + (d + ([' '] + name));
    WrittenSplit(s, p, [' '], d + ([' '] + name));
    WrittenSplit(s, p + 1, d, [' '] + name);
    WrittenSplit(s, p + 1 + |d|, [' '], name);
    WrittenChar(s, p, [' '], 0);
    WrittenChar(s, p + 1 + |d|, [' '], 0);
    NameAtIs(s, p + 2 + |d|, c.color);
  }

  /** What the scan sees of a cube laid out at `p`: a character that is
      not a digit, then a match of the cube pattern capturing `c` and
      ending after `CubeWidth(c)` characters. */
  predicate CubeLaid(s: string, p: nat, c: Cube) {
    p + CubeWidth(c) <= |s| && !IsDigit(s[p]) &&
    MatchAt(s, p + 1) == Some(Match(c, p + CubeWidth(c)))
  }

  /** A written cube is laid out as the scan expects. */
  lemma CubeLaidOut(s: string, p: nat, c: Cube)
    requires WrittenAt(s, p, CubeText(c))
    ensures CubeLaid(s, p, c)
  {
    var n := |Decimal(c.count)|;
    CubeLayout(s, p, c);
    NumberAt(s, p + 1, c.count);
    SpaceRunIs(s, p + 1 + n, 1);
    MatchSome(s, p + 1, n, p + 2 + n, c.color);
  }

  /** The cube pattern reads a laid-out cube at `p` back, and then goes on
      after it. */
  lemma CubeAt(s: string, p: nat, c: Cube)
    requires CubeLaid(s, p, c)
    ensures CubesFrom(s, p) == [c] + CubesFrom(s, p + CubeWidth(c))
  {
    NonDigitSkipped(s, p);
    CubesTake(s, p + 1, Match(c, p + CubeWidth(c)));
  }

  /** Where the text of a set written from `p` ends. */
  function SetEnd(p: nat, cubes: seq<Cube>): nat
    decreases |cubes|
  {
    if cubes == [] then p
    else if |cubes| == 1 then p + CubeWidth(cubes[0])
    else SetEnd(p + CubeWidth(cubes[0]) + 1, cubes[1..])
  }

  /** A set's cubes are laid out from `p` on, separated by commas. */
  predicate SetWritten(s: string, p: nat, cubes: seq<Cube>)
    decreases |cubes|
  {
    if cubes == [] then p <= |s|
    else
      CubeLaid(s, p, cubes[0]) &&
      (|cubes| > 1 ==>
        p + CubeWidth(cubes[0]) < |s| && s[p + CubeWidth(cubes[0])] == ',' &&
        SetWritten(s, p + CubeWidth(cubes[0]) + 1, cubes[1..]))
  }

  /** Where a written set of two or more cubes sits at `p`: its first
      cube, a comma, and the rest of the set. */
  lemma SetLayout(s: string, p: nat, cubes: seq<Cube>)
    requires |cubes| > 1 && WrittenAt(s, p, SetText(cubes))
    ensures |SetText(cubes)| == CubeWidth(cubes[0]) + 1 + |SetText(cubes[1..])|
    ensures WrittenAt(s, p, CubeText(cubes[0]))
    ensures p + CubeWidth(cubes[0]) < |s| && s[p + CubeWidth(cubes[0])] == ','
    ensures WrittenAt(s, p + CubeWidth(cubes[0]) + 1, SetText(cubes[1..]))
  {
    var first := CubeText(cubes[0]);
    var tail := SetText(cubes[1..]);
    SetTextSplit(cubes);
    WrittenSplit(s, p, first, [','] + tail);
    WrittenSplit(s, p + |first|, [','], tail);
    WrittenChar(s, p + |first|, [','] + tail, 0);
  }

  /** The text of a set of two or more cubes: the first cube, a comma and
      the rest. */
  lemma SetTextSplit(cubes: seq<Cube>)
    requires |cubes| > 1
    ensures SetText(cubes) == CubeText(cubes[0]) + ([','] + SetText(cubes[1..]))
    ensures |CubeText(cubes[0])| == CubeWidth(cubes[0])
  {
    CubeWidthIs(cubes[0]);
  }

  /** The text of a set, written at `p`, lays its cubes out as
      `SetWritten` says, and ends at `SetEnd`. */
  lemma {:induction false} SetTextWritten(s: string, p: nat, cubes: seq<Cube>)
    requires WrittenAt(s, p, SetText(cubes))
    ensures SetWritten(s, p, cubes) && SetEnd(p, cubes) == p + |SetText(cubes)|
    decreases |cubes|
  {
    if |cubes| == 1 {
      CubeWidthIs(cubes[0]);
      CubeLaidOut(s, p, cubes[0]);
    } else if |cubes| > 1 {
      SetLayout(s, p, cubes);
      CubeLaidOut(s, p, cubes[0]);
      SetTextWritten(s, p + CubeWidth(cubes[0]) + 1, cubes[1..]);
    }
  }

  /** A set of two or more cubes laid out at `p`: its first cube, a comma,
      and the rest of the set, ending where the whole set ends. */
  lemma SetUnfold(s: string, p: nat, cubes: seq<Cube>)
    requires |cubes| > 1 && SetWritten(s, p, cubes)
    ensures CubeLaid(s, p, cubes[0])
    ensures p + CubeWidth(cubes[0]) < |s| && s[p + CubeWidth(cubes[0])] == ','
    ensures SetWritten(s, p + CubeWidth(cubes[0]) + 1, cubes[1..])
    ensures SetEnd(p, cubes) == SetEnd(p + CubeWidth(cubes[0]) + 1, cubes[1..])
  {
  }

  /** One step of reading a set: its first cube, the comma after it,
      then the rest of the set as already read. */
  lemma SetStep(s: string, p: nat, cubes: seq<Cube>, q: nat)
    requires cubes != [] && CubeLaid(s, p, cubes[0])
    requires p + CubeWidth(cubes[0]) < |s| && s[p + CubeWidth(cubes[0])] == ','
    requires q <= |s|
    requires CubesFrom(s, p + CubeWidth(cubes[0]) + 1) == cubes[1..] + CubesFrom(s, q)
    ensures CubesFrom(s, p) == cubes + CubesFrom(s, q)
  {
    var c := cubes[0];
    CubeAt(s, p, c);
    NonDigitSkipped(s, p + CubeWidth(c));
    assert CubesFrom(s, p) == [c] + (cubes[1..] + CubesFrom(s, q));
    AppendFront(cubes, CubesFrom(s, q));
  }

  lemma AppendFront(cubes: seq<Cube>, rest: seq<Cube>)
    requires cubes != []
    ensures [cubes[0]] + (cubes[1..] + rest) == cubes + rest
  {
    assert [cubes[0]] + cubes[1..] == cubes;
  }

  /** A laid-out set of one cube reads back as that cube. */
  lemma SetOne(s: string, p: nat, cubes: seq<Cube>)
    requires |cubes| == 1 && CubeLaid(s, p, cubes[0])
    ensures CubesFrom(s, p) == cubes + CubesFrom(s, SetEnd(p, cubes))
  {
    CubeAt(s, p, cubes[0]);
    assert cubes == [cubes[0]];
  }

  /** A laid-out set at `p` reads back as that set. */
  lemma {:induction false} SetAt(s: string, p: nat, cubes: seq<Cube>)
    requires SetWritten(s, p, cubes) && SetEnd(p, cubes) <= |s|
    ensures CubesFrom(s, p) == cubes + CubesFrom(s, SetEnd(p, cubes))
    decreases |cubes|
  {
    if |cubes| == 1 {
      SetOne(s, p, cubes);
    } else if |cubes| > 1 {
      var e := p + CubeWidth(cubes[0]) + 1;
      SetUnfold(s, p, cubes);
      SetAt(s, e, cubes[1..]);
      SetStep(s, p, cubes, SetEnd(e, cubes[1..]));
    }
  }

  /** The game-number pattern finds the header at the front of a line. */
  lemma GameNumberAt(num: nat, rest: string)
    ensures GameNumber(Header(num) + rest) == Some(num)
  {
    var d := Decimal(num);
    var s := Header(num) + rest;
    assert s == ['G', 'a', 'm', 'e', ' '] + d + [':'] + rest;
    assert forall k :: 0 <= k < |d| ==> s[5 + k] == d[k];
    forall k | 5 <= k < 5 + |d|
      ensures IsDigit(s[k])
    {
      assert s[k] == d[k - 5];
    }
    DigitRunIs(s, 5, |d|);
    assert s[5..5 + |d|] == d;
    DecimalRoundTrip(num);
    assert HeaderAt(s, 0);
  }

  /** The cube pattern finds nothing in the `Game N:` header. */
  lemma HeaderSkipped(num: nat, s: string)
    requires Header(num) <= s
    ensures CubesFrom(s, 0) == CubesFrom(s, |Header(num)|)
  {
    var d := Decimal(num);
    assert Header(num) == ['G', 'a', 'm', 'e', ' '] + d + [':'];
    assert forall k :: 0 <= k < |Header(num)| ==> s[k] == Header(num)[k];
    forall k | 5 <= k < 5 + |d|
      ensures IsDigit(s[k])
    {
      assert s[k] == d[k - 5];
    }
    NoDigitsFrom(s, 0, 5);
    DigitsColonFrom(s, 5, 5 + |d|);
  }

  /** A set written on its own reads back as that set. */
  lemma SetTextRead(cubes: seq<Cube>)
    ensures CubesIn(SetText(cubes)) == cubes
  {
    var text := SetText(cubes);
    WrittenSelf(text);
    SetTextWritten(text, 0, cubes);
    SetAt(text, 0, cubes);
    assert cubes + [] == cubes;
  }

  /** A set written after the `Game N:` header reads back as that set. */
  lemma HeadedSetRead(num: nat, cubes: seq<Cube>)
    ensures CubesIn(Header(num) + SetText(cubes)) == cubes
  {
    var h := Header(num);
    var piece := h + SetText(cubes);
    HeaderSkipped(num, piece);
    WrittenSelf(piece);
    WrittenSplit(piece, 0, h, SetText(cubes));
    SetTextWritten(piece, |h|, cubes);
    SetAt(piece, |h|, cubes);
    assert cubes + [] == cubes;
  }

  /** The pieces of a written line hold no `;` and no newline. */
  lemma PiecePlain(game: Game, i: nat)
    requires game.cubeSets != [] && i < |game.cubeSets|
    ensures ';' !in Pieces(game)[i] && '\n' !in Pieces(game)[i]
  {
    var d := Decimal(game.num);
    assert forall k :: 0 <= k < |d| ==> IsDigit(d[k]);
    SetTextPlain(game.cubeSets[i]);
    assert Header(game.num) == "Game " + d + ":";
  }

  /** Each piece of a written line reads back as its set. */
  lemma PieceRead(game: Game, i: nat)
    requires game.cubeSets != [] && i < |game.cubeSets|
    ensures CubesIn(Pieces(game)[i]) == game.cubeSets[i]
  {
    if i == 0 {
      assert Pieces(game)[i] == Header(game.num) + SetText(game.cubeSets[0]);
      HeadedSetRead(game.num, game.cubeSets[0]);
    } else {
      assert Pieces(game)[i] == SetText(game.cubeSets[i]);
      SetTextRead(game.cubeSets[i]);
    }
  }

  /** The pieces of a written line are the pieces it splits into. */
  lemma LinePieces(game: Game)
    requires game.cubeSets != []
    ensures Split(GameLine(game), ';') == Pieces(game)
    ensures '\n' !in GameLine(game)
  {
    var pieces := Pieces(game);
    forall i | 0 <= i < |pieces|
      ensures ';' !in pieces[i] && '\n' !in pieces[i]
    {
      PiecePlain(game, i);
    }
    JoinSplit(pieces, ';');
    JoinAvoids(pieces, ';', '\n');
  }

  /** The game-number pattern reads a written line's number. */
  lemma LineNumber(game: Game)
    requires game.cubeSets != []
    ensures GameNumber(GameLine(game)) == Some(game.num)
  {
    var pieces := Pieces(game);
    var tail := if |pieces| == 1 then "" else [';'] + Join(pieces[1..], ';');
    assert pieces[0] == Header(game.num) + SetText(game.cubeSets[0]);
    assert GameLine(game) == Header(game.num) + (SetText(game.cubeSets[0]) + tail);
    GameNumberAt(game.num, SetText(game.cubeSets[0]) + tail);
  }

  /** A written game line reads back as that game. */
  lemma GameRoundTrip(game: Game)
    requires game.cubeSets != []
    ensures HasNumber(GameLine(game)) && GameOf(GameLine(game)) == game
    ensures GameLine(game) != [] && '\n' !in GameLine(game)
  {
    var line := GameLine(game);
    var sets := game.cubeSets;
    LinePieces(game);
    LineNumber(game);
    forall i | 0 <= i < |sets|
      ensures CubeSets(line)[i] == sets[i]
    {
      PieceRead(game, i);
    }
    assert CubeSets(line) == sets;
  }

  /** A game file: one line per game. */
  function Listing(games: seq<Game>): (lines: seq<string>)
    requires WellFormed(games)
    ensures |lines| == |games|
  {
    seq(|games|, i requires 0 <= i < |games| => GameLine(games[i]))
  }

  /** A game file written from any games parses back to those games. */
  lemma InputRoundTrip(games: seq<Game>)
    requires WellFormed(games)
    ensures GameLines(JoinLines(Listing(games)))
    ensures Games(JoinLines(Listing(games))) == games
  {
    var lines := Listing(games);
    forall i | 0 <= i < |lines|
      ensures lines[i] != [] && '\n' !in lines[i]
      ensures HasNumber(lines[i]) && GameOf(lines[i]) == games[i]
    {
      GameRoundTrip(games[i]);
    }
    LinesRoundTrip(lines);
    DropEmptyKeeps(lines);
    if lines != [] {
      JoinSplit(lines, '\n');
    } else {
      assert Split(JoinLines(lines), '\n') == [""];
    }
    assert GameLines(JoinLines(lines));
    var parsed := Games(JoinLines(lines));
    assert forall i :: 0 <= i < |games| ==> parsed[i] == games[i];
  }
}
