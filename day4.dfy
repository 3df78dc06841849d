/** Day 4: scratch cards. Each line `Card N: <winning numbers> | <numbers
    on the card>` is read character by character into a card; part 1 adds
    up a power-of-two score per card, part 2 counts the cards won by a
    back-to-front recurrence. */
module Day4 {
  import opened Text

  datatype Card = Card(winningNumbers: seq<nat>, cardsNumbers: seq<nat>)

  /** Every number held by the card is positive. */
  predicate Positive(card: Card) {
    (forall i :: 0 <= i < |card.winningNumbers| ==> card.winningNumbers[i] > 0) &&
    (forall i :: 0 <= i < |card.cardsNumbers| ==> card.cardsNumbers[i] > 0)
  }

  // ---------------------------------------------------------------------
  // Reading the numbers of one line
  // ---------------------------------------------------------------------

  /** The state of the character loop: the number being read, whether the
      target list is already `cards_numbers` (the `array` reference), and
      the card built so far. */
  datatype Reader = Reader(num: nat, afterBar: bool, card: Card)

  const Fresh := Reader(0, false, Card([], []))

  /** Appends `n` to the list the reader currently targets. */
  function Record(card: Card, afterBar: bool, n: nat): Card {
    if afterBar then card.(cardsNumbers := card.cardsNumbers + [n])
    else card.(winningNumbers := card.winningNumbers + [n])
  }

  /** One character: a digit extends the number; any other character ends
      a pending non-zero number; only a `|` met with no number pending
      switches to the card's own numbers. */
  function Feed(st: Reader, c: char): (r: Reader)
    ensures Positive(st.card) ==> Positive(r.card)
    ensures st.afterBar ==> r.afterBar && r.card.winningNumbers == st.card.winningNumbers
    ensures st.card.winningNumbers <= r.card.winningNumbers
    ensures st.card.cardsNumbers <= r.card.cardsNumbers
  {
    if IsDigit(c) then st.(num := st.num * 10 + DigitValue(c))
    else if st.num != 0 then Reader(0, st.afterBar, Record(st.card, st.afterBar, st.num))
    else if c == '|' then st.(afterBar := true)
    else st
  }

  /** The loop over the characters of `s`, from state `st`. */
  function Read(st: Reader, s: string): (r: Reader)
    ensures Positive(st.card) ==> Positive(r.card)
    ensures st.afterBar ==> r.afterBar && r.card.winningNumbers == st.card.winningNumbers
    ensures st.card.winningNumbers <= r.card.winningNumbers
    ensures st.card.cardsNumbers <= r.card.cardsNumbers
  {
    if s == [] then st else Feed(Read(st, s[..|s| - 1]), s[|s| - 1])
  }

  /** After the loop a pending non-zero number goes to the current list. */
  function Finish(st: Reader): (card: Card)
    ensures Positive(st.card) ==> Positive(card)
    ensures st.num == 0 ==> card == st.card
  {
    if st.num != 0 then Record(st.card, st.afterBar, st.num) else st.card
  }

  /** The card read from the numbers part of a line. */
  function CardOf(text: string): (card: Card)
    ensures Positive(card)
  {
    Finish(Read(Fresh, text))
  }

  /** `line.split(':').collect()[1]`: the text between the first colon and
      the next one (or the end of the line). */
  function NumbersText(line: string): string
    requires ':' in line
  {
    CountPositive(line, ':');
    Split(line, ':')[1]
  }

  method ReadNumbers(text: string) returns (card: Card)
    ensures card == CardOf(text)
  {
    var num: nat := 0;
    var afterBar := false;
    var winningNumbers: seq<nat> := [];
    var cardsNumbers: seq<nat> := [];
    var i := 0;
    while i < |text|
      invariant i <= |text|
      invariant Reader(num, afterBar, Card(winningNumbers, cardsNumbers)) == Read(Fresh, text[..i])
    {
      var c := text[i];
      assert text[..i + 1][..i] == text[..i];
      if IsDigit(c) {
        num := num * 10 + DigitValue(c);
      } else if num != 0 {
        if afterBar {
          cardsNumbers := cardsNumbers + [num];
        } else {
          winningNumbers := winningNumbers + [num];
        }
        num := 0;
      } else if c == '|' {
        afterBar := true;
      }
      i := i + 1;
    }
    assert text[..i] == text;
    if num != 0 {
      if afterBar {
        cardsNumbers := cardsNumbers + [num];
      } else {
        winningNumbers := winningNumbers + [num];
      }
    }
    card := Card(winningNumbers, cardsNumbers);
  }

  // ---------------------------------------------------------------------
  // Reading the whole input
  // ---------------------------------------------------------------------

  /** Every non-empty piece has a colon (otherwise indexing the split line
      panics). */
  predicate CardPieces(lines: seq<string>) {
    forall i :: 0 <= i < |lines| && lines[i] != [] ==> ':' in lines[i]
  }

  predicate CardLines(input: string) {
    CardPieces(Split(input, '\n'))
  }

  /** One card per line, in order. */
  function CardsOf(lines: seq<string>): (cards: seq<Card>)
    requires Colons(lines)
    ensures |cards| == |lines|
    ensures forall i :: 0 <= i < |lines| ==> cards[i] == CardOf(NumbersText(lines[i]))
  {
    if lines == [] then []
    else CardsOf(lines[..|lines| - 1]) + [CardOf(NumbersText(lines[|lines| - 1]))]
  }

  /** The cards of the input: one per non-empty line, in order. */
  function Cards(input: string): (cards: seq<Card>)
    requires CardLines(input)
    ensures |cards| == |NonEmptyLines(input)|
  {
    PiecesColons(Split(input, '\n'));
    CardsOf(NonEmptyLines(input))
  }

  lemma {:induction false} PiecesColons(lines: seq<string>)
    requires CardPieces(lines)
    ensures Colons(DropEmpty(lines))
  {
    if lines != [] {
      PiecesColons(lines[1..]);
    }
  }

  method ParseInput(input: string) returns (cards: seq<Card>)
    requires CardLines(input)
    ensures cards == Cards(input)
  {
    cards := ParseLines(Split(input, '\n'));
  }

  /** The loop over the lines of the input, skipping empty ones. */
  method ParseLines(lines: seq<string>) returns (cards: seq<Card>)
    requires CardPieces(lines)
    ensures Colons(DropEmpty(lines))
    ensures cards == CardsOf(DropEmpty(lines))
  {
    cards := [];
    var i := 0;
    while i < |lines|
      invariant i <= |lines|
      invariant Colons(DropEmpty(lines[..i]))
      invariant cards == CardsOf(DropEmpty(lines[..i]))
    {
      var line := lines[i];
      ParseStep(lines, i);
      if line != [] {
        var newCard := ReadNumbers(NumbersText(line));
        cards := cards + [newCard];
      }
      i := i + 1;
    }
    assert lines[..i] == lines;
  }

  predicate Colons(lines: seq<string>) {
    forall j :: 0 <= j < |lines| ==> ':' in lines[j]
  }

  /** One more line of the split input: an empty one adds no card, any other
      adds the card read from it. */
  lemma ParseStep(lines: seq<string>, i: nat)
    requires i < |lines| && (lines[i] != [] ==> ':' in lines[i])
    requires Colons(DropEmpty(lines[..i]))
    ensures Colons(DropEmpty(lines[..i + 1]))
    ensures CardsOf(DropEmpty(lines[..i + 1])) ==
      CardsOf(DropEmpty(lines[..i])) + (if lines[i] == [] then [] else [CardOf(NumbersText(lines[i]))])
  {
    var line := lines[i];
    var before := DropEmpty(lines[..i]);
    var after := DropEmpty(lines[..i + 1]);
    assert lines[..i + 1] == lines[..i] + [line];
    DropEmptyAppend(lines[..i], line);
    if line != [] {
      assert after == before + [line];
      ColonsAppend(before, line);
      assert after[..|after| - 1] == before;
    } else {
      assert after == before;
    }
  }

  lemma ColonsAppend(lines: seq<string>, line: string)
    requires Colons(lines) && ':' in line
    ensures Colons(lines + [line])
  {
  }

  // ---------------------------------------------------------------------
  // Part 1
  // ---------------------------------------------------------------------

  /** How many of `numbers` appear among `winning` (with repetitions). */
  function Matches(winning: seq<nat>, numbers: seq<nat>): (m: nat)
    ensures m <= |numbers|
  {
    if numbers == [] then 0
    else (if numbers[0] in winning then 1 else 0) + Matches(winning, numbers[1..])
  }

  /** All numbers match exactly when the count is the length; none match
      exactly when it is zero. */
  lemma {:induction false} MatchesExtremes(winning: seq<nat>, numbers: seq<nat>)
    ensures Matches(winning, numbers) == |numbers| <==> forall i :: 0 <= i < |numbers| ==> numbers[i] in winning
    ensures Matches(winning, numbers) == 0 <==> forall i :: 0 <= i < |numbers| ==> numbers[i] !in winning
  {
    if numbers != [] {
      var rest := numbers[1..];
      MatchesExtremes(winning, rest);
      assert forall i :: 1 <= i < |numbers| ==> numbers[i] == rest[i - 1];
      assert forall i :: 0 <= i < |rest| ==> rest[i] == numbers[i + 1];
    }
  }

  function CardMatches(card: Card): nat {
    Matches(card.winningNumbers, card.cardsNumbers)
  }

  function Pow2(k: nat): (r: nat)
    ensures r >= 1
  {
    if k == 0 then 1 else 2 * Pow2(k - 1)
  }

  /** The score of a card with `m` matches: nothing, or 2^(m-1). */
  function Points(m: nat): nat {
    if m == 0 then 0 else Pow2(m - 1)
  }

  function TotalPoints(cards: seq<Card>): nat {
    if cards == [] then 0
    else TotalPoints(cards[..|cards| - 1]) + Points(CardMatches(cards[|cards| - 1]))
  }

  method Part1(input: string) returns (total: nat)
    requires CardLines(input)
    ensures total == TotalPoints(Cards(input))
  {
    var cards := ParseInput(input);
    total := TotalPoints(cards);
  }

  /** A card scores iff it has a match, and each further match doubles its
      score. */
  lemma PointsDouble(m: nat)
    ensures Points(m) > 0 <==> m > 0
    ensures m > 0 ==> Points(m + 1) == 2 * Points(m)
    ensures Points(1) == 1
  {
  }

  /** The total is zero exactly when no card has a match. */
  lemma {:induction false} TotalPointsZero(cards: seq<Card>)
    ensures TotalPoints(cards) == 0 <==> forall i :: 0 <= i < |cards| ==> CardMatches(cards[i]) == 0
  {
    if cards != [] {
      var init := cards[..|cards| - 1];
      TotalPointsZero(init);
      PointsDouble(CardMatches(cards[|cards| - 1]));
      assert forall i :: 0 <= i < |init| ==> init[i] == cards[i];
    }
  }

  /** A card can score at most 2^(n-1) with n numbers of its own. */
  lemma PointsBound(card: Card)
    requires |card.cardsNumbers| > 0
    ensures Points(CardMatches(card)) <= Pow2(|card.cardsNumbers| - 1)
  {
    var m := CardMatches(card);
    if m > 0 {
      Pow2Monotone(m - 1, |card.cardsNumbers| - 1);
    }
  }

  lemma {:induction false} Pow2Monotone(j: nat, k: nat)
    requires j <= k
    ensures Pow2(j) <= Pow2(k)
  {
    if j < k {
      Pow2Monotone(j, k - 1);
    }
  }

  // ---------------------------------------------------------------------
  // Part 2
  // ---------------------------------------------------------------------

  /** No card wins copies of cards past the end of the table (the lookup
      would otherwise find no score and panic). */
  predicate Fits(cards: seq<Card>) {
    forall i :: 0 <= i < |cards| ==> i + CardMatches(cards[i]) < |cards|
  }

  /** How many cards card `i` stands for: itself and everything the cards
      it wins stand for. */
  function Score(cards: seq<Card>, i: nat): (s: nat)
    requires Fits(cards) && i < |cards|
    ensures s >= 1 + CardMatches(cards[i])
    decreases |cards| - i, 1
  {
    1 + Following(cards, i, CardMatches(cards[i]))
  }

  /** The scores of the `k` cards after card `i`. */
  function Following(cards: seq<Card>, i: nat, k: nat): (s: nat)
    requires Fits(cards) && i + k < |cards|
    ensures s >= k
    decreases |cards| - i, 0, k
  {
    if k == 0 then 0 else Following(cards, i, k - 1) + Score(cards, i + k)
  }

  /** The scores of the first `k` cards. */
  function ScoreSum(cards: seq<Card>, k: nat): (s: nat)
    requires Fits(cards) && k <= |cards|
    ensures s >= k
  {
    if k == 0 then 0 else ScoreSum(cards, k - 1) + Score(cards, k - 1)
  }

  function TotalScore(cards: seq<Card>): nat
    requires Fits(cards)
  {
    ScoreSum(cards, |cards|)
  }

  /** The reverse loop filling the score table. */
  method ScoreCards(cards: seq<Card>) returns (scores: map<nat, nat>)
    requires Fits(cards)
    ensures forall j: nat :: j in scores <==> j < |cards|
    ensures forall j: nat :: j < |cards| ==> scores[j] == Score(cards, j)
  {
    scores := map[];
    var k := |cards|;
    while k > 0
      invariant k <= |cards|
      invariant forall j: nat :: j in scores <==> k <= j < |cards|
      invariant forall j: nat :: k <= j < |cards| ==> scores[j] == Score(cards, j)
    {
      k := k - 1;
      var index := k;
      var amountOfWinningCards := Matches(cards[index].winningNumbers, cards[index].cardsNumbers);
      var score := 1;
      for i := 1 to amountOfWinningCards + 1
        invariant score == 1 + Following(cards, index, i - 1)
      {
        score := score + scores[i + index];
      }
      scores := scores[index := score];
    }
  }

  method Part2(input: string) returns (total: nat)
    requires CardLines(input) && Fits(Cards(input))
    ensures total == TotalScore(Cards(input))
  {
    var cards := ParseInput(input);
    var scores := ScoreCards(cards);
    total := 0;
    for k := 0 to |cards|
      invariant total == ScoreSum(cards, k)
    {
      total := total + scores[k];
    }
  }

  /** Every card counts at least once. */
  lemma TotalScoreBound(cards: seq<Card>)
    requires Fits(cards)
    ensures TotalScore(cards) >= |cards|
  {
  }

  /** Without any match, every card is worth just itself. */
  lemma {:induction false} NoMatchesTotal(cards: seq<Card>, k: nat)
    requires Fits(cards) && k <= |cards|
    requires forall i :: 0 <= i < |cards| ==> CardMatches(cards[i]) == 0
    ensures ScoreSum(cards, k) == k
  {
    if k > 0 {
      NoMatchesTotal(cards, k - 1);
      assert Following(cards, k - 1, 0) == 0;
    }
  }

  /** The last card can win nothing, so it is worth exactly itself. */
  lemma LastCardScore(cards: seq<Card>)
    requires Fits(cards) && |cards| > 0
    ensures CardMatches(cards[|cards| - 1]) == 0
    ensures Score(cards, |cards| - 1) == 1
  {
  }

  // ---------------------------------------------------------------------
  // Properties of the reader
  // ---------------------------------------------------------------------

  /** Reading two texts one after the other is reading them joined. */
  lemma {:induction false} ReadAppend(st: Reader, a: string, b: string)
    ensures Read(st, a + b) == Read(Read(st, a), b)
  {
    if b != [] {
      assert (a + b)[..|a + b| - 1] == a + b[..|b| - 1];
      ReadAppend(st, a, b[..|b| - 1]);
    } else {
      assert a + b == a;
    }
  }

  /** A run of digits read with nothing pending leaves its decimal value
      pending. */
  lemma {:induction false} ReadDigits(st: Reader, s: string)
    requires st.num == 0 && AllDigits(s)
    ensures Read(st, s) == st.(num := DecimalValue(s))
  {
    if s != [] {
      ReadDigits(st, s[..|s| - 1]);
    }
  }

  /** The numbers of a list, each followed by one space. */
  function Spelled(l: seq<nat>): string {
    if l == [] then "" else Spelled(l[..|l| - 1]) + Decimal(l[|l| - 1]) + " "
  }

  /** The text of a card's numbers in the puzzle's layout. */
  function CardText(card: Card): string {
    " " + Spelled(card.winningNumbers) + "| " + Spelled(card.cardsNumbers)
  }

  /** A full line for card `id`. */
  function CardLine(id: nat, card: Card): string {
    "Card " + Decimal(id) + ":" + CardText(card)
  }

  lemma {:induction false} SpelledChars(l: seq<nat>)
    ensures ':' !in Spelled(l) && '\n' !in Spelled(l) && '|' !in Spelled(l)
  {
    if l != [] {
      SpelledChars(l[..|l| - 1]);
      var d := Decimal(l[|l| - 1]);
      assert forall i :: 0 <= i < |d| ==> IsDigit(d[i]);
    }
  }

  /** One positive number followed by a space, read with nothing pending,
      is recorded in the current list. */
  lemma ReadOneNumber(st: Reader, n: nat)
    requires st.num == 0 && n > 0
    ensures Read(st, Decimal(n) + " ") == Reader(0, st.afterBar, Record(st.card, st.afterBar, n))
  {
    ReadAppend(st, Decimal(n), " ");
    ReadDigits(st, Decimal(n));
    DecimalRoundTrip(n);
    var mid := st.(num := n);
    assert Read(mid, " ") == Feed(Read(mid, ""), ' ');
  }

  /** Reading spelled positive numbers with nothing pending appends them, in
      order, to the current list. */
  lemma {:induction false} ReadSpelled(st: Reader, l: seq<nat>)
    requires st.num == 0
    requires forall i :: 0 <= i < |l| ==> l[i] > 0
    ensures Read(st, Spelled(l)) == Reader(0, st.afterBar, RecordAll(st.card, st.afterBar, l))
  {
    if l != [] {
      var init := l[..|l| - 1];
      var n := l[|l| - 1];
      ReadSpelled(st, init);
      var mid := Read(st, Spelled(init));
      ReadAppend(st, Spelled(init), Decimal(n) + " ");
      assert Spelled(init) + (Decimal(n) + " ") == Spelled(l);
      ReadOneNumber(mid, n);
    }
  }

  /** `Record` for each number of `l` in turn. */
  function RecordAll(card: Card, afterBar: bool, l: seq<nat>): (r: Card)
    ensures afterBar ==> r == card.(cardsNumbers := card.cardsNumbers + l)
    ensures !afterBar ==> r == card.(winningNumbers := card.winningNumbers + l)
  {
    if l == [] then card
    else
      var init := l[..|l| - 1];
      assert init + [l[|l| - 1]] == l;
      Record(RecordAll(card, afterBar, init), afterBar, l[|l| - 1])
  }

  /** A card written in the puzzle's layout reads back as itself, provided
      it holds no zero (a zero is never recorded). */
  lemma CardTextRoundTrip(card: Card)
    requires Positive(card)
    ensures CardOf(CardText(card)) == card
  {
    var w := Spelled(card.winningNumbers);
    var c := Spelled(card.cardsNumbers);
    var s1 := Reader(0, false, Card(card.winningNumbers, []));
    var s2 := Reader(0, true, Card(card.winningNumbers, []));
    ReadAppend(Fresh, " ", w);
    ReadAppend(Fresh, " " + w, "| ");
    ReadAppend(Fresh, " " + w + "| ", c);
    assert " " + w + "| " + c == CardText(card);
    LeadingSpace();
    ReadSpelled(Fresh, card.winningNumbers);
    assert Read(Fresh, " " + w) == s1;
    BarSpace(s1);
    assert Read(Fresh, " " + w + "| ") == s2;
    ReadSpelled(s2, card.cardsNumbers);
    assert Read(s2, c) == Reader(0, true, card);
  }

  lemma LeadingSpace()
    ensures Read(Fresh, " ") == Fresh
  {
    assert " "[..0] == "";
  }

  /** A `|` met with nothing pending switches lists; the space after it
      changes nothing. */
  lemma BarSpace(st: Reader)
    requires st.num == 0
    ensures Read(st, "| ") == st.(afterBar := true)
  {
    assert "| "[..1] == "|";
    assert "|"[..0] == "";
    assert Read(st, "|") == Feed(st, '|') == st.(afterBar := true);
    assert Read(st, "| ") == Feed(Read(st, "|"), ' ');
  }

  /** Only the text after the first colon, up to any further colon, is
      read. */
  lemma FirstColon(a: string, b: string)
    requires ':' !in a
    ensures ':' in a + ":" + b
    ensures NumbersText(a + ":" + b) == Split(b, ':')[0]
  {
    assert (a + ":" + b)[|a|] == ':';
    SplitAtSeparator(a, b, ':');
  }

  /** A line written for a card reads back as that card. */
  lemma CardLineRoundTrip(id: nat, card: Card)
    requires Positive(card)
    ensures ':' in CardLine(id, card)
    ensures CardOf(NumbersText(CardLine(id, card))) == card
  {
    var d := Decimal(id);
    assert forall i :: 0 <= i < |d| ==> IsDigit(d[i]);
    assert ':' !in "Card " + d;
    SpelledChars(card.winningNumbers);
    SpelledChars(card.cardsNumbers);
    var t := CardText(card);
    assert ':' !in t;
    assert CardLine(id, card) == "Card " + d + ":" + t;
    FirstColon("Card " + d, t);
    SplitPlain(t, ':');
    CardTextRoundTrip(card);
  }

  /** A number still pending at the end of the line is recorded in the
      list being filled. */
  lemma PendingFlushed(s: string, n: nat)
    requires Read(Fresh, s).num == 0 && n > 0
    ensures CardOf(s + Decimal(n)) == Record(Read(Fresh, s).card, Read(Fresh, s).afterBar, n)
  {
    ReadAppend(Fresh, s, Decimal(n));
    ReadDigits(Read(Fresh, s), Decimal(n));
    DecimalRoundTrip(n);
  }

  /** The lines of a card file, numbered from 1. */
  function Listing(cards: seq<Card>): (lines: seq<string>)
    ensures |lines| == |cards|
  {
    seq(|cards|, i requires 0 <= i < |cards| => CardLine(i + 1, cards[i]))
  }

  /** A card file written from positive cards parses back to those cards. */
  lemma InputRoundTrip(cards: seq<Card>)
    requires forall i :: 0 <= i < |cards| ==> Positive(cards[i])
    ensures CardLines(JoinLines(Listing(cards)))
    ensures Cards(JoinLines(Listing(cards))) == cards
  {
    var lines := Listing(cards);
    forall i | 0 <= i < |lines|
      ensures lines[i] != [] && '\n' !in lines[i] && ':' in lines[i]
      ensures CardOf(NumbersText(lines[i])) == cards[i]
    {
      ListingLine(cards, i);
    }
    LinesRoundTrip(lines);
    DropEmptyKeeps(lines);
    assert NonEmptyLines(JoinLines(lines)) == lines;
    if lines != [] {
      JoinSplit(lines, '\n');
    } else {
      assert Split(JoinLines(lines), '\n') == [""];
    }
    assert CardLines(JoinLines(lines));
    var parsed := Cards(JoinLines(lines));
    assert parsed == CardsOf(lines);
    assert forall i :: 0 <= i < |cards| ==> parsed[i] == cards[i];
  }

  lemma ListingLine(cards: seq<Card>, i: nat)
    requires i < |cards| && Positive(cards[i])
    ensures Listing(cards)[i] != [] && '\n' !in Listing(cards)[i] && ':' in Listing(cards)[i]
    ensures CardOf(NumbersText(Listing(cards)[i])) == cards[i]
  {
    var d := Decimal(i + 1);
    assert forall k :: 0 <= k < |d| ==> IsDigit(d[k]);
    SpelledChars(cards[i].winningNumbers);
    SpelledChars(cards[i].cardsNumbers);
    var line := Listing(cards)[i];
    assert line == "Card " + d + ":" + CardText(cards[i]);
    assert line[0] == 'C';
    assert '\n' !in "Card " + d;
    assert '\n' !in CardText(cards[i]);
    CardLineRoundTrip(i + 1, cards[i]);
  }
}
