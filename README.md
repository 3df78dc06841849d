# Advent of Code 2023, days 1 to 4, in Dafny

This project models four small Rust puzzle solvers. Each one reads a puzzle
input, given as text, and folds it into a number. Every solver is modelled
as the code is written, and the properties its code and unit tests promise
are proved about the model.

- **Day 1** (`day1.dfy`, module `Day1`). Calibration values.
  - `ExtractNumbers` keeps the literal digits of a line.
  - `ExtractTextNumbers` is the `while` loop that also reads the words
    `one` … `nine`. It looks at a window of at most five characters and
    tries the words in table order. Overlapping words each count.
  - `ParseInput` builds one list per non-empty line.
  - `Part1` and `Part2` sum `10 * first + last` over those lists.
- **Day 2** (`day2.dfy`, module `Day2`). Games of coloured cubes.
  - `ColorFrom` decodes a colour name.
  - `Game::from` uses two regular expressions. Here they are scanned by hand:
    `GameNumber` finds the leftmost `Game N:` and `CubesIn` finds every
    `<count>\s*<colour>`. `GameFrom` is the loop over the `;`-separated
    pieces.
  - `Highest` is the per-colour maximum. `PossibleTotal` and `PowerTotal`
    are the loops of `part_1` and `part_2`.
  - A game written back out as text (`GameLine`) parses to the same game.
- **Day 3** (`day3.dfy`, module `Day3`). An engine schematic as a grid of
  cells.
  - `part_1` is one row-major scan with a digit accumulator and an
    adjacency flag. Its state carries over row ends.
  - `part_2` seeds a map keyed by the positions of the `*` cogs, rescans the
    grid pushing numbers into the lists of the cogs they touch, and
    multiplies the sums of the lists that have fewer than two entries.
  - Both are methods proved equal to fold functions over the grid.
- **Day 4** (`day4.dfy`, module `Day4`). Scratch cards.
  - The character loop of `parse_input` switches from the winning numbers
    to the card's numbers at `|`. It records a number only when it is
    non-zero.
  - `part_1` scores `2^(m-1)` for `m > 0` matches.
  - `part_2` fills card scores from the last card back.
- **Shared text helpers** (`text.dfy`, module `Text`):
  - splitting on a separator, and its inverse `Join`;
  - dropping empty lines;
  - decimal digits and their value.

Each `dayN_examples.dfy` traces the unit tests and the puzzle's published
samples through the model.

Source and panics:
- Integers are unbounded `nat`s. The Rust `usize` arithmetic is taken not
  to overflow.
- Where the Rust code would panic, the model states a precondition instead:
  - an index out of range;
  - an `unwrap` of `None`;
  - a line with no digit in day 1;
  - a character outside ASCII in the input of day 1's `part_2`, whose byte
    slices would start inside it.
- `Color::from` is the one exception: it returns `Option`, because the
  scanner only ever passes it one of the three names.

## Model

| member | source | states |
|---|---|---|
| Text.Decimal | day_2/src/lib.rs:41-43 | the decimal spelling of a number is a non-empty run of ASCII digits without a leading zero |
| Text.DecimalRoundTrip | day_2/src/lib.rs:41-43 | `str::parse` of the decimal spelling of `n` gives `n` back |
| Text.Split | day_2/src/lib.rs:47 | splitting on a separator gives one more piece than there are separators, and no piece holds the separator |
| Text.SplitJoin | day_2/src/lib.rs:47 | joining the pieces of a split with the separator restores the text |
| Text.JoinSplit | day_2/src/lib.rs:47 | splitting pieces joined by a separator they avoid restores the pieces |
| Text.SplitAtSeparator | day_4/src/lib.rs:16-17 | the first piece of a split is the text before the first separator |
| Text.NonEmptyLines | day_1/src/lib.rs:52-55 | the lines kept by the input loops are non-empty and hold no newline |
| Text.DropEmptyAppend | day_1/src/lib.rs:52-58 | one more line adds itself to the kept lines when non-empty, and nothing otherwise |
| Text.DropEmptyKeeps | day_3/src/lib.rs:48-50 | no line is dropped when all lines are non-empty |
| Text.LinesRoundTrip | day_3/src/lib.rs:47-53 | lines joined with newlines and split again are the same lines, minus the empty ones, in the same order |
| Day1.ExtractNumbers | day_1/src/lib.rs:1-6 | the values are digits 0 to 9, and there are no more of them than characters |
| Day1.ExtractAppend | day_1/src/lib.rs:1-6 | the digits of a concatenation are the digits of each part in order |
| Day1.ExtractDigitText | day_1/src/lib.rs:1-6 | the digits written out as text are extracted back exactly, in order |
| Day1.ExtractNonEmpty | day_1/src/lib.rs:1-6 | a line yields a digit exactly when it contains an ASCII digit |
| Day1.ExtractAtPositions | day_1/src/lib.rs:1-6 | the values extracted are, in order, the values of the digits at the line's digit positions, and there are as many as there are digits |
| Day1.FirstWordMisses | day_1/src/lib.rs:17-32 | the word search finds nothing exactly when the window starts with none of the words |
| Day1.FirstWordFinds | day_1/src/lib.rs:17-32 | the word search returns the digit of the first word in table order that the window starts with, and nothing exactly when no word matches |
| Day1.Window | day_1/src/lib.rs:13 | the window at `i` is non-empty, at most five characters long and starts with the character at `i` |
| Day1.PushAt | day_1/src/lib.rs:34-41 | a position pushes at most one value: a word's digit 1 to 9, or the value of the digit standing there |
| Day1.DigitPushed | day_1/src/lib.rs:34-41 | a literal digit is always pushed with its own value, because no word starts with a digit |
| Day1.NothingPushed | day_1/src/lib.rs:34-41 | a character that is not a digit and starts none of the nine words pushes nothing |
| Day1.Scan | day_1/src/lib.rs:12-44 | the positions before `k` push at most `k` values, each at most 9 |
| Day1.FindWord | day_1/src/lib.rs:15-32 | the loop over the word table stops at the first word the window starts with |
| Day1.ExtractTextNumbers | day_1/src/lib.rs:8-47 | on an ASCII line, where byte and character positions coincide, the `while` loop returns exactly what the positions of the line push, in order |
| Day1.AsciiLines | day_1/src/lib.rs:52-58 | ASCII lines joined by newlines are ASCII text |
| Day1.DigitsSurviveWords | day_1/src/lib.rs:34-41 | the literal digits before `k` are a subsequence of the word-aware output before `k` |
| Day1.DigitsSurvive | day_1/src/lib.rs:1-47 | the part 1 digits of a line are a subsequence of its part 2 digits |
| Day1.SubsequenceLength | day_1/src/lib.rs:1-47 | a subsequence is no longer than the sequence it is taken from |
| Day1.DigitLinesAgree | day_1/src/lib.rs:8-47 | on a line of digits only, both extractions agree |
| Day1.ExtractAll | day_1/src/lib.rs:57-58 | one list per line, each the extraction of that line |
| Day1.ParseInput | day_1/src/lib.rs:48-61 | the loop gives one list per non-empty line, in input order |
| Day1.ExtractNext | day_1/src/lib.rs:51-58 | one more line of the split input adds its list when it is non-empty and nothing when it is empty |
| Day1.CalibrationDigits | day_1/src/lib.rs:67 | a line's value is at most 99, its tens digit is the first digit and its units digit the last |
| Day1.CalibrationSumBound | day_1/src/lib.rs:67 | the sum over `n` lines of digits is at most `99 * n` |
| Day1.Part1 | day_1/src/lib.rs:64-68 | part 1 is the sum of the line values of the literal digits, at most 99 per line |
| Day1.Part2 | day_1/src/lib.rs:70-74 | on ASCII input, part 2 is the sum of the line values of the word-aware digits, at most 99 per line |
| Day1.PartOneInputsFitPartTwo | day_1/src/lib.rs:64-74 | when part 1 finds a digit on every line, so does part 2, so an ASCII input part 1 accepts is also accepted by part 2 |
| Day1Examples.Digits123One | day_1/src/lib.rs:84-87 | `123one` gives 1, 2, 3, 1 |
| Day1Examples.Five2Eight5 | day_1/src/lib.rs:88-91 | `five2eight5` gives 5, 2, 8, 5 |
| Day1Examples.OneFourTimes | day_1/src/lib.rs:92-95 | `oneoneoneone` gives 1, 1, 1, 1 |
| Day1Examples.FourOneThree3 | day_1/src/lib.rs:96-99 | `fouronethree3` gives 4, 1, 3, 3 |
| Day1Examples.OnesOnly | day_1/src/lib.rs:100-103 | `1111` gives 1, 1, 1, 1 |
| Day1Examples.TwoneFour | day_1/src/lib.rs:104-107 | the overlapping words of `twonefour` give 2, 1, 4 |
| Day1Examples.WordAlone | day_1/src/lib.rs:109-117 | each word alone gives just its digit |
| Day1Examples.EmptyLine | day_1/src/lib.rs:118 | the empty line gives no digit |
| Day1Examples.PartOneSampleTotal | day_1/src/lib.rs:121-126 | the puzzle's part 1 sample lines add up to 142 |
| Day1Examples.PartTwoSampleTotal | day_1/src/lib.rs:135-140 | the puzzle's part 2 sample lines add up to 281 |
| Day1Examples.PartOneText | day_1/src/lib.rs:121-126 | the part 1 sample, as newline-separated text, has a digit on every line and gives 142 |
| Day1Examples.PartTwoText | day_1/src/lib.rs:135-140 | the part 2 sample, as newline-separated text, is ASCII, has a digit on every line and gives 281 |
| Day2.ColorFrom | day_2/src/lib.rs:13-22 | exactly `blue`, `red` and `green` decode, each to the colour of that name; every other string is refused |
| Day2.ColorRoundTrip | day_2/src/lib.rs:13-22 | each colour's name decodes to that colour |
| Day2.DigitRunFacts | day_2/src/lib.rs:38 | the greedy `[0-9]+` run is all digits and stops at the first non-digit |
| Day2.SpaceRunFacts | day_2/src/lib.rs:38 | the `\s*` run is all white space and stops at the first other character |
| Day2.NumberValueDecimal | day_2/src/lib.rs:49 | the captured count is the decimal value of the digits captured |
| Day2.NameAt | day_2/src/lib.rs:38 | a matched colour name fits in the text |
| Day2.MatchAt | day_2/src/lib.rs:38 | a match of the cube pattern at `p` ends after `p` and inside the text |
| Day2.GameNumberFrom | day_2/src/lib.rs:34-43 | the game-number search fails exactly when `Game N:` occurs nowhere from `p` on |
| Day2.GameNumberAt | day_2/src/lib.rs:41-43 | the game number of a line that starts `Game N:` is `N` |
| Day2.HeaderSkipped | day_2/src/lib.rs:38-48 | the cube pattern finds nothing in the `Game N:` header |
| Day2.CubeSets | day_2/src/lib.rs:45-53 | a line has one cube set per `;`-separated piece, so one more than it has `;`, and never none |
| Day2.GameOf | day_2/src/lib.rs:30-60 | a parsed game has at least one cube set |
| Day2.GameFrom | day_2/src/lib.rs:30-60 | the loop over the pieces builds the game number and the cube sets of the line |
| Day2.Games | day_2/src/lib.rs:62-66 | one game per non-empty input line, in order, each with at least one set |
| Day2.NumberedKept | day_2/src/lib.rs:62-66 | every kept line of an input that parses has a game number |
| Day2.SetHighestBounds | day_2/src/lib.rs:71-75 | a set's maximum of a colour bounds every count of it, and it is 0 or one of those counts |
| Day2.HighestBounds | day_2/src/lib.rs:68-78 | the game's maximum of a colour bounds every count of it, and it is 0 or one of those counts |
| Day2.HighestIsLeast | day_2/src/lib.rs:68-78 | the maximum is at most a bound exactly when the bound is at least every count of the colour |
| Day2.HighestZero | day_2/src/lib.rs:75 | the maximum is 0 exactly when no set holds a positive count of the colour |
| Day2.PossibleIff | day_2/src/lib.rs:92-94 | a game passes the test exactly when every count is within its colour's limit of 12 red, 13 green and 14 blue |
| Day2.PossibleTotal | day_2/src/lib.rs:84-97 | the loop adds the number of every game that passes the test |
| Day2.Part1 | day_2/src/lib.rs:80-100 | part 1 is the sum of the numbers of the games that pass the test |
| Day2.PossibleSumBound | day_2/src/lib.rs:80-100 | part 1 is at most the sum of all game numbers, and equals it when every game passes |
| Day2.Power | day_2/src/lib.rs:107-112 | the game score is the red, blue and green maxima multiplied |
| Day2.PowerTotal | day_2/src/lib.rs:106-115 | the loop adds every game's product of maxima |
| Day2.Part2 | day_2/src/lib.rs:102-118 | part 2 is the sum of the games' products of maxima |
| Day2.PowerPositive | day_2/src/lib.rs:107-112 | a game scores more than 0 exactly when each of the three colours shows a positive count; a missing colour gives 0 |
| Day2.CubeAt | day_2/src/lib.rs:48-50 | a cube laid out in the text is read as that cube, then the scan goes on after it |
| Day2.SetAt | day_2/src/lib.rs:48-50 | a comma-separated set laid out in the text is read as those cubes, in order |
| Day2.SetTextRead | day_2/src/lib.rs:48-50 | the text of any set reads back as that set |
| Day2.HeadedSetRead | day_2/src/lib.rs:41-50 | the first piece of a line, header and set, reads back as that set |
| Day2.PieceRead | day_2/src/lib.rs:47-52 | each piece of a written game reads back as its cube set |
| Day2.LinePieces | day_2/src/lib.rs:47 | a written game's line splits on `;` into its pieces and holds no newline |
| Day2.LineNumber | day_2/src/lib.rs:41-43 | a written game's line yields its game number |
| Day2.GameRoundTrip | day_2/src/lib.rs:30-60 | any game with at least one set, written as a line, parses back to that game |
| Day2.InputRoundTrip | day_2/src/lib.rs:62-66 | any games written one per line parse back to those games, in order |
| Day2Examples.Game1Highest | day_2/src/lib.rs:68-78 | sample game 1 has maxima 4 red, 2 green, 6 blue |
| Day2Examples.Game3Highest | day_2/src/lib.rs:68-78 | sample game 3 has maxima 20 red, 13 green, 6 blue |
| Day2Examples.Game4Highest | day_2/src/lib.rs:68-78 | sample game 4 has maxima 14 red, 3 green, 15 blue |
| Day2Examples.SampleSums | day_2/src/lib.rs:126-145 | on the five sample games part 1 gives 8 and part 2 gives 2286 |
| Day2Examples.Game1Line | day_2/src/lib.rs:30-60 | sample game 1 written out is the puzzle's first sample line |
| Day2Examples.SampleFile | day_2/src/lib.rs:126-145 | the written sample parses back to the five games, giving 8 and 2286 |
| Day2Examples.PurpleRefused | day_2/src/lib.rs:19 | an unknown colour name is refused |
| Day3.CellOf | day_3/src/lib.rs:33-45 | `.` is nothing; a digit is the number of its value, at most 9; `*` is a cog and nothing else is; the cell is a symbol or cog exactly when the character is neither `.` nor a digit |
| Day3.CellOfGlyph | day_3/src/lib.rs:33-45 | every kind of cell has a character that classifies as it |
| Day3.ParseGrid | day_3/src/lib.rs:47-53 | one row per non-empty line, with one cell per character |
| Day3.ParseGridText | day_3/src/lib.rs:47-53 | any grid of non-empty rows written one row per line parses back to itself |
| Day3.Step | day_3/src/lib.rs:65-95 | one cell records at most one number and never forgets one; it keeps the accumulator 0 outside a run |
| Day3.RowScan | day_3/src/lib.rs:65-96 | a row scan keeps the accumulator 0 outside a run |
| Day3.GridScan | day_3/src/lib.rs:64-97 | the state at the start of a row keeps the accumulator 0 outside a run |
| Day3.ScanPartNumbers | day_3/src/lib.rs:58-97 | the nested loops record exactly the numbers the cell-by-cell scan records, with its state carried over row ends |
| Day3.Part1 | day_3/src/lib.rs:55-100 | part 1 is the sum of the recorded numbers |
| Day3.NoMarkersNoParts | day_3/src/lib.rs:55-100 | a grid without a symbol or cog records nothing, so part 1 is 0 |
| Day3.DigitsFold | day_3/src/lib.rs:70-95 | along a run of digits the accumulator is `number * 10 + n`, nothing is recorded and the flag collects the vertical checks |
| Day3.AfterNonDigit | day_3/src/lib.rs:74-95 | after a cell that is not a digit no run is open, and the flag holds exactly when that cell is a symbol or cog or has one directly above or below |
| Day3.RecordsBoundedRun | day_3/src/lib.rs:70-94 | a run with a non-digit before it in the same row and ended by a non-digit is recorded exactly when it, or the cell ending it, touches a symbol or cog |
| Day3.DigitsRecordNothing | day_3/src/lib.rs:70-73 | digits never record a number |
| Day3.TrailingRunDropped | day_3/src/lib.rs:64-99 | a run still open at the last cell is never recorded |
| Day3.NowAdjacentCog | day_3/src/lib.rs:120-126 | the cog picked for a column is directly above or below; when both are cogs, the one below wins |
| Day3.Push | day_3/src/lib.rs:136-155 | a push keeps the registry's keys |
| Day3.CogStep | day_3/src/lib.rs:119-165 | a cell step keeps the registry's keys the cog positions, and every pending cog a key |
| Day3.Registry | day_3/src/lib.rs:105-167 | the registry's keys are exactly the positions of the cogs |
| Day3.SeedCogs | day_3/src/lib.rs:105-112 | the first loop maps each cog position to an empty list |
| Day3.PushToAll | day_3/src/lib.rs:139-155 | pushing to every pending cog appends the number to each of their lists |
| Day3.ScanCogCell | day_3/src/lib.rs:119-165 | one iteration of the second scan's inner loop does what the cell step says |
| Day3.ScanCogs | day_3/src/lib.rs:114-167 | the second scan fills the registry as the fold over all cells does |
| Day3.CogProductAny | day_3/src/lib.rs:169-172 | the product over the registry can take its factors in any order |
| Day3.CombineCogs | day_3/src/lib.rs:169-172 | the final loop multiplies the sum of each list with fewer than two entries, and 1 for the others |
| Day3.Part2 | day_3/src/lib.rs:102-173 | part 2 is that product over the filled registry |
| Day3.NoCogsGivesOne | day_3/src/lib.rs:169-172 | a grid without cogs gives 1 |
| Day3.FactorZero | day_3/src/lib.rs:170-171 | a list contributes 0 exactly when it is empty or just `[0]` |
| Day3.CogProductZero | day_3/src/lib.rs:169-172 | the product is 0 exactly when some list contributes 0 |
| Day3.UntouchedCogGivesZero | day_3/src/lib.rs:169-172 | a cog that no number touches forces part 2 to 0 |
| Day3.LongListsGiveOne | day_3/src/lib.rs:169-172 | when every list has at least two entries the product is 1 |
| Day3Examples.SamplePartNumbers | day_3/src/lib.rs:181-186 | the sample grid records 467, 35, 633, 617, 592, 755, 664, 598, which add up to 4361 |
| Day3Examples.SampleText | day_3/src/lib.rs:181-186 | the sample, as newline-separated text, parses to that rectangular grid, whose part 1 is 4361 |
| Day3Examples.RunAcrossRows | day_3/src/lib.rs:64-97 | a run open at a row's end goes on into the next row |
| Day3Examples.LastRunDropped | day_3/src/lib.rs:64-99 | a run ending at the last cell is not recorded |
| Day3Examples.SingleNumberGear | day_3/src/lib.rs:133-172 | a cog touched by one number contributes that number |
| Day3Examples.TwoNumberGear | day_3/src/lib.rs:133-172 | a cog touched by two numbers contributes 1, not their product |
| Day4.Feed | day_4/src/lib.rs:23-33 | one character keeps the numbers read so far and keeps them non-zero; after the bar the winning numbers no longer change |
| Day4.Read | day_4/src/lib.rs:23-33 | the whole loop keeps the numbers read so far and keeps them non-zero; after the bar the winning numbers no longer change |
| Day4.ReadAppend | day_4/src/lib.rs:23-33 | reading two texts one after the other is reading their concatenation |
| Day4.ReadDigits | day_4/src/lib.rs:25-26 | a run of digits accumulates its decimal value |
| Day4.Finish | day_4/src/lib.rs:35-37 | a pending 0 adds nothing at the end, and the recorded numbers stay non-zero |
| Day4.PendingFlushed | day_4/src/lib.rs:35-37 | a non-zero number at the end of the text goes into the current list |
| Day4.CardOf | day_4/src/lib.rs:19-37 | no recorded number is 0 |
| Day4.ReadNumbers | day_4/src/lib.rs:19-37 | the character loop builds the card the character fold describes |
| Day4.FirstColon | day_4/src/lib.rs:16-17 | the scanned text is what lies between the first and the second `:` |
| Day4.CardsOf | day_4/src/lib.rs:13-39 | one card per line, read from the text after its first `:` |
| Day4.Cards | day_4/src/lib.rs:10-43 | one card per non-empty line |
| Day4.ParseLines | day_4/src/lib.rs:13-42 | the line loop gives one card per non-empty line, in order |
| Day4.ParseInput | day_4/src/lib.rs:10-43 | `parse_input` gives the cards of the non-empty lines, in order |
| Day4.ParseStep | day_4/src/lib.rs:13-39 | an empty line adds no card; any other line adds the card read from it |
| Day4.CardTextRoundTrip | day_4/src/lib.rs:19-37 | any card of non-zero numbers, written out, reads back as itself |
| Day4.CardLineRoundTrip | day_4/src/lib.rs:13-39 | a written card line parses back to its card |
| Day4.InputRoundTrip | day_4/src/lib.rs:10-43 | cards written one per line parse back to those cards, in order |
| Day4.Matches | day_4/src/lib.rs:49-51 | a card matches at most as many numbers as it has |
| Day4.MatchesExtremes | day_4/src/lib.rs:49-51 | all numbers match exactly when each is a winning number, none exactly when none is |
| Day4.PointsDouble | day_4/src/lib.rs:52-53 | points are positive exactly when there is a match, start at 1 and double with each further match |
| Day4.PointsBound | day_4/src/lib.rs:52-53 | points are at most `2^(n-1)` for a card of `n` numbers |
| Day4.Part1 | day_4/src/lib.rs:45-55 | part 1 is the sum of the cards' points |
| Day4.TotalPointsZero | day_4/src/lib.rs:45-55 | part 1 is 0 exactly when no card matches |
| Day4.Score | day_4/src/lib.rs:63-70 | a card stands for at least itself plus one card per match |
| Day4.ScoreCards | day_4/src/lib.rs:60-73 | the back-to-front loop gives each card exactly the score of the recurrence |
| Day4.Part2 | day_4/src/lib.rs:57-77 | part 2 is the sum of all card scores |
| Day4.TotalScoreBound | day_4/src/lib.rs:57-77 | part 2 is at least the number of cards |
| Day4.NoMatchesTotal | day_4/src/lib.rs:57-77 | with no matches anywhere, each card scores 1 |
| Day4.LastCardScore | day_4/src/lib.rs:62-72 | the last card can win nothing and scores 1 |
| Day4Examples.SamplePoints | day_4/src/lib.rs:85-90 | the sample cards score 13 points |
| Day4Examples.SampleScores | day_4/src/lib.rs:99-104 | the sample cards end up as 30 cards |
| Day4Examples.SampleFile | day_4/src/lib.rs:85-104 | the written sample parses back to its cards and gives 13 and 30 |
| Day4Examples.BarAfterDigit | day_4/src/lib.rs:27-32 | a `|` right after a digit ends the number and does not switch lists |
| Day4Examples.ZeroDropped | day_4/src/lib.rs:27-29 | a literal `0` is not recorded |

## Left out

- Reading input files (`common/src/lib.rs`), the `bin` entry points that print the answers, and the random input generator in `misc/`. These are I/O and randomness.
- The `*_actual` unit tests. They read `input.txt` files, which are not part of this model.
- The sample files `test.txt`, `test1.txt` and `test2.txt` are not part of this model either. The examples state the puzzle's published samples as parsed records or literal lines, and for days 2 and 4 prove that the records written out parse back to themselves.
- The day 3 `part_2_test` expectation of 467835. The code as written multiplies the sums of the lists with fewer than two entries (day_3/src/lib.rs:169-172), so it does not compute the sum of gear ratios. The model follows the code, and `Day3Examples.TwoNumberGear` shows the difference on a small grid.
- `Display` for the day 3 cells. It is formatting only and nothing calls it.
- The `regex` crate and the `OnceCell` statics of day 2. The two patterns are scanned by hand.
  - `\s` is the Unicode `White_Space` set and `[0-9]` is ASCII digits.
  - The scan takes the leftmost match, the whole digit run and the first colour alternative that matches.
  - The compiled-once caching has no visible effect and is not modelled.
- Day2.GameRoundTrip: proved for lines written in the puzzle's layout (`Game N: 3 blue, 4 red; …`). The scanner itself is defined on any text.
- Overflow: `usize` arithmetic, and the `i32` arithmetic of days 3 and 4, are unbounded `nat`s here.
- The Rust panics become preconditions:
  - `v[0]` on a line without digits (day 1);
  - the `unwrap`s on the game number and on a missing score (days 2 and 4);
  - `splitted_line[1]` on a line without `:` (day 4);
  - rows of different lengths, because `matrix[y ± 1][x]` is indexed (day 3).
    `Rectangular` is exactly what `part_2` needs (day_3/src/lib.rs:121, 124).
    `part_1` asks less: the `||` at day_3/src/lib.rs:66-67 skips the row
    below when the row above already holds a symbol, so some ragged grids,
    such as the rows `##`, `..`, `.`, run without a panic. The model asks
    for rectangular grids in both parts.
- Day1.ParseInput: it takes the extraction function as a parameter, as the Rust code does with `extract_fn`.
- Iteration order of `HashMap`s:
  - Day 3's `values().product()` and day 4's `values().sum()` are order-independent. Day 3 proves this with `CogProductAny`.
  - Day 4's score map is a Dafny `map` keyed by card index.
- Day1.Window: the model slices characters. The Rust code slices bytes, and `part_2` panics on any line holding a character outside ASCII, because some byte index lands inside that character. So Day1.ExtractTextNumbers and Day1.Part2 require ASCII text, on which bytes and characters coincide.
- Day4.FirstColon: the Rust code scans only `splitted_line[1]`, the text between the first and the second `:`, not all of the text after the first `:`. The model follows the code.
- Day2.Part1, Day2.Part2: the per-game loops are the methods `PossibleTotal` and `PowerTotal`. The per-game `HashMap` of `part_1` is a local `map` in `PossibleTotal`.
