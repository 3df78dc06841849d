/** The worked sample of the day 3 puzzle (the ten-row grid that starts
    `467..114..`), traced through both scans, and small grids that show how
    the code as written treats row edges and two-number gears. The sample is
    stated as the parsed grid and tied to its text by `SampleText`. */
module Day3Examples {
  import opened Text
  import opened Day3

  const SampleGrid: Grid := [
    [Number(4), Number(6), Number(7), Nothing, Nothing, Number(1), Number(1), Number(4), Nothing, Nothing],
    [Nothing, Nothing, Nothing, Cog, Nothing, Nothing, Nothing, Nothing, Nothing, Nothing],
    [Nothing, Nothing, Number(3), Number(5), Nothing, Nothing, Number(6), Number(3), Number(3), Nothing],
    [Nothing, Nothing, Nothing, Nothing, Nothing, Nothing, Symbol, Nothing, Nothing, Nothing],
    [Number(6), Number(1), Number(7), Cog, Nothing, Nothing, Nothing, Nothing, Nothing, Nothing],
    [Nothing, Nothing, Nothing, Nothing, Nothing, Symbol, Nothing, Number(5), Number(8), Nothing],
    [Nothing, Nothing, Number(5), Number(9), Number(2), Nothing, Nothing, Nothing, Nothing, Nothing],
    [Nothing, Nothing, Nothing, Nothing, Nothing, Nothing, Number(7), Number(5), Number(5), Nothing],
    [Nothing, Nothing, Nothing, Symbol, Nothing, Cog, Nothing, Nothing, Nothing, Nothing],
    [Nothing, Number(6), Number(6), Number(4), Nothing, Number(5), Number(9), Number(8), Nothing, Nothing]]

  /** The first scan's state at the start of each row and at the end. */
  const SampleStates: seq<ScanState> := [
    ScanState(0, true, false, []),
    ScanState(0, false, false, [467]),
    ScanState(0, false, false, [467]),
    ScanState(0, false, false, [467, 35, 633]),
    ScanState(0, false, false, [467, 35, 633]),
    ScanState(0, false, false, [467, 35, 633, 617]),
    ScanState(0, false, false, [467, 35, 633, 617]),
    ScanState(0, false, false, [467, 35, 633, 617, 592]),
    ScanState(0, false, false, [467, 35, 633, 617, 592, 755]),
    ScanState(0, false, false, [467, 35, 633, 617, 592, 755]),
    ScanState(0, false, false, [467, 35, 633, 617, 592, 755, 664, 598])]

  lemma SampleRow0()
    ensures Rectangular(SampleGrid)
    ensures RowScan(SampleGrid, 0, 10, SampleStates[0]) == SampleStates[1]
  {
  }

  lemma SampleRow1()
    ensures Rectangular(SampleGrid)
    ensures RowScan(SampleGrid, 1, 10, SampleStates[1]) == SampleStates[2]
  {
  }

  lemma SampleRow2()
    ensures Rectangular(SampleGrid)
    ensures RowScan(SampleGrid, 2, 10, SampleStates[2]) == SampleStates[3]
  {
  }

  lemma SampleRow3()
    ensures Rectangular(SampleGrid)
    ensures RowScan(SampleGrid, 3, 10, SampleStates[3]) == SampleStates[4]
  {
  }

  lemma SampleRow4()
    ensures Rectangular(SampleGrid)
    ensures RowScan(SampleGrid, 4, 10, SampleStates[4]) == SampleStates[5]
  {
  }

  lemma SampleRow5()
    ensures Rectangular(SampleGrid)
    ensures RowScan(SampleGrid, 5, 10, SampleStates[5]) == SampleStates[6]
  {
  }

  lemma SampleRow6()
    ensures Rectangular(SampleGrid)
    ensures RowScan(SampleGrid, 6, 10, SampleStates[6]) == SampleStates[7]
  {
  }

  lemma SampleRow7()
    ensures Rectangular(SampleGrid)
    ensures RowScan(SampleGrid, 7, 10, SampleStates[7]) == SampleStates[8]
  {
  }

  lemma SampleRow8()
    ensures Rectangular(SampleGrid)
    ensures RowScan(SampleGrid, 8, 10, SampleStates[8]) == SampleStates[9]
  {
  }

  lemma SampleRow9()
    ensures Rectangular(SampleGrid)
    ensures RowScan(SampleGrid, 9, 10, SampleStates[9]) == SampleStates[10]
  {
  }

  lemma SampleRow(y: nat)
    requires y < 10
    ensures Rectangular(SampleGrid) && |SampleGrid| == 10 && |SampleGrid[y]| == 10
    ensures RowScan(SampleGrid, y, 10, SampleStates[y]) == SampleStates[y + 1]
  {
    if y == 0 { SampleRow0(); }
    else if y == 1 { SampleRow1(); }
    else if y == 2 { SampleRow2(); }
    else if y == 3 { SampleRow3(); }
    else if y == 4 { SampleRow4(); }
    else if y == 5 { SampleRow5(); }
    else if y == 6 { SampleRow6(); }
    else if y == 7 { SampleRow7(); }
    else if y == 8 { SampleRow8(); }
    else { SampleRow9(); }
  }

  lemma {:induction false} SampleScan(y: nat)
    requires y <= 10
    ensures Rectangular(SampleGrid) && |SampleGrid| == 10
    ensures GridScan(SampleGrid, y) == SampleStates[y]
  {
    SampleRow(0);
    if y > 0 {
      SampleScan(y - 1);
      SampleRow(y - 1);
    }
  }

  /** The sample's part numbers are 467, 35, 633, 617, 592, 755, 664 and
      598 (114 and 58 touch no symbol), and they add up to 4361. */
  lemma SamplePartNumbers()
    ensures Rectangular(SampleGrid)
    ensures PartNumbers(SampleGrid) == [467, 35, 633, 617, 592, 755, 664, 598]
    ensures Sum(PartNumbers(SampleGrid)) == 4361
  {
    SampleScan(10);
    SampleSum();
  }

  lemma SampleSum()
    ensures Sum([467, 35, 633, 617, 592, 755, 664, 598]) == 4361
  {
    var s: seq<nat> := [467, 35, 633, 617, 592, 755, 664, 598];
    assert Sum(s[..1]) == 467;
    assert Sum(s[..2]) == 502;
    assert s[..3][..2] == s[..2];
    assert Sum(s[..3]) == 1135;
    assert s[..4][..3] == s[..3];
    assert Sum(s[..4]) == 1752;
    assert s[..5][..4] == s[..4];
    assert Sum(s[..5]) == 2344;
    assert s[..6][..5] == s[..5];
    assert Sum(s[..6]) == 3099;
    assert s[..7][..6] == s[..6];
    assert Sum(s[..7]) == 3763;
    assert s[..8] == s;
    assert s[..8][..7] == s[..7];
  }

  /** The sample as the puzzle prints it, one line per row. */
  const SampleLines: seq<string> := [
    "467..114..", "...*......", "..35..633.", "......#...", "617*......",
    ".....+.58.", "..592.....", "......755.", "...$.*....", ".664.598.."]

  lemma BelowTen(x: int)
    requires 0 <= x < 10
    ensures x == 0 || x == 1 || x == 2 || x == 3 || x == 4 || x == 5 || x == 6 || x == 7 || x == 8 || x == 9
  {
  }

  /** Row `y` of the sample text classifies cell by cell as row `y` of the
      sample grid. */
  lemma SampleLineCells(y: nat)
    requires y < 10
    ensures |SampleLines[y]| == |SampleGrid[y]| == 10 && '\n' !in SampleLines[y]
    ensures forall x :: 0 <= x < 10 ==> CellOf(SampleLines[y][x]) == SampleGrid[y][x]
  {
    forall x | 0 <= x < 10
      ensures CellOf(SampleLines[y][x]) == SampleGrid[y][x] && SampleLines[y][x] != '\n'
    {
      BelowTen(x);
      BelowTen(y);
    }
  }

  /** The ten lines glued with newlines split back into the ten lines. */
  lemma SampleLinesKept()
    ensures NonEmptyLines(JoinLines(SampleLines)) == SampleLines
  {
    forall y | 0 <= y < 10
      ensures |SampleLines[y]| == 10 && '\n' !in SampleLines[y]
    {
      SampleLineCells(y);
    }
    LinesRoundTrip(SampleLines);
    DropEmptyKeeps(SampleLines);
  }

  lemma SampleTextGrid()
    ensures ParseGrid(JoinLines(SampleLines)) == SampleGrid
  {
    SampleLinesKept();
    var g := ParseGrid(JoinLines(SampleLines));
    forall y | 0 <= y < 10
      ensures g[y] == SampleGrid[y]
    {
      SampleLineCells(y);
    }
  }

  /** The sample text parses to the sample grid, so `part_1` on it answers
      4361, as `part_1_test` expects. */
  lemma SampleText()
    ensures ParseGrid(JoinLines(SampleLines)) == SampleGrid
    ensures Rectangular(ParseGrid(JoinLines(SampleLines)))
    ensures Sum(PartNumbers(ParseGrid(JoinLines(SampleLines)))) == 4361
  {
    SampleTextGrid();
    SamplePartNumbers();
  }

  /** The number being read is not reset at the end of a row: a `1` at the
      end of one row and a `2` at the start of the next, beside a gear, are
      read as one part number 12. */
  lemma RunAcrossRows()
    ensures Rectangular([[Nothing, Nothing, Number(1)], [Number(2), Cog, Nothing]])
    ensures PartNumbers([[Nothing, Nothing, Number(1)], [Number(2), Cog, Nothing]]) == [12]
  {
    var g := [[Nothing, Nothing, Number(1)], [Number(2), Cog, Nothing]];
    assert RowScan(g, 0, 1, Start) == ScanState(0, false, false, []);
    assert RowScan(g, 0, 2, Start) == ScanState(0, false, true, []);
    assert GridScan(g, 1) == ScanState(1, true, true, []);
    var s1 := GridScan(g, 1);
    assert RowScan(g, 1, 1, s1) == ScanState(12, true, true, []);
    assert RowScan(g, 1, 2, s1) == ScanState(0, false, true, [12]);
    assert GridScan(g, 2) == ScanState(0, false, false, [12]);
  }

  /** A number that ends the last row is never recorded: in `2*3` only the
      2 is a part number. */
  lemma LastRunDropped()
    ensures Rectangular([[Number(2), Cog, Number(3)]])
    ensures PartNumbers([[Number(2), Cog, Number(3)]]) == [2]
  {
    var g := [[Number(2), Cog, Number(3)]];
    assert RowScan(g, 0, 1, Start) == ScanState(2, true, false, []);
    assert RowScan(g, 0, 2, Start) == ScanState(0, false, true, [2]);
    assert GridScan(g, 1) == ScanState(3, true, true, [2]);
  }

  /** In `2*3` the gear collects only the 2, and its single number is what
      the second part multiplies in. */
  lemma SingleNumberGear()
    ensures Rectangular([[Number(2), Cog, Number(3)]])
    ensures Registry([[Number(2), Cog, Number(3)]]) == map[(1, 0) := [2]]
    ensures CogProduct(Registry([[Number(2), Cog, Number(3)]])) == 2
  {
    var g := [[Number(2), Cog, Number(3)]];
    var m0: map<Pos, seq<nat>> := map[(1, 0) := []];
    assert CogPositions(g) == {(1, 0)};
    assert SeededRegistry(g) == m0;
    var s0 := CogScan(0, true, [], m0);
    assert CogRowScan(g, 0, 1, s0) == CogScan(2, true, [], m0);
    assert NowAdjacentCog(g, 0, 1) == None;
    var m1: map<Pos, seq<nat>> := map[(1, 0) := [2]];
    assert m0[(1, 0)] + [2] == [2];
    assert Push(m0, (1, 0), 2) == m1;
    assert PushAll(map[(1, 0) := [2]], [], 2) == map[(1, 0) := [2]];
    assert CogVisit(g, 0, 1, CogScan(2, true, [], m0), None) == CogScan(0, false, [(1, 0)], map[(1, 0) := [2]]);
    assert CogRowScan(g, 0, 2, s0) == CogScan(0, false, [(1, 0)], map[(1, 0) := [2]]);
    assert CogGridScan(g, 1) == CogScan(3, true, [(1, 0)], map[(1, 0) := [2]]);
    OneGearProduct([2]);
  }

  const TwoGears: Grid := [[Number(2), Cog, Number(3), Nothing]]

  /** The first three cells of `2*3.`: the 2 goes to the gear, which is
      then pending while the 3 is read. */
  lemma TwoNumberGearStart()
    ensures Rectangular(TwoGears) && |TwoGears| == 1 && |TwoGears[0]| == 4
    ensures CogPositions(TwoGears) == {(1, 0)}
    ensures SeededRegistry(TwoGears) == map[(1, 0) := []]
    ensures CogRowScan(TwoGears, 0, 3, CogScan(0, true, [], map[(1, 0) := []]))
      == CogScan(3, true, [(1, 0)], map[(1, 0) := [2]])
  {
    var g := TwoGears;
    var m0: map<Pos, seq<nat>> := map[(1, 0) := []];
    assert CogPositions(g) == {(1, 0)};
    var s0 := CogScan(0, true, [], m0);
    assert CogRowScan(g, 0, 1, s0) == CogScan(2, true, [], m0);
    assert NowAdjacentCog(g, 0, 1) == None;
    var m1: map<Pos, seq<nat>> := map[(1, 0) := [2]];
    assert m0[(1, 0)] + [2] == [2];
    assert Push(m0, (1, 0), 2) == m1;
    assert PushAll(m1, [], 2) == m1;
    assert CogVisit(g, 0, 1, CogScan(2, true, [], m0), None) == CogScan(0, false, [(1, 0)], m1);
    assert CogRowScan(g, 0, 2, s0) == CogScan(0, false, [(1, 0)], m1);
  }

  /** The `.` that ends the 3 pushes it to the pending gear. */
  lemma TwoNumberGearEnd()
    ensures Rectangular(TwoGears)
    ensures PushAll(map[(1, 0) := [2]], [(1, 0)], 3) == map[(1, 0) := [2, 3]]
    ensures NowAdjacentCog(TwoGears, 0, 3) == None
  {
    var m1: map<Pos, seq<nat>> := map[(1, 0) := [2]];
    var cs: seq<Pos> := [(1, 0)];
    assert cs[..0] == [];
    var m2: map<Pos, seq<nat>> := map[(1, 0) := [2, 3]];
    assert m1[(1, 0)] + [3] == [2, 3];
    assert Push(m1, (1, 0), 3) == m2;
  }

  /** In `2*3.` the gear collects both numbers, and a gear with two or more
      numbers contributes 1 to the product rather than their product. */
  lemma TwoNumberGear()
    ensures Rectangular([[Number(2), Cog, Number(3), Nothing]])
    ensures Registry([[Number(2), Cog, Number(3), Nothing]]) == map[(1, 0) := [2, 3]]
    ensures CogProduct(Registry([[Number(2), Cog, Number(3), Nothing]])) == 1
  {
    var g := TwoGears;
    TwoNumberGearStart();
    TwoNumberGearEnd();
    assert CogGridScan(g, 1) == CogScan(0, false, [], map[(1, 0) := [2, 3]]);
    OneGearProduct([2, 3]);
  }

  /** With a single gear the product is that gear's factor. */
  lemma OneGearProduct(l: seq<nat>)
    ensures CogProduct(map[(1, 0) := l]) == Factor(l)
  {
    var m: map<Pos, seq<nat>> := map[(1, 0) := l];
    CogProductAny(m, (1, 0));
    assert m - {(1, 0)} == map[];
  }
}
