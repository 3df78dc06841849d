/** Day 3: a grid of digits, symbols, cogs and dots. `Part1` sums the
    numbers the row-major scan records next to a symbol; `Part2` fills a
    registry keyed by cog coordinates and multiplies the sums of its short
    lists. Both are modelled as the code is written, quirks included: the
    run state is not reset at the end of a row, a run still open after the
    last cell is dropped, and `Part2` keeps the lists with FEWER than two
    entries. */
module Day3 {
  import opened Text

  datatype Cell = Number(n: nat) | Cog | Symbol | Nothing

  type Grid = seq<seq<Cell>>

  /** A coordinate (x, y): column first, as the source keys its registry. */
  type Pos = (nat, nat)

  predicate IsSymbolOrCog(c: Cell) {
    match c
    case Cog => true
    case Symbol => true
    case _ => false
  }

  /** `MatrixValue::from(char)`. */
  function CellOf(c: char): (r: Cell)
    ensures r.Number? ==> r.n <= 9
    ensures IsDigit(c) ==> r == Number(DigitValue(c))
    ensures c == '.' ==> r == Nothing
    ensures IsSymbolOrCog(r) <==> c != '.' && !IsDigit(c)
    ensures r.Cog? <==> c == '*'
  {
    if c == '.' then Nothing
    else if c == '*' then Cog
    else if IsDigit(c) then Number(DigitValue(c))
    else Symbol
  }

  /** Cells that some character yields: digits stay within 0..9. */
  predicate WellFormed(c: Cell) {
    c.Number? ==> c.n <= 9
  }

  /** A character that classifies as the given cell (`#` standing for every symbol). */
  function Glyph(c: Cell): char
    requires WellFormed(c)
  {
    match c
    case Number(n) => DigitChar(n)
    case Cog => '*'
    case Symbol => '#'
    case Nothing => '.'
  }

  /** Classification loses nothing but which symbol it was. */
  lemma CellOfGlyph(c: Cell)
    requires WellFormed(c)
    ensures CellOf(Glyph(c)) == c
  {
  }

  /** `parse_input`: one row per non-empty line, one cell per character. */
  function ParseGrid(input: string): (g: Grid)
    ensures |g| == |NonEmptyLines(input)|
    ensures forall y :: 0 <= y < |g| ==> |g[y]| == |NonEmptyLines(input)[y]| > 0
  {
    var lines := NonEmptyLines(input);
    seq(|lines|, y requires 0 <= y < |lines| => seq(|lines[y]|, x requires 0 <= x < |lines[y]| => CellOf(lines[y][x])))
  }

  function RowText(row: seq<Cell>): (s: string)
    requires forall x :: 0 <= x < |row| ==> WellFormed(row[x])
    ensures |s| == |row| && '\n' !in s
  {
    seq(|row|, x requires 0 <= x < |row| => Glyph(row[x]))
  }

  /** The grid written out one row per line. */
  function GridText(g: Grid): string
    requires forall y, x :: 0 <= y < |g| && 0 <= x < |g[y]| ==> WellFormed(g[y][x])
  {
    JoinLines(seq(|g|, y requires 0 <= y < |g| => RowText(g[y])))
  }

  /** Parsing keeps line order and row contents: any grid of non-empty rows
      comes back from its text. */
  lemma ParseGridText(g: Grid)
    requires forall y :: 0 <= y < |g| ==> |g[y]| > 0
    requires forall y, x :: 0 <= y < |g| && 0 <= x < |g[y]| ==> WellFormed(g[y][x])
    ensures ParseGrid(GridText(g)) == g
  {
    var lines := seq(|g|, y requires 0 <= y < |g| => RowText(g[y]));
    LinesRoundTrip(lines);
    DropEmptyKeeps(lines);
    var p := ParseGrid(GridText(g));
    forall y | 0 <= y < |g|
      ensures p[y] == g[y]
    {
      forall x | 0 <= x < |g[y]|
        ensures p[y][x] == g[y][x]
      {
        CellOfGlyph(g[y][x]);
      }
    }
  }

  /** Every row as long as the first: the scans index `matrix[y - 1][x]` and
      `matrix[y + 1][x]` unchecked, which is safe exactly on such grids. */
  predicate Rectangular(g: Grid) {
    forall y :: 0 <= y < |g| ==> |g[y]| == |g[0]|
  }

  // ---------------------------------------------------------------------
  // part_1

  /** The scan's variables: the digit accumulator, whether a run is open,
      whether the open run has touched a symbol, and the numbers recorded. */
  datatype ScanState = ScanState(number: nat, finding: bool, adjacent: bool, parts: seq<nat>)

  /** The state before the first cell: `finding_number` starts out true. */
  const Start := ScanState(0, true, false, [])

  /** `now_adjacent_symbol`: the cell above or below is a symbol or cog. */
  predicate NowAdjacentSymbol(g: Grid, y: nat, x: nat)
    requires Rectangular(g) && y < |g| && x < |g[y]|
  {
    (y >= 1 && IsSymbolOrCog(g[y - 1][x])) || (y + 1 < |g| && IsSymbolOrCog(g[y + 1][x]))
  }

  /** One iteration of the inner loop of `part_1` at cell (x, y). */
  function Step(g: Grid, y: nat, x: nat, st: ScanState): (r: ScanState)
    requires Rectangular(g) && y < |g| && x < |g[y]|
    ensures st.parts <= r.parts && |r.parts| <= |st.parts| + 1
    ensures Settled(st) ==> Settled(r)
  {
    var now := NowAdjacentSymbol(g, y, x);
    var next :=
      match g[y][x]
      case Number(n) => st.(finding := true, number := st.number * 10 + n)
      case Nothing =>
        var parts := if st.finding && (st.adjacent || now) then st.parts + [st.number] else st.parts;
        ScanState(0, false, false, parts)
      case _ =>
        if st.finding then ScanState(0, false, true, st.parts + [st.number])
        else st.(adjacent := true);
    if now then next.(adjacent := true) else next
  }

  /** Outside a run the accumulator is 0. */
  predicate Settled(st: ScanState) {
    !st.finding ==> st.number == 0
  }

  /** The state after the first `x` cells of row `y`, starting from `st`. */
  function RowScan(g: Grid, y: nat, x: nat, st: ScanState): (r: ScanState)
    requires Rectangular(g) && y < |g| && x <= |g[y]|
    ensures Settled(st) ==> Settled(r)
  {
    if x == 0 then st else Step(g, y, x - 1, RowScan(g, y, x - 1, st))
  }

  /** The state after the first `y` rows; nothing is reset between rows. */
  function GridScan(g: Grid, y: nat): (r: ScanState)
    requires Rectangular(g) && y <= |g|
    ensures Settled(r)
  {
    if y == 0 then Start else RowScan(g, y - 1, |g[y - 1]|, GridScan(g, y - 1))
  }

  /** `part_numbers` at the end of `part_1`. */
  function PartNumbers(g: Grid): seq<nat>
    requires Rectangular(g)
  {
    GridScan(g, |g|).parts
  }

  function Sum(s: seq<nat>): nat {
    if s == [] then 0 else Sum(s[..|s| - 1]) + s[|s| - 1]
  }

  /** `part_1`: the sum of the numbers the scan records. */
  method Part1(input: string) returns (total: nat)
    requires Rectangular(ParseGrid(input))
    ensures total == Sum(PartNumbers(ParseGrid(input)))
  {
    var matrix := ParseGrid(input);
    var partNumbers := ScanPartNumbers(matrix);
    total := Sum(partNumbers);
  }

  /** The two nested loops of `part_1`, which fill `part_numbers`. */
  method ScanPartNumbers(matrix: Grid) returns (partNumbers: seq<nat>)
    requires Rectangular(matrix)
    ensures partNumbers == PartNumbers(matrix)
  {
    partNumbers := [];
    var number: nat := 0;
    var findingNumber := true;
    var adjacentSymbol := false;
    var y := 0;
    while y < |matrix|
      invariant y <= |matrix|
      invariant ScanState(number, findingNumber, adjacentSymbol, partNumbers) == GridScan(matrix, y)
    {
      var row := matrix[y];
      var x := 0;
      while x < |row|
        invariant x <= |row|
        invariant ScanState(number, findingNumber, adjacentSymbol, partNumbers)
                  == RowScan(matrix, y, x, GridScan(matrix, y))
      {
        ghost var before := ScanState(number, findingNumber, adjacentSymbol, partNumbers);
        var nowAdjacentSymbol := (y >= 1 && IsSymbolOrCog(matrix[y - 1][x]))
                                 || (y + 1 < |matrix| && IsSymbolOrCog(matrix[y + 1][x]));
        assert nowAdjacentSymbol == NowAdjacentSymbol(matrix, y, x);
        match row[x] {
          case Number(n) =>
            findingNumber := true;
            number := number * 10 + n;
          case Nothing =>
            if findingNumber && (adjacentSymbol || nowAdjacentSymbol) {
              partNumbers := partNumbers + [number];
            }
            number := 0;
            findingNumber := false;
            adjacentSymbol := false;
          case _ =>
            if findingNumber {
              partNumbers := partNumbers + [number];
              number := 0;
              findingNumber := false;
            }
            adjacentSymbol := true;
        }
        if nowAdjacentSymbol {
          adjacentSymbol := true;
        }
        assert ScanState(number, findingNumber, adjacentSymbol, partNumbers) == Step(matrix, y, x, before);
        x := x + 1;
      }
      y := y + 1;
    }
  }

  // ---------------------------------------------------------------------
  // part_1 properties

  predicate NoMarkers(g: Grid) {
    forall y, x :: 0 <= y < |g| && 0 <= x < |g[y]| ==> !IsSymbolOrCog(g[y][x])
  }

  lemma {:induction false} RowScanQuiet(g: Grid, y: nat, x: nat, st: ScanState)
    requires Rectangular(g) && NoMarkers(g) && y < |g| && x <= |g[y]|
    requires st.parts == [] && !st.adjacent
    ensures RowScan(g, y, x, st).parts == [] && !RowScan(g, y, x, st).adjacent
  {
    if x > 0 {
      RowScanQuiet(g, y, x - 1, st);
    }
  }

  lemma {:induction false} GridScanQuiet(g: Grid, y: nat)
    requires Rectangular(g) && NoMarkers(g) && y <= |g|
    ensures GridScan(g, y).parts == [] && !GridScan(g, y).adjacent
  {
    if y > 0 {
      GridScanQuiet(g, y - 1);
      RowScanQuiet(g, y - 1, |g[y - 1]|, GridScan(g, y - 1));
    }
  }

  /** Without a symbol or a cog nothing is recorded, so the answer is 0. */
  lemma NoMarkersNoParts(g: Grid)
    requires Rectangular(g) && NoMarkers(g)
    ensures PartNumbers(g) == [] && Sum(PartNumbers(g)) == 0
  {
    GridScanQuiet(g, |g|);
  }

  /** The digits of `row` from column `x0` up to (not including) `x1`, read
      as one decimal number. */
  function RunValue(row: seq<Cell>, x0: nat, x1: nat): nat
    requires x0 <= x1 <= |row|
    requires forall x :: x0 <= x < x1 ==> row[x].Number?
  {
    if x1 == x0 then 0 else RunValue(row, x0, x1 - 1) * 10 + row[x1 - 1].n
  }

  /** Some cell of the box around the run in columns `x0 - 1` to `x1` of row
      `y` (the row itself and the rows above and below) is a symbol or cog. */
  predicate TouchesMarker(g: Grid, y: nat, x0: nat, x1: nat)
    requires Rectangular(g) && y < |g| && 1 <= x0 <= x1 < |g[y]|
  {
    exists x :: x0 - 1 <= x <= x1 && (IsSymbolOrCog(g[y][x]) || NowAdjacentSymbol(g, y, x))
  }

  /** Inside a run of digits the accumulator folds the digits, nothing is
      recorded, and the flag collects the vertical checks of the columns. */
  lemma {:induction false} DigitsFold(g: Grid, y: nat, x0: nat, x: nat, st: ScanState)
    requires Rectangular(g) && y < |g| && x0 <= x <= |g[y]|
    requires forall c :: x0 <= c < x ==> g[y][c].Number?
    requires RowScan(g, y, x0, st).number == 0
    ensures var s0, s := RowScan(g, y, x0, st), RowScan(g, y, x, st);
            && s.number == RunValue(g[y], x0, x)
            && s.parts == s0.parts
            && s.finding == (x > x0 || s0.finding)
            && (s.adjacent <==> s0.adjacent || exists c :: x0 <= c < x && NowAdjacentSymbol(g, y, c))
  {
    if x > x0 {
      DigitsFold(g, y, x0, x - 1, st);
      var s := RowScan(g, y, x, st);
      var s0 := RowScan(g, y, x0, st);
      if s.adjacent && !s0.adjacent && !NowAdjacentSymbol(g, y, x - 1) {
        var c :| x0 <= c < x - 1 && NowAdjacentSymbol(g, y, c);
      }
    }
  }

  /** A run of digits with a non-digit on each side inside its row is
      recorded, with its value, exactly when a symbol or cog touches it,
      directly or diagonally. Only runs at a row's edges behave otherwise. */
  /** After a non-digit cell no run is open, and the flag holds exactly
      when that cell is a symbol or a cog or has one directly above or
      below it. */
  lemma AfterNonDigit(g: Grid, y: nat, x: nat, st: ScanState)
    requires Rectangular(g) && y < |g| && x < |g[y]| && !g[y][x].Number? && Settled(st)
    ensures !Step(g, y, x, st).finding && Step(g, y, x, st).number == 0
    ensures Step(g, y, x, st).adjacent <==> IsSymbolOrCog(g[y][x]) || NowAdjacentSymbol(g, y, x)
  {
  }

  lemma RecordsBoundedRun(g: Grid, y: nat, x0: nat, x1: nat)
    requires Rectangular(g) && y < |g| && 1 <= x0 < x1 < |g[y]|
    requires !g[y][x0 - 1].Number? && !g[y][x1].Number?
    requires forall x :: x0 <= x < x1 ==> g[y][x].Number?
    ensures RowScan(g, y, x1 + 1, GridScan(g, y)).parts
            == RowScan(g, y, x0, GridScan(g, y)).parts
               + (if TouchesMarker(g, y, x0, x1) then [RunValue(g[y], x0, x1)] else [])
  {
    var start := GridScan(g, y);
    var s0 := RowScan(g, y, x0, start);
    AfterNonDigit(g, y, x0 - 1, RowScan(g, y, x0 - 1, start));
    DigitsFold(g, y, x0, x1, start);
    var s := RowScan(g, y, x1, start);
    if TouchesMarker(g, y, x0, x1) {
      var x :| x0 - 1 <= x <= x1 && (IsSymbolOrCog(g[y][x]) || NowAdjacentSymbol(g, y, x));
      if x0 <= x < x1 {
        assert !IsSymbolOrCog(g[y][x]);
      }
    } else {
      assert !IsSymbolOrCog(g[y][x0 - 1]) && !NowAdjacentSymbol(g, y, x0 - 1);
      assert !IsSymbolOrCog(g[y][x1]) && !NowAdjacentSymbol(g, y, x1);
      assert forall c :: x0 <= c < x1 ==> !NowAdjacentSymbol(g, y, c);
    }
  }

  lemma {:induction false} DigitsRecordNothing(g: Grid, y: nat, x0: nat, x: nat, st: ScanState)
    requires Rectangular(g) && y < |g| && x0 <= x <= |g[y]|
    requires forall c :: x0 <= c < x ==> g[y][c].Number?
    ensures RowScan(g, y, x, st).parts == RowScan(g, y, x0, st).parts
  {
    if x > x0 {
      DigitsRecordNothing(g, y, x0, x - 1, st);
    }
  }

  /** A run still open after the last cell is never recorded: digits that
      end the last row add nothing to `part_numbers`. */
  lemma TrailingRunDropped(g: Grid, y: nat, x0: nat)
    requires Rectangular(g) && y + 1 == |g| && x0 <= |g[y]|
    requires forall x :: x0 <= x < |g[y]| ==> g[y][x].Number?
    ensures PartNumbers(g) == RowScan(g, y, x0, GridScan(g, y)).parts
  {
    DigitsRecordNothing(g, y, x0, |g[y]|, GridScan(g, y));
  }

  // ---------------------------------------------------------------------
  // part_2

  /** The coordinates of the cog cells. */
  function CogPositions(g: Grid): set<Pos> {
    set y: nat, x: nat | y < |g| && x < |g[y]| && g[y][x] == Cog :: (x, y)
  }

  /** The registry after the first loop of `part_2`: every cog, no numbers yet. */
  function SeededRegistry(g: Grid): map<Pos, seq<nat>> {
    map c | c in CogPositions(g) :: []
  }

  /** `cogs.get_mut(&c).unwrap().push(v)`: the key must be there. */
  function Push(m: map<Pos, seq<nat>>, c: Pos, v: nat): (r: map<Pos, seq<nat>>)
    requires c in m
    ensures r.Keys == m.Keys
  {
    m[c := m[c] + [v]]
  }

  /** `adjacent_cogs.iter().for_each(|c| ... push(v))`, front to back. */
  function PushAll(m: map<Pos, seq<nat>>, cs: seq<Pos>, v: nat): (r: map<Pos, seq<nat>>)
    requires forall i :: 0 <= i < |cs| ==> cs[i] in m
    ensures r.Keys == m.Keys
  {
    if cs == [] then m else Push(PushAll(m, cs[..|cs| - 1], v), cs[|cs| - 1], v)
  }

  /** `now_adjacent_cog`: the cog above, overridden by the cog below. */
  function NowAdjacentCog(g: Grid, y: nat, x: nat): (r: Option<Pos>)
    requires Rectangular(g) && y < |g| && x < |g[y]|
    ensures r.Some? ==> r.value in CogPositions(g) && r.value.0 == x
    ensures r.Some? ==> r.value.1 == y + 1 || r.value.1 + 1 == y
    ensures r.None? <==> !(y >= 1 && g[y - 1][x] == Cog) && !(y + 1 < |g| && g[y + 1][x] == Cog)
    ensures y + 1 < |g| && g[y + 1][x] == Cog ==> r == Some((x, y + 1))
  {
    var above := if y >= 1 && g[y - 1][x] == Cog then Some((x, y - 1)) else None;
    if y + 1 < |g| && g[y + 1][x] == Cog then Some((x, y + 1)) else above
  }

  /** The variables of the second scan: the digit accumulator, whether a run
      is open, the cogs the open run has touched, and the registry. */
  datatype CogScan = CogScan(number: nat, finding: bool, adjacentCogs: seq<Pos>, cogs: map<Pos, seq<nat>>)

  /** The registry holds exactly the cogs and every touched cog is in it, so
      each `unwrap` in the scan succeeds. */
  predicate RegistryFor(g: Grid, st: CogScan) {
    && st.cogs.Keys == CogPositions(g)
    && forall i :: 0 <= i < |st.adjacentCogs| ==> st.adjacentCogs[i] in st.cogs
  }

  /** One iteration of the inner loop of the second scan of `part_2`. */
  function CogStep(g: Grid, y: nat, x: nat, st: CogScan): (r: CogScan)
    requires Rectangular(g) && y < |g| && x < |g[y]|
    requires RegistryFor(g, st)
    ensures RegistryFor(g, r)
  {
    var now := NowAdjacentCog(g, y, x);
    var next := CogVisit(g, y, x, st, now);
    if now.Some? then next.(adjacentCogs := next.adjacentCogs + [now.value]) else next
  }

  /** The `match` on the cell, given the `now_adjacent_cog` of its column. */
  function CogVisit(g: Grid, y: nat, x: nat, st: CogScan, now: Option<Pos>): (r: CogScan)
    requires y < |g| && x < |g[y]|
    requires RegistryFor(g, st) && (now.Some? ==> now.value in CogPositions(g))
    ensures RegistryFor(g, r)
  {
    match g[y][x]
    case Number(n) => st.(finding := true, number := st.number * 10 + n)
    case Cog =>
      if st.finding then
        var withNow := if now.Some? then Push(st.cogs, now.value, st.number) else st.cogs;
        var withSelf := Push(withNow, (x, y), st.number);
        CogScan(0, false, [(x, y)], PushAll(withSelf, st.adjacentCogs, st.number))
      else st.(adjacentCogs := [(x, y)])
    case _ =>
      var cogs :=
        if st.finding && (st.adjacentCogs != [] || now.Some?) then
          var withNow := if now.Some? then Push(st.cogs, now.value, st.number) else st.cogs;
          PushAll(withNow, st.adjacentCogs, st.number)
        else st.cogs;
      CogScan(0, false, [], cogs)
  }

  function CogRowScan(g: Grid, y: nat, x: nat, st: CogScan): (r: CogScan)
    requires Rectangular(g) && y < |g| && x <= |g[y]|
    requires RegistryFor(g, st)
    ensures RegistryFor(g, r)
  {
    if x == 0 then st else CogStep(g, y, x - 1, CogRowScan(g, y, x - 1, st))
  }

  /** The state after the first `y` rows of the second scan. */
  function CogGridScan(g: Grid, y: nat): (r: CogScan)
    requires Rectangular(g) && y <= |g|
    ensures RegistryFor(g, r)
  {
    if y == 0 then CogScan(0, true, [], SeededRegistry(g))
    else CogRowScan(g, y - 1, |g[y - 1]|, CogGridScan(g, y - 1))
  }

  /** The registry `cogs` when the second scan ends. */
  function Registry(g: Grid): (m: map<Pos, seq<nat>>)
    requires Rectangular(g)
    ensures m.Keys == CogPositions(g)
  {
    CogGridScan(g, |g|).cogs
  }

  /** What one list contributes to the final product: its sum when it has
      fewer than two entries, nothing (a factor 1) otherwise. */
  function Factor(l: seq<nat>): nat {
    if |l| < 2 then Sum(l) else 1
  }

  /** `cogs.values().filter(|v| v.len() < 2).map(sum).product()`, the values
      taken in no particular order. */
  ghost function CogProduct(m: map<Pos, seq<nat>>): nat
    decreases |m|
  {
    if m == map[] then 1
    else
      var c :| c in m;
      Factor(m[c]) * CogProduct(m - {c})
  }

  /** The product does not depend on the order the values are taken in:
      any cog can be taken first. */
  lemma {:induction false} CogProductAny(m: map<Pos, seq<nat>>, c: Pos)
    requires c in m
    ensures CogProduct(m) == Factor(m[c]) * CogProduct(m - {c})
    decreases |m|
  {
    var d :| d in m && CogProduct(m) == Factor(m[d]) * CogProduct(m - {d});
    if d != c {
      var md := m - {d};
      var mc := m - {c};
      assert c in md && d in mc;
      var rest := md - {c};
      assert rest == mc - {d};
      CogProductAny(md, c);
      CogProductAny(mc, d);
      assert md[c] == m[c] && mc[d] == m[d];
      var fc, fd, pr := Factor(m[c]), Factor(m[d]), CogProduct(rest);
      calc {
        CogProduct(m);
        fd * CogProduct(md);
        fd * (fc * pr);
        { MulSwap(fc, fd, pr); }
        fc * (fd * pr);
        fc * CogProduct(mc);
      }
    }
  }

  lemma MulAssoc(a: nat, b: nat, c: nat)
    ensures a * (b * c) == (a * b) * c
  {
  }

  lemma MulSwap(a: nat, b: nat, c: nat)
    ensures b * (a * c) == a * (b * c)
  {
  }

  /** The first loop of `part_2`: a key with an empty list for every cog. */
  method SeedCogs(matrix: Grid) returns (cogs: map<Pos, seq<nat>>)
    ensures cogs == SeededRegistry(matrix)
  {
    cogs := map[];
    var y := 0;
    while y < |matrix|
      invariant y <= |matrix|
      invariant cogs == map c | c in CogsAbove(matrix, y) :: []
    {
      var x := 0;
      while x < |matrix[y]|
        invariant x <= |matrix[y]|
        invariant cogs == map c | c in CogsAbove(matrix, y) + CogsLeft(matrix, y, x) :: []
      {
        if matrix[y][x] == Cog {
          cogs := cogs[(x, y) := []];
        }
        assert CogsLeft(matrix, y, x + 1)
               == CogsLeft(matrix, y, x) + (if matrix[y][x] == Cog then {(x, y)} else {});
        x := x + 1;
      }
      assert CogsAbove(matrix, y + 1) == CogsAbove(matrix, y) + CogsLeft(matrix, y, |matrix[y]|);
      y := y + 1;
    }
    assert CogsAbove(matrix, |matrix|) == CogPositions(matrix);
  }

  /** The cogs in the rows above row `y`. */
  function CogsAbove(g: Grid, y: nat): set<Pos>
    requires y <= |g|
  {
    set yy: nat, x: nat | yy < y && x < |g[yy]| && g[yy][x] == Cog :: (x, yy)
  }

  /** The cogs in row `y` left of column `x`. */
  function CogsLeft(g: Grid, y: nat, x: nat): set<Pos>
    requires y < |g| && x <= |g[y]|
  {
    set xx: nat | xx < x && g[y][xx] == Cog :: (xx, y)
  }

  /** `part_2`: seed the registry, scan, combine. */
  method Part2(input: string) returns (answer: nat)
    requires Rectangular(ParseGrid(input))
    ensures answer == CogProduct(Registry(ParseGrid(input)))
  {
    var matrix := ParseGrid(input);
    var cogs := SeedCogs(matrix);
    cogs := ScanCogs(matrix, cogs);
    answer := CombineCogs(cogs);
  }

  /** Push `v` onto the list of every cog in `cs`, in order. */
  method PushToAll(cogs: map<Pos, seq<nat>>, cs: seq<Pos>, v: nat) returns (r: map<Pos, seq<nat>>)
    requires forall i :: 0 <= i < |cs| ==> cs[i] in cogs
    ensures r == PushAll(cogs, cs, v)
  {
    r := cogs;
    var i := 0;
    while i < |cs|
      invariant i <= |cs|
      invariant r == PushAll(cogs, cs[..i], v)
    {
      assert cs[..i + 1][..i] == cs[..i];
      r := r[cs[i] := r[cs[i]] + [v]];
      i := i + 1;
    }
    assert cs[..|cs|] == cs;
  }

  /** The second loop of `part_2`, which fills the registry. */
  method ScanCogs(matrix: Grid, seeded: map<Pos, seq<nat>>) returns (cogs: map<Pos, seq<nat>>)
    requires Rectangular(matrix) && seeded == SeededRegistry(matrix)
    ensures cogs == Registry(matrix)
  {
    var st := CogScan(0, true, [], seeded);
    var y := 0;
    while y < |matrix|
      invariant y <= |matrix|
      invariant st == CogGridScan(matrix, y)
    {
      var x := 0;
      while x < |matrix[y]|
        invariant x <= |matrix[y]|
        invariant st == CogRowScan(matrix, y, x, CogGridScan(matrix, y))
      {
        st := ScanCogCell(matrix, y, x, st);
        x := x + 1;
      }
      y := y + 1;
    }
    cogs := st.cogs;
  }

  /** The body of the inner loop of the second scan, on the scan variables
      `number`, `finding_number`, `adjacent_cogs` and `cogs`. */
  method ScanCogCell(matrix: Grid, y: nat, x: nat, st: CogScan) returns (r: CogScan)
    requires Rectangular(matrix) && y < |matrix| && x < |matrix[y]|
    requires RegistryFor(matrix, st)
    ensures r == CogStep(matrix, y, x, st)
  {
    var number, findingNumber, adjacentCogs, cogs := st.number, st.finding, st.adjacentCogs, st.cogs;
    var nowAdjacentCog: Option<Pos> := None;
    if y >= 1 && matrix[y - 1][x] == Cog {
      nowAdjacentCog := Some((x, y - 1));
    }
    if y + 1 < |matrix| && matrix[y + 1][x] == Cog {
      nowAdjacentCog := Some((x, y + 1));
    }
    assert nowAdjacentCog == NowAdjacentCog(matrix, y, x);
    match matrix[y][x] {
      case Number(n) =>
        findingNumber := true;
        number := number * 10 + n;
      case Cog =>
        if findingNumber {
          if nowAdjacentCog.Some? {
            var c := nowAdjacentCog.value;
            cogs := cogs[c := cogs[c] + [number]];
          }
          cogs := cogs[(x, y) := cogs[(x, y)] + [number]];
          cogs := PushToAll(cogs, adjacentCogs, number);
          number := 0;
          findingNumber := false;
        }
        adjacentCogs := [(x, y)];
      case _ =>
        if findingNumber && (adjacentCogs != [] || nowAdjacentCog.Some?) {
          if nowAdjacentCog.Some? {
            var c := nowAdjacentCog.value;
            cogs := cogs[c := cogs[c] + [number]];
          }
          cogs := PushToAll(cogs, adjacentCogs, number);
        }
        number := 0;
        findingNumber := false;
        adjacentCogs := [];
    }
    assert CogScan(number, findingNumber, adjacentCogs, cogs) == CogVisit(matrix, y, x, st, nowAdjacentCog);
    if nowAdjacentCog.Some? {
      adjacentCogs := adjacentCogs + [nowAdjacentCog.value];
    }
    r := CogScan(number, findingNumber, adjacentCogs, cogs);
  }

  /** The final iterator chain of `part_2`, over the registry's values in
      whatever order the map yields them. */
  method CombineCogs(cogs: map<Pos, seq<nat>>) returns (product: nat)
    ensures product == CogProduct(cogs)
  {
    product := 1;
    var rest := cogs;
    ghost var target := CogProduct(cogs);
    while |rest| > 0
      invariant product * CogProduct(rest) == target
      decreases |rest|
    {
      var c :| c in rest;
      ghost var before, others := product, CogProduct(rest - {c});
      CombineStep(product, rest, c);
      if |rest[c]| < 2 {
        product := product * Sum(rest[c]);
      }
      assert product == before * Factor(rest[c]);
      rest := rest - {c};
      assert product * CogProduct(rest) == target;
    }
    assert rest == map[];
  }

  lemma CombineStep(product: nat, rest: map<Pos, seq<nat>>, c: Pos)
    requires c in rest
    ensures (product * Factor(rest[c])) * CogProduct(rest - {c}) == product * CogProduct(rest)
  {
    CogProductAny(rest, c);
    MulAssoc(product, Factor(rest[c]), CogProduct(rest - {c}));
  }

  // ---------------------------------------------------------------------
  // part_2 properties

  /** A grid without cogs has an empty registry, and the empty product is 1. */
  lemma NoCogsGivesOne(g: Grid)
    requires Rectangular(g) && CogPositions(g) == {}
    ensures CogProduct(Registry(g)) == 1
  {
    assert Registry(g) == map[];
  }

  lemma FactorZero(l: seq<nat>)
    ensures Factor(l) == 0 <==> l == [] || l == [0]
  {
    if |l| == 1 {
      assert l[..0] == [] && l == [l[0]];
      assert Sum(l) == Sum([]) + l[0];
    }
  }

  /** The product is 0 exactly when some cog's list is empty or holds a
      single 0. */
  lemma {:induction false} CogProductZero(m: map<Pos, seq<nat>>)
    ensures CogProduct(m) == 0 <==> exists c :: c in m && Factor(m[c]) == 0
    decreases |m|
  {
    if m != map[] {
      var d :| d in m;
      var rest := m - {d};
      CogProductAny(m, d);
      CogProductZero(rest);
      MulZero(Factor(m[d]), CogProduct(rest));
      if exists c :: c in m && Factor(m[c]) == 0 {
        var c :| c in m && Factor(m[c]) == 0;
        if c != d {
          assert c in rest && rest[c] == m[c];
        }
      }
      if exists c :: c in rest && Factor(rest[c]) == 0 {
        var c :| c in rest && Factor(rest[c]) == 0;
        assert c in m && m[c] == rest[c];
      }
    }
  }

  lemma MulZero(a: nat, b: nat)
    ensures a * b == 0 <==> a == 0 || b == 0
  {
  }

  /** In particular a cog that no number touched forces the answer to 0. */
  lemma UntouchedCogGivesZero(g: Grid, c: Pos)
    requires Rectangular(g) && c in Registry(g) && Registry(g)[c] == []
    ensures CogProduct(Registry(g)) == 0
  {
    CogProductZero(Registry(g));
    FactorZero(Registry(g)[c]);
  }

  /** Lists of two or more numbers, which the puzzle's gears are, leave the
      product unchanged. */
  lemma {:induction false} LongListsGiveOne(m: map<Pos, seq<nat>>)
    requires forall c :: c in m ==> |m[c]| >= 2
    ensures CogProduct(m) == 1
    decreases |m|
  {
    if m != map[] {
      var d :| d in m;
      CogProductAny(m, d);
      LongListsGiveOne(m - {d});
    }
  }
}
