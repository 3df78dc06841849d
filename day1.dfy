/** Day 1: calibration values. Each line yields a list of digits (only the
    literal digits in part 1; the literal digits and the spelled words
    `one` … `nine` in part 2), and a line's value is ten times its first
    digit plus its last. */
module Day1 {
  import opened Text

  // ---------------------------------------------------------------------
  // Literal digits
  // ---------------------------------------------------------------------

  /** The values of the digits of `line`, in order. */
  function ExtractNumbers(line: string): (r: seq<nat>)
    ensures |r| <= |line|
    ensures forall i :: 0 <= i < |r| ==> r[i] <= 9
  {
    if line == [] then []
    else
      var c := line[|line| - 1];
      ExtractNumbers(line[..|line| - 1]) + (if IsDigit(c) then [DigitValue(c)] else [])
  }

  /** Extraction works piece by piece: the digits of a joined text are the
      digits of its parts. */
  lemma {:induction false} ExtractAppend(a: string, b: string)
    ensures ExtractNumbers(a + b) == ExtractNumbers(a) + ExtractNumbers(b)
  {
    if b == [] {
      assert a + b == a;
    } else {
      assert (a + b)[..|a + b| - 1] == a + b[..|b| - 1];
      ExtractAppend(a, b[..|b| - 1]);
    }
  }

  /** The text made of the digits of `ds`. */
  function DigitText(ds: seq<nat>): (s: string)
    requires forall i :: 0 <= i < |ds| ==> ds[i] <= 9
    ensures |s| == |ds|
  {
    if ds == [] then "" else DigitText(ds[..|ds| - 1]) + [DigitChar(ds[|ds| - 1])]
  }

  /** Every digit is found, with its value, and nothing else is. */
  lemma {:induction false} ExtractDigitText(ds: seq<nat>)
    requires forall i :: 0 <= i < |ds| ==> ds[i] <= 9
    ensures ExtractNumbers(DigitText(ds)) == ds
  {
    if ds != [] {
      var init := ds[..|ds| - 1];
      ExtractDigitText(init);
      var s := DigitText(ds);
      assert s[..|s| - 1] == DigitText(init);
      assert init + [ds[|ds| - 1]] == ds;
    }
  }

  /** A line yields a digit exactly when it holds one. */
  lemma {:induction false} ExtractNonEmpty(line: string)
    ensures |ExtractNumbers(line)| > 0 <==> exists i :: 0 <= i < |line| && IsDigit(line[i])
  {
    if line != [] {
      var init := line[..|line| - 1];
      ExtractNonEmpty(init);
      if exists i :: 0 <= i < |init| && IsDigit(init[i]) {
        var i :| 0 <= i < |init| && IsDigit(init[i]);
        assert line[i] == init[i];
      }
      if exists i :: 0 <= i < |line| && IsDigit(line[i]) {
        var i :| 0 <= i < |line| && IsDigit(line[i]);
        if i < |init| {
          assert init[i] == line[i];
        }
      }
    }
  }

  /** `ps` lists, in increasing order, exactly the positions of `line` that
      hold a digit. */
  predicate DigitPositions(line: string, ps: seq<nat>) {
    (forall j :: 0 <= j < |ps| ==> ps[j] < |line| && IsDigit(line[ps[j]])) &&
    (forall j, k :: 0 <= j < k < |ps| ==> ps[j] < ps[k]) &&
    (forall i :: 0 <= i < |line| && IsDigit(line[i]) ==> i in ps)
  }

  /** Dropping the last character of a line drops its position from the
      digit positions when it is a digit, and changes nothing otherwise. */
  lemma InitPositions(line: string, ps: seq<nat>)
    requires DigitPositions(line, ps) && |line| > 0
    ensures IsDigit(line[|line| - 1]) ==>
      |ps| > 0 && ps[|ps| - 1] == |line| - 1 && DigitPositions(line[..|line| - 1], ps[..|ps| - 1])
    ensures !IsDigit(line[|line| - 1]) ==> DigitPositions(line[..|line| - 1], ps)
  {
    var n := |line| - 1;
    var init := line[..n];
    if IsDigit(line[n]) {
      assert n in ps;
      var m := |ps| - 1;
      assert ps[m] == n;
      var front := ps[..m];
      forall i | 0 <= i < |init| && IsDigit(init[i])
        ensures i in front
      {
        assert line[i] == init[i];
        var j :| 0 <= j < |ps| && ps[j] == i;
        assert j != m;
      }
      forall j | 0 <= j < |front|
        ensures front[j] < |init| && IsDigit(init[front[j]])
      {
        assert ps[j] < ps[m];
      }
    } else {
      forall j | 0 <= j < |ps|
        ensures ps[j] < n
      {
        assert ps[j] != n;
      }
      forall i | 0 <= i < |init| && IsDigit(init[i])
        ensures i in ps
      {
        assert line[i] == init[i];
      }
    }
  }

  /** A step of `ExtractAtPositions` over a last character that is a
      digit: its value follows those of the digits before it. */
  lemma DigitStep(line: string, ps: seq<nat>)
    requires |line| > 0 && IsDigit(line[|line| - 1]) && DigitPositions(line, ps)
    requires |ps| > 0 && ps[|ps| - 1] == |line| - 1
    requires |ExtractNumbers(line[..|line| - 1])| == |ps| - 1
    requires forall j :: 0 <= j < |ps| - 1 ==> ExtractNumbers(line[..|line| - 1])[j] == DigitValue(line[ps[j]])
    ensures |ExtractNumbers(line)| == |ps|
    ensures forall j :: 0 <= j < |ps| ==> ExtractNumbers(line)[j] == DigitValue(line[ps[j]])
  {
    var n := |line| - 1;
    assert ExtractNumbers(line) == ExtractNumbers(line[..n]) + [DigitValue(line[n])];
  }

  /** A step of `ExtractAtPositions` over a last character that is not a
      digit: nothing is added. */
  lemma LetterStep(line: string, ps: seq<nat>)
    requires |line| > 0 && !IsDigit(line[|line| - 1]) && DigitPositions(line, ps)
    requires |ExtractNumbers(line[..|line| - 1])| == |ps|
    requires forall j :: 0 <= j < |ps| ==> ExtractNumbers(line[..|line| - 1])[j] == DigitValue(line[ps[j]])
    ensures |ExtractNumbers(line)| == |ps|
    ensures forall j :: 0 <= j < |ps| ==> ExtractNumbers(line)[j] == DigitValue(line[ps[j]])
  {
    assert ExtractNumbers(line) == ExtractNumbers(line[..|line| - 1]);
  }

  /** The extracted values are the values of the digits standing at the
      digit positions, in order. */
  lemma {:induction false} ExtractAtPositions(line: string, ps: seq<nat>)
    requires DigitPositions(line, ps)
    ensures |ExtractNumbers(line)| == |ps|
    ensures forall j :: 0 <= j < |ps| ==> ExtractNumbers(line)[j] == DigitValue(line[ps[j]])
  {
    if |ps| > 0 {
      assert ps[0] < |line|;
    }
    if |line| > 0 {
      var init := line[..|line| - 1];
      InitPositions(line, ps);
      if IsDigit(line[|line| - 1]) {
        var front := ps[..|ps| - 1];
        ExtractAtPositions(init, front);
        forall j | 0 <= j < |front|
          ensures init[front[j]] == line[ps[j]]
        {
        }
        DigitStep(line, ps);
      } else {
        ExtractAtPositions(init, ps);
        forall j | 0 <= j < |ps|
          ensures init[ps[j]] == line[ps[j]]
        {
        }
        LetterStep(line, ps);
      }
    }
  }

  // ---------------------------------------------------------------------
  // Digits and spelled words
  // ---------------------------------------------------------------------

  /** The words tried at each position, in this order. */
  const Words: seq<(string, nat)> := [
    ("one", 1), ("two", 2), ("three", 3), ("four", 4), ("five", 5),
    ("six", 6), ("seven", 7), ("eight", 8), ("nine", 9)]

  predicate StartsWith(s: string, prefix: string) {
    |prefix| <= |s| && s[..|prefix|] == prefix
  }

  /** The digit of the first word, from the `k`-th on, that `slice` starts
      with. */
  function FirstWord(slice: string, k: nat): (r: Option<nat>)
    decreases |Words| - k
  {
    if k >= |Words| then None
    else if StartsWith(slice, Words[k].0) then Some(Words[k].1)
    else FirstWord(slice, k + 1)
  }

  /** The search finds nothing exactly when `slice` starts with none of the
      words from the `k`-th on. */
  lemma {:induction false} FirstWordMisses(slice: string, k: nat)
    ensures FirstWord(slice, k).None? <==> forall j :: k <= j < |Words| ==> !StartsWith(slice, Words[j].0)
    decreases |Words| - k
  {
    if k < |Words| && !StartsWith(slice, Words[k].0) {
      FirstWordMisses(slice, k + 1);
    }
  }

  /** The search finds the first word of the table, from the `k`-th on,
      that `slice` starts with, and finds nothing exactly when there is
      none. */
  lemma {:induction false} FirstWordFinds(slice: string, k: nat)
    ensures FirstWord(slice, k).Some? ==>
      exists j :: k <= j < |Words| && StartsWith(slice, Words[j].0) && FirstWord(slice, k).value == Words[j].1 &&
        forall i :: k <= i < j ==> !StartsWith(slice, Words[i].0)
    ensures FirstWord(slice, k).None? <==> forall j :: k <= j < |Words| ==> !StartsWith(slice, Words[j].0)
    decreases |Words| - k
  {
    FirstWordMisses(slice, k);
    if k < |Words| && !StartsWith(slice, Words[k].0) {
      FirstWordFinds(slice, k + 1);
    }
  }

  /** The text looked at from position `i`: at most five characters. */
  function Window(line: string, i: nat): (slice: string)
    requires i < |line|
    ensures 0 < |slice| <= 5 && slice[0] == line[i]
  {
    line[i..if i + 5 < |line| then i + 5 else |line|]
  }

  /** What position `i` adds: the digit of a word starting there, else the
      value of a digit standing there, else nothing. */
  function PushAt(line: string, i: nat): (r: Option<nat>)
    requires i < |line|
    ensures r.Some? ==> 1 <= r.value <= 9 || (IsDigit(line[i]) && r.value == DigitValue(line[i]))
  {
    match FirstWord(Window(line, i), 0)
    case Some(d) => Some(d)
    case None => if IsDigit(line[i]) then Some(DigitValue(line[i])) else None
  }

  /** What the positions before `k` add, in order. */
  function Scan(line: string, k: nat): (r: seq<nat>)
    requires k <= |line|
    ensures |r| <= k
    ensures forall j :: 0 <= j < |r| ==> r[j] <= 9
  {
    if k == 0 then []
    else
      var p := PushAt(line, k - 1);
      Scan(line, k - 1) + (if p.Some? then [p.value] else [])
  }

  function TextNumbers(line: string): (r: seq<nat>)
    ensures |r| <= |line|
  {
    Scan(line, |line|)
  }

  /** The inner loop over the word table, stopping at the first match. */
  method FindWord(slice: string) returns (textNumber: Option<nat>)
    ensures textNumber == FirstWord(slice, 0)
  {
    textNumber := None;
    var k := 0;
    while k < |Words|
      invariant k <= |Words|
      invariant FirstWord(slice, 0) == FirstWord(slice, k)
    {
      var (text, digit) := Words[k];
      if StartsWith(slice, text) {
        textNumber := Some(digit);
        return;
      }
      k := k + 1;
    }
  }

  /** Text whose every character is ASCII, so that each character is one
      byte and the byte positions the Rust loop walks are the character
      positions used here; at any other character the byte slice would
      start inside that character and panic. */
  predicate Ascii(s: string) {
    forall i :: 0 <= i < |s| ==> s[i] < 128 as char
  }

  /** ASCII lines glued with newlines make ASCII text. */
  lemma {:induction false} AsciiLines(lines: seq<string>)
    requires forall i :: 0 <= i < |lines| ==> Ascii(lines[i])
    ensures Ascii(JoinLines(lines))
  {
    if |lines| > 1 {
      AsciiLines(lines[1..]);
      assert JoinLines(lines) == lines[0] + ['\n'] + JoinLines(lines[1..]);
    }
  }

  method ExtractTextNumbers(line: string) returns (numbers: seq<nat>)
    requires Ascii(line)
    ensures numbers == TextNumbers(line)
  {
    numbers := [];
    var i := 0;
    while i < |line|
      invariant i <= |line|
      invariant numbers == Scan(line, i)
    {
      var slice := line[i..if i + 5 < |line| then i + 5 else |line|];
      var textNumber := FindWord(slice);
      match textNumber {
        case Some(num) =>
          numbers := numbers + [num];
        case None =>
          var firstChar := slice[0];
          if IsDigit(firstChar) {
            numbers := numbers + [DigitValue(firstChar)];
          }
      }
      i := i + 1;
    }
  }

  /** No word starts with a digit, so a digit always adds its own value. */
  lemma DigitPushed(line: string, i: nat)
    requires i < |line| && IsDigit(line[i])
    ensures PushAt(line, i) == Some(DigitValue(line[i]))
  {
    var slice := Window(line, i);
    forall j | 0 <= j < |Words|
      ensures !StartsWith(slice, Words[j].0)
    {
      var w := Words[j].0;
      assert !IsDigit(w[0]);
      assert |w| > 0;
    }
    FirstWordFinds(slice, 0);
  }

  /** A character that is no digit and starts no word adds nothing. */
  lemma NothingPushed(line: string, i: nat)
    requires i < |line| && !IsDigit(line[i])
    requires forall j :: 0 <= j < |Words| ==> Words[j].0[0] != line[i]
    ensures PushAt(line, i) == None
  {
    var slice := Window(line, i);
    forall j | 0 <= j < |Words|
      ensures !StartsWith(slice, Words[j].0)
    {
      Differs(slice, Words[j].0, 0);
    }
    FirstWordFinds(slice, 0);
  }

  /** `a` is `b` with some elements left out. */
  predicate Subsequence(a: seq<nat>, b: seq<nat>)
    decreases |b|
  {
    if a == [] then true
    else if b == [] then false
    else if a[|a| - 1] == b[|b| - 1] then Subsequence(a[..|a| - 1], b[..|b| - 1])
    else Subsequence(a, b[..|b| - 1])
  }

  lemma {:induction false} SubsequenceDropLast(a: seq<nat>, b: seq<nat>)
    requires a != [] && Subsequence(a, b)
    ensures Subsequence(a[..|a| - 1], b)
    decreases |b|, 0
  {
    if a[|a| - 1] == b[|b| - 1] {
      SubsequenceExtend(a[..|a| - 1], b[..|b| - 1], b[|b| - 1]);
      assert b[..|b| - 1] + [b[|b| - 1]] == b;
    } else {
      SubsequenceDropLast(a, b[..|b| - 1]);
      SubsequenceExtend(a[..|a| - 1], b[..|b| - 1], b[|b| - 1]);
      assert b[..|b| - 1] + [b[|b| - 1]] == b;
    }
  }

  /** Appending to the longer list keeps a subsequence a subsequence. */
  lemma {:induction false} SubsequenceExtend(a: seq<nat>, b: seq<nat>, x: nat)
    requires Subsequence(a, b)
    ensures Subsequence(a, b + [x])
    decreases |b|, 1
  {
    if a != [] {
      assert (b + [x])[..|b|] == b;
      if a[|a| - 1] == x {
        SubsequenceDropLast(a, b);
      }
    }
  }

  lemma SubsequenceBoth(a: seq<nat>, b: seq<nat>, x: nat)
    requires Subsequence(a, b)
    ensures Subsequence(a + [x], b + [x])
  {
    assert (a + [x])[..|a|] == a;
    assert (b + [x])[..|b|] == b;
  }

  /** The literal digits of the first `k` characters, one step at a time. */
  lemma ExtractStep(line: string, k: nat)
    requires 0 < k <= |line|
    ensures ExtractNumbers(line[..k]) ==
      ExtractNumbers(line[..k - 1]) + (if IsDigit(line[k - 1]) then [DigitValue(line[k - 1])] else [])
  {
    assert line[..k][..k - 1] == line[..k - 1];
  }

  /** Every literal digit survives the word-aware scan: the digits of part 1
      are a subsequence of those of part 2. */
  lemma {:induction false} DigitsSurviveWords(line: string, k: nat)
    requires k <= |line|
    ensures Subsequence(ExtractNumbers(line[..k]), Scan(line, k))
  {
    if k > 0 {
      DigitsSurviveWords(line, k - 1);
      ExtractStep(line, k);
      var c := line[k - 1];
      var a := ExtractNumbers(line[..k - 1]);
      var b := Scan(line, k - 1);
      if IsDigit(c) {
        DigitPushed(line, k - 1);
        SubsequenceBoth(a, b, DigitValue(c));
      } else {
        assert ExtractNumbers(line[..k]) == a;
        var p := PushAt(line, k - 1);
        if p.Some? {
          SubsequenceExtend(a, b, p.value);
        } else {
          assert Scan(line, k) == b;
        }
      }
    }
  }

  lemma DigitsSurvive(line: string)
    ensures Subsequence(ExtractNumbers(line), TextNumbers(line))
  {
    DigitsSurviveWords(line, |line|);
    assert line[..|line|] == line;
  }

  /** On a line of digits alone both extractions agree. */
  lemma {:induction false} DigitLinesAgree(line: string, k: nat)
    requires k <= |line| && AllDigits(line)
    ensures Scan(line, k) == ExtractNumbers(line[..k])
  {
    if k > 0 {
      DigitLinesAgree(line, k - 1);
      DigitPushed(line, k - 1);
      assert line[..k][..k - 1] == line[..k - 1];
    }
  }

  /** A word whose `k`-th letter is missing or different is not a prefix. */
  lemma Differs(s: string, w: string, k: nat)
    requires k < |w| && (k >= |s| || s[k] != w[k])
    ensures !StartsWith(s, w)
  {
    if |w| <= |s| {
      assert s[..|w|][k] == s[k];
    }
  }

  // ---------------------------------------------------------------------
  // Reading the input and adding up calibration values
  // ---------------------------------------------------------------------

  /** The extracted digits of each line, in order. */
  function ExtractAll(lines: seq<string>, extract: string -> seq<nat>): (r: seq<seq<nat>>)
    ensures |r| == |lines|
    ensures forall i :: 0 <= i < |lines| ==> r[i] == extract(lines[i])
  {
    if lines == [] then [] else ExtractAll(lines[..|lines| - 1], extract) + [extract(lines[|lines| - 1])]
  }

  /** `parse_input`: the digits of every non-empty line, by the given
      extraction. */
  method ParseInput(input: string, extract: string -> seq<nat>) returns (numbers: seq<seq<nat>>)
    ensures numbers == ExtractAll(NonEmptyLines(input), extract)
  {
    var lines := Split(input, '\n');
    numbers := [];
    var i := 0;
    while i < |lines|
      invariant i <= |lines|
      invariant numbers == ExtractAll(DropEmpty(lines[..i]), extract)
    {
      var line := lines[i];
      ExtractNext(lines, i, extract);
      if line != [] {
        var extractedNumbers := extract(line);
        numbers := numbers + [extractedNumbers];
      }
      i := i + 1;
    }
    assert lines[..i] == lines;
  }

  /** One more line of the split input adds its digits when it is not
      empty, and nothing otherwise. */
  lemma ExtractNext(lines: seq<string>, i: nat, extract: string -> seq<nat>)
    requires i < |lines|
    ensures ExtractAll(DropEmpty(lines[..i + 1]), extract) ==
      ExtractAll(DropEmpty(lines[..i]), extract) + (if lines[i] == [] then [] else [extract(lines[i])])
  {
    assert lines[..i + 1] == lines[..i] + [lines[i]];
    DropEmptyAppend(lines[..i], lines[i]);
    if lines[i] != [] {
      var d := DropEmpty(lines[..i + 1]);
      assert d[..|d| - 1] == DropEmpty(lines[..i]);
    }
  }

  /** A line's value: its first digit as tens, its last as units. */
  function Calibration(v: seq<nat>): nat
    requires |v| > 0
  {
    v[0] * 10 + v[|v| - 1]
  }

  predicate Digits(v: seq<nat>) {
    forall i :: 0 <= i < |v| ==> v[i] <= 9
  }

  /** Every line's list has a first element (`v[0]` panics otherwise). */
  predicate AllFound(numbers: seq<seq<nat>>) {
    forall i :: 0 <= i < |numbers| ==> |numbers[i]| > 0
  }

  function CalibrationSum(numbers: seq<seq<nat>>): nat
    requires AllFound(numbers)
  {
    if numbers == [] then 0
    else CalibrationSum(numbers[..|numbers| - 1]) + Calibration(numbers[|numbers| - 1])
  }

  /** A value built from digits is a two-digit number whose digits are the
      first and last digit. */
  lemma CalibrationDigits(v: seq<nat>)
    requires |v| > 0 && Digits(v)
    ensures Calibration(v) <= 99
    ensures Calibration(v) / 10 == v[0] && Calibration(v) % 10 == v[|v| - 1]
  {
  }

  /** The sum is at most 99 per line. */
  lemma {:induction false} CalibrationSumBound(numbers: seq<seq<nat>>)
    requires AllFound(numbers)
    requires forall i :: 0 <= i < |numbers| ==> Digits(numbers[i])
    ensures CalibrationSum(numbers) <= 99 * |numbers|
  {
    if numbers != [] {
      var init := numbers[..|numbers| - 1];
      CalibrationSumBound(init);
      CalibrationDigits(numbers[|numbers| - 1]);
    }
  }

  /** Each line of the input yields at least one digit under `extract`. */
  predicate Calibrated(input: string, extract: string -> seq<nat>) {
    forall i :: 0 <= i < |NonEmptyLines(input)| ==> |extract(NonEmptyLines(input)[i])| > 0
  }

  method Part1(input: string) returns (total: nat)
    requires Calibrated(input, ExtractNumbers)
    ensures total == CalibrationSum(ExtractAll(NonEmptyLines(input), ExtractNumbers))
    ensures total <= 99 * |NonEmptyLines(input)|
  {
    var numbers := ParseInput(input, ExtractNumbers);
    CalibrationSumBound(numbers);
    total := CalibrationSum(numbers);
  }

  method Part2(input: string) returns (total: nat)
    requires Ascii(input)
    requires Calibrated(input, TextNumbers)
    ensures total == CalibrationSum(ExtractAll(NonEmptyLines(input), TextNumbers))
    ensures total <= 99 * |NonEmptyLines(input)|
  {
    var numbers := ParseInput(input, TextNumbers);
    forall i | 0 <= i < |numbers|
      ensures Digits(numbers[i])
    {
      var r := Scan(NonEmptyLines(input)[i], |NonEmptyLines(input)[i]|);
      assert numbers[i] == r;
    }
    CalibrationSumBound(numbers);
    total := CalibrationSum(numbers);
  }

  /** Part 2 can only find more: a line with a literal digit yields a digit
      in part 2 too, so an input fit for part 1 is fit for part 2. */
  lemma PartOneInputsFitPartTwo(input: string)
    requires Calibrated(input, ExtractNumbers)
    ensures Calibrated(input, TextNumbers)
  {
    forall i | 0 <= i < |NonEmptyLines(input)|
      ensures |TextNumbers(NonEmptyLines(input)[i])| > 0
    {
      var line := NonEmptyLines(input)[i];
      DigitsSurvive(line);
      SubsequenceLength(ExtractNumbers(line), TextNumbers(line));
    }
  }

  lemma {:induction false} SubsequenceLength(a: seq<nat>, b: seq<nat>)
    requires Subsequence(a, b)
    ensures |a| <= |b|
    decreases |b|
  {
    if a != [] {
      if a[|a| - 1] == b[|b| - 1] {
        SubsequenceLength(a[..|a| - 1], b[..|b| - 1]);
      } else {
        SubsequenceLength(a, b[..|b| - 1]);
      }
    }
  }
}
