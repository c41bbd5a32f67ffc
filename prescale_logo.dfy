/** The "PreScale" ASCII wordmark: fixed digit-density grids for each letter are mapped
    onto a character ramp, laid side by side with a size-dependent gap, and revealed
    left to right two columns per timer tick. */
module PreScaleLogo {

  import opened Wrappers

  /** The ramps of the logo's `preset` prop, blank first and densest last. */
  datatype LogoPreset = Dense | Balanced | Minimal | Blocks

  function LogoPresetChars(p: LogoPreset): (chars: string)
    ensures |chars| >= 4 && chars[0] == ' '
  {
    match p
    case Dense => " .,:;=+*#%@"
    case Balanced => " .-+*#"
    case Minimal => " .+#"
    case Blocks => " \U{2591}\U{2592}\U{2593}\U{2588}"
  }

  /** The logo's `preset` prop defaults to "dense". */
  const DefaultLogoPreset: LogoPreset := Dense

  /** The `size` prop; "sm" is the default. */
  datatype Size = Sm | Md | Lg | Hero

  /** Spaces between two letters of the word. */
  function Gap(size: Size): (gap: nat)
    ensures gap == (if size == Sm then 1 else 2)
  {
    if size == Sm then 1 else 2
  }

  // ---------------------------------------------------------------- letter data

  /** The keys of `LETTER_DATA` (`e` is reused for the last letter). */
  predicate IsLetterKey(c: char) {
    c in "PreScal"
  }

  /** `WORD_LETTERS`. */
  const WordLetters: string := "PreScale"

  /** The width shared by every row of one letter grid. */
  function LetterWidth(c: char): nat {
    if c == 'P' then 11 else if c == 'l' then 6 else 8
  }

  /** `LETTER_DATA[c]`: seven rows of density digits. */
  function LetterGrid(c: char): (rows: seq<string>)
    requires IsLetterKey(c)
    ensures |rows| == 7
    ensures forall i :: 0 <= i < 7 ==> |rows[i]| == LetterWidth(c)
  {
    if c == 'P' then
      ["99999999000", "99000009900", "99000009900", "99999999000", "99000000000", "99000000000", "99000000000"]
    else if c == 'r' then
      ["00000000", "00000000", "98009990", "99900000", "99000000", "99000000", "99000000"]
    else if c == 'e' then
      ["00000000", "00000000", "09999900", "99000099", "99999999", "99000000", "09999900"]
    else if c == 'S' then
      ["09999990", "99000099", "99000000", "09999900", "00000099", "99000099", "09999900"]
    else if c == 'c' then
      ["00000000", "00000000", "09999900", "99000099", "99000000", "99000099", "09999900"]
    else if c == 'a' then
      ["00000000", "00000000", "09999900", "00000099", "09999999", "99000099", "09999999"]
    else
      ["990000", "990000", "990000", "990000", "990000", "990000", "099900"]
  }

  lemma WordLettersAreKeys()
    ensures |WordLetters| == 8
    ensures forall i :: 0 <= i < 8 ==> IsLetterKey(WordLetters[i])
  {
  }

  // ---------------------------------------------------------------- mapToPreset

  /** `parseInt(ch, 10)` of a single character: its value for an ASCII digit, else NaN. */
  function DigitValue(ch: char): (v: Option<nat>)
    ensures v.Some? <==> '0' <= ch <= '9'
    ensures v.Some? ==> v.value < 10 && ch == ('0' as int + v.value) as char
  {
    if '0' <= ch <= '9' then Some(ch as int - '0' as int) else None
  }

  /** `Math.round((d / 9) * m)`: `floor(d*m/9 + 1/2)`. A value `d*m/9` is never exactly
      halfway between two integers because 9 is odd, so rounding is exact here. */
  function RoundIndex(d: int, m: int): int {
    (2 * d * m + 9) / 18
  }

  /** One character of a density row mapped onto the ramp `presetChars`. */
  function MapChar(ch: char, presetChars: string): char {
    var v := DigitValue(ch);
    if v.None? || v.value == 0 then ' '
    else
      var idx := RoundIndex(v.value, |presetChars| - 1);
      if 0 <= idx < |presetChars| then presetChars[idx] else ' '
  }

  function MapRow(row: string, presetChars: string): (mapped: string)
    ensures |mapped| == |row|
    ensures forall i :: 0 <= i < |row| ==> mapped[i] == MapChar(row[i], presetChars)
  {
    if row == [] then [] else [MapChar(row[0], presetChars)] + MapRow(row[1..], presetChars)
  }

  /** `mapToPreset`: every row mapped, the grid's shape kept. */
  function MapToPreset(grid: seq<string>, presetChars: string): (mapped: seq<string>)
    ensures |mapped| == |grid|
    ensures forall r :: 0 <= r < |grid| ==> |mapped[r]| == |grid[r]|
    ensures forall r, i :: 0 <= r < |grid| && 0 <= i < |grid[r]| ==>
      mapped[r][i] == MapChar(grid[r][i], presetChars)
  {
    if grid == [] then [] else [MapRow(grid[0], presetChars)] + MapToPreset(grid[1..], presetChars)
  }

  /** A `'0'` or anything that is not a digit becomes a blank, whatever the ramp. */
  lemma BlankForZeroOrNonDigit(ch: char, presetChars: string)
    requires !('1' <= ch <= '9')
    ensures MapChar(ch, presetChars) == ' '
  {
  }

  /** A digit 1-9 selects `presetChars[round(d*m/9)]`; the index lies in 0..m, and it is at
      least 1 exactly when `2*d*m >= 9` (so on the ramps with `m >= 5` density 1 is visible). */
  lemma DigitIndexRange(d: int, m: nat)
    requires 1 <= d <= 9
    ensures 0 <= RoundIndex(d, m) <= m
    ensures RoundIndex(d, m) >= 1 <==> 2 * d * m >= 9
  {
    MulMonoNat(d, 9, 2 * m);
    assert 2 * d * m <= 18 * m;
  }

  lemma MulMonoNat(a: int, b: int, c: nat)
    requires a <= b
    ensures a * c <= b * c
  {
  }

  /** Denser digits never pick an earlier glyph. */
  lemma DigitIndexMonotone(d: int, d': int, m: nat)
    requires 1 <= d <= d' <= 9
    ensures RoundIndex(d, m) <= RoundIndex(d', m)
  {
    MulMonoNat(d, d', 2 * m);
    assert 2 * d * m <= 2 * d' * m;
  }

  /** Density 9 gives the last glyph of the ramp. */
  lemma FullDensityIsLast(presetChars: string)
    requires |presetChars| >= 1
    ensures MapChar('9', presetChars) == presetChars[|presetChars| - 1]
  {
    var m := |presetChars| - 1;
    assert DigitValue('9') == Some(9);
    assert 2 * 9 * m + 9 == 18 * m + 9;
  }

  /** A digit in 1..9 on a non-empty ramp gives the ramp's glyph at the rounded index. */
  lemma DigitGlyph(ch: char, presetChars: string)
    requires '1' <= ch <= '9' && |presetChars| >= 1
    ensures MapChar(ch, presetChars) == presetChars[RoundIndex(ch as int - '0' as int, |presetChars| - 1)]
  {
    DigitIndexRange(ch as int - '0' as int, |presetChars| - 1);
  }

  /** Mapping only ever produces a glyph of the ramp or a blank. */
  lemma MapCharAlphabet(ch: char, presetChars: string)
    ensures MapChar(ch, presetChars) == ' ' || MapChar(ch, presetChars) in presetChars
  {
  }

  // ---------------------------------------------------------------- the word

  /** The `gap`-space separator (`" ".repeat(gap)`). */
  function Spaces(n: nat): (s: string)
    ensures |s| == n && forall i :: 0 <= i < n ==> s[i] == ' '
  {
    if n == 0 then "" else Spaces(n - 1) + " "
  }

  /** Row `r` of word letter `n`, mapped onto the ramp. */
  function LetterRow(presetChars: string, n: nat, r: nat): string
    requires r < 7 && n < 8
  {
    WordLettersAreKeys();
    MapToPreset(LetterGrid(WordLetters[n]), presetChars)[r]
  }

  /** What goes before letter `n`: nothing before the first, `gap` spaces before the others. */
  function Separator(gap: nat, n: nat): string {
    if n > 0 then Spaces(gap) else ""
  }

  /** Row `r` of the first `n` word letters, mapped and joined with the gap. */
  function WordLine(presetChars: string, gap: nat, r: nat, n: nat): string
    requires r < 7 && n <= 8
  {
    if n == 0 then ""
    else WordLine(presetChars, gap, r, n - 1) + Separator(gap, n - 1) + LetterRow(presetChars, n - 1, r)
  }

  /** The memoised `asciiLines`. */
  function AsciiLines(presetChars: string, gap: nat): seq<string> {
    seq(7, r requires 0 <= r < 7 => WordLine(presetChars, gap, r, 8))
  }

  /** The seven lines part way through letter `n`: rows before `r` already extended. */
  function PartialLines(presetChars: string, gap: nat, n: nat, r: nat): (lines: seq<string>)
    requires n < 8 && r <= 7
    ensures |lines| == 7
  {
    seq(7, q requires 0 <= q < 7 => if q < r then WordLine(presetChars, gap, q, n + 1) else WordLine(presetChars, gap, q, n))
  }

  /** The `asciiLines` memo body: seven lines filled in place, letter by letter. */
  method BuildAsciiLines(presetChars: string, size: Size) returns (lines: seq<string>)
    ensures lines == AsciiLines(presetChars, Gap(size))
  {
    var gap := if size == Sm then 1 else 2;
    var buf := new string[7](_ => "");
    var li := 0;
    while li < 8
      invariant 0 <= li <= 8
      invariant li < 8 ==> buf[..] == PartialLines(presetChars, gap, li, 0)
      invariant li == 8 ==> buf[..] == AsciiLines(presetChars, gap)
    {
      AppendLetter(buf, presetChars, gap, li);
      assert li + 1 < 8 ==> PartialLines(presetChars, gap, li, 7) == PartialLines(presetChars, gap, li + 1, 0);
      assert li + 1 == 8 ==> PartialLines(presetChars, gap, li, 7) == AsciiLines(presetChars, gap);
      li := li + 1;
    }
    lines := buf[..];
  }

  /** The `forEach` callback for letter `li`: its mapped rows appended to the seven lines. */
  method AppendLetter(buf: array<string>, presetChars: string, gap: nat, li: nat)
    requires buf.Length == 7 && li < 8
    requires buf[..] == PartialLines(presetChars, gap, li, 0)
    modifies buf
    ensures buf[..] == PartialLines(presetChars, gap, li, 7)
  {
    WordLettersAreKeys();
    var mapped := MapToPreset(LetterGrid(WordLetters[li]), presetChars);
    var r := 0;
    while r < 7
      invariant 0 <= r <= 7
      invariant buf[..] == PartialLines(presetChars, gap, li, r)
    {
      AppendStep(presetChars, gap, li, r, mapped);
      buf[r] := buf[r] + ((if li > 0 then Spaces(gap) else "") + mapped[r]);
      r := r + 1;
    }
  }

  lemma AppendStep(presetChars: string, gap: nat, li: nat, r: nat, mapped: seq<string>)
    requires li < 8 && r < 7
    requires IsLetterKey(WordLetters[li]) && mapped == MapToPreset(LetterGrid(WordLetters[li]), presetChars)
    ensures var before := PartialLines(presetChars, gap, li, r);
      before[r := before[r] + ((if li > 0 then Spaces(gap) else "") + mapped[r])]
        == PartialLines(presetChars, gap, li, r + 1)
  {
    var before := PartialLines(presetChars, gap, li, r);
    assert mapped[r] == LetterRow(presetChars, li, r);
    assert before[r] + ((if li > 0 then Spaces(gap) else "") + mapped[r]) == WordLine(presetChars, gap, r, li + 1);
  }

  /** Sum of the widths of the first `n` word letters. */
  function PrefixWidth(n: nat): nat
    requires n <= 8
  {
    if n == 0 then 0 else PrefixWidth(n - 1) + LetterWidth(WordLetters[n - 1])
  }

  lemma {:induction false} WordLineLength(presetChars: string, gap: nat, r: nat, n: nat)
    requires r < 7 && 1 <= n <= 8
    ensures |WordLine(presetChars, gap, r, n)| == PrefixWidth(n) + (n - 1) * gap
  {
    WordLineStep(presetChars, gap, r, n);
    if n > 1 {
      WordLineLength(presetChars, gap, r, n - 1);
      assert (n - 1) * gap == (n - 2) * gap + gap;
    }
  }

  lemma WordLineStep(presetChars: string, gap: nat, r: nat, n: nat)
    requires r < 7 && 1 <= n <= 8
    ensures |WordLine(presetChars, gap, r, n)|
      == |WordLine(presetChars, gap, r, n - 1)| + (if n > 1 then gap else 0) + LetterWidth(WordLetters[n - 1])
    ensures PrefixWidth(n) == PrefixWidth(n - 1) + LetterWidth(WordLetters[n - 1])
  {
    LetterRowWidth(presetChars, n - 1, r);
  }

  lemma LetterRowWidth(presetChars: string, n: nat, r: nat)
    requires r < 7 && n < 8
    ensures |LetterRow(presetChars, n, r)| == LetterWidth(WordLetters[n])
  {
    WordLettersAreKeys();
  }

  /** Seven lines, all of width `65 + 7*gap`; `totalCols` is that width. */
  lemma AsciiLinesShape(presetChars: string, gap: nat)
    ensures |AsciiLines(presetChars, gap)| == 7
    ensures forall r :: 0 <= r < 7 ==> |AsciiLines(presetChars, gap)[r]| == 65 + 7 * gap
    ensures TotalCols(AsciiLines(presetChars, gap)) == 65 + 7 * gap
  {
    assert PrefixWidth(8) == 65;
    forall r | 0 <= r < 7
      ensures |AsciiLines(presetChars, gap)[r]| == 65 + 7 * gap
    {
      WordLineLength(presetChars, gap, r, 8);
    }
  }

  /** Adding letters only appends: an earlier line is a prefix of a later one. */
  lemma {:induction false} WordLinePrefix(presetChars: string, gap: nat, r: nat, m: nat, n: nat)
    requires r < 7 && m <= n <= 8
    ensures WordLine(presetChars, gap, r, m) <= WordLine(presetChars, gap, r, n)
  {
    if m < n {
      WordLinePrefix(presetChars, gap, r, m, n - 1);
    }
  }

  /** Every character of the word is a blank or a glyph of the ramp. */
  lemma {:induction false} WordLineAlphabet(presetChars: string, gap: nat, r: nat, n: nat)
    requires r < 7 && n <= 8
    ensures forall i :: 0 <= i < |WordLine(presetChars, gap, r, n)| ==>
      WordLine(presetChars, gap, r, n)[i] == ' ' || WordLine(presetChars, gap, r, n)[i] in presetChars
  {
    if n > 0 {
      WordLettersAreKeys();
      WordLineAlphabet(presetChars, gap, r, n - 1);
      var grid := LetterGrid(WordLetters[n - 1]);
      var mapped := LetterRow(presetChars, n - 1, r);
      forall i | 0 <= i < |mapped|
        ensures mapped[i] == ' ' || mapped[i] in presetChars
      {
        MapCharAlphabet(grid[r][i], presetChars);
      }
    }
  }

  // ---------------------------------------------------------------- reveal

  /** `asciiLines[0]?.length || 0`. */
  function TotalCols(lines: seq<string>): (n: nat)
    ensures lines == [] ==> n == 0
    ensures lines != [] ==> n == |lines[0]|
  {
    if lines == [] then 0 else |lines[0]|
  }

  /** `line.slice(0, revealCol)`. */
  function VisibleLine(line: string, revealCol: nat): (visible: string)
    ensures |visible| == if revealCol < |line| then revealCol else |line|
    ensures visible <= line
  {
    if revealCol < |line| then line[..revealCol] else line
  }

  /** Once the reveal column reaches the line's width, the whole line shows. */
  lemma FullyRevealed(line: string, revealCol: nat)
    requires revealCol >= |line|
    ensures VisibleLine(line, revealCol) == line
  {
  }

  /** The reveal state of one mounted logo: the `revealCol` state, the `hasAnimated` ref,
      and the `col` counter and active interval of the reveal effect. */
  class LogoReveal {
    var revealCol: nat
    var hasAnimated: bool
    var col: nat
    var intervalActive: bool
    var totalCols: nat

    /** `useState(animate ? 0 : 999)` and `useRef(false)`. */
    constructor (animate: bool)
      ensures revealCol == (if animate then 0 else 999)
      ensures !hasAnimated && !intervalActive && col == 0 && totalCols == 0
    {
      revealCol := if animate then 0 else 999;
      hasAnimated := false;
      col := 0;
      intervalActive := false;
      totalCols := 0;
    }

    /** The reveal effect, run after the previous run's cleanup. */
    method RunEffect(animate: bool, total: nat)
      requires !intervalActive
      modifies this
      ensures totalCols == total
      ensures !animate || old(hasAnimated) ==>
        revealCol == total && hasAnimated == old(hasAnimated) && !intervalActive && col == old(col)
      ensures animate && !old(hasAnimated) ==>
        hasAnimated && intervalActive && col == 0 && revealCol == old(revealCol)
      ensures animate && !old(hasAnimated) && old(revealCol) == 0 ==> Revealing()
    {
      totalCols := total;
      if !animate || hasAnimated {
        revealCol := total;
        return;
      }
      hasAnimated := true;
      col := 0;
      intervalActive := true;
    }

    /** The state of a first-time reveal in progress: the counter and `revealCol` agree. */
    predicate Revealing()
      reads this
    {
      intervalActive && revealCol == col && col % 2 == 0 && col < totalCols + 2
    }

    /** One interval callback. */
    method Tick()
      requires intervalActive
      modifies this
      ensures col == old(col) + 2 && revealCol == col
      ensures intervalActive == (col < totalCols)
      ensures hasAnimated == old(hasAnimated) && totalCols == old(totalCols)
      ensures old(Revealing()) ==> revealCol == old(revealCol) + 2
      ensures old(Revealing()) && intervalActive ==> Revealing()
    {
      col := col + 2;
      revealCol := col;
      if col >= totalCols {
        intervalActive := false;
      }
    }

    /** The effect's cleanup, `clearInterval`. */
    method Cleanup()
      modifies this
      ensures !intervalActive
      ensures revealCol == old(revealCol) && col == old(col) && hasAnimated == old(hasAnimated)
      ensures totalCols == old(totalCols)
    {
      intervalActive := false;
    }
  }
}
