/** The level reader's CSV layer: splitting a line into cells, .NET's
    int.Parse and its inverse int.ToString, and the two cursor classes that
    walk over the file's lines and over the cells of the current line. */
module Csv {
  import opened Wrappers
  import opened Seqs

  const Int32Min: int := -0x8000_0000
  const Int32Max: int := 0x7fff_ffff

  predicate IsInt32(n: int) {
    Int32Min <= n <= Int32Max
  }

  /** The pieces joined with the separator between neighbours. */
  function Join(cells: seq<string>, sep: char): string {
    if cells == [] then ""
    else if |cells| == 1 then cells[0]
    else cells[0] + [sep] + Join(cells[1..], sep)
  }

  /** String.Split(sep): the pieces between separators, empty pieces
      included, so there is always at least one. */
  function Split(s: string, sep: char): (r: seq<string>)
    ensures |r| >= 1
  {
    SplitFrom(s, sep, 0, 0)
  }

  /** The pieces of s from the one that starts at index start, whose
      characters before index i are not separators. */
  function SplitFrom(s: string, sep: char, start: nat, i: nat): (r: seq<string>)
    requires start <= i <= |s|
    ensures |r| >= 1
    decreases |s| - i
  {
    if i == |s| then [s[start..]]
    else if s[i] == sep then [s[start..i]] + SplitFrom(s, sep, i + 1, i + 1)
    else SplitFrom(s, sep, start, i + 1)
  }

  /** Splitting joined pieces that hold no separator gives the pieces back. */
  lemma SplitJoin(cells: seq<string>, sep: char)
    requires |cells| >= 1
    requires forall i :: 0 <= i < |cells| ==> sep !in cells[i]
    ensures Split(Join(cells, sep), sep) == cells
  {
    SplitFromJoin([], cells, sep, 0);
    assert [] + Join(cells, sep) == Join(cells, sep);
  }

  /** After any text p, the pieces from the first k characters of the first
      joined piece on are the pieces themselves. */
  lemma {:induction false} SplitFromJoin(p: string, cells: seq<string>, sep: char, k: nat)
    requires |cells| >= 1 && k <= |cells[0]|
    requires forall i :: 0 <= i < |cells| ==> sep !in cells[i]
    ensures SplitFrom(p + Join(cells, sep), sep, |p|, |p| + k) == cells
    decreases |cells|, |cells[0]| - k
  {
    var s := p + Join(cells, sep);
    var c := cells[0];
    if |cells| == 1 {
      assert s == p + c;
    } else {
      assert s == p + c + [sep] + Join(cells[1..], sep);
    }
    if k < |c| {
      assert s[|p| + k] == c[k];
      SplitFromJoin(p, cells, sep, k + 1);
    } else if |cells| == 1 {
      assert s[|p|..] == c;
    } else {
      var p' := p + c + [sep];
      assert s[|p| + k] == sep;
      assert s[|p|..|p| + k] == c;
      assert s == p' + Join(cells[1..], sep);
      SplitFromJoin(p', cells[1..], sep, 0);
      assert cells == [c] + cells[1..];
    }
  }

  /** The characters int.Parse skips before and after the number. */
  predicate IsWhite(c: char) {
    c == ' ' || c == '\t' || c == '\n' || c == '\U{000B}' || c == '\U{000C}' || c == '\r'
  }

  predicate IsDigit(c: char) {
    '0' <= c <= '9'
  }

  predicate AllDigits(s: string) {
    forall i :: 0 <= i < |s| ==> IsDigit(s[i])
  }

  /** The index of the first non-blank at or after i, or the end. */
  function SkipWhite(s: string, i: nat): (r: nat)
    requires i <= |s|
    ensures i <= r <= |s| && (r == |s| || !IsWhite(s[r]))
    decreases |s| - i
  {
    if i < |s| && IsWhite(s[i]) then SkipWhite(s, i + 1) else i
  }

  /** The end of the text before the blanks that precede index e. */
  function SkipWhiteBack(s: string, e: nat): (r: nat)
    requires e <= |s|
    ensures r <= e && (r == 0 || !IsWhite(s[r - 1]))
  {
    if e > 0 && IsWhite(s[e - 1]) then SkipWhiteBack(s, e - 1) else e
  }

  function TrimStart(s: string): (r: string) {
    s[SkipWhite(s, 0)..]
  }

  function TrimEnd(s: string): (r: string) {
    s[..SkipWhiteBack(s, |s|)]
  }

  /** The value of a string of decimal digits, most significant first. */
  function DigitsValue(ds: string): nat
    requires AllDigits(ds)
  {
    if ds == [] then 0 else 10 * DigitsValue(ds[..|ds| - 1]) + (ds[|ds| - 1] as int - '0' as int)
  }

  /** int.Parse with its default style: white space around the number, an
      optional leading sign, then one or more decimal digits. Anything else
      is a format error, and a value outside the 32-bit range overflows. */
  function ParseInt(s: string): (r: Result<int>)
    ensures r.Success? ==> IsInt32(r.value)
    ensures r.Failure? ==> r.error == FormatError || r.error == Overflow
  {
    ParseTrimmed(TrimEnd(TrimStart(s)))
  }

  /** The number itself, once the white space around it is gone: an
      optional sign, then the digits. */
  function ParseTrimmed(t: string): (r: Result<int>)
    ensures r.Success? ==> IsInt32(r.value)
    ensures r.Failure? ==> r.error == FormatError || r.error == Overflow
  {
    if |t| > 0 && (t[0] == '-' || t[0] == '+') then ParseSigned(t[1..], t[0] == '-')
    else ParseSigned(t, false)
  }

  /** One or more digits, negated after a minus sign, within 32 bits. */
  function ParseSigned(digits: string, negative: bool): (r: Result<int>)
    ensures r.Success? ==> IsInt32(r.value)
    ensures r.Failure? ==> r.error == FormatError || r.error == Overflow
  {
    if digits == [] || !AllDigits(digits) then Failure(FormatError)
    else
      var v: int := if negative then -(DigitsValue(digits) as int) else DigitsValue(digits);
      if IsInt32(v) then Success(v) else Failure(Overflow)
  }

  function DigitChar(d: nat): (c: char)
    requires d < 10
    ensures IsDigit(c) && c as int - '0' as int == d
  {
    ('0' as int + d) as char
  }

  /** The decimal digits of n, most significant first, without leading
      zeros. */
  function NatString(n: nat): (r: string)
    ensures |r| >= 1
  {
    if n < 10 then [DigitChar(n)] else NatString(n / 10) + [DigitChar(n % 10)]
  }

  /** int.ToString(): a minus sign for negative numbers, then the digits. */
  function IntString(n: int): (r: string)
    ensures |r| >= 1
  {
    if n < 0 then "-" + NatString(-n) else NatString(n)
  }

  /** The digits of n read back as n. */
  lemma {:induction false} NatStringDigits(n: nat)
    ensures AllDigits(NatString(n)) && DigitsValue(NatString(n)) == n
  {
    if n >= 10 {
      NatStringDigits(n / 10);
      var r := NatString(n);
      assert r[..|r| - 1] == NatString(n / 10);
    }
  }

  /** Text that starts and ends with a non-blank is left alone by both trims. */
  lemma TrimNoop(s: string)
    requires |s| >= 1 && !IsWhite(s[0]) && !IsWhite(s[|s| - 1])
    ensures TrimEnd(TrimStart(s)) == s
  {
  }

  /** Unsigned digits read as their value. */
  lemma ParseDigits(ds: string)
    requires |ds| >= 1 && AllDigits(ds) && DigitsValue(ds) <= Int32Max
    ensures ParseTrimmed(ds) == Success(DigitsValue(ds) as int)
  {
    assert IsDigit(ds[0]);
  }

  /** A minus sign and digits read as the negated value. */
  lemma ParseNegatedDigits(ds: string)
    requires |ds| >= 1 && AllDigits(ds) && DigitsValue(ds) <= -Int32Min
    ensures ParseTrimmed("-" + ds) == Success(-(DigitsValue(ds) as int))
  {
    assert ("-" + ds)[1..] == ds;
  }

  /** int.Parse reads back what int.ToString printed. */
  lemma ParseIntString(n: int)
    requires IsInt32(n)
    ensures ParseInt(IntString(n)) == Success(n)
  {
    var s := IntString(n);
    var ds := NatString(if n < 0 then -n else n);
    NatStringDigits(if n < 0 then -n else n);
    assert IsDigit(ds[|ds| - 1]);
    if n < 0 {
      assert s[0] == '-' && s[|s| - 1] == ds[|ds| - 1];
      TrimNoop(s);
      ParseNegatedDigits(ds);
    } else {
      assert IsDigit(ds[0]);
      TrimNoop(s);
      ParseDigits(ds);
    }
  }

  /** A number's text holds no comma and does not start with '$'. */
  lemma IntStringPlain(n: int)
    ensures ',' !in IntString(n) && IntString(n)[0] != '$'
  {
    var s := IntString(n);
    var ds := NatString(if n < 0 then -n else n);
    NatStringDigits(if n < 0 then -n else n);
    forall i | 0 <= i < |s|
      ensures s[i] != ','
    {
      if n < 0 && i > 0 {
        assert s[i] == ds[i - 1];
      }
    }
    if n >= 0 {
      assert IsDigit(ds[0]);
    }
  }

  /** The state of a CsvCellProvider: the current line's cells and the index
      of the current cell, -1 before the first MoveToNextCell. */
  datatype CellCursor = CellCursor(cells: seq<string>, index: int)
  {
    predicate HasCell() {
      index < |cells|
    }

    /** The list indexer throws outside 0 .. Count - 1. */
    function Current(): Result<string> {
      if 0 <= index < |cells| then Success(cells[index]) else Failure(IndexOutOfRange)
    }

    function CurrentAsInt(): Result<int> {
      var cell :- Current();
      ParseInt(cell)
    }

    /** A tag cell starts with '$'. */
    function CurrentIsTag(): Result<bool> {
      var cell :- Current();
      Success(|cell| > 0 && cell[0] == '$')
    }

    function Next(): CellCursor {
      CellCursor(cells, index + 1)
    }
  }

  /** The line index is a 32-bit int that starts at -1, the position before
      the first line. */
  type LineIndex = i: int | -1 <= i <= Int32Max witness -1

  /** The lines of a level file: File.ReadAllLines gives an array, whose
      length is an int. */
  type Lines = s: seq<string> | |s| <= Int32Max

  /** The state of a CsvLineProvider: the lines, the index of the current
      line, and the cell cursor of the last line moved to (None before the
      first). Moving past the last line keeps that cell cursor. */
  datatype LineCursor = LineCursor(lines: Lines, index: LineIndex, cells: Option<CellCursor>)
  {
    predicate HasLine() {
      index < |lines|
    }

    /** The move to the next line, below int.MaxValue. */
    function NextLine(): (r: LineCursor)
      requires index < Int32Max
      ensures r.lines == lines && r.index == index + 1
    {
      var i := index + 1;
      if i < |lines| then LineCursor(lines, i, Some(CellCursor(Split(lines[i], ','), 0)))
      else LineCursor(lines, i, cells)
    }

    /** MoveToNextLine's unchecked increment: from int.MaxValue the index
        wraps to int.MinValue, which HasLine accepts, so the list indexer
        is then called with a negative index and throws. */
    function Advance(): (r: Result<LineCursor>)
      ensures r.Success? <==> index < Int32Max
      ensures r.Success? ==> r.value.lines == lines && r.value.index == index + 1
      ensures r.Failure? ==> r.error == IndexOutOfRange
    {
      if index < Int32Max then Success(NextLine()) else Failure(IndexOutOfRange)
    }

    /** Reading through the cell cursor before the first line throws. */
    function CurrentCell(): Result<string> {
      if cells.None? then Failure(NullReference) else cells.value.Current()
    }

    function CurrentCellAsInt(): Result<int> {
      if cells.None? then Failure(NullReference) else cells.value.CurrentAsInt()
    }

    function CurrentCellIsTag(): Result<bool> {
      if cells.None? then Failure(NullReference) else cells.value.CurrentIsTag()
    }

    function MoveToNextCell(): LineCursor
      requires cells.Some?
    {
      this.(cells := Some(cells.value.Next()))
    }

    /** Positioned on the first cell of line i, or past the end. */
    predicate AtLineStart(i: nat) {
      && index == i
      && (i < |lines| ==> cells == Some(CellCursor(Split(lines[i], ','), 0)))
    }
  }

  class CsvCellProvider {
    const cells: seq<string>
    var index: int

    function View(): CellCursor
      reads this
    {
      CellCursor(cells, index)
    }

    constructor(line: string)
      ensures View() == CellCursor(Split(line, ','), -1)
    {
      cells := Split(line, ',');
      index := -1;
    }

    method MoveToNextCell() returns (hasCell: bool)
      modifies this
      ensures View() == old(View()).Next()
      ensures hasCell == View().HasCell()
    {
      index := index + 1;
      hasCell := index < |cells|;
    }

    /** A cell is there while the index has not passed the last one. */
    function HasCell(): (r: bool)
      reads this
      ensures r <==> index < |cells|
    {
      View().HasCell()
    }

    /** The current cell; the list indexer throws outside the cells. */
    function CurrentCell(): (r: Result<string>)
      reads this
      ensures r.Success? <==> 0 <= index < |cells|
      ensures r.Success? ==> r.value == cells[index]
      ensures r.Failure? ==> r.error == IndexOutOfRange
    {
      View().Current()
    }

    /** The current cell read with int.Parse: an index error first, then
        the parse's own format or overflow error. */
    function CurrentCellAsInt(): (r: Result<int>)
      reads this
      ensures !(0 <= index < |cells|) ==> r == Failure(IndexOutOfRange)
      ensures 0 <= index < |cells| ==> r == ParseInt(cells[index])
      ensures r.Success? ==> IsInt32(r.value)
    {
      View().CurrentAsInt()
    }

    /** Whether the current cell starts with '$'; an empty cell is not a
        tag. */
    function CurrentCellIsTag(): (r: Result<bool>)
      reads this
      ensures r.Success? <==> 0 <= index < |cells|
      ensures r.Success? ==> (r.value <==> |cells[index]| > 0 && cells[index][0] == '$')
      ensures r.Failure? ==> r.error == IndexOutOfRange
    {
      View().CurrentIsTag()
    }
  }

  class CsvLineProvider {
    const lines: Lines
    var index: LineIndex
    var cellsProvider: CsvCellProvider?

    function View(): LineCursor
      reads this, cellsProvider
    {
      LineCursor(lines, index, if cellsProvider == null then None else Some(cellsProvider.View()))
    }

    constructor(lines: Lines)
      ensures View() == LineCursor(lines, -1, None)
    {
      this.lines := lines;
      index := -1;
      cellsProvider := null;
    }

    /** Advances one line; on a line that exists, a new cell provider is
        made and moved to that line's first cell. From int.MaxValue the
        increment wraps and the list indexer throws, as Advance says. */
    method MoveToNextLine() returns (r: Result<bool>)
      modifies this
      ensures old(View()).Advance().Failure? ==> r == Failure(IndexOutOfRange) && unchanged(this)
      ensures old(View()).Advance().Success? ==> View() == old(View()).Advance().value && r == Success(View().HasLine())
      ensures cellsProvider == old(cellsProvider) || fresh(cellsProvider)
    {
      if index == Int32Max {
        return Failure(IndexOutOfRange);
      }
      index := index + 1;
      if index < |lines| {
        cellsProvider := new CsvCellProvider(lines[index]);
        var _ := cellsProvider.MoveToNextCell();
      }
      r := Success(index < |lines|);
    }

    /** A line is there exactly while the index is inside the list. */
    function HasLine(): (r: bool)
      reads this
      ensures r <==> View().HasLine()
      ensures !r ==> 0 <= |lines| <= index
    {
      index < |lines|
    }
  }
}
