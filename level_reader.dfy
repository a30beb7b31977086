/** The level file reader: tagged blocks of CSV lines, read through the
    cursor classes, become level templates. A level block is a `$Level$`
    line, a `$ShapeCount$` line carrying the count in its second cell, a
    `$TileColors$` line followed by rows of integers, a `$ShapeMasks$` line
    followed by rows of integers, and a `$ShapeMoves$` line followed by one
    line per shape, which is skipped. Blocks follow each other until the
    lines run out.

    Each parsing method is proved to do what a function over the cursors'
    states (`LineCursor`) does, and the lemmas at the end prove that
    reading back the lines written for any list of levels gives their
    templates. */
module LevelReader {
  import opened Wrappers
  import opened Seqs
  import opened Csv
  import opened LevelRepository
  import opened LevelShapes

  /** A tag's cell text: the name between two dollar signs. */
  function TagString(tag: string): (r: string)
    ensures |r| == |tag| + 2 && r[0] == '$' && r[|r| - 1] == '$'
    ensures r[1..|r| - 1] == tag
  {
    "$" + tag + "$"
  }

  /** The current cell must be the tag, or the reader throws. */
  function CheckTag(lc: LineCursor, tag: string): Outcome {
    match lc.CurrentCell()
    case Failure(e) => Fail(e)
    case Success(cell) => if cell == TagString(tag) then Pass else Fail(UnexpectedTag(tag))
  }

  /** The tag, then on to the next line. */
  function TagLine(lc: LineCursor, tag: string): Result<LineCursor> {
    if CheckTag(lc, tag).Fail? then Failure(CheckTag(lc, tag).error) else lc.Advance()
  }

  /** The tag, then on to the next cell of the same line. */
  function TagCell(lc: LineCursor, tag: string): Result<LineCursor> {
    if CheckTag(lc, tag).Fail? then Failure(CheckTag(lc, tag).error) else Success(lc.MoveToNextCell())
  }

  /** The integers of one row: cells are read until the line ends or an
      empty cell; acc holds the ones read so far. */
  function RowFrom(c: CellCursor, acc: seq<int>): Result<(seq<int>, CellCursor)>
    decreases |c.cells| - c.index
  {
    if !c.HasCell() then Success((acc, c))
    else
      var cell :- c.Current();
      if cell == "" then Success((acc, c))
      else
        var v :- ParseInt(cell);
        RowFrom(c.Next(), acc + [v])
  }

  /** Rows are read until the lines run out or a line's current cell is a
      tag; acc holds the rows read so far. */
  function RowsFrom(lc: LineCursor, acc: seq<seq<int>>): (r: Result<(seq<seq<int>>, LineCursor)>)
    ensures r.Success? ==> r.value.1.lines == lc.lines && r.value.1.index >= lc.index
    decreases |lc.lines| - lc.index
  {
    if !lc.HasLine() then Success((acc, lc))
    else
      var isTag :- lc.CurrentCellIsTag();
      if isTag then Success((acc, lc))
      else
        var row :- RowFrom(lc.cells.value, []);
        RowsFrom(lc.(cells := Some(row.1)).NextLine(), acc + [row.0])
  }

  /** k moves to the next line; the one that would take the index past
      int.MaxValue throws. */
  function SkipLines(lc: LineCursor, k: int): (r: Result<LineCursor>)
    ensures r.Success? <==> lc.index + Max(0, k) <= Int32Max
    ensures r.Success? ==> r.value.lines == lc.lines && r.value.index == lc.index + Max(0, k)
    ensures r.Failure? ==> r.error == IndexOutOfRange
    decreases k
  {
    if k <= 0 then Success(lc)
    else
      var next :- lc.Advance();
      SkipLines(next, k - 1)
  }

  /** The `$Level$` line and the `$ShapeCount$` line: the count, and the
      cursor on the line after them. */
  function CountAt(lc: LineCursor): (r: Result<(int, LineCursor)>)
    ensures r.Success? ==> r.value.1.lines == lc.lines && r.value.1.index == lc.index + 2
  {
    var lc1 :- TagLine(lc, "Level");
    var lc2 :- TagCell(lc1, "ShapeCount");
    var count :- lc2.CurrentCellAsInt();
    var lc3 :- lc2.Advance();
    Success((count, lc3))
  }

  /** A tag line and the rows of integers after it. */
  function GridAt(lc: LineCursor, tag: string): (r: Result<(seq<seq<int>>, LineCursor)>)
    ensures r.Success? ==> r.value.1.lines == lc.lines && r.value.1.index > lc.index
  {
    var lc1 :- TagLine(lc, tag);
    RowsFrom(lc1, [])
  }

  /** One level block, and the cursor after it. A block read whole has
      fewer than int.MaxValue shapes: its skip would otherwise throw. */
  function LevelAt(lc: LineCursor): (r: Result<(Level, LineCursor)>)
    ensures r.Success? ==> r.value.1.lines == lc.lines && r.value.1.index > lc.index
    ensures r.Success? ==> r.value.0.shapeCount < Int32Max
  {
    var count :- CountAt(lc);
    var colors :- GridAt(count.1, "TileColors");
    LevelAfterColors(colors.1, count.0, colors.0)
  }

  /** The rest of a level block after its tile colours: the shape masks,
      the `$ShapeMoves$` tag and the move lines skipped. */
  function LevelAfterColors(lc: LineCursor, count: int, colors: seq<seq<int>>): (r: Result<(Level, LineCursor)>)
    ensures r.Success? ==> r.value.1.lines == lc.lines && r.value.1.index > lc.index
    ensures r.Success? ==> r.value.0.shapeCount == count && lc.index + 2 + count <= Int32Max
  {
    var masks :- GridAt(lc, "ShapeMasks");
    var lc1 :- TagLine(masks.1, "ShapeMoves");
    var skipped :- SkipLines(lc1, count);
    Success((Level(count, colors, masks.0), skipped))
  }

  /** Level blocks are read and converted until the lines run out; acc
      holds the templates so far. */
  function TemplatesFrom(lc: LineCursor, acc: seq<LevelTemplate>): Result<seq<LevelTemplate>>
    decreases |lc.lines| - lc.index
  {
    if !lc.HasLine() then Success(acc)
    else
      var parsed :- LevelAt(lc);
      var template :- TemplateOf(parsed.0);
      TemplatesFrom(parsed.1, acc + [template])
  }

  /** The templates of a whole file, read from its first line. */
  function ReadTemplates(lines: Lines): Result<seq<LevelTemplate>> {
    TemplatesFrom(LineCursor(lines, -1, None).NextLine(), [])
  }

  /** A parsing step with a value: on success the value and the cursor's
      new state, otherwise the error. */
  ghost predicate Follows<T, S>(spec: Result<(T, S)>, r: Result<T>, after: S) {
    if spec.Success? then r == Success(spec.value.0) && after == spec.value.1 else r == Failure(spec.error)
  }

  /** A parsing step without a value. */
  ghost predicate Steps(spec: Result<LineCursor>, r: Outcome, after: LineCursor) {
    if spec.Success? then r == Pass && after == spec.value else r == Fail(spec.error)
  }

  method AssertCurrentCellHasTag(lp: CsvLineProvider, tag: string) returns (r: Outcome)
    ensures r == CheckTag(lp.View(), tag)
  {
    if lp.cellsProvider == null {
      return Fail(NullReference);
    }
    var cell := lp.cellsProvider.CurrentCell();
    if cell.Failure? {
      return Fail(cell.error);
    }
    r := if cell.value == TagString(tag) then Pass else Fail(UnexpectedTag(tag));
  }

  method ConsumeTagLine(lp: CsvLineProvider, tag: string) returns (r: Outcome)
    modifies lp
    ensures Steps(TagLine(old(lp.View()), tag), r, lp.View())
    ensures lp.cellsProvider == old(lp.cellsProvider) || fresh(lp.cellsProvider)
  {
    r := AssertCurrentCellHasTag(lp, tag);
    if r.Pass? {
      var moved := lp.MoveToNextLine();
      if moved.Failure? {
        r := Fail(moved.error);
      }
    }
  }

  method ConsumeTagCell(lp: CsvLineProvider, tag: string) returns (r: Outcome)
    modifies lp.cellsProvider
    ensures Steps(TagCell(old(lp.View()), tag), r, lp.View())
  {
    r := AssertCurrentCellHasTag(lp, tag);
    if r.Pass? {
      var _ := lp.cellsProvider.MoveToNextCell();
    }
  }

  /** The inner loop of ParseIntArray: the integers of the current line,
      up to its end or its first empty cell. */
  method ReadRow(cp: CsvCellProvider) returns (r: Result<seq<int>>)
    modifies cp
    ensures Follows(RowFrom(old(cp.View()), []), r, cp.View())
  {
    var cells: seq<int> := [];
    while cp.HasCell()
      invariant RowFrom(old(cp.View()), []) == RowFrom(cp.View(), cells)
      decreases |cp.cells| - cp.index
    {
      var cell := cp.CurrentCell();
      if cell.Failure? {
        return Failure(cell.error);
      }
      if cell.value == "" {
        break;
      }
      var v := cp.CurrentCellAsInt();
      if v.Failure? {
        return Failure(v.error);
      }
      cells := cells + [v.value];
      var _ := cp.MoveToNextCell();
    }
    r := Success(cells);
  }

  /** Reads rows of integers up to the next tag line or the end. */
  method ParseIntArray(lp: CsvLineProvider) returns (r: Result<seq<seq<int>>>)
    modifies lp, lp.cellsProvider
    ensures Follows(RowsFrom(old(lp.View()), []), r, lp.View())
    ensures lp.cellsProvider == old(lp.cellsProvider) || fresh(lp.cellsProvider)
  {
    var rows: seq<seq<int>> := [];
    while lp.HasLine()
      invariant RowsFrom(old(lp.View()), []) == RowsFrom(lp.View(), rows)
      invariant lp.cellsProvider == old(lp.cellsProvider) || fresh(lp.cellsProvider)
      decreases |lp.lines| - lp.index
    {
      if lp.cellsProvider == null {
        return Failure(NullReference);
      }
      var cp := lp.cellsProvider;
      var isTag := cp.CurrentCellIsTag();
      if isTag.Failure? {
        return Failure(isTag.error);
      }
      if isTag.value {
        break;
      }
      var cells := ReadRow(cp);
      if cells.Failure? {
        return Failure(cells.error);
      }
      rows := rows + [cells.value];
      var _ := lp.MoveToNextLine();
    }
    r := Success(rows);
  }

  /** The first lines of ParseLevel: the `$Level$` tag line, then the
      `$ShapeCount$` tag cell and the count in the next cell. */
  method ParseShapeCount(lp: CsvLineProvider) returns (r: Result<int>)
    modifies lp, lp.cellsProvider
    ensures Follows(CountAt(old(lp.View())), r, lp.View())
    ensures lp.cellsProvider == old(lp.cellsProvider) || fresh(lp.cellsProvider)
  {
    var ok := ConsumeTagLine(lp, "Level");
    if ok.Fail? {
      return Failure(ok.error);
    }
    ok := ConsumeTagCell(lp, "ShapeCount");
    if ok.Fail? {
      return Failure(ok.error);
    }
    if lp.cellsProvider == null {
      return Failure(NullReference);
    }
    r := lp.cellsProvider.CurrentCellAsInt();
    if r.Failure? {
      return;
    }
    var moved := lp.MoveToNextLine();
    if moved.Failure? {
      r := Failure(moved.error);
    }
  }

  /** A tag line, then ParseIntArray. */
  method ParseGrid(lp: CsvLineProvider, tag: string) returns (r: Result<seq<seq<int>>>)
    modifies lp, lp.cellsProvider
    ensures Follows(GridAt(old(lp.View()), tag), r, lp.View())
    ensures lp.cellsProvider == old(lp.cellsProvider) || fresh(lp.cellsProvider)
  {
    var ok := ConsumeTagLine(lp, tag);
    if ok.Fail? {
      return Failure(ok.error);
    }
    r := ParseIntArray(lp);
  }

  /** The last loop of ParseLevel: one line per shape is passed over. */
  method SkipShapeMoves(lp: CsvLineProvider, count: int) returns (r: Outcome)
    modifies lp
    ensures Steps(SkipLines(old(lp.View()), count), r, lp.View())
    ensures lp.cellsProvider == old(lp.cellsProvider) || fresh(lp.cellsProvider)
  {
    var i := 0;
    while i < count
      invariant 0 <= i <= Max(0, count)
      invariant SkipLines(old(lp.View()), count) == SkipLines(lp.View(), count - i)
      invariant lp.cellsProvider == old(lp.cellsProvider) || fresh(lp.cellsProvider)
    {
      var moved := lp.MoveToNextLine();
      if moved.Failure? {
        return Fail(moved.error);
      }
      i := i + 1;
    }
    r := Pass;
  }

  /** Reads one level block: the tags in order, the shape count, the two
      grids, and then skips one line per shape. */
  method ParseLevel(lp: CsvLineProvider) returns (r: Result<Level>)
    modifies lp, lp.cellsProvider
    ensures Follows(LevelAt(old(lp.View())), r, lp.View())
    ensures lp.cellsProvider == old(lp.cellsProvider) || fresh(lp.cellsProvider)
  {
    ghost var lc0 := lp.View();
    var count := ParseShapeCount(lp);
    if count.Failure? {
      return Failure(count.error);
    }
    ghost var lc1 := lp.View();
    assert CountAt(lc0) == Success((count.value, lc1));
    var colors := ParseGrid(lp, "TileColors");
    if colors.Failure? {
      return Failure(colors.error);
    }
    ghost var lc2 := lp.View();
    assert GridAt(lc1, "TileColors") == Success((colors.value, lc2));
    var masks := ParseGrid(lp, "ShapeMasks");
    if masks.Failure? {
      return Failure(masks.error);
    }
    ghost var lc3 := lp.View();
    assert GridAt(lc2, "ShapeMasks") == Success((masks.value, lc3));
    var ok := ConsumeTagLine(lp, "ShapeMoves");
    if ok.Fail? {
      return Failure(ok.error);
    }
    assert TagLine(lc3, "ShapeMoves") == Success(lp.View());
    ok := SkipShapeMoves(lp, count.value);
    if ok.Fail? {
      return Failure(ok.error);
    }
    r := Success(Level(count.value, colors.value, masks.value));
  }

  /** Reads and converts level blocks until the lines run out. */
  method ReadLevelTemplates(lines: Lines) returns (r: Result<seq<LevelTemplate>>)
    ensures r == ReadTemplates(lines)
  {
    var lp := new CsvLineProvider(lines);
    var levels: seq<LevelTemplate> := [];
    var _ := lp.MoveToNextLine();
    while lp.HasLine()
      invariant fresh(lp) && (lp.cellsProvider == null || fresh(lp.cellsProvider))
      invariant TemplatesFrom(lp.View(), levels) == ReadTemplates(lines)
      decreases |lp.lines| - lp.index
    {
      var level := ParseLevel(lp);
      if level.Failure? {
        return Failure(level.error);
      }
      var template := ConvertLevelDataToLevelTemplate(level.value);
      if template.Failure? {
        return Failure(template.error);
      }
      levels := levels + [template.value];
    }
    r := Success(levels);
  }

  // The lines a level file holds for given levels, and the proof that the
  // reader gives back their templates.

  /** The cells int.ToString writes for a row of integers. */
  function NumberCells(row: seq<int>): (r: seq<string>)
    ensures |r| == |row|
  {
    seq(|row|, i requires 0 <= i < |row| => IntString(row[i]))
  }

  /** A row of integers written as one line, comma separated. */
  function RowLine(row: seq<int>): string {
    Join(NumberCells(row), ',')
  }

  /** The cells of the `$ShapeCount$` line. */
  function CountCells(count: int): seq<string> {
    [TagString("ShapeCount"), IntString(count)]
  }

  /** A level block's lines: the tags, the count, the two grids a row per
      line, and the given shape-move lines. */
  function LevelLines(level: Level, moves: seq<string>): (r: seq<string>)
    ensures |r| == 5 + |level.tileColors| + |level.shapeMasks| + |moves|
  {
    [TagString("Level"), Join(CountCells(level.shapeCount), ','), TagString("TileColors")]
    + seq(|level.tileColors|, i requires 0 <= i < |level.tileColors| => RowLine(level.tileColors[i]))
    + [TagString("ShapeMasks")]
    + seq(|level.shapeMasks|, i requires 0 <= i < |level.shapeMasks| => RowLine(level.shapeMasks[i]))
    + [TagString("ShapeMoves")]
    + moves
  }

  predicate Int32Grid(grid: seq<seq<int>>) {
    forall i, j :: 0 <= i < |grid| && 0 <= j < |grid[i]| ==> IsInt32(grid[i][j])
  }

  /** A level whose numbers fit in 32 bits, with one move line per shape. */
  predicate Writable(level: Level, moves: seq<string>) {
    && 0 <= level.shapeCount <= Int32Max
    && |moves| == level.shapeCount
    && Int32Grid(level.tileColors)
    && Int32Grid(level.shapeMasks)
  }

  /** A whole file: the level blocks one after another. */
  function FileLines(levels: seq<Level>, moves: seq<seq<string>>): seq<string>
    requires |moves| == |levels|
  {
    if levels == [] then [] else LevelLines(levels[0], moves[0]) + FileLines(levels[1..], moves[1..])
  }

  /** The templates of the levels in order, or the first conversion error. */
  function TemplatesOf(levels: seq<Level>, acc: seq<LevelTemplate>): Result<seq<LevelTemplate>> {
    if levels == [] then Success(acc)
    else
      var template :- TemplateOf(levels[0]);
      TemplatesOf(levels[1..], acc + [template])
  }

  lemma TagSplit(tag: string)
    requires ',' !in tag
    ensures Split(TagString(tag), ',') == [TagString(tag)]
  {
    assert TagString(tag) == ['$'] + tag + ['$'];
    SplitJoin([TagString(tag)], ',');
  }

  /** On the first cell of a line holding just the tag, the tag is
      consumed and the cursor moves to the next line's first cell. */
  lemma TagLineAt(lc: LineCursor, i: nat, tag: string)
    requires ',' !in tag && lc.AtLineStart(i) && i < |lc.lines| && lc.lines[i] == TagString(tag)
    ensures TagLine(lc, tag) == Success(lc.NextLine())
    ensures lc.NextLine().AtLineStart(i + 1)
  {
    TagSplit(tag);
  }

  /** One written cell: present, not empty, and read back as its number. */
  lemma NumberCell(row: seq<int>, k: nat)
    requires k < |row| && IsInt32(row[k])
    ensures var c := CellCursor(NumberCells(row), k);
      c.HasCell() && c.Current() == Success(IntString(row[k])) && IntString(row[k]) != ""
      && ParseInt(IntString(row[k])) == Success(row[k])
  {
    ParseIntString(row[k]);
    IntStringPlain(row[k]);
  }

  /** The cells of a written row read back as the row. */
  lemma {:induction false} RowFromCells(row: seq<int>, k: nat, acc: seq<int>)
    requires k <= |row| && acc == row[..k]
    requires forall j :: 0 <= j < |row| ==> IsInt32(row[j])
    ensures RowFrom(CellCursor(NumberCells(row), k), acc) == Success((row, CellCursor(NumberCells(row), |row|)))
    decreases |row| - k
  {
    if k < |row| {
      RowFromStep(row, k, acc);
      TakeSnoc(row, k);
      RowFromCells(row, k + 1, acc + [row[k]]);
    } else {
      assert acc == row;
    }
  }

  /** Reading one written cell appends its number. */
  lemma RowFromStep(row: seq<int>, k: nat, acc: seq<int>)
    requires k < |row| && IsInt32(row[k])
    ensures RowFrom(CellCursor(NumberCells(row), k), acc) == RowFrom(CellCursor(NumberCells(row), k + 1), acc + [row[k]])
  {
    NumberCell(row, k);
    RowFromCell(NumberCells(row), k, acc, IntString(row[k]), row[k]);
  }

  /** A present, non-empty cell that parses as v appends v to the row. */
  lemma RowFromCell(cells: seq<string>, k: int, acc: seq<int>, cell: string, v: int)
    requires CellCursor(cells, k).HasCell() && CellCursor(cells, k).Current() == Success(cell)
    requires cell != "" && ParseInt(cell) == Success(v)
    ensures RowFrom(CellCursor(cells, k), acc) == RowFrom(CellCursor(cells, k + 1), acc + [v])
  {
  }

  /** A line whose first cell is a tag. */
  predicate TagFirst(line: string) {
    CellCursor(Split(line, ','), 0).CurrentIsTag() == Success(true)
  }

  lemma TagLineIsTag(tag: string)
    requires ',' !in tag
    ensures TagFirst(TagString(tag))
  {
    TagSplit(tag);
  }

  /** Moving to the next line reaches its first cell. */
  lemma NextLineStart(lc: LineCursor, i: nat)
    requires lc.index + 1 == i <= |lc.lines|
    ensures lc.NextLine().lines == lc.lines && lc.NextLine().AtLineStart(i)
  {
  }

  /** The cells of a written row; an empty row is an empty line, which
      splits into one empty cell. */
  function RowCells(row: seq<int>): seq<string> {
    if row == [] then [""] else NumberCells(row)
  }

  /** A line whose cells are those written for a row of 32-bit numbers. */
  predicate ReadsAs(line: string, row: seq<int>) {
    (forall j :: 0 <= j < |row| ==> IsInt32(row[j])) && Split(line, ',') == RowCells(row)
  }

  /** A written row's line. */
  lemma RowLineReadsAs(row: seq<int>)
    requires forall j :: 0 <= j < |row| ==> IsInt32(row[j])
    ensures ReadsAs(RowLine(row), row)
  {
    if row == [] {
      assert Split(RowLine(row), ',') == [""];
    } else {
      var cells := NumberCells(row);
      forall i | 0 <= i < |cells|
        ensures ',' !in cells[i]
      {
        IntStringPlain(row[i]);
      }
      SplitJoin(cells, ',');
    }
  }

  /** The cells of a written row are not a tag and read back as the row. */
  lemma RowCellsRead(row: seq<int>)
    requires forall j :: 0 <= j < |row| ==> IsInt32(row[j])
    ensures CellCursor(RowCells(row), 0).CurrentIsTag() == Success(false)
    ensures RowFrom(CellCursor(RowCells(row), 0), []).Success?
    ensures RowFrom(CellCursor(RowCells(row), 0), []).value.0 == row
  {
    if row != [] {
      NumberCell(row, 0);
      IntStringPlain(row[0]);
      RowFromCells(row, 0, []);
    }
  }

  /** Lines i, i + 1, ... read as the rows, one line per row. */
  predicate RowLinesFrom(lines: seq<string>, i: nat, rows: seq<seq<int>>)
    decreases |rows|
  {
    rows == [] || (i < |lines| && ReadsAs(lines[i], rows[0]) && RowLinesFrom(lines, i + 1, rows[1..]))
  }

  /** The row-by-row condition from one that holds line by line. */
  lemma {:induction false} RowLinesFromEach(lines: seq<string>, i: nat, rows: seq<seq<int>>)
    requires i + |rows| <= |lines|
    requires forall k :: 0 <= k < |rows| ==> ReadsAs(lines[i + k], rows[k])
    ensures RowLinesFrom(lines, i, rows)
    decreases |rows|
  {
    if rows != [] {
      assert ReadsAs(lines[i], rows[0]);
      forall k | 0 <= k < |rows| - 1
        ensures ReadsAs(lines[i + 1 + k], rows[1..][k])
      {
        assert ReadsAs(lines[i + (k + 1)], rows[k + 1]);
      }
      RowLinesFromEach(lines, i + 1, rows[1..]);
    }
  }

  /** A line that reads as a row is read as one more row. */
  lemma RowsFromStep(lc: LineCursor, i: nat, row: seq<int>, acc: seq<seq<int>>) returns (next: LineCursor)
    requires lc.AtLineStart(i) && i < |lc.lines| && ReadsAs(lc.lines[i], row)
    ensures next.lines == lc.lines && next.AtLineStart(i + 1)
    ensures RowsFrom(lc, acc) == RowsFrom(next, acc + [row])
  {
    RowCellsRead(row);
    next := lc.(cells := Some(RowFrom(lc.cells.value, []).value.1)).NextLine();
  }

  /** At a tag line or the end, no more rows are read. */
  lemma RowsFromTag(lc: LineCursor, i: nat, acc: seq<seq<int>>)
    requires lc.AtLineStart(i) && i <= |lc.lines|
    requires i < |lc.lines| ==> TagFirst(lc.lines[i])
    ensures RowsFrom(lc, acc) == Success((acc, lc))
  {
  }

  /** Lines that read as rows, followed by a tag line or the end, are read
      back in order, leaving the cursor on the line after them. */
  lemma {:induction false} RowsFromBlock(lc: LineCursor, i: nat, rows: seq<seq<int>>, acc: seq<seq<int>>, end: nat)
    requires end == i + |rows| && lc.AtLineStart(i) && end <= |lc.lines|
    requires RowLinesFrom(lc.lines, i, rows)
    requires end < |lc.lines| ==> TagFirst(lc.lines[end])
    ensures RowsFrom(lc, acc).Success?
    ensures RowsFrom(lc, acc).value.0 == acc + rows
    ensures RowsFrom(lc, acc).value.1.AtLineStart(end)
    decreases |rows|, 1
  {
    if rows == [] {
      RowsFromTag(lc, i, acc);
      assert acc + rows == acc;
    } else {
      RowsFromBlockCons(lc, i, rows, acc, end);
    }
  }

  /** The step of RowsFromBlock for a non-empty block: the first line is
      read as a row and the rest of the block follows. */
  lemma {:induction false} RowsFromBlockCons(lc: LineCursor, i: nat, rows: seq<seq<int>>, acc: seq<seq<int>>, end: nat)
    requires rows != [] && end == i + |rows| && lc.AtLineStart(i) && end <= |lc.lines|
    requires RowLinesFrom(lc.lines, i, rows)
    requires end < |lc.lines| ==> TagFirst(lc.lines[end])
    ensures RowsFrom(lc, acc).Success?
    ensures RowsFrom(lc, acc).value.0 == acc + rows
    ensures RowsFrom(lc, acc).value.1.AtLineStart(end)
    decreases |rows|, 0
  {
    var next := RowsFromStep(lc, i, rows[0], acc);
    RowsFromBlock(next, i + 1, rows[1..], acc + [rows[0]], end);
    AppendHead(acc, rows);
  }

  /** Skipping k lines from the start of line i reaches the start of line
      i + k. */
  lemma {:induction false} SkipLinesStart(lc: LineCursor, i: nat, k: int, end: nat)
    requires lc.AtLineStart(i) && k >= 0 && end == i + k && end <= |lc.lines|
    ensures SkipLines(lc, k).Success? && SkipLines(lc, k).value.AtLineStart(end)
    decreases k
  {
    if k > 0 {
      SkipLinesStart(lc.NextLine(), i + 1, k - 1, end);
    }
  }

  /** The `$Level$` line and a written `$ShapeCount$` line give back the
      count. */
  lemma CountAtLines(lc: LineCursor, i: nat, count: int)
    requires lc.AtLineStart(i) && i + 1 < |lc.lines| && IsInt32(count)
    requires lc.lines[i] == TagString("Level")
    requires Split(lc.lines[i + 1], ',') == CountCells(count)
    ensures CountAt(lc).Success? && CountAt(lc).value.0 == count
    ensures CountAt(lc).value.1.AtLineStart(i + 2)
  {
    TagLineAt(lc, i, "Level");
    var lc1 := lc.NextLine();
    ParseIntString(count);
    assert TagCell(lc1, "ShapeCount") == Success(lc1.MoveToNextCell());
  }

  /** A tag line followed by written rows and then a tag line or the end
      gives back the rows. */
  lemma GridAtLines(lc: LineCursor, i: nat, tag: string, rows: seq<seq<int>>, end: nat)
    requires ',' !in tag && lc.AtLineStart(i) && end == i + 1 + |rows| && end <= |lc.lines|
    requires lc.lines[i] == TagString(tag)
    requires RowLinesFrom(lc.lines, i + 1, rows)
    requires end < |lc.lines| ==> TagFirst(lc.lines[end])
    ensures GridAt(lc, tag).Success? && GridAt(lc, tag).value.0 == rows
    ensures GridAt(lc, tag).value.1.AtLineStart(end)
  {
    TagLineAt(lc, i, tag);
    GridAtTag(lc, tag, lc.NextLine());
    RowsFromBlock(lc.NextLine(), i + 1, rows, [], end);
    EmptyAppend(rows);
  }

  /** Past its tag line, a grid is the rows that follow. */
  lemma GridAtTag(lc: LineCursor, tag: string, next: LineCursor)
    requires TagLine(lc, tag) == Success(next)
    ensures GridAt(lc, tag) == RowsFrom(next, [])
  {
  }

  /** Where each part of a level block sits. */
  lemma LevelLinesAt(level: Level, moves: seq<string>)
    ensures LinesLayout(LevelLines(level, moves), level)
  {
  }

  /** The lines l start with a level block's lines: its tags, its count and
      its two grids. */
  predicate LinesLayout(l: seq<string>, level: Level) {
    var nc := |level.tileColors|;
    var nm := |level.shapeMasks|;
    && 4 + nc + nm < |l|
    && l[0] == TagString("Level")
    && l[1] == Join(CountCells(level.shapeCount), ',')
    && l[2] == TagString("TileColors")
    && (forall k :: 0 <= k < nc ==> l[3 + k] == RowLine(level.tileColors[k]))
    && l[3 + nc] == TagString("ShapeMasks")
    && (forall k :: 0 <= k < nm ==> l[4 + nc + k] == RowLine(level.shapeMasks[k]))
    && l[4 + nc + nm] == TagString("ShapeMoves")
  }

  /** Written rows of 32-bit numbers read back as the rows. */
  lemma GridLinesRead(lines: seq<string>, start: nat, grid: seq<seq<int>>)
    requires Int32Grid(grid) && start + |grid| <= |lines|
    requires forall k :: 0 <= k < |grid| ==> lines[start + k] == RowLine(grid[k])
    ensures RowLinesFrom(lines, start, grid)
  {
    forall k | 0 <= k < |grid|
      ensures ReadsAs(lines[start + k], grid[k])
    {
      RowLineReadsAs(grid[k]);
    }
    RowLinesFromEach(lines, start, grid);
  }

  /** The cursor on the first cell of line k. */
  function StartAt(lines: Lines, k: nat): (r: LineCursor)
    requires k < |lines|
    ensures r.lines == lines && r.AtLineStart(k)
  {
    LineCursor(lines, k, Some(CellCursor(Split(lines[k], ','), 0)))
  }

  /** Within the lines, the start of a line is one cursor. */
  lemma StartAtUnique(lc: LineCursor, k: nat)
    requires lc.AtLineStart(k) && k < |lc.lines|
    ensures lc == StartAt(lc.lines, k)
  {
  }

  /** The `$Level$` line and a written `$ShapeCount$` line read as the
      count. */
  lemma CountPart(lines: Lines, i: nat, count: int)
    requires i + 2 < |lines| && IsInt32(count)
    requires lines[i] == TagString("Level") && lines[i + 1] == Join(CountCells(count), ',')
    ensures CountAt(StartAt(lines, i)) == Success((count, StartAt(lines, i + 2)))
  {
    IntStringPlain(count);
    TagSplit("ShapeCount");
    SplitJoin(CountCells(count), ',');
    CountAtLines(StartAt(lines, i), i, count);
    StartAtUnique(CountAt(StartAt(lines, i)).value.1, i + 2);
  }

  /** A tag line and written rows, followed by a tag line, read as the
      rows. */
  lemma GridPart(lines: Lines, k: nat, tag: string, grid: seq<seq<int>>, end: nat)
    requires ',' !in tag && end == k + 1 + |grid| && end < |lines|
    requires lines[k] == TagString(tag) && TagFirst(lines[end])
    requires Int32Grid(grid) && forall j :: 0 <= j < |grid| ==> lines[k + 1 + j] == RowLine(grid[j])
    ensures GridAt(StartAt(lines, k), tag) == Success((grid, StartAt(lines, end)))
  {
    GridLinesRead(lines, k + 1, grid);
    GridAtLines(StartAt(lines, k), k, tag, grid, end);
    StartAtUnique(GridAt(StartAt(lines, k), tag).value.1, end);
  }

  /** What the reader makes of the lines from i on: the count, the two
      grids of the level, and then its `$ShapeMoves$` line. */
  predicate LevelBlockAt(lines: Lines, i: nat, level: Level) {
    LevelHeadAt(lines, i, level) && LevelTailAt(lines, i, level)
  }

  /** The count and the tile colours of a level, read from line i on. */
  predicate LevelHeadAt(lines: Lines, i: nat, level: Level) {
    var nc := |level.tileColors|;
    && i + 3 + nc < |lines|
    && CountAt(StartAt(lines, i)) == Success((level.shapeCount, StartAt(lines, i + 2)))
    && GridAt(StartAt(lines, i + 2), "TileColors") == Success((level.tileColors, StartAt(lines, i + 3 + nc)))
  }

  /** The shape masks of a level, read after its tile colours, and then
      its `$ShapeMoves$` line. */
  predicate LevelTailAt(lines: Lines, i: nat, level: Level) {
    var nc := |level.tileColors|;
    var e := i + 4 + nc + |level.shapeMasks|;
    && e < |lines|
    && GridAt(StartAt(lines, i + 3 + nc), "ShapeMasks") == Success((level.shapeMasks, StartAt(lines, e)))
    && TagLine(StartAt(lines, e), "ShapeMoves") == Success(StartAt(lines, e).NextLine())
  }

  /** The lines from i on are those written for a level: its tag, its
      count, its two grids under their tags and the `$ShapeMoves$` tag. */
  predicate LevelLayout(lines: seq<string>, i: nat, level: Level) {
    var nc := |level.tileColors|;
    var nm := |level.shapeMasks|;
    && i + 4 + nc + nm < |lines|
    && lines[i] == TagString("Level")
    && lines[i + 1] == Join(CountCells(level.shapeCount), ',')
    && lines[i + 2] == TagString("TileColors")
    && (forall j :: 0 <= j < nc ==> lines[i + 2 + 1 + j] == RowLine(level.tileColors[j]))
    && lines[i + 3 + nc] == TagString("ShapeMasks")
    && (forall j :: 0 <= j < nm ==> lines[i + 3 + nc + 1 + j] == RowLine(level.shapeMasks[j]))
    && lines[i + 4 + nc + nm] == TagString("ShapeMoves")
  }

  /** A written level block is laid out as its parts. */
  lemma LevelLayoutIn(lines: seq<string>, i: nat, level: Level, moves: seq<string>)
    requires i + |LevelLines(level, moves)| <= |lines|
    requires lines[i..i + |LevelLines(level, moves)|] == LevelLines(level, moves)
    ensures LevelLayout(lines, i, level)
  {
    LevelLinesAt(level, moves);
    LayoutFromSlice(lines, i, LevelLines(level, moves), level);
  }

  /** Lines holding l from i on are laid out as l is. */
  lemma LayoutFromSlice(lines: seq<string>, i: nat, l: seq<string>, level: Level)
    requires i + |l| <= |lines| && lines[i..i + |l|] == l
    requires LinesLayout(l, level)
    ensures LevelLayout(lines, i, level)
  {
    var nc := |level.tileColors|;
    forall k | 0 <= k < |l|
      ensures lines[i + k] == l[k]
    {
      assert lines[i..i + |l|][k] == l[k];
    }
    forall j | 0 <= j < nc
      ensures lines[i + 2 + 1 + j] == RowLine(level.tileColors[j])
    {
      assert lines[i + (3 + j)] == l[3 + j];
    }
    forall j | 0 <= j < |level.shapeMasks|
      ensures lines[i + 3 + nc + 1 + j] == RowLine(level.shapeMasks[j])
    {
      assert lines[i + (4 + nc + j)] == l[4 + nc + j];
    }
  }

  /** Lines laid out as a level of 32-bit numbers read as its count and
      tile colours. */
  lemma LevelHeadIn(lines: Lines, i: nat, level: Level)
    requires IsInt32(level.shapeCount) && Int32Grid(level.tileColors)
    requires LevelLayout(lines, i, level)
    ensures LevelHeadAt(lines, i, level)
  {
    CountPart(lines, i, level.shapeCount);
    TagLineIsTag("ShapeMasks");
    GridPart(lines, i + 2, "TileColors", level.tileColors, i + 3 + |level.tileColors|);
  }

  /** Lines laid out as a level of 32-bit numbers read as its shape masks
      and the `$ShapeMoves$` line. */
  lemma LevelTailIn(lines: Lines, i: nat, level: Level)
    requires Int32Grid(level.shapeMasks)
    requires LevelLayout(lines, i, level)
    ensures LevelTailAt(lines, i, level)
  {
    var nc := |level.tileColors|;
    var e := i + 4 + nc + |level.shapeMasks|;
    TagLineIsTag("ShapeMoves");
    GridPart(lines, i + 3 + nc, "ShapeMasks", level.shapeMasks, e);
    TagLineAt(StartAt(lines, e), e, "ShapeMoves");
  }

  /** A block that reads as the level's parts is read as the level,
      leaving the cursor past the shape-move lines. */
  lemma LevelAtBlock(lc: LineCursor, i: nat, level: Level, end: nat)
    requires 0 <= level.shapeCount <= Int32Max
    requires lc.AtLineStart(i) && LevelBlockAt(lc.lines, i, level)
    requires end == i + 5 + |level.tileColors| + |level.shapeMasks| + level.shapeCount <= |lc.lines|
    ensures LevelAt(lc).Success? && LevelAt(lc).value.0 == level
    ensures LevelAt(lc).value.1.AtLineStart(end)
  {
    StartAtUnique(lc, i);
    LevelAtParts(lc.lines, i, level, end);
  }

  /** A level block is its head and its tail read one after the other. */
  lemma LevelAtParts(lines: Lines, i: nat, level: Level, end: nat)
    requires 0 <= level.shapeCount
    requires LevelBlockAt(lines, i, level)
    requires end == i + 5 + |level.tileColors| + |level.shapeMasks| + level.shapeCount <= |lines|
    ensures i < |lines|
    ensures LevelAt(StartAt(lines, i)).Success? && LevelAt(StartAt(lines, i)).value.0 == level
    ensures LevelAt(StartAt(lines, i)).value.1.AtLineStart(end)
  {
    LevelAtHead(lines, i, level);
    LevelAtTail(lines, i, level, end);
  }

  /** The head of a level block read, the rest is read after the colours. */
  lemma LevelAtHead(lines: Lines, i: nat, level: Level)
    requires LevelHeadAt(lines, i, level)
    ensures LevelAt(StartAt(lines, i))
      == LevelAfterColors(StartAt(lines, i + 3 + |level.tileColors|), level.shapeCount, level.tileColors)
  {
  }

  /** The tail of a level block read after its colours, then its
      shape-move lines skipped. */
  lemma LevelAtTail(lines: Lines, i: nat, level: Level, end: nat)
    requires 0 <= level.shapeCount && LevelTailAt(lines, i, level)
    requires end == i + 5 + |level.tileColors| + |level.shapeMasks| + level.shapeCount <= |lines|
    ensures var r := LevelAfterColors(StartAt(lines, i + 3 + |level.tileColors|), level.shapeCount, level.tileColors);
      r.Success? && r.value.0 == level && r.value.1.AtLineStart(end)
  {
    var e := i + 4 + |level.tileColors| + |level.shapeMasks|;
    MovesSkipped(lines, e, level.shapeCount, end);
  }

  /** Skipping the count lines after the `$ShapeMoves$` line e reaches the
      start of line end. */
  lemma MovesSkipped(lines: Lines, e: nat, count: int, end: nat)
    requires e < |lines| && 0 <= count && end == e + 1 + count <= |lines|
    ensures SkipLines(StartAt(lines, e).NextLine(), count).Success?
    ensures SkipLines(StartAt(lines, e).NextLine(), count).value.AtLineStart(end)
  {
    NextLineStart(StartAt(lines, e), e + 1);
    SkipLinesStart(StartAt(lines, e).NextLine(), e + 1, count, end);
  }

  /** A written level block is read back as the level, leaving the cursor
      at the start of the line after the block. */
  lemma LevelAtLines(lc: LineCursor, i: nat, level: Level, moves: seq<string>, end: nat)
    requires Writable(level, moves)
    requires lc.AtLineStart(i) && end == i + |LevelLines(level, moves)| <= |lc.lines|
    requires lc.lines[i..end] == LevelLines(level, moves)
    ensures LevelAt(lc).Success? && LevelAt(lc).value.0 == level
    ensures LevelAt(lc).value.1.AtLineStart(end)
  {
    assert LevelHeadAt(lc.lines, i, level) by {
      LevelLayoutIn(lc.lines, i, level, moves);
      LevelHeadIn(lc.lines, i, level);
    }
    assert LevelTailAt(lc.lines, i, level) by {
      LevelLayoutIn(lc.lines, i, level, moves);
      LevelTailIn(lc.lines, i, level);
    }
    LevelAtBlock(lc, i, level, end);
  }

  /** A whole written file, from the start of its first line, is read
      back as the levels' templates. */
  lemma {:induction false} TemplatesFromFile(lc: LineCursor, i: nat, levels: seq<Level>, moves: seq<seq<string>>, acc: seq<LevelTemplate>)
    requires |moves| == |levels|
    requires forall j :: 0 <= j < |levels| ==> Writable(levels[j], moves[j])
    requires lc.AtLineStart(i) && i <= |lc.lines| && lc.lines[i..] == FileLines(levels, moves)
    ensures TemplatesFrom(lc, acc) == TemplatesOf(levels, acc)
    decreases |levels|
  {
    if levels != [] {
      var l := LevelLines(levels[0], moves[0]);
      var rest := FileLines(levels[1..], moves[1..]);
      assert lc.lines[i..] == l + rest;
      assert lc.lines[i..i + |l|] == l by {
        assert lc.lines[i..i + |l|] == lc.lines[i..][..|l|];
      }
      LevelAtLines(lc, i, levels[0], moves[0], i + |l|);
      var parsed := LevelAt(lc).value;
      if TemplateOf(levels[0]).Success? {
        assert lc.lines[i + |l|..] == rest by {
          assert lc.lines[i + |l|..] == lc.lines[i..][|l|..];
        }
        TemplatesFromFile(parsed.1, i + |l|, levels[1..], moves[1..], acc + [TemplateOf(levels[0]).value]);
      }
    }
  }

  /** Reading the lines written for any levels, with one move line per
      shape, gives each level's template in order, or the first
      conversion error. */
  lemma ReadWrittenFile(levels: seq<Level>, moves: seq<seq<string>>)
    requires |moves| == |levels| && |FileLines(levels, moves)| <= Int32Max
    requires forall j :: 0 <= j < |levels| ==> Writable(levels[j], moves[j])
    ensures ReadTemplates(FileLines(levels, moves)) == TemplatesOf(levels, [])
  {
    var lines := FileLines(levels, moves);
    TemplatesFromFile(LineCursor(lines, -1, None).NextLine(), 0, levels, moves, []);
  }
}
