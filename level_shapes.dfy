/** Turning a parsed level block into a level template: each shape id
    1 .. ShapeCount is cut out of the shape-mask grid by its bounding
    rectangle, with the tile colours copied where the mask holds the id,
    the rows flipped so that the bottom row comes first, and an offset that
    places the shape within the puzzle. */
module LevelShapes {
  import opened Wrappers
  import opened Seqs
  import opened Csv
  import opened LevelRepository

  /** A parsed level block: the shape count and the two integer grids. */
  datatype Level = Level(shapeCount: int, tileColors: seq<seq<int>>, shapeMasks: seq<seq<int>>)

  datatype ShapeBounds = ShapeBounds(firstColumn: int, firstRow: int, lastColumn: int, lastRow: int)

  /** The starting values int.MaxValue and int.MinValue: the bounds of no
      cell at all. */
  const NoBounds := ShapeBounds(Int32Max, Int32Max, Int32Min, Int32Min)

  predicate Matches(id: int, masks: seq<seq<int>>, r: int, c: int) {
    0 <= r < |masks| && 0 <= c < |masks[r]| && masks[r][c] == id
  }

  /** Cell (r, c) comes before (row, col) in row-major order. */
  predicate Before(r: int, c: int, row: int, col: int) {
    r < row || (r == row && c < col)
  }

  predicate Contains(b: ShapeBounds, r: int, c: int) {
    b.firstRow <= r <= b.lastRow && b.firstColumn <= c <= b.lastColumn
  }

  /** .NET arrays hold at most int.MaxValue elements. */
  predicate Fits32(masks: seq<seq<int>>) {
    |masks| <= Int32Max && forall r :: 0 <= r < |masks| ==> |masks[r]| <= Int32Max
  }

  /** (row, col) is a position of the row-major scan: a column of an
      existing row, or the end. */
  predicate InScan(masks: seq<seq<int>>, row: nat, col: nat) {
    row <= |masks| && (if row < |masks| then col <= |masks[row]| else col == 0)
  }

  /** The bounds widened to take in cell (r, c). */
  function Include(b: ShapeBounds, r: int, c: int): ShapeBounds {
    ShapeBounds(Min(b.firstColumn, c), Min(b.firstRow, r), Max(b.lastColumn, c), Max(b.lastRow, r))
  }

  /** The bounds of the cells holding id that the scan has passed before
      reaching (row, col): they contain every such cell, and are the
      starting values if there is none. */
  function BoundsBefore(id: int, masks: seq<seq<int>>, row: nat, col: nat): (b: ShapeBounds)
    requires InScan(masks, row, col)
    ensures forall r, c :: Matches(id, masks, r, c) && Before(r, c, row, col) ==> Contains(b, r, c)
    ensures (forall r, c :: Matches(id, masks, r, c) ==> !Before(r, c, row, col)) ==> b == NoBounds
    decreases row, col
  {
    if col > 0 then
      var b := BoundsBefore(id, masks, row, col - 1);
      if masks[row][col - 1] == id then
        assert Matches(id, masks, row, col - 1) && Before(row, col - 1, row, col);
        Include(b, row, col - 1)
      else b
    else if row == 0 then NoBounds
    else BoundsBefore(id, masks, row - 1, |masks[row - 1]|)
  }

  /** The bounding rectangle of the cells holding id. */
  function Bounds(id: int, masks: seq<seq<int>>): (b: ShapeBounds)
    ensures forall r, c :: Matches(id, masks, r, c) ==> Contains(b, r, c)
    ensures (forall r, c :: !Matches(id, masks, r, c)) ==> b == NoBounds
  {
    BoundsBefore(id, masks, |masks|, 0)
  }

  /** Every bound is reached by some cell the scan has passed. */
  ghost predicate Attained(b: ShapeBounds, id: int, masks: seq<seq<int>>, row: nat, col: nat) {
    && (exists r, c :: Matches(id, masks, r, c) && Before(r, c, row, col) && r == b.firstRow)
    && (exists r, c :: Matches(id, masks, r, c) && Before(r, c, row, col) && r == b.lastRow)
    && (exists r, c :: Matches(id, masks, r, c) && Before(r, c, row, col) && c == b.firstColumn)
    && (exists r, c :: Matches(id, masks, r, c) && Before(r, c, row, col) && c == b.lastColumn)
  }

  /** The bounds are either the starting values or exact: each is the row
      or column of some cell holding id. */
  lemma {:induction false} BoundsBeforeAttained(id: int, masks: seq<seq<int>>, row: nat, col: nat)
    requires Fits32(masks) && InScan(masks, row, col)
    ensures BoundsBefore(id, masks, row, col) == NoBounds || Attained(BoundsBefore(id, masks, row, col), id, masks, row, col)
    decreases row, col
  {
    var b := BoundsBefore(id, masks, row, col);
    if col > 0 {
      var b' := BoundsBefore(id, masks, row, col - 1);
      BoundsBeforeAttained(id, masks, row, col - 1);
      if masks[row][col - 1] == id {
        assert Matches(id, masks, row, col - 1) && Before(row, col - 1, row, col);
        if b' != NoBounds {
          forall r, c | Matches(id, masks, r, c) && Before(r, c, row, col - 1)
            ensures Before(r, c, row, col)
          {
          }
        }
      } else if b' != NoBounds {
        forall r, c | Matches(id, masks, r, c) && Before(r, c, row, col - 1)
          ensures Before(r, c, row, col)
        {
        }
      }
    } else if row > 0 {
      BoundsBeforeAttained(id, masks, row - 1, |masks[row - 1]|);
      forall r, c | Before(r, c, row - 1, |masks[row - 1]|)
        ensures Before(r, c, row, col)
      {
      }
    }
  }

  /** The value copied for one cell of the rectangle: the tile colour where
      the mask holds id, 0 elsewhere; a cell outside either grid makes the
      array access throw. */
  function TileAt(id: int, masks: seq<seq<int>>, colors: seq<seq<int>>, row: int, column: int): Result<int> {
    if !(0 <= row < |masks| && 0 <= column < |masks[row]|) then Failure(IndexOutOfRange)
    else if masks[row][column] != id then Success(0)
    else if row < |colors| && column < |colors[row]| then Success(colors[row][column])
    else Failure(IndexOutOfRange)
  }

  /** The cells of columns from .. upTo - 1 of one row, left to right. */
  function RowTiles(id: int, masks: seq<seq<int>>, colors: seq<seq<int>>, row: int, from: int, upTo: int): (r: Result<seq<int>>)
    ensures r.Failure? ==> r.error == IndexOutOfRange
    decreases upTo - from
  {
    if upTo <= from then Success([])
    else
      var init :- RowTiles(id, masks, colors, row, from, upTo - 1);
      var t :- TileAt(id, masks, colors, row, upTo - 1);
      Success(init + [t])
  }

  /** A row is read exactly when each of its cells is, one value per
      column, each the cell's value. */
  lemma {:induction false} RowTilesSpec(id: int, masks: seq<seq<int>>, colors: seq<seq<int>>, row: int, from: int, upTo: int)
    ensures var r := RowTiles(id, masks, colors, row, from, upTo);
      && (r.Success? <==> forall c :: from <= c < upTo ==> TileAt(id, masks, colors, row, c).Success?)
      && (r.Success? ==> |r.value| == Max(0, upTo - from))
      && (r.Success? ==> forall j :: 0 <= j < |r.value| ==> TileAt(id, masks, colors, row, from + j) == Success(r.value[j]))
    decreases upTo - from
  {
    if upTo > from {
      RowTilesSpec(id, masks, colors, row, from, upTo - 1);
    }
  }

  /** One row of the rectangle, from its first to its last column. */
  function RowOf(id: int, masks: seq<seq<int>>, colors: seq<seq<int>>, b: ShapeBounds, row: int): Result<seq<int>> {
    RowTiles(id, masks, colors, row, b.firstColumn, b.lastColumn + 1)
  }

  /** The rows b.firstRow .. upTo - 1 of the rectangle, top to bottom. */
  function GridRows(id: int, masks: seq<seq<int>>, colors: seq<seq<int>>, b: ShapeBounds, upTo: int): (r: Result<seq<seq<int>>>)
    ensures r.Failure? ==> r.error == IndexOutOfRange
    decreases upTo - b.firstRow
  {
    if upTo <= b.firstRow then Success([])
    else
      var init :- GridRows(id, masks, colors, b, upTo - 1);
      var row :- RowOf(id, masks, colors, b, upTo - 1);
      Success(init + [row])
  }

  /** The rows are read exactly when each row is, one entry per row, each
      that row's values. */
  lemma {:induction false} GridRowsSpec(id: int, masks: seq<seq<int>>, colors: seq<seq<int>>, b: ShapeBounds, upTo: int)
    ensures var r := GridRows(id, masks, colors, b, upTo);
      && (r.Success? <==> forall row :: b.firstRow <= row < upTo ==> RowOf(id, masks, colors, b, row).Success?)
      && (r.Success? ==> |r.value| == Max(0, upTo - b.firstRow))
      && (r.Success? ==> forall i :: 0 <= i < |r.value| ==> RowOf(id, masks, colors, b, b.firstRow + i) == Success(r.value[i]))
    decreases upTo - b.firstRow
  {
    if upTo > b.firstRow {
      GridRowsSpec(id, masks, colors, b, upTo - 1);
    }
  }

  predicate HasTile(maskRow: seq<int>) {
    exists c :: 0 <= c < |maskRow| && maskRow[c] > 0
  }

  /** The number of mask rows holding some positive entry. */
  function PuzzleHeight(masks: seq<seq<int>>): (h: nat)
    ensures h <= |masks|
  {
    if masks == [] then 0
    else PuzzleHeight(masks[..|masks| - 1]) + (if HasTile(masks[|masks| - 1]) then 1 else 0)
  }

  /** Unchecked 32-bit arithmetic: the result wrapped into the int range. */
  function Wrap32(x: int): (r: int)
    ensures IsInt32(r)
    ensures IsInt32(x) ==> r == x
  {
    (x - Int32Min) % 0x1_0000_0000 + Int32Min
  }

  /** The shape with the given id, cut out of the grids. */
  function ShapeFromMask(id: int, masks: seq<seq<int>>, colors: seq<seq<int>>): (r: Result<ShapeData>)
    ensures r.Failure? ==> r.error == IndexOutOfRange
  {
    var b := Bounds(id, masks);
    var rows :- GridRows(id, masks, colors, b, b.lastRow + 1);
    Success(ShapeData(Reversed(rows), b.firstColumn, Wrap32((PuzzleHeight(masks) - 1) - b.lastRow)))
  }

  /** Extraction succeeds exactly when every cell of the bounding
      rectangle lies inside the mask grid, and every cell holding the id
      lies inside the colour grid too: colours are read only where the mask
      holds the id. */
  lemma ExtractionSucceeds(id: int, masks: seq<seq<int>>, colors: seq<seq<int>>)
    ensures var b := Bounds(id, masks);
      ShapeFromMask(id, masks, colors).Success? <==>
        forall row, c :: b.firstRow <= row <= b.lastRow && b.firstColumn <= c <= b.lastColumn ==>
          TileAt(id, masks, colors, row, c).Success?
  {
    var b := Bounds(id, masks);
    GridRowsSpec(id, masks, colors, b, b.lastRow + 1);
    forall row | b.firstRow <= row <= b.lastRow
      ensures RowOf(id, masks, colors, b, row).Success? <==>
        forall c :: b.firstColumn <= c <= b.lastColumn ==> TileAt(id, masks, colors, row, c).Success?
    {
      RowTilesSpec(id, masks, colors, row, b.firstColumn, b.lastColumn + 1);
    }
    if GridRows(id, masks, colors, b, b.lastRow + 1).Success? {
      forall row, c | b.firstRow <= row <= b.lastRow && b.firstColumn <= c <= b.lastColumn
        ensures TileAt(id, masks, colors, row, c).Success?
      {
        assert RowOf(id, masks, colors, b, row).Success?;
      }
    }
  }

  /** A shape present in the mask has a bounding rectangle inside the grid,
      its rows and columns reached by cells holding the id. */
  lemma PresentBounds(id: int, masks: seq<seq<int>>, r0: int, c0: int)
    requires Fits32(masks) && Matches(id, masks, r0, c0)
    ensures var b := Bounds(id, masks);
      && 0 <= b.firstRow <= r0 <= b.lastRow < |masks|
      && 0 <= b.firstColumn <= c0 <= b.lastColumn < Int32Max
  {
    BoundsBeforeAttained(id, masks, |masks|, 0);
  }

  /** The rectangle's rows read bottom row first: row i of the result is
      row lastRow - i of the grids. */
  lemma FlippedGrid(id: int, masks: seq<seq<int>>, colors: seq<seq<int>>, b: ShapeBounds, rows: seq<seq<int>>)
    requires b.firstColumn <= b.lastColumn && |rows| == b.lastRow - b.firstRow + 1
    requires forall k :: 0 <= k < |rows| ==> RowOf(id, masks, colors, b, b.firstRow + k) == Success(rows[k])
    ensures var tp := Reversed(rows);
      && |tp| == b.lastRow - b.firstRow + 1
      && (forall i :: 0 <= i < |tp| ==> |tp[i]| == b.lastColumn - b.firstColumn + 1)
      && (forall i, j :: 0 <= i < |tp| && 0 <= j < |tp[i]| ==>
            TileAt(id, masks, colors, b.lastRow - i, b.firstColumn + j) == Success(tp[i][j]))
  {
    var tp := Reversed(rows);
    forall i | 0 <= i < |tp|
      ensures |tp[i]| == b.lastColumn - b.firstColumn + 1
      ensures forall j :: 0 <= j < |tp[i]| ==>
        TileAt(id, masks, colors, b.lastRow - i, b.firstColumn + j) == Success(tp[i][j])
    {
      var k := |rows| - 1 - i;
      assert tp[i] == rows[k];
      assert RowOf(id, masks, colors, b, b.firstRow + k) == Success(rows[k]);
      RowTilesSpec(id, masks, colors, b.firstRow + k, b.firstColumn, b.lastColumn + 1);
    }
  }

  /** For a shape present in the mask, a successful extraction has one row
      per row of the bounding rectangle and one cell per column, bottom row
      first; each cell is the tile colour where the mask holds id and 0
      elsewhere; and the offset is the rectangle's first column and its
      last row counted from the top of the puzzle. */
  lemma ExtractedShape(id: int, masks: seq<seq<int>>, colors: seq<seq<int>>, r0: int, c0: int)
    requires Fits32(masks) && Matches(id, masks, r0, c0)
    requires ShapeFromMask(id, masks, colors).Success?
    ensures var b := Bounds(id, masks);
      var shape := ShapeFromMask(id, masks, colors).value;
      && 0 <= b.firstRow <= b.lastRow < |masks|
      && 0 <= b.firstColumn <= b.lastColumn
      && |shape.tilePositions| == b.lastRow - b.firstRow + 1
      && (forall i :: 0 <= i < |shape.tilePositions| ==> |shape.tilePositions[i]| == b.lastColumn - b.firstColumn + 1)
      && (forall i, j :: 0 <= i < |shape.tilePositions| && 0 <= j < |shape.tilePositions[i]| ==>
            TileAt(id, masks, colors, b.lastRow - i, b.firstColumn + j) == Success(shape.tilePositions[i][j]))
      && shape.offsetX == b.firstColumn
      && shape.offsetY == PuzzleHeight(masks) - 1 - b.lastRow
  {
    var b := Bounds(id, masks);
    PresentBounds(id, masks, r0, c0);
    assert IsInt32(PuzzleHeight(masks) - 1 - b.lastRow);
    ShapeGrid(id, masks, colors, b);
  }

  /** The grid of an extracted shape whose rectangle is not empty. */
  lemma ShapeGrid(id: int, masks: seq<seq<int>>, colors: seq<seq<int>>, b: ShapeBounds)
    requires b == Bounds(id, masks) && b.firstRow <= b.lastRow && b.firstColumn <= b.lastColumn
    requires ShapeFromMask(id, masks, colors).Success?
    ensures var shape := ShapeFromMask(id, masks, colors).value;
      && |shape.tilePositions| == b.lastRow - b.firstRow + 1
      && (forall i :: 0 <= i < |shape.tilePositions| ==> |shape.tilePositions[i]| == b.lastColumn - b.firstColumn + 1)
      && (forall i, j :: 0 <= i < |shape.tilePositions| && 0 <= j < |shape.tilePositions[i]| ==>
            TileAt(id, masks, colors, b.lastRow - i, b.firstColumn + j) == Success(shape.tilePositions[i][j]))
  {
    GridRowsSpec(id, masks, colors, b, b.lastRow + 1);
    FlippedGrid(id, masks, colors, b, GridRows(id, masks, colors, b, b.lastRow + 1).value);
  }

  /** A shape id the mask does not hold yields an empty grid placed at the
      starting values: column int.MaxValue, and a row offset computed
      from int.MinValue that wraps around. */
  lemma AbsentShape(id: int, masks: seq<seq<int>>, colors: seq<seq<int>>)
    requires forall r, c :: !Matches(id, masks, r, c)
    ensures ShapeFromMask(id, masks, colors) ==
      Success(ShapeData([], Int32Max, Wrap32(PuzzleHeight(masks) - 1 - Int32Min)))
  {
  }

  /** The shapes with ids 1 .. k, in id order; the first failure stops. */
  function ShapesUpTo(level: Level, k: int): (r: Result<seq<ShapeData>>)
    ensures r.Success? ==> |r.value| == Max(0, k)
    ensures r.Success? ==> forall i :: 0 <= i < |r.value| ==>
      ShapeFromMask(i + 1, level.shapeMasks, level.tileColors) == Success(r.value[i])
    ensures r.Failure? ==> r.error == IndexOutOfRange
    decreases k
  {
    if k <= 0 then Success([])
    else
      var init := ShapesUpTo(level, k - 1);
      var shape := ShapeFromMask(k, level.shapeMasks, level.tileColors);
      if init.Failure? then Failure(init.error)
      else if shape.Failure? then Failure(shape.error)
      else
        var shapes := init.value + [shape.value];
        assert forall i :: 0 <= i < |shapes| ==>
          ShapeFromMask(i + 1, level.shapeMasks, level.tileColors) == Success(shapes[i]) by {
          forall i | 0 <= i < |shapes|
            ensures ShapeFromMask(i + 1, level.shapeMasks, level.tileColors) == Success(shapes[i])
          {
            if i < |init.value| {
              assert shapes[i] == init.value[i];
            }
          }
        }
        Success(shapes)
  }

  /** Every shape id 1 .. k extracts. */
  predicate AllExtract(level: Level, k: int) {
    forall id :: 1 <= id <= k ==> ShapeFromMask(id, level.shapeMasks, level.tileColors).Success?
  }

  /** The shapes are all read exactly when every id 1 .. k extracts. */
  lemma {:induction false} ShapesUpToSucceeds(level: Level, k: int)
    ensures ShapesUpTo(level, k).Success? <==> AllExtract(level, k)
    decreases k
  {
    var r := ShapesUpTo(level, k);
    if r.Success? {
      forall id | 1 <= id <= k
        ensures ShapeFromMask(id, level.shapeMasks, level.tileColors).Success?
      {
        assert ShapeFromMask((id - 1) + 1, level.shapeMasks, level.tileColors) == Success(r.value[id - 1]);
      }
    } else if k > 0 && AllExtract(level, k) {
      assert AllExtract(level, k - 1);
      ShapesUpToSucceeds(level, k - 1);
      assert false;
    }
  }

  /** One more shape read: it is appended when it extracts, and otherwise
      the whole run of shapes up to k fails. */
  lemma ShapesUpToNext(level: Level, id: int, shapes: seq<ShapeData>, k: int)
    requires 1 <= id <= k && ShapesUpTo(level, id - 1) == Success(shapes)
    ensures var shape := ShapeFromMask(id, level.shapeMasks, level.tileColors);
      && (shape.Success? ==> ShapesUpTo(level, id) == Success(shapes + [shape.value]))
      && (shape.Failure? ==> ShapesUpTo(level, k) == Failure(IndexOutOfRange))
  {
    if ShapeFromMask(id, level.shapeMasks, level.tileColors).Failure? {
      ShapesUpToFails(level, id, k);
    }
  }

  /** An id that fails to extract makes every longer run of shapes fail. */
  lemma {:induction false} ShapesUpToFails(level: Level, id: int, k: int)
    requires 1 <= id <= k
    requires ShapeFromMask(id, level.shapeMasks, level.tileColors).Failure?
    ensures ShapesUpTo(level, k) == Failure(IndexOutOfRange)
    decreases k
  {
    if id < k {
      ShapesUpToFails(level, id, k - 1);
    }
  }

  /** The level's template: one shape per id 1 .. ShapeCount. With a
      ShapeCount of int.MaxValue the source's loop counter wraps and the
      loop never ends; the model reports that case as an overflow. */
  function TemplateOf(level: Level): Result<LevelTemplate> {
    if level.shapeCount >= Int32Max then Failure(Overflow)
    else
      var shapes :- ShapesUpTo(level, level.shapeCount);
      Success(LevelTemplate(shapes))
  }

  /** Scans the mask row by row, widening the bounds at each cell that
      holds the id. */
  method GetBoundingRectangleForShape(id: int, masks: seq<seq<int>>) returns (b: ShapeBounds)
    ensures b == Bounds(id, masks)
  {
    var firstRow, lastRow, firstColumn, lastColumn := Int32Max, Int32Min, Int32Max, Int32Min;
    for row := 0 to |masks|
      invariant ShapeBounds(firstColumn, firstRow, lastColumn, lastRow) == BoundsBefore(id, masks, row, 0)
    {
      for column := 0 to |masks[row]|
        invariant ShapeBounds(firstColumn, firstRow, lastColumn, lastRow) == BoundsBefore(id, masks, row, column)
      {
        if masks[row][column] == id {
          firstRow := Min(firstRow, row);
          firstColumn := Min(firstColumn, column);
          lastRow := Max(lastRow, row);
          lastColumn := Max(lastColumn, column);
        }
      }
    }
    b := ShapeBounds(firstColumn, firstRow, lastColumn, lastRow);
  }

  /** A cell of the rectangle that cannot be read makes the whole
      extraction fail. */
  lemma RectangleCellFails(id: int, masks: seq<seq<int>>, colors: seq<seq<int>>, b: ShapeBounds, row: int, column: int)
    requires b == Bounds(id, masks)
    requires b.firstRow <= row <= b.lastRow && b.firstColumn <= column <= b.lastColumn
    requires TileAt(id, masks, colors, row, column).Failure?
    ensures ShapeFromMask(id, masks, colors) == Failure(IndexOutOfRange)
  {
    RowTilesSpec(id, masks, colors, row, b.firstColumn, b.lastColumn + 1);
    assert RowOf(id, masks, colors, b, row).Failure?;
    GridRowsSpec(id, masks, colors, b, b.lastRow + 1);
  }

  /** Copies the bounding rectangle row by row, then reverses the rows. */
  method ExtractShapeDataFromShapeMask(id: int, masks: seq<seq<int>>, colors: seq<seq<int>>) returns (r: Result<ShapeData>)
    ensures r == ShapeFromMask(id, masks, colors)
  {
    var bounds := GetBoundingRectangleForShape(id, masks);
    var tileData: seq<seq<int>> := [];
    var row := bounds.firstRow;
    while row <= bounds.lastRow
      invariant bounds.firstRow <= row <= bounds.lastRow + 1 || (row == bounds.firstRow && bounds.lastRow < bounds.firstRow)
      invariant GridRows(id, masks, colors, bounds, row) == Success(tileData)
      decreases bounds.lastRow - row
    {
      var rowData: seq<int> := [];
      var column := bounds.firstColumn;
      while column <= bounds.lastColumn
        invariant bounds.firstColumn <= column <= bounds.lastColumn + 1 || (column == bounds.firstColumn && bounds.lastColumn < bounds.firstColumn)
        invariant RowTiles(id, masks, colors, row, bounds.firstColumn, column) == Success(rowData)
        decreases bounds.lastColumn - column
      {
        if !(0 <= row < |masks| && 0 <= column < |masks[row]|) {
          RectangleCellFails(id, masks, colors, bounds, row, column);
          return Failure(IndexOutOfRange);
        }
        if masks[row][column] == id {
          if !(row < |colors| && column < |colors[row]|) {
            RectangleCellFails(id, masks, colors, bounds, row, column);
            return Failure(IndexOutOfRange);
          }
          rowData := rowData + [colors[row][column]];
        } else {
          rowData := rowData + [0];
        }
        column := column + 1;
      }
      tileData := tileData + [rowData];
      row := row + 1;
    }
    tileData := Reversed(tileData);
    var puzzleHeight := PuzzleHeight(masks);
    r := Success(ShapeData(tileData, bounds.firstColumn, Wrap32((puzzleHeight - 1) - bounds.lastRow)));
  }

  /** Extracts the shapes with ids 1 .. ShapeCount in order. */
  method ConvertLevelDataToLevelTemplate(level: Level) returns (r: Result<LevelTemplate>)
    ensures r == TemplateOf(level)
  {
    if level.shapeCount >= Int32Max {
      return Failure(Overflow);
    }
    var shapes: seq<ShapeData> := [];
    var shapeId := 1;
    while shapeId <= level.shapeCount
      invariant 1 <= shapeId && (shapeId <= level.shapeCount + 1 || shapeId == 1)
      invariant ShapesUpTo(level, shapeId - 1) == Success(shapes)
    {
      var shape := ExtractShapeDataFromShapeMask(shapeId, level.shapeMasks, level.tileColors);
      ShapesUpToNext(level, shapeId, shapes, level.shapeCount);
      match shape {
        case Failure(e) =>
          assert TemplateOf(level) == Failure(e);
          return Failure(e);
        case Success(data) =>
          shapes := shapes + [data];
      }
      shapeId := shapeId + 1;
    }
    assert ShapesUpTo(level, level.shapeCount) == Success(shapes);
    r := Success(LevelTemplate(shapes));
  }
}
