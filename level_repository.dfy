/** Level templates (the output of the CSV level reader) and the server's
    level repository, which hands out templates by level number. */
module LevelRepository {
  import opened Wrappers

  /** One shape: its tile colours, row by row (0 = no tile), and its offset
      within the puzzle. */
  datatype ShapeData = ShapeData(tilePositions: seq<seq<int>>, offsetX: int, offsetY: int)

  datatype LevelTemplate = LevelTemplate(shapes: seq<ShapeData>)

  /** The repository's loaded level array; None until LoadLevelData has run. */
  datatype LevelDataRepository = LevelDataRepository(levels: Option<seq<LevelTemplate>>)
  {
    /** Levels are available: the array is loaded and not empty. */
    predicate Loaded() {
      levels.Some? && |levels.value| > 0
    }

    /** Numbers past the end are clamped to the last level; a negative number,
        a null array or an empty array makes the array access throw. */
    function GetLevel(number: int): (r: Result<LevelTemplate>)
      ensures r.Success? <==> Loaded() && number >= 0
      ensures !Loaded() && levels.None? ==> r == Failure(NullReference)
      ensures levels.Some? && !r.Success? ==> r == Failure(IndexOutOfRange)
      ensures r.Success? ==> r.value == levels.value[Min(number, |levels.value| - 1)]
    {
      match levels
      case None => Failure(NullReference)
      case Some(ls) =>
        var actualNumber := if number >= |ls| then |ls| - 1 else number;
        if 0 <= actualNumber < |ls| then Success(ls[actualNumber]) else Failure(IndexOutOfRange)
    }
  }

  /** LoadLevelData: the array read from the level file (the file read itself
      is not part of this model). */
  function LoadLevelData(templates: seq<LevelTemplate>): (repo: LevelDataRepository)
    ensures repo.levels == Some(templates)
    ensures repo.Loaded() <==> |templates| > 0
  {
    LevelDataRepository(Some(templates))
  }

  /** A number inside the array gives exactly that level. */
  lemma GetLevelInRange(repo: LevelDataRepository, k: int)
    requires repo.levels.Some? && 0 <= k < |repo.levels.value|
    ensures repo.GetLevel(k) == Success(repo.levels.value[k])
  {
  }

  /** Every number at or past the end gives the last level. */
  lemma GetLevelPastEnd(repo: LevelDataRepository, k: int)
    requires repo.Loaded() && k >= |repo.levels.value|
    ensures repo.GetLevel(k) == Success(repo.levels.value[|repo.levels.value| - 1])
  {
  }
}
