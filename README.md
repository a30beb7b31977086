# Simon Squared (Flatlings): a verified model of the game core

This project models in Dafny the core of Simon Squared, a shape-puzzle game with a
multiplayer mode, and proves properties of that model. It has three parts.

**The multiplayer session server.**
- `Sessions`: a `Game` holds its players, scoreboard, round and current puzzle.
  It also holds one current `GameState`. Transitions go between the states
  waiting for players, beginning a round, beginning a puzzle, solving a puzzle,
  round ended and abandoned. Each transition stamps the next state id.
- `Scoring`: the scoreboard.
- `PuzzleGenerator`: builds a round of five puzzles. Each puzzle is a level
  template plus deformations drawn per shape, without replacement.
- `LevelRepository`: the level repository.
- `Registry`: the `GameManager` registry, which sweeps out inactive games.

**The level reader.** The reader turns the tagged CSV level file into level templates.
- `Csv`: cell splitting, `int.Parse`, and the line and cell cursor classes.
- `LevelReader`: the parsing methods, each proved to do what a function over
  cursor states does.
- `LevelShapes`: cuts each shape out of the mask grid by its bounding rectangle.

**The game client.**
- `ClientSession`: the multiplayer client's state handlers. They are driven by
  the statuses it polls, and publish a game state to the screens.
- `SinglePlayer`: the single-player controller's level walk and scoring.
- `Palettes`: the tile palette.
- `AnimationTiming` and `Storyboards`: animation timing, the storyboard and its
  planners.

How the source's behaviour is represented:
- The source's .NET exceptions become `Result`/`Outcome` values that carry an
  `Exception` kind. State the source has already changed before it throws stays
  changed.
- Times are integers: milliseconds on the server, TimeSpan ticks in the
  animations.
- Randomness, fresh GUIDs and the clock are parameters.
- A reactive timer is a recorded due time. Firing it is an explicit step.

Every operation that changes state is a method of a class whose fields the
source updates. Its `ensures` clause gives the whole new state. Where a function
or ghost predicate specifies the state, the lemmas state what the source
promises about it.

Where the documented design of the system and the code differ, the model follows
the code:
- `Scoreboard.PuzzleWon` with an unknown player id throws KeyNotFound (it is not
  a no-op).
- The round is counted as completed by the solving state, before it moves to
  RoundEnded.
- A fired timer transitions whatever the current state is; no state id is
  checked and no Leave hook cancels it.
- The generator's miss counter is never reset, so it stops after eleven misses
  in total, not ten consecutive ones.
- `AddGame` does not record the owner's name as the game's OwnerName.

## Model

| member | source | states |
|---|---|---|
| Scoring.Scoreboard.constructor | FlatlingsServer/Domain/Scoreboard.cs:25 | a new scoreboard has no entries, no rounds played and no most recent winner |
| Scoring.Scoreboard.AddPlayer | FlatlingsServer/Domain/Scoreboard.cs:27-34 | adds a zero-score entry with the player's id and name under the id's string. The key is appended to the enumeration order. A key already present throws DuplicateKey and changes nothing. Key order stays duplicate-free and matches the dictionary |
| Scoring.Scoreboard.PuzzleWon | FlatlingsServer/Domain/Scoreboard.cs:36-41 | a known id's score goes up by exactly one and it becomes the most recent winner; every other entry is unchanged. An unknown id throws KeyNotFound and changes nothing |
| Scoring.IncrementRaisesTotal | FlatlingsServer/Domain/Scoreboard.cs:38-39 | crediting one listed player raises the sum of all listed scores by exactly one |
| Scoring.Scoreboard.RoundCompleted | FlatlingsServer/Domain/Scoreboard.cs:43-46 | rounds played goes up by exactly one; scores, order and winner are unchanged |
| Scoring.Scoreboard.Scores | FlatlingsServer/Domain/Scoreboard.cs:50-53 | the list has one element per entry, holds every entry and holds nothing else |
| Ids.GuidString | FlatlingsServer/Domain/Scoreboard.cs:29 | a GUID's string is 36 characters, with dashes at positions 8, 13, 18 and 23 |
| Ids.GuidStringDistinct | FlatlingsServer/Domain/Scoreboard.cs:29 | distinct GUIDs give distinct strings, so the scoreboard's string keys never collide for distinct players |
| LevelRepository.LoadLevelData | FlatlingsServer/Domain/LevelDataRepository.cs:27-32 | the repository holds exactly the templates read, and has levels exactly when there is at least one |
| LevelRepository.LevelDataRepository.GetLevel | FlatlingsServer/Domain/LevelDataRepository.cs:34-38 | succeeds exactly when the array is loaded and non-empty and the number is non-negative. It then gives the level at min(number, last index). A null array throws NullReference; otherwise the failure is IndexOutOfRange |
| LevelRepository.GetLevelInRange | FlatlingsServer/Domain/LevelDataRepository.cs:36-37 | a number inside the array gives exactly that level |
| LevelRepository.GetLevelPastEnd | FlatlingsServer/Domain/LevelDataRepository.cs:36 | every number at or past the end gives the last level |
| PuzzleGenerator.GetDeformationList | FlatlingsServer/Domain/PuzzleGenerator.cs:91-100 | a shape's pool holds four distinct transformations, and every transformation is among them |
| PuzzleGenerator.NumberOfMoves | FlatlingsServer/Domain/PuzzleGenerator.cs:51 | a puzzle of n shapes gets between n and 3n moves |
| PuzzleGenerator.NumberOfMovesMonotone | FlatlingsServer/Domain/PuzzleGenerator.cs:51 | a later level never gets fewer moves |
| PuzzleGenerator.NumberOfMovesSaturates | FlatlingsServer/Domain/PuzzleGenerator.cs:51 | from level 30 on, every puzzle gets the maximum of 3n moves |
| PuzzleGenerator.Shuffle | FlatlingsServer/Domain/PuzzleGenerator.cs:69 | the shuffled shape order lists each shape 0 .. n-1 exactly once |
| PuzzleGenerator.InitialPools | FlatlingsServer/Domain/PuzzleGenerator.cs:63-65 | the pools are keyed by exactly the shapes 0 .. n-1, and each starts with the full transformation list |
| PuzzleGenerator.EmitKeepsPoolsAccounted | FlatlingsServer/Domain/PuzzleGenerator.cs:76-78 | drawing a transformation removes it from its shape's pool. For every shape, the emitted count plus the pool size stays four, and no (shape, transformation) pair is emitted twice |
| PuzzleGenerator.EmitStep | FlatlingsServer/Domain/PuzzleGenerator.cs:73-78 | a draw for the next shape of the repeated order keeps the generator's walk invariant. Draws happen only in the first four passes |
| PuzzleGenerator.MissStep | FlatlingsServer/Domain/PuzzleGenerator.cs:80-87 | a visit that finds an empty pool happens only after all 4n deformations have been emitted |
| PuzzleGenerator.WrapStep | FlatlingsServer/Domain/PuzzleGenerator.cs:71 | the repeated order starts its next pass with the invariant intact |
| PuzzleGenerator.GetDeformationSequence | FlatlingsServer/Domain/PuzzleGenerator.cs:61-89 | taking `limit` deformations gives exactly min(limit, 4n) of them. Each names a shape 0 .. n-1, and the first n follow the shuffled order. No (shape, transformation) pair repeats, and no shape gets more than four |
| PuzzleGenerator.GenerateNewPuzzle | FlatlingsServer/Domain/PuzzleGenerator.cs:45-59 | fails exactly when the level lookup fails, with its error. On success the template is that level's, and the puzzle has NumberOfMoves valid deformations |
| PuzzleGenerator.GenerateRound | FlatlingsServer/Domain/PuzzleGenerator.cs:33-43 | succeeds exactly when the repository has levels and roundsPlayed >= 0. A round is five puzzles, the i-th from level roundsPlayed * 5 + i. Otherwise it returns the first lookup's error |
| PuzzleGenerator.FirstRoundUsesFirstLevels | FlatlingsServer/Domain/PuzzleGenerator.cs:39 | with at least five levels, the first round uses levels 0 .. 4 in order |
| Sessions.GameState.constructor | FlatlingsServer/Domain/GameState.cs:28-31 | a state belongs to its game, has the given kind and starts at id 0 |
| Sessions.GameState.Enter | FlatlingsServer/Domain/BeginningRoundState.cs:31-40 | entering BeginningRound sets its start time 4 s ahead and generates the round for the rounds played. It resets the puzzle index to -1 and schedules BeginningPuzzle at the start time. A failed generation propagates the first level lookup's error and changes nothing. Entering WaitingForPlayers makes the game joinable (WaitingForPlayersState.cs 31-35). Entering Abandoned makes it not joinable (GameAbandonedState.cs 9-14). Each changes nothing else, and the other kinds change nothing |
| Sessions.GameState.ProcessUpdate | FlatlingsServer/Domain/GameState.cs:50-53 | each kind of state reacts to an update as its own override does; the others ignore every update |
| Sessions.GameState.ProcessUpdateWaitingForPlayers | FlatlingsServer/Domain/WaitingForPlayersState.cs:37-49 | a begin update is counted. The game moves to BeginningRound and stops being joinable exactly when some player is present and some begin update has arrived, in either order |
| Sessions.GameState.ProcessUpdateSolvingPuzzle | FlatlingsServer/Domain/SolvingPuzzleState.cs:30-48 | a completed puzzle credits the winner; an unknown id throws with nothing changed. The game then moves to BeginningPuzzle when current index < puzzle count - 1. Otherwise rounds played goes up by one and it moves to RoundEnded. With no round it throws NullReference after crediting |
| Sessions.GameState.ProcessUpdateRoundEnded | FlatlingsServer/Domain/RoundEndedState.cs:30-36 | a begin update moves the game to BeginningRound; anything else changes nothing |
| Sessions.CreditKeepsAgreement | FlatlingsServer/Domain/SolvingPuzzleState.cs:36 | crediting a puzzle keeps the player table and the scoreboard in agreement |
| Sessions.Game.constructor | FlatlingsServer/Domain/Game.cs:37-41 | a new game is in WaitingForPlayers with state id 0. It is joinable, has no players, an empty scoreboard and no round |
| Sessions.Game.TransitionToState | FlatlingsServer/Domain/Game.cs:77-92 | the old state is left and a fresh state of the kind becomes current. Its id is the old id + 1, or 0 for the first. It is entered, and the players, scoreboard and identity are unchanged |
| Sessions.Game.ProcessUpdate | FlatlingsServer/Domain/Game.cs:43-55 | the update is handled by the current state, and the table/scoreboard agreement is kept |
| Sessions.Game.FireTimer | FlatlingsServer/Domain/BeginningRoundState.cs:39 | a due timer is dropped from the pending list, and its transition runs from whatever state is current |
| Sessions.Game.AddPlayer | FlatlingsServer/Domain/Game.cs:144-156 | a new id joins the table (in join order) and gets a zero-score scoreboard entry; nothing else changes. An id already present throws DuplicateKey with nothing changed |
| Sessions.Game.NewPlayerHasNoScore | FlatlingsServer/Domain/Game.cs:149-150 | an id not in the table has no scoreboard entry, so the scoreboard's add cannot throw after the table's add |
| Sessions.Game.SetOwner | FlatlingsServer/Domain/Game.cs:183-186 | the owner joins exactly as any other player does |
| Sessions.Game.Players | FlatlingsServer/Domain/Game.cs:158-172 | the list has one element per player, holds every player and holds nothing else |
| Sessions.ScoreboardKeysArePlayerIds | FlatlingsServer/Domain/Game.cs:149-150 | the scoreboard's keys are exactly the id strings of the game's players |
| Registry.GameManager.constructor | FlatlingsServer/Domain/GameManager.cs:30-34 | a new registry is empty |
| Registry.GameManager.AddGame | FlatlingsServer/Domain/GameManager.cs:54-65 | a fresh game gets the new id and the name, with the owner as its only player. It is registered under its id unless the id is taken, in which case the registry is unchanged |
| Registry.GameManager.FindGame | FlatlingsServer/Domain/GameManager.cs:72-76 | gives the game registered under the id, and null exactly when there is none |
| Registry.GameManager.GetAll | FlatlingsServer/Domain/GameManager.cs:67-70 | lists every registered game exactly once and nothing else |
| Registry.GameManager.RemoveGarbageGames | FlatlingsServer/Domain/GameManager.cs:42-52 | afterwards the registry holds exactly the previously registered games that are not inactive |
| Csv.Split | PipelineExtensions/LevelDataReader.cs:239 | splitting gives at least one piece, empty pieces included |
| Csv.SplitJoin | PipelineExtensions/LevelDataReader.cs:239 | splitting pieces joined by the separator, none of which holds it, gives the pieces back |
| Csv.ParseInt | PipelineExtensions/LevelDataReader.cs:258-261 | a parsed cell is a 32-bit integer; a failure is a format error or an overflow |
| Csv.ParseDigits | PipelineExtensions/LevelDataReader.cs:260 | a run of digits within the 32-bit range reads as its value |
| Csv.ParseNegatedDigits | PipelineExtensions/LevelDataReader.cs:260 | a minus sign and a run of digits within the range read as the negated value |
| Csv.ParseIntString | PipelineExtensions/LevelDataReader.cs:260 | int.Parse reads back exactly what int.ToString wrote, for every 32-bit integer |
| Csv.IntStringPlain | PipelineExtensions/LevelDataReader.cs:265 | a number's text holds no comma and does not start with '$', so it is one cell and never a tag |
| Csv.CsvCellProvider.constructor | PipelineExtensions/LevelDataReader.cs:237-240 | a cell provider holds the line's comma-separated cells, positioned before the first |
| Csv.CsvCellProvider.MoveToNextCell | PipelineExtensions/LevelDataReader.cs:242-251 | advances one cell and reports whether a cell is there |
| Csv.CsvCellProvider.HasCell | PipelineExtensions/LevelDataReader.cs:248-251 | a cell is there exactly while the index is below the cell count |
| Csv.CsvCellProvider.CurrentCell | PipelineExtensions/LevelDataReader.cs:253-256 | the cell at the index when the index is inside the cells; otherwise the list indexer's IndexOutOfRange |
| Csv.CsvCellProvider.CurrentCellAsInt | PipelineExtensions/LevelDataReader.cs:258-261 | IndexOutOfRange outside the cells; inside, exactly int.Parse of the current cell, so any value is a 32-bit int |
| Csv.CsvCellProvider.CurrentCellIsTag | PipelineExtensions/LevelDataReader.cs:263-266 | IndexOutOfRange outside the cells; inside, true exactly when the cell is non-empty and starts with '$' |
| Csv.LineCursor.NextLine | PipelineExtensions/LevelDataReader.cs:208-219 | below int.MaxValue, moving to the next line keeps the lines and advances the index by exactly one |
| Csv.LineCursor.Advance | PipelineExtensions/LevelDataReader.cs:200-219 | the move succeeds exactly when the index is below int.MaxValue, advancing it by one. From int.MaxValue the increment wraps to int.MinValue, HasLine still holds, and the list indexer throws IndexOutOfRange |
| Csv.CsvLineProvider.constructor | PipelineExtensions/LevelDataReader.cs:203-206 | a line provider holds the lines, positioned before the first, with no cell provider |
| Csv.CsvLineProvider.MoveToNextLine | PipelineExtensions/LevelDataReader.cs:208-219 | does what Advance says: below int.MaxValue it advances one line, a new cell provider stands on that line's first cell when the line exists, and it reports whether a line is there; from int.MaxValue it throws IndexOutOfRange |
| Csv.CsvLineProvider.HasLine | PipelineExtensions/LevelDataReader.cs:226-229 | a line is there exactly while the index is below the line count |
| LevelReader.TagString | PipelineExtensions/LevelDataReader.cs:192-195 | a tag's text is the tag between two dollar signs, two characters longer than the tag |
| LevelReader.AssertCurrentCellHasTag | PipelineExtensions/LevelDataReader.cs:122-128 | passes exactly when the current cell is `$tag$`. Otherwise it throws the unexpected-tag error, or the error of reading the cell |
| LevelReader.ConsumeTagLine | PipelineExtensions/LevelDataReader.cs:116-120 | checks the tag and moves to the next line, as TagLine does |
| LevelReader.ConsumeTagCell | PipelineExtensions/LevelDataReader.cs:110-114 | checks the tag and moves to the next cell, as TagCell does |
| LevelReader.ReadRow | PipelineExtensions/LevelDataReader.cs:97-101 | reads the integers of the line up to its end or an empty cell, as RowFrom does, and leaves the cell cursor where it does |
| LevelReader.ParseIntArray | PipelineExtensions/LevelDataReader.cs:89-108 | reads rows until the lines run out or a line starts with a tag, as RowsFrom does |
| LevelReader.RowsFrom | PipelineExtensions/LevelDataReader.cs:89-108 | reading rows never moves the cursor backwards |
| LevelReader.RowsFromTag | PipelineExtensions/LevelDataReader.cs:93 | at a tag line, or past the last line, no row is read and the cursor stays |
| LevelReader.SkipLines | PipelineExtensions/LevelDataReader.cs:80-84 | skipping k move lines succeeds exactly when the index stays within int.MaxValue, and then advances the cursor by exactly max(0, k) lines; otherwise the wrapped index throws IndexOutOfRange |
| LevelReader.CountAt | PipelineExtensions/LevelDataReader.cs:66-70 | a count that is read leaves the cursor exactly two lines further on |
| LevelReader.GridAt | PipelineExtensions/LevelDataReader.cs:72-78 | a grid that is read leaves the cursor strictly further on |
| LevelReader.TagLineAt | PipelineExtensions/LevelDataReader.cs:116-120 | a line holding exactly the tag passes the check, and the cursor moves to the start of the next line |
| LevelReader.ParseShapeCount | PipelineExtensions/LevelDataReader.cs:66-70 | reads the `$Level$` line and the count after `$ShapeCount$`, as CountAt does, and moves past both lines |
| LevelReader.ParseGrid | PipelineExtensions/LevelDataReader.cs:72-78 | reads a tag line and the rows after it, as GridAt does |
| LevelReader.SkipShapeMoves | PipelineExtensions/LevelDataReader.cs:80-84 | passes over max(0, count) lines or fails as SkipLines does: the same cursor after it, or the same IndexOutOfRange |
| LevelReader.ParseLevel | PipelineExtensions/LevelDataReader.cs:62-87 | reads one level block as LevelAt does: the same level, the same cursor after it, or the same error |
| LevelReader.LevelAt | PipelineExtensions/LevelDataReader.cs:62-87 | a level read successfully moves the cursor strictly forward, so the reading loop ends. Its shape count is below int.MaxValue, because a larger skip throws |
| LevelReader.ReadLevelTemplates | PipelineExtensions/LevelDataReader.cs:27-43 | reads and converts blocks until the lines run out, giving ReadTemplates of the lines: the templates in order, or the first error |
| LevelReader.RowFromCells | PipelineExtensions/LevelDataReader.cs:97-101 | the cells written for a row of 32-bit integers read back as that row |
| LevelReader.RowsFromBlock | PipelineExtensions/LevelDataReader.cs:93-105 | lines holding written rows, followed by a tag line or the end, read back as those rows. The cursor stops at the line after them |
| LevelReader.CountAtLines | PipelineExtensions/LevelDataReader.cs:66-70 | a `$Level$` line and a written `$ShapeCount$` line read back as the count |
| LevelReader.GridAtLines | PipelineExtensions/LevelDataReader.cs:72-78 | a tag line followed by written rows reads back as the rows |
| LevelReader.LevelAtLines | PipelineExtensions/LevelDataReader.cs:62-87 | the lines written for a level of 32-bit numbers read back as that level. The cursor ends at the line after its block |
| LevelReader.TemplatesFromFile | PipelineExtensions/LevelDataReader.cs:35-40 | from the start of any written block, the reading loop gives the remaining levels' templates in order |
| LevelReader.ReadWrittenFile | PipelineExtensions/LevelDataReader.cs:27-43 | reading the lines written for any list of levels, as long as they fit in an array, gives their templates in order, or the first conversion error |
| LevelShapes.Bounds | PipelineExtensions/LevelDataReader.cs:168-190 | the bounding rectangle contains every cell holding the id. With no such cell it is the starting values |
| LevelShapes.BoundsBeforeAttained | PipelineExtensions/LevelDataReader.cs:179-185 | each bound is reached by a cell holding the id, so the rectangle is the smallest one |
| LevelShapes.GetBoundingRectangleForShape | PipelineExtensions/LevelDataReader.cs:168-190 | the row-by-row scan computes exactly Bounds |
| LevelShapes.PresentBounds | PipelineExtensions/LevelDataReader.cs:168-190 | for an id the mask holds, the rectangle lies inside the grid and contains each of its cells |
| LevelShapes.PuzzleHeight | PipelineExtensions/LevelDataReader.cs:156 | the puzzle height is at most the number of mask rows |
| LevelShapes.Wrap32 | PipelineExtensions/LevelDataReader.cs:158 | unchecked 32-bit arithmetic: the result is a 32-bit integer, and equal to the exact value when that fits |
| LevelShapes.ShapeFromMask | PipelineExtensions/LevelDataReader.cs:130-166 | extraction can fail only by an index out of range |
| LevelShapes.ExtractionSucceeds | PipelineExtensions/LevelDataReader.cs:136-153 | extraction succeeds exactly when every cell of the bounding rectangle lies inside the mask grid, and every cell holding the id lies inside the colour grid too |
| LevelShapes.RectangleCellFails | PipelineExtensions/LevelDataReader.cs:142-144 | one unreadable cell of the rectangle makes the whole extraction throw |
| LevelShapes.ExtractedShape | PipelineExtensions/LevelDataReader.cs:130-166 | an extracted shape has one row per rectangle row, bottom row first, and one cell per column. Each cell is the tile colour where the mask holds the id and 0 elsewhere. Its offset is the first column and the last row counted from the top |
| LevelShapes.AbsentShape | PipelineExtensions/LevelDataReader.cs:170-173 | an id absent from the mask gives an empty grid at column int.MaxValue, with a wrapped row offset |
| LevelShapes.RowTilesSpec | PipelineExtensions/LevelDataReader.cs:140-150 | a row is read exactly when each of its cells is, one value per column, in order |
| LevelShapes.GridRowsSpec | PipelineExtensions/LevelDataReader.cs:136-153 | the rectangle is read exactly when each of its rows is, one entry per row, in order |
| LevelShapes.ExtractShapeDataFromShapeMask | PipelineExtensions/LevelDataReader.cs:130-166 | the nested loops and the reversal compute exactly ShapeFromMask |
| LevelShapes.ShapesUpTo | PipelineExtensions/LevelDataReader.cs:49-54 | the shapes read are one per id 1 .. k, the i-th being the extraction of id i + 1 |
| LevelShapes.ShapesUpToSucceeds | PipelineExtensions/LevelDataReader.cs:49-54 | all shapes are read exactly when every id 1 .. k extracts |
| LevelShapes.ShapesUpToFails | PipelineExtensions/LevelDataReader.cs:49-54 | an id that fails to extract makes the whole conversion fail |
| LevelShapes.ConvertLevelDataToLevelTemplate | PipelineExtensions/LevelDataReader.cs:45-60 | the loop computes exactly TemplateOf: one shape per id 1 .. ShapeCount, or the first failure |
| ClientSession.InitialState | Flatlings/Flatlings/MultiplayerGame.cs:52 | a new client has published WaitingForPlayers twice (the subject's initial value, then the waiting handler's). It is polling the player list and the status, and has entered only the waiting handler |
| ClientSession.MultiplayerGame.constructor | Flatlings/Flatlings/MultiplayerGame.cs:65-77 | the new client's state is Initial(), which satisfies the client invariant |
| ClientSession.MultiplayerGame.GameState | Flatlings/Flatlings/MultiplayerGame.cs:149-156 | the game state the screens see is one of the published values |
| ClientSession.EnterValid | Flatlings/Flatlings/MultiplayerGame.cs:205-208 | entering a handler keeps the client invariant, whether or not Enter throws |
| ClientSession.TransitionValid | Flatlings/Flatlings/MultiplayerGame.cs:115-127 | a transition keeps the invariant. Given a status of the right kind, only puzzle starting can throw |
| ClientSession.LeaveBeforeEnter | Flatlings/Flatlings/MultiplayerGame.cs:119-126 | every transition runs the old handler's Leave before the new handler's Enter |
| ClientSession.PassStatusValid | Flatlings/Flatlings/MultiplayerGame.cs:89-96 | handling any status keeps the client invariant |
| ClientSession.PassStatusFollowsTable | Flatlings/Flatlings/MultiplayerGame.cs:246-252 | after a status the handler is the one the transition table names. When the table names none, only the last state changes |
| ClientSession.PassStatusFails | Flatlings/Flatlings/MultiplayerGame.cs:303-308 | handling a status throws exactly when it moves to puzzle starting and the round has not arrived (NullReference) or lacks the puzzle (IndexOutOfRange) |
| ClientSession.PuzzleTransition | Flatlings/Flatlings/MultiplayerGame.cs:299-312 | puzzle starting records the status's puzzle index, then looks the puzzle up in the round. On success it shows that puzzle and schedules solving at the start time corrected by the clock skew |
| ClientSession.BeforePuzzleStep | Flatlings/Flatlings/MultiplayerGame.cs:332-347 | a status beginning a puzzle records the status, shows the winner while solving, then moves to puzzle starting |
| ClientSession.SolvingPublishesWinner | Flatlings/Flatlings/MultiplayerGame.cs:332-347 | while solving, a status beginning a puzzle publishes won or lost when it names a winner (nothing when it names none), then BeginningPuzzle |
| ClientSession.PuzzleStartingPicksPuzzle | Flatlings/Flatlings/MultiplayerGame.cs:305-311 | with the round present and the index in range, the client shows the status's puzzle and schedules solving at the skew-corrected start time |
| ClientSession.AbandonedIgnoresStatus | Flatlings/Flatlings/MultiplayerGame.cs:388-393 | the abandoned handler ignores every status |
| ClientSession.TimerOutlivesLeave | Flatlings/Flatlings/MultiplayerGame.cs:310-311 | a puzzle timer scheduled before the game was left still moves the abandoned client to solving, and publishes that state |
| ClientSession.MultiplayerGame.Leave | Flatlings/Flatlings/MultiplayerGame.cs:210-213 | leaving disposes what the handler registered, the waiting handler's player-list subscription |
| ClientSession.MultiplayerGame.Enter | Flatlings/Flatlings/MultiplayerGame.cs:232-243 | each handler's Enter publishes its own game state. Game starting reads the last status as a round-starting status and throws when it is not |
| ClientSession.MultiplayerGame.EnterPuzzleStarting | Flatlings/Flatlings/MultiplayerGame.cs:299-312 | puzzle starting's Enter performs exactly StartPuzzle on the client's state |
| ClientSession.MultiplayerGame.TransitionToState | Flatlings/Flatlings/MultiplayerGame.cs:115-127 | performs exactly Transition: Leave, switch handler, Enter. From a valid client whose last status is the new handler's own kind, the client stays valid and only puzzle starting can throw |
| ClientSession.MultiplayerGame.HandleServerStateChange | Flatlings/Flatlings/MultiplayerGame.cs:246-380 | the current handler reacts to the status exactly as Handle says. Waiting and round ended move to game starting on a round-starting status. Game starting moves to puzzle starting on a status beginning a puzzle. Solving moves to puzzle starting, after publishing the winner, or to round ended on a completed round. Every other status is ignored. A valid client that has recorded the status stays valid |
| ClientSession.MultiplayerGame.PollStatus | Flatlings/Flatlings/MultiplayerGame.cs:79-96 | drops a missing status, a status with the previous status's id, and every status after the subscription ends. Otherwise it records the status and hands it to the handler. A valid client stays valid |
| ClientSession.MultiplayerGame.LeaveGame | Flatlings/Flatlings/MultiplayerGame.cs:103-113 | stops the status subscription and moves to the abandoned handler. From a valid client it never throws, and the client stays valid |
| ClientSession.MultiplayerGame.RefreshPlayerList | Flatlings/Flatlings/MultiplayerGame.cs:254-262 | while the player-list subscription lives, the shown players become the list, in order; otherwise nothing changes |
| ClientSession.MultiplayerGame.RoundDataArrived | Flatlings/Flatlings/MultiplayerGame.cs:279 | the round's puzzles are recorded and nothing else changes |
| ClientSession.MultiplayerGame.ClockSkewArrived | Flatlings/Flatlings/MultiplayerGame.cs:241 | the clock skew is recorded and nothing else changes |
| ClientSession.MultiplayerGame.FireTimer | Flatlings/Flatlings/MultiplayerGame.cs:310-311 | a scheduled timer is dropped and moves the client to solving, whatever handler is current |
| SinglePlayer.Points | Flatlings/Flatlings/SinglePlayerGameController.cs:85-87 | a completion scores at least 10. It scores exactly 10 when the run length is 0 or 2·target − player is not positive |
| SinglePlayer.StreakIsTrailingRun | Flatlings/Flatlings/SinglePlayerGameController.cs:76-83 | the run length is the number of trailing nailed puzzles, plus one when an unnailed puzzle precedes them |
| SinglePlayer.StreakPositive | Flatlings/Flatlings/SinglePlayerGameController.cs:76-83 | after any completion the run length is at least 1 |
| SinglePlayer.ScoreAtLeast | Flatlings/Flatlings/SinglePlayerGameController.cs:87-89 | the score is at least 10 per completed puzzle |
| SinglePlayer.ScoreIncreases | Flatlings/Flatlings/SinglePlayerGameController.cs:87-89 | every completion raises the score by at least 10 |
| SinglePlayer.NextLevel | Flatlings/Flatlings/SinglePlayerGameController.cs:50-56 | the next level index is index + 1 modulo the number of levels |
| SinglePlayer.ScoreAsInt | Flatlings/Flatlings/SinglePlayerGameController.cs:69-72 | the score converts to int exactly when it is within the 32-bit range; otherwise the cast throws Overflow |
| SinglePlayer.SinglePlayerGameController.constructor | Flatlings/Flatlings/SinglePlayerGameController.cs:28-32 | a new controller starts at level 35 with no score, no run and no current puzzle |
| SinglePlayer.SinglePlayerGameController.GetNextPuzzle | Flatlings/Flatlings/SinglePlayerGameController.cs:38-60 | hands out the current level, then moves to the next level, wrapping to the first, and raises the hardness one step. An index outside the list throws IndexOutOfRange with nothing changed |
| SinglePlayer.FirstPuzzleNeedsLevel35 | Flatlings/Flatlings/SinglePlayerGameController.cs:28 | a new controller over at most 35 levels cannot hand out its first puzzle |
| SinglePlayer.SinglePlayerGameController.PuzzleCompleted | Flatlings/Flatlings/SinglePlayerGameController.cs:62-67 | scores the current puzzle, then publishes Won and StartingNewGame in that order. With no current puzzle it throws NullReference with nothing changed. The run length and score stay those that replaying the completed puzzles gives |
| SinglePlayer.SinglePlayerGameController.UpdateScore | Flatlings/Flatlings/SinglePlayerGameController.cs:74-90 | the run length grows after a nailed puzzle and restarts at 1 otherwise. The score grows by Points, keeping the replay invariant |
| SinglePlayer.SinglePlayerGameController.Score | Flatlings/Flatlings/SinglePlayerGameController.cs:69-72 | the shown score is the int cast of the score, and at least 10 per completed puzzle |
| SinglePlayer.SinglePlayerGameController.Begin | Flatlings/Flatlings/SinglePlayerGameController.cs:92-97 | resets the hardness, publishes StartingNewGame and starts playing; nothing else changes |
| SinglePlayer.SinglePlayerGameController.End | Flatlings/Flatlings/SinglePlayerGameController.cs:99-102 | stops playing; nothing else changes |
| Palettes.Add | Flatlings/Flatlings/Palette.cs:31-32 | adding to the dictionary succeeds exactly for a new key and stores the colour under it |
| Palettes.FillComplete | Flatlings/Flatlings/Palette.cs:30-32 | numbering the colours from 1 never meets a key twice, and covers every colour |
| Palettes.Fill | Flatlings/Flatlings/Palette.cs:30-32 | ToDictionary over (index + 1, colour) pairs fails with DuplicateKey exactly when a key it would add is already present; otherwise it keeps every earlier entry and adds key k holding colour k - 1 |
| Palettes.NewPalette | Flatlings/Flatlings/Palette.cs:28-33 | building a palette always succeeds. Its keys are exactly 1 .. n, and key i + 1 holds the i-th colour |
| Palettes.GetTileColor | Flatlings/Flatlings/Palette.cs:35-38 | a present colour number gives its colour; an absent one throws KeyNotFound |
| Palettes.TileColorOf | Flatlings/Flatlings/Palette.cs:35-38 | in a palette of n colours, number k gives the k-th colour for 1 <= k <= n, and throws KeyNotFound for any other k |
| Palettes.PaletteSize | Flatlings/Flatlings/Palette.cs:30-32 | a palette holds one entry per colour |
| AnimationTiming.Animation.constructor | Flatlings/Flatlings/Animations/Animation.cs:30-33 | a new animation has the duration, starts at 0, does not repeat and does not reverse |
| AnimationTiming.Animation.HasExpired | Flatlings/Flatlings/Animations/Animation.cs:59-62 | only a non-repeating animation expires, and it expires exactly when the time is strictly past its start plus its duration |
| AnimationTiming.Animation.NormalisedTimeAt | Flatlings/Flatlings/Animations/Animation.cs:69-96 | there is no value exactly before the start. The value is the final 1 exactly past the end of a non-repeating animation |
| AnimationTiming.ForeverNeverExpires | Flatlings/Flatlings/Animations/Animation.cs:59-62 | an animation that repeats forever never expires |
| AnimationTiming.ExpiryMonotone | Flatlings/Flatlings/Animations/Animation.cs:61 | once expired, an animation stays expired at every later time |
| AnimationTiming.ExpiredIsFinished | Flatlings/Flatlings/Animations/Animation.cs:59-81 | an expired animation with a non-negative duration shows its final value |
| Storyboards.UnexpiredMembers | Flatlings/Flatlings/Animations/Storyboard.cs:72 | a purge keeps exactly the animations that have not expired at that time |
| Storyboards.UnexpiredAppend | Flatlings/Flatlings/Animations/Storyboard.cs:72 | a purge keeps the order: purging a concatenation purges each part |
| Storyboards.UnexpiredIdempotent | Flatlings/Flatlings/Animations/Storyboard.cs:70-78 | purging again at the same time changes nothing |
| Storyboards.Storyboard.constructor | Flatlings/Flatlings/Animations/Storyboard.cs:24-27 | a new storyboard has no animations and no plan. It is at time 0 and was last purged at TimeSpan.MinValue |
| Storyboards.Storyboard.BeginAnimationNow | Flatlings/Flatlings/Animations/Storyboard.cs:34-38 | the animation starts at the current time and is appended |
| Storyboards.Storyboard.Plan | Flatlings/Flatlings/Animations/Storyboard.cs:40-50 | gives the current planning session's planner, or else a fresh planner at offset 0 that is not kept |
| Storyboards.Storyboard.Update | Flatlings/Flatlings/Animations/Storyboard.cs:52-63 | purges the expired animations exactly when more than a second has passed since the last purge |
| Storyboards.Storyboard.AdvanceTimeTo | Flatlings/Flatlings/Animations/Storyboard.cs:65-68 | sets the current time and nothing else |
| Storyboards.Storyboard.PurgeExpiredAnimations | Flatlings/Flatlings/Animations/Storyboard.cs:70-78 | the list becomes the unexpired animations in their order, and the purge time is recorded |
| Storyboards.Storyboard.AddAnimation | Flatlings/Flatlings/Animations/Storyboard.cs:80-83 | appends the animation and changes nothing else |
| Storyboards.Storyboard.RemoveAnimation | Flatlings/Flatlings/Animations/Storyboard.cs:85-88 | removes the first occurrence of the animation, if any, keeping the others in order |
| Storyboards.Storyboard.BeginPlanning | Flatlings/Flatlings/Animations/Storyboard.cs:90-95 | starts a planning session with a fresh planner at offset 0 |
| Storyboards.Storyboard.DisposePlanning | Flatlings/Flatlings/Animations/Storyboard.cs:94 | ends the current planning session, whichever session's disposer is used |
| Storyboards.StoryboardPlanner.constructor | Flatlings/Flatlings/Animations/StoryboardPlanner.cs:29-33 | a new planner belongs to its storyboard and is at offset 0 |
| Storyboards.StoryboardPlanner.AfterDelay | Flatlings/Flatlings/Animations/StoryboardPlanner.cs:35-39 | the offset grows by the delay, and stays the sum of all delays so far; the planner returns itself |
| Storyboards.StoryboardPlanner.Begin | Flatlings/Flatlings/Animations/StoryboardPlanner.cs:49-60 | the animation starts at the storyboard's current time plus the offset and is appended to the storyboard. Its duration, repeat mode and reverse flag are unchanged |
| Seqs.RemoveFirst | Flatlings/Flatlings/Animations/Storyboard.cs:87 | removing an element present shortens the list by one; removing an absent one changes nothing |
| Seqs.RemoveFirstAt | Flatlings/Flatlings/Animations/Storyboard.cs:87 | removing takes out exactly the first occurrence, and keeps the elements before and after it in order |
| Seqs.Reversed | PipelineExtensions/LevelDataReader.cs:155 | the reversed list has the same length, and its element k is the original's element n - 1 - k |
| Seqs.RemoveFirstDistinct | FlatlingsServer/Domain/PuzzleGenerator.cs:77 | removing an element from a duplicate-free pool leaves a duplicate-free pool without it, drawn from the original |

## Left out

- Locks and concurrency. The game's reader/writer lock and the concurrent dictionary are not modelled; every operation is one atomic step.
- Sessions.GameState.ProcessUpdateWaitingForPlayers: the model reads the player count as an ordinary read. In the source, `ProcessUpdate` holds the game's write lock (FlatlingsServer/Domain/Game.cs:45) while this state's handler reads `Game.Players`, whose getter takes the read lock (FlatlingsServer/Domain/Game.cs:162). `ReaderWriterLockSlim` is created without recursion support (FlatlingsServer/Domain/Game.cs:35), so the read at FlatlingsServer/Domain/WaitingForPlayersState.cs:44 throws `LockRecursionException` on every update in this state, after line 41 has counted the update if it is a begin update. Lock recursion is not modelled, so the model promises the state change that the code evidently intends.
- Reactive timers and intervals are explicit steps (`FireTimer`, `PollStatus`, `RefreshPlayerList`, `RoundDataArrived`, `ClockSkewArrived`). The server's one-minute garbage-collection interval is not modelled; `RemoveGarbageGames` is the sweep itself.
- The clock (`DateTime.UtcNow`) is a parameter `now`. `Guid.NewGuid` is the parameter `newId`. `Random` and the `Shuffle` extension are the `Dice` oracles.
- PuzzleGenerator.GetDeformationSequence: with no shapes and a positive limit, the source's endless repeat of an empty order never yields. The model asks for a zero limit then, which is what GenerateNewPuzzle passes.
- PuzzleGenerator.Shuffle: the source's Shuffle extension is not part of this model. A Fisher-Yates stand-in keeps only the permutation property the generator relies on.
- `Game.IsInactive`, the activity timestamp and player removal are not part of this model. The sweep takes the set of inactive games as a parameter.
- BeginningPuzzleState is not part of this model. Its Enter is modelled as doing nothing, so Game keeps the round and puzzle index that the unshown code would use.
- Sessions.Game.TransitionToState: a state is built directly by kind; the dependency-injection container is not modelled.
- `GetStateSnapshot`, `GetScoreSnapshot` and `GetRoundDate`, and the mapping to data-transfer objects, are not modelled.
- Scoring.Scoreboard.RoundCompleted: the int counter is unbounded, so wrap-around after 2^31 rounds is not modelled. The same holds for the player scores.
- PuzzleGenerator.NumberOfMoves: the double arithmetic `(int)((double)level / 15 * n)` is modelled as the exact floor(level·n / 15). Double rounding and a cast overflow for huge values are not modelled.
- A PlayerScore is a value in the scoreboard's map, so aliasing of the mutable PlayerScore object returned by Scores is not modelled.
- Csv.ParseInt: culture-specific signs, thousands separators, trailing NUL characters and other NumberStyles details of int.Parse are not modelled. The default invariant style is assumed: blanks, an optional sign, then digits.
- The tag test `StartsWith("$")` is modelled as an ordinal comparison of the first character.
- LevelShapes.ConvertLevelDataToLevelTemplate: with a ShapeCount of int.MaxValue the source's loop counter wraps and the loop never ends. The model reports that case as an Overflow failure. The reader never hands over such a level, because LevelAt proves that a level it reads has fewer than int.MaxValue shapes: a skip that long wraps the line index and throws first.
- Csv.CsvLineProvider.MoveToNextLine: when the wrapped index throws, the model leaves the provider unchanged. In the source the index has already become int.MinValue. Nothing can observe it, because the exception leaves the reader.
- Line count: a file has at most int.MaxValue lines, the most an array can hold. The cell index of a line is not bounded the same way, because a line that long cannot be read.
- LevelReader.ReadLevelTemplates: `File.ReadAllLines` is not modelled; the file is given as its lines. `List.Reverse` is a reassignment of the row sequence.
- SinglePlayer.SinglePlayerGameController.GetNextPuzzle: `Puzzle.CreateFromLevelTemplate` and the puzzle's move counting are not part of this model. The controller hands out the level template, and a completed puzzle's target and player move counts are a parameter of PuzzleCompleted.
- SinglePlayer.SinglePlayerGameController.UpdateScore: the decimal score and run length are unbounded integers. Decimal overflow and int overflow of `2 * target - player` are not modelled.
- The hardness (a double raised by 0.05) is a count of 0.05 steps.
- AnimationTiming.Animation.NormalisedTimeAt: only the null and 1 cases are computed. The fraction within a run, `AutoReverse`, `SetValueForTime` and `UpdateForTime` involve floating point and the subclasses' setters, which are not modelled.
- Storyboards.Storyboard.Update: handing the current time to each animation (`UpdateForTime`) is not modelled; only the purge is.
- TimeSpan overflow of the times and offsets is not modelled.
- The `Begin(Func<AnimationFactory, Animation>)` overload of the planner and the AnimationFactory are not modelled; the `Begin(Animation)` overload is.
- `DelegateInvokingDisposer` is modelled as the method DisposePlanning.
- ClientSession: the server requests in `StartGame`, `LeaveGame` and `PuzzleCompleted` and the scoreboard fetch in RoundEndedState (`GetGameScore`) are not modelled. The contents of puzzles and players are abstract types.
- ClientSession.MultiplayerGame.RefreshPlayerList: the in-place `Clear` and `Add` on the observable collection are modelled as one reassignment of the list.
- A null colour list passed to the Palette constructor is not modelled. An `ArgumentOutOfRangeException` from a list index is modelled as IndexOutOfRange.
