/** The single-player controller: it walks through the level list from
    level 35, wrapping to the first level, and scores each completed puzzle
    by how close the player came to the target number of moves, weighted by
    the square of the current run of puzzles solved in exactly the target. */
module SinglePlayer {
  import opened Wrappers

  const Int32Min: int := -0x8000_0000
  const Int32Max: int := 0x7FFF_FFFF

  /** The level the controller starts from. */
  const FirstLevel: int := 35

  /** Events published to the screens. */
  datatype GameEvent = Won | StartingNewGame

  /** The move counts of a completed puzzle: the target and the player's. */
  datatype MoveCounts = MoveCounts(target: int, player: int)

  /** A puzzle is nailed when solved in exactly the target number of moves. */
  predicate Nailed(c: MoveCounts) {
    c.target == c.player
  }

  /** The run length after a completion: one more after a nailed puzzle,
      and back to 1 otherwise. */
  function NextStreak(streak: int, c: MoveCounts): int
  {
    if Nailed(c) then streak + 1 else 1
  }

  /** The points for a completed puzzle given the new run length: 10 plus
      the run length squared times 2·target − player, the latter counted
      only when positive. */
  function Points(streak: int, c: MoveCounts): (r: int)
    ensures r >= 10
    ensures r == 10 <==> streak == 0 || 2 * c.target - c.player <= 0
  {
    var forGame := (2 * c.target - c.player) * (streak * streak);
    if forGame < 0 then 10
    else
      ProductPositive(2 * c.target - c.player, streak * streak, streak);
      10 + forGame
  }

  lemma ProductPositive(a: int, b: int, s: int)
    requires b == s * s
    ensures (a * b == 0) <==> (a == 0 || s == 0)
    ensures a > 0 && s != 0 ==> a * b > 0
    ensures a < 0 && s != 0 ==> a * b < 0
  {
    if s != 0 {
      assert b > 0;
    }
  }

  /** The run length and score after completing the puzzles of `history`,
      oldest first, from a fresh controller. */
  datatype Tally = Tally(streak: int, score: int)

  function Replay(history: seq<MoveCounts>): Tally
  {
    if history == [] then Tally(0, 0)
    else
      var before := Replay(history[..|history| - 1]);
      var c := history[|history| - 1];
      var streak := NextStreak(before.streak, c);
      Tally(streak, before.score + Points(streak, c))
  }

  /** The number of nailed puzzles at the end of the history. */
  function TrailingNailed(history: seq<MoveCounts>): (r: nat)
    ensures r <= |history|
  {
    if history == [] || !Nailed(history[|history| - 1]) then 0
    else 1 + TrailingNailed(history[..|history| - 1])
  }

  /** The run length counts the trailing nailed puzzles, plus one for the
      unnailed puzzle before them when there is one; the first run of a
      game therefore starts from 0 and later runs from 1. */
  lemma {:induction false} StreakIsTrailingRun(history: seq<MoveCounts>)
    ensures Replay(history).streak ==
      TrailingNailed(history) + (if TrailingNailed(history) < |history| then 1 else 0)
  {
    if history != [] {
      StreakIsTrailingRun(history[..|history| - 1]);
    }
  }

  /** After any completion the run length is at least 1. */
  lemma {:induction false} StreakPositive(history: seq<MoveCounts>)
    requires history != []
    ensures Replay(history).streak >= 1
  {
    StreakIsTrailingRun(history);
  }

  /** Every completion adds at least 10, so the score is at least 10 per
      completed puzzle. */
  lemma {:induction false} ScoreAtLeast(history: seq<MoveCounts>)
    ensures Replay(history).score >= 10 * |history|
  {
    if history != [] {
      ScoreAtLeast(history[..|history| - 1]);
    }
  }

  /** The score strictly increases with every completion. */
  lemma ScoreIncreases(history: seq<MoveCounts>, c: MoveCounts)
    ensures Replay(history + [c]).score >= Replay(history).score + 10
  {
    assert (history + [c])[..|history|] == history;
  }

  /** The level index after one more level: the next one, wrapping to the
      first after the last. */
  function NextLevel(index: int, count: nat): (r: int)
    requires 0 <= index < count
    ensures 0 <= r < count
    ensures r == (index + 1) % count
  {
    if index + 1 >= count then 0 else index + 1
  }

  /** The accumulated score as the int the screens show: the score is a
      whole number, and the cast throws Overflow outside the int range. */
  function ScoreAsInt(score: int): (r: Result<int>)
    ensures r.Success? <==> Int32Min <= score <= Int32Max
    ensures r.Success? ==> r.value == score
    ensures r.Failure? ==> r.error == Overflow
  {
    if score < Int32Min || score > Int32Max then Failure(Overflow) else Success(score)
  }

  class SinglePlayerGameController {
    var currentLevelNumber: int
    /** Hardness is 0.05 times this count of levels handed out since Begin. */
    var hardnessSteps: nat
    var streak: int
    var score: int
    /** The level of the current puzzle, once one was handed out. */
    var currentPuzzle: Option<nat>
    var isPlaying: bool
    var events: seq<GameEvent>
    /** The puzzles completed so far, oldest first. */
    ghost var history: seq<MoveCounts>

    /** The run length and score are those the completed puzzles give. */
    ghost predicate Valid()
      reads this
    {
      Replay(history) == Tally(streak, score)
    }

    constructor()
      ensures Valid()
      ensures currentLevelNumber == FirstLevel && hardnessSteps == 0
      ensures streak == 0 && score == 0 && currentPuzzle == None
      ensures !isPlaying && events == [] && history == []
    {
      currentLevelNumber := FirstLevel;
      hardnessSteps := 0;
      streak := 0;
      score := 0;
      currentPuzzle := None;
      isPlaying := false;
      events := [];
      history := [];
    }

    /** Hands out the template of the current level, then moves to the next
      level, wrapping to the first after the last. An index outside the
      list throws before anything changes. */
    method GetNextPuzzle<T>(levels: seq<T>) returns (r: Result<T>)
      modifies this
      ensures r.Success? <==> 0 <= old(currentLevelNumber) < |levels|
      ensures r.Failure? ==> r.error == IndexOutOfRange && unchanged(this)
      ensures r.Success? ==>
        && r.value == levels[old(currentLevelNumber)]
        && currentLevelNumber == NextLevel(old(currentLevelNumber), |levels|)
        && 0 <= currentLevelNumber < |levels|
        && hardnessSteps == old(hardnessSteps) + 1
        && currentPuzzle == Some(old(currentLevelNumber))
        && streak == old(streak) && score == old(score) && isPlaying == old(isPlaying)
        && events == old(events) && history == old(history)
    {
      if !(0 <= currentLevelNumber < |levels|) {
        return Failure(IndexOutOfRange);
      }
      r := Success(levels[currentLevelNumber]);
      var used := currentLevelNumber;
      currentLevelNumber := currentLevelNumber + 1;
      hardnessSteps := hardnessSteps + 1;
      if currentLevelNumber >= |levels| {
        currentLevelNumber := 0;
      }
      currentPuzzle := Some(used);
    }

    /** Scores the current puzzle from its move counts at completion, then
      publishes Won and StartingNewGame, in that order. Without a current
      puzzle the score update throws before anything changes. */
    method PuzzleCompleted(counts: MoveCounts) returns (r: Outcome)
      requires Valid()
      modifies this
      ensures Valid()
      ensures r.Fail? <==> old(currentPuzzle).None?
      ensures r.Fail? ==> r.error == NullReference && unchanged(this)
      ensures r.Pass? ==>
        && history == old(history) + [counts]
        && streak == NextStreak(old(streak), counts)
        && score == old(score) + Points(streak, counts)
        && events == old(events) + [Won, StartingNewGame]
        && currentLevelNumber == old(currentLevelNumber) && hardnessSteps == old(hardnessSteps)
        && currentPuzzle == old(currentPuzzle) && isPlaying == old(isPlaying)
    {
      if currentPuzzle.None? {
        return Fail(NullReference);
      }
      UpdateScore(counts);
      events := events + [Won];
      events := events + [StartingNewGame];
      r := Pass;
    }

    method UpdateScore(counts: MoveCounts)
      requires Valid()
      modifies this
      ensures Valid()
      ensures history == old(history) + [counts]
      ensures streak == NextStreak(old(streak), counts)
      ensures score == old(score) + Points(streak, counts)
      ensures currentLevelNumber == old(currentLevelNumber) && hardnessSteps == old(hardnessSteps)
      ensures currentPuzzle == old(currentPuzzle) && isPlaying == old(isPlaying) && events == old(events)
    {
      if counts.target == counts.player {
        streak := streak + 1;
      } else {
        streak := 1;
      }
      var basicPoint := streak * streak;
      var forGame := (2 * counts.target - counts.player) * basicPoint;
      forGame := 10 + (if forGame < 0 then 0 else forGame);
      score := score + forGame;
      history := history + [counts];
      assert history[..|history| - 1] == old(history);
    }

    /** The score as the int the screens show. */
    method Score() returns (r: Result<int>)
      requires Valid()
      ensures r == ScoreAsInt(score)
      ensures r.Success? ==> r.value >= 10 * |history|
    {
      ScoreAtLeast(history);
      r := ScoreAsInt(score);
    }

    /** Starts a game: hardness back to 0, StartingNewGame published. */
    method Begin()
      modifies this
      ensures hardnessSteps == 0 && isPlaying && events == old(events) + [StartingNewGame]
      ensures currentLevelNumber == old(currentLevelNumber) && streak == old(streak) && score == old(score)
      ensures currentPuzzle == old(currentPuzzle) && history == old(history)
    {
      hardnessSteps := 0;
      events := events + [StartingNewGame];
      isPlaying := true;
    }

    method End()
      modifies this
      ensures !isPlaying
      ensures hardnessSteps == old(hardnessSteps) && events == old(events)
      ensures currentLevelNumber == old(currentLevelNumber) && streak == old(streak) && score == old(score)
      ensures currentPuzzle == old(currentPuzzle) && history == old(history)
    {
      isPlaying := false;
    }
  }

  /** A new controller over fewer than 36 levels cannot hand out its first
      puzzle. */
  method FirstPuzzleNeedsLevel35<T>(levels: seq<T>) returns (r: Result<T>)
    requires |levels| <= FirstLevel
    ensures r == Failure(IndexOutOfRange)
  {
    var controller := new SinglePlayerGameController();
    r := controller.GetNextPuzzle(levels);
  }
}
