/** A multiplayer session on the server: the Game aggregate and its current
    GameState. The state classes of the source (waiting for players,
    beginning a round, beginning a puzzle, solving a puzzle, round ended,
    abandoned) become one GameState class whose `kind` selects the
    behaviour of Enter and ProcessUpdate.

    Time is an integer number of milliseconds. A transition that a state
    schedules with a reactive timer is recorded in the game's `timers` list
    and performed by FireTimer, an explicit step. */
module Sessions {
  import opened Wrappers
  import opened Seqs
  import opened Ids
  import opened LevelRepository
  import opened PuzzleGenerator
  import opened Scoring

  datatype StateKind =
    | WaitingForPlayers
    | BeginningRound
    | BeginningPuzzle
    | SolvingPuzzle
    | RoundEnded
    | Abandoned

  /** The updates a client posts to its game. */
  datatype GameStatusUpdate =
    | BeginGameUpdate
    | PuzzleCompletedUpdate(playerId: string)
    | OtherUpdate

  /** A transition to `target` scheduled for time `due`. */
  datatype Timer = Timer(due: int, target: StateKind)

  /** A new round starts this long after BeginningRound is entered. */
  const BeginningRoundDelay: int := 4000

  /** The part of a game that state Enter hooks write. */
  datatype SessionView = SessionView(isJoinable: bool, round: Option<Round>, currentPuzzle: int, timers: seq<Timer>)

  /** What entering a state of the given kind does to the session, and its
      outcome: WaitingForPlayers makes the game joinable; BeginningRound
      generates the round for the number of rounds played (which may throw),
      resets the puzzle index to -1 and schedules BeginningPuzzle
      BeginningRoundDelay after `now`; Abandoned makes the game not
      joinable; the other states do nothing on entry. */
  ghost predicate EnterEffect(kind: StateKind, now: int, repo: LevelDataRepository, roundsPlayed: int,
                              before: SessionView, after: SessionView, r: Outcome)
  {
    match kind
    case WaitingForPlayers => r == Pass && after == before.(isJoinable := true)
    case BeginningRound =>
      && (r.Pass? <==> repo.Loaded() && roundsPlayed >= 0)
      && (r.Pass? ==>
            && after.isJoinable == before.isJoinable
            && after.round.Some? && IsRoundFor(after.round.value, repo, roundsPlayed)
            && after.currentPuzzle == -1
            && after.timers == before.timers + [Timer(now + BeginningRoundDelay, BeginningPuzzle)])
      && (r.Fail? ==>
            r.error == repo.GetLevel(roundsPlayed * PuzzlesPerRound).error && after == before)
    case Abandoned => r == Pass && after == before.(isJoinable := false)
    case _ => r == Pass && after == before
  }

  /** The scoreboard's keys are the players' id strings, in the order the
      players joined, and each entry carries its player's id and name. */
  ghost predicate Agree(players: map<Guid, Player>, playerOrder: seq<Guid>,
                        scoreOrder: seq<string>, scores: map<string, PlayerScore>)
  {
    && |scoreOrder| == |playerOrder|
    && (forall i {:trigger scoreOrder[i]} {:trigger playerOrder[i]} :: 0 <= i < |playerOrder| ==>
          scoreOrder[i] == GuidString(playerOrder[i]))
    && (forall g {:trigger players[g]} :: g in players ==>
          && GuidString(g) in scores
          && scores[GuidString(g)].playerId == g
          && scores[GuidString(g)].playerName == players[g].name)
  }

  /** Crediting a puzzle to a player changes only a score. */
  lemma CreditKeepsAgreement(players: map<Guid, Player>, playerOrder: seq<Guid>,
                             scoreOrder: seq<string>, scores: map<string, PlayerScore>, k: string)
    requires Agree(players, playerOrder, scoreOrder, scores)
    requires k in scores
    ensures Agree(players, playerOrder, scoreOrder, scores[k := scores[k].(score := scores[k].score + 1)])
  {
  }

  class GameState {
    const game: Game
    const kind: StateKind
    var id: int
    /** WaitingForPlayers: the number of begin updates received. */
    var startCount: int
    /** BeginningRound: when the round's first puzzle begins. */
    var startTimeUtc: int

    constructor(game: Game, kind: StateKind)
      ensures this.game == game && this.kind == kind
      ensures id == 0 && startCount == 0 && startTimeUtc == 0
    {
      this.game := game;
      this.kind := kind;
      id := 0;
      startCount := 0;
      startTimeUtc := 0;
    }

    /** No state's Leave hook does anything. */
    method Leave()
    {
    }

    method Enter(now: int, dice: nat -> Dice) returns (r: Outcome)
      requires game.Consistent()
      modifies this, game
      ensures game.Consistent()
      ensures game.Roster() == old(game.Roster()) && game.currentState == old(game.currentState)
      ensures id == old(id) && startCount == old(startCount)
      ensures startTimeUtc == (if kind == BeginningRound then now + BeginningRoundDelay else old(startTimeUtc))
      ensures EnterEffect(kind, now, game.repo, game.scoreboard.roundsPlayed, old(game.Session()), game.Session(), r)
    {
      r := Pass;
      match kind
      case WaitingForPlayers =>
        game.isJoinable := true;
      case BeginningRound =>
        startTimeUtc := now + BeginningRoundDelay;
        var round := GenerateRound(game.repo, game.scoreboard.roundsPlayed, dice);
        if round.Failure? {
          return Fail(round.error);
        }
        game.round := Some(round.value);
        game.currentPuzzle := -1;
        game.timers := game.timers + [Timer(startTimeUtc, BeginningPuzzle)];
      case Abandoned =>
        game.isJoinable := false;
      case _ =>
    }

    /** The state's reaction to an update, as UpdateProcessed describes it:
        each kind of state has its own override; the base class ignores
        every update. */
    method ProcessUpdate(update: GameStatusUpdate, now: int, dice: nat -> Dice) returns (r: Outcome)
      requires game.Valid() && game.currentState == this
      modifies this, game, game.scoreboard
      ensures game.Valid() && game.Roster() == old(game.Roster())
      ensures game.UpdateProcessed(this, update, now, r)
    {
      match kind
      case WaitingForPlayers =>
        r := ProcessUpdateWaitingForPlayers(update, now, dice);
      case SolvingPuzzle =>
        r := ProcessUpdateSolvingPuzzle(update, now, dice);
      case RoundEnded =>
        r := ProcessUpdateRoundEnded(update, now, dice);
      case _ =>
        r := Pass;
    }

    method ProcessUpdateWaitingForPlayers(update: GameStatusUpdate, now: int, dice: nat -> Dice) returns (r: Outcome)
      requires kind == WaitingForPlayers
      requires game.Valid() && game.currentState == this
      modifies this, game
      ensures game.Valid() && game.Roster() == old(game.Roster())
      ensures game.WaitingProcessed(this, update, now, r)
    {
      r := Pass;
      if update.BeginGameUpdate? {
        startCount := startCount + 1;
      }
      if |game.players| >= 1 && startCount >= 1 {
        game.isJoinable := false;
        r := game.TransitionToState(BeginningRound, now, dice);
        assert game.Moved(BeginningRound, now, old(game.Session()).(isJoinable := false), r);
      }
    }

    method ProcessUpdateSolvingPuzzle(update: GameStatusUpdate, now: int, dice: nat -> Dice) returns (r: Outcome)
      requires kind == SolvingPuzzle
      requires game.Valid() && game.currentState == this
      modifies game, game.scoreboard
      ensures game.Valid() && game.Roster() == old(game.Roster())
      ensures game.SolvingProcessed(this, update, now, r)
    {
      r := Pass;
      if update.PuzzleCompletedUpdate? {
        r := game.scoreboard.PuzzleWon(update.playerId);
        if r.Fail? {
          return;
        }
        CreditKeepsAgreement(game.players, game.playerOrder, game.scoreboard.order,
                             old(game.scoreboard.scores), update.playerId);
        if game.round.None? {
          return Fail(NullReference);
        }
        if game.currentPuzzle < |game.round.value.puzzles| - 1 {
          r := game.TransitionToState(BeginningPuzzle, now, dice);
          assert game.Moved(BeginningPuzzle, now, old(game.Session()), r);
        } else {
          game.scoreboard.RoundCompleted();
          r := game.TransitionToState(RoundEnded, now, dice);
          assert game.Moved(RoundEnded, now, old(game.Session()), r);
        }
      }
    }

    method ProcessUpdateRoundEnded(update: GameStatusUpdate, now: int, dice: nat -> Dice) returns (r: Outcome)
      requires kind == RoundEnded
      requires game.Valid() && game.currentState == this
      modifies game
      ensures game.Valid() && game.Roster() == old(game.Roster())
      ensures game.RoundEndedProcessed(this, update, now, r)
    {
      r := Pass;
      if update.BeginGameUpdate? {
        r := game.TransitionToState(BeginningRound, now, dice);
      }
    }
  }

  class Game {
    var id: Guid
    var name: Option<string>
    var ownerName: Option<string>
    var isJoinable: bool
    var currentState: GameState?
    var players: map<Guid, Player>
    /** The player ids in the order they joined (the table has no removal). */
    var playerOrder: seq<Guid>
    var round: Option<Round>
    var currentPuzzle: int
    var timers: seq<Timer>
    const scoreboard: Scoreboard
    /** The level repository behind the game's puzzle generator. */
    const repo: LevelDataRepository

    /** The player table and the scoreboard agree. */
    ghost predicate Consistent()
      reads this, scoreboard
    {
      && scoreboard.Valid()
      && TableValid()
      && Agree(players, playerOrder, scoreboard.order, scoreboard.scores)
    }

    /** The player table is keyed by player id, and `playerOrder` lists its
        keys once each. */
    ghost predicate TableValid()
      reads this
    {
      && Distinct(playerOrder)
      && (forall g :: g in players <==> g in playerOrder)
      && (forall g :: g in players ==> players[g].id == g)
    }

    ghost predicate Valid()
      reads this, scoreboard, currentState
    {
      && Consistent()
      && currentState != null
      && currentState.game == this
    }

    ghost function Session(): SessionView
      reads this
    {
      SessionView(isJoinable, round, currentPuzzle, timers)
    }

    /** The fields no state hook writes. */
    ghost function Roster(): (Guid, Option<string>, Option<string>, map<Guid, Player>, seq<Guid>)
      reads this
    {
      (id, name, ownerName, players, playerOrder)
    }

    /** A transition has happened: a new state object of the given kind is
        current, stamped with the previous state's id plus one, and it has
        been entered from the session `before`. */
    twostate predicate Moved(kind: StateKind, now: int, before: SessionView, r: Outcome)
      reads this, currentState, scoreboard
    {
      && old(currentState) != null
      && currentState != null
      && fresh(currentState)
      && currentState.game == this
      && currentState.kind == kind
      && currentState.id == old(currentState.id) + 1
      && currentState.startCount == 0
      && currentState.startTimeUtc == (if kind == BeginningRound then now + BeginningRoundDelay else 0)
      && EnterEffect(kind, now, repo, scoreboard.roundsPlayed, before, Session(), r)
    }

    /** What the current state `s` did with an update: each kind of state
        reacts as its own predicate below says, and the others (beginning a
        round, beginning a puzzle, abandoned) ignore every update. */
    twostate predicate UpdateProcessed(s: GameState, update: GameStatusUpdate, now: int, r: Outcome)
      reads this, currentState, scoreboard, s
    {
      match s.kind
      case WaitingForPlayers => WaitingProcessed(s, update, now, r)
      case SolvingPuzzle => SolvingProcessed(s, update, now, r)
      case RoundEnded => RoundEndedProcessed(s, update, now, r)
      case _ => r == Pass && unchanged(s) && unchanged(this) && unchanged(scoreboard)
    }

    /** WaitingForPlayers counts begin updates and, once some player is
        present and some begin update has arrived, in either order, makes the
        game not joinable and moves to BeginningRound. */
    twostate predicate WaitingProcessed(s: GameState, update: GameStatusUpdate, now: int, r: Outcome)
      reads this, currentState, scoreboard, s
    {
      && s.startCount == old(s.startCount) + (if update.BeginGameUpdate? then 1 else 0)
      && s.id == old(s.id)
      && unchanged(scoreboard)
      && (if |players| >= 1 && s.startCount >= 1
          then Moved(BeginningRound, now, old(Session()).(isJoinable := false), r)
          else r == Pass && currentState == s && Session() == old(Session()))
    }

    /** SolvingPuzzle reacts only to a completed puzzle: it credits the
        winner (an unknown id throws with nothing changed), then moves to
        BeginningPuzzle while puzzles remain in the round, and otherwise
        completes the round and moves to RoundEnded. */
    twostate predicate SolvingProcessed(s: GameState, update: GameStatusUpdate, now: int, r: Outcome)
      reads this, currentState, scoreboard, s
    {
      && unchanged(s)
      && (if !update.PuzzleCompletedUpdate? || update.playerId !in old(scoreboard.scores) then
            && r == (if update.PuzzleCompletedUpdate? then Fail(KeyNotFound) else Pass)
            && unchanged(this) && unchanged(scoreboard)
          else
            && Credited(update.playerId)
            && (if old(round).None? then
                  r == Fail(NullReference) && unchanged(this)
                  && scoreboard.roundsPlayed == old(scoreboard.roundsPlayed)
                else if old(currentPuzzle) < |old(round).value.puzzles| - 1 then
                  && scoreboard.roundsPlayed == old(scoreboard.roundsPlayed)
                  && Moved(BeginningPuzzle, now, old(Session()), r)
                else
                  && scoreboard.roundsPlayed == old(scoreboard.roundsPlayed) + 1
                  && Moved(RoundEnded, now, old(Session()), r)))
    }

    /** The scoreboard credited one puzzle to the player with key pid. */
    twostate predicate Credited(pid: string)
      reads scoreboard
      requires pid in old(scoreboard.scores)
    {
      && scoreboard.scores == old(scoreboard.scores)[pid := old(scoreboard.scores)[pid].(score := old(scoreboard.scores)[pid].score + 1)]
      && scoreboard.order == old(scoreboard.order)
      && scoreboard.mostRecentWinnerId == Some(pid)
    }

    /** RoundEnded moves to BeginningRound on a begin update. */
    twostate predicate RoundEndedProcessed(s: GameState, update: GameStatusUpdate, now: int, r: Outcome)
      reads this, currentState, scoreboard, s
    {
      && unchanged(s) && unchanged(scoreboard)
      && (if update.BeginGameUpdate?
          then Moved(BeginningRound, now, old(Session()), r)
          else r == Pass && unchanged(this))
    }

    /** A new game is waiting for players, in state 0, joinable and empty.
        WaitingForPlayers' Enter uses neither the clock nor the dice, so
        fixed ones are passed. */
    constructor(repo: LevelDataRepository)
      ensures Valid() && fresh(scoreboard) && fresh(currentState)
      ensures this.repo == repo
      ensures currentState.kind == WaitingForPlayers && currentState.id == 0
      ensures id == seq(32, _ => 0) && name == None && ownerName == None
      ensures players == map[] && playerOrder == []
      ensures scoreboard.scores == map[] && scoreboard.roundsPlayed == 0
      ensures Session() == SessionView(true, None, 0, [])
    {
      id := seq(32, _ => 0);
      name := None;
      ownerName := None;
      isJoinable := false;
      currentState := null;
      players := map[];
      playerOrder := [];
      round := None;
      currentPuzzle := 0;
      timers := [];
      scoreboard := new Scoreboard();
      this.repo := repo;
      new;
      var r := TransitionToState(WaitingForPlayers, 0, _ => Dice(_ => 0, _ => 0));
    }

    /** Leaves the current state (if any), makes a new state of the given
        kind current with the next id (0 for the first), then enters it. */
    method TransitionToState(kind: StateKind, now: int, dice: nat -> Dice) returns (r: Outcome)
      requires Consistent()
      modifies this
      ensures Valid() && Roster() == old(Roster())
      ensures fresh(currentState) && currentState.kind == kind
      ensures currentState.id == (if old(currentState) == null then 0 else old(currentState.id) + 1)
      ensures currentState.startCount == 0
      ensures currentState.startTimeUtc == (if kind == BeginningRound then now + BeginningRoundDelay else 0)
      ensures EnterEffect(kind, now, repo, scoreboard.roundsPlayed, old(Session()), Session(), r)
    {
      var gameState := new GameState(this, kind);
      var stateId := 0;
      if currentState != null {
        currentState.Leave();
        stateId := currentState.id + 1;
      }
      currentState := gameState;
      currentState.id := stateId;
      r := gameState.Enter(now, dice);
    }

    /** Forwards the update to the current state. */
    method ProcessUpdate(update: GameStatusUpdate, now: int, dice: nat -> Dice) returns (r: Outcome)
      requires Valid()
      modifies this, currentState, scoreboard
      ensures Valid() && Roster() == old(Roster())
      ensures UpdateProcessed(old(currentState), update, now, r)
    {
      r := currentState.ProcessUpdate(update, now, dice);
    }

    /** A scheduled timer comes due: it is dropped from the pending list and
        its transition runs, whatever the current state is by then. */
    method FireTimer(i: nat, now: int, dice: nat -> Dice) returns (r: Outcome)
      requires Valid()
      requires i < |timers| && timers[i].due <= now
      modifies this
      ensures Valid() && Roster() == old(Roster())
      ensures Moved(old(timers[i].target), now, old(Session()).(timers := old(timers[..i] + timers[i + 1..])), r)
    {
      var target := timers[i].target;
      timers := timers[..i] + timers[i + 1..];
      r := TransitionToState(target, now, dice);
    }

    /** Adds the player to the table and then to the scoreboard. An id
        already in the table throws before the scoreboard is touched; the
        scoreboard itself never rejects a new player, because its keys are
        the id strings of the players in the table. */
    method AddPlayer(player: Player) returns (r: Outcome)
      requires Valid()
      modifies this, scoreboard
      ensures Valid()
      ensures player.id in old(players) ==>
        r == Fail(DuplicateKey) && unchanged(this) && unchanged(scoreboard)
      ensures player.id !in old(players) ==>
        && r == Pass
        && players == old(players)[player.id := player]
        && playerOrder == old(playerOrder) + [player.id]
        && scoreboard.scores == old(scoreboard.scores)[GuidString(player.id) := PlayerScore(player.id, player.name, 0)]
        && scoreboard.roundsPlayed == old(scoreboard.roundsPlayed)
        && scoreboard.mostRecentWinnerId == old(scoreboard.mostRecentWinnerId)
        && currentState == old(currentState) && Session() == old(Session())
        && (id, name, ownerName) == old((id, name, ownerName))
    {
      if player.id in players {
        return Fail(DuplicateKey);
      }
      NewPlayerHasNoScore(player.id);
      players := players[player.id := player];
      playerOrder := playerOrder + [player.id];
      r := scoreboard.AddPlayer(player);
    }

    /** An id not in the table has no scoreboard entry. */
    lemma NewPlayerHasNoScore(g: Guid)
      requires Consistent()
      requires g !in players
      ensures GuidString(g) !in scoreboard.scores
    {
      forall i | 0 <= i < |scoreboard.order|
        ensures scoreboard.order[i] != GuidString(g)
      {
        assert playerOrder[i] in players;
        GuidStringDistinct(playerOrder[i], g);
      }
    }

    /** The owner joins like any other player. */
    method SetOwner(owner: Player) returns (r: Outcome)
      requires Valid()
      modifies this, scoreboard
      ensures Valid()
      ensures owner.id in old(players) ==>
        r == Fail(DuplicateKey) && unchanged(this) && unchanged(scoreboard)
      ensures owner.id !in old(players) ==>
        && r == Pass
        && players == old(players)[owner.id := owner]
        && playerOrder == old(playerOrder) + [owner.id]
        && scoreboard.scores == old(scoreboard.scores)[GuidString(owner.id) := PlayerScore(owner.id, owner.name, 0)]
        && scoreboard.roundsPlayed == old(scoreboard.roundsPlayed)
        && scoreboard.mostRecentWinnerId == old(scoreboard.mostRecentWinnerId)
        && currentState == old(currentState) && Session() == old(Session())
        && (id, name, ownerName) == old((id, name, ownerName))
    {
      r := AddPlayer(owner);
    }

    /** A copy of the table's players, in the order they joined. */
    function Players(): (r: seq<Player>)
      requires TableValid()
      reads this
      ensures |r| == |players|
      ensures forall g :: g in players ==> players[g] in r
      ensures forall p :: p in r ==> p.id in players && players[p.id] == p
    {
      DistinctKeysCount(players, playerOrder);
      var order, table := playerOrder, players;
      var r := seq(|order|, i requires 0 <= i < |order| && order[i] in table => table[order[i]]);
      assert forall g :: g in players ==> players[g] in r by {
        forall g | g in players
          ensures players[g] in r
        {
          var i :| 0 <= i < |playerOrder| && playerOrder[i] == g;
          assert r[i] == players[g];
        }
      }
      r
    }
  }

  /** The scoreboard is keyed by exactly the id strings of the players. */
  lemma ScoreboardKeysArePlayerIds(game: Game)
    requires game.Consistent()
    ensures game.scoreboard.scores.Keys == set g | g in game.players :: GuidString(g)
  {
    forall k | k in game.scoreboard.scores
      ensures exists g :: g in game.players && GuidString(g) == k
    {
      var i :| 0 <= i < |game.scoreboard.order| && game.scoreboard.order[i] == k;
      assert game.playerOrder[i] in game.players;
    }
  }
}
