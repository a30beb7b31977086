/** The client's view of a multiplayer game: a state handler per phase of
    the server's game, switched by the statuses the client polls from the
    server, and the game state it publishes to the screens.

    The transitions are pure functions over a `Client` value; the
    `MultiplayerGame` class holds the same state in fields and its methods
    are proved to perform exactly those transitions. Replies from the
    server that arrive asynchronously (the player list, the round's
    puzzles, the clock skew) and the firing of a scheduled timer are
    explicit steps. Time is an integer number of milliseconds. */
module ClientSession {
  import opened Wrappers

  /** The phase the client shows, published to the screens. */
  datatype MultiplayerGameState =
    | WaitingForPlayers
    | BeginningRound
    | PlayingRoundBeginningPuzzle
    | PlayingRoundSolvingPuzzle
    | PlayingRoundWonPuzzle
    | PlayingRoundLostPuzzle
    | RoundFinished
    | GameFinished

  /** The state handlers of the client. */
  datatype Handler =
    | WaitingForPlayersState
    | GameStartingState
    | PuzzleStartingState
    | SolvingPuzzleState
    | RoundEndedState
    | AbandonedGame

  /** A status snapshot of the server's game; `id` is the server state's Id. */
  datatype GameStatusDto =
    | WaitingForPlayersStateDto(id: int)
    | RoundStartingStateDto(id: int, startTimeUtc: int)
    | BeginningPuzzleStateDto(id: int, startTimeUtc: int, currentPuzzle: int, winnerOfPreviousPuzzle: Option<string>)
    | SolvingPuzzleStateDto(id: int)
    | RoundCompletedStateDto(id: int)
    | GameAbandonedStateDto(id: int)

  /** A handler hook that ran, in order. */
  datatype Hook = Left(left: Handler) | Entered(entered: Handler)

  /** Puzzles and players as the server sends them; their contents are not
      part of this model. */
  type PuzzleDto
  type PlayerDto

  /** Everything the handlers read or write.
      `published` is every value given to the game-state subject, the
      initial one first; `polling` is the player-list subscription that the
      waiting handler registers for disposal on leave; `listening` is the
      status subscription; `timers` are the due times of the scheduled
      moves to SolvingPuzzleState. */
  datatype Client = Client(
    handler: Handler,
    published: seq<MultiplayerGameState>,
    lastState: Option<GameStatusDto>,
    unadjustedStartTime: int,
    serverClockSkew: int,
    roundData: Option<seq<PuzzleDto>>,
    currentRoundIndex: int,
    currentPuzzle: Option<PuzzleDto>,
    timers: seq<int>,
    polling: bool,
    listening: bool,
    players: seq<PlayerDto>,
    hooks: seq<Hook>)

  /** The game state each handler's Enter publishes, if any. */
  function HandlerState(h: Handler): (r: Option<MultiplayerGameState>)
  {
    match h
    case WaitingForPlayersState => Some(WaitingForPlayers)
    case GameStartingState => Some(BeginningRound)
    case PuzzleStartingState => Some(PlayingRoundBeginningPuzzle)
    case SolvingPuzzleState => Some(PlayingRoundSolvingPuzzle)
    case RoundEndedState => Some(RoundFinished)
    case AbandonedGame => None
  }

  /** The handler a status moves each handler to, if any: the transition
      table of the client. */
  function NextHandler(h: Handler, s: GameStatusDto): (r: Option<Handler>)
  {
    match h
    case WaitingForPlayersState => if s.RoundStartingStateDto? then Some(GameStartingState) else None
    case GameStartingState => if s.BeginningPuzzleStateDto? then Some(PuzzleStartingState) else None
    case SolvingPuzzleState =>
      if s.BeginningPuzzleStateDto? then Some(PuzzleStartingState)
      else if s.RoundCompletedStateDto? then Some(RoundEndedState)
      else None
    case RoundEndedState => if s.RoundStartingStateDto? then Some(GameStartingState) else None
    case _ => None
  }

  /** The client's state invariant: the player-list subscription lives only
      while the waiting handler is current, something has been published,
      and the last published value is the current handler's own. */
  predicate Valid(c: Client) {
    && (c.polling ==> c.handler == WaitingForPlayersState)
    && c.published != []
    && (HandlerState(c.handler).Some? ==> c.published[|c.published| - 1] == HandlerState(c.handler).value)
  }

  function Publish(c: Client, s: MultiplayerGameState): Client {
    c.(published := c.published + [s])
  }

  /** Leave disposes what the leaving handler registered: only the waiting
      handler registers anything, its player-list subscription. */
  function LeaveEffect(c: Client): Client {
    var c1 := c.(hooks := c.hooks + [Left(c.handler)]);
    if c.handler == WaitingForPlayersState then c1.(polling := false) else c1
  }

  /** Enter of handler h, already current. Game starting and puzzle starting
      read the last status as their own kind of status and throw when it is
      not; puzzle starting then looks up the puzzle in the round, which
      throws when the round has not arrived or has no such puzzle, after
      the start time, the published state and the round index are set. */
  function EnterEffect(c: Client, h: Handler): (Client, Outcome)
  {
    var c0 := c.(hooks := c.hooks + [Entered(h)]);
    match h
    case WaitingForPlayersState => (Publish(c0.(polling := true), WaitingForPlayers), Pass)
    case GameStartingState =>
      if c0.lastState.Some? && c0.lastState.value.RoundStartingStateDto? then
        (Publish(c0.(unadjustedStartTime := c0.lastState.value.startTimeUtc), BeginningRound), Pass)
      else (c0, Fail(NullReference))
    case PuzzleStartingState => StartPuzzle(c0)
    case SolvingPuzzleState => (Publish(c0, PlayingRoundSolvingPuzzle), Pass)
    case RoundEndedState => (Publish(c0, RoundFinished), Pass)
    case AbandonedGame => (c0, Pass)
  }

  /** The body of puzzle starting's Enter. */
  function StartPuzzle(c: Client): (Client, Outcome) {
    if c.lastState.Some? && c.lastState.value.BeginningPuzzleStateDto? then
      var status := c.lastState.value;
      var r :=
        if c.roundData.None? then Fail(NullReference)
        else if !(0 <= status.currentPuzzle < |c.roundData.value|) then Fail(IndexOutOfRange)
        else Pass;
      (c.(unadjustedStartTime := status.startTimeUtc,
          published := c.published + [PlayingRoundBeginningPuzzle],
          currentRoundIndex := status.currentPuzzle,
          currentPuzzle := if r.Pass? then Some(c.roundData.value[status.currentPuzzle]) else c.currentPuzzle,
          timers := if r.Pass? then c.timers + [status.startTimeUtc - c.serverClockSkew] else c.timers),
       r)
    else (c, Fail(NullReference))
  }

  /** The old handler leaves, the new one becomes current and enters. */
  function Transition(c: Client, h: Handler): (Client, Outcome) {
    EnterEffect(LeaveEffect(c).(handler := h), h)
  }

  /** The current handler's reaction to a status. Solving a puzzle first
      publishes whether the local player won the previous puzzle, when the
      status names a winner. */
  function Handle(c: Client, s: GameStatusDto, me: string): (Client, Outcome)
  {
    match c.handler
    case WaitingForPlayersState =>
      if s.RoundStartingStateDto? then Transition(c, GameStartingState) else (c, Pass)
    case GameStartingState =>
      if s.BeginningPuzzleStateDto? then Transition(c, PuzzleStartingState) else (c, Pass)
    case SolvingPuzzleState =>
      if s.BeginningPuzzleStateDto? then
        var c1 := match s.winnerOfPreviousPuzzle
          case Some(w) => Publish(c, if w == me then PlayingRoundWonPuzzle else PlayingRoundLostPuzzle)
          case None => c;
        Transition(c1, PuzzleStartingState)
      else if s.RoundCompletedStateDto? then Transition(c, RoundEndedState)
      else (c, Pass)
    case RoundEndedState =>
      if s.RoundStartingStateDto? then Transition(c, GameStartingState) else (c, Pass)
    case _ => (c, Pass)
  }

  /** A status passed to the handler is first recorded as the last state. */
  function PassStatus(c: Client, s: GameStatusDto, me: string): (Client, Outcome) {
    Handle(c.(lastState := Some(s)), s, me)
  }

  /** One poll of the server: a missing status, a status with the same Id
      as the previous one, and any status after the subscription was
      disposed are dropped. */
  function Poll(c: Client, s: Option<GameStatusDto>, me: string): (Client, Outcome) {
    if !c.listening || s.None? || (c.lastState.Some? && c.lastState.value.id == s.value.id) then (c, Pass)
    else PassStatus(c, s.value, me)
  }

  /** A new client game before its first handler: the subject's initial
      value is published, and no subscription exists yet. */
  function Blank(): Client {
    Client(AbandonedGame, [WaitingForPlayers], None, 0, 0, None, 0, None, [], false, false, [], [])
  }

  /** A new client game: the waiting handler entered and the status
      subscription started. */
  function Initial(): Client {
    EnterEffect(Blank().(handler := WaitingForPlayersState), WaitingForPlayersState).0.(listening := true)
  }

  lemma InitialState()
    ensures var c := Initial();
      && Valid(c) && c.handler == WaitingForPlayersState
      && c.published == [WaitingForPlayers, WaitingForPlayers]
      && c.polling && c.listening && c.hooks == [Entered(WaitingForPlayersState)]
  {
  }

  /** Entering a handler keeps the invariant, failing or not. */
  lemma EnterValid(c: Client, h: Handler)
    requires c.handler == h && (c.polling ==> h == WaitingForPlayersState) && c.published != []
    requires || EnterEffect(c, h).1.Pass?
             || (h == PuzzleStartingState && c.lastState.Some? && c.lastState.value.BeginningPuzzleStateDto?)
    ensures Valid(EnterEffect(c, h).0)
  {
  }

  /** A transition keeps the invariant, whether or not Enter throws,
      provided the handler's last status is its own kind: the only throw
      left is puzzle starting's look-up of the puzzle. */
  lemma TransitionValid(c: Client, h: Handler)
    requires c.published != [] && (c.polling ==> c.handler == WaitingForPlayersState)
    requires h == GameStartingState ==> c.lastState.Some? && c.lastState.value.RoundStartingStateDto?
    requires h == PuzzleStartingState ==> c.lastState.Some? && c.lastState.value.BeginningPuzzleStateDto?
    ensures Valid(Transition(c, h).0)
    ensures Transition(c, h).1.Fail? ==> h == PuzzleStartingState
  {
    var l := LeaveEffect(c).(handler := h);
    assert l.polling ==> h == WaitingForPlayersState;
    if h == GameStartingState {
      assert EnterEffect(l, h).1.Pass?;
    }
    EnterValid(l, h);
  }

  /** Handling a status keeps the invariant. */
  lemma PassStatusValid(c: Client, s: GameStatusDto, me: string)
    requires Valid(c)
    ensures Valid(PassStatus(c, s, me).0)
  {
    var c0 := c.(lastState := Some(s));
    match c.handler
    case SolvingPuzzleState =>
      if s.BeginningPuzzleStateDto? {
        var c1 := match s.winnerOfPreviousPuzzle
          case Some(w) => Publish(c0, if w == me then PlayingRoundWonPuzzle else PlayingRoundLostPuzzle)
          case None => c0;
        TransitionValid(c1, PuzzleStartingState);
      } else if s.RoundCompletedStateDto? {
        TransitionValid(c0, RoundEndedState);
      }
    case WaitingForPlayersState =>
      if s.RoundStartingStateDto? {
        TransitionValid(c0, GameStartingState);
      }
    case GameStartingState =>
      if s.BeginningPuzzleStateDto? {
        TransitionValid(c0, PuzzleStartingState);
      }
    case RoundEndedState =>
      if s.RoundStartingStateDto? {
        TransitionValid(c0, GameStartingState);
      }
    case _ =>
  }

  /** The handler after a status is the one the transition table names, or
      the same handler when the table names none. */
  lemma PassStatusFollowsTable(c: Client, s: GameStatusDto, me: string)
    ensures var r := PassStatus(c, s, me).0;
      NextHandler(c.handler, s).Some? ==> r.handler == NextHandler(c.handler, s).value
    ensures NextHandler(c.handler, s).None? ==> PassStatus(c, s, me) == (c.(lastState := Some(s)), Pass)
  {
  }

  /** Handling a status throws exactly when it moves the client to puzzle
      starting and the round has not arrived or lacks the status's puzzle. */
  lemma PassStatusFails(c: Client, s: GameStatusDto, me: string)
    ensures PassStatus(c, s, me).1.Fail? <==>
      && NextHandler(c.handler, s) == Some(PuzzleStartingState)
      && (c.roundData.None? || !(0 <= s.currentPuzzle < |c.roundData.value|))
    ensures PassStatus(c, s, me).1.Fail? ==>
      PassStatus(c, s, me).1.error == if c.roundData.None? then NullReference else IndexOutOfRange
  {
    if NextHandler(c.handler, s) == Some(PuzzleStartingState) {
      PuzzleTransition(BeforePuzzle(c, s, me), s);
    }
  }

  /** The client a status beginning a puzzle hands to the puzzle-starting
      transition: the status recorded and, while solving, the winner shown. */
  function BeforePuzzle(c: Client, s: GameStatusDto, me: string): Client
    requires NextHandler(c.handler, s) == Some(PuzzleStartingState)
  {
    var c0 := c.(lastState := Some(s));
    if c.handler == SolvingPuzzleState then
      match s.winnerOfPreviousPuzzle
      case Some(w) => Publish(c0, if w == me then PlayingRoundWonPuzzle else PlayingRoundLostPuzzle)
      case None => c0
    else c0
  }

  lemma BeforePuzzleStep(c: Client, s: GameStatusDto, me: string)
    requires NextHandler(c.handler, s) == Some(PuzzleStartingState)
    ensures PassStatus(c, s, me) == Transition(BeforePuzzle(c, s, me), PuzzleStartingState)
  {
  }

  /** The move to puzzle starting on a status beginning a puzzle. */
  lemma PuzzleTransition(c: Client, s: GameStatusDto)
    requires c.lastState == Some(s) && s.BeginningPuzzleStateDto?
    ensures var r := Transition(c, PuzzleStartingState);
      && r.1 == (if c.roundData.None? then Fail(NullReference)
                 else if !(0 <= s.currentPuzzle < |c.roundData.value|) then Fail(IndexOutOfRange)
                 else Pass)
      && r.0.currentRoundIndex == s.currentPuzzle
      && (r.1.Pass? ==> r.0.currentPuzzle == Some(c.roundData.value[s.currentPuzzle]))
      && (r.1.Pass? ==> r.0.timers == c.timers + [s.startTimeUtc - c.serverClockSkew])
  {
  }

  /** While solving, a status beginning the next puzzle publishes won or
      lost when it names a winner (nothing when it names none), and then
      the puzzle-starting state. */
  lemma SolvingPublishesWinner(c: Client, s: GameStatusDto, me: string)
    requires c.handler == SolvingPuzzleState && s.BeginningPuzzleStateDto?
    ensures var r := PassStatus(c, s, me).0;
      && r.handler == PuzzleStartingState
      && r.published == c.published
           + (match s.winnerOfPreviousPuzzle
              case Some(w) => [if w == me then PlayingRoundWonPuzzle else PlayingRoundLostPuzzle]
              case None => [])
           + [PlayingRoundBeginningPuzzle]
  {
  }

  /** When puzzle starting succeeds, the client shows the status's puzzle of
      the round and schedules the move to solving at the status's start
      time, corrected by the clock skew. */
  lemma PuzzleStartingPicksPuzzle(c: Client, s: GameStatusDto, me: string)
    requires NextHandler(c.handler, s) == Some(PuzzleStartingState)
    requires c.roundData.Some? && 0 <= s.currentPuzzle < |c.roundData.value|
    ensures var r := PassStatus(c, s, me);
      && r.1.Pass?
      && r.0.currentRoundIndex == s.currentPuzzle
      && r.0.currentPuzzle == Some(c.roundData.value[s.currentPuzzle])
      && r.0.timers == c.timers + [s.startTimeUtc - c.serverClockSkew]
  {
    BeforePuzzleStep(c, s, me);
    PuzzleTransition(BeforePuzzle(c, s, me), s);
  }

  /** Every transition runs the old handler's Leave before the new
      handler's Enter. */
  lemma LeaveBeforeEnter(c: Client, h: Handler)
    ensures Transition(c, h).0.hooks == c.hooks + [Left(c.handler), Entered(h)]
  {
  }

  /** The abandoned handler ignores every status. */
  lemma AbandonedIgnoresStatus(c: Client, s: GameStatusDto, me: string)
    requires c.handler == AbandonedGame
    ensures PassStatus(c, s, me) == (c.(lastState := Some(s)), Pass)
  {
  }

  /** A puzzle timer scheduled before the game is left still fires: the
      abandoned client then moves to solving a puzzle. */
  lemma TimerOutlivesLeave(c: Client)
    requires c.handler == AbandonedGame
    ensures Transition(c, SolvingPuzzleState).0.handler == SolvingPuzzleState
    ensures Transition(c, SolvingPuzzleState).0.published == c.published + [PlayingRoundSolvingPuzzle]
  {
  }

  function RemoveAt<T>(s: seq<T>, k: nat): (r: seq<T>)
    requires k < |s|
    ensures |r| == |s| - 1
  {
    s[..k] + s[k + 1..]
  }

  class MultiplayerGame {
    const name: string
    const gameId: string
    const playerId: string

    var handler: Handler
    var published: seq<MultiplayerGameState>
    var lastState: Option<GameStatusDto>
    var unadjustedStartTime: int
    var serverClockSkew: int
    var roundData: Option<seq<PuzzleDto>>
    var currentRoundIndex: int
    var currentPuzzle: Option<PuzzleDto>
    var timers: seq<int>
    var polling: bool
    var listening: bool
    var players: seq<PlayerDto>
    ghost var hooks: seq<Hook>

    ghost function View(): Client
      reads this
    {
      Client(handler, published, lastState, unadjustedStartTime, serverClockSkew, roundData,
             currentRoundIndex, currentPuzzle, timers, polling, listening, players, hooks)
    }

    /** The game state the screens currently see. */
    function GameState(): (r: MultiplayerGameState)
      reads this
      requires published != []
      ensures r in published
    {
      published[|published| - 1]
    }

    constructor(name: string, gameId: string, playerId: string)
      ensures this.name == name && this.gameId == gameId && this.playerId == playerId
      ensures View() == Initial() && Valid(View())
    {
      this.name := name;
      this.gameId := gameId;
      this.playerId := playerId;
      handler := WaitingForPlayersState;
      published := [WaitingForPlayers, WaitingForPlayers];
      lastState := None;
      unadjustedStartTime := 0;
      serverClockSkew := 0;
      roundData := None;
      currentRoundIndex := 0;
      currentPuzzle := None;
      timers := [];
      polling := true;
      listening := true;
      players := [];
      hooks := [Entered(WaitingForPlayersState)];
      InitialState();
    }

    method Leave()
      modifies this
      ensures View() == LeaveEffect(old(View()))
    {
      hooks := hooks + [Left(handler)];
      if handler == WaitingForPlayersState {
        polling := false;
      }
    }

    method Enter() returns (r: Outcome)
      modifies this
      ensures (View(), r) == EnterEffect(old(View()), handler)
      ensures handler == old(handler)
    {
      if handler == PuzzleStartingState {
        r := EnterPuzzleStarting();
        return;
      }
      hooks := hooks + [Entered(handler)];
      r := Pass;
      match handler
      case WaitingForPlayersState =>
        polling := true;
        published := published + [WaitingForPlayers];
      case GameStartingState =>
        if lastState.Some? && lastState.value.RoundStartingStateDto? {
          unadjustedStartTime := lastState.value.startTimeUtc;
          published := published + [BeginningRound];
        } else {
          r := Fail(NullReference);
        }
      case SolvingPuzzleState =>
        published := published + [PlayingRoundSolvingPuzzle];
      case RoundEndedState =>
        published := published + [RoundFinished];
      case AbandonedGame =>
      case PuzzleStartingState =>
    }

    /** Enter of the puzzle-starting handler. */
    method EnterPuzzleStarting() returns (r: Outcome)
      requires handler == PuzzleStartingState
      modifies this
      ensures (View(), r) == EnterEffect(old(View()), PuzzleStartingState)
    {
      hooks := hooks + [Entered(handler)];
      if lastState.Some? && lastState.value.BeginningPuzzleStateDto? {
        var status := lastState.value;
        unadjustedStartTime := status.startTimeUtc;
        published := published + [PlayingRoundBeginningPuzzle];
        currentRoundIndex := status.currentPuzzle;
        if roundData.None? {
          r := Fail(NullReference);
        } else if !(0 <= currentRoundIndex < |roundData.value|) {
          r := Fail(IndexOutOfRange);
        } else {
          currentPuzzle := Some(roundData.value[currentRoundIndex]);
          timers := timers + [unadjustedStartTime - serverClockSkew];
          r := Pass;
        }
      } else {
        r := Fail(NullReference);
      }
    }

    method TransitionToState(h: Handler) returns (r: Outcome)
      modifies this
      ensures (View(), r) == Transition(old(View()), h)
      ensures && old(Valid(View()))
              && (h == GameStartingState ==> old(lastState).Some? && old(lastState).value.RoundStartingStateDto?)
              && (h == PuzzleStartingState ==> old(lastState).Some? && old(lastState).value.BeginningPuzzleStateDto?)
              ==> Valid(View()) && (r.Fail? ==> h == PuzzleStartingState)
    {
      ghost var c := View();
      Leave();
      handler := h;
      r := Enter();
      if Valid(c) && (h == GameStartingState ==> c.lastState.Some? && c.lastState.value.RoundStartingStateDto?)
         && (h == PuzzleStartingState ==> c.lastState.Some? && c.lastState.value.BeginningPuzzleStateDto?) {
        TransitionValid(c, h);
      }
    }

    method HandleServerStateChange(s: GameStatusDto) returns (r: Outcome)
      modifies this
      ensures (View(), r) == Handle(old(View()), s, playerId)
      ensures old(Valid(View())) && old(lastState) == Some(s) ==> Valid(View())
    {
      ghost var c := View();
      if Valid(c) && c.lastState == Some(s) {
        PassStatusValid(c, s, playerId);
        assert c.(lastState := Some(s)) == c;
      }
      r := Pass;
      match handler
      case WaitingForPlayersState =>
        if s.RoundStartingStateDto? {
          r := TransitionToState(GameStartingState);
        }
      case GameStartingState =>
        if s.BeginningPuzzleStateDto? {
          r := TransitionToState(PuzzleStartingState);
        }
      case SolvingPuzzleState =>
        if s.BeginningPuzzleStateDto? {
          if s.winnerOfPreviousPuzzle.Some? {
            if s.winnerOfPreviousPuzzle.value == playerId {
              published := published + [PlayingRoundWonPuzzle];
            } else {
              published := published + [PlayingRoundLostPuzzle];
            }
          }
          r := TransitionToState(PuzzleStartingState);
        } else if s.RoundCompletedStateDto? {
          r := TransitionToState(RoundEndedState);
        }
      case RoundEndedState =>
        if s.RoundStartingStateDto? {
          r := TransitionToState(GameStartingState);
        }
      case PuzzleStartingState =>
      case AbandonedGame =>
    }

    /** One status from the server's polling stream. */
    method PollStatus(s: Option<GameStatusDto>) returns (r: Outcome)
      modifies this
      ensures (View(), r) == Poll(old(View()), s, playerId)
      ensures old(Valid(View())) ==> Valid(View())
    {
      ghost var c := View();
      if Valid(c) && s.Some? {
        PassStatusValid(c, s.value, playerId);
      }
      r := Pass;
      if listening && s.Some? && !(lastState.Some? && lastState.value.id == s.value.id) {
        lastState := s;
        r := HandleServerStateChange(s.value);
      }
    }

    /** Leaving the game stops the status subscription and moves to the
        abandoned handler. The request to the server is not modelled. */
    method LeaveGame() returns (r: Outcome)
      modifies this
      ensures (View(), r) == Transition(old(View()).(listening := false), AbandonedGame)
      ensures old(Valid(View())) ==> Valid(View()) && r.Pass?
    {
      ghost var c := View();
      if Valid(c) {
        TransitionValid(c.(listening := false), AbandonedGame);
      }
      listening := false;
      r := TransitionToState(AbandonedGame);
    }

    /** A player list from the server replaces the shown players, in order,
        while the player-list subscription lives. */
    method RefreshPlayerList(list: seq<PlayerDto>)
      modifies this
      ensures polling ==> players == list
      ensures View() == if old(polling) then old(View()).(players := list) else old(View())
    {
      if polling {
        players := list;
      }
    }

    /** The round's puzzles arrive from the server. */
    method RoundDataArrived(puzzles: seq<PuzzleDto>)
      modifies this
      ensures View() == old(View()).(roundData := Some(puzzles))
    {
      roundData := Some(puzzles);
    }

    /** The clock skew estimate arrives from the server. */
    method ClockSkewArrived(skew: int)
      modifies this
      ensures View() == old(View()).(serverClockSkew := skew)
    {
      serverClockSkew := skew;
    }

    /** The k-th scheduled timer fires and moves the client to solving the
        puzzle, whatever handler is current. */
    method FireTimer(k: nat) returns (r: Outcome)
      requires k < |timers|
      modifies this
      ensures (View(), r) == Transition(old(View()).(timers := RemoveAt(old(timers), k)), SolvingPuzzleState)
    {
      timers := RemoveAt(timers, k);
      r := TransitionToState(SolvingPuzzleState);
    }
  }
}
