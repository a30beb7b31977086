/** The server's registry of running games, keyed by game id. New games are
    registered under a fresh id with their owner already seated, and a
    periodic sweep evicts the games that have gone inactive. */
module Registry {
  import opened Wrappers
  import opened Ids
  import opened Seqs
  import opened LevelRepository
  import opened Sessions

  /** The registry after evicting every game in `inactive` whose entry is not
      in `pending`, i.e. has already been visited by the sweep. */
  ghost function Survivors(m: map<Guid, Game>, inactive: set<Game>, pending: set<Game>): map<Guid, Game> {
    map k | k in m && (m[k] in pending || m[k] !in inactive) :: m[k]
  }

  class GameManager {
    var games: map<Guid, Game>

    /** Every game is registered under its own id. */
    ghost predicate Valid()
      reads this, games.Values
    {
      forall k :: k in games ==> games[k].id == k
    }

    constructor()
      ensures Valid() && games == map[]
    {
      games := map[];
    }

    /** Creates a game with the given (freshly drawn) id and name, seats the
        owner, and registers it unless the id is already taken, in which case
        the registry is left as it was and the game is still returned. The
        owner's name is not recorded as the game's OwnerName. */
    method AddGame(gameName: string, owner: Player, newId: Guid, repo: LevelDataRepository) returns (game: Game)
      requires Valid()
      modifies this
      ensures Valid()
      ensures fresh(game) && game.Valid()
      ensures game.id == newId && game.name == Some(gameName) && game.ownerName == None
      ensures game.players == map[owner.id := owner] && game.playerOrder == [owner.id]
      ensures newId !in old(games) ==> games == old(games)[newId := game]
      ensures newId in old(games) ==> games == old(games)
    {
      game := new Game(repo);
      assert game !in games.Values;
      game.id := newId;
      game.name := Some(gameName);
      var r := game.SetOwner(owner);
      assert Valid();
      if newId !in games {
        games := games[newId := game];
      }
    }

    /** The game registered under the id, or null. */
    function FindGame(gameId: Guid): (r: Game?)
      reads this
      ensures r != null <==> gameId in games
      ensures r != null ==> r == games[gameId]
    {
      if gameId in games then games[gameId] else null
    }

    /** The registered games, each listed once, in no particular order. */
    method GetAll() returns (r: seq<Game>)
      requires Valid()
      ensures Distinct(r) && |r| == |games|
      ensures forall g :: g in r <==> g in games.Values
    {
      r := [];
      var keys := games.Keys;
      while keys != {}
        invariant keys <= games.Keys
        invariant Distinct(r) && |r| + |keys| == |games|
        invariant forall g :: g in r <==> exists k :: k in games.Keys - keys && games[k] == g
        decreases |keys|
      {
        var k :| k in keys;
        forall k' | k' in games.Keys - keys
          ensures games[k'] != games[k]
        {
          assert games[k'].id == k' != k == games[k].id;
        }
        assert games[k] !in r;
        r := r + [games[k]];
        keys := keys - {k};
      }
    }

    /** Walks over the registered games and removes each inactive one by its
        id. Which games are inactive is a property of the games that is not
        part of this model, so the caller supplies it. */
    method RemoveGarbageGames(inactive: set<Game>)
      requires Valid()
      modifies this
      ensures Valid()
      ensures games == map k | k in old(games) && old(games)[k] !in inactive :: old(games)[k]
    {
      ghost var m := games;
      var pending := games.Values;
      while pending != {}
        invariant pending <= m.Values
        invariant forall k :: k in m ==> m[k].id == k
        invariant games == Survivors(m, inactive, pending)
        decreases |pending|
      {
        var g :| g in pending;
        if g in inactive {
          games := games - {g.id};
        }
        pending := pending - {g};
      }
    }
  }
}
