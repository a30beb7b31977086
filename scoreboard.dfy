/** The server's scoreboard: one score entry per player, keyed by the
    player's id string, plus the number of rounds played and the id of the
    most recent puzzle winner. */
module Scoring {
  import opened Wrappers
  import opened Seqs
  import opened Ids

  /** A player's entry on the scoreboard. */
  datatype PlayerScore = PlayerScore(playerId: Guid, playerName: string, score: int)

  /** The entries listed in the order of their keys in `order`. */
  function ScoresIn(scores: map<string, PlayerScore>, order: seq<string>): (r: seq<PlayerScore>)
    requires forall k :: k in order ==> k in scores
    ensures |r| == |order|
    ensures forall i {:trigger r[i]} :: 0 <= i < |order| ==> r[i] == scores[order[i]]
  {
    if order == [] then [] else [scores[order[0]]] + ScoresIn(scores, order[1..])
  }

  /** The sum of the scores in a list of entries. */
  function Sum(ps: seq<PlayerScore>): int {
    if ps == [] then 0 else ps[0].score + Sum(ps[1..])
  }

  /** The sum of the listed players' scores. */
  ghost function Total(scores: map<string, PlayerScore>, order: seq<string>): int
    requires forall k :: k in order ==> k in scores
  {
    Sum(ScoresIn(scores, order))
  }

  /** Updating an entry whose key is not listed leaves the listing alone. */
  lemma {:induction false} ScoresInUnlisted(scores: map<string, PlayerScore>, order: seq<string>,
                                           k: string, p: PlayerScore)
    requires forall x :: x in order ==> x in scores
    requires k !in order
    ensures ScoresIn(scores[k := p], order) == ScoresIn(scores, order)
  {
    if order != [] {
      ScoresInUnlisted(scores, order[1..], k, p);
    }
  }

  /** Raising one listed player's score by one raises the listed total by one. */
  lemma {:induction false} IncrementRaisesTotal(scores: map<string, PlayerScore>, order: seq<string>, k: string)
    requires forall x :: x in order ==> x in scores
    requires Distinct(order)
    requires k in order
    ensures Total(scores[k := scores[k].(score := scores[k].score + 1)], order) == Total(scores, order) + 1
  {
    var scores' := scores[k := scores[k].(score := scores[k].score + 1)];
    assert Distinct(order[1..]);
    if order[0] == k {
      assert k !in order[1..];
      ScoresInUnlisted(scores, order[1..], k, scores'[k]);
    } else {
      IncrementRaisesTotal(scores, order[1..], k);
    }
  }

  class Scoreboard {
    var scores: map<string, PlayerScore>
    /** The keys in insertion order; the dictionary has no removal, so its
        values enumerate in this order. */
    var order: seq<string>
    var roundsPlayed: int
    var mostRecentWinnerId: Option<string>

    ghost predicate Valid()
      reads this
    {
      && Distinct(order)
      && (forall k :: k in scores <==> k in order)
    }

    constructor()
      ensures Valid()
      ensures scores == map[] && order == []
      ensures roundsPlayed == 0 && mostRecentWinnerId == None
    {
      scores := map[];
      order := [];
      roundsPlayed := 0;
      mostRecentWinnerId := None;
    }

    /** Adds a zero-score entry under the player's id string; a key already
        present makes Dictionary.Add throw with nothing changed. */
    method AddPlayer(player: Player) returns (r: Outcome)
      requires Valid()
      modifies this
      ensures Valid()
      ensures roundsPlayed == old(roundsPlayed) && mostRecentWinnerId == old(mostRecentWinnerId)
      ensures GuidString(player.id) in old(scores) ==>
        r == Fail(DuplicateKey) && unchanged(this)
      ensures GuidString(player.id) !in old(scores) ==>
        && r == Pass
        && scores == old(scores)[GuidString(player.id) := PlayerScore(player.id, player.name, 0)]
        && order == old(order) + [GuidString(player.id)]
    {
      var key := GuidString(player.id);
      if key in scores {
        return Fail(DuplicateKey);
      }
      scores := scores[key := PlayerScore(player.id, player.name, 0)];
      order := order + [key];
      r := Pass;
    }

    /** Credits the named player with one puzzle and records them as the most
        recent winner; an id without an entry throws at the lookup and
        nothing changes. */
    method PuzzleWon(playerId: string) returns (r: Outcome)
      requires Valid()
      modifies this
      ensures Valid()
      ensures order == old(order) && roundsPlayed == old(roundsPlayed)
      ensures playerId !in old(scores) ==>
        r == Fail(KeyNotFound) && unchanged(this)
      ensures playerId in old(scores) ==>
        && r == Pass
        && scores == old(scores)[playerId := old(scores)[playerId].(score := old(scores)[playerId].score + 1)]
        && mostRecentWinnerId == Some(playerId)
    {
      if playerId !in scores {
        return Fail(KeyNotFound);
      }
      var player := scores[playerId];
      scores := scores[playerId := player.(score := player.score + 1)];
      mostRecentWinnerId := Some(playerId);
      r := Pass;
    }

    method RoundCompleted()
      requires Valid()
      modifies this
      ensures Valid()
      ensures roundsPlayed == old(roundsPlayed) + 1
      ensures scores == old(scores) && order == old(order) && mostRecentWinnerId == old(mostRecentWinnerId)
    {
      roundsPlayed := roundsPlayed + 1;
    }

    /** The entries, one per added player, in the order they were added. */
    function Scores(): (r: seq<PlayerScore>)
      requires Valid()
      reads this
      ensures |r| == |scores|
      ensures forall k :: k in scores ==> scores[k] in r
      ensures forall p :: p in r ==> p in scores.Values
    {
      DistinctKeysCount(scores, order);
      var r := ScoresIn(scores, order);
      assert forall k :: k in scores ==> scores[k] in r by {
        forall k | k in scores
          ensures scores[k] in r
        {
          var i :| 0 <= i < |order| && order[i] == k;
          assert r[i] == scores[k];
        }
      }
      r
    }
  }
}
