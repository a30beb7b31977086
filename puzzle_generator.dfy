/** The server's puzzle generator: a round is five puzzles built from
    consecutive level numbers, each scrambled by a sequence of deformations
    drawn per shape, without replacement, from the four shape transformations. */
module PuzzleGenerator {
  import opened Wrappers
  import opened Seqs
  import opened LevelRepository

  datatype ShapeTransformation = FlipHorizontal | FlipVertical | RotateAnticlockwise | RotateClockwise

  datatype Deformation = Deformation(shapeIndex: int, transformation: ShapeTransformation)

  datatype PuzzleDto = PuzzleDto(levelTemplate: LevelTemplate, deformations: seq<Deformation>)

  datatype Round = Round(puzzles: seq<PuzzleDto>)

  /** The random choices made for one puzzle: `shuffle` feeds the shuffle of
      the shape order, and next(k) is the value random.Next returns (reduced
      modulo the pool size) when the k-th deformation is drawn. */
  datatype Dice = Dice(shuffle: nat -> nat, next: nat -> nat)

  const PuzzlesPerRound: nat := 5

  /** The generator gives up once more than this many visits found an empty pool. */
  const MissLimit: nat := 10

  /** The pool of transformations each shape starts with. */
  function GetDeformationList(): (r: seq<ShapeTransformation>)
    ensures |r| == 4 && Distinct(r)
    ensures forall t: ShapeTransformation :: t in r
  {
    var r := [FlipHorizontal, FlipVertical, RotateAnticlockwise, RotateClockwise];
    assert forall i, j :: 0 <= i < j < 4 ==> r[i] != r[j] by {
      forall i, j | 0 <= i < j < 4
        ensures r[i] != r[j]
      {
        if i == 0 { assert r[i].FlipHorizontal?; }
        else if i == 1 { assert r[i].FlipVertical?; }
        else if i == 2 { assert r[i].RotateAnticlockwise?; }
      }
    }
    assert forall t: ShapeTransformation :: t in r by {
      forall t: ShapeTransformation
        ensures t in r
      {
        if t.FlipHorizontal? { assert r[0] == t; }
        else if t.FlipVertical? { assert r[1] == t; }
        else if t.RotateAnticlockwise? { assert r[2] == t; }
        else { assert r[3] == t; }
      }
    }
    r
  }

  /** The number of deformations a puzzle of the given level gets: one per
      shape plus a share that grows with the level number, capped at two more
      per shape. */
  function NumberOfMoves(levelNumber: nat, shapeCount: nat): (moves: nat)
    ensures shapeCount <= moves <= 3 * shapeCount
  {
    shapeCount + Min(levelNumber * shapeCount / 15, 2 * shapeCount)
  }

  lemma MulMonotone(a: nat, b: nat, n: nat)
    requires a <= b
    ensures a * n <= b * n
  {
  }

  /** Later levels never get fewer moves. */
  lemma NumberOfMovesMonotone(l1: nat, l2: nat, n: nat)
    requires l1 <= l2
    ensures NumberOfMoves(l1, n) <= NumberOfMoves(l2, n)
  {
    MulMonotone(l1, l2, n);
  }

  /** From level 30 on, every puzzle gets the maximum of three moves per shape. */
  lemma NumberOfMovesSaturates(levelNumber: nat, n: nat)
    requires levelNumber >= 30
    ensures NumberOfMoves(levelNumber, n) == 3 * n
  {
    MulMonotone(30, levelNumber, n);
    assert 30 * n / 15 == 2 * n;
  }

  /** `order` lists each of the shapes 0 .. n-1 once. */
  predicate IsShuffleOf(order: seq<nat>, n: nat) {
    && |order| == n
    && (forall i :: 0 <= i < n ==> order[i] < n)
    && Distinct(order)
  }

  /** The shuffle of the shape indices. The source's Shuffle extension is not
      part of this model; this Fisher-Yates stand-in has the one property the
      generator relies on, that it yields a permutation of 0 .. n-1. */
  method Shuffle(n: nat, draws: nat -> nat) returns (order: seq<nat>)
    ensures IsShuffleOf(order, n)
  {
    order := seq(n, i requires 0 <= i < n => i as nat);
    var i := n;
    while i > 1
      invariant 0 <= i <= n
      invariant IsShuffleOf(order, n)
    {
      var j := draws(n - i) % i;
      var last := order[i - 1];
      order := order[i - 1 := order[j]][j := last];
      i := i - 1;
    }
  }

  /** How many deformations in ds are for the given shape. */
  function CountFor(ds: seq<Deformation>, shape: int): nat
  {
    if ds == [] then 0
    else CountFor(ds[..|ds| - 1], shape) + (if ds[|ds| - 1].shapeIndex == shape then 1 else 0)
  }

  lemma CountForAppend(ds: seq<Deformation>, d: Deformation, shape: int)
    ensures CountFor(ds + [d], shape) == CountFor(ds, shape) + (if d.shapeIndex == shape then 1 else 0)
  {
    assert (ds + [d])[..|ds|] == ds;
  }

  /** What the generator promises of a puzzle's deformations: exactly `moves`
      of them, each naming one of the n shapes, no (shape, transformation)
      pair twice, at most four per shape, and the first n naming distinct
      shapes. */
  ghost predicate ValidDeformations(ds: seq<Deformation>, n: nat, moves: nat) {
    && |ds| == moves
    && (forall k :: 0 <= k < |ds| ==> 0 <= ds[k].shapeIndex < n)
    && Distinct(ds)
    && (forall s :: 0 <= s < n ==> CountFor(ds, s) <= 4)
    && (forall i, j :: 0 <= i < j < |ds| && j < n ==> ds[i].shapeIndex != ds[j].shapeIndex)
  }

  /** The pools are keyed by exactly the shapes 0 .. n-1. */
  ghost predicate KeyedByShapes(available: map<nat, seq<ShapeTransformation>>, n: nat) {
    forall s: nat :: s in available <==> s < n
  }

  /** The bookkeeping of the pools while deformations are drawn: the pools
      are keyed by the shapes 0 .. n-1, hold no transformation twice, and
      together with what was emitted for a shape make up its four
      transformations; nothing emitted is still in its shape's pool. */
  ghost predicate PoolsAccountFor(available: map<nat, seq<ShapeTransformation>>, ds: seq<Deformation>, n: nat) {
    && KeyedByShapes(available, n)
    && (forall s :: s in available ==> Distinct(available[s]))
    && (forall s :: s in available ==> CountFor(ds, s) + |available[s]| == 4)
    && (forall k :: 0 <= k < |ds| ==>
          ds[k].shapeIndex in available && ds[k].transformation !in available[ds[k].shapeIndex])
    && Distinct(ds)
  }

  /** Drawing t from the pool of `shape` keeps the pools accounted for. */
  lemma EmitKeepsPoolsAccounted(available: map<nat, seq<ShapeTransformation>>, ds: seq<Deformation>,
                                n: nat, shape: nat, t: ShapeTransformation)
    requires PoolsAccountFor(available, ds, n)
    requires shape in available && t in available[shape]
    ensures PoolsAccountFor(available[shape := RemoveFirst(available[shape], t)],
                            ds + [Deformation(shape, t)], n)
  {
    var pool := available[shape];
    RemoveFirstDistinct(pool, t);
    var available' := available[shape := RemoveFirst(pool, t)];
    var ds' := ds + [Deformation(shape, t)];
    forall s | s in available'
      ensures CountFor(ds', s) + |available'[s]| == 4
    {
      CountForAppend(ds, Deformation(shape, t), s);
    }
    forall i, j | 0 <= i < j < |ds'|
      ensures ds'[i] != ds'[j]
    {
      if j == |ds| {
        assert ds'[i] == ds[i];
      }
    }
  }

  /** How far each pool has been drained while the order is walked for the
      first four times: in pass p, a shape whose turn has come this pass has
      lost p + 1 transformations, the others p; after four passes all are empty. */
  ghost predicate Drained(available: map<nat, seq<ShapeTransformation>>, order: seq<nat>, n: nat, pass: nat, q: nat)
    requires IsShuffleOf(order, n)
    requires KeyedByShapes(available, n)
  {
    && (pass < 4 ==> forall i :: 0 <= i < n ==>
          |available[order[i]]| == 4 - pass - (if i < q then 1 else 0))
    && (pass >= 4 ==> forall i :: 0 <= i < n ==> available[order[i]] == [])
  }

  /** During the first pass the k-th deformation is for the k-th shape of
      the order. */
  ghost predicate FollowsOrder(ds: seq<Deformation>, order: seq<nat>, n: nat)
    requires |order| == n
  {
    forall k :: 0 <= k < |ds| && k < n ==> ds[k].shapeIndex == order[k]
  }

  /** The state of the generator after visiting the first q shapes of pass
      number `pass` (q == n: the pass is complete), with `misses` visits that
      found an empty pool. */
  ghost predicate Walking(available: map<nat, seq<ShapeTransformation>>, ds: seq<Deformation>,
                          order: seq<nat>, n: nat, pass: nat, q: nat, misses: nat)
  {
    && IsShuffleOf(order, n)
    && 0 < n && q <= n
    && |ds| <= 4 * n
    && PoolsAccountFor(available, ds, n)
    && FollowsOrder(ds, order, n)
    && Drained(available, order, n, pass, q)
    && misses <= MissLimit
    && (pass < 4 ==> misses == 0 && |ds| == pass * n + q)
    && (pass >= 4 ==> |ds| == 4 * n)
  }

  /** Drawing a transformation for the next shape in the order keeps the
      generator's bookkeeping. */
  lemma EmitStep(available: map<nat, seq<ShapeTransformation>>, ds: seq<Deformation>,
                 order: seq<nat>, n: nat, pass: nat, q: nat, misses: nat, t: ShapeTransformation)
    requires Walking(available, ds, order, n, pass, q, misses) && q < n
    requires t in available[order[q]]
    ensures pass < 4
    ensures Walking(available[order[q] := RemoveFirst(available[order[q]], t)],
                    ds + [Deformation(order[q], t)], order, n, pass, q + 1, misses)
  {
    var shape := order[q];
    PositionBounds(pass, n, q);
    EmitKeepsPoolsAccounted(available, ds, n, shape, t);
    DrainStep(available, order, n, pass, q, t);
    var ds' := ds + [Deformation(shape, t)];
    forall k | 0 <= k < |ds'| && k < n
      ensures ds'[k].shapeIndex == order[k]
    {
      if k == |ds| {
        assert pass == 0;
      }
    }
  }

  lemma DrainStep(available: map<nat, seq<ShapeTransformation>>, order: seq<nat>, n: nat,
                  pass: nat, q: nat, t: ShapeTransformation)
    requires IsShuffleOf(order, n) && q < n && pass < 4
    requires KeyedByShapes(available, n)
    requires Drained(available, order, n, pass, q)
    requires t in available[order[q]]
    ensures KeyedByShapes(available[order[q] := RemoveFirst(available[order[q]], t)], n)
    ensures Drained(available[order[q] := RemoveFirst(available[order[q]], t)], order, n, pass, q + 1)
  {
  }

  /** A visit that finds an empty pool happens only after the first four
      passes, when all 4 * n transformations are out. */
  lemma MissStep(available: map<nat, seq<ShapeTransformation>>, ds: seq<Deformation>,
                 order: seq<nat>, n: nat, pass: nat, q: nat, misses: nat)
    requires Walking(available, ds, order, n, pass, q, misses) && q < n
    requires available[order[q]] == []
    ensures pass >= 4 && |ds| == 4 * n
    ensures misses < MissLimit ==> Walking(available, ds, order, n, pass, q + 1, misses + 1)
  {
  }

  /** Starting the next pass over the order. */
  lemma WrapStep(available: map<nat, seq<ShapeTransformation>>, ds: seq<Deformation>,
                 order: seq<nat>, n: nat, pass: nat, misses: nat)
    requires Walking(available, ds, order, n, pass, n, misses)
    ensures Walking(available, ds, order, n, pass + 1, 0, misses)
  {
    if pass < 4 {
      PositionBounds(pass, n, 0);
      DrainWrap(available, order, n, pass);
    }
  }

  lemma DrainWrap(available: map<nat, seq<ShapeTransformation>>, order: seq<nat>, n: nat, pass: nat)
    requires IsShuffleOf(order, n)
    requires KeyedByShapes(available, n)
    requires pass < 4 && Drained(available, order, n, pass, n)
    ensures Drained(available, order, n, pass + 1, 0)
  {
  }

  /** Arithmetic of the position `pass * n + q` in the repeated order during
      the first four passes. */
  lemma PositionBounds(pass: nat, n: nat, q: nat)
    requires pass < 4 && q <= n
    ensures pass * n + q <= 4 * n
    ensures q < n ==> pass * n + q < 4 * n
    ensures pass >= 1 ==> pass * n + q >= n
    ensures (pass + 1) * n == pass * n + n
  {
    MulMonotone(pass, 3, n);
    if pass >= 1 {
      MulMonotone(1, pass, n);
    }
  }

  /** The pools the generator starts with: every shape 0 .. n-1 has all four
      transformations. */
  method InitialPools(n: nat) returns (available: map<nat, seq<ShapeTransformation>>)
    ensures KeyedByShapes(available, n)
    ensures forall s :: s in available ==> available[s] == GetDeformationList()
  {
    available := map[];
    for s := 0 to n
      invariant forall x: nat :: x in available <==> x < s
      invariant forall x :: x in available ==> available[x] == GetDeformationList()
    {
      available := available[s := GetDeformationList()];
    }
  }

  /** GetDeformationSequence(shapeCount).Take(limit): walk the shuffled shape
      order over and over; at each shape with a non-empty pool, remove a
      random transformation from its pool and emit it; at an empty pool count
      a miss, and stop once the misses exceed the limit (the counter is never
      reset). Take stops pulling as soon as `limit` items have been emitted.
      No visit misses during the first four walks of the order, so the miss
      counter only starts once all 4 * shapeCount transformations are out. */
  method GetDeformationSequence(shapeCount: nat, order: seq<nat>, next: nat -> nat, limit: nat)
    returns (ds: seq<Deformation>)
    requires IsShuffleOf(order, shapeCount)
    // With no shapes the endless repetition of the empty order never yields;
    // the caller only asks for zero items then.
    requires shapeCount > 0 || limit == 0
    ensures |ds| == Min(limit, 4 * shapeCount)
    ensures forall k :: 0 <= k < |ds| ==> 0 <= ds[k].shapeIndex < shapeCount
    ensures forall k :: 0 <= k < |ds| && k < shapeCount ==> ds[k].shapeIndex == order[k]
    ensures Distinct(ds)
    ensures forall s :: 0 <= s < shapeCount ==> CountFor(ds, s) <= 4
  {
    ds := [];
    if limit == 0 {
      return;
    }
    var n := shapeCount;
    // Each shape's pool of transformations not yet drawn.
    var available := InitialPools(n);
    var loopsWithoutFindingHit: nat := 0;
    // The position reached in the repeated order: pass number and index.
    var pass: nat, q: nat := 0, 0;
    while |ds| < limit
      invariant |ds| <= limit
      invariant Walking(available, ds, order, n, pass, q, loopsWithoutFindingHit)
      decreases limit - |ds| + MissLimit - loopsWithoutFindingHit
    {
      if q == n {
        WrapStep(available, ds, order, n, pass, loopsWithoutFindingHit);
        q, pass := 0, pass + 1;
      }
      var shape := order[q];
      var pool := available[shape];
      if |pool| > 0 {
        var t := pool[next(|ds|) % |pool|];
        EmitStep(available, ds, order, n, pass, q, loopsWithoutFindingHit, t);
        available := available[shape := RemoveFirst(pool, t)];
        ds := ds + [Deformation(shape, t)];
      } else {
        MissStep(available, ds, order, n, pass, q, loopsWithoutFindingHit);
        loopsWithoutFindingHit := loopsWithoutFindingHit + 1;
        if loopsWithoutFindingHit > MissLimit {
          break;
        }
      }
      q := q + 1;
    }
    forall s | 0 <= s < n
      ensures CountFor(ds, s) <= 4
    {
      assert s in available;
    }
  }

  /** The puzzle generated for a level number, as GenerateNewPuzzle promises it. */
  ghost predicate IsPuzzleFor(p: PuzzleDto, repo: LevelDataRepository, levelNumber: int) {
    && levelNumber >= 0
    && repo.GetLevel(levelNumber) == Success(p.levelTemplate)
    && ValidDeformations(p.deformations, |p.levelTemplate.shapes|,
                         NumberOfMoves(levelNumber, |p.levelTemplate.shapes|))
  }

  /** GenerateNewPuzzle: fetch the level (which may throw), then take
      NumberOfMoves deformations from a freshly shuffled sequence. */
  method GenerateNewPuzzle(repo: LevelDataRepository, levelNumber: int, dice: Dice)
    returns (r: Result<PuzzleDto>)
    ensures r.Success? <==> repo.GetLevel(levelNumber).Success?
    ensures r.Failure? ==> r.error == repo.GetLevel(levelNumber).error
    ensures r.Success? ==> IsPuzzleFor(r.value, repo, levelNumber)
  {
    var level := repo.GetLevel(levelNumber);
    if level.Failure? {
      return Failure(level.error);
    }
    var n := |level.value.shapes|;
    var moves := NumberOfMoves(levelNumber, n);
    var order := Shuffle(n, dice.shuffle);
    var ds := GetDeformationSequence(n, order, dice.next, moves);
    forall i, j | 0 <= i < j < |ds| && j < n
      ensures ds[i].shapeIndex != ds[j].shapeIndex
    {
      assert ds[i].shapeIndex == order[i] && ds[j].shapeIndex == order[j];
    }
    r := Success(PuzzleDto(level.value, ds));
  }

  /** The round generated after `roundsPlayed` rounds: five puzzles, the i-th
      from level number roundsPlayed * 5 + i. */
  ghost predicate IsRoundFor(round: Round, repo: LevelDataRepository, roundsPlayed: int) {
    && |round.puzzles| == PuzzlesPerRound
    && forall i :: 0 <= i < PuzzlesPerRound ==>
         IsPuzzleFor(round.puzzles[i], repo, roundsPlayed * PuzzlesPerRound + i)
  }

  /** GenerateRound. The level lookup of the first puzzle is the only one that
      can throw: if it succeeds the repository is loaded and the level numbers
      that follow are non-negative too. */
  method GenerateRound(repo: LevelDataRepository, roundsPlayed: int, dice: nat -> Dice)
    returns (r: Result<Round>)
    ensures r.Success? <==> repo.Loaded() && roundsPlayed >= 0
    ensures r.Failure? ==> r.error == repo.GetLevel(roundsPlayed * PuzzlesPerRound).error
    ensures r.Success? ==> IsRoundFor(r.value, repo, roundsPlayed)
  {
    var puzzles: seq<PuzzleDto> := [];
    for i := 0 to PuzzlesPerRound
      invariant |puzzles| == i
      invariant i > 0 ==> repo.Loaded() && roundsPlayed >= 0
      invariant forall j :: 0 <= j < i ==>
        IsPuzzleFor(puzzles[j], repo, roundsPlayed * PuzzlesPerRound + j)
    {
      var p := GenerateNewPuzzle(repo, roundsPlayed * PuzzlesPerRound + i, dice(i));
      if p.Failure? {
        return Failure(p.error);
      }
      puzzles := puzzles + [p.value];
    }
    r := Success(Round(puzzles));
  }

  /** With at least five levels, the first round uses levels 0 .. 4 in order. */
  lemma FirstRoundUsesFirstLevels(round: Round, repo: LevelDataRepository)
    requires IsRoundFor(round, repo, 0)
    requires repo.levels.Some? && |repo.levels.value| >= PuzzlesPerRound
    ensures forall i :: 0 <= i < PuzzlesPerRound ==>
      round.puzzles[i].levelTemplate == repo.levels.value[i]
  {
    forall i | 0 <= i < PuzzlesPerRound
      ensures round.puzzles[i].levelTemplate == repo.levels.value[i]
    {
      assert repo.GetLevel(i) == Success(round.puzzles[i].levelTemplate);
    }
  }
}
