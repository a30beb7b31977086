/** The storyboard: the list of running animations, the current time that
    the game loop advances, a periodic purge of expired animations, and the
    planners that start animations at offsets from the current time. Time
    is a whole number of TimeSpan ticks. */
module Storyboards {
  import opened Seqs
  import opened AnimationTiming

  /** TimeSpan.MinValue in ticks. */
  const TimeSpanMin: int := -0x8000_0000_0000_0000

  /** The animations of s not expired at time t, in their order in s. */
  function Unexpired(s: seq<Animation>, t: int): seq<Animation>
    reads s
  {
    if s == [] then []
    else Unexpired(s[..|s| - 1], t) + (if s[|s| - 1].HasExpired(t) then [] else [s[|s| - 1]])
  }

  /** A purge keeps exactly the animations not expired at that time. */
  lemma {:induction false} UnexpiredMembers(s: seq<Animation>, t: int)
    ensures forall a :: a in Unexpired(s, t) <==> a in s && !a.HasExpired(t)
  {
    if s != [] {
      UnexpiredMembers(s[..|s| - 1], t);
      assert s == s[..|s| - 1] + [s[|s| - 1]];
    }
  }

  /** A purge keeps the order: purging a concatenation purges each part. */
  lemma {:induction false} UnexpiredAppend(s: seq<Animation>, u: seq<Animation>, t: int)
    ensures Unexpired(s + u, t) == Unexpired(s, t) + Unexpired(u, t)
    decreases |u|
  {
    if u == [] {
      assert s + u == s;
    } else {
      var v := u[..|u| - 1];
      assert (s + u)[..|s + u| - 1] == s + v;
      UnexpiredAppend(s, v, t);
    }
  }

  /** Purging twice at the same time changes nothing the second time. */
  lemma {:induction false} UnexpiredIdempotent(s: seq<Animation>, t: int)
    ensures Unexpired(Unexpired(s, t), t) == Unexpired(s, t)
  {
    if s != [] {
      var init := s[..|s| - 1];
      var last := s[|s| - 1];
      UnexpiredIdempotent(init, t);
      var tail := if last.HasExpired(t) then [] else [last];
      UnexpiredAppend(Unexpired(init, t), tail, t);
      if !last.HasExpired(t) {
        assert [last][..0] == [];
      }
    }
  }

  class Storyboard {
    var animations: seq<Animation>
    var currentTime: int
    var lastPurged: int
    var currentPlan: StoryboardPlanner?

    constructor()
      ensures animations == [] && currentTime == 0 && lastPurged == TimeSpanMin && currentPlan == null
    {
      animations := [];
      currentTime := 0;
      lastPurged := TimeSpanMin;
      currentPlan := null;
    }

    /** Starts the animation at the current time and appends it. */
    method BeginAnimationNow(animation: Animation)
      modifies this, animation
      ensures animation.startTime == currentTime
      ensures animations == old(animations) + [animation]
      ensures currentTime == old(currentTime) && lastPurged == old(lastPurged) && currentPlan == old(currentPlan)
      ensures animation.duration == old(animation.duration) && animation.repeatMode == old(animation.repeatMode)
      ensures animation.autoReverse == old(animation.autoReverse)
    {
      animation.startTime := currentTime;
      AddAnimation(animation);
    }

    /** The planner of the current planning session, or a new planner at
        offset 0 that is not kept. */
    method Plan() returns (p: StoryboardPlanner)
      ensures old(currentPlan) != null ==> p == currentPlan
      ensures old(currentPlan) == null ==> fresh(p) && p.storyboard == this && p.offset == 0 && p.delays == []
    {
      if currentPlan != null {
        p := currentPlan;
      } else {
        p := new StoryboardPlanner(this);
      }
    }

    /** Purges the expired animations when more than a second has passed
        since the last purge. Handing the current time to each animation is
        not modelled. */
    method Update()
      modifies this
      ensures currentTime == old(currentTime) && currentPlan == old(currentPlan)
      ensures old(currentTime > lastPurged + TicksPerSecond) ==>
        animations == Unexpired(old(animations), currentTime) && lastPurged == currentTime
      ensures old(currentTime <= lastPurged + TicksPerSecond) ==>
        animations == old(animations) && lastPurged == old(lastPurged)
    {
      if currentTime > lastPurged + TicksPerSecond {
        PurgeExpiredAnimations(currentTime);
      }
    }

    method AdvanceTimeTo(currentElapsedTime: int)
      modifies this
      ensures currentTime == currentElapsedTime
      ensures animations == old(animations) && lastPurged == old(lastPurged) && currentPlan == old(currentPlan)
    {
      currentTime := currentElapsedTime;
    }

    /** Keeps the animations not expired at the given time, in order, and
        records the time of the purge. */
    method PurgeExpiredAnimations(currentElapsedTime: int)
      modifies this
      ensures animations == old(Unexpired(animations, currentElapsedTime))
      ensures lastPurged == currentElapsedTime
      ensures currentTime == old(currentTime) && currentPlan == old(currentPlan)
    {
      var current := Unexpired(animations, currentElapsedTime);
      animations := [];
      animations := animations + current;
      lastPurged := currentElapsedTime;
    }

    method AddAnimation(animation: Animation)
      modifies this
      ensures animations == old(animations) + [animation]
      ensures currentTime == old(currentTime) && lastPurged == old(lastPurged) && currentPlan == old(currentPlan)
    {
      animations := animations + [animation];
    }

    /** Removes the first occurrence of the animation, if any. */
    method RemoveAnimation(animation: Animation)
      modifies this
      ensures animations == RemoveFirst(old(animations), animation)
      ensures animation in old(animations) ==>
        var i := FirstIndex(old(animations), animation);
        animations == old(animations)[..i] + old(animations)[i + 1..]
      ensures currentTime == old(currentTime) && lastPurged == old(lastPurged) && currentPlan == old(currentPlan)
    {
      if animation in animations {
        RemoveFirstAt(animations, animation);
      }
      animations := RemoveFirst(animations, animation);
    }

    /** Starts a planning session: Plan returns its planner until the
        session is disposed. */
    method BeginPlanning()
      modifies this
      ensures fresh(currentPlan) && currentPlan.storyboard == this && currentPlan.offset == 0
      ensures currentPlan.delays == []
      ensures animations == old(animations) && currentTime == old(currentTime) && lastPurged == old(lastPurged)
    {
      currentPlan := new StoryboardPlanner(this);
    }

    /** Disposing of any planning session ends the current one, whichever
        BeginPlanning started it. */
    method DisposePlanning()
      modifies this
      ensures currentPlan == null
      ensures animations == old(animations) && currentTime == old(currentTime) && lastPurged == old(lastPurged)
    {
      currentPlan := null;
    }
  }

  function Sum(s: seq<int>): int {
    if s == [] then 0 else Sum(s[..|s| - 1]) + s[|s| - 1]
  }

  class StoryboardPlanner {
    const storyboard: Storyboard
    var offset: int
    /** The delays added so far, oldest first. */
    ghost var delays: seq<int>

    /** The offset is the sum of the delays so far. */
    ghost predicate Valid()
      reads this
    {
      offset == Sum(delays)
    }

    constructor(storyboard: Storyboard)
      ensures this.storyboard == storyboard && offset == 0 && delays == [] && Valid()
    {
      this.storyboard := storyboard;
      offset := 0;
      delays := [];
    }

    /** Moves later animations back by the delay. */
    method AfterDelay(timeSpan: int) returns (r: StoryboardPlanner)
      requires Valid()
      modifies this
      ensures r == this && Valid()
      ensures offset == old(offset) + timeSpan && delays == old(delays) + [timeSpan]
    {
      offset := offset + timeSpan;
      delays := delays + [timeSpan];
      assert delays[..|delays| - 1] == old(delays);
      r := this;
    }

    /** Starts the animation at the storyboard's current time plus the
        offset, and appends it to the storyboard. */
    method Begin(animation: Animation) returns (r: StoryboardPlanner)
      modifies animation, storyboard
      ensures r == this
      ensures animation.startTime == storyboard.currentTime + offset
      ensures storyboard.animations == old(storyboard.animations) + [animation]
      ensures storyboard.currentTime == old(storyboard.currentTime)
      ensures storyboard.lastPurged == old(storyboard.lastPurged)
      ensures storyboard.currentPlan == old(storyboard.currentPlan)
      ensures animation.duration == old(animation.duration) && animation.repeatMode == old(animation.repeatMode)
      ensures animation.autoReverse == old(animation.autoReverse)
    {
      animation.startTime := storyboard.currentTime + offset;
      storyboard.AddAnimation(animation);
      r := this;
    }
  }
}
