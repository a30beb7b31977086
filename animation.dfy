/** The timing of an animation: when it starts, how long it lasts, whether
    it repeats, and from that whether it has expired and where in its run
    a given moment falls. Time is a whole number of TimeSpan ticks. */
module AnimationTiming {

  /** TimeSpan ticks in one second. */
  const TicksPerSecond: int := 10_000_000

  datatype RepeatMode = NoRepeat | Forever

  /** Where a moment falls in an animation's run: before its start (no
      value, so nothing is set), at or past its end without repeating (the
      final value, 1), or within a run (a fraction of it). */
  datatype NormalisedTime = NotStarted | Finished | Within

  class Animation {
    var duration: int
    var startTime: int
    var repeatMode: RepeatMode
    var autoReverse: bool

    constructor(duration: int)
      ensures this.duration == duration && startTime == 0
      ensures repeatMode == NoRepeat && !autoReverse
    {
      this.duration := duration;
      startTime := 0;
      repeatMode := NoRepeat;
      autoReverse := false;
    }

    /** A non-repeating animation expires once the time passes its end,
        strictly. */
    predicate HasExpired(currentElapsedTime: int): (r: bool)
      reads this
      ensures r ==> repeatMode == NoRepeat
      ensures currentElapsedTime <= startTime + duration ==> !r
      ensures repeatMode == NoRepeat && currentElapsedTime > startTime + duration ==> r
    {
      repeatMode == NoRepeat && startTime + duration < currentElapsedTime
    }

    /** The null and 1 cases of the normalised time; the fraction within a
        run is not computed. */
    function NormalisedTimeAt(currentElapsedTime: int): (r: NormalisedTime)
      reads this
      ensures r == NotStarted <==> currentElapsedTime < startTime
      ensures r == Finished <==>
        startTime <= currentElapsedTime && currentElapsedTime - startTime > duration && repeatMode == NoRepeat
    {
      var afterStart := currentElapsedTime - startTime;
      if afterStart < 0 then NotStarted
      else if afterStart > duration && repeatMode == NoRepeat then Finished
      else Within
    }
  }

  /** An animation that repeats forever never expires. */
  lemma ForeverNeverExpires(a: Animation, t: int)
    requires a.repeatMode == Forever
    ensures !a.HasExpired(t)
  {
  }

  /** Expiry is monotone: expired at t means expired at every later time. */
  lemma ExpiryMonotone(a: Animation, t: int, later: int)
    requires t <= later && a.HasExpired(t)
    ensures a.HasExpired(later)
  {
  }

  /** An expired animation with a non-negative duration is past its end,
      so it shows its final value. */
  lemma ExpiredIsFinished(a: Animation, t: int)
    requires a.HasExpired(t) && a.duration >= 0
    ensures a.NormalisedTimeAt(t) == Finished
  {
  }
}
