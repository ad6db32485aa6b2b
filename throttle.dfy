/**
 * The Gemini runner's free-tier throttle: before each request it reads the
 * clock, sleeps out what is left of the minimum interval since the previous
 * throttle returned, and records the time it returns.
 */
module Throttling {
  import opened Wrappers

  /** Requests per minute the free tier allows. */
  const FreeRpm: real := 5.0

  /** `60.0 / FREE_RPM`, the minimum spacing of two requests in seconds. */
  const MinIntervalSec: real := 60.0 / FreeRpm

  /**
   * An abstract clock standing for `time.time()` and `time.sleep()`: reading
   * it never goes back, and sleeping lasts at least as long as asked. Time
   * that passes elsewhere (waiting for a reply) shows up in the next reading.
   */
  class Clock {
    var now: real
    /** The durations every `time.sleep()` so far asked for, oldest first. */
    ghost var sleeps: seq<real>

    constructor (start: real)
      ensures now == start && sleeps == []
    {
      now := start;
      sleeps := [];
    }

    /** `time.time()`. */
    method Time() returns (t: real)
      modifies this
      ensures old(now) <= now && t == now
      ensures sleeps == old(sleeps)
    {
      t := now;
    }

    /** `time.sleep(seconds)`. */
    method Sleep(seconds: real)
      requires seconds >= 0.0
      modifies this
      ensures now >= old(now) + seconds
      ensures sleeps == old(sleeps) + [seconds]
    {
      now := now + seconds;
      sleeps := sleeps + [seconds];
    }
  }

  /** Every stamp is at least the minimum interval after the one before. */
  predicate Spaced(stamps: seq<real>) {
    forall i :: 0 < i < |stamps| ==> stamps[i - 1] + MinIntervalSec <= stamps[i]
  }

  /** Over `j - i` steps the spacing adds up. */
  lemma {:induction false} SpacedWindow(stamps: seq<real>, i: nat, j: nat)
    requires Spaced(stamps) && i <= j < |stamps|
    ensures stamps[j] - stamps[i] >= (j - i) as real * MinIntervalSec
    decreases j - i
  {
    if i < j {
      SpacedWindow(stamps, i, j - 1);
      assert stamps[j - 1] + MinIntervalSec <= stamps[j];
    }
  }

  /** So any six throttle returns span at least a minute: at most five requests start within any minute. */
  lemma SpacedPerMinute(stamps: seq<real>, i: nat)
    requires Spaced(stamps) && i + 5 < |stamps|
    ensures stamps[i + 5] - stamps[i] >= 60.0
  {
    SpacedWindow(stamps, i, i + 5);
  }

  /** The records since `earlier` join up with those added after `middle`. */
  lemma SuffixJoin(earlier: seq<real>, middle: seq<real>, stamps: seq<real>)
    requires earlier <= middle <= stamps
    ensures middle[|earlier|..] + stamps[|middle|..] == stamps[|earlier|..]
  {
  }

  /** The stamps from some point on are spaced as well. */
  lemma SpacedSuffix(stamps: seq<real>, n: nat)
    requires Spaced(stamps) && n <= |stamps|
    ensures Spaced(stamps[n..])
  {
  }

  /** Recording one more stamp keeps every earlier record, and adds it to the records since `earlier`. */
  lemma PrefixGrows(earlier: seq<real>, stamps: seq<real>, last: real)
    requires earlier <= stamps
    ensures earlier <= stamps + [last]
    ensures (stamps + [last])[|earlier|..] == stamps[|earlier|..] + [last]
  {
    assert (stamps + [last])[..|stamps|] == stamps;
  }

  /** The module-level `_last_request_ts` and the `throttle()` that updates it. */
  class RateLimiter {
    var lastRequestTs: real
    /** The times every `throttle()` so far returned, oldest first. */
    ghost var stamps: seq<real>

    ghost predicate Valid()
      reads this
    {
      && (stamps == [] ==> lastRequestTs == 0.0)
      && (stamps != [] ==> lastRequestTs == stamps[|stamps| - 1] && stamps[0] >= MinIntervalSec)
      && Spaced(stamps)
    }

    /** `_last_request_ts = 0.0` at module load. */
    constructor ()
      ensures Valid() && stamps == [] && lastRequestTs == 0.0
    {
      lastRequestTs := 0.0;
      stamps := [];
    }

    /**
     * `throttle()`: `readAt` is the clock reading it starts from; it sleeps
     * exactly the rest of the minimum interval when less than that has passed
     * since `_last_request_ts`, and not at all otherwise (`slept` is what it
     * asked the clock for, and the clock's log agrees); then it records the
     * time it returns, which is at least the minimum interval after the
     * previous record.
     */
    method Throttle(clock: Clock) returns (readAt: real, slept: Option<real>)
      requires Valid()
      modifies this, clock
      ensures Valid()
      ensures old(clock.now) <= readAt
      ensures slept == if readAt - old(lastRequestTs) < MinIntervalSec
                       then Some(MinIntervalSec - (readAt - old(lastRequestTs)))
                       else None
      ensures clock.sleeps == old(clock.sleeps) + (if slept.Some? then [slept.value] else [])
      ensures readAt <= lastRequestTs == clock.now
      ensures lastRequestTs >= old(lastRequestTs) + MinIntervalSec
      ensures stamps == old(stamps) + [lastRequestTs]
    {
      var now := clock.Time();
      readAt := now;
      var delta := now - lastRequestTs;
      if delta < MinIntervalSec {
        clock.Sleep(MinIntervalSec - delta);
        slept := Some(MinIntervalSec - delta);
      } else {
        slept := None;
      }
      lastRequestTs := clock.Time();
      stamps := stamps + [lastRequestTs];
    }
  }
}
