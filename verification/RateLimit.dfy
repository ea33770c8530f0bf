/** The request spacing and the response size limit of app/crawlers/http.py. */
module RateLimit {
  import opened Prelude

  const WINDOW: real := 60.0

  /** A monotonic clock; whatever else happens takes an unknown time. */
  class Clock {
    var time: real
    /** How much sleep was asked for in all. */
    ghost var requested: real

    method Monotonic() returns (now: real)
      modifies this
      ensures now == time >= old(time) && requested == old(requested)
    {
      var elapsed: real := *;
      if elapsed > 0.0 {
        time := time + elapsed;
      }
      now := time;
    }

    /** Never returns early. */
    method Sleep(seconds: real)
      requires seconds >= 0.0
      modifies this
      ensures time >= old(time) + seconds && requested == old(requested) + seconds
    {
      requested := requested + seconds;
      var late: real := *;
      time := time + seconds + if late > 0.0 then late else 0.0;
    }
  }

  datatype ReadResult = Body(bytes: seq<bv8>) | TooLarge

  function Size(chunks: seq<seq<bv8>>): nat {
    if chunks == [] then 0 else Size(chunks[..|chunks| - 1]) + |chunks[|chunks| - 1]|
  }

  function Joined(chunks: seq<seq<bv8>>): seq<bv8> {
    if chunks == [] then [] else Joined(chunks[..|chunks| - 1]) + chunks[|chunks| - 1]
  }

  class HttpClient {
    const clock: Clock
    const ratePerMin: nat
    const minimumInterval: real
    const maxResponseBytes: nat
    var lastRequestAt: Option<real>
    /** When requests were let through, oldest first. */
    ghost var grants: seq<real>

    ghost predicate Valid()
      reads this, clock
    {
      && ratePerMin >= 1 && minimumInterval == WINDOW / ratePerMin as real
      && Spaced(grants, minimumInterval)
      && (grants == [] <==> lastRequestAt.None?)
      && (grants != [] ==> lastRequestAt == Some(grants[|grants| - 1]) && grants[|grants| - 1] <= clock.time)
    }

    constructor (clock: Clock, rateLimitPerMin: nat, maxResponseBytes: nat)
      requires rateLimitPerMin >= 1
      ensures Valid() && this.clock == clock && grants == [] && this.maxResponseBytes == maxResponseBytes
      ensures ratePerMin == rateLimitPerMin
    {
      this.clock, this.maxResponseBytes := clock, maxResponseBytes;
      this.ratePerMin, this.minimumInterval := rateLimitPerMin, WINDOW / rateLimitPerMin as real;
      this.lastRequestAt, this.grants := None, [];
    }

    /**
     * Lets one request through, at least the minimum interval after the one before; it sleeps for
     * what was missing from that interval when it looked at the clock, and no more.
     */
    method WaitForRateLimit() returns (ghost looked: real)
      requires Valid()
      modifies this, clock
      ensures Valid() && |grants| == |old(grants)| + 1 && old(grants) < grants
      ensures lastRequestAt == Some(clock.time)
      ensures forall from :: |InWindow(grants, from)| <= ratePerMin
      ensures old(clock.time) <= looked <= clock.time
      ensures var missing := if old(lastRequestAt).None? then 0.0 else minimumInterval - (looked - old(lastRequestAt).value);
              clock.requested == old(clock.requested) + if missing > 0.0 then missing else 0.0
    {
      var now := clock.Monotonic();
      looked := now;
      if lastRequestAt.Some? {
        var remaining := minimumInterval - (now - lastRequestAt.value);
        if remaining > 0.0 {
          clock.Sleep(remaining);
        }
      }
      var granted := clock.Monotonic();
      SpacingExtends(grants, minimumInterval, granted);
      lastRequestAt := Some(granted);
      grants := grants + [granted];
      forall from ensures |InWindow(grants, from)| <= ratePerMin {
        AtMostRatePerMinute(grants, ratePerMin, from);
      }
    }

    /** The whole body, every chunk at its place, or a refusal exactly when it is longer than the limit. */
    method ReadWithLimit(chunks: seq<seq<bv8>>) returns (r: ReadResult)
      ensures r == if Size(chunks) <= maxResponseBytes then Body(Joined(chunks)) else TooLarge
      ensures r.Body? ==> |r.bytes| == Size(chunks) && forall i :: 0 <= i < |chunks| ==> StandsIn(r.bytes, chunks, i)
    {
      var bytes: seq<bv8> := [];
      for i := 0 to |chunks|
        invariant bytes == Joined(chunks[..i])
        invariant |bytes| == Size(chunks[..i]) <= maxResponseBytes
      {
        assert chunks[..i + 1][..i] == chunks[..i];
        if |bytes| + |chunks[i]| > maxResponseBytes {
          SizeGrows(chunks, i + 1);
          return TooLarge;
        }
        bytes := bytes + chunks[i];
      }
      assert chunks[..|chunks|] == chunks;
      r := Body(bytes);
      forall i | 0 <= i < |chunks| ensures StandsIn(r.bytes, chunks, i) {
        JoinedPieces(chunks, i);
      }
    }
  }

  /** The i-th chunk stands right after those before it. */
  ghost predicate StandsIn(bytes: seq<bv8>, chunks: seq<seq<bv8>>, i: nat)
    requires i < |chunks|
  {
    var from := Size(chunks[..i]);
    from + |chunks[i]| <= |bytes| && bytes[from..from + |chunks[i]|] == chunks[i]
  }

  lemma {:induction false} JoinedPieces(chunks: seq<seq<bv8>>, i: nat)
    requires i < |chunks|
    ensures StandsIn(Joined(chunks), chunks, i) && |Joined(chunks)| == Size(chunks)
    decreases |chunks|
  {
    var n := |chunks| - 1;
    var init := chunks[..n];
    JoinedSize(init);
    if i < n {
      JoinedPieces(init, i);
      assert init[..i] == chunks[..i];
    }
  }

  lemma {:induction false} JoinedSize(chunks: seq<seq<bv8>>)
    ensures |Joined(chunks)| == Size(chunks)
    decreases |chunks|
  {
    if chunks != [] {
      JoinedSize(chunks[..|chunks| - 1]);
    }
  }

  lemma {:induction false} SizeGrows(chunks: seq<seq<bv8>>, n: nat)
    requires n <= |chunks|
    ensures Size(chunks[..n]) <= Size(chunks)
    decreases |chunks| - n
  {
    if n == |chunks| {
      assert chunks[..n] == chunks;
    } else {
      assert chunks[..n + 1][..n] == chunks[..n];
      SizeGrows(chunks, n + 1);
    }
  }

  // ---- the rate -------------------------------------------------------------------------------

  ghost predicate Spaced(grants: seq<real>, interval: real) {
    forall i :: 0 < i < |grants| ==> grants[i] >= grants[i - 1] + interval
  }

  lemma SpacingExtends(grants: seq<real>, interval: real, granted: real)
    requires Spaced(grants, interval)
    requires grants != [] ==> granted >= grants[|grants| - 1] + interval
    ensures Spaced(grants + [granted], interval)
  {
  }

  ghost function InWindow(grants: seq<real>, from: real): set<nat> {
    set i: nat | i < |grants| && from <= grants[i] < from + WINDOW
  }

  lemma {:induction false} SpacedApart(grants: seq<real>, interval: real, i: nat, steps: nat)
    requires Spaced(grants, interval) && i + steps < |grants|
    ensures grants[i + steps] >= grants[i] + steps as real * interval
    decreases steps
  {
    if steps > 0 {
      SpacedApart(grants, interval, i, steps - 1);
      assert (steps - 1) as real * interval + interval == steps as real * interval;
    }
  }

  lemma {:induction false} SmallRange(s: set<nat>, from: nat, length: nat)
    requires forall i <- s :: from <= i < from + length
    ensures |s| <= length
    decreases length
  {
    if length == 0 {
      assert s == {};
    } else {
      SmallRange(s - {from + length - 1}, from, length - 1);
    }
  }

  lemma {:induction false} Least(s: set<nat>) returns (least: nat)
    requires s != {}
    ensures least in s && forall i <- s :: least <= i
    decreases |s|
  {
    least :| least in s;
    var rest := s - {least};
    assert s == rest + {least};
    if rest != {} {
      var other := Least(rest);
      least := if other < least then other else least;
    }
  }

  /** Any half-open window of sixty seconds holds at most the configured number of requests. */
  lemma AtMostRatePerMinute(grants: seq<real>, ratePerMin: nat, from: real)
    requires ratePerMin >= 1 && Spaced(grants, WINDOW / ratePerMin as real)
    ensures |InWindow(grants, from)| <= ratePerMin
  {
    var inside := InWindow(grants, from);
    if inside != {} {
      var first := Least(inside);
      hide Spaced;
      forall i <- inside ensures first <= i < first + ratePerMin {
        CloseTogether(grants, ratePerMin, from, first, i);
      }
      SmallRange(inside, first, ratePerMin);
    }
  }

  lemma CloseTogether(grants: seq<real>, ratePerMin: nat, from: real, i: nat, j: nat)
    requires ratePerMin >= 1 && Spaced(grants, WINDOW / ratePerMin as real)
    requires i <= j < |grants| && from <= grants[i] && grants[j] < from + WINDOW
    ensures j < i + ratePerMin
  {
    SpacedApart(grants, WINDOW / ratePerMin as real, i, j - i);
    hide Spaced;
    if j >= i + ratePerMin {
      TooFar(j - i, ratePerMin);
    }
  }

  lemma TooFar(steps: nat, ratePerMin: nat)
    requires steps >= ratePerMin >= 1
    ensures steps as real * (WINDOW / ratePerMin as real) >= WINDOW
  {
    var interval := WINDOW / ratePerMin as real;
    assert ratePerMin as real * interval == WINDOW;
    assert (steps - ratePerMin) as real * interval >= 0.0;
    assert steps as real * interval == ratePerMin as real * interval + (steps - ratePerMin) as real * interval;
  }
}
