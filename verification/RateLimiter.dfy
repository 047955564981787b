/** The sliding-window request limiter: one sorted set of timestamps per client, trimmed, extended and counted in one
    pipeline. */
module RateLimiter {
  import opened Wrappers
  import Sets

  datatype Client = Client(tenant: string, ip: string)

  /** A sorted set whose members are their own scores, and the time its key lapses. */
  datatype Bucket = Bucket(times: set<real>, expiresAt: real)

  datatype Reply = Forwarded | TooManyRequests

  // ---- One request of one client ----

  function Visible(b: Option<Bucket>, now: real): set<real> {
    if b.Some? && now < b.value.expiresAt then b.value.times else {}
  }

  /** Scores from zero up to the start of the window go. */
  function Trimmed(times: set<real>, start: real): set<real> {
    set t | t in times && !(0.0 <= t <= start)
  }

  function Hit(b: Option<Bucket>, now: real, window: real): Bucket {
    Bucket(Trimmed(Visible(b, now), now - window) + {now}, now + window)
  }

  class Limiter {
    const maxRequests: int
    const window: real
    var buckets: map<Client, Bucket>

    constructor (maxRequests: int, window: real)
      ensures this.maxRequests == maxRequests && this.window == window && buckets == map[]
    {
      this.maxRequests, this.window, buckets := maxRequests, window, map[];
    }

    /** A refused request stays in the set, and only the client's own key changes. */
    method Dispatch(publicPath: bool, client: Client, now: real) returns (reply: Reply)
      modifies `buckets
      ensures publicPath ==> reply == Forwarded && buckets == old(buckets)
      ensures var stored := if client in old(buckets) then Some(old(buckets)[client]) else None;
              var hit := Hit(stored, now, window);
              !publicPath ==>
                && buckets == old(buckets)[client := hit]
                && reply == (if |hit.times| > maxRequests then TooManyRequests else Forwarded)
    {
      if publicPath {
        return Forwarded;
      }
      var start := now - window;
      var times: set<real> := {};
      if client in buckets && now < buckets[client].expiresAt {
        times := buckets[client].times;
      }
      times := set t | t in times && !(0.0 <= t <= start);
      times := times + {now};
      var count := |times|;
      buckets := buckets[client := Bucket(times, now + window)];
      return if count > maxRequests then TooManyRequests else Forwarded;
    }
  }

  // ---- A whole run of one client ----

  predicate Nondecreasing(times: seq<real>) {
    && (forall i :: 0 <= i < |times| ==> times[i] >= 0.0)
    && (forall i, j :: 0 <= i <= j < |times| ==> times[i] <= times[j])
  }

  predicate Increasing(times: seq<real>) {
    && (forall i :: 0 <= i < |times| ==> times[i] >= 0.0)
    && (forall i, j :: 0 <= i < j < |times| ==> times[i] < times[j])
  }

  function After(times: seq<real>, window: real): Option<Bucket> {
    if times == [] then None
    else Some(Hit(After(times[..|times| - 1], window), times[|times| - 1], window))
  }

  /** The limiter forwards request `i` of the run. */
  predicate Forwards(times: seq<real>, i: nat, maxRequests: int, window: real)
    requires i < |times|
  {
    |Hit(After(times[..i], window), times[i], window).times| <= maxRequests
  }

  /** The timestamps up to request `i` that are less than a window old. */
  function Recent(times: seq<real>, i: nat, window: real): set<real>
    requires i < |times|
  {
    set j | 0 <= j <= i && times[j] > times[i] - window :: times[j]
  }

  lemma RecentStep(times: seq<real>, i: nat, window: real)
    requires Nondecreasing(times) && window > 0.0 && 0 < i < |times|
    ensures Trimmed(Recent(times, i - 1, window), times[i] - window) + {times[i]} == Recent(times, i, window)
  {
    var left, right := Trimmed(Recent(times, i - 1, window), times[i] - window) + {times[i]}, Recent(times, i, window);
    forall t | t in right ensures t in left {
      var j :| 0 <= j <= i && times[j] > times[i] - window && times[j] == t;
      assert j < i ==> times[j] in Recent(times, i - 1, window);
    }
  }

  lemma LapsedIsOld(times: seq<real>, i: nat, now: real, window: real)
    requires Nondecreasing(times) && window > 0.0 && i < |times| && now >= times[i] + window
    ensures Trimmed(Recent(times, i, window), now - window) == {}
  {
  }

  /** Neither trimming nor key expiry drops a timestamp that is still recent, and nothing older is kept. */
  lemma {:induction false} StoredIsRecent(times: seq<real>, i: nat, window: real)
    requires Nondecreasing(times) && window > 0.0 && i < |times|
    ensures Hit(After(times[..i], window), times[i], window) == Bucket(Recent(times, i, window), times[i] + window)
  {
    if i == 0 {
      assert Recent(times, 0, window) == {times[0]};
    } else {
      StoredIsRecent(times, i - 1, window);
      assert times[..i][..i - 1] == times[..i - 1];
      RecentStep(times, i, window);
      if times[i] >= times[i - 1] + window {
        LapsedIsOld(times, i - 1, times[i], window);
      }
    }
  }

  /** A key that has lapsed held nothing the trim would have kept. */
  lemma ExpiryLosesNothing(times: seq<real>, i: nat, now: real, window: real)
    requires Nondecreasing(times) && window > 0.0 && i < |times| && times[i] <= now
    ensures var b := Hit(After(times[..i], window), times[i], window);
            Trimmed(Visible(Some(b), now), now - window) == Trimmed(b.times, now - window)
  {
    StoredIsRecent(times, i, window);
  }

  /** A request is forwarded exactly when at most `maxRequests` distinct timestamps, refused ones and its own
      included, lie in the window that ends with it. */
  lemma ForwardsIff(times: seq<real>, i: nat, maxRequests: int, window: real)
    requires Nondecreasing(times) && window > 0.0 && i < |times|
    ensures Forwards(times, i, maxRequests, window) <==> |Recent(times, i, window)| <= maxRequests
  {
    StoredIsRecent(times, i, window);
  }

  /** The requests among the first `n` that are forwarded inside the interval of one window from `from`. */
  function Through(times: seq<real>, n: nat, maxRequests: int, window: real, from: real): set<nat>
    requires n <= |times|
  {
    set i: nat | i < n && from <= times[i] < from + window && Forwards(times, i, maxRequests, window)
  }

  function Stamps(times: seq<real>, chosen: set<nat>): set<real>
    requires forall i :: i in chosen ==> i < |times|
  {
    set i | i in chosen :: times[i]
  }

  lemma StampsAreRecent(times: seq<real>, n: nat, chosen: set<nat>, window: real, from: real)
    requires Nondecreasing(times) && 0 < n <= |times| && times[n - 1] < from + window
    requires forall i :: i in chosen ==> i < n && from <= times[i]
    ensures Stamps(times, chosen) <= Recent(times, n - 1, window)
  {
    forall t | t in Stamps(times, chosen) ensures t in Recent(times, n - 1, window) {
      var i :| i in chosen && times[i] == t;
    }
  }

  lemma LastForwarded(times: seq<real>, n: nat, chosen: set<nat>, maxRequests: int, window: real, from: real)
    requires Nondecreasing(times) && window > 0.0 && 0 < n <= |times| && times[n - 1] < from + window
    requires Forwards(times, n - 1, maxRequests, window)
    requires forall i :: i in chosen ==> i < n && from <= times[i]
    ensures |Stamps(times, chosen)| <= maxRequests
  {
    ForwardsIff(times, n - 1, maxRequests, window);
    StampsAreRecent(times, n, chosen, window, from);
    Sets.SubsetSize(Stamps(times, chosen), Recent(times, n - 1, window));
  }

  lemma ThroughStep(times: seq<real>, n: nat, maxRequests: int, window: real, from: real)
    requires 0 < n <= |times| && n - 1 !in Through(times, n, maxRequests, window, from)
    ensures Through(times, n, maxRequests, window, from) == Through(times, n - 1, maxRequests, window, from)
  {
  }

  lemma NothingThrough(times: seq<real>, maxRequests: int, window: real, from: real)
    ensures Through(times, 0, maxRequests, window, from) == {}
    ensures Stamps(times, {}) == {}
  {
  }

  /** However requests arrive, the forwarded ones in any window carry at most `maxRequests` distinct timestamps. */
  lemma {:induction false} StampsAreBounded(times: seq<real>, n: nat, maxRequests: int, window: real, from: real)
    requires Nondecreasing(times) && window > 0.0 && n <= |times| && maxRequests >= 0
    ensures |Stamps(times, Through(times, n, maxRequests, window, from))| <= maxRequests
  {
    var through := Through(times, n, maxRequests, window, from);
    if n == 0 {
      NothingThrough(times, maxRequests, window, from);
    } else if n - 1 in through {
      LastForwarded(times, n, through, maxRequests, window, from);
    } else {
      StampsAreBounded(times, n - 1, maxRequests, window, from);
      ThroughStep(times, n, maxRequests, window, from);
    }
  }

  lemma {:induction false} DistinctStamps(times: seq<real>, chosen: set<nat>)
    requires Increasing(times) && forall i :: i in chosen ==> i < |times|
    ensures |Stamps(times, chosen)| == |chosen|
    decreases |chosen|
  {
    if chosen != {} {
      var i :| i in chosen;
      DistinctStamps(times, chosen - {i});
      assert Stamps(times, chosen) == Stamps(times, chosen - {i}) + {times[i]};
      assert times[i] !in Stamps(times, chosen - {i});
    }
  }

  /** With strictly increasing times at most `maxRequests` requests pass in every half-open interval of one window. */
  lemma RequestsAreBounded(times: seq<real>, maxRequests: int, window: real, from: real)
    requires Increasing(times) && window > 0.0 && maxRequests >= 0
    ensures |Through(times, |times|, maxRequests, window, from)| <= maxRequests
  {
    StampsAreBounded(times, |times|, maxRequests, window, from);
    DistinctStamps(times, Through(times, |times|, maxRequests, window, from));
  }

  lemma {:induction false} StampsAtMost(times: seq<real>, chosen: set<nat>)
    requires forall i :: i in chosen ==> i < |times|
    ensures |Stamps(times, chosen)| <= |chosen|
    decreases |chosen|
  {
    if chosen != {} {
      var i :| i in chosen;
      StampsAtMost(times, chosen - {i});
      assert Stamps(times, chosen) == Stamps(times, chosen - {i}) + {times[i]};
    }
  }

  function Upto(n: nat): (r: set<nat>)
    ensures |r| == n && forall i: nat :: i in r <==> i < n
  {
    if n == 0 then {} else Upto(n - 1) + {n - 1}
  }

  /** With a window longer than the run and one place per distinct timestamp, every request passes. */
  lemma AllPass(times: seq<real>)
    requires Nondecreasing(times) && times != []
    ensures var all := Upto(|times|);
            Through(times, |times|, |Stamps(times, all)|, times[|times| - 1] + 1.0, 0.0) == all
  {
    var window := times[|times| - 1] + 1.0;
    var stamps := Stamps(times, Upto(|times|));
    forall k: nat | k < |times| ensures Forwards(times, k, |stamps|, window) {
      ForwardsIff(times, k, |stamps|, window);
      Sets.SubsetSize(Recent(times, k, window), stamps);
    }
  }

  lemma RepeatsCollapse(times: seq<real>, i: nat, j: nat)
    requires i < j < |times| && times[i] == times[j]
    ensures |Stamps(times, Upto(|times|))| < |times|
  {
    var all := Upto(|times|);
    StampsAtMost(times, all - {j});
    assert i in all - {j};
    assert Stamps(times, all) == Stamps(times, all - {j});
  }

  /** A repeated timestamp lets one request too many through under some setting of the limiter. */
  lemma RepeatsOverflow(times: seq<real>, i: nat, j: nat)
    requires Nondecreasing(times) && i < j < |times| && times[i] == times[j]
    ensures var limit := |Stamps(times, Upto(|times|))|;
            |Through(times, |times|, limit, times[|times| - 1] + 1.0, 0.0)| > limit
  {
    AllPass(times);
    RepeatsCollapse(times, i, j);
  }

  /** The bound on requests holds for every setting of the limiter exactly on runs without a repeated timestamp. */
  lemma BoundHoldsIff(times: seq<real>)
    requires Nondecreasing(times)
    ensures (forall maxRequests: nat, window: real, from: real :: window > 0.0 ==>
               |Through(times, |times|, maxRequests, window, from)| <= maxRequests)
       <==> Increasing(times)
  {
    if Increasing(times) {
      forall maxRequests: nat, window: real, from: real | window > 0.0
        ensures |Through(times, |times|, maxRequests, window, from)| <= maxRequests
      {
        RequestsAreBounded(times, maxRequests, window, from);
      }
    } else {
      var i, j :| 0 <= i < j < |times| && times[i] >= times[j];
      RepeatsOverflow(times, i, j);
    }
  }

  /** The forwarded requests of the whole run in the window that ends at `i`, later ones with the same time included. */
  function ForwardedWith(times: seq<real>, i: nat, maxRequests: int, window: real): set<nat>
    requires i < |times|
  {
    set j: nat | j < |times| && times[i] - window < times[j] <= times[i] && Forwards(times, j, maxRequests, window)
  }

  lemma {:induction false} LatestOf(times: seq<real>, chosen: set<nat>) returns (m: nat)
    requires chosen != {} && forall i :: i in chosen ==> i < |times|
    ensures m in chosen && forall i :: i in chosen ==> times[i] <= times[m]
    decreases |chosen|
  {
    m :| m in chosen;
    if chosen - {m} != {} {
      var rest := LatestOf(times, chosen - {m});
      if times[m] < times[rest] {
        m := rest;
      }
    }
  }

  lemma {:induction false} EarliestOf(times: seq<real>, chosen: set<nat>) returns (m: nat)
    requires chosen != {} && forall i :: i in chosen ==> i < |times|
    ensures m in chosen && forall i :: i in chosen ==> times[m] <= times[i]
    decreases |chosen|
  {
    m :| m in chosen;
    if chosen - {m} != {} {
      var rest := EarliestOf(times, chosen - {m});
      if times[rest] < times[m] {
        m := rest;
      }
    }
  }

  /** Every interval's forwarded requests lie in the window that ends at the latest of them. */
  lemma ThroughInWindow(times: seq<real>, maxRequests: int, window: real, from: real) returns (m: nat)
    requires window > 0.0 && Through(times, |times|, maxRequests, window, from) != {}
    ensures m < |times| && Forwards(times, m, maxRequests, window)
    ensures Through(times, |times|, maxRequests, window, from) <= ForwardedWith(times, m, maxRequests, window)
  {
    m := LatestOf(times, Through(times, |times|, maxRequests, window, from));
  }

  /** And the window that ends at a forwarded request fits one interval. */
  lemma WindowIsInterval(times: seq<real>, i: nat, maxRequests: int, window: real) returns (from: real)
    requires window > 0.0 && i < |times| && Forwards(times, i, maxRequests, window)
    ensures ForwardedWith(times, i, maxRequests, window) <= Through(times, |times|, maxRequests, window, from)
  {
    var chosen := ForwardedWith(times, i, maxRequests, window);
    assert i in chosen;
    var first := EarliestOf(times, chosen);
    from := times[first];
  }

  /** At most `maxRequests` distinct recent timestamps, and more forwarded requests than that: some are repeats. */
  predicate Overflows(times: seq<real>, i: nat, maxRequests: int, window: real)
    requires i < |times|
  {
    |Recent(times, i, window)| <= maxRequests < |ForwardedWith(times, i, maxRequests, window)|
  }

  /** For one setting of the limiter: the bound holds in every interval exactly when no request that finds at most
      `maxRequests` distinct recent timestamps ends a window in which more requests than that were forwarded. */
  lemma BoundHoldsAtIff(times: seq<real>, maxRequests: nat, window: real)
    requires Nondecreasing(times) && window > 0.0
    ensures (forall from: real :: |Through(times, |times|, maxRequests, window, from)| <= maxRequests)
       <==> (forall i: nat :: i < |times| ==> !Overflows(times, i, maxRequests, window))
  {
    forall i: nat | i < |times|
      ensures (forall from: real :: |Through(times, |times|, maxRequests, window, from)| <= maxRequests) ==>
                !Overflows(times, i, maxRequests, window)
    {
      ForwardsIff(times, i, maxRequests, window);
      if Forwards(times, i, maxRequests, window) {
        var from := WindowIsInterval(times, i, maxRequests, window);
        Sets.SubsetSize(ForwardedWith(times, i, maxRequests, window),
                        Through(times, |times|, maxRequests, window, from));
      }
    }
    forall from: real
      ensures (forall i: nat :: i < |times| ==> !Overflows(times, i, maxRequests, window)) ==>
                |Through(times, |times|, maxRequests, window, from)| <= maxRequests
    {
      var through := Through(times, |times|, maxRequests, window, from);
      if through != {} {
        var m := ThroughInWindow(times, maxRequests, window, from);
        ForwardsIff(times, m, maxRequests, window);
        Sets.SubsetSize(through, ForwardedWith(times, m, maxRequests, window));
        assert !Overflows(times, m, maxRequests, window) ==> |through| <= maxRequests;
      }
    }
  }

  /** A run without a repeated timestamp never overflows, whatever the setting. */
  lemma OverflowNeedsRepeat(times: seq<real>, i: nat, maxRequests: nat, window: real)
    requires Increasing(times) && window > 0.0 && i < |times|
    ensures !Overflows(times, i, maxRequests, window)
  {
    forall from: real ensures |Through(times, |times|, maxRequests, window, from)| <= maxRequests {
      RequestsAreBounded(times, maxRequests, window, from);
    }
    BoundHoldsAtIff(times, maxRequests, window);
  }

  /** Two requests with the same timestamp are one member of the set, and both pass a limit of one. */
  lemma EqualTimesPassTogether(now: real, window: real)
    requires now >= 0.0 && window > 0.0
    ensures Through([now, now], 2, 1, window, now) == {0, 1}
  {
    var times := [now, now];
    ForwardsIff(times, 0, 1, window);
    ForwardsIff(times, 1, 1, window);
    assert Recent(times, 0, window) == {now};
    assert Recent(times, 1, window) == {now};
  }
}
