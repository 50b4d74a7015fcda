/**
 * The heartbeat deadline (index.js:113-119). `heartbeat()` clears the previous timer and starts a new one,
 * so a connection has one deadline at a time: that of the latest arm.
 */
module Heartbeat {
  import opened Wrappers

  /** The server's heartbeat interval plus one second of grace. */
  const HeartbeatIntervalMs := 30000
  const GraceMs := 1000
  const DeadlineMs := HeartbeatIntervalMs + GraceMs

  predicate Ascending(times: seq<int>) {
    forall i, j :: 0 <= i < j < |times| ==> times[i] <= times[j]
  }

  /** Consecutive arms are less than a deadline apart. */
  predicate Frequent(times: seq<int>) {
    forall i :: 0 < i < |times| ==> times[i] - times[i - 1] < DeadlineMs
  }

  /**
   * The arm in force at time `t`, the arms happening at the ascending `times`:
   * the latest one at or before `t`, since each arm replaces the one before.
   */
  function LatestArm(times: seq<int>, t: int): (r: Option<int>)
    requires Ascending(times)
    ensures r.Some? ==> r.value in times && r.value <= t
    ensures r.Some? ==> forall i :: 0 <= i < |times| && times[i] <= t ==> times[i] <= r.value
    ensures r.None? ==> forall i :: 0 <= i < |times| ==> times[i] > t
  {
    if |times| == 0 then None
    else if times[|times| - 1] <= t then Some(times[|times| - 1])
    else LatestArm(times[..|times| - 1], t)
  }

  /** The heartbeat timer has fired by time `t`. */
  predicate Expired(times: seq<int>, t: int)
    requires Ascending(times)
  {
    var a := LatestArm(times, t);
    a.Some? && a.value + DeadlineMs <= t
  }

  /**
   * A connection armed at open and re-armed by heartbeats less than a
   * deadline apart is never terminated between its first arm and one
   * deadline after its last.
   */
  lemma {:induction false} FrequentHeartbeatsKeepAlive(times: seq<int>, t: int)
    requires Ascending(times) && Frequent(times) && |times| >= 1
    requires times[0] <= t < times[|times| - 1] + DeadlineMs
    ensures !Expired(times, t)
  {
    var n := |times|;
    if times[n - 1] > t {
      var prefix := times[..n - 1];
      assert prefix[n - 2] == times[n - 2];
      FrequentHeartbeatsKeepAlive(prefix, t);
    }
  }

  /** Without an arm for a whole deadline before `t`, the timer has fired. */
  lemma SilenceExpires(times: seq<int>, t: int)
    requires Ascending(times) && |times| >= 1 && times[0] <= t
    requires forall i :: 0 <= i < |times| ==> times[i] <= t - DeadlineMs || times[i] > t
    ensures Expired(times, t)
  {
  }
}
