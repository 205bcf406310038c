/** The fixed-window rate limiter guarding agent check-ins: one counter per
    client address, reset when its one-minute window has passed. */
module RateLimit {
  import opened Values

  /** Length of a window, in milliseconds. */
  const Window: int := 60000
  /** Above this many entries, a call also drops every expired entry. */
  const PruneThreshold: int := 1000

  datatype Entry = Entry(count: int, resetTime: int)

  function Lookup(m: map<string, Entry>, ip: string): Option<Entry> {
    if ip in m then Some(m[ip]) else None
  }

  /** The entry of an address after one more call at time `now`. A missing
      entry starts a window ending at `now + Window`; a call after the end of
      the window starts a new one. The count grows on every call, also on
      the calls that are refused. */
  function Advance(e: Option<Entry>, now: int): (r: Entry)
    ensures r.resetTime >= now
    ensures e.None? || now > e.value.resetTime ==> r == Entry(1, now + Window)
    ensures e.Some? && now <= e.value.resetTime ==> r == Entry(e.value.count + 1, e.value.resetTime)
  {
    var limit := if e.Some? then e.value else Entry(0, now + Window);
    if now > limit.resetTime then Entry(1, now + Window)
    else Entry(limit.count + 1, limit.resetTime)
  }

  /** The entries whose window has not ended before `t`. */
  function KeepUnexpired(m: map<string, Entry>, t: int): map<string, Entry> {
    map k | k in m && !(t > m[k].resetTime) :: m[k]
  }

  /** The table after a call of address `ip` at `now`. */
  function AfterCheck(m: map<string, Entry>, ip: string, now: int): map<string, Entry> {
    var m1 := m[ip := Advance(Lookup(m, ip), now)];
    if |m1| > PruneThreshold then KeepUnexpired(m1, now) else m1
  }

  class RateLimiter {
    var entries: map<string, Entry>

    constructor ()
      ensures entries == map[]
    {
      entries := map[];
    }

    /** Counts one call of `ip` at `now` and answers whether it is within the
        budget of `maxPerMinute` calls per window. */
    method Check(ip: string, maxPerMinute: int, now: int) returns (allowed: bool)
      modifies this
      ensures entries == AfterCheck(old(entries), ip, now)
      ensures ip in entries && entries[ip] == Advance(Lookup(old(entries), ip), now)
      ensures allowed == (entries[ip].count <= maxPerMinute)
    {
      var limit := if ip in entries then entries[ip] else Entry(0, now + Window);
      if now > limit.resetTime {
        limit := Entry(1, now + Window);
      } else {
        limit := Entry(limit.count + 1, limit.resetTime);
      }
      entries := entries[ip := limit];
      if |entries| > PruneThreshold {
        DropExpired(now);
      }
      allowed := limit.count <= maxPerMinute;
    }

    /** Deletes, one by one, every entry whose window ended before `t`. */
    method DropExpired(t: int)
      modifies this
      ensures entries == KeepUnexpired(old(entries), t)
    {
      var keys := entries.Keys;
      while keys != {}
        invariant keys <= old(entries).Keys
        invariant entries.Keys <= old(entries).Keys
        invariant forall k :: k in keys ==> k in entries && entries[k] == old(entries)[k]
        invariant forall k :: k in old(entries) && k !in keys ==>
          (k in entries <==> !(t > old(entries)[k].resetTime))
        invariant forall k :: k in entries ==> entries[k] == old(entries)[k]
        decreases keys
      {
        var k :| k in keys;
        if t > entries[k].resetTime {
          entries := entries - {k};
        }
        keys := keys - {k};
      }
    }

    /** The periodic sweep: drops entries whose window ended more than one
        window ago. */
    method Sweep(now: int)
      modifies this
      ensures entries == KeepUnexpired(old(entries), now - Window)
      ensures forall k :: k in entries <==> k in old(entries) && now <= old(entries)[k].resetTime + Window
    {
      DropExpired(now - Window);
    }
  }

  /** The answers to successive calls of one address at the given times. */
  function Replay(e: Option<Entry>, times: seq<int>, maxPerMinute: int): (r: seq<bool>)
    ensures |r| == |times|
    decreases |times|
  {
    if times == [] then []
    else
      var e1 := Advance(e, times[0]);
      [e1.count <= maxPerMinute] + Replay(Some(e1), times[1..], maxPerMinute)
  }

  lemma {:induction false} WithinOneWindow(count: int, resetTime: int, times: seq<int>, maxPerMinute: int)
    requires forall i :: 0 <= i < |times| ==> times[i] <= resetTime
    ensures forall i :: 0 <= i < |times| ==>
      Replay(Some(Entry(count, resetTime)), times, maxPerMinute)[i] == (count + i + 1 <= maxPerMinute)
    decreases |times|
  {
    if times != [] {
      var r := Replay(Some(Entry(count, resetTime)), times, maxPerMinute);
      WithinOneWindow(count + 1, resetTime, times[1..], maxPerMinute);
      forall i | 1 <= i < |times|
        ensures r[i] == (count + i + 1 <= maxPerMinute)
      {
        assert r[i] == Replay(Some(Entry(count + 1, resetTime)), times[1..], maxPerMinute)[i - 1];
      }
    }
  }

  /** Within one window (calls no later than one window after the call that
      opened it), exactly the first `maxPerMinute` calls are allowed and every
      later one is refused. */
  lemma ExactBudgetPerWindow(e: Option<Entry>, times: seq<int>, maxPerMinute: int)
    requires times != []
    requires e.None? || times[0] > e.value.resetTime
    requires forall i :: 0 <= i < |times| ==> times[0] <= times[i] <= times[0] + Window
    ensures forall i :: 0 <= i < |times| ==> Replay(e, times, maxPerMinute)[i] == (i < maxPerMinute)
  {
    var r := Replay(e, times, maxPerMinute);
    WithinOneWindow(1, times[0] + Window, times[1..], maxPerMinute);
    forall i | 1 <= i < |times|
      ensures r[i] == (i < maxPerMinute)
    {
      assert r[i] == Replay(Some(Entry(1, times[0] + Window)), times[1..], maxPerMinute)[i - 1];
    }
  }

  /** Once a window has ended, the next call opens a new one and is allowed
      whenever the budget is at least one; an entry the sweep dropped behaves
      exactly like an expired one. */
  lemma NewWindowAfterExpiry(e: Entry, now: int, maxPerMinute: int)
    requires now > e.resetTime && maxPerMinute >= 1
    ensures Advance(Some(e), now) == Advance(None, now) == Entry(1, now + Window)
    ensures Replay(Some(e), [now], maxPerMinute) == [true]
  {
  }

  /** Pruning at a call never removes the caller's own entry, and it removes
      only entries whose window is over. */
  lemma PruneSparesCaller(m: map<string, Entry>, ip: string, now: int)
    ensures ip in AfterCheck(m, ip, now)
    ensures forall k :: k in m && k != ip && k !in AfterCheck(m, ip, now) ==> now > m[k].resetTime
  {
  }
}
