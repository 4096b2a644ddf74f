/** The rate limiter over the cache's fixed-window counter: what one key's counts look like over
    time, and how many requests a span of one window can let through. */
module RateLimit {
  import opened Entities
  import opened MemoryCache

  const RATE_LIMIT_KEY: string := "ratelimit:"

  /** One request through the limiter: the address's counter is hit, and the decision follows from
      the count it has now. A request without an address is refused and touches no counter; a counter
      error refuses only on the paths that fail closed. */
  method DistributedRateLimit(c: MemoryCache, address: string, limit: int, window: int, failClosed: bool, now: Time)
    returns (admitted: bool)
    modifies c
    ensures address == "" ==> !admitted && c.items == old(c.items)
    ensures address != "" ==>
      var hit := Hit(Entry(old(c.items), RATE_LIMIT_KEY + address), window, now);
      && admitted == (if hit.None? then !failClosed else CounterOf(hit.value) <= limit)
      && c.items == if hit.None? then old(c.items) else old(c.items)[RATE_LIMIT_KEY + address := hit.value]
  {
    if address == "" {
      return false;
    }
    var count := c.IncrWindow(RATE_LIMIT_KEY + address, window, now);
    if count.None? {
      return !failClosed;
    }
    return count.value <= limit;
  }

  /** The counter after a hit, when its key is used for counting only. */
  function AfterHit(cur: Option<Item>, window: int, now: Time): (next: Item)
    requires cur.Some? ==> cur.value.value.Counter? && cur.value.expiresAt.Some?
    ensures next.value.Counter? && next.expiresAt.Some?
  {
    Hit(cur, window, now).value
  }

  /** Counts seen by requests at the given instants, from a counter's current entry on. */
  function Counts(cur: Option<Item>, times: seq<Time>, window: int): (counts: seq<int>)
    requires cur.Some? ==> cur.value.value.Counter? && cur.value.expiresAt.Some?
    ensures |counts| == |times|
    decreases |times|
  {
    if times == [] then []
    else
      var next := AfterHit(cur, window, times[0]);
      [next.value.n] + Counts(Some(next), times[1..], window)
  }

  ghost predicate Sorted(times: seq<Time>) {
    forall i, j :: 0 <= i < j < |times| ==> times[i] <= times[j]
  }

  /** How many of the counts are within the limit. */
  function Admitted(counts: seq<int>, limit: int): nat {
    if counts == [] then 0 else (if counts[0] <= limit then 1 else 0) + Admitted(counts[1..], limit)
  }

  /** The entry after all requests. */
  function Last(cur: Option<Item>, times: seq<Time>, window: int): (last: Option<Item>)
    requires cur.Some? ==> cur.value.value.Counter? && cur.value.expiresAt.Some?
    ensures last.Some? ==> last.value.value.Counter? && last.value.expiresAt.Some?
    decreases |times|
  {
    if times == [] then cur else Last(Some(AfterHit(cur, window, times[0])), times[1..], window)
  }

  /** A request continues the running window with the next count, or opens a new one with count 1,
      more than a window after the previous one opened. */
  lemma OneHit(cur: Item, now: Time, window: int)
    requires cur.value.Counter? && cur.expiresAt.Some?
    ensures var next := AfterHit(Some(cur), window, now);
      if now <= cur.expiresAt.value then next.value.n == cur.value.n + 1 && next.expiresAt == cur.expiresAt
      else next.value.n == 1 && next.expiresAt == Some(now + window) && now > cur.expiresAt.value
  {
  }

  /** Within a running window at most the rest of the limit is admitted. */
  lemma {:induction false} RestOfWindow(cur: Item, times: seq<Time>, window: int, limit: int)
    requires cur.value.Counter? && cur.expiresAt.Some?
    requires forall i :: 0 <= i < |times| ==> times[i] <= cur.expiresAt.value
    ensures Admitted(Counts(Some(cur), times, window), limit) <= if cur.value.n < limit then limit - cur.value.n else 0
    decreases |times|
  {
    if times != [] {
      RestOfWindow(AfterHit(Some(cur), window, times[0]), times[1..], window, limit);
    }
  }

  /** From any entry on, a span of one window admits the rest of the running window and one more. */
  lemma {:induction false} SpanFrom(cur: Option<Item>, times: seq<Time>, window: int, limit: int, start: Time)
    requires cur.Some? ==> cur.value.value.Counter? && cur.value.expiresAt.Some? && 1 <= cur.value.value.n
    requires 1 <= limit && (forall i :: 0 <= i < |times| ==> start <= times[i] <= start + window)
    ensures Admitted(Counts(cur, times, window), limit) <=
      limit + (if cur.Some? && cur.value.value.n < limit then limit - cur.value.value.n else 0)
    decreases |times|
  {
    if times != [] {
      var next := AfterHit(cur, window, times[0]);
      if cur.None? || times[0] > cur.value.expiresAt.value {
        RestOfWindow(next, times[1..], window, limit);
      } else {
        SpanFrom(Some(next), times[1..], window, limit, start);
      }
    }
  }

  lemma {:induction false} CountsSplit(cur: Option<Item>, times: seq<Time>, window: int, i: nat)
    requires cur.Some? ==> cur.value.value.Counter? && cur.value.expiresAt.Some?
    requires i <= |times|
    ensures Counts(cur, times, window)[i..] == Counts(Last(cur, times[..i], window), times[i..], window)
    ensures Counts(cur, times, window)[..i] == Counts(cur, times[..i], window)
    decreases i
  {
    if i > 0 {
      var next := Some(AfterHit(cur, window, times[0]));
      CountsSplit(next, times[1..], window, i - 1);
      assert times[..i][1..] == times[1..][..i - 1];
      assert times[1..][i - 1..] == times[i..];
    } else {
      assert times[..0] == [] && times[0..] == times;
    }
  }

  /** The entry after the first i requests is the count of the last of them, in the window that was
      opened that many requests ago. */
  ghost predicate InWindow(times: seq<Time>, counts: seq<int>, window: int, i: nat, entry: Item)
    requires i < |times| == |counts|
  {
    && 1 <= counts[i] <= i + 1
    && entry == Item(Counter(counts[i]), Some(times[i + 1 - counts[i]] + window))
  }

  lemma {:induction false} EntryAfter(times: seq<Time>, window: int, i: nat)
    requires i < |times|
    ensures var last := Last(None, times[..i + 1], window);
      last.Some? && InWindow(times, Counts(None, times, window), window, i, last.value)
    ensures i > 0 ==> 1 <= Counts(None, times, window)[i - 1] <= i
    ensures var counts := Counts(None, times, window);
      if i > 0 && times[i] <= times[i - counts[i - 1]] + window then counts[i] == counts[i - 1] + 1 else counts[i] == 1
    decreases i
  {
    var counts := Counts(None, times, window);
    var before := Last(None, times[..i], window);
    if i > 0 { EntryAfter(times, window, i - 1); } else { assert times[..0] == []; }
    CountsSplit(None, times, window, i);
    assert counts[i] == counts[i..][0] && times[i..][0] == times[i];
    assert counts[i] == AfterHit(before, window, times[i]).value.n;
    LastSnoc(None, times[..i], times[i], window);
    assert times[..i] + [times[i]] == times[..i + 1];
  }

  lemma {:induction false} LastSnoc(cur: Option<Item>, times: seq<Time>, t: Time, window: int)
    requires cur.Some? ==> cur.value.value.Counter? && cur.value.expiresAt.Some?
    ensures Last(cur, times + [t], window) == Some(AfterHit(Last(cur, times, window), window, t))
    decreases |times|
  {
    if times == [] {
      assert [t][1..] == [];
    } else {
      assert (times + [t])[1..] == times[1..] + [t];
      LastSnoc(Some(AfterHit(cur, window, times[0])), times[1..], t, window);
    }
  }

  /** The counts of one key over any sequence of requests run 1, 2, 3 and so on within each window,
      and windows open more than a window apart. */
  lemma WindowShape(times: seq<Time>, window: int, i: nat, j: nat)
    requires Sorted(times) && i < |times| && j < |times|
    ensures var counts := Counts(None, times, window);
      && 1 <= counts[i] <= i + 1
      && (forall k :: i + 1 - counts[i] <= k <= i ==> counts[k] == k - i + counts[i])
      && (counts[i] > 1 ==> times[i] <= times[i + 1 - counts[i]] + window)
      && (i < j && counts[i] == 1 && counts[j] == 1 ==> times[j] > times[i] + window)
  {
    EntryAfter(times, window, i);
    EntryAfter(times, window, j);
    CountDown(times, window, i);
    var counts := Counts(None, times, window);
    if i < j && counts[i] == 1 && counts[j] == 1 {
      EntryAfter(times, window, j - 1);
      NoOverlap(times, window, i, j - 1);
    }
  }

  lemma {:induction false} CountDown(times: seq<Time>, window: int, i: nat)
    requires i < |times|
    ensures var counts := Counts(None, times, window);
      && 1 <= counts[i] <= i + 1
      && (forall k :: i + 1 - counts[i] <= k <= i ==> counts[k] == k - i + counts[i])
      && (counts[i] > 1 ==> times[i] <= times[i + 1 - counts[i]] + window)
    decreases i
  {
    EntryAfter(times, window, i);
    if i > 0 { CountDown(times, window, i - 1); }
  }

  /** The window a request falls in opened at or after any earlier opening. */
  lemma NoOverlap(times: seq<Time>, window: int, i: nat, j: nat)
    requires Sorted(times) && i <= j < |times| && Counts(None, times, window)[i] == 1
    ensures var counts := Counts(None, times, window);
      1 <= counts[j] <= j + 1 && i <= j + 1 - counts[j] && times[i] <= times[j + 1 - counts[j]]
  {
    CountDown(times, window, j);
    var counts := Counts(None, times, window);
    if j + 1 - counts[j] > i { } else { assert counts[i] == i - j + counts[j]; }
  }

  lemma {:induction false} LastPositive(cur: Option<Item>, times: seq<Time>, window: int)
    requires cur.Some? ==> cur.value.value.Counter? && cur.value.expiresAt.Some? && 1 <= cur.value.value.n
    ensures var last := Last(cur, times, window); last.Some? ==> 1 <= last.value.value.n
    decreases |times|
  {
    if times != [] { LastPositive(Some(AfterHit(cur, window, times[0])), times[1..], window); }
  }

  lemma {:induction false} NoneAdmitted(counts: seq<int>, limit: int)
    requires forall i :: 0 <= i < |counts| ==> limit < counts[i]
    ensures Admitted(counts, limit) == 0
  {
    if counts != [] { NoneAdmitted(counts[1..], limit); }
  }

  lemma {:induction false} CountsPositive(cur: Option<Item>, times: seq<Time>, window: int)
    requires cur.Some? ==> cur.value.value.Counter? && cur.value.expiresAt.Some? && 1 <= cur.value.value.n
    ensures forall i :: 0 <= i < |times| ==> 1 <= Counts(cur, times, window)[i]
    decreases |times|
  {
    if times != [] { CountsPositive(Some(AfterHit(cur, window, times[0])), times[1..], window); }
  }

  /** Any stretch of requests that fits in one window's length admits at most 2 * limit - 1 of them,
      whatever came before on the key. */
  lemma SpanBound(times: seq<Time>, window: int, limit: int, i: nat, j: nat)
    requires Sorted(times) && i <= j <= |times|
    requires i < j ==> times[j - 1] - times[i] <= window
    ensures Admitted(Counts(None, times, window)[i..j], limit) <= if 1 <= limit then 2 * limit - 1 else 0
  {
    if limit < 1 {
      CountsPositive(None, times, window);
      NoneAdmitted(Counts(None, times, window)[i..j], limit);
    } else if i < j {
      var last := Last(None, times[..i], window);
      CountsSplit(None, times[..j], window, i);
      CountsSplit(None, times, window, j);
      assert times[..j][..i] == times[..i];
      assert times[..j][i..] == times[i..j];
      assert Counts(None, times, window)[i..j] == Counts(None, times, window)[..j][i..];
      LastPositive(None, times[..i], window);
      SpanFrom(last, times[i..j], window, limit, times[i]);
    }
  }

  function Repeat(t: Time, n: nat): (s: seq<Time>)
    ensures |s| == n && forall k :: 0 <= k < n ==> s[k] == t
  {
    seq(n, _ => t)
  }

  lemma {:induction false} AllAdmitted(cur: Item, t: Time, n: nat, window: int, limit: int)
    requires cur.value.Counter? && cur.expiresAt.Some? && t <= cur.expiresAt.value && cur.value.n + n <= limit
    ensures Admitted(Counts(Some(cur), Repeat(t, n), window), limit) == n
    ensures Last(Some(cur), Repeat(t, n), window) == Some(cur.(value := Counter(cur.value.n + n)))
    decreases n
  {
    if n > 0 {
      assert Repeat(t, n)[1..] == Repeat(t, n - 1);
      AllAdmitted(AfterHit(Some(cur), window, t), t, n - 1, window, limit);
    }
  }

  lemma {:induction false} AdmittedAdds(a: seq<int>, b: seq<int>, limit: int)
    ensures Admitted(a + b, limit) == Admitted(a, limit) + Admitted(b, limit)
    decreases |a|
  {
    if a == [] {
      assert a + b == b;
    } else {
      assert (a + b)[1..] == a[1..] + b;
      AdmittedAdds(a[1..], b, limit);
    }
  }

  /** A window that opens with the first of n <= limit simultaneous requests admits them all. */
  lemma NewWindow(cur: Option<Item>, t: Time, n: nat, window: int, limit: int)
    requires cur.Some? ==> cur.value.value.Counter? && cur.value.expiresAt.Some? && cur.value.expiresAt.value < t
    requires 1 <= n <= limit && 0 <= window
    ensures Admitted(Counts(cur, Repeat(t, n), window), limit) == n
  {
    assert Repeat(t, n)[1..] == Repeat(t, n - 1);
    AllAdmitted(AfterHit(cur, window, t), t, n - 1, window, limit);
  }

  lemma {:induction false} TwoStretches(cur: Item, a: seq<Time>, b: seq<Time>, window: int, limit: int)
    requires cur.value.Counter? && cur.expiresAt.Some?
    ensures Admitted(Counts(Some(cur), a + b, window), limit) ==
      Admitted(Counts(Some(cur), a, window), limit) + Admitted(Counts(Last(Some(cur), a, window), b, window), limit)
  {
    var counts := Counts(Some(cur), a + b, window);
    CountsSplit(Some(cur), a + b, window, |a|);
    assert (a + b)[..|a|] == a && (a + b)[|a|..] == b;
    assert counts == counts[..|a|] + counts[|a|..];
    AdmittedAdds(counts[..|a|], counts[|a|..], limit);
  }

  /** One request opens a window, limit - 1 come at its last instant and limit one tick later. */
  function Burst(window: int, limit: int): seq<Time>
    requires 1 <= limit
  {
    [0] + (Repeat(window, limit - 1) + Repeat(window + 1, limit))
  }

  /** The bound is reached, for every limit and window: all but the first request of a burst come
      within one tick, and 2 * limit - 1 of them are admitted. */
  lemma SpanBoundReached(window: int, limit: int)
    requires 1 <= limit && 1 <= window
    ensures Admitted(Counts(None, Burst(window, limit), window)[1..], limit) == 2 * limit - 1
    ensures forall i :: 1 <= i < |Burst(window, limit)| ==> window <= Burst(window, limit)[i] <= window + 1
  {
    var first := AfterHit(None, window, 0);
    var tail := Repeat(window, limit - 1) + Repeat(window + 1, limit);
    assert Burst(window, limit)[1..] == tail;
    AllAdmitted(first, window, limit - 1, window, limit);
    NewWindow(Last(Some(first), Repeat(window, limit - 1), window), window + 1, limit, window, limit);
    TwoStretches(first, Repeat(window, limit - 1), Repeat(window + 1, limit), window, limit);
  }
}
