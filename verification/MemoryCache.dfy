/** The in-process cache: a timed map with lazy deletion, a janitor, an unlock-then-relock read,
    atomic take and windowed counters. */
module MemoryCache {
  import opened Entities

  type Key = string

  /** Counters are integers; everything else is an opaque value, named by the Set that stored it. */
  datatype Value = Counter(n: int) | Stored(tag: nat)

  /** No expiry is the zero time of the original. */
  datatype Item = Item(value: Value, expiresAt: Option<Time>)
  {
    predicate Expired(now: Time) {
      expiresAt.Some? && now > expiresAt.value
    }

    /** The test of the read path under the shared lock; stricter than !Expired at the instant of
        expiry, which is why the read takes the lock again. */
    predicate SurelyLive(now: Time) {
      expiresAt.None? || now < expiresAt.value
    }
  }

  type Items = map<Key, Item>

  // ----- the specification: an entry is live exactly while now is at most its expiry -----

  function LiveItem(m: Items, k: Key, now: Time): Option<Item> {
    if k in m && !m[k].Expired(now) then Some(m[k]) else None
  }

  function Lookup(m: Items, k: Key, now: Time): Option<Value> {
    if LiveItem(m, k, now).Some? then Some(m[k].value) else None
  }

  /** A ttl that is absent or not positive means no expiry. */
  function Put(m: Items, k: Key, v: Value, ttl: Option<int>, now: Time): Items {
    m[k := Item(v, if ttl.Some? && ttl.value > 0 then Some(now + ttl.value) else None)]
  }

  function Remove(m: Items, k: Key): Items {
    m - {k}
  }

  /** The counter after one more hit: a fresh window when the old one is over, and the window's
      end is set once. None is the wrong-type error. */
  function Hit(cur: Option<Item>, window: int, now: Time): Option<Item> {
    if cur.None? || cur.value.Expired(now) then Some(Item(Counter(1), Some(now + window)))
    else if !cur.value.value.Counter? then None
    else Some(Item(Counter(cur.value.value.n + 1),
                   if cur.value.expiresAt.Some? then cur.value.expiresAt else Some(now + window)))
  }

  function Entry(m: Items, k: Key): Option<Item> {
    if k in m then Some(m[k]) else None
  }

  // ----- the implementation -----

  class MemoryCache {
    var items: Items

    constructor ()
      ensures items == map[]
    {
      items := map[];
    }

    method Set(key: Key, value: Value, ttl: Option<int>, now: Time)
      modifies this
      ensures items == Put(old(items), key, value, ttl, now)
      ensures items ==
        old(items)[key := Item(value, if ttl.None? || ttl.value <= 0 then None else Some(now + ttl.value))]
    {
      var item := Item(value, None);
      if ttl.Some? && ttl.value > 0 {
        item := item.(expiresAt := Some(now + ttl.value));
      }
      items := items[key := item];
    }

    /** First half of getLiveItem, under the shared lock. None in `answer` means: release it, take
        the exclusive lock and look again. */
    method ReadShared(key: Key, now: Time) returns (answer: Option<Option<Item>>)
      ensures answer.Some? ==> answer.value == LiveItem(items, key, now)
      ensures answer.None? <==> key in items && !items[key].SurelyLive(now)
    {
      if key !in items {
        return Some(None);
      }
      if items[key].SurelyLive(now) {
        return Some(Some(items[key]));
      }
      return None;
    }

    /** Second half, under the exclusive lock: the entry is read again, and deleted only if the
        one found now has expired. */
    method ReadExclusive(key: Key, now: Time) returns (answer: Option<Item>)
      modifies this
      ensures answer == LiveItem(old(items), key, now)
      ensures items == if key in old(items) && old(items)[key].Expired(now) then Remove(old(items), key) else old(items)
    {
      if key !in items {
        return None;
      }
      answer := Some(items[key]);
      if answer.value.Expired(now) {
        items := items - {key};
        answer := None;
      }
    }

    method GetAndDelete(key: Key, now: Time) returns (answer: Option<Value>)
      modifies this
      ensures answer == Lookup(old(items), key, now)
      ensures items == Remove(old(items), key)
    {
      if key !in items || items[key].Expired(now) {
        items := items - {key};
        return None;
      }
      answer := Some(items[key].value);
      items := items - {key};
    }

    method Delete(key: Key)
      modifies this
      ensures items == Remove(old(items), key)
    {
      items := items - {key};
    }

    method IncrWindow(key: Key, window: int, now: Time) returns (count: Option<int>)
      modifies this
      ensures var hit := Hit(Entry(old(items), key), window, now);
        if hit.None? then count.None? && items == old(items)
        else hit.value.value.Counter? && count == Some(hit.value.value.n) && items == old(items)[key := hit.value]
      ensures var cur := LiveItem(old(items), key, now);
        if cur.None? then count == Some(1) && items == old(items)[key := Item(Counter(1), Some(now + window))]
        else if !cur.value.value.Counter? then count.None? && items == old(items)
        else count == Some(cur.value.value.n + 1)
    {
      var val := 0;
      var expiresAt: Option<Time> := None;
      if key in items && !items[key].Expired(now) {
        if !items[key].value.Counter? {
          return None;
        }
        val := items[key].value.n;
        expiresAt := items[key].expiresAt;
      }
      val := val + 1;
      if expiresAt.None? {
        expiresAt := Some(now + window);
      }
      items := items[key := Item(Counter(val), expiresAt)];
      count := Some(val);
    }

    /** The janitor's pass. */
    method DeleteExpired(now: Time)
      modifies this
      ensures items == Swept(old(items), now)
      ensures forall k :: k in items <==>
        k in old(items) && (old(items)[k].expiresAt.None? || now <= old(items)[k].expiresAt.value)
      ensures forall k :: k in items ==> items[k] == old(items)[k]
    {
      var todo := items.Keys;
      while todo != {}
        invariant todo <= old(items).Keys
        invariant items.Keys <= old(items).Keys
        invariant forall k :: k in items ==> items[k] == old(items)[k]
        invariant forall k :: k in todo ==> k in items
        invariant forall k :: k in old(items) && k !in todo ==> (k in items <==> !old(items)[k].Expired(now))
        decreases todo
      {
        var key :| key in todo;
        if items[key].Expired(now) {
          items := items - {key};
        }
        todo := todo - {key};
      }
      assert items == Swept(old(items), now);
    }
  }

  function Swept(m: Items, now: Time): Items {
    map k | k in m && !m[k].Expired(now) :: m[k]
  }

  // ----- runs: the atomic sections of concurrent calls, in lock order -----

  datatype Op =
    | OpSet(key: Key, value: Value, ttl: Option<int>)
    | OpReadShared(key: Key)
    | OpReadExclusive(key: Key)
    | OpTake(key: Key)
    | OpDelete(key: Key)
    | OpIncr(key: Key, window: int)
    | OpJanitor

  datatype Reply = Silent | Found(item: Option<Item>) | Taken(value: Option<Value>) | Count(count: Option<int>)

  datatype Event = Event(op: Op, now: Time)

  /** What the implementation does and answers; a shared read that must take the lock again
      answers nothing yet. */
  function Act(m: Items, e: Event): (Items, Reply) {
    match e.op
    case OpSet(k, v, ttl) => (Put(m, k, v, ttl, e.now), Silent)
    case OpReadShared(k) =>
      if k in m && !m[k].SurelyLive(e.now) then (m, Silent) else (m, Found(LiveItem(m, k, e.now)))
    case OpReadExclusive(k) =>
      (if k in m && m[k].Expired(e.now) then Remove(m, k) else m, Found(LiveItem(m, k, e.now)))
    case OpTake(k) => (Remove(m, k), Taken(Lookup(m, k, e.now)))
    case OpDelete(k) => (Remove(m, k), Silent)
    case OpIncr(k, w) =>
      var hit := Hit(Entry(m, k), w, e.now);
      if hit.None? then (m, Count(None)) else (m[k := hit.value], Count(Some(CounterOf(hit.value))))
    case OpJanitor => (Swept(m, e.now), Silent)
  }

  function CounterOf(i: Item): int {
    if i.value.Counter? then i.value.n else 0
  }

  /** The timed map itself: reads and the janitor never change it. */
  function Specify(m: Items, e: Event): (Items, Reply) {
    match e.op
    case OpSet(k, v, ttl) => (Put(m, k, v, ttl, e.now), Silent)
    case OpReadShared(k) => (m, Found(LiveItem(m, k, e.now)))
    case OpReadExclusive(k) => (m, Found(LiveItem(m, k, e.now)))
    case OpTake(k) => (Remove(m, k), Taken(Lookup(m, k, e.now)))
    case OpDelete(k) => (Remove(m, k), Silent)
    case OpIncr(k, w) =>
      var hit := Hit(LiveItem(m, k, e.now), w, e.now);
      if hit.None? then (m, Count(None)) else (m[k := hit.value], Count(Some(CounterOf(hit.value))))
    case OpJanitor => (m, Silent)
  }

  ghost predicate Monotone(events: seq<Event>, from: Time) {
    && (forall i :: 0 <= i < |events| ==> from <= events[i].now)
    && (forall i, j :: 0 <= i < j < |events| ==> events[i].now <= events[j].now)
  }

  function Replies(m: Items, events: seq<Event>): seq<Reply>
    decreases |events|
  {
    if events == [] then [] else [Act(m, events[0]).1] + Replies(Act(m, events[0]).0, events[1..])
  }

  function SpecReplies(m: Items, events: seq<Event>): seq<Reply>
    decreases |events|
  {
    if events == [] then [] else [Specify(m, events[0]).1] + SpecReplies(Specify(m, events[0]).0, events[1..])
  }

  /** From now on, the two maps hold the same live entries. */
  ghost predicate Agree(c: Items, a: Items, now: Time) {
    forall k :: (k in c || k in a) ==>
      Entry(c, k) == Entry(a, k) || (LiveItem(c, k, now).None? && LiveItem(a, k, now).None?)
  }

  lemma AgreeLater(c: Items, a: Items, now: Time, later: Time)
    requires Agree(c, a, now) && now <= later
    ensures Agree(c, a, later)
    ensures forall k :: LiveItem(c, k, later) == LiveItem(a, k, later)
  {
  }

  /** One atomic section: the answer, if one is given, is the timed map's, and the maps still agree. */
  lemma ActRefines(c: Items, a: Items, e: Event)
    requires Agree(c, a, e.now)
    ensures Agree(Act(c, e).0, Specify(a, e).0, e.now)
    ensures Act(c, e).1 == Specify(a, e).1 || (e.op.OpReadShared? && Act(c, e).1 == Silent)
  {
    AgreeLater(c, a, e.now, e.now);
    match e.op
    case OpSet(k, v, ttl) =>
    case OpReadShared(k) => assert LiveItem(c, k, e.now) == LiveItem(a, k, e.now);
    case OpReadExclusive(k) => assert LiveItem(c, k, e.now) == LiveItem(a, k, e.now);
    case OpTake(k) => assert LiveItem(c, k, e.now) == LiveItem(a, k, e.now);
    case OpDelete(k) =>
    case OpIncr(k, w) => assert LiveItem(c, k, e.now) == LiveItem(a, k, e.now);
    case OpJanitor =>
  }

  /** The cache refines the timed map: in every interleaving of the locked sections of concurrent
      calls, every answer is the timed map's answer at the instant it is given. Lazy deletion, the
      janitor and the second locking are unobservable. */
  lemma {:induction false} Refines(c: Items, a: Items, events: seq<Event>, from: Time)
    requires Agree(c, a, from) && Monotone(events, from)
    ensures |Replies(c, events)| == |SpecReplies(a, events)| == |events|
    ensures forall i :: 0 <= i < |events| ==>
      || Replies(c, events)[i] == SpecReplies(a, events)[i]
      || (events[i].op.OpReadShared? && Replies(c, events)[i] == Silent)
    decreases |events|
  {
    if events != [] {
      var e := events[0];
      AgreeLater(c, a, from, e.now);
      ActRefines(c, a, e);
      assert Monotone(events[1..], e.now);
      Refines(Act(c, e).0, Specify(a, e).0, events[1..], e.now);
    }
  }

  // ----- how long an entry lives -----

  /** The operation replaces, removes or counts the entry of k. */
  predicate Writes(o: Op, k: Key) {
    (o.OpSet? || o.OpTake? || o.OpDelete? || o.OpIncr?) && o.key == k
  }

  /** The cache before event n of a run. */
  function StateAt(m: Items, events: seq<Event>, n: nat): Items
    requires n <= |events|
  {
    if n == 0 then m else Act(StateAt(m, events, n - 1), events[n - 1]).0
  }

  lemma {:induction false} StateAtTail(m: Items, events: seq<Event>, n: nat)
    requires 0 < n <= |events|
    ensures StateAt(m, events, n) == StateAt(Act(m, events[0]).0, events[1..], n - 1)
  {
    if n > 1 {
      StateAtTail(m, events, n - 1);
      assert events[n - 1] == events[1..][n - 2];
    }
  }

  lemma {:induction false} ReplyAt(m: Items, events: seq<Event>, n: nat)
    requires n < |events|
    ensures |Replies(m, events)| == |events| && Replies(m, events)[n] == Act(StateAt(m, events, n), events[n]).1
    decreases |events|
  {
    if n > 0 {
      ReplyAt(Act(m, events[0]).0, events[1..], n - 1);
      StateAtTail(m, events, n);
    } else {
      if |events| > 1 { ReplyAt(Act(m, events[0]).0, events[1..], 0); }
    }
  }

  /** An entry that nobody writes is there as it was, or gone because it had expired. */
  lemma {:induction false} EntryStays(m: Items, events: seq<Event>, from: Time, i: nat, j: nat)
    requires Monotone(events, from) && i < j <= |events| && events[i].op.OpSet?
    requires forall n :: i < n < j ==> !Writes(events[n].op, events[i].op.key)
    ensures var (k, item) := (events[i].op.key, StateAt(m, events, i + 1)[events[i].op.key]);
      var s := StateAt(m, events, j);
      if k in s then s[k] == item else item.expiresAt.Some? && events[j - 1].now > item.expiresAt.value
    decreases j
  {
    if i + 1 < j {
      EntryStays(m, events, from, i, j - 1);
      assert !Writes(events[j - 1].op, events[i].op.key);
    }
  }

  /** The lifetime of an entry, over every run: a value set at t with lifetime d, and neither written
      nor taken since, is answered by a read or a take at now if and only if now is at most t + d;
      set without a positive lifetime it is always answered. A shared read may instead ask to look
      again, but only from t + d on. */
  lemma SetIsAnswered(m: Items, events: seq<Event>, from: Time, i: nat, j: nat)
    requires Monotone(events, from) && i < j < |events| && events[i].op.OpSet?
    requires forall n :: i < n < j ==> !Writes(events[n].op, events[i].op.key)
    ensures |Replies(m, events)| == |events|
    ensures var (put, e) := (events[i], events[j]);
      var live := put.op.ttl.None? || put.op.ttl.value <= 0 || e.now <= put.now + put.op.ttl.value;
      && (e.op == OpTake(put.op.key) ==> Replies(m, events)[j] == Taken(if live then Some(put.op.value) else None))
      && (e.op == OpReadExclusive(put.op.key) || e.op == OpReadShared(put.op.key) ==>
            || (Replies(m, events)[j].Found? && Replies(m, events)[j].item.Some? == live &&
                (live ==> Replies(m, events)[j].item.value.value == put.op.value))
            || (e.op.OpReadShared? && Replies(m, events)[j] == Silent &&
                put.op.ttl.Some? && put.op.ttl.value > 0 && put.now + put.op.ttl.value <= e.now))
  {
    ReplyAt(m, events, j);
    EntryStays(m, events, from, i, j);
    assert events[j - 1].now <= events[j].now;
  }

  /** A value set between the two halves of a read is what the second half answers, and stays. */
  lemma SetBetweenLocks(m: Items, k: Key, v: Value, ttl: Option<int>, at: Time, now: Time)
    requires at <= now && (ttl.Some? && ttl.value > 0 ==> now <= at + ttl.value)
    ensures var s := Put(m, k, v, ttl, at);
      Act(s, Event(OpReadExclusive(k), now)) == (s, Found(Some(s[k]))) && s[k].value == v
  {
  }

  // ----- use once -----

  predicate Holds(m: Items, k: Key, tag: nat) {
    k in m && m[k].value == Stored(tag)
  }

  /** How many takes of the run answer the value named `tag`. */
  function Takes(m: Items, events: seq<Event>, tag: nat): nat
    decreases |events|
  {
    if events == [] then 0
    else (if Act(m, events[0]).1 == Taken(Some(Stored(tag))) then 1
      else 0) + Takes(Act(m, events[0]).0, events[1..], tag)
  }

  ghost predicate NeverSet(events: seq<Event>, tag: nat) {
    forall i :: 0 <= i < |events| && events[i].op.OpSet? ==> events[i].op.value != Stored(tag)
  }

  ghost predicate AtMostOneHolder(m: Items, tag: nat) {
    forall k, l :: Holds(m, k, tag) && Holds(m, l, tag) ==> k == l
  }

  lemma ActHolders(m: Items, e: Event, tag: nat)
    requires e.op.OpSet? ==> e.op.value != Stored(tag)
    ensures forall k :: Holds(Act(m, e).0, k, tag) ==> Holds(m, k, tag)
    ensures Act(m, e).1 == Taken(Some(Stored(tag))) ==>
      e.op.OpTake? && Holds(m, e.op.key, tag) && !Holds(Act(m, e).0, e.op.key, tag)
  {
  }

  lemma {:induction false} NotTaken(m: Items, events: seq<Event>, tag: nat)
    requires (forall k :: !Holds(m, k, tag)) && NeverSet(events, tag)
    ensures Takes(m, events, tag) == 0
    decreases |events|
  {
    if events != [] {
      ActHolders(m, events[0], tag);
      NotTaken(Act(m, events[0]).0, events[1..], tag);
    }
  }

  lemma {:induction false} TakenAtMostOnceLater(m: Items, events: seq<Event>, tag: nat)
    requires AtMostOneHolder(m, tag) && NeverSet(events, tag)
    ensures Takes(m, events, tag) <= 1
    decreases |events|
  {
    if events != [] {
      var e := events[0];
      ActHolders(m, e, tag);
      if Act(m, e).1 == Taken(Some(Stored(tag))) {
        NotTaken(Act(m, e).0, events[1..], tag);
      } else {
        TakenAtMostOnceLater(Act(m, e).0, events[1..], tag);
      }
    }
  }

  /** Each Set is taken by at most one GetAndDelete, in every interleaving. */
  lemma {:induction false} TakenAtMostOnce(m: Items, events: seq<Event>, tag: nat, i: nat)
    requires forall k :: !Holds(m, k, tag)
    requires i < |events| && events[i].op.OpSet? && events[i].op.value == Stored(tag)
    requires forall j :: 0 <= j < |events| && j != i && events[j].op.OpSet? ==> events[j].op.value != Stored(tag)
    ensures Takes(m, events, tag) <= 1
    decreases |events|
  {
    var e := events[0];
    if i == 0 {
      forall k | Holds(Act(m, e).0, k, tag) ensures k == e.op.key { assert !Holds(m, k, tag); }
      forall j | 0 <= j < |events[1..]| && events[1..][j].op.OpSet? ensures events[1..][j].op.value != Stored(tag) {
        assert events[1..][j] == events[j + 1];
      }
      TakenAtMostOnceLater(Act(m, e).0, events[1..], tag);
    } else {
      ActHolders(m, e, tag);
      TakenAtMostOnce(Act(m, e).0, events[1..], tag, i - 1);
    }
  }
}
