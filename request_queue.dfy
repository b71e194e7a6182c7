/** RequestQueue: a FIFO of time-stamped script payloads with an optional
    size bound (maxSize) and an optional age limit (maxAgeInDays). Expired
    entries are purged lazily, at the head, on every read. The clock is an
    integer count of 100-nanosecond ticks, the unit of DateTimeOffset; each
    operation receives the current time `now`. */
module Queue {
  import opened Wrappers

  /** A queued payload and the time it was enqueued. */
  datatype Entry = Entry(queuedDate: int, content: string)

  /** Everything a RequestQueue holds: the entries, oldest first, and its limits. */
  datatype QueueState = QueueState(entries: seq<Entry>, maxSize: int, maxAgeInDays: int)

  /** The payloads of `s`, in queue order. */
  function Payloads(s: seq<Entry>): (r: seq<string>)
    ensures |r| == |s| && forall i :: 0 <= i < |s| ==> r[i] == s[i].content
  {
    if s == [] then [] else [s[0].content] + Payloads(s[1..])
  }

  /** `r` is what is left of `s` after removing some entries at the head. */
  predicate IsSuffix<T(==)>(r: seq<T>, s: seq<T>) {
    |r| <= |s| && r == s[|s| - |r|..]
  }

  /** QueuedDate.AddDays(maxAgeInDays) < now, with 864_000_000_000 ticks in a day. */
  predicate IsExpired(e: Entry, maxAgeInDays: int, now: int) {
    e.queuedDate + maxAgeInDays * 864_000_000_000 < now
  }

  /** What PurgeExpired leaves of `s`: nothing is removed for a negative age
      limit; otherwise exactly the longest run of expired entries at the head. */
  function DropExpired(s: seq<Entry>, maxAgeInDays: int, now: int): (r: seq<Entry>)
    ensures IsSuffix(r, s)
    ensures maxAgeInDays < 0 ==> r == s
    ensures maxAgeInDays >= 0 ==> r == [] || !IsExpired(r[0], maxAgeInDays, now)
  {
    if maxAgeInDays < 0 || s == [] || !IsExpired(s[0], maxAgeInDays, now) then s
    else DropExpired(s[1..], maxAgeInDays, now)
  }

  /** The number of entries the PurgeExcess loop removes from a queue of
      `count` entries. Its guard `i < q.Count - maxSize` is re-evaluated
      against the shrinking count, so it removes half the excess, rounded
      up, rather than all of it. */
  function ExcessCount(count: int, maxSize: int): (k: nat)
    ensures maxSize < 0 || count <= maxSize ==> k == 0
    ensures 0 <= maxSize < count ==> count - maxSize <= 2 * k <= count - maxSize + 1
  {
    if maxSize < 0 || count <= maxSize then 0 else (count - maxSize + 1) / 2
  }

  /** The queue after PurgeExpired. */
  function Purged(q: QueueState, now: int): QueueState {
    q.(entries := DropExpired(q.entries, q.maxAgeInDays, now))
  }

  /** The queue after PurgeExcess. */
  function Trimmed(q: QueueState): QueueState {
    q.(entries := q.entries[ExcessCount(|q.entries|, q.maxSize)..])
  }

  /** The queue after Enqueue(payload) at time `now`: the entry is appended;
      only when maxSize > 1 and the bound is now exceeded are expired and then
      excess entries purged. */
  function Enqueued(q: QueueState, payload: string, now: int): QueueState {
    var grown := q.(entries := q.entries + [Entry(now, payload)]);
    if q.maxSize > 1 && |grown.entries| > q.maxSize then Trimmed(Purged(grown, now)) else grown
  }

  /** The queue after ResetQueueSize(newMaxSize, newMaxAgeInDays). */
  function AfterReset(q: QueueState, newMaxSize: int, newMaxAgeInDays: int, now: int): QueueState {
    Trimmed(Purged(QueueState(q.entries, newMaxSize, newMaxAgeInDays), now))
  }

  /** The queue after TryDequeue, and the payload it hands out (None for the
      null of a failed dequeue). */
  function Dequeued(q: QueueState, now: int): (QueueState, Option<string>) {
    var live := Purged(q, now);
    if live.entries == [] then (live, None)
    else (live.(entries := live.entries[1..]), Some(live.entries[0].content))
  }

  /** The queue after Enqueue of each of `items` in order, all at time `now`. */
  function EnqueueAll(q: QueueState, items: seq<string>, now: int): QueueState {
    if items == [] then q
    else Enqueued(EnqueueAll(q, items[..|items| - 1], now), items[|items| - 1], now)
  }

  class RequestQueue {
    var entries: seq<Entry>
    var maxSize: int
    var maxAgeInDays: int

    function State(): QueueState
      reads this
    {
      QueueState(entries, maxSize, maxAgeInDays)
    }

    /** By default a queue is unbounded (maxSize 0) and never expires (maxAgeInDays -1). */
    constructor (maxSize: int := 0, maxAgeInDays: int := -1)
      ensures State() == QueueState([], maxSize, maxAgeInDays)
    {
      this.maxSize := maxSize;
      this.maxAgeInDays := maxAgeInDays;
      entries := [];
    }

    method IsEmpty(now: int) returns (empty: bool)
      modifies this
      ensures State() == Purged(old(State()), now)
      ensures empty <==> entries == []
    {
      PurgeExpired(now);
      empty := |entries| == 0;
    }

    method Size(now: int) returns (count: nat)
      modifies this
      ensures State() == Purged(old(State()), now)
      ensures count == |entries|
    {
      PurgeExpired(now);
      count := |entries|;
    }

    method ResetQueueSize(newMaxSize: int, newMaxAgeInDays: int, now: int)
      modifies this
      ensures State() == AfterReset(old(State()), newMaxSize, newMaxAgeInDays, now)
    {
      maxSize := newMaxSize;
      maxAgeInDays := newMaxAgeInDays;
      ghost var limited := State();
      assert limited == QueueState(old(entries), newMaxSize, newMaxAgeInDays);
      PurgeExpired(now);
      ghost var live := State();
      PurgeExcess();
      assert State() == Trimmed(live) && live == Purged(limited, now);
    }

    method TryDequeue(now: int) returns (ok: bool, value: Option<string>)
      modifies this
      ensures (State(), value) == Dequeued(old(State()), now)
      ensures ok <==> value.Some?
    {
      PurgeExpired(now);
      if |entries| == 0 {
        ok, value := false, None;
        return;
      }
      value := Some(entries[0].content);
      entries := entries[1..];
      ok := true;
    }

    method Enqueue(value: string, now: int)
      modifies this
      ensures State() == Enqueued(old(State()), value, now)
    {
      entries := entries + [Entry(now, value)];
      if maxSize > 1 && |entries| > maxSize {
        PurgeExpired(now);
        PurgeExcess();
      }
    }

    method ToList(now: int) returns (items: seq<string>)
      modifies this
      ensures State() == Purged(old(State()), now)
      ensures items == Payloads(entries)
    {
      PurgeExpired(now);
      items := Payloads(entries);
    }

    method PurgeExpired(now: int)
      modifies this
      ensures State() == Purged(old(State()), now)
    {
      if maxAgeInDays < 0 {
        return;
      }
      var purge := true;
      while purge && |entries| > 0
        invariant maxSize == old(maxSize) && maxAgeInDays == old(maxAgeInDays)
        invariant DropExpired(entries, maxAgeInDays, now) == DropExpired(old(entries), maxAgeInDays, now)
        invariant !purge ==> entries == DropExpired(entries, maxAgeInDays, now)
        decreases |entries| + (if purge then 1 else 0)
      {
        var head := entries[0];
        if IsExpired(head, maxAgeInDays, now) {
          entries := entries[1..];
        } else {
          purge := false;
        }
      }
    }

    method PurgeExcess()
      modifies this
      ensures State() == Trimmed(old(State()))
    {
      // The source also returns early when q.Count < 0, which cannot happen.
      if maxSize < 0 {
        return;
      }
      var i := 0;
      while i < |entries| - maxSize
        invariant maxSize == old(maxSize) && maxAgeInDays == old(maxAgeInDays)
        invariant 0 <= i <= ExcessCount(|old(entries)|, maxSize)
        invariant entries == old(entries)[i..]
      {
        entries := entries[1..];
        i := i + 1;
      }
    }
  }

  // -----------------------------------------------------------------------
  // Properties of the queue

  /** With a negative age limit nothing ever expires. */
  lemma NeverExpires(q: QueueState, now: int)
    requires q.maxAgeInDays < 0
    ensures Purged(q, now) == q
  {
  }

  /** Purging removes only expired entries. */
  lemma {:induction false} DropExpiredRemovesOnlyExpired(s: seq<Entry>, maxAgeInDays: int, now: int)
    ensures forall i :: 0 <= i < |s| - |DropExpired(s, maxAgeInDays, now)| ==> IsExpired(s[i], maxAgeInDays, now)
  {
    if !(maxAgeInDays < 0 || s == [] || !IsExpired(s[0], maxAgeInDays, now)) {
      DropExpiredRemovesOnlyExpired(s[1..], maxAgeInDays, now);
      forall i | 1 <= i < |s| - |DropExpired(s, maxAgeInDays, now)|
        ensures IsExpired(s[i], maxAgeInDays, now)
      {
        assert s[i] == s[1..][i - 1];
      }
    }
  }

  /** Purging twice at the same time purges nothing more. */
  lemma PurgedIdempotent(q: QueueState, now: int)
    ensures Purged(Purged(q, now), now) == Purged(q, now)
  {
    var r := DropExpired(q.entries, q.maxAgeInDays, now);
    assert DropExpired(r, q.maxAgeInDays, now) == r;
  }

  /** Enqueue appends at the tail and removes nothing when the queue is not
      bounded (maxSize <= 1) or stays within its bound. */
  lemma EnqueueAppends(q: QueueState, payload: string, now: int)
    requires q.maxSize <= 1 || |q.entries| < q.maxSize
    ensures Enqueued(q, payload, now).entries == q.entries + [Entry(now, payload)]
  {
  }

  /** Enqueue only ever removes entries at the head of the grown queue. */
  lemma EnqueuedIsSuffix(q: QueueState, payload: string, now: int)
    ensures IsSuffix(Enqueued(q, payload, now).entries, q.entries + [Entry(now, payload)])
  {
    var grown := q.entries + [Entry(now, payload)];
    if q.maxSize > 1 && |grown| > q.maxSize {
      var live := DropExpired(grown, q.maxAgeInDays, now);
      var r := live[ExcessCount(|live|, q.maxSize)..];
      assert r == grown[|grown| - |r|..];
    }
  }

  /** An entry enqueued at `now` is never expired at `now`, so purging keeps it. */
  lemma FreshEntrySurvivesPurge(s: seq<Entry>, e: Entry, maxAgeInDays: int, now: int)
    requires e.queuedDate == now
    ensures var r := DropExpired(s + [e], maxAgeInDays, now);
      |r| >= 1 && r[|r| - 1] == e
  {
    DropExpiredRemovesOnlyExpired(s + [e], maxAgeInDays, now);
    if maxAgeInDays >= 0 {
      assert !IsExpired((s + [e])[|s|], maxAgeInDays, now);
    }
  }

  /** On a bounded queue (maxSize > 1) within its bound, Enqueue keeps it
      within its bound, drops only entries at the head, and the new payload
      ends up last. */
  lemma EnqueueKeepsBound(q: QueueState, payload: string, now: int)
    requires q.maxSize > 1 && |q.entries| <= q.maxSize
    ensures var r := Enqueued(q, payload, now).entries;
      && |r| <= q.maxSize
      && IsSuffix(r, q.entries + [Entry(now, payload)])
      && |r| >= 1 && r[|r| - 1] == Entry(now, payload)
  {
    EnqueuedIsSuffix(q, payload, now);
    var grown := q.entries + [Entry(now, payload)];
    if |grown| > q.maxSize {
      FreshEntrySurvivesPurge(q.entries, Entry(now, payload), q.maxAgeInDays, now);
      var live := DropExpired(grown, q.maxAgeInDays, now);
      var k := ExcessCount(|live|, q.maxSize);
      assert k <= 1 && k < |live|;
      assert Enqueued(q, payload, now).entries == live[k..];
    }
  }

  /** PurgeExcess can leave the queue over its bound: with two or more
      entries too many it keeps maxSize plus half the excess (rounded down). */
  lemma TrimmedLeavesOverflow(q: QueueState)
    requires 0 <= q.maxSize && |q.entries| >= q.maxSize + 2
    ensures |Trimmed(q).entries| == q.maxSize + (|q.entries| - q.maxSize) / 2
    ensures |Trimmed(q).entries| > q.maxSize
  {
  }

  /** ResetQueueSize(1, -1) on five entries leaves three, which is still over
      the limit; calling it again leaves two. */
  lemma ResetQueueSizeNeedNotReachLimit(e: Entry, now: int)
    ensures var q := QueueState([e, e, e, e, e], 0, -1);
      && |AfterReset(q, 1, -1, now).entries| == 3
      && |AfterReset(AfterReset(q, 1, -1, now), 1, -1, now).entries| == 2
  {
    var q := QueueState([e, e, e, e, e], 0, -1);
    assert ExcessCount(5, 1) == 2;
    assert ExcessCount(3, 1) == 1;
  }

  /** ResetQueueSize on a queue whose live entries already fit only purges
      expired entries, so repeating it changes nothing further. */
  lemma ResetOnCompliantQueue(q: QueueState, newMaxSize: int, newMaxAgeInDays: int, now: int)
    requires |DropExpired(q.entries, newMaxAgeInDays, now)| <= newMaxSize || newMaxSize < 0
    ensures AfterReset(q, newMaxSize, newMaxAgeInDays, now).entries == DropExpired(q.entries, newMaxAgeInDays, now)
    ensures AfterReset(AfterReset(q, newMaxSize, newMaxAgeInDays, now), newMaxSize, newMaxAgeInDays, now)
         == AfterReset(q, newMaxSize, newMaxAgeInDays, now)
  {
    PurgedIdempotent(QueueState(q.entries, newMaxSize, newMaxAgeInDays), now);
  }

  /** Entries are in time order (true when the clock never runs backwards). */
  predicate TimeOrdered(s: seq<Entry>) {
    forall i, j :: 0 <= i < j < |s| ==> s[i].queuedDate <= s[j].queuedDate
  }

  /** On a time-ordered queue, purging removes every expired entry: nothing
      that outlived the age limit is ever counted or handed out. */
  lemma {:induction false} PurgedLeavesOnlyLive(q: QueueState, now: int)
    requires q.maxAgeInDays >= 0 && TimeOrdered(q.entries)
    ensures forall e :: e in Purged(q, now).entries ==> !IsExpired(e, q.maxAgeInDays, now)
  {
    var s := q.entries;
    var r := Purged(q, now).entries;
    var off := |s| - |r|;
    forall j | 0 <= j < |r| ensures !IsExpired(r[j], q.maxAgeInDays, now) {
      assert r[0] == s[off] && r[j] == s[off + j];
      assert s[off].queuedDate <= s[off + j].queuedDate;
    }
  }

  /** Enqueueing at a time no earlier than the last entry keeps the queue in time order. */
  lemma EnqueueKeepsTimeOrder(q: QueueState, payload: string, now: int)
    requires TimeOrdered(q.entries)
    requires q.entries == [] || q.entries[|q.entries| - 1].queuedDate <= now
    ensures TimeOrdered(Enqueued(q, payload, now).entries)
  {
    var grown := q.entries + [Entry(now, payload)];
    forall i, j | 0 <= i < j < |grown| ensures grown[i].queuedDate <= grown[j].queuedDate {
      if j < |q.entries| {
        assert grown[i] == q.entries[i] && grown[j] == q.entries[j];
      } else {
        assert grown[i] == q.entries[i];
        assert q.entries[i].queuedDate <= q.entries[|q.entries| - 1].queuedDate;
      }
    }
    EnqueuedIsSuffix(q, payload, now);
    SuffixKeepsTimeOrder(Enqueued(q, payload, now).entries, grown);
  }

  lemma SuffixKeepsTimeOrder(r: seq<Entry>, s: seq<Entry>)
    requires TimeOrdered(s) && IsSuffix(r, s)
    ensures TimeOrdered(r)
  {
    forall i, j | 0 <= i < j < |r| ensures r[i].queuedDate <= r[j].queuedDate {
      assert r[i] == s[|s| - |r| + i];
      assert r[j] == s[|s| - |r| + j];
    }
  }

  /** The last `n` elements of `s` (all of them when there are fewer). */
  function Newest<T>(s: seq<T>, n: nat): (r: seq<T>)
    ensures |r| == if |s| < n then |s| else n
  {
    if |s| <= n then s else s[|s| - n..]
  }

  lemma PayloadsAppend(s: seq<Entry>, e: Entry)
    ensures Payloads(s + [e]) == Payloads(s) + [e.content]
  {
  }

  lemma PayloadsDrop(s: seq<Entry>, k: nat)
    requires k <= |s|
    ensures Payloads(s[k..]) == Payloads(s)[k..]
  {
  }

  /** Keeping the newest `n` before or after appending one more is the same. */
  lemma NewestAppend<T>(s: seq<T>, x: T, n: nat)
    requires n >= 1
    ensures Newest(s + [x], n) == Newest(Newest(s, n) + [x], n)
  {
    if |s| > n {
      assert (s + [x])[|s| + 1 - n..] == (s[|s| - n..] + [x])[1..];
    }
  }

  /** Enqueue on a bounded, non-expiring queue within its bound. */
  lemma EnqueuedWithoutExpiry(q: QueueState, payload: string, now: int)
    requires q.maxSize > 1 && q.maxAgeInDays < 0 && |q.entries| <= q.maxSize
    ensures var grown := q.entries + [Entry(now, payload)];
      Enqueued(q, payload, now) == q.(entries := if |grown| > q.maxSize then grown[1..] else grown)
  {
    var grown := q.(entries := q.entries + [Entry(now, payload)]);
    NeverExpires(grown, now);
    if |grown.entries| > q.maxSize {
      assert ExcessCount(|grown.entries|, q.maxSize) == 1;
    }
  }

  /** One enqueue keeps the newest payloads of a bounded, non-expiring queue. */
  lemma KeepsNewestStep(p: QueueState, before: seq<string>, x: string, now: int)
    requires p.maxSize > 1 && p.maxAgeInDays < 0 && |p.entries| <= p.maxSize
    requires Payloads(p.entries) == Newest(before, p.maxSize)
    ensures var r := Enqueued(p, x, now);
      && r.maxSize == p.maxSize && r.maxAgeInDays == p.maxAgeInDays && |r.entries| <= p.maxSize
      && Payloads(r.entries) == Newest(before + [x], p.maxSize)
  {
    EnqueuedWithoutExpiry(p, x, now);
    var grown := p.entries + [Entry(now, x)];
    PayloadsAppend(p.entries, Entry(now, x));
    NewestAppend(before, x, p.maxSize);
    if |grown| > p.maxSize {
      PayloadsDrop(grown, 1);
    }
  }

  /** `r` has the limits of `q`, is within its bound, and holds the
      maxSize newest of the payloads of `q` followed by `items`. */
  predicate HoldsNewest(r: QueueState, q: QueueState, items: seq<string>) {
    && r.maxSize == q.maxSize && r.maxAgeInDays == q.maxAgeInDays && |r.entries| <= q.maxSize
    && Payloads(r.entries) == Newest(Payloads(q.entries) + items, q.maxSize)
  }

  /** On a bounded, non-expiring queue that starts within its bound, any run
      of enqueues keeps exactly the maxSize most recent payloads. */
  lemma {:induction false} EnqueueAllKeepsNewest(q: QueueState, items: seq<string>, now: int)
    requires q.maxSize > 1 && q.maxAgeInDays < 0 && |q.entries| <= q.maxSize
    ensures HoldsNewest(EnqueueAll(q, items, now), q, items)
  {
    if items == [] {
      assert Payloads(q.entries) + items == Payloads(q.entries);
    } else {
      var init := items[..|items| - 1];
      var x := items[|items| - 1];
      EnqueueAllKeepsNewest(q, init, now);
      var p := EnqueueAll(q, init, now);
      assert EnqueueAll(q, items, now) == Enqueued(p, x, now);
      KeepsNewestStep(p, Payloads(q.entries) + init, x, now);
      assert Payloads(q.entries) + init + [x] == Payloads(q.entries) + items;
    }
  }

  /** On a queue that is not bounded (maxSize <= 1), enqueueing a run of
      payloads appends them all, in order, whatever the age limit. */
  lemma {:induction false} EnqueueAllUnboundedAppends(q: QueueState, items: seq<string>, now: int)
    requires q.maxSize <= 1
    ensures EnqueueAll(q, items, now).maxSize == q.maxSize
    ensures EnqueueAll(q, items, now).maxAgeInDays == q.maxAgeInDays
    ensures Payloads(EnqueueAll(q, items, now).entries) == Payloads(q.entries) + items
  {
    if items != [] {
      var init := items[..|items| - 1];
      EnqueueAllUnboundedAppends(q, init, now);
      var p := EnqueueAll(q, init, now);
      assert Payloads(p.entries + [Entry(now, items[|items| - 1])]) == Payloads(p.entries) + [items[|items| - 1]];
      assert init + [items[|items| - 1]] == items;
    }
  }
}
