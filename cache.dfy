/**
 * The query cache: an LRU map from query keys to record lists whose
 * entries also expire after a time-to-live, with hit and miss counters.
 *
 * The LRU order is a sequence of slots, least recently used first; a
 * lookup that hits, and a store, move their slot to the end. Time is the
 * monotonic clock in milliseconds, passed in as `now`.
 */
module Cache {
  import opened Wrappers
  import opened Models
  import opened Strings
  import opened Grouping
  import opened ProcessingConfig

  /** `CacheConfig`: the entry bound and the time-to-live in seconds. */
  datatype CacheConfig = CacheConfig(maxEntries: nat, ttlSeconds: nat)

  /** `CacheConfig::default()`: 50 entries, five minutes. */
  function DefaultCacheConfig(): (c: CacheConfig)
    ensures c.maxEntries == 50 && c.ttlSeconds == 300
  {
    CacheConfig(50, 300)
  }

  /**
   * `CacheKey`: table, time range, the tag list in ascending order, and
   * the processing configuration (the source keeps a 64-bit hash of all
   * eight of its fields, 0 for none; the model keeps the value itself).
   */
  datatype CacheKey = CacheKey(
    table: string,
    startTime: string,
    endTime: string,
    tags: seq<string>,
    processingConfig: Option<DataProcessingConfig>)

  /** `CacheKey::new`: a missing tag list is the empty one; tags are sorted, duplicates kept. */
  function NewCacheKey(table: string, startTime: string, endTime: string, tags: Option<seq<string>>,
                       config: Option<DataProcessingConfig>): (k: CacheKey)
    ensures k.table == table && k.startTime == startTime && k.endTime == endTime
    ensures Sorting.SortedBy(k.tags, StrLe)
    ensures multiset(k.tags) == multiset(tags.GetOr([]))
    ensures k.processingConfig == config
  {
    CacheKey(table, startTime, endTime, SortStrings(tags.GetOr([])), config)
  }

  /**
   * Two tag lists give the same key exactly when they hold the same tags
   * the same number of times: order never matters, multiplicity does.
   */
  lemma KeyIgnoresTagOrder(table: string, st: string, et: string, a: seq<string>, b: seq<string>,
                           config: Option<DataProcessingConfig>)
    ensures NewCacheKey(table, st, et, Some(a), config) == NewCacheKey(table, st, et, Some(b), config)
      <==> multiset(a) == multiset(b)
  {
    SortStringsUnique(a, b);
  }

  /** No tag list and an empty tag list give the same key. */
  lemma KeyNoTagsIsEmptyTags(table: string, st: string, et: string, config: Option<DataProcessingConfig>)
    ensures NewCacheKey(table, st, et, None, config) == NewCacheKey(table, st, et, Some([]), config)
  {
  }

  /** The source's tests: reordered tags give equal keys, different configurations different ones. */
  lemma KeyExamples()
    ensures NewCacheKey("History", "2024-01-01", "2024-01-02", Some(["tag1", "tag2"]), None)
      == NewCacheKey("History", "2024-01-01", "2024-01-02", Some(["tag2", "tag1"]), None)
    ensures var c1 := Default().(outlierRemoval := OutlierRemovalConfig(true, "3sigma"));
      var c2 := Default().(outlierRemoval := OutlierRemovalConfig(false, "3sigma"));
      NewCacheKey("History", "2024-01-01", "2024-01-02", None, Some(c1))
        != NewCacheKey("History", "2024-01-01", "2024-01-02", None, Some(c2))
  {
    assert multiset(["tag1", "tag2"]) == multiset(["tag2", "tag1"]);
    KeyIgnoresTagOrder("History", "2024-01-01", "2024-01-02", ["tag1", "tag2"], ["tag2", "tag1"], None);
  }

  /** `CacheEntry`: the records, when they were stored and for how long they are fresh. */
  datatype CacheEntry = CacheEntry(data: seq<HistoryRecord>, createdAt: int, ttlMs: nat)

  /** `is_expired`: strictly more than the time-to-live has elapsed. */
  predicate IsExpired(e: CacheEntry, now: int) {
    now - e.createdAt > e.ttlMs
  }

  datatype Slot = Slot(key: CacheKey, entry: CacheEntry)

  /** The cache contents, least recently used first, and the two counters. */
  datatype CacheState = CacheState(slots: seq<Slot>, hits: nat, misses: nat)

  function Keys(s: seq<Slot>): (r: seq<CacheKey>)
    ensures |r| == |s|
    ensures forall i :: 0 <= i < |s| ==> r[i] == s[i].key
  {
    seq(|s|, i requires 0 <= i < |s| => s[i].key)
  }

  /** At most `capacity` entries, one per key. */
  predicate Valid(st: CacheState, capacity: nat) {
    |st.slots| <= capacity && Distinct(Keys(st.slots))
  }

  /** The LRU bound: `max_entries`, or 50 when that is 0. */
  function Capacity(config: CacheConfig): (c: nat)
    ensures c > 0
    ensures config.maxEntries > 0 ==> c == config.maxEntries
    ensures config.maxEntries == 0 ==> c == 50
  {
    if config.maxEntries == 0 then 50 else config.maxEntries
  }

  /** The slots without the one at `i`. */
  function RemoveAt(s: seq<Slot>, i: nat): (r: seq<Slot>)
    requires i < |s|
    ensures |r| == |s| - 1
  {
    s[..i] + s[i + 1..]
  }

  lemma RemoveAtKeys(s: seq<Slot>, i: nat)
    requires i < |s| && Distinct(Keys(s))
    ensures Distinct(Keys(RemoveAt(s, i)))
    ensures forall k :: k in Keys(RemoveAt(s, i)) <==> k in Keys(s) && k != s[i].key
  {
    var r := RemoveAt(s, i);
    assert forall j :: 0 <= j < |r| ==> r[j] == if j < i then s[j] else s[j + 1];
    forall k | k in Keys(s) && k != s[i].key ensures k in Keys(r) {
      var j :| 0 <= j < |s| && s[j].key == k;
      assert Keys(r)[if j < i then j else j - 1] == k;
    }
  }

  lemma AppendKeys(s: seq<Slot>, x: Slot)
    requires Distinct(Keys(s)) && x.key !in Keys(s)
    ensures Distinct(Keys(s + [x]))
    ensures forall k :: k in Keys(s + [x]) <==> k in Keys(s) || k == x.key
  {
    assert Keys(s + [x]) == Keys(s) + [x.key];
  }

  /**
   * `get`: a missing key is a miss; an expired entry is removed and is a
   * miss; a fresh entry is a hit, becomes the most recently used and its
   * records are returned.
   */
  function GetStep(st: CacheState, key: CacheKey, now: int): (res: (CacheState, Option<seq<HistoryRecord>>))
  {
    var i := IndexOf(Keys(st.slots), key);
    if i == |st.slots| then
      (st.(misses := st.misses + 1), None)
    else if IsExpired(st.slots[i].entry, now) then
      (CacheState(RemoveAt(st.slots, i), st.hits, st.misses + 1), None)
    else
      (CacheState(RemoveAt(st.slots, i) + [st.slots[i]], st.hits + 1, st.misses), Some(st.slots[i].entry.data))
  }

  /**
   * `put`: a new entry, stamped `now`, becomes the most recently used. An
   * entry under the same key is replaced; otherwise, when the cache is
   * full, the least recently used entry is evicted.
   */
  function PutStep(st: CacheState, capacity: nat, key: CacheKey, data: seq<HistoryRecord>, now: int, ttlMs: nat): CacheState
    requires capacity > 0
  {
    var slot := Slot(key, CacheEntry(data, now, ttlMs));
    var i := IndexOf(Keys(st.slots), key);
    if i < |st.slots| then st.(slots := RemoveAt(st.slots, i) + [slot])
    else if |st.slots| >= capacity then st.(slots := RemoveAt(st.slots, 0) + [slot])
    else st.(slots := st.slots + [slot])
  }

  /** The entries whose time-to-live has not run out, in LRU order. */
  function Unexpired(s: seq<Slot>, now: int): (r: seq<Slot>)
    ensures Subsequence(r, s)
    ensures forall x :: x in r <==> x in s && !IsExpired(x.entry, now)
    decreases |s|
  {
    if |s| == 0 then []
    else
      var p := s[..|s| - 1];
      var x := s[|s| - 1];
      assert s == p + [x];
      var r := Unexpired(p, now);
      SubsequenceSnoc(r, p, x);
      if IsExpired(x.entry, now) then r else r + [x]
  }

  /** `evict_expired`: every expired entry goes, the rest stay in their order; counters unchanged. */
  function EvictExpiredStep(st: CacheState, now: int): CacheState {
    st.(slots := Unexpired(st.slots, now))
  }

  /** A lookup keeps the cache valid; only a hit returns records, and those are the stored ones. */
  lemma GetStepFacts(st: CacheState, capacity: nat, key: CacheKey, now: int)
    requires Valid(st, capacity)
    ensures var (st', r) := GetStep(st, key, now);
      && Valid(st', capacity)
      && st'.hits + st'.misses == st.hits + st.misses + 1
      && (r.Some? <==> st'.hits == st.hits + 1)
      && (r.Some? <==> exists i :: 0 <= i < |st.slots| && st.slots[i].key == key && !IsExpired(st.slots[i].entry, now))
      && (forall i :: 0 <= i < |st.slots| && st.slots[i].key == key && !IsExpired(st.slots[i].entry, now)
            ==> r == Some(st.slots[i].entry.data) && st'.slots[|st'.slots| - 1] == st.slots[i])
      && (forall k :: k != key ==> (k in Keys(st'.slots) <==> k in Keys(st.slots)))
      && (r.None? ==> key !in Keys(st'.slots))
  {
    var i := IndexOf(Keys(st.slots), key);
    if i < |st.slots| {
      RemoveAtKeys(st.slots, i);
      if !IsExpired(st.slots[i].entry, now) {
        AppendKeys(RemoveAt(st.slots, i), st.slots[i]);
      }
    }
  }

  /**
   * A store keeps the cache valid, leaves the new entry as the most
   * recently used, and drops at most one other key: the least recently
   * used one, when the key is new and the cache is full.
   */
  lemma PutStepFacts(st: CacheState, capacity: nat, key: CacheKey, data: seq<HistoryRecord>, now: int, ttlMs: nat)
    requires capacity > 0 && Valid(st, capacity)
    ensures var st' := PutStep(st, capacity, key, data, now, ttlMs);
      && Valid(st', capacity)
      && st'.hits == st.hits && st'.misses == st.misses
      && st'.slots[|st'.slots| - 1] == Slot(key, CacheEntry(data, now, ttlMs))
      && |st'.slots| == (if key in Keys(st.slots) || |st.slots| == capacity then |st.slots| else |st.slots| + 1)
      && (forall k :: k != key ==>
            (k in Keys(st'.slots) <==>
              k in Keys(st.slots) && !(key !in Keys(st.slots) && |st.slots| == capacity && k == st.slots[0].key)))
  {
    var slot := Slot(key, CacheEntry(data, now, ttlMs));
    var i := IndexOf(Keys(st.slots), key);
    if i < |st.slots| {
      RemoveAtKeys(st.slots, i);
      AppendKeys(RemoveAt(st.slots, i), slot);
    } else if |st.slots| >= capacity {
      RemoveAtKeys(st.slots, 0);
      AppendKeys(RemoveAt(st.slots, 0), slot);
    } else {
      AppendKeys(st.slots, slot);
    }
  }

  /**
   * A get moves or removes only the entry under its own key: the other
   * entries stay, with their data, timestamps and lifetimes, in their LRU
   * order. A miss leaves an order-preserving subsequence; a hit puts the
   * found entry after the rest.
   */
  lemma GetStepKeepsOthers(st: CacheState, capacity: nat, key: CacheKey, now: int)
    requires Valid(st, capacity)
    ensures var (st', r) := GetStep(st, key, now);
      && (r.None? ==> st'.slots == Without(st.slots, key) && Subsequence(st'.slots, st.slots))
      && (r.Some? ==> st'.slots[..|st'.slots| - 1] == Without(st.slots, key)
                      && Subsequence(st'.slots[..|st'.slots| - 1], st.slots))
      && (forall x: Slot :: x.key != key ==> (x in st'.slots <==> x in st.slots))
  {
    var (st', r) := GetStep(st, key, now);
    var i := IndexOf(Keys(st.slots), key);
    WithoutMembers(st.slots, key);
    if i == |st.slots| {
      WithoutAbsent(st.slots, key);
    } else {
      PopFound(st.slots, i);
      if !IsExpired(st.slots[i].entry, now) {
        assert st'.slots[..|st'.slots| - 1] == RemoveAt(st.slots, i);
      }
    }
  }

  /**
   * A put replaces or adds only the entry under its own key, and evicts
   * at most the least recently used entry: every other entry stays, with
   * its data, timestamp and lifetime, in its LRU order, before the new one.
   */
  lemma PutStepKeepsOthers(st: CacheState, capacity: nat, key: CacheKey, data: seq<HistoryRecord>, now: int, ttlMs: nat)
    requires capacity > 0 && Valid(st, capacity)
    ensures var st' := PutStep(st, capacity, key, data, now, ttlMs);
      var evicts := key !in Keys(st.slots) && |st.slots| == capacity;
      && st'.slots[..|st'.slots| - 1] == (if evicts then st.slots[1..] else Without(st.slots, key))
      && Subsequence(st'.slots[..|st'.slots| - 1], st.slots)
      && (forall x: Slot :: x.key != key ==> (x in st'.slots <==> x in st.slots && !(evicts && x == st.slots[0])))
  {
    var st' := PutStep(st, capacity, key, data, now, ttlMs);
    var slot := Slot(key, CacheEntry(data, now, ttlMs));
    var i := IndexOf(Keys(st.slots), key);
    WithoutMembers(st.slots, key);
    if i < |st.slots| {
      PopFound(st.slots, i);
      assert st'.slots == RemoveAt(st.slots, i) + [slot];
      assert st'.slots[..|st'.slots| - 1] == RemoveAt(st.slots, i);
    } else if |st.slots| >= capacity {
      assert st'.slots == st.slots[1..] + [slot];
      assert st'.slots[..|st'.slots| - 1] == st.slots[1..];
      TailDropsOnlyHead(st.slots);
    } else {
      WithoutAbsent(st.slots, key);
      assert st'.slots[..|st'.slots| - 1] == st.slots;
    }
  }

  /** With distinct keys, the tail holds every slot but the head. */
  lemma TailDropsOnlyHead(s: seq<Slot>)
    requires s != [] && Distinct(Keys(s))
    ensures forall x :: x in s[1..] <==> x in s && x != s[0]
    ensures Subsequence(s[1..], s)
  {
    SubsequenceReflexive(s[1..]);
    SubsequenceSkip(s[1..], s, 1);
    forall x | x in s[1..] ensures x != s[0] {
      var j :| 0 <= j < |s| - 1 && s[1..][j] == x;
      assert Keys(s)[0] != Keys(s)[j + 1];
    }
  }

  /** With distinct keys, a lookup is decided by the one slot holding the key. */
  lemma LookupBySlot(st: CacheState, key: CacheKey, now: int)
    requires Distinct(Keys(st.slots))
    ensures key !in Keys(st.slots) ==> GetStep(st, key, now).1 == None
    ensures forall x :: x in st.slots && x.key == key ==>
      GetStep(st, key, now).1 == if IsExpired(x.entry, now) then None else Some(x.entry.data)
  {
    var i := IndexOf(Keys(st.slots), key);
    forall x | x in st.slots && x.key == key
      ensures GetStep(st, key, now).1 == if IsExpired(x.entry, now) then None else Some(x.entry.data)
    {
      var j :| 0 <= j < |st.slots| && st.slots[j] == x;
      assert Keys(st.slots)[j] == key;
      assert i < |st.slots| && Keys(st.slots)[i] == key;
      assert i == j;
    }
  }

  /** A key is among the keys exactly when some slot holds it. */
  lemma KeyPresent(s: seq<Slot>, key: CacheKey)
    ensures key in Keys(s) <==> exists x :: x in s && x.key == key
  {
    if key in Keys(s) {
      var j :| 0 <= j < |s| && Keys(s)[j] == key;
      assert s[j] in s;
    }
  }

  /** Two caches holding the same slots under `key` answer a lookup of `key` alike. */
  lemma LookupAgrees(st1: CacheState, st2: CacheState, key: CacheKey, now: int)
    requires Distinct(Keys(st1.slots)) && Distinct(Keys(st2.slots))
    requires forall x: Slot :: x.key == key ==> (x in st1.slots <==> x in st2.slots)
    ensures GetStep(st1, key, now).1 == GetStep(st2, key, now).1
  {
    LookupBySlot(st1, key, now);
    LookupBySlot(st2, key, now);
    KeyPresent(st1.slots, key);
    KeyPresent(st2.slots, key);
    if key in Keys(st1.slots) {
      var x :| x in st1.slots && x.key == key;
      assert x in st2.slots;
    }
  }

  /**
   * A get or a put under one key does not change what a lookup of any
   * other key returns, at any time, unless the put evicts that key as the
   * least recently used: an entry stays retrievable until it expires, is
   * evicted or the cache is cleared.
   */
  lemma OtherLookupsUnchanged(st: CacheState, capacity: nat, a: CacheKey, b: CacheKey,
                              data: seq<HistoryRecord>, now: int, ttlMs: nat, t: int)
    requires capacity > 0 && Valid(st, capacity) && a != b
    ensures GetStep(GetStep(st, a, now).0, b, t).1 == GetStep(st, b, t).1
    ensures !(a !in Keys(st.slots) && |st.slots| == capacity && st.slots[0].key == b)
      ==> GetStep(PutStep(st, capacity, a, data, now, ttlMs), b, t).1 == GetStep(st, b, t).1
  {
    GetStepFacts(st, capacity, a, now);
    GetStepKeepsOthers(st, capacity, a, now);
    LookupAgrees(GetStep(st, a, now).0, st, b, t);
    PutStepFacts(st, capacity, a, data, now, ttlMs);
    PutStepKeepsOthers(st, capacity, a, data, now, ttlMs);
    if !(a !in Keys(st.slots) && |st.slots| == capacity && st.slots[0].key == b) {
      LookupAgrees(PutStep(st, capacity, a, data, now, ttlMs), st, b, t);
    }
  }

  /** Records stored under a key are found again while they are fresh, and counted as a hit. */
  lemma GetAfterPut(st: CacheState, capacity: nat, key: CacheKey, data: seq<HistoryRecord>, t0: int, ttlMs: nat, t1: int)
    requires capacity > 0 && Valid(st, capacity)
    requires t1 - t0 <= ttlMs
    ensures var st1 := PutStep(st, capacity, key, data, t0, ttlMs);
      GetStep(st1, key, t1).1 == Some(data) && GetStep(st1, key, t1).0.hits == st.hits + 1
  {
    var st1 := PutStep(st, capacity, key, data, t0, ttlMs);
    PutStepFacts(st, capacity, key, data, t0, ttlMs);
    GetStepFacts(st1, capacity, key, t1);
  }

  /** Once the time-to-live has run out the same lookup is a miss, and the entry is gone. */
  lemma GetAfterExpiry(st: CacheState, capacity: nat, key: CacheKey, data: seq<HistoryRecord>, t0: int, ttlMs: nat, t1: int)
    requires capacity > 0 && Valid(st, capacity)
    requires t1 - t0 > ttlMs
    ensures var st1 := PutStep(st, capacity, key, data, t0, ttlMs);
      && GetStep(st1, key, t1).1 == None
      && GetStep(st1, key, t1).0.misses == st.misses + 1
      && key !in Keys(GetStep(st1, key, t1).0.slots)
  {
    var st1 := PutStep(st, capacity, key, data, t0, ttlMs);
    PutStepFacts(st, capacity, key, data, t0, ttlMs);
    GetStepFacts(st1, capacity, key, t1);
    var i := IndexOf(Keys(st1.slots), key);
    assert i < |st1.slots|;
    assert Keys(st1.slots)[|st1.slots| - 1] == key;
    assert i == |st1.slots| - 1;
  }

  /** After eviction no expired entry is left, every fresh one is, and the cache stays valid. */
  lemma EvictExpiredFacts(st: CacheState, capacity: nat, now: int)
    requires Valid(st, capacity)
    ensures var st' := EvictExpiredStep(st, now);
      && Valid(st', capacity)
      && (forall x :: x in st'.slots <==> x in st.slots && !IsExpired(x.entry, now))
      && st'.hits == st.hits && st'.misses == st.misses
  {
    var r := Unexpired(st.slots, now);
    SubsequenceKeys(r, st.slots);
  }

  /** Keys of a subsequence are a subsequence of the keys, so they stay distinct. */
  lemma {:induction false} SubsequenceKeys(a: seq<Slot>, b: seq<Slot>)
    requires Subsequence(a, b) && Distinct(Keys(b))
    ensures Distinct(Keys(a)) && |a| <= |b|
    decreases |b|
  {
    SubsequenceLength(a, b);
    if |a| > 0 {
      DistinctKeysTail(b);
      if a[0] == b[0] && Subsequence(a[1..], b[1..]) {
        SubsequenceKeys(a[1..], b[1..]);
        HeadKeyFresh(a, b);
        DistinctKeysCons(a);
      } else {
        SubsequenceKeys(a, b[1..]);
      }
    }
  }

  lemma DistinctKeysTail(b: seq<Slot>)
    requires b != [] && Distinct(Keys(b))
    ensures Distinct(Keys(b[1..]))
  {
    assert forall j :: 0 <= j < |b| - 1 ==> Keys(b[1..])[j] == Keys(b)[j + 1];
  }

  /** A subsequence that keeps the head of `b` has no other slot with its key. */
  lemma HeadKeyFresh(a: seq<Slot>, b: seq<Slot>)
    requires a != [] && b != [] && a[0] == b[0] && Subsequence(a[1..], b[1..]) && Distinct(Keys(b))
    ensures forall j :: 0 < j < |a| ==> a[j].key != a[0].key
  {
    SubsequenceMultiset(a[1..], b[1..]);
    forall j | 0 < j < |a| ensures a[j].key != a[0].key {
      assert a[j] == a[1..][j - 1];
      assert a[j] in multiset(b[1..]);
      var m :| 0 <= m < |b| - 1 && b[1..][m] == a[j];
      assert Keys(b)[m + 1] != Keys(b)[0];
    }
  }

  lemma DistinctKeysCons(a: seq<Slot>)
    requires a != [] && Distinct(Keys(a[1..]))
    requires forall j :: 0 < j < |a| ==> a[j].key != a[0].key
    ensures Distinct(Keys(a))
  {
    assert forall j :: 0 <= j < |a| - 1 ==> Keys(a[1..])[j] == Keys(a)[j + 1];
  }

  /** `clear`: no entries, both counters back to 0. */
  function ClearStep(st: CacheState): CacheState {
    CacheState([], 0, 0)
  }

  /** `CacheStats`; `hitRate` is a percentage. */
  datatype CacheStats = CacheStats(hits: nat, misses: nat, hitRate: real, entries: nat, maxEntries: nat, estimatedMemoryBytes: nat)

  /** Hits as a percentage of all lookups, 0 before the first lookup. */
  function HitRate(hits: nat, misses: nat): (r: real)
    ensures 0.0 <= r <= 100.0
    ensures hits + misses > 0 ==> r * (hits + misses) as real == 100.0 * hits as real
  {
    if hits + misses > 0 then (hits as real / (hits + misses) as real) * 100.0 else 0.0
  }

  /** The record lists of the entries, in LRU order. */
  function EntryData(s: seq<Slot>): (r: seq<seq<HistoryRecord>>)
    ensures |r| == |s|
    ensures forall i :: 0 <= i < |s| ==> r[i] == s[i].entry.data
  {
    seq(|s|, i requires 0 <= i < |s| => s[i].entry.data)
  }

  /**
   * The memory estimate, summed entry by entry: 100 bytes for every record
   * the cache holds, so 0 for an empty cache.
   */
  function EstimatedMemory(s: seq<Slot>): (bytes: nat)
    ensures bytes == 100 * |Concat(EntryData(s))|
    ensures s == [] ==> bytes == 0
    decreases |s|
  {
    if |s| == 0 then 0
    else
      var p := s[..|s| - 1];
      assert EntryData(p) == EntryData(s)[..|s| - 1];
      EstimatedMemory(p) + |s[|s| - 1].entry.data| * 100
  }

  /** Every cached record is counted once, at 100 bytes. */
  lemma {:induction false} EstimatedMemoryAppend(a: seq<Slot>, b: seq<Slot>)
    ensures EstimatedMemory(a + b) == EstimatedMemory(a) + EstimatedMemory(b)
    decreases |b|
  {
    if |b| > 0 {
      EstimatedMemoryAppend(a, b[..|b| - 1]);
      assert (a + b)[..|a + b| - 1] == a + b[..|b| - 1];
    } else {
      assert a + b == a;
    }
  }

  /** One more entry of a prefix adds its records' estimate. */
  lemma EstimatedMemoryPrefix(s: seq<Slot>, j: nat)
    requires j < |s|
    ensures EstimatedMemory(s[..j + 1]) == EstimatedMemory(s[..j]) + |s[j].entry.data| * 100
  {
    assert s[..j + 1][..j] == s[..j];
  }

  /** `get_stats`. */
  function Stats(st: CacheState, config: CacheConfig): (r: CacheStats)
    ensures r.hits == st.hits && r.misses == st.misses
    ensures r.entries == |st.slots| && r.maxEntries == config.maxEntries
    ensures r.hitRate == HitRate(st.hits, st.misses)
    ensures r.estimatedMemoryBytes == EstimatedMemory(st.slots)
  {
    CacheStats(st.hits, st.misses, HitRate(st.hits, st.misses), |st.slots|, config.maxEntries, EstimatedMemory(st.slots))
  }

  /** `QueryCache`: the LRU contents and the counters, updated in place. */
  class QueryCache {
    var slots: seq<Slot>
    var hits: nat
    var misses: nat
    const config: CacheConfig
    const capacity: nat

    function State(): CacheState
      reads this
    {
      CacheState(slots, hits, misses)
    }

    ghost predicate Inv()
      reads this
    {
      capacity == Capacity(config) && Valid(State(), capacity)
    }

    /** `QueryCache::new`: empty, counters at 0. */
    constructor (config: CacheConfig)
      ensures this.config == config && capacity == Capacity(config)
      ensures State() == CacheState([], 0, 0)
      ensures Inv()
    {
      this.config := config;
      capacity := Capacity(config);
      slots := [];
      hits := 0;
      misses := 0;
    }

    /** `get`. */
    method Get(key: CacheKey, now: int) returns (r: Option<seq<HistoryRecord>>)
      requires Inv()
      modifies this
      ensures Inv()
      ensures (State(), r) == GetStep(old(State()), key, now)
    {
      GetStepFacts(State(), capacity, key, now);
      var i := IndexOf(Keys(slots), key);
      if i == |slots| {
        misses := misses + 1;
        r := None;
      } else if IsExpired(slots[i].entry, now) {
        slots := RemoveAt(slots, i);
        misses := misses + 1;
        r := None;
      } else {
        var slot := slots[i];
        slots := RemoveAt(slots, i) + [slot];
        hits := hits + 1;
        r := Some(slot.entry.data);
      }
    }

    /** `put`: the entry is stamped `now` and lives `ttl_seconds`. */
    method Put(key: CacheKey, data: seq<HistoryRecord>, now: int)
      requires Inv()
      modifies this
      ensures Inv()
      ensures State() == PutStep(old(State()), capacity, key, data, now, config.ttlSeconds * 1000)
    {
      PutStepFacts(State(), capacity, key, data, now, config.ttlSeconds * 1000);
      var slot := Slot(key, CacheEntry(data, now, config.ttlSeconds * 1000));
      var i := IndexOf(Keys(slots), key);
      if i < |slots| {
        slots := RemoveAt(slots, i) + [slot];
      } else if |slots| >= capacity {
        slots := RemoveAt(slots, 0) + [slot];
      } else {
        slots := slots + [slot];
      }
    }

    /** `clear`. */
    method Clear()
      requires Inv()
      modifies this
      ensures Inv()
      ensures State() == ClearStep(old(State()))
    {
      slots := [];
      hits := 0;
      misses := 0;
    }

    /** `get_stats`: the counters, the rate and the size, adding the per-entry estimate up. */
    method GetStats() returns (r: CacheStats)
      ensures r == Stats(State(), config)
    {
      var memory := 0;
      for j := 0 to |slots|
        invariant memory == EstimatedMemory(slots[..j])
      {
        EstimatedMemoryPrefix(slots, j);
        memory := memory + |slots[j].entry.data| * 100;
      }
      assert slots[..|slots|] == slots;
      r := CacheStats(hits, misses, HitRate(hits, misses), |slots|, config.maxEntries, memory);
    }

    /** `evict_expired`: collect the keys of expired entries, then pop each. */
    method EvictExpired(now: int)
      requires Inv()
      modifies this
      ensures Inv()
      ensures State() == EvictExpiredStep(old(State()), now)
    {
      EvictExpiredFacts(State(), capacity, now);
      ghost var before := slots;
      var expired := CollectExpired(slots, now);
      PopAll(expired);
      EvictMatchesUnexpired(before, now);
    }

    /** The `for key in keys_to_remove { cache.pop(&key) }` loop. */
    method PopAll(keys: seq<CacheKey>)
      requires Distinct(Keys(slots))
      modifies this
      ensures slots == WithoutKeys(old(slots), keys)
      ensures hits == old(hits) && misses == old(misses)
    {
      var rest := slots;
      WithoutNoKeys(slots);
      for j := 0 to |keys|
        invariant rest == WithoutKeys(slots, keys[..j])
        invariant Distinct(Keys(rest))
        modifies {}
      {
        PopStep(slots, keys, j, rest);
        var i := IndexOf(Keys(rest), keys[j]);
        if i < |rest| {
          rest := RemoveAt(rest, i);
        }
      }
      assert keys[..|keys|] == keys;
      slots := rest;
    }
  }

  /** `cache.iter().filter(is_expired).map(key).collect()`. */
  method CollectExpired(slots: seq<Slot>, now: int) returns (expired: seq<CacheKey>)
    ensures expired == ExpiredKeys(slots, now)
  {
    expired := [];
    for j := 0 to |slots|
      invariant expired == ExpiredKeys(slots[..j], now)
    {
      assert slots[..j + 1][..j] == slots[..j];
      if IsExpired(slots[j].entry, now) {
        expired := expired + [slots[j].key];
      }
    }
    assert slots[..|slots|] == slots;
  }

  /** The keys of the expired entries, in LRU order. */
  function ExpiredKeys(s: seq<Slot>, now: int): (r: seq<CacheKey>)
    ensures forall k :: k in r <==> exists x :: x in s && x.key == k && IsExpired(x.entry, now)
    decreases |s|
  {
    if |s| == 0 then []
    else
      var p := s[..|s| - 1];
      var x := s[|s| - 1];
      assert s == p + [x];
      ExpiredKeys(p, now) + if IsExpired(x.entry, now) then [x.key] else []
  }

  /** The slots whose keys are not among `ks`, in order. */
  function WithoutKeys(s: seq<Slot>, ks: seq<CacheKey>): seq<Slot>
    decreases |s|
  {
    if |s| == 0 then [] else WithoutKeys(s[..|s| - 1], ks) + if s[|s| - 1].key in ks then [] else [s[|s| - 1]]
  }

  /** Exactly the slots whose keys are not among `ks` are kept. */
  lemma {:induction false} WithoutKeysMembers(s: seq<Slot>, ks: seq<CacheKey>)
    ensures forall x :: x in WithoutKeys(s, ks) <==> x in s && x.key !in ks
    decreases |s|
  {
    if |s| > 0 {
      var p := s[..|s| - 1];
      WithoutKeysMembers(p, ks);
      assert s == p + [s[|s| - 1]];
    }
  }

  lemma {:induction false} WithoutNoKeys(s: seq<Slot>)
    ensures WithoutKeys(s, []) == s
    decreases |s|
  {
    if |s| > 0 {
      WithoutNoKeys(s[..|s| - 1]);
      assert s == s[..|s| - 1] + [s[|s| - 1]];
    }
  }

  /** Popping one more key from a cache with distinct keys. */
  lemma {:induction false} WithoutKeysStep(s: seq<Slot>, ks: seq<CacheKey>, k: CacheKey)
    ensures WithoutKeys(s, ks + [k]) == Without(WithoutKeys(s, ks), k)
    decreases |s|
  {
    if |s| > 0 {
      WithoutKeysStep(s[..|s| - 1], ks, k);
      WithoutAppend(WithoutKeys(s[..|s| - 1], ks), if s[|s| - 1].key in ks then [] else [s[|s| - 1]], k);
    }
  }

  /** The slots without the ones keyed `k`. */
  function Without(s: seq<Slot>, k: CacheKey): seq<Slot>
    decreases |s|
  {
    if |s| == 0 then [] else Without(s[..|s| - 1], k) + if s[|s| - 1].key == k then [] else [s[|s| - 1]]
  }

  /** `Without` keeps exactly the slots under other keys, in their order. */
  lemma {:induction false} WithoutMembers(s: seq<Slot>, k: CacheKey)
    ensures forall x :: x in Without(s, k) <==> x in s && x.key != k
    ensures Subsequence(Without(s, k), s)
    decreases |s|
  {
    if |s| > 0 {
      var p := s[..|s| - 1];
      var x := s[|s| - 1];
      assert s == p + [x];
      WithoutMembers(p, k);
      SubsequenceSnoc(Without(p, k), p, x);
      assert Without(s, k) == Without(p, k) + if x.key == k then [] else [x];
      if x.key == k {
        assert Without(s, k) == Without(p, k);
      }
    }
  }

  lemma {:induction false} WithoutAppend(a: seq<Slot>, b: seq<Slot>, k: CacheKey)
    ensures Without(a + b, k) == Without(a, k) + Without(b, k)
    decreases |b|
  {
    if |b| > 0 {
      WithoutAppend(a, b[..|b| - 1], k);
      assert (a + b)[..|a + b| - 1] == a + b[..|b| - 1];
    } else {
      assert a + b == a;
    }
  }

  /** `pop` of a present key: with distinct keys, removing its slot is removing every slot with that key. */
  lemma {:induction false} PopRemovesKey(s: seq<Slot>, i: nat)
    requires i < |s|
    requires forall j :: 0 <= j < |s| && j != i ==> s[j].key != s[i].key
    ensures RemoveAt(s, i) == Without(s, s[i].key)
  {
    OthersKeep(s, i);
    assert s == s[..i] + ([s[i]] + s[i + 1..]);
    WithoutSplit(s[..i], s[i], s[i + 1..]);
  }

  /** Removing the key of `x` from `a + [x] + b` when neither `a` nor `b` holds it leaves `a + b`. */
  lemma WithoutSplit(a: seq<Slot>, x: Slot, b: seq<Slot>)
    requires Without(a, x.key) == a && Without(b, x.key) == b
    ensures Without(a + ([x] + b), x.key) == a + b
  {
    WithoutAppend(a, [x] + b, x.key);
    WithoutAppend([x], b, x.key);
    WithoutSingle(x);
    assert Without([x] + b, x.key) == b;
  }

  /** The slots before and after the only one keyed `s[i].key` are left alone by removing that key. */
  lemma OthersKeep(s: seq<Slot>, i: nat)
    requires i < |s|
    requires forall j :: 0 <= j < |s| && j != i ==> s[j].key != s[i].key
    ensures Without(s[..i], s[i].key) == s[..i] && Without(s[i + 1..], s[i].key) == s[i + 1..]
  {
    var k := s[i].key;
    assert forall j :: 0 <= j < i ==> s[..i][j] == s[j];
    WithoutAbsent(s[..i], k);
    var b := s[i + 1..];
    assert forall j :: 0 <= j < |b| ==> b[j] == s[i + 1 + j];
    WithoutAbsent(b, k);
  }

  lemma WithoutSingle(x: Slot)
    ensures Without([x], x.key) == []
  {
    assert [x][..0] == [];
  }

  /** With distinct keys no other slot shares the key of slot `i`. */
  lemma KeyOwnedBy(s: seq<Slot>, i: nat)
    requires i < |s| && Distinct(Keys(s))
    ensures forall j :: 0 <= j < |s| && j != i ==> s[j].key != s[i].key
  {
    forall j | 0 <= j < |s| && j != i ensures s[j].key != s[i].key {
      if j < i { assert Keys(s)[j] != Keys(s)[i]; } else { assert Keys(s)[i] != Keys(s)[j]; }
    }
  }

  /** One round of the pop loop: popping one more key keeps the keys distinct. */
  lemma PopStep(before: seq<Slot>, keys: seq<CacheKey>, j: nat, s: seq<Slot>)
    requires j < |keys| && s == WithoutKeys(before, keys[..j]) && Distinct(Keys(s))
    ensures var i := IndexOf(Keys(s), keys[j]);
      var s' := if i < |s| then RemoveAt(s, i) else s;
      s' == WithoutKeys(before, keys[..j + 1]) && Distinct(Keys(s'))
  {
    var k := keys[j];
    assert keys[..j + 1] == keys[..j] + [k];
    WithoutKeysStep(before, keys[..j], k);
    var i := IndexOf(Keys(s), k);
    if i < |s| {
      PopFound(s, i);
    } else {
      PopAbsentKey(s, k);
    }
  }

  /** `pop` of the key of slot `i` removes that slot and keeps the keys distinct. */
  lemma PopFound(s: seq<Slot>, i: nat)
    requires i < |s| && Distinct(Keys(s))
    ensures RemoveAt(s, i) == Without(s, s[i].key)
    ensures Distinct(Keys(RemoveAt(s, i)))
  {
    KeyOwnedBy(s, i);
    PopRemovesKey(s, i);
    RemoveAtKeys(s, i);
  }

  /** `pop` of an absent key changes nothing. */
  lemma PopAbsentKey(s: seq<Slot>, k: CacheKey)
    requires k !in Keys(s)
    ensures s == Without(s, k)
  {
    WithoutAbsent(s, k);
  }

  lemma {:induction false} WithoutAbsent(s: seq<Slot>, k: CacheKey)
    requires forall j :: 0 <= j < |s| ==> s[j].key != k
    ensures Without(s, k) == s
    decreases |s|
  {
    if |s| > 0 {
      WithoutAbsent(s[..|s| - 1], k);
      assert s == s[..|s| - 1] + [s[|s| - 1]];
    }
  }

  /**
   * Popping the collected keys leaves exactly the fresh entries: a fresh
   * entry never shares its key with an expired one, since keys are distinct.
   */
  lemma EvictMatchesUnexpired(s: seq<Slot>, now: int)
    requires Distinct(Keys(s))
    ensures WithoutKeys(s, ExpiredKeys(s, now)) == Unexpired(s, now)
  {
    forall x | x in s ensures x.key in ExpiredKeys(s, now) <==> IsExpired(x.entry, now) {
      if x.key in ExpiredKeys(s, now) {
        var y :| y in s && y.key == x.key && IsExpired(y.entry, now);
        var i :| 0 <= i < |s| && s[i] == x;
        var j :| 0 <= j < |s| && s[j] == y;
        assert Keys(s)[i] == Keys(s)[j];
      }
    }
    FilterAgrees(s, ExpiredKeys(s, now), now);
  }

  lemma {:induction false} FilterAgrees(s: seq<Slot>, ks: seq<CacheKey>, now: int)
    requires forall x :: x in s ==> (x.key in ks <==> IsExpired(x.entry, now))
    ensures WithoutKeys(s, ks) == Unexpired(s, now)
    decreases |s|
  {
    if |s| > 0 {
      FilterAgrees(s[..|s| - 1], ks, now);
    }
  }

  /** The source's LRU test: with room for 3, storing 4 new keys evicts the first. */
  lemma LruEvictsOldest(k1: CacheKey, k2: CacheKey, k3: CacheKey, k4: CacheKey, d: seq<HistoryRecord>, now: int, ttl: nat)
    requires Distinct([k1, k2, k3, k4])
    ensures var st := PutStep(PutStep(PutStep(PutStep(CacheState([], 0, 0), 3, k1, d, now, ttl), 3, k2, d, now, ttl),
                                      3, k3, d, now, ttl), 3, k4, d, now, ttl);
      && |st.slots| == 3
      && k1 !in Keys(st.slots)
      && k4 in Keys(st.slots)
  {
    var ks := [k1, k2, k3, k4];
    assert ks[0] != ks[1] && ks[0] != ks[2] && ks[0] != ks[3] && ks[1] != ks[2] && ks[1] != ks[3] && ks[2] != ks[3];
    var e := CacheEntry(d, now, ttl);
    var s1 := PutStep(CacheState([], 0, 0), 3, k1, d, now, ttl);
    assert s1.slots == [Slot(k1, e)];
    var s2 := PutStep(s1, 3, k2, d, now, ttl);
    assert Keys(s1.slots) == [k1];
    assert s2.slots == [Slot(k1, e), Slot(k2, e)];
    var s3 := PutStep(s2, 3, k3, d, now, ttl);
    assert Keys(s2.slots) == [k1, k2];
    assert s3.slots == [Slot(k1, e), Slot(k2, e), Slot(k3, e)];
    var s4 := PutStep(s3, 3, k4, d, now, ttl);
    assert Keys(s3.slots) == [k1, k2, k3];
    assert s4.slots == [Slot(k2, e), Slot(k3, e), Slot(k4, e)];
    assert Keys(s4.slots) == [k2, k3, k4];
  }

  /** The source's statistics test: a miss, a store and a hit give a 50% hit rate. */
  lemma MissPutHitStats(key: CacheKey, d: seq<HistoryRecord>, now: int, config: CacheConfig)
    ensures var s1 := GetStep(CacheState([], 0, 0), key, now).0;
      var s2 := PutStep(s1, Capacity(config), key, d, now, config.ttlSeconds * 1000);
      var s3 := GetStep(s2, key, now).0;
      Stats(s3, config).hits == 1 && Stats(s3, config).misses == 1 && Stats(s3, config).hitRate == 50.0
  {
    var s1 := GetStep(CacheState([], 0, 0), key, now).0;
    assert s1 == CacheState([], 0, 1);
    var s2 := PutStep(s1, Capacity(config), key, d, now, config.ttlSeconds * 1000);
    GetAfterPut(s1, Capacity(config), key, d, now, config.ttlSeconds * 1000, now);
    var s3 := GetStep(s2, key, now).0;
    assert s3.hits == 1 && s3.misses == 1;
    assert HitRate(1, 1) == 50.0;
  }

  /** After `clear` every lookup misses. */
  lemma ClearThenMiss(st: CacheState, key: CacheKey, now: int)
    ensures GetStep(ClearStep(st), key, now).1 == None
    ensures GetStep(ClearStep(st), key, now).0.misses == 1
  {
  }
}
