/**
 * The prefetching and locking bookkeeping of the Redis/Postgres (or TiKV)
 * transaction client: the per-key frequency table of the layers that
 * followed a key (`PrefetchTracker`), the rule that picks the keys to
 * prefetch, the count of prefetches that paid off, and the read/write
 * lock-id sets kept across the layers of a transaction.
 *
 * The database, the cache, the lock table and the thread pool are not
 * modelled: the outcome of each `tryLock` is given by the set of lock
 * requests that would time out, and the value a statement reads is given
 * by a function.  Java's `int` and `long` counters are unbounded here.
 */
module RedisPostgresClient {
  import opened Wrappers

  /** A row: its table name and its id (`Pair<String, Long>`). */
  datatype Key = Key(table: string, id: int)

  /** A layer of keys that followed, and how many times it did (`PrefetchSet`). */
  datatype PrefetchSet = PrefetchSet(keys: set<Key>, freq: int)

  /** The threshold on the top set's share of all observations. */
  const PrefetchFreqThreshold: real := 0.2

  /** More distinct follow-up layers than this stop the tracking. */
  const PrefetchLenThreshold: int := 5

  // ---------------------------------------------------------------------
  // The frequency table
  // ---------------------------------------------------------------------

  function SumFreq(sets: seq<PrefetchSet>): int
  {
    if |sets| == 0 then 0 else sets[0].freq + SumFreq(sets[1..])
  }

  /** Most frequent first. */
  predicate SortedDesc(sets: seq<PrefetchSet>)
  {
    forall i, j :: 0 <= i < j < |sets| ==> sets[i].freq >= sets[j].freq
  }

  predicate AllPositive(sets: seq<PrefetchSet>)
  {
    forall i :: 0 <= i < |sets| ==> sets[i].freq >= 1
  }

  /**
   * One step of a stable sort by descending frequency: `x`, which came
   * before every element of `sorted`, goes in front of the first element
   * whose frequency is not larger than its own.
   */
  function Insert(x: PrefetchSet, sorted: seq<PrefetchSet>): (r: seq<PrefetchSet>)
    ensures |r| == |sorted| + 1
    ensures multiset(r) == multiset(sorted) + multiset{x}
    decreases |sorted|
  {
    if |sorted| == 0 || sorted[0].freq <= x.freq then [x] + sorted
    else
      assert sorted == [sorted[0]] + sorted[1..];
      [sorted[0]] + Insert(x, sorted[1..])
  }

  /** `List.sort` with the comparator `(o1, o2) -> Long.compare(o2.freq, o1.freq)`: a stable sort, most frequent first. */
  function SortDesc(sets: seq<PrefetchSet>): (r: seq<PrefetchSet>)
    ensures |r| == |sets|
    ensures multiset(r) == multiset(sets)
    decreases |sets|
  {
    if |sets| == 0 then []
    else
      assert sets == [sets[0]] + sets[1..];
      Insert(sets[0], SortDesc(sets[1..]))
  }

  lemma {:induction false} InsertSorted(x: PrefetchSet, sorted: seq<PrefetchSet>)
    requires SortedDesc(sorted)
    ensures SortedDesc(Insert(x, sorted))
    decreases |sorted|
  {
    if |sorted| > 0 && sorted[0].freq > x.freq {
      var tail := Insert(x, sorted[1..]);
      InsertSorted(x, sorted[1..]);
      forall j | 0 <= j < |tail|
        ensures sorted[0].freq >= tail[j].freq
      {
        assert tail[j] in multiset(tail);
        if tail[j] != x {
          assert tail[j] in multiset(sorted[1..]);
        }
      }
    }
  }

  lemma {:induction false} SortDescSorted(sets: seq<PrefetchSet>)
    ensures SortedDesc(SortDesc(sets))
    decreases |sets|
  {
    if |sets| > 0 {
      SortDescSorted(sets[1..]);
      InsertSorted(sets[0], SortDesc(sets[1..]));
    }
  }

  lemma {:induction false} SumFreqInsert(x: PrefetchSet, sorted: seq<PrefetchSet>)
    ensures SumFreq(Insert(x, sorted)) == x.freq + SumFreq(sorted)
    decreases |sorted|
  {
    if |sorted| > 0 && sorted[0].freq > x.freq {
      SumFreqInsert(x, sorted[1..]);
    }
  }

  lemma {:induction false} SumFreqSort(sets: seq<PrefetchSet>)
    ensures SumFreq(SortDesc(sets)) == SumFreq(sets)
    decreases |sets|
  {
    if |sets| > 0 {
      SumFreqSort(sets[1..]);
      SumFreqInsert(sets[0], SortDesc(sets[1..]));
    }
  }

  lemma {:induction false} SumFreqUpdate(sets: seq<PrefetchSet>, i: nat, x: PrefetchSet)
    requires i < |sets|
    ensures SumFreq(sets[i := x]) == SumFreq(sets) - sets[i].freq + x.freq
    decreases i
  {
    if i > 0 {
      assert sets[i := x][1..] == sets[1..][i - 1 := x];
      SumFreqUpdate(sets[1..], i - 1, x);
    }
  }

  lemma {:induction false} SumFreqAppend(sets: seq<PrefetchSet>, x: PrefetchSet)
    ensures SumFreq(sets + [x]) == SumFreq(sets) + x.freq
    decreases |sets|
  {
    if |sets| > 0 {
      assert (sets + [x])[1..] == sets[1..] + [x];
      SumFreqAppend(sets[1..], x);
    }
  }

  /** Sorting keeps every frequency positive. */
  lemma SortKeepsPositive(sets: seq<PrefetchSet>)
    requires AllPositive(sets)
    ensures AllPositive(SortDesc(sets))
  {
    var r := SortDesc(sets);
    forall i | 0 <= i < |r|
      ensures r[i].freq >= 1
    {
      assert r[i] in multiset(sets);
    }
  }

  /** The first set of the table whose keys are exactly `keys`, from index `from` on. */
  function FindFrom(sets: seq<PrefetchSet>, keys: set<Key>, from: nat): (r: Option<nat>)
    ensures r.Some? ==> from <= r.value < |sets| && sets[r.value].keys == keys
    ensures r.Some? ==> forall j :: from <= j < r.value ==> sets[j].keys != keys
    ensures r.None? ==> forall j :: from <= j < |sets| ==> sets[j].keys != keys
    decreases |sets| - from
  {
    if from >= |sets| then None
    else if sets[from].keys == keys then Some(from)
    else FindFrom(sets, keys, from + 1)
  }

  /** The table after one more observation of the layer `keys`, sorted again. */
  function Observed(sets: seq<PrefetchSet>, keys: set<Key>): seq<PrefetchSet>
  {
    match FindFrom(sets, keys, 0)
    case Some(i) => Bumped(sets, i)
    case None => Appended(sets, keys)
  }

  /** The table with the frequency of set `i` raised by one, sorted again. */
  function Bumped(sets: seq<PrefetchSet>, i: nat): (r: seq<PrefetchSet>)
    requires i < |sets|
    ensures |r| == |sets|
  {
    SortDesc(sets[i := sets[i].(freq := sets[i].freq + 1)])
  }

  /** The table with the new set `keys` seen once, sorted again. */
  function Appended(sets: seq<PrefetchSet>, keys: set<Key>): (r: seq<PrefetchSet>)
    ensures |r| == |sets| + 1
  {
    SortDesc(sets + [PrefetchSet(keys, 1)])
  }

  /** Raising one frequency by one and sorting again adds one to the sum and keeps the table sorted and positive. */
  lemma BumpKeepsTable(sets: seq<PrefetchSet>, i: nat)
    requires AllPositive(sets) && i < |sets|
    ensures SumFreq(Bumped(sets, i)) == SumFreq(sets) + 1
    ensures SortedDesc(Bumped(sets, i)) && AllPositive(Bumped(sets, i))
  {
    var updated := sets[i := sets[i].(freq := sets[i].freq + 1)];
    SumFreqUpdate(sets, i, updated[i]);
    SumFreqSort(updated);
    SortDescSorted(updated);
    SortKeepsPositive(updated);
  }

  /** Adding a set with frequency 1 and sorting again adds one to the sum and keeps the table sorted and positive. */
  lemma AppendKeepsTable(sets: seq<PrefetchSet>, keys: set<Key>)
    requires AllPositive(sets)
    ensures SumFreq(Appended(sets, keys)) == SumFreq(sets) + 1
    ensures SortedDesc(Appended(sets, keys)) && AllPositive(Appended(sets, keys))
  {
    var added := sets + [PrefetchSet(keys, 1)];
    SumFreqAppend(sets, PrefetchSet(keys, 1));
    SumFreqSort(added);
    SortDescSorted(added);
    SortKeepsPositive(added);
  }

  /** An observation adds exactly one to the sum of the frequencies and keeps the table sorted with positive frequencies. */
  lemma ObservedSpec(sets: seq<PrefetchSet>, keys: set<Key>)
    requires AllPositive(sets)
    ensures SumFreq(Observed(sets, keys)) == SumFreq(sets) + 1
    ensures SortedDesc(Observed(sets, keys)) && AllPositive(Observed(sets, keys))
  {
    match FindFrom(sets, keys, 0)
    case Some(i) =>
      BumpKeepsTable(sets, i);
    case None =>
      AppendKeepsTable(sets, keys);
  }

  /** A layer seen before: its set, the first one equal to it, has its frequency raised by one, and nothing else changes. */
  lemma ObservedFound(sets: seq<PrefetchSet>, keys: set<Key>, i: nat)
    requires FindFrom(sets, keys, 0) == Some(i)
    ensures |Observed(sets, keys)| == |sets|
    ensures multiset(Observed(sets, keys)) == multiset(sets) - multiset{sets[i]} + multiset{PrefetchSet(keys, sets[i].freq + 1)}
  {
    assert Observed(sets, keys) == Bumped(sets, i);
    BumpedMultiset(sets, i);
    assert sets[i].(freq := sets[i].freq + 1) == PrefetchSet(keys, sets[i].freq + 1);
  }

  /** A new layer: a set for it is added with frequency 1, and nothing else changes. */
  lemma ObservedNew(sets: seq<PrefetchSet>, keys: set<Key>)
    requires FindFrom(sets, keys, 0) == None
    ensures |Observed(sets, keys)| == |sets| + 1
    ensures multiset(Observed(sets, keys)) == multiset(sets) + multiset{PrefetchSet(keys, 1)}
  {
    assert Observed(sets, keys) == Appended(sets, keys);
  }

  lemma BumpedMultiset(sets: seq<PrefetchSet>, i: nat)
    requires i < |sets|
    ensures multiset(Bumped(sets, i)) == multiset(sets) - multiset{sets[i]} + multiset{sets[i].(freq := sets[i].freq + 1)}
  {
    var x := sets[i].(freq := sets[i].freq + 1);
    assert sets == sets[..i] + [sets[i]] + sets[i + 1..];
    assert sets[i := x] == sets[..i] + [x] + sets[i + 1..];
  }


  /** A tracker's state as a value: its table, its total and whether it still tracks. */
  datatype TrackerView = TrackerView(sets: seq<PrefetchSet>, totalFreq: int, trackDeps: bool)

  /** The state of a tracker just created. */
  const EmptyView := TrackerView([], 0, true)

  /** The tracker invariant on values: the total is the sum of the frequencies, the table is sorted and positive, and a long table no longer tracks. */
  predicate ViewValid(v: TrackerView)
  {
    && v.totalFreq == SumFreq(v.sets)
    && SortedDesc(v.sets)
    && AllPositive(v.sets)
    && (|v.sets| > PrefetchLenThreshold ==> !v.trackDeps)
  }

  /** The guarded observation of one layer, on values: a tracker that still tracks observes the layer, any other is left alone. */
  function ObserveView(v: TrackerView, keys: set<Key>): TrackerView
  {
    if !v.trackDeps then v
    else
      var grown := Observed(v.sets, keys);
      TrackerView(grown, v.totalFreq + 1, !(FindFrom(v.sets, keys, 0).None? && |grown| > PrefetchLenThreshold))
  }

  /**
   * An observation keeps the tracker invariant; a tracker that tracks counts
   * one more observation of exactly this layer, and one that stopped is
   * unchanged and never starts again.
   */
  lemma ObserveViewKeepsTable(v: TrackerView, keys: set<Key>)
    requires ViewValid(v)
    ensures ViewValid(ObserveView(v, keys))
    ensures v.trackDeps ==> ObserveView(v, keys).totalFreq == v.totalFreq + 1 && ObserveView(v, keys).sets == Observed(v.sets, keys)
    ensures !v.trackDeps ==> ObserveView(v, keys) == v
    ensures ObserveView(v, keys).trackDeps ==> v.trackDeps
  {
    if v.trackDeps {
      ObservedSpec(v.sets, keys);
    }
  }

  /** A tracker just created records the layer once and still tracks. */
  lemma ObserveEmptyView(keys: set<Key>)
    ensures ObserveView(EmptyView, keys) == TrackerView([PrefetchSet(keys, 1)], 1, true)
  {
    assert FindFrom([], keys, 0) == None;
    assert SortDesc([PrefetchSet(keys, 1)]) == [PrefetchSet(keys, 1)];
  }

  /** A table of follow-up layers seen after one key, most frequent first. */
  class PrefetchTracker {
    var sets: seq<PrefetchSet>
    var totalFreq: int
    var trackDeps: bool

    /** The total is the sum of the frequencies, the table is sorted, and a table past the length threshold no longer tracks. */
    ghost predicate Valid()
      reads this
    {
      && totalFreq == SumFreq(sets)
      && SortedDesc(sets)
      && AllPositive(sets)
      && (|sets| > PrefetchLenThreshold ==> !trackDeps)
    }

    /** The tracker's fields as a value. */
    ghost function View(): TrackerView
      reads this
    {
      TrackerView(sets, totalFreq, trackDeps)
    }

    constructor()
      ensures Valid() && sets == [] && totalFreq == 0 && trackDeps
    {
      sets := [];
      totalFreq := 0;
      trackDeps := true;
    }

    /**
     * `observeSubsequentLayer`: count one more occurrence of the layer
     * `keys`; tracking stops once a new layer makes the table longer than
     * the threshold, and nothing turns it back on.
     */
    method ObserveSubsequentLayer(keys: set<Key>)
      requires Valid()
      modifies this
      ensures Valid()
      ensures totalFreq == old(totalFreq) + 1
      ensures sets == Observed(old(sets), keys)
      ensures trackDeps == (old(trackDeps) && !(FindFrom(old(sets), keys, 0).None? && |sets| > PrefetchLenThreshold))
    {
      totalFreq := totalFreq + 1;
      var i := 0;
      while i < |sets|
        invariant 0 <= i <= |sets|
        invariant FindFrom(sets, keys, 0) == FindFrom(sets, keys, i)
      {
        if sets[i].keys == keys {
          BumpKeepsTable(sets, i);
          sets := Bumped(sets, i);
          return;
        }
        i := i + 1;
      }
      AppendKeepsTable(sets, keys);
      sets := Appended(sets, keys);
      if |sets| > PrefetchLenThreshold {
        trackDeps := false;
      }
    }

    /** The caller's guard: a tracker is fed a layer only while it still tracks. */
    method ObserveIfTracking(keys: set<Key>)
      requires Valid()
      modifies this
      ensures Valid()
      ensures old(trackDeps) ==> sets == Observed(old(sets), keys) && totalFreq == old(totalFreq) + 1
      ensures !old(trackDeps) ==> sets == old(sets) && totalFreq == old(totalFreq) && !trackDeps
      ensures trackDeps ==> old(trackDeps)
      ensures View() == ObserveView(old(View()), keys)
    {
      if trackDeps {
        ObserveSubsequentLayer(keys);
      }
    }

    /** The prefetch rule: tracking, at least one set, and the top set's share of all observations above the threshold. */
    predicate PrefetchesTop()
      reads this
    {
      && trackDeps
      && |sets| > 0
      && totalFreq != 0
      && (sets[0].freq as real) / (totalFreq as real) > PrefetchFreqThreshold
    }

    /** `getSize`: 8 bytes for the counters, plus the size of each set. */
    method GetSize() returns (size: int)
      ensures size == TrackerBytes(sets)
    {
      size := 8;
      var i := 0;
      while i < |sets|
        invariant 0 <= i <= |sets|
        invariant size == 8 + SetsBytes(sets[..i])
      {
        var s := SetSize(sets[i].keys);
        assert sets[..i + 1][..i] == sets[..i];
        size := size + s;
        i := i + 1;
      }
      assert sets[..i] == sets;
    }
  }

  /** For a tracker that keeps its invariant, the rule is the integer comparison `5 * freq > total`. */
  lemma PrefetchRuleInIntegers(t: PrefetchTracker)
    requires t.Valid()
    ensures t.PrefetchesTop() <==> t.trackDeps && |t.sets| > 0 && 5 * t.sets[0].freq > t.totalFreq
  {
    if |t.sets| > 0 {
      assert t.totalFreq == t.sets[0].freq + SumFreq(t.sets[1..]);
      SumFreqPositive(t.sets[1..]);
      AboveOneFifth(t.sets[0].freq, t.totalFreq);
    }
  }

  /** For a positive total, a share above 0.2 is five times the part exceeding the total. */
  lemma AboveOneFifth(part: int, total: int)
    requires total > 0
    ensures (part as real) / (total as real) > 0.2 <==> 5 * part > total
  {
    var f, n := part as real, total as real;
    var q := f / n;
    assert q * n == f;
    assert (5 * part - total) as real == 5.0 * f - n;
    assert 5.0 * f - n == (5.0 * q - 1.0) * n;
    SignOfProduct(5.0 * q - 1.0, n);
  }

  lemma SignOfProduct(a: real, n: real)
    requires n > 0.0
    ensures a * n > 0.0 <==> a > 0.0
  {
  }


  lemma {:induction false} SumFreqPositive(sets: seq<PrefetchSet>)
    requires AllPositive(sets)
    ensures SumFreq(sets) >= |sets|
    decreases |sets|
  {
    if |sets| > 0 {
      SumFreqPositive(sets[1..]);
    }
  }

  // ---------------------------------------------------------------------
  // Size estimate
  // ---------------------------------------------------------------------

  /** 8 bytes for the id plus the table name, summed over a set of keys. */
  ghost function KeyBytes(keys: set<Key>): (r: int)
    ensures r >= 8 * |keys|
    decreases |keys|
  {
    if keys == {} then 0
    else
      var k := PickKey(keys);
      8 + |k.table| + KeyBytes(keys - {k})
  }

  /** Whichever key a set yields first. */
  ghost function PickKey(keys: set<Key>): (k: Key)
    requires keys != {}
    ensures k in keys
  {
    var k :| k in keys; k
  }

  /** The sum does not depend on which key is taken first. */
  lemma {:induction false} KeyBytesRemove(keys: set<Key>, k: Key)
    requires k in keys
    ensures KeyBytes(keys) == 8 + |k.table| + KeyBytes(keys - {k})
    decreases |keys|
  {
    var x := PickKey(keys);
    if x != k {
      var withoutX, withoutK := keys - {x}, keys - {k};
      assert withoutX - {k} == withoutK - {x};
      KeyBytesRemove(withoutX, k);
      KeyBytesRemove(withoutK, x);
    }
  }

  /** `PrefetchSet.getSize`: 4 bytes for the frequency plus the keys. */
  ghost function SetBytes(keys: set<Key>): int
  {
    4 + KeyBytes(keys)
  }

  ghost function SetsBytes(sets: seq<PrefetchSet>): int
  {
    if |sets| == 0 then 0 else SetsBytes(sets[..|sets| - 1]) + SetBytes(sets[|sets| - 1].keys)
  }

  ghost function TrackerBytes(sets: seq<PrefetchSet>): int
  {
    8 + SetsBytes(sets)
  }

  /** Each set costs at least 4 bytes and each key at least 8: the estimate is never below that. */
  lemma {:induction false} SetsBytesLowerBound(sets: seq<PrefetchSet>)
    ensures SetsBytes(sets) >= 4 * |sets|
    decreases |sets|
  {
    if |sets| > 0 {
      SetsBytesLowerBound(sets[..|sets| - 1]);
    }
  }

  /** The loop of `PrefetchSet.getSize`, over the set in whatever order it yields its keys. */
  method SetSize(keys: set<Key>) returns (size: int)
    ensures size == SetBytes(keys)
  {
    size := 4;
    var rest := keys;
    while rest != {}
      invariant rest <= keys
      invariant size + KeyBytes(rest) == SetBytes(keys)
      decreases |rest|
    {
      var k :| k in rest;
      KeyBytesRemove(rest, k);
      size := size + 8 + |k.table|;
      rest := rest - {k};
    }
  }

  // ---------------------------------------------------------------------
  // Prefetch hits
  // ---------------------------------------------------------------------

  /** How many of the ids were prefetched by the previous layer. */
  function Hits(ids: seq<int>, prefetched: map<int, bool>): nat
  {
    if |ids| == 0 then 0
    else Hits(ids[..|ids| - 1], prefetched) + (if ids[|ids| - 1] in prefetched then 1 else 0)
  }

  /** How many of the ids were prefetched and flagged as already cached. */
  function RedundantHits(ids: seq<int>, prefetched: map<int, bool>): nat
  {
    if |ids| == 0 then 0
    else
      var id := ids[|ids| - 1];
      RedundantHits(ids[..|ids| - 1], prefetched) + (if id in prefetched && prefetched[id] then 1 else 0)
  }

  /** A redundant prefetch hit is a prefetch hit. */
  lemma {:induction false} RedundantAtMostHits(ids: seq<int>, prefetched: map<int, bool>)
    ensures RedundantHits(ids, prefetched) <= Hits(ids, prefetched) <= |ids|
    decreases |ids|
  {
    if |ids| > 0 {
      RedundantAtMostHits(ids[..|ids| - 1], prefetched);
    }
  }

  /** The counting loop of `executeOps`, one id per pending statement. */
  method CountPrefetchHits(ids: seq<int>, prefetched: map<int, bool>) returns (used: nat, redundant: nat)
    ensures used == Hits(ids, prefetched) && redundant == RedundantHits(ids, prefetched)
    ensures redundant <= used <= |ids|
  {
    used, redundant := 0, 0;
    var i := 0;
    while i < |ids|
      invariant 0 <= i <= |ids|
      invariant used == Hits(ids[..i], prefetched) && redundant == RedundantHits(ids[..i], prefetched)
    {
      assert ids[..i + 1][..i] == ids[..i];
      if ids[i] in prefetched {
        used := used + 1;
        if prefetched[ids[i]] {
          redundant := redundant + 1;
        }
      }
      i := i + 1;
    }
    assert ids[..i] == ids;
    RedundantAtMostHits(ids, prefetched);
  }

  // ---------------------------------------------------------------------
  // Statements and locks
  // ---------------------------------------------------------------------

  datatype RequestType = Get | Put | Delete

  /**
   * A pending statement (`RedisStatement` with its `TiKVOp`): what it does to
   * which row, for which transaction; `forUpdate` marks a read issued by
   * `readForUpdate`.
   */
  datatype Statement = Statement(kind: RequestType, table: string, id: int, txnType: int, txnId: int, prefetch: bool, forUpdate: bool)

  /** The read a prefetch adds: a GET outside any transaction (type and id -1). */
  function PrefetchRead(k: Key): Statement
  {
    Statement(Get, k.table, k.id, -1, -1, true, false)
  }

  /** The statement `readForUpdate` queues: a GET of the row, flagged as a read for update. */
  function ReadForUpdateStatement(table: string, id: int, txnType: int, txnId: int): (s: Statement)
    ensures s.kind == Get && s.forUpdate && !s.prefetch && s.id == id && s.table == table
  {
    Statement(Get, table, id, txnType, txnId, false, true)
  }

  /** Only a plain GET takes a read lock; a write, a delete and a read for update take the write lock. */
  predicate TakesReadLock(s: Statement)
  {
    s.kind == Get && !s.forUpdate
  }

  /** One prefetch read per key, in the order the set yields them, and the map marking each row as not yet used. */
  method PrefetchReads(keys: set<Key>) returns (added: seq<Statement>, prefetched: map<int, bool>)
    ensures |added| == |keys|
    ensures forall k :: PrefetchRead(k) in added <==> k in keys
    ensures forall i :: 0 <= i < |added| ==> added[i].prefetch
    ensures prefetched.Keys == IdsOf(keys) && forall id :: id in prefetched ==> !prefetched[id]
  {
    added, prefetched := [], map[];
    ghost var seen: set<Key> := {};
    var rest := keys;
    while |rest| > 0
      invariant rest <= keys && seen == keys - rest
      invariant |added| == |seen|
      invariant forall k :: PrefetchRead(k) in added <==> k in seen
      invariant forall i :: 0 <= i < |added| ==> added[i].prefetch
      invariant prefetched.Keys == IdsOf(seen) && forall id :: id in prefetched ==> !prefetched[id]
      decreases |rest|
    {
      var k :| k in rest;
      assert IdsOf(seen + {k}) == IdsOf(seen) + {k.id};
      prefetched := prefetched[k.id := false];
      added := added + [PrefetchRead(k)];
      seen := seen + {k};
      rest := rest - {k};
    }
  }

  /** The row ids of a set of keys. */
  function IdsOf(keys: set<Key>): set<int>
  {
    set k | k in keys :: k.id
  }

  /** The tracker of a key within a transaction type (`txn_type + ":" + id`). */
  datatype PrefetchIndex = PrefetchIndex(txnType: int, id: int)

  datatype LockMode = ReadLock | WriteLock

  datatype LockRequest = LockRequest(id: int, mode: LockMode)

  datatype Abort = FailedToAcquireLock(request: LockRequest)

  /** The lock ids held and the locks requested so far in this layer. */
  datatype Locks = Locks(read: set<int>, write: set<int>, requests: seq<LockRequest>)

  /**
   * The locking of one statement: a plain read takes the read lock unless it
   * is held; a write or a read for update first gives up the read lock, then
   * takes the write lock unless it is held; prefetches take no lock.  A
   * request in `denied` times out.
   */
  function LockStep(locks: Locks, s: Statement, denied: set<LockRequest>): Result<Locks, Abort>
  {
    if s.prefetch then Ok(locks)
    else if TakesReadLock(s) then
      if s.id in locks.read then Ok(locks)
      else if LockRequest(s.id, ReadLock) in denied then Err(FailedToAcquireLock(LockRequest(s.id, ReadLock)))
      else Ok(locks.(read := locks.read + {s.id}, requests := locks.requests + [LockRequest(s.id, ReadLock)]))
    else
      var read := locks.read - {s.id};
      if s.id in locks.write then Ok(locks.(read := read))
      else if LockRequest(s.id, WriteLock) in denied then Err(FailedToAcquireLock(LockRequest(s.id, WriteLock)))
      else Ok(Locks(read, locks.write + {s.id}, locks.requests + [LockRequest(s.id, WriteLock)]))
  }

  /** The statements locked in order, stopping at the first lock that times out. */
  function LockAll(locks: Locks, stmts: seq<Statement>, denied: set<LockRequest>): Result<Locks, Abort>
  {
    if |stmts| == 0 then Ok(locks)
    else match LockAll(locks, stmts[..|stmts| - 1], denied)
      case Err(e) => Err(e)
      case Ok(l) => LockStep(l, stmts[|stmts| - 1], denied)
  }

  /** Every lock held was held before or was requested; write locks are only taken, never given up. */
  predicate LocksAccounted(before: Locks, after: Locks)
  {
    && before.write <= after.write
    && (forall id :: id in after.read ==> id in before.read || LockRequest(id, ReadLock) in after.requests)
    && (forall id :: id in after.write ==> id in before.write || LockRequest(id, WriteLock) in after.requests)
  }

  /**
   * After locking a layer, every row it reads plainly is read- or
   * write-locked and every row it writes or reads for update is
   * write-locked; every lock held was held before or
   * was requested in this layer, and a write lock is never requested twice.
   */
  lemma {:induction false} LockAllSpec(locks: Locks, stmts: seq<Statement>, denied: set<LockRequest>)
    requires locks.requests == []
    requires LockAll(locks, stmts, denied).Ok?
    ensures var after := LockAll(locks, stmts, denied).value;
      && LocksAccounted(locks, after)
      && (forall i :: 0 <= i < |stmts| && !stmts[i].prefetch && TakesReadLock(stmts[i]) ==> stmts[i].id in after.read + after.write)
      && (forall i :: 0 <= i < |stmts| && !stmts[i].prefetch && !TakesReadLock(stmts[i]) ==> stmts[i].id in after.write)
      && (forall i :: 0 <= i < |after.requests| && after.requests[i].mode == WriteLock ==> after.requests[i].id in after.write)
      && (forall i, j :: 0 <= i < j < |after.requests| && after.requests[i].mode == WriteLock ==> after.requests[i] != after.requests[j])
    decreases |stmts|
  {
    if |stmts| > 0 {
      var init := stmts[..|stmts| - 1];
      LockAllSpec(locks, init, denied);
      var l := LockAll(locks, init, denied).value;
      var after := LockAll(locks, stmts, denied).value;
      assert after.requests[..|l.requests|] == l.requests;
      forall i, j | 0 <= i < j < |after.requests| && after.requests[i].mode == WriteLock
        ensures after.requests[i] != after.requests[j]
      {
        assert after.requests[i] == l.requests[i];
        if j < |l.requests| {
          assert after.requests[j] == l.requests[j];
        }
      }
      forall i | 0 <= i < |stmts| && !stmts[i].prefetch
        ensures TakesReadLock(stmts[i]) ==> stmts[i].id in after.read + after.write
        ensures !TakesReadLock(stmts[i]) ==> stmts[i].id in after.write
      {
        if i < |init| {
          assert stmts[i] == init[i];
        }
      }
    }
  }

  /**
   * A read for update is locked like a write: the row's read lock is given
   * up and its write lock is held afterwards, and the request fails exactly
   * when the write lock is not yet held and times out.
   */
  lemma ReadForUpdateLocksForWrite(locks: Locks, table: string, id: int, txnType: int, txnId: int, denied: set<LockRequest>)
    ensures var r := LockStep(locks, ReadForUpdateStatement(table, id, txnType, txnId), denied);
      && (r.Err? <==> id !in locks.write && LockRequest(id, WriteLock) in denied)
      && (r.Ok? ==> id in r.value.write && id !in r.value.read && r.value.read == locks.read - {id})
      && (r.Ok? ==> LockRequest(id, ReadLock) !in r.value.requests[|locks.requests|..])
  {
  }

  /** The keys whose prefetch the tracker of statement `s` asks for. */
  function TopKeysOf(trackers: map<PrefetchIndex, PrefetchTracker>, s: Statement): set<Key>
    reads trackers.Values
  {
    var idx := PrefetchIndex(s.txnType, s.id);
    if idx in trackers && trackers[idx].PrefetchesTop() then trackers[idx].sets[0].keys else {}
  }

  /** The keys to prefetch for a layer: the union of what each statement's tracker asks for. */
  function PrefetchKeysFor(trackers: map<PrefetchIndex, PrefetchTracker>, stmts: seq<Statement>): set<Key>
    reads trackers.Values
  {
    if |stmts| == 0 then {} else PrefetchKeysFor(trackers, stmts[..|stmts| - 1]) + TopKeysOf(trackers, stmts[|stmts| - 1])
  }

  /** A key is prefetched exactly when the tracker of some statement of the layer passes the rule and has it in its top set. */
  lemma {:induction false} PrefetchKeysMember(trackers: map<PrefetchIndex, PrefetchTracker>, stmts: seq<Statement>, k: Key)
    ensures k in PrefetchKeysFor(trackers, stmts) <==>
      exists i :: 0 <= i < |stmts| && k in TopKeysOf(trackers, stmts[i])
    decreases |stmts|
  {
    if |stmts| > 0 {
      var init := stmts[..|stmts| - 1];
      PrefetchKeysMember(trackers, init, k);
      if k in PrefetchKeysFor(trackers, init) {
        var i :| 0 <= i < |init| && k in TopKeysOf(trackers, init[i]);
        assert stmts[i] == init[i];
      }
      if exists i :: 0 <= i < |stmts| && k in TopKeysOf(trackers, stmts[i]) {
        var i :| 0 <= i < |stmts| && k in TopKeysOf(trackers, stmts[i]);
        if i < |init| {
          assert init[i] == stmts[i];
        }
      }
    }
  }

  /** A second update of the same key overrides the first. */
  lemma UpdateTwice<K, V>(m: map<K, V>, k: K, a: V, b: V)
    ensures m[k := a][k := b] == m[k := b]
  {
  }

  /** The tracker indices of some rows under one transaction type. */
  function LayerIndices(txnType: int, ids: set<int>): set<PrefetchIndex>
  {
    set id | id in ids :: PrefetchIndex(txnType, id)
  }

  /**
   * The trackers after a layer is observed: the tracker of every row of the
   * previous layer, created empty when missing, observes the layer once; all
   * other trackers are as they were.
   */
  function ObservedViews(views: map<PrefetchIndex, TrackerView>, txnType: int, ids: set<int>, keys: set<Key>): (r: map<PrefetchIndex, TrackerView>)
    ensures r.Keys == views.Keys + LayerIndices(txnType, ids)
  {
    map idx | idx in views.Keys + LayerIndices(txnType, ids) ::
      if idx in LayerIndices(txnType, ids) then ObserveView(if idx in views then views[idx] else EmptyView, keys) else views[idx]
  }

  /** Observing through one more row of the previous layer is one more guarded observation by that row's tracker. */
  lemma ObservedViewsStep(views: map<PrefetchIndex, TrackerView>, txnType: int, done: set<int>, id: int, keys: set<Key>)
    requires id !in done
    ensures var before := ObservedViews(views, txnType, done, keys);
            var idx := PrefetchIndex(txnType, id);
            ObservedViews(views, txnType, done + {id}, keys)
              == before[idx := ObserveView(if idx in before then before[idx] else EmptyView, keys)]
  {
    var before := ObservedViews(views, txnType, done, keys);
    var idx := PrefetchIndex(txnType, id);
    var after := ObservedViews(views, txnType, done + {id}, keys);
    assert idx !in LayerIndices(txnType, done);
    assert LayerIndices(txnType, done + {id}) == LayerIndices(txnType, done) + {idx};
    assert after.Keys == before[idx := EmptyView].Keys;
  }

  /**
   * What observing a layer does to each tracker: the trackers of the previous
   * layer's rows that still track, or were just created, count one more
   * observation of exactly this layer; every other tracker is unchanged; and
   * every tracker keeps the tracker invariant.
   */
  lemma ObservedViewsSpec(views: map<PrefetchIndex, TrackerView>, txnType: int, ids: set<int>, keys: set<Key>)
    requires forall idx :: idx in views ==> ViewValid(views[idx])
    ensures var r := ObservedViews(views, txnType, ids, keys);
      && (forall idx :: idx in r ==> ViewValid(r[idx]))
      && (forall id :: id in ids && PrefetchIndex(txnType, id) !in views ==>
            r[PrefetchIndex(txnType, id)] == TrackerView([PrefetchSet(keys, 1)], 1, true))
      && (forall id :: id in ids && PrefetchIndex(txnType, id) in views && views[PrefetchIndex(txnType, id)].trackDeps ==>
            r[PrefetchIndex(txnType, id)].totalFreq == views[PrefetchIndex(txnType, id)].totalFreq + 1
            && r[PrefetchIndex(txnType, id)].sets == Observed(views[PrefetchIndex(txnType, id)].sets, keys))
      && (forall idx :: idx in views && (idx.txnType != txnType || idx.id !in ids || !views[idx].trackDeps) ==> r[idx] == views[idx])
  {
    var r := ObservedViews(views, txnType, ids, keys);
    ObserveEmptyView(keys);
    forall idx | idx in r
      ensures ViewValid(r[idx])
    {
      if idx in LayerIndices(txnType, ids) {
        if idx in views {
          ObserveViewKeepsTable(views[idx], keys);
        } else {
          ObserveViewKeepsTable(EmptyView, keys);
        }
      }
    }
    forall id | id in ids && PrefetchIndex(txnType, id) in views && views[PrefetchIndex(txnType, id)].trackDeps
      ensures r[PrefetchIndex(txnType, id)].totalFreq == views[PrefetchIndex(txnType, id)].totalFreq + 1
      ensures r[PrefetchIndex(txnType, id)].sets == Observed(views[PrefetchIndex(txnType, id)].sets, keys)
    {
      assert PrefetchIndex(txnType, id) in LayerIndices(txnType, ids);
    }
    forall idx | idx in views && (idx.txnType != txnType || idx.id !in ids || !views[idx].trackDeps)
      ensures r[idx] == views[idx]
    {
      if idx in LayerIndices(txnType, ids) {
        ObserveViewKeepsTable(views[idx], keys);
      }
    }
  }

  // ---------------------------------------------------------------------
  // The client
  // ---------------------------------------------------------------------

  class Client {
    /** `config.REDIS_ENABLED` and `config.REDIS_PREFETCH`. */
    const redisEnabled: bool
    const prefetchEnabled: bool

    var pending: seq<Statement>
    var readLockIds: set<int>
    var writeLockIds: set<int>
    var lastLayerMap: map<int, set<int>>
    var lastLayerPrefetched: map<int, map<int, bool>>
    var prefetchMap: map<PrefetchIndex, PrefetchTracker>

    /** No lock is held without the cache, both per-transaction maps know the same transactions, and every tracker is valid. */
    ghost predicate Valid()
      reads this, prefetchMap.Values
    {
      LocksValid() && LayersValid() && TrackersValid()
    }

    /** Without the cache no lock is held. */
    ghost predicate LocksValid()
      reads this`readLockIds, this`writeLockIds
    {
      !redisEnabled ==> readLockIds == {} && writeLockIds == {}
    }

    /** Both per-transaction maps know the same transactions. */
    ghost predicate LayersValid()
      reads this`lastLayerMap, this`lastLayerPrefetched
    {
      lastLayerMap.Keys == lastLayerPrefetched.Keys
    }

    /** Every tracker is valid, and distinct indices have distinct trackers (one is created per index). */
    ghost predicate TrackersValid()
      reads this`prefetchMap, prefetchMap.Values
    {
      && (forall idx :: idx in prefetchMap ==> prefetchMap[idx].Valid())
      && (forall i, j :: i in prefetchMap && j in prefetchMap && i != j ==> prefetchMap[i] != prefetchMap[j])
    }

    /** The trackers' states as values. */
    ghost function Views(): (r: map<PrefetchIndex, TrackerView>)
      reads this`prefetchMap, prefetchMap.Values
      ensures r.Keys == prefetchMap.Keys
    {
      map idx | idx in prefetchMap :: prefetchMap[idx].View()
    }

    constructor(redisEnabled: bool, prefetchEnabled: bool)
      ensures Valid() && this.redisEnabled == redisEnabled && this.prefetchEnabled == prefetchEnabled
      ensures pending == [] && readLockIds == {} && writeLockIds == {}
      ensures lastLayerMap == map[] && lastLayerPrefetched == map[] && prefetchMap == map[]
    {
      this.redisEnabled := redisEnabled;
      this.prefetchEnabled := prefetchEnabled;
      pending := [];
      readLockIds := {};
      writeLockIds := {};
      lastLayerMap := map[];
      lastLayerPrefetched := map[];
      prefetchMap := map[];
    }

    /** `abortTransaction`: the pending statements are dropped and every lock is released. */
    method AbortTransaction()
      requires Valid()
      modifies this
      ensures Valid()
      ensures pending == [] && readLockIds == {} && writeLockIds == {}
      ensures lastLayerMap == old(lastLayerMap) && lastLayerPrefetched == old(lastLayerPrefetched) && prefetchMap == old(prefetchMap)
    {
      pending := [];
      if redisEnabled {
        readLockIds := {};
        writeLockIds := {};
      }
    }

    /**
     * `readForUpdate` on the key-value path: a read of the row keyed by the
     * persistent hash of table name and row key is queued, flagged so that
     * the layer takes its write lock.
     */
    method ReadForUpdate(table: string, row: string, txnType: int, txnId: int, hash: string -> int)
      modifies this`pending
      ensures pending == old(pending) + [ReadForUpdateStatement(table, hash(table + row), txnType, txnId)]
    {
      pending := pending + [ReadForUpdateStatement(table, hash(table + row), txnType, txnId)];
    }

    /** The prefetch-selection loop of `executeOps`, over the pending statements. */
    method SelectPrefetchKeys() returns (keys: set<Key>)
      ensures keys == PrefetchKeysFor(prefetchMap, pending)
    {
      keys := {};
      var i := 0;
      while i < |pending|
        invariant 0 <= i <= |pending|
        invariant keys == PrefetchKeysFor(prefetchMap, pending[..i])
      {
        var s := pending[i];
        var idx := PrefetchIndex(s.txnType, s.id);
        assert pending[..i + 1][..i] == pending[..i];
        if idx in prefetchMap {
          var tracker := prefetchMap[idx];
          if tracker.trackDeps && |tracker.sets| > 0 && tracker.totalFreq != 0
             && (tracker.sets[0].freq as real) / (tracker.totalFreq as real) > PrefetchFreqThreshold {
            keys := keys + tracker.sets[0].keys;
          }
        }
        i := i + 1;
      }
      assert pending[..i] == pending;
    }

    /** The ids of the pending statements, in order. */
    function PendingIds(stmts: seq<Statement>): (ids: seq<int>)
      ensures |ids| == |stmts| && forall i :: 0 <= i < |stmts| ==> ids[i] == stmts[i].id
    {
      seq(|stmts|, i requires 0 <= i < |stmts| => stmts[i].id)
    }

    /** The tracker of `idx`, created empty when there is none. */
    method TrackerFor(idx: PrefetchIndex) returns (tracker: PrefetchTracker)
      requires TrackersValid()
      modifies this`prefetchMap
      ensures TrackersValid()
      ensures idx in prefetchMap && tracker == prefetchMap[idx]
      ensures idx in old(prefetchMap) ==> prefetchMap == old(prefetchMap)
      ensures idx !in old(prefetchMap) ==>
        (fresh(tracker) && prefetchMap == old(prefetchMap)[idx := tracker] && tracker.sets == [] && tracker.totalFreq == 0 && tracker.trackDeps)
      ensures Views() == old(Views())[idx := if idx in old(Views()) then old(Views())[idx] else EmptyView]
    {
      if idx in prefetchMap {
        tracker := prefetchMap[idx];
        assert old(Views())[idx := old(Views())[idx]] == old(Views());
      } else {
        tracker := AddTracker(idx);
      }
    }

    /** A fresh empty tracker is added under `idx`, which has none. */
    method AddTracker(idx: PrefetchIndex) returns (tracker: PrefetchTracker)
      requires TrackersValid() && idx !in prefetchMap
      modifies this`prefetchMap
      ensures TrackersValid()
      ensures fresh(tracker) && prefetchMap == old(prefetchMap)[idx := tracker]
      ensures tracker.sets == [] && tracker.totalFreq == 0 && tracker.trackDeps
      ensures Views() == old(Views())[idx := EmptyView]
    {
      tracker := new PrefetchTracker();
      prefetchMap := prefetchMap[idx := tracker];
    }

    /** The layer just observed is fed to the tracker of `idx`, created first when there is none. */
    method ObserveOne(idx: PrefetchIndex, layer: set<Key>)
      requires TrackersValid()
      modifies this`prefetchMap, prefetchMap.Values
      ensures TrackersValid()
      ensures idx in prefetchMap
      ensures prefetchMap == old(prefetchMap) || (idx !in old(prefetchMap) && fresh(prefetchMap[idx]) && prefetchMap == old(prefetchMap)[idx := prefetchMap[idx]])
      ensures Views() == old(Views())[idx := ObserveView(if idx in old(Views()) then old(Views())[idx] else EmptyView, layer)]
    {
      ghost var before := Views();
      var tracker := TrackerFor(idx);
      ObserveAt(idx, layer);
      ghost var start := if idx in before then before[idx] else EmptyView;
      UpdateTwice(before, idx, start, ObserveView(start, layer));
    }

    /** One more row of the previous layer: its tracker observes the layer, one step further through `ObservedViews`. */
    method ObserveRow(txnType: int, id: int, layer: set<Key>, ghost start: map<PrefetchIndex, TrackerView>, ghost done: set<int>)
      requires TrackersValid() && id !in done
      requires Views() == ObservedViews(start, txnType, done, layer)
      modifies this`prefetchMap, prefetchMap.Values
      ensures TrackersValid()
      ensures forall t :: t in prefetchMap.Values ==> t in old(prefetchMap.Values) || fresh(t)
      ensures Views() == ObservedViews(start, txnType, done + {id}, layer)
    {
      ObservedViewsStep(start, txnType, done, id, layer);
      ObserveOne(PrefetchIndex(txnType, id), layer);
    }

    /** The tracker of `idx` is fed the layer when it still tracks; no other tracker changes. */
    method ObserveAt(idx: PrefetchIndex, layer: set<Key>)
      requires TrackersValid() && idx in prefetchMap
      modifies prefetchMap[idx]
      ensures TrackersValid()
      ensures Views() == old(Views())[idx := ObserveView(old(Views())[idx], layer)]
    {
      ghost var before := Views();
      var tracker := prefetchMap[idx];
      tracker.ObserveIfTracking(layer);
      ghost var expected := before[idx := ObserveView(before[idx], layer)];
      forall i | i in prefetchMap
        ensures prefetchMap[i].View() == expected[i]
      {
        if i != idx {
          assert prefetchMap[i] != tracker;
        }
      }
      assert Views() == expected;
    }

    /** The layer just observed is fed to the tracker of every id of the previous layer that still tracks. */
    method ObserveLastLayer(txnType: int, lastLayer: set<int>, layer: set<Key>)
      requires TrackersValid()
      modifies this`prefetchMap, prefetchMap.Values
      ensures TrackersValid()
      ensures forall id :: id in lastLayer ==> PrefetchIndex(txnType, id) in prefetchMap
      ensures Views() == ObservedViews(old(Views()), txnType, lastLayer, layer)
    {
      ghost var start := Views();
      ghost var trackers := prefetchMap;
      var rest := lastLayer;
      while rest != {}
        invariant TrackersValid()
        invariant rest <= lastLayer
        invariant forall t :: t in prefetchMap.Values ==> t in trackers.Values || fresh(t)
        invariant Views() == ObservedViews(start, txnType, lastLayer - rest, layer)
        decreases |rest|
      {
        // Some row of the layer, in no particular order (a `HashSet` iteration).
        assert (forall x :: x !in rest) ==> rest == {};
        var id :| id in rest;
        ObserveRow(txnType, id, layer, start, lastLayer - rest);
        assert (lastLayer - rest) + {id} == lastLayer - (rest - {id});
        rest := rest - {id};
      }
      assert lastLayer - rest == lastLayer;
      forall id | id in lastLayer
        ensures PrefetchIndex(txnType, id) in prefetchMap
      {
        assert PrefetchIndex(txnType, id) in LayerIndices(txnType, lastLayer);
      }
    }

    /** The prefetch reads are added to the layer, each remembered as not yet useful. */
    method AppendPrefetches(keys: set<Key>) returns (prefetched: map<int, bool>)
      modifies this`pending
      ensures |pending| == |old(pending)| + |keys| && pending[..|old(pending)|] == old(pending)
      ensures forall k :: PrefetchRead(k) in pending[|old(pending)|..] <==> k in keys
      ensures forall i :: |old(pending)| <= i < |pending| ==> pending[i].prefetch
      ensures prefetched.Keys == IdsOf(keys) && forall id :: id in prefetched ==> !prefetched[id]
    {
      var added;
      added, prefetched := PrefetchReads(keys);
      pending := pending + added;
      assert pending[|old(pending)|..] == added;
    }

    /**
     * The locking loop of `executeOps`: every pending statement is locked in
     * order when the cache is enabled; a lock that times out aborts the
     * transaction.
     */
    method AcquireLocks(denied: set<LockRequest>) returns (r: Result<seq<LockRequest>, Abort>)
      requires Valid()
      modifies this
      ensures Valid()
      ensures !redisEnabled ==> r == Ok([]) && pending == old(pending) && readLockIds == {} && writeLockIds == {}
      ensures redisEnabled ==> match LockAll(Locks(old(readLockIds), old(writeLockIds), []), old(pending), denied)
        case Ok(l) => r == Ok(l.requests) && readLockIds == l.read && writeLockIds == l.write && pending == old(pending)
        case Err(e) => r == Err(e) && pending == [] && readLockIds == {} && writeLockIds == {}
      ensures lastLayerMap == old(lastLayerMap) && lastLayerPrefetched == old(lastLayerPrefetched) && prefetchMap == old(prefetchMap)
    {
      if !redisEnabled {
        return Ok([]);
      }
      ghost var start := Locks(readLockIds, writeLockIds, []);
      var requests: seq<LockRequest> := [];
      var i := 0;
      while i < |pending|
        invariant 0 <= i <= |pending| && pending == old(pending)
        invariant LockAll(start, pending[..i], denied) == Ok(Locks(readLockIds, writeLockIds, requests))
        invariant Valid()
        invariant lastLayerMap == old(lastLayerMap) && lastLayerPrefetched == old(lastLayerPrefetched) && prefetchMap == old(prefetchMap)
      {
        var s := pending[i];
        assert pending[..i + 1][..i] == pending[..i];
        if !s.prefetch {
          if s.kind == Get && !s.forUpdate {
            if s.id !in readLockIds {
              if LockRequest(s.id, ReadLock) in denied {
                FailureStopsAll(start, pending, denied, i + 1);
                AbortTransaction();
                return Err(FailedToAcquireLock(LockRequest(s.id, ReadLock)));
              }
              readLockIds := readLockIds + {s.id};
              requests := requests + [LockRequest(s.id, ReadLock)];
            }
          } else {
            readLockIds := readLockIds - {s.id};
            if s.id !in writeLockIds {
              if LockRequest(s.id, WriteLock) in denied {
                FailureStopsAll(start, pending, denied, i + 1);
                AbortTransaction();
                return Err(FailedToAcquireLock(LockRequest(s.id, WriteLock)));
              }
              writeLockIds := writeLockIds + {s.id};
              requests := requests + [LockRequest(s.id, WriteLock)];
            }
          }
        }
        i := i + 1;
      }
      assert pending[..i] == pending;
      r := Ok(requests);
    }

    /**
     * The first half of the prefetch bookkeeping of `executeOps`: count how
     * many of the rows prefetched for the previous layer this layer uses, and
     * feed this layer to the trackers of the previous layer's rows.
     */
    method ObserveLayer(txn: int) returns (used: nat, redundant: nat)
      requires Valid() && |pending| > 0
      modifies prefetchMap.Values, this`prefetchMap
      ensures Valid()
      ensures txn in lastLayerMap ==> used == Hits(PendingIds(pending), lastLayerPrefetched[txn]) && redundant <= used
      ensures txn !in lastLayerMap ==> used == 0 && redundant == 0
      ensures txn in lastLayerMap ==> forall id :: id in lastLayerMap[txn] ==> PrefetchIndex(pending[0].txnType, id) in prefetchMap
      ensures txn in lastLayerMap ==> Views() == ObservedViews(old(Views()), pending[0].txnType, lastLayerMap[txn], LayerKeys(pending))
      ensures txn !in lastLayerMap ==> Views() == old(Views())
    {
      used, redundant := 0, 0;
      if txn in lastLayerMap {
        used, redundant := CountPrefetchHits(PendingIds(pending), lastLayerPrefetched[txn]);
        ObserveLastLayer(pending[0].txnType, lastLayerMap[txn], LayerKeys(pending));
        assert pending == old(pending) && lastLayerMap == old(lastLayerMap);
      }
    }

    /**
     * The second half: remember this layer's rows, append a prefetch read for
     * every key the trackers of this layer ask for, and remember those as not
     * yet used.
     */
    method PrefetchForLayer(txn: int)
      requires LayersValid()
      modifies this`pending, this`lastLayerMap, this`lastLayerPrefetched
      ensures LayersValid()
      ensures |pending| >= |old(pending)| && pending[..|old(pending)|] == old(pending)
      ensures forall i :: |old(pending)| <= i < |pending| ==> pending[i].prefetch
      ensures forall k :: PrefetchRead(k) in pending[|old(pending)|..] <==> k in old(PrefetchKeysFor(prefetchMap, pending))
      ensures lastLayerMap == old(lastLayerMap)[txn := LayerIds(old(pending))]
      ensures lastLayerPrefetched[txn].Keys == IdsOf(old(PrefetchKeysFor(prefetchMap, pending)))
      ensures forall id :: id in lastLayerPrefetched[txn] ==> !lastLayerPrefetched[txn][id]
    {
      var keys := SelectPrefetchKeys();
      lastLayerMap := lastLayerMap[txn := LayerIds(pending)];
      var prefetched := AppendPrefetches(keys);
      lastLayerPrefetched := lastLayerPrefetched[txn := prefetched];
    }

    /** The prefetch bookkeeping of `executeOps`, when the cache and prefetching are on; what the layer reports is unchanged by it. */
    method PrepareLayer(txn: int, fetch: Statement -> Option<seq<int>>)
      requires Valid() && |pending| > 0
      modifies this, prefetchMap.Values
      ensures Valid()
      ensures ReadResults(pending, fetch) == ReadResults(old(pending), fetch)
      ensures !(redisEnabled && prefetchEnabled) ==> pending == old(pending) && lastLayerMap == old(lastLayerMap)
      ensures readLockIds == old(readLockIds) && writeLockIds == old(writeLockIds)
    {
      if redisEnabled && prefetchEnabled {
        ghost var queued := pending;
        var used, redundant := ObserveLayer(txn);
        assert readLockIds == old(readLockIds) && writeLockIds == old(writeLockIds);
        PrefetchForLayer(txn);
        ReadResultsPrefetchTail(pending, |queued|, fetch);
      }
    }

    /**
     * The result loop of `executeOps`: the reads of the layer in order, and
     * every prefetch the cache already held flagged in this transaction's
     * map of prefetched rows.
     */
    method CollectResults(txn: int, fetch: Statement -> Option<seq<int>>, spedUp: Statement -> bool) returns (results: seq<seq<int>>)
      requires LayersValid()
      modifies this`lastLayerPrefetched
      ensures LayersValid()
      ensures results == ReadResults(pending, fetch)
      ensures txn in old(lastLayerPrefetched) ==>
        lastLayerPrefetched == old(lastLayerPrefetched)[txn := Marked(old(lastLayerPrefetched[txn]), pending, spedUp)]
      ensures txn !in old(lastLayerPrefetched) ==> lastLayerPrefetched == old(lastLayerPrefetched)
    {
      results := [];
      var i := 0;
      while i < |pending|
        invariant 0 <= i <= |pending|
        invariant results == ReadResults(pending[..i], fetch)
        invariant txn in old(lastLayerPrefetched) ==>
          lastLayerPrefetched == old(lastLayerPrefetched)[txn := Marked(old(lastLayerPrefetched[txn]), pending[..i], spedUp)]
        invariant txn !in old(lastLayerPrefetched) ==> lastLayerPrefetched == old(lastLayerPrefetched)
      {
        assert pending[..i + 1][..i] == pending[..i];
        var s := pending[i];
        if s.prefetch {
          if spedUp(s) && txn in lastLayerPrefetched {
            lastLayerPrefetched := lastLayerPrefetched[txn := lastLayerPrefetched[txn][s.id := true]];
          }
        } else {
          var value := fetch(s);
          if value.Some? {
            results := results + [value.value];
          }
        }
        i := i + 1;
      }
      assert pending[..i] == pending;
    }

    /**
     * `executeOps` (and `executeOpsTiKV`, which keeps the same books): with
     * nothing pending it returns an empty list and changes nothing;
     * otherwise it updates the prefetch state, locks the layer and, unless a
     * lock times out, returns the reads of the statements the caller queued,
     * in order, and clears the pending list.
     */
    method ExecuteOps(denied: set<LockRequest>, fetch: Statement -> Option<seq<int>>, spedUp: Statement -> bool)
      returns (r: Result<seq<seq<int>>, Abort>)
      requires Valid()
      modifies this, prefetchMap.Values
      ensures Valid()
      ensures old(pending) == [] ==>
        (r == Ok([]) && readLockIds == old(readLockIds) && writeLockIds == old(writeLockIds)
         && lastLayerMap == old(lastLayerMap) && lastLayerPrefetched == old(lastLayerPrefetched) && prefetchMap == old(prefetchMap))
      ensures pending == []
      ensures r.Ok? ==> r.value == ReadResults(old(pending), fetch)
      ensures r.Err? ==> readLockIds == {} && writeLockIds == {}
    {
      if |pending| == 0 {
        return Ok([]);
      }
      var txn := pending[0].txnId;
      PrepareLayer(txn, fetch);
      var locked := AcquireLocks(denied);
      if locked.Err? {
        return Err(locked.error);
      }
      var results := CollectResults(txn, fetch, spedUp);
      pending := [];
      r := Ok(results);
    }

    /** `commitTransaction`: the last layer is executed, then every lock is released. */
    method CommitTransaction(denied: set<LockRequest>, fetch: Statement -> Option<seq<int>>, spedUp: Statement -> bool) returns (r: Result<seq<seq<int>>, Abort>)
      requires Valid()
      modifies this, prefetchMap.Values
      ensures Valid()
      ensures pending == [] && readLockIds == {} && writeLockIds == {}
      ensures r.Ok? ==> r.value == ReadResults(old(pending), fetch)
    {
      r := ExecuteOps(denied, fetch, spedUp);
      if r.Err? {
        return;
      }
      if redisEnabled {
        readLockIds := {};
        writeLockIds := {};
      }
    }
  }

  /** The reads of the layer, in order: prefetches are not reported, and a statement that read nothing adds nothing. */
  function ReadResults(stmts: seq<Statement>, fetch: Statement -> Option<seq<int>>): seq<seq<int>>
  {
    if |stmts| == 0 then []
    else
      var last := stmts[|stmts| - 1];
      ReadResults(stmts[..|stmts| - 1], fetch) + (if !last.prefetch && fetch(last).Some? then [fetch(last).value] else [])
  }

  /** The rows of a layer, with their tables (`thisLayerWithTables`). */
  function LayerKeys(stmts: seq<Statement>): set<Key>
  {
    set s | s in stmts :: Key(s.table, s.id)
  }

  /** The row ids of a layer (`thisLayer`). */
  function LayerIds(stmts: seq<Statement>): set<int>
  {
    set s | s in stmts :: s.id
  }

  /** Appending prefetch reads does not change what the layer reports. */
  lemma {:induction false} ReadResultsSkipPrefetches(stmts: seq<Statement>, extra: seq<Statement>, fetch: Statement -> Option<seq<int>>)
    requires forall i :: 0 <= i < |extra| ==> extra[i].prefetch
    ensures ReadResults(stmts + extra, fetch) == ReadResults(stmts, fetch)
    decreases |extra|
  {
    if |extra| > 0 {
      var init := extra[..|extra| - 1];
      assert (stmts + extra)[..|stmts + extra| - 1] == stmts + init;
      ReadResultsSkipPrefetches(stmts, init, fetch);
    } else {
      assert stmts + extra == stmts;
    }
  }

  /** A list whose statements from `n` on are prefetch reads reports what its first `n` statements report. */
  lemma ReadResultsPrefetchTail(stmts: seq<Statement>, n: nat, fetch: Statement -> Option<seq<int>>)
    requires n <= |stmts|
    requires forall i :: n <= i < |stmts| ==> stmts[i].prefetch
    ensures ReadResults(stmts, fetch) == ReadResults(stmts[..n], fetch)
  {
    assert stmts == stmts[..n] + stmts[n..];
    ReadResultsSkipPrefetches(stmts[..n], stmts[n..], fetch);
  }

  /**
   * The flags after the reads of a layer come back: a prefetch the cache
   * already held (`spedUp`) marks its row as redundant.
   */
  function Marked(prefetched: map<int, bool>, stmts: seq<Statement>, spedUp: Statement -> bool): map<int, bool>
  {
    if |stmts| == 0 then prefetched
    else
      var last := stmts[|stmts| - 1];
      var m := Marked(prefetched, stmts[..|stmts| - 1], spedUp);
      if last.prefetch && spedUp(last) then m[last.id := true] else m
  }

  /** A row is flagged afterwards exactly when it was flagged before or a prefetch of it was sped up; no flag is cleared. */
  lemma {:induction false} MarkedSpec(prefetched: map<int, bool>, stmts: seq<Statement>, spedUp: Statement -> bool, id: int)
    ensures id in Marked(prefetched, stmts, spedUp) <==>
      id in prefetched || exists i :: 0 <= i < |stmts| && stmts[i].prefetch && spedUp(stmts[i]) && stmts[i].id == id
    ensures (id in Marked(prefetched, stmts, spedUp) && Marked(prefetched, stmts, spedUp)[id]) <==>
      (id in prefetched && prefetched[id]) || exists i :: 0 <= i < |stmts| && stmts[i].prefetch && spedUp(stmts[i]) && stmts[i].id == id
    decreases |stmts|
  {
    if |stmts| > 0 {
      var init := stmts[..|stmts| - 1];
      MarkedSpec(prefetched, init, spedUp, id);
      if exists i :: 0 <= i < |init| && init[i].prefetch && spedUp(init[i]) && init[i].id == id {
        var i :| 0 <= i < |init| && init[i].prefetch && spedUp(init[i]) && init[i].id == id;
        assert stmts[i] == init[i];
      }
      if exists i :: 0 <= i < |stmts| && stmts[i].prefetch && spedUp(stmts[i]) && stmts[i].id == id {
        var i :| 0 <= i < |stmts| && stmts[i].prefetch && spedUp(stmts[i]) && stmts[i].id == id;
        if i < |init| {
          assert init[i] == stmts[i];
        }
      }
    }
  }

  /** Once a lock times out, locking the rest of the layer fails too. */
  lemma {:induction false} FailureStopsAll(start: Locks, stmts: seq<Statement>, denied: set<LockRequest>, n: nat)
    requires n <= |stmts| && LockAll(start, stmts[..n], denied).Err?
    ensures LockAll(start, stmts, denied) == LockAll(start, stmts[..n], denied)
    decreases |stmts| - n
  {
    if n < |stmts| {
      assert stmts[..n + 1][..n] == stmts[..n];
      FailureStopsAll(start, stmts, denied, n + 1);
    } else {
      assert stmts[..n] == stmts;
    }
  }
}
