/**
 * The write-ahead log of the durable Ring ORAM proxy: which epoch each
 * persisted map was last checkpointed at, whether a map is written in full
 * or as a diff, how a blob is cut into stride-sized chunks behind a header
 * that counts them and how the chunks are joined again, the epoch and
 * read-path counters, decoding of the stored last-completed epoch, the keys
 * read back on recovery and the keys deleted once an epoch completes.
 *
 * The backing store, the thread pool, the cipher behind masking and map
 * (de)serialisation are not modelled: serialised maps and the keyed mask
 * are parameters, and a write is returned as
 * a (key, value) pair instead of being sent.  Store keys are the structured
 * values the source formats into strings and hashes; the hash is taken to
 * be injective.
 */
module WriteAheadLog {
  import opened Wrappers
  import opened Seqs

  type Byte = b: int | 0 <= b < 256
  type Bytes = seq<Byte>

  const IntMin: int := -0x8000_0000
  const IntMax: int := 0x7fff_ffff

  /** `x` fits in a Java `int`. */
  predicate IsInt(x: int) { IntMin <= x <= IntMax }

  function Max(a: int, b: int): int { if a >= b then a else b }

  function Min(a: int, b: int): int { if a <= b then a else b }

  // ---------------------------------------------------------------------
  // 32-bit integers as bytes
  // ---------------------------------------------------------------------

  /** Guava's `Ints.toByteArray`: the four bytes of a 32-bit int, most significant first, in two's complement. */
  function IntToBytes(x: int): (b: Bytes)
    requires IsInt(x)
    ensures |b| == 4
  {
    var u0 := if x < 0 then x + 0x1_0000_0000 else x;
    var u1 := u0 / 0x100;
    var u2 := u1 / 0x100;
    [u2 / 0x100, u2 % 0x100, u1 % 0x100, u0 % 0x100]
  }

  /** Guava's `Ints.fromByteArray`: the int whose big-endian two's-complement form is the first four bytes. */
  function BytesToInt(b: Bytes): (x: int)
    requires |b| >= 4
    ensures IsInt(x)
  {
    var u := (((b[0] as int) * 0x100 + b[1]) * 0x100 + b[2]) * 0x100 + b[3];
    if u >= 0x8000_0000 then u - 0x1_0000_0000 else u
  }

  /** Decoding the bytes of an int gives the int back. */
  lemma IntBytesRoundTrip(x: int)
    requires IsInt(x)
    ensures BytesToInt(IntToBytes(x)) == x
  {
    var u0 := if x < 0 then x + 0x1_0000_0000 else x;
    var u1 := u0 / 0x100;
    var u2 := u1 / 0x100;
    assert u0 == u1 * 0x100 + u0 % 0x100;
    assert u1 == u2 * 0x100 + u1 % 0x100;
    assert u2 == (u2 / 0x100) * 0x100 + u2 % 0x100;
  }

  // ---------------------------------------------------------------------
  // Checkpoint epochs
  // ---------------------------------------------------------------------

  /** Java's `%` on `int`: the remainder takes the sign of the dividend. */
  function JavaRem(a: int, b: int): (r: int)
    requires b > 0
    ensures a >= 0 ==> r == a % b
    ensures a < 0 ==> -b < r <= 0
  {
    if a >= 0 then a % b else -((-a) % b)
  }

  /**
   * The epoch at which a map with checkpoint offset `offset` was last
   * written in full, seen from epoch `epoch`, checkpoints falling every
   * `frequency` epochs (`getLastPositionMapCheckpoint` and its four copies).
   */
  function LastCheckpoint(epoch: int, frequency: int, offset: int): int
    requires frequency > 0
  {
    var m := JavaRem(epoch, frequency);
    if m < offset then Max(0, (epoch - m) - frequency + offset) else (epoch - m) + offset
  }

  /**
   * Whether the map written for epoch `lastCompletedEpoch + 1` is written in
   * full (its serialisation) rather than as a diff: on the very first epoch
   * and at every epoch whose remainder is the map's checkpoint offset.
   */
  predicate WritesFull(lastCompletedEpoch: int, frequency: int, offset: int)
    requires frequency > 0
  {
    lastCompletedEpoch == -1 || JavaRem(lastCompletedEpoch + 1, frequency) == offset
  }

  /** A nonzero multiple of a positive number is at least that number in size. */
  lemma MulBound(k: int, f: int)
    requires f > 0
    ensures k >= 1 ==> k * f >= f
    ensures k <= -1 ==> k * f <= -f
  {
  }

  /** Euclidean division of `q * f + d` by `f`, for a remainder `d` in range. */
  lemma ModOfMulAdd(q: int, f: int, d: int)
    requires f > 0 && 0 <= d < f
    ensures (q * f + d) / f == q && (q * f + d) % f == d
  {
    var t := q * f + d;
    var q', d' := t / f, t % f;
    assert t == q' * f + d';
    var k := q - q';
    assert k * f == q * f - q' * f;
    MulBound(k, f);
  }

  /** An epoch minus its remainder is a multiple of the frequency. */
  lemma RemainderBase(e: int, f: int)
    requires f > 0
    ensures (e - e % f) % f == 0
    ensures e >= 0 ==> e - e % f >= 0
  {
    ModOfMulAdd(e / f, f, 0);
    assert e - e % f == (e / f) * f;
    if e >= 0 {
      assert e / f >= 0;
      MulBound(e / f, f);
    }
  }

  /** Adding a remainder in range to a multiple of `f` gives that remainder. */
  lemma ModShift(base: int, f: int, d: int)
    requires f > 0 && base % f == 0 && 0 <= d < f
    ensures (base + d) % f == d
  {
    assert base == (base / f) * f;
    ModOfMulAdd(base / f, f, d);
  }

  /** One period below a multiple of `f` is again a multiple of `f`. */
  lemma ModShiftDown(base: int, f: int)
    requires f > 0 && base % f == 0
    ensures (base - f) % f == 0
  {
    assert base == (base / f) * f;
    assert base - f == (base / f - 1) * f;
    ModOfMulAdd(base / f - 1, f, 0);
  }

  /**
   * For an epoch `e >= 0` and an offset below the frequency, LastCheckpoint
   * is the latest epoch up to `e` whose map was written in full: it is at
   * most `e`, it was a full write (it is 0 or has remainder `offset`), and
   * every later epoch up to `e` wrote only a diff.  Recovery therefore
   * starts from a full image and applies diffs only.
   */
  lemma CheckpointIsLatestFullWrite(e: int, f: int, c: int)
    requires e >= 0 && 0 <= c < f
    ensures 0 <= LastCheckpoint(e, f, c) <= e
    ensures LastCheckpoint(e, f, c) > 0 ==> LastCheckpoint(e, f, c) % f == c
    ensures WritesFull(LastCheckpoint(e, f, c) - 1, f, c)
    ensures forall t :: LastCheckpoint(e, f, c) <= t < e ==> !WritesFull(t, f, c)
  {
    var m := e % f;
    var base := e - m;
    RemainderBase(e, f);
    var r := LastCheckpoint(e, f, c);
    if m >= c {
      assert r == base + c;
      ModShift(base, f, c);
      forall t | r <= t < e
        ensures !WritesFull(t, f, c)
      {
        ModShift(base, f, t + 1 - base);
      }
    } else if base == 0 {
      assert r == 0;
      forall t | r <= t < e
        ensures !WritesFull(t, f, c)
      {
        ModShift(0, f, t + 1);
      }
    } else {
      assert base >= f by {
        assert base == (base / f) * f;
        MulBound(base / f, f);
      }
      assert r == base - f + c;
      ModShiftDown(base, f);
      ModShift(base - f, f, c);
      forall t | r <= t < e
        ensures !WritesFull(t, f, c)
      {
        if t + 1 < base {
          ModShift(base - f, f, t + 1 - (base - f));
        } else {
          ModShift(base, f, t + 1 - base);
        }
      }
    }
  }

  // ---------------------------------------------------------------------
  // Store keys and configuration
  // ---------------------------------------------------------------------

  datatype MapKind = PositionMap | ValidMap | StaleMap | EarlyReshuffleMap | PermutationMap

  /** The order in which recovery reads the maps. */
  const MapOrder: seq<MapKind> := [PositionMap, ValidMap, StaleMap, EarlyReshuffleMap, PermutationMap]

  /** The keys the log writes under, before they are formatted and hashed. */
  datatype StoreKey =
    | LastCompletedEpochKey
    | LogicalAccessKey(epoch: int, index: int)
    | MapKey(kind: MapKind, epoch: int)
    | StashKey(epoch: int)
    | EvictedPathCountKey(epoch: int)
    | ChunkKey(parent: StoreKey, index: int)

  datatype Write = Write(key: StoreKey, value: Bytes)

  datatype Config = Config(
    checkpointFrequency: int,
    positionMapCheckpoint: int,
    validMapCheckpoint: int,
    staleMapCheckpoint: int,
    earlyReshuffleMapCheckpoint: int,
    permutationMapCheckpoint: int,
    strideSize: int,
    maxLogicalAccessesInBatch: int)

  function CheckpointOffset(cfg: Config, kind: MapKind): int
  {
    match kind
    case PositionMap => cfg.positionMapCheckpoint
    case ValidMap => cfg.validMapCheckpoint
    case StaleMap => cfg.staleMapCheckpoint
    case EarlyReshuffleMap => cfg.earlyReshuffleMapCheckpoint
    case PermutationMap => cfg.permutationMapCheckpoint
  }

  /** Positive frequency and stride, and every checkpoint offset a remainder of the frequency. */
  predicate ValidConfig(cfg: Config)
  {
    && cfg.checkpointFrequency > 0
    && cfg.strideSize > 0
    && forall kind :: 0 <= CheckpointOffset(cfg, kind) < cfg.checkpointFrequency
  }

  /** Whether the write task of a map masks its chunks (the valid and early-reshuffle maps are not masked). */
  predicate MaskedOnWrite(kind: MapKind)
  {
    kind != ValidMap && kind != EarlyReshuffleMap
  }

  /** Whether recovery unmasks a map's chunks when it concatenates them. */
  predicate UnmaskedOnRead(kind: MapKind)
  {
    match kind
    case PositionMap => true
    case ValidMap => false
    case StaleMap => true
    case EarlyReshuffleMap => false
    case PermutationMap => true
  }

  /** Recovery unmasks exactly the maps whose chunks were masked when written. */
  lemma MaskingAgrees(kind: MapKind)
    ensures MaskedOnWrite(kind) <==> UnmaskedOnRead(kind)
  {
  }

  // ---------------------------------------------------------------------
  // Striding
  // ---------------------------------------------------------------------

  /** `data` cut into consecutive chunks of `stride` bytes, the last one possibly shorter. */
  function Chunks(data: Bytes, stride: int): (chunks: seq<Bytes>)
    requires stride > 0
    ensures forall k :: 0 <= k < |chunks| ==> 0 < |chunks[k]| <= stride
    decreases |data|
  {
    if |data| == 0 then []
    else if |data| <= stride then [data]
    else [data[..stride]] + Chunks(data[stride..], stride)
  }

  /** Joining the chunks in order gives the data back. */
  lemma {:induction false} ChunksRejoin(data: Bytes, stride: int)
    requires stride > 0
    ensures Flatten(Chunks(data, stride)) == data
    decreases |data|
  {
    if |data| == 0 {
    } else if |data| <= stride {
      FlattenCons(data, []);
    } else {
      ChunksRejoin(data[stride..], stride);
      FlattenCons(data[..stride], Chunks(data[stride..], stride));
      assert data[..stride] + data[stride..] == data;
    }
  }

  /** One more period adds one to the quotient. */
  lemma DivAddOne(x: int, s: int)
    requires s > 0
    ensures (x + s) / s == x / s + 1
  {
    assert x + s == (x / s + 1) * s + x % s;
    ModOfMulAdd(x / s + 1, s, x % s);
  }

  /** There are ceil(|data| / stride) chunks. */
  lemma {:induction false} ChunksCount(data: Bytes, stride: int)
    requires stride > 0
    ensures |Chunks(data, stride)| == (|data| + stride - 1) / stride
    decreases |data|
  {
    if |data| == 0 {
      ModOfMulAdd(0, stride, stride - 1);
    } else if |data| <= stride {
      ModOfMulAdd(1, stride, |data| - 1);
    } else {
      var rest := data[stride..];
      ChunksCount(rest, stride);
      DivAddOne(|rest| + stride - 1, stride);
    }
  }

  /** The chunks from offset `i` on: the chunk starting at `i`, then the chunks one stride further. */
  lemma ChunksFrom(data: Bytes, stride: int, i: int)
    requires stride > 0 && 0 <= i < |data|
    ensures Chunks(data[i..], stride) == [data[i .. i + Min(stride, |data| - i)]] + Chunks(data[Min(i + stride, |data|)..], stride)
  {
    var rest := data[i..];
    if |rest| > stride {
      assert rest[..stride] == data[i .. i + stride];
      assert rest[stride..] == data[i + stride..];
    } else {
      assert data[i .. i + Min(stride, |data| - i)] == rest;
      assert data[Min(i + stride, |data|)..] == [];
    }
  }

  lemma MulStep(j: int, s: int)
    ensures (j + 1) * s == j * s + s
  {
  }

  /** Chunk `j` is the slice [j * stride, min((j + 1) * stride, |data|)) of the data. */
  lemma {:induction false} ChunkAt(data: Bytes, stride: int, j: nat)
    requires stride > 0 && j < |Chunks(data, stride)|
    ensures j * stride < |data|
    ensures Chunks(data, stride)[j] == data[j * stride .. Min((j + 1) * stride, |data|)]
    decreases j
  {
    if j > 0 {
      var rest := data[stride..];
      assert Chunks(data, stride)[j] == Chunks(rest, stride)[j - 1];
      ChunkAt(rest, stride, j - 1);
      var lo := (j - 1) * stride;
      MulStep(j - 1, stride);
      MulStep(j, stride);
      SuffixSlice(data, stride, lo, Min(lo + stride, |rest|));
    }
  }

  lemma SuffixSlice(data: Bytes, s: int, lo: int, hi: int)
    requires 0 <= s <= |data| && 0 <= lo <= hi <= |data| - s
    ensures data[s..][lo..hi] == data[s + lo .. s + hi]
  {
  }

  /** The chunk writes of a strided blob: chunk `i` under the sub-key `i` of the blob's key. */
  function ChunkWrites(key: StoreKey, chunks: seq<Bytes>): (w: seq<Write>)
  {
    seq(|chunks|, i requires 0 <= i < |chunks| => Write(ChunkKey(key, i), chunks[i]))
  }

  /** The header value the source writes: `length / stride + 1`. */
  function HeaderCount(length: int, stride: int): int
    requires stride > 0
  {
    length / stride + 1
  }

  /** Everything a strided write sends: the header under the key itself, then each chunk under its sub-key. */
  function StrideLayout(key: StoreKey, data: Bytes, stride: int): seq<Write>
    requires stride > 0 && |data| < IntMax
  {
    [Write(key, IntToBytes(HeaderCount(|data|, stride)))] + ChunkWrites(key, Chunks(data, stride))
  }

  lemma MulDivCancel(j: int, s: int)
    requires s > 0
    ensures (j * s) / s == j
  {
    ModOfMulAdd(j, s, 0);
  }

  /** One more chunk adds one write under the next sub-key. */
  lemma ChunkWritesSnoc(key: StoreKey, chunks: seq<Bytes>, b: Bytes)
    ensures ChunkWrites(key, chunks + [b]) == ChunkWrites(key, chunks) + [Write(ChunkKey(key, |chunks|), b)]
  {
  }

  /** One iteration of the chunking loop: the chunk at offset `i` is the next chunk, under sub-key `i / stride`. */
  lemma StrideStep(key: StoreKey, data: Bytes, stride: int, i: int, done: seq<Bytes>)
    requires stride > 0 && 0 <= i < |data| && i == |done| * stride
    requires Chunks(data, stride) == done + Chunks(data[i..], stride)
    ensures var b := data[i..i + Min(stride, |data| - i)];
      && i / stride == |done|
      && i + stride == |done + [b]| * stride
      && Chunks(data, stride) == (done + [b]) + Chunks(data[Min(i + stride, |data|)..], stride)
      && ChunkWrites(key, done + [b]) == ChunkWrites(key, done) + [Write(ChunkKey(key, i / stride), b)]
  {
    var b := data[i..i + Min(stride, |data| - i)];
    MulDivCancel(|done|, stride);
    MulStep(|done|, stride);
    ChunksFrom(data, stride, i);
    ChunkWritesSnoc(key, done, b);
  }

  /**
   * The strided branch of the preparation task: the header, then one write
   * per chunk, and the number of completions the callback waits for (one
   * per chunk plus the header).
   */
  method StrideWrites(key: StoreKey, data: Bytes, stride: int) returns (writes: seq<Write>, total: int)
    requires stride > 0 && |data| < IntMax
    ensures writes == StrideLayout(key, data, stride)
    ensures total == |writes| == |Chunks(data, stride)| + 1
  {
    total := (|data| + stride - 1) / stride + 1;
    ChunksCount(data, stride);
    var chunkWrites := WriteChunks(key, data, stride);
    writes := [Write(key, IntToBytes(|data| / stride + 1))] + chunkWrites;
  }

  /** The loop of the strided branch: chunk `i / stride` is the slice starting at offset `i`. */
  method WriteChunks(key: StoreKey, data: Bytes, stride: int) returns (writes: seq<Write>)
    requires stride > 0
    ensures writes == ChunkWrites(key, Chunks(data, stride))
  {
    writes := [];
    var i := 0;
    ghost var done: seq<Bytes> := [];
    while i < |data|
      invariant 0 <= i && i == |done| * stride
      invariant Chunks(data, stride) == done + Chunks(data[Min(i, |data|)..], stride)
      invariant writes == ChunkWrites(key, done)
      decreases |data| - i
    {
      var b := data[i..i + Min(stride, |data| - i)];
      StrideStep(key, data, stride, i, done);
      writes := writes + [Write(ChunkKey(key, i / stride), b)];
      done := done + [b];
      i := i + stride;
    }
    assert data[Min(i, |data|)..] == [];
  }

  /**
   * The header counts the chunks written when the length is not a multiple
   * of the stride, and one chunk too many when it is (the empty blob
   * included): recovery then asks for a chunk key that was never written.
   */
  lemma HeaderOvercounts(data: Bytes, stride: int)
    requires stride > 0
    ensures |data| % stride != 0 ==> HeaderCount(|data|, stride) == |Chunks(data, stride)|
    ensures |data| % stride == 0 ==> HeaderCount(|data|, stride) == |Chunks(data, stride)| + 1
  {
    ChunksCount(data, stride);
    CeilingAgainstFloor(|data|, stride);
  }

  /** Rounding up exceeds rounding down by one exactly when the division leaves a remainder. */
  lemma CeilingAgainstFloor(x: int, s: int)
    requires s > 0
    ensures x % s != 0 ==> (x + s - 1) / s == x / s + 1
    ensures x % s == 0 ==> (x + s - 1) / s == x / s
  {
    var q, m := x / s, x % s;
    assert x == q * s + m;
    if m == 0 {
      ModOfMulAdd(q, s, s - 1);
    } else {
      MulStep(q, s);
      assert x + s - 1 == (q + 1) * s + (m - 1);
      ModOfMulAdd(q + 1, s, m - 1);
    }
  }

  /** The chunk keys recovery reads for a blob whose header says `header`. */
  function ChunkKeysRead(key: StoreKey, header: int): seq<StoreKey>
  {
    seq(Max(0, header), i requires 0 <= i < Max(0, header) => ChunkKey(key, i))
  }

  /** Writing an empty blob, recovery reads the chunk key 0 that no write put there. */
  lemma EmptyBlobReadsUnwrittenChunk(key: StoreKey, stride: int)
    requires stride > 0
    ensures ChunkKey(key, 0) in ChunkKeysRead(key, HeaderCount(0, stride))
    ensures forall w :: w in StrideLayout(key, [], stride) ==> w.key != ChunkKey(key, 0)
  {
    assert ChunkKeysRead(key, HeaderCount(0, stride))[0] == ChunkKey(key, 0);
    assert StrideLayout(key, [], stride) == [Write(key, IntToBytes(1))];
  }

  /** The header the chunking evidently intends: the number of chunks, ceil(length / stride). */
  function ChunkCount(length: int, stride: int): int
    requires stride > 0
  {
    (length + stride - 1) / stride
  }

  /** With the corrected header recovery reads exactly the chunk keys that were written, in order. */
  lemma ChunkCountReadsWrittenChunks(key: StoreKey, data: Bytes, stride: int)
    requires stride > 0 && |data| < IntMax
    ensures ChunkCount(|data|, stride) == |Chunks(data, stride)|
    ensures forall i :: 0 <= i < |Chunks(data, stride)| ==>
      ChunkKeysRead(key, ChunkCount(|data|, stride))[i] == StrideLayout(key, data, stride)[i + 1].key
    ensures |ChunkKeysRead(key, ChunkCount(|data|, stride))| == |StrideLayout(key, data, stride)| - 1
  {
    ChunksCount(data, stride);
  }

  /** `concatenate`: the values `startIdx .. endIdx - 1` laid end to end (masking is not modelled). */
  method Concatenate(data: seq<Bytes>, startIdx: int, endIdx: int) returns (r: Bytes)
    requires startIdx >= endIdx || (0 <= startIdx && endIdx <= |data|)
    ensures startIdx >= endIdx ==> r == []
    ensures startIdx < endIdx ==> r == Flatten(data[startIdx..endIdx])
  {
    r := [];
    var i := startIdx;
    while i < endIdx
      invariant startIdx < endIdx ==> startIdx <= i <= endIdx && r == Flatten(data[startIdx..i])
      invariant startIdx >= endIdx ==> r == []
      decreases endIdx - i
    {
      assert data[startIdx..i + 1] == data[startIdx..i] + [data[i]];
      FlattenSnoc(data[startIdx..i], data[i]);
      r := r + data[i];
      i := i + 1;
    }
  }

  /** The values of a sequence of writes, in order. */
  function Values(writes: seq<Write>): (vs: seq<Bytes>)
    ensures |vs| == |writes|
  {
    seq(|writes|, i requires 0 <= i < |writes| => writes[i].value)
  }

  /** Concatenating the chunk values of a strided write, read back in order, gives the blob. */
  lemma StrideRoundTrip(key: StoreKey, data: Bytes, stride: int)
    requires stride > 0 && |data| < IntMax
    ensures Flatten(Values(StrideLayout(key, data, stride)[1..])) == data
  {
    var chunks := Chunks(data, stride);
    assert StrideLayout(key, data, stride)[1..] == ChunkWrites(key, chunks);
    assert Values(ChunkWrites(key, chunks)) == chunks;
    ChunksRejoin(data, stride);
  }

  // ---------------------------------------------------------------------
  // The completion callback of a strided write
  // ---------------------------------------------------------------------

  /** The completion counter shared by the header and chunk writes of one strided blob. */
  class CompletionCounter {
    const total: int
    var completed: nat
    var callbackRuns: nat

    /** The callback has run once exactly when `total` completions have arrived. */
    predicate Valid()
      reads this
    {
      total >= 1 && callbackRuns == (if completed >= total then 1 else 0)
    }

    constructor(total: int)
      requires total >= 1
      ensures Valid() && this.total == total && completed == 0 && callbackRuns == 0
    {
      this.total := total;
      completed := 0;
      callbackRuns := 0;
    }

    /** One write completed: the counter goes up and the callback runs on the `total`-th completion. */
    method OnFinished()
      requires Valid()
      modifies this
      ensures Valid()
      ensures completed == old(completed) + 1
      ensures callbackRuns == old(callbackRuns) + (if completed == total then 1 else 0)
    {
      completed := completed + 1;
      if completed == total {
        callbackRuns := callbackRuns + 1;
      }
    }
  }

  // ---------------------------------------------------------------------
  // Stored epoch
  // ---------------------------------------------------------------------

  /** Guava refuses to decode fewer than four bytes. */
  datatype ReadError = ArrayTooSmall(length: nat)

  /** The last completed epoch recovered from its stored value: -1 when missing or empty. */
  function StoredEpoch(stored: Option<Bytes>): (r: Result<int, ReadError>)
    ensures (stored.None? || |stored.value| == 0) ==> r == Ok(-1)
    ensures stored.Some? && 0 < |stored.value| < 4 ==> r.Err?
    ensures r.Ok? ==> IsInt(r.value)
  {
    if stored.None? || |stored.value| == 0 then Ok(-1)
    else if |stored.value| < 4 then Err(ArrayTooSmall(|stored.value|))
    else Ok(BytesToInt(stored.value))
  }

  /** An epoch's bytes, stored unmasked, are read back as that epoch. */
  lemma StoredEpochRoundTrip(e: int)
    requires IsInt(e)
    ensures StoredEpoch(Some(IntToBytes(e))) == Ok(e)
  {
    IntBytesRoundTrip(e);
  }

  /**
   * The epoch record is written through the recovery mask keyed by its own
   * key (a keystream laid over the bytes, so applying it twice gives the
   * bytes back).  `mask` is that keyed mask.
   */
  function MaskedEpochRecord(e: int, mask: Bytes -> Bytes): (b: Bytes)
    requires IsInt(e)
    ensures mask(IntToBytes(e)) == IntToBytes(e) ==> b == IntToBytes(e)
  {
    mask(IntToBytes(e))
  }

  /** The bytes complemented: a mask that undoes itself and keeps the length, standing in for a keystream of 0xff bytes. */
  function Complement(b: Bytes): (c: Bytes)
    ensures |c| == |b| && forall i :: 0 <= i < |b| ==> c[i] as int + b[i] as int == 255
  {
    seq(|b|, i requires 0 <= i < |b| => 255 - b[i])
  }

  /**
   * As written, recovery decodes the stored epoch record without unmasking
   * it: with the complementing mask the record of epoch 0 reads back as -1,
   * "no epoch completed", although the mask undoes itself on it.
   */
  lemma MaskedEpochMisreadAsWritten()
    ensures Complement(Complement(IntToBytes(0))) == IntToBytes(0)
    ensures StoredEpoch(Some(MaskedEpochRecord(0, Complement))) == Ok(-1)
  {
    var b := IntToBytes(0);
    assert b == [0, 0, 0, 0];
    assert Complement(b) == [255, 255, 255, 255];
    assert Complement([255, 255, 255, 255]) == b;
  }

  /** The stored epoch record decoded after unmasking it: -1 when missing or empty. */
  function StoredEpochUnmasked(stored: Option<Bytes>, mask: Bytes -> Bytes): (r: Result<int, ReadError>)
    ensures (stored.None? || |stored.value| == 0) ==> r == Ok(-1)
    ensures stored.Some? && 0 < |stored.value| ==> r == StoredEpoch(Some(mask(stored.value)))
    ensures r.Ok? ==> IsInt(r.value)
  {
    if stored.None? || |stored.value| == 0 then Ok(-1)
    else StoredEpoch(Some(mask(stored.value)))
  }

  /** With the record unmasked on recovery, the epoch written is the epoch read, for every mask that undoes itself and keeps the length. */
  lemma StoredEpochUnmaskedRoundTrip(e: int, mask: Bytes -> Bytes)
    requires IsInt(e)
    requires |mask(IntToBytes(e))| == 4 && mask(mask(IntToBytes(e))) == IntToBytes(e)
    ensures StoredEpochUnmasked(Some(MaskedEpochRecord(e, mask)), mask) == Ok(e)
  {
    StoredEpochRoundTrip(e);
  }

  // ---------------------------------------------------------------------
  // Recovery and deletion key layouts
  // ---------------------------------------------------------------------

  /** The keys of a map for the epochs `from .. to - 1`. */
  function MapRange(kind: MapKind, from: int, to: int): (keys: seq<StoreKey>)
    ensures |keys| == Max(0, to - from)
  {
    seq(Max(0, to - from), i requires 0 <= i < Max(0, to - from) => MapKey(kind, from + i))
  }

  function LastCheckpointOf(cfg: Config, e: int, kind: MapKind): int
    requires cfg.checkpointFrequency > 0
  {
    LastCheckpoint(e, cfg.checkpointFrequency, CheckpointOffset(cfg, kind))
  }

  /** How many keys recovery reads for one map: `1 + max(0, e - checkpoint)`. */
  function DiffCount(cfg: Config, e: int, kind: MapKind): int
    requires cfg.checkpointFrequency > 0
  {
    1 + Max(0, e - LastCheckpointOf(cfg, e, kind))
  }

  /** For each map in turn, its keys from its last checkpoint up to epoch `e`. */
  function MapBlocks(cfg: Config, e: int, kinds: seq<MapKind>): seq<StoreKey>
    requires cfg.checkpointFrequency > 0
    decreases |kinds|
  {
    if |kinds| == 0 then []
    else MapRange(kinds[0], LastCheckpointOf(cfg, e, kinds[0]), e + 1) + MapBlocks(cfg, e, kinds[1..])
  }

  /** The logical-access keys of one batch of epoch `epoch`, by index. */
  function BatchKeys(epoch: int, batch: int): (keys: seq<StoreKey>)
    ensures |keys| == Max(0, batch)
    ensures forall key :: key in keys ==> key.LogicalAccessKey? && key.epoch == epoch
  {
    seq(Max(0, batch), i requires 0 <= i < Max(0, batch) => LogicalAccessKey(epoch, i))
  }

  /** The keys recovery reads first, for last completed epoch `e`. */
  function RecoveryKeys(cfg: Config, e: int): seq<StoreKey>
    requires cfg.checkpointFrequency > 0
  {
    [EvictedPathCountKey(e)]
    + BatchKeys(e + 1, cfg.maxLogicalAccessesInBatch)
    + [StashKey(e)]
    + MapBlocks(cfg, e, MapOrder)
  }

  /** Where the block of the `k`-th map of `kinds` starts, counted from the first map block. */
  function BlockOffset(cfg: Config, e: int, kinds: seq<MapKind>, k: nat): nat
    requires cfg.checkpointFrequency > 0 && k <= |kinds|
    decreases k
  {
    if k == 0 then 0 else DiffCount(cfg, e, kinds[0]) + BlockOffset(cfg, e, kinds[1..], k - 1)
  }

  lemma {:induction false} MapBlocksAt(cfg: Config, e: int, kinds: seq<MapKind>, k: nat, j: int)
    requires ValidConfig(cfg) && e >= 0
    requires k < |kinds| && 0 <= j < DiffCount(cfg, e, kinds[k])
    ensures 0 <= BlockOffset(cfg, e, kinds, k) + j < |MapBlocks(cfg, e, kinds)|
    ensures MapBlocks(cfg, e, kinds)[BlockOffset(cfg, e, kinds, k) + j] == MapKey(kinds[k], LastCheckpointOf(cfg, e, kinds[k]) + j)
    decreases k
  {
    var first := kinds[0];
    var f := cfg.checkpointFrequency;
    CheckpointIsLatestFullWrite(e, f, CheckpointOffset(cfg, first));
    var range := MapRange(first, LastCheckpointOf(cfg, e, first), e + 1);
    assert |range| == DiffCount(cfg, e, first);
    if k > 0 {
      MapBlocksAt(cfg, e, kinds[1..], k - 1, j);
    }
  }

  /**
   * The recovery key layout: the evicted-path count at index 0, the batch's
   * logical-access keys of epoch e + 1 at 1 .. B, the stash at B + 1, then for
   * each map in order its `1 + max(0, e - checkpoint)` keys, from its last
   * checkpoint to e.
   */
  lemma RecoveryLayout(cfg: Config, e: int, k: nat, j: int)
    requires ValidConfig(cfg) && e >= 0
    requires k < |MapOrder| && 0 <= j < DiffCount(cfg, e, MapOrder[k])
    ensures var keys := RecoveryKeys(cfg, e);
      var b := Max(0, cfg.maxLogicalAccessesInBatch);
      && keys[0] == EvictedPathCountKey(e)
      && (forall i :: 1 <= i <= b ==> keys[i] == LogicalAccessKey(e + 1, i - 1))
      && keys[b + 1] == StashKey(e)
      && b + 2 + BlockOffset(cfg, e, MapOrder, k) + j < |keys|
      && keys[b + 2 + BlockOffset(cfg, e, MapOrder, k) + j] == MapKey(MapOrder[k], LastCheckpointOf(cfg, e, MapOrder[k]) + j)
  {
    MapBlocksAt(cfg, e, MapOrder, k, j);
  }

  /** The blocks from the `k`-th map on: that map's range, then the rest. */
  lemma MapBlocksStep(cfg: Config, e: int, kinds: seq<MapKind>, k: nat)
    requires cfg.checkpointFrequency > 0 && k < |kinds|
    ensures MapBlocks(cfg, e, kinds[k..]) == MapRange(kinds[k], LastCheckpointOf(cfg, e, kinds[k]), e + 1) + MapBlocks(cfg, e, kinds[k + 1..])
  {
    assert kinds[k..][1..] == kinds[k + 1..];
  }

  lemma {:induction false} MapBlocksMember(cfg: Config, e: int, kinds: seq<MapKind>, key: StoreKey)
    requires cfg.checkpointFrequency > 0
    requires key in MapBlocks(cfg, e, kinds)
    ensures key.MapKey? && LastCheckpointOf(cfg, e, key.kind) <= key.epoch <= e
    decreases |kinds|
  {
    var range := MapRange(kinds[0], LastCheckpointOf(cfg, e, kinds[0]), e + 1);
    if key !in range {
      MapBlocksMember(cfg, e, kinds[1..], key);
    }
  }

  /**
   * After epoch e completes, the map keys written since the previous
   * checkpoint are deleted, for each map whose checkpoint is e itself.
   */
  function DeleteBlocks(cfg: Config, e: int, kinds: seq<MapKind>): seq<StoreKey>
    requires cfg.checkpointFrequency > 0
    decreases |kinds|
  {
    if |kinds| == 0 then []
    else
      (if LastCheckpointOf(cfg, e, kinds[0]) == e then MapRange(kinds[0], LastCheckpointOf(cfg, e - 1, kinds[0]), e) else [])
      + DeleteBlocks(cfg, e, kinds[1..])
  }

  /** `deletePreviousEpochData` for the epoch `e` just completed. */
  function DeleteKeys(cfg: Config, e: int): seq<StoreKey>
    requires cfg.checkpointFrequency > 0
  {
    BatchKeys(e, cfg.maxLogicalAccessesInBatch)
    + [StashKey(e - 1)]
    + DeleteBlocks(cfg, e, MapOrder)
  }

  /** The deletions from the `k`-th map on: that map's range if it checkpoints at e, then the rest. */
  lemma DeleteBlocksStep(cfg: Config, e: int, kinds: seq<MapKind>, k: nat)
    requires cfg.checkpointFrequency > 0 && k < |kinds|
    ensures DeleteBlocks(cfg, e, kinds[k..]) ==
      (if LastCheckpointOf(cfg, e, kinds[k]) == e then MapRange(kinds[k], LastCheckpointOf(cfg, e - 1, kinds[k]), e) else [])
      + DeleteBlocks(cfg, e, kinds[k + 1..])
  {
    assert kinds[k..][1..] == kinds[k + 1..];
  }

  lemma {:induction false} DeleteBlocksMember(cfg: Config, e: int, kinds: seq<MapKind>, key: StoreKey)
    requires cfg.checkpointFrequency > 0
    requires key in DeleteBlocks(cfg, e, kinds)
    ensures key.MapKey? && key.epoch < e == LastCheckpointOf(cfg, e, key.kind)
    decreases |kinds|
  {
    var first := kinds[0];
    var here := if LastCheckpointOf(cfg, e, first) == e then MapRange(first, LastCheckpointOf(cfg, e - 1, first), e) else [];
    if key !in here {
      DeleteBlocksMember(cfg, e, kinds[1..], key);
    }
  }

  /** What recovery from epoch e reads: its own evicted-path count and stash, the next epoch's read paths, and map keys since each checkpoint. */
  lemma RecoveryKeysMember(cfg: Config, e: int, key: StoreKey)
    requires cfg.checkpointFrequency > 0
    ensures key in RecoveryKeys(cfg, e) ==>
      || key == EvictedPathCountKey(e)
      || (key.LogicalAccessKey? && key.epoch == e + 1)
      || key == StashKey(e)
      || (key.MapKey? && LastCheckpointOf(cfg, e, key.kind) <= key.epoch <= e)
  {
    if key in MapBlocks(cfg, e, MapOrder) {
      MapBlocksMember(cfg, e, MapOrder, key);
    }
  }

  /** What is deleted after epoch e: its read paths, the previous stash, and map keys older than a checkpoint taken at e. */
  lemma DeleteKeysMember(cfg: Config, e: int, key: StoreKey)
    requires cfg.checkpointFrequency > 0
    ensures key in DeleteKeys(cfg, e) ==>
      || (key.LogicalAccessKey? && key.epoch == e)
      || key == StashKey(e - 1)
      || (key.MapKey? && key.epoch < e == LastCheckpointOf(cfg, e, key.kind))
  {
    if key in DeleteBlocks(cfg, e, MapOrder) {
      DeleteBlocksMember(cfg, e, MapOrder, key);
    }
  }

  /** Nothing deleted after epoch e completes is a key that recovery from epoch e reads. */
  lemma DeletesSpareRecovery(cfg: Config, e: int)
    requires cfg.checkpointFrequency > 0
    ensures forall key :: key in DeleteKeys(cfg, e) ==> key !in RecoveryKeys(cfg, e)
  {
    forall key | key in DeleteKeys(cfg, e)
      ensures key !in RecoveryKeys(cfg, e)
    {
      DeleteKeysMember(cfg, e, key);
      RecoveryKeysMember(cfg, e, key);
    }
  }

  // ---------------------------------------------------------------------
  // The log's counters
  // ---------------------------------------------------------------------

  class Log {
    const config: Config
    var lastCompletedEpoch: int
    var logicalAccessIndex: int
    /** The read-path keys handed out since the epoch counter last changed. */
    ghost var issuedReadPathKeys: set<StoreKey>

    /** Every read-path key handed out is one of epoch lastCompletedEpoch + 1 below the current index. */
    ghost predicate Valid()
      reads this
    {
      && ValidConfig(config)
      && logicalAccessIndex >= 0
      && forall key :: key in issuedReadPathKeys ==>
           key.LogicalAccessKey? && key.epoch == lastCompletedEpoch + 1 && 0 <= key.index < logicalAccessIndex
    }

    constructor(config: Config)
      requires ValidConfig(config)
      ensures Valid() && this.config == config
      ensures lastCompletedEpoch == 0 && logicalAccessIndex == 0 && issuedReadPathKeys == {}
    {
      this.config := config;
      lastCompletedEpoch := 0;
      logicalAccessIndex := 0;
      issuedReadPathKeys := {};
    }

    /** `getKeyForNextReadPath`: the key at the current index of the next epoch; the index moves on, so no key repeats within an epoch. */
    method GetKeyForNextReadPath() returns (key: StoreKey)
      requires Valid()
      modifies this
      ensures Valid()
      ensures key == LogicalAccessKey(old(lastCompletedEpoch) + 1, old(logicalAccessIndex))
      ensures key !in old(issuedReadPathKeys) && issuedReadPathKeys == old(issuedReadPathKeys) + {key}
      ensures logicalAccessIndex == old(logicalAccessIndex) + 1 && lastCompletedEpoch == old(lastCompletedEpoch)
    {
      key := LogicalAccessKey(lastCompletedEpoch + 1, logicalAccessIndex);
      logicalAccessIndex := logicalAccessIndex + 1;
      issuedReadPathKeys := issuedReadPathKeys + {key};
    }

    /** The key and the full-or-diff payload a map write sends for the next epoch, strided. */
    method WriteMap(kind: MapKind, serialized: Bytes, diff: Bytes) returns (writes: seq<Write>, total: int)
      requires Valid() && |serialized| < IntMax && |diff| < IntMax
      ensures writes == StrideLayout(MapKey(kind, lastCompletedEpoch + 1),
        if WritesFull(lastCompletedEpoch, config.checkpointFrequency, CheckpointOffset(config, kind)) then serialized else diff,
        config.strideSize)
      ensures total == |writes|
    {
      var data := if WritesFull(lastCompletedEpoch, config.checkpointFrequency, CheckpointOffset(config, kind)) then serialized else diff;
      writes, total := StrideWrites(MapKey(kind, lastCompletedEpoch + 1), data, config.strideSize);
    }

    /** The stash is always written in full, strided. */
    method WriteStash(stash: Bytes) returns (writes: seq<Write>, total: int)
      requires Valid() && |stash| < IntMax
      ensures writes == StrideLayout(StashKey(lastCompletedEpoch + 1), stash, config.strideSize)
      ensures total == |writes|
    {
      writes, total := StrideWrites(StashKey(lastCompletedEpoch + 1), stash, config.strideSize);
    }

    /** The evicted-path count is one unstrided write. */
    method WriteEvictedPathCount(count: int) returns (w: Write)
      requires IsInt(count)
      ensures w == Write(EvictedPathCountKey(lastCompletedEpoch + 1), IntToBytes(count))
    {
      w := Write(EvictedPathCountKey(lastCompletedEpoch + 1), IntToBytes(count));
    }

    /**
     * The write that records the next epoch as completed, masked with the
     * mask of its key; once unmasked it reads back as the next epoch.
     */
    method WriteEpochComplete(mask: Bytes -> Bytes) returns (w: Write)
      requires IsInt(lastCompletedEpoch + 1)
      ensures w == Write(LastCompletedEpochKey, MaskedEpochRecord(lastCompletedEpoch + 1, mask))
      ensures |mask(IntToBytes(lastCompletedEpoch + 1))| == 4 && mask(mask(IntToBytes(lastCompletedEpoch + 1))) == IntToBytes(lastCompletedEpoch + 1) ==>
        StoredEpochUnmasked(Some(w.value), mask) == Ok(lastCompletedEpoch + 1)
      ensures mask(IntToBytes(lastCompletedEpoch + 1)) == IntToBytes(lastCompletedEpoch + 1) ==>
        StoredEpoch(Some(w.value)) == Ok(lastCompletedEpoch + 1)
    {
      var e := lastCompletedEpoch + 1;
      w := Write(LastCompletedEpochKey, MaskedEpochRecord(e, mask));
      StoredEpochRoundTrip(e);
      if |mask(IntToBytes(e))| == 4 && mask(mask(IntToBytes(e))) == IntToBytes(e) {
        StoredEpochUnmaskedRoundTrip(e, mask);
      }
    }

    /** Once the completion is logged: the epoch advances by one, the read-path index restarts and the previous epoch's data is deleted. */
    method OnEpochLogged() returns (deletes: seq<StoreKey>)
      requires Valid()
      modifies this
      ensures Valid()
      ensures lastCompletedEpoch == old(lastCompletedEpoch) + 1 && logicalAccessIndex == 0 && issuedReadPathKeys == {}
      ensures deletes == DeleteKeys(config, lastCompletedEpoch)
    {
      lastCompletedEpoch := lastCompletedEpoch + 1;
      logicalAccessIndex := 0;
      issuedReadPathKeys := {};
      deletes := DeletePreviousEpochData();
    }

    /** The keys of a map from `from` up to `to - 1`, appended in epoch order. */
    static method AppendMapRange(keys: seq<StoreKey>, kind: MapKind, from: int, to: int) returns (keys': seq<StoreKey>)
      ensures keys' == keys + MapRange(kind, from, to)
    {
      keys' := keys;
      var n := Max(0, to - from);
      var t := 0;
      while t < n
        invariant 0 <= t <= n
        invariant keys' == keys + MapRange(kind, from, from + t)
      {
        assert MapRange(kind, from, from + t + 1) == MapRange(kind, from, from + t) + [MapKey(kind, from + t)];
        keys' := keys' + [MapKey(kind, from + t)];
        t := t + 1;
      }
      assert MapRange(kind, from, from + t) == MapRange(kind, from, to);
    }

    /** The read-path keys of a batch, appended in index order. */
    static method AppendBatchKeys(keys: seq<StoreKey>, epoch: int, batch: int) returns (keys': seq<StoreKey>)
      ensures keys' == keys + BatchKeys(epoch, batch)
    {
      keys' := keys;
      var i := 0;
      while i < batch
        invariant 0 <= i <= Max(0, batch)
        invariant keys' == keys + BatchKeys(epoch, i)
      {
        assert BatchKeys(epoch, i + 1) == BatchKeys(epoch, i) + [LogicalAccessKey(epoch, i)];
        keys' := keys' + [LogicalAccessKey(epoch, i)];
        i := i + 1;
      }
      assert BatchKeys(epoch, i) == BatchKeys(epoch, batch);
    }

    /** The deletions of each map of `kinds` in turn, appended. */
    static method AppendDeleteBlocks(keys: seq<StoreKey>, cfg: Config, e: int, kinds: seq<MapKind>) returns (keys': seq<StoreKey>)
      requires cfg.checkpointFrequency > 0
      ensures keys' == keys + DeleteBlocks(cfg, e, kinds)
    {
      keys' := keys;
      var k := 0;
      while k < |kinds|
        invariant 0 <= k <= |kinds|
        invariant keys' + DeleteBlocks(cfg, e, kinds[k..]) == keys + DeleteBlocks(cfg, e, kinds)
      {
        var kind := kinds[k];
        DeleteBlocksStep(cfg, e, kinds, k);
        var f := cfg.checkpointFrequency;
        var offset := CheckpointOffset(cfg, kind);
        if LastCheckpoint(e, f, offset) == e {
          keys' := AppendMapRange(keys', kind, LastCheckpoint(e - 1, f, offset), e);
        }
        k := k + 1;
      }
      assert keys' + DeleteBlocks(cfg, e, kinds[k..]) == keys';
    }

    /** The recovery keys of each map of `kinds` in turn, appended. */
    static method AppendMapBlocks(keys: seq<StoreKey>, cfg: Config, e: int, kinds: seq<MapKind>) returns (keys': seq<StoreKey>)
      requires cfg.checkpointFrequency > 0
      ensures keys' == keys + MapBlocks(cfg, e, kinds)
    {
      keys' := keys;
      var k := 0;
      while k < |kinds|
        invariant 0 <= k <= |kinds|
        invariant keys' + MapBlocks(cfg, e, kinds[k..]) == keys + MapBlocks(cfg, e, kinds)
      {
        var kind := kinds[k];
        MapBlocksStep(cfg, e, kinds, k);
        keys' := AppendMapRange(keys', kind, LastCheckpoint(e, cfg.checkpointFrequency, CheckpointOffset(cfg, kind)), e + 1);
        k := k + 1;
      }
      assert keys' + MapBlocks(cfg, e, kinds[k..]) == keys';
    }

    /** `deletePreviousEpochData`, for the epoch just completed. */
    method DeletePreviousEpochData() returns (deletes: seq<StoreKey>)
      requires Valid()
      ensures deletes == DeleteKeys(config, lastCompletedEpoch)
    {
      var e := lastCompletedEpoch;
      deletes := AppendBatchKeys([], e, config.maxLogicalAccessesInBatch);
      deletes := AppendDeleteBlocks(deletes + [StashKey(e - 1)], config, e, MapOrder);
    }

    /**
     * `readLastCompletedEpoch`, unmasking the record first: the stored value
     * decoded, -1 when it is missing or empty; a value too short to decode
     * leaves the counter alone.
     */
    method ReadLastCompletedEpoch(stored: Option<Bytes>, mask: Bytes -> Bytes) returns (r: Result<int, ReadError>)
      requires Valid()
      modifies this
      ensures Valid()
      ensures r == StoredEpochUnmasked(stored, mask)
      ensures lastCompletedEpoch == (if r.Ok? then r.value else old(lastCompletedEpoch))
      ensures logicalAccessIndex == old(logicalAccessIndex)
    {
      r := StoredEpochUnmasked(stored, mask);
      if r.Ok? {
        lastCompletedEpoch := r.value;
        issuedReadPathKeys := {};
      }
    }

    /** The keys recovery reads before the strided chunks: none when no epoch has completed. */
    method RecoveryReadKeys() returns (keys: seq<StoreKey>)
      requires Valid()
      ensures lastCompletedEpoch >= 0 ==> keys == RecoveryKeys(config, lastCompletedEpoch)
      ensures lastCompletedEpoch < 0 ==> keys == []
    {
      var e := lastCompletedEpoch;
      keys := [];
      if e < 0 {
        return;
      }
      keys := AppendBatchKeys([EvictedPathCountKey(e)], e + 1, config.maxLogicalAccessesInBatch);
      keys := AppendMapBlocks(keys + [StashKey(e)], config, e, MapOrder);
    }
  }
}
