/**
 * The parts of chronocache's prediction engine that do not talk to a
 * database: the enumeration of constant permutations for a query shell,
 * the running average of response times per query, the reload filter over
 * always-defined queries (ADQs), the constant lookup per mapped parameter
 * and client registration, with two small list and set helpers.
 *
 * Response times and probabilities are doubles in the source; here they
 * are reals, so rounding is not modelled.
 */
module MarkovEngine2 {
  import opened Wrappers
  import MarkovGraph

  type QueryId = nat
  type ClientId = nat

  /** A query identifier as an object: `getSlotNumber` compares these by reference. */
  class QueryIdentifier {
    const id: QueryId

    constructor(id: QueryId)
      ensures this.id == id
    {
      this.id := id;
    }
  }

  /** A vectorizable query as far as the engine reads it: the query it is for. */
  datatype Vectorizable = Vectorizable(id: QueryId)

  // ---------------------------------------------------------------------
  // Small helpers
  // ---------------------------------------------------------------------

  /** Whether some element of `s1` is also in `s2`, scanning `s1`. */
  method HasIntersection<T>(s1: set<T>, s2: set<T>) returns (r: bool)
    ensures r <==> exists t :: t in s1 && t in s2
    ensures r <==> s1 * s2 != {}
  {
    var todo := s1;
    while todo != {}
      invariant todo <= s1
      invariant forall t :: t in s1 - todo ==> t !in s2
      decreases |todo|
    {
      var t :| t in todo;
      if t in s2 {
        assert t in s1 * s2;
        return true;
      }
      todo := todo - {t};
    }
    assert s1 - todo == s1;
    return false;
  }

  /** The index of the first element that is the very object `queryId`, or -1. */
  method GetSlotNumber(queryId: QueryIdentifier, queryIds: seq<QueryIdentifier>) returns (slot: int)
    ensures -1 <= slot < |queryIds|
    ensures slot >= 0 ==> queryIds[slot] == queryId && forall j :: 0 <= j < slot ==> queryIds[j] != queryId
    ensures slot == -1 <==> queryId !in queryIds
  {
    var i := 0;
    while i < |queryIds|
      invariant 0 <= i <= |queryIds|
      invariant forall j :: 0 <= j < i ==> queryIds[j] != queryId
    {
      if queryIds[i] == queryId {
        return i;
      }
      i := i + 1;
    }
    return -1;
  }

  // ---------------------------------------------------------------------
  // Constant permutations
  // ---------------------------------------------------------------------

  /** Every permutation of `perms` extended by each option, option by option (option-major). */
  function Extend(perms: seq<seq<string>>, options: seq<string>): (r: seq<seq<string>>)
    decreases |options|
  {
    if |options| == 0 then []
    else Extend(perms, options[..|options| - 1]) + seq(|perms|, i requires 0 <= i < |perms| => perms[i] + [options[|options| - 1]])
  }

  /** The permutations of the first positions, starting from the single empty permutation. */
  function Fold(constants: seq<seq<string>>): (r: seq<seq<string>>)
    decreases |constants|
  {
    if |constants| == 0 then [[]] else Extend(Fold(constants[..|constants| - 1]), constants[|constants| - 1])
  }

  /** `getAllConstantPermutations`: nothing for no positions, otherwise every choice of one option per position. */
  function Permutations(constants: seq<seq<string>>): seq<seq<string>>
  {
    if |constants| == 0 then [] else Fold(constants)
  }

  function Product(constants: seq<seq<string>>): nat
    decreases |constants|
  {
    if |constants| == 0 then 1 else Product(constants[..|constants| - 1]) * |constants[|constants| - 1]|
  }

  /** A permutation picks, for each position in order, one of that position's options. */
  predicate Chooses(constants: seq<seq<string>>, p: seq<string>)
  {
    |p| == |constants| && forall k :: 0 <= k < |p| ==> p[k] in constants[k]
  }

  /** A single option is appended to every permutation in place; the count is unchanged. */
  lemma SingleOptionExtend(perms: seq<seq<string>>, option: string)
    ensures Extend(perms, [option]) == seq(|perms|, i requires 0 <= i < |perms| => perms[i] + [option])
    ensures |Extend(perms, [option])| == |perms|
  {
    assert [option][..0] == [];
  }

  lemma {:induction false} ExtendLength(perms: seq<seq<string>>, options: seq<string>)
    ensures |Extend(perms, options)| == |perms| * |options|
    decreases |options|
  {
    if |options| > 0 {
      ExtendLength(perms, options[..|options| - 1]);
      MulSuccRight(|perms|, |options| - 1);
    }
  }

  lemma MulSuccRight(m: nat, x: nat)
    ensures m * (x + 1) == m * x + m
  {
  }

  /** Every extended permutation is an old one followed by one of the options. */
  lemma {:induction false} ExtendMember(perms: seq<seq<string>>, options: seq<string>, x: seq<string>)
    requires x in Extend(perms, options)
    ensures exists i, c :: 0 <= i < |perms| && 0 <= c < |options| && x == perms[i] + [options[c]]
    decreases |options|
  {
    var pre := options[..|options| - 1];
    if x in Extend(perms, pre) {
      ExtendMember(perms, pre, x);
      var i, c :| 0 <= i < |perms| && 0 <= c < |pre| && x == perms[i] + [pre[c]];
      assert pre[c] == options[c];
    } else {
      var i :| 0 <= i < |perms| && x == perms[i] + [options[|options| - 1]];
    }
  }

  /** Every old permutation followed by every option is among the extended ones. */
  lemma {:induction false} ExtendComplete(perms: seq<seq<string>>, options: seq<string>, i: nat, c: nat)
    requires i < |perms| && c < |options|
    ensures perms[i] + [options[c]] in Extend(perms, options)
    decreases |options|
  {
    var pre := options[..|options| - 1];
    if c < |pre| {
      ExtendComplete(perms, pre, i, c);
      assert pre[c] == options[c];
    } else {
      var row := seq(|perms|, j requires 0 <= j < |perms| => perms[j] + [options[|options| - 1]]);
      assert row[i] in row;
    }
  }

  /** There are as many permutations as the product of the option counts. */
  lemma {:induction false} FoldLength(constants: seq<seq<string>>)
    ensures |Fold(constants)| == Product(constants)
    decreases |constants|
  {
    if |constants| > 0 {
      FoldLength(constants[..|constants| - 1]);
      ExtendLength(Fold(constants[..|constants| - 1]), constants[|constants| - 1]);
    }
  }

  /** Every permutation chooses one option per position. */
  lemma {:induction false} FoldSound(constants: seq<seq<string>>, p: seq<string>)
    requires p in Fold(constants)
    ensures Chooses(constants, p)
    decreases |constants|
  {
    if |constants| > 0 {
      var pre := constants[..|constants| - 1];
      var last := constants[|constants| - 1];
      ExtendMember(Fold(pre), last, p);
      var i, c :| 0 <= i < |Fold(pre)| && 0 <= c < |last| && p == Fold(pre)[i] + [last[c]];
      var q := Fold(pre)[i];
      FoldSound(pre, q);
      forall k | 0 <= k < |p|
        ensures p[k] in constants[k]
      {
        if k < |pre| {
          assert p[k] == q[k] && constants[k] == pre[k];
        }
      }
    }
  }

  /** Every choice of one option per position is a permutation. */
  lemma {:induction false} FoldComplete(constants: seq<seq<string>>, p: seq<string>)
    requires Chooses(constants, p)
    ensures p in Fold(constants)
    decreases |constants|
  {
    if |constants| > 0 {
      var n := |constants| - 1;
      var pre := constants[..n];
      var last := constants[n];
      assert Chooses(pre, p[..n]) by {
        forall k | 0 <= k < n
          ensures p[..n][k] in pre[k]
        {
          assert p[k] in constants[k];
        }
      }
      FoldComplete(pre, p[..n]);
      var i :| 0 <= i < |Fold(pre)| && Fold(pre)[i] == p[..n];
      var c :| 0 <= c < |last| && last[c] == p[n];
      ExtendComplete(Fold(pre), last, i, c);
      assert p == p[..n] + [p[n]];
    }
  }

  /**
   * Builds the permutations position by position: the first position's
   * options each start one permutation; a later position with one option is
   * appended to every permutation in place, and one with several options
   * copies every permutation once per option.
   */
  method GetAllConstantPermutations(constants: seq<seq<string>>) returns (perms: seq<seq<string>>)
    ensures perms == Permutations(constants)
  {
    if |constants| == 0 {
      return [];
    }
    perms := [];
    for c := 0 to |constants[0]|
      invariant perms == seq(c, k requires 0 <= k < c => [constants[0][k]])
    {
      perms := perms + [[constants[0][c]]];
    }
    FirstPosition(constants[0]);
    assert constants[..1] == [constants[0]];
    var n := 1;
    while n < |constants|
      invariant 1 <= n <= |constants|
      invariant perms == Fold(constants[..n])
    {
      var entry := constants[n];
      if |entry| == 1 {
        SingleOptionExtend(perms, entry[0]);
        assert entry == [entry[0]];
        var i := 0;
        ghost var before := perms;
        while i < |perms|
          invariant 0 <= i <= |perms| && |perms| == |before|
          invariant forall j :: 0 <= j < i ==> perms[j] == before[j] + [entry[0]]
          invariant forall j :: i <= j < |perms| ==> perms[j] == before[j]
        {
          perms := perms[i := perms[i] + [entry[0]]];
          i := i + 1;
        }
        assert perms == Extend(before, entry);
      } else {
        perms := ExtendByOptions(perms, entry);
      }
      assert constants[..n + 1] == constants[..n] + [constants[n]];
      n := n + 1;
    }
    assert constants[..n] == constants;
  }

  lemma FirstPosition(options: seq<string>)
    ensures Fold([options]) == seq(|options|, k requires 0 <= k < |options| => [options[k]])
  {
    assert [options][..0] == [];
    ExtendOfEmpty(options);
  }

  lemma {:induction false} ExtendOfEmpty(options: seq<string>)
    ensures Extend([[]], options) == seq(|options|, k requires 0 <= k < |options| => [options[k]])
    decreases |options|
  {
    if |options| > 0 {
      var pre := options[..|options| - 1];
      ExtendOfEmpty(pre);
      var last := options[|options| - 1];
      var e: seq<seq<string>> := [[]];
      var row := seq(|e|, i requires 0 <= i < |e| => e[i] + [last]);
      assert row[0] == [last];
      assert row == [[last]];
      assert Extend(e, options) == Extend(e, pre) + row;
    }
  }

  /** For each option, a copy of every permutation with the option appended. */
  method ExtendByOptions(perms: seq<seq<string>>, options: seq<string>) returns (r: seq<seq<string>>)
    ensures r == Extend(perms, options)
  {
    r := [];
    for c := 0 to |options|
      invariant r == Extend(perms, options[..c])
    {
      var row: seq<seq<string>> := [];
      for i := 0 to |perms|
        invariant row == seq(i, j requires 0 <= j < i => perms[j] + [options[c]])
      {
        row := row + [perms[i] + [options[c]]];
      }
      assert options[..c + 1][..c] == options[..c];
      r := r + row;
    }
    assert options[..|options|] == options;
  }

  /** The permutations are exactly the choices of one option per position, as many as the product of the option counts. */
  lemma PermutationsSpec(constants: seq<seq<string>>)
    requires |constants| > 0
    ensures |Permutations(constants)| == Product(constants)
    ensures forall p :: p in Permutations(constants) <==> Chooses(constants, p)
  {
    FoldLength(constants);
    forall p
      ensures p in Permutations(constants) <==> Chooses(constants, p)
    {
      if p in Fold(constants) {
        FoldSound(constants, p);
      }
      if Chooses(constants, p) {
        FoldComplete(constants, p);
      }
    }
  }

  // ---------------------------------------------------------------------
  // Response-time averages
  // ---------------------------------------------------------------------

  function Sum(xs: seq<real>): real
    decreases |xs|
  {
    if |xs| == 0 then 0.0 else Sum(xs[..|xs| - 1]) + xs[|xs| - 1]
  }

  function Mean(xs: seq<real>): real
    requires |xs| > 0
  {
    Sum(xs) / (|xs| as real)
  }

  /** The average after one more time: the old average weighted by its count, plus the new time, over the new count. */
  function RunningAverage(timesSeen: nat, currentAverage: real, responseTime: real): real
  {
    ((timesSeen as real) * currentAverage + responseTime) / ((timesSeen + 1) as real)
  }

  /** Weighting the old mean by its count and adding one more time gives the mean of all times. */
  lemma MeanStep(xs: seq<real>, x: real)
    requires |xs| > 0
    ensures RunningAverage(|xs|, Mean(xs), x) == Mean(xs + [x])
  {
    assert (xs + [x])[..|xs|] == xs;
    var n := |xs| as real;
    assert n * (Sum(xs) / n) == Sum(xs);
  }

  /** Times seen and average per query after one more response time for `id`. */
  function Track(times: map<QueryId, nat>, avg: map<QueryId, real>, id: QueryId, responseTime: real): (r: (map<QueryId, nat>, map<QueryId, real>))
    requires id in times ==> id in avg
  {
    if id !in times then (times[id := 1], avg[id := responseTime])
    else (times[id := times[id] + 1], avg[id := RunningAverage(times[id], avg[id], responseTime)])
  }

  /** Two runs of 1000 and 2000 give a count of 2 and an average of 1500. */
  lemma TrackExample(id: QueryId)
    ensures var first := Track(map[], map[], id, 1000.0);
      var second := Track(first.0, first.1, id, 2000.0);
      second.0[id] == 2 && second.1[id] == 1500.0
  {
  }

  /** Every tracked query has a count equal to the number of its recorded times, and their mean as its average. */
  ghost predicate AveragesOf(times: map<QueryId, nat>, avg: map<QueryId, real>, history: map<QueryId, seq<real>>)
  {
    && times.Keys == avg.Keys == history.Keys
    && forall id :: id in times ==> |history[id]| == times[id] >= 1 && avg[id] == Mean(history[id])
  }

  /** The recorded times after one more time for `id`. */
  ghost function Record(history: map<QueryId, seq<real>>, id: QueryId, responseTime: real): map<QueryId, seq<real>>
  {
    history[id := (if id in history then history[id] else []) + [responseTime]]
  }

  /** Tracking a response time keeps every average equal to the mean of all times recorded. */
  lemma TrackKeepsAverages(times: map<QueryId, nat>, avg: map<QueryId, real>, history: map<QueryId, seq<real>>, id: QueryId, responseTime: real)
    requires AveragesOf(times, avg, history)
    ensures AveragesOf(Track(times, avg, id, responseTime).0, Track(times, avg, id, responseTime).1, Record(history, id, responseTime))
  {
    var next := Track(times, avg, id, responseTime);
    var h := Record(history, id, responseTime);
    if id in times {
      MeanStep(history[id], responseTime);
    } else {
      assert Sum([responseTime]) == responseTime by {
        assert [responseTime][..0] == [];
      }
    }
    forall q | q in next.0
      ensures |h[q]| == next.0[q] >= 1 && next.1[q] == Mean(h[q])
    {
      if q != id {
        assert h[q] == history[q] && next.0[q] == times[q] && next.1[q] == avg[q];
      }
    }
  }

  // ---------------------------------------------------------------------
  // The engine's tables
  // ---------------------------------------------------------------------

  /** A client's Markov models as far as registration reads them: the query streams they watch. */
  datatype MultiModel = MultiModel(clientId: ClientId, streams: seq<nat>)

  /** A client's table of vectorizable queries. */
  datatype DependencyTable = DependencyTable(vectorizables: seq<Vectorizable>)

  /** Which index has no mapping, or no data for its first source, when the constants are gathered. */
  datatype MissingData = NoMapping(index: nat) | NoData(index: nat)

  class Engine {
    var clientModels: map<ClientId, MultiModel>
    var queryStreams: map<ClientId, seq<nat>>
    var dependencyTables: map<ClientId, DependencyTable>
    var alwaysDefinedQueries: map<QueryId, Vectorizable>
    var queryTimesSeen: map<QueryId, nat>
    var avgQueryResponseTimes: map<QueryId, real>
    /** Every response time recorded per query, in order. */
    ghost var responseTimes: map<QueryId, seq<real>>

    /** The average of each tracked query is the mean of the times recorded for it. */
    ghost predicate Averages()
      reads this
    {
      AveragesOf(queryTimesSeen, avgQueryResponseTimes, responseTimes)
    }

    constructor()
      ensures Averages()
      ensures clientModels == map[] && queryStreams == map[] && dependencyTables == map[]
      ensures alwaysDefinedQueries == map[] && queryTimesSeen == map[] && avgQueryResponseTimes == map[]
    {
      clientModels := map[];
      queryStreams := map[];
      dependencyTables := map[];
      alwaysDefinedQueries := map[];
      queryTimesSeen := map[];
      avgQueryResponseTimes := map[];
      responseTimes := map[];
    }

    /** Records one more response time for `id`; the average stays the mean of all times seen. */
    method AddAverageTrackingInfo(id: QueryId, responseTime: real)
      requires Averages()
      modifies this
      ensures Averages()
      ensures queryTimesSeen == Track(old(queryTimesSeen), old(avgQueryResponseTimes), id, responseTime).0
      ensures avgQueryResponseTimes == Track(old(queryTimesSeen), old(avgQueryResponseTimes), id, responseTime).1
      ensures responseTimes == Record(old(responseTimes), id, responseTime)
      ensures clientModels == old(clientModels) && queryStreams == old(queryStreams)
      ensures dependencyTables == old(dependencyTables) && alwaysDefinedQueries == old(alwaysDefinedQueries)
    {
      TrackKeepsAverages(queryTimesSeen, avgQueryResponseTimes, responseTimes, id, responseTime);
      UpdateAverages(id, responseTime);
      responseTimes := Record(responseTimes, id, responseTime);
    }

    /** The count and average updates of AddAverageTrackingInfo. */
    method UpdateAverages(id: QueryId, responseTime: real)
      requires id in queryTimesSeen ==> id in avgQueryResponseTimes
      modifies this
      ensures queryTimesSeen == Track(old(queryTimesSeen), old(avgQueryResponseTimes), id, responseTime).0
      ensures avgQueryResponseTimes == Track(old(queryTimesSeen), old(avgQueryResponseTimes), id, responseTime).1
      ensures responseTimes == old(responseTimes)
      ensures clientModels == old(clientModels) && queryStreams == old(queryStreams)
      ensures dependencyTables == old(dependencyTables) && alwaysDefinedQueries == old(alwaysDefinedQueries)
    {
      if id !in queryTimesSeen {
        queryTimesSeen := queryTimesSeen[id := 1];
        avgQueryResponseTimes := avgQueryResponseTimes[id := responseTime];
      } else {
        var timesSeen := queryTimesSeen[id];
        var newAverage := RunningAverage(timesSeen, avgQueryResponseTimes[id], responseTime);
        queryTimesSeen := queryTimesSeen[id := timesSeen + 1];
        avgQueryResponseTimes := avgQueryResponseTimes[id := newAverage];
      }
    }

    /**
     * Sets up a client not seen before: its models, their query streams and
     * an empty dependency table.  A client that already has query streams is
     * left as it is.
     */
    method RegisterNewClient(clientId: ClientId, streams: seq<nat>)
      modifies this
      ensures clientId in old(queryStreams) ==> clientModels == old(clientModels) && queryStreams == old(queryStreams) && dependencyTables == old(dependencyTables)
      ensures clientId !in old(queryStreams) ==>
        && clientModels == old(clientModels)[clientId := MultiModel(clientId, streams)]
        && queryStreams == (if |streams| == 0 then old(queryStreams) else old(queryStreams)[clientId := streams])
        && dependencyTables == old(dependencyTables)[clientId := DependencyTable([])]
      ensures alwaysDefinedQueries == old(alwaysDefinedQueries)
      ensures queryTimesSeen == old(queryTimesSeen) && avgQueryResponseTimes == old(avgQueryResponseTimes) && responseTimes == old(responseTimes)
    {
      if clientId in queryStreams {
        return;
      }
      var multiModel := MultiModel(clientId, streams);
      if |streams| > 0 {
        queryStreams := queryStreams[clientId := streams];
      }
      clientModels := clientModels[clientId := multiModel];
      dependencyTables := dependencyTables[clientId := DependencyTable([])];
    }

    /** The ADQs worth reloading: those whose average response time times probability exceeds the threshold. */
    ghost function Important(prob: QueryId -> real, threshold: real): set<Vectorizable>
      reads this
    {
      set adq | adq in alwaysDefinedQueries.Values && adq.id in avgQueryResponseTimes && avgQueryResponseTimes[adq.id] * prob(adq.id) > threshold
    }

    /**
     * Scans the always-defined queries and keeps those whose reload cost
     * is above the threshold.  An unknown client, or an ADQ with no
     * recorded average, is an error (a NullPointerException in the source).
     */
    method GetImportantQueries(clientId: ClientId, prob: QueryId -> real, threshold: real) returns (r: Result<set<Vectorizable>, string>)
      ensures r.Ok? <==> clientId in clientModels && forall adq :: adq in alwaysDefinedQueries.Values ==> adq.id in avgQueryResponseTimes
      ensures r.Ok? ==> r.value == Important(prob, threshold)
    {
      if clientId !in clientModels {
        return Err("no Markov graph for client");
      }
      var important: set<Vectorizable> := {};
      var todo := alwaysDefinedQueries.Values;
      while todo != {}
        invariant todo <= alwaysDefinedQueries.Values
        invariant forall adq :: adq in alwaysDefinedQueries.Values - todo ==> adq.id in avgQueryResponseTimes
        invariant important == Important(prob, threshold) - todo
        decreases |todo|
      {
        var adq :| adq in todo;
        if adq.id !in avgQueryResponseTimes {
          return Err("no average response time");
        }
        var cost := avgQueryResponseTimes[adq.id] * prob(adq.id);
        if cost > threshold {
          important := important + {adq};
        }
        todo := todo - {adq};
      }
      return Ok(important);
    }
  }

  // ---------------------------------------------------------------------
  // Constants for a query shell
  // ---------------------------------------------------------------------

  /**
   * One constant per parameter index 0 .. k-1, k being the number of
   * distinct mapped indexes: each taken from the sources mapped to that
   * index.  An index with no sources, or whose data lookup gives nothing,
   * stops the lookup (a NullPointerException in the source).
   */
  method TryGetRequiredData<O>(mappings: seq<(nat, O)>, dataFor: seq<O> -> Option<string>) returns (r: Result<seq<string>, MissingData>)
    ensures r.Ok? ==> |r.value| == |MarkovGraph.PositionKeys(mappings)|
    ensures r.Ok? ==> forall ind :: 0 <= ind < |r.value| ==>
      MarkovGraph.KeyCount(mappings, ind) > 0 && dataFor(MarkovGraph.ValuesAt(mappings, ind)) == Some(r.value[ind])
    ensures r.Err? ==> (r.error.index < |MarkovGraph.PositionKeys(mappings)|
      && forall ind :: 0 <= ind < r.error.index ==> MarkovGraph.KeyCount(mappings, ind) > 0 && dataFor(MarkovGraph.ValuesAt(mappings, ind)).Some?)
    ensures r.Err? && r.error.NoMapping? ==> MarkovGraph.KeyCount(mappings, r.error.index) == 0
    ensures r.Err? && r.error.NoData? ==> MarkovGraph.KeyCount(mappings, r.error.index) > 0 && dataFor(MarkovGraph.ValuesAt(mappings, r.error.index)).None?
  {
    var numMappings := |MarkovGraph.PositionKeys(mappings)|;
    var constants: seq<string> := [];
    for ind := 0 to numMappings
      invariant |constants| == ind
      invariant forall j :: 0 <= j < ind ==>
        MarkovGraph.KeyCount(mappings, j) > 0 && dataFor(MarkovGraph.ValuesAt(mappings, j)) == Some(constants[j])
    {
      var mappingsForInd := MarkovGraph.ValuesAt(mappings, ind);
      if |mappingsForInd| == 0 {
        return Err(NoMapping(ind));
      }
      var constant := dataFor(mappingsForInd);
      if constant.None? {
        return Err(NoData(ind));
      }
      constants := constants + [constant.value];
    }
    return Ok(constants);
  }

  /** Some source is mapped to parameter index `ind`. */
  predicate Mapped<O>(mappings: seq<(nat, O)>, ind: nat)
  {
    exists e :: 0 <= e < |mappings| && mappings[e].0 == ind
  }

  /** When the mapped indexes are exactly 0 .. k-1, there are k keys and every index below k has sources. */
  lemma RequiredDataIndexes<O>(mappings: seq<(nat, O)>, k: nat)
    requires forall ind: nat :: ind < k <==> Mapped(mappings, ind)
    ensures |MarkovGraph.PositionKeys(mappings)| == k
    ensures forall ind: nat :: ind < k ==> MarkovGraph.KeyCount(mappings, ind) > 0
  {
    var keys := MarkovGraph.PositionKeys(mappings);
    forall ind: nat | ind < k
      ensures MarkovGraph.KeyCount(mappings, ind) > 0
    {
      assert Mapped(mappings, ind);
      var e :| 0 <= e < |mappings| && mappings[e].0 == ind;
      MarkovGraph.ValuesAtMember(mappings, ind, mappings[e].1);
    }
    forall ind: nat
      ensures ind in keys <==> ind < k
    {
      MarkovGraph.PositionKeysSpec(mappings, ind);
      assert Mapped(mappings, ind) <==> ind < k;
    }
    MarkovGraph.PositionKeysSpec(mappings, 0);
    DistinctRange(keys, k);
  }

  lemma FirstIn(keys: seq<nat>)
    ensures |keys| > 0 ==> keys[0] in keys
  {
  }

  /** A duplicate-free list whose elements are exactly 0 .. k-1 has k elements. */
  lemma {:induction false} DistinctRange(keys: seq<nat>, k: nat)
    requires forall i, j :: 0 <= i < j < |keys| ==> keys[i] != keys[j]
    requires forall x: nat :: x in keys <==> x < k
    ensures |keys| == k
    decreases k
  {
    if k == 0 {
      FirstIn(keys);
    } else {
      assert k - 1 in keys;
      var i :| 0 <= i < |keys| && keys[i] == k - 1;
      var rest := keys[..i] + keys[i + 1..];
      forall a, b | 0 <= a < b < |rest|
        ensures rest[a] != rest[b]
      {
        var a' := if a < i then a else a + 1;
        var b' := if b < i then b else b + 1;
        assert rest[a] == keys[a'] && rest[b] == keys[b'];
      }
      forall x: nat
        ensures x in rest <==> x < k - 1
      {
        if x in rest {
          var j :| 0 <= j < |rest| && rest[j] == x;
          var j' := if j < i then j else j + 1;
          assert keys[j'] == x && j' != i;
          if j' < i {
            assert keys[j'] != keys[i];
          } else {
            assert keys[i] != keys[j'];
          }
          assert x in keys;
        }
        if x < k - 1 {
          assert x in keys;
          var j :| 0 <= j < |keys| && keys[j] == x;
          assert j != i;
          if j < i {
            assert rest[j] == x;
          } else {
            assert rest[j - 1] == x;
          }
        }
      }
      DistinctRange(rest, k - 1);
    }
  }
}
