/**
 * chronocache's per-client Markov graph: the table of query nodes, the
 * strongly-connected-component search over the related-query edges
 * (Tarjan's algorithm as the source writes it), the discovery of parameter
 * mappings between one query's result rows and another query's inputs, and
 * the helpers that enumerate mapping configurations for the dependency
 * graphs of fully-defined queries (FDQs).
 *
 * `MarkovNode`, `QueryMappingEntry`, `DependencyGraph` and `QueryResult`
 * are not part of this model: a node is a value holding what the graph
 * reads from it, and the dependency-graph operations are parameters.
 */
module MarkovGraph {
  import opened Wrappers

  type QueryId = nat

  /** A parameter mapping discovered between a prior query (tail) and the query it feeds (head). */
  datatype MappingEntry = MappingEntry(tailQuery: QueryId, headQuery: QueryId)

  /** A multimap from input-parameter position to output column name, in insertion order. */
  type ColumnMappings = seq<(nat, string)>

  /** One configuration point: mapping entries chosen position by position. */
  type Point = seq<MappingEntry>

  /**
   * What the graph reads from a node: its hit count, the queries it
   * considers probabilistically related (outgoing), its prior mapping
   * entries keyed by parameter position, and the column mappings from
   * each prior query.
   */
  datatype MarkovNode = MarkovNode(
    id: QueryId,
    hitCount: nat,
    relatedOutQueries: seq<QueryId>,
    priorEntriesByPosition: seq<(nat, MappingEntry)>,
    priorQueryMappings: map<QueryId, ColumnMappings>)

  function FreshNode(id: QueryId): MarkovNode
  {
    MarkovNode(id, 0, [], [], map[])
  }

  /** The node table after `getOrAddNode(id)`: a fresh node only when `id` is absent. */
  function WithNode(nodes: map<QueryId, MarkovNode>, id: QueryId): (r: map<QueryId, MarkovNode>)
  {
    if id in nodes then nodes else nodes[id := FreshNode(id)]
  }

  /** Adding a node adds exactly `id`, keeps every existing node, and a fresh node carries its id and no hits. */
  lemma WithNodeSpec(nodes: map<QueryId, MarkovNode>, id: QueryId)
    ensures WithNode(nodes, id).Keys == nodes.Keys + {id}
    ensures forall q :: q in nodes ==> WithNode(nodes, id)[q] == nodes[q]
    ensures id !in nodes ==> WithNode(nodes, id)[id].id == id && WithNode(nodes, id)[id].hitCount == 0
  {
  }

  /** Asking for the same id twice changes nothing the second time. */
  lemma WithNodeIdempotent(nodes: map<QueryId, MarkovNode>, id: QueryId)
    ensures WithNode(WithNode(nodes, id), id) == WithNode(nodes, id)
  {
  }

  /** State of Tarjan's search, threaded through the recursion (the source mutates these in place). */
  datatype Tarjan = Tarjan(
    points: seq<QueryId>,
    lowlink: map<QueryId, int>,
    number: map<QueryId, int>,
    onStack: set<QueryId>,
    components: seq<set<QueryId>>)

  const EmptySearch := Tarjan([], map[], map[], {}, [])

  /**
   * The numbering facts the search keeps: the start is numbered 1 and every
   * other vertex at least 2, lowlinks lie between 1 and the vertex's own
   * number, and every stacked point and component member is numbered.
   */
  ghost predicate Numbered(s: Tarjan, start: QueryId)
  {
    && s.lowlink.Keys == s.number.Keys
    && start in s.number && s.number[start] == 1
    && (forall x :: x in s.number && x != start ==> s.number[x] >= 2)
    && (forall x :: x in s.number ==> 1 <= s.lowlink[x] <= s.number[x])
    && (forall k :: 0 <= k < |s.points| ==> s.points[k] in s.number)
    && (forall c :: c in s.components ==> c <= s.number.Keys)
  }

  ghost predicate StartAtBottom(s: Tarjan, start: QueryId)
  {
    |s.points| > 0 && s.points[0] == start
  }

  function Min(a: int, b: int): int { if a <= b then a else b }

  lemma {:induction false} SubsetCard<T>(a: set<T>, b: set<T>)
    requires a <= b
    ensures |a| <= |b|
    decreases |a|
  {
    if a != {} {
      var x :| x in a;
      SubsetCard(a - {x}, b - {x});
    }
  }

  /** Numbering one more vertex of `u` leaves fewer unnumbered vertices of `u`. */
  lemma FewerLeft<T>(u: set<T>, a: set<T>, b: set<T>, v: T)
    requires a <= b && v in b && v !in a && v in u
    ensures |u - b| < |u - a|
  {
    SubsetCard(u - b, (u - a) - {v});
  }

  /** Numbers `v` with `n` and pushes it. */
  function Push(s: Tarjan, v: QueryId, n: int): Tarjan
  {
    Tarjan(s.points + [v], s.lowlink[v := n], s.number[v := n], s.onStack + {v}, s.components)
  }

  /** Lowers the lowlink of `v` to that of `w` when smaller. */
  function Lower(s: Tarjan, v: QueryId, w: QueryId): Tarjan
    requires v in s.lowlink && w in s.lowlink
  {
    s.(lowlink := s.lowlink[v := Min(s.lowlink[v], s.lowlink[w])])
  }

  lemma PushNumbered(s: Tarjan, v: QueryId, i: int, start: QueryId)
    requires v !in s.number
    requires (i == 0 && v == start && s == EmptySearch) || (i >= 1 && Numbered(s, start) && StartAtBottom(s, start))
    ensures Numbered(Push(s, v, i + 1), start) && StartAtBottom(Push(s, v, i + 1), start)
    ensures Push(s, v, i + 1).number == s.number[v := i + 1]
  {
    var t := Push(s, v, i + 1);
    if i != 0 {
      forall k | 0 <= k < |t.points|
        ensures t.points[k] in t.number
      {
        if k < |s.points| {
          assert t.points[k] == s.points[k];
        }
      }
    }
  }

  lemma LowerNumbered(s: Tarjan, v: QueryId, w: QueryId, start: QueryId)
    requires Numbered(s, start) && v in s.number && w in s.number
    ensures Numbered(Lower(s, v, w), start)
    ensures Lower(s, v, w).number == s.number && Lower(s, v, w).points == s.points
  {
  }

  /** Pops every stacked vertex numbered at least `v`'s number into a new component. */
  method PopComponent(s: Tarjan, v: QueryId, i: int, start: QueryId) returns (s': Tarjan)
    requires Numbered(s, start) && StartAtBottom(s, start)
    requires v in s.number && s.number[v] == i + 1 && i >= 0
    requires i == 0 ==> v == start
    ensures Numbered(s', start) && s'.number == s.number
    ensures i != 0 ==> StartAtBottom(s', start)
    ensures |s'.components| == |s.components| + 1 && s'.components[..|s.components|] == s.components
    ensures i == 0 ==> start in s'.components[|s.components|]
  {
    var st := s;
    var comp: set<QueryId> := {};
    while |st.points| > 0 && st.number[st.points[|st.points| - 1]] >= st.number[v]
      invariant st.number == s.number && st.lowlink == s.lowlink && st.components == s.components
      invariant forall k :: 0 <= k < |st.points| ==> st.points[k] in st.number
      invariant comp <= st.number.Keys
      invariant i != 0 ==> StartAtBottom(st, start)
      invariant i == 0 ==> start in comp || start in st.points
      decreases |st.points|
    {
      var top := st.points[|st.points| - 1];
      st := st.(onStack := st.onStack - {top}, points := st.points[..|st.points| - 1]);
      comp := comp + {top};
    }
    s' := st.(components := st.components + [comp]);
  }

  /** The dependency-graph operations the walk uses, and each query's parameter count. */
  datatype GraphOps<!G> = GraphOps(
    addDependency: (G, MappingEntry) -> G,
    addBaseQuery: (G, QueryId) -> G,
    markAsFdq: G -> G,
    paramCount: QueryId -> nat)

  function Elements(stack: seq<QueryId>): set<QueryId>
  {
    set k | 0 <= k < |stack| :: stack[k]
  }

  /** Pushing a query not on the stack: a known one leaves fewer known queries off the stack, an unknown one as many. */
  lemma ElementsPush(known: set<QueryId>, stack: seq<QueryId>, q: QueryId)
    requires q !in stack
    ensures q in known ==> |known - Elements(stack + [q])| < |known - Elements(stack)|
    ensures q !in known ==> known - Elements(stack + [q]) == known - Elements(stack)
  {
    assert Elements(stack + [q]) == Elements(stack) + {q} by {
      forall x | x in Elements(stack + [q])
        ensures x in Elements(stack) + {q}
      {
        var k :| 0 <= k < |stack| + 1 && (stack + [q])[k] == x;
        if k < |stack| {
          assert stack[k] == x;
        }
      }
      forall x | x in Elements(stack)
        ensures x in Elements(stack + [q])
      {
        var k :| 0 <= k < |stack| && stack[k] == x;
        assert (stack + [q])[k] == x;
      }
      assert (stack + [q])[|stack|] == q;
    }
    assert q !in Elements(stack);
    if q in known {
      FewerLeft(known, Elements(stack), Elements(stack) + {q}, q);
    }
  }

  class MarkovGraph {
    var nodes: map<QueryId, MarkovNode>
    var hits: nat
    const clientId: nat

    constructor(clientId: nat)
      ensures this.clientId == clientId && nodes == map[] && hits == 0
    {
      this.clientId := clientId;
      nodes := map[];
      hits := 0;
    }

    method IncreaseHitCounter()
      modifies this
      ensures hits == old(hits) + 1 && nodes == old(nodes)
    {
      hits := hits + 1;
    }

    /** The node for `id`, added first when the table has none. */
    method GetOrAddNode(id: QueryId) returns (node: MarkovNode)
      modifies this
      ensures nodes == WithNode(old(nodes), id)
      ensures node == nodes[id]
      ensures id in old(nodes) ==> node == old(nodes)[id]
      ensures hits == old(hits)
    {
      if id !in nodes {
        nodes := nodes[id := FreshNode(id)];
      }
      node := nodes[id];
    }

    /** Hits of a node; an unknown query has none. */
    function NodeHits(id: QueryId): (r: nat)
      reads this
      ensures id !in nodes ==> r == 0
      ensures id in nodes ==> r == nodes[id].hitCount
    {
      if id in nodes then nodes[id].hitCount else 0
    }

    /** The related (outgoing) queries of a node; an unknown query has none. */
    function RelatedOutQueries(id: QueryId): (r: seq<QueryId>)
      reads this
      ensures id !in nodes ==> r == []
      ensures forall k :: 0 <= k < |r| ==> r[k] in Vertices(id)
    {
      if id in nodes then nodes[id].relatedOutQueries else []
    }

    /** Every query the search from `start` can reach: the nodes, their related queries and `start`. */
    ghost function Vertices(start: QueryId): set<QueryId>
      reads this
    {
      nodes.Keys + (set u, k | u in nodes && 0 <= k < |nodes[u].relatedOutQueries| :: nodes[u].relatedOutQueries[k]) + {start}
    }

    /**
     * One step of the search: numbers `v`, visits its related queries
     * depth-first and, when `v` is a root, pops its component off the
     * stack.  The counter `i` is passed by value, as in the source.
     */
    method StronglyConnected(v: QueryId, i: int, s: Tarjan, start: QueryId) returns (s': Tarjan)
      requires v !in s.number && v in Vertices(start)
      requires (i == 0 && v == start && s == EmptySearch) || (i >= 1 && Numbered(s, start) && StartAtBottom(s, start))
      ensures Numbered(s', start)
      ensures i != 0 ==> StartAtBottom(s', start)
      ensures v in s'.number
      ensures forall x :: x in s.number ==> x in s'.number && s'.number[x] == s.number[x]
      ensures i == 0 ==> |s'.components| > 0 && start in s'.components[|s'.components| - 1]
      decreases |Vertices(start) - s.number.Keys|
    {
      var n := i + 1;
      var st := Push(s, v, n);
      PushNumbered(s, v, i, start);
      var succ := RelatedOutQueries(v);
      var k := 0;
      while k < |succ|
        invariant 0 <= k <= |succ|
        invariant n >= 1
        invariant Numbered(st, start) && StartAtBottom(st, start)
        invariant v in st.number && st.number[v] == i + 1
        invariant forall x :: x in s.number ==> x in st.number && st.number[x] == s.number[x]
      {
        var w := succ[k];
        if w !in st.number {
          FewerLeft(Vertices(start), s.number.Keys, st.number.Keys, v);
          st := StronglyConnected(w, n, st, start);
          n := n + 1;
          LowerNumbered(st, v, w, start);
          st := Lower(st, v, w);
        } else if st.number[w] < st.number[v] && w in st.onStack {
          LowerNumbered(st, v, w, start);
          st := Lower(st, v, w);
        }
        k := k + 1;
      }
      if st.lowlink[v] == st.number[v] {
        st := PopComponent(st, v, i, start);
      }
      s' := st;
    }

    /** The strongly connected component of `start`: never empty, since it always holds `start`. */
    method FindScc(start: QueryId) returns (component: set<QueryId>)
      ensures start in component
    {
      var s := StronglyConnected(start, 0, EmptySearch, start);
      var k := 0;
      while start !in s.components[k]
        invariant 0 <= k <= |s.components| - 1
        decreases |s.components| - k
      {
        k := k + 1;
      }
      component := s.components[k];
    }

    /** The prior entries of a node by parameter position; an unknown query has none. */
    function PriorEntriesByPosition(q: QueryId): (r: seq<(nat, MappingEntry)>)
      reads this
      ensures q !in nodes ==> r == []
    {
      if q in nodes then nodes[q].priorEntriesByPosition else []
    }

    /** The column mappings from each prior query of a node; an unknown query has none. */
    function PriorQueryMappings(q: QueryId): (r: map<QueryId, ColumnMappings>)
      reads this
      ensures q !in nodes ==> r == map[]
    {
      if q in nodes then nodes[q].priorQueryMappings else map[]
    }

    /** Every query a dependency-graph walk can visit: the nodes and the tails of their prior entries. */
    ghost function Known(): set<QueryId>
      reads this
    {
      nodes.Keys + (set u, k | u in nodes && 0 <= k < |nodes[u].priorEntriesByPosition| :: nodes[u].priorEntriesByPosition[k].1.tailQuery)
    }

    lemma TailKnown(q: QueryId, e: nat)
      requires e < |PriorEntriesByPosition(q)|
      ensures q in Known() && PriorEntriesByPosition(q)[e].1.tailQuery in Known()
    {
      assert q in nodes;
    }

    /** The configurations of `q` only hold prior entries of `q`, whose tails are known queries. */
    lemma ConfigurationTailsKnown(q: QueryId, configs: seq<Point>, c: nat, m: nat)
      requires configs == Configurations(Singletons(PriorEntriesByPosition(q)), PositionKeys(Singletons(PriorEntriesByPosition(q))))
      requires c < |configs| && m < |configs[c]|
      ensures q in Known() && configs[c][m].tailQuery in Known()
    {
      var prior := PriorEntriesByPosition(q);
      PriorConfigurations(prior);
      assert configs[c] in configs;
      var keys := PositionKeys(Singletons(prior));
      assert FiledUnder(prior, keys[m], configs[c][m]);
      var e :| 0 <= e < |prior| && prior[e] == (keys[m], configs[c][m]);
      TailKnown(q, e);
    }

    /**
     * Builds every dependency graph of `qid` on top of `basis`: one per
     * configuration of its prior mappings, each completed by recursing into
     * the tail query of every chosen entry.  A query already on the context
     * stack means the mappings are not a DAG (the source throws
     * IllegalArgumentException); otherwise `qid` is pushed for the walk and
     * popped again before returning.
     */
    method ConstructFdqDependencyGraphs<G>(qid: QueryId, basis: G, stack: seq<QueryId>, ops: GraphOps<G>)
      returns (r: Result<seq<G>, QueryId>, stack': seq<QueryId>)
      ensures qid in stack ==> r == Err(qid) && stack' == stack
      ensures r.Ok? ==> qid !in stack && stack' == stack && |r.value| >= 1
      ensures r.Err? ==> r.error in stack' && stack <= stack'
      decreases |Known() - Elements(stack)|, if qid in Known() then 0 else 1
    {
      if qid in stack {
        return Err(qid), stack;
      }
      var ctx := stack + [qid];
      var singles := GenerateSingletonValues(PriorEntriesByPosition(qid));
      var configs := MappingConfigurations(singles);
      var complete: seq<G> := [];
      for c := 0 to |configs|
        invariant ctx == stack + [qid]
      {
        var g := basis;
        for m := 0 to |configs[c]| {
          g := ops.addDependency(g, configs[c][m]);
        }
        var incomplete := [g];
        for m := 0 to |configs[c]|
          invariant ctx == stack + [qid]
        {
          var received: seq<G> := [];
          ConfigurationTailsKnown(qid, configs, c, m);
          ElementsPush(Known(), stack, qid);
          for x := 0 to |incomplete|
            invariant ctx == stack + [qid]
          {
            var sub, after := ConstructFdqDependencyGraphs(configs[c][m].tailQuery, incomplete[x], ctx, ops);
            if sub.Err? {
              return sub, after;
            }
            ctx := after;
            received := received + sub.value;
          }
          incomplete := received;
        }
        complete := complete + incomplete;
      }
      if |complete| == 0 {
        complete := [basis];
      }
      var merged := MergeResultSetMappings(PriorQueryMappings(qid));
      var parameters := ops.paramCount(qid);
      if parameters == 0 {
        complete := seq(|complete|, k requires 0 <= k < |complete| => ops.addBaseQuery(complete[k], qid));
      } else if parameters != |MappedPositions(merged)| {
        complete := seq(|complete|, k requires 0 <= k < |complete| => ops.markAsFdq(ops.addBaseQuery(complete[k], qid)));
      }
      return Ok(complete), ctx[..|ctx| - 1];
    }

    /**
     * The dependency graphs of a new FDQ candidate: none when it has more
     * parameters than mapped positions; otherwise those built from an empty
     * graph with an empty context stack.
     */
    method ConstructNewFdqs<G>(qid: QueryId, empty: G, ops: GraphOps<G>) returns (r: Result<seq<G>, QueryId>)
      ensures ops.paramCount(qid) > |MappedPositions(MergedPairs(PriorQueryMappings(qid)))| ==> r == Ok([])
      ensures ops.paramCount(qid) <= |MappedPositions(MergedPairs(PriorQueryMappings(qid)))| && r.Ok? ==> |r.value| >= 1
    {
      var merged := MergeResultSetMappings(PriorQueryMappings(qid));
      if ops.paramCount(qid) > |MappedPositions(merged)| {
        return Ok([]);
      }
      var stack;
      r, stack := ConstructFdqDependencyGraphs(qid, empty, [], ops);
    }
  }

  // ---------------------------------------------------------------------
  // Parameter mappings between a result set and an input list
  // ---------------------------------------------------------------------

  /** One result row: its columns in iteration order, each with the text of its value (None for SQL NULL). */
  type ResultRow = seq<(string, Option<string>)>

  /** A parameter matches a value when it is the value's text, bare or in single quotes. */
  predicate ValueMatches(param: string, value: Option<string>)
  {
    value.Some? && (param == value.value || param == "'" + value.value + "'")
  }

  /** The pairs (i, column) for input `i` over the columns of `row`, in column order. */
  function ParamPairings(i: nat, param: string, row: ResultRow): (r: ColumnMappings)
    decreases |row|
  {
    if |row| == 0 then []
    else
      var last := row[|row| - 1];
      ParamPairings(i, param, row[..|row| - 1]) + (if ValueMatches(param, last.1) then [(i, last.0)] else [])
  }

  /** The pairings of every input with the columns of `row`, input by input. */
  function RowPairings(params: seq<string>, row: ResultRow): (r: ColumnMappings)
    decreases |params|
  {
    if |params| == 0 then []
    else RowPairings(params[..|params| - 1], row) + ParamPairings(|params| - 1, params[|params| - 1], row)
  }

  lemma {:induction false} ParamPairingsMembers(i: nat, param: string, row: ResultRow, p: (nat, string))
    ensures p in ParamPairings(i, param, row) <==> p.0 == i && exists c :: 0 <= c < |row| && row[c].0 == p.1 && ValueMatches(param, row[c].1)
    decreases |row|
  {
    if |row| > 0 {
      var prefix := row[..|row| - 1];
      ParamPairingsMembers(i, param, prefix, p);
      if p.0 == i && (exists c :: 0 <= c < |row| && row[c].0 == p.1 && ValueMatches(param, row[c].1)) {
        var c :| 0 <= c < |row| && row[c].0 == p.1 && ValueMatches(param, row[c].1);
        if c < |row| - 1 {
          assert prefix[c] == row[c];
        }
      }
    }
  }

  /** (i, column) is paired exactly when `i` is an input index and some column of that name holds a matching value. */
  lemma {:induction false} RowPairingsMembers(params: seq<string>, row: ResultRow, p: (nat, string))
    ensures p in RowPairings(params, row) <==>
      p.0 < |params| && exists c :: 0 <= c < |row| && row[c].0 == p.1 && ValueMatches(params[p.0], row[c].1)
    decreases |params|
  {
    if |params| > 0 {
      var prefix := params[..|params| - 1];
      RowPairingsMembers(prefix, row, p);
      ParamPairingsMembers(|params| - 1, params[|params| - 1], row, p);
      if p.0 < |params| - 1 {
        assert prefix[p.0] == params[p.0];
      }
    }
  }

  /** The rows tried, in order: up to nine rows after the last mapped one while in bounds, then row 0. */
  function RowsToCheck(lastPos: int, size: nat): (rows: seq<nat>)
    requires lastPos >= -1
  {
    var count := if size - lastPos - 1 <= 0 then 0 else if size - lastPos - 1 >= 9 then 9 else size - lastPos - 1;
    seq(count, k requires 0 <= k < count => (lastPos + 1 + k) as nat) + [0]
  }

  lemma RowsToCheckSpec(lastPos: int, size: nat)
    requires lastPos >= -1
    ensures |RowsToCheck(lastPos, size)| >= 1 && RowsToCheck(lastPos, size)[|RowsToCheck(lastPos, size)| - 1] == 0
    ensures forall k :: 0 <= k < |RowsToCheck(lastPos, size)| - 1 ==> RowsToCheck(lastPos, size)[k] == lastPos + 1 + k < size && k < 9
    ensures |RowsToCheck(lastPos, size)| - 1 == 9 || lastPos + |RowsToCheck(lastPos, size)| >= size
  {
  }

  /** The first of `rows` whose pairings are not empty, with those pairings; none if all are empty. */
  function FirstPairing(params: seq<string>, table: seq<ResultRow>, rows: seq<nat>): (r: (ColumnMappings, Option<nat>))
    requires forall k :: 0 <= k < |rows| ==> rows[k] < |table|
    decreases |rows|
  {
    if |rows| == 0 then ([], None)
    else
      var p := RowPairings(params, table[rows[0]]);
      if p != [] then (p, Some(rows[0])) else FirstPairing(params, table, rows[1..])
  }

  /** The row found is one of those tried, its pairings are not empty, and every row tried before it has none. */
  lemma {:induction false} FirstPairingSpec(params: seq<string>, table: seq<ResultRow>, rows: seq<nat>)
    requires forall k :: 0 <= k < |rows| ==> rows[k] < |table|
    ensures var r := FirstPairing(params, table, rows);
      && (r.1.None? ==> r.0 == [] && forall k :: 0 <= k < |rows| ==> RowPairings(params, table[rows[k]]) == [])
      && (r.1.Some? ==> exists j :: 0 <= j < |rows| && rows[j] == r.1.value && r.0 == RowPairings(params, table[rows[j]]) != []
                         && forall k :: 0 <= k < j ==> RowPairings(params, table[rows[k]]) == [])
    decreases |rows|
  {
    if |rows| > 0 && RowPairings(params, table[rows[0]]) == [] {
      FirstPairingSpec(params, table, rows[1..]);
      var r := FirstPairing(params, table, rows);
      if r.1.Some? {
        var j :| 0 <= j < |rows| - 1 && rows[1..][j] == r.1.value && r.0 == RowPairings(params, table[rows[1..][j]]) != []
                 && forall k :: 0 <= k < j ==> RowPairings(params, table[rows[1..][k]]) == [];
        assert rows[j + 1] == r.1.value;
        forall k | 0 <= k < j + 1
          ensures RowPairings(params, table[rows[k]]) == []
        {
          if k > 0 {
            assert rows[k] == rows[1..][k - 1];
          }
        }
      } else {
        forall k | 0 <= k < |rows|
          ensures RowPairings(params, table[rows[k]]) == []
        {
          if k > 0 {
            assert rows[k] == rows[1..][k - 1];
          }
        }
      }
    }
  }

  /** The pairings of one row, input by input and column by column. */
  method PairRow(params: seq<string>, row: ResultRow) returns (p: ColumnMappings)
    ensures p == RowPairings(params, row)
  {
    p := [];
    for i := 0 to |params|
      invariant p == RowPairings(params[..i], row)
    {
      var q := PairParam(i, params[i], row);
      assert params[..i + 1][..i] == params[..i];
      p := p + q;
    }
    assert params[..|params|] == params;
  }

  method PairParam(i: nat, param: string, row: ResultRow) returns (q: ColumnMappings)
    ensures q == ParamPairings(i, param, row)
  {
    q := [];
    for c := 0 to |row|
      invariant q == ParamPairings(i, param, row[..c])
    {
      assert row[..c + 1][..c] == row[..c];
      if ValueMatches(param, row[c].1) {
        q := q + [(i, row[c].0)];
      }
    }
    assert row[..|row|] == row;
  }

  /**
   * Looks for a mapping from the rows of a result set to the inputs of the
   * next query: empty for a non-select result, a missing input list or no
   * rows; otherwise the first non-empty pairing over the rows tried, with
   * the row it came from (the row the result records as last mapped).
   */
  method FindMappingsBetweenOutputInputSets(isSelect: bool, table: seq<ResultRow>, inputs: Option<seq<string>>, lastPos: int)
    returns (pairings: ColumnMappings, mappedRow: Option<nat>)
    requires lastPos >= -1
    ensures !isSelect || inputs.None? || |table| == 0 ==> pairings == [] && mappedRow == None
    ensures isSelect && inputs.Some? && |table| > 0 ==>
      (pairings, mappedRow) == FirstPairing(inputs.value, table, RowsToCheck(lastPos, |table|))
  {
    if !isSelect || inputs.None? || |table| == 0 {
      return [], None;
    }
    var params := inputs.value;
    var rows := RowsToCheck(lastPos, |table|);
    RowsToCheckSpec(lastPos, |table|);
    var j := 0;
    while j < |rows|
      invariant 0 <= j <= |rows|
      invariant FirstPairing(params, table, rows[j..]) == FirstPairing(params, table, rows)
    {
      var p := PairRow(params, table[rows[j]]);
      if p != [] {
        return p, Some(rows[j]);
      }
      assert rows[j..][1..] == rows[j + 1..];
      j := j + 1;
    }
    return [], None;
  }

  // ---------------------------------------------------------------------
  // Merging, filtering and configuring mappings
  // ---------------------------------------------------------------------

  /** Every (position, column) pair of every prior query's mappings, duplicates collapsed. */
  ghost function MergedPairs(prior: map<QueryId, ColumnMappings>): set<(nat, string)>
  {
    set q, k | q in prior && 0 <= k < |prior[q]| :: prior[q][k]
  }

  lemma MergedPairsMembers(prior: map<QueryId, ColumnMappings>, p: (nat, string))
    ensures p in MergedPairs(prior) <==> exists q :: q in prior && p in prior[q]
  {
    if exists q :: q in prior && p in prior[q] {
      var q :| q in prior && p in prior[q];
      var k :| 0 <= k < |prior[q]| && prior[q][k] == p;
    }
  }

  /** The union of all prior queries' mappings (a set multimap, so duplicates collapse). */
  method MergeResultSetMappings(prior: map<QueryId, ColumnMappings>) returns (merged: set<(nat, string)>)
    ensures merged == MergedPairs(prior)
  {
    merged := {};
    var todo := prior.Keys;
    while todo != {}
      invariant todo <= prior.Keys
      invariant merged == set q, k | q in prior && q !in todo && 0 <= k < |prior[q]| :: prior[q][k]
      decreases |todo|
    {
      var q :| q in todo;
      merged := merged + set k | 0 <= k < |prior[q]| :: prior[q][k];
      todo := todo - {q};
    }
  }

  /** The parameter positions that some mapping covers (the merged multimap's key set). */
  function MappedPositions(merged: set<(nat, string)>): set<nat>
  {
    set p | p in merged :: p.0
  }

  /** Drops every query whose mappings are empty; the others are kept as they are. */
  method FilterMappings(mappings: map<QueryId, ColumnMappings>) returns (r: map<QueryId, ColumnMappings>)
    ensures forall q :: q in r <==> q in mappings && |mappings[q]| > 0
    ensures forall q :: q in r ==> r[q] == mappings[q]
  {
    r := mappings;
    var todo := mappings.Keys;
    while todo != {}
      invariant todo <= mappings.Keys
      invariant forall q :: q in r <==> q in mappings && (q in todo || |mappings[q]| > 0)
      invariant forall q :: q in r ==> r[q] == mappings[q]
      decreases |todo|
    {
      var q :| q in todo;
      if |mappings[q]| == 0 {
        r := r - {q};
      }
      todo := todo - {q};
    }
  }

  /** Each (position, entry) pair becomes (position, one-element point), in the same order. */
  function Singletons(prior: seq<(nat, MappingEntry)>): (r: seq<(nat, Point)>)
    ensures |r| == |prior|
  {
    seq(|prior|, k requires 0 <= k < |prior| => (prior[k].0, [prior[k].1]))
  }

  function KeyCount<V>(m: seq<(nat, V)>, key: nat): nat
    decreases |m|
  {
    if |m| == 0 then 0 else KeyCount(m[..|m| - 1], key) + (if m[|m| - 1].0 == key then 1 else 0)
  }

  /** Every point made is one entry long, carries the entry at the same position, and each position keeps its count. */
  lemma {:induction false} SingletonsSpec(prior: seq<(nat, MappingEntry)>, key: nat)
    ensures forall k :: 0 <= k < |prior| ==> Singletons(prior)[k].0 == prior[k].0 && Singletons(prior)[k].1 == [prior[k].1]
    ensures KeyCount(Singletons(prior), key) == KeyCount(prior, key)
    decreases |prior|
  {
    if |prior| > 0 {
      assert Singletons(prior)[..|prior| - 1] == Singletons(prior[..|prior| - 1]);
      SingletonsSpec(prior[..|prior| - 1], key);
    }
  }

  method GenerateSingletonValues(prior: seq<(nat, MappingEntry)>) returns (r: seq<(nat, Point)>)
    ensures r == Singletons(prior)
  {
    r := [];
    for k := 0 to |prior|
      invariant r == Singletons(prior[..k])
    {
      r := r + [(prior[k].0, [prior[k].1])];
    }
    assert prior[..|prior|] == prior;
  }

  /** Each point of `a` followed by each point of `b`, `a`-major. */
  function Cross(a: seq<Point>, b: seq<Point>): (r: seq<Point>)
    decreases |a|
  {
    if |a| == 0 then [] else Cross(a[..|a| - 1], b) + seq(|b|, j requires 0 <= j < |b| => a[|a| - 1] + b[j])
  }

  /** `crossProduct`: an empty side gives the other side back; otherwise the pairwise concatenations. */
  function CrossProductOf(a: seq<Point>, b: seq<Point>): (r: seq<Point>)
    ensures |a| == 0 ==> r == b
    ensures |a| > 0 && |b| == 0 ==> r == a
  {
    if |a| == 0 then b else if |b| == 0 then a else Cross(a, b)
  }

  lemma MulSucc(x: nat, m: nat)
    ensures (x + 1) * m == x * m + m
  {
  }

  lemma MulMono(x: nat, y: nat, m: nat)
    requires x <= y
    ensures x * m <= y * m
  {
  }

  /** There are |a|·|b| points. */
  lemma {:induction false} CrossLength(a: seq<Point>, b: seq<Point>)
    ensures |Cross(a, b)| == |a| * |b|
    decreases |a|
  {
    if |a| > 0 {
      CrossLength(a[..|a| - 1], b);
      MulSucc(|a| - 1, |b|);
    }
  }

  /** The point at i·|b| + j is a[i] followed by b[j]: the order is `a`-major. */
  lemma {:induction false} CrossAt(a: seq<Point>, b: seq<Point>, i: nat, j: nat)
    requires i < |a| && j < |b|
    ensures i * |b| + j < |a| * |b|
    ensures |Cross(a, b)| == |a| * |b|
    ensures Cross(a, b)[i * |b| + j] == a[i] + b[j]
    decreases |a|
  {
    var pre := a[..|a| - 1];
    CrossLength(pre, b);
    CrossLength(a, b);
    MulSucc(|pre|, |b|);
    if i < |pre| {
      CrossAt(pre, b, i, j);
      assert pre[i] == a[i];
    } else {
      assert i == |pre|;
    }
  }

  /** Every point of the product is an `a` point followed by a `b` point. */
  lemma CrossMember(a: seq<Point>, b: seq<Point>, k: nat)
    requires k < |Cross(a, b)|
    ensures exists i, j :: 0 <= i < |a| && 0 <= j < |b| && Cross(a, b)[k] == a[i] + b[j]
  {
    CrossLength(a, b);
    var m := |b|;
    var i := k / m;
    var j := k % m;
    assert k == i * m + j;
    if i >= |a| {
      MulMono(|a|, i, m);
    }
    CrossAt(a, b, i, j);
  }

  method CrossProduct(first: seq<Point>, second: seq<Point>) returns (r: seq<Point>)
    ensures r == CrossProductOf(first, second)
  {
    if |first| == 0 {
      return second;
    } else if |second| == 0 {
      return first;
    }
    r := [];
    for i := 0 to |first|
      invariant r == Cross(first[..i], second)
    {
      var row: seq<Point> := [];
      for j := 0 to |second|
        invariant row == seq(j, k requires 0 <= k < j => first[i] + second[k])
      {
        row := row + [first[i] + second[j]];
      }
      assert first[..i + 1][..i] == first[..i];
      r := r + row;
    }
    assert first[..|first|] == first;
  }

  /** The entries filed under `key`, in order (a multimap's `get`). */
  function ValuesAt<V>(m: seq<(nat, V)>, key: nat): (r: seq<V>)
    ensures |r| == KeyCount(m, key)
    decreases |m|
  {
    if |m| == 0 then []
    else ValuesAt(m[..|m| - 1], key) + (if m[|m| - 1].0 == key then [m[|m| - 1].1] else [])
  }

  lemma {:induction false} ValuesAtMember<V>(m: seq<(nat, V)>, key: nat, v: V)
    ensures v in ValuesAt(m, key) <==> exists k :: 0 <= k < |m| && m[k] == (key, v)
    decreases |m|
  {
    if |m| > 0 {
      var pre := m[..|m| - 1];
      ValuesAtMember(pre, key, v);
      if exists k :: 0 <= k < |m| && m[k] == (key, v) {
        var k :| 0 <= k < |m| && m[k] == (key, v);
        if k < |pre| {
          assert pre[k] == m[k];
        }
      }
    }
  }

  /** The distinct keys of a multimap, in order of first appearance. */
  function PositionKeys<V>(m: seq<(nat, V)>): (keys: seq<nat>)
    decreases |m|
  {
    if |m| == 0 then []
    else
      var keys := PositionKeys(m[..|m| - 1]);
      if m[|m| - 1].0 in keys then keys else keys + [m[|m| - 1].0]
  }

  /** Every key listed has at least one entry. */
  lemma {:induction false} PositionKeysHaveValues<V>(m: seq<(nat, V)>)
    ensures forall k :: 0 <= k < |PositionKeys(m)| ==> KeyCount(m, PositionKeys(m)[k]) > 0
    decreases |m|
  {
    if |m| > 0 {
      PositionKeysHaveValues(m[..|m| - 1]);
    }
  }

  /** The key set is exactly the keys of the entries, each listed once. */
  lemma {:induction false} PositionKeysSpec<V>(m: seq<(nat, V)>, key: nat)
    ensures key in PositionKeys(m) <==> exists k :: 0 <= k < |m| && m[k].0 == key
    ensures forall i, j :: 0 <= i < j < |PositionKeys(m)| ==> PositionKeys(m)[i] != PositionKeys(m)[j]
    decreases |m|
  {
    if |m| > 0 {
      var pre := m[..|m| - 1];
      PositionKeysSpec(pre, key);
      if exists k :: 0 <= k < |m| && m[k].0 == key {
        var k :| 0 <= k < |m| && m[k].0 == key;
        if k < |pre| {
          assert pre[k] == m[k];
        }
      }
    }
  }

  /** The configurations after folding `crossProduct` over the options of each key in turn, from nothing. */
  function Configurations(m: seq<(nat, Point)>, keys: seq<nat>): (r: seq<Point>)
    decreases |keys|
  {
    if |keys| == 0 then []
    else CrossProductOf(Configurations(m, keys[..|keys| - 1]), ValuesAt(m, keys[|keys| - 1]))
  }

  /** The product of the number of options of each key. */
  function OptionProduct(m: seq<(nat, Point)>, keys: seq<nat>): nat
    decreases |keys|
  {
    if |keys| == 0 then 1 else OptionProduct(m, keys[..|keys| - 1]) * KeyCount(m, keys[|keys| - 1])
  }

  predicate OneEntryEach(m: seq<(nat, Point)>)
  {
    forall k :: 0 <= k < |m| ==> |m[k].1| == 1
  }

  /** `c` holds one option of each key, in key order. */
  ghost predicate Picks(m: seq<(nat, Point)>, keys: seq<nat>, c: Point)
  {
    |c| == |keys| && forall k :: 0 <= k < |keys| ==> [c[k]] in ValuesAt(m, keys[k])
  }

  lemma PickStep(m: seq<(nat, Point)>, keys: seq<nat>, x: Point, y: Point)
    requires |keys| > 0 && Picks(m, keys[..|keys| - 1], x)
    requires |y| == 1 && y in ValuesAt(m, keys[|keys| - 1])
    ensures Picks(m, keys, x + y)
  {
    var c := x + y;
    forall k | 0 <= k < |keys|
      ensures [c[k]] in ValuesAt(m, keys[k])
    {
      if k < |keys| - 1 {
        assert c[k] == x[k] && keys[k] == keys[..|keys| - 1][k];
      } else {
        assert [c[k]] == y;
      }
    }
  }

  /** With options for every key, there are as many configurations as the product of the option counts. */
  lemma {:induction false} ConfigurationsCount(m: seq<(nat, Point)>, keys: seq<nat>)
    requires forall k :: 0 <= k < |keys| ==> KeyCount(m, keys[k]) > 0
    ensures |keys| > 0 ==> |Configurations(m, keys)| == OptionProduct(m, keys) > 0
    decreases |keys|
  {
    if |keys| > 1 {
      var pre := keys[..|keys| - 1];
      ConfigurationsCount(m, pre);
      CrossLength(Configurations(m, pre), ValuesAt(m, keys[|keys| - 1]));
    }
  }

  /** With options for every key, each one entry long, every configuration picks one option per key. */
  lemma {:induction false} ConfigurationsPick(m: seq<(nat, Point)>, keys: seq<nat>)
    requires OneEntryEach(m)
    requires forall k :: 0 <= k < |keys| ==> KeyCount(m, keys[k]) > 0
    ensures forall c :: c in Configurations(m, keys) ==> Picks(m, keys, c)
    decreases |keys|
  {
    if |keys| > 0 {
      var pre := keys[..|keys| - 1];
      var last := keys[|keys| - 1];
      var before := Configurations(m, pre);
      var opts := ValuesAt(m, last);
      ConfigurationsPick(m, pre);
      ConfigurationsCount(m, pre);
      forall v | v in opts
        ensures |v| == 1
      {
        ValuesAtMember(m, last, v);
      }
      forall c | c in Configurations(m, keys)
        ensures Picks(m, keys, c)
      {
        if |pre| == 0 {
          PickStep(m, keys, [], c);
        } else {
          CrossPicks(m, keys, before, opts, c);
        }
      }
    }
  }

  /** A configuration of the cross product extends a configuration of the earlier keys by one option of the last. */
  lemma CrossPicks(m: seq<(nat, Point)>, keys: seq<nat>, before: seq<Point>, opts: seq<Point>, c: Point)
    requires |keys| > 0 && opts == ValuesAt(m, keys[|keys| - 1])
    requires forall x :: x in before ==> Picks(m, keys[..|keys| - 1], x)
    requires forall v :: v in opts ==> |v| == 1
    requires c in Cross(before, opts)
    ensures Picks(m, keys, c)
  {
    var n :| 0 <= n < |Cross(before, opts)| && Cross(before, opts)[n] == c;
    CrossMember(before, opts, n);
    var i, j :| 0 <= i < |before| && 0 <= j < |opts| && c == before[i] + opts[j];
    assert before[i] in before;
    assert opts[j] in opts;
    PickStep(m, keys, before[i], opts[j]);
  }

  /** Folds `crossProduct` over the options of each position, starting from no configuration. */
  method MappingConfigurations(singles: seq<(nat, Point)>) returns (configs: seq<Point>)
    ensures configs == Configurations(singles, PositionKeys(singles))
  {
    var keys := PositionKeys(singles);
    configs := [];
    for k := 0 to |keys|
      invariant configs == Configurations(singles, keys[..k])
    {
      assert keys[..k + 1][..k] == keys[..k];
      configs := CrossProduct(configs, ValuesAt(singles, keys[k]));
    }
    assert keys[..|keys|] == keys;
  }

  /**
   * With at least one prior entry a node has configurations: as many as the
   * product of the entry counts per mapped position.
   */
  lemma PriorConfigurationCount(prior: seq<(nat, MappingEntry)>)
    requires |prior| > 0
    ensures |Configurations(Singletons(prior), PositionKeys(Singletons(prior)))| == OptionProduct(Singletons(prior), PositionKeys(Singletons(prior))) > 0
  {
    var singles := Singletons(prior);
    PositionKeysHaveValues(singles);
    ConfigurationsCount(singles, PositionKeys(singles));
    PositionKeysSpec(singles, singles[0].0);
  }

  /**
   * Each configuration made from a node's prior entries holds, for every
   * mapped position in order, one prior entry filed under that position.
   */
  lemma PriorConfigurations(prior: seq<(nat, MappingEntry)>)
    ensures forall c :: c in Configurations(Singletons(prior), PositionKeys(Singletons(prior))) ==>
      |c| == |PositionKeys(Singletons(prior))| && forall k :: 0 <= k < |c| ==> FiledUnder(prior, PositionKeys(Singletons(prior))[k], c[k])
  {
    var singles := Singletons(prior);
    var keys := PositionKeys(singles);
    PositionKeysHaveValues(singles);
    ConfigurationsPick(singles, keys);
    forall c | c in Configurations(singles, keys)
      ensures |c| == |keys| && forall k :: 0 <= k < |keys| ==> FiledUnder(prior, keys[k], c[k])
    {
      PickedEntries(prior, keys, c);
    }
  }

  /** Each option a configuration picks is one of the prior entries, filed under its key. */
  lemma PickedEntries(prior: seq<(nat, MappingEntry)>, keys: seq<nat>, c: Point)
    requires Picks(Singletons(prior), keys, c)
    ensures |c| == |keys|
    ensures forall k :: 0 <= k < |keys| ==> FiledUnder(prior, keys[k], c[k])
  {
    forall k | 0 <= k < |keys|
      ensures FiledUnder(prior, keys[k], c[k])
    {
      assert [c[k]] in ValuesAt(Singletons(prior), keys[k]);
      PickedEntry(prior, keys[k], c[k]);
    }
  }

  /** `x` is one of the prior entries, filed under position `key`. */
  predicate FiledUnder(prior: seq<(nat, MappingEntry)>, key: nat, x: MappingEntry)
  {
    exists e :: 0 <= e < |prior| && prior[e] == (key, x)
  }

  lemma PickedEntry(prior: seq<(nat, MappingEntry)>, key: nat, x: MappingEntry)
    requires [x] in ValuesAt(Singletons(prior), key)
    ensures FiledUnder(prior, key, x)
  {
    ValuesAtMember(Singletons(prior), key, [x]);
    var e :| 0 <= e < |prior| && Singletons(prior)[e] == (key, [x]);
    assert prior[e] == (key, x);
  }

}
