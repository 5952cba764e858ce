/**
 * The SQL text builders of chronocache's lateral-union vectorizer: the
 * row-number wrapper, the LEFT/RIGHT "zipper" join of two query texts, the
 * SELECT / U-table / ORDER BY clauses of one topological level, and the
 * zipper merge of all queries at a level with its column-alias
 * de-duplication and row-number / offset bookkeeping.
 *
 * Each builder that appends to a StringBuilder in a loop is a method whose
 * postcondition ties the text it builds to a specification function written
 * with `Join`; the lemmas state what those functions guarantee.
 */
module LateralUnionVectorizer {
  import opened Wrappers
  import opened Text
  import opened Seqs

  datatype OrderDirection = Default | Asc | Desc

  /** Position of an ordering column in a level's result row, its direction and its name. */
  datatype OrderTypeInformation = OrderTypeInformation(startPosition: nat, direction: OrderDirection, origColName: string)

  /** An alias map in iteration order: each column name with the list of names that replace it. */
  type AliasMap = seq<(string, seq<string>)>

  function Num(n: nat): string { NatToString(n) }

  // ---------------------------------------------------------------------
  // Simple ORDER BY conditions
  // ---------------------------------------------------------------------

  /** The column of a simple ORDER BY condition: the first ", DESC", ", ASC", " DESC" and " ASC" are removed, in that order. */
  function ColumnFromOrderBy(e: string): (col: string)
    ensures |col| <= |e|
  {
    var a := ReplaceFirst(e, ", DESC", "");
    var b := ReplaceFirst(a, ", ASC", "");
    var c := ReplaceFirst(b, " DESC", "");
    ReplaceFirst(c, " ASC", "")
  }

  /** DESC if the condition mentions "DESC" anywhere, else ASC if it mentions "ASC", else the default direction. */
  function OrderDirectionOf(e: string): (d: OrderDirection)
    ensures d == Desc <==> Contains(e, "DESC")
    ensures d == Asc <==> !Contains(e, "DESC") && Contains(e, "ASC")
  {
    if Contains(e, "DESC") then Desc else if Contains(e, "ASC") then Asc else Default
  }

  function DirectionSuffix(d: OrderDirection): string
  {
    match d
    case Default => ""
    case Asc => " ASC"
    case Desc => " DESC"
  }

  /** A plain column name: no space, no comma, and neither "ASC" nor "DESC" inside it. */
  predicate PlainColumn(c: string)
  {
    ' ' !in c && ',' !in c && !Contains(c, "ASC") && !Contains(c, "DESC")
  }

  lemma OccursAtChar(s: string, t: string, i: nat, k: nat)
    requires OccursAt(s, t, i) && k < |t|
    ensures s[i + k] == t[k]
  {
    assert s[i..i + |t|][k] == t[k];
  }

  /** A pattern holding a character that the text lacks cannot occur in the text. */
  lemma NoOccurrenceWithoutChar(s: string, t: string, x: char)
    requires x in t && x !in s
    ensures !Contains(s, t)
  {
    var k :| 0 <= k < |t| && t[k] == x;
    forall i: nat | i <= |s| && OccursAt(s, t, i)
      ensures false
    {
      OccursAtChar(s, t, i, k);
    }
  }

  /** An occurrence in `a + b` that is in neither part must cover `b[0]`; when `t` lacks that character there is none. */
  lemma NoOccurrenceInConcat(a: string, b: string, t: string)
    requires !Contains(a, t) && !Contains(b, t)
    requires |b| > 0 && b[0] !in t
    ensures !Contains(a + b, t)
  {
    var e := a + b;
    forall i: nat | i <= |e| && OccursAt(e, t, i)
      ensures false
    {
      if i + |t| <= |a| {
        assert e[i..i + |t|] == a[i..i + |t|];
        assert OccursAt(a, t, i);
      } else if i > |a| {
        assert e[i..i + |t|] == b[i - |a|..i - |a| + |t|];
        assert OccursAt(b, t, i - |a|);
      } else {
        OccursAtChar(e, t, i, |a| - i);
      }
    }
  }

  lemma RoundTripDefault(c: string)
    requires PlainColumn(c)
    ensures ColumnFromOrderBy(c) == c && OrderDirectionOf(c) == Default
  {
    NoOccurrenceWithoutChar(c, ", DESC", ',');
    NoOccurrenceWithoutChar(c, ", ASC", ',');
    NoOccurrenceWithoutChar(c, " DESC", ' ');
    NoOccurrenceWithoutChar(c, " ASC", ' ');
    ReplaceFirstSpec(c, ", DESC", "");
    ReplaceFirstSpec(c, ", ASC", "");
    ReplaceFirstSpec(c, " DESC", "");
    ReplaceFirstSpec(c, " ASC", "");
  }

  lemma RoundTripAsc(c: string)
    requires PlainColumn(c)
    ensures ColumnFromOrderBy(c + " ASC") == c && OrderDirectionOf(c + " ASC") == Asc
  {
    var e := c + " ASC";
    NoOccurrenceWithoutChar(" ASC", "DESC", 'D');
    NoOccurrenceInConcat(c, " ASC", "DESC");
    assert OccursAt(e, "ASC", |c| + 1);
    NoOccurrenceWithoutChar(e, ", DESC", ',');
    NoOccurrenceWithoutChar(e, ", ASC", ',');
    assert !Contains(e, " DESC") by {
      forall i: nat | i <= |e| && OccursAt(e, " DESC", i) ensures false {
        assert e[i + 1..i + 5] == e[i..i + 5][1..];
        assert OccursAt(e, "DESC", i + 1);
      }
    }
    assert OccursAt(e, " ASC", |c|);
    forall j: nat | j < |c| ensures !OccursAt(e, " ASC", j) {
      assert e[j] == c[j];
    }
    ReplaceFirstSpec(e, ", DESC", "");
    ReplaceFirstSpec(e, ", ASC", "");
    ReplaceFirstSpec(e, " DESC", "");
    ReplaceFirstAt(e, " ASC", "", |c|);
    assert e[..|c|] + "" + e[|c| + 4..] == c;
  }

  lemma RoundTripDesc(c: string)
    requires PlainColumn(c)
    ensures ColumnFromOrderBy(c + " DESC") == c && OrderDirectionOf(c + " DESC") == Desc
  {
    var e := c + " DESC";
    assert OccursAt(e, "DESC", |c| + 1);
    NoOccurrenceWithoutChar(e, ", DESC", ',');
    NoOccurrenceWithoutChar(e, ", ASC", ',');
    assert OccursAt(e, " DESC", |c|);
    forall j: nat | j < |c| ensures !OccursAt(e, " DESC", j) {
      assert e[j] == c[j];
    }
    ReplaceFirstSpec(e, ", DESC", "");
    ReplaceFirstSpec(e, ", ASC", "");
    ReplaceFirstAt(e, " DESC", "", |c|);
    assert e[..|c|] + "" + e[|c| + 5..] == c;
    NoOccurrenceWithoutChar(c, " ASC", ' ');
    ReplaceFirstSpec(c, " ASC", "");
  }

  /**
   * Writing a plain column with a direction suffix and parsing it back gives
   * the column and the direction again.
   */
  lemma OrderByRoundTrip(c: string, d: OrderDirection)
    requires PlainColumn(c)
    ensures ColumnFromOrderBy(c + DirectionSuffix(d)) == c
    ensures OrderDirectionOf(c + DirectionSuffix(d)) == d
  {
    match d {
      case Default => assert c + DirectionSuffix(d) == c; RoundTripDefault(c);
      case Asc => RoundTripAsc(c);
      case Desc => RoundTripDesc(c);
    }
  }

  // ---------------------------------------------------------------------
  // Row numbers and the zipper join of two queries
  // ---------------------------------------------------------------------

  /**
   * The row-number columns that exist below query number `n`: rn0 and every
   * odd rn (an even number after 0 names a wrapper query with no rn of its own).
   */
  function RnIndices(n: nat): (r: seq<nat>)
    ensures forall k :: 0 <= k < |r| ==> r[k] < n && (r[k] == 0 || r[k] % 2 == 1)
    ensures forall i: nat :: i < n && (i == 0 || i % 2 == 1) ==> i in r
    ensures forall j, k :: 0 <= j < k < |r| ==> r[j] < r[k]
    ensures n > 0 ==> |r| > 0 && r[0] == 0
  {
    if n == 0 then []
    else RnIndices(n - 1) + (if (n - 1) % 2 != 0 || n - 1 == 0 then [n - 1] else [])
  }

  /** With 2m query numbers in use there are m + 1 row-number columns: rn0, rn1, rn3, ..., rn(2m-1). */
  lemma {:induction false} RnIndicesCount(m: nat)
    ensures |RnIndices(2 * m)| == m + 1 || m == 0
    ensures m == 0 ==> RnIndices(0) == []
  {
    if m > 1 {
      RnIndicesCount(m - 1);
      assert RnIndices(2 * m) == RnIndices(2 * m - 1) + [2 * m - 1];
      assert RnIndices(2 * m - 1) == RnIndices(2 * (m - 1));
    } else if m == 1 {
      assert RnIndices(2) == [0, 1];
    }
  }

  function RnName(i: nat): string { "rn" + Num(i) }

  function RnNames(idx: seq<nat>): (r: seq<string>)
    ensures |r| == |idx|
    ensures forall k :: 0 <= k < |idx| ==> r[k] == RnName(idx[k])
  {
    if |idx| == 0 then [] else RnNames(idx[..|idx| - 1]) + [RnName(idx[|idx| - 1])]
  }

  function OnLeft(n1: nat): string { "z" + Num(n1) + ".rn" }
  function OnRight(n2: nat): string { " = z" + Num(n2) + ".rn" + Num(n2) }

  /** The equality "z<n1>.rn<i> = z<n2>.rn<n2>". */
  function OnEquality(n1: nat, i: nat, n2: nat): string
  {
    OnLeft(n1) + Num(i) + OnRight(n2)
  }

  function OnEqualities(n1: nat, idx: seq<nat>, n2: nat): (r: seq<string>)
    ensures |r| == |idx|
    ensures forall k :: 0 <= k < |idx| ==> r[k] == OnEquality(n1, idx[k], n2)
  {
    if |idx| == 0 then [] else OnEqualities(n1, idx[..|idx| - 1], n2) + [OnEquality(n1, idx[|idx| - 1], n2)]
  }

  /** The condition of the ON clause for query numbers n1 and n2, over the row-number columns below n2. */
  function OnCondition(n1: nat, n2: nat, upTo: nat): string
  {
    Join(OnEqualities(n1, RnIndices(upTo), n2), " OR ")
  }

  function ZipperHead(q1: string, q2: string, n1: nat, n2: nat, joinType: string): string
  {
    "SELECT * FROM ( " + q1 + " ) z" + Num(n1) + " " + joinType + " ( " + q2 + " ) z" + Num(n2) + " ON "
  }

  /**
   * One half of a zipper merge: query 1 as z<n1> joined (LEFT or RIGHT) with
   * query 2 as z<n2> on "z<n1>.rn<i> = z<n2>.rn<n2>" for every row-number
   * column i of query 1, the equalities joined by " OR ".
   */
  function ZipperHalf(q1: string, q2: string, n1: nat, n2: nat, joinType: string): string
  {
    ZipperHead(q1, q2, n1, n2, joinType) + OnCondition(n1, n2, n2)
  }

  /** One more loop step of the ON clause: index i contributes its equality exactly when it is 0 or odd. */
  lemma OnConditionStep(n1: nat, n2: nat, i: nat)
    ensures (i % 2 != 0 || i == 0) && i > 0 ==> OnCondition(n1, n2, i + 1) == OnCondition(n1, n2, i) + " OR " + OnEquality(n1, i, n2)
    ensures i == 0 ==> OnCondition(n1, n2, i + 1) == OnEquality(n1, i, n2)
    ensures !(i % 2 != 0 || i == 0) ==> OnCondition(n1, n2, i + 1) == OnCondition(n1, n2, i)
  {
    var before := OnEqualities(n1, RnIndices(i), n2);
    if i % 2 != 0 || i == 0 {
      assert RnIndices(i + 1) == RnIndices(i) + [i];
      assert RnIndices(i + 1)[..|RnIndices(i + 1)| - 1] == RnIndices(i);
      assert OnEqualities(n1, RnIndices(i + 1), n2) == before + [OnEquality(n1, i, n2)];
      if i > 0 {
        JoinSnoc(before, OnEquality(n1, i, n2), " OR ");
      } else {
        assert before + [OnEquality(n1, i, n2)] == [OnEquality(n1, i, n2)];
      }
    } else {
      assert RnIndices(i + 1) == RnIndices(i);
    }
  }

  method GenerateZipperMergeTextHalf(q1: string, q2: string, n1: nat, n2: nat, joinType: string) returns (text: string)
    ensures text == ZipperHalf(q1, q2, n1, n2, joinType)
  {
    var head := ZipperHead(q1, q2, n1, n2, joinType);
    var cond := "";
    var i := 0;
    while i < n2
      invariant 0 <= i <= n2
      invariant cond == OnCondition(n1, n2, i)
    {
      OnConditionStep(n1, n2, i);
      if i % 2 != 0 || i == 0 {
        if i > 0 {
          cond := cond + " OR ";
        }
        cond := cond + OnEquality(n1, i, n2);
      }
      i := i + 1;
    }
    text := head + cond;
  }

  /** The ON clause holds exactly the equalities for rn0 and the odd rn columns below n2. */
  lemma ZipperHalfOnClause(n1: nat, n2: nat, i: nat)
    ensures OnEquality(n1, i, n2) in OnEqualities(n1, RnIndices(n2), n2) <==> i < n2 && (i == 0 || i % 2 == 1)
  {
    var idx := RnIndices(n2);
    if OnEquality(n1, i, n2) in OnEqualities(n1, idx, n2) {
      var k :| 0 <= k < |idx| && OnEqualities(n1, idx, n2)[k] == OnEquality(n1, i, n2);
      var a := OnLeft(n1);
      var b := OnRight(n2);
      assert a + Num(idx[k]) + b == a + Num(i) + b;
      assert Num(idx[k]) == Num(i) by {
        assert (a + Num(idx[k]) + b)[|a|..|a| + |Num(idx[k])|] == Num(idx[k]);
        assert |Num(idx[k])| == |Num(i)|;
        assert (a + Num(i) + b)[|a|..|a| + |Num(i)|] == Num(i);
      }
      NatToStringInjective(idx[k], i);
    }
    if i < n2 && (i == 0 || i % 2 == 1) {
      assert i in idx;
      var k :| 0 <= k < |idx| && idx[k] == i;
      assert OnEqualities(n1, idx, n2)[k] == OnEquality(n1, i, n2);
    }
  }

  // ---------------------------------------------------------------------
  // The row-number wrapper
  // ---------------------------------------------------------------------

  /** `key` occurs at i and is not followed by '_' (the pattern `key(?!_)` read literally). */
  predicate AliasMatchAt(s: string, key: string, i: nat)
  {
    OccursAt(s, key, i) && (i + |key| == |s| || s[i + |key|] != '_')
  }

  function AliasMatchFrom(s: string, key: string, from: nat): (r: Option<nat>)
    ensures r.Some? ==> from <= r.value && AliasMatchAt(s, key, r.value)
    ensures r.Some? ==> forall j: nat :: from <= j < r.value ==> !AliasMatchAt(s, key, j)
    ensures r.None? ==> forall j: nat :: from <= j ==> !AliasMatchAt(s, key, j)
    decreases |s| - from
  {
    if from + |key| > |s| then None
    else if AliasMatchAt(s, key, from) then Some(from)
    else AliasMatchFrom(s, key, from + 1)
  }

  /**
   * Java's `replaceFirst(key + "(?!_)", val)`: the first occurrence of `key`
   * that is not followed by '_' is replaced by `val`; an occurrence that is
   * followed by '_' (an already adjusted name such as "t2_0") is left alone.
   */
  function ReplaceAlias(s: string, key: string, val: string): (r: string)
    ensures (forall j: nat :: !AliasMatchAt(s, key, j)) ==> r == s
    ensures forall i: nat :: AliasMatchAt(s, key, i) && (forall j: nat :: j < i ==> !AliasMatchAt(s, key, j))
              ==> r == s[..i] + val + s[i + |key|..]
  {
    match AliasMatchFrom(s, key, 0)
    case None => s
    case Some(i) => s[..i] + val + s[i + |key|..]
  }

  /** Every replacement name of one alias entry, applied in list order. */
  function ApplyAliasValues(s: string, key: string, vals: seq<string>): string
    decreases |vals|
  {
    if |vals| == 0 then s else ApplyAliasValues(ReplaceAlias(s, key, vals[0]), key, vals[1..])
  }

  /** Every entry of an alias map, applied in iteration order. */
  function ApplyAliases(s: string, aliases: AliasMap): string
    decreases |aliases|
  {
    if |aliases| == 0 then s
    else ApplyAliases(ApplyAliasValues(s, aliases[0].0, aliases[0].1), aliases[1..])
  }

  function RewrittenConditions(conds: seq<string>, aliases: AliasMap): (r: seq<string>)
    ensures |r| == |conds|
    ensures forall k :: 0 <= k < |conds| ==> r[k] == ApplyAliases(conds[k], aliases)
  {
    if |conds| == 0 then []
    else RewrittenConditions(conds[..|conds| - 1], aliases) + [ApplyAliases(conds[|conds| - 1], aliases)]
  }

  /** The window of ROW_NUMBER(): empty without conditions, otherwise "ORDER BY " and the rewritten conditions. */
  function RowNumberWindow(conds: seq<string>, aliases: AliasMap): string
  {
    if |conds| == 0 then "" else "ORDER BY " + Join(RewrittenConditions(conds, aliases), ", ")
  }

  /** The query wrapped so that it also selects its row number as rn<n>. */
  function RowNumberText(q: string, conds: seq<string>, aliases: AliasMap, n: nat): string
  {
    "SELECT *, ROW_NUMBER() OVER (" + RowNumberWindow(conds, aliases) + ") AS rn" + Num(n) + " FROM ( " + q + " ) k"
  }

  /** One ORDER BY condition with every alias of the map substituted, entry by entry and value by value. */
  method RewriteCondition(c: string, aliases: AliasMap) returns (cond: string)
    ensures cond == ApplyAliases(c, aliases)
  {
    cond := c;
    var e := 0;
    while e < |aliases|
      invariant 0 <= e <= |aliases|
      invariant ApplyAliases(cond, aliases[e..]) == ApplyAliases(c, aliases)
    {
      var key := aliases[e].0;
      var vals := aliases[e].1;
      ghost var start := cond;
      var v := 0;
      while v < |vals|
        invariant 0 <= v <= |vals|
        invariant ApplyAliasValues(cond, key, vals[v..]) == ApplyAliasValues(start, key, vals)
      {
        cond := ReplaceAlias(cond, key, vals[v]);
        assert vals[v..][1..] == vals[v + 1..];
        v := v + 1;
      }
      assert aliases[e..][1..] == aliases[e + 1..];
      e := e + 1;
    }
  }

  /** The rewritten conditions of one more condition: the list so far, a separator, the new one. */
  lemma RewrittenConditionsStep(conds: seq<string>, aliases: AliasMap, i: nat)
    requires i < |conds|
    ensures Join(RewrittenConditions(conds[..i + 1], aliases), ", ")
      == (if i > 0 then Join(RewrittenConditions(conds[..i], aliases), ", ") + ", " else "") + ApplyAliases(conds[i], aliases)
  {
    assert conds[..i + 1][..i] == conds[..i];
    JoinAppendOne(RewrittenConditions(conds[..i], aliases), ApplyAliases(conds[i], aliases), ", ");
  }

  method AddRowNumberColToQueryString(q: string, conds: seq<string>, aliases: AliasMap, n: nat) returns (text: string)
    ensures text == RowNumberText(q, conds, aliases, n)
  {
    var window := "";
    if |conds| > 0 {
      var joined := "";
      var i := 0;
      while i < |conds|
        invariant 0 <= i <= |conds|
        invariant joined == Join(RewrittenConditions(conds[..i], aliases), ", ")
      {
        var cond := RewriteCondition(conds[i], aliases);
        RewrittenConditionsStep(conds, aliases, i);
        if i > 0 {
          joined := joined + ", ";
        }
        joined := joined + cond;
        i := i + 1;
      }
      assert conds[..|conds|] == conds;
      window := "ORDER BY " + joined;
    }
    text := "SELECT *, ROW_NUMBER() OVER (" + window + ") AS rn" + Num(n) + " FROM ( " + q + " ) k";
  }

  /** Without ordering conditions the OVER clause is empty (the expected text of LateralUnionVectorizerTest). */
  lemma RowNumberTextExample()
    ensures RowNumberText("SELECT colA FROM T", [], [], 1)
            == "SELECT *, ROW_NUMBER() OVER () AS rn1 FROM ( SELECT colA FROM T ) k"
  {
  }

  /** An alias is substituted into an ORDER BY condition, but never into a name it already adjusted. */
  lemma ReplaceAliasExample()
    ensures ReplaceAlias("t2 ASC", "t2", "t2_0") == "t2_0 ASC"
    ensures ReplaceAlias("t2_0 ASC", "t2", "t2_0_0") == "t2_0 ASC"
  {
    assert AliasMatchAt("t2 ASC", "t2", 0);
    assert forall j: nat :: !AliasMatchAt("t2_0 ASC", "t2", j) by {
      forall j: nat ensures !AliasMatchAt("t2_0 ASC", "t2", j) {
        if j != 0 && AliasMatchAt("t2_0 ASC", "t2", j) {
          OccursAtChar("t2_0 ASC", "t2", j, 0);
          OccursAtChar("t2_0 ASC", "t2", j, 1);
        }
      }
    }
  }

  // ---------------------------------------------------------------------
  // Zipper merge of two queries
  // ---------------------------------------------------------------------

  /** Query 2 gets rn<n2>; the LEFT JOIN half and the RIGHT JOIN half over the same operands are joined by UNION. */
  function ZipperTwo(q1: string, q2: string, conds2: seq<string>, aliases2: AliasMap, n1: nat, n2: nat): string
  {
    var q2rn := RowNumberText(q2, conds2, aliases2, n2);
    ZipperHalf(q1, q2rn, n1, n2, "LEFT JOIN") + " UNION " + ZipperHalf(q1, q2rn, n1, n2, "RIGHT JOIN")
  }

  method ZipperMergeTwoQueries(q1: string, q2: string, conds2: seq<string>, aliases2: AliasMap, n1: nat, n2: nat)
    returns (text: string)
    ensures text == ZipperTwo(q1, q2, conds2, aliases2, n1, n2)
  {
    var q2rn := AddRowNumberColToQueryString(q2, conds2, aliases2, n2);
    var left := GenerateZipperMergeTextHalf(q1, q2rn, n1, n2, "LEFT JOIN");
    var right := GenerateZipperMergeTextHalf(q1, q2rn, n1, n2, "RIGHT JOIN");
    text := left + " UNION " + right;
  }

  /** The ON condition of the first merge at a level, (z0, z1). */
  lemma OnConditionFirstMerge()
    ensures OnCondition(0, 1, 1) == "z0.rn0 = z1.rn1"
  {
    assert RnIndices(1) == [0];
    assert Num(0) == "0" && Num(1) == "1";
    assert OnEquality(0, 0, 1) == "z0.rn0 = z1.rn1";
    assert OnEqualities(0, [0], 1) == ["z0.rn0 = z1.rn1"];
  }

  /** The ON condition of the second merge at a level, (z2, z3): rn0 and rn1 of the merged pair. */
  lemma OnConditionSecondMerge()
    ensures OnCondition(2, 3, 3) == OnEquality(2, 0, 3) + " OR " + OnEquality(2, 1, 3)
  {
    assert RnIndices(3) == [0, 1];
    assert [0, 1][..1] == [0];
    assert OnEqualities(2, [0, 1], 3) == [OnEquality(2, 0, 3), OnEquality(2, 1, 3)];
  }

  // ---------------------------------------------------------------------
  // The clauses of one topological level
  // ---------------------------------------------------------------------

  function InfoNames(infos: seq<OrderTypeInformation>): (r: seq<string>)
    ensures |r| == |infos|
    ensures forall k :: 0 <= k < |infos| ==> r[k] == infos[k].origColName
  {
    if |infos| == 0 then [] else InfoNames(infos[..|infos| - 1]) + [infos[|infos| - 1].origColName]
  }

  function InfoDirections(infos: seq<OrderTypeInformation>): (r: seq<OrderDirection>)
    ensures |r| == |infos|
    ensures forall k :: 0 <= k < |infos| ==> r[k] == infos[k].direction
  {
    if |infos| == 0 then [] else InfoDirections(infos[..|infos| - 1]) + [infos[|infos| - 1].direction]
  }

  /** "P<level>.<col> AS ordKey<k>" */
  function SelectItem(level: nat, col: string, k: nat): string
  {
    "P" + Num(level) + "." + col + " AS ordKey" + Num(k)
  }

  function SelectItems(level: nat, cols: seq<string>): (r: seq<string>)
    ensures |r| == |cols|
    ensures forall k :: 0 <= k < |cols| ==> r[k] == SelectItem(level, cols[k], k)
  {
    if |cols| == 0 then [] else SelectItems(level, cols[..|cols| - 1]) + [SelectItem(level, cols[|cols| - 1], |cols| - 1)]
  }

  /**
   * The SELECT list of a level: every ordering column of the level's merged
   * query and then every candidate-key field, each as the next ordKey<k>,
   * followed by all of U.
   */
  function SelectClauseText(level: nat, infos: seq<OrderTypeInformation>, ckFields: seq<string>): string
  {
    "SELECT " + Join(SelectItems(level, InfoNames(infos) + ckFields), ", ") + ", U.* "
  }

  lemma SelectItemsStep(level: nat, cols: seq<string>, k: nat)
    requires k < |cols|
    ensures Join(SelectItems(level, cols[..k + 1]), ", ")
         == (if k == 0 then "" else Join(SelectItems(level, cols[..k]), ", ") + ", ") + SelectItem(level, cols[k], k)
  {
    assert cols[..k + 1][..k] == cols[..k];
    var items := SelectItems(level, cols[..k]);
    assert SelectItems(level, cols[..k + 1]) == items + [SelectItem(level, cols[k], k)];
    if k > 0 {
      JoinSnoc(items, SelectItem(level, cols[k], k), ", ");
    }
  }

  /** Continues the SELECT list with the items for cols[from..] (the candidate-key fields), numbering on from `from`. */
  method AppendSelectItems(level: nat, cols: seq<string>, from: nat, items: string) returns (r: string)
    requires from <= |cols| && items == Join(SelectItems(level, cols[..from]), ", ")
    ensures r == Join(SelectItems(level, cols), ", ")
  {
    r := items;
    var k := from;
    while k < |cols|
      invariant from <= k <= |cols|
      invariant r == Join(SelectItems(level, cols[..k]), ", ")
    {
      SelectItemsStep(level, cols, k);
      r := r + (if k == 0 then "" else ", ") + SelectItem(level, cols[k], k);
      k := k + 1;
    }
    assert cols[..k] == cols;
  }

  method AddSelectClause(infos: seq<OrderTypeInformation>, ckFields: seq<string>, level: nat)
    returns (text: string, keyCount: nat, dirs: seq<OrderDirection>)
    ensures text == SelectClauseText(level, infos, ckFields)
    ensures keyCount == |infos| + |ckFields|
    ensures dirs == InfoDirections(infos)
  {
    var cols := InfoNames(infos) + ckFields;
    var items := "";
    keyCount := 0;
    dirs := [];
    while keyCount < |infos|
      invariant 0 <= keyCount <= |infos|
      invariant items == Join(SelectItems(level, cols[..keyCount]), ", ")
      invariant dirs == InfoDirections(infos[..keyCount])
    {
      assert infos[..keyCount + 1][..keyCount] == infos[..keyCount];
      assert cols[keyCount] == infos[keyCount].origColName;
      SelectItemsStep(level, cols, keyCount);
      items := items + (if keyCount == 0 then "" else ", ") + SelectItem(level, infos[keyCount].origColName, keyCount);
      dirs := dirs + [infos[keyCount].direction];
      keyCount := keyCount + 1;
    }
    assert infos[..|infos|] == infos;
    items := AppendSelectItems(level, cols, |infos|, items);
    keyCount := |cols|;
    text := "SELECT " + items + ", U.* ";
  }

  /** "FROM ( <text> ) P<level>" */
  function PTableText(queryText: string, level: nat): string
  {
    "FROM ( " + queryText + " ) P" + Num(level)
  }

  function Repeat(s: string, n: nat): (r: string)
    ensures |r| == n * |s|
  {
    if n == 0 then "" else Repeat(s, n - 1) + s
  }

  function UNames(n: nat): (r: seq<string>)
    ensures |r| == n
    ensures forall i :: 0 <= i < n ==> r[i] == "u" + Num(i)
  {
    if n == 0 then [] else UNames(n - 1) + ["u" + Num(n - 1)]
  }

  /**
   * The union U of a level: the level's own row (type 0) padded with one NULL
   * per lower-level column, UNION ALL the lower levels' rows (type 1) padded
   * with one NULL per column of this level; U's columns are named
   * type<level>, u0, ..., u<total-1> with total = lower + this level's columns.
   */
  function UTableText(lowerText: string, lowerCols: nat, outerCols: nat, level: nat): string
  {
    "SELECT 0, P" + Num(level) + ".*" + Repeat(", NULL", lowerCols) + " FROM DTOneRow " + "UNION ALL "
    + "SELECT 1" + Repeat(", NULL", outerCols) + ", I" + Num(level) + ".* FROM ( " + lowerText + ") I" + Num(level)
    + ") U( " + UColumnList(level, lowerCols + outerCols)
  }

  method RepeatText(piece: string, n: nat) returns (r: string)
    ensures r == Repeat(piece, n)
  {
    r := "";
    var i := 0;
    while i < n
      invariant 0 <= i <= n && r == Repeat(piece, i)
    {
      r := r + piece;
      i := i + 1;
    }
  }

  /** "type<level>, u0, ..., u<n-1>": the column list of U. */
  function UColumnList(level: nat, n: nat): string
  {
    Join(["type" + Num(level)] + UNames(n), ", ")
  }

  lemma UColumnListStep(level: nat, i: nat)
    ensures UColumnList(level, i + 1) == UColumnList(level, i) + ", u" + Num(i)
  {
    var head := ["type" + Num(level)];
    assert head + UNames(i + 1) == (head + UNames(i)) + ["u" + Num(i)];
    JoinSnoc(head + UNames(i), "u" + Num(i), ", ");
  }

  method AddUTableClause(lowerText: string, lowerCols: nat, outerCols: nat, level: nat) returns (text: string, total: nat)
    ensures total == lowerCols + outerCols
    ensures text == UTableText(lowerText, lowerCols, outerCols, level)
  {
    var pad1 := RepeatText(", NULL", lowerCols);
    var pad2 := RepeatText(", NULL", outerCols);
    total := lowerCols + outerCols;
    var names := "type" + Num(level);
    var i := 0;
    while i < total
      invariant 0 <= i <= total
      invariant names == UColumnList(level, i)
    {
      UColumnListStep(level, i);
      names := names + ", u" + Num(i);
      i := i + 1;
    }
    text := "SELECT 0, P" + Num(level) + ".*" + pad1 + " FROM DTOneRow " + "UNION ALL "
      + "SELECT 1" + pad2 + ", I" + Num(level) + ".* FROM ( " + lowerText + ") I" + Num(level)
      + ") U( " + names;
  }

  /** The direction recorded for ordKey<k>: the k-th direction collected by the SELECT clause, if any. */
  function KeyDirection(k: nat, dirs: seq<OrderDirection>): OrderDirection
  {
    if k < |dirs| then dirs[k] else Default
  }

  /** "ordKey<k>" followed by " ASC" / " DESC" when that key has a direction. */
  function OrdKeyTerm(k: nat, dirs: seq<OrderDirection>): string
  {
    "ordKey" + Num(k) + DirectionSuffix(KeyDirection(k, dirs))
  }

  function OrdKeyTerms(n: nat, dirs: seq<OrderDirection>): (r: seq<string>)
    ensures |r| == n
    ensures forall k :: 0 <= k < n ==> r[k] == OrdKeyTerm(k, dirs)
  {
    if n == 0 then [] else OrdKeyTerms(n - 1, dirs) + [OrdKeyTerm(n - 1, dirs)]
  }

  /** The order infos a level contributes: ordKey0 .. ordKey<n-1>, then type<level> at position n. */
  function ThisLevelInfos(n: nat, dirs: seq<OrderDirection>, level: nat): seq<OrderTypeInformation>
  {
    KeyInfos(n, dirs) + [OrderTypeInformation(n, Default, "type" + Num(level))]
  }

  function KeyInfos(n: nat, dirs: seq<OrderDirection>): (r: seq<OrderTypeInformation>)
    ensures |r| == n
    ensures forall k :: 0 <= k < n ==> r[k] == OrderTypeInformation(k, KeyDirection(k, dirs), "ordKey" + Num(k))
  {
    if n == 0 then [] else KeyInfos(n - 1, dirs) + [OrderTypeInformation(n - 1, KeyDirection(n - 1, dirs), "ordKey" + Num(n - 1))]
  }

  /** Every info moved `offset` columns to the right; directions and names are kept. */
  function Shifted(infos: seq<OrderTypeInformation>, offset: nat): (r: seq<OrderTypeInformation>)
    ensures |r| == |infos|
    ensures forall i :: 0 <= i < |infos| ==>
      r[i] == OrderTypeInformation(infos[i].startPosition + offset, infos[i].direction, infos[i].origColName)
  {
    if |infos| == 0 then []
    else
      var last := infos[|infos| - 1];
      Shifted(infos[..|infos| - 1], offset) + [OrderTypeInformation(last.startPosition + offset, last.direction, last.origColName)]
  }

  /** ", u<p + outer>" plus the info's direction, for every lower-level info. */
  function LowerOrderTerms(infos: seq<OrderTypeInformation>, outer: nat): string
  {
    if |infos| == 0 then ""
    else
      var last := infos[|infos| - 1];
      LowerOrderTerms(infos[..|infos| - 1], outer) + ", u" + Num(last.startPosition + outer) + DirectionSuffix(last.direction)
  }

  function OrderByText(n: nat, dirs: seq<OrderDirection>, outer: nat, lower: seq<OrderTypeInformation>, level: nat): string
  {
    " ) ORDER BY " + Join(OrdKeyTerms(n, dirs), ", ") + ", type" + Num(level) + LowerOrderTerms(lower, outer)
  }

  lemma OrdKeyTermsStep(k: nat, dirs: seq<OrderDirection>)
    ensures Join(OrdKeyTerms(k + 1, dirs), ", ")
         == (if k == 0 then "" else Join(OrdKeyTerms(k, dirs), ", ") + ", ") + OrdKeyTerm(k, dirs)
  {
    if k > 0 {
      JoinSnoc(OrdKeyTerms(k, dirs), OrdKeyTerm(k, dirs), ", ");
    }
  }

  /**
   * The order infos a level passes up: this level's n keys and its type
   * column first, then every lower-level info shifted past this level's
   * keys, type column and outer columns.
   */
  function OrderInfos(n: nat, dirs: seq<OrderDirection>, outer: nat, lower: seq<OrderTypeInformation>, level: nat): seq<OrderTypeInformation>
  {
    ThisLevelInfos(n, dirs, level) + Shifted(lower, outer + n + 1)
  }

  /** Where the infos passed up by a level point: its own keys and type at 0..n, the lower ones shifted. */
  lemma OrderInfosPositions(n: nat, dirs: seq<OrderDirection>, outer: nat, lower: seq<OrderTypeInformation>, level: nat)
    ensures var r := OrderInfos(n, dirs, outer, lower, level);
      |r| == n + 1 + |lower|
      && (forall i :: 0 <= i <= n ==> r[i].startPosition == i)
      && (forall i :: n < i < |r| ==> r[i].startPosition == lower[i - n - 1].startPosition + outer + n + 1)
  {
  }

  /**
   * The ORDER BY of a level and the order infos it passes up: this level's
   * n keys and its type column first, then every lower-level info shifted
   * past this level's keys, type column and outer columns.
   */
  method AddOrderByInformation(n: nat, dirs: seq<OrderDirection>, outer: nat, lower: seq<OrderTypeInformation>, level: nat)
    returns (text: string, infos: seq<OrderTypeInformation>)
    ensures text == OrderByText(n, dirs, outer, lower, level)
    ensures infos == OrderInfos(n, dirs, outer, lower, level)
  {
    var keys, mine := OrdKeyClause(n, dirs);
    var terms, shifted := LowerOrderClause(lower, outer, outer + n + 1);
    text := " ) ORDER BY " + keys + ", type" + Num(level) + terms;
    infos := mine + [OrderTypeInformation(n, Default, "type" + Num(level))] + shifted;
  }

  /** This level's ordKey terms and the infos recording them. */
  method OrdKeyClause(n: nat, dirs: seq<OrderDirection>) returns (keys: string, mine: seq<OrderTypeInformation>)
    ensures keys == Join(OrdKeyTerms(n, dirs), ", ")
    ensures mine == KeyInfos(n, dirs)
  {
    keys := "";
    mine := [];
    var i := 0;
    while i < n
      invariant 0 <= i <= n
      invariant keys == Join(OrdKeyTerms(i, dirs), ", ")
      invariant mine == KeyInfos(i, dirs)
    {
      OrdKeyTermsStep(i, dirs);
      keys := keys + (if i == 0 then "" else ", ") + OrdKeyTerm(i, dirs);
      mine := mine + [OrderTypeInformation(i, KeyDirection(i, dirs), "ordKey" + Num(i))];
      i := i + 1;
    }
  }

  /** The lower levels' order terms, as u-columns past `outer`, and their infos shifted by `offset`. */
  method LowerOrderClause(lower: seq<OrderTypeInformation>, outer: nat, offset: nat)
    returns (terms: string, shifted: seq<OrderTypeInformation>)
    ensures terms == LowerOrderTerms(lower, outer)
    ensures shifted == Shifted(lower, offset)
  {
    terms := "";
    shifted := [];
    var j := 0;
    while j < |lower|
      invariant 0 <= j <= |lower|
      invariant terms == LowerOrderTerms(lower[..j], outer)
      invariant shifted == Shifted(lower[..j], offset)
    {
      assert lower[..j + 1][..j] == lower[..j];
      var info := lower[j];
      terms := terms + ", u" + Num(info.startPosition + outer) + DirectionSuffix(info.direction);
      shifted := shifted + [OrderTypeInformation(info.startPosition + offset, info.direction, info.origColName)];
      j := j + 1;
    }
    assert lower[..|lower|] == lower;
  }

  // ---------------------------------------------------------------------
  // Vectorising the levels
  // ---------------------------------------------------------------------

  /** What zipper-merging the queries of one topological level yields. */
  datatype ZipperMergeResult = ZipperMergeResult(text: string, infos: seq<OrderTypeInformation>, ckFields: seq<string>, numCols: nat)

  /** The vectorised query for a level and everything below it. */
  datatype LevelResult = LevelResult(text: string, numCols: nat, infos: seq<OrderTypeInformation>)

  /** The non-type metadata keys the plan records for a level (none for the bottom level). */
  function KeysAt(zs: seq<ZipperMergeResult>, level: nat): nat
    requires level < |zs|
  {
    if level == |zs| - 1 then 0 else |zs[level].infos| + |zs[level].ckFields|
  }

  /** The query text of a non-bottom level, over its zipper result z and the query for the levels below. */
  function LevelText(z: ZipperMergeResult, lowerText: string, lowerCols: nat, lowerInfos: seq<OrderTypeInformation>, level: nat): string
  {
    var n := |z.infos| + |z.ckFields|;
    LateralJoin(SelectClauseText(level, z.infos, z.ckFields), PTableText(z.text, level),
      UTableText(lowerText, lowerCols, z.numCols, level),
      OrderByText(n, InfoDirections(z.infos), z.numCols, lowerInfos, level))
  }

  /** "<select> FROM ( .. ) P<l>, LATERAL ( <U> ) ORDER BY ..": the clauses in the order the builder appends them. */
  function LateralJoin(select: string, pTable: string, uTable: string, orderBy: string): string
  {
    select + pTable + ", LATERAL ( " + uTable + orderBy
  }

  /** The order infos a non-bottom level passes up. */
  function LevelInfos(z: ZipperMergeResult, lowerInfos: seq<OrderTypeInformation>, level: nat): seq<OrderTypeInformation>
  {
    OrderInfos(|z.infos| + |z.ckFields|, InfoDirections(z.infos), z.numCols, lowerInfos, level)
  }

  /*
   * The query for level `level` and below, where zs[l] is the zipper merge
   * of the queries at level l and the last level is the bottom one: its
   * text, its column count and the order infos it passes up.
   */

  function VectorizedText(zs: seq<ZipperMergeResult>, level: nat): string
    requires level < |zs|
    decreases |zs| - level
  {
    if level == |zs| - 1 then zs[level].text
    else LevelText(zs[level], VectorizedText(zs, level + 1), VectorizedCols(zs, level + 1), VectorizedInfos(zs, level + 1), level)
  }

  function VectorizedCols(zs: seq<ZipperMergeResult>, level: nat): nat
    requires level < |zs|
    decreases |zs| - level
  {
    if level == |zs| - 1 then zs[level].numCols
    else VectorizedCols(zs, level + 1) + zs[level].numCols + |zs[level].infos| + |zs[level].ckFields| + 1
  }

  function VectorizedInfos(zs: seq<ZipperMergeResult>, level: nat): seq<OrderTypeInformation>
    requires level < |zs|
    decreases |zs| - level
  {
    if level == |zs| - 1 then zs[level].infos
    else LevelInfos(zs[level], VectorizedInfos(zs, level + 1), level)
  }

  function Vectorized(zs: seq<ZipperMergeResult>, level: nat): LevelResult
    requires level < |zs|
  {
    LevelResult(VectorizedText(zs, level), VectorizedCols(zs, level), VectorizedInfos(zs, level))
  }

  /** The SELECT, P, U and ORDER BY clauses of non-bottom level `level` around the already vectorised lower levels. */
  method LateralUnionLevel(z: ZipperMergeResult, level: nat, lower: LevelResult) returns (r: LevelResult)
    ensures r.text == LevelText(z, lower.text, lower.numCols, lower.infos, level)
    ensures r.numCols == lower.numCols + z.numCols + |z.infos| + |z.ckFields| + 1
    ensures r.infos == LevelInfos(z, lower.infos, level)
  {
    var select, n, dirs := AddSelectClause(z.infos, z.ckFields, level);
    var u, total := AddUTableClause(lower.text, lower.numCols, z.numCols, level);
    var orderBy, infos := AddOrderByInformation(n, dirs, z.numCols, lower.infos, level);
    assert n == |z.infos| + |z.ckFields| && dirs == InfoDirections(z.infos);
    r := LevelResult(LateralJoin(select, PTableText(z.text, level), u, orderBy), total + n + 1, infos);
  }

  /** The column counts the plan records for levels level, level+1, ... */
  function PlanCols(zs: seq<ZipperMergeResult>, level: nat): (r: seq<nat>)
    requires level < |zs|
    ensures |r| == |zs| - level
    decreases |zs| - level
  {
    if level == |zs| - 1 then [zs[level].numCols] else [zs[level].numCols] + PlanCols(zs, level + 1)
  }

  /** The non-type key counts the plan records for levels level, level+1, ... */
  function PlanKeys(zs: seq<ZipperMergeResult>, level: nat): (r: seq<nat>)
    requires level < |zs|
    ensures |r| == |zs| - level
    decreases |zs| - level
  {
    if level == |zs| - 1 then [0] else [KeysAt(zs, level)] + PlanKeys(zs, level + 1)
  }

  /** The plan holds, for every level from `level` on, that level's column count and key count. */
  lemma {:induction false} PlanEntries(zs: seq<ZipperMergeResult>, level: nat)
    requires level < |zs|
    ensures forall j :: 0 <= j < |zs| - level ==>
      PlanCols(zs, level)[j] == zs[level + j].numCols && PlanKeys(zs, level)[j] == KeysAt(zs, level + j)
    decreases |zs| - level
  {
    if level < |zs| - 1 {
      PlanEntries(zs, level + 1);
    }
  }

  /**
   * Builds the query for `level` and below, recursing into the lower levels
   * first, and returns the per-level column and key counts recorded in the
   * plan for levels level, level+1, ...
   */
  method VectorizeLevel(zs: seq<ZipperMergeResult>, level: nat) returns (r: LevelResult, cols: seq<nat>, keys: seq<nat>)
    requires level < |zs|
    ensures r == Vectorized(zs, level)
    ensures cols == PlanCols(zs, level) && keys == PlanKeys(zs, level)
    decreases |zs| - level
  {
    if level == |zs| - 1 {
      r := BottomLevel(zs);
      cols, keys := PlanRow(zs, level, [], []);
      return;
    }
    var lower, lowerCols, lowerKeys := VectorizeLevel(zs, level + 1);
    r := LateralUnionLevel(zs[level], level, lower);
    cols, keys := PlanRow(zs, level, lowerCols, lowerKeys);
  }

  /** Records a level's column count and key count in front of those of the levels below it. */
  method PlanRow(zs: seq<ZipperMergeResult>, level: nat, lowerCols: seq<nat>, lowerKeys: seq<nat>) returns (cols: seq<nat>, keys: seq<nat>)
    requires level < |zs|
    requires level < |zs| - 1 ==> lowerCols == PlanCols(zs, level + 1) && lowerKeys == PlanKeys(zs, level + 1)
    ensures cols == PlanCols(zs, level) && keys == PlanKeys(zs, level)
  {
    var z := zs[level];
    if level == |zs| - 1 {
      cols := [z.numCols];
      keys := [0];
    } else {
      cols := [z.numCols] + lowerCols;
      keys := [|z.infos| + |z.ckFields|] + lowerKeys;
    }
  }

  /** The bottom level is its zipper-merged text as it is, with no keys of its own. */
  method BottomLevel(zs: seq<ZipperMergeResult>) returns (r: LevelResult)
    requires |zs| > 0
    ensures r == Vectorized(zs, |zs| - 1)
  {
    var z := zs[|zs| - 1];
    r := LevelResult(z.text, z.numCols, z.infos);
  }

  /** A column of the vectorised result set. */
  datatype Column = OrdKey(level: nat, k: nat) | TypeCol(level: nat) | QueryCol(level: nat, j: nat)

  function OrdKeyCols(level: nat, n: nat): (r: seq<Column>)
    ensures |r| == n && forall k :: 0 <= k < n ==> r[k] == OrdKey(level, k)
  {
    if n == 0 then [] else OrdKeyCols(level, n - 1) + [OrdKey(level, n - 1)]
  }

  function QueryCols(level: nat, n: nat): (r: seq<Column>)
    ensures |r| == n && forall j :: 0 <= j < n ==> r[j] == QueryCol(level, j)
  {
    if n == 0 then [] else QueryCols(level, n - 1) + [QueryCol(level, n - 1)]
  }

  /**
   * The columns of the query for `level` and below, as the SELECT list
   * lays them out: the level's ordKeys, its type, then U, which is this
   * level's own columns followed by the lower levels' columns.
   */
  function Layout(zs: seq<ZipperMergeResult>, level: nat): seq<Column>
    requires level < |zs|
    decreases |zs| - level
  {
    if level == |zs| - 1 then QueryCols(level, zs[level].numCols)
    else LevelHead(zs, level) + Layout(zs, level + 1)
  }

  /** The column count reported for a level is the width of its layout. */
  lemma {:induction false} LayoutWidth(zs: seq<ZipperMergeResult>, level: nat)
    requires level < |zs|
    ensures |Layout(zs, level)| == VectorizedCols(zs, level)
    decreases |zs| - level
  {
    if level < |zs| - 1 {
      LayoutWidth(zs, level + 1);
    }
  }

  /** A column a vectorised query may be ordered by: a metadata key, a type column, or a bottom-level column. */
  predicate SortColumn(zs: seq<ZipperMergeResult>, c: Column)
  {
    c.OrdKey? || c.TypeCol? || c.level == |zs| - 1
  }

  predicate WellPositioned(z: ZipperMergeResult)
  {
    forall i :: 0 <= i < |z.infos| ==> z.infos[i].startPosition < z.numCols
  }

  /** The columns at the front of a level's layout: its ordKeys, its type column and its own query columns. */
  function LevelHead(zs: seq<ZipperMergeResult>, level: nat): (r: seq<Column>)
    requires level < |zs|
    ensures |r| == KeysAt(zs, level) + 1 + zs[level].numCols
    ensures forall k :: 0 <= k <= KeysAt(zs, level) ==> r[k].OrdKey? || r[k].TypeCol?
  {
    OrdKeyCols(level, KeysAt(zs, level)) + [TypeCol(level)] + QueryCols(level, zs[level].numCols)
  }

  lemma LayoutStep(zs: seq<ZipperMergeResult>, level: nat)
    requires level < |zs| - 1
    ensures Layout(zs, level) == LevelHead(zs, level) + Layout(zs, level + 1)
  {
  }

  /** Every order position of the level points inside its layout, at a column the level may be sorted by. */
  ghost predicate PositionsInLayout(zs: seq<ZipperMergeResult>, level: nat)
    requires level < |zs|
  {
    forall i :: 0 <= i < |VectorizedInfos(zs, level)| ==>
      VectorizedInfos(zs, level)[i].startPosition < |Layout(zs, level)|
      && SortColumn(zs, Layout(zs, level)[VectorizedInfos(zs, level)[i].startPosition])
  }

  /**
   * Every order position passed up from a level, after all the shifting,
   * points inside the level's layout at a metadata column or at a column of
   * the bottom query, never at an intermediate level's data.
   */
  lemma {:induction false} OrderPositionsInLayout(zs: seq<ZipperMergeResult>, level: nat)
    requires level < |zs|
    requires WellPositioned(zs[|zs| - 1])
    ensures PositionsInLayout(zs, level)
    decreases |zs| - level
  {
    if level < |zs| - 1 {
      OrderPositionsInLayout(zs, level + 1);
      forall i | 0 <= i < |VectorizedInfos(zs, level)|
        ensures VectorizedInfos(zs, level)[i].startPosition < |Layout(zs, level)|
          && SortColumn(zs, Layout(zs, level)[VectorizedInfos(zs, level)[i].startPosition])
      {
        OrderPositionAt(zs, level, i);
      }
    }
  }

  /** One step of the induction: the i-th order position of a level above the bottom, given the claim for the level below. */
  lemma OrderPositionAt(zs: seq<ZipperMergeResult>, level: nat, i: nat)
    requires level < |zs| - 1
    requires PositionsInLayout(zs, level + 1)
    requires i < |VectorizedInfos(zs, level)|
    ensures VectorizedInfos(zs, level)[i].startPosition < |Layout(zs, level)|
      && SortColumn(zs, Layout(zs, level)[VectorizedInfos(zs, level)[i].startPosition])
  {
    LayoutWidth(zs, level + 1);
    LayoutStep(zs, level);
    var z := zs[level];
    var n := |z.infos| + |z.ckFields|;
    var lower := VectorizedInfos(zs, level + 1);
    var infos := OrderInfos(n, InfoDirections(z.infos), z.numCols, lower, level);
    assert VectorizedInfos(zs, level) == infos;
    OrderInfosPositions(n, InfoDirections(z.infos), z.numCols, lower, level);
    var head := LevelHead(zs, level);
    if i > n {
      var p := lower[i - n - 1].startPosition;
      assert infos[i].startPosition == p + |head|;
      assert Layout(zs, level)[p + |head|] == Layout(zs, level + 1)[p];
    }
  }

  /**
   * Where the columns of a level start among the u-columns of the top
   * query, counted the way the row decoder counts them: level 0's own
   * columns, then for each level l in between its keys, its type and its
   * columns.
   */
  function UBase(cols: seq<nat>, keys: seq<nat>, level: nat): nat
    requires level <= |cols| && level <= |keys|
  {
    if level == 0 then 0
    else UBase(cols, keys, level - 1) + (if level - 1 > 0 then keys[level - 1] + 1 else 0) + cols[level - 1]
  }

  /** Level l >= 1 starts UBase(l) columns after the first u-column of the top query. */
  lemma {:induction false} LayoutSuffix(zs: seq<ZipperMergeResult>, level: nat)
    requires 1 <= level < |zs|
    ensures KeysAt(zs, 0) + 1 + UBase(PlanCols(zs, 0), PlanKeys(zs, 0), level) <= |Layout(zs, 0)|
    ensures Layout(zs, 0)[KeysAt(zs, 0) + 1 + UBase(PlanCols(zs, 0), PlanKeys(zs, 0), level)..] == Layout(zs, level)
  {
    var cols, keys := PlanCols(zs, 0), PlanKeys(zs, 0);
    PlanEntries(zs, 0);
    if level == 1 {
      LayoutStep(zs, 0);
      assert UBase(cols, keys, 1) == zs[0].numCols;
      assert Layout(zs, 0)[|LevelHead(zs, 0)|..] == Layout(zs, 1);
    } else {
      var l := level - 1;
      LayoutSuffix(zs, l);
      LayoutStep(zs, l);
      var head := LevelHead(zs, l);
      var start := KeysAt(zs, 0) + 1 + UBase(cols, keys, l);
      assert UBase(cols, keys, level) == UBase(cols, keys, l) + |head|;
      assert Layout(zs, 0)[start..][|head|..] == Layout(zs, level);
      assert Layout(zs, 0)[start + |head|..] == Layout(zs, 0)[start..][|head|..];
    }
  }

  /**
   * The u-column the row decoder reads as level L's type field
   * (u<UBase(L) + keys[L]>) is the type column the SELECT list of level L put
   * there; at the bottom level UBase is where the bottom query's columns begin.
   */
  lemma TypeFieldIsTypeColumn(zs: seq<ZipperMergeResult>, level: nat)
    requires 1 <= level < |zs|
    ensures var i := KeysAt(zs, 0) + 1 + UBase(PlanCols(zs, 0), PlanKeys(zs, 0), level);
      if level < |zs| - 1 then
        i + KeysAt(zs, level) < |Layout(zs, 0)| && Layout(zs, 0)[i + KeysAt(zs, level)] == TypeCol(level)
      else
        i <= |Layout(zs, 0)| && Layout(zs, 0)[i..] == QueryCols(level, zs[level].numCols)
  {
    LayoutSuffix(zs, level);
    var i := KeysAt(zs, 0) + 1 + UBase(PlanCols(zs, 0), PlanKeys(zs, 0), level);
    if level < |zs| - 1 {
      assert Layout(zs, level)[KeysAt(zs, level)] == TypeCol(level);
      assert Layout(zs, 0)[i + KeysAt(zs, level)] == Layout(zs, 0)[i..][KeysAt(zs, level)];
    }
  }

  // ---------------------------------------------------------------------
  // Splitting the combined result set
  // ---------------------------------------------------------------------

  /** A result row: column name to value; an absent name is a NULL field. */
  type Row = map<string, int>

  datatype RowLevel = RowLevel(level: nat, baseUOffset: nat)

  /** The field holding level l's type: "type0" for level 0, otherwise u<UBase(l) + keys[l]>. */
  function TypeField(cols: seq<nat>, keys: seq<nat>, l: nat): string
    requires l < |cols| && l < |keys|
  {
    if l == 0 then "type0" else "u" + Num(UBase(cols, keys, l) + keys[l])
  }

  /** Whether the decoder looks at level l's type field: always for level 0, and for the levels above the bottom. */
  predicate Inspected(l: nat, maxDepth: nat)
  {
    l == 0 || l < maxDepth
  }

  /**
   * The level a row belongs to is the first inspected level whose type field
   * is 0, or the bottom level when there is none; its base u-offset is UBase
   * of that level. A missing (NULL) type field that the decoder reads is a
   * NullPointerException, modelled as None.
   */
  method DetermineWhichLevelIsInChargeOfRow(row: Row, cols: seq<nat>, keys: seq<nat>, maxDepth: nat) returns (r: Option<RowLevel>)
    requires maxDepth < |cols| && maxDepth < |keys|
    ensures r.Some? ==> r.value.level <= maxDepth && r.value.baseUOffset == UBase(cols, keys, r.value.level)
    ensures r.Some? ==> forall l :: 0 <= l < r.value.level ==>
      TypeField(cols, keys, l) in row && row[TypeField(cols, keys, l)] != 0
    ensures r.Some? && Inspected(r.value.level, maxDepth) ==> TypeField(cols, keys, r.value.level) in row
    ensures r.Some? && r.value.level < maxDepth ==> row[TypeField(cols, keys, r.value.level)] == 0
    ensures r.Some? && r.value.level == 0 < maxDepth ==> row["type0"] == 0
    ensures r.None? ==> exists l :: (0 <= l <= maxDepth && Inspected(l, maxDepth) && TypeField(cols, keys, l) !in row
      && forall l' :: 0 <= l' < l ==> TypeField(cols, keys, l') in row && row[TypeField(cols, keys, l')] != 0)
  {
    if "type0" !in row {
      assert TypeField(cols, keys, 0) !in row;
      return None;
    }
    if row["type0"] == 0 {
      return Some(RowLevel(0, 0));
    }
    var base := 0;
    var level := 0;
    while level < maxDepth
      invariant 0 <= level <= maxDepth
      invariant base == UBase(cols, keys, level)
      invariant forall l :: 0 <= l < level ==> TypeField(cols, keys, l) in row && row[TypeField(cols, keys, l)] != 0
      invariant level == 0 ==> TypeField(cols, keys, 0) in row && row[TypeField(cols, keys, 0)] != 0
    {
      var k := keys[level];
      if level > 0 {
        var field := "u" + Num(base + k);
        assert field == TypeField(cols, keys, level);
        if field !in row {
          return None;
        }
        if row[field] == 0 {
          return Some(RowLevel(level, base));
        }
        base := base + k + 1;
      }
      base := base + cols[level];
      level := level + 1;
    }
    return Some(RowLevel(maxDepth, base));
  }

  /** A combined row decoded: the level it belongs to and, per query index, that query's part of the row. */
  datatype DecodedRow<R> = DecodedRow(level: nat, parts: map<nat, R>)

  /** The parts of the rows that belong to query q, in row order. */
  function Project<R>(rows: seq<R>, decode: R -> DecodedRow<R>, q: nat): (r: seq<R>)
    ensures |r| <= |rows|
  {
    if |rows| == 0 then []
    else
      var d := decode(rows[|rows| - 1]);
      Project(rows[..|rows| - 1], decode, q) + (if q in d.parts then [d.parts[q]] else [])
  }

  /**
   * How many times a query at level ql has its ongoing result set closed:
   * once for every row whose level is at most the previous row's level and
   * below ql, when ql is within the plan's height.
   */
  function Flushes<R>(rows: seq<R>, decode: R -> DecodedRow<R>, ql: nat, maxHeight: nat): (r: nat)
    ensures |rows| > 0 ==> r < |rows|
  {
    if |rows| <= 1 then 0
    else
      var prev := decode(rows[|rows| - 2]).level;
      var cur := decode(rows[|rows| - 1]).level;
      Flushes(rows[..|rows| - 1], decode, ql, maxHeight) + (if prev >= cur && cur < ql <= maxHeight then 1 else 0)
  }

  /** Closes the ongoing result set of every query whose level is above rowLevel and at most maxHeight. */
  method FlushAbove<R>(done: seq<seq<seq<R>>>, ongoing: seq<seq<R>>, queryLevels: seq<nat>, rowLevel: nat, maxHeight: nat)
    returns (done': seq<seq<seq<R>>>, ongoing': seq<seq<R>>)
    requires |done| == |ongoing| == |queryLevels|
    ensures |done'| == |ongoing'| == |queryLevels|
    ensures forall q :: 0 <= q < |queryLevels| ==>
      if rowLevel < queryLevels[q] <= maxHeight then done'[q] == done[q] + [ongoing[q]] && ongoing'[q] == []
      else done'[q] == done[q] && ongoing'[q] == ongoing[q]
  {
    done', ongoing' := done, ongoing;
    var q := 0;
    while q < |queryLevels|
      invariant 0 <= q <= |queryLevels|
      invariant |done'| == |ongoing'| == |queryLevels|
      invariant forall p :: 0 <= p < q ==>
        if rowLevel < queryLevels[p] <= maxHeight then done'[p] == done[p] + [ongoing[p]] && ongoing'[p] == []
        else done'[p] == done[p] && ongoing'[p] == ongoing[p]
      invariant forall p :: q <= p < |queryLevels| ==> done'[p] == done[p] && ongoing'[p] == ongoing[p]
    {
      if rowLevel < queryLevels[q] <= maxHeight {
        done' := done'[q := done'[q] + [ongoing'[q]]];
        ongoing' := ongoing'[q := []];
      }
      q := q + 1;
    }
  }

  /** Appends each query's part of a decoded row to that query's ongoing result set. */
  method AddParts<R>(ongoing: seq<seq<R>>, parts: map<nat, R>) returns (ongoing': seq<seq<R>>)
    ensures |ongoing'| == |ongoing|
    ensures forall q :: 0 <= q < |ongoing| ==> ongoing'[q] == ongoing[q] + (if q in parts then [parts[q]] else [])
  {
    ongoing' := ongoing;
    var q := 0;
    while q < |ongoing|
      invariant 0 <= q <= |ongoing|
      invariant |ongoing'| == |ongoing|
      invariant forall p :: 0 <= p < q ==> ongoing'[p] == ongoing[p] + (if p in parts then [parts[p]] else [])
      invariant forall p :: q <= p < |ongoing| ==> ongoing'[p] == ongoing[p]
    {
      if q in parts {
        ongoing' := ongoing'[q := ongoing'[q] + [parts[q]]];
      }
      q := q + 1;
    }
  }

  /** Whether the last row closes the ongoing result set of a query at level ql: its level is at most the previous row's and below ql, within the plan's height. */
  predicate ClosesAtEnd<R>(rows: seq<R>, decode: R -> DecodedRow<R>, ql: nat, maxHeight: nat)
  {
    |rows| > 1 && decode(rows[|rows| - 2]).level >= decode(rows[|rows| - 1]).level
    && decode(rows[|rows| - 1]).level < ql <= maxHeight
  }

  /**
   * The result sets of query q at level ql, as a reference: one set to
   * begin with; a row that closes the current set opens a new one; each
   * row's part for q joins the current set.
   */
  function SplitSets<R>(rows: seq<R>, decode: R -> DecodedRow<R>, q: nat, ql: nat, maxHeight: nat): (sets: seq<seq<R>>)
    ensures |sets| >= 1
  {
    if |rows| == 0 then [[]]
    else
      var d := decode(rows[|rows| - 1]);
      var before := SplitSets(rows[..|rows| - 1], decode, q, ql, maxHeight);
      var grown := if ClosesAtEnd(rows, decode, ql, maxHeight) then before + [[]] else before;
      grown[..|grown| - 1] + [grown[|grown| - 1] + (if q in d.parts then [d.parts[q]] else [])]
  }

  /** Extending the last set extends the sets laid end to end. */
  lemma {:induction false} FlattenExtendLast<R>(sets: seq<seq<R>>, part: seq<R>)
    requires |sets| > 0
    ensures Flatten(sets[..|sets| - 1] + [sets[|sets| - 1] + part]) == Flatten(sets) + part
  {
    var front := sets[..|sets| - 1];
    var last := sets[|sets| - 1];
    assert Flatten(sets) == Flatten(front) + last;
    FlattenSnoc(front, last + part);
    assert Flatten(front) + (last + part) == (Flatten(front) + last) + part;
  }

  /** The sets laid end to end are the query's parts of the rows, in order. */
  lemma {:induction false} SplitSetsFlatten<R>(rows: seq<R>, decode: R -> DecodedRow<R>, q: nat, ql: nat, maxHeight: nat)
    ensures Flatten(SplitSets(rows, decode, q, ql, maxHeight)) == Project(rows, decode, q)
    decreases |rows|
  {
    if |rows| == 0 {
      var none: seq<seq<R>> := [];
      FlattenSnoc(none, []);
      assert none + [[]] == SplitSets(rows, decode, q, ql, maxHeight);
    } else {
      var init := rows[..|rows| - 1];
      var d := decode(rows[|rows| - 1]);
      var part := if q in d.parts then [d.parts[q]] else [];
      var before := SplitSets(init, decode, q, ql, maxHeight);
      SplitSetsFlatten(init, decode, q, ql, maxHeight);
      var grown := if ClosesAtEnd(rows, decode, ql, maxHeight) then before + [[]] else before;
      assert Flatten(grown) == Flatten(before) by {
        if ClosesAtEnd(rows, decode, ql, maxHeight) {
          FlattenSnoc(before, []);
          assert Flatten(before) + [] == Flatten(before);
        }
      }
      FlattenExtendLast(grown, part);
      assert SplitSets(rows, decode, q, ql, maxHeight) == grown[..|grown| - 1] + [grown[|grown| - 1] + part];
      assert Project(rows, decode, q) == Project(init, decode, q) + part;
    }
  }

  /** There is one more set than there are rows closing one. */
  lemma {:induction false} SplitSetsCount<R>(rows: seq<R>, decode: R -> DecodedRow<R>, q: nat, ql: nat, maxHeight: nat)
    ensures |SplitSets(rows, decode, q, ql, maxHeight)| == 1 + Flushes(rows, decode, ql, maxHeight)
    decreases |rows|
  {
    if |rows| > 0 {
      var init := rows[..|rows| - 1];
      SplitSetsCount(init, decode, q, ql, maxHeight);
      if |rows| > 1 {
        assert init[|init| - 1] == rows[|rows| - 2];
      }
    }
  }

  /** The split state after the rows before i: every query's closed sets followed by its ongoing one are its reference sets so far. */
  ghost predicate SplitState<R>(rows: seq<R>, decode: R -> DecodedRow<R>, i: nat, queryLevels: seq<nat>, maxHeight: nat,
                          done: seq<seq<seq<R>>>, ongoing: seq<seq<R>>)
    requires i <= |rows|
  {
    |done| == |ongoing| == |queryLevels|
    && (forall q :: 0 <= q < |queryLevels| ==> done[q] + [ongoing[q]] == SplitSets(rows[..i], decode, q, queryLevels[q], maxHeight))
  }

  /** One row of the split: close the sets above the row's level when it does not go deeper, then add its parts. */
  method SplitRow<R>(rows: seq<R>, decode: R -> DecodedRow<R>, i: nat, queryLevels: seq<nat>, maxHeight: nat,
                     done: seq<seq<seq<R>>>, ongoing: seq<seq<R>>, lastRowLevel: int)
    returns (done': seq<seq<seq<R>>>, ongoing': seq<seq<R>>)
    requires i < |rows|
    requires lastRowLevel == if i == 0 then -1 else decode(rows[i - 1]).level
    requires SplitState(rows, decode, i, queryLevels, maxHeight, done, ongoing)
    ensures SplitState(rows, decode, i + 1, queryLevels, maxHeight, done', ongoing')
  {
    var d := decode(rows[i]);
    done', ongoing' := done, ongoing;
    if lastRowLevel >= d.level {
      done', ongoing' := FlushAbove(done, ongoing, queryLevels, d.level, maxHeight);
    }
    var flushed := ongoing';
    ongoing' := AddParts(ongoing', d.parts);
    assert rows[..i + 1][..i] == rows[..i];
    forall q | 0 <= q < |queryLevels|
      ensures done'[q] + [ongoing'[q]] == SplitSets(rows[..i + 1], decode, q, queryLevels[q], maxHeight)
    {
      var prefix := rows[..i + 1];
      assert prefix[|prefix| - 1] == rows[i];
      if i > 0 {
        assert prefix[|prefix| - 2] == rows[i - 1];
      }
      var part := if q in d.parts then [d.parts[q]] else [];
      if ClosesAtEnd(prefix, decode, queryLevels[q], maxHeight) {
        var grown := (done[q] + [ongoing[q]]) + [[]];
        assert grown[..|grown| - 1] == done'[q] && grown[|grown| - 1] == [];
        assert flushed[q] == [];
      } else {
        var grown := done[q] + [ongoing[q]];
        assert grown[..|grown| - 1] == done'[q] && grown[|grown| - 1] == flushed[q];
      }
    }
  }

  /**
   * Splits a combined result set into one list of result sets per query
   * (queries indexed by their position in the plan's order, queryLevels[q]
   * being query q's level). A single-query plan gets the combined rows
   * back unchanged. Otherwise every query receives, in order, exactly the
   * parts of the rows that belong to it, cut into one more result set than
   * the number of times a row at a lower level closed its ongoing one.
   */
  method SplitApartResultSet<R>(rows: seq<R>, decode: R -> DecodedRow<R>, queryLevels: seq<nat>, maxHeight: nat)
    returns (result: seq<seq<seq<R>>>)
    ensures |result| == |queryLevels|
    ensures |queryLevels| == 1 ==> result == [[rows]]
    ensures |queryLevels| != 1 ==> forall q :: 0 <= q < |queryLevels| ==>
      result[q] == SplitSets(rows, decode, q, queryLevels[q], maxHeight)
      && Flatten(result[q]) == Project(rows, decode, q)
      && |result[q]| == 1 + Flushes(rows, decode, queryLevels[q], maxHeight)
  {
    var n := |queryLevels|;
    if n == 1 {
      return [[rows]];
    }
    var done: seq<seq<seq<R>>> := seq(n, _ => []);
    var ongoing: seq<seq<R>> := seq(n, _ => []);
    assert rows[..0] == [];
    assert SplitState(rows, decode, 0, queryLevels, maxHeight, done, ongoing);
    var lastRowLevel: int := -1;
    var i := 0;
    while i < |rows|
      invariant 0 <= i <= |rows|
      invariant lastRowLevel == if i == 0 then -1 else decode(rows[i - 1]).level
      invariant SplitState(rows, decode, i, queryLevels, maxHeight, done, ongoing)
    {
      done, ongoing := SplitRow(rows, decode, i, queryLevels, maxHeight, done, ongoing, lastRowLevel);
      lastRowLevel := decode(rows[i]).level;
      i := i + 1;
    }
    assert rows[..i] == rows;
    result := CloseAll(done, ongoing);
    forall q | 0 <= q < n
      ensures Flatten(result[q]) == Project(rows, decode, q)
      ensures |result[q]| == 1 + Flushes(rows, decode, queryLevels[q], maxHeight)
    {
      SplitSetsFlatten(rows, decode, q, queryLevels[q], maxHeight);
      SplitSetsCount(rows, decode, q, queryLevels[q], maxHeight);
    }
  }

  /** The final flush: every query's ongoing result set is closed. */
  method CloseAll<R>(done: seq<seq<seq<R>>>, ongoing: seq<seq<R>>) returns (result: seq<seq<seq<R>>>)
    requires |done| == |ongoing|
    ensures |result| == |done|
    ensures forall q :: 0 <= q < |done| ==> result[q] == done[q] + [ongoing[q]]
    ensures forall q :: 0 <= q < |done| ==> Flatten(result[q]) == Flatten(done[q]) + ongoing[q]
  {
    result := [];
    var q := 0;
    while q < |done|
      invariant 0 <= q <= |done|
      invariant |result| == q
      invariant forall p :: 0 <= p < q ==> result[p] == done[p] + [ongoing[p]]
    {
      result := result + [done[q] + [ongoing[q]]];
      q := q + 1;
    }
    forall p | 0 <= p < |done|
      ensures Flatten(result[p]) == Flatten(done[p]) + ongoing[p]
    {
      assert result[p][..|result[p]| - 1] == done[p];
    }
  }

  // ---------------------------------------------------------------------
  // Zipper merging the queries of one level
  // ---------------------------------------------------------------------

  /**
   * What the merge needs of one query: its text (the dependency graph's base
   * text when there is one), its select list, its aliases by position and
   * positions by alias, its ORDER BY conditions, how many constants it has
   * and how many columns it returns (a database lookup in the original).
   */
  datatype QueryShell = QueryShell(text: string, selectedCols: seq<string>, positionAliases: map<nat, string>,
                                   aliasPositions: map<string, nat>, orderBy: seq<string>, numConstants: nat, numCols: nat)

  /** The aliases kept for `key`: those of the first entry with that key, none when there is no such entry. */
  function Lookup(m: AliasMap, key: string): seq<string>
  {
    if |m| == 0 then [] else if m[0].0 == key then m[0].1 else Lookup(m[1..], key)
  }

  /** Appends alias `a` to the list kept for `key`; a new key is added at the end. */
  function AddAlias(m: AliasMap, key: string, a: string): (r: AliasMap)
    ensures Lookup(r, key) == Lookup(m, key) + [a]
    ensures forall k :: k != key ==> Lookup(r, k) == Lookup(m, k)
  {
    if |m| == 0 then [(key, [a])]
    else if m[0].0 == key then [(key, m[0].1 + [a])] + m[1..]
    else [m[0]] + AddAlias(m[1..], key, a)
  }

  /** The aliases given, in select-list order, to the selected columns named `key`. */
  function AliasesFor(cols: seq<string>, aliases: map<nat, string>, key: string): seq<string>
  {
    if |cols| == 0 then []
    else
      var last := if cols[|cols| - 1] == key && |cols| - 1 in aliases then [aliases[|cols| - 1]] else [];
      AliasesFor(cols[..|cols| - 1], aliases, key) + last
  }

  /** Each selected column name with the aliases given to it. */
  function ColumnAliasesMap(cols: seq<string>, aliases: map<nat, string>): AliasMap
  {
    if |cols| == 0 then []
    else
      var m := ColumnAliasesMap(cols[..|cols| - 1], aliases);
      if |cols| - 1 in aliases then AddAlias(m, cols[|cols| - 1], aliases[|cols| - 1]) else m
  }

  lemma {:induction false} ColumnAliasesMapLookup(cols: seq<string>, aliases: map<nat, string>, key: string)
    ensures Lookup(ColumnAliasesMap(cols, aliases), key) == AliasesFor(cols, aliases, key)
  {
    if |cols| > 0 {
      ColumnAliasesMapLookup(cols[..|cols| - 1], aliases, key);
    }
  }

  /** Selected column name to the list of its aliases; every name lists exactly the aliases given to it, in order. */
  method BuildColumnAliasesMap(cols: seq<string>, aliases: map<nat, string>) returns (m: AliasMap)
    ensures m == ColumnAliasesMap(cols, aliases)
    ensures forall key :: Lookup(m, key) == AliasesFor(cols, aliases, key)
  {
    m := [];
    var i := 0;
    while i < |cols|
      invariant 0 <= i <= |cols|
      invariant m == ColumnAliasesMap(cols[..i], aliases)
    {
      assert cols[..i + 1][..i] == cols[..i];
      if i in aliases {
        m := AddAlias(m, cols[i], aliases[i]);
      }
      i := i + 1;
    }
    assert cols[..i] == cols;
    forall key
      ensures Lookup(m, key) == AliasesFor(cols, aliases, key)
    {
      ColumnAliasesMapLookup(cols, aliases, key);
    }
  }

  /** Column c sits at position p: the first select-list entry equal to c, or else the position recorded for the alias c. */
  predicate FoundAt(q: QueryShell, c: string, p: nat)
  {
    (p < |q.selectedCols| && q.selectedCols[p] == c && c !in q.selectedCols[..p])
    || (c !in q.selectedCols && c in q.aliasPositions && q.aliasPositions[c] == p)
  }

  predicate NotSelected(q: QueryShell, c: string)
  {
    c !in q.selectedCols && c !in q.aliasPositions
  }

  /** The position of column c in the query's output; None stands for the original's -1. */
  method SelectedColsContains(q: QueryShell, c: string) returns (r: Option<nat>)
    ensures r.Some? ==> FoundAt(q, c, r.value)
    ensures r.None? <==> NotSelected(q, c)
  {
    var i := 0;
    while i < |q.selectedCols|
      invariant 0 <= i <= |q.selectedCols|
      invariant c !in q.selectedCols[..i]
    {
      if q.selectedCols[i] == c {
        return Some(i);
      }
      assert q.selectedCols[..i + 1] == q.selectedCols[..i] + [q.selectedCols[i]];
      i := i + 1;
    }
    assert q.selectedCols[..i] == q.selectedCols;
    if c in q.aliasPositions {
      return Some(q.aliasPositions[c]);
    }
    return None;
  }

  /** The column of every ORDER BY condition, in order. */
  function OrderColumns(conds: seq<string>): (r: seq<string>)
    ensures |r| == |conds|
  {
    if |conds| == 0 then [] else OrderColumns(conds[..|conds| - 1]) + [ColumnFromOrderBy(conds[|conds| - 1])]
  }

  lemma {:induction false} OrderColumnsAt(conds: seq<string>, i: nat)
    requires i < |conds|
    ensures OrderColumns(conds)[i] == ColumnFromOrderBy(conds[i])
  {
    if i < |conds| - 1 {
      OrderColumnsAt(conds[..|conds| - 1], i);
    }
  }

  /** The direction of every ORDER BY condition, in order. */
  function OrderDirections(conds: seq<string>): (r: seq<OrderDirection>)
    ensures |r| == |conds|
  {
    if |conds| == 0 then [] else OrderDirections(conds[..|conds| - 1]) + [OrderDirectionOf(conds[|conds| - 1])]
  }

  lemma {:induction false} OrderDirectionsAt(conds: seq<string>, i: nat)
    requires i < |conds|
    ensures OrderDirections(conds)[i] == OrderDirectionOf(conds[i])
  {
    if i < |conds| - 1 {
      OrderDirectionsAt(conds[..|conds| - 1], i);
    }
  }

  /**
   * The query's ORDER BY conditions as order information: the column each
   * names, its direction and the column's select-list position. Ordering by
   * a column the query does not select is an IllegalArgumentException,
   * modelled as Err carrying the index of the offending condition.
   */
  method GetOrderTypeInfosFromOrigQuery(q: QueryShell) returns (r: Result<seq<OrderTypeInformation>, nat>)
    ensures r.Ok? ==> |r.value| == |q.orderBy| && forall i :: 0 <= i < |q.orderBy| ==>
      r.value[i] == OrderTypeInformation(r.value[i].startPosition, OrderDirections(q.orderBy)[i], OrderColumns(q.orderBy)[i])
      && FoundAt(q, OrderColumns(q.orderBy)[i], r.value[i].startPosition)
    ensures r.Err? ==> r.error < |q.orderBy| && NotSelected(q, OrderColumns(q.orderBy)[r.error])
  {
    r := PositionedInfos(q, OrderColumns(q.orderBy), OrderDirections(q.orderBy));
  }

  /** Order information for the given columns and directions, or the index of the first column the query does not select. */
  method PositionedInfos(q: QueryShell, cols: seq<string>, dirs: seq<OrderDirection>) returns (r: Result<seq<OrderTypeInformation>, nat>)
    requires |cols| == |dirs|
    ensures r.Ok? ==> |r.value| == |cols| && forall i :: 0 <= i < |cols| ==>
      r.value[i] == OrderTypeInformation(r.value[i].startPosition, dirs[i], cols[i]) && FoundAt(q, cols[i], r.value[i].startPosition)
    ensures r.Err? ==> r.error < |cols| && NotSelected(q, cols[r.error])
    ensures r.Err? ==> forall j :: 0 <= j < r.error ==> !NotSelected(q, cols[j])
  {
    var infos: seq<OrderTypeInformation> := [];
    var i := 0;
    while i < |cols|
      invariant 0 <= i <= |cols|
      invariant |infos| == i
      invariant forall j :: 0 <= j < i ==>
        infos[j] == OrderTypeInformation(infos[j].startPosition, dirs[j], cols[j]) && FoundAt(q, cols[j], infos[j].startPosition)
    {
      var pos := SelectedColsContains(q, cols[i]);
      if pos.None? {
        return Err(i);
      }
      infos := infos + [OrderTypeInformation(pos.value, dirs[i], cols[i])];
      i := i + 1;
    }
    return Ok(infos);
  }

  // Column-name de-duplication across the merged queries

  /** `name` followed by k copies of "_0". */
  function Suffixed(name: string, k: nat): string
  {
    name + Repeat("_0", k)
  }

  /** r is the first of name, name_0, name_0_0, ... that is not among `names`. */
  ghost predicate FirstFree(names: seq<string>, name: string, r: string)
  {
    r !in names && exists k: nat :: r == Suffixed(name, k) && forall j: nat :: j < k ==> Suffixed(name, j) in names
  }

  /** There is only one first free name. */
  lemma FirstFreeUnique(names: seq<string>, name: string, r1: string, r2: string)
    requires FirstFree(names, name, r1) && FirstFree(names, name, r2)
    ensures r1 == r2
  {
    var k1: nat :| r1 == Suffixed(name, k1) && forall j: nat :: j < k1 ==> Suffixed(name, j) in names;
    var k2: nat :| r2 == Suffixed(name, k2) && forall j: nat :: j < k2 ==> Suffixed(name, j) in names;
    assert !(k1 < k2) && !(k2 < k1);
  }

  /** The length of the longest name. */
  function MaxLength(names: seq<string>): (m: nat)
    ensures forall i :: 0 <= i < |names| ==> |names[i]| <= m
  {
    if |names| == 0 then 0
    else
      var rest := MaxLength(names[1..]);
      assert forall i :: 1 <= i < |names| ==> names[i] == names[1..][i - 1];
      if |names[0]| > rest then |names[0]| else rest
  }

  /** Appends "_0" to `name` until it differs from every name in `names`. */
  method UniqueName(names: seq<string>, name: string) returns (r: string)
    ensures FirstFree(names, name, r)
  {
    r := name;
    var k: nat := 0;
    while r in names
      invariant r == Suffixed(name, k)
      invariant forall j: nat :: j < k ==> Suffixed(name, j) in names
      decreases MaxLength(names) - |r|
    {
      r := r + "_0";
      k := k + 1;
    }
  }

  /**
   * The name each column of a later query brings to the merge: the alias
   * recorded at position 0 when there is one, otherwise the column itself.
   * The position looked up is never advanced, so an alias on the first
   * column is taken for every column.
   */
  function LaterNames(q: QueryShell): (r: seq<string>)
    ensures |r| == |q.selectedCols|
  {
    seq(|q.selectedCols|, j requires 0 <= j < |q.selectedCols| =>
      if 0 in q.positionAliases then q.positionAliases[0] else q.selectedCols[j])
  }

  /** The names of the first query's columns: each column's alias at its own position, or the column itself. */
  function FirstNames(q: QueryShell): (r: seq<string>)
    ensures |r| == |q.selectedCols|
  {
    seq(|q.selectedCols|, j requires 0 <= j < |q.selectedCols| =>
      if j in q.positionAliases then q.positionAliases[j] else q.selectedCols[j])
  }

  /** Every new name is the first free variant of its original name, given the names before it. */
  ghost predicate RenamedSegment(prior: seq<string>, origs: seq<string>, seg: seq<string>)
  {
    |seg| == |origs| && forall i :: 0 <= i < |seg| ==> FirstFree(prior + seg[..i], origs[i], seg[i])
  }

  /** The adjustment list handed to the select-list rewriter: the new name where it changed, nothing elsewhere. */
  function Adjustments(origs: seq<string>, seg: seq<string>): (r: seq<Option<string>>)
    requires |seg| == |origs|
    ensures |r| == |seg|
  {
    seq(|seg|, i requires 0 <= i < |seg| => if seg[i] == origs[i] then None else Some(seg[i]))
  }

  /** Original name to the new names it was given, for the columns that were renamed. */
  function AdjustMap(origs: seq<string>, seg: seq<string>): AliasMap
    requires |seg| == |origs|
  {
    if |seg| == 0 then []
    else
      var m := AdjustMap(origs[..|seg| - 1], seg[..|seg| - 1]);
      if seg[|seg| - 1] == origs[|seg| - 1] then m else AddAlias(m, origs[|seg| - 1], seg[|seg| - 1])
  }

  /** The renamed names are new: none equals an earlier name or another renamed name. */
  lemma RenamedNamesFresh(prior: seq<string>, origs: seq<string>, seg: seq<string>)
    requires RenamedSegment(prior, origs, seg)
    ensures forall i :: 0 <= i < |seg| ==> seg[i] !in prior
    ensures forall i, j :: 0 <= j < i < |seg| ==> seg[j] != seg[i]
  {
    forall i, j | 0 <= j < i < |seg|
      ensures seg[j] != seg[i]
    {
      assert seg[j] == (prior + seg[..i])[|prior| + j];
    }
    forall i | 0 <= i < |seg|
      ensures seg[i] !in prior
    {
      assert FirstFree(prior + seg[..i], origs[i], seg[i]);
      assert prior <= prior + seg[..i];
    }
  }

  /**
   * Gives each column of a later query a name distinct from all names
   * collected so far, recording which columns were renamed and, per
   * original name, the new names it received.
   */
  method RenameColumns(prior: seq<string>, q: QueryShell)
    returns (seg: seq<string>, adjustments: seq<Option<string>>, toAdjust: AliasMap, needToAdjust: bool)
    ensures RenamedSegment(prior, LaterNames(q), seg)
    ensures adjustments == Adjustments(LaterNames(q), seg)
    ensures toAdjust == AdjustMap(LaterNames(q), seg)
    ensures needToAdjust <==> seg != LaterNames(q)
  {
    var origs := LaterNames(q);
    seg, adjustments, toAdjust, needToAdjust := [], [], [], false;
    var i := 0;
    while i < |origs|
      invariant 0 <= i <= |origs|
      invariant RenamedSegment(prior, origs[..i], seg)
      invariant adjustments == Adjustments(origs[..i], seg)
      invariant toAdjust == AdjustMap(origs[..i], seg)
      invariant needToAdjust <==> seg != origs[..i]
    {
      var name := UniqueName(prior + seg, origs[i]);
      RenameStep(prior, origs, seg, i, name);
      if name != origs[i] {
        adjustments := adjustments + [Some(name)];
        toAdjust := AddAlias(toAdjust, origs[i], name);
        needToAdjust := true;
      } else {
        adjustments := adjustments + [None];
      }
      seg := seg + [name];
      i := i + 1;
    }
    assert origs[..i] == origs;
  }

  /** Extending the renamed prefix by one more column keeps every description in step. */
  lemma RenameStep(prior: seq<string>, origs: seq<string>, seg: seq<string>, i: nat, name: string)
    requires i < |origs|
    requires RenamedSegment(prior, origs[..i], seg)
    requires FirstFree(prior + seg, origs[i], name)
    ensures RenamedSegment(prior, origs[..i + 1], seg + [name])
    ensures Adjustments(origs[..i + 1], seg + [name]) == Adjustments(origs[..i], seg) + [if name == origs[i] then None else Some(name)]
    ensures AdjustMap(origs[..i + 1], seg + [name])
      == if name == origs[i] then AdjustMap(origs[..i], seg) else AddAlias(AdjustMap(origs[..i], seg), origs[i], name)
    ensures seg + [name] != origs[..i + 1] <==> seg != origs[..i] || name != origs[i]
  {
    RenameStepSegment(prior, origs, seg, i, name);
    RenameStepAdjust(origs, seg, i, name);
  }

  /** The new column's name is its first free name, and the earlier ones keep theirs. */
  lemma RenameStepSegment(prior: seq<string>, origs: seq<string>, seg: seq<string>, i: nat, name: string)
    requires i < |origs|
    requires RenamedSegment(prior, origs[..i], seg)
    requires FirstFree(prior + seg, origs[i], name)
    ensures RenamedSegment(prior, origs[..i + 1], seg + [name])
  {
    var s2 := seg + [name];
    var o2 := origs[..i + 1];
    assert s2[..i] == seg;
    forall k | 0 <= k < |s2|
      ensures FirstFree(prior + s2[..k], o2[k], s2[k])
    {
      if k < i {
        assert s2[..k] == seg[..k];
        assert o2[k] == origs[..i][k];
      }
    }
  }

  /** The adjustment list and map grow by the new column alone. */
  lemma RenameStepAdjust(origs: seq<string>, seg: seq<string>, i: nat, name: string)
    requires i < |origs| && |seg| == i
    ensures Adjustments(origs[..i + 1], seg + [name]) == Adjustments(origs[..i], seg) + [if name == origs[i] then None else Some(name)]
    ensures AdjustMap(origs[..i + 1], seg + [name])
      == if name == origs[i] then AdjustMap(origs[..i], seg) else AddAlias(AdjustMap(origs[..i], seg), origs[i], name)
    ensures seg + [name] != origs[..i + 1] <==> seg != origs[..i] || name != origs[i]
  {
    var s2 := seg + [name];
    var o2 := origs[..i + 1];
    assert o2[..i] == origs[..i];
    assert s2[..i] == seg;
    if s2 == o2 {
      assert seg == s2[..i];
    }
  }

  // Constants, row numbers and order information of a merged level

  /**
   * The constant count (and mapping offset) after merging the first k
   * queries: each later query adds its constants, then the whole doubles,
   * because the LEFT JOIN half and the RIGHT JOIN half each carry every
   * constant.
   */
  function ConstantsAfter(queries: seq<QueryShell>, k: nat): nat
    requires 1 <= k <= |queries|
  {
    if k == 1 then queries[0].numConstants
    else 2 * (ConstantsAfter(queries, k - 1) + queries[k - 1].numConstants)
  }

  function Pow2(e: nat): (r: nat)
    ensures r >= 1
  {
    if e == 0 then 1 else 2 * Pow2(e - 1)
  }

  /** How many copies of query i's constants a merge of k queries holds: 2^(k-1) for the first query, 2^(k-i) for query i >= 1. */
  function Copies(i: nat, k: nat): nat
    requires i < k
  {
    if i == 0 then Pow2(k - 1) else Pow2(k - i)
  }

  /** The first n queries' constants, each counted once per copy in a merge of k queries. */
  function WeightedConstants(queries: seq<QueryShell>, n: nat, k: nat): nat
    requires n <= k <= |queries|
  {
    if n == 0 then 0 else WeightedConstants(queries, n - 1, k) + queries[n - 1].numConstants * Copies(n - 1, k)
  }

  /** One more merge doubles every earlier query's copies. */
  lemma {:induction false} WeightedDoubles(queries: seq<QueryShell>, n: nat, k: nat)
    requires n <= k < |queries|
    ensures WeightedConstants(queries, n, k + 1) == 2 * WeightedConstants(queries, n, k)
  {
    if n > 0 {
      WeightedDoubles(queries, n - 1, k);
      assert Copies(n - 1, k + 1) == 2 * Copies(n - 1, k);
    }
  }

  /**
   * The merged query's constant count is the sum over its queries of their
   * constants times their number of copies: the first query's constants
   * appear 2^(k-1) times, query i's (i >= 1) 2^(k-i) times.
   */
  lemma {:induction false} ConstantsClosedForm(queries: seq<QueryShell>, k: nat)
    requires 1 <= k <= |queries|
    ensures ConstantsAfter(queries, k) == WeightedConstants(queries, k, k)
  {
    if k > 1 {
      ConstantsClosedForm(queries, k - 1);
      WeightedDoubles(queries, k - 1, k - 1);
      assert Copies(k - 1, k) == 2;
    } else {
      assert Copies(0, 1) == 1;
    }
  }

  /** The row-number column of the q-th merged query: rn0, rn1, rn3, rn5, ... */
  function RnIndex(q: nat): nat
  {
    if q == 0 then 0 else 2 * q - 1
  }

  /** With k >= 2 merged queries, the row-number columns below query number 2(k-1) are exactly those of the k queries, in order. */
  lemma {:induction false} RnIndicesOfMerge(k: nat)
    requires k >= 2
    ensures |RnIndices(2 * (k - 1))| == k
    ensures forall q :: 0 <= q < k ==> RnIndices(2 * (k - 1))[q] == RnIndex(q)
  {
    if k == 2 {
      RnIndicesTwo();
    } else {
      RnIndicesOfMerge(k - 1);
      RnIndicesPair(k);
      var a := RnIndices(2 * k - 4);
      var c := RnIndices(2 * k - 2);
      forall q | 0 <= q < k
        ensures c[q] == RnIndex(q)
      {
        if q < k - 1 {
          assert c[q] == a[q];
        }
      }
    }
  }

  /** The first two merged queries number their rows rn0 and rn1. */
  lemma RnIndicesTwo()
    ensures RnIndices(2) == [0, 1]
  {
    assert RnIndices(1) == [0];
  }

  /** Each further merged query adds the next odd row-number column. */
  lemma RnIndicesPair(k: nat)
    requires k >= 3
    ensures RnIndices(2 * k - 2) == RnIndices(2 * k - 4) + [2 * k - 3]
  {
    OrderByStepSkip(2 * k - 4);
    RnIndicesSnoc(2 * k - 3);
  }

  /** An even query number other than 0 adds no row-number column. */
  lemma OrderByStepSkip(i: nat)
    requires i % 2 == 0 && i != 0
    ensures RnIndices(i + 1) == RnIndices(i)
  {
  }

  /** Query number 0 or an odd one adds its row-number column at the end. */
  lemma RnIndicesSnoc(i: nat)
    requires !(i % 2 == 0 && i != 0)
    ensures RnIndices(i + 1) == RnIndices(i) + [i]
  {
  }

  /** The names of one more index: the names so far, then the new one. */
  lemma RnNamesSnoc(idx: seq<nat>, i: nat)
    ensures RnNames(idx + [i]) == RnNames(idx) + [RnName(i)]
  {
    assert (idx + [i])[..|idx|] == idx;
  }

  /** One more name in the list: a separator, then the name. */
  lemma JoinRnNamesSnoc(idx: seq<nat>, i: nat)
    ensures Join(RnNames(idx + [i]), ", ") == (if |idx| > 0 then Join(RnNames(idx), ", ") + ", " else "") + RnName(i)
  {
    RnNamesSnoc(idx, i);
    JoinAppendOne(RnNames(idx), RnName(i), ", ");
  }

  lemma OrderByStepAdd(i: nat, s: string)
    requires !(i % 2 == 0 && i != 0)
    requires s == Join(RnNames(RnIndices(i)), ", ")
    ensures Join(RnNames(RnIndices(i + 1)), ", ") == (if i > 0 then s + ", " else s) + RnName(i)
  {
    RnIndicesSnoc(i);
    JoinRnNamesSnoc(RnIndices(i), i);
  }

  /** The ORDER BY list of a merged level: rn0 and every odd rn below the query number. */
  method OrderByRowNumbers(queryNumber: nat) returns (s: string)
    ensures s == Join(RnNames(RnIndices(queryNumber)), ", ")
  {
    s := "";
    var i := 0;
    while i < queryNumber
      invariant 0 <= i <= queryNumber
      invariant s == Join(RnNames(RnIndices(i)), ", ")
    {
      if i % 2 == 0 && i != 0 {
        OrderByStepSkip(i);
      } else {
        OrderByStepAdd(i, s);
        if i > 0 {
          s := s + ", ";
        }
        s := s + RnName(i);
      }
      i := i + 1;
    }
  }

  function SumOf(s: seq<nat>): nat
  {
    if |s| == 0 then 0 else SumOf(s[..|s| - 1]) + s[|s| - 1]
  }

  /** A longer prefix never sums to less. */
  lemma {:induction false} SumOfPrefixMonotone(s: seq<nat>, i: nat, j: nat)
    requires i <= j <= |s|
    ensures SumOf(s[..i]) <= SumOf(s[..j])
    decreases j - i
  {
    if i < j {
      SumOfPrefixMonotone(s, i, j - 1);
      assert s[..j][..j - 1] == s[..j - 1];
    }
  }

  /** The order keys of a merged level: query q's row number, just after its columns and those of the queries before it. */
  function LevelOrderKeys(numCols: seq<nat>): (r: seq<OrderTypeInformation>)
    ensures |r| == |numCols|
  {
    seq(|numCols|, q requires 0 <= q < |numCols| => OrderTypeInformation(SumOf(numCols[..q + 1]) + q, Default, RnName(RnIndex(q))))
  }

  /** The candidate keys of a merged level: the row number of each query. */
  function LevelCandidateKeys(k: nat): (r: seq<string>)
    ensures |r| == k
  {
    seq(k, q requires 0 <= q < k => RnName(RnIndex(q)))
  }

  /**
   * The order information of a merged level: the merged query's columns are
   * query 0's columns, rn0, query 1's columns, rn1, rn3, ... so the q-th
   * row-number column sits after the columns of queries 0..q and the q
   * row-number columns before it; all are ordered by default direction.
   * The level's column count is every query's columns plus one per query.
   */
  method ZipperOrderInfos(numCols: seq<nat>) returns (infos: seq<OrderTypeInformation>, curPos: nat)
    ensures infos == LevelOrderKeys(numCols)
    ensures curPos == SumOf(numCols) + |numCols|
  {
    infos := [];
    curPos := 0;
    var rnNumber := 0;
    var q := 0;
    while q < |numCols|
      invariant 0 <= q <= |numCols|
      invariant |infos| == q
      invariant curPos == SumOf(numCols[..q]) + q
      invariant rnNumber == RnIndex(q)
      invariant forall p :: 0 <= p < q ==> infos[p] == OrderTypeInformation(SumOf(numCols[..p + 1]) + p, Default, RnName(RnIndex(p)))
    {
      assert numCols[..q + 1][..q] == numCols[..q];
      curPos := curPos + numCols[q];
      assert curPos == SumOf(numCols[..q + 1]) + q;
      var info := OrderTypeInformation(curPos, Default, "rn" + Num(rnNumber));
      assert info == OrderTypeInformation(SumOf(numCols[..q + 1]) + q, Default, RnName(RnIndex(q)));
      curPos := curPos + 1;
      if q == 0 {
        rnNumber := rnNumber + 1;
      } else {
        rnNumber := rnNumber + 2;
      }
      infos := infos + [info];
      q := q + 1;
    }
    assert numCols[..q] == numCols;
    assert forall p :: 0 <= p < |numCols| ==> infos[p] == LevelOrderKeys(numCols)[p];
  }

  /** The row-number positions of a merged level strictly increase and all lie before its column count. */
  lemma ZipperPositionsIncrease(numCols: seq<nat>, p: nat, q: nat)
    requires p < q < |numCols|
    ensures SumOf(numCols[..p + 1]) + p < SumOf(numCols[..q + 1]) + q < SumOf(numCols) + |numCols|
  {
    SumOfPrefixMonotone(numCols, p + 1, q + 1);
    SumOfPrefixMonotone(numCols, q + 1, |numCols|);
    assert numCols[..|numCols|] == numCols;
  }

  /** The candidate-key fields of a merged level: the row-number column of every merged query. */
  method CandidateKeyFields(k: nat) returns (ckFields: seq<string>)
    ensures ckFields == LevelCandidateKeys(k)
    ensures k >= 2 ==> ckFields == RnNames(RnIndices(2 * (k - 1)))
  {
    ckFields := [];
    var rnNumber := 0;
    var i := 0;
    while i < k
      invariant 0 <= i <= k
      invariant |ckFields| == i
      invariant rnNumber == RnIndex(i)
      invariant forall q :: 0 <= q < i ==> ckFields[q] == RnName(RnIndex(q))
    {
      ckFields := ckFields + ["rn" + Num(rnNumber)];
      if i == 0 {
        rnNumber := rnNumber + 1;
      } else {
        rnNumber := rnNumber + 2;
      }
      i := i + 1;
    }
    if k >= 2 {
      RnIndicesOfMerge(k);
    }
  }

  // The merge of a level's queries

  /** The rewriter of a query's select list, given the new name of each renamed column (a parser walk in the original). */
  type SelectListAdjuster = (QueryShell, seq<Option<string>>) -> string

  /** The renamed names of the later queries fit their select lists. */
  predicate SegShapes(queries: seq<QueryShell>, segs: seq<seq<string>>, k: nat)
  {
    k <= |queries| && k - 1 <= |segs| && forall j :: 0 <= j < k - 1 ==> |segs[j]| == |queries[j + 1].selectedCols|
  }

  /**
   * Each later query's names are the first free variants of its names,
   * given every name collected before it (stated for the last segment and,
   * recursively, for the ones before; NameChainAt gives it per segment).
   */
  ghost predicate NameChain(queries: seq<QueryShell>, segs: seq<seq<string>>)
    requires 1 <= |queries| && |segs| < |queries|
  {
    |segs| == 0 ||
    (var prior := segs[..|segs| - 1];
     NameChain(queries, prior)
     && RenamedSegment(FirstNames(queries[0]) + Flatten(prior), LaterNames(queries[|segs|]), segs[|segs| - 1]))
  }

  /** Segment j of the chain is the renaming of query j + 1 against the first query's names and segments 0 to j - 1. */
  lemma {:induction false} NameChainAt(queries: seq<QueryShell>, segs: seq<seq<string>>, j: nat)
    requires 1 <= |queries| && |segs| < |queries| && j < |segs|
    requires NameChain(queries, segs)
    ensures RenamedSegment(FirstNames(queries[0]) + Flatten(segs[..j]), LaterNames(queries[j + 1]), segs[j])
    decreases |segs|
  {
    var prior := segs[..|segs| - 1];
    if j < |segs| - 1 {
      NameChainAt(queries, prior, j);
      assert prior[..j] == segs[..j] && prior[j] == segs[j];
    }
  }

  /** A later query's text: rewritten with its new column names when any column was renamed, as it is otherwise. */
  function NextText(q: QueryShell, adjust: SelectListAdjuster, seg: seq<string>): string
    requires |seg| == |q.selectedCols|
  {
    if seg != LaterNames(q) then adjust(q, Adjustments(LaterNames(q), seg)) else q.text
  }

  /**
   * The text after merging the first k queries: the first query wrapped
   * with rn0, then each later query zipper-merged in as query number
   * 2(k-2)+1 against the merged text as query number 2(k-2).
   */
  function MergedText(queries: seq<QueryShell>, adjust: SelectListAdjuster, segs: seq<seq<string>>, k: nat): string
    requires 1 <= k && SegShapes(queries, segs, k)
    decreases k
  {
    if k == 1 then RowNumberText(queries[0].text, queries[0].orderBy, ColumnAliasesMap(queries[0].selectedCols, queries[0].positionAliases), 0)
    else
      var next := queries[k - 1];
      ZipperTwo(MergedText(queries, adjust, segs, k - 1), NextText(next, adjust, segs[k - 2]), next.orderBy,
                AdjustMap(LaterNames(next), segs[k - 2]), 2 * (k - 2), 2 * (k - 2) + 1)
  }

  /** The merged text depends only on the renamed names of the queries merged so far. */
  lemma {:induction false} MergedTextExtend(queries: seq<QueryShell>, adjust: SelectListAdjuster, segs: seq<seq<string>>, extra: seq<seq<string>>, k: nat)
    requires 1 <= k && SegShapes(queries, segs, k)
    ensures SegShapes(queries, segs + extra, k)
    ensures MergedText(queries, adjust, segs + extra, k) == MergedText(queries, adjust, segs, k)
    decreases k
  {
    if k > 1 {
      MergedTextExtend(queries, adjust, segs, extra, k - 1);
      assert (segs + extra)[k - 2] == segs[k - 2];
    }
  }

  /** Merges query k into the text of the first k queries, renaming its clashing columns first. */
  method MergeNextQuery(queries: seq<QueryShell>, adjust: SelectListAdjuster, k: nat, text: string,
                        trueNames: seq<string>, segs: seq<seq<string>>)
    returns (merged: string, seg: seq<string>, toAdjust: AliasMap)
    requires 1 <= k < |queries| && |segs| == k - 1 && SegShapes(queries, segs, k)
    requires text == MergedText(queries, adjust, segs, k)
    ensures RenamedSegment(trueNames, LaterNames(queries[k]), seg)
    ensures toAdjust == AdjustMap(LaterNames(queries[k]), seg)
    ensures SegShapes(queries, segs + [seg], k + 1)
    ensures merged == MergedText(queries, adjust, segs + [seg], k + 1)
  {
    var next := queries[k];
    var adjustments, needToAdjust;
    seg, adjustments, toAdjust, needToAdjust := RenameColumns(trueNames, next);
    var nextText := next.text;
    if needToAdjust {
      nextText := adjust(next, adjustments);
    }
    assert nextText == NextText(next, adjust, seg);
    merged := ZipperMergeTwoQueries(text, nextText, next.orderBy, toAdjust, 2 * (k - 1), 2 * (k - 1) + 1);
    MergedTextStep(queries, adjust, segs, seg, k);
  }

  /** One more query merged: the zipper merge of the text so far with that query's (possibly rewritten) text. */
  lemma MergedTextStep(queries: seq<QueryShell>, adjust: SelectListAdjuster, segs: seq<seq<string>>, seg: seq<string>, k: nat)
    requires 1 <= k < |queries| && |segs| == k - 1 && SegShapes(queries, segs, k)
    requires |seg| == |queries[k].selectedCols|
    ensures SegShapes(queries, segs + [seg], k + 1)
    ensures MergedText(queries, adjust, segs + [seg], k + 1)
         == ZipperTwo(MergedText(queries, adjust, segs, k), NextText(queries[k], adjust, seg), queries[k].orderBy,
                      AdjustMap(LaterNames(queries[k]), seg), 2 * (k - 1), 2 * (k - 1) + 1)
  {
    MergedTextExtend(queries, adjust, segs, [seg], k);
    assert (segs + [seg])[k - 1] == seg;
  }

  /** Adding the next query's names keeps the chain of renamings. */
  lemma NameChainStep(queries: seq<QueryShell>, segs: seq<seq<string>>, seg: seq<string>)
    requires 1 <= |queries| && |segs| + 1 < |queries|
    requires NameChain(queries, segs)
    requires RenamedSegment(FirstNames(queries[0]) + Flatten(segs), LaterNames(queries[|segs| + 1]), seg)
    ensures NameChain(queries, segs + [seg])
  {
    assert (segs + [seg])[..|segs|] == segs;
  }

  /** The names collected grow by the next query's new names. */
  lemma TrueNamesStep(first: seq<string>, segs: seq<seq<string>>, trueNames: seq<string>, seg: seq<string>)
    requires trueNames == first + Flatten(segs)
    ensures trueNames + seg == first + Flatten(segs + [seg])
  {
    FlattenSnoc(segs, seg);
  }

  /** Appending the next query's map keeps every map tied to its query's renaming. */
  lemma AdjustMapsStep(queries: seq<QueryShell>, segs: seq<seq<string>>, adjustMaps: seq<AliasMap>, seg: seq<string>, toAdjust: AliasMap)
    requires |segs| == |adjustMaps| && |segs| + 1 < |queries| && SegShapes(queries, segs, |segs| + 1)
    requires |seg| == |queries[|segs| + 1].selectedCols|
    requires forall j :: 0 <= j < |segs| ==> adjustMaps[j] == AdjustMap(LaterNames(queries[j + 1]), segs[j])
    requires toAdjust == AdjustMap(LaterNames(queries[|segs| + 1]), seg)
    ensures forall j :: 0 <= j < |segs| + 1 ==> (adjustMaps + [toAdjust])[j] == AdjustMap(LaterNames(queries[j + 1]), (segs + [seg])[j])
  {
    var segs', adjustMaps' := segs + [seg], adjustMaps + [toAdjust];
    forall j | 0 <= j < |segs| + 1
      ensures adjustMaps'[j] == AdjustMap(LaterNames(queries[j + 1]), segs'[j])
    {
      if j < |segs| {
        assert adjustMaps'[j] == adjustMaps[j] && segs'[j] == segs[j];
      }
    }
  }

  /** What the merge loop keeps after the first k queries: names, texts and maps as the definitions give them. */
  ghost predicate MergeState(queries: seq<QueryShell>, adjust: SelectListAdjuster, k: nat, text: string,
                             segs: seq<seq<string>>, trueNames: seq<string>, adjustMaps: seq<AliasMap>)
  {
    1 <= k <= |queries| && |segs| == k - 1 && SegShapes(queries, segs, k) && NameChain(queries, segs)
    && trueNames == FirstNames(queries[0]) + Flatten(segs)
    && text == MergedText(queries, adjust, segs, k)
    && |adjustMaps| == k - 1
    && forall j :: 0 <= j < k - 1 ==> adjustMaps[j] == AdjustMap(LaterNames(queries[j + 1]), segs[j])
  }

  /** The state before any later query is merged: the first query wrapped with rn0. */
  method MergeFirstQuery(queries: seq<QueryShell>, adjust: SelectListAdjuster)
    returns (text: string, numConstants: nat, offset: nat, trueNames: seq<string>)
    requires |queries| >= 1
    ensures MergeState(queries, adjust, 1, text, [], trueNames, [])
    ensures numConstants == offset == ConstantsAfter(queries, 1)
  {
    var first := queries[0];
    var aliases := BuildColumnAliasesMap(first.selectedCols, first.positionAliases);
    text := AddRowNumberColToQueryString(first.text, first.orderBy, aliases, 0);
    numConstants := first.numConstants;
    offset := first.numConstants;
    trueNames := FirstNames(first);
    assert Flatten<string>([]) == [];
  }

  /** Merging query k under the names collected so far moves the loop state from k to k + 1. */
  lemma MergeStateExtend(queries: seq<QueryShell>, adjust: SelectListAdjuster, k: nat, text: string,
                         segs: seq<seq<string>>, trueNames: seq<string>, adjustMaps: seq<AliasMap>,
                         merged: string, seg: seq<string>, toAdjust: AliasMap)
    requires k < |queries|
    requires MergeState(queries, adjust, k, text, segs, trueNames, adjustMaps)
    requires RenamedSegment(trueNames, LaterNames(queries[k]), seg)
    requires toAdjust == AdjustMap(LaterNames(queries[k]), seg)
    requires SegShapes(queries, segs + [seg], k + 1) && merged == MergedText(queries, adjust, segs + [seg], k + 1)
    ensures MergeState(queries, adjust, k + 1, merged, segs + [seg], trueNames + seg, adjustMaps + [toAdjust])
  {
    NameChainStep(queries, segs, seg);
    TrueNamesStep(FirstNames(queries[0]), segs, trueNames, seg);
    AdjustMapsStep(queries, segs, adjustMaps, seg, toAdjust);
  }

  /**
   * The counters after merging query k: the constant count and the mapping
   * offset both take in the query's constants and double, since the merged
   * text holds two copies of everything.
   */
  method CountMergedConstants(queries: seq<QueryShell>, k: nat, numConstants: nat, offset: nat)
    returns (numConstants': nat, offset': nat)
    requires 1 <= k < |queries|
    requires numConstants == offset == ConstantsAfter(queries, k)
    ensures numConstants' == offset' == ConstantsAfter(queries, k + 1)
  {
    numConstants' := numConstants + queries[k].numConstants;
    offset' := offset + queries[k].numConstants;
    offset' := offset' * 2;
    numConstants' := numConstants' * 2;
  }

  /** One turn of the merge loop: query k is merged and the counters are doubled. */
  method MergeLoopStep(queries: seq<QueryShell>, adjust: SelectListAdjuster, k: nat, text: string, numConstants: nat,
                       offset: nat, segs: seq<seq<string>>, trueNames: seq<string>, adjustMaps: seq<AliasMap>)
    returns (text': string, numConstants': nat, offset': nat, segs': seq<seq<string>>, trueNames': seq<string>, adjustMaps': seq<AliasMap>)
    requires k < |queries|
    requires MergeState(queries, adjust, k, text, segs, trueNames, adjustMaps)
    requires numConstants == offset == ConstantsAfter(queries, k)
    ensures MergeState(queries, adjust, k + 1, text', segs', trueNames', adjustMaps')
    ensures numConstants' == offset' == ConstantsAfter(queries, k + 1)
  {
    var seg, toAdjust;
    text', seg, toAdjust := MergeNextQuery(queries, adjust, k, text, trueNames, segs);
    numConstants', offset' := CountMergedConstants(queries, k, numConstants, offset);
    MergeStateExtend(queries, adjust, k, text, segs, trueNames, adjustMaps, text', seg, toAdjust);
    trueNames' := trueNames + seg;
    segs' := segs + [seg];
    adjustMaps' := adjustMaps + [toAdjust];
  }

  /**
   * Zipper-merges two or more queries of a level. Every later query's
   * columns are renamed away from all names collected so far; the merged
   * text is followed by ORDER BY over the row-number columns; the constant
   * count and the mapping offset both end at ConstantsAfter. Returned with
   * the text: the new names of each later query, all names collected, and
   * per later query the original-to-new name map passed down to the levels
   * below.
   */
  method ZipperMergeMany(queries: seq<QueryShell>, adjust: SelectListAdjuster)
    returns (text: string, numConstants: nat, offset: nat, segs: seq<seq<string>>, trueNames: seq<string>, adjustMaps: seq<AliasMap>)
    requires |queries| >= 2
    ensures |segs| == |queries| - 1 && SegShapes(queries, segs, |queries|) && NameChain(queries, segs)
    ensures trueNames == FirstNames(queries[0]) + Flatten(segs)
    ensures text == MergedText(queries, adjust, segs, |queries|) + " ORDER BY " + Join(RnNames(RnIndices(2 * (|queries| - 1))), ", ")
    ensures numConstants == offset == ConstantsAfter(queries, |queries|)
    ensures |adjustMaps| == |segs| && forall j :: 0 <= j < |segs| ==> adjustMaps[j] == AdjustMap(LaterNames(queries[j + 1]), segs[j])
  {
    var merged;
    merged, numConstants, offset, segs, trueNames, adjustMaps := MergeQueries(queries, adjust);
    var order := OrderByRowNumbers(2 * (|queries| - 1));
    text := merged + " ORDER BY " + order;
  }

  /** The merge loop over the later queries (before the ORDER BY is appended). */
  method MergeQueries(queries: seq<QueryShell>, adjust: SelectListAdjuster)
    returns (text: string, numConstants: nat, offset: nat, segs: seq<seq<string>>, trueNames: seq<string>, adjustMaps: seq<AliasMap>)
    requires |queries| >= 1
    ensures MergeState(queries, adjust, |queries|, text, segs, trueNames, adjustMaps)
    ensures numConstants == offset == ConstantsAfter(queries, |queries|)
  {
    text, numConstants, offset, trueNames := MergeFirstQuery(queries, adjust);
    segs, adjustMaps := [], [];
    var k := 1;
    while k < |queries|
      invariant k <= |queries|
      invariant MergeState(queries, adjust, k, text, segs, trueNames, adjustMaps)
      invariant numConstants == offset == ConstantsAfter(queries, k)
      decreases |queries| - k
    {
      text, numConstants, offset, segs, trueNames, adjustMaps := MergeLoopStep(queries, adjust, k, text, numConstants, offset, segs, trueNames, adjustMaps);
      k := k + 1;
    }
    assert k == |queries|;
  }

  /**
   * Rewriting a query text so that its parameters are read from the
   * columns of the levels above, given the number of constants in the
   * text. The mapping bookkeeping behind it is not part of this model.
   */
  type MappingRewriter = (string, nat) -> string

  /** The number of selected columns of each query. */
  function NumColsOf(queries: seq<QueryShell>): (r: seq<nat>)
    ensures |r| == |queries|
  {
    seq(|queries|, i requires 0 <= i < |queries| => queries[i].numCols)
  }

  /**
   * A level with a single query: the query is passed through with its
   * mappings rewritten and a rn0 column added; its own ORDER BY columns are
   * located in its select list, and a column that is not there fails the
   * merge (the index of that ORDER BY condition is returned).
   */
  method ZipperMergeSingle(q: QueryShell, rewrite: MappingRewriter) returns (r: Result<ZipperMergeResult, nat>)
    ensures r.Ok? ==>
      r.value.text == RowNumberText(rewrite(q.text, q.numConstants), q.orderBy, ColumnAliasesMap(q.selectedCols, q.positionAliases), 0)
      && r.value.ckFields == ["rn0"] && r.value.numCols == q.numCols + 1
      && |r.value.infos| == |q.orderBy|
      && forall i :: 0 <= i < |q.orderBy| ==>
           r.value.infos[i] == OrderTypeInformation(r.value.infos[i].startPosition, OrderDirections(q.orderBy)[i], OrderColumns(q.orderBy)[i])
           && FoundAt(q, OrderColumns(q.orderBy)[i], r.value.infos[i].startPosition)
    ensures r.Err? ==> r.error < |q.orderBy| && NotSelected(q, OrderColumns(q.orderBy)[r.error])
  {
    var rewritten := rewrite(q.text, q.numConstants);
    var aliases := BuildColumnAliasesMap(q.selectedCols, q.positionAliases);
    var text := AddRowNumberColToQueryString(rewritten, q.orderBy, aliases, 0);
    var infos := GetOrderTypeInfosFromOrigQuery(q);
    if infos.Err? {
      return Err(infos.error);
    }
    r := Ok(ZipperMergeResult(text, infos.value, ["rn0"], q.numCols + 1));
  }

  /**
   * A level with several queries: they are merged pairwise, ordered by
   * their row numbers and rewritten with the final constant count; the
   * order keys are the row-number columns that follow each query's
   * columns, and the candidate keys are those row numbers. Returned with
   * the result: the new names of every later query and its alias map.
   */
  method ZipperMergeSeveral(queries: seq<QueryShell>, adjust: SelectListAdjuster, rewrite: MappingRewriter)
    returns (r: ZipperMergeResult, segs: seq<seq<string>>, adjustMaps: seq<AliasMap>)
    requires |queries| >= 2
    ensures |segs| == |queries| - 1 && SegShapes(queries, segs, |queries|) && NameChain(queries, segs)
    ensures r.text == rewrite(MergedText(queries, adjust, segs, |queries|) + " ORDER BY " + Join(RnNames(RnIndices(2 * (|queries| - 1))), ", "),
                              ConstantsAfter(queries, |queries|))
    ensures |adjustMaps| == |segs| && forall j :: 0 <= j < |segs| ==> adjustMaps[j] == AdjustMap(LaterNames(queries[j + 1]), segs[j])
    ensures r.ckFields == LevelCandidateKeys(|queries|)
    ensures r.numCols == SumOf(NumColsOf(queries)) + |queries|
    ensures r.infos == LevelOrderKeys(NumColsOf(queries))
  {
    var text, numConstants, offset, trueNames;
    text, numConstants, offset, segs, trueNames, adjustMaps := ZipperMergeMany(queries, adjust);
    var rewritten := rewrite(text, numConstants);
    var infos, ckFields, curPos := ZipperKeys(queries);
    r := ZipperMergeResult(rewritten, infos, ckFields, curPos);
  }

  /** The order keys, candidate keys and column count of a merged level of two or more queries. */
  method ZipperKeys(queries: seq<QueryShell>) returns (infos: seq<OrderTypeInformation>, ckFields: seq<string>, numCols: nat)
    requires |queries| >= 2
    ensures ckFields == LevelCandidateKeys(|queries|)
    ensures numCols == SumOf(NumColsOf(queries)) + |queries|
    ensures infos == LevelOrderKeys(NumColsOf(queries))
  {
    infos, numCols := ZipperOrderInfos(NumColsOf(queries));
    ckFields := CandidateKeyFields(|queries|);
  }
}
