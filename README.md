# A verified model of the caching, recovery and billing cores of the repository

This project models the logic at the heart of the repository in Dafny.
The repository bundles two research prototypes and a copy of OpenEMR 5.0.0.
Each core source file becomes one Dafny module of the same name:

- **ChronoCache query vectorisation.** `LateralUnionVectorizer` models the SQL text builders:
  - the ROW_NUMBER wrapper;
  - the LEFT/RIGHT JOIN zipper halves and their UNION;
  - the select, u-table and ORDER BY clause builders;
  - the ORDER BY parsing;
  - the multi-query `zipperMerge`, with column renaming and the rn/offset counters;
  - the split of a combined result set back into one result set per query.
- **The ChronoCache Markov dependency graph.** `MarkovGraph` models:
  - the node table;
  - Tarjan's strongly-connected components;
  - matching the columns of one query's output to the next query's parameters;
  - the mapping filters, the cross product and the dependency-graph walk.

  `MarkovEngine2` models the constant permutations, the running averages, the client registry and the reload threshold.
- **SHIELD's ORAM write-ahead log.** `WriteAheadLog` models:
  - the checkpoint arithmetic and the full-or-diff rule;
  - striding a blob into chunks and rebuilding it;
  - the completion counter and the epoch counters;
  - the layout of recovery keys.
- **SHIELD's Redis/Postgres client.** `RedisPostgresClient` models:
  - the prefetch trackers;
  - the prefetch rule and the hit counting;
  - the read- and write-lock bookkeeping across `executeOps`, commit and abort.
- **The FreeHealth benchmark generator.** `FreeHealthGenerator` models:
  - the hospital-sharded ids and the "max known id" tables;
  - the cumulative-probability dispatch;
  - the bounded random strings, zip codes and dates.
- **OpenEMR.**
  - `Claims`: the 837 claim field formatters.
  - `Edih835`: the 835 remittance renderer, covering the loop state, claim grouping, accounting and the CAS/SVC parsing.
  - `AddEditEvent` and `Pnuser`: calendar event time arithmetic, recurrence encoding and validation.
  - `EditList`: list editing.
  - `DemographicsFull` and `Demographics`: the patient demographics pages.
  - `Eye`: the eye-exam form script.

`Text`, `Seqs` and `Wrappers` hold shared string, sequence and option helpers. They model nothing by themselves.

Where the source changes state step by step, the model is a class with the source object's fields. Its methods name what they modify and state the new state. These classes are:

- `MarkovGraph.MarkovGraph`, the node table and hit counters of `MarkovGraph`;
- `MarkovEngine2.Engine`, the per-client maps and response-time averages of `MarkovEngine2`;
- `WriteAheadLog.Log` and `WriteAheadLog.CompletionCounter`, the epoch counters of the log and its write-completion callback;
- `RedisPostgresClient.PrefetchTracker` and `RedisPostgresClient.Client`, the frequency tables and the lock and prefetch state of a client;
- `FreeHealthGenerator.Generator`, the max-known-id tables and the probability accumulator;
- `Claims.Claim`, a claim's rows;
- `Edih835.PaymentListing`, the loop state, totals and claim groups of the listing;
- `DemographicsFull.ProviderSelect`, the insurance provider picker's options;
- `Eye.MotilityZone` and `Eye.Glasses`, form fields the eye-exam script updates.

Each loop becomes a `while` loop with invariants. Each method is proved against a specification function, and the properties the source promises are proved about those functions as lemmas.

The model makes these choices:

- **Integers.**
  - Java's truncating `/` and `%` are written out (`JavaDiv`, `JavaRem`).
  - Amounts in the 835 remittance are integer cents.
- **Strings and text.**
  - Strings are `seq<char>`.
  - PHP truthiness is explicit: `""` and `"0"` are empty.
- **Outside inputs.** The database, the key-value stores, the random generator and code outside these files (the SQL parser, DOM lookups) become parameters or oracles:
  - a store read is a function parameter;
  - a lock attempt is a boolean oracle;
  - a random draw is a nondeterministic choice in range.

## Model

| member | source | states |
|---|---|---|
| LateralUnionVectorizer.ColumnFromOrderBy | chronocache/src/main/java/chronocache/core/LateralUnionVectorizer.java:318-327 | the column of an ORDER BY condition is never longer than the condition (the four direction suffixes are only removed) |
| LateralUnionVectorizer.OrderDirectionOf | chronocache/src/main/java/chronocache/core/LateralUnionVectorizer.java:332-339 | DESC exactly when "DESC" occurs anywhere, ASC exactly when "ASC" occurs and "DESC" does not, otherwise the default |
| LateralUnionVectorizer.RoundTripDefault | chronocache/src/main/java/chronocache/core/LateralUnionVectorizer.java:318-339 | a plain column with no suffix parses back to itself with the default direction |
| LateralUnionVectorizer.RoundTripAsc | chronocache/src/main/java/chronocache/core/LateralUnionVectorizer.java:318-339 | "c ASC" parses back to column c and direction ASC |
| LateralUnionVectorizer.RoundTripDesc | chronocache/src/main/java/chronocache/core/LateralUnionVectorizer.java:318-339 | "c DESC" parses back to column c and direction DESC |
| LateralUnionVectorizer.OrderByRoundTrip | chronocache/src/main/java/chronocache/core/LateralUnionVectorizer.java:318-339 | writing a plain column with any direction suffix and parsing it gives the column and the direction back |
| LateralUnionVectorizer.RnIndices | chronocache/src/main/java/chronocache/core/LateralUnionVectorizer.java:823-825 | the row-number columns below query number n are exactly 0 and the odd numbers below n, strictly increasing, starting at 0 |
| LateralUnionVectorizer.RnIndicesCount | chronocache/src/main/java/chronocache/core/LateralUnionVectorizer.java:1278-1289 | after m merges (query number 2m) there are m + 1 row-number columns |
| LateralUnionVectorizer.RnNames | chronocache/src/main/java/chronocache/core/LateralUnionVectorizer.java:1287-1288 | one "rn<i>" name per index, in order |
| LateralUnionVectorizer.OnEqualities | chronocache/src/main/java/chronocache/core/LateralUnionVectorizer.java:829-837 | one "z<n1>.rn<i> = z<n2>.rn<n2>" equality per row-number index, in order |
| LateralUnionVectorizer.OnConditionStep | chronocache/src/main/java/chronocache/core/LateralUnionVectorizer.java:823-839 | each loop index adds its equality (after " OR " unless it is the first) exactly when it is 0 or odd, and nothing otherwise |
| LateralUnionVectorizer.GenerateZipperMergeTextHalf | chronocache/src/main/java/chronocache/core/LateralUnionVectorizer.java:811-841 | the loop builds "SELECT * FROM ( q1 ) z<n1> <join> ( q2 ) z<n2> ON" followed by the OR of the equalities |
| LateralUnionVectorizer.ZipperHalfOnClause | chronocache/src/main/java/chronocache/core/LateralUnionVectorizer.java:823-839 | the ON clause joins on rn<i> exactly for i < n2 that is 0 or odd, in both directions |
| LateralUnionVectorizer.AliasMatchFrom | chronocache/src/main/java/chronocache/core/LateralUnionVectorizer.java:787 | the first position at or after `from` where the key occurs not followed by '_', or none when there is no such position |
| LateralUnionVectorizer.ReplaceAlias | chronocache/src/main/java/chronocache/core/LateralUnionVectorizer.java:787 | the first occurrence of the key (read as literal text) that is not followed by `_` is replaced by val; with no such occurrence the text is unchanged |
| LateralUnionVectorizer.RewrittenConditions | chronocache/src/main/java/chronocache/core/LateralUnionVectorizer.java:778-789 | every ORDER BY condition with all aliases applied, one per condition, in order |
| LateralUnionVectorizer.RewriteCondition | chronocache/src/main/java/chronocache/core/LateralUnionVectorizer.java:781-789 | the nested loops over map entries and their values apply every alias replacement in order |
| LateralUnionVectorizer.AddRowNumberColToQueryString | chronocache/src/main/java/chronocache/core/LateralUnionVectorizer.java:769-805 | the query wrapped as "SELECT *, ROW_NUMBER() OVER (ORDER BY rewritten conditions) AS rn<n> FROM ( q ) k", with an empty window when there are no conditions |
| LateralUnionVectorizer.RowNumberTextExample | chronocache/src/main/java/chronocache/core/LateralUnionVectorizer.java:771-802 | a query without ORDER BY conditions gets "ROW_NUMBER() OVER ()" |
| LateralUnionVectorizer.ReplaceAliasExample | chronocache/src/main/java/chronocache/core/LateralUnionVectorizer.java:787 | an alias is substituted into "t2 ASC" but not into the already adjusted "t2_0 ASC" |
| LateralUnionVectorizer.ZipperMergeTwoQueries | chronocache/src/main/java/chronocache/core/LateralUnionVectorizer.java:846-861 | the LEFT JOIN half, " UNION " and the RIGHT JOIN half over q1 and q2 with its row number added |
| LateralUnionVectorizer.OnConditionFirstMerge | chronocache/src/main/java/chronocache/core/LateralUnionVectorizer.java:823-839 | the first merge at a level joins on z0.rn0 = z1.rn1 alone |
| LateralUnionVectorizer.OnConditionSecondMerge | chronocache/src/main/java/chronocache/core/LateralUnionVectorizer.java:823-839 | the second merge joins on rn0 OR rn1 of the merged pair |
| LateralUnionVectorizer.SelectItems | chronocache/src/main/java/chronocache/core/LateralUnionVectorizer.java:399-407 | one "P<level>.<col> AS ordKey<k>" item per column, numbered from 0 |
| LateralUnionVectorizer.AppendSelectItems | chronocache/src/main/java/chronocache/core/LateralUnionVectorizer.java:413-426 | continuing the item list over the candidate-key fields gives the comma-joined items of all columns |
| LateralUnionVectorizer.AddSelectClause | chronocache/src/main/java/chronocache/core/LateralUnionVectorizer.java:373-431 | the SELECT list of order keys then candidate keys then ", U.* ", the number of keys selected, and the directions collected in order |
| LateralUnionVectorizer.Repeat | chronocache/src/main/java/chronocache/core/LateralUnionVectorizer.java:461-463 | n copies of a piece have n times its length |
| LateralUnionVectorizer.UNames | chronocache/src/main/java/chronocache/core/LateralUnionVectorizer.java:499-502 | the U column names u0 .. u(n-1) in order |
| LateralUnionVectorizer.RepeatText | chronocache/src/main/java/chronocache/core/LateralUnionVectorizer.java:461-463 | the NULL-padding loop produces n copies of the piece |
| LateralUnionVectorizer.AddUTableClause | chronocache/src/main/java/chronocache/core/LateralUnionVectorizer.java:450-504 | the union U: the level row padded with one NULL per lower column, UNION ALL the lower rows padded with one NULL per column of this level, columns type<level>, u0..; the field total is lower plus outer columns |
| LateralUnionVectorizer.OrdKeyTerms | chronocache/src/main/java/chronocache/core/LateralUnionVectorizer.java:527-547 | one "ordKey<k>" term per key with " ASC"/" DESC" from the k-th collected direction, and no suffix past the directions |
| LateralUnionVectorizer.KeyInfos | chronocache/src/main/java/chronocache/core/LateralUnionVectorizer.java:536-546 | one info per key at position k, named ordKey<k>, with the k-th direction or DEFAULT when the directions run out |
| LateralUnionVectorizer.Shifted | chronocache/src/main/java/chronocache/core/LateralUnionVectorizer.java:581-585 | every lower info moved right by the offset, keeping its direction and name |
| LateralUnionVectorizer.OrderInfosPositions | chronocache/src/main/java/chronocache/core/LateralUnionVectorizer.java:572-591 | the infos passed up hold this level's keys and type at positions 0..n, then each lower info shifted by outer + n + 1 |
| LateralUnionVectorizer.AddOrderByInformation | chronocache/src/main/java/chronocache/core/LateralUnionVectorizer.java:510-592 | the ORDER BY text (keys, type<level>, shifted lower u-positions with their directions) and the infos passed up |
| LateralUnionVectorizer.OrdKeyClause | chronocache/src/main/java/chronocache/core/LateralUnionVectorizer.java:527-547 | the loop over the keys yields the joined key terms and their infos |
| LateralUnionVectorizer.LowerOrderClause | chronocache/src/main/java/chronocache/core/LateralUnionVectorizer.java:557-568 | the loop over the lower infos yields ", u<pos + outer>" terms and the shifted infos |
| LateralUnionVectorizer.LateralUnionLevel | chronocache/src/main/java/chronocache/core/LateralUnionVectorizer.java:671-711 | one non-bottom level wraps the lower levels' query in SELECT, P, LATERAL U and ORDER BY, has the lower count plus its own columns, keys and one more, and passes its own order infos ahead of the shifted lower ones |
| LateralUnionVectorizer.PlanCols | chronocache/src/main/java/chronocache/core/LateralUnionVectorizer.java:588-590 | one recorded column count per level from `level` down |
| LateralUnionVectorizer.PlanKeys | chronocache/src/main/java/chronocache/core/LateralUnionVectorizer.java:588-590 | one recorded key count per level from `level` down |
| LateralUnionVectorizer.PlanEntries | chronocache/src/main/java/chronocache/core/LateralUnionVectorizer.java:588-590 | the plan holds each level's column count and its key count (0 at the bottom) |
| LateralUnionVectorizer.VectorizeLevel | chronocache/src/main/java/chronocache/core/LateralUnionVectorizer.java:600-712 | the recursive vectorisation yields the level's query and records every level's column and key counts in the plan |
| LateralUnionVectorizer.PlanRow | chronocache/src/main/java/chronocache/core/LateralUnionVectorizer.java:699-701 | a level's counts go in front of those of the levels below it |
| LateralUnionVectorizer.BottomLevel | chronocache/src/main/java/chronocache/core/LateralUnionVectorizer.java:655-664 | the bottom level is its zipper-merged text as it is, with no keys |
| LateralUnionVectorizer.OrdKeyCols | chronocache/src/main/java/chronocache/core/LateralUnionVectorizer.java:610-620 | the ordKey columns of a level, numbered 0..n-1 |
| LateralUnionVectorizer.QueryCols | chronocache/src/main/java/chronocache/core/LateralUnionVectorizer.java:610-620 | the query columns of a level, numbered 0..n-1 |
| LateralUnionVectorizer.LayoutWidth | chronocache/src/main/java/chronocache/core/LateralUnionVectorizer.java:706-707 | the column count reported for a level equals the width of the column layout its SELECT list produces |
| LateralUnionVectorizer.LevelHead | chronocache/src/main/java/chronocache/core/LateralUnionVectorizer.java:610-620 | a level's layout starts with its keys and type column, then its own query columns |
| LateralUnionVectorizer.LayoutStep | chronocache/src/main/java/chronocache/core/LateralUnionVectorizer.java:610-620 | a level's layout is its head followed by the lower levels' layout |
| LateralUnionVectorizer.OrderPositionsInLayout | chronocache/src/main/java/chronocache/core/LateralUnionVectorizer.java:556-585 | every order position passed up lands inside the layout on a key, a type column or a bottom-query column |
| LateralUnionVectorizer.OrderPositionAt | chronocache/src/main/java/chronocache/core/LateralUnionVectorizer.java:572-585 | one order position of a level above the bottom lands on a sort column, given the claim for the level below |
| LateralUnionVectorizer.LayoutSuffix | chronocache/src/main/java/chronocache/core/LateralUnionVectorizer.java:1480-1505 | level l of the top query starts UBase(l) u-columns after the first u-column |
| LateralUnionVectorizer.TypeFieldIsTypeColumn | chronocache/src/main/java/chronocache/core/LateralUnionVectorizer.java:1487-1497 | the u-column the row decoder reads as a level's type field is the type column that level's SELECT list put there |
| LateralUnionVectorizer.DetermineWhichLevelIsInChargeOfRow | chronocache/src/main/java/chronocache/core/LateralUnionVectorizer.java:1465-1510 | the row belongs to the first inspected level whose type field is 0 (the bottom when none is), with base offset UBase of that level; a missing type field is an error |
| LateralUnionVectorizer.Project | chronocache/src/main/java/chronocache/core/LateralUnionVectorizer.java:1621-1631 | the parts of the rows that belong to one query, in row order |
| LateralUnionVectorizer.Flushes | chronocache/src/main/java/chronocache/core/LateralUnionVectorizer.java:1609-1619 | a query's ongoing set is closed at most once per row after the first |
| LateralUnionVectorizer.FlushAbove | chronocache/src/main/java/chronocache/core/LateralUnionVectorizer.java:1610-1619 | the sets of queries above the row's level (and within the height) are closed and restarted; the others are untouched |
| LateralUnionVectorizer.AddParts | chronocache/src/main/java/chronocache/core/LateralUnionVectorizer.java:1621-1631 | each query's part of the row is appended to its ongoing set; the others are untouched |
| LateralUnionVectorizer.SplitSets | chronocache/src/main/java/chronocache/core/LateralUnionVectorizer.java:1598-1645 | the reference split of one query's rows: there is always at least one set; a row at or above the previous row's level and below the query's level closes the current set, and each row's part joins the current set |
| LateralUnionVectorizer.SplitSetsFlatten | chronocache/src/main/java/chronocache/core/LateralUnionVectorizer.java:1598-1645 | the reference sets laid end to end are the query's parts of the rows, in row order |
| LateralUnionVectorizer.SplitSetsCount | chronocache/src/main/java/chronocache/core/LateralUnionVectorizer.java:1598-1645 | there is one more reference set than there are rows that close one |
| LateralUnionVectorizer.SplitRow | chronocache/src/main/java/chronocache/core/LateralUnionVectorizer.java:1600-1633 | after one more row, every query's closed sets followed by its ongoing one are its reference split of the rows read so far |
| LateralUnionVectorizer.SplitApartResultSet | chronocache/src/main/java/chronocache/core/LateralUnionVectorizer.java:1536-1661 | a single-query plan gets the combined set as is; otherwise each query's result sets are exactly its reference split, with every boundary at a closing row, so they concatenate to its projection of the rows and number one more than its flushes |
| LateralUnionVectorizer.CloseAll | chronocache/src/main/java/chronocache/core/LateralUnionVectorizer.java:1640-1645 | the final flush closes every ongoing set: each query's sets are its closed ones followed by its ongoing one, so no row is lost |
| LateralUnionVectorizer.AddAlias | chronocache/src/main/java/chronocache/core/LateralUnionVectorizer.java:1181-1186 | appends an alias to the list of one key; every other key's list is unchanged |
| LateralUnionVectorizer.ColumnAliasesMapLookup | chronocache/src/main/java/chronocache/core/LateralUnionVectorizer.java:1004-1023 | the map lists, for every column name, exactly the aliases given to it, in order |
| LateralUnionVectorizer.BuildColumnAliasesMap | chronocache/src/main/java/chronocache/core/LateralUnionVectorizer.java:1004-1023 | the loop builds the column-to-aliases map with the lookup property above |
| LateralUnionVectorizer.SelectedColsContains | chronocache/src/main/java/chronocache/core/LateralUnionVectorizer.java:346-366 | the column's position in the select list, else its alias position, and None (the source's -1) exactly when it is neither selected nor aliased |
| LateralUnionVectorizer.GetOrderTypeInfosFromOrigQuery | chronocache/src/main/java/chronocache/core/LateralUnionVectorizer.java:963-994 | one info per ORDER BY condition, with its column, direction and select-list position; an unselected column is the IllegalArgumentException |
| LateralUnionVectorizer.PositionedInfos | chronocache/src/main/java/chronocache/core/LateralUnionVectorizer.java:974-990 | the infos for the columns in order, or the first column that is not selected |
| LateralUnionVectorizer.UniqueName | chronocache/src/main/java/chronocache/core/LateralUnionVectorizer.java:1173-1175 | appending "_0" until the name is new yields the first free name |
| LateralUnionVectorizer.FirstFreeUnique | chronocache/src/main/java/chronocache/core/LateralUnionVectorizer.java:1173-1175 | the first free name is unique |
| LateralUnionVectorizer.LaterNames | chronocache/src/main/java/chronocache/core/LateralUnionVectorizer.java:1166-1169 | a later query's column names, one per selected column |
| LateralUnionVectorizer.FirstNames | chronocache/src/main/java/chronocache/core/LateralUnionVectorizer.java:1126-1137 | the first query's names: each column's alias or the column itself |
| LateralUnionVectorizer.Adjustments | chronocache/src/main/java/chronocache/core/LateralUnionVectorizer.java:1176-1190 | one adjustment per column: the new name or none |
| LateralUnionVectorizer.RenamedNamesFresh | chronocache/src/main/java/chronocache/core/LateralUnionVectorizer.java:1173-1193 | renamed names are distinct from the names collected before and from each other |
| LateralUnionVectorizer.RenameColumns | chronocache/src/main/java/chronocache/core/LateralUnionVectorizer.java:1160-1196 | every column gets its first free name against the names collected so far; the adjustment list and map record exactly the renamed columns, and needToAdjust is set exactly when a name changed |
| LateralUnionVectorizer.RenameStep | chronocache/src/main/java/chronocache/core/LateralUnionVectorizer.java:1166-1194 | one more column keeps the renaming, the adjustment list, the adjustment map and the flag in step |
| LateralUnionVectorizer.WeightedDoubles | chronocache/src/main/java/chronocache/core/LateralUnionVectorizer.java:1246-1257 | every further merge doubles the copies of every earlier query's constants |
| LateralUnionVectorizer.ConstantsClosedForm | chronocache/src/main/java/chronocache/core/LateralUnionVectorizer.java:1246-1257 | after k merges the constant count is the first query's constants times 2^(k-1) plus query i's times 2^(k-i) |
| LateralUnionVectorizer.RnIndicesOfMerge | chronocache/src/main/java/chronocache/core/LateralUnionVectorizer.java:1278-1289 | with k merged queries the row-number columns ordered by are rn0, rn1, rn3, ..., one per query |
| LateralUnionVectorizer.OrderByRowNumbers | chronocache/src/main/java/chronocache/core/LateralUnionVectorizer.java:1278-1289 | the ORDER BY loop lists rn0 and every odd rn below the query number, comma separated |
| LateralUnionVectorizer.LevelOrderKeys | chronocache/src/main/java/chronocache/core/LateralUnionVectorizer.java:1306-1333 | query q's order key is its rn column, placed after the columns of queries 0..q and the q rn columns before it |
| LateralUnionVectorizer.LevelCandidateKeys | chronocache/src/main/java/chronocache/core/LateralUnionVectorizer.java:1339-1348 | one candidate-key field per merged query |
| LateralUnionVectorizer.ZipperOrderInfos | chronocache/src/main/java/chronocache/core/LateralUnionVectorizer.java:1306-1333 | the loop yields the order keys above and a column count equal to the columns of all queries plus one rn each |
| LateralUnionVectorizer.ZipperPositionsIncrease | chronocache/src/main/java/chronocache/core/LateralUnionVectorizer.java:1323-1325 | the rn positions strictly increase and all lie before the column count |
| LateralUnionVectorizer.CandidateKeyFields | chronocache/src/main/java/chronocache/core/LateralUnionVectorizer.java:1339-1348 | the ckFields loop names rn0, rn1, rn3, ..., the same rn columns the ORDER BY lists |
| LateralUnionVectorizer.NameChainAt | chronocache/src/main/java/chronocache/core/LateralUnionVectorizer.java:1141-1196 | each later query was renamed against the first query's names and all earlier segments |
| LateralUnionVectorizer.MergedTextStep | chronocache/src/main/java/chronocache/core/LateralUnionVectorizer.java:1228 | merging one more query zipper-merges the text so far with that query's (renamed) text, numbers 2(k-1) and 2(k-1)+1 |
| LateralUnionVectorizer.MergeNextQuery | chronocache/src/main/java/chronocache/core/LateralUnionVectorizer.java:1141-1228 | one later query is renamed against the names collected so far and merged into the text |
| LateralUnionVectorizer.MergeFirstQuery | chronocache/src/main/java/chronocache/core/LateralUnionVectorizer.java:1101-1137 | the first query is wrapped with rn0 and its names collected; the constant count and offset start at its constants |
| LateralUnionVectorizer.MergeStateExtend | chronocache/src/main/java/chronocache/core/LateralUnionVectorizer.java:1141-1269 | merging query k moves the loop state from k to k+1 |
| LateralUnionVectorizer.CountMergedConstants | chronocache/src/main/java/chronocache/core/LateralUnionVectorizer.java:1246-1257 | the constant count and the mapping offset both take in the query's constants and double |
| LateralUnionVectorizer.MergeLoopStep | chronocache/src/main/java/chronocache/core/LateralUnionVectorizer.java:1141-1269 | one turn of the merge loop keeps the state and the counters |
| LateralUnionVectorizer.ZipperMergeMany | chronocache/src/main/java/chronocache/core/LateralUnionVectorizer.java:1094-1292 | two or more queries: every later query is renamed away from all names so far, the text is followed by ORDER BY over the rn columns, constants are counted, one alias map per later query |
| LateralUnionVectorizer.MergeQueries | chronocache/src/main/java/chronocache/core/LateralUnionVectorizer.java:1141-1269 | the merge loop over the later queries ends in the state for all queries |
| LateralUnionVectorizer.NumColsOf | chronocache/src/main/java/chronocache/core/LateralUnionVectorizer.java:1313-1323 | one column count per query |
| LateralUnionVectorizer.ZipperMergeSingle | chronocache/src/main/java/chronocache/core/LateralUnionVectorizer.java:1042-1092 | one query is passed through rewritten with rn0 added: one more column, ckFields ["rn0"], its own ORDER BY infos, or the error for an unselected column |
| LateralUnionVectorizer.ZipperMergeSeveral | chronocache/src/main/java/chronocache/core/LateralUnionVectorizer.java:1094-1353 | several queries: the rewritten merged text ordered by rn columns, candidate keys, column count and order keys as stated above |
| LateralUnionVectorizer.ZipperKeys | chronocache/src/main/java/chronocache/core/LateralUnionVectorizer.java:1306-1348 | the order keys, candidate keys and column count of a merged level |
| MarkovGraph.WithNodeSpec | chronocache/src/main/java/chronocache/core/MarkovGraph.java:93-101 | looking up or adding a node adds exactly that id to the table; an absent id gets a fresh node with zero hits; every other entry is unchanged |
| MarkovGraph.WithNodeIdempotent | chronocache/src/main/java/chronocache/core/MarkovGraph.java:93-101 | adding the same id twice leaves the table as adding it once |
| MarkovGraph.MarkovGraph.constructor | chronocache/src/main/java/chronocache/core/MarkovGraph.java:58-62 | a new graph has an empty node table, zero hits and the given client id |
| MarkovGraph.MarkovGraph.IncreaseHitCounter | chronocache/src/main/java/chronocache/core/MarkovGraph.java:78-80 | the hit count goes up by exactly one and the node table is unchanged |
| MarkovGraph.MarkovGraph.GetOrAddNode | chronocache/src/main/java/chronocache/core/MarkovGraph.java:93-101 | the returned node is the table's entry for the id; a known id returns its existing node; the table becomes the table with that node added |
| MarkovGraph.MarkovGraph.NodeHits | chronocache/src/main/java/chronocache/core/MarkovGraph.java:106-111 | an unknown query has zero hits; a known one has its node's hit count |
| MarkovGraph.MarkovGraph.RelatedOutQueries | chronocache/src/main/java/chronocache/core/MarkovGraph.java:117-124 | an unknown query has no related queries; every related query is a vertex the search can reach |
| MarkovGraph.PopComponent | chronocache/src/main/java/chronocache/core/MarkovGraph.java:483-496 | popping a root's component appends exactly one component and keeps the earlier ones; popping the start's frame puts the start in that component; the numbering is kept |
| MarkovGraph.MarkovGraph.StronglyConnected | chronocache/src/main/java/chronocache/core/MarkovGraph.java:445-497 | visiting a vertex numbers it, keeps every earlier number, keeps the numbering facts of Tarjan's search (start numbered 1, lowlink between 1 and the number), and the outermost call ends with a component holding the start |
| MarkovGraph.MarkovGraph.FindScc | chronocache/src/main/java/chronocache/core/MarkovGraph.java:501-522 | the component returned always contains the starting query |
| MarkovGraph.MarkovGraph.PriorEntriesByPosition | chronocache/src/main/java/chronocache/core/MarkovGraph.java:378-385 | an unknown query has no prior mapping entries |
| MarkovGraph.MarkovGraph.PriorQueryMappings | chronocache/src/main/java/chronocache/core/MarkovGraph.java:354-361 | an unknown query has no prior query mappings |
| MarkovGraph.MarkovGraph.ConfigurationTailsKnown | chronocache/src/main/java/chronocache/core/MarkovGraph.java:680-684 | every tail query a configuration recurses into is a query the graph knows, which bounds the recursion |
| MarkovGraph.MarkovGraph.ConstructFdqDependencyGraphs | chronocache/src/main/java/chronocache/core/MarkovGraph.java:611-734 | a query already on the context stack is an error naming that query ("Not a DAG"); a normal return pops the query, leaving the stack as it was, and yields at least one graph |
| MarkovGraph.MarkovGraph.ConstructNewFdqs | chronocache/src/main/java/chronocache/core/MarkovGraph.java:736-773 | more parameters than distinct mapped positions gives no graphs; otherwise a successful walk gives at least one |
| MarkovGraph.ParamPairingsMembers | chronocache/src/main/java/chronocache/core/MarkovGraph.java:326-337 | input i is paired with column c exactly when the row has column c and its value's text equals the parameter bare or in single quotes; NULL never matches |
| MarkovGraph.RowPairingsMembers | chronocache/src/main/java/chronocache/core/MarkovGraph.java:322-338 | the pairings of a row are exactly the (input index, column) pairs whose value matches that input |
| MarkovGraph.RowsToCheckSpec | chronocache/src/main/java/chronocache/core/MarkovGraph.java:308-316 | the rows tried are lastPos+1, lastPos+2, ... while in bounds and fewer than nine, then row 0 last |
| MarkovGraph.FirstPairingSpec | chronocache/src/main/java/chronocache/core/MarkovGraph.java:321-343 | the result is the pairing of the first row tried whose pairing is non-empty, reporting that row; when every row pairs nothing the result is empty with no row |
| MarkovGraph.PairRow | chronocache/src/main/java/chronocache/core/MarkovGraph.java:322-338 | the loop over inputs computes exactly the row's pairings |
| MarkovGraph.PairParam | chronocache/src/main/java/chronocache/core/MarkovGraph.java:326-337 | the loop over a row's columns computes exactly one input's pairings |
| MarkovGraph.FindMappingsBetweenOutputInputSets | chronocache/src/main/java/chronocache/core/MarkovGraph.java:297-349 | a non-select result, missing inputs or an empty result give no pairings and no mapped row; otherwise the result is the first non-empty pairing over the rows to check, with the row to record as last mapped |
| MarkovGraph.MergedPairsMembers | chronocache/src/main/java/chronocache/core/MarkovGraph.java:544-552 | a (position, column) pair is merged exactly when some prior query's mappings hold it |
| MarkovGraph.MergeResultSetMappings | chronocache/src/main/java/chronocache/core/MarkovGraph.java:544-552 | the loop computes the set union of all prior mappings, so duplicates collapse |
| MarkovGraph.FilterMappings | chronocache/src/main/java/chronocache/core/MarkovGraph.java:528-538 | exactly the entries with a non-empty mapping are kept, each unchanged |
| MarkovGraph.Singletons | chronocache/src/main/java/chronocache/core/MarkovGraph.java:595-605 | there is one singleton per prior entry |
| MarkovGraph.SingletonsSpec | chronocache/src/main/java/chronocache/core/MarkovGraph.java:595-605 | each entry becomes a one-element point under the same position, and the count per position is preserved |
| MarkovGraph.GenerateSingletonValues | chronocache/src/main/java/chronocache/core/MarkovGraph.java:595-605 | the loop builds exactly the singletons of the prior entries |
| MarkovGraph.CrossProductOf | chronocache/src/main/java/chronocache/core/MarkovGraph.java:567-573 | when either side is empty the other side is returned |
| MarkovGraph.CrossLength | chronocache/src/main/java/chronocache/core/MarkovGraph.java:576-586 | the cross product of two non-empty sides has one point per pair |
| MarkovGraph.CrossAt | chronocache/src/main/java/chronocache/core/MarkovGraph.java:576-586 | point i times the length of the second side plus j is the i-th first point followed by the j-th second point, so the order is first-side-major |
| MarkovGraph.CrossMember | chronocache/src/main/java/chronocache/core/MarkovGraph.java:576-586 | every point of the cross product is some first point followed by some second point |
| MarkovGraph.CrossProduct | chronocache/src/main/java/chronocache/core/MarkovGraph.java:560-589 | the nested loops compute the cross product, including the empty-side cases |
| MarkovGraph.ValuesAt | chronocache/src/main/java/chronocache/core/MarkovGraph.java:636-638 | the values under a position are as many as the entries with that position |
| MarkovGraph.ValuesAtMember | chronocache/src/main/java/chronocache/core/MarkovGraph.java:636-638 | a value is listed under a position exactly when that pair is an entry |
| MarkovGraph.PositionKeysSpec | chronocache/src/main/java/chronocache/core/MarkovGraph.java:636-638 | the positions iterated are exactly those with an entry, each once |
| MarkovGraph.PositionKeysHaveValues | chronocache/src/main/java/chronocache/core/MarkovGraph.java:636-638 | every position iterated has at least one value |
| MarkovGraph.ConfigurationsCount | chronocache/src/main/java/chronocache/core/MarkovGraph.java:635-638 | with at least one position, the number of configurations is the product of the option counts and is positive |
| MarkovGraph.ConfigurationsPick | chronocache/src/main/java/chronocache/core/MarkovGraph.java:635-638 | every configuration picks one option for each position, in position order |
| MarkovGraph.MappingConfigurations | chronocache/src/main/java/chronocache/core/MarkovGraph.java:632-638 | the loop of cross products computes the configurations over the positions in order |
| MarkovGraph.PriorConfigurationCount | chronocache/src/main/java/chronocache/core/MarkovGraph.java:632-638 | a query with prior mapping entries has a positive number of configurations, the product of the entries per position |
| MarkovGraph.PriorConfigurations | chronocache/src/main/java/chronocache/core/MarkovGraph.java:629-638 | every configuration has one mapping entry per position, each filed under that position |
| MarkovEngine2.HasIntersection | chronocache/src/main/java/chronocache/core/MarkovEngine2.java:239-246 | true exactly when some element of the first set is in the second |
| MarkovEngine2.GetSlotNumber | chronocache/src/main/java/chronocache/core/MarkovEngine2.java:297-306 | the index of the first element that is the same object as the query id, or -1 exactly when no element is |
| MarkovEngine2.SingleOptionExtend | chronocache/src/main/java/chronocache/core/MarkovEngine2.java:598-601 | a position with a single option appends it to every permutation and leaves the count unchanged |
| MarkovEngine2.ExtendLength | chronocache/src/main/java/chronocache/core/MarkovEngine2.java:602-613 | extending by a position multiplies the number of permutations by its option count |
| MarkovEngine2.ExtendMember | chronocache/src/main/java/chronocache/core/MarkovEngine2.java:602-613 | every extended permutation is an earlier permutation followed by one option |
| MarkovEngine2.ExtendComplete | chronocache/src/main/java/chronocache/core/MarkovEngine2.java:602-613 | every earlier permutation followed by every option is among the extended permutations |
| MarkovEngine2.FoldLength | chronocache/src/main/java/chronocache/core/MarkovEngine2.java:578-616 | the number of permutations is the product of the option counts |
| MarkovEngine2.FoldSound | chronocache/src/main/java/chronocache/core/MarkovEngine2.java:578-616 | every permutation has one entry per position, entry k taken from option set k |
| MarkovEngine2.FoldComplete | chronocache/src/main/java/chronocache/core/MarkovEngine2.java:578-616 | every choice of one option per position is a permutation |
| MarkovEngine2.FirstPosition | chronocache/src/main/java/chronocache/core/MarkovEngine2.java:579-585 | the first position yields one single-entry permutation per option |
| MarkovEngine2.ExtendByOptions | chronocache/src/main/java/chronocache/core/MarkovEngine2.java:602-613 | the nested loops build exactly the extension: each option appended to a copy of each permutation, option-major |
| MarkovEngine2.GetAllConstantPermutations | chronocache/src/main/java/chronocache/core/MarkovEngine2.java:564-617 | the result is the permutations of the constants: empty input gives no permutations |
| MarkovEngine2.PermutationsSpec | chronocache/src/main/java/chronocache/core/MarkovEngine2.java:564-617 | for a non-empty input the count is the product of the option counts, and a list is a permutation exactly when it picks one option from each position in order |
| MarkovEngine2.MeanStep | chronocache/src/main/java/chronocache/core/MarkovEngine2.java:715-716 | the running-average update of the mean of the earlier times gives the mean of all times |
| MarkovEngine2.TrackExample | chronocache/src/main/java/chronocache/core/MarkovEngine2.java:706-721 | response times 1000 then 2000 give a count of 2 and an average of 1500 |
| MarkovEngine2.TrackKeepsAverages | chronocache/src/main/java/chronocache/core/MarkovEngine2.java:706-721 | after tracking a response time each query's count is the number of times seen and its average is their mean |
| MarkovEngine2.Engine.constructor | chronocache/src/main/java/chronocache/core/MarkovEngine2.java:79-95 | a new engine has empty client, stream, dependency, always-defined, count and average tables |
| MarkovEngine2.Engine.AddAverageTrackingInfo | chronocache/src/main/java/chronocache/core/MarkovEngine2.java:706-721 | the count and average tables become the tracked ones, every average stays the mean of the times seen for that query, and nothing else changes |
| MarkovEngine2.Engine.UpdateAverages | chronocache/src/main/java/chronocache/core/MarkovEngine2.java:709-720 | a first sighting records count 1 and the time itself; a later one increments the count and folds the time into the average |
| MarkovEngine2.Engine.RegisterNewClient | chronocache/src/main/java/chronocache/core/MarkovEngine2.java:893-905 | a known client changes nothing; a new one gets exactly one model, its streams and an empty dependency table |
| MarkovEngine2.Engine.GetImportantQueries | chronocache/src/main/java/chronocache/core/MarkovEngine2.java:531-553 | a missing graph or a missing average is an error; otherwise the result is exactly the always-defined queries whose average response time times probability exceeds the threshold |
| MarkovEngine2.TryGetRequiredData | chronocache/src/main/java/chronocache/core/MarkovEngine2.java:622-638 | on success one constant per distinct mapped index, constant k taken from index k's mappings; the error names the first index with no mapping or no data |
| MarkovEngine2.RequiredDataIndexes | chronocache/src/main/java/chronocache/core/MarkovEngine2.java:623-624 | when exactly the indexes below k are mapped, there are k distinct keys and each has a mapping |
| WriteAheadLog.IntToBytes | sys/src/main/java/shield/proxy/oram/recover/WriteAheadLog.java:348-350 | an int is encoded as exactly four bytes |
| WriteAheadLog.BytesToInt | sys/src/main/java/shield/proxy/oram/recover/WriteAheadLog.java:594-596 | four bytes decode to a 32-bit int |
| WriteAheadLog.IntBytesRoundTrip | sys/src/main/java/shield/proxy/oram/recover/WriteAheadLog.java:594-596 | decoding the four-byte encoding of an int gives the int back |
| WriteAheadLog.JavaRem | sys/src/main/java/shield/proxy/oram/recover/WriteAheadLog.java:357-365 | Java's remainder: the Euclidean remainder for a non-negative dividend, and between -f and 0 for a negative one |
| WriteAheadLog.CheckpointIsLatestFullWrite | sys/src/main/java/shield/proxy/oram/recover/WriteAheadLog.java:357-365 | for 0 <= c < f the last checkpoint lies between 0 and the epoch, is congruent to c when positive, is an epoch whose map was written in full, and no later epoch before the current one writes that map in full |
| WriteAheadLog.MaskingAgrees | sys/src/main/java/shield/proxy/oram/recover/WriteAheadLog.java:807-914 | recovery unmasks exactly the maps whose chunks were masked when written (position, stale and permutation maps; not the valid and early-reshuffle maps) |
| WriteAheadLog.Chunks | sys/src/main/java/shield/proxy/oram/recover/WriteAheadLog.java:567-575 | every chunk holds between one and stride bytes |
| WriteAheadLog.ChunksRejoin | sys/src/main/java/shield/proxy/oram/recover/WriteAheadLog.java:955-971 | concatenating the chunks in order rebuilds the data |
| WriteAheadLog.ChunksCount | sys/src/main/java/shield/proxy/oram/recover/WriteAheadLog.java:557-560 | there are ceil(len / stride) chunks |
| WriteAheadLog.ChunkAt | sys/src/main/java/shield/proxy/oram/recover/WriteAheadLog.java:567-575 | chunk i is data[i*stride .. min((i+1)*stride, len)] |
| WriteAheadLog.StrideWrites | sys/src/main/java/shield/proxy/oram/recover/WriteAheadLog.java:553-587 | the writes are the header under the key followed by chunk i under sub-key i, and the completion total is one more than the number of chunks |
| WriteAheadLog.WriteChunks | sys/src/main/java/shield/proxy/oram/recover/WriteAheadLog.java:567-575 | the chunk loop writes exactly chunk i under sub-key i |
| WriteAheadLog.HeaderOvercounts | sys/src/main/java/shield/proxy/oram/recover/WriteAheadLog.java:560-567 | the header len/stride + 1 equals the number of chunks unless len is a multiple of stride, where it is one more |
| WriteAheadLog.EmptyBlobReadsUnwrittenChunk | sys/src/main/java/shield/proxy/oram/recover/WriteAheadLog.java:726-729 | for an empty blob the header makes recovery read chunk key 0, which no write produced |
| WriteAheadLog.ChunkCountReadsWrittenChunks | sys/src/main/java/shield/proxy/oram/recover/WriteAheadLog.java:726-729 | with a header of ceil(len / stride) recovery reads exactly the chunk keys written, in order |
| WriteAheadLog.Concatenate | sys/src/main/java/shield/proxy/oram/recover/WriteAheadLog.java:955-971 | an empty range gives no bytes; otherwise the data items from start to end are joined in order |
| WriteAheadLog.Values | sys/src/main/java/shield/proxy/oram/recover/WriteAheadLog.java:955-971 | one value per write |
| WriteAheadLog.StrideRoundTrip | sys/src/main/java/shield/proxy/oram/recover/WriteAheadLog.java:553-587 | the chunk values of a strided write, joined in order, rebuild the data |
| WriteAheadLog.CompletionCounter.constructor | sys/src/main/java/shield/proxy/oram/recover/WriteAheadLog.java:561-562 | a new counter has no completions and has not run the callback |
| WriteAheadLog.CompletionCounter.OnFinished | sys/src/main/java/shield/proxy/oram/recover/WriteAheadLog.java:563-567 | each completion counts once and the callback runs exactly on the total-th completion, so at most once |
| WriteAheadLog.StoredEpoch | sys/src/main/java/shield/proxy/oram/recover/WriteAheadLog.java:589-601 | the decoding as written, without unmasking: a missing or empty stored value gives -1; too short a value is an error; otherwise the decoded 32-bit int |
| WriteAheadLog.StoredEpochRoundTrip | sys/src/main/java/shield/proxy/oram/recover/WriteAheadLog.java:465-468 | an epoch's four bytes, stored as they are (an identity mask), decode back to that epoch |
| WriteAheadLog.MaskedEpochRecord | sys/src/main/java/shield/proxy/oram/recover/WriteAheadLog.java:459-468 | the epoch record is the epoch's bytes passed through the mask of its key (`PrepareRecoveryDataTask` is created with masking on, and the write task masks at lines 514-516); under a mask that leaves them alone it is the bytes themselves |
| WriteAheadLog.MaskedEpochMisreadAsWritten | sys/src/main/java/shield/proxy/oram/recover/WriteAheadLog.java:589-596 | as written, the record of epoch 0 written through a self-inverse mask decodes as -1 when read back without unmasking |
| WriteAheadLog.StoredEpochUnmasked | sys/src/main/java/shield/proxy/oram/recover/WriteAheadLog.java:589-601 | the corrected decoding: missing or empty gives -1; otherwise the unmasked value decoded as by the source |
| WriteAheadLog.StoredEpochUnmaskedRoundTrip | sys/src/main/java/shield/proxy/oram/recover/WriteAheadLog.java:589-596 | for every length-keeping mask that undoes itself, the masked record of an epoch, unmasked and decoded, is that epoch |
| WriteAheadLog.MapRange | sys/src/main/java/shield/proxy/oram/recover/WriteAheadLog.java:648-651 | a map's key range has one key per epoch in the range |
| WriteAheadLog.BatchKeys | sys/src/main/java/shield/proxy/oram/recover/WriteAheadLog.java:630-632 | the batch has one logical-access key per slot, all of the given epoch |
| WriteAheadLog.MapBlocksAt | sys/src/main/java/shield/proxy/oram/recover/WriteAheadLog.java:642-691 | within the map blocks, map k's j-th key is its key for epoch checkpoint + j |
| WriteAheadLog.RecoveryLayout | sys/src/main/java/shield/proxy/oram/recover/WriteAheadLog.java:624-691 | recovery reads the evicted-path count at 0, the batch's logical-access keys of the next epoch at 1..B, the stash at B+1, then each map's keys from its last checkpoint up to the epoch |
| WriteAheadLog.MapBlocksStep | sys/src/main/java/shield/proxy/oram/recover/WriteAheadLog.java:642-691 | the map blocks are one map's key range followed by the other maps' blocks |
| WriteAheadLog.MapBlocksMember | sys/src/main/java/shield/proxy/oram/recover/WriteAheadLog.java:642-691 | every map block is a map key between that map's last checkpoint and the epoch |
| WriteAheadLog.DeleteBlocksStep | sys/src/main/java/shield/proxy/oram/recover/WriteAheadLog.java:416-454 | a map's old keys are deleted only when its checkpoint is the current epoch, and then from the previous checkpoint up to the epoch before |
| WriteAheadLog.DeleteBlocksMember | sys/src/main/java/shield/proxy/oram/recover/WriteAheadLog.java:416-454 | every deleted map key is older than the epoch, which is that map's checkpoint |
| WriteAheadLog.RecoveryKeysMember | sys/src/main/java/shield/proxy/oram/recover/WriteAheadLog.java:624-691 | every recovery key is the evicted-path count, a logical access of the next epoch, the stash, or a map key from its last checkpoint on |
| WriteAheadLog.DeleteKeysMember | sys/src/main/java/shield/proxy/oram/recover/WriteAheadLog.java:407-456 | every deleted key is a logical access of the epoch, the previous stash, or a superseded map key |
| WriteAheadLog.DeletesSpareRecovery | sys/src/main/java/shield/proxy/oram/recover/WriteAheadLog.java:407-456 | deleting the previous epoch's data never deletes a key recovery from that epoch reads |
| WriteAheadLog.Log.constructor | sys/src/main/java/shield/proxy/oram/recover/WriteAheadLog.java:67-93 | a new log starts at epoch 0 with read-path index 0 |
| WriteAheadLog.Log.GetKeyForNextReadPath | sys/src/main/java/shield/proxy/oram/recover/WriteAheadLog.java:483-485 | the key is the one at the current index of the next epoch, it was not handed out before in this epoch, and the index increments |
| WriteAheadLog.Log.WriteMap | sys/src/main/java/shield/proxy/oram/recover/WriteAheadLog.java:126-141 | a map is written in full exactly when no epoch completed yet or the next epoch's remainder is its checkpoint offset, otherwise its diff, strided under the next epoch's key |
| WriteAheadLog.Log.WriteStash | sys/src/main/java/shield/proxy/oram/recover/WriteAheadLog.java:196-221 | the stash is written strided under the next epoch's key |
| WriteAheadLog.Log.WriteEvictedPathCount | sys/src/main/java/shield/proxy/oram/recover/WriteAheadLog.java:338-355 | the evicted-path count is written as four bytes under the next epoch's key, unstrided |
| WriteAheadLog.Log.WriteEpochComplete | sys/src/main/java/shield/proxy/oram/recover/WriteAheadLog.java:458-470 | the write goes to the last-completed-epoch key and holds the next epoch's bytes masked; unmasked it reads back as the next epoch, and under an identity mask it also reads back so without unmasking |
| WriteAheadLog.Log.OnEpochLogged | sys/src/main/java/shield/proxy/oram/recover/WriteAheadLog.java:473-479 | completing an epoch increments the epoch by one, resets the read-path index and deletes the previous epoch's data |
| WriteAheadLog.Log.AppendMapRange | sys/src/main/java/shield/proxy/oram/recover/WriteAheadLog.java:648-651 | the loop appends exactly a map's key range |
| WriteAheadLog.Log.AppendBatchKeys | sys/src/main/java/shield/proxy/oram/recover/WriteAheadLog.java:630-632 | the loop appends exactly the batch's logical-access keys |
| WriteAheadLog.Log.AppendDeleteBlocks | sys/src/main/java/shield/proxy/oram/recover/WriteAheadLog.java:416-454 | the loop appends exactly the superseded map keys |
| WriteAheadLog.Log.AppendMapBlocks | sys/src/main/java/shield/proxy/oram/recover/WriteAheadLog.java:642-691 | the loop appends exactly each map's keys from its checkpoint up to the epoch |
| WriteAheadLog.Log.DeletePreviousEpochData | sys/src/main/java/shield/proxy/oram/recover/WriteAheadLog.java:407-456 | the deletes are exactly the previous epoch's logical accesses, stash and superseded map keys |
| WriteAheadLog.Log.ReadLastCompletedEpoch | sys/src/main/java/shield/proxy/oram/recover/WriteAheadLog.java:589-601 | the epoch becomes the stored epoch, unmasked as corrected (-1 when missing or empty), and stays when the stored value cannot be decoded |
| WriteAheadLog.Log.RecoveryReadKeys | sys/src/main/java/shield/proxy/oram/recover/WriteAheadLog.java:620-691 | with a completed epoch the keys are the recovery layout; with none (-1) nothing is read |
| RedisPostgresClient.Insert | sys/src/main/java/shield/client/RedisPostgresClient.java:70-77 | inserting a set into a frequency-sorted list adds exactly that set |
| RedisPostgresClient.SortDesc | sys/src/main/java/shield/client/RedisPostgresClient.java:70-77 | sorting by frequency keeps exactly the same sets (a permutation) |
| RedisPostgresClient.InsertSorted | sys/src/main/java/shield/client/RedisPostgresClient.java:70-77 | inserting into a list sorted by descending frequency keeps it sorted |
| RedisPostgresClient.SortDescSorted | sys/src/main/java/shield/client/RedisPostgresClient.java:70-77 | the sorted list is in descending order of frequency |
| RedisPostgresClient.SumFreqInsert | sys/src/main/java/shield/client/RedisPostgresClient.java:70-77 | inserting a set adds its frequency to the total |
| RedisPostgresClient.SumFreqSort | sys/src/main/java/shield/client/RedisPostgresClient.java:70-77 | sorting keeps the total frequency |
| RedisPostgresClient.SumFreqUpdate | sys/src/main/java/shield/client/RedisPostgresClient.java:68-71 | replacing one set changes the total by the difference of frequencies |
| RedisPostgresClient.SumFreqAppend | sys/src/main/java/shield/client/RedisPostgresClient.java:75-77 | appending a set adds its frequency to the total |
| RedisPostgresClient.SortKeepsPositive | sys/src/main/java/shield/client/RedisPostgresClient.java:70-77 | sorting keeps every frequency positive |
| RedisPostgresClient.FindFrom | sys/src/main/java/shield/client/RedisPostgresClient.java:67-73 | the search finds the first set whose keys equal the layer's keys, or reports that none does |
| RedisPostgresClient.Bumped | sys/src/main/java/shield/client/RedisPostgresClient.java:68-71 | bumping a set keeps the number of sets |
| RedisPostgresClient.Appended | sys/src/main/java/shield/client/RedisPostgresClient.java:75-77 | appending a new set adds exactly one set |
| RedisPostgresClient.BumpKeepsTable | sys/src/main/java/shield/client/RedisPostgresClient.java:68-71 | bumping the matching set adds one to the total, and the list stays sorted and positive |
| RedisPostgresClient.AppendKeepsTable | sys/src/main/java/shield/client/RedisPostgresClient.java:75-77 | adding a new set with frequency 1 adds one to the total, and the list stays sorted and positive |
| RedisPostgresClient.ObservedSpec | sys/src/main/java/shield/client/RedisPostgresClient.java:65-83 | an observation adds exactly one to the sum of frequencies, and the sets stay sorted by descending frequency and positive |
| RedisPostgresClient.ObservedFound | sys/src/main/java/shield/client/RedisPostgresClient.java:67-73 | when the layer's keys are already a set, that set's frequency goes up by one and nothing else changes |
| RedisPostgresClient.ObservedNew | sys/src/main/java/shield/client/RedisPostgresClient.java:75-77 | when the layer's keys are new, exactly one set with frequency 1 is added |
| RedisPostgresClient.BumpedMultiset | sys/src/main/java/shield/client/RedisPostgresClient.java:68-71 | bumping replaces only the bumped set, by the same keys with one more occurrence |
| RedisPostgresClient.PrefetchTracker.constructor | sys/src/main/java/shield/client/RedisPostgresClient.java:59-63 | a new tracker has no sets, a total of 0 and tracking on |
| RedisPostgresClient.PrefetchTracker.ObserveSubsequentLayer | sys/src/main/java/shield/client/RedisPostgresClient.java:65-83 | the total goes up by exactly one, the sets become the observed table, and tracking turns off only when a new set makes more than five |
| RedisPostgresClient.PrefetchTracker.ObserveIfTracking | sys/src/main/java/shield/client/RedisPostgresClient.java:1196-1199 | a tracking tracker observes the layer; one that stopped tracking is unchanged; tracking is never switched back on |
| RedisPostgresClient.ObserveViewKeepsTable | sys/src/main/java/shield/client/RedisPostgresClient.java:1196-1199 | the guarded observation keeps a tracker view valid (total is the sum of frequencies, sorted, positive, tracking off past five sets); a tracking view gains one in total and its sets become the observed table; a non-tracking view is unchanged; tracking never turns back on |
| RedisPostgresClient.ObserveEmptyView | sys/src/main/java/shield/client/RedisPostgresClient.java:1192-1199 | a tracker created for a new index and fed one layer holds that layer as its single set with frequency 1 and a total of 1, still tracking |
| RedisPostgresClient.ObservedViews | sys/src/main/java/shield/client/RedisPostgresClient.java:1188-1199 | the trackers after a layer are indexed by the old indices plus one index per id of the last layer |
| RedisPostgresClient.ObservedViewsStep | sys/src/main/java/shield/client/RedisPostgresClient.java:1188-1199 | observing one more id of the last layer updates only that id's view, by the guarded observation |
| RedisPostgresClient.ObservedViewsSpec | sys/src/main/java/shield/client/RedisPostgresClient.java:1188-1199 | after a layer every view is valid; a new index holds the layer as its only set; a tracking last-layer tracker gains one in total and the observed sets; every other tracker is unchanged |
| RedisPostgresClient.PrefetchTracker.GetSize | sys/src/main/java/shield/client/RedisPostgresClient.java:85-91 | the size is 8 plus the size of every set |
| RedisPostgresClient.PrefetchRuleInIntegers | sys/src/main/java/shield/client/RedisPostgresClient.java:1213-1214 | a tracker's top set is prefetched exactly when tracking is on, it has a set, and five times the top frequency exceeds the total (freq / total > 0.2) |
| RedisPostgresClient.AboveOneFifth | sys/src/main/java/shield/client/RedisPostgresClient.java:1213-1214 | the floating-point ratio test against 0.2 is the integer test 5 * part > total |
| RedisPostgresClient.SumFreqPositive | sys/src/main/java/shield/client/RedisPostgresClient.java:65-83 | with positive frequencies the total is at least the number of sets, so it is positive whenever a set exists |
| RedisPostgresClient.KeyBytes | sys/src/main/java/shield/client/RedisPostgresClient.java:103-110 | every key contributes at least its 8 bytes |
| RedisPostgresClient.KeyBytesRemove | sys/src/main/java/shield/client/RedisPostgresClient.java:103-110 | a key contributes 8 bytes plus its table name's length |
| RedisPostgresClient.SetsBytesLowerBound | sys/src/main/java/shield/client/RedisPostgresClient.java:85-91 | every set contributes at least 4 bytes |
| RedisPostgresClient.SetSize | sys/src/main/java/shield/client/RedisPostgresClient.java:103-110 | the loop computes 4 plus 8 plus the table name's length for every key |
| RedisPostgresClient.RedundantAtMostHits | sys/src/main/java/shield/client/RedisPostgresClient.java:1178-1186 | redundant prefetch hits are at most prefetch hits, which are at most the layer's requests |
| RedisPostgresClient.CountPrefetchHits | sys/src/main/java/shield/client/RedisPostgresClient.java:1178-1186 | the loop counts the layer's ids found in the last layer's prefetched map and those flagged as already used |
| RedisPostgresClient.PrefetchReads | sys/src/main/java/shield/client/RedisPostgresClient.java:1219-1238 | one prefetch read per key to prefetch and no other, each marked as a prefetch, with every prefetched row marked unused |
| RedisPostgresClient.LockAllSpec | sys/src/main/java/shield/client/RedisPostgresClient.java:1242-1283 | a successful locking pass holds a read or write lock for every plain read and a write lock for every write and every read for update, and never requests the same write lock twice |
| RedisPostgresClient.PrefetchKeysMember | sys/src/main/java/shield/client/RedisPostgresClient.java:1205-1215 | a key is prefetched exactly when it is in the top set of the tracker of some pending statement that passes the prefetch rule |
| RedisPostgresClient.Client.constructor | sys/src/main/java/shield/client/RedisPostgresClient.java:224-275 | a new client has nothing pending, holds no locks and has empty layer and tracker maps |
| RedisPostgresClient.Client.AbortTransaction | sys/src/main/java/shield/client/RedisPostgresClient.java:789-814 | abort leaves nothing pending and both lock-id sets empty, and keeps the prefetch state |
| RedisPostgresClient.Client.SelectPrefetchKeys | sys/src/main/java/shield/client/RedisPostgresClient.java:1205-1215 | the keys chosen are exactly the top-set keys of the qualifying trackers |
| RedisPostgresClient.Client.PendingIds | sys/src/main/java/shield/client/RedisPostgresClient.java:1180-1186 | the ids of the pending statements, in order |
| RedisPostgresClient.Client.TrackerFor | sys/src/main/java/shield/client/RedisPostgresClient.java:1189-1195 | an existing tracker is returned unchanged and the map is unchanged; otherwise a fresh empty tracker is added under that index, so the index's view becomes the empty view and no other view changes |
| RedisPostgresClient.Client.AddTracker | sys/src/main/java/shield/client/RedisPostgresClient.java:1192-1195 | a fresh tracker with no sets, a total of 0 and tracking on is put under the index; every other index keeps its tracker and view |
| RedisPostgresClient.Client.ObserveOne | sys/src/main/java/shield/client/RedisPostgresClient.java:1189-1199 | the index ends with a tracker (a fresh one when it had none); its view becomes the guarded observation of the layer applied to its old view, or to the empty view when it was new; every other view is unchanged and distinct indices keep distinct trackers |
| RedisPostgresClient.Client.ObserveLastLayer | sys/src/main/java/shield/client/RedisPostgresClient.java:1188-1199 | every id of the last layer ends with a tracker, and the views after the loop are exactly `ObservedViews` of the views before: each last-layer tracker observed the layer once if it still tracked, new ones start from the empty view, all others are unchanged |
| RedisPostgresClient.Client.ObserveRow | sys/src/main/java/shield/client/RedisPostgresClient.java:1188-1199 | one more row of the last layer moves the views one step further through `ObservedViews`, and only fresh trackers are added |
| RedisPostgresClient.Client.ObserveAt | sys/src/main/java/shield/client/RedisPostgresClient.java:1196-1199 | only the tracker at the index changes, and its view becomes the guarded observation of its old view |
| RedisPostgresClient.Client.AppendPrefetches | sys/src/main/java/shield/client/RedisPostgresClient.java:1219-1238 | the prefetch reads are appended after the pending statements, one per key, each marked as a prefetch |
| RedisPostgresClient.ReadForUpdateStatement | sys/src/main/java/shield/client/RedisPostgresClient.java:551-567 | the statement a read for update queues is a non-prefetch GET of that row, flagged for update |
| RedisPostgresClient.ReadForUpdateLocksForWrite | sys/src/main/java/shield/client/RedisPostgresClient.java:1249-1276 | a read for update goes to the write-lock branch: afterwards the row is write-locked and no longer read-locked, no read lock is requested, and it fails exactly when the write lock is not held and times out |
| RedisPostgresClient.Client.ReadForUpdate | sys/src/main/java/shield/client/RedisPostgresClient.java:551-567 | appends exactly one read-for-update statement for the row keyed by the hash of table name and row key |
| RedisPostgresClient.Client.AcquireLocks | sys/src/main/java/shield/client/RedisPostgresClient.java:1242-1283 | without the cache no lock is taken; otherwise the lock sets become those of the locking pass (a read-for-update GET takes the write lock, not a read lock), and a timed-out lock aborts, clearing the pending list and both lock sets |
| RedisPostgresClient.Client.ObserveLayer | sys/src/main/java/shield/client/RedisPostgresClient.java:1172-1199 | with a last layer the hits counted are the pending ids found in its prefetched map, redundant hits do not exceed them, and the trackers of all its ids observed the layer's keys (`ObservedViews`); without one both counts are zero and no tracker changes |
| RedisPostgresClient.Client.PrefetchForLayer | sys/src/main/java/shield/client/RedisPostgresClient.java:1202-1240 | the layer's ids become the transaction's last layer, exactly the chosen keys are appended as prefetch reads, and they are recorded as unused |
| RedisPostgresClient.Client.PrepareLayer | sys/src/main/java/shield/client/RedisPostgresClient.java:1167-1240 | the prefetch step does not change the results the layer reads, and without the cache or prefetching nothing is added |
| RedisPostgresClient.Client.CollectResults | sys/src/main/java/shield/client/RedisPostgresClient.java:1294-1319 | the results are those of the non-prefetch reads, and prefetches that sped up a request are marked as used |
| RedisPostgresClient.Client.ExecuteOps | sys/src/main/java/shield/client/RedisPostgresClient.java:1157-1337 | with nothing pending the result is empty and the prefetch and lock state is untouched; otherwise the pending list ends empty, a success returns the reads' results, and an abort leaves no lock held |
| RedisPostgresClient.Client.CommitTransaction | sys/src/main/java/shield/client/RedisPostgresClient.java:741-780 | commit leaves nothing pending and both lock-id sets empty, and returns the reads' results |
| RedisPostgresClient.ReadResultsSkipPrefetches | sys/src/main/java/shield/client/RedisPostgresClient.java:1305-1311 | appended prefetch reads add nothing to the results |
| RedisPostgresClient.ReadResultsPrefetchTail | sys/src/main/java/shield/client/RedisPostgresClient.java:1305-1311 | a statement list whose tail is all prefetch reads reports exactly what its head reports |
| RedisPostgresClient.MarkedSpec | sys/src/main/java/shield/client/RedisPostgresClient.java:1303-1309 | a row is marked used exactly when it was already, or a prefetch of it sped up a request |
| RedisPostgresClient.FailureStopsAll | sys/src/main/java/shield/client/RedisPostgresClient.java:1249-1276 | once a read or write lock times out the pass stops, and later statements, reads for update included, take no lock |
| FreeHealthGenerator.JavaDiv | sys/src/main/java/shield/benchmarks/freehealth/FreeHealthGenerator.java:46-57 | Java's integer division, truncating toward zero for a negative dividend |
| FreeHealthGenerator.JavaRem | sys/src/main/java/shield/benchmarks/freehealth/FreeHealthGenerator.java:719-721 | Java's remainder: the Euclidean remainder for a non-negative dividend, between -d and 0 for a negative one |
| FreeHealthGenerator.IdFromHospitalIDRecovers | sys/src/main/java/shield/benchmarks/freehealth/FreeHealthGenerator.java:61-63 | the hospital is recovered from a sharded id by remainder and the per-hospital id by division |
| FreeHealthGenerator.IdFromHospitalIDInjective | sys/src/main/java/shield/benchmarks/freehealth/FreeHealthGenerator.java:61-63 | two sharded ids are equal only when both the hospital and the per-hospital id are |
| FreeHealthGenerator.AlphanumLayout | sys/src/main/java/shield/benchmarks/freehealth/FreeHealthGenerator.java:26 | the alphabet has 62 characters and its first ten are the digits |
| FreeHealthGenerator.RandCharNum | sys/src/main/java/shield/benchmarks/freehealth/FreeHealthGenerator.java:664-667 | the character is from the alphabet, and a digit when only digits are asked for |
| FreeHealthGenerator.RandString | sys/src/main/java/shield/benchmarks/freehealth/FreeHealthGenerator.java:676-683 | the length lies between min and max, every character is from the alphabet, and only digits when asked |
| FreeHealthGenerator.RandZipCode | sys/src/main/java/shield/benchmarks/freehealth/FreeHealthGenerator.java:685-689 | a five-digit numeric string parses to a number between 0 and 99999 |
| FreeHealthGenerator.IDtoDate | sys/src/main/java/shield/benchmarks/freehealth/FreeHealthGenerator.java:717-727 | for a non-negative id the year is 1918 + id % 100, within 1918..2017, and the day of the year (id / 100) % 364 + 1 lies within 1..364 |
| FreeHealthGenerator.IDtoDatePeriodic | sys/src/main/java/shield/benchmarks/freehealth/FreeHealthGenerator.java:717-727 | the date is deterministic and repeats every 36400 ids |
| FreeHealthGenerator.ChosenFromSpec | sys/src/main/java/shield/benchmarks/freehealth/FreeHealthGenerator.java:460-636 | the dispatch from position i picks the first transaction whose cumulative probability exceeds x, or none when no remaining one does |
| FreeHealthGenerator.ChosenSpec | sys/src/main/java/shield/benchmarks/freehealth/FreeHealthGenerator.java:460-636 | the transaction run is the first whose cumulative probability exceeds x; none runs exactly when no cumulative probability does |
| FreeHealthGenerator.ChosenNoneAtTotal | sys/src/main/java/shield/benchmarks/freehealth/FreeHealthGenerator.java:460-636 | with non-negative probabilities no transaction runs exactly when x is at least their total |
| FreeHealthGenerator.Generator.constructor | sys/src/main/java/shield/benchmarks/freehealth/FreeHealthGenerator.java:46-57 | every hospital's max-known id starts at (N - 1) / hospitals for that kind's N, with Java division |
| FreeHealthGenerator.Generator.SetMaxKnown | sys/src/main/java/shield/benchmarks/freehealth/FreeHealthGenerator.java:643-661 | the hospital's entry becomes the larger of the old and the new value; other hospitals and other kinds are unchanged |
| FreeHealthGenerator.Generator.ResetProbComp | sys/src/main/java/shield/benchmarks/freehealth/FreeHealthGenerator.java:451-453 | the incrementer is reset to 0 |
| FreeHealthGenerator.Generator.ProbComp | sys/src/main/java/shield/benchmarks/freehealth/FreeHealthGenerator.java:455-458 | the incrementer grows by the transaction's probability and the new value is returned |
| FreeHealthGenerator.Generator.RunNextTransaction | sys/src/main/java/shield/benchmarks/freehealth/FreeHealthGenerator.java:460-636 | x is drawn in 0..100 and the transaction run is the first whose cumulative probability exceeds it; none when x reaches the total |
| FreeHealthGenerator.Generator.GetID | sys/src/main/java/shield/benchmarks/freehealth/FreeHealthGenerator.java:65-78 | the id's hospital is a valid hospital and its per-hospital id is below that hospital's max-known id |
| FreeHealthGenerator.Generator.GenerateAddDrugInteraction | sys/src/main/java/shield/benchmarks/freehealth/FreeHealthGenerator.java:97-105 | the two drug ids drawn are different and both valid drug ids |
| FreeHealthGenerator.Generator.GenerateDistinctIDs | sys/src/main/java/shield/benchmarks/freehealth/FreeHealthGenerator.java:200-210 | the ids drawn are the requested number, pairwise distinct, each valid for its hospital |
| FreeHealthGenerator.Generator.GenerateUpdateEpisodes | sys/src/main/java/shield/benchmarks/freehealth/FreeHealthGenerator.java:200-220 | between one and five episode ids, pairwise distinct |
| FreeHealthGenerator.Generator.GenerateGetPatientNames | sys/src/main/java/shield/benchmarks/freehealth/FreeHealthGenerator.java:241-251 | between five and fifteen patient ids, pairwise distinct |
| Claims.KeepX12Basic | sys/external-jars/openemr-5.0.0/library/Claim.class.php:15-17 | the kept characters are all in the X12 basic character set, drawn from the input, and no more of them than the input has |
| Claims.X12Clean | sys/external-jars/openemr-5.0.0/library/Claim.class.php:15-17 | `x12clean` upper-cases and drops every character outside the X12 basic set, so the result is all basic characters and no longer than the input |
| Claims.KeepX12BasicOfBasic | sys/external-jars/openemr-5.0.0/library/Claim.class.php:15-17 | filtering a string already in the basic set leaves it unchanged |
| Claims.X12CleanOfBasic | sys/external-jars/openemr-5.0.0/library/Claim.class.php:15-17 | cleaning a string already in the basic set is the identity |
| Claims.X12CleanIdempotent | sys/external-jars/openemr-5.0.0/library/Claim.class.php:15-17 | cleaning twice is the same as cleaning once |
| Claims.X12CleanHasNoColon | sys/external-jars/openemr-5.0.0/library/Claim.class.php:15-17 | a cleaned string never contains a colon, the separator of procedure keys |
| Claims.X12CleanIgnoresCase | sys/external-jars/openemr-5.0.0/library/Claim.class.php:15-17 | lower-casing before cleaning changes nothing, because cleaning upper-cases first |
| Claims.DateDigits | sys/external-jars/openemr-5.0.0/library/Claim.class.php:22-32 | the first ten characters with dashes removed: at most ten characters, none a dash |
| Claims.CleanDate | sys/external-jars/openemr-5.0.0/library/Claim.class.php:22-32 | `cleanDate` yields the dash-free date prefix, and yields the empty string exactly when that prefix is empty or holds eight zeros |
| Claims.CleanDateIdempotent | sys/external-jars/openemr-5.0.0/library/Claim.class.php:22-32 | cleaning a cleaned date changes nothing |
| Claims.CleanDateOfZeroTimestamp | sys/external-jars/openemr-5.0.0/library/Claim.class.php:22-32 | the zero timestamp `0000-00-00 00:00:00` cleans to the empty string |
| Claims.PadTo15 | sys/external-jars/openemr-5.0.0/library/Claim.class.php:510-514 | the padded id is the id followed only by spaces, of length 15 or the id's own length when longer |
| Claims.PadTo15Trim | sys/external-jars/openemr-5.0.0/library/Claim.class.php:510-514 | trimming trailing spaces from a padded id that did not end in a space gives back the id |
| Claims.PadId | sys/external-jars/openemr-5.0.0/library/Claim.class.php:510-514 | the append-a-space loop computes the padding function |
| Claims.Claim.X12GsSenderId | sys/external-jars/openemr-5.0.0/library/Claim.class.php:510-514 | the sender id is the partner's sender id padded to 15 characters |
| Claims.Claim.X12GsReceiverId | sys/external-jars/openemr-5.0.0/library/Claim.class.php:536-540 | the receiver id is the partner's receiver id padded to 15 characters |
| Claims.InsuredRelationship | sys/external-jars/openemr-5.0.0/library/Claim.class.php:717-724 | self, spouse, child and other (any case) map to 18, 01, 19 and G8; anything else is returned lower-cased |
| Claims.InsuredRelationshipIgnoresCase | sys/external-jars/openemr-5.0.0/library/Claim.class.php:717-724 | the code does not depend on the case of the relationship |
| Claims.InsuredRelationshipCodesDistinct | sys/external-jars/openemr-5.0.0/library/Claim.class.php:717-724 | the four known relationships get four different codes |
| Claims.SplitModifiers | sys/external-jars/openemr-5.0.0/library/Claim.class.php:940-949 | splitting on colon and space gives at least one piece and no piece holds a colon or a space |
| Claims.CleanEach | sys/external-jars/openemr-5.0.0/library/Claim.class.php:940-949 | each piece is cleaned in place, so no cleaned piece holds a colon |
| Claims.CptModifierParts | sys/external-jars/openemr-5.0.0/library/Claim.class.php:940-949 | splitting the joined modifier string on colons gives back exactly the cleaned pieces, one per input piece |
| Claims.KeyParts | sys/external-jars/openemr-5.0.0/library/Claim.class.php:956-959 | a colon-free code followed by an optional colon and modifiers splits into the code and the modifiers' pieces |
| Claims.CptKeyParts | sys/external-jars/openemr-5.0.0/library/Claim.class.php:956-959 | the procedure key splits into the cleaned code followed by the cleaned modifiers when there are any |
| Claims.NonSpaceRun | sys/external-jars/openemr-5.0.0/library/Claim.class.php:971-981 | the length of the leading run of non-space characters, stopped by a space or the end |
| Claims.SpaceRun | sys/external-jars/openemr-5.0.0/library/Claim.class.php:971-981 | the length of the leading run of space characters, stopped by a non-space or the end |
| Claims.N4Match | sys/external-jars/openemr-5.0.0/library/Claim.class.php:973 | a match of `^N4(\S+)\s+(\S\S)` captures a non-empty run of non-space characters |
| Claims.NdcFields | sys/external-jars/openemr-5.0.0/library/Claim.class.php:975 | a match of `^(\d+)-(\d+)-(\d+)$` yields three digit groups that rejoin with dashes to the input |
| Claims.CptNDCID | sys/external-jars/openemr-5.0.0/library/Claim.class.php:971-981 | no N4 match gives the empty string; a badly formatted NDC is returned cleaned; a 5-4-2 NDC becomes at least eleven digits |
| Claims.PaddedGroup | sys/external-jars/openemr-5.0.0/library/Claim.class.php:976 | zero-padding a digit group no wider than its field fills the field and keeps its value |
| Claims.Format542Fields | sys/external-jars/openemr-5.0.0/library/Claim.class.php:976 | `%05d%04d%02d` of groups that fit gives eleven characters whose three fields carry the groups' values |
| Claims.NdcFieldsOfJoin | sys/external-jars/openemr-5.0.0/library/Claim.class.php:975 | three non-empty digit groups joined with dashes are parsed back into the same groups |
| Claims.NonSpaceRunOf | sys/external-jars/openemr-5.0.0/library/Claim.class.php:973 | the non-space run of a non-space prefix followed by a space is that prefix |
| Claims.SpaceRunOf | sys/external-jars/openemr-5.0.0/library/Claim.class.php:973 | the space run of a space prefix followed by a non-space is that prefix |
| Claims.N4MatchOfRecord | sys/external-jars/openemr-5.0.0/library/Claim.class.php:973 | an `N4` record with an NDC, spaces and a two-character unit captures that NDC |
| Claims.CptNDCIDOfRecord | sys/external-jars/openemr-5.0.0/library/Claim.class.php:971-981 | an `N4` record holding a 5-4-2 NDC yields eleven digits whose fields carry the NDC's three groups |
| Claims.DigitStarAlwaysMatches | sys/external-jars/openemr-5.0.0/library/Claim.class.php:1235 | the unanchored pattern `[0-9]*` matches every string |
| Claims.NPIValidAsWrittenAcceptsLetters | sys/external-jars/openemr-5.0.0/library/Claim.class.php:1230-1238 | as written, ten letters pass the NPI check |
| Claims.NPIValidRefinesAsWritten | sys/external-jars/openemr-5.0.0/library/Claim.class.php:1230-1238 | the corrected check accepts exactly the strings the written one accepts that are all digits |
| Claims.NPIValidOfTenDigitNumber | sys/external-jars/openemr-5.0.0/library/Claim.class.php:1230-1238 | the decimal form of every ten-digit number is a valid NPI |
| Claims.StripPeriods | sys/external-jars/openemr-5.0.0/library/Claim.class.php:1121-1141 | with stripping on, the result has no period; with it off, the code is unchanged |
| Claims.ParseJustification | sys/external-jars/openemr-5.0.0/library/Claim.class.php:1117-1141 | an entry with a type label before a bar, or a bare code, yields a diagnosis without periods when stripping is on |
| Claims.JustificationsOfEntries | sys/external-jars/openemr-5.0.0/library/Claim.class.php:1116-1152 | the non-empty entries' diagnoses have no periods when stripping is on |
| Claims.Justifications | sys/external-jars/openemr-5.0.0/library/Claim.class.php:1115-1152 | splitting a justify field on colons yields diagnoses without periods when stripping is on |
| Claims.AllJustifications | sys/external-jars/openemr-5.0.0/library/Claim.class.php:1114-1153 | the justifications of every procedure in order carry no periods when stripping is on |
| Claims.StripAll | sys/external-jars/openemr-5.0.0/library/Claim.class.php:1158-1161 | each listed diagnosis is stripped of periods in place |
| Claims.AddKeysSpec | sys/external-jars/openemr-5.0.0/library/Claim.class.php:1150 | adding keys to an ordered PHP array keeps it duplicate-free, keeps its old entries as a prefix and holds exactly the old and new keys |
| Claims.AddKeysAppend | sys/external-jars/openemr-5.0.0/library/Claim.class.php:1150 | adding two lists of keys in turn equals adding their concatenation |
| Claims.LastTypeSpec | sys/external-jars/openemr-5.0.0/library/Claim.class.php:1118-1126 | without a labelled justification the code type is unchanged; otherwise it is the label of a justification that no later labelled one follows |
| Claims.LastTypeAppend | sys/external-jars/openemr-5.0.0/library/Claim.class.php:1126 | the last code type seen over two lists is the last one of the second, falling back to the first |
| Claims.AddJustificationStep | sys/external-jars/openemr-5.0.0/library/Claim.class.php:1116-1150 | one more justification adds its diagnosis as a key and, when it has a type label, sets the claim's diagnosis type |
| Claims.DiagListDistinct | sys/external-jars/openemr-5.0.0/library/Claim.class.php:1112-1163 | `diagArray` lists no diagnosis twice |
| Claims.DiagListMember | sys/external-jars/openemr-5.0.0/library/Claim.class.php:1112-1163 | a code is listed exactly when it justifies some procedure or is one of the claim's diagnoses |
| Claims.DiagListJustifiedFirst | sys/external-jars/openemr-5.0.0/library/Claim.class.php:1154-1161 | the justifying diagnoses come first, in the order of justification, before the other diagnoses |
| Claims.DiagListNoPeriods | sys/external-jars/openemr-5.0.0/library/Claim.class.php:1112-1163 | with stripping on, no listed diagnosis holds a period |
| Claims.JustificationsInAll | sys/external-jars/openemr-5.0.0/library/Claim.class.php:1114-1153 | a diagnosis justifying one procedure is among the claim's justifying diagnoses |
| Claims.Claim.constructor | sys/external-jars/openemr-5.0.0/library/Claim.class.php:40 | a claim starts with the given partner, procedures and diagnoses, and with diagnosis code type ICD9 |
| Claims.Claim.AddJustifications | sys/external-jars/openemr-5.0.0/library/Claim.class.php:1115-1152 | the inner loop over one justify field adds its diagnoses as keys and tracks the last type label |
| Claims.Claim.AddDiags | sys/external-jars/openemr-5.0.0/library/Claim.class.php:1158-1161 | the second loop adds every claim diagnosis, stripped, as a key |
| Claims.Claim.DiagArray | sys/external-jars/openemr-5.0.0/library/Claim.class.php:1112-1163 | the array built is the ordered, duplicate-free diagnosis list; the diagnosis type becomes the last label seen, and stays as it was (ICD9 on a new claim) when no justification carries a label |
| Claims.PositionsOfDistinct | sys/external-jars/openemr-5.0.0/library/Claim.class.php:1196-1200 | in a duplicate-free list a code has no 1-based position or exactly one, at which it stands |
| Claims.IndexListSpec | sys/external-jars/openemr-5.0.0/library/Claim.class.php:1181-1203 | when every justifying code is listed, each index produced points at its code, in order |
| Claims.ProcDiagsListed | sys/external-jars/openemr-5.0.0/library/Claim.class.php:1181-1203 | every diagnosis justifying a procedure appears in `diagArray` |
| Claims.DiagIndexListSpec | sys/external-jars/openemr-5.0.0/library/Claim.class.php:1181-1203 | `diagIndexArray` gives, for each justifying code of the procedure, its 1-based position in `diagArray` |
| Claims.Claim.AppendPositions | sys/external-jars/openemr-5.0.0/library/Claim.class.php:1196-1200 | the scan appends every 1-based position at which the code stands |
| Claims.Claim.IndexEntries | sys/external-jars/openemr-5.0.0/library/Claim.class.php:1185-1202 | the loop over the justify entries appends the positions of each non-empty entry's code |
| Claims.Claim.DiagIndexArray | sys/external-jars/openemr-5.0.0/library/Claim.class.php:1181-1203 | the result is the list of positions of the procedure's justifying codes in the diagnosis list |
| Edih835.StrncmpPrefix | sys/external-jars/openemr-5.0.0/library/edihistory/edih_835_html.php:1263 | `strncmp` over the length of the tag is exactly a prefix test |
| Edih835.Tag | sys/external-jars/openemr-5.0.0/library/edihistory/edih_835_html.php:1263 | the tag a segment is tested against is the identifier plus one delimiter character, or the bare identifier when the delimiter is missing |
| Edih835.IsSegStartsWith | sys/external-jars/openemr-5.0.0/library/edihistory/edih_835_html.php:1263 | with a delimiter, a segment is handled as a given kind exactly when it starts with the identifier followed by the delimiter |
| Edih835.ElementsJoin | sys/external-jars/openemr-5.0.0/library/edihistory/edih_835_html.php:1273 | `explode` on the element delimiter yields pieces without the delimiter that rejoin to the segment |
| Edih835.Drop | sys/external-jars/openemr-5.0.0/library/edihistory/edih_835_html.php:1314 | `array_slice($sar, n)` is the elements from position n on, or nothing when there are fewer |
| Edih835.ArrayChunk | sys/external-jars/openemr-5.0.0/library/edihistory/edih_835_html.php:1315 | `array_chunk` yields non-empty chunks of at most n elements |
| Edih835.ArrayChunkFlatten | sys/external-jars/openemr-5.0.0/library/edihistory/edih_835_html.php:1315 | the chunks laid end to end give back the input and all but the last are full |
| Edih835.FractionCents | sys/external-jars/openemr-5.0.0/library/edihistory/edih_835_html.php:1274-1276 | the cents read from the fraction digits are below 100 |
| Edih835.Cents | sys/external-jars/openemr-5.0.0/library/edihistory/edih_835_html.php:1274-1276 | an amount element read as a number is zero when the element is PHP-empty |
| Edih835.FormatCents | sys/external-jars/openemr-5.0.0/library/edihistory/edih_835_html.php:400-402 | a formatted monetary amount ends in a point and two digits |
| Edih835.UnsignedCentsOfFormat | sys/external-jars/openemr-5.0.0/library/edihistory/edih_835_html.php:1274-1276 | dollars, a point and two digits read back as that many cents |
| Edih835.CentsOfFormat | sys/external-jars/openemr-5.0.0/library/edihistory/edih_835_html.php:1274-1276 | reading back a formatted amount gives the amount, for every amount |
| Edih835.Units | sys/external-jars/openemr-5.0.0/library/edihistory/edih_835_html.php:1296-1300 | an empty SVC unit count defaults to 1 |
| Edih835.IntPartOfNatToString | sys/external-jars/openemr-5.0.0/library/edihistory/edih_835_html.php:1297-1299 | the integer part of a written count is the count |
| Edih835.FormattedQuantityAboveOne | sys/external-jars/openemr-5.0.0/library/edihistory/edih_835_html.php:1324-1328 | a quantity written with two decimals passes `strcmp($cq, '1') > 0` exactly when it is at least 1 |
| Edih835.CasAmountOfQuantity | sys/external-jars/openemr-5.0.0/library/edihistory/edih_835_html.php:1317-1329 | a triplet adjusts its amount times its decimal quantity (rounded down to a cent) when the quantity is at least 1, and the bare amount when it is below 1 |
| Edih835.QuantityAboveOne | sys/external-jars/openemr-5.0.0/library/edihistory/edih_835_html.php:1327 | the string comparison `strcmp($cq, '1') > 0` on a written count holds exactly when the count exceeds 1 |
| Edih835.Imbalance | sys/external-jars/openemr-5.0.0/library/edihistory/edih_835_html.php:1204 | the balance difference is zero exactly when the fee equals payment plus claim, service, patient and provider adjustments |
| Edih835.PostBpr | sys/external-jars/openemr-5.0.0/library/edihistory/edih_835_html.php:830-860 | BPR resets every total to zero and sets the payment to BPR02 |
| Edih835.Post | sys/external-jars/openemr-5.0.0/library/edihistory/edih_835_html.php:826-1341 | segments other than BPR, CLP, SVC, CAS and PLB leave the totals alone |
| Edih835.PostImbalance | sys/external-jars/openemr-5.0.0/library/edihistory/edih_835_html.php:1263-1341 | BPR sets the balance difference to the payment, CLP lowers it by CLP03, CAS and PLB raise it by their totals and SVC leaves it |
| Edih835.CasConservation | sys/external-jars/openemr-5.0.0/library/edihistory/edih_835_html.php:1308-1341 | every CAS amount lands in exactly one of patient responsibility, claim adjustment or service adjustment, chosen by group code and loop, and no other total moves |
| Edih835.CasTripletsCover | sys/external-jars/openemr-5.0.0/library/edihistory/edih_835_html.php:1314-1315 | the CAS triplets are the elements after the group code, three at a time, in order |
| Edih835.PlbReadsOddElements | sys/external-jars/openemr-5.0.0/library/edihistory/edih_835_html.php:1168-1189 | with one adjustment, PLB adds its reason element PLB03 as the amount and skips the amount PLB04 |
| Edih835.NextLoopEntries | sys/external-jars/openemr-5.0.0/library/edihistory/edih_835_html.php:821-1346 | each loop is entered only through its opening segments and left only by a segment that opens another |
| Edih835.ClpStartsGroup | sys/external-jars/openemr-5.0.0/library/edihistory/edih_835_html.php:1263-1285 | in the segments handed to the claim renderer, the groups are cut right before every CLP: the group holding a CLP starts with it |
| Edih835.AfterAppend | sys/external-jars/openemr-5.0.0/library/edihistory/edih_835_html.php:809-1349 | reading two runs of segments in turn is reading them together, so the loop and totals carry across transactions |
| Edih835.TransactionStep | sys/external-jars/openemr-5.0.0/library/edihistory/edih_835_html.php:809-1349 | after each transaction the loop and the totals are those of all segments read so far |
| Edih835.RoutedSegsBound | sys/external-jars/openemr-5.0.0/library/edihistory/edih_835_html.php:1342-1346 | the segments routed to claim groups are segments of the run |
| Edih835.PaymentListing.constructor | sys/external-jars/openemr-5.0.0/library/edihistory/edih_835_html.php:807-817 | a listing starts outside any loop with fresh totals and no claim groups |
| Edih835.PaymentListing.Flush | sys/external-jars/openemr-5.0.0/library/edihistory/edih_835_html.php:1245-1249 | the open group, when non-empty, is handed to the renderer and no segment is lost |
| Edih835.PaymentListing.OpenClaim | sys/external-jars/openemr-5.0.0/library/edihistory/edih_835_html.php:1278-1284 | CLP hands the open group to the renderer and starts a new group with itself |
| Edih835.PaymentListing.Append | sys/external-jars/openemr-5.0.0/library/edihistory/edih_835_html.php:1342-1346 | a non-CLP segment joins the open group |
| Edih835.PaymentListing.StartLx | sys/external-jars/openemr-5.0.0/library/edihistory/edih_835_html.php:1061-1090 | LX after a service line closes the current group, then records LX01 as the new claim-group key |
| Edih835.PaymentListing.Group | sys/external-jars/openemr-5.0.0/library/edihistory/edih_835_html.php:1061-1346 | one segment routes to the claim groups exactly when the loop routes it; CLP opens a group, SE closes one, only LX changes the keys |
| Edih835.PaymentListing.Account | sys/external-jars/openemr-5.0.0/library/edihistory/edih_835_html.php:1197-1343 | one segment moves the loop and the totals as specified, and SE records whether the totals balance |
| Edih835.PaymentListing.ProcessSegment | sys/external-jars/openemr-5.0.0/library/edihistory/edih_835_html.php:819-1347 | the foreach body moves loop, totals and claim groups as one segment specifies |
| Edih835.PaymentListing.ProcessSegments | sys/external-jars/openemr-5.0.0/library/edihistory/edih_835_html.php:819-1348 | after a transaction's segments the loop, totals and routed segments are those of the whole run |
| Edih835.PaymentListing.ProcessTransaction | sys/external-jars/openemr-5.0.0/library/edihistory/edih_835_html.php:809-1348 | a transaction starts a fresh claim group and LX keys while loop and totals carry over |
| Edih835.PaymentGuard | sys/external-jars/openemr-5.0.0/library/edihistory/edih_835_html.php:756-772 | the listing rejects missing segments and missing delimiters, with their messages |
| Edih835.PaymentHtml | sys/external-jars/openemr-5.0.0/library/edihistory/edih_835_html.php:752-1352 | a guarded input yields its error; otherwise the claim groups are well formed and the totals are those of all transactions' segments |
| Edih835.TransactionGuard | sys/external-jars/openemr-5.0.0/library/edihistory/edih_835_html.php:250-270 | the claim renderer rejects missing segments first, then a missing element or component delimiter |
| Edih835.CasStore | sys/external-jars/openemr-5.0.0/library/edihistory/edih_835_html.php:432-442 | only a CAS with a group code changes the adjustment table |
| Edih835.CasStoreKeeps | sys/external-jars/openemr-5.0.0/library/edihistory/edih_835_html.php:438 | a store under another loop or group leaves an entry as it was |
| Edih835.CasTableEntries | sys/external-jars/openemr-5.0.0/library/edihistory/edih_835_html.php:305-445 | every table entry comes from a CAS read in that loop with that group, holding its elements after the group code in triplets |
| Edih835.BuildCasTable | sys/external-jars/openemr-5.0.0/library/edihistory/edih_835_html.php:314-445 | the segment loop of the claim renderer builds the specified adjustment table |
| Edih835.SinceLastSvc | sys/external-jars/openemr-5.0.0/library/edihistory/edih_835_html.php:580-585 | the segments whose LQ codes the remarks line shows are a suffix of the group, the part after its last SVC |
| Edih835.RemarksSpec | sys/external-jars/openemr-5.0.0/library/edihistory/edih_835_html.php:636-652 | every LQ with a code adds exactly that code to the group's remark list, in segment order; the remarks line is the label and the codes of the LQs after the last SVC, separated by spaces, or empty when there are none |
| Edih835.CollectRemarks | sys/external-jars/openemr-5.0.0/library/edihistory/edih_835_html.php:580-652 | the segment loop of the claim renderer builds the remark list and the remarks line as specified |
| Edih835.SvcCompositeComponents | sys/external-jars/openemr-5.0.0/library/edihistory/edih_835_html.php:588-603 | an SVC01 composite reads back as the described code followed by its remaining components, in order |
| AddEditEvent.RemoveDashes | sys/external-jars/openemr-5.0.0/interface/main/calendar/add_edit_event.php:58-59 | removing the dashes from a date assembled with two dashes gives its three parts run together |
| AddEditEvent.OpenerDateCompact | sys/external-jars/openemr-5.0.0/interface/main/calendar/add_edit_event.php:58-61 | an eight-digit date from the opener becomes YYYY-MM-DD, and dropping its dashes gives the original back |
| AddEditEvent.OpenerMinute | sys/external-jars/openemr-5.0.0/interface/main/calendar/add_edit_event.php:63-65 | the start minute is always two characters, "00" when none is given |
| AddEditEvent.OpenerMinuteOfNumber | sys/external-jars/openemr-5.0.0/interface/main/calendar/add_edit_event.php:63-65 | a minute below 100 written without padding comes out as two digits with the same value |
| AddEditEvent.SaveHour | sys/external-jars/openemr-5.0.0/interface/main/calendar/add_edit_event.php:262-264 | 12 is added to the dialog hour exactly for PM before noon; otherwise the hour is kept |
| AddEditEvent.DisplayHour | sys/external-jars/openemr-5.0.0/interface/main/calendar/add_edit_event.php:887-892 | the display is PM exactly from noon on, and shows an hour of the day as 0 to 12 |
| AddEditEvent.HourRoundTrip | sys/external-jars/openemr-5.0.0/interface/main/calendar/add_edit_event.php:887-892 | saving the displayed form of any hour of the day gives back that hour |
| AddEditEvent.DialogRoundTrip | sys/external-jars/openemr-5.0.0/interface/main/calendar/add_edit_event.php:262-264 | an hour entered in the dialog is shown again as entered, except 12 AM, which is saved as hour 12 and shows as noon |
| AddEditEvent.EndTime | sys/external-jars/openemr-5.0.0/interface/main/calendar/add_edit_event.php:267-274 | the end time is the start plus the duration in minutes, with minutes below 60 and the hour never wrapped |
| AddEditEvent.SaveTimes | sys/external-jars/openemr-5.0.0/interface/main/calendar/add_edit_event.php:256-274 | an all-day event is 0:00 for 1440 minutes; otherwise the converted hour, the minute and the absolute duration, with the end the start plus the duration |
| AddEditEvent.DayStrings | sys/external-jars/openemr-5.0.0/interface/main/calendar/add_edit_event.php:298 | one decimal text per day in the list |
| AddEditEvent.DaysEveryWeek | sys/external-jars/openemr-5.0.0/interface/main/calendar/add_edit_event.php:289-298 | the days list holds exactly the ticked days 1 to 7, in increasing order, and the frequency is that list joined with commas |
| AddEditEvent.DaysRoundTrip | sys/external-jars/openemr-5.0.0/interface/main/calendar/add_edit_event.php:298 | the comma-joined day list reads back as the days it was written from |
| AddEditEvent.WeekOfMonth | sys/external-jars/openemr-5.0.0/interface/main/calendar/add_edit_event.php:311-316 | the week number is 1 to 5, and for repeat type 5 it is below 5 exactly in the first 28 days |
| AddEditEvent.EncodeRepeat | sys/external-jars/openemr-5.0.0/interface/main/calendar/add_edit_event.php:277-321 | days-every-week saves recurrence 3 and type 6; a repeat of type above 4 saves recurrence 2 with the weekday and the frequency moved; anything else saves the frequency and type as given |
| AddEditEvent.RepeatRoundTrip | sys/external-jars/openemr-5.0.0/interface/main/calendar/add_edit_event.php:821-829 | saving and loading a repeat keeps its frequency and type, except that type 5 on day 29 or later loads back as type 6 |
| AddEditEvent.DateChanged | sys/external-jars/openemr-5.0.0/interface/main/calendar/add_edit_event.php:1121-1137 | the nth-weekday option is offered only in the first four weeks and "Last" only in the last seven days of the month |
| AddEditEvent.SelectedAfter | sys/external-jars/openemr-5.0.0/interface/main/calendar/add_edit_event.php:1138-1144 | a selection among the five fixed options survives the change |
| AddEditEvent.DateChangedOffers | sys/external-jars/openemr-5.0.0/interface/main/calendar/add_edit_event.php:1121-1144 | every day of a 28 to 31 day month gets a monthly option, and an offered nth-weekday option loads back as offered |
| AddEditEvent.AppendExdateKeeps | sys/external-jars/openemr-5.0.0/interface/main/calendar/add_edit_event.php:401-403 | adding an excluded date keeps the earlier ones in order and puts the new one last |
| AddEditEvent.ExcludeDate | sys/external-jars/openemr-5.0.0/interface/main/calendar/add_edit_event.php:398-403 | excluding one occurrence keeps every other entry of the recurrence specification and adds the date to exdate |
| Pnuser.DurationSplit | sys/external-jars/openemr-5.0.0/interface/main/calendar/modules/PostCalendar/pnuser.php:451-453 | a duration built from hours and minutes (minutes below 60) divides back into the same hours and minutes |
| Pnuser.ApplyAllDay | sys/external-jars/openemr-5.0.0/interface/main/calendar/modules/PostCalendar/pnuser.php:472-479 | an all-day event starts at 12:00 AM and lasts 86400 seconds, still consistent with its hours and minutes; other events are unchanged |
| Pnuser.To24Hour | sys/external-jars/openemr-5.0.0/interface/main/calendar/modules/PostCalendar/pnuser.php:629-636 | a clock hour 1 to 12 converts to an hour of the day |
| Pnuser.To24HourRoundTrip | sys/external-jars/openemr-5.0.0/interface/main/calendar/modules/PostCalendar/pnuser.php:629-636 | every clock hour with AM or PM converts to an hour of the day that converts back to it |
| Pnuser.From24HourRoundTrip | sys/external-jars/openemr-5.0.0/interface/main/calendar/modules/PostCalendar/pnuser.php:629-636 | every hour of the day is the conversion of exactly one clock hour |
| Pnuser.LimitHour | sys/external-jars/openemr-5.0.0/interface/main/calendar/modules/PostCalendar/pnuser.php:1161-1164 | the limit check's conversion agrees with the submit conversion for AM and PM and leaves any other selector's hour unchanged |
| Pnuser.ClockTime | sys/external-jars/openemr-5.0.0/interface/main/calendar/modules/PostCalendar/pnuser.php:1165 | a valid hour and minute give the minute of the day, below 1440 |
| Pnuser.LimitReached | sys/external-jars/openemr-5.0.0/interface/main/calendar/modules/PostCalendar/pnuser.php:1136-1182 | a reported limit belongs to the event's category, starts no later than the event and is reached on some day; none is reported exactly when no such limit is reached |
| Pnuser.ScanDays | sys/external-jars/openemr-5.0.0/interface/main/calendar/modules/PostCalendar/pnuser.php:1157-1180 | the scan over the days finds a hit exactly when some day's count reaches the limit |
| Pnuser.CheckCategoryLimits | sys/external-jars/openemr-5.0.0/interface/main/calendar/modules/PostCalendar/pnuser.php:1128-1182 | with the hour converted once, the check returns the first reached limit of the category, as specified |
| Pnuser.ScanDaysAsWritten | sys/external-jars/openemr-5.0.0/interface/main/calendar/modules/PostCalendar/pnuser.php:1157-1180 | as written, an empty scan finds nothing and leaves the hour as it was |
| Pnuser.LimitsAsWritten | sys/external-jars/openemr-5.0.0/interface/main/calendar/modules/PostCalendar/pnuser.php:1136-1182 | as written, a reported limit is one of the event's category |
| Pnuser.LimitsAsWrittenMissesSecondLimit | sys/external-jars/openemr-5.0.0/interface/main/calendar/modules/PostCalendar/pnuser.php:1161-1164 | a 3 PM event in a category whose second limit is reached passes as written, because the hour is converted again for every day and becomes 27 |
| Pnuser.FrequencyAccepted | sys/external-jars/openemr-5.0.0/interface/main/calendar/modules/PostCalendar/pnuser.php:604-610 | a repeat frequency passes exactly when it is a digit string of value at least 1 |
| Pnuser.OptionList | sys/external-jars/openemr-5.0.0/interface/main/calendar/modules/PostCalendar/pnuser.php:586-660 | an error, when present, is reported once; no error reports nothing |
| Pnuser.SubmitAccepted | sys/external-jars/openemr-5.0.0/interface/main/calendar/modules/PostCalendar/pnuser.php:586-660 | a submission is accepted exactly when it has a title, a repeating event has an end date and a frequency of at least 1, a dated end is not before the start, and no category limit is reached |
| Pnuser.SubmitReportsDates | sys/external-jars/openemr-5.0.0/interface/main/calendar/modules/PostCalendar/pnuser.php:597-643 | a repeating event without an end date is reported, and an end before the start is reported exactly when the end type is a date |
| Pnuser.SearchEndAsWritten | sys/external-jars/openemr-5.0.0/interface/main/calendar/modules/PostCalendar/pnuser.php:939-941 | as written, the end's day, month and year are each raised to at least the start's |
| Pnuser.SearchEndAsWrittenMovesLaterEnd | sys/external-jars/openemr-5.0.0/interface/main/calendar/modules/PostCalendar/pnuser.php:939-941 | a search from 20 May to 10 June is moved to end on 20 June |
| Pnuser.SearchEnd | sys/external-jars/openemr-5.0.0/interface/main/calendar/modules/PostCalendar/pnuser.php:939-941 | the search end is never before the start: the end as entered unless it is earlier, then the start |
| EditList.CharIndexFrom | sys/external-jars/openemr-5.0.0/interface/super/edit_list.php:663 | `indexOf('~', i)` returns the first position at or after i holding the character, or -1 exactly when there is none |
| EditList.OffsetOfSegment | sys/external-jars/openemr-5.0.0/interface/super/edit_list.php:680-683 | stepping past seqno tildes reaches the start of segment seqno |
| EditList.DcSubstringRemovesMiddle | sys/external-jars/openemr-5.0.0/interface/super/edit_list.php:667-669 | removing a segment that others follow joins the text before it to the segments after it |
| EditList.DcSubstringRemovesLast | sys/external-jars/openemr-5.0.0/interface/super/edit_list.php:664-666 | removing the last segment drops it together with the tilde before it |
| EditList.DcSubstringRemoves | sys/external-jars/openemr-5.0.0/interface/super/edit_list.php:661-671 | `dc_substring` at the start of a segment leaves the other segments, in order |
| EditList.DeleteSegment | sys/external-jars/openemr-5.0.0/interface/super/edit_list.php:661-671 | at the offset of segment k of any string, `dc_substring` removes exactly that segment |
| EditList.DeleteCode | sys/external-jars/openemr-5.0.0/interface/super/edit_list.php:674-688 | `delete_code` removes segment seqno from both the codes and the descriptions, keeping the rest in order |
| EditList.SpaceTildes | sys/external-jars/openemr-5.0.0/interface/super/edit_list.php:720-723 | every tilde of the description becomes a space and nothing else changes |
| EditList.FeeSheetRelated | sys/external-jars/openemr-5.0.0/interface/super/edit_list.php:717-735 | with a code, the code and its description are appended as one more segment each; without one, both fields are cleared |
| EditList.FeeSheetStaysParallel | sys/external-jars/openemr-5.0.0/interface/super/edit_list.php:724-731 | codes and descriptions with equally many segments stay parallel: each gains one segment at the end |
| EditList.ClinicalTermRelated | sys/external-jars/openemr-5.0.0/interface/super/edit_list.php:740-749 | a picked clinical term is appended after a semicolon; no code clears the field |
| EditList.ClinicalTermsKept | sys/external-jars/openemr-5.0.0/interface/super/edit_list.php:742-745 | adding a term keeps the earlier terms in order and puts the new one last |
| EditList.ImmunizationRelated | sys/external-jars/openemr-5.0.0/interface/super/edit_list.php:753-761 | the immunization field becomes the picked code, or "0" when none, never empty |
| EditList.ForceFormPrefix | sys/external-jars/openemr-5.0.0/interface/super/edit_list.php:179-185 | layout-based form ids start with LBF and transaction form ids with LBT; ids already prefixed and other lists are kept |
| EditList.ForceFormPrefixIdempotent | sys/external-jars/openemr-5.0.0/interface/super/edit_list.php:179-185 | forcing the prefix twice is forcing it once |
| EditList.ApptStatRoundTrip | sys/external-jars/openemr-5.0.0/interface/super/edit_list.php:187-189 | the notes saved as colour, a bar and time alert read back (as at line 388) as the trimmed colour and time alert |
| EditList.NewListId | sys/external-jars/openemr-5.0.0/interface/super/edit_list.php:218-219 | the new list id keeps every word character and replaces each other character with an underscore, length unchanged |
| EditList.NewListIdIdempotent | sys/external-jars/openemr-5.0.0/interface/super/edit_list.php:218-219 | making an id of an id changes nothing |
| EditList.NewListSeq | sys/external-jars/openemr-5.0.0/interface/super/edit_list.php:222-231 | a new list's position is one past the largest existing position, so after every list |
| EditList.DefClicked | sys/external-jars/openemr-5.0.0/interface/super/edit_list.php:766-771 | every default box but the one on the clicked line is cleared, so at most one stays checked |
| EditList.ParseIntDigits | sys/external-jars/openemr-5.0.0/interface/super/edit_list.php:786 | `parseInt` in base 10 of a digit string is its value |
| EditList.Checked | sys/external-jars/openemr-5.0.0/interface/super/edit_list.php:778 | the lines compared are the prefix before the first line without a name |
| EditList.FirstClash | sys/external-jars/openemr-5.0.0/interface/super/edit_list.php:778-791 | no alert exactly when no two checked lines share a name or an id; an alert reports a real clash |
| EditList.MySubmit | sys/external-jars/openemr-5.0.0/interface/super/edit_list.php:775-794 | only the code-types list is checked, and the submission goes ahead exactly when its checked lines have no clash |
| EditList.Flag | sys/external-jars/openemr-5.0.0/interface/super/edit_list.php:72-83 | a check box is saved as 1 exactly when present and not PHP-empty, else 0 |
| EditList.SaveCodeType | sys/external-jars/openemr-5.0.0/interface/super/edit_list.php:64-84 | a code-types line is saved exactly when its trimmed name is non-empty and its id is positive, with trimmed fields and 0/1 flags |
| DemographicsFull.ReplaceAbsent | sys/external-jars/openemr-5.0.0/interface/patient_file/summary/demographics_full.php:114-116 | `replace` returns the string unchanged when the text does not occur in it |
| DemographicsFull.ReplaceIdentity | sys/external-jars/openemr-5.0.0/interface/patient_file/summary/demographics_full.php:109-124 | replacing a text by itself changes nothing |
| DemographicsFull.MapChar | sys/external-jars/openemr-5.0.0/interface/patient_file/summary/demographics_full.php:109-124 | every occurrence of one character becomes another and the rest is kept, length unchanged |
| DemographicsFull.ReplaceChar | sys/external-jars/openemr-5.0.0/interface/patient_file/summary/demographics_full.php:109-124 | for a one-character text, the recursive `replace` replaces every occurrence |
| DemographicsFull.CapWord | sys/external-jars/openemr-5.0.0/interface/patient_file/summary/demographics_full.php:214 | a word keeps its length and its tail, and its first character is upper-cased (ASCII letters only) |
| DemographicsFull.UpperFirstLetter | sys/external-jars/openemr-5.0.0/interface/patient_file/summary/demographics_full.php:126-128 | `upperFirst` with a one-letter text upper-cases every occurrence of that letter (ASCII letters only) |
| DemographicsFull.Words | sys/external-jars/openemr-5.0.0/interface/patient_file/summary/demographics_full.php:211-216 | the words kept are the non-empty pieces |
| DemographicsFull.CapitalizedJoin | sys/external-jars/openemr-5.0.0/interface/patient_file/summary/demographics_full.php:208-218 | the capitalised value is its words joined by single spaces, and empty exactly when there are no words |
| DemographicsFull.CapitalizeMe | sys/external-jars/openemr-5.0.0/interface/patient_file/summary/demographics_full.php:208-218 | `capitalizeMe` splits on single spaces, capitalises each non-empty piece and rejoins them with one space |
| DemographicsFull.WordsNoSpace | sys/external-jars/openemr-5.0.0/interface/patient_file/summary/demographics_full.php:209-216 | the words of a split value hold no spaces |
| DemographicsFull.CapitalizeIdempotent | sys/external-jars/openemr-5.0.0/interface/patient_file/summary/demographics_full.php:208-218 | capitalising a capitalised value changes nothing |
| DemographicsFull.TrimLen | sys/external-jars/openemr-5.0.0/interface/patient_file/summary/demographics_full.php:231-238 | `trimlen` is 0 exactly when the value is all spaces, and otherwise the length of a span that starts and ends with non-spaces and has only spaces outside it |
| DemographicsFull.PolicyFilter | sys/external-jars/openemr-5.0.0/interface/patient_file/summary/demographics_full.php:351-364 | the kept characters are all policy-number characters, no more of them than the value has |
| DemographicsFull.PolicyKeyUp | sys/external-jars/openemr-5.0.0/interface/patient_file/summary/demographics_full.php:348-367 | `policykeyup` keeps, of the upper-cased value, exactly the policy-number characters, in order |
| DemographicsFull.PolicyFilterSubsequence | sys/external-jars/openemr-5.0.0/interface/patient_file/summary/demographics_full.php:351-364 | the filtered value is a subsequence of the value |
| DemographicsFull.PolicyKeyUpIdempotent | sys/external-jars/openemr-5.0.0/interface/patient_file/summary/demographics_full.php:348-367 | the filtered value has no lower-case letter, and filtering it again changes nothing |
| DemographicsFull.FirstWith | sys/external-jars/openemr-5.0.0/interface/patient_file/summary/demographics_full.php:195-200 | the option found is the first whose value is the company id; none means no option has it |
| DemographicsFull.ProviderSelect.constructor | sys/external-jars/openemr-5.0.0/interface/patient_file/summary/demographics_full.php:192-193 | the provider selector holds the given options and selection |
| DemographicsFull.ProviderSelect.SetInsurance | sys/external-jars/openemr-5.0.0/interface/patient_file/summary/demographics_full.php:191-204 | the first matching option is selected; otherwise one new option is appended and selected, and no other option changes |
| DemographicsFull.SsValidForms | sys/external-jars/openemr-5.0.0/interface/patient_file/summary/demographics_full.php:312 | nine digits with or without the two dashes match the social security pattern |
| DemographicsFull.PromptsOfSlot | sys/external-jars/openemr-5.0.0/interface/patient_file/summary/demographics_full.php:303-340 | each confirmation asked belongs to one insurance slot and comes from that slot alone |
| DemographicsFull.NamePrompts | sys/external-jars/openemr-5.0.0/interface/patient_file/summary/demographics_full.php:320-334 | a slot with a provider asks about the name exactly when the relationship is self and the name differs, or is not self and the name is the same |
| DemographicsFull.ConfirmSlots | sys/external-jars/openemr-5.0.0/interface/patient_file/summary/demographics_full.php:303-342 | the submission goes ahead exactly when the user accepts every confirmation, asked slot by slot |
| DemographicsFull.PrefixPrompts | sys/external-jars/openemr-5.0.0/interface/patient_file/summary/demographics_full.php:303-340 | the confirmations of the first slots are asked first |
| Demographics.Wrap3 | sys/external-jars/openemr-5.0.0/interface/patient_file/summary/demographics.php:78 | `wordwrap(…, 3, ",", 1)` of a non-empty string ends in its last character, never in a comma |
| Demographics.Group3 | sys/external-jars/openemr-5.0.0/interface/patient_file/summary/demographics.php:78-82 | the grouped digits are no shorter than the digits |
| Demographics.Wrap3Reverse | sys/external-jars/openemr-5.0.0/interface/patient_file/summary/demographics.php:78-79 | wrapping the reversed digits and reversing back groups the digits in threes from the right |
| Demographics.MoneyParts | sys/external-jars/openemr-5.0.0/interface/patient_file/summary/demographics.php:77 | the match of `(\d*)\.?(\d*)` yields two digit strings, the dollars and the cents |
| Demographics.PrintAsMoneyGroups | sys/external-jars/openemr-5.0.0/interface/patient_file/summary/demographics.php:76-88 | `print_as_money` is "$ ", the dollars grouped from the right, then the point and the cents when there are any; the leading-comma repair never applies |
| Demographics.MoneyPartsOf | sys/external-jars/openemr-5.0.0/interface/patient_file/summary/demographics.php:77 | digits, a point and digits are split at the point |
| Demographics.Group3Commas | sys/external-jars/openemr-5.0.0/interface/patient_file/summary/demographics.php:78-82 | in grouped digits the commas stand exactly every fourth position from the right, never first |
| Demographics.Group3RemoveCommas | sys/external-jars/openemr-5.0.0/interface/patient_file/summary/demographics.php:78-82 | removing the commas from grouped digits gives the digits back |
| Demographics.PrintAsMoneyRoundTrip | sys/external-jars/openemr-5.0.0/interface/patient_file/summary/demographics.php:76-88 | a formatted amount is "$ ", the grouped dollars, the point and the cents, and removing the commas recovers the dollars |
| Demographics.ApptsToShow | sys/external-jars/openemr-5.0.0/interface/patient_file/summary/demographics.php:1350-1352 | the number of appointments shown is the setting's magnitude, or 10 when it is 0, always positive |
| Demographics.ApptWindow | sys/external-jars/openemr-5.0.0/interface/patient_file/summary/demographics.php:1360-1414 | from at most the number to show plus the extra appointments fetched (one extra in the first display mode, six in the second), the appointments shown are a prefix; in the first mode exactly the number to show is displayed and the one extra is held back to give the next date; in the second, beyond the limit only appointments on the limit date follow, the next other date is reported, and when all six extras are fetched the last is always held back; the first index starts the run of the limit date |
| Demographics.DisplayHourRoundTrip | sys/external-jars/openemr-5.0.0/interface/patient_file/summary/demographics.php:1443-1448 | every hour of the day is shown as 0 to 12 with pm exactly from noon and reads back as itself; midnight shows as 0 am |
| Eye.SuggestVisitCode | sys/external-jars/openemr-5.0.0/interface/forms/eye_mag/js/eye_base.php:1544-1558 | the suggested visit code has five characters and the billing field is CPT4, the code and a bar |
| Eye.DecodeVisitCode | sys/external-jars/openemr-5.0.0/interface/forms/eye_mag/js/eye_base.php:1556 | a code that reads back is five characters with 9 first and 0 third |
| Eye.VisitCodeRoundTrip | sys/external-jars/openemr-5.0.0/interface/forms/eye_mag/js/eye_base.php:1544-1558 | the suggested code reads back as exactly the kind of visit it was made for: eye or E&M, new or established, comprehensive or intermediate |
| Eye.SphereValue | sys/external-jars/openemr-5.0.0/interface/forms/eye_mag/js/eye_base.php:1870-1871 | a sphere reads as its number, and blank or PLANO as 0 |
| Eye.AxisTransposeAsWritten | sys/external-jars/openemr-5.0.0/interface/forms/eye_mag/js/eye_base.php:1877-1881 | as written, an axis below 90 gains 90 and any other loses 90 |
| Eye.AxisTransposeAsWrittenBreaksAt180 | sys/external-jars/openemr-5.0.0/interface/forms/eye_mag/js/eye_base.php:1877-1881 | as written, axis 180 becomes 90 and then 0, not where it started |
| Eye.AxisTranspose | sys/external-jars/openemr-5.0.0/interface/forms/eye_mag/js/eye_base.php:1877-1881 | the rotated axis stays within 1 to 180 and differs from the axis by 90 |
| Eye.AxisTransposeInvolution | sys/external-jars/openemr-5.0.0/interface/forms/eye_mag/js/eye_base.php:1877-1881 | rotating an axis of 1 to 180 twice gives it back |
| Eye.TransposeEye | sys/external-jars/openemr-5.0.0/interface/forms/eye_mag/js/eye_base.php:1869-1893 | an eye without a cylinder is unchanged; otherwise the new sphere is sphere plus cylinder, the cylinder is negated, dropped exactly when it was 0, and an axis below 90 gains 90 and one above 90 loses 90, while axis 90 becomes 0 under the script's rule and 180 under the in-range rule |
| Eye.TransposeEyeTwice | sys/external-jars/openemr-5.0.0/interface/forms/eye_mag/js/eye_base.php:1869-1919 | converting an eye twice gives its prescription back, with a zero sphere written as PLANO |
| Eye.ReverseCylinderAsWritten | sys/external-jars/openemr-5.0.0/interface/forms/eye_mag/js/eye_base.php:1868-1919 | as written, unless the right sphere, right cylinder and left sphere are all blank, both eyes are converted with the script's own axis rule |
| Eye.ReverseCylinderAsWrittenLosesAxis180 | sys/external-jars/openemr-5.0.0/interface/forms/eye_mag/js/eye_base.php:1877-1881 | as written, a right eye at axis 180 goes to 90 on the first conversion and to 0 on the second |
| Eye.ReverseCylinder | sys/external-jars/openemr-5.0.0/interface/forms/eye_mag/js/eye_base.php:1868-1919 | the corrected script: each eye is converted with the axis kept within 1 to 180, and nothing changes when all four fields are blank |
| Eye.ReverseCylinderAsWrittenSkipsLeft | sys/external-jars/openemr-5.0.0/interface/forms/eye_mag/js/eye_base.php:1868 | with only a left cylinder filled in, the script as written changes nothing while the corrected one converts the left eye |
| Eye.ReverseCylinderTwice | sys/external-jars/openemr-5.0.0/interface/forms/eye_mag/js/eye_base.php:1849-1920 | converting both eyes twice gives both prescriptions back |
| Eye.PadAxis | sys/external-jars/openemr-5.0.0/interface/forms/eye_mag/js/eye_base.php:2402-2422 | without a real cylinder the axis is cleared; with one the axis is padded to at least three characters, keeping a digit-holding axis as its tail |
| Eye.PadAxisDigits | sys/external-jars/openemr-5.0.0/interface/forms/eye_mag/js/eye_base.php:2402-2422 | an axis of up to three digits becomes three digits with the same value, and padding again changes nothing |
| Eye.ChronicComment | sys/external-jars/openemr-5.0.0/interface/forms/eye_mag/js/eye_base.php:662 | a chronic problem's comment is never empty |
| Eye.FirstEmpty | sys/external-jars/openemr-5.0.0/interface/forms/eye_mag/js/eye_base.php:672-678 | the slot found is the first empty one; none means every slot has text |
| Eye.FillSlot | sys/external-jars/openemr-5.0.0/interface/forms/eye_mag/js/eye_base.php:663-679 | writing one comment keeps the number of slots |
| Eye.FillAll | sys/external-jars/openemr-5.0.0/interface/forms/eye_mag/js/eye_base.php:661-680 | writing every comment keeps the number of slots |
| Eye.FillSlotSpec | sys/external-jars/openemr-5.0.0/interface/forms/eye_mag/js/eye_base.php:663-679 | a slot with text is never overwritten, the only change is an empty slot getting the comment, and the comment ends up present exactly when it was there or a slot was free |
| Eye.FillAllDistinct | sys/external-jars/openemr-5.0.0/interface/forms/eye_mag/js/eye_base.php:661-680 | filling keeps the slot texts distinct and never overwrites a slot with text |
| Eye.BuildChronics | sys/external-jars/openemr-5.0.0/interface/forms/eye_mag/js/eye_base.php:655-682 | the three slots become the comments filled in order, and nothing changes without a problem list |
| Eye.MotilityNext | sys/external-jars/openemr-5.0.0/interface/forms/eye_mag/js/eye_base.php:3213-3219 | a grade below 4 goes up by one; 4 or a non-number goes back to 0 |
| Eye.MotilityCycle | sys/external-jars/openemr-5.0.0/interface/forms/eye_mag/js/eye_base.php:3213-3219 | five clicks bring a grade of 0 to 4 back to itself |
| Eye.MotilityZone.constructor | sys/external-jars/openemr-5.0.0/interface/forms/eye_mag/js/eye_base.php:3213-3221 | a zone starts with the given grade and five cells |
| Eye.MotilityZone.Click | sys/external-jars/openemr-5.0.0/interface/forms/eye_mag/js/eye_base.php:3213-3230 | a click moves the grade on and marks exactly the cells 1 up to the new grade |
| Eye.AmslerClick | sys/external-jars/openemr-5.0.0/interface/forms/eye_mag/js/eye_base.php:2744-2755 | with the chart closed nothing changes; with it open an image number below 6 goes up by one, 5 wrapping to 0 |
| Eye.AmslerCycle | sys/external-jars/openemr-5.0.0/interface/forms/eye_mag/js/eye_base.php:2744-2755 | six clicks bring an image number of 0 to 5 back to itself |
| Eye.NextSlot | sys/external-jars/openemr-5.0.0/interface/forms/eye_mag/js/eye_base.php:3779-3780 | the slot chosen is the first of slots 2 to 5 not flagged "1"; none means all are flagged |
| Eye.NextSlotAdvances | sys/external-jars/openemr-5.0.0/interface/forms/eye_mag/js/eye_base.php:3779-3786 | flagging the chosen slot moves the next choice later, or leaves none |
| Eye.Glasses.constructor | sys/external-jars/openemr-5.0.0/interface/forms/eye_mag/js/eye_base.php:3778 | the glasses panel starts with the given flags, shown slots and button state |
| Eye.Glasses.AddGlasses | sys/external-jars/openemr-5.0.0/interface/forms/eye_mag/js/eye_base.php:3778-3787 | the next free slot is flagged and shown, the button is hidden once slot 5 is taken, and with no free slot nothing changes |

## Left out

- **Input and output.** These are parameters, oracles or absent:
  - database queries and the Redis, TiKV and Postgres stores;
  - SOAP and AJAX calls;
  - HTML and DOM output, and page styling;
  - logging and timing.
- **Concurrency.** Thread pools, futures, atomic counters and lock timeouts are modelled sequentially. A `tryLock` outcome is an oracle, and completion callbacks are counted one at a time.
- **Randomness.** `Generator.generateInt` is a nondeterministic choice in range.
- FreeHealthGenerator.Generator.GenerateAddDrugInteraction: the draw-again loop is bounded by an `attempts` count and reports `None` when it runs out. The source's loop has no bound.
- FreeHealthGenerator.Generator.GenerateDistinctIDs: the same bounded loop as `GenerateAddDrugInteraction`.
- FreeHealthGenerator.IDtoDate: returns the year and the day of the year. The source formats them into a date string through the Java calendar, which is not modelled.
- **Floating point.**
  - MarkovEngine2.Engine.AddAverageTrackingInfo: the averages are exact reals, so `double` rounding is not modelled.
  - `MarkovGraph.computeGraphDiffScore` is not modelled: it is floating-point scoring.
  - `computeQueryProbability` is not modelled. Its value is the `prob` parameter of `GetImportantQueries`.
  - Edih835.CasAmount: the quantity is read to hundredths and the product is rounded down to a cent. PHP multiplies the amount by the quantity as floats.
  - Edih835.Post: 835 amounts are integer cents, so PHP float rounding is not modelled. The money formatter `edih_format_money` is defined outside `edih_835_html.php` and is not part of this model.
- **Collaborators not shown.** These are not part of this model:
  - the ANTLR query parser and `SelectListAliasAdjuster`;
  - `MarkovNode`, `DependencyGraph`, `QueryMappingEntry`, `QueryResult` and `SerializableIDSet`;
  - `RecoveryEncrypter` masking and the map (de)serialisation;
  - the 835 code-description lookups.

  The values they produce are parameters. Examples: a query's column names and aliases, the dependency-graph operations, and a serialised map.
- LateralUnionVectorizer.ReplaceAlias: matches the alias key as literal text not followed by `_`. The source builds a regular expression `key(?!_)` for `replaceFirst`, so a key holding regular-expression metacharacters (`.`, `(`, `$` and so on) matches differently there.
- LateralUnionVectorizer.SplitApartResultSet: decoding one row into a query's columns (`decodeRowForQueriesAtLevel`) is the `decode` parameter.
- **Vectorizer column counts.** `getNumberOfSelectedCols` runs the query with `LIMIT 0` against the database and caches the column count per query id. The database is outside this model, so the counts are a parameter.
- **Vectorizer operations not modelled.** These use the query parser: the single-query `vectorize` path, `adjustMappingOffsets`, `qualifyColumnMappings`, `rewriteQueryWithColumnMappings` and `getPlaceToToplogicalLevelMap`.
- **Java HashMap iteration order.** Where the source iterates a HashMap whose order matters, it is taken to be first-appearance order (`generateSingletonValues`, the mapping configurations).
- **MarkovGraph Tarjan search.** `stronglyConnected` passes the vertex counter by value and compares `Integer` objects with `==`, that is, by reference. The model compares by value. This is an open question, not corrected. For small counters the two readings agree because of the JVM's Integer cache.
- **zipperMerge column position.** `zipperMerge` never advances `selectedColPosition` in the loop over later queries (LateralUnionVectorizer.java:1160-1194). The model keeps that behaviour and does not correct it.
- **PLB pairs in the 835 renderer.** `array_slice($sar, 2)` makes the PLB adjustment pairs start at PLB03 (edih_835_html.php:1168). `Edih835.PlbReadsOddElements` states the pairing as written. Whether it was intended is left open.
- **835 loop state.** Before the first ST in `edih_835_payment_html`, the loop variable `$loopid` is unset: the code initialises `$loop` instead. The model starts it as `NoLoop`, and it carries over from one transaction to the next as in the code.
- **The PER check in the 835 payment listing.** It tests `$loopid == '2100'` twice (edih_835_html.php:1005). A PER segment in loop 2110 is therefore not routed to the claim group. It is taken as written.
- **Demographics print_as_money.** The repair of a leading comma can never apply to the grouped digits. `Demographics.PrintAsMoneyGroups` states the output the code produces.
- **DemographicsFull page checks.**
  - The confirmation dialogs' answers are a function parameter.
  - The page's layout validation (`validate` and its messages) is not modelled.
- DemographicsFull.CapWord: upper-cases the first character with the ASCII map `a`-`z` to `A`-`Z` only, so the word keeps its length. JavaScript `toUpperCase` maps every cased letter and can lengthen the text ("élise" gives "Élise", "ß1" gives "SS1"); that is not modelled.
- DemographicsFull.UpperFirstLetter: the same ASCII-only upper-casing as `CapWord`; non-ASCII letters are left as they are.
- DemographicsFull.CapitalizeMe: capitalises each word with `CapWord`, so the same ASCII-only restriction applies.
- DemographicsFull.PolicyKeyUp: upper-cases the value with the ASCII map before filtering; the Unicode and length-changing mappings of `toUpperCase` are not modelled.
- **Eye counters.**
  - Eye.MotilityNext: grades are small integers. The source's string comparison of multi-digit grades is not modelled.
  - Eye.AmslerClick: image numbers are single digits, as the form produces them.
  - Eye: diopter text formatting and parsing is not modelled; prescriptions are quarter-diopter integers.
- **Pnuser checks not modelled.** These are the invalid-date (`checkdate`) errors, the event collision check and the loaded events' AM/PM display. They depend on PHP date functions and the database.
- **PHP date functions.** `strtotime`, `date` and `checkdate`, and numeric coercion such as `substr(...) + 0`, are modelled only for the forms the page produces: digit strings and calendar fields.
- EditList.ParseInt: reads base 10 only. Without a radix, JavaScript `parseInt` reads a "0x" or "0X" prefix as hexadecimal; the model reads it as 0 followed by ignored text. Leading blanks are the ASCII blanks of `Text.IsTrimSpace`, not every Unicode white-space character. A sign and trailing text after the digits are modelled.
- **RedisPostgresClient statement builders.** `read`, `write`, `update`, `delete` and their `...AndExecute` forms each append one statement to the pending list. Of these, the model has `readForUpdate`, whose statement decides the lock kind. The others are not modelled; their statements enter the model as the pending list.
- **RedisPostgresClient SQL path.** The SQL path of `executeOps` (`USE_SQL`) is not modelled. The model follows the key-value path that `USE_SQL == false` selects.
- **Claims getters and obsolete code.**
  - `providerNPI` and the other plain getters over query rows are not modelled.
  - `cptNDCUOM` is not modelled.
  - The obsolete `diagIndex` is not modelled.
- **Integer width.** Java `int` and `long` arithmetic is modelled on unbounded integers. 32-bit overflow is not modelled: in the query and transition counters, the FreeHealth generator's ids and counts, and the collection sizes.
- **Key hashing in the write-ahead log.** Store keys are a structured datatype, and the source's key hashing is taken to be injective.

## Findings

| source | as written | input that shows it | evidently intended | confidence | as-written member | corrected member |
|---|---|---|---|---|---|---|
| sys/src/main/java/shield/proxy/oram/recover/WriteAheadLog.java:560-567 | the stride header is len / stride + 1 | a blob whose length is a multiple of the stride, e.g. the empty blob: header 1, no chunk written, recovery reads chunk key 0 | the header counts the chunks written, ceil(len / stride) | high, not executed | WriteAheadLog.EmptyBlobReadsUnwrittenChunk | WriteAheadLog.ChunkCountReadsWrittenChunks |
| sys/src/main/java/shield/proxy/oram/recover/WriteAheadLog.java:589-596 | the last-completed-epoch record is masked when written but decoded without unmasking on recovery | a mask that complements every byte: epoch 0 is stored as ff ff ff ff and read back as -1 | recovery unmasks the record before decoding it, as it does for the masked maps | medium, not executed | WriteAheadLog.MaskedEpochMisreadAsWritten | WriteAheadLog.StoredEpochUnmaskedRoundTrip |
| sys/external-jars/openemr-5.0.0/library/Claim.class.php:1230-1238 | NPIValid tests a digit pattern that also matches the empty string, so any ten characters pass | "ABCDEFGHIJ" | an NPI is exactly ten decimal digits | high, not executed | Claims.NPIValidAsWrittenAcceptsLetters | Claims.NPIValidRefinesAsWritten |
| sys/external-jars/openemr-5.0.0/interface/main/calendar/modules/PostCalendar/pnuser.php:1161-1164 | the PM conversion of the event hour runs again for every day and every limit, on the already converted hour | a 3:00 PM event in a category with two limits, the second from 10:00 and reached: it is compared with hour 27 | the hour is converted once | high, not executed | Pnuser.LimitsAsWrittenMissesSecondLimit | Pnuser.LimitReached |
| sys/external-jars/openemr-5.0.0/interface/main/calendar/modules/PostCalendar/pnuser.php:939-941 | the search end's day, month and year are each raised to the start's independently | 20 May to 10 June becomes 20 May to 20 June | the end date is moved only when it is before the start date | medium, not executed | Pnuser.SearchEndAsWrittenMovesLaterEnd | Pnuser.SearchEnd |
| sys/external-jars/openemr-5.0.0/interface/forms/eye_mag/js/eye_base.php:1877-1881 | an axis of 90 or more loses 90, so 180 becomes 90 and then 0 | a right eye at axis 180, converted twice: axis 90, then 0 | transposition is an involution on axes 1 to 180 | high, not executed | Eye.ReverseCylinderAsWrittenLosesAxis180 | Eye.AxisTransposeInvolution |
| sys/external-jars/openemr-5.0.0/interface/forms/eye_mag/js/eye_base.php:1868 | reverse_cylinder reads the undeclared `lcyl`, which throws, so a prescription with only a left cylinder is never converted | left cylinder -4.00 axis 180, right cylinder empty | the left eye is converted | high, not executed | Eye.ReverseCylinderAsWrittenSkipsLeft | Eye.ReverseCylinderTwice |
