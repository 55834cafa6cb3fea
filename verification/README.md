# snowbear query-graph compiler in Dafny

snowbear turns chained DataFrame-style calls into SQL text. This project
models that compiler:

- **Relation handles.** `select`, `where`, `order_by`, `join(...).on/using`,
  `groupby(...).aggregate`, the set operations and `sql` each build a new
  `SqlDataFrame`. That frame holds one transformation over the frames it
  was called on. `union` fails instead (see "## Findings").
- **Datasets.** A `Dataset` is a bare table. It has no transformation and
  always answers its table name.
- **`extend_transformations`.** It walks this graph depth-first and lists
  every frame with a transformation after the frames it reads.
- **`to_sql`.** It turns that list into a `WITH` list of common table
  expressions (the WITH clause of section 7.13 of ISO/IEC 9075-2),
  followed by a `--final` comment line and the frame's own statement.
- **Renderers.** Each kind of transformation renders its own statement from
  the parts it stored.
- **`DataframeTransformation`.** A mutable accumulator of select, join,
  filter, grouping, ordering, qualify and limit parts. It renders one
  statement with its clauses in a fixed order.
- **`_get_batches`.** It re-chunks a cursor's batches.
- **`OneHotEncoder`.** It plans one indicator column per category.

Modules, one per source file:

| file | module | source |
|---|---|---|
| `results.dfy` | `Results` | `Option`, `Result` and the error cases |
| `text.dfy` | `Text` | `str.join`, `textwrap.indent`, `str.replace`, `str.lower`, `str(int)` and facts about them |
| `terms.dfy` | `Terms` | the terms, with their rendering given as a `Dialect` |
| `select_transformation.dfy` … `raw_sql_transformation.dfy` | one per transformation file | `get_sql` of each kind of transformation |
| `dataframes.dfy` | `Dataframes` | `sql_dataframe.py`, `session.py`, `transformations.py`: frames, the graph, the walk, `to_sql` |
| `dataframe_transformation.dfy` | `DataframeTransformations` | `dataframe_transformation.py` |
| `batches.dfy` | `Batches` | `_get_batches` of `sql.py` |
| `encoders.dfy` | `Encoders` | `encoders.py` |

Frames are objects (`class SqlDataFrame`).

- `alias()` overwrites a frame's alias in place.
- The select, where, order-by, group-by, join, join-using and raw-SQL
  renderers call `get_alias_name()` on their sources when they run. A
  later `alias()` shows in every statement these renderers write about
  the frame.
- Three places print the bound method `get_alias_name` without calling
  it, so the alias does not show there:
  - the set operation (`set_transformation.py:20`);
  - the FROM line of the accumulator (`dataframe_transformation.py:133`);
  - the JOIN lines of the accumulator (`dataframe_transformation.py:71,75`).
  The model gives that text as `d.methodRef`.
- A frame's transformation is a constant field. Its `Valid()` predicate
  says the graph below it was built bottom-up, and it reads only constant
  fields, so renaming never breaks it.
- The operations that build frames have no `modifies` clause, so the
  frames they are called on are unchanged by construction.
- `ToSql` is a function of the heap, so two calls without a mutation in
  between give the same text.

`DataframeTransformation` and `OneHotEncoder` are classes whose methods
update their fields. `_get_batches`, `_disambiguate`, the raw-SQL
substitution and the dictionary building of `transform` are loops. Each
loop is proved equal to a specification function, and the properties are
proved as lemmas about that function.

## Model

| member | source | states |
|---|---|---|
| Dataframes.Session.Dataset | snowbear/dataframes/session.py:26-27 | a new bare table of this session: the name and the schema are stored, there is no transformation, and its alias name is the table name (the schema is not part of it) |
| Dataframes.SqlDataFrame.constructor | snowbear/dataframes/sql_dataframe.py:83-87 | a new frame holds the given session and transformation under a fresh ten-letter alias, and is valid when its sources are |
| Dataframes.SqlDataFrame.Dataset | snowbear/dataframes/session.py:13-20 | a dataset frame has no transformation, so it stands for no common table expression, and it keeps its table name and schema |
| Dataframes.SqlDataFrame.Alias | snowbear/dataframes/sql_dataframe.py:175-177 | renames the frame in place and returns the same object; afterwards a frame answers the new name, but a dataset keeps answering its table name |
| Dataframes.SqlDataFrame.Field | snowbear/dataframes/sql_dataframe.py:165-169 | `frame.name` and `frame[name]` are the column of that name belonging to that frame |
| Dataframes.SqlDataFrame.Join | snowbear/dataframes/sql_dataframe.py:95-96 | a pending join of the receiver with the other frame under the keyword JOIN |
| Dataframes.SqlDataFrame.LeftJoin | snowbear/dataframes/sql_dataframe.py:98-99 | the same with LEFT JOIN |
| Dataframes.SqlDataFrame.RightJoin | snowbear/dataframes/sql_dataframe.py:101-102 | the same with RIGHT JOIN |
| Dataframes.SqlDataFrame.InnerJoin | snowbear/dataframes/sql_dataframe.py:104-105 | the same with INNER JOIN |
| Dataframes.SqlDataFrame.Select | snowbear/dataframes/sql_dataframe.py:107-116 | a fresh valid frame of the same session whose select transformation reads the receiver, one term per keyword argument aliased with the keyword, in keyword order; the receiver is unchanged |
| Dataframes.SqlDataFrame.Where | snowbear/dataframes/sql_dataframe.py:118-122 | a fresh valid frame whose filter transformation reads the receiver, with the arguments resolved against it, in order |
| Dataframes.SqlDataFrame.GroupBy | snowbear/dataframes/sql_dataframe.py:124-129 | a pending grouping of the receiver by the arguments resolved against it, in order |
| Dataframes.SqlDataFrame.Sql | snowbear/dataframes/sql_dataframe.py:131-137 | a fresh valid frame whose raw-SQL transformation holds the statement and the receiver, with no additional sources |
| Dataframes.SqlDataFrame.Union | snowbear/dataframes/sql_dataframe.py:139-141 | fails on every input: the frame constructor is called without its required `session` argument (sql_dataframe.py:83), a TypeError |
| Dataframes.SqlDataFrame.UnionInSession | snowbear/dataframes/sql_dataframe.py:143-145 | the intended `union`: a fresh valid frame in the receiver's session with the set operation UNION of the receiver and the other frame, as `union_all` builds it |
| Dataframes.SqlDataFrame.UnionAll | snowbear/dataframes/sql_dataframe.py:143-145 | a fresh valid frame in the receiver's session with the set operation UNION ALL of the receiver and the other frame |
| Dataframes.SqlDataFrame.Intersect | snowbear/dataframes/sql_dataframe.py:147-149 | the same with INTERSECT |
| Dataframes.SqlDataFrame.ExceptOf | snowbear/dataframes/sql_dataframe.py:151-153 | the same with EXCEPT |
| Dataframes.SqlDataFrame.Minus | snowbear/dataframes/sql_dataframe.py:155-157 | the same with MINUS |
| Dataframes.SqlDataFrame.OrderBy | snowbear/dataframes/sql_dataframe.py:159-163 | a fresh valid frame ordering the receiver by the resolved arguments, in order, with the one given direction |
| Dataframes.SetOpDependencies | snowbear/dataframes/transformations/set_transformation.py:5-9 | a set operation lists the chain of its first operand, then the chain of the second; the first failure wins |
| Dataframes.UnionOfTables | snowbear/dataframes/transformations/set_transformation.py:19-20 | the union of two tables needs no common table expression: `to_sql` is `SELECT *`, then `FROM` with the first operand's printed reference, then `UNION`, then the second operand's, on four lines |
| Dataframes.PlainTerms | snowbear/dataframes/sql_dataframe.py:57-62 | each positional argument in order: a callable is applied to the receiving frame, any other value is used as it is |
| Dataframes.NamedTerms | snowbear/dataframes/sql_dataframe.py:41-46 | each keyword argument in keyword order, resolved the same way and aliased with its keyword |
| Dataframes.JoinExpression.On | snowbear/dataframes/sql_dataframe.py:28-32 | a fresh valid frame in the left frame's session joining the two frames on the predicates, stored as given with the join type |
| Dataframes.JoinExpression.Using | snowbear/dataframes/sql_dataframe.py:34-38 | a fresh valid frame joining the two frames using the one given column |
| Dataframes.GroupbyExpression.Aggregate | snowbear/dataframes/sql_dataframe.py:70-79 | a fresh valid frame grouping by the keys with one aliased aggregate per keyword, in order; no aggregate at all is accepted |
| Dataframes.Extend | snowbear/dataframes/transformations/transformations.py:15-20 | a frame without transformation adds nothing; otherwise the transformation's dependencies, then exactly one entry (the frame's table name, its transformation), and it fails exactly when the dependencies fail |
| Dataframes.Dependencies | snowbear/dataframes/transformations/raw_sql_transformation.py:20-24 | every kind of transformation lists the chains of its sources, source first; a raw-SQL transformation with any additional source fails, because its loop walks the dictionary's string keys |
| Dataframes.ExtendAll | snowbear/dataframes/transformations/join_transformation.py:8-12 | the chains of several frames one after the other, reading only frames below them |
| Dataframes.RenderCtes | snowbear/dataframes/sql_dataframe.py:182-184 | one common table expression per dependency, in dependency order: the name, ` AS (`, the tab-indented statement, `)` |
| Dataframes.ToSql | snowbear/dataframes/sql_dataframe.py:179-188 | a frame without transformation fails; otherwise `to_sql` succeeds exactly when the dependency walk does |
| Dataframes.ExtendUpstreamFirst | snowbear/dataframes/transformations/transformations.py:17-19 | in the walk's result, every frame with a transformation that an entry reads has its own entry earlier: each common table expression is defined before it is used |
| Dataframes.ExtendAllUpstreamFirst | snowbear/dataframes/transformations/set_transformation.py:5-9 | the same for two or more chains in a row, and every listed frame with a transformation has its entry in the result |
| Dataframes.ExtendExact | snowbear/dataframes/transformations/transformations.py:15-20 | the entries are exactly those of the frames the frame is built from, itself included, that have a transformation |
| Dataframes.SelfJoinRepeats | snowbear/dataframes/transformations/join_transformation.py:8-12 | there is no deduplication: a frame joined with itself has its whole chain listed twice, its own entry ending each copy |
| Dataframes.ToSqlOverTables | snowbear/dataframes/sql_dataframe.py:185-186 | with no dependency (sources that are tables), `to_sql` is exactly the transformation's own statement |
| Dataframes.CompileLayout | snowbear/dataframes/sql_dataframe.py:182-188 | with dependencies, the text starts with `WITH` and a blank line, contains every common table expression, and ends with `--final` and the final statement |
| Dataframes.ToSqlLayout | snowbear/dataframes/sql_dataframe.py:179-188 | `to_sql` holds the common table expression of every dependency and ends with the frame's own statement after the `--final` line |
| Dataframes.SelectOverWhere | snowbear/dataframes/sql_dataframe.py:180-188 | a select over a filter over a table compiles to one common table expression named by the filter frame's alias, read by that alias in the final statement |
| SelectTransformation.OneSelector | snowbear/dataframes/transformations/select_transformation.py:18-20 | one selector is printed with its alias on one tab-indented line between `SELECT` and `FROM` |
| SelectTransformation.AppendSelector | snowbear/dataframes/transformations/select_transformation.py:18-20 | each further selector follows the earlier ones after `,` and a line break, tab-indented: the text keeps the order of the list |
| WhereTransformation.OneFilter | snowbear/dataframes/transformations/where_transformation.py:15-16 | a single filter is printed without any AND |
| WhereTransformation.AppendFilter | snowbear/dataframes/transformations/where_transformation.py:15-16 | each further filter adds ` AND ` and the filter at the end |
| OrderbyTransformation.SortKeys | snowbear/dataframes/transformations/orderby_transformation.py:16-17 | every sort key is rendered without alias and carries the same single direction |
| OrderbyTransformation.AppendSortKey | snowbear/dataframes/transformations/orderby_transformation.py:16-17 | each further key adds `, `, the key and the direction at the end |
| OrderbyTransformation.OneKeyAscending | snowbear/dataframes/sql_dataframe.py:159-163 | one key in the default direction prints as `ORDER BY key ASC` |
| GroupbyTransformation.OneKeyOneAggregate | snowbear/dataframes/transformations/groupby_transformation.py:18-21 | the SELECT list is the key with alias then the aggregate with alias; the GROUP BY list is the key alone without alias |
| GroupbyTransformation.NoAggregates | snowbear/dataframes/transformations/groupby_transformation.py:18-21 | with no aggregate, the SELECT list is the keys alone |
| JoinTransformation.OnePredicate | snowbear/dataframes/transformations/join_transformation.py:26-28 | a single ON predicate is printed without any AND |
| JoinTransformation.AppendPredicate | snowbear/dataframes/transformations/join_transformation.py:26-28 | each further predicate adds `AND`, a line break and the predicate at the end, with no space before AND |
| JoinTransformation.PartsDetermined | snowbear/dataframes/transformations/join_transformation.py:26-28 | the statement determines the source, the join line and the ON text when the first two have no line break |
| JoinUsingTransformation.PartsDetermined | snowbear/dataframes/transformations/join_using_transformation.py:20-21 | the statement determines the source, the join line and the one USING column |
| SetTransformation.PartsDetermined | snowbear/dataframes/transformations/set_transformation.py:19 | the statement determines both operands and the keyword, which is emitted as stored |
| RawSqlTransformation.Placeholder | snowbear/dataframes/transformations/raw_sql_transformation.py:14-16 | a placeholder is the key between double braces |
| RawSqlTransformation.GetSql | snowbear/dataframes/transformations/raw_sql_transformation.py:13-17 | the loop returns the text with `{{source}}` replaced by the source's alias, then each additional key's placeholder by its alias, in dictionary order |
| RawSqlTransformation.SubstituteExtraSnoc | snowbear/dataframes/transformations/raw_sql_transformation.py:15-16 | a source added at the end of the dictionary is substituted last, into what the earlier ones left |
| RawSqlTransformation.NoPlaceholder | snowbear/dataframes/transformations/raw_sql_transformation.py:13-17 | a statement without `{{` comes back unchanged, whatever the sources |
| RawSqlTransformation.SourceSpliced | snowbear/dataframes/transformations/raw_sql_transformation.py:14 | a single `{{source}}` becomes exactly the alias, without quoting, and the text around it is kept |
| RawSqlTransformation.TripleBraceTemplate | snowbear/dataframes/transformations/raw_sql_transformation.py:14 | `SELECT * FROM {{{source}}}` becomes `SELECT * FROM {alias}`: one brace stays on either side |
| DataframeTransformations.DataframeTransformation.constructor | snowbear/dataframes/transformations/dataframe_transformation.py:30-44 | the accumulator holds the source and the given lists, limit and qualify term |
| DataframeTransformations.DataframeTransformation.Copy | snowbear/dataframes/transformations/dataframe_transformation.py:46-50 | a fresh accumulator over the same source with the same lists and limit; the ordering comes back empty and qualify absent; sealed exactly when the original is |
| DataframeTransformations.DataframeTransformation.AddJoin | snowbear/dataframes/transformations/dataframe_transformation.py:145-148 | one join definition appended to the joins and the frame appended to the dependencies; nothing else changes |
| DataframeTransformations.DataframeTransformation.AddGroupby | snowbear/dataframes/transformations/dataframe_transformation.py:150-152 | keys and aggregates appended at the end, nothing else changes; any key seals the accumulator |
| DataframeTransformations.DataframeTransformation.AddFilter | snowbear/dataframes/transformations/dataframe_transformation.py:154-155 | filters appended at the end; nothing else changes |
| DataframeTransformations.DataframeTransformation.AddSelect | snowbear/dataframes/transformations/dataframe_transformation.py:157-158 | selectors appended at the end, nothing else changes; any selector seals the accumulator |
| DataframeTransformations.DataframeTransformation.AddOrderby | snowbear/dataframes/transformations/dataframe_transformation.py:160-161 | ordering keys appended at the end; nothing else changes |
| DataframeTransformations.DataframeTransformation.AddLimit | snowbear/dataframes/transformations/dataframe_transformation.py:163-164 | the limit is overwritten, repeatedly if need be; nothing else changes |
| DataframeTransformations.DataframeTransformation.AddQualify | snowbear/dataframes/transformations/dataframe_transformation.py:166-167 | the qualify term is overwritten; nothing else changes |
| DataframeTransformations.DataframeTransformation.GetDependencies | snowbear/dataframes/transformations/dataframe_transformation.py:23-28 | the source's chain, then each dependency's chain, with every entry after the entries of the frames it reads |
| DataframeTransformations.WalkAll | snowbear/dataframes/transformations/dataframe_transformation.py:23-28 | the loop of walks returns the chains of the frames in order, or the first failure |
| DataframeTransformations.ExtendAllAppend | snowbear/dataframes/transformations/dataframe_transformation.py:23-28 | walking two lists of frames in a row gives the first failure or the two results concatenated |
| DataframeTransformations.Disambiguate | snowbear/dataframes/transformations/dataframe_transformation.py:84-92 | the loop returns the left fields followed by exactly the right fields that are the first under a name not seen before, in their order on the right |
| DataframeTransformations.DisambiguatedFirstSeen | snowbear/dataframes/transformations/dataframe_transformation.py:85-92 | first seen wins: the result is the left fields, then exactly those right fields that are the first of the right list under their name and whose name the left does not have, in right-list order |
| DataframeTransformations.FirstFieldKept | snowbear/dataframes/transformations/dataframe_transformation.py:88-91 | of two right fields under one new name, the first is kept and the second dropped |
| DataframeTransformations.DisambiguatedPrefix | snowbear/dataframes/transformations/dataframe_transformation.py:85-87 | all left fields are kept, in order, in front |
| DataframeTransformations.DisambiguatedAdds | snowbear/dataframes/transformations/dataframe_transformation.py:88-91 | every added field comes from the right and carries a name not present before it, so no name is added twice |
| DataframeTransformations.DisambiguatedCovers | snowbear/dataframes/transformations/dataframe_transformation.py:88-91 | every right field's name is present in the result (which field is kept under it is stated by `DisambiguatedFirstSeen`) |
| DataframeTransformations.DisambiguateExample | tests/dataframes/test_joins.py:17-30 | `id, name` on the left and `id, role` on the right give `id, name, role`, with the left `id` |
| DataframeTransformations.GroupbyFixesSelect | snowbear/dataframes/transformations/dataframe_transformation.py:101-104 | with a grouping, the select list lists every key then every aggregate, and selectors and joins do not matter |
| DataframeTransformations.SelectorsFixSelect | snowbear/dataframes/transformations/dataframe_transformation.py:105-106 | without grouping, selectors fix the select list and each of them is listed |
| DataframeTransformations.JoinsInferSelect | snowbear/dataframes/transformations/dataframe_transformation.py:94-99 | with joins only, every column of the source is listed, as a field of the source |
| DataframeTransformations.StarWithoutColumns | snowbear/dataframes/transformations/dataframe_transformation.py:109-114 | with neither grouping, selectors nor joins, the select list is `*` |
| DataframeTransformations.JoinTerm | snowbear/dataframes/transformations/dataframe_transformation.py:67-77 | a join text exists exactly for the kinds ON and USING; any other kind is an error naming it |
| DataframeTransformations.JoinTerms | snowbear/dataframes/transformations/dataframe_transformation.py:79-80 | one join text per join, in order, or the error of the first join of an unknown kind |
| DataframeTransformations.OnOnePredicate | snowbear/dataframes/transformations/dataframe_transformation.py:68-71 | one ON predicate goes on the line after the join keyword and the frame, behind one tab |
| DataframeTransformations.OrderItems | snowbear/dataframes/transformations/dataframe_transformation.py:123-128 | each ordering key rendered without alias and followed by its own direction |
| Terms.DefaultsRender | snowbear/dataframes/transformations/dataframe_transformation.py:101-128 | inside the accumulator's `get_sql`, every term prints as `get_sql` with the session's `get_kwargs_defaults()` arguments, while frame references print as elsewhere |
| DataframeTransformations.RenderSql | snowbear/dataframes/transformations/dataframe_transformation.py:130-143 | `get_sql` succeeds exactly when every join is of kind ON or USING; the layout is stated by the lemmas below |
| DataframeTransformations.UnknownJoinFails | snowbear/dataframes/transformations/dataframe_transformation.py:77 | a join of an unknown kind makes `get_sql` fail with the first such kind |
| DataframeTransformations.LimitLast | snowbear/dataframes/transformations/dataframe_transformation.py:139-143 | LIMIT appears exactly when there is a limit, zero included, and as the last line |
| DataframeTransformations.PartsPresent | snowbear/dataframes/transformations/dataframe_transformation.py:140-143 | every clause that is not empty is in the statement |
| DataframeTransformations.NonEmptyKeeps | snowbear/dataframes/transformations/dataframe_transformation.py:140-142 | filtering keeps exactly the parts that are not empty |
| DataframeTransformations.ClauseOrder | snowbear/dataframes/transformations/dataframe_transformation.py:130-143 | the clauses come in the fixed order SELECT, FROM, joins, WHERE, GROUP BY, ORDER BY, QUALIFY, LIMIT: of any two present parts the earlier comes first, followed by a line break, and only the parts present between them lie between them |
| DataframeTransformations.PartsInOrder | snowbear/dataframes/transformations/dataframe_transformation.py:140-143 | joining the filtered parts with newlines keeps every two non-empty parts in list order, with exactly the kept parts before, between and after them |
| DataframeTransformations.FullStatement | snowbear/dataframes/transformations/dataframe_transformation.py:130-143 | with every clause present, the statement is SELECT, `FROM` and the source reference, the joins, `WHERE`, `GROUP BY`, `ORDER BY`, `QUALIFY` each with its indented body, and `LIMIT n`, one after the other on their own lines |
| DataframeTransformations.SelectFromWhere | snowbear/dataframes/transformations/dataframe_transformation.py:130-143 | an accumulator that only selects renders as its SELECT then FROM; with filters, its WHERE clause follows right after the FROM line |
| Batches.GetBatches | snowbear/sql.py:49-67 | with no batch it fails at the final rename; otherwise it yields the rows of all batches re-cut into chunks of `chunksize` rows, with lower-cased column names |
| Batches.LowerColumns | snowbear/sql.py:64-66 | every column name lower-cased, in place |
| Batches.RechunkFlatten | snowbear/sql.py:55-67 | concatenating the chunks gives back every row, in order |
| Batches.RechunkSizes | snowbear/sql.py:61-67 | every chunk but the last has exactly `chunksize` rows; the last has at most `chunksize` and at least one when there are rows |
| Batches.ThreeRowsOneChunk | tests/dataframes/test_dataframes.py:46-59 | a three-row result read with chunk size 1000 comes back as one chunk of three rows |
| Encoders.GetCategories | snowbear/dataframes/encoders.py:8-14 | explicit categories are used as given; for `"auto"` the discovered values are used |
| Encoders.OneHotEncoder.constructor | snowbear/dataframes/encoders.py:18-28 | the input column and the categories are stored, and nothing is fitted |
| Encoders.OneHotEncoder.Fit | snowbear/dataframes/encoders.py:30-33 | records the categories and returns the same encoder |
| Encoders.OneHotEncoder.Transform | snowbear/dataframes/encoders.py:35-46 | unfitted with the input column present it fails; otherwise a fresh valid select over the frame with the planned columns |
| Encoders.OneHotEncoder.CollectTerms | snowbear/dataframes/encoders.py:37-44 | the nested loops build the dictionary the column assignments give, and fail exactly when the encoder is unfitted and meets the input column |
| Encoders.OneHotEncoder.PutIndicators | snowbear/dataframes/encoders.py:42-44 | the inner loop assigns one indicator per fitted category, in fitted order |
| Encoders.OneHotEncoder.FitTransform | snowbear/dataframes/encoders.py:48-49 | fits, then selects the columns planned with the fitted categories, and never fails |
| Encoders.Indicators | snowbear/dataframes/encoders.py:42-44 | one column `input_category` per category, in order, each a CASE of the input equal to the category, 1 or else 0 |
| Encoders.Kwargs | snowbear/dataframes/encoders.py:46 | the dictionary's entries in insertion order as keyword arguments |
| Encoders.PutKeeps | snowbear/dataframes/encoders.py:40-44 | a dictionary assignment keeps keys distinct, adds the key with its value and keeps every other entry |
| Encoders.FoldKeys | snowbear/dataframes/encoders.py:37-44 | the dictionary has each assigned name exactly once |
| Encoders.FoldLastWins | snowbear/dataframes/encoders.py:37-44 | each name ends up with the value of its last assignment |
| Encoders.FoldDistinct | snowbear/dataframes/encoders.py:37-44 | without a repeated name, the dictionary is the assignments, in order |
| Encoders.AssignmentsCount | snowbear/dataframes/encoders.py:38-44 | with distinct column names including the input column, there are the other columns plus one column per category |
| Encoders.NoInputCount | snowbear/dataframes/encoders.py:38-41 | without the input column, every column is kept as itself under its own name, in order |
| Encoders.SelectedFromAssignments | snowbear/dataframes/encoders.py:35-46 | the last assignment to each name is selected under that name |
| Encoders.EncodeTestTable | tests/dataframes/test_dataframes.py:71-87 | `id, category, val` with categories `A, B` becomes `id, category_A, category_B, val`, the input column replaced in place by its indicators |

## Left out

- Term rendering and dialects: the term classes, `functions`, the enums
  and the dialect classes are not part of this model.
  - A term's text comes from a `Dialect` value, which has two printers
    left abstract. `render` is a plain `get_sql` call, as the select,
    where, order-by, group-by, join and join-using renderers make it.
    `sessionRender` is the call with a session's `get_kwargs_defaults()`
    added, as the accumulator makes it (`Dialect.WithDefaults`). Nothing
    relates the two texts of one term, and what the default arguments
    change in the text is not modelled.
  - `Term` has only the constructors the modelled code builds: a field, an
    alias, an equality with a constant, a CASE with two integers, and an
    opaque term.
- Un-called methods: `dataframe_transformation.py:71,75,133` and
  `set_transformation.py:20` format the bound method `get_alias_name`
  without calling it. Its text is the `methodRef` function of the
  `Dialect`, which is left abstract.
- Live queries: `columns()` runs one, so `DataframeTransformation.GetSql`
  and `OneHotEncoder.Transform` take the column lists as a parameter.
  - The `"auto"` category discovery also runs one; its result is the
    `discovered` parameter of `Fit`.
  - `to_df`, `Session.temp_dataset`, `Session.query`, the connection and
    the other database functions of `sql.py` are I/O.
- Random aliases: the alias drawn at random by the frame constructor is
  the `freshAlias` parameter, required to be ten upper-case ASCII letters.
- Unused or broken files:
  - `merge_transformation.py` does not parse.
  - `output_cols` of the encoder is stored but never used.
  - Neither is modelled.
- `sql(statement, **kwargs)` with keyword arguments unpacks each keyword
  string as a pair. Only the call without keyword arguments is modelled.
  The raw-SQL renderer still takes any number of additional sources.
- Python lists are shared between objects in several places:
  `_disambiguate` appends to the caller's left list, and the constructor
  and `add_*` of `DataframeTransformation` keep the caller's lists. The
  model uses sequence values, so that aliasing and the independence of
  `copy`'s lists are not represented.
- Errors: `create_join_term` raises a string, which Python turns into a
  TypeError; it is the error `UnknownJoinKind`. The qualify term is
  assumed to render to true in `get_sql`'s truth test, as any term object
  does.
- Text functions:
  - `str.lower` is modelled on ASCII letters only.
  - `textwrap.indent` is modelled with its default predicate: lines that
    are not blank get the prefix, and line ends are those of
    `str.splitlines`.
- Values:
  - Encoder categories are strings.
  - The direction of an ordering key is its enum's string value.
  - The pandas concatenation and index handling of `_get_batches` are
    modelled as row sequences.
  - The generator's yields are the returned list of chunks.
- `DataframeTransformations.DataframeTransformation.GetDependencies` walks
  the source and the dependencies in one loop over `[source] + deps`.
  The source code makes one call for the source, then loops over the
  dependencies; the result is the same.
- Raw-SQL placeholders: the test at `tests/dataframes/test_custom_sql.py:42`
  writes `{{{source}}}`, but the code replaces double-brace placeholders.
  The model follows the code. `TripleBraceTemplate` shows what the code
  makes of the test's statement.
- ON predicates are joined by `AND` and a line break with no space before
  the `AND`, in both join renderers. The model keeps this.
- Batches.GetBatches: requires `chunksize >= 1`. `read_sql_query` passes
  any truthy chunk size, and with a negative one the inner
  `while len(current_batch) > chunksize` never ends: each turn yields
  `iloc[0:chunksize]` and keeps the last rows. That non-terminating
  generator is not modelled.
- Dataframes.SqlDataFrame.Select: `select` also accepts plain values such
  as numbers, strings and booleans. `parse_from_context` then fails with an
  AttributeError on `.as_`. `Arg` holds only terms and callables, so that
  error path is not modelled.
- `Dataframes.ToSql`'s own contract states only when it fails. What text it
  produces is stated by `ToSqlOverTables`, `ToSqlLayout`, `CompileLayout`
  and `SelectOverWhere`.

## Findings

| source | as written | input that shows it | evidently intended | confidence | as-written member | corrected member |
|---|---|---|---|---|---|---|
| snowbear/dataframes/sql_dataframe.py:139-141 | `union` builds its frame with `SqlDataFrame(transformation=...)`, leaving out `session`, which `__init__` (line 83) requires | any call `a.union(b)` raises a TypeError | `SqlDataFrame(transformation=..., session=self.session)`, as `union_all`, `intersect`, `except_of` and `minus` pass it (lines 143-157) | high (not executed) | Dataframes.SqlDataFrame.Union | Dataframes.SqlDataFrame.UnionInSession |
