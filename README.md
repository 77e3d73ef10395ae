# SQL table extraction, modelled in Dafny

This project models the core of dlt's SQL database source. The core is the
table loader and the extraction entry point in
`dlt/sources/sql_database/helpers.py`. It covers these steps:

- **Engine resolution.** An engine is either taken from the caller or created
  from credentials and tagged with whether it may be disposed after use.
- **Loader construction.** The loader checks that the incremental's cursor
  column exists in the table.
- **Query planning.** The loader plans a single-table `SELECT` with a WHERE
  clause bounded by `last_value`/`end_value` under the `max` or `min`
  aggregation, the NULL-cursor policy (`include`, `exclude`, anything else),
  an ORDER BY that follows `row_order`, and the caller's query adapter applied
  once.
- **Backend dispatch.**
  - `sqlalchemy`, `pandas` and `pyarrow` stream the result in partitions of
    `chunk_size` rows.
  - `connectorx` compiles the query to literal SQL and hands it to the bulk
    reader with merged options.
- **The `table_rows` generator.** Under deferred reflection it back-fills the
  primary key and yields the hint record first. It then yields the data items
  and, in a `finally`, disposes of an engine tagged as disposable.

Files (modules):

- `sql.dfy` (`Sql`): the SQL fragment the planner emits and a reference
  database.
  - Predicates are evaluated in three-valued logic.
  - `Execute` filters, then sorts with NULLs last for ascending order.
  - `IsResultOf` states what any database result satisfies: the same multiset
    of kept rows, with non-NULL cursor values ordered as asked.
- `query_plan.dfy` (`QueryPlan`): `_make_query` and `make_query`.
- `chunking.dfy` (`Chunking`): `result.partitions(size=chunk_size)`.
- `backends.dfy` (`Backends`): per-backend encoding, option merges, the
  `connectorx` path and the loader's errors with their messages.
- `engines.dfy` (`Engines`): the engine object with its disposal tag and
  `engine_from_credentials`.
- `loader.dfy` (`Loader`): `TableLoader` as a class, `load_rows` and
  `_load_rows` as methods.
- `extract.dfy` (`Extract`): `table_rows`.
  - It is proved against `Generated`, everything the generator yields to a
    consumer that drains it, followed by the error it raises, if any.
  - It is also proved against `Consume`, what a consumer that stops after `n`
    items receives.
- `scenario.dfy` (`Scenario`): a worked incremental load.
  - An `events` table holds four rows.
  - The cursor is on `ts` with `last_value` 2024-01-01, under `max`.
  - With a chunk size of 2, three rows come back as batches of two and one, in
    ascending order.

The model states two points about engine disposal exactly, as the code decides them.

- **When an owned engine is disposed.** Only the `finally` around
  `yield from loader.load_rows(...)` disposes of it
  (`dlt/sources/sql_database/helpers.py:250-256`).
  - When the cursor column is missing, the `KeyError` is raised by
    `TableLoader(...)` (`helpers.py:241`), before the `try`.
  - When the consumer closes the generator while it is suspended at the hint
    record (`helpers.py:230`), the `try` has not been reached either.
  - In both cases a tagged engine is not disposed. `Extract.TableRows` states
    this exactly.
- **A caller's engine.** The comment at `helpers.py:253-254` says engines
  provided from outside are not disposed. The check itself is
  `getattr(engine, "may_dispose_after_use", False)`, so a caller's engine is
  disposed exactly when it already carries that attribute set to true.

## Model

| member | source | states |
|---|---|---|
| Sql.SelectAll | dlt/sources/sql_database/helpers.py:85 | `table.select()` reads the table with no WHERE and no ORDER BY |
| Sql.PassesIffHolds | dlt/sources/sql_database/helpers.py:100-114 | in SQL's three-valued logic, a row passes a planner predicate exactly when the predicate holds two-valued; a comparison against a NULL cursor never passes |
| Sql.FilterMultiplicity | dlt/sources/sql_database/helpers.py:113-114 | the WHERE clause keeps every copy of a row it accepts and no copy of any other |
| Sql.Sort | dlt/sources/sql_database/helpers.py:126-127 | the reference ORDER BY returns a permutation of its input, sorted on the column with NULLs last ascending and first descending |
| Sql.Execute | dlt/sources/sql_database/helpers.py:146-147 | the reference database's answer to a query is a valid database result: exactly the kept rows, as often as stored, with the ORDER BY respected |
| Sql.ResultMembership | dlt/sources/sql_database/helpers.py:146-147 | a row is in any result exactly when it is stored and the WHERE clause keeps it |
| Sql.UnfilteredResultIsWholeTable | dlt/sources/sql_database/helpers.py:146-147 | without a WHERE clause every stored row comes back, as often as stored |
| QueryPlan.WhereClause | dlt/sources/sql_database/helpers.py:100-114 | the WHERE clause case by case: none without `last_value` unless the policy is `exclude`; `IS NOT NULL` alone under `exclude` without `last_value`; the bound clause under the default policy; the bound clause OR `IS NULL` under `include`; the bound clause AND `IS NOT NULL` under `exclude` |
| QueryPlan.OrderClause | dlt/sources/sql_database/helpers.py:116-127 | an ORDER BY on the cursor column exists iff `row_order` is set; it is ascending iff `asc` goes with `max` or `desc` with `min` |
| QueryPlan.BaseQuery | dlt/sources/sql_database/helpers.py:83-98 | the query reads the loader's table; without an incremental, or with a custom aggregation, it has neither WHERE nor ORDER BY |
| QueryPlan.MakeQuery | dlt/sources/sql_database/helpers.py:131-134 | the adapter, when given, is applied exactly once to the built query and the table; otherwise the built query is used |
| QueryPlan.BoundClause | dlt/sources/sql_database/helpers.py:101-106 | the comparison against `last_value` (`>=` under `max`, `<=` under `min`), ANDed with the strict comparison against `end_value` when it is set; which rows it keeps is stated by `QueryPlan.BoundClauseHolds` |
| QueryPlan.BoundClauseHolds | dlt/sources/sql_database/helpers.py:91-106 | the bound clause holds of a row iff its cursor is non-NULL and within bounds: `>= last` and `< end` under `max`, `<= last` and `> end` under `min` |
| QueryPlan.WhereKeeps | dlt/sources/sql_database/helpers.py:100-114 | the WHERE clause keeps exactly the rows the cursor settings select, both directions, for every combination of `last_value` and policy |
| QueryPlan.ResultWithinBounds | dlt/sources/sql_database/helpers.py:100-114 | in any result every non-NULL cursor is within bounds and every stored in-bounds row is present; `exclude` and the default policy return no NULL cursors; `include` returns all of them |
| QueryPlan.ExcludeDropsNullCursors | dlt/sources/sql_database/helpers.py:110-111 | under `exclude` no result row has a NULL cursor, whether or not `last_value` is set |
| QueryPlan.NoLastValueScansAll | dlt/sources/sql_database/helpers.py:100-114 | with no `last_value` and a policy other than `exclude`, no WHERE is attached and the whole table comes back |
| QueryPlan.BareQueryScansAll | dlt/sources/sql_database/helpers.py:84-98 | without an incremental or with a custom aggregation, the query is `table.select()` and the whole table comes back |
| QueryPlan.ResultFollowsRowOrder | dlt/sources/sql_database/helpers.py:116-127 | in any result, non-NULL cursor values never decrease when `row_order` agrees with the aggregation and never increase when it disagrees |
| Chunking.Chunks | dlt/sources/sql_database/helpers.py:152 | the partitions concatenate back to the result, in order |
| Chunking.ChunksStep | dlt/sources/sql_database/helpers.py:152 | the first partition is the first `chunk_size` rows, or all of them when fewer remain, and the rest are partitions of what follows |
| Chunking.ChunkBounds | dlt/sources/sql_database/helpers.py:152 | there are as few partitions as the chunk size allows: `(m - 1) * chunk_size < N <= m * chunk_size` |
| Chunking.ChunkSizes | dlt/sources/sql_database/helpers.py:152 | every partition is non-empty and holds at most `chunk_size` rows; every one but the last holds exactly `chunk_size` |
| Chunking.ChunkCount | dlt/sources/sql_database/helpers.py:152 | there are `ceil(N / chunk_size)` partitions |
| Backends.MergeKwargs | dlt/sources/sql_database/helpers.py:178-182 | `{**defaults, **given}` has the keys of both, and the caller's value wins |
| Backends.Encode | dlt/sources/sql_database/helpers.py:152-167 | a partition becomes one data item carrying exactly its rows |
| Backends.EncodeOptions | dlt/sources/sql_database/helpers.py:153-167 | `sqlalchemy` gives row mappings; `pandas` builds over the result's column names with `dtype_backend` defaulting to `pyarrow`; `pyarrow` builds over the table's columns with `tz` defaulting to `UTC`; caller options override |
| Backends.StreamedItems | dlt/sources/sql_database/helpers.py:152-167 | one item per partition |
| Backends.StreamedItemsCarryResult | dlt/sources/sql_database/helpers.py:145-167 | the streamed items carry the whole result in order, as `ceil(N / chunk_size)` items of 1 to `chunk_size` rows |
| Backends.Message | dlt/sources/sql_database/helpers.py:68-71 | the missing-cursor message starts with `Cursor column '` and ends with the closing quote after the table name; the compile-failure message of lines 192-196 starts with `Query for table `, the table name and the advice text and ends with the compiler's message |
| Backends.MessageNamesColumnAndTable | dlt/sources/sql_database/helpers.py:67-71 | the missing-cursor `KeyError` message names both the column and the table |
| Backends.CompileMessageKeepsCause | dlt/sources/sql_database/helpers.py:191-196 | the compile-failure message names the table and carries the compiler's own message |
| Backends.ConnectorXOptions | dlt/sources/sql_database/helpers.py:177-188 | `return_type`/`protocol` default to `arrow2`/`binary`; caller options override; `conn` is popped, being the caller's value or else the engine URL |
| Backends.ConnectorXLoad | dlt/sources/sql_database/helpers.py:169-198 | without connectorx: `MissingDependency("Connector X table backend", ["connectorx"])`; an uncompilable query: `QueryNotCompilable` with the cause; otherwise exactly one frame with the whole result, the compiled text and the merged options |
| Engines.BackendName | dlt/sources/sql_database/helpers.py:186 | `get_backend_name()` is the driver name up to its first `+`, or all of it when it has none |
| Engines.ConnectorXUrl | dlt/sources/sql_database/helpers.py:185-187 | the bulk reader's URL starts with the backend name as its scheme and ends with the engine URL's location |
| Engines.Engine.constructor | dlt/sources/sql_database/helpers.py:268 | a newly created engine carries no disposal tag and has not been disposed |
| Engines.Engine.Dispose | dlt/sources/sql_database/helpers.py:256 | `dispose()` is counted once; nothing else about the engine changes |
| Engines.Engine.MayDispose | dlt/sources/sql_database/helpers.py:255 | `getattr(engine, "may_dispose_after_use", False)`: an engine that never had the tag set reads as not disposable |
| Engines.NativeUrl | dlt/sources/sql_database/helpers.py:266-267 | a credentials descriptor is turned into its native URL; a connection string is used as it is |
| Engines.EngineFromCredentials | dlt/sources/sql_database/helpers.py:259-270 | a caller's engine is returned as is, untouched; otherwise a new engine is built from the native URL and options and tagged with `may_dispose_after_use` |
| Loader.CursorOf | dlt/sources/sql_database/helpers.py:72-81 | the loader holds cursor settings iff an incremental is given |
| Loader.CursorColumnExists | dlt/sources/sql_database/helpers.py:64-66 | construction succeeds when no incremental is given or its cursor path is a column of the table |
| Loader.LoadedItems | dlt/sources/sql_database/helpers.py:136-198 | on success the items carry exactly the rows the database returns for the planned query, with no hint record; only `connectorx` fails, and never with the missing-cursor error |
| Loader.TableLoader.constructor | dlt/sources/sql_database/helpers.py:57-81 | the loader keeps its arguments, and its cursor settings, copied from the incremental, name a column of the table |
| Loader.TableLoader.LoadRows | dlt/sources/sql_database/helpers.py:136-143 | `load_rows` plans the query once and yields what the backend's path yields |
| Loader.TableLoader.StreamRows | dlt/sources/sql_database/helpers.py:145-152 | `_load_rows` executes the query and yields the encoded partitions of its result |
| Loader.TableLoader.EncodePartitions | dlt/sources/sql_database/helpers.py:152-167 | the loop over partitions yields, in order, one encoded item per partition |
| Loader.NewTableLoader | dlt/sources/sql_database/helpers.py:64-71 | construction fails iff the incremental's cursor column is not in the table, with the error naming the column and the table; otherwise a fresh loader holds the arguments |
| Extract.EffectiveTable | dlt/sources/sql_database/helpers.py:216-217 | under deferred reflection the table keeps its name and takes the columns and primary key of the live database; otherwise it is the given table |
| Extract.HintItems | dlt/sources/sql_database/helpers.py:229-236 | there is exactly one hint record under deferred reflection and none otherwise; it carries the table's primary key and columns |
| Extract.RunAfter | dlt/sources/sql_database/helpers.py:241-251 | from the construction of the loader on, the run keeps what was already yielded as its prefix, and an error is raised before any data item |
| Extract.Generated | dlt/sources/sql_database/helpers.py:216-251 | everything a draining consumer gets from `table_rows`; when it ends in an error, only the hint items were yielded before it |
| Extract.Consume | dlt/sources/sql_database/helpers.py:250-251 | a consumer receives a prefix of the run, never more than it asked for; a closed iteration has exactly its demand; otherwise it has the whole run and sees the run's error or its exhaustion |
| Extract.GeneratedHintFirst | dlt/sources/sql_database/helpers.py:229-236 | under deferred reflection the first item is the hint record with the live primary key and columns; no other item is a hint record, and none at all without deferred reflection |
| Extract.GeneratedStartsWithHint | dlt/sources/sql_database/helpers.py:216-251 | every run starts with the hint items; data and errors come only after them |
| Extract.GeneratedCarriesQueryResult | dlt/sources/sql_database/helpers.py:241-251 | after the hint, a run without error carries exactly the rows the database returns for the planned query |
| Extract.DataWithinBounds | dlt/sources/sql_database/helpers.py:91-114 | without a query adapter, every data row `table_rows` yields to a draining consumer has its cursor within the bounds, or NULL only under `include` |
| Extract.GeneratedErrors | dlt/sources/sql_database/helpers.py:241-251 | a run fails with the missing-cursor error iff the cursor column is missing, and then only the hint items come before it; any other error is `connectorx`'s |
| Extract.Deliver | dlt/sources/sql_database/helpers.py:250-251 | the `try` body passes the loader's items after the hint to the consumer, or raises the loader's error |
| Extract.LoadAndDispose | dlt/sources/sql_database/helpers.py:241-256 | from construction onwards the consumer receives the run after the hint; the engine is disposed once iff the loader was built and the engine is tagged as disposable |
| Extract.BackfillPrimaryKey | dlt/sources/sql_database/helpers.py:223-227 | the incremental takes the reflected primary key only when it has none and the table declares one |
| Extract.TableRows | dlt/sources/sql_database/helpers.py:201-256 | the consumer receives `Consume(Generated(...), demand)`; the primary key is back-filled once the body runs under deferred reflection; the engine is disposed exactly when the `try` was entered and it is tagged, with its tag unchanged |
| Scenario.EventsQuery | dlt/sources/sql_database/helpers.py:91-127 | for the `events` cursor the planner emits `ts >= 2024-01-01 ORDER BY ts ASC` |
| Scenario.EventsFiltered | dlt/sources/sql_database/helpers.py:100-114 | of the four stored rows, the WHERE clause keeps the three from 2024-01-01 on |
| Scenario.EventsSorted | dlt/sources/sql_database/helpers.py:116-127 | the ORDER BY puts them in date order |
| Scenario.EventsExecuted | dlt/sources/sql_database/helpers.py:83-129 | the database returns the 2024-01-01, 01-02 and 01-03 rows in that order |
| Scenario.EventsChunked | dlt/sources/sql_database/helpers.py:152 | with a chunk size of 2 they form partitions of two rows and one row |
| Scenario.EventsStreamed | dlt/sources/sql_database/helpers.py:152-154 | the `sqlalchemy` backend yields them as two record batches |
| Scenario.EventsInAscendingOrder | dlt/sources/sql_database/helpers.py:136-154 | `load_rows` yields `[2024-01-01, 2024-01-02]` and then `[2024-01-03]` |
| Scenario.EventsTableRows | dlt/sources/sql_database/helpers.py:201-256 | through `table_rows`, a consumer that drains the generator gets the two batches and the iteration ends by exhaustion |

## Left out

- Reflection is not modelled: `Table(..., autoload_with=engine)`, `default_table_adapter`, the table adapter hook, `table_to_columns`' type mapping and `get_primary_key`. The reflected table is an input of the environment. The column schema is the table's column names. The primary key is the table's declared key.
- `reflection_level`, `type_adapter_callback` and `included_columns` only reach the reflection and column-typing code above, which is not part of this model.
- SQLAlchemy execution (`engine.connect()`, `execution_options(yield_per=...)`, `result.keys()`) is replaced by the reference database `Execute`. Connection acquisition and release are not modelled. The result's column names are taken to be the table's columns.
- Database errors raised while a query runs are not modelled. The only errors are the three the core raises itself.
- Rendering a URL with `render_as_string` is modelled as plain concatenation of driver name and location. Password masking and URL parsing are not modelled.
- `Loader.LoadedItems`: the bulk reader `cx.read_sql` is taken to return the reference database's answer to the planned query. The compiled text only travels with the frame, so the claim that `connectorx` items carry exactly the database's answer rests on that choice.
- Query compilation with literal binds, `cx.read_sql`, `_wrap_result`, `row_tuples_to_arrow` and the pandas/pyarrow types are not modelled. An item records its rows and the options it would be built with.
- `unwrap_json_connector_x`, `create_engine`'s pool and dialect behaviour, `_detect_precision_hints_deprecated`, `SqlTableResourceConfiguration` and `tests/conftest.py` are not part of this model.
- The hint record's marking with `dlt.mark.with_hints` and `make_hints` is modelled as a `Hint` item holding the primary key and the columns.
- A query adapter is a function from query and table to query over the modelled SQL fragment. Projections, joins and other clauses it could add in the source cannot be expressed.
- `Backends.MergeKwargs`: backend options are `map<string, string>`, where the source takes `Dict[str, Any]`. No merge or pop depends on a value, so only the values' types are lost.
- `Sql.Value`: cursor values of every comparable type (timestamps, strings, decimals) are integers. Only their order matters to the planner.
- `Sql.Execute`: it puts NULLs last for ascending order and first for descending order. Databases differ here, so every ordering lemma (`QueryPlan.ResultFollowsRowOrder`) is stated over `IsResultOf`, which constrains only non-NULL cursor values.
- `QueryPlan.OnCursorValueMissing`: every policy other than `include` and `exclude` is `Raise`. The raising itself happens in the incremental, outside this module.
- `QueryPlan.Conjoin`: `sa.and_(True, x)` is modelled as `x`, the clause it renders to.
- `Loader.TableLoader.LoadRows`: for the streamed backends it requires `chunk_size > 0`, because a partition size of zero is not meaningful to the database driver. The `connectorx` path never reads `chunk_size` and has no such requirement.
- `Extract.TableRows`: the generator is modelled by a consumer demand instead of suspended execution. A consumer either drains it or closes it after `n` items. An exception thrown into the generator at a yield point is not modelled.
- Whether the caller of `table_rows` passed an engine from `engine_from_credentials` is not tracked by any lemma. The disposal rule is stated on the engine's tag alone, as the code decides.
