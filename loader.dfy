/**
 * The table loader: built from an engine, a backend, a table and an optional
 * incremental; it checks the cursor column, builds the query and loads its
 * result either as streamed partitions or through the bulk reader.
 */
module Loader {
  import opened Wrappers
  import opened Sql
  import opened QueryPlan
  import opened Chunking
  import opened Backends
  import opened Engines

  /**
   * What lies outside the core: the columns and primary key reflection finds
   * for the extracted table in the live database, the rows stored there, whether connectorx can be imported, and
   * compiling a query to literal SQL for the engine's dialect.
   */
  datatype Environment = Environment(
    reflected: Table,
    stored: seq<Row>,
    connectorxInstalled: bool,
    compile: Select -> Result<string, string>)

  /** The incremental's settings; only its primary key is ever updated. */
  class Incremental {
    const cursorPath: string
    const lastValueFunc: LastValueFunc
    const lastValue: Option<int>
    const endValue: Option<int>
    const rowOrder: Option<SortOrder>
    const onCursorValueMissing: OnCursorValueMissing
    var primaryKey: Option<seq<string>>

    constructor (cursorPath: string, lastValueFunc: LastValueFunc, lastValue: Option<int>, endValue: Option<int>,
                 rowOrder: Option<SortOrder>, onCursorValueMissing: OnCursorValueMissing, primaryKey: Option<seq<string>>)
      ensures this.cursorPath == cursorPath && this.lastValueFunc == lastValueFunc
      ensures this.lastValue == lastValue && this.endValue == endValue
      ensures this.rowOrder == rowOrder && this.onCursorValueMissing == onCursorValueMissing
      ensures this.primaryKey == primaryKey
    {
      this.cursorPath := cursorPath;
      this.lastValueFunc := lastValueFunc;
      this.lastValue := lastValue;
      this.endValue := endValue;
      this.rowOrder := rowOrder;
      this.onCursorValueMissing := onCursorValueMissing;
      this.primaryKey := primaryKey;
    }
  }

  /** The cursor settings a loader copies from its incremental; none without one. */
  function CursorOf(incremental: Incremental?): (c: Option<CursorConfig>)
    ensures c.Some? <==> incremental != null
  {
    if incremental == null then None
    else Some(CursorConfig(incremental.cursorPath, incremental.lastValueFunc, incremental.lastValue,
                           incremental.endValue, incremental.rowOrder, incremental.onCursorValueMissing))
  }

  /** Construction succeeds unless an incremental names a cursor column the table does not have. */
  predicate CursorColumnExists(t: Table, incremental: Incremental?) {
    incremental == null || incremental.cursorPath in t.columns
  }

  /**
   * The items `load_rows` yields, or the error it raises: the bulk reader's
   * single frame for `connectorx`, one encoded item per partition otherwise.
   * Either way the items carry exactly the rows the database returns for the query.
   */
  function LoadedItems(backend: Backend, t: Table, columns: seq<string>, chunkSize: nat,
                       cursor: Option<CursorConfig>, adapter: Option<QueryAdapter>,
                       backendKwargs: Option<Kwargs>, env: Environment, engineUrl: string)
    : (r: Result<seq<DataItem>, LoadError>)
    requires backend != ConnectorX ==> chunkSize > 0
    ensures r.Success? ==> AllRows(r.value) == Execute(MakeQuery(t, cursor, adapter), env.stored)
    ensures r.Success? ==> forall i :: 0 <= i < |r.value| ==> !r.value[i].Hint?
    ensures r.Failure? ==> backend == ConnectorX && !r.error.CursorColumnMissing?
  {
    var kwargs := backendKwargs.GetOr(map[]);
    var q := MakeQuery(t, cursor, adapter);
    var result := Execute(q, env.stored);
    if backend == ConnectorX then
      ConnectorXLoad(t.name, q, kwargs, engineUrl, env.connectorxInstalled, env.compile, result)
    else
      StreamedItemsCarryResult(backend, kwargs, t.columns, columns, result, chunkSize);
      Success(StreamedItems(backend, kwargs, t.columns, columns, result, chunkSize))
  }

  class TableLoader {
    const engine: Engine
    const backend: Backend
    const table: Table
    /** The table's column schema, by column name. */
    const columns: seq<string>
    const chunkSize: nat
    const queryAdapter: Option<QueryAdapter>
    const incremental: Incremental?
    /** The cursor column, `last_value`, `end_value`, `row_order` and missing-cursor policy. */
    const cursor: Option<CursorConfig>

    /** The assignments of `__init__` once the cursor column has been found. */
    constructor (engine: Engine, backend: Backend, table: Table, columns: seq<string>, chunkSize: nat,
                 incremental: Incremental?, queryAdapter: Option<QueryAdapter>)
      requires CursorColumnExists(table, incremental)
      ensures this.engine == engine && this.backend == backend && this.table == table
      ensures this.columns == columns && this.chunkSize == chunkSize
      ensures this.incremental == incremental && this.queryAdapter == queryAdapter
      ensures cursor == CursorOf(incremental)
      ensures cursor.Some? ==> cursor.value.column in table.columns
    {
      this.engine := engine;
      this.backend := backend;
      this.table := table;
      this.columns := columns;
      this.chunkSize := chunkSize;
      this.queryAdapter := queryAdapter;
      this.incremental := incremental;
      this.cursor := CursorOf(incremental);
    }

    /** `load_rows`: builds the query, then dispatches on the backend. */
    method LoadRows(backendKwargs: Option<Kwargs>, env: Environment) returns (r: Result<seq<DataItem>, LoadError>)
      requires backend != ConnectorX ==> chunkSize > 0
      ensures r == LoadedItems(backend, table, columns, chunkSize, cursor, queryAdapter, backendKwargs, env,
                               ConnectorXUrl(engine.url))
    {
      var kwargs := backendKwargs.GetOr(map[]);
      var query := MakeQuery(table, cursor, queryAdapter);
      if backend == ConnectorX {
        r := ConnectorXLoad(table.name, query, kwargs, ConnectorXUrl(engine.url), env.connectorxInstalled,
                            env.compile, Execute(query, env.stored));
      } else {
        var items := StreamRows(query, kwargs, env);
        r := Success(items);
      }
    }

    /** `_load_rows`: executes the query, then yields its result partition by partition. */
    method StreamRows(query: Select, kwargs: Kwargs, env: Environment) returns (items: seq<DataItem>)
      requires chunkSize > 0 && backend != ConnectorX
      ensures items == StreamedItems(backend, kwargs, table.columns, columns, Execute(query, env.stored), chunkSize)
    {
      var result := Execute(query, env.stored);
      items := EncodePartitions(result, kwargs);
    }

    /**
     * The loop of `_load_rows` over `result.partitions(size=chunk_size)`: each
     * partition of `chunkSize` rows (the last one possibly shorter) becomes one
     * item encoded for the backend.
     */
    method EncodePartitions(result: seq<Row>, kwargs: Kwargs) returns (items: seq<DataItem>)
      requires chunkSize > 0 && backend != ConnectorX
      ensures |items| == |Chunks(result, chunkSize)|
      ensures forall j :: 0 <= j < |items| ==> items[j] == Encode(backend, kwargs, table.columns, columns, Chunks(result, chunkSize)[j])
    {
      var partitions := Chunks(result, chunkSize);
      items := [];
      var i := 0;
      while i < |partitions|
        invariant i <= |partitions| && |items| == i
        invariant forall j :: 0 <= j < i ==> items[j] == Encode(backend, kwargs, table.columns, columns, partitions[j])
      {
        items := items + [Encode(backend, kwargs, table.columns, columns, partitions[i])];
        i := i + 1;
      }
    }
  }

  /**
   * `TableLoader.__init__`: fails with a `KeyError` naming the column and the
   * table when an incremental's cursor column is missing, and builds nothing then.
   */
  method NewTableLoader(engine: Engine, backend: Backend, table: Table, columns: seq<string>, chunkSize: nat,
                        incremental: Incremental?, queryAdapter: Option<QueryAdapter>)
    returns (r: Result<TableLoader, LoadError>)
    ensures r.Failure? <==> !CursorColumnExists(table, incremental)
    ensures r.Failure? ==> r.error == CursorColumnMissing(incremental.cursorPath, table.name)
    ensures r.Success? ==>
      && fresh(r.value)
      && r.value.engine == engine && r.value.backend == backend && r.value.table == table
      && r.value.columns == columns && r.value.chunkSize == chunkSize
      && r.value.incremental == incremental && r.value.queryAdapter == queryAdapter
      && r.value.cursor == CursorOf(incremental)
  {
    if incremental != null && incremental.cursorPath !in table.columns {
      return Failure(CursorColumnMissing(incremental.cursorPath, table.name));
    }
    var loader := new TableLoader(engine, backend, table, columns, chunkSize, incremental, queryAdapter);
    r := Success(loader);
  }
}
