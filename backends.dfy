/**
 * Output backends of the table loader: how a chunk of rows is encoded for each
 * backend, how caller options are merged over the defaults, what the bulk
 * (connectorx) path hands to the out-of-process reader, and the errors raised
 * while loading.
 */
module Backends {
  import opened Wrappers
  import opened Sql
  import opened Chunking

  datatype Backend = SqlAlchemy | PyArrow | Pandas | ConnectorX

  /** Keyword options passed to a backend. */
  type Kwargs = map<string, string>

  /** `{**defaults, **given}`: every key of either, the caller's value winning. */
  function MergeKwargs(defaults: Kwargs, given: Kwargs): (r: Kwargs)
    ensures r.Keys == defaults.Keys + given.Keys
    ensures forall key :: key in given ==> r[key] == given[key]
    ensures forall key :: key in defaults && key !in given ==> r[key] == defaults[key]
  {
    defaults + given
  }

  /** `kwargs.get(key, default)` */
  function GetKwarg(kwargs: Kwargs, key: string, default: string): string {
    if key in kwargs then kwargs[key] else default
  }

  /** An item the loader yields. */
  datatype DataItem =
      /** `sqlalchemy`: one mapping per row */
    | RecordBatch(rows: seq<Row>)
      /** `pandas`: a frame over the result's column names, built with the merged options */
    | DataFrame(rows: seq<Row>, columnNames: seq<string>, options: Kwargs)
      /** `pyarrow`: a columnar batch typed by the table's columns, in time zone `tz` */
    | ArrowTable(rows: seq<Row>, schemaColumns: seq<string>, tz: string)
      /** `connectorx`: the one frame the bulk reader returns for the whole query */
    | ConnectorXFrame(rows: seq<Row>, conn: string, queryText: string, options: Kwargs)
      /** the empty record that carries the primary key and the column hints */
    | Hint(primaryKey: Option<seq<string>>, hintColumns: seq<string>)

  /** The data rows an item carries; the hint record carries none. */
  function ItemRows(item: DataItem): seq<Row> {
    if item.Hint? then [] else item.rows
  }

  /** The rows of a sequence of items, in order. */
  function AllRows(items: seq<DataItem>): seq<Row> {
    if items == [] then [] else ItemRows(items[0]) + AllRows(items[1..])
  }

  /** One partition of the streamed result, encoded for a streamed backend. */
  function Encode(backend: Backend, kwargs: Kwargs, resultColumns: seq<string>,
                  schemaColumns: seq<string>, part: seq<Row>): (item: DataItem)
    requires backend != ConnectorX
    ensures !item.Hint? && !item.ConnectorXFrame? && ItemRows(item) == part
  {
    match backend
    case SqlAlchemy => RecordBatch(part)
    case Pandas => DataFrame(part, resultColumns, MergeKwargs(map["dtype_backend" := "pyarrow"], kwargs))
    case PyArrow => ArrowTable(part, schemaColumns, GetKwarg(kwargs, "tz", "UTC"))
  }

  /**
   * The encoding each streamed backend uses: row mappings for sqlalchemy; for
   * pandas a frame over the result's column names whose `dtype_backend`
   * defaults to `pyarrow`; for pyarrow a batch typed by the table's columns
   * whose `tz` defaults to `UTC`. The caller's options override both defaults.
   */
  lemma EncodeOptions(backend: Backend, kwargs: Kwargs, resultColumns: seq<string>,
                      schemaColumns: seq<string>, part: seq<Row>)
    requires backend != ConnectorX
    ensures var item := Encode(backend, kwargs, resultColumns, schemaColumns, part);
      && (backend == SqlAlchemy <==> item.RecordBatch?)
      && (backend == Pandas ==>
            item.DataFrame? && item.columnNames == resultColumns &&
            item.options.Keys == kwargs.Keys + {"dtype_backend"} &&
            item.options["dtype_backend"] == GetKwarg(kwargs, "dtype_backend", "pyarrow") &&
            forall key :: key in kwargs ==> item.options[key] == kwargs[key])
      && (backend == PyArrow ==>
            item.ArrowTable? && item.schemaColumns == schemaColumns &&
            item.tz == (if "tz" in kwargs then kwargs["tz"] else "UTC"))
  {
  }

  /** The items of the streamed path: one encoded item per partition of the result. */
  function StreamedItems(backend: Backend, kwargs: Kwargs, resultColumns: seq<string>,
                         schemaColumns: seq<string>, result: seq<Row>, chunkSize: nat): (items: seq<DataItem>)
    requires backend != ConnectorX && chunkSize > 0
    ensures |items| == |Chunks(result, chunkSize)|
  {
    var parts := Chunks(result, chunkSize);
    seq(|parts|, i requires 0 <= i < |parts| => Encode(backend, kwargs, resultColumns, schemaColumns, parts[i]))
  }

  /** The streamed items carry the whole result, in order, each item at most `chunkSize` rows. */
  lemma StreamedItemsCarryResult(backend: Backend, kwargs: Kwargs, resultColumns: seq<string>,
                                 schemaColumns: seq<string>, result: seq<Row>, chunkSize: nat)
    requires backend != ConnectorX && chunkSize > 0
    ensures AllRows(StreamedItems(backend, kwargs, resultColumns, schemaColumns, result, chunkSize)) == result
    ensures |StreamedItems(backend, kwargs, resultColumns, schemaColumns, result, chunkSize)| == (|result| + chunkSize - 1) / chunkSize
    ensures forall item :: item in StreamedItems(backend, kwargs, resultColumns, schemaColumns, result, chunkSize) ==>
      0 < |ItemRows(item)| <= chunkSize
  {
    var parts := Chunks(result, chunkSize);
    var items := StreamedItems(backend, kwargs, resultColumns, schemaColumns, result, chunkSize);
    EncodedRowsFlatten(backend, kwargs, resultColumns, schemaColumns, parts, items);
    ChunkCount(result, chunkSize);
    ChunkSizes(result, chunkSize);
  }

  lemma {:induction false} EncodedRowsFlatten(backend: Backend, kwargs: Kwargs, resultColumns: seq<string>,
                                               schemaColumns: seq<string>, parts: seq<seq<Row>>, items: seq<DataItem>)
    requires backend != ConnectorX
    requires |items| == |parts|
    requires forall i :: 0 <= i < |parts| ==> items[i] == Encode(backend, kwargs, resultColumns, schemaColumns, parts[i])
    ensures AllRows(items) == Flatten(parts)
  {
    if parts != [] {
      EncodedRowsFlatten(backend, kwargs, resultColumns, schemaColumns, parts[1..], items[1..]);
    }
  }

  // ---------------------------------------------------------------------------
  // Errors

  datatype LoadError =
      /** `KeyError`: the incremental's cursor column is not a column of the table */
    | CursorColumnMissing(column: string, table: string)
      /** `MissingDependencyException`: the connectorx package cannot be imported */
    | MissingDependency(feature: string, packages: seq<string>)
      /** `NotImplementedError`: the query does not compile to literal SQL */
    | QueryNotCompilable(table: string, cause: string)

  /** The message of an error raised by the loader itself. */
  function Message(e: LoadError): (m: string)
    requires !e.MissingDependency?
    ensures e.CursorColumnMissing? ==> "Cursor column '" <= m && |m| > 0 && m[|m| - 1] == '\''
    ensures e.QueryNotCompilable? ==>
      "Query for table " + e.table + CompileAdvice <= m && |e.cause| <= |m| && m[|m| - |e.cause|..] == e.cause
  {
    match e
    case CursorColumnMissing(column, table) =>
      "Cursor column '" + column + "' does not exist in table '" + table + "'"
    case QueryNotCompilable(table, cause) =>
      "Query for table " + table + CompileAdvice + cause
  }

  const CompileAdvice: string :=
    " could not be compiled to string to execute it on ConnectorX. If you are on SQLAlchemy 1.4.x"
    + " the causing exception is due to literals that cannot be rendered, upgrade to 2.x: "

  predicate Mentions(text: string, word: string) {
    exists i :: 0 <= i <= |text| && word <= text[i..]
  }

  /** The missing-cursor message names both the column and the table. */
  lemma MessageNamesColumnAndTable(column: string, table: string)
    ensures Mentions(Message(CursorColumnMissing(column, table)), column)
    ensures Mentions(Message(CursorColumnMissing(column, table)), table)
  {
    var m := Message(CursorColumnMissing(column, table));
    var lead := "Cursor column '";
    var middle := "' does not exist in table '";
    assert m == lead + column + middle + table + "'";
    assert column <= m[|lead|..];
    var at := |lead| + |column| + |middle|;
    assert table <= m[at..];
  }

  /** The compile-failure message names the table and carries the compiler's own words. */
  lemma CompileMessageKeepsCause(table: string, cause: string)
    ensures Mentions(Message(QueryNotCompilable(table, cause)), table)
    ensures Mentions(Message(QueryNotCompilable(table, cause)), cause)
  {
    var lead := "Query for table ";
    var m := Message(QueryNotCompilable(table, cause));
    assert m == lead + table + CompileAdvice + cause;
    assert table <= m[|lead|..];
    var at := |lead| + |table| + |CompileAdvice|;
    assert m[at..] == cause;
  }

  // ---------------------------------------------------------------------------
  // The bulk path

  /** What is handed to the bulk reader: the connection string and the remaining options. */
  datatype ConnectorXCall = ConnectorXCall(conn: string, options: Kwargs)

  /**
   * The option merge of `_load_rows_connectorx`: `return_type` and `protocol`
   * default to `arrow2` and `binary`, the caller's options override them, and
   * `conn` is taken out: the caller's value when given, otherwise the engine's URL.
   */
  function ConnectorXOptions(kwargs: Kwargs, engineUrl: string): (r: ConnectorXCall)
    ensures r.conn == GetKwarg(kwargs, "conn", engineUrl)
    ensures r.options.Keys == (kwargs.Keys + {"return_type", "protocol"}) - {"conn"}
    ensures r.options["return_type"] == GetKwarg(kwargs, "return_type", "arrow2")
    ensures r.options["protocol"] == GetKwarg(kwargs, "protocol", "binary")
    ensures forall key :: key in kwargs && key != "conn" ==> r.options[key] == kwargs[key]
  {
    var merged := MergeKwargs(map["return_type" := "arrow2", "protocol" := "binary"], kwargs);
    ConnectorXCall(GetKwarg(merged, "conn", engineUrl), merged - {"conn"})
  }

  /**
   * `_load_rows_connectorx`: fails when connectorx is not installed, fails when
   * the query does not compile to literal SQL, and otherwise yields one frame
   * holding the whole result. `compile` stands for compiling the query with the
   * engine's dialect and literal binds; `result` for what the reader returns.
   */
  function ConnectorXLoad(tableName: string, q: Select, kwargs: Kwargs, engineUrl: string,
                          installed: bool, compile: Select -> Result<string, string>,
                          result: seq<Row>): (r: Result<seq<DataItem>, LoadError>)
    ensures !installed ==> r == Failure(MissingDependency("Connector X table backend", ["connectorx"]))
    ensures installed && compile(q).Failure? ==> r == Failure(QueryNotCompilable(tableName, compile(q).error))
    ensures r.Success? <==> installed && compile(q).Success?
    ensures r.Success? ==>
      |r.value| == 1 && r.value[0].ConnectorXFrame? && AllRows(r.value) == result &&
      r.value[0].queryText == compile(q).value &&
      ConnectorXCall(r.value[0].conn, r.value[0].options) == ConnectorXOptions(kwargs, engineUrl)
  {
    if !installed then Failure(MissingDependency("Connector X table backend", ["connectorx"]))
    else
      var call := ConnectorXOptions(kwargs, engineUrl);
      match compile(q)
      case Failure(cause) => Failure(QueryNotCompilable(tableName, cause))
      case Success(text) =>
        assert AllRows([ConnectorXFrame(result, call.conn, text, call.options)]) == result + [];
        Success([ConnectorXFrame(result, call.conn, text, call.options)])
  }
}
