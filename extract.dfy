/**
 * `table_rows`, the entry point of one table's extraction: under deferred
 * reflection it reflects the table again, back-fills the incremental's primary
 * key and yields the hint record first; it then yields the loader's items and,
 * in a `finally`, disposes of an engine tagged as disposable.
 *
 * The generator is specified by `Generated`, everything it yields to a
 * consumer that drains it and the error it ends with, and by `Consume`, what a
 * consumer that stops after `n` items receives. Closing the generator runs its
 * `finally` only while it is suspended inside the `try`, that is at a data item.
 */
module Extract {
  import opened Wrappers
  import opened Sql
  import opened QueryPlan
  import opened Backends
  import opened Engines
  import opened Loader

  /** How the consumer's iteration ended. */
  datatype Outcome = Exhausted | Closed | Raised(error: LoadError)

  /** A drained generator: the items it yields, then the error it raises, if any. */
  datatype Run = Run(items: seq<DataItem>, error: Option<LoadError>)

  /** `table_to_columns`: the column schema of a table, by column name. */
  function TableToColumns(t: Table): seq<string> {
    t.columns
  }

  /**
   * The table extracted: under deferred reflection the table of the same name
   * reflected again from the live database, otherwise the given one.
   */
  function EffectiveTable(table: Table, deferTableReflect: bool, env: Environment): (r: Table)
    ensures r.name == table.name
    ensures deferTableReflect ==> r.columns == env.reflected.columns && r.primaryKey == env.reflected.primaryKey
    ensures !deferTableReflect ==> r == table
  {
    if deferTableReflect then env.reflected.(name := table.name) else table
  }

  /** What precedes the data: the hint record, under deferred reflection only. */
  function HintItems(t: Table, deferTableReflect: bool): (r: seq<DataItem>)
    ensures r != [] <==> deferTableReflect
    ensures |r| <= 1
    ensures forall i :: 0 <= i < |r| ==> r[i] == Hint(t.primaryKey, TableToColumns(t))
  {
    if deferTableReflect then [Hint(t.primaryKey, TableToColumns(t))] else []
  }

  /** The generator body runs once the consumer asks for a first item. */
  predicate Starts(demand: Option<nat>) {
    demand != Some(0)
  }

  /** The consumer asks for more than the hint items, so execution goes on past them. */
  predicate PastHint(hint: seq<DataItem>, demand: Option<nat>) {
    demand.None? || demand.value > |hint|
  }

  /** The run once the loader has answered: its items after the hint, or the error it raised. */
  function RunOf(hint: seq<DataItem>, loaded: Result<seq<DataItem>, LoadError>): Run {
    match loaded
    case Success(data) => Run(hint + data, None)
    case Failure(e) => Run(hint, Some(e))
  }

  /** The run from the construction of the loader on, after `hint` was yielded. */
  function RunAfter(hint: seq<DataItem>, t: Table, incremental: Incremental?, chunkSize: nat, backend: Backend,
                    backendKwargs: Option<Kwargs>, queryAdapter: Option<QueryAdapter>, env: Environment,
                    engineUrl: string): (r: Run)
    requires backend != ConnectorX ==> chunkSize > 0
    ensures |hint| <= |r.items| && r.items[..|hint|] == hint
    ensures r.error.Some? ==> r.items == hint
  {
    if !CursorColumnExists(t, incremental) then Run(hint, Some(CursorColumnMissing(incremental.cursorPath, t.name)))
    else RunOf(hint, LoadedItems(backend, t, TableToColumns(t), chunkSize, CursorOf(incremental), queryAdapter,
                                 backendKwargs, env, engineUrl))
  }

  /** Everything `table_rows` yields to a consumer that drains it, and how it ends. */
  function Generated(table: Table, deferTableReflect: bool, incremental: Incremental?, chunkSize: nat,
                     backend: Backend, backendKwargs: Option<Kwargs>, queryAdapter: Option<QueryAdapter>,
                     env: Environment, engineUrl: string): (r: Run)
    requires backend != ConnectorX ==> chunkSize > 0
    ensures r.error.Some? ==> r.items == HintItems(EffectiveTable(table, deferTableReflect, env), deferTableReflect)
  {
    var t := EffectiveTable(table, deferTableReflect, env);
    RunAfter(HintItems(t, deferTableReflect), t, incremental, chunkSize, backend, backendKwargs, queryAdapter,
             env, engineUrl)
  }

  /**
   * What a consumer asking for at most `demand` items (all when `None`)
   * receives from `run`, and how its iteration ends: closed once it has what
   * it asked for, otherwise the run's error or its exhaustion.
   */
  function Consume(run: Run, demand: Option<nat>): (r: (seq<DataItem>, Outcome))
    ensures r.0 <= run.items
    ensures demand.Some? ==> |r.0| <= demand.value
    ensures r.1 == Closed <==> demand.Some? && demand.value <= |run.items|
    ensures r.1 == Closed ==> |r.0| == demand.value
    ensures r.1 != Closed ==> r.0 == run.items
    ensures r.1 == Exhausted ==> run.error.None?
    ensures r.1.Raised? <==> r.1 != Closed && run.error.Some?
    ensures r.1.Raised? ==> run.error == Some(r.1.error)
  {
    if demand.Some? && demand.value <= |run.items| then (run.items[..demand.value], Closed)
    else if run.error.Some? then (run.items, Raised(run.error.value))
    else (run.items, Exhausted)
  }

  /** Under deferred reflection the hint record, with the live primary key and columns, comes first and only there. */
  lemma GeneratedHintFirst(table: Table, deferTableReflect: bool, incremental: Incremental?, chunkSize: nat,
                           backend: Backend, backendKwargs: Option<Kwargs>, queryAdapter: Option<QueryAdapter>,
                           env: Environment, engineUrl: string)
    requires backend != ConnectorX ==> chunkSize > 0
    ensures var run := Generated(table, deferTableReflect, incremental, chunkSize, backend, backendKwargs,
                                 queryAdapter, env, engineUrl);
      && (deferTableReflect ==>
            |run.items| >= 1 && run.items[0] == Hint(env.reflected.primaryKey, env.reflected.columns))
      && (forall i :: 0 <= i < |run.items| && run.items[i].Hint? ==> deferTableReflect && i == 0)
  {
  }

  /** Every run starts with the hint items; the loader's output or its error comes after them. */
  lemma GeneratedStartsWithHint(table: Table, deferTableReflect: bool, incremental: Incremental?,
                                chunkSize: nat, backend: Backend, backendKwargs: Option<Kwargs>,
                                queryAdapter: Option<QueryAdapter>, env: Environment, engineUrl: string)
    requires backend != ConnectorX ==> chunkSize > 0
    ensures var hint := HintItems(EffectiveTable(table, deferTableReflect, env), deferTableReflect);
      var run := Generated(table, deferTableReflect, incremental, chunkSize, backend, backendKwargs,
                           queryAdapter, env, engineUrl);
      |hint| <= |run.items| && run.items[..|hint|] == hint
  {
    var t := EffectiveTable(table, deferTableReflect, env);
    var hint := HintItems(t, deferTableReflect);
    if CursorColumnExists(t, incremental) {
      var loaded := LoadedItems(backend, t, TableToColumns(t), chunkSize, CursorOf(incremental), queryAdapter,
                                backendKwargs, env, engineUrl);
      if loaded.Success? {
        assert (hint + loaded.value)[..|hint|] == hint;
      }
    }
  }

  /**
   * After the hint items, a run that ends without error carries exactly the rows
   * the database returns for the query planned from the table, the cursor and the adapter.
   */
  lemma GeneratedCarriesQueryResult(table: Table, deferTableReflect: bool, incremental: Incremental?,
                                    chunkSize: nat, backend: Backend, backendKwargs: Option<Kwargs>,
                                    queryAdapter: Option<QueryAdapter>, env: Environment, engineUrl: string)
    requires backend != ConnectorX ==> chunkSize > 0
    ensures var t := EffectiveTable(table, deferTableReflect, env);
      var hint := HintItems(t, deferTableReflect);
      var run := Generated(table, deferTableReflect, incremental, chunkSize, backend, backendKwargs,
                           queryAdapter, env, engineUrl);
      run.error.None? ==>
        AllRows(run.items[|hint|..]) == Execute(MakeQuery(t, CursorOf(incremental), queryAdapter), env.stored)
  {
    var t := EffectiveTable(table, deferTableReflect, env);
    var hint := HintItems(t, deferTableReflect);
    if CursorColumnExists(t, incremental) {
      var loaded := LoadedItems(backend, t, TableToColumns(t), chunkSize, CursorOf(incremental), queryAdapter,
                                backendKwargs, env, engineUrl);
      if loaded.Success? {
        assert (hint + loaded.value)[|hint|..] == loaded.value;
      }
    }
  }

  /**
   * End to end, without a query adapter: every data row a drained run yields
   * has its cursor within the incremental's bounds, or NULL only under `include`.
   */
  lemma DataWithinBounds(table: Table, deferTableReflect: bool, incremental: Incremental, chunkSize: nat,
                         backend: Backend, backendKwargs: Option<Kwargs>, env: Environment, engineUrl: string,
                         row: Row)
    requires backend != ConnectorX ==> chunkSize > 0
    requires incremental.lastValueFunc != Custom && incremental.lastValue.Some?
    ensures var hint := HintItems(EffectiveTable(table, deferTableReflect, env), deferTableReflect);
      var run := Generated(table, deferTableReflect, incremental, chunkSize, backend, backendKwargs, None,
                           env, engineUrl);
      run.error.None? && row in AllRows(run.items[|hint|..]) ==>
        match Cell(row, incremental.cursorPath)
        case Some(v) => InBounds(CursorOf(incremental).value, v)
        case None => incremental.onCursorValueMissing == Include
  {
    var t := EffectiveTable(table, deferTableReflect, env);
    GeneratedCarriesQueryResult(table, deferTableReflect, incremental, chunkSize, backend, backendKwargs, None,
                                env, engineUrl);
    var c := CursorOf(incremental).value;
    ResultWithinBounds(t, c, env.stored, Execute(BaseQuery(t, Some(c)), env.stored));
  }

  /**
   * A run ends in an error naming the cursor column and the table exactly when
   * the cursor column is missing, before any data; any other error comes from
   * the `connectorx` backend.
   */
  lemma GeneratedErrors(table: Table, deferTableReflect: bool, incremental: Incremental?, chunkSize: nat,
                        backend: Backend, backendKwargs: Option<Kwargs>, queryAdapter: Option<QueryAdapter>,
                        env: Environment, engineUrl: string)
    requires backend != ConnectorX ==> chunkSize > 0
    ensures var t := EffectiveTable(table, deferTableReflect, env);
      var run := Generated(table, deferTableReflect, incremental, chunkSize, backend, backendKwargs,
                           queryAdapter, env, engineUrl);
      && (!CursorColumnExists(t, incremental) <==> run.error.Some? && run.error.value.CursorColumnMissing?)
      && (!CursorColumnExists(t, incremental) ==>
            run.error == Some(CursorColumnMissing(incremental.cursorPath, t.name)) &&
            run.items == HintItems(t, deferTableReflect))
      && (run.error.Some? && CursorColumnExists(t, incremental) ==> backend == ConnectorX)
  {
  }

  /**
   * The `try` block of `table_rows`: the loader's items follow the hint items
   * for a consumer asking for more than the hint, or the error loading raises.
   */
  method Deliver(loader: TableLoader, hint: seq<DataItem>, backendKwargs: Option<Kwargs>, env: Environment,
                 demand: Option<nat>)
    returns (items: seq<DataItem>, outcome: Outcome)
    requires (loader.backend != ConnectorX ==> loader.chunkSize > 0) && PastHint(hint, demand)
    ensures (items, outcome) ==
      Consume(RunOf(hint, LoadedItems(loader.backend, loader.table, loader.columns, loader.chunkSize,
                                      loader.cursor, loader.queryAdapter, backendKwargs, env,
                                      ConnectorXUrl(loader.engine.url))), demand)
  {
    var loaded := loader.LoadRows(backendKwargs, env);
    if loaded.Failure? {
      items, outcome := hint, Raised(loaded.error);
    } else {
      var all := hint + loaded.value;
      if demand.Some? && demand.value <= |all| {
        items, outcome := all[..demand.value], Closed;
      } else {
        items, outcome := all, Exhausted;
      }
    }
  }

  /**
   * From the construction of the loader to the end of `table_rows`: a missing
   * cursor column raises before the `try`; otherwise the loader's items are
   * delivered and the `finally` disposes of the engine when it is tagged so.
   */
  method LoadAndDispose(engine: Engine, t: Table, hint: seq<DataItem>, chunkSize: nat, backend: Backend,
                        incremental: Incremental?, backendKwargs: Option<Kwargs>,
                        queryAdapter: Option<QueryAdapter>, env: Environment, demand: Option<nat>)
    returns (items: seq<DataItem>, outcome: Outcome)
    requires (backend != ConnectorX ==> chunkSize > 0) && PastHint(hint, demand)
    modifies engine
    ensures (items, outcome) ==
      Consume(RunAfter(hint, t, incremental, chunkSize, backend, backendKwargs, queryAdapter, env,
                       ConnectorXUrl(engine.url)), demand)
    ensures engine.disposeCount == old(engine.disposeCount) +
      if CursorColumnExists(t, incremental) && old(engine.MayDispose()) then 1 else 0
    ensures engine.mayDisposeAfterUse == old(engine.mayDisposeAfterUse)
  {
    var created := NewTableLoader(engine, backend, t, TableToColumns(t), chunkSize, incremental, queryAdapter);
    if created.Failure? {
      items, outcome := hint, Raised(created.error);
      return;
    }
    // try
    items, outcome := Deliver(created.value, hint, backendKwargs, env, demand);
    // finally
    if engine.MayDispose() {
      engine.Dispose();
    }
  }

  /** The incremental takes the reflected table's primary key when it has none of its own. */
  method BackfillPrimaryKey(incremental: Incremental, t: Table)
    modifies incremental
    ensures incremental.primaryKey ==
      if old(incremental.primaryKey).None? && t.primaryKey.Some? then t.primaryKey else old(incremental.primaryKey)
  {
    if incremental.primaryKey.None? {
      var primaryKey := t.primaryKey;
      if primaryKey.Some? {
        incremental.primaryKey := primaryKey;
      }
    }
  }

  /**
   * `table_rows` driven by a consumer asking for at most `demand` items: it
   * receives the generator's items up to its demand, the primary key is
   * back-filled once the body runs under deferred reflection, and the engine is
   * disposed exactly when execution entered the `try` and the engine is tagged
   * as disposable.
   */
  method TableRows(engine: Engine, table: Table, chunkSize: nat, backend: Backend, incremental: Incremental?,
                   deferTableReflect: bool, backendKwargs: Option<Kwargs>, queryAdapter: Option<QueryAdapter>,
                   env: Environment, demand: Option<nat>)
    returns (items: seq<DataItem>, outcome: Outcome)
    requires backend != ConnectorX ==> chunkSize > 0
    modifies engine, incremental
    ensures (items, outcome) ==
      Consume(Generated(table, deferTableReflect, incremental, chunkSize, backend, backendKwargs, queryAdapter,
                        env, ConnectorXUrl(engine.url)), demand)
    ensures incremental != null ==>
      incremental.primaryKey ==
        if deferTableReflect && Starts(demand) && old(incremental.primaryKey).None? && env.reflected.primaryKey.Some?
        then env.reflected.primaryKey
        else old(incremental.primaryKey)
    ensures var t := EffectiveTable(table, deferTableReflect, env);
      engine.disposeCount == old(engine.disposeCount) +
        if PastHint(HintItems(t, deferTableReflect), demand) && CursorColumnExists(t, incremental)
           && old(engine.MayDispose())
        then 1 else 0
    ensures engine.mayDisposeAfterUse == old(engine.mayDisposeAfterUse)
  {
    items := [];
    if demand == Some(0) {
      outcome := Closed;
      return;
    }
    var t := table;
    if deferTableReflect {
      t := EffectiveTable(table, true, env);
      if incremental != null {
        BackfillPrimaryKey(incremental, t);
      }
      items := [Hint(t.primaryKey, TableToColumns(t))];
      if demand == Some(1) {
        // closed while suspended at the hint record, before the try
        GeneratedStartsWithHint(table, deferTableReflect, incremental, chunkSize, backend, backendKwargs,
                                queryAdapter, env, ConnectorXUrl(engine.url));
        outcome := Closed;
        return;
      }
    }
    items, outcome := LoadAndDispose(engine, t, items, chunkSize, backend, incremental, backendKwargs,
                                     queryAdapter, env, demand);
  }
}
