/**
 * The worked example of an incremental load: a table `events(id, ts, val)`
 * with the cursor on `ts` (dates written as yyyymmdd integers), aggregation
 * `max`, `last_value` 2024-01-01 and a chunk size of 2. Of the four stored
 * rows the three from 2024-01-01 on come back, as two chunks of two and one
 * rows, in ascending `ts` order when `row_order` is `asc`.
 */
module Scenario {
  import opened Wrappers
  import opened Sql
  import opened QueryPlan
  import opened Backends
  import opened Chunking
  import opened Loader
  import opened Extract

  const Events: Table := Table("events", ["id", "ts", "val"], Some(["id"]))

  function Event(id: int, ts: int, val: int): Row {
    map["id" := Some(id), "ts" := Some(ts), "val" := Some(val)]
  }

  /** Stored out of cursor order, so that the ORDER BY has work to do. */
  const Stored: seq<Row> := [E3, E1, E4, E2]

  function EventsCursor(rowOrder: Option<SortOrder>): CursorConfig {
    CursorConfig("ts", Max, Some(20240101), None, rowOrder, Raise)
  }

  function EventsEnvironment(): Environment {
    Environment(Events, Stored, true, q => Success("SELECT"))
  }

  const E1: Row := Event(1, 20231231, 10)
  const E2: Row := Event(2, 20240101, 20)
  const E3: Row := Event(3, 20240102, 30)
  const E4: Row := Event(4, 20240103, 40)

  lemma EventsQuery()
    ensures MakeQuery(Events, Some(EventsCursor(Some(Asc))), None) ==
      Select("events", Some(Ge("ts", 20240101)), Some(OrderBy("ts", Ascending)))
  {
  }

  const Since: Option<Pred> := Some(Ge("ts", 20240101))

  /** One step of the filter: the head row is kept or dropped, the rest is filtered alike. */
  lemma FilterCons(where: Option<Pred>, x: Row, rest: seq<Row>)
    ensures Filter(where, [x] + rest) == (if Keeps(where, x) then [x] else []) + Filter(where, rest)
  {
    assert ([x] + rest)[1..] == rest;
  }

  /** The WHERE clause keeps the three rows from 2024-01-01 on, in stored order. */
  lemma EventsFiltered()
    ensures Filter(Since, Stored) == [E3, E4, E2]
  {
    assert Keeps(Since, E3) && !Keeps(Since, E1) && Keeps(Since, E4) && Keeps(Since, E2);
    FilterCons(Since, E2, []);
    FilterCons(Since, E4, [E2]);
    FilterCons(Since, E1, [E4, E2]);
    FilterCons(Since, E3, [E1, E4, E2]);
  }

  const ByTs: OrderBy := OrderBy("ts", Ascending)

  lemma SortLast()
    ensures Sort(ByTs, [E2]) == [E2]
  {
    assert [E2][1..] == [];
  }

  lemma SortLastTwo()
    ensures Sort(ByTs, [E4, E2]) == [E2, E4]
  {
    assert [E4, E2][1..] == [E2];
    SortLast();
    assert !KeyLe(ByTs, E4, E2);
    assert Insert(ByTs, E4, [E2]) == [E2] + Insert(ByTs, E4, []) by {
      assert [E2][1..] == [];
    }
  }

  lemma InsertMiddle()
    ensures Insert(ByTs, E3, [E2, E4]) == [E2, E3, E4]
  {
    assert [E2, E4][1..] == [E4];
    assert !KeyLe(ByTs, E3, E2) && KeyLe(ByTs, E3, E4);
    assert Insert(ByTs, E3, [E4]) == [E3, E4];
  }

  /** Ascending on `ts` puts the three kept rows in date order. */
  lemma EventsSorted()
    ensures Sort(ByTs, [E3, E4, E2]) == [E2, E3, E4]
  {
    assert [E3, E4, E2][1..] == [E4, E2];
    SortLastTwo();
    InsertMiddle();
  }

  /** The database returns the three rows from 2024-01-01 on, in ascending `ts` order. */
  lemma EventsExecuted()
    ensures Execute(MakeQuery(Events, Some(EventsCursor(Some(Asc))), None), Stored) == [E2, E3, E4]
  {
    EventsQuery();
    EventsFiltered();
    EventsSorted();
  }

  lemma EventsChunked()
    ensures Chunks([E2, E3, E4], 2) == [[E2, E3], [E4]]
  {
    var result := [E2, E3, E4];
    assert result[..2] == [E2, E3] && result[2..] == [E4];
    assert Chunks([E4], 2) == [[E4]];
  }

  lemma EventsStreamed()
    ensures StreamedItems(SqlAlchemy, map[], Events.columns, Events.columns, [E2, E3, E4], 2) ==
      [RecordBatch([E2, E3]), RecordBatch([E4])]
  {
    EventsChunked();
  }

  /** The sqlalchemy backend yields them as two record batches: [2024-01-01, 2024-01-02], then [2024-01-03]. */
  lemma EventsInAscendingOrder(engineUrl: string)
    ensures LoadedItems(SqlAlchemy, Events, Events.columns, 2, Some(EventsCursor(Some(Asc))), None, None,
                        EventsEnvironment(), engineUrl) ==
      Success([RecordBatch([E2, E3]), RecordBatch([E4])])
  {
    EventsExecuted();
    EventsStreamed();
  }

  /**
   * Through `table_rows` with an incremental on `ts`: a consumer that drains
   * the generator receives the two batches and the generator ends without error.
   */
  lemma EventsTableRows(incremental: Incremental, engineUrl: string)
    requires incremental.cursorPath == "ts" && incremental.lastValueFunc == Max
    requires incremental.lastValue == Some(20240101) && incremental.endValue.None?
    requires incremental.rowOrder == Some(Asc) && incremental.onCursorValueMissing == Raise
    ensures Consume(Generated(Events, false, incremental, 2, SqlAlchemy, None, None, EventsEnvironment(), engineUrl), None) ==
      ([RecordBatch([E2, E3]), RecordBatch([E4])], Exhausted)
  {
    var items := [RecordBatch([E2, E3]), RecordBatch([E4])];
    assert CursorOf(incremental) == Some(EventsCursor(Some(Asc)));
    EventsInAscendingOrder(engineUrl);
    assert RunAfter([], Events, incremental, 2, SqlAlchemy, None, None, EventsEnvironment(), engineUrl) ==
      Run([] + items, None);
    assert [] + items == items;
  }
}
