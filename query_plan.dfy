/**
 * Incremental query planning of `TableLoader._make_query` and `make_query`:
 * from the cursor settings of an incremental load, the WHERE predicate that
 * bounds the scan and the ORDER BY that follows the direction of progression.
 */
module QueryPlan {
  import opened Wrappers
  import opened Sql

  /** The incremental's `last_value_func`: the builtin `max`, the builtin `min`, or anything else. */
  datatype LastValueFunc = Max | Min | Custom

  /** A declared `row_order`. */
  datatype SortOrder = Asc | Desc

  /** `on_cursor_value_missing`; `Raise` stands for every value other than include and exclude. */
  datatype OnCursorValueMissing = Raise | Include | Exclude

  /**
   * The cursor settings a loader holds when an incremental is given: the cursor
   * column, the aggregation, `last_value`, `end_value`, `row_order` and the
   * missing-cursor policy.
   */
  datatype CursorConfig = CursorConfig(
    column: string,
    lastValueFunc: LastValueFunc,
    lastValue: Option<int>,
    endValue: Option<int>,
    rowOrder: Option<SortOrder>,
    onMissing: OnCursorValueMissing)

  /** A caller's query adapter: receives the built query and the table, returns the query to run. */
  type QueryAdapter = (Select, Table) -> Select

  /** The bounds a non-NULL cursor value must meet for the aggregation in force. */
  predicate InBounds(c: CursorConfig, v: int)
    requires c.lastValue.Some?
  {
    match c.lastValueFunc
    case Max => v >= c.lastValue.value && (c.endValue.None? || v < c.endValue.value)
    case Min => v <= c.lastValue.value && (c.endValue.None? || v > c.endValue.value)
    case Custom => true
  }

  /** The comparison against `last_value`, and against `end_value` when it is set. */
  function BoundClause(c: CursorConfig): Pred
    requires !c.lastValueFunc.Custom? && c.lastValue.Some?
  {
    var lower := if c.lastValueFunc == Max then Ge(c.column, c.lastValue.value)
                 else Le(c.column, c.lastValue.value);
    if c.endValue.None? then lower
    else
      var upper := if c.lastValueFunc == Max then Lt(c.column, c.endValue.value)
                   else Gt(c.column, c.endValue.value);
      And(lower, upper)
  }

  /** `sa.and_(clause, p)`, where a clause still equal to the literal `True` drops out. */
  function Conjoin(clause: Option<Pred>, p: Pred): Pred {
    if clause.None? then p else And(clause.value, p)
  }

  /**
   * The WHERE predicate, `None` while it is still the literal `True`: the bound
   * clause once `last_value` is set, widened by `IS NULL` under `include`, then
   * narrowed by `IS NOT NULL` under `exclude` whatever came before.
   */
  function WhereClause(c: CursorConfig): (w: Option<Pred>)
    requires !c.lastValueFunc.Custom?
    ensures w.Some? <==> c.lastValue.Some? || c.onMissing == Exclude
    ensures c.lastValue.Some? && c.onMissing == Include ==>
      w == Some(Or(BoundClause(c), IsNull(c.column)))
    ensures c.lastValue.None? && c.onMissing != Exclude ==> w.None?
    ensures c.lastValue.None? && c.onMissing == Exclude ==> w == Some(IsNotNull(c.column))
    ensures c.lastValue.Some? && c.onMissing == Raise ==> w == Some(BoundClause(c))
    ensures c.lastValue.Some? && c.onMissing == Exclude ==> w == Some(And(BoundClause(c), IsNotNull(c.column)))
  {
    var clause :=
      if c.lastValue.None? then None
      else if c.onMissing == Include then Some(Or(BoundClause(c), IsNull(c.column)))
      else Some(BoundClause(c));
    if c.onMissing == Exclude then Some(Conjoin(clause, IsNotNull(c.column))) else clause
  }

  /**
   * The ORDER BY: ascending on the cursor when the requested order agrees with
   * the direction of progression (`asc` under `max`, `desc` under `min`),
   * descending when it disagrees, none when no order is requested.
   */
  function OrderClause(c: CursorConfig): (o: Option<OrderBy>)
    requires !c.lastValueFunc.Custom?
    ensures o.Some? <==> c.rowOrder.Some?
    ensures o.Some? ==> o.value.column == c.column
    ensures o.Some? ==>
      (o.value.direction == Ascending <==> ((c.rowOrder.value == Asc) <==> (c.lastValueFunc == Max)))
  {
    match c.rowOrder
    case Some(Asc) => Some(OrderBy(c.column, if c.lastValueFunc == Max then Ascending else Descending))
    case Some(Desc) => Some(OrderBy(c.column, if c.lastValueFunc == Min then Ascending else Descending))
    case None => None
  }

  /**
   * `_make_query`: the bare `table.select()` when no incremental is given or its
   * aggregation is custom, otherwise the bounded and ordered select.
   */
  function BaseQuery(t: Table, cursor: Option<CursorConfig>): (q: Select)
    ensures q.from == t.name
    ensures cursor.None? || cursor.value.lastValueFunc.Custom? ==> q.where.None? && q.orderBy.None?
  {
    if cursor.None? || cursor.value.lastValueFunc.Custom? then SelectAll(t)
    else Select(t.name, WhereClause(cursor.value), OrderClause(cursor.value))
  }

  /** `make_query`: the adapter, when given, is applied once to the built query. */
  function MakeQuery(t: Table, cursor: Option<CursorConfig>, adapter: Option<QueryAdapter>): (q: Select)
    ensures adapter.None? ==> q == BaseQuery(t, cursor)
    ensures adapter.Some? ==> q == adapter.value(BaseQuery(t, cursor), t)
  {
    var base := BaseQuery(t, cursor);
    if adapter.Some? then adapter.value(base, t) else base
  }

  /** Which rows the bounded query keeps when `last_value` is set. */
  lemma BoundClauseHolds(c: CursorConfig, row: Row)
    requires !c.lastValueFunc.Custom? && c.lastValue.Some?
    ensures Holds(BoundClause(c), row) <==> Cell(row, c.column).Some? && InBounds(c, Cell(row, c.column).value)
  {
  }

  /**
   * The rows the cursor settings select: a row with a cursor value iff no
   * `last_value` is set or the value is within bounds; a row whose cursor is
   * NULL iff the policy is not `exclude` and either no `last_value` is set or
   * the policy is `include`.
   */
  predicate Selected(c: CursorConfig, row: Row) {
    match Cell(row, c.column)
    case Some(v) => c.lastValue.None? || InBounds(c, v)
    case None => c.onMissing != Exclude && (c.lastValue.None? || c.onMissing == Include)
  }

  /**
   * The complete account of the WHERE clause: it keeps exactly the rows the
   * cursor settings select.
   */
  lemma WhereKeeps(c: CursorConfig, row: Row)
    requires !c.lastValueFunc.Custom?
    ensures Keeps(WhereClause(c), row) <==> Selected(c, row)
  {
    var w := WhereClause(c);
    if w.Some? {
      PassesIffHolds(w.value, row);
      if c.lastValue.Some? {
        BoundClauseHolds(c, row);
      }
    }
  }

  /**
   * Over the rows of any database result of the bounded query: a row with a
   * cursor value is within bounds; under `exclude` no row has a NULL cursor;
   * under `include` every stored row with a NULL cursor comes back, and so does
   * every stored row within bounds.
   */
  lemma ResultWithinBounds(t: Table, c: CursorConfig, rows: seq<Row>, out: seq<Row>)
    requires !c.lastValueFunc.Custom? && c.lastValue.Some?
    requires IsResultOf(BaseQuery(t, Some(c)), rows, out)
    ensures forall row :: row in out && Cell(row, c.column).Some? ==> InBounds(c, Cell(row, c.column).value)
    ensures forall row :: row in rows && Cell(row, c.column).Some? && InBounds(c, Cell(row, c.column).value) ==> row in out
    ensures c.onMissing == Exclude ==> forall row :: row in out ==> Cell(row, c.column).Some?
    ensures c.onMissing == Include ==> forall row :: row in rows && Cell(row, c.column).None? ==> row in out
    ensures c.onMissing == Raise ==> forall row :: row in out ==> Cell(row, c.column).Some?
  {
    var q := BaseQuery(t, Some(c));
    forall row
      ensures row in out <==> row in rows && Selected(c, row)
    {
      ResultMembership(q, rows, out, row);
      WhereKeeps(c, row);
    }
  }

  /** Under `exclude` no row of any result has a NULL cursor, whether or not `last_value` is set. */
  lemma ExcludeDropsNullCursors(t: Table, c: CursorConfig, rows: seq<Row>, out: seq<Row>)
    requires !c.lastValueFunc.Custom? && c.onMissing == Exclude
    requires IsResultOf(BaseQuery(t, Some(c)), rows, out)
    ensures forall row :: row in out ==> Cell(row, c.column).Some?
  {
    forall row | row in out
      ensures Cell(row, c.column).Some?
    {
      ResultMembership(BaseQuery(t, Some(c)), rows, out, row);
      WhereKeeps(c, row);
    }
  }

  /** Without `last_value` and without `exclude`, no WHERE is attached and every stored row comes back. */
  lemma NoLastValueScansAll(t: Table, c: CursorConfig, rows: seq<Row>, out: seq<Row>)
    requires !c.lastValueFunc.Custom? && c.lastValue.None? && c.onMissing != Exclude
    requires IsResultOf(BaseQuery(t, Some(c)), rows, out)
    ensures BaseQuery(t, Some(c)).where.None?
    ensures multiset(out) == multiset(rows)
  {
    UnfilteredResultIsWholeTable(BaseQuery(t, Some(c)), rows, out);
  }

  /**
   * Without an incremental, or with a custom aggregation, the query is the bare
   * select and the result is the whole table.
   */
  lemma BareQueryScansAll(t: Table, cursor: Option<CursorConfig>, rows: seq<Row>, out: seq<Row>)
    requires cursor.None? || cursor.value.lastValueFunc.Custom?
    requires IsResultOf(BaseQuery(t, cursor), rows, out)
    ensures BaseQuery(t, cursor) == SelectAll(t)
    ensures multiset(out) == multiset(rows)
  {
    UnfilteredResultIsWholeTable(BaseQuery(t, cursor), rows, out);
  }

  /**
   * The rows of any result come in the order the progression asks for: with a
   * requested order that agrees with the aggregation (`asc` with `max`, `desc`
   * with `min`) the cursor values never decrease, otherwise they never increase.
   */
  lemma ResultFollowsRowOrder(t: Table, c: CursorConfig, rows: seq<Row>, out: seq<Row>, i: int, j: int)
    requires !c.lastValueFunc.Custom? && c.rowOrder.Some?
    requires IsResultOf(BaseQuery(t, Some(c)), rows, out)
    requires 0 <= i < j < |out| && Cell(out[i], c.column).Some? && Cell(out[j], c.column).Some?
    ensures (c.rowOrder.value == Asc) == (c.lastValueFunc == Max) ==>
      Cell(out[i], c.column).value <= Cell(out[j], c.column).value
    ensures (c.rowOrder.value == Asc) != (c.lastValueFunc == Max) ==>
      Cell(out[i], c.column).value >= Cell(out[j], c.column).value
  {
    var o := OrderClause(c).value;
    assert OrderedOn(o, out);
  }
}
