/**
 * The part of SQL that the query planner emits: a single-table SELECT with an
 * optional WHERE predicate over one column and an optional ORDER BY on it.
 * The evaluator follows SQL's three-valued logic, and `Execute` is a reference
 * database: it keeps the rows whose predicate is TRUE and sorts them when asked.
 */
module Sql {
  import opened Wrappers

  /** A cell: SQL NULL is `None`. Cursor values of any comparable type are integers here. */
  type Value = Option<int>

  /** A result row maps column names to cells. */
  type Row = map<string, Value>

  /** A table descriptor: its name, its column names and its declared primary key. */
  datatype Table = Table(name: string, columns: seq<string>, primaryKey: Option<seq<string>>)

  /** The cell of `column`; a column the row does not carry reads as NULL. */
  function Cell(row: Row, column: string): Value {
    if column in row then row[column] else None
  }

  datatype Pred =
    | Ge(column: string, bound: int)
    | Le(column: string, bound: int)
    | Gt(column: string, bound: int)
    | Lt(column: string, bound: int)
    | IsNull(column: string)
    | IsNotNull(column: string)
    | And(left: Pred, right: Pred)
    | Or(left: Pred, right: Pred)

  datatype Direction = Ascending | Descending

  datatype OrderBy = OrderBy(column: string, direction: Direction)

  /** `SELECT * FROM from [WHERE where] [ORDER BY orderBy]` */
  datatype Select = Select(from: string, where: Option<Pred>, orderBy: Option<OrderBy>)

  /** `table.select()`: every row, no predicate, no ordering. */
  function SelectAll(t: Table): (q: Select)
    ensures q.from == t.name && q.where.None? && q.orderBy.None?
  {
    Select(t.name, None, None)
  }

  // ---------------------------------------------------------------------------
  // Three-valued evaluation

  datatype Truth = True | False | Unknown

  function FromBool(b: bool): Truth {
    if b then True else False
  }

  /** A comparison with NULL is UNKNOWN. */
  function Compare(cell: Value, test: int -> bool): Truth {
    match cell
    case None => Unknown
    case Some(v) => FromBool(test(v))
  }

  function AndTruth(a: Truth, b: Truth): Truth {
    if a == False || b == False then False
    else if a == True && b == True then True
    else Unknown
  }

  function OrTruth(a: Truth, b: Truth): Truth {
    if a == True || b == True then True
    else if a == False && b == False then False
    else Unknown
  }

  function Eval(p: Pred, row: Row): Truth {
    match p
    case Ge(c, b) => Compare(Cell(row, c), v => v >= b)
    case Le(c, b) => Compare(Cell(row, c), v => v <= b)
    case Gt(c, b) => Compare(Cell(row, c), v => v > b)
    case Lt(c, b) => Compare(Cell(row, c), v => v < b)
    case IsNull(c) => FromBool(Cell(row, c).None?)
    case IsNotNull(c) => FromBool(Cell(row, c).Some?)
    case And(l, r) => AndTruth(Eval(l, row), Eval(r, row))
    case Or(l, r) => OrTruth(Eval(l, row), Eval(r, row))
  }

  /** A WHERE clause keeps exactly the rows on which its predicate is TRUE. */
  predicate Passes(p: Pred, row: Row) {
    Eval(p, row) == True
  }

  /**
   * A two-valued reading of a predicate: a comparison holds only of a
   * non-NULL cell. It is the reference the three-valued evaluator is checked against.
   */
  predicate Holds(p: Pred, row: Row) {
    match p
    case Ge(c, b) => Cell(row, c).Some? && Cell(row, c).value >= b
    case Le(c, b) => Cell(row, c).Some? && Cell(row, c).value <= b
    case Gt(c, b) => Cell(row, c).Some? && Cell(row, c).value > b
    case Lt(c, b) => Cell(row, c).Some? && Cell(row, c).value < b
    case IsNull(c) => Cell(row, c).None?
    case IsNotNull(c) => Cell(row, c).Some?
    case And(l, r) => Holds(l, row) && Holds(r, row)
    case Or(l, r) => Holds(l, row) || Holds(r, row)
  }

  /** Without negation, UNKNOWN behaves like FALSE: a row passes iff the predicate holds. */
  lemma {:induction false} PassesIffHolds(p: Pred, row: Row)
    ensures Passes(p, row) <==> Holds(p, row)
  {
    match p
    case And(l, r) =>
      PassesIffHolds(l, row);
      PassesIffHolds(r, row);
    case Or(l, r) =>
      PassesIffHolds(l, row);
      PassesIffHolds(r, row);
    case _ =>
  }

  /** Whether an optional WHERE clause keeps a row. */
  predicate Keeps(where: Option<Pred>, row: Row) {
    where.None? || Passes(where.value, row)
  }

  /** The rows of `rows` the WHERE clause keeps, in their stored order. */
  function Filter(where: Option<Pred>, rows: seq<Row>): seq<Row> {
    if rows == [] then []
    else (if Keeps(where, rows[0]) then [rows[0]] else []) + Filter(where, rows[1..])
  }

  /** The filter keeps every copy of a row the WHERE clause keeps, and no copy of any other. */
  lemma {:induction false} FilterMultiplicity(where: Option<Pred>, rows: seq<Row>)
    ensures forall row :: multiset(Filter(where, rows))[row] == if Keeps(where, row) then multiset(rows)[row] else 0
  {
    if rows != [] {
      assert rows == [rows[0]] + rows[1..];
      FilterMultiplicity(where, rows[1..]);
    }
  }

  // ---------------------------------------------------------------------------
  // Ordering

  /** The order of cells under ORDER BY ... ASC with NULLs sorting after every value. */
  predicate NullsLastLe(a: Value, b: Value) {
    b.None? || (a.Some? && a.value <= b.value)
  }

  /** `x` may precede `y` under `o` (NULLs last when ascending, first when descending). */
  predicate KeyLe(o: OrderBy, x: Row, y: Row) {
    match o.direction
    case Ascending => NullsLastLe(Cell(x, o.column), Cell(y, o.column))
    case Descending => NullsLastLe(Cell(y, o.column), Cell(x, o.column))
  }

  predicate Sorted(o: OrderBy, s: seq<Row>) {
    forall i, j :: 0 <= i < j < |s| ==> KeyLe(o, s[i], s[j])
  }

  /**
   * What every database guarantees of ORDER BY: the non-NULL cells of the
   * column come in the requested direction. Where NULLs go is left open.
   */
  predicate OrderedOn(o: OrderBy, s: seq<Row>) {
    forall i, j :: 0 <= i < j < |s| && Cell(s[i], o.column).Some? && Cell(s[j], o.column).Some? ==>
      match o.direction
      case Ascending => Cell(s[i], o.column).value <= Cell(s[j], o.column).value
      case Descending => Cell(s[i], o.column).value >= Cell(s[j], o.column).value
  }

  /** `x` may precede every row of `s`. */
  predicate Precedes(o: OrderBy, x: Row, s: seq<Row>) {
    forall y :: y in s ==> KeyLe(o, x, y)
  }

  lemma SortedCons(o: OrderBy, x: Row, s: seq<Row>)
    requires Precedes(o, x, s) && Sorted(o, s)
    ensures Sorted(o, [x] + s)
  {
    var t := [x] + s;
    forall i, j | 0 <= i < j < |t| ensures KeyLe(o, t[i], t[j]) {
      assert t[j] == s[j - 1];
      if i == 0 {
        assert s[j - 1] in s;
      } else {
        assert t[i] == s[i - 1];
      }
    }
  }

  /** Inserts `x` before the first row it may precede. */
  function Insert(o: OrderBy, x: Row, s: seq<Row>): seq<Row> {
    if s == [] then [x]
    else if KeyLe(o, x, s[0]) then [x] + s
    else [s[0]] + Insert(o, x, s[1..])
  }

  /** Insertion adds one copy of `x` and loses nothing. */
  lemma {:induction false} InsertMultiset(o: OrderBy, x: Row, s: seq<Row>)
    ensures multiset(Insert(o, x, s)) == multiset(s) + multiset{x}
  {
    if s != [] && !KeyLe(o, x, s[0]) {
      assert s == [s[0]] + s[1..];
      InsertMultiset(o, x, s[1..]);
    }
  }

  lemma HeadPrecedes(o: OrderBy, x: Row, s: seq<Row>)
    requires Sorted(o, s) && s != [] && KeyLe(o, x, s[0])
    ensures Precedes(o, x, s)
  {
    forall y | y in s ensures KeyLe(o, x, y) {
      var k :| 0 <= k < |s| && s[k] == y;
      if k > 0 { assert KeyLe(o, s[0], s[k]); }
    }
  }

  lemma HeadPrecedesInsert(o: OrderBy, x: Row, s: seq<Row>)
    requires Sorted(o, s) && s != [] && !KeyLe(o, x, s[0])
    ensures Precedes(o, s[0], Insert(o, x, s[1..]))
  {
    var rest := Insert(o, x, s[1..]);
    InsertMultiset(o, x, s[1..]);
    forall y | y in rest ensures KeyLe(o, s[0], y) {
      assert y in multiset(rest);
      if y != x {
        assert y in multiset(s[1..]);
        var k :| 0 <= k < |s[1..]| && s[1..][k] == y;
        assert s[k + 1] == y;
      }
    }
  }

  /** Insertion into a sorted sequence keeps it sorted. */
  lemma {:induction false} InsertSorted(o: OrderBy, x: Row, s: seq<Row>)
    requires Sorted(o, s)
    ensures Sorted(o, Insert(o, x, s))
  {
    if s == [] {
    } else if KeyLe(o, x, s[0]) {
      HeadPrecedes(o, x, s);
      SortedCons(o, x, s);
    } else {
      assert Sorted(o, s[1..]);
      InsertSorted(o, x, s[1..]);
      HeadPrecedesInsert(o, x, s);
      SortedCons(o, s[0], Insert(o, x, s[1..]));
    }
  }

  function Sort(o: OrderBy, s: seq<Row>): (r: seq<Row>)
    ensures Sorted(o, r)
    ensures multiset(r) == multiset(s)
  {
    if s == [] then []
    else
      assert s == [s[0]] + s[1..];
      InsertSorted(o, s[0], Sort(o, s[1..]));
      InsertMultiset(o, s[0], Sort(o, s[1..]));
      Insert(o, s[0], Sort(o, s[1..]))
  }

  lemma SortedIsOrdered(o: OrderBy, s: seq<Row>)
    requires Sorted(o, s)
    ensures OrderedOn(o, s)
  {
  }

  // ---------------------------------------------------------------------------
  // Running a query

  /**
   * `out` is a result the database may return for `q` over the stored `rows`:
   * exactly the kept rows, each as often as it is stored, ordered as ORDER BY asks.
   */
  ghost predicate IsResultOf(q: Select, rows: seq<Row>, out: seq<Row>) {
    && multiset(out) == multiset(Filter(q.where, rows))
    && (q.orderBy.Some? ==> OrderedOn(q.orderBy.value, out))
  }

  /** The reference database: filter in stored order, then sort if ORDER BY is given. */
  function Execute(q: Select, rows: seq<Row>): (out: seq<Row>)
    ensures IsResultOf(q, rows, out)
  {
    var kept := Filter(q.where, rows);
    if q.orderBy.None? then kept
    else
      var sorted := Sort(q.orderBy.value, kept);
      SortedIsOrdered(q.orderBy.value, sorted);
      sorted
  }

  /** A row is in a result iff it is stored and the WHERE clause keeps it. */
  lemma ResultMembership(q: Select, rows: seq<Row>, out: seq<Row>, row: Row)
    requires IsResultOf(q, rows, out)
    ensures row in out <==> row in rows && Keeps(q.where, row)
  {
    FilterMultiplicity(q.where, rows);
    assert row in out <==> multiset(out)[row] > 0;
    assert row in rows <==> multiset(rows)[row] > 0;
  }

  /** Without a WHERE clause every stored row comes back, as often as it is stored. */
  lemma UnfilteredResultIsWholeTable(q: Select, rows: seq<Row>, out: seq<Row>)
    requires q.where.None?
    requires IsResultOf(q, rows, out)
    ensures multiset(out) == multiset(rows)
  {
    FilterMultiplicity(q.where, rows);
    assert multiset(Filter(q.where, rows)) == multiset(rows);
  }
}
