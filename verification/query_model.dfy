/**
  The grid's query state (the `IFilter` value): filter criteria, order
  entries, offset and limit, and the arithmetic every component uses to read
  the page size and the page index out of it.
 */
module Model {

  datatype Option<T> = None | Some(value: T)

  /** A column key of the row type; the grid only ever compares keys for equality. */
  type Field = string

  /** The operators of `FilterOperationType` that the grid offers. */
  datatype Op = Eq | Ne | Contains | StartsWith | EndsWith | Lt | Lte | Gt | Gte

  datatype Dir = Asc | Desc

  datatype ColumnType = StringColumn | NumberColumn | DateColumn

  /** A column declaration supplied by the caller. */
  datatype Column = Column(field: Field, headerName: string, width: int, kind: ColumnType)

  /** A criterion as the filter editor handles it: operator and value, no field. */
  datatype Condition = Condition(op: Op, value: string)

  /** A criterion of the query state. */
  datatype Criterion = Criterion(field: Field, op: Op, value: string)

  datatype OrderBy = OrderBy(field: Field, dir: Dir)

  /**
    The query state. `offset` and `limit` are optional numbers: JavaScript's
    `x || d` treats a missing value and 0 alike, so both are kept explicit.
   */
  datatype QueryState = QueryState(
    filter: seq<Criterion>,
    order: seq<OrderBy>,
    offset: Option<int>,
    limit: Option<int>)

  const DefaultPageSize: int := 10

  /** The state the grid starts from when the caller passes none. */
  const DefaultState: QueryState := QueryState([], [], Some(0), Some(DefaultPageSize))

  /** `limit || 10`: the limit, or 10 when it is missing or 0. */
  function PageSize(q: QueryState): (n: int)
    ensures n != 0
    ensures q.limit.Some? && q.limit.value != 0 ==> n == q.limit.value
    ensures q.limit.None? || q.limit.value == 0 ==> n == DefaultPageSize
  {
    match q.limit
    case Some(l) => if l != 0 then l else DefaultPageSize
    case None => DefaultPageSize
  }

  /** `offset || 0`: the offset, or 0 when it is missing. */
  function Offset(q: QueryState): int
  {
    match q.offset
    case Some(o) => o
    case None => 0
  }

  /** `Math.floor(a / b)`: the greatest integer not above the real quotient. */
  function FloorDiv(a: int, b: int): (r: int)
    requires b != 0
    ensures b > 0 ==> b * r <= a < b * r + b
    ensures b < 0 ==> b * r >= a > b * r + b
  {
    if b > 0 then a / b else (-a) / (-b)
  }

  /**
    The zero-based page the pagination widget shows: the page whose rows
    `[p * size, (p + 1) * size)` contain the offset (mirrored for a negative size).
   */
  function DisplayedPage(q: QueryState): (p: int)
    ensures PageSize(q) > 0 ==> PageSize(q) * p <= Offset(q) < PageSize(q) * (p + 1)
    ensures PageSize(q) < 0 ==> PageSize(q) * p >= Offset(q) > PageSize(q) * (p + 1)
  {
    FloorDiv(Offset(q), PageSize(q))
  }

  /** The grid's initial state: the caller's, or the default one. */
  function InitialState(given: Option<QueryState>): (q: QueryState)
    ensures given.None? ==> q == QueryState([], [], Some(0), Some(10))
    ensures given.Some? ==> q == given.value
  {
    match given
    case Some(g) => g
    case None => DefaultState
  }

  /** A product with a positive factor that stays below that factor is zero. */
  lemma SmallMultipleIsZero(n: int, k: int)
    requires n > 0 && 0 <= n * k < n
    ensures k == 0
  {
  }

  /** Exactly multiples of the page size land on the page they name. */
  lemma FloorDivMultiple(p: int, n: int)
    requires n != 0
    ensures FloorDiv(p * n, n) == p
  {
    var m := if n > 0 then n else -n;
    var a := if n > 0 then p * n else -(p * n);
    assert a == p * m;
    var r := a / m;
    assert FloorDiv(p * n, n) == r;
    assert m * r <= a < m * r + m;
    assert m * (p - r) == a - m * r;
    SmallMultipleIsZero(m, p - r);
  }

  /** A non-negative offset over a positive page size gives a non-negative page. */
  lemma FloorDivNonNegative(a: int, b: int)
    requires a >= 0 && b > 0
    ensures FloorDiv(a, b) >= 0
  {
  }
}
