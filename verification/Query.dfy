/** The state of a `MessageQuery`, its two compilers, and what the compiled forms select. */
module Query {
  import opened Entity
  import opened Codec

  /** A predicate added by Where, and a term added by Order (opaque beyond their effect). */
  type Pred = Message -> bool
  type Order = (Message, Message) -> bool

  /** The builder's state, slices by their contents. */
  datatype QueryState = QueryState(
    limit: Option<int>, offset: Option<int>, unique: Option<bool>,
    fields: seq<Column>, order: seq<Order>, predicates: seq<Pred>)

  const NEW_QUERY := QueryState(None, None, None, [], [], [])

  const MAX_INT32 := 0x7fff_ffff

  // ---------------------------------------------------------------- the compiled forms

  /** A `sqlgraph.QuerySpec`: limit and offset 0 mean none. */
  datatype QuerySpec = QuerySpec(
    columns: seq<Column>, unique: bool, predicates: seq<Pred>, order: seq<Order>, limit: int, offset: int)

  /** A `sql.Selector`. */
  datatype Selector = Selector(
    columns: seq<Column>, distinct: bool, predicates: seq<Pred>, order: seq<Order>,
    limit: Option<int>, offset: Option<int>)

  function WithoutID(fields: seq<Column>): seq<Column> {
    if fields == [] then []
    else
      var rest := WithoutID(fields[..|fields| - 1]);
      if fields[|fields| - 1] == ID then rest else rest + [fields[|fields| - 1]]
  }

  /** What `querySpec` compiles. */
  function SpecOf(q: QueryState): QuerySpec {
    QuerySpec(if q.fields == [] then COLUMNS else [ID] + WithoutID(q.fields),
              q.unique.GetOr(false), q.predicates, q.order, q.limit.GetOr(0), q.offset.GetOr(0))
  }

  /** What `sqlQuery` compiles: an offset brings a default limit, which an explicit one overrides. */
  function SelectorOf(q: QueryState): Selector {
    Selector(if q.fields == [] then COLUMNS else q.fields,
             q.unique == Some(true), q.predicates, q.order,
             if q.limit.Some? then q.limit else if q.offset.Some? then Some(MAX_INT32) else None,
             q.offset)
  }

  // ---------------------------------------------------------------- what they select

  /** The table, and the database's sorting. */
  datatype Database = Database(table: seq<Message>, sort: (seq<Order>, seq<Message>) -> seq<Message>)

  ghost predicate DistinctIDs(rows: seq<Message>) {
    forall a, b :: 0 <= a < b < |rows| ==> rows[a].id != rows[b].id
  }

  /** IDs are a key of the table, and sorting only rearranges. */
  ghost predicate Sound(db: Database) {
    && DistinctIDs(db.table)
    && forall order, rows :: multiset(db.sort(order, rows)) == multiset(rows)
  }

  function Accepts(ps: seq<Pred>, m: Message): bool {
    forall i :: 0 <= i < |ps| ==> ps[i](m)
  }

  function Filter(ps: seq<Pred>, rows: seq<Message>): seq<Message> {
    if rows == [] then []
    else
      var rest := Filter(ps, rows[..|rows| - 1]);
      if Accepts(ps, rows[|rows| - 1]) then rest + [rows[|rows| - 1]] else rest
  }

  /** The contents of a row in the given columns. */
  function Project(m: Message, columns: seq<Column>): seq<Slot> {
    seq(|columns|, i requires 0 <= i < |columns| => Get(Decoded(m, map[]), columns[i]))
  }

  predicate SomeLike(rows: seq<Message>, m: Message, columns: seq<Column>) {
    exists i :: 0 <= i < |rows| && Project(rows[i], columns) == Project(m, columns)
  }

  /** SELECT DISTINCT: of the rows that agree in the columns, the first one. */
  function Dedup(columns: seq<Column>, rows: seq<Message>): seq<Message> {
    if rows == [] then []
    else
      var rest := Dedup(columns, rows[..|rows| - 1]);
      if SomeLike(rest, rows[|rows| - 1], columns) then rest else rest + [rows[|rows| - 1]]
  }

  function Drop(rows: seq<Message>, k: int): seq<Message> {
    if k <= 0 then rows else if k >= |rows| then [] else rows[k..]
  }

  function Take(rows: seq<Message>, k: int): seq<Message> {
    if k <= 0 then [] else if k >= |rows| then rows else rows[..k]
  }

  function Window(rows: seq<Message>, offset: int, limit: Option<int>): seq<Message> {
    if limit.Some? then Take(Drop(rows, offset), limit.value) else Drop(rows, offset)
  }

  /** The matching rows in order, before distinctness and window. */
  function Matching(db: Database, predicates: seq<Pred>, order: seq<Order>): seq<Message> {
    db.sort(order, Filter(predicates, db.table))
  }

  function SpecRows(db: Database, s: QuerySpec): seq<Message> {
    var rows := Matching(db, s.predicates, s.order);
    Window(if s.unique then Dedup(s.columns, rows) else rows, s.offset, if s.limit == 0 then None else Some(s.limit))
  }

  function SelectorRows(db: Database, s: Selector): seq<Message> {
    var rows := Matching(db, s.predicates, s.order);
    Window(if s.distinct then Dedup(s.columns, rows) else rows, s.offset.GetOr(0), s.limit)
  }
}
