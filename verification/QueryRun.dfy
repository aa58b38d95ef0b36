/** Running a query: prepareQuery, the interceptors, and the terminal calls that wrap one another. */
module QueryRun {
  import opened Entity
  import opened Codec
  import opened Onion
  import opened Slices
  import opened Query
  import opened QueryBuilder

  datatype OpName = OpAll | OpFirst | OpFirstID | OpOnly | OpOnlyID | OpIDs | OpCount | OpExist | OpSelect

  /** A context, by the operation named in the query context attached to it, if one is. */
  datatype QCtx = QCtx(op: Option<OpName>)

  /** `setContextOp`: only a context without a query context gets this query's. */
  function SetContextOp(ctx: QCtx, op: OpName): QCtx {
    if ctx.op.None? then QCtx(Some(op)) else ctx
  }

  datatype QError =
    | NotFound | NotSingular | UninitializedInterceptor | InvalidField(c: Column) | UnexpectedQueryType
    | UnexpectedResult | TooManyColumns | NotAnID | NilCalled | Panicked | Custom(code: nat)

  /** A Value: a list of messages or of IDs, a pointer to a list of IDs, a number (or another value that cannot be
      nil), an untyped nil, or anything else, a nil list of IDs included. */
  datatype Payload =
    | Nodes(rows: seq<Message>) | IDList(ids: seq<int>) | IDPointer(ids: seq<int>) | Number(n: nat) | NilValue
    | OtherPayload

  datatype Answer = Got(v: Payload) | Failed(e: QError)

  /** What a querier receives as query: a message query in some state, or a query of another type. */
  datatype Target = OnQuery(q: QueryState) | OtherQuery

  datatype QArg = QArg(ctx: QCtx, target: Target)

  /** What the interceptors keep for themselves. */
  type Private = int

  /** A Traverse method: the calls it makes on the builder, given the builder's state, and its error. */
  type Traverse = (QCtx, QueryState) -> (seq<Call>, Option<QError>)

  datatype Interceptor =
    | NilInterceptor
    | Interceptor(traverse: Option<Traverse>, hook: Hook<QArg, Private, Answer>)

  /** What is called, with the operation name it can see. */
  datatype Seen =
    | Traversed(k: nat, op: Option<OpName>)
    | Intercepted(k: nat, op: Option<OpName>)
    | Executed(op: Option<OpName>, scanned: Answer)
    | NilIntercepted(k: nat)

  type Querier = Op<QArg, Private, seq<Seen>, Answer>

  // ---------------------------------------------------------------- prepareQuery

  predicate ValidColumn(c: Column) {
    c in COLUMNS
  }

  function FirstInvalid(fields: seq<Column>): Option<Column> {
    if fields == [] then None
    else if !ValidColumn(fields[0]) then Some(fields[0])
    else FirstInvalid(fields[1..])
  }

  /** The state a Traverse method leaves the builder in, and its error. */
  function Traversal(traverse: Traverse, ctx: QCtx, q: QueryState): (QueryState, Option<QError>) {
    (ApplyAll(q, traverse(ctx, q).0), traverse(ctx, q).1)
  }

  /** `prepareQuery` from interceptor `k` on: the state, what was called, the error. */
  function Prepare(inters: seq<Interceptor>, ctx: QCtx, q: QueryState, k: nat): (QueryState, seq<Seen>, Option<QError>)
    requires k <= |inters|
    decreases |inters| - k
  {
    if k == |inters| then
      var bad := FirstInvalid(q.fields);
      (q, [], if bad.Some? then Some(InvalidField(bad.value)) else None)
    else
      match inters[k]
      case NilInterceptor => (q, [], Some(UninitializedInterceptor))
      case Interceptor(None, _) => Prepare(inters, ctx, q, k + 1)
      case Interceptor(Some(traverse), _) =>
        var (q1, err) := Traversal(traverse, ctx, q);
        if err.Some? then (q1, [Traversed(k, ctx.op)], err)
        else
          var (q2, seen, err2) := Prepare(inters, ctx, q1, k + 1);
          (q2, [Traversed(k, ctx.op)] + seen, err2)
  }

  /** The rest of prepareQuery, after the calls `seen`. */
  function Resumed(inters: seq<Interceptor>, ctx: QCtx, q: QueryState, k: nat, seen: seq<Seen>)
    : (QueryState, seq<Seen>, Option<QError>)
    requires k <= |inters|
  {
    var (q1, rest, err) := Prepare(inters, ctx, q, k);
    (q1, seen + rest, err)
  }

  lemma ResumedAfter(inters: seq<Interceptor>, ctx: QCtx, q: QueryState, k: nat, seen: seq<Seen>)
    requires k < |inters|
    ensures Resumed(inters, ctx, q, k, seen) ==
      match inters[k]
      case NilInterceptor => (q, seen, Some(UninitializedInterceptor))
      case Interceptor(None, _) => Resumed(inters, ctx, q, k + 1, seen)
      case Interceptor(Some(traverse), _) =>
        var (q1, err) := Traversal(traverse, ctx, q);
        if err.Some? then (q1, seen + [Traversed(k, ctx.op)], err)
        else Resumed(inters, ctx, q1, k + 1, seen + [Traversed(k, ctx.op)])
  {
    assert seen + [] == seen;
    if inters[k].Interceptor? && inters[k].traverse.Some? {
      var rest := Prepare(inters, ctx, Traversal(inters[k].traverse.value, ctx, q).0, k + 1).1;
      assert seen + ([Traversed(k, ctx.op)] + rest) == (seen + [Traversed(k, ctx.op)]) + rest;
    }
  }

  /** The same as it runs on the builder: one loop over the interceptors, one over the fields. */
  method PrepareQuery(q: MessageQuery, inters: seq<Interceptor>, ctx: QCtx)
    returns (seen: seq<Seen>, err: Option<QError>)
    requires q.Valid()
    modifies q.Footprint()
    ensures q.Valid() && fresh(q.Footprint() - old(q.Footprint()))
    ensures (q.State(), seen, err) == Prepare(inters, ctx, old(q.State()), 0)
  {
    seen, err := [], None;
    ghost var q0 := q.State();
    assert Resumed(inters, ctx, q0, 0, []) == Prepare(inters, ctx, q0, 0) by {
      assert [] + Prepare(inters, ctx, q0, 0).1 == Prepare(inters, ctx, q0, 0).1;
    }
    for k := 0 to |inters|
      invariant q.Valid() && fresh(q.Footprint() - old(q.Footprint())) && err.None?
      invariant Prepare(inters, ctx, q0, 0) == Resumed(inters, ctx, q.State(), k, seen)
    {
      ResumedAfter(inters, ctx, q.State(), k, seen);
      if inters[k].NilInterceptor? {
        return seen, Some(UninitializedInterceptor);
      }
      if inters[k].traverse.Some? {
        var traverse := inters[k].traverse.value;
        var (calls, e) := traverse(ctx, q.State());
        q.DoAll(calls);
        seen := seen + [Traversed(k, ctx.op)];
        if e.Some? {
          return seen, e;
        }
      }
    }
    assert seen + [] == seen;
    var fields := Contents(q.fields);
    for i := 0 to |fields|
      invariant FirstInvalid(fields) == FirstInvalid(fields[i..])
    {
      if !ValidColumn(fields[i]) {
        return seen, Some(InvalidField(fields[i]));
      }
    }
  }

  // ---------------------------------------------------------------- withInterceptors

  predicate HasNil(inters: seq<Interceptor>) {
    exists k :: 0 <= k < |inters| && inters[k].NilInterceptor?
  }

  /** Records that interceptor `k` is called. */
  function Watched(k: nat, f: Querier): Querier {
    (a: QArg, w: Private, p: seq<Seen>) => f(a, w, p + [Intercepted(k, a.ctx.op)])
  }

  /** The interceptors from `k` on around `base`. */
  function Chain(inters: seq<Interceptor>, k: nat, base: Querier): Querier
    requires k <= |inters| && !HasNil(inters)
    decreases |inters| - k
  {
    if k == |inters| then base else Watched(k, Wrap(inters[k].hook, Chain(inters, k + 1, base)))
  }

  /** Calling Intercept on a nil interceptor would stop the program. */
  function WithInterceptors(inters: seq<Interceptor>, base: Querier, a: QArg, w: Private, p: seq<Seen>)
    : (Private, seq<Seen>, Answer)
  {
    if HasNil(inters) then (w, p + [NilIntercepted(LastNil(inters))], Failed(NilCalled))
    else Chain(inters, 0, base)(a, w, p)
  }

  /** The loop meets the last nil entry first. */
  function LastNil(inters: seq<Interceptor>): (k: nat)
    requires HasNil(inters)
    ensures k < |inters| && inters[k].NilInterceptor?
    ensures forall j :: k < j < |inters| ==> !inters[j].NilInterceptor?
  {
    if inters[|inters| - 1].NilInterceptor? then |inters| - 1 else LastNil(inters[..|inters| - 1])
  }

  /** The same as it runs: a backward loop that rebinds the querier. */
  method RunInterceptors(inters: seq<Interceptor>, base: Querier, a: QArg, w: Private, p: seq<Seen>)
    returns (w1: Private, p1: seq<Seen>, r: Answer)
    ensures (w1, p1, r) == WithInterceptors(inters, base, a, w, p)
  {
    var qr := base;
    var i := |inters|;
    while i > 0
      invariant 0 <= i <= |inters|
      invariant forall k :: i <= k < |inters| ==> !inters[k].NilInterceptor?
      invariant !HasNil(inters) ==> qr == Chain(inters, i, base)
    {
      i := i - 1;
      if inters[i].NilInterceptor? {
        assert LastNil(inters) == i;
        return w, p + [NilIntercepted(i)], Failed(NilCalled);
      }
      qr := Watched(i, Wrap(inters[i].hook, qr));
    }
    var (w2, p2, r2) := qr(a, w, p);
    return w2, p2, r2;
  }

  /** The innermost querier: `run` on a message query, an error on any other. */
  function Execute(run: QueryState -> Answer): Querier {
    (a: QArg, w: Private, p: seq<Seen>) =>
      if a.target.OtherQuery? then (w, p, Failed(UnexpectedQueryType))
      else (w, p + [Executed(a.ctx.op, run(a.target.q))], run(a.target.q))
  }

  /** prepareQuery, then the interceptors around `run`. */
  function Run(inters: seq<Interceptor>, run: QueryState -> Answer, ctx: QCtx, q: QueryState, w: Private)
    : (QueryState, seq<Seen>, Answer)
  {
    var (q1, seen, err) := Prepare(inters, ctx, q, 0);
    if err.Some? then (q1, seen, Failed(err.value))
    else
      var (_, seen1, r) := WithInterceptors(inters, Execute(run), QArg(ctx, OnQuery(q1)), w, seen);
      (q1, seen1, r)
  }

  // ---------------------------------------------------------------- the terminal calls

  /** The registered interceptors, their private state, and the database. */
  datatype Client = Client(inters: seq<Interceptor>, w: Private, db: Database)

  function SqlAll(db: Database): QueryState -> Answer {
    q => Got(Nodes(SpecRows(db, SpecOf(q))))
  }

  /** Scanning into a list of IDs: more than one column does not fit. */
  function SqlScanIDs(db: Database): QueryState -> Answer {
    q =>
      var s := SelectorOf(q);
      if |s.columns| != 1 then Failed(TooManyColumns)
      else if s.columns[0] != ID then Failed(NotAnID)
      else var rows := SelectorRows(db, s); Got(IDList(seq(|rows|, i requires 0 <= i < |rows| => rows[i].id)))
  }

  function All(c: Client, ctx: QCtx, q: QueryState): (QueryState, seq<Seen>, Answer) {
    var (q1, seen, r) := Run(c.inters, SqlAll(c.db), SetContextOp(ctx, OpAll), q, c.w);
    (q1, seen, if r.Got? && !r.v.Nodes? then Failed(UnexpectedResult) else r)
  }

  /** What the last execution of the scan wrote into the list. */
  function LastScanned(seen: seq<Seen>): seq<int> {
    if seen == [] then []
    else
      match seen[|seen| - 1]
      case Executed(_, Got(IDList(ids))) => ids
      case _ => LastScanned(seen[..|seen| - 1])
  }

  /** What `scanWithInterceptors` leaves in the list, given what the interceptors return: a list of IDs, or a
      pointer to one, replaces the scanned one; the reflection test stops the program on an untyped nil and on
      values that cannot be nil; any other value is ignored. */
  function ScanResult(seen: seq<Seen>, v: Payload): Answer {
    match v
    case IDList(ids) => Got(IDList(ids))
    case IDPointer(ids) => Got(IDList(ids))
    case Number(_) => Failed(Panicked)
    case NilValue => Failed(Panicked)
    case _ => Got(IDList(LastScanned(seen)))
  }

  /** `Select("id").Scan(&ids)`. */
  function IDs(c: Client, ctx: QCtx, q: QueryState): (QueryState, seq<Seen>, Answer) {
    var ctx1 := SetContextOp(SetContextOp(ctx, OpIDs), OpSelect);
    var (q1, seen, r) := Run(c.inters, SqlScanIDs(c.db), ctx1, q.(fields := q.fields + [ID]), c.w);
    (q1, seen, if r.Failed? then r else ScanResult(seen, r.v))
  }

  datatype Found<T> = One(v: T) | Missing(e: QError)

  function FirstOf<T>(rows: seq<T>): Found<T> {
    if |rows| == 0 then Missing(NotFound) else One(rows[0])
  }

  function OnlyOf<T>(rows: seq<T>): Found<T> {
    if |rows| == 1 then One(rows[0]) else if |rows| == 0 then Missing(NotFound) else Missing(NotSingular)
  }

  function First(c: Client, ctx: QCtx, q: QueryState): (QueryState, seq<Seen>, Found<Message>) {
    var (q1, seen, r) := All(c, SetContextOp(ctx, OpFirst), q.(limit := Some(1)));
    (q1, seen, if r.Failed? then Missing(r.e) else FirstOf(r.v.rows))
  }

  function Only(c: Client, ctx: QCtx, q: QueryState): (QueryState, seq<Seen>, Found<Message>) {
    var (q1, seen, r) := All(c, SetContextOp(ctx, OpOnly), q.(limit := Some(2)));
    (q1, seen, if r.Failed? then Missing(r.e) else OnlyOf(r.v.rows))
  }

  function FirstID(c: Client, ctx: QCtx, q: QueryState): (QueryState, seq<Seen>, Found<int>) {
    var (q1, seen, r) := IDs(c, SetContextOp(ctx, OpFirstID), q.(limit := Some(1)));
    (q1, seen, if r.Failed? then Missing(r.e) else FirstOf(r.v.ids))
  }

  function OnlyID(c: Client, ctx: QCtx, q: QueryState): (QueryState, seq<Seen>, Found<int>) {
    var (q1, seen, r) := IDs(c, SetContextOp(ctx, OpOnlyID), q.(limit := Some(2)));
    (q1, seen, if r.Failed? then Missing(r.e) else OnlyOf(r.v.ids))
  }

  function Exist(c: Client, ctx: QCtx, q: QueryState): (QueryState, seq<Seen>, Found<bool>) {
    var (q1, seen, r) := FirstID(c, SetContextOp(ctx, OpExist), q);
    (q1, seen, if r == Missing(NotFound) then One(false) else if r.Missing? then Missing(r.e) else One(true))
  }
}
