/** What the terminal calls and the interceptor machinery promise. */
module QueryRunLaws {
  import opened Entity
  import opened Codec
  import opened Onion
  import opened Query
  import opened QueryAgreement
  import opened QueryRun

  // ---------------------------------------------------------------- the guard against nil interceptors

  /** prepareQuery stops at a nil interceptor, if nothing stopped it before. */
  lemma {:induction false} PrepareRejectsNil(inters: seq<Interceptor>, ctx: QCtx, q: QueryState, k: nat)
    requires k <= |inters| && exists j :: k <= j < |inters| && inters[j].NilInterceptor?
    ensures Prepare(inters, ctx, q, k).2.Some?
    ensures (forall j :: k <= j < |inters| && inters[j].Interceptor? ==> inters[j].traverse.None?) ==>
      Prepare(inters, ctx, q, k).2 == Some(UninitializedInterceptor)
    decreases |inters| - k
  {
    match inters[k]
    case NilInterceptor =>
    case Interceptor(None, _) => PrepareRejectsNil(inters, ctx, q, k + 1);
    case Interceptor(Some(traverse), _) => PrepareRejectsNil(inters, ctx, Traversal(traverse, ctx, q).0, k + 1);
  }

  /** Only traversers are called. */
  ghost predicate OnlyTraversed(seen: seq<Seen>) {
    forall i :: 0 <= i < |seen| ==> seen[i].Traversed?
  }

  lemma {:induction false} PrepareOnlyTraverses(inters: seq<Interceptor>, ctx: QCtx, q: QueryState, k: nat)
    requires k <= |inters|
    ensures OnlyTraversed(Prepare(inters, ctx, q, k).1)
    decreases |inters| - k
  {
    if k < |inters| {
      match inters[k]
      case NilInterceptor =>
      case Interceptor(None, _) => PrepareOnlyTraverses(inters, ctx, q, k + 1);
      case Interceptor(Some(traverse), _) => PrepareOnlyTraverses(inters, ctx, Traversal(traverse, ctx, q).0, k + 1);
    }
  }

  ghost predicate NoNilCall(seen: seq<Seen>) {
    forall i :: 0 <= i < |seen| ==> !seen[i].NilIntercepted?
  }

  /** Adding calls of non-nil interceptors and of the query keeps a trace free of nil calls. */
  lemma {:induction false} ChainCallsNoNil(
      inters: seq<Interceptor>, k: nat, run: QueryState -> Answer, a: QArg, w: Private, p: seq<Seen>)
    requires k <= |inters| && !HasNil(inters)
    ensures NoNilCall(p) ==> NoNilCall(Chain(inters, k, Execute(run))(a, w, p).1)
    decreases |inters| - k
  {
    if k < |inters| {
      var hook, next := inters[k].hook, Chain(inters, k + 1, Execute(run));
      var rel := (p: seq<Seen>, q: seq<Seen>) => NoNilCall(p) ==> NoNilCall(q);
      forall a', w', p' ensures rel(p', next(a', w', p').1) {
        ChainCallsNoNil(inters, k + 1, run, a', w', p');
      }
      DriveKeeps(hook, a, [], hook.limit(a, w), next, w, p + [Intercepted(k, a.ctx.op)], _ => true, rel);
    }
  }

  /** MAIN: no run calls Intercept on a nil interceptor. If there is one, at any position, the run ends in an
      error (the one that says so, unless a traverser failed first), and neither an interceptor nor the query
      is executed. */
  lemma NilInterceptorIsNeverCalled(
      inters: seq<Interceptor>, run: QueryState -> Answer, ctx: QCtx, q: QueryState, w: Private)
    ensures NoNilCall(Run(inters, run, ctx, q, w).1)
    ensures HasNil(inters) ==> Run(inters, run, ctx, q, w).2.Failed? && OnlyTraversed(Run(inters, run, ctx, q, w).1)
    ensures HasNil(inters) && (forall j :: 0 <= j < |inters| && inters[j].Interceptor? ==> inters[j].traverse.None?) ==>
      Run(inters, run, ctx, q, w).2 == Failed(UninitializedInterceptor)
  {
    PrepareOnlyTraverses(inters, ctx, q, 0);
    if HasNil(inters) {
      PrepareRejectsNil(inters, ctx, q, 0);
    } else {
      var (q1, seen, err) := Prepare(inters, ctx, q, 0);
      ChainCallsNoNil(inters, 0, run, QArg(ctx, OnQuery(q1)), w, seen);
    }
  }

  // ---------------------------------------------------------------- the operation name

  /** Every context seen is in `f`, and the traversers see exactly `ctx`. */
  ghost predicate Sees(f: QCtx -> bool, ctx: QCtx, seen: seq<Seen>) {
    forall i :: 0 <= i < |seen| ==>
      match seen[i]
      case Traversed(_, op) => QCtx(op) == ctx
      case Intercepted(_, op) => f(QCtx(op))
      case Executed(op, _) => f(QCtx(op))
      case NilIntercepted(_) => true
  }

  /** The interceptors forward only contexts in `f` when called with one in `f`. */
  ghost predicate ContextsStay(inters: seq<Interceptor>, f: QCtx -> bool) {
    forall k, a: QArg, w, past :: 0 <= k < |inters| && inters[k].Interceptor? && f(a.ctx) ==>
      f(inters[k].hook.before(a, w, past).1.ctx)
  }

  lemma {:induction false} PrepareSees(inters: seq<Interceptor>, f: QCtx -> bool, ctx: QCtx, q: QueryState, k: nat)
    requires k <= |inters|
    ensures Sees(f, ctx, Prepare(inters, ctx, q, k).1)
    decreases |inters| - k
  {
    if k < |inters| {
      match inters[k]
      case NilInterceptor =>
      case Interceptor(None, _) => PrepareSees(inters, f, ctx, q, k + 1);
      case Interceptor(Some(traverse), _) => PrepareSees(inters, f, ctx, Traversal(traverse, ctx, q).0, k + 1);
    }
  }

  lemma {:induction false} ChainSees(
      inters: seq<Interceptor>, k: nat, run: QueryState -> Answer, f: QCtx -> bool, ctx: QCtx, a: QArg, w: Private,
      p: seq<Seen>)
    requires k <= |inters| && !HasNil(inters) && ContextsStay(inters, f) && f(a.ctx)
    ensures Sees(f, ctx, p) ==> Sees(f, ctx, Chain(inters, k, Execute(run))(a, w, p).1)
    decreases |inters| - k
  {
    assert QCtx(a.ctx.op) == a.ctx;
    if k < |inters| {
      var hook, next := inters[k].hook, Chain(inters, k + 1, Execute(run));
      var rel := (p: seq<Seen>, q: seq<Seen>) => Sees(f, ctx, p) ==> Sees(f, ctx, q);
      var ok := (b: QArg) => f(b.ctx);
      assert inters[k].Interceptor?;
      assert forall w', past :: f(hook.before(a, w', past).1.ctx);
      forall a', w', p' | ok(a') ensures rel(p', next(a', w', p').1) {
        ChainSees(inters, k + 1, run, f, ctx, a', w', p');
      }
      DriveKeeps(hook, a, [], hook.limit(a, w), next, w, p + [Intercepted(k, a.ctx.op)], ok, rel);
    }
  }

  lemma RunSees(
      inters: seq<Interceptor>, run: QueryState -> Answer, f: QCtx -> bool, ctx: QCtx, q: QueryState, w: Private)
    requires ContextsStay(inters, f) && f(ctx)
    ensures Sees(f, ctx, Run(inters, run, ctx, q, w).1)
  {
    PrepareSees(inters, f, ctx, q, 0);
    var (q1, seen, err) := Prepare(inters, ctx, q, 0);
    if err.None? {
      if HasNil(inters) {
        PrepareRejectsNil(inters, ctx, q, 0);
      } else {
        ChainSees(inters, 0, run, f, ctx, QArg(ctx, OnQuery(q1)), w, seen);
      }
    }
  }

  /** The context that names the operation: the caller's own name for it, or else `op`. */
  function Named(ctx: QCtx, op: OpName): QCtx {
    match ctx.op
    case Some(own) => ctx
    case None => QCtx(Some(op))
  }

  /** The terminals inside do not name it again. */
  lemma NamedOnce(ctx: QCtx, op: OpName)
    ensures SetContextOp(ctx, op) == Named(ctx, op)
    ensures forall inner :: SetContextOp(Named(ctx, op), inner) == Named(ctx, op)
  {
  }

  datatype Terminal = TAll | TIDs | TFirst | TOnly | TFirstID | TOnlyID | TExist

  /** Its operation name. */
  function NameOf(t: Terminal): OpName {
    match t
    case TAll => OpAll
    case TIDs => OpIDs
    case TFirst => OpFirst
    case TOnly => OpOnly
    case TFirstID => OpFirstID
    case TOnlyID => OpOnlyID
    case TExist => OpExist
  }

  /** What its run calls. */
  function SeenBy(t: Terminal, c: Client, ctx: QCtx, q: QueryState): seq<Seen> {
    match t
    case TAll => All(c, ctx, q).1
    case TIDs => IDs(c, ctx, q).1
    case TFirst => First(c, ctx, q).1
    case TOnly => Only(c, ctx, q).1
    case TFirstID => FirstID(c, ctx, q).1
    case TOnlyID => OnlyID(c, ctx, q).1
    case TExist => Exist(c, ctx, q).1
  }

  /** MAIN: whatever the interceptors do to their contexts, every traverser sees the name of the outermost terminal
      call, however many terminals that is made of, or the name the caller's context came with; and the
      interceptors and the query see only what the interceptors make of that context: any set of contexts that
      holds it and is closed under them holds all that is seen. */
  lemma OutermostNameIsSeen(t: Terminal, c: Client, ctx: QCtx, q: QueryState, f: QCtx -> bool)
    requires ContextsStay(c.inters, f) && f(Named(ctx, NameOf(t)))
    ensures Sees(f, Named(ctx, NameOf(t)), SeenBy(t, c, ctx, q))
  {
    var ctx1 := Named(ctx, NameOf(t));
    NamedOnce(ctx, NameOf(t));
    var byID := q.(fields := q.fields + [ID]);
    match t
    case TAll => RunSees(c.inters, SqlAll(c.db), f, ctx1, q, c.w);
    case TIDs => RunSees(c.inters, SqlScanIDs(c.db), f, ctx1, byID, c.w);
    case TFirst => RunSees(c.inters, SqlAll(c.db), f, ctx1, q.(limit := Some(1)), c.w);
    case TOnly => RunSees(c.inters, SqlAll(c.db), f, ctx1, q.(limit := Some(2)), c.w);
    case TFirstID => RunSees(c.inters, SqlScanIDs(c.db), f, ctx1, byID.(limit := Some(1)), c.w);
    case TOnlyID => RunSees(c.inters, SqlScanIDs(c.db), f, ctx1, byID.(limit := Some(2)), c.w);
    case TExist => RunSees(c.inters, SqlScanIDs(c.db), f, ctx1, byID.(limit := Some(1)), c.w);
  }

  // ---------------------------------------------------------------- interceptors that stand aside

  /** The interceptors forward what they are given, once, and return what comes back. */
  ghost predicate Forwarding(inters: seq<Interceptor>) {
    forall k :: 0 <= k < |inters| && inters[k].Interceptor? ==> ForwardingHook(inters[k].hook)
  }

  ghost predicate ForwardingHook(hook: Hook<QArg, Private, Answer>) {
    && CallsExactly(hook, 1)
    && (forall a, w :: hook.before(a, w, []).1 == a)
    && (forall a, w, r :: hook.finish(a, w, [r]).1 == r)
  }

  /** What a Traverse method does with the builder's limit replaced. */
  ghost predicate IgnoresLimit(traverse: Traverse) {
    forall ctx, q: QueryState, l :: Traversal(traverse, ctx, q.(limit := l)) ==
      (Traversal(traverse, ctx, q).0.(limit := l), Traversal(traverse, ctx, q).1)
  }

  ghost predicate IgnoresFields(traverse: Traverse) {
    forall ctx, q: QueryState, fs :: Traversal(traverse, ctx, q.(fields := fs)) ==
      (Traversal(traverse, ctx, q).0.(fields := fs), Traversal(traverse, ctx, q).1)
  }

  /** The traversers neither look at the limit nor change it (they may do anything else to the builder, or fail). */
  ghost predicate LimitIgnored(inters: seq<Interceptor>) {
    forall k :: 0 <= k < |inters| && inters[k].Interceptor? && inters[k].traverse.Some? ==>
      IgnoresLimit(inters[k].traverse.value)
  }

  ghost predicate FieldsIgnored(inters: seq<Interceptor>) {
    forall k :: 0 <= k < |inters| && inters[k].Interceptor? && inters[k].traverse.Some? ==>
      IgnoresFields(inters[k].traverse.value)
  }

  lemma {:induction false} PrepareIgnoresLimit(
      inters: seq<Interceptor>, ctx: QCtx, q: QueryState, k: nat, l: Option<int>)
    requires k <= |inters| && LimitIgnored(inters)
    ensures var (q1, seen, err) := Prepare(inters, ctx, q, k);
      Prepare(inters, ctx, q.(limit := l), k) == (q1.(limit := l), seen, err)
    decreases |inters| - k
  {
    if k < |inters| {
      match inters[k]
      case NilInterceptor =>
      case Interceptor(None, _) => PrepareIgnoresLimit(inters, ctx, q, k + 1, l);
      case Interceptor(Some(traverse), _) =>
        assert IgnoresLimit(traverse);
        assert Traversal(traverse, ctx, q.(limit := l)).0 == Traversal(traverse, ctx, q).0.(limit := l);
        PrepareIgnoresLimit(inters, ctx, Traversal(traverse, ctx, q).0, k + 1, l);
    }
  }

  /** The builder's state as the traversers leave it. */
  function Prepared(inters: seq<Interceptor>, ctx: QCtx, q: QueryState): QueryState {
    Prepare(inters, ctx, q, 0).0
  }

  /** No interceptor is nil, and no traverser fails. */
  ghost predicate Willing(inters: seq<Interceptor>) {
    forall k :: 0 <= k < |inters| ==>
      && inters[k].Interceptor?
      && (inters[k].traverse.Some? ==> forall ctx, q :: Traversal(inters[k].traverse.value, ctx, q).1.None?)
  }

  lemma {:induction false} PrepareIgnoresFields(
      inters: seq<Interceptor>, ctx: QCtx, q: QueryState, k: nat, fs: seq<Column>)
    requires k <= |inters| && FieldsIgnored(inters) && Willing(inters)
    ensures Prepare(inters, ctx, q.(fields := fs), k).0 == Prepare(inters, ctx, q, k).0.(fields := fs)
    ensures Prepare(inters, ctx, q.(fields := fs), k).2 ==
      match FirstInvalid(fs)
      case Some(bad) => Some(InvalidField(bad))
      case None => None
    decreases |inters| - k
  {
    if k < |inters| {
      match inters[k]
      case Interceptor(None, _) => PrepareIgnoresFields(inters, ctx, q, k + 1, fs);
      case Interceptor(Some(traverse), _) =>
        assert IgnoresFields(traverse);
        assert Traversal(traverse, ctx, q.(fields := fs)).0 == Traversal(traverse, ctx, q).0.(fields := fs);
        assert Traversal(traverse, ctx, q).1.None? && Traversal(traverse, ctx, q.(fields := fs)).1.None?;
        PrepareIgnoresFields(inters, ctx, Traversal(traverse, ctx, q).0, k + 1, fs);
    }
  }

  /** Forwarding interceptors return what the query returns. */
  lemma {:induction false} ChainForwards(
      inters: seq<Interceptor>, k: nat, run: QueryState -> Answer, ctx: QCtx, q: QueryState, w: Private, p: seq<Seen>)
    requires k <= |inters| && !HasNil(inters) && Forwarding(inters)
    ensures Chain(inters, k, Execute(run))(QArg(ctx, OnQuery(q)), w, p).2 == run(q)
    decreases |inters| - k
  {
    if k == |inters| {
      assert Chain(inters, k, Execute(run)) == Execute(run);
    } else {
      assert inters[k].Interceptor? && ForwardingHook(inters[k].hook);
      var hook, next, a := inters[k].hook, Chain(inters, k + 1, Execute(run)), QArg(ctx, OnQuery(q));
      var p1 := p + [Intercepted(k, ctx.op)];
      assert Chain(inters, k, Execute(run))(a, w, p) == Wrap(hook, next)(a, w, p1);
      DriveOnce(hook, next, a, w, p1);
      var (w1, a1) := hook.before(a, w, []);
      var (w2, p2, r) := next(a1, w1, p1);
      ChainForwards(inters, k + 1, run, ctx, q, w1, p1);
      assert a1 == a && r == run(q) && hook.finish(a, w2, [r]).1 == r;
    }
  }

  lemma RunForwards(inters: seq<Interceptor>, run: QueryState -> Answer, ctx: QCtx, q: QueryState, w: Private)
    requires Forwarding(inters)
    ensures Run(inters, run, ctx, q, w).0 == Prepared(inters, ctx, q)
    ensures Run(inters, run, ctx, q, w).2 ==
      match Prepare(inters, ctx, q, 0).2
      case Some(err) => Failed(err)
      case None => run(Prepared(inters, ctx, q))
  {
    var (q1, seen, err) := Prepare(inters, ctx, q, 0);
    if err.None? {
      if HasNil(inters) {
        PrepareRejectsNil(inters, ctx, q, 0);
      } else {
        ChainForwards(inters, 0, run, ctx, q1, w, seen);
      }
    }
  }

  // ---------------------------------------------------------------- truncated terminals

  /** Limiting cuts the unlimited rows. */
  lemma LimitedRows(db: Database, q: QueryState, n: int)
    requires n > 0
    ensures SpecRows(db, SpecOf(q.(limit := Some(n)))) == Take(SpecRows(db, SpecOf(q.(limit := None))), n)
  {
  }

  /** `found` is the first of the rows: none means not found. */
  predicate IsFirst<T(==)>(found: Found<T>, rows: seq<T>) {
    && (|rows| == 0 ==> found == Missing(NotFound))
    && (|rows| > 0 ==> found == One(rows[0]))
  }

  /** `found` is the only row: none means not found, several mean not singular. */
  predicate IsOnly<T(==)>(found: Found<T>, rows: seq<T>) {
    && (|rows| == 0 ==> found == Missing(NotFound))
    && (|rows| == 1 ==> found == One(rows[0]))
    && (|rows| > 1 ==> found == Missing(NotSingular))
  }

  /** The answer of All at limit `n`, beside that without a limit. */
  lemma LimitedAll(c: Client, ctx: QCtx, q: QueryState, n: int)
    requires Forwarding(c.inters) && LimitIgnored(c.inters) && n > 0
    ensures var all, cut := All(c, ctx, q.(limit := None)).2, All(c, ctx, q.(limit := Some(n))).2;
      match all
      case Failed(e) => cut == all
      case Got(v) => v.Nodes? && cut == Got(Nodes(Take(v.rows, n)))
  {
    var ctx1 := SetContextOp(ctx, OpAll);
    RunForwards(c.inters, SqlAll(c.db), ctx1, q.(limit := None), c.w);
    RunForwards(c.inters, SqlAll(c.db), ctx1, q.(limit := Some(n)), c.w);
    PrepareIgnoresLimit(c.inters, ctx1, q, 0, None);
    PrepareIgnoresLimit(c.inters, ctx1, q, 0, Some(n));
    LimitedRows(c.db, Prepared(c.inters, ctx1, q), n);
  }

  /** MAIN: First and Only, which overwrite the limit with 1 and 2, classify every builder exactly as All without a
      limit does under the same operation name: none, the first, the only one, more than one, or the error; for
      any traversers that neither look at the limit nor change it, and forwarding interceptors. */
  lemma FirstAndOnlyAreExact(c: Client, ctx: QCtx, q: QueryState)
    requires Forwarding(c.inters) && LimitIgnored(c.inters)
    ensures match All(c, Named(ctx, OpFirst), q.(limit := None)).2
            case Failed(e) => First(c, ctx, q).2 == Missing(e)
            case Got(v) => v.Nodes? && IsFirst(First(c, ctx, q).2, v.rows)
    ensures match All(c, Named(ctx, OpOnly), q.(limit := None)).2
            case Failed(e) => Only(c, ctx, q).2 == Missing(e)
            case Got(v) => v.Nodes? && IsOnly(Only(c, ctx, q).2, v.rows)
  {
    LimitedAll(c, SetContextOp(ctx, OpFirst), q, 1);
    LimitedAll(c, SetContextOp(ctx, OpOnly), q, 2);
  }

  function IDsOf(rows: seq<Message>): seq<int> {
    seq(|rows|, i requires 0 <= i < |rows| => rows[i].id)
  }

  /** Interceptors that forward, with traversers that ignore limit and fields and do not fail, such as those that
      add predicates. */
  ghost predicate Aside(inters: seq<Interceptor>) {
    Forwarding(inters) && LimitIgnored(inters) && FieldsIgnored(inters) && Willing(inters)
  }

  /** The unlimited rows of the builder as the traversers leave it. */
  function Matched(c: Client, ctx: QCtx, q: QueryState): seq<Message> {
    SpecRows(c.db, SpecOf(Prepared(c.inters, ctx, q.(limit := None, fields := []))))
  }

  lemma PreparedAside(inters: seq<Interceptor>, ctx: QCtx, q: QueryState, l: Option<int>, fs: seq<Column>)
    requires Aside(inters)
    ensures Prepared(inters, ctx, q.(limit := l, fields := fs)) == Prepared(inters, ctx, q).(limit := l, fields := fs)
    ensures Prepare(inters, ctx, q.(limit := l, fields := fs), 0).2 ==
      match FirstInvalid(fs)
      case Some(bad) => Some(InvalidField(bad))
      case None => None
  {
    PrepareIgnoresLimit(inters, ctx, q, 0, l);
    PrepareIgnoresFields(inters, ctx, q.(limit := l), 0, fs);
  }

  lemma IDIsValid()
    ensures FirstInvalid([ID]).None? && FirstInvalid([ID] + [ID]).None?
  {
    assert COLUMNS[0] == ID;
    assert [ID][1..] == [] && ([ID] + [ID])[1..] == [ID];
  }

  /** The rows of an ID selection at limit `n`. */
  lemma IDRows(db: Database, q: QueryState, n: int)
    requires Sound(db) && n > 0
    ensures SelectorRows(db, SelectorOf(q.(limit := Some(n), fields := [ID]))) ==
      Take(SpecRows(db, SpecOf(q.(limit := None, fields := []))), n)
  {
    var q1, q2 := q.(limit := Some(n), fields := [ID]), q.(limit := None, fields := []);
    SelectorRowsAre(db, q1);
    SpecRowsAre(db, q2);
    assert Rows(db, q1) == Rows(db, q2);
  }

  /** The ID scan of a builder without selected fields, at limit `n`. */
  lemma IDScan(c: Client, ctx: QCtx, q: QueryState, n: int)
    requires Sound(c.db) && Aside(c.inters) && q.fields == [] && n > 0 && ctx.op.Some?
    ensures IDs(c, ctx, q.(limit := Some(n))).2 == Got(IDList(IDsOf(Take(Matched(c, ctx, q), n))))
    ensures IDs(c, ctx, q.(limit := Some(n))).0 == Prepared(c.inters, ctx, q).(limit := Some(n), fields := [ID])
  {
    assert [] + [ID] == [ID];
    var q1 := q.(limit := Some(n), fields := [ID]);
    RunForwards(c.inters, SqlScanIDs(c.db), ctx, q1, c.w);
    PreparedAside(c.inters, ctx, q, Some(n), [ID]);
    PreparedAside(c.inters, ctx, q, None, []);
    IDIsValid();
    IDRows(c.db, Prepared(c.inters, ctx, q), n);
  }

  /** The ID scan of a builder with selected fields: two columns do not fit into a list of IDs. */
  lemma IDScanFails(c: Client, ctx: QCtx, q: QueryState)
    requires Aside(c.inters) && q.fields != [] && ctx.op.Some?
    ensures IDs(c, ctx, q).2.Failed? && IDs(c, ctx, q).2 != Failed(NotFound) && IDs(c, ctx, q).2 != Failed(NotSingular)
    ensures q.fields == [ID] ==> IDs(c, ctx, q).2 == Failed(TooManyColumns)
  {
    var q1 := q.(limit := q.limit, fields := q.fields + [ID]);
    RunForwards(c.inters, SqlScanIDs(c.db), ctx, q1, c.w);
    PreparedAside(c.inters, ctx, q, q.limit, q.fields + [ID]);
    IDIsValid();
  }

  /** What the ID terminals should say about the matching rows. */
  ghost predicate IDTerminalsExact(c: Client, ctx: QCtx, q: QueryState) {
    && IsFirst(FirstID(c, ctx, q).2, IDsOf(Matched(c, Named(ctx, OpFirstID), q)))
    && IsOnly(OnlyID(c, ctx, q).2, IDsOf(Matched(c, Named(ctx, OpOnlyID), q)))
    && Exist(c, ctx, q).2 == One(Matched(c, Named(ctx, OpExist), q) != [])
  }

  /** MAIN: FirstID, OnlyID and Exist, compiled by the other compiler, are exact if and only if the builder has no
      selected fields. */
  lemma IDTerminalsAreExact(c: Client, ctx: QCtx, q: QueryState)
    requires Sound(c.db) && Aside(c.inters)
    ensures IDTerminalsExact(c, ctx, q) <==> q.fields == []
  {
    if q.fields == [] {
      IDScan(c, SetContextOp(ctx, OpFirstID), q, 1);
      IDScan(c, SetContextOp(ctx, OpOnlyID), q, 2);
      IDScan(c, SetContextOp(ctx, OpExist), q, 1);
    } else {
      IDScanFails(c, SetContextOp(ctx, OpExist), q.(limit := Some(1)));
    }
  }

  // ---------------------------------------------------------------- terminals leave their marks

  /** The builder after an ID terminal. */
  function AfterIDTerminal(t: Terminal, c: Client, ctx: QCtx, q: QueryState): QueryState {
    match t
    case TFirstID => FirstID(c, ctx, q).0
    case TOnlyID => OnlyID(c, ctx, q).0
    case TExist => Exist(c, ctx, q).0
    case _ => q
  }

  /** The limit it sets. */
  function LimitOf(t: Terminal): int {
    if t.TOnlyID? then 2 else 1
  }

  /** The error of an ID terminal, if any. */
  function ErrorOf(t: Terminal, c: Client, ctx: QCtx, q: QueryState): Option<QError> {
    match t
    case TFirstID => if FirstID(c, ctx, q).2.Missing? then Some(FirstID(c, ctx, q).2.e) else None
    case TOnlyID => if OnlyID(c, ctx, q).2.Missing? then Some(OnlyID(c, ctx, q).2.e) else None
    case TExist => if Exist(c, ctx, q).2.Missing? then Some(Exist(c, ctx, q).2.e) else None
    case _ => None
  }

  predicate IsIDTerminal(t: Terminal) {
    t.TFirstID? || t.TOnlyID? || t.TExist?
  }

  /** MAIN: the terminals leave their marks on the builder. After FirstID, OnlyID or Exist the limit of one or two and
      the selected ID stay (beside what the traversers did), so a second such terminal on the same builder
      fails, and All returns at most that many rows. */
  lemma TerminalsStick(t: Terminal, t': Terminal, c: Client, ctx: QCtx, ctx': QCtx, q: QueryState)
    requires Sound(c.db) && Aside(c.inters) && q.fields == [] && IsIDTerminal(t) && IsIDTerminal(t')
    ensures var q1 := AfterIDTerminal(t, c, ctx, q);
      && q1 == Prepared(c.inters, SetContextOp(ctx, NameOf(t)), q).(limit := Some(LimitOf(t)), fields := [ID])
      && ErrorOf(t', c, ctx', q1) == Some(TooManyColumns)
      && All(c, ctx', q1).2 == Got(Nodes(Take(Matched(c, SetContextOp(ctx', OpAll), q1), LimitOf(t))))
  {
    var q1 := AfterIDTerminal(t, c, ctx, q);
    MarkLeft(t, c, ctx, q);
    SecondFails(t', c, ctx', q1);
    AllOfMarked(c, SetContextOp(ctx', OpAll), q1, LimitOf(t));
  }

  lemma MarkLeft(t: Terminal, c: Client, ctx: QCtx, q: QueryState)
    requires Sound(c.db) && Aside(c.inters) && q.fields == [] && IsIDTerminal(t)
    ensures AfterIDTerminal(t, c, ctx, q) ==
      Prepared(c.inters, SetContextOp(ctx, NameOf(t)), q).(limit := Some(LimitOf(t)), fields := [ID])
  {
    IDScan(c, SetContextOp(ctx, NameOf(t)), q, LimitOf(t));
  }

  lemma SecondFails(t: Terminal, c: Client, ctx: QCtx, q: QueryState)
    requires Aside(c.inters) && q.fields == [ID] && IsIDTerminal(t)
    ensures ErrorOf(t, c, ctx, q) == Some(TooManyColumns)
  {
    IDScanFails(c, SetContextOp(ctx, NameOf(t)), q.(limit := Some(LimitOf(t))));
  }

  lemma AllOfMarked(c: Client, ctx: QCtx, q: QueryState, n: int)
    requires Sound(c.db) && Aside(c.inters) && q.limit == Some(n) && q.fields == [ID] && n > 0 && ctx.op.Some?
    ensures All(c, ctx, q).2 == Got(Nodes(Take(Matched(c, ctx, q), n)))
  {
    var q0 := Prepared(c.inters, ctx, q);
    RunForwards(c.inters, SqlAll(c.db), ctx, q.(limit := Some(n), fields := [ID]), c.w);
    PreparedAside(c.inters, ctx, q, Some(n), [ID]);
    PreparedAside(c.inters, ctx, q, None, []);
    IDIsValid();
    SpecRowsAre(c.db, q0.(limit := Some(n), fields := [ID]));
    SpecRowsAre(c.db, q0.(limit := None, fields := []));
    assert Rows(c.db, q0.(limit := Some(n), fields := [ID])) == Rows(c.db, q0.(limit := None, fields := []));
  }
}
