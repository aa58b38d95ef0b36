/** What the terminal calls return, over the rows of the table, and what they call. */
module QueryResults {
  import opened Entity
  import opened Codec
  import opened Onion
  import opened Query
  import opened QueryBuilder
  import opened QueryAgreement
  import opened QueryRun
  import opened QueryRunLaws

  // ---------------------------------------------------------------- traversers that add predicates

  /** Called with `ctx`, the interceptors' traversers add the predicates `adds`, one list each. */
  ghost predicate Adds(inters: seq<Interceptor>, ctx: QCtx, adds: seq<seq<Pred>>) {
    && |adds| == |inters|
    && forall k :: 0 <= k < |inters| ==> inters[k].Interceptor? && AddsHere(inters[k].traverse, ctx, adds[k])
  }

  ghost predicate AddsHere(traverse: Option<Traverse>, ctx: QCtx, ps: seq<Pred>) {
    match traverse
    case None => ps == []
    case Some(t) => forall q :: OneWhere(t(ctx, q), ps)
  }

  ghost predicate OneWhere(done: (seq<Call>, Option<QError>), ps: seq<Pred>) {
    done.1.None? && |done.0| == 1 && done.0[0].Where? && done.0[0].ps == ps
  }

  /** All the added predicates from interceptor `k` on. */
  function AddedFrom(adds: seq<seq<Pred>>, k: nat): seq<Pred>
    requires k <= |adds|
    decreases |adds| - k
  {
    if k == |adds| then [] else adds[k] + AddedFrom(adds, k + 1)
  }

  /** The calls of the traversers among interceptors `k..`, in order. */
  function TraversersFrom(inters: seq<Interceptor>, k: nat, op: Option<OpName>): seq<Seen>
    requires k <= |inters|
    decreases |inters| - k
  {
    if k == |inters| then []
    else
      var rest := TraversersFrom(inters, k + 1, op);
      if inters[k].Interceptor? && inters[k].traverse.Some? then [Traversed(k, op)] + rest else rest
  }

  lemma {:induction false} PrepareAdds(inters: seq<Interceptor>, ctx: QCtx, adds: seq<seq<Pred>>, q: QueryState, k: nat)
    requires Adds(inters, ctx, adds) && k <= |inters|
    ensures Prepare(inters, ctx, q, k).0 == q.(predicates := q.predicates + AddedFrom(adds, k))
    ensures Prepare(inters, ctx, q, k).2 ==
      match FirstInvalid(q.fields)
      case Some(bad) => Some(InvalidField(bad))
      case None => None
    ensures Prepare(inters, ctx, q, k).1 == TraversersFrom(inters, k, ctx.op)
    decreases |inters| - k
  {
    if k == |inters| {
      assert q.predicates + [] == q.predicates;
    } else {
      assert inters[k].Interceptor? && AddsHere(inters[k].traverse, ctx, adds[k]);
      match inters[k].traverse
      case None =>
        PrepareAdds(inters, ctx, adds, q, k + 1);
        assert [] + AddedFrom(adds, k + 1) == AddedFrom(adds, k + 1);
      case Some(t) =>
        assert OneWhere(t(ctx, q), adds[k]);
        var q1 := q.(predicates := q.predicates + adds[k]);
        assert t(ctx, q).0 == [Where(adds[k], t(ctx, q).0[0].spare)];
        assert t(ctx, q).0[1..] == [] && ApplyAll(q1, []) == q1;
        assert Apply(q, t(ctx, q).0[0]) == q1;
        assert ApplyAll(q, t(ctx, q).0) == ApplyAll(q1, t(ctx, q).0[1..]);
        assert Traversal(t, ctx, q) == (q1, None);
        PrepareAdds(inters, ctx, adds, q1, k + 1);
        assert (q.predicates + adds[k]) + AddedFrom(adds, k + 1) == q.predicates + (adds[k] + AddedFrom(adds, k + 1));
    }
  }

  /** The message satisfies the builder's own predicates and every added one. */
  predicate AcceptedBy(q: QueryState, adds: seq<seq<Pred>>, m: Message) {
    && (forall i :: 0 <= i < |q.predicates| ==> q.predicates[i](m))
    && (forall k, i :: 0 <= k < |adds| && 0 <= i < |adds[k]| ==> adds[k][i](m))
  }

  /** The rows that satisfy `ok`, in order. */
  function Keep(ok: Message -> bool, rows: seq<Message>): seq<Message> {
    if rows == [] then [] else (if ok(rows[0]) then [rows[0]] else []) + Keep(ok, rows[1..])
  }

  lemma {:induction false} KeepAppend(ok: Message -> bool, rows: seq<Message>, more: seq<Message>)
    ensures Keep(ok, rows + more) == Keep(ok, rows) + Keep(ok, more)
  {
    if rows == [] {
      assert rows + more == more;
    } else {
      assert (rows + more)[0] == rows[0] && (rows + more)[1..] == rows[1..] + more;
      KeepAppend(ok, rows[1..], more);
      var head := if ok(rows[0]) then [rows[0]] else [];
      assert head + (Keep(ok, rows[1..]) + Keep(ok, more)) == (head + Keep(ok, rows[1..])) + Keep(ok, more);
    }
  }

  lemma {:induction false} KeepIn(ok: Message -> bool, rows: seq<Message>, m: Message)
    ensures m in Keep(ok, rows) <==> m in rows && ok(m)
  {
    if rows != [] {
      KeepIn(ok, rows[1..], m);
      assert rows == [rows[0]] + rows[1..];
    }
  }

  lemma {:induction false} AddedMean(adds: seq<seq<Pred>>, k: nat, m: Message)
    requires k <= |adds|
    ensures Accepts(AddedFrom(adds, k), m) <==> forall j, i :: k <= j < |adds| && 0 <= i < |adds[j]| ==> adds[j][i](m)
    decreases |adds| - k
  {
    if k < |adds| {
      AddedMean(adds, k + 1, m);
      AcceptsBoth(adds[k], AddedFrom(adds, k + 1), m);
    }
  }

  lemma AcceptsBoth(ps: seq<Pred>, qs: seq<Pred>, m: Message)
    ensures Accepts(ps + qs, m) <==> Accepts(ps, m) && Accepts(qs, m)
  {
    if Accepts(ps + qs, m) {
      assert forall i :: 0 <= i < |ps| ==> (ps + qs)[i] == ps[i];
      assert forall i :: 0 <= i < |qs| ==> (ps + qs)[|ps| + i] == qs[i];
    }
  }

  lemma {:induction false} FilterKeeps(q: QueryState, adds: seq<seq<Pred>>, rows: seq<Message>)
    ensures Filter(q.predicates + AddedFrom(adds, 0), rows) == Keep(m => AcceptedBy(q, adds, m), rows)
  {
    if rows != [] {
      var before, last := rows[..|rows| - 1], rows[|rows| - 1];
      var ok := m => AcceptedBy(q, adds, m);
      FilterKeeps(q, adds, before);
      AcceptsBoth(q.predicates, AddedFrom(adds, 0), last);
      AddedMean(adds, 0, last);
      assert rows == before + [last] && [last][1..] == [];
      KeepAppend(ok, before, [last]);
      assert Keep(ok, [last]) == if ok(last) then [last] else [];
    }
  }

  /** The rows a query should see: those of the table that satisfy its own and all the added predicates, in its
      order, from its offset on. */
  function Visible(db: Database, q: QueryState, adds: seq<seq<Pred>>): seq<Message> {
    var rows := db.sort(q.order, Keep(m => AcceptedBy(q, adds, m), db.table));
    if q.offset.GetOr(0) <= 0 then rows else if q.offset.value >= |rows| then [] else rows[q.offset.value..]
  }

  /** Without an offset these are exactly the accepted rows of the table. */
  lemma VisibleRows(db: Database, q: QueryState, adds: seq<seq<Pred>>, m: Message)
    requires Sound(db) && q.offset.None?
    ensures m in Visible(db, q, adds) <==> m in db.table && AcceptedBy(q, adds, m)
  {
    var kept := Keep(m => AcceptedBy(q, adds, m), db.table);
    KeepIn(m => AcceptedBy(q, adds, m), db.table, m);
    assert multiset(db.sort(q.order, kept)) == multiset(kept);
    assert m in Visible(db, q, adds) <==> m in multiset(db.sort(q.order, kept));
    assert m in kept <==> m in multiset(kept);
  }

  /** The state in which the query runs. */
  function Filtered(q: QueryState, adds: seq<seq<Pred>>): QueryState {
    q.(predicates := q.predicates + AddedFrom(adds, 0))
  }

  lemma FilteredRows(db: Database, q: QueryState, adds: seq<seq<Pred>>, l: Option<int>)
    requires Sound(db) && (l.Some? ==> l.value > 0)
    ensures SpecRows(db, SpecOf(Filtered(q, adds).(limit := l))) ==
      if l.None? then Visible(db, q, adds) else Take(Visible(db, q, adds), l.value)
  {
    FilterKeeps(q, adds, db.table);
    SpecRowsAre(db, Filtered(q, adds).(limit := l));
  }

  lemma FilteredIDs(db: Database, q: QueryState, adds: seq<seq<Pred>>, n: int)
    requires Sound(db) && n > 0
    ensures SelectorRows(db, SelectorOf(Filtered(q, adds).(limit := Some(n), fields := [ID]))) ==
      Take(Visible(db, q, adds), n)
  {
    FilterKeeps(q, adds, db.table);
    SelectorRowsAre(db, Filtered(q, adds).(limit := Some(n), fields := [ID]));
  }

  lemma ValidFields(fields: seq<Column>)
    requires forall i :: 0 <= i < |fields| ==> !fields[i].Extra?
    ensures FirstInvalid(fields).None?
  {
    InvalidFieldIsFirst(fields);
  }

  /** All under forwarding interceptors. */
  lemma AllForwards(c: Client, ctx: QCtx, q: QueryState)
    requires Forwarding(c.inters) && ctx.op.Some?
    ensures All(c, ctx, q).0 == Prepare(c.inters, ctx, q, 0).0
    ensures All(c, ctx, q).2 ==
      match Prepare(c.inters, ctx, q, 0).2
      case Some(err) => Failed(err)
      case None => Got(Nodes(SpecRows(c.db, SpecOf(Prepare(c.inters, ctx, q, 0).0))))
  {
    RunForwards(c.inters, SqlAll(c.db), ctx, q, c.w);
  }

  /** The ID scan under them, of a builder that selects the ID alone. */
  lemma IDsForward(c: Client, ctx: QCtx, q: QueryState)
    requires Forwarding(c.inters) && ctx.op.Some? && q.fields == []
    requires var (q1, _, err) := Prepare(c.inters, ctx, q.(fields := [ID]), 0); err.None? && q1.fields == [ID]
    ensures IDs(c, ctx, q).0 == Prepare(c.inters, ctx, q.(fields := [ID]), 0).0
    ensures IDs(c, ctx, q).2 ==
      Got(IDList(IDsOf(SelectorRows(c.db, SelectorOf(Prepare(c.inters, ctx, q.(fields := [ID]), 0).0)))))
  {
    assert [] + [ID] == [ID];
    RunForwards(c.inters, SqlScanIDs(c.db), ctx, q.(fields := [ID]), c.w);
  }

  /** All, at limit `l`. */
  lemma AllOfVisible(c: Client, ctx: QCtx, q: QueryState, adds: seq<seq<Pred>>, l: Option<int>)
    requires Sound(c.db) && Forwarding(c.inters) && ctx.op.Some? && Adds(c.inters, ctx, adds)
    requires (l.Some? ==> l.value > 0) && forall i :: 0 <= i < |q.fields| ==> !q.fields[i].Extra?
    ensures All(c, ctx, q.(limit := l)).2 ==
      Got(Nodes(if l.None? then Visible(c.db, q, adds) else Take(Visible(c.db, q, adds), l.value)))
    ensures All(c, ctx, q.(limit := l)).0 == Filtered(q, adds).(limit := l)
  {
    AllForwards(c, ctx, q.(limit := l));
    PrepareAdds(c.inters, ctx, adds, q.(limit := l), 0);
    ValidFields(q.fields);
    FilteredRows(c.db, q, adds, l);
  }

  /** The ID scan, at limit `n`. */
  lemma IDsOfVisible(c: Client, ctx: QCtx, q: QueryState, adds: seq<seq<Pred>>, n: int)
    requires Sound(c.db) && Forwarding(c.inters) && ctx.op.Some? && Adds(c.inters, ctx, adds)
    requires n > 0 && q.fields == []
    ensures IDs(c, ctx, q.(limit := Some(n))).2 == Got(IDList(IDsOf(Take(Visible(c.db, q, adds), n))))
    ensures IDs(c, ctx, q.(limit := Some(n))).0 == Filtered(q, adds).(limit := Some(n), fields := [ID])
  {
    PrepareAdds(c.inters, ctx, adds, q.(limit := Some(n), fields := [ID]), 0);
    IDIsValid();
    IDsForward(c, ctx, q.(limit := Some(n)));
    FilteredIDs(c.db, q, adds, n);
  }

  /** The ID scan without limit and offset. */
  lemma AllIDsOfVisible(c: Client, ctx: QCtx, q: QueryState, adds: seq<seq<Pred>>)
    requires Sound(c.db) && Forwarding(c.inters) && ctx.op.Some? && Adds(c.inters, ctx, adds)
    requires q.limit.None? && q.offset.None? && q.fields == []
    ensures IDs(c, ctx, q).2 == Got(IDList(IDsOf(Visible(c.db, q, adds))))
    ensures IDs(c, ctx, q).0 == Filtered(q, adds).(fields := [ID])
  {
    PrepareAdds(c.inters, ctx, adds, q.(fields := [ID]), 0);
    IDIsValid();
    IDsForward(c, ctx, q);
    FilterKeeps(q, adds, c.db.table);
    SelectorRowsAre(c.db, Filtered(q, adds).(fields := [ID]));
  }

  /** What a terminal's own context gives is what it gives. */
  lemma InContext(t: Terminal, c: Client, ctx: QCtx, q: QueryState)
    ensures var ctx1 := Named(ctx, NameOf(t));
      match t
      case TAll => All(c, ctx, q) == All(c, ctx1, q)
      case TIDs => IDs(c, ctx, q) == IDs(c, ctx1, q)
      case TFirst => First(c, ctx, q) == First(c, ctx1, q)
      case TOnly => Only(c, ctx, q) == Only(c, ctx1, q)
      case TFirstID => FirstID(c, ctx, q) == FirstID(c, ctx1, q)
      case TOnlyID => OnlyID(c, ctx, q) == OnlyID(c, ctx1, q)
      case TExist => Exist(c, ctx, q) == Exist(c, ctx1, q)
  {
    NamedOnce(ctx, NameOf(t));
  }

  /** MAIN: All returns exactly the rows of the table that satisfy the builder's own predicates and every predicate
      that a traverser adds, in order; so do IDs, for those rows' IDs. */
  lemma AllSeesOnlyAccepted(c: Client, ctx: QCtx, q: QueryState, adds: seq<seq<Pred>>)
    requires Sound(c.db) && Forwarding(c.inters) && Adds(c.inters, Named(ctx, OpAll), adds)
    requires q.limit.None? && forall i :: 0 <= i < |q.fields| ==> !q.fields[i].Extra?
    ensures All(c, ctx, q).2 == Got(Nodes(Visible(c.db, q, adds)))
    ensures q.offset.None? ==>
      forall m :: m in All(c, ctx, q).2.v.rows <==> m in c.db.table && AcceptedBy(q, adds, m)
  {
    InContext(TAll, c, ctx, q);
    AllOfVisible(c, Named(ctx, OpAll), q, adds, None);
    assert q.(limit := None) == q;
    if q.offset.None? {
      forall m ensures m in Visible(c.db, q, adds) <==> m in c.db.table && AcceptedBy(q, adds, m) {
        VisibleRows(c.db, q, adds, m);
      }
    }
  }

  lemma IDsSeeOnlyAccepted(c: Client, ctx: QCtx, q: QueryState, adds: seq<seq<Pred>>)
    requires Sound(c.db) && Forwarding(c.inters) && Adds(c.inters, Named(ctx, OpIDs), adds)
    requires q.limit.None? && q.offset.None? && q.fields == []
    ensures IDs(c, ctx, q).2 == Got(IDList(IDsOf(Visible(c.db, q, adds))))
  {
    InContext(TIDs, c, ctx, q);
    AllIDsOfVisible(c, Named(ctx, OpIDs), q, adds);
  }

  /** MAIN: the other terminals tell no row, one row and several rows apart among those. */
  lemma FirstSeesOnlyAccepted(c: Client, ctx: QCtx, q: QueryState, adds: seq<seq<Pred>>)
    requires Sound(c.db) && Forwarding(c.inters) && Adds(c.inters, Named(ctx, OpFirst), adds)
    requires forall i :: 0 <= i < |q.fields| ==> !q.fields[i].Extra?
    ensures IsFirst(First(c, ctx, q).2, Visible(c.db, q, adds))
    ensures First(c, ctx, q).0 == Filtered(q, adds).(limit := Some(1))
  {
    NamedOnce(ctx, OpFirst);
    AllOfVisible(c, Named(ctx, OpFirst), q, adds, Some(1));
  }

  lemma OnlySeesOnlyAccepted(c: Client, ctx: QCtx, q: QueryState, adds: seq<seq<Pred>>)
    requires Sound(c.db) && Forwarding(c.inters) && Adds(c.inters, Named(ctx, OpOnly), adds)
    requires forall i :: 0 <= i < |q.fields| ==> !q.fields[i].Extra?
    ensures IsOnly(Only(c, ctx, q).2, Visible(c.db, q, adds))
    ensures Only(c, ctx, q).0 == Filtered(q, adds).(limit := Some(2))
  {
    NamedOnce(ctx, OpOnly);
    AllOfVisible(c, Named(ctx, OpOnly), q, adds, Some(2));
  }

  lemma FirstIDSeesOnlyAccepted(c: Client, ctx: QCtx, q: QueryState, adds: seq<seq<Pred>>)
    requires Sound(c.db) && Forwarding(c.inters) && Adds(c.inters, Named(ctx, OpFirstID), adds) && q.fields == []
    ensures IsFirst(FirstID(c, ctx, q).2, IDsOf(Visible(c.db, q, adds)))
    ensures FirstID(c, ctx, q).0 == Filtered(q, adds).(limit := Some(1), fields := [ID])
  {
    NamedOnce(ctx, OpFirstID);
    IDsOfVisible(c, Named(ctx, OpFirstID), q, adds, 1);
  }

  lemma OnlyIDSeesOnlyAccepted(c: Client, ctx: QCtx, q: QueryState, adds: seq<seq<Pred>>)
    requires Sound(c.db) && Forwarding(c.inters) && Adds(c.inters, Named(ctx, OpOnlyID), adds) && q.fields == []
    ensures IsOnly(OnlyID(c, ctx, q).2, IDsOf(Visible(c.db, q, adds)))
    ensures OnlyID(c, ctx, q).0 == Filtered(q, adds).(limit := Some(2), fields := [ID])
  {
    NamedOnce(ctx, OpOnlyID);
    IDsOfVisible(c, Named(ctx, OpOnlyID), q, adds, 2);
  }

  lemma ExistSeesOnlyAccepted(c: Client, ctx: QCtx, q: QueryState, adds: seq<seq<Pred>>)
    requires Sound(c.db) && Forwarding(c.inters) && Adds(c.inters, Named(ctx, OpExist), adds) && q.fields == []
    ensures Exist(c, ctx, q).2 == One(Visible(c.db, q, adds) != [])
    ensures Exist(c, ctx, q).0 == Filtered(q, adds).(limit := Some(1), fields := [ID])
  {
    NamedOnce(ctx, OpExist);
    IDsOfVisible(c, Named(ctx, OpExist), q, adds, 1);
  }

  // ---------------------------------------------------------------- invalid fields

  /** The field blamed is the first one that is no column of the table. */
  lemma {:induction false} InvalidFieldIsFirst(fields: seq<Column>)
    ensures FirstInvalid(fields).None? <==> forall i :: 0 <= i < |fields| ==> !fields[i].Extra?
    ensures FirstInvalid(fields).Some? ==> exists i ::
      && 0 <= i < |fields| && FirstInvalid(fields).value == fields[i] && fields[i].Extra?
      && forall j :: 0 <= j < i ==> !fields[j].Extra?
  {
    if fields != [] {
      ColumnsAreTheTables(fields[0]);
      InvalidFieldIsFirst(fields[1..]);
      assert forall i :: 1 <= i < |fields| ==> fields[i] == fields[1..][i - 1];
      if FirstInvalid(fields).Some? && !fields[0].Extra? {
        var i :| 0 <= i < |fields[1..]| && FirstInvalid(fields).value == fields[1..][i] && fields[1..][i].Extra?
                 && forall j :: 0 <= j < i ==> !fields[1..][j].Extra?;
        assert fields[i + 1] == fields[1..][i];
      }
    }
  }

  /** MAIN: a terminal on a builder with a field that is no column fails with the first such field, and runs nothing. */
  lemma InvalidFieldIsBlamed(c: Client, ctx: QCtx, q: QueryState, adds: seq<seq<Pred>>, i: nat)
    requires Adds(c.inters, Named(ctx, OpAll), adds)
    requires i < |q.fields| && q.fields[i].Extra? && forall j :: 0 <= j < i ==> !q.fields[j].Extra?
    ensures All(c, ctx, q).2 == Failed(InvalidField(q.fields[i]))
    ensures OnlyTraversed(All(c, ctx, q).1)
  {
    NamedOnce(ctx, OpAll);
    PrepareAdds(c.inters, Named(ctx, OpAll), adds, q, 0);
    PrepareOnlyTraverses(c.inters, Named(ctx, OpAll), q, 0);
    InvalidFieldIsFirst(q.fields);
    var k :| 0 <= k < |q.fields| && FirstInvalid(q.fields).value == q.fields[k] && q.fields[k].Extra?
             && forall j :: 0 <= j < k ==> !q.fields[j].Extra?;
    assert k == i;
  }

  lemma ColumnsAreTheTables(c: Column)
    ensures c in COLUMNS <==> !c.Extra?
  {
    assert !c.Extra? ==> COLUMNS[Rank(c)] == c;
  }

  // ---------------------------------------------------------------- failing traversers

  lemma {:induction false} PrepareFails(
      inters: seq<Interceptor>, ctx: QCtx, adds: seq<seq<Pred>>, q: QueryState, k: nat, n: nat, err: QError)
    requires k <= n < |inters| && |adds| == n
    requires forall i :: k <= i < n ==> inters[i].Interceptor? && AddsHere(inters[i].traverse, ctx, adds[i])
    requires inters[n].Interceptor? && inters[n].traverse.Some?
    requires forall q' :: inters[n].traverse.value(ctx, q').1 == Some(err)
    ensures Prepare(inters, ctx, q, k).2 == Some(err)
    ensures forall i :: 0 <= i < |Prepare(inters, ctx, q, k).1| ==>
      Prepare(inters, ctx, q, k).1[i].Traversed? && Prepare(inters, ctx, q, k).1[i].k <= n
    decreases n - k
  {
    if k < n {
      assert AddsHere(inters[k].traverse, ctx, adds[k]);
      match inters[k].traverse
      case None => PrepareFails(inters, ctx, adds, q, k + 1, n, err);
      case Some(t) =>
        assert OneWhere(t(ctx, q), adds[k]);
        PrepareFails(inters, ctx, adds, Traversal(t, ctx, q).0, k + 1, n, err);
    }
  }

  /** MAIN: when traverser `n` fails and those before it do not, All fails with its error, and neither a later
      traverser nor an interceptor nor the query is called. */
  lemma TraverserErrorStops(c: Client, ctx: QCtx, adds: seq<seq<Pred>>, q: QueryState, n: nat, err: QError)
    requires n < |c.inters| && |adds| == n
    requires forall i :: 0 <= i < n ==>
      c.inters[i].Interceptor? && AddsHere(c.inters[i].traverse, Named(ctx, OpAll), adds[i])
    requires c.inters[n].Interceptor? && c.inters[n].traverse.Some?
    requires forall q' :: c.inters[n].traverse.value(Named(ctx, OpAll), q').1 == Some(err)
    ensures All(c, ctx, q).2 == Failed(err)
    ensures forall i :: 0 <= i < |All(c, ctx, q).1| ==>
      All(c, ctx, q).1[i].Traversed? && All(c, ctx, q).1[i].k <= n
  {
    NamedOnce(ctx, OpAll);
    PrepareFails(c.inters, Named(ctx, OpAll), adds, q, 0, n, err);
  }

  // ---------------------------------------------------------------- the order of interceptors

  /** The calls of interceptors `k..n`, in order. */
  function CallsFrom(k: nat, n: nat, op: Option<OpName>): seq<Seen>
    requires k <= n
    decreases n - k
  {
    if k == n then [] else [Intercepted(k, op)] + CallsFrom(k + 1, n, op)
  }

  lemma {:induction false} ChainInOrder(
      inters: seq<Interceptor>, k: nat, run: QueryState -> Answer, ctx: QCtx, q: QueryState, w: Private, p: seq<Seen>)
    requires k <= |inters| && !HasNil(inters) && Forwarding(inters)
    ensures Chain(inters, k, Execute(run))(QArg(ctx, OnQuery(q)), w, p).1 ==
      p + CallsFrom(k, |inters|, ctx.op) + [Executed(ctx.op, run(q))]
    decreases |inters| - k
  {
    if k == |inters| {
      assert Chain(inters, k, Execute(run)) == Execute(run);
      assert p + [] == p;
    } else {
      assert inters[k].Interceptor? && ForwardingHook(inters[k].hook);
      var hook, next, a := inters[k].hook, Chain(inters, k + 1, Execute(run)), QArg(ctx, OnQuery(q));
      var p1 := p + [Intercepted(k, ctx.op)];
      assert Chain(inters, k, Execute(run))(a, w, p) == Wrap(hook, next)(a, w, p1);
      DriveOnce(hook, next, a, w, p1);
      var (w1, a1) := hook.before(a, w, []);
      assert a1 == a;
      ChainInOrder(inters, k + 1, run, ctx, q, w1, p1);
      assert p1 + CallsFrom(k + 1, |inters|, ctx.op) == p + CallsFrom(k, |inters|, ctx.op);
    }
  }

  /** MAIN: after the traversers, forwarding interceptors are each called once, in the order of their registration,
      and then the query is executed, once, in the state the traversers left. */
  lemma InterceptorsInOrder(inters: seq<Interceptor>, run: QueryState -> Answer, ctx: QCtx, q: QueryState, w: Private)
    requires !HasNil(inters) && Forwarding(inters) && Prepare(inters, ctx, q, 0).2.None?
    ensures var (q1, seen, _) := Prepare(inters, ctx, q, 0);
      Run(inters, run, ctx, q, w).1 == seen + CallsFrom(0, |inters|, ctx.op) + [Executed(ctx.op, run(q1))]
  {
    var (q1, seen, _) := Prepare(inters, ctx, q, 0);
    ChainInOrder(inters, 0, run, ctx, q1, w, seen);
  }

  // ---------------------------------------------------------------- interceptors that answer themselves

  /** An interceptor that lets the query run (or not) and then returns `v`. */
  function Answering(runs: bool, v: Payload): Interceptor {
    Interceptor(None, Hook((a: QArg, w: Private) => 1,
                           (a: QArg, w: Private, past: seq<Answer>) => runs && past == [],
                           (a: QArg, w: Private, past: seq<Answer>) => (w, a),
                           (a: QArg, w: Private, past: seq<Answer>) => (w, Got(v))))
  }

  /** What a run under it calls and returns. */
  lemma AnsweringRuns(runs: bool, v: Payload, run: QueryState -> Answer, ctx: QCtx, q: QueryState, w: Private)
    requires FirstInvalid(q.fields).None?
    ensures Run([Answering(runs, v)], run, ctx, q, w) ==
      (q, if runs then [Intercepted(0, ctx.op), Executed(ctx.op, run(q))] else [Intercepted(0, ctx.op)], Got(v))
  {
    var inters, a := [Answering(runs, v)], QArg(ctx, OnQuery(q));
    assert Prepare(inters, ctx, q, 1) == (q, [], None);
    assert Prepare(inters, ctx, q, 0) == (q, [], None);
    AnsweringChain(runs, v, run, ctx, q, w);
    assert !HasNil(inters);
  }

  lemma AnsweringChain(runs: bool, v: Payload, run: QueryState -> Answer, ctx: QCtx, q: QueryState, w: Private)
    ensures Chain([Answering(runs, v)], 0, Execute(run))(QArg(ctx, OnQuery(q)), w, []) ==
      (w, if runs then [Intercepted(0, ctx.op), Executed(ctx.op, run(q))] else [Intercepted(0, ctx.op)], Got(v))
  {
    var inters, a := [Answering(runs, v)], QArg(ctx, OnQuery(q));
    var hook, base, p := inters[0].hook, Execute(run), [Intercepted(0, ctx.op)];
    assert Chain(inters, 1, base) == base && [] + p == p;
    assert Chain(inters, 0, base)(a, w, []) == Wrap(hook, base)(a, w, p);
    assert hook.limit(a, w) == 1 && hook.again(a, w, []) == runs;
    if runs {
      assert forall a', w', past :: hook.again(a', w', past) == (past == []);
      DriveOnce(hook, base, a, w, p);
      assert p + [Executed(ctx.op, run(q))] == [Intercepted(0, ctx.op), Executed(ctx.op, run(q))];
    } else {
      assert Wrap(hook, base)(a, w, p) == Drive(hook, a, [], 1, base, w, p) == (w, p, Got(v));
    }
  }

  /** What was scanned under it. */
  lemma ScannedUnderAnswer(c: Client, runs: bool, ctx: QCtx, q: QueryState)
    requires Sound(c.db) && q.limit.None? && q.offset.None? && q.fields == [ID]
    ensures var seen := if runs then [Intercepted(0, ctx.op), Executed(ctx.op, SqlScanIDs(c.db)(q))]
                        else [Intercepted(0, ctx.op)];
      LastScanned(seen) == if runs then IDsOf(Visible(c.db, q, [])) else []
  {
    assert q.predicates + AddedFrom([], 0) == q.predicates;
    FilterKeeps(q, [], c.db.table);
    SelectorRowsAre(c.db, q);
    assert [Intercepted(0, ctx.op)][..0] == [];
  }

  /** MAIN: an interceptor's own answer to IDs: a list of IDs, or a pointer to one, is what IDs returns; a number or an
      untyped nil stops the program; any other value leaves what was scanned, nothing if the query did not run. */
  lemma AnsweredIDs(c: Client, runs: bool, v: Payload, ctx: QCtx, q: QueryState)
    requires c.inters == [Answering(runs, v)] && Sound(c.db)
    requires q.limit.None? && q.offset.None? && q.fields == []
    ensures var answer := IDs(c, ctx, q).2;
      match v
      case IDList(ids) => answer == Got(IDList(ids))
      case IDPointer(ids) => answer == Got(IDList(ids))
      case Number(_) => answer == Failed(Panicked)
      case NilValue => answer == Failed(Panicked)
      case Nodes(_) => answer == Got(IDList(if runs then IDsOf(Visible(c.db, q, [])) else []))
      case OtherPayload => answer == Got(IDList(if runs then IDsOf(Visible(c.db, q, [])) else []))
  {
    var ctx1, q1 := Named(ctx, OpIDs), q.(fields := [ID]);
    assert [] + [ID] == [ID];
    NamedOnce(ctx, OpIDs);
    IDIsValid();
    AnsweringRuns(runs, v, SqlScanIDs(c.db), ctx1, q1, c.w);
    ScannedUnderAnswer(c, runs, ctx1, q1);
    KeepAlike(q, q1, c.db.table);
  }

  /** The selected fields play no part in what is accepted. */
  lemma {:induction false} KeepAlike(q: QueryState, q1: QueryState, rows: seq<Message>)
    requires q1.predicates == q.predicates
    ensures Keep(m => AcceptedBy(q, [], m), rows) == Keep(m => AcceptedBy(q1, [], m), rows)
  {
    if rows != [] {
      KeepAlike(q, q1, rows[1..]);
    }
  }

  /** Its own answer to All: a list of messages is what All returns, anything else is an error. */
  lemma AnsweredAll(c: Client, runs: bool, v: Payload, ctx: QCtx, q: QueryState)
    requires c.inters == [Answering(runs, v)] && FirstInvalid(q.fields).None?
    ensures v.Nodes? ==> All(c, ctx, q).2 == Got(v)
    ensures !v.Nodes? ==> All(c, ctx, q).2 == Failed(UnexpectedResult)
  {
    NamedOnce(ctx, OpAll);
    AnsweringRuns(runs, v, SqlAll(c.db), Named(ctx, OpAll), q, c.w);
  }

  /** The terminals around All and IDs take the first, or the only one, of what the interceptor answers. */
  lemma AnsweredFirst(c: Client, runs: bool, rows: seq<Message>, ctx: QCtx, q: QueryState)
    requires c.inters == [Answering(runs, Nodes(rows))] && FirstInvalid(q.fields).None?
    ensures IsFirst(First(c, ctx, q).2, rows) && IsOnly(Only(c, ctx, q).2, rows)
  {
    AnsweredAll(c, runs, Nodes(rows), SetContextOp(ctx, OpFirst), q.(limit := Some(1)));
    AnsweredAll(c, runs, Nodes(rows), SetContextOp(ctx, OpOnly), q.(limit := Some(2)));
  }

  lemma AnsweredFirstID(c: Client, runs: bool, ids: seq<int>, ctx: QCtx, q: QueryState)
    requires c.inters == [Answering(runs, IDList(ids))] && q.fields == []
    ensures IsFirst(FirstID(c, ctx, q).2, ids) && IsOnly(OnlyID(c, ctx, q).2, ids)
  {
    assert [] + [ID] == [ID];
    IDIsValid();
    NamedOnce(ctx, OpFirstID);
    NamedOnce(ctx, OpOnlyID);
    var q1, q2 := q.(limit := Some(1), fields := [ID]), q.(limit := Some(2), fields := [ID]);
    AnsweringRuns(runs, IDList(ids), SqlScanIDs(c.db), Named(ctx, OpFirstID), q1, c.w);
    AnsweringRuns(runs, IDList(ids), SqlScanIDs(c.db), Named(ctx, OpOnlyID), q2, c.w);
  }

  /** An interceptor that forwards a query of another type. */
  function Diverting(): Interceptor {
    Interceptor(None, Hook((a: QArg, w: Private) => 1,
                           (a: QArg, w: Private, past: seq<Answer>) => past == [],
                           (a: QArg, w: Private, past: seq<Answer>) => (w, QArg(a.ctx, OtherQuery)),
                           (a: QArg, w: Private, past: seq<Answer>) =>
                             (w, if past == [] then Failed(NilCalled) else past[|past| - 1])))
  }

  /** The query is not executed on another type of query, and the error says so. */
  lemma OtherQueryIsRefused(run: QueryState -> Answer, ctx: QCtx, q: QueryState, w: Private)
    ensures Chain([Diverting()], 0, Execute(run))(QArg(ctx, OnQuery(q)), w, []) ==
      (w, [Intercepted(0, ctx.op)], Failed(UnexpectedQueryType))
  {
    var inters, a := [Diverting()], QArg(ctx, OnQuery(q));
    var hook, base, p := inters[0].hook, Execute(run), [Intercepted(0, ctx.op)];
    assert Chain(inters, 1, base) == base && [] + p == p;
    assert Chain(inters, 0, base)(a, w, []) == Wrap(hook, base)(a, w, p);
    DriveOnce(hook, base, a, w, p);
  }

  /** A scan that gave a list of IDs. */
  predicate Scans(s: Seen) {
    s.Executed? && s.scanned.Got? && s.scanned.v.IDList?
  }

  /** When an interceptor runs the query several times, the list holds what the last successful scan wrote. */
  lemma {:induction false} LastScanCounts(seen: seq<Seen>, k: nat)
    requires k < |seen| && Scans(seen[k]) && forall i :: k < i < |seen| ==> !Scans(seen[i])
    ensures LastScanned(seen) == seen[k].scanned.v.ids
  {
    if k < |seen| - 1 {
      LastScanCounts(seen[..|seen| - 1], k);
    }
  }

  /** Without one it stays empty. */
  lemma {:induction false} NoScanIsEmpty(seen: seq<Seen>)
    requires forall i :: 0 <= i < |seen| ==> !Scans(seen[i])
    ensures LastScanned(seen) == []
  {
    if seen != [] {
      NoScanIsEmpty(seen[..|seen| - 1]);
    }
  }
}
