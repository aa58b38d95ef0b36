/** The terminal calls on the builder object: they overwrite its state in place and run it. */
module QueryTerminals {
  import opened Entity
  import opened Query
  import opened QueryBuilder
  import R = QueryRun

  /** `prepareQuery`, then `withInterceptors` around `run`. */
  method Execute(q: MessageQuery, c: R.Client, run: QueryState -> R.Answer, ctx: R.QCtx)
    returns (seen: seq<R.Seen>, r: R.Answer)
    requires q.Valid()
    modifies q.Footprint()
    ensures q.Valid() && fresh(q.Footprint() - old(q.Footprint()))
    ensures (q.State(), seen, r) == R.Run(c.inters, run, ctx, old(q.State()), c.w)
  {
    var called, err := R.PrepareQuery(q, c.inters, ctx);
    if err.Some? {
      return called, R.Failed(err.value);
    }
    var a := R.QArg(ctx, R.OnQuery(q.State()));
    var _, called1, answer := R.RunInterceptors(c.inters, R.Execute(run), a, c.w, called);
    return called1, answer;
  }

  method All(q: MessageQuery, c: R.Client, ctx: R.QCtx) returns (seen: seq<R.Seen>, r: R.Answer)
    requires q.Valid()
    modifies q.Footprint()
    ensures q.Valid() && fresh(q.Footprint() - old(q.Footprint()))
    ensures (q.State(), seen, r) == R.All(c, ctx, old(q.State()))
  {
    seen, r := Execute(q, c, R.SqlAll(c.db), R.SetContextOp(ctx, R.OpAll));
    if r.Got? && !r.v.Nodes? {
      r := R.Failed(R.UnexpectedResult);
    }
  }

  method IDs(q: MessageQuery, c: R.Client, ctx: R.QCtx) returns (seen: seq<R.Seen>, r: R.Answer)
    requires q.Valid()
    modifies q.Footprint()
    ensures q.Valid() && fresh(q.Footprint() - old(q.Footprint()))
    ensures (q.State(), seen, r) == R.IDs(c, ctx, old(q.State()))
  {
    var ctx1 := R.SetContextOp(R.SetContextOp(ctx, R.OpIDs), R.OpSelect);
    q.AddSelect([ID], 0);
    var called, answer := Execute(q, c, R.SqlScanIDs(c.db), ctx1);
    return called, if answer.Failed? then answer else R.ScanResult(called, answer.v);
  }

  method First(q: MessageQuery, c: R.Client, ctx: R.QCtx) returns (seen: seq<R.Seen>, found: R.Found<Message>)
    requires q.Valid()
    modifies q.Footprint()
    ensures q.Valid() && fresh(q.Footprint() - old(q.Footprint()))
    ensures (q.State(), seen, found) == R.First(c, ctx, old(q.State()))
  {
    q.SetLimit(1);
    var s, r := All(q, c, R.SetContextOp(ctx, R.OpFirst));
    seen, found := s, if r.Failed? then R.Missing(r.e) else R.FirstOf(r.v.rows);
  }

  method Only(q: MessageQuery, c: R.Client, ctx: R.QCtx) returns (seen: seq<R.Seen>, found: R.Found<Message>)
    requires q.Valid()
    modifies q.Footprint()
    ensures q.Valid() && fresh(q.Footprint() - old(q.Footprint()))
    ensures (q.State(), seen, found) == R.Only(c, ctx, old(q.State()))
  {
    q.SetLimit(2);
    var s, r := All(q, c, R.SetContextOp(ctx, R.OpOnly));
    seen, found := s, if r.Failed? then R.Missing(r.e) else R.OnlyOf(r.v.rows);
  }

  method FirstID(q: MessageQuery, c: R.Client, ctx: R.QCtx) returns (seen: seq<R.Seen>, found: R.Found<int>)
    requires q.Valid()
    modifies q.Footprint()
    ensures q.Valid() && fresh(q.Footprint() - old(q.Footprint()))
    ensures (q.State(), seen, found) == R.FirstID(c, ctx, old(q.State()))
  {
    q.SetLimit(1);
    var s, r := IDs(q, c, R.SetContextOp(ctx, R.OpFirstID));
    seen, found := s, if r.Failed? then R.Missing(r.e) else R.FirstOf(r.v.ids);
  }

  method OnlyID(q: MessageQuery, c: R.Client, ctx: R.QCtx) returns (seen: seq<R.Seen>, found: R.Found<int>)
    requires q.Valid()
    modifies q.Footprint()
    ensures q.Valid() && fresh(q.Footprint() - old(q.Footprint()))
    ensures (q.State(), seen, found) == R.OnlyID(c, ctx, old(q.State()))
  {
    q.SetLimit(2);
    var s, r := IDs(q, c, R.SetContextOp(ctx, R.OpOnlyID));
    seen, found := s, if r.Failed? then R.Missing(r.e) else R.OnlyOf(r.v.ids);
  }

  method Exist(q: MessageQuery, c: R.Client, ctx: R.QCtx) returns (seen: seq<R.Seen>, found: R.Found<bool>)
    requires q.Valid()
    modifies q.Footprint()
    ensures q.Valid() && fresh(q.Footprint() - old(q.Footprint()))
    ensures (q.State(), seen, found) == R.Exist(c, ctx, old(q.State()))
  {
    var s, r := FirstID(q, c, R.SetContextOp(ctx, R.OpExist));
    if r == R.Missing(R.NotFound) {
      return s, R.One(false);
    }
    if r.Missing? {
      return s, R.Missing(r.e);
    }
    return s, R.One(true);
  }

  // ---------------------------------------------------------------- isolation of clones

  /** A call on one of two queries: a builder call, or a terminal. */
  datatype Act = Build(call: Call) | RunAll | RunIDs | RunFirst | RunOnly | RunFirstID | RunOnlyID | RunExist

  /** What it does to the state of the query it is made on. */
  function Effect(q: QueryState, act: Act, c: R.Client, ctx: R.QCtx): QueryState {
    match act
    case Build(call) => Apply(q, call)
    case RunAll => R.All(c, ctx, q).0
    case RunIDs => R.IDs(c, ctx, q).0
    case RunFirst => R.First(c, ctx, q).0
    case RunOnly => R.Only(c, ctx, q).0
    case RunFirstID => R.FirstID(c, ctx, q).0
    case RunOnlyID => R.OnlyID(c, ctx, q).0
    case RunExist => R.Exist(c, ctx, q).0
  }

  method Perform(q: MessageQuery, act: Act, c: R.Client, ctx: R.QCtx)
    requires q.Valid()
    modifies q.Footprint()
    ensures q.Valid() && fresh(q.Footprint() - old(q.Footprint()))
    ensures q.State() == Effect(old(q.State()), act, c, ctx)
  {
    match act {
      case Build(call) => q.Do(call);
      case RunAll => var _, _ := All(q, c, ctx);
      case RunIDs => var _, _ := IDs(q, c, ctx);
      case RunFirst => var _, _ := First(q, c, ctx);
      case RunOnly => var _, _ := Only(q, c, ctx);
      case RunFirstID => var _, _ := FirstID(q, c, ctx);
      case RunOnlyID => var _, _ := OnlyID(q, c, ctx);
      case RunExist => var _, _ := Exist(q, c, ctx);
    }
  }

  datatype Turn = Turn(onClone: bool, act: Act)

  /** The state after the calls made on one of the two. */
  function After(q: QueryState, turns: seq<Turn>, onClone: bool, c: R.Client, ctx: R.QCtx): QueryState {
    if turns == [] then q
    else
      var before, last := After(q, turns[..|turns| - 1], onClone, c, ctx), turns[|turns| - 1];
      if last.onClone == onClone then Effect(before, last.act, c, ctx) else before
  }

  /** One turn; the other query is not touched. */
  method TakeTurn(q: MessageQuery, clone: MessageQuery, turn: Turn, c: R.Client, ctx: R.QCtx)
    requires q.Valid() && clone.Valid() && q.Footprint() !! clone.Footprint()
    modifies q.Footprint(), clone.Footprint()
    ensures q.Valid() && clone.Valid() && q.Footprint() !! clone.Footprint()
    ensures fresh(q.Footprint() - old(q.Footprint())) && fresh(clone.Footprint() - old(clone.Footprint()))
    ensures q.State() == if turn.onClone then old(q.State()) else Effect(old(q.State()), turn.act, c, ctx)
    ensures clone.State() == if turn.onClone then Effect(old(clone.State()), turn.act, c, ctx) else old(clone.State())
  {
    if turn.onClone {
      Perform(clone, turn.act, c, ctx);
    } else {
      Perform(q, turn.act, c, ctx);
    }
  }

  /** All turns, one after the other. */
  method TakeTurns(q: MessageQuery, clone: MessageQuery, turns: seq<Turn>, c: R.Client, ctx: R.QCtx)
    requires q.Valid() && clone.Valid() && q.Footprint() !! clone.Footprint()
    modifies q.Footprint(), clone.Footprint()
    ensures q.Valid() && clone.Valid() && q.Footprint() !! clone.Footprint()
    ensures fresh(q.Footprint() - old(q.Footprint())) && fresh(clone.Footprint() - old(clone.Footprint()))
    ensures q.State() == After(old(q.State()), turns, false, c, ctx)
    ensures clone.State() == After(old(clone.State()), turns, true, c, ctx)
    decreases |turns|
  {
    if |turns| > 0 {
      TakeTurns(q, clone, turns[..|turns| - 1], c, ctx);
      TakeTurn(q, clone, turns[|turns| - 1], c, ctx);
    }
  }

  /** MAIN: after Clone, any interleaving of builder calls and terminals on the original and on the clone leaves
      each of them exactly as if only its own calls had been made, in-place growth of the slices included. */
  method CloneThenInterleave(q: MessageQuery, spare: nat, turns: seq<Turn>, c: R.Client, ctx: R.QCtx)
    returns (clone: MessageQuery)
    requires q.Valid()
    modifies q.Footprint()
    ensures q.Valid() && clone.Valid()
    ensures q.State() == After(old(q.State()), turns, false, c, ctx)
    ensures clone.State() == After(old(q.State()), turns, true, c, ctx)
  {
    clone := q.Clone(spare);
    TakeTurns(q, clone, turns, c, ctx);
  }
}
