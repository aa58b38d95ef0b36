/** `MessageCreate.Save`: `withHooks` around `sqlSave`. */
module Single {
  import opened Entity
  import opened Onion
  import opened Bulk

  /** What the save itself records: the specs it sent to the store, the address of its next node, and how
      often the operation was executed. */
  datatype Log = Log(sent: seq<Spec>, next: nat, runs: nat)

  type Saver = Op<Arg, World, Log, Outcome>

  /** `sqlSave`: check, createSpec, CreateNode, and the ID. `m0` is the builder's mutation object. The
      source asserts that the store set the ID. */
  function SqlSave(e: Env, m0: nat, w: World, p: Log): (World, Log, Outcome) {
    var q := p.(runs := p.runs + 1);
    var f := MutAt(w, m0).fields;
    match e.check(f)
    case Some(err) => (w, q, Err(err))
    case None =>
      match e.store(w.db, [e.row(f)])
      case Refused(constraint, msg) =>
        (w, q.(sent := q.sent + [Spec(e.row(f), None, f)]),
         Err(if constraint then ConstraintError(msg) else DbError(msg)))
      case Done(db, ids) =>
        if 0 !in ids then (w.(db := db), q.(sent := q.sent + [Spec(e.row(f), None, f)]), Err(NilDereference))
        else
          var w1 := World(w.muts[m0 := MutAt(w, m0).(id := Some(q.next), done := true)],
                          w.msgs[q.next := e.node(f).(id := ids[0])],
                          db, w.memo);
          (w1, Log(q.sent + [Spec(e.row(f), Some(ids[0]), f)], q.next + 1, q.runs), Ok(Node(q.next)))
  }

  /** The innermost mutator of `withHooks`: `*mutation = *mutationT`, then the operation. */
  function Exec(e: Env, m0: nat): Saver {
    (a: Arg, w: World, p: Log) =>
      if a.m.Foreign? then (w, p, Err(UnexpectedMutationType))
      else SqlSave(e, m0, w.(muts := w.muts[m0 := MutAt(w, a.m.addr)]), p)
  }

  /** A hook list as registered: an entry may be nil. */
  type HookList = seq<Option<Hook<Arg, World, Outcome>>>

  predicate HasNil(hooks: HookList) {
    exists k :: 0 <= k < |hooks| && hooks[k].None?
  }

  function Values(hooks: HookList): seq<Hook<Arg, World, Outcome>>
    requires !HasNil(hooks)
  {
    seq(|hooks|, k requires 0 <= k < |hooks| => assert hooks[k].Some?; hooks[k].value)
  }

  /** A value of another type than the builder's node is an error. */
  function AsNode(o: Outcome): Outcome {
    if o.Ok? && o.v.OtherValue? then Err(UnexpectedNodeType) else o
  }

  /** What `withHooks` returns, by the stack of its hooks. */
  function HookedSave(e: Env, m0: nat, ctx: Ctx, hooks: HookList, w: World, p: Log): (World, Log, Outcome) {
    if hooks == [] then SqlSave(e, m0, w, p)
    else if HasNil(hooks) then (w, p, Err(UninitializedHook))
    else
      var (w1, p1, o) := Stack(Values(hooks), Exec(e, m0))(Arg(ctx, Msg(m0)), w, p);
      (w1, p1, AsNode(o))
  }

  /** MAIN: `withHooks` as it runs: the loop goes backwards over the list and rebinds `mut`. A nil hook at any
      position means that nothing is executed: the operation does not run, nothing is sent, the world stays,
      and the error says so. */
  method WithHooks(e: Env, m0: nat, ctx: Ctx, hooks: HookList, w: World, p: Log)
    returns (w1: World, p1: Log, o: Outcome)
    ensures (w1, p1, o) == HookedSave(e, m0, ctx, hooks, w, p)
    ensures HasNil(hooks) ==> (w1, p1, o) == (w, p, Err(UninitializedHook))
  {
    if |hooks| == 0 {
      return SqlSave(e, m0, w, p).0, SqlSave(e, m0, w, p).1, SqlSave(e, m0, w, p).2;
    }
    var mut: Saver := Exec(e, m0);
    var i := |hooks|;
    while i > 0
      invariant 0 <= i <= |hooks|
      invariant forall k :: i <= k < |hooks| ==> hooks[k].Some?
      invariant !HasNil(hooks[i..]) && mut == Stack(Values(hooks[i..]), Exec(e, m0))
    {
      i := i - 1;
      if hooks[i].None? {
        return w, p, Err(UninitializedHook);
      }
      mut := Wrap(hooks[i].value, mut);
      assert !HasNil(hooks[i..]);
      assert Values(hooks[i..])[0] == hooks[i].value;
      assert Values(hooks[i..])[1..] == Values(hooks[i + 1..]);
    }
    assert hooks[0..] == hooks;
    var (w2, p2, r) := mut(Arg(ctx, Msg(m0)), w, p);
    return w2, p2, AsNode(r);
  }

  // ---------------------------------------------------------------- what withHooks promises

  /** Every spec sent was built, column by column, from a payload that passed the check. */
  ghost predicate AllValidated(e: Env, p: Log) {
    forall k :: 0 <= k < |p.sent| ==> p.sent[k].row == e.row(p.sent[k].from) && e.check(p.sent[k].from).None?
  }

  /** MAIN: in the single save that holds for any hooks at all, even hooks that forward another mutation
      object, because the object is copied into the builder's before the operation runs. */
  lemma SingleSaveSendsValidated(e: Env, m0: nat, ctx: Ctx, hooks: HookList, w: World, p: Log)
    requires AllValidated(e, p)
    ensures AllValidated(e, HookedSave(e, m0, ctx, hooks, w, p).1)
  {
    if hooks != [] && !HasNil(hooks) {
      StackKeeps(Values(hooks), Exec(e, m0), Arg(ctx, Msg(m0)), w, p,
                 (q, r) => AllValidated(e, q) ==> AllValidated(e, r));
    }
  }

  /** MAIN: registering `h1`, then `h2`, then saving is saving with the `h1` stack around the `h2` stack
      around the operation: the earliest registered hook is the outermost. */
  lemma RegistrationOrder(e: Env, m0: nat, ctx: Ctx, h1: HookList, h2: HookList, w: World, p: Log)
    requires h1 + h2 != [] && !HasNil(h1) && !HasNil(h2)
    ensures HookedSave(e, m0, ctx, h1 + h2, w, p) ==
      var (w1, p1, o) := Stack(Values(h1), Stack(Values(h2), Exec(e, m0)))(Arg(ctx, Msg(m0)), w, p);
      (w1, p1, AsNode(o))
  {
    assert !HasNil(h1 + h2);
    assert Values(h1 + h2) == Values(h1) + Values(h2);
    StackAppend(Values(h1), Values(h2), Exec(e, m0));
  }
}
