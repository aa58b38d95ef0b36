/** What a single save returns, sends and leaves behind. */
module SingleLaws {
  import opened Entity
  import opened Onion
  import opened Bulk
  import opened Single
  import opened BulkSubstitution

  // ---------------------------------------------------------------- a successful save

  /** The hook calls `next` once, returns what comes back, and then leaves mutations and nodes alone. Before the
      call it may do anything, forwarding another mutation included. */
  ghost predicate PassesOn(h: Hook<Arg, World, Outcome>) {
    && CallsExactly(h, 1)
    && forall a, w, r :: PassedOn(w, r, h.finish(a, w, [r]))
  }

  ghost predicate PassedOn(w: World, r: Outcome, answer: (World, Outcome)) {
    answer.1 == r && answer.0.muts == w.muts && answer.0.msgs == w.msgs
  }

  /** Node `p.next` was created for one more spec: it shows the payload sent, under the ID the store gave to it; the
      builder's mutation holds that payload, points to the node and is marked done. */
  ghost predicate Created(e: Env, m0: nat, p: Log, w1: World, p1: Log, o: Outcome) {
    && o == Ok(Node(p.next))
    && p1.next == p.next + 1 && p1.runs == p.runs + 1
    && |p1.sent| == |p.sent| + 1 && p1.sent[..|p.sent|] == p.sent
    && var spec := p1.sent[|p.sent|];
    && spec.row == e.row(spec.from) && e.check(spec.from).None?
    && MutAt(w1, m0) == Mutation(spec.from, Some(p.next), true)
    && NumberedByStore(e, spec)
    && MsgAt(w1, p.next) == e.node(spec.from).(id := spec.id.value)
  }

  /** The store took the row and gave it this ID. */
  ghost predicate NumberedByStore(e: Env, spec: Spec) {
    && spec.id.Some?
    && exists db :: TakenAs(e.store(db, [spec.row]), spec.id.value)
  }

  predicate TakenAs(answer: Answer, id: int) {
    answer.Done? && 0 in answer.ids && answer.ids[0] == id
  }

  ghost predicate Creates(e: Env, m0: nat, op: Saver) {
    forall a, w, p :: var (w1, p1, o) := op(a, w, p); o.Ok? ==> Created(e, m0, p, w1, p1, o)
  }

  lemma SqlSaveCreates(e: Env, m0: nat, w: World, p: Log)
    ensures var (w1, p1, o) := SqlSave(e, m0, w, p);
      o.Ok? ==> Created(e, m0, p, w1, p1, o) && p1.sent[|p.sent|].from == MutAt(w, m0).fields
  {
    var (w1, p1, o) := SqlSave(e, m0, w, p);
    if o.Ok? {
      var row := e.row(MutAt(w, m0).fields);
      assert TakenAs(e.store(w.db, [row]), e.store(w.db, [row]).ids[0]);
    }
  }

  lemma WrapCreates(e: Env, m0: nat, h: Hook<Arg, World, Outcome>, next: Saver)
    requires PassesOn(h) && Creates(e, m0, next)
    ensures Creates(e, m0, Wrap(h, next))
  {
    forall a, w, p ensures var (w1, p1, o) := Wrap(h, next)(a, w, p); o.Ok? ==> Created(e, m0, p, w1, p1, o) {
      DriveOnce(h, next, a, w, p);
      var (w1, a1) := h.before(a, w, []);
      var (w2, p2, r) := next(a1, w1, p);
      var (w3, o) := h.finish(a, w2, [r]);
      assert PassedOn(w2, r, (w3, o));
      assert MutAt(w3, m0) == MutAt(w2, m0) && MsgAt(w3, p.next) == MsgAt(w2, p.next);
    }
  }

  lemma {:induction false} StackCreates(e: Env, m0: nat, hs: seq<Hook<Arg, World, Outcome>>)
    requires forall k :: 0 <= k < |hs| ==> PassesOn(hs[k])
    ensures Creates(e, m0, Stack(hs, Exec(e, m0)))
  {
    if hs == [] {
      forall a: Arg, w, p ensures var (w1, p1, o) := Exec(e, m0)(a, w, p); o.Ok? ==> Created(e, m0, p, w1, p1, o) {
        if a.m.Msg? {
          SqlSaveCreates(e, m0, w.(muts := w.muts[m0 := MutAt(w, a.m.addr)]), p);
        }
      }
    } else {
      StackCreates(e, m0, hs[1..]);
      WrapCreates(e, m0, hs[0], Stack(hs[1..], Exec(e, m0)));
    }
  }

  /** MAIN: a single save that succeeds, without hooks or with hooks that pass results on, returns the very node it
      created: the one the sent payload makes, under the ID the store gave to that row. */
  lemma SingleSaveReturnsItsNode(e: Env, m0: nat, ctx: Ctx, hooks: HookList, w: World, p: Log)
    requires forall k :: 0 <= k < |hooks| && hooks[k].Some? ==> PassesOn(hooks[k].value)
    ensures var (w1, p1, o) := HookedSave(e, m0, ctx, hooks, w, p);
      o.Ok? ==> Created(e, m0, p, w1, p1, o) && (hooks == [] ==> p1.sent[|p.sent|].from == MutAt(w, m0).fields)
  {
    SqlSaveCreates(e, m0, w, p);
    if hooks != [] && !HasNil(hooks) {
      forall k | 0 <= k < |Values(hooks)| ensures PassesOn(Values(hooks)[k]) {
        assert hooks[k].Some?;
      }
      StackCreates(e, m0, Values(hooks));
    }
  }

  // ---------------------------------------------------------------- what is sent

  /** What hook `k` forwards, given what it receives. */
  type Forward = (nat, Parcel) -> Parcel

  /** What comes out of hooks `k..n`. */
  function Through(to: Forward, k: nat, n: nat, q: Parcel): Parcel
    requires k <= n
    decreases n - k
  {
    if k == n then q else Through(to, k + 1, n, to(k, q))
  }

  ghost predicate ForwardsAs(h: Hook<Arg, World, Outcome>, to: Parcel -> Parcel) {
    && CallsExactly(h, 1)
    && forall a, u :: var (v, b) := h.before(a, u, []); ParcelIn(v, b.m) == to(ParcelIn(u, a.m))
  }

  /** One spec is sent, with that payload, if it passes the check; else nothing is. */
  ghost predicate Sends(e: Env, q: Parcel, p: Log, p1: Log) {
    if q.m.Foreign? || e.check(q.payload).Some? then p1.sent == p.sent
    else
      && |p1.sent| == |p.sent| + 1 && p1.sent[..|p.sent|] == p.sent
      && p1.sent[|p.sent|].from == q.payload
      && p1.sent[|p.sent|].row == e.row(q.payload)
  }

  lemma {:induction false} StackSends(
      e: Env, m0: nat, hs: seq<Hook<Arg, World, Outcome>>, to: Forward, k: nat, a: Arg, w: World, p: Log)
    requires k <= |hs| && forall i :: 0 <= i < |hs| ==> ForwardsAs(hs[i], q => to(i, q))
    ensures Sends(e, Through(to, k, |hs|, ParcelIn(w, a.m)), p, Stack(hs[k..], Exec(e, m0))(a, w, p).1)
    decreases |hs| - k
  {
    if k < |hs| {
      assert hs[k..][0] == hs[k] && hs[k..][1..] == hs[k + 1..];
      var next := Stack(hs[k + 1..], Exec(e, m0));
      DriveOnce(hs[k], next, a, w, p);
      var (w1, a1) := hs[k].before(a, w, []);
      assert ForwardsAs(hs[k], q => to(k, q));
      assert ParcelIn(w1, a1.m) == to(k, ParcelIn(w, a.m));
      StackSends(e, m0, hs, to, k + 1, a1, w1, p);
    }
  }

  /** MAIN: with hooks that forward `to`, the single save checks and sends exactly the payload that comes out of the
      last one: another mutation's, when a hook substitutes it. (The bulk save checks the builder's own.) */
  lemma SingleSaveSendsForwarded(e: Env, m0: nat, ctx: Ctx, hooks: HookList, to: Forward, w: World, p: Log)
    requires hooks != [] && !HasNil(hooks)
    requires forall k :: 0 <= k < |hooks| ==> hooks[k].Some? && ForwardsAs(hooks[k].value, q => to(k, q))
    ensures Sends(e, Through(to, 0, |hooks|, ParcelIn(w, Msg(m0))), p, HookedSave(e, m0, ctx, hooks, w, p).1)
  {
    var hs := Values(hooks);
    forall k | 0 <= k < |hs| ensures ForwardsAs(hs[k], q => to(k, q)) {
      assert hooks[k].Some? && hs[k] == hooks[k].value;
    }
    assert hs[0..] == hs;
    StackSends(e, m0, hs, to, 0, Arg(ctx, Msg(m0)), w, p);
  }

  /** The store's answer to the one row, as the save returns it: a refusal by its kind; without an ID in the answer
      there is a nil to be dereferenced. */
  ghost predicate AnswersFor(answer: Answer, o: Outcome) {
    match answer
    case Refused(true, msg) => o == Err(ConstraintError(msg))
    case Refused(false, msg) => o == Err(DbError(msg))
    case Done(_, ids) => if 0 in ids then o.Ok? else o == Err(NilDereference)
  }

  /** What comes back for payload `q`. */
  ghost predicate Comes(e: Env, q: Parcel, o: Outcome) {
    if q.m.Foreign? then o == Err(UnexpectedMutationType)
    else if e.check(q.payload).Some? then o == Err(e.check(q.payload).value)
    else exists db :: AnswersFor(e.store(db, [e.row(q.payload)]), o)
  }

  lemma {:induction false} StackReturns(
      e: Env, m0: nat, hs: seq<Hook<Arg, World, Outcome>>, to: Forward, k: nat, a: Arg, w: World, p: Log)
    requires k <= |hs| && forall i :: 0 <= i < |hs| ==> ForwardsAs(hs[i], q => to(i, q)) && PassesOn(hs[i])
    ensures Comes(e, Through(to, k, |hs|, ParcelIn(w, a.m)), Stack(hs[k..], Exec(e, m0))(a, w, p).2)
    decreases |hs| - k
  {
    if k < |hs| {
      assert hs[k..][0] == hs[k] && hs[k..][1..] == hs[k + 1..];
      var next := Stack(hs[k + 1..], Exec(e, m0));
      DriveOnce(hs[k], next, a, w, p);
      var (w1, a1) := hs[k].before(a, w, []);
      assert ForwardsAs(hs[k], q => to(k, q));
      assert ParcelIn(w1, a1.m) == to(k, ParcelIn(w, a.m));
      StackReturns(e, m0, hs, to, k + 1, a1, w1, p);
      var (w2, p2, r) := next(a1, w1, p);
      assert PassedOn(w2, r, hs[k].finish(a, w2, [r]));
    } else {
      ExecReturns(e, m0, a, w, p);
    }
  }

  lemma ExecReturns(e: Env, m0: nat, a: Arg, w: World, p: Log)
    ensures Comes(e, ParcelIn(w, a.m), Exec(e, m0)(a, w, p).2)
    ensures Exec(e, m0)(a, w, p).2.Ok? ==> Exec(e, m0)(a, w, p).2.v.Node?
  {
    if a.m.Msg? && e.check(MutAt(w, a.m.addr).fields).None? {
      assert AnswersFor(e.store(w.db, [e.row(MutAt(w, a.m.addr).fields)]), Exec(e, m0)(a, w, p).2);
    }
  }

  /** MAIN: with hooks that forward `to` and pass results on, the save returns: the type error for a mutation of
      another type, the check's error for the forwarded payload, or what the store answers to its row. */
  lemma SingleSaveOutcome(e: Env, m0: nat, ctx: Ctx, hooks: HookList, to: Forward, w: World, p: Log)
    requires hooks != [] && !HasNil(hooks)
    requires forall k :: 0 <= k < |hooks| ==>
      hooks[k].Some? && ForwardsAs(hooks[k].value, q => to(k, q)) && PassesOn(hooks[k].value)
    ensures Comes(e, Through(to, 0, |hooks|, ParcelIn(w, Msg(m0))), HookedSave(e, m0, ctx, hooks, w, p).2)
  {
    var hs := Values(hooks);
    forall k | 0 <= k < |hs| ensures ForwardsAs(hs[k], q => to(k, q)) && PassesOn(hs[k]) {
      assert hooks[k].Some? && hs[k] == hooks[k].value;
    }
    assert hs[0..] == hs;
    StackReturns(e, m0, hs, to, 0, Arg(ctx, Msg(m0)), w, p);
    SingleSaveReturnsItsNode(e, m0, ctx, hooks, w, p);
    StackCreates(e, m0, hs);
  }

  /** MAIN: what the outermost hook answers is what the save answers, but for a value that is not a node, which
      becomes an error. */
  lemma OutermostHookDecides(
      e: Env, m0: nat, ctx: Ctx, h: Hook<Arg, World, Outcome>, rest: HookList, w: World, p: Log)
    requires !HasNil(rest)
    ensures exists ws, ps, rs ::
      && Ran(h, Stack(Values(rest), Exec(e, m0)), Arg(ctx, Msg(m0)), w, p, ws, ps, rs)
      && var (w1, p1, o) := Conclusion(h, Arg(ctx, Msg(m0)), ws, ps, rs);
      HookedSave(e, m0, ctx, [Some(h)] + rest, w, p) ==
        (w1, p1, if o == Ok(OtherValue) then Err(UnexpectedNodeType) else o)
  {
    var hooks := [Some(h)] + rest;
    assert !HasNil(hooks) && Values(hooks)[0] == h && Values(hooks)[1..] == Values(rest);
    var ws, ps, rs := TheRun(h, Stack(Values(rest), Exec(e, m0)), Arg(ctx, Msg(m0)), w, p);
    assert Stack(Values(hooks), Exec(e, m0)) == Wrap(h, Stack(Values(rest), Exec(e, m0)));
  }
}
