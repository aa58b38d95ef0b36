/** Invariants of the captured variables, for any run, and what follows from them about contexts and about
    validated data. */
module BulkInvariants {
  import opened Entity
  import opened Onion
  import opened Bulk
  import opened BulkInduction

  // ---------------------------------------------------------------- invariants of a run

  /** Which arguments may reach layer `h` of builder `i` (or the batch insert, as layer 0 of level n). */
  type Admits = (nat, nat, Arg) -> bool

  ghost predicate HooksAdmit(e: Env, ok: Admits) {
    forall i, h, a, w, past :: 0 <= i < |e.builders| && 0 <= h < |Hooks(e, i)| && ok(i, h, a) ==>
      ok(i, h + 1, Hooks(e, i)[h].before(a, w, past).1)
  }

  ghost predicate EmitsKeep(e: Env, ok: Admits, inv: Chain -> bool) {
    && (forall c, i: nat, h: nat, a :: i < |e.builders| && ok(i, h, a) && inv(c) ==> inv(c.Emit(In(i, h, a))))
    && (forall c, i: nat, h: nat :: inv(c) ==> inv(c.Emit(Out(i, h))))
    && (forall c :: inv(c) ==> inv(c.Emit(Crash)))
  }

  /** A body that passes its check keeps the invariant and hands an admitted argument down. */
  ghost predicate FillsKeep(e: Env, root: Ctx, ok: Admits, inv: Chain -> bool) {
    forall i, a: Arg, w, c ::
      && 0 <= i < |e.builders|
      && a.m.Msg?
      && ok(i, |Hooks(e, i)|, a)
      && inv(c)
      && e.check(MutAt(w, Cur(e, c, i)).fields).None? ==>
        && inv(FillChain(e, i, a.m.addr, w, c))
        && ok(i + 1, 0, NextArg(e, root, i, a, FillChain(e, i, a.m.addr, w, c)))
  }

  ghost predicate BatchKeeps(e: Env, ok: Admits, inv: Chain -> bool) {
    forall a, w, c :: ok(|e.builders|, 0, a) && inv(c) ==> inv(BatchCreate(e, a.ctx, w, c).1)
  }

  ghost predicate Invariant(e: Env, root: Ctx, ok: Admits, inv: Chain -> bool) {
    HooksAdmit(e, ok) && EmitsKeep(e, ok, inv) && FillsKeep(e, root, ok, inv) && BatchKeeps(e, ok, inv)
  }

  /** Layer `h` of builder `i` keeps the invariant, on the arguments that may reach it. */
  ghost predicate LayerKeepsInvariant(e: Env, root: Ctx, ok: Admits, inv: Chain -> bool, i: nat, h: nat) {
    Place(e, i, h) ==> forall a, w, c :: ok(i, h, a) && inv(c) ==> inv(At(e, root, i, h)(a, w, c).1)
  }

  lemma HookKeepsInvariant(e: Env, root: Ctx, ok: Admits, inv: Chain -> bool, i: nat, h: nat)
    requires Invariant(e, root, ok, inv) && i < |e.builders| && h < |Hooks(e, i)|
    requires LayerKeepsInvariant(e, root, ok, inv, i, h + 1)
    ensures LayerKeepsInvariant(e, root, ok, inv, i, h)
  {
    var hook, next := Hooks(e, i)[h], At(e, root, i, h + 1);
    var rel := (c, d) => inv(c) ==> inv(d);
    forall a, w, c | ok(i, h, a) && inv(c) ensures inv(Layer(e, root, i, h)(a, w, c).1) {
      var cIn := c.Emit(In(i, h, a));
      DriveKeeps(hook, a, [], hook.limit(a, w), next, w, cIn, b => ok(i, h + 1, b), rel);
      assert inv(Wrap(hook, next)(a, w, cIn).1);
    }
  }

  lemma BodyKeepsInvariant(e: Env, root: Ctx, ok: Admits, inv: Chain -> bool, i: nat)
    requires Invariant(e, root, ok, inv) && i < |e.builders| && LayerKeepsInvariant(e, root, ok, inv, i + 1, 0)
    ensures LayerKeepsInvariant(e, root, ok, inv, i, |Hooks(e, i)|)
  {
    var h, next := |Hooks(e, i)|, Level(e, root, i + 1);
    assert At(e, root, i + 1, 0) == next;
    forall a, w, c | ok(i, h, a) && inv(c) ensures inv(Layer(e, root, i, h)(a, w, c).1) {
      var cIn := c.Emit(In(i, h, a));
      if a.m.Msg? && e.check(MutAt(w, Cur(e, cIn, i)).fields).None? {
        var cF := FillChain(e, i, a.m.addr, w, cIn);
        assert inv(next(NextArg(e, root, i, a, cF), FillWorld(e, a.m.addr, w, cIn), cF).1);
      }
      assert inv(BodyRun(e, root, i, next, a, w, cIn).1);
    }
  }

  /** An invariant that emits, fills and inserts keep holds at the end of the save. */
  lemma SaveInvariant(e: Env, root: Ctx, ok: Admits, inv: Chain -> bool, cur: map<nat, nat>, w: World)
    requires Invariant(e, root, ok, inv) && inv(InitialChain(e, cur))
    requires |e.builders| > 0 ==> ok(0, 0, Arg(root, Msg(Cur(e, InitialChain(e, cur), 0))))
    ensures inv(Save(e, root, cur, w).1)
  {
    var p := (i: nat, h: nat) => LayerKeepsInvariant(e, root, ok, inv, i, h);
    forall i, h | 0 <= i < |e.builders| && 0 <= h < |Hooks(e, i)| && p(i, h + 1) ensures p(i, h) {
      HookKeepsInvariant(e, root, ok, inv, i, h);
    }
    forall i | 0 <= i < |e.builders| && p(i + 1, 0) ensures p(i, |Hooks(e, i)|) {
      BodyKeepsInvariant(e, root, ok, inv, i);
    }
    if |e.builders| > 0 {
      Outwards(e, p, 0, 0);
      assert At(e, root, 0, 0) == Level(e, root, 0);
    }
  }

  // ---------------------------------------------------------------- contexts

  /** The hooks at position `k` forward only contexts in `f` when called with one in `f`. */
  ghost predicate ContextsStay(e: Env, k: nat, f: Ctx -> bool) {
    k < |e.builders| ==> forall h, a: Arg, w, past ::
      0 <= h < |Hooks(e, k)| && f(a.ctx) ==> f(Hooks(e, k)[h].before(a, w, past).1.ctx)
  }

  /** Every stack is entered at the root context; at position `k`, and in the batch insert when `k` is
      the last position, only contexts in `f` are seen. */
  ghost predicate Isolated(e: Env, root: Ctx, k: nat, f: Ctx -> bool, ev: Event) {
    match ev
    case In(i, h, a) => (h == 0 ==> a.ctx == root) && (i == k ==> f(a.ctx))
    case Batch(ctx, _) => k + 1 == |e.builders| ==> f(ctx)
    case _ => true
  }

  /** MAIN: whatever the hooks of the other builders do to their contexts, builder `k` sees only what its
      own hooks make of the root context, and the batch insert only what the last builder's hooks make of
      it: any set of contexts that holds the root and is closed under those hooks holds them all. */
  lemma ContextIsolation(e: Env, root: Ctx, cur: map<nat, nat>, w: World, k: nat, f: Ctx -> bool)
    requires f(root) && ContextsStay(e, k, f)
    ensures forall ev :: ev in Save(e, root, cur, w).1.trace ==> Isolated(e, root, k, f, ev)
  {
    var ok: Admits := (i: nat, h: nat, a: Arg) => MayEnter(e, root, k, f, i, h, a);
    var inv := (c: Chain) => AllIsolated(e, root, k, f, c.trace);
    IsolationKept(e, root, k, f, ok, inv);
    SaveInvariant(e, root, ok, inv, cur, w);
  }

  /** Stacks are entered at the root context; builder `k`'s layers, and the batch insert when it is the last
      builder, with a context in `f`. */
  ghost predicate MayEnter(e: Env, root: Ctx, k: nat, f: Ctx -> bool, i: nat, h: nat, a: Arg) {
    && (h == 0 && i < |e.builders| ==> a.ctx == root)
    && ((i == k && k < |e.builders|) || (i == |e.builders| && k + 1 == |e.builders|) ==> f(a.ctx))
  }

  ghost predicate AllIsolated(e: Env, root: Ctx, k: nat, f: Ctx -> bool, t: seq<Event>) {
    forall ev :: ev in t ==> Isolated(e, root, k, f, ev)
  }

  lemma IsolatedEmit(e: Env, root: Ctx, k: nat, f: Ctx -> bool, t: seq<Event>, ev: Event)
    ensures AllIsolated(e, root, k, f, t) && Isolated(e, root, k, f, ev) ==> AllIsolated(e, root, k, f, t + [ev])
  {
  }

  lemma IsolationKept(e: Env, root: Ctx, k: nat, f: Ctx -> bool, ok: Admits, inv: Chain -> bool)
    requires f(root) && ContextsStay(e, k, f)
    requires forall i: nat, h: nat, a :: ok(i, h, a) == MayEnter(e, root, k, f, i, h, a)
    requires forall c: Chain :: inv(c) == AllIsolated(e, root, k, f, c.trace)
    ensures Invariant(e, root, ok, inv)
  {
    forall t, ev { IsolatedEmit(e, root, k, f, t, ev); }
    assert HooksAdmit(e, ok);
    assert EmitsKeep(e, ok, inv);
    assert BatchKeeps(e, ok, inv);
  }

  // ---------------------------------------------------------------- the batch insert's context

  /** The last two events are the entry of the last body with context `ctx` and the filling of its slot. */
  predicate JustFilled(e: Env, ctx: Ctx, t: seq<Event>) {
    && |t| >= 2
    && t[|t| - 1].Fill? && t[|t| - 1].i + 1 == |e.builders|
    && t[|t| - 2].In? && t[|t| - 2].i + 1 == |e.builders|
    && t[|t| - 2].h == |Hooks(e, t[|t| - 2].i)| && t[|t| - 2].a.ctx == ctx
  }

  /** Every batch insert comes right after that, and runs in that context. */
  ghost predicate BatchesInContext(e: Env, t: seq<Event>) {
    forall k :: 0 <= k < |t| && t[k].Batch? ==> JustFilled(e, t[k].ctx, t[..k])
  }

  lemma EmitInContext(e: Env, t: seq<Event>, ev: Event)
    requires BatchesInContext(e, t) && (ev.Batch? ==> JustFilled(e, ev.ctx, t))
    ensures BatchesInContext(e, t + [ev])
  {
    forall k | 0 <= k < |t + [ev]| && (t + [ev])[k].Batch?
      ensures JustFilled(e, (t + [ev])[k].ctx, (t + [ev])[..k])
    {
      assert (t + [ev])[..k] == t[..k];
      assert t[..|t|] == t;
    }
  }

  /** Layer (i, h) keeps that; the batch insert, when it is called as the last body calls it. */
  ghost predicate LayerInContext(e: Env, root: Ctx, i: nat, h: nat) {
    Place(e, i, h) ==> forall a: Arg, w: World, c: Chain ::
      BatchesInContext(e, c.trace) && (i == |e.builders| ==> JustFilled(e, a.ctx, c.trace)) ==>
        BatchesInContext(e, At(e, root, i, h)(a, w, c).1.trace)
  }

  lemma HookInContext(e: Env, root: Ctx, i: nat, h: nat)
    requires i < |e.builders| && h < |Hooks(e, i)| && LayerInContext(e, root, i, h + 1)
    ensures LayerInContext(e, root, i, h)
  {
    var hook, next := Hooks(e, i)[h], At(e, root, i, h + 1);
    var rel := (c: Chain, d: Chain) => BatchesInContext(e, c.trace) ==> BatchesInContext(e, d.trace);
    forall a: Arg, w: World, c: Chain | BatchesInContext(e, c.trace)
      ensures BatchesInContext(e, Layer(e, root, i, h)(a, w, c).1.trace)
    {
      EmitInContext(e, c.trace, In(i, h, a));
      DriveKeeps(hook, a, [], hook.limit(a, w), next, w, c.Emit(In(i, h, a)), _ => true, rel);
      EmitInContext(e, Wrap(hook, next)(a, w, c.Emit(In(i, h, a))).1.trace, Out(i, h));
    }
  }

  lemma BodyInContext(e: Env, root: Ctx, i: nat)
    requires i < |e.builders| && LayerInContext(e, root, i + 1, 0)
    ensures LayerInContext(e, root, i, |Hooks(e, i)|)
  {
    var h, next := |Hooks(e, i)|, Level(e, root, i + 1);
    assert At(e, root, i + 1, 0) == next;
    forall a: Arg, w: World, c: Chain | BatchesInContext(e, c.trace)
      ensures BatchesInContext(e, Layer(e, root, i, h)(a, w, c).1.trace)
    {
      var cIn := c.Emit(In(i, h, a));
      EmitInContext(e, c.trace, In(i, h, a));
      if a.m.Msg? && e.check(MutAt(w, Cur(e, cIn, i)).fields).None? {
        var cF := FillChain(e, i, a.m.addr, w, cIn);
        EmitInContext(e, cIn.trace, Fill(i, |cIn.heap|));
        assert cF.trace == cIn.trace + [Fill(i, |cIn.heap|)] && cIn.trace[|cIn.trace| - 1] == In(i, h, a);
        assert i + 1 == |e.builders| ==> JustFilled(e, a.ctx, cF.trace);
        var c2 := next(NextArg(e, root, i, a, cF), FillWorld(e, a.m.addr, w, cIn), cF).1;
        assert BatchesInContext(e, c2.trace);
        EmitInContext(e, c2.trace, Crash);
      }
      var d := BodyRun(e, root, i, next, a, w, cIn).1;
      assert BatchesInContext(e, d.trace);
      EmitInContext(e, d.trace, Out(i, h));
      BodyLayer(e, root, i, a, w, c);
    }
  }

  /** MAIN: whatever the hooks do, every batch insert runs in exactly the context that the last builder's body was
      entered with right before it: what the last builder's hooks made of theirs reaches the insert. */
  lemma BatchSeesLastContext(e: Env, root: Ctx, cur: map<nat, nat>, w: World)
    ensures BatchesInContext(e, Save(e, root, cur, w).1.trace)
  {
    var p := (i: nat, h: nat) => LayerInContext(e, root, i, h);
    forall a: Arg, w: World, c: Chain | BatchesInContext(e, c.trace) && JustFilled(e, a.ctx, c.trace)
      ensures BatchesInContext(e, BatchCreate(e, a.ctx, w, c).1.trace)
    {
      EmitInContext(e, c.trace, Batch(a.ctx, c.specs));
      EmitInContext(e, c.Emit(Batch(a.ctx, c.specs)).trace, Crash);
    }
    forall i, h | 0 <= i < |e.builders| && 0 <= h < |Hooks(e, i)| && p(i, h + 1) ensures p(i, h) {
      HookInContext(e, root, i, h);
    }
    forall i | 0 <= i < |e.builders| && p(i + 1, 0) ensures p(i, |Hooks(e, i)|) {
      BodyInContext(e, root, i);
    }
    if |e.builders| > 0 {
      Outwards(e, p, 0, 0);
      assert At(e, root, 0, 0) == Level(e, root, 0);
    }
  }

  // ---------------------------------------------------------------- validated data

  /** Every hook forwards the mutation object it was called with (it may edit it in place). */
  ghost predicate SameObject(e: Env) {
    forall i, h, a, w, past :: 0 <= i < |e.builders| && 0 <= h < |Hooks(e, i)| ==>
      Hooks(e, i)[h].before(a, w, past).1.m == a.m
  }

  /** Every spec object carries exactly the columns of the payload it was built from, which passed the check. */
  ghost predicate Validated(e: Env, c: Chain) {
    forall x :: 0 <= x < |c.heap| ==> c.heap[x].row == e.row(c.heap[x].from) && e.check(c.heap[x].from).None?
  }

  ghost predicate SameCur(e: Env, c: Chain, d: Chain) {
    forall i :: 0 <= i < |e.builders| ==> Cur(e, d, i) == Cur(e, c, i)
  }

  /** MAIN: with hooks that edit the mutation in place and forward the same object, every spec of the run,
      hence every row of every batch insert, was built from a payload that passed the check as it stood
      when the spec was built. */
  lemma ValidatedDataIsSent(e: Env, root: Ctx, cur: map<nat, nat>, w: World)
    requires SameObject(e)
    ensures Validated(e, Save(e, root, cur, w).1)
  {
    var n, c0 := |e.builders|, InitialChain(e, cur);
    var ok: Admits := (i: nat, h: nat, a: Arg) => i < n ==> a.m == Msg(Cur(e, c0, i));
    var inv := (c: Chain) => SameCur(e, c0, c) && Validated(e, c);
    forall i, a: Arg, w, c | 0 <= i < n && a.m.Msg? && ok(i, |Hooks(e, i)|, a) && inv(c)
                             && e.check(MutAt(w, Cur(e, c, i)).fields).None?
      ensures inv(FillChain(e, i, a.m.addr, w, c))
      ensures ok(i + 1, 0, NextArg(e, root, i, a, FillChain(e, i, a.m.addr, w, c)))
    {
      FillValidates(e, root, i, a, w, c0, c);
    }
    forall a: Arg, w, c | inv(c) ensures inv(BatchCreate(e, a.ctx, w, c).1) {
      assert Validated(e, BatchCreate(e, a.ctx, w, c).1);
    }
    SaveInvariant(e, root, ok, inv, cur, w);
  }

  lemma FillValidates(e: Env, root: Ctx, i: nat, a: Arg, w: World, c0: Chain, c: Chain)
    requires i < |e.builders| && a.m == Msg(Cur(e, c0, i))
    requires SameCur(e, c0, c) && Validated(e, c) && e.check(MutAt(w, Cur(e, c, i)).fields).None?
    ensures SameCur(e, c0, FillChain(e, i, a.m.addr, w, c)) && Validated(e, FillChain(e, i, a.m.addr, w, c))
    ensures i + 1 < |e.builders| ==>
      NextArg(e, root, i, a, FillChain(e, i, a.m.addr, w, c)).m == Msg(Cur(e, c0, i + 1))
  {
    var d := FillChain(e, i, a.m.addr, w, c);
    forall j | 0 <= j < |e.builders| ensures Cur(e, d, j) == Cur(e, c0, j) {
      assert Cur(e, c, j) == Cur(e, c0, j);
      assert Cur(e, c, i) == Cur(e, c0, i);
    }
  }
}
