/** What the layers of a bulk save hand back to the hooks, and what a successful save has in its slots. */
module BulkResults {
  import opened Entity
  import opened Onion
  import opened Bulk
  import opened BulkInduction

  /** A body that succeeds hands the node in its slot to the hooks around it; the mutation it was called with is
      marked done and points to that node. */
  lemma BodyReturnsItsNode(e: Env, root: Ctx, i: nat, a: Arg, w: World, c: Chain)
    requires i < |e.builders|
    ensures var (w1, c1, o) := Layer(e, root, i, |Hooks(e, i)|)(a, w, c);
      o.Ok? ==>
        && i < |c1.nodes| && c1.nodes[i].Some?
        && o.v == Node(c1.nodes[i].value)
        && a.m.Msg? && MutAt(w1, a.m.addr).done && MutAt(w1, a.m.addr).id == c1.nodes[i]
  {
    var h, next, cIn := |Hooks(e, i)|, Level(e, root, i + 1), c.Emit(In(i, |Hooks(e, i)|, a));
    var (w2, c2, o2) := BodyRun(e, root, i, next, a, w, cIn);
    BodyLayer(e, root, i, a, w, c);
    if o2.Ok? {
      var cF := FillChain(e, i, a.m.addr, w, cIn);
      var (w3, c3, o3) := next(NextArg(e, root, i, a, cF), FillWorld(e, a.m.addr, w, cIn), cF);
      assert (w2, c2, o2) == Settle(i, a.m.addr, w3, c3);
    }
  }

  // ---------------------------------------------------------------- success means filled slots

  /** The hook makes no success up: it succeeds only if some call of `next` did. */
  ghost predicate MakesNothingUp(h: Hook<Arg, World, Outcome>) {
    forall a, w, past: seq<Outcome> :: h.finish(a, w, past).1.Ok? ==> exists t :: 0 <= t < |past| && past[t].Ok?
  }

  ghost predicate NothingMadeUp(e: Env) {
    forall i, h :: 0 <= i < |e.builders| && 0 <= h < |Hooks(e, i)| ==> MakesNothingUp(Hooks(e, i)[h])
  }

  /** The slots of builders `i..n` hold nodes. */
  ghost predicate FilledFrom(e: Env, i: nat, c: Chain) {
    |c.nodes| == |e.builders| && forall j :: i <= j < |c.nodes| ==> c.nodes[j].Some?
  }

  /** A filled slot stays filled. */
  ghost predicate SlotsStay(c: Chain, d: Chain) {
    |d.nodes| == |c.nodes| && forall j :: 0 <= j < |c.nodes| && c.nodes[j].Some? ==> d.nodes[j].Some?
  }

  /** Layer (i, h) keeps filled slots, and when it succeeds those from `i` on are filled. */
  ghost predicate LayerFills(e: Env, root: Ctx, i: nat, h: nat) {
    Place(e, i, h) ==> forall a: Arg, w: World, c: Chain :: |c.nodes| == |e.builders| ==>
      var (w1, c1, o) := At(e, root, i, h)(a, w, c);
      SlotsStay(c, c1) && (o.Ok? ==> FilledFrom(e, i, c1))
  }

  lemma {:induction false} RunKeepsSlots(
      h: Hook<Arg, World, Outcome>, next: Mutator, a: Arg, w: World, c: Chain,
      ws: seq<World>, cs: seq<Chain>, os: seq<Outcome>, s: nat, t: nat)
    requires Ran(h, next, a, w, c, ws, cs, os) && s <= t <= |os|
    requires forall a', w', c': Chain :: |c'.nodes| == |c.nodes| ==> SlotsStay(c', next(a', w', c').1)
    requires |cs[s].nodes| == |c.nodes|
    ensures SlotsStay(cs[s], cs[t])
    decreases t - s
  {
    if s < t {
      assert RanOnce(h, next, a, ws, cs, os, s);
      var (w1, a1) := h.before(a, ws[s], os[..s]);
      assert SlotsStay(cs[s], next(a1, w1, cs[s]).1);
      RunKeepsSlots(h, next, a, w, c, ws, cs, os, s + 1, t);
    }
  }

  lemma HookFills(e: Env, root: Ctx, i: nat, h: nat)
    requires i < |e.builders| && h < |Hooks(e, i)| && MakesNothingUp(Hooks(e, i)[h])
    requires LayerFills(e, root, i, h + 1)
    ensures LayerFills(e, root, i, h)
  {
    var hook, next := Hooks(e, i)[h], At(e, root, i, h + 1);
    forall a: Arg, w: World, c: Chain | |c.nodes| == |e.builders|
      ensures var (w1, c1, o) := Layer(e, root, i, h)(a, w, c); SlotsStay(c, c1) && (o.Ok? ==> FilledFrom(e, i, c1))
    {
      var cIn := c.Emit(In(i, h, a));
      var ws, cs, os := TheRun(hook, next, a, w, cIn);
      var n := |os|;
      RunKeepsSlots(hook, next, a, w, cIn, ws, cs, os, 0, n);
      if hook.finish(a, ws[n], os).1.Ok? {
        var t :| 0 <= t < n && os[t].Ok?;
        RunKeepsSlots(hook, next, a, w, cIn, ws, cs, os, 0, t);
        assert RanOnce(hook, next, a, ws, cs, os, t);
        var (w1, a1) := hook.before(a, ws[t], os[..t]);
        assert next(a1, w1, cs[t]) == (ws[t + 1], cs[t + 1], os[t]);
        RunKeepsSlots(hook, next, a, w, cIn, ws, cs, os, t + 1, n);
      }
    }
  }

  lemma BodyFills(e: Env, root: Ctx, i: nat)
    requires i < |e.builders| && LayerFills(e, root, i + 1, 0)
    ensures LayerFills(e, root, i, |Hooks(e, i)|)
  {
    var h, next := |Hooks(e, i)|, Level(e, root, i + 1);
    assert At(e, root, i + 1, 0) == next;
    forall a: Arg, w: World, c: Chain | |c.nodes| == |e.builders|
      ensures var (w1, c1, o) := Layer(e, root, i, h)(a, w, c); SlotsStay(c, c1) && (o.Ok? ==> FilledFrom(e, i, c1))
    {
      var cIn := c.Emit(In(i, h, a));
      if a.m.Msg? && e.check(MutAt(w, Cur(e, cIn, i)).fields).None? {
        var cF := FillChain(e, i, a.m.addr, w, cIn);
        var (w2, c2, o2) := next(NextArg(e, root, i, a, cF), FillWorld(e, a.m.addr, w, cIn), cF);
        assert cF.nodes[i].Some? && SlotsStay(cF, c2) && SlotsStay(cIn, cF);
        assert o2.Ok? ==> FilledFrom(e, i, c2);
        assert SlotsStay(c2, Settle(i, a.m.addr, w2, c2).1) && FilledFrom(e, i, c2) ==>
          FilledFrom(e, i, Settle(i, a.m.addr, w2, c2).1);
      }
      BodyLayer(e, root, i, a, w, c);
    }
  }

  lemma EveryLayerFills(e: Env, root: Ctx, i: nat, h: nat)
    requires NothingMadeUp(e) && Place(e, i, h)
    ensures LayerFills(e, root, i, h)
  {
    var p := (i: nat, h: nat) => LayerFills(e, root, i, h);
    forall a: Arg, w: World, c: Chain | |c.nodes| == |e.builders|
      ensures var (w1, c1, o) := BatchCreate(e, a.ctx, w, c);
        SlotsStay(c, c1) && (o.Ok? ==> FilledFrom(e, |e.builders|, c1))
    {
    }
    forall i, h | 0 <= i < |e.builders| && 0 <= h < |Hooks(e, i)| && p(i, h + 1) ensures p(i, h) {
      HookFills(e, root, i, h);
    }
    forall i | 0 <= i < |e.builders| && p(i + 1, 0) ensures p(i, |Hooks(e, i)|) {
      BodyFills(e, root, i);
    }
    Outwards(e, p, i, h);
  }

  /** MAIN: with hooks that make no success up, however often they call `next`, a save that succeeds returns n nodes,
      none of them nil. */
  lemma SuccessHasNodes(e: Env, root: Ctx, cur: map<nat, nat>, w: World)
    requires NothingMadeUp(e)
    ensures var (_, c1, r) := Save(e, root, cur, w);
      r.Success? ==> |r.value| == |e.builders| && forall j :: 0 <= j < |e.builders| ==> r.value[j].Some?
  {
    if |e.builders| > 0 {
      EveryLayerFills(e, root, 0, 0);
      assert At(e, root, 0, 0) == Level(e, root, 0);
      assert |InitialChain(e, cur).nodes| == |e.builders|;
    }
  }

  // ---------------------------------------------------------------- retrying

  /** A hook that calls `next` again after an error, up to `n` times, and returns the last result. */
  function Retry(n: nat): Hook<Arg, World, Outcome> {
    Hook((a: Arg, w: World) => n,
         (a: Arg, w: World, past: seq<Outcome>) => past == [] || past[|past| - 1].Err?,
         (a: Arg, w: World, past: seq<Outcome>) => (w, a),
         (a: Arg, w: World, past: seq<Outcome>) => (w, if past == [] then Err(HookError(0)) else past[|past| - 1]))
  }

  /** The attempts: each runs everything inside the hook, with the same argument, in the state the one before
      left; all but the last fail, and only success or exhaustion ends them. */
  ghost predicate Attempts(inside: Mutator, n: nat, a: Arg, w: World, c: Chain,
                           ws: seq<World>, cs: seq<Chain>, os: seq<Outcome>)
  {
    && |ws| == |cs| == |os| + 1
    && 1 <= |os| <= n
    && ws[0] == w && cs[0] == c
    && (forall t :: 0 <= t < |os| ==> (ws[t + 1], cs[t + 1], os[t]) == inside(a, ws[t], cs[t]))
    && (forall t :: 0 <= t < |os| - 1 ==> os[t].Err?)
    && (os[|os| - 1].Ok? || |os| == n)
  }

  lemma RetryAttempts(inside: Mutator, n: nat, a: Arg, w: World, c: Chain)
      returns (ws: seq<World>, cs: seq<Chain>, os: seq<Outcome>)
    requires n > 0
    ensures Attempts(inside, n, a, w, c, ws, cs, os)
    ensures Wrap(Retry(n), inside)(a, w, c) == (ws[|os|], cs[|os|], os[|os| - 1])
  {
    ws, cs, os := TheRun(Retry(n), inside, a, w, c);
    assert Retry(n).again(a, w, []);
    forall t | 0 <= t < |os| ensures (ws[t + 1], cs[t + 1], os[t]) == inside(a, ws[t], cs[t]) {
      assert RanOnce(Retry(n), inside, a, ws, cs, os, t);
    }
    forall t | 0 <= t < |os| - 1 ensures os[t].Err? {
      assert RanOnce(Retry(n), inside, a, ws, cs, os, t + 1);
      assert os[..t + 1][t] == os[t];
    }
  }

  /** MAIN: a save whose outermost hook retries: it returns the nodes if the last attempt succeeds, and the last
      error if all fail; earlier errors do not come back. */
  lemma RetriedSave(e: Env, n: nat, root: Ctx, cur: map<nat, nat>, w: World)
    requires |e.builders| > 0 && n > 0 && |Hooks(e, 0)| > 0 && Hooks(e, 0)[0] == Retry(n)
    ensures var a, c := Arg(root, Msg(Cur(e, InitialChain(e, cur), 0))), InitialChain(e, cur);
      var start := DefaultedWorld(e, cur, w, |e.builders|);
      exists ws: seq<World>, cs: seq<Chain>, os: seq<Outcome> ::
        && Attempts(Layer(e, root, 0, 1), n, a, start, c.Emit(In(0, 0, a)), ws, cs, os)
        && var (w1, c1, r) := Save(e, root, cur, w);
        && w1 == ws[|os|]
        && r == if os[|os| - 1].Ok? then Success(cs[|os|].nodes) else Failure(os[|os| - 1].e)
  {
    var c := InitialChain(e, cur);
    var a := Arg(root, Msg(Cur(e, c, 0)));
    var start := DefaultedWorld(e, cur, w, |e.builders|);
    var ws, cs, os := RetryAttempts(Layer(e, root, 0, 1), n, a, start, c.Emit(In(0, 0, a)));
    assert Level(e, root, 0) == Layer(e, root, 0, 0);
  }

  /** Such a hook makes nothing up, so its successful save has all its nodes if the other hooks do not either. */
  lemma RetryMakesNothingUp(n: nat)
    ensures MakesNothingUp(Retry(n))
  {
    forall a, w, past: seq<Outcome> | Retry(n).finish(a, w, past).1.Ok?
      ensures exists t :: 0 <= t < |past| && past[t].Ok?
    {
      assert past[|past| - 1].Ok?;
    }
  }
}
