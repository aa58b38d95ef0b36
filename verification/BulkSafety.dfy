/** What holds of every run of the bulk chain, whatever the hooks do. */
module BulkSafety {
  import opened Entity
  import opened Onion
  import opened Bulk
  import opened BulkInduction

  // ---------------------------------------------------------------- the most recent entry of a body

  /** Body `j` is entered, or fills its slot. */
  predicate Attempt(e: Env, ev: Event, j: nat)
    requires j < |e.builders|
  {
    (ev.In? && ev.i == j && ev.h == |Hooks(e, j)|) || (ev.Fill? && ev.i == j)
  }

  function LastAttempt(e: Env, t: seq<Event>, j: nat): Option<Event>
    requires j < |e.builders|
  {
    if t == [] then None
    else if Attempt(e, t[|t| - 1], j) then Some(t[|t| - 1])
    else LastAttempt(e, t[..|t| - 1], j)
  }

  /** After trace `t`, slot `s` of builder `j` was filled by the most recent entry of body `j`. */
  predicate Current(e: Env, t: seq<Event>, j: nat, s: Option<nat>)
    requires j < |e.builders|
  {
    && s.Some?
    && var last := LastAttempt(e, t, j);
    last.Some? && last.value.Fill? && last.value.spec == s.value
  }

  /** The event `ev` is safe after trace `t`: no nil slot is dereferenced, and a batch insert finds every
      slot filled by the most recent entry of its body. */
  ghost predicate SafeNext(e: Env, t: seq<Event>, ev: Event) {
    && !ev.Crash?
    && (ev.Batch? ==>
      && |ev.slots| == |e.builders|
      && forall j :: 0 <= j < |e.builders| ==> Current(e, t, j, ev.slots[j]))
  }

  ghost predicate SafeTrace(e: Env, t: seq<Event>) {
    forall k :: 0 <= k < |t| ==> SafeNext(e, t[..k], t[k])
  }

  lemma SafeEmit(e: Env, t: seq<Event>, ev: Event)
    requires SafeTrace(e, t) && SafeNext(e, t, ev)
    ensures SafeTrace(e, t + [ev])
  {
    forall k | 0 <= k < |t + [ev]| ensures SafeNext(e, (t + [ev])[..k], (t + [ev])[k]) {
      assert (t + [ev])[..k] == t[..k];
      assert t[..|t|] == t;
    }
  }

  lemma LastAttemptEmit(e: Env, t: seq<Event>, ev: Event, j: nat)
    requires j < |e.builders|
    ensures LastAttempt(e, t + [ev], j) == if Attempt(e, ev, j) then Some(ev) else LastAttempt(e, t, j)
  {
    assert (t + [ev])[..|t|] == t;
  }

  // ---------------------------------------------------------------- the invariant of level i

  ghost predicate Shaped(e: Env, c: Chain) {
    && |c.nodes| == |c.specs| == |e.builders|
    && c.nodes == c.specs
    && (forall j :: 0 <= j < |c.specs| && c.specs[j].Some? ==> c.specs[j].value < |c.heap|)
    && (forall j, k :: 0 <= j < k < |c.specs| && c.specs[j].Some? ==> c.specs[j] != c.specs[k])
  }

  /** Bodies `0..i` are open: each one's slot is the one its most recent entry filled. */
  ghost predicate Ready(e: Env, i: nat, c: Chain)
    requires i <= |e.builders|
  {
    && Shaped(e, c)
    && SafeTrace(e, c.trace)
    && forall j :: 0 <= j < i ==> Current(e, c.trace, j, c.specs[j])
  }

  /** A step at level `i` or deeper keeps that, and leaves the slots above it alone. */
  ghost predicate Keeps(e: Env, i: nat, c: Chain, d: Chain)
    requires i <= |e.builders|
  {
    Ready(e, i, c) ==>
      && Ready(e, i, d)
      && |c.heap| <= |d.heap|
      && forall j :: 0 <= j < i ==> d.specs[j] == c.specs[j]
  }

  lemma KeepsIsPreorder(e: Env, i: nat)
    requires i <= |e.builders|
    ensures Preorder((c, d) => Keeps(e, i, c, d))
  {
  }

  lemma EmitKeeps(e: Env, i: nat, c: Chain, ev: Event)
    requires i <= |e.builders|
    requires Ready(e, i, c) ==> SafeNext(e, c.trace, ev)
    requires forall j :: 0 <= j < i ==> !Attempt(e, ev, j)
    ensures Keeps(e, i, c, c.Emit(ev))
  {
    if Ready(e, i, c) {
      SafeEmit(e, c.trace, ev);
      forall j | 0 <= j < i ensures Current(e, c.Emit(ev).trace, j, c.specs[j]) {
        LastAttemptEmit(e, c.trace, ev, j);
      }
    }
  }

  lemma BatchKeeps(e: Env, a: Arg, w: World, c: Chain)
    ensures Keeps(e, |e.builders|, c, BatchCreate(e, a.ctx, w, c).1)
  {
    if Ready(e, |e.builders|, c) {
      EmitKeeps(e, |e.builders|, c, Batch(a.ctx, c.specs));
    }
  }

  lemma FillKeeps(e: Env, i: nat, m: nat, w: World, c: Chain)
    requires i < |e.builders|
    ensures Keeps(e, i, c, FillChain(e, i, m, w, c))
    ensures Ready(e, i, c) ==> Ready(e, i + 1, FillChain(e, i, m, w, c))
  {
    if Ready(e, i, c) {
      var d := FillChain(e, i, m, w, c);
      var ev := d.trace[|c.trace|];
      SafeEmit(e, c.trace, ev);
      forall j | 0 <= j <= i ensures Current(e, d.trace, j, d.specs[j]) {
        LastAttemptEmit(e, c.trace, ev, j);
      }
    }
  }

  lemma BodyKeeps(e: Env, root: Ctx, i: nat, next: Mutator, a: Arg, w: World, c: Chain)
    requires i < |e.builders|
    requires forall a', w', c' :: Keeps(e, i + 1, c', next(a', w', c').1)
    ensures Keeps(e, i, c, BodyRun(e, root, i, next, a, w, c).1)
  {
    if Ready(e, i, c) && a.m.Msg? && e.check(MutAt(w, Cur(e, c, i)).fields).None? {
      var c1 := FillChain(e, i, a.m.addr, w, c);
      FillKeeps(e, i, a.m.addr, w, c);
      var (w2, c2, o) := next(NextArg(e, root, i, a, c1), FillWorld(e, a.m.addr, w, c), c1);
      assert Keeps(e, i + 1, c1, c2);
      assert Current(e, c2.trace, i, c2.specs[i]);
    }
  }

  /** Layer `h` of builder `i` keeps the invariant of its level. */
  ghost predicate LayerKeeps(e: Env, root: Ctx, i: nat, h: nat) {
    Place(e, i, h) ==> forall a, w, c :: Keeps(e, i, c, At(e, root, i, h)(a, w, c).1)
  }

  lemma HookKeeps(e: Env, root: Ctx, i: nat, h: nat)
    requires i < |e.builders| && h < |Hooks(e, i)| && LayerKeeps(e, root, i, h + 1)
    ensures LayerKeeps(e, root, i, h)
  {
    var hook, next := Hooks(e, i)[h], At(e, root, i, h + 1);
    KeepsIsPreorder(e, i);
    forall a, w, c ensures Keeps(e, i, c, Layer(e, root, i, h)(a, w, c).1) {
      EmitKeeps(e, i, c, In(i, h, a));
      DriveKeeps(hook, a, [], hook.limit(a, w), next, w, c.Emit(In(i, h, a)), _ => true, (c, d) => Keeps(e, i, c, d));
      EmitKeeps(e, i, Wrap(hook, next)(a, w, c.Emit(In(i, h, a))).1, Out(i, h));
    }
  }

  lemma BodyLayerKeeps(e: Env, root: Ctx, i: nat)
    requires i < |e.builders| && LayerKeeps(e, root, i + 1, 0)
    ensures LayerKeeps(e, root, i, |Hooks(e, i)|)
  {
    var h, next := |Hooks(e, i)|, Level(e, root, i + 1);
    assert At(e, root, i + 1, 0) == next;
    forall a, w, c ensures Keeps(e, i, c, Layer(e, root, i, h)(a, w, c).1) {
      EmitKeeps(e, i, c, In(i, h, a));
      BodyKeeps(e, root, i, next, a, w, c.Emit(In(i, h, a)));
      EmitKeeps(e, i, BodyRun(e, root, i, next, a, w, c.Emit(In(i, h, a))).1, Out(i, h));
    }
  }

  /** Every layer does, by induction from the batch insert outwards; so the save ends as it began. */
  lemma SaveIsReady(e: Env, root: Ctx, cur: map<nat, nat>, w: World)
    ensures Ready(e, 0, Save(e, root, cur, w).1)
  {
    var p := (i: nat, h: nat) => LayerKeeps(e, root, i, h);
    forall a: Arg, w, c ensures Keeps(e, |e.builders|, c, BatchCreate(e, a.ctx, w, c).1) {
      BatchKeeps(e, a, w, c);
    }
    forall i, h | 0 <= i < |e.builders| && 0 <= h < |Hooks(e, i)| && p(i, h + 1) ensures p(i, h) {
      HookKeeps(e, root, i, h);
    }
    forall i | 0 <= i < |e.builders| && p(i + 1, 0) ensures p(i, |Hooks(e, i)|) {
      BodyLayerKeeps(e, root, i);
    }
    if |e.builders| > 0 {
      Outwards(e, p, 0, 0);
      var c := InitialChain(e, cur);
      assert Ready(e, 0, c);
      var a, v := Arg(root, Msg(Cur(e, c, 0))), DefaultedWorld(e, cur, w, |e.builders|);
      assert Keeps(e, 0, c, At(e, root, 0, 0)(a, v, c).1);
    }
  }

  /** MAIN: in every save, with any hooks (skipping, retrying, swallowing errors, forwarding anything),
      each batch insert finds every slot of the shared specs slice filled, and filled by the most
      recent entry of that builder's body; no nil slot is ever dereferenced. */
  lemma BatchSeesOnlyCurrentSpecs(e: Env, root: Ctx, cur: map<nat, nat>, w: World)
    ensures SafeTrace(e, Save(e, root, cur, w).1.trace)
  {
    SaveIsReady(e, root, cur, w);
  }

  /** The two slices always name the same pairs of objects, and no two builders share one. */
  lemma SlotsAreDistinct(e: Env, root: Ctx, cur: map<nat, nat>, w: World)
    ensures Shaped(e, Save(e, root, cur, w).1)
  {
    SaveIsReady(e, root, cur, w);
  }
}
