/** Induction over the layers of the bulk chain, from the batch insert outwards. The modules about bulk saves
    say what a layer does, and prove one step for each kind of layer. */
module BulkInduction {
  import opened Entity
  import opened Onion
  import opened Bulk

  /** A layer of a builder, or the batch insert as layer 0 of level n. */
  predicate Place(e: Env, i: nat, h: nat) {
    if i < |e.builders| then h <= |Hooks(e, i)| else i == |e.builders| && h == 0
  }

  function At(e: Env, root: Ctx, i: nat, h: nat): Mutator
    requires Place(e, i, h)
  {
    if i < |e.builders| then Layer(e, root, i, h) else Level(e, root, i)
  }

  /** The innermost layer is the body, entered and left. */
  lemma BodyLayer(e: Env, root: Ctx, i: nat, a: Arg, w: World, c: Chain)
    requires i < |e.builders|
    ensures var h := |Hooks(e, i)|;
      var (w1, c1, o) := BodyRun(e, root, i, Level(e, root, i + 1), a, w, c.Emit(In(i, h, a)));
      Layer(e, root, i, h)(a, w, c) == (w1, c1.Emit(Out(i, h)), o)
  {
    assert Layer(e, root, i, |Hooks(e, i)|) == Traced(i, |Hooks(e, i)|, Body(e, root, i, Level(e, root, i + 1)));
  }

  /** From the next hook, or the body, of the same builder to the hook around it. */
  ghost predicate HookSteps(e: Env, p: (nat, nat) -> bool) {
    forall i, h :: 0 <= i < |e.builders| && 0 <= h < |Hooks(e, i)| && p(i, h + 1) ==> p(i, h)
  }

  /** From a level to the body that calls it. */
  ghost predicate BodySteps(e: Env, p: (nat, nat) -> bool) {
    forall i :: 0 <= i < |e.builders| && p(i + 1, 0) ==> p(i, |Hooks(e, i)|)
  }

  /** What holds of the batch insert, and outwards through every body and every hook, holds of every layer. */
  lemma {:induction false} Outwards(e: Env, p: (nat, nat) -> bool, i: nat, h: nat)
    requires Place(e, i, h)
    requires p(|e.builders|, 0) && HookSteps(e, p) && BodySteps(e, p)
    ensures p(i, h)
    decreases |e.builders| - i, if i < |e.builders| then |Hooks(e, i)| - h else 0
  {
    if i < |e.builders| {
      if h < |Hooks(e, i)| {
        Outwards(e, p, i, h + 1);
      } else {
        Outwards(e, p, i + 1, 0);
      }
    }
  }

  // ---------------------------------------------------------------- hooks that call next once

  ghost predicate CallOnce(e: Env) {
    forall i, h :: 0 <= i < |e.builders| && 0 <= h < |Hooks(e, i)| ==> CallsExactly(Hooks(e, i)[h], 1)
  }

  /** Then a run goes down to the batch insert, or to the first body that refuses, and comes up again:
      `enter` is what holds when a layer is called, `leave` what holds when it returns. */
  datatype Passage = Passage(
    enter: (nat, nat, Arg, World, Chain) -> bool,
    leave: (nat, nat, World, Chain, Outcome) -> bool)

  ghost predicate EmitsPass(e: Env, x: Passage) {
    && (forall i, h, a, w, c :: x.enter(i, h, a, w, c) ==> x.enter(i, h, a, w, c.Emit(In(i, h, a))))
    && (forall i, h, w, c, o :: x.leave(i, h, w, c, o) ==> x.leave(i, h, w, c.Emit(Out(i, h)), o))
  }

  ghost predicate BeforePasses(e: Env, x: Passage, i: nat, h: nat, a: Arg, w: World, c: Chain)
    requires i < |e.builders| && h < |Hooks(e, i)|
  {
    x.enter(i, h, a, w, c) ==>
      var (w1, a1) := Hooks(e, i)[h].before(a, w, []);
      x.enter(i, h + 1, a1, w1, c)
  }

  ghost predicate FinishPasses(e: Env, x: Passage, i: nat, h: nat, a: Arg, w: World, c: Chain, r: Outcome)
    requires i < |e.builders| && h < |Hooks(e, i)|
  {
    x.leave(i, h + 1, w, c, r) ==>
      var (w1, r1) := Hooks(e, i)[h].finish(a, w, [r]);
      x.leave(i, h, w1, c, r1)
  }

  ghost predicate HooksPass(e: Env, x: Passage) {
    && (forall i, h, a, w, c :: 0 <= i < |e.builders| && 0 <= h < |Hooks(e, i)| ==> BeforePasses(e, x, i, h, a, w, c))
    && (forall i, h, a, w, c, r :: 0 <= i < |e.builders| && 0 <= h < |Hooks(e, i)| ==>
         FinishPasses(e, x, i, h, a, w, c, r))
  }

  /** Body `i` returns the error from below, or settles mutation `m`. */
  ghost predicate Unwinds(e: Env, x: Passage, i: nat, m: nat)
    requires i < |e.builders|
  {
    forall w, c, o :: x.leave(i + 1, 0, w, c, o) ==>
      if o.Err? then x.leave(i, |Hooks(e, i)|, w, c, o)
      else
        var (w1, c1, o1) := Settle(i, m, w, c);
        x.leave(i, |Hooks(e, i)|, w1, c1, o1)
  }

  ghost predicate BodyPasses(e: Env, root: Ctx, x: Passage, i: nat, a: Arg, w: World, c: Chain)
    requires i < |e.builders|
  {
    if a.m.Foreign? then x.leave(i, |Hooks(e, i)|, w, c, Err(UnexpectedMutationType))
    else
      match e.check(MutAt(w, Cur(e, c, i)).fields)
      case Some(err) => x.leave(i, |Hooks(e, i)|, w, c, Err(err))
      case None =>
        var w1, c1 := FillWorld(e, a.m.addr, w, c), FillChain(e, i, a.m.addr, w, c);
        x.enter(i + 1, 0, NextArg(e, root, i, a, c1), w1, c1) && Unwinds(e, x, i, a.m.addr)
  }

  ghost predicate BodiesPass(e: Env, root: Ctx, x: Passage) {
    forall i, a, w, c :: 0 <= i < |e.builders| && x.enter(i, |Hooks(e, i)|, a, w, c) ==>
      BodyPasses(e, root, x, i, a, w, c)
  }

  ghost predicate BatchPasses(e: Env, x: Passage) {
    forall a, w, c :: x.enter(|e.builders|, 0, a, w, c) ==>
      var (w1, c1, o) := BatchCreate(e, a.ctx, w, c);
      x.leave(|e.builders|, 0, w1, c1, o)
  }

  ghost predicate EveryStepPasses(e: Env, root: Ctx, x: Passage) {
    EmitsPass(e, x) && HooksPass(e, x) && BodiesPass(e, root, x) && BatchPasses(e, x)
  }

  ghost predicate LayerPasses(e: Env, root: Ctx, x: Passage, i: nat, h: nat) {
    Place(e, i, h) ==> forall a, w, c :: x.enter(i, h, a, w, c) ==>
      var (w1, c1, o) := At(e, root, i, h)(a, w, c);
      x.leave(i, h, w1, c1, o)
  }

  lemma HookPasses(e: Env, root: Ctx, x: Passage, i: nat, h: nat)
    requires CallOnce(e) && EveryStepPasses(e, root, x)
    requires i < |e.builders| && h < |Hooks(e, i)| && LayerPasses(e, root, x, i, h + 1)
    ensures LayerPasses(e, root, x, i, h)
  {
    var hook, next := Hooks(e, i)[h], Layer(e, root, i, h + 1);
    forall a, w, c | x.enter(i, h, a, w, c)
      ensures var (w1, c1, o) := Layer(e, root, i, h)(a, w, c); x.leave(i, h, w1, c1, o)
    {
      var cIn := c.Emit(In(i, h, a));
      DriveOnce(hook, next, a, w, cIn);
      var (w1, a1) := hook.before(a, w, []);
      var (w2, c2, r) := next(a1, w1, cIn);
      assert BeforePasses(e, x, i, h, a, w, cIn) && FinishPasses(e, x, i, h, a, w2, c2, r);
      assert At(e, root, i, h + 1) == next;
      assert x.leave(i, h + 1, w2, c2, r);
    }
  }

  lemma BodyStep(e: Env, root: Ctx, x: Passage, i: nat, next: Mutator, a: Arg, w: World, c: Chain)
    requires i < |e.builders| && BodyPasses(e, root, x, i, a, w, c)
    requires forall a', w', c' :: x.enter(i + 1, 0, a', w', c') ==>
      var (w1, c1, o) := next(a', w', c');
      x.leave(i + 1, 0, w1, c1, o)
    ensures var (w1, c1, o) := BodyRun(e, root, i, next, a, w, c); x.leave(i, |Hooks(e, i)|, w1, c1, o)
  {
    if a.m.Msg? && e.check(MutAt(w, Cur(e, c, i)).fields).None? {
      var wF, cF := FillWorld(e, a.m.addr, w, c), FillChain(e, i, a.m.addr, w, c);
      var (w2, c2, o) := next(NextArg(e, root, i, a, cF), wF, cF);
      assert x.leave(i + 1, 0, w2, c2, o) && Unwinds(e, x, i, a.m.addr);
    }
  }

  lemma BodyPassesUp(e: Env, root: Ctx, x: Passage, i: nat)
    requires EveryStepPasses(e, root, x) && i < |e.builders| && LayerPasses(e, root, x, i + 1, 0)
    ensures LayerPasses(e, root, x, i, |Hooks(e, i)|)
  {
    var h, next := |Hooks(e, i)|, Level(e, root, i + 1);
    assert At(e, root, i + 1, 0) == next;
    forall a, w, c | x.enter(i, h, a, w, c)
      ensures var (w1, c1, o) := Layer(e, root, i, h)(a, w, c); x.leave(i, h, w1, c1, o)
    {
      var cIn := c.Emit(In(i, h, a));
      BodyStep(e, root, x, i, next, a, w, cIn);
    }
  }

  /** A save whose steps all pass: what holds at its start, and what then holds at its end. */
  lemma SavePasses(e: Env, root: Ctx, x: Passage, cur: map<nat, nat>, w: World)
    requires CallOnce(e) && EveryStepPasses(e, root, x) && |e.builders| > 0
    requires var c := InitialChain(e, cur);
      x.enter(0, 0, Arg(root, Msg(Cur(e, c, 0))), DefaultedWorld(e, cur, w, |e.builders|), c)
    ensures var (w1, c1, o) := RunChain(e, root, DefaultedWorld(e, cur, w, |e.builders|), InitialChain(e, cur));
      x.leave(0, 0, w1, c1, o)
  {
    var p := (i: nat, h: nat) => LayerPasses(e, root, x, i, h);
    forall i, h | 0 <= i < |e.builders| && 0 <= h < |Hooks(e, i)| && p(i, h + 1) ensures p(i, h) {
      HookPasses(e, root, x, i, h);
    }
    forall i | 0 <= i < |e.builders| && p(i + 1, 0) ensures p(i, |Hooks(e, i)|) {
      BodyPassesUp(e, root, x, i);
    }
    Outwards(e, p, 0, 0);
    assert At(e, root, 0, 0) == Level(e, root, 0);
  }
}
