/** The exact shape of a run in which no body refuses: which layers are entered and left, in which order, and
    how often the batch insert is invoked. */
module BulkTrace {
  import opened Entity
  import opened Onion
  import opened Bulk
  import opened BulkInduction
  import opened BulkInvariants

  datatype Mark = Enter(i: nat, h: nat) | Leave(i: nat, h: nat) | Insert

  function MarkOf(ev: Event): seq<Mark> {
    match ev
    case In(i, h, _) => [Enter(i, h)]
    case Out(i, h) => [Leave(i, h)]
    case Batch(_, _) => [Insert]
    case _ => []
  }

  function Shape(t: seq<Event>): seq<Mark> {
    if t == [] then [] else Shape(t[..|t| - 1]) + MarkOf(t[|t| - 1])
  }

  lemma ShapeEmit(t: seq<Event>, ev: Event)
    ensures Shape(t + [ev]) == Shape(t) + MarkOf(ev)
  {
    assert (t + [ev])[..|t|] == t;
  }

  // ---------------------------------------------------------------- what the run should look like

  /** How often hook `h` of position `i` calls `next`. */
  type Counts = (nat, nat) -> nat

  ghost predicate CallCounts(e: Env, count: Counts) {
    forall i, h :: 0 <= i < |e.builders| && 0 <= h < |Hooks(e, i)| ==> CallsExactly(Hooks(e, i)[h], count(i, h))
  }

  /** The nested shape: each layer brackets its `next` calls; a body makes one; level n is one insert. */
  function Expand(e: Env, count: Counts, i: nat, h: nat): seq<Mark>
    requires i < |e.builders| && h <= |Hooks(e, i)|
    decreases |e.builders| - i, 0, |Hooks(e, i)| - h
  {
    [Enter(i, h)]
    + (if h < |Hooks(e, i)| then Repeat(Expand(e, count, i, h + 1), count(i, h)) else ExpandLevel(e, count, i + 1))
    + [Leave(i, h)]
  }

  function ExpandLevel(e: Env, count: Counts, i: nat): seq<Mark>
    requires i <= |e.builders|
    decreases |e.builders| - i, 1
  {
    if i < |e.builders| then Expand(e, count, i, 0) else [Insert]
  }

  // ---------------------------------------------------------------- bodies that refuse

  /** The body of builder `ev.i` is entered. */
  predicate BodyIn(e: Env, ev: Event) {
    ev.In? && ev.i < |e.builders| && ev.h == |Hooks(e, ev.i)|
  }

  /** Some body returned as soon as it was entered: its check failed, or it was given a mutation of another type. */
  ghost predicate Refused(e: Env, t: seq<Event>) {
    exists k :: 0 <= k < |t| - 1 && RefusedAt(e, t, k)
  }

  ghost predicate RefusedAt(e: Env, t: seq<Event>, k: int)
    requires 0 <= k < |t| - 1
  {
    BodyIn(e, t[k]) && t[k + 1].Out?
  }

  lemma RefusedStays(e: Env, t: seq<Event>, ev: Event)
    requires Refused(e, t)
    ensures Refused(e, t + [ev])
  {
    var k :| 0 <= k < |t| - 1 && RefusedAt(e, t, k);
    assert RefusedAt(e, t + [ev], k);
  }

  /** `f` lengthens the trace by `unit`, unless a body refuses. */
  ghost predicate Appends(e: Env, f: Mutator, unit: seq<Mark>) {
    forall a, w, c :: var d := f(a, w, c).1; Lengthens(e, c, d, unit)
  }

  ghost predicate Lengthens(e: Env, c: Chain, d: Chain, unit: seq<Mark>) {
    && (Refused(e, c.trace) ==> Refused(e, d.trace))
    && (Refused(e, d.trace) || Shape(d.trace) == Shape(c.trace) + unit)
  }

  lemma EmitLengthens(e: Env, c: Chain, ev: Event)
    ensures Lengthens(e, c, c.Emit(ev), MarkOf(ev))
  {
    ShapeEmit(c.trace, ev);
    if Refused(e, c.trace) {
      RefusedStays(e, c.trace, ev);
    }
  }

  lemma LengthensTwice(e: Env, c: Chain, d: Chain, f: Chain, u: seq<Mark>, v: seq<Mark>)
    requires Lengthens(e, c, d, u) && Lengthens(e, d, f, v)
    ensures Lengthens(e, c, f, u + v)
  {
    assert (Shape(c.trace) + u) + v == Shape(c.trace) + (u + v);
  }

  // ---------------------------------------------------------------- one lemma per kind of layer

  lemma HookAppends(e: Env, root: Ctx, i: nat, h: nat, unit: seq<Mark>, k: nat)
    requires i < |e.builders| && h < |Hooks(e, i)| && CallsExactly(Hooks(e, i)[h], k)
    requires Appends(e, Layer(e, root, i, h + 1), unit)
    ensures Appends(e, Layer(e, root, i, h), [Enter(i, h)] + Repeat(unit, k) + [Leave(i, h)])
  {
    var hook, next := Hooks(e, i)[h], Layer(e, root, i, h + 1);
    forall a, w, c
      ensures Lengthens(e, c, Layer(e, root, i, h)(a, w, c).1, [Enter(i, h)] + Repeat(unit, k) + [Leave(i, h)])
    {
      var cIn := c.Emit(In(i, h, a));
      EmitLengthens(e, c, In(i, h, a));
      assert forall a', w', c' :: Lengthens(e, c', next(a', w', c').1, unit);
      DriveRepeats(hook, k, a, [], hook.limit(a, w), next, w, cIn,
                   (d: Chain) => Refused(e, d.trace), (d: Chain) => Shape(d.trace), unit);
      var d := Wrap(hook, next)(a, w, cIn).1;
      LengthensTwice(e, c, cIn, d, [Enter(i, h)], Repeat(unit, k));
      EmitLengthens(e, d, Out(i, h));
      LengthensTwice(e, c, d, d.Emit(Out(i, h)), [Enter(i, h)] + Repeat(unit, k), [Leave(i, h)]);
    }
  }

  /** A body that refuses shows in the trace. */
  lemma RefusalShows(e: Env, i: nat, a: Arg, c: Chain)
    requires i < |e.builders|
    ensures Refused(e, c.Emit(In(i, |Hooks(e, i)|, a)).Emit(Out(i, |Hooks(e, i)|)).trace)
  {
    assert RefusedAt(e, c.Emit(In(i, |Hooks(e, i)|, a)).Emit(Out(i, |Hooks(e, i)|)).trace, |c.trace|);
  }

  /** One that does not fills its slot, runs the next level, and may crash on the way out. */
  lemma BodyLengthens(e: Env, root: Ctx, i: nat, next: Mutator, unit: seq<Mark>, a: Arg, w: World, c: Chain)
    requires i < |e.builders| && Appends(e, next, unit)
    requires a.m.Msg? && e.check(MutAt(w, Cur(e, c, i)).fields).None?
    ensures Lengthens(e, c, BodyRun(e, root, i, next, a, w, c).1, unit)
  {
    var m := a.m.addr;
    var wF, cF := FillWorld(e, m, w, c), FillChain(e, i, m, w, c);
    EmitLengthens(e, c, Fill(i, |c.heap|));
    var (w2, c2, o) := next(NextArg(e, root, i, a, cF), wF, cF);
    assert Lengthens(e, cF, c2, unit);
    LengthensTwice(e, c, cF, c2, [], unit);
    assert [] + unit == unit && unit + [] == unit;
    EmitLengthens(e, c2, Crash);
    LengthensTwice(e, c, c2, c2.Emit(Crash), unit, []);
  }

  lemma BodyAppends(e: Env, root: Ctx, i: nat, unit: seq<Mark>)
    requires i < |e.builders| && Appends(e, Level(e, root, i + 1), unit)
    ensures Appends(e, Layer(e, root, i, |Hooks(e, i)|),
                    [Enter(i, |Hooks(e, i)|)] + unit + [Leave(i, |Hooks(e, i)|)])
  {
    var h, next := |Hooks(e, i)|, Level(e, root, i + 1);
    forall a, w, c ensures Lengthens(e, c, Layer(e, root, i, h)(a, w, c).1, [Enter(i, h)] + unit + [Leave(i, h)]) {
      var cIn := c.Emit(In(i, h, a));
      EmitLengthens(e, c, In(i, h, a));
      var d := BodyRun(e, root, i, next, a, w, cIn).1;
      EmitLengthens(e, d, Out(i, h));
      if a.m.Foreign? || e.check(MutAt(w, Cur(e, cIn, i)).fields).Some? {
        RefusalShows(e, i, a, c);
      } else {
        BodyLengthens(e, root, i, next, unit, a, w, cIn);
        LengthensTwice(e, c, cIn, d, [Enter(i, h)], unit);
        LengthensTwice(e, c, d, d.Emit(Out(i, h)), [Enter(i, h)] + unit, [Leave(i, h)]);
      }
    }
  }

  lemma BatchAppends(e: Env, root: Ctx)
    ensures Appends(e, Level(e, root, |e.builders|), [Insert])
  {
    forall a: Arg, w, c ensures Lengthens(e, c, BatchCreate(e, a.ctx, w, c).1, [Insert]) {
      var d := c.Emit(Batch(a.ctx, c.specs));
      EmitLengthens(e, c, Batch(a.ctx, c.specs));
      EmitLengthens(e, d, Crash);
      LengthensTwice(e, c, d, d.Emit(Crash), [Insert], []);
      assert [Insert] + [] == [Insert];
    }
  }

  function ShapeOf(e: Env, count: Counts, i: nat, h: nat): seq<Mark>
    requires Place(e, i, h)
  {
    if i < |e.builders| then Expand(e, count, i, h) else [Insert]
  }

  ghost predicate LayerAppends(e: Env, root: Ctx, count: Counts, i: nat, h: nat) {
    Place(e, i, h) ==> Appends(e, At(e, root, i, h), ShapeOf(e, count, i, h))
  }

  /** With hooks that call `next` as often as `count` says, whatever else they do, a save in which no body
      refuses runs exactly the nested shape. */
  lemma UnrefusedShape(e: Env, root: Ctx, count: Counts, cur: map<nat, nat>, w: World)
    requires CallCounts(e, count) && |e.builders| > 0
    ensures var t := Save(e, root, cur, w).1.trace; Refused(e, t) || Shape(t) == Expand(e, count, 0, 0)
  {
    var p := (i: nat, h: nat) => LayerAppends(e, root, count, i, h);
    BatchAppends(e, root);
    forall i, h | 0 <= i < |e.builders| && 0 <= h < |Hooks(e, i)| && p(i, h + 1) ensures p(i, h) {
      HookAppends(e, root, i, h, Expand(e, count, i, h + 1), count(i, h));
    }
    forall i | 0 <= i < |e.builders| && p(i + 1, 0) ensures p(i, |Hooks(e, i)|) {
      BodyAppends(e, root, i, ExpandLevel(e, count, i + 1));
    }
    Outwards(e, p, 0, 0);
    var c := InitialChain(e, cur);
    var d := At(e, root, 0, 0)(Arg(root, Msg(Cur(e, c, 0))), DefaultedWorld(e, cur, w, |e.builders|), c).1;
    assert Lengthens(e, c, d, Expand(e, count, 0, 0));
    assert [] + Expand(e, count, 0, 0) == Expand(e, count, 0, 0);
  }

  // ---------------------------------------------------------------- a refusal spoils the shape

  predicate BodyEnter(e: Env, x: Mark) {
    x.Enter? && x.i < |e.builders| && x.h == |Hooks(e, x.i)|
  }

  /** No body is entered and left at once, and something follows each body's entry. */
  ghost predicate Busy(e: Env, s: seq<Mark>) {
    && (forall k :: 0 <= k < |s| - 1 && BodyEnter(e, s[k]) ==> !s[k + 1].Leave?)
    && (s != [] ==> !BodyEnter(e, s[|s| - 1]))
  }

  lemma {:induction false} BusyRepeat(e: Env, unit: seq<Mark>, k: nat)
    requires Busy(e, unit)
    ensures Busy(e, Repeat(unit, k))
  {
    if k > 0 {
      BusyRepeat(e, unit, k - 1);
    }
  }

  lemma {:induction false} ExpandIsBusy(e: Env, count: Counts, i: nat, h: nat)
    requires i < |e.builders| && h <= |Hooks(e, i)|
    ensures Busy(e, Expand(e, count, i, h))
    decreases |e.builders| - i, |Hooks(e, i)| - h
  {
    if h < |Hooks(e, i)| {
      ExpandIsBusy(e, count, i, h + 1);
      BusyRepeat(e, Expand(e, count, i, h + 1), count(i, h));
    } else if i + 1 < |e.builders| {
      ExpandIsBusy(e, count, i + 1, 0);
      assert Expand(e, count, i + 1, 0)[0] == Enter(i + 1, 0);
    }
  }

  lemma {:induction false} ShapeAppend(t: seq<Event>, u: seq<Event>)
    ensures Shape(t + u) == Shape(t) + Shape(u)
  {
    if u == [] {
      assert t + u == t;
    } else {
      var v, last := u[..|u| - 1], u[|u| - 1];
      assert u == v + [last] && t + u == (t + v) + [last];
      ShapeAppend(t, v);
      ShapeEmit(t + v, last);
      ShapeEmit(v, last);
      assert (Shape(t) + Shape(v)) + MarkOf(last) == Shape(t) + (Shape(v) + MarkOf(last));
    }
  }

  lemma RefusedIsNotBusy(e: Env, t: seq<Event>)
    requires Refused(e, t)
    ensures !Busy(e, Shape(t))
  {
    var k :| 0 <= k < |t| - 1 && RefusedAt(e, t, k);
    assert t == (t[..k] + [t[k]] + [t[k + 1]]) + t[k + 2..];
    ShapeAppend(t[..k] + [t[k]] + [t[k + 1]], t[k + 2..]);
    ShapeEmit(t[..k] + [t[k]], t[k + 1]);
    ShapeEmit(t[..k], t[k]);
    var j := |Shape(t[..k])|;
    assert BodyEnter(e, Shape(t)[j]) && Shape(t)[j + 1].Leave?;
  }

  /** MAIN: with hooks that call `next` as often as `count` says and otherwise do anything (edit or repair
      payloads, write the store, forward other objects, change results), a save runs exactly the nested shape
      given by those numbers if and only if no body refuses. */
  lemma SaveShape(e: Env, root: Ctx, count: Counts, cur: map<nat, nat>, w: World)
    requires CallCounts(e, count) && |e.builders| > 0
    ensures var t := Save(e, root, cur, w).1.trace; Shape(t) == Expand(e, count, 0, 0) <==> !Refused(e, t)
  {
    UnrefusedShape(e, root, count, cur, w);
    ExpandIsBusy(e, count, 0, 0);
    if Refused(e, Save(e, root, cur, w).1.trace) {
      RefusedIsNotBusy(e, Save(e, root, cur, w).1.trace);
    }
  }

  // ---------------------------------------------------------------- when no body refuses

  /** No hook turns a payload that passes the check into one that does not. */
  ghost predicate KeepsValid(e: Env) {
    forall i, h, a, w, past, m :: 0 <= i < |e.builders| && 0 <= h < |Hooks(e, i)|
                                  && e.check(MutAt(w, m).fields).None? ==>
      && e.check(MutAt(Hooks(e, i)[h].before(a, w, past).0, m).fields).None?
      && e.check(MutAt(Hooks(e, i)[h].finish(a, w, past).0, m).fields).None?
  }

  /** Every builder's mutation passes the check. */
  ghost predicate Healthy(e: Env, c: Chain, w: World) {
    forall i :: 0 <= i < |e.builders| ==> e.check(MutAt(w, Cur(e, c, i)).fields).None?
  }

  /** No body has refused, and none was just entered. */
  ghost predicate Clean(e: Env, t: seq<Event>) {
    !Refused(e, t) && (t != [] ==> !BodyIn(e, t[|t| - 1]))
  }

  /** The builders still point at their own, valid mutations, and no body has refused. */
  ghost predicate Good(e: Env, c0: Chain, w: World, c: Chain) {
    SameCur(e, c0, c) && Healthy(e, c0, w) && Clean(e, c.trace)
  }

  /** Level `i` is called with its builder's own mutation (the batch insert, with anything). */
  predicate Own(e: Env, c0: Chain, i: nat, a: Arg) {
    i < |e.builders| ==> a.m == Msg(Cur(e, c0, i))
  }

  lemma EmitClean(e: Env, t: seq<Event>, ev: Event)
    requires Clean(e, t)
    ensures !Refused(e, t + [ev])
    ensures !BodyIn(e, ev) ==> Clean(e, t + [ev])
    ensures BodyIn(e, ev) ==> forall ev': Event :: !ev'.Out? && !ev'.In? ==> Clean(e, t + [ev] + [ev'])
  {
    var u := t + [ev];
    if k :| 0 <= k < |u| - 1 && RefusedAt(e, u, k) {
      assert k < |t| - 1 ==> RefusedAt(e, t, k);
    }
    forall ev': Event | BodyIn(e, ev) && !ev'.Out? && !ev'.In? ensures Clean(e, u + [ev']) {
      if k :| 0 <= k < |u + [ev']| - 1 && RefusedAt(e, u + [ev'], k) {
        assert k < |u| - 1 ==> RefusedAt(e, u, k);
      }
    }
  }

  ghost predicate LayerStaysGood(e: Env, root: Ctx, c0: Chain, i: nat, h: nat) {
    Place(e, i, h) ==> forall a, w, c :: Own(e, c0, i, a) && Good(e, c0, w, c) ==>
      var (w1, c1, _) := At(e, root, i, h)(a, w, c);
      Good(e, c0, w1, c1)
  }

  lemma HookStaysGood(e: Env, root: Ctx, c0: Chain, i: nat, h: nat)
    requires SameObject(e) && KeepsValid(e) && i < |e.builders| && h < |Hooks(e, i)|
    requires LayerStaysGood(e, root, c0, i, h + 1)
    ensures LayerStaysGood(e, root, c0, i, h)
  {
    var hook, next := Hooks(e, i)[h], At(e, root, i, h + 1);
    var ok, good := b => Own(e, c0, i, b), (w', c') => Good(e, c0, w', c');
    forall a, w, c | Own(e, c0, i, a) && Good(e, c0, w, c)
      ensures var (w1, c1, _) := Layer(e, root, i, h)(a, w, c); Good(e, c0, w1, c1)
    {
      EmitClean(e, c.trace, In(i, h, a));
      assert Forwards(hook, a, ok) && Keeps(hook, a, good);
      DriveStays(hook, a, [], hook.limit(a, w), next, w, c.Emit(In(i, h, a)), ok, good);
      var (w1, c1, o) := Wrap(hook, next)(a, w, c.Emit(In(i, h, a)));
      EmitClean(e, c1.trace, Out(i, h));
    }
  }

  lemma FillStaysGood(e: Env, c0: Chain, i: nat, a: Arg, w: World, c: Chain)
    requires i < |e.builders| && Good(e, c0, w, c)
    ensures var cIn, m := c.Emit(In(i, |Hooks(e, i)|, a)), Cur(e, c0, i);
      Good(e, c0, FillWorld(e, m, w, cIn), FillChain(e, i, m, w, cIn))
  {
    var cIn, m := c.Emit(In(i, |Hooks(e, i)|, a)), Cur(e, c0, i);
    var d := FillChain(e, i, m, w, cIn);
    EmitClean(e, c.trace, In(i, |Hooks(e, i)|, a));
    assert d.trace == c.trace + [In(i, |Hooks(e, i)|, a)] + [Fill(i, |c.heap|)];
    forall j | 0 <= j < |e.builders| ensures Cur(e, d, j) == Cur(e, c0, j) {
      assert Cur(e, cIn, j) == Cur(e, c0, j);
    }
  }

  lemma SettleStaysGood(e: Env, c0: Chain, i: nat, m: nat, w: World, c: Chain)
    requires Good(e, c0, w, c)
    ensures var (w1, c1, _) := Settle(i, m, w, c); Good(e, c0, w1, c1)
  {
    EmitClean(e, c.trace, Crash);
  }

  lemma BodyStaysGood(e: Env, root: Ctx, c0: Chain, i: nat)
    requires i < |e.builders| && LayerStaysGood(e, root, c0, i + 1, 0)
    ensures LayerStaysGood(e, root, c0, i, |Hooks(e, i)|)
  {
    var h, next := |Hooks(e, i)|, Level(e, root, i + 1);
    assert At(e, root, i + 1, 0) == next;
    forall a, w, c | Own(e, c0, i, a) && Good(e, c0, w, c)
      ensures var (w1, c1, _) := Layer(e, root, i, h)(a, w, c); Good(e, c0, w1, c1)
    {
      var m, cIn := Cur(e, c0, i), c.Emit(In(i, h, a));
      assert Cur(e, cIn, i) == m && e.check(MutAt(w, m).fields).None?;
      FillStaysGood(e, c0, i, a, w, c);
      var wF, cF := FillWorld(e, m, w, cIn), FillChain(e, i, m, w, cIn);
      assert i + 1 < |e.builders| ==> Cur(e, cF, i + 1) == Cur(e, c0, i + 1);
      var (w2, c2, o) := next(NextArg(e, root, i, a, cF), wF, cF);
      SettleStaysGood(e, c0, i, m, w2, c2);
      var (w1, c1, o1) := BodyRun(e, root, i, next, a, w, cIn);
      assert (w1, c1, o1) == if o.Err? then (w2, c2, o) else Settle(i, m, w2, c2);
      assert Good(e, c0, w1, c1);
      EmitClean(e, c1.trace, Out(i, h));
      assert Layer(e, root, i, h)(a, w, c) == (w1, c1.Emit(Out(i, h)), o1);
    }
  }

  lemma BatchStaysGood(e: Env, root: Ctx, c0: Chain)
    ensures LayerStaysGood(e, root, c0, |e.builders|, 0)
  {
    forall a: Arg, w, c | Good(e, c0, w, c)
      ensures var (w1, c1, _) := BatchCreate(e, a.ctx, w, c); Good(e, c0, w1, c1)
    {
      EmitClean(e, c.trace, Batch(a.ctx, c.specs));
      EmitClean(e, c.Emit(Batch(a.ctx, c.specs)).trace, Crash);
    }
  }

  /** For one, no body refuses when the mutations are valid at the start and the hooks keep them valid and
      forward the object they are given. */
  lemma ValidSaveIsNotRefused(e: Env, root: Ctx, cur: map<nat, nat>, w: World)
    requires SameObject(e) && KeepsValid(e)
    requires Healthy(e, InitialChain(e, cur), DefaultedWorld(e, cur, w, |e.builders|))
    ensures !Refused(e, Save(e, root, cur, w).1.trace)
  {
    var c0, v := InitialChain(e, cur), DefaultedWorld(e, cur, w, |e.builders|);
    if |e.builders| > 0 {
      EveryLayerStaysGood(e, root, c0);
      assert Good(e, c0, v, c0) && Own(e, c0, 0, Arg(root, Msg(Cur(e, c0, 0))));
      assert At(e, root, 0, 0) == Level(e, root, 0);
    }
  }

  lemma EveryLayerStaysGood(e: Env, root: Ctx, c0: Chain)
    requires SameObject(e) && KeepsValid(e)
    ensures LayerStaysGood(e, root, c0, 0, 0)
  {
    var p := (i: nat, h: nat) => LayerStaysGood(e, root, c0, i, h);
    BatchStaysGood(e, root, c0);
    forall i, h | 0 <= i < |e.builders| && 0 <= h < |Hooks(e, i)| && p(i, h + 1) ensures p(i, h) {
      HookStaysGood(e, root, c0, i, h);
    }
    forall i | 0 <= i < |e.builders| && p(i + 1, 0) ensures p(i, |Hooks(e, i)|) {
      BodyStaysGood(e, root, c0, i);
    }
    Outwards(e, p, 0, 0);
  }

  // ---------------------------------------------------------------- how many inserts

  function Inserts(s: seq<Mark>): nat {
    if s == [] then 0 else (if s[0].Insert? then 1 else 0) + Inserts(s[1..])
  }

  lemma {:induction false} InsertsAppend(s: seq<Mark>, t: seq<Mark>)
    ensures Inserts(s + t) == Inserts(s) + Inserts(t)
  {
    if s == [] {
      assert s + t == t;
    } else {
      assert (s + t)[1..] == s[1..] + t;
      InsertsAppend(s[1..], t);
    }
  }

  lemma {:induction false} InsertsRepeat(unit: seq<Mark>, k: nat)
    ensures Inserts(Repeat(unit, k)) == k * Inserts(unit)
  {
    if k > 0 {
      InsertsAppend(unit, Repeat(unit, k - 1));
      InsertsRepeat(unit, k - 1);
    }
  }

  /** The product of the call counts of all layers from (i, h) on. */
  function Fanout(e: Env, count: Counts, i: nat, h: nat): nat
    requires i <= |e.builders| && (i < |e.builders| ==> h <= |Hooks(e, i)|)
    decreases |e.builders| - i, if i < |e.builders| then |Hooks(e, i)| - h else 0
  {
    if i == |e.builders| then 1
    else if h < |Hooks(e, i)| then count(i, h) * Fanout(e, count, i, h + 1)
    else Fanout(e, count, i + 1, 0)
  }

  lemma {:induction false} ExpandInserts(e: Env, count: Counts, i: nat, h: nat)
    requires i < |e.builders| && h <= |Hooks(e, i)|
    ensures Inserts(Expand(e, count, i, h)) == Fanout(e, count, i, h)
    decreases |e.builders| - i, |Hooks(e, i)| - h
  {
    var inner := if h < |Hooks(e, i)| then Repeat(Expand(e, count, i, h + 1), count(i, h))
                 else ExpandLevel(e, count, i + 1);
    InsertsAppend([Enter(i, h)] + inner, [Leave(i, h)]);
    InsertsAppend([Enter(i, h)], inner);
    if h < |Hooks(e, i)| {
      InsertsRepeat(Expand(e, count, i, h + 1), count(i, h));
      ExpandInserts(e, count, i, h + 1);
    } else if i + 1 < |e.builders| {
      ExpandInserts(e, count, i + 1, 0);
    }
  }

  /** MAIN: when no body refuses, the number of batch inserts is the product of the `next`-call counts of all
      the hooks of all the builders; in particular one hook that skips `next` means none, and no hooks means
      one. */
  lemma FanoutCount(e: Env, root: Ctx, count: Counts, cur: map<nat, nat>, w: World)
    requires CallCounts(e, count) && |e.builders| > 0 && !Refused(e, Save(e, root, cur, w).1.trace)
    ensures Inserts(Shape(Save(e, root, cur, w).1.trace)) == Fanout(e, count, 0, 0)
  {
    SaveShape(e, root, count, cur, w);
    ExpandInserts(e, count, 0, 0);
  }

  // ---------------------------------------------------------------- every hook calls next once

  function Once(i: nat, h: nat): nat { 1 }

  /** All layers from (i, h) on, in lexicographic order. */
  function Entries(e: Env, i: nat, h: nat): (s: seq<Mark>)
    requires i <= |e.builders| && (i < |e.builders| ==> h <= |Hooks(e, i)|)
    decreases |e.builders| - i, if i < |e.builders| then |Hooks(e, i)| - h else 0
    ensures forall k :: 0 <= k < |s| ==> s[k].Enter?
  {
    if i == |e.builders| then []
    else [Enter(i, h)] + if h < |Hooks(e, i)| then Entries(e, i, h + 1) else Entries(e, i + 1, 0)
  }

  /** The same layers left in the reverse order. */
  function Exits(s: seq<Mark>): seq<Mark>
    requires forall k :: 0 <= k < |s| ==> s[k].Enter?
  {
    seq(|s|, k requires 0 <= k < |s| => Leave(s[|s| - 1 - k].i, s[|s| - 1 - k].h))
  }

  predicate Before(x: Mark, y: Mark)
    requires x.Enter? && y.Enter?
  {
    x.i < y.i || (x.i == y.i && x.h < y.h)
  }

  predicate IsLayer(e: Env, x: Mark) {
    x.Enter? && x.i < |e.builders| && x.h <= |Hooks(e, x.i)|
  }

  /** `x` is layer (i, h) or a later one. */
  predicate From(i: nat, h: nat, x: Mark)
    requires x.Enter?
  {
    x.i > i || (x.i == i && x.h >= h)
  }

  /** The entries are exactly the layers from (i, h) on. */
  lemma {:induction false} EntriesAreLayers(e: Env, i: nat, h: nat, x: Mark)
    requires i <= |e.builders| && (i < |e.builders| ==> h <= |Hooks(e, i)|)
    ensures x in Entries(e, i, h) <==> IsLayer(e, x) && From(i, h, x)
    decreases |e.builders| - i, if i < |e.builders| then |Hooks(e, i)| - h else 0
  {
    if i < |e.builders| {
      var rest := if h < |Hooks(e, i)| then Entries(e, i, h + 1) else Entries(e, i + 1, 0);
      assert x in Entries(e, i, h) <==> x == Enter(i, h) || x in rest;
      if h < |Hooks(e, i)| {
        EntriesAreLayers(e, i, h + 1, x);
      } else {
        EntriesAreLayers(e, i + 1, 0, x);
      }
    }
  }

  /** They come in strictly increasing order, so each layer once. */
  lemma {:induction false} EntriesAreSorted(e: Env, i: nat, h: nat)
    requires i <= |e.builders| && (i < |e.builders| ==> h <= |Hooks(e, i)|)
    ensures var s := Entries(e, i, h); forall j, k :: 0 <= j < k < |s| ==> Before(s[j], s[k])
    decreases |e.builders| - i, if i < |e.builders| then |Hooks(e, i)| - h else 0
  {
    if i < |e.builders| {
      var (i1, h1) := if h < |Hooks(e, i)| then (i, h + 1) else (i + 1, 0);
      var rest := Entries(e, i1, h1);
      EntriesAreSorted(e, i1, h1);
      forall k | 0 <= k < |rest| ensures Before(Enter(i, h), rest[k]) {
        EntriesAreLayers(e, i1, h1, rest[k]);
      }
      var s := Entries(e, i, h);
      assert s == [Enter(i, h)] + rest;
      forall j, k | 0 <= j < k < |s| ensures Before(s[j], s[k]) {
        assert s[k] == rest[k - 1];
        if j > 0 {
          assert s[j] == rest[j - 1];
        }
      }
    }
  }

  lemma Nested(x: Mark, s: seq<Mark>)
    requires x.Enter? && forall k :: 0 <= k < |s| ==> s[k].Enter?
    ensures [x] + (s + [Insert] + Exits(s)) + [Leave(x.i, x.h)] == ([x] + s) + [Insert] + Exits([x] + s)
  {
    assert Exits([x] + s) == Exits(s) + [Leave(x.i, x.h)];
  }

  lemma {:induction false} ExpandOnce(e: Env, i: nat, h: nat)
    requires i < |e.builders| && h <= |Hooks(e, i)|
    ensures var s := Entries(e, i, h); Expand(e, Once, i, h) == s + [Insert] + Exits(s)
    decreases |e.builders| - i, |Hooks(e, i)| - h
  {
    if h < |Hooks(e, i)| {
      ExpandOnce(e, i, h + 1);
      RepeatOnce(Expand(e, Once, i, h + 1));
      Nested(Enter(i, h), Entries(e, i, h + 1));
    } else {
      if i + 1 < |e.builders| {
        ExpandOnce(e, i + 1, 0);
      } else {
        assert Exits([]) == [];
      }
      Nested(Enter(i, h), Entries(e, i + 1, 0));
    }
  }

  lemma RepeatOnce(u: seq<Mark>)
    ensures Repeat(u, 1) == u
  {
    assert Repeat(u, 1) == u + Repeat(u, 0);
  }

  /** MAIN: if every hook calls `next` exactly once, then no body refuses if and only if the layers are entered
      in lexicographic (builder, layer) order, the batch insert is invoked exactly once, and the layers are
      left in exactly the reverse order, for any number of builders and any depth of the stacks. */
  lemma OnceTraceShape(e: Env, root: Ctx, cur: map<nat, nat>, w: World)
    requires CallOnce(e) && |e.builders| > 0
    ensures var s, t := Entries(e, 0, 0), Save(e, root, cur, w).1.trace;
      && (Shape(t) == s + [Insert] + Exits(s) <==> !Refused(e, t))
      && (forall j, k :: 0 <= j < k < |s| ==> Before(s[j], s[k]))
      && (forall x: Mark :: x in s <==> IsLayer(e, x))
  {
    assert CallCounts(e, Once);
    SaveShape(e, root, Once, cur, w);
    ExpandOnce(e, 0, 0);
    EntriesAreSorted(e, 0, 0);
    forall x: Mark ensures x in Entries(e, 0, 0) <==> IsLayer(e, x) {
      EntriesAreLayers(e, 0, 0, x);
    }
  }
}
