/** Hooks that forward another mutation object. In a bulk save the body checks the builder's own mutation
    and only then adopts the forwarded one, so what is sent need not be what was checked. */
module BulkSubstitution {
  import opened Entity
  import opened Onion
  import opened Bulk
  import opened BulkInduction
  import opened BulkInvariants

  /** What is received or forwarded: a mutation, and its payload at that moment. */
  datatype Parcel = Parcel(m: MutRef, payload: Fields)

  /** What hook `h` of position `i` forwards, given what it receives. */
  type Reroute = (nat, nat, Parcel) -> Parcel

  function ParcelIn(w: World, m: MutRef): Parcel {
    Parcel(m, if m.Msg? then MutAt(w, m.addr).fields else NO_FIELDS)
  }

  /** `inv` is a property of the mutation objects that all hooks rely on and keep, such as the payload of one
      that they forward but never edit. */
  datatype Setting = Setting(e: Env, to: Reroute, inv: map<nat, Mutation> -> bool, w: World, c: Chain) {
    function N(): nat { |e.builders| }

    function Own(i: nat): nat
      requires i < N()
    {
      Cur(e, c, i)
    }

    /** What layer `h` of builder `i` receives. */
    function Received(i: nat, h: nat): Parcel
      requires i < N()
    {
      if h == 0 then ParcelIn(w, Msg(Own(i))) else to(i, h - 1, Received(i, h - 1))
    }

    /** What its body adopts. */
    function Adopted(i: nat): Parcel
      requires i < N()
    {
      Received(i, |Hooks(e, i)|)
    }

    /** The hooks call `next` once and forward what `to` says: another object, one they have just made and filled,
        or the one they got, edited. They do not spoil the check of their builder's own mutation, nor edit those
        of later builders. */
    ghost predicate Reroutes() {
      forall i, h, a: Arg, u: World :: 0 <= i < N() && 0 <= h < |Hooks(e, i)| && inv(u.muts) ==>
        var (v, b) := Hooks(e, i)[h].before(a, u, []);
        && inv(v.muts)
        && ParcelIn(v, b.m) == to(i, h, ParcelIn(u, a.m))
        && (e.check(MutAt(u, Own(i)).fields).None? ==> e.check(MutAt(v, Own(i)).fields).None?)
        && SpareLater(i, u, v)
    }

    ghost predicate SpareLater(i: nat, u: World, v: World) {
      forall j :: i < j < N() ==> MutAt(v, Own(j)).fields == MutAt(u, Own(j)).fields
    }

    ghost predicate Ok() {
      && (forall i, j :: 0 <= i < j < N() ==> e.builders[i] != e.builders[j])
      && CallOnce(e)
      && Reroutes() && inv(w.muts)
      && (forall i :: 0 <= i < N() ==> Adopted(i).m.Msg? && e.check(MutAt(w, Own(i)).fields).None?)
    }
  }

  /** The first `k` spec objects were built from what the first `k` bodies adopted, and their builders point to it. */
  ghost predicate Built(s: Setting, k: nat, c: Chain)
    requires k <= s.N()
  {
    && |c.heap| == k
    && forall x :: 0 <= x < k ==>
         && c.heap[x].from == s.Adopted(x).payload && c.heap[x].row == s.e.row(c.heap[x].from)
         && Msg(Cur(s.e, c, x)) == s.Adopted(x).m
  }

  /** On the way in: layer (i, h) receives what it should, and the builders from `i` on are still to come. */
  ghost predicate Entering(s: Setting, i: nat, h: nat, a: Arg, w: World, c: Chain) {
    && i <= s.N()
    && s.inv(w.muts)
    && Built(s, i, c)
    && (i < s.N() ==> ParcelIn(w, a.m) == s.Received(i, h) && s.e.check(MutAt(w, s.Own(i)).fields).None?)
    && s.SpareLater(i, s.w, w)
    && forall j :: i <= j < s.N() ==> Cur(s.e, c, j) == s.Own(j)
  }

  /** The batch insert was invoked. */
  predicate Inserted(t: seq<Event>) {
    exists k :: 0 <= k < |t| && t[k].Batch?
  }

  lemma InsertedEmit(t: seq<Event>, ev: Event)
    ensures Inserted(t) || ev.Batch? ==> Inserted(t + [ev])
  {
    if ev.Batch? {
      assert (t + [ev])[|t|].Batch?;
    } else if k :| 0 <= k < |t| && t[k].Batch? {
      assert (t + [ev])[k].Batch?;
    }
  }

  /** On the way out: every body was entered, and the batch insert was made. */
  ghost predicate Leaving(s: Setting, c: Chain) {
    Built(s, s.N(), c) && Inserted(c.trace)
  }

  ghost function SubstitutionPassage(s: Setting): Passage {
    Passage((i: nat, h: nat, a, w, c) => Entering(s, i, h, a, w, c), (i: nat, h: nat, w, c, o) => Leaving(s, c))
  }

  lemma ForwardsOn(s: Setting, i: nat, h: nat, a: Arg, w: World, c: Chain)
    requires s.Ok() && i < s.N() && h < |Hooks(s.e, i)| && Entering(s, i, h, a, w, c)
    ensures var (w1, a1) := Hooks(s.e, i)[h].before(a, w, []); Entering(s, i, h + 1, a1, w1, c)
  {
    var (w1, a1) := Hooks(s.e, i)[h].before(a, w, []);
    assert ParcelIn(w1, a1.m) == s.to(i, h, ParcelIn(w, a.m)) && s.SpareLater(i, w, w1);
  }

  lemma AdoptsForwarded(s: Setting, root: Ctx, i: nat, a: Arg, w: World, c: Chain)
    requires s.Ok() && i < s.N() && Entering(s, i, |Hooks(s.e, i)|, a, w, c)
    ensures a.m.Msg?
    ensures var v, d := FillWorld(s.e, a.m.addr, w, c), FillChain(s.e, i, a.m.addr, w, c);
      Entering(s, i + 1, 0, NextArg(s.e, root, i, a, d), v, d)
  {
    assert ParcelIn(w, a.m) == s.Adopted(i);
    var m := a.m.addr;
    var v, d := FillWorld(s.e, m, w, c), FillChain(s.e, i, m, w, c);
    assert forall x :: MutAt(v, x) == MutAt(w, x);
    forall j | i < j < s.N() ensures Cur(s.e, d, j) == s.Own(j) {
      assert s.e.builders[i] != s.e.builders[j];
      assert Cur(s.e, c, j) == s.Own(j);
    }
    forall j | 0 <= j < i ensures Cur(s.e, d, j) == Cur(s.e, c, j) {
      assert s.e.builders[j] != s.e.builders[i];
    }
    if i + 1 < s.N() {
      assert ParcelIn(v, Msg(s.Own(i + 1))) == s.Received(i + 1, 0);
    }
  }

  lemma EmitLeaves(s: Setting, c: Chain, ev: Event)
    requires Leaving(s, c)
    ensures Leaving(s, c.Emit(ev))
  {
    InsertedEmit(c.trace, ev);
  }

  lemma SettleLeaves(s: Setting, i: nat, m: nat)
    requires i < s.N()
    ensures Unwinds(s.e, SubstitutionPassage(s), i, m)
  {
    forall c | Leaving(s, c) ensures Leaving(s, c.Emit(Crash)) {
      EmitLeaves(s, c, Crash);
    }
  }

  lemma HooksPassParcels(s: Setting)
    requires s.Ok()
    ensures HooksPass(s.e, SubstitutionPassage(s))
  {
    forall i, h, a, w, c | 0 <= i < s.N() && 0 <= h < |Hooks(s.e, i)|
      ensures BeforePasses(s.e, SubstitutionPassage(s), i, h, a, w, c)
    {
      if Entering(s, i, h, a, w, c) {
        ForwardsOn(s, i, h, a, w, c);
      }
    }
  }

  lemma BodiesPassParcels(s: Setting, root: Ctx)
    requires s.Ok()
    ensures BodiesPass(s.e, root, SubstitutionPassage(s))
  {
    forall i, a, w, c | 0 <= i < s.N() && Entering(s, i, |Hooks(s.e, i)|, a, w, c)
      ensures BodyPasses(s.e, root, SubstitutionPassage(s), i, a, w, c)
    {
      AdoptsForwarded(s, root, i, a, w, c);
      SettleLeaves(s, i, a.m.addr);
    }
  }

  lemma EveryStep(s: Setting, root: Ctx)
    requires s.Ok()
    ensures EveryStepPasses(s.e, root, SubstitutionPassage(s))
  {
    forall c, ev | Leaving(s, c) ensures Leaving(s, c.Emit(ev)) {
      EmitLeaves(s, c, ev);
    }
    HooksPassParcels(s);
    BodiesPassParcels(s, root);
    forall a: Arg, w, c | Entering(s, s.N(), 0, a, w, c)
      ensures var (w1, c1, o) := BatchCreate(s.e, a.ctx, w, c); Leaving(s, c1)
    {
      InsertedEmit(c.trace, Batch(a.ctx, c.specs));
      InsertedEmit(c.Emit(Batch(a.ctx, c.specs)).trace, Crash);
    }
  }

  function SettingOf(e: Env, to: Reroute, inv: map<nat, Mutation> -> bool, cur: map<nat, nat>, w: World): Setting {
    Setting(e, to, inv, DefaultedWorld(e, cur, w, |e.builders|), InitialChain(e, cur))
  }

  /** MAIN: when every builder's own mutation passes its check and the hooks reroute as `to` says, the batch
      insert is made, of exactly the payloads that the hooks forward to the bodies, and each builder ends up with
      the object it was given; so a bulk save sends only validated data if and only if each of those payloads
      would itself pass the check (which the save never asks). */
  lemma SubstitutionSendsUnchecked(e: Env, to: Reroute, inv: map<nat, Mutation> -> bool, root: Ctx, cur: map<nat, nat>,
                                   w: World)
    requires SettingOf(e, to, inv, cur, w).Ok() && |e.builders| > 0
    ensures var s, c := SettingOf(e, to, inv, cur, w), Save(e, root, cur, w).1;
      && Inserted(c.trace)
      && Built(s, |e.builders|, c)
      && (Validated(e, c) <==> forall i :: 0 <= i < |e.builders| ==> e.check(s.Adopted(i).payload).None?)
  {
    var s := SettingOf(e, to, inv, cur, w);
    EveryStep(s, root);
    assert Entering(s, 0, 0, Arg(root, Msg(s.Own(0))), s.w, s.c);
    SavePasses(e, root, SubstitutionPassage(s), cur, w);
    var c1 := Save(e, root, cur, w).1;
    assert Leaving(s, c1);
    if Validated(e, c1) {
      forall i | 0 <= i < |e.builders| ensures e.check(s.Adopted(i).payload).None? {
        assert c1.heap[i].from == s.Adopted(i).payload;
      }
    }
  }

  // ---------------------------------------------------------------- a concrete save that shows it

  /** A hook that forwards mutation `addr` instead of what it is given. */
  function Substitute(addr: nat): Hook<Arg, World, Outcome> {
    Hook((a: Arg, w: World) => 1,
         (a: Arg, w: World, past: seq<Outcome>) => past == [],
         (a: Arg, w: World, past: seq<Outcome>) => (w, Arg(a.ctx, Msg(addr))),
         (a: Arg, w: World, past: seq<Outcome>) => (w, if past == [] then Err(HookError(0)) else past[|past| - 1]))
  }

  /** One builder, whose mutation 0 is complete; its hook forwards mutation 1, on which nothing is set. */
  function Unchecked(validator: string -> bool, full: Fields, store: Store): (Env, World) {
    (Env([0], b => [Substitute(1)], (i, f) => f, f => Check(validator, f), NodeOf, RowOf, store),
     World(map[0 := Mutation(full, None, false), 1 := NEW_MUTATION], map[], Db([], 1), map[]))
  }

  /** The store is sent a message without any column. */
  lemma UncheckedRowIsSent(validator: string -> bool, full: Fields, store: Store, root: Ctx)
    requires Check(validator, full).None?
    ensures var (e, w) := Unchecked(validator, full, store);
      var c := Save(e, root, map[0 := 0], w).1;
      Inserted(c.trace) && |c.heap| == 1 && c.heap[0].row == [] && !Validated(e, c)
  {
    var (e, w) := Unchecked(validator, full, store);
    var to: Reroute := (i, h, p) => Parcel(Msg(1), NO_FIELDS);
    var inv := (muts: map<nat, Mutation>) => 1 in muts && muts[1].fields == NO_FIELDS;
    UncheckedSetting(validator, full, store, to, inv);
    SubstitutionSendsUnchecked(e, to, inv, root, map[0 := 0], w);
    EmptyRow();
    assert e.check(NO_FIELDS).Some?;
  }

  lemma UncheckedSetting(validator: string -> bool, full: Fields, store: Store, to: Reroute,
                         inv: map<nat, Mutation> -> bool)
    requires Check(validator, full).None? && forall i, h, p :: to(i, h, p) == Parcel(Msg(1), NO_FIELDS)
    requires forall muts: map<nat, Mutation> :: inv(muts) == (1 in muts && muts[1].fields == NO_FIELDS)
    ensures var (e, w) := Unchecked(validator, full, store);
      var s := SettingOf(e, to, inv, map[0 := 0], w);
      s.Ok() && s.Adopted(0) == Parcel(Msg(1), NO_FIELDS)
  {
    var (e, w) := Unchecked(validator, full, store);
    var s := SettingOf(e, to, inv, map[0 := 0], w);
    assert DefaultedWorld(e, map[0 := 0], w, 0) == w;
    assert s.w == DefaultStep(e, map[0 := 0], w, 0);
    assert Hooks(e, 0) == [Substitute(1)] && s.Own(0) == 0;
    SubstituteReroutes(s);
    assert s.Received(0, 1) == to(0, 0, s.Received(0, 0));
  }

  lemma SubstituteReroutes(s: Setting)
    requires s.N() == 1 && Hooks(s.e, 0) == [Substitute(1)]
    requires forall i, h, p :: s.to(i, h, p) == Parcel(Msg(1), NO_FIELDS)
    requires forall muts: map<nat, Mutation> :: s.inv(muts) == (1 in muts && muts[1].fields == NO_FIELDS)
    ensures CallOnce(s.e) && s.Reroutes()
  {
    forall i, h, a: Arg, u: World | 0 <= i < 1 && 0 <= h < |Hooks(s.e, i)| && s.inv(u.muts)
      ensures Hooks(s.e, i)[h].before(a, u, []) == (u, Arg(a.ctx, Msg(1)))
      ensures ParcelIn(u, Msg(1)) == s.to(i, h, ParcelIn(u, a.m))
    {
      assert Hooks(s.e, i)[h] == Substitute(1);
    }
    assert CallsExactly(Substitute(1), 1);
  }

  lemma EmptyRow()
    ensures RowOf(NO_FIELDS) == []
  {
    EmptyRowUpTo(|COLUMNS|);
  }

  lemma {:induction false} EmptyRowUpTo(k: nat)
    requires k <= |COLUMNS|
    ensures RowUpTo(NO_FIELDS, k) == []
  {
    if k > 0 {
      EmptyRowUpTo(k - 1);
    }
  }
}
