/** The final state of a save whose hooks call `next` once: which error comes back, which mutations are
    marked done, where their ID pointers lead, what the store and the nodes hold. */
module BulkOutcome {
  import opened Entity
  import opened Onion
  import opened Bulk
  import opened BulkInduction
  import opened BulkInvariants

  /** The start of a save: the world after the defaults, and the captured variables. */
  datatype Start = Start(e: Env, w: World, c: Chain) {
    function N(): nat { |e.builders| }

    /** The mutation builder `i` points to. */
    function M(i: nat): nat
      requires i < N()
    {
      Cur(e, c, i)
    }

    /** The first builder whose mutation fails its check, or n. */
    function Bad(): (bad: nat)
      ensures bad <= N()
      ensures forall j :: 0 <= j < bad ==> e.check(MutAt(w, M(j)).fields).None?
      ensures bad < N() ==> e.check(MutAt(w, M(bad)).fields).Some?
    {
      FirstBad(e, c, w, 0)
    }

    /** Its check's error. */
    function CheckError(): Error
      requires Bad() < N()
    {
      e.check(MutAt(w, M(Bad())).fields).value
    }

    /** The builders point to pairwise different mutation objects. */
    ghost predicate Distinct() {
      forall i, j :: 0 <= i < j < N() ==> M(i) != M(j)
    }
  }

  function FirstBad(e: Env, c: Chain, w: World, from: nat): (bad: nat)
    requires from <= |e.builders|
    ensures from <= bad <= |e.builders|
    ensures forall j :: from <= j < bad ==> e.check(MutAt(w, Cur(e, c, j)).fields).None?
    ensures bad < |e.builders| ==> e.check(MutAt(w, Cur(e, c, bad)).fields).Some?
    decreases |e.builders| - from
  {
    if from == |e.builders| || e.check(MutAt(w, Cur(e, c, from)).fields).Some? then from
    else FirstBad(e, c, w, from + 1)
  }

  function StartOf(e: Env, cur: map<nat, nat>, w: World): Start {
    Start(e, DefaultedWorld(e, cur, w, |e.builders|), InitialChain(e, cur))
  }

  // ---------------------------------------------------------------- what hooks leave alone

  /** The steps before the calls of `next` keep the relation `same` on worlds. */
  ghost predicate BeforesKeep(e: Env, same: (World, World) -> bool) {
    forall i, h, a, w, past :: 0 <= i < |e.builders| && 0 <= h < |Hooks(e, i)| ==>
      same(w, Hooks(e, i)[h].before(a, w, past).0)
  }

  ghost predicate FinishesKeep(e: Env, same: (World, World) -> bool) {
    forall i, h, a, w, past :: 0 <= i < |e.builders| && 0 <= h < |Hooks(e, i)| ==>
      same(w, Hooks(e, i)[h].finish(a, w, past).0)
  }

  ghost predicate SameCheck(s: Start, j: nat, w: World, v: World)
    requires j < s.N()
  {
    s.e.check(MutAt(v, s.M(j)).fields) == s.e.check(MutAt(w, s.M(j)).fields)
  }

  ghost predicate SameChecks(s: Start, w: World, v: World) {
    forall j :: 0 <= j < s.N() ==> SameCheck(s, j, w, v)
  }

  ghost predicate SamePayloads(s: Start, w: World, v: World) {
    forall j :: 0 <= j < s.N() ==> MutAt(v, s.M(j)).fields == MutAt(w, s.M(j)).fields
  }

  ghost predicate SameFlags(s: Start, w: World, v: World) {
    forall j :: 0 <= j < s.N() ==> MutAt(v, s.M(j)).done == MutAt(w, s.M(j)).done
  }

  ghost predicate SamePointers(s: Start, w: World, v: World) {
    forall j :: 0 <= j < s.N() ==> MutAt(v, s.M(j)).id == MutAt(w, s.M(j)).id
  }

  ghost predicate SameDb(w: World, v: World) {
    v.db == w.db
  }

  ghost predicate SameNodeIDs(w: World, v: World) {
    forall a :: MsgAt(v, a).id == MsgAt(w, a).id
  }

  ghost predicate SameNodeContents(w: World, v: World) {
    forall a :: MsgAt(v, a).(id := 0) == MsgAt(w, a).(id := 0)
  }

  /** No hook changes a check's result before the check, a done flag, an ID pointer, the store, a node. */
  ghost predicate KeepChecks(s: Start) { BeforesKeep(s.e, (w, v) => SameChecks(s, w, v)) }

  ghost predicate KeepPayloads(s: Start) { BeforesKeep(s.e, (w, v) => SamePayloads(s, w, v)) }

  ghost predicate KeepFlags(s: Start) {
    BeforesKeep(s.e, (w, v) => SameFlags(s, w, v)) && FinishesKeep(s.e, (w, v) => SameFlags(s, w, v))
  }

  ghost predicate KeepPointers(s: Start) {
    BeforesKeep(s.e, (w, v) => SamePointers(s, w, v)) && FinishesKeep(s.e, (w, v) => SamePointers(s, w, v))
  }

  ghost predicate KeepPointersAfter(s: Start) { FinishesKeep(s.e, (w, v) => SamePointers(s, w, v)) }

  ghost predicate KeepDb(e: Env) { BeforesKeep(e, SameDb) && FinishesKeep(e, SameDb) }

  ghost predicate KeepNodeIDs(e: Env) { BeforesKeep(e, SameNodeIDs) && FinishesKeep(e, SameNodeIDs) }

  ghost predicate KeepNodeContents(e: Env) {
    BeforesKeep(e, SameNodeContents) && FinishesKeep(e, SameNodeContents)
  }

  /** A hook's finish, on the one result it got. */
  function Finished(e: Env, i: nat, h: nat, a: Arg, w: World, r: Outcome): Outcome
    requires i < |e.builders| && h < |Hooks(e, i)|
  {
    Hooks(e, i)[h].finish(a, w, [r]).1
  }

  /** Every hook returns an error it gets unchanged. */
  ghost predicate ErrorsPass(e: Env) {
    forall i, h, a, w, r: Outcome :: 0 <= i < |e.builders| && 0 <= h < |Hooks(e, i)| && r.Err? ==>
      Finished(e, i, h, a, w, r) == r
  }

  /** Every hook turns an error into some error. */
  ghost predicate ErrorsStay(e: Env) {
    forall i, h, a, w, r: Outcome :: 0 <= i < |e.builders| && 0 <= h < |Hooks(e, i)| && r.Err? ==>
      Finished(e, i, h, a, w, r).Err?
  }

  /** Every hook returns success exactly if it gets success. */
  ghost predicate SuccessPasses(e: Env) {
    forall i, h, a, w, r: Outcome :: 0 <= i < |e.builders| && 0 <= h < |Hooks(e, i)| ==>
      Finished(e, i, h, a, w, r).Ok? == r.Ok?
  }

  // ---------------------------------------------------------------- steps that all saves share

  /** No batch insert was invoked. */
  predicate Quiet(t: seq<Event>) {
    forall k :: 0 <= k < |t| ==> !t[k].Batch?
  }

  /** Slots `0..k` are filled, with objects 0..k in order; the others are empty. */
  ghost predicate FilledUpTo(e: Env, c: Chain, k: nat) {
    && |c.nodes| == |c.specs| == |e.builders|
    && k <= |e.builders|
    && |c.heap| == k
    && forall j :: 0 <= j < |e.builders| ==> c.nodes[j] == c.specs[j] == if j < k then Some(j) else None
  }

  lemma FillKeepsPointers(e: Env, c0: Chain, i: nat, w: World, c: Chain)
    requires i < |e.builders| && SameCur(e, c0, c)
    ensures SameCur(e, c0, FillChain(e, i, Cur(e, c0, i), w, c))
  {
    var d := FillChain(e, i, Cur(e, c0, i), w, c);
    forall j | 0 <= j < |e.builders| ensures Cur(e, d, j) == Cur(e, c0, j) {
      assert Cur(e, c, j) == Cur(e, c0, j) && Cur(e, c, i) == Cur(e, c0, i);
    }
  }

  lemma FillKeepsMutations(e: Env, m: nat, w: World, c: Chain)
    ensures forall x :: MutAt(FillWorld(e, m, w, c), x) == MutAt(w, x)
    ensures FillWorld(e, m, w, c).db == w.db
    ensures forall a :: a != |c.heap| ==> MsgAt(FillWorld(e, m, w, c), a) == MsgAt(w, a)
    ensures MsgAt(FillWorld(e, m, w, c), |c.heap|) == e.node(MutAt(w, m).fields)
  {
  }

  /** The mutations after the batch insert. */
  lemma BatchKeepsMutations(e: Env, ctx: Ctx, w: World, c: Chain)
    ensures var (w1, c1, o) := BatchCreate(e, ctx, w, c);
      w1.muts == w.muts && w1.msgs == w.msgs && c1.nodes == c.nodes && c1.specs == c.specs && |c1.heap| == |c.heap|
  {
  }

  lemma {:induction false} WriteIDsInOrder(slots: seq<Option<nat>>, heap: seq<Spec>, ids: map<nat, int>, k: nat, j: nat)
    requires AllFilled(slots, heap) && k <= |slots| && j < |slots| <= |heap|
    requires forall x :: 0 <= x < |slots| ==> slots[x] == Some(x)
    requires heap[j].id.None?
    ensures WriteIDs(slots, heap, ids, k)[j].id == if j < k && j in ids then Some(ids[j]) else None
  {
    if k > 0 {
      WriteIDsInOrder(slots, heap, ids, k - 1, j);
    }
  }

  lemma {:induction false} DefaultsKeepTheRest(e: Env, cur: map<nat, nat>, w: World, k: nat)
    requires k <= |e.builders|
    ensures var v := DefaultedWorld(e, cur, w, k); v.db == w.db && v.msgs == w.msgs && v.memo == w.memo
    ensures var v := DefaultedWorld(e, cur, w, k);
      forall m :: MutAt(v, m).id == MutAt(w, m).id && MutAt(v, m).done == MutAt(w, m).done
  {
    if k > 0 {
      DefaultsKeepTheRest(e, cur, w, k - 1);
    }
  }

  // ---------------------------------------------------------------- the first failure

  /** What a save that fails its check leaves as it was, as far as the hooks do. */
  ghost predicate Unspoiled(s: Start, w: World, c: Chain) {
    && Quiet(c.trace)
    && (KeepDb(s.e) ==> w.db == s.w.db)
    && (KeepFlags(s) ==> SameFlags(s, s.w, w))
    && (KeepPointers(s) ==> SamePointers(s, s.w, w))
  }

  ghost predicate Failing(s: Start, i: nat, a: Arg, w: World, c: Chain) {
    && i <= s.Bad() < s.N()
    && a.m == Msg(s.M(i))
    && SameCur(s.e, s.c, c)
    && SameChecks(s, s.w, w)
    && Unspoiled(s, w, c)
  }

  ghost predicate Failed(s: Start, i: nat, w: World, c: Chain, o: Outcome) {
    i <= s.Bad() < s.N() ==> o == Err(s.CheckError()) && Unspoiled(s, w, c)
  }

  ghost function FailurePassage(s: Start): Passage {
    Passage((i: nat, h: nat, a, w, c) => Failing(s, i, a, w, c), (i: nat, h: nat, w, c, o) => Failed(s, i, w, c, o))
  }

  /** A hook's step leaves it so. */
  lemma StillUnspoiled(s: Start, w: World, v: World, c: Chain)
    requires (KeepDb(s.e) ==> SameDb(w, v)) && (KeepFlags(s) ==> SameFlags(s, w, v))
    requires KeepPointers(s) ==> SamePointers(s, w, v)
    ensures Unspoiled(s, w, c) ==> Unspoiled(s, v, c)
  {
  }

  lemma FailingHooks(s: Start)
    requires SameObject(s.e) && ErrorsPass(s.e) && KeepChecks(s)
    ensures HooksPass(s.e, FailurePassage(s))
  {
    var x := FailurePassage(s);
    forall i, h, a, w, c | 0 <= i < s.N() && 0 <= h < |Hooks(s.e, i)| ensures BeforePasses(s.e, x, i, h, a, w, c) {
      var (w1, a1) := Hooks(s.e, i)[h].before(a, w, []);
      if Failing(s, i, a, w, c) {
        StillUnspoiled(s, w, w1, c);
        assert SameChecks(s, w, w1);
        forall j | 0 <= j < s.N() ensures SameCheck(s, j, s.w, w1) {
          assert SameCheck(s, j, s.w, w) && SameCheck(s, j, w, w1);
        }
      }
    }
    forall i, h, a, w, c, r | 0 <= i < s.N() && 0 <= h < |Hooks(s.e, i)|
      ensures FinishPasses(s.e, x, i, h, a, w, c, r)
    {
      assert r.Err? ==> Finished(s.e, i, h, a, w, r) == r;
      var v := Hooks(s.e, i)[h].finish(a, w, [r]).0;
      StillUnspoiled(s, w, v, c);
    }
  }

  lemma FailingBodies(s: Start, root: Ctx)
    ensures BodiesPass(s.e, root, FailurePassage(s))
  {
    var e, x := s.e, FailurePassage(s);
    forall i, a, w, c | 0 <= i < s.N() && Failing(s, i, a, w, c) ensures BodyPasses(e, root, x, i, a, w, c) {
      assert Cur(e, c, i) == s.M(i) && SameCheck(s, i, s.w, w);
      if i < s.Bad() {
        FillKeepsPointers(e, s.c, i, w, c);
        FillKeepsMutations(e, s.M(i), w, c);
        var v := FillWorld(e, s.M(i), w, c);
        forall j | 0 <= j < s.N() ensures SameCheck(s, j, s.w, v) {
          assert SameCheck(s, j, s.w, w);
        }
        var d := FillChain(e, i, s.M(i), w, c);
        assert Cur(e, d, i + 1) == s.M(i + 1);
        assert Unwinds(e, x, i, s.M(i));
      }
    }
  }

  /** MAIN: with hooks that call `next` once, forward the object they were given, let errors through and do not
      change what the checks say (they may write the store, the nodes, anything else, and builders may share
      mutations), a save with an invalid builder returns the check error of the first one and invokes no batch
      insert; the store, the flags and the ID pointers stay as they were unless a hook itself changes them. */
  lemma FirstFailure(e: Env, root: Ctx, cur: map<nat, nat>, w: World)
    requires CallOnce(e) && SameObject(e) && ErrorsPass(e) && KeepChecks(StartOf(e, cur, w))
    requires StartOf(e, cur, w).Bad() < |e.builders|
    ensures var s, (w1, c1, r) := StartOf(e, cur, w), Save(e, root, cur, w);
      && r == Failure(s.CheckError())
      && Quiet(c1.trace)
      && (KeepDb(e) ==> w1.db == w.db)
      && (KeepFlags(s) ==> SameFlags(s, w, w1))
      && (KeepPointers(s) ==> SamePointers(s, w, w1))
  {
    var s := StartOf(e, cur, w);
    FailingHooks(s);
    FailingBodies(s, root);
    SavePasses(e, root, FailurePassage(s), cur, w);
    DefaultsKeepTheRest(e, cur, w, s.N());
    var (w1, c1, o) := RunChain(e, root, s.w, s.c);
    assert Failed(s, 0, w1, c1, o);
  }

  // ---------------------------------------------------------------- all flags or none

  /** The slots `0..k` hold objects, the same in both slices. */
  ghost predicate Slots(e: Env, c: Chain, k: nat) {
    && |c.nodes| == |c.specs| == |e.builders|
    && k <= |e.builders|
    && c.nodes == c.specs
    && forall j :: 0 <= j < k ==> c.specs[j].Some? && c.specs[j].value < |c.heap|
  }

  /** Exactly the mutations of builders `from..n` are marked done, if `yes`; else none. */
  ghost predicate DoneFrom(s: Start, from: nat, yes: bool, w: World) {
    forall j :: 0 <= j < s.N() ==> MutAt(w, s.M(j)).done == (from <= j && yes)
  }

  ghost predicate Descending(s: Start, i: nat, a: Arg, w: World, c: Chain) {
    && (i < s.N() ==> a.m == Msg(s.M(i)))
    && SameCur(s.e, s.c, c)
    && Slots(s.e, c, i)
    && DoneFrom(s, i, false, w)
  }

  ghost function FlagPassage(s: Start): Passage {
    Passage((i: nat, h: nat, a, w, c) => Descending(s, i, a, w, c),
            (i: nat, h: nat, w, c, o: Outcome) => Slots(s.e, c, i) && DoneFrom(s, i, o.Ok?, w))
  }

  lemma FlagHooks(s: Start)
    requires SameObject(s.e) && SuccessPasses(s.e) && KeepFlags(s)
    ensures HooksPass(s.e, FlagPassage(s))
  {
    var x := FlagPassage(s);
    forall i, h, a, w, c | 0 <= i < s.N() && 0 <= h < |Hooks(s.e, i)| ensures BeforePasses(s.e, x, i, h, a, w, c) {
      assert SameFlags(s, w, Hooks(s.e, i)[h].before(a, w, []).0);
    }
    forall i, h, a, w, c, r | 0 <= i < s.N() && 0 <= h < |Hooks(s.e, i)|
      ensures FinishPasses(s.e, x, i, h, a, w, c, r)
    {
      var (v, o) := Hooks(s.e, i)[h].finish(a, w, [r]);
      assert Finished(s.e, i, h, a, w, r) == o && o.Ok? == r.Ok?;
      assert SameFlags(s, w, v);
      assert DoneFrom(s, i, r.Ok?, w) ==> DoneFrom(s, i, o.Ok?, v);
    }
  }

  lemma FlagSettles(s: Start, i: nat, w: World, c: Chain)
    requires s.Distinct() && i < s.N() && Slots(s.e, c, i + 1) && DoneFrom(s, i + 1, true, w)
    ensures var (w1, c1, o) := Settle(i, s.M(i), w, c); o.Ok? && c1 == c && DoneFrom(s, i, true, w1)
  {
    assert c.specs[i].Some?;
    var (w1, c1, o) := Settle(i, s.M(i), w, c);
    forall j | 0 <= j < s.N() ensures MutAt(w1, s.M(j)).done == (i <= j) {
      assert if j < i then s.M(j) != s.M(i) else j > i ==> s.M(i) != s.M(j);
      assert j != i ==> MutAt(w1, s.M(j)) == MutAt(w, s.M(j));
    }
  }

  lemma FlagBodies(s: Start, root: Ctx)
    requires s.Distinct()
    ensures BodiesPass(s.e, root, FlagPassage(s))
  {
    var e, x := s.e, FlagPassage(s);
    forall i, a, w, c | 0 <= i < s.N() && Descending(s, i, a, w, c) ensures BodyPasses(e, root, x, i, a, w, c) {
      var m := s.M(i);
      var v, d := FillWorld(e, m, w, c), FillChain(e, i, m, w, c);
      FillKeepsPointers(e, s.c, i, w, c);
      FillKeepsMutations(e, m, w, c);
      assert i + 1 < s.N() ==> Cur(e, d, i + 1) == s.M(i + 1);
      assert Descending(s, i + 1, NextArg(e, root, i, a, d), v, d);
      forall w2, c2, o: Outcome | Slots(e, c2, i + 1) && DoneFrom(s, i + 1, o.Ok?, w2)
        ensures o.Err? ==> DoneFrom(s, i, false, w2)
        ensures o.Ok? ==> var (w1, c1, o1) := Settle(i, m, w2, c2); o1.Ok? && c1 == c2 && DoneFrom(s, i, true, w1)
      {
        if o.Ok? {
          FlagSettles(s, i, w2, c2);
        }
      }
      assert Unwinds(e, x, i, m);
    }
  }

  lemma FlagBatch(s: Start)
    ensures BatchPasses(s.e, FlagPassage(s))
  {
    forall a: Arg, w, c | Descending(s, s.N(), a, w, c)
      ensures var (w1, c1, o) := BatchCreate(s.e, a.ctx, w, c); Slots(s.e, c1, s.N()) && DoneFrom(s, s.N(), o.Ok?, w1)
    {
      BatchKeepsMutations(s.e, a.ctx, w, c);
      var (w1, c1, o) := BatchCreate(s.e, a.ctx, w, c);
      assert forall m :: MutAt(w1, m) == MutAt(w, m);
    }
  }

  /** MAIN: with hooks that call `next` once, forward the object they were given, leave the done flags alone and
      return success exactly if they get it (they may edit payloads and write the store and the nodes), the
      flags of all n different mutations are set if the save succeeds, and none is if it fails. */
  lemma AllOrNone(e: Env, root: Ctx, cur: map<nat, nat>, w: World)
    requires CallOnce(e) && SameObject(e) && SuccessPasses(e) && KeepFlags(StartOf(e, cur, w))
    requires StartOf(e, cur, w).Distinct() && DoneFrom(StartOf(e, cur, w), 0, false, w)
    ensures var s, (w1, c1, r) := StartOf(e, cur, w), Save(e, root, cur, w);
      forall j :: 0 <= j < |e.builders| ==> MutAt(w1, s.M(j)).done == r.Success?
  {
    var s := StartOf(e, cur, w);
    DefaultsKeepTheRest(e, cur, w, s.N());
    if s.N() > 0 {
      FlagHooks(s);
      FlagBodies(s, root);
      FlagBatch(s);
      assert DoneFrom(s, 0, false, s.w);
      SavePasses(e, root, FlagPassage(s), cur, w);
      var (w1, c1, o) := RunChain(e, root, s.w, s.c);
      assert DoneFrom(s, 0, o.Ok?, w1);
    }
  }
}
