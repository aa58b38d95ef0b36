/** What a successful bulk save returns: the nodes, their IDs, and where the mutations' ID pointers lead. */
module BulkNodes {
  import opened Entity
  import opened Onion
  import opened Bulk
  import opened BulkInduction
  import opened BulkInvariants
  import opened BulkOutcome
  import opened BulkFlags
  import BulkSafety

  /** The spec carries the row of the payload it was built from. */
  predicate Honest(e: Env, spec: Spec) {
    spec.row == e.row(spec.from)
  }

  /** Node `j` shows that payload, beside its ID. */
  predicate Shows(e: Env, w: World, c: Chain, j: nat)
    requires j < |c.heap|
  {
    MsgAt(w, j).(id := 0) == e.node(c.heap[j].from).(id := 0)
  }

  /** What is needed for the ID pointers: bodies settle the builders' own mutations, these are different, and
      no hook changes a pointer after the fact. */
  ghost predicate Pointing(s: Start) {
    SameObject(s.e) && s.Distinct() && KeepPointersAfter(s)
  }

  /** On the way in at level `i`: objects 0..i are made, and not numbered yet. */
  ghost predicate Made(s: Start, i: nat, w: World, c: Chain) {
    && FilledUpTo(s.e, c, i)
    && (forall j :: 0 <= j < i ==> Honest(s.e, c.heap[j]) && c.heap[j].id.None?)
    && (KeepNodeIDs(s.e) ==> forall j: nat :: j < i ==> MsgAt(w, j).id == 0)
    && (KeepNodeContents(s.e) ==> forall j: nat :: j < i ==> Shows(s.e, w, c, j))
  }

  ghost predicate Making(s: Start, i: nat, a: Arg, w: World, c: Chain) {
    && Made(s, i, w, c)
    && (SameObject(s.e) ==> SameCur(s.e, s.c, c) && (i < s.N() ==> a.m == Msg(s.M(i))))
  }

  /** The batch insert was made of honest specs and accepted, and gave the specs their IDs. */
  ghost predicate Stored(s: Start, c: Chain) {
    && FilledUpTo(s.e, c, s.N())
    && (forall j :: 0 <= j < s.N() ==> Honest(s.e, c.heap[j]))
    && exists db :: NumberedBy(s, db, c)
  }

  ghost predicate NumberedBy(s: Start, db: Db, c: Chain) {
    && |c.heap| == s.N()
    && StatusIn(AnswerTo(s.e, db, c)).None?
    && forall j :: 0 <= j < s.N() ==> c.heap[j].id == IDIn(AnswerTo(s.e, db, c), j)
  }

  ghost predicate NodesHold(s: Start, i: nat, w: World, c: Chain)
    requires |c.heap| == s.N()
  {
    && (KeepNodeIDs(s.e) ==> forall j :: 0 <= j < s.N() ==>
         MsgAt(w, j).id == if i <= j then c.heap[j].id.GetOr(0) else 0)
    && (KeepNodeContents(s.e) ==> forall j :: 0 <= j < s.N() ==> Shows(s.e, w, c, j))
  }

  /** On the way out at level `i`, with success: the nodes of builders i..n are numbered, and pointed to. */
  ghost predicate Settled(s: Start, i: nat, w: World, c: Chain) {
    && Stored(s, c)
    && NodesHold(s, i, w, c)
    && (Pointing(s) ==> forall j :: i <= j < s.N() ==> MutAt(w, s.M(j)).id == Some(j))
  }

  ghost function NodePassage(s: Start): Passage {
    Passage((i: nat, h: nat, a, w, c) => Making(s, i, a, w, c),
            (i: nat, h: nat, w, c, o: Outcome) => o.Ok? ==> Settled(s, i, w, c))
  }

  // ---------------------------------------------------------------- one lemma per kind of step

  lemma MakingHook(s: Start, i: nat, h: nat, a: Arg, w: World, c: Chain)
    requires i < s.N() && h < |Hooks(s.e, i)| && Making(s, i, a, w, c)
    ensures var (w1, a1) := Hooks(s.e, i)[h].before(a, w, []); Making(s, i, a1, w1, c)
  {
    var (w1, a1) := Hooks(s.e, i)[h].before(a, w, []);
    assert SameObject(s.e) ==> a1.m == a.m;
    assert KeepNodeIDs(s.e) ==> SameNodeIDs(w, w1);
    if KeepNodeContents(s.e) {
      assert SameNodeContents(w, w1);
      forall j: nat | j < i ensures Shows(s.e, w1, c, j) {
        assert Shows(s.e, w, c, j);
      }
    }
  }

  lemma SettledHook(s: Start, i: nat, h: nat, a: Arg, w: World, c: Chain, r: Outcome)
    requires i < s.N() && h < |Hooks(s.e, i)| && Settled(s, i, w, c)
    ensures var (w1, r1) := Hooks(s.e, i)[h].finish(a, w, [r]); Settled(s, i, w1, c)
  {
    var (w1, r1) := Hooks(s.e, i)[h].finish(a, w, [r]);
    assert KeepNodeIDs(s.e) ==> SameNodeIDs(w, w1);
    assert KeepPointersAfter(s) ==> SamePointers(s, w, w1);
    if KeepNodeContents(s.e) {
      assert SameNodeContents(w, w1);
      forall j | 0 <= j < s.N() ensures Shows(s.e, w1, c, j) {
        assert Shows(s.e, w, c, j);
      }
    }
  }

  lemma HooksPassNodes(s: Start)
    requires ErrorsStay(s.e)
    ensures HooksPass(s.e, NodePassage(s))
  {
    var x := NodePassage(s);
    forall i, h, a, w, c | 0 <= i < s.N() && 0 <= h < |Hooks(s.e, i)| ensures BeforePasses(s.e, x, i, h, a, w, c) {
      if Making(s, i, a, w, c) {
        MakingHook(s, i, h, a, w, c);
      }
    }
    forall i, h, a, w, c, r | 0 <= i < s.N() && 0 <= h < |Hooks(s.e, i)|
      ensures FinishPasses(s.e, x, i, h, a, w, c, r)
    {
      assert r.Err? ==> Finished(s.e, i, h, a, w, r).Err?;
      if Settled(s, i, w, c) {
        SettledHook(s, i, h, a, w, c, r);
      }
    }
  }

  lemma MakeNext(s: Start, i: nat, m: nat, w: World, c: Chain)
    requires Blank(s.e) && i < s.N() && Made(s, i, w, c)
    ensures Made(s, i + 1, FillWorld(s.e, m, w, c), FillChain(s.e, i, m, w, c))
  {
    var v, d := FillWorld(s.e, m, w, c), FillChain(s.e, i, m, w, c);
    FillKeepsMutations(s.e, m, w, c);
    forall j: nat | j <= i
      ensures Honest(s.e, d.heap[j]) && d.heap[j].id.None?
      ensures KeepNodeIDs(s.e) ==> MsgAt(v, j).id == 0
      ensures KeepNodeContents(s.e) ==> Shows(s.e, v, d, j)
    {
      if j < i {
        assert d.heap[j] == c.heap[j] && MsgAt(v, j) == MsgAt(w, j);
        assert KeepNodeContents(s.e) ==> Shows(s.e, w, c, j);
      }
    }
  }

  lemma SettleNode(s: Start, i: nat, m: nat, w: World, c: Chain)
    requires i < s.N() && Settled(s, i + 1, w, c) && (SameObject(s.e) ==> m == s.M(i))
    ensures var (w1, c1, o) := Settle(i, m, w, c); c1 == c && o.Ok? && Settled(s, i, w1, c)
  {
    assert c.nodes[i] == c.specs[i] == Some(i);
    var (w1, c1, o) := Settle(i, m, w, c);
    NumberNode(s, i, w, w1, c);
    forall j | i <= j < s.N() && Pointing(s) ensures MutAt(w1, s.M(j)).id == Some(j) {
      if j > i {
        assert s.M(i) != s.M(j);
        assert MutAt(w1, s.M(j)) == MutAt(w, s.M(j));
      }
    }
  }

  lemma NumberNode(s: Start, i: nat, w: World, v: World, c: Chain)
    requires i < s.N() && |c.heap| == s.N() && NodesHold(s, i + 1, w, c)
    requires v.msgs == if c.heap[i].id.Some? then w.msgs[i := MsgAt(w, i).(id := c.heap[i].id.value)] else w.msgs
    ensures NodesHold(s, i, v, c)
  {
    forall j | 0 <= j < s.N()
      ensures KeepNodeIDs(s.e) ==> MsgAt(v, j).id == if i <= j then c.heap[j].id.GetOr(0) else 0
      ensures KeepNodeContents(s.e) ==> Shows(s.e, v, c, j)
    {
      assert KeepNodeContents(s.e) ==> Shows(s.e, w, c, j);
      assert j != i ==> MsgAt(v, j) == MsgAt(w, j);
    }
  }

  lemma BodiesPassNodes(s: Start, root: Ctx)
    requires Blank(s.e)
    ensures BodiesPass(s.e, root, NodePassage(s))
  {
    var e, x := s.e, NodePassage(s);
    forall i, a, w, c | 0 <= i < s.N() && Making(s, i, a, w, c) ensures BodyPasses(e, root, x, i, a, w, c) {
      if a.m.Msg? {
        var m := a.m.addr;
        var d := FillChain(e, i, m, w, c);
        MakeNext(s, i, m, w, c);
        if SameObject(e) {
          FillKeepsPointers(e, s.c, i, w, c);
          assert i + 1 < s.N() ==> Cur(e, d, i + 1) == s.M(i + 1);
        }
        NodeUnwinds(s, i, m);
      }
    }
  }

  lemma NodeUnwinds(s: Start, i: nat, m: nat)
    requires i < s.N() && (SameObject(s.e) ==> m == s.M(i))
    ensures Unwinds(s.e, NodePassage(s), i, m)
  {
    forall w, c | Settled(s, i + 1, w, c)
      ensures var (w1, c1, o) := Settle(i, m, w, c); o.Ok? && Settled(s, i, w1, c1)
    {
      SettleNode(s, i, m, w, c);
    }
  }

  lemma NodesStored(s: Start, ctx: Ctx, w: World, c: Chain)
    requires Made(s, s.N(), w, c)
    ensures var (w1, c1, o) := BatchCreate(s.e, ctx, w, c); o.Ok? ==> Settled(s, s.N(), w1, c1)
  {
    var (w1, c1, o) := BatchCreate(s.e, ctx, w, c);
    BatchKeepsMutations(s.e, ctx, w, c);
    BatchAnswers(s, ctx, w, c);
    if o.Ok? {
      assert NumberedBy(s, w.db, c1);
      assert forall a :: MsgAt(w1, a) == MsgAt(w, a);
      forall j | 0 <= j < s.N() ensures Honest(s.e, c1.heap[j]) && c1.heap[j].from == c.heap[j].from {
      }
      forall j | 0 <= j < s.N() && KeepNodeContents(s.e) ensures Shows(s.e, w1, c1, j) {
        assert Shows(s.e, w, c, j);
      }
    }
  }

  lemma EmitsPassNodes(s: Start)
    ensures EmitsPass(s.e, NodePassage(s))
  {
    forall i: nat, h: nat, w, c: Chain | Settled(s, i, w, c) ensures Settled(s, i, w, c.Emit(Out(i, h))) {
      var d := c.Emit(Out(i, h));
      var db :| NumberedBy(s, db, c);
      assert AnswerTo(s.e, db, d) == AnswerTo(s.e, db, c);
      assert NumberedBy(s, db, d);
      assert forall j :: 0 <= j < s.N() && Shows(s.e, w, c, j) ==> Shows(s.e, w, d, j);
    }
    forall i: nat, h: nat, a, w, c: Chain | Making(s, i, a, w, c) ensures Making(s, i, a, w, c.Emit(In(i, h, a))) {
      assert forall j: nat :: j < i && Shows(s.e, w, c, j) ==> Shows(s.e, w, c.Emit(In(i, h, a)), j);
    }
  }

  // ---------------------------------------------------------------- what a successful save returns

  /** MAIN: with hooks that call `next` once and do not turn errors into success (they may edit payloads, forward
      other objects, write the store), a successful save returns n nodes, one for each spec of the batch that
      the store accepted; as far as hooks leave the nodes alone, each shows the payload its spec was sent for,
      under the ID that the store gave to that spec (0 if it gave none). */
  lemma SavedNodes(e: Env, root: Ctx, cur: map<nat, nat>, w: World)
    requires CallOnce(e) && ErrorsStay(e) && Blank(e) && |e.builders| > 0
    ensures var s, (w1, c1, r) := StartOf(e, cur, w), Save(e, root, cur, w);
      r.Success? ==>
        && Settled(s, 0, w1, c1)
        && r.value == c1.nodes
        && forall j :: 0 <= j < |e.builders| ==> r.value[j] == Some(j)
  {
    var s := StartOf(e, cur, w);
    HooksPassNodes(s);
    BodiesPassNodes(s, root);
    forall a: Arg, w, c | Making(s, s.N(), a, w, c)
      ensures var (w1, c1, o) := BatchCreate(e, a.ctx, w, c); o.Ok? ==> Settled(s, s.N(), w1, c1)
    {
      NodesStored(s, a.ctx, w, c);
    }
    EmitsPassNodes(s);
    assert Making(s, 0, Arg(root, Msg(s.M(0))), s.w, s.c);
    SavePasses(e, root, NodePassage(s), cur, w);
    var (w1, c1, o) := RunChain(e, root, s.w, s.c);
    assert o.Ok? ==> Settled(s, 0, w1, c1);
  }

  /** Every mutation's ID pointer points into its own builder's node. */
  ghost predicate PointersMatch(s: Start, w: World, c: Chain) {
    && |c.nodes| == s.N()
    && forall j :: 0 <= j < s.N() ==> c.nodes[j].Some? && MutAt(w, s.M(j)).id == c.nodes[j]
  }

  /** MAIN: after a successful save with such hooks, which forward the object they were given and change no ID
      pointer after the fact: each mutation's pointer leads to its builder's node if and only if the mutations
      are different; and then the node there holds the ID the store gave to that builder's spec (0 if it gave
      none), although the pointer was taken before the ID was written. */
  lemma IDAliasing(e: Env, root: Ctx, cur: map<nat, nat>, w: World)
    requires CallOnce(e) && ErrorsStay(e) && Blank(e) && |e.builders| > 0
    requires SameObject(e) && KeepPointersAfter(StartOf(e, cur, w)) && KeepNodeIDs(e)
    requires Save(e, root, cur, w).2.Success?
    ensures var s, (w1, c1, r) := StartOf(e, cur, w), Save(e, root, cur, w);
      && (PointersMatch(s, w1, c1) <==> s.Distinct())
      && (exists db :: NumberedBy(s, db, c1))
      && (s.Distinct() ==> forall j :: 0 <= j < |e.builders| ==>
           MsgAt(w1, MutAt(w1, s.M(j)).id.value).id == c1.heap[j].id.GetOr(0))
  {
    var s := StartOf(e, cur, w);
    var (w1, c1, r) := Save(e, root, cur, w);
    SavedNodes(e, root, cur, w);
    PointersMatchOnlyIfDistinct(e, root, cur, w);
    if s.Distinct() {
      forall j | 0 <= j < s.N() ensures MutAt(w1, s.M(j)).id == Some(j) == c1.nodes[j] {
        assert Pointing(s);
      }
    }
  }

  /** With any hooks at all: the pointers can match only if no two builders share a mutation object, since no two
      builders share a node. */
  lemma PointersMatchOnlyIfDistinct(e: Env, root: Ctx, cur: map<nat, nat>, w: World)
    ensures var s, (w1, c1, r) := StartOf(e, cur, w), Save(e, root, cur, w);
      PointersMatch(s, w1, c1) ==> s.Distinct()
  {
    var s := StartOf(e, cur, w);
    var (w1, c1, r) := Save(e, root, cur, w);
    BulkSafety.SlotsAreDistinct(e, root, cur, w);
    if PointersMatch(s, w1, c1) {
      forall i, j | 0 <= i < j < s.N() ensures s.M(i) != s.M(j) {
        assert MutAt(w1, s.M(i)).id == c1.nodes[i] && MutAt(w1, s.M(j)).id == c1.nodes[j];
        assert c1.specs[i] != c1.specs[j];
      }
    }
  }
}
