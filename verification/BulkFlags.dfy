/** Saves whose hooks call `next` once and may turn errors into success and back: the exact result, which
    mutations are marked done, and when those are all of them or none. */
module BulkFlags {
  import opened Entity
  import opened Onion
  import opened Bulk
  import opened BulkInduction
  import opened BulkInvariants
  import opened BulkOutcome

  /** Success, or an error. */
  type Status = Option<Error>

  function StatusOf(o: Outcome): Status {
    if o.Err? then Some(o.e) else None
  }

  /** What hook `h` of position `i` makes of the status it gets. */
  type Fate = (nat, nat, Status) -> Status

  ghost predicate Decides(e: Env, fate: Fate) {
    forall i, h, a, w, r :: 0 <= i < |e.builders| && 0 <= h < |Hooks(e, i)| ==>
      StatusOf(Finished(e, i, h, a, w, r)) == fate(i, h, StatusOf(r))
  }

  /** What layer (i, h) returns, given what the batch insert returns (if the run gets there). */
  function Verdict(s: Start, fate: Fate, batch: Status, i: nat, h: nat): Status
    requires Place(s.e, i, h)
    decreases s.N() - i, if i < s.N() then |Hooks(s.e, i)| - h else 0
  {
    if i == s.N() then batch
    else if h < |Hooks(s.e, i)| then fate(i, h, Verdict(s, fate, batch, i, h + 1))
    else if i == s.Bad() then Some(s.CheckError())
    else Verdict(s, fate, batch, i + 1, 0)
  }

  /** Body `j` gets success from below, and settles its mutation. */
  predicate Won(s: Start, fate: Fate, batch: Status, j: nat)
    requires j < s.N()
  {
    j < s.Bad() && Verdict(s, fate, batch, j + 1, 0).None?
  }

  function RefusalOf(a: Answer): Error
    requires a.Refused?
  {
    if a.constraint then ConstraintError(a.msg) else DbError(a.msg)
  }

  /** The store's answer to a batch insert of the slots when it holds `db`; none is made of nil slots. */
  function AnswerTo(e: Env, db: Db, c: Chain): Option<Answer> {
    if AllFilled(c.specs, c.heap) then Some(e.store(db, SlotRows(c.specs, c.heap))) else None
  }

  /** What the batch insert then returns. */
  function StatusIn(ans: Option<Answer>): Status {
    match ans
    case None => Some(NilDereference)
    case Some(Done(_, _)) => None
    case Some(a) => Some(RefusalOf(a))
  }

  /** The ID it gives to spec `j`, if any. */
  function IDIn(ans: Option<Answer>, j: nat): Option<int> {
    match ans
    case Some(Done(_, ids)) => if j in ids then Some(ids[j]) else None
    case _ => None
  }

  /** Nodes are created without an ID. */
  ghost predicate Blank(e: Env) {
    forall f :: e.node(f).id == 0
  }

  // ---------------------------------------------------------------- the way in

  /** The specs built so far are the rows of the payloads at the start. */
  ghost predicate RowsOf(s: Start, k: nat, c: Chain)
    requires k <= s.N() && |c.heap| == k
  {
    forall j :: 0 <= j < k ==> c.heap[j].row == s.e.row(MutAt(s.w, s.M(j)).fields)
  }

  /** Nothing is settled yet. */
  ghost predicate Unsettled(s: Start, i: nat, w: World) {
    && SameFlags(s, s.w, w)
    && (KeepDb(s.e) ==> w.db == s.w.db)
    && (KeepPointers(s) ==> SamePointers(s, s.w, w))
    && (KeepNodeIDs(s.e) && Blank(s.e) ==> forall j: nat :: j < i ==> MsgAt(w, j).id == 0)
  }

  ghost predicate Going(s: Start, i: nat, a: Arg, w: World, c: Chain) {
    && i <= s.Bad()
    && (i < s.N() ==> a.m == Msg(s.M(i)))
    && SameCur(s.e, s.c, c)
    && FilledUpTo(s.e, c, i)
    && (forall j :: 0 <= j < i ==> c.heap[j].id.None?)
    && SameChecks(s, s.w, w)
    && Unsettled(s, i, w)
    && (KeepPayloads(s) ==> SamePayloads(s, s.w, w) && RowsOf(s, i, c))
  }

  // ---------------------------------------------------------------- the way out

  /** What the world holds at level `i`, given the store's answer. */
  ghost predicate Settled(s: Start, fate: Fate, ans: Option<Answer>, i: nat, w: World) {
    && (forall j :: 0 <= j < s.N() ==> FlagSettled(s, fate, ans, i, j, w))
    && (KeepPointers(s) ==> forall j :: 0 <= j < s.N() ==> PointerSettled(s, fate, ans, i, j, w))
    && (KeepNodeIDs(s.e) && Blank(s.e) ==> forall j :: 0 <= j < s.Bad() ==> NodeSettled(s, fate, ans, i, j, w))
  }

  predicate WonFrom(s: Start, fate: Fate, ans: Option<Answer>, i: nat, j: nat)
    requires j < s.N()
  {
    i <= j && Won(s, fate, StatusIn(ans), j)
  }

  ghost predicate FlagSettled(s: Start, fate: Fate, ans: Option<Answer>, i: nat, j: nat, w: World)
    requires j < s.N()
  {
    MutAt(w, s.M(j)).done == (WonFrom(s, fate, ans, i, j) || MutAt(s.w, s.M(j)).done)
  }

  ghost predicate PointerSettled(s: Start, fate: Fate, ans: Option<Answer>, i: nat, j: nat, w: World)
    requires j < s.N()
  {
    MutAt(w, s.M(j)).id == if WonFrom(s, fate, ans, i, j) then Some(j) else MutAt(s.w, s.M(j)).id
  }

  ghost predicate NodeSettled(s: Start, fate: Fate, ans: Option<Answer>, i: nat, j: nat, w: World)
    requires j < s.N()
  {
    MsgAt(w, j).id == if WonFrom(s, fate, ans, i, j) then IDIn(ans, j).GetOr(0) else 0
  }

  /** What the store holds, if no hook writes it. */
  ghost predicate StoreLeft(s: Start, db: Db, ans: Option<Answer>, w: World) {
    KeepDb(s.e) ==> db == s.w.db && w.db == if StatusIn(ans).None? then ans.value.db else s.w.db
  }

  /** The captured variables. */
  ghost predicate ChainLeft(s: Start, ans: Option<Answer>, c: Chain) {
    && FilledUpTo(s.e, c, s.Bad())
    && (forall j :: 0 <= j < s.Bad() ==> c.heap[j].id == IDIn(ans, j))
    && (KeepPayloads(s) ==> RowsOf(s, s.Bad(), c))
  }

  ghost predicate Left(s: Start, fate: Fate, db: Db, i: nat, h: nat, w: World, c: Chain, o: Outcome)
    requires Place(s.e, i, h)
  {
    var ans := AnswerTo(s.e, db, c);
    && ChainLeft(s, ans, c)
    && StoreLeft(s, db, ans, w)
    && Settled(s, fate, ans, i, w)
    && StatusOf(o) == Verdict(s, fate, StatusIn(ans), i, h)
  }

  ghost predicate LeftSome(s: Start, fate: Fate, i: nat, h: nat, w: World, c: Chain, o: Outcome) {
    Place(s.e, i, h) && i <= s.Bad() ==> exists db :: Left(s, fate, db, i, h, w, c, o)
  }

  ghost function VerdictPassage(s: Start, fate: Fate): Passage {
    Passage((i: nat, h: nat, a, w, c) => Going(s, i, a, w, c),
            (i: nat, h: nat, w, c, o) => LeftSome(s, fate, i, h, w, c, o))
  }

  // ---------------------------------------------------------------- one lemma per kind of step

  lemma GoingHook(s: Start, i: nat, h: nat, a: Arg, w: World, c: Chain)
    requires SameObject(s.e) && KeepFlags(s) && KeepChecks(s)
    requires i < s.N() && h < |Hooks(s.e, i)| && Going(s, i, a, w, c)
    ensures var (w1, a1) := Hooks(s.e, i)[h].before(a, w, []); Going(s, i, a1, w1, c)
  {
    var (w1, a1) := Hooks(s.e, i)[h].before(a, w, []);
    assert SameFlags(s, w, w1) && SameChecks(s, w, w1);
    assert KeepDb(s.e) ==> SameDb(w, w1);
    assert KeepPointers(s) ==> SamePointers(s, w, w1);
    assert KeepNodeIDs(s.e) ==> SameNodeIDs(w, w1);
    assert KeepPayloads(s) ==> SamePayloads(s, w, w1);
    forall j | 0 <= j < s.N() ensures SameCheck(s, j, s.w, w1) {
      assert SameCheck(s, j, s.w, w) && SameCheck(s, j, w, w1);
    }
  }

  /** A hook's step on the way out. */
  lemma SettledKept(s: Start, fate: Fate, ans: Option<Answer>, i: nat, w: World, v: World)
    requires Settled(s, fate, ans, i, w) && SameFlags(s, w, v)
    requires (KeepPointers(s) ==> SamePointers(s, w, v)) && (KeepNodeIDs(s.e) ==> SameNodeIDs(w, v))
    ensures Settled(s, fate, ans, i, v)
  {
    forall j | 0 <= j < s.N()
      ensures FlagSettled(s, fate, ans, i, j, v)
      ensures KeepPointers(s) ==> PointerSettled(s, fate, ans, i, j, v)
      ensures KeepNodeIDs(s.e) && Blank(s.e) && j < s.Bad() ==> NodeSettled(s, fate, ans, i, j, v)
    {
      assert FlagSettled(s, fate, ans, i, j, w);
      assert KeepPointers(s) ==> PointerSettled(s, fate, ans, i, j, w);
      assert KeepNodeIDs(s.e) && Blank(s.e) && j < s.Bad() ==> NodeSettled(s, fate, ans, i, j, w);
    }
  }

  lemma LeftHook(s: Start, fate: Fate, db: Db, i: nat, h: nat, a: Arg, w: World, c: Chain, r: Outcome)
    requires KeepFlags(s) && Decides(s.e, fate) && i < s.N() && h < |Hooks(s.e, i)|
    requires Left(s, fate, db, i, h + 1, w, c, r)
    ensures var (w1, r1) := Hooks(s.e, i)[h].finish(a, w, [r]); Left(s, fate, db, i, h, w1, c, r1)
  {
    var (w1, r1) := Hooks(s.e, i)[h].finish(a, w, [r]);
    assert Finished(s.e, i, h, a, w, r) == r1;
    assert SameFlags(s, w, w1);
    assert KeepDb(s.e) ==> SameDb(w, w1);
    assert KeepPointers(s) ==> SamePointers(s, w, w1);
    assert KeepNodeIDs(s.e) ==> SameNodeIDs(w, w1);
    SettledKept(s, fate, AnswerTo(s.e, db, c), i, w, w1);
  }

  lemma LeftSomeHook(s: Start, fate: Fate, i: nat, h: nat, a: Arg, w: World, c: Chain, r: Outcome)
    requires KeepFlags(s) && Decides(s.e, fate) && i < s.N() && h < |Hooks(s.e, i)|
    requires LeftSome(s, fate, i, h + 1, w, c, r)
    ensures var (w1, r1) := Hooks(s.e, i)[h].finish(a, w, [r]); LeftSome(s, fate, i, h, w1, c, r1)
  {
    if i <= s.Bad() {
      var h1 := h + 1;
      var db :| Left(s, fate, db, i, h1, w, c, r);
      LeftHook(s, fate, db, i, h, a, w, c, r);
    }
  }

  lemma HooksPassVerdict(s: Start, fate: Fate)
    requires SameObject(s.e) && KeepFlags(s) && KeepChecks(s) && Decides(s.e, fate)
    ensures HooksPass(s.e, VerdictPassage(s, fate))
  {
    var x := VerdictPassage(s, fate);
    forall i, h, a, w, c | 0 <= i < s.N() && 0 <= h < |Hooks(s.e, i)| ensures BeforePasses(s.e, x, i, h, a, w, c) {
      if Going(s, i, a, w, c) {
        GoingHook(s, i, h, a, w, c);
      }
    }
    forall i, h, a, w, c, r | 0 <= i < s.N() && 0 <= h < |Hooks(s.e, i)|
      ensures FinishPasses(s.e, x, i, h, a, w, c, r)
    {
      if LeftSome(s, fate, i, h + 1, w, c, r) {
        LeftSomeHook(s, fate, i, h, a, w, c, r);
      }
    }
  }

  /** The first invalid builder's body refuses. */
  lemma Refuses(s: Start, fate: Fate, i: nat, a: Arg, w: World, c: Chain)
    requires i == s.Bad() < s.N() && Going(s, i, a, w, c)
    ensures Left(s, fate, s.w.db, i, |Hooks(s.e, i)|, w, c, Err(s.CheckError()))
  {
    assert c.specs[i].None? && !AllFilled(c.specs, c.heap);
  }

  lemma FillGoes(s: Start, root: Ctx, i: nat, a: Arg, w: World, c: Chain)
    requires i < s.Bad() && Going(s, i, a, w, c)
    ensures var m := s.M(i);
      var v, d := FillWorld(s.e, m, w, c), FillChain(s.e, i, m, w, c);
      Going(s, i + 1, NextArg(s.e, root, i, a, d), v, d)
  {
    var m := s.M(i);
    var v, d := FillWorld(s.e, m, w, c), FillChain(s.e, i, m, w, c);
    FillsNext(s, i, w, c);
    FillUnsettled(s, i, w, c);
    GoesOn(s, root, i, a, w, c, v, d);
  }

  lemma GoesOn(s: Start, root: Ctx, i: nat, a: Arg, w: World, c: Chain, v: World, d: Chain)
    requires i < s.Bad() && Going(s, i, a, w, c)
    requires SameCur(s.e, s.c, d) && FilledUpTo(s.e, d, i + 1) && forall j :: 0 <= j <= i ==> d.heap[j].id.None?
    requires SameChecks(s, s.w, v) && Unsettled(s, i + 1, v)
    requires SamePayloads(s, s.w, w) ==> SamePayloads(s, s.w, v)
    requires SamePayloads(s, s.w, w) && RowsOf(s, i, c) ==> RowsOf(s, i + 1, d)
    ensures Going(s, i + 1, NextArg(s.e, root, i, a, d), v, d)
  {
    assert i + 1 < s.N() ==> Cur(s.e, d, i + 1) == s.M(i + 1);
  }

  lemma FillsNext(s: Start, i: nat, w: World, c: Chain)
    requires i < s.N() && SameCur(s.e, s.c, c) && FilledUpTo(s.e, c, i) && forall j :: 0 <= j < i ==> c.heap[j].id.None?
    ensures var d := FillChain(s.e, i, s.M(i), w, c);
      && SameCur(s.e, s.c, d)
      && FilledUpTo(s.e, d, i + 1)
      && (forall j :: 0 <= j <= i ==> d.heap[j].id.None?)
      && (SamePayloads(s, s.w, w) && RowsOf(s, i, c) ==> RowsOf(s, i + 1, d))
  {
    FillKeepsPointers(s.e, s.c, i, w, c);
  }

  lemma FillUnsettled(s: Start, i: nat, w: World, c: Chain)
    requires i < s.Bad() && |c.heap| == i && SameChecks(s, s.w, w) && Unsettled(s, i, w)
    ensures var v := FillWorld(s.e, s.M(i), w, c);
      && SameChecks(s, s.w, v) && Unsettled(s, i + 1, v) && (SamePayloads(s, s.w, w) ==> SamePayloads(s, s.w, v))
  {
    var v := FillWorld(s.e, s.M(i), w, c);
    FillKeepsMutations(s.e, s.M(i), w, c);
    forall j | 0 <= j < s.N() ensures SameCheck(s, j, s.w, v) {
      assert SameCheck(s, j, s.w, w);
    }
  }

  /** Settling body `i`'s mutation. */
  lemma SettleLeaves(s: Start, fate: Fate, db: Db, i: nat, w: World, c: Chain, o: Outcome)
    requires s.Distinct() && i < s.Bad() && o.Ok? && Left(s, fate, db, i + 1, 0, w, c, o)
    ensures var (w1, c1, o1) := Settle(i, s.M(i), w, c);
      c1 == c && o1.Ok? && Left(s, fate, db, i, |Hooks(s.e, i)|, w1, c1, o1)
  {
    var ans := AnswerTo(s.e, db, c);
    var (w1, c1, o1) := Settle(i, s.M(i), w, c);
    assert WonFrom(s, fate, ans, i, i);
    assert c.nodes[i] == c.specs[i] == Some(i);
    forall j | 0 <= j < s.N()
      ensures FlagSettled(s, fate, ans, i, j, w1)
      ensures KeepPointers(s) ==> PointerSettled(s, fate, ans, i, j, w1)
    {
      assert FlagSettled(s, fate, ans, i + 1, j, w);
      assert KeepPointers(s) ==> PointerSettled(s, fate, ans, i + 1, j, w);
      if j != i {
        assert if j < i then s.M(j) != s.M(i) else s.M(i) != s.M(j);
        assert MutAt(w1, s.M(j)) == MutAt(w, s.M(j));
      }
    }
    forall j | 0 <= j < s.Bad()
      ensures KeepNodeIDs(s.e) && Blank(s.e) ==> NodeSettled(s, fate, ans, i, j, w1)
    {
      assert KeepNodeIDs(s.e) && Blank(s.e) ==> NodeSettled(s, fate, ans, i + 1, j, w);
      assert j != i ==> MsgAt(w1, j) == MsgAt(w, j);
    }
  }

  /** Returning an error leaves body `i`'s mutation alone. */
  lemma ErrorLeaves(s: Start, fate: Fate, db: Db, i: nat, w: World, c: Chain, o: Outcome)
    requires i < s.Bad() && o.Err? && Left(s, fate, db, i + 1, 0, w, c, o)
    ensures Left(s, fate, db, i, |Hooks(s.e, i)|, w, c, o)
  {
    var ans := AnswerTo(s.e, db, c);
    assert Verdict(s, fate, StatusIn(ans), i, |Hooks(s.e, i)|) == Verdict(s, fate, StatusIn(ans), i + 1, 0);
    NotWon(s, fate, ans, i, w);
  }

  lemma NotWon(s: Start, fate: Fate, ans: Option<Answer>, i: nat, w: World)
    requires i < s.Bad() && Settled(s, fate, ans, i + 1, w) && Verdict(s, fate, StatusIn(ans), i + 1, 0).Some?
    ensures Settled(s, fate, ans, i, w)
  {
    assert !Won(s, fate, StatusIn(ans), i);
    forall j | 0 <= j < s.N()
      ensures FlagSettled(s, fate, ans, i, j, w)
      ensures KeepPointers(s) ==> PointerSettled(s, fate, ans, i, j, w)
      ensures KeepNodeIDs(s.e) && Blank(s.e) && j < s.Bad() ==> NodeSettled(s, fate, ans, i, j, w)
    {
      assert WonFrom(s, fate, ans, i, j) == WonFrom(s, fate, ans, i + 1, j);
      assert FlagSettled(s, fate, ans, i + 1, j, w);
      assert KeepPointers(s) ==> PointerSettled(s, fate, ans, i + 1, j, w);
      assert KeepNodeIDs(s.e) && Blank(s.e) && j < s.Bad() ==> NodeSettled(s, fate, ans, i + 1, j, w);
    }
  }

  lemma BodyUnwinds(s: Start, fate: Fate, i: nat, w: World, c: Chain, o: Outcome)
    requires s.Distinct() && i < s.Bad() && LeftSome(s, fate, i + 1, 0, w, c, o)
    ensures if o.Err? then LeftSome(s, fate, i, |Hooks(s.e, i)|, w, c, o)
            else var (w1, c1, o1) := Settle(i, s.M(i), w, c); LeftSome(s, fate, i, |Hooks(s.e, i)|, w1, c1, o1)
  {
    var db :| Left(s, fate, db, i + 1, 0, w, c, o);
    if o.Err? {
      ErrorLeaves(s, fate, db, i, w, c, o);
    } else {
      SettleLeaves(s, fate, db, i, w, c, o);
    }
  }

  lemma BodiesPassVerdict(s: Start, fate: Fate, root: Ctx)
    requires s.Distinct()
    ensures BodiesPass(s.e, root, VerdictPassage(s, fate))
  {
    var e, x := s.e, VerdictPassage(s, fate);
    forall i, a, w, c | 0 <= i < s.N() && Going(s, i, a, w, c) ensures BodyPasses(e, root, x, i, a, w, c) {
      assert Cur(e, c, i) == s.M(i) && SameCheck(s, i, s.w, w);
      if i == s.Bad() {
        Refuses(s, fate, i, a, w, c);
      } else {
        FillGoes(s, root, i, a, w, c);
        BodyUnwindsAlways(s, fate, i);
      }
    }
  }

  lemma BodyUnwindsAlways(s: Start, fate: Fate, i: nat)
    requires s.Distinct() && i < s.Bad()
    ensures Unwinds(s.e, VerdictPassage(s, fate), i, s.M(i))
  {
    var x, h := VerdictPassage(s, fate), |Hooks(s.e, i)|;
    forall w, c, o: Outcome | x.leave(i + 1, 0, w, c, o)
      ensures o.Err? ==> x.leave(i, h, w, c, o)
      ensures o.Ok? ==> x.leave(i, h, Settle(i, s.M(i), w, c).0, Settle(i, s.M(i), w, c).1, Settle(i, s.M(i), w, c).2)
    {
      BodyUnwinds(s, fate, i, w, c, o);
    }
  }

  /** The batch insert's IDs, and its answer seen from the captured variables it leaves. */
  lemma BatchAnswers(s: Start, ctx: Ctx, w: World, c: Chain)
    requires FilledUpTo(s.e, c, s.N()) && forall j :: 0 <= j < s.N() ==> c.heap[j].id.None?
    ensures var (w1, c1, o) := BatchCreate(s.e, ctx, w, c);
      var ans := AnswerTo(s.e, w.db, c);
      && AnswerTo(s.e, w.db, c1) == ans
      && StatusOf(o) == StatusIn(ans)
      && (forall j :: 0 <= j < s.N() ==> c1.heap[j].id == IDIn(ans, j) && c1.heap[j].row == c.heap[j].row)
      && w1.db == if StatusIn(ans).None? then ans.value.db else w.db
  {
    var (w1, c1, o) := BatchCreate(s.e, ctx, w, c);
    assert AllFilled(c.specs, c.heap) && AllFilled(c1.specs, c1.heap);
    assert SlotRows(c1.specs, c1.heap) == SlotRows(c.specs, c.heap);
    var ans := s.e.store(w.db, SlotRows(c.specs, c.heap));
    forall j | 0 <= j < s.N() ensures c1.heap[j].id == IDIn(Some(ans), j) {
      if ans.Done? {
        WriteIDsInOrder(c.specs, c.heap, ans.ids, s.N(), j);
      }
    }
  }

  lemma BatchLeaves(s: Start, fate: Fate, a: Arg, w: World, c: Chain)
    requires s.Bad() == s.N() && Going(s, s.N(), a, w, c)
    ensures var (w1, c1, o) := BatchCreate(s.e, a.ctx, w, c); Left(s, fate, w.db, s.N(), 0, w1, c1, o)
  {
    var (w1, c1, o) := BatchCreate(s.e, a.ctx, w, c);
    BatchKeepsMutations(s.e, a.ctx, w, c);
    BatchAnswers(s, a.ctx, w, c);
    NothingSettled(s, fate, AnswerTo(s.e, w.db, c), w, w1);
  }

  lemma NothingSettled(s: Start, fate: Fate, ans: Option<Answer>, w: World, w1: World)
    requires s.Bad() == s.N() && Unsettled(s, s.N(), w) && w1.muts == w.muts && w1.msgs == w.msgs
    ensures Settled(s, fate, ans, s.N(), w1)
  {
    assert forall m :: MutAt(w1, m) == MutAt(w, m);
    assert forall m :: MsgAt(w1, m) == MsgAt(w, m);
    assert forall j :: 0 <= j < s.N() ==> !WonFrom(s, fate, ans, s.N(), j);
  }

  lemma BatchPassesVerdict(s: Start, fate: Fate)
    ensures BatchPasses(s.e, VerdictPassage(s, fate))
  {
    forall a: Arg, w, c | Going(s, s.N(), a, w, c)
      ensures var (w1, c1, o) := BatchCreate(s.e, a.ctx, w, c); LeftSome(s, fate, s.N(), 0, w1, c1, o)
    {
      BatchLeaves(s, fate, a, w, c);
    }
  }

  lemma EmitLeaves(s: Start, fate: Fate, db: Db, i: nat, h: nat, w: World, c: Chain, o: Outcome)
    requires Place(s.e, i, h) && Left(s, fate, db, i, h, w, c, o)
    ensures Left(s, fate, db, i, h, w, c.Emit(Out(i, h)), o)
  {
    assert AnswerTo(s.e, db, c.Emit(Out(i, h))) == AnswerTo(s.e, db, c);
  }

  lemma EmitsPassVerdict(s: Start, fate: Fate)
    ensures EmitsPass(s.e, VerdictPassage(s, fate))
  {
    forall i: nat, h: nat, w, c: Chain, o | LeftSome(s, fate, i, h, w, c, o)
      ensures LeftSome(s, fate, i, h, w, c.Emit(Out(i, h)), o)
    {
      if Place(s.e, i, h) && i <= s.Bad() {
        var db :| Left(s, fate, db, i, h, w, c, o);
        EmitLeaves(s, fate, db, i, h, w, c, o);
      }
    }
  }

  // ---------------------------------------------------------------- what a save leaves behind

  /** Hooks that call `next` once, forward the object they were given, leave the done flags alone, do not change
      what the checks say, and turn the status they get as `fate` says; all mutations are different. */
  ghost predicate Tame(s: Start, fate: Fate) {
    && CallOnce(s.e) && SameObject(s.e) && KeepFlags(s) && KeepChecks(s) && Decides(s.e, fate)
    && s.Distinct()
  }

  ghost predicate Outcomes(s: Start, fate: Fate, db: Db, w: World, c: Chain, r: Result<seq<Option<nat>>>) {
    var ans := AnswerTo(s.e, db, c);
    && ChainLeft(s, ans, c)
    && StoreLeft(s, db, ans, w)
    && Settled(s, fate, ans, 0, w)
    && r == match Verdict(s, fate, StatusIn(ans), 0, 0)
            case None => Success(c.nodes)
            case Some(err) => Failure(err)
  }

  /** MAIN: the very result of such a save, which mutations are marked done, and, as far as the hooks leave them
      alone, the final store, the ID pointers and the nodes' IDs; `db` is what the store held when the batch
      insert was made. */
  lemma SaveOutcome(e: Env, fate: Fate, root: Ctx, cur: map<nat, nat>, w: World)
    requires Tame(StartOf(e, cur, w), fate) && |e.builders| > 0
    ensures var (w1, c1, r) := Save(e, root, cur, w);
      exists db :: Outcomes(StartOf(e, cur, w), fate, db, w1, c1, r)
  {
    var s := StartOf(e, cur, w);
    HooksPassVerdict(s, fate);
    BodiesPassVerdict(s, fate, root);
    BatchPassesVerdict(s, fate);
    EmitsPassVerdict(s, fate);
    assert Going(s, 0, Arg(root, Msg(s.M(0))), s.w, s.c);
    SavePasses(e, root, VerdictPassage(s, fate), cur, w);
    var (w1, c1, o) := RunChain(e, root, s.w, s.c);
    assert LeftSome(s, fate, 0, 0, w1, c1, o);
    var db :| Left(s, fate, db, 0, 0, w1, c1, o);
    assert Outcomes(s, fate, db, w1, c1, Save(e, root, cur, w).2);
  }

  // ---------------------------------------------------------------- all flags or none, for every store

  /** The mutations marked done at the end are all of them or none. */
  ghost predicate AllOrNothing(e: Env, root: Ctx, cur: map<nat, nat>, w: World) {
    var s, w1 := StartOf(e, cur, w), Save(e, root, cur, w).0;
    || (forall j :: 0 <= j < s.N() ==> MutAt(w1, s.M(j)).done)
    || (forall j :: 0 <= j < s.N() ==> !MutAt(w1, s.M(j)).done)
  }

  /** What a store can answer to a batch. */
  predicate CanBe(b: Status) {
    b.None? || b.value.ConstraintError? || b.value.DbError?
  }

  /** Builder `j`'s level below returns success exactly if the batch insert is made and accepted. */
  predicate Straight(s: Start, fate: Fate, b: Status, j: nat)
    requires j < s.Bad()
  {
    Verdict(s, fate, b, j + 1, 0).None? == (b.None? && s.Bad() == s.N())
  }

  /** From the second builder on, up to the first invalid one, no stack of hooks turns an outcome: this can be
      worked out from the hooks and the payloads before the save. */
  ghost predicate Transparent(s: Start, fate: Fate) {
    forall b, j :: CanBe(b) && 0 <= j < s.Bad() ==> Straight(s, fate, b, j)
  }

  /** Above an invalid builder, what the batch insert would return plays no part. */
  lemma {:induction false} VerdictAboveBad(s: Start, fate: Fate, b: Status, b': Status, i: nat, h: nat)
    requires Place(s.e, i, h) && i <= s.Bad() < s.N()
    ensures Verdict(s, fate, b, i, h) == Verdict(s, fate, b', i, h)
    decreases s.N() - i, if i < s.N() then |Hooks(s.e, i)| - h else 0
  {
    if h < |Hooks(s.e, i)| {
      VerdictAboveBad(s, fate, b, b', i, h + 1);
    } else if i < s.Bad() {
      VerdictAboveBad(s, fate, b, b', i + 1, 0);
    }
  }

  lemma {:induction false} DefaultsIgnoreStore(e: Env, store: Store, cur: map<nat, nat>, w: World, k: nat)
    requires k <= |e.builders|
    ensures DefaultedWorld(e.(store := store), cur, w, k) == DefaultedWorld(e, cur, w, k)
  {
    if k > 0 {
      DefaultsIgnoreStore(e, store, cur, w, k - 1);
    }
  }

  lemma {:induction false} FirstBadIgnoresStore(e: Env, store: Store, c: Chain, w: World, from: nat)
    requires from <= |e.builders|
    ensures FirstBad(e.(store := store), c, w, from) == FirstBad(e, c, w, from)
    decreases |e.builders| - from
  {
    if from < |e.builders| {
      FirstBadIgnoresStore(e, store, c, w, from + 1);
    }
  }

  lemma {:induction false} VerdictIgnoresStore(s: Start, store: Store, fate: Fate, b: Status, i: nat, h: nat)
    requires Place(s.e, i, h)
    ensures Verdict(s.(e := s.e.(store := store)), fate, b, i, h) == Verdict(s, fate, b, i, h)
    decreases s.N() - i, if i < s.N() then |Hooks(s.e, i)| - h else 0
  {
    FirstBadIgnoresStore(s.e, store, s.c, s.w, 0);
    if i < s.N() {
      if h < |Hooks(s.e, i)| {
        VerdictIgnoresStore(s, store, fate, b, i, h + 1);
      } else if i != s.Bad() {
        VerdictIgnoresStore(s, store, fate, b, i + 1, 0);
      }
    }
  }

  lemma StartIgnoresStore(e: Env, store: Store, cur: map<nat, nat>, w: World)
    ensures StartOf(e.(store := store), cur, w) == StartOf(e, cur, w).(e := e.(store := store))
  {
    DefaultsIgnoreStore(e, store, cur, w, |e.builders|);
    assert InitialChain(e.(store := store), cur) == InitialChain(e, cur);
  }

  lemma TameOnAnyStore(s: Start, fate: Fate, store: Store)
    requires Tame(s, fate)
    ensures Tame(s.(e := s.e.(store := store)), fate)
  {
    var t := s.(e := s.e.(store := store));
    assert forall i {:trigger Hooks(t.e, i)} :: 0 <= i < s.N() ==> Hooks(t.e, i) == Hooks(s.e, i);
    assert forall i {:trigger t.M(i)} :: 0 <= i < s.N() ==> t.M(i) == s.M(i);
    FlagsOnAnyStore(s, store);
    ChecksOnAnyStore(s, store);
    forall i, h, a, w, r: Outcome | 0 <= i < s.N() && 0 <= h < |Hooks(s.e, i)|
      ensures StatusOf(Finished(t.e, i, h, a, w, r)) == fate(i, h, StatusOf(r))
    {
      assert Finished(t.e, i, h, a, w, r) == Finished(s.e, i, h, a, w, r);
    }
  }

  lemma FlagsOnAnyStore(s: Start, store: Store)
    requires KeepFlags(s)
    ensures KeepFlags(s.(e := s.e.(store := store)))
  {
    var t := s.(e := s.e.(store := store));
    forall w, v | SameFlags(s, w, v) ensures SameFlags(t, w, v) {
      forall j | 0 <= j < s.N() ensures MutAt(v, t.M(j)).done == MutAt(w, t.M(j)).done {
        assert t.M(j) == s.M(j);
      }
    }
    forall i, h, a, w, past | 0 <= i < s.N() && 0 <= h < |Hooks(t.e, i)|
      ensures SameFlags(t, w, Hooks(t.e, i)[h].before(a, w, past).0)
      ensures SameFlags(t, w, Hooks(t.e, i)[h].finish(a, w, past).0)
    {
      assert SameFlags(s, w, Hooks(s.e, i)[h].before(a, w, past).0);
      assert SameFlags(s, w, Hooks(s.e, i)[h].finish(a, w, past).0);
    }
  }

  lemma ChecksOnAnyStore(s: Start, store: Store)
    requires KeepChecks(s)
    ensures KeepChecks(s.(e := s.e.(store := store)))
  {
    var t := s.(e := s.e.(store := store));
    forall w, v | SameChecks(s, w, v) ensures SameChecks(t, w, v) {
      forall j | 0 <= j < s.N() ensures SameCheck(t, j, w, v) {
        assert SameCheck(s, j, w, v) && t.M(j) == s.M(j);
      }
    }
    forall i, h, a, w, past | 0 <= i < s.N() && 0 <= h < |Hooks(t.e, i)|
      ensures SameChecks(t, w, Hooks(t.e, i)[h].before(a, w, past).0)
    {
      assert SameChecks(s, w, Hooks(s.e, i)[h].before(a, w, past).0);
    }
  }

  /** The flags after the save on one store, by what its batch insert returned. */
  lemma FlagsOn(e: Env, fate: Fate, store: Store, root: Ctx, cur: map<nat, nat>, w: World) returns (b: Status)
    requires Tame(StartOf(e, cur, w), fate) && |e.builders| > 0 && DoneFrom(StartOf(e, cur, w), 0, false, w)
    ensures var s, w1 := StartOf(e, cur, w), Save(e.(store := store), root, cur, w).0;
      forall j :: 0 <= j < s.N() ==> MutAt(w1, s.M(j)).done == Won(s, fate, b, j)
    ensures StartOf(e, cur, w).Bad() == |e.builders| ==> exists db, rows :: b == StatusIn(Some(store(db, rows)))
  {
    var e1, s := e.(store := store), StartOf(e, cur, w);
    StartIgnoresStore(e, store, cur, w);
    TameOnAnyStore(s, fate, store);
    SaveOutcome(e1, fate, root, cur, w);
    var (w1, c1, r) := Save(e1, root, cur, w);
    var db :| Outcomes(StartOf(e1, cur, w), fate, db, w1, c1, r);
    b := StatusIn(AnswerTo(e1, db, c1));
    DefaultsKeepTheRest(e, cur, w, s.N());
    FlagsIgnoreStore(s, store, fate, AnswerTo(e1, db, c1), w1);
    FirstBadIgnoresStore(e, store, s.c, s.w, 0);
    if s.Bad() == s.N() {
      AnswerIsTheStores(e1, db, c1);
    }
  }

  lemma AnswerIsTheStores(e: Env, db: Db, c: Chain)
    requires FilledUpTo(e, c, |e.builders|)
    ensures exists rows :: AnswerTo(e, db, c) == Some(e.store(db, rows))
  {
    assert AllFilled(c.specs, c.heap);
    assert AnswerTo(e, db, c) == Some(e.store(db, SlotRows(c.specs, c.heap)));
  }

  lemma FlagsIgnoreStore(s: Start, store: Store, fate: Fate, ans: Option<Answer>, w: World)
    requires Settled(s.(e := s.e.(store := store)), fate, ans, 0, w) && DoneFrom(s, 0, false, s.w)
    ensures forall j :: 0 <= j < s.N() ==> MutAt(w, s.M(j)).done == Won(s, fate, StatusIn(ans), j)
  {
    var t := s.(e := s.e.(store := store));
    FirstBadIgnoresStore(s.e, store, s.c, s.w, 0);
    forall j | 0 <= j < s.N() ensures MutAt(w, s.M(j)).done == Won(s, fate, StatusIn(ans), j) {
      assert FlagSettled(t, fate, ans, 0, j, w) && t.M(j) == s.M(j);
      VerdictIgnoresStore(s, store, fate, StatusIn(ans), j + 1, 0);
    }
  }

  function AcceptAll(): Store {
    (db, rows) => Done(db, map[])
  }

  function RefuseAll(constraint: bool, msg: nat): Store {
    (db, rows) => Refused(constraint, msg)
  }

  /** A store whose every batch insert returns `b`. */
  function StoreWith(b: Status): (store: Store)
    requires CanBe(b)
    ensures forall db, rows :: StatusIn(Some(store(db, rows))) == b
  {
    if b.None? then AcceptAll() else RefuseAll(b.value.ConstraintError?, b.value.msg)
  }

  /** MAIN: with such hooks, the flags are all or none on every store if and only if the hooks from the second
      builder on are transparent. */
  lemma DoneFlags(e: Env, fate: Fate, root: Ctx, cur: map<nat, nat>, w: World)
    requires Tame(StartOf(e, cur, w), fate) && |e.builders| > 0 && DoneFrom(StartOf(e, cur, w), 0, false, w)
    ensures (forall store: Store :: AllOrNothing(e.(store := store), root, cur, w)) <==>
      Transparent(StartOf(e, cur, w), fate)
  {
    var s := StartOf(e, cur, w);
    if Transparent(s, fate) {
      forall store: Store ensures AllOrNothing(e.(store := store), root, cur, w) {
        TransparentFlags(e, fate, store, root, cur, w);
      }
    } else {
      var b, j :| CanBe(b) && 0 <= j < s.Bad() && !Straight(s, fate, b, j);
      TurnedFlags(e, fate, b, j, root, cur, w);
    }
  }

  lemma TransparentFlags(e: Env, fate: Fate, store: Store, root: Ctx, cur: map<nat, nat>, w: World)
    requires Tame(StartOf(e, cur, w), fate) && |e.builders| > 0 && DoneFrom(StartOf(e, cur, w), 0, false, w)
    requires Transparent(StartOf(e, cur, w), fate)
    ensures AllOrNothing(e.(store := store), root, cur, w)
  {
    var s := StartOf(e, cur, w);
    var b := FlagsOn(e, fate, store, root, cur, w);
    StartIgnoresStore(e, store, cur, w);
    forall j | 0 <= j < s.N() ensures Won(s, fate, b, j) == (b.None? && s.Bad() == s.N()) {
      if j < s.Bad() {
        if s.Bad() < s.N() {
          VerdictAboveBad(s, fate, b, None, j + 1, 0);
          assert Straight(s, fate, None, j);
        } else {
          assert CanBe(b) && Straight(s, fate, b, j);
        }
      }
    }
    var t, w1 := StartOf(e.(store := store), cur, w), Save(e.(store := store), root, cur, w).0;
    assert forall j {:trigger t.M(j)} :: 0 <= j < s.N() ==> MutAt(w1, t.M(j)).done == Won(s, fate, b, j);
  }

  /** A stack that turns the outcome `b` leaves mixed flags on a store that returns it. */
  lemma TurnedFlags(e: Env, fate: Fate, b: Status, j: nat, root: Ctx, cur: map<nat, nat>, w: World)
    requires Tame(StartOf(e, cur, w), fate) && |e.builders| > 0 && DoneFrom(StartOf(e, cur, w), 0, false, w)
    requires CanBe(b) && j < StartOf(e, cur, w).Bad() && !Straight(StartOf(e, cur, w), fate, b, j)
    ensures !AllOrNothing(e.(store := StoreWith(b)), root, cur, w)
  {
    var s, store := StartOf(e, cur, w), StoreWith(b);
    var n := s.N();
    var b1 := FlagsOn(e, fate, store, root, cur, w);
    StartIgnoresStore(e, store, cur, w);
    var t, w1 := StartOf(e.(store := store), cur, w), Save(e.(store := store), root, cur, w).0;
    assert t.M(j) == s.M(j) && t.M(n - 1) == s.M(n - 1);
    if s.Bad() < n {
      VerdictAboveBad(s, fate, b, b1, j + 1, 0);
      assert t.M(s.Bad()) == s.M(s.Bad());
      assert Won(s, fate, b1, j) && !Won(s, fate, b1, s.Bad());
    } else {
      assert b1 == b;
      assert Won(s, fate, b, n - 1) == b.None?;
    }
  }

  // ---------------------------------------------------------------- a save that leaves mixed flags

  /** A hook that lets the operation run and then returns an error of its own. */
  function FailAfter(): Hook<Arg, World, Outcome> {
    Hook((a: Arg, w: World) => 1,
         (a: Arg, w: World, past: seq<Outcome>) => past == [],
         (a: Arg, w: World, past: seq<Outcome>) => (w, a),
         (a: Arg, w: World, past: seq<Outcome>) => (w, Err(HookError(0))))
  }

  /** Two message builders with mutations 0 and 1; the second one's hook fails after the fact. */
  function FailingSecond(clock: nat -> Defaults, validator: string -> bool, store: Store): Env {
    Env([0, 1], b => if b == 1 then [FailAfter()] else [], (i: nat, f) => WithDefaults(clock(i), f),
        f => Check(validator, f), NodeOf, RowOf, store)
  }

  function TwoMessages(f0: Fields, f1: Fields, db: Db): World {
    World(map[0 := Mutation(f0, None, false), 1 := Mutation(f1, None, false)], map[], db, map[])
  }

  /** For any two messages that pass the check, and any store that takes their two rows: the rows are stored and
      the second mutation is marked done, yet the first is not, and the save fails. */
  lemma MixedFlags(clock: nat -> Defaults, validator: string -> bool, f0: Fields, f1: Fields, db: Db, store: Store,
                   root: Ctx)
    requires Check(validator, WithDefaults(clock(0), f0)).None? && Check(validator, WithDefaults(clock(1), f1)).None?
    requires store(db, [RowOf(WithDefaults(clock(0), f0)), RowOf(WithDefaults(clock(1), f1))]).Done?
    ensures var e := FailingSecond(clock, validator, store);
      var (w, _, r) := Save(e, root, map[0 := 0, 1 := 1], TwoMessages(f0, f1, db));
      && r.Failure?
      && !MutAt(w, 0).done && MutAt(w, 1).done
      && w.db == store(db, [RowOf(WithDefaults(clock(0), f0)), RowOf(WithDefaults(clock(1), f1))]).db
  {
    var e, cur, w := FailingSecond(clock, validator, store), map[0 := 0, 1 := 1], TwoMessages(f0, f1, db);
    var fate: Fate := (i, h, st) => Some(HookError(0));
    var s := StartOf(e, cur, w);
    MixedSetting(clock, validator, f0, f1, db, store, fate);
    SaveOutcome(e, fate, root, cur, w);
    var (w1, c1, r) := Save(e, root, cur, w);
    var db1 :| Outcomes(s, fate, db1, w1, c1, r);
    MixedAnswer(s, db1, c1);
    var ans := AnswerTo(e, db1, c1);
    assert Verdict(s, fate, None, 2, 0) == None && Verdict(s, fate, None, 1, 0).Some?;
    assert FlagSettled(s, fate, ans, 0, 0, w1) && FlagSettled(s, fate, ans, 0, 1, w1);
  }

  /** Hooks that leave the store and the payloads alone: the batch is made of the two rows as they were. */
  lemma MixedAnswer(s: Start, db: Db, c: Chain)
    requires s.N() == 2 && s.Bad() == 2 && KeepPayloads(s) && ChainLeft(s, AnswerTo(s.e, db, c), c)
    ensures var row0, row1 := s.e.row(MutAt(s.w, s.M(0)).fields), s.e.row(MutAt(s.w, s.M(1)).fields);
      AnswerTo(s.e, db, c) == Some(s.e.store(db, [row0, row1]))
  {
    assert AllFilled(c.specs, c.heap);
    assert SlotRows(c.specs, c.heap) == [s.e.row(MutAt(s.w, s.M(0)).fields), s.e.row(MutAt(s.w, s.M(1)).fields)];
  }

  lemma MixedSetting(clock: nat -> Defaults, validator: string -> bool, f0: Fields, f1: Fields, db: Db, store: Store,
                     fate: Fate)
    requires Check(validator, WithDefaults(clock(0), f0)).None? && Check(validator, WithDefaults(clock(1), f1)).None?
    requires forall i, h, st :: fate(i, h, st) == Some(HookError(0))
    ensures var e := FailingSecond(clock, validator, store);
      var s := StartOf(e, map[0 := 0, 1 := 1], TwoMessages(f0, f1, db));
      && Tame(s, fate) && KeepDb(e) && KeepPayloads(s)
      && s.N() == 2 && s.M(0) == 0 && s.M(1) == 1 && s.Bad() == 2 && s.w.db == db
      && MutAt(s.w, 0) == Mutation(WithDefaults(clock(0), f0), None, false)
      && MutAt(s.w, 1) == Mutation(WithDefaults(clock(1), f1), None, false)
  {
    var e, cur, w := FailingSecond(clock, validator, store), map[0 := 0, 1 := 1], TwoMessages(f0, f1, db);
    var s := StartOf(e, cur, w);
    MixedDefaults(clock, validator, f0, f1, db, store);
    FailAfterIsTame(e, s, fate);
    assert e.check(MutAt(s.w, s.M(0)).fields).None? && e.check(MutAt(s.w, s.M(1)).fields).None?;
  }

  lemma MixedDefaults(clock: nat -> Defaults, validator: string -> bool, f0: Fields, f1: Fields, db: Db, store: Store)
    ensures var e := FailingSecond(clock, validator, store);
      var v := DefaultedWorld(e, map[0 := 0, 1 := 1], TwoMessages(f0, f1, db), 2);
      && v.db == db
      && MutAt(v, 0) == Mutation(WithDefaults(clock(0), f0), None, false)
      && MutAt(v, 1) == Mutation(WithDefaults(clock(1), f1), None, false)
  {
    var e, cur, w := FailingSecond(clock, validator, store), map[0 := 0, 1 := 1], TwoMessages(f0, f1, db);
    assert DefaultedWorld(e, cur, w, 0) == w;
    var w1 := DefaultStep(e, cur, w, 0);
    assert DefaultedWorld(e, cur, w, 1) == w1;
    assert DefaultedWorld(e, cur, w, 2) == DefaultStep(e, cur, w1, 1);
  }

  /** The hook changes nothing but the result. */
  lemma FailAfterIsTame(e: Env, s: Start, fate: Fate)
    requires s.e == e && |e.builders| == 2 && Hooks(e, 0) == [] && Hooks(e, 1) == [FailAfter()]
    requires forall i, h, st :: fate(i, h, st) == Some(HookError(0))
    ensures CallOnce(e) && SameObject(e) && Decides(e, fate)
    ensures KeepFlags(s) && KeepChecks(s) && KeepDb(e) && KeepPayloads(s)
  {
    assert forall i, h :: 0 <= i < 2 && 0 <= h < |Hooks(e, i)| ==> Hooks(e, i)[h] == FailAfter();
  }
}
