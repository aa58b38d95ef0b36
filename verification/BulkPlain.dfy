/** Without hooks, a bulk save against n single saves in order. */
module BulkPlain {
  import opened Entity
  import opened Onion
  import opened Bulk
  import opened BulkInduction
  import opened BulkInvariants
  import opened BulkOutcome
  import opened BulkFlags
  import Single

  // ---------------------------------------------------------------- what is assumed of the store

  /** The answer of inserting the rows one statement at a time, stopping at the first refusal. */
  function RowByRow(store: Store, db: Db, rows: seq<Row>): Answer {
    if rows == [] then Done(db, map[])
    else
      match RowByRow(store, db, rows[..|rows| - 1])
      case Refused(constraint, msg) => Refused(constraint, msg)
      case Done(d, ids) =>
        match store(d, [rows[|rows| - 1]])
        case Refused(constraint, msg) => Refused(constraint, msg)
        case Done(d1, one) => Done(d1, if 0 in one then ids[|rows| - 1 := one[0]] else ids)
  }

  ghost predicate SerialAt(store: Store, db: Db, rows: seq<Row>) {
    store(db, rows) == RowByRow(store, db, rows)
  }

  /** The store takes and numbers rows as it would one by one, and gives every row an ID. */
  ghost predicate Serial(store: Store) {
    && (forall db, rows :: SerialAt(store, db, rows))
    && (forall db, row :: store(db, [row]).Done? ==> 0 in store(db, [row]).ids)
  }

  // ---------------------------------------------------------------- the setting

  /** A bulk save without hooks. */
  datatype Plain = Plain(e: Env, root: Ctx, cur: map<nat, nat>, w: World) {
    function N(): nat { |e.builders| }

    function M(i: nat): nat
      requires i < N()
    {
      Cur(e, InitialChain(e, cur), i)
    }

    /** The payload of mutation `m` after the defaults of the first `k` builders. */
    function Payload(k: nat, m: nat): Fields
      requires k <= N()
    {
      MutAt(DefaultedWorld(e, cur, w, k), m).fields
    }

    /** Builder `i`'s payload once all defaults are set. */
    function F(i: nat): Fields
      requires i < N()
    {
      Payload(N(), M(i))
    }

    function Rows(k: nat): (rows: seq<Row>)
      requires k <= N()
      ensures |rows| == k && forall j :: 0 <= j < k ==> rows[j] == e.row(F(j))
    {
      seq(k, j requires 0 <= j < k => e.row(F(j)))
    }

    /** The builders' mutations are different objects. */
    ghost predicate Distinct() {
      forall i, j :: 0 <= i < j < N() ==> M(i) != M(j)
    }

    /** A payload that got one builder's defaults takes no more from another's. */
    ghost predicate DefaultsSettle() {
      forall i, j, f :: 0 <= i < N() && 0 <= j < N() ==> e.defaults(j, e.defaults(i, f)) == e.defaults(i, f)
    }

    ghost predicate Ok() {
      && (forall i :: 0 <= i < N() ==> Hooks(e, i) == [])
      && (Distinct() || DefaultsSettle())
      && Serial(e.store)
      && Blank(e)
    }

    /** The store's answer to the first `k` rows. */
    function Stored(k: nat): Answer
      requires k <= N()
    {
      e.store(w.db, Rows(k))
    }

    ghost predicate AllPass(k: nat)
      requires k <= N()
    {
      forall i :: 0 <= i < k ==> e.check(F(i)).None?
    }
  }

  function Look<V>(t: map<nat, V>, k: nat): Option<V> {
    if k in t then Some(t[k]) else None
  }

  /** The last of the first `k` builders that points to mutation `m`. */
  function LastOwner(s: Plain, k: nat, m: nat): (j: Option<nat>)
    requires k <= s.N()
    ensures j.Some? ==> j.value < k && s.M(j.value) == m
    ensures forall i :: 0 <= i < k && s.M(i) == m ==> j.Some? && i <= j.value
  {
    if k == 0 then None else if s.M(k - 1) == m then Some(k - 1) else LastOwner(s, k - 1, m)
  }

  /** The first builder from `i` on that points to it. */
  function FirstOwner(s: Plain, i: nat, m: nat): (j: Option<nat>)
    requires i <= s.N()
    ensures j.Some? ==> i <= j.value < s.N() && s.M(j.value) == m
    ensures forall k :: i <= k < s.N() && s.M(k) == m ==> j.Some? && j.value <= k
    decreases s.N() - i
  {
    if i == s.N() then None else if s.M(i) == m then Some(i) else FirstOwner(s, i + 1, m)
  }

  // ---------------------------------------------------------------- the defaults

  /** Defaults change only payloads, and only those of the builders' mutations. */
  lemma {:induction false} DefaultedLook(s: Plain, k: nat, m: nat)
    requires k <= s.N()
    ensures Look(DefaultedWorld(s.e, s.cur, s.w, k).muts, m) ==
      if LastOwner(s, k, m).Some? then Some(MutAt(s.w, m).(fields := s.Payload(k, m))) else Look(s.w.muts, m)
  {
    if k > 0 {
      DefaultedLook(s, k - 1, m);
      var before := DefaultedWorld(s.e, s.cur, s.w, k - 1);
      assert DefaultedWorld(s.e, s.cur, s.w, k) == DefaultStep(s.e, s.cur, before, k - 1);
    }
  }

  lemma PayloadStep(s: Plain, k: nat, m: nat)
    requires k < s.N()
    ensures s.Payload(k + 1, m) == if s.M(k) == m then s.e.defaults(k, s.Payload(k, m)) else s.Payload(k, m)
  {
  }

  /** A payload that has got defaults got the last ones from some builder. */
  lemma {:induction false} DefaultsOf(s: Plain, k: nat, m: nat) returns (i: nat, f: Fields)
    requires k <= s.N() && LastOwner(s, k, m).Some?
    ensures i < s.N() && s.Payload(k, m) == s.e.defaults(i, f)
  {
    PayloadStep(s, k - 1, m);
    if s.M(k - 1) == m {
      i, f := k - 1, s.Payload(k - 1, m);
    } else {
      i, f := DefaultsOf(s, k - 1, m);
    }
  }

  /** Once a mutation has got defaults, its payload stays. */
  lemma {:induction false} PayloadStays(s: Plain, k: nat, n: nat, m: nat)
    requires k <= n <= s.N() && (s.Distinct() || s.DefaultsSettle()) && LastOwner(s, k, m).Some?
    ensures s.Payload(n, m) == s.Payload(k, m)
    decreases n
  {
    if k < n {
      PayloadStays(s, k, n - 1, m);
      PayloadStep(s, n - 1, m);
      if s.M(n - 1) == m {
        assert !s.Distinct() by {
          assert s.M(LastOwner(s, k, m).value) == s.M(n - 1);
        }
        var i, f := DefaultsOf(s, k, m);
      }
    }
  }

  /** What builder `i`'s defaults make of its payload is final. */
  lemma DefaultsFinish(s: Plain, i: nat)
    requires i < s.N() && (s.Distinct() || s.DefaultsSettle())
    ensures s.e.defaults(i, s.Payload(i, s.M(i))) == s.F(i)
    ensures LastOwner(s, i, s.M(i)).Some? ==> s.Payload(i, s.M(i)) == s.F(i)
  {
    PayloadStep(s, i, s.M(i));
    PayloadStays(s, i + 1, s.N(), s.M(i));
    if LastOwner(s, i, s.M(i)).Some? {
      PayloadStays(s, i, s.N(), s.M(i));
    }
  }

  // ---------------------------------------------------------------- the sequential run

  /** Defaults, then a single save, for each of the first `k` builders; the caller stops at the first error, and
      collects what the saves return. */
  function Sequential(s: Plain, k: nat): (World, Single.Log, Option<Error>, seq<Value>)
    requires k <= s.N()
  {
    if k == 0 then (s.w, Single.Log([], 0, 0), None, [])
    else
      var (w, p, err, values) := Sequential(s, k - 1);
      if err.Some? then (w, p, err, values)
      else
        var (w1, p1, o) :=
          Single.HookedSave(s.e, s.M(k - 1), s.root, [], DefaultStep(s.e, s.cur, w, k - 1), p);
        (w1, p1, if o.Err? then Some(o.e) else None, if o.Err? then values else values + [o.v])
  }

  /** A saved mutation, pointing to node `j`. */
  function SavedMutation(s: Plain, m: nat, j: nat): Mutation {
    Mutation(s.Payload(s.N(), m), Some(j), true)
  }

  function SavedNode(s: Plain, i: nat, id: int): Message
    requires i < s.N()
  {
    s.e.node(s.F(i)).(id := id)
  }

  /** Mutation `m` after the single saves of the first `k` builders: it points to the last of its nodes. */
  function MutationThen(s: Plain, k: nat, m: nat): Option<Mutation>
    requires k <= s.N()
  {
    match LastOwner(s, k, m)
    case Some(j) => Some(SavedMutation(s, m, j))
    case None => Look(s.w.muts, m)
  }

  function NodeThen(s: Plain, k: nat, ids: map<nat, int>, a: nat): Option<Message>
    requires k <= s.N()
  {
    if a < k then (if a in ids then Some(SavedNode(s, a, ids[a])) else None) else Look(s.w.msgs, a)
  }

  /** `w` is the first world with the saves of builders 0..k in it, and nothing else changed. */
  ghost predicate Holds(s: Plain, k: nat, ids: map<nat, int>, db: Db, w: World)
    requires k <= s.N()
  {
    && w.db == db
    && w.memo == s.w.memo
    && (forall m: nat :: Look(w.muts, m) == MutationThen(s, k, m))
    && (forall a: nat :: Look(w.msgs, a) == NodeThen(s, k, ids, a))
  }

  /** Builder `i`'s payload when its turn comes. */
  lemma DefaultsInTurn(s: Plain, i: nat, w: World)
    requires i < s.N() && (s.Distinct() || s.DefaultsSettle())
    requires forall m: nat :: Look(w.muts, m) == MutationThen(s, i, m)
    ensures MutAt(DefaultStep(s.e, s.cur, w, i), s.M(i)).fields == s.F(i)
  {
    var m := s.M(i);
    assert Look(w.muts, m) == MutationThen(s, i, m);
    DefaultsFinish(s, i);
    DefaultedLook(s, i, m);
  }

  lemma MutationsExtend(s: Plain, i: nat, muts: map<nat, Mutation>, muts': map<nat, Mutation>)
    requires i < s.N() && forall m: nat :: Look(muts, m) == MutationThen(s, i, m)
    requires muts' == muts[s.M(i) := SavedMutation(s, s.M(i), i)]
    ensures forall m: nat :: Look(muts', m) == MutationThen(s, i + 1, m)
  {
    forall m: nat ensures Look(muts', m) == MutationThen(s, i + 1, m) {
      assert Look(muts, m) == MutationThen(s, i, m);
    }
  }

  lemma NodesExtend(s: Plain, i: nat, ids: map<nat, int>, id: int, msgs: map<nat, Message>, msgs': map<nat, Message>)
    requires i < s.N() && forall a: nat :: Look(msgs, a) == NodeThen(s, i, ids, a)
    requires msgs' == msgs[i := SavedNode(s, i, id)]
    ensures forall a: nat :: Look(msgs', a) == NodeThen(s, i + 1, ids[i := id], a)
  {
    forall a: nat ensures Look(msgs', a) == NodeThen(s, i + 1, ids[i := id], a) {
      assert Look(msgs, a) == NodeThen(s, i, ids, a);
    }
  }

  /** What one single save does. */
  lemma SaveOne(s: Plain, i: nat, w: World, p: Single.Log)
    requires i < s.N() && s.Ok() && s.e.check(s.F(i)).None? && p.next == i
    requires forall m: nat :: Look(w.muts, m) == MutationThen(s, i, m)
    requires s.e.store(w.db, [s.e.row(s.F(i))]).Done?
    ensures var (w1, p1, o) := Single.SqlSave(s.e, s.M(i), DefaultStep(s.e, s.cur, w, i), p);
      var a := s.e.store(w.db, [s.e.row(s.F(i))]);
      && o == Ok(Node(i))
      && p1.next == i + 1
      && 0 in a.ids
      && w1.muts == w.muts[s.M(i) := SavedMutation(s, s.M(i), i)]
      && w1.msgs == w.msgs[i := SavedNode(s, i, a.ids[0])]
      && w1.db == a.db
      && w1.memo == w.memo
  {
    DefaultsInTurn(s, i, w);
    var m, wd := s.M(i), DefaultStep(s.e, s.cur, w, i);
    assert 0 in s.e.store(w.db, [s.e.row(s.F(i))]).ids;
    assert wd.muts[m := SavedMutation(s, m, i)] == w.muts[m := SavedMutation(s, m, i)];
  }

  /** The store's answer to one more row. */
  lemma StoreStep(s: Plain, i: nat)
    requires i < s.N() && s.Ok()
    ensures var a0, a := s.Stored(i), s.Stored(i + 1);
      match a0
      case Refused(_, _) => a == a0
      case Done(db, ids) =>
        var a1 := s.e.store(db, [s.e.row(s.F(i))]);
        match a1
        case Refused(_, _) => a == a1
        case Done(db1, one) => 0 in one && a == Done(db1, ids[i := one[0]])
  {
    var before, after := s.Rows(i), s.Rows(i + 1);
    assert after[..i] == before && after[i] == s.e.row(s.F(i));
    assert SerialAt(s.e.store, s.w.db, after);
    assert SerialAt(s.e.store, s.w.db, before);
  }

  lemma SaveOneHolds(s: Plain, i: nat, w: World, p: Single.Log)
    requires i < s.N() && s.Ok() && s.e.check(s.F(i)).None?
    requires s.Stored(i).Done? && s.Stored(i + 1).Done?
    requires Holds(s, i, s.Stored(i).ids, s.Stored(i).db, w) && p.next == i
    ensures var (w1, p1, o) := Single.SqlSave(s.e, s.M(i), DefaultStep(s.e, s.cur, w, i), p);
      o == Ok(Node(i)) && p1.next == i + 1 && Holds(s, i + 1, s.Stored(i + 1).ids, s.Stored(i + 1).db, w1)
  {
    StoreStep(s, i);
    SaveOne(s, i, w, p);
    var a1 := s.e.store(w.db, [s.e.row(s.F(i))]);
    var (w1, p1, o) := Single.SqlSave(s.e, s.M(i), DefaultStep(s.e, s.cur, w, i), p);
    MutationsExtend(s, i, w.muts, w1.muts);
    NodesExtend(s, i, s.Stored(i).ids, a1.ids[0], w.msgs, w1.msgs);
  }

  lemma NothingStored(s: Plain)
    requires s.Ok()
    ensures s.Stored(0) == Done(s.w.db, map[]) && Holds(s, 0, map[], s.w.db, s.w)
  {
    assert s.Rows(0) == [];
    assert SerialAt(s.e.store, s.w.db, []);
  }

  /** The first `k` single saves succeed and leave exactly their effects. */
  ghost predicate SequentialDone(s: Plain, k: nat)
    requires k <= s.N()
  {
    var (w, p, err, values) := Sequential(s, k);
    && s.Stored(k).Done? && err.None? && p.next == k && Holds(s, k, s.Stored(k).ids, s.Stored(k).db, w)
    && values == seq(k, (j: nat) => Node(j))
  }

  lemma SequentialStep(s: Plain, i: nat)
    requires i < s.N() && s.Ok() && s.e.check(s.F(i)).None?
    requires SequentialDone(s, i) && s.Stored(i + 1).Done?
    ensures SequentialDone(s, i + 1)
  {
    var (w, p, err, values) := Sequential(s, i);
    SaveOneHolds(s, i, w, p);
  }

  /** The sequential run of `k` builders whose checks pass and whose rows the store takes. */
  lemma {:induction false} SequentialHolds(s: Plain, k: nat)
    requires k <= s.N() && s.Ok() && s.AllPass(k) && s.Stored(k).Done?
    ensures SequentialDone(s, k)
  {
    if k == 0 {
      NothingStored(s);
    } else {
      StoreStep(s, k - 1);
      SequentialHolds(s, k - 1);
      SequentialStep(s, k - 1);
    }
  }

  lemma {:induction false} StoredHasIDs(s: Plain, k: nat)
    requires k <= s.N() && s.Ok() && s.Stored(k).Done?
    ensures forall j :: 0 <= j < k ==> j in s.Stored(k).ids
  {
    if k > 0 {
      StoreStep(s, k - 1);
      StoredHasIDs(s, k - 1);
    }
  }

  // ---------------------------------------------------------------- the bulk run

  /** The captured variables once `k` bodies were entered. */
  ghost predicate ChainIn(s: Plain, k: nat, c: Chain)
    requires k <= s.N()
  {
    && SameCur(s.e, InitialChain(s.e, s.cur), c)
    && FilledUpTo(s.e, c, k)
    && forall j :: 0 <= j < k ==> c.heap[j].row == s.e.row(s.F(j))
  }

  /** Node `a` at level `i`: numbered if it is from a builder from `i` on, already made if from an earlier one. */
  function NodeNow(s: Plain, made: nat, i: nat, ids: map<nat, int>, a: nat): Option<Message>
    requires made <= s.N()
  {
    if a >= made then Look(s.w.msgs, a)
    else if a < i then Some(s.e.node(s.F(a)))
    else if a in ids then Some(SavedNode(s, a, ids[a]))
    else None
  }

  /** Mutation `m` at level `i` on the way out: it points to the first of its nodes from `i` on. */
  function MutationNow(s: Plain, i: nat, m: nat): Option<Mutation>
    requires i <= s.N()
  {
    match FirstOwner(s, i, m)
    case Some(j) => Some(SavedMutation(s, m, j))
    case None => Look(DefaultedWorld(s.e, s.cur, s.w, s.N()).muts, m)
  }

  ghost predicate PlainIn(s: Plain, i: nat, w: World, c: Chain)
    requires i <= s.N()
  {
    && ChainIn(s, i, c)
    && (forall j :: 0 <= j < i ==> c.heap[j].id.None?)
    && w.db == s.w.db
    && w.memo == s.w.memo
    && w.muts == DefaultedWorld(s.e, s.cur, s.w, s.N()).muts
    && forall a: nat :: Look(w.msgs, a) == NodeNow(s, i, i, map[], a)
  }

  ghost predicate PlainOut(s: Plain, i: nat, ids: map<nat, int>, db: Db, w: World, c: Chain)
    requires i <= s.N()
  {
    && ChainIn(s, s.N(), c)
    && (forall j :: 0 <= j < s.N() ==> j in ids && c.heap[j].id == Some(ids[j]))
    && w.db == db
    && w.memo == s.w.memo
    && (forall m: nat :: Look(w.muts, m) == MutationNow(s, i, m))
    && forall a: nat :: Look(w.msgs, a) == NodeNow(s, s.N(), i, ids, a)
  }

  /** What level `i` does once the first `i` bodies were entered and every check passes. */
  ghost predicate Does(s: Plain, i: nat, w1: World, c1: Chain, o: Outcome) {
    i <= s.N() ==>
      match s.Stored(s.N())
      case Done(db, ids) => o.Ok? && PlainOut(s, i, ids, db, w1, c1)
      case Refused(_, _) => o == Err(RefusalOf(s.Stored(s.N()))) && w1.db == s.w.db
  }

  ghost predicate Arrives(s: Plain, i: nat, a: Arg, w: World, c: Chain) {
    i <= s.N() && PlainIn(s, i, w, c) && (i < s.N() ==> a.m == Msg(s.M(i)))
  }

  ghost function PlainPassage(s: Plain): Passage {
    Passage((i: nat, h: nat, a, w, c) => Arrives(s, i, a, w, c), (i: nat, h: nat, w, c, o) => Does(s, i, w, c, o))
  }

  lemma BatchWritesIDs(s: Plain, ids: map<nat, int>, c: Chain, ev: Event)
    requires ChainIn(s, s.N(), c) && AllFilled(c.specs, c.heap)
    requires forall j :: 0 <= j < s.N() ==> j in ids && c.heap[j].id.None?
    ensures var d := c.Emit(ev).(heap := WriteIDs(c.specs, c.heap, ids, |c.specs|));
      ChainIn(s, s.N(), d) && forall j :: 0 <= j < s.N() ==> d.heap[j].id == Some(ids[j])
  {
    forall j | 0 <= j < s.N() ensures WriteIDs(c.specs, c.heap, ids, s.N())[j].id == Some(ids[j]) {
      WriteIDsInOrder(c.specs, c.heap, ids, s.N(), j);
    }
  }

  lemma PlainBatch(s: Plain, ctx: Ctx, w: World, c: Chain)
    requires s.Ok() && PlainIn(s, s.N(), w, c)
    ensures var (w1, c1, o) := BatchCreate(s.e, ctx, w, c); Does(s, s.N(), w1, c1, o)
  {
    var n := s.N();
    assert AllFilled(c.specs, c.heap);
    assert SlotRows(c.specs, c.heap) == s.Rows(n);
    if s.Stored(n).Done? {
      var ids := s.Stored(n).ids;
      StoredHasIDs(s, n);
      BatchWritesIDs(s, ids, c, Batch(ctx, c.specs));
      forall a: nat ensures Look(w.msgs, a) == NodeNow(s, n, n, ids, a) {
        assert Look(w.msgs, a) == NodeNow(s, n, n, map[], a);
      }
    }
  }

  lemma FillChainIn(s: Plain, i: nat, w: World, c: Chain)
    requires i < s.N() && ChainIn(s, i, c) && MutAt(w, s.M(i)).fields == s.F(i)
    ensures ChainIn(s, i + 1, FillChain(s.e, i, s.M(i), w, c))
  {
    FillKeepsPointers(s.e, InitialChain(s.e, s.cur), i, w, c);
  }

  lemma PlainFill(s: Plain, i: nat, w: World, c: Chain)
    requires i < s.N() && PlainIn(s, i, w, c)
    ensures MutAt(w, s.M(i)).fields == s.F(i)
    ensures PlainIn(s, i + 1, FillWorld(s.e, s.M(i), w, c), FillChain(s.e, i, s.M(i), w, c))
  {
    FillChainIn(s, i, w, c);
    var v := FillWorld(s.e, s.M(i), w, c);
    forall a: nat ensures Look(v.msgs, a) == NodeNow(s, i + 1, i + 1, map[], a) {
      assert Look(w.msgs, a) == NodeNow(s, i, i, map[], a);
    }
  }

  /** The payload stays what the defaults made of it. */
  lemma PayloadNow(s: Plain, i: nat, w: World)
    requires i < s.N() && forall m: nat :: Look(w.muts, m) == MutationNow(s, i + 1, m)
    ensures MutAt(w, s.M(i)).fields == s.F(i)
  {
    assert Look(w.muts, s.M(i)) == MutationNow(s, i + 1, s.M(i));
  }

  lemma PlainSettle(s: Plain, i: nat, ids: map<nat, int>, db: Db, w: World, c: Chain)
    requires i < s.N() && s.Ok() && PlainOut(s, i + 1, ids, db, w, c)
    ensures var (w1, c1, o) := Settle(i, s.M(i), w, c); c1 == c && o.Ok? && PlainOut(s, i, ids, db, w1, c)
  {
    var m := s.M(i);
    var (w1, c1, o) := Settle(i, m, w, c);
    PayloadNow(s, i, w);
    assert c.nodes[i] == c.specs[i] == Some(i) && c.heap[i].id == Some(ids[i]);
    assert w1.muts == w.muts[m := SavedMutation(s, m, i)];
    assert Look(w.msgs, i) == NodeNow(s, s.N(), i + 1, ids, i);
    assert w1.msgs == w.msgs[i := SavedNode(s, i, ids[i])];
    forall x: nat ensures Look(w1.muts, x) == MutationNow(s, i, x) {
      assert Look(w.muts, x) == MutationNow(s, i + 1, x);
    }
    forall a: nat ensures Look(w1.msgs, a) == NodeNow(s, s.N(), i, ids, a) {
      assert Look(w.msgs, a) == NodeNow(s, s.N(), i + 1, ids, a);
    }
  }

  lemma PlainReturns(s: Plain, i: nat, w: World, c: Chain, o: Outcome)
    requires i < s.N() && s.Ok() && Does(s, i + 1, w, c, o)
    ensures o.Err? ==> Does(s, i, w, c, o)
    ensures o.Ok? ==> var (w1, c1, o1) := Settle(i, s.M(i), w, c); Does(s, i, w1, c1, o1)
  {
    if s.Stored(s.N()).Done? {
      PlainSettle(s, i, s.Stored(s.N()).ids, s.Stored(s.N()).db, w, c);
    }
  }

  lemma PlainUnwinds(s: Plain, i: nat)
    requires i < s.N() && s.Ok()
    ensures Unwinds(s.e, PlainPassage(s), i, s.M(i))
  {
    var x, h := PlainPassage(s), |Hooks(s.e, i)|;
    forall w, c, o: Outcome | x.leave(i + 1, 0, w, c, o)
      ensures o.Err? ==> x.leave(i, h, w, c, o)
      ensures o.Ok? ==> x.leave(i, h, Settle(i, s.M(i), w, c).0, Settle(i, s.M(i), w, c).1, Settle(i, s.M(i), w, c).2)
    {
      PlainReturns(s, i, w, c, o);
    }
  }

  lemma PlainBodies(s: Plain)
    requires s.Ok() && s.AllPass(s.N())
    ensures BodiesPass(s.e, s.root, PlainPassage(s))
  {
    var e, x := s.e, PlainPassage(s);
    forall i, a, w, c | 0 <= i < s.N() && Arrives(s, i, a, w, c) ensures BodyPasses(e, s.root, x, i, a, w, c) {
      var d := FillChain(e, i, s.M(i), w, c);
      assert Cur(e, c, i) == s.M(i);
      PlainFill(s, i, w, c);
      assert i + 1 < s.N() ==> Cur(e, d, i + 1) == s.M(i + 1);
      PlainUnwinds(s, i);
    }
  }

  lemma PlainEmits(s: Plain)
    ensures EmitsPass(s.e, PlainPassage(s))
  {
  }

  lemma BulkPerforms(s: Plain)
    requires s.Ok() && s.AllPass(s.N()) && s.N() > 0
    ensures var (w1, c1, r) := Save(s.e, s.root, s.cur, s.w);
      match s.Stored(s.N())
      case Done(db, ids) => r == Success(c1.nodes) && PlainOut(s, 0, ids, db, w1, c1)
      case Refused(_, _) => r == Failure(RefusalOf(s.Stored(s.N()))) && w1.db == s.w.db
  {
    PlainBodies(s);
    PlainEmits(s);
    forall a: Arg, w, c | Arrives(s, s.N(), a, w, c)
      ensures var (w1, c1, o) := BatchCreate(s.e, a.ctx, w, c); Does(s, s.N(), w1, c1, o)
    {
      PlainBatch(s, a.ctx, w, c);
    }
    DefaultsKeepTheRest(s.e, s.cur, s.w, s.N());
    var w, c := DefaultedWorld(s.e, s.cur, s.w, s.N()), InitialChain(s.e, s.cur);
    assert PlainIn(s, 0, w, c);
    SavePasses(s.e, s.root, PlainPassage(s), s.cur, s.w);
    var (w1, c1, o) := RunChain(s.e, s.root, w, c);
    assert Does(s, 0, w1, c1, o);
  }

  // ---------------------------------------------------------------- the refinement

  /** The two worlds hold the same store, nodes and mutations, but for the mutations' ID pointers. */
  ghost predicate SameButPointers(w: World, v: World) {
    && w.db == v.db && w.msgs == v.msgs && w.memo == v.memo
    && w.muts.Keys == v.muts.Keys
    && forall m: nat :: m in w.muts ==> w.muts[m].fields == v.muts[m].fields && w.muts[m].done == v.muts[m].done
  }

  /** MAIN: when every check passes and the store takes the batch, the bulk save and n single saves in order
      leave the same store, the same nodes with the same IDs and the same mutation payloads and flags, and the
      bulk save returns exactly the n nodes, in order, which are those that the single saves return. The whole
      worlds are equal if and only if the builders' mutations are different objects: a shared one ends up
      pointing to its first node after the bulk save, and to its last one after the single saves. */
  lemma BulkRefinesSequential(s: Plain)
    requires s.Ok() && s.AllPass(s.N()) && s.Stored(s.N()).Done?
    ensures var (w1, c1, r) := Save(s.e, s.root, s.cur, s.w);
      var (w2, p2, err, values) := Sequential(s, s.N());
      && err.None?
      && values == seq(s.N(), (j: nat) => Node(j))
      && SameButPointers(w1, w2)
      && (w1 == w2 <==> s.Distinct())
      && r == Success(seq(s.N(), j => Some(j)))
      && p2.next == s.N()
  {
    SequentialHolds(s, s.N());
    BulkHolds(s);
    var w1, w2 := Save(s.e, s.root, s.cur, s.w).0, Sequential(s, s.N()).0;
    MutationsAgree(s, w1.muts, w2.muts);
    NodesAgree(s, s.Stored(s.N()).ids, w1.msgs, w2.msgs);
  }

  /** The final world of the bulk save. */
  ghost predicate BulkWorld(s: Plain, w: World) {
    && s.Stored(s.N()).Done?
    && w.db == s.Stored(s.N()).db
    && w.memo == s.w.memo
    && (forall m: nat :: Look(w.muts, m) == MutationNow(s, 0, m))
    && forall a: nat :: Look(w.msgs, a) == NodeThen(s, s.N(), s.Stored(s.N()).ids, a)
  }

  lemma BulkHolds(s: Plain)
    requires s.Ok() && s.AllPass(s.N()) && s.Stored(s.N()).Done?
    ensures var (w1, c1, r) := Save(s.e, s.root, s.cur, s.w);
      BulkWorld(s, w1) && r == Success(seq(s.N(), j => Some(j)))
  {
    var n, ids := s.N(), s.Stored(s.N()).ids;
    var (w1, c1, r) := Save(s.e, s.root, s.cur, s.w);
    if n > 0 {
      BulkPerforms(s);
      forall a: nat ensures Look(w1.msgs, a) == NodeThen(s, n, ids, a) {
        assert Look(w1.msgs, a) == NodeNow(s, n, 0, ids, a);
      }
    } else {
      NothingStored(s);
    }
    assert c1.nodes == seq(n, j => Some(j));
  }

  lemma NodesAgree(s: Plain, ids: map<nat, int>, msgs: map<nat, Message>, msgs': map<nat, Message>)
    requires forall a: nat :: Look(msgs, a) == NodeThen(s, s.N(), ids, a)
    requires forall a: nat :: Look(msgs', a) == NodeThen(s, s.N(), ids, a)
    ensures msgs == msgs'
  {
    forall a ensures (a in msgs <==> a in msgs') && (a in msgs ==> msgs[a] == msgs'[a]) {
      assert Look(msgs, a) == Look(msgs', a);
    }
  }

  lemma MutationsAgree(s: Plain, muts: map<nat, Mutation>, muts': map<nat, Mutation>)
    requires forall m: nat :: Look(muts, m) == MutationNow(s, 0, m)
    requires forall m: nat :: Look(muts', m) == MutationThen(s, s.N(), m)
    ensures muts.Keys == muts'.Keys
    ensures forall m: nat :: m in muts ==> muts[m].fields == muts'[m].fields && muts[m].done == muts'[m].done
    ensures muts == muts' <==> s.Distinct()
  {
    forall m: nat
      ensures m in muts <==> m in muts'
      ensures m in muts ==> muts[m].fields == muts'[m].fields && muts[m].done == muts'[m].done
      ensures s.Distinct() && m in muts ==> muts[m] == muts'[m]
    {
      OwnersAgree(s, m);
      DefaultedLook(s, s.N(), m);
      assert Look(muts, m) == MutationNow(s, 0, m) && Look(muts', m) == MutationThen(s, s.N(), m);
    }
    if !s.Distinct() {
      var i, j :| 0 <= i < j < s.N() && s.M(i) == s.M(j);
      var m := s.M(i);
      assert Look(muts, m) == MutationNow(s, 0, m) && Look(muts', m) == MutationThen(s, s.N(), m);
      assert FirstOwner(s, 0, m).value <= i < j <= LastOwner(s, s.N(), m).value;
    }
  }

  lemma OwnersAgree(s: Plain, m: nat)
    ensures FirstOwner(s, 0, m).Some? <==> LastOwner(s, s.N(), m).Some?
    ensures s.Distinct() ==> FirstOwner(s, 0, m) == LastOwner(s, s.N(), m)
  {
    var first, last := FirstOwner(s, 0, m), LastOwner(s, s.N(), m);
    if first.Some? && last.Some? && first.value < last.value {
      assert s.M(first.value) == s.M(last.value);
    }
  }

  // ---------------------------------------------------------------- when something fails

  /** The sequential run stops at builder `k`, with the first `k` builders' rows in the store. */
  lemma {:induction false} SequentialStops(s: Plain, k: nat, n: nat)
    requires k < n <= s.N() && s.Ok() && s.AllPass(k) && s.Stored(k).Done?
    requires s.e.check(s.F(k)).Some? || s.Stored(k + 1).Refused?
    ensures var (w, _, err, _) := Sequential(s, n);
      && w.db == s.Stored(k).db
      && err == Some(if s.e.check(s.F(k)).Some? then s.e.check(s.F(k)).value else RefusalOf(s.Stored(k + 1)))
    decreases n
  {
    if n == k + 1 {
      SequentialHolds(s, k);
      StoreStep(s, k);
      var (w, p, _, _) := Sequential(s, k);
      DefaultsInTurn(s, k, w);
    } else {
      SequentialStops(s, k, n - 1);
    }
  }

  /** MAIN: otherwise, with `k` the first builder whose check fails or whose row the store refuses, the bulk
      save fails and leaves the store untouched, while the sequential run stops at builder `k` and leaves the
      first `k` rows behind. */
  lemma BulkFailsWhole(s: Plain, k: nat)
    requires k < s.N() && s.Ok() && s.AllPass(k) && s.Stored(k).Done?
    requires s.e.check(s.F(k)).Some? || s.Stored(k + 1).Refused?
    ensures var (w1, _, r) := Save(s.e, s.root, s.cur, s.w);
      && r.Failure?
      && w1.db == s.w.db
      && (s.e.check(s.F(k)).Some? ==> r == Failure(s.e.check(s.F(k)).value))
    ensures Sequential(s, s.N()).0.db == s.Stored(k).db && Sequential(s, s.N()).2.Some?
  {
    SequentialStops(s, k, s.N());
    if s.AllPass(s.N()) {
      StoreStep(s, k);
      RefusedStays(s, k + 1, s.N());
      BulkPerforms(s);
    } else {
      var st := StartOf(s.e, s.cur, s.w);
      forall i | 0 <= i < s.N() ensures MutAt(st.w, st.M(i)).fields == s.F(i) {
        assert st.M(i) == s.M(i);
      }
      assert st.Bad() < s.N();
      FirstFailure(s.e, s.root, s.cur, s.w);
      assert s.e.check(s.F(k)).Some? ==> st.Bad() == k;
    }
  }

  lemma {:induction false} RefusedStays(s: Plain, k: nat, n: nat)
    requires k <= n <= s.N() && s.Ok() && s.Stored(k).Refused?
    ensures s.Stored(n) == s.Stored(k)
    decreases n
  {
    if k < n {
      RefusedStays(s, k, n - 1);
      StoreStep(s, n - 1);
    }
  }
}
