/** The closure chain of `MessageCreateBulk.Save`, as functions from state to state.

    Objects shared by pointer are kept in tables and named by address: mutations and nodes in the
    `World` (hooks can reach and change those, and the store), everything captured by the closures in
    the `Chain` (only the chain itself changes it). */
module Bulk {
  import opened Entity
  import opened Onion

  /** A context, as the values attached to the root one. */
  datatype Ctx = Ctx(values: seq<nat>)

  /** What a mutator receives as `m Mutation`: a `*MessageMutation`, or a mutation of another type. */
  datatype MutRef = Msg(addr: nat) | Foreign

  datatype Arg = Arg(ctx: Ctx, m: MutRef)

  /** What a mutator returns as `Value`: a node, or a value of another type. */
  datatype Value = Node(addr: nat) | OtherValue

  datatype Outcome = Ok(v: Value) | Err(e: Error)

  /** A MessageMutation object: its payload, its `id` pointer into a node, its `done` flag. */
  datatype Mutation = Mutation(fields: Fields, id: Option<nat>, done: bool)

  const NEW_MUTATION := Mutation(NO_FIELDS, None, false)

  datatype Stored = Stored(id: Option<int>, row: Row)

  /** The store: its rows, and the next ID of its counter. */
  datatype Db = Db(rows: seq<Stored>, next: int)

  /** The store's answer to a batch: refused as a whole, or done, with the ID given to each spec
      (a spec missing from `ids` keeps a nil ID). */
  datatype Answer = Refused(constraint: bool, msg: nat) | Done(db: Db, ids: map<nat, int>)

  type Store = (Db, seq<Row>) -> Answer

  /** What hooks can reach: the mutation objects, the nodes, the store, and whatever they remember themselves. */
  datatype World = World(muts: map<nat, Mutation>, msgs: map<nat, Message>, db: Db, memo: map<nat, int>)

  /** A CreateSpec object: its columns, its ID value, and the payload it was built from. */
  datatype Spec = Spec(row: Row, id: Option<int>, from: Fields)

  /** What happens, in order. Layer `h` of builder `i` is its hook `h`, or its body when `h` is the
      number of its hooks. */
  datatype Event =
    | In(i: nat, h: nat, a: Arg)
    | Out(i: nat, h: nat)
    | Fill(i: nat, spec: nat)
    | Batch(ctx: Ctx, slots: seq<Option<nat>>)
    | Crash

  /** The captured variables: the builders' mutation pointers, the two shared slices (of node and spec
      addresses; a body allocates both objects at the same address), the spec objects, the trace. */
  datatype Chain = Chain(
    cur: map<nat, nat>,
    nodes: seq<Option<nat>>,
    specs: seq<Option<nat>>,
    heap: seq<Spec>,
    trace: seq<Event>)
  {
    function Emit(e: Event): Chain { this.(trace := trace + [e]) }
  }

  /** What is fixed during a save: the builders (by address; the same builder may occur twice), the hooks
      of each builder, the entity's check, node and row functions, and the store. */
  datatype Env = Env(
    builders: seq<nat>,
    hooks: nat -> seq<Hook<Arg, World, Outcome>>,
    defaults: (nat, Fields) -> Fields,
    check: Fields -> Option<Error>,
    node: Fields -> Message,
    row: Fields -> Row,
    store: Store)

  type Mutator = Op<Arg, World, Chain, Outcome>

  function Hooks(e: Env, i: nat): seq<Hook<Arg, World, Outcome>>
    requires i < |e.builders|
  {
    e.hooks(e.builders[i])
  }

  function MutAt(w: World, a: nat): Mutation { if a in w.muts then w.muts[a] else NEW_MUTATION }

  function MsgAt(w: World, a: nat): Message { if a in w.msgs then w.msgs[a] else ZERO_MESSAGE }

  /** The mutation the `i`-th builder points to. */
  function Cur(e: Env, c: Chain, i: nat): nat
    requires i < |e.builders|
  {
    if e.builders[i] in c.cur then c.cur[e.builders[i]] else 0
  }

  // ---------------------------------------------------------------- the batch insert

  predicate AllFilled(slots: seq<Option<nat>>, heap: seq<Spec>) {
    forall j :: 0 <= j < |slots| ==> slots[j].Some? && slots[j].value < |heap|
  }

  function SlotRows(slots: seq<Option<nat>>, heap: seq<Spec>): seq<Row>
    requires AllFilled(slots, heap)
  {
    seq(|slots|, j requires 0 <= j < |slots| => heap[slots[j].value].row)
  }

  /** The spec objects after the store wrote the IDs of the first `k` slots. */
  function WriteIDs(slots: seq<Option<nat>>, heap: seq<Spec>, ids: map<nat, int>, k: nat): (h: seq<Spec>)
    requires AllFilled(slots, heap) && k <= |slots|
    ensures |h| == |heap|
    ensures forall a :: 0 <= a < |h| ==> h[a].row == heap[a].row && h[a].from == heap[a].from
  {
    if k == 0 then heap
    else
      var h := WriteIDs(slots, heap, ids, k - 1);
      if k - 1 in ids then h[slots[k - 1].value := h[slots[k - 1].value].(id := Some(ids[k - 1]))] else h
  }

  /** `sqlgraph.BatchCreate` on the shared specs slice; a nil slot would be dereferenced. */
  function BatchCreate(e: Env, ctx: Ctx, w: World, c: Chain): (World, Chain, Outcome) {
    var c1 := c.Emit(Batch(ctx, c.specs));
    if !AllFilled(c.specs, c.heap) then (w, c1.Emit(Crash), Err(NilDereference))
    else
      match e.store(w.db, SlotRows(c.specs, c.heap))
      case Refused(constraint, msg) => (w, c1, Err(if constraint then ConstraintError(msg) else DbError(msg)))
      case Done(db, ids) =>
        (w.(db := db), c1.(heap := WriteIDs(c.specs, c.heap, ids, |c.specs|)), Ok(OtherValue))
  }

  // ---------------------------------------------------------------- one body

  /** `builder.mutation = mutation; nodes[i], specs[i] = builder.createSpec()`. */
  function FillWorld(e: Env, m: nat, w: World, c: Chain): World {
    w.(msgs := w.msgs[|c.heap| := e.node(MutAt(w, m).fields)])
  }

  function FillChain(e: Env, i: nat, m: nat, w: World, c: Chain): Chain
    requires i < |e.builders|
  {
    var f := MutAt(w, m).fields;
    var a := |c.heap|;
    Chain(c.cur[e.builders[i] := m],
          if i < |c.nodes| then c.nodes[i := Some(a)] else c.nodes,
          if i < |c.specs| then c.specs[i := Some(a)] else c.specs,
          c.heap + [Spec(e.row(f), None, f)],
          c.trace + [Fill(i, a)])
  }

  /** The way back out: `mutation.id = &nodes[i].ID`, the ID copied from the spec if the store set it,
      `mutation.done = true`, and `nodes[i]` returned. */
  function Settle(i: nat, m: nat, w: World, c: Chain): (World, Chain, Outcome) {
    if i >= |c.nodes| || i >= |c.specs| || c.nodes[i].None? || c.specs[i].None? || c.specs[i].value >= |c.heap| then
      (w, c.Emit(Crash), Err(NilDereference))
    else
      var a := c.nodes[i].value;
      var id := c.heap[c.specs[i].value].id;
      var w1 := if id.Some? then w.(msgs := w.msgs[a := MsgAt(w, a).(id := id.value)]) else w;
      (w1.(muts := w1.muts[m := MutAt(w, m).(id := Some(a), done := true)]), c, Ok(Node(a)))
  }

  /** What body `i` passes down: the next builder's mutation at the ROOT context, or, in the last body,
      the context it was called with (the batch insert ignores the mutation). */
  function NextArg(e: Env, root: Ctx, i: nat, a: Arg, c: Chain): Arg {
    if i + 1 < |e.builders| then Arg(root, Msg(Cur(e, c, i + 1))) else a
  }

  /** The innermost mutator of builder `i`, around `next`: level `i + 1` of the chain. */
  function BodyRun(e: Env, root: Ctx, i: nat, next: Mutator, a: Arg, w: World, c: Chain): (World, Chain, Outcome)
    requires i < |e.builders|
  {
    if a.m.Foreign? then (w, c, Err(UnexpectedMutationType))
    else
      match e.check(MutAt(w, Cur(e, c, i)).fields)
      case Some(err) => (w, c, Err(err))
      case None =>
        var m := a.m.addr;
        var w1 := FillWorld(e, m, w, c);
        var c1 := FillChain(e, i, m, w, c);
        var (w2, c2, o) := next(NextArg(e, root, i, a, c1), w1, c1);
        if o.Err? then (w2, c2, o) else Settle(i, m, w2, c2)
  }

  function Body(e: Env, root: Ctx, i: nat, next: Mutator): Mutator
    requires i < |e.builders|
  {
    (a, w, c) => BodyRun(e, root, i, next, a, w, c)
  }

  // ---------------------------------------------------------------- the chain

  /** Records entry and exit of a layer. */
  function Traced(i: nat, h: nat, f: Mutator): Mutator {
    (a: Arg, w: World, c: Chain) =>
      var (w1, c1, o) := f(a, w, c.Emit(In(i, h, a)));
      (w1, c1.Emit(Out(i, h)), o)
  }

  /** Layer `h` of builder `i`: its hook `h` around layer `h + 1`, or its body around level `i + 1`. */
  function Layer(e: Env, root: Ctx, i: nat, h: nat): Mutator
    requires i < |e.builders| && h <= |Hooks(e, i)|
    decreases |e.builders| - i, 0, |Hooks(e, i)| - h
  {
    if h < |Hooks(e, i)| then Traced(i, h, Wrap(Hooks(e, i)[h], Layer(e, root, i, h + 1)))
    else Traced(i, h, Body(e, root, i, Level(e, root, i + 1)))
  }

  /** Level `i`: `mutators[i]`, or the batch insert below the last builder. */
  function Level(e: Env, root: Ctx, i: nat): Mutator
    requires i <= |e.builders|
    decreases |e.builders| - i, 1
  {
    if i < |e.builders| then Layer(e, root, i, 0)
    else (a: Arg, w: World, c: Chain) => BatchCreate(e, a.ctx, w, c)
  }

  // ---------------------------------------------------------------- Save

  /** `builder.defaults()` for the builder at position `i`. */
  function DefaultStep(e: Env, cur: map<nat, nat>, w: World, i: nat): World
    requires i < |e.builders|
  {
    var m := if e.builders[i] in cur then cur[e.builders[i]] else 0;
    w.(muts := w.muts[m := MutAt(w, m).(fields := e.defaults(i, MutAt(w, m).fields))])
  }

  /** The same for the first `k` builders. */
  function DefaultedWorld(e: Env, cur: map<nat, nat>, w: World, k: nat): World
    requires k <= |e.builders|
  {
    if k == 0 then w else DefaultStep(e, cur, DefaultedWorld(e, cur, w, k - 1), k - 1)
  }

  /** The captured variables when the first mutator is called. */
  function InitialChain(e: Env, cur: map<nat, nat>): Chain {
    Chain(cur, seq(|e.builders|, j => None), seq(|e.builders|, j => None), [], [])
  }

  /** The run of `mutators[0]`, after the defaults; nothing runs when there are no builders. */
  function RunChain(e: Env, root: Ctx, w: World, c: Chain): (World, Chain, Outcome) {
    if |e.builders| == 0 then (w, c, Ok(OtherValue))
    else Level(e, root, 0)(Arg(root, Msg(Cur(e, c, 0))), w, c)
  }

  /** The whole save: final world, captured variables, and the nodes slice or the error. */
  function Save(e: Env, root: Ctx, cur: map<nat, nat>, w: World): (World, Chain, Result<seq<Option<nat>>>) {
    var (w1, c1, o) := RunChain(e, root, DefaultedWorld(e, cur, w, |e.builders|), InitialChain(e, cur));
    (w1, c1, if o.Err? then Failure(o.e) else Success(c1.nodes))
  }
}
