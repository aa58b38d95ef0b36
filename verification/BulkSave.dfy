/** `MessageCreateBulk.Save` as it runs: two shared slices filled in place, objects updated in place, and
    the closures' calls as methods. Each method is proved against the functions of module Bulk. */
module BulkSave {
  import opened Entity
  import opened Onion
  import opened Bulk

  /** The captured variables of one save, and the objects the pointers lead to. */
  class Run {
    const env: Env
    const root: Ctx
    const nodes: array<Option<nat>>
    const specs: array<Option<nat>>
    var cur: map<nat, nat>
    var heap: seq<Spec>
    var muts: map<nat, Mutation>
    var msgs: map<nat, Message>
    var db: Db
    var memo: map<nat, int>
    ghost var trace: seq<Event>

    ghost predicate Valid()
      reads this
    {
      nodes != specs && nodes.Length == specs.Length == |env.builders|
    }

    function TheWorld(): World
      reads this
    {
      World(muts, msgs, db, memo)
    }

    ghost function TheChain(): Chain
      reads this, nodes, specs
    {
      Chain(cur, nodes[..], specs[..], heap, trace)
    }

    constructor (env: Env, root: Ctx, cur: map<nat, nat>, w: World)
      ensures Valid() && fresh(nodes) && fresh(specs)
      ensures this.env == env && this.root == root
      ensures TheWorld() == w && TheChain() == InitialChain(env, cur)
    {
      this.env := env;
      this.root := root;
      this.nodes := new Option<nat>[|env.builders|](i => None);
      this.specs := new Option<nat>[|env.builders|](i => None);
      this.cur := cur;
      this.heap := [];
      this.muts, this.msgs, this.db, this.memo := w.muts, w.msgs, w.db, w.memo;
      this.trace := [];
      new;
      assert nodes[..] == seq(|env.builders|, j => None);
      assert specs[..] == seq(|env.builders|, j => None);
    }

    /** `builder.defaults()` for the builder at position `i`. */
    method ApplyDefaults(i: nat)
      requires Valid() && i < |env.builders|
      modifies this`muts
      ensures TheWorld() == DefaultStep(env, cur, old(TheWorld()), i)
    {
      var m := if env.builders[i] in cur then cur[env.builders[i]] else 0;
      var mutation := MutAt(TheWorld(), m);
      muts := muts[m := mutation.(fields := env.defaults(i, mutation.fields))];
    }

    /** `mutators[i].Mutate`, from its layer `h` inwards. */
    method Mutate(i: nat, h: nat, a: Arg) returns (o: Outcome)
      requires Valid() && i < |env.builders| && h <= |Hooks(env, i)|
      modifies this, nodes, specs
      ensures Valid()
      ensures (TheWorld(), TheChain(), o) == Layer(env, root, i, h)(a, old(TheWorld()), old(TheChain()))
      decreases |env.builders| - i, |Hooks(env, i)| - h, 1
    {
      trace := trace + [In(i, h, a)];
      assert TheChain() == old(TheChain()).Emit(In(i, h, a));
      if h < |Hooks(env, i)| {
        o := CallHook(i, h, a);
      } else {
        o := CallBody(i, a);
      }
      ghost var inner := TheChain();
      trace := trace + [Out(i, h)];
      assert TheChain() == inner.Emit(Out(i, h));
    }

    /** Hook `h` of builder `i` around the next layer: it may call it zero, one or many times. */
    method CallHook(i: nat, h: nat, a: Arg) returns (o: Outcome)
      requires Valid() && i < |env.builders| && h < |Hooks(env, i)|
      modifies this, nodes, specs
      ensures Valid()
      ensures (TheWorld(), TheChain(), o) ==
        Wrap(Hooks(env, i)[h], Layer(env, root, i, h + 1))(a, old(TheWorld()), old(TheChain()))
      decreases |env.builders| - i, |Hooks(env, i)| - h, 0
    {
      var hook := Hooks(env, i)[h];
      ghost var next := Layer(env, root, i, h + 1);
      var limit := hook.limit(a, TheWorld());
      var past, left := [], limit;
      while left > 0 && hook.again(a, TheWorld(), past)
        invariant Valid()
        invariant Drive(hook, a, past, left, next, TheWorld(), TheChain())
          == Drive(hook, a, [], limit, next, old(TheWorld()), old(TheChain()))
        decreases left
      {
        var (w1, a1) := hook.before(a, TheWorld(), past);
        muts, msgs, db, memo := w1.muts, w1.msgs, w1.db, w1.memo;
        var r := Mutate(i, h + 1, a1);
        past, left := past + [r], left - 1;
      }
      var (w1, r) := hook.finish(a, TheWorld(), past);
      muts, msgs, db, memo := w1.muts, w1.msgs, w1.db, w1.memo;
      o := r;
    }

    /** The innermost closure of builder `i`. */
    method CallBody(i: nat, a: Arg) returns (o: Outcome)
      requires Valid() && i < |env.builders|
      modifies this, nodes, specs
      ensures Valid()
      ensures (TheWorld(), TheChain(), o) ==
        BodyRun(env, root, i, Level(env, root, i + 1), a, old(TheWorld()), old(TheChain()))
      decreases |env.builders| - i, 0, 0
    {
      if a.m.Foreign? {
        return Err(UnexpectedMutationType);
      }
      var checked := env.check(MutAt(TheWorld(), Current(i)).fields);
      if checked.Some? {
        return Err(checked.value);
      }
      FillSlot(i, a.m.addr);
      var below: Outcome;
      if i + 1 < |env.builders| {
        below := Mutate(i + 1, 0, Arg(root, Msg(Current(i + 1))));
      } else {
        below := CreateBatch(a.ctx);
      }
      if below.Err? {
        return below;
      }
      o := SettleNode(i, a.m.addr);
    }

    /** The mutation that builder `i` points to. */
    function Current(i: nat): nat
      requires i < |env.builders|
      reads this
    {
      if env.builders[i] in cur then cur[env.builders[i]] else 0
    }

    /** `builder.mutation = mutation` and `nodes[i], specs[i] = builder.createSpec()`. */
    method FillSlot(i: nat, m: nat)
      requires Valid() && i < |env.builders|
      modifies this, nodes, specs
      ensures Valid()
      ensures TheWorld() == FillWorld(env, m, old(TheWorld()), old(TheChain()))
      ensures TheChain() == FillChain(env, i, m, old(TheWorld()), old(TheChain()))
    {
      cur := cur[env.builders[i] := m];
      var fields := MutAt(TheWorld(), m).fields;
      msgs := msgs[|heap| := env.node(fields)];
      nodes[i], specs[i] := Some(|heap|), Some(|heap|);
      trace := trace + [Fill(i, |heap|)];
      heap := heap + [Spec(env.row(fields), None, fields)];
    }

    /** The way back out: the ID pointer, the ID itself, the flag. */
    method SettleNode(i: nat, m: nat) returns (o: Outcome)
      requires Valid() && i < |env.builders|
      modifies this
      ensures Valid()
      ensures (TheWorld(), TheChain(), o) == Settle(i, m, old(TheWorld()), old(TheChain()))
    {
      var node, spec := nodes[i], specs[i];
      if node.None? || spec.None? || spec.value >= |heap| {
        trace := trace + [Crash];
        return Err(NilDereference);
      }
      var mutation := MutAt(TheWorld(), m);
      if heap[spec.value].id.Some? {
        msgs := msgs[node.value := MsgAt(TheWorld(), node.value).(id := heap[spec.value].id.value)];
      }
      muts := muts[m := mutation.(id := node, done := true)];
      return Ok(Node(node.value));
    }

    /** The single batch insert, on whatever the shared slice holds. */
    method CreateBatch(ctx: Ctx) returns (o: Outcome)
      requires Valid()
      modifies this
      ensures Valid() && nodes[..] == old(nodes[..]) && specs[..] == old(specs[..])
      ensures (TheWorld(), TheChain(), o) == BatchCreate(env, ctx, old(TheWorld()), old(TheChain()))
    {
      trace := trace + [Batch(ctx, specs[..])];
      if !AllFilled(specs[..], heap) {
        trace := trace + [Crash];
        return Err(NilDereference);
      }
      match env.store(db, SlotRows(specs[..], heap)) {
        case Refused(constraint, msg) =>
          return Err(if constraint then ConstraintError(msg) else DbError(msg));
        case Done(db', ids) =>
          db := db';
          ghost var before := heap;
          for k := 0 to specs.Length
            invariant heap == WriteIDs(specs[..], before, ids, k)
            invariant muts == old(muts) && msgs == old(msgs) && db == db' && memo == old(memo) && cur == old(cur)
            invariant trace == old(trace) + [Batch(ctx, specs[..])]
          {
            if k in ids {
              var spec := specs[k].value;
              heap := heap[spec := heap[spec].(id := Some(ids[k]))];
            }
          }
          return Ok(OtherValue);
      }
    }
  }

  /** `Save`: the error recorded by MapCreateBulk, if any, before anything else; then the defaults of all
      builders, then the first mutator. Proved equal to the specification `Bulk.Save`. */
  method SaveBulk(err: Option<Error>, env: Env, root: Ctx, cur: map<nat, nat>, w: World)
    returns (result: Result<seq<Option<nat>>>, run: Run)
    ensures err.Some? ==> result == Failure(err.value) && run.TheWorld() == w && run.trace == []
    ensures err.None? ==> (run.TheWorld(), run.TheChain(), result) == Save(env, root, cur, w)
  {
    run := new Run(env, root, cur, w);
    if err.Some? {
      return Failure(err.value), run;
    }
    for i := 0 to |env.builders|
      invariant run.Valid() && run.env == env && run.root == root
      invariant run.TheWorld() == DefaultedWorld(env, cur, w, i)
      invariant run.TheChain() == InitialChain(env, cur)
    {
      run.ApplyDefaults(i);
    }
    if |env.builders| > 0 {
      var first := env.builders[0];
      var o := run.Mutate(0, 0, Arg(root, Msg(if first in cur then cur[first] else 0)));
      if o.Err? {
        return Failure(o.e), run;
      }
    }
    return Success(run.nodes[..]), run;
  }
}
