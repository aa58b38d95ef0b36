/** The hook registry that all handles of a client share, and the builders' snapshots of it. */
module Registry {
  import opened Slices

  type HookId = nat

  /** The `hooks` struct behind the config's pointer (its list for messages). */
  class HookRegistry {
    var message: Slice<HookId>

    constructor ()
      ensures Ok(message) && Contents(message) == [] && fresh(message.arr)
    {
      var empty := new HookId[0];
      message := Slice(empty, 0);
    }
  }

  datatype Driver = Base | Logged(inner: Driver) | InTx(inner: Driver)

  /** The config is copied from handle to handle; its registry is a pointer. */
  datatype Config = Config(driver: Driver, debug: bool, hooks: HookRegistry)

  /** A create builder: the hook list is the slice header the registry held when it was made. */
  datatype Builder = Builder(config: Config, hooks: Slice<HookId>)

  datatype Result<T> = Success(value: T) | TxStarted | TxFailed

  /** A client, or a transactional client: a handle is its config. */
  class Client {
    const config: Config

    constructor (config: Config)
      ensures this.config == config
    {
      this.config := config;
    }

    /** `c.hooks.Message = append(c.hooks.Message, hooks...)`. */
    method Use(hooks: seq<HookId>, spare: nat)
      requires Ok(config.hooks.message)
      modifies config.hooks, config.hooks.message.arr
      ensures Ok(config.hooks.message)
      ensures Contents(config.hooks.message) == old(Contents(config.hooks.message)) + hooks
      ensures var s := old(config.hooks.message);
        && s.arr[..s.len] == old(s.arr[..s.len])
        && config.hooks.message.len >= s.len
        && (config.hooks.message.arr == s.arr || fresh(config.hooks.message.arr))
    {
      config.hooks.message := Append(config.hooks.message, hooks, spare);
    }

    /** The builder sees what the registry holds now, in the array that the registry may go on writing. */
    method Create() returns (b: Builder)
      requires Ok(config.hooks.message)
      ensures b.config == config
      ensures Ok(b.hooks) && Contents(b.hooks) == Contents(config.hooks.message)
      ensures b.hooks.arr == config.hooks.message.arr && b.hooks.len <= config.hooks.message.len
    {
      b := Builder(config, config.hooks.message);
    }

    /** `Tx` (and `BeginTx`): refused inside a transaction, failing when the driver cannot start one. */
    method Tx(starts: bool) returns (r: Result<Client>)
      ensures config.driver.InTx? ==> r == TxStarted
      ensures !config.driver.InTx? && !starts ==> r == TxFailed
      ensures !config.driver.InTx? && starts ==>
        r.Success? && fresh(r.value) && r.value.config == config.(driver := InTx(config.driver))
    {
      if config.driver.InTx? {
        return TxStarted;
      }
      if !starts {
        return TxFailed;
      }
      var tx := new Client(config.(driver := InTx(config.driver)));
      return Success(tx);
    }

    method Debug() returns (c: Client)
      ensures if config.debug then c == this else fresh(c) && c.config == config.(driver := Logged(config.driver))
    {
      if config.debug {
        return this;
      }
      c := new Client(config.(driver := Logged(config.driver)));
    }
  }

  // ---------------------------------------------------------------- any use of any handles

  /** What the program does next, through the handle numbered `k` (modulo how many there are). */
  datatype Step =
    | DoUse(k: nat, hooks: seq<HookId>, spare: nat)
    | DoCreate(k: nat)
    | DoTx(k: nat, starts: bool)
    | DoDebug(k: nat)

  /** All hooks registered so far, through whichever handle. */
  function Registered(steps: seq<Step>): seq<HookId> {
    if steps == [] then []
    else
      var last := steps[|steps| - 1];
      Registered(steps[..|steps| - 1]) + if last.DoUse? then last.hooks else []
  }

  /** The hook list each builder should have: everything registered before it was created, in order. */
  function HookLists(steps: seq<Step>): seq<seq<HookId>> {
    if steps == [] then []
    else
      var before := steps[..|steps| - 1];
      HookLists(before) + if steps[|steps| - 1].DoCreate? then [Registered(before)] else []
  }

  /** The builders hold `lists`, and nothing that the registry may write in place is theirs. */
  ghost predicate Snapshots(builders: seq<Builder>, lists: seq<seq<HookId>>, message: Slice<HookId>)
    reads set j | 0 <= j < |builders| :: builders[j].hooks.arr
  {
    && |builders| == |lists|
    && forall j :: 0 <= j < |builders| ==>
         && Ok(builders[j].hooks)
         && Contents(builders[j].hooks) == lists[j]
         && (builders[j].hooks.arr == message.arr ==> builders[j].hooks.len <= message.len)
  }

  /** A registration: builders made before keep their lists, even when the shared array is written in place. */
  method PlayUse(h: Client, builders: seq<Builder>, ghost lists: seq<seq<HookId>>, hooks: seq<HookId>, spare: nat)
    requires Ok(h.config.hooks.message) && Snapshots(builders, lists, h.config.hooks.message)
    modifies h.config.hooks, h.config.hooks.message.arr
    ensures Ok(h.config.hooks.message)
    ensures Contents(h.config.hooks.message) == old(Contents(h.config.hooks.message)) + hooks
    ensures Snapshots(builders, lists, h.config.hooks.message)
    ensures h.config.hooks.message.arr == old(h.config.hooks.message.arr) || fresh(h.config.hooks.message.arr)
  {
    ghost var message := h.config.hooks.message;
    h.Use(hooks, spare);
    forall j | 0 <= j < |builders|
      ensures Contents(builders[j].hooks) == old(Contents(builders[j].hooks))
    {
      var s := builders[j].hooks;
      if s.arr == message.arr {
        assert s.arr[..s.len] == message.arr[..message.len][..s.len];
        assert old(s.arr[..s.len]) == old(message.arr[..message.len])[..s.len];
      }
    }
  }

  /** The handle a step goes through. */
  function HandleOf(step: Step, n: nat): (k: nat)
    requires n > 0
    ensures k < n
  {
    match step
    case DoUse(k, _, _) => k % n
    case DoCreate(k) => k % n
    case DoTx(k, _) => k % n
    case DoDebug(k) => k % n
  }

  /** One step, through any handle of the family: builders made before keep their lists, a new one gets everything
      registered so far. */
  method PlayStep(registry: HookRegistry, handles: seq<Client>, builders: seq<Builder>,
                  ghost before: seq<Step>, step: Step)
    returns (handles': seq<Client>, builders': seq<Builder>)
    requires |handles| > 0 && forall k :: 0 <= k < |handles| ==> handles[k].config.hooks == registry
    requires Ok(registry.message) && Contents(registry.message) == Registered(before)
    requires Snapshots(builders, HookLists(before), registry.message)
    modifies registry, registry.message.arr
    ensures |handles'| > 0 && forall k :: 0 <= k < |handles'| ==> handles'[k].config.hooks == registry
    ensures Ok(registry.message) && Contents(registry.message) == Registered(before + [step])
    ensures Snapshots(builders', HookLists(before + [step]), registry.message)
    ensures registry.message.arr == old(registry.message.arr) || fresh(registry.message.arr)
  {
    handles', builders' := handles, builders;
    assert (before + [step])[..|before|] == before;
    var h := handles[HandleOf(step, |handles|)];
    match step {
      case DoUse(_, hooks, spare) =>
        PlayUse(h, builders, HookLists(before), hooks, spare);
      case DoCreate(_) =>
        var b := h.Create();
        builders' := builders + [b];
      case DoTx(_, starts) =>
        var r := h.Tx(starts);
        if r.Success? {
          handles' := handles + [r.value];
        }
      case DoDebug(_) =>
        var c := h.Debug();
        handles' := handles + [c];
    }
  }

  /** MAIN: whatever is done, in any order and through any handles derived by Tx, BeginTx or Debug: at the end
      every builder ever created holds exactly the hooks registered, through any of the handles, before it was
      created; later registrations, even those appended in place, have not changed its list. */
  method Play(driver: Driver, debug: bool, steps: seq<Step>) returns (handles: seq<Client>, builders: seq<Builder>)
    ensures |builders| == |HookLists(steps)|
    ensures forall j :: 0 <= j < |builders| ==>
      Ok(builders[j].hooks) && Contents(builders[j].hooks) == HookLists(steps)[j]
    ensures |handles| > 0 && forall k :: 0 <= k < |handles| ==> handles[k].config.hooks == handles[0].config.hooks
    ensures Ok(handles[0].config.hooks.message) && Contents(handles[0].config.hooks.message) == Registered(steps)
  {
    var registry := new HookRegistry();
    var first := new Client(Config(driver, debug, registry));
    handles, builders := [first], [];
    for i := 0 to |steps|
      invariant |handles| > 0 && forall k :: 0 <= k < |handles| ==> handles[k].config.hooks == registry
      invariant fresh(registry) && fresh(registry.message.arr)
      invariant Ok(registry.message) && Contents(registry.message) == Registered(steps[..i])
      invariant Snapshots(builders, HookLists(steps[..i]), registry.message)
    {
      assert steps[..i + 1] == steps[..i] + [steps[i]];
      handles, builders := PlayStep(registry, handles, builders, steps[..i], steps[i]);
    }
    assert steps[..|steps|] == steps;
  }
}
