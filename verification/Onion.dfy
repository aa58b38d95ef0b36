/** Hooks and interceptors, as ent composes them: functions around a `next` operation.

    The state of a run is split in two. `w: W` is what a hook can reach and change; `p: P` is private to
    the operation being wrapped (the closures' captured variables and the recorded trace), so a hook can
    change it only by calling `next`. */
module Onion {

  /** An arbitrary terminating hook, by its decisions. On argument `a`, at world `w`, having received
      the results `past` from `next` so far, it either calls `next` again (after changing the world and
      choosing the argument to forward) or finishes with a result of its own. `limit` bounds the calls;
      zero calls (skipping), several calls (retrying) and ignoring the results are all allowed. */
  datatype Hook<!A, !W, !R> = Hook(
    limit: (A, W) -> nat,
    again: (A, W, seq<R>) -> bool,
    before: (A, W, seq<R>) -> (W, A),
    finish: (A, W, seq<R>) -> (W, R))

  type Op<!A, !W, !P, !R> = (A, W, P) -> (W, P, R)

  /** Runs hook `h` around `next`; `left` is the number of calls the hook may still make. */
  function Drive<A, W, P, R>(h: Hook<A, W, R>, a: A, past: seq<R>, left: nat, next: Op<A, W, P, R>, w: W, p: P)
    : (W, P, R)
    decreases left
  {
    if left == 0 || !h.again(a, w, past) then
      var (w', r) := h.finish(a, w, past);
      (w', p, r)
    else
      var (w1, a1) := h.before(a, w, past);
      var (w2, p2, r) := next(a1, w1, p);
      Drive(h, a, past + [r], left - 1, next, w2, p2)
  }

  /** `hook(next)`: a new operation. */
  function Wrap<A, W, P, R>(h: Hook<A, W, R>, next: Op<A, W, P, R>): Op<A, W, P, R> {
    (a, w, p) => Drive(h, a, [], h.limit(a, w), next, w, p)
  }

  /** The whole stack: the first hook of the list is the outermost layer. */
  function Stack<A, W, P, R>(hs: seq<Hook<A, W, R>>, base: Op<A, W, P, R>): Op<A, W, P, R> {
    if hs == [] then base else Wrap(hs[0], Stack(hs[1..], base))
  }

  ghost predicate Preorder<P(!new)>(rel: (P, P) -> bool) {
    && (forall p :: rel(p, p))
    && (forall p, q, r :: rel(p, q) && rel(q, r) ==> rel(p, r))
  }

  /** Called with `a`, the hook forwards only arguments in `ok`. */
  ghost predicate Forwards<A(!new), W(!new), R(!new)>(h: Hook<A, W, R>, a: A, ok: A -> bool) {
    forall w, past :: ok(h.before(a, w, past).1)
  }

  /** A relation on the private state that `next` keeps on the arguments in `ok` is kept by any hook that
      forwards only those. */
  lemma {:induction false} DriveKeeps<A(!new), W(!new), P(!new), R(!new)>(
      h: Hook<A, W, R>, a: A, past: seq<R>, left: nat, next: Op<A, W, P, R>, w: W, p: P,
      ok: A -> bool, rel: (P, P) -> bool)
    requires Preorder(rel) && Forwards(h, a, ok)
    requires forall a', w', p' :: ok(a') ==> rel(p', next(a', w', p').1)
    ensures rel(p, Drive(h, a, past, left, next, w, p).1)
    decreases left
  {
    if left == 0 || !h.again(a, w, past) {
    } else {
      var (w1, a1) := h.before(a, w, past);
      assert ok(a1);
      var (w2, p2, r) := next(a1, w1, p);
      DriveKeeps(h, a, past + [r], left - 1, next, w2, p2, ok, rel);
    }
  }

  /** So is it by a whole stack of arbitrary hooks, when the innermost operation keeps it. */
  lemma {:induction false} StackKeeps<A(!new), W(!new), P(!new), R(!new)>(
      hs: seq<Hook<A, W, R>>, base: Op<A, W, P, R>, a: A, w: W, p: P, rel: (P, P) -> bool)
    requires Preorder(rel)
    requires forall a', w', p' :: rel(p', base(a', w', p').1)
    ensures rel(p, Stack(hs, base)(a, w, p).1)
  {
    if hs != [] {
      forall a', w', p' ensures rel(p', Stack(hs[1..], base)(a', w', p').1) {
        StackKeeps(hs[1..], base, a', w', p', rel);
      }
      DriveKeeps(hs[0], a, [], hs[0].limit(a, w), Stack(hs[1..], base), w, p, _ => true, rel);
    }
  }

  /** The hook calls `next` exactly `k` times, whatever it is given and whatever comes back. */
  ghost predicate CallsExactly<A(!new), W(!new), R(!new)>(h: Hook<A, W, R>, k: nat) {
    && (forall a, w :: h.limit(a, w) >= k)
    && (forall a, w, past :: h.again(a, w, past) == (|past| < k))
  }

  /** A hook that calls `next` exactly once is its two halves around that call. */
  lemma DriveOnce<A(!new), W(!new), P(!new), R(!new)>(h: Hook<A, W, R>, next: Op<A, W, P, R>, a: A, w: W, p: P)
    requires CallsExactly(h, 1)
    ensures var (w1, a1) := h.before(a, w, []);
      var (w2, p2, r) := next(a1, w1, p);
      var (w3, r3) := h.finish(a, w2, [r]);
      Wrap(h, next)(a, w, p) == (w3, p2, r3)
  {
    var (w1, a1) := h.before(a, w, []);
    var (w2, p2, r) := next(a1, w1, p);
    assert h.again(a, w, []) && !h.again(a, w2, [r]);
    assert [] + [r] == [r];
    assert Drive(h, a, [], h.limit(a, w), next, w, p) == Drive(h, a, [r], h.limit(a, w) - 1, next, w2, p2);
  }

  // ---------------------------------------------------------------- what a hook is given

  /** The hook runs around `next`, step by step: `ws` and `ps` are the worlds and private states at which it
      decides, `rs` the results so far. Before call `t` it sees exactly the first `t` results, what it then
      forwards goes to `next` unchanged, and result `t` is what `next` returned; it stops when it says so, or
      after as many calls as it may make. */
  ghost predicate Ran<A(!new), W(!new), P(!new), R(!new)>(
      h: Hook<A, W, R>, next: Op<A, W, P, R>, a: A, w: W, p: P, ws: seq<W>, ps: seq<P>, rs: seq<R>)
  {
    && |ws| == |ps| == |rs| + 1
    && ws[0] == w && ps[0] == p
    && |rs| <= h.limit(a, w)
    && (forall t :: 0 <= t < |rs| ==> RanOnce(h, next, a, ws, ps, rs, t))
    && (|rs| == h.limit(a, w) || !h.again(a, ws[|rs|], rs))
  }

  ghost predicate RanOnce<A(!new), W(!new), P(!new), R(!new)>(
      h: Hook<A, W, R>, next: Op<A, W, P, R>, a: A, ws: seq<W>, ps: seq<P>, rs: seq<R>, t: int)
    requires |ws| == |ps| == |rs| + 1 && 0 <= t < |rs|
  {
    && h.again(a, ws[t], rs[..t])
    && var (w1, a1) := h.before(a, ws[t], rs[..t]);
    (ws[t + 1], ps[t + 1], rs[t]) == next(a1, w1, ps[t])
  }

  /** What it answers then: its own last word on all the results. */
  function Conclusion<A, W, P, R>(h: Hook<A, W, R>, a: A, ws: seq<W>, ps: seq<P>, rs: seq<R>): (W, P, R)
    requires |ws| == |ps| == |rs| + 1
  {
    var (w1, r) := h.finish(a, ws[|rs|], rs);
    (w1, ps[|rs|], r)
  }

  lemma {:induction false} RunFrom<A(!new), W(!new), P(!new), R(!new)>(
      h: Hook<A, W, R>, next: Op<A, W, P, R>, a: A, w: W, p: P, ws: seq<W>, ps: seq<P>, rs: seq<R>, t: nat)
    requires Ran(h, next, a, w, p, ws, ps, rs) && t <= |rs|
    ensures Drive(h, a, rs[..t], h.limit(a, w) - t, next, ws[t], ps[t]) == Conclusion(h, a, ws, ps, rs)
    decreases |rs| - t
  {
    if t == |rs| {
      assert rs[..t] == rs;
    } else {
      assert RanOnce(h, next, a, ws, ps, rs, t);
      assert rs[..t] + [rs[t]] == rs[..t + 1];
      RunFrom(h, next, a, w, p, ws, ps, rs, t + 1);
    }
  }

  /** The first `t` steps of a run. */
  ghost predicate RanSoFar<A(!new), W(!new), P(!new), R(!new)>(
      h: Hook<A, W, R>, next: Op<A, W, P, R>, a: A, w: W, p: P, ws: seq<W>, ps: seq<P>, rs: seq<R>)
  {
    && |ws| == |ps| == |rs| + 1
    && ws[0] == w && ps[0] == p
    && |rs| <= h.limit(a, w)
    && forall t :: 0 <= t < |rs| ==> RanOnce(h, next, a, ws, ps, rs, t)
  }

  /** Every run can be carried on to its end. */
  lemma {:induction false} RunOn<A(!new), W(!new), P(!new), R(!new)>(
      h: Hook<A, W, R>, next: Op<A, W, P, R>, a: A, w: W, p: P, ws: seq<W>, ps: seq<P>, rs: seq<R>)
      returns (ws': seq<W>, ps': seq<P>, rs': seq<R>)
    requires RanSoFar(h, next, a, w, p, ws, ps, rs)
    ensures Ran(h, next, a, w, p, ws', ps', rs')
    decreases h.limit(a, w) - |rs|
  {
    if |rs| == h.limit(a, w) || !h.again(a, ws[|rs|], rs) {
      ws', ps', rs' := ws, ps, rs;
    } else {
      var (w1, a1) := h.before(a, ws[|rs|], rs);
      var (w2, p2, r) := next(a1, w1, ps[|rs|]);
      var ws1, ps1, rs1 := ws + [w2], ps + [p2], rs + [r];
      forall t | 0 <= t < |rs1| ensures RanOnce(h, next, a, ws1, ps1, rs1, t) {
        assert rs1[..t] == rs[..t];
        assert t < |rs| ==> RanOnce(h, next, a, ws, ps, rs, t);
        assert rs[..|rs|] == rs;
      }
      ws', ps', rs' := RunOn(h, next, a, w, p, ws1, ps1, rs1);
    }
  }

  /** MAIN: the hook around `next` gives an answer if and only if it runs so to that answer. */
  lemma WrapIsRun<A(!new), W(!new), P(!new), R(!new)>(
      h: Hook<A, W, R>, next: Op<A, W, P, R>, a: A, w: W, p: P, answer: (W, P, R))
    ensures Wrap(h, next)(a, w, p) == answer <==>
      exists ws, ps, rs :: Ran(h, next, a, w, p, ws, ps, rs) && Conclusion(h, a, ws, ps, rs) == answer
  {
    var ws0, ps0, rs0 := RunOn(h, next, a, w, p, [w], [p], []);
    forall ws, ps, rs | Ran(h, next, a, w, p, ws, ps, rs)
      ensures Conclusion(h, a, ws, ps, rs) == Wrap(h, next)(a, w, p)
    {
      assert rs[..0] == [];
      RunFrom(h, next, a, w, p, ws, ps, rs, 0);
    }
  }

  /** The run that leads to the answer. */
  lemma TheRun<A(!new), W(!new), P(!new), R(!new)>(h: Hook<A, W, R>, next: Op<A, W, P, R>, a: A, w: W, p: P)
      returns (ws: seq<W>, ps: seq<P>, rs: seq<R>)
    ensures Ran(h, next, a, w, p, ws, ps, rs) && Wrap(h, next)(a, w, p) == Conclusion(h, a, ws, ps, rs)
  {
    WrapIsRun(h, next, a, w, p, Wrap(h, next)(a, w, p));
    ws, ps, rs :| Ran(h, next, a, w, p, ws, ps, rs) && Conclusion(h, a, ws, ps, rs) == Wrap(h, next)(a, w, p);
  }

  function Repeat<X>(unit: seq<X>, k: nat): seq<X> {
    if k == 0 then [] else unit + Repeat(unit, k - 1)
  }

  /** If each call of `next` appends `unit` to a log kept in the private state, or leaves it `broken` for good,
      then a hook that calls it exactly `k` times appends `k` copies, or leaves it broken. */
  lemma {:induction false} DriveRepeats<A(!new), W(!new), P(!new), R(!new), X(!new)>(
      h: Hook<A, W, R>, k: nat, a: A, past: seq<R>, left: nat, next: Op<A, W, P, R>, w: W, p: P,
      broken: P -> bool, log: P -> seq<X>, unit: seq<X>)
    requires CallsExactly(h, k) && |past| <= k <= |past| + left
    requires forall a', w', p' :: var p2 := next(a', w', p').1;
      (broken(p') ==> broken(p2)) && (broken(p2) || log(p2) == log(p') + unit)
    ensures var p2 := Drive(h, a, past, left, next, w, p).1;
      (broken(p) ==> broken(p2)) && (broken(p2) || log(p2) == log(p) + Repeat(unit, k - |past|))
    decreases left
  {
    if |past| == k {
      assert log(p) + [] == log(p);
    } else {
      var (w1, a1) := h.before(a, w, past);
      var (w2, p2, r) := next(a1, w1, p);
      DriveRepeats(h, k, a, past + [r], left - 1, next, w2, p2, broken, log, unit);
      assert (log(p) + unit) + Repeat(unit, k - |past| - 1) == log(p) + (unit + Repeat(unit, k - |past| - 1));
    }
  }

  /** The hook's own steps keep `good`, a property of the world beside the private state. */
  ghost predicate Keeps<A(!new), W(!new), P(!new), R(!new)>(h: Hook<A, W, R>, a: A, good: (W, P) -> bool) {
    && (forall w, p, past :: good(w, p) ==> good(h.before(a, w, past).0, p))
    && (forall w, p, past :: good(w, p) ==> good(h.finish(a, w, past).0, p))
  }

  /** If so does `next`, on the arguments that the hook forwards, then the hook around it does. */
  lemma {:induction false} DriveStays<A(!new), W(!new), P(!new), R(!new)>(
      h: Hook<A, W, R>, a: A, past: seq<R>, left: nat, next: Op<A, W, P, R>, w: W, p: P,
      ok: A -> bool, good: (W, P) -> bool)
    requires Forwards(h, a, ok) && Keeps(h, a, good) && good(w, p)
    requires forall a', w', p' :: ok(a') && good(w', p') ==> var (w2, p2, _) := next(a', w', p'); good(w2, p2)
    ensures var (w2, p2, _) := Drive(h, a, past, left, next, w, p); good(w2, p2)
    decreases left
  {
    if left == 0 || !h.again(a, w, past) {
    } else {
      var (w1, a1) := h.before(a, w, past);
      assert ok(a1) && good(w1, p);
      var (w2, p2, r) := next(a1, w1, p);
      DriveStays(h, a, past + [r], left - 1, next, w2, p2, ok, good);
    }
  }

  // ---------------------------------------------------------------- composition laws

  /** Registering `h1` and then `h2` is wrapping with the `h2` stack first and the `h1` stack around it. */
  lemma {:induction false} StackAppend<A, W, P, R>(
      h1: seq<Hook<A, W, R>>, h2: seq<Hook<A, W, R>>, base: Op<A, W, P, R>)
    ensures Stack(h1 + h2, base) == Stack(h1, Stack(h2, base))
  {
    if h1 == [] {
      assert h1 + h2 == h2;
    } else {
      assert (h1 + h2)[1..] == h1[1..] + h2;
      StackAppend(h1[1..], h2, base);
    }
  }

  /** The two operations give equal answers everywhere. */
  ghost predicate Same<A(!new), W(!new), P(!new), R(!new)>(f: Op<A, W, P, R>, g: Op<A, W, P, R>) {
    forall a, w, p :: f(a, w, p) == g(a, w, p)
  }

  lemma {:induction false} DriveCongruent<A(!new), W(!new), P(!new), R(!new)>(
      h: Hook<A, W, R>, a: A, past: seq<R>, left: nat, f: Op<A, W, P, R>, g: Op<A, W, P, R>, w: W, p: P)
    requires Same(f, g)
    ensures Drive(h, a, past, left, f, w, p) == Drive(h, a, past, left, g, w, p)
    decreases left
  {
    if left == 0 || !h.again(a, w, past) {
    } else {
      var (w1, a1) := h.before(a, w, past);
      assert f(a1, w1, p) == g(a1, w1, p);
      var (w2, p2, r) := f(a1, w1, p);
      DriveCongruent(h, a, past + [r], left - 1, f, g, w2, p2);
    }
  }

  lemma {:induction false} StackCongruent<A(!new), W(!new), P(!new), R(!new)>(
      hs: seq<Hook<A, W, R>>, f: Op<A, W, P, R>, g: Op<A, W, P, R>)
    requires Same(f, g)
    ensures Same(Stack(hs, f), Stack(hs, g))
  {
    if hs == [] {
    } else {
      StackCongruent(hs[1..], f, g);
      forall a, w, p ensures Stack(hs, f)(a, w, p) == Stack(hs, g)(a, w, p) {
        DriveCongruent(hs[0], a, [], hs[0].limit(a, w), Stack(hs[1..], f), Stack(hs[1..], g), w, p);
      }
    }
  }

  /** A hook that does nothing but forward (`never` is not reachable: the hook always calls once). */
  function Identity<A, W, R>(never: R): Hook<A, W, R> {
    Hook((a, w) => 1,
         (a, w, past) => past == [],
         (a, w, past) => (w, a),
         (a, w, past) => (w, if past == [] then never else past[|past| - 1]))
  }

  /** A forwarding hook can be put at, or removed from, any place of the stack. */
  lemma IdentityIsUnit<A(!new), W(!new), P(!new), R(!new)>(
      h1: seq<Hook<A, W, R>>, h2: seq<Hook<A, W, R>>, base: Op<A, W, P, R>, never: R)
    ensures Same(Stack(h1 + [Identity(never)] + h2, base), Stack(h1 + h2, base))
  {
    var id := Identity<A, W, R>(never);
    var inner := Stack(h2, base);
    forall a, w, p ensures Stack([id], inner)(a, w, p) == inner(a, w, p) {
      var (w2, p2, r) := inner(a, w, p);
      assert Stack([id][1..], inner) == inner;
      assert Drive(id, a, [], 1, inner, w, p) == Drive(id, a, [] + [r], 0, inner, w2, p2);
    }
    StackAppend(h1 + [id], h2, base);
    StackAppend(h1, [id], inner);
    StackAppend(h1, h2, base);
    StackCongruent(h1, Stack([id], inner), inner);
  }
}
