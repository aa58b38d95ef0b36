/** The `MessageQuery` object: its methods update it in place, its slices grow in place. */
module QueryBuilder {
  import opened Entity
  import opened Slices
  import opened Query

  /** One builder call. `spare` is the capacity Go leaves when the slice has to grow. */
  datatype Call =
    | Where(ps: seq<Pred>, spare: nat)
    | OrderBy(os: seq<Order>, spare: nat)
    | Limit(n: int)
    | Offset(n: int)
    | Unique(b: bool)
    | Select(fs: seq<Column>, spare: nat)
    | GroupBy(f: Column, fs: seq<Column>)

  /** What a call does to the builder's state. */
  function Apply(q: QueryState, c: Call): QueryState {
    match c
    case Where(ps, _) => q.(predicates := q.predicates + ps)
    case OrderBy(os, _) => q.(order := q.order + os)
    case Limit(n) => q.(limit := Some(n))
    case Offset(n) => q.(offset := Some(n))
    case Unique(b) => q.(unique := Some(b))
    case Select(fs, _) => q.(fields := q.fields + fs)
    case GroupBy(f, fs) => q.(fields := [f] + fs)
  }

  /** Several calls, one after the other. */
  function ApplyAll(q: QueryState, calls: seq<Call>): QueryState
    decreases |calls|
  {
    if calls == [] then q else ApplyAll(Apply(q, calls[0]), calls[1..])
  }

  class MessageQuery {
    var limit: Option<int>
    var offset: Option<int>
    var unique: Option<bool>
    var fields: Slice<Column>
    var order: Slice<Order>
    var predicates: Slice<Pred>

    /** The objects that a call on this builder may write. */
    ghost function Footprint(): set<object>
      reads this
    {
      {this, fields.arr, order.arr, predicates.arr}
    }

    ghost predicate Valid()
      reads this
    {
      && Ok(fields) && Ok(order) && Ok(predicates)
      && order.arr as object != predicates.arr
      && fields.arr as object != order.arr
      && fields.arr as object != predicates.arr
    }

    function State(): QueryState
      requires Valid()
      reads this, Footprint()
    {
      QueryState(limit, offset, unique, Contents(fields), Contents(order), Contents(predicates))
    }

    /** `client.Query()`. */
    constructor ()
      ensures Valid() && fresh(Footprint()) && State() == NEW_QUERY
    {
      limit, offset, unique := None, None, None;
      var f := new Column[0];
      var o := new Order[0];
      var p := new Pred[0];
      fields, order, predicates := Slice(f, 0), Slice(o, 0), Slice(p, 0);
    }

    method AddWhere(ps: seq<Pred>, spare: nat)
      requires Valid()
      modifies Footprint()
      ensures Valid() && fresh(Footprint() - old(Footprint()))
      ensures State() == old(State()).(predicates := old(Contents(predicates)) + ps)
    {
      predicates := Append(predicates, ps, spare);
    }

    method AddOrder(os: seq<Order>, spare: nat)
      requires Valid()
      modifies Footprint()
      ensures Valid() && fresh(Footprint() - old(Footprint()))
      ensures State() == old(State()).(order := old(Contents(order)) + os)
    {
      order := Append(order, os, spare);
    }

    method SetLimit(n: int)
      requires Valid()
      modifies Footprint()
      ensures Valid() && fresh(Footprint() - old(Footprint()))
      ensures State() == old(State()).(limit := Some(n))
    {
      limit := Some(n);
    }

    method SetOffset(n: int)
      requires Valid()
      modifies Footprint()
      ensures Valid() && fresh(Footprint() - old(Footprint()))
      ensures State() == old(State()).(offset := Some(n))
    {
      offset := Some(n);
    }

    method SetUnique(b: bool)
      requires Valid()
      modifies Footprint()
      ensures Valid() && fresh(Footprint() - old(Footprint()))
      ensures State() == old(State()).(unique := Some(b))
    {
      unique := Some(b);
    }

    method AddSelect(fs: seq<Column>, spare: nat)
      requires Valid()
      modifies Footprint()
      ensures Valid() && fresh(Footprint() - old(Footprint()))
      ensures State() == old(State()).(fields := old(Contents(fields)) + fs)
    {
      fields := Append(fields, fs, spare);
    }

    method SetGroupBy(f: Column, fs: seq<Column>)
      requires Valid()
      modifies Footprint()
      ensures Valid() && fresh(Footprint() - old(Footprint()))
      ensures State() == old(State()).(fields := [f] + fs)
    {
      var one := new Column[1](i => f);
      fields := Append(Slice(one, 1), fs, 0);
    }

    /** Any of the calls. */
    method Do(c: Call)
      requires Valid()
      modifies Footprint()
      ensures Valid() && fresh(Footprint() - old(Footprint()))
      ensures State() == Apply(old(State()), c)
    {
      match c {
        case Where(ps, spare) => AddWhere(ps, spare);
        case OrderBy(os, spare) => AddOrder(os, spare);
        case Limit(n) => SetLimit(n);
        case Offset(n) => SetOffset(n);
        case Unique(b) => SetUnique(b);
        case Select(fs, spare) => AddSelect(fs, spare);
        case GroupBy(f, fs) => SetGroupBy(f, fs);
      }
    }

    method DoAll(calls: seq<Call>)
      requires Valid()
      modifies Footprint()
      ensures Valid() && fresh(Footprint() - old(Footprint()))
      ensures State() == ApplyAll(old(State()), calls)
    {
      for i := 0 to |calls|
        invariant Valid() && fresh(Footprint() - old(Footprint()))
        invariant ApplyAll(old(State()), calls) == ApplyAll(State(), calls[i..])
      {
        Do(calls[i]);
      }
    }

    /** `Clone`: the context and the slices are copied. */
    method Clone(spare: nat) returns (q: MessageQuery)
      requires Valid()
      ensures q.Valid() && fresh(q.Footprint())
      ensures q.State() == State()
    {
      q := new MessageQuery();
      var f := Copy(fields, spare);
      var o := Copy(order, spare);
      var p := Copy(predicates, spare);
      q.limit, q.offset, q.unique := limit, offset, unique;
      q.fields, q.order, q.predicates := f, o, p;
    }

    /** `querySpec`. */
    method CompileSpec() returns (s: QuerySpec)
      requires Valid()
      ensures s == SpecOf(State())
    {
      s := QuerySpec(COLUMNS, false, [], [], 0, 0);
      if unique.Some? {
        s := s.(unique := unique.value);
      }
      if fields.len > 0 {
        var columns := [];
        for i := 0 to fields.len
          invariant columns == WithoutID(fields.arr[..i])
        {
          assert fields.arr[..i + 1][..i] == fields.arr[..i];
          if fields.arr[i] != ID {
            columns := columns + [fields.arr[i]];
          }
        }
        s := s.(columns := [ID] + columns);
      }
      s := s.(predicates := Contents(predicates));
      if limit.Some? {
        s := s.(limit := limit.value);
      }
      if offset.Some? {
        s := s.(offset := offset.value);
      }
      s := s.(order := Contents(order));
    }

    /** `sqlQuery`: the predicates and order terms are applied to the selector one by one. */
    method CompileSelector() returns (s: Selector)
      requires Valid()
      ensures s == SelectorOf(State())
    {
      var columns := if fields.len == 0 then COLUMNS else Contents(fields);
      s := Selector(columns, false, [], [], None, None);
      if unique.Some? && unique.value {
        s := s.(distinct := true);
      }
      for i := 0 to predicates.len
        invariant s == Selector(columns, unique == Some(true), predicates.arr[..i], [], None, None)
      {
        s := s.(predicates := s.predicates + [predicates.arr[i]]);
      }
      for i := 0 to order.len
        invariant s == Selector(columns, unique == Some(true), Contents(predicates), order.arr[..i], None, None)
      {
        s := s.(order := s.order + [order.arr[i]]);
      }
      if offset.Some? {
        s := s.(offset := offset, limit := Some(MAX_INT32));
      }
      if limit.Some? {
        s := s.(limit := limit);
      }
    }
  }
}
