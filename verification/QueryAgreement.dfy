/** When the two compilers select the same rows. */
module QueryAgreement {
  import opened Entity
  import opened Codec
  import opened Query

  // ---------------------------------------------------------------- IDs stay distinct

  lemma {:induction false} FilterSubset(ps: seq<Pred>, rows: seq<Message>, m: Message)
    ensures m in Filter(ps, rows) ==> m in rows
  {
    if rows != [] {
      FilterSubset(ps, rows[..|rows| - 1], m);
    }
  }

  lemma {:induction false} FilterDistinct(ps: seq<Pred>, rows: seq<Message>)
    requires DistinctIDs(rows)
    ensures DistinctIDs(Filter(ps, rows))
  {
    if rows != [] {
      var before := rows[..|rows| - 1];
      FilterDistinct(ps, before);
      forall a | 0 <= a < |Filter(ps, before)| ensures Filter(ps, before)[a].id != rows[|rows| - 1].id {
        FilterSubset(ps, before, Filter(ps, before)[a]);
      }
    }
  }

  /** An element that occurs at two places occurs twice. */
  lemma Twice(rows: seq<Message>, a: nat, b: nat)
    requires a < b < |rows| && rows[a] == rows[b]
    ensures multiset(rows)[rows[a]] >= 2
  {
    assert rows == rows[..b] + [rows[b]] + rows[b + 1..];
    assert rows[a] in rows[..b];
  }

  lemma {:induction false} Once(rows: seq<Message>, m: Message)
    requires DistinctIDs(rows)
    ensures multiset(rows)[m] <= 1
  {
    if rows != [] {
      var last := rows[|rows| - 1];
      assert rows == rows[..|rows| - 1] + [last];
      Once(rows[..|rows| - 1], m);
      assert m == last ==> m !in rows[..|rows| - 1];
    }
  }

  lemma RearrangedDistinct(rows: seq<Message>, sorted: seq<Message>)
    requires DistinctIDs(rows) && multiset(sorted) == multiset(rows)
    ensures DistinctIDs(sorted)
  {
    forall a, b | 0 <= a < b < |sorted| ensures sorted[a].id != sorted[b].id {
      if sorted[a] == sorted[b] {
        Twice(sorted, a, b);
        Once(rows, sorted[a]);
      } else {
        assert sorted[a] in multiset(rows) && sorted[b] in multiset(rows);
        var i :| 0 <= i < |rows| && rows[i] == sorted[a];
        var k :| 0 <= k < |rows| && rows[k] == sorted[b];
      }
    }
  }

  lemma MatchingDistinct(db: Database, ps: seq<Pred>, order: seq<Order>)
    requires Sound(db)
    ensures DistinctIDs(Matching(db, ps, order))
  {
    FilterDistinct(ps, db.table);
    RearrangedDistinct(Filter(ps, db.table), Matching(db, ps, order));
  }

  // ---------------------------------------------------------------- distinctness

  lemma ProjectSeparates(m: Message, n: Message, columns: seq<Column>)
    requires ID in columns && m.id != n.id
    ensures Project(m, columns) != Project(n, columns)
  {
    var i :| 0 <= i < |columns| && columns[i] == ID;
    assert Project(m, columns)[i] == IntSlot(m.id) && Project(n, columns)[i] == IntSlot(n.id);
  }

  /** With the ID among the columns, DISTINCT removes nothing. */
  lemma {:induction false} DedupKeepsAll(columns: seq<Column>, rows: seq<Message>)
    requires ID in columns && DistinctIDs(rows)
    ensures Dedup(columns, rows) == rows
  {
    if rows != [] {
      var before, last := rows[..|rows| - 1], rows[|rows| - 1];
      DedupKeepsAll(columns, before);
      forall i | 0 <= i < |before| ensures Project(before[i], columns) != Project(last, columns) {
        ProjectSeparates(before[i], last, columns);
      }
      assert rows == before + [last];
    }
  }

  /** No two of the rows agree in the columns. */
  ghost predicate AllDiffer(columns: seq<Column>, rows: seq<Message>) {
    forall a, b :: 0 <= a < b < |rows| ==> Project(rows[a], columns) != Project(rows[b], columns)
  }

  lemma {:induction false} DedupLength(columns: seq<Column>, rows: seq<Message>)
    ensures |Dedup(columns, rows)| <= |rows|
  {
    if rows != [] {
      DedupLength(columns, rows[..|rows| - 1]);
    }
  }

  lemma DifferExtends(columns: seq<Column>, before: seq<Message>, last: Message)
    ensures AllDiffer(columns, before + [last]) <==> AllDiffer(columns, before) && !SomeLike(before, last, columns)
  {
    var rows := before + [last];
    if AllDiffer(columns, rows) {
      forall a, b | 0 <= a < b < |before| ensures Project(before[a], columns) != Project(before[b], columns) {
        assert rows[a] == before[a] && rows[b] == before[b];
      }
      forall i | 0 <= i < |before| ensures Project(before[i], columns) != Project(last, columns) {
        assert rows[i] == before[i] && rows[|before|] == last;
      }
    }
  }

  /** DISTINCT removes nothing exactly when no two rows agree in the columns. */
  lemma {:induction false} DedupIsIdentity(columns: seq<Column>, rows: seq<Message>)
    ensures Dedup(columns, rows) == rows <==> AllDiffer(columns, rows)
  {
    if rows != [] {
      var before, last := rows[..|rows| - 1], rows[|rows| - 1];
      var rest := Dedup(columns, before);
      assert rows == before + [last];
      DedupIsIdentity(columns, before);
      DedupLength(columns, before);
      DifferExtends(columns, before, last);
      if Dedup(columns, rows) == rows {
        assert rest == (rest + [last])[..|before|] == before;
      }
    }
  }

  lemma {:induction false} WithoutIDMeans(fields: seq<Column>, c: Column)
    ensures c in WithoutID(fields) <==> c in fields && c != ID
  {
    if fields != [] {
      assert fields == fields[..|fields| - 1] + [fields[|fields| - 1]];
      WithoutIDMeans(fields[..|fields| - 1], c);
    }
  }

  // ---------------------------------------------------------------- agreement

  /** DISTINCT cannot collapse rows: it is off, or the ID is selected. */
  predicate KeyKept(q: QueryState) {
    q.unique != Some(true) || q.fields == [] || ID in q.fields
  }

  /** The rows the builder matches, before any window. */
  function Rows(db: Database, q: QueryState): seq<Message> {
    Matching(db, q.predicates, q.order)
  }

  lemma SpecRowsAre(db: Database, q: QueryState)
    requires Sound(db)
    ensures SpecRows(db, SpecOf(q)) ==
      Window(Rows(db, q), q.offset.GetOr(0), if q.limit.GetOr(0) == 0 then None else q.limit)
  {
    MatchingDistinct(db, q.predicates, q.order);
    assert COLUMNS[0] == ID;
    assert ([ID] + WithoutID(q.fields))[0] == ID;
    DedupKeepsAll(SpecOf(q).columns, Rows(db, q));
  }

  lemma SelectorRowsAre(db: Database, q: QueryState)
    requires Sound(db) && KeyKept(q)
    ensures SelectorRows(db, SelectorOf(q)) == Window(Rows(db, q), q.offset.GetOr(0), SelectorOf(q).limit)
  {
    if q.unique == Some(true) {
      MatchingDistinct(db, q.predicates, q.order);
      assert COLUMNS[0] == ID;
      DedupKeepsAll(SelectorOf(q).columns, Rows(db, q));
    }
  }

  /** What is left after the offset is small enough for the default limit; and a limit of 0, which the spec
      cannot tell from none, takes nothing away. */
  predicate WindowsAgree(q: QueryState, rows: seq<Message>) {
    var left := Drop(rows, q.offset.GetOr(0));
    match q.limit
    case None => q.offset.None? || |left| <= 0x7fff_ffff
    case Some(0) => left == []
    case Some(_) => true
  }

  /** MAIN: as long as DISTINCT cannot collapse rows, the two compilers select the same rows, in the same
      order, if and only if the windows agree: always with a limit other than 0 or with neither limit nor
      offset; with an offset alone, exactly when at most 2^31-1 rows remain after it. */
  lemma CompilersAgree(db: Database, q: QueryState)
    requires Sound(db) && KeyKept(q)
    ensures SpecRows(db, SpecOf(q)) == SelectorRows(db, SelectorOf(q)) <==> WindowsAgree(q, Rows(db, q))
  {
    SpecRowsAre(db, q);
    SelectorRowsAre(db, q);
  }

  // ---------------------------------------------------------------- with DISTINCT

  /** The duplicates of later rows do not matter to earlier ones. */
  lemma {:induction false} DedupPrefix(columns: seq<Column>, rows: seq<Message>, p: nat)
    requires p <= |rows|
    ensures |Dedup(columns, rows[..p])| <= |Dedup(columns, rows)|
    ensures Dedup(columns, rows)[..|Dedup(columns, rows[..p])|] == Dedup(columns, rows[..p])
    decreases |rows|
  {
    if p == |rows| {
      assert rows[..p] == rows;
    } else {
      var before := rows[..|rows| - 1];
      DedupPrefix(columns, before, p);
      assert before[..p] == rows[..p];
    }
  }

  /** What DISTINCT keeps beyond those of the first `p` rows comes from later rows. */
  lemma {:induction false} DedupLater(columns: seq<Column>, rows: seq<Message>, p: nat, k: nat)
    requires p <= |rows| && |Dedup(columns, rows[..p])| <= k < |Dedup(columns, rows)|
    ensures Dedup(columns, rows)[k] in rows[p..]
    decreases |rows|
  {
    assert rows[..|rows|] == rows;
    if p < |rows| {
      var before, last := rows[..|rows| - 1], rows[|rows| - 1];
      assert before[..p] == rows[..p] && rows[p..] == before[p..] + [last];
      if k < |Dedup(columns, before)| {
        DedupLater(columns, before, p, k);
      }
    }
  }

  lemma {:induction false} DedupShrinks(columns: seq<Column>, rows: seq<Message>)
    requires !AllDiffer(columns, rows)
    ensures |Dedup(columns, rows)| < |rows|
  {
    DedupLength(columns, rows);
    DedupIsIdentity(columns, rows);
    if |Dedup(columns, rows)| == |rows| {
      DedupWhole(columns, rows);
    }
  }

  lemma {:induction false} DedupWhole(columns: seq<Column>, rows: seq<Message>)
    requires |Dedup(columns, rows)| == |rows|
    ensures Dedup(columns, rows) == rows
  {
    if rows != [] {
      var before, last := rows[..|rows| - 1], rows[|rows| - 1];
      var rest := Dedup(columns, before);
      DedupLength(columns, before);
      assert Dedup(columns, rows) == rest + [last];
      DedupWhole(columns, before);
      assert rows == before + [last];
    }
  }

  /** A collapse among the first `p` rows shows at place `p - 1`. */
  lemma CollapseShows(columns: seq<Column>, rows: seq<Message>, p: nat)
    requires DistinctIDs(rows) && 0 < p <= |rows| && !AllDiffer(columns, rows[..p])
    requires p <= |Dedup(columns, rows)|
    ensures Dedup(columns, rows)[p - 1] != rows[p - 1]
  {
    DedupShrinks(columns, rows[..p]);
    DedupLater(columns, rows, p, p - 1);
    var i :| 0 <= i < |rows[p..]| && rows[p..][i] == Dedup(columns, rows)[p - 1];
    assert rows[p + i].id != rows[p - 1].id;
  }

  /** Without a collapse among the first `p` rows, those stay in place. */
  lemma NoCollapse(columns: seq<Column>, rows: seq<Message>, p: nat)
    requires p <= |rows| && AllDiffer(columns, rows[..p])
    ensures p <= |Dedup(columns, rows)| && Dedup(columns, rows)[..p] == rows[..p]
  {
    DedupPrefix(columns, rows, p);
    DedupIsIdentity(columns, rows[..p]);
  }

  /** The rows skipped. */
  function Skipped(q: QueryState): nat {
    if q.offset.GetOr(0) > 0 then q.offset.value else 0
  }

  /** How many of the matching rows the window reaches over, skipped ones included. */
  function Reach(q: QueryState, rows: seq<Message>): (p: nat)
    ensures p <= |rows|
  {
    match q.limit
    case Some(l) => if l > 0 && Skipped(q) + l < |rows| then Skipped(q) + l else |rows|
    case None => |rows|
  }

  /** The rows of a spec; a limit of 0 is none. */
  function Shown(q: QueryState, rows: seq<Message>): seq<Message> {
    Window(rows, q.offset.GetOr(0), if q.limit.GetOr(0) == 0 then None else q.limit)
  }

  lemma DistinctRowsAre(db: Database, q: QueryState)
    requires Sound(db) && !KeyKept(q)
    ensures SpecRows(db, SpecOf(q)) == Shown(q, Rows(db, q))
    ensures SelectorRows(db, SelectorOf(q)) ==
      Window(Dedup(q.fields, Rows(db, q)), q.offset.GetOr(0), SelectorOf(q).limit)
  {
    SpecRowsAre(db, q);
  }

  /** A window that ends before the rows do. */
  lemma WithinReach(q: QueryState, rows: seq<Message>, p: nat)
    requires q.limit.Some? && q.limit.value > 0 && p == Skipped(q) + q.limit.value <= |rows|
    ensures Window(rows, q.offset.GetOr(0), q.limit) == rows[..p][Skipped(q)..]
  {
  }

  /** When the windows agree and nothing collapses in their reach, DISTINCT changes nothing. */
  lemma DistinctKeeps(db: Database, q: QueryState)
    requires Sound(db) && !KeyKept(q) && WindowsAgree(q, Rows(db, q))
    requires Shown(q, Rows(db, q)) == [] || AllDiffer(q.fields, Rows(db, q)[..Reach(q, Rows(db, q))])
    ensures SpecRows(db, SpecOf(q)) == SelectorRows(db, SelectorOf(q))
  {
    var rows, d, p := Rows(db, q), Dedup(q.fields, Rows(db, q)), Reach(q, Rows(db, q));
    DistinctRowsAre(db, q);
    DedupLength(q.fields, rows);
    if Shown(q, rows) != [] {
      NoCollapse(q.fields, rows, p);
      if p == |rows| {
        assert d == d[..p] && rows == rows[..p];
      } else {
        WithinReach(q, rows, p);
        WithinReach(q, d, p);
      }
    }
  }

  /** The last row shown is the last one within reach. */
  lemma LastShown(q: QueryState, rows: seq<Message>)
    requires WindowsAgree(q, rows) && Shown(q, rows) != []
    ensures var p := Reach(q, rows);
      && Skipped(q) < p
      && |Shown(q, rows)| == p - Skipped(q)
      && Shown(q, rows)[p - 1 - Skipped(q)] == rows[p - 1]
  {
  }

  /** The same place after DISTINCT, if something is left there. */
  lemma LastOfDistinct(q: QueryState, others: seq<Message>, p: nat)
    requires Skipped(q) < p && p - Skipped(q) == |Window(others, q.offset.GetOr(0), SelectorOf(q).limit)|
    ensures p <= |others| && Window(others, q.offset.GetOr(0), SelectorOf(q).limit)[p - 1 - Skipped(q)] == others[p - 1]
  {
  }

  /** Otherwise it changes what is shown. */
  lemma WindowChanges(q: QueryState, rows: seq<Message>)
    requires DistinctIDs(rows) && WindowsAgree(q, rows)
    requires Shown(q, rows) != [] && !AllDiffer(q.fields, rows[..Reach(q, rows)])
    ensures Shown(q, rows) != Window(Dedup(q.fields, rows), q.offset.GetOr(0), SelectorOf(q).limit)
  {
    var d, p := Dedup(q.fields, rows), Reach(q, rows);
    LastShown(q, rows);
    if Shown(q, rows) == Window(d, q.offset.GetOr(0), SelectorOf(q).limit) {
      LastOfDistinct(q, d, p);
      CollapseShows(q.fields, rows, p);
    }
  }

  lemma DistinctChanges(db: Database, q: QueryState)
    requires Sound(db) && !KeyKept(q) && WindowsAgree(q, Rows(db, q))
    requires Shown(q, Rows(db, q)) != [] && !AllDiffer(q.fields, Rows(db, q)[..Reach(q, Rows(db, q))])
    ensures SpecRows(db, SpecOf(q)) != SelectorRows(db, SelectorOf(q))
  {
    DistinctRowsAre(db, q);
    MatchingDistinct(db, q.predicates, q.order);
    WindowChanges(q, Rows(db, q));
  }

  /** With windows that disagree the compilers do. */
  lemma WindowsDisagree(db: Database, q: QueryState)
    requires Sound(db) && !KeyKept(q) && !WindowsAgree(q, Rows(db, q))
    ensures SpecRows(db, SpecOf(q)) != SelectorRows(db, SelectorOf(q))
  {
    DistinctRowsAre(db, q);
  }

  /** MAIN: for every builder, the two compilers select the same rows, in the same order, if and only if the windows
      agree and, when DISTINCT is on without the ID, no two of the matching rows within the window's reach agree
      in the selected fields (or nothing is shown at all). */
  lemma CompilersAgreeExactly(db: Database, q: QueryState)
    requires Sound(db)
    ensures SpecRows(db, SpecOf(q)) == SelectorRows(db, SelectorOf(q)) <==>
      && WindowsAgree(q, Rows(db, q))
      && (KeyKept(q) || Shown(q, Rows(db, q)) == [] || AllDiffer(q.fields, Rows(db, q)[..Reach(q, Rows(db, q))]))
  {
    if KeyKept(q) {
      CompilersAgree(db, q);
    } else if !WindowsAgree(q, Rows(db, q)) {
      WindowsDisagree(db, q);
    } else if Shown(q, Rows(db, q)) == [] || AllDiffer(q.fields, Rows(db, q)[..Reach(q, Rows(db, q))]) {
      DistinctKeeps(db, q);
    } else {
      DistinctChanges(db, q);
    }
  }

  /** `Limit(0)` compiles to the spec of no limit at all, but to a selector that selects nothing. */
  lemma LimitZeroIsNone(db: Database, q: QueryState)
    ensures SpecOf(q.(limit := Some(0))) == SpecOf(q.(limit := None))
    ensures SelectorRows(db, SelectorOf(q.(limit := Some(0)))) == []
  {
  }

  // ---------------------------------------------------------------- examples

  /** A table with two messages that differ in their IDs only. */
  function Twins(): Database {
    Database([ZERO_MESSAGE.(id := 1), ZERO_MESSAGE.(id := 2)], (order, rows) => rows)
  }

  lemma TwinsMatch(q: QueryState)
    requires q.predicates == []
    ensures Sound(Twins()) && Rows(Twins(), q) == Twins().table
  {
    var table := Twins().table;
    assert table[..2] == table && table[..1] == [table[0]] && table[..1][..0] == [];
    assert Filter([], []) == [] && Filter([], table[..1]) == table[..1];
    assert Filter([], table) == Filter([], table[..1]) + [table[1]];
  }

  /** Selecting the distinct states of the two gives two rows by the spec and one by the selector. */
  lemma DistinctDisagrees(q: QueryState)
    requires q == NEW_QUERY.(unique := Some(true), fields := [STATUS])
    ensures SpecRows(Twins(), SpecOf(q)) == Twins().table
    ensures SelectorRows(Twins(), SelectorOf(q)) == Twins().table[..1]
  {
    var table := Twins().table;
    TwinsMatch(q);
    DistinctRowsAre(Twins(), q);
    assert Dedup(q.fields, []) == [] && table[..1][..0] == [];
    assert Dedup(q.fields, table[..1]) == table[..1];
    assert table[..|table| - 1] == table[..1];
    assert Project(table[1], q.fields) == Project(table[0], q.fields);
    assert SomeLike(table[..1], table[1], q.fields);
  }

  /** `Limit(0)` gives both rows by the spec and none by the selector. */
  lemma LimitZeroDisagrees(q: QueryState)
    requires q == NEW_QUERY.(limit := Some(0))
    ensures SpecRows(Twins(), SpecOf(q)) == Twins().table && SelectorRows(Twins(), SelectorOf(q)) == []
  {
    TwinsMatch(q);
    SpecRowsAre(Twins(), q);
  }

  /** But for the default limit the two carry the same. */
  lemma CompiledAlike(q: QueryState)
    ensures SpecOf(q).unique == SelectorOf(q).distinct
    ensures SpecOf(q).predicates == SelectorOf(q).predicates && SpecOf(q).order == SelectorOf(q).order
    ensures SpecOf(q).offset == SelectorOf(q).offset.GetOr(0)
    ensures q.limit.Some? ==> Some(SpecOf(q).limit) == SelectorOf(q).limit
  {
  }

  /** The fields other than the ID, in order. */
  function Others(fields: seq<Column>): seq<Column> {
    if fields == [] then [] else (if fields[0] == ID then [] else [fields[0]]) + Others(fields[1..])
  }

  lemma {:induction false} OthersAppend(fields: seq<Column>, more: seq<Column>)
    ensures Others(fields + more) == Others(fields) + Others(more)
  {
    if fields == [] {
      assert fields + more == more;
    } else {
      assert (fields + more)[1..] == fields[1..] + more;
      OthersAppend(fields[1..], more);
    }
  }

  /** The spec fetches the ID first and once, then the other selected fields in the order they were selected. */
  lemma {:induction false} SpecColumnsInOrder(fields: seq<Column>)
    ensures WithoutID(fields) == Others(fields)
    ensures fields != [] ==> SpecOf(NEW_QUERY.(fields := fields)).columns == [ID] + Others(fields)
  {
    if fields != [] {
      var before, last := fields[..|fields| - 1], fields[|fields| - 1];
      SpecColumnsInOrder(before);
      assert fields == before + [last];
      OthersAppend(before, [last]);
      assert [last][1..] == [] && Others([last]) == if last == ID then [] else [last];
    }
  }

  /** The spec's columns are the ID and the selected ones, whichever way they were listed. */
  lemma SpecColumns(q: QueryState, c: Column)
    ensures c in SpecOf(q).columns <==> c == ID || c in SelectorOf(q).columns
  {
    WithoutIDMeans(q.fields, c);
    if q.fields == [] {
      assert COLUMNS[0] == ID;
    }
  }
}
