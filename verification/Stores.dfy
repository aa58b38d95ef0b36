/** A store that meets the assumption made of `sqlgraph`: an auto-increment table with a uniqueness rule. */
module Stores {
  import opened Entity
  import opened Bulk
  import opened BulkPlain

  /** A rule that says whether a row may be added to a table. */
  type Rule = (seq<Stored>, Row) -> bool

  /** The table after the rows, numbered consecutively from its counter. */
  function Append(db: Db, rows: seq<Row>): Db {
    if rows == [] then db
    else
      var d := Append(db, rows[..|rows| - 1]);
      Db(d.rows + [Stored(Some(d.next), rows[|rows| - 1])], d.next + 1)
  }

  /** The IDs they got. */
  function IDs(next: int, k: nat): map<nat, int> {
    if k == 0 then map[] else IDs(next, k - 1)[k - 1 := next + k - 1]
  }

  /** Whether every row is accepted beside what the table holds and the rows before it. */
  predicate Fits(rule: Rule, db: Db, rows: seq<Row>) {
    rows != [] ==>
      && Fits(rule, db, rows[..|rows| - 1])
      && rule(Append(db, rows[..|rows| - 1]).rows, rows[|rows| - 1])
  }

  /** A batch is taken whole, or refused whole. */
  function Insert(rule: Rule, db: Db, rows: seq<Row>): Answer {
    if Fits(rule, db, rows) then Done(Append(db, rows), IDs(db.next, |rows|)) else Refused(true, 0)
  }

  function AutoIncrement(rule: Rule): Store {
    (db, rows) => Insert(rule, db, rows)
  }

  lemma {:induction false} AppendCounts(db: Db, rows: seq<Row>)
    ensures Append(db, rows).next == db.next + |rows|
  {
    if rows != [] {
      AppendCounts(db, rows[..|rows| - 1]);
    }
  }

  lemma InsertOne(rule: Rule, db: Db, row: Row)
    ensures Insert(rule, db, [row]) ==
      if rule(db.rows, row) then Done(Db(db.rows + [Stored(Some(db.next), row)], db.next + 1), map[0 := db.next])
      else Refused(true, 0)
  {
    var rows := [row];
    assert rows[..0] == [] && rows[0] == row;
    assert Append(db, rows[..0]) == db && Fits(rule, db, rows[..0]);
    assert Fits(rule, db, rows) == rule(db.rows, row);
    assert Append(db, rows) == Db(db.rows + [Stored(Some(db.next), row)], db.next + 1);
    assert IDs(db.next, 0) == map[] && IDs(db.next, 1) == map[0 := db.next];
  }

  /** A batch insert into it is the same as inserting row by row. */
  lemma {:induction false} InsertIsRowByRow(rule: Rule, db: Db, rows: seq<Row>)
    ensures Insert(rule, db, rows) == RowByRow(AutoIncrement(rule), db, rows)
  {
    if rows != [] {
      var before := rows[..|rows| - 1];
      InsertIsRowByRow(rule, db, before);
      AppendCounts(db, before);
      InsertOne(rule, Append(db, before), rows[|rows| - 1]);
    }
  }

  /** So the refinement's assumption can be met, for any uniqueness rule. */
  lemma AutoIncrementIsSerial(rule: Rule)
    ensures Serial(AutoIncrement(rule))
  {
    forall db, rows ensures SerialAt(AutoIncrement(rule), db, rows) {
      InsertIsRowByRow(rule, db, rows);
    }
    forall db, row ensures AutoIncrement(rule)(db, [row]).Done? ==> 0 in AutoIncrement(rule)(db, [row]).ids {
      InsertOne(rule, db, row);
    }
  }
}
