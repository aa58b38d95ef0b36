/** Round trip and order independence of the row codec. */
module CodecLaws {
  import opened Entity
  import opened Codec

  // ---------------------------------------------------------------- fields of the receiver

  /** The slot has the type of the column's field. */
  predicate Fits(c: Column, s: Slot) {
    match c
    case ID => s.IntSlot?
    case CREATED_AT | UPDATED_AT | SERVER_TIME => s.TimeSlot?
    case BIZ_ID | CONVERSATION_ID | SEQ | SENDER_ID | REPLY_TO_MSG_ID => s.Int64Slot?
    case SENDER_TYPE | CONTENT_TYPE | STATUS => s.Int8Slot?
    case CLIENT_MSG_ID => s.StringSlot?
    case CONTENT | METADATA => s.JsonSlot?
    case Extra(_) => s.ExtraSlot?
  }

  lemma PutGet(d: Decoded, c: Column, s: Slot)
    requires Fits(c, s) && (c.Extra? ==> s.h.Some?)
    ensures Get(Put(d, c, s), c) == s
  {
  }

  lemma PutOther(d: Decoded, c: Column, s: Slot, c': Column)
    requires c != c'
    ensures Get(Put(d, c, s), c') == Get(d, c')
  {
  }

  lemma StepFits(j: Json, c: Column, s: Slot, h: Holder)
    requires Fits(c, s)
    ensures var r := Step(j, c, s, h); r.Good? ==> Fits(c, r.slot) && (c.Extra? ==> r.slot.h.Some?)
  {
  }

  lemma SameHead(d: Decoded, e: Decoded)
    requires forall c: Column :: !c.Extra? ==> Get(d, c) == Get(e, c)
    ensures d.node.id == e.node.id && d.node.createdAt == e.node.createdAt && d.node.updatedAt == e.node.updatedAt
    ensures d.node.bizID == e.node.bizID && d.node.conversationID == e.node.conversationID
    ensures d.node.seqNo == e.node.seqNo && d.node.senderType == e.node.senderType
  {
    assert Get(d, ID) == Get(e, ID) && Get(d, CREATED_AT) == Get(e, CREATED_AT);
    assert Get(d, UPDATED_AT) == Get(e, UPDATED_AT) && Get(d, BIZ_ID) == Get(e, BIZ_ID);
    assert Get(d, CONVERSATION_ID) == Get(e, CONVERSATION_ID) && Get(d, SEQ) == Get(e, SEQ);
    assert Get(d, SENDER_TYPE) == Get(e, SENDER_TYPE);
  }

  lemma SameTail(d: Decoded, e: Decoded)
    requires forall c: Column :: !c.Extra? ==> Get(d, c) == Get(e, c)
    ensures d.node.senderID == e.node.senderID && d.node.clientMsgID == e.node.clientMsgID
    ensures d.node.contentType == e.node.contentType && d.node.content == e.node.content
    ensures d.node.replyToMsgID == e.node.replyToMsgID && d.node.status == e.node.status
    ensures d.node.serverTime == e.node.serverTime && d.node.metadata == e.node.metadata
  {
    assert Get(d, SENDER_ID) == Get(e, SENDER_ID) && Get(d, CLIENT_MSG_ID) == Get(e, CLIENT_MSG_ID);
    assert Get(d, CONTENT_TYPE) == Get(e, CONTENT_TYPE) && Get(d, CONTENT) == Get(e, CONTENT);
    assert Get(d, REPLY_TO_MSG_ID) == Get(e, REPLY_TO_MSG_ID) && Get(d, STATUS) == Get(e, STATUS);
    assert Get(d, SERVER_TIME) == Get(e, SERVER_TIME) && Get(d, METADATA) == Get(e, METADATA);
  }

  lemma SameNode(d: Decoded, e: Decoded)
    requires forall c: Column :: !c.Extra? ==> Get(d, c) == Get(e, c)
    ensures d.node == e.node
  {
    SameHead(d, e);
    SameTail(d, e);
  }

  lemma SameExtra(d: Decoded, e: Decoded)
    requires forall n :: Get(d, Extra(n)) == Get(e, Extra(n))
    ensures d.extra == e.extra
  {
    forall n: string ensures (n in d.extra) == (n in e.extra) && (n in d.extra ==> d.extra[n] == e.extra[n]) {
      assert Get(d, Extra(n)) == Get(e, Extra(n));
    }
  }

  /** Two receivers with the same contents in every field are the same. */
  lemma Extensional(d: Decoded, e: Decoded)
    requires forall c :: Get(d, c) == Get(e, c)
    ensures d == e
  {
    SameNode(d, e);
    SameExtra(d, e);
  }

  lemma GetFits(d: Decoded, c: Column)
    ensures Fits(c, Get(d, c))
  {
  }

  // ---------------------------------------------------------------- order independence

  predicate NoDuplicates(columns: seq<Column>) {
    forall a, b :: 0 <= a < b < |columns| ==> columns[a] != columns[b]
  }

  /** Column `columns[i]` can be assigned on its own. */
  predicate Assignable(j: Json, d: Decoded, columns: seq<Column>, values: seq<Holder>, i: nat)
    requires i < |columns| <= |values|
  {
    Step(j, columns[i], Get(d, columns[i]), values[i]).Good?
  }

  /** Without duplicates, the loop over the first `k` columns is k independent assignments: it succeeds
      exactly if each of them can be made, and changes exactly those fields. */
  lemma {:induction false} IndependentSteps(j: Json, d: Decoded, columns: seq<Column>, values: seq<Holder>, k: nat)
    requires k <= |columns| <= |values| && NoDuplicates(columns)
    ensures var (d1, err) := AssignUpTo(j, d, columns, values, k);
      && (err.None? <==> forall i :: 0 <= i < k ==> Assignable(j, d, columns, values, i))
      && (err.None? ==>
           && (forall i :: 0 <= i < k ==>
                Step(j, columns[i], Get(d, columns[i]), values[i]) == Good(Get(d1, columns[i])))
           && (forall c :: c !in columns[..k] ==> Get(d1, c) == Get(d, c)))
  {
    if k > 0 {
      IndependentSteps(j, d, columns, values, k - 1);
      var (d0, err0) := AssignUpTo(j, d, columns, values, k - 1);
      var c := columns[k - 1];
      assert c !in columns[..k - 1];
      if err0.None? {
        assert Get(d0, c) == Get(d, c);
        var r := Step(j, c, Get(d, c), values[k - 1]);
        if r.Good? {
          GetFits(d, c);
          StepFits(j, c, Get(d, c), values[k - 1]);
          PutGet(d0, c, r.slot);
          forall c' | c' != c ensures Get(Put(d0, c, r.slot), c') == Get(d0, c') {
            PutOther(d0, c, r.slot, c');
          }
        } else {
          assert !Assignable(j, d, columns, values, k - 1);
        }
      } else {
        var i :| 0 <= i < k - 1 && !Assignable(j, d, columns, values, i);
      }
    }
  }

  /** The second list is a rearrangement of the first, values included. */
  ghost predicate Rearranged(columns: seq<Column>, values: seq<Holder>, columns': seq<Column>, values': seq<Holder>)
    requires |columns| <= |values| && |columns'| <= |values'|
  {
    && (forall a :: 0 <= a < |columns| ==> Found(columns', values', columns[a], values[a]))
    && (forall b :: 0 <= b < |columns'| ==> Found(columns, values, columns'[b], values'[b]))
  }

  predicate Found(columns: seq<Column>, values: seq<Holder>, c: Column, v: Holder)
    requires |columns| <= |values|
  {
    exists i :: 0 <= i < |columns| && columns[i] == c && values[i] == v
  }

  /** A listed field after a successful read. */
  lemma FieldRead(j: Json, d: Decoded, columns: seq<Column>, values: seq<Holder>, i: nat)
    requires i < |columns| <= |values| && NoDuplicates(columns) && Assign(j, d, columns, values).1.None?
    ensures Step(j, columns[i], Get(d, columns[i]), values[i]) == Good(Get(Assign(j, d, columns, values).0, columns[i]))
  {
    IndependentSteps(j, d, columns, values, |columns|);
  }

  /** A field that is not listed. */
  lemma FieldSkipped(j: Json, d: Decoded, columns: seq<Column>, values: seq<Holder>, c: Column)
    requires |columns| <= |values| && NoDuplicates(columns) && Assign(j, d, columns, values).1.None? && c !in columns
    ensures Get(Assign(j, d, columns, values).0, c) == Get(d, c)
  {
    IndependentSteps(j, d, columns, values, |columns|);
    assert columns[..|columns|] == columns;
  }

  lemma SameFields(j: Json, d: Decoded, columns: seq<Column>, values: seq<Holder>,
                   columns': seq<Column>, values': seq<Holder>, c: Column)
    requires |columns| <= |values| && |columns'| <= |values'|
    requires NoDuplicates(columns) && NoDuplicates(columns') && Rearranged(columns, values, columns', values')
    requires Assign(j, d, columns, values).1.None? && Assign(j, d, columns', values').1.None?
    ensures Get(Assign(j, d, columns, values).0, c) == Get(Assign(j, d, columns', values').0, c)
  {
    if a :| 0 <= a < |columns| && columns[a] == c {
      assert Found(columns', values', columns[a], values[a]);
      var b :| 0 <= b < |columns'| && columns'[b] == columns[a] && values'[b] == values[a];
      FieldRead(j, d, columns, values, a);
      FieldRead(j, d, columns', values', b);
    } else {
      forall b | 0 <= b < |columns'| ensures columns'[b] != c {
        assert Found(columns, values, columns'[b], values'[b]);
      }
      FieldSkipped(j, d, columns, values, c);
      FieldSkipped(j, d, columns', values', c);
    }
  }

  lemma SameSuccess(j: Json, d: Decoded, columns: seq<Column>, values: seq<Holder>,
                    columns': seq<Column>, values': seq<Holder>)
    requires |columns| <= |values| && |columns'| <= |values'|
    requires NoDuplicates(columns) && NoDuplicates(columns') && Rearranged(columns, values, columns', values')
    requires Assign(j, d, columns, values).1.None?
    ensures Assign(j, d, columns', values').1.None?
  {
    IndependentSteps(j, d, columns, values, |columns|);
    IndependentSteps(j, d, columns', values', |columns'|);
    forall b | 0 <= b < |columns'| ensures Assignable(j, d, columns', values', b) {
      assert Found(columns, values, columns'[b], values'[b]);
      var a :| 0 <= a < |columns| && columns[a] == columns'[b] && values[a] == values'[b];
      assert Assignable(j, d, columns, values, a);
    }
  }

  /** MAIN: rearranging a duplicate-free column list together with its values changes neither whether the
      record can be read nor, if it can, the record and the extra values, with unknown columns anywhere. */
  lemma OrderIndependence(j: Json, d: Decoded, columns: seq<Column>, values: seq<Holder>,
                          columns': seq<Column>, values': seq<Holder>)
    requires |columns| <= |values| && |columns'| <= |values'|
    requires NoDuplicates(columns) && NoDuplicates(columns') && Rearranged(columns, values, columns', values')
    ensures Assign(j, d, columns, values).1.None? <==> Assign(j, d, columns', values').1.None?
    ensures Assign(j, d, columns, values).1.None? ==>
      Assign(j, d, columns, values).0 == Assign(j, d, columns', values').0
  {
    if Assign(j, d, columns, values).1.None? {
      SameSuccess(j, d, columns, values, columns', values');
      forall c ensures Get(Assign(j, d, columns, values).0, c) == Get(Assign(j, d, columns', values').0, c) {
        SameFields(j, d, columns, values, columns', values', c);
      }
      Extensional(Assign(j, d, columns, values).0, Assign(j, d, columns', values').0);
    } else if Assign(j, d, columns', values').1.None? {
      SameSuccess(j, d, columns', values', columns, values);
    }
  }

  // ---------------------------------------------------------------- errors

  /** The type that the switch arm of the column asserts. */
  predicate RightHolder(c: Column, h: Holder) {
    match c
    case CREATED_AT | UPDATED_AT | SERVER_TIME => h.NullTime?
    case CLIENT_MSG_ID => h.NullString?
    case CONTENT | METADATA => h.BytesHolder?
    case Extra(_) => true
    case _ => h.NullInt64?
  }

  /** A document that does not decode into what field `c` of `d` holds. */
  predicate Undecodable(j: Json, d: Decoded, c: Column, h: Holder) {
    && c in {CONTENT, METADATA} && h.BytesHolder? && h.b != []
    && j.unmarshal(if c == CONTENT then d.node.content else d.node.metadata, h.b).None?
  }

  /** One arm fails exactly on a holder of another type or on a document that does not decode, and says which. */
  lemma StepErrors(j: Json, d: Decoded, c: Column, h: Holder)
    ensures var r := Step(j, c, Get(d, c), h);
      if !RightHolder(c, h) then r == Bad(UnexpectedType(c))
      else if Undecodable(j, d, c, h) then r == Bad(Unmarshal(c))
      else r.Good?
  {
  }

  /** The loop stopped at column `i`, with what the columns before it left. */
  ghost predicate StopsAt(j: Json, d: Decoded, columns: seq<Column>, values: seq<Holder>, i: int,
                          d1: Decoded, err: DecodeError)
    requires 0 <= i < |columns| <= |values|
  {
    && Assign(j, d, columns[..i], values[..i]) == (d1, None)
    && err == (if !RightHolder(columns[i], values[i]) then UnexpectedType(columns[i]) else Unmarshal(columns[i]))
    && (RightHolder(columns[i], values[i]) ==> Undecodable(j, d1, columns[i], values[i]))
  }

  /** The loop looks at no later column. */
  lemma {:induction false} AssignPrefix(
      j: Json, d: Decoded, columns: seq<Column>, values: seq<Holder>, n: nat, k: nat)
    requires k <= n <= |columns| <= |values|
    ensures AssignUpTo(j, d, columns[..n], values[..n], k) == AssignUpTo(j, d, columns, values, k)
  {
    if k > 0 {
      AssignPrefix(j, d, columns, values, n, k - 1);
    }
  }

  lemma {:induction false} StopsSomewhere(
      j: Json, d: Decoded, columns: seq<Column>, values: seq<Holder>, k: nat) returns (i: nat)
    requires k <= |columns| <= |values|
    ensures var (d1, err) := AssignUpTo(j, d, columns, values, k);
      if err.Some? then i < k && StopsAt(j, d, columns, values, i, d1, err.value)
      else forall x :: 0 <= x < k ==> RightHolder(columns[x], values[x])
  {
    if k > 0 {
      i := StopsSomewhere(j, d, columns, values, k - 1);
      var (d0, err0) := AssignUpTo(j, d, columns, values, k - 1);
      if err0.None? {
        StepErrors(j, d0, columns[k - 1], values[k - 1]);
        AssignPrefix(j, d, columns, values, k - 1, k - 1);
        i := k - 1;
      }
    } else {
      i := 0;
    }
  }

  /** MAIN: too few values are refused before anything is assigned. Otherwise reading fails only at a column whose
      value has another type or does not decode; the error names the first such column, the columns before it
      have been assigned, and none after it. */
  lemma AssignErrors(j: Json, d: Decoded, columns: seq<Column>, values: seq<Holder>)
    ensures |values| < |columns| ==>
      Assign(j, d, columns, values) == (d, Some(Mismatch(|values|, |columns|)))
    ensures |columns| <= |values| ==>
      var (d1, err) := Assign(j, d, columns, values);
      if err.Some? then exists i :: 0 <= i < |columns| && StopsAt(j, d, columns, values, i, d1, err.value)
      else forall i :: 0 <= i < |columns| ==> RightHolder(columns[i], values[i])
  {
    if |columns| <= |values| {
      var i := StopsSomewhere(j, d, columns, values, |columns|);
    }
  }

  /** The holders that scanValues makes, once scanned, have the type that assignValues asserts. */
  lemma ScannedHoldersFit(c: Column, v: DbValue)
    ensures RightHolder(c, NewHolder(c))
    ensures Scan(NewHolder(c), v).Some? ==> RightHolder(c, Scan(NewHolder(c), v).value)
  {
  }

  // ---------------------------------------------------------------- NULL

  /** MAIN: a column that the database returned as NULL leaves its field as it was, but for the ID, which becomes 0
      in any case. */
  lemma NullColumns(j: Json, d: Decoded, columns: seq<Column>, values: seq<Holder>, i: nat)
    requires i < |columns| <= |values| && NoDuplicates(columns) && Assign(j, d, columns, values).1.None?
    requires !columns[i].Extra? && Scan(NewHolder(columns[i]), Null) == Some(values[i])
    ensures var d1 := Assign(j, d, columns, values).0;
      Get(d1, columns[i]) == if columns[i] == ID then IntSlot(0) else Get(d, columns[i])
  {
    FieldRead(j, d, columns, values, i);
  }

  /** An extra column is kept as it came. */
  lemma ExtraColumns(j: Json, d: Decoded, columns: seq<Column>, values: seq<Holder>, i: nat)
    requires i < |columns| <= |values| && NoDuplicates(columns) && Assign(j, d, columns, values).1.None?
    requires columns[i].Extra?
    ensures columns[i].name in Assign(j, d, columns, values).0.extra
    ensures Assign(j, d, columns, values).0.extra[columns[i].name] == values[i]
  {
    FieldRead(j, d, columns, values, i);
  }

  // ---------------------------------------------------------------- round trip

  function Lookup(row: Row, c: Column): Option<GoValue> {
    if row == [] then None
    else if row[|row| - 1].column == c then Some(row[|row| - 1].value)
    else Lookup(row[..|row| - 1], c)
  }

  /** The spec that a create sends says exactly what is set. */
  lemma {:induction false} RowSaysFields(f: Fields, k: nat, c: Column)
    requires k <= |COLUMNS|
    ensures Lookup(RowUpTo(f, k), c) == if Rank(c) < k then FieldOf(f, c) else None
  {
    if k > 0 {
      RowSaysFields(f, k - 1, c);
      ColumnAt(k - 1, c);
      var before, v := RowUpTo(f, k - 1), FieldOf(f, COLUMNS[k - 1]);
      if v.Some? {
        LookupAppend(before, FieldSpec(COLUMNS[k - 1], v.value), c);
      }
    }
  }

  lemma LookupAppend(row: Row, last: FieldSpec, c: Column)
    ensures Lookup(row + [last], c) == if last.column == c then Some(last.value) else Lookup(row, c)
  {
    assert (row + [last])[..|row|] == row;
  }

  lemma ColumnAt(k: nat, c: Column)
    requires k < |COLUMNS|
    ensures COLUMNS[k] == c <==> Rank(c) == k
  {
  }

  /** How the driver stores a value. */
  function Encode(j: Json, v: GoValue): DbValue {
    match v
    case VTime(t) => DTime(t)
    case VInt64(i) => DInt(i)
    case VInt8(b) => DInt(b as int64)
    case VString(s) => DText(s)
    case VJson(m) => DBytes(j.marshal(m))
  }

  /** The database row of a create that got `id`: a column that was not sent is NULL; `extra` is what the
      query computes for columns that are not the table's. */
  function Persisted(j: Json, row: Row, id: int64, extra: string -> DbValue, c: Column): DbValue {
    match c
    case ID => DInt(id)
    case Extra(n) => extra(n)
    case _ => var v := Lookup(row, c); if v.Some? then Encode(j, v.value) else Null
  }

  /** What `rows.Scan` leaves in the holder of column `c`. */
  function Scanned(j: Json, f: Fields, id: int64, extra: string -> DbValue, c: Column): Option<Holder> {
    Scan(NewHolder(c), Persisted(j, RowOf(f), id, extra, c))
  }

  /** What field `c` should hold in the end. */
  function Wanted(f: Fields, id: int64, extra: string -> DbValue, c: Column): Slot {
    match c
    case Extra(n) => ExtraSlot(Some(UnknownType(extra(n))))
    case _ => Get(Decoded(NodeOf(f).(id := id as int), map[]), c)
  }

  lemma PersistedField(j: Json, f: Fields, id: int64, extra: string -> DbValue, c: Column)
    requires c != ID && !c.Extra?
    ensures var v := FieldOf(f, c);
      Persisted(j, RowOf(f), id, extra, c) == if v.Some? then Encode(j, v.value) else Null
  {
    RowSaysFields(f, |COLUMNS|, c);
  }

  /** Reading NULL keeps the field, which is blank on both sides. */
  lemma UnsetRoundTrip(j: Json, f: Fields, c: Column, was: Slot)
    requires c != ID && !c.Extra? && FieldOf(f, c).None? && was == Get(Decoded(NodeOf(f), map[]), c)
    ensures was == Get(BLANK, c)
    ensures Scan(NewHolder(c), Null).Some? && Step(j, c, was, Scan(NewHolder(c), Null).value) == Good(was)
  {
  }

  /** Reading a stored value gives the field that value. */
  lemma SetRoundTrip(j: Json, f: Fields, c: Column, was: Slot)
    requires c != ID && !c.Extra? && FieldOf(f, c).Some? && Invertible(j)
    requires was == Get(BLANK, c) || was == Get(Decoded(NodeOf(f), map[]), c)
    ensures var h := Scan(NewHolder(c), Encode(j, FieldOf(f, c).value));
      h.Some? && Step(j, c, was, h.value) == Good(Get(Decoded(NodeOf(f), map[]), c))
  {
    match c
    case CONTENT =>
      assert j.marshal(f.content.value) != [];
    case METADATA =>
      assert j.marshal(f.metadata.value) != [];
    case _ =>
  }

  /** Scanning a persisted column succeeds, and assigning it gives the field its value, whether the field is
      still blank or holds that value already. */
  lemma ColumnRoundTrip(j: Json, f: Fields, id: int64, extra: string -> DbValue, c: Column, was: Slot)
    requires Invertible(j)
    requires was == Get(BLANK, c) || was == Wanted(f, id, extra, c)
    ensures Scanned(j, f, id, extra, c).Some?
    ensures Step(j, c, was, Scanned(j, f, id, extra, c).value) == Good(Wanted(f, id, extra, c))
  {
    if c != ID && !c.Extra? {
      PersistedField(j, f, id, extra, c);
      assert Wanted(f, id, extra, c) == Get(Decoded(NodeOf(f), map[]), c);
      if FieldOf(f, c).None? {
        UnsetRoundTrip(j, f, c, Wanted(f, id, extra, c));
      } else {
        SetRoundTrip(j, f, c, was);
      }
    }
  }

  /** The holders after scanning the row with the given column list. */
  function ScannedAll(j: Json, f: Fields, id: int64, extra: string -> DbValue, columns: seq<Column>): seq<Holder>
    requires forall c :: Scanned(j, f, id, extra, c).Some?
  {
    seq(|columns|, i requires 0 <= i < |columns| => Scanned(j, f, id, extra, columns[i]).value)
  }

  /** The fields in `seen` hold their values, and the others are blank. */
  ghost predicate Read(f: Fields, id: int64, extra: string -> DbValue, seen: seq<Column>, d: Decoded) {
    forall c :: Get(d, c) == if c in seen then Wanted(f, id, extra, c) else Get(BLANK, c)
  }

  lemma ReadOneMore(f: Fields, id: int64, extra: string -> DbValue, seen: seq<Column>, c: Column, d: Decoded)
    requires Read(f, id, extra, seen, d)
    ensures Read(f, id, extra, seen + [c], Put(d, c, Wanted(f, id, extra, c)))
  {
    var s := Wanted(f, id, extra, c);
    GetFits(Decoded(NodeOf(f).(id := id as int), map[]), c);
    PutGet(d, c, s);
    forall c' | c' != c ensures Get(Put(d, c, s), c') == Get(d, c') {
      PutOther(d, c, s, c');
    }
  }

  lemma {:induction false} ReadsBack(
      j: Json, f: Fields, id: int64, extra: string -> DbValue, columns: seq<Column>, k: nat)
    requires Invertible(j) && k <= |columns|
    requires forall c :: Scanned(j, f, id, extra, c).Some?
    ensures var (d, err) := AssignUpTo(j, BLANK, columns, ScannedAll(j, f, id, extra, columns), k);
      err.None? && Read(f, id, extra, columns[..k], d)
  {
    if k > 0 {
      ReadsBack(j, f, id, extra, columns, k - 1);
      var values, c := ScannedAll(j, f, id, extra, columns), columns[k - 1];
      var (d, _) := AssignUpTo(j, BLANK, columns, values, k - 1);
      ColumnRoundTrip(j, f, id, extra, c, Get(d, c));
      ReadOneMore(f, id, extra, columns[..k - 1], c, d);
      assert columns[..k] == columns[..k - 1] + [c];
    }
  }

  /** MAIN: whatever payload a create sends, reading the row back with any column list (any order, repeated
      and unknown columns included) succeeds, fills exactly the listed fields with what the create returned,
      and leaves the others blank; a list that covers the table gives back the whole node, absent optional
      pointers included. */
  lemma RoundTrip(j: Json, f: Fields, id: int64, extra: string -> DbValue, columns: seq<Column>)
    requires Invertible(j)
    ensures forall c :: Scanned(j, f, id, extra, c).Some?
    ensures var (d, err) := Assign(j, BLANK, columns, ScannedAll(j, f, id, extra, columns));
      && err.None?
      && (forall c :: Get(d, c) == if c in columns then Wanted(f, id, extra, c) else Get(BLANK, c))
      && ((forall c: Column :: !c.Extra? ==> c in columns) ==> d.node == NodeOf(f).(id := id as int))
  {
    forall c ensures Scanned(j, f, id, extra, c).Some? {
      ColumnRoundTrip(j, f, id, extra, c, Get(BLANK, c));
    }
    ReadsBack(j, f, id, extra, columns, |columns|);
    assert columns[..|columns|] == columns;
    var (d, err) := Assign(j, BLANK, columns, ScannedAll(j, f, id, extra, columns));
    if forall c: Column :: !c.Extra? ==> c in columns {
      SameNode(d, Decoded(NodeOf(f).(id := id as int), map[]));
    }
  }

  /** A stored number survives the narrowing of an 8-bit column exactly if it fits in 8 bits. */
  lemma NarrowingIsExact(x: int64)
    ensures Narrow8(x) as int == x as int <==> -0x80 <= x as int < 0x80
    ensures (x as int - Narrow8(x) as int) % 0x100 == 0
  {
  }
}
