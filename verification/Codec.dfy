/** The row codec: what a create sends, as the database returns it, read back by `scanValues` and
    `assignValues`. */
module Codec {
  import opened Entity

  type Bytes = seq<nat>

  /** `encoding/json` on the two JSON columns; decoding starts from the map already held. */
  datatype Json = Json(marshal: JsonMap -> Bytes, unmarshal: (JsonMap, Bytes) -> Option<JsonMap>)

  /** What is assumed of it: a document is never empty, and decoding it into a nil map, or again into
      itself, gives it back. */
  ghost predicate Invertible(j: Json) {
    forall v :: j.marshal(v) != [] && j.unmarshal(NilMap, j.marshal(v)) == Some(v)
                && j.unmarshal(v, j.marshal(v)) == Some(v)
  }

  /** A value as the driver delivers it. */
  datatype DbValue = Null | DInt(i: int64) | DText(s: string) | DTime(t: Time) | DBytes(b: Bytes)

  /** A scan destination: `*[]byte`, `*sql.NullInt64`, `*sql.NullString`, `*sql.NullTime`, `*sql.UnknownType`. */
  datatype Holder =
    | BytesHolder(b: Bytes)
    | NullInt64(valid: bool, i: int64)
    | NullString(valid: bool, s: string)
    | NullTime(valid: bool, t: Time)
    | UnknownType(v: DbValue)

  datatype DecodeError = Mismatch(values: nat, columns: nat) | UnexpectedType(c: Column) | Unmarshal(c: Column)

  /** The receiver of `assignValues`: the node, and the extra values selected with it. */
  datatype Decoded = Decoded(node: Message, extra: map<string, Holder>)

  const BLANK := Decoded(ZERO_MESSAGE, map[])

  // ---------------------------------------------------------------- scanValues

  /** The empty holder for a column. */
  function NewHolder(c: Column): Holder {
    match c
    case CONTENT | METADATA => BytesHolder([])
    case ID | BIZ_ID | CONVERSATION_ID | SEQ | SENDER_TYPE | SENDER_ID | CONTENT_TYPE | REPLY_TO_MSG_ID | STATUS =>
      NullInt64(false, 0)
    case CLIENT_MSG_ID => NullString(false, "")
    case CREATED_AT | UPDATED_AT | SERVER_TIME => NullTime(false, 0)
    case Extra(_) => UnknownType(Null)
  }

  function NewHolders(columns: seq<Column>): seq<Holder> {
    seq(|columns|, i requires 0 <= i < |columns| => NewHolder(columns[i]))
  }

  method ScanValues(columns: seq<Column>) returns (values: array<Holder>)
    ensures fresh(values) && values[..] == NewHolders(columns)
  {
    values := new Holder[|columns|](i => UnknownType(Null));
    for i := 0 to |columns|
      invariant forall k :: 0 <= k < i ==> values[k] == NewHolder(columns[k])
    {
      values[i] := NewHolder(columns[i]);
    }
  }

  /** `rows.Scan` of one value into a holder; None when the driver cannot convert it. */
  function Scan(h: Holder, v: DbValue): Option<Holder> {
    match (h, v)
    case (UnknownType(_), _) => Some(UnknownType(v))
    case (BytesHolder(_), Null) => Some(BytesHolder([]))
    case (BytesHolder(_), DBytes(b)) => Some(BytesHolder(b))
    case (NullInt64(_, _), Null) => Some(NullInt64(false, 0))
    case (NullInt64(_, _), DInt(i)) => Some(NullInt64(true, i))
    case (NullString(_, _), Null) => Some(NullString(false, ""))
    case (NullString(_, _), DText(s)) => Some(NullString(true, s))
    case (NullTime(_, _), Null) => Some(NullTime(false, 0))
    case (NullTime(_, _), DTime(t)) => Some(NullTime(true, t))
    case _ => None
  }

  // ---------------------------------------------------------------- assignValues

  /** Go's `int8(x)`. */
  function Narrow8(x: int64): int8 {
    (((x as int + 0x80) % 0x100) - 0x80) as int8
  }

  /** The contents of one field of the receiver. */
  datatype Slot =
    | TimeSlot(t: Time) | IntSlot(n: int) | Int64Slot(i: int64) | Int8Slot(b: int8)
    | StringSlot(s: Option<string>) | JsonSlot(j: JsonMap) | ExtraSlot(h: Option<Holder>)

  function Get(d: Decoded, c: Column): Slot {
    match c
    case ID => IntSlot(d.node.id)
    case CREATED_AT => TimeSlot(d.node.createdAt)
    case UPDATED_AT => TimeSlot(d.node.updatedAt)
    case BIZ_ID => Int64Slot(d.node.bizID)
    case CONVERSATION_ID => Int64Slot(d.node.conversationID)
    case SEQ => Int64Slot(d.node.seqNo)
    case SENDER_TYPE => Int8Slot(d.node.senderType)
    case SENDER_ID => Int64Slot(d.node.senderID)
    case CLIENT_MSG_ID => StringSlot(d.node.clientMsgID)
    case CONTENT_TYPE => Int8Slot(d.node.contentType)
    case CONTENT => JsonSlot(d.node.content)
    case REPLY_TO_MSG_ID => Int64Slot(d.node.replyToMsgID)
    case STATUS => Int8Slot(d.node.status)
    case SERVER_TIME => TimeSlot(d.node.serverTime)
    case METADATA => JsonSlot(d.node.metadata)
    case Extra(n) => ExtraSlot(if n in d.extra then Some(d.extra[n]) else None)
  }

  /** What the switch arm of column `c` makes of the field's old contents and a holder. */
  function Step(j: Json, c: Column, was: Slot, h: Holder): Stepped {
    match c
    case ID =>
      if h.NullInt64? then Good(IntSlot(h.i as int)) else Bad(UnexpectedType(c))
    case CREATED_AT | UPDATED_AT | SERVER_TIME =>
      if !h.NullTime? then Bad(UnexpectedType(c)) else if h.valid then Good(TimeSlot(h.t)) else Good(was)
    case BIZ_ID | CONVERSATION_ID | SEQ | SENDER_ID | REPLY_TO_MSG_ID =>
      if !h.NullInt64? then Bad(UnexpectedType(c)) else if h.valid then Good(Int64Slot(h.i)) else Good(was)
    case SENDER_TYPE | CONTENT_TYPE | STATUS =>
      if !h.NullInt64? then Bad(UnexpectedType(c)) else if h.valid then Good(Int8Slot(Narrow8(h.i))) else Good(was)
    case CLIENT_MSG_ID =>
      if !h.NullString? then Bad(UnexpectedType(c)) else if h.valid then Good(StringSlot(Some(h.s))) else Good(was)
    case CONTENT | METADATA =>
      if !h.BytesHolder? then Bad(UnexpectedType(c))
      else if h.b == [] then Good(was)
      else if !was.JsonSlot? then Bad(Unmarshal(c))
      else if j.unmarshal(was.j, h.b).None? then Bad(Unmarshal(c))
      else Good(JsonSlot(j.unmarshal(was.j, h.b).value))
    case Extra(_) => Good(ExtraSlot(Some(h)))
  }

  datatype Stepped = Good(slot: Slot) | Bad(err: DecodeError)

  /** The receiver with one field replaced. */
  function Put(d: Decoded, c: Column, s: Slot): Decoded {
    match (c, s)
    case (ID, IntSlot(n)) => d.(node := d.node.(id := n))
    case (CREATED_AT, TimeSlot(t)) => d.(node := d.node.(createdAt := t))
    case (UPDATED_AT, TimeSlot(t)) => d.(node := d.node.(updatedAt := t))
    case (BIZ_ID, Int64Slot(i)) => d.(node := d.node.(bizID := i))
    case (CONVERSATION_ID, Int64Slot(i)) => d.(node := d.node.(conversationID := i))
    case (SEQ, Int64Slot(i)) => d.(node := d.node.(seqNo := i))
    case (SENDER_TYPE, Int8Slot(b)) => d.(node := d.node.(senderType := b))
    case (SENDER_ID, Int64Slot(i)) => d.(node := d.node.(senderID := i))
    case (CLIENT_MSG_ID, StringSlot(s)) => d.(node := d.node.(clientMsgID := s))
    case (CONTENT_TYPE, Int8Slot(b)) => d.(node := d.node.(contentType := b))
    case (CONTENT, JsonSlot(v)) => d.(node := d.node.(content := v))
    case (REPLY_TO_MSG_ID, Int64Slot(i)) => d.(node := d.node.(replyToMsgID := i))
    case (STATUS, Int8Slot(b)) => d.(node := d.node.(status := b))
    case (SERVER_TIME, TimeSlot(t)) => d.(node := d.node.(serverTime := t))
    case (METADATA, JsonSlot(v)) => d.(node := d.node.(metadata := v))
    case (Extra(n), ExtraSlot(Some(h))) => d.(extra := d.extra[n := h])
    case _ => d
  }

  /** The receiver, and the error that stopped the loop, if any, after the first `k` columns. */
  function AssignUpTo(j: Json, d: Decoded, columns: seq<Column>, values: seq<Holder>, k: nat)
    : (Decoded, Option<DecodeError>)
    requires k <= |columns| <= |values|
  {
    if k == 0 then (d, None)
    else
      var (d1, err) := AssignUpTo(j, d, columns, values, k - 1);
      if err.Some? then (d1, err)
      else
        match Step(j, columns[k - 1], Get(d1, columns[k - 1]), values[k - 1])
        case Good(s) => (Put(d1, columns[k - 1], s), None)
        case Bad(e) => (d1, Some(e))
  }

  function Assign(j: Json, d: Decoded, columns: seq<Column>, values: seq<Holder>): (Decoded, Option<DecodeError>) {
    if |values| < |columns| then (d, Some(Mismatch(|values|, |columns|)))
    else AssignUpTo(j, d, columns, values, |columns|)
  }

  /** A Message being read: its fields, and its `selectValues`. */
  class Receiver {
    var m: Message
    var selectValues: map<string, Holder>

    constructor ()
      ensures m == ZERO_MESSAGE && selectValues == map[]
    {
      m := ZERO_MESSAGE;
      selectValues := map[];
    }

    /** One pass of the loop: the switch on the column. */
    method AssignColumn(j: Json, c: Column, value: Holder) returns (err: Option<DecodeError>)
      modifies this
      ensures match Step(j, c, Get(old(Decoded(m, selectValues)), c), value)
              case Good(s) => err.None? && Decoded(m, selectValues) == Put(old(Decoded(m, selectValues)), c, s)
              case Bad(e) => err == Some(e) && Decoded(m, selectValues) == old(Decoded(m, selectValues))
    {
      err := None;
      match c {
        case ID =>
          if !value.NullInt64? { return Some(UnexpectedType(c)); }
          m := m.(id := value.i as int);
        case CREATED_AT =>
          if !value.NullTime? { return Some(UnexpectedType(c)); }
          if value.valid { m := m.(createdAt := value.t); }
        case UPDATED_AT =>
          if !value.NullTime? { return Some(UnexpectedType(c)); }
          if value.valid { m := m.(updatedAt := value.t); }
        case BIZ_ID =>
          if !value.NullInt64? { return Some(UnexpectedType(c)); }
          if value.valid { m := m.(bizID := value.i); }
        case CONVERSATION_ID =>
          if !value.NullInt64? { return Some(UnexpectedType(c)); }
          if value.valid { m := m.(conversationID := value.i); }
        case SEQ =>
          if !value.NullInt64? { return Some(UnexpectedType(c)); }
          if value.valid { m := m.(seqNo := value.i); }
        case SENDER_TYPE =>
          if !value.NullInt64? { return Some(UnexpectedType(c)); }
          if value.valid { m := m.(senderType := Narrow8(value.i)); }
        case SENDER_ID =>
          if !value.NullInt64? { return Some(UnexpectedType(c)); }
          if value.valid { m := m.(senderID := value.i); }
        case CLIENT_MSG_ID =>
          if !value.NullString? { return Some(UnexpectedType(c)); }
          if value.valid { m := m.(clientMsgID := Some(value.s)); }
        case CONTENT_TYPE =>
          if !value.NullInt64? { return Some(UnexpectedType(c)); }
          if value.valid { m := m.(contentType := Narrow8(value.i)); }
        case CONTENT =>
          if !value.BytesHolder? { return Some(UnexpectedType(c)); }
          if value.b != [] {
            var v := j.unmarshal(m.content, value.b);
            if v.None? { return Some(Unmarshal(c)); }
            m := m.(content := v.value);
          }
        case REPLY_TO_MSG_ID =>
          if !value.NullInt64? { return Some(UnexpectedType(c)); }
          if value.valid { m := m.(replyToMsgID := value.i); }
        case STATUS =>
          if !value.NullInt64? { return Some(UnexpectedType(c)); }
          if value.valid { m := m.(status := Narrow8(value.i)); }
        case SERVER_TIME =>
          if !value.NullTime? { return Some(UnexpectedType(c)); }
          if value.valid { m := m.(serverTime := value.t); }
        case METADATA =>
          if !value.BytesHolder? { return Some(UnexpectedType(c)); }
          if value.b != [] {
            var v := j.unmarshal(m.metadata, value.b);
            if v.None? { return Some(Unmarshal(c)); }
            m := m.(metadata := v.value);
          }
        case Extra(n) =>
          selectValues := selectValues[n := value];
      }
    }

    method AssignValues(j: Json, columns: seq<Column>, values: seq<Holder>) returns (err: Option<DecodeError>)
      modifies this
      ensures (Decoded(m, selectValues), err) == Assign(j, old(Decoded(m, selectValues)), columns, values)
    {
      if |values| < |columns| {
        return Some(Mismatch(|values|, |columns|));
      }
      for i := 0 to |columns|
        invariant (Decoded(m, selectValues), None) == AssignUpTo(j, old(Decoded(m, selectValues)), columns, values, i)
      {
        err := AssignColumn(j, columns[i], values[i]);
        if err.Some? {
          AssignStops(j, old(Decoded(m, selectValues)), columns, values, i + 1, |columns|);
          return;
        }
      }
      return None;
    }
  }

  /** Nothing happens after an error. */
  lemma {:induction false} AssignStops(j: Json, d: Decoded, columns: seq<Column>, values: seq<Holder>, k: nat, n: nat)
    requires k <= n <= |columns| <= |values|
    requires AssignUpTo(j, d, columns, values, k).1.Some?
    ensures AssignUpTo(j, d, columns, values, n) == AssignUpTo(j, d, columns, values, k)
    decreases n
  {
    if k < n {
      AssignStops(j, d, columns, values, k, n - 1);
    }
  }
}
