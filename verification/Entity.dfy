/** The Message entity: its mutation payload, its checks and defaults, and what a create sends. */
module Entity {

  datatype Option<+T> = None | Some(value: T) {
    function GetOr(default: T): T {
      match this
      case Some(v) => v
      case None => default
    }
  }

  newtype int8 = x: int | -0x80 <= x < 0x80
  newtype int64 = x: int | -0x8000_0000_0000_0000 <= x < 0x8000_0000_0000_0000

  /** An instant; clocks are read by the caller and passed in. */
  type Time = int
  const ZERO_TIME: Time := 0

  /** A `map[string]interface{}`: nil, or a document (its text stands for its contents). */
  datatype JsonMap = NilMap | Doc(text: string)

  /** A column name: one of the table's, or any other. */
  datatype Column =
    | ID | CREATED_AT | UPDATED_AT | BIZ_ID | CONVERSATION_ID | SEQ | SENDER_TYPE | SENDER_ID | CLIENT_MSG_ID
    | CONTENT_TYPE | CONTENT | REPLY_TO_MSG_ID | STATUS | SERVER_TIME | METADATA
    | Extra(name: string)

  /** The table's columns, in order. */
  const COLUMNS := [ID, CREATED_AT, UPDATED_AT, BIZ_ID, CONVERSATION_ID, SEQ, SENDER_TYPE, SENDER_ID,
                    CLIENT_MSG_ID, CONTENT_TYPE, CONTENT, REPLY_TO_MSG_ID, STATUS, SERVER_TIME, METADATA]

  /** The fields set on a mutation so far. */
  datatype Fields = Fields(
    createdAt: Option<Time>, updatedAt: Option<Time>, bizID: Option<int64>, conversationID: Option<int64>,
    seqNo: Option<int64>, senderType: Option<int8>, senderID: Option<int64>, clientMsgID: Option<string>,
    contentType: Option<int8>, content: Option<JsonMap>, replyToMsgID: Option<int64>, status: Option<int8>,
    serverTime: Option<Time>, metadata: Option<JsonMap>)

  const NO_FIELDS := Fields(None, None, None, None, None, None, None, None, None, None, None, None, None, None)

  /** A node. `clientMsgID` is a pointer in the source, hence optional. */
  datatype Message = Message(
    id: int, createdAt: Time, updatedAt: Time, bizID: int64, conversationID: int64, seqNo: int64,
    senderType: int8, senderID: int64, clientMsgID: Option<string>, contentType: int8, content: JsonMap,
    replyToMsgID: int64, status: int8, serverTime: Time, metadata: JsonMap)

  const ZERO_MESSAGE := Message(0, ZERO_TIME, ZERO_TIME, 0, 0, 0, 0, 0, None, 0, NilMap, 0, 0, ZERO_TIME, NilMap)

  datatype GoValue = VTime(t: Time) | VInt64(i: int64) | VInt8(b: int8) | VString(s: string) | VJson(j: JsonMap)

  /** One column of a create spec. */
  datatype FieldSpec = FieldSpec(column: Column, value: GoValue)

  type Row = seq<FieldSpec>

  datatype Error =
    | Validation(column: Column)
    | ValidatorFailed(column: Column)
    | UnexpectedMutationType
    | UnexpectedNodeType
    | UninitializedHook
    | ConstraintError(msg: nat)
    | DbError(msg: nat)
    | NilDereference
    | HookError(code: nat)

  datatype Result<+T> = Success(value: T) | Failure(error: Error)

  // ---------------------------------------------------------------- create: defaults, check, spec

  /** The package-level defaults; the three clocks are readings passed in. */
  datatype Defaults = Defaults(createdAt: Time, updatedAt: Time, senderType: int8, contentType: int8,
                               replyToMsgID: int64, status: int8, serverTime: Time)

  function OrElse<T>(o: Option<T>, default: T): Option<T> {
    if o.None? then Some(default) else o
  }

  function WithDefaults(d: Defaults, f: Fields): Fields {
    f.(createdAt := OrElse(f.createdAt, d.createdAt),
       updatedAt := OrElse(f.updatedAt, d.updatedAt),
       senderType := OrElse(f.senderType, d.senderType),
       contentType := OrElse(f.contentType, d.contentType),
       replyToMsgID := OrElse(f.replyToMsgID, d.replyToMsgID),
       status := OrElse(f.status, d.status),
       serverTime := OrElse(f.serverTime, d.serverTime))
  }

  /** The first failing check, in the source's order. `validator` is the opaque ClientMsgIDValidator. */
  function Check(validator: string -> bool, f: Fields): Option<Error> {
    if f.createdAt.None? then Some(Validation(CREATED_AT))
    else if f.updatedAt.None? then Some(Validation(UPDATED_AT))
    else if f.bizID.None? then Some(Validation(BIZ_ID))
    else if f.conversationID.None? then Some(Validation(CONVERSATION_ID))
    else if f.seqNo.None? then Some(Validation(SEQ))
    else if f.senderType.None? then Some(Validation(SENDER_TYPE))
    else if f.senderID.None? then Some(Validation(SENDER_ID))
    else if f.clientMsgID.Some? && !validator(f.clientMsgID.value) then Some(ValidatorFailed(CLIENT_MSG_ID))
    else if f.contentType.None? then Some(Validation(CONTENT_TYPE))
    else if f.replyToMsgID.None? then Some(Validation(REPLY_TO_MSG_ID))
    else if f.status.None? then Some(Validation(STATUS))
    else if f.serverTime.None? then Some(Validation(SERVER_TIME))
    else None
  }

  /** The node a create returns, before the store gives it an ID. */
  function NodeOf(f: Fields): Message {
    Message(0, f.createdAt.GetOr(ZERO_TIME), f.updatedAt.GetOr(ZERO_TIME), f.bizID.GetOr(0),
            f.conversationID.GetOr(0), f.seqNo.GetOr(0), f.senderType.GetOr(0), f.senderID.GetOr(0),
            f.clientMsgID, f.contentType.GetOr(0), f.content.GetOr(NilMap), f.replyToMsgID.GetOr(0),
            f.status.GetOr(0), f.serverTime.GetOr(ZERO_TIME), f.metadata.GetOr(NilMap))
  }

  function TimeValue(o: Option<Time>): Option<GoValue> { if o.Some? then Some(VTime(o.value)) else None }
  function Int64Value(o: Option<int64>): Option<GoValue> { if o.Some? then Some(VInt64(o.value)) else None }
  function Int8Value(o: Option<int8>): Option<GoValue> { if o.Some? then Some(VInt8(o.value)) else None }
  function StringValue(o: Option<string>): Option<GoValue> { if o.Some? then Some(VString(o.value)) else None }
  function JsonValue(o: Option<JsonMap>): Option<GoValue> { if o.Some? then Some(VJson(o.value)) else None }

  /** The value a payload holds for a column, if it is set. */
  function FieldOf(f: Fields, c: Column): Option<GoValue> {
    match c
    case CREATED_AT => TimeValue(f.createdAt)
    case UPDATED_AT => TimeValue(f.updatedAt)
    case BIZ_ID => Int64Value(f.bizID)
    case CONVERSATION_ID => Int64Value(f.conversationID)
    case SEQ => Int64Value(f.seqNo)
    case SENDER_TYPE => Int8Value(f.senderType)
    case SENDER_ID => Int64Value(f.senderID)
    case CLIENT_MSG_ID => StringValue(f.clientMsgID)
    case CONTENT_TYPE => Int8Value(f.contentType)
    case CONTENT => JsonValue(f.content)
    case REPLY_TO_MSG_ID => Int64Value(f.replyToMsgID)
    case STATUS => Int8Value(f.status)
    case SERVER_TIME => TimeValue(f.serverTime)
    case METADATA => JsonValue(f.metadata)
    case _ => None
  }

  /** The columns a create sends out of the first `k` of the table: one entry per field that is set, in order. */
  function RowUpTo(f: Fields, k: nat): Row
    requires k <= |COLUMNS|
  {
    if k == 0 then []
    else
      var c := COLUMNS[k - 1];
      var before := RowUpTo(f, k - 1);
      var v := FieldOf(f, c);
      if v.Some? then before + [FieldSpec(c, v.value)] else before
  }

  function RowOf(f: Fields): Row {
    RowUpTo(f, |COLUMNS|)
  }

  /** The builder half of the row codec: fills the node and the spec column by column, in three stretches. */
  method CreateSpec(f: Fields) returns (node: Message, spec: Row)
    ensures node == NodeOf(f)
    ensures spec == RowOf(f)
  {
    node, spec := CreateHeading(f);
    node, spec := CreateSender(f, node, spec);
    node, spec := CreateBody(f, node, spec);
  }

  /** created_at to seq. */
  method CreateHeading(f: Fields) returns (node: Message, spec: Row)
    ensures node == ZERO_MESSAGE.(
      createdAt := f.createdAt.GetOr(ZERO_TIME), updatedAt := f.updatedAt.GetOr(ZERO_TIME), bizID := f.bizID.GetOr(0),
      conversationID := f.conversationID.GetOr(0), seqNo := f.seqNo.GetOr(0))
    ensures spec == RowUpTo(f, 6)
  {
    node, spec := ZERO_MESSAGE, [];
    assert spec == RowUpTo(f, 1);
    if f.createdAt.Some? {
      spec := spec + [FieldSpec(CREATED_AT, VTime(f.createdAt.value))];
      node := node.(createdAt := f.createdAt.value);
    }
    assert spec == RowUpTo(f, 2);
    if f.updatedAt.Some? {
      spec := spec + [FieldSpec(UPDATED_AT, VTime(f.updatedAt.value))];
      node := node.(updatedAt := f.updatedAt.value);
    }
    assert spec == RowUpTo(f, 3);
    if f.bizID.Some? {
      spec := spec + [FieldSpec(BIZ_ID, VInt64(f.bizID.value))];
      node := node.(bizID := f.bizID.value);
    }
    assert spec == RowUpTo(f, 4);
    if f.conversationID.Some? {
      spec := spec + [FieldSpec(CONVERSATION_ID, VInt64(f.conversationID.value))];
      node := node.(conversationID := f.conversationID.value);
    }
    assert spec == RowUpTo(f, 5);
    if f.seqNo.Some? {
      spec := spec + [FieldSpec(SEQ, VInt64(f.seqNo.value))];
      node := node.(seqNo := f.seqNo.value);
    }
    assert spec == RowUpTo(f, 6);
  }

  /** sender_type to content_type. */
  method CreateSender(f: Fields, start: Message, sent: Row) returns (node: Message, spec: Row)
    requires sent == RowUpTo(f, 6)
    requires start.senderType == ZERO_MESSAGE.senderType && start.senderID == ZERO_MESSAGE.senderID
    requires start.clientMsgID == ZERO_MESSAGE.clientMsgID && start.contentType == ZERO_MESSAGE.contentType
    ensures node == start.(
      senderType := f.senderType.GetOr(0), senderID := f.senderID.GetOr(0), clientMsgID := f.clientMsgID,
      contentType := f.contentType.GetOr(0))
    ensures spec == RowUpTo(f, 10)
  {
    node, spec := start, sent;
    if f.senderType.Some? {
      spec := spec + [FieldSpec(SENDER_TYPE, VInt8(f.senderType.value))];
      node := node.(senderType := f.senderType.value);
    }
    assert spec == RowUpTo(f, 7);
    if f.senderID.Some? {
      spec := spec + [FieldSpec(SENDER_ID, VInt64(f.senderID.value))];
      node := node.(senderID := f.senderID.value);
    }
    assert spec == RowUpTo(f, 8);
    if f.clientMsgID.Some? {
      spec := spec + [FieldSpec(CLIENT_MSG_ID, VString(f.clientMsgID.value))];
      node := node.(clientMsgID := f.clientMsgID);
    }
    assert spec == RowUpTo(f, 9);
    if f.contentType.Some? {
      spec := spec + [FieldSpec(CONTENT_TYPE, VInt8(f.contentType.value))];
      node := node.(contentType := f.contentType.value);
    }
    assert spec == RowUpTo(f, 10);
  }

  /** content to metadata. */
  method CreateBody(f: Fields, start: Message, sent: Row) returns (node: Message, spec: Row)
    requires sent == RowUpTo(f, 10)
    requires start.content == ZERO_MESSAGE.content && start.replyToMsgID == ZERO_MESSAGE.replyToMsgID
    requires start.status == ZERO_MESSAGE.status && start.serverTime == ZERO_MESSAGE.serverTime
    requires start.metadata == ZERO_MESSAGE.metadata
    ensures node == start.(
      content := f.content.GetOr(NilMap), replyToMsgID := f.replyToMsgID.GetOr(0), status := f.status.GetOr(0),
      serverTime := f.serverTime.GetOr(ZERO_TIME), metadata := f.metadata.GetOr(NilMap))
    ensures spec == RowUpTo(f, 15)
  {
    node, spec := start, sent;
    if f.content.Some? {
      spec := spec + [FieldSpec(CONTENT, VJson(f.content.value))];
      node := node.(content := f.content.value);
    }
    assert spec == RowUpTo(f, 11);
    if f.replyToMsgID.Some? {
      spec := spec + [FieldSpec(REPLY_TO_MSG_ID, VInt64(f.replyToMsgID.value))];
      node := node.(replyToMsgID := f.replyToMsgID.value);
    }
    assert spec == RowUpTo(f, 12);
    if f.status.Some? {
      spec := spec + [FieldSpec(STATUS, VInt8(f.status.value))];
      node := node.(status := f.status.value);
    }
    assert spec == RowUpTo(f, 13);
    if f.serverTime.Some? {
      spec := spec + [FieldSpec(SERVER_TIME, VTime(f.serverTime.value))];
      node := node.(serverTime := f.serverTime.value);
    }
    assert spec == RowUpTo(f, 14);
    if f.metadata.Some? {
      spec := spec + [FieldSpec(METADATA, VJson(f.metadata.value))];
      node := node.(metadata := f.metadata.value);
    }
    assert spec == RowUpTo(f, 15);
  }

  // ---------------------------------------------------------------- what check and createSpec promise

  /** What the schema demands of one column: required ones are set, a client message ID passes its validator. */
  predicate Passes(validator: string -> bool, f: Fields, c: Column) {
    match c
    case ID | CONTENT | METADATA | Extra(_) => true
    case CLIENT_MSG_ID => f.clientMsgID.Some? ==> validator(f.clientMsgID.value)
    case _ => FieldOf(f, c).Some?
  }

  /** A column's place in the table. */
  function Rank(c: Column): nat {
    match c
    case ID => 0 case CREATED_AT => 1 case UPDATED_AT => 2 case BIZ_ID => 3 case CONVERSATION_ID => 4
    case SEQ => 5 case SENDER_TYPE => 6 case SENDER_ID => 7 case CLIENT_MSG_ID => 8 case CONTENT_TYPE => 9
    case CONTENT => 10 case REPLY_TO_MSG_ID => 11 case STATUS => 12 case SERVER_TIME => 13 case METADATA => 14
    case Extra(_) => 15
  }

  /** One column's rule, spelled out. */
  lemma PassesMeans(validator: string -> bool, f: Fields)
    ensures Passes(validator, f, CREATED_AT) == f.createdAt.Some?
    ensures Passes(validator, f, UPDATED_AT) == f.updatedAt.Some?
    ensures Passes(validator, f, BIZ_ID) == f.bizID.Some?
    ensures Passes(validator, f, CONVERSATION_ID) == f.conversationID.Some?
    ensures Passes(validator, f, SEQ) == f.seqNo.Some?
    ensures Passes(validator, f, SENDER_TYPE) == f.senderType.Some?
    ensures Passes(validator, f, SENDER_ID) == f.senderID.Some?
    ensures Passes(validator, f, CLIENT_MSG_ID) == (f.clientMsgID.Some? ==> validator(f.clientMsgID.value))
    ensures Passes(validator, f, CONTENT_TYPE) == f.contentType.Some?
    ensures Passes(validator, f, REPLY_TO_MSG_ID) == f.replyToMsgID.Some?
    ensures Passes(validator, f, STATUS) == f.status.Some?
    ensures Passes(validator, f, SERVER_TIME) == f.serverTime.Some?
  {
  }

  function Blame(c: Column): Error {
    if c == CLIENT_MSG_ID then ValidatorFailed(c) else Validation(c)
  }

  /** The column `check` stumbles on, if any. */
  function Culprit(validator: string -> bool, f: Fields): (bad: Option<Column>)
    ensures Check(validator, f) == if bad.None? then None else Some(Blame(bad.value))
  {
    match Check(validator, f)
    case Some(Validation(c)) => Some(c)
    case Some(_) => Some(CLIENT_MSG_ID)
    case None => None
  }

  lemma CulpritIsFirst(validator: string -> bool, f: Fields, c: Column, d: Column)
    requires Check(validator, f) == Some(Blame(c))
    ensures !Passes(validator, f, c)
    ensures Rank(d) < Rank(c) ==> Passes(validator, f, d)
  {
  }

  lemma AcceptedPassesAll(validator: string -> bool, f: Fields, c: Column)
    requires Check(validator, f).None?
    ensures Passes(validator, f, c)
  {
    PassesMeans(validator, f);
  }

  /** `check` accepts exactly the payloads that pass on every column, and its error names the first
      column, in table order, that does not. */
  lemma CheckNamesFirstFailure(validator: string -> bool, f: Fields)
    ensures Check(validator, f).None? <==> forall c :: Passes(validator, f, c)
    ensures Check(validator, f).Some? ==> exists c ::
      && Check(validator, f) == Some(if c == CLIENT_MSG_ID then ValidatorFailed(CLIENT_MSG_ID) else Validation(c))
      && !Passes(validator, f, c)
      && forall d :: Rank(d) < Rank(c) ==> Passes(validator, f, d)
  {
    var bad := Culprit(validator, f);
    if bad.None? {
      forall c ensures Passes(validator, f, c) { AcceptedPassesAll(validator, f, c); }
    } else {
      forall d ensures Rank(d) < Rank(bad.value) ==> Passes(validator, f, d) {
        CulpritIsFirst(validator, f, bad.value, d);
      }
      CulpritIsFirst(validator, f, bad.value, bad.value);
      assert Check(validator, f) ==
        Some(if bad.value == CLIENT_MSG_ID then ValidatorFailed(CLIENT_MSG_ID) else Validation(bad.value));
    }
  }
}
