/** The bulk chain, the checks and the codec together, for messages. */
module MessageSaves {
  import opened Entity
  import opened Onion
  import opened Bulk
  import opened BulkInvariants
  import BulkInduction
  import BulkFlags
  import BulkNodes
  import BulkOutcome
  import BulkPlain
  import Codec
  import CodecLaws

  /** The environment of a bulk save of messages; `clock` gives the defaults read for each builder. */
  function MessageEnv(builders: seq<nat>, hooks: nat -> seq<Hook<Arg, World, Outcome>>,
                      clock: nat -> Defaults, validator: string -> bool, store: Store): Env {
    Env(builders, hooks, (i: nat, f) => WithDefaults(clock(i), f), f => Check(validator, f), NodeOf, RowOf, store)
  }

  /** Defaults never replace a value that is set. */
  lemma DefaultsKeepSetFields(d: Defaults, f: Fields, c: Column)
    ensures FieldOf(f, c).Some? ==> FieldOf(WithDefaults(d, f), c) == FieldOf(f, c)
    ensures FieldOf(f, c).None? && FieldOf(WithDefaults(d, f), c).Some? ==>
      c in {CREATED_AT, UPDATED_AT, SENDER_TYPE, CONTENT_TYPE, REPLY_TO_MSG_ID, STATUS, SERVER_TIME}
  {
  }

  /** Every column with a default takes it when it is not set. */
  lemma DefaultsAreTaken(d: Defaults, f: Fields)
    ensures FieldOf(f, CREATED_AT).None? ==> FieldOf(WithDefaults(d, f), CREATED_AT) == Some(VTime(d.createdAt))
    ensures FieldOf(f, UPDATED_AT).None? ==> FieldOf(WithDefaults(d, f), UPDATED_AT) == Some(VTime(d.updatedAt))
    ensures FieldOf(f, SENDER_TYPE).None? ==> FieldOf(WithDefaults(d, f), SENDER_TYPE) == Some(VInt8(d.senderType))
    ensures FieldOf(f, CONTENT_TYPE).None? ==> FieldOf(WithDefaults(d, f), CONTENT_TYPE) == Some(VInt8(d.contentType))
    ensures FieldOf(f, REPLY_TO_MSG_ID).None? ==>
      FieldOf(WithDefaults(d, f), REPLY_TO_MSG_ID) == Some(VInt64(d.replyToMsgID))
    ensures FieldOf(f, STATUS).None? ==> FieldOf(WithDefaults(d, f), STATUS) == Some(VInt8(d.status))
    ensures FieldOf(f, SERVER_TIME).None? ==> FieldOf(WithDefaults(d, f), SERVER_TIME) == Some(VTime(d.serverTime))
  {
  }

  /** What should be sent for a column: what is set, else the default, else nothing. */
  function Expected(d: Defaults, f: Fields, c: Column): Option<GoValue> {
    if FieldOf(f, c).Some? then FieldOf(f, c)
    else
      match c
      case CREATED_AT => Some(VTime(d.createdAt))
      case UPDATED_AT => Some(VTime(d.updatedAt))
      case SENDER_TYPE => Some(VInt8(d.senderType))
      case CONTENT_TYPE => Some(VInt8(d.contentType))
      case REPLY_TO_MSG_ID => Some(VInt64(d.replyToMsgID))
      case STATUS => Some(VInt8(d.status))
      case SERVER_TIME => Some(VTime(d.serverTime))
      case _ => None
  }

  lemma DefaultsAreExpected(d: Defaults, f: Fields, c: Column)
    ensures FieldOf(WithDefaults(d, f), c) == Expected(d, f, c)
  {
    DefaultsAreTaken(d, f);
    DefaultsKeepSetFields(d, f, c);
  }

  /** A payload whose mutation no other builder has gets exactly its own builder's defaults. */
  lemma OwnDefaults(s: BulkPlain.Plain, i: nat)
    requires s.Distinct() && i < s.N()
    ensures s.F(i) == s.e.defaults(i, MutAt(s.w, s.M(i)).fields)
  {
    BulkPlain.DefaultsFinish(s, i);
    BulkPlain.DefaultedLook(s, i, s.M(i));
    assert BulkPlain.LastOwner(s, i, s.M(i)).None?;
  }

  /** MAIN: the rows that a bulk save of messages puts into the batch hold, column by column, what the caller had set
      and otherwise the default read for that builder; for call-once hooks that leave payloads and flags alone
      and turn statuses in a fixed way, and every builder up to the first invalid one. */
  lemma SentRowsHaveDefaults(builders: seq<nat>, hooks: nat -> seq<Hook<Arg, World, Outcome>>, clock: nat -> Defaults,
                             validator: string -> bool, store: Store, fate: BulkFlags.Fate,
                             root: Ctx, cur: map<nat, nat>, w: World, i: nat, c: Column)
    requires var s := BulkOutcome.StartOf(MessageEnv(builders, hooks, clock, validator, store), cur, w);
      BulkFlags.Tame(s, fate) && BulkOutcome.KeepPayloads(s) && i < s.Bad()
    ensures var e := MessageEnv(builders, hooks, clock, validator, store);
      var c1, m := Save(e, root, cur, w).1, Cur(e, InitialChain(e, cur), i);
      && i < |c1.heap|
      && CodecLaws.Lookup(c1.heap[i].row, c) == Expected(clock(i), MutAt(w, m).fields, c)
  {
    var e := MessageEnv(builders, hooks, clock, validator, store);
    var s, plain := BulkOutcome.StartOf(e, cur, w), BulkPlain.Plain(e, root, cur, w);
    BulkFlags.SaveOutcome(e, fate, root, cur, w);
    var (w1, c1, r) := Save(e, root, cur, w);
    var db :| BulkFlags.Outcomes(s, fate, db, w1, c1, r);
    assert forall j {:trigger plain.M(j)} :: 0 <= j < s.N() ==> plain.M(j) == s.M(j);
    OwnDefaults(plain, i);
    CodecLaws.RowSaysFields(plain.F(i), |COLUMNS|, c);
    DefaultsAreExpected(clock(i), MutAt(w, plain.M(i)).fields, c);
    assert Rank(c) < |COLUMNS| || FieldOf(plain.F(i), c).None?;
  }

  /** A bulk save of messages without hooks meets what the comparison with single saves asks for, also when
      builders share a mutation: whoever comes first sets all seven defaults. */
  lemma MessagesArePlain(builders: seq<nat>, clock: nat -> Defaults, validator: string -> bool, store: Store,
                         root: Ctx, cur: map<nat, nat>, w: World)
    requires BulkPlain.Serial(store)
    ensures BulkPlain.Plain(MessageEnv(builders, b => [], clock, validator, store), root, cur, w).Ok()
  {
    var s := BulkPlain.Plain(MessageEnv(builders, b => [], clock, validator, store), root, cur, w);
    forall i, j, f | 0 <= i < |builders| && 0 <= j < |builders|
      ensures s.e.defaults(j, s.e.defaults(i, f)) == s.e.defaults(i, f)
    {
      assert WithDefaults(clock(j), WithDefaults(clock(i), f)) == WithDefaults(clock(i), f);
    }
  }

  /** After the defaults, the check fails exactly when one of the four fields without a default is not set, or a client
      message ID is set and invalid. */
  lemma WhatCallersMustSet(d: Defaults, validator: string -> bool, f: Fields)
    ensures Check(validator, WithDefaults(d, f)).None? <==>
      && FieldOf(f, BIZ_ID).Some?
      && FieldOf(f, CONVERSATION_ID).Some?
      && FieldOf(f, SEQ).Some?
      && FieldOf(f, SENDER_ID).Some?
      && (f.clientMsgID.Some? ==> validator(f.clientMsgID.value))
  {
  }

  /** The row has every required column, and a client message ID only if it is valid. */
  ghost predicate Complete(validator: string -> bool, row: Row) {
    && (forall c: Column :: c in COLUMNS && c !in {ID, CLIENT_MSG_ID, CONTENT, METADATA} ==>
         CodecLaws.Lookup(row, c).Some?)
    && match CodecLaws.Lookup(row, CLIENT_MSG_ID)
       case Some(VString(s)) => validator(s)
       case Some(_) => false
       case None => true
  }

  lemma CheckedRowIsComplete(validator: string -> bool, f: Fields)
    requires Check(validator, f).None?
    ensures Complete(validator, RowOf(f))
  {
    CheckNamesFirstFailure(validator, f);
    forall c: Column | c in COLUMNS && c !in {ID, CLIENT_MSG_ID, CONTENT, METADATA}
      ensures CodecLaws.Lookup(RowOf(f), c).Some?
    {
      assert Passes(validator, f, c);
      CodecLaws.RowSaysFields(f, |COLUMNS|, c);
    }
    assert Passes(validator, f, CLIENT_MSG_ID);
    CodecLaws.RowSaysFields(f, |COLUMNS|, CLIENT_MSG_ID);
  }

  /** MAIN: with hooks that edit in place and forward the same object, every row that a bulk save of messages
      puts into a batch has every required column. */
  lemma SentRowsAreComplete(builders: seq<nat>, hooks: nat -> seq<Hook<Arg, World, Outcome>>, clock: nat -> Defaults,
                            validator: string -> bool, store: Store, root: Ctx, cur: map<nat, nat>, w: World)
    requires SameObject(MessageEnv(builders, hooks, clock, validator, store))
    ensures var c := Save(MessageEnv(builders, hooks, clock, validator, store), root, cur, w).1;
      forall x :: 0 <= x < |c.heap| ==> Complete(validator, c.heap[x].row)
  {
    var e := MessageEnv(builders, hooks, clock, validator, store);
    ValidatedDataIsSent(e, root, cur, w);
    var c := Save(e, root, cur, w).1;
    forall x | 0 <= x < |c.heap| ensures Complete(validator, c.heap[x].row) {
      CheckedRowIsComplete(validator, c.heap[x].from);
    }
  }

  /** Reading the row stored for payload `f` under `id`, with the given column list, gives `node`. */
  ghost predicate ReadsBackAs(j: Codec.Json, f: Fields, id: int64, extra: string -> Codec.DbValue,
                              columns: seq<Column>, node: Message)
  {
    && (forall c :: CodecLaws.Scanned(j, f, id, extra, c).Some?)
    && var (d, err) := Codec.Assign(j, Codec.BLANK, columns, CodecLaws.ScannedAll(j, f, id, extra, columns));
    err.None? && d.node == node
  }

  /** MAIN: what a bulk save returns is what a query reads back. After a successful save whose hooks call `next`
      once, leave the nodes alone and do not turn errors into success, decoding the row that was sent for
      builder `i`, with the ID the store gave it and any column list that covers the table, gives the very node
      that the save returned for it. */
  lemma SavedNodesReadBack(builders: seq<nat>, hooks: nat -> seq<Hook<Arg, World, Outcome>>, clock: nat -> Defaults,
                           validator: string -> bool, store: Store, root: Ctx, cur: map<nat, nat>, w: World,
                           j: Codec.Json, extra: string -> Codec.DbValue, columns: seq<Column>, i: nat, id: int64)
    requires var e := MessageEnv(builders, hooks, clock, validator, store);
      && BulkInduction.CallOnce(e) && BulkOutcome.ErrorsStay(e)
      && BulkOutcome.KeepNodeIDs(e) && BulkOutcome.KeepNodeContents(e)
    requires i < |builders| && Codec.Invertible(j) && (forall c: Column :: !c.Extra? ==> c in columns)
    ensures var (w1, c1, r) := Save(MessageEnv(builders, hooks, clock, validator, store), root, cur, w);
      r.Success? ==>
        && |r.value| == |c1.heap| == |builders|
        && r.value[i] == Some(i)
        && c1.heap[i].row == RowOf(c1.heap[i].from)
        && (c1.heap[i].id == Some(id as int) ==> ReadsBackAs(j, c1.heap[i].from, id, extra, columns, MsgAt(w1, i)))
  {
    var e := MessageEnv(builders, hooks, clock, validator, store);
    assert BulkFlags.Blank(e);
    BulkNodes.SavedNodes(e, root, cur, w);
    var (w1, c1, r) := Save(e, root, cur, w);
    if r.Success? {
      assert BulkNodes.Honest(e, c1.heap[i]);
      assert BulkNodes.Shows(e, w1, c1, i);
      CodecLaws.RoundTrip(j, c1.heap[i].from, id, extra, columns);
    }
  }
}
