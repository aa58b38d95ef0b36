# Verified model of the ent create, query and row-codec core

`internal/ent` holds the generated data layer of the service. For each entity it contains the same control flow
with another list of fields; this project models that control flow once, with `Message` as the entity, and proves
what it promises. Four parts are covered.

- **The bulk-create chain.** `MessageCreateBulk.Save` builds one closure per builder, each wrapped in that builder's
  hooks. Closure i checks builder i, fills slot i of two shared slices and calls closure i+1 through its hooks; the
  last one makes the single batch insert; IDs and `done` flags are written on the way back out. `BulkSave` is this code
  as it runs (shared arrays, objects updated in place, the closures' calls as mutually recursive methods); each method
  is proved equal to a function of module `Bulk`, and the theorems are about those functions. Objects held by pointer
  are named by address, so aliasing (the same builder twice, two builders with one mutation, a hook that forwards
  another object) is in the model. Levels count from builder 0; level n is the batch insert. `BulkInduction` is the
  induction over levels and layers that the theorems share.
- **Hooks and interceptors** (`Onion`). A hook is an arbitrary terminating strategy: at every moment it decides, from
  its argument, everything it can reach and all results so far, whether to call `next` again, with which argument and
  after which changes, or to finish with which result. What it can reach (`World`) is every mutation object, every
  node, the store and its own memory; it cannot reach the closures' captured variables (`Chain`). A main result that
  speaks of fewer hooks names the class by a predicate.
- **The query builder** (`Query*`). The builder object with slices over backing arrays, its two compilers, `Clone`, the
  terminal calls with their interceptors, and what they return over the rows of the table.
- **The row codec** (`Codec*`) and **the hook registry** (`Registry`).

## Assumptions

- The store is a parameter: a batch insert is refused whole or done whole, and may give each spec an ID. Only the
  comparison with single saves (`BulkPlain`) needs more: that a batch is taken and numbered as its rows would be one by
  one. `Stores` shows a table with an auto-increment key and any uniqueness rule that meets this. That comparison also
  asks that builders do not share a mutation, or that a payload which got one builder's defaults takes no more from
  another's; for messages the latter always holds (`MessageSaves.MessagesArePlain`).
- A predicate or an order term adds one condition or one sort key. A spec's limit or offset of 0 means none, as an
  unset one leaves it 0. Sorting rearranges rows, IDs are a key, SELECT DISTINCT keeps one row of those that agree in
  the selected columns. A list of IDs takes exactly one column. `QueryContext.Clone` copies the context.
- A traverser changes the builder by calls of its methods, and decides on them from the context and the builder's state.
- The driver returns a column that was not sent as NULL and a number as 64 bits. The JSON codec gives back what it
  was given, and never encodes to nothing.
- Clocks are read by the caller and passed in. `ClientMsgIDValidator` is an arbitrary predicate.

## Where a promise fails

- *Validated data is what is sent* holds for any hooks in the single save, and in the bulk save for hooks that forward
  the object they were given. A bulk hook that forwards another mutation gets it sent unchecked, because the body
  checks the builder's own mutation before it adopts the forwarded one (`BulkSubstitution`: the exact condition, and a
  message without any column that reaches the batch insert).
- *All `done` flags or none* fails when a hook turns success into an error after the fact, or the reverse
  (`BulkFlags.DoneFlags`: exactly when; `BulkFlags.MixedFlags`: two messages; `BulkOutcome.AllOrNone`: it holds for
  hooks that pass success and failure on).
- *ID pointers lead to the builder's own node* exactly if the mutations are different objects (`BulkNodes.IDAliasing`).
- *Bulk refines sequential* up to the ID pointers of shared mutations (`BulkPlain.BulkRefinesSequential`: exactly when).
- *The two compilers agree* up to windows and DISTINCT (`QueryAgreement.CompilersAgreeExactly`: exactly when;
  `QueryAgreement.DistinctDisagrees` and `QueryAgreement.LimitZeroDisagrees`: a table and builders that disagree).
- *ID terminals* are exact on builders without selected fields only, hence not on a builder that already ran one
  (`QueryRunLaws.IDTerminalsAreExact`, `QueryRunLaws.TerminalsStick`).

## Model

| member | source | states |
|---|---|---|
| Entity.CreateSpec | internal/ent/message_create.go:297-359 | the column-by-column filling yields the node and the column list that the payload determines |
| Entity.CheckNamesFirstFailure | internal/ent/message_create.go:237-277 | check accepts exactly the payloads that satisfy every column's rule, and its error names the first column in table order that does not |
| Onion.StackAppend | internal/ent/ent.go:548-553 | wrapping with two hook lists in a row is the outer list around the inner one |
| Onion.StackCongruent | internal/ent/ent.go:548-553 | a stack depends on the operation it wraps only through that operation's answers |
| Onion.IdentityIsUnit | internal/ent/ent.go:548-553 | a forwarding hook can be inserted or removed at any place of any stack without changing any answer |
| Onion.WrapIsRun | internal/ent/message_create.go:413-415 | a hook around next gives an answer if and only if it runs to it step by step: before each call it sees exactly the results so far, what it forwards goes to next unchanged, each result is what next returned, and the answer is its own last word on all of them |
| Onion.DriveKeeps | internal/ent/message_create.go:413-415 | a relation on the captured state that the next layer keeps is kept by an arbitrary hook around it |
| Onion.StackKeeps | internal/ent/ent.go:548-554 | the same through a whole stack of arbitrary hooks |
| Onion.DriveRepeats | internal/ent/message_create.go:413-415 | a hook that calls next exactly k times repeats what next records exactly k times, unless next spoils the record for good |
| Onion.DriveOnce | internal/ent/message_create.go:413-415 | a hook that calls next once is its two halves around that call |
| Onion.DriveStays | internal/ent/message_create.go:413-415 | a property of world and captured state that the hook's own steps and next keep is kept by the hook around next |
| BulkInduction.Outwards | internal/ent/message_create.go:380-416 | what holds of the batch insert, and outwards through each body and each hook, holds of every layer |
| BulkInduction.SavePasses | internal/ent/message_create.go:376-424 | with call-once hooks, a claim about entering and leaving layers that every single step passes on holds of the whole save |
| Bulk.WriteIDs | internal/ent/message_create.go:394-396 | writing the store's IDs changes no spec's columns |
| BulkSave.Run.constructor | internal/ent/message_create.go:373-375 | the save starts with all slots nil |
| BulkSave.Run.ApplyDefaults | internal/ent/message_create.go:379 | the builder's unset fields get their defaults, nothing else changes |
| BulkSave.Run.Mutate | internal/ent/message_create.go:380-416 | calling mutators[i] from any of its layers inwards has exactly the specified effect on world, slots and trace |
| BulkSave.Run.CallHook | internal/ent/message_create.go:413-415 | the same for one hook around the next layer, however often it calls it |
| BulkSave.Run.CallBody | internal/ent/message_create.go:380-412 | the same for the innermost closure |
| BulkSave.Run.FillSlot | internal/ent/message_create.go:388-390 | the builder adopts the mutation and slot i gets a fresh node and spec built from it |
| BulkSave.Run.SettleNode | internal/ent/message_create.go:405-411 | the mutation points to the node in slot i, the node gets the spec's ID if there is one, the flag is set |
| BulkSave.Run.CreateBatch | internal/ent/message_create.go:394-400 | one insert of whatever the slice holds; refused whole with the wrapped error, or done with IDs written in order |
| BulkSave.SaveBulk | internal/ent/message_create.go:369-425 | a recorded error returns before anything else; otherwise final world, captured variables and result are those of the specification |
| BulkSafety.BatchSeesOnlyCurrentSpecs | internal/ent/message_create.go:385-400 | with any hooks, every batch insert finds every slot filled, by the most recent entry of that builder's body; no nil slot is ever dereferenced |
| BulkSafety.SlotsAreDistinct | internal/ent/message_create.go:373-390 | with any hooks, the two slices name the same pairs of objects and no two builders share one |
| BulkInvariants.SaveInvariant | internal/ent/message_create.go:380-416 | an invariant of the captured variables that emits, fills and inserts keep holds at the end of every save, for any hooks |
| BulkInvariants.ContextIsolation | internal/ent/message_create.go:377-420 | every stack is entered at the root context, and builder k, and the batch insert for the last one, see only contexts that its own hooks make of the root, whatever all other hooks do |
| BulkInvariants.BatchSeesLastContext | internal/ent/message_create.go:391-396 | with any hooks, every batch insert runs in exactly the context that the last body was entered with right before it |
| BulkInvariants.ValidatedDataIsSent | internal/ent/message_create.go:385-390 | with hooks that forward the object they were given, every spec of the run was built from a payload that passed the check |
| BulkTrace.SaveShape | internal/ent/message_create.go:376-424 | for any hooks with fixed numbers of next calls: the run enters and leaves layers and inserts exactly in the nesting given by those numbers if and only if no body refuses |
| BulkTrace.ValidSaveIsNotRefused | internal/ent/message_create.go:382-387 | no body refuses when the mutations are valid at the start and the hooks keep them valid and forward the object they were given |
| BulkTrace.FanoutCount | internal/ent/message_create.go:391-415 | when no body refuses, the number of batch inserts is the product of the next-call counts over all hooks of all builders |
| BulkTrace.OnceTraceShape | internal/ent/message_create.go:376-424 | for any call-once hooks: every layer is entered once in lexicographic order, one insert is made, and the layers are left in exactly the reverse order, if and only if no body refuses |
| BulkOutcome.FirstFailure | internal/ent/message_create.go:385-404 | with call-once hooks that let errors through and do not change what the checks say: the error is that of the first builder whose check fails and no batch insert happens; store, flags and ID pointers change only if a hook itself changes them |
| BulkOutcome.AllOrNone | internal/ent/message_create.go:402-411 | with call-once hooks that leave the flags alone and pass success and failure on: all n mutations are done if the save succeeds and none is if it fails, whatever is edited or written |
| BulkFlags.SaveOutcome | internal/ent/message_create.go:385-424 | with call-once hooks that turn statuses in a fixed way: the very result, which mutations are done, and, as far as hooks leave them alone, final store, ID pointers and node IDs |
| BulkFlags.DoneFlags | internal/ent/message_create.go:402-411 | the flags are all or none on every store if and only if no stack from the second builder on turns an outcome, which can be worked out from hooks and payloads before the save |
| BulkFlags.MixedFlags | internal/ent/message_create.go:402-411 | two valid messages whose rows are stored, one marked done and the other not, when the second builder's hook fails after the fact |
| BulkNodes.SavedNodes | internal/ent/message_create.go:388-424 | a successful save returns one node per accepted spec, in order, each showing the payload its spec was sent for under the ID the store gave to that spec |
| BulkNodes.IDAliasing | internal/ent/message_create.go:405-409 | after a successful save each mutation's ID pointer leads to its builder's node if and only if the mutations are different; that node holds the ID the store gave to that spec |
| BulkNodes.PointersMatchOnlyIfDistinct | internal/ent/message_create.go:405-409 | with any hooks, the pointers can match only if no two builders share a mutation object |
| BulkResults.BodyReturnsItsNode | internal/ent/message_create.go:402-411 | a body that succeeds hands the node in its slot to the hooks around it, and its mutation is done and points to that node |
| BulkResults.SuccessHasNodes | internal/ent/message_create.go:419-424 | with hooks that make no success up, however often they call next, a successful save returns n nodes, none nil |
| BulkResults.RetriedSave | internal/ent/message_create.go:413-424 | a save whose outermost hook retries returns the nodes if the last attempt succeeds, else the last error; each attempt starts where the one before left off |
| BulkSubstitution.SubstitutionSendsUnchecked | internal/ent/message_create.go:385-390 | with hooks that forward other objects, fresh ones they fill, or edited ones, the batch is made of exactly the forwarded payloads, and is validated if and only if each of those would pass the check |
| BulkSubstitution.UncheckedRowIsSent | internal/ent/message_create.go:385-390 | one hook that forwards an empty mutation gets a row without columns into the batch insert |
| BulkPlain.BulkRefinesSequential | internal/ent/message_create.go:279-295 | without hooks, an accepted bulk save returns the n nodes in order, the same that n single saves return, and leaves the same store, nodes, payloads and flags; the ID pointers too if and only if no mutation is shared |
| BulkPlain.BulkFailsWhole | internal/ent/message_create.go:385-404 | otherwise the bulk save leaves the store untouched while the single saves leave the rows before the first failure |
| BulkPlain.SequentialStops | internal/ent/message_create.go:279-295 | the single saves stop at the first builder whose check fails or whose row is refused, with its error |
| Single.WithHooks | internal/ent/ent.go:532-563 | the backward loop that rebinds the mutator runs the hook stack around the copying operation; with a nil hook at any position nothing is executed or sent, nothing changes, and the error says so |
| Single.SingleSaveSendsValidated | internal/ent/ent.go:539-547 | with any hooks, substituting ones included, every spec the single save sends was built from a payload that passed the check |
| Single.RegistrationOrder | internal/ent/ent.go:548-553 | saving with hooks h1 then h2 registered runs the h1 stack around the h2 stack around the operation |
| SingleLaws.SingleSaveReturnsItsNode | internal/ent/message_create.go:279-295 | a successful single save, without hooks or with hooks that pass results on, returns the node it created: the sent payload's, under the ID the store gave; the mutation is done and points to it |
| SingleLaws.SingleSaveSendsForwarded | internal/ent/ent.go:539-547 | with call-once hooks, the payload checked and sent is the one that comes out of the last hook, another mutation's when a hook substitutes it |
| SingleLaws.SingleSaveOutcome | internal/ent/message_create.go:279-295 | with hooks that pass results on, what comes back: the type error, the check's error for the forwarded payload, or the store's answer by its kind |
| SingleLaws.OutermostHookDecides | internal/ent/ent.go:554-562 | the save answers what the outermost hook answers, but for a value that is no node, which becomes an error |
| MessageSaves.DefaultsKeepSetFields | internal/ent/message_create.go:205-234 | defaults never replace a set field and touch only the seven columns that have one |
| MessageSaves.DefaultsAreTaken | internal/ent/message_create.go:205-234 | each of the seven columns takes its default when it is not set |
| MessageSaves.SentRowsHaveDefaults | internal/ent/message_create.go:376-396 | with call-once hooks that leave payloads alone, the rows a bulk save of messages sends hold, column by column, what the caller set and otherwise the default read for that builder |
| MessageSaves.WhatCallersMustSet | internal/ent/message_create.go:205-277 | after the defaults the check fails only for the four fields without default or an invalid client message ID |
| MessageSaves.CheckedRowIsComplete | internal/ent/message_create.go:237-359 | a checked payload's row has every required column and only a valid client message ID |
| MessageSaves.SentRowsAreComplete | internal/ent/message_create.go:385-396 | so does every row that a bulk save puts into a batch, for hooks that forward the object they were given |
| MessageSaves.SavedNodesReadBack | internal/ent/message_create.go:405-411 | reading the row sent for a builder back under its ID, with any covering column list, gives the very node the bulk save returned, for call-once hooks that leave nodes alone |
| MessageSaves.MessagesArePlain | internal/ent/message_create.go:205-234 | messages meet what the comparison with single saves asks for, shared mutations included |
| Codec.ScanValues | internal/ent/message.go:53-70 | each column gets an empty holder of its type |
| Codec.Receiver.AssignColumn | internal/ent/message.go:79-177 | one switch arm changes its own field as its holder says, or reports the wrong type and changes nothing |
| Codec.Receiver.AssignValues | internal/ent/message.go:74-180 | the loop assigns the columns in order and stops at the first error; too few values are refused first |
| CodecLaws.IndependentSteps | internal/ent/message.go:78-179 | without duplicate columns the loop succeeds exactly if each column can be assigned on its own, and changes exactly the listed fields |
| CodecLaws.OrderIndependence | internal/ent/message.go:74-180 | rearranging columns with their values changes neither whether reading succeeds nor the record and extra values, unknown columns included |
| CodecLaws.AssignErrors | internal/ent/message.go:75-179 | too few values are refused first; otherwise reading stops at the first column whose value has another type or does not decode, names it, and has assigned exactly the columns before it |
| CodecLaws.ScannedHoldersFit | internal/ent/message.go:53-70 | the holders that scanValues makes have the types that assignValues asserts |
| CodecLaws.NullColumns | internal/ent/message.go:79-177 | a NULL leaves its field as it was, but for the ID, which becomes 0 |
| CodecLaws.RowSaysFields | internal/ent/message_create.go:302-357 | the sent columns say exactly which fields are set, and to what |
| CodecLaws.RoundTrip | internal/ent/message.go:53-180 | a sent row read back with any column list fills exactly the listed fields with what the create returned; a covering list gives back the whole node |
| CodecLaws.NarrowingIsExact | internal/ent/message.go:121-122 | a number survives the 8-bit narrowing exactly if it fits in 8 bits, and is always kept modulo 256 |
| Slices.Append | internal/ent/client.go:1319 | append gives the contents followed by the new elements, in place or in a new array, and never changes the elements already there |
| Slices.Copy | internal/ent/message_query.go:250-252 | appending to a fresh empty slice copies the contents into an array that nothing shares |
| Registry.Client.Use | internal/ent/client.go:1318-1320 | the shared list grows by the hooks; what older slice headers show stays |
| Registry.Client.Tx | internal/ent/client.go:198-211 | refused inside a transaction; otherwise a handle with the same registry |
| Registry.Client.Debug | internal/ent/client.go:281-290 | the client itself in debug mode, else a logging handle with the same registry |
| Registry.PlayStep | internal/ent/client.go:1318-1332 | one step through any handle: builders made before keep their hook lists, a new one gets everything registered so far, every handle stays on the same registry |
| Registry.Play | internal/ent/client.go:198-309 | for any sequence of registrations, creations and derivations through any handles, every builder ends up holding exactly what was registered through any of them before it was created |
| QueryBuilder.MessageQuery.AddWhere | internal/ent/message_query.go:31-34 | the predicates grow by the given ones, nothing else changes |
| QueryBuilder.MessageQuery.AddOrder | internal/ent/message_query.go:56-59 | the order terms grow by the given ones |
| QueryBuilder.MessageQuery.SetLimit | internal/ent/message_query.go:37-40 | only the limit changes |
| QueryBuilder.MessageQuery.SetOffset | internal/ent/message_query.go:43-46 | only the offset changes |
| QueryBuilder.MessageQuery.SetUnique | internal/ent/message_query.go:50-53 | only the uniqueness changes |
| QueryBuilder.MessageQuery.AddSelect | internal/ent/message_query.go:294-300 | the selected fields grow by the given ones |
| QueryBuilder.MessageQuery.SetGroupBy | internal/ent/message_query.go:273-274 | the selected fields are replaced |
| QueryBuilder.MessageQuery.Clone | internal/ent/message_query.go:243-257 | a fresh query in the same state, none of whose objects existed before |
| QueryBuilder.MessageQuery.CompileSpec | internal/ent/message_query.go:367-405 | the loops compile the spec that the builder's state determines |
| QueryBuilder.MessageQuery.CompileSelector | internal/ent/message_query.go:407-437 | the loops compile the selector that the builder's state determines |
| QueryAgreement.CompilersAgree | internal/ent/message_query.go:367-437 | unless DISTINCT can collapse rows, both compilers select the same rows in the same order if and only if their windows agree (2^31-1 rows after a bare offset; limit 0) |
| QueryAgreement.CompilersAgreeExactly | internal/ent/message_query.go:367-437 | for every builder, both compilers select the same rows in the same order if and only if the windows agree and, with DISTINCT and no ID selected, no two rows within the window's reach agree in the selected fields |
| QueryAgreement.DistinctDisagrees | internal/ent/message_query.go:375-421 | two messages that differ only in ID: two rows by the spec, one by the selector |
| QueryAgreement.LimitZeroIsNone | internal/ent/message_query.go:391-435 | Limit(0) compiles to the spec of no limit and to a selector that selects nothing |
| QueryAgreement.LimitZeroDisagrees | internal/ent/message_query.go:391-435 | on a table of two messages: both rows by the spec, none by the selector |
| QueryAgreement.SpecColumns | internal/ent/message_query.go:375-413 | the spec fetches exactly the selector's columns and the ID |
| QueryAgreement.SpecColumnsInOrder | internal/ent/message_query.go:375-383 | the ID first and once, then the other selected fields in the order they were selected |
| QueryAgreement.CompiledAlike | internal/ent/message_query.go:369-435 | both forms carry the same predicates, order, uniqueness, offset and explicit limit |
| QueryTerminals.CloneThenInterleave | internal/ent/message_query.go:243-257 | after Clone any interleaving of builder calls and terminals leaves each query as its own calls alone would |
| QueryTerminals.First | internal/ent/message_query.go:63-72 | limits the builder to one row and runs it: the first row, not found, or the error; the builder, the calls made and the result are those that `QueryRun` specifies |
| QueryTerminals.Only | internal/ent/message_query.go:109-122 | limits the builder to two rows and runs it: the only row, not found, not singular, or the error; builder, calls and result as specified |
| QueryTerminals.All | internal/ent/message_query.go:162-169 | runs the builder as its traversers leave it; a result that is no list of messages becomes an error; builder, calls and result as specified |
| QueryTerminals.IDs | internal/ent/message_query.go:181-190 | adds the ID to the selected fields and scans; a list of IDs that an interceptor returns replaces the scanned one, a value that cannot be nil stops the program, others are ignored; builder, calls and result as specified |
| QueryTerminals.FirstID | internal/ent/message_query.go:85-95 | the first of at most one scanned ID, with limit and selected field left on the builder; builder, calls and result as specified |
| QueryTerminals.OnlyID | internal/ent/message_query.go:136-150 | tells one, none and several IDs apart from at most two scanned; builder, calls and result as specified |
| QueryTerminals.Exist | internal/ent/message_query.go:220-230 | false exactly on not found, any other error is passed on; builder, calls and result as specified |
| QueryRun.PrepareQuery | internal/ent/message_query.go:307-331 | the two loops stop at the first nil interceptor, failing traverser or invalid field, with the builder changed in place by the traversers' calls |
| QueryRun.RunInterceptors | internal/ent/ent.go:598-603 | the backward loop runs the interceptors as a stack, the first outermost |
| QueryRunLaws.NilInterceptorIsNeverCalled | internal/ent/message_query.go:307-317 | no run of any terminal calls a nil interceptor; with one, the run fails and nothing but earlier traversers is called |
| QueryRunLaws.OutermostNameIsSeen | internal/ent/ent.go:566-572 | traversers see the outermost terminal's name at any nesting, or the caller's own; interceptors and query see only what the interceptors make of that context |
| QueryRunLaws.FirstAndOnlyAreExact | internal/ent/message_query.go:63-122 | First and Only classify every builder as All without a limit does, errors included, under traversers that ignore the limit and forwarding interceptors |
| QueryRunLaws.IDTerminalsAreExact | internal/ent/message_query.go:85-230 | FirstID, OnlyID and Exist classify the matching rows exactly if and only if no fields are selected, under traversers that ignore limit and fields and forwarding interceptors |
| QueryRunLaws.TerminalsStick | internal/ent/message_query.go:85-230 | FirstID, OnlyID and Exist leave limit and selected ID on the builder: a second of them fails and All is cut to one or two rows |
| QueryResults.AllSeesOnlyAccepted | internal/ent/message_query.go:307-321 | with traversers that add predicates and forwarding interceptors, All returns exactly the rows of the table that satisfy the builder's own and every added predicate |
| QueryResults.IDsSeeOnlyAccepted | internal/ent/message_query.go:181-190 | IDs returns exactly those rows' IDs |
| QueryResults.FirstSeesOnlyAccepted | internal/ent/message_query.go:63-72 | First returns the first of those rows, not found if there is none, and leaves limit 1 |
| QueryResults.OnlySeesOnlyAccepted | internal/ent/message_query.go:109-122 | Only returns the only one of those rows, not found for none, not singular for several, and leaves limit 2 |
| QueryResults.FirstIDSeesOnlyAccepted | internal/ent/message_query.go:85-95 | FirstID does as First, for the ID |
| QueryResults.OnlyIDSeesOnlyAccepted | internal/ent/message_query.go:136-150 | OnlyID does as Only, for the ID |
| QueryResults.ExistSeesOnlyAccepted | internal/ent/message_query.go:220-230 | Exist is true exactly if there is such a row |
| QueryResults.InvalidFieldIsBlamed | internal/ent/message_query.go:318-322 | a builder with a field that is no column fails with the first such field, and nothing is executed |
| QueryResults.TraverserErrorStops | internal/ent/message_query.go:312-316 | the first failing traverser's error comes back; no later traverser, interceptor or query is called |
| QueryResults.InterceptorsInOrder | internal/ent/ent.go:598-603 | forwarding interceptors are called once each in registration order, then the query once |
| QueryResults.AnsweredIDs | internal/ent/ent.go:634-643 | what each kind of value that an interceptor returns makes of the scanned list |
| QueryResults.AnsweredAll | internal/ent/ent.go:603-610 | an interceptor's list of messages is what All returns, anything else is an error |
| QueryResults.AnsweredFirst | internal/ent/message_query.go:63-122 | First and Only take the first, or the only one, of an interceptor's list, and tell none and several apart |
| QueryResults.OtherQueryIsRefused | internal/ent/ent.go:575-583 | the query is not executed on a query of another type |
| QueryResults.LastScanCounts | internal/ent/ent.go:621-632 | when an interceptor runs the query several times, the list holds what the last successful scan wrote |

## Left out

- The other entities' create, query and codec code: the same text with other field lists.
- Update and delete builders, group-by and aggregate scans, `sqlCount`, the panicking `...X` variants, printers: they
  add further members of the same kind. The guard and operation-name results hold for any executed query function.
- `sqlgraph`, the SQL text and the driver: represented by the assumptions above. The batch's IDs are written over IDs
  that a spec already has from an earlier insert of the same run.
- Objects shared by pointer in the bulk chain are kept in tables and named by address instead of being Dafny objects;
  JSON maps are values, so the map that a node and a mutation share is not.
- Nil hooks in the bulk chain, which has no check for them; panics that a hook raises or recovers; hooks that never stop.
- Concurrent use of one client, builder or registry.
- A traversal path (`path`, `sql`): nothing in these files sets one. Interceptors other than traversers that change the
  builder they are running under in place.
- Mutation internals beyond which fields are set: added and cleared values play no part in a create.
- BulkSubstitution.SubstitutionSendsUnchecked: for builders that occur once in the slice; a builder that occurs twice is
  checked, the second time, on the mutation it adopted the first time.
- QueryRunLaws.IDTerminalsAreExact: traversers that fail, or that look at limit or fields, are not part of it: such a
  traverser may undo what the terminal sets.
