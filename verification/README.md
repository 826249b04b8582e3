# Verification of evolve's conversation client and planner

This project models two parts of evolve and proves properties of them with Dafny 4.11.

**The AG-UI conversation client (`internal/agui`).** A stack of state machines fed by an agent that may send anything:

- `EventStream` reads server-sent events from bytes. `Decoded` says what a whole body means, line by line and block by
  block; the reader works one byte at a time.
- `ChunkExpander` rewrites `*_CHUNK` events into START/CONTENT/END. `Validation` is the conformance validator; `Pairing`
  says which runs it finds well paired and `Lifecycle` which responses in order, both of the events themselves;
  `ChunkOpenings` says what opens an item, and `Coupling` what the two guarantee for an agent that sends chunks.
- `Segments` divides a response into runs; `ResponseStream` files events one at a time and settles the requested run.
- `Threads` is the eager meaning of a run's events: every delta is appended at once. `Deltas` says what the deltas of a
  run add up to, `ThreadLaws` and `SnapshotLaws` what each event leaves in the thread. `Reduction` is the reducer with
  its open builders, proved against the eager meaning through `Buffers`.
- `JsonPointer` and `JsonDocument` give RFC 6901 and RFC 6902 on values, and `PatchLaws` says what each operation does in
  terms of what paths read; `JsonShapes` and `JsonPatch` do the same by editing nested maps and arrays in place.
- `Answers` is the matching of canned responses to requests, `Transcripts` says what every run of a conversation posted,
  left, asked and was answered with, and `Conversations` is the loop that drives an arbitrary agent and gives answers
  only when another run will carry them. `PendingLaws` and `AskedLaws` say what it asks and answers from the events of
  the agent's replies and the script alone.

**The planner (`internal/plan`, `internal/run/plan.go`).** `Catalogs` holds the filter semantics, `Planner` builds the
plan, `Sweeps` turns it back into per-model filters, `PlannedRuns` proves that these run what the plan queued,
`CaseReasoning` computes the domain of the form's preview, and `Sessions` is the form's state, whose preview is proved to
be the plan. `PlanLaws` says which cases are queued and run from the form's fields and the filter's maps alone.

Two smaller pieces: `Grading` (the greedy tool-sequence matcher and the count bounds) and `EvalMerges` (partial reruns
and baselines, with `MergeLaws` on the lists they leave).

Code that changes state is modelled by classes, methods and loops; each is tied to a function of its inputs or its old
state, and the properties are proved about that function. An arbitrary agent is a function from run number to reply,
regular expressions are arbitrary predicates, and random ids come from any function that returns an id outside a given
set. Go map iteration is a loop that takes keys in any order.

Where a property is not what the code does, the exact condition is proved:

- A TOOL_CALL_RESULT that takes the id of a message being streamed leaves the streamed text in place of its own content
  (`Reduction.Reducer.Apply`, `Reduction.StreamedTextOutlivesResult`).
- `move` of the whole document onto itself is refused, while any other existing path moves onto itself unchanged
  (`JsonDocument.MoveOntoItself`).
- The form's preview does not count a forced-on case that has no reason entry, though the plan queues it; reasons cover
  only the tiers, skills and eval the command line selected (`Sessions.PreviewRule`).
- `baselineStale` looks at the first stored result of an id and `mergeBaseline` carries the last one forward, so a stored
  baseline with two results of one id can be stale right after a run (`EvalMerges.StaleAfterwards`,
  `EvalMerges.InconsistentBaselineGoesStale`); every baseline a merge writes is free of this.
- Merging two reruns under different specs equals merging them at once exactly when the first did not prune something
  the second needs (`EvalMerges.RerunsCompose`).

## Model

| member | source | states |
|---|---|---|
| JsonPointer.ParsePointer | internal/agui/patch.go:23-41 | the token loop accepts a string exactly when it is empty or starts with `/` and every `~` starts `~0` or `~1`, and yields its unescaped tokens |
| JsonPointer.BadEscapeRejected | internal/agui/patch.go:30-36 | a token with a `~` that is followed by neither 0 nor 1, at a place where an escape starts, is rejected |
| JsonPointer.NoBadEscapeTwoPass | internal/agui/patch.go:37-38 | on every accepted token, replacing `~1` and then `~0` gives the one-pass meaning of its escapes (RFC 6901 section 4) |
| JsonPointer.TwoPassEscape | internal/agui/patch.go:44-51 | escaping `~` and then `/` in two passes is the one-pass escape |
| JsonPointer.String | internal/agui/patch.go:44-51 | the builder loop prints every token list as its pointer |
| JsonPointer.ParsePrint | internal/agui/patch.go:23-51 | parsing the print of any token list gives the list back |
| JsonPointer.PrintParse | internal/agui/patch.go:23-51 | printing the parse of any accepted string gives the string back |
| JsonPointer.EscapesMean | internal/agui/patch.go:30-38 | in a token `~0` is `~`, `~1` is `/` and any other character but `~` is itself, wherever it stands |
| JsonPointer.EscapeMore | internal/agui/patch.go:44-51 | a token is printed character by character, `~` as `~0` and `/` as `~1` |
| JsonPointer.PrintMore | internal/agui/patch.go:44-51 | the whole document prints as the empty string, and each token adds a `/` and its escape |
| JsonDocument.ArrayIndexMeaning | internal/agui/patch.go:267-283 | a token names position i exactly when it is i's decimal spelling and i is in range, or it is `-` where adding at the end is allowed |
| JsonDocument.AddViaParent | internal/agui/patch.go:186-211 | adding is inserting into the parent container and substituting it, and fails exactly when the parent does not resolve or cannot take the value |
| JsonDocument.RemoveViaParent | internal/agui/patch.go:214-243 | removing is deleting from the parent container and returns what was there, failing exactly when the path does not resolve |
| JsonDocument.RemoveAddIsPut | internal/agui/patch.go:169-183 | remove-then-add at any resolving non-root path cannot fail and is substitution in place (RFC 6902 section 4.3) |
| JsonDocument.MoveOntoItself | internal/agui/patch.go:130-151 | moving an existing value onto itself changes nothing, except the whole document, which is refused |
| JsonDocument.ReadBack | internal/agui/patch.go:186-211 | a value just added is read back where it was added, `-` being the last position |
| JsonDocument.SiblingsShift | internal/agui/patch.go:202-208 | inserting at index i moves elements from i on one place up and leaves the others |
| JsonDocument.AddRemoveRestores | internal/agui/patch.go:186-243 | adding at a fresh path and removing there restores the document and returns the value |
| JsonShapes.GraftDoc | internal/agui/patch.go:246-263 | storing into the container a path leads to changes the document exactly at that path, whatever the nesting |
| JsonShapes.GraftUnshared | internal/agui/patch.go:246-263 | a tree without shared containers stays one when a disjoint tree is stored in it |
| JsonPatch.Resolve | internal/agui/patch.go:55-74 | walking the containers token by token finds exactly the value at the path, or nothing when it does not resolve |
| JsonPatch.SetAt | internal/agui/patch.go:246-263 | the in-place store is substitution at the path |
| JsonPatch.AddAt | internal/agui/patch.go:186-211 | the in-place add (map store, or a new slice stored in the parent) computes the value-level add or fails with it, and leaves an unshared tree |
| JsonPatch.RemoveAt | internal/agui/patch.go:214-243 | the in-place remove (delete, or a shortened slice stored in the parent) computes the value-level remove, and the removed value shares nothing with what is left |
| JsonPatch.ReplaceAt | internal/agui/patch.go:169-183 | remove-then-add in place is the value-level replace, on success and failure |
| JsonPatch.DeepCopy | internal/agui/patch.go:286-302 | the copy is the same document in containers that did not exist before |
| JsonPatch.DeepEqual | internal/agui/patch.go:122-125 | the comparison `test` makes holds exactly of equal documents |
| JsonPatch.ApplyOp | internal/agui/patch.go:102-154 | one operation in place computes the RFC 6902 operation on values or fails with it, and the document stays an unshared tree through add, copy and move |
| JsonPatch.ApplyPatch | internal/agui/patch.go:87-98 | a patch applied by mutation is the fold of the RFC 6902 operations; on success or failure the input is unmodified, and the result shares no container with it |
| PatchLaws.AddOp | internal/agui/patch.go:111-118 | `add` succeeds exactly when it has a value and the target can take one; the value is then read where it landed, and taking it out leaves the document as it was, less a member it overwrote |
| PatchLaws.CopyOp | internal/agui/patch.go:130-142 | `copy` succeeds exactly when its source resolves and its target can take a value; then the value the source had has landed at the target, as with `add` |
| PatchLaws.MoveOp | internal/agui/patch.go:130-151 | `move` succeeds exactly when its source is a part that resolves, the target is not inside it, and the document without it can take a value at the target; then the value the source had has landed there in that document |
| PatchLaws.RemoveOp | internal/agui/patch.go:126-128 | `remove` succeeds exactly when it names a part that resolves; adding the value back restores the document, and an object has the member no longer |
| PatchLaws.ReplaceOp | internal/agui/patch.go:119-120 | `replace` succeeds exactly when it has a value and its path resolves; the value is read there and the rest of the document is what it was |
| PatchLaws.AddCopyLeave | internal/agui/patch.go:186-211 | a path that leads neither to nor from the target, and not among the elements it shifts, reads what it did after `add` and `copy` |
| PatchLaws.MoveLeaves | internal/agui/patch.go:130-151 | a moved member is gone from where it was, and a path apart from source and target reads what it did |
| PatchLaws.PatchInTurn | internal/agui/patch.go:87-98 | a patch is its first operations and then the others, and fails with either |
| EventStream.SseReader.ReadLine | internal/agui/sse.go:85-119 | the byte loop with its held CR and end flag reads the next line of the body, or reports its end, a broken reader or an over-long line |
| EventStream.SseReader.Next | internal/agui/sse.go:43-82 | one call delivers the next event of the declarative decoding, with an unterminated last event flagged |
| EventStream.SseReader.ReadAll | internal/agui/sse.go:43-119 | draining the reader yields exactly what the whole byte sequence decodes to, events and ending |
| EventStream.TerminatorsAreEqual | internal/agui/sse.go:85-119 | replacing every CR LF and CR by LF changes neither lines nor events |
| EventStream.FrameRoundTrip | internal/agui/sse.go:43-82 | CR-free payloads within the size cap, framed as data lines within it, decode back to themselves whatever follows |
| EventStream.UnterminatedRoundTrip | internal/agui/sse.go:48-60 | a last event without its blank line is delivered and flagged |
| EventStream.DataFieldMeaning | internal/agui/sse.go:60-71 | a line gives data exactly when it is `data:` with or without one space before the value, or a bare `data` |
| EventStream.OtherLinesIgnored | internal/agui/sse.go:60-71 | a comment or another field, anywhere in a body, changes no event |
| EventStream.BrokenLosesLast | internal/agui/sse.go:47-53 | when the reader breaks, the events ended before are delivered and the one under way is lost; a clean end loses nothing |
| EventStream.OverlongEvent | internal/agui/sse.go:76-79 | an event over the size cap ends the reading there, whatever follows |
| EventStream.OverlongLine | internal/agui/sse.go:114-117 | a line over the size cap ends the reading there, and the event it interrupts is lost |
| EventStream.OnTheWire | internal/agui/sse.go:17-34 | the bytes of `data: hi` and a blank line decode to the one event `hi`, and the cap is 32 MiB |
| Order.CompactIsSet | internal/agui/validate.go:738-747 | sorting and compacting a list lists the set of its members once each |
| Order.SortIds | internal/agui/validate.go:855-876 | collecting keys in any order and sorting gives one result |
| ChunkExpander.Expander.FeedEvent | internal/agui/validate.go:500-522 | one step of the expander's fields is one step of its transition function, and a breach is reported exactly when that is undefined |
| ChunkExpander.OthersPassThrough | internal/agui/validate.go:500-522 | on every accepted stream the events that are not chunks come out unchanged and in order, and everything else that comes out is synthesized |
| ChunkExpander.DeltasPreserved | internal/agui/validate.go:524-590 | each chunk delta comes out once, in order, under the id the chunk resolves to |
| ChunkExpander.ExpandsToGroups | internal/agui/validate.go:500-604 | the output is passed events and START CONTENT* END groups of one item with only RAW inside, and only a group at the end of the stream may lack its END |
| ChunkOpenings.StartsAreOpenings | internal/agui/validate.go:500-576 | the STARTs that come out carry, in order, the type, id, role, name and parent of exactly the input chunks that open an item, with "assistant" for an absent text role |
| ChunkOpenings.RefusedExactly | internal/agui/validate.go:500-576 | a stream is refused exactly when some chunk opens an item without the id or tool name it needs, or repeats an opening field of its item with another value |
| Validation.Validator.Check | internal/agui/validate.go:660-693 | one event changes the validator and reports problems as its transition function says, in order |
| Validation.Validator.Finish | internal/agui/validate.go:695-734 | RUN_FINISHED reports wrong ids, what is still open, a wrong pending list and a cancelled result, and ends the run |
| Validation.Validator.Pair | internal/agui/validate.go:750-803 | one event inside a run moves its item, step, activity or result |
| Pairing.LanguageIsFaultless | internal/agui/validate.go:806-846 | the moves on one item raise no fault and leave it closed exactly when they spell (START CONTENT* END)*, one form per segment, restarts agreeing with the first start |
| Pairing.StepsAlternate | internal/agui/validate.go:783-792 | a step raises no fault and is left closed exactly when its events are (STARTED FINISHED)* |
| Pairing.PairingIsSoundAndComplete | internal/agui/validate.go:695-846 | from RUN_STARTED to RUN_FINISHED no pairing or chunk-form problem is reported exactly when, per id, the START, CONTENT and END events of each class are in turn, end closed, keep one form from START to END and restart under the same role or name and parent; the REASONING_START and REASONING_END events of each id alternate; and so do the events of each step |
| Pairing.PendingListIsExact | internal/agui/validate.go:722-729 | a success outcome's pending list is accepted exactly when it lists the unanswered calls once each |
| Pairing.PendingListOfRun | internal/agui/validate.go:722-747 | over a run from RUN_STARTED a pending list is accepted exactly when it names once each the calls with a TOOL_CALL_START and no TOOL_CALL_RESULT |
| Lifecycle.LifecycleIsExact | internal/agui/validate.go:660-707 | a response raises no lifecycle problem exactly when every run starts outside a run and finishes inside one under its own id, no error follows an error, everything else is inside a run, and every thread id is the client's |
| Lifecycle.ActivitiesAreExact | internal/agui/validate.go:793-798 | inside a run an activity delta is reported exactly when its activity has had no snapshot before |
| Coupling.ChunksStayCoupled | internal/agui/validate.go:500-846 | for an agent that sends messages, calls and reasoning only as chunks, through any runs and errors, the validator's open items are always the expander's one open item and the only problem in those classes is a disagreeing reopen |
| Coupling.NothingLeftOpen | internal/agui/validate.go:708-718 | for such an agent nothing of those classes is reported open when a run finishes |
| Segments.FilingDivides | internal/agui/converse.go:599-635 | filing events one by one divides a response exactly as the statement about the whole list does |
| Segments.SegmentsInTurn | internal/agui/converse.go:599-635 | every ordinary event is filed in at most one segment, in order, strictly between its start and its terminal event; no segment both finishes and fails; a late error implies a finish |
| Segments.ChosenRun | internal/agui/converse.go:656-672 | the segment settled is the run of the last RUN_STARTED echoing the requested id, else of the last RUN_STARTED |
| ResponseStream.Stream.Accept | internal/agui/converse.go:599-651 | after every event the segments, the bad-start flag, the ended flag and the violations are what the whole list of events says, through the pointer to the last segment |
| ResponseStream.LearnedAsExpected | internal/agui/converse.go:599-651 | the flag for the requested run is set exactly when some segment echoing its id has ended, and the bad-start flag exactly when the first event is neither RUN_STARTED nor RUN_ERROR |
| ResponseStream.Stream.Read | internal/agui/converse.go:532-586 | reading accepts the expansion of the events up to the first breach, and fails exactly on a breach, an undecodable event, or a read error before the requested run ended |
| ResponseStream.FailsExactly | internal/agui/converse.go:532-586 | reading fails exactly when some chunk breaches the chunk rules, an event does not decode, or the reader breaks before a run echoing the requested id is over, its terminal event after its RUN_STARTED with no other RUN_STARTED between |
| ResponseStream.SettlesExactly | internal/agui/converse.go:656-718 | a response settles into an outcome exactly when it was read without error, starts properly, and its chosen run holds a RUN_FINISHED and no RUN_ERROR |
| ResponseStream.SettlesAs | internal/agui/converse.go:688-718 | the chosen run ends as its first RUN_ERROR says, flagged late after a RUN_FINISHED; else as the outcome of its first RUN_FINISHED, a success when that carries none; else truncated |
| ResponseStream.Stream.Settle | internal/agui/converse.go:656-718 | the loop picks the chosen segment, reduces exactly its events into the conversation, and reports its ending |
| Threads.AppliedKeeps | internal/agui/reduce.go:57-257 | every event keeps the call index the exact inverse of the recorded calls, ids distinct, streamed messages findable and every call item resolvable |
| Deltas.TextIsItsDeltas | internal/agui/reduce.go:66-71 | after any events but a snapshot or a result taking its id, a message's text is what it was followed by its own content deltas in order |
| Deltas.ArgsAreTheirDeltas | internal/agui/reduce.go:76-80 | after any events but a snapshot, a call's arguments are what they were followed by its own argument deltas in order |
| ThreadLaws.NewCallAttaches | internal/agui/reduce.go:139-176 | a call new to the thread is recorded once, as a frontend call exactly when its name is declared, and adds one mention: on the last message with the named id when that is an assistant message; without a parent on the final message when that is an assistant message this run started; otherwise on a new assistant message at the end; every other message is left alone |
| ThreadLaws.KnownCallArgs | internal/agui/reduce.go:139-157 | arguments of a known call are appended to its record and shown in every mention, and nothing else is touched |
| ThreadLaws.RecordsEach | internal/agui/reduce.go:57-192 | an event other than a snapshot adds to the record only the call it opens, and changes of other calls only their arguments and, for a tool result naming them, their result |
| ThreadLaws.TextSays | internal/agui/reduce.go:102-134 | a text or reasoning event adds its message at the end under the role and name it is started with when the history lacks it, and changes only the content of its last message otherwise |
| ThreadLaws.TracksEach | internal/agui/reduce.go:102-266 | items are listed once each in the order they are first produced, and messages are started under their first role |
| ThreadLaws.ResultMessage | internal/agui/reduce.go:180-192 | a tool result becomes the last message of its id, in place or at the end, and touches no other message |
| ThreadLaws.EncryptedGoesTo | internal/agui/reduce.go:196-211 | an encrypted value goes to the first message or mention it belongs to and nowhere else |
| ThreadLaws.SnapshotReplaces | internal/agui/reduce.go:216-227 | a snapshot replaces the history by its messages, activity apart, ends all streaming, and keeps the calls on record but for results they did not have |
| ThreadLaws.PartsSay | internal/agui/types.go:219-241 | the text of a list of parts is the texts of its text parts with a newline between them |
| SnapshotLaws.SnapshotRecords | internal/agui/reduce.go:228-257 | a snapshot puts on record exactly the calls that assistant and reasoning messages not there before the run mention, the results that tool messages give to calls without one, and the texts and roles of these messages, each listed as an item after those before |
| Buffers.ShownSetArgs | internal/agui/reduce.go:149-155 | a write to a call's builder shows in every mention of the call and nowhere else |
| Buffers.ParentMessageShown | internal/agui/reduce.go:159-176 | a new call attaches to the same message whether or not that message is being streamed |
| Reduction.Conversation.Materialize | internal/agui/reduce.go:295-316 | writing the builders out, the maps walked in any order, leaves exactly the thread that was seen, with nothing streaming |
| Buffers.NothingBuffered | internal/agui/reduce.go:295-316 | without builders what is seen is what is stored, so writing out twice is writing out once |
| Reduction.Reducer.OpenMessage | internal/agui/reduce.go:102-120 | starting or reopening a message through a builder is the eager open |
| Reduction.Reducer.AppendText | internal/agui/reduce.go:125-134 | a content delta written to a builder is the eager append, opening the message when nothing did |
| Reduction.Reducer.OpenCall | internal/agui/reduce.go:139-157 | starting or reopening a call, with its parent message found or made, is the eager open |
| Reduction.Reducer.AppendArgs | internal/agui/reduce.go:76-80 | an argument delta written to a builder is the eager append on the call and its mentions |
| Reduction.Reducer.ToolResult | internal/agui/reduce.go:180-192 | a tool result is recorded as its message and on its call, an open builder of that message outliving it |
| Reduction.Reducer.Snapshot | internal/agui/reduce.go:216-257 | a snapshot writes the builders out, replaces the history and records what only it produced, as the eager snapshot does |
| Reduction.Reducer.Apply | internal/agui/reduce.go:57-99 | after every event the thread seen through the builders is the eager one, exactly unless the event is a tool result with other content that takes the id of a message being streamed; and a state delta warns exactly when its patch fails |
| Reduction.RunsReduceEagerly | internal/agui/reduce.go:41-55 | a run without such an event is reduced to its eager meaning |
| Reduction.StreamedTextOutlivesResult | internal/agui/reduce.go:180-187 | for any thread and any message new to it: a message streamed and then replaced by a tool result keeps the streamed text, where the eager meaning has the result |
| Reduction.Reducer.ResolveItems | internal/agui/reduce.go:268-291 | every item resolves to its final content and no index is out of range |
| Reduction.ReduceRun | internal/agui/reduce.go:41-55 | a whole run leaves the fold of its events with the builders written out, and lists its items in order |
| Deltas.RecordStep | internal/agui/reduce.go:57-134 | without a snapshot or such a result, the text on record for every streamed message stays the message's own, and every message item is of a streamed message |
| Reduction.ItemsSayTheThread | internal/agui/reduce.go:268-291 | in a run without a snapshot or such a result every message item carries its message's text, and every call item its call's arguments, as the thread has them afterwards |
| Reduction.ItemsSayTheDeltas | internal/agui/reduce.go:268-291 | there a message item carries the message's earlier text and its own deltas in order, when no result takes the message's id, and a call item its call's earlier arguments and deltas |
| Reduction.ItemsSayTheRecord | internal/agui/reduce.go:268-291 | for every run, each item carries the recorded role and text of its message, or the recorded name of its call with its arguments, or with its result, in the order they were produced |
| Conversations.Take | internal/agui/converse.go:833-841 | the first response still available that fits is taken and used up, and none is taken only when none fits |
| Answers.EachGivenOnce | internal/agui/converse.go:833-841 | over a whole conversation a response that answers two requests is repeatable and fits both |
| Answers.UnmatchedMeansExhausted | internal/agui/converse.go:833-841 | when a request is matched to nothing, every response that fits it was given to an earlier request and may not be repeated |
| Conversations.Dialogue.RunOnce | internal/agui/converse.go:403-462 | a run posts the whole history and carries what had accumulated, nothing stays queued, and its ending, its items and the thread it leaves are what the agent's reply to that thread means |
| Conversations.Dialogue.PendingCalls | internal/agui/converse.go:732-743 | the pending calls are the agent's list when it sent one, else the frontend calls of the run without a result, in order |
| Conversations.Dialogue.AddUser | internal/agui/converse.go:390-398 | a user turn joins both the thread and what the next run sends, under an id new to the history |
| Conversations.Dialogue.AnswerTools | internal/agui/converse.go:749-786 | every pending call is recorded as a request with the name and arguments the thread has for it, asked of the responses as such, and matched exactly to the first one available that fits; messages are ready exactly when every call was matched, one per call in order, each scripted by its response, under new ids |
| Conversations.Dialogue.AnswerInterrupts | internal/agui/converse.go:792-828 | every interrupt is recorded as a request with the name of the call it is about, and matched exactly to the first available response that fits; entries are ready exactly when there is an interrupt and all are covered, one per interrupt in order |
| Conversations.Dialogue.CommitTools | internal/agui/converse.go:776-785 | giving the answers marks exactly those requests answered, and adds exactly those messages to the thread, to the next run and to the calls they answer |
| Transcripts.AnsweredCallsHaveResults | internal/agui/converse.go:782-783 | every call answered has a result afterwards |
| Conversations.Dialogue.CommitResume | internal/agui/converse.go:820-827 | giving resume entries marks exactly those requests answered and queues exactly those entries |
| Transcripts.LastBlock | internal/agui/converse.go:749-758 | requests recorded for the last run disturb neither what earlier runs asked nor what was carried for them |
| Conversations.AllAskedFor | internal/agui/converse.go:231-247 | asking about a run extends the record by exactly the requests its ending and the thread it left call for, and the run counts as matched exactly when each of them was |
| Conversations.AllAnsweredFor | internal/agui/converse.go:248-258 | once those requests are all answered, the next run is due and carries exactly the answers |
| Conversations.Dialogue.Next | internal/agui/converse.go:231-261 | after a run either the conversation ends as its outcome says with nothing given, or the thread for the next run is what this one left with exactly the answers to all it asked, the derived pending calls included, or with one follow-up turn |
| Conversations.Dialogue.Exchange | internal/agui/converse.go:218-261 | one round of the loop keeps all of this, whatever the agent replies |
| Conversations.Converse | internal/agui/converse.go:198-264 | for every agent: at most maxRuns runs; each run posts the thread the run before it left with what the client added, and its ending, items and thread are what the agent's reply means; each run asks about exactly the pending calls or interrupts of its ending and thread; a request is answered exactly when a later run exists, and that run carries exactly the tool messages, resume entries or the one follow-up, in order; user turns are a prefix of the script; call ids are distinct; the matches are the exact first-available-fit picks; the final messages, calls and state are those the last run left; and the outcome is decided by how the last run ended, whether it asked, whether all of it was matched and whether turns are left |
| Conversations.AllPendingOrNone | internal/agui/converse.go:732-786 | after every successful run the client asked about exactly the calls it left pending, listed or derived, and answered all of them when another run was made and none otherwise |
| PendingLaws.PendingOfRun | internal/agui/converse.go:732-743 | after a run without a snapshot the derived pending calls are exactly the calls new to the thread whose first opening event is a TOOL_CALL_START with a declared name and that have no TOOL_CALL_RESULT afterwards, in the order they were opened |
| AskedLaws.AsksWhatWasLeft | internal/agui/converse.go:732-786 | in every conversation, after a successful run without a list or a snapshot, the client asked about exactly those calls in that order |
| AskedLaws.AsksWhatWasNamed | internal/agui/converse.go:732-828 | what an agent lists is asked about as listed: the ids of its pending list, or of its interrupts, in order; nothing after a cancelled or unfinished run |
| AskedLaws.RequestsSay | internal/agui/converse.go:753-806 | a request about a call carries the name and arguments the run left on it, one about an interrupt its reason, its message and the name of its call; a call the thread does not know has neither |
| AskedLaws.GivesFirstMatch | internal/agui/converse.go:759-841 | every request, in order, is given the first scripted response still to be given whose patterns match it, and none only when there is no such response |
| AskedLaws.AnswersSay | internal/agui/converse.go:766-818 | an answer to a call is a tool message with the scripted error when there is one and the scripted result otherwise; one to an interrupt has the scripted status, or "resolved", and the payload |
| AskedLaws.GivenSays | internal/agui/converse.go:776-785 | giving answers appends them to the history and leaves each call with the text and error of the last one for it, and no other call changed |
| AskedLaws.OutcomeSays | internal/agui/converse.go:218-261 | a conversation fails or is cancelled with its last run, awaits input exactly when that run asked for what no response answers or was interrupted for nothing, completes exactly when it asked for nothing and every turn was sent, and otherwise has made as many runs as the script allows, 20 when it does not say |
| Conversations.AwaitingMeansUnanswerable | internal/agui/converse.go:248-252 | a conversation left awaiting input has a request of its last run that no response still available fits, unless an interrupted run named no interrupt |
| Catalogs.ApplicableTriggers | internal/plan/catalog.go:88-102 | the accumulate loop lists exactly the included triggers in authored order, and none outside the skill filter or model restriction |
| Catalogs.ApplicableEvals | internal/plan/catalog.go:107-121 | the same for evals |
| Planner.Build | internal/plan/build.go:18-65 | the plan lists, in order and under its own plugin and title, every skill with a model to run; its units are those of every allowed skill and model, triggers before evals, every authored case resolved; nothing in it is empty and adjacent plugins differ |
| Sweeps.FiltersOf | internal/plan/model.go:60-105 | the nested loops fold the plan's queued cases, in order, into per-model filters |
| Sweeps.FiltersSayTheQueue | internal/plan/model.go:60-105 | a filter exists exactly for keys with a queued case, includes exactly their skills, restricts both tiers of each and lists exactly the queued cases |
| Sweeps.PlanEntries | internal/plan/build.go:18-96 | a case is queued in the plan exactly when an allowed skill authors it for the key and the selection queues it |
| PlannedRuns.FiltersRunTheQueue | internal/plan/catalog.go:39-121 | under a model's derived filter the engine runs exactly the queued cases in authored order, even when plugins share a skill name; without a filter nothing is queued |
| PlannedRuns.AbsentIffNothingQueued | internal/plan/model.go:60-105 | a key has no filter exactly when no case of the plan is queued for it |
| PlannedRuns.ListUnits | internal/run/plan.go:62-78 | the unit list names exactly the skill, model and tier triples with a case to run, in order |
| PlannedRuns.UnitsRunAreUnitsQueued | internal/run/plan.go:62-83 | for models with distinct keys, the units run under a derived filter are exactly the plan's units with a queued case, in plan order |
| PlanLaws.PlanLists | internal/plan/build.go:18-72 | a plan lists every skill under its own plugin, name and title, and every model under its own key and by its name when it has one |
| PlanLaws.TriggersRun | internal/plan/catalog.go:39-102 | a model runs exactly the authored triggers of a skill that names it or names none, when each level of the filter is absent or lists them |
| PlanLaws.EvalsRun | internal/plan/catalog.go:39-121 | the same for evals |
| PlanLaws.UnitsOfRun | internal/run/plan.go:62-78 | a skill, model and tier is listed exactly when the tier is on, an agent's skill meets a hosted model or another skill another model, and it has a case to run |
| PlanLaws.HarnessSays | internal/harness/select.go:30-40 | a model runs under its preferred harness when that is eligible and supported, else under the first such in the preference order, else not at all |
| PlanLaws.OfferedSays | internal/plan/session.go:186-203 | the first entry under a harness's id decides whether a model is offered, by its list when it has one; a harness without an entry or a list offers every model |
| CaseReasoning.CaseReasons | internal/run/plan.go:132-196 | the nested loops give a reason to exactly the pairs of the domain and an entry to every model |
| CaseReasoning.DomainIs | internal/run/plan.go:132-196 | a pair is in the domain exactly when a selected skill authors the case for a model it allows, in a covered tier, admitted by the eval filter |
| PlanLaws.ReasonsSay | internal/run/plan.go:132-196 | a case has a reason for a model exactly when a selected skill offers it to the model, its tier is covered and, for evals, the filter is empty or names it |
| Sessions.Session.constructor | internal/plan/session.go:89-124 | harnesses and models start on exactly when asked for, a model its harness does not offer starts off, and all cases start automatic |
| Sessions.Session.SetCases | internal/plan/session.go:154-162 | exactly the given cases take the state, automatic meaning no entry |
| Sessions.Session.EnabledModels | internal/plan/session.go:335-350 | the run spans exactly the enabled models with an eligible harness, in display order |
| Sessions.Session.QueuedCounts | internal/plan/session.go:269-294 | the counting loops count the node's pairs and those the preview rule queues |
| Sessions.Session.NodeSel | internal/plan/session.go:225-257 | the node state is forced when all its cases are forced alike, else follows the counts |
| Sessions.Session.CurrentSelection | internal/plan/session.go:380-397 | the submitted selection is the overrides with the baseline of each enabled model |
| Sessions.Session.CurrentPlan | internal/plan/session.go:299-301 | the plan is that of the enabled models under the submitted selection |
| Sessions.PreviewIsThePlan | internal/plan/session.go:269-301 | in every session state, for an enabled model and a case with a reason, the plan marks the case queued exactly when the preview counts it |
| PlanLaws.TogglesUnite | internal/plan/session.go:364-376 | setting toggles together queues exactly what each alone does |
| PlanLaws.FormQueues | internal/plan/session.go:335-397 | the submitted plan queues a case for a model exactly when some skill offers it to a model that is switched on with a harness that can drive it, and it is forced on, or not forced off and wanted for a reason |
| Sessions.Session.NodeShowsThePlan | internal/plan/session.go:225-257 | for a node not uniformly forced, all, some or none shown means all, some or none of its pairs are queued in the plan |
| Sessions.ComputedReasonsAuthored | internal/run/plan.go:132-196 | reasons computed over the models satisfy what the preview needs of them |
| Grading.GreedyIsComplete | internal/grade/grade.go:388-404 | a prefix of the patterns is matched by some increasing choice of calls exactly when the greedy pass gets that far |
| Grading.GradeToolSequence | internal/grade/grade.go:373-405 | passes exactly when the patterns match an ordered subsequence, otherwise reports the longest matchable prefix; skips and bad patterns as the code does |
| Grading.GradeToolCall | internal/grade/grade.go:271-342 | passes exactly when the number of matching calls is at least the minimum, 1 by default and 0 under a maximum of 0, and at most the maximum when one is set; skips without calls, and reports the first pattern that does not compile |
| Grading.MatchedAre | internal/grade/grade.go:280-289 | the calls counted are those at exactly the positions where the name matches, the arguments match when there is a pattern for them, and a result is there and matches when there is a pattern for it |
| EvalMerges.MergeEvalResults | internal/run/evals.go:823-845 | the merge lists, in spec order, the fresh result where there is one and the stored one otherwise |
| EvalMerges.MergedIsSpecOrder | internal/run/evals.go:837-843 | the merged ids are the spec's ids that have a result, in spec order, removed evals pruned |
| EvalMerges.RerunsCompose | internal/run/evals.go:823-845 | merging F1 and then F2 equals merging their right-biased overlay at once exactly when the first merge pruned nothing the second needs |
| MergeLaws.MergedSays | internal/run/evals.go:823-845 | a merge holds, for exactly the spec's ids, the last fresh result, or the last stored one when none is fresh |
| EvalMerges.BaselineStale | internal/run/evals.go:376-389 | stale exactly when missing or when the first stored result of the id has another fingerprint |
| EvalMerges.RunBaselines | internal/run/evals.go:273-321 | the slots filled in any order give one fresh baseline for each stale eval |
| EvalMerges.MergeBaseline | internal/run/evals.go:394-423 | the stored baseline overlaid with the fresh ones, in current spec order, pruned, none when empty, its time advancing only when one ran |
| EvalMerges.StaleAfterwards | internal/run/evals.go:376-423 | after a unit with baselines on, an eval it ran is stale exactly when it was not before but the last stored result of its id has another fingerprint |
| MergeLaws.BaselineSays | internal/run/evals.go:376-423 | after a unit the baseline of an eval whose first stored result has its present fingerprint is the last stored one, and otherwise what its session gave, under its id and present fingerprint and trimmed |
| MergeLaws.BaselineDated | internal/run/evals.go:415-422 | a baseline takes the unit's time exactly when the unit ran one of its evals, and else keeps its date |
| EvalMerges.BaselinesConverge | internal/run/evals.go:376-423 | over a stored baseline whose results of one id agree, no eval the unit ran is stale afterwards |
| EvalMerges.MergesAreConsistent | internal/run/evals.go:394-423 | every baseline a merge writes has agreeing results per id |
| EvalMerges.InconsistentBaselineGoesStale | internal/run/evals.go:376-423 | a concrete stored baseline with two results of one id, after which the eval is stale |
| EvalMerges.BuildEntry | internal/run/evals.go:742-766 | a real run rotates the replaced entry into previous and merges its baseline, a count-only pass keeps both snapshots |
| EvalMerges.RunUnit | internal/run/evals.go:183-214 | an executed unit with distinct eval ids leaves the merged results, the rotated snapshot, and no eval it ran baseline-stale |

## Left out

- HTTP, redirects, timeouts, contexts, scrubbing and the grace timer: a reply is a refusal or a finite list of events with
  a clean end, a read error or an undecodable event.
- JSON text decoding, field tables, usage totals and the outcome check: the models start from decoded events and JSON
  values. An outcome's type is one of success, interrupt and cancelled.
- PatchLaws.AddOp: like the other laws of that module, of documents whose arrays are no longer than a Go slice can be.
- AskedLaws.AsksWhatWasLeft: not of a run with a messages snapshot; which calls that records is SnapshotLaws.SnapshotRecords.
- Numbers in JSON documents are reals with exact equality; Go compares float64 values.
- The wording of violations and errors, their severity, and their positions in the stream. The lifecycle notes the
  settling of a response adds about echoed ids and trailing runs are not recorded.
- The conversation state inside the reducer is a JSON value: a state delta uses the value-level patch that
  JsonPatch.ApplyPatch is proved to compute, and slices inside messages are values, so their aliasing is not modelled.
- Reasoning and text of a run keep their kind, role and order as items; the joined transcript output, usage and seconds
  are not modelled.
- Conversations.Converse: the context being cancelled mid-run is not modelled; an agent failure of any kind ends the
  conversation with the error outcome.
- Conversations.Dialogue.RunOnce: tools, context and forwarded properties of the request are fixed and left out; the run
  ids are any non-empty strings.
- Prior results attached to plan cases, their metrics and display strings other than the model's name.
- The harness bound to each enabled model: the plan depends only on the model.
- Model tokens are compared as given; the code trims surrounding spaces first.
- CaseReasoning.CaseReasons: the reason of a pair is any function of the skill, model and case, because it comes from
  stored results and content hashes.
- Needs, notes and the command-line preselection, whose rule is the same as the session's baseline.
- Trigger merging and the eval run-set selection, which add no harder member than the ones proved for evals.
- EvalMerges.RunBaselines: a session that fails to start aborts the unit in the code and is not modelled.
- gradeHITL, gradeState and the other assertion kinds: they count or compare as Grading.GradeToolCall does.
- Pricing, rates, reports, sandboxes, configuration, the terminal interface and the other commands.
