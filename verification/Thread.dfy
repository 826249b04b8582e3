/** What a run's events mean for the conversation: every delta appended at once, no buffers.

    This is the reference the buffered reducer is proved against. */
module Threads {
  import opened Prelude
  import opened JsonDocument
  import opened Events

  datatype ToolCall = ToolCall(
    run: nat, id: string, name: string, args: string, result: Option<string>, error: string, frontend: bool)

  datatype RefKind = TextRef | ReasoningRef | CallRef | ResultRef
  datatype ItemRef = ItemRef(kind: RefKind, id: string)

  /** What one run sees: its index, the tools the client declared, the message ids before it began, and the source
      of ids for messages the client makes up (any function giving an id not in use). */
  datatype RunContext = RunContext(run: nat, declared: set<string>, before: set<string>, mint: set<string> -> string)

  /** Ids the client makes up are never ids already in the history. */
  ghost predicate Fresh(mint: set<string> -> string) { forall used :: mint(used) !in used }

  /** A conversation while one run is reduced into it. `streaming` and `streamingArgs` are the messages and calls
      that deltas are being appended to; started, roles and refs record what this run produced. */
  datatype Thread = Thread(
    history: seq<Message>, toolCalls: seq<ToolCall>, calls: map<string, nat>, texts: map<string, string>,
    state: Json, streaming: set<string>, streamingArgs: set<string>,
    started: set<string>, roles: map<string, string>, refs: seq<ItemRef>)

  // ----- looking things up -----

  /** The position of the last message with this id, or -1. */
  function Find(h: seq<Message>, id: string): (i: int)
    ensures -1 <= i < |h|
    ensures i >= 0 ==> h[i].id == id
    ensures forall k | i < k < |h| :: h[k].id != id
  {
    if h == [] then -1 else if h[|h| - 1].id == id then |h| - 1 else Find(h[..|h| - 1], id)
  }

  lemma FindSame(h: seq<Message>, h1: seq<Message>, id: string)
    requires |h| == |h1| && forall k | 0 <= k < |h| :: h1[k].id == h[k].id
    ensures Find(h1, id) == Find(h, id)
  {
    hide Find;
  }

  /** The text of the message with this id; "" when there is none. */
  function TextOf(h: seq<Message>, id: string): string {
    var i := Find(h, id);
    if i >= 0 then ContentText(h[i].content) else ""
  }

  function Ids(h: seq<Message>): set<string> { set i | 0 <= i < |h| :: h[i].id }

  lemma FindAbsent(h: seq<Message>, id: string)
    ensures Find(h, id) < 0 <==> id !in Ids(h)
  {
    var i := Find(h, id);
    if i >= 0 {
      assert h[i].id in Ids(h);
    }
  }

  /** c.calls is the exact inverse index of the tool calls. */
  ghost predicate Indexed(toolCalls: seq<ToolCall>, calls: map<string, nat>) {
    && (forall id | id in calls :: calls[id] < |toolCalls| && toolCalls[calls[id]].id == id)
    && (forall i | 0 <= i < |toolCalls| :: toolCalls[i].id in calls && calls[toolCalls[i].id] == i)
  }

  /** What every reachable thread satisfies. */
  ghost predicate WellFormed(t: Thread) {
    && Indexed(t.toolCalls, t.calls)
    && (forall id | id in t.streaming :: Find(t.history, id) >= 0)
    && t.streamingArgs <= t.calls.Keys
    && (forall ref | ref in t.refs && ref.kind.CallRef? :: ref.id in t.calls)
  }

  // ----- messages -----

  function AddRef(refs: seq<ItemRef>, ref: ItemRef): seq<ItemRef> { if ref in refs then refs else refs + [ref] }

  function NewMessage(id: string, role: string, name: string): Message {
    Message(id, role, NoContent, name, [], "", "", "")
  }

  function SetContent(h: seq<Message>, i: nat, c: Content): seq<Message>
    requires i < |h|
  {
    h[i := h[i].(content := c)]
  }

  function RoleOr(roles: map<string, string>, id: string, role: string): map<string, string> {
    if id in roles && roles[id] != "" then roles else roles[id := role]
  }

  /** The history with a message of this id in it. */
  function WithMessage(h: seq<Message>, id: string, role: string, name: string): (r: seq<Message>)
    ensures Find(r, id) >= 0
  {
    if Find(h, id) >= 0 then h
    else
      var r := h + [NewMessage(id, role, name)];
      assert r[|h|].id == id;
      r
  }

  /** A START, or the first content of a message never started: the message exists and its content is text. */
  function OpenMessage(t: Thread, id: string, role: string, name: string, kind: RefKind): Thread {
    var h := WithMessage(t.history, id, role, name);
    var i := Find(h, id);
    var t1 :=
      if id in t.streaming then t.(history := h)
      else
        var s := ContentText(h[i].content);
        t.(history := SetContent(h, i, Text(s)), streaming := t.streaming + {id}, texts := t.texts[id := s]);
    t1.(started := t.started + {id}, roles := RoleOr(t.roles, id, role), refs := AddRef(t.refs, ItemRef(kind, id)))
  }

  /** A content delta. */
  function AppendText(t: Thread, id: string, kind: RefKind, delta: string): Thread {
    var t1 := if id in t.streaming then t
              else OpenMessage(t, id, if kind.ReasoningRef? then "reasoning" else "assistant", "", kind);
    var i := Find(t1.history, id);
    if i < 0 then t1
    else
      var s := ContentText(t1.history[i].content) + delta;
      t1.(history := SetContent(t1.history, i, Text(s)), texts := t1.texts[id := s])
  }

  lemma AppendTextOpens(t: Thread, id: string, kind: RefKind, delta: string)
    requires id !in t.streaming
    ensures var t1 := OpenMessage(t, id, if kind.ReasoningRef? then "reasoning" else "assistant", "", kind);
            id in t1.streaming && AppendText(t, id, kind, delta) == AppendText(t1, id, kind, delta)
  {
    hide Find, ContentText, WithMessage;
  }

  // ----- tool calls -----

  function WithArgs(m: Message, id: string, args: string): Message {
    m.(toolCalls := Map((tc: MessageToolCall) => if tc.id == id then tc.(arguments := args) else tc, m.toolCalls))
  }

  /** Every mention of the call in the history carries these arguments. */
  function SetArgs(h: seq<Message>, id: string, args: string): (r: seq<Message>)
    ensures |r| == |h|
  {
    Map((m: Message) => WithArgs(m, id, args), h)
  }

  /** The history with the assistant message a new call attaches to, and where it is: the named parent when it is an
      assistant message, else the assistant message this run is streaming, else a new one. */
  function ParentMessage(t: Thread, ctx: RunContext, parent: string): (r: (seq<Message>, nat))
    ensures r.1 < |r.0|
  {
    var h := t.history;
    var i := Find(h, parent);
    if parent != "" && i >= 0 && h[i].role == "assistant" then (h, i)
    else if parent == "" && |h| > 0 && h[|h| - 1].role == "assistant" && h[|h| - 1].id in t.started then (h, |h| - 1)
    else (h + [NewMessage(NewParentId(t, ctx, parent), "assistant", "")], |h|)
  }

  function NewParentId(t: Thread, ctx: RunContext, parent: string): string {
    if parent == "" || Find(t.history, parent) >= 0 then ctx.mint(Ids(t.history)) else parent
  }

  /** A call seen for the first time: recorded, indexed, and mentioned on its parent message. */
  function RecordCall(t: Thread, ctx: RunContext, id: string, name: string, parent: string): Thread {
    var (h, i) := ParentMessage(t, ctx, parent);
    var m := h[i];
    var made := |h| > |t.history|;
    t.(toolCalls := t.toolCalls + [ToolCall(ctx.run, id, name, "", None, "", name in ctx.declared)],
       calls := t.calls[id := |t.toolCalls|],
       history := h[i := m.(toolCalls := m.toolCalls + [MessageToolCall(id, name, "", "")])],
       started := if made then t.started + {m.id} else t.started,
       roles := if made then t.roles[m.id := "assistant"] else t.roles)
  }

  /** The position of a call in the record, or -1. */
  function CallIndex(t: Thread, id: string): (k: int)
    ensures -1 <= k < |t.toolCalls|
  {
    if id in t.calls && t.calls[id] < |t.toolCalls| then t.calls[id] else -1
  }

  /** The call is being streamed, its mentions carrying its arguments so far. */
  function OpenArgs(t: Thread, id: string): Thread {
    var k := CallIndex(t, id);
    if id in t.streamingArgs || k < 0 then t
    else t.(streamingArgs := t.streamingArgs + {id}, history := SetArgs(t.history, id, t.toolCalls[k].args))
  }

  function OpenCall(t: Thread, ctx: RunContext, id: string, name: string, parent: string): Thread {
    var t1 := OpenArgs(if id in t.calls then t else RecordCall(t, ctx, id, name, parent), id);
    t1.(refs := AddRef(t1.refs, ItemRef(CallRef, id)))
  }

  /** An arguments delta. */
  function AppendArgs(t: Thread, ctx: RunContext, id: string, delta: string): Thread {
    var t1 := if id in t.streamingArgs then t else OpenCall(t, ctx, id, "", "");
    var k := CallIndex(t1, id);
    if k < 0 then t1
    else
      var s := t1.toolCalls[k].args + delta;
      t1.(toolCalls := t1.toolCalls[k := t1.toolCalls[k].(args := s)], history := SetArgs(t1.history, id, s))
  }

  lemma AppendArgsOpens(t: Thread, ctx: RunContext, id: string, delta: string)
    requires id !in t.streamingArgs && WellFormed(t)
    ensures var t1 := OpenCall(t, ctx, id, "", "");
            id in t1.streamingArgs && AppendArgs(t, ctx, id, delta) == AppendArgs(t1, ctx, id, delta)
  {
    OpenCallKeeps(t, ctx, id, "", "");
    hide OpenCall, WellFormed;
  }

  function ToolMessage(e: Event): Message { Message(e.messageId, "tool", e.content, "", [], e.toolCallId, "", "") }

  /** The history with this message in place of the one of its id, or at the end. */
  function Upsert(h: seq<Message>, m: Message): seq<Message> {
    var i := Find(h, m.id);
    if i >= 0 then h[i := m] else h + [m]
  }

  /** A backend tool's result, as a tool message and on its call. */
  function ToolResult(t: Thread, e: Event): Thread {
    var k := CallIndex(t, e.toolCallId);
    t.(history := Upsert(t.history, ToolMessage(e)),
       toolCalls := if k >= 0 then t.toolCalls[k := t.toolCalls[k].(result := Some(ContentText(e.content)))]
                    else t.toolCalls,
       refs := AddRef(t.refs, ItemRef(ResultRef, e.toolCallId)))
  }

  // ----- snapshots -----

  function RecordSnapshotCalls(t: Thread, ctx: RunContext, tcs: seq<MessageToolCall>): Thread {
    if tcs == [] then t
    else
      RecordSnapshotCall(RecordSnapshotCalls(t, ctx, tcs[..|tcs| - 1]), ctx, tcs[|tcs| - 1])
  }

  function RecordSnapshotCall(t: Thread, ctx: RunContext, tc: MessageToolCall): Thread {
    var t1 :=
      if tc.id in t.calls then t
      else
        t.(calls := t.calls[tc.id := |t.toolCalls|],
           toolCalls := t.toolCalls +
                        [ToolCall(ctx.run, tc.id, tc.name, tc.arguments, None, "", tc.name in ctx.declared)]);
    t1.(refs := AddRef(t1.refs, ItemRef(CallRef, tc.id)))
  }

  /** What the run produced only through the snapshot: one message of it. */
  function RecordSnapshot(t: Thread, ctx: RunContext, m: Message): Thread {
    if m.id in ctx.before then t
    else if m.role == "assistant" || m.role == "reasoning" then
      var text := ContentText(m.content);
      var kind := if m.role == "reasoning" then ReasoningRef else TextRef;
      var t1 := t.(texts := t.texts[m.id := text], roles := RoleOr(t.roles, m.id, m.role));
      RecordSnapshotCalls(if text != "" then t1.(refs := AddRef(t1.refs, ItemRef(kind, m.id))) else t1, ctx,
                          m.toolCalls)
    else if m.role == "tool" && CallIndex(t, m.toolCallId) >= 0
            && t.toolCalls[CallIndex(t, m.toolCallId)].result.None? then
      var k := CallIndex(t, m.toolCallId);
      t.(toolCalls := t.toolCalls[k := t.toolCalls[k].(result := Some(ContentText(m.content)))],
         refs := AddRef(t.refs, ItemRef(ResultRef, m.toolCallId)))
    else t
  }

  function RecordSnapshots(t: Thread, ctx: RunContext, ms: seq<Message>): Thread {
    if ms == [] then t else RecordSnapshot(RecordSnapshots(t, ctx, ms[..|ms| - 1]), ctx, ms[|ms| - 1])
  }

  const NotActivity := (m: Message) => m.role != "activity"

  /** The history replaced: nothing is being streamed into it any more. */
  function Snapshot(t: Thread, ctx: RunContext, msgs: seq<Message>): Thread {
    var h := Filter(NotActivity, msgs);
    RecordSnapshots(t.(history := h, streaming := {}, streamingArgs := {}), ctx, h)
  }

  // ----- encrypted values -----

  /** The first message or mentioned call the value belongs to: its message, and its position on it for a call. */
  function EncryptedAt(h: seq<Message>, subtype: string, id: string, from: nat): (r: Option<(nat, Option<nat>)>)
    ensures r.Some? ==> r.value.0 < |h| && (r.value.1.Some? ==> r.value.1.value < |h[r.value.0].toolCalls|)
    decreases |h| - from
  {
    if from >= |h| then None
    else if subtype == "message" && h[from].id == id then Some((from, None))
    else
      var j := CallAt(h[from].toolCalls, id, 0);
      if subtype == "tool-call" && j.Some? then Some((from, j)) else EncryptedAt(h, subtype, id, from + 1)
  }

  function CallAt(tcs: seq<MessageToolCall>, id: string, from: nat): (j: Option<nat>)
    ensures j.Some? ==> j.value < |tcs|
    decreases |tcs| - from
  {
    if from >= |tcs| then None else if tcs[from].id == id then Some(from) else CallAt(tcs, id, from + 1)
  }

  function Encrypted(h: seq<Message>, e: Event): seq<Message> {
    match EncryptedAt(h, e.subtype, e.entityId, 0)
    case None => h
    case Some((i, j)) =>
      var m := h[i];
      if j.None? then h[i := m.(encryptedValue := e.encryptedValue)]
      else
        var tc := m.toolCalls[j.value];
        h[i := m.(toolCalls := m.toolCalls[j.value := tc.(encryptedValue := e.encryptedValue)])]
  }

  // ----- one event, one run -----

  function Applied(t: Thread, ctx: RunContext, e: Event): Thread {
    match e.typ
    case TextMessageStart =>
      OpenMessage(t, e.messageId, if e.role == "" then "assistant" else e.role, e.name, TextRef)
    case TextMessageContent => AppendText(t, e.messageId, TextRef, DeltaText(e))
    case ReasoningMessageStart => OpenMessage(t, e.messageId, "reasoning", "", ReasoningRef)
    case ReasoningMessageContent => AppendText(t, e.messageId, ReasoningRef, DeltaText(e))
    case ReasoningEncryptedValue => t.(history := Encrypted(t.history, e))
    case ToolCallStart => OpenCall(t, ctx, e.toolCallId, e.toolCallName, e.parentMessageId)
    case ToolCallArgs => AppendArgs(t, ctx, e.toolCallId, DeltaText(e))
    case ToolCallResult => ToolResult(t, e)
    case StateSnapshot => if e.snapshot.Some? then t.(state := e.snapshot.value) else t
    case StateDelta =>
      var patched := if e.patch.Some? then ApplyPatchSpec(t.state, e.patch.value) else None;
      if patched.Some? then t.(state := patched.value) else t
    case MessagesSnapshot => Snapshot(t, ctx, e.messages)
    case _ => t
  }

  /** A tool result that takes the id of a message being streamed, with other content than what was streamed. */
  predicate Clashes(t: Thread, e: Event) {
    && e.typ.ToolCallResult? && e.messageId in t.streaming
    && Find(t.history, e.messageId) >= 0 && e.content != t.history[Find(t.history, e.messageId)].content
  }

  /** A whole run's events, in order. */
  function AppliedAll(t: Thread, ctx: RunContext, es: seq<Event>): Thread {
    if es == [] then t else Applied(AppliedAll(t, ctx, es[..|es| - 1]), ctx, es[|es| - 1])
  }

  // ----- what every event keeps -----

  lemma RecordCallKeeps(t: Thread, ctx: RunContext, id: string, name: string, parent: string)
    requires WellFormed(t) && id !in t.calls
    ensures WellFormed(RecordCall(t, ctx, id, name, parent)) && id in RecordCall(t, ctx, id, name, parent).calls
  {
    var t1 := RecordCall(t, ctx, id, name, parent);
    forall x | x in t.streaming ensures Find(t1.history, x) >= 0 {
      StillThere(t.history, t1.history, x);
    }
  }

  lemma StillThere(h: seq<Message>, h1: seq<Message>, id: string)
    requires Find(h, id) >= 0 && |h| <= |h1| && forall i | 0 <= i < |h| :: h1[i].id == h[i].id
    ensures Find(h1, id) >= 0
  {
    assert h1[Find(h, id)].id == id;
  }

  lemma OpenMessageKeeps(t: Thread, id: string, role: string, name: string, kind: RefKind)
    requires WellFormed(t) && !kind.CallRef?
    ensures WellFormed(OpenMessage(t, id, role, name, kind)) && id in OpenMessage(t, id, role, name, kind).started
    ensures id in OpenMessage(t, id, role, name, kind).streaming
  {
    hide Indexed, Find, NewMessage, ContentText, RoleOr;
    var t1 := OpenMessage(t, id, role, name, kind);
    var h := WithMessage(t.history, id, role, name);
    forall x | x in t1.streaming ensures Find(t1.history, x) >= 0 {
      if x in t.streaming {
        StillThere(t.history, t1.history, x);
      } else {
        StillThere(h, t1.history, x);
      }
    }
  }

  lemma OpenCallKeeps(t: Thread, ctx: RunContext, id: string, name: string, parent: string)
    requires WellFormed(t)
    ensures WellFormed(OpenCall(t, ctx, id, name, parent)) && id in OpenCall(t, ctx, id, name, parent).streamingArgs
  {
    hide RecordCall;
    if id !in t.calls {
      RecordCallKeeps(t, ctx, id, name, parent);
    }
    var t1 := if id in t.calls then t else RecordCall(t, ctx, id, name, parent);
    var t2 := OpenCall(t, ctx, id, name, parent);
    forall x | x in t2.streaming ensures Find(t2.history, x) >= 0 {
      StillThere(t1.history, t2.history, x);
    }
  }

  lemma {:induction false} SnapshotCallsKeep(t: Thread, ctx: RunContext, tcs: seq<MessageToolCall>)
    requires WellFormed(t)
    ensures WellFormed(RecordSnapshotCalls(t, ctx, tcs))
    ensures RecordSnapshotCalls(t, ctx, tcs).history == t.history
  {
    hide WellFormed, RecordSnapshotCall;
    if tcs != [] {
      SnapshotCallsKeep(t, ctx, tcs[..|tcs| - 1]);
      SnapshotCallKeeps(RecordSnapshotCalls(t, ctx, tcs[..|tcs| - 1]), ctx, tcs[|tcs| - 1]);
    }
  }

  lemma SnapshotCallKeeps(t: Thread, ctx: RunContext, tc: MessageToolCall)
    requires WellFormed(t)
    ensures WellFormed(RecordSnapshotCall(t, ctx, tc)) && RecordSnapshotCall(t, ctx, tc).history == t.history
  {
    hide Find;
  }

  /** Texts and roles, and references to anything but a call, do not matter to a thread being well formed. */
  lemma LabelsDoNotMatter(t: Thread, t1: Thread)
    requires WellFormed(t) && t1 == t.(texts := t1.texts, roles := t1.roles, refs := t1.refs)
    requires forall ref | ref in t1.refs && ref !in t.refs :: !ref.kind.CallRef?
    ensures WellFormed(t1)
  {
    hide Find, Indexed;
  }

  lemma {:induction false} SnapshotsKeep(t: Thread, ctx: RunContext, ms: seq<Message>)
    requires WellFormed(t)
    ensures WellFormed(RecordSnapshots(t, ctx, ms)) && RecordSnapshots(t, ctx, ms).history == t.history
  {
    if ms != [] {
      SnapshotsKeep(t, ctx, ms[..|ms| - 1]);
      SnapshotKeeps(RecordSnapshots(t, ctx, ms[..|ms| - 1]), ctx, ms[|ms| - 1]);
    }
  }

  lemma SnapshotKeeps(t: Thread, ctx: RunContext, m: Message)
    requires WellFormed(t)
    ensures WellFormed(RecordSnapshot(t, ctx, m)) && RecordSnapshot(t, ctx, m).history == t.history
  {
    var text := ContentText(m.content);
    var kind := if m.role == "reasoning" then ReasoningRef else TextRef;
    var t1 := t.(texts := t.texts[m.id := text], roles := RoleOr(t.roles, m.id, m.role));
    var t2 := if text != "" then t1.(refs := AddRef(t1.refs, ItemRef(kind, m.id))) else t1;
    if m.id !in ctx.before && (m.role == "assistant" || m.role == "reasoning") {
      hide WellFormed, RecordSnapshotCalls, ContentText, RoleOr;
      LabelsDoNotMatter(t, t2);
      SnapshotCallsKeep(t2, ctx, m.toolCalls);
    } else {
      hide Find, RecordSnapshotCalls, ContentText;
    }
  }

  /** c.calls stays the exact inverse index of the tool calls, ids stay distinct, whatever is streamed stays findable
      and every call item names a recorded call. */
  lemma AppliedKeeps(t: Thread, ctx: RunContext, e: Event)
    requires WellFormed(t)
    ensures WellFormed(Applied(t, ctx, e))
  {
    hide OpenMessage, AppendText, OpenCall, AppendArgs, ToolResult, RecordSnapshots, Find, Indexed;
    match e.typ
    case TextMessageStart =>
      OpenMessageKeeps(t, e.messageId, if e.role == "" then "assistant" else e.role, e.name, TextRef);
    case TextMessageContent => AppendTextKeeps(t, e.messageId, TextRef, DeltaText(e));
    case ReasoningMessageStart => OpenMessageKeeps(t, e.messageId, "reasoning", "", ReasoningRef);
    case ReasoningMessageContent => AppendTextKeeps(t, e.messageId, ReasoningRef, DeltaText(e));
    case ReasoningEncryptedValue => SameIdsKeep(t, Encrypted(t.history, e));
    case ToolCallStart => OpenCallKeeps(t, ctx, e.toolCallId, e.toolCallName, e.parentMessageId);
    case ToolCallArgs => AppendArgsKeeps(t, ctx, e.toolCallId, DeltaText(e));
    case ToolCallResult => ToolResultKeeps(t, e);
    case MessagesSnapshot =>
      var h := Filter(NotActivity, e.messages);
      SnapshotsKeep(t.(history := h, streaming := {}, streamingArgs := {}), ctx, h);
    case _ =>
  }

  lemma ToolResultKeeps(t: Thread, e: Event)
    requires WellFormed(t)
    ensures WellFormed(ToolResult(t, e))
  {
    hide Find;
    SameIdsKeep(t, ToolResult(t, e).history);
  }

  lemma SameIdsKeep(t: Thread, h: seq<Message>)
    requires WellFormed(t) && |t.history| <= |h| && forall i | 0 <= i < |t.history| :: h[i].id == t.history[i].id
    ensures WellFormed(t.(history := h))
  {
    forall x | x in t.streaming ensures Find(h, x) >= 0 {
      StillThere(t.history, h, x);
    }
  }

  lemma AppendTextKeeps(t: Thread, id: string, kind: RefKind, delta: string)
    requires WellFormed(t) && !kind.CallRef?
    ensures WellFormed(AppendText(t, id, kind, delta))
  {
    hide OpenMessage;
    if id !in t.streaming {
      OpenMessageKeeps(t, id, if kind.ReasoningRef? then "reasoning" else "assistant", "", kind);
    }
    var t1 := if id in t.streaming then t
              else OpenMessage(t, id, if kind.ReasoningRef? then "reasoning" else "assistant", "", kind);
    SameIdsKeep(t1, AppendText(t, id, kind, delta).history);
  }

  lemma AppendArgsKeeps(t: Thread, ctx: RunContext, id: string, delta: string)
    requires WellFormed(t)
    ensures WellFormed(AppendArgs(t, ctx, id, delta))
  {
    hide OpenCall;
    if id !in t.streamingArgs {
      OpenCallKeeps(t, ctx, id, "", "");
    }
    var t1 := if id in t.streamingArgs then t else OpenCall(t, ctx, id, "", "");
    SameIdsKeep(t1, AppendArgs(t, ctx, id, delta).history);
  }
}
