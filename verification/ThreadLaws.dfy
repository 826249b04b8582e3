/** Where a call is mentioned, what is recorded of it, and what every event leaves alone, read from the thread before
    and after the event. */
module ThreadLaws {
  import opened Prelude
  import opened JsonDocument
  import opened Events
  import opened Threads
  import Deltas

  predicate OpensCall(e: Event) { e.typ.ToolCallStart? || e.typ.ToolCallArgs? }

  /** What a call is called by the event that opens it: arguments that come first leave it without a name. */
  function OpenedName(e: Event): string { if e.typ.ToolCallStart? then e.toolCallName else "" }

  function OpenedParent(e: Event): string { if e.typ.ToolCallStart? then e.parentMessageId else "" }

  function OpenedArgs(e: Event): string { if e.typ.ToolCallStart? then "" else DeltaText(e) }

  /** q is where the last message with this id is. */
  predicate IsLast(h: seq<Message>, q: nat, id: string) {
    q < |h| && h[q].id == id && forall k | q < k < |h| :: h[k].id != id
  }

  /** These mentions are the same, but for the arguments of this call. */
  predicate SameMentions(a: seq<MessageToolCall>, b: seq<MessageToolCall>, id: string, args: string) {
    && |a| == |b|
    && forall j | 0 <= j < |a| :: b[j] == if a[j].id == id then a[j].(arguments := args) else a[j]
  }

  predicate SameMessage(m: Message, m1: Message, id: string, args: string) {
    m1 == m.(toolCalls := m1.toolCalls) && SameMentions(m.toolCalls, m1.toolCalls, id, args)
  }

  /** One mention more, at the end of message p, which is new when p is past the history before; every other message
      is the same, but for the arguments of that call. */
  ghost predicate MentionAdded(h: seq<Message>, h1: seq<Message>, p: nat, mention: MessageToolCall) {
    var id, args := mention.id, mention.arguments;
    && p < |h1| && |h| <= |h1| <= |h| + 1 && (|h1| > |h| ==> p == |h|)
    && (forall i: nat | i < |h| && i != p :: SameMessage(h[i], h1[i], id, args))
    && (if p < |h| then
          && |h1[p].toolCalls| == |h[p].toolCalls| + 1 && h1[p].toolCalls[|h[p].toolCalls|] == mention
          && SameMessage(h[p], h1[p].(toolCalls := h1[p].toolCalls[..|h[p].toolCalls|]), id, args)
        else h1[p] == Message(h1[p].id, "assistant", NoContent, "", [mention], "", "", ""))
  }

  /** The message a new call is mentioned on: the last one with the named id, when that is an assistant message;
      without a named parent the final message, when that is an assistant message this run started; otherwise a new
      assistant message at the end, under the named id when no message has it and under a new one else. */
  ghost predicate AttachesTo(t: Thread, parent: string, h1: seq<Message>, p: nat) {
    var h, n := t.history, |t.history|;
    if parent != "" && exists q: nat :: IsLast(h, q, parent) && h[q].role == "assistant" then
      |h1| == n && IsLast(h, p, parent) && h[p].role == "assistant"
    else if parent == "" && n > 0 && h[n - 1].role == "assistant" && h[n - 1].id in t.started then
      |h1| == n && p == n - 1
    else
      && |h1| == n + 1 && p == n
      && (if parent != "" && forall i | 0 <= i < n :: h[i].id != parent then h1[n].id == parent
          else forall i | 0 <= i < n :: h[i].id != h1[n].id)
  }

  lemma FindIsLast(h: seq<Message>, id: string, q: nat)
    ensures IsLast(h, q, id) <==> Find(h, id) == q
  {
    hide Find;
  }

  lemma SetArgsSame(h: seq<Message>, id: string, args: string)
    ensures |SetArgs(h, id, args)| == |h|
    ensures forall i: nat | i < |h| :: SameMessage(h[i], SetArgs(h, id, args)[i], id, args)
  {
  }

  /** Arguments written over arguments. */
  lemma SetArgsTwice(h: seq<Message>, id: string, a: string, b: string)
    ensures SetArgs(SetArgs(h, id, a), id, b) == SetArgs(h, id, b)
  {
    forall i | 0 <= i < |h| ensures SetArgs(SetArgs(h, id, a), id, b)[i] == SetArgs(h, id, b)[i] {
      assert WithArgs(WithArgs(h[i], id, a), id, b).toolCalls == WithArgs(h[i], id, b).toolCalls;
    }
  }

  lemma RecordedMention(t: Thread, ctx: RunContext, id: string, name: string, parent: string, args: string)
    returns (p: nat)
    requires Fresh(ctx.mint)
    ensures var h1 := SetArgs(RecordCall(t, ctx, id, name, parent).history, id, args);
            && MentionAdded(t.history, h1, p, MessageToolCall(id, name, args, ""))
            && AttachesTo(t, parent, h1, p)
  {
    var (h, i) := Threads.ParentMessage(t, ctx, parent);
    p := i;
    var recorded := RecordCall(t, ctx, id, name, parent).history;
    var h1 := SetArgs(recorded, id, args);
    ParentChoice(t, ctx, parent);
    hide Threads.ParentMessage, NewParentId;
    SetArgsSame(recorded, id, args);
    assert SameMentions(recorded[p].toolCalls, h1[p].toolCalls, id, args);
    if p < |t.history| {
      assert h1[p].toolCalls[..|h[p].toolCalls|] ==
             WithArgs(h[p], id, args).toolCalls;
    } else {
      assert h1[p].toolCalls == [MessageToolCall(id, name, args, "")];
    }
  }

  lemma ParentChoice(t: Thread, ctx: RunContext, parent: string)
    requires Fresh(ctx.mint)
    ensures var (h, p) := Threads.ParentMessage(t, ctx, parent);
            && AttachesTo(t, parent, h, p)
            && (|h| == |t.history| ==> h == t.history)
            && (|h| > |t.history| ==>
                  |h| == |t.history| + 1 && p == |t.history| && h[..|t.history|] == t.history
                  && h[p] == NewMessage(h[p].id, "assistant", ""))
  {
    var h, q := t.history, Find(t.history, parent);
    FindAbsent(h, NewParentId(t, ctx, parent));
    if q >= 0 {
      FindIsLast(h, parent, q);
    }
    forall k: nat ensures IsLast(h, k, parent) <==> q == k {
      FindIsLast(h, parent, k);
    }
    hide Find;
    assert forall i | 0 <= i < |h| :: h[i].id in Ids(h);
  }

  lemma OpenedCall(t: Thread, ctx: RunContext, e: Event)
    requires WellFormed(t) && OpensCall(e) && e.toolCallId !in t.calls
    ensures var t1 := Applied(t, ctx, e);
            && t1.history == SetArgs(RecordCall(t, ctx, e.toolCallId, OpenedName(e), OpenedParent(e)).history,
                                     e.toolCallId, OpenedArgs(e))
            && t1.toolCalls == t.toolCalls + [ToolCall(ctx.run, e.toolCallId, OpenedName(e), OpenedArgs(e), None, "",
                                                       OpenedName(e) in ctx.declared)]
            && t1.calls == t.calls[e.toolCallId := |t.toolCalls|]
  {
    hide SetArgs, Threads.ParentMessage, Find;
    var r := RecordCall(t, ctx, e.toolCallId, OpenedName(e), OpenedParent(e));
    assert e.toolCallId !in t.streamingArgs;
    if e.typ.ToolCallArgs? {
      SetArgsTwice(r.history, e.toolCallId, "", DeltaText(e));
      assert "" + DeltaText(e) == DeltaText(e);
    }
  }

  /** A call new to the thread is recorded once, as a frontend call exactly when its name is declared, and mentioned
      once, at the end of the message it attaches to; every other message is left alone. */
  lemma NewCallAttaches(t: Thread, ctx: RunContext, e: Event) returns (p: nat)
    requires WellFormed(t) && Fresh(ctx.mint) && OpensCall(e) && e.toolCallId !in t.calls
    ensures var t1 := Applied(t, ctx, e);
            && MentionAdded(t.history, t1.history, p, MessageToolCall(e.toolCallId, OpenedName(e), OpenedArgs(e), ""))
            && AttachesTo(t, OpenedParent(e), t1.history, p)
            && t1.toolCalls == t.toolCalls + [ToolCall(ctx.run, e.toolCallId, OpenedName(e), OpenedArgs(e), None, "",
                                                       OpenedName(e) in ctx.declared)]
  {
    hide Applied, WellFormed, RecordCall, SetArgs, MentionAdded, AttachesTo;
    OpenedCall(t, ctx, e);
    p := RecordedMention(t, ctx, e.toolCallId, OpenedName(e), OpenedParent(e), OpenedArgs(e));
  }

  /** Arguments of a call already known: every mention says what the record says, and nothing else is touched. */
  lemma KnownCallArgs(t: Thread, ctx: RunContext, e: Event)
    requires WellFormed(t) && OpensCall(e) && e.toolCallId in t.calls
    ensures var t1, k := Applied(t, ctx, e), t.calls[e.toolCallId];
            && k < |t.toolCalls| && |t1.history| == |t.history| && t1.calls == t.calls
            && t1.toolCalls == t.toolCalls[k := t.toolCalls[k].(args := t.toolCalls[k].args + OpenedArgs(e))]
            && (e.typ.ToolCallArgs? ==>
                  forall i: nat | i < |t.history| ::
                    SameMessage(t.history[i], t1.history[i], e.toolCallId, t1.toolCalls[k].args))
            && (e.typ.ToolCallStart? ==>
                  || t1.history == t.history
                  || forall i: nat | i < |t.history| ::
                       SameMessage(t.history[i], t1.history[i], e.toolCallId, t.toolCalls[k].args))
  {
    var id, k := e.toolCallId, t.calls[e.toolCallId];
    var tc := t.toolCalls[k];
    assert t.toolCalls == t.toolCalls[k := tc.(args := tc.args + "")] by { assert tc.args + "" == tc.args; }
    SetArgsSame(t.history, id, tc.args + OpenedArgs(e));
    SetArgsSame(t.history, id, tc.args);
    SetArgsTwice(t.history, id, tc.args, tc.args + OpenedArgs(e));
    hide SetArgs, Find, RecordCall, SameMessage;
  }

  // ----- what is recorded of calls -----

  /** What an event that replaces no history does to the record: it opens one call, or sets arguments and results. */
  ghost predicate RecordsStep(t: Thread, t1: Thread, ctx: RunContext, e: Event) {
    if OpensCall(e) && e.toolCallId !in t.calls then
      && t1.toolCalls == t.toolCalls + [ToolCall(ctx.run, e.toolCallId, OpenedName(e), OpenedArgs(e), None, "",
                                                 OpenedName(e) in ctx.declared)]
      && t1.calls.Keys == t.calls.Keys + {e.toolCallId}
    else
      && |t1.toolCalls| == |t.toolCalls| && t1.calls == t.calls
      && forall i: nat | i < |t.toolCalls| ::
           t1.toolCalls[i] == t.toolCalls[i].(
             args := t1.toolCalls[i].args,
             result := if e.typ.ToolCallResult? && t.toolCalls[i].id == e.toolCallId then Some(ContentText(e.content))
                       else t.toolCalls[i].result)
  }

  lemma RecordsEach(t: Thread, ctx: RunContext, e: Event)
    requires WellFormed(t) && !e.typ.MessagesSnapshot?
    ensures RecordsStep(t, Applied(t, ctx, e), ctx, e)
  {
    if OpensCall(e) {
      hide Applied, WellFormed, SetArgs, RecordCall, SameMessage;
      if e.toolCallId !in t.calls {
        OpenedCall(t, ctx, e);
      } else {
        KnownCallArgs(t, ctx, e);
      }
    } else {
      RecordsOther(t, ctx, e);
    }
  }

  lemma RecordsOther(t: Thread, ctx: RunContext, e: Event)
    requires WellFormed(t) && !e.typ.MessagesSnapshot? && !OpensCall(e)
    ensures RecordsStep(t, Applied(t, ctx, e), ctx, e)
  {
    hide RecordsStep, Applied;
    if e.typ.ToolCallResult? {
      ResultRecorded(t, ctx, e);
    } else {
      if StreamsText(e) {
        TextLeaves(t, ctx, e);
      } else {
        StateLeaves(t, ctx, e);
      }
      NothingRecorded(t, Applied(t, ctx, e), ctx, e);
    }
  }

  lemma StateLeaves(t: Thread, ctx: RunContext, e: Event)
    requires !StreamsText(e) && !OpensCall(e) && !e.typ.ToolCallResult? && !e.typ.MessagesSnapshot?
    ensures Applied(t, ctx, e).toolCalls == t.toolCalls && Applied(t, ctx, e).calls == t.calls
  {
    hide Encrypted, ApplyPatchSpec;
  }

  lemma NothingRecorded(t: Thread, t1: Thread, ctx: RunContext, e: Event)
    requires !OpensCall(e) && !e.typ.ToolCallResult? && t1.toolCalls == t.toolCalls && t1.calls == t.calls
    ensures RecordsStep(t, t1, ctx, e)
  {
  }

  lemma ResultRecorded(t: Thread, ctx: RunContext, e: Event)
    requires WellFormed(t) && e.typ.ToolCallResult?
    ensures RecordsStep(t, Applied(t, ctx, e), ctx, e)
  {
    hide Find, Upsert, ContentText, AddRef;
  }

  // ----- messages -----

  /** A message not in the history is added at its end, under the role and name it is started with; one that is has
      its content changed and nothing else, and no other message is touched. */
  ghost predicate TextStep(t: Thread, t1: Thread, e: Event) {
    var h, h1, id := t.history, t1.history, e.messageId;
    var text := if e.typ.TextMessageStart? || e.typ.ReasoningMessageStart? then "" else DeltaText(e);
    var name := if e.typ.TextMessageStart? then e.name else "";
    if forall i | 0 <= i < |h| :: h[i].id != id then
      h1 == h + [Message(id, ProducedRole(e), Text(text), name, [], "", "", "")]
    else
      exists q: nat :: IsLast(h, q, id) && |h1| == |h| && h1 == h[q := h[q].(content := h1[q].content)]
  }

  predicate MessageAt(h: seq<Message>, h1: seq<Message>, i: int, id: string, role: string, name: string,
                      text: string)
  {
    if i < 0 then h1 == h + [Message(id, role, Text(text), name, [], "", "", "")]
    else i < |h| && |h1| == |h| && h1 == h[i := h[i].(content := h1[i].content)]
  }

  lemma OpenMessageSays(t: Thread, id: string, role: string, name: string, kind: RefKind)
    requires id in t.streaming ==> Find(t.history, id) >= 0
    ensures MessageAt(t.history, OpenMessage(t, id, role, name, kind).history, Find(t.history, id), id, role, name, "")
  {
    hide ContentText, RoleOr, AddRef;
    if Find(t.history, id) < 0 {
      var r := t.history + [NewMessage(id, role, name)];
      assert r[|t.history|].id == id;
      assert Find(r, id) == |t.history|;
      assert ContentText(NoContent) == "" by { EmptyText(); }
    }
  }

  lemma EmptyText()
    ensures ContentText(NoContent) == ""
  {
  }

  lemma AppendTextSays(t: Thread, id: string, kind: RefKind, delta: string)
    requires id in t.streaming ==> Find(t.history, id) >= 0
    ensures MessageAt(t.history, AppendText(t, id, kind, delta).history, Find(t.history, id), id,
                      if kind.ReasoningRef? then "reasoning" else "assistant", "", delta)
  {
    hide OpenMessage, ContentText, Find;
    var role := if kind.ReasoningRef? then "reasoning" else "assistant";
    var h, t1 := t.history, if id in t.streaming then t else OpenMessage(t, id, role, "", kind);
    OpenMessageSays(t, id, role, "", kind);
    if Find(h, id) >= 0 {
      FindSame(h, t1.history, id);
    } else {
      FindLast(t1.history, |h|, id);
      StartedText(delta);
    }
  }

  lemma FindLast(h: seq<Message>, n: nat, id: string)
    requires |h| == n + 1 && h[n].id == id
    ensures Find(h, id) == n
  {
  }

  lemma StartedText(delta: string)
    ensures ContentText(Text("")) + delta == delta
  {
  }

  lemma TextSays(t: Thread, ctx: RunContext, e: Event)
    requires WellFormed(t) && StreamsText(e)
    ensures TextStep(t, Applied(t, ctx, e), e)
  {
    hide OpenMessage, AppendText, Find, MessageAt, TextStep;
    var kind := if e.typ.ReasoningMessageStart? || e.typ.ReasoningMessageContent? then ReasoningRef else TextRef;
    var name := if e.typ.TextMessageStart? then e.name else "";
    OpenMessageSays(t, e.messageId, ProducedRole(e), name, kind);
    AppendTextSays(t, e.messageId, kind, DeltaText(e));
    MessageAtStep(t, Applied(t, ctx, e), e, name);
  }

  lemma MessageAtStep(t: Thread, t1: Thread, e: Event, name: string)
    requires name == if e.typ.TextMessageStart? then e.name else ""
    requires MessageAt(t.history, t1.history, Find(t.history, e.messageId), e.messageId, ProducedRole(e), name,
                       if e.typ.TextMessageStart? || e.typ.ReasoningMessageStart? then "" else DeltaText(e))
    ensures TextStep(t, t1, e)
  {
    hide Find, ProducedRole;
    var i := Find(t.history, e.messageId);
    if i >= 0 {
      FindIsLast(t.history, e.messageId, i);
      assert !forall k | 0 <= k < |t.history| :: t.history[k].id != e.messageId by {
        assert t.history[i].id == e.messageId;
      }
    }
  }

  // ----- what a run tracks -----

  /** The item an event produces, when nothing has produced it yet: a START or a result always names one, content and
      arguments only when nothing is being streamed under their id. */
  function Produces(t: Thread, e: Event): Option<ItemRef> {
    if e.typ.TextMessageStart? || (e.typ.TextMessageContent? && e.messageId !in t.streaming) then
      Some(ItemRef(TextRef, e.messageId))
    else if e.typ.ReasoningMessageStart? || (e.typ.ReasoningMessageContent? && e.messageId !in t.streaming) then
      Some(ItemRef(ReasoningRef, e.messageId))
    else if e.typ.ToolCallStart? || (e.typ.ToolCallArgs? && e.toolCallId !in t.streamingArgs) then
      Some(ItemRef(CallRef, e.toolCallId))
    else if e.typ.ToolCallResult? then Some(ItemRef(ResultRef, e.toolCallId))
    else None
  }

  /** The role under which an event produces a message. */
  function ProducedRole(e: Event): string {
    if e.typ.ReasoningMessageStart? || e.typ.ReasoningMessageContent? then "reasoning"
    else if e.typ.TextMessageStart? && e.role != "" then e.role
    else "assistant"
  }

  /** Items are listed once each in the order they are first produced; a message produced is started, under its first
      role, and so is a message made for a call. */
  ghost predicate TracksStep(t: Thread, t1: Thread, e: Event) {
    var made := Produces(t, e);
    && t1.refs == (if made.None? || made.value in t.refs then t.refs else t.refs + [made.value])
    && (StreamsText(e) ==>
          && t1.started == t.started + (if made.Some? then {e.messageId} else {})
          && (made.None? ==> t1.roles == t.roles)
          && (made.Some? ==>
                t1.roles == if e.messageId in t.roles && t.roles[e.messageId] != "" then t.roles
                            else t.roles[e.messageId := ProducedRole(e)]))
    && (!StreamsText(e) ==>
          && t1.started ==
               t.started + (if OpensCall(e) && |t1.history| > |t.history| then {t1.history[|t.history|].id} else {})
          && (!(OpensCall(e) && |t1.history| > |t.history|) ==> t1.roles == t.roles))
  }

  lemma OpenMessageTracks(t: Thread, id: string, role: string, name: string, kind: RefKind)
    ensures var t1 := OpenMessage(t, id, role, name, kind);
            && t1.refs == (if ItemRef(kind, id) in t.refs then t.refs else t.refs + [ItemRef(kind, id)])
            && t1.started == t.started + {id} && id in t1.streaming
            && t1.roles == if id in t.roles && t.roles[id] != "" then t.roles else t.roles[id := role]
  {
    hide WithMessage, Find, ContentText;
  }

  lemma AppendTextTracks(t: Thread, id: string, kind: RefKind, delta: string)
    ensures var t1 := AppendText(t, id, kind, delta);
            var role := if kind.ReasoningRef? then "reasoning" else "assistant";
            var t0 := if id in t.streaming then t else OpenMessage(t, id, role, "", kind);
            t1.refs == t0.refs && t1.started == t0.started && t1.roles == t0.roles
  {
    hide OpenMessage, Find, ContentText;
  }

  lemma TracksText(t: Thread, ctx: RunContext, e: Event)
    requires StreamsText(e)
    ensures TracksStep(t, Applied(t, ctx, e), e)
  {
    hide OpenMessage, AppendText;
    var kind := if e.typ.ReasoningMessageStart? || e.typ.ReasoningMessageContent? then ReasoningRef else TextRef;
    var name := if e.typ.TextMessageStart? then e.name else "";
    OpenMessageTracks(t, e.messageId, ProducedRole(e), name, kind);
    AppendTextTracks(t, e.messageId, kind, DeltaText(e));
  }

  /** A call opened for the first time tracks what recording it does, and its item. */
  lemma NewCallTracks(t: Thread, ctx: RunContext, e: Event)
    requires WellFormed(t) && OpensCall(e) && e.toolCallId !in t.calls
    ensures var t1, r := Applied(t, ctx, e), RecordCall(t, ctx, e.toolCallId, OpenedName(e), OpenedParent(e));
            && t1.refs == AddRef(t.refs, ItemRef(CallRef, e.toolCallId)) && e.toolCallId !in t.streamingArgs
            && t1.started == r.started && t1.roles == r.roles
  {
    hide SetArgs, Threads.ParentMessage, AddRef, Indexed;
  }

  lemma KnownCallTracks(t: Thread, ctx: RunContext, e: Event)
    requires WellFormed(t) && OpensCall(e) && e.toolCallId in t.calls
    ensures var t1 := Applied(t, ctx, e);
            && t1.started == t.started && t1.roles == t.roles
            && t1.refs == if Produces(t, e).Some? then AddRef(t.refs, ItemRef(CallRef, e.toolCallId)) else t.refs
  {
    hide SetArgs, RecordCall, AddRef, Indexed;
  }

  lemma RecordCallTracks(t: Thread, ctx: RunContext, id: string, name: string, parent: string, args: string)
    ensures var r := RecordCall(t, ctx, id, name, parent);
            var h1 := SetArgs(r.history, id, args);
            && r.started == t.started + (if |h1| > |t.history| then {h1[|t.history|].id} else {})
            && (|h1| <= |t.history| ==> r.roles == t.roles)
  {
    hide SetArgs, Find, NewParentId;
    SetArgsSame(RecordCall(t, ctx, id, name, parent).history, id, args);
  }

  lemma TracksCall(t: Thread, ctx: RunContext, e: Event)
    requires WellFormed(t) && OpensCall(e)
    ensures TracksStep(t, Applied(t, ctx, e), e)
  {
    hide Applied, WellFormed, RecordCall, SetArgs, SameMessage;
    if e.toolCallId in t.calls {
      KnownCallTracks(t, ctx, e);
      KnownCallArgs(t, ctx, e);
    } else {
      NewCallTracks(t, ctx, e);
      OpenedCall(t, ctx, e);
      RecordCallTracks(t, ctx, e.toolCallId, OpenedName(e), OpenedParent(e), OpenedArgs(e));
    }
  }

  lemma TracksOther(t: Thread, ctx: RunContext, e: Event)
    requires !StreamsText(e) && !OpensCall(e) && !e.typ.MessagesSnapshot?
    ensures TracksStep(t, Applied(t, ctx, e), e)
  {
    hide Encrypted, Upsert, ApplyPatchSpec, CallIndex;
  }

  lemma TracksEach(t: Thread, ctx: RunContext, e: Event)
    requires WellFormed(t) && !e.typ.MessagesSnapshot?
    ensures TracksStep(t, Applied(t, ctx, e), e)
  {
    hide *;
    if StreamsText(e) {
      TracksText(t, ctx, e);
    } else if OpensCall(e) {
      TracksCall(t, ctx, e);
    } else {
      TracksOther(t, ctx, e);
    }
  }

  // ----- results, snapshots, state -----

  /** A tool result becomes the last message of its id, in place or at the end, and touches no other message. */
  lemma ResultMessage(t: Thread, ctx: RunContext, e: Event)
    requires e.typ.ToolCallResult?
    ensures var h, h1 := t.history, Applied(t, ctx, e).history;
            var m := Message(e.messageId, "tool", e.content, "", [], e.toolCallId, "", "");
            if exists q: nat :: IsLast(h, q, e.messageId) then
              exists q: nat :: IsLast(h, q, e.messageId) && h1 == h[q := m]
            else h1 == h + [m]
    ensures var t1 := Applied(t, ctx, e);
            t1 == t.(history := t1.history, toolCalls := t1.toolCalls, refs := t1.refs)
  {
    var q := Find(t.history, e.messageId);
    forall k: nat ensures IsLast(t.history, k, e.messageId) <==> q == k {
      FindIsLast(t.history, e.messageId, k);
    }
    if q >= 0 {
      assert IsLast(t.history, q, e.messageId);
    }
    hide Find, IsLast, ContentText;
  }

  /** A state snapshot sets the state and nothing else; a state delta sets it to what the patch gives, when it gives
      anything. */
  lemma StateEvents(t: Thread, ctx: RunContext, e: Event)
    requires e.typ.StateSnapshot? || e.typ.StateDelta?
    ensures var t1 := Applied(t, ctx, e);
            && t1 == t.(state := t1.state)
            && (e.typ.StateSnapshot? ==> t1.state == if e.snapshot.Some? then e.snapshot.value else t.state)
            && (e.typ.StateDelta? ==>
                  if e.patch.Some? && ApplyPatchSpec(t.state, e.patch.value).Some?
                  then Some(t1.state) == ApplyPatchSpec(t.state, e.patch.value) else t1.state == t.state)
  {
    hide ApplyPatchSpec;
  }

  predicate StreamsText(e: Event) {
    || e.typ.TextMessageStart? || e.typ.TextMessageContent?
    || e.typ.ReasoningMessageStart? || e.typ.ReasoningMessageContent?
  }

  predicate ChangesThread(e: Event) {
    || StreamsText(e) || OpensCall(e) || e.typ.ToolCallResult? || e.typ.ReasoningEncryptedValue?
    || e.typ.StateSnapshot? || e.typ.StateDelta? || e.typ.MessagesSnapshot?
  }

  /** Text and reasoning leave calls and state alone. */
  lemma TextLeaves(t: Thread, ctx: RunContext, e: Event)
    requires StreamsText(e)
    ensures var t1 := Applied(t, ctx, e);
            && t1.toolCalls == t.toolCalls && t1.calls == t.calls && t1.state == t.state
            && t1.streamingArgs == t.streamingArgs
  {
    hide OpenMessage, AppendText;
    OpenMessageLeaves(t, e.messageId, if e.role == "" then "assistant" else e.role, e.name, TextRef);
    OpenMessageLeaves(t, e.messageId, "reasoning", "", ReasoningRef);
    AppendTextLeaves(t, e.messageId, TextRef, DeltaText(e));
    AppendTextLeaves(t, e.messageId, ReasoningRef, DeltaText(e));
  }

  lemma OpenMessageLeaves(t: Thread, id: string, role: string, name: string, kind: RefKind)
    ensures var t1 := OpenMessage(t, id, role, name, kind);
            && t1.toolCalls == t.toolCalls && t1.calls == t.calls && t1.state == t.state
            && t1.streamingArgs == t.streamingArgs
  {
    hide WithMessage, Find, ContentText, RoleOr, AddRef;
  }

  lemma AppendTextLeaves(t: Thread, id: string, kind: RefKind, delta: string)
    ensures var t1 := AppendText(t, id, kind, delta);
            && t1.toolCalls == t.toolCalls && t1.calls == t.calls && t1.state == t.state
            && t1.streamingArgs == t.streamingArgs
  {
    hide OpenMessage, Find, ContentText;
    OpenMessageLeaves(t, id, if kind.ReasoningRef? then "reasoning" else "assistant", "", kind);
  }

  /** Calls leave the state and the recorded texts alone. */
  lemma CallsLeave(t: Thread, ctx: RunContext, e: Event)
    requires OpensCall(e)
    ensures var t1 := Applied(t, ctx, e);
            t1.state == t.state && t1.texts == t.texts && t1.streaming == t.streaming
  {
    hide OpenCall, AppendArgs;
    OpenCallLeaves(t, ctx, e.toolCallId, OpenedName(e), OpenedParent(e));
    AppendArgsLeaves(t, ctx, e.toolCallId, DeltaText(e));
  }

  lemma OpenCallLeaves(t: Thread, ctx: RunContext, id: string, name: string, parent: string)
    ensures var t1 := OpenCall(t, ctx, id, name, parent);
            t1.state == t.state && t1.texts == t.texts && t1.streaming == t.streaming
  {
    hide Threads.ParentMessage, SetArgs, AddRef;
  }

  lemma AppendArgsLeaves(t: Thread, ctx: RunContext, id: string, delta: string)
    ensures var t1 := AppendArgs(t, ctx, id, delta);
            t1.state == t.state && t1.texts == t.texts && t1.streaming == t.streaming
  {
    hide OpenCall, SetArgs;
    OpenCallLeaves(t, ctx, id, "", "");
  }

  /** An encrypted value changes the history alone, and what is neither a message, a call, a state nor a snapshot
      changes nothing. */
  lemma OthersLeave(t: Thread, ctx: RunContext, e: Event)
    ensures e.typ.ReasoningEncryptedValue? ==> Applied(t, ctx, e) == t.(history := Encrypted(t.history, e))
    ensures !ChangesThread(e) ==> Applied(t, ctx, e) == t
  {
    hide OpenMessage, AppendText, OpenCall, AppendArgs, ToolResult, Encrypted, Snapshot;
  }

  /** An encrypted value goes to the first message or mention it belongs to, and nowhere else. */
  predicate Belongs(m: Message, subtype: string, id: string) {
    || (subtype == "message" && m.id == id)
    || (subtype == "tool-call" && exists j :: 0 <= j < |m.toolCalls| && m.toolCalls[j].id == id)
  }

  lemma EncryptedGoesTo(h: seq<Message>, e: Event)
    ensures (forall i | 0 <= i < |h| :: !Belongs(h[i], e.subtype, e.entityId)) ==> Encrypted(h, e) == h
    ensures |Encrypted(h, e)| == |h|
    ensures forall i: nat | i < |h| && Belongs(h[i], e.subtype, e.entityId)
                            && (forall k | 0 <= k < i :: !Belongs(h[k], e.subtype, e.entityId)) ::
              && (forall k | 0 <= k < |h| && k != i :: Encrypted(h, e)[k] == h[k])
              && (e.subtype == "message" ==> Encrypted(h, e)[i] == h[i].(encryptedValue := e.encryptedValue))
              && (e.subtype == "tool-call" ==>
                    exists j: nat :: FirstMention(h[i].toolCalls, j, e.entityId)
                                     && Encrypted(h, e)[i] == WithValue(h[i], j, e.encryptedValue))
  {
    FirstBelongs(h, e.subtype, e.entityId, 0);
  }

  predicate FirstMention(tcs: seq<MessageToolCall>, j: nat, id: string) {
    j < |tcs| && tcs[j].id == id && forall k | 0 <= k < j :: tcs[k].id != id
  }

  function WithValue(m: Message, j: nat, value: string): Message
    requires j < |m.toolCalls|
  {
    m.(toolCalls := m.toolCalls[j := m.toolCalls[j].(encryptedValue := value)])
  }

  lemma {:induction false} FirstCallAt(tcs: seq<MessageToolCall>, id: string, from: nat)
    requires from <= |tcs| && forall k | 0 <= k < from :: tcs[k].id != id
    ensures var j := CallAt(tcs, id, from);
            if j.Some? then FirstMention(tcs, j.value, id) else forall k | 0 <= k < |tcs| :: tcs[k].id != id
    decreases |tcs| - from
  {
    if from < |tcs| && tcs[from].id != id {
      FirstCallAt(tcs, id, from + 1);
    }
  }

  lemma {:induction false} FirstBelongs(h: seq<Message>, subtype: string, id: string, from: nat)
    requires from <= |h| && forall k | 0 <= k < from :: !Belongs(h[k], subtype, id)
    ensures var at := EncryptedAt(h, subtype, id, from);
            match at
            case None => forall k | 0 <= k < |h| :: !Belongs(h[k], subtype, id)
            case Some((i, j)) =>
              && Belongs(h[i], subtype, id) && (forall k | 0 <= k < i :: !Belongs(h[k], subtype, id))
              && (j.None? <==> subtype == "message") && (j.Some? ==> FirstMention(h[i].toolCalls, j.value, id))
    decreases |h| - from
  {
    if from < |h| {
      FirstCallAt(h[from].toolCalls, id, 0);
      if !Belongs(h[from], subtype, id) {
        FirstBelongs(h, subtype, id, from + 1);
      }
    }
  }

  // ----- snapshots -----

  /** A call on record keeps its place and everything but a result it did not have. */
  ghost predicate RecordKept(t: Thread, t1: Thread) {
    && |t.toolCalls| <= |t1.toolCalls|
    && (forall id | id in t.calls :: id in t1.calls && t1.calls[id] == t.calls[id])
    && forall i: nat | i < |t.toolCalls| ::
         && t1.toolCalls[i] == t.toolCalls[i].(result := t1.toolCalls[i].result)
         && (t.toolCalls[i].result.Some? ==> t1.toolCalls[i].result == t.toolCalls[i].result)
  }

  lemma KeptTwice(t: Thread, t1: Thread, t2: Thread)
    requires RecordKept(t, t1) && RecordKept(t1, t2)
    ensures RecordKept(t, t2)
  {
  }

  lemma {:induction false} SnapshotCallsKept(t: Thread, ctx: RunContext, tcs: seq<MessageToolCall>)
    ensures RecordKept(t, RecordSnapshotCalls(t, ctx, tcs))
    ensures forall tc | tc in tcs :: tc.id in RecordSnapshotCalls(t, ctx, tcs).calls
    ensures RecordSnapshotCalls(t, ctx, tcs).history == t.history && RecordSnapshotCalls(t, ctx, tcs).state == t.state
    ensures RecordSnapshotCalls(t, ctx, tcs).streaming == t.streaming
    ensures RecordSnapshotCalls(t, ctx, tcs).streamingArgs == t.streamingArgs
  {
    if tcs != [] {
      var front, tc := tcs[..|tcs| - 1], tcs[|tcs| - 1];
      assert tcs == front + [tc];
      SnapshotCallsKept(t, ctx, front);
      var t1 := RecordSnapshotCalls(t, ctx, front);
      assert RecordKept(t1, RecordSnapshotCall(t1, ctx, tc));
      KeptTwice(t, t1, RecordSnapshotCall(t1, ctx, tc));
    }
  }

  /** What the run produced only through a message of the snapshot is on record afterwards. */
  ghost predicate Recorded(t: Thread, ctx: RunContext, m: Message) {
    m.id !in ctx.before && (m.role == "assistant" || m.role == "reasoning") ==>
      && m.id in t.texts
      && (forall tc | tc in m.toolCalls :: tc.id in t.calls)
  }

  lemma SnapshotMessageKept(t: Thread, ctx: RunContext, m: Message)
    ensures var t1 := RecordSnapshot(t, ctx, m);
            && RecordKept(t, t1) && Recorded(t1, ctx, m) && t1.history == t.history && t1.state == t.state
            && t1.streaming == t.streaming && t1.streamingArgs == t.streamingArgs && t.texts.Keys <= t1.texts.Keys
  {
    var t1 := t.(texts := t.texts[m.id := ContentText(m.content)], roles := RoleOr(t.roles, m.id, m.role));
    var kind := if m.role == "reasoning" then ReasoningRef else TextRef;
    var t2 := t1.(refs := AddRef(t1.refs, ItemRef(kind, m.id)));
    SnapshotCallsKept(t1, ctx, m.toolCalls);
    SnapshotCallsKept(t2, ctx, m.toolCalls);
    SnapshotCallsTexts(t1, ctx, m.toolCalls);
    SnapshotCallsTexts(t2, ctx, m.toolCalls);
    hide RecordSnapshotCalls, ContentText, AddRef, RoleOr;
  }

  lemma {:induction false} SnapshotCallsTexts(t: Thread, ctx: RunContext, tcs: seq<MessageToolCall>)
    ensures RecordSnapshotCalls(t, ctx, tcs).texts == t.texts
  {
    if tcs != [] {
      SnapshotCallsTexts(t, ctx, tcs[..|tcs| - 1]);
    }
  }

  lemma {:induction false} SnapshotsKept(t: Thread, ctx: RunContext, ms: seq<Message>)
    ensures var t1 := RecordSnapshots(t, ctx, ms);
            && RecordKept(t, t1) && (forall m | m in ms :: Recorded(t1, ctx, m))
            && t1.history == t.history && t1.state == t.state
            && t1.streaming == t.streaming && t1.streamingArgs == t.streamingArgs && t.texts.Keys <= t1.texts.Keys
  {
    hide RecordSnapshot, RecordKept, Recorded;
    if ms != [] {
      var front, m := ms[..|ms| - 1], ms[|ms| - 1];
      assert ms == front + [m];
      SnapshotsKept(t, ctx, front);
      var t1 := RecordSnapshots(t, ctx, front);
      SnapshotMessageKept(t1, ctx, m);
      var t2 := RecordSnapshot(t1, ctx, m);
      KeptTwice(t, t1, t2);
      forall k | k in front ensures Recorded(t2, ctx, k) {
        StillRecorded(t1, t2, ctx, k);
      }
    } else {
      assert RecordKept(t, t) by { KeptItself(t); }
    }
  }

  lemma KeptItself(t: Thread)
    ensures RecordKept(t, t)
  {
  }

  lemma StillRecorded(t: Thread, t1: Thread, ctx: RunContext, m: Message)
    requires Recorded(t, ctx, m) && RecordKept(t, t1) && t.texts.Keys <= t1.texts.Keys
    ensures Recorded(t1, ctx, m)
  {
  }

  /** A messages snapshot replaces the history by the messages it lists, activity apart, and ends all streaming; calls
      on record keep everything but a missing result, and what the run produced only through it is on record. */
  lemma SnapshotReplaces(t: Thread, ctx: RunContext, e: Event)
    requires e.typ.MessagesSnapshot?
    ensures var t1 := Applied(t, ctx, e);
            && t1.history == Filter((m: Message) => m.role != "activity", e.messages)
            && t1.streaming == {} && t1.streamingArgs == {} && t1.state == t.state && RecordKept(t, t1)
            && forall m | m in e.messages && m.role != "activity" :: Recorded(t1, ctx, m)
  {
    hide RecordSnapshots, Recorded;
    var h := Filter(NotActivity, e.messages);
    FilterSame(NotActivity, (m: Message) => m.role != "activity", e.messages);
    SnapshotsKept(t.(history := h, streaming := {}, streamingArgs := {}), ctx, h);
    forall m | m in e.messages && m.role != "activity" ensures m in h {
      FilterMember(NotActivity, e.messages, m);
    }
  }

  // ----- message text -----

  lemma {:induction false} JoinMore(texts: seq<string>, last: string)
    ensures JoinTexts(texts + [last]) == if texts == [] then last else JoinTexts(texts) + "\n" + last
  {
    if |texts| > 1 {
      var rest := texts[1..];
      assert (texts + [last])[1..] == rest + [last];
      JoinMore(rest, last);
      calc {
        JoinTexts(texts + [last]);
        texts[0] + "\n" + (JoinTexts(rest) + "\n" + last);
        (texts[0] + "\n" + JoinTexts(rest)) + "\n" + last;
      }
    }
  }

  const IsText := (p: Part) => p.typ == "text"
  const ItsText := (p: Part) => p.text

  lemma PartsTextIs(parts: seq<Part>)
    ensures ContentText(Parts(parts)) == JoinTexts(Map(ItsText, Filter(IsText, parts)))
  {
    FilterSame((p: Part) => p.typ == "text", IsText, parts);
    assert Map((p: Part) => p.text, Filter(IsText, parts)) == Map(ItsText, Filter(IsText, parts));
  }

  /** The text of a list of parts is the texts of its text parts, a newline between them. */
  lemma PartsSay(parts: seq<Part>, last: Part)
    ensures var text := ContentText(Parts(parts));
            ContentText(Parts(parts + [last])) ==
              if last.typ != "text" then text
              else if forall p | p in parts :: p.typ != "text" then last.text
              else text + "\n" + last.text
  {
    var kept := Filter(IsText, parts);
    PartsTextIs(parts);
    PartsTextIs(parts + [last]);
    FilterConcat(IsText, parts, [last]);
    forall p ensures p in kept <==> p in parts && p.typ == "text" {
      FilterMember(IsText, parts, p);
    }
    if kept != [] {
      assert kept[0] in kept;
    }
    assert Filter(IsText, [last]) == if IsText(last) then [last] else [];
    assert Map(ItsText, kept + [last]) == Map(ItsText, kept) + [last.text];
    assert kept + [] == kept;
    JoinMore(Map(ItsText, kept), last.text);
  }
}
