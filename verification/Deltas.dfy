/** What a run's deltas add up to: a message's text is what it was plus its content deltas in order, and a call's
    arguments are its argument deltas in order, however the events of other messages and calls are mixed in. */
module Deltas {
  import opened Prelude
  import opened Events
  import opened Threads

  /** The arguments of the call with this id; "" when it is unknown. */
  function ArgsOf(t: Thread, id: string): string {
    var k := CallIndex(t, id);
    if k >= 0 then t.toolCalls[k].args else ""
  }

  function TextDelta(e: Event, id: string): string {
    if (e.typ.TextMessageContent? || e.typ.ReasoningMessageContent?) && e.messageId == id then DeltaText(e) else ""
  }

  function ArgsDelta(e: Event, id: string): string {
    if e.typ.ToolCallArgs? && e.toolCallId == id then DeltaText(e) else ""
  }

  function TextDeltas(es: seq<Event>, id: string): string {
    if es == [] then "" else TextDeltas(es[..|es| - 1], id) + TextDelta(es[|es| - 1], id)
  }

  function ArgsDeltas(es: seq<Event>, id: string): string {
    if es == [] then "" else ArgsDeltas(es[..|es| - 1], id) + ArgsDelta(es[|es| - 1], id)
  }

  /** Nothing in h1 speaks differently of message id than h does. */
  predicate SameText(h: seq<Message>, h1: seq<Message>, id: string) {
    && |h| <= |h1|
    && (forall i | 0 <= i < |h| ::
          h1[i].id == h[i].id && (h[i].id == id ==> ContentText(h1[i].content) == ContentText(h[i].content)))
    && (forall i | |h| <= i < |h1| :: h1[i].id == id ==> Find(h, id) < 0 && ContentText(h1[i].content) == "")
  }

  lemma SameTextKeeps(h: seq<Message>, h1: seq<Message>, id: string)
    requires SameText(h, h1, id)
    ensures TextOf(h1, id) == TextOf(h, id)
  {
    hide ContentText;
    var i, j := Find(h, id), Find(h1, id);
    if i >= 0 {
      assert h1[i].id == id;
      assert i == j;
    } else if j >= 0 {
      assert j >= |h|;
    }
  }

  lemma NewParentIsNew(t: Thread, ctx: RunContext, parent: string)
    requires Fresh(ctx.mint)
    ensures Find(t.history, NewParentId(t, ctx, parent)) < 0
  {
    FindAbsent(t.history, NewParentId(t, ctx, parent));
  }

  lemma ParentMessageKeepsText(t: Thread, ctx: RunContext, parent: string, id: string)
    requires Fresh(ctx.mint)
    ensures SameText(t.history, ParentMessage(t, ctx, parent).0, id)
  {
    hide Find, NewParentId;
    NewParentIsNew(t, ctx, parent);
  }

  lemma SetArgsKeepsText(h: seq<Message>, call: string, args: string, id: string)
    ensures SameText(h, SetArgs(h, call, args), id)
  {
    hide ContentText;
  }

  lemma SameTextChain(h: seq<Message>, h1: seq<Message>, h2: seq<Message>, id: string)
    requires SameText(h, h1, id) && SameText(h1, h2, id)
    ensures SameText(h, h2, id)
  {
    hide ContentText;
    if Find(h, id) >= 0 {
      StillThere(h, h1, id);
    }
  }

  lemma RecordCallKeepsText(t: Thread, ctx: RunContext, call: string, name: string, parent: string, id: string)
    requires Fresh(ctx.mint)
    ensures SameText(t.history, RecordCall(t, ctx, call, name, parent).history, id)
  {
    hide ContentText, Find;
    ParentMessageKeepsText(t, ctx, parent, id);
  }

  lemma OpenCallKeepsText(t: Thread, ctx: RunContext, call: string, name: string, parent: string, id: string)
    requires Fresh(ctx.mint)
    ensures SameText(t.history, OpenCall(t, ctx, call, name, parent).history, id)
  {
    hide RecordCall, SetArgs, SameText;
    assert SameText(t.history, t.history, id) by { ItsOwnText(t.history, id); }
    RecordCallKeepsText(t, ctx, call, name, parent, id);
    var t1 := if call in t.calls then t else RecordCall(t, ctx, call, name, parent);
    var k := CallIndex(t1, call);
    if k >= 0 {
      SetArgsKeepsText(t1.history, call, t1.toolCalls[k].args, id);
      SameTextChain(t.history, t1.history, SetArgs(t1.history, call, t1.toolCalls[k].args), id);
    }
  }

  lemma ItsOwnText(h: seq<Message>, id: string)
    ensures SameText(h, h, id)
  {
  }

  lemma AppendArgsKeepsText(t: Thread, ctx: RunContext, call: string, delta: string, id: string)
    requires Fresh(ctx.mint)
    ensures SameText(t.history, AppendArgs(t, ctx, call, delta).history, id)
  {
    hide OpenCall, SetArgs, SameText;
    ItsOwnText(t.history, id);
    OpenCallKeepsText(t, ctx, call, "", "", id);
    var t1 := if call in t.streamingArgs then t else OpenCall(t, ctx, call, "", "");
    var k := CallIndex(t1, call);
    if k >= 0 {
      SetArgsKeepsText(t1.history, call, t1.toolCalls[k].args + delta, id);
      SameTextChain(t.history, t1.history, SetArgs(t1.history, call, t1.toolCalls[k].args + delta), id);
    }
  }

  lemma OpenMessageKeepsText(t: Thread, m: string, role: string, name: string, kind: RefKind, id: string)
    ensures SameText(t.history, OpenMessage(t, m, role, name, kind).history, id)
  {
    hide Find, RoleOr, AddRef;
  }

  lemma AppendTextAdds(t: Thread, m: string, kind: RefKind, delta: string, id: string)
    requires WellFormed(t) && !kind.CallRef?
    ensures TextOf(AppendText(t, m, kind, delta).history, id) == TextOf(t.history, id) + if m == id then delta else ""
  {
    var role := if kind.ReasoningRef? then "reasoning" else "assistant";
    var t1 := if m in t.streaming then t else OpenMessage(t, m, role, "", kind);
    if m !in t.streaming {
      OpenMessageKeepsText(t, m, role, "", kind, id);
      SameTextKeeps(t.history, t1.history, id);
      OpenMessageKeeps(t, m, role, "", kind);
    }
    assert Find(t1.history, m) >= 0;
    SetContentText(t1.history, m, ContentText(t1.history[Find(t1.history, m)].content) + delta, id);
  }

  lemma SetContentText(h: seq<Message>, m: string, s: string, id: string)
    requires Find(h, m) >= 0
    ensures TextOf(SetContent(h, Find(h, m), Text(s)), id) == if m == id then s else TextOf(h, id)
  {
    var h1 := SetContent(h, Find(h, m), Text(s));
    assert forall k | 0 <= k < |h| :: h1[k].id == h[k].id;
    FindSame(h, h1, id);
  }

  /** One event adds its own delta to the message it names and nothing to any other. */
  lemma TextStep(t: Thread, ctx: RunContext, e: Event, id: string)
    requires WellFormed(t) && Fresh(ctx.mint)
    requires !e.typ.MessagesSnapshot? && !(e.typ.ToolCallResult? && e.messageId == id)
    ensures TextOf(Applied(t, ctx, e).history, id) == TextOf(t.history, id) + TextDelta(e, id)
  {
    hide OpenMessage, AppendText, OpenCall, AppendArgs, TextOf, Encrypted, WellFormed, SameText;
    var h1 := Applied(t, ctx, e).history;
    match e.typ
    case TextMessageContent => AppendTextAdds(t, e.messageId, TextRef, DeltaText(e), id);
    case ReasoningMessageContent => AppendTextAdds(t, e.messageId, ReasoningRef, DeltaText(e), id);
    case _ =>
      OtherEventsKeepText(t, ctx, e, id);
      SameTextKeeps(t.history, h1, id);
  }

  lemma OtherEventsKeepText(t: Thread, ctx: RunContext, e: Event, id: string)
    requires Fresh(ctx.mint)
    requires !e.typ.MessagesSnapshot? && !(e.typ.ToolCallResult? && e.messageId == id)
    requires !e.typ.TextMessageContent? && !e.typ.ReasoningMessageContent?
    ensures SameText(t.history, Applied(t, ctx, e).history, id)
  {
    hide OpenMessage, AppendText, OpenCall, AppendArgs, ToolResult, Encrypted, SameText;
    ItsOwnText(t.history, id);
    match e.typ
    case TextMessageStart =>
      OpenMessageKeepsText(t, e.messageId, if e.role == "" then "assistant" else e.role, e.name, TextRef, id);
    case ReasoningMessageStart => OpenMessageKeepsText(t, e.messageId, "reasoning", "", ReasoningRef, id);
    case ReasoningEncryptedValue => EncryptedKeepsText(t.history, e, id);
    case ToolCallStart => OpenCallKeepsText(t, ctx, e.toolCallId, e.toolCallName, e.parentMessageId, id);
    case ToolCallArgs => AppendArgsKeepsText(t, ctx, e.toolCallId, DeltaText(e), id);
    case ToolCallResult => ToolResultKeepsText(t, e, id);
    case _ =>
  }

  lemma EncryptedKeepsText(h: seq<Message>, e: Event, id: string)
    ensures SameText(h, Encrypted(h, e), id)
  {
    hide ContentText, Find;
  }

  lemma ToolResultKeepsText(t: Thread, e: Event, id: string)
    requires e.messageId != id
    ensures SameText(t.history, ToolResult(t, e).history, id)
  {
    hide ContentText, Find;
  }

  /** A message's text after a run is its text before it and its content deltas, in order. */
  lemma {:induction false} TextIsItsDeltas(t: Thread, ctx: RunContext, es: seq<Event>, id: string)
    requires WellFormed(t) && Fresh(ctx.mint)
    requires forall e | e in es :: !e.typ.MessagesSnapshot? && !(e.typ.ToolCallResult? && e.messageId == id)
    ensures WellFormed(AppliedAll(t, ctx, es))
    ensures TextOf(AppliedAll(t, ctx, es).history, id) == TextOf(t.history, id) + TextDeltas(es, id)
  {
    hide Applied, WellFormed, TextOf, TextDelta;
    if es != [] {
      var t1 := AppliedAll(t, ctx, es[..|es| - 1]);
      TextIsItsDeltas(t, ctx, es[..|es| - 1], id);
      assert es[|es| - 1] in es;
      AppliedKeeps(t1, ctx, es[|es| - 1]);
      TextStep(t1, ctx, es[|es| - 1], id);
    }
  }

  lemma RecordCallArgs(t: Thread, ctx: RunContext, call: string, name: string, parent: string, id: string)
    requires WellFormed(t) && call !in t.calls
    ensures ArgsOf(RecordCall(t, ctx, call, name, parent), id) == ArgsOf(t, id)
  {
    hide ParentMessage, Find;
  }

  lemma OpenCallArgs(t: Thread, ctx: RunContext, call: string, name: string, parent: string, id: string)
    requires WellFormed(t)
    ensures ArgsOf(OpenCall(t, ctx, call, name, parent), id) == ArgsOf(t, id)
  {
    hide RecordCall, WellFormed, AddRef;
    if call !in t.calls {
      RecordCallArgs(t, ctx, call, name, parent, id);
    }
  }

  lemma AppendArgsAdds(t: Thread, ctx: RunContext, call: string, delta: string, id: string)
    requires WellFormed(t)
    ensures ArgsOf(AppendArgs(t, ctx, call, delta), id) == ArgsOf(t, id) + if call == id then delta else ""
  {
    hide OpenCall, Find;
    var t1 := if call in t.streamingArgs then t else OpenCall(t, ctx, call, "", "");
    if call !in t.streamingArgs {
      OpenCallArgs(t, ctx, call, "", "", id);
      OpenCallKeeps(t, ctx, call, "", "");
    }
    assert CallIndex(t1, call) == t1.calls[call];
    if id != call && id in t1.calls {
      assert t1.calls[id] != t1.calls[call];
    }
  }

  lemma ArgsStep(t: Thread, ctx: RunContext, e: Event, id: string)
    requires WellFormed(t) && !e.typ.MessagesSnapshot?
    ensures ArgsOf(Applied(t, ctx, e), id) == ArgsOf(t, id) + ArgsDelta(e, id)
  {
    hide OpenMessage, OpenCall, AppendArgs, WellFormed, Encrypted, Find;
    match e.typ
    case ToolCallStart => OpenCallArgs(t, ctx, e.toolCallId, e.toolCallName, e.parentMessageId, id);
    case ToolCallArgs => AppendArgsAdds(t, ctx, e.toolCallId, DeltaText(e), id);
    case TextMessageStart =>
      MessagesKeepCalls(t, e.messageId, if e.role == "" then "assistant" else e.role, e.name, TextRef, "");
    case ReasoningMessageStart => MessagesKeepCalls(t, e.messageId, "reasoning", "", ReasoningRef, "");
    case TextMessageContent => MessagesKeepCalls(t, e.messageId, "assistant", "", TextRef, DeltaText(e));
    case ReasoningMessageContent => MessagesKeepCalls(t, e.messageId, "reasoning", "", ReasoningRef, DeltaText(e));
    case _ =>
  }

  lemma MessagesKeepCalls(t: Thread, id: string, role: string, name: string, kind: RefKind, delta: string)
    ensures OpenMessage(t, id, role, name, kind).toolCalls == t.toolCalls
    ensures OpenMessage(t, id, role, name, kind).calls == t.calls
    ensures AppendText(t, id, kind, delta).toolCalls == t.toolCalls && AppendText(t, id, kind, delta).calls == t.calls
  {
    hide Find, ContentText, WithMessage;
  }

  /** A call's arguments after a run are its arguments before it and its argument deltas, in order. */
  lemma {:induction false} ArgsAreTheirDeltas(t: Thread, ctx: RunContext, es: seq<Event>, id: string)
    requires WellFormed(t) && forall e | e in es :: !e.typ.MessagesSnapshot?
    ensures WellFormed(AppliedAll(t, ctx, es))
    ensures ArgsOf(AppliedAll(t, ctx, es), id) == ArgsOf(t, id) + ArgsDeltas(es, id)
  {
    hide Applied, WellFormed, ArgsOf, ArgsDelta;
    if es != [] {
      var t1 := AppliedAll(t, ctx, es[..|es| - 1]);
      ArgsAreTheirDeltas(t, ctx, es[..|es| - 1], id);
      assert es[|es| - 1] in es;
      AppliedKeeps(t1, ctx, es[|es| - 1]);
      ArgsStep(t1, ctx, es[|es| - 1], id);
    }
  }

  // ----- the texts recorded beside the messages -----

  /** Every message being streamed has its text on record, and every message this run produced is being streamed. */
  ghost predicate OnRecord(t: Thread) {
    && (forall id | id in t.streaming :: id in t.texts && t.texts[id] == TextOf(t.history, id))
    && (forall ref | ref in t.refs && (ref.kind.TextRef? || ref.kind.ReasoningRef?) :: ref.id in t.streaming)
  }

  lemma OpenMessageOnRecord(t: Thread, m: string, role: string, name: string, kind: RefKind)
    requires OnRecord(t) && WellFormed(t)
    ensures OnRecord(OpenMessage(t, m, role, name, kind)) && m in OpenMessage(t, m, role, name, kind).streaming
  {
    var t1 := OpenMessage(t, m, role, name, kind);
    OpenMessageRefs(t, m, role, name, kind);
    if m !in t.streaming {
      OpenMessageText(t, m, role, name, kind);
    }
    hide OpenMessage, TextOf, SameText;
    forall id | id in t1.streaming ensures id in t1.texts && t1.texts[id] == TextOf(t1.history, id) {
      OpenMessageKeepsText(t, m, role, name, kind, id);
      SameTextKeeps(t.history, t1.history, id);
    }
  }

  lemma OpenMessageRefs(t: Thread, m: string, role: string, name: string, kind: RefKind)
    ensures var t1 := OpenMessage(t, m, role, name, kind);
            && t1.streaming == t.streaming + {m} && forall ref | ref in t1.refs :: ref in t.refs || ref.id == m
    ensures var t1 := OpenMessage(t, m, role, name, kind);
            forall id | id != m || m in t.streaming ::
              (id in t1.texts <==> id in t.texts) && (id in t.texts ==> t1.texts[id] == t.texts[id])
  {
    hide Find, ContentText;
  }

  lemma OpenMessageText(t: Thread, m: string, role: string, name: string, kind: RefKind)
    requires m !in t.streaming
    ensures var t1 := OpenMessage(t, m, role, name, kind);
            m in t1.texts && t1.texts[m] == TextOf(t1.history, m)
  {
    var h := WithMessage(t.history, m, role, name);
    var s := ContentText(h[Find(h, m)].content);
    SetContentText(h, m, s, m);
    hide Find, TextOf, WithMessage;
    assert ContentText(Text(s)) == s;
  }

  lemma AppendTextOnRecord(t: Thread, m: string, kind: RefKind, delta: string)
    requires OnRecord(t) && WellFormed(t) && !kind.CallRef?
    ensures OnRecord(AppendText(t, m, kind, delta))
  {
    var role := if kind.ReasoningRef? then "reasoning" else "assistant";
    var t1 := if m in t.streaming then t else OpenMessage(t, m, role, "", kind);
    if m !in t.streaming {
      OpenMessageOnRecord(t, m, role, "", kind);
      OpenMessageKeeps(t, m, role, "", kind);
    }
    var i := Find(t1.history, m);
    assert i >= 0;
    var s := ContentText(t1.history[i].content) + delta;
    var t2 := AppendText(t, m, kind, delta);
    assert t2 == t1.(history := SetContent(t1.history, i, Text(s)), texts := t1.texts[m := s]);
    hide AppendText, OpenMessage, TextOf;
    forall id | id in t2.streaming ensures id in t2.texts && t2.texts[id] == TextOf(t2.history, id) {
      SetContentText(t1.history, m, s, id);
    }
  }

  /** Nothing is streamed, recorded or produced as text between these two. */
  ghost predicate SameRecord(t: Thread, t1: Thread) {
    && t1.streaming == t.streaming && t1.texts == t.texts
    && forall ref | ref in t1.refs && (ref.kind.TextRef? || ref.kind.ReasoningRef?) :: ref in t.refs
  }

  /** An event that streams no text leaves the record right when every streamed message keeps its text. */
  lemma StillOnRecord(t: Thread, t1: Thread)
    requires OnRecord(t) && SameRecord(t, t1)
    requires forall id | id in t.streaming :: TextOf(t1.history, id) == TextOf(t.history, id)
    ensures OnRecord(t1)
  {
    hide TextOf;
  }

  lemma OpenCallSameRecord(t: Thread, ctx: RunContext, call: string, name: string, parent: string)
    ensures SameRecord(t, OpenCall(t, ctx, call, name, parent))
  {
    hide ParentMessage, SetArgs, CallIndex;
  }

  lemma AppendArgsSameRecord(t: Thread, ctx: RunContext, call: string, delta: string)
    ensures SameRecord(t, AppendArgs(t, ctx, call, delta))
  {
    hide OpenCall, SetArgs;
    OpenCallSameRecord(t, ctx, call, "", "");
  }

  lemma OtherEventsKeepRecord(t: Thread, ctx: RunContext, e: Event)
    requires !e.typ.MessagesSnapshot? && !e.typ.TextMessageStart? && !e.typ.ReasoningMessageStart?
    requires !e.typ.TextMessageContent? && !e.typ.ReasoningMessageContent?
    ensures SameRecord(t, Applied(t, ctx, e))
  {
    hide OpenCall, AppendArgs, Encrypted, Upsert, CallIndex;
    if e.typ.ToolCallStart? {
      OpenCallSameRecord(t, ctx, e.toolCallId, e.toolCallName, e.parentMessageId);
    } else if e.typ.ToolCallArgs? {
      AppendArgsSameRecord(t, ctx, e.toolCallId, DeltaText(e));
    }
  }

  lemma ResultKeepsStreamedText(t: Thread, ctx: RunContext, e: Event, id: string)
    requires WellFormed(t) && e.typ.ToolCallResult? && !Clashes(t, e) && id in t.streaming
    ensures TextOf(Applied(t, ctx, e).history, id) == TextOf(t.history, id)
  {
    if e.messageId != id {
      ToolResultKeepsText(t, e, id);
      SameTextKeeps(t.history, ToolResult(t, e).history, id);
    } else {
      hide Find, ContentText;
      var i := Find(t.history, id);
      FindSame(t.history, t.history[i := ToolMessage(e)], id);
    }
  }

  /** Without a snapshot and a clashing result, the text on record for a streamed message is always the message's. */
  lemma RecordStep(t: Thread, ctx: RunContext, e: Event)
    requires WellFormed(t) && Fresh(ctx.mint) && OnRecord(t) && !e.typ.MessagesSnapshot? && !Clashes(t, e)
    ensures OnRecord(Applied(t, ctx, e))
  {
    hide WellFormed, OnRecord, Clashes, OpenMessage, AppendText, TextOf, SameText;
    if e.typ.TextMessageStart? {
      OpenMessageOnRecord(t, e.messageId, if e.role == "" then "assistant" else e.role, e.name, TextRef);
    } else if e.typ.ReasoningMessageStart? {
      OpenMessageOnRecord(t, e.messageId, "reasoning", "", ReasoningRef);
    } else if e.typ.TextMessageContent? {
      AppendTextOnRecord(t, e.messageId, TextRef, DeltaText(e));
    } else if e.typ.ReasoningMessageContent? {
      AppendTextOnRecord(t, e.messageId, ReasoningRef, DeltaText(e));
    } else {
      hide Applied;
      OtherEventsKeepRecord(t, ctx, e);
      forall id | id in t.streaming ensures TextOf(Applied(t, ctx, e).history, id) == TextOf(t.history, id) {
        if e.typ.ToolCallResult? {
          ResultKeepsStreamedText(t, ctx, e, id);
        } else {
          OtherEventsKeepText(t, ctx, e, id);
          SameTextKeeps(t.history, Applied(t, ctx, e).history, id);
        }
      }
      StillOnRecord(t, Applied(t, ctx, e));
    }
  }

  /** No snapshot replaces the history, and no result replaces a message being streamed by other text. */
  ghost predicate Undisturbed(t: Thread, ctx: RunContext, es: seq<Event>) {
    forall k | 0 <= k < |es| :: !es[k].typ.MessagesSnapshot? && !Clashes(AppliedAll(t, ctx, es[..k]), es[k])
  }

  lemma UndisturbedFront(t: Thread, ctx: RunContext, es: seq<Event>)
    requires es != [] && Undisturbed(t, ctx, es)
    ensures Undisturbed(t, ctx, es[..|es| - 1])
    ensures !es[|es| - 1].typ.MessagesSnapshot? && !Clashes(AppliedAll(t, ctx, es[..|es| - 1]), es[|es| - 1])
  {
    hide Clashes, AppliedAll;
    var n := |es| - 1;
    forall k | 0 <= k < n
      ensures !es[..n][k].typ.MessagesSnapshot? && !Clashes(AppliedAll(t, ctx, es[..n][..k]), es[..n][k])
    {
      assert es[..n][..k] == es[..k];
    }
  }

  lemma {:induction false} RunOnRecord(t: Thread, ctx: RunContext, es: seq<Event>)
    requires WellFormed(t) && Fresh(ctx.mint) && OnRecord(t) && Undisturbed(t, ctx, es)
    ensures OnRecord(AppliedAll(t, ctx, es)) && WellFormed(AppliedAll(t, ctx, es))
  {
    hide Applied, WellFormed, OnRecord, Clashes, Undisturbed;
    if es != [] {
      var t1, e := AppliedAll(t, ctx, es[..|es| - 1]), es[|es| - 1];
      UndisturbedFront(t, ctx, es);
      RunOnRecord(t, ctx, es[..|es| - 1]);
      AppliedKeeps(t1, ctx, e);
      RecordStep(t1, ctx, e);
    }
  }
}
