/** The buffered representation of a thread: text and arguments still in their builders are read over the history and
    the tool calls. Each lemma says what one raw update does to the thread that is seen. */
module Buffers {
  import opened Prelude
  import opened Events
  import opened Threads

  function ShownCalls(tcs: seq<MessageToolCall>, args: map<string, string>): seq<MessageToolCall> {
    Map((tc: MessageToolCall) => if tc.id in args then tc.(arguments := args[tc.id]) else tc, tcs)
  }

  /** Message i of the history: the text being streamed into it replaces its content. */
  function ShownMessage(h: seq<Message>, text: map<string, string>, args: map<string, string>, i: nat): Message
    requires i < |h|
  {
    var m := h[i];
    m.(content := if m.id in text && Find(h, m.id) == i then Text(text[m.id]) else m.content,
       toolCalls := ShownCalls(m.toolCalls, args))
  }

  function Shown(h: seq<Message>, text: map<string, string>, args: map<string, string>): (r: seq<Message>)
    ensures |r| == |h|
    ensures forall i | 0 <= i < |h| :: r[i] == ShownMessage(h, text, args, i)
  {
    seq(|h|, i requires 0 <= i < |h| => ShownMessage(h, text, args, i))
  }

  function ShownToolCalls(tcs: seq<ToolCall>, args: map<string, string>): (r: seq<ToolCall>)
    ensures |r| == |tcs|
  {
    Map((tc: ToolCall) => if tc.id in args then tc.(args := args[tc.id]) else tc, tcs)
  }

  /** The thread a raw one stands for, given its builders. */
  function View(raw: Thread, text: map<string, string>, args: map<string, string>): Thread {
    raw.(history := Shown(raw.history, text, args), toolCalls := ShownToolCalls(raw.toolCalls, args),
         texts := raw.texts + text, streaming := text.Keys, streamingArgs := args.Keys)
  }

  /** The raw thread with what its builders hold open. */
  function Held(raw: Thread, text: map<string, string>, args: map<string, string>): Thread {
    raw.(streaming := text.Keys, streamingArgs := args.Keys)
  }

  // ----- lookups see the same thread -----

  lemma FindShown(h: seq<Message>, text: map<string, string>, args: map<string, string>, id: string)
    ensures Find(Shown(h, text, args), id) == Find(h, id)
  {
    hide Find, ShownCalls;
    var s := Shown(h, text, args);
    assert forall i | 0 <= i < |h| :: s[i].id == h[i].id;
    var i, j := Find(h, id), Find(s, id);
    if i >= 0 {
      assert s[i].id == id;
    }
    if j >= 0 {
      assert h[j].id == id;
    }
  }

  lemma IdsShown(h: seq<Message>, text: map<string, string>, args: map<string, string>)
    ensures Ids(Shown(h, text, args)) == Ids(h)
  {
    hide Find, ShownCalls;
    var s := Shown(h, text, args);
    forall id ensures id in Ids(s) <==> id in Ids(h) {
      if id in Ids(h) {
        var i :| 0 <= i < |h| && h[i].id == id;
        assert s[i].id == id;
      }
      if id in Ids(s) {
        var i :| 0 <= i < |s| && s[i].id == id;
        assert h[i].id == id;
      }
    }
  }

  lemma ViewIsWellFormed(raw: Thread, text: map<string, string>, args: map<string, string>)
    ensures WellFormed(View(raw, text, args)) <==> WellFormed(Held(raw, text, args))
  {
    hide Find, Shown;
    forall id ensures Find(View(raw, text, args).history, id) == Find(raw.history, id) {
      FindShown(raw.history, text, args, id);
    }
    assert forall i | 0 <= i < |raw.toolCalls| ::
      ShownToolCalls(raw.toolCalls, args)[i].id == raw.toolCalls[i].id;
  }

  // ----- raw updates and what is seen -----

  lemma ShownAppend(h: seq<Message>, text: map<string, string>, args: map<string, string>, m: Message)
    requires m.id !in text
    ensures Shown(h + [m], text, args) ==
            Shown(h, text, args) + [m.(toolCalls := ShownCalls(m.toolCalls, args))]
  {
    hide ShownCalls;
    var l, r := Shown(h + [m], text, args), Shown(h, text, args) + [m.(toolCalls := ShownCalls(m.toolCalls, args))];
    forall i | 0 <= i < |h| ensures l[i] == r[i] {
      if h[i].id in text {
        FindAppend(h, m, h[i].id);
      }
    }
  }

  lemma FindAppend(h: seq<Message>, m: Message, id: string)
    requires m.id != id
    ensures Find(h + [m], id) == Find(h, id)
  {
    assert (h + [m])[..|h|] == h;
  }

  lemma ShownSetText(h: seq<Message>, text: map<string, string>, args: map<string, string>, id: string, s: string)
    ensures Find(h, id) >= 0 ==>
              Shown(h, text[id := s], args) == SetContent(Shown(h, text, args), Find(h, id), Text(s))
    ensures Find(h, id) < 0 ==> Shown(h, text[id := s], args) == Shown(h, text, args)
  {
    hide ShownCalls, Find;
  }

  lemma ShownSetArgs(h: seq<Message>, text: map<string, string>, args: map<string, string>, id: string, s: string)
    ensures Shown(h, text, args[id := s]) == SetArgs(Shown(h, text, args), id, s)
  {
    hide Find;
    forall i | 0 <= i < |h| ensures Shown(h, text, args[id := s])[i] == SetArgs(Shown(h, text, args), id, s)[i] {
      assert ShownCalls(h[i].toolCalls, args[id := s]) ==
             WithArgs(ShownMessage(h, text, args, i), id, s).toolCalls;
    }
  }

  lemma ShownToolCallsSetArgs(tcs: seq<ToolCall>, calls: map<string, nat>, args: map<string, string>, id: string,
                              s: string)
    requires Indexed(tcs, calls) && id in calls
    ensures calls[id] < |tcs|
    ensures ShownToolCalls(tcs, args[id := s]) ==
            ShownToolCalls(tcs, args)[calls[id] := ShownToolCalls(tcs, args)[calls[id]].(args := s)]
  {
  }

  /** Replacing one message, whatever is streamed into it. */
  lemma ShownUpdate(h: seq<Message>, text: map<string, string>, args: map<string, string>, i: nat, m: Message)
    requires i < |h| && m.id == h[i].id
    ensures Shown(h[i := m], text, args) == Shown(h, text, args)[i := ShownMessage(h[i := m], text, args, i)]
    ensures Find(h[i := m], m.id) == Find(h, m.id)
  {
    hide ShownCalls, Find;
    var h1 := h[i := m];
    forall k | 0 <= k < |h| ensures Find(h1, h[k].id) == Find(h, h[k].id) {
      FindSame(h, h1, h[k].id);
    }
  }

  lemma ShownAddMention(h: seq<Message>, text: map<string, string>, args: map<string, string>, i: nat,
                        tc: MessageToolCall)
    requires i < |h| && tc.id !in args
    ensures Shown(h[i := h[i].(toolCalls := h[i].toolCalls + [tc])], text, args) ==
            Shown(h, text, args)[i := Shown(h, text, args)[i].(toolCalls := Shown(h, text, args)[i].toolCalls + [tc])]
  {
    var m := h[i].(toolCalls := h[i].toolCalls + [tc]);
    ShownUpdate(h, text, args, i, m);
    assert ShownCalls(m.toolCalls, args) == ShownCalls(h[i].toolCalls, args) + [tc];
  }

  /** With nothing buffered, what is seen is what is there. */
  lemma NothingBuffered(raw: Thread)
    ensures View(raw, map[], map[]) == raw.(streaming := {}, streamingArgs := {})
  {
    var v := View(raw, map[], map[]);
    forall i | 0 <= i < |raw.history| ensures v.history[i] == raw.history[i] {
      assert ShownCalls(raw.history[i].toolCalls, map[]) == raw.history[i].toolCalls;
    }
    assert v.history == raw.history;
    assert v.toolCalls == raw.toolCalls;
    assert v.texts == raw.texts;
  }

  /** Writing the text builders out and then the argument builders shows what both showed. */
  lemma ShownInTwo(h: seq<Message>, text: map<string, string>, args: map<string, string>)
    ensures Shown(Shown(h, text, map[]), map[], args) == Shown(h, text, args)
  {
    hide Find;
    var h1 := Shown(h, text, map[]);
    forall i | 0 <= i < |h| ensures Shown(h1, map[], args)[i] == Shown(h, text, args)[i] {
      assert ShownCalls(h1[i].toolCalls, args) == ShownCalls(h[i].toolCalls, args);
    }
  }

  lemma {:induction false} CallAtShown(tcs: seq<MessageToolCall>, args: map<string, string>, id: string, from: nat)
    ensures CallAt(ShownCalls(tcs, args), id, from) == CallAt(tcs, id, from)
    decreases |tcs| - from
  {
    if from < |tcs| {
      CallAtShown(tcs, args, id, from + 1);
    }
  }

  lemma {:induction false} EncryptedAtShown(h: seq<Message>, text: map<string, string>, args: map<string, string>,
                                            e: Event, from: nat)
    ensures EncryptedAt(Shown(h, text, args), e.subtype, e.entityId, from) ==
            EncryptedAt(h, e.subtype, e.entityId, from)
    decreases |h| - from
  {
    hide ShownCalls, Find, CallAt;
    if from < |h| {
      CallAtShown(h[from].toolCalls, args, e.entityId, 0);
      EncryptedAtShown(h, text, args, e, from + 1);
    }
  }

  lemma EncryptedShown(h: seq<Message>, text: map<string, string>, args: map<string, string>, e: Event)
    ensures Shown(Encrypted(h, e), text, args) == Encrypted(Shown(h, text, args), e)
  {
    hide EncryptedAt, Find;
    EncryptedAtShown(h, text, args, e, 0);
    var at := EncryptedAt(h, e.subtype, e.entityId, 0);
    if at.Some? {
      var (i, j) := at.value;
      var m := Encrypted(h, e)[i];
      ShownUpdate(h, text, args, i, m);
      if j.Some? {
        var tc := h[i].toolCalls[j.value].(encryptedValue := e.encryptedValue);
        var shown := ShownCalls(h[i].toolCalls, args);
        assert ShownCalls(m.toolCalls, args) ==
               shown[j.value := shown[j.value].(encryptedValue := e.encryptedValue)];
      }
    }
  }

  /** A new call attaches to the same message whether or not it is being streamed into. */
  lemma ParentMessageShown(raw: Thread, text: map<string, string>, args: map<string, string>, ctx: RunContext,
                           parent: string)
    requires WellFormed(Held(raw, text, args)) && Fresh(ctx.mint)
    ensures var (h, i) := ParentMessage(Held(raw, text, args), ctx, parent);
            ParentMessage(View(raw, text, args), ctx, parent) == (Shown(h, text, args), i)
  {
    hide Shown, Find, Indexed, Ids;
    FindShown(raw.history, text, args, parent);
    IdsShown(raw.history, text, args);
    var id := NewParentId(Held(raw, text, args), ctx, parent);
    FindAbsent(raw.history, id);
    var m := NewMessage(id, "assistant", "");
    ShownAppend(raw.history, text, args, m);
    assert ShownCalls(m.toolCalls, args) == [];
  }

  // ----- raw operations and the thread that is seen -----

  /** The builders once message id has one, holding its text so far. */
  function OpenText(h: seq<Message>, text: map<string, string>, id: string): map<string, string> {
    if id in text then text else text[id := TextOf(h, id)]
  }

  lemma OpenMessageShown(raw: Thread, text: map<string, string>, args: map<string, string>, id: string, role: string,
                         name: string, kind: RefKind)
    requires WellFormed(Held(raw, text, args))
    ensures View(raw.(history := WithMessage(raw.history, id, role, name), started := raw.started + {id},
                      roles := RoleOr(raw.roles, id, role), refs := AddRef(raw.refs, ItemRef(kind, id))),
                 OpenText(raw.history, text, id), args) ==
            OpenMessage(View(raw, text, args), id, role, name, kind)
  {
    hide Shown, Find, WellFormed, RoleOr, AddRef, ContentText, WithMessage;
    var h := WithMessage(raw.history, id, role, name);
    WithMessageShown(raw, text, args, id, role, name);
    FindShown(raw.history, text, args, id);
    FindShown(h, text, args, id);
    if id !in text {
      OpenTextShown(raw, h, text, args, id);
      TextWithMessage(raw.history, id, role, name);
    }
  }

  lemma OpenTextShown(raw: Thread, h: seq<Message>, text: map<string, string>, args: map<string, string>, id: string)
    requires id !in text && Find(h, id) >= 0
    ensures ContentText(Shown(h, text, args)[Find(h, id)].content) == TextOf(h, id)
    ensures Shown(h, text[id := TextOf(h, id)], args) ==
            SetContent(Shown(h, text, args), Find(h, id), Text(TextOf(h, id)))
    ensures raw.texts + text[id := TextOf(h, id)] == (raw.texts + text)[id := TextOf(h, id)]
    ensures text[id := TextOf(h, id)].Keys == text.Keys + {id}
  {
    hide Shown, Find, ContentText;
    ShownSetText(h, text, args, id, TextOf(h, id));
    UnstreamedContent(h, text, args, id);
  }

  lemma TextWithMessage(h: seq<Message>, id: string, role: string, name: string)
    ensures TextOf(WithMessage(h, id, role, name), id) == TextOf(h, id)
  {
    if Find(h, id) < 0 {
      assert Find(h + [NewMessage(id, role, name)], id) == |h|;
    }
  }

  lemma WithMessageShown(raw: Thread, text: map<string, string>, args: map<string, string>, id: string,
                         role: string, name: string)
    requires WellFormed(Held(raw, text, args))
    ensures WithMessage(Shown(raw.history, text, args), id, role, name) ==
            Shown(WithMessage(raw.history, id, role, name), text, args)
  {
    hide Shown, Find, Indexed;
    FindShown(raw.history, text, args, id);
    if Find(raw.history, id) < 0 {
      ShownAppend(raw.history, text, args, NewMessage(id, role, name));
      assert ShownCalls(NewMessage(id, role, name).toolCalls, args) == [];
    }
  }

  lemma UnstreamedContent(h: seq<Message>, text: map<string, string>, args: map<string, string>, id: string)
    requires id !in text && Find(h, id) >= 0
    ensures Shown(h, text, args)[Find(h, id)].content == h[Find(h, id)].content
  {
    hide Find;
  }

  lemma StreamedContent(h: seq<Message>, text: map<string, string>, args: map<string, string>, id: string)
    requires id in text && Find(h, id) >= 0
    ensures Shown(h, text, args)[Find(h, id)].content == Text(text[id])
  {
    hide Find;
  }

  /** A delta written to an open builder. */
  lemma AppendTextShown(raw: Thread, text: map<string, string>, args: map<string, string>, id: string,
                        kind: RefKind, delta: string)
    requires WellFormed(Held(raw, text, args)) && id in text
    ensures View(raw, text[id := text[id] + delta], args) == AppendText(View(raw, text, args), id, kind, delta)
  {
    hide Shown, Find, Indexed;
    FindShown(raw.history, text, args, id);
    StreamedContent(raw.history, text, args, id);
    ShownSetText(raw.history, text, args, id, text[id] + delta);
    var s := text[id] + delta;
    assert raw.texts + text[id := s] == (raw.texts + text)[id := s];
    assert text[id := s].Keys == text.Keys;
  }

  lemma RecordCallShown(raw: Thread, text: map<string, string>, args: map<string, string>, ctx: RunContext,
                        id: string, name: string, parent: string)
    requires WellFormed(Held(raw, text, args)) && Fresh(ctx.mint) && id !in raw.calls
    ensures View(RecordCall(raw, ctx, id, name, parent), text, args) ==
            RecordCall(View(raw, text, args), ctx, id, name, parent)
  {
    hide Shown, Find, Indexed, ParentMessage;
    ParentMessageShown(raw, text, args, ctx, parent);
    var (h, i) := ParentMessage(raw, ctx, parent);
    assert ParentMessage(raw, ctx, parent) == ParentMessage(Held(raw, text, args), ctx, parent) by {
      SameParent(raw, Held(raw, text, args), ctx, parent);
    }
    ShownAddMention(h, text, args, i, MessageToolCall(id, name, "", ""));
    var tc := ToolCall(ctx.run, id, name, "", None, "", name in ctx.declared);
    assert ShownToolCalls(raw.toolCalls + [tc], args) == ShownToolCalls(raw.toolCalls, args) + [tc];
  }

  lemma SameParent(t: Thread, t1: Thread, ctx: RunContext, parent: string)
    requires t.history == t1.history && t.started == t1.started
    ensures ParentMessage(t, ctx, parent) == ParentMessage(t1, ctx, parent)
  {
    hide Find;
  }

  /** A builder opened on a call, holding its arguments so far. */
  lemma OpenArgsShown(raw: Thread, text: map<string, string>, args: map<string, string>, id: string)
    requires WellFormed(Held(raw, text, args)) && id in raw.calls
    ensures raw.calls[id] < |raw.toolCalls|
    ensures View(raw, text, if id in args then args else args[id := raw.toolCalls[raw.calls[id]].args]) ==
            OpenArgs(View(raw, text, args), id)
  {
    hide Shown, Find, SetArgs;
    if id !in args {
      var s := raw.toolCalls[raw.calls[id]].args;
      ShownSetArgs(raw.history, text, args, id, s);
      ShownToolCallsSetArgs(raw.toolCalls, raw.calls, args, id, s);
      assert args[id := s].Keys == args.Keys + {id};
    }
  }

  lemma RefsShown(raw: Thread, text: map<string, string>, args: map<string, string>, refs: seq<ItemRef>)
    ensures View(raw.(refs := refs), text, args) == View(raw, text, args).(refs := refs)
  {
    hide Shown, ShownToolCalls;
  }

  /** A delta written to an open argument builder. */
  lemma AppendArgsShown(raw: Thread, text: map<string, string>, args: map<string, string>, ctx: RunContext,
                        id: string, delta: string)
    requires WellFormed(Held(raw, text, args)) && id in args
    ensures View(raw, text, args[id := args[id] + delta]) == AppendArgs(View(raw, text, args), ctx, id, delta)
  {
    hide Shown, Find, SetArgs;
    var s := args[id] + delta;
    ShownSetArgs(raw.history, text, args, id, s);
    ShownToolCallsSetArgs(raw.toolCalls, raw.calls, args, id, s);
    assert args[id := s].Keys == args.Keys;
  }
}
