/** The reducer: a run's events folded into the conversation through open builders.

    Model of internal/agui/reduce.go. The fields are the source's; Logical() is the thread they stand for. */
module Reduction {
  import opened Prelude
  import opened JsonDocument
  import opened Events
  import opened Threads
  import opened Buffers
  import Deltas

  /** One thing a run produced, resolved to its final content. */
  datatype Item = Item(kind: RefKind, role: string, messageId: string, toolCallId: string, name: string, text: string)

  function StringAt(m: map<string, string>, id: string): string { if id in m then m[id] else "" }

  function ItemOf(t: Thread, ref: ItemRef): Item {
    var k := CallIndex(t, ref.id);
    match ref.kind
    case TextRef | ReasoningRef => Item(ref.kind, StringAt(t.roles, ref.id), ref.id, "", "", StringAt(t.texts, ref.id))
    case CallRef =>
      if k < 0 then Item(ref.kind, "", "", ref.id, "", "")
      else Item(ref.kind, "", "", ref.id, t.toolCalls[k].name, t.toolCalls[k].args)
    case ResultRef =>
      if k < 0 then Item(ref.kind, "", "", ref.id, "", "")
      else
        var result := t.toolCalls[k].result;
        Item(ref.kind, "", "", ref.id, t.toolCalls[k].name, if result.Some? then result.value else "")
  }

  function Items(t: Thread): seq<Item> { Map(ref => ItemOf(t, ref), t.refs) }

  // ----- what the buffers change -----

  /** What the reducer does with an event: as Applied, except that the open builder of a message outlives a tool
      result that replaces the message. */
  function Buffered(t: Thread, ctx: RunContext, e: Event): Thread {
    var t1 := Applied(t, ctx, e);
    if Clashes(t, e) then
      var i := Find(t.history, e.messageId);
      t1.(history := t1.history[i := t1.history[i].(content := t.history[i].content)])
    else t1
  }

  function BufferedAll(t: Thread, ctx: RunContext, es: seq<Event>): Thread {
    if es == [] then t else Buffered(BufferedAll(t, ctx, es[..|es| - 1]), ctx, es[|es| - 1])
  }

  /** The reducer gives an event its eager meaning exactly when the event does not clash. */
  lemma BufferingIsInvisible(t: Thread, ctx: RunContext, e: Event)
    ensures Buffered(t, ctx, e) == Applied(t, ctx, e) <==> !Clashes(t, e)
  {
    if Clashes(t, e) {
      hide Find;
      var i := Find(t.history, e.messageId);
      assert Applied(t, ctx, e).history[i].content == e.content;
      assert Buffered(t, ctx, e).history[i].content == t.history[i].content;
    }
  }

  /** A run in which no tool result clashes is reduced to its eager meaning. */
  lemma {:induction false} RunsReduceEagerly(t: Thread, ctx: RunContext, es: seq<Event>)
    requires forall k | 0 <= k < |es| :: !Clashes(AppliedAll(t, ctx, es[..k]), es[k])
    ensures BufferedAll(t, ctx, es) == AppliedAll(t, ctx, es)
  {
    hide Clashes, Applied, Buffered;
    if es != [] {
      var n := |es| - 1;
      forall k | 0 <= k < n ensures !Clashes(AppliedAll(t, ctx, es[..n][..k]), es[..n][k]) {
        assert es[..n][..k] == es[..k];
      }
      RunsReduceEagerly(t, ctx, es[..n]);
      BufferingIsInvisible(AppliedAll(t, ctx, es[..n]), ctx, es[n]);
    }
  }

  lemma OneMore(t: Thread, ctx: RunContext, es: seq<Event>, e: Event)
    ensures AppliedAll(t, ctx, es + [e]) == Applied(AppliedAll(t, ctx, es), ctx, e)
    ensures BufferedAll(t, ctx, es + [e]) == Buffered(BufferedAll(t, ctx, es), ctx, e)
  {
    hide Applied, Buffered;
    assert (es + [e])[..|es|] == es;
  }

  /** A run that clashes, on any message new to the thread: the message is left with the streamed text, not with the
      result that replaced it. */
  lemma StreamedTextOutlivesResult(t: Thread, ctx: RunContext, m: string, call: string, streamed: string,
                                   result: string)
    requires Find(t.history, m) < 0 && m !in t.streaming
    ensures var es := [Blank(TextMessageStart).(messageId := m)] +
                      [Blank(TextMessageContent).(messageId := m, delta := Some(streamed))] +
                      [Blank(ToolCallResult).(messageId := m, toolCallId := call, content := Text(result))];
            && TextOf(AppliedAll(t, ctx, es).history, m) == result
            && TextOf(BufferedAll(t, ctx, es).history, m) == streamed
  {
    hide Applied, Buffered, AppliedAll, BufferedAll;
    var e0 := Blank(TextMessageStart).(messageId := m);
    var e1 := Blank(TextMessageContent).(messageId := m, delta := Some(streamed));
    var e2 := Blank(ToolCallResult).(messageId := m, toolCallId := call, content := Text(result));
    StreamsText(t, ctx, e0, e1);
    OneMore(t, ctx, [e0] + [e1], e2);
    ResultAlone(AppliedAll(t, ctx, [e0] + [e1]), ctx, e2);
  }

  /** A message new to the thread, started and given one delta. */
  lemma StreamsText(t: Thread, ctx: RunContext, e0: Event, e1: Event)
    requires Find(t.history, e0.messageId) < 0 && e0.messageId !in t.streaming && e1.messageId == e0.messageId
    requires e0.typ.TextMessageStart? && e0.role == "" && e1.typ.TextMessageContent? && e1.delta.Some?
    ensures var t2 := AppliedAll(t, ctx, [e0] + [e1]);
            && BufferedAll(t, ctx, [e0] + [e1]) == t2 && Streamed(t2, e0.messageId, e1.delta.value)
  {
    OneMore(t, ctx, [e0], e1);
    assert [] + [e0] == [e0];
    OneMore(t, ctx, [], e0);
    assert AppliedAll(t, ctx, []) == t == BufferedAll(t, ctx, []);
    hide AppliedAll, BufferedAll;
    BufferingIsInvisible(t, ctx, e0);
    StartAlone(t, ctx, e0);
    var t1 := Applied(t, ctx, e0);
    BufferingIsInvisible(t1, ctx, e1);
    hide Applied, Buffered;
    DeltaAlone(t1, ctx, e1);
  }

  /** The last message is this one, streamed, with this text. */
  predicate Streamed(t: Thread, id: string, text: string) {
    var n := |t.history|;
    n > 0 && t.history[n - 1].id == id && t.history[n - 1].content == Text(text) && id in t.streaming
  }

  lemma StartAlone(t: Thread, ctx: RunContext, e: Event)
    requires Find(t.history, e.messageId) < 0 && e.messageId !in t.streaming
    requires e.typ.TextMessageStart? && e.role == ""
    ensures Streamed(Applied(t, ctx, e), e.messageId, "")
  {
    hide RoleOr, AddRef;
  }

  lemma DeltaAlone(t: Thread, ctx: RunContext, e: Event)
    requires Streamed(t, e.messageId, "") && e.typ.TextMessageContent? && e.delta.Some?
    ensures Streamed(Applied(t, ctx, e), e.messageId, e.delta.value)
  {
    hide OpenMessage;
    assert Find(t.history, e.messageId) == |t.history| - 1;
    assert "" + e.delta.value == e.delta.value;
  }

  lemma ResultAlone(t: Thread, ctx: RunContext, e: Event)
    requires e.typ.ToolCallResult? && e.content.Text? && |t.history| > 0
    requires Streamed(t, e.messageId, ContentText(t.history[|t.history| - 1].content))
    ensures TextOf(Applied(t, ctx, e).history, e.messageId) == e.content.text
    ensures TextOf(Buffered(t, ctx, e).history, e.messageId) == ContentText(t.history[|t.history| - 1].content)
  {
    var n := |t.history| - 1;
    assert Find(t.history, e.messageId) == n;
    assert Applied(t, ctx, e).history == t.history[n := ToolMessage(e)];
    assert Buffered(t, ctx, e).history == t.history[n := ToolMessage(e).(content := t.history[n].content)];
  }

  lemma BufferedKeeps(t: Thread, ctx: RunContext, e: Event)
    requires WellFormed(t)
    ensures WellFormed(Buffered(t, ctx, e))
  {
    hide WellFormed, Applied;
    AppliedKeeps(t, ctx, e);
    if Clashes(t, e) {
      assert |Applied(t, ctx, e).history| >= |t.history| by { ToolResultHistory(t, ctx, e); }
      SameIdsKeep(Applied(t, ctx, e), Buffered(t, ctx, e).history);
    }
  }

  lemma ToolResultHistory(t: Thread, ctx: RunContext, e: Event)
    requires e.typ.ToolCallResult? && Find(t.history, e.messageId) >= 0
    ensures |Applied(t, ctx, e).history| == |t.history|
  {
    hide Find;
  }

  lemma MaterializedView(raw: Thread, text: map<string, string>, args: map<string, string>, raw1: Thread)
    requires raw1 == raw.(history := Shown(raw.history, text, args),
                          toolCalls := ShownToolCalls(raw.toolCalls, args), texts := raw.texts + text)
    requires WellFormed(Held(raw, text, args))
    ensures View(raw1, map[], map[]) == View(raw, text, args).(streaming := {}, streamingArgs := {})
    ensures WellFormed(Held(raw1, map[], map[]))
  {
    hide Shown, Find, Indexed;
    ViewIsWellFormed(raw, text, args);
    NothingBuffered(raw1);
    ViewIsWellFormed(raw1, map[], map[]);
  }

  lemma ShownToolCallsStep(tcs: seq<ToolCall>, calls: map<string, nat>, args: map<string, string>, id: string,
                           s: string)
    requires Indexed(tcs, calls)
    ensures id !in calls ==> ShownToolCalls(tcs, args[id := s]) == ShownToolCalls(tcs, args)
    ensures id in calls ==>
              calls[id] < |tcs| &&
              ShownToolCalls(tcs, args[id := s]) ==
              ShownToolCalls(tcs, args)[calls[id] := ShownToolCalls(tcs, args)[calls[id]].(args := s)]
  {
    if id in calls {
      ShownToolCallsSetArgs(tcs, calls, args, id, s);
    }
  }

  lemma ArgsSetUpTo(tcs: seq<MessageToolCall>, all: seq<MessageToolCall>, j: nat, id: string, s: string)
    requires j < |tcs| == |all| && all[j] == if tcs[j].id == id then tcs[j].(arguments := s) else tcs[j]
    ensures var now := all[..j] + tcs[j..];
            now[j] == tcs[j] && all[..j + 1] + tcs[j + 1..] ==
            if now[j].id == id then now[j := now[j].(arguments := s)] else now
  {
  }

  function WithText(h: seq<Message>, id: string, s: string): seq<Message> {
    var i := Find(h, id);
    if i >= 0 then SetContent(h, i, Text(s)) else h
  }

  /** The texts once every builder but these is written out. */
  function TextsWithout(texts: map<string, string>, text: map<string, string>, ids: set<string>): map<string, string> {
    texts + (text - ids)
  }

  /** With every builder still to write, nothing has changed. */
  lemma NothingWritten(h: seq<Message>, texts: map<string, string>, tcs: seq<ToolCall>, m: map<string, string>)
    ensures Shown(h, m - m.Keys, map[]) == h == Shown(h, map[], m - m.Keys)
    ensures TextsWithout(texts, m, m.Keys) == texts && ShownToolCalls(tcs, m - m.Keys) == tcs
  {
    hide Shown, ShownToolCalls;
    assert m - m.Keys == map[];
    NothingBuffered(Thread(h, tcs, map[], texts, Arr([]), {}, {}, {}, map[], []));
  }

  lemma NoneLeft(texts: map<string, string>, text: map<string, string>)
    ensures TextsWithout(texts, text, {}) == texts + text
  {
    assert text - {} == text;
  }

  lemma OneLess(m: map<string, string>, ids: set<string>, id: string)
    requires id in ids && ids <= m.Keys
    ensures m - (ids - {id}) == (m - ids)[id := m[id]]
  {
  }

  /** One more text builder written out. */
  lemma TextWritten(h: seq<Message>, texts: map<string, string>, text: map<string, string>, ids: set<string>,
                    id: string)
    requires id in ids && ids <= text.Keys
    ensures Shown(h, text - (ids - {id}), map[]) == WithText(Shown(h, text - ids, map[]), id, text[id])
    ensures TextsWithout(texts, text, ids - {id}) == TextsWithout(texts, text, ids)[id := text[id]]
  {
    hide Shown, SetContent, Find;
    OneLess(text, ids, id);
    FindShown(h, text - ids, map[], id);
    ShownSetText(h, text - ids, map[], id, text[id]);
  }

  /** One more argument builder written out. */
  lemma ArgsWritten(h: seq<Message>, tcs: seq<ToolCall>, calls: map<string, nat>, args: map<string, string>,
                    ids: set<string>, id: string)
    requires id in ids && ids <= args.Keys && Indexed(tcs, calls)
    ensures Shown(h, map[], args - (ids - {id})) == SetArgs(Shown(h, map[], args - ids), id, args[id])
    ensures var shown := ShownToolCalls(tcs, args - ids);
            if id in calls then
              calls[id] < |shown| &&
              ShownToolCalls(tcs, args - (ids - {id})) == shown[calls[id] := shown[calls[id]].(args := args[id])]
            else ShownToolCalls(tcs, args - (ids - {id})) == shown
  {
    hide Shown, SetArgs, ShownToolCalls, Indexed;
    OneLess(args, ids, id);
    ShownSetArgs(h, map[], args - ids, id, args[id]);
    ShownToolCallsStep(tcs, calls, args - ids, id, args[id]);
  }

  // ----- the conversation -----

  /** The client-side state of one thread that runs are reduced into. */
  class Conversation {
    var history: seq<Message>
    var toolCalls: seq<ToolCall>
    var calls: map<string, nat>
    var texts: map<string, string>
    var state: Json
    var text: map<string, string>
    var args: map<string, string>

    constructor (state: Json)
      ensures Valid() && Seen() == Thread([], [], map[], map[], state, {}, {}, {}, map[], [])
      ensures history == [] && toolCalls == [] && text == map[] && args == map[]
    {
      history, toolCalls, calls, texts, this.state, text, args := [], [], map[], map[], state, map[], map[];
    }

    ghost function Raw(): Thread
      reads this
    {
      Thread(history, toolCalls, calls, texts, state, {}, {}, {}, map[], [])
    }

    /** The thread this conversation stands for between events, apart from what one run tracks. */
    ghost function Seen(): Thread
      reads this
    {
      View(Raw(), text, args)
    }

    ghost predicate Valid()
      reads this
    {
      WellFormed(Held(Raw(), text, args))
    }

    method FindMessage(id: string) returns (i: int)
      ensures i == Find(history, id)
    {
      i := |history| - 1;
      while i >= 0
        invariant -1 <= i < |history|
        invariant Find(history, id) == Find(history[..i + 1], id)
      {
        assert history[..i + 1][..i] == history[..i];
        if history[i].id == id {
          assert Find(history[..i + 1], id) == i;
          return;
        }
        i := i - 1;
      }
    }

    /** Every mention of a call in the history gets these arguments. */
    method SetMentions(id: string, s: string)
      modifies `history
      ensures history == SetArgs(old(history), id, s)
    {
      hide Map, WithArgs;
      var i := 0;
      while i < |history|
        invariant 0 <= i <= |history| == |old(history)|
        invariant forall k | 0 <= k < i :: history[k] == WithArgs(old(history)[k], id, s)
        invariant forall k | i <= k < |history| :: history[k] == old(history)[k]
      {
        SetMentionsOn(i, id, s);
        i := i + 1;
      }
    }

    method SetMentionsOn(i: nat, id: string, s: string)
      requires i < |history|
      modifies `history
      ensures history == old(history)[i := WithArgs(old(history)[i], id, s)]
    {
      ghost var h, m0 := history, history[i];
      ghost var all := WithArgs(m0, id, s).toolCalls;
      var j := 0;
      assert all[..0] + m0.toolCalls[0..] == m0.toolCalls;
      while j < |history[i].toolCalls|
        invariant 0 <= j <= |m0.toolCalls| && i < |history|
        invariant |history[i].toolCalls| == |m0.toolCalls|
        invariant history == h[i := m0.(toolCalls := all[..j] + m0.toolCalls[j..])]
      {
        var m := history[i];
        ArgsSetUpTo(m0.toolCalls, all, j, id, s);
        if m.toolCalls[j].id == id {
          history := history[i := m.(toolCalls := m.toolCalls[j := m.toolCalls[j].(arguments := s)])];
        }
        j := j + 1;
      }
      assert all[..j] + m0.toolCalls[j..] == all;
    }

    /** Attaches an encrypted value to the first message or mentioned call it belongs to. */
    method Encrypt(e: Event)
      modifies `history
      ensures history == Encrypted(old(history), e)
    {
      var i := 0;
      while i < |history|
        invariant 0 <= i <= |history| && history == old(history)
        invariant EncryptedAt(history, e.subtype, e.entityId, 0) == EncryptedAt(history, e.subtype, e.entityId, i)
      {
        var m := history[i];
        if e.subtype == "message" && m.id == e.entityId {
          history := history[i := m.(encryptedValue := e.encryptedValue)];
          return;
        }
        var j := 0;
        while j < |m.toolCalls|
          invariant 0 <= j <= |m.toolCalls| && history == old(history)
          invariant e.subtype == "tool-call" ==>
                      CallAt(m.toolCalls, e.entityId, 0) == CallAt(m.toolCalls, e.entityId, j)
        {
          if e.subtype == "tool-call" && m.toolCalls[j].id == e.entityId {
            var tc := m.toolCalls[j].(encryptedValue := e.encryptedValue);
            history := history[i := m.(toolCalls := m.toolCalls[j := tc])];
            return;
          }
          j := j + 1;
        }
        i := i + 1;
      }
    }

    /** Writes the builders out. Whatever order the maps are walked in, the result is what was seen, and nothing is
        being streamed any more. */
    method Materialize()
      requires Valid()
      modifies this
      ensures Valid() && text == map[] && args == map[]
      ensures history == Shown(old(history), old(text), old(args))
      ensures toolCalls == ShownToolCalls(old(toolCalls), old(args))
      ensures texts == old(texts) + old(text) && calls == old(calls) && state == old(state)
      ensures Seen() == old(Seen()).(streaming := {}, streamingArgs := {})
    {
      hide Shown, ShownToolCalls, Indexed, Find;
      MaterializeText();
      MaterializeArgs();
      ShownInTwo(old(history), text, args);
      text := map[];
      args := map[];
      MaterializedView(old(Raw()), old(text), old(args), Raw());
    }

    /** The first half: text builders, in any order. */
    method MaterializeText()
      modifies `history, `texts
      ensures history == Shown(old(history), text, map[]) && texts == old(texts) + text
    {
      hide *;
      ghost var h, tx := history, texts;
      var ids := text.Keys;
      NothingWritten(h, tx, [], text);
      while ids != {}
        invariant ids <= text.Keys
        invariant history == Shown(h, text - ids, map[]) && texts == TextsWithout(tx, text, ids)
        decreases |ids|
      {
        var id :| id in ids;
        TextWritten(h, tx, text, ids, id);
        WriteText(id);
        ids := ids - {id};
      }
      assert text - {} == text;
      NoneLeft(tx, text);
    }

    method WriteText(id: string)
      requires id in text
      modifies `history, `texts
      ensures history == WithText(old(history), id, text[id]) && texts == old(texts)[id := text[id]]
    {
      var i := FindMessage(id);
      if i >= 0 {
        history := SetContent(history, i, Text(text[id]));
      }
      texts := texts[id := text[id]];
    }

    /** The second half: argument builders, in any order. */
    method MaterializeArgs()
      requires Indexed(toolCalls, calls)
      modifies `history, `toolCalls
      ensures history == Shown(old(history), map[], args)
      ensures toolCalls == ShownToolCalls(old(toolCalls), args)
    {
      hide *;
      ghost var h, tcs := history, toolCalls;
      var ids := args.Keys;
      NothingWritten(h, map[], tcs, args);
      while ids != {}
        invariant ids <= args.Keys
        invariant history == Shown(h, map[], args - ids)
        invariant toolCalls == ShownToolCalls(tcs, args - ids)
        decreases |ids|
      {
        var id :| id in ids;
        ArgsWritten(h, tcs, calls, args, ids, id);
        if id in calls {
          var idx := calls[id];
          toolCalls := toolCalls[idx := toolCalls[idx].(args := args[id])];
        }
        SetMentions(id, args[id]);
        ids := ids - {id};
      }
      assert args - {} == args;
    }
  }

  lemma ToolResultShown(raw: Thread, text: map<string, string>, args: map<string, string>, ctx: RunContext, e: Event)
    requires WellFormed(Held(raw, text, args)) && e.typ.ToolCallResult?
    ensures View(ToolResult(raw, e), text, args) == Buffered(View(raw, text, args), ctx, e)
  {
    hide Shown, Find, AddRef, Indexed, ContentText, ShownToolCalls, Upsert, Clashes;
    FindShown(raw.history, text, args, e.messageId);
    ToolResultCalls(raw, text, args, e);
    UpsertShown(raw.history, text, args, ToolMessage(e));
    BufferedToolResult(View(raw, text, args), ctx, e);
    if e.messageId in text {
      StreamedContent(raw.history, text, args, e.messageId);
    }
  }

  /** A tool result with the buffers in mind: only the content differs, and only when the message is streamed. */
  lemma BufferedToolResult(t: Thread, ctx: RunContext, e: Event)
    requires e.typ.ToolCallResult?
    requires e.messageId in t.streaming ==> Find(t.history, e.messageId) >= 0
    ensures var content := if e.messageId in t.streaming then t.history[Find(t.history, e.messageId)].content
                           else e.content;
            Buffered(t, ctx, e) ==
            ToolResult(t, e).(history := Upsert(t.history, ToolMessage(e).(content := content)))
  {
    hide Find, AddRef, ContentText;
  }

  lemma UpsertShown(h: seq<Message>, text: map<string, string>, args: map<string, string>, msg: Message)
    requires msg.toolCalls == [] && (msg.id in text ==> Find(h, msg.id) >= 0)
    ensures Shown(Upsert(h, msg), text, args) ==
            Upsert(Shown(h, text, args), msg.(content := if msg.id in text then Text(text[msg.id]) else msg.content))
  {
    hide Shown, Find;
    var i := Find(h, msg.id);
    FindShown(h, text, args, msg.id);
    if i >= 0 {
      ShownUpdate(h, text, args, i, msg);
      ToolMessageShown(h, text, args, i, msg);
    } else {
      ShownAppend(h, text, args, msg);
      assert ShownCalls([], args) == [];
    }
  }

  lemma ToolMessageShown(h: seq<Message>, text: map<string, string>, args: map<string, string>, i: nat, msg: Message)
    requires i < |h| && i == Find(h, msg.id) && msg.toolCalls == []
    ensures ShownMessage(h[i := msg], text, args, i) ==
            msg.(content := if msg.id in text then Text(text[msg.id]) else msg.content)
  {
    hide Find;
    FindSame(h, h[i := msg], msg.id);
  }

  lemma ToolResultCalls(raw: Thread, text: map<string, string>, args: map<string, string>, e: Event)
    ensures ShownToolCalls(ToolResult(raw, e).toolCalls, args) == ToolResult(View(raw, text, args), e).toolCalls
  {
    hide Find, Shown, ContentText;
  }

  // ----- the reducer -----

  class Reducer {
    const c: Conversation
    const ctx: RunContext
    var started: set<string>
    var roles: map<string, string>
    var refs: seq<ItemRef>
    var seen: set<ItemRef>

    constructor (c: Conversation, ctx: RunContext)
      requires c.Valid() && Fresh(ctx.mint)
      ensures this.c == c && this.ctx == ctx && Valid() && Logical() == c.Seen()
    {
      this.c, this.ctx, started, roles, refs, seen := c, ctx, {}, map[], [], {};
    }

    ghost function Raw(): Thread
      reads this, c
    {
      Thread(c.history, c.toolCalls, c.calls, c.texts, c.state, {}, {}, started, roles, refs)
    }

    /** The thread as everyone outside the buffers sees it. */
    ghost function Logical(): Thread
      reads this, c
    {
      View(Raw(), c.text, c.args)
    }

    ghost predicate Valid()
      reads this, c
    {
      WellFormed(Held(Raw(), c.text, c.args)) && seen == (set ref | ref in refs) && Fresh(ctx.mint)
    }

    method Ref(kind: RefKind, id: string)
      requires seen == set ref | ref in refs
      modifies `refs, `seen
      ensures refs == AddRef(old(refs), ItemRef(kind, id)) && seen == set ref | ref in refs
    {
      var ref := ItemRef(kind, id);
      if ref !in seen {
        seen := seen + {ref};
        refs := refs + [ref];
      }
    }

    /** Every raw change that shows as a well-formed thread leaves a valid reducer. */
    lemma StillValid()
      requires WellFormed(Logical()) && seen == (set ref | ref in refs) && Fresh(ctx.mint)
      ensures Valid()
    {
      hide WellFormed, Shown;
      ViewIsWellFormed(Raw(), c.text, c.args);
    }

    lemma LogicalFields()
      ensures Logical().streaming == c.text.Keys && Logical().streamingArgs == c.args.Keys
      ensures Logical().calls == c.calls && Logical().refs == refs
    {
      hide Shown, ShownToolCalls;
    }

    lemma LogicalIsWellFormed()
      requires Valid()
      ensures WellFormed(Logical()) && Logical().streaming == c.text.Keys && Logical().streamingArgs == c.args.Keys
      ensures Logical().calls == c.calls && Logical().refs == refs
    {
      hide WellFormed, Shown;
      ViewIsWellFormed(Raw(), c.text, c.args);
    }

    lemma ConversationIsValid()
      requires Valid()
      ensures c.Valid()
    {
      hide Find, Indexed;
    }

    /** Starts or reopens a streamed message. */
    method OpenMessage(id: string, role: string, name: string, kind: RefKind)
      requires Valid() && !kind.CallRef?
      modifies this, c
      ensures Valid() && id in c.text
      ensures Logical() == Threads.OpenMessage(old(Logical()), id, role, name, kind)
    {
      hide WellFormed, Find, View, Threads.OpenMessage, AddRef, ContentText, Fresh;
      LogicalIsWellFormed();
      OpenMessageShown(Raw(), c.text, c.args, id, role, name, kind);
      ghost var raw, text := Raw(), c.text;
      OpenMessageKeeps(Logical(), id, role, name, kind);
      var i := c.FindMessage(id);
      if i < 0 {
        c.history := c.history + [NewMessage(id, role, name)];
      }
      if id !in c.text {
        c.text := c.text[id := if i >= 0 then ContentText(c.history[i].content) else ""];
      }
      started := started + {id};
      if id !in roles || roles[id] == "" {
        roles := roles[id := role];
      }
      Ref(kind, id);
      assert c.text == OpenText(raw.history, text, id);
      assert Raw() == raw.(history := WithMessage(raw.history, id, role, name), started := raw.started + {id},
                           roles := RoleOr(raw.roles, id, role), refs := AddRef(raw.refs, ItemRef(kind, id)));
      StillValid();
    }

    /** The text a delta is appended to, opening the message when nothing did. */
    method AppendText(id: string, kind: RefKind, delta: string)
      requires Valid() && !kind.CallRef?
      modifies this, c
      ensures Valid() && Logical() == Threads.AppendText(old(Logical()), id, kind, delta)
    {
      hide WellFormed, Find, View, Threads.OpenMessage, Threads.AppendText, Fresh;
      LogicalIsWellFormed();
      AppendTextKeeps(Logical(), id, kind, delta);
      if id !in c.text {
        AppendTextOpens(Logical(), id, kind, delta);
        var role := if kind.ReasoningRef? then "reasoning" else "assistant";
        OpenMessage(id, role, "", kind);
      }
      AppendTextShown(Raw(), c.text, c.args, id, kind, delta);
      c.text := c.text[id := c.text[id] + delta];
      StillValid();
    }

    /** The history index of the assistant message a new call attaches to, made when there is none. */
    method ParentMessage(parent: string) returns (i: nat)
      modifies `started, `roles, c`history
      ensures (c.history, i) == Threads.ParentMessage(old(Raw()), ctx, parent)
      ensures |c.history| > |old(c.history)| ==> i == |c.history| - 1
      ensures |c.history| > |old(c.history)| ==>
                started == old(started) + {c.history[i].id} && roles == old(roles)[c.history[i].id := "assistant"]
      ensures |c.history| <= |old(c.history)| ==> started == old(started) && roles == old(roles)
    {
      hide Find;
      var found := c.FindMessage(parent);
      if parent != "" {
        if found >= 0 && c.history[found].role == "assistant" {
          return found;
        }
      } else {
        var n := |c.history|;
        if n > 0 && c.history[n - 1].role == "assistant" && c.history[n - 1].id in started {
          return n - 1;
        }
      }
      var id := parent;
      if id == "" || found >= 0 {
        id := ctx.mint(Ids(c.history));
      }
      c.history := c.history + [NewMessage(id, "assistant", "")];
      started := started + {id};
      roles := roles[id := "assistant"];
      i := |c.history| - 1;
    }

    /** Records a call seen for the first time and mentions it on its parent message. */
    method RecordCall(id: string, name: string, parent: string)
      modifies `started, `roles, c`history, c`toolCalls, c`calls
      ensures Raw() == Threads.RecordCall(old(Raw()), ctx, id, name, parent)
      ensures id in c.calls && c.calls[id] < |c.toolCalls| && c.toolCalls[c.calls[id]].args == ""
    {
      hide Threads.ParentMessage;
      c.calls := c.calls[id := |c.toolCalls|];
      c.toolCalls := c.toolCalls + [ToolCall(ctx.run, id, name, "", None, "", name in ctx.declared)];
      SameParent(Raw(), old(Raw()), ctx, parent);
      var i := ParentMessage(parent);
      var m := c.history[i];
      c.history := c.history[i := m.(toolCalls := m.toolCalls + [MessageToolCall(id, name, "", "")])];
    }

    /** Starts or reopens a streamed call. */
    method OpenCall(id: string, name: string, parent: string)
      requires Valid()
      modifies this, c
      ensures Valid() && id in c.args
      ensures Logical() == Threads.OpenCall(old(Logical()), ctx, id, name, parent)
    {
      hide WellFormed, Find, View, Threads.RecordCall, OpenArgs, AddRef, Fresh;
      LogicalIsWellFormed();
      OpenCallKeeps(Logical(), ctx, id, name, parent);
      var known := id in c.calls;
      if !known {
        RecordCallShown(Raw(), c.text, c.args, ctx, id, name, parent);
        RecordCallKeeps(Logical(), ctx, id, name, parent);
        RecordCall(id, name, parent);
        StillValid();
      }
      OpenArgsShown(Raw(), c.text, c.args, id);
      if id !in c.args {
        c.args := c.args[id := if known then c.toolCalls[c.calls[id]].args else ""];
      }
      RefsShown(Raw(), c.text, c.args, AddRef(refs, ItemRef(CallRef, id)));
      LogicalFields();
      Ref(CallRef, id);
      StillValid();
    }

    /** An arguments delta. */
    method AppendArgs(id: string, delta: string)
      requires Valid()
      modifies this, c
      ensures Valid() && Logical() == Threads.AppendArgs(old(Logical()), ctx, id, delta)
    {
      hide WellFormed, Find, View, Threads.OpenCall, Threads.AppendArgs, Fresh;
      LogicalIsWellFormed();
      AppendArgsKeeps(Logical(), ctx, id, delta);
      if id !in c.args {
        AppendArgsOpens(Logical(), ctx, id, delta);
        OpenCall(id, "", "");
      }
      AppendArgsShown(Raw(), c.text, c.args, ctx, id, delta);
      c.args := c.args[id := c.args[id] + delta];
      StillValid();
    }

    /** A backend tool's result, recorded as a tool message and on its call. */
    method ToolResult(e: Event)
      requires Valid() && e.typ.ToolCallResult?
      modifies this, c
      ensures Valid() && Logical() == Buffered(old(Logical()), ctx, e)
    {
      hide WellFormed, Find, View, ContentText, Buffered, Fresh;
      LogicalIsWellFormed();
      BufferedKeeps(Logical(), ctx, e);
      ToolResultShown(Raw(), c.text, c.args, ctx, e);
      ghost var raw := Raw();
      var msg := Message(e.messageId, "tool", e.content, "", [], e.toolCallId, "", "");
      var i := c.FindMessage(e.messageId);
      if i >= 0 {
        c.history := c.history[i := msg];
      } else {
        c.history := c.history + [msg];
      }
      if e.toolCallId in c.calls {
        IndexInBounds(Held(raw, c.text, c.args), e.toolCallId);
        var k := c.calls[e.toolCallId];
        c.toolCalls := c.toolCalls[k := c.toolCalls[k].(result := Some(ContentText(e.content)))];
      }
      Ref(ResultRef, e.toolCallId);
      assert Raw() == Threads.ToolResult(raw, e);
      StillValid();
    }

    /** One message of a snapshot: records what the run produced only through it. */
    method RecordSnapshot(m: Message)
      requires Valid() && c.text == map[] && c.args == map[]
      modifies `roles, `refs, `seen, c`texts, c`toolCalls, c`calls
      ensures Raw() == Threads.RecordSnapshot(old(Raw()), ctx, m) && Valid()
    {
      hide WellFormed, ContentText, AddRef, Threads.RecordSnapshotCalls, Fresh;
      assert Held(Raw(), map[], map[]) == Raw();
      SnapshotKeeps(Raw(), ctx, m);
      assert Held(Threads.RecordSnapshot(Raw(), ctx, m), map[], map[]) == Threads.RecordSnapshot(Raw(), ctx, m) by {
        SnapshotStreamsNothing(Raw(), ctx, m);
      }
      if m.id in ctx.before {
        return;
      }
      if m.role == "assistant" || m.role == "reasoning" {
        var text := ContentText(m.content);
        c.texts := c.texts[m.id := text];
        if m.id !in roles || roles[m.id] == "" {
          roles := roles[m.id := m.role];
        }
        if text != "" {
          Ref(if m.role == "reasoning" then ReasoningRef else TextRef, m.id);
        }
        RecordSnapshotCalls(m.toolCalls);
      } else if m.role == "tool" {
        if m.toolCallId in c.calls {
          IndexInBounds(Raw(), m.toolCallId);
          var k := c.calls[m.toolCallId];
          if c.toolCalls[k].result.None? {
            c.toolCalls := c.toolCalls[k := c.toolCalls[k].(result := Some(ContentText(m.content)))];
            Ref(ResultRef, m.toolCallId);
          }
        }
      }
    }

    /** Replaces the history with a snapshot, activity messages stripped, and records what is new in it. */
    method Snapshot(msgs: seq<Message>)
      requires Valid()
      modifies this, c
      ensures Valid() && Logical() == Threads.Snapshot(old(Logical()), ctx, msgs)
    {
      hide WellFormed, Shown, ShownToolCalls, Threads.RecordSnapshot, Fresh;
      LogicalIsWellFormed();
      MaterializedView(Raw(), c.text, c.args,
                       Raw().(history := Shown(c.history, c.text, c.args),
                              toolCalls := ShownToolCalls(c.toolCalls, c.args), texts := c.texts + c.text));
      ConversationIsValid();
      c.Materialize();
      NothingBuffered(Raw());
      assert Raw() == old(Logical()).(streaming := {}, streamingArgs := {});
      c.history := [];
      var k := 0;
      while k < |msgs|
        invariant 0 <= k <= |msgs|
        invariant c.text == map[] && c.args == map[] && seen == (set ref | ref in refs)
        invariant Raw() == old(Logical()).(streaming := {}, streamingArgs := {},
                                           history := Filter(NotActivity, msgs[..k]))
      {
        assert msgs[..k + 1] == msgs[..k] + [msgs[k]];
        FilterConcat(NotActivity, msgs[..k], [msgs[k]]);
        if msgs[k].role != "activity" {
          c.history := c.history + [msgs[k]];
        }
        k := k + 1;
      }
      assert msgs[..k] == msgs;
      SnapshotStart(old(Logical()), c.history);
      RecordSnapshots();
      NothingBuffered(Raw());
    }

    method RecordSnapshots()
      requires Valid() && c.text == map[] && c.args == map[]
      modifies `roles, `refs, `seen, c`texts, c`toolCalls, c`calls
      ensures Raw() == Threads.RecordSnapshots(old(Raw()), ctx, c.history) && Valid()
    {
      hide WellFormed, Threads.RecordSnapshot, Fresh;
      var k := 0;
      while k < |c.history|
        invariant 0 <= k <= |c.history|
        invariant Valid() && Raw() == Threads.RecordSnapshots(old(Raw()), ctx, c.history[..k])
      {
        assert c.history[..k + 1][..k] == c.history[..k];
        RecordSnapshot(c.history[k]);
        k := k + 1;
      }
      assert c.history[..k] == c.history;
    }

    method RecordSnapshotCalls(tcs: seq<MessageToolCall>)
      requires seen == set ref | ref in refs
      modifies `refs, `seen, c`toolCalls, c`calls
      ensures Raw() == Threads.RecordSnapshotCalls(old(Raw()), ctx, tcs) && seen == set ref | ref in refs
    {
      hide Threads.RecordSnapshotCall;
      var j := 0;
      while j < |tcs|
        invariant 0 <= j <= |tcs|
        invariant seen == set ref | ref in refs
        invariant Raw() == Threads.RecordSnapshotCalls(old(Raw()), ctx, tcs[..j])
      {
        assert tcs[..j + 1][..j] == tcs[..j];
        RecordSnapshotCall(tcs[j]);
        j := j + 1;
      }
      assert tcs[..j] == tcs;
    }

    method RecordSnapshotCall(tc: MessageToolCall)
      requires seen == set ref | ref in refs
      modifies `refs, `seen, c`toolCalls, c`calls
      ensures Raw() == Threads.RecordSnapshotCall(old(Raw()), ctx, tc) && seen == set ref | ref in refs
    {
      if tc.id !in c.calls {
        c.calls := c.calls[tc.id := |c.toolCalls|];
        c.toolCalls := c.toolCalls +
                       [ToolCall(ctx.run, tc.id, tc.name, tc.arguments, None, "", tc.name in ctx.declared)];
      }
      Ref(CallRef, tc.id);
    }

    /** One event. Says whether a STATE_DELTA could not be applied, which is the one warning the reducer gives. */
    method Apply(e: Event) returns (warned: bool)
      requires Valid()
      modifies this, c
      ensures Valid() && Logical() == Buffered(old(Logical()), ctx, e)
      ensures Logical() == Applied(old(Logical()), ctx, e) <==> !Clashes(old(Logical()), e)
      ensures warned <==> e.typ.StateDelta? && !(e.patch.Some? && ApplyPatchSpec(old(c.state), e.patch.value).Some?)
    {
      hide WellFormed, View, Threads.OpenMessage, Threads.AppendText, Threads.OpenCall, Threads.AppendArgs, Fresh;
      hide Threads.Snapshot, Threads.ToolResult, Encrypted;
      warned := false;
      LogicalIsWellFormed();
      BufferedKeeps(Logical(), ctx, e);
      BufferingIsInvisible(Logical(), ctx, e);
      match e.typ
      case TextMessageStart =>
        OpenMessage(e.messageId, if e.role == "" then "assistant" else e.role, e.name, TextRef);
      case TextMessageContent => AppendText(e.messageId, TextRef, DeltaText(e));
      case ReasoningMessageStart => OpenMessage(e.messageId, "reasoning", "", ReasoningRef);
      case ReasoningMessageContent => AppendText(e.messageId, ReasoningRef, DeltaText(e));
      case ReasoningEncryptedValue =>
        EncryptedView(Raw(), c.text, c.args, e);
        c.Encrypt(e);
        StillValid();
      case ToolCallStart => OpenCall(e.toolCallId, e.toolCallName, e.parentMessageId);
      case ToolCallArgs => AppendArgs(e.toolCallId, DeltaText(e));
      case ToolCallResult => ToolResult(e);
      case StateSnapshot =>
        if e.snapshot.Some? {
          StateView(Raw(), c.text, c.args, e.snapshot.value);
          c.state := e.snapshot.value;
          StillValid();
        }
      case StateDelta =>
        StateView(Raw(), c.text, c.args, c.state);
        var patched := if e.patch.Some? then ApplyPatchSpec(c.state, e.patch.value) else None;
        if patched.None? {
          return true;
        }
        StateView(Raw(), c.text, c.args, patched.value);
        c.state := patched.value;
        StillValid();
      case MessagesSnapshot => Snapshot(e.messages);
      case _ =>
    }

    /** The run's items, resolved to their final content. No reference is dangling. */
    method ResolveItems() returns (out: seq<Item>)
      requires Valid() && c.text == map[] && c.args == map[]
      ensures out == Items(Logical())
    {
      hide Find;
      NothingBuffered(Raw());
      out := [];
      var k := 0;
      while k < |refs|
        invariant 0 <= k <= |refs| && out == Items(Logical())[..k]
      {
        var ref := refs[k];
        match ref.kind {
        case TextRef | ReasoningRef =>
          out := out + [Item(ref.kind, StringAt(roles, ref.id), ref.id, "", "", StringAt(c.texts, ref.id))];
        case CallRef =>
          var tc := c.toolCalls[c.calls[ref.id]];
          out := out + [Item(ref.kind, "", "", tc.id, tc.name, tc.args)];
        case ResultRef =>
          var it := Item(ref.kind, "", "", ref.id, "", "");
          if ref.id in c.calls {
            var tc := c.toolCalls[c.calls[ref.id]];
            it := it.(name := tc.name);
            if tc.result.Some? {
              it := it.(text := tc.result.value);
            }
          }
          out := out + [it];
        }
        k := k + 1;
      }
    }
  }

  lemma EncryptedView(raw: Thread, text: map<string, string>, args: map<string, string>, e: Event)
    ensures View(raw.(history := Encrypted(raw.history, e)), text, args) ==
            View(raw, text, args).(history := Encrypted(View(raw, text, args).history, e))
  {
    hide Shown, ShownToolCalls, Encrypted;
    EncryptedShown(raw.history, text, args, e);
  }

  lemma StateView(raw: Thread, text: map<string, string>, args: map<string, string>, state: Json)
    ensures View(raw.(state := state), text, args) == View(raw, text, args).(state := state)
    ensures View(raw, text, args).state == raw.state
  {
    hide Shown, ShownToolCalls;
  }

  // ----- a whole run -----

  /** What a run's reduction starts from and leaves, apart from the events themselves. */
  function Settled(t: Thread): Thread { t.(streaming := {}, streamingArgs := {}) }

  /** A whole run: the thread it leaves and the items it produced. */
  function RunResult(t: Thread, run: nat, declared: set<string>, mint: set<string> -> string, es: seq<Event>)
    : (Thread, seq<Item>)
  {
    var after := Settled(BufferedAll(t, RunContext(run, declared, Ids(t.history), mint), es));
    (after.(started := {}, roles := map[], refs := []), Items(after))
  }

  /** Reduces the requested run of a response and records what it produced. */
  method ReduceRun(c: Conversation, run: nat, declared: set<string>, mint: set<string> -> string, events: seq<Event>)
    returns (items: seq<Item>)
    requires c.Valid() && Fresh(mint)
    modifies c
    ensures c.Valid() && c.text == map[] && c.args == map[]
    ensures (c.Seen(), items) == RunResult(old(c.Seen()), run, declared, mint, events)
  {
    hide WellFormed, Shown, ShownToolCalls, Buffered, Find, Fresh;
    var before := {};
    var i := 0;
    while i < |c.history|
      invariant 0 <= i <= |c.history| && before == Ids(c.history[..i])
    {
      before := before + {c.history[i].id};
      i := i + 1;
    }
    assert c.history[..i] == c.history;
    IdsShown(c.history, c.text, c.args);
    var ctx := RunContext(run, declared, before, mint);
    var r := new Reducer(c, ctx);
    var k := 0;
    while k < |events|
      invariant 0 <= k <= |events|
      invariant r.Valid() && r.c == c && r.ctx == ctx && fresh(r)
      invariant r.Logical() == BufferedAll(old(c.Seen()), ctx, events[..k])
    {
      assert events[..k + 1][..k] == events[..k];
      var _ := r.Apply(events[k]);
      k := k + 1;
    }
    assert events[..k] == events;
    r.ConversationIsValid();
    ghost var raw, text, args := r.Raw(), c.text, c.args;
    c.Materialize();
    MaterializedView(raw, text, args, r.Raw());
    items := r.ResolveItems();
  }

  lemma SnapshotStart(t: Thread, h: seq<Message>)
    requires WellFormed(t)
    ensures WellFormed(Held(t.(streaming := {}, streamingArgs := {}, history := h), map[], map[]))
  {
    hide Find, Indexed;
  }

  lemma SnapshotStreamsNothing(t: Thread, ctx: RunContext, m: Message)
    ensures RecordSnapshot(t, ctx, m).streaming == t.streaming
    ensures RecordSnapshot(t, ctx, m).streamingArgs == t.streamingArgs
  {
    hide Find, ContentText;
    var t1 := t.(texts := t.texts[m.id := ContentText(m.content)], roles := RoleOr(t.roles, m.id, m.role));
    var kind := if m.role == "reasoning" then ReasoningRef else TextRef;
    SnapshotCallsStreamNothing(t1, ctx, m.toolCalls);
    SnapshotCallsStreamNothing(t1.(refs := AddRef(t1.refs, ItemRef(kind, m.id))), ctx, m.toolCalls);
  }

  lemma {:induction false} SnapshotCallsStreamNothing(t: Thread, ctx: RunContext, tcs: seq<MessageToolCall>)
    ensures RecordSnapshotCalls(t, ctx, tcs).streaming == t.streaming
    ensures RecordSnapshotCalls(t, ctx, tcs).streamingArgs == t.streamingArgs
  {
    if tcs != [] {
      SnapshotCallsStreamNothing(t, ctx, tcs[..|tcs| - 1]);
    }
  }

  lemma IndexInBounds(raw: Thread, id: string)
    requires id in raw.calls && WellFormed(raw)
    ensures raw.calls[id] < |raw.toolCalls|
  {
  }

  // ----- what the items of a run say -----

  lemma UndisturbedIsEager(t: Thread, ctx: RunContext, es: seq<Event>)
    requires Deltas.Undisturbed(t, ctx, es)
    ensures BufferedAll(t, ctx, es) == AppliedAll(t, ctx, es)
  {
    hide Clashes, AppliedAll, BufferedAll;
    RunsReduceEagerly(t, ctx, es);
  }

  lemma {:induction false} RunKeeps(t: Thread, ctx: RunContext, es: seq<Event>)
    requires WellFormed(t)
    ensures WellFormed(BufferedAll(t, ctx, es))
  {
    hide WellFormed, Buffered;
    if es != [] {
      RunKeeps(t, ctx, es[..|es| - 1]);
      BufferedKeeps(BufferedAll(t, ctx, es[..|es| - 1]), ctx, es[|es| - 1]);
    }
  }

  /** An item about a message has the message's recorded role and text; one about a call the call's name, with its
      arguments, or with its result when the item is the result. */
  predicate SaysItem(t: Thread, ref: ItemRef, item: Item) {
    && item.kind == ref.kind
    && (ref.kind.TextRef? || ref.kind.ReasoningRef? ==>
          && item.messageId == ref.id && item.toolCallId == "" == item.name
          && (ref.id in t.roles ==> item.role == t.roles[ref.id])
          && (ref.id in t.texts ==> item.text == t.texts[ref.id]))
    && (ref.kind.CallRef? || ref.kind.ResultRef? ==>
          && item.toolCallId == ref.id && item.messageId == "" == item.role
          && (forall i | 0 <= i < |t.toolCalls| && t.toolCalls[i].id == ref.id ::
                && item.name == t.toolCalls[i].name
                && (ref.kind.CallRef? ==> item.text == t.toolCalls[i].args)
                && (ref.kind.ResultRef? && t.toolCalls[i].result.Some? ==> item.text == t.toolCalls[i].result.value)
                && (ref.kind.ResultRef? && t.toolCalls[i].result.None? ==> item.text == ""))
          && ((forall i | 0 <= i < |t.toolCalls| :: t.toolCalls[i].id != ref.id) ==> item.name == "" == item.text))
  }

  lemma SaysOne(t: Thread, ref: ItemRef)
    requires WellFormed(t)
    ensures SaysItem(t, ref, ItemOf(t, ref))
  {
    hide Find;
    if CallIndex(t, ref.id) >= 0 {
      assert t.toolCalls[CallIndex(t, ref.id)].id == ref.id;
    }
  }

  /** A run's items are what it produced, in the order it first produced it, said as the run left it. */
  lemma ItemsSayTheRecord(t: Thread, run: nat, declared: set<string>, mint: set<string> -> string, es: seq<Event>)
    requires WellFormed(t)
    ensures var before := BufferedAll(t, RunContext(run, declared, Ids(t.history), mint), es);
            var (after, items) := RunResult(t, run, declared, mint, es);
            && after == before.(streaming := {}, streamingArgs := {}, started := {}, roles := map[], refs := [])
            && |items| == |before.refs| && forall k | 0 <= k < |items| :: SaysItem(before, before.refs[k], items[k])
  {
    var ctx := RunContext(run, declared, Ids(t.history), mint);
    var before := BufferedAll(t, ctx, es);
    RunKeeps(t, ctx, es);
    hide BufferedAll, SaysItem, Find, Indexed;
    forall k | 0 <= k < |before.refs|
      ensures SaysItem(before, before.refs[k], ItemOf(Settled(before), before.refs[k]))
    {
      SaysOne(before, before.refs[k]);
      SameItem(before, before.refs[k]);
    }
  }

  lemma SameItem(t: Thread, ref: ItemRef)
    ensures ItemOf(Settled(t), ref) == ItemOf(t, ref)
  {
  }

  /** A run without a snapshot and without a clashing result: each message item carries the message's text, and each
      call item the call's arguments, as the thread has them after the run. */
  lemma ItemsSayTheThread(t: Thread, run: nat, declared: set<string>, mint: set<string> -> string, es: seq<Event>,
                          k: nat)
    requires WellFormed(t) && Fresh(mint) && t.streaming == {} && t.refs == []
    requires Deltas.Undisturbed(t, RunContext(run, declared, Ids(t.history), mint), es)
    requires k < |RunResult(t, run, declared, mint, es).1|
    ensures var (after, items) := RunResult(t, run, declared, mint, es);
            var item := items[k];
            && (item.kind.TextRef? || item.kind.ReasoningRef? ==> item.text == TextOf(after.history, item.messageId))
            && (item.kind.CallRef? ==> item.text == Deltas.ArgsOf(after, item.toolCallId))
  {
    hide WellFormed, Deltas.Undisturbed, TextOf, AppliedAll, BufferedAll;
    var ctx := RunContext(run, declared, Ids(t.history), mint);
    UndisturbedIsEager(t, ctx, es);
    Deltas.RunOnRecord(t, ctx, es);
    var after := AppliedAll(t, ctx, es);
    assert after.refs[k] in after.refs;
  }

  /** So a message item carries the message's earlier text and the run's content deltas for it, in order, when no
      tool result takes the message's id; and a call item the call's earlier arguments and its argument deltas. */
  lemma ItemsSayTheDeltas(t: Thread, run: nat, declared: set<string>, mint: set<string> -> string, es: seq<Event>,
                          k: nat)
    requires WellFormed(t) && Fresh(mint) && t.streaming == {} && t.refs == []
    requires Deltas.Undisturbed(t, RunContext(run, declared, Ids(t.history), mint), es)
    requires k < |RunResult(t, run, declared, mint, es).1|
    ensures var item := RunResult(t, run, declared, mint, es).1[k];
            && ((item.kind.TextRef? || item.kind.ReasoningRef?)
                && (forall e | e in es :: !(e.typ.ToolCallResult? && e.messageId == item.messageId)) ==>
                  item.text == TextOf(t.history, item.messageId) + Deltas.TextDeltas(es, item.messageId))
            && (item.kind.CallRef? ==>
                  item.text == Deltas.ArgsOf(t, item.toolCallId) + Deltas.ArgsDeltas(es, item.toolCallId))
  {
    hide WellFormed, TextOf, Clashes, AppliedAll, BufferedAll, Deltas.TextDeltas, Deltas.ArgsDeltas, Deltas.ArgsOf;
    var ctx := RunContext(run, declared, Ids(t.history), mint);
    var item := RunResult(t, run, declared, mint, es).1[k];
    ItemsSayTheThread(t, run, declared, mint, es, k);
    UndisturbedIsEager(t, ctx, es);
    forall e | e in es ensures !e.typ.MessagesSnapshot? {
      var i :| 0 <= i < |es| && es[i] == e;
    }
    if item.kind.CallRef? {
      Deltas.ArgsAreTheirDeltas(t, ctx, es, item.toolCallId);
      SettledArgs(AppliedAll(t, ctx, es), item.toolCallId);
    } else if forall e | e in es :: !(e.typ.ToolCallResult? && e.messageId == item.messageId) {
      Deltas.TextIsItsDeltas(t, ctx, es, item.messageId);
    }
  }

  lemma SettledArgs(t: Thread, id: string)
    ensures Deltas.ArgsOf(Settled(t).(started := {}, roles := map[], refs := []), id) == Deltas.ArgsOf(t, id)
  {
  }
}
