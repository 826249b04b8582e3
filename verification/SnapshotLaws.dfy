/** What a messages snapshot puts on record, said of its list of messages. */
module SnapshotLaws {
  import opened Prelude
  import opened Events
  import opened Threads
  import opened ThreadLaws

  /** A message the run produced, if only through the snapshot. */
  predicate Produced(ctx: RunContext, m: Message) {
    m.id !in ctx.before && (m.role == "assistant" || m.role == "reasoning")
  }

  ghost predicate Mentions(ms: seq<Message>, ctx: RunContext, tc: MessageToolCall) {
    exists m :: m in ms && Produced(ctx, m) && tc in m.toolCalls
  }

  ghost predicate MentionsId(ms: seq<Message>, ctx: RunContext, id: string) {
    exists tc :: Mentions(ms, ctx, tc) && tc.id == id
  }

  /** The call is recorded as some message of the snapshot mentions it. */
  ghost predicate AsMentioned(call: ToolCall, ctx: RunContext, ms: seq<Message>) {
    exists tc :: Mentions(ms, ctx, tc)
                 && call == ToolCall(ctx.run, tc.id, tc.name, tc.arguments, call.result, "", tc.name in ctx.declared)
  }

  predicate ResultIn(ctx: RunContext, m: Message, id: string) {
    m.id !in ctx.before && m.role == "tool" && m.toolCallId == id
  }

  function ResultWas(t: Thread, i: nat): Option<string> {
    if i < |t.toolCalls| then t.toolCalls[i].result else None
  }

  ghost predicate HasResult(ms: seq<Message>, ctx: RunContext, id: string) {
    exists m :: m in ms && ResultIn(ctx, m, id)
  }

  /** A call keeps its result, or gets one it did not have from a tool message of the snapshot. */
  ghost predicate Filled(was: Option<string>, call: ToolCall, ctx: RunContext, ms: seq<Message>) {
    || call.result == was
    || (was.None? && exists m :: m in ms && ResultIn(ctx, m, call.id) && call.result == Some(ContentText(m.content)))
  }

  /** A call is new to the record exactly when a message the run produced mentions it, and a call on record without a
      result has one afterwards when a tool message of the run gives it. */
  ghost predicate CallsTell(t: Thread, t1: Thread, ctx: RunContext, ms: seq<Message>) {
    && |t.toolCalls| <= |t1.toolCalls|
    && (forall id :: id in t1.calls <==> id in t.calls || MentionsId(ms, ctx, id))
    && (forall i: nat | |t.toolCalls| <= i < |t1.toolCalls| :: AsMentioned(t1.toolCalls[i], ctx, ms))
    && (forall i: nat | i < |t1.toolCalls| :: Filled(ResultWas(t, i), t1.toolCalls[i], ctx, ms))
    && (forall i: nat | i < |t.toolCalls| && HasResult(ms, ctx, t.toolCalls[i].id) :: t1.toolCalls[i].result.Some?)
  }

  predicate ShownBy(ctx: RunContext, m: Message, ref: ItemRef) {
    && Produced(ctx, m)
    && match ref.kind
       case CallRef => exists tc :: tc in m.toolCalls && tc.id == ref.id
       case TextRef => m.role == "assistant" && m.id == ref.id && ContentText(m.content) != ""
       case ReasoningRef => m.role == "reasoning" && m.id == ref.id && ContentText(m.content) != ""
       case ResultRef => false
  }

  ghost predicate Shows(ms: seq<Message>, ctx: RunContext, ref: ItemRef) {
    exists m :: m in ms && ShownBy(ctx, m, ref)
  }

  ghost predicate GotResult(t: Thread, t1: Thread, id: string) {
    exists i: nat :: i < |t1.toolCalls| && t1.toolCalls[i].id == id && t1.toolCalls[i].result != ResultWas(t, i)
  }

  /** The items listed after the earlier ones are the messages with a text and the calls the run produced, and the
      results that were filled in. */
  ghost predicate RefsTell(t: Thread, t1: Thread, ctx: RunContext, ms: seq<Message>) {
    && t.refs <= t1.refs
    && forall ref :: ref in t1.refs <==>
         || ref in t.refs
         || if ref.kind.ResultRef? then GotResult(t, t1, ref.id) else Shows(ms, ctx, ref)
  }

  predicate LastProduced(ctx: RunContext, ms: seq<Message>, j: nat) {
    && j < |ms| && Produced(ctx, ms[j])
    && forall i | j < i < |ms| :: !(Produced(ctx, ms[i]) && ms[i].id == ms[j].id)
  }

  predicate FirstProduced(ctx: RunContext, ms: seq<Message>, j: nat) {
    && j < |ms| && Produced(ctx, ms[j])
    && forall i | 0 <= i < j :: !(Produced(ctx, ms[i]) && ms[i].id == ms[j].id)
  }

  ghost predicate ProducedId(ctx: RunContext, ms: seq<Message>, id: string) {
    exists m :: m in ms && Produced(ctx, m) && m.id == id
  }

  predicate SameAt(m: map<string, string>, m1: map<string, string>, id: string) {
    (id in m1 <==> id in m) && (id in m ==> m1[id] == m[id])
  }

  /** The role a message is first produced under, or the one it has already. */
  function RoleWas(t: Thread, m: Message): string {
    if m.id in t.roles && t.roles[m.id] != "" then t.roles[m.id] else m.role
  }

  /** A produced message has the text of its last entry, under the role it was first produced under. */
  ghost predicate TextsTell(t: Thread, t1: Thread, ctx: RunContext, ms: seq<Message>) {
    && (forall id | !ProducedId(ctx, ms, id) :: SameAt(t.texts, t1.texts, id) && SameAt(t.roles, t1.roles, id))
    && (forall j: nat | LastProduced(ctx, ms, j) ::
          ms[j].id in t1.texts && t1.texts[ms[j].id] == ContentText(ms[j].content))
    && (forall j: nat | FirstProduced(ctx, ms, j) ::
          && ms[j].id in t1.roles
          && t1.roles[ms[j].id] == RoleWas(t, ms[j]))
  }

  // ----- one message more -----

  lemma MentionsMore(ms: seq<Message>, m: Message, ctx: RunContext, tc: MessageToolCall)
    ensures Mentions(ms + [m], ctx, tc) <==> Mentions(ms, ctx, tc) || (Produced(ctx, m) && tc in m.toolCalls)
  {
    if Mentions(ms, ctx, tc) {
      var k :| k in ms && Produced(ctx, k) && tc in k.toolCalls;
      assert k in ms + [m];
    }
    assert m in ms + [m];
  }

  lemma MentionsIdMore(ms: seq<Message>, m: Message, ctx: RunContext, id: string)
    ensures MentionsId(ms + [m], ctx, id) <==>
              MentionsId(ms, ctx, id) || (Produced(ctx, m) && exists tc :: tc in m.toolCalls && tc.id == id)
  {
    hide Mentions;
    forall tc ensures Mentions(ms + [m], ctx, tc) <==>
                        Mentions(ms, ctx, tc) || (Produced(ctx, m) && tc in m.toolCalls)
    {
      MentionsMore(ms, m, ctx, tc);
    }
    if MentionsId(ms, ctx, id) {
      var tc :| Mentions(ms, ctx, tc) && tc.id == id;
      assert Mentions(ms + [m], ctx, tc);
    }
    if tc :| Produced(ctx, m) && tc in m.toolCalls && tc.id == id {
      assert Mentions(ms + [m], ctx, tc);
    }
  }

  // ----- what one message does -----

  predicate Mentioned(tcs: seq<MessageToolCall>, id: string) { exists tc :: tc in tcs && tc.id == id }

  /** A new record of one of these mentions. */
  ghost predicate AsListed(call: ToolCall, ctx: RunContext, tcs: seq<MessageToolCall>) {
    exists tc :: tc in tcs
                 && call == ToolCall(ctx.run, tc.id, tc.name, tc.arguments, None, "", tc.name in ctx.declared)
  }

  ghost predicate CallsListed(t: Thread, t1: Thread, ctx: RunContext, tcs: seq<MessageToolCall>) {
    && t.toolCalls <= t1.toolCalls && t.refs <= t1.refs && t1.texts == t.texts && t1.roles == t.roles
    && (forall id :: id in t1.calls <==> id in t.calls || Mentioned(tcs, id))
    && (forall i: nat | |t.toolCalls| <= i < |t1.toolCalls| :: AsListed(t1.toolCalls[i], ctx, tcs))
    && (forall ref :: ref in t1.refs <==> ref in t.refs || (ref.kind.CallRef? && Mentioned(tcs, ref.id)))
  }

  lemma ListedMore(ctx: RunContext, tcs: seq<MessageToolCall>, tc: MessageToolCall)
    ensures forall id :: Mentioned(tcs + [tc], id) <==> Mentioned(tcs, id) || tc.id == id
    ensures forall call :: AsListed(call, ctx, tcs) ==> AsListed(call, ctx, tcs + [tc])
    ensures AsListed(ToolCall(ctx.run, tc.id, tc.name, tc.arguments, None, "", tc.name in ctx.declared), ctx,
                     tcs + [tc])
  {
    assert tc in tcs + [tc];
    forall id ensures Mentioned(tcs + [tc], id) <==> Mentioned(tcs, id) || tc.id == id {
      if x :| x in tcs && x.id == id {
        assert x in tcs + [tc];
      }
    }
    forall call | AsListed(call, ctx, tcs) ensures AsListed(call, ctx, tcs + [tc]) {
      var x :| x in tcs
               && call == ToolCall(ctx.run, x.id, x.name, x.arguments, None, "", x.name in ctx.declared);
      assert x in tcs + [tc];
    }
  }

  lemma OneListed(t: Thread, t1: Thread, ctx: RunContext, tcs: seq<MessageToolCall>, tc: MessageToolCall)
    requires CallsListed(t, t1, ctx, tcs)
    ensures CallsListed(t, RecordSnapshotCall(t1, ctx, tc), ctx, tcs + [tc])
  {
    ListedMore(ctx, tcs, tc);
    hide AsListed, Mentioned;
  }

  lemma {:induction false} ListedCalls(t: Thread, ctx: RunContext, tcs: seq<MessageToolCall>)
    ensures CallsListed(t, RecordSnapshotCalls(t, ctx, tcs), ctx, tcs)
  {
    if tcs != [] {
      hide CallsListed, RecordSnapshotCall;
      var front, tc := tcs[..|tcs| - 1], tcs[|tcs| - 1];
      assert tcs == front + [tc];
      ListedCalls(t, ctx, front);
      OneListed(t, RecordSnapshotCalls(t, ctx, front), ctx, front, tc);
    }
  }

  /** A produced message puts its calls and its text on record, a tool message a result, any other nothing. */
  ghost predicate Step(t: Thread, t1: Thread, ctx: RunContext, m: Message) {
    if Produced(ctx, m) then
      var kind := if m.role == "reasoning" then ReasoningRef else TextRef;
      var t0 := t.(texts := t.texts[m.id := ContentText(m.content)], roles := RoleOr(t.roles, m.id, m.role),
                   refs := if ContentText(m.content) != "" then AddRef(t.refs, ItemRef(kind, m.id)) else t.refs);
      CallsListed(t0, t1, ctx, m.toolCalls)
    else if ResultIn(ctx, m, m.toolCallId) && m.toolCallId in t.calls && t.calls[m.toolCallId] < |t.toolCalls|
            && t.toolCalls[t.calls[m.toolCallId]].result.None? then
      var k := t.calls[m.toolCallId];
      t1 == t.(toolCalls := t.toolCalls[k := t.toolCalls[k].(result := Some(ContentText(m.content)))],
               refs := AddRef(t.refs, ItemRef(ResultRef, m.toolCallId)))
    else t1 == t
  }

  lemma RecordsOne(t: Thread, ctx: RunContext, m: Message)
    ensures Step(t, RecordSnapshot(t, ctx, m), ctx, m)
  {
    hide CallsListed, RecordSnapshotCalls, ContentText, RoleOr, AddRef;
    if Produced(ctx, m) {
      var kind := if m.role == "reasoning" then ReasoningRef else TextRef;
      var t0 := t.(texts := t.texts[m.id := ContentText(m.content)], roles := RoleOr(t.roles, m.id, m.role),
                   refs := if ContentText(m.content) != "" then AddRef(t.refs, ItemRef(kind, m.id)) else t.refs);
      ListedCalls(t0, ctx, m.toolCalls);
    }
  }

  // ----- calls -----

  lemma MoreResults(ms: seq<Message>, m: Message, ctx: RunContext)
    ensures forall id :: HasResult(ms + [m], ctx, id) <==> HasResult(ms, ctx, id) || ResultIn(ctx, m, id)
    ensures forall was, call :: Filled(was, call, ctx, ms) ==> Filled(was, call, ctx, ms + [m])
  {
    assert m in ms + [m];
    assert forall k | k in ms :: k in ms + [m];
  }

  lemma MoreMentioned(ms: seq<Message>, m: Message, ctx: RunContext)
    ensures forall call, r :: AsMentioned(call, ctx, ms) ==> AsMentioned(call.(result := r), ctx, ms + [m])
    ensures forall call, r | Produced(ctx, m) && AsListed(call, ctx, m.toolCalls) ::
              AsMentioned(call.(result := r), ctx, ms + [m])
  {
    forall tc
      ensures Mentions(ms + [m], ctx, tc) <==> Mentions(ms, ctx, tc) || (Produced(ctx, m) && tc in m.toolCalls)
    {
      MentionsMore(ms, m, ctx, tc);
    }
    hide Mentions;
  }

  /** The calls tell of one message more. */
  lemma CallsStep(t: Thread, t1: Thread, t2: Thread, ctx: RunContext, ms: seq<Message>, m: Message)
    requires CallsTell(t, t1, ctx, ms) && RecordKept(t, t1) && Indexed(t1.toolCalls, t1.calls) && Step(t1, t2, ctx, m)
    ensures CallsTell(t, t2, ctx, ms + [m])
  {
    forall id ensures MentionsId(ms + [m], ctx, id) <==>
                        MentionsId(ms, ctx, id) || (Produced(ctx, m) && Mentioned(m.toolCalls, id))
    {
      MentionsIdMore(ms, m, ctx, id);
    }
    MoreResults(ms, m, ctx);
    MoreMentioned(ms, m, ctx);
    if Produced(ctx, m) {
      CallsOfProduced(t, t1, t2, ctx, ms, m);
    } else {
      CallsOfOther(t, t1, t2, ctx, ms, m);
    }
  }

  lemma CallsOfProduced(t: Thread, t1: Thread, t2: Thread, ctx: RunContext, ms: seq<Message>, m: Message)
    requires CallsTell(t, t1, ctx, ms) && Produced(ctx, m) && Step(t1, t2, ctx, m)
    requires forall id :: MentionsId(ms + [m], ctx, id) <==> MentionsId(ms, ctx, id) || Mentioned(m.toolCalls, id)
    requires forall id :: HasResult(ms + [m], ctx, id) <==> HasResult(ms, ctx, id) || ResultIn(ctx, m, id)
    requires forall was, call :: Filled(was, call, ctx, ms) ==> Filled(was, call, ctx, ms + [m])
    requires forall call, r :: AsMentioned(call, ctx, ms) ==> AsMentioned(call.(result := r), ctx, ms + [m])
    requires forall call, r | AsListed(call, ctx, m.toolCalls) :: AsMentioned(call.(result := r), ctx, ms + [m])
    ensures CallsTell(t, t2, ctx, ms + [m])
  {
    hide MentionsId, AsMentioned, HasResult, Mentioned, ContentText, RoleOr, AddRef;
    forall i: nat | |t.toolCalls| <= i < |t2.toolCalls| ensures AsMentioned(t2.toolCalls[i], ctx, ms + [m]) {
      var call := t2.toolCalls[i];
      assert call == call.(result := call.result);
      if i < |t1.toolCalls| {
        assert AsMentioned(t1.toolCalls[i], ctx, ms);
      } else {
        assert AsListed(call, ctx, m.toolCalls);
      }
    }
    forall i: nat | i < |t2.toolCalls| ensures Filled(ResultWas(t, i), t2.toolCalls[i], ctx, ms + [m]) {
      if i < |t1.toolCalls| {
        assert Filled(ResultWas(t, i), t1.toolCalls[i], ctx, ms);
      } else {
        assert AsListed(t2.toolCalls[i], ctx, m.toolCalls);
      }
    }
  }

  lemma CallsOfOther(t: Thread, t1: Thread, t2: Thread, ctx: RunContext, ms: seq<Message>, m: Message)
    requires CallsTell(t, t1, ctx, ms) && RecordKept(t, t1) && Indexed(t1.toolCalls, t1.calls)
    requires !Produced(ctx, m) && Step(t1, t2, ctx, m)
    requires forall id :: MentionsId(ms + [m], ctx, id) <==> MentionsId(ms, ctx, id)
    requires forall id :: HasResult(ms + [m], ctx, id) <==> HasResult(ms, ctx, id) || ResultIn(ctx, m, id)
    requires forall was, call :: Filled(was, call, ctx, ms) ==> Filled(was, call, ctx, ms + [m])
    requires forall call, r :: AsMentioned(call, ctx, ms) ==> AsMentioned(call.(result := r), ctx, ms + [m])
    ensures CallsTell(t, t2, ctx, ms + [m])
  {
    hide MentionsId, AsMentioned, HasResult, ContentText, AddRef, CallsListed;
    assert m in ms + [m];
    forall i: nat | |t.toolCalls| <= i < |t2.toolCalls| ensures AsMentioned(t2.toolCalls[i], ctx, ms + [m]) {
      var call := t1.toolCalls[i];
      assert AsMentioned(call, ctx, ms) && t2.toolCalls[i] == call.(result := t2.toolCalls[i].result);
    }
    forall i: nat | i < |t2.toolCalls| ensures Filled(ResultWas(t, i), t2.toolCalls[i], ctx, ms + [m]) {
      assert Filled(ResultWas(t, i), t1.toolCalls[i], ctx, ms);
    }
  }

  // ----- items -----

  lemma ShowsMore(ms: seq<Message>, m: Message, ctx: RunContext, ref: ItemRef)
    ensures Shows(ms + [m], ctx, ref) <==> Shows(ms, ctx, ref) || ShownBy(ctx, m, ref)
  {
    hide ShownBy;
    assert m in ms + [m];
    assert forall k | k in ms :: k in ms + [m];
  }

  /** The items tell of one message more. */
  lemma RefsStep(t: Thread, t1: Thread, t2: Thread, ctx: RunContext, ms: seq<Message>, m: Message)
    requires RefsTell(t, t1, ctx, ms) && |t.toolCalls| <= |t1.toolCalls| && Indexed(t1.toolCalls, t1.calls)
    requires forall i: nat | i < |t1.toolCalls| && t1.toolCalls[i].result.None? :: ResultWas(t, i).None?
    requires Step(t1, t2, ctx, m)
    ensures RefsTell(t, t2, ctx, ms + [m])
  {
    RefsAfter(t1, t2, ctx, m);
    hide Shows, ShownBy, GotResult, Step, Indexed;
    forall ref ensures ref in t2.refs <==>
                         || ref in t.refs
                         || if ref.kind.ResultRef? then GotResult(t, t2, ref.id) else Shows(ms + [m], ctx, ref)
    {
      ShowsMore(ms, m, ctx, ref);
      if Produced(ctx, m) {
        SameResults(t, t1, t2, ctx, m, ref.id);
      } else {
        OneResult(t, t1, t2, ctx, m, ref.id);
      }
      NoResultShown(ctx, m, ref);
    }
  }

  lemma NoResultShown(ctx: RunContext, m: Message, ref: ItemRef)
    ensures ShownBy(ctx, m, ref) ==> Produced(ctx, m) && !ref.kind.ResultRef?
  {
  }

  lemma RefsAfter(t: Thread, t1: Thread, ctx: RunContext, m: Message)
    requires Step(t, t1, ctx, m)
    ensures t.refs <= t1.refs
    ensures forall ref :: ref in t1.refs <==>
              || ref in t.refs || ShownBy(ctx, m, ref)
              || (!Produced(ctx, m) && t1 != t && ref == ItemRef(ResultRef, m.toolCallId))
  {
    hide ContentText, RoleOr, AsListed;
  }

  lemma SameResults(t: Thread, t1: Thread, t2: Thread, ctx: RunContext, m: Message, id: string)
    requires |t.toolCalls| <= |t1.toolCalls| && Produced(ctx, m) && Step(t1, t2, ctx, m)
    ensures GotResult(t, t2, id) <==> GotResult(t, t1, id)
  {
    hide ContentText, RoleOr, AddRef, Mentioned;
    forall i: nat | |t1.toolCalls| <= i < |t2.toolCalls| ensures t2.toolCalls[i].result == ResultWas(t, i) {
      assert AsListed(t2.toolCalls[i], ctx, m.toolCalls);
    }
  }

  lemma OneResult(t: Thread, t1: Thread, t2: Thread, ctx: RunContext, m: Message, id: string)
    requires |t.toolCalls| <= |t1.toolCalls| && Indexed(t1.toolCalls, t1.calls)
    requires forall i: nat | i < |t1.toolCalls| && t1.toolCalls[i].result.None? :: ResultWas(t, i).None?
    requires !Produced(ctx, m) && Step(t1, t2, ctx, m)
    ensures GotResult(t, t2, id) <==> GotResult(t, t1, id) || (t2 != t1 && id == m.toolCallId)
  {
    hide ContentText, AddRef, CallsListed;
    if t2 != t1 {
      var k := t1.calls[m.toolCallId];
      assert t2.toolCalls[k].result.Some? && t2.toolCalls[k].id == m.toolCallId;
    }
  }

  // ----- texts and roles -----

  lemma ProducedMore(ctx: RunContext, ms: seq<Message>, m: Message, id: string)
    ensures ProducedId(ctx, ms + [m], id) <==> ProducedId(ctx, ms, id) || (Produced(ctx, m) && m.id == id)
  {
    assert m in ms + [m];
    assert forall k | k in ms :: k in ms + [m];
  }

  lemma FirstsMore(ctx: RunContext, ms: seq<Message>, m: Message, j: nat)
    ensures j < |ms| ==> (FirstProduced(ctx, ms + [m], j) <==> FirstProduced(ctx, ms, j))
    ensures j == |ms| ==> (FirstProduced(ctx, ms + [m], j) <==> Produced(ctx, m) && !ProducedId(ctx, ms, m.id))
    ensures j < |ms| ==> (LastProduced(ctx, ms + [m], j) <==>
                            LastProduced(ctx, ms, j) && !(Produced(ctx, m) && m.id == ms[j].id))
  {
    var all := ms + [m];
    assert all[|ms|] == m;
    forall i | 0 <= i < |ms| ensures all[i] == ms[i] {
    }
    if j == |ms| && ProducedId(ctx, ms, m.id) {
      var k :| k in ms && Produced(ctx, k) && k.id == m.id;
      var i :| 0 <= i < |ms| && ms[i] == k;
      assert all[i] == k;
    }
  }

  lemma {:induction false} FirstIs(ctx: RunContext, ms: seq<Message>, id: string) returns (j: nat)
    requires ProducedId(ctx, ms, id)
    ensures FirstProduced(ctx, ms, j) && ms[j].id == id
  {
    var front, m := ms[..|ms| - 1], ms[|ms| - 1];
    assert ms == front + [m];
    ProducedMore(ctx, front, m, id);
    if ProducedId(ctx, front, id) {
      j := FirstIs(ctx, front, id);
      FirstsMore(ctx, front, m, j);
    } else {
      j := |front|;
      FirstsMore(ctx, front, m, j);
    }
  }

  /** The texts tell of one message more. */
  lemma TextsStep(t: Thread, t1: Thread, t2: Thread, ctx: RunContext, ms: seq<Message>, m: Message)
    requires TextsTell(t, t1, ctx, ms) && Step(t1, t2, ctx, m)
    ensures TextsTell(t, t2, ctx, ms + [m])
  {
    TextsAfter(t1, t2, ctx, m);
    hide ContentText, Step, ProducedId, LastProduced, FirstProduced, Produced;
    var all := ms + [m];
    forall id | !ProducedId(ctx, all, id) ensures SameAt(t.texts, t2.texts, id) && SameAt(t.roles, t2.roles, id) {
      ProducedMore(ctx, ms, m, id);
    }
    forall j: nat | LastProduced(ctx, all, j)
      ensures j < |all| && all[j].id in t2.texts && t2.texts[all[j].id] == ContentText(all[j].content)
    {
      LastText(t, t1, t2, ctx, ms, m, j);
    }
    forall j: nat | FirstProduced(ctx, all, j)
      ensures j < |all| && all[j].id in t2.roles
      ensures t2.roles[all[j].id] == RoleWas(t, all[j])
    {
      FirstRole(t, t1, t2, ctx, ms, m, j);
    }
  }

  lemma LastText(t: Thread, t1: Thread, t2: Thread, ctx: RunContext, ms: seq<Message>, m: Message, j: nat)
    requires TextsTell(t, t1, ctx, ms) && LastProduced(ctx, ms + [m], j)
    requires t2.texts == if Produced(ctx, m) then t1.texts[m.id := ContentText(m.content)] else t1.texts
    ensures (ms + [m])[j].id in t2.texts && t2.texts[(ms + [m])[j].id] == ContentText((ms + [m])[j].content)
  {
    FirstsMore(ctx, ms, m, j);
    hide ContentText, ProducedId, FirstProduced;
  }

  lemma FirstRole(t: Thread, t1: Thread, t2: Thread, ctx: RunContext, ms: seq<Message>, m: Message, j: nat)
    requires TextsTell(t, t1, ctx, ms) && FirstProduced(ctx, ms + [m], j)
    requires t2.roles ==
             if !Produced(ctx, m) || (m.id in t1.roles && t1.roles[m.id] != "") then t1.roles
             else t1.roles[m.id := m.role]
    ensures (ms + [m])[j].id in t2.roles && t2.roles[(ms + [m])[j].id] == RoleWas(t, (ms + [m])[j])
  {
    FirstsMore(ctx, ms, m, j);
    hide ContentText, ProducedId, LastProduced;
    if j == |ms| {
      assert SameAt(t.roles, t1.roles, m.id);
    } else {
      assert FirstProduced(ctx, ms, j) && ms[j].role != "";
    }
  }

  lemma TextsAfter(t: Thread, t1: Thread, ctx: RunContext, m: Message)
    requires Step(t, t1, ctx, m)
    ensures if Produced(ctx, m) then
              && t1.texts == t.texts[m.id := ContentText(m.content)]
              && t1.roles == (if m.id in t.roles && t.roles[m.id] != "" then t.roles else t.roles[m.id := m.role])
            else t1.texts == t.texts && t1.roles == t.roles
  {
    hide ContentText, AddRef, Mentioned, AsListed;
  }

  // ----- the whole snapshot -----

  ghost predicate Tells(t: Thread, t1: Thread, ctx: RunContext, ms: seq<Message>) {
    && RecordKept(t, t1) && CallsTell(t, t1, ctx, ms) && RefsTell(t, t1, ctx, ms) && TextsTell(t, t1, ctx, ms)
  }

  lemma NothingTells(t: Thread, ctx: RunContext)
    ensures Tells(t, t, ctx, [])
  {
  }

  lemma NoneWasNone(t: Thread, t1: Thread)
    requires RecordKept(t, t1)
    ensures forall i: nat | i < |t1.toolCalls| && t1.toolCalls[i].result.None? :: ResultWas(t, i).None?
  {
  }

  lemma NoFewerCalls(t: Thread, t1: Thread)
    requires RecordKept(t, t1)
    ensures |t.toolCalls| <= |t1.toolCalls|
  {
  }

  lemma {:induction false} SnapshotsTell(t: Thread, ctx: RunContext, ms: seq<Message>)
    requires WellFormed(t)
    ensures Tells(t, RecordSnapshots(t, ctx, ms), ctx, ms)
  {
    if ms == [] {
      NothingTells(t, ctx);
    } else {
      hide RecordKept, CallsTell, RefsTell, TextsTell, Step, RecordSnapshot, Find, Indexed;
      var front, m := ms[..|ms| - 1], ms[|ms| - 1];
      assert ms == front + [m];
      SnapshotsTell(t, ctx, front);
      SnapshotsKeep(t, ctx, front);
      var t1 := RecordSnapshots(t, ctx, front);
      var t2 := RecordSnapshot(t1, ctx, m);
      RecordsOne(t1, ctx, m);
      SnapshotMessageKept(t1, ctx, m);
      KeptTwice(t, t1, t2);
      CallsStep(t, t1, t2, ctx, front, m);
      NoneWasNone(t, t1);
      NoFewerCalls(t, t1);
      RefsStep(t, t1, t2, ctx, front, m);
      TextsStep(t, t1, t2, ctx, front, m);
    }
  }

  lemma SameBefore(t0: Thread, t: Thread, t1: Thread, ctx: RunContext, ms: seq<Message>)
    requires Tells(t0, t1, ctx, ms)
    requires t0 == t.(history := t0.history, streaming := t0.streaming, streamingArgs := t0.streamingArgs)
    ensures Tells(t, t1, ctx, ms)
  {
    hide MentionsId, AsMentioned, HasResult, Filled, Shows, ProducedId, LastProduced, FirstProduced, ContentText;
    assert forall i: nat :: ResultWas(t, i) == ResultWas(t0, i);
    assert forall id :: GotResult(t, t1, id) == GotResult(t0, t1, id);
  }

  /** A messages snapshot puts on record exactly what the run produced through it: the calls its messages mention, the
      results its tool messages give to calls without one, and the texts and roles of its messages; each is an item of
      the run, after the items before. Messages there before the run, and activity, put nothing on record. */
  lemma SnapshotRecords(t: Thread, ctx: RunContext, e: Event)
    requires WellFormed(t) && e.typ.MessagesSnapshot?
    ensures Tells(t, Applied(t, ctx, e), ctx, Filter((m: Message) => m.role != "activity", e.messages))
  {
    hide Tells, RecordSnapshots, Applied, WellFormed;
    var h := Filter(NotActivity, e.messages);
    FilterSame(NotActivity, (m: Message) => m.role != "activity", e.messages);
    var t0 := t.(history := h, streaming := {}, streamingArgs := {});
    SnapshotStarts(t, ctx, e, t0);
    SnapshotsTell(t0, ctx, h);
    SameBefore(t0, t, Applied(t, ctx, e), ctx, h);
  }

  lemma SnapshotStarts(t: Thread, ctx: RunContext, e: Event, t0: Thread)
    requires WellFormed(t) && e.typ.MessagesSnapshot?
    requires t0 == t.(history := Filter(NotActivity, e.messages), streaming := {}, streamingArgs := {})
    ensures WellFormed(t0) && Applied(t, ctx, e) == RecordSnapshots(t0, ctx, Filter(NotActivity, e.messages))
  {
    hide OpenMessage, AppendText, OpenCall, AppendArgs, ToolResult, Encrypted, Find, Indexed, RecordSnapshots;
  }
}
