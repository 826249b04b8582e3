/** What a conversation asks its user about, read from the events of the agent's replies. */
module AskedLaws {
  import opened Prelude
  import opened JsonDocument
  import opened Events
  import opened Threads
  import opened ThreadLaws
  import opened Segments
  import opened ResponseStream
  import opened Answers
  import opened Transcripts
  import opened PendingLaws
  import Conversations
  import Reduction

  /** Every call on record belongs to one of the first n runs. */
  predicate RunsUpTo(tcs: seq<ToolCall>, n: nat) { forall i | 0 <= i < |tcs| :: tcs[i].run <= n }

  ghost predicate UpTo(t: Thread, n: nat) { WellFormed(t) && RunsUpTo(t.toolCalls, n) }

  lemma {:induction false} SnapshotCallsUpTo(t: Thread, ctx: RunContext, tcs: seq<MessageToolCall>, n: nat)
    requires RunsUpTo(t.toolCalls, n) && ctx.run <= n
    ensures RunsUpTo(RecordSnapshotCalls(t, ctx, tcs).toolCalls, n)
  {
    if tcs != [] {
      SnapshotCallsUpTo(t, ctx, tcs[..|tcs| - 1], n);
    }
  }

  lemma SnapshotUpTo(t: Thread, ctx: RunContext, m: Message, n: nat)
    requires RunsUpTo(t.toolCalls, n) && ctx.run <= n
    ensures RunsUpTo(RecordSnapshot(t, ctx, m).toolCalls, n)
  {
    var t1 := t.(texts := t.texts[m.id := ContentText(m.content)], roles := RoleOr(t.roles, m.id, m.role));
    var kind := if m.role == "reasoning" then ReasoningRef else TextRef;
    SnapshotCallsUpTo(t1, ctx, m.toolCalls, n);
    SnapshotCallsUpTo(t1.(refs := AddRef(t1.refs, ItemRef(kind, m.id))), ctx, m.toolCalls, n);
    hide RecordSnapshotCalls, ContentText, RoleOr, AddRef;
  }

  lemma {:induction false} SnapshotsUpTo(t: Thread, ctx: RunContext, ms: seq<Message>, n: nat)
    requires RunsUpTo(t.toolCalls, n) && ctx.run <= n
    ensures RunsUpTo(RecordSnapshots(t, ctx, ms).toolCalls, n)
  {
    hide RecordSnapshot;
    if ms != [] {
      SnapshotsUpTo(t, ctx, ms[..|ms| - 1], n);
      SnapshotUpTo(RecordSnapshots(t, ctx, ms[..|ms| - 1]), ctx, ms[|ms| - 1], n);
    }
  }

  lemma EventUpTo(t: Thread, ctx: RunContext, e: Event, n: nat)
    requires UpTo(t, n) && ctx.run <= n
    ensures UpTo(Reduction.Buffered(t, ctx, e), n)
  {
    hide WellFormed, ContentText;
    Reduction.BufferedKeeps(t, ctx, e);
    BufferedRecords(t, ctx, e);
    if e.typ.MessagesSnapshot? {
      var h := Filter(NotActivity, e.messages);
      SnapshotsUpTo(t.(history := h, streaming := {}, streamingArgs := {}), ctx, h, n);
      hide Reduction.Buffered, RecordSnapshots;
    } else {
      RecordsEach(t, ctx, e);
      hide Reduction.Buffered, Applied;
    }
  }

  lemma {:induction false} EventsUpTo(t: Thread, ctx: RunContext, es: seq<Event>, n: nat)
    requires UpTo(t, n) && ctx.run <= n
    ensures UpTo(Reduction.BufferedAll(t, ctx, es), n)
  {
    hide UpTo, Reduction.Buffered;
    if es != [] {
      EventsUpTo(t, ctx, es[..|es| - 1], n);
      EventUpTo(Reduction.BufferedAll(t, ctx, es[..|es| - 1]), ctx, es[|es| - 1], n);
    }
  }

  lemma {:induction false} ResultsKeepRecord(tcs: seq<ToolCall>, calls: map<string, nat>, ms: seq<Message>)
    ensures forall i: nat | i < |tcs| ::
              WithResults(tcs, calls, ms)[i].id == tcs[i].id && WithResults(tcs, calls, ms)[i].run == tcs[i].run
  {
    hide ContentText;
    if ms != [] {
      ResultsKeepRecord(tcs, calls, ms[..|ms| - 1]);
    }
  }

  lemma GivenUpTo(t: Thread, ms: seq<Message>, n: nat)
    requires UpTo(t, n)
    ensures UpTo(Given(t, ms), n)
  {
    ResultsKeepRecord(t.toolCalls, t.calls, ms);
    hide Find, WithResults;
    SameIdsKeep(t, t.history + ms);
  }

  lemma RunUpTo(t: Thread, run: nat, declared: set<string>, mint: set<string> -> string, es: seq<Event>)
    requires UpTo(t, run)
    ensures UpTo(Reduction.RunResult(t, run, declared, mint, es).0, run)
  {
    var ctx := RunContext(run, declared, Ids(t.history), mint);
    EventsUpTo(t, ctx, es, run);
    hide Reduction.BufferedAll, Find, Indexed;
  }

  lemma ReplyUpTo(t: Thread, run: nat, declared: set<string>, mint: set<string> -> string, reply: Reply, runId: string)
    requires UpTo(t, run)
    ensures UpTo(ReducedReply(t, run, declared, mint, reply, runId).0, run)
  {
    hide UpTo, Reduction.RunResult, SegmentsOf, Expansion, Chosen;
    if reply.Responded? && SegmentsOf(Expansion(reply.wire)) != [] {
      var gs := SegmentsOf(Expansion(reply.wire));
      RunUpTo(t, run, declared, mint, gs[Chosen(gs, runId)].events);
    }
  }

  lemma MoreRuns(t: Thread, n: nat)
    requires UpTo(t, n)
    ensures UpTo(t, n + 1)
  {
  }

  /** The thread each run goes on from is well formed and knows only the calls of the runs before. */
  lemma {:induction false} BaseUpTo(declared: set<string>, mint: set<string> -> string, state: Json, runs: seq<Run>,
                                    replies: seq<Reply>, left: seq<Thread>, k: nat)
    requires RunsAre(declared, mint, state, runs, replies, left) && k <= |runs|
    ensures UpTo(Base(state, left, k), k)
  {
    if k == 0 {
      NothingUpTo(state);
    } else {
      hide UpTo, ReducedReply, EndOfReply, Given, NewIds;
      assert RunStands(declared, mint, state, runs, replies, left, k - 1);
      BaseUpTo(declared, mint, state, runs, replies, left, k - 1);
      var base := Base(state, left, k - 1);
      GivenUpTo(base, runs[k - 1].sent, k - 1);
      MoreRuns(Given(base, runs[k - 1].sent), k - 1);
      ReplyUpTo(Given(base, runs[k - 1].sent), k, declared, mint, replies[k - 1], runs[k - 1].runId);
    }
  }

  lemma NothingUpTo(state: Json)
    ensures UpTo(EmptyThread(state), 0)
  {
  }

  /** The events of the run a response is settled by. */
  function EventsOf(reply: Reply, runId: string): seq<Event> {
    match reply
    case Refused => []
    case Responded(wire, _) =>
      var gs := SegmentsOf(Expansion(wire));
      if gs == [] then [] else gs[Chosen(gs, runId)].events
  }

  lemma SettledHasEvents(reply: Reply, runId: string)
    requires EndOfReply(reply, runId).Done?
    ensures reply.Responded? && SegmentsOf(Expansion(reply.wire)) != []
  {
    hide SegmentsOf, Expansion, BadStart, ReadFails, Chosen;
  }

  lemma LeftByRun(base: Thread, k: nat, declared: set<string>, mint: set<string> -> string, r: Run, reply: Reply,
                  after: Thread)
    requires RunIs(declared, mint, base, k, r, reply, after) && UpTo(base, k) && r.end.Done?
    requires forall e | e in EventsOf(reply, r.runId) :: !e.typ.MessagesSnapshot?
    ensures var ids, es := PendingIds(None, after.toolCalls, k + 1), EventsOf(reply, r.runId);
            && (forall id :: id in ids <==> LeftPending(es, base.calls.Keys, declared, id)) && InOrderOpened(es, ids)
  {
    hide SegmentsOf, Expansion, LeftPending, InOrderOpened, PendingIds, Reduction.RunResult, EndOfReply, NewIds, Chosen;
    SettledHasEvents(reply, r.runId);
    var t := Given(base, r.sent);
    GivenUpTo(base, r.sent, k);
    PendingOfRun(t, k + 1, declared, mint, EventsOf(reply, r.runId));
  }

  /** After a successful run without a list from the agent, the client asked about exactly the calls new to the thread
      that the run opened under a declared name and gave no result afterwards, in the order it opened them. */
  lemma AsksWhatWasLeft(s: Conversations.Script, matches: Matcher, mint: set<string> -> string, state: Json,
                        t: Transcript, replies: seq<Reply>, left: seq<Thread>, picks: seq<Option<nat>>, k: nat)
    requires Conversations.Honest(s, matches, mint, state, t, replies, left, picks) && k < |t.runs|
    requires t.runs[k].end.Done? && t.runs[k].end.outcome.Success? && t.runs[k].end.pending.None?
    requires k < |replies|
    requires forall e | e in EventsOf(replies[k], t.runs[k].runId) :: !e.typ.MessagesSnapshot?
    ensures var asked := Map((h: HitlRequest) => h.id, AskedIn(t.hitl, k + 1));
            var es := EventsOf(replies[k], t.runs[k].runId);
            && (forall id :: id in asked <==> LeftPending(es, Base(state, left, k).calls.Keys, s.declared, id))
            && InOrderOpened(es, asked)
  {
    Conversations.AllPendingOrNone(s, matches, mint, state, t, replies, left, picks, k);
    hide Conversations.Orderly, AsksAll, PicksAre, Conversations.Justified, Questions, EventsOf, LeftPending;
    hide InOrderOpened, PendingIds, AskedIn, Base, RunIs;
    BaseUpTo(s.declared, mint, state, t.runs, replies, left, k);
    assert RunStands(s.declared, mint, state, t.runs, replies, left, k);
    LeftByRun(Base(state, left, k), k, s.declared, mint, t.runs[k], replies[k], left[k]);
  }

  /** What an agent names is asked about as named: the calls its list gives, or its interrupts, in order; nothing is
      asked after a cancelled run, or one that did not finish. */
  lemma AsksWhatWasNamed(s: Conversations.Script, matches: Matcher, mint: set<string> -> string, state: Json,
                         t: Transcript, replies: seq<Reply>, left: seq<Thread>, picks: seq<Option<nat>>, k: nat)
    requires Conversations.Honest(s, matches, mint, state, t, replies, left, picks) && k < |t.runs|
    ensures var asked, end := AskedIn(t.hitl, k + 1), t.runs[k].end;
            if !end.Done? || end.outcome.Cancelled? then asked == []
            else if end.outcome.Interrupted? then
              && |asked| == |end.interrupts|
              && forall i | 0 <= i < |asked| :: asked[i].kind.AskInterrupt? && asked[i].id == end.interrupts[i].id
            else
              end.pending.Some? ==>
                && |asked| == |end.pending.value|
                && forall i | 0 <= i < |asked| :: asked[i].kind.AskTool? && asked[i].id == end.pending.value[i]
  {
    hide Conversations.Orderly, RunsAre, PicksAre, Conversations.Justified, Questions, AskedIn, CallName, CallArgs;
    assert AsksAt(t.runs, left, t.hitl, k);
    var asked := AskedIn(t.hitl, k + 1);
    assert |AllAsked(asked)| == |asked|;
    forall i | 0 <= i < |asked| ensures AllAsked(asked)[i] == Asked(asked[i]) {
    }
  }

  // ----- what requests, answers and outcomes say -----

  /** The call of this id, as the thread has it. */
  ghost predicate Knows(t: Thread, id: string, name: string, args: string) {
    exists i: nat ::
      i < |t.toolCalls| && t.toolCalls[i].id == id && t.toolCalls[i].name == name && t.toolCalls[i].args == args
  }

  lemma KnowsCall(t: Thread, n: nat, id: string)
    requires UpTo(t, n)
    ensures id in t.calls ==> Knows(t, id, CallName(t, id), CallArgs(t, id)) && CallIndex(t, id) >= 0
    ensures id !in t.calls ==> CallName(t, id) == "" == CallArgs(t, id) && CallIndex(t, id) < 0
    ensures id in t.calls <==> exists i: nat :: i < |t.toolCalls| && t.toolCalls[i].id == id
  {
    hide Find;
  }

  /** A request about a pending call carries the call's name and arguments; one about an interrupt its reason, its
      message and the name of the call it is about. A call the thread does not know has neither. */
  lemma RequestsSay(declared: set<string>, mint: set<string> -> string, state: Json, runs: seq<Run>,
                    replies: seq<Reply>, left: seq<Thread>, hitl: seq<HitlRequest>, k: nat, i: nat)
    requires RunsAre(declared, mint, state, runs, replies, left) && AsksAll(runs, left, hitl, |runs|) && k < |runs|
    requires i < |AskedIn(hitl, k + 1)|
    ensures k < |left| && runs[k].end.Done?
    ensures var h, t, end := AskedIn(hitl, k + 1)[i], left[k], runs[k].end;
            if h.kind.AskTool? then
              && h.reason == ""
              && (h.id in t.calls ==> Knows(t, h.id, h.name, h.detail))
              && (h.id !in t.calls ==> h.name == "" == h.detail)
              && QuestionOf(t, h) == ToolAsk(h.id in t.calls, h.name, h.detail)
            else
              && end.outcome.Interrupted? && i < |end.interrupts|
              && h.id == end.interrupts[i].id && h.reason == end.interrupts[i].reason
              && h.detail == end.interrupts[i].message
              && (end.interrupts[i].toolCallId in t.calls && end.interrupts[i].toolCallId != "" ==>
                    exists args :: Knows(t, end.interrupts[i].toolCallId, h.name, args))
              && (end.interrupts[i].toolCallId !in t.calls || end.interrupts[i].toolCallId == "" ==> h.name == "")
              && QuestionOf(t, h) == InterruptAsk(h.reason, h.detail, h.name)
  {
    hide RunsAre, AskedIn, UpTo, Knows, CallName, CallArgs, CallIndex, PendingIds;
    RunsCount(declared, mint, state, runs, replies, left);
    BaseUpTo(declared, mint, state, runs, replies, left, k + 1);
    assert AsksAt(runs, left, hitl, k);
    var h, end, t := AskedIn(hitl, k + 1)[i], runs[k].end, left[k];
    assert AllAsked(AskedIn(hitl, k + 1))[i] == Asked(h);
    KnowsCall(t, k + 1, h.id);
    if end.outcome.Interrupted? {
      KnowsCall(t, k + 1, end.interrupts[i].toolCallId);
    }
  }

  /** An answer to a call is a tool message with the scripted error, when there is one, and the scripted result
      otherwise; an answer to an interrupt has the scripted status, or "resolved", and the payload. */
  lemma AnswersSay(hitl: seq<HitlRequest>, picks: seq<Option<nat>>, rs: seq<Response>, i: nat)
    requires Conversations.Justified(hitl, picks, rs) && i < |hitl| && hitl[i].answered
    ensures |picks| == |hitl| && picks[i].Some? && picks[i].value < |rs| && hitl[i].response.Some?
    ensures var h, r, a := hitl[i], rs[picks[i].value], hitl[i].response.value;
            if h.kind.AskTool? then
              && a.ToolAnswer? && a.msg.role == "tool" && a.msg.toolCallId == h.id && a.msg.error == r.error
              && (r.error != "" ==> a.msg.content == Text(r.error))
              && (r.error == "" ==> a.msg.content == Text(r.content))
            else
              && a.ResumeAnswer? && a.entry.interruptId == h.id && a.entry.payload == r.payload
              && (r.status != "" ==> a.entry.status == r.status) && (r.status == "" ==> a.entry.status == "resolved")
  {
  }

  // ----- which response is given -----

  /** A response may answer a request: its patterns match what the request is about, an absent one matching all. */
  predicate MayAnswer(matches: Matcher, r: Response, known: bool, h: HitlRequest) {
    if h.kind.AskTool? then
      && known && r.interrupt == "" && r.tool != "" && matches(r.tool, h.name)
      && (r.args != "" ==> matches(r.args, h.detail))
    else
      && r.interrupt != "" && matches(r.interrupt, h.reason)
      && (r.message != "" ==> matches(r.message, h.detail)) && (r.tool != "" ==> matches(r.tool, h.name))
  }

  /** Response k is still to be given before request i: no request before got it, or it may be repeated. */
  predicate StillToGive(rs: seq<Response>, picks: seq<Option<nat>>, i: nat, k: nat) {
    k < |rs| && i <= |picks| && (rs[k].repeatable || forall j | 0 <= j < i :: picks[j] != Some(k))
  }

  /** This is the first response still to be given before request i that may answer it, or there is none. */
  ghost predicate FirstMatch(matches: Matcher, rs: seq<Response>, picks: seq<Option<nat>>, i: nat, known: bool,
                             h: HitlRequest, pick: Option<nat>)
  {
    && (pick.Some? ==> StillToGive(rs, picks, i, pick.value) && MayAnswer(matches, rs[pick.value], known, h))
    && forall k: nat | StillToGive(rs, picks, i, k) && (pick.Some? ==> k < pick.value) ::
         !MayAnswer(matches, rs[k], known, h)
  }

  lemma FitsAsked(matches: Matcher, r: Response, t: Thread, h: HitlRequest)
    ensures Fits(matches, r, QuestionOf(t, h)) <==> MayAnswer(matches, r, CallIndex(t, h.id) >= 0, h)
  {
    hide CallIndex;
  }

  lemma AvailableStill(rs: seq<Response>, picks: seq<Option<nat>>, i: nat, k: nat)
    requires i <= |picks| && k < |rs|
    ensures Available(rs[k], UsedBy(|rs|, picks[..i])[k]) <==> StillToGive(rs, picks, i, k)
  {
    UsedMeans(|rs|, picks[..i], k);
    hide UsedBy;
    forall j | 0 <= j < i ensures picks[..i][j] == picks[j] {
    }
  }

  lemma PickIsFirst(matches: Matcher, rs: seq<Response>, picks: seq<Option<nat>>, i: nat, t: Thread, h: HitlRequest)
    requires i < |picks| && IsPick(matches, rs, UsedBy(|rs|, picks[..i]), QuestionOf(t, h), picks[i])
    ensures FirstMatch(matches, rs, picks, i, CallIndex(t, h.id) >= 0, h, picks[i])
  {
    forall k: nat | k < |rs|
      ensures Available(rs[k], UsedBy(|rs|, picks[..i])[k]) <==> StillToGive(rs, picks, i, k)
      ensures Fits(matches, rs[k], QuestionOf(t, h)) <==> MayAnswer(matches, rs[k], CallIndex(t, h.id) >= 0, h)
    {
      AvailableStill(rs, picks, i, k);
      FitsAsked(matches, rs[k], t, h);
    }
    hide Available, UsedBy, Fits, QuestionOf, MayAnswer, CallIndex;
  }

  /** Every request, in the order they were made, is given the first scripted response still to be given whose patterns
      match the call as the run left it, or the interrupt as the run named it, and none only when there is no such. */
  lemma GivesFirstMatch(s: Conversations.Script, matches: Matcher, mint: set<string> -> string, state: Json,
                        t: Transcript, replies: seq<Reply>, left: seq<Thread>, picks: seq<Option<nat>>, i: nat)
    requires Conversations.Honest(s, matches, mint, state, t, replies, left, picks) && i < |t.hitl|
    ensures 1 <= t.hitl[i].run <= |left| && |picks| == |t.hitl|
    ensures var h := t.hitl[i];
            FirstMatch(matches, s.responses, picks, i, h.id in left[h.run - 1].calls, h, picks[i])
  {
    hide AsksAll, Conversations.Justified, Linked, Conversations.DistinctIds, TurnsSent, UpTo, RunsAre;
    hide IsPick, QuestionOf, UsedBy, FirstMatch, CallIndex;
    var h := t.hitl[i];
    RunsCount(s.declared, mint, state, t.runs, replies, left);
    BaseUpTo(s.declared, mint, state, t.runs, replies, left, h.run);
    KnowsCall(left[h.run - 1], h.run, h.id);
    PickIsFirst(matches, s.responses, picks, i, left[h.run - 1], h);
  }

  // ----- outcomes and answers -----

  /** A conversation fails with its last run, is cancelled by it, awaits input when that run asked for what no response
      answers, is complete when it asked for nothing and no turn is left, and otherwise stopped at the cap, which is
      20 unless the script sets one. */
  lemma OutcomeSays(s: Conversations.Script, t: Transcript, picks: seq<Option<nat>>)
    requires Conversations.Orderly(s, t) && Conversations.OutcomeMeans(s, t, picks) && |picks| == |t.hitl|
    ensures var n := |t.runs|;
            var end := t.runs[n - 1].end;
            var unmatched := exists i: nat :: i < |t.hitl| && t.hitl[i].run == n && picks[i].None?;
            var asked := exists i: nat :: i < |t.hitl| && t.hitl[i].run == n;
            && (t.outcome.Errored? <==> !end.Done?)
            && (t.outcome.CancelledByAgent? <==> end.Done? && end.outcome.Cancelled?)
            && (t.outcome.AwaitingInput? <==>
                  end.Done? && !end.outcome.Cancelled? && (unmatched || (end.outcome.Interrupted? && !asked)))
            && (t.outcome.Completed? <==>
                  end.Done? && end.outcome.Success? && !asked && TurnsSent(t.runs) == [s.prompt] + s.followUps)
            && n <= (if s.maxRuns > 0 then s.maxRuns else 20)
            && (t.outcome.MaxTurns? ==> n == if s.maxRuns > 0 then s.maxRuns else 20)
  {
    hide Linked, AnsweredBefore, Conversations.DistinctIds, AskedIn, TurnsSent;
    var n := |t.runs|;
    SomeAsked(t.hitl, n);
  }

  lemma SomeAsked(hitl: seq<HitlRequest>, n: nat)
    ensures AskedIn(hitl, n) != [] <==> exists i: nat :: i < |hitl| && hitl[i].run == n
  {
    if AskedIn(hitl, n) != [] {
      var h := AskedIn(hitl, n)[0];
      Conversations.AskedMember(hitl, n, h);
      var i: nat :| i < |hitl| && hitl[i] == h;
    }
    if i: nat :| i < |hitl| && hitl[i].run == n {
      Conversations.AskedMember(hitl, n, hitl[i]);
    }
  }

  predicate AnswersCall(m: Message, id: string) { m.role == "tool" && m.toolCallId == id }

  /** What answers leave on a call: the text of the last one's content as the result, and its error; nothing when none
      is for it. */
  ghost predicate AnsweredAs(tc: ToolCall, tc1: ToolCall, ms: seq<Message>) {
    && tc1 == tc.(result := tc1.result, error := tc1.error)
    && ((forall i | 0 <= i < |ms| :: !AnswersCall(ms[i], tc.id)) ==> tc1 == tc)
    && forall j: nat | j < |ms| && AnswersCall(ms[j], tc.id)
                       && (forall i | j < i < |ms| :: !AnswersCall(ms[i], tc.id)) ::
         tc1.result == Some(ContentText(ms[j].content)) && tc1.error == ms[j].error
  }

  lemma AnsweredMore(tc: ToolCall, tc1: ToolCall, tc2: ToolCall, ms: seq<Message>, m: Message)
    requires AnsweredAs(tc, tc1, ms)
    requires tc2 ==
             if AnswersCall(m, tc.id) then tc1.(result := Some(ContentText(m.content)), error := m.error) else tc1
    ensures AnsweredAs(tc, tc2, ms + [m])
  {
    hide ContentText, AnswersCall;
    var all := ms + [m];
    assert all[|ms|] == m;
    forall j: nat | j < |all| && AnswersCall(all[j], tc.id) && (forall i | j < i < |all| :: !AnswersCall(all[i], tc.id))
      ensures tc2.result == Some(ContentText(all[j].content)) && tc2.error == all[j].error
    {
      if j < |ms| {
        assert !AnswersCall(all[|ms|], tc.id);
        assert forall i | j < i < |ms| :: all[i] == ms[i];
      }
    }
    if forall i | 0 <= i < |all| :: !AnswersCall(all[i], tc.id) {
      assert forall i | 0 <= i < |ms| :: all[i] == ms[i];
    }
  }

  /** Giving answers appends them to the history and leaves each call as the answers to it say. */
  lemma {:induction false} GivenSays(t: Thread, ms: seq<Message>, k: nat)
    requires Indexed(t.toolCalls, t.calls) && k < |t.toolCalls|
    ensures AnsweredAs(t.toolCalls[k], Given(t, ms).toolCalls[k], ms) && Given(t, ms).history == t.history + ms
  {
    hide AnsweredAs, ContentText;
    if ms == [] {
      assert AnsweredAs(t.toolCalls[k], t.toolCalls[k], []) by { NoAnswers(t.toolCalls[k]); }
    } else {
      var front, m := ms[..|ms| - 1], ms[|ms| - 1];
      assert ms == front + [m];
      GivenSays(t, front, k);
      var tcs := WithResults(t.toolCalls, t.calls, front);
      AnsweredMore(t.toolCalls[k], tcs[k], WithResult(tcs, t.calls, m)[k], front, m);
    }
  }

  lemma NoAnswers(tc: ToolCall)
    ensures AnsweredAs(tc, tc, [])
  {
  }
}
