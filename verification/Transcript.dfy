/** What a conversation's record promises: what every run asked, was answered with, carried and left. */
module Transcripts {
  import opened Prelude
  import opened JsonDocument
  import opened Events
  import opened Threads
  import opened Segments
  import opened ResponseStream
  import opened Answers
  import Reduction

  datatype ResumeEntry = ResumeEntry(interruptId: string, status: string, payload: string)
  datatype Answer = ToolAnswer(msg: Message) | ResumeAnswer(entry: ResumeEntry)

  datatype AskKind = AskTool | AskInterrupt

  /** One human-in-the-loop request: a pending frontend tool call or an interrupt. `detail` is the call's arguments
      or the interrupt's message. */
  datatype HitlRequest = HitlRequest(
    run: nat, kind: AskKind, id: string, name: string, reason: string, detail: string,
    answered: bool, response: Option<Answer>)

  /** One request/response exchange, numbered from 1. `posted` is the history the request carried. */
  datatype Run = Run(
    index: nat, runId: string, sent: seq<Message>, resume: seq<ResumeEntry>, posted: seq<Message>, end: RunEnd,
    items: seq<Reduction.Item>)

  datatype Conclusion = Completed | AwaitingInput | CancelledByAgent | MaxTurns | Errored

  /** The record of one conversation. */
  datatype Transcript = Transcript(
    threadId: string, outcome: Conclusion, runs: seq<Run>, messages: seq<Message>, toolCalls: seq<ToolCall>,
    hitl: seq<HitlRequest>, state: Json)

  /** What the agent does with one run's request: refuses it, or streams events. */
  datatype Reply = Refused | Responded(wire: seq<Event>, ending: Ending)

  function UserMessage(id: string, text: string): Message { NewMessage(id, "user", "").(content := Text(text)) }

  // ----- what one run leaves -----

  /** How a run ends, given the agent's reply. */
  function EndOfReply(reply: Reply, runId: string): RunEnd {
    match reply
    case Refused => Rejected
    case Responded(wire, ending) =>
      var es := Expansion(wire);
      EndOf(SegmentsOf(es), BadStart(es), ReadFails(wire, ending, runId), runId)
  }

  /** The thread and the items a run leaves, given the agent's reply. */
  function ReducedReply(t: Thread, run: nat, declared: set<string>, mint: set<string> -> string, reply: Reply,
                        runId: string): (Thread, seq<Reduction.Item>)
  {
    match reply
    case Refused => (t, [])
    case Responded(wire, _) => Reduced(t, run, declared, mint, SegmentsOf(Expansion(wire)), runId)
  }

  /** A scripted answer recorded on its call. */
  function WithResult(tcs: seq<ToolCall>, calls: map<string, nat>, m: Message): seq<ToolCall> {
    if m.role != "tool" || m.toolCallId !in calls || calls[m.toolCallId] >= |tcs| then tcs
    else
      var k := calls[m.toolCallId];
      tcs[k := tcs[k].(result := Some(ContentText(m.content)), error := m.error)]
  }

  function WithResults(tcs: seq<ToolCall>, calls: map<string, nat>, ms: seq<Message>): (r: seq<ToolCall>)
    ensures |r| == |tcs|
  {
    if ms == [] then tcs else WithResult(WithResults(tcs, calls, ms[..|ms| - 1]), calls, ms[|ms| - 1])
  }

  /** The thread once the client has added these messages: its own turns, and its answers to calls. */
  function Given(t: Thread, ms: seq<Message>): Thread {
    t.(history := t.history + ms, toolCalls := WithResults(t.toolCalls, t.calls, ms))
  }

  function EmptyThread(state: Json): Thread { Thread([], [], map[], map[], state, {}, {}, {}, map[], []) }

  /** The thread before the client adds to it for run k + 1: what run k left, or nothing yet. */
  function Base(state: Json, left: seq<Thread>, k: nat): Thread {
    if 0 < k <= |left| then left[k - 1] else EmptyThread(state)
  }

  /** Ids of messages the client makes up are new to the thread and to each other. */
  predicate NewIds(h: seq<Message>, ms: seq<Message>) {
    forall i | 0 <= i < |ms| :: ms[i].id !in Ids(h) && forall j | 0 <= j < i :: ms[j].id != ms[i].id
  }

  /** The run posts the thread with what the client added, and its ending, its items and the thread it leaves are what
      the agent's reply to that means. */
  predicate RunIs(declared: set<string>, mint: set<string> -> string, base: Thread, k: nat, r: Run, reply: Reply,
                  after: Thread)
  {
    var before := Given(base, r.sent);
    && r.index == k + 1 && r.posted == base.history + r.sent && NewIds(base.history, r.sent)
    && r.end == EndOfReply(reply, r.runId)
    && (after, r.items) == ReducedReply(before, k + 1, declared, mint, reply, r.runId)
  }

  /** The same of run k + 1 of these, which goes on from the thread the run before it left. */
  predicate RunStands(declared: set<string>, mint: set<string> -> string, state: Json, runs: seq<Run>,
                  replies: seq<Reply>, left: seq<Thread>, k: nat)
  {
    && k < |runs| == |replies| == |left|
    && RunIs(declared, mint, Base(state, left, k), k, runs[k], replies[k], left[k])
  }

  ghost predicate RunsAre(declared: set<string>, mint: set<string> -> string, state: Json, runs: seq<Run>,
                          replies: seq<Reply>, left: seq<Thread>)
  {
    && |runs| == |replies| == |left|
    && forall k: nat | k < |runs| :: RunStands(declared, mint, state, runs, replies, left, k)
  }

  // ----- what a run asks -----

  predicate IsPending(tc: ToolCall, run: nat) { tc.run == run && tc.frontend && tc.result.None? }

  /** The frontend calls a run left for the client: those the agent lists, else those it started unanswered. */
  function PendingIds(pending: Option<seq<string>>, toolCalls: seq<ToolCall>, run: nat): seq<string> {
    match pending
    case Some(ids) => ids
    case None => Map((tc: ToolCall) => tc.id, Filter((tc: ToolCall) => IsPending(tc, run), toolCalls))
  }

  function CallName(t: Thread, id: string): string {
    if CallIndex(t, id) < 0 then "" else t.toolCalls[CallIndex(t, id)].name
  }

  function CallArgs(t: Thread, id: string): string {
    if CallIndex(t, id) < 0 then "" else t.toolCalls[CallIndex(t, id)].args
  }

  function ToolRequest(t: Thread, id: string, run: nat): HitlRequest {
    HitlRequest(run, AskTool, id, CallName(t, id), "", CallArgs(t, id), false, None)
  }

  function InterruptRequest(t: Thread, ask: Interrupt, run: nat): HitlRequest {
    HitlRequest(run, AskInterrupt, ask.id, if ask.toolCallId == "" then "" else CallName(t, ask.toolCallId),
                ask.reason, ask.message, false, None)
  }

  function ToolRequests(t: Thread, ids: seq<string>, run: nat): seq<HitlRequest> {
    Map((id: string) => ToolRequest(t, id, run), ids)
  }

  function InterruptRequests(t: Thread, asks: seq<Interrupt>, run: nat): seq<HitlRequest> {
    Map((ask: Interrupt) => InterruptRequest(t, ask, run), asks)
  }

  /** Every request a run makes, given its ending and the thread it left: one per interrupt of an interrupted run, and
      one per pending call of a successful one. */
  function Requests(end: RunEnd, t: Thread, run: nat): seq<HitlRequest> {
    if !end.Done? then []
    else
      match end.outcome
      case Interrupted => InterruptRequests(t, end.interrupts, run)
      case Success => ToolRequests(t, PendingIds(end.pending, t.toolCalls, run), run)
      case Cancelled => []
  }

  /** What a request asks of the canned responses; a call the thread does not know fits none. */
  function QuestionOf(t: Thread, h: HitlRequest): Request {
    match h.kind
    case AskTool => ToolAsk(CallIndex(t, h.id) >= 0, h.name, h.detail)
    case AskInterrupt => InterruptAsk(h.reason, h.detail, h.name)
  }

  function QuestionsOf(t: Thread, hs: seq<HitlRequest>): (r: seq<Request>)
    ensures |r| == |hs|
  {
    Map((h: HitlRequest) => QuestionOf(t, h), hs)
  }

  /** The questions of all requests, each asked of the thread its run left. */
  function Questions(left: seq<Thread>, hitl: seq<HitlRequest>): seq<Request> {
    Map((h: HitlRequest) => QuestionOf(Base(Arr([]), left, h.run), h), hitl)
  }

  /** A request as it was made, whatever became of it. */
  function Asked(h: HitlRequest): HitlRequest { h.(answered := false, response := None) }

  function AllAsked(hs: seq<HitlRequest>): seq<HitlRequest> { Map((h: HitlRequest) => Asked(h), hs) }

  /** The requests of run k, in order. */
  function AskedIn(hitl: seq<HitlRequest>, k: nat): seq<HitlRequest> { Filter((h: HitlRequest) => h.run == k, hitl) }

  /** Run k + 1 made exactly the requests its ending and the thread it left call for, all of them and in order. */
  predicate AsksAt(runs: seq<Run>, left: seq<Thread>, hitl: seq<HitlRequest>, k: nat) {
    && k < |runs| == |left|
    && AllAsked(AskedIn(hitl, k + 1)) == Requests(runs[k].end, left[k], k + 1)
  }

  /** The first n runs made exactly the requests their endings and threads call for, all of them and in order. */
  ghost predicate AsksAll(runs: seq<Run>, left: seq<Thread>, hitl: seq<HitlRequest>, n: nat)
  {
    && n <= |runs| == |left|
    && forall k: nat | k < n :: AsksAt(runs, left, hitl, k)
  }

  // ----- what the next run carries -----

  /** One tool message per request, in order, and nothing else. */
  predicate CarriesTools(asked: seq<HitlRequest>, sent: seq<Message>) {
    && |sent| == |asked|
    && forall i | 0 <= i < |asked| ::
         && asked[i].response == Some(ToolAnswer(sent[i]))
         && sent[i].role == "tool" && sent[i].toolCallId == asked[i].id
  }

  /** One resume entry per request, in order, and nothing else. */
  predicate CarriesResume(asked: seq<HitlRequest>, resume: seq<ResumeEntry>) {
    && |resume| == |asked|
    && forall i | 0 <= i < |asked| ::
         asked[i].response == Some(ResumeAnswer(resume[i])) && resume[i].interruptId == asked[i].id
  }

  /** What a run's ending and its requests make the following run carry: the resume entries of an interrupt, the
      answers to pending calls, or one follow-up user turn. */
  predicate Carries(end: RunEnd, asked: seq<HitlRequest>, sent: seq<Message>, resume: seq<ResumeEntry>) {
    && end.Done? && !end.outcome.Cancelled?
    && if end.outcome.Interrupted? then asked != [] && sent == [] && CarriesResume(asked, resume)
       else
         && resume == []
         && if asked != [] then CarriesTools(asked, sent) else |sent| == 1 && sent[0].role == "user"
  }

  /** What the first run carries: one user turn. */
  predicate Opens(sent: seq<Message>, resume: seq<ResumeEntry>) {
    |sent| == 1 && sent[0].role == "user" && resume == []
  }

  /** Run k + 2 carries exactly the answers to run k + 1. */
  predicate LinkedAt(runs: seq<Run>, hitl: seq<HitlRequest>, k: nat) {
    k + 1 < |runs| && Carries(runs[k].end, AskedIn(hitl, k + 1), runs[k + 1].sent, runs[k + 1].resume)
  }

  /** The first run carries the prompt, and every other one exactly the answers to the run before. */
  ghost predicate Linked(runs: seq<Run>, hitl: seq<HitlRequest>) {
    && (runs != [] ==> Opens(runs[0].sent, runs[0].resume))
    && forall k: nat | k + 1 < |runs| :: LinkedAt(runs, hitl, k)
  }

  /** Requests belong to runs made, and are answered exactly when a later run exists. */
  ghost predicate AnsweredBefore(hitl: seq<HitlRequest>, runs: nat, last: nat) {
    forall i | 0 <= i < |hitl| :: 1 <= hitl[i].run <= runs && (hitl[i].answered <==> hitl[i].run < last)
  }

  /** The user turns a list of messages holds. */
  function UserTexts(ms: seq<Message>): seq<string> {
    if ms == [] then []
    else
      var m := ms[|ms| - 1];
      UserTexts(ms[..|ms| - 1]) + if m.role == "user" then [ContentText(m.content)] else []
  }

  /** The user turns every run sent, in order. */
  function TurnsSent(runs: seq<Run>): seq<string> {
    if runs == [] then [] else TurnsSent(runs[..|runs| - 1]) + UserTexts(runs[|runs| - 1].sent)
  }

  // ----- how the record grows -----

  lemma AskedInConcat(a: seq<HitlRequest>, b: seq<HitlRequest>, k: nat)
    ensures AskedIn(a + b, k) == AskedIn(a, k) + AskedIn(b, k)
  {
    FilterConcat((h: HitlRequest) => h.run == k, a, b);
  }

  lemma AskedOne(b: seq<HitlRequest>, n: nat, k: nat)
    requires forall i | 0 <= i < |b| :: b[i].run == n
    ensures AskedIn(b, k) == if k == n then b else []
  {
    if k == n {
      FilterAll((h: HitlRequest) => h.run == k, b);
    } else {
      FilterNone((h: HitlRequest) => h.run == k, b);
    }
  }

  /** The last run's requests, answered or not, after those of the earlier ones. */
  lemma LastBlock(runs: seq<Run>, left: seq<Thread>, a: seq<HitlRequest>, b: seq<HitlRequest>)
    requires runs != [] && |left| == |runs| && Linked(runs, a) && AsksAll(runs, left, a, |runs| - 1)
    requires AnsweredBefore(a, |runs| - 1, |runs|)
    requires AllAsked(b) == Requests(runs[|runs| - 1].end, left[|runs| - 1], |runs|)
    ensures Linked(runs, a + b) && AsksAll(runs, left, a + b, |runs|) && AskedIn(a + b, |runs|) == b
  {
    hide *;
    var n := |runs|;
    BlockOfRun(runs[n - 1].end, left[n - 1], n, b);
    AskedBefore(a, b, n);
    LinkedStays(runs, a, b);
    AsksStay(runs, left, a, b);
  }

  lemma AskedBefore(a: seq<HitlRequest>, b: seq<HitlRequest>, n: nat)
    requires n > 0 && AnsweredBefore(a, n - 1, n) && forall i | 0 <= i < |b| :: b[i].run == n
    ensures AskedIn(a + b, n) == b
    ensures forall k: nat | k != n :: AskedIn(a + b, k) == AskedIn(a, k)
  {
    AskedNowhere(a, n);
    hide AskedIn, AnsweredBefore;
    forall k: nat ensures AskedIn(a + b, k) == if k == n then b else AskedIn(a, k) {
      AskedInConcat(a, b, k);
      AskedOne(b, n, k);
    }
  }

  lemma LinkedStays(runs: seq<Run>, a: seq<HitlRequest>, b: seq<HitlRequest>)
    requires Linked(runs, a) && forall k: nat | k != |runs| :: AskedIn(a + b, k) == AskedIn(a, k)
    ensures Linked(runs, a + b)
  {
    hide AskedIn, Carries, Opens;
    forall k: nat | k + 1 < |runs| ensures LinkedAt(runs, a + b, k) {
      assert LinkedAt(runs, a, k);
    }
  }

  lemma AsksStay(runs: seq<Run>, left: seq<Thread>, a: seq<HitlRequest>, b: seq<HitlRequest>)
    requires runs != [] && AsksAll(runs, left, a, |runs| - 1)
    requires AskedIn(a + b, |runs|) == b && forall k: nat | k != |runs| :: AskedIn(a + b, k) == AskedIn(a, k)
    requires AllAsked(b) == Requests(runs[|runs| - 1].end, left[|runs| - 1], |runs|)
    ensures AsksAll(runs, left, a + b, |runs|)
  {
    hide AskedIn, AllAsked, Requests;
    forall k: nat | k < |runs| ensures AsksAt(runs, left, a + b, k) {
      if k + 1 < |runs| {
        assert AsksAt(runs, left, a, k);
      }
    }
  }

  lemma BlockOfRun(end: RunEnd, t: Thread, run: nat, b: seq<HitlRequest>)
    requires AllAsked(b) == Requests(end, t, run)
    ensures forall i | 0 <= i < |b| :: b[i].run == run
  {
    hide Requests;
    forall i | 0 <= i < |b| ensures b[i].run == run {
      assert AllAsked(b)[i].run == b[i].run;
      RequestsOfRun(end, t, run, i);
    }
  }

  lemma RequestsOfRun(end: RunEnd, t: Thread, run: nat, i: nat)
    requires i < |Requests(end, t, run)|
    ensures Requests(end, t, run)[i].run == run
  {
    hide CallName, CallArgs, PendingIds;
  }

  lemma AskedNowhere(a: seq<HitlRequest>, n: nat)
    requires n > 0 && AnsweredBefore(a, n - 1, n)
    ensures AskedIn(a, n) == []
  {
    FilterNone((h: HitlRequest) => h.run == n, a);
  }

  /** The next run carries what the last block was answered with. */
  lemma NextRun(runs: seq<Run>, left: seq<Thread>, hitl: seq<HitlRequest>, r: Run, t: Thread)
    requires |left| == |runs| && Linked(runs, hitl) && AsksAll(runs, left, hitl, |runs|)
    requires if runs == [] then Opens(r.sent, r.resume)
             else Carries(runs[|runs| - 1].end, AskedIn(hitl, |runs|), r.sent, r.resume)
    ensures Linked(runs + [r], hitl) && AsksAll(runs + [r], left + [t], hitl, |runs|)
  {
    hide Opens, Carries, AskedIn, AllAsked, Requests;
    forall k: nat | k < |runs| ensures LinkedAt(runs + [r], hitl, k) {
      if k + 1 < |runs| {
        assert LinkedAt(runs, hitl, k);
      }
    }
    forall k: nat | k < |runs| ensures AsksAt(runs + [r], left + [t], hitl, k) {
      assert AsksAt(runs, left, hitl, k);
    }
  }

  lemma RunRecorded(declared: set<string>, mint: set<string> -> string, state: Json, runs: seq<Run>,
                    replies: seq<Reply>, left: seq<Thread>, r: Run, reply: Reply, after: Thread)
    requires RunsAre(declared, mint, state, runs, replies, left)
    requires RunIs(declared, mint, Base(state, left, |runs|), |runs|, r, reply, after)
    ensures RunsAre(declared, mint, state, runs + [r], replies + [reply], left + [after])
  {
    hide RunIs;
    forall k: nat | k <= |runs|
      ensures RunStands(declared, mint, state, runs + [r], replies + [reply], left + [after], k)
    {
      assert Base(state, left + [after], k) == Base(state, left, k);
      if k < |runs| {
        assert RunStands(declared, mint, state, runs, replies, left, k);
      }
    }
  }

  lemma RunsCount(declared: set<string>, mint: set<string> -> string, state: Json, runs: seq<Run>,
                  replies: seq<Reply>, left: seq<Thread>)
    requires RunsAre(declared, mint, state, runs, replies, left)
    ensures |runs| == |replies| == |left|
  {
  }

  /** A further run does not change what was asked of the earlier threads. */
  lemma QuestionsStay(left: seq<Thread>, t: Thread, hitl: seq<HitlRequest>, n: nat)
    requires AnsweredBefore(hitl, |left|, n)
    ensures Questions(left + [t], hitl) == Questions(left, hitl)
  {
    hide QuestionOf;
    forall i | 0 <= i < |hitl| ensures Questions(left + [t], hitl)[i] == Questions(left, hitl)[i] {}
  }

  /** Requests of the last run are asked of the thread it left, and answering them does not change the question. */
  lemma QuestionsBlock(left: seq<Thread>, a: seq<HitlRequest>, b: seq<HitlRequest>, c: seq<HitlRequest>)
    requires left != [] && AllAsked(c) == AllAsked(b) && forall i | 0 <= i < |b| :: b[i].run == |left|
    ensures Questions(left, a + c) == Questions(left, a) + QuestionsOf(left[|left| - 1], b)
  {
    var t := left[|left| - 1];
    assert |c| == |AllAsked(c)| == |b|;
    forall i | 0 <= i < |b| ensures QuestionOf(Base(Arr([]), left, c[i].run), c[i]) == QuestionOf(t, b[i]) {
      assert Asked(c[i]) == AllAsked(c)[i] == AllAsked(b)[i] == Asked(b[i]);
    }
    hide QuestionOf, AllAsked;
    assert Questions(left, a + c) == Questions(left, a) + QuestionsOf(t, b);
  }

  lemma TurnsSentSnoc(runs: seq<Run>, r: Run)
    ensures TurnsSent(runs + [r]) == TurnsSent(runs) + UserTexts(r.sent)
  {
    assert (runs + [r])[..|runs|] == runs;
  }

  lemma UserTextsOne(m: Message)
    ensures UserTexts([m]) == if m.role == "user" then [ContentText(m.content)] else []
  {
    assert [m][..0] == [];
    assert UserTexts([]) == [];
  }

  lemma {:induction false} NoUserTexts(ms: seq<Message>)
    requires forall m | m in ms :: m.role != "user"
    ensures UserTexts(ms) == []
  {
    if ms != [] {
      NoUserTexts(ms[..|ms| - 1]);
      assert ms[|ms| - 1] in ms;
    }
  }

  lemma GivenOne(t: Thread, m: Message)
    ensures Given(t, [m]) ==
            t.(history := t.history + [m], toolCalls := WithResult(t.toolCalls, t.calls, m))
    ensures Given(t, []) == t
  {
    assert [m][..0] == [];
    assert WithResults(t.toolCalls, t.calls, []) == t.toolCalls;
    assert t.history + [] == t.history;
  }

  lemma OneMoreGiven(t: Thread, ms: seq<Message>, i: nat)
    requires i < |ms|
    ensures Given(t, ms[..i + 1]) == Given(Given(t, ms[..i]), [ms[i]])
  {
    GivenOne(Given(t, ms[..i]), ms[i]);
    hide WithResult;
    TakeOneMore(t.history, ms, i);
    assert ms[..i + 1][..i] == ms[..i];
  }

  /** Every call answered has a result once the messages are given. */
  lemma {:induction false} AnsweredCallsHaveResults(t: Thread, ms: seq<Message>, m: Message)
    requires Indexed(t.toolCalls, t.calls) && m in ms && m.role == "tool" && m.toolCallId in t.calls
    ensures CallIndex(t, m.toolCallId) >= 0 && Given(t, ms).toolCalls[CallIndex(t, m.toolCallId)].result.Some?
  {
    hide ContentText;
    var n := |ms| - 1;
    if m != ms[n] {
      assert m in ms[..n];
      AnsweredCallsHaveResults(t, ms[..n], m);
    }
  }
}
