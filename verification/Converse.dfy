/** The scripted conversation: run after run against any agent, answering its requests from canned responses.

    Model of Converse, runOnce, pending, answerTools, answerInterrupts and take of internal/agui/converse.go. */
module Conversations {
  import opened Prelude
  import opened JsonDocument
  import opened Events
  import opened Threads
  import opened Segments
  import opened ResponseStream
  import opened Answers
  import opened Transcripts
  import Buffers
  import Reduction
  import ChunkExpander

  const DEFAULT_MAX_RUNS: nat := 20

  datatype Script = Script(
    prompt: string, declared: set<string>, responses: seq<Response>, followUps: seq<string>, maxRuns: int)

  function Cap(s: Script): (n: nat)
    ensures n > 0
  {
    if s.maxRuns <= 0 then DEFAULT_MAX_RUNS else s.maxRuns
  }

  /** The user turns of the script, in order. */
  function Turns(s: Script): seq<string> { [s.prompt] + s.followUps }

  /** What the client will send once another run is certain to carry it. */
  datatype Send = SendTools(first: nat, msgs: seq<Message>) | SendResume(first: nat, entries: seq<ResumeEntry>)

  function AnswerText(r: Response): string { if r.error == "" then r.content else r.error }

  function StatusOf(r: Response): string { if r.status == "" then "resolved" else r.status }

  predicate ToolAnswerFor(msg: Message, id: string, r: Response) {
    msg.role == "tool" && msg.toolCallId == id && msg.content == Text(AnswerText(r)) && msg.error == r.error
  }

  function ResumeFor(id: string, r: Response): ResumeEntry { ResumeEntry(id, StatusOf(r), r.payload) }

  // ----- how requests are answered -----

  /** The answer recorded is the one this response scripts. */
  predicate AnswersWith(h: HitlRequest, r: Response) {
    match h.response
    case None => false
    case Some(ToolAnswer(msg)) => h.kind.AskTool? && ToolAnswerFor(msg, h.id, r)
    case Some(ResumeAnswer(entry)) => h.kind.AskInterrupt? && entry == ResumeFor(h.id, r)
  }

  /** Every answer given is what the response picked for that request scripts; a request without one has none. */
  ghost predicate Justified(hitl: seq<HitlRequest>, picks: seq<Option<nat>>, rs: seq<Response>) {
    && |hitl| == |picks|
    && forall i | 0 <= i < |hitl| ::
         if hitl[i].answered then picks[i].Some? && picks[i].value < |rs| && AnswersWith(hitl[i], rs[picks[i].value])
         else hitl[i].response.None?
  }

  predicate AllPicked(picks: seq<Option<nat>>) { forall i | 0 <= i < |picks| :: picks[i].Some? }

  lemma PickedSnoc(picks: seq<Option<nat>>, pick: Option<nat>)
    ensures AllPicked(picks + [pick]) <==> AllPicked(picks) && pick.Some?
  {
    var all := picks + [pick];
    assert all[|picks|] == pick;
    assert forall i | 0 <= i < |picks| :: all[i] == picks[i];
  }

  /** One tool message per id, each scripted by the response picked for it. */
  predicate AnswersTools(msgs: seq<Message>, ids: seq<string>, picks: seq<Option<nat>>, rs: seq<Response>) {
    && |msgs| == |ids| == |picks|
    && forall i | 0 <= i < |ids| ::
         picks[i].Some? && picks[i].value < |rs| && ToolAnswerFor(msgs[i], ids[i], rs[picks[i].value])
  }

  /** One resume entry per interrupt, each scripted by the response picked for it. */
  predicate AnswersInterrupts(entries: seq<ResumeEntry>, asks: seq<Interrupt>, picks: seq<Option<nat>>,
                              rs: seq<Response>)
  {
    && |entries| == |asks| == |picks|
    && forall i | 0 <= i < |asks| ::
         picks[i].Some? && picks[i].value < |rs| && entries[i] == ResumeFor(asks[i].id, rs[picks[i].value])
  }

  /** Tool messages ready so far: complete exactly when every request was picked for. */
  ghost predicate ToolsSoFar(picked: seq<Option<nat>>, ids: seq<string>, msgs: seq<Message>, known: set<string>,
                             rs: seq<Response>)
  {
    && |picked| == |ids| && |msgs| <= |ids| && (|msgs| == |ids| <==> AllPicked(picked))
    && (|msgs| == |ids| ==> AnswersTools(msgs, ids, picked, rs) && forall id | id in ids :: id in known)
  }

  lemma ToolsGrow(picked: seq<Option<nat>>, ids: seq<string>, msgs: seq<Message>, known: set<string>,
                  rs: seq<Response>, id: string, pick: Option<nat>, more: seq<Message>)
    requires ToolsSoFar(picked, ids, msgs, known, rs)
    requires pick.None? ==> more == []
    requires pick.Some? ==> |more| == 1 && pick.value < |rs| && ToolAnswerFor(more[0], id, rs[pick.value])
    requires pick.Some? ==> id in known
    ensures ToolsSoFar(picked + [pick], ids + [id], msgs + more, known, rs)
  {
    hide ToolAnswerFor;
    PickedSnoc(picked, pick);
  }

  /** The same for interrupts and resume entries. */
  ghost predicate EntriesSoFar(picked: seq<Option<nat>>, asks: seq<Interrupt>, entries: seq<ResumeEntry>,
                               rs: seq<Response>)
  {
    && |picked| == |asks| && |entries| <= |asks| && (|entries| == |asks| <==> AllPicked(picked))
    && (|entries| == |asks| ==> AnswersInterrupts(entries, asks, picked, rs))
  }

  lemma EntriesGrow(picked: seq<Option<nat>>, asks: seq<Interrupt>, entries: seq<ResumeEntry>, rs: seq<Response>,
                    ask: Interrupt, pick: Option<nat>, more: seq<ResumeEntry>)
    requires EntriesSoFar(picked, asks, entries, rs)
    requires pick.None? ==> more == []
    requires pick.Some? ==> pick.value < |rs| && more == [ResumeFor(ask.id, rs[pick.value])]
    ensures EntriesSoFar(picked + [pick], asks + [ask], entries + more, rs)
  {
    hide ResumeFor;
    PickedSnoc(picked, pick);
  }

  function AnswerTo(h: HitlRequest, a: Answer): HitlRequest { h.(answered := true, response := Some(a)) }

  /** A block of requests, its first n answered in order. */
  function AnsweredUpTo(block: seq<HitlRequest>, answers: seq<Answer>, n: nat): (r: seq<HitlRequest>)
    requires n <= |answers| == |block|
    ensures |r| == |block|
    ensures forall i | 0 <= i < |r| :: r[i] == if i < n then AnswerTo(block[i], answers[i]) else block[i]
  {
    seq(|block|, i requires 0 <= i < |block| => if i < n then AnswerTo(block[i], answers[i]) else block[i])
  }

  function Answered(block: seq<HitlRequest>, answers: seq<Answer>): (r: seq<HitlRequest>)
    requires |answers| == |block|
    ensures |r| == |block|
  {
    AnsweredUpTo(block, answers, |block|)
  }

  lemma OneMoreAnswered(before: seq<HitlRequest>, block: seq<HitlRequest>, answers: seq<Answer>, n: nat)
    requires n < |answers| == |block|
    ensures var hitl, k := before + AnsweredUpTo(block, answers, n), |before| + n;
            hitl[k := AnswerTo(hitl[k], answers[n])] == before + AnsweredUpTo(block, answers, n + 1)
  {
    hide AnswerTo;
  }

  lemma AllAnswered(block: seq<HitlRequest>, answers: seq<Answer>)
    requires |answers| == |block|
    ensures AnsweredUpTo(block, answers, |block|) == Answered(block, answers)
    ensures AnsweredUpTo(block, answers, 0) == block
  {
  }

  function ToolAnswers(msgs: seq<Message>): (r: seq<Answer>)
    ensures |r| == |msgs|
  {
    Map((m: Message) => ToolAnswer(m), msgs)
  }

  function ResumeAnswers(entries: seq<ResumeEntry>): (r: seq<Answer>)
    ensures |r| == |entries|
  {
    Map((e: ResumeEntry) => ResumeAnswer(e), entries)
  }

  lemma StillJustified(before: seq<HitlRequest>, block: seq<HitlRequest>, ps: seq<Option<nat>>,
                       picked: seq<Option<nat>>, rs: seq<Response>, answers: seq<Answer>)
    requires Justified(before + block, ps + picked, rs) && |ps| == |before| && |picked| == |answers| == |block|
    requires forall i | 0 <= i < |answers| ::
               && picked[i].Some? && picked[i].value < |rs|
               && AnswersWith(AnswerTo(block[i], answers[i]), rs[picked[i].value])
    ensures Justified(before + Answered(block, answers), ps + picked, rs)
  {
    hide AnswersWith, AnswerTo;
    var all, after, picks := before + block, before + Answered(block, answers), ps + picked;
    forall i | 0 <= i < |after|
      ensures if after[i].answered
                then picks[i].Some? && picks[i].value < |rs| && AnswersWith(after[i], rs[picks[i].value])
              else after[i].response.None?
    {
      if i < |before| {
        assert after[i] == all[i];
      } else {
        var k := i - |before|;
        assert after[i] == AnswerTo(block[k], answers[k]) && picks[i] == picked[k];
        AnswerToAnswers(block[k], answers[k]);
      }
    }
  }

  lemma AnswerToAnswers(h: HitlRequest, a: Answer)
    ensures AnswerTo(h, a).answered
  {
  }

  // ----- the canned responses -----

  class Canned {
    const spec: Response
    var used: bool

    constructor (spec: Response)
      ensures this.spec == spec && !used
    {
      this.spec, used := spec, false;
    }
  }

  ghost function UsedOf(canned: seq<Canned>): (r: seq<bool>)
    reads canned
    ensures |r| == |canned| && forall i | 0 <= i < |r| :: r[i] == canned[i].used
  {
    seq(|canned|, i requires 0 <= i < |canned| reads canned => canned[i].used)
  }

  ghost predicate Distinct(canned: seq<Canned>) {
    forall i, j | 0 <= i < j < |canned| :: canned[i] != canned[j]
  }

  ghost predicate Specifies(canned: seq<Canned>, rs: seq<Response>) {
    |canned| == |rs| && forall i | 0 <= i < |rs| :: canned[i].spec == rs[i]
  }

  /** The first response still available that fits, used up by being taken. */
  method Take(canned: seq<Canned>, matches: Matcher, ghost rs: seq<Response>, q: Request) returns (pick: Option<nat>)
    requires Distinct(canned) && Specifies(canned, rs)
    modifies set x: object | x in canned
    ensures IsPick(matches, rs, old(UsedOf(canned)), q, pick)
    ensures UsedOf(canned) == UsedAfter(old(UsedOf(canned)), pick)
  {
    hide Fits, IsPick;
    ghost var was := UsedOf(canned);
    var i := 0;
    while i < |canned|
      invariant 0 <= i <= |canned| && UsedOf(canned) == was
      invariant forall k | 0 <= k < i :: !(Available(rs[k], was[k]) && Fits(matches, rs[k], q))
    {
      var r := canned[i];
      if (!r.used || r.spec.repeatable) && Fits(matches, r.spec, q) {
        FirstFitIsPick(matches, rs, was, q, i);
        r.used := true;
        assert UsedOf(canned) == was[i := true];
        return Some(i);
      }
      i := i + 1;
    }
    NoFitIsPick(matches, rs, was, q);
    pick := None;
  }

  lemma FirstFitIsPick(matches: Matcher, rs: seq<Response>, used: seq<bool>, q: Request, k: nat)
    requires |used| == |rs| && IsFirstFit(matches, rs, used, q, k)
    ensures IsPick(matches, rs, used, q, Some(k))
  {
  }

  lemma NoFitIsPick(matches: Matcher, rs: seq<Response>, used: seq<bool>, q: Request)
    requires |used| == |rs|
    requires forall i | 0 <= i < |rs| :: !(Available(rs[i], used[i]) && Fits(matches, rs[i], q))
    ensures IsPick(matches, rs, used, q, None)
  {
  }

  method MakeCanned(rs: seq<Response>) returns (canned: seq<Canned>)
    ensures Distinct(canned) && Specifies(canned, rs) && forall r | r in canned :: fresh(r) && !r.used
  {
    canned := [];
    for i := 0 to |rs|
      invariant Distinct(canned) && Specifies(canned, rs[..i]) && forall r | r in canned :: fresh(r) && !r.used
    {
      var r := new Canned(rs[i]);
      canned := canned + [r];
    }
  }

  // ----- a run's requests, asked and answered -----

  /** Every request of run n was matched to a response. */
  ghost predicate Matched(hitl: seq<HitlRequest>, picks: seq<Option<nat>>, n: nat) {
    |picks| == |hitl| && forall i | 0 <= i < |hitl| && hitl[i].run == n :: picks[i].Some?
  }

  /** How a conversation stands after a run: with which conclusion it ends when no further run is made. */
  function ConclusionOf(end: RunEnd, asked: bool, matched: bool, turnsLeft: bool): Conclusion {
    if !end.Done? then Errored
    else if end.outcome.Cancelled? then CancelledByAgent
    else if !matched || (end.outcome.Interrupted? && !asked) then AwaitingInput
    else if end.outcome.Success? && !asked && !turnsLeft then Completed
    else MaxTurns
  }

  lemma AskedBlock(b: seq<HitlRequest>)
    requires forall i | 0 <= i < |b| :: !b[i].answered && b[i].response.None?
    ensures AllAsked(b) == b
  {
  }

  lemma AnsweredBlock(b: seq<HitlRequest>, answers: seq<Answer>)
    requires |answers| == |b|
    ensures AllAsked(Answered(b, answers)) == AllAsked(b)
  {
  }

  lemma RequestsUnanswered(end: RunEnd, t: Thread, run: nat)
    ensures AllAsked(Requests(end, t, run)) == Requests(end, t, run)
    ensures forall i | 0 <= i < |Requests(end, t, run)| ::
              Requests(end, t, run)[i].run == run && !Requests(end, t, run)[i].answered
  {
    hide CallName, CallArgs, PendingIds;
    AskedBlock(Requests(end, t, run));
  }

  /** The last run's requests, none answered. */
  lemma BlockAsked(runs: seq<Run>, left: seq<Thread>, before: seq<HitlRequest>)
    requires runs != [] && |left| == |runs| && Linked(runs, before) && AsksAll(runs, left, before, |runs| - 1)
    requires AnsweredBefore(before, |runs| - 1, |runs|)
    ensures var n := |runs|;
            var block := Requests(runs[n - 1].end, left[n - 1], n);
            && Linked(runs, before + block) && AsksAll(runs, left, before + block, n)
            && AskedIn(before + block, n) == block && AnsweredBefore(before + block, n, n)
            && Questions(left, before + block) == Questions(left, before) + QuestionsOf(left[n - 1], block)
  {
    hide Linked, AsksAll, AskedIn, Requests, AllAsked, QuestionsOf, Questions, AnswerTo, AnsweredUpTo;
    var n := |runs|;
    var block := Requests(runs[n - 1].end, left[n - 1], n);
    RequestsUnanswered(runs[n - 1].end, left[n - 1], n);
    LastBlock(runs, left, before, block);
    QuestionsBlock(left, before, block, block);
  }

  /** The last run's requests, all answered. */
  lemma BlockAnswered(runs: seq<Run>, left: seq<Thread>, before: seq<HitlRequest>, answers: seq<Answer>)
    requires runs != [] && |left| == |runs| && Linked(runs, before) && AsksAll(runs, left, before, |runs| - 1)
    requires AnsweredBefore(before, |runs| - 1, |runs|)
    requires |answers| == |Requests(runs[|runs| - 1].end, left[|runs| - 1], |runs|)|
    ensures var n := |runs|;
            var block := Requests(runs[n - 1].end, left[n - 1], n);
            var hitl := before + Answered(block, answers);
            && Linked(runs, hitl) && AsksAll(runs, left, hitl, n) && AskedIn(hitl, n) == Answered(block, answers)
            && AnsweredBefore(hitl, n, n + 1) && Questions(left, hitl) == Questions(left, before + block)
  {
    hide Linked, AsksAll, AskedIn, Requests, AllAsked, QuestionsOf, Questions, AnsweredUpTo;
    var n := |runs|;
    var block := Requests(runs[n - 1].end, left[n - 1], n);
    RequestsUnanswered(runs[n - 1].end, left[n - 1], n);
    AnsweredBlock(block, answers);
    LastBlock(runs, left, before, Answered(block, answers));
    QuestionsBlock(left, before, block, block);
    QuestionsBlock(left, before, block, Answered(block, answers));
  }

  /** The picks of the last run's requests are those of its block. */
  lemma MatchedIs(before: seq<HitlRequest>, block: seq<HitlRequest>, picks: seq<Option<nat>>, n: nat)
    requires |picks| == |before| + |block| && n > 0 && AnsweredBefore(before, n - 1, n)
    requires forall i | 0 <= i < |block| :: block[i].run == n
    ensures Matched(before + block, picks, n) <==> AllPicked(picks[|before|..])
  {
    var all, last := before + block, picks[|before|..];
    if AllPicked(last) {
      forall i | 0 <= i < |all| && all[i].run == n ensures picks[i].Some? {
        assert i >= |before|;
        assert last[i - |before|] == picks[i];
      }
    }
    if Matched(all, picks, n) {
      forall i | 0 <= i < |last| ensures last[i].Some? {
        assert all[|before| + i] == block[i];
      }
    }
  }

  lemma ToolsCarried(end: RunEnd, t: Thread, ids: seq<string>, run: nat, msgs: seq<Message>, picks: seq<Option<nat>>,
                     rs: seq<Response>)
    requires end.Done? && end.outcome.Success? && ids != [] && AnswersTools(msgs, ids, picks, rs)
    ensures |msgs| == |ids| == |picks| && UserTexts(msgs) == []
    ensures Carries(end, Answered(ToolRequests(t, ids, run), ToolAnswers(msgs)), msgs, [])
  {
    hide AnswersTools, UserTexts, Carries;
    ToolMessages(msgs, ids, picks, rs);
    NoUserTexts(msgs);
    MessagesCarry(end, t, ids, run, msgs);
  }

  lemma MessagesCarry(end: RunEnd, t: Thread, ids: seq<string>, run: nat, msgs: seq<Message>)
    requires end.Done? && end.outcome.Success? && ids != [] && |msgs| == |ids|
    requires forall i | 0 <= i < |ids| :: msgs[i].role == "tool" && msgs[i].toolCallId == ids[i]
    ensures Carries(end, Answered(ToolRequests(t, ids, run), ToolAnswers(msgs)), msgs, [])
  {
    hide ToolRequest;
    forall id | id in ids ensures ToolRequest(t, id, run).id == id {
      ToolRequestIs(t, id, run);
    }
  }

  lemma ResumeCarried(end: RunEnd, t: Thread, run: nat, entries: seq<ResumeEntry>, picks: seq<Option<nat>>,
                      rs: seq<Response>)
    requires end.Done? && end.outcome.Interrupted? && end.interrupts != []
    requires AnswersInterrupts(entries, end.interrupts, picks, rs)
    ensures |entries| == |end.interrupts| == |picks|
    ensures Carries(end, Answered(InterruptRequests(t, end.interrupts, run), ResumeAnswers(entries)), [], entries)
  {
    hide AnswersInterrupts, CallName;
    ResumeEntries(entries, end.interrupts, picks, rs);
  }

  lemma TurnCarried(end: RunEnd, id: string, text: string)
    requires end.Done? && end.outcome.Success?
    ensures Carries(end, [], [UserMessage(id, text)], []) && UserTexts([UserMessage(id, text)]) == [text]
  {
    UserTextsOne(UserMessage(id, text));
  }

  lemma ToolMessages(msgs: seq<Message>, ids: seq<string>, picks: seq<Option<nat>>, rs: seq<Response>)
    requires AnswersTools(msgs, ids, picks, rs)
    ensures |msgs| == |ids| == |picks|
    ensures forall i | 0 <= i < |ids| :: msgs[i].role == "tool" && msgs[i].toolCallId == ids[i]
    ensures forall m | m in msgs :: m.role != "user"
    ensures forall m | m in msgs :: m.role == "tool" && m.toolCallId in ids
  {
  }

  lemma PendingSnoc(tcs: seq<ToolCall>, tc: ToolCall, run: nat)
    ensures PendingIds(None, tcs + [tc], run) == PendingIds(None, tcs, run) + if IsPending(tc, run) then [tc.id] else []
  {
    FilterConcat((t: ToolCall) => IsPending(t, run), tcs, [tc]);
  }

  /** What has been asked so far, and what it was matched to. */
  datatype Book = Book(hitl: seq<HitlRequest>, questions: seq<Request>, picks: seq<Option<nat>>)

  function Noted(b: Book, h: HitlRequest, q: Request, pick: Option<nat>): Book {
    Book(b.hitl + [h], b.questions + [q], b.picks + [pick])
  }

  /** The book with these requests of a run added, each asked of the thread the run left. */
  function WithRequests(b: Book, t: Thread, hs: seq<HitlRequest>, picked: seq<Option<nat>>): Book {
    Book(b.hitl + hs, b.questions + QuestionsOf(t, hs), b.picks + picked)
  }

  lemma NoRequests(b: Book, t: Thread)
    ensures WithRequests(b, t, [], []) == b
  {
  }

  lemma OneMoreRequest(b: Book, t: Thread, hs: seq<HitlRequest>, picked: seq<Option<nat>>, h: HitlRequest,
                       pick: Option<nat>)
    ensures Noted(WithRequests(b, t, hs, picked), h, QuestionOf(t, h), pick) ==
            WithRequests(b, t, hs + [h], picked + [pick])
  {
    hide QuestionOf;
    assert QuestionsOf(t, hs + [h]) == QuestionsOf(t, hs) + [QuestionOf(t, h)];
    Assoc(b.hitl, hs, [h]);
    Assoc(b.questions, QuestionsOf(t, hs), [QuestionOf(t, h)]);
    Assoc(b.picks, picked, [pick]);
  }

  // ----- how the record grows -----

  /** The runs made, what the agent replied to each, and the thread each left. */
  datatype Log = Log(runs: seq<Run>, replies: seq<Reply>, left: seq<Thread>)

  /** The thread the last run left. */
  function Latest(state: Json, log: Log): Thread { Base(state, log.left, |log.runs|) }

  function Grown(log: Log, r: Run, reply: Reply, after: Thread): Log {
    Log(log.runs + [r], log.replies + [reply], log.left + [after])
  }

  /** What holds throughout: every run is what the agent's reply to the thread posted means, each carries what the one
      before calls for, and the user turns sent, followed by those left, are the script's. */
  ghost predicate Told(s: Script, mint: set<string> -> string, state: Json, log: Log, b: Book, turns: seq<string>) {
    && RunsAre(s.declared, mint, state, log.runs, log.replies, log.left) && Linked(log.runs, b.hitl)
    && b.questions == Questions(log.left, b.hitl) && |b.picks| == |b.hitl|
    && TurnsSent(log.runs) + turns == Turns(s)
  }

  /** Before a run: what it will send is new, and exactly what the last run calls for. */
  ghost predicate Due(s: Script, mint: set<string> -> string, state: Json, log: Log, b: Book, turns: seq<string>,
                      sent: seq<Message>, resume: seq<ResumeEntry>)
  {
    var n := |log.runs|;
    && Told(s, mint, state, log, b, UserTexts(sent) + turns)
    && AnsweredBefore(b.hitl, n, n + 1) && AsksAll(log.runs, log.left, b.hitl, n)
    && NewIds(Latest(state, log).history, sent)
    && if n == 0 then Opens(sent, resume) else Carries(log.runs[n - 1].end, AskedIn(b.hitl, n), sent, resume)
  }

  /** After a run, before its requests are looked at. */
  ghost predicate Open(s: Script, mint: set<string> -> string, state: Json, log: Log, b: Book, turns: seq<string>,
                       end: RunEnd)
  {
    var n := |log.runs|;
    && Told(s, mint, state, log, b, turns) && n > 0 && log.runs[n - 1].end == end
    && AnsweredBefore(b.hitl, n - 1, n) && AsksAll(log.runs, log.left, b.hitl, n - 1)
  }

  /** After a run, once its requests are asked and none of them answered. */
  ghost predicate AskedFor(s: Script, mint: set<string> -> string, state: Json, log: Log, b: Book, turns: seq<string>,
                           end: RunEnd)
  {
    var n := |log.runs|;
    && Told(s, mint, state, log, b, turns) && n > 0 && log.runs[n - 1].end == end
    && AnsweredBefore(b.hitl, n, n) && AsksAll(log.runs, log.left, b.hitl, n)
  }

  /** The requests of the last run, whose ending is end. */
  function Asks(state: Json, log: Log, end: RunEnd): seq<HitlRequest> {
    Requests(end, Latest(state, log), |log.runs|)
  }

  lemma NothingYet(s: Script, mint: set<string> -> string, state: Json, msg: Message)
    requires msg.role == "user" && ContentText(msg.content) == s.prompt && NewIds([], [msg])
    ensures Due(s, mint, state, Log([], [], []), Book([], [], []), s.followUps, [msg], [])
  {
    UserTextsOne(msg);
  }

  /** A run that carries what is due leaves its requests open. */
  lemma RunMade(s: Script, mint: set<string> -> string, state: Json, log: Log, b: Book, turns: seq<string>,
                sent: seq<Message>, resume: seq<ResumeEntry>, reply: Reply, r: Run, after: Thread)
    requires Due(s, mint, state, log, b, turns, sent, resume)
    requires r.index == |log.runs| + 1 && r.sent == sent && r.resume == resume && r.end == EndOfReply(reply, r.runId)
    requires var before := Given(Latest(state, log), sent);
             && r.posted == before.history
             && (after, r.items) == ReducedReply(before, r.index, s.declared, mint, reply, r.runId)
    ensures Open(s, mint, state, Grown(log, r, reply, after), b, turns, r.end)
    ensures Latest(state, Grown(log, r, reply, after)) == after
  {
    hide RunsAre, Linked, AsksAll, Carries, Opens, AskedIn, AnsweredBefore, UserTexts, TurnsSent, Questions, NewIds;
    hide EndOfReply, ReducedReply, WithResults;
    RunsCount(s.declared, mint, state, log.runs, log.replies, log.left);
    NextRun(log.runs, log.left, b.hitl, r, after);
    RunRecorded(s.declared, mint, state, log.runs, log.replies, log.left, r, reply, after);
    QuestionsStay(log.left, after, b.hitl, |log.runs| + 1);
    TurnsSentSnoc(log.runs, r);
    Assoc(TurnsSent(log.runs), UserTexts(sent), turns);
  }

  /** A run's requests, all asked. */
  lemma AllAskedFor(s: Script, mint: set<string> -> string, state: Json, log: Log, b: Book, turns: seq<string>,
                    end: RunEnd, picked: seq<Option<nat>>)
    requires Open(s, mint, state, log, b, turns, end) && |picked| == |Asks(state, log, end)|
    ensures var asks, n := Asks(state, log, end), |log.runs|;
            var after := WithRequests(b, Latest(state, log), asks, picked);
            && AskedFor(s, mint, state, log, after, turns, end) && AskedIn(after.hitl, n) == asks
            && (Matched(after.hitl, after.picks, n) <==> AllPicked(picked))
  {
    hide RunsAre, Linked, AsksAll, AskedIn, Questions, QuestionsOf, Requests, TurnsSent, AllPicked, Matched;
    hide AnsweredBefore;
    var n := |log.runs|;
    RunsCount(s.declared, mint, state, log.runs, log.replies, log.left);
    RequestsUnanswered(end, Latest(state, log), n);
    BlockAsked(log.runs, log.left, b.hitl);
    MatchedIs(b.hitl, Asks(state, log, end), b.picks + picked, n);
    assert (b.picks + picked)[|b.hitl|..] == picked;
  }

  /** A run's requests, all asked and answered: the next run is due. */
  lemma AllAnsweredFor(s: Script, mint: set<string> -> string, state: Json, log: Log, b: Book, turns: seq<string>,
                       end: RunEnd, picked: seq<Option<nat>>, answers: seq<Answer>, sent: seq<Message>,
                       resume: seq<ResumeEntry>, rest: seq<string>)
    requires Open(s, mint, state, log, b, turns, end) && |picked| == |Asks(state, log, end)| == |answers|
    requires Carries(end, Answered(Asks(state, log, end), answers), sent, resume)
    requires NewIds(Latest(state, log).history, sent) && turns == UserTexts(sent) + rest
    ensures var asks := Asks(state, log, end);
            var after := Book(b.hitl + Answered(asks, answers), b.questions + QuestionsOf(Latest(state, log), asks),
                              b.picks + picked);
            Due(s, mint, state, log, after, rest, sent, resume)
  {
    hide RunsAre, Linked, AsksAll, AskedIn, Questions, QuestionsOf, Requests, TurnsSent, Carries, NewIds, UserTexts;
    hide Answered, AnsweredBefore;
    RunsCount(s.declared, mint, state, log.runs, log.replies, log.left);
    BlockAsked(log.runs, log.left, b.hitl);
    BlockAnswered(log.runs, log.left, b.hitl, answers);
  }

  lemma ToolsConclude(end: RunEnd, turnsLeft: bool)
    requires end.Done? && end.outcome.Success?
    ensures ConclusionOf(end, true, false, turnsLeft) == AwaitingInput
    ensures ConclusionOf(end, true, true, turnsLeft) == MaxTurns
    ensures ConclusionOf(end, false, true, turnsLeft) == if turnsLeft then MaxTurns else Completed
  {
  }

  lemma InterruptsConclude(end: RunEnd, asked: bool, matched: bool, turnsLeft: bool)
    requires end.Done? && end.outcome.Interrupted?
    ensures ConclusionOf(end, asked, matched, turnsLeft) == if asked && matched then MaxTurns else AwaitingInput
  {
  }

  // ----- the conversation -----

  class Dialogue {
    const script: Script
    const state: Json
    const matches: Matcher
    const mint: set<string> -> string
    const c: Reduction.Conversation
    const canned: seq<Canned>
    var runs: seq<Run>
    var hitl: seq<HitlRequest>
    var sent: seq<Message>
    var resume: seq<ResumeEntry>
    var followUps: seq<string>
    ghost var questions: seq<Request>
    ghost var picks: seq<Option<nat>>
    ghost var replies: seq<Reply>
    ghost var left: seq<Thread>

    ghost function Own(): set<object> {
      set x: object | x in canned
    }

    /** The canned responses, what was asked of them and what they were picked for. */
    ghost predicate Kept()
      reads `hitl, `questions, `picks, Own()
    {
      && Distinct(canned) && Specifies(canned, script.responses) && |questions| == |hitl|
      && PicksAre(matches, script.responses, questions, picks)
      && UsedOf(canned) == UsedBy(|script.responses|, picks) && Justified(hitl, picks, script.responses)
    }

    /** The thread the conversation is about, with nothing being streamed. */
    ghost predicate Still()
      reads c
    {
      c.Valid() && c.text == map[] && c.args == map[] && Fresh(mint)
    }

    ghost function Books(): Book
      reads `hitl, `questions, `picks
    {
      Book(hitl, questions, picks)
    }

    lemma SeenIsRaw()
      requires Still()
      ensures c.Seen() == c.Raw()
    {
      Buffers.NothingBuffered(c.Raw());
    }

    lemma BooksBalance()
      requires Kept()
      ensures |picks| == |hitl| == |questions|
    {
    }

    lemma Apart()
      ensures c !in Own() && this !in Own()
    {
    }

    constructor (script: Script, state: Json, matches: Matcher, mint: set<string> -> string)
      requires Fresh(mint)
      ensures Kept() && Still() && fresh(c) && fresh(Own())
      ensures this.script == script && this.matches == matches && this.state == state && this.mint == mint
      ensures Past() == Log([], [], []) && Books() == Book([], [], []) && sent == [] && resume == []
      ensures followUps == script.followUps && c.Raw() == EmptyThread(state)
    {
      this.script, this.state, this.matches, this.mint := script, state, matches, mint;
      var conversation := new Reduction.Conversation(state);
      var responses := MakeCanned(script.responses);
      c, canned := conversation, responses;
      runs, hitl, sent, resume, followUps := [], [], [], [], script.followUps;
      questions, picks, replies, left := [], [], [], [];
      new;
      SeenIsRaw();
    }

    ghost function Past(): Log
      reads `runs, `replies, `left
    {
      Log(runs, replies, left)
    }

    /** Before a run: the thread is what the last run left with what is due. */
    ghost predicate Ready()
      reads this, c, Own()
    {
      && Kept() && Still() && Due(script, mint, state, Past(), Books(), followUps, sent, resume)
      && c.Raw() == Given(Latest(state, Past()), sent)
    }

    /** After a run, before its requests are looked at. */
    ghost predicate Ran(end: RunEnd)
      reads this, c, Own()
    {
      && Kept() && Still() && Open(script, mint, state, Past(), Books(), followUps, end)
      && sent == [] && resume == [] && c.Raw() == Latest(state, Past())
    }

    /** After a run, once its requests are asked: the conversation stops there, with this outcome. */
    ghost predicate Ended(outcome: Conclusion, cap: nat)
      reads this, c, Own()
    {
      var n := |runs|;
      && Kept() && Still() && 1 <= n <= cap && sent == [] && resume == [] && c.Raw() == Latest(state, Past())
      && AskedFor(script, mint, state, Past(), Books(), followUps, runs[n - 1].end)
      && outcome ==
           ConclusionOf(runs[n - 1].end, AskedIn(hitl, n) != [], Matched(hitl, picks, n), followUps != [])
      && (outcome.MaxTurns? ==> n == cap)
    }

    /** Records a request, unanswered, and takes the response that will answer it. */
    method Ask(h: HitlRequest, q: Request) returns (pick: Option<nat>)
      requires Kept() && !h.answered && h.response.None?
      modifies `hitl, `questions, `picks, Own()
      ensures Kept() && Books() == Noted(old(Books()), h, q, pick)
      ensures pick.Some? ==>
                && pick.value < |canned| == |script.responses| && Fits(matches, script.responses[pick.value], q)
                && canned[pick.value].spec == script.responses[pick.value]
    {
      hide PicksAre, Fits, UsedAfter, UsedBy, AnswersWith;
      ghost var rs := script.responses;
      pick := Take(canned, matches, rs, q);
      PicksGrow(matches, rs, questions, picks, q, pick);
      hitl := hitl + [h];
      questions := questions + [q];
      picks := picks + [pick];
    }

    lemma KnownCall(id: string)
      requires Still()
      ensures id in c.calls <==> CallIndex(c.Raw(), id) >= 0
      ensures id in c.calls ==>
                && CallIndex(c.Raw(), id) == c.calls[id] < |c.toolCalls|
                && CallName(c.Raw(), id) == c.toolCalls[c.calls[id]].name
                && CallArgs(c.Raw(), id) == c.toolCalls[c.calls[id]].args
      ensures id !in c.calls ==> CallName(c.Raw(), id) == "" == CallArgs(c.Raw(), id)
    {
      hide Find;
    }

    lemma MintsNew(taken: set<string>)
      requires Still()
      ensures mint(taken) !in taken
    {
    }

    /** Matches every pending call to a scripted response, recording each as a request. Without a match for one of
        them there is nothing to send. */
    method AnswerTools(ids: seq<string>) returns (send: Option<Send>, ghost picked: seq<Option<nat>>)
      requires Kept() && Still()
      modifies `hitl, `questions, `picks, Own()
      ensures Kept() && |picked| == |ids|
      ensures Books() == WithRequests(old(Books()), c.Raw(), ToolRequests(c.Raw(), ids, |runs|), picked)
      ensures send.Some? <==> AllPicked(picked)
      ensures send.Some? ==>
                && send.value.SendTools? && send.value.first == |old(hitl)| && NewIds(c.history, send.value.msgs)
                && AnswersTools(send.value.msgs, ids, picked, script.responses)
                && forall id | id in ids :: id in c.calls
    {
      hide *;
      Apart();
      NoTools(c.calls.Keys, script.responses);
      NoRequests(Books(), c.Raw());
      NoToolRequests(c.Raw(), |runs|);
      NoNewIds(c.history);
      var first, msgs, taken := |hitl|, [], Ids(c.history);
      ghost var t, book := c.Raw(), Books();
      picked := [];
      var i := 0;
      while i < |ids|
        invariant 0 <= i <= |ids| && Kept() && Still() && c.Raw() == t
        invariant Books() == WithRequests(book, t, ToolRequests(t, ids[..i], |runs|), picked)
        invariant ToolsSoFar(picked, ids[..i], msgs, c.calls.Keys, script.responses)
        invariant NewIds(c.history, msgs) && Taken(c.history, msgs, taken)
      {
        MintsNew(taken);
        var msgId := mint(taken);
        OneMoreToolRequest(t, ids, i, |runs|);
        TakeOneMore([], ids, i);
        ghost var pick;
        var more;
        more, pick := AnswerCall(ids[i], msgId);
        OneMoreRequest(book, t, ToolRequests(t, ids[..i], |runs|), picked, ToolRequest(t, ids[i], |runs|), pick);
        ToolsGrow(picked, ids[..i], msgs, c.calls.Keys, script.responses, ids[i], pick, more);
        OneMoreNew(c.history, msgs, taken, msgId, more);
        taken := taken + {msgId};
        msgs := msgs + more;
        picked := picked + [pick];
        i := i + 1;
      }
      assert ids[..i] == ids;
      ToolsReadyOrNot(picked, ids, msgs, c.calls.Keys, script.responses);
      send := if |msgs| < |ids| then None else Some(SendTools(first, msgs));
    }

    /** One pending call: asked about, and answered when a response is picked. */
    method AnswerCall(id: string, msgId: string) returns (more: seq<Message>, ghost pick: Option<nat>)
      requires Kept() && Still()
      modifies `hitl, `questions, `picks, Own()
      ensures var h := ToolRequest(c.Raw(), id, |runs|);
              Kept() && Books() == Noted(old(Books()), h, QuestionOf(c.Raw(), h), pick)
      ensures pick.None? ==> more == []
      ensures pick.Some? ==>
                && |more| == 1 && more[0].id == msgId && pick.value < |script.responses| && id in c.calls
                && ToolAnswerFor(more[0], id, script.responses[pick.value])
    {
      KnownCall(id);
      hide Kept, WellFormed, CallIndex, CallName, CallArgs;
      var known, name, args := id in c.calls, "", "";
      if known {
        name, args := c.toolCalls[c.calls[id]].name, c.toolCalls[c.calls[id]].args;
      }
      var picked := Ask(HitlRequest(|runs|, AskTool, id, name, "", args, false, None), ToolAsk(known, name, args));
      more, pick := [], picked;
      if picked.Some? {
        var r := canned[picked.value].spec;
        more := [Message(msgId, "tool", Text(AnswerText(r)), "", [], id, r.error, "")];
      }
    }

    /** Matches every interrupt to a scripted response, recording each as a request. The entries are sent only when
        every interrupt is covered. */
    method AnswerInterrupts(asks: seq<Interrupt>) returns (send: Option<Send>, ghost picked: seq<Option<nat>>)
      requires Kept() && Still()
      modifies `hitl, `questions, `picks, Own()
      ensures Kept() && |picked| == |asks|
      ensures Books() == WithRequests(old(Books()), c.Raw(), InterruptRequests(c.Raw(), asks, |runs|), picked)
      ensures send.Some? <==> asks != [] && AllPicked(picked)
      ensures send.Some? ==>
                && send.value.SendResume? && send.value.first == |old(hitl)|
                && AnswersInterrupts(send.value.entries, asks, picked, script.responses)
    {
      hide *;
      Apart();
      NoEntries(script.responses);
      NoRequests(Books(), c.Raw());
      NoInterruptRequests(c.Raw(), |runs|);
      var first, entries := |hitl|, [];
      ghost var t, book := c.Raw(), Books();
      picked := [];
      var i := 0;
      while i < |asks|
        invariant 0 <= i <= |asks| && Kept() && Still() && c.Raw() == t
        invariant Books() == WithRequests(book, t, InterruptRequests(t, asks[..i], |runs|), picked)
        invariant EntriesSoFar(picked, asks[..i], entries, script.responses)
      {
        OneMoreInterruptRequest(t, asks, i, |runs|);
        TakeOneMore([], asks, i);
        ghost var pick;
        var more;
        more, pick := AnswerInterrupt(asks[i]);
        OneMoreRequest(book, t, InterruptRequests(t, asks[..i], |runs|), picked,
                       InterruptRequest(t, asks[i], |runs|), pick);
        EntriesGrow(picked, asks[..i], entries, script.responses, asks[i], pick, more);
        entries := entries + more;
        picked := picked + [pick];
        i := i + 1;
      }
      assert asks[..i] == asks;
      EntriesReadyOrNot(picked, asks, entries, script.responses);
      send := if |entries| == 0 || |entries| < |asks| then None else Some(SendResume(first, entries));
    }

    /** One interrupt: asked about, and answered when a response is picked. */
    method AnswerInterrupt(ask: Interrupt) returns (more: seq<ResumeEntry>, ghost pick: Option<nat>)
      requires Kept() && Still()
      modifies `hitl, `questions, `picks, Own()
      ensures var h := InterruptRequest(c.Raw(), ask, |runs|);
              Kept() && Books() == Noted(old(Books()), h, QuestionOf(c.Raw(), h), pick)
      ensures pick.None? ==> more == []
      ensures pick.Some? ==>
                pick.value < |script.responses| && more == [ResumeFor(ask.id, script.responses[pick.value])]
    {
      KnownCall(ask.toolCallId);
      hide Kept, WellFormed, CallIndex, CallName, CallArgs;
      var name := "";
      if ask.toolCallId in c.calls && ask.toolCallId != "" {
        name := c.toolCalls[c.calls[ask.toolCallId]].name;
      }
      var picked := Ask(HitlRequest(|runs|, AskInterrupt, ask.id, name, ask.reason, ask.message, false, None),
                        InterruptAsk(ask.reason, ask.message, name));
      more, pick := [], picked;
      if picked.Some? {
        more := [ResumeFor(ask.id, canned[picked.value].spec)];
      }
    }

    /** One run: what has accumulated is posted, the response is read and reduced, and the run is recorded. */
    method RunOnce(reply: Reply, runId: string, threadId: string) returns (end: RunEnd)
      requires Still() && runId != ""
      modifies `runs, `sent, `resume, c
      ensures Still() && sent == [] && resume == [] && end == EndOfReply(reply, runId)
      ensures var (t, items) :=
                ReducedReply(old(c.Raw()), |old(runs)| + 1, script.declared, mint, reply, runId);
              && c.Raw() == t
              && runs == old(runs) +
                         [Run(|old(runs)| + 1, runId, old(sent), old(resume), old(c.history), end, items)]
    {
      hide EndOf, SegmentsOf, BadStart, Expansion, ReadFails, Reduced, Fresh, Buffers.View;
      SeenIsRaw();
      var run := Run(|runs| + 1, runId, sent, resume, c.history, Rejected, []);
      sent, resume := [], [];
      end := Rejected;
      if reply.Responded? {
        var st := new Stream(runId, threadId);
        var failed, _ := st.Read(reply.wire, reply.ending);
        var items;
        end, items := st.Settle(c, run.index, script.declared, mint, failed);
        run := run.(end := end, items := items);
      }
      runs := runs + [run];
      SeenIsRaw();
    }

    /** The frontend calls the last run left for the client. */
    method PendingCalls(pending: Option<seq<string>>) returns (ids: seq<string>)
      ensures ids == PendingIds(pending, c.toolCalls, |runs|)
    {
      if pending.Some? {
        return pending.value;
      }
      ids := [];
      var i := 0;
      while i < |c.toolCalls|
        invariant 0 <= i <= |c.toolCalls|
        invariant ids == PendingIds(None, c.toolCalls[..i], |runs|)
      {
        var tc := c.toolCalls[i];
        PendingSnoc(c.toolCalls[..i], tc, |runs|);
        assert c.toolCalls[..i + 1] == c.toolCalls[..i] + [tc];
        if IsPending(tc, |runs|) {
          ids := ids + [tc.id];
        }
        i := i + 1;
      }
      assert c.toolCalls[..i] == c.toolCalls;
    }

    // ----- what the client adds to the thread -----

    /** Appends a client-authored message, to go with the next run. */
    method Add(m: Message)
      requires Still()
      modifies `sent, c`history
      ensures Still() && sent == old(sent) + [m]
      ensures c.Raw() == old(c.Raw()).(history := old(c.history) + [m])
    {
      c.history := c.history + [m];
      sent := sent + [m];
    }

    /** Records the scripted answer on its call. */
    method Answer(msg: Message)
      requires Still() && msg.role == "tool" && msg.toolCallId in c.calls
      modifies c`toolCalls
      ensures Still()
      ensures c.Raw() == old(c.Raw()).(toolCalls := WithResult(old(c.toolCalls), c.calls, msg))
    {
      KnownCall(msg.toolCallId);
      var k := c.calls[msg.toolCallId];
      c.toolCalls := c.toolCalls[k := c.toolCalls[k].(result := Some(ContentText(msg.content)), error := msg.error)];
    }

    /** A user turn, to go with the next run. */
    method AddUser(text: string) returns (ghost msg: Message)
      requires Still()
      modifies `sent, c`history
      ensures msg == UserMessage(mint(Ids(old(c.history))), text) && NewIds(old(c.history), [msg])
      ensures Still() && sent == old(sent) + [msg] && c.Raw() == Given(old(c.Raw()), [msg])
    {
      MintsNew(Ids(c.history));
      hide Still, Fresh, Ids, WithResult;
      var id := mint(Ids(c.history));
      msg := UserMessage(id, text);
      GivenOne(c.Raw(), msg);
      Add(UserMessage(id, text));
    }

    /** One answer given: its request is answered, its message joins the thread, its call has a result. */
    method Give(k: nat, msg: Message)
      requires Still() && k < |hitl| && msg.role == "tool" && msg.toolCallId in c.calls
      modifies `hitl, `sent, c`history, c`toolCalls
      ensures Still() && hitl == old(hitl)[k := AnswerTo(old(hitl)[k], ToolAnswer(msg))]
      ensures sent == old(sent) + [msg] && c.Raw() == Given(old(c.Raw()), [msg])
    {
      hide Still, AnswerTo, WithResult;
      hitl := hitl[k := AnswerTo(hitl[k], ToolAnswer(msg))];
      GivenOne(c.Raw(), msg);
      Add(msg);
      Answer(msg);
    }

    method GiveAll(first: nat, msgs: seq<Message>)
      requires Still() && first <= |hitl| && |msgs| == |hitl| - first
      requires forall m | m in msgs :: m.role == "tool" && m.toolCallId in c.calls
      modifies `hitl, `sent, c`history, c`toolCalls
      ensures Still() && hitl == old(hitl)[..first] + Answered(old(hitl)[first..], ToolAnswers(msgs))
      ensures sent == old(sent) + msgs && c.Raw() == Given(old(c.Raw()), msgs)
    {
      ghost var before, block, answers := hitl[..first], hitl[first..], ToolAnswers(msgs);
      AllAnswered(block, answers);
      GivenOne(c.Raw(), NewMessage("", "", ""));
      hide Still, AnsweredUpTo, Answered, AnswerTo, Given;
      assert hitl == before + block;
      var i := 0;
      while i < |msgs|
        invariant 0 <= i <= |msgs| && Still()
        invariant hitl == before + AnsweredUpTo(block, answers, i)
        invariant sent == old(sent) + msgs[..i] && c.Raw() == Given(old(c.Raw()), msgs[..i])
      {
        OneMoreGiven(old(c.Raw()), msgs, i);
        OneMoreAnswered(before, block, answers, i);
        TakeOneMore(old(sent), msgs, i);
        Give(first + i, msgs[i]);
        i := i + 1;
      }
      assert msgs[..i] == msgs;
    }

    /** Gives the answers: the requests are answered, the messages join the thread and go with the next run. */
    method CommitTools(first: nat, msgs: seq<Message>, ghost b: Book, ghost t: Thread, ghost ids: seq<string>,
                       ghost picked: seq<Option<nat>>)
      requires Kept() && Still() && first == |b.hitl|
      requires Books() == WithRequests(b, t, ToolRequests(t, ids, |runs|), picked)
      requires AnswersTools(msgs, ids, picked, script.responses) && forall id | id in ids :: id in c.calls
      modifies `hitl, `sent, c`history, c`toolCalls
      ensures Kept() && Still() && |msgs| == |ToolRequests(t, ids, |runs|)|
      ensures hitl == b.hitl + Answered(ToolRequests(t, ids, |runs|), ToolAnswers(msgs))
      ensures sent == old(sent) + msgs && c.Raw() == Given(old(c.Raw()), msgs)
    {
      hide Distinct, Specifies, PicksAre, UsedBy, UsedOf, Justified, AnswersTools, Still, Answered, ToolAnswers;
      hide ToolRequest, QuestionsOf, Given;
      BooksBalance();
      ghost var block := ToolRequests(t, ids, |runs|);
      assert |block| == |ids|;
      ToolMessages(msgs, ids, picked, script.responses);
      ToolsJustified(b.hitl, b.picks, picked, script.responses, t, |runs|, ids, msgs);
      assert hitl[..first] == b.hitl && hitl[first..] == block;
      GiveAll(first, msgs);
    }

    /** Gives the answers to interrupts: they go with the next run as its resume entries. */
    method CommitResume(first: nat, entries: seq<ResumeEntry>, ghost b: Book, ghost t: Thread,
                        ghost asks: seq<Interrupt>, ghost picked: seq<Option<nat>>)
      requires Kept() && first == |b.hitl|
      requires Books() == WithRequests(b, t, InterruptRequests(t, asks, |runs|), picked)
      requires AnswersInterrupts(entries, asks, picked, script.responses)
      modifies `hitl, `resume
      ensures Kept() && resume == entries && |entries| == |InterruptRequests(t, asks, |runs|)|
      ensures hitl == b.hitl + Answered(InterruptRequests(t, asks, |runs|), ResumeAnswers(entries))
    {
      hide Distinct, Specifies, PicksAre, UsedBy, UsedOf, Justified, AnswersInterrupts, Answered, ResumeAnswers;
      hide InterruptRequest, QuestionsOf;
      BooksBalance();
      ghost var block := InterruptRequests(t, asks, |runs|);
      assert |block| == |asks|;
      ResumeEntries(entries, asks, picked, script.responses);
      InterruptsJustified(b.hitl, b.picks, picked, script.responses, t, |runs|, asks, entries);
      assert hitl[..first] == b.hitl && hitl[first..] == block;
      ResumeAll(first, entries);
    }

    method ResumeAll(first: nat, entries: seq<ResumeEntry>)
      requires first <= |hitl| && |entries| == |hitl| - first
      modifies `hitl, `resume
      ensures resume == entries
      ensures hitl == old(hitl)[..first] + Answered(old(hitl)[first..], ResumeAnswers(entries))
    {
      ghost var before, block, answers := hitl[..first], hitl[first..], ResumeAnswers(entries);
      AllAnswered(block, answers);
      hide AnsweredUpTo, Answered, AnswerTo;
      assert hitl == before + block;
      var i := 0;
      while i < |entries|
        invariant 0 <= i <= |entries|
        invariant hitl == before + AnsweredUpTo(block, answers, i)
      {
        OneMoreAnswered(before, block, answers, i);
        hitl := hitl[first + i := AnswerTo(hitl[first + i], ResumeAnswer(entries[i]))];
        i := i + 1;
      }
      resume := entries;
    }

    // ----- from one run to the next -----

    /** The opening prompt. */
    method Begin()
      requires Kept() && Still() && Past() == Log([], [], []) && Books() == Book([], [], [])
      requires sent == [] && resume == [] && followUps == script.followUps && c.Raw() == EmptyThread(state)
      modifies `sent, c`history
      ensures Ready() && runs == [] && replies == []
    {
      hide Kept, Still, Due, Given, NewIds;
      Apart();
      ghost var msg := AddUser(script.prompt);
      NothingYet(script, mint, state, msg);
      assert sent == [msg];
    }

    /** One run and what follows from it. */
    method Exchange(reply: Reply, runId: string, threadId: string, cap: nat) returns (outcome: Option<Conclusion>)
      requires Ready() && |runs| < cap && runId != ""
      modifies this, c, Own()
      ensures |runs| == |old(runs)| + 1 && old(runs) <= runs && runs[|old(runs)|].runId == runId
      ensures replies == old(replies) + [reply]
      ensures outcome.None? ==> Ready() && |runs| < cap
      ensures outcome.Some? ==> Ended(outcome.value, cap)
    {
      hide Ready, Ran, Ended;
      var end := Record(reply, runId, threadId);
      if !end.Done? {
        NothingAsked(end, Errored, cap);
        return Some(Errored);
      }
      outcome := Next(end, cap);
    }

    /** A run made and put on record. */
    method Record(reply: Reply, runId: string, threadId: string) returns (end: RunEnd)
      requires Ready() && runId != ""
      modifies `runs, `sent, `resume, `replies, `left, c
      ensures Ran(end) && |runs| == |old(runs)| + 1 && old(runs) <= runs && runs[|old(runs)|].runId == runId
      ensures replies == old(replies) + [reply]
    {
      hide Kept, Still, Due, Open, Given, EndOfReply, ReducedReply, Latest;
      Apart();
      end := RunOnce(reply, runId, threadId);
      ghost var r := runs[|runs| - 1];
      RunMade(script, mint, state, old(Past()), Books(), followUps, r.sent, r.resume, reply, r, c.Raw());
      replies, left := replies + [reply], left + [c.Raw()];
    }

    lemma IsOver(end: RunEnd, outcome: Conclusion, cap: nat)
      requires Kept() && Still() && sent == [] && resume == [] && c.Raw() == Latest(state, Past())
      requires AskedFor(script, mint, state, Past(), Books(), followUps, end) && |runs| <= cap
      requires outcome == ConclusionOf(end, AskedIn(hitl, |runs|) != [], Matched(hitl, picks, |runs|), followUps != [])
      requires outcome.MaxTurns? ==> |runs| == cap
      ensures Ended(outcome, cap)
    {
      hide Kept, Still, Told, AskedIn, Matched, Latest, ConclusionOf, AnsweredBefore, AsksAll;
    }

    /** A run that asks nothing. */
    lemma NothingAsked(end: RunEnd, outcome: Conclusion, cap: nat)
      requires Ran(end) && Asks(state, Past(), end) == [] && |runs| <= cap && (outcome.MaxTurns? ==> |runs| == cap)
      requires outcome == ConclusionOf(end, false, true, followUps != [])
      ensures Ended(outcome, cap)
    {
      hide Kept, Still, Open, AskedFor, Ended, AskedIn, Matched, Latest, Asks, ConclusionOf, WithRequests;
      AllAskedFor(script, mint, state, Past(), Books(), followUps, end, []);
      NoRequests(Books(), Latest(state, Past()));
      IsOver(end, outcome, cap);
    }

    /** What the client does after a run that ended without an error: the conversation is over, or the answers and
        turns the next run will carry are given. Nothing is given unless another run will carry it. */
    method Next(end: RunEnd, cap: nat) returns (outcome: Option<Conclusion>)
      requires Ran(end) && end.Done? && |runs| <= cap
      modifies `hitl, `questions, `picks, `sent, `resume, `followUps, c, Own()
      ensures outcome.None? ==> Ready() && |runs| < cap
      ensures outcome.Some? ==> Ended(outcome.value, cap)
    {
      hide Kept, Still, Open, Ready, Ended, Latest, PendingIds, ToolRequest;
      match end.outcome
      case Cancelled =>
        NothingAsked(end, CancelledByAgent, cap);
        outcome := Some(CancelledByAgent);
      case Interrupted => outcome := AfterInterrupt(end, cap);
      case Success =>
        var pending := PendingCalls(end.pending);
        if |pending| > 0 {
          outcome := AfterPending(end, pending, cap);
        } else {
          outcome := AfterSuccess(end, cap);
        }
    }

    method AfterSuccess(end: RunEnd, cap: nat) returns (outcome: Option<Conclusion>)
      requires Ran(end) && end.Done? && end.outcome.Success? && |runs| <= cap && Asks(state, Past(), end) == []
      modifies `sent, `followUps, c`history
      ensures outcome.None? ==> Ready() && |runs| < cap
      ensures outcome.Some? ==> Ended(outcome.value, cap)
    {
      hide Kept, Still, Open, Due, Ended, Latest, Asks, ConclusionOf, Given, NewIds, Carries;
      Apart();
      ToolsConclude(end, |followUps| != 0);
      if |followUps| == 0 {
        NothingAsked(end, Completed, cap);
        return Some(Completed);
      }
      if |runs| >= cap {
        NothingAsked(end, MaxTurns, cap);
        return Some(MaxTurns);
      }
      ghost var msg := AddUser(followUps[0]);
      TurnDue(end, followUps, msg);
      followUps := followUps[1..];
      assert sent == [msg];
      outcome := None;
    }

    lemma TurnDue(end: RunEnd, turns: seq<string>, msg: Message)
      requires end.Done? && end.outcome.Success? && turns != [] && msg == UserMessage(msg.id, turns[0])
      requires Open(script, mint, state, Past(), Books(), turns, end) && Asks(state, Past(), end) == []
      requires NewIds(Latest(state, Past()).history, [msg])
      ensures Due(script, mint, state, Past(), Books(), turns[1..], [msg], [])
    {
      hide Kept, Still, Open, Due, Latest, Asks, Carries, NewIds, UserTexts, QuestionsOf, AnsweredUpTo, WithRequests;
      TurnCarried(end, msg.id, turns[0]);
      AllAnsweredFor(script, mint, state, Past(), Books(), turns, end, [], [], [msg], [], turns[1..]);
      NoRequests(Books(), Latest(state, Past()));
      assert Books() == Book(hitl + [], questions + QuestionsOf(Latest(state, Past()), []), picks + []);
    }

    method AfterPending(end: RunEnd, pending: seq<string>, cap: nat) returns (outcome: Option<Conclusion>)
      requires Ran(end) && end.Done? && end.outcome.Success? && |runs| <= cap && pending != []
      requires Asks(state, Past(), end) == ToolRequests(c.Raw(), pending, |runs|)
      modifies `hitl, `questions, `picks, `sent, c, Own()
      ensures outcome.None? ==> Ready() && |runs| < cap
      ensures outcome.Some? ==> Ended(outcome.value, cap)
    {
      hide Kept, Still, Open, Due, AskedFor, Ready, Ended, Latest, Asks, ConclusionOf, ToolRequest, AnswersTools;
      hide WithRequests, AskedIn, Matched, AllPicked, NewIds;
      Apart();
      ghost var b := Books();
      var send, picked := AnswerTools(pending);
      AllAskedFor(script, mint, state, Past(), b, followUps, end, picked);
      ToolsConclude(end, followUps != []);
      if send.None? {
        IsOver(end, AwaitingInput, cap);
        return Some(AwaitingInput);
      }
      if |runs| >= cap {
        IsOver(end, MaxTurns, cap);
        return Some(MaxTurns);
      }
      CarryTools(end, send.value.first, send.value.msgs, b, pending, picked);
      outcome := None;
    }

    method CarryTools(end: RunEnd, first: nat, msgs: seq<Message>, ghost b: Book, ghost ids: seq<string>,
                      ghost picked: seq<Option<nat>>)
      requires Kept() && Still() && sent == [] && resume == [] && c.Raw() == Latest(state, Past())
      requires Open(script, mint, state, Past(), b, followUps, end) && end.Done? && end.outcome.Success?
      requires ids != [] && Asks(state, Past(), end) == ToolRequests(c.Raw(), ids, |runs|) && first == |b.hitl|
      requires Books() == WithRequests(b, c.Raw(), ToolRequests(c.Raw(), ids, |runs|), picked)
      requires AnswersTools(msgs, ids, picked, script.responses) && NewIds(c.history, msgs)
      requires forall id | id in ids :: id in c.calls
      modifies `hitl, `sent, c`history, c`toolCalls
      ensures Ready()
    {
      hide Kept, Still, Open, Due, Latest, Asks, ToolRequest, Carries, Answered, AnswersTools, Given, NewIds, UserTexts;
      hide QuestionsOf, ToolAnswers;
      ghost var t := c.Raw();
      ToolsCarried(end, t, ids, |runs|, msgs, picked, script.responses);
      CommitTools(first, msgs, b, t, ids, picked);
      assert sent == msgs;
      AllAnsweredFor(script, mint, state, Past(), b, followUps, end, picked, ToolAnswers(msgs), msgs, [], followUps);
    }

    method AfterInterrupt(end: RunEnd, cap: nat) returns (outcome: Option<Conclusion>)
      requires Ran(end) && end.Done? && end.outcome.Interrupted? && |runs| <= cap
      modifies `hitl, `questions, `picks, `resume, Own()
      ensures outcome.None? ==> Ready() && |runs| < cap
      ensures outcome.Some? ==> Ended(outcome.value, cap)
    {
      hide Kept, Still, Open, Due, AskedFor, Ready, Ended, Latest, ConclusionOf, InterruptRequest, AnswersInterrupts;
      hide WithRequests, AskedIn, Matched, AllPicked;
      Apart();
      ghost var b := Books();
      var send, picked := AnswerInterrupts(end.interrupts);
      AllAskedFor(script, mint, state, Past(), b, followUps, end, picked);
      InterruptsConclude(end, end.interrupts != [], send.Some?, followUps != []);
      InterruptsConclude(end, false, true, followUps != []);
      if send.None? {
        IsOver(end, AwaitingInput, cap);
        return Some(AwaitingInput);
      }
      if |runs| >= cap {
        IsOver(end, MaxTurns, cap);
        return Some(MaxTurns);
      }
      CarryResume(end, send.value.first, send.value.entries, b, picked);
      outcome := None;
    }

    method CarryResume(end: RunEnd, first: nat, entries: seq<ResumeEntry>, ghost b: Book,
                       ghost picked: seq<Option<nat>>)
      requires Kept() && Still() && sent == [] && resume == [] && c.Raw() == Latest(state, Past())
      requires Open(script, mint, state, Past(), b, followUps, end) && end.Done? && end.outcome.Interrupted?
      requires end.interrupts != [] && first == |b.hitl|
      requires Books() == WithRequests(b, c.Raw(), InterruptRequests(c.Raw(), end.interrupts, |runs|), picked)
      requires AnswersInterrupts(entries, end.interrupts, picked, script.responses)
      modifies `hitl, `resume
      ensures Ready()
    {
      hide Kept, Still, Open, Due, Latest, InterruptRequest, Carries, Answered, AnswersInterrupts, Given, NewIds;
      hide UserTexts, QuestionsOf, ResumeAnswers, WithResult;
      GivenOne(c.Raw(), NewMessage("", "", ""));
      NoNewIds(c.history);
      NoUserTexts([]);
      ghost var t := c.Raw();
      ResumeCarried(end, t, |runs|, entries, picked, script.responses);
      CommitResume(first, entries, b, t, end.interrupts, picked);
      AllAnsweredFor(script, mint, state, Past(), b, followUps, end, picked, ResumeAnswers(entries), [], entries,
                     followUps);
    }

    /** What a conversation that has ended adds up to. */
    lemma Sums(outcome: Conclusion, t: Transcript)
      requires Ended(outcome, Cap(script))
      requires t == Transcript(t.threadId, outcome, runs, c.history, c.toolCalls, hitl, c.state)
      ensures Honest(script, matches, mint, state, t, replies, left, picks) && OutcomeMeans(script, t, picks)
    {
      hide Linked, AsksAll, AskedIn, Questions, RunsAre, PicksAre, Justified, UsedOf, UsedBy, Matched, Still, Distinct;
      hide AnsweredBefore, DistinctIds, Specifies, ConclusionOf, TurnsSent;
      DistinctCalls();
      RunsCount(script.declared, mint, state, runs, replies, left);
      assert followUps != [] <==> TurnsSent(runs) != Turns(script);
    }

    lemma DistinctCalls()
      requires Still()
      ensures DistinctIds(c.toolCalls)
    {
      hide Find;
    }
  }

  lemma ResumeEntries(entries: seq<ResumeEntry>, asks: seq<Interrupt>, picks: seq<Option<nat>>, rs: seq<Response>)
    requires AnswersInterrupts(entries, asks, picks, rs)
    ensures |entries| == |asks| == |picks| && forall i | 0 <= i < |asks| :: entries[i].interruptId == asks[i].id
  {
  }

  lemma ToolAnswered(t: Thread, ids: seq<string>, run: nat, msgs: seq<Message>, picked: seq<Option<nat>>,
                     rs: seq<Response>, i: nat)
    requires i < |ids| && AnswersTools(msgs, ids, picked, rs)
    ensures picked[i].Some? && picked[i].value < |rs|
    ensures AnswersWith(AnswerTo(ToolRequests(t, ids, run)[i], ToolAnswers(msgs)[i]), rs[picked[i].value])
  {
    hide CallName, CallArgs, ToolAnswerFor;
  }

  lemma InterruptAnswered(t: Thread, asks: seq<Interrupt>, run: nat, entries: seq<ResumeEntry>,
                          picked: seq<Option<nat>>, rs: seq<Response>, i: nat)
    requires i < |asks| && AnswersInterrupts(entries, asks, picked, rs)
    ensures picked[i].Some? && picked[i].value < |rs|
    ensures AnswersWith(AnswerTo(InterruptRequests(t, asks, run)[i], ResumeAnswers(entries)[i]), rs[picked[i].value])
  {
    hide CallName, ResumeFor;
  }

  lemma ToolsJustified(before: seq<HitlRequest>, ps: seq<Option<nat>>, picked: seq<Option<nat>>, rs: seq<Response>,
                       t: Thread, run: nat, ids: seq<string>, msgs: seq<Message>)
    requires Justified(before + ToolRequests(t, ids, run), ps + picked, rs) && |ps| == |before|
    requires AnswersTools(msgs, ids, picked, rs) && |msgs| == |ids| == |picked|
    ensures Justified(before + Answered(ToolRequests(t, ids, run), ToolAnswers(msgs)), ps + picked, rs)
  {
    hide Justified, AnswersTools, AnswersWith, AnswerTo, ToolRequest, Answered;
    var block := ToolRequests(t, ids, run);
    forall i | 0 <= i < |msgs|
      ensures picked[i].Some? && picked[i].value < |rs|
      ensures AnswersWith(AnswerTo(block[i], ToolAnswers(msgs)[i]), rs[picked[i].value])
    {
      ToolAnswered(t, ids, run, msgs, picked, rs, i);
    }
    StillJustified(before, block, ps, picked, rs, ToolAnswers(msgs));
  }

  lemma InterruptsJustified(before: seq<HitlRequest>, ps: seq<Option<nat>>, picked: seq<Option<nat>>,
                            rs: seq<Response>, t: Thread, run: nat, asks: seq<Interrupt>, entries: seq<ResumeEntry>)
    requires Justified(before + InterruptRequests(t, asks, run), ps + picked, rs) && |ps| == |before|
    requires AnswersInterrupts(entries, asks, picked, rs) && |entries| == |asks| == |picked|
    ensures Justified(before + Answered(InterruptRequests(t, asks, run), ResumeAnswers(entries)), ps + picked, rs)
  {
    hide Justified, AnswersInterrupts, AnswersWith, AnswerTo, InterruptRequest, Answered;
    var block := InterruptRequests(t, asks, run);
    forall i | 0 <= i < |entries|
      ensures picked[i].Some? && picked[i].value < |rs|
      ensures AnswersWith(AnswerTo(block[i], ResumeAnswers(entries)[i]), rs[picked[i].value])
    {
      InterruptAnswered(t, asks, run, entries, picked, rs, i);
    }
    StillJustified(before, block, ps, picked, rs, ResumeAnswers(entries));
  }

  lemma NoTools(known: set<string>, rs: seq<Response>)
    ensures ToolsSoFar([], [], [], known, rs)
  {
  }

  lemma NoEntries(rs: seq<Response>)
    ensures EntriesSoFar([], [], [], rs)
  {
  }

  lemma NoToolRequests(t: Thread, run: nat)
    ensures ToolRequests(t, [], run) == []
  {
  }

  lemma NoInterruptRequests(t: Thread, run: nat)
    ensures InterruptRequests(t, [], run) == []
  {
  }

  lemma OneMoreToolRequest(t: Thread, ids: seq<string>, i: nat, run: nat)
    requires i < |ids|
    ensures ToolRequests(t, ids[..i + 1], run) == ToolRequests(t, ids[..i], run) + [ToolRequest(t, ids[i], run)]
  {
    hide ToolRequest;
  }

  lemma OneMoreInterruptRequest(t: Thread, asks: seq<Interrupt>, i: nat, run: nat)
    requires i < |asks|
    ensures InterruptRequests(t, asks[..i + 1], run) ==
            InterruptRequests(t, asks[..i], run) + [InterruptRequest(t, asks[i], run)]
  {
    hide InterruptRequest;
  }

  lemma ToolsReadyOrNot(picked: seq<Option<nat>>, ids: seq<string>, msgs: seq<Message>, known: set<string>,
                        rs: seq<Response>)
    requires ToolsSoFar(picked, ids, msgs, known, rs)
    ensures (|msgs| < |ids| <==> !AllPicked(picked)) && |picked| == |ids|
    ensures |msgs| >= |ids| ==> AnswersTools(msgs, ids, picked, rs) && forall id | id in ids :: id in known
  {
    hide AnswersTools, AllPicked;
  }

  lemma EntriesReadyOrNot(picked: seq<Option<nat>>, asks: seq<Interrupt>, entries: seq<ResumeEntry>, rs: seq<Response>)
    requires EntriesSoFar(picked, asks, entries, rs)
    ensures (|entries| < |asks| <==> !AllPicked(picked)) && |picked| == |asks|
    ensures |entries| >= |asks| ==> |entries| == |asks| && AnswersInterrupts(entries, asks, picked, rs)
  {
    hide AnswersInterrupts, AllPicked;
  }

  /** These ids are all spoken for. */
  predicate Taken(h: seq<Message>, msgs: seq<Message>, taken: set<string>) {
    Ids(h) <= taken && forall m | m in msgs :: m.id in taken
  }

  lemma NoNewIds(h: seq<Message>)
    ensures NewIds(h, []) && Taken(h, [], Ids(h))
  {
  }

  lemma OneMoreNew(h: seq<Message>, msgs: seq<Message>, taken: set<string>, id: string, more: seq<Message>)
    requires NewIds(h, msgs) && Taken(h, msgs, taken) && id !in taken
    requires more == [] || (|more| == 1 && more[0].id == id)
    ensures NewIds(h, msgs + more) && Taken(h, msgs + more, taken + {id})
  {
    var all := msgs + more;
    forall i | 0 <= i < |all|
      ensures all[i].id !in Ids(h) && forall j | 0 <= j < i :: all[j].id != all[i].id
    {
      assert forall j | 0 <= j < |msgs| :: all[j] == msgs[j] && msgs[j] in msgs;
    }
  }

  // ----- the whole conversation -----

  ghost predicate DistinctIds(tcs: seq<ToolCall>) {
    forall i, j | 0 <= i < j < |tcs| :: tcs[i].id != tcs[j].id
  }

  /** What the record alone shows: at most the cap of runs, each carrying exactly the answers to the run before, every
      request answered exactly when a later run exists, and the script's user turns in order. */
  ghost predicate Orderly(s: Script, t: Transcript) {
    var n := |t.runs|;
    && 1 <= n <= Cap(s) && Linked(t.runs, t.hitl) && AnsweredBefore(t.hitl, n, n)
    && TurnsSent(t.runs) <= Turns(s) && DistinctIds(t.toolCalls)
  }

  /** What every conversation's transcript satisfies, whatever the agent replies. left has the thread each run left,
      and picks the response matched to each request. */
  ghost predicate Honest(s: Script, matches: Matcher, mint: set<string> -> string, state: Json, t: Transcript,
                         replies: seq<Reply>, left: seq<Thread>, picks: seq<Option<nat>>)
  {
    var n := |t.runs|;
    && Orderly(s, t) && RunsAre(s.declared, mint, state, t.runs, replies, left) && AsksAll(t.runs, left, t.hitl, n)
    && PicksAre(matches, s.responses, Questions(left, t.hitl), picks) && Justified(t.hitl, picks, s.responses)
    && t.messages == left[n - 1].history && t.toolCalls == left[n - 1].toolCalls && t.state == left[n - 1].state
  }

  /** What each outcome means. */
  ghost predicate OutcomeMeans(s: Script, t: Transcript, picks: seq<Option<nat>>)
    requires |t.runs| > 0
  {
    var n := |t.runs|;
    && t.outcome == ConclusionOf(t.runs[n - 1].end, AskedIn(t.hitl, n) != [], Matched(t.hitl, picks, n),
                                 TurnsSent(t.runs) != Turns(s))
    && (t.outcome.MaxTurns? ==> n == Cap(s))
  }

  /** After a successful run the client asks about exactly the calls that run left pending, those the agent lists or
      else those the run started unanswered, and answers all of them when another run is made and none otherwise. */
  lemma AllPendingOrNone(s: Script, matches: Matcher, mint: set<string> -> string, state: Json, t: Transcript,
                         replies: seq<Reply>, left: seq<Thread>, picks: seq<Option<nat>>, k: nat)
    requires Honest(s, matches, mint, state, t, replies, left, picks) && k < |t.runs|
    requires t.runs[k].end.Done? && t.runs[k].end.outcome.Success?
    ensures k < |left|
    ensures var asked := AskedIn(t.hitl, k + 1);
            && Map((h: HitlRequest) => h.id, asked) == PendingIds(t.runs[k].end.pending, left[k].toolCalls, k + 1)
            && forall h | h in asked :: h.kind.AskTool? && (h.answered <==> k + 1 < |t.runs|)
  {
    hide RunsAre, Linked, PicksAre, Justified, AskedIn, Questions, Requests, AllAsked, AnsweredBefore, PendingIds;
    var asked := AskedIn(t.hitl, k + 1);
    assert AsksAt(t.runs, left, t.hitl, k);
    SuccessAsks(t.runs[k].end, left[k], k + 1, asked);
    forall h | h in asked ensures h.answered <==> k + 1 < |t.runs| {
      AskedMember(t.hitl, k + 1, h);
      AnsweredIff(t.hitl, |t.runs|, h);
    }
  }

  lemma SuccessAsks(end: RunEnd, t: Thread, run: nat, asked: seq<HitlRequest>)
    requires end.Done? && end.outcome.Success? && AllAsked(asked) == Requests(end, t, run)
    ensures Map((h: HitlRequest) => h.id, asked) == PendingIds(end.pending, t.toolCalls, run)
    ensures forall h | h in asked :: h.kind.AskTool?
  {
    hide PendingIds, ToolRequest;
    var ids := PendingIds(end.pending, t.toolCalls, run);
    assert |AllAsked(asked)| == |ids|;
    forall i | 0 <= i < |asked| ensures asked[i].id == ids[i] && asked[i].kind.AskTool? {
      assert AllAsked(asked)[i] == Asked(asked[i]);
      ToolRequestIs(t, ids[i], run);
    }
  }

  lemma ToolRequestIs(t: Thread, id: string, run: nat)
    ensures ToolRequest(t, id, run).id == id && ToolRequest(t, id, run).kind.AskTool?
  {
  }

  lemma AskedMember(hitl: seq<HitlRequest>, k: nat, h: HitlRequest)
    ensures h in AskedIn(hitl, k) <==> h in hitl && h.run == k
  {
    FilterMember((h: HitlRequest) => h.run == k, hitl, h);
  }

  lemma AnsweredIff(hitl: seq<HitlRequest>, n: nat, h: HitlRequest)
    requires AnsweredBefore(hitl, n, n) && h in hitl
    ensures h.answered <==> h.run < n
  {
  }

  /** A conversation left awaiting input has a request that no response still available fits, unless the run was
      interrupted without saying by what. */
  lemma AwaitingMeansUnanswerable(s: Script, matches: Matcher, mint: set<string> -> string, state: Json, t: Transcript,
                                  replies: seq<Reply>, left: seq<Thread>, picks: seq<Option<nat>>)
    returns (i: nat)
    requires Honest(s, matches, mint, state, t, replies, left, picks) && OutcomeMeans(s, t, picks)
    requires t.outcome.AwaitingInput? && AskedIn(t.hitl, |t.runs|) != []
    ensures i < |t.hitl| == |picks| && t.hitl[i].run == |t.runs| && picks[i].None?
    ensures forall k | 0 <= k < |s.responses| && Fits(matches, s.responses[k], Questions(left, t.hitl)[i]) ::
              !s.responses[k].repeatable && Some(k) in picks[..i]
  {
    hide RunsAre, Linked, Justified, AskedIn, AsksAll, AnsweredBefore, Fits, QuestionOf, IsPick;
    var qs := Questions(left, t.hitl);
    i :| 0 <= i < |t.hitl| && t.hitl[i].run == |t.runs| && picks[i].None?;
    forall k | 0 <= k < |s.responses| && Fits(matches, s.responses[k], qs[i])
      ensures !s.responses[k].repeatable && Some(k) in picks[..i]
    {
      UnmatchedMeansExhausted(matches, s.responses, qs, picks, i, k);
    }
  }

  /** Every answer given, and every answer held back at the cap, is that of the first response still available that
      fits the request. */
  lemma EveryAnswerFits(s: Script, matches: Matcher, mint: set<string> -> string, state: Json, t: Transcript,
                        replies: seq<Reply>, left: seq<Thread>, picks: seq<Option<nat>>, i: nat)
    requires Honest(s, matches, mint, state, t, replies, left, picks) && OutcomeMeans(s, t, picks)
    requires i < |t.hitl| && (t.hitl[i].answered || t.outcome.MaxTurns?)
    ensures |picks| == |t.hitl| && picks[i].Some?
    ensures IsFirstFit(matches, s.responses, UsedBy(|s.responses|, picks[..i]), Questions(left, t.hitl)[i],
                       picks[i].value)
  {
    hide RunsAre, Linked, AskedIn, AsksAll, Fits, QuestionOf, IsFirstFit, AnswersWith;
    assert IsPick(matches, s.responses, UsedBy(|s.responses|, picks[..i]), Questions(left, t.hitl)[i], picks[i]);
  }

  /** Drives one scripted conversation against an agent that may reply anything to any run. */
  method Converse(script: Script, state: Json, matches: Matcher, mint: set<string> -> string, agent: nat -> Reply,
                  runIds: nat -> string, threadId: string)
    returns (t: Transcript, ghost replies: seq<Reply>, ghost left: seq<Thread>, ghost picks: seq<Option<nat>>)
    requires Fresh(mint) && forall k :: runIds(k) != ""
    ensures Orderly(script, t) && t.threadId == threadId
    ensures forall k | 0 <= k < |t.runs| ::
              t.runs[k].runId == runIds(k) && t.runs[k].end == EndOfReply(agent(k), runIds(k))
    ensures Honest(script, matches, mint, state, t, replies, left, picks) && OutcomeMeans(script, t, picks)
    ensures forall k | 0 <= k < |t.runs| :: replies[k] == agent(k)
  {
    hide *;
    var d := new Dialogue(script, state, matches, mint);
    d.Begin();
    var outcome: Option<Conclusion> := None;
    while outcome.None?
      invariant d.script == script && d.matches == matches && d.mint == mint && d.state == state
      invariant fresh(d) && fresh(d.c) && fresh(d.Own())
      invariant outcome.None? ==> d.Ready() && |d.runs| < Cap(script)
      invariant outcome.Some? ==> d.Ended(outcome.value, Cap(script))
      invariant |d.replies| == |d.runs|
      invariant forall k | 0 <= k < |d.runs| :: d.runs[k].runId == runIds(k) && d.replies[k] == agent(k)
      decreases Cap(script) - |d.runs|, outcome.None?
    {
      outcome := d.Exchange(agent(|d.runs|), runIds(|d.runs|), threadId, Cap(script));
    }
    replies, left, picks := d.replies, d.left, d.picks;
    t := Transcript(threadId, outcome.value, d.runs, d.c.history, d.c.toolCalls, d.hitl, d.c.state);
    d.Sums(outcome.value, t);
    IsOrderly(script, matches, mint, state, t, replies, left, picks);
    forall k | 0 <= k < |t.runs| ensures t.runs[k].end == EndOfReply(agent(k), runIds(k)) {
      EndIs(script.declared, mint, state, t.runs, replies, left, k);
    }
  }

  lemma IsOrderly(s: Script, matches: Matcher, mint: set<string> -> string, state: Json, t: Transcript,
                  replies: seq<Reply>, left: seq<Thread>, picks: seq<Option<nat>>)
    requires Honest(s, matches, mint, state, t, replies, left, picks)
    ensures Orderly(s, t) && RunsAre(s.declared, mint, state, t.runs, replies, left) && |t.runs| > 0
  {
    hide Orderly, RunsAre, AsksAll, PicksAre, Justified, Questions;
    assert Orderly(s, t);
    SomeRun(s, t);
  }

  lemma SomeRun(s: Script, t: Transcript)
    requires Orderly(s, t)
    ensures |t.runs| > 0
  {
    hide Linked, AnsweredBefore, TurnsSent, DistinctIds;
  }

  lemma EndIs(declared: set<string>, mint: set<string> -> string, state: Json, runs: seq<Run>, replies: seq<Reply>,
              left: seq<Thread>, k: nat)
    requires RunsAre(declared, mint, state, runs, replies, left) && k < |runs|
    ensures |replies| == |runs| && runs[k].end == EndOfReply(replies[k], runs[k].runId)
  {
    hide ReducedReply, EndOfReply, Given, NewIds;
    assert RunStands(declared, mint, state, runs, replies, left, k);
  }
}
