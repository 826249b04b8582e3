/** Which calls a run leaves for the client, read from the run's events. */
module PendingLaws {
  import opened Prelude
  import opened Events
  import opened Threads
  import opened ThreadLaws
  import opened Reduction
  import opened Transcripts

  /** Position k is the first that opens the call with this id. */
  predicate OpenerAt(es: seq<Event>, k: nat, id: string) {
    && k < |es| && OpensCall(es[k]) && es[k].toolCallId == id
    && forall i | 0 <= i < k :: !(OpensCall(es[i]) && es[i].toolCallId == id)
  }

  ghost predicate ResultAfter(es: seq<Event>, k: nat, id: string) {
    exists j: nat :: k < j < |es| && es[j].typ.ToolCallResult? && es[j].toolCallId == id
  }

  /** A call new to the thread, opened under a declared name and never given a result by the agent. */
  ghost predicate LeftPending(es: seq<Event>, known: set<string>, declared: set<string>, id: string) {
    && id !in known
    && exists k: nat :: OpenerAt(es, k, id) && OpenedName(es[k]) in declared && !ResultAfter(es, k, id)
  }

  ghost predicate WasOpened(es: seq<Event>, id: string) { exists k: nat :: OpenerAt(es, k, id) }

  lemma OpenerUnique(es: seq<Event>, k: nat, m: nat, id: string)
    requires OpenerAt(es, k, id) && OpenerAt(es, m, id)
    ensures k == m
  {
  }

  // ----- one event more -----

  lemma OpenerSnoc(es: seq<Event>, e: Event, k: nat, id: string)
    requires k < |es|
    ensures OpenerAt(es + [e], k, id) <==> OpenerAt(es, k, id)
    ensures ResultAfter(es + [e], k, id) <==> ResultAfter(es, k, id) || (e.typ.ToolCallResult? && e.toolCallId == id)
  {
    var all := es + [e];
    assert all[..|es|] == es && all[|es|] == e;
    if ResultAfter(es, k, id) {
      var j: nat :| k < j < |es| && es[j].typ.ToolCallResult? && es[j].toolCallId == id;
      assert all[j] == es[j];
    }
  }

  /** What the record says of the calls a run opened, ks being where each was opened. */
  ghost predicate Tells(t: Thread, t1: Thread, ctx: RunContext, es: seq<Event>, ks: seq<nat>) {
    var n := |t.toolCalls|;
    && |t1.toolCalls| == n + |ks| && (forall i, j | 0 <= i < j < |ks| :: ks[i] < ks[j])
    && (forall i: nat | i < n :: t1.toolCalls[i].run == t.toolCalls[i].run && t1.toolCalls[i].id == t.toolCalls[i].id)
    && (forall i: nat | i < |ks| :: TellsOf(t, t1.toolCalls[n + i], ctx, es, ks[i]))
    && (forall i: nat | i < |ks| :: ks[i] < |es|)
    && (forall id :: id in t1.calls <==> id in t.calls || WasOpened(es, id))
  }

  ghost predicate TellsOf(t: Thread, tc: ToolCall, ctx: RunContext, es: seq<Event>, k: nat) {
    && OpenerAt(es, k, tc.id) && tc.id !in t.calls && tc.run == ctx.run
    && tc.name == OpenedName(es[k]) && tc.frontend == (OpenedName(es[k]) in ctx.declared)
    && (tc.result.Some? <==> ResultAfter(es, k, tc.id))
  }

  lemma TellsOfSnoc(t: Thread, tc: ToolCall, tc1: ToolCall, ctx: RunContext, es: seq<Event>, e: Event, k: nat)
    requires TellsOf(t, tc, ctx, es, k)
    requires tc1 == tc.(args := tc1.args, result := tc1.result)
    requires tc1.result.Some? <==> tc.result.Some? || (e.typ.ToolCallResult? && e.toolCallId == tc.id)
    ensures TellsOf(t, tc1, ctx, es + [e], k)
  {
    OpenerSnoc(es, e, k, tc.id);
  }

  /** The record after an event that opens a call. */
  lemma TellsOpened(t: Thread, t1: Thread, t2: Thread, ctx: RunContext, es: seq<Event>, e: Event, ks: seq<nat>)
    requires Tells(t, t1, ctx, es, ks) && RecordsStep(t1, t2, ctx, e) && OpensCall(e) && e.toolCallId !in t1.calls
    ensures Tells(t, t2, ctx, es + [e], ks + [|es|])
  {
    hide TellsOf, WasOpened, OpenerAt, ContentText;
    var n, ks' := |t.toolCalls|, ks + [|es|];
    NotOpenedYet(es, e);
    OpenersSnoc(t, t1, t2, es, e);
    OpenedTells(t, t2.toolCalls[n + |ks|], ctx, es, e);
    forall i: nat | i < |ks'| ensures TellsOf(t, t2.toolCalls[n + i], ctx, es + [e], ks'[i]) {
      if i < |ks| {
        assert t2.toolCalls[n + i] == t1.toolCalls[n + i];
        TellsOfSnoc(t, t1.toolCalls[n + i], t2.toolCalls[n + i], ctx, es, e, ks[i]);
      }
    }
  }

  /** The record after any other event. */
  lemma TellsOther(t: Thread, t1: Thread, t2: Thread, ctx: RunContext, es: seq<Event>, e: Event, ks: seq<nat>)
    requires Tells(t, t1, ctx, es, ks) && RecordsStep(t1, t2, ctx, e) && !(OpensCall(e) && e.toolCallId !in t1.calls)
    ensures Tells(t, t2, ctx, es + [e], ks)
  {
    hide TellsOf, WasOpened, OpenerAt, ContentText;
    var n := |t.toolCalls|;
    OpenersSnoc(t, t1, t2, es, e);
    forall i: nat | i < |ks| ensures TellsOf(t, t2.toolCalls[n + i], ctx, es + [e], ks[i]) {
      TellsOfSnoc(t, t1.toolCalls[n + i], t2.toolCalls[n + i], ctx, es, e, ks[i]);
    }
  }

  lemma NotOpenedYet(es: seq<Event>, e: Event)
    requires OpensCall(e) && !WasOpened(es, e.toolCallId)
    ensures OpenerAt(es + [e], |es|, e.toolCallId)
  {
    forall i | 0 <= i < |es| ensures !(OpensCall(es[i]) && es[i].toolCallId == e.toolCallId) {
      if OpensCall(es[i]) && es[i].toolCallId == e.toolCallId {
        var k := FirstOpener(es, e.toolCallId, i);
      }
    }
  }

  lemma FirstOpener(es: seq<Event>, id: string, i: nat) returns (k: nat)
    requires i < |es| && OpensCall(es[i]) && es[i].toolCallId == id
    ensures OpenerAt(es, k, id)
  {
    k := i;
    if exists j :: 0 <= j < i && OpensCall(es[j]) && es[j].toolCallId == id {
      var j :| 0 <= j < i && OpensCall(es[j]) && es[j].toolCallId == id;
      k := FirstOpener(es, id, j);
    }
  }

  lemma OpenedTells(t: Thread, tc: ToolCall, ctx: RunContext, es: seq<Event>, e: Event)
    requires OpensCall(e) && e.toolCallId !in t.calls && OpenerAt(es + [e], |es|, e.toolCallId)
    requires tc == ToolCall(ctx.run, e.toolCallId, OpenedName(e), OpenedArgs(e), None, "",
                            OpenedName(e) in ctx.declared)
    ensures TellsOf(t, tc, ctx, es + [e], |es|)
  {
  }

  /** The calls known are those known before and those opened. */
  lemma OpenersSnoc(t: Thread, t1: Thread, t2: Thread, es: seq<Event>, e: Event)
    requires forall id :: id in t1.calls <==> id in t.calls || WasOpened(es, id)
    requires t2.calls.Keys == if OpensCall(e) then t1.calls.Keys + {e.toolCallId} else t1.calls.Keys
    ensures forall id :: id in t2.calls <==> id in t.calls || WasOpened(es + [e], id)
  {
    forall id ensures WasOpened(es + [e], id) <==> WasOpened(es, id) || (OpensCall(e) && e.toolCallId == id) {
      WasOpenedSnoc(es, e, id);
    }
    assert forall id :: id in t2.calls <==> id in t2.calls.Keys;
    assert forall id :: id in t1.calls <==> id in t1.calls.Keys;
    hide WasOpened;
  }

  lemma WasOpenedSnoc(es: seq<Event>, e: Event, id: string)
    ensures WasOpened(es + [e], id) <==> WasOpened(es, id) || (OpensCall(e) && e.toolCallId == id)
  {
    var all := es + [e];
    assert all[|es|] == e;
    if WasOpened(es, id) {
      var k: nat :| OpenerAt(es, k, id);
      OpenerSnoc(es, e, k, id);
    }
    if WasOpened(all, id) {
      var k: nat :| OpenerAt(all, k, id);
      if k < |es| {
        OpenerSnoc(es, e, k, id);
      }
    }
    if OpensCall(e) && e.toolCallId == id {
      var k := FirstOpener(all, id, |es|);
    }
  }

  // ----- a whole run -----

  lemma BufferedRecords(t: Thread, ctx: RunContext, e: Event)
    ensures Buffered(t, ctx, e).toolCalls == Applied(t, ctx, e).toolCalls
    ensures Buffered(t, ctx, e).calls == Applied(t, ctx, e).calls
  {
    hide Applied, Find;
  }

  lemma RecordsBuffered(t: Thread, ctx: RunContext, e: Event)
    requires WellFormed(t) && !e.typ.MessagesSnapshot?
    ensures RecordsStep(t, Buffered(t, ctx, e), ctx, e)
  {
    RecordsEach(t, ctx, e);
    BufferedRecords(t, ctx, e);
    hide Buffered, Applied;
  }

  lemma {:induction false} RunTells(t: Thread, ctx: RunContext, es: seq<Event>) returns (ks: seq<nat>)
    requires WellFormed(t) && forall e | e in es :: !e.typ.MessagesSnapshot?
    ensures Tells(t, BufferedAll(t, ctx, es), ctx, es, ks) && WellFormed(BufferedAll(t, ctx, es))
  {
    ks := [];
    if es == [] {
      NothingTold(t, ctx);
    } else {
      hide Tells, RecordsStep, Buffered, WellFormed;
      var front, e := es[..|es| - 1], es[|es| - 1];
      assert es == front + [e] && e in es;
      ks := RunTells(t, ctx, front);
      var t1 := BufferedAll(t, ctx, front);
      RecordsBuffered(t1, ctx, e);
      BufferedKeeps(t1, ctx, e);
      if OpensCall(e) && e.toolCallId !in t1.calls {
        TellsOpened(t, t1, Buffered(t1, ctx, e), ctx, front, e, ks);
        ks := ks + [|front|];
      } else {
        TellsOther(t, t1, Buffered(t1, ctx, e), ctx, front, e, ks);
      }
    }
  }

  lemma NothingTold(t: Thread, ctx: RunContext)
    ensures Tells(t, t, ctx, [], [])
  {
  }

  // ----- the calls left pending -----

  /** Where the elements kept by a filter were. */
  lemma {:induction false} FilterPositions<T>(keep: T -> bool, s: seq<T>) returns (at: seq<nat>)
    ensures |at| == |Filter(keep, s)|
    ensures forall i: nat | i < |at| :: at[i] < |s| && Filter(keep, s)[i] == s[at[i]] && keep(s[at[i]])
    ensures forall i, j | 0 <= i < j < |at| :: at[i] < at[j]
    ensures forall k: nat | k < |s| && keep(s[k]) :: k in at
  {
    at := [];
    if s != [] {
      var front, x := s[..|s| - 1], s[|s| - 1];
      assert s == front + [x];
      at := FilterPositions(keep, front);
      FilterConcat(keep, front, [x]);
      assert Filter(keep, [x]) == if keep(x) then [x] else [] by { assert [x][1..] == []; }
      if keep(x) {
        assert (at + [|front|])[|at|] == |front|;
        assert forall k | k in at :: k in at + [|front|];
        at := at + [|front|];
      }
    }
  }

  /** Every id of the list comes before the next in the order the run opened them. */
  ghost predicate InOrderOpened(es: seq<Event>, ids: seq<string>) {
    forall i, j, a: nat, b: nat | 0 <= i < j < |ids| && OpenerAt(es, a, ids[i]) && OpenerAt(es, b, ids[j]) :: a < b
  }

  /** The pending ids are those of records the run opened, in the record's order. */
  ghost predicate ListsPending(t: Thread, t1: Thread, ctx: RunContext, es: seq<Event>, ks: seq<nat>, at: seq<nat>,
                               ids: seq<string>)
  {
    var n, all := |t.toolCalls|, t1.toolCalls;
    && |at| == |ids| && |all| == n + |ks|
    && (forall i: nat | i < |at| ::
          && n <= at[i] < |all| && ids[i] == all[at[i]].id && IsPending(all[at[i]], ctx.run)
          && TellsOf(t, all[at[i]], ctx, es, ks[at[i] - n]))
    && (forall i: nat, j: nat | i < j < |at| :: at[i] < at[j])
    && (forall k: nat | k < |all| && IsPending(all[k], ctx.run) :: k in at)
  }

  lemma PendingListed(t: Thread, t1: Thread, ctx: RunContext, es: seq<Event>, ks: seq<nat>) returns (at: seq<nat>)
    requires Tells(t, t1, ctx, es, ks) && forall tc | tc in t.toolCalls :: tc.run != ctx.run
    ensures ListsPending(t, t1, ctx, es, ks, at, PendingIds(None, t1.toolCalls, ctx.run))
  {
    hide TellsOf, WasOpened, OpenerAt;
    var n, all := |t.toolCalls|, t1.toolCalls;
    at := FilterPositions((tc: ToolCall) => IsPending(tc, ctx.run), all);
    forall i: nat | i < n ensures !IsPending(all[i], ctx.run) {
      assert t.toolCalls[i] in t.toolCalls;
    }
    forall i: nat | i < |at| ensures at[i] >= n && TellsOf(t, all[at[i]], ctx, es, ks[at[i] - n]) {
      assert all[n + (at[i] - n)] == all[at[i]];
    }
  }

  lemma PendingMembers(t: Thread, t1: Thread, ctx: RunContext, es: seq<Event>, ks: seq<nat>, at: seq<nat>,
                       ids: seq<string>, id: string)
    requires Tells(t, t1, ctx, es, ks) && Indexed(t.toolCalls, t.calls) && Indexed(t1.toolCalls, t1.calls)
    requires ListsPending(t, t1, ctx, es, ks, at, ids)
    ensures id in ids <==> LeftPending(es, t.calls.Keys, ctx.declared, id)
  {
    if id in ids {
      var i: nat :| i < |ids| && ids[i] == id;
      PendingTold(t, t1.toolCalls[at[i]], ctx, es, ks[at[i] - |t.toolCalls|]);
    }
    if LeftPending(es, t.calls.Keys, ctx.declared, id) {
      var i := ToldPending(t, t1, ctx, es, ks, id);
      hide Tells, LeftPending, TellsOf, Indexed;
      var q: nat :| q < |at| && at[q] == i;
      assert ids[q] == id;
    }
  }

  lemma PendingInOrder(t: Thread, t1: Thread, ctx: RunContext, es: seq<Event>, ks: seq<nat>, at: seq<nat>,
                       ids: seq<string>)
    requires ListsPending(t, t1, ctx, es, ks, at, ids) && forall i, j | 0 <= i < j < |ks| :: ks[i] < ks[j]
    ensures InOrderOpened(es, ids)
  {
    hide IsPending;
    var n := |t.toolCalls|;
    forall i, j, a: nat, b: nat | 0 <= i < j < |ids| && OpenerAt(es, a, ids[i]) && OpenerAt(es, b, ids[j])
      ensures a < b
    {
      OpenerUnique(es, a, ks[at[i] - n], ids[i]);
      OpenerUnique(es, b, ks[at[j] - n], ids[j]);
    }
  }

  lemma PendingOfTold(t: Thread, t1: Thread, ctx: RunContext, es: seq<Event>, ks: seq<nat>)
    requires Tells(t, t1, ctx, es, ks) && Indexed(t.toolCalls, t.calls) && Indexed(t1.toolCalls, t1.calls)
    requires forall tc | tc in t.toolCalls :: tc.run != ctx.run
    ensures var ids := PendingIds(None, t1.toolCalls, ctx.run);
            && (forall id :: id in ids <==> LeftPending(es, t.calls.Keys, ctx.declared, id)) && InOrderOpened(es, ids)
  {
    assert forall i, j | 0 <= i < j < |ks| :: ks[i] < ks[j];
    hide Tells, Indexed, ListsPending, LeftPending, InOrderOpened, PendingIds;
    var at := PendingListed(t, t1, ctx, es, ks);
    var ids := PendingIds(None, t1.toolCalls, ctx.run);
    PendingInOrder(t, t1, ctx, es, ks, at, ids);
    forall id ensures id in ids <==> LeftPending(es, t.calls.Keys, ctx.declared, id) {
      PendingMembers(t, t1, ctx, es, ks, at, ids, id);
    }
  }

  lemma PendingTold(t: Thread, tc: ToolCall, ctx: RunContext, es: seq<Event>, k: nat)
    requires TellsOf(t, tc, ctx, es, k) && IsPending(tc, ctx.run)
    ensures LeftPending(es, t.calls.Keys, ctx.declared, tc.id)
  {
  }

  lemma ToldPending(t: Thread, t1: Thread, ctx: RunContext, es: seq<Event>, ks: seq<nat>, id: string)
    returns (i: nat)
    requires Tells(t, t1, ctx, es, ks) && Indexed(t.toolCalls, t.calls) && Indexed(t1.toolCalls, t1.calls)
    requires LeftPending(es, t.calls.Keys, ctx.declared, id)
    ensures i < |t1.toolCalls| && t1.toolCalls[i].id == id && IsPending(t1.toolCalls[i], ctx.run)
  {
    var n := |t.toolCalls|;
    var k: nat :| OpenerAt(es, k, id) && OpenedName(es[k]) in ctx.declared && !ResultAfter(es, k, id);
    assert WasOpened(es, id);
    i := t1.calls[id];
    assert TellsOf(t, t1.toolCalls[n + (i - n)], ctx, es, ks[i - n]);
    OpenerUnique(es, k, ks[i - n], id);
  }

  /** Without a list from the agent, the calls a run leaves for the client are exactly those new to the thread that the
      run opened under a declared name and gave no result afterwards, in the order it opened them. */
  lemma PendingOfRun(t: Thread, run: nat, declared: set<string>, mint: set<string> -> string, es: seq<Event>)
    requires WellFormed(t) && forall tc | tc in t.toolCalls :: tc.run != run
    requires forall e | e in es :: !e.typ.MessagesSnapshot?
    ensures var ids := PendingIds(None, RunResult(t, run, declared, mint, es).0.toolCalls, run);
            && (forall id :: id in ids <==> LeftPending(es, t.calls.Keys, declared, id)) && InOrderOpened(es, ids)
  {
    hide Tells, LeftPending, InOrderOpened, PendingIds, BufferedAll;
    var ctx := RunContext(run, declared, Ids(t.history), mint);
    var ks := RunTells(t, ctx, es);
    PendingOfTold(t, BufferedAll(t, ctx, es), ctx, es, ks);
  }
}
