/** One response: its events expanded, validated, filed under their runs, and the requested run settled.

    Model of the stream type of internal/agui/converse.go. */
module ResponseStream {
  import opened Prelude
  import opened Events
  import opened Segments
  import opened Validation
  import opened ChunkExpander
  import opened Pairing
  import ChunkOpenings
  import Threads
  import Reduction

  predicate HasEnded(g: Seg) { g.finished.Some? || g.errored.Some? }

  /** A run echoing this id has its terminal event. */
  predicate EndedFor(gs: seq<Seg>, runId: string) { exists g :: g in gs && g.runId == runId && HasEnded(g) }

  lemma EndedForStep(gs: seq<Seg>, e: Event, runId: string)
    requires runId != ""
    ensures EndedFor(Filed(gs, e), runId) <==>
              EndedFor(gs, runId) ||
              (gs != [] && Ends(e) && gs[|gs| - 1].runId == runId && !HasEnded(gs[|gs| - 1]))
  {
    var after := Filed(gs, e);
    if EndedFor(gs, runId) {
      var i :| 0 <= i < |gs| && gs[i].runId == runId && HasEnded(gs[i]);
      assert after[i] in after && HasEnded(after[i]);
    }
    if EndedFor(after, runId) {
      var i :| 0 <= i < |after| && after[i].runId == runId && HasEnded(after[i]);
      if i < |gs| {
        assert gs[i] in gs;
      }
    }
    if gs != [] && Ends(e) && gs[|gs| - 1].runId == runId && !HasEnded(gs[|gs| - 1]) {
      assert after[|gs| - 1] in after && HasEnded(after[|gs| - 1]);
    }
  }

  /** All a stream knows after some events. */
  datatype Known = Known(segs: seq<Seg>, badStart: bool, ourEnded: bool, view: View, problems: seq<Problem>)

  /** What it should know, said of the events as a whole. */
  ghost function Expected(start: View, runId: string, es: seq<Event>): Known {
    var (view, problems) := CheckedAll(start, es);
    Known(SegmentsOf(es), BadStart(es), EndedFor(SegmentsOf(es), runId), view, problems)
  }

  /** What one more event teaches it. */
  ghost function Learned(k: Known, runId: string, e: Event): Known {
    var (view, problems) := Checked(k.view, e);
    var last := if k.segs == [] then Seg("", [], None, None, None) else k.segs[|k.segs| - 1];
    Known(Filed(k.segs, e), k.badStart || (k.segs == [] && !e.typ.RunStarted? && !e.typ.RunError?),
          k.ourEnded || (k.segs != [] && Ends(e) && last.runId == runId && !HasEnded(last)),
          view, k.problems + problems)
  }

  lemma LearnedFrom(k: Known, k1: Known, runId: string, e: Event)
    requires k1.segs == Filed(k.segs, e)
    requires k1.badStart == (k.badStart || (k.segs == [] && !e.typ.RunStarted? && !e.typ.RunError?))
    requires k1.ourEnded <==>
               || k.ourEnded
               || (k.segs != [] && Ends(e) && k.segs[|k.segs| - 1].runId == runId && !HasEnded(k.segs[|k.segs| - 1]))
    requires (k1.view, k1.problems) == (Checked(k.view, e).0, k.problems + Checked(k.view, e).1)
    ensures k1 == Learned(k, runId, e)
  {
    hide Filed, Checked, HasEnded;
  }

  lemma NothingKnown(start: View, runId: string)
    ensures Expected(start, runId, []) == Known([], false, false, start, [])
  {
    assert First(Starts, []) == 0;
  }

  lemma LearnedAsExpected(start: View, runId: string, es: seq<Event>, e: Event)
    requires runId != ""
    ensures Expected(start, runId, es + [e]) == Learned(Expected(start, runId, es), runId, e)
  {
    FilingDivides(es, e);
    BadStartStep(es, e);
    EndedForStep(SegmentsOf(es), e, runId);
    CheckedSnoc(start, es, e);
    hide SegmentsOf, BadStart, EndedFor, CheckedAll, Checked, Filed, HasEnded;
  }

  // ----- reading and settling, as functions -----

  /** How a response stops: at its end, in a read error, or at an event that does not decode. */
  datatype Ending = Complete | Broken | Undecodable

  /** What the events of a response expand to, up to the first breach. */
  function Expansion(wire: seq<Event>): seq<Event> {
    match FeedAll(wire)
    case Some((_, out)) => out
    case None => if wire == [] then [] else Expansion(wire[..|wire| - 1])
  }

  /** A read error costs nothing once the requested run has ended; a breach or an undecodable event always does. */
  predicate ReadFails(wire: seq<Event>, ending: Ending, runId: string) {
    || FeedAll(wire).None? || ending.Undecodable?
    || (ending.Broken? && !EndedFor(SegmentsOf(Expansion(wire)), runId))
  }

  lemma {:induction false} BreachIsFinal(wire: seq<Event>, k: nat)
    requires k < |wire| && FeedAll(wire[..k]).Some? && FeedAll(wire[..k + 1]).None?
    ensures FeedAll(wire).None? && Expansion(wire) == Expansion(wire[..k])
    decreases |wire|
  {
    hide Feed;
    if k + 1 == |wire| {
      assert wire[..k + 1] == wire;
    } else {
      var front := wire[..|wire| - 1];
      assert front[..k] == wire[..k] && front[..k + 1] == wire[..k + 1];
      BreachIsFinal(front, k);
    }
  }

  /** How a run ended. */
  datatype RunEnd =
    | Rejected
    | Truncated
    | Failed(error: Event, late: bool)
    | Done(outcome: OutcomeType, interrupts: seq<Interrupt>, pending: Option<seq<string>>)

  function EndOf(gs: seq<Seg>, badStart: bool, readFailed: bool, runId: string): RunEnd {
    if readFailed || badStart then Rejected
    else if gs == [] then Truncated
    else
      var g := gs[Chosen(gs, runId)];
      if g.errored.Some? then Failed(g.errored.value, false)
      else if g.late.Some? then Failed(g.late.value, true)
      else if g.finished.None? then Truncated
      else FinishedAs(g.finished.value)
  }

  /** A RUN_FINISHED without an outcome is a success. */
  function FinishedAs(finish: Event): RunEnd {
    match finish.outcome
    case None => Done(Success, [], None)
    case Some(o) => Done(o.typ, o.interrupts, o.pending)
  }

  /** A response settles into an outcome exactly when it was read without error, opens with RUN_STARTED or RUN_ERROR,
      and its last run echoing the requested id (its last run when none does) holds a RUN_FINISHED and no RUN_ERROR. */
  lemma SettlesExactly(es: seq<Event>, readFailed: bool, runId: string)
    requires runId != ""
    ensures EndOf(SegmentsOf(es), BadStart(es), readFailed, runId).Done? <==>
              && !readFailed && !BadStart(es) && OurStart(es, runId) >= 0
              && EndedWell(BodyAt(es, OurStart(es, runId)))
  {
    hide SegmentsOf, BodyAt, EndedWell, RunSeg, Chosen, OurStart;
    ChosenRun(es, runId);
    var s := OurStart(es, runId);
    if s >= 0 {
      RunSegEndedWell(es[s].runId, BodyAt(es, s));
    }
  }

  const IsFinish := (e: Event) => e.typ.RunFinished?

  /** The first event of its kind. */
  predicate FirstOf(es: seq<Event>, i: nat, kind: Event -> bool) {
    i < |es| && kind(es[i]) && forall k | 0 <= k < i :: !kind(es[k])
  }

  /** How a run with this body ends: with its first RUN_ERROR, late when a RUN_FINISHED came before it; else with its
      first RUN_FINISHED, which is a success unless it says otherwise; else truncated. */
  ghost predicate EndsAs(body: seq<Event>, end: RunEnd) {
    && (forall i: nat | FirstOf(body, i, Errs) ::
          end == Failed(body[i], exists k :: 0 <= k < i && body[k].typ.RunFinished?))
    && (forall i: nat | FirstOf(body, i, IsFinish) && (forall e | e in body :: !e.typ.RunError?) ::
          && (body[i].outcome.None? ==> end == Done(Success, [], None))
          && (body[i].outcome.Some? ==>
                end == Done(body[i].outcome.value.typ, body[i].outcome.value.interrupts,
                            body[i].outcome.value.pending)))
    && ((forall e | e in body :: !e.typ.RunError? && !e.typ.RunFinished?) ==> end == Truncated)
  }

  lemma RunSegEndsAs(runId: string, body: seq<Event>, end: RunEnd)
    requires var g := RunSeg(runId, body);
             end == if g.errored.Some? then Failed(g.errored.value, false)
                    else if g.late.Some? then Failed(g.late.value, true)
                    else if g.finished.None? then Truncated
                    else FinishedAs(g.finished.value)
    ensures EndsAs(body, end)
  {
    hide First;
    var k := First(Ends, body);
    if k < |body| {
      var after := body[k + 1..];
      var j := First(Errs, after);
      assert j < |after| ==> after[j] == body[k + 1 + j];
      assert forall i | k + 1 <= i < |body| :: after[i - k - 1] == body[i];
    }
    forall i: nat | FirstOf(body, i, Errs)
      ensures end == Failed(body[i], exists k :: 0 <= k < i && body[k].typ.RunFinished?)
    {
      ErrorEnds(body, k, i);
    }
  }

  lemma ErrorEnds(body: seq<Event>, k: nat, i: nat)
    requires k == First(Ends, body) && FirstOf(body, i, Errs)
    ensures k <= i && (k == i || (body[k].typ.RunFinished? && i == k + 1 + First(Errs, body[k + 1..])))
  {
    hide First;
    assert Ends(body[i]);
    if k < i {
      var after := body[k + 1..];
      var j := First(Errs, after);
      assert after[i - k - 1] == body[i];
      assert j < |after| ==> after[j] == body[k + 1 + j];
    }
  }

  /** What a response that was read and began properly settles into: the ending of its chosen run. */
  lemma SettlesAs(es: seq<Event>, readFailed: bool, runId: string)
    requires runId != ""
    ensures var end, s := EndOf(SegmentsOf(es), BadStart(es), readFailed, runId), OurStart(es, runId);
            && (end.Rejected? <==> readFailed || BadStart(es))
            && (!end.Rejected? && s >= 0 ==> EndsAs(BodyAt(es, s), end))
            && (!end.Rejected? && es == [] ==> end == Truncated)
            && (!end.Rejected? && es != [] && s < 0 ==> end == Failed(es[0], false))
  {
    hide SegmentsOf, BodyAt, RunSeg, OurStart, EndsAs, Last, BadStart;
    var s := OurStart(es, runId);
    if !readFailed && !BadStart(es) {
      if s >= 0 {
        ChosenRun(es, runId);
        RunSegEndsAs(es[s].runId, BodyAt(es, s), EndOf(SegmentsOf(es), BadStart(es), readFailed, runId));
      } else {
        NeverStarted(es, runId);
      }
    }
  }

  /** Without a RUN_STARTED there is at most the run its first RUN_ERROR makes. */
  lemma NeverStarted(es: seq<Event>, runId: string)
    requires OurStart(es, runId) < 0 && !BadStart(es)
    ensures SegmentsOf(es) == if es == [] then [] else [Seg("", [], None, Some(es[0]), None)]
  {
    hide Last;
    var k := First(Starts, es);
    assert es[k..] == [] && es[..k] == es;
  }

  // ----- when reading fails -----

  /** The run started at s is over: its terminal event follows with no RUN_STARTED in between. */
  predicate OverFrom(es: seq<Event>, s: nat) {
    exists t | s < t < |es| ::
      (es[t].typ.RunFinished? || es[t].typ.RunError?) && forall i | s < i < t :: !es[i].typ.RunStarted?
  }

  /** A run of this id is over. */
  predicate RunOver(es: seq<Event>, runId: string) {
    exists s: nat | s < |es| :: es[s].typ.RunStarted? && es[s].runId == runId && OverFrom(es, s)
  }

  lemma RunSegEnded(runId: string, body: seq<Event>)
    ensures HasEnded(RunSeg(runId, body)) <==> exists t :: 0 <= t < |body| && Ends(body[t])
    ensures RunSeg(runId, body).runId == runId
  {
    hide First;
    var k := First(Ends, body);
    if t :| 0 <= t < |body| && Ends(body[t]) {
      assert k <= t;
    }
  }

  lemma BodyOver(es: seq<Event>, s: nat)
    requires s < |es|
    ensures (exists t :: 0 <= t < |BodyAt(es, s)| && Ends(BodyAt(es, s)[t])) <==> OverFrom(es, s)
  {
    hide First;
    var rest, body := es[s + 1..], BodyAt(es, s);
    var n := First(Starts, rest);
    assert forall i | 0 <= i < |rest| :: rest[i] == es[s + 1 + i];
    if t :| 0 <= t < |body| && Ends(body[t]) {
      assert Ends(es[s + 1 + t]);
      forall i | s < i < s + 1 + t ensures !es[i].typ.RunStarted? {
        assert !Starts(rest[i - s - 1]);
      }
    }
    if t :| s < t < |es| && Ends(es[t]) && forall i | s < i < t :: !es[i].typ.RunStarted? {
      assert n < |rest| ==> Starts(rest[n]);
      assert n > t - s - 1;
      assert body[t - s - 1] == es[t];
    }
  }

  lemma RunAtEnded(es: seq<Event>, g: Seg, s: nat)
    requires RunAt(es, g, s)
    ensures g.runId == es[s].runId && (HasEnded(g) <==> OverFrom(es, s))
  {
    hide First, HasEnded, OverFrom;
    RunSegEnded(es[s].runId, BodyAt(es, s));
    BodyOver(es, s);
  }

  lemma EndedMeansOver(es: seq<Event>, runId: string)
    requires runId != ""
    ensures EndedFor(SegmentsOf(es), runId) <==> RunOver(es, runId)
  {
    hide First, RunAt, RunsFrom, RunStarts, HasEnded, Segments.Complete, OverFrom;
    var k := First(Starts, es);
    RunsAreTheStarts(es, k);
    var pre, gs, at := Preamble(es[..k]), RunsFrom(es[k..]), RunStarts(es, k);
    assert SegmentsOf(es) == pre + gs;
    forall i | 0 <= i < |at| ensures gs[i].runId == es[at[i]].runId && (HasEnded(gs[i]) <==> OverFrom(es, at[i])) {
      RunAtEnded(es, gs[i], at[i]);
    }
    if EndedFor(pre + gs, runId) {
      var g :| g in pre + gs && g.runId == runId && HasEnded(g);
      assert g in gs;
      var i :| 0 <= i < |gs| && gs[i] == g;
      assert es[at[i]].typ.RunStarted? by { StartsAt(es, gs[i], at[i]); }
    }
    if RunOver(es, runId) {
      var s: nat :| s < |es| && es[s].typ.RunStarted? && es[s].runId == runId && OverFrom(es, s);
      StartIsListed(es, k, gs, at, s);
      var i :| 0 <= i < |at| && at[i] == s;
      assert gs[i] in pre + gs;
    }
  }

  lemma StartsAt(es: seq<Event>, g: Seg, s: nat)
    requires RunAt(es, g, s)
    ensures es[s].typ.RunStarted?
  {
  }

  lemma StartIsListed(es: seq<Event>, k: nat, gs: seq<Seg>, at: seq<nat>, s: nat)
    requires RunsOf(es, k, gs, at) && k == First(Starts, es) && s < |es| && es[s].typ.RunStarted?
    ensures s in at
  {
    hide First, RunAt;
    assert Starts(es[s]);
  }

  /** Reading a response fails exactly when some chunk of it breaches the chunk rules, when an event does not decode, or
      when the reader breaks before the run of the requested id is over. */
  lemma FailsExactly(wire: seq<Event>, ending: Ending, runId: string)
    requires runId != ""
    ensures ReadFails(wire, ending, runId) <==>
              || (exists k: nat :: k < |wire| && ChunkOpenings.BreachAfter(wire[..k], wire[k]))
              || ending == Undecodable
              || (ending == Broken && !RunOver(Expansion(wire), runId))
  {
    hide FeedAll, Expansion, ChunkOpenings.BreachAfter, EndedFor, RunOver, SegmentsOf;
    ChunkOpenings.RefusedExactly(wire);
    EndedMeansOver(Expansion(wire), runId);
  }

  // ----- the program -----

  class Segment {
    const runId: string
    var events: seq<Event>
    var finished: Option<Event>
    var errored: Option<Event>
    var late: Option<Event>

    ghost function Value(): Seg
      reads this
    {
      Seg(runId, events, finished, errored, late)
    }

    constructor (runId: string, errored: Option<Event>)
      ensures Value() == Seg(runId, [], None, errored, None)
    {
      this.runId, events, finished, this.errored, late := runId, [], None, errored, None;
    }
  }

  ghost function Values(segments: seq<Segment>): (gs: seq<Seg>)
    reads segments
    ensures |gs| == |segments| && forall i | 0 <= i < |gs| :: gs[i] == segments[i].Value()
  {
    seq(|segments|, i requires 0 <= i < |segments| reads segments => segments[i].Value())
  }

  class Stream {
    const runId: string
    const val: Validator
    const exp: Expander
    ghost const start: View
    var segments: seq<Segment>
    var cur: Segment?
    var badStart: bool
    var ourEnded: bool
    var violations: seq<Problem>
    ghost var seen: seq<Event>

    ghost function Own(): set<object>
      reads `segments
    {
      set g: object | g in segments
    }

    /** cur is the last segment, and no segment is listed twice. */
    ghost predicate Linked()
      reads `segments, `cur
    {
      && (segments == [] <==> cur == null) && (segments != [] ==> cur == segments[|segments| - 1])
      && (forall i, j | 0 <= i < j < |segments| :: segments[i] != segments[j])
    }

    ghost function State(): Known
      reads this, segments, val
    {
      Known(Values(segments), badStart, ourEnded, val.State(), violations)
    }

    /** The state is what SegmentsOf and the validator say of the events seen. */
    ghost predicate Valid()
      reads this, segments, val
    {
      runId != "" && Linked() && State() == Expected(start, runId, seen)
    }

    constructor (runId: string, threadId: string)
      requires runId != ""
      ensures Valid() && fresh(val) && fresh(exp) && this.runId == runId && exp.State() == CLOSED
      ensures seen == [] && segments == [] && start == FreshRun(start, "").(threadId := threadId, phase := Before)
    {
      hide FreshRun, Expected;
      this.runId := runId;
      var v := new Validator(threadId);
      var x := new Expander();
      val, exp, segments, cur, badStart, ourEnded, violations, seen := v, x, [], null, false, false, [], [];
      start := v.State();
      new;
      NothingKnown(start, runId);
    }

    /** Validates one expanded event and files it under its run. */
    method Accept(e: Event)
      requires Valid()
      modifies this, Own(), val
      ensures Valid() && seen == old(seen) + [e]
      ensures forall g | g in segments :: g in old(segments) || fresh(g)
    {
      hide Expected, Learned, Linked;
      LearnedAsExpected(start, runId, seen, e);
      Learn(e);
      seen := seen + [e];
    }

    method Learn(e: Event)
      requires Linked()
      modifies `segments, `cur, `badStart, `ourEnded, `violations, Own(), val
      ensures Linked() && State() == Learned(old(State()), runId, e)
      ensures forall g | g in segments :: g in old(segments) || fresh(g)
    {
      hide Checked, Filed, HasEnded, Linked, Learned;
      ghost var k := State();
      NoteStart(e);
      Note(e);
      File(e);
      LearnedFrom(k, State(), runId, e);
    }

    /** A response must begin with RUN_STARTED or RUN_ERROR. */
    method NoteStart(e: Event)
      requires Linked()
      modifies `badStart
      ensures badStart == (old(badStart) || (Values(segments) == [] && !e.typ.RunStarted? && !e.typ.RunError?))
    {
      if |segments| == 0 && cur == null && !e.typ.RunStarted? && !e.typ.RunError? {
        badStart := true;
      }
    }

    /** Records what the validator finds wrong with an event. */
    method Note(e: Event)
      modifies `violations, val
      ensures (val.State(), violations) ==
              (Checked(old(val.State()), e).0, old(violations) + Checked(old(val.State()), e).1)
    {
      hide Checked;
      var ps := val.Check(e);
      violations := violations + ps;
    }

    /** Files an event under the current segment, or a new one. */
    method File(e: Event)
      requires Linked()
      modifies `segments, `cur, `ourEnded, Own()
      ensures Linked() && Values(segments) == Filed(old(Values(segments)), e)
      ensures var gs := old(Values(segments));
              ourEnded <==>
                old(ourEnded) || (gs != [] && Ends(e) && gs[|gs| - 1].runId == runId && !HasEnded(gs[|gs| - 1]))
      ensures forall g | g in segments :: g in old(segments) || fresh(g)
    {
      hide FiledIn;
      ghost var gs := Values(segments);
      if e.typ.RunStarted? {
        Open(e.runId, None);
      } else if cur == null {
        if e.typ.RunError? {
          Open("", Some(e));
        }
      } else {
        var open := cur.finished.None? && cur.errored.None?;
        FileUnder(cur, e);
        ourEnded := ourEnded || (open && Ends(e) && cur.runId == runId);
        assert Values(segments)[..|gs| - 1] == gs[..|gs| - 1];
      }
    }

    /** The part of File that starts a segment. */
    method Open(id: string, errored: Option<Event>)
      requires Linked()
      modifies `segments, `cur
      ensures Linked() && fresh(cur) && segments == old(segments) + [cur]
      ensures Values(segments) == old(Values(segments)) + [Seg(id, [], None, errored, None)]
    {
      cur := new Segment(id, errored);
      segments := segments + [cur];
    }

    /** The part of File that changes a segment. */
    static method FileUnder(cur: Segment, e: Event)
      requires !e.typ.RunStarted?
      modifies cur
      ensures cur.Value() == FiledIn(old(cur.Value()), e)
    {
      if e.typ.RunFinished? {
        if cur.finished.None? && cur.errored.None? {
          cur.finished := Some(e);
        }
      } else if e.typ.RunError? {
        if cur.finished.Some? {
          if cur.late.None? {
            cur.late := Some(e);
          }
        } else if cur.errored.None? {
          cur.errored := Some(e);
        }
      } else if cur.finished.None? && cur.errored.None? {
        cur.events := cur.events + [e];
      }
    }

    /** Reads a whole response. Says whether reading failed, and whether a run was left unfinished at a clean end. */
    method Read(wire: seq<Event>, ending: Ending) returns (failed: bool, truncated: bool)
      requires Valid() && seen == [] && segments == [] && exp.State() == CLOSED
      modifies this, val, exp
      ensures Valid() && seen == Expansion(wire)
      ensures failed <==> ReadFails(wire, ending, runId)
      ensures truncated <==> !failed && ending.Complete? && State().view.phase.Active?
    {
      hide Expected, Feed, First, SegmentsOf, EndedFor, Linked;
      var k := 0;
      while k < |wire|
        invariant 0 <= k <= |wire|
        invariant Valid() && FeedAll(wire[..k]) == Some((exp.State(), seen))
        invariant forall g | g in segments :: fresh(g)
      {
        assert wire[..k + 1][..k] == wire[..k];
        var out := exp.FeedEvent(wire[k]);
        if out.None? {
          BreachIsFinal(wire, k);
          return true, false;
        }
        AcceptAll(out.value);
        k := k + 1;
      }
      assert wire[..k] == wire;
      OursEndedIsKnown();
      if ending.Undecodable? || (ending.Broken? && !ourEnded) {
        return true, false;
      }
      return false, ending.Complete? && val.phase == Active;
    }

    lemma OursEndedIsKnown()
      requires Valid()
      ensures ourEnded == EndedFor(SegmentsOf(seen), runId) && badStart == BadStart(seen)
      ensures Values(segments) == SegmentsOf(seen)
    {
    }

    method AcceptAll(out: seq<Event>)
      requires Valid() && forall g | g in segments :: allocated(g)
      modifies this, Own(), val
      ensures Valid() && seen == old(seen) + out
      ensures forall g | g in segments :: g in old(segments) || fresh(g)
    {
      hide Expected, Linked;
      var i := 0;
      while i < |out|
        invariant 0 <= i <= |out|
        invariant Valid() && seen == old(seen) + out[..i]
        invariant forall g | g in segments :: g in old(segments) || fresh(g)
      {
        Accept(out[i]);
        assert out[..i + 1] == out[..i] + [out[i]];
        i := i + 1;
      }
      assert out[..i] == out;
    }

    /** Picks the requested run out of the response, reduces it into the conversation, and says how it ended. */
    method Settle(c: Reduction.Conversation, run: nat, declared: set<string>, mint: set<string> -> string,
                  readFailed: bool)
      returns (end: RunEnd, items: seq<Reduction.Item>)
      requires Valid() && c.Valid() && Threads.Fresh(mint)
      modifies c
      ensures c.Valid() && (old(c.text == map[] && c.args == map[]) ==> c.text == map[] && c.args == map[])
      ensures end == EndOf(SegmentsOf(seen), BadStart(seen), readFailed, runId)
      ensures (c.Seen(), items) == Reduced(old(c.Seen()), run, declared, mint, SegmentsOf(seen), runId)
    {
      hide Expected, Filed, First, Linked, Reduction.RunResult, FinishedAs, SegmentsOf;
      OursEndedIsKnown();
      ghost var gs := Values(segments);
      var at := |segments| - 1;
      var i := 0;
      var echoed := false;
      while i < |segments|
        invariant 0 <= i <= |segments|
        invariant echoed ==> 0 <= at < i && segments[at].runId == runId
        invariant !echoed ==> at == |segments| - 1
        invariant forall k | (if echoed then at + 1 else 0) <= k < i :: segments[k].runId != runId
      {
        if segments[i].runId == runId {
          at, echoed := i, true;
        }
        i := i + 1;
      }
      ChosenIs(gs, runId, at, echoed);
      items := [];
      if |segments| > 0 {
        items := Reduction.ReduceRun(c, run, declared, mint, segments[at].events);
      }
      if readFailed || badStart {
        return Rejected, items;
      }
      if |segments| == 0 {
        return Truncated, items;
      }
      var ours := segments[at];
      assert ours.Value() == gs[at];
      if ours.errored.Some? {
        end := Failed(ours.errored.value, false);
      } else if ours.late.Some? {
        end := Failed(ours.late.value, true);
      } else if ours.finished.None? {
        end := Truncated;
      } else {
        end := FinishedAs(ours.finished.value);
      }
    }
  }

  /** The conversation once the chosen segment's events are reduced into it. */
  function Reduced(t: Threads.Thread, run: nat, declared: set<string>, mint: set<string> -> string, gs: seq<Seg>,
                   runId: string): (Threads.Thread, seq<Reduction.Item>)
  {
    if gs == [] then (t, []) else Reduction.RunResult(t, run, declared, mint, gs[Chosen(gs, runId)].events)
  }

  lemma ChosenIs(gs: seq<Seg>, runId: string, at: int, echoed: bool)
    requires echoed ==> 0 <= at < |gs| && gs[at].runId == runId
    requires !echoed ==> at == |gs| - 1
    requires forall k | (if echoed then at + 1 else 0) <= k < |gs| :: gs[k].runId != runId
    ensures at == Chosen(gs, runId)
  {
    hide Last;
    var k := Last(Echoes(runId), gs);
    assert k >= 0 ==> Echoes(runId)(gs[k]);
    assert forall i | k < i < |gs| :: !Echoes(runId)(gs[i]);
    if echoed {
      assert Echoes(runId)(gs[at]);
    }
  }
}
