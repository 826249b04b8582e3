/** A response divided into runs: first as a statement about the whole event list, then event by event. */
module Segments {
  import opened Prelude
  import opened Events

  /** One run's events within a response. `late` is a RUN_ERROR after the RUN_FINISHED. */
  datatype Seg = Seg(
    runId: string, events: seq<Event>, finished: Option<Event>, errored: Option<Event>, late: Option<Event>)

  const Starts := (e: Event) => e.typ.RunStarted?
  const Errs := (e: Event) => e.typ.RunError?
  const Ends := (e: Event) => e.typ.RunFinished? || e.typ.RunError?

  /** The position of the first event satisfying p, or the length. */
  function First(p: Event -> bool, es: seq<Event>): (k: nat)
    ensures k <= |es|
    ensures forall i | 0 <= i < k :: !p(es[i])
    ensures k < |es| ==> p(es[k])
  {
    if es == [] || p(es[0]) then 0 else 1 + First(p, es[1..])
  }

  function At(es: seq<Event>, k: nat): Option<Event> { if k < |es| then Some(es[k]) else None }

  // ----- the division of a response, stated outright -----

  /** The run whose RUN_STARTED is followed by this body, which holds no other RUN_STARTED. */
  function RunSeg(runId: string, body: seq<Event>): Seg {
    var k := First(Ends, body);
    if k < |body| && body[k].typ.RunFinished? then
      var after := body[k + 1..];
      Seg(runId, body[..k], Some(body[k]), None, At(after, First(Errs, after)))
    else Seg(runId, body[..k], None, At(body, k), None)
  }

  function RunsFrom(es: seq<Event>): seq<Seg> {
    if es == [] then []
    else
      var k := First(Starts, es[1..]);
      [RunSeg(es[0].runId, es[1..][..k])] + RunsFrom(es[1..][k..])
  }

  /** What precedes every RUN_STARTED: an anonymous errored run when it holds a RUN_ERROR, else nothing. */
  function Preamble(es: seq<Event>): seq<Seg> {
    var k := First(Errs, es);
    if k < |es| then [Seg("", [], None, Some(es[k]), None)] else []
  }

  function SegmentsOf(es: seq<Event>): seq<Seg> {
    var k := First(Starts, es);
    Preamble(es[..k]) + RunsFrom(es[k..])
  }

  /** The response opens with something no run can own. */
  predicate BadStart(es: seq<Event>) { es != [] && !es[0].typ.RunStarted? && !es[0].typ.RunError? }

  // ----- the same, event by event -----

  /** An event that does not start a run, filed under the current one. */
  function FiledIn(g: Seg, e: Event): Seg {
    match e.typ
    case RunFinished => if g.finished.None? && g.errored.None? then g.(finished := Some(e)) else g
    case RunError =>
      if g.finished.Some? then (if g.late.None? then g.(late := Some(e)) else g)
      else if g.errored.None? then g.(errored := Some(e))
      else g
    case _ => if g.finished.None? && g.errored.None? then g.(events := g.events + [e]) else g
  }

  function Filed(gs: seq<Seg>, e: Event): seq<Seg> {
    if e.typ.RunStarted? then gs + [Seg(e.runId, [], None, None, None)]
    else if gs == [] then if e.typ.RunError? then [Seg("", [], None, Some(e), None)] else []
    else gs[|gs| - 1 := FiledIn(gs[|gs| - 1], e)]
  }

  // ----- the two agree -----

  lemma {:induction false} FirstSnoc(p: Event -> bool, es: seq<Event>, e: Event)
    ensures First(p, es + [e]) == if First(p, es) < |es| then First(p, es) else if p(e) then |es| else |es| + 1
  {
    if es != [] && !p(es[0]) {
      assert (es + [e])[1..] == es[1..] + [e];
      FirstSnoc(p, es[1..], e);
    }
  }

  lemma RunSegSnoc(runId: string, body: seq<Event>, e: Event)
    requires !e.typ.RunStarted?
    ensures RunSeg(runId, body + [e]) == FiledIn(RunSeg(runId, body), e)
  {
    hide First;
    FirstSnoc(Ends, body, e);
    var k := First(Ends, body);
    if k < |body| {
      assert (body + [e])[..k] == body[..k];
      assert (body + [e])[k + 1..] == body[k + 1..] + [e];
      FirstSnoc(Errs, body[k + 1..], e);
    } else {
      assert (body + [e])[..k] == body && (body + [e])[..k + 1] == body + [e];
      assert (body + [e])[k + 1..] == [];
    }
  }

  lemma PreambleSnoc(es: seq<Event>, e: Event)
    requires !e.typ.RunStarted? && forall i | 0 <= i < |es| :: !es[i].typ.RunStarted?
    ensures Preamble(es + [e]) == Filed(Preamble(es), e)
  {
    hide First;
    FirstSnoc(Errs, es, e);
  }

  lemma FiledAfter(a: seq<Seg>, b: seq<Seg>, e: Event)
    requires b != [] || e.typ.RunStarted?
    ensures Filed(a + b, e) == a + Filed(b, e)
  {
    hide FiledIn;
  }

  lemma RunsFromSplit(es: seq<Event>, k: nat)
    requires es != [] && k == First(Starts, es[1..])
    ensures RunsFrom(es) == [RunSeg(es[0].runId, es[1..][..k])] + RunsFrom(es[1..][k..])
  {
    hide RunSeg;
  }

  lemma {:induction false} RunsFromSnoc(es: seq<Event>, e: Event)
    requires es != []
    ensures RunsFrom(es) != [] && RunsFrom(es + [e]) == Filed(RunsFrom(es), e)
  {
    hide First, RunSeg, FiledIn, Filed, RunsFrom;
    var rest, all := es[1..], es + [e];
    var k := First(Starts, rest);
    assert all[1..] == rest + [e] && all[0] == es[0];
    FirstSnoc(Starts, rest, e);
    RunsFromSplit(es, k);
    RunsFromSplit(all, First(Starts, all[1..]));
    var g := RunSeg(es[0].runId, rest[..k]);
    if k < |rest| {
      assert (rest + [e])[..k] == rest[..k] && (rest + [e])[k..] == rest[k..] + [e];
      RunsFromSnoc(rest[k..], e);
      FiledAfter([g], RunsFrom(rest[k..]), e);
    } else {
      assert rest[k..] == [];
      NoRuns();
      if e.typ.RunStarted? {
        assert (rest + [e])[..k] == rest[..k] && (rest + [e])[k..] == [e];
        StartAlone(e);
        FiledAfter([g], [], e);
      } else {
        assert (rest + [e])[..k + 1] == rest[..k] + [e] && (rest + [e])[k + 1..] == [];
        RunSegSnoc(es[0].runId, rest[..k], e);
        FiledAlone(g, e);
        assert [g] + [] == [g] && [FiledIn(g, e)] + [] == [FiledIn(g, e)];
      }
    }
  }

  lemma NoRuns()
    ensures RunsFrom([]) == []
  {
  }

  lemma FiledAlone(g: Seg, e: Event)
    requires !e.typ.RunStarted?
    ensures Filed([g], e) == [FiledIn(g, e)]
  {
    hide FiledIn;
  }

  lemma StartAlone(e: Event)
    ensures RunsFrom([e]) == [Seg(e.runId, [], None, None, None)]
    ensures e.typ.RunStarted? ==> Filed([], e) == RunsFrom([e])
  {
  }

  /** Filing event by event divides the response as SegmentsOf says. */
  lemma FilingDivides(es: seq<Event>, e: Event)
    ensures SegmentsOf(es + [e]) == Filed(SegmentsOf(es), e)
  {
    hide First, RunSeg, FiledIn, RunsFrom, Filed, Preamble;
    FirstSnoc(Starts, es, e);
    NoRuns();
    var all, k := es + [e], First(Starts, es);
    if k < |es| {
      assert all[..k] == es[..k] && all[k..] == es[k..] + [e];
      RunsFromSnoc(es[k..], e);
      FiledAfter(Preamble(es[..k]), RunsFrom(es[k..]), e);
    } else {
      assert es[k..] == [] && es[..k] == es;
      assert Preamble(es) + [] == Preamble(es);
      if e.typ.RunStarted? {
        assert all[..k] == es && all[k..] == [e];
        StartAlone(e);
        FiledAfter(Preamble(es), [], e);
      } else {
        assert all[..k + 1] == all && all[k + 1..] == [];
        PreambleSnoc(es, e);
        assert Preamble(all) + [] == Preamble(all);
      }
    }
  }

  lemma BadStartStep(es: seq<Event>, e: Event)
    ensures BadStart(es + [e]) <==>
              BadStart(es) || (SegmentsOf(es) == [] && !e.typ.RunStarted? && !e.typ.RunError?)
  {
    hide SegmentsOf;
    NoSegments(es);
    if es != [] {
      assert (es + [e])[0] == es[0];
    }
  }

  lemma NoSegments(es: seq<Event>)
    ensures SegmentsOf(es) == [] <==> forall i | 0 <= i < |es| :: !es[i].typ.RunStarted? && !es[i].typ.RunError?
  {
    hide First, RunSeg;
    var k := First(Starts, es);
    assert RunsFrom(es[k..]) == [] <==> k == |es|;
    assert forall i | 0 <= i < k :: es[..k][i] == es[i];
  }

  // ----- what holds of every division -----

  predicate Ordinary(e: Event) { !e.typ.RunStarted? && !e.typ.RunFinished? && !e.typ.RunError? }

  /** Segment g occupies es from position s: its start event, its own events, then its terminal event, another run's
      start or the end of the response. */
  ghost predicate Occupies(es: seq<Event>, g: Seg, s: nat) {
    var t := s + 1 + |g.events|;
    && s < |es| && t <= |es| && g.events == es[s + 1..t]
    && (forall e | e in g.events :: Ordinary(e))
    && (if es[s].typ.RunStarted? then
          && g.runId == es[s].runId
          && (t == |es| || es[t].typ.RunStarted? <==> g.finished.None? && g.errored.None?)
          && (t < |es| && es[t].typ.RunFinished? <==> g.finished.Some?)
          && (t < |es| && es[t].typ.RunError? <==> g.errored.Some?)
          && (g.finished.Some? ==> g.finished.value == es[t]) && (g.errored.Some? ==> g.errored.value == es[t])
          && (g.late.Some? ==> g.finished.Some? && g.late.value.typ.RunError?)
        else es[s].typ.RunError? && g == Seg("", [], None, Some(es[s]), None))
  }

  /** Where each segment starts. */
  function StartsOf(es: seq<Event>): seq<nat> {
    var k := First(Starts, es);
    var j := First(Errs, es[..k]);
    (if j < k then [j] else []) + RunStarts(es, k)
  }

  /** The positions of the RUN_STARTED events from k on. */
  function RunStarts(es: seq<Event>, k: nat): seq<nat>
    requires k <= |es|
    decreases |es| - k
  {
    if k == |es| then [] else [k] + RunStarts(es, k + 1 + First(Starts, es[k + 1..]))
  }

  lemma RunSegOccupies(es: seq<Event>, s: nat, k: nat)
    requires s < |es| && es[s].typ.RunStarted? && k == First(Starts, es[s + 1..])
    ensures Occupies(es, RunSeg(es[s].runId, es[s + 1..][..k]), s)
    ensures s + 1 + |RunSeg(es[s].runId, es[s + 1..][..k]).events| <= s + 1 + k
  {
    hide First;
    var body := es[s + 1..][..k];
    var j := First(Ends, body);
    var g := RunSeg(es[s].runId, body);
    assert body[..j] == es[s + 1..s + 1 + j];
    assert forall i | 0 <= i < k :: body[i] == es[s + 1 + i] && !Starts(body[i]);
    assert forall i | 0 <= i < j :: !Ends(body[i]);
    if j < k {
      assert Ends(body[j]) && es[s + 1 + j] == body[j];
    } else if s + 1 + k < |es| {
      assert Starts(es[s + 1..][k]);
    }
  }

  /** Each segment occupies its own stretch of the response, one after the other. */
  ghost predicate InTurn(es: seq<Event>, gs: seq<Seg>, at: seq<nat>) {
    && |gs| == |at|
    && (forall i | 0 <= i < |gs| :: Occupies(es, gs[i], at[i]))
    && (forall i, j | 0 <= i < j < |gs| :: at[i] + |gs[i].events| < at[j])
  }

  predicate AtLeast(at: seq<nat>, k: nat) { forall i | 0 <= i < |at| :: at[i] >= k }

  lemma AtLeastLess(at: seq<nat>, k: nat, j: nat)
    requires AtLeast(at, k) && j <= k
    ensures AtLeast(at, j)
  {
  }

  lemma InTurnPrepend(es: seq<Event>, g: Seg, s: nat, gs: seq<Seg>, at: seq<nat>)
    requires Occupies(es, g, s) && InTurn(es, gs, at) && AtLeast(at, s + 1 + |g.events|)
    ensures InTurn(es, [g] + gs, [s] + at) && AtLeast([s] + at, s)
  {
    hide Occupies;
  }

  lemma {:induction false} RunsInTurn(es: seq<Event>, k: nat)
    requires k <= |es| && (k < |es| ==> es[k].typ.RunStarted?)
    ensures InTurn(es, RunsFrom(es[k..]), RunStarts(es, k)) && AtLeast(RunStarts(es, k), k)
    decreases |es| - k
  {
    hide Occupies, First, RunSeg, InTurn, RunsFrom, AtLeast, RunStarts;
    RunStartsAt(es, k);
    if k == |es| {
      assert es[k..] == [];
      NoRuns();
      NoneInTurn(es);
    } else {
      var n := First(Starts, es[k + 1..]);
      RunsFromAt(es, k, n);
      RunSegOccupies(es, k, n);
      RunsInTurn(es, k + 1 + n);
      AtLeastLess(RunStarts(es, k + 1 + n), k + 1 + n, k + 1 + |RunSeg(es[k].runId, es[k + 1..][..n]).events|);
      InTurnPrepend(es, RunSeg(es[k].runId, es[k + 1..][..n]), k, RunsFrom(es[k + 1 + n..]),
                    RunStarts(es, k + 1 + n));
    }
  }

  lemma RunStartsAt(es: seq<Event>, k: nat)
    requires k <= |es|
    ensures k == |es| ==> RunStarts(es, k) == []
    ensures k < |es| ==> RunStarts(es, k) == [k] + RunStarts(es, k + 1 + First(Starts, es[k + 1..]))
  {
    hide First;
  }

  lemma RunsFromAt(es: seq<Event>, k: nat, n: nat)
    requires k < |es| && n == First(Starts, es[k + 1..])
    ensures RunsFrom(es[k..]) == [RunSeg(es[k].runId, es[k + 1..][..n])] + RunsFrom(es[k + 1 + n..])
  {
    hide First, RunSeg, RunsFrom;
    assert es[k..][1..] == es[k + 1..] && es[k + 1..][n..] == es[k + 1 + n..];
    RunsFromSplit(es[k..], n);
  }

  lemma NoneInTurn(es: seq<Event>)
    ensures InTurn(es, [], []) && AtLeast([], |es|)
  {
  }

  /** Every ordinary event is filed in at most one segment, in order, strictly between that segment's start and its
      terminal event; no segment both finishes and fails, and only a finished one has a late error. */
  lemma SegmentsInTurn(es: seq<Event>)
    ensures InTurn(es, SegmentsOf(es), StartsOf(es))
    ensures forall g | g in SegmentsOf(es) :: !(g.finished.Some? && g.errored.Some?)
    ensures forall g | g in SegmentsOf(es) :: g.late.Some? ==> g.finished.Some?
  {
    AllInTurn(es);
    hide First, SegmentsOf, StartsOf;
    forall i | 0 <= i < |SegmentsOf(es)|
      ensures var g := SegmentsOf(es)[i];
              !(g.finished.Some? && g.errored.Some?) && (g.late.Some? ==> g.finished.Some?)
    {
      assert Occupies(es, SegmentsOf(es)[i], StartsOf(es)[i]);
    }
  }

  lemma AllInTurn(es: seq<Event>)
    ensures InTurn(es, SegmentsOf(es), StartsOf(es))
  {
    hide First, InTurn, RunsFrom, RunStarts, Occupies, AtLeast;
    var k := First(Starts, es);
    var j := First(Errs, es[..k]);
    RunsInTurn(es, k);
    if j < k {
      assert es[..k][j] == es[j] && Errs(es[..k][j]);
      PreambleOccupies(es, j);
      AtLeastLess(RunStarts(es, k), k, j + 1);
      InTurnPrepend(es, Seg("", [], None, Some(es[j]), None), j, RunsFrom(es[k..]), RunStarts(es, k));
    } else {
      assert [] + RunsFrom(es[k..]) == RunsFrom(es[k..]) && [] + RunStarts(es, k) == RunStarts(es, k);
    }
  }

  lemma PreambleOccupies(es: seq<Event>, s: nat)
    requires s < |es| && es[s].typ.RunError?
    ensures Occupies(es, Seg("", [], None, Some(es[s]), None), s)
  {
  }

  // ----- the requested run of a response -----

  /** The last position satisfying p, or -1. */
  function Last<T>(p: T -> bool, s: seq<T>): (k: int)
    ensures -1 <= k < |s|
    ensures k >= 0 ==> p(s[k])
    ensures forall i | k < i < |s| :: !p(s[i])
  {
    if s == [] then -1 else if p(s[|s| - 1]) then |s| - 1 else Last(p, s[..|s| - 1])
  }

  function Echoes(runId: string): Seg -> bool { (g: Seg) => g.runId == runId }

  /** The segment settled as the requested run: the last that echoes its id, else the last of all. */
  function Chosen(gs: seq<Seg>, runId: string): (k: int)
    ensures -1 <= k < |gs| && (k < 0 <==> gs == [])
  {
    var k := Last(Echoes(runId), gs);
    if k >= 0 then k else |gs| - 1
  }

  function StartsRun(runId: string): Event -> bool { (e: Event) => e.typ.RunStarted? && e.runId == runId }

  /** The same, on the events: the last RUN_STARTED that echoes the id, else the last RUN_STARTED; -1 without one. */
  function OurStart(es: seq<Event>, runId: string): (k: int)
    ensures -1 <= k < |es| && (k >= 0 ==> es[k].typ.RunStarted?)
  {
    var k := Last(StartsRun(runId), es);
    if k >= 0 then k else Last(Starts, es)
  }

  /** What follows position s up to the next RUN_STARTED. */
  function BodyAt(es: seq<Event>, s: nat): seq<Event>
    requires s < |es|
  {
    es[s + 1..][..First(Starts, es[s + 1..])]
  }

  /** at lists the RUN_STARTED positions of es from k on, and gs their runs. */
  ghost predicate RunsOf(es: seq<Event>, k: nat, gs: seq<Seg>, at: seq<nat>) {
    && |gs| == |at|
    && (forall i | 0 <= i < |at| :: k <= at[i] < |es| && RunAt(es, gs[i], at[i]))
    && (forall i, j | 0 <= i < j < |at| :: at[i] < at[j])
    && Complete(es, k, at)
  }

  ghost predicate Complete(es: seq<Event>, k: nat, at: seq<nat>) {
    forall s | k <= s < |es| && es[s].typ.RunStarted? :: s in at
  }

  predicate RunAt(es: seq<Event>, g: Seg, s: nat) {
    s < |es| && es[s].typ.RunStarted? && g == RunSeg(es[s].runId, BodyAt(es, s))
  }

  lemma {:induction false} RunsAreTheStarts(es: seq<Event>, k: nat)
    requires k <= |es| && (k < |es| ==> es[k].typ.RunStarted?)
    ensures RunsOf(es, k, RunsFrom(es[k..]), RunStarts(es, k))
    decreases |es| - k
  {
    hide First, RunSeg, RunsFrom, RunStarts, RunsOf;
    RunStartsAt(es, k);
    if k == |es| {
      assert es[k..] == [];
      NoRuns();
      NoRunsOf(es);
    } else {
      var n := First(Starts, es[k + 1..]);
      RunsFromAt(es, k, n);
      RunsAreTheStarts(es, k + 1 + n);
      RunsOfPrepend(es, k, n, RunsFrom(es[k + 1 + n..]), RunStarts(es, k + 1 + n));
    }
  }

  lemma NoRunsOf(es: seq<Event>)
    ensures RunsOf(es, |es|, [], [])
  {
  }

  lemma RunsOfPrepend(es: seq<Event>, k: nat, n: nat, gs: seq<Seg>, at: seq<nat>)
    requires k < |es| && es[k].typ.RunStarted? && n == First(Starts, es[k + 1..]) && RunsOf(es, k + 1 + n, gs, at)
    ensures RunsOf(es, k, [RunSeg(es[k].runId, BodyAt(es, k))] + gs, [k] + at)
  {
    hide First, RunSeg, BodyAt, Complete;
    assert RunAt(es, RunSeg(es[k].runId, BodyAt(es, k)), k);
    CompletePrepend(es, k, n, at);
    hide RunAt;
  }

  lemma CompletePrepend(es: seq<Event>, k: nat, n: nat, at: seq<nat>)
    requires k < |es| && n == First(Starts, es[k + 1..]) && Complete(es, k + 1 + n, at)
    ensures Complete(es, k, [k] + at)
  {
    hide First;
    forall s | k <= s < |es| && es[s].typ.RunStarted? ensures s in [k] + at {
      if k < s {
        NoStartBefore(es, k + 1, n, s);
        assert s in at;
      } else {
        assert ([k] + at)[0] == s;
      }
    }
  }

  lemma NoStartBefore(es: seq<Event>, k: nat, n: nat, s: nat)
    requires k <= s < |es| && n == First(Starts, es[k..]) && es[s].typ.RunStarted?
    ensures k + n <= s
  {
    assert es[k..][s - k] == es[s];
  }

  /** Choosing among the segments is choosing among the RUN_STARTED events. */
  lemma ChosenRun(es: seq<Event>, runId: string)
    requires runId != ""
    ensures var gs, s := SegmentsOf(es), OurStart(es, runId);
            && (s >= 0 ==> gs != [] && gs[Chosen(gs, runId)] == RunSeg(es[s].runId, BodyAt(es, s)))
            && (s < 0 && gs != [] ==> gs[Chosen(gs, runId)].finished.None?)
  {
    hide RunSeg, BodyAt, RunsFrom, RunStarts, First;
    var k := First(Starts, es);
    RunsAreTheStarts(es, k);
    var pre, gs, at := Preamble(es[..k]), RunsFrom(es[k..]), RunStarts(es, k);
    assert forall i | 0 <= i < |at| :: es[at[i]].runId == gs[i].runId by { RunIds(es, k, gs, at); }
    ChosenAmong(es, k, pre, gs, at, runId);
  }

  lemma RunIds(es: seq<Event>, k: nat, gs: seq<Seg>, at: seq<nat>)
    requires RunsOf(es, k, gs, at)
    ensures forall i | 0 <= i < |at| :: es[at[i]].runId == gs[i].runId
  {
    hide First;
  }

  lemma ChosenAmong(es: seq<Event>, k: nat, pre: seq<Seg>, gs: seq<Seg>, at: seq<nat>, runId: string)
    requires runId != "" && k == First(Starts, es) && pre == Preamble(es[..k]) && RunsOf(es, k, gs, at)
    requires forall i | 0 <= i < |at| :: es[at[i]].runId == gs[i].runId
    ensures var s := OurStart(es, runId);
            && (s >= 0 ==> gs != [] && (pre + gs)[Chosen(pre + gs, runId)] == RunSeg(es[s].runId, BodyAt(es, s)))
            && (s < 0 && pre + gs != [] ==> (pre + gs)[Chosen(pre + gs, runId)].finished.None?)
  {
    hide RunSeg, BodyAt, First, Last, RunsOf;
    if Last(StartsRun(runId), es) >= 0 {
      OursAmong(es, k, pre, gs, at, runId);
    } else {
      LastAmong(es, k, pre, gs, at, runId);
    }
  }

  lemma OursAmong(es: seq<Event>, k: nat, pre: seq<Seg>, gs: seq<Seg>, at: seq<nat>, runId: string)
    requires runId != "" && k == First(Starts, es) && pre == Preamble(es[..k]) && RunsOf(es, k, gs, at)
    requires forall i | 0 <= i < |at| :: es[at[i]].runId == gs[i].runId
    requires Last(StartsRun(runId), es) >= 0
    ensures var s := OurStart(es, runId);
            s >= 0 && gs != [] && (pre + gs)[Chosen(pre + gs, runId)] == RunSeg(es[s].runId, BodyAt(es, s))
  {
    hide RunSeg, BodyAt, First, Last;
    var all, n := pre + gs, |pre|;
    var m, s := Last(Echoes(runId), all), Last(StartsRun(runId), es);
    var i :| 0 <= i < |at| && at[i] == s;
    assert Echoes(runId)(all[n + i]);
    assert m >= n + i;
    assert StartsRun(runId)(es[at[m - n]]);
  }

  lemma LastAmong(es: seq<Event>, k: nat, pre: seq<Seg>, gs: seq<Seg>, at: seq<nat>, runId: string)
    requires runId != "" && k == First(Starts, es) && pre == Preamble(es[..k]) && RunsOf(es, k, gs, at)
    requires forall i | 0 <= i < |at| :: es[at[i]].runId == gs[i].runId
    requires Last(StartsRun(runId), es) < 0
    ensures var s := OurStart(es, runId);
            && (s >= 0 ==> gs != [] && (pre + gs)[Chosen(pre + gs, runId)] == RunSeg(es[s].runId, BodyAt(es, s)))
            && (s < 0 && pre + gs != [] ==> (pre + gs)[Chosen(pre + gs, runId)].finished.None?)
  {
    hide RunSeg, BodyAt, First, Last;
    var m := Last(Echoes(runId), pre + gs);
    assert forall i | 0 <= i < |at| :: !StartsRun(runId)(es[at[i]]);
    assert m < 0;
    var t := Last(Starts, es);
    assert |at| > 0 ==> Starts(es[at[|at| - 1]]);
    if t >= 0 {
      assert t in at;
    }
  }

  /** A run that ended well: it holds a RUN_FINISHED and no RUN_ERROR. */
  ghost predicate EndedWell(body: seq<Event>) {
    (exists e :: e in body && e.typ.RunFinished?) && (forall e | e in body :: !e.typ.RunError?)
  }

  lemma RunSegEndedWell(runId: string, body: seq<Event>)
    ensures EndedWell(body) <==>
              var g := RunSeg(runId, body); g.finished.Some? && g.errored.None? && g.late.None?
  {
    hide First;
    var k := First(Ends, body);
    if k < |body| {
      var after := body[k + 1..];
      var j := First(Errs, after);
      if j < |after| {
        assert after[j] in body;
      }
      forall i | 0 <= i < |body| && body[i].typ.RunError? && body[k].typ.RunFinished? ensures j < |after| {
        assert i > k && after[i - k - 1] == body[i];
        assert Errs(after[i - k - 1]);
      }
      assert body[k] in body;
    } else {
      assert forall i | 0 <= i < |body| :: !Ends(body[i]);
    }
  }
}
