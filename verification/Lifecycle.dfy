/** Which streams the validator finds no lifecycle problem in, said of the order of their events. */
module Lifecycle {
  import opened Prelude
  import opened Events
  import opened Order
  import opened Validation
  import opened Pairing

  predicate IsLifecycle(p: Problem) {
    || p.StartWhileActive? || p.FinishOutsideRun? || p.ErrorAfterError? || p.OutsideRun?
    || p.WrongThread? || p.WrongRun?
  }

  predicate Bounds(e: Event) { e.typ.RunStarted? || e.typ.RunFinished? || e.typ.RunError? }

  /** The last event that starts, finishes or fails a run. */
  function LastBound(es: seq<Event>): (last: Option<Event>)
    ensures last.Some? ==> Bounds(last.value)
  {
    if es == [] then None else if Bounds(es[|es| - 1]) then Some(es[|es| - 1]) else LastBound(es[..|es| - 1])
  }

  /** An event in its place: a run starts outside a run, finishes inside one under its own id, no error follows an
      error, everything else is inside a run; and the thread is the client's. */
  predicate InPlace(thread: string, before: Option<Event>, e: Event) {
    var inside := before.Some? && before.value.typ.RunStarted?;
    if e.typ.RunStarted? then !inside && e.threadId == thread
    else if e.typ.RunFinished? then inside && e.threadId == thread && e.runId == before.value.runId
    else if e.typ.RunError? then !(before.Some? && before.value.typ.RunError?)
    else inside
  }

  predicate InPlaceAt(thread: string, es: seq<Event>, i: nat) {
    i < |es| && InPlace(thread, LastBound(es[..i]), es[i])
  }

  /** Every event is in its place after those before it. */
  ghost predicate AllInPlace(thread: string, es: seq<Event>) { forall i: nat | i < |es| :: InPlaceAt(thread, es, i) }

  lemma InPlaceSnoc(thread: string, es: seq<Event>, e: Event)
    ensures AllInPlace(thread, es + [e]) <==> AllInPlace(thread, es) && InPlace(thread, LastBound(es), e)
  {
    hide InPlace, LastBound;
    var all := es + [e];
    assert all[..|es|] == es;
    forall i: nat | i < |es| ensures InPlaceAt(thread, all, i) <==> InPlaceAt(thread, es, i) {
      assert all[..i] == es[..i];
    }
    assert InPlaceAt(thread, all, |es|) <==> InPlace(thread, LastBound(es), e);
    hide InPlaceAt;
  }

  predicate NoneLifecycle(ps: seq<Problem>) { forall p | p in ps :: !IsLifecycle(p) }

  lemma NoneLifecycleConcat(a: seq<Problem>, b: seq<Problem>)
    ensures NoneLifecycle(a + b) <==> NoneLifecycle(a) && NoneLifecycle(b)
  {
  }

  /** The validator's phase, thread and run after some events. */
  predicate Stands(v: View, u: View, last: Option<Event>) {
    && u.threadId == v.threadId
    && (match last
        case None => u.phase.Before?
        case Some(e) =>
          if e.typ.RunStarted? then u.phase.Active? && u.runId == e.runId
          else if e.typ.RunFinished? then u.phase.Finished?
          else u.phase.Errored?)
  }

  lemma PairedStands(u: View, e: Event)
    ensures var (u', more) := Paired(u, e);
            u'.phase == u.phase && u'.threadId == u.threadId && u'.runId == u.runId && NoneLifecycle(more)
  {
    hide MoveOf, PairedMove, PairedOther;
    if MoveOf(e).Some? {
      var (c, i, m) := MoveOf(e).value;
      MoveChanges(u, c, i, m, e.typ.ToolCallStart?);
    } else {
      OtherStands(u, e);
    }
  }

  lemma OtherStands(u: View, e: Event)
    ensures var (u', more) := PairedOther(u, e);
            u'.phase == u.phase && u'.threadId == u.threadId && u'.runId == u.runId && NoneLifecycle(more)
  {
    hide StepsAfter, Set;
  }

  /** A list with one lifecycle problem in it. */
  lemma Faulty(ps: seq<Problem>, k: nat)
    requires k < |ps| && IsLifecycle(ps[k])
    ensures !NoneLifecycle(ps)
  {
    assert ps[k] in ps;
  }

  lemma IdsStand(u: View, e: Event)
    ensures NoneLifecycle(IdProblems(u, e)) <==> e.threadId == u.threadId && e.runId == u.runId
  {
    var ids := IdProblems(u, e);
    if ids != [] {
      Faulty(ids, 0);
    }
  }

  lemma FinishStands(u: View, e: Event)
    ensures NoneLifecycle(FinishProblems(u, e)) <==> e.threadId == u.threadId && e.runId == u.runId
  {
    var ids, open, pending, cancelled := IdProblems(u, e), LeftOpen(u), PendingProblems(u, e), CancelProblems(e);
    IdsStand(u, e);
    LeftOpenNoneLifecycle(u);
    assert NoneLifecycle(pending) && NoneLifecycle(cancelled) by { hide LeftOpen, IdProblems, Unanswered, Sort; }
    hide IdProblems, LeftOpen, PendingProblems, CancelProblems;
    NoneLifecycleConcat(ids, open);
    NoneLifecycleConcat(ids + open, pending);
    NoneLifecycleConcat(ids + open + pending, cancelled);
  }

  lemma LeftOpenNoneLifecycle(u: View)
    ensures NoneLifecycle(LeftOpen(u))
  {
    hide StillOpenProblems, StepsLeft, SortedSet;
    LeftOver(MessageItem, u.messages, "");
    LeftOver(CallItem, u.calls, "");
    LeftOver(SpanItem, u.spans, "");
    LeftOver(ReasoningItem, u.reasoning, "");
    StepsLeftAreSteps(SortedSet(TrueKeys(u.steps)));
  }

  lemma EventStands(v: View, u: View, last: Option<Event>, e: Event)
    requires Stands(v, u, last) && (last.Some? ==> Bounds(last.value))
    ensures var (u', more) := Checked(u, e);
            && Stands(v, u', if Bounds(e) then Some(e) else last)
            && (NoneLifecycle(more) <==> InPlace(v.threadId, last, e))
  {
    hide Paired, FinishProblems, NoneLifecycle;
    PairedStands(u, e);
    FinishStands(u, e);
    var more := Checked(u, e).1;
    assert NoneLifecycle([]) by { Nothing(); }
    if more != [] && (e.typ.RunStarted? || e.typ.RunError? || !u.phase.Active?) {
      Faulty(more, 0);
    }
  }

  lemma Nothing()
    ensures NoneLifecycle([])
  {
  }

  lemma {:induction false} StreamStands(v: View, es: seq<Event>)
    requires v.phase.Before?
    ensures var (u, ps) := CheckedAll(v, es);
            && Stands(v, u, LastBound(es))
            && (NoneLifecycle(ps) <==> AllInPlace(v.threadId, es))
  {
    if es == [] {
      Nothing();
    } else {
      hide Checked, CheckedAll, Stands, InPlace, AllInPlace, LastBound, NoneLifecycle;
      var front, e := es[..|es| - 1], es[|es| - 1];
      assert es == front + [e];
      StreamStands(v, front);
      var (u, ps) := CheckedAll(v, front);
      EventStands(v, u, LastBound(front), e);
      NoneLifecycleConcat(ps, Checked(u, e).1);
      LastBoundIs(es);
      CheckedSnoc(v, front, e);
      InPlaceSnoc(v.threadId, front, e);
    }
  }

  lemma LastBoundIs(es: seq<Event>)
    requires es != []
    ensures LastBound(es) == if Bounds(es[|es| - 1]) then Some(es[|es| - 1]) else LastBound(es[..|es| - 1])
  {
  }

  /** A response raises no lifecycle problem exactly when every event is in its place. */
  lemma LifecycleIsExact(v: View, es: seq<Event>)
    requires v.phase.Before?
    ensures NoneLifecycle(CheckedAll(v, es).1) <==> AllInPlace(v.threadId, es)
  {
    hide CheckedAll, AllInPlace, LastBound, NoneLifecycle;
    StreamStands(v, es);
  }

  // ----- activities -----

  ghost predicate SeenActivity(es: seq<Event>, id: string) {
    exists i: nat :: i < |es| && es[i].typ.ActivitySnapshot? && es[i].messageId == id
  }

  predicate NoneUnknown(ps: seq<Problem>) { forall p | p in ps :: !p.UnknownActivity? }

  /** The event is no delta of an activity that has had no snapshot before. */
  ghost predicate DeltaKnown(before: seq<Event>, e: Event) {
    e.typ.ActivityDelta? ==> SeenActivity(before, e.messageId)
  }

  ghost predicate DeltaKnownAt(es: seq<Event>, i: nat) { i < |es| && DeltaKnown(es[..i], es[i]) }

  lemma MoveUnknown(u: View, e: Event)
    requires MoveOf(e).Some?
    ensures Paired(u, e).0.activities == u.activities && NoneUnknown(Paired(u, e).1)
    ensures !e.typ.ActivitySnapshot? && !e.typ.ActivityDelta?
  {
    NoActivity(e);
    var (c, i, m) := MoveOf(e).value;
    ItemUnknown(u, c, i, m, e.typ.ToolCallStart?);
    hide MoveOf, PairedMove, PairedOther, NoneUnknown;
  }

  lemma NoActivity(e: Event)
    ensures MoveOf(e).Some? ==> !e.typ.ActivitySnapshot? && !e.typ.ActivityDelta?
  {
  }

  lemma ItemUnknown(u: View, c: ItemClass, i: string, m: Move, starts: bool)
    ensures PairedMove(u, c, i, m, starts).0.activities == u.activities
    ensures NoneUnknown(PairedMove(u, c, i, m, starts).1)
  {
    hide Moved, Stored, Lookup;
    match c case MessageItem => case CallItem => case SpanItem => case ReasoningItem =>
  }

  lemma OtherUnknown(u: View, e: Event)
    requires MoveOf(e).None?
    ensures NoneUnknown(Paired(u, e).1) <==> !(e.typ.ActivityDelta? && !Set(u.activities, e.messageId))
    ensures forall id :: Set(Paired(u, e).0.activities, id) <==>
              Set(u.activities, id) || (e.typ.ActivitySnapshot? && e.messageId == id)
  {
    hide MoveOf, StepsAfter;
    var more := OtherProblems(u, e);
    if e.typ.ActivityDelta? && !Set(u.activities, e.messageId) {
      assert more[0] in more;
    }
  }

  lemma SeenMore(es: seq<Event>, e: Event, id: string)
    ensures SeenActivity(es + [e], id) <==> SeenActivity(es, id) || (e.typ.ActivitySnapshot? && e.messageId == id)
  {
    var all := es + [e];
    assert all[|es|] == e;
    if SeenActivity(es, id) {
      var i: nat :| i < |es| && es[i].typ.ActivitySnapshot? && es[i].messageId == id;
      assert all[i] == es[i];
    }
  }

  lemma {:induction false} ActivitiesTracked(v: View, es: seq<Event>)
    requires v.phase.Active? && v == FreshRun(v, v.runId) && InRun(es)
    ensures var (u, ps) := CheckedAll(v, es);
            && (forall id :: Set(u.activities, id) <==> SeenActivity(es, id))
            && (NoneUnknown(ps) <==> forall i: nat | i < |es| :: DeltaKnownAt(es, i))
  {
    if es != [] {
      hide Paired, CheckedAll, SeenActivity, Set, MoveOf, NoneUnknown, DeltaKnownAt;
      var front, e := es[..|es| - 1], es[|es| - 1];
      assert es == front + [e];
      ActivitiesTracked(v, front);
      PhaseKept(v, es);
      CheckedInRun(v, es);
      var (u, ps) := CheckedAll(v, front);
      forall id
        ensures SeenActivity(es, id) <==> SeenActivity(front, id) || (e.typ.ActivitySnapshot? && e.messageId == id)
      {
        SeenMore(front, e, id);
      }
      if MoveOf(e).Some? {
        MoveUnknown(u, e);
      } else {
        OtherUnknown(u, e);
      }
      NoneUnknownConcat(ps, Paired(u, e).1);
      KnownMore(front, e);
    }
  }

  lemma NoneUnknownConcat(a: seq<Problem>, b: seq<Problem>)
    ensures NoneUnknown(a + b) <==> NoneUnknown(a) && NoneUnknown(b)
  {
  }

  lemma KnownMore(es: seq<Event>, e: Event)
    ensures (forall i: nat | i < |es| + 1 :: DeltaKnownAt(es + [e], i)) <==>
              (forall i: nat | i < |es| :: DeltaKnownAt(es, i)) && DeltaKnown(es, e)
  {
    hide DeltaKnown;
    var all := es + [e];
    assert all[..|es|] == es;
    forall i: nat | i < |es| ensures DeltaKnownAt(all, i) <==> DeltaKnownAt(es, i) {
      assert all[..i] == es[..i];
    }
    assert DeltaKnownAt(all, |es|) <==> DeltaKnown(es, e);
    hide DeltaKnownAt;
  }

  /** Inside a run an activity delta is reported exactly when the run has had no snapshot of its activity before. */
  lemma ActivitiesAreExact(v: View, es: seq<Event>)
    requires v.phase.Active? && v == FreshRun(v, v.runId) && InRun(es)
    ensures NoneUnknown(CheckedAll(v, es).1) <==> forall i: nat | i < |es| :: DeltaKnownAt(es, i)
  {
    hide CheckedAll, DeltaKnownAt;
    ActivitiesTracked(v, es);
  }
}
