/** Expander and validator together: what a chunks-only agent can and cannot get wrong. */
module Coupling {
  import opened Prelude
  import opened Events
  import opened Validation
  import opened ChunkExpander
  import opened Pairing

  /** Messages, tool calls and reasoning messages arrive only as chunks; anything else may be mixed in. */
  predicate ChunksOnly(e: Event) { !e.chunked && (MoveOf(e).Some? ==> MoveOf(e).value.0.SpanItem?) }

  predicate ChunkClass(cls: ItemClass) { !cls.SpanItem? }

  function ClassOf(kind: Kind): Option<ItemClass> {
    match kind
    case Idle => None
    case TextKind => Some(MessageItem)
    case ToolKind => Some(CallItem)
    case ReasoningKind => Some(ReasoningItem)
  }

  predicate Holds(x: OpenItem, cls: ItemClass, id: string) { ClassOf(x.kind) == Some(cls) && x.id == id }

  /** During a run, the validator's open items of the chunkable classes are exactly the expander's open item. */
  ghost predicate Coupled(x: OpenItem, v: View) {
    v.phase.Active? ==>
      forall cls, id | ChunkClass(cls) ::
        var it := Lookup(Items(v, cls), id);
        (IsOpen(it) <==> Holds(x, cls, id)) && (Holds(x, cls, id) ==> it.value.chunked)
  }

  /** The only thing wrong with an item of those classes is a reopen that disagrees with its first start. */
  ghost predicate OnlyReopens(ps: seq<Problem>) {
    forall p | p in ps :: p.ItemProblem? && ChunkClass(p.cls) ==> p.fault.Disagrees?
  }

  lemma {:induction false} CheckedConcat(v: View, a: seq<Event>, b: seq<Event>)
    ensures CheckedAll(v, a + b) ==
            var (u, ps) := CheckedAll(v, a);
            var (u', more) := CheckedAll(u, b);
            (u', ps + more)
  {
    hide Checked;
    if b == [] {
      assert a + b == a && CheckedAll(v, a).1 + [] == CheckedAll(v, a).1;
    } else {
      var front, e := b[..|b| - 1], b[|b| - 1];
      CheckedConcat(v, a, front);
      assert a + b == (a + front) + [e];
      CheckedSnoc(v, a + front, e);
      var u := CheckedAll(v, a).0;
      CheckedLast(u, b);
      var w := CheckedAll(u, front).0;
      Assoc(CheckedAll(v, a).1, CheckedAll(u, front).1, Checked(w, e).1);
    }
  }

  lemma CheckedLast(v: View, b: seq<Event>)
    requires b != []
    ensures var (w, more) := CheckedAll(v, b[..|b| - 1]);
            CheckedAll(v, b) == (Checked(w, b[|b| - 1]).0, more + Checked(w, b[|b| - 1]).1)
  {
    hide Checked;
  }

  lemma CheckedOne(v: View, e: Event)
    ensures CheckedAll(v, [e]) == Checked(v, e)
  {
    assert [e] == [] + [e];
    CheckedSnoc(v, [], e);
    assert [] + Checked(v, e).1 == Checked(v, e).1;
  }

  lemma InactiveChecked(v: View, e: Event)
    requires !v.phase.Active? && (MoveOf(e).Some? || IsChunk(e))
    ensures Checked(v, e) == (v, [OutsideRun(e.typ)])
  {
  }

  lemma ProblemOf(v: View, e: Event)
    requires MoveOf(e).Some?
    ensures var (c, i, m) := MoveOf(e).value;
            var fault := Moved(Lookup(Items(v, c), i), m).1;
            Paired(v, e).1 == if fault.Some? then [ItemProblem(c, i, fault.value)] else []
  {
    hide MoveOf, Moved, PairedMove;
    MoveChanges(v, MoveOf(e).value.0, MoveOf(e).value.1, MoveOf(e).value.2, e.typ.ToolCallStart?);
  }

  /** One move on the item `x` holds open, or on the one `y` is to hold open, keeps the two sides together. */
  lemma MoveKeeps(x: OpenItem, y: OpenItem, v: View, e: Event, m: Move)
    requires Coupled(x, v)
    requires MoveOf(e).Some? && MoveOf(e).value.2 == m
    requires var cls, id := MoveOf(e).value.0, MoveOf(e).value.1;
             || (Holds(x, cls, id) && m == End(true) && y == CLOSED)
             || (Holds(x, cls, id) && m == Content(true) && y == x)
             || (Holds(y, cls, id) && m.Start? && m.chunked && x == CLOSED)
    ensures var (u, ps) := Checked(v, e); Coupled(y, u) && OnlyReopens(ps)
  {
    var (c, i, _) := MoveOf(e).value;
    if v.phase.Active? {
      PairsWhenActive(v, e);
      hide MoveOf, Checked, Paired;
      ProblemOf(v, e);
      var u := Paired(v, e).0;
      forall cls, id | ChunkClass(cls)
        ensures var it := Lookup(Items(u, cls), id);
                (IsOpen(it) <==> Holds(y, cls, id)) && (Holds(y, cls, id) ==> it.value.chunked)
      {
        ItemStep(v, e, cls, id);
        assert IsOpen(Lookup(Items(v, cls), id)) <==> Holds(x, cls, id);
      }
      ItemStep(v, e, c, i);
      assert IsOpen(Lookup(Items(v, c), i)) <==> Holds(x, c, i);
    } else {
      InactiveChecked(v, e);
    }
  }

  lemma PairsWhenActive(v: View, e: Event)
    requires v.phase.Active? && MoveOf(e).Some?
    ensures Checked(v, e) == Paired(v, e)
  {
    hide Paired;
  }

  lemma EndClosesItem(x: OpenItem, v: View)
    requires Coupled(x, v) && !x.kind.Idle?
    ensures var (u, ps) := Checked(v, EndEvent(x.kind, x.id)); Coupled(CLOSED, u) && OnlyReopens(ps)
  {
    hide Checked, Coupled;
    assert MoveOf(EndEvent(x.kind, x.id)) == Some((ClassOf(x.kind).value, x.id, End(true)));
    MoveKeeps(x, CLOSED, v, EndEvent(x.kind, x.id), End(true));
  }

  lemma StartOpensItem(y: OpenItem, v: View)
    requires Coupled(CLOSED, v) && !y.kind.Idle?
    ensures var (u, ps) := Checked(v, StartEvent(y)); Coupled(y, u) && OnlyReopens(ps)
  {
    hide Checked, Coupled;
    var e := StartEvent(y);
    assert MoveOf(e).Some? && MoveOf(e).value.0 == ClassOf(y.kind).value && MoveOf(e).value.1 == y.id
        && MoveOf(e).value.2.Start? && MoveOf(e).value.2.chunked;
    MoveKeeps(CLOSED, y, v, e, MoveOf(e).value.2);
  }

  lemma ContentKeepsItem(y: OpenItem, v: View, delta: string)
    requires Coupled(y, v) && !y.kind.Idle?
    ensures var (u, ps) := Checked(v, ContentEvent(y.kind, y.id, delta)); Coupled(y, u) && OnlyReopens(ps)
  {
    hide Checked, Coupled;
    var e := ContentEvent(y.kind, y.id, delta);
    assert MoveOf(e) == Some((ClassOf(y.kind).value, y.id, Content(true)));
    MoveKeeps(y, y, v, e, Content(true));
  }

  lemma ClosingKeeps(x: OpenItem, v: View)
    requires Coupled(x, v)
    ensures var (u, ps) := CheckedAll(v, Closing(x)); Coupled(CLOSED, u) && OnlyReopens(ps)
  {
    hide Checked, Coupled;
    if x.kind.Idle? {
      assert Coupled(x, v) && ClassOf(x.kind).None?;
      IdleIsClosed(x, v);
    } else {
      CheckedOne(v, EndEvent(x.kind, x.id));
      EndClosesItem(x, v);
    }
  }

  lemma IdleIsClosed(x: OpenItem, v: View)
    requires Coupled(x, v) && x.kind.Idle?
    ensures Coupled(CLOSED, v)
  {
  }

  lemma ContentsKeep(y: OpenItem, v: View, e: Event)
    requires Coupled(y, v) && !y.kind.Idle?
    ensures var (u, ps) := CheckedAll(v, Contents(y, e)); Coupled(y, u) && OnlyReopens(ps)
  {
    hide Checked, Coupled;
    if e.delta.Some? {
      CheckedOne(v, ContentEvent(y.kind, y.id, e.delta.value));
      ContentKeepsItem(y, v, e.delta.value);
    }
  }

  /** An event that passes through, with no chunked item open. */
  lemma OtherKeeps(v: View, e: Event)
    requires Coupled(CLOSED, v) && ChunksOnly(e) && !IsChunk(e)
    ensures var (u, ps) := Checked(v, e); Coupled(CLOSED, u) && OnlyReopens(ps)
  {
    if e.typ.RunStarted? {
      hide Paired;
    } else if e.typ.RunFinished? {
      hide Paired, FinishProblems;
      if v.phase.Active? {
        FinishReportsNone(v, e);
      }
    } else if v.phase.Active? && !e.typ.RunError? {
      if MoveOf(e).Some? {
        PairsWhenActive(v, e);
        ProblemOf(v, e);
      } else {
        assert Checked(v, e) == PairedOther(v, e);
        OtherChanges(v, e);
      }
      hide MoveOf, Checked, Paired, PairedOther;
      forall cls, id | ChunkClass(cls) ensures Lookup(Items(Checked(v, e).0, cls), id) == Lookup(Items(v, cls), id) {
        ItemStep(v, e, cls, id);
      }
    }
  }

  lemma FinishReportsNone(v: View, e: Event)
    requires Coupled(CLOSED, v) && v.phase.Active?
    ensures OnlyReopens(FinishProblems(v, e))
  {
    hide FinishProblems;
    forall cls, id | ChunkClass(cls) ensures CleanItem(FinishProblems(v, e), cls, id) {
      FinishItems(v, e, cls, id);
      assert !Holds(CLOSED, cls, id);
    }
    forall p | p in FinishProblems(v, e) && p.ItemProblem? ensures !ChunkClass(p.cls) {
      assert ChunkClass(p.cls) ==> CleanItem(FinishProblems(v, e), p.cls, p.id);
    }
  }

  lemma RawKeeps(x: OpenItem, v: View, e: Event)
    requires Coupled(x, v) && e.typ.Raw?
    ensures var (u, ps) := Checked(v, e); Coupled(x, u) && OnlyReopens(ps)
  {
  }

  lemma SameItem(x: OpenItem, y: OpenItem, v: View)
    requires Coupled(x, v) && x.kind == y.kind && x.id == y.id
    ensures Coupled(y, v)
  {
    forall cls, id | ChunkClass(cls) ensures Holds(x, cls, id) <==> Holds(y, cls, id) {}
  }

  /** One event of a chunks-only agent, expanded and validated. */
  lemma StepStaysCoupled(x: OpenItem, v: View, e: Event)
    requires Coupled(x, v) && ChunksOnly(e) && Feed(x, e).Some?
    ensures var (x', out) := Feed(x, e).value;
            var (u, ps) := CheckedAll(v, out);
            Coupled(x', u) && OnlyReopens(ps)
  {
    hide Checked, Coupled, CheckedAll;
    if e.typ.Raw? {
      CheckedOne(v, e);
      RawKeeps(x, v, e);
    } else if !IsChunk(e) {
      CheckedConcat(v, Closing(x), [e]);
      ClosingKeeps(x, v);
      var u := CheckedAll(v, Closing(x)).0;
      CheckedOne(u, e);
      OtherKeeps(u, e);
    } else if Continues(x, e) {
      ContentsKeep(x, v, e);
      SameItem(x, Enriched(x, e), CheckedAll(v, Contents(x, e)).0);
    } else {
      var y := Opened(e);
      CheckedConcat(v, Closing(x) + [StartEvent(y)], Contents(y, e));
      CheckedConcat(v, Closing(x), [StartEvent(y)]);
      ClosingKeeps(x, v);
      var u := CheckedAll(v, Closing(x)).0;
      CheckedOne(u, StartEvent(y));
      StartOpensItem(y, u);
      ContentsKeep(y, Checked(u, StartEvent(y)).0, e);
    }
  }

  /** For a chunks-only agent, over any stream and through any runs and errors in it: the validator's open messages,
      calls and reasoning messages are always the expander's one open item, and the only problem it ever reports for
      those classes is a reopen that disagrees. */
  lemma {:induction false} ChunksStayCoupled(v: View, es: seq<Event>)
    requires v.phase.Before? && FeedAll(es).Some? && forall i | 0 <= i < |es| :: ChunksOnly(es[i])
    ensures var (x, out) := FeedAll(es).value;
            var (u, ps) := CheckedAll(v, out);
            Coupled(x, u) && OnlyReopens(ps)
  {
    hide Feed, Coupled, CheckedAll, OnlyReopens, ChunksOnly;
    if es == [] {
      NothingYet(v);
    } else {
      var front, e := es[..|es| - 1], es[|es| - 1];
      assert es == front + [e];
      FeedSnoc(front, e);
      ChunksStayCoupled(v, front);
      var (x, out) := FeedAll(front).value;
      var (u, ps) := CheckedAll(v, out);
      var more := Feed(x, e).value.1;
      CheckedConcat(v, out, more);
      StepStaysCoupled(x, u, e);
      OnlyReopensConcat(ps, CheckedAll(u, more).1);
    }
  }

  lemma NothingYet(v: View)
    requires v.phase.Before?
    ensures Coupled(CLOSED, CheckedAll(v, []).0) && OnlyReopens(CheckedAll(v, []).1)
  {
  }

  lemma OnlyReopensConcat(a: seq<Problem>, b: seq<Problem>)
    requires OnlyReopens(a) && OnlyReopens(b)
    ensures OnlyReopens(a + b)
  {
  }

  /** So nothing of those classes is ever reported open when such a run finishes. */
  lemma NothingLeftOpen(v: View, es: seq<Event>, finish: Event, cls: ItemClass, id: string)
    requires v.phase.Before? && forall i | 0 <= i < |es| :: ChunksOnly(es[i])
    requires finish.typ.RunFinished? && !finish.chunked && FeedAll(es + [finish]).Some? && ChunkClass(cls)
    ensures ItemProblem(cls, id, StillOpen) !in CheckedAll(v, FeedAll(es + [finish]).value.1).1
  {
    assert ChunksOnly(finish);
    var all := es + [finish];
    forall i | 0 <= i < |all| ensures ChunksOnly(all[i]) {}
    ChunksStayCoupled(v, all);
  }
}
