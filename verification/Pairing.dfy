/** The validator accepts exactly the traces whose items open and close in turn. */
module Pairing {
  import opened Prelude
  import opened Events
  import opened Order
  import opened Validation

  // ----- the trace language -----

  /** The moves a run makes on one item, in order. */
  function MovesOf(es: seq<Event>, cls: ItemClass, id: string): seq<Move> {
    if es == [] then []
    else
      MovesOf(es[..|es| - 1], cls, id) +
      match MoveOf(es[|es| - 1])
      case Some((c, i, m)) => if c == cls && i == id then [m] else []
      case None => []
  }

  /** The starts (true) and finishes (false) of one step. */
  function StepsOf(es: seq<Event>, name: string): seq<bool> {
    if es == [] then []
    else
      var e := es[|es| - 1];
      StepsOf(es[..|es| - 1], name) +
      if e.stepName != name then []
      else if e.typ.StepStarted? then [true]
      else if e.typ.StepFinished? then [false]
      else []
  }

  /** One START CONTENT* END segment, all in one form. */
  datatype Segment = Segment(tag: string, parent: string, chunked: bool, contents: nat)

  function Opening(g: Segment): seq<Move> {
    [Start(g.tag, g.parent, g.chunked)] + seq(g.contents, i => Content(g.chunked))
  }

  function Spelled(gs: seq<Segment>): seq<Move> {
    if gs == [] then []
    else
      var g := gs[|gs| - 1];
      Spelled(gs[..|gs| - 1]) + Opening(g) + [End(g.chunked)]
  }

  /** Every restart agrees with the first start. */
  predicate Agree(gs: seq<Segment>) {
    forall i | 0 < i < |gs| :: gs[i].tag == gs[0].tag && (gs[i].parent == "" || gs[i].parent == gs[0].parent)
  }

  ghost predicate IsSpelling(gs: seq<Segment>, w: seq<Move>) { w == Spelled(gs) && Agree(gs) }

  /** (START CONTENT* END)*, each segment in one form, restarts agreeing with the first start. */
  ghost predicate InLanguage(w: seq<Move>) { exists gs :: IsSpelling(gs, w) }

  /** (STARTED FINISHED)* */
  predicate Alternates(w: seq<bool>) { |w| % 2 == 0 && forall i | 0 <= i < |w| :: w[i] == (i % 2 == 0) }

  // ----- one item, move by move -----

  /** The item after its moves, and whether none of them was wrong. */
  function ItemRun(w: seq<Move>): (Option<Item>, bool) {
    if w == [] then (None, true)
    else
      var (it, ok) := ItemRun(w[..|w| - 1]);
      var (it', fault) := Moved(it, w[|w| - 1]);
      (it', ok && fault.None?)
  }

  predicate IsOpen(it: Option<Item>) { it.Some? && it.value.open }

  lemma RunSnoc(w: seq<Move>, m: Move)
    ensures var (it, ok) := ItemRun(w);
            ItemRun(w + [m]) == (Moved(it, m).0, ok && Moved(it, m).1.None?)
  {
    assert (w + [m])[..|w|] == w;
  }

  lemma {:induction false} ContentsRun(w: seq<Move>, n: nat, chunked: bool)
    requires ItemRun(w).1 && IsOpen(ItemRun(w).0) && ItemRun(w).0.value.chunked == chunked
    ensures ItemRun(w + seq(n, i => Content(chunked))) == ItemRun(w)
  {
    if n == 0 {
      assert w + seq(n, i => Content(chunked)) == w;
    } else {
      ContentsRun(w, n - 1, chunked);
      var front := w + seq(n - 1, i => Content(chunked));
      assert w + seq(n, i => Content(chunked)) == front + [Content(chunked)];
      RunSnoc(front, Content(chunked));
    }
  }

  lemma OpeningRuns(w: seq<Move>, g: Segment)
    requires ItemRun(w).1 && !IsOpen(ItemRun(w).0)
    ensures Moved(ItemRun(w).0, Start(g.tag, g.parent, g.chunked)).1.None? ==>
              ItemRun(w + Opening(g)) == (Moved(ItemRun(w).0, Start(g.tag, g.parent, g.chunked)).0, true)
  {
    hide ItemRun;
    var s := Start(g.tag, g.parent, g.chunked);
    RunSnoc(w, s);
    if Moved(ItemRun(w).0, s).1.None? {
      ContentsRun(w + [s], g.contents, g.chunked);
      assert w + Opening(g) == w + [s] + seq(g.contents, i => Content(g.chunked));
    }
  }

  /** A spelled trace runs without fault and leaves the item closed, with its first start's fields. */
  lemma {:induction false} SpelledRuns(gs: seq<Segment>)
    requires Agree(gs)
    ensures ItemRun(Spelled(gs)) ==
            (if gs == [] then None else Some(Item(false, gs[|gs| - 1].chunked, gs[0].tag, gs[0].parent)), true)
  {
    if gs != [] {
      var front, g := gs[..|gs| - 1], gs[|gs| - 1];
      SpelledRuns(front);
      OpeningRuns(Spelled(front), g);
      RunSnoc(Spelled(front) + Opening(g), End(g.chunked));
    }
  }

  /** The segments spell the trace and explain the item; the last lacks its END while the item is open. */
  predicate Spells(gs: seq<Segment>, w: seq<Move>, it: Option<Item>) {
    && Agree(gs)
    && (gs == [] <==> it.None?)
    && (gs != [] ==> it.value == Item(it.value.open, gs[|gs| - 1].chunked, gs[0].tag, gs[0].parent))
    && w == if IsOpen(it) then Spelled(gs[..|gs| - 1]) + Opening(gs[|gs| - 1]) else Spelled(gs)
  }

  /** A faultless trace is spelled by segments, the last of which may lack its END while the item is open. */
  lemma {:induction false} RunIsSpelled(w: seq<Move>) returns (gs: seq<Segment>)
    requires ItemRun(w).1
    ensures Spells(gs, w, ItemRun(w).0)
  {
    gs := [];
    if w != [] {
      var front, m := w[..|w| - 1], w[|w| - 1];
      assert w == front + [m];
      gs := RunIsSpelled(front);
      gs := SpellMove(front, ItemRun(front).0, gs, m);
    }
  }

  /** One more move on a spelled trace. */
  lemma SpellMove(w: seq<Move>, it: Option<Item>, gs: seq<Segment>, m: Move) returns (gs': seq<Segment>)
    requires Moved(it, m).1.None? && Spells(gs, w, it)
    ensures Spells(gs', w + [m], Moved(it, m).0)
  {
    match m {
      case Start(tag, parent, chunked) => gs' := SpellStart(w, it, gs, m);
      case Content(chunked) => gs' := SpellContent(w, it, gs, m);
      case End(chunked) => gs' := gs;
    }
  }

  lemma SpellStart(w: seq<Move>, it: Option<Item>, gs: seq<Segment>, m: Move) returns (gs': seq<Segment>)
    requires m.Start? && Moved(it, m).1.None? && Spells(gs, w, it)
    ensures Spells(gs', w + [m], Moved(it, m).0)
  {
    var g := Segment(m.tag, m.parent, m.chunked, 0);
    assert Opening(g) == [m];
    hide Spelled, Opening;
    gs' := gs + [g];
    assert gs'[..|gs'| - 1] == gs;
  }

  lemma SpellContent(w: seq<Move>, it: Option<Item>, gs: seq<Segment>, m: Move) returns (gs': seq<Segment>)
    requires m.Content? && Moved(it, m).1.None? && Spells(gs, w, it)
    ensures Spells(gs', w + [m], Moved(it, m).0)
  {
    var g := gs[|gs| - 1];
    var g' := g.(contents := g.contents + 1);
    assert Opening(g') == Opening(g) + [m];
    hide Spelled, Opening;
    gs' := gs[..|gs| - 1] + [g'];
    assert gs'[..|gs'| - 1] == gs[..|gs| - 1];
    Assoc(Spelled(gs[..|gs| - 1]), Opening(g), [m]);
  }

  /** The two readings of a trace on one item are the same. */
  lemma LanguageIsFaultless(w: seq<Move>)
    ensures InLanguage(w) <==> ItemRun(w).1 && !IsOpen(ItemRun(w).0)
  {
    if InLanguage(w) {
      var gs :| IsSpelling(gs, w);
      SpelledRuns(gs);
    }
    if ItemRun(w).1 && !IsOpen(ItemRun(w).0) {
      var gs := RunIsSpelled(w);
      assert IsSpelling(gs, w);
    }
  }

  // ----- steps -----

  function StepRun(w: seq<bool>): (bool, bool) {
    if w == [] then (false, true)
    else
      var (on, ok) := StepRun(w[..|w| - 1]);
      if w[|w| - 1] == on then (on, false) else (w[|w| - 1], ok)
  }

  lemma {:induction false} StepsAlternate(w: seq<bool>)
    ensures StepRun(w).1 ==> StepRun(w).0 == (|w| % 2 == 1)
    ensures StepRun(w).1 <==> forall i | 0 <= i < |w| :: w[i] == (i % 2 == 0)
  {
    if w != [] {
      var front := w[..|w| - 1];
      StepsAlternate(front);
      if StepRun(w).1 {
        forall i | 0 <= i < |w| ensures w[i] == (i % 2 == 0) {
          if i < |front| { assert front[i] == w[i]; }
        }
      }
    }
  }

  // ----- a whole run -----

  /** Events between RUN_STARTED and its terminal event. */
  predicate InRun(es: seq<Event>) {
    forall i | 0 <= i < |es| :: !es[i].typ.RunStarted? && !es[i].typ.RunFinished? && !es[i].typ.RunError?
  }

  /** The validator over a sequence of events. */
  ghost function CheckedAll(v: View, es: seq<Event>): (View, seq<Problem>) {
    if es == [] then (v, [])
    else
      var (u, ps) := CheckedAll(v, es[..|es| - 1]);
      var (u', more) := Checked(u, es[|es| - 1]);
      (u', ps + more)
  }

  lemma CheckedSnoc(v: View, es: seq<Event>, e: Event)
    ensures var (u, ps) := CheckedAll(v, es);
            CheckedAll(v, es + [e]) == (Checked(u, e).0, ps + Checked(u, e).1)
  {
    assert (es + [e])[..|es|] == es;
  }

  ghost predicate CleanItem(ps: seq<Problem>, cls: ItemClass, id: string) {
    forall p | p in ps :: p.ItemProblem? ==> p.cls != cls || p.id != id
  }

  ghost predicate CleanStep(ps: seq<Problem>, name: string) {
    forall p | p in ps :: p.StepProblem? ==> p.step != name
  }

  ghost predicate NoPairingProblem(ps: seq<Problem>) {
    forall p | p in ps :: RuleOf(p) != PairingRule && RuleOf(p) != ChunkRule
  }

  lemma NoPairingMeansClean(ps: seq<Problem>)
    ensures NoPairingProblem(ps) <==>
            (forall cls, id :: CleanItem(ps, cls, id)) && (forall name :: CleanStep(ps, name))
  {
    if !NoPairingProblem(ps) {
      var p :| p in ps && (RuleOf(p) == PairingRule || RuleOf(p) == ChunkRule);
      if p.ItemProblem? {
        assert !CleanItem(ps, p.cls, p.id);
      } else {
        assert !CleanStep(ps, p.step);
      }
    }
  }

  lemma {:induction false} ItemTracked(v: View, es: seq<Event>, cls: ItemClass, id: string)
    requires v.phase.Active? && v == FreshRun(v, v.runId) && InRun(es)
    ensures var (u, ps) := CheckedAll(v, es);
            var (it, ok) := ItemRun(MovesOf(es, cls, id));
            && u.phase.Active? && u.threadId == v.threadId && u.runId == v.runId
            && Lookup(Items(u, cls), id) == it
            && (CleanItem(ps, cls, id) <==> ok)
  {
    if es != [] {
      hide Paired, Checked, CheckedAll, CleanItem, ItemRun, MoveOf, Moved, InRun;
      var front, e := es[..|es| - 1], es[|es| - 1];
      assert InRun(front) by { FrontInRun(es); }
      ItemTracked(v, front, cls, id);
      var (u, ps) := CheckedAll(v, front);
      CheckedInRun(v, es);
      ItemStep(u, e, cls, id);
      CleanItemConcat(ps, Paired(u, e).1, cls, id);
      if MoveOf(e).Some? {
        RunSnoc(MovesOf(front, cls, id), MoveOf(e).value.2);
      }
      assert MovesOf(front, cls, id) + [] == MovesOf(front, cls, id);
    }
  }

  lemma FrontInRun(es: seq<Event>)
    requires es != [] && InRun(es)
    ensures InRun(es[..|es| - 1])
  {
  }

  lemma CleanItemConcat(a: seq<Problem>, b: seq<Problem>, cls: ItemClass, id: string)
    ensures CleanItem(a + b, cls, id) <==> CleanItem(a, cls, id) && CleanItem(b, cls, id)
  {
  }

  /** What a pairing event changes. */
  lemma MoveChanges(u: View, c: ItemClass, i: string, m: Move, starts: bool)
    ensures var (u', more) := PairedMove(u, c, i, m, starts);
            var (it, fault) := Moved(Lookup(Items(u, c), i), m);
            && Items(u', c) == Stored(Items(u, c), i, it)
            && (forall d | d != c :: Items(u', d) == Items(u, d))
            && u'.phase == u.phase && u'.threadId == u.threadId && u'.runId == u.runId && u'.steps == u.steps
            && more == if fault.Some? then [ItemProblem(c, i, fault.value)] else []
  {
    hide Moved;
    match c case MessageItem => case CallItem => case SpanItem => case ReasoningItem =>
  }

  /** An event that is no pairing event leaves every item alone. */
  lemma OtherChanges(u: View, e: Event)
    ensures var (u', more) := PairedOther(u, e);
            && u' == u.(steps := u'.steps, activities := u'.activities, results := u'.results)
            && forall p | p in more :: !p.ItemProblem?
  {
    hide Set, StepsAfter;
  }

  lemma MovedSome(it: Option<Item>, m: Move)
    ensures Moved(it, m).0.None? ==> it.None?
  {
  }

  lemma ItemStep(u: View, e: Event, cls: ItemClass, id: string)
    ensures var (u', more) := Paired(u, e);
            var now := Lookup(Items(u, cls), id);
            && u'.phase == u.phase && u'.threadId == u.threadId && u'.runId == u.runId
            && (if MoveOf(e).Some? && MoveOf(e).value.0 == cls && MoveOf(e).value.1 == id
                then && Lookup(Items(u', cls), id) == Moved(now, MoveOf(e).value.2).0
                     && (CleanItem(more, cls, id) <==> Moved(now, MoveOf(e).value.2).1.None?)
                else Lookup(Items(u', cls), id) == now && CleanItem(more, cls, id))
  {
    hide MoveOf, Moved, PairedMove, PairedOther;
    if MoveOf(e).Some? {
      var (c, i, m) := MoveOf(e).value;
      MoveChanges(u, c, i, m, e.typ.ToolCallStart?);
      MovedSome(Lookup(Items(u, c), i), m);
      var fault := Moved(Lookup(Items(u, c), i), m).1;
      if fault.Some? {
        assert Paired(u, e).1[0] == ItemProblem(c, i, fault.value);
      }
    } else {
      OtherChanges(u, e);
    }
  }

  lemma CheckedInRun(v: View, es: seq<Event>)
    requires es != [] && InRun(es) && CheckedAll(v, es[..|es| - 1]).0.phase.Active?
    ensures var (u, ps) := CheckedAll(v, es[..|es| - 1]);
            var (u', more) := Paired(u, es[|es| - 1]);
            CheckedAll(v, es) == (u', ps + more)
  {
    hide Paired;
  }

  lemma CleanConcat(a: seq<Problem>, b: seq<Problem>, name: string)
    ensures CleanStep(a + b, name) <==> CleanStep(a, name) && CleanStep(b, name)
  {
  }

  /** What one event adds to the trace of a step. */
  lemma StepRunSnoc(es: seq<Event>, name: string)
    requires es != []
    ensures var (on, ok) := StepRun(StepsOf(es[..|es| - 1], name));
            var e := es[|es| - 1];
            StepRun(StepsOf(es, name)) ==
              if e.stepName != name || !(e.typ.StepStarted? || e.typ.StepFinished?) then (on, ok)
              else if e.typ.StepStarted? == on then (on, false)
              else (e.typ.StepStarted?, ok)
  {
    var w := StepsOf(es[..|es| - 1], name);
    assert (w + [true])[..|w|] == w && (w + [false])[..|w|] == w && w + [] == w;
  }

  lemma {:induction false} StepTracked(v: View, es: seq<Event>, name: string)
    requires v.phase.Active? && v == FreshRun(v, v.runId) && InRun(es)
    ensures var (u, ps) := CheckedAll(v, es);
            var (on, ok) := StepRun(StepsOf(es, name));
            u.phase.Active? && Set(u.steps, name) == on && (CleanStep(ps, name) <==> ok)
  {
    if es != [] {
      hide Paired, Checked, CheckedAll, StepRun, StepsOf, CleanStep;
      var front, e := es[..|es| - 1], es[|es| - 1];
      StepTracked(v, front, name);
      var (u, ps) := CheckedAll(v, front);
      CheckedInRun(v, es);
      StepStep(u, e, name);
      CleanConcat(ps, Paired(u, e).1, name);
      StepRunSnoc(es, name);
    }
  }

  lemma StepChanges(u: View, e: Event)
    ensures var (u', more) := PairedOther(u, e);
            var on := Set(u.steps, e.stepName);
            && u'.phase == u.phase
            && (if e.typ.StepStarted? || e.typ.StepFinished?
                then if on == e.typ.StepStarted?
                     then u'.steps == u.steps && |more| == 1 && more[0].StepProblem? && more[0].step == e.stepName
                     else u'.steps == u.steps[e.stepName := !on] && more == []
                else u'.steps == u.steps && forall p | p in more :: !p.StepProblem?)
  {
  }

  lemma StepStep(u: View, e: Event, name: string)
    ensures var (u', more) := Paired(u, e);
            var on := Set(u.steps, name);
            && u'.phase == u.phase
            && (if e.stepName == name && (e.typ.StepStarted? || e.typ.StepFinished?)
                then Set(u'.steps, name) == e.typ.StepStarted? && (CleanStep(more, name) <==> on != e.typ.StepStarted?)
                else Set(u'.steps, name) == on && CleanStep(more, name))
  {
    hide Moved, PairedMove, PairedOther;
    if MoveOf(e).Some? {
      var (c, i, m) := MoveOf(e).value;
      MoveChanges(u, c, i, m, e.typ.ToolCallStart?);
    } else {
      StepChanges(u, e);
      var more := Paired(u, e).1;
      if |more| == 1 && more[0].StepProblem? {
        assert more[0] in more && more == [more[0]];
      }
    }
  }

  lemma SortedMembers(s: set<string>, x: string)
    ensures x in SortedSet(s) <==> x in s
  {
    assert x in multiset(SortedSet(s)) <==> x in multiset(s);
  }

  lemma LeftOver(cls: ItemClass, items: map<string, Item>, id: string)
    ensures CleanItem(StillOpenProblems(cls, items), cls, id) <==> !IsOpen(Lookup(items, id))
    ensures forall p | p in StillOpenProblems(cls, items) :: p.ItemProblem? && p.cls == cls && p.fault.StillOpen?
  {
    hide SortedSet;
    var ids := SortedSet(OpenIds(items));
    SortedMembers(OpenIds(items), id);
    if id in ids {
      var k :| 0 <= k < |ids| && ids[k] == id;
      assert StillOpenProblems(cls, items)[k] == ItemProblem(cls, id, StillOpen);
    }
  }

  lemma LeftOverSteps(steps: map<string, bool>, name: string)
    ensures CleanStep(StepsLeft(SortedSet(TrueKeys(steps))), name) <==> !Set(steps, name)
  {
    var names := SortedSet(TrueKeys(steps));
    SortedMembers(TrueKeys(steps), name);
    if name in names {
      var k :| 0 <= k < |names| && names[k] == name;
      assert StepsLeft(names)[k] == StepProblem(name, StillOpen);
    }
  }

  /** A RUN_FINISHED reports an item exactly when the item is open. */
  lemma FinishItems(v: View, e: Event, cls: ItemClass, id: string)
    ensures CleanItem(FinishProblems(v, e), cls, id) <==> !IsOpen(Lookup(Items(v, cls), id))
  {
    hide StillOpenProblems, StepsLeft, SortedSet;
    LeftOver(MessageItem, v.messages, id);
    LeftOver(CallItem, v.calls, id);
    LeftOver(SpanItem, v.spans, id);
    LeftOver(ReasoningItem, v.reasoning, id);
    StepsLeftAreSteps(SortedSet(TrueKeys(v.steps)));
  }

  lemma StepsLeftAreSteps(names: seq<string>)
    ensures forall p | p in StepsLeft(names) :: p.StepProblem?
  {
  }

  lemma FinishSteps(v: View, e: Event, name: string)
    ensures CleanStep(FinishProblems(v, e), name) <==> !Set(v.steps, name)
  {
    hide StillOpenProblems, StepsLeft, SortedSet;
    LeftOver(MessageItem, v.messages, "");
    LeftOver(CallItem, v.calls, "");
    LeftOver(SpanItem, v.spans, "");
    LeftOver(ReasoningItem, v.reasoning, "");
    LeftOverSteps(v.steps, name);
  }

  lemma ItemVerdict(v: View, es: seq<Event>, finish: Event, cls: ItemClass, id: string)
    requires v.phase.Active? && v == FreshRun(v, v.runId) && InRun(es) && finish.typ.RunFinished?
    ensures CleanItem(CheckedAll(v, es + [finish]).1, cls, id) <==> InLanguage(MovesOf(es, cls, id))
  {
    hide CheckedAll, ItemRun, MovesOf, InLanguage, FinishProblems;
    CheckedSnoc(v, es, finish);
    var (u, ps) := CheckedAll(v, es);
    ItemTracked(v, es, cls, id);
    FinishItems(u, finish, cls, id);
    LanguageIsFaultless(MovesOf(es, cls, id));
    assert CheckedAll(v, es + [finish]).1 == ps + FinishProblems(u, finish);
  }

  lemma StepVerdict(v: View, es: seq<Event>, finish: Event, name: string)
    requires v.phase.Active? && v == FreshRun(v, v.runId) && InRun(es) && finish.typ.RunFinished?
    ensures CleanStep(CheckedAll(v, es + [finish]).1, name) <==> Alternates(StepsOf(es, name))
  {
    hide CheckedAll, StepRun, StepsOf, FinishProblems;
    CheckedSnoc(v, es, finish);
    var (u, ps) := CheckedAll(v, es);
    StepTracked(v, es, name);
    FinishSteps(u, finish, name);
    StepsAlternate(StepsOf(es, name));
    assert CheckedAll(v, es + [finish]).1 == ps + FinishProblems(u, finish);
  }

  // ----- the same, read from the events -----

  /** How a class of items reads its events: which types start, continue and end an item, what a restart must agree
      on, and whether chunks and explicit events must not be mixed. */
  datatype Reading = Reading(
    start: EventType, content: EventType, end: EventType,
    tag: Event -> string, parent: Event -> string, form: Event -> bool)

  const MESSAGES := Reading(TextMessageStart, TextMessageContent, TextMessageEnd,
                            (e: Event) => if e.role == "" then "assistant" else e.role, (e: Event) => e.name,
                            (e: Event) => e.chunked)

  const CALLS := Reading(ToolCallStart, ToolCallArgs, ToolCallEnd,
                         (e: Event) => e.toolCallName, (e: Event) => e.parentMessageId, (e: Event) => e.chunked)

  const REASONING := Reading(ReasoningMessageStart, ReasoningMessageContent, ReasoningMessageEnd,
                             (e: Event) => "reasoning", (e: Event) => "", (e: Event) => e.chunked)

  predicate Reads(rd: Reading, e: Event) { e.typ == rd.start || e.typ == rd.content || e.typ == rd.end }

  /** An event starts the item exactly when it is the first or follows an end. */
  predicate TurnAt(rd: Reading, w: seq<Event>, i: nat) {
    i < |w| ==> (w[i].typ == rd.start <==> (i == 0 || w[i - 1].typ == rd.end))
  }

  predicate Turns(rd: Reading, w: seq<Event>) { forall i: nat | i < |w| :: TurnAt(rd, w, i) }

  /** Starts and ends in turn, and ends last. */
  predicate InTurn(rd: Reading, w: seq<Event>) { Turns(rd, w) && (w != [] ==> w[|w| - 1].typ == rd.end) }

  /** From a start to its end all events are in one form. */
  predicate OneForm(rd: Reading, w: seq<Event>) {
    forall i | 0 < i < |w| && w[i].typ != rd.start :: rd.form(w[i]) == rd.form(w[i - 1])
  }

  /** Every start agrees with the first. */
  predicate StartsAgree(rd: Reading, w: seq<Event>) {
    forall i | 0 <= i < |w| && w[i].typ == rd.start ::
      rd.tag(w[i]) == rd.tag(w[0]) && (rd.parent(w[i]) == "" || rd.parent(w[i]) == rd.parent(w[0]))
  }

  predicate ProperlyPaired(rd: Reading, w: seq<Event>) { InTurn(rd, w) && OneForm(rd, w) && StartsAgree(rd, w) }

  /** The events about one message, call, reasoning message or reasoning span. */
  function MessageEvents(es: seq<Event>, id: string): seq<Event> {
    Filter((e: Event) => Reads(MESSAGES, e) && e.messageId == id, es)
  }

  function CallEvents(es: seq<Event>, id: string): seq<Event> {
    Filter((e: Event) => Reads(CALLS, e) && e.toolCallId == id, es)
  }

  function ReasoningEvents(es: seq<Event>, id: string): seq<Event> {
    Filter((e: Event) => Reads(REASONING, e) && e.messageId == id, es)
  }

  function SpanEvents(es: seq<Event>, id: string): seq<Event> {
    Filter((e: Event) => (e.typ.ReasoningStart? || e.typ.ReasoningEnd?) && e.messageId == id, es)
  }

  /** REASONING_START and REASONING_END in turn, closed at the end. */
  predicate SpansPaired(w: seq<Event>) {
    |w| % 2 == 0 && forall i | 0 <= i < |w| :: w[i].typ.ReasoningStart? <==> i % 2 == 0
  }

  /** Every message, call, reasoning message, span and step opens and closes in turn. */
  ghost predicate WellPaired(es: seq<Event>) {
    && (forall id :: ProperlyPaired(MESSAGES, MessageEvents(es, id)))
    && (forall id :: ProperlyPaired(CALLS, CallEvents(es, id)))
    && (forall id :: ProperlyPaired(REASONING, ReasoningEvents(es, id)))
    && (forall id :: SpansPaired(SpanEvents(es, id)))
    && (forall name :: Alternates(StepsOf(es, name)))
  }

  // ----- the two readings agree -----

  /** The move an event makes under a reading. */
  function MoveUnder(rd: Reading, e: Event): Move {
    if e.typ == rd.start then Start(rd.tag(e), rd.parent(e), rd.form(e))
    else if e.typ == rd.end then End(rd.form(e))
    else Content(rd.form(e))
  }

  /** The automaton on a trace of events, faultless so far. */
  ghost predicate PairedSoFar(rd: Reading, w: seq<Event>) {
    Turns(rd, w) && OneForm(rd, w) && StartsAgree(rd, w)
  }

  lemma PairedSnoc(rd: Reading, w: seq<Event>, e: Event)
    requires rd.start != rd.end
    ensures PairedSoFar(rd, w + [e]) <==>
              && PairedSoFar(rd, w)
              && (e.typ == rd.start <==> w == [] || w[|w| - 1].typ == rd.end)
              && (e.typ != rd.start && w != [] ==> rd.form(e) == rd.form(w[|w| - 1]))
              && (e.typ == rd.start && w != [] ==>
                    rd.tag(e) == rd.tag(w[0]) && (rd.parent(e) == "" || rd.parent(e) == rd.parent(w[0])))
  {
    var all := w + [e];
    assert all[|w|] == e;
    assert forall i | 0 <= i < |w| :: all[i] == w[i];
    assert forall i: nat | i < |w| :: TurnAt(rd, all, i) <==> TurnAt(rd, w, i);
    assert TurnAt(rd, all, |w|) <==> (e.typ == rd.start <==> (w == [] || w[|w| - 1].typ == rd.end));
    hide TurnAt;
  }

  function MovesUnder(rd: Reading, w: seq<Event>): seq<Move> { Map((e: Event) => MoveUnder(rd, e), w) }

  /** What the item automaton makes of a trace of events. */
  ghost predicate RunsAsPaired(rd: Reading, w: seq<Event>) {
    var (it, ok) := ItemRun(MovesUnder(rd, w));
    && (ok <==> PairedSoFar(rd, w))
    && (ok && w == [] ==> it.None?)
    && (ok && w != [] ==>
          it == Some(Item(w[|w| - 1].typ != rd.end, rd.form(w[|w| - 1]), rd.tag(w[0]), rd.parent(w[0]))))
  }

  lemma {:induction false} RunOfEvents(rd: Reading, w: seq<Event>)
    requires rd.start != rd.end
    ensures RunsAsPaired(rd, w)
  {
    if w != [] {
      hide RunsAsPaired;
      var front, e := w[..|w| - 1], w[|w| - 1];
      assert w == front + [e];
      RunOfEvents(rd, front);
      RunOfOneMore(rd, front, e);
    }
  }

  lemma RunOfOneMore(rd: Reading, w: seq<Event>, e: Event)
    requires rd.start != rd.end && RunsAsPaired(rd, w)
    ensures RunsAsPaired(rd, w + [e])
  {
    hide PairedSoFar, ItemRun, MovesUnder;
    PairedSnoc(rd, w, e);
    RunSnoc(MovesUnder(rd, w), MoveUnder(rd, e));
    MovesUnderSnoc(rd, w, e);
  }

  lemma MovesUnderSnoc(rd: Reading, w: seq<Event>, e: Event)
    ensures MovesUnder(rd, w + [e]) == MovesUnder(rd, w) + [MoveUnder(rd, e)]
  {
    hide MoveUnder;
  }

  lemma ReadingIsLanguage(rd: Reading, w: seq<Event>)
    requires rd.start != rd.end
    ensures InLanguage(MovesUnder(rd, w)) <==> ProperlyPaired(rd, w)
  {
    hide ItemRun, MovesUnder, InLanguage;
    RunOfEvents(rd, w);
    LanguageIsFaultless(MovesUnder(rd, w));
  }

  /** A class's trace of moves is its trace of events. */
  lemma {:induction false} MovesAreEvents(es: seq<Event>, cls: ItemClass, id: string, keep: Event -> bool,
                                          move: Event -> Move)
    requires forall e :: keep(e) <==> MoveOf(e).Some? && MoveOf(e).value.0 == cls && MoveOf(e).value.1 == id
    requires forall e | keep(e) :: MoveOf(e).value.2 == move(e)
    ensures MovesOf(es, cls, id) == Map(move, Filter(keep, es))
  {
    hide MoveOf;
    if es != [] {
      var front, e := es[..|es| - 1], es[|es| - 1];
      assert es == front + [e];
      MovesAreEvents(front, cls, id, keep, move);
      FilterConcat(keep, front, [e]);
      assert Filter(keep, [e]) == if keep(e) then [e] else [] by { assert [e][1..] == []; }
    }
  }

  lemma MessageTrace(es: seq<Event>, id: string)
    ensures InLanguage(MovesOf(es, MessageItem, id)) <==> ProperlyPaired(MESSAGES, MessageEvents(es, id))
  {
    hide InLanguage, ProperlyPaired;
    MovesAreEvents(es, MessageItem, id, (e: Event) => Reads(MESSAGES, e) && e.messageId == id,
                   (e: Event) => MoveUnder(MESSAGES, e));
    ReadingIsLanguage(MESSAGES, MessageEvents(es, id));
  }

  lemma CallTrace(es: seq<Event>, id: string)
    ensures InLanguage(MovesOf(es, CallItem, id)) <==> ProperlyPaired(CALLS, CallEvents(es, id))
  {
    hide InLanguage, ProperlyPaired;
    MovesAreEvents(es, CallItem, id, (e: Event) => Reads(CALLS, e) && e.toolCallId == id,
                   (e: Event) => MoveUnder(CALLS, e));
    ReadingIsLanguage(CALLS, CallEvents(es, id));
  }

  lemma ReasoningTrace(es: seq<Event>, id: string)
    ensures InLanguage(MovesOf(es, ReasoningItem, id)) <==> ProperlyPaired(REASONING, ReasoningEvents(es, id))
  {
    hide InLanguage, ProperlyPaired;
    MovesAreEvents(es, ReasoningItem, id, (e: Event) => Reads(REASONING, e) && e.messageId == id,
                   (e: Event) => MoveUnder(REASONING, e));
    ReadingIsLanguage(REASONING, ReasoningEvents(es, id));
  }

  const SPANS := Reading(ReasoningStart, ReasoningStart, ReasoningEnd,
                         (e: Event) => "", (e: Event) => "", (e: Event) => false)

  lemma SpanTrace(es: seq<Event>, id: string)
    ensures InLanguage(MovesOf(es, SpanItem, id)) <==> SpansPaired(SpanEvents(es, id))
  {
    hide InLanguage;
    MovesAreEvents(es, SpanItem, id, (e: Event) => (e.typ.ReasoningStart? || e.typ.ReasoningEnd?) && e.messageId == id,
                   (e: Event) => MoveUnder(SPANS, e));
    ReadingIsLanguage(SPANS, SpanEvents(es, id));
    forall e | e in SpanEvents(es, id) ensures e.typ.ReasoningStart? || e.typ.ReasoningEnd? {
      FilterMember((e: Event) => (e.typ.ReasoningStart? || e.typ.ReasoningEnd?) && e.messageId == id, es, e);
    }
    SpansInTurn(SpanEvents(es, id));
  }

  lemma {:induction false} StartsAtEven(w: seq<Event>, i: nat)
    requires i < |w| && forall e | e in w :: e.typ.ReasoningStart? || e.typ.ReasoningEnd?
    requires Turns(SPANS, w)
    ensures w[i].typ.ReasoningStart? <==> i % 2 == 0
  {
    assert TurnAt(SPANS, w, i);
    if i > 0 {
      StartsAtEven(w, i - 1);
      assert w[i - 1] in w && w[i] in w;
    }
  }

  lemma SpansInTurn(w: seq<Event>)
    requires forall e | e in w :: e.typ.ReasoningStart? || e.typ.ReasoningEnd?
    ensures ProperlyPaired(SPANS, w) <==> SpansPaired(w)
  {
    if ProperlyPaired(SPANS, w) {
      forall i | 0 <= i < |w| ensures w[i].typ.ReasoningStart? <==> i % 2 == 0 {
        StartsAtEven(w, i);
      }
    }
    if SpansPaired(w) {
      forall i: nat | i < |w| ensures TurnAt(SPANS, w, i) {
        assert w[i] in w && (i > 0 ==> w[i - 1] in w);
      }
      assert w != [] ==> w[|w| - 1] in w;
    }
  }

  /** Every item's trace of moves is in the language, and every step's starts and finishes alternate. */
  ghost predicate InLanguages(es: seq<Event>) {
    && (forall cls, id :: InLanguage(MovesOf(es, cls, id)))
    && (forall name :: Alternates(StepsOf(es, name)))
  }

  lemma WellPairedMeans(es: seq<Event>)
    ensures InLanguages(es) <==> WellPaired(es)
  {
    hide InLanguage, MovesOf, StepsOf, Alternates, ProperlyPaired, SpansPaired, MessageEvents, CallEvents;
    hide ReasoningEvents, SpanEvents;
    forall id ensures InLanguage(MovesOf(es, MessageItem, id)) <==> ProperlyPaired(MESSAGES, MessageEvents(es, id)) {
      MessageTrace(es, id);
    }
    forall id ensures InLanguage(MovesOf(es, CallItem, id)) <==> ProperlyPaired(CALLS, CallEvents(es, id)) {
      CallTrace(es, id);
    }
    forall id ensures
      InLanguage(MovesOf(es, ReasoningItem, id)) <==> ProperlyPaired(REASONING, ReasoningEvents(es, id))
    {
      ReasoningTrace(es, id);
    }
    forall id ensures InLanguage(MovesOf(es, SpanItem, id)) <==> SpansPaired(SpanEvents(es, id)) {
      SpanTrace(es, id);
    }
    if WellPaired(es) {
      forall cls, id ensures InLanguage(MovesOf(es, cls, id)) {
        match cls case MessageItem => case CallItem => case SpanItem => case ReasoningItem =>
      }
    }
  }

  lemma CleanMeansInLanguages(v: View, es: seq<Event>, finish: Event)
    requires v.phase.Active? && v == FreshRun(v, v.runId) && InRun(es) && finish.typ.RunFinished?
    ensures NoPairingProblem(CheckedAll(v, es + [finish]).1) <==> InLanguages(es)
  {
    hide InLanguage, Alternates, NoPairingProblem, CleanItem, CleanStep, CheckedAll, MovesOf, StepsOf;
    var all := CheckedAll(v, es + [finish]).1;
    NoPairingMeansClean(all);
    forall cls, id ensures CleanItem(all, cls, id) <==> InLanguage(MovesOf(es, cls, id)) {
      ItemVerdict(v, es, finish, cls, id);
    }
    forall name ensures CleanStep(all, name) <==> Alternates(StepsOf(es, name)) {
      StepVerdict(v, es, finish, name);
    }
  }

  /** Over a run from RUN_STARTED to RUN_FINISHED the validator reports no pairing or chunk-form problem exactly
      when the run is well paired. */
  lemma PairingIsSoundAndComplete(v: View, es: seq<Event>, finish: Event)
    requires v.phase.Active? && v == FreshRun(v, v.runId) && InRun(es) && finish.typ.RunFinished?
    ensures NoPairingProblem(CheckedAll(v, es + [finish]).1) <==> WellPaired(es)
  {
    hide *;
    CleanMeansInLanguages(v, es, finish);
    WellPairedMeans(es);
  }

  /** The outcome's list of pending calls is accepted exactly when it lists the unanswered calls once each. */
  lemma PendingListIsExact(v: View, e: Event, pending: seq<string>)
    requires e.outcome.Some? && e.outcome.value.typ.Success? && e.outcome.value.pending == Some(pending)
    ensures PendingProblems(v, e) == [] <==> multiset(pending) == multiset(Unanswered(v.callOrder, v.results))
  {
    SortEqual(pending, Enumerated(Unanswered(v.callOrder, v.results)));
  }

  // ----- the unanswered calls, read from the events -----

  ghost predicate StartedCall(es: seq<Event>, id: string) {
    exists i: nat :: i < |es| && es[i].typ.ToolCallStart? && es[i].toolCallId == id
  }

  ghost predicate ResultedCall(es: seq<Event>, id: string) {
    exists i: nat :: i < |es| && es[i].typ.ToolCallResult? && es[i].toolCallId == id
  }

  predicate NoneDisagrees(ps: seq<Problem>) { forall p | p in ps :: !p.PendingDisagrees? }

  lemma CallStep(u: View, e: Event, id: string)
    requires (id in u.callOrder) == (id in u.calls)
    ensures var (u', more) := Paired(u, e);
            && (id in u'.callOrder <==> id in u.callOrder || (e.typ.ToolCallStart? && e.toolCallId == id))
            && (id in u'.callOrder <==> id in u'.calls) && NoneDisagrees(more)
            && (Set(u'.results, id) <==> Set(u.results, id) || (e.typ.ToolCallResult? && e.toolCallId == id))
  {
    hide MoveOf, PairedMove, PairedOther, Set;
    StartsCalls(e);
    if MoveOf(e).Some? {
      var (c, i, m) := MoveOf(e).value;
      CallMove(u, c, i, m, e.typ.ToolCallStart?, id);
    } else {
      CallOther(u, e, id);
    }
  }

  lemma StartsCalls(e: Event)
    ensures e.typ.ToolCallStart? <==> MoveOf(e).Some? && MoveOf(e).value.0.CallItem? && MoveOf(e).value.2.Start?
    ensures e.typ.ToolCallStart? ==> MoveOf(e).value.1 == e.toolCallId
    ensures e.typ.ToolCallResult? ==> MoveOf(e).None?
  {
  }

  lemma CallOther(u: View, e: Event, id: string)
    ensures var (u', more) := PairedOther(u, e);
            && u'.callOrder == u.callOrder && u'.calls == u.calls && NoneDisagrees(more)
            && (Set(u'.results, id) <==> Set(u.results, id) || (e.typ.ToolCallResult? && e.toolCallId == id))
  {
    hide StepsAfter;
  }

  lemma CallMove(u: View, c: ItemClass, i: string, m: Move, starts: bool, id: string)
    requires (id in u.callOrder) == (id in u.calls) && (starts ==> c.CallItem? && m.Start?)
    requires c.CallItem? && m.Start? ==> starts
    ensures var (u', more) := PairedMove(u, c, i, m, starts);
            && (id in u'.callOrder <==> id in u.callOrder || (starts && i == id))
            && (id in u'.callOrder <==> id in u'.calls) && NoneDisagrees(more) && u'.results == u.results
  {
  }

  lemma OneMoreCallEvent(es: seq<Event>, e: Event, id: string)
    ensures StartedCall(es + [e], id) <==> StartedCall(es, id) || (e.typ.ToolCallStart? && e.toolCallId == id)
    ensures ResultedCall(es + [e], id) <==> ResultedCall(es, id) || (e.typ.ToolCallResult? && e.toolCallId == id)
  {
    var all := es + [e];
    assert all[|es|] == e;
    if StartedCall(es, id) {
      var i: nat :| i < |es| && es[i].typ.ToolCallStart? && es[i].toolCallId == id;
      assert all[i] == es[i];
    }
    if ResultedCall(es, id) {
      var i: nat :| i < |es| && es[i].typ.ToolCallResult? && es[i].toolCallId == id;
      assert all[i] == es[i];
    }
  }

  lemma {:induction false} CallsTracked(v: View, es: seq<Event>, id: string)
    requires v.phase.Active? && v == FreshRun(v, v.runId) && InRun(es)
    ensures var (u, ps) := CheckedAll(v, es);
            && u.phase.Active? && NoneDisagrees(ps) && (id in u.callOrder <==> id in u.calls)
            && (id in u.callOrder <==> StartedCall(es, id)) && (Set(u.results, id) <==> ResultedCall(es, id))
  {
    if es != [] {
      hide Paired, CheckedAll, StartedCall, ResultedCall, Set;
      var front, e := es[..|es| - 1], es[|es| - 1];
      assert es == front + [e];
      CallsTracked(v, front, id);
      var (u, ps) := CheckedAll(v, front);
      PhaseKept(v, es);
      CheckedInRun(v, es);
      CallStep(u, e, id);
      OneMoreCallEvent(front, e, id);
    }
  }

  lemma {:induction false} PhaseKept(v: View, es: seq<Event>)
    requires v.phase.Active? && v == FreshRun(v, v.runId) && InRun(es)
    ensures CheckedAll(v, es).0.phase.Active?
  {
    StepTracked(v, es, "");
  }

  /** RUN_FINISHED disagrees with the outcome's list of pending calls unless it lists, once each, exactly the calls
      the run started without a result. */
  lemma PendingListOfRun(v: View, es: seq<Event>, finish: Event, pending: seq<string>)
    requires v.phase.Active? && v == FreshRun(v, v.runId) && InRun(es) && finish.typ.RunFinished?
    requires finish.outcome.Some? && finish.outcome.value.typ.Success?
    requires finish.outcome.value.pending == Some(pending)
    ensures NoneDisagrees(CheckedAll(v, es + [finish]).1) <==>
              && Order.Distinct(pending)
              && forall id :: id in pending <==> StartedCall(es, id) && !ResultedCall(es, id)
  {
    hide CheckedAll, StartedCall, ResultedCall, FinishProblems, Unanswered, Set;
    CheckedSnoc(v, es, finish);
    var (u, ps) := CheckedAll(v, es);
    CallsTracked(v, es, "");
    FinishDisagrees(u, finish);
    PendingListIsExact(u, finish, pending);
    forall id ensures id in Unanswered(u.callOrder, u.results) <==> StartedCall(es, id) && !ResultedCall(es, id) {
      CallsTracked(v, es, id);
      UnansweredMember(u, id);
    }
    ListsSet(pending, Unanswered(u.callOrder, u.results));
    assert CheckedAll(v, es + [finish]).1 == ps + FinishProblems(u, finish);
  }

  lemma UnansweredMember(u: View, id: string)
    ensures id in Unanswered(u.callOrder, u.results) <==> id in u.callOrder && !Set(u.results, id)
  {
  }

  lemma FinishDisagrees(u: View, finish: Event)
    ensures NoneDisagrees(FinishProblems(u, finish)) <==> PendingProblems(u, finish) == []
  {
    hide LeftOpen, Unanswered, Sort, SortedSet;
    LeftNoneDisagree(u);
    var ids, open := IdProblems(u, finish), LeftOpen(u);
    var pending, cancelled := PendingProblems(u, finish), CancelProblems(finish);
    assert pending != [] ==> pending[0].PendingDisagrees? && pending[0] in pending;
    assert NoneDisagrees(ids) && NoneDisagrees(cancelled);
    hide IdProblems, PendingProblems, CancelProblems;
    DisagreesConcat(ids, open);
    DisagreesConcat(ids + open, pending);
    DisagreesConcat(ids + open + pending, cancelled);
  }

  lemma DisagreesConcat(a: seq<Problem>, b: seq<Problem>)
    ensures NoneDisagrees(a + b) <==> NoneDisagrees(a) && NoneDisagrees(b)
  {
  }

  lemma LeftNoneDisagree(u: View)
    ensures NoneDisagrees(LeftOpen(u))
  {
    hide StillOpenProblems, StepsLeft, SortedSet;
    LeftOver(MessageItem, u.messages, "");
    LeftOver(CallItem, u.calls, "");
    LeftOver(SpanItem, u.spans, "");
    LeftOver(ReasoningItem, u.reasoning, "");
    StepsLeftAreSteps(SortedSet(TrueKeys(u.steps)));
  }

  /** A list has a set's members once each exactly when it is distinct and has those members. */
  lemma ListsSet(s: seq<string>, members: set<string>)
    ensures multiset(s) == multiset(members) <==> Order.Distinct(s) && forall x :: x in s <==> x in members
  {
    if multiset(s) == multiset(members) {
      forall x ensures x in s <==> x in members {
        assert x in multiset(s) <==> x in multiset(members);
      }
      forall i, j | 0 <= i < j < |s| ensures s[i] != s[j] {
        if s[i] == s[j] {
          TwiceListed(s, i, j);
        }
      }
    }
    if Order.Distinct(s) && forall x :: x in s <==> x in members {
      DistinctMultiset(s);
      assert (set x | x in s) == members;
    }
  }

  lemma TwiceListed(s: seq<string>, i: nat, j: nat)
    requires i < j < |s| && s[i] == s[j]
    ensures multiset(s)[s[i]] >= 2
  {
    assert s == s[..i] + [s[i]] + s[i + 1..j] + [s[j]] + s[j + 1..];
  }
}
