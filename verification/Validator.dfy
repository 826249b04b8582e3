/** The conformance validator: run lifecycle, open/close pairing, outcome agreement. */
module Validation {
  import opened Prelude
  import opened Events
  import opened Order

  datatype Phase = Before | Active | Finished | Errored

  /** One pairable item. `tag` is the message role or tool name, `parent` the message name or parent message. */
  datatype Item = Item(open: bool, chunked: bool, tag: string, parent: string)

  datatype ItemClass = MessageItem | CallItem | SpanItem | ReasoningItem

  /** What can be wrong with an item at one event. */
  datatype Fault = AlreadyOpen | Disagrees | NotOpen | MixedForms(chunked: bool) | StillOpen

  datatype Problem =
    | ItemProblem(cls: ItemClass, id: string, fault: Fault)
    | StepProblem(step: string, fault: Fault)
    | UnknownActivity(activity: string)
    | StartWhileActive
    | WrongThread
    | WrongRun
    | FinishOutsideRun
    | ErrorAfterError
    | OutsideRun(typ: EventType)
    | PendingDisagrees(got: seq<string>, want: seq<string>)
    | CancelledWithResult

  datatype Rule = LifecycleRule | PairingRule | ChunkRule | OutcomeRule | ActivityRule

  function RuleOf(p: Problem): Rule {
    match p
    case ItemProblem(_, _, MixedForms(_)) => ChunkRule
    case ItemProblem(_, _, _) => PairingRule
    case StepProblem(_, _) => PairingRule
    case UnknownActivity(_) => ActivityRule
    case PendingDisagrees(_, _) => OutcomeRule
    case CancelledWithResult => OutcomeRule
    case _ => LifecycleRule
  }

  // ----- one item's events -----

  /** An event as the item it concerns sees it. */
  datatype Move = Start(tag: string, parent: string, chunked: bool) | Content(chunked: bool) | End(chunked: bool)

  /** How a move changes an item (None before its first start), and what is wrong with it. */
  function Moved(it: Option<Item>, m: Move): (Option<Item>, Option<Fault>) {
    match m
    case Start(tag, parent, chunked) =>
      if it.None? then (Some(Item(true, chunked, tag, parent)), None)
      else if it.value.open then (it, Some(AlreadyOpen))
      else
        (Some(it.value.(open := true, chunked := chunked)),
         if it.value.tag != tag || (parent != "" && it.value.parent != parent) then Some(Disagrees) else None)
    case Content(chunked) =>
      (it,
       if it.None? || !it.value.open then Some(NotOpen)
       else if it.value.chunked != chunked then Some(MixedForms(chunked)) else None)
    case End(chunked) =>
      if it.None? || !it.value.open then (it, Some(NotOpen))
      else
        (Some(it.value.(open := false)), if it.value.chunked != chunked then Some(MixedForms(chunked)) else None)
  }

  /** The item an event moves, if it is a pairing event. */
  function MoveOf(e: Event): Option<(ItemClass, string, Move)> {
    match e.typ
    case TextMessageStart =>
      Some((MessageItem, e.messageId, Start(if e.role == "" then "assistant" else e.role, e.name, e.chunked)))
    case TextMessageContent => Some((MessageItem, e.messageId, Content(e.chunked)))
    case TextMessageEnd => Some((MessageItem, e.messageId, End(e.chunked)))
    case ToolCallStart => Some((CallItem, e.toolCallId, Start(e.toolCallName, e.parentMessageId, e.chunked)))
    case ToolCallArgs => Some((CallItem, e.toolCallId, Content(e.chunked)))
    case ToolCallEnd => Some((CallItem, e.toolCallId, End(e.chunked)))
    case ReasoningStart => Some((SpanItem, e.messageId, Start("", "", false)))
    case ReasoningEnd => Some((SpanItem, e.messageId, End(false)))
    case ReasoningMessageStart => Some((ReasoningItem, e.messageId, Start("reasoning", "", e.chunked)))
    case ReasoningMessageContent => Some((ReasoningItem, e.messageId, Content(e.chunked)))
    case ReasoningMessageEnd => Some((ReasoningItem, e.messageId, End(e.chunked)))
    case _ => None
  }

  // ----- the validator's state, as a value -----

  datatype View = View(
    threadId: string, phase: Phase, runId: string,
    messages: map<string, Item>, calls: map<string, Item>, spans: map<string, Item>, reasoning: map<string, Item>,
    steps: map<string, bool>, activities: map<string, bool>, results: map<string, bool>, callOrder: seq<string>)

  function Items(v: View, cls: ItemClass): map<string, Item> {
    match cls
    case MessageItem => v.messages
    case CallItem => v.calls
    case SpanItem => v.spans
    case ReasoningItem => v.reasoning
  }

  function WithItems(v: View, cls: ItemClass, items: map<string, Item>): View {
    match cls
    case MessageItem => v.(messages := items)
    case CallItem => v.(calls := items)
    case SpanItem => v.(spans := items)
    case ReasoningItem => v.(reasoning := items)
  }

  function Lookup<V>(m: map<string, V>, id: string): Option<V> { if id in m then Some(m[id]) else None }

  function Set(m: map<string, bool>, id: string): bool { id in m && m[id] }

  function Stored(items: map<string, Item>, id: string, it: Option<Item>): map<string, Item> {
    match it case None => items case Some(i) => items[id := i]
  }

  function FreshRun(v: View, runId: string): View {
    View(v.threadId, Active, runId, map[], map[], map[], map[], map[], map[], map[], [])
  }

  /** A pairing event: its item moves; a first TOOL_CALL_START also joins the call order. */
  function PairedMove(v: View, cls: ItemClass, id: string, m: Move, starts: bool): (View, seq<Problem>) {
    var (it, fault) := Moved(Lookup(Items(v, cls), id), m);
    var order := if starts && id !in v.calls then v.callOrder + [id] else v.callOrder;
    (WithItems(v, cls, Stored(Items(v, cls), id, it)).(callOrder := order),
     if fault.Some? then [ItemProblem(cls, id, fault.value)] else [])
  }

  /** Any other event inside a run. */
  function PairedOther(v: View, e: Event): (View, seq<Problem>) {
    (v.(results := if e.typ.ToolCallResult? then v.results[e.toolCallId := true] else v.results,
        steps := StepsAfter(v.steps, e),
        activities := if e.typ.ActivitySnapshot? then v.activities[e.messageId := true] else v.activities),
     OtherProblems(v, e))
  }

  function StepsAfter(steps: map<string, bool>, e: Event): map<string, bool> {
    if e.typ.StepStarted? && !Set(steps, e.stepName) then steps[e.stepName := true]
    else if e.typ.StepFinished? && Set(steps, e.stepName) then steps[e.stepName := false]
    else steps
  }

  function OtherProblems(v: View, e: Event): seq<Problem> {
    if e.typ.StepStarted? && Set(v.steps, e.stepName) then [StepProblem(e.stepName, AlreadyOpen)]
    else if e.typ.StepFinished? && !Set(v.steps, e.stepName) then [StepProblem(e.stepName, NotOpen)]
    else if e.typ.ActivityDelta? && !Set(v.activities, e.messageId) then [UnknownActivity(e.messageId)]
    else []
  }

  /** Pairing of one event inside a run. */
  function Paired(v: View, e: Event): (View, seq<Problem>) {
    match MoveOf(e)
    case Some((cls, id, m)) => PairedMove(v, cls, id, m, e.typ.ToolCallStart?)
    case None => PairedOther(v, e)
  }

  function OpenIds(items: map<string, Item>): set<string> { set id | id in items && items[id].open }

  function TrueKeys(m: map<string, bool>): set<string> { set id | id in m && m[id] }

  function ItemsLeft(cls: ItemClass, ids: seq<string>): seq<Problem> { Map(id => ItemProblem(cls, id, StillOpen), ids) }

  function StepsLeft(names: seq<string>): seq<Problem> { Map(name => StepProblem(name, StillOpen), names) }

  ghost function StillOpenProblems(cls: ItemClass, items: map<string, Item>): seq<Problem> {
    ItemsLeft(cls, SortedSet(OpenIds(items)))
  }

  /** The calls this run started without a result. */
  function Unanswered(order: seq<string>, results: map<string, bool>): set<string> {
    set id | id in order && !Set(results, id)
  }

  ghost function PendingProblems(v: View, e: Event): seq<Problem> {
    if e.outcome.Some? && e.outcome.value.typ.Success? && e.outcome.value.pending.Some?
       && Sort(e.outcome.value.pending.value) != SortedSet(Unanswered(v.callOrder, v.results))
    then [PendingDisagrees(Sort(e.outcome.value.pending.value), SortedSet(Unanswered(v.callOrder, v.results)))] else []
  }

  function IdProblems(v: View, e: Event): seq<Problem> {
    (if e.runId != v.runId then [WrongRun] else []) + (if e.threadId != v.threadId then [WrongThread] else [])
  }

  function CancelProblems(e: Event): seq<Problem> {
    if e.outcome.Some? && e.outcome.value.typ.Cancelled? && e.hasResult then [CancelledWithResult] else []
  }

  /** What is still open, class by class and sorted by id. */
  ghost function LeftOpen(v: View): seq<Problem> {
    StillOpenProblems(MessageItem, v.messages) + StillOpenProblems(CallItem, v.calls)
    + StillOpenProblems(SpanItem, v.spans) + StillOpenProblems(ReasoningItem, v.reasoning)
    + StepsLeft(SortedSet(TrueKeys(v.steps)))
  }

  /** A RUN_FINISHED: it ends the active run, every item must be closed, the outcome must agree with the stream. */
  ghost function FinishProblems(v: View, e: Event): seq<Problem> {
    IdProblems(v, e) + LeftOpen(v) + PendingProblems(v, e) + CancelProblems(e)
  }

  /** One event of a response. */
  ghost function Checked(v: View, e: Event): (View, seq<Problem>) {
    match e.typ
    case RunStarted =>
      (FreshRun(v, e.runId),
       (if v.phase.Active? then [StartWhileActive] else []) + (if e.threadId != v.threadId then [WrongThread] else []))
    case RunFinished =>
      (v.(phase := Finished), if v.phase.Active? then FinishProblems(v, e) else [FinishOutsideRun])
    case RunError => if v.phase.Errored? then (v, [ErrorAfterError]) else (v.(phase := Errored), [])
    case _ => if v.phase.Active? then Paired(v, e) else (v, [OutsideRun(e.typ)])
  }

  // ----- the program -----

  method StartItem(items: map<string, Item>, cls: ItemClass, id: string, tag: string, parent: string, chunked: bool)
    returns (items': map<string, Item>, ps: seq<Problem>)
    ensures var (it, fault) := Moved(Lookup(items, id), Start(tag, parent, chunked));
            && items' == Stored(items, id, it)
            && ps == if fault.Some? then [ItemProblem(cls, id, fault.value)] else []
  {
    if id !in items {
      return items[id := Item(true, chunked, tag, parent)], [];
    }
    var it := items[id];
    if it.open {
      assert items == items[id := it];
      return items, [ItemProblem(cls, id, AlreadyOpen)];
    }
    items' := items[id := it.(open := true, chunked := chunked)];
    ps := if it.tag != tag || (parent != "" && it.parent != parent) then [ItemProblem(cls, id, Disagrees)] else [];
  }

  method ContinueItem(items: map<string, Item>, cls: ItemClass, id: string, chunked: bool) returns (ps: seq<Problem>)
    ensures var (it, fault) := Moved(Lookup(items, id), Content(chunked));
            && items == Stored(items, id, it)
            && ps == if fault.Some? then [ItemProblem(cls, id, fault.value)] else []
  {
    if id in items {
      assert items == items[id := items[id]];
    }
    if id !in items || !items[id].open {
      return [ItemProblem(cls, id, NotOpen)];
    }
    ps := if items[id].chunked != chunked then [ItemProblem(cls, id, MixedForms(chunked))] else [];
  }

  method EndItem(items: map<string, Item>, cls: ItemClass, id: string, chunked: bool)
    returns (items': map<string, Item>, ps: seq<Problem>)
    ensures var (it, fault) := Moved(Lookup(items, id), End(chunked));
            && items' == Stored(items, id, it)
            && ps == if fault.Some? then [ItemProblem(cls, id, fault.value)] else []
  {
    if id !in items || !items[id].open {
      if id in items {
        assert items == items[id := items[id]];
      }
      return items, [ItemProblem(cls, id, NotOpen)];
    }
    var it := items[id];
    items' := items[id := it.(open := false)];
    ps := if it.chunked != chunked then [ItemProblem(cls, id, MixedForms(chunked))] else [];
  }

  lemma SameSubject(v: View, v': View, e: Event)
    requires v' == v.(phase := v'.phase)
    ensures LeftOpen(v) == LeftOpen(v') && PendingProblems(v, e) == PendingProblems(v', e)
    ensures IdProblems(v, e) == IdProblems(v', e)
  {
    hide StillOpenProblems, StepsLeft, SortedSet, Unanswered;
  }

  class Validator {
    const threadId: string
    var phase: Phase
    var runId: string
    var messages: map<string, Item>
    var calls: map<string, Item>
    var spans: map<string, Item>
    var reasoning: map<string, Item>
    var steps: map<string, bool>
    var activities: map<string, bool>
    var results: map<string, bool>
    var callOrder: seq<string>

    ghost function State(): View
      reads this
    {
      View(threadId, phase, runId, messages, calls, spans, reasoning, steps, activities, results, callOrder)
    }

    constructor (threadId: string)
      ensures State() == FreshRun(State(), "").(threadId := threadId, phase := Before)
    {
      this.threadId := threadId;
      phase, runId := Before, "";
      messages, calls, spans, reasoning := map[], map[], map[], map[];
      steps, activities, results, callOrder := map[], map[], map[], [];
    }

    method Reset()
      modifies this
      ensures State() == FreshRun(old(State()), old(runId)).(phase := old(phase))
    {
      messages, calls, spans, reasoning := map[], map[], map[], map[];
      steps, activities, results, callOrder := map[], map[], map[], [];
    }

    /** Validates one expanded event against the stream so far. */
    method Check(e: Event) returns (ps: seq<Problem>)
      modifies this
      ensures (State(), ps) == Checked(old(State()), e)
    {
      match e.typ {
        case RunStarted =>
          ps := if phase == Active then [StartWhileActive] else [];
          ps := ps + if e.threadId != threadId then [WrongThread] else [];
          phase, runId := Active, e.runId;
          Reset();
        case RunFinished =>
          ps := Finish(e);
        case RunError =>
          if phase == Errored {
            return [ErrorAfterError];
          }
          phase := Errored;
          ps := [];
        case _ =>
          if phase != Active {
            return [OutsideRun(e.typ)];
          }
          ps := Pair(e);
      }
    }

    method Finish(e: Event) returns (ps: seq<Problem>)
      modifies this
      ensures State() == old(State()).(phase := Finished)
      ensures ps == if old(phase) == Active then FinishProblems(old(State()), e) else [FinishOutsideRun]
    {
      if phase != Active {
        phase := Finished;
        return [FinishOutsideRun];
      }
      phase := Finished;
      hide LeftOpen, PendingProblems, IdProblems, CancelProblems;
      ps := CheckIds(e);
      var open := FindOpen();
      ps := ps + open;
      var pending := CheckPending(e);
      ps := ps + pending;
      var cancelled := CheckCancelled(e);
      ps := ps + cancelled;
      SameSubject(old(State()), State(), e);
    }

    method CheckIds(e: Event) returns (ps: seq<Problem>)
      ensures ps == IdProblems(State(), e)
    {
      ps := [];
      if e.runId != runId {
        ps := ps + [WrongRun];
      }
      if e.threadId != threadId {
        ps := ps + [WrongThread];
      }
    }

    method CheckCancelled(e: Event) returns (ps: seq<Problem>)
      ensures ps == CancelProblems(e)
    {
      ps := [];
      if e.outcome.Some? && e.outcome.value.typ == Cancelled && e.hasResult {
        ps := [CancelledWithResult];
      }
    }

    method FindOpen() returns (ps: seq<Problem>)
      ensures ps == LeftOpen(State())
    {
      hide StillOpenProblems, StepsLeft, SortedSet;
      ps := StillOpenIn(MessageItem, messages);
      var open := StillOpenIn(CallItem, calls);
      ps := ps + open;
      open := StillOpenIn(SpanItem, spans);
      ps := ps + open;
      open := StillOpenIn(ReasoningItem, reasoning);
      ps := ps + open;
      var names := SortIds(TrueKeys(steps));
      ps := ps + StepsLeft(names);
    }

    method StillOpenIn(cls: ItemClass, items: map<string, Item>) returns (ps: seq<Problem>)
      ensures ps == StillOpenProblems(cls, items)
    {
      var ids := SortIds(OpenIds(items));
      ps := ItemsLeft(cls, ids);
    }

    method CheckPending(e: Event) returns (ps: seq<Problem>)
      ensures ps == PendingProblems(State(), e)
    {
      ps := [];
      if e.outcome.Some? && e.outcome.value.typ == Success && e.outcome.value.pending.Some? {
        var want := UnansweredIds();
        var got := Sort(e.outcome.value.pending.value);
        if got != want {
          ps := [PendingDisagrees(got, want)];
        }
      }
    }

    /** The sorted ids of the calls this run started without a result. */
    method UnansweredIds() returns (ids: seq<string>)
      ensures ids == SortedSet(Unanswered(callOrder, results))
    {
      ids := [];
      for i := 0 to |callOrder|
        invariant forall id :: id in ids <==> id in callOrder[..i] && !Set(results, id)
      {
        if !Set(results, callOrder[i]) {
          ids := ids + [callOrder[i]];
        }
      }
      assert callOrder[..|callOrder|] == callOrder;
      assert (set id | id in ids) == Unanswered(callOrder, results);
      CompactIsSet(ids);
      ids := Compact(Sort(ids));
    }

    method Pair(e: Event) returns (ps: seq<Problem>)
      modifies this
      ensures (State(), ps) == Paired(old(State()), e)
    {
      hide Moved, Stored, PairedOther, Lookup;
      if MoveOf(e).None? {
        ps := PairOther(e);
        return;
      }
      match e.typ {
        case TextMessageStart =>
          var role := e.role;
          if role == "" {
            role := "assistant";
          }
          messages, ps := StartItem(messages, MessageItem, e.messageId, role, e.name, e.chunked);
        case TextMessageContent =>
          ps := ContinueItem(messages, MessageItem, e.messageId, e.chunked);
        case TextMessageEnd =>
          messages, ps := EndItem(messages, MessageItem, e.messageId, e.chunked);
        case ToolCallStart =>
          if e.toolCallId !in calls {
            callOrder := callOrder + [e.toolCallId];
          }
          calls, ps := StartItem(calls, CallItem, e.toolCallId, e.toolCallName, e.parentMessageId, e.chunked);
        case ToolCallArgs =>
          ps := ContinueItem(calls, CallItem, e.toolCallId, e.chunked);
        case ToolCallEnd =>
          calls, ps := EndItem(calls, CallItem, e.toolCallId, e.chunked);
        case ReasoningStart =>
          spans, ps := StartItem(spans, SpanItem, e.messageId, "", "", false);
        case ReasoningEnd =>
          spans, ps := EndItem(spans, SpanItem, e.messageId, false);
        case ReasoningMessageStart =>
          reasoning, ps := StartItem(reasoning, ReasoningItem, e.messageId, "reasoning", "", e.chunked);
        case ReasoningMessageContent =>
          ps := ContinueItem(reasoning, ReasoningItem, e.messageId, e.chunked);
        case ReasoningMessageEnd =>
          reasoning, ps := EndItem(reasoning, ReasoningItem, e.messageId, e.chunked);
      }
    }

    method PairOther(e: Event) returns (ps: seq<Problem>)
      modifies `results, `steps, `activities
      ensures (State(), ps) == PairedOther(old(State()), e)
    {
      ps := [];
      if e.typ == ToolCallResult {
        results := results[e.toolCallId := true];
      } else if e.typ == StepStarted {
        if Set(steps, e.stepName) {
          return [StepProblem(e.stepName, AlreadyOpen)];
        }
        steps := steps[e.stepName := true];
      } else if e.typ == StepFinished {
        if !Set(steps, e.stepName) {
          return [StepProblem(e.stepName, NotOpen)];
        }
        steps := steps[e.stepName := false];
      } else if e.typ == ActivitySnapshot {
        activities := activities[e.messageId := true];
      } else if e.typ == ActivityDelta && !Set(activities, e.messageId) {
        return [UnknownActivity(e.messageId)];
      }
    }
  }
}
