/** The chunk expander: *_CHUNK events rewritten into the explicit events they stand for. */
module ChunkExpander {
  import opened Prelude
  import opened Events

  /** Which chunked item is open, and the opening fields later chunks must agree with. */
  datatype Kind = Idle | TextKind | ToolKind | ReasoningKind
  datatype OpenItem = OpenItem(kind: Kind, id: string, role: string, name: string, parent: string)

  const CLOSED := OpenItem(Idle, "", "", "", "")

  function KindOf(e: Event): Kind {
    match e.typ
    case TextMessageChunk => TextKind
    case ToolCallChunk => ToolKind
    case ReasoningMessageChunk => ReasoningKind
    case _ => Idle
  }

  /** The id a chunk names, "" when it leaves it to the open item. */
  function ChunkId(e: Event): string { if e.typ.ToolCallChunk? then e.toolCallId else e.messageId }

  // ----- the explicit events -----

  function StartEvent(x: OpenItem): Event {
    match x.kind
    case ToolKind =>
      Blank(ToolCallStart).(toolCallId := x.id, toolCallName := x.name, parentMessageId := x.parent, chunked := true)
    case ReasoningKind => Blank(ReasoningMessageStart).(messageId := x.id, role := "reasoning", chunked := true)
    case _ => Blank(TextMessageStart).(messageId := x.id, role := x.role, name := x.name, chunked := true)
  }

  function ContentEvent(kind: Kind, id: string, delta: string): Event {
    match kind
    case ToolKind => Blank(ToolCallArgs).(toolCallId := id, delta := Some(delta), chunked := true)
    case ReasoningKind => Blank(ReasoningMessageContent).(messageId := id, delta := Some(delta), chunked := true)
    case _ => Blank(TextMessageContent).(messageId := id, delta := Some(delta), chunked := true)
  }

  function EndEvent(kind: Kind, id: string): Event {
    match kind
    case ToolKind => Blank(ToolCallEnd).(toolCallId := id, chunked := true)
    case ReasoningKind => Blank(ReasoningMessageEnd).(messageId := id, chunked := true)
    case _ => Blank(TextMessageEnd).(messageId := id, chunked := true)
  }

  // ----- one step, as a function -----

  function Contents(x: OpenItem, e: Event): seq<Event> {
    if e.delta.None? then [] else [ContentEvent(x.kind, x.id, e.delta.value)]
  }

  function Closing(x: OpenItem): seq<Event> { if x.kind.Idle? then [] else [EndEvent(x.kind, x.id)] }

  predicate Continues(x: OpenItem, e: Event) {
    IsChunk(e) && x.kind == KindOf(e) && (ChunkId(e) == "" || ChunkId(e) == x.id)
  }

  /** A continuing chunk repeats an opening field with a different value. */
  predicate Conflicts(x: OpenItem, e: Event) {
    match x.kind
    case TextKind => (e.role != "" && e.role != x.role) || (e.name != "" && x.name != "" && e.name != x.name)
    case ToolKind =>
      || (e.toolCallName != "" && e.toolCallName != x.name)
      || (e.parentMessageId != "" && x.parent != "" && e.parentMessageId != x.parent)
    case _ => false
  }

  /** The open item with the fields a later chunk supplies and the first omitted. */
  function Enriched(x: OpenItem, e: Event): OpenItem {
    match x.kind
    case TextKind => if x.name == "" then x.(name := e.name) else x
    case ToolKind => if x.parent == "" then x.(parent := e.parentMessageId) else x
    case _ => x
  }

  predicate CanOpen(e: Event) { ChunkId(e) != "" && (e.typ.ToolCallChunk? ==> e.toolCallName != "") }

  function Opened(e: Event): OpenItem {
    match e.typ
    case ToolCallChunk => OpenItem(ToolKind, e.toolCallId, "", e.toolCallName, e.parentMessageId)
    case ReasoningMessageChunk => OpenItem(ReasoningKind, e.messageId, "", "", "")
    case _ => OpenItem(TextKind, e.messageId, if e.role == "" then "assistant" else e.role, e.name, "")
  }

  /** One event: the open item afterwards and what comes out, or None for a breach that ends the stream. */
  function Feed(x: OpenItem, e: Event): Option<(OpenItem, seq<Event>)> {
    if e.typ.Raw? then Some((x, [e]))
    else if !IsChunk(e) then Some((CLOSED, Closing(x) + [e]))
    else if Continues(x, e) then
      if Conflicts(x, e) then None else Some((Enriched(x, e), Contents(x, e)))
    else if !CanOpen(e) then None
    else Some((Opened(e), Closing(x) + [StartEvent(Opened(e))] + Contents(Opened(e), e)))
  }

  /** A whole stream, up to the first breach. */
  function FeedAll(es: seq<Event>): Option<(OpenItem, seq<Event>)> {
    if es == [] then Some((CLOSED, []))
    else
      match FeedAll(es[..|es| - 1])
      case None => None
      case Some((x, out)) =>
        match Feed(x, es[|es| - 1])
        case None => None
        case Some((x', more)) => Some((x', out + more))
  }

  // ----- the program -----

  class Expander {
    var kind: Kind
    var id: string
    var role: string
    var name: string
    var parent: string

    ghost function State(): OpenItem
      reads this
    {
      OpenItem(kind, id, role, name, parent)
    }

    constructor ()
      ensures State() == CLOSED
    {
      kind, id, role, name, parent := Idle, "", "", "", "";
    }

    method Set(x: OpenItem)
      modifies this
      ensures State() == x
    {
      kind, id, role, name, parent := x.kind, x.id, x.role, x.name, x.parent;
    }

    /** Expands one event; None reports a breach the stream cannot continue past. */
    method FeedEvent(e: Event) returns (out: Option<seq<Event>>)
      modifies this
      ensures match Feed(old(State()), e)
              case None => out.None?
              case Some((x, es)) => out == Some(es) && State() == x
    {
      match e.typ {
        case TextMessageChunk =>
          out := FeedText(e);
        case ToolCallChunk =>
          out := FeedTool(e);
        case ReasoningMessageChunk =>
          out := FeedReasoning(e);
        case Raw =>
          out := Some([e]);
        case _ =>
          var closing := Close();
          out := Some(closing + [e]);
      }
    }

    method FeedText(e: Event) returns (out: Option<seq<Event>>)
      requires e.typ.TextMessageChunk?
      modifies this
      ensures match Feed(old(State()), e)
              case None => out.None?
              case Some((x, es)) => out == Some(es) && State() == x
    {
      if kind == TextKind && (e.messageId == "" || e.messageId == id) {
        if e.role != "" && e.role != role {
          return None;
        }
        if e.name != "" && name != "" && e.name != name {
          return None;
        }
        if name == "" {
          name := e.name;
        }
        var more := Content(e);
        return Some(more);
      }
      var closing := Close();
      if e.messageId == "" {
        return None;
      }
      var r := e.role;
      if r == "" {
        r := "assistant";
      }
      Set(OpenItem(TextKind, e.messageId, r, e.name, ""));
      var start := Blank(TextMessageStart).(messageId := e.messageId, role := r, name := e.name, chunked := true);
      var more := Content(e);
      out := Some(closing + [start] + more);
    }

    method FeedReasoning(e: Event) returns (out: Option<seq<Event>>)
      requires e.typ.ReasoningMessageChunk?
      modifies this
      ensures match Feed(old(State()), e)
              case None => out.None?
              case Some((x, es)) => out == Some(es) && State() == x
    {
      if kind == ReasoningKind && (e.messageId == "" || e.messageId == id) {
        var more := Content(e);
        return Some(more);
      }
      var closing := Close();
      if e.messageId == "" {
        return None;
      }
      Set(OpenItem(ReasoningKind, e.messageId, "", "", ""));
      var start := Blank(ReasoningMessageStart).(messageId := e.messageId, role := "reasoning", chunked := true);
      var more := Content(e);
      out := Some(closing + [start] + more);
    }

    method FeedTool(e: Event) returns (out: Option<seq<Event>>)
      requires e.typ.ToolCallChunk?
      modifies this
      ensures match Feed(old(State()), e)
              case None => out.None?
              case Some((x, es)) => out == Some(es) && State() == x
    {
      if kind == ToolKind && (e.toolCallId == "" || e.toolCallId == id) {
        if e.toolCallName != "" && e.toolCallName != name {
          return None;
        }
        if e.parentMessageId != "" && parent != "" && e.parentMessageId != parent {
          return None;
        }
        if parent == "" {
          parent := e.parentMessageId;
        }
        var more := Content(e);
        return Some(more);
      }
      var closing := Close();
      if e.toolCallId == "" || e.toolCallName == "" {
        return None;
      }
      Set(OpenItem(ToolKind, e.toolCallId, "", e.toolCallName, e.parentMessageId));
      var start := Blank(ToolCallStart).(toolCallId := e.toolCallId, toolCallName := e.toolCallName,
                                         parentMessageId := e.parentMessageId, chunked := true);
      var more := Content(e);
      out := Some(closing + [start] + more);
    }

    /** The CONTENT/ARGS event a chunk stands for: none for a chunk without a delta. */
    method Content(e: Event) returns (out: seq<Event>)
      ensures out == Contents(State(), e)
    {
      if e.delta.None? {
        return [];
      }
      out := [ContentEvent(kind, id, e.delta.value)];
    }

    /** Ends the open chunked item, if any. */
    method Close() returns (out: seq<Event>)
      modifies this
      ensures out == Closing(old(State())) && State() == CLOSED
    {
      out := [];
      if kind != Idle {
        out := [EndEvent(kind, id)];
      }
      Set(CLOSED);
    }
  }

  // ----- expansion preserves meaning -----

  lemma FeedSnoc(es: seq<Event>, e: Event)
    requires FeedAll(es + [e]).Some?
    ensures FeedAll(es).Some? && Feed(FeedAll(es).value.0, e).Some?
    ensures FeedAll(es + [e]).value == (Feed(FeedAll(es).value.0, e).value.0,
                                        FeedAll(es).value.1 + Feed(FeedAll(es).value.0, e).value.1)
  {
    assert (es + [e])[..|es|] == es;
  }

  predicate AsDecoded(es: seq<Event>) { forall i | 0 <= i < |es| :: !es[i].chunked }

  const IsPassed := (e: Event) => !e.chunked
  const NotChunk := (e: Event) => !IsChunk(e)

  /** Events that are not chunks come out unchanged and in order, and nothing else that is not synthesized does. */
  lemma {:induction false} OthersPassThrough(es: seq<Event>)
    requires AsDecoded(es) && FeedAll(es).Some?
    ensures Filter(IsPassed, FeedAll(es).value.1) == Filter(NotChunk, es)
  {
    if es != [] {
      var front, e := es[..|es| - 1], es[|es| - 1];
      assert es == front + [e];
      FeedSnoc(front, e);
      OthersPassThrough(front);
      var (x, out) := FeedAll(front).value;
      var more := Feed(x, e).value.1;
      FilterConcat(IsPassed, out, more);
      FilterConcat(NotChunk, front, [e]);
      StepPasses(x, e);
    }
  }

  lemma StepPasses(x: OpenItem, e: Event)
    requires !e.chunked && Feed(x, e).Some?
    ensures Filter(IsPassed, Feed(x, e).value.1) == Filter(NotChunk, [e])
  {
    hide Enriched, Conflicts, CanOpen, Continues;
    var more := Feed(x, e).value.1;
    if IsChunk(e) {
      NonePassed(more);
      assert Filter(NotChunk, [e]) == [];
    } else if e.typ.Raw? {
      assert more == [e];
    } else {
      FilterConcat(IsPassed, Closing(x), [e]);
      NonePassed(Closing(x));
    }
  }

  lemma {:induction false} NonePassed(es: seq<Event>)
    requires forall i | 0 <= i < |es| :: es[i].chunked
    ensures Filter(IsPassed, es) == []
  {
    if es != [] {
      NonePassed(es[1..]);
    }
  }

  function NextTarget(before: Option<(Kind, string)>, e: Event): Option<(Kind, string)> {
    if e.typ.Raw? then before
    else if !IsChunk(e) then None
    else if ChunkId(e) != "" then Some((KindOf(e), ChunkId(e)))
    else before
  }

  /** Which item a chunk belongs to: the one it names, else the one the chunks before it opened. Any other
      event but RAW ends that item. */
  function Target(es: seq<Event>): Option<(Kind, string)> {
    if es == [] then None else NextTarget(Target(es[..|es| - 1]), es[|es| - 1])
  }

  function DeltaFor(target: Option<(Kind, string)>, e: Event): seq<(Kind, string, string)> {
    if IsChunk(e) && e.delta.Some? && target.Some? then [(target.value.0, target.value.1, e.delta.value)] else []
  }

  /** Every chunk delta with the item it belongs to, in order. */
  function ChunkDeltas(es: seq<Event>): seq<(Kind, string, string)> {
    if es == [] then [] else ChunkDeltas(es[..|es| - 1]) + DeltaFor(Target(es), es[|es| - 1])
  }

  /** What one synthesized content event carries. */
  function Carried(e: Event): seq<(Kind, string, string)> {
    if !e.chunked || e.delta.None? then []
    else
      match e.typ
      case TextMessageContent => [(TextKind, e.messageId, e.delta.value)]
      case ToolCallArgs => [(ToolKind, e.toolCallId, e.delta.value)]
      case ReasoningMessageContent => [(ReasoningKind, e.messageId, e.delta.value)]
      case _ => []
  }

  function CarriedAll(es: seq<Event>): seq<(Kind, string, string)> {
    if es == [] then [] else Carried(es[0]) + CarriedAll(es[1..])
  }

  lemma {:induction false} CarriedConcat(a: seq<Event>, b: seq<Event>)
    ensures CarriedAll(a + b) == CarriedAll(a) + CarriedAll(b)
  {
    if a == [] {
      assert a + b == b;
    } else {
      assert (a + b)[1..] == a[1..] + b;
      CarriedConcat(a[1..], b);
    }
  }

  ghost predicate Tracks(x: OpenItem, target: Option<(Kind, string)>) {
    if x.kind.Idle? then target.None? else target == Some((x.kind, x.id))
  }

  /** Each chunk delta comes out exactly once, in order, under the item it belongs to. */
  lemma {:induction false} DeltasPreserved(es: seq<Event>)
    requires AsDecoded(es) && FeedAll(es).Some?
    ensures Tracks(FeedAll(es).value.0, Target(es))
    ensures CarriedAll(FeedAll(es).value.1) == ChunkDeltas(es)
  {
    if es != [] {
      hide Feed, NextTarget, DeltaFor;
      var front, e := es[..|es| - 1], es[|es| - 1];
      assert es == front + [e];
      FeedSnoc(front, e);
      DeltasPreserved(front);
      var (x, out) := FeedAll(front).value;
      CarriedConcat(out, Feed(x, e).value.1);
      StepTracks(x, Target(front), e);
      StepCarries(x, Target(front), e);
    }
  }

  lemma StepTracks(x: OpenItem, before: Option<(Kind, string)>, e: Event)
    requires Feed(x, e).Some? && Tracks(x, before)
    ensures Tracks(Feed(x, e).value.0, NextTarget(before, e))
  {
  }

  lemma StepCarries(x: OpenItem, before: Option<(Kind, string)>, e: Event)
    requires !e.chunked && Feed(x, e).Some? && Tracks(x, before)
    ensures CarriedAll(Feed(x, e).value.1) == DeltaFor(NextTarget(before, e), e)
  {
    hide CarriedAll, Carried, Closing, Contents, StartEvent;
    CarriedAround(x);
    if e.typ.Raw? {
      CarriedOne(e);
    } else if !IsChunk(e) {
      CarriedConcat(Closing(x), [e]);
      CarriedOne(e);
    } else if Continues(x, e) {
      CarriedContents(x, e);
    } else {
      OpeningCarries(x, Opened(e), e);
    }
  }

  lemma OpeningCarries(x: OpenItem, y: OpenItem, e: Event)
    requires !y.kind.Idle?
    ensures CarriedAll(Closing(x) + [StartEvent(y)] + Contents(y, e)) ==
            if e.delta.None? then [] else [(y.kind, y.id, e.delta.value)]
  {
    hide CarriedAll, Carried, Closing, StartEvent, Contents;
    CarriedAround(x);
    CarriedAround(y);
    CarriedConcat(Closing(x) + [StartEvent(y)], Contents(y, e));
    CarriedConcat(Closing(x), [StartEvent(y)]);
    CarriedContents(y, e);
  }

  lemma CarriedOne(e: Event)
    ensures CarriedAll([e]) == Carried(e)
    ensures !e.chunked ==> CarriedAll([e]) == []
  {
    assert [e][1..] == [];
  }

  lemma CarriedAround(x: OpenItem)
    ensures CarriedAll(Closing(x)) == [] && CarriedAll([StartEvent(x)]) == [] && CarriedAll([]) == []
  {
    CarriedOne(StartEvent(x));
    CarriedOne(EndEvent(x.kind, x.id));
  }

  lemma CarriedContents(x: OpenItem, e: Event)
    requires !x.kind.Idle?
    ensures CarriedAll(Contents(x, e)) == if e.delta.None? then [] else [(x.kind, x.id, e.delta.value)]
  {
    hide CarriedAll;
    CarriedAround(x);
    if e.delta.Some? {
      CarriedOne(ContentEvent(x.kind, x.id, e.delta.value));
      CarriedContent(x.kind, x.id, e.delta.value);
    }
  }

  lemma CarriedContent(kind: Kind, id: string, delta: string)
    requires !kind.Idle?
    ensures Carried(ContentEvent(kind, id, delta)) == [(kind, id, delta)]
  {
  }

  // ----- the shape of expanded streams -----

  /** A piece of an expanded stream: an event passed through, or one item's START, contents and END. */
  datatype Piece = Passed(e: Event) | Group(item: OpenItem, body: seq<Event>, ended: bool)

  /** Inside a group: contents of the group's own item, and RAW events. */
  predicate BodyOf(item: OpenItem, body: seq<Event>) {
    forall i | 0 <= i < |body| ::
      || body[i].typ.Raw?
      || (body[i].delta.Some? && body[i] == ContentEvent(item.kind, item.id, body[i].delta.value))
  }

  predicate WellFormed(p: Piece) {
    match p
    case Passed(e) => !e.chunked && !IsChunk(e)
    case Group(item, body, _) => !item.kind.Idle? && item.id != "" && BodyOf(item, body)
  }

  function Render(p: Piece): seq<Event> {
    match p
    case Passed(e) => [e]
    case Group(item, body, ended) =>
      [StartEvent(item)] + body + if ended then [EndEvent(item.kind, item.id)] else []
  }

  function RenderAll(ps: seq<Piece>): seq<Event> {
    if ps == [] then [] else RenderAll(ps[..|ps| - 1]) + Render(ps[|ps| - 1])
  }

  /** Only the last piece may be a group that has not ended. */
  predicate EndedBeforeLast(ps: seq<Piece>) {
    forall i | 0 <= i < |ps| - 1 :: ps[i].Group? ==> ps[i].ended
  }

  lemma RenderSnoc(ps: seq<Piece>, p: Piece)
    ensures RenderAll(ps + [p]) == RenderAll(ps) + Render(p)
  {
    assert (ps + [p])[..|ps|] == ps;
  }

  ghost predicate LastIsOpen(x: OpenItem, ps: seq<Piece>) {
    if x.kind.Idle? then ps == [] || ps[|ps| - 1].Passed? || ps[|ps| - 1].ended
    else
      && ps != [] && ps[|ps| - 1].Group? && !ps[|ps| - 1].ended
      && ps[|ps| - 1].item.kind == x.kind && ps[|ps| - 1].item.id == x.id
  }

  /** Every piece is well formed and only the last may lack its END. */
  predicate Shaped(ps: seq<Piece>) { (forall i | 0 <= i < |ps| :: WellFormed(ps[i])) && EndedBeforeLast(ps) }

  /** An accepted stream expands to passed events and START CONTENT* END groups of one item each, with only RAW
      between a group's events; a group lacks its END only at the end of the stream, while its item is open. */
  lemma {:induction false} ExpandsToGroups(es: seq<Event>) returns (ps: seq<Piece>)
    requires AsDecoded(es) && FeedAll(es).Some?
    ensures RenderAll(ps) == FeedAll(es).value.1 && Shaped(ps)
    ensures LastIsOpen(FeedAll(es).value.0, ps)
  {
    ps := [];
    if es != [] {
      hide Feed, Shaped, LastIsOpen, RenderAll;
      var front, e := es[..|es| - 1], es[|es| - 1];
      assert es == front + [e];
      FeedSnoc(front, e);
      ps := ExpandsToGroups(front);
      ps := StepShapes(FeedAll(front).value.0, ps, e);
    }
  }

  lemma StepShapes(x: OpenItem, ps: seq<Piece>, e: Event) returns (ps': seq<Piece>)
    requires !e.chunked && Feed(x, e).Some? && Shaped(ps) && LastIsOpen(x, ps)
    ensures RenderAll(ps') == RenderAll(ps) + Feed(x, e).value.1 && Shaped(ps')
    ensures LastIsOpen(Feed(x, e).value.0, ps')
  {
    hide RenderAll, Render, StartEvent, EndEvent, ContentEvent;
    if IsChunk(e) && Continues(x, e) {
      ContentsAreBody(ps[|ps| - 1].item, x, e);
      ps' := Extended(ps, Contents(x, e));
    } else if e.typ.Raw? && !x.kind.Idle? {
      assert BodyOf(ps[|ps| - 1].item, [e]);
      ps' := Extended(ps, [e]);
    } else {
      var qs := Ended(x, ps);
      var p := if IsChunk(e) then Group(Opened(e), Contents(Opened(e), e), false) else Passed(e);
      ContentsAreBody(Opened(e), Opened(e), e);
      RenderSnoc(qs, p);
      RenderPiece(p);
      ps' := qs + [p];
      assert RenderAll(ps) + Closing(x) + Render(p) == RenderAll(ps) + (Closing(x) + Render(p));
      if IsChunk(e) {
        var y := Opened(e);
        assert Closing(x) + [StartEvent(y)] + Contents(y, e) == Closing(x) + ([StartEvent(y)] + Contents(y, e));
      }
    }
  }

  lemma RenderPiece(p: Piece)
    ensures p.Passed? ==> Render(p) == [p.e]
    ensures p.Group? && !p.ended ==> Render(p) == [StartEvent(p.item)] + p.body
  {
  }

  lemma ContentsAreBody(item: OpenItem, x: OpenItem, e: Event)
    requires item.kind == x.kind && item.id == x.id
    ensures BodyOf(item, Contents(x, e))
  {
  }

  /** More content for the open group. */
  lemma Extended(ps: seq<Piece>, more: seq<Event>) returns (ps': seq<Piece>)
    requires Shaped(ps) && ps != [] && ps[|ps| - 1].Group? && !ps[|ps| - 1].ended
    requires BodyOf(ps[|ps| - 1].item, more)
    ensures RenderAll(ps') == RenderAll(ps) + more
    ensures Shaped(ps') && ps' != [] && ps'[|ps'| - 1].Group? && !ps'[|ps'| - 1].ended
    ensures ps'[|ps'| - 1].item == ps[|ps| - 1].item
  {
    hide Render, BodyOf, StartEvent, EndEvent, ContentEvent;
    var front, g := ps[..|ps| - 1], ps[|ps| - 1];
    var g' := g.(body := g.body + more);
    ps' := front + [g'];
    assert BodyOf(g.item, g.body) by { assert WellFormed(g); }
    OpenGroup(g, more);
    RenderSnoc(front, g');
    assert RenderAll(front) + (Render(g) + more) == RenderAll(front) + Render(g) + more;
  }

  lemma OpenGroup(g: Piece, more: seq<Event>)
    requires g.Group? && !g.ended && BodyOf(g.item, g.body) && BodyOf(g.item, more)
    ensures Render(g.(body := g.body + more)) == Render(g) + more
    ensures BodyOf(g.item, g.body + more)
    ensures Render(g.(ended := true)) == Render(g) + [EndEvent(g.item.kind, g.item.id)]
  {
  }

  /** The END of the open group, when there is one. */
  lemma Ended(x: OpenItem, ps: seq<Piece>) returns (ps': seq<Piece>)
    requires Shaped(ps) && LastIsOpen(x, ps)
    ensures RenderAll(ps') == RenderAll(ps) + Closing(x)
    ensures forall i | 0 <= i < |ps'| :: WellFormed(ps'[i]) && (ps'[i].Group? ==> ps'[i].ended)
  {
    hide Render, BodyOf, StartEvent, EndEvent, ContentEvent;
    ps' := ps;
    if !x.kind.Idle? {
      var front, g := ps[..|ps| - 1], ps[|ps| - 1];
      ps' := front + [g.(ended := true)];
      assert BodyOf(g.item, g.body) by { assert WellFormed(g); }
      OpenGroup(g, g.body);
      RenderSnoc(front, g.(ended := true));
      assert RenderAll(front) + (Render(g) + Closing(x)) == RenderAll(front) + Render(g) + Closing(x);
    } else {
      assert RenderAll(ps) + [] == RenderAll(ps);
    }
  }
}
