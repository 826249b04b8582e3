/** What opens an item in a stream with chunks, and which streams are refused, read from the input events alone. */
module ChunkOpenings {
  import opened Prelude
  import opened Events
  import opened ChunkExpander

  /** The opening fields of an item, and the type of the event that opens it. */
  datatype Start = Start(typ: EventType, id: string, role: string, name: string, parent: string)

  function FieldId(e: Event): string { if e.typ.ToolCallChunk? then e.toolCallId else e.messageId }

  /** A chunk belongs to the item an earlier chunk opened: same type, and no id or the same. */
  predicate Joins(opener: Event, e: Event) {
    IsChunk(e) && e.typ == opener.typ && (FieldId(e) == "" || FieldId(e) == FieldId(opener))
  }

  /** The position of the chunk that opened the item still open at the end. RAW events do not end an item. */
  function Opener(es: seq<Event>): (o: Option<nat>)
    ensures o.Some? ==> o.value < |es| && IsChunk(es[o.value])
  {
    if es == [] then None
    else
      var e, before := es[|es| - 1], Opener(es[..|es| - 1]);
      if e.typ.Raw? then before
      else if !IsChunk(e) then None
      else if before.Some? && Joins(es[before.value], e) then before
      else Some(|es| - 1)
  }

  /** The START a chunk that opens an item stands for. */
  function StartOf(e: Event): Start {
    if e.typ.ToolCallChunk? then Start(ToolCallStart, e.toolCallId, "", e.toolCallName, e.parentMessageId)
    else if e.typ.ReasoningMessageChunk? then Start(ReasoningMessageStart, e.messageId, "reasoning", "", "")
    else Start(TextMessageStart, e.messageId, if e.role == "" then "assistant" else e.role, e.name, "")
  }

  /** The opening fields of exactly the chunks that open an item, in order. */
  function Openings(es: seq<Event>): seq<Start> {
    if es == [] then []
    else Openings(es[..|es| - 1]) + if Opener(es) == Some(|es| - 1) then [StartOf(es[|es| - 1])] else []
  }

  /** The START events that were synthesized. */
  function Started(e: Event): seq<Start> {
    if !e.chunked then []
    else if e.typ.ToolCallStart? then [Start(e.typ, e.toolCallId, e.role, e.toolCallName, e.parentMessageId)]
    else if e.typ.TextMessageStart? || e.typ.ReasoningMessageStart? then
      [Start(e.typ, e.messageId, e.role, e.name, e.parentMessageId)]
    else []
  }

  function StartedAll(es: seq<Event>): seq<Start> {
    if es == [] then [] else StartedAll(es[..|es| - 1]) + Started(es[|es| - 1])
  }

  // ----- refused streams -----

  predicate LacksOpening(e: Event) {
    FieldId(e) == "" || (e.typ.ToolCallChunk? && e.toolCallName == "")
  }

  /** A chunk of the item opened at o gives this value for a field given once. */
  predicate Gives(es: seq<Event>, o: nat, i: nat, field: Event -> string, value: string) {
    o <= i < |es| && IsChunk(es[i]) && field(es[i]) == value
  }

  const NameOf := (e: Event) => e.name
  const ParentOf := (e: Event) => e.parentMessageId

  /** The chunk repeats an opening field of its item, opened at o, with another value. */
  ghost predicate Disagrees(es: seq<Event>, o: nat, e: Event)
    requires o < |es|
  {
    if e.typ.TextMessageChunk? then
      || (e.role != "" && e.role != StartOf(es[o]).role)
      || (e.name != "" && exists i, s :: s != "" && s != e.name && Gives(es, o, i, NameOf, s))
    else
      && e.typ.ToolCallChunk?
      && (|| (e.toolCallName != "" && e.toolCallName != es[o].toolCallName)
          || (e.parentMessageId != ""
              && exists i, s :: s != "" && s != e.parentMessageId && Gives(es, o, i, ParentOf, s)))
  }

  /** The event after es cannot be expanded. */
  ghost predicate BreachAfter(es: seq<Event>, e: Event) {
    && IsChunk(e)
    && var o := Opener(es);
       if o.Some? && Joins(es[o.value], e) then Disagrees(es, o.value, e) else LacksOpening(e)
  }

  // ----- the expander's item is the input's -----

  /** The value, if any, is the one the item's chunks give for the field. */
  ghost predicate FirstGiven(es: seq<Event>, o: nat, field: Event -> string, value: string) {
    && (value != "" ==> exists i :: Gives(es, o, i, field, value))
    && forall i, s :: Gives(es, o, i, field, s) ==> s == "" || s == value
  }

  /** The item has the fields its opener f gives, or the first value its chunks from o on give. */
  ghost predicate MirrorsAt(x: OpenItem, f: Event, es: seq<Event>, o: nat) {
    && FieldId(f) != "" && x.id == FieldId(f)
    && (if f.typ.TextMessageChunk? then
          x.kind == TextKind && x.role == StartOf(f).role && FirstGiven(es, o, NameOf, x.name)
        else if f.typ.ToolCallChunk? then
          x.kind == ToolKind && x.name == f.toolCallName && FirstGiven(es, o, ParentOf, x.parent)
        else x.kind == ReasoningKind)
  }

  ghost predicate Mirrors(x: OpenItem, es: seq<Event>) {
    match Opener(es)
    case None => x == CLOSED
    case Some(o) => MirrorsAt(x, es[o], es, o)
  }

  lemma OpenerSnoc(es: seq<Event>, e: Event)
    ensures Opener(es + [e]) ==
            if e.typ.Raw? then Opener(es)
            else if !IsChunk(e) then None
            else if Opener(es).Some? && Joins(es[Opener(es).value], e) then Opener(es)
            else Some(|es|)
  {
    assert (es + [e])[..|es|] == es;
  }

  lemma MoreGiven(es: seq<Event>, e: Event, o: nat, field: Event -> string, value: string)
    requires o < |es| && FirstGiven(es, o, field, value)
    ensures !IsChunk(e) || field(e) == "" || field(e) == value ==> FirstGiven(es + [e], o, field, value)
    ensures IsChunk(e) && value == "" ==> FirstGiven(es + [e], o, field, field(e))
  {
    var all := es + [e];
    assert forall i: nat, s | i < |es| :: Gives(all, o, i, field, s) <==> Gives(es, o, i, field, s);
    if value != "" {
      var i :| Gives(es, o, i, field, value);
      assert Gives(all, o, i, field, value);
    }
    if IsChunk(e) {
      assert Gives(all, o, |es|, field, field(e));
    }
  }

  lemma OnlyGiven(es: seq<Event>, e: Event, field: Event -> string)
    requires IsChunk(e)
    ensures FirstGiven(es + [e], |es|, field, field(e))
  {
    assert Gives(es + [e], |es|, |es|, field, field(e));
  }

  lemma StepMirrors(x: OpenItem, es: seq<Event>, e: Event)
    requires Mirrors(x, es) && Feed(x, e).Some?
    ensures Mirrors(Feed(x, e).value.0, es + [e])
  {
    hide FirstGiven, Mirrors, Opener, Enriched, Opened, Conflicts, CanOpen, Contents, Closing, StartEvent;
    OpenerSnoc(es, e);
    ContinuesJoins(x, es, e);
    if e.typ.Raw? {
      RawMirrors(x, es, e);
    } else if !IsChunk(e) {
      assert Mirrors(CLOSED, es + [e]) by { ClosedMirrors(es + [e]); }
    } else if Continues(x, e) {
      ContinuedMirrors(x, es, e);
    } else {
      OpenedMirrors(es, e);
    }
  }

  lemma ClosedMirrors(es: seq<Event>)
    requires Opener(es).None?
    ensures Mirrors(CLOSED, es)
  {
  }

  lemma RawMirrors(x: OpenItem, es: seq<Event>, e: Event)
    requires Mirrors(x, es) && e.typ.Raw? && Opener(es + [e]) == Opener(es)
    ensures Mirrors(x, es + [e])
  {
    hide FirstGiven, Opener;
    if x.kind.TextKind? {
      MoreGiven(es, e, Opener(es).value, NameOf, x.name);
    } else if x.kind.ToolKind? {
      MoreGiven(es, e, Opener(es).value, ParentOf, x.parent);
    }
  }

  lemma ContinuedMirrors(x: OpenItem, es: seq<Event>, e: Event)
    requires Mirrors(x, es) && Continues(x, e) && !Conflicts(x, e)
    requires Opener(es).Some? && Opener(es + [e]) == Opener(es)
    ensures Mirrors(Enriched(x, e), es + [e])
  {
    hide FirstGiven, Opener;
    if x.kind.TextKind? {
      MoreGiven(es, e, Opener(es).value, NameOf, x.name);
    } else if x.kind.ToolKind? {
      MoreGiven(es, e, Opener(es).value, ParentOf, x.parent);
    }
  }

  lemma OpenedMirrors(es: seq<Event>, e: Event)
    requires IsChunk(e) && CanOpen(e) && Opener(es + [e]) == Some(|es|)
    ensures Mirrors(Opened(e), es + [e])
  {
    hide FirstGiven, Opener, MirrorsAt, CanOpen, Opened;
    assert (es + [e])[|es|] == e;
    OnlyGiven(es, e, NameOf);
    OnlyGiven(es, e, ParentOf);
    OpenedAt(es + [e], e, |es|);
  }

  lemma OpenedAt(es: seq<Event>, e: Event, o: nat)
    requires IsChunk(e) && CanOpen(e) && FirstGiven(es, o, NameOf, e.name)
    requires FirstGiven(es, o, ParentOf, e.parentMessageId)
    ensures MirrorsAt(Opened(e), e, es, o)
  {
    hide FirstGiven;
  }

  lemma StepBreaches(x: OpenItem, es: seq<Event>, e: Event)
    requires Mirrors(x, es)
    ensures Feed(x, e).None? <==> BreachAfter(es, e)
  {
    var o := Opener(es);
    if o.Some? && IsChunk(e) && Joins(es[o.value], e) {
      if x.kind.TextKind? {
        AnotherGiven(es, o.value, NameOf, x.name, e.name);
      } else if x.kind.ToolKind? {
        AnotherGiven(es, o.value, ParentOf, x.parent, e.parentMessageId);
      }
    }
  }

  lemma AnotherGiven(es: seq<Event>, o: nat, field: Event -> string, value: string, other: string)
    requires FirstGiven(es, o, field, value)
    ensures (exists i, s :: s != "" && s != other && Gives(es, o, i, field, s)) <==> value != "" && value != other
  {
    if value != "" && value != other {
      var i :| Gives(es, o, i, field, value);
    }
  }

  lemma {:induction false} StreamMirrors(es: seq<Event>)
    requires FeedAll(es).Some?
    ensures Mirrors(FeedAll(es).value.0, es)
  {
    hide Feed, Mirrors;
    if es == [] {
      assert Mirrors(CLOSED, []) by { NothingOpen(); }
    } else {
      var front, e := es[..|es| - 1], es[|es| - 1];
      assert es == front + [e];
      FeedSnoc(front, e);
      StreamMirrors(front);
      StepMirrors(FeedAll(front).value.0, front, e);
    }
  }

  lemma NothingOpen()
    ensures Mirrors(CLOSED, [])
  {
  }

  /** A stream is refused exactly when some chunk opens an item without the id or tool name it needs, or repeats an
      opening field of its item with another value. */
  lemma {:induction false} RefusedExactly(es: seq<Event>)
    ensures FeedAll(es).None? <==> exists k: nat :: k < |es| && BreachAfter(es[..k], es[k])
  {
    hide Feed, BreachAfter;
    if es != [] {
      var n := |es| - 1;
      RefusedExactly(es[..n]);
      forall k: nat | k < n ensures BreachAfter(es[..n][..k], es[..n][k]) <==> BreachAfter(es[..k], es[k]) {
        assert es[..n][..k] == es[..k];
      }
      if FeedAll(es[..n]).Some? {
        StreamMirrors(es[..n]);
        StepBreaches(FeedAll(es[..n]).value.0, es[..n], es[n]);
      }
    }
  }

  // ----- the starts in the output -----

  lemma {:induction false} StartedConcat(a: seq<Event>, b: seq<Event>)
    ensures StartedAll(a + b) == StartedAll(a) + StartedAll(b)
  {
    hide Started;
    if b == [] {
      assert a + b == a;
    } else {
      var front := b[..|b| - 1];
      assert (a + b)[..|a + b| - 1] == a + front;
      StartedConcat(a, front);
      Assoc(StartedAll(a), StartedAll(front), Started(b[|b| - 1]));
    }
  }

  lemma StartedOne(e: Event)
    ensures StartedAll([e]) == Started(e) && StartedAll([]) == []
  {
    assert [e][..0] == [];
  }

  lemma StartedAround(x: OpenItem, e: Event)
    ensures StartedAll(Closing(x)) == [] && StartedAll(Contents(x, e)) == []
  {
    NoStarts(x.kind, x.id, if e.delta.Some? then e.delta.value else "");
    hide Started, EndEvent, ContentEvent, StartedAll;
    StartedOne(EndEvent(x.kind, x.id));
    if e.delta.Some? {
      StartedOne(ContentEvent(x.kind, x.id, e.delta.value));
    }
  }

  lemma NoStarts(kind: Kind, id: string, delta: string)
    ensures Started(EndEvent(kind, id)) == [] && Started(ContentEvent(kind, id, delta)) == []
  {
  }

  lemma StepStarts(x: OpenItem, es: seq<Event>, e: Event)
    requires !e.chunked && Mirrors(x, es) && Feed(x, e).Some?
    ensures StartedAll(Feed(x, e).value.1) == if Opener(es + [e]) == Some(|es|) then [StartOf(e)] else []
  {
    hide StartedAll, Started, Mirrors, Continues, Conflicts, Enriched, CanOpen, Joins, Opener, Closing, Contents;
    hide StartEvent, Opened;
    OpenerSnoc(es, e);
    ContinuesJoins(x, es, e);
    StartedAround(x, e);
    StartedOne(e);
    NotSynthesized(e);
    if !e.typ.Raw? && !IsChunk(e) {
      StartedConcat(Closing(x), [e]);
    } else if IsChunk(e) && !Continues(x, e) {
      OpeningStarts(x, e);
    }
  }

  lemma ContinuesJoins(x: OpenItem, es: seq<Event>, e: Event)
    requires Mirrors(x, es)
    ensures Continues(x, e) <==> Opener(es).Some? && Joins(es[Opener(es).value], e)
  {
    hide FirstGiven, Opener;
  }

  lemma NotSynthesized(e: Event)
    requires !e.chunked
    ensures Started(e) == []
  {
  }

  lemma OpeningStart(e: Event)
    requires IsChunk(e)
    ensures Started(StartEvent(Opened(e))) == [StartOf(e)]
  {
  }

  lemma OpeningStarts(x: OpenItem, e: Event)
    requires IsChunk(e)
    ensures StartedAll(Closing(x) + [StartEvent(Opened(e))] + Contents(Opened(e), e)) == [StartOf(e)]
  {
    var y := Opened(e);
    OpeningStart(e);
    hide StartedAll, Started, Closing, Contents, StartEvent, Opened, StartOf;
    StartedAround(x, e);
    StartedAround(y, e);
    StartedOne(StartEvent(y));
    StartedConcat(Closing(x) + [StartEvent(y)], Contents(y, e));
    StartedConcat(Closing(x), [StartEvent(y)]);
  }

  /** The STARTs that come out of an accepted stream carry, in order, the type, id, role, name and parent of exactly
      the chunks that open an item. */
  lemma {:induction false} StartsAreOpenings(es: seq<Event>)
    requires AsDecoded(es) && FeedAll(es).Some?
    ensures StartedAll(FeedAll(es).value.1) == Openings(es)
  {
    hide Feed, Mirrors, Opener, Started;
    if es != [] {
      var front, e := es[..|es| - 1], es[|es| - 1];
      assert es == front + [e];
      FeedSnoc(front, e);
      StartsAreOpenings(front);
      var (x, out) := FeedAll(front).value;
      StreamMirrors(front);
      StepStarts(x, front, e);
      StartedConcat(out, Feed(x, e).value.1);
    }
  }
}
