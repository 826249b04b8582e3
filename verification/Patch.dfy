/** The patch engine: RFC 6902 operations carried out by editing containers in place. */
module JsonPatch {
  import opened Prelude
  import opened JsonPointer
  import opened JsonDocument
  import opened JsonShapes

  /** The value a pointer resolves to, walking the containers. */
  method Resolve(p: Pointer, doc: Value, ghost t: Shape) returns (r: Option<Value>)
    requires Live(t) && Root(t) == doc
    ensures r == match Sub(t, p) case None => None case Some(c) => Some(Root(c))
  {
    var v := doc;
    ghost var cur := t;
    for i := 0 to |p|
      invariant Live(cur) && Root(cur) == v
      invariant Sub(t, p) == Sub(cur, p[i..])
    {
      var tok := p[i];
      assert p[i..][1..] == p[i + 1..];
      match v {
        case MapRef(node) =>
          if tok !in node.m {
            return None;
          }
          v := node.m[tok];
        case Slice(node) =>
          var n := ArrayIndex(tok, node.Length, false);
          if n.None? {
            return None;
          }
          v := node[n.value];
        case Scalar(_) =>
          return None;
      }
      cur := Kid(cur, tok).value;
    }
    r := Some(v);
  }

  /** `node[k] = v` on the map that sits at `front` of the document. */
  method StoreMember(node: MapNode, k: string, v: Value, ghost t: Shape, ghost front: Pointer, ghost s: Shape)
    requires Tree(t) && Sub(t, front).Some? && Sub(t, front).value.MapShape? && Sub(t, front).value.o == node
    requires Live(s) && Root(s) == v && node !in Nodes(s)
    modifies node
    ensures Live(Graft(t, front, MapShape(node, Sub(t, front).value.members[k := s])))
    ensures Root(Graft(t, front, MapShape(node, Sub(t, front).value.members[k := s]))) == Root(t)
  {
    SkipMore(t, {node});
    SubLive(t, front);
    ContainerHolds(Sub(t, front).value);
    node.m := node.m[k := v];
    MemberStored(t, front, k, s);
  }

  /** `node[i] = v` on the array that sits at `front` of the document. */
  method StoreItem(node: array<Value>, i: nat, v: Value, ghost t: Shape, ghost front: Pointer, ghost s: Shape)
    requires Tree(t) && Sub(t, front).Some? && Sub(t, front).value.ArrShape? && Sub(t, front).value.a == node
    requires i < node.Length && |Sub(t, front).value.items| == node.Length
    requires Live(s) && Root(s) == v && node !in Nodes(s)
    modifies node
    ensures Live(Graft(t, front, ArrShape(node, Sub(t, front).value.items[i := s])))
    ensures Root(Graft(t, front, ArrShape(node, Sub(t, front).value.items[i := s]))) == Root(t)
  {
    SkipMore(t, {node});
    SubLive(t, front);
    ContainerHolds(Sub(t, front).value);
    node[i] := v;
    ItemStored(t, front, i, s);
  }

  /** Replaces the value at an existing path by writing it into its parent. */
  method SetAt(doc: Value, p: Pointer, v: Value, ghost t: Shape, ghost s: Shape) returns (r: Value)
    requires Tree(t) && Root(t) == doc && Sub(t, p).Some?
    requires Live(s) && Root(s) == v && Nodes(s) !! Nodes(t) - Nodes(Sub(t, p).value)
    modifies Nodes(t) - Nodes(Sub(t, p).value)
    ensures Live(Graft(t, p, s)) && Root(Graft(t, p, s)) == r
  {
    if |p| == 0 {
      return v;
    }
    var front, last := p[..|p| - 1], p[|p| - 1];
    assert p == front + [last];
    SubConcat(t, front, last);
    SubLive(t, front);
    SubNodes(t, front);
    GraftParent(t, front, last, s);
    NodesAllocated(t);
    NodesAllocated(s);
    var parent := Resolve(front, doc, t);
    match parent.value {
      case MapRef(node) =>
        assert node in Nodes(t) - Nodes(Sub(t, p).value);
        StoreMember(node, last, v, t, front, s);
      case Slice(node) =>
        var i := ArrayIndex(last, node.Length, false);
        assert node in Nodes(t) - Nodes(Sub(t, p).value);
        StoreItem(node, i.value, v, t, front, s);
      case Scalar(_) =>
    }
    r := doc;
  }

  /** The map case of AddAt. */
  method AddMember(doc: Value, node: MapNode, last: string, v: Value, ghost t: Shape, ghost front: Pointer,
                   ghost s: Shape)
    returns (ghost t': Shape)
    requires Tree(t) && Root(t) == doc && Tree(s) && Root(s) == v && Nodes(s) !! Nodes(t)
    requires Sub(t, front).Some? && Sub(t, front).value.MapShape? && Sub(t, front).value.o == node
    modifies node
    ensures Tree(t') && Root(t') == doc && Nodes(t') <= Nodes(t) + Nodes(s)
    ensures Add(Doc(t), front + [last], Doc(s)) == Some(Doc(t'))
  {
    ghost var P := Sub(t, front).value;
    SubNodes(t, front);
    MemberAdded(P, last, s);
    AddedInParent(t, front, last, s, MapShape(node, P.members[last := s]));
    t' := Graft(t, front, MapShape(node, P.members[last := s]));
    StoreMember(node, last, v, t, front, s);
  }

  /** A new array holding `elems`. */
  method MakeSlice(elems: seq<Value>) returns (a: array<Value>)
    ensures fresh(a) && a[..] == elems
  {
    a := new Value[|elems|](k requires 0 <= k < |elems| => elems[k]);
  }

  /** The array case of AddAt: a grown copy, written back in the array's place. */
  method AddItem(doc: Value, node: array<Value>, i: nat, last: string, v: Value,
                 front: Pointer, ghost t: Shape, ghost s: Shape)
    returns (r: Value, ghost t': Shape, ghost made: set<object>)
    requires Tree(t) && Root(t) == doc && Tree(s) && Root(s) == v && Nodes(s) !! Nodes(t)
    requires Sub(t, front).Some? && Sub(t, front).value.ArrShape? && Sub(t, front).value.a == node
    requires ArrayIndex(last, node.Length, true) == Some(i) && node.Length == |Sub(t, front).value.items|
    modifies Nodes(t)
    ensures Tree(t') && Root(t') == r && fresh(made) && Nodes(t') <= Nodes(t) + Nodes(s) + made
    ensures Add(Doc(t), front + [last], Doc(s)) == Some(Doc(t'))
  {
    hide Unshared, Doc;
    ghost var P := Sub(t, front).value;
    SubLive(t, front);
    ContainerHolds(P);
    NodesAllocated(t);
    NodesAllocated(s);
    var grown := MakeSlice(Grown(node[..], i, v));
    ghost var g := ArrShape(grown, Grown(P.items, i, s));
    GrownInPlace(t, front, last, i, s, grown);
    r := SetAt(doc, front, Slice(grown), t, g);
    t', made := Graft(t, front, g), {grown};
  }

  /** Adds `v` at `p`: a member set on a map, an element inserted into an array, or the whole document replaced. */
  method AddAt(doc: Value, p: Pointer, v: Value, ghost t: Shape, ghost s: Shape)
    returns (r: Option<Value>, ghost t': Shape, ghost made: set<object>)
    requires Tree(t) && Root(t) == doc && Tree(s) && Root(s) == v && Nodes(s) !! Nodes(t)
    modifies Nodes(t)
    ensures Add(Doc(t), p, Doc(s)) == if r.Some? then Some(Doc(t')) else None
    ensures fresh(made)
    ensures r.Some? ==> Tree(t') && Root(t') == r.value && Nodes(t') <= Nodes(t) + Nodes(s) + made
  {
    if |p| == 0 {
      return Some(v), s, {};
    }
    t', made := t, {};
    var front, last := p[..|p| - 1], p[|p| - 1];
    assert p == front + [last];
    AddFails(t, front, last, Doc(s));
    NodesAllocated(t);
    NodesAllocated(s);
    var parent := Resolve(front, doc, t);
    if parent.None? {
      return None, t, {};
    }
    SubLive(t, front);
    SubNodes(t, front);
    match parent.value {
      case MapRef(node) =>
        t' := AddMember(doc, node, last, v, t, front, s);
        r := Some(doc);
      case Slice(node) =>
        var i := ArrayIndex(last, node.Length, true);
        if i.None? {
          return None, t, {};
        }
        var d;
        d, t', made := AddItem(doc, node, i.value, last, v, front, t, s);
        r := Some(d);
      case Scalar(_) =>
        r := None;
    }
  }

  /** Removes the value at `p` and hands it over. */
  method RemoveAt(doc: Value, p: Pointer, ghost t: Shape)
    returns (r: Option<(Value, Value)>, ghost t': Shape, ghost gone: Shape, ghost made: set<object>)
    requires Tree(t) && Root(t) == doc
    modifies Nodes(t)
    ensures Remove(Doc(t), p) == if r.Some? then Some((Doc(t'), Doc(gone))) else None
    ensures fresh(made)
    ensures r.Some? ==> Tree(t') && Tree(gone) && r.value == (Root(t'), Root(gone))
    ensures r.Some? ==> Nodes(t') <= Nodes(t) + made && Nodes(gone) <= Nodes(t) && Nodes(t') !! Nodes(gone)
  {
    t', gone, made := t, t, {};
    if |p| == 0 {
      return None, t, t, {};
    }
    var front, last := p[..|p| - 1], p[|p| - 1];
    assert p == front + [last];
    RemoveFails(t, front, last);
    NodesAllocated(t);
    var parent := Resolve(front, doc, t);
    if parent.None? {
      return None, t, t, {};
    }
    SubLive(t, front);
    SubNodes(t, front);
    match parent.value {
      case MapRef(node) =>
        if last !in node.m {
          return None, t, t, {};
        }
        var v := node.m[last];
        t', gone := RemoveMember(doc, node, last, front, t);
        r := Some((doc, v));
      case Slice(node) =>
        var i := ArrayIndex(last, node.Length, false);
        if i.None? {
          return None, t, t, {};
        }
        var v := node[i.value];
        var d;
        d, t', gone, made := RemoveItem(doc, node, i.value, last, front, t);
        r := Some((d, v));
      case Scalar(_) =>
        return None, t, t, {};
    }
  }

  /** The map case of RemoveAt. */
  method RemoveMember(doc: Value, node: MapNode, last: string, front: Pointer, ghost t: Shape)
    returns (ghost t': Shape, ghost gone: Shape)
    requires Tree(t) && Root(t) == doc
    requires Sub(t, front).Some? && Sub(t, front).value.MapShape? && Sub(t, front).value.o == node
    requires last in Sub(t, front).value.members
    modifies node
    ensures Tree(t') && Tree(gone) && Root(t') == doc && gone == Sub(t, front).value.members[last]
    ensures Nodes(t') <= Nodes(t) && Nodes(gone) <= Nodes(t) && Nodes(t') !! Nodes(gone)
    ensures Remove(Doc(t), front + [last]) == Some((Doc(t'), Doc(gone)))
  {
    hide Unshared, Doc;
    ghost var P := Sub(t, front).value;
    gone := P.members[last];
    t' := Graft(t, front, MapShape(node, P.members - {last}));
    DroppedInPlace(t, front, last);
    assert Live(gone) by {
      SubLive(t, front);
    }
    NodesAllocated(gone);
    DropMember(node, last, t, front);
  }

  /** `delete(node, k)` on the map that sits at `front` of the document. */
  method DropMember(node: MapNode, k: string, ghost t: Shape, ghost front: Pointer)
    requires Tree(t) && Sub(t, front).Some? && Sub(t, front).value.MapShape? && Sub(t, front).value.o == node
    modifies node
    ensures Live(Graft(t, front, MapShape(node, Sub(t, front).value.members - {k})))
    ensures Root(Graft(t, front, MapShape(node, Sub(t, front).value.members - {k}))) == Root(t)
  {
    SkipMore(t, {node});
    SubLive(t, front);
    ContainerHolds(Sub(t, front).value);
    node.m := node.m - {k};
    MemberDropped(t, front, k);
  }

  /** The array case of RemoveAt: a shrunk copy, written back in the array's place. */
  method RemoveItem(doc: Value, node: array<Value>, i: nat, last: string, front: Pointer, ghost t: Shape)
    returns (r: Value, ghost t': Shape, ghost gone: Shape, ghost made: set<object>)
    requires Tree(t) && Root(t) == doc
    requires Sub(t, front).Some? && Sub(t, front).value.ArrShape? && Sub(t, front).value.a == node
    requires ArrayIndex(last, node.Length, false) == Some(i) && node.Length == |Sub(t, front).value.items|
    modifies Nodes(t)
    ensures Tree(t') && Tree(gone) && Root(t') == r && gone == Sub(t, front).value.items[i]
    ensures fresh(made) && Nodes(t') <= Nodes(t) + made && Nodes(gone) <= Nodes(t) && Nodes(t') !! Nodes(gone)
    ensures Remove(Doc(t), front + [last]) == Some((Doc(t'), Doc(gone)))
  {
    hide Unshared, Doc, Graft, Remove;
    ghost var P := Sub(t, front).value;
    SubLive(t, front);
    ContainerHolds(P);
    NodesAllocated(t);
    gone := P.items[i];
    var shrunk := MakeSlice(node[..i] + node[i + 1..]);
    ghost var g := ArrShape(shrunk, Shrunk(P.items, i));
    ShrunkInPlace(t, front, last, i, shrunk);
    r := SetAt(doc, front, Slice(shrunk), t, g);
    t', made := Graft(t, front, g), {shrunk};
  }

  /** Replaces the existing value at `p`: taken out, then added back at the same place. */
  method ReplaceAt(doc: Value, p: Pointer, v: Value, ghost t: Shape, ghost s: Shape)
    returns (r: Option<Value>, ghost t': Shape, ghost made: set<object>)
    requires Tree(t) && Root(t) == doc && Tree(s) && Root(s) == v && Nodes(s) !! Nodes(t)
    modifies Nodes(t)
    ensures r.Some? <==> Get(Doc(t), p).Some?
    ensures fresh(made)
    ensures r.Some? ==> Tree(t') && Root(t') == r.value && Nodes(t') <= Nodes(t) + Nodes(s) + made
    ensures r.Some? ==> Doc(t') == Put(Doc(t), p, Doc(s))
  {
    hide Unshared, Nodes, LiveApart, Doc, Sub;
    NodesAllocated(t);
    NodesAllocated(s);
    SubDoc(t, p);
    var cur := Resolve(p, doc, t);
    if cur.None? {
      return None, t, {};
    }
    if |p| == 0 {
      return Some(v), s, {};
    }
    RemoveAddIsPut(Doc(t), p, Doc(s));
    var removed, t1, gone, made1 := RemoveAt(doc, p, t);
    NodesAllocated(t1);
    r, t', made := AddAt(removed.value.0, p, v, t1, s);
    made := made + made1;
  }

  lemma EmptyMapShape(o: MapNode)
    requires o.m == map[]
    ensures Tree(MapShape(o, map[])) && Nodes(MapShape(o, map[])) == {o}
  {
  }

  lemma BlankShape(a: array<Value>, items: seq<Shape>)
    requires a.Length == |items| && forall i | 0 <= i < |items| :: a[i] == Scalar(Null) && items[i] == Leaf(Null)
    ensures Tree(ArrShape(a, items)) && Nodes(ArrShape(a, items)) == {a}
  {
  }

  lemma DocKeys(t: Shape)
    requires t.MapShape?
    ensures Doc(t).Obj? && Doc(t).members.Keys == t.members.Keys
  {
  }

  lemma MemberDoc(t: Shape, k: string)
    requires t.MapShape? && k in t.members
    ensures Doc(t).Obj? && k in Doc(t).members && Doc(t).members[k] == Doc(t.members[k])
  {
  }

  lemma SameMembers(u: Shape, t: Shape)
    requires u.MapShape? && t.MapShape? && CopiedMembers(u, t, {})
    ensures Doc(u) == Doc(t)
  {
    assert Doc(u).members == Doc(t).members;
  }

  lemma SameItems(u: Shape, t: Shape)
    requires u.ArrShape? && t.ArrShape? && |u.items| == |t.items|
    requires forall k | 0 <= k < |u.items| :: Doc(u.items[k]) == Doc(t.items[k])
    ensures Doc(u) == Doc(t)
  {
    assert Doc(u).items == Doc(t).items;
  }

  /** `out[k] = c` while a new map is being filled. */
  method FillMember(out: MapNode, k: string, c: Value, ghost u: Shape, ghost cs: Shape) returns (ghost u': Shape)
    requires Tree(u) && u.MapShape? && u.o == out && Tree(cs) && Root(cs) == c && Nodes(cs) !! Nodes(u)
    modifies out
    ensures u' == MapShape(out, u.members[k := cs]) && Tree(u') && Nodes(u') <= Nodes(u) + Nodes(cs)
  {
    MemberAdded(u, k, cs);
    StoreMember(out, k, c, u, [], cs);
    u' := MapShape(out, u.members[k := cs]);
  }

  /** `out[i] = c` while a new array is being filled. */
  method FillItem(out: array<Value>, i: nat, c: Value, ghost u: Shape, ghost cs: Shape) returns (ghost u': Shape)
    requires Tree(u) && u.ArrShape? && u.a == out && i < |u.items| && Tree(cs) && Root(cs) == c && Nodes(cs) !! Nodes(u)
    modifies out
    ensures u' == ArrShape(out, u.items[i := cs]) && Tree(u') && Nodes(u') <= Nodes(u) + Nodes(cs)
  {
    SetItemUnshared(out, u.items, i, cs);
    SetItemNodes(out, u.items, i, cs);
    StoreItem(out, i, c, u, [], cs);
    u' := ArrShape(out, u.items[i := cs]);
  }

  /** A copy of a value that shares no container with anything allocated before. */
  method DeepCopy(v: Value, ghost t: Shape) returns (r: Value, ghost u: Shape)
    requires Live(t) && Root(t) == v
    ensures Tree(u) && Root(u) == r && Doc(u) == Doc(t) && fresh(Nodes(u))
    decreases t, 2
  {
    match v {
      case Scalar(_) => r, u := v, t;
      case MapRef(node) => r, u := CopyMap(node, t);
      case Slice(node) => r, u := CopySlice(node, t);
    }
  }

  method CopyMap(node: MapNode, ghost t: Shape) returns (r: Value, ghost u: Shape)
    requires Live(t) && Root(t) == MapRef(node)
    ensures Tree(u) && Root(u) == r && Doc(u) == Doc(t) && fresh(Nodes(u))
    decreases t, 1
  {
    hide Unshared, Doc;
    NodesAllocated(t);
    var out := new MapNode(map[]);
    u := MapShape(out, map[]);
    EmptyMapShape(out);
    ghost var made: set<object> := {out};
    var todo := node.m.Keys;
    while todo != {}
      invariant Live(t) && todo <= t.members.Keys
      invariant Tree(u) && u.MapShape? && u.o == out && CopiedMembers(u, t, todo)
      invariant fresh(made) && Nodes(u) <= made
      decreases todo
    {
      var k :| k in todo;
      ghost var new';
      u, new' := CopyMember(node, k, out, t, u, todo);
      made := made + new';
      todo := todo - {k};
    }
    SameMembers(u, t);
    r := MapRef(out);
  }

  /** Every member but those still to do has been copied. */
  ghost predicate CopiedMembers(u: Shape, t: Shape, todo: set<string>)
    requires u.MapShape? && t.MapShape?
  {
    && u.members.Keys == t.members.Keys - todo
    && forall k | k in u.members :: k in t.members && Doc(u.members[k]) == Doc(t.members[k])
  }

  method CopyMember(node: MapNode, k: string, out: MapNode, ghost t: Shape, ghost u: Shape, ghost todo: set<string>)
    returns (ghost u': Shape, ghost made: set<object>)
    requires Live(t) && Root(t) == MapRef(node) && k in todo && todo <= t.members.Keys
    requires Tree(u) && u.MapShape? && u.o == out && out !in Nodes(t) && CopiedMembers(u, t, todo)
    modifies out
    ensures Tree(u') && u'.MapShape? && u'.o == out && CopiedMembers(u', t, todo - {k})
    ensures fresh(made) && Nodes(u') <= Nodes(u) + made
    decreases t, 0
  {
    hide Unshared, Doc, CopiedMembers;
    NodesAllocated(u);
    var c, cs := DeepCopy(node.m[k], t.members[k]);
    OneMoreCopied(u, t, todo, k, cs);
    u' := FillMember(out, k, c, u, cs);
    made := Nodes(cs);
  }

  lemma OneMoreCopied(u: Shape, t: Shape, todo: set<string>, k: string, cs: Shape)
    requires u.MapShape? && t.MapShape? && CopiedMembers(u, t, todo) && k in todo && todo <= t.members.Keys
    requires Doc(cs) == Doc(t.members[k])
    ensures CopiedMembers(MapShape(u.o, u.members[k := cs]), t, todo - {k})
  {
    hide Doc;
  }

  method CopySlice(node: array<Value>, ghost t: Shape) returns (r: Value, ghost u: Shape)
    requires Live(t) && Root(t) == Slice(node)
    ensures Tree(u) && Root(u) == r && Doc(u) == Doc(t) && fresh(Nodes(u))
    decreases t, 1
  {
    hide Unshared, Doc;
    NodesAllocated(t);
    var out := new Value[node.Length](_ => Scalar(Null));
    u := ArrShape(out, seq(node.Length, _ => Leaf(Null)));
    BlankShape(out, u.items);
    ghost var made: set<object> := {out};
    for i := 0 to node.Length
      invariant Live(t)
      invariant u.ArrShape? && u.a == out && |u.items| == node.Length && Tree(u)
      invariant fresh(made) && Nodes(u) <= made
      invariant forall k | 0 <= k < i :: Doc(u.items[k]) == Doc(t.items[k])
      invariant forall k | i <= k < node.Length :: u.items[k] == Leaf(Null)
    {
      ghost var more;
      u, more := CopyItem(node, i, out, t, u);
      made := made + more;
    }
    SameItems(u, t);
    r := Slice(out);
  }

  method CopyItem(node: array<Value>, i: nat, out: array<Value>, ghost t: Shape, ghost u: Shape)
    returns (ghost u': Shape, ghost made: set<object>)
    requires Live(t) && Root(t) == Slice(node) && i < node.Length
    requires Tree(u) && u.ArrShape? && u.a == out && |u.items| == node.Length && out !in Nodes(t)
    modifies out
    ensures Tree(u') && u'.ArrShape? && u'.a == out && |u'.items| == |u.items|
    ensures Doc(u'.items[i]) == Doc(t.items[i]) && forall k | 0 <= k < |u.items| && k != i :: u'.items[k] == u.items[k]
    ensures fresh(made) && Nodes(u') <= Nodes(u) + made
    decreases t, 0
  {
    hide Unshared, Doc;
    NodesAllocated(u);
    var c, cs := DeepCopy(node[i], t.items[i]);
    u' := FillItem(out, i, c, u, cs);
    made := Nodes(cs);
  }

  /** A JSON text decoded into new containers. */
  method Decode(j: Json) returns (r: Value, ghost u: Shape)
    ensures Tree(u) && Root(u) == r && Doc(u) == j && fresh(Nodes(u))
    decreases j, 1
  {
    match j {
      case Atom(s) => r, u := Scalar(s), Leaf(s);
      case Obj(ms) => r, u := DecodeMembers(j);
      case Arr(items) => r, u := DecodeItems(j);
    }
  }

  method DecodeMembers(j: Json) returns (r: Value, ghost u: Shape)
    requires j.Obj?
    ensures Tree(u) && Root(u) == r && Doc(u) == j && fresh(Nodes(u))
    decreases j, 0
  {
    hide Unshared, LiveApart;
    var ms := j.members;
    var out := new MapNode(map[]);
    u := MapShape(out, map[]);
    EmptyMapShape(out);
    ghost var made: set<object> := {out};
    var todo := ms.Keys;
    while todo != {}
      invariant Tree(u) && u.MapShape? && u.o == out && todo <= ms.Keys
      invariant u.members.Keys == ms.Keys - todo && forall k | k in u.members :: Doc(u.members[k]) == ms[k]
      invariant fresh(made) && Nodes(u) <= made
      decreases todo
    {
      var k :| k in todo;
      todo := todo - {k};
      NodesAllocated(u);
      var c, cs := Decode(ms[k]);
      made := made + Nodes(cs);
      u := FillMember(out, k, c, u, cs);
    }
    assert Doc(u).members == ms;
    r := MapRef(out);
  }

  method DecodeItems(j: Json) returns (r: Value, ghost u: Shape)
    requires j.Arr?
    ensures Tree(u) && Root(u) == r && Doc(u) == j && fresh(Nodes(u))
    decreases j, 0
  {
    hide Unshared, LiveApart;
    var items := j.items;
    var out := new Value[|items|](_ => Scalar(Null));
    u := ArrShape(out, seq(|items|, _ => Leaf(Null)));
    BlankShape(out, u.items);
    ghost var made: set<object> := {out};
    for i := 0 to |items|
      invariant Tree(u) && u.ArrShape? && u.a == out && |u.items| == |items|
      invariant forall k | 0 <= k < i :: Doc(u.items[k]) == items[k]
      invariant forall k | i <= k < |items| :: u.items[k] == Leaf(Null)
      invariant fresh(made) && Nodes(u) <= made
    {
      NodesAllocated(u);
      var c, cs := Decode(items[i]);
      made := made + Nodes(cs);
      u := FillItem(out, i, c, u, cs);
    }
    assert Doc(u).items == items;
    r := Slice(out);
  }

  /** Whether two values are the same JSON document. */
  method DeepEqual(v: Value, w: Value, ghost t: Shape, ghost u: Shape) returns (same: bool)
    requires Live(t) && Root(t) == v && Live(u) && Root(u) == w
    ensures same <==> Doc(t) == Doc(u)
    decreases t, 1
  {
    match (v, w) {
      case (Scalar(a), Scalar(b)) => same := a == b;
      case (MapRef(a), MapRef(b)) => same := SameMap(a, b, t, u);
      case (Slice(a), Slice(b)) => same := SameSlice(a, b, t, u);
      case _ => same := false;
    }
  }

  method SameMap(a: MapNode, b: MapNode, ghost t: Shape, ghost u: Shape) returns (same: bool)
    requires Live(t) && Root(t) == MapRef(a) && Live(u) && Root(u) == MapRef(b)
    ensures same <==> Doc(t) == Doc(u)
    decreases t, 0
  {
    hide Doc;
    NodesAllocated(t);
    NodesAllocated(u);
    DocKeys(t);
    DocKeys(u);
    if a.m.Keys != b.m.Keys {
      return false;
    }
    var todo := a.m.Keys;
    while todo != {}
      invariant Live(t) && Live(u) && todo <= t.members.Keys
      invariant forall k | k in t.members.Keys - todo :: Doc(t.members[k]) == Doc(u.members[k])
      decreases todo
    {
      var k :| k in todo;
      todo := todo - {k};
      var eq := DeepEqual(a.m[k], b.m[k], t.members[k], u.members[k]);
      if !eq {
        MemberDoc(t, k);
        MemberDoc(u, k);
        return false;
      }
    }
    SameMembers(u, t);
    same := true;
  }

  method SameSlice(a: array<Value>, b: array<Value>, ghost t: Shape, ghost u: Shape) returns (same: bool)
    requires Live(t) && Root(t) == Slice(a) && Live(u) && Root(u) == Slice(b)
    ensures same <==> Doc(t) == Doc(u)
    decreases t, 0
  {
    NodesAllocated(t);
    NodesAllocated(u);
    if a.Length != b.Length {
      assert |Doc(t).items| != |Doc(u).items|;
      return false;
    }
    for i := 0 to a.Length
      invariant Live(t) && Live(u)
      invariant forall k | 0 <= k < i :: Doc(t.items[k]) == Doc(u.items[k])
    {
      var eq := DeepEqual(a[i], b[i], t.items[i], u.items[i]);
      if !eq {
        assert Doc(t).items[i] != Doc(u).items[i];
        return false;
      }
    }
    SameItems(u, t);
    same := true;
  }

  /** One operation, carried out in place. On failure the document is left to be discarded. */
  method ApplyOp(doc: Value, op: PatchOp, ghost t: Shape)
    returns (r: Option<Value>, ghost t': Shape, ghost made: set<object>)
    requires Tree(t) && Root(t) == doc
    modifies Nodes(t)
    ensures ApplyOpSpec(Doc(t), op) == if r.Some? then Some(Doc(t')) else None
    ensures fresh(made)
    ensures r.Some? ==> Tree(t') && Root(t') == r.value && Nodes(t') <= Nodes(t) + made
  {
    hide Unshared, LiveApart, Nodes, Doc, Add, Put, Remove, Get, Parse, Sub, Root;
    t', made := t, {};
    NodesAllocated(t);
    if op.path.None? {
      return None, t, {};
    }
    var parsed := ParsePointer(op.path.value);
    if parsed.None? {
      return None, t, {};
    }
    var path := parsed.value;
    if op.op == "add" || op.op == "replace" || op.op == "test" {
      if op.value.None? {
        return None, t, {};
      }
      var v, s := Decode(op.value.value);
      NodesAllocated(s);
      if op.op == "add" {
        r, t', made := AddAt(doc, path, v, t, s);
        made := made + Nodes(s);
      } else if op.op == "replace" {
        r, t', made := ReplaceAt(doc, path, v, t, s);
        made := made + Nodes(s);
      } else {
        SubDoc(t, path);
        var got := Resolve(path, doc, t);
        if got.None? {
          return None, t, {};
        }
        SubLive(t, path);
        var same := DeepEqual(got.value, v, Sub(t, path).value, s);
        return if same then Some(doc) else None, t, {};
      }
    } else if op.op == "remove" {
      var removed;
      ghost var gone;
      removed, t', gone, made := RemoveAt(doc, path, t);
      return if removed.Some? then Some(removed.value.0) else None, t', made;
    } else if op.op == "move" || op.op == "copy" {
      if op.from.None? {
        return None, t, {};
      }
      var from := ParsePointer(op.from.value);
      if from.None? {
        return None, t, {};
      }
      if op.op == "copy" {
        r, t', made := CopyTo(doc, from.value, path, t);
      } else {
        r, t', made := MoveTo(doc, from.value, path, t);
      }
    } else {
      r := None;
    }
  }

  /** The copy case of ApplyOp. */
  method CopyTo(doc: Value, src: Pointer, path: Pointer, ghost t: Shape)
    returns (r: Option<Value>, ghost t': Shape, ghost made: set<object>)
    requires Tree(t) && Root(t) == doc
    modifies Nodes(t)
    ensures (match Get(Doc(t), src) case None => None case Some(v) => Add(Doc(t), path, v))
         == if r.Some? then Some(Doc(t')) else None
    ensures fresh(made)
    ensures r.Some? ==> Tree(t') && Root(t') == r.value && Nodes(t') <= Nodes(t) + made
  {
    hide Unshared, LiveApart, Nodes, Doc, Add, Get;
    NodesAllocated(t);
    SubDoc(t, src);
    var v := Resolve(src, doc, t);
    if v.None? {
      return None, t, {};
    }
    SubLive(t, src);
    var c, s := DeepCopy(v.value, Sub(t, src).value);
    NodesAllocated(s);
    r, t', made := AddAt(doc, path, c, t, s);
    made := made + Nodes(s);
  }

  /** The move case of ApplyOp: nothing moves into its own child. */
  method MoveTo(doc: Value, src: Pointer, path: Pointer, ghost t: Shape)
    returns (r: Option<Value>, ghost t': Shape, ghost made: set<object>)
    requires Tree(t) && Root(t) == doc
    modifies Nodes(t)
    ensures (if IsPrefix(src, path) && src != path then None
             else match Remove(Doc(t), src) case None => None case Some((d, v)) => Add(d, path, v))
         == if r.Some? then Some(Doc(t')) else None
    ensures fresh(made)
    ensures r.Some? ==> Tree(t') && Root(t') == r.value && Nodes(t') <= Nodes(t) + made
  {
    hide Unshared, LiveApart, Nodes, Doc, Add, Remove;
    NodesAllocated(t);
    if |path| > |src| && path[..|src|] == src {
      return None, t, {};
    }
    var removed;
    ghost var gone, made1;
    removed, t', gone, made1 := RemoveAt(doc, src, t);
    if removed.None? {
      return None, t', made1;
    }
    NodesAllocated(t');
    NodesAllocated(gone);
    r, t', made := AddAt(removed.value.0, path, removed.value.1, t', gone);
    made := made + made1;
  }

  /** A whole patch: applied to a private copy, so that the caller's document keeps every container as it was,
      and what comes back shares none of them. */
  method ApplyPatch(doc: Value, ops: seq<PatchOp>, ghost t: Shape) returns (r: Option<Value>, ghost t': Shape)
    requires Live(t) && Root(t) == doc
    ensures ApplyPatchSpec(Doc(t), ops) == if r.Some? then Some(Doc(t')) else None
    ensures r.Some? ==> Tree(t') && Root(t') == r.value && fresh(Nodes(t'))
    ensures Live(t)
  {
    hide Unshared, LiveApart, Nodes, Doc, ApplyOpSpec;
    NodesAllocated(t);
    var out;
    out, t' := DeepCopy(doc, t);
    ghost var made := Nodes(t');
    for i := 0 to |ops|
      invariant Tree(t') && Root(t') == out && fresh(made) && Nodes(t') <= made
      invariant ApplyPatchSpec(Doc(t), ops) == ApplyPatchSpec(Doc(t'), ops[i..])
    {
      ghost var new';
      var next;
      assert ops[i..][0] == ops[i] && ops[i..][1..] == ops[i + 1..];
      next, t', new' := ApplyOp(out, ops[i], t');
      made := made + new';
      if next.None? {
        return None, t';
      }
      out := next.value;
    }
    r := Some(out);
  }
}
