/** JSON values as mutable maps and arrays on the heap.

    A ghost `Shape` records which container object sits at which place of a document. `Live` says
    the heap currently matches a shape, `Unshared` that no container occurs in it twice. */
module JsonShapes {
  import opened Prelude
  import opened JsonPointer
  import opened JsonDocument

  class MapNode {
    var m: map<string, Value>
    constructor (m: map<string, Value>)
      ensures this.m == m
    { this.m := m; }
  }

  datatype Value = Scalar(s: Scalar) | MapRef(o: MapNode) | Slice(a: array<Value>)

  datatype Shape =
    | Leaf(s: Scalar)
    | MapShape(o: MapNode, members: map<string, Shape>)
    | ArrShape(a: array<Value>, items: seq<Shape>)

  // ----- shapes: root reference, document, containers -----

  ghost function Root(t: Shape): Value {
    match t case Leaf(s) => Scalar(s) case MapShape(o, _) => MapRef(o) case ArrShape(a, _) => Slice(a)
  }

  ghost function Doc(t: Shape): Json {
    match t
    case Leaf(s) => Atom(s)
    case MapShape(_, ms) => Obj(map k | k in ms :: Doc(ms[k]))
    case ArrShape(_, items) => Arr(seq(|items|, i requires 0 <= i < |items| => Doc(items[i])))
  }

  ghost function Nodes(t: Shape): set<object> {
    match t
    case Leaf(_) => {}
    case MapShape(o, ms) => {o} + set k, x: object | k in ms && x in Nodes(ms[k]) :: x
    case ArrShape(a, items) => {a} + set i, x: object | 0 <= i < |items| && x in Nodes(items[i]) :: x
  }

  lemma MemberNodes(t: Shape, k: string)
    requires t.MapShape? && k in t.members
    ensures Nodes(t.members[k]) <= Nodes(t)
  {
  }

  lemma ItemNodes(t: Shape, i: nat)
    requires t.ArrShape? && i < |t.items|
    ensures Nodes(t.items[i]) <= Nodes(t)
  {
  }

  /** Every container of the shape outside `skip` holds exactly what the shape says. */
  ghost predicate LiveApart(t: Shape, skip: set<object>)
    reads Nodes(t) - skip
    decreases t
  {
    match t
    case Leaf(_) => true
    case MapShape(o, ms) =>
      && (o !in skip ==> o.m.Keys == ms.Keys && forall k | k in ms :: o.m[k] == Root(ms[k]))
      && (forall k | k in ms :: MemberNodes(t, k); LiveApart(ms[k], skip))
    case ArrShape(a, items) =>
      && (a !in skip ==> a.Length == |items| && forall i | 0 <= i < |items| :: a[i] == Root(items[i]))
      && (forall i | 0 <= i < |items| :: ItemNodes(t, i); LiveApart(items[i], skip))
  }

  ghost predicate Live(t: Shape)
    reads Nodes(t)
  {
    LiveApart(t, {})
  }

  ghost predicate Unshared(t: Shape) {
    match t
    case Leaf(_) => true
    case MapShape(o, ms) =>
      && (forall k | k in ms :: o !in Nodes(ms[k]) && Unshared(ms[k]))
      && (forall k, l | k in ms && l in ms && k != l :: Nodes(ms[k]) !! Nodes(ms[l]))
    case ArrShape(a, items) =>
      && (forall i | 0 <= i < |items| :: a !in Nodes(items[i]) && Unshared(items[i]))
      && (forall i, l | 0 <= i < l < |items| :: Nodes(items[i]) !! Nodes(items[l]))
  }

  /** A document the engine may edit in place. */
  ghost predicate Tree(t: Shape)
    reads Nodes(t)
  {
    Live(t) && Unshared(t)
  }

  ghost function Kid(t: Shape, tok: string): Option<Shape> {
    match t
    case MapShape(_, ms) => if tok in ms then Some(ms[tok]) else None
    case ArrShape(_, items) =>
      var i := ArrayIndex(tok, |items|, false);
      if i.Some? then Some(items[i.value]) else None
    case Leaf(_) => None
  }

  ghost function SetKid(t: Shape, tok: string, c: Shape): Shape
    requires Kid(t, tok).Some?
  {
    match t
    case MapShape(o, ms) => MapShape(o, ms[tok := c])
    case ArrShape(a, items) => ArrShape(a, items[ArrayIndex(tok, |items|, false).value := c])
  }

  ghost function Sub(t: Shape, p: Pointer): Option<Shape>
    decreases |p|
  {
    if p == [] then Some(t)
    else match Kid(t, p[0]) case None => None case Some(c) => Sub(c, p[1..])
  }

  ghost function Graft(t: Shape, p: Pointer, s: Shape): Shape
    requires Sub(t, p).Some?
    decreases |p|
  {
    if p == [] then s else SetKid(t, p[0], Graft(Kid(t, p[0]).value, p[1..], s))
  }

  // ----- shapes and documents agree -----

  lemma KidDoc(t: Shape, tok: string)
    ensures Child(Doc(t), tok) == match Kid(t, tok) case None => None case Some(c) => Some(Doc(c))
  {
  }

  lemma {:induction false} SubDoc(t: Shape, p: Pointer)
    ensures Get(Doc(t), p) == match Sub(t, p) case None => None case Some(c) => Some(Doc(c))
    decreases |p|
  {
    if p != [] {
      KidDoc(t, p[0]);
      if Kid(t, p[0]).Some? {
        SubDoc(Kid(t, p[0]).value, p[1..]);
      }
    }
  }

  lemma SetKidDoc(t: Shape, tok: string, c: Shape)
    requires Kid(t, tok).Some?
    ensures Child(Doc(t), tok).Some? && Doc(SetKid(t, tok, c)) == SetChild(Doc(t), tok, Doc(c))
  {
    KidDoc(t, tok);
    match t {
      case MapShape(o, ms) =>
        assert Doc(SetKid(t, tok, c)).members == Doc(t).members[tok := Doc(c)];
      case ArrShape(a, items) =>
        assert Doc(SetKid(t, tok, c)).items == Doc(t).items[ArrayIndex(tok, |items|, false).value := Doc(c)];
      case Leaf(_) =>
    }
  }

  lemma {:induction false} GraftDoc(t: Shape, p: Pointer, s: Shape)
    requires Sub(t, p).Some?
    ensures Get(Doc(t), p).Some? && Doc(Graft(t, p, s)) == Put(Doc(t), p, Doc(s))
    decreases |p|
  {
    SubDoc(t, p);
    if p != [] {
      var c := Kid(t, p[0]).value;
      KidDoc(t, p[0]);
      GraftDoc(c, p[1..], s);
      SetKidDoc(t, p[0], Graft(c, p[1..], s));
    }
  }

  lemma {:induction false} SubConcat(t: Shape, p: Pointer, tok: string)
    ensures Sub(t, p + [tok]) == match Sub(t, p) case None => None case Some(c) => Kid(c, tok)
    decreases |p|
  {
    var q := p + [tok];
    if p == [] {
      assert q[1..] == [];
    } else {
      assert q[1..] == p[1..] + [tok];
      if Kid(t, p[0]).Some? {
        SubConcat(Kid(t, p[0]).value, p[1..], tok);
      }
    }
  }

  // ----- containment -----

  lemma KidNodes(t: Shape, tok: string)
    requires Kid(t, tok).Some?
    ensures Nodes(Kid(t, tok).value) <= Nodes(t)
    ensures Unshared(t) ==> Unshared(Kid(t, tok).value)
  {
    match t {
      case MapShape(_, _) => MemberNodes(t, tok);
      case ArrShape(_, items) => ItemNodes(t, ArrayIndex(tok, |items|, false).value);
      case Leaf(_) =>
    }
  }

  lemma {:induction false} SubNodes(t: Shape, p: Pointer)
    requires Sub(t, p).Some?
    ensures Nodes(Sub(t, p).value) <= Nodes(t)
    ensures Unshared(t) ==> Unshared(Sub(t, p).value)
    decreases |p|
  {
    if p != [] {
      KidNodes(t, p[0]);
      SubNodes(Kid(t, p[0]).value, p[1..]);
    }
  }

  lemma SetMemberNodes(o: MapNode, ms: map<string, Shape>, k: string, c: Shape)
    requires Unshared(MapShape(o, ms)) && k in ms
    ensures Nodes(MapShape(o, ms[k := c])) == (Nodes(MapShape(o, ms)) - Nodes(ms[k])) + Nodes(c)
  {
    var t, t' := MapShape(o, ms), MapShape(o, ms[k := c]);
    forall x | x in (Nodes(t) - Nodes(ms[k])) + Nodes(c) ensures x in Nodes(t') {
      MemberNodes(t', k);
      if x !in Nodes(c) && x != o {
        var l :| l in ms && x in Nodes(ms[l]);
        MemberNodes(t', l);
      }
    }
    forall x | x in Nodes(t') ensures x in (Nodes(t) - Nodes(ms[k])) + Nodes(c) {
      if x !in Nodes(c) && x != o {
        var l :| l in ms && l != k && x in Nodes(ms[l]);
        MemberNodes(t, l);
      }
    }
  }

  lemma SetItemNodes(a: array<Value>, items: seq<Shape>, n: nat, c: Shape)
    requires Unshared(ArrShape(a, items)) && n < |items|
    ensures Nodes(ArrShape(a, items[n := c])) == (Nodes(ArrShape(a, items)) - Nodes(items[n])) + Nodes(c)
  {
    var t, t' := ArrShape(a, items), ArrShape(a, items[n := c]);
    forall x | x in (Nodes(t) - Nodes(items[n])) + Nodes(c) ensures x in Nodes(t') {
      ItemNodes(t', n);
      if x !in Nodes(c) && x != a {
        var l :| 0 <= l < |items| && x in Nodes(items[l]);
        ItemNodes(t', l);
      }
    }
    forall x | x in Nodes(t') ensures x in (Nodes(t) - Nodes(items[n])) + Nodes(c) {
      if x !in Nodes(c) && x != a {
        var l :| 0 <= l < |items| && l != n && x in Nodes(items[n := c][l]);
        ItemNodes(t, l);
      }
    }
  }

  lemma SetMemberUnshared(o: MapNode, ms: map<string, Shape>, k: string, c: Shape)
    requires Unshared(MapShape(o, ms)) && k in ms && Unshared(c)
    requires Nodes(c) !! Nodes(MapShape(o, ms)) - Nodes(ms[k])
    ensures Unshared(MapShape(o, ms[k := c]))
  {
    var t := MapShape(o, ms);
    forall l | l in ms && l != k ensures Nodes(ms[l]) !! Nodes(c) {
      MemberNodes(t, l);
      assert Nodes(ms[l]) <= Nodes(t) - Nodes(ms[k]);
    }
    assert o in Nodes(t) - Nodes(ms[k]);
  }

  lemma SetItemUnshared(a: array<Value>, items: seq<Shape>, n: nat, c: Shape)
    requires Unshared(ArrShape(a, items)) && n < |items| && Unshared(c)
    requires Nodes(c) !! Nodes(ArrShape(a, items)) - Nodes(items[n])
    ensures Unshared(ArrShape(a, items[n := c]))
  {
    var t := ArrShape(a, items);
    forall l | 0 <= l < |items| && l != n ensures Nodes(items[l]) !! Nodes(c) {
      ItemNodes(t, l);
      assert Nodes(items[l]) <= Nodes(t) - Nodes(items[n]);
    }
    assert a in Nodes(t) - Nodes(items[n]);
  }

  lemma SetKidUnshared(t: Shape, tok: string, c: Shape)
    requires Unshared(t) && Kid(t, tok).Some? && Unshared(c)
    requires Nodes(c) !! Nodes(t) - Nodes(Kid(t, tok).value)
    ensures Unshared(SetKid(t, tok, c))
    ensures Nodes(SetKid(t, tok, c)) == (Nodes(t) - Nodes(Kid(t, tok).value)) + Nodes(c)
  {
    match t {
      case MapShape(o, ms) =>
        SetMemberNodes(o, ms, tok, c);
        SetMemberUnshared(o, ms, tok, c);
      case ArrShape(a, items) =>
        var n := ArrayIndex(tok, |items|, false).value;
        SetItemNodes(a, items, n, c);
        SetItemUnshared(a, items, n, c);
      case Leaf(_) =>
    }
  }

  /** Grafting keeps a tree unshared when the graft shares nothing with what stays. */
  lemma {:induction false} GraftUnshared(t: Shape, p: Pointer, s: Shape)
    requires Unshared(t) && Sub(t, p).Some? && Unshared(s)
    requires Nodes(s) !! Nodes(t) - Nodes(Sub(t, p).value)
    ensures Unshared(Graft(t, p, s))
    ensures Nodes(Graft(t, p, s)) == (Nodes(t) - Nodes(Sub(t, p).value)) + Nodes(s)
    decreases |p|
  {
    if p != [] {
      var c := Kid(t, p[0]).value;
      KidNodes(t, p[0]);
      SubNodes(c, p[1..]);
      GraftUnshared(c, p[1..], s);
      SetKidUnshared(t, p[0], Graft(c, p[1..], s));
    }
  }

  lemma {:induction false} SkipMore(t: Shape, skip: set<object>)
    requires Live(t)
    ensures LiveApart(t, skip)
  {
    match t {
      case Leaf(_) =>
      case MapShape(_, ms) => forall k | k in ms ensures LiveApart(ms[k], skip) { SkipMore(ms[k], skip); }
      case ArrShape(_, items) =>
        forall i | 0 <= i < |items| ensures LiveApart(items[i], skip) { SkipMore(items[i], skip); }
    }
  }

  lemma {:induction false} SkipNothing(t: Shape, skip: set<object>)
    requires LiveApart(t, skip) && skip !! Nodes(t)
    ensures Live(t)
  {
    match t {
      case Leaf(_) =>
      case MapShape(o, ms) =>
        assert o in Nodes(t);
        forall k | k in ms ensures Live(ms[k]) { MemberNodes(t, k); SkipNothing(ms[k], skip); }
      case ArrShape(a, items) =>
        assert a in Nodes(t);
        forall i | 0 <= i < |items| ensures Live(items[i]) { ItemNodes(t, i); SkipNothing(items[i], skip); }
    }
  }

  /** The kids beside the one that holds n do not hold n. */
  lemma KidsApart(t: Shape, tok: string, n: object)
    requires Unshared(t) && Kid(t, tok).Some? && n in Nodes(Kid(t, tok).value)
    ensures t.MapShape? ==> t.o != n && forall k | k in t.members && k != tok :: n !in Nodes(t.members[k])
    ensures t.ArrShape? ==>
              var i := ArrayIndex(tok, |t.items|, false).value;
              t.a != n && forall k | 0 <= k < |t.items| && k != i :: n !in Nodes(t.items[k])
  {
  }

  lemma SetKidLive(t: Shape, tok: string, c: Shape, n: object)
    requires Unshared(t) && LiveApart(t, {n}) && Kid(t, tok).Some?
    requires n in Nodes(Kid(t, tok).value)
    requires Live(c) && Root(c) == Root(Kid(t, tok).value)
    ensures Live(SetKid(t, tok, c))
  {
    hide Unshared, Nodes;
    KidApart(t, tok, {n});
    KidsApart(t, tok, n);
    match t {
      case MapShape(o, ms) =>
        forall k | k in ms && k != tok ensures Live(ms[k]) { SkipNothing(ms[k], {n}); }
      case ArrShape(a, items) =>
        var i := ArrayIndex(tok, |items|, false).value;
        forall k | 0 <= k < |items| && k != i ensures Live(items[k]) { SkipNothing(items[k], {n}); }
      case Leaf(_) =>
    }
  }

  /** When only the container at `p` was edited, and now matches `s`, the whole document matches the graft. */
  lemma {:induction false} GraftLive(t: Shape, p: Pointer, s: Shape, n: object)
    requires Unshared(t) && LiveApart(t, {n}) && Sub(t, p).Some?
    requires n in Nodes(Sub(t, p).value)
    requires Live(s) && Root(s) == Root(Sub(t, p).value)
    ensures Live(Graft(t, p, s)) && Root(Graft(t, p, s)) == Root(t)
    decreases |p|
  {
    if p != [] {
      var c := Kid(t, p[0]).value;
      KidNodes(t, p[0]);
      SubNodes(c, p[1..]);
      KidApart(t, p[0], {n});
      GraftLive(c, p[1..], s, n);
      SetKidLive(t, p[0], Graft(c, p[1..], s), n);
    }
  }

  lemma KidApart(t: Shape, tok: string, skip: set<object>)
    requires LiveApart(t, skip) && Kid(t, tok).Some?
    ensures LiveApart(Kid(t, tok).value, skip)
  {
  }

  lemma {:induction false} SubLive(t: Shape, p: Pointer)
    requires Live(t) && Sub(t, p).Some?
    ensures Live(Sub(t, p).value)
    decreases |p|
  {
    if p != [] {
      KidApart(t, p[0], {});
      SubLive(Kid(t, p[0]).value, p[1..]);
    }
  }

  lemma {:induction false} SubApart(t: Shape, p: Pointer, skip: set<object>)
    requires LiveApart(t, skip) && Sub(t, p).Some?
    ensures LiveApart(Sub(t, p).value, skip)
    decreases |p|
  {
    if p != [] {
      KidApart(t, p[0], skip);
      SubApart(Kid(t, p[0]).value, p[1..], skip);
    }
  }

  ghost function MemberRoots(ms: map<string, Shape>): map<string, Value> { map k | k in ms :: Root(ms[k]) }

  ghost function ItemRoots(items: seq<Shape>): (r: seq<Value>)
    ensures |r| == |items|
    ensures forall i | 0 <= i < |items| :: r[i] == Root(items[i])
  {
    seq(|items|, i requires 0 <= i < |items| => Root(items[i]))
  }

  lemma ContainerHolds(t: Shape)
    requires Live(t)
    ensures t.MapShape? ==> t.o.m == MemberRoots(t.members)
    ensures t.ArrShape? ==> t.a[..] == ItemRoots(t.items)
  {
  }

  /** The map at `front`, and nothing else, was edited: it now holds `s` under k. */
  lemma MemberStored(t: Shape, front: Pointer, k: string, s: Shape)
    requires Sub(t, front).Some? && Sub(t, front).value.MapShape?
    requires var P := Sub(t, front).value;
             Unshared(t) && LiveApart(t, {P.o}) && Live(s) && P.o.m == MemberRoots(P.members)[k := Root(s)]
    ensures var P := Sub(t, front).value;
            var t' := Graft(t, front, MapShape(P.o, P.members[k := s]));
            Live(t') && Root(t') == Root(t)
  {
    var P := Sub(t, front).value;
    SubNodes(t, front);
    SubApart(t, front, {P.o});
    var ms := P.members[k := s];
    forall l | l in ms ensures Live(ms[l]) && P.o.m[l] == Root(ms[l]) {
      if l != k {
        SkipNothing(ms[l], {P.o});
      }
    }
    GraftLive(t, front, MapShape(P.o, ms), P.o);
  }

  lemma MemberDropped(t: Shape, front: Pointer, k: string)
    requires Sub(t, front).Some? && Sub(t, front).value.MapShape?
    requires var P := Sub(t, front).value;
             Unshared(t) && LiveApart(t, {P.o}) && P.o.m == MemberRoots(P.members) - {k}
    ensures var P := Sub(t, front).value;
            var t' := Graft(t, front, MapShape(P.o, P.members - {k}));
            Live(t') && Root(t') == Root(t)
  {
    var P := Sub(t, front).value;
    SubNodes(t, front);
    SubApart(t, front, {P.o});
    var ms := P.members - {k};
    forall l | l in ms ensures Live(ms[l]) && P.o.m[l] == Root(ms[l]) {
      SkipNothing(ms[l], {P.o});
    }
    GraftLive(t, front, MapShape(P.o, ms), P.o);
  }

  lemma ItemStored(t: Shape, front: Pointer, i: nat, s: Shape)
    requires Sub(t, front).Some? && Sub(t, front).value.ArrShape? && i < |Sub(t, front).value.items|
    requires var P := Sub(t, front).value;
             Unshared(t) && LiveApart(t, {P.a}) && Live(s) && P.a[..] == ItemRoots(P.items)[i := Root(s)]
    ensures var P := Sub(t, front).value;
            var t' := Graft(t, front, ArrShape(P.a, P.items[i := s]));
            Live(t') && Root(t') == Root(t)
  {
    var P := Sub(t, front).value;
    SubNodes(t, front);
    SubApart(t, front, {P.a});
    var items := P.items[i := s];
    forall l | 0 <= l < |items| ensures Live(items[l]) && P.a[l] == Root(items[l]) {
      assert P.a[l] == P.a[..][l];
      if l != i {
        SkipNothing(items[l], {P.a});
      }
    }
    GraftLive(t, front, ArrShape(P.a, items), P.a);
  }

  lemma {:induction false} NodesAllocated(t: Shape)
    ensures forall x | x in Nodes(t) :: allocated(x)
  {
    match t {
      case Leaf(_) =>
      case MapShape(_, ms) =>
        forall k | k in ms ensures forall x | x in Nodes(ms[k]) :: allocated(x) { NodesAllocated(ms[k]); }
      case ArrShape(_, items) =>
        forall i | 0 <= i < |items| ensures forall x | x in Nodes(items[i]) :: allocated(x) {
          NodesAllocated(items[i]);
        }
    }
  }

  lemma {:induction false} GraftParent(t: Shape, front: Pointer, last: string, s: Shape)
    requires Sub(t, front).Some? && Kid(Sub(t, front).value, last).Some?
    ensures Sub(t, front + [last]).Some?
    ensures Graft(t, front + [last], s) == Graft(t, front, SetKid(Sub(t, front).value, last, s))
    decreases |front|
  {
    SubConcat(t, front, last);
    var p := front + [last];
    if front == [] {
      assert p[1..] == [];
    } else {
      assert p[1..] == front[1..] + [last];
      GraftParent(Kid(t, front[0]).value, front[1..], last, s);
    }
  }

  lemma MemberAdded(P: Shape, k: string, s: Shape)
    requires P.MapShape? && Unshared(P) && Unshared(s) && Nodes(s) !! Nodes(P)
    ensures var P' := MapShape(P.o, P.members[k := s]);
            Unshared(P') && Nodes(P') <= Nodes(P) + Nodes(s) && Insert(Doc(P), k, Doc(s)) == Some(Doc(P'))
  {
    var P' := MapShape(P.o, P.members[k := s]);
    forall l | l in P.members ensures Nodes(P.members[l]) <= Nodes(P) { MemberNodes(P, l); }
    assert P.o in Nodes(P);
    assert Doc(P').members == Doc(P).members[k := Doc(s)];
  }

  /** The items of an array with one inserted at i. */
  function Grown<T>(items: seq<T>, i: nat, x: T): (r: seq<T>)
    requires i <= |items|
    ensures |r| == |items| + 1
    ensures forall k | 0 <= k < |r| :: r[k] == if k < i then items[k] else if k == i then x else items[k - 1]
  {
    items[..i] + [x] + items[i..]
  }

  /** A grown copy of an array shares nothing twice. */
  lemma GrownUnshared(P: Shape, i: nat, s: Shape, a: array<Value>)
    requires P.ArrShape? && i <= |P.items| && Unshared(P)
    requires Unshared(s) && Nodes(s) !! Nodes(P) && a !in Nodes(P) + Nodes(s)
    ensures var g := ArrShape(a, Grown(P.items, i, s));
            Unshared(g) && Nodes(g) <= Nodes(P) + Nodes(s) + {a}
  {
    forall k | 0 <= k < |P.items| ensures Nodes(P.items[k]) <= Nodes(P) { ItemNodes(P, k); }
  }

  lemma GrownDoc(P: Shape, i: nat, s: Shape, a: array<Value>, last: string)
    requires P.ArrShape? && ArrayIndex(last, |P.items|, true) == Some(i)
    ensures Insert(Doc(P), last, Doc(s)) == Some(Doc(ArrShape(a, Grown(P.items, i, s))))
  {
    assert Doc(ArrShape(a, Grown(P.items, i, s))).items == Doc(P).items[..i] + [Doc(s)] + Doc(P).items[i..];
  }

  lemma GrownLive(P: Shape, i: nat, s: Shape, a: array<Value>)
    requires P.ArrShape? && i <= |P.items| && Live(P) && Live(s)
    requires a[..] == Grown(ItemRoots(P.items), i, Root(s))
    ensures Live(ArrShape(a, Grown(P.items, i, s)))
  {
    var items := Grown(P.items, i, s);
    forall k | 0 <= k < |items| ensures a[k] == Root(items[k]) && Live(items[k]) {
      assert a[k] == a[..][k];
    }
  }

  /** Grafting the parent container with something inserted into it is adding to the document. */
  lemma AddedInParent(t: Shape, front: Pointer, last: string, s: Shape, P': Shape)
    requires Unshared(t) && Sub(t, front).Some? && Nodes(s) !! Nodes(t)
    requires var P := Sub(t, front).value;
             && Unshared(P') && Insert(Doc(P), last, Doc(s)) == Some(Doc(P'))
             && Nodes(P') !! Nodes(t) - Nodes(P)
    ensures Unshared(Graft(t, front, P'))
    ensures Nodes(Graft(t, front, P')) == Nodes(t) - Nodes(Sub(t, front).value) + Nodes(P')
    ensures Add(Doc(t), front + [last], Doc(s)) == Some(Doc(Graft(t, front, P')))
  {
    GraftUnshared(t, front, P');
    AddViaParent(Doc(t), front, last, Doc(s));
    SubDoc(t, front);
    GraftDoc(t, front, P');
  }

  lemma GrownInPlace(t: Shape, front: Pointer, last: string, i: nat, s: Shape, a: array<Value>)
    requires Tree(t) && Sub(t, front).Some? && Sub(t, front).value.ArrShape? && Tree(s)
    requires Nodes(s) !! Nodes(t) && a !in Nodes(t) + Nodes(s)
    requires var P := Sub(t, front).value;
             && ArrayIndex(last, |P.items|, true) == Some(i)
             && a[..] == Grown(ItemRoots(P.items), i, Root(s))
    ensures var P := Sub(t, front).value;
            var g := ArrShape(a, Grown(P.items, i, s));
            var t' := Graft(t, front, g);
            && Live(g) && Nodes(g) !! Nodes(t) - Nodes(P)
            && Unshared(t') && Nodes(t') <= Nodes(t) + Nodes(s) + {a}
            && Add(Doc(t), front + [last], Doc(s)) == Some(Doc(t'))
  {
    var P := Sub(t, front).value;
    SubNodes(t, front);
    SubLive(t, front);
    GrownLive(P, i, s, a);
    GrownUnshared(P, i, s, a);
    GrownDoc(P, i, s, a, last);
    AddedInParent(t, front, last, s, ArrShape(a, Grown(P.items, i, s)));
  }

  lemma AddFails(t: Shape, front: Pointer, last: string, v: Json)
    ensures Sub(t, front).None? ==> Add(Doc(t), front + [last], v).None?
    ensures Sub(t, front).Some? ==>
              var P := Sub(t, front).value;
              && (P.Leaf? ==> Add(Doc(t), front + [last], v).None?)
              && (P.ArrShape? && ArrayIndex(last, |P.items|, true).None? ==> Add(Doc(t), front + [last], v).None?)
  {
    AddViaParent(Doc(t), front, last, v);
    SubDoc(t, front);
  }

  lemma RemoveFails(t: Shape, front: Pointer, last: string)
    ensures Sub(t, front).None? || Kid(Sub(t, front).value, last).None? ==> Remove(Doc(t), front + [last]).None?
  {
    RemoveViaParent(Doc(t), front, last);
    SubDoc(t, front);
    if Sub(t, front).Some? {
      KidDoc(Sub(t, front).value, last);
    }
  }

  /** Grafting the parent container with one kid taken out of it is removing from the document. */
  lemma RemovedInParent(t: Shape, front: Pointer, last: string, P': Shape)
    requires Unshared(t) && Sub(t, front).Some? && Kid(Sub(t, front).value, last).Some?
    requires var P := Sub(t, front).value;
             && Unshared(P') && Delete(Doc(P), last) == Some(Doc(P'))
             && Nodes(P') !! Nodes(t) - Nodes(P) && Nodes(P') !! Nodes(Kid(P, last).value)
    ensures var gone := Kid(Sub(t, front).value, last).value;
            var t' := Graft(t, front, P');
            && Unshared(t') && Unshared(gone) && Nodes(gone) <= Nodes(t) && Nodes(t') !! Nodes(gone)
            && Nodes(t') <= Nodes(t) + Nodes(P')
            && Remove(Doc(t), front + [last]) == Some((Doc(t'), Doc(gone)))
  {
    var P := Sub(t, front).value;
    SubNodes(t, front);
    KidNodes(P, last);
    GraftUnshared(t, front, P');
    RemoveViaParent(Doc(t), front, last);
    SubDoc(t, front);
    KidDoc(P, last);
    GraftDoc(t, front, P');
  }

  lemma MemberGone(P: Shape, k: string)
    requires P.MapShape? && Unshared(P) && k in P.members
    ensures var P' := MapShape(P.o, P.members - {k});
            && Unshared(P') && Nodes(P') <= Nodes(P) && Nodes(P') !! Nodes(P.members[k])
            && Delete(Doc(P), k) == Some(Doc(P'))
  {
    var P' := MapShape(P.o, P.members - {k});
    forall l | l in P.members ensures Nodes(P.members[l]) <= Nodes(P) { MemberNodes(P, l); }
    assert Doc(P').members == Doc(P).members - {k};
  }

  /** The items of an array with the one at i left out. */
  function Shrunk<T>(items: seq<T>, i: nat): (r: seq<T>)
    requires i < |items|
    ensures |r| == |items| - 1
    ensures forall k | 0 <= k < |r| :: r[k] == items[if k < i then k else k + 1]
  {
    items[..i] + items[i + 1..]
  }

  lemma ShrunkUnshared(P: Shape, i: nat, a: array<Value>)
    requires P.ArrShape? && i < |P.items| && Unshared(P) && a !in Nodes(P)
    ensures var g := ArrShape(a, Shrunk(P.items, i));
            Unshared(g) && Nodes(g) <= Nodes(P) + {a} && Nodes(g) !! Nodes(P.items[i])
  {
    forall k | 0 <= k < |P.items| ensures Nodes(P.items[k]) <= Nodes(P) { ItemNodes(P, k); }
  }

  lemma ShrunkDoc(P: Shape, i: nat, a: array<Value>, last: string)
    requires P.ArrShape? && ArrayIndex(last, |P.items|, false) == Some(i)
    ensures Delete(Doc(P), last) == Some(Doc(ArrShape(a, Shrunk(P.items, i))))
  {
    assert Doc(ArrShape(a, Shrunk(P.items, i))).items == Doc(P).items[..i] + Doc(P).items[i + 1..];
  }

  lemma ShrunkLive(P: Shape, i: nat, a: array<Value>)
    requires P.ArrShape? && i < |P.items| && Live(P)
    requires a[..] == Shrunk(ItemRoots(P.items), i)
    ensures Live(ArrShape(a, Shrunk(P.items, i)))
  {
    var items := Shrunk(P.items, i);
    forall k | 0 <= k < |items| ensures a[k] == Root(items[k]) && Live(items[k]) {
      assert a[k] == a[..][k];
    }
  }

  lemma DroppedInPlace(t: Shape, front: Pointer, last: string)
    requires Unshared(t) && Sub(t, front).Some? && Sub(t, front).value.MapShape?
    requires last in Sub(t, front).value.members
    ensures var P := Sub(t, front).value;
            var t' := Graft(t, front, MapShape(P.o, P.members - {last}));
            var gone := P.members[last];
            && Unshared(t') && Unshared(gone) && Nodes(gone) <= Nodes(t) && Nodes(t') !! Nodes(gone)
            && Nodes(t') <= Nodes(t) && P.o !in Nodes(gone)
            && Remove(Doc(t), front + [last]) == Some((Doc(t'), Doc(gone)))
  {
    SubNodes(t, front);
    MemberGone(Sub(t, front).value, last);
    RemovedInParent(t, front, last, MapShape(Sub(t, front).value.o, Sub(t, front).value.members - {last}));
  }

  lemma ShrunkInPlace(t: Shape, front: Pointer, last: string, i: nat, a: array<Value>)
    requires Tree(t) && Sub(t, front).Some? && Sub(t, front).value.ArrShape? && a !in Nodes(t)
    requires var P := Sub(t, front).value;
             && ArrayIndex(last, |P.items|, false) == Some(i)
             && a[..] == Shrunk(ItemRoots(P.items), i)
    ensures var P := Sub(t, front).value;
            var g := ArrShape(a, Shrunk(P.items, i));
            var t' := Graft(t, front, g);
            var gone := P.items[i];
            && Live(g) && Live(gone) && Nodes(g) !! Nodes(t) - Nodes(P)
            && Unshared(t') && Unshared(gone) && Nodes(gone) <= Nodes(P) <= Nodes(t) && Nodes(t') !! Nodes(gone)
            && Nodes(t') <= Nodes(t) + {a}
            && Remove(Doc(t), front + [last]) == Some((Doc(t'), Doc(gone)))
  {
    var P := Sub(t, front).value;
    SubNodes(t, front);
    SubLive(t, front);
    ItemNodes(P, i);
    ShrunkLive(P, i, a);
    ShrunkUnshared(P, i, a);
    ShrunkDoc(P, i, a, last);
    RemovedInParent(t, front, last, ArrShape(a, Shrunk(P.items, i)));
  }
}
