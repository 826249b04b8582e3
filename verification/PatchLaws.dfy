/** What each patch operation does to a document, said without the functions that carry it out.

    The laws speak of reading a path and of taking a value out, so they hold of ApplyOpSpec or fail with it. */
module PatchLaws {
  import opened Prelude
  import opened JsonPointer
  import opened JsonDocument

  /** The container a path ends in; None for the whole document and for a parent that does not resolve. */
  function Parent(j: Json, p: Pointer): Option<Json> { if p == [] then None else Get(j, p[..|p| - 1]) }

  /** A value can be added at the path: the parent is an object, or an array with that place. */
  ghost predicate Takes(j: Json, p: Pointer) {
    || p == []
    || (Parent(j, p).Some? && Parent(j, p).value.Obj?)
    || (Parent(j, p).Some? && Parent(j, p).value.Arr?
        && exists i :: ArrayIndex(p[|p| - 1], |Parent(j, p).value.items|, true) == Some(i))
  }

  /** The path at which a value added at p is found. */
  function Place(j: Json, p: Pointer): Pointer {
    if Parent(j, p).Some? && Parent(j, p).value.Arr? && p[|p| - 1] == "-"
    then p[..|p| - 1] + [Decimal(|Parent(j, p).value.items|)] else p
  }

  /** The path is a member its object already has. */
  predicate Overwrites(j: Json, p: Pointer) {
    Parent(j, p).Some? && Parent(j, p).value.Obj? && p[|p| - 1] in Parent(j, p).value.members
  }

  /** d is j with v newly at p: v is found there, and without it d is what j is without its value at p, which is j
      itself unless p was a member already. */
  ghost predicate Lands(j: Json, p: Pointer, v: Json, d: Json) {
    && Get(d, Place(j, p)) == Some(v)
    && (if p == [] then d == v
        else if Overwrites(j, p) then
          Remove(d, p).Some? && Remove(j, p).Some? && Remove(d, p).value.0 == Remove(j, p).value.0
        else Remove(d, Place(j, p)) == Some((j, v)))
  }

  /** No array the path ends in is longer than any Go slice. */
  predicate Roomy(j: Json, p: Pointer) { Parent(j, p).Some? ==> FitsInt(Parent(j, p).value) }

  // ----- add -----

  lemma AddTakes(j: Json, p: Pointer, v: Json)
    ensures Add(j, p, v).Some? <==> Takes(j, p)
  {
    if p != [] {
      var front, last := p[..|p| - 1], p[|p| - 1];
      assert p == front + [last];
      AddViaParent(j, front, last, v);
      if Parent(j, p).Some? && Parent(j, p).value.Arr? {
        var i := ArrayIndex(last, |Parent(j, p).value.items|, true);
        assert i.Some? ==> i == Some(i.value);
      }
    }
  }

  lemma AddLands(j: Json, p: Pointer, v: Json)
    requires Add(j, p, v).Some? && Roomy(j, p)
    ensures Lands(j, p, v, Add(j, p, v).value)
  {
    var d := Add(j, p, v).value;
    if p != [] {
      var front, last := p[..|p| - 1], p[|p| - 1];
      assert p == front + [last];
      ReadBack(j, front, last, v);
      assert Landed(j, front, last) == Place(j, p);
      if Overwrites(j, p) {
        Overwritten(j, front, last, v);
      } else {
        AddRemoveRestores(j, front, last, v);
      }
    }
  }

  /** A member set again: without it nothing has changed. */
  lemma Overwritten(j: Json, front: Pointer, last: string, v: Json)
    requires Get(j, front).Some? && Get(j, front).value.Obj? && last in Get(j, front).value.members
    ensures Add(j, front + [last], v).Some? && Remove(j, front + [last]).Some?
    ensures Remove(Add(j, front + [last], v).value, front + [last]).Some?
    ensures Remove(Add(j, front + [last], v).value, front + [last]).value.0 == Remove(j, front + [last]).value.0
  {
    var m := Get(j, front).value.members;
    var c := Obj(m[last := v]);
    AddViaParent(j, front, last, v);
    RemoveViaParent(j, front, last);
    RemoveViaParent(Put(j, front, c), front, last);
    PutTwice(j, front, c, Obj(m - {last}));
    assert m[last := v] - {last} == m - {last};
  }

  /** add succeeds exactly when it has a value and the path can take it, and the value lands there. */
  lemma AddOp(j: Json, s: string, from: Option<string>, value: Option<Json>)
    requires Parse(s).Some? && Roomy(j, Parse(s).value)
    ensures var r, p := ApplyOpSpec(j, PatchOp("add", Some(s), from, value)), Parse(s).value;
            && (r.Some? <==> value.Some? && Takes(j, p))
            && (r.Some? ==> Lands(j, p, value.value, r.value))
  {
    var p := Parse(s).value;
    if value.Some? {
      AddTakes(j, p, value.value);
      if Takes(j, p) {
        AddLands(j, p, value.value);
      }
    }
  }

  // ----- copy, move -----

  /** copy succeeds exactly when the source resolves and the target can take a value; then the value the source had
      lands at the target. */
  lemma CopyOp(j: Json, s: string, f: string, value: Option<Json>)
    requires Parse(s).Some? && Parse(f).Some? && Roomy(j, Parse(s).value)
    ensures var r := ApplyOpSpec(j, PatchOp("copy", Some(s), Some(f), value));
            var p, src := Parse(s).value, Parse(f).value;
            && (r.Some? <==> Get(j, src).Some? && Takes(j, p))
            && (r.Some? ==> Lands(j, p, Get(j, src).value, r.value))
  {
    var p, src := Parse(s).value, Parse(f).value;
    if Get(j, src).Some? {
      AddTakes(j, p, Get(j, src).value);
      if Takes(j, p) {
        AddLands(j, p, Get(j, src).value);
      }
    }
  }

  /** move succeeds exactly when the source is a part of the document that resolves, the target is not inside it, and
      the document without it can take a value at the target; then the value lands there in that document. */
  lemma MoveOp(j: Json, s: string, f: string, value: Option<Json>)
    requires Parse(s).Some? && Parse(f).Some?
    requires Remove(j, Parse(f).value).Some? ==> Roomy(Remove(j, Parse(f).value).value.0, Parse(s).value)
    ensures var r := ApplyOpSpec(j, PatchOp("move", Some(s), Some(f), value));
            var p, src := Parse(s).value, Parse(f).value;
            && (r.Some? <==> && src != [] && Get(j, src).Some? && !(src < p)
                             && Takes(Remove(j, src).value.0, p))
            && (r.Some? ==> Lands(Remove(j, src).value.0, p, Get(j, src).value, r.value))
  {
    var p, src := Parse(s).value, Parse(f).value;
    assert src < p <==> IsPrefix(src, p) && src != p by {
      if IsPrefix(src, p) && src != p {
        assert |src| < |p|;
      }
    }
    if Remove(j, src).Some? {
      var (rest, v) := Remove(j, src).value;
      AddTakes(rest, p, v);
      if Takes(rest, p) {
        AddLands(rest, p, v);
      }
    }
  }

  // ----- what stays where it was -----

  /** Neither path leads into what the other names. */
  predicate Apart(p: Pointer, q: Pointer) { !(p <= q) && !(q <= p) }

  lemma ApartTails(p: Pointer, q: Pointer)
    requires p != [] && q != [] && p[0] == q[0] && Apart(p, q)
    ensures Apart(p[1..], q[1..])
  {
    assert p == [p[0]] + p[1..] && q == [q[0]] + q[1..];
  }

  /** Two tokens that resolve in a container and are spelled differently name different children. */
  lemma OtherChild(j: Json, tok: string, c: Json, other: string)
    requires Child(j, tok).Some? && tok != other && (j.Arr? ==> |j.items| <= MAX_INT)
    ensures Child(SetChild(j, tok, c), other) == Child(j, other)
  {
    if j.Arr? {
      var i, k := ArrayIndex(tok, |j.items|, false), ArrayIndex(other, |j.items|, false);
      ArrayIndexMeaning(tok, |j.items|, false, i.value);
      if k.Some? {
        ArrayIndexMeaning(other, |j.items|, false, k.value);
      }
    }
  }

  /** No array on the way is longer than any Go slice. */
  predicate Sized(j: Json)
    decreases j
  {
    match j
    case Atom(_) => true
    case Arr(s) => |s| < MAX_INT && forall i | 0 <= i < |s| :: Sized(s[i])
    case Obj(m) => forall k | k in m :: Sized(m[k])
  }

  /** Substituting at one path leaves every path apart from it alone. */
  lemma {:induction false} PutLeaves(j: Json, p: Pointer, v: Json, q: Pointer)
    requires Sized(j) && Get(j, p).Some? && Apart(p, q)
    ensures Get(Put(j, p, v), q) == Get(j, q)
    decreases |p|
  {
    var c := Child(j, p[0]).value;
    if p[0] == q[0] {
      ApartTails(p, q);
      PutLeaves(c, p[1..], v, q[1..]);
    } else {
      OtherChild(j, p[0], Put(c, p[1..], v), q[0]);
    }
  }

  /** q lies among the elements of the array p ends in, whose positions may shift. */
  predicate Shifts(j: Json, p: Pointer, q: Pointer) {
    p != [] && Parent(j, p).Some? && Parent(j, p).value.Arr? && p[..|p| - 1] <= q
  }

  /** A change of one container's child at p, seen from a path apart from p that does not shift with it. */
  lemma SiblingLeft(j: Json, p: Pointer, c: Json, q: Pointer)
    requires Sized(j) && p != [] && Apart(p, q) && !Shifts(j, p, q)
    requires var front, last := p[..|p| - 1], p[|p| - 1];
             && Get(j, front).Some?
             && (Get(j, front).value.Obj? ==>
                   && c.Obj? && forall k | k != last ::
                        (k in c.members <==> k in Get(j, front).value.members)
                        && (k in c.members ==> c.members[k] == Get(j, front).value.members[k]))
             && !Get(j, front).value.Atom?
    ensures Get(Put(j, p[..|p| - 1], c), q) == Get(j, q)
  {
    var front, last := p[..|p| - 1], p[|p| - 1];
    assert p == front + [last];
    if front <= q {
      var rest := q[|front|..];
      assert q == front + rest;
      assert rest != [];
      GetConcat(Put(j, front, c), front, rest);
      GetConcat(j, front, rest);
      assert rest[0] != last;
    } else {
      assert !(q <= front);
      PutLeaves(j, front, c, q);
    }
  }

  lemma AddLeaves(j: Json, p: Pointer, v: Json, q: Pointer)
    requires Sized(j) && Add(j, p, v).Some? && Apart(p, q) && !Shifts(j, p, q)
    ensures Get(Add(j, p, v).value, q) == Get(j, q)
  {
    var front, last := p[..|p| - 1], p[|p| - 1];
    assert p == front + [last];
    AddViaParent(j, front, last, v);
    SiblingLeft(j, p, Insert(Get(j, front).value, last, v).value, q);
  }

  lemma RemoveLeaves(j: Json, p: Pointer, q: Pointer)
    requires Sized(j) && Remove(j, p).Some? && Apart(p, q) && !Shifts(j, p, q)
    ensures Get(Remove(j, p).value.0, q) == Get(j, q)
  {
    var front, last := p[..|p| - 1], p[|p| - 1];
    assert p == front + [last];
    RemoveViaParent(j, front, last);
    SiblingLeft(j, p, Delete(Get(j, front).value, last).value, q);
  }

  // ----- remove, replace, test -----

  /** remove succeeds exactly when a part of the document is named that resolves; adding the value back at the path
      restores the document, an object no longer has the member, and what does not shift is where it was. */
  lemma RemoveOp(j: Json, s: string, from: Option<string>, value: Option<Json>)
    requires Parse(s).Some?
    ensures var r, p := ApplyOpSpec(j, PatchOp("remove", Some(s), from, value)), Parse(s).value;
            && (r.Some? <==> p != [] && Get(j, p).Some?)
            && (r.Some? ==> Add(r.value, p, Get(j, p).value) == Some(j))
            && (r.Some? && Overwrites(j, p) ==> Get(r.value, p).None?)
            && (Sized(j) && r.Some? ==>
                  forall q | Apart(p, q) && !Shifts(j, p, q) :: Get(r.value, q) == Get(j, q))
  {
    var p := Parse(s).value;
    if p != [] && Get(j, p).Some? {
      RemoveAddIsPut(j, p, Get(j, p).value);
      PutSame(j, p);
      if Overwrites(j, p) {
        MemberGone(j, p);
      }
      if Sized(j) {
        forall q | Apart(p, q) && !Shifts(j, p, q) ensures Get(Remove(j, p).value.0, q) == Get(j, q) {
          RemoveLeaves(j, p, q);
        }
      }
    }
  }

  lemma MemberGone(j: Json, p: Pointer)
    requires Overwrites(j, p)
    ensures Remove(j, p).Some? && Get(Remove(j, p).value.0, p).None?
  {
    var front, last := p[..|p| - 1], p[|p| - 1];
    assert p == front + [last];
    RemoveViaParent(j, front, last);
    GetConcat(Remove(j, p).value.0, front, [last]);
  }

  /** replace succeeds exactly when it has a value and the path resolves; then the value is read there, and the rest
      of the document is what it was. */
  lemma ReplaceOp(j: Json, s: string, from: Option<string>, value: Option<Json>)
    requires Parse(s).Some?
    ensures var r, p := ApplyOpSpec(j, PatchOp("replace", Some(s), from, value)), Parse(s).value;
            && (r.Some? <==> value.Some? && Get(j, p).Some?)
            && (r.Some? ==> Get(r.value, p) == value)
            && (r.Some? && p != [] ==>
                  && Remove(r.value, p).Some? && Remove(j, p).Some?
                  && Remove(r.value, p).value.0 == Remove(j, p).value.0)
  {
    var p := Parse(s).value;
    if p != [] && value.Some? && Get(j, p).Some? {
      RestOfPut(j, p, value.value);
    }
  }

  lemma RestOfPut(j: Json, p: Pointer, v: Json)
    requires p != [] && Get(j, p).Some?
    ensures Remove(j, p).Some? && Remove(Put(j, p, v), p).Some?
    ensures Remove(Put(j, p, v), p).value.0 == Remove(j, p).value.0
  {
    var front, last := p[..|p| - 1], p[|p| - 1];
    assert p == front + [last];
    GetConcat(j, front, [last]);
    var parent := Get(j, front).value;
    assert Child(parent, last).Some?;
    SetChildIsPut(j, front, last, v);
    RemoveViaParent(j, front, last);
    var set' := SetChild(parent, last, v);
    RemoveViaParent(Put(j, front, set'), front, last);
    PutTwice(j, front, set', Delete(set', last).value);
    DeleteSet(parent, last, v);
  }

  lemma DeleteSet(j: Json, tok: string, v: Json)
    requires Child(j, tok).Some?
    ensures Delete(SetChild(j, tok, v), tok) == Delete(j, tok)
  {
    match j {
      case Obj(m) => assert m[tok := v] - {tok} == m - {tok};
      case Arr(s) =>
        var i := ArrayIndex(tok, |s|, false).value;
        assert s[i := v][..i] == s[..i] && s[i := v][i + 1..] == s[i + 1..];
      case Atom(_) =>
    }
  }

  /** test changes nothing, and succeeds exactly when the path reads the value. */
  lemma TestOp(j: Json, s: string, from: Option<string>, value: Option<Json>)
    requires Parse(s).Some?
    ensures ApplyOpSpec(j, PatchOp("test", Some(s), from, value)) ==
            if value.Some? && Get(j, Parse(s).value) == value then Some(j) else None
  {
  }

  /** Only these operations with a well-formed path, and a well-formed source where there is one, can succeed. */
  lemma Refused(j: Json, op: PatchOp)
    requires ApplyOpSpec(j, op).Some?
    ensures op.op in ["add", "remove", "replace", "move", "copy", "test"]
    ensures op.path.Some? && Parse(op.path.value).Some?
    ensures op.op in ["move", "copy"] ==> op.from.Some? && Parse(op.from.value).Some?
  {
  }

  // ----- what the other paths read afterwards -----

  /** Adding and copying leave every path alone that is apart from the target and does not shift with it. */
  lemma AddCopyLeave(j: Json, op: PatchOp, q: Pointer)
    requires op.op == "add" || op.op == "copy"
    requires Sized(j) && ApplyOpSpec(j, op).Some?
    requires Apart(Parse(op.path.value).value, q) && !Shifts(j, Parse(op.path.value).value, q)
    ensures Get(ApplyOpSpec(j, op).value, q) == Get(j, q)
  {
    var p := Parse(op.path.value).value;
    AddLeaves(j, p, if op.op == "add" then op.value.value else Get(j, Parse(op.from.value).value).value, q);
  }

  lemma ReplaceLeaves(j: Json, op: PatchOp, q: Pointer)
    requires op.op == "replace" && Sized(j) && ApplyOpSpec(j, op).Some? && Apart(Parse(op.path.value).value, q)
    ensures Get(ApplyOpSpec(j, op).value, q) == Get(j, q)
  {
    PutLeaves(j, Parse(op.path.value).value, op.value.value, q);
  }

  /** A member moved elsewhere is gone from where it was, and a path apart from both ends reads what it did. */
  lemma MoveLeaves(j: Json, op: PatchOp, q: Pointer)
    requires op.op == "move" && ApplyOpSpec(j, op).Some?
    requires var p, src := Parse(op.path.value).value, Parse(op.from.value).value;
             && Sized(j) && Sized(Remove(j, src).value.0)
             && Apart(p, q) && !Shifts(Remove(j, src).value.0, p, q)
    ensures var src := Parse(op.from.value).value;
            && (q == src && Overwrites(j, src) ==> Get(ApplyOpSpec(j, op).value, q).None?)
            && (Apart(src, q) && !Shifts(j, src, q) ==> Get(ApplyOpSpec(j, op).value, q) == Get(j, q))
  {
    var p, src := Parse(op.path.value).value, Parse(op.from.value).value;
    var (rest, v) := Remove(j, src).value;
    AddLeaves(rest, p, v, q);
    if q == src && Overwrites(j, src) {
      MemberGone(j, src);
    }
    if Apart(src, q) && !Shifts(j, src, q) {
      RemoveLeaves(j, src, q);
    }
  }

  // ----- a whole patch -----

  /** A patch is its first part and then its second, and fails with either. */
  lemma {:induction false} PatchInTurn(j: Json, first: seq<PatchOp>, second: seq<PatchOp>)
    ensures ApplyPatchSpec(j, first + second) ==
            match ApplyPatchSpec(j, first) case None => None case Some(d) => ApplyPatchSpec(d, second)
    decreases |first|
  {
    hide ApplyOpSpec;
    if first == [] {
      assert first + second == second;
    } else {
      assert (first + second)[1..] == first[1..] + second;
      if ApplyOpSpec(j, first[0]).Some? {
        PatchInTurn(ApplyOpSpec(j, first[0]).value, first[1..], second);
      }
    }
  }

  lemma OneOp(j: Json, op: PatchOp)
    ensures ApplyPatchSpec(j, []) == Some(j) && ApplyPatchSpec(j, [op]) == ApplyOpSpec(j, op)
  {
    hide ApplyOpSpec;
    assert [op][1..] == [];
  }
}
