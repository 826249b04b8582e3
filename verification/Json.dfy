/** JSON documents as values, and what the RFC 6902 operations mean on them. */
module JsonDocument {
  import opened Prelude
  import opened JsonPointer

  datatype Scalar = Null | Bool(b: bool) | Num(n: real) | Str(s: string)

  datatype Json = Atom(s: Scalar) | Arr(items: seq<Json>) | Obj(members: map<string, Json>)

  // ----- array reference tokens -----

  const MAX_INT: nat := 0x7fff_ffff_ffff_ffff

  predicate IsDigit(c: char) { '0' <= c <= '9' }

  predicate AllDigits(s: string) { forall i :: 0 <= i < |s| ==> IsDigit(s[i]) }

  function DecimalValue(s: string): nat
    requires AllDigits(s)
  {
    if s == [] then 0 else DecimalValue(s[..|s| - 1]) * 10 + (s[|s| - 1] as int - '0' as int)
  }

  /** The decimal spelling of n. */
  function Decimal(n: nat): (s: string) {
    (if n < 10 then [] else Decimal(n / 10)) + [('0' as int + n % 10) as char]
  }

  /** The array position a reference token names: digits without a leading zero, within bounds;
      "-" (one past the end) only when adding. */
  function ArrayIndex(tok: string, n: nat, adding: bool): (r: Option<nat>)
    ensures r.Some? ==> r.value < n || (adding && r.value == n)
  {
    if tok == "-" && adding then Some(n)
    else if tok == "" || (|tok| > 1 && tok[0] == '0') || !AllDigits(tok) then None
    else
      var i := DecimalValue(tok);
      if i > MAX_INT || i > (if adding then n else n - 1) then None else Some(i)
  }

  lemma {:induction false} DecimalIsCanonical(n: nat)
    ensures var s := Decimal(n);
            s != [] && AllDigits(s) && DecimalValue(s) == n && (|s| > 1 ==> s[0] != '0') && (n > 0 ==> s[0] != '0')
  {
    var s := Decimal(n);
    if n >= 10 {
      DecimalIsCanonical(n / 10);
    }
    assert s[..|s| - 1] == if n < 10 then [] else Decimal(n / 10);
  }

  lemma {:induction false} CanonicalIsDecimal(s: string)
    requires s != [] && AllDigits(s) && (|s| > 1 ==> s[0] != '0')
    ensures Decimal(DecimalValue(s)) == s
  {
    var front, last := s[..|s| - 1], s[|s| - 1];
    if |s| > 1 {
      CanonicalIsDecimal(front);
      PositiveValue(front);
    }
    assert DecimalValue(s) / 10 == DecimalValue(front);
    assert s == front + [last];
  }

  lemma {:induction false} PositiveValue(s: string)
    requires s != [] && AllDigits(s) && s[0] != '0'
    ensures DecimalValue(s) > 0
  {
    if |s| > 1 {
      PositiveValue(s[..|s| - 1]);
    } else {
      assert s[..|s| - 1] == [];
    }
  }

  /** Exactly one token names a position, besides "-": its decimal spelling. */
  lemma ArrayIndexMeaning(tok: string, n: nat, adding: bool, i: nat)
    requires n <= MAX_INT
    ensures ArrayIndex(tok, n, adding) == Some(i) <==>
            || (tok == "-" && adding && i == n)
            || (tok == Decimal(i) && (i < n || (adding && i == n)))
  {
    DecimalIsCanonical(i);
    if ArrayIndex(tok, n, adding).Some? && tok != "-" {
      CanonicalIsDecimal(tok);
    }
    if tok == "-" && tok == Decimal(i) {
      assert IsDigit(tok[0]);
    }
  }

  // ----- reading and substituting -----

  function Child(j: Json, tok: string): Option<Json> {
    match j
    case Obj(m) => if tok in m then Some(m[tok]) else None
    case Arr(s) =>
      var i := ArrayIndex(tok, |s|, false);
      if i.Some? then Some(s[i.value]) else None
    case Atom(_) => None
  }

  function Get(j: Json, p: Pointer): Option<Json> {
    if p == [] then Some(j)
    else match Child(j, p[0]) case None => None case Some(c) => Get(c, p[1..])
  }

  function SetChild(j: Json, tok: string, c: Json): (r: Json)
    requires Child(j, tok).Some?
    ensures Child(r, tok) == Some(c)
  {
    match j
    case Obj(m) => Obj(m[tok := c])
    case Arr(s) => Arr(s[ArrayIndex(tok, |s|, false).value := c])
  }

  /** The document with the value at an existing path replaced, and nothing else changed. */
  function Put(j: Json, p: Pointer, v: Json): (r: Json)
    requires Get(j, p).Some?
    ensures Get(r, p) == Some(v)
    decreases |p|
  {
    if p == [] then v else SetChild(j, p[0], Put(Child(j, p[0]).value, p[1..], v))
  }

  // ----- RFC 6902 section 4 -----

  /** One container with a member set or an element inserted. */
  function Insert(j: Json, tok: string, c: Json): Option<Json> {
    match j
    case Obj(m) => Some(Obj(m[tok := c]))
    case Arr(s) =>
      var i := ArrayIndex(tok, |s|, true);
      if i.Some? then Some(Arr(s[..i.value] + [c] + s[i.value..])) else None
    case Atom(_) => None
  }

  /** One container with a member or an element taken out. */
  function Delete(j: Json, tok: string): (r: Option<Json>)
    ensures r.Some? <==> Child(j, tok).Some?
  {
    match j
    case Obj(m) => if tok in m then Some(Obj(m - {tok})) else None
    case Arr(s) =>
      var i := ArrayIndex(tok, |s|, false);
      if i.Some? then Some(Arr(s[..i.value] + s[i.value + 1..])) else None
    case Atom(_) => None
  }

  /** Section 4.1. */
  function Add(j: Json, p: Pointer, v: Json): Option<Json>
    decreases |p|
  {
    if p == [] then Some(v)
    else if |p| == 1 then Insert(j, p[0], v)
    else
      match Child(j, p[0])
      case None => None
      case Some(c) => match Add(c, p[1..], v) case None => None case Some(c') => Some(SetChild(j, p[0], c'))
  }

  /** Section 4.2, with the removed value. The code refuses to remove the whole document. */
  function Remove(j: Json, p: Pointer): (r: Option<(Json, Json)>)
    ensures r.Some? <==> p != [] && Get(j, p).Some?
    ensures r.Some? ==> Get(j, p) == Some(r.value.1)
    decreases |p|
  {
    if p == [] then None
    else
      match Child(j, p[0])
      case None => None
      case Some(c) =>
        if |p| == 1 then Some((Delete(j, p[0]).value, c))
        else
          match Remove(c, p[1..])
          case None => None
          case Some((c', v)) => Some((SetChild(j, p[0], c'), v))
  }

  /** One patch operation; an absent member of the operation object is None. */
  datatype PatchOp = PatchOp(op: string, path: Option<string>, from: Option<string>, value: Option<Json>)

  predicate IsPrefix(a: Pointer, b: Pointer) { |a| <= |b| && b[..|a|] == a }

  function ApplyOpSpec(doc: Json, op: PatchOp): Option<Json> {
    if op.path.None? || Parse(op.path.value).None? then None
    else
      var path := Parse(op.path.value).value;
      if op.op == "add" then
        if op.value.None? then None else Add(doc, path, op.value.value)
      else if op.op == "replace" then
        if op.value.None? || Get(doc, path).None? then None else Some(Put(doc, path, op.value.value))
      else if op.op == "test" then
        if op.value.Some? && Get(doc, path) == op.value then Some(doc) else None
      else if op.op == "remove" then
        match Remove(doc, path) case None => None case Some((d, _)) => Some(d)
      else if op.op == "move" || op.op == "copy" then
        if op.from.None? || Parse(op.from.value).None? then None
        else
          var src := Parse(op.from.value).value;
          if op.op == "copy" then
            match Get(doc, src) case None => None case Some(v) => Add(doc, path, v)
          else if IsPrefix(src, path) && src != path then None
          else match Remove(doc, src) case None => None case Some((d, v)) => Add(d, path, v)
      else None
  }

  /** Section 5: operations apply in order, and a failing one fails the whole patch. */
  function ApplyPatchSpec(doc: Json, ops: seq<PatchOp>): Option<Json>
    decreases |ops|
  {
    if ops == [] then Some(doc)
    else match ApplyOpSpec(doc, ops[0]) case None => None case Some(d) => ApplyPatchSpec(d, ops[1..])
  }

  // ----- what the operations satisfy -----

  lemma {:induction false} GetConcat(j: Json, p: Pointer, q: Pointer)
    ensures Get(j, p + q) == match Get(j, p) case None => None case Some(c) => Get(c, q)
    decreases |p|
  {
    if p == [] {
      assert p + q == q;
    } else {
      assert (p + q)[1..] == p[1..] + q;
      if Child(j, p[0]).Some? {
        GetConcat(Child(j, p[0]).value, p[1..], q);
      }
    }
  }

  lemma {:induction false} PutSame(j: Json, p: Pointer)
    requires Get(j, p).Some?
    ensures Put(j, p, Get(j, p).value) == j
    decreases |p|
  {
    if p != [] {
      PutSame(Child(j, p[0]).value, p[1..]);
      match j { case Obj(m) => assert m[p[0] := m[p[0]]] == m; case Arr(s) => case Atom(_) => }
    }
  }

  lemma {:induction false} PutTwice(j: Json, p: Pointer, v: Json, w: Json)
    requires Get(j, p).Some?
    ensures Put(Put(j, p, v), p, w) == Put(j, p, w)
    decreases |p|
  {
    if p != [] {
      var c := Child(j, p[0]).value;
      PutTwice(c, p[1..], v, w);
      match j {
        case Obj(m) => assert m[p[0] := Put(c, p[1..], v)][p[0] := Put(c, p[1..], w)] == m[p[0] := Put(c, p[1..], w)];
        case Arr(s) =>
        case Atom(_) =>
      }
    }
  }

  /** Adding is inserting into the parent container and substituting the result for it. */
  lemma {:induction false} AddViaParent(j: Json, front: Pointer, last: string, v: Json)
    ensures Add(j, front + [last], v) ==
            match Get(j, front)
            case None => None
            case Some(parent) =>
              match Insert(parent, last, v) case None => None case Some(c) => Some(Put(j, front, c))
    decreases |front|
  {
    var p := front + [last];
    if front != [] {
      assert p[1..] == front[1..] + [last];
      if Child(j, front[0]).Some? {
        AddViaParent(Child(j, front[0]).value, front[1..], last, v);
      }
    }
  }

  lemma {:induction false} RemoveViaParent(j: Json, front: Pointer, last: string)
    ensures Remove(j, front + [last]) ==
            match Get(j, front)
            case None => None
            case Some(parent) =>
              if Child(parent, last).None? then None
              else Some((Put(j, front, Delete(parent, last).value), Child(parent, last).value))
    decreases |front|
  {
    var p := front + [last];
    if front != [] {
      assert p[1..] == front[1..] + [last];
      if Child(j, front[0]).Some? {
        RemoveViaParent(Child(j, front[0]).value, front[1..], last);
      }
    }
  }

  lemma DeleteInsert(j: Json, tok: string, v: Json)
    requires Child(j, tok).Some?
    ensures Insert(Delete(j, tok).value, tok, v) == Some(SetChild(j, tok, v))
  {
    match j {
      case Obj(m) => assert (m - {tok})[tok := v] == m[tok := v];
      case Arr(s) =>
        var i := ArrayIndex(tok, |s|, false).value;
        var t := s[..i] + s[i + 1..];
        assert t[..i] + [v] + t[i..] == s[i := v];
      case Atom(_) =>
    }
  }

  lemma {:induction false} SetChildIsPut(j: Json, front: Pointer, last: string, v: Json)
    requires Get(j, front).Some? && Child(Get(j, front).value, last).Some?
    ensures Get(j, front + [last]).Some?
    ensures Put(j, front + [last], v) == Put(j, front, SetChild(Get(j, front).value, last, v))
    decreases |front|
  {
    GetConcat(j, front, [last]);
    var p := front + [last];
    if front == [] {
      assert p[1..] == [];
    } else {
      assert p[1..] == front[1..] + [last];
      SetChildIsPut(Child(j, front[0]).value, front[1..], last, v);
    }
  }

  /** Section 4.3: removing and adding back at a path that resolves never fails, and is substitution in place. */
  lemma RemoveAddIsPut(j: Json, p: Pointer, v: Json)
    requires p != [] && Get(j, p).Some?
    ensures Add(Remove(j, p).value.0, p, v) == Some(Put(j, p, v))
  {
    var front, last := p[..|p| - 1], p[|p| - 1];
    assert p == front + [last];
    GetConcat(j, front, [last]);
    var parent := Get(j, front).value;
    assert Get(parent, [last]) == match Child(parent, last) case None => None case Some(c) => Get(c, [last][1..]);
    RemoveViaParent(j, front, last);
    var gone := Delete(parent, last).value;
    var d := Put(j, front, gone);
    AddViaParent(d, front, last, v);
    DeleteInsert(parent, last, v);
    PutTwice(j, front, gone, SetChild(parent, last, v));
    SetChildIsPut(j, front, last, v);
  }

  /** Moving an existing value onto itself changes nothing, unless it is the whole document, which cannot be moved. */
  lemma MoveOntoItself(j: Json, s: string)
    requires Parse(s).Some? && Get(j, Parse(s).value).Some?
    ensures ApplyOpSpec(j, PatchOp("move", Some(s), Some(s), None)) == if Parse(s).value == [] then None else Some(j)
  {
    var p := Parse(s).value;
    if p != [] {
      RemoveAddIsPut(j, p, Get(j, p).value);
      PutSame(j, p);
    }
  }

  /** The path at which a value added at front/last can be read back: "-" is spelled out. */
  function Landed(j: Json, front: Pointer, last: string): Pointer
    requires Get(j, front).Some?
  {
    var parent := Get(j, front).value;
    if parent.Arr? && last == "-" then front + [Decimal(|parent.items|)] else front + [last]
  }

  predicate FitsInt(j: Json) { j.Arr? ==> |j.items| < MAX_INT }

  /** A value just added is read back at the place it was added. */
  lemma ReadBack(j: Json, front: Pointer, last: string, v: Json)
    requires Add(j, front + [last], v).Some?
    requires Get(j, front).Some? ==> FitsInt(Get(j, front).value)
    ensures Get(j, front).Some?
    ensures Get(Add(j, front + [last], v).value, Landed(j, front, last)) == Some(v)
  {
    AddViaParent(j, front, last, v);
    var parent := Get(j, front).value;
    var c := Insert(parent, last, v).value;
    var q := Landed(j, front, last);
    var tok := q[|q| - 1];
    assert q == front + [tok];
    GetConcat(Put(j, front, c), front, [tok]);
    assert [tok][1..] == [];
    if parent.Arr? {
      InsertedIndex(parent.items, last, tok);
    }
  }

  lemma InsertedIndex(s: seq<Json>, last: string, tok: string)
    requires |s| < MAX_INT && ArrayIndex(last, |s|, true).Some?
    requires tok == if last == "-" then Decimal(|s|) else last
    ensures ArrayIndex(tok, |s| + 1, false) == ArrayIndex(last, |s|, true)
  {
    var i := ArrayIndex(last, |s|, true).value;
    ArrayIndexMeaning(last, |s|, true, i);
    ArrayIndexMeaning(tok, |s| + 1, false, i);
  }

  lemma ReadElement(j: Json, front: Pointer, s: seq<Json>, k: nat)
    requires Get(j, front) == Some(Arr(s)) && k < |s| <= MAX_INT
    ensures Get(j, front + [Decimal(k)]) == Some(s[k])
  {
    ArrayIndexMeaning(Decimal(k), |s|, false, k);
    GetConcat(j, front, [Decimal(k)]);
    assert [Decimal(k)][1..] == [];
  }

  /** An insertion moves the elements at and after it one place up and leaves the others where they were. */
  lemma SiblingsShift(j: Json, front: Pointer, i: nat, v: Json, k: nat)
    requires Get(j, front).Some? && Get(j, front).value.Arr?
    requires var n := |Get(j, front).value.items|; n < MAX_INT && i <= n && k < n
    ensures Add(j, front + [Decimal(i)], v).Some?
    ensures Get(Add(j, front + [Decimal(i)], v).value, front + [Decimal(if k < i then k else k + 1)])
         == Get(j, front + [Decimal(k)])
  {
    var s := Get(j, front).value.items;
    AddViaParent(j, front, Decimal(i), v);
    ArrayIndexMeaning(Decimal(i), |s|, true, i);
    var c := s[..i] + [v] + s[i..];
    ReadElement(j, front, s, k);
    ReadElement(Put(j, front, Arr(c)), front, c, if k < i then k else k + 1);
  }

  lemma InsertDelete(parent: Json, last: string, tok: string, v: Json)
    requires FitsInt(parent) && Insert(parent, last, v).Some?
    requires tok == if parent.Arr? && last == "-" then Decimal(|parent.items|) else last
    requires parent.Obj? ==> last !in parent.members
    ensures Delete(Insert(parent, last, v).value, tok) == Some(parent)
  {
    match parent {
      case Obj(m) => assert m[last := v] - {last} == m;
      case Arr(s) =>
        InsertedIndex(s, last, tok);
        var i := ArrayIndex(last, |s|, true).value;
        var t := s[..i] + [v] + s[i..];
        assert t[..i] + t[i + 1..] == s;
      case Atom(_) =>
    }
  }

  /** Adding at a path that did not hold an object member, then removing it, restores the document. */
  lemma AddRemoveRestores(j: Json, front: Pointer, last: string, v: Json)
    requires Add(j, front + [last], v).Some?
    requires Get(j, front).Some? ==> FitsInt(Get(j, front).value)
    requires Get(j, front).Some? && Get(j, front).value.Obj? ==> last !in Get(j, front).value.members
    ensures Get(j, front).Some?
    ensures Remove(Add(j, front + [last], v).value, Landed(j, front, last)) == Some((j, v))
  {
    AddViaParent(j, front, last, v);
    var parent := Get(j, front).value;
    var c := Insert(parent, last, v).value;
    var tok := if parent.Arr? && last == "-" then Decimal(|parent.items|) else last;
    ReadBack(j, front, last, v);
    RemoveViaParent(Put(j, front, c), front, tok);
    InsertDelete(parent, last, tok, v);
    PutTwice(j, front, c, parent);
    PutSame(j, front);
  }
}
