/** Sorting strings: the order of ids in reports, and when two lists of ids are the same. */
module Order {

  predicate Le(a: string, b: string) {
    a == [] || (b != [] && (a[0] < b[0] || (a[0] == b[0] && Le(a[1..], b[1..]))))
  }

  lemma {:induction false} LeTotal(a: string, b: string)
    ensures Le(a, b) || Le(b, a)
    ensures Le(a, b) && Le(b, a) ==> a == b
  {
    if a != [] && b != [] && a[0] == b[0] {
      LeTotal(a[1..], b[1..]);
      assert a == [a[0]] + a[1..] && b == [b[0]] + b[1..];
    }
  }

  lemma {:induction false} LeTransitive(a: string, b: string, c: string)
    requires Le(a, b) && Le(b, c)
    ensures Le(a, c)
  {
    if a != [] && a[0] == b[0] == c[0] {
      LeTransitive(a[1..], b[1..], c[1..]);
    }
  }

  ghost predicate Sorted(s: seq<string>) { forall i, j | 0 <= i < j < |s| :: Le(s[i], s[j]) }

  function Insert(x: string, s: seq<string>): (r: seq<string>)
    ensures multiset(r) == multiset(s) + multiset{x}
  {
    if s == [] then [x]
    else if Le(x, s[0]) then [x] + s
    else
      assert s == [s[0]] + s[1..];
      [s[0]] + Insert(x, s[1..])
  }

  function Sort(s: seq<string>): (r: seq<string>)
    ensures multiset(r) == multiset(s)
  {
    if s == [] then []
    else
      assert s == [s[0]] + s[1..];
      Insert(s[0], Sort(s[1..]))
  }

  lemma {:induction false} InsertSorted(x: string, s: seq<string>)
    requires Sorted(s)
    ensures Sorted(Insert(x, s))
  {
    if s != [] {
      LeTotal(x, s[0]);
      if Le(x, s[0]) {
        forall j | 0 <= j < |s| ensures Le(x, s[j]) {
          if j > 0 { LeTransitive(x, s[0], s[j]); }
        }
      } else {
        InsertSorted(x, s[1..]);
        var r := Insert(x, s[1..]);
        forall j | 0 <= j < |r| ensures Le(s[0], r[j]) {
          assert r[j] in multiset(r);
          if r[j] != x {
            assert r[j] in s[1..];
            var k :| 1 <= k < |s| && s[k] == r[j];
          }
        }
      }
    }
  }

  lemma {:induction false} SortSorted(s: seq<string>)
    ensures Sorted(Sort(s))
  {
    if s != [] {
      SortSorted(s[1..]);
      InsertSorted(s[0], Sort(s[1..]));
    }
  }

  lemma SameHead(a: seq<string>, b: seq<string>)
    requires Sorted(a) && Sorted(b) && multiset(a) == multiset(b) && a != []
    ensures b != [] && a[0] == b[0]
  {
    assert a[0] in multiset(b);
    var i :| 0 <= i < |b| && b[i] == a[0];
    assert b[0] in multiset(a);
    var j :| 0 <= j < |a| && a[j] == b[0];
    assert Le(a[0], a[j]) by { LeTotal(a[0], a[0]); }
    assert Le(b[0], b[i]) by { LeTotal(b[0], b[0]); }
    LeTotal(a[0], b[0]);
  }

  lemma {:induction false} SortedUnique(a: seq<string>, b: seq<string>)
    requires Sorted(a) && Sorted(b) && multiset(a) == multiset(b)
    ensures a == b
  {
    assert |multiset(a)| == |a| && |multiset(b)| == |b|;
    if a != [] {
      SameHead(a, b);
      assert a == [a[0]] + a[1..] && b == [b[0]] + b[1..];
      assert multiset(a[1..]) == multiset(a) - multiset{a[0]};
      assert multiset(b[1..]) == multiset(b) - multiset{b[0]};
      SortedUnique(a[1..], b[1..]);
    }
  }

  /** Two lists sort to the same list exactly when they hold the same strings equally often. */
  lemma SortEqual(a: seq<string>, b: seq<string>)
    ensures Sort(a) == Sort(b) <==> multiset(a) == multiset(b)
  {
    SortSorted(a);
    SortSorted(b);
    if multiset(a) == multiset(b) {
      SortedUnique(Sort(a), Sort(b));
    }
  }

  /** The members of a set in some order. */
  ghost function Enumerated(s: set<string>): (r: seq<string>)
    ensures multiset(r) == multiset(s)
  {
    if s == {} then []
    else
      var x :| x in s;
      assert multiset(s) == multiset(s - {x}) + multiset{x};
      [x] + Enumerated(s - {x})
  }

  ghost function SortedSet(s: set<string>): seq<string> { Sort(Enumerated(s)) }

  /** The ids of a set, sorted: collected in map order, then sorted. */
  method SortIds(s: set<string>) returns (r: seq<string>)
    ensures r == SortedSet(s)
  {
    var ids := [];
    var todo := s;
    while todo != {}
      invariant multiset(ids) + multiset(todo) == multiset(s)
      decreases todo
    {
      var x :| x in todo;
      assert multiset(todo) == multiset(todo - {x}) + multiset{x};
      ids := ids + [x];
      todo := todo - {x};
    }
    SortEqual(ids, Enumerated(s));
    r := Sort(ids);
  }

  /** slices.Compact: runs of equal neighbours replaced by one. */
  function Compact(s: seq<string>): seq<string> {
    if |s| < 2 then s else if s[0] == s[1] then Compact(s[1..]) else [s[0]] + Compact(s[1..])
  }

  ghost predicate Distinct(s: seq<string>) { forall i, j | 0 <= i < j < |s| :: s[i] != s[j] }

  lemma {:induction false} CompactMembers(s: seq<string>, x: string)
    ensures x in Compact(s) <==> x in s
  {
    if |s| >= 2 {
      CompactMembers(s[1..], x);
      assert s == [s[0]] + s[1..];
      assert s[1] in s[1..];
    }
  }

  lemma {:induction false} CompactSorted(s: seq<string>)
    requires Sorted(s)
    ensures Sorted(Compact(s)) && Distinct(Compact(s))
  {
    if |s| >= 2 {
      CompactSorted(s[1..]);
      var rest := Compact(s[1..]);
      if s[0] != s[1] {
        forall k | 0 <= k < |rest| ensures Le(s[0], rest[k]) && s[0] != rest[k] {
          CompactMembers(s[1..], rest[k]);
          var i :| 1 <= i < |s| && s[i] == rest[k];
          LeTotal(s[0], s[1]);
          LeTotal(s[1], s[1]);
          assert Le(s[1], s[i]);
        }
      }
    }
  }

  lemma OneMoreMember(s: set<string>, x: string)
    requires x !in s
    ensures multiset(s + {x}) == multiset(s) + multiset{x}
  {
  }

  lemma HeadAndTail(s: seq<string>)
    requires s != []
    ensures (set x | x in s) == (set x | x in s[1..]) + {s[0]}
    ensures multiset(s) == multiset(s[1..]) + multiset{s[0]}
  {
    assert s == [s[0]] + s[1..];
  }

  lemma {:induction false} DistinctMultiset(s: seq<string>)
    requires Distinct(s)
    ensures multiset(s) == multiset(set x | x in s)
  {
    if s != [] {
      DistinctMultiset(s[1..]);
      HeadAndTail(s);
      OneMoreMember((set x | x in s[1..]), s[0]);
    }
  }

  /** Sorting and compacting a list lists the set of its members. */
  lemma CompactIsSet(s: seq<string>)
    ensures Compact(Sort(s)) == SortedSet(set x | x in s)
  {
    var c := Compact(Sort(s));
    SortSorted(s);
    CompactSorted(Sort(s));
    DistinctMultiset(c);
    var members := set x | x in s;
    forall x ensures x in c <==> x in members {
      CompactMembers(Sort(s), x);
      assert x in multiset(s) <==> x in multiset(Sort(s));
    }
    assert (set x | x in c) == members;
    SortSorted(Enumerated(members));
    SortedUnique(c, SortedSet(members));
  }
}
