/** Partial reruns: fresh results merged over stored ones, and baselines carried forward.

    Model of mergeEvalResults, mergeBaseline, baselineStale, the baseline part of runEvals and the snapshot rotation
    of buildEvalEntry in internal/run/evals.go. */
module EvalMerges {
  import opened Prelude

  /** One stored result. `detail` is what a snapshot trims away. */
  datatype Result = Result(id: string, fingerprint: string, passed: Option<bool>, detail: string)

  /** One authored eval with its content fingerprint. */
  datatype Eval = Eval(id: string, fingerprint: string)

  datatype Snapshot = Snapshot(results: seq<Result>, ranAt: string)
  datatype Entry = Entry(
    results: seq<Result>, executed: bool, ranAt: string, baseline: Option<Snapshot>, previous: Option<Snapshot>)

  function Trimmed(r: Result): Result { r.(detail := "") }

  /** The results indexed by id; a later one replaces an earlier. */
  function ById(rs: seq<Result>): map<string, Result> {
    if rs == [] then map[] else ById(rs[..|rs| - 1])[rs[|rs| - 1].id := rs[|rs| - 1]]
  }

  lemma {:induction false} ByIdKeepsIds(rs: seq<Result>)
    ensures forall id | id in ById(rs) :: ById(rs)[id].id == id
  {
    if rs != [] {
      ByIdKeepsIds(rs[..|rs| - 1]);
    }
  }

  lemma {:induction false} ByIdKeys(rs: seq<Result>, id: string)
    ensures id in ById(rs) <==> exists r :: r in rs && r.id == id
  {
    if rs != [] {
      ByIdKeys(rs[..|rs| - 1], id);
      assert forall r :: r in rs <==> r in rs[..|rs| - 1] || r == rs[|rs| - 1] by {
        assert rs == rs[..|rs| - 1] + [rs[|rs| - 1]];
      }
    }
  }

  lemma {:induction false} ByIdConcat(a: seq<Result>, b: seq<Result>)
    ensures ById(a + b) == ById(a) + ById(b)
  {
    if b == [] {
      assert a + b == a;
      assert ById(b) == map[];
    } else {
      ByIdSnoc(a + b[..|b| - 1], b[|b| - 1]);
      assert a + b == a + b[..|b| - 1] + [b[|b| - 1]];
      ByIdConcat(a, b[..|b| - 1]);
    }
  }

  lemma ByIdSnoc(rs: seq<Result>, r: Result)
    ensures ById(rs + [r]) == ById(rs)[r.id := r]
  {
    assert (rs + [r])[..|rs|] == rs;
  }

  /** What a map of results holds for these ids, in their order. */
  function Listed(m: map<string, Result>, ids: seq<string>): seq<Result> {
    if ids == [] then []
    else
      var id := ids[|ids| - 1];
      Listed(m, ids[..|ids| - 1]) + if id in m then [m[id]] else []
  }

  /** The saved list of a rerun: in spec order, the fresh result where there is one, else the stored one. */
  function Merged(stored: seq<Result>, more: seq<Result>, ids: seq<string>): seq<Result> {
    Listed(ById(stored) + ById(more), ids)
  }

  method IndexById(rs: seq<Result>) returns (m: map<string, Result>)
    ensures m == ById(rs)
  {
    m := map[];
    for i := 0 to |rs|
      invariant m == ById(rs[..i])
    {
      assert rs[..i + 1][..i] == rs[..i];
      m := m[rs[i].id := rs[i]];
    }
    assert rs[..|rs|] == rs;
  }

  method MergeEvalResults(existing: Option<Entry>, more: seq<Result>, ids: seq<string>) returns (merged: seq<Result>)
    ensures merged == Merged(if existing.Some? then existing.value.results else [], more, ids)
  {
    var freshById := IndexById(more);
    var storedById := map[];
    if existing.Some? {
      storedById := IndexById(existing.value.results);
    }
    ghost var both := storedById + freshById;
    merged := [];
    for i := 0 to |ids|
      invariant merged == Listed(both, ids[..i])
    {
      assert ids[..i + 1][..i] == ids[..i];
      if ids[i] in freshById {
        merged := merged + [freshById[ids[i]]];
      } else if ids[i] in storedById {
        merged := merged + [storedById[ids[i]]];
      }
    }
    assert ids[..|ids|] == ids;
  }

  // ----- reruns compose -----

  function Restricted(m: map<string, Result>, ids: seq<string>): map<string, Result> {
    map id | id in m && id in ids :: m[id]
  }

  lemma {:induction false} ListedById(m: map<string, Result>, ids: seq<string>)
    requires forall id | id in m :: m[id].id == id
    ensures ById(Listed(m, ids)) == Restricted(m, ids)
  {
    hide ById;
    if ids == [] {
      NoneById();
    } else {
      var front, id := ids[..|ids| - 1], ids[|ids| - 1];
      assert ids == front + [id];
      ListedById(m, front);
      if id in m {
        ByIdSnoc(Listed(m, front), m[id]);
      } else {
        assert Listed(m, front) + [] == Listed(m, front);
      }
    }
  }

  lemma NoneById()
    ensures ById([]) == map[]
  {
  }

  lemma {:induction false} ListedSame(m: map<string, Result>, n: map<string, Result>, ids: seq<string>)
    requires forall id | id in ids :: (id in m <==> id in n) && (id in m ==> m[id] == n[id])
    ensures Listed(m, ids) == Listed(n, ids)
  {
    if ids != [] {
      assert ids[|ids| - 1] in ids;
      ListedSame(m, n, ids[..|ids| - 1]);
    }
  }

  /** The ids of a merge: those of the spec with a result, in spec order. Results of removed evals are pruned. */
  lemma {:induction false} MergedIsSpecOrder(m: map<string, Result>, ids: seq<string>)
    requires forall id | id in m :: m[id].id == id
    ensures Map((r: Result) => r.id, Listed(m, ids)) == Filter((id: string) => id in m, ids)
  {
    if ids == [] {
    } else {
      var front, id := ids[..|ids| - 1], ids[|ids| - 1];
      assert ids == front + [id];
      MergedIsSpecOrder(m, front);
      FilterConcat((x: string) => x in m, front, [id]);
      FilterSingle((x: string) => x in m, id);
    }
  }

  lemma FilterSingle(keep: string -> bool, id: string)
    ensures Filter(keep, [id]) == if keep(id) then [id] else []
  {
    if keep(id) {
      FilterAll(keep, [id]);
    } else {
      FilterNone(keep, [id]);
    }
  }

  /** Nothing the second rerun needs was pruned by the first: each of its evals was in the first rerun's spec, or is
      run again, or had no result. */
  predicate NothingLost(stored: seq<Result>, first: seq<Result>, ids1: seq<string>, second: seq<Result>,
                        ids2: seq<string>)
  {
    forall id | id in ids2 :: id in ids1 || id in ById(second) || id !in ById(stored) + ById(first)
  }

  /** Merging two reruns one after the other equals merging their right-biased overlay at once, exactly when nothing
      the second needs was pruned by the first; in particular when the spec did not change. */
  lemma RerunsCompose(stored: seq<Result>, first: seq<Result>, ids1: seq<string>, second: seq<Result>,
                      ids2: seq<string>)
    ensures Merged(Merged(stored, first, ids1), second, ids2) == Merged(stored, first + second, ids2) <==>
              NothingLost(stored, first, ids1, second, ids2)
  {
    hide ById, Listed;
    ByIdKeepsIds(stored);
    ByIdKeepsIds(first);
    var m := ById(stored) + ById(first);
    ListedById(m, ids1);
    ByIdConcat(first, second);
    RestrictedThenMore(m, ById(second), ids1, ids2);
    assert ById(stored) + (ById(first) + ById(second)) == m + ById(second);
  }

  /** Dropping what is not listed first loses something exactly when it is listed afterwards and not replaced. */
  lemma RestrictedThenMore(m: map<string, Result>, more: map<string, Result>, ids1: seq<string>, ids2: seq<string>)
    ensures Listed(Restricted(m, ids1) + more, ids2) == Listed(m + more, ids2) <==>
              (forall id | id in ids2 :: id in ids1 || id in more || id !in m)
  {
    hide Listed;
    var twice, once := Restricted(m, ids1) + more, m + more;
    if forall id | id in ids2 :: id in ids1 || id in more || id !in m {
      ListedSame(twice, once, ids2);
    } else {
      var id :| id in ids2 && !(id in ids1 || id in more || id !in m);
      FewerListed(twice, once, ids2, id);
    }
  }

  lemma {:induction false} FewerListed(m: map<string, Result>, n: map<string, Result>, ids: seq<string>, id: string)
    requires m.Keys <= n.Keys && id in ids && id in n && id !in m
    ensures |Listed(m, ids)| < |Listed(n, ids)|
  {
    var front, last := ids[..|ids| - 1], ids[|ids| - 1];
    assert ids == front + [last];
    if id in front {
      FewerListed(m, n, front, id);
    } else {
      NoMoreListed(m, n, front);
    }
  }

  lemma {:induction false} NoMoreListed(m: map<string, Result>, n: map<string, Result>, ids: seq<string>)
    requires m.Keys <= n.Keys
    ensures |Listed(m, ids)| <= |Listed(n, ids)|
  {
    if ids != [] {
      NoMoreListed(m, n, ids[..|ids| - 1]);
    }
  }

  // ----- baselines -----

  function FirstWith(rs: seq<Result>, id: string): Option<Result> {
    if rs == [] then None else if rs[0].id == id then Some(rs[0]) else FirstWith(rs[1..], id)
  }

  /** The stored baseline is missing, or recorded for other content. Only the first result of the id is looked at. */
  predicate Stale(prior: Option<Snapshot>, e: Eval) {
    prior.None? || FirstWith(prior.value.results, e.id).None? ||
    FirstWith(prior.value.results, e.id).value.fingerprint != e.fingerprint
  }

  method BaselineStale(prior: Option<Snapshot>, e: Eval) returns (stale: bool)
    ensures stale <==> Stale(prior, e)
  {
    if prior.None? {
      return true;
    }
    var i := 0;
    while i < |prior.value.results|
      invariant 0 <= i <= |prior.value.results|
      invariant FirstWith(prior.value.results, e.id) == FirstWith(prior.value.results[i..], e.id)
    {
      if prior.value.results[i].id == e.id {
        return prior.value.results[i].fingerprint != e.fingerprint;
      }
      i := i + 1;
    }
    stale := true;
  }

  /** A baseline run of an eval: whatever the session gives, recorded under the eval and its content. */
  function BaselineRun(session: Eval -> Result, e: Eval): Result {
    session(e).(id := e.id, fingerprint := e.fingerprint)
  }

  /** The baselines that ran: one per stale eval, by id; a later eval of the same id replaces an earlier. */
  function BaselinesRun(prior: Option<Snapshot>, evals: seq<Eval>, session: Eval -> Result): map<string, Result> {
    if evals == [] then map[]
    else
      var before, e := BaselinesRun(prior, evals[..|evals| - 1], session), evals[|evals| - 1];
      if Stale(prior, e) then before[e.id := BaselineRun(session, e)] else before
  }

  function Below(n: nat): (r: set<nat>)
    ensures forall i: nat :: i in r <==> i < n
  {
    if n == 0 then {} else Below(n - 1) + {n - 1}
  }

  /** The baseline part of running the evals: each fills its own slot, in any order, and the slots are then indexed. */
  method RunBaselines(prior: Option<Snapshot>, evals: seq<Eval>, session: Eval -> Result)
    returns (out: map<string, Result>)
    ensures out == BaselinesRun(prior, evals, session)
  {
    hide Stale, BaselineRun, BaselinesRun;
    var slots := new Option<Result>[|evals|](_ => None);
    var todo := Below(|evals|);
    while todo != {}
      invariant forall i | i in todo :: 0 <= i < |evals|
      invariant forall i | 0 <= i < |evals| ::
                  slots[i] == if i !in todo && Stale(prior, evals[i]) then Some(BaselineRun(session, evals[i]))
                              else None
      decreases |todo|
    {
      var i: nat :| i in todo;
      var stale := BaselineStale(prior, evals[i]);
      if stale {
        slots[i] := Some(BaselineRun(session, evals[i]));
      }
      todo := todo - {i};
    }
    NoBaselines(prior, session);
    out := map[];
    for i := 0 to |evals|
      invariant out == BaselinesRun(prior, evals[..i], session)
      invariant forall k | 0 <= k < |evals| ::
                  slots[k] == if Stale(prior, evals[k]) then Some(BaselineRun(session, evals[k])) else None
    {
      OneMoreBaseline(prior, evals, i, session);
      if slots[i].Some? {
        out := out[evals[i].id := slots[i].value];
      }
    }
    assert evals[..|evals|] == evals;
  }

  lemma OneMoreBaseline(prior: Option<Snapshot>, evals: seq<Eval>, i: nat, session: Eval -> Result)
    requires i < |evals|
    ensures var before, after := BaselinesRun(prior, evals[..i], session), BaselinesRun(prior, evals[..i + 1], session);
            after == if Stale(prior, evals[i]) then before[evals[i].id := BaselineRun(session, evals[i])] else before
  {
    hide Stale, BaselineRun;
    assert evals[..i + 1][..i] == evals[..i];
  }

  lemma NoBaselines(prior: Option<Snapshot>, session: Eval -> Result)
    ensures BaselinesRun(prior, [], session) == map[]
  {
  }

  function TrimmedAll(m: map<string, Result>): map<string, Result> { map id | id in m :: Trimmed(m[id]) }

  /** The stored baseline overlaid with those that ran. */
  function Overlaid(kept: Option<Snapshot>, ran: map<string, Result>): map<string, Result> {
    (if kept.Some? then ById(kept.value.results) else map[]) + TrimmedAll(ran)
  }

  function Ids(rs: seq<Result>): seq<string> { Map((r: Result) => r.id, rs) }

  /** The new baseline: carried forward, overlaid, pruned to the current evals in their order; None when empty. Its
      time advances only when a baseline ran. */
  function MergedBaseline(kept: Option<Snapshot>, ran: map<string, Result>, current: seq<Result>, now: string)
    : Option<Snapshot>
  {
    var out := Listed(Overlaid(kept, ran), Ids(current));
    if out == [] then None
    else Some(Snapshot(out, if ran != map[] then now else if kept.Some? then kept.value.ranAt else ""))
  }

  /** The overlay with these ids still to come. */
  function OverlaidBut(carried: map<string, Result>, ran: map<string, Result>, todo: set<string>)
    : map<string, Result>
  {
    carried + TrimmedAll(ran - todo)
  }

  lemma NoneOverlaid(carried: map<string, Result>, ran: map<string, Result>)
    ensures OverlaidBut(carried, ran, ran.Keys) == carried
  {
  }

  lemma OneMoreOverlaid(carried: map<string, Result>, ran: map<string, Result>, todo: set<string>, id: string)
    requires id in todo && todo <= ran.Keys
    ensures OverlaidBut(carried, ran, todo - {id}) == OverlaidBut(carried, ran, todo)[id := Trimmed(ran[id])]
  {
  }

  lemma AllOverlaid(kept: Option<Snapshot>, ran: map<string, Result>)
    ensures OverlaidBut(if kept.Some? then ById(kept.value.results) else map[], ran, {}) == Overlaid(kept, ran)
  {
    hide ById;
    assert ran - {} == ran;
  }

  /** The overlay, the baselines that ran taken in any order. */
  method Overlay(kept: Option<Snapshot>, ran: map<string, Result>) returns (byId: map<string, Result>)
    ensures byId == Overlaid(kept, ran)
  {
    hide *;
    byId := map[];
    if kept.Some? {
      byId := IndexById(kept.value.results);
    }
    ghost var carried := byId;
    NoneOverlaid(carried, ran);
    var todo := ran.Keys;
    while todo != {}
      invariant todo <= ran.Keys && byId == OverlaidBut(carried, ran, todo)
      decreases |todo|
    {
      var id :| id in todo;
      OneMoreOverlaid(carried, ran, todo, id);
      byId := byId[id := Trimmed(ran[id])];
      todo := todo - {id};
    }
    AllOverlaid(kept, ran);
  }

  method MergeBaseline(kept: Option<Snapshot>, ran: map<string, Result>, current: seq<Result>, now: string)
    returns (snap: Option<Snapshot>)
    ensures snap == MergedBaseline(kept, ran, current, now)
  {
    hide Overlaid;
    var byId := Overlay(kept, ran);
    var out: seq<Result> := [];
    for i := 0 to |current|
      invariant out == Listed(byId, Ids(current[..i]))
    {
      assert Ids(current[..i + 1])[..i] == Ids(current[..i]);
      if current[i].id in byId {
        out := out + [byId[current[i].id]];
      }
    }
    assert current[..|current|] == current;
    if |out| == 0 {
      return None;
    }
    var ranAt := "";
    if |ran| > 0 {
      ranAt := now;
    } else if kept.Some? {
      ranAt := kept.value.ranAt;
    }
    snap := Some(Snapshot(out, ranAt));
  }

  // ----- baselines converge -----

  lemma {:induction false} RanExactlyTheStale(prior: Option<Snapshot>, evals: seq<Eval>, session: Eval -> Result,
                                              e: Eval)
    requires forall d | d in evals && d.id == e.id :: d == e
    ensures var ran := BaselinesRun(prior, evals, session);
            && (e.id in ran <==> e in evals && Stale(prior, e))
            && (e.id in ran ==> ran[e.id] == BaselineRun(session, e))
  {
    hide Stale;
    if evals != [] {
      var front, last := evals[..|evals| - 1], evals[|evals| - 1];
      assert evals == front + [last];
      RanExactlyTheStale(prior, front, session, e);
    }
  }

  lemma {:induction false} FirstListed(m: map<string, Result>, ids: seq<string>, id: string)
    requires forall k | k in m :: m[k].id == k
    ensures FirstWith(Listed(m, ids), id) == if id in m && id in ids then Some(m[id]) else None
  {
    if ids != [] {
      var front, last := ids[..|ids| - 1], ids[|ids| - 1];
      assert ids == front + [last];
      FirstListed(m, front, id);
      FirstConcat(Listed(m, front), if last in m then [m[last]] else [], id);
    }
  }

  lemma {:induction false} FirstConcat(a: seq<Result>, b: seq<Result>, id: string)
    ensures FirstWith(a + b, id) == if FirstWith(a, id).Some? then FirstWith(a, id) else FirstWith(b, id)
  {
    if a == [] {
      assert a + b == b;
    } else {
      assert (a + b)[1..] == a[1..] + b;
      FirstConcat(a[1..], b, id);
    }
  }

  lemma {:induction false} FirstIsThere(rs: seq<Result>, id: string)
    ensures FirstWith(rs, id).Some? <==> id in ById(rs)
    ensures FirstWith(rs, id).Some? ==> FirstWith(rs, id).value in rs && FirstWith(rs, id).value.id == id
  {
    ByIdKeys(rs, id);
    hide ById;
    if rs != [] {
      FirstIsThere(rs[1..], id);
      ByIdKeys(rs[1..], id);
      assert forall r :: r in rs <==> r == rs[0] || r in rs[1..];
    }
  }

  lemma OverlaidKeepsIds(kept: Option<Snapshot>, ran: map<string, Result>)
    requires forall id | id in ran :: ran[id].id == id
    ensures forall id | id in Overlaid(kept, ran) :: Overlaid(kept, ran)[id].id == id
  {
    if kept.Some? {
      ByIdKeepsIds(kept.value.results);
    }
    hide ById;
  }

  lemma {:induction false} RanKeepsIds(prior: Option<Snapshot>, evals: seq<Eval>, session: Eval -> Result)
    ensures forall id | id in BaselinesRun(prior, evals, session) :: BaselinesRun(prior, evals, session)[id].id == id
  {
    hide Stale;
    if evals != [] {
      RanKeepsIds(prior, evals[..|evals| - 1], session);
    }
  }

  /** After a unit ran with baselines on, an eval it ran is stale exactly when it was not stale before but the last
      stored result of its id, the one carried forward, is for other content than the first, the one looked at. */
  lemma StaleAfterwards(kept: Option<Snapshot>, evals: seq<Eval>, session: Eval -> Result, current: seq<Result>,
                        now: string, e: Eval)
    requires e in evals && (forall d | d in evals && d.id == e.id :: d == e) && e.id in Ids(current)
    ensures var after := MergedBaseline(kept, BaselinesRun(kept, evals, session), current, now);
            Stale(after, e) <==>
              !Stale(kept, e) && e.id in ById(kept.value.results) &&
              ById(kept.value.results)[e.id].fingerprint != e.fingerprint
  {
    var ran := BaselinesRun(kept, evals, session);
    RanExactlyTheStale(kept, evals, session, e);
    RanKeepsIds(kept, evals, session);
    OverlaidKeepsIds(kept, ran);
    FirstListed(Overlaid(kept, ran), Ids(current), e.id);
    if kept.Some? {
      FirstIsThere(kept.value.results, e.id);
    }
    hide ById, BaselinesRun, FirstWith, Listed;
  }

  /** All results of an id in a snapshot are for the same content. */
  predicate Consistent(snap: Option<Snapshot>, id: string) {
    snap.Some? ==>
      forall r, s | r in snap.value.results && s in snap.value.results && r.id == id && s.id == id ::
        r.fingerprint == s.fingerprint
  }

  /** So baselines converge: over a consistent stored baseline, no eval the unit ran is stale afterwards. */
  lemma BaselinesConverge(kept: Option<Snapshot>, evals: seq<Eval>, session: Eval -> Result, current: seq<Result>,
                          now: string, e: Eval)
    requires e in evals && (forall d | d in evals && d.id == e.id :: d == e) && e.id in Ids(current)
    requires Consistent(kept, e.id)
    ensures !Stale(MergedBaseline(kept, BaselinesRun(kept, evals, session), current, now), e)
  {
    StaleAfterwards(kept, evals, session, current, now, e);
    if kept.Some? {
      FirstIsThere(kept.value.results, e.id);
      LastIsThere(kept.value.results, e.id);
    }
    hide ById, BaselinesRun, FirstWith, MergedBaseline;
  }

  lemma {:induction false} LastIsThere(rs: seq<Result>, id: string)
    ensures id in ById(rs) ==> ById(rs)[id] in rs && ById(rs)[id].id == id
  {
    if rs != [] {
      LastIsThere(rs[..|rs| - 1], id);
      assert rs == rs[..|rs| - 1] + [rs[|rs| - 1]];
    }
  }

  /** And every baseline a merge writes is consistent, whatever it was merged from. */
  lemma MergesAreConsistent(kept: Option<Snapshot>, ran: map<string, Result>, current: seq<Result>, now: string,
                            id: string)
    requires forall k | k in ran :: ran[k].id == k
    ensures Consistent(MergedBaseline(kept, ran, current, now), id)
  {
    OverlaidKeepsIds(kept, ran);
    hide Overlaid;
    var m := Overlaid(kept, ran);
    forall r | r in Listed(m, Ids(current)) ensures r.id in m && r == m[r.id] {
      ListedFrom(m, Ids(current), r);
    }
  }

  lemma {:induction false} ListedFrom(m: map<string, Result>, ids: seq<string>, r: Result)
    requires (forall k | k in m :: m[k].id == k) && r in Listed(m, ids)
    ensures r.id in m && r == m[r.id]
  {
    var front, last := ids[..|ids| - 1], ids[|ids| - 1];
    if r in Listed(m, front) {
      ListedFrom(m, front, r);
    }
  }

  /** A stored baseline with two results of one id, only the first for the current content: the eval is not stale, its
      baseline is not run again, and it is stale afterwards. */
  lemma InconsistentBaselineGoesStale(session: Eval -> Result, now: string)
    ensures var e := Eval("a", "new");
            var kept := Some(Snapshot([Result("a", "new", None, ""), Result("a", "old", None, "")], ""));
            && !Stale(kept, e)
            && Stale(MergedBaseline(kept, BaselinesRun(kept, [e], session), [Result("a", "", None, "")], now), e)
  {
    var e, first, second := Eval("a", "new"), Result("a", "new", None, ""), Result("a", "old", None, "");
    var kept := Some(Snapshot([first, second], ""));
    var current := [Result("a", "", None, "")];
    assert FirstWith(kept.value.results, "a") == Some(first);
    assert Ids(current)[0] == "a";
    ByIdSnoc([first], second);
    assert kept.value.results == [first] + [second];
    StaleAfterwards(kept, [e], session, current, now, e);
  }

  // ----- the saved entry -----

  /** An executed entry as the previous of the run that replaces it. */
  function SnapshotOf(e: Option<Entry>): Option<Snapshot> {
    if e.None? || !e.value.executed then None
    else Some(Snapshot(Map((r: Result) => Trimmed(r), e.value.results), e.value.ranAt))
  }

  /** The entry saved for a unit: a real run rotates the replaced entry into previous and merges the baseline; a
      count-only pass keeps both snapshots. */
  method BuildEntry(executed: bool, merged: seq<Result>, kept: Option<Entry>, ran: map<string, Result>, now: string)
    returns (entry: Entry)
    ensures entry.results == merged && entry.executed == executed && entry.ranAt == now
    ensures executed ==>
              && entry.previous == SnapshotOf(kept)
              && entry.baseline == MergedBaseline(if kept.Some? then kept.value.baseline else None, ran, merged, now)
    ensures !executed ==>
              && entry.previous == (if kept.Some? then kept.value.previous else None)
              && entry.baseline == (if kept.Some? then kept.value.baseline else None)
  {
    entry := Entry(merged, executed, now, None, None);
    if executed {
      if kept.Some? && kept.value.executed {
        var trimmed: seq<Result> := [];
        for i := 0 to |kept.value.results|
          invariant trimmed == Map((r: Result) => Trimmed(r), kept.value.results[..i])
        {
          trimmed := trimmed + [Trimmed(kept.value.results[i])];
        }
        assert kept.value.results[..|kept.value.results|] == kept.value.results;
        entry := entry.(previous := Some(Snapshot(trimmed, kept.value.ranAt)));
      }
      var base := MergeBaseline(if kept.Some? then kept.value.baseline else None, ran, merged, now);
      entry := entry.(baseline := base);
    } else if kept.Some? {
      entry := entry.(previous := kept.value.previous, baseline := kept.value.baseline);
    }
  }

  /** One executed unit with baselines on: reruns merged, baselines run and the entry saved. */
  method RunUnit(kept: Option<Entry>, evals: seq<Eval>, ids: seq<string>, more: seq<Result>, session: Eval -> Result,
                 now: string)
    returns (entry: Entry)
    requires forall i, j | 0 <= i < j < |evals| :: evals[i].id != evals[j].id
    requires Ids(more) == Map((e: Eval) => e.id, evals) && forall e | e in evals :: e.id in ids
    requires forall e | e in evals && kept.Some? :: Consistent(kept.value.baseline, e.id)
    ensures entry.results == Merged(if kept.Some? then kept.value.results else [], more, ids)
    ensures entry.executed && entry.previous == SnapshotOf(kept)
    ensures forall e | e in evals :: !Stale(entry.baseline, e)
    ensures forall id :: Consistent(entry.baseline, id)
  {
    var prior := if kept.Some? then kept.value.baseline else None;
    var ran := RunBaselines(prior, evals, session);
    var merged := MergeEvalResults(kept, more, ids);
    entry := BuildEntry(true, merged, kept, ran, now);
    RanKeepsIds(prior, evals, session);
    forall e | e in evals ensures !Stale(entry.baseline, e) {
      RunIsListed(if kept.Some? then kept.value.results else [], more, ids, evals, e);
      BaselinesConverge(prior, evals, session, merged, now, e);
    }
    forall id ensures Consistent(entry.baseline, id) {
      MergesAreConsistent(prior, ran, merged, now, id);
    }
  }

  lemma RunIsListed(stored: seq<Result>, more: seq<Result>, ids: seq<string>, evals: seq<Eval>, e: Eval)
    requires Ids(more) == Map((x: Eval) => x.id, evals) && e in evals && e.id in ids
    ensures e.id in Ids(Merged(stored, more, ids))
  {
    var i :| 0 <= i < |evals| && evals[i] == e;
    assert Ids(more)[i] == e.id;
    assert more[i].id == e.id;
    ByIdKeys(more, e.id);
    ByIdKeepsIds(stored);
    ByIdKeepsIds(more);
    hide ById;
    var m := ById(stored) + ById(more);
    MergedIsSpecOrder(m, ids);
    FilterMember((id: string) => id in m, ids, e.id);
  }
}
