/** What reruns and baselines leave stored, said of the lists themselves. */
module MergeLaws {
  import opened Prelude
  import opened EvalMerges

  /** r is the last result of its id. */
  ghost predicate IsLastOf(rs: seq<Result>, r: Result) {
    exists k :: 0 <= k < |rs| && rs[k] == r && forall j | k < j < |rs| :: rs[j].id != r.id
  }

  predicate NoneOf(rs: seq<Result>, id: string) { forall r | r in rs :: r.id != id }

  lemma {:induction false} ByIdIsLast(rs: seq<Result>, id: string)
    ensures id in ById(rs) <==> !NoneOf(rs, id)
    ensures id in ById(rs) ==> ById(rs)[id].id == id && IsLastOf(rs, ById(rs)[id])
  {
    if rs != [] {
      var front, r := rs[..|rs| - 1], rs[|rs| - 1];
      assert rs == front + [r];
      ByIdIsLast(front, id);
      if r.id == id {
        assert rs[|rs| - 1] == r;
      } else if id in ById(front) {
        var x := ById(front)[id];
        var k :| 0 <= k < |front| && front[k] == x && forall j | k < j < |front| :: front[j].id != x.id;
        assert rs[k] == x;
      }
    }
  }

  lemma OneLast(rs: seq<Result>, a: Result, b: Result)
    requires IsLastOf(rs, a) && IsLastOf(rs, b) && a.id == b.id
    ensures a == b
  {
  }

  /** A merge holds, for exactly the spec's ids, the last fresh result, or the last stored one when none is fresh. */
  lemma MergedSays(stored: seq<Result>, more: seq<Result>, ids: seq<string>, r: Result)
    ensures r in Merged(stored, more, ids) <==>
              r.id in ids && (IsLastOf(more, r) || (NoneOf(more, r.id) && IsLastOf(stored, r)))
  {
    ByIdIsLast(more, r.id);
    ByIdIsLast(stored, r.id);
    ByIdKeepsIds(stored);
    ByIdKeepsIds(more);
    var m := ById(stored) + ById(more);
    ListedSays(m, ids, r);
    hide ById, Listed;
    if IsLastOf(more, r) {
      assert r in more;
      OneLast(more, r, ById(more)[r.id]);
    } else if NoneOf(more, r.id) && IsLastOf(stored, r) {
      assert r in stored;
      OneLast(stored, r, ById(stored)[r.id]);
    }
  }

  lemma {:induction false} ListedSays(m: map<string, Result>, ids: seq<string>, r: Result)
    requires forall id | id in m :: m[id].id == id
    ensures r in Listed(m, ids) <==> r.id in ids && r.id in m && m[r.id] == r
  {
    if ids != [] {
      ListedSays(m, ids[..|ids| - 1], r);
      assert ids == ids[..|ids| - 1] + [ids[|ids| - 1]];
    }
  }

  // ----- baselines -----

  /** The first stored baseline result of an eval was recorded for its present content. */
  ghost predicate UpToDate(prior: Option<Snapshot>, e: Eval) {
    && prior.Some?
    && exists k :: 0 <= k < |prior.value.results| && prior.value.results[k].id == e.id
                   && prior.value.results[k].fingerprint == e.fingerprint
                   && forall j | 0 <= j < k :: prior.value.results[j].id != e.id
  }

  lemma {:induction false} FirstAt(rs: seq<Result>, id: string) returns (k: nat)
    ensures k <= |rs| && forall j | 0 <= j < k :: rs[j].id != id
    ensures if k < |rs| then rs[k].id == id && FirstWith(rs, id) == Some(rs[k]) else FirstWith(rs, id).None?
  {
    if rs == [] || rs[0].id == id {
      k := 0;
    } else {
      k := FirstAt(rs[1..], id);
      assert forall j | 1 <= j < |rs| :: rs[j] == rs[1..][j - 1];
      k := k + 1;
    }
  }

  lemma StaleSays(prior: Option<Snapshot>, e: Eval)
    ensures Stale(prior, e) <==> !UpToDate(prior, e)
  {
    if prior.Some? {
      hide FirstWith;
      var rs := prior.value.results;
      var k := FirstAt(rs, e.id);
      if UpToDate(prior, e) {
        var i :| 0 <= i < |rs| && rs[i].id == e.id && rs[i].fingerprint == e.fingerprint
                 && forall j | 0 <= j < i :: rs[j].id != e.id;
        assert i == k;
      }
    }
  }

  /** After a unit with distinct evals, the baseline of an eval whose stored baseline was out of date is what its
      session gave, under its id and present content and trimmed; the baseline of any other eval is the last stored. */
  lemma BaselineSays(prior: Option<Snapshot>, evals: seq<Eval>, session: Eval -> Result, current: seq<Result>,
                     now: string, e: Eval, r: Result)
    requires (forall d | d in evals && d.id == e.id :: d == e) && e in evals && r.id == e.id
    ensures var snap := MergedBaseline(prior, BaselinesRun(prior, evals, session), current, now);
            snap.Some? && r in snap.value.results <==>
              && !NoneOf(current, e.id)
              && if UpToDate(prior, e) then IsLastOf(prior.value.results, r)
                 else r == Result(e.id, e.fingerprint, session(e).passed, "")
  {
    var ran := BaselinesRun(prior, evals, session);
    StaleSays(prior, e);
    RanExactlyTheStale(prior, evals, session, e);
    RanKeepsIds(prior, evals, session);
    OverlaidKeepsIds(prior, ran);
    ListedSays(Overlaid(prior, ran), Ids(current), r);
    IdsSay(current, e.id);
    hide Listed, BaselinesRun, UpToDate, Stale;
    if prior.Some? {
      ByIdIsLast(prior.value.results, e.id);
      if IsLastOf(prior.value.results, r) {
        assert r in prior.value.results;
        OneLast(prior.value.results, r, ById(prior.value.results)[e.id]);
      }
    }
  }

  /** A baseline is dated by the unit that ran one of its evals, and else keeps its date. */
  lemma BaselineDated(prior: Option<Snapshot>, evals: seq<Eval>, session: Eval -> Result, current: seq<Result>,
                      now: string)
    ensures var snap := MergedBaseline(prior, BaselinesRun(prior, evals, session), current, now);
            snap.Some? ==>
              if exists e :: e in evals && !UpToDate(prior, e) then snap.value.ranAt == now
              else prior.Some? && snap.value.ranAt == prior.value.ranAt
  {
    hide UpToDate, Listed;
    RanSome(prior, evals, session);
    if prior.None? {
      NothingListed(Ids(current));
    }
  }

  lemma {:induction false} NothingListed(ids: seq<string>)
    ensures Listed(map[], ids) == []
  {
    if ids != [] {
      NothingListed(ids[..|ids| - 1]);
    }
  }

  lemma {:induction false} RanSome(prior: Option<Snapshot>, evals: seq<Eval>, session: Eval -> Result)
    ensures BaselinesRun(prior, evals, session) != map[] <==> exists e :: e in evals && !UpToDate(prior, e)
  {
    hide UpToDate, Stale;
    if evals != [] {
      var front, last := evals[..|evals| - 1], evals[|evals| - 1];
      assert evals == front + [last];
      RanSome(prior, front, session);
      StaleSays(prior, last);
      if Stale(prior, last) {
        assert last.id in BaselinesRun(prior, evals, session);
      }
    }
  }

  lemma IdsSay(rs: seq<Result>, id: string)
    ensures id in Ids(rs) <==> !NoneOf(rs, id)
  {
    if !NoneOf(rs, id) {
      var k :| 0 <= k < |rs| && rs[k].id == id;
      assert Ids(rs)[k] == id;
    }
  }

  /** An executed entry is kept as the previous of its successor, every result with its detail trimmed away. */
  lemma PreviousSays(e: Entry)
    ensures SnapshotOf(None).None? && (SnapshotOf(Some(e)).Some? <==> e.executed)
    ensures e.executed ==>
              var snap := SnapshotOf(Some(e)).value;
              && snap.ranAt == e.ranAt && |snap.results| == |e.results|
              && forall i | 0 <= i < |e.results| ::
                   snap.results[i] == Result(e.results[i].id, e.results[i].fingerprint, e.results[i].passed, "")
  {
  }
}
