/** What the engine runs under a plan's filters is what the plan queued. */
module PlannedRuns {
  import opened Prelude
  import opened Catalogs
  import opened Planner
  import opened Sweeps

  function PlannedFilters(cat: seq<SkillCatalog>, models: seq<Model>, sel: Selection): map<string, Chosen> {
    NotedUnits(map[], UnitsOfCatalog(cat, models, sel))
  }

  predicate TriggerQueued(sc: SkillCatalog, m: Model, sel: Selection, t: Trigger) {
    Queued(sel, m.key, CaseRef(sc.skill, Triggers, t.query))
  }

  predicate EvalQueued(sc: SkillCatalog, m: Model, sel: Selection, e: Eval) {
    Queued(sel, m.key, CaseRef(sc.skill, Evals, e.id))
  }

  function QueuedTriggers(sc: SkillCatalog, m: Model, sel: Selection): seq<Trigger> {
    Filter((t: Trigger) => TriggerQueued(sc, m, sel, t), sc.triggers)
  }

  function QueuedEvals(sc: SkillCatalog, m: Model, sel: Selection): seq<Eval> {
    Filter((e: Eval) => EvalQueued(sc, m, sel, e), sc.evals)
  }

  /** For a case an allowed skill authors: queued, in the queue, and included by the key's filter are one. */
  lemma CaseRunsIffQueued(cat: seq<SkillCatalog>, models: seq<Model>, sel: Selection, sc: SkillCatalog, m: Model,
                          kind: Kind, name: string)
    requires sc in cat && m in models && Allows(sc, m) && name in NamesIn(sc, kind)
    ensures var out := PlannedFilters(cat, models, sel);
            Queued(sel, m.key, CaseRef(sc.skill, kind, name)) <==>
              && m.key in out && SkillIncluded(Some(Sealed(out[m.key])), sc.skill)
              && CaseIncluded(Some(if kind.Triggers? then out[m.key].triggers else out[m.key].evals), sc.skill, name)
  {
    hide Queued, Allows, NamesIn, UnitsOfCatalog, NotedUnits, Entries;
    var us, x := UnitsOfCatalog(cat, models, sel), Entry(m.key, sc.skill, kind, name);
    var out, q := PlannedFilters(cat, models, sel), Entries(us);
    PlanEntries(cat, models, sel, x);
    assert AuthoredFor(sc, m, x);
    FiltersSayTheQueue(us);
    assert SaysFor(out, q, m.key);
    hide Says;
    assert x in q ==> x.skill in SkillsOf(q, m.key);
    assert x in q <==> name in NamesOf(q, m.key, sc.skill, kind);
  }

  /** The filter derived from a plan makes the engine run exactly the cases the plan queued, in authored order, and a
      model without a filter has nothing queued. Skill names may repeat across plugins and keys across models. */
  lemma FiltersRunTheQueue(cat: seq<SkillCatalog>, models: seq<Model>, sel: Selection, sc: SkillCatalog, m: Model)
    requires sc in cat && m in models && Allows(sc, m)
    ensures var out := PlannedFilters(cat, models, sel);
            if m.key in out then
              && RunTriggers(sc, m, Some(Sealed(out[m.key]))) == QueuedTriggers(sc, m, sel)
              && RunEvals(sc, m, Some(Sealed(out[m.key]))) == QueuedEvals(sc, m, sel)
            else QueuedTriggers(sc, m, sel) == [] && QueuedEvals(sc, m, sel) == []
  {
    TriggersRunTheQueue(cat, models, sel, sc, m);
    EvalsRunTheQueue(cat, models, sel, sc, m);
  }

  lemma TriggersRunTheQueue(cat: seq<SkillCatalog>, models: seq<Model>, sel: Selection, sc: SkillCatalog, m: Model)
    requires sc in cat && m in models && Allows(sc, m)
    ensures var out := PlannedFilters(cat, models, sel);
            if m.key in out then RunTriggers(sc, m, Some(Sealed(out[m.key]))) == QueuedTriggers(sc, m, sel)
            else QueuedTriggers(sc, m, sel) == []
  {
    hide Queued, PlannedFilters;
    var out, queued := PlannedFilters(cat, models, sel), (t: Trigger) => TriggerQueued(sc, m, sel, t);
    forall i | 0 <= i < |sc.triggers|
      ensures TriggerQueued(sc, m, sel, sc.triggers[i]) <==>
                && m.key in out && SkillIncluded(Some(Sealed(out[m.key])), sc.skill)
                && TriggerIncluded(Some(Sealed(out[m.key])), sc.skill, sc.triggers[i].query)
    {
      assert NamesIn(sc, Triggers)[i] == sc.triggers[i].query;
      CaseRunsIffQueued(cat, models, sel, sc, m, Triggers, sc.triggers[i].query);
    }
    if m.key in out && SkillIncluded(Some(Sealed(out[m.key])), sc.skill) {
      var f := Some(Sealed(out[m.key]));
      FilterSame((t: Trigger) => TriggerIncluded(f, sc.skill, t.query), queued, sc.triggers);
    } else {
      FilterNone(queued, sc.triggers);
    }
  }

  lemma EvalsRunTheQueue(cat: seq<SkillCatalog>, models: seq<Model>, sel: Selection, sc: SkillCatalog, m: Model)
    requires sc in cat && m in models && Allows(sc, m)
    ensures var out := PlannedFilters(cat, models, sel);
            if m.key in out then RunEvals(sc, m, Some(Sealed(out[m.key]))) == QueuedEvals(sc, m, sel)
            else QueuedEvals(sc, m, sel) == []
  {
    hide Queued, PlannedFilters;
    var out, queued := PlannedFilters(cat, models, sel), (e: Eval) => EvalQueued(sc, m, sel, e);
    forall i | 0 <= i < |sc.evals|
      ensures EvalQueued(sc, m, sel, sc.evals[i]) <==>
                && m.key in out && SkillIncluded(Some(Sealed(out[m.key])), sc.skill)
                && EvalIncluded(Some(Sealed(out[m.key])), sc.skill, sc.evals[i].id)
    {
      assert NamesIn(sc, Evals)[i] == sc.evals[i].id;
      CaseRunsIffQueued(cat, models, sel, sc, m, Evals, sc.evals[i].id);
    }
    if m.key in out && SkillIncluded(Some(Sealed(out[m.key])), sc.skill) {
      var f := Some(Sealed(out[m.key]));
      FilterSame((e: Eval) => EvalIncluded(f, sc.skill, e.id), queued, sc.evals);
    } else {
      FilterNone(queued, sc.evals);
    }
  }

  /** A model has no filter exactly when nothing in the plan is queued for its key. */
  lemma AbsentIffNothingQueued(cat: seq<SkillCatalog>, models: seq<Model>, sel: Selection, key: string)
    ensures key !in PlannedFilters(cat, models, sel) <==>
              forall u, c | u in UnitsOfCatalog(cat, models, sel) && c in u.cases && u.ref.key == key :: !c.queued
  {
    hide UnitsOfCatalog, NotedUnits;
    var us := UnitsOfCatalog(cat, models, sel);
    FiltersSayTheQueue(us);
    assert SaysFor(PlannedFilters(cat, models, sel), Entries(us), key);
    hide Says;
    EntriesOfKey(us, key);
  }

  lemma {:induction false} EntriesOfKey(us: seq<Unit>, key: string)
    ensures SkillsOf(Entries(us), key) == {} <==>
              forall u, c | u in us && c in u.cases && u.ref.key == key :: !c.queued
  {
    if us != [] {
      var front, u := us[..|us| - 1], us[|us| - 1];
      EntriesOfKey(front, key);
      CasesOfKey(u, key);
      assert forall v :: v in us <==> v in front || v == u by {
        assert us == front + [u];
      }
      hide Entries, CaseEntries;
      SkillsOfConcat(Entries(front), CaseEntries(u.ref, u.cases), key);
    }
  }

  lemma SkillsOfConcat(a: seq<Entry>, b: seq<Entry>, key: string)
    ensures SkillsOf(a + b, key) == SkillsOf(a, key) + SkillsOf(b, key)
  {
    assert forall e :: e in a + b <==> e in a || e in b;
  }

  lemma {:induction false} CasesOfKey(u: Unit, key: string)
    ensures SkillsOf(CaseEntries(u.ref, u.cases), key) == {} <==>
              u.ref.key != key || forall c | c in u.cases :: !c.queued
  {
    var q := CaseEntries(u.ref, u.cases);
    forall c | c in u.cases && c.queued ensures Entry(u.ref.key, u.ref.skill, c.kind, c.name) in q {
      CaseEntriesAre(u.ref, u.cases, Entry(u.ref.key, u.ref.skill, c.kind, c.name));
    }
    forall e | e in q ensures e.key == u.ref.key && exists c :: c in u.cases && c.queued {
      CaseEntriesAre(u.ref, u.cases, e);
    }
    hide CaseEntries;
    if u.ref.key == key && exists c :: c in u.cases && c.queued {
      var c :| c in u.cases && c.queued;
      assert Entry(key, u.ref.skill, c.kind, c.name) in q;
      assert u.ref.skill in SkillsOf(q, key);
    }
  }

  // ----- the units of a run -----

  /** The units one model runs under one skill. */
  function RunUnitsOf(sc: SkillCatalog, m: Model, f: Option<Filters>, tiers: Tiers): seq<UnitRef> {
    if !Allows(sc, m) then []
    else
      (if tiers.triggers && RunTriggers(sc, m, f) != [] then [RefOf(sc, m, Triggers)] else []) +
      (if tiers.evals && RunEvals(sc, m, f) != [] then [RefOf(sc, m, Evals)] else [])
  }

  function RunUnitsOfSkill(sc: SkillCatalog, models: seq<Model>, f: Option<Filters>, tiers: Tiers): seq<UnitRef> {
    Flatten(Map((m: Model) => RunUnitsOf(sc, m, f, tiers), models))
  }

  function RunUnits(cat: seq<SkillCatalog>, models: seq<Model>, f: Option<Filters>, tiers: Tiers): seq<UnitRef> {
    Flatten(Map((sc: SkillCatalog) => RunUnitsOfSkill(sc, models, f, tiers), cat))
  }

  /** Every (skill, model, tier) with a case to run, skill by skill and model by model. */
  method ListUnits(cat: seq<SkillCatalog>, models: seq<Model>, f: Option<Filters>, tiers: Tiers)
    returns (units: seq<UnitRef>)
    ensures units == RunUnits(cat, models, f, tiers)
  {
    units := [];
    NoUnits(models, f, tiers);
    hide RunUnits, RunUnitsOfSkill, RunUnitsOf;
    for i := 0 to |cat|
      invariant units == RunUnits(cat[..i], models, f, tiers)
    {
      ghost var before := units;
      OneMoreSkill(cat, i, models, f, tiers);
      NoSkillUnits(cat[i], f, tiers);
      for j := 0 to |models|
        invariant units == before + RunUnitsOfSkill(cat[i], models[..j], f, tiers)
      {
        OneMoreModel(cat[i], models, j, f, tiers);
        var one := ListUnitsOf(cat[i], models[j], f, tiers);
        units := units + one;
      }
      assert models[..|models|] == models;
    }
    assert cat[..|cat|] == cat;
  }

  lemma NoUnits(models: seq<Model>, f: Option<Filters>, tiers: Tiers)
    ensures RunUnits([], models, f, tiers) == []
  {
  }

  lemma NoSkillUnits(sc: SkillCatalog, f: Option<Filters>, tiers: Tiers)
    ensures RunUnitsOfSkill(sc, [], f, tiers) == []
  {
  }

  lemma OneMoreSkill(cat: seq<SkillCatalog>, i: nat, models: seq<Model>, f: Option<Filters>, tiers: Tiers)
    requires i < |cat|
    ensures RunUnits(cat[..i + 1], models, f, tiers) ==
            RunUnits(cat[..i], models, f, tiers) + RunUnitsOfSkill(cat[i], models, f, tiers)
  {
    hide RunUnitsOfSkill;
    TakeOneMore([], cat, i);
    FlattenMapSnoc((sc: SkillCatalog) => RunUnitsOfSkill(sc, models, f, tiers), cat[..i], cat[i]);
  }

  lemma OneMoreModel(sc: SkillCatalog, models: seq<Model>, j: nat, f: Option<Filters>, tiers: Tiers)
    requires j < |models|
    ensures RunUnitsOfSkill(sc, models[..j + 1], f, tiers) ==
            RunUnitsOfSkill(sc, models[..j], f, tiers) + RunUnitsOf(sc, models[j], f, tiers)
  {
    hide RunUnitsOf;
    TakeOneMore([], models, j);
    FlattenMapSnoc((m: Model) => RunUnitsOf(sc, m, f, tiers), models[..j], models[j]);
  }

  method ListUnitsOf(sc: SkillCatalog, m: Model, f: Option<Filters>, tiers: Tiers) returns (units: seq<UnitRef>)
    ensures units == RunUnitsOf(sc, m, f, tiers)
  {
    units := [];
    if !Allows(sc, m) {
      return;
    }
    if tiers.triggers {
      var ts := ApplicableTriggers(sc, m, f);
      if |ts| > 0 {
        units := units + [RefOf(sc, m, Triggers)];
      }
    }
    if tiers.evals {
      var es := ApplicableEvals(sc, m, f);
      if |es| > 0 {
        units := units + [RefOf(sc, m, Evals)];
      }
    }
  }

  /** The units one selection would run under a per-model filter. */
  method PlanFor(cat: seq<SkillCatalog>, m: Model, f: Option<Filters>, tiers: Tiers) returns (units: seq<UnitRef>)
    ensures units == RunUnits(cat, [m], f, tiers)
  {
    units := ListUnits(cat, [m], f, tiers);
  }

  predicate UnitQueued(u: Unit) { exists c :: c in u.cases && c.queued }

  /** The plan's units of a key with a queued case, in order. */
  ghost function QueuedRefs(us: seq<Unit>, key: string): seq<UnitRef> {
    if us == [] then []
    else
      var u := us[|us| - 1];
      QueuedRefs(us[..|us| - 1], key) + if u.ref.key == key && UnitQueued(u) then [u.ref] else []
  }

  lemma {:induction false} QueuedRefsConcat(a: seq<Unit>, b: seq<Unit>, key: string)
    ensures QueuedRefs(a + b, key) == QueuedRefs(a, key) + QueuedRefs(b, key)
  {
    hide UnitQueued;
    if b == [] {
      assert a + b == a;
    } else {
      assert (a + b)[..|a + b| - 1] == a + b[..|b| - 1];
      QueuedRefsConcat(a, b[..|b| - 1], key);
    }
  }

  lemma QueuedRefsOne(u: Unit, key: string)
    ensures QueuedRefs([u], key) == if u.ref.key == key && UnitQueued(u) then [u.ref] else []
    ensures QueuedRefs([], key) == []
  {
    assert [u][..0] == [];
  }

  lemma {:induction false} SomeKept<T>(keep: T -> bool, s: seq<T>)
    ensures Filter(keep, s) != [] <==> exists i :: 0 <= i < |s| && keep(s[i])
  {
    if exists i :: 0 <= i < |s| && keep(s[i]) {
      if !keep(s[0]) {
        SomeKept(keep, s[1..]);
        var i :| 0 <= i < |s| && keep(s[i]);
        assert s[1..][i - 1] == s[i];
      }
    } else {
      FilterNone(keep, s);
    }
  }

  lemma TriggerUnitQueued(sc: SkillCatalog, m: Model, sel: Selection)
    ensures UnitQueued(TriggerUnit(sc, m, sel)) <==> QueuedTriggers(sc, m, sel) != []
  {
    hide Queued, Filter;
    SomeKept((t: Trigger) => TriggerQueued(sc, m, sel, t), sc.triggers);
    var cs := TriggerUnit(sc, m, sel).cases;
    assert forall i | 0 <= i < |cs| :: cs[i].queued <==> TriggerQueued(sc, m, sel, sc.triggers[i]);
    if i :| 0 <= i < |sc.triggers| && TriggerQueued(sc, m, sel, sc.triggers[i]) {
      assert cs[i] in cs;
    }
  }

  lemma EvalUnitQueued(sc: SkillCatalog, m: Model, sel: Selection)
    ensures UnitQueued(EvalUnit(sc, m, sel)) <==> QueuedEvals(sc, m, sel) != []
  {
    hide Queued, Filter;
    SomeKept((e: Eval) => EvalQueued(sc, m, sel, e), sc.evals);
    var cs := EvalUnit(sc, m, sel).cases;
    assert forall i | 0 <= i < |cs| :: cs[i].queued <==> EvalQueued(sc, m, sel, sc.evals[i]);
    if i :| 0 <= i < |sc.evals| && EvalQueued(sc, m, sel, sc.evals[i]) {
      assert cs[i] in cs;
    }
  }

  /** One skill's units with something queued for the model. */
  function QueuedUnitsOf(sc: SkillCatalog, m: Model, sel: Selection): seq<UnitRef> {
    if !Allows(sc, m) then []
    else (if QueuedTriggers(sc, m, sel) != [] then [RefOf(sc, m, Triggers)] else []) +
         (if QueuedEvals(sc, m, sel) != [] then [RefOf(sc, m, Evals)] else [])
  }

  lemma ModelRefs(sc: SkillCatalog, m: Model, sel: Selection, key: string)
    ensures QueuedRefs(UnitsFor(sc, m, sel), key) == if m.key == key then QueuedUnitsOf(sc, m, sel) else []
  {
    hide QueuedTriggers, QueuedEvals, Allows, QueuedRefs, UnitQueued;
    var t, e := TriggerUnit(sc, m, sel), EvalUnit(sc, m, sel);
    QueuedRefsOne(t, key);
    QueuedRefsOne(e, key);
    TriggerUnitQueued(sc, m, sel);
    EvalUnitQueued(sc, m, sel);
    NothingToQueue(sc, m, sel);
    QueuedRefsConcat(if sc.triggers == [] then [] else [t], if sc.evals == [] then [] else [e], key);
  }

  lemma NothingToQueue(sc: SkillCatalog, m: Model, sel: Selection)
    ensures sc.triggers == [] ==> QueuedTriggers(sc, m, sel) == []
    ensures sc.evals == [] ==> QueuedEvals(sc, m, sel) == []
  {
  }

  predicate UniqueKeys(models: seq<Model>) { forall i, j | 0 <= i < j < |models| :: models[i].key != models[j].key }

  lemma {:induction false} SkillRefs(sc: SkillCatalog, models: seq<Model>, sel: Selection, m: Model)
    requires UniqueKeys(models) && forall x | x in models && x.key == m.key :: x == m
    ensures QueuedRefs(UnitsOfSkill(sc, models, sel), m.key) == if m in models then QueuedUnitsOf(sc, m, sel) else []
  {
    hide QueuedUnitsOf, UnitsFor, QueuedRefs;
    if models == [] {
      NoRefs(m.key);
    } else {
      var front, last := models[..|models| - 1], models[|models| - 1];
      assert models == front + [last];
      SkillRefs(sc, front, sel, m);
      ModelRefs(sc, last, sel, m.key);
      QueuedRefsConcat(UnitsOfSkill(sc, front, sel), UnitsFor(sc, last, sel), m.key);
    }
  }

  lemma NoRefs(key: string)
    ensures QueuedRefs([], key) == []
  {
  }

  lemma {:induction false} CatalogRefs(cat: seq<SkillCatalog>, models: seq<Model>, sel: Selection, m: Model)
    requires UniqueKeys(models) && m in models
    ensures QueuedRefs(UnitsOfCatalog(cat, models, sel), m.key) ==
            Flatten(Map((sc: SkillCatalog) => QueuedUnitsOf(sc, m, sel), cat))
  {
    hide QueuedUnitsOf, UnitsOfSkill, QueuedRefs, Flatten;
    if cat == [] {
      NoRefs(m.key);
      NoneFlat(Map((sc: SkillCatalog) => QueuedUnitsOf(sc, m, sel), cat));
    } else {
      var front, sc := cat[..|cat| - 1], cat[|cat| - 1];
      assert cat == front + [sc];
      CatalogRefs(front, models, sel, m);
      SkillRefs(sc, models, sel, m);
      QueuedRefsConcat(UnitsOfCatalog(front, models, sel), UnitsOfSkill(sc, models, sel), m.key);
      FlattenMapSnoc((x: SkillCatalog) => QueuedUnitsOf(x, m, sel), front, sc);
    }
  }

  lemma NoneFlat(ss: seq<seq<UnitRef>>)
    requires ss == []
    ensures Flatten(ss) == []
  {
  }

  /** PlanFor under a model's derived filter lists exactly the plan's units with a queued case, in plan order. */
  lemma UnitsRunAreUnitsQueued(cat: seq<SkillCatalog>, models: seq<Model>, sel: Selection, m: Model)
    requires UniqueKeys(models) && m in models
    ensures var out, us := PlannedFilters(cat, models, sel), UnitsOfCatalog(cat, models, sel);
            if m.key in out then
              RunUnits(cat, [m], Some(Sealed(out[m.key])), Tiers(true, true)) == QueuedRefs(us, m.key)
            else QueuedRefs(us, m.key) == []
  {
    hide PlannedFilters, UnitsOfCatalog, QueuedRefs, RunTriggers, RunEvals, QueuedTriggers, QueuedEvals, Allows;
    var out := PlannedFilters(cat, models, sel);
    CatalogRefs(cat, models, sel, m);
    forall i | 0 <= i < |cat|
      ensures QueuedUnitsOf(cat[i], m, sel) ==
              if m.key in out then RunUnitsOfSkill(cat[i], [m], Some(Sealed(out[m.key])), Tiers(true, true)) else []
    {
      if Allows(cat[i], m) {
        FiltersRunTheQueue(cat, models, sel, cat[i], m);
      }
      if m.key in out {
        OneModel(cat[i], m, Some(Sealed(out[m.key])), Tiers(true, true));
      }
    }
    var queued := Map((sc: SkillCatalog) => QueuedUnitsOf(sc, m, sel), cat);
    if m.key in out {
      var f := Some(Sealed(out[m.key]));
      assert queued == Map((sc: SkillCatalog) => RunUnitsOfSkill(sc, [m], f, Tiers(true, true)), cat);
    } else {
      FlattenEmpty(queued);
    }
  }

  lemma OneModel(sc: SkillCatalog, m: Model, f: Option<Filters>, tiers: Tiers)
    ensures RunUnitsOfSkill(sc, [m], f, tiers) == RunUnitsOf(sc, m, f, tiers)
  {
    hide RunUnitsOf;
    FlattenMapSnoc((x: Model) => RunUnitsOf(sc, x, f, tiers), [], m);
    assert [] + [m] == [m];
  }

  lemma {:induction false} FlattenEmpty<T>(ss: seq<seq<T>>)
    requires forall i | 0 <= i < |ss| :: ss[i] == []
    ensures Flatten(ss) == []
  {
    if ss != [] {
      FlattenEmpty(ss[1..]);
    }
  }
}
