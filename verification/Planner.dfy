/** The plan of a sweep: built from a catalog and a selection, turned back into per-model filters, and run.

    Model of internal/plan/build.go, model.go and selection.go, and of the unit list of internal/run/plan.go. */
module Planner {
  import opened Prelude
  import opened Catalogs

  datatype State = Partial | Off | On

  /** The user's intent. A model or case absent from its map is Partial; an absent need is false. */
  datatype Selection = Selection(
    models: map<string, State>, cases: map<CaseRef, State>, needs: map<string, map<CaseRef, bool>>)

  datatype Case = Case(name: string, kind: Kind, shouldTrigger: bool, queued: bool)
  datatype Unit = Unit(ref: UnitRef, cases: seq<Case>)
  datatype ModelPlan = ModelPlan(key: string, display: string, units: seq<Unit>)
  datatype SkillPlan = SkillPlan(skill: string, title: string, models: seq<ModelPlan>)
  datatype PluginPlan = PluginPlan(name: string, skills: seq<SkillPlan>)
  datatype Plan = Plan(plugins: seq<PluginPlan>)

  function StateAt<K>(m: map<K, State>, k: K): State { if k in m then m[k] else Partial }

  predicate Needed(sel: Selection, key: string, cr: CaseRef) {
    key in sel.needs && cr in sel.needs[key] && sel.needs[key][cr]
  }

  /** Both ends must not be off; one end fully on, or the preselection, queues the case. */
  predicate Queued(sel: Selection, key: string, cr: CaseRef) {
    && StateAt(sel.models, key) != Off && StateAt(sel.cases, cr) != Off
    && (StateAt(sel.models, key) == On || StateAt(sel.cases, cr) == On || Needed(sel, key, cr))
  }

  // ----- building -----

  function RefOf(sc: SkillCatalog, m: Model, kind: Kind): UnitRef { UnitRef(sc.skill, m.key, kind) }

  function TriggerCase(sc: SkillCatalog, m: Model, sel: Selection, t: Trigger): Case {
    Case(t.query, Triggers, t.shouldTrigger, Queued(sel, m.key, CaseRef(sc.skill, Triggers, t.query)))
  }

  function EvalCase(sc: SkillCatalog, m: Model, sel: Selection, e: Eval): Case {
    Case(e.id, Evals, false, Queued(sel, m.key, CaseRef(sc.skill, Evals, e.id)))
  }

  function TriggerUnit(sc: SkillCatalog, m: Model, sel: Selection): Unit {
    Unit(RefOf(sc, m, Triggers), Map(t => TriggerCase(sc, m, sel, t), sc.triggers))
  }

  function EvalUnit(sc: SkillCatalog, m: Model, sel: Selection): Unit {
    Unit(RefOf(sc, m, Evals), Map(e => EvalCase(sc, m, sel, e), sc.evals))
  }

  /** The units of one model under one skill: every authored trigger, then every authored eval. */
  function UnitsFor(sc: SkillCatalog, m: Model, sel: Selection): seq<Unit> {
    if !Allows(sc, m) then []
    else (if sc.triggers == [] then [] else [TriggerUnit(sc, m, sel)]) +
         (if sc.evals == [] then [] else [EvalUnit(sc, m, sel)])
  }

  /** The units of a skill, model by model in the order given. */
  function UnitsOfSkill(sc: SkillCatalog, models: seq<Model>, sel: Selection): seq<Unit> {
    if models == [] then []
    else UnitsOfSkill(sc, models[..|models| - 1], sel) + UnitsFor(sc, models[|models| - 1], sel)
  }

  /** All units of a plan, in the order they run. */
  function UnitsOfCatalog(cat: seq<SkillCatalog>, models: seq<Model>, sel: Selection): seq<Unit> {
    if cat == [] then []
    else UnitsOfCatalog(cat[..|cat| - 1], models, sel) + UnitsOfSkill(cat[|cat| - 1], models, sel)
  }

  function SkillUnits(sk: SkillPlan): seq<Unit> { Flatten(Map((m: ModelPlan) => m.units, sk.models)) }
  function PluginUnits(pl: PluginPlan): seq<Unit> { Flatten(Map((sk: SkillPlan) => SkillUnits(sk), pl.skills)) }
  function PlanUnits(p: Plan): seq<Unit> { Flatten(Map((pl: PluginPlan) => PluginUnits(pl), p.plugins)) }

  lemma FlattenMapSnoc<T, U>(f: T -> seq<U>, s: seq<T>, x: T)
    ensures Flatten(Map(f, s + [x])) == Flatten(Map(f, s)) + f(x)
  {
    assert Map(f, s + [x]) == Map(f, s) + [f(x)];
    FlattenConcat(Map(f, s), [f(x)]);
    assert [f(x)][1..] == [];
    assert Flatten([f(x)]) == f(x) + Flatten([]);
  }

  function ModelDisplay(m: Model): string { if m.name != "" then m.name else m.key }

  /** No part of a plan is empty, every unit sits under its own skill and model, and a plugin's skills are not split
      over adjacent entries. */
  ghost predicate Tidy(p: Plan) {
    && (forall i | 0 <= i < |p.plugins| - 1 :: p.plugins[i].name != p.plugins[i + 1].name)
    && (forall pl | pl in p.plugins :: pl.skills != [] && forall sk | sk in pl.skills :: TidySkill(sk))
  }

  ghost predicate TidySkill(sk: SkillPlan) {
    sk.models != [] && forall m | m in sk.models :: TidyModel(m, sk.skill)
  }

  predicate TidyModel(m: ModelPlan, skill: string) {
    m.units != [] && forall u | u in m.units :: u.cases != [] && u.ref.skill == skill && u.ref.key == m.key
  }

  /** The skills a plan lists, each with its plugin, in order. */
  function Listed(p: Plan): seq<(string, SkillPlan)> {
    Flatten(Map((pl: PluginPlan) => Map((sk: SkillPlan) => (pl.name, sk), pl.skills), p.plugins))
  }

  /** The models of a skill that have something to run. */
  function ModelsFor(sc: SkillCatalog, models: seq<Model>, sel: Selection): seq<ModelPlan> {
    if models == [] then []
    else
      var m := models[|models| - 1];
      ModelsFor(sc, models[..|models| - 1], sel) +
      if UnitsFor(sc, m, sel) == [] then [] else [ModelPlan(m.key, ModelDisplay(m), UnitsFor(sc, m, sel))]
  }

  /** Every skill with a model to run, under its own plugin and title. */
  function ListedFrom(cat: seq<SkillCatalog>, models: seq<Model>, sel: Selection): seq<(string, SkillPlan)> {
    if cat == [] then []
    else
      var sc := cat[|cat| - 1];
      var ms := ModelsFor(sc, models, sel);
      ListedFrom(cat[..|cat| - 1], models, sel) +
      if ms == [] then [] else [(sc.plugin, SkillPlan(sc.skill, sc.title, ms))]
  }

  /** A selection and catalog resolved into the ordered plan. */
  method Build(cat: seq<SkillCatalog>, models: seq<Model>, sel: Selection) returns (p: Plan)
    ensures PlanUnits(p) == UnitsOfCatalog(cat, models, sel) && Tidy(p)
    ensures Listed(p) == ListedFrom(cat, models, sel)
  {
    p := Plan([]);
    hide UnitsOfSkill, SkillUnits, Tidy, TidySkill, ModelsFor;
    assert Tidy(p) by { EmptyIsTidy(); }
    var i := 0;
    while i < |cat|
      invariant 0 <= i <= |cat|
      invariant PlanUnits(p) == UnitsOfCatalog(cat[..i], models, sel) && Tidy(p)
      invariant Listed(p) == ListedFrom(cat[..i], models, sel)
    {
      TakeOneMore([], cat, i);
      var sk := BuildSkill(cat[i], models, sel);
      if |sk.models| > 0 {
        p := AddSkill(p, cat[i].plugin, sk);
      } else {
        NoModels(sk);
      }
      i := i + 1;
    }
    assert cat[..i] == cat;
  }

  lemma EmptyIsTidy()
    ensures Tidy(Plan([]))
  {
  }

  lemma NoModels(sk: SkillPlan)
    requires sk.models == []
    ensures SkillUnits(sk) == []
  {
  }

  /** A skill joins the last plugin when it is its own, else starts a new one. */
  method AddSkill(p: Plan, plugin: string, sk: SkillPlan) returns (q: Plan)
    requires Tidy(p) && TidySkill(sk)
    ensures Tidy(q) && PlanUnits(q) == PlanUnits(p) + SkillUnits(sk) && Listed(q) == Listed(p) + [(plugin, sk)]
  {
    hide SkillUnits, PlanUnits, PluginUnits, Tidy, TidySkill, Listed;
    var n := |p.plugins|;
    if n > 0 && p.plugins[n - 1].name == plugin {
      var last := p.plugins[n - 1];
      q := Plan(p.plugins[..n - 1] + [last.(skills := last.skills + [sk])]);
      assert p.plugins == p.plugins[..n - 1] + [last];
      Grown(p.plugins[..n - 1], last, sk);
      ListedGrown(p.plugins[..n - 1], last, sk);
    } else {
      q := Plan(p.plugins + [PluginPlan(plugin, [sk])]);
      Appended(p, plugin, sk);
      ListedAppended(p, plugin, sk);
    }
  }

  lemma ListedSnoc(front: seq<PluginPlan>, last: PluginPlan)
    ensures Listed(Plan(front + [last])) ==
            Listed(Plan(front)) + Map((sk: SkillPlan) => (last.name, sk), last.skills)
  {
    FlattenMapSnoc((pl: PluginPlan) => Map((sk: SkillPlan) => (pl.name, sk), pl.skills), front, last);
  }

  lemma ListedGrown(front: seq<PluginPlan>, last: PluginPlan, sk: SkillPlan)
    ensures Listed(Plan(front + [last.(skills := last.skills + [sk])])) ==
            Listed(Plan(front + [last])) + [(last.name, sk)]
  {
    hide Listed;
    ListedSnoc(front, last);
    ListedSnoc(front, last.(skills := last.skills + [sk]));
    assert Map((s: SkillPlan) => (last.name, s), last.skills + [sk]) ==
           Map((s: SkillPlan) => (last.name, s), last.skills) + [(last.name, sk)];
  }

  lemma ListedAppended(p: Plan, plugin: string, sk: SkillPlan)
    ensures Listed(Plan(p.plugins + [PluginPlan(plugin, [sk])])) == Listed(p) + [(plugin, sk)]
  {
    ListedSnoc(p.plugins, PluginPlan(plugin, [sk]));
    assert Map((s: SkillPlan) => (plugin, s), [sk]) == [(plugin, sk)];
  }

  lemma PlanUnitsSnoc(front: seq<PluginPlan>, last: PluginPlan)
    ensures PlanUnits(Plan(front + [last])) == PlanUnits(Plan(front)) + PluginUnits(last)
  {
    FlattenMapSnoc((pl: PluginPlan) => PluginUnits(pl), front, last);
  }

  lemma PluginUnitsSnoc(name: string, skills: seq<SkillPlan>, sk: SkillPlan)
    ensures PluginUnits(PluginPlan(name, skills + [sk])) == PluginUnits(PluginPlan(name, skills)) + SkillUnits(sk)
  {
    FlattenMapSnoc((s: SkillPlan) => SkillUnits(s), skills, sk);
  }

  lemma Grown(front: seq<PluginPlan>, last: PluginPlan, sk: SkillPlan)
    requires Tidy(Plan(front + [last])) && TidySkill(sk)
    ensures var grown := Plan(front + [last.(skills := last.skills + [sk])]);
            Tidy(grown) && PlanUnits(grown) == PlanUnits(Plan(front + [last])) + SkillUnits(sk)
  {
    hide SkillUnits, PlanUnits, PluginUnits, TidySkill;
    var all, more := front + [last], last.(skills := last.skills + [sk]);
    PlanUnitsSnoc(front, last);
    PlanUnitsSnoc(front, more);
    PluginUnitsSnoc(last.name, last.skills, sk);
    assert all[|front|] == last;
    forall pl | pl in front + [more] ensures pl.skills != [] && forall s | s in pl.skills :: TidySkill(s) {
      if pl in front {
        assert pl in all;
      }
    }
    forall i | 0 <= i < |front| ensures (front + [more])[i].name != (front + [more])[i + 1].name {
      assert all[i].name != all[i + 1].name;
    }
  }

  lemma Appended(p: Plan, plugin: string, sk: SkillPlan)
    requires Tidy(p) && TidySkill(sk)
    requires p.plugins == [] || p.plugins[|p.plugins| - 1].name != plugin
    ensures var q := Plan(p.plugins + [PluginPlan(plugin, [sk])]);
            Tidy(q) && PlanUnits(q) == PlanUnits(p) + SkillUnits(sk)
  {
    hide SkillUnits, PlanUnits, TidySkill;
    PlanUnitsSnoc(p.plugins, PluginPlan(plugin, [sk]));
    PluginUnitsSnoc(plugin, [], sk);
    assert [] + [sk] == [sk];
  }

  /** What a skill plan built from these models says. */
  ghost predicate BuiltFrom(sk: SkillPlan, sc: SkillCatalog, models: seq<Model>, sel: Selection) {
    && SkillUnits(sk) == UnitsOfSkill(sc, models, sel) && (sk.models != [] ==> TidySkill(sk))
    && sk == SkillPlan(sc.skill, sc.title, ModelsFor(sc, models, sel))
  }

  lemma NothingBuilt(sc: SkillCatalog, sel: Selection)
    ensures BuiltFrom(SkillPlan(sc.skill, sc.title, []), sc, [], sel)
  {
  }

  lemma OneMoreModel(sk: SkillPlan, sc: SkillCatalog, front: seq<Model>, m: Model, sel: Selection)
    requires BuiltFrom(sk, sc, front, sel)
    ensures UnitsFor(sc, m, sel) == [] ==> BuiltFrom(sk, sc, front + [m], sel)
    ensures var made := ModelPlan(m.key, ModelDisplay(m), UnitsFor(sc, m, sel));
            made.units != [] && TidyModel(made, sc.skill) ==>
              BuiltFrom(sk.(models := sk.models + [made]), sc, front + [m], sel)
  {
    hide UnitsFor, TidyModel, ModelDisplay;
    var made := ModelPlan(m.key, ModelDisplay(m), UnitsFor(sc, m, sel));
    assert (front + [m])[..|front|] == front;
    FlattenMapSnoc((x: ModelPlan) => x.units, sk.models, made);
  }

  /** One skill's models, each with its trigger unit and then its eval unit. */
  method BuildSkill(sc: SkillCatalog, models: seq<Model>, sel: Selection) returns (sk: SkillPlan)
    ensures SkillUnits(sk) == UnitsOfSkill(sc, models, sel) && (sk.models != [] ==> TidySkill(sk))
    ensures sk == SkillPlan(sc.skill, sc.title, ModelsFor(sc, models, sel))
  {
    hide UnitsFor, TidyModel, ModelDisplay, SkillUnits, UnitsOfSkill, TidySkill, ModelsFor;
    sk := SkillPlan(sc.skill, sc.title, []);
    NothingBuilt(sc, sel);
    var i := 0;
    while i < |models|
      invariant 0 <= i <= |models|
      invariant BuiltFrom(sk, sc, models[..i], sel)
    {
      TakeOneMore([], models, i);
      var m := models[i];
      var units := BuildUnits(sc, m, sel);
      OneMoreModel(sk, sc, models[..i], m, sel);
      if |units| > 0 {
        sk := sk.(models := sk.models + [ModelPlan(m.key, ModelDisplay(m), units)]);
      }
      i := i + 1;
    }
    assert models[..i] == models;
  }

  method BuildUnits(sc: SkillCatalog, m: Model, sel: Selection) returns (units: seq<Unit>)
    ensures units == UnitsFor(sc, m, sel)
    ensures units != [] ==> TidyModel(ModelPlan(m.key, ModelDisplay(m), units), sc.skill)
  {
    hide TriggerCase, EvalCase;
    units := [];
    if !Allows(sc, m) {
      return;
    }
    AllApply(sc, m);
    var trig := ApplicableTriggers(sc, m, None);
    if |trig| > 0 {
      var cases := [];
      for i := 0 to |trig|
        invariant cases == Map(t => TriggerCase(sc, m, sel, t), trig[..i])
      {
        cases := cases + [TriggerCase(sc, m, sel, trig[i])];
      }
      assert trig[..|trig|] == trig;
      units := units + [Unit(RefOf(sc, m, Triggers), cases)];
    }
    var evs := ApplicableEvals(sc, m, None);
    if |evs| > 0 {
      var cases := [];
      for i := 0 to |evs|
        invariant cases == Map(e => EvalCase(sc, m, sel, e), evs[..i])
      {
        cases := cases + [EvalCase(sc, m, sel, evs[i])];
      }
      assert evs[..|evs|] == evs;
      units := units + [Unit(RefOf(sc, m, Evals), cases)];
    }
  }

  /** Without a filter an allowed model runs every authored case. */
  lemma AllApply(sc: SkillCatalog, m: Model)
    requires Allows(sc, m)
    ensures RunTriggers(sc, m, None) == sc.triggers && RunEvals(sc, m, None) == sc.evals
  {
    FilterAll((t: Trigger) => TriggerIncluded(None, sc.skill, t.query), sc.triggers);
    FilterAll((e: Eval) => EvalIncluded(None, sc.skill, e.id), sc.evals);
  }
}
