/** Which cases run, said of the selection form's fields and the filter's maps themselves. */
module PlanLaws {
  import opened Prelude
  import opened Catalogs
  import opened Planner
  import opened Sweeps
  import opened PlannedRuns
  import opened CaseReasoning
  import opened Sessions

  /** The toggles queue a case with this reason: none is set, or one that is set matches. */
  predicate Wanted(t: Toggles, r: CaseReason) {
    || (!t.onlyNew && !t.modified && !t.failed)
    || (t.onlyNew && r.isNew) || (t.modified && r.modified) || (t.failed && r.failing)
  }

  /** For an enabled model a case is queued exactly when it is forced on, or is not forced off and the toggles want it
      for the reason the model has to run it. */
  lemma QueuedSays(reasons: Reasons, t: Toggles, cases: map<CaseRef, State>, keys: seq<string>, key: string,
                   cr: CaseRef)
    requires key in keys
    ensures Queued(SelectionFor(reasons, t, cases, keys), key, cr) <==>
              || (cr in cases && cases[cr].On?)
              || (!(cr in cases && cases[cr].Off?)
                  && key in reasons && cr in reasons[key] && Wanted(t, reasons[key][cr]))
  {
  }

  /** A model that is not enabled, or has no reason for a case, runs it only when the case is forced on. */
  lemma UnreasonedSays(reasons: Reasons, t: Toggles, cases: map<CaseRef, State>, keys: seq<string>, key: string,
                       cr: CaseRef)
    requires key !in keys || !HasReason(reasons, key, cr)
    ensures Queued(SelectionFor(reasons, t, cases, keys), key, cr) <==> cr in cases && cases[cr].On?
  {
  }

  /** Setting toggles together queues what setting each alone does. */
  lemma TogglesUnite(reasons: Reasons, a: Toggles, b: Toggles, cases: map<CaseRef, State>, keys: seq<string>,
                     key: string, cr: CaseRef)
    requires key in keys && (a.onlyNew || a.modified || a.failed) && (b.onlyNew || b.modified || b.failed)
    ensures var both := Toggles(a.onlyNew || b.onlyNew, a.modified || b.modified, a.failed || b.failed);
            Queued(SelectionFor(reasons, both, cases, keys), key, cr) <==>
              || Queued(SelectionFor(reasons, a, cases, keys), key, cr)
              || Queued(SelectionFor(reasons, b, cases, keys), key, cr)
  {
    hide Queued, SelectionFor;
    QueuedSays(reasons, a, cases, keys, key, cr);
    QueuedSays(reasons, b, cases, keys, key, cr);
    QueuedSays(reasons, Toggles(a.onlyNew || b.onlyNew, a.modified || b.modified, a.failed || b.failed), cases, keys,
               key, cr);
  }

  // ----- filters -----

  /** A token list names the model: by "all", its provider, its key or its bare id. */
  predicate Named(m: Model, tokens: seq<string>) {
    "all" in tokens || m.providerId in tokens || m.key in tokens || m.bareId in tokens
  }

  /** A level of a filter lets this through: there is no such level, or, for a tier, the skill has no entry in it, or
      the name is listed. */
  predicate LevelAdmits(level: Option<map<string, bool>>, name: string) {
    level.Some? ==> name in level.value && level.value[name]
  }

  predicate TierAdmits(tier: Option<map<string, map<string, bool>>>, skill: string, name: string) {
    tier.Some? && skill in tier.value ==> name in tier.value[skill] && tier.value[skill][name]
  }

  predicate MayRun(sc: SkillCatalog, m: Model, f: Option<Filters>) {
    (sc.models == [] || Named(m, sc.models)) && (f.Some? ==> LevelAdmits(f.value.skills, sc.skill))
  }

  /** A model runs exactly the authored triggers the filter admits, when the skill and its models do. */
  lemma TriggersRun(sc: SkillCatalog, m: Model, f: Option<Filters>, t: Trigger)
    ensures t in RunTriggers(sc, m, f) <==>
              t in sc.triggers && MayRun(sc, m, f) && (f.Some? ==> TierAdmits(f.value.triggers, sc.skill, t.query))
  {
    NamedMeans(m, sc.models);
    FilterMember((t: Trigger) => TriggerIncluded(f, sc.skill, t.query), sc.triggers, t);
  }

  lemma EvalsRun(sc: SkillCatalog, m: Model, f: Option<Filters>, e: Eval)
    ensures e in RunEvals(sc, m, f) <==>
              e in sc.evals && MayRun(sc, m, f) && (f.Some? ==> TierAdmits(f.value.evals, sc.skill, e.id))
  {
    NamedMeans(m, sc.models);
    FilterMember((e: Eval) => EvalIncluded(f, sc.skill, e.id), sc.evals, e);
  }

  lemma NamedMeans(m: Model, tokens: seq<string>)
    ensures ModelAllowed(m, tokens) <==> tokens == [] || Named(m, tokens)
  {
    if Named(m, tokens) {
      if "all" in tokens {
      } else if m.providerId in tokens {
      } else if m.key in tokens {
      } else {
        assert m.bareId in tokens;
      }
    }
  }

  // ----- harnesses -----

  predicate CanDrive(m: Model, eligible: set<string>, id: string) { id in eligible && id in m.supported }

  /** A model runs under its preferred harness when that can drive it, else under the first in the preference order
      that can, else not at all. */
  lemma HarnessSays(m: Model, eligible: set<string>)
    ensures var h := RunnableHarness(m, eligible);
            && (CanDrive(m, eligible, m.preferred) ==> h == Some(m.preferred))
            && (!CanDrive(m, eligible, m.preferred) ==>
                  && (h.None? <==> forall id | id in HARNESS_ORDER :: !CanDrive(m, eligible, id))
                  && (h.Some? ==>
                        exists k :: 0 <= k < |HARNESS_ORDER| && h.value == HARNESS_ORDER[k]
                                    && CanDrive(m, eligible, HARNESS_ORDER[k])
                                    && forall j | 0 <= j < k :: !CanDrive(m, eligible, HARNESS_ORDER[j])))
  {
    FirstSays(m, eligible, HARNESS_ORDER);
  }

  lemma {:induction false} FirstSays(m: Model, eligible: set<string>, ids: seq<string>)
    ensures var h := FirstSupported(m, eligible, ids);
            && (h.None? <==> forall id | id in ids :: !CanDrive(m, eligible, id))
            && (h.Some? ==>
                  exists k :: 0 <= k < |ids| && h.value == ids[k] && CanDrive(m, eligible, ids[k])
                              && forall j | 0 <= j < k :: !CanDrive(m, eligible, ids[j]))
  {
    if ids != [] {
      assert ids == [ids[0]] + ids[1..];
      FirstSays(m, eligible, ids[1..]);
      var h := FirstSupported(m, eligible, ids);
      if h.Some? && !CanDrive(m, eligible, ids[0]) {
        var k :| 0 <= k < |ids[1..]| && h.value == ids[1..][k] && CanDrive(m, eligible, ids[1..][k])
                 && forall j | 0 <= j < k :: !CanDrive(m, eligible, ids[1..][j]);
        assert ids[k + 1] == h.value;
        forall j | 0 <= j < k + 1 ensures !CanDrive(m, eligible, ids[j]) {
          if j > 0 {
            assert ids[j] == ids[1..][j - 1];
          }
        }
      }
    }
  }

  // ----- what the form queues -----

  /** The skill offers this case to this model: an agent's skills to hosted models and no others, to the models it
      names when it names any. */
  ghost predicate Offers(sc: SkillCatalog, m: Model, x: Entry) {
    && m.key == x.key && sc.skill == x.skill && sc.agent == m.hosted && (sc.models == [] || Named(m, sc.models))
    && if x.kind.Triggers? then exists t :: t in sc.triggers && t.query == x.name
       else exists e :: e in sc.evals && e.id == x.name
  }

  /** The model is switched on, and so is an available harness that can drive it. */
  ghost predicate SwitchedOn(s: Session, m: Model)
    reads s
  {
    && m.key in s.modelOn && s.modelOn[m.key]
    && exists h :: h in s.harnesses && h.available && h.id in s.harnessOn && s.harnessOn[h.id] && h.id in m.supported
                   && (h.id == m.preferred || h.id in HARNESS_ORDER)
  }

  lemma OffersMeans(sc: SkillCatalog, m: Model, x: Entry)
    ensures AuthoredFor(sc, m, x) <==> Offers(sc, m, x)
  {
    NamedMeans(m, sc.models);
    if x.kind.Triggers? {
      if t :| t in sc.triggers && t.query == x.name {
        var i :| 0 <= i < |sc.triggers| && sc.triggers[i] == t;
        assert NamesIn(sc, Triggers)[i] == x.name;
      }
    } else {
      if e :| e in sc.evals && e.id == x.name {
        var i :| 0 <= i < |sc.evals| && sc.evals[i] == e;
        assert NamesIn(sc, Evals)[i] == x.name;
      }
    }
  }

  lemma SwitchedOnMeans(s: Session, m: Model)
    ensures m in s.Enabled() <==> m in s.models && SwitchedOn(s, m)
  {
    var on, eligible := s.modelOn, s.Eligible();
    FilterMember((x: Model) => Truth(on, x.key) && RunnableHarness(x, eligible).Some?, s.models, m);
    HarnessSays(m, eligible);
    forall id ensures id in eligible <==> exists h :: h in s.harnesses && h.available && h.id == id
                                                      && id in s.harnessOn && s.harnessOn[id]
    {
    }
    hide RunnableHarness;
  }

  /** The submitted plan queues a case for a model exactly when some skill offers it to a model that is switched on,
      and it is forced on, or not forced off and wanted for a reason. */
  lemma FormQueues(s: Session, x: Entry)
    ensures x in Entries(UnitsOfCatalog(s.cat, s.Enabled(), s.Chosen())) <==>
              && (exists sc, m :: sc in s.cat && m in s.models && SwitchedOn(s, m) && Offers(sc, m, x))
              && (|| (RefFor(x) in s.cases && s.cases[RefFor(x)].On?)
                  || (&& !(RefFor(x) in s.cases && s.cases[RefFor(x)].Off?)
                      && x.key in s.reasons && RefFor(x) in s.reasons[x.key]
                      && Wanted(s.toggles, s.reasons[x.key][RefFor(x)])))
  {
    hide Queued, SelectionFor, AuthoredFor, Offers, SwitchedOn, Entries, UnitsOfCatalog, Wanted;
    var enabled := s.Enabled();
    PlanEntries(s.cat, enabled, s.Chosen(), x);
    forall m ensures m in enabled <==> m in s.models && SwitchedOn(s, m) {
      SwitchedOnMeans(s, m);
    }
    forall sc, m ensures AuthoredFor(sc, m, x) <==> Offers(sc, m, x) {
      OffersMeans(sc, m, x);
    }
    if Authored(s.cat, enabled, x) {
      var sc :| sc in s.cat && AuthoredBySome(sc, enabled, x);
      var m :| m in enabled && AuthoredFor(sc, m, x);
      SameKey(sc, m, x);
      var i :| 0 <= i < |enabled| && enabled[i] == m;
      assert KeysOf(enabled)[i] == x.key;
      QueuedSays(s.reasons, s.toggles, s.cases, KeysOf(enabled), x.key, RefFor(x));
    }
  }

  /** The plan's units of a skill for a model: its authored triggers, then its evals, each in order and under its own
      name, or nothing when the skill is not offered to the model. */
  lemma UnitsSay(sc: SkillCatalog, m: Model, sel: Selection)
    ensures var us := UnitsFor(sc, m, sel);
            if sc.agent != m.hosted || (sc.models != [] && !Named(m, sc.models)) then us == []
            else
              && (sc.triggers != [] ==>
                    && us != [] && us[0].ref == UnitRef(sc.skill, m.key, Triggers)
                    && |us[0].cases| == |sc.triggers|
                    && forall i | 0 <= i < |sc.triggers| ::
                         us[0].cases[i] == Case(sc.triggers[i].query, Triggers, sc.triggers[i].shouldTrigger,
                                                us[0].cases[i].queued))
              && (sc.evals != [] ==>
                    && us != [] && us[|us| - 1].ref == UnitRef(sc.skill, m.key, Evals)
                    && |us[|us| - 1].cases| == |sc.evals|
                    && forall i | 0 <= i < |sc.evals| ::
                         us[|us| - 1].cases[i] == Case(sc.evals[i].id, Evals, false, us[|us| - 1].cases[i].queued))
              && |us| == (if sc.triggers != [] then 1 else 0) + (if sc.evals != [] then 1 else 0)
  {
    NamedMeans(m, sc.models);
    hide Queued, Named, ModelAllowed;
  }

  // ----- what the plan lists -----

  /** A model of a plan is listed under its own key, and by its name when it has one. */
  ghost predicate ListsModel(sc: SkillCatalog, models: seq<Model>, sel: Selection, mp: ModelPlan) {
    exists m :: m in models && UnitsFor(sc, m, sel) != [] && mp.units == UnitsFor(sc, m, sel) && mp.key == m.key
                && (m.name != "" ==> mp.display == m.name) && (m.name == "" ==> mp.display == m.key)
  }

  /** A skill of a plan is listed under its own plugin, name and title. */
  ghost predicate ListsSkill(cat: seq<SkillCatalog>, models: seq<Model>, sel: Selection, x: (string, SkillPlan)) {
    exists sc :: sc in cat && x.0 == sc.plugin && x.1.skill == sc.skill && x.1.title == sc.title
                 && x.1.models != [] && forall mp | mp in x.1.models :: ListsModel(sc, models, sel, mp)
  }

  lemma MoreModels(sc: SkillCatalog, models: seq<Model>, more: seq<Model>, sel: Selection, mp: ModelPlan)
    requires ListsModel(sc, models, sel, mp)
    ensures ListsModel(sc, models + more, sel, mp)
  {
    hide UnitsFor;
    var m :| m in models && UnitsFor(sc, m, sel) != [] && mp.units == UnitsFor(sc, m, sel) && mp.key == m.key
             && (m.name != "" ==> mp.display == m.name) && (m.name == "" ==> mp.display == m.key);
    assert m in models + more;
  }

  lemma {:induction false} ModelsListed(sc: SkillCatalog, models: seq<Model>, sel: Selection)
    ensures forall mp | mp in ModelsFor(sc, models, sel) :: ListsModel(sc, models, sel, mp)
  {
    if models != [] {
      var front, m := models[..|models| - 1], models[|models| - 1];
      assert models == front + [m];
      ModelsListed(sc, front, sel);
      forall mp | mp in ModelsFor(sc, models, sel) ensures ListsModel(sc, models, sel, mp) {
        if mp in ModelsFor(sc, front, sel) {
          MoreModels(sc, front, [m], sel, mp);
        }
      }
    }
  }

  /** Every skill and model of a plan is listed as the catalog and the registry name it. */
  lemma {:induction false} PlanLists(cat: seq<SkillCatalog>, models: seq<Model>, sel: Selection)
    ensures forall x | x in ListedFrom(cat, models, sel) :: ListsSkill(cat, models, sel, x)
  {
    hide ListsModel, ModelsFor;
    if cat != [] {
      var front, sc := cat[..|cat| - 1], cat[|cat| - 1];
      assert cat == front + [sc];
      PlanLists(front, models, sel);
      ModelsListed(sc, models, sel);
      forall x | x in ListedFrom(cat, models, sel) ensures ListsSkill(cat, models, sel, x) {
        if x in ListedFrom(front, models, sel) {
          assert ListsSkill(front, models, sel, x);
          assert forall y | y in front :: y in cat;
        }
      }
    }
  }

  // ----- reasons -----

  /** A case has a reason for a model exactly when some selected skill offers it to the model, its tier is covered and,
      for evals, the filter names it or is empty. */
  lemma ReasonsSay(cat: seq<SkillCatalog>, sels: seq<Model>, scope: Scope, key: string, cr: CaseRef)
    ensures (key, cr) in CatalogDomain(cat, sels, scope) <==>
              && (exists sc, m :: sc in cat && m in sels && scope.selects(sc.plugin, sc.skill)
                                  && Offers(sc, m, EntryOf(key, cr)))
              && (cr.kind.Triggers? ==> scope.tiers.triggers)
              && (cr.kind.Evals? ==> scope.tiers.evals && (scope.evalFilter == "" || cr.name == scope.evalFilter))
  {
    DomainIs(cat, sels, scope, (key, cr));
    forall sc, m ensures AuthoredFor(sc, m, EntryOf(key, cr)) <==> Offers(sc, m, EntryOf(key, cr)) {
      OffersMeans(sc, m, EntryOf(key, cr));
    }
    hide AuthoredFor, Offers, CatalogDomain;
  }

  /** A harness that lists its models offers a model it lists; the first entry under the harness's id decides, and one
      without an entry, or whose models are unknown, offers every model. */
  lemma {:induction false} OfferedSays(hs: seq<HarnessState>, id: string, m: Model,
                                       offers: (Model, string, seq<string>) -> bool)
    ensures (forall h | h in hs :: h.id != id) ==> OfferedBy(hs, id, m, offers)
    ensures forall k | 0 <= k < |hs| && hs[k].id == id && (forall j | 0 <= j < k :: hs[j].id != id) ::
              OfferedBy(hs, id, m, offers) <==> (hs[k].models.Some? ==> offers(m, id, hs[k].models.value))
  {
    if hs != [] && hs[0].id != id {
      var rest := hs[1..];
      OfferedSays(rest, id, m, offers);
      forall k | 0 <= k < |hs| && hs[k].id == id && (forall j | 0 <= j < k :: hs[j].id != id)
        ensures OfferedBy(hs, id, m, offers) <==> (hs[k].models.Some? ==> offers(m, id, hs[k].models.value))
      {
        assert rest[k - 1] == hs[k];
        assert forall j | 0 <= j < k - 1 :: rest[j] == hs[j + 1];
      }
    }
  }

  // ----- the units of a run -----

  ghost predicate HasCaseToRun(sc: SkillCatalog, m: Model, f: Option<Filters>, kind: Kind) {
    if kind.Triggers? then
      exists t :: t in sc.triggers && (f.Some? ==> TierAdmits(f.value.triggers, sc.skill, t.query))
    else exists e :: e in sc.evals && (f.Some? ==> TierAdmits(f.value.evals, sc.skill, e.id))
  }

  /** The engine runs this unit: an agent's skills run on hosted models and no others, and there is a case to run. */
  ghost predicate RunsUnit(sc: SkillCatalog, m: Model, f: Option<Filters>, tiers: Tiers, u: UnitRef) {
    && u.skill == sc.skill && u.key == m.key && sc.agent == m.hosted && MayRun(sc, m, f)
    && (if u.kind.Triggers? then tiers.triggers else tiers.evals) && HasCaseToRun(sc, m, f, u.kind)
  }

  lemma {:induction false} FlattenMember<T>(ss: seq<seq<T>>, x: T)
    ensures x in Flatten(ss) <==> exists i: nat :: i < |ss| && x in ss[i]
  {
    if ss != [] {
      var rest := ss[1..];
      FlattenMember(rest, x);
      forall i: nat | i < |rest| ensures rest[i] == ss[i + 1] {
      }
      if x !in ss[0] && exists i: nat :: i < |ss| && x in ss[i] {
        var i: nat :| i < |ss| && x in ss[i];
        assert x in rest[i - 1];
      }
    }
  }

  lemma ModelUnits(sc: SkillCatalog, m: Model, f: Option<Filters>, tiers: Tiers, u: UnitRef)
    ensures u in RunUnitsOf(sc, m, f, tiers) <==> RunsUnit(sc, m, f, tiers, u)
  {
    NamedMeans(m, sc.models);
    TriggersToRun(sc, m, f);
    EvalsToRun(sc, m, f);
    hide RunTriggers, RunEvals, ModelAllowed, Named, HasCaseToRun;
  }

  lemma TriggersToRun(sc: SkillCatalog, m: Model, f: Option<Filters>)
    ensures RunTriggers(sc, m, f) != [] <==> MayRun(sc, m, f) && HasCaseToRun(sc, m, f, Triggers)
  {
    hide RunTriggers, MayRun, TierAdmits;
    var ts := RunTriggers(sc, m, f);
    forall t ensures t in ts <==> t in sc.triggers && MayRun(sc, m, f)
                                  && (f.Some? ==> TierAdmits(f.value.triggers, sc.skill, t.query))
    {
      TriggersRun(sc, m, f, t);
    }
    if ts != [] {
      assert ts[0] in ts;
    }
  }

  lemma EvalsToRun(sc: SkillCatalog, m: Model, f: Option<Filters>)
    ensures RunEvals(sc, m, f) != [] <==> MayRun(sc, m, f) && HasCaseToRun(sc, m, f, Evals)
  {
    hide RunEvals, MayRun, TierAdmits;
    var es := RunEvals(sc, m, f);
    forall e ensures e in es <==> e in sc.evals && MayRun(sc, m, f)
                                  && (f.Some? ==> TierAdmits(f.value.evals, sc.skill, e.id))
    {
      EvalsRun(sc, m, f, e);
    }
    if es != [] {
      assert es[0] in es;
    }
  }

  /** The units of a run are exactly the skills, models and tiers with a case to run. */
  lemma UnitsOfRun(cat: seq<SkillCatalog>, models: seq<Model>, f: Option<Filters>, tiers: Tiers, u: UnitRef)
    ensures u in RunUnits(cat, models, f, tiers) <==>
              exists sc, m :: sc in cat && m in models && RunsUnit(sc, m, f, tiers, u)
  {
    hide RunUnitsOf, RunsUnit, Flatten;
    var skills := Map((sc: SkillCatalog) => RunUnitsOfSkill(sc, models, f, tiers), cat);
    FlattenMember(skills, u);
    forall i: nat | i < |cat|
      ensures u in skills[i] <==> exists m :: m in models && RunsUnit(cat[i], m, f, tiers, u)
    {
      var units := Map((m: Model) => RunUnitsOf(cat[i], m, f, tiers), models);
      FlattenMember(units, u);
      forall j: nat | j < |models| ensures u in units[j] <==> RunsUnit(cat[i], models[j], f, tiers, u) {
        ModelUnits(cat[i], models[j], f, tiers, u);
      }
    }
  }
}
