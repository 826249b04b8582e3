/** Skills and their authored cases, and which of them a filter lets a model run. */
module Catalogs {
  import opened Prelude

  datatype Kind = Triggers | Evals
  datatype Trigger = Trigger(query: string, shouldTrigger: bool)
  datatype Eval = Eval(id: string)

  /** One skill's authored suite. `models` is the eval-set restriction; empty allows every model. */
  datatype SkillCatalog = SkillCatalog(
    plugin: string, skill: string, title: string, agent: bool, models: seq<string>,
    triggers: seq<Trigger>, evals: seq<Eval>)

  /** A model: its key is "provider/model"; hosted ones are agent endpoints. */
  datatype Model = Model(
    key: string, providerId: string, bareId: string, name: string, hosted: bool,
    preferred: string, supported: set<string>)

  datatype UnitRef = UnitRef(skill: string, key: string, kind: Kind)
  datatype CaseRef = CaseRef(skill: string, kind: Kind, name: string)
  datatype Tiers = Tiers(triggers: bool, evals: bool)

  /** A sweep filter. A level that is None restricts nothing, which an empty map does not; within triggers and evals
      a skill without an entry is not restricted either. */
  datatype Filters = Filters(
    skills: Option<map<string, bool>>,
    triggers: Option<map<string, map<string, bool>>>,
    evals: Option<map<string, map<string, bool>>>)

  function Truth(m: map<string, bool>, k: string): bool { k in m && m[k] }

  predicate SkillIncluded(f: Option<Filters>, skill: string) {
    f.None? || f.value.skills.None? || Truth(f.value.skills.value, skill)
  }

  predicate CaseIncluded(tier: Option<map<string, map<string, bool>>>, skill: string, name: string) {
    tier.None? || skill !in tier.value || Truth(tier.value[skill], name)
  }

  predicate TriggerIncluded(f: Option<Filters>, skill: string, query: string) {
    f.None? || CaseIncluded(f.value.triggers, skill, query)
  }

  predicate EvalIncluded(f: Option<Filters>, skill: string, id: string) {
    f.None? || CaseIncluded(f.value.evals, skill, id)
  }

  predicate MatchedBy(m: Model, tokens: seq<string>) {
    exists t :: t in tokens && (t == "all" || t == m.providerId || t == m.key || t == m.bareId)
  }

  predicate ModelAllowed(m: Model, allowed: seq<string>) { allowed == [] || MatchedBy(m, allowed) }

  predicate Allows(sc: SkillCatalog, m: Model) { sc.agent == m.hosted && ModelAllowed(m, sc.models) }

  // ----- the cases a model runs under a filter -----

  function RunTriggers(sc: SkillCatalog, m: Model, f: Option<Filters>): seq<Trigger> {
    if !SkillIncluded(f, sc.skill) || !ModelAllowed(m, sc.models) then []
    else Filter((t: Trigger) => TriggerIncluded(f, sc.skill, t.query), sc.triggers)
  }

  function RunEvals(sc: SkillCatalog, m: Model, f: Option<Filters>): seq<Eval> {
    if !SkillIncluded(f, sc.skill) || !ModelAllowed(m, sc.models) then []
    else Filter((e: Eval) => EvalIncluded(f, sc.skill, e.id), sc.evals)
  }

  /** Every trigger the model under the skill could run, in authored order. */
  method ApplicableTriggers(sc: SkillCatalog, m: Model, f: Option<Filters>) returns (out: seq<Trigger>)
    ensures out == RunTriggers(sc, m, f)
  {
    out := [];
    if !SkillIncluded(f, sc.skill) || !ModelAllowed(m, sc.models) {
      return;
    }
    ghost var keep := (t: Trigger) => TriggerIncluded(f, sc.skill, t.query);
    var i := 0;
    while i < |sc.triggers|
      invariant 0 <= i <= |sc.triggers| && out == Filter(keep, sc.triggers[..i])
    {
      TakeOneMore([], sc.triggers, i);
      FilterConcat(keep, sc.triggers[..i], [sc.triggers[i]]);
      if TriggerIncluded(f, sc.skill, sc.triggers[i].query) {
        out := out + [sc.triggers[i]];
      }
      i := i + 1;
    }
    assert sc.triggers[..i] == sc.triggers;
  }

  /** Every eval the model under the skill could run, in authored order. */
  method ApplicableEvals(sc: SkillCatalog, m: Model, f: Option<Filters>) returns (out: seq<Eval>)
    ensures out == RunEvals(sc, m, f)
  {
    out := [];
    if !SkillIncluded(f, sc.skill) || !ModelAllowed(m, sc.models) {
      return;
    }
    ghost var keep := (e: Eval) => EvalIncluded(f, sc.skill, e.id);
    var i := 0;
    while i < |sc.evals|
      invariant 0 <= i <= |sc.evals| && out == Filter(keep, sc.evals[..i])
    {
      TakeOneMore([], sc.evals, i);
      FilterConcat(keep, sc.evals[..i], [sc.evals[i]]);
      if EvalIncluded(f, sc.skill, sc.evals[i].id) {
        out := out + [sc.evals[i]];
      }
      i := i + 1;
    }
    assert sc.evals[..i] == sc.evals;
  }
}
