/** Why a rerun might select each case of each model: the domain the form's preview works over.

    Model of CaseReasons of internal/run/plan.go; the reason itself is any function of the skill, model and case. */
module CaseReasoning {
  import opened Prelude
  import opened Catalogs
  import opened Planner
  import opened Sweeps

  datatype CaseReason = CaseReason(isNew: bool, modified: bool, failing: bool)
  type Reasons = map<string, map<CaseRef, CaseReason>>
  type Reasoner = (SkillCatalog, Model, CaseRef) -> CaseReason

  /** Which skills, tiers and eval the reasons are computed for; an evalFilter of "" admits every eval. */
  datatype Scope = Scope(selects: (string, string) -> bool, tiers: Tiers, evalFilter: string)

  /** The (model key, case) pairs that have a reason. */
  function Domain(out: Reasons): set<(string, CaseRef)> { set k, cr | k in out && cr in out[k] :: (k, cr) }

  function CaseDomain(sc: SkillCatalog, sels: seq<Model>, cr: CaseRef): set<(string, CaseRef)> {
    set m | m in sels && Allows(sc, m) :: (m.key, cr)
  }

  function TierDomain(sc: SkillCatalog, sels: seq<Model>, kind: Kind, names: seq<string>): set<(string, CaseRef)> {
    if names == [] then {}
    else TierDomain(sc, sels, kind, names[..|names| - 1]) +
         CaseDomain(sc, sels, CaseRef(sc.skill, kind, names[|names| - 1]))
  }

  /** The evals of a skill the scope admits. */
  function AdmittedEvals(sc: SkillCatalog, scope: Scope): seq<string> {
    Filter((id: string) => scope.evalFilter == "" || id == scope.evalFilter, NamesIn(sc, Evals))
  }

  function SkillDomain(sc: SkillCatalog, sels: seq<Model>, scope: Scope): set<(string, CaseRef)> {
    if !scope.selects(sc.plugin, sc.skill) then {}
    else (if scope.tiers.triggers then TierDomain(sc, sels, Triggers, NamesIn(sc, Triggers)) else {}) +
         (if scope.tiers.evals then TierDomain(sc, sels, Evals, AdmittedEvals(sc, scope)) else {})
  }

  function CatalogDomain(cat: seq<SkillCatalog>, sels: seq<Model>, scope: Scope): set<(string, CaseRef)> {
    if cat == [] then {}
    else CatalogDomain(cat[..|cat| - 1], sels, scope) + SkillDomain(cat[|cat| - 1], sels, scope)
  }

  // ----- computing the reasons -----

  method CaseReasons(cat: seq<SkillCatalog>, sels: seq<Model>, scope: Scope, why: Reasoner) returns (out: Reasons)
    ensures Domain(out) == CatalogDomain(cat, sels, scope)
    ensures forall m | m in sels :: m.key in out
  {
    out := map[];
    for i := 0 to |sels|
      invariant out.Keys == set m | m in sels[..i] :: m.key
      invariant forall k | k in out :: out[k] == map[]
    {
      out := out[sels[i].key := map[]];
    }
    assert sels[..|sels|] == sels;
    hide Allows, NamesIn, AdmittedEvals, TierDomain;
    for i := 0 to |cat|
      invariant out.Keys == set m | m in sels :: m.key
      invariant Domain(out) == CatalogDomain(cat[..i], sels, scope)
    {
      assert cat[..i + 1][..i] == cat[..i];
      if scope.selects(cat[i].plugin, cat[i].skill) {
        if scope.tiers.triggers {
          out := AddTier(cat[i], sels, Triggers, NamesIn(cat[i], Triggers), why, out);
        }
        if scope.tiers.evals {
          out := AddTier(cat[i], sels, Evals, AdmittedEvals(cat[i], scope), why, out);
        }
      }
    }
    assert cat[..|cat|] == cat;
  }

  method AddTier(sc: SkillCatalog, sels: seq<Model>, kind: Kind, names: seq<string>, why: Reasoner, before: Reasons)
    returns (out: Reasons)
    requires forall m | m in sels :: m.key in before
    ensures out.Keys == before.Keys && Domain(out) == Domain(before) + TierDomain(sc, sels, kind, names)
  {
    out := before;
    hide Allows, Domain, CaseDomain;
    for i := 0 to |names|
      invariant out.Keys == before.Keys && Domain(out) == Domain(before) + TierDomain(sc, sels, kind, names[..i])
    {
      assert names[..i + 1][..i] == names[..i];
      out := AddCase(sc, sels, CaseRef(sc.skill, kind, names[i]), why, out);
    }
    assert names[..|names|] == names;
  }

  method AddCase(sc: SkillCatalog, sels: seq<Model>, cr: CaseRef, why: Reasoner, before: Reasons)
    returns (out: Reasons)
    requires forall m | m in sels :: m.key in before
    ensures out.Keys == before.Keys && Domain(out) == Domain(before) + CaseDomain(sc, sels, cr)
  {
    out := before;
    hide Allows;
    for i := 0 to |sels|
      invariant out.Keys == before.Keys && Domain(out) == Domain(before) + CaseDomain(sc, sels[..i], cr)
    {
      var m := sels[i];
      assert sels[..i + 1] == sels[..i] + [m];
      CaseDomainSnoc(sc, sels[..i], m, cr);
      if Allows(sc, m) {
        DomainWith(out, m.key, cr, why(sc, m, cr));
        out := out[m.key := out[m.key][cr := why(sc, m, cr)]];
      }
    }
    assert sels[..|sels|] == sels;
  }

  lemma CaseDomainSnoc(sc: SkillCatalog, sels: seq<Model>, m: Model, cr: CaseRef)
    ensures CaseDomain(sc, sels + [m], cr) == CaseDomain(sc, sels, cr) + if Allows(sc, m) then {(m.key, cr)} else {}
  {
    hide Allows;
    assert forall x :: x in sels + [m] <==> x in sels || x == m;
  }

  lemma DomainWith(out: Reasons, key: string, cr: CaseRef, r: CaseReason)
    requires key in out
    ensures Domain(out[key := out[key][cr := r]]) == Domain(out) + {(key, cr)}
  {
  }

  // ----- the domain is part of the plan -----

  function EntryOf(key: string, cr: CaseRef): Entry { Entry(key, cr.skill, cr.kind, cr.name) }

  lemma {:induction false} TierIsAuthored(sc: SkillCatalog, sels: seq<Model>, kind: Kind, names: seq<string>,
                                          p: (string, CaseRef))
    ensures p in TierDomain(sc, sels, kind, names) <==>
              && p.1.skill == sc.skill && p.1.kind == kind && p.1.name in names
              && exists m :: m in sels && Allows(sc, m) && m.key == p.0
  {
    hide Allows;
    if names != [] {
      TierIsAuthored(sc, sels, kind, names[..|names| - 1], p);
      assert p.1.name in names <==> p.1.name in names[..|names| - 1] || p.1.name == names[|names| - 1] by {
        assert names == names[..|names| - 1] + [names[|names| - 1]];
      }
    }
  }

  /** Within a scope, a case is in the domain exactly when a selected skill authors it for the model, its tier is
      covered and, for evals, the filter admits it. */
  predicate InScope(sc: SkillCatalog, scope: Scope, cr: CaseRef) {
    && scope.selects(sc.plugin, sc.skill)
    && if cr.kind.Triggers? then scope.tiers.triggers
       else scope.tiers.evals && (scope.evalFilter == "" || cr.name == scope.evalFilter)
  }

  ghost predicate AuthoredInScope(sc: SkillCatalog, sels: seq<Model>, scope: Scope, p: (string, CaseRef)) {
    InScope(sc, scope, p.1) && AuthoredBySome(sc, sels, EntryOf(p.0, p.1))
  }

  lemma SkillDomainIs(sc: SkillCatalog, sels: seq<Model>, scope: Scope, p: (string, CaseRef))
    ensures p in SkillDomain(sc, sels, scope) <==> AuthoredInScope(sc, sels, scope, p)
  {
    hide Allows, NamesIn, TierDomain;
    TierIsAuthored(sc, sels, Triggers, NamesIn(sc, Triggers), p);
    TierIsAuthored(sc, sels, Evals, AdmittedEvals(sc, scope), p);
    FilterMember((id: string) => scope.evalFilter == "" || id == scope.evalFilter, NamesIn(sc, Evals), p.1.name);
  }

  lemma {:induction false} DomainIs(cat: seq<SkillCatalog>, sels: seq<Model>, scope: Scope, p: (string, CaseRef))
    ensures p in CatalogDomain(cat, sels, scope) <==> exists sc :: sc in cat && AuthoredInScope(sc, sels, scope, p)
  {
    hide SkillDomain, AuthoredInScope;
    if cat != [] {
      var front, sc := cat[..|cat| - 1], cat[|cat| - 1];
      assert forall y :: y in cat <==> y in front || y == sc by {
        assert cat == front + [sc];
      }
      DomainIs(front, sels, scope, p);
      SkillDomainIs(sc, sels, scope, p);
    }
  }
}
