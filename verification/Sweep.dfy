/** From a plan back to what runs: the per-model filters, and the units they select. */
module Sweeps {
  import opened Prelude
  import opened Catalogs
  import opened Planner

  /** The filter of one model while it is filled in: every level restricts. */
  datatype Chosen = Chosen(
    skills: map<string, bool>, triggers: map<string, map<string, bool>>, evals: map<string, map<string, bool>>)

  function Sealed(f: Chosen): Filters { Filters(Some(f.skills), Some(f.triggers), Some(f.evals)) }

  function Pinned(tier: map<string, map<string, bool>>, skill: string): map<string, map<string, bool>> {
    if skill in tier then tier else tier[skill := map[]]
  }

  function Marked(tier: map<string, map<string, bool>>, skill: string, name: string): map<string, map<string, bool>> {
    var t := Pinned(tier, skill);
    t[skill := t[skill][name := true]]
  }

  /** One queued case of a plan. */
  datatype Entry = Entry(key: string, skill: string, kind: Kind, name: string)

  /** The filter of a key with one more queued case. */
  function WithEntry(f: Chosen, e: Entry): Chosen {
    Chosen(
      f.skills[e.skill := true],
      if e.kind.Evals? then Pinned(f.triggers, e.skill) else Marked(f.triggers, e.skill, e.name),
      if e.kind.Evals? then Marked(f.evals, e.skill, e.name) else Pinned(f.evals, e.skill))
  }

  /** One queued case noted: its skill is included, both of its tiers are restricted, and its tier lists it. */
  function Noted(out: map<string, Chosen>, ref: UnitRef, c: Case): map<string, Chosen> {
    if !c.queued then out
    else
      var f := if ref.key in out then out[ref.key] else Chosen(map[], map[], map[]);
      out[ref.key := WithEntry(f, Entry(ref.key, ref.skill, c.kind, c.name))]
  }

  function NotedCases(out: map<string, Chosen>, ref: UnitRef, cs: seq<Case>): map<string, Chosen> {
    if cs == [] then out else Noted(NotedCases(out, ref, cs[..|cs| - 1]), ref, cs[|cs| - 1])
  }

  function NotedUnits(out: map<string, Chosen>, us: seq<Unit>): map<string, Chosen> {
    if us == [] then out else NotedCases(NotedUnits(out, us[..|us| - 1]), us[|us| - 1].ref, us[|us| - 1].cases)
  }

  lemma {:induction false} NotedConcat(out: map<string, Chosen>, a: seq<Unit>, b: seq<Unit>)
    ensures NotedUnits(out, a + b) == NotedUnits(NotedUnits(out, a), b)
  {
    hide NotedCases;
    if b == [] {
      assert a + b == a;
    } else {
      assert (a + b)[..|a + b| - 1] == a + b[..|b| - 1];
      NotedConcat(out, a, b[..|b| - 1]);
    }
  }

  /** The execution filter of every model with a queued case, by model key. */
  method FiltersOf(p: Plan) returns (out: map<string, Chosen>)
    ensures out == NotedUnits(map[], PlanUnits(p))
  {
    out := map[];
    hide NotedUnits, NotedCases, PlanUnits, PluginUnits, SkillUnits;
    NoPlugins();
    var i := 0;
    while i < |p.plugins|
      invariant 0 <= i <= |p.plugins| && out == NotedUnits(map[], PlanUnits(Plan(p.plugins[..i])))
    {
      var pl := p.plugins[i];
      ghost var o1 := out;
      NoSkills(o1, pl.name);
      var j := 0;
      while j < |pl.skills|
        invariant 0 <= j <= |pl.skills| && out == NotedUnits(o1, PluginUnits(PluginPlan(pl.name, pl.skills[..j])))
      {
        out := NoteSkill(pl.skills[j], out);
        TakeOneMore([], pl.skills, j);
        PluginUnitsSnoc(pl.name, pl.skills[..j], pl.skills[j]);
        NotedConcat(o1, PluginUnits(PluginPlan(pl.name, pl.skills[..j])), SkillUnits(pl.skills[j]));
        j := j + 1;
      }
      assert PluginPlan(pl.name, pl.skills[..j]) == pl;
      TakeOneMore([], p.plugins, i);
      PlanUnitsSnoc(p.plugins[..i], pl);
      NotedConcat(map[], PlanUnits(Plan(p.plugins[..i])), PluginUnits(pl));
      i := i + 1;
    }
    assert Plan(p.plugins[..i]) == p;
  }

  lemma NoPlugins()
    ensures NotedUnits(map[], PlanUnits(Plan([]))) == map[]
  {
  }

  lemma NoSkills(out: map<string, Chosen>, name: string)
    ensures NotedUnits(out, PluginUnits(PluginPlan(name, []))) == out
  {
  }

  /** The inner loops: a skill's models, their units and the units' cases. */
  method NoteSkill(sk: SkillPlan, before: map<string, Chosen>) returns (out: map<string, Chosen>)
    ensures out == NotedUnits(before, SkillUnits(sk))
  {
    out := before;
    hide NotedCases, Noted;
    ghost var units: seq<Unit> := [];
    for k := 0 to |sk.models|
      invariant units == Flatten(Map((m: ModelPlan) => m.units, sk.models[..k])) && out == NotedUnits(before, units)
    {
      var m := sk.models[k];
      ghost var o2 := out;
      for l := 0 to |m.units|
        invariant out == NotedUnits(o2, m.units[..l])
      {
        var u := m.units[l];
        ghost var o3 := out;
        NoCases(o3, u.ref);
        for n := 0 to |u.cases|
          invariant out == NotedCases(o3, u.ref, u.cases[..n])
        {
          OneMoreCase(o3, u.ref, u.cases, n);
          out := NoteCase(out, u.ref, u.cases[n]);
        }
        assert u.cases[..|u.cases|] == u.cases;
        assert m.units[..l + 1][..l] == m.units[..l];
      }
      assert m.units[..|m.units|] == m.units;
      NotedConcat(before, units, m.units);
      TakeOneMore([], sk.models, k);
      FlattenMapSnoc((x: ModelPlan) => x.units, sk.models[..k], m);
      units := units + m.units;
    }
    assert sk.models[..|sk.models|] == sk.models;
  }

  lemma NoCases(out: map<string, Chosen>, ref: UnitRef)
    ensures NotedCases(out, ref, []) == out
  {
  }

  lemma OneMoreCase(out: map<string, Chosen>, ref: UnitRef, cs: seq<Case>, n: nat)
    requires n < |cs|
    ensures NotedCases(out, ref, cs[..n + 1]) == Noted(NotedCases(out, ref, cs[..n]), ref, cs[n])
  {
    hide Noted;
    assert cs[..n + 1][..n] == cs[..n];
  }

  /** The body of the loops: one case. */
  method NoteCase(before: map<string, Chosen>, ref: UnitRef, c: Case) returns (out: map<string, Chosen>)
    ensures out == Noted(before, ref, c)
  {
    out := before;
    if !c.queued {
      return;
    }
    var f := if ref.key in out then out[ref.key] else Chosen(map[], map[], map[]);
    f := f.(skills := f.skills[ref.skill := true]);
    if ref.skill !in f.triggers {
      f := f.(triggers := f.triggers[ref.skill := map[]]);
    }
    if ref.skill !in f.evals {
      f := f.(evals := f.evals[ref.skill := map[]]);
    }
    if c.kind.Evals? {
      f := f.(evals := f.evals[ref.skill := f.evals[ref.skill][c.name := true]]);
    } else {
      f := f.(triggers := f.triggers[ref.skill := f.triggers[ref.skill][c.name := true]]);
    }
    out := out[ref.key := f];
  }

  // ----- what the filters say -----

  function CaseEntries(ref: UnitRef, cs: seq<Case>): seq<Entry> {
    if cs == [] then []
    else
      var c := cs[|cs| - 1];
      CaseEntries(ref, cs[..|cs| - 1]) + if c.queued then [Entry(ref.key, ref.skill, c.kind, c.name)] else []
  }

  /** The queued cases of a list of units, in order. */
  function Entries(us: seq<Unit>): seq<Entry> {
    if us == [] then []
    else Entries(us[..|us| - 1]) + CaseEntries(us[|us| - 1].ref, us[|us| - 1].cases)
  }

  /** The skills, and one skill's cases of one tier, queued for a key. */
  function SkillsOf(q: seq<Entry>, key: string): set<string> { set e | e in q && e.key == key :: e.skill }

  function NamesOf(q: seq<Entry>, key: string, skill: string, kind: Kind): set<string> {
    set e | e in q && e.key == key && e.skill == skill && e.kind == kind :: e.name
  }

  /** Every queued skill has an entry, listing exactly its queued cases of the tier. */
  ghost predicate TierSays(tier: map<string, map<string, bool>>, q: seq<Entry>, key: string, kind: Kind) {
    && tier.Keys == SkillsOf(q, key)
    && forall skill, name | skill in tier :: Truth(tier[skill], name) <==> name in NamesOf(q, key, skill, kind)
  }

  ghost predicate FilterSays(f: Chosen, q: seq<Entry>, key: string) {
    && (forall skill :: Truth(f.skills, skill) <==> skill in SkillsOf(q, key))
    && TierSays(f.triggers, q, key, Triggers) && TierSays(f.evals, q, key, Evals)
  }

  /** A filter exists exactly for the keys with a queued case; it includes exactly their skills, restricts both tiers
      of each, and lists exactly the queued cases. */
  ghost predicate Says(out: map<string, Chosen>, q: seq<Entry>) { forall key :: SaysFor(out, q, key) }

  ghost predicate SaysFor(out: map<string, Chosen>, q: seq<Entry>, key: string) {
    (key in out <==> SkillsOf(q, key) != {}) && (key in out ==> FilterSays(out[key], q, key))
  }

  lemma EntrySnoc(q: seq<Entry>, e: Entry, key: string)
    ensures SkillsOf(q + [e], key) == SkillsOf(q, key) + if e.key == key then {e.skill} else {}
    ensures forall skill, kind ::
              NamesOf(q + [e], key, skill, kind) ==
              NamesOf(q, key, skill, kind) +
              if e.key == key && e.skill == skill && e.kind == kind then {e.name} else {}
  {
    assert forall x :: x in q + [e] <==> x in q || x == e;
  }

  lemma NoNames(q: seq<Entry>, key: string, skill: string, kind: Kind)
    requires skill !in SkillsOf(q, key)
    ensures NamesOf(q, key, skill, kind) == {}
  {
    assert forall e | e in q && e.key == key :: e.skill in SkillsOf(q, key);
  }

  lemma PinnedSays(tier: map<string, map<string, bool>>, q: seq<Entry>, e: Entry, kind: Kind)
    requires TierSays(tier, q, e.key, kind) && e.kind != kind
    ensures TierSays(Pinned(tier, e.skill), q + [e], e.key, kind)
  {
    EntrySnoc(q, e, e.key);
    if e.skill !in tier {
      NoNames(q, e.key, e.skill, kind);
    }
    hide SkillsOf, NamesOf;
  }

  lemma MarkedSays(tier: map<string, map<string, bool>>, q: seq<Entry>, e: Entry)
    requires TierSays(tier, q, e.key, e.kind)
    ensures TierSays(Marked(tier, e.skill, e.name), q + [e], e.key, e.kind)
  {
    EntrySnoc(q, e, e.key);
    if e.skill !in tier {
      NoNames(q, e.key, e.skill, e.kind);
    }
    hide SkillsOf, NamesOf;
  }

  lemma WithEntrySays(f: Chosen, q: seq<Entry>, e: Entry)
    requires FilterSays(f, q, e.key)
    ensures FilterSays(WithEntry(f, e), q + [e], e.key)
  {
    hide SkillsOf, NamesOf, TierSays, Marked, Pinned;
    EntrySnoc(q, e, e.key);
    if e.kind.Evals? {
      PinnedSays(f.triggers, q, e, Triggers);
      MarkedSays(f.evals, q, e);
    } else {
      MarkedSays(f.triggers, q, e);
      PinnedSays(f.evals, q, e, Evals);
    }
  }

  lemma NotedSays(out: map<string, Chosen>, q: seq<Entry>, ref: UnitRef, c: Case)
    requires Says(out, q) && c.queued
    ensures Says(Noted(out, ref, c), q + [Entry(ref.key, ref.skill, c.kind, c.name)])
  {
    var e := Entry(ref.key, ref.skill, c.kind, c.name);
    var f := if ref.key in out then out[ref.key] else Chosen(map[], map[], map[]);
    assert Noted(out, ref, c) == out[ref.key := WithEntry(f, e)];
    hide SkillsOf, NamesOf, FilterSays, WithEntry, Noted, SaysFor;
    var after, more := out[ref.key := WithEntry(f, e)], q + [e];
    forall key ensures SaysFor(after, more, key) {
      EntrySnoc(q, e, key);
      SaysForWith(out, q, e, key);
    }
  }

  lemma SaysForWith(out: map<string, Chosen>, q: seq<Entry>, e: Entry, key: string)
    requires SaysFor(out, q, key) && SaysFor(out, q, e.key)
    ensures var f := if e.key in out then out[e.key] else Chosen(map[], map[], map[]);
            SaysFor(out[e.key := WithEntry(f, e)], q + [e], key)
  {
    hide SkillsOf, NamesOf, FilterSays, WithEntry;
    EntrySnoc(q, e, key);
    var f := if e.key in out then out[e.key] else Chosen(map[], map[], map[]);
    if key == e.key {
      if e.key !in out {
        EmptySays(q, e.key);
      }
      WithEntrySays(f, q, e);
    } else if key in out {
      OtherKey(out[key], q, e, key);
    }
  }

  lemma EmptySays(q: seq<Entry>, key: string)
    requires SkillsOf(q, key) == {}
    ensures FilterSays(Chosen(map[], map[], map[]), q, key)
  {
    hide SkillsOf, NamesOf;
  }

  lemma OtherKey(f: Chosen, q: seq<Entry>, e: Entry, key: string)
    requires FilterSays(f, q, key) && e.key != key
    ensures FilterSays(f, q + [e], key)
  {
    EntrySnoc(q, e, key);
    hide SkillsOf, NamesOf;
  }

  lemma {:induction false} CasesSay(out: map<string, Chosen>, q: seq<Entry>, ref: UnitRef, cs: seq<Case>)
    requires Says(out, q)
    ensures Says(NotedCases(out, ref, cs), q + CaseEntries(ref, cs))
  {
    hide Says, Noted;
    if cs == [] {
      assert q + [] == q;
    } else {
      var front, c := cs[..|cs| - 1], cs[|cs| - 1];
      CasesSay(out, q, ref, front);
      var more := q + CaseEntries(ref, front);
      if c.queued {
        NotedSays(NotedCases(out, ref, front), more, ref, c);
        var e := Entry(ref.key, ref.skill, c.kind, c.name);
        assert more + [e] == q + (CaseEntries(ref, front) + [e]);
      } else {
        NotQueued(NotedCases(out, ref, front), ref, c);
        assert q + (CaseEntries(ref, front) + []) == more;
      }
    }
  }

  lemma NotQueued(out: map<string, Chosen>, ref: UnitRef, c: Case)
    requires !c.queued
    ensures Noted(out, ref, c) == out
  {
  }

  /** The filters of a plan say exactly what is queued in it. */
  lemma {:induction false} FiltersSayTheQueue(us: seq<Unit>)
    ensures Says(NotedUnits(map[], us), Entries(us))
  {
    hide NotedCases;
    if us == [] {
    } else {
      hide Says;
      FiltersSayTheQueue(us[..|us| - 1]);
      var u := us[|us| - 1];
      CasesSay(NotedUnits(map[], us[..|us| - 1]), Entries(us[..|us| - 1]), u.ref, u.cases);
    }
  }

  // ----- the queue of a built plan -----

  lemma {:induction false} EntriesConcat(a: seq<Unit>, b: seq<Unit>)
    ensures Entries(a + b) == Entries(a) + Entries(b)
  {
    hide CaseEntries;
    if b == [] {
      assert a + b == a;
    } else {
      assert (a + b)[..|a + b| - 1] == a + b[..|b| - 1];
      EntriesConcat(a, b[..|b| - 1]);
    }
  }

  lemma {:induction false} CaseEntriesAre(ref: UnitRef, cs: seq<Case>, x: Entry)
    ensures x in CaseEntries(ref, cs) <==>
              x.key == ref.key && x.skill == ref.skill &&
              exists i :: 0 <= i < |cs| && cs[i].queued && cs[i].kind == x.kind && cs[i].name == x.name
  {
    if cs != [] {
      CaseEntriesAre(ref, cs[..|cs| - 1], x);
    }
  }

  /** The names of a skill's cases of one tier. */
  function NamesIn(sc: SkillCatalog, kind: Kind): seq<string> {
    if kind.Triggers? then Map((t: Trigger) => t.query, sc.triggers) else Map((e: Eval) => e.id, sc.evals)
  }

  predicate AuthoredFor(sc: SkillCatalog, m: Model, x: Entry) {
    Allows(sc, m) && m.key == x.key && sc.skill == x.skill && x.name in NamesIn(sc, x.kind)
  }

  function RefFor(x: Entry): CaseRef { CaseRef(x.skill, x.kind, x.name) }

  lemma UnitEntries(sc: SkillCatalog, m: Model, sel: Selection, x: Entry)
    ensures x in CaseEntries(RefOf(sc, m, Triggers), TriggerUnit(sc, m, sel).cases) <==>
              x.key == m.key && x.skill == sc.skill && x.kind.Triggers? && x.name in NamesIn(sc, Triggers) &&
              Queued(sel, x.key, RefFor(x))
    ensures x in CaseEntries(RefOf(sc, m, Evals), EvalUnit(sc, m, sel).cases) <==>
              x.key == m.key && x.skill == sc.skill && x.kind.Evals? && x.name in NamesIn(sc, Evals) &&
              Queued(sel, x.key, RefFor(x))
  {
    hide Queued;
    CaseEntriesAre(RefOf(sc, m, Triggers), TriggerUnit(sc, m, sel).cases, x);
    CaseEntriesAre(RefOf(sc, m, Evals), EvalUnit(sc, m, sel).cases, x);
    hide CaseEntries;
    var ts, es := TriggerUnit(sc, m, sel).cases, EvalUnit(sc, m, sel).cases;
    if x.name in NamesIn(sc, Triggers) {
      var i :| 0 <= i < |sc.triggers| && NamesIn(sc, Triggers)[i] == x.name;
      assert ts[i].name == x.name;
    }
    if x.name in NamesIn(sc, Evals) {
      var i :| 0 <= i < |sc.evals| && NamesIn(sc, Evals)[i] == x.name;
      assert es[i].name == x.name;
    }
    forall i | 0 <= i < |ts| ensures ts[i].name in NamesIn(sc, Triggers) {
      assert NamesIn(sc, Triggers)[i] == ts[i].name;
    }
    forall i | 0 <= i < |es| ensures es[i].name in NamesIn(sc, Evals) {
      assert NamesIn(sc, Evals)[i] == es[i].name;
    }
  }

  lemma ModelEntries(sc: SkillCatalog, m: Model, sel: Selection, x: Entry)
    ensures x in Entries(UnitsFor(sc, m, sel)) <==> AuthoredFor(sc, m, x) && Queued(sel, x.key, RefFor(x))
  {
    hide Queued, Allows, CaseEntries;
    UnitEntries(sc, m, sel, x);
    EntriesOne(TriggerUnit(sc, m, sel));
    EntriesOne(EvalUnit(sc, m, sel));
    EntriesConcat(if sc.triggers == [] then [] else [TriggerUnit(sc, m, sel)],
                  if sc.evals == [] then [] else [EvalUnit(sc, m, sel)]);
  }

  lemma EntriesOne(u: Unit)
    ensures Entries([u]) == CaseEntries(u.ref, u.cases) && Entries([]) == []
  {
    assert [u][..0] == [];
    assert [] + CaseEntries(u.ref, u.cases) == CaseEntries(u.ref, u.cases);
  }

  ghost predicate AuthoredBySome(sc: SkillCatalog, models: seq<Model>, x: Entry) {
    exists m :: m in models && AuthoredFor(sc, m, x)
  }

  lemma {:induction false} SkillEntries(sc: SkillCatalog, models: seq<Model>, sel: Selection, x: Entry)
    ensures x in Entries(UnitsOfSkill(sc, models, sel)) <==>
              AuthoredBySome(sc, models, x) && Queued(sel, x.key, RefFor(x))
  {
    hide Queued, AuthoredFor, UnitsFor, Entries;
    if models == [] {
      NoEntries();
    } else {
      var front, m := models[..|models| - 1], models[|models| - 1];
      assert forall y :: y in models <==> y in front || y == m by {
        assert models == front + [m];
      }
      SkillEntries(sc, front, sel, x);
      ModelEntries(sc, m, sel, x);
      EntriesConcat(UnitsOfSkill(sc, front, sel), UnitsFor(sc, m, sel));
    }
  }

  lemma NoEntries()
    ensures Entries([]) == []
  {
  }

  ghost predicate Authored(cat: seq<SkillCatalog>, models: seq<Model>, x: Entry) {
    exists sc :: sc in cat && AuthoredBySome(sc, models, x)
  }

  /** A case is queued in the plan when some allowed skill authors it for the key and the selection queues it. */
  lemma {:induction false} PlanEntries(cat: seq<SkillCatalog>, models: seq<Model>, sel: Selection, x: Entry)
    ensures x in Entries(UnitsOfCatalog(cat, models, sel)) <==>
              Authored(cat, models, x) && Queued(sel, x.key, RefFor(x))
  {
    hide Queued, AuthoredBySome, UnitsOfSkill, Entries;
    if cat == [] {
      NoEntries();
    } else {
      var front, sc := cat[..|cat| - 1], cat[|cat| - 1];
      assert forall y :: y in cat <==> y in front || y == sc by {
        assert cat == front + [sc];
      }
      PlanEntries(front, models, sel, x);
      SkillEntries(sc, models, sel, x);
      EntriesConcat(UnitsOfCatalog(front, models, sel), UnitsOfSkill(sc, models, sel));
    }
  }
}
