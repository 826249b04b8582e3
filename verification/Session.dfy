/** The selection form's state, its preview of what is queued, and the plan it submits.

    Model of internal/plan/session.go. */
module Sessions {
  import opened Prelude
  import opened Catalogs
  import opened Planner
  import opened Sweeps
  import opened CaseReasoning
  import opened PlannedRuns

  datatype Toggles = Toggles(onlyNew: bool, modified: bool, failed: bool)

  /** A configured harness; `models` is its offered-models probe, None when unknown. */
  datatype HarnessState = HarnessState(id: string, available: bool, models: Option<seq<string>>)

  datatype NodeState = ForceOff | ForceOn | AutoAll | AutoPartial | AutoNone

  /** The preference order among a model's harnesses. */
  const HARNESS_ORDER := ["claude", "codex", "gemini", "cursor", "copilot", "antigravity", "grok"]

  function FirstSupported(m: Model, eligible: set<string>, ids: seq<string>): Option<string> {
    if ids == [] then None
    else if ids[0] in eligible && ids[0] in m.supported then Some(ids[0])
    else FirstSupported(m, eligible, ids[1..])
  }

  /** The harness that would run the model: its preferred one when eligible, else the first in order. */
  function RunnableHarness(m: Model, eligible: set<string>): Option<string> {
    if m.preferred in eligible && m.preferred in m.supported then Some(m.preferred)
    else FirstSupported(m, eligible, HARNESS_ORDER)
  }

  predicate Any(t: Toggles) { t.onlyNew || t.modified || t.failed }

  predicate Matches(t: Toggles, r: CaseReason) {
    (t.onlyNew && r.isNew) || (t.modified && r.modified) || (t.failed && r.failing)
  }

  /** What the toggles queue: every case with a reason when none is set, else those an enabled toggle matches. */
  predicate Baseline(reasons: Reasons, t: Toggles, key: string, cr: CaseRef) {
    key in reasons && cr in reasons[key] && (!Any(t) || Matches(t, reasons[key][cr]))
  }

  /** The preview's rule for one pair with a reason. */
  predicate Counted(reasons: Reasons, t: Toggles, cases: map<CaseRef, State>, key: string, cr: CaseRef) {
    match StateAt(cases, cr)
    case On => true
    case Off => false
    case Partial => Baseline(reasons, t, key, cr)
  }

  predicate HasReason(reasons: Reasons, key: string, cr: CaseRef) { key in reasons && cr in reasons[key] }

  /** The pairs the preview counts over: the cases of a node with the enabled models they have a reason for. */
  function PairsFor(reasons: Reasons, cr: CaseRef, keys: seq<string>): seq<(string, CaseRef)> {
    if keys == [] then []
    else
      var key := keys[|keys| - 1];
      PairsFor(reasons, cr, keys[..|keys| - 1]) + if HasReason(reasons, key, cr) then [(key, cr)] else []
  }

  function Pairs(reasons: Reasons, refs: seq<CaseRef>, keys: seq<string>): seq<(string, CaseRef)> {
    if refs == [] then []
    else Pairs(reasons, refs[..|refs| - 1], keys) + PairsFor(reasons, refs[|refs| - 1], keys)
  }

  function KeysOf(models: seq<Model>): seq<string> { Map((m: Model) => m.key, models) }

  /** The needs of each enabled model: the baseline over the cases with a reason. */
  function NeedsOf(reasons: Reasons, t: Toggles, keys: seq<string>): map<string, map<CaseRef, bool>> {
    map key | key in keys :: NeedOf(reasons, t, key)
  }

  function NeedOf(reasons: Reasons, t: Toggles, key: string): map<CaseRef, bool> {
    if key in reasons then map cr | cr in reasons[key] :: Baseline(reasons, t, key, cr) else map[]
  }

  lemma OneMoreNeed(reasons: Reasons, t: Toggles, enabled: seq<Model>, i: nat)
    requires i < |enabled|
    ensures NeedsOf(reasons, t, KeysOf(enabled[..i + 1])) ==
            NeedsOf(reasons, t, KeysOf(enabled[..i]))[enabled[i].key := NeedOf(reasons, t, enabled[i].key)]
  {
    hide NeedOf;
    assert KeysOf(enabled[..i + 1]) == KeysOf(enabled[..i]) + [enabled[i].key];
  }

  function SelectionFor(reasons: Reasons, t: Toggles, cases: map<CaseRef, State>, keys: seq<string>): Selection {
    Selection(map[], cases, NeedsOf(reasons, t, keys))
  }

  // ----- the preview and the plan -----

  /** The plan queues a pair exactly when the preview counts it, if it has a reason; a pair without one is queued
      exactly when its case is forced on, though the preview does not count it. */
  lemma PreviewRule(reasons: Reasons, t: Toggles, cases: map<CaseRef, State>, keys: seq<string>, key: string,
                    cr: CaseRef)
    requires key in keys
    ensures Queued(SelectionFor(reasons, t, cases, keys), key, cr) <==>
              if HasReason(reasons, key, cr) then Counted(reasons, t, cases, key, cr) else StateAt(cases, cr) == On
  {
    hide Any, Matches;
  }

  /** Every pair with a reason is one the catalog authors for that model. */
  ghost predicate ReasonsAuthored(reasons: Reasons, cat: seq<SkillCatalog>, models: seq<Model>) {
    forall key, cr | HasReason(reasons, key, cr) :: Authored(cat, models, EntryOf(key, cr))
  }

  lemma ComputedReasonsAuthored(reasons: Reasons, cat: seq<SkillCatalog>, sels: seq<Model>, scope: Scope)
    requires Domain(reasons) == CatalogDomain(cat, sels, scope)
    ensures ReasonsAuthored(reasons, cat, sels)
  {
    hide CatalogDomain, AuthoredBySome;
    forall key, cr | HasReason(reasons, key, cr) ensures Authored(cat, sels, EntryOf(key, cr)) {
      assert (key, cr) in Domain(reasons);
      DomainIs(cat, sels, scope, (key, cr));
      var sc :| sc in cat && AuthoredInScope(sc, sels, scope, (key, cr));
      assert AuthoredBySome(sc, sels, EntryOf(key, cr));
    }
  }

  /** For an enabled model, a case with a reason is marked queued in the plan exactly when the preview counts it. */
  lemma PreviewIsThePlan(cat: seq<SkillCatalog>, models: seq<Model>, enabled: seq<Model>, reasons: Reasons,
                         t: Toggles, cases: map<CaseRef, State>, m: Model, cr: CaseRef)
    requires UniqueKeys(models) && (forall x | x in enabled :: x in models) && m in enabled
    requires ReasonsAuthored(reasons, cat, models) && HasReason(reasons, m.key, cr)
    ensures var sel := SelectionFor(reasons, t, cases, KeysOf(enabled));
            EntryOf(m.key, cr) in Entries(UnitsOfCatalog(cat, enabled, sel)) <==> Counted(reasons, t, cases, m.key, cr)
  {
    hide Queued, Counted, HasReason, UnitsOfCatalog, Entries, AuthoredFor;
    var sel, x := SelectionFor(reasons, t, cases, KeysOf(enabled)), EntryOf(m.key, cr);
    var i :| 0 <= i < |enabled| && enabled[i] == m;
    assert KeysOf(enabled)[i] == m.key;
    PreviewRule(reasons, t, cases, KeysOf(enabled), m.key, cr);
    PlanEntries(cat, enabled, sel, x);
    var sc :| sc in cat && AuthoredBySome(sc, models, x);
    var w :| w in models && AuthoredFor(sc, w, x);
    assert w.key == m.key by { SameKey(sc, w, x); }
    assert AuthoredBySome(sc, enabled, x);
  }

  lemma SameKey(sc: SkillCatalog, m: Model, x: Entry)
    requires AuthoredFor(sc, m, x)
    ensures m.key == x.key
  {
  }

  // ----- counting -----

  lemma PairsKnown(reasons: Reasons, refs: seq<CaseRef>, keys: seq<string>, p: (string, CaseRef))
    ensures p in Pairs(reasons, refs, keys) <==> p.1 in refs && p.0 in keys && HasReason(reasons, p.0, p.1)
  {
    if refs != [] {
      var front, cr := refs[..|refs| - 1], refs[|refs| - 1];
      assert refs == front + [cr];
      PairsKnown(reasons, front, keys, p);
      PairsForKnown(reasons, cr, keys, p);
    }
  }

  lemma PairsForKnown(reasons: Reasons, cr: CaseRef, keys: seq<string>, p: (string, CaseRef))
    ensures p in PairsFor(reasons, cr, keys) <==> p.1 == cr && p.0 in keys && HasReason(reasons, p.0, p.1)
  {
    if keys != [] {
      var front, key := keys[..|keys| - 1], keys[|keys| - 1];
      assert keys == front + [key];
      PairsForKnown(reasons, cr, front, p);
    }
  }

  lemma {:induction false} CountAll<T>(keep: T -> bool, s: seq<T>)
    ensures |Filter(keep, s)| <= |s|
    ensures |Filter(keep, s)| == |s| <==> forall x | x in s :: keep(x)
    ensures |Filter(keep, s)| == 0 <==> forall x | x in s :: !keep(x)
  {
    if s != [] {
      CountAll(keep, s[1..]);
      assert forall x :: x in s <==> x == s[0] || x in s[1..];
    }
  }

  // ----- the form's state -----

  /** How many of these pairs the preview counts as queued. */
  function CountOf(reasons: Reasons, t: Toggles, cases: map<CaseRef, State>, ps: seq<(string, CaseRef)>): nat {
    |Filter((p: (string, CaseRef)) => Counted(reasons, t, cases, p.0, p.1), ps)|
  }

  lemma CountConcat(reasons: Reasons, t: Toggles, cases: map<CaseRef, State>, a: seq<(string, CaseRef)>,
                    b: seq<(string, CaseRef)>)
    ensures CountOf(reasons, t, cases, a + b) == CountOf(reasons, t, cases, a) + CountOf(reasons, t, cases, b)
  {
    FilterConcat((p: (string, CaseRef)) => Counted(reasons, t, cases, p.0, p.1), a, b);
  }

  lemma CountOne(reasons: Reasons, t: Toggles, cases: map<CaseRef, State>, key: string, cr: CaseRef)
    ensures CountOf(reasons, t, cases, [(key, cr)]) == if Counted(reasons, t, cases, key, cr) then 1 else 0
    ensures CountOf(reasons, t, cases, []) == 0
  {
    hide Counted;
    var counted := (p: (string, CaseRef)) => Counted(reasons, t, cases, p.0, p.1);
    if Counted(reasons, t, cases, key, cr) {
      FilterAll(counted, [(key, cr)]);
    } else {
      FilterNone(counted, [(key, cr)]);
    }
  }

  lemma CountMeans(reasons: Reasons, t: Toggles, cases: map<CaseRef, State>, ps: seq<(string, CaseRef)>)
    ensures CountOf(reasons, t, cases, ps) == |ps| <==> forall p | p in ps :: Counted(reasons, t, cases, p.0, p.1)
    ensures CountOf(reasons, t, cases, ps) == 0 <==> forall p | p in ps :: !Counted(reasons, t, cases, p.0, p.1)
  {
    hide Counted;
    CountAll((p: (string, CaseRef)) => Counted(reasons, t, cases, p.0, p.1), ps);
  }

  /** The pairs of one more model, and of one more case. */
  lemma OneMoreKey(reasons: Reasons, cr: CaseRef, enabled: seq<Model>, i: nat)
    requires i < |enabled|
    ensures PairsFor(reasons, cr, KeysOf(enabled[..i + 1])) ==
            PairsFor(reasons, cr, KeysOf(enabled[..i])) +
            if HasReason(reasons, enabled[i].key, cr) then [(enabled[i].key, cr)] else []
  {
    assert KeysOf(enabled[..i + 1])[..i] == KeysOf(enabled[..i]);
  }

  lemma OneMoreRef(reasons: Reasons, refs: seq<CaseRef>, keys: seq<string>, i: nat)
    requires i < |refs|
    ensures Pairs(reasons, refs[..i + 1], keys) == Pairs(reasons, refs[..i], keys) + PairsFor(reasons, refs[i], keys)
  {
    hide PairsFor;
    assert refs[..i + 1][..i] == refs[..i];
  }

  /** Whether a probed list of models offers this one through a harness: any predicate. */
  type Offers = (Model, string, seq<string>) -> bool

  /** The first harness of that id offers the model, or does not say. */
  predicate OfferedBy(hs: seq<HarnessState>, id: string, m: Model, offers: Offers) {
    if hs == [] then true
    else if hs[0].id == id then hs[0].models.None? || offers(m, id, hs[0].models.value)
    else OfferedBy(hs[1..], id, m, offers)
  }

  /** The state of a node: forced when all its cases are forced alike, else how much of it the counts queue. */
  function StateOf(refs: seq<CaseRef>, cases: map<CaseRef, State>, queued: nat, total: nat): NodeState {
    if refs == [] then AutoNone
    else if AllAre(refs, cases, On) then ForceOn
    else if AllAre(refs, cases, Off) then ForceOff
    else if total == 0 || queued == 0 then AutoNone
    else if queued == total then AutoAll
    else AutoPartial
  }

  predicate AllQueued(q: seq<Entry>, ps: seq<(string, CaseRef)>) { forall p | p in ps :: EntryOf(p.0, p.1) in q }
  predicate NoneQueued(q: seq<Entry>, ps: seq<(string, CaseRef)>) { forall p | p in ps :: EntryOf(p.0, p.1) !in q }

  predicate AllAre(refs: seq<CaseRef>, cases: map<CaseRef, State>, st: State) {
    forall cr | cr in refs :: StateAt(cases, cr) == st
  }

  class Session {
    const cat: seq<SkillCatalog>
    const models: seq<Model>
    const harnesses: seq<HarnessState>
    const reasons: Reasons
    const offers: Offers
    var toggles: Toggles
    var harnessOn: map<string, bool>
    var modelOn: map<string, bool>
    var cases: map<CaseRef, State>

    /** A case is in the map only when it is forced. */
    ghost predicate Valid()
      reads this
    {
      forall cr | cr in cases :: cases[cr] != Partial
    }

    function Eligible(): set<string>
      reads `harnessOn
    {
      set h | h in harnesses && h.available && Truth(harnessOn, h.id) :: h.id
    }

    /** The models a run spans: enabled, with an eligible harness, in display order. */
    function Enabled(): seq<Model>
      reads `harnessOn, `modelOn
    {
      var on, eligible := modelOn, Eligible();
      Filter((m: Model) => Truth(on, m.key) && RunnableHarness(m, eligible).Some?, models)
    }

    /** The plan's selection in the current state. */
    function Chosen(): Selection
      reads this
    {
      SelectionFor(reasons, toggles, cases, KeysOf(Enabled()))
    }

    /** Unknown offers count as offered. */
    predicate Offered(m: Model)
      reads `harnessOn
    {
      var id := RunnableHarness(m, Eligible());
      id.None? || OfferedBy(harnesses, id.value, m, offers)
    }

    /** Harnesses and models start as asked, cases automatic; a model its harness does not offer starts off. */
    constructor (cat: seq<SkillCatalog>, models: seq<Model>, harnesses: seq<HarnessState>, reasons: Reasons,
                 offers: Offers, toggles: Toggles, harnessIds: seq<string>, modelKeys: seq<string>)
      ensures Valid() && this.cat == cat && this.models == models && this.harnesses == harnesses
      ensures this.reasons == reasons && this.offers == offers && this.toggles == toggles && cases == map[]
      ensures forall id :: Truth(harnessOn, id) <==> id in harnessIds
      ensures forall key ::
                Truth(modelOn, key) <==> key in modelKeys && KeyOffered(models, key)
    {
      this.cat, this.models, this.harnesses, this.reasons, this.offers := cat, models, harnesses, reasons, offers;
      this.toggles, cases := toggles, map[];
      harnessOn := Seeded(Map((h: HarnessState) => h.id, harnesses), harnessIds);
      modelOn := Seeded(KeysOf(models), modelKeys);
      new;
      DropUnoffered();
    }

    /** Every model of this key is offered. */
    predicate KeyOffered(ms: seq<Model>, key: string)
      reads `harnessOn
    {
      forall m | m in ms && m.key == key :: Offered(m)
    }

    method DropUnoffered()
      modifies `modelOn
      ensures forall key :: Truth(modelOn, key) <==> Truth(old(modelOn), key) && KeyOffered(models, key)
    {
      hide RunnableHarness, Offered;
      var i := 0;
      while i < |models|
        invariant 0 <= i <= |models|
        invariant forall key :: Truth(modelOn, key) <==> Truth(old(modelOn), key) && KeyOffered(models[..i], key)
      {
        var m := models[i];
        assert forall x :: x in models[..i + 1] <==> x in models[..i] || x == m;
        var offered := IsOffered(m);
        if Truth(modelOn, m.key) && !offered {
          modelOn := modelOn[m.key := false];
        }
        i := i + 1;
      }
      assert models[..i] == models;
    }

    /** Off for everything displayed, on for everything asked for. */
    static function Seeded(shown: seq<string>, asked: seq<string>): (r: map<string, bool>)
      ensures forall k :: Truth(r, k) <==> k in asked
    {
      var keys := (set k | k in shown) + (set k | k in asked);
      map k | k in keys :: k in asked
    }

    method SetToggles(t: Toggles)
      modifies `toggles
      ensures toggles == t
    {
      toggles := t;
    }

    method EnableHarness(id: string, on: bool)
      modifies `harnessOn
      ensures harnessOn == old(harnessOn)[id := on]
    {
      harnessOn := harnessOn[id := on];
    }

    method EnableModel(key: string, on: bool)
      modifies `modelOn
      ensures modelOn == old(modelOn)[key := on]
    {
      modelOn := modelOn[key := on];
    }

    /** Forces every given case on or off, or returns it to automatic. */
    method SetCases(refs: seq<CaseRef>, st: State)
      requires Valid()
      modifies `cases
      ensures Valid() && forall cr :: StateAt(cases, cr) == if cr in refs then st else StateAt(old(cases), cr)
    {
      var i := 0;
      while i < |refs|
        invariant 0 <= i <= |refs| && Valid()
        invariant forall cr :: StateAt(cases, cr) == if cr in refs[..i] then st else StateAt(old(cases), cr)
      {
        cases := if st == Partial then cases - {refs[i]} else cases[refs[i] := st];
        assert refs[..i + 1] == refs[..i] + [refs[i]];
        i := i + 1;
      }
      assert refs[..i] == refs;
    }

    method IsOffered(m: Model) returns (ok: bool)
      ensures ok == Offered(m)
    {
      var id := RunnableHarness(m, Eligible());
      if id.None? {
        return true;
      }
      var i := 0;
      while i < |harnesses|
        invariant 0 <= i <= |harnesses|
        invariant OfferedBy(harnesses, id.value, m, offers) == OfferedBy(harnesses[i..], id.value, m, offers)
      {
        var h := harnesses[i];
        if h.id == id.value {
          return h.models.None? || offers(m, h.id, h.models.value);
        }
        i := i + 1;
      }
      ok := true;
    }

    /** Each enabled model with an eligible harness, in display order. */
    method EnabledModels() returns (out: seq<Model>)
      ensures out == Enabled()
    {
      var eligible := Eligible();
      ghost var on := modelOn;
      ghost var keep := (m: Model) => Truth(on, m.key) && RunnableHarness(m, eligible).Some?;
      out := [];
      hide RunnableHarness;
      var i := 0;
      while i < |models|
        invariant 0 <= i <= |models| && out == Filter(keep, models[..i])
      {
        TakeOneMore([], models, i);
        FilterConcat(keep, models[..i], [models[i]]);
        if Truth(modelOn, models[i].key) && RunnableHarness(models[i], eligible).Some? {
          out := out + [models[i]];
        }
        i := i + 1;
      }
      assert models[..i] == models;
    }

    /** How many of a node's pairs the preview counts as queued, and how many there are. */
    method QueuedCounts(refs: seq<CaseRef>) returns (queued: nat, total: nat)
      ensures var ps := Pairs(reasons, refs, KeysOf(Enabled()));
              total == |ps| && queued == CountOf(reasons, toggles, cases, ps)
    {
      hide Enabled, CountOf, Pairs, PairsFor;
      var enabled := EnabledModels();
      NothingCounted(enabled);
      queued, total := 0, 0;
      var i := 0;
      while i < |refs|
        invariant 0 <= i <= |refs|
        invariant total == |Pairs(reasons, refs[..i], KeysOf(enabled))|
        invariant queued == CountOf(reasons, toggles, cases, Pairs(reasons, refs[..i], KeysOf(enabled)))
      {
        var q, n := CountsFor(refs[i], enabled);
        OneMoreRef(reasons, refs, KeysOf(enabled), i);
        CountConcat(reasons, toggles, cases, Pairs(reasons, refs[..i], KeysOf(enabled)),
                    PairsFor(reasons, refs[i], KeysOf(enabled)));
        queued, total := queued + q, total + n;
        i := i + 1;
      }
      assert refs[..i] == refs;
    }

    lemma NothingCounted(enabled: seq<Model>)
      ensures Pairs(reasons, [], KeysOf(enabled)) == [] && CountOf(reasons, toggles, cases, []) == 0
      ensures forall cr :: PairsFor(reasons, cr, KeysOf([])) == []
    {
    }

    /** The inner loop of QueuedCounts: one case over the enabled models. */
    method CountsFor(cr: CaseRef, enabled: seq<Model>) returns (queued: nat, total: nat)
      ensures var ps := PairsFor(reasons, cr, KeysOf(enabled));
              total == |ps| && queued == CountOf(reasons, toggles, cases, ps)
    {
      hide CountOf, PairsFor, HasReason;
      NothingCounted(enabled);
      queued, total := 0, 0;
      var i := 0;
      while i < |enabled|
        invariant 0 <= i <= |enabled|
        invariant total == |PairsFor(reasons, cr, KeysOf(enabled[..i]))|
        invariant queued == CountOf(reasons, toggles, cases, PairsFor(reasons, cr, KeysOf(enabled[..i])))
      {
        var key := enabled[i].key;
        OneMoreKey(reasons, cr, enabled, i);
        CountConcat(reasons, toggles, cases, PairsFor(reasons, cr, KeysOf(enabled[..i])), [(key, cr)]);
        CountOne(reasons, toggles, cases, key, cr);
        if HasReason(reasons, key, cr) {
          total := total + 1;
          match StateAt(cases, cr) {
            case On => queued := queued + 1;
            case Off =>
            case Partial =>
              if Baseline(reasons, toggles, key, cr) {
                queued := queued + 1;
              }
          }
        } else {
          assert PairsFor(reasons, cr, KeysOf(enabled[..i])) + [] == PairsFor(reasons, cr, KeysOf(enabled[..i]));
        }
        i := i + 1;
      }
      assert enabled[..i] == enabled;
    }

    /** The selection state of a node, over the enabled models. */
    method NodeSel(refs: seq<CaseRef>) returns (st: NodeState)
      requires Valid()
      ensures var ps := Pairs(reasons, refs, KeysOf(Enabled()));
              st == StateOf(refs, cases, CountOf(reasons, toggles, cases, ps), |ps|)
    {
      if |refs| == 0 {
        return AutoNone;
      }
      hide Enabled, CountOf, Pairs;
      var allOn, allOff := true, true;
      var i := 0;
      while i < |refs|
        invariant 0 <= i <= |refs|
        invariant allOn <==> AllAre(refs[..i], cases, On)
        invariant allOff <==> AllAre(refs[..i], cases, Off)
      {
        assert forall x :: x in refs[..i + 1] <==> x in refs[..i] || x == refs[i];
        match StateAt(cases, refs[i]) {
          case On => allOff := false;
          case Off => allOn := false;
          case Partial => allOn, allOff := false, false;
        }
        i := i + 1;
      }
      assert refs[..i] == refs;
      if allOn {
        return ForceOn;
      }
      if allOff {
        return ForceOff;
      }
      var queued, total := QueuedCounts(refs);
      st := if total == 0 || queued == 0 then AutoNone else if queued == total then AutoAll else AutoPartial;
    }

    /** The selection of the current state. */
    method CurrentSelection() returns (sel: Selection)
      ensures sel == Chosen()
    {
      hide RunnableHarness, Baseline;
      var enabled := EnabledModels();
      var needs: map<string, map<CaseRef, bool>> := map[];
      var i := 0;
      while i < |enabled|
        invariant 0 <= i <= |enabled|
        invariant needs == NeedsOf(reasons, toggles, KeysOf(enabled[..i]))
      {
        var key := enabled[i].key;
        var need := NeedFor(key);
        OneMoreNeed(reasons, toggles, enabled, i);
        needs := needs[key := need];
        i := i + 1;
      }
      assert enabled[..i] == enabled;
      sel := Selection(map[], cases, needs);
    }

    /** The needs of one model, over the cases with a reason, in any order. */
    method NeedFor(key: string) returns (need: map<CaseRef, bool>)
      ensures need == NeedOf(reasons, toggles, key)
    {
      hide Baseline;
      need := map[];
      if key !in reasons {
        return;
      }
      var todo := reasons[key].Keys;
      while todo != {}
        invariant todo <= reasons[key].Keys && need.Keys == reasons[key].Keys - todo
        invariant forall cr | cr in need :: need[cr] == Baseline(reasons, toggles, key, cr)
        decreases |todo|
      {
        var cr :| cr in todo;
        need := need[cr := Baseline(reasons, toggles, key, cr)];
        todo := todo - {cr};
      }
    }

    /** The plan the engine runs. */
    method CurrentPlan() returns (p: Plan)
      ensures PlanUnits(p) == UnitsOfCatalog(cat, Enabled(), Chosen()) && Tidy(p)
    {
      hide RunnableHarness, Enabled, Chosen;
      var enabled := EnabledModels();
      var sel := CurrentSelection();
      p := Build(cat, enabled, sel);
    }

    lemma EnabledAreModels()
      ensures forall m | m in Enabled() :: m in models
    {
      var on, eligible := modelOn, Eligible();
      var keep := (m: Model) => Truth(on, m.key) && RunnableHarness(m, eligible).Some?;
      forall m | m in Enabled() ensures m in models {
        FilterMember(keep, models, m);
      }
    }

    /** What the form shows for a node is what the plan will run: a pair is a case of the node with an enabled model
        it has a reason for, and it is queued when the submitted plan marks it so. */
    lemma NodeShowsThePlan(refs: seq<CaseRef>)
      requires UniqueKeys(models) && ReasonsAuthored(reasons, cat, models)
      ensures var keys := KeysOf(Enabled());
              var ps := Pairs(reasons, refs, keys);
              var q := Entries(UnitsOfCatalog(cat, Enabled(), Chosen()));
              var st := StateOf(refs, cases, CountOf(reasons, toggles, cases, ps), |ps|);
              && (st == ForceOn <==> refs != [] && AllAre(refs, cases, On))
              && (st == ForceOff <==> refs != [] && AllAre(refs, cases, Off))
              && (st == AutoAll ==> |ps| > 0 && AllQueued(q, ps))
              && (st == AutoNone ==> NoneQueued(q, ps))
              && (st == AutoPartial ==> !AllQueued(q, ps) && !NoneQueued(q, ps))
    {
      var enabled := Enabled();
      var ps := Pairs(reasons, refs, KeysOf(enabled));
      var q := Entries(UnitsOfCatalog(cat, enabled, Chosen()));
      assert refs == [] ==> ps == [];
      hide Enabled, UnitsOfCatalog, Entries, Pairs, Counted, CountOf;
      forall p | p in ps ensures EntryOf(p.0, p.1) in q <==> Counted(reasons, toggles, cases, p.0, p.1) {
        PairQueuedIffCounted(refs, p);
      }
      CountMeans(reasons, toggles, cases, ps);
      var n := CountOf(reasons, toggles, cases, ps);
      assert n == |ps| <==> AllQueued(q, ps);
      assert n == 0 <==> NoneQueued(q, ps);
      hide AllQueued, NoneQueued, AllAre;
      if refs != [] {
        NotBoth(refs, cases);
      }
    }

    lemma NotBoth(refs: seq<CaseRef>, cs: map<CaseRef, State>)
      requires refs != []
      ensures !(AllAre(refs, cs, On) && AllAre(refs, cs, Off))
    {
      assert refs[0] in refs;
    }

    lemma PairQueuedIffCounted(refs: seq<CaseRef>, p: (string, CaseRef))
      requires UniqueKeys(models) && ReasonsAuthored(reasons, cat, models)
      requires p in Pairs(reasons, refs, KeysOf(Enabled()))
      ensures EntryOf(p.0, p.1) in Entries(UnitsOfCatalog(cat, Enabled(), Chosen())) <==>
                Counted(reasons, toggles, cases, p.0, p.1)
    {
      EnabledAreModels();
      var enabled := Enabled();
      hide Enabled, UnitsOfCatalog, Entries, Counted;
      PairsKnown(reasons, refs, KeysOf(enabled), p);
      var i :| 0 <= i < |enabled| && KeysOf(enabled)[i] == p.0;
      PreviewIsThePlan(cat, models, enabled, reasons, toggles, cases, enabled[i], p.1);
    }
  }
}
