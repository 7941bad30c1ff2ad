/** Policy resolution (`resolve_rules`): which rules of the ledger apply to a context, in
    which order, and why the others do not. */
module Policy {
  import opened Basics
  import opened Identifiers
  import opened Sorting

  datatype RuleState = Active | Superseded | Expired | Revoked | Quarantined

  datatype Effect = AllowPmProxy | RequireOwner | Deny | Constraint | Annotate

  datatype Rule = Rule(
    id: string,
    revision: nat,
    state: RuleState,
    scope: map<string, string>,
    tier: int,
    priority: int,
    effect: Effect,
    gate: Option<string>,
    effectiveAt: int,
    expiresAt: Option<int>,
    supersedes: set<string>,
    group: Option<string>)

  type Context = map<string, string>

  datatype Exclusion = Exclusion(id: string, reason: string)

  datatype Resolution = PolicyConflict | Resolved(included: seq<Rule>, excluded: seq<Exclusion>)

  // ---------- what a ledger may hold ----------

  predicate Selector(key: string) {
    key in {"owner", "org", "repo", "path", "environment", "data_class", "action", "task_kind"}
  }

  predicate GateCode(gate: string) {
    gate in {
      "ACCOUNT_ACCESS", "AUTH_CHALLENGE", "BILLING_CHANGE_OR_SPEND", "DESTRUCTIVE_UNIQUE_DATA",
      "EXTERNAL_COMMUNICATION", "FORCE_HISTORY", "HARDWARE_MUTATION", "MATERIAL_SCOPE_CHANGE",
      "PRIVACY_CLINICAL_LEGAL_GOVERNED", "PRODUCTION_CHANGE", "PRODUCTION_DATA_MIGRATION", "PRODUCTION_DEPLOY",
      "PRODUCTION_RELEASE", "PROTECTION_BYPASS", "ANY_ENUMERATED"}
  }

  predicate ScopeValid(scope: map<string, string>) {
    scope != map[] && forall k | k in scope :: Selector(k) && 1 <= |scope[k]| <= 1000
  }

  /** `validate_rule`. */
  predicate RuleValid(rule: Rule) {
    && RuleName(rule.id) && 1 <= rule.revision <= 1_000_000 && ScopeValid(rule.scope)
    && 1 <= rule.tier <= 6 && 0 <= rule.priority <= 1000
    && (if rule.gate.Some? then GateCode(rule.gate.value) else rule.effect != RequireOwner)
    && (forall id | id in rule.supersedes :: RuleName(id))
    && (rule.group.Some? ==> Identifier(rule.group.value))
  }

  /** `validate_policy`: what a store may be initialized with. */
  predicate LedgerValid(rules: seq<Rule>, version: nat) {
    && rules != [] && 1 <= version <= 1_000_000
    && (forall r | r in rules :: RuleValid(r))
    && forall i, j | 0 <= i < j < |rules| :: (rules[i].id, rules[i].revision) != (rules[j].id, rules[j].revision)
  }

  /** One rule, which annotates every launch. */
  function SmallLedger(): seq<Rule> {
    [Rule("RULE-1", 1, Active, map["action" := "task-launch"], 6, 0, Annotate, None, 0, None, {}, None)]
  }

  lemma SmallLedgerIsValid()
    ensures LedgerValid(SmallLedger(), 1) && |SmallLedger()| == 1 && SmallLedger()[0].group.None?
  {
    var rule := SmallLedger()[0];
    assert RuleName(rule.id) by {
      assert rule.id[4] == '-';
    }
    assert rule.scope.Keys == {"action"};
  }

  /** `validate_context`, for launching a task. */
  ghost predicate ContextValid(context: Context) {
    && (forall k | Selector(k) :: k in context) && (forall k | k in context :: Selector(k) && 1 <= |context[k]| <= 1000)
    && context["action"] == "task-launch"
  }

  // ---------- matching ----------

  function RStrip(s: string, c: char): string {
    if s != "" && s[|s| - 1] == c then RStrip(s[..|s| - 1], c) else s
  }

  // A path selector that ends in slash-star-star covers its prefix and everything below it.
  predicate SelectorMatch(selector: string, actual: string, key: string) {
    if selector == "*" then true
    else if key == "path" && |selector| >= 3 && selector[|selector| - 3..] == "/**" then
      var stem := RStrip(selector[..|selector| - 3], '/');
      var prefix := if stem == "" then "/" else stem;
      actual == prefix || RStrip(prefix, '/') + "/" <= actual
    else
      selector == actual
  }

  /** Scope keys and context keys come from one closed list, so no lookup misses. */
  predicate InScope(rule: Rule, context: Context) {
    forall k | k in rule.scope :: k in context && SelectorMatch(rule.scope[k], context[k], k)
  }

  function StateReason(state: RuleState): string {
    match state
    case Active => "STATE_ACTIVE"
    case Superseded => "STATE_SUPERSEDED"
    case Expired => "STATE_EXPIRED"
    case Revoked => "STATE_REVOKED"
    case Quarantined => "STATE_QUARANTINED"
  }

  function Inapplicable(rule: Rule, context: Context, now: int): Option<string> {
    if rule.state != Active then Some(StateReason(rule.state))
    else if rule.effectiveAt > now then Some("NOT_YET_EFFECTIVE")
    else if rule.expiresAt.Some? && rule.expiresAt.value <= now then Some("EXPIRED")
    else if !InScope(rule, context) then Some("SCOPE_MISMATCH")
    else None
  }

  predicate Candidate(rule: Rule, context: Context, now: int) {
    Inapplicable(rule, context, now).None?
  }

  // ---------- precedence ----------

  function Specificity(rule: Rule): nat {
    |set k | k in rule.scope && rule.scope[k] != "*"|
  }

  predicate ById(x: Rule, y: Rule) { IdLeq(x.id, y.id) }
  predicate ByEffective(x: Rule, y: Rule) { x.effectiveAt >= y.effectiveAt }
  predicate ByPriority(x: Rule, y: Rule) { x.priority >= y.priority }
  predicate BySpecificity(x: Rule, y: Rule) { Specificity(x) >= Specificity(y) }
  predicate ByTier(x: Rule, y: Rule) { x.tier <= y.tier }

  /** The five successive stable sorts. */
  function FivePasses(rules: seq<Rule>): seq<Rule> {
    Sort(Sort(Sort(Sort(Sort(rules, ById), ByEffective), ByPriority), BySpecificity), ByTier)
  }

  /** The rank a conflict group compares. */
  function Rank(rule: Rule): (int, nat, int, int) {
    (rule.tier, Specificity(rule), rule.priority, rule.effectiveAt)
  }

  predicate LaterThenId(x: Rule, y: Rule) {
    if x.effectiveAt != y.effectiveAt then x.effectiveAt > y.effectiveAt else IdLeq(x.id, y.id)
  }

  predicate PriorityThenLater(x: Rule, y: Rule) {
    if x.priority != y.priority then x.priority > y.priority else LaterThenId(x, y)
  }

  predicate SpecificThenPriority(x: Rule, y: Rule) {
    if Specificity(x) != Specificity(y) then Specificity(x) > Specificity(y) else PriorityThenLater(x, y)
  }

  /** Lowest tier first, then most specific, highest priority, latest, smallest id. */
  predicate Precedes(x: Rule, y: Rule) {
    if x.tier != y.tier then x.tier < y.tier else SpecificThenPriority(x, y)
  }

  lemma PassesTotal()
    ensures TotalPreorder(ById) && TotalPreorder(ByEffective) && TotalPreorder(ByPriority)
    ensures TotalPreorder(BySpecificity) && TotalPreorder(ByTier)
  {
    IdOrder();
  }

  lemma LastTwoPasses(rules: seq<Rule>)
    ensures TotalPreorder(LaterThenId)
    ensures Sort(Sort(rules, ById), ByEffective) == Sort(rules, LaterThenId)
  {
    PassesTotal();
    PassesCombine(rules, ByEffective, ById, LaterThenId);
  }

  lemma LastThreePasses(rules: seq<Rule>)
    ensures TotalPreorder(PriorityThenLater)
    ensures Sort(Sort(rules, LaterThenId), ByPriority) == Sort(rules, PriorityThenLater)
  {
    PassesTotal();
    LastTwoPasses(rules);
    PassesCombine(rules, ByPriority, LaterThenId, PriorityThenLater);
  }

  lemma LastFourPasses(rules: seq<Rule>)
    ensures TotalPreorder(SpecificThenPriority)
    ensures Sort(Sort(rules, PriorityThenLater), BySpecificity) == Sort(rules, SpecificThenPriority)
  {
    PassesTotal();
    LastThreePasses(rules);
    PassesCombine(rules, BySpecificity, PriorityThenLater, SpecificThenPriority);
  }

  /** The five stable sorts are one sort by the lexicographic precedence, on every list. */
  lemma FivePassesAreOne(rules: seq<Rule>)
    ensures TotalPreorder(Precedes)
    ensures FivePasses(rules) == Sort(rules, Precedes)
  {
    PassesTotal();
    LastTwoPasses(rules);
    LastThreePasses(rules);
    LastFourPasses(rules);
    PassesCombine(rules, ByTier, SpecificThenPriority, Precedes);
  }

  // ---------- named closures ----------

  function Applies(context: Context, now: int): Rule -> bool { (r: Rule) => Candidate(r, context, now) }
  function Fails(context: Context, now: int): Rule -> bool { (r: Rule) => !Candidate(r, context, now) }
  function IdIn(ids: set<string>): Rule -> bool { (r: Rule) => r.id in ids }
  function IdNotIn(ids: set<string>): Rule -> bool { (r: Rule) => r.id !in ids }
  function InGroup(g: string): Rule -> bool { (r: Rule) => r.group == Some(g) }
  function Ranked(rank: (int, nat, int, int)): Rule -> bool { (r: Rule) => Rank(r) == rank }
  function NotAmong(peers: seq<Rule>): Rule -> bool { (r: Rule) => r !in peers }
  function Losing(active: seq<Rule>): Rule -> bool { (r: Rule) => Beaten(active, r) }
  function Unbeaten(active: seq<Rule>): Rule -> bool { (r: Rule) => !Beaten(active, r) }
  function LosingIn(active: seq<Rule>, settled: set<string>): Rule -> bool { (r: Rule) => LostIn(active, settled, r) }
  function KeyNotIn(keys: set<(string, nat)>): Rule -> bool { (r: Rule) => (r.id, r.revision) !in keys }
  function RuleId(): Rule -> string { (r: Rule) => r.id }
  function ExclusionId(): Exclusion -> string { (e: Exclusion) => e.id }
  function Tag(reason: string): Rule -> Exclusion { (r: Rule) => Exclusion(r.id, reason) }
  function TagInapplicable(context: Context, now: int): Rule -> Exclusion {
    (r: Rule) => var reason := Inapplicable(r, context, now); Exclusion(r.id, if reason.Some? then reason.value else "")
  }

  // ---------- resolution ----------

  function Candidates(rules: seq<Rule>, context: Context, now: int): seq<Rule> {
    Filter(rules, Applies(context, now))
  }

  function SupersededIds(candidates: seq<Rule>): set<string> {
    set r, id | r in candidates && id in r.supersedes :: id
  }

  function Standing(rules: seq<Rule>, context: Context, now: int): seq<Rule> {
    var candidates := Candidates(rules, context, now);
    var superseded := SupersededIds(candidates);
    FivePasses(Filter(candidates, IdNotIn(superseded)))
  }

  function Group(active: seq<Rule>, g: string): seq<Rule> {
    Filter(active, InGroup(g))
  }

  /** A rule outranked by the first rule of its conflict group. */
  predicate Beaten(active: seq<Rule>, r: Rule) {
    r.group.Some? && var group := Group(active, r.group.value);
    group != [] && Rank(r) != Rank(group[0])
  }

  predicate Clash(active: seq<Rule>, x: Rule, y: Rule) {
    && x.group.Some? && x.group == y.group
    && !Beaten(active, x) && !Beaten(active, y)
    && (x.effect, x.gate) != (y.effect, y.gate)
  }

  predicate Conflicted(active: seq<Rule>) {
    exists x, y | x in active && y in active :: Clash(active, x, y)
  }

  function OverriddenKeys(active: seq<Rule>): set<(string, nat)> {
    set r | r in active && Beaten(active, r) :: (r.id, r.revision)
  }

  predicate ExclusionLeq(x: Exclusion, y: Exclusion) {
    if x.id != y.id then IdLeq(x.id, y.id) else IdLeq(x.reason, y.reason)
  }

  const SUPERSEDED := "SUPERSEDED"
  const OVERRIDDEN := "OVERRIDDEN_BY_HIGHER_PRECEDENCE"

  function InapplicableEntries(rules: seq<Rule>, context: Context, now: int): seq<Exclusion> {
    Map(Filter(rules, Fails(context, now)), TagInapplicable(context, now))
  }

  function SupersededEntries(candidates: seq<Rule>): seq<Exclusion> {
    var superseded := SupersededIds(candidates);
    Map(Filter(candidates, IdIn(superseded)), Tag(SUPERSEDED))
  }

  function OverriddenEntries(active: seq<Rule>): seq<Exclusion> {
    Map(Filter(active, Losing(active)), Tag(OVERRIDDEN))
  }

  function Excluded(rules: seq<Rule>, context: Context, now: int): seq<Exclusion> {
    var candidates := Candidates(rules, context, now);
    var active := Standing(rules, context, now);
    InapplicableEntries(rules, context, now) + SupersededEntries(candidates) + OverriddenEntries(active)
  }

  function Resolve(rules: seq<Rule>, context: Context, now: int): Resolution {
    var active := Standing(rules, context, now);
    if Conflicted(active) then PolicyConflict
    else
      var overridden := OverriddenKeys(active);
      Resolved(
        Filter(active, KeyNotIn(overridden)),
        Sort(Excluded(rules, context, now), ExclusionLeq))
  }

  /** Resolution as it is computed: one pass over the rules, one over the candidates, five
      stable sorts, then the conflict groups one by one. */
  method ResolveRules(rules: seq<Rule>, context: Context, now: int) returns (res: Resolution)
    ensures res == Resolve(rules, context, now)
  {
    var candidates, excluded := SplitCandidates(rules, context, now);
    var active, gone := DropSuperseded(candidates);
    excluded := excluded + gone;
    active := Sort(active, ById);
    active := Sort(active, ByEffective);
    active := Sort(active, ByPriority);
    active := Sort(active, BySpecificity);
    active := Sort(active, ByTier);
    var groups := GroupByConflict(active);
    var conflict, overridden, lost := SettleGroups(active, groups);
    if conflict {
      return PolicyConflict;
    }
    excluded := excluded + lost;
    active := Filter(active, KeyNotIn(overridden));
    SortExclusions(excluded, Excluded(rules, context, now));
    res := Resolved(active, Sort(excluded, ExclusionLeq));
  }

  method SplitCandidates(rules: seq<Rule>, context: Context, now: int)
    returns (candidates: seq<Rule>, excluded: seq<Exclusion>)
    ensures candidates == Candidates(rules, context, now)
    ensures excluded == InapplicableEntries(rules, context, now)
  {
    candidates, excluded := [], [];
    for i := 0 to |rules|
      invariant candidates == Candidates(rules[..i], context, now)
      invariant excluded == InapplicableEntries(rules[..i], context, now)
    {
      SplitStep(rules, i, context, now);
      var reason := Inapplicable(rules[i], context, now);
      if reason.Some? {
        excluded := excluded + [Exclusion(rules[i].id, reason.value)];
        assert candidates == Candidates(rules[..i + 1], context, now);
      } else {
        candidates := candidates + [rules[i]];
        assert excluded == InapplicableEntries(rules[..i + 1], context, now);
      }
    }
    assert rules[..|rules|] == rules;
  }

  lemma ReasonDecides(r: Rule, context: Context, now: int)
    ensures Applies(context, now)(r) == Inapplicable(r, context, now).None?
    ensures Fails(context, now)(r) == Inapplicable(r, context, now).Some?
    ensures Inapplicable(r, context, now).Some? ==>
              TagInapplicable(context, now)(r) == Exclusion(r.id, Inapplicable(r, context, now).value)
  {
  }

  lemma SplitStep(rules: seq<Rule>, i: nat, context: Context, now: int)
    requires i < |rules|
    ensures Candidates(rules[..i + 1], context, now)
         == Candidates(rules[..i], context, now) + (if Inapplicable(rules[i], context, now).None? then [rules[i]] else [])
    ensures var reason := Inapplicable(rules[i], context, now);
      InapplicableEntries(rules[..i + 1], context, now)
      == InapplicableEntries(rules[..i], context, now)
         + (if reason.Some? then [Exclusion(rules[i].id, reason.value)] else [])
  {
    FilterStep(rules, i, Applies(context, now));
    FilterMapStep(rules, i, Fails(context, now), TagInapplicable(context, now));
    ReasonDecides(rules[i], context, now);
  }

  method DropSuperseded(candidates: seq<Rule>) returns (active: seq<Rule>, excluded: seq<Exclusion>)
    ensures active == Filter(candidates, IdNotIn(SupersededIds(candidates)))
    ensures excluded == SupersededEntries(candidates)
  {
    var superseded := SupersededIds(candidates);
    active, excluded := [], [];
    for i := 0 to |candidates|
      invariant active == Filter(candidates[..i], IdNotIn(superseded))
      invariant excluded == Map(Filter(candidates[..i], IdIn(superseded)), Tag(SUPERSEDED))
    {
      FilterMapStep(candidates, i, IdIn(superseded), Tag(SUPERSEDED));
      FilterStep(candidates, i, IdNotIn(superseded));
      if candidates[i].id in superseded {
        excluded := excluded + [Exclusion(candidates[i].id, SUPERSEDED)];
      } else {
        active := active + [candidates[i]];
      }
    }
    assert candidates[..|candidates|] == candidates;
  }

  method GroupByConflict(active: seq<Rule>) returns (groups: map<string, seq<Rule>>)
    ensures forall g :: g in groups <==> Group(active, g) != []
    ensures forall g | g in groups :: groups[g] == Group(active, g)
  {
    groups := map[];
    for i := 0 to |active|
      invariant forall g :: g in groups <==> Group(active[..i], g) != []
      invariant forall g | g in groups :: groups[g] == Group(active[..i], g)
    {
      ghost var r := active[i];
      forall g ensures Group(active[..i + 1], g) == Group(active[..i], g) + (if r.group == Some(g) then [r] else []) {
        FilterStep(active, i, InGroup(g));
      }
      if active[i].group.Some? {
        var g := active[i].group.value;
        groups := groups[g := (if g in groups then groups[g] else []) + [active[i]]];
      }
    }
    assert active[..|active|] == active;
  }

  /** Looks at the conflict groups in any order: which group comes next is left open, so the
      outcome is shown not to depend on it. */
  method SettleGroups(active: seq<Rule>, groups: map<string, seq<Rule>>)
    returns (conflict: bool, overridden: set<(string, nat)>, excluded: seq<Exclusion>)
    requires forall g :: g in groups <==> Group(active, g) != []
    requires forall g | g in groups :: groups[g] == Group(active, g)
    ensures conflict == Conflicted(active)
    ensures !conflict ==> overridden == OverriddenKeys(active)
    ensures !conflict ==> multiset(excluded) == multiset(OverriddenEntries(active))
  {
    overridden, excluded := {}, [];
    var remaining := groups.Keys;
    ghost var settled: set<string> := {};
    NothingSettled(active);
    while remaining != {}
      invariant SplitInto(groups.Keys, settled, remaining)
      invariant Settled(active, settled, overridden, excluded)
      decreases remaining
    {
      var g :| g in remaining;
      var clash, keys, entries := SettleOne(active, g, groups[g]);
      if clash {
        return true, {}, [];
      }
      SettledStep(active, g, settled, overridden, excluded);
      MoveAcross(groups.Keys, settled, remaining, g);
      overridden := overridden + keys;
      excluded := excluded + entries;
      remaining := remaining - {g};
      settled := settled + {g};
    }
    AllSettled(active, groups.Keys, overridden, excluded);
    conflict := false;
  }

  method SettleOne(active: seq<Rule>, g: string, group: seq<Rule>)
    returns (clash: bool, keys: set<(string, nat)>, entries: seq<Exclusion>)
    requires group == Group(active, g) && group != []
    ensures clash ==> Conflicted(active)
    ensures !clash ==> Clashless(active, {g})
    ensures keys == set r | r in Losers(active, g) :: (r.id, r.revision)
    ensures entries == Map(Losers(active, g), Tag(OVERRIDDEN))
  {
    var peers := Filter(group, Ranked(Rank(group[0])));
    var outcomes := set r | r in peers :: (r.effect, r.gate);
    clash := |outcomes| > 1;
    if clash {
      ManyOutcomesClash(active, g);
    } else {
      OneOutcomeAgrees(active, g);
    }
    var lost := Filter(group, NotAmong(peers));
    keys := set r | r in lost :: (r.id, r.revision);
    entries := Map(lost, Tag(OVERRIDDEN));
  }

  /** No two top-ranked rules of the settled groups disagree. */
  ghost predicate Clashless(active: seq<Rule>, settled: set<string>) {
    forall x, y | x in active && y in active && Clash(active, x, y) :: x.group.value !in settled
  }

  /** Beaten, and in one of the groups already settled. */
  predicate LostIn(active: seq<Rule>, settled: set<string>, r: Rule) {
    r.group.Some? && r.group.value in settled && Beaten(active, r)
  }

  function LostEntries(active: seq<Rule>, settled: set<string>): seq<Exclusion> {
    Map(Filter(active, LosingIn(active, settled)), Tag(OVERRIDDEN))
  }

  function LostKeys(active: seq<Rule>, settled: set<string>): set<(string, nat)> {
    set r | r in active && LostIn(active, settled, r) :: (r.id, r.revision)
  }

  function Peers(active: seq<Rule>, g: string): seq<Rule> {
    var group := Group(active, g);
    if group == [] then [] else Filter(group, Ranked(Rank(group[0])))
  }

  function Losers(active: seq<Rule>, g: string): seq<Rule> {
    Filter(Group(active, g), NotAmong(Peers(active, g)))
  }

  lemma PeersAreUnbeaten(active: seq<Rule>, g: string)
    ensures forall r :: r in Peers(active, g) <==> r in active && r.group == Some(g) && !Beaten(active, r)
    ensures forall r :: r in Losers(active, g) <==> r in active && r.group == Some(g) && Beaten(active, r)
  {
  }

  lemma ManyOutcomesClash(active: seq<Rule>, g: string)
    requires |set r | r in Peers(active, g) :: (r.effect, r.gate)| > 1
    ensures Conflicted(active)
  {
    var outcomes := set r | r in Peers(active, g) :: (r.effect, r.gate);
    var a, b := TwoOf(outcomes);
    var x :| x in Peers(active, g) && (x.effect, x.gate) == a;
    var y :| y in Peers(active, g) && (y.effect, y.gate) == b;
    PeersAreUnbeaten(active, g);
    assert Clash(active, x, y);
  }

  lemma TwoOf<T>(s: set<T>) returns (a: T, b: T)
    requires |s| > 1
    ensures a in s && b in s && a != b
  {
    a :| a in s;
    assert |s - {a}| > 0;
    b :| b in s - {a};
  }

  lemma OneOutcomeAgrees(active: seq<Rule>, g: string)
    requires |set r | r in Peers(active, g) :: (r.effect, r.gate)| <= 1
    ensures Clashless(active, {g})
  {
    var outcomes := set r | r in Peers(active, g) :: (r.effect, r.gate);
    PeersAreUnbeaten(active, g);
    forall x, y | x in active && y in active && Clash(active, x, y) ensures x.group.value != g {
      if x.group.value == g {
        assert x in Peers(active, g) && y in Peers(active, g);
        Sole(outcomes, (x.effect, x.gate), (y.effect, y.gate));
      }
    }
  }

  lemma Sole<T>(s: set<T>, a: T, b: T)
    requires |s| <= 1 && a in s && b in s
    ensures a == b
  {
    assert |s - {a}| == 0;
    assert b !in s - {a};
  }

  /** What the settled groups have contributed so far. */
  ghost predicate Settled(active: seq<Rule>, settled: set<string>, keys: set<(string, nat)>, entries: seq<Exclusion>) {
    && Clashless(active, settled)
    && keys == LostKeys(active, settled)
    && multiset(entries) == multiset(LostEntries(active, settled))
  }

  lemma NothingSettled(active: seq<Rule>)
    ensures Settled(active, {}, {}, [])
  {
    FilterNone(active, LosingIn(active, {}));
  }

  lemma SettledStep(
      active: seq<Rule>, g: string, settled: set<string>, keys: set<(string, nat)>, entries: seq<Exclusion>)
    requires Settled(active, settled, keys, entries) && g !in settled && Clashless(active, {g})
    ensures Settled(active, settled + {g}, keys + set r | r in Losers(active, g) :: (r.id, r.revision),
              entries + Map(Losers(active, g), Tag(OVERRIDDEN)))
  {
    LostStep(active, g, settled);
    LostKeysStep(active, g, settled);
  }

  lemma LostKeysStep(active: seq<Rule>, g: string, settled: set<string>)
    ensures LostKeys(active, settled + {g})
         == LostKeys(active, settled) + set r | r in Losers(active, g) :: (r.id, r.revision)
  {
    PeersAreUnbeaten(active, g);
  }

  lemma LostStep(active: seq<Rule>, g: string, settled: set<string>)
    requires g !in settled
    ensures multiset(LostEntries(active, settled + {g}))
         == multiset(LostEntries(active, settled)) + multiset(Map(Losers(active, g), Tag(OVERRIDDEN)))
  {
    PeersAreUnbeaten(active, g);
    var both := Filter(active, LosingIn(active, settled + {g}));
    FilterFilter(active, LosingIn(active, settled + {g}), LosingIn(active, settled), LosingIn(active, settled));
    FilterFilter(active, LosingIn(active, settled + {g}), InGroup(g), LosingIn(active, {g}));
    FilterFilter(active, InGroup(g), NotAmong(Peers(active, g)), LosingIn(active, {g}));
    FilterSplits(both, LosingIn(active, settled), InGroup(g), Tag(OVERRIDDEN));
  }

  lemma {:induction false} FilterFilter(s: seq<Rule>, outer: Rule -> bool, inner: Rule -> bool, both: Rule -> bool)
    requires forall x | x in s :: both(x) == (outer(x) && inner(x))
    ensures Filter(Filter(s, outer), inner) == Filter(s, both)
  {
    if s != [] {
      FilterFilter(s[1..], outer, inner, both);
      FilterAppend(if outer(s[0]) then [s[0]] else [], Filter(s[1..], outer), inner);
    }
  }

  lemma AllSettled(active: seq<Rule>, names: set<string>, keys: set<(string, nat)>, entries: seq<Exclusion>)
    requires forall g :: g in names <==> Group(active, g) != []
    requires Settled(active, names, keys, entries)
    ensures !Conflicted(active) && keys == OverriddenKeys(active)
    ensures multiset(entries) == multiset(OverriddenEntries(active))
  {
    forall r | r in active && r.group.Some? ensures r.group.value in names {
      assert r in Group(active, r.group.value);
    }
    FilterSame(active, LosingIn(active, names), Losing(active));
  }

  lemma ExclusionOrder()
    ensures TotalPreorder(ExclusionLeq)
    ensures forall x, y :: ExclusionLeq(x, y) && ExclusionLeq(y, x) ==> x == y
  {
    IdOrder();
  }

  lemma SortExclusions(s: seq<Exclusion>, t: seq<Exclusion>)
    requires multiset(s) == multiset(t)
    ensures Sort(s, ExclusionLeq) == Sort(t, ExclusionLeq)
  {
    ExclusionOrder();
    SortOrderIndependent(s, t, ExclusionLeq);
  }

  // ---------- what a resolution promises ----------

  ghost predicate UniqueIds(rules: seq<Rule>) {
    forall i, j | 0 <= i < j < |rules| :: rules[i].id != rules[j].id
  }

  lemma StandingMembers(rules: seq<Rule>, context: Context, now: int)
    ensures forall r :: r in Standing(rules, context, now) <==>
              r in rules && Candidate(r, context, now) && r.id !in SupersededIds(Candidates(rules, context, now))
    ensures Sorted(Standing(rules, context, now), Precedes)
  {
    var superseded := SupersededIds(Candidates(rules, context, now));
    var kept := Filter(Candidates(rules, context, now), IdNotIn(superseded));
    FivePassesAreOne(kept);
    SortMembers(kept, Precedes);
    SortSorted(kept, Precedes);
  }

  /** With unique ids, keys identify rules, so exactly the beaten rules are overridden. */
  lemma IncludedAreUnbeaten(rules: seq<Rule>, context: Context, now: int)
    requires UniqueIds(rules) && Resolve(rules, context, now).Resolved?
    ensures var active := Standing(rules, context, now);
            Resolve(rules, context, now).included == Filter(active, Unbeaten(active))
  {
    var active := Standing(rules, context, now);
    var overridden := OverriddenKeys(active);
    StandingMembers(rules, context, now);
    FilterSame(active, KeyNotIn(overridden), Unbeaten(active));
  }

  /** Every rule is accounted for: the ids of the included and the excluded rules are the
      ids that came in, with their multiplicities. */
  lemma EachIdOnce(rules: seq<Rule>, context: Context, now: int)
    requires UniqueIds(rules) && Resolve(rules, context, now).Resolved?
    ensures var res := Resolve(rules, context, now);
      multiset(Map(res.included, RuleId())) + multiset(Map(res.excluded, ExclusionId())) == multiset(Map(rules, RuleId()))
  {
    var res := Resolve(rules, context, now);
    var candidates := Candidates(rules, context, now);
    var superseded := SupersededIds(candidates);
    var active := Standing(rules, context, now);
    var kept := Filter(candidates, IdNotIn(superseded));
    IncludedAreUnbeaten(rules, context, now);
    FivePassesAreOne(kept);
    MapPermutes(active, kept, RuleId());
    FilterSplits(rules, Applies(context, now), Fails(context, now), RuleId());
    FilterSplits(candidates, IdNotIn(superseded), IdIn(superseded), RuleId());
    FilterSplits(active, Unbeaten(active), Losing(active), RuleId());
    ExcludedIds(rules, context, now);
  }

  lemma ExcludedIds(rules: seq<Rule>, context: Context, now: int)
    requires Resolve(rules, context, now).Resolved?
    ensures var candidates := Candidates(rules, context, now);
      var active := Standing(rules, context, now);
      multiset(Map(Resolve(rules, context, now).excluded, ExclusionId()))
        == multiset(Map(Filter(rules, Fails(context, now)), RuleId()))
         + multiset(Map(Filter(candidates, IdIn(SupersededIds(candidates))), RuleId()))
         + multiset(Map(Filter(active, Losing(active)), RuleId()))
  {
    var a := InapplicableEntries(rules, context, now);
    var b := SupersededEntries(Candidates(rules, context, now));
    var c := OverriddenEntries(Standing(rules, context, now));
    MapPermutes(Sort(a + b + c, ExclusionLeq), a + b + c, ExclusionId());
    MapAppend(a + b, c, ExclusionId());
    MapAppend(a, b, ExclusionId());
    MapCompose(Filter(rules, Fails(context, now)), TagInapplicable(context, now));
    MapCompose(Filter(Candidates(rules, context, now), IdIn(SupersededIds(Candidates(rules, context, now)))), Tag(SUPERSEDED));
    MapCompose(Filter(Standing(rules, context, now), Losing(Standing(rules, context, now))), Tag(OVERRIDDEN));
  }

  lemma MapCompose(s: seq<Rule>, tag: Rule -> Exclusion)
    requires forall r :: tag(r).id == r.id
    ensures Map(Map(s, tag), ExclusionId()) == Map(s, RuleId())
  {
  }

  /** Each rule is in exactly one of the two lists. */
  lemma EachRuleOnce(rules: seq<Rule>, context: Context, now: int, r: Rule)
    requires UniqueIds(rules) && Resolve(rules, context, now).Resolved? && r in rules
    ensures var res := Resolve(rules, context, now);
      (r in res.included) != (r.id in Map(res.excluded, ExclusionId()))
  {
    var res := Resolve(rules, context, now);
    var inc, exc := Map(res.included, RuleId()), Map(res.excluded, ExclusionId());
    EachIdOnce(rules, context, now);
    UniqueCount(rules, r);
    assert multiset(inc)[r.id] + multiset(exc)[r.id] == 1;
    StandingMembers(rules, context, now);
    SameIdSameRule(rules, res.included, r);
    assert r.id in inc <==> r.id in multiset(inc);
    assert r.id in exc <==> r.id in multiset(exc);
  }

  lemma SameIdSameRule(rules: seq<Rule>, some: seq<Rule>, r: Rule)
    requires UniqueIds(rules) && r in rules
    requires forall x | x in some :: x in rules
    ensures r in some <==> r.id in Map(some, RuleId())
  {
    MapMember(some, RuleId(), r.id);
    if r in some {
      var i :| 0 <= i < |some| && some[i] == r;
      assert RuleId()(some[i]) == r.id;
    }
    if i :| 0 <= i < |some| && RuleId()(some[i]) == r.id {
      assert some[i] in rules;
    }
  }

  lemma {:induction false} UniqueCount(rules: seq<Rule>, r: Rule)
    requires UniqueIds(rules) && r in rules
    ensures multiset(Map(rules, RuleId()))[r.id] == 1
  {
    var id := RuleId();
    var ids := Map(rules, id);
    var i :| 0 <= i < |rules| && rules[i] == r;
    assert ids == ids[..i] + [ids[i]] + ids[i + 1..];
    assert r.id !in ids[..i] && r.id !in ids[i + 1..];
  }

  /** What is included applies: active, in force, in scope, superseded by no candidate, and
      no other included rule of its conflict group orders a different effect or gate. */
  lemma IncludedIsSound(rules: seq<Rule>, context: Context, now: int, x: Rule)
    requires UniqueIds(rules) && Resolve(rules, context, now).Resolved?
    requires x in Resolve(rules, context, now).included
    ensures x in rules && Candidate(x, context, now)
    ensures forall r | r in rules && Candidate(r, context, now) :: x.id !in r.supersedes
    ensures forall y | y in Resolve(rules, context, now).included && x.group.Some? && x.group == y.group ::
              x.effect == y.effect && x.gate == y.gate && Rank(x) == Rank(y)
  {
    var active := Standing(rules, context, now);
    IncludedAreUnbeaten(rules, context, now);
    StandingMembers(rules, context, now);
    forall y | y in Resolve(rules, context, now).included && x.group.Some? && x.group == y.group
      ensures x.effect == y.effect && x.gate == y.gate && Rank(x) == Rank(y)
    {
      assert !Clash(active, x, y);
      assert x in Group(active, x.group.value);
    }
  }

  /** A rule is overridden only for an included rule of its group that precedes it with a
      different rank. */
  lemma OverriddenHasWinner(rules: seq<Rule>, context: Context, now: int, x: Rule) returns (winner: Rule)
    requires UniqueIds(rules) && Resolve(rules, context, now).Resolved?
    requires x in Standing(rules, context, now) && x !in Resolve(rules, context, now).included
    ensures winner in Resolve(rules, context, now).included
    ensures winner.group == x.group && Precedes(winner, x) && Rank(winner) != Rank(x)
  {
    var active := Standing(rules, context, now);
    IncludedAreUnbeaten(rules, context, now);
    StandingMembers(rules, context, now);
    var group := Group(active, x.group.value);
    assert x in group;
    winner := group[0];
    assert winner in group;
    GroupSorted(active, x.group.value);
    var k :| 0 <= k < |group| && group[k] == x;
    assert k != 0;
    assert Precedes(group[0], group[k]);
  }

  lemma {:induction false} GroupSorted(active: seq<Rule>, g: string)
    requires Sorted(active, Precedes)
    ensures Sorted(Group(active, g), Precedes)
  {
    if active != [] {
      GroupSorted(active[1..], g);
      var rest := Group(active[1..], g);
      forall j | 0 <= j < |rest| ensures Precedes(active[0], rest[j]) {
        assert rest[j] in active[1..];
        var k :| 0 <= k < |active[1..]| && active[1..][k] == rest[j];
        assert active[k + 1] == rest[j];
      }
    }
  }

  /** Applicable and superseded by no applicable rule. */
  ghost predicate InPlay(rules: seq<Rule>, context: Context, now: int, r: Rule) {
    r in rules && Candidate(r, context, now) && forall c | c in rules && Candidate(c, context, now) :: r.id !in c.supersedes
  }

  /** No rule in play of the same group ranks before it. */
  ghost predicate TopRanked(rules: seq<Rule>, context: Context, now: int, x: Rule) {
    && InPlay(rules, context, now, x) && x.group.Some?
    && forall y | InPlay(rules, context, now, y) && y.group == x.group && Precedes(y, x) :: Rank(y) == Rank(x)
  }

  lemma StandingIsInPlay(rules: seq<Rule>, context: Context, now: int, r: Rule)
    ensures r in Standing(rules, context, now) <==> InPlay(rules, context, now, r)
  {
    StandingMembers(rules, context, now);
    var candidates := Candidates(rules, context, now);
    if r.id in SupersededIds(candidates) {
      var c :| c in candidates && r.id in c.supersedes;
    }
  }

  lemma RanksBetween(a: Rule, y: Rule, x: Rule)
    requires Precedes(a, y) && Precedes(y, x) && Rank(a) == Rank(x)
    ensures Rank(y) == Rank(x)
  {
  }

  lemma HeadPrecedes(active: seq<Rule>, x: Rule)
    requires Sorted(active, Precedes) && x in active && x.group.Some?
    ensures var group := Group(active, x.group.value);
      group != [] && group[0] in active && group[0].group == x.group && (group[0] == x || Precedes(group[0], x))
  {
    var group := Group(active, x.group.value);
    GroupSorted(active, x.group.value);
    assert x in group;
    assert group[0] in group;
    var k :| 0 <= k < |group| && group[k] == x;
  }

  lemma UnbeatenIsTopRanked(rules: seq<Rule>, context: Context, now: int, x: Rule)
    requires x in Standing(rules, context, now) && x.group.Some?
    ensures !Beaten(Standing(rules, context, now), x) <==> TopRanked(rules, context, now, x)
  {
    var active := Standing(rules, context, now);
    StandingMembers(rules, context, now);
    StandingIsInPlay(rules, context, now, x);
    HeadPrecedes(active, x);
    var head := Group(active, x.group.value)[0];
    StandingIsInPlay(rules, context, now, head);
    if !Beaten(active, x) {
      forall y | InPlay(rules, context, now, y) && y.group == x.group && Precedes(y, x) ensures Rank(y) == Rank(x) {
        StandingIsInPlay(rules, context, now, y);
        HeadPrecedes(active, y);
        if head != y {
          RanksBetween(head, y, x);
        }
      }
    }
  }

  /** Two top-ranked rules of one group order different effects or gates. */
  ghost predicate Disagree(rules: seq<Rule>, context: Context, now: int, x: Rule, y: Rule) {
    && TopRanked(rules, context, now, x) && TopRanked(rules, context, now, y)
    && x.group == y.group && (x.effect, x.gate) != (y.effect, y.gate)
  }

  lemma DisagreementClashes(rules: seq<Rule>, context: Context, now: int, x: Rule, y: Rule)
    requires Disagree(rules, context, now, x, y)
    ensures Conflicted(Standing(rules, context, now))
  {
    StandingIsInPlay(rules, context, now, x);
    StandingIsInPlay(rules, context, now, y);
    UnbeatenIsTopRanked(rules, context, now, x);
    UnbeatenIsTopRanked(rules, context, now, y);
    assert Clash(Standing(rules, context, now), x, y);
  }

  lemma ClashDisagrees(rules: seq<Rule>, context: Context, now: int, x: Rule, y: Rule)
    requires x in Standing(rules, context, now) && y in Standing(rules, context, now)
    requires Clash(Standing(rules, context, now), x, y)
    ensures Disagree(rules, context, now, x, y)
  {
    UnbeatenIsTopRanked(rules, context, now, x);
    UnbeatenIsTopRanked(rules, context, now, y);
  }

  /** Resolution fails exactly when two top-ranked rules of one group order different effects or
      gates. */
  lemma ConflictsExactly(rules: seq<Rule>, context: Context, now: int)
    ensures Resolve(rules, context, now).PolicyConflict? <==> exists x, y :: Disagree(rules, context, now, x, y)
  {
    var active := Standing(rules, context, now);
    if x, y :| Disagree(rules, context, now, x, y) {
      DisagreementClashes(rules, context, now, x, y);
    }
    if Conflicted(active) {
      var x, y :| x in active && y in active && Clash(active, x, y);
      ClashDisagrees(rules, context, now, x, y);
    }
  }

  lemma IncludedAreFew(rules: seq<Rule>, context: Context, now: int)
    requires Resolve(rules, context, now).Resolved?
    ensures |Resolve(rules, context, now).included| <= |rules|
  {
    assert |Standing(rules, context, now)| <= |rules|;
  }

  /** The order the ledger hands its rules over in does not matter. */
  lemma OrderIndependent(rules: seq<Rule>, rules': seq<Rule>, context: Context, now: int)
    requires UniqueIds(rules) && multiset(rules) == multiset(rules')
    ensures Resolve(rules, context, now) == Resolve(rules', context, now)
  {
    CandidatesPermute(rules, rules', context, now);
    StandingIndependent(rules, rules', context, now);
    var candidates, candidates' := Candidates(rules, context, now), Candidates(rules', context, now);
    FilterPermutes(rules, rules', Fails(context, now));
    MapPermutes(Filter(rules, Fails(context, now)), Filter(rules', Fails(context, now)), TagInapplicable(context, now));
    var gone := IdIn(SupersededIds(candidates));
    FilterPermutes(candidates, candidates', gone);
    MapPermutes(Filter(candidates, gone), Filter(candidates', gone), Tag(SUPERSEDED));
    SortExclusions(Excluded(rules, context, now), Excluded(rules', context, now));
  }

  lemma CandidatesPermute(rules: seq<Rule>, rules': seq<Rule>, context: Context, now: int)
    requires multiset(rules) == multiset(rules')
    ensures multiset(Candidates(rules, context, now)) == multiset(Candidates(rules', context, now))
    ensures SupersededIds(Candidates(rules, context, now)) == SupersededIds(Candidates(rules', context, now))
  {
    FilterPermutes(rules, rules', Applies(context, now));
    SameMembers(Candidates(rules, context, now), Candidates(rules', context, now));
  }

  lemma StandingIndependent(rules: seq<Rule>, rules': seq<Rule>, context: Context, now: int)
    requires UniqueIds(rules) && multiset(rules) == multiset(rules')
    ensures Standing(rules, context, now) == Standing(rules', context, now)
  {
    CandidatesPermute(rules, rules', context, now);
    var candidates, candidates' := Candidates(rules, context, now), Candidates(rules', context, now);
    var stays := IdNotIn(SupersededIds(candidates));
    FilterPermutes(candidates, candidates', stays);
    FivePassesAreOne(Filter(candidates, stays));
    FivePassesAreOne(Filter(candidates', stays));
    PrecedesDecides(Filter(candidates, stays));
    SortOrderIndependent(Filter(candidates, stays), Filter(candidates', stays), Precedes);
  }

  lemma PrecedesDecides(rules: seq<Rule>)
    requires forall x, y | x in rules && y in rules && x.id == y.id :: x == y
    ensures Decided(rules, Precedes)
  {
    IdOrder();
  }

  lemma SameMembers(s: seq<Rule>, t: seq<Rule>)
    requires multiset(s) == multiset(t)
    ensures forall r :: r in s <==> r in t
  {
    forall r ensures r in s <==> r in t {
      assert r in s <==> r in multiset(s);
      assert r in t <==> r in multiset(t);
    }
  }
}
