/** The dual-key delivery authority (pipeline/qc/ai_authority.py): what AI observations may do to a
    release, whatever a model replies. Confidence is real; a rule's defaults are already resolved. */
module Authority {
  import opened Basics

  datatype Power = Enforce | Hold | Advise

  datatype Rule = Rule(
    power: Power,
    minConfidence: real,
    minEvidence: int,
    minSources: int,
    severity: string,              // required when enforcing; "" asks for none
    intent: string,
    minTranscriptions: int,
    textTransition: bool)

  /** One untrusted observation; `source` is empty when no authority source is named. */
  datatype Observation = Observation(
    state: string,
    risk: string,
    evidence: set<string>,
    role: string,
    source: string,
    confidence: real,
    severity: string,
    intent: string,
    transcriptions: set<string>,
    textTransition: bool)

  type Policy = map<string, Rule>

  type Stages = map<string, seq<Observation>>

  datatype Item = Item(stage: string, seen: Observation)

  datatype Disposition = Ready | HoldBack | Reject

  datatype Mode = Shadow | HoldMode | EnforceMode

  datatype Gate = Shadowed | Gated(disposition: Disposition)

  datatype Finding = Finding(power: Power, qualified: bool, stages: set<string>, sources: set<string>, evidence: set<string>, synthesis: bool)

  const SYNTHESIS := "synthesis"

  function Rank(d: Disposition): nat {
    match d case Ready => 0 case HoldBack => 1 case Reject => 2
  }

  function Worse(a: Disposition, b: Disposition): Disposition { if Rank(a) >= Rank(b) then a else b }

  function DeterministicGate(status: Option<string>): Disposition {
    if status == Some("fail") then Reject
    else if status == Some("pass") then Ready
    else HoldBack
  }

  // ───────── qualification, over the set of concerns ─────────

  function Items(stages: Stages): set<Item> {
    set s, k | s in stages && 0 <= k < |stages[s]| :: Item(s, stages[s][k])
  }

  /** An evidenced concern on a registered risk. */
  predicate IsConcern(policy: Policy, i: Item) {
    i.seen.state == "concern" && i.seen.risk in policy && i.seen.evidence != {}
  }

  predicate IsSynthesis(i: Item) { i.stage == SYNTHESIS || i.seen.role == SYNTHESIS }

  predicate IsEligible(rule: Rule, i: Item) {
    && i.seen.source != ""
    && i.seen.confidence >= rule.minConfidence
    && (rule.power.Enforce? && rule.severity != "" ==> i.seen.severity == rule.severity)
    && (rule.power.Enforce? && rule.intent != "" ==> i.seen.intent == rule.intent)
    && |i.seen.transcriptions| >= rule.minTranscriptions
    && (rule.textTransition ==> i.seen.textTransition)
  }

  function ConcernsOn(policy: Policy, items: set<Item>, risk: string): set<Item> {
    set i | i in items && IsConcern(policy, i) && i.seen.risk == risk
  }

  function Accepted(rule: Rule, concerns: set<Item>): set<Item> {
    set i | i in concerns && !IsSynthesis(i) && IsEligible(rule, i)
  }

  function SourcesOf(items: set<Item>): set<string> { set i | i in items :: i.seen.source }

  function EvidenceOf(items: set<Item>): set<string> { set i, e | i in items && e in i.seen.evidence :: e }

  predicate IsAgreed(rule: Rule, concerns: set<Item>) {
    exists i :: i in concerns && IsSynthesis(i) && IsEligible(rule, i)
  }

  function FindingOf(rule: Rule, concerns: set<Item>): Finding {
    var accepted := Accepted(rule, concerns);
    var sources, evidence, agreed := SourcesOf(accepted), EvidenceOf(accepted), IsAgreed(rule, concerns);
    Finding(rule.power, |sources| >= rule.minSources && |evidence| >= rule.minEvidence && agreed,
            set i | i in accepted :: i.stage, sources, evidence, agreed)
  }

  function Findings(policy: Policy, items: set<Item>): map<string, Finding> {
    map risk | risk in policy && ConcernsOn(policy, items, risk) != {} :: FindingOf(policy[risk], ConcernsOn(policy, items, risk))
  }

  // ───────── the decision ─────────

  /** The last synthesis state on a risk. */
  function LastState(synthesis: seq<Observation>, risk: string): Option<string> {
    if synthesis == [] then None
    else if Last(synthesis).risk == risk then Some(Last(synthesis).state)
    else LastState(DropLast(synthesis), risk)
  }

  predicate IsCovered(stages: Stages, risk: string) {
    SYNTHESIS in stages &&
    var state := LastState(stages[SYNTHESIS], risk);
    state.Some? && state.value != "not_checked"
  }

  predicate HasEnforceable(findings: map<string, Finding>) {
    exists r :: r in findings && findings[r].qualified && findings[r].power.Enforce?
  }

  predicate HasHold(findings: map<string, Finding>) {
    exists r :: r in findings && findings[r].qualified && (findings[r].power.Enforce? || findings[r].power.Hold?)
  }

  predicate HasUnqualified(findings: map<string, Finding>) {
    exists r :: r in findings && !findings[r].qualified
  }

  datatype Request = Request(
    deterministic: Option<string>, complete: bool, required: bool, policy: Policy, requiredRisks: set<string>)

  predicate HasGap(q: Request, stages: Stages) {
    exists r :: r in q.requiredRisks && r in q.policy && !IsCovered(stages, r)
  }

  /** The first reason that applies, as the source orders them. */
  function Propose(blocked: bool, findings: map<string, Finding>, gap: bool): Disposition {
    if blocked then HoldBack
    else if HasEnforceable(findings) then Reject
    else if HasHold(findings) || gap || HasUnqualified(findings) then HoldBack
    else Ready
  }

  function Proposed(q: Request, stages: Stages): Disposition {
    Propose(q.required && !q.complete, Findings(q.policy, Items(stages)), HasGap(q, stages))
  }

  function Combine(deterministic: Disposition, proposed: Disposition, mode: Mode): Disposition {
    match mode
    case Shadow => deterministic
    case HoldMode =>
      if deterministic.Reject? then Reject
      else if deterministic.HoldBack? || !proposed.Ready? then HoldBack else Ready
    case EnforceMode =>
      if deterministic.Reject? || proposed.Reject? then Reject
      else if deterministic.HoldBack? || proposed.HoldBack? then HoldBack else Ready
  }

  function Decide(q: Request, stages: Stages, mode: Mode): Disposition {
    Combine(DeterministicGate(q.deterministic), Proposed(q, stages), mode)
  }

  // ───────── the lattice ─────────

  /** AI never lowers the instruments' gate, and stronger modes never decide less. */
  lemma AuthorityIsOrdered(q: Request, stages: Stages)
    ensures Decide(q, stages, Shadow) == DeterministicGate(q.deterministic)
    ensures Rank(Decide(q, stages, Shadow)) <= Rank(Decide(q, stages, HoldMode)) <= Rank(Decide(q, stages, EnforceMode))
    ensures Decide(q, stages, HoldMode) == Reject ==> DeterministicGate(q.deterministic) == Reject
    ensures Decide(q, stages, EnforceMode) == Worse(DeterministicGate(q.deterministic), Proposed(q, stages))
  {
  }

  /** What stands behind a rejection the instruments did not ask for. */
  lemma AiRejectIsCorroborated(q: Request, stages: Stages, mode: Mode) returns (risk: string)
    requires Decide(q, stages, mode) == Reject && DeterministicGate(q.deterministic) != Reject
    ensures mode == EnforceMode && (q.required ==> q.complete)
    ensures risk in q.policy && q.policy[risk].power.Enforce?
    ensures var rule := q.policy[risk];
            var concerns := ConcernsOn(q.policy, Items(stages), risk);
            && |SourcesOf(Accepted(rule, concerns))| >= rule.minSources
            && |EvidenceOf(Accepted(rule, concerns))| >= rule.minEvidence
            && exists i :: i in concerns && IsSynthesis(i) && IsEligible(rule, i)
  {
    var findings := Findings(q.policy, Items(stages));
    risk :| risk in findings && findings[risk].qualified && findings[risk].power.Enforce?;
  }

  // ───────── monotonicity ─────────

  /** A reply with one more observation, anywhere in one stage. */
  function With(stages: Stages, stage: string, k: nat, seen: Observation): Stages
    requires k <= if stage in stages then |stages[stage]| else 0
  {
    var list := if stage in stages then stages[stage] else [];
    stages[stage := list[..k] + [seen] + list[k..]]
  }

  lemma WithAddsOne(stages: Stages, stage: string, k: nat, seen: Observation)
    requires k <= if stage in stages then |stages[stage]| else 0
    ensures Items(With(stages, stage, k, seen)) == Items(stages) + {Item(stage, seen)}
  {
    var after := With(stages, stage, k, seen);
    var list := if stage in stages then stages[stage] else [];
    forall i ensures i in Items(after) <==> i in Items(stages) || i == Item(stage, seen) {
      if i in Items(stages) {
        var n :| 0 <= n < |stages[i.stage]| && i == Item(i.stage, stages[i.stage][n]);
        if i.stage == stage {
          var m := if n < k then n else n + 1;
          assert after[stage][m] == list[n];
        } else {
          assert after[i.stage][n] == i.seen;
        }
      }
      if i == Item(stage, seen) {
        assert after[stage][k] == seen;
      }
      if i in Items(after) {
        var m :| 0 <= m < |after[i.stage]| && i == Item(i.stage, after[i.stage][m]);
        if i.stage == stage && m != k {
          var n := if m < k then m else m - 1;
          assert after[stage][m] == list[n];
        }
      }
    }
  }

  lemma MoreConcernsQualify(rule: Rule, few: set<Item>, many: set<Item>)
    requires few <= many && FindingOf(rule, few).qualified
    ensures FindingOf(rule, many).qualified
  {
    Larger(SourcesOf(Accepted(rule, few)), SourcesOf(Accepted(rule, many)));
    Larger(EvidenceOf(Accepted(rule, few)), EvidenceOf(Accepted(rule, many)));
  }

  lemma {:induction false} Larger<T>(a: set<T>, b: set<T>)
    requires a <= b
    ensures |a| <= |b|
  {
    assert b == a + (b - a);
  }

  ghost predicate Holds(policy: Policy) {
    forall r :: r in policy ==> policy[r].power.Enforce? || policy[r].power.Hold?
  }

  lemma FindingsGrow(policy: Policy, few: set<Item>, many: set<Item>)
    requires few <= many
    ensures forall r :: r in Findings(policy, few) ==>
              && r in Findings(policy, many) && Findings(policy, many)[r].power == Findings(policy, few)[r].power
              && (Findings(policy, few)[r].qualified ==> Findings(policy, many)[r].qualified)
  {
    forall r | r in Findings(policy, few)
      ensures r in Findings(policy, many)
      ensures Findings(policy, few)[r].qualified ==> Findings(policy, many)[r].qualified
    {
      var c, d := ConcernsOn(policy, few, r), ConcernsOn(policy, many, r);
      assert c <= d;
      var i :| i in c;
      assert i in d;
      if FindingOf(policy[r], c).qualified { MoreConcernsQualify(policy[r], c, d); }
    }
  }

  /** When every rule may hold, one more evidenced concern on a registered risk never lowers the
      decision, and is never released on the AI's word alone. */
  lemma ConcernNeverLowers(q: Request, stages: Stages, mode: Mode, stage: string, k: nat, seen: Observation)
    requires k <= if stage in stages then |stages[stage]| else 0
    requires Holds(q.policy) && IsConcern(q.policy, Item(stage, seen))
    ensures Rank(Decide(q, stages, mode)) <= Rank(Decide(q, With(stages, stage, k, seen), mode))
    ensures Proposed(q, With(stages, stage, k, seen)) != Ready
  {
    WithAddsOne(stages, stage, k, seen);
    ProposedGrows(q, stages, With(stages, stage, k, seen), Item(stage, seen));
  }

  lemma ProposedGrows(q: Request, stages: Stages, after: Stages, i: Item)
    requires Holds(q.policy) && IsConcern(q.policy, i) && Items(after) == Items(stages) + {i}
    ensures Rank(Proposed(q, stages)) <= Rank(Proposed(q, after)) && Proposed(q, after) != Ready
  {
    var few, many := Items(stages), Items(after);
    FindingsGrow(q.policy, few, many);
    ConcernIsFound(q.policy, many, i);
    ProposalGrows(q.required && !q.complete, Findings(q.policy, few), HasGap(q, stages), Findings(q.policy, many), HasGap(q, after));
  }

  lemma ConcernIsFound(policy: Policy, items: set<Item>, i: Item)
    requires Holds(policy) && i in items && IsConcern(policy, i)
    ensures HasHold(Findings(policy, items)) || HasUnqualified(Findings(policy, items))
  {
    assert i in ConcernsOn(policy, items, i.seen.risk);
    assert i.seen.risk in Findings(policy, items);
  }

  lemma ProposalGrows(blocked: bool, before: map<string, Finding>, gap: bool, after: map<string, Finding>, gap': bool)
    requires forall r :: r in before ==> r in after && after[r].power == before[r].power && (before[r].qualified ==> after[r].qualified)
    requires HasHold(after) || HasUnqualified(after)
    ensures Rank(Propose(blocked, before, gap)) <= Rank(Propose(blocked, after, gap'))
    ensures Propose(blocked, after, gap') != Ready
  {
    if HasEnforceable(before) {
      var r :| r in before && before[r].qualified && before[r].power.Enforce?;
      assert after[r].qualified && after[r].power.Enforce?;
    }
  }

  ghost predicate NeverLowers(q: Request, stages: Stages, mode: Mode, stage: string, k: nat, seen: Observation) {
    IsConcern(q.policy, Item(stage, seen)) && k <= (if stage in stages then |stages[stage]| else 0) ==>
      Rank(Decide(q, stages, mode)) <= Rank(Decide(q, With(stages, stage, k, seen), mode))
  }

  /** The decision under a policy never falls when an evidenced concern is added. */
  ghost predicate IsMonotone(policy: Policy) {
    forall q: Request, stages, mode, stage, k, seen :: q.policy == policy ==> NeverLowers(q, stages, mode, stage, k, seen)
  }

  // ───────── the reducer as it runs ─────────

  type Groups = map<string, seq<Item>>

  /** The concerns among `items`, by risk, of the synthesis or of the other kind. */
  ghost predicate Grouped(policy: Policy, items: set<Item>, groups: Groups, synthesis: bool) {
    && (forall r, i :: r in groups && i in groups[r] ==>
          i in items && IsConcern(policy, i) && i.seen.risk == r && IsSynthesis(i) == synthesis)
    && (forall i :: i in items && IsConcern(policy, i) && IsSynthesis(i) == synthesis ==>
          i.seen.risk in groups && i in groups[i.seen.risk])
    && (forall r :: r in groups ==> groups[r] != [])
  }

  function Append(groups: Groups, i: Item): Groups {
    groups[i.seen.risk := (if i.seen.risk in groups then groups[i.seen.risk] else []) + [i]]
  }

  lemma AppendGroups(policy: Policy, items: set<Item>, groups: Groups, i: Item, synthesis: bool)
    requires Grouped(policy, items, groups, synthesis)
    ensures IsConcern(policy, i) && IsSynthesis(i) == synthesis ==> Grouped(policy, items + {i}, Append(groups, i), synthesis)
    ensures !IsConcern(policy, i) || IsSynthesis(i) != synthesis ==> Grouped(policy, items + {i}, groups, synthesis)
  {
    if IsConcern(policy, i) && IsSynthesis(i) == synthesis {
      var after := Append(groups, i);
      assert Last(after[i.seen.risk]) == i;
    }
  }

  method GroupStage(policy: Policy, stage: string, observations: seq<Observation>, grouped: Groups, synthesis: Groups, ghost items: set<Item>)
    returns (grouped': Groups, synthesis': Groups)
    requires Grouped(policy, items, grouped, false) && Grouped(policy, items, synthesis, true)
    ensures var all := items + (set k | 0 <= k < |observations| :: Item(stage, observations[k]));
            Grouped(policy, all, grouped', false) && Grouped(policy, all, synthesis', true)
  {
    grouped', synthesis' := grouped, synthesis;
    ghost var all := items;
    var k := 0;
    while k < |observations|
      invariant k <= |observations|
      invariant all == items + (set j | 0 <= j < k :: Item(stage, observations[j]))
      invariant Grouped(policy, all, grouped', false) && Grouped(policy, all, synthesis', true)
    {
      var i := Item(stage, observations[k]);
      AppendGroups(policy, all, grouped', i, false);
      AppendGroups(policy, all, synthesis', i, true);
      if IsConcern(policy, i) {
        if IsSynthesis(i) {
          synthesis' := Append(synthesis', i);
        } else {
          grouped' := Append(grouped', i);
        }
      }
      all := all + {i};
      k := k + 1;
    }
  }

  ghost function ItemsOf(stages: Stages, done: set<string>): set<Item> {
    set s, k | s in stages && s in done && 0 <= k < |stages[s]| :: Item(s, stages[s][k])
  }

  method GroupConcerns(policy: Policy, stages: Stages) returns (grouped: Groups, synthesis: Groups)
    ensures Grouped(policy, Items(stages), grouped, false) && Grouped(policy, Items(stages), synthesis, true)
  {
    grouped, synthesis := map[], map[];
    var todo := stages.Keys;
    while todo != {}
      invariant todo <= stages.Keys
      invariant Grouped(policy, ItemsOf(stages, stages.Keys - todo), grouped, false)
      invariant Grouped(policy, ItemsOf(stages, stages.Keys - todo), synthesis, true)
      decreases |todo|
    {
      var stage :| stage in todo;
      ghost var done := stages.Keys - todo;
      grouped, synthesis := GroupStage(policy, stage, stages[stage], grouped, synthesis, ItemsOf(stages, done));
      assert ItemsOf(stages, done + {stage}) == ItemsOf(stages, done) + (set k | 0 <= k < |stages[stage]| :: Item(stage, stages[stage][k]));
      todo := todo - {stage};
      assert stages.Keys - todo == done + {stage};
    }
    assert ItemsOf(stages, stages.Keys) == Items(stages);
    assert stages.Keys - todo == stages.Keys;
  }

  function InGroup(groups: Groups, risk: string): set<Item> {
    if risk in groups then set i | i in groups[risk] else {}
  }

  lemma GroupsAreConcerns(policy: Policy, items: set<Item>, grouped: Groups, synthesis: Groups, risk: string)
    requires Grouped(policy, items, grouped, false) && Grouped(policy, items, synthesis, true)
    ensures InGroup(grouped, risk) + InGroup(synthesis, risk) == ConcernsOn(policy, items, risk)
    ensures risk in grouped.Keys + synthesis.Keys <==> risk in policy && ConcernsOn(policy, items, risk) != {}
  {
    if risk in grouped { assert grouped[risk][0] in InGroup(grouped, risk); }
    if risk in synthesis { assert synthesis[risk][0] in InGroup(synthesis, risk); }
  }

  function InEither(grouped: Groups, synthesis: Groups, risk: string): set<Item> {
    InGroup(grouped, risk) + InGroup(synthesis, risk)
  }

  /** The findings of every risk that gathered a concern. */
  function FindingsOn(policy: Policy, grouped: Groups, synthesis: Groups, risks: set<string>): map<string, Finding>
    requires risks <= policy.Keys
  {
    map r | r in risks :: FindingOf(policy[r], InEither(grouped, synthesis, r))
  }

  lemma GroupsGiveRisks(policy: Policy, items: set<Item>, grouped: Groups, synthesis: Groups)
    requires Grouped(policy, items, grouped, false) && Grouped(policy, items, synthesis, true)
    ensures grouped.Keys + synthesis.Keys == Findings(policy, items).Keys <= policy.Keys
  {
    forall r ensures r in grouped.Keys + synthesis.Keys <==> r in Findings(policy, items).Keys {
      GroupsAreConcerns(policy, items, grouped, synthesis, r);
    }
  }

  lemma SameConcernsSameFindings(policy: Policy, items: set<Item>, grouped: Groups, synthesis: Groups, risks: set<string>)
    requires risks == Findings(policy, items).Keys
    requires forall r :: r in risks ==> InEither(grouped, synthesis, r) == ConcernsOn(policy, items, r)
    ensures FindingsOn(policy, grouped, synthesis, risks) == Findings(policy, items)
  {
  }

  lemma GroupsGiveFindings(policy: Policy, items: set<Item>, grouped: Groups, synthesis: Groups)
    requires Grouped(policy, items, grouped, false) && Grouped(policy, items, synthesis, true)
    ensures grouped.Keys + synthesis.Keys <= policy.Keys
    ensures FindingsOn(policy, grouped, synthesis, grouped.Keys + synthesis.Keys) == Findings(policy, items)
  {
    GroupsGiveRisks(policy, items, grouped, synthesis);
    forall r ensures InEither(grouped, synthesis, r) == ConcernsOn(policy, items, r) {
      GroupsAreConcerns(policy, items, grouped, synthesis, r);
    }
    SameConcernsSameFindings(policy, items, grouped, synthesis, grouped.Keys + synthesis.Keys);
  }

  method QualifiedFindings(policy: Policy, stages: Stages) returns (findings: map<string, Finding>)
    ensures findings == Findings(policy, Items(stages))
  {
    var grouped, synthesis := GroupConcerns(policy, stages);
    GroupsGiveFindings(policy, Items(stages), grouped, synthesis);
    findings := FindingsOn(policy, grouped, synthesis, grouped.Keys + synthesis.Keys);
  }

  /** The synthesis states of the required risks: the last reply on each. */
  method ObservedStates(synthesis: seq<Observation>, required: set<string>) returns (observed: map<string, string>)
    ensures forall r :: r in observed <==> r in required && LastState(synthesis, r).Some?
    ensures forall r :: r in observed ==> Some(observed[r]) == LastState(synthesis, r)
  {
    observed := map[];
    var k := 0;
    while k < |synthesis|
      invariant k <= |synthesis|
      invariant forall r :: r in observed <==> r in required && LastState(synthesis[..k], r).Some?
      invariant forall r :: r in observed ==> Some(observed[r]) == LastState(synthesis[..k], r)
    {
      assert DropLast(synthesis[..k + 1]) == synthesis[..k];
      if synthesis[k].risk in required {
        observed := observed[synthesis[k].risk := synthesis[k].state];
      }
      k := k + 1;
    }
    assert synthesis[..k] == synthesis;
  }

  method ProposeFor(q: Request, stages: Stages) returns (proposed: Disposition)
    ensures proposed == Proposed(q, stages)
  {
    var findings := QualifiedFindings(q.policy, stages);
    var required := set r | r in q.requiredRisks && r in q.policy;
    var synthesis := if SYNTHESIS in stages then stages[SYNTHESIS] else [];
    var observed := ObservedStates(synthesis, required);
    var missing := set r | r in required && r !in observed;
    var unresolved := set r | r in observed && observed[r] == "not_checked";
    GapIsMissingOrUnresolved(q, stages, required, missing, unresolved);
    proposed := Ready;
    if q.required && !q.complete {
      proposed := HoldBack;
    } else if HasEnforceable(findings) {
      proposed := Reject;
    } else if HasHold(findings) {
      proposed := HoldBack;
    } else if missing != {} || unresolved != {} {
      proposed := HoldBack;
    } else if HasUnqualified(findings) {
      proposed := HoldBack;
    }
  }

  lemma GapIsMissingOrUnresolved(q: Request, stages: Stages, required: set<string>, missing: set<string>, unresolved: set<string>)
    requires required == set r | r in q.requiredRisks && r in q.policy
    requires forall r :: r in missing <==> r in required && (SYNTHESIS !in stages || LastState(stages[SYNTHESIS], r).None?)
    requires forall r :: r in unresolved <==> r in required && SYNTHESIS in stages && LastState(stages[SYNTHESIS], r) == Some("not_checked")
    ensures HasGap(q, stages) <==> missing != {} || unresolved != {}
  {
    if HasGap(q, stages) {
      var r :| r in q.requiredRisks && r in q.policy && !IsCovered(stages, r);
      assert r in required && r in missing + unresolved;
    } else {
      forall r ensures r !in missing && r !in unresolved {
        assert r in required ==> IsCovered(stages, r);
      }
    }
  }

  /** The canonical decision: neither gate is changed by the other. */
  method DecideRelease(q: Request, stages: Stages, mode: Mode)
    returns (disposition: Disposition, proposed: Disposition, gate: Gate)
    ensures disposition == Decide(q, stages, mode) && proposed == Proposed(q, stages)
    ensures gate == (match mode case Shadow => Shadowed
                                case HoldMode => Gated(if proposed.Ready? then Ready else HoldBack)
                                case EnforceMode => Gated(proposed))
  {
    var deterministic := DeterministicGate(q.deterministic);
    proposed := ProposeFor(q, stages);
    gate := Gated(proposed);
    if mode == Shadow {
      gate := Shadowed;
      disposition := deterministic;
    } else if mode == HoldMode {
      gate := Gated(if proposed == HoldBack || proposed == Reject then HoldBack else Ready);
      disposition :=
        if deterministic == Reject then Reject
        else if deterministic == HoldBack || gate == Gated(HoldBack) then HoldBack
        else Ready;
    } else {
      disposition :=
        if Reject in {deterministic, proposed} then Reject
        else if HoldBack in {deterministic, proposed} then HoldBack
        else Ready;
    }
  }

  // ───────── the witness: a rule that may not hold can clear a release ─────────

  function Name(n: nat): (name: string)
    ensures |name| == n + 1
  {
    if n == 0 then "x" else "x" + Name(n - 1)
  }

  function Names(n: int): set<string> { set i | 0 <= i < n :: Name(i) }

  lemma {:induction false} NamesAreDistinct(n: nat)
    ensures |Names(n)| == n
  {
    if n > 0 {
      NamesAreDistinct(n - 1);
      assert Names(n) == Names(n - 1) + {Name(n - 1)};
      assert forall i :: 0 <= i < n - 1 ==> |Name(i)| != |Name(n - 1)|;
    }
  }

  /** A concern from the `i`-th source that meets every requirement of an advisory rule. */
  function Witness(rule: Rule, risk: string, i: nat): Observation {
    Observation("concern", risk, {Name(i)}, "", Name(i), rule.minConfidence, "", "", Names(rule.minTranscriptions), true)
  }

  function Enough(rule: Rule): nat { Max(1, Max(rule.minSources, rule.minEvidence)) }

  function Witnesses(rule: Rule, risk: string): Stages {
    map["picture" := seq(Enough(rule), i requires 0 <= i => Witness(rule, risk, i))]
  }

  /** Concerns of one risk alone, from enough sources, unqualified until synthesis agrees. */
  lemma WitnessesAwaitSynthesis(policy: Policy, risk: string)
    requires risk in policy && policy[risk].power.Advise?
    ensures var items := Items(Witnesses(policy[risk], risk));
            && ConcernsOn(policy, items, risk) == items && items != {}
            && (forall r :: r in policy && r != risk ==> ConcernsOn(policy, items, r) == {})
            && Accepted(policy[risk], items) == items
            && |SourcesOf(items)| == Enough(policy[risk]) == |EvidenceOf(items)|
            && !IsAgreed(policy[risk], items)
  {
    var rule := policy[risk];
    var items := Items(Witnesses(rule, risk));
    var n := Enough(rule);
    if rule.minTranscriptions > 0 { NamesAreDistinct(rule.minTranscriptions); }
    NamesAreDistinct(n);
    var list := Witnesses(rule, risk)["picture"];
    forall i | i in items ensures exists k :: 0 <= k < n && i == Item("picture", Witness(rule, risk, k)) {
      var k :| 0 <= k < |list| && i == Item("picture", list[k]);
    }
    forall k | 0 <= k < n ensures Item("picture", Witness(rule, risk, k)) in items {
      assert list[k] == Witness(rule, risk, k);
    }
    assert Item("picture", Witness(rule, risk, 0)) in items;
    forall name ensures (name in SourcesOf(items) <==> name in Names(n)) && (name in EvidenceOf(items) <==> name in Names(n)) {
      if name in Names(n) {
        var k :| 0 <= k < n && name == Name(k);
        assert Item("picture", Witness(rule, risk, k)) in items;
      }
    }
    assert SourcesOf(items) == Names(n) && EvidenceOf(items) == Names(n);
  }

  lemma SynthesisQualifies(policy: Policy, risk: string, items: set<Item>, i: Item)
    requires risk in policy && IsConcern(policy, i) && i.seen.risk == risk && IsSynthesis(i) && IsEligible(policy[risk], i)
    requires ConcernsOn(policy, items, risk) == items && Accepted(policy[risk], items) == items
    requires forall r :: r in policy && r != risk ==> ConcernsOn(policy, items, r) == {}
    requires |SourcesOf(items)| >= policy[risk].minSources && |EvidenceOf(items)| >= policy[risk].minEvidence
    ensures var findings := Findings(policy, items + {i});
            findings.Keys == {risk} && findings[risk].qualified && findings[risk].power == policy[risk].power
  {
    var many := items + {i};
    assert ConcernsOn(policy, many, risk) == many;
    assert Accepted(policy[risk], many) == items;
    assert i in many;
    forall r | r in policy && r != risk ensures ConcernsOn(policy, many, r) == {} {
      assert ConcernsOn(policy, many, r) <= ConcernsOn(policy, items, r);
    }
  }

  lemma WitnessesHold(policy: Policy, risk: string)
    requires risk in policy && policy[risk].power.Advise?
    ensures Proposed(Request(Some("pass"), true, false, policy, {}), Witnesses(policy[risk], risk)) == HoldBack
  {
    var items := Items(Witnesses(policy[risk], risk));
    WitnessesAwaitSynthesis(policy, risk);
    assert Findings(policy, items).Keys == {risk};
  }

  lemma WitnessIsEligible(rule: Rule, risk: string, i: nat)
    requires rule.power.Advise?
    ensures IsEligible(rule, Item(SYNTHESIS, Witness(rule, risk, i)))
  {
    if rule.minTranscriptions > 0 { NamesAreDistinct(rule.minTranscriptions); }
  }

  lemma AgreedWitnessesClear(policy: Policy, risk: string, items: set<Item>)
    requires risk in policy && policy[risk].power.Advise?
    requires items == Items(Witnesses(policy[risk], risk)) + {Item(SYNTHESIS, Witness(policy[risk], risk, 0))}
    ensures Propose(false, Findings(policy, items), false) == Ready
  {
    WitnessesAwaitSynthesis(policy, risk);
    WitnessIsEligible(policy[risk], risk, 0);
    SynthesisQualifies(policy, risk, Items(Witnesses(policy[risk], risk)), Item(SYNTHESIS, Witness(policy[risk], risk, 0)));
  }

  lemma NothingRequiredLeavesNoGap(policy: Policy, stages: Stages)
    ensures var q := Request(Some("pass"), true, false, policy, {});
            Proposed(q, stages) == Propose(false, Findings(policy, Items(stages)), false)
  {
  }

  lemma ClearedIsLowered(q: Request, stages: Stages, stage: string, k: nat, seen: Observation)
    requires k <= (if stage in stages then |stages[stage]| else 0) && IsConcern(q.policy, Item(stage, seen))
    requires q.deterministic == Some("pass")
    requires Proposed(q, stages) == HoldBack && Proposed(q, With(stages, stage, k, seen)) == Ready
    ensures !NeverLowers(q, stages, EnforceMode, stage, k, seen)
  {
  }

  /** Synthesis agreeing with a held concern releases what was held back. */
  lemma AdvisoryRuleCanClear(policy: Policy, risk: string) returns (q: Request, stages: Stages, seen: Observation)
    requires risk in policy && policy[risk].power.Advise?
    ensures q.policy == policy && !NeverLowers(q, stages, EnforceMode, SYNTHESIS, 0, seen)
  {
    q := Request(Some("pass"), true, false, policy, {});
    stages, seen := Witnesses(policy[risk], risk), Witness(policy[risk], risk, 0);
    WithAddsOne(stages, SYNTHESIS, 0, seen);
    WitnessesHold(policy, risk);
    AgreedWitnessesClear(policy, risk, Items(With(stages, SYNTHESIS, 0, seen)));
    NothingRequiredLeavesNoGap(policy, With(stages, SYNTHESIS, 0, seen));
    ClearedIsLowered(q, stages, SYNTHESIS, 0, seen);
  }

  lemma HoldsNeverLowers(q: Request, stages: Stages, mode: Mode, stage: string, k: nat, seen: Observation)
    requires Holds(q.policy)
    ensures NeverLowers(q, stages, mode, stage, k, seen)
  {
    if IsConcern(q.policy, Item(stage, seen)) && k <= (if stage in stages then |stages[stage]| else 0) {
      ConcernNeverLowers(q, stages, mode, stage, k, seen);
    }
  }

  lemma HoldingIsMonotone(policy: Policy)
    requires Holds(policy)
    ensures IsMonotone(policy)
  {
    forall q: Request, stages: Stages, mode: Mode, stage: string, k: nat, seen: Observation | q.policy == policy
      ensures NeverLowers(q, stages, mode, stage, k, seen)
    {
      HoldsNeverLowers(q, stages, mode, stage, k, seen);
    }
  }

  /** The decision is monotone in concerns exactly when every rule may hold or enforce. */
  lemma MonotoneIffEveryRuleHolds(policy: Policy)
    ensures IsMonotone(policy) <==> Holds(policy)
  {
    if Holds(policy) {
      HoldingIsMonotone(policy);
    } else {
      var risk :| risk in policy && !policy[risk].power.Enforce? && !policy[risk].power.Hold?;
      var q, stages, seen := AdvisoryRuleCanClear(policy, risk);
    }
  }
}
