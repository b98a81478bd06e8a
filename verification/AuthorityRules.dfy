/** The delivery decision in terms of what was observed: exactly when a delivery is ready, and exactly
    when it is rejected, over the status text and the model's observations alone. */
module AuthorityRules {
  import opened Basics
  import opened Authority

  ghost predicate Seen(stages: Stages, s: string, k: int) { s in stages && 0 <= k < |stages[s]| }

  /** An evidenced concern on a risk. */
  ghost predicate Raises(o: Observation, risk: string) {
    o.state == "concern" && o.risk == risk && o.evidence != {}
  }

  ghost predicate FromSynthesis(s: string, o: Observation) { s == "synthesis" || o.role == "synthesis" }

  /** The observation meets all a rule asks for. */
  ghost predicate Vouches(rule: Rule, o: Observation) {
    && o.source != "" && o.confidence >= rule.minConfidence
    && (rule.power == Enforce ==> rule.severity in {"", o.severity} && rule.intent in {"", o.intent})
    && |o.transcriptions| >= rule.minTranscriptions
    && (o.textTransition || !rule.textTransition)
  }

  ghost predicate Witnessed(rule: Rule, risk: string, stages: Stages, s: string, k: int) {
    Seen(stages, s, k) && Raises(stages[s][k], risk) && !FromSynthesis(s, stages[s][k]) && Vouches(rule, stages[s][k])
  }

  ghost function WitnessSources(rule: Rule, risk: string, stages: Stages): set<string> {
    set s, k | s in stages && 0 <= k < |stages[s]| && Witnessed(rule, risk, stages, s, k) :: stages[s][k].source
  }

  ghost function WitnessEvidence(rule: Rule, risk: string, stages: Stages): set<string> {
    set s, k, e | s in stages && 0 <= k < |stages[s]| && e in stages[s][k].evidence && Witnessed(rule, risk, stages, s, k) :: e
  }

  ghost predicate SynthesisAgrees(rule: Rule, risk: string, stages: Stages) {
    exists s, k :: Seen(stages, s, k) && Raises(stages[s][k], risk) && FromSynthesis(s, stages[s][k]) && Vouches(rule, stages[s][k])
  }

  /** Some concern stands on the risk. */
  ghost predicate Stands(risk: string, stages: Stages) {
    exists s, k :: Seen(stages, s, k) && Raises(stages[s][k], risk)
  }

  /** And enough of it is corroborated. */
  ghost predicate Proven(rule: Rule, risk: string, stages: Stages) {
    && |WitnessSources(rule, risk, stages)| >= rule.minSources
    && |WitnessEvidence(rule, risk, stages)| >= rule.minEvidence
    && SynthesisAgrees(rule, risk, stages)
  }

  /** The synthesis's last word on the risk is not that it went unchecked. */
  ghost predicate Checked(risk: string, stages: Stages) {
    "synthesis" in stages && exists k :: IsLastWord(stages["synthesis"], risk, k) && stages["synthesis"][k].state != "not_checked"
  }

  ghost predicate IsLastWord(synthesis: seq<Observation>, risk: string, k: int) {
    0 <= k < |synthesis| && synthesis[k].risk == risk && forall j :: k < j < |synthesis| ==> synthesis[j].risk != risk
  }

  lemma {:induction false} LastWordDecides(synthesis: seq<Observation>, risk: string, k: nat)
    requires IsLastWord(synthesis, risk, k)
    ensures LastState(synthesis, risk) == Some(synthesis[k].state)
  {
    if k < |synthesis| - 1 {
      LastWordDecides(DropLast(synthesis), risk, k);
    }
  }

  lemma {:induction false} LastWordIsThere(synthesis: seq<Observation>, risk: string) returns (k: nat)
    requires LastState(synthesis, risk).Some?
    ensures IsLastWord(synthesis, risk, k)
  {
    if Last(synthesis).risk == risk {
      k := |synthesis| - 1;
    } else {
      k := LastWordIsThere(DropLast(synthesis), risk);
    }
  }

  lemma CoveredIffChecked(stages: Stages, risk: string)
    ensures IsCovered(stages, risk) <==> Checked(risk, stages)
  {
    if IsCovered(stages, risk) {
      var k := LastWordIsThere(stages["synthesis"], risk);
      LastWordDecides(stages["synthesis"], risk, k);
    }
    if Checked(risk, stages) {
      var k :| IsLastWord(stages["synthesis"], risk, k) && stages["synthesis"][k].state != "not_checked";
      LastWordDecides(stages["synthesis"], risk, k);
    }
  }

  lemma ConcernByPlace(policy: Policy, stages: Stages, risk: string, i: Item)
    requires risk in policy
    ensures i in ConcernsOn(policy, Items(stages), risk) <==>
      exists k :: Seen(stages, i.stage, k) && stages[i.stage][k] == i.seen && Raises(i.seen, risk)
  {
    if k :| Seen(stages, i.stage, k) && stages[i.stage][k] == i.seen && Raises(i.seen, risk) {
      assert Item(i.stage, stages[i.stage][k]) in Items(stages);
    }
  }

  lemma StandsIffConcerns(policy: Policy, stages: Stages, risk: string)
    requires risk in policy
    ensures Stands(risk, stages) <==> ConcernsOn(policy, Items(stages), risk) != {}
  {
    if s, k :| Seen(stages, s, k) && Raises(stages[s][k], risk) {
      ConcernByPlace(policy, stages, risk, Item(s, stages[s][k]));
      assert Item(s, stages[s][k]) in ConcernsOn(policy, Items(stages), risk);
    }
    if i :| i in ConcernsOn(policy, Items(stages), risk) {
      ConcernByPlace(policy, stages, risk, i);
    }
  }

  lemma AcceptedByPlace(policy: Policy, stages: Stages, risk: string, i: Item)
    requires risk in policy
    ensures i in Accepted(policy[risk], ConcernsOn(policy, Items(stages), risk)) <==>
      exists k :: Witnessed(policy[risk], risk, stages, i.stage, k) && stages[i.stage][k] == i.seen
  {
    ConcernByPlace(policy, stages, risk, i);
  }

  lemma SourcesByPlace(policy: Policy, stages: Stages, risk: string)
    requires risk in policy
    ensures SourcesOf(Accepted(policy[risk], ConcernsOn(policy, Items(stages), risk))) == WitnessSources(policy[risk], risk, stages)
  {
    var rule := policy[risk];
    var accepted := Accepted(rule, ConcernsOn(policy, Items(stages), risk));
    forall x ensures x in SourcesOf(accepted) <==> x in WitnessSources(rule, risk, stages) {
      if x in SourcesOf(accepted) {
        var i :| i in accepted && i.seen.source == x;
        AcceptedByPlace(policy, stages, risk, i);
      }
      if x in WitnessSources(rule, risk, stages) {
        var s, k :| s in stages && 0 <= k < |stages[s]| && Witnessed(rule, risk, stages, s, k) && stages[s][k].source == x;
        AcceptedByPlace(policy, stages, risk, Item(s, stages[s][k]));
      }
    }
  }

  lemma EvidenceByPlace(policy: Policy, stages: Stages, risk: string)
    requires risk in policy
    ensures EvidenceOf(Accepted(policy[risk], ConcernsOn(policy, Items(stages), risk))) == WitnessEvidence(policy[risk], risk, stages)
  {
    var rule := policy[risk];
    var accepted := Accepted(rule, ConcernsOn(policy, Items(stages), risk));
    forall x ensures x in EvidenceOf(accepted) <==> x in WitnessEvidence(rule, risk, stages) {
      if x in EvidenceOf(accepted) {
        var i :| i in accepted && x in i.seen.evidence;
        AcceptedByPlace(policy, stages, risk, i);
      }
      if x in WitnessEvidence(rule, risk, stages) {
        var s, k :| s in stages && 0 <= k < |stages[s]| && x in stages[s][k].evidence && Witnessed(rule, risk, stages, s, k);
        AcceptedByPlace(policy, stages, risk, Item(s, stages[s][k]));
      }
    }
  }

  lemma AgreedByPlace(policy: Policy, stages: Stages, risk: string)
    requires risk in policy
    ensures IsAgreed(policy[risk], ConcernsOn(policy, Items(stages), risk)) <==> SynthesisAgrees(policy[risk], risk, stages)
  {
    var rule := policy[risk];
    var concerns := ConcernsOn(policy, Items(stages), risk);
    if i :| i in concerns && IsSynthesis(i) && IsEligible(rule, i) {
      ConcernByPlace(policy, stages, risk, i);
    }
    if s, k :| Seen(stages, s, k) && Raises(stages[s][k], risk) && FromSynthesis(s, stages[s][k]) && Vouches(rule, stages[s][k]) {
      var i := Item(s, stages[s][k]);
      ConcernByPlace(policy, stages, risk, i);
      assert i in concerns && IsSynthesis(i) && IsEligible(rule, i);
    }
  }

  ghost function WitnessStages(rule: Rule, risk: string, stages: Stages): set<string> {
    set s, k | s in stages && 0 <= k < |stages[s]| && Witnessed(rule, risk, stages, s, k) :: s
  }

  function StagesOf(items: set<Item>): set<string> { set i | i in items :: i.stage }

  lemma StagesByPlace(policy: Policy, stages: Stages, risk: string)
    requires risk in policy
    ensures StagesOf(Accepted(policy[risk], ConcernsOn(policy, Items(stages), risk))) == WitnessStages(policy[risk], risk, stages)
  {
    var rule := policy[risk];
    var accepted := Accepted(rule, ConcernsOn(policy, Items(stages), risk));
    forall x ensures x in StagesOf(accepted) <==> x in WitnessStages(rule, risk, stages) {
      if x in StagesOf(accepted) {
        var i :| i in accepted && i.stage == x;
        AcceptedByPlace(policy, stages, risk, i);
      }
      if x in WitnessStages(rule, risk, stages) {
        var k :| 0 <= k < |stages[x]| && Witnessed(rule, risk, stages, x, k);
        AcceptedByPlace(policy, stages, risk, Item(x, stages[x][k]));
      }
    }
  }

  /** What a finding says: the rule's power, whether the concern is proven, and what vouches for it. */
  ghost predicate Reports(f: Finding, rule: Rule, risk: string, stages: Stages) {
    && f.power == rule.power && (f.qualified <==> Proven(rule, risk, stages))
    && f.stages == WitnessStages(rule, risk, stages) && f.sources == WitnessSources(rule, risk, stages)
    && f.evidence == WitnessEvidence(rule, risk, stages) && (f.synthesis <==> SynthesisAgrees(rule, risk, stages))
  }

  lemma FindingReports(policy: Policy, stages: Stages, risk: string)
    requires risk in policy
    ensures Reports(FindingOf(policy[risk], ConcernsOn(policy, Items(stages), risk)), policy[risk], risk, stages)
  {
    SourcesByPlace(policy, stages, risk);
    EvidenceByPlace(policy, stages, risk);
    AgreedByPlace(policy, stages, risk);
    StagesByPlace(policy, stages, risk);
    var concerns := ConcernsOn(policy, Items(stages), risk);
    assert FindingOf(policy[risk], concerns).stages == StagesOf(Accepted(policy[risk], concerns));
  }

  /** A risk has a finding exactly when a concern stands on it, and the finding reports it. */
  lemma FindingsByObservation(policy: Policy, stages: Stages, risk: string)
    ensures risk in Findings(policy, Items(stages)) <==> risk in policy && Stands(risk, stages)
    ensures risk in policy && Stands(risk, stages) ==>
      Reports(Findings(policy, Items(stages))[risk], policy[risk], risk, stages)
  {
    if risk in policy {
      StandsIffConcerns(policy, stages, risk);
      FindingReports(policy, stages, risk);
    }
  }

  // ───────── the decision ─────────

  /** The AI gate must have run and did not. */
  ghost predicate Blocked(q: Request) { q.required && !q.complete }

  /** A rule that may reject has its concern proven. */
  ghost predicate SomeProvenEnforced(q: Request, stages: Stages) {
    exists r :: r in q.policy && q.policy[r].power == Enforce && Stands(r, stages) && Proven(q.policy[r], r, stages)
  }

  /** Every concern that stands is proven, and under a rule that only advises. */
  ghost predicate OnlyAdvised(q: Request, stages: Stages) {
    forall r :: r in q.policy && Stands(r, stages) ==> Proven(q.policy[r], r, stages) && q.policy[r].power == Advise
  }

  ghost predicate AllChecked(q: Request, stages: Stages) {
    forall r :: r in q.requiredRisks && r in q.policy ==> Checked(r, stages)
  }

  lemma ProposedByObservation(q: Request, stages: Stages)
    ensures Proposed(q, stages) == Reject <==> !Blocked(q) && SomeProvenEnforced(q, stages)
    ensures Proposed(q, stages) == Ready <==> !Blocked(q) && OnlyAdvised(q, stages) && AllChecked(q, stages)
  {
    var findings := Findings(q.policy, Items(stages));
    forall r ensures
      && (r in findings <==> r in q.policy && Stands(r, stages))
      && (r in findings ==> findings[r].power == q.policy[r].power && (findings[r].qualified <==> Proven(q.policy[r], r, stages)))
    {
      FindingsByObservation(q.policy, stages, r);
      if r in findings { assert Reports(findings[r], q.policy[r], r, stages); }
    }
    forall r ensures IsCovered(stages, r) <==> Checked(r, stages) {
      CoveredIffChecked(stages, r);
    }
    assert HasEnforceable(findings) <==> SomeProvenEnforced(q, stages);
    assert !HasHold(findings) && !HasUnqualified(findings) <==> OnlyAdvised(q, stages);
    assert !HasGap(q, stages) <==> AllChecked(q, stages);
  }

  /** A delivery is rejected exactly when the instruments failed it, or, where AI may reject, an
      enforced concern is proven and nothing required is outstanding. */
  lemma RejectedIff(q: Request, stages: Stages, mode: Mode)
    ensures Decide(q, stages, mode) == Reject <==>
      || q.deterministic == Some("fail")
      || (mode == EnforceMode && !Blocked(q) && SomeProvenEnforced(q, stages))
  {
    ProposedByObservation(q, stages);
  }

  /** It is ready exactly when the instruments passed it and, but in shadow, the AI gate ran if it
      must, every standing concern is proven and only advised on, and every required risk was checked. */
  lemma ReadyIff(q: Request, stages: Stages, mode: Mode)
    ensures Decide(q, stages, mode) == Ready <==>
      && q.deterministic == Some("pass")
      && (mode == Shadow || (!Blocked(q) && OnlyAdvised(q, stages) && AllChecked(q, stages)))
  {
    ProposedByObservation(q, stages);
  }

  /** Whatever a model observes: only what the instruments passed is released, what they failed is
      rejected, and in shadow nothing else counts. */
  lemma InstrumentsBound(q: Request, stages: Stages, mode: Mode)
    ensures Decide(q, stages, mode) == Ready ==> q.deterministic == Some("pass")
    ensures q.deterministic == Some("fail") ==> Decide(q, stages, mode) == Reject
    ensures mode == Shadow ==>
      Decide(q, stages, mode) == if q.deterministic == Some("fail") then Reject else if q.deterministic == Some("pass") then Ready else HoldBack
  {
    ReadyIff(q, stages, mode);
    RejectedIff(q, stages, mode);
  }
}
