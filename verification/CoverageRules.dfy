/** What the coverage validator says of a risk, in terms of the media, the checks by name, and the
    model's last word: exactly when each risk applies, and exactly what each status means. */
module CoverageRules {
  import opened Basics
  import opened Coverage

  // ───────── which risks apply ─────────

  ghost predicate Named(checks: seq<Check>, name: string) {
    exists i :: 0 <= i < |checks| && checks[i].name == name
  }

  ghost predicate SaysImf(checks: seq<Check>) {
    exists i :: 0 <= i < |checks| && checks[i].name == "imf_photon" && !checks[i].notImf
  }

  /** The media each registered risk is about. */
  function RuleFor(id: string): Rule {
    if id in {"certified_pse", "dead_stuck_pixels", "subtle_visual_artifacts", "creative_vs_defect", "color_trim_intent", "editorial_continuity"}
    then Video
    else if id in {"audio_transients", "channel_assignment", "spoken_language"} then Audio
    else if id == "lip_sync" then VideoAudio
    else if id == "caption_localization" then TextOrAudio
    else if id == "hdr_metadata" then Hdr
    else if id == "dolby_vision_rpu_canvas" then DolbyVision
    else if id == "dolby_audio_internals" then DolbyAudio
    else if id == "abr_playback" then Abr
    else if id == "as11_dpp_conformance" then Mxf
    else if id == "imf_edge_cases" then Imf
    else Always
  }

  /** The media has it, by its metadata or by a check that only such media gets. */
  ghost predicate IsOf(rule: Rule, m: Media, checks: seq<Check>) {
    match rule
    case Always => true
    case Video => m.video
    case Audio => m.audio
    case VideoAudio => m.video && m.audio
    case TextOrAudio => m.text || m.audio
    case Hdr => m.hdr || Named(checks, "mediainfo_hdr")
    case DolbyVision => m.dolbyVision || Named(checks, "hdr_dolby_vision")
    case DolbyAudio => m.dolbyAudio || Named(checks, "dolby_audio_metadata")
    case Abr => m.abr
    case Mxf => m.mxf
    case Imf => m.imf || SaysImf(checks)
  }

  lemma EarlyRegistryRule(i: nat)
    requires i < 9
    ensures REGISTRY[i].rule == RuleFor(REGISTRY[i].id)
  {
  }

  lemma LateRegistryRule(i: nat)
    requires 9 <= i < |REGISTRY|
    ensures REGISTRY[i].rule == RuleFor(REGISTRY[i].id)
  {
  }

  lemma RegistryRule(i: nat)
    requires i < |REGISTRY|
    ensures REGISTRY[i].rule == RuleFor(REGISTRY[i].id)
  {
    if i < 9 { EarlyRegistryRule(i); } else { LateRegistryRule(i); }
  }

  /** How far a risk can be settled: only two wholly by readings, and four by no model. */
  lemma RegistryScopes(i: nat)
    requires i < |REGISTRY|
    ensures var d := REGISTRY[i];
            && (d.scope == Full <==> d.id in {"imf_edge_cases", "encrypted_proprietary_streams"})
            && (d.scope == Certification <==> d.id == "certified_pse")
            && (MayNotSettle(d) <==> d.id in {"certified_pse", "color_trim_intent", "lip_sync", "channel_assignment"})
            && (d.support != [] <==> d.id in {"spoken_language", "caption_localization"})
  {
  }

  lemma NamedByPlace(checks: seq<Check>, name: string)
    ensures HasCheck(checks, name) <==> Named(checks, name)
  {
    if c :| c in checks && c.name == name {
      var i :| 0 <= i < |checks| && checks[i] == c;
    }
  }

  ghost predicate IsImfCheck(c: Check) { c.name == "imf_photon" && !c.notImf }

  lemma ImfByPlace(checks: seq<Check>)
    ensures (exists c :: c in checks && IsImfCheck(c)) <==> SaysImf(checks)
  {
    if c :| c in checks && IsImfCheck(c) {
      var i :| 0 <= i < |checks| && checks[i] == c;
    }
    if i :| 0 <= i < |checks| && checks[i].name == "imf_photon" && !checks[i].notImf {
      assert checks[i] in checks && IsImfCheck(checks[i]);
    }
  }

  lemma RuleAppliesIff(rule: Rule, media: Media, checks: seq<Check>)
    ensures Applies(rule, Context(media, checks)) <==> IsOf(rule, media, checks)
  {
    match rule
    case Hdr => NamedByPlace(checks, "mediainfo_hdr");
    case DolbyVision => NamedByPlace(checks, "hdr_dolby_vision");
    case DolbyAudio => NamedByPlace(checks, "dolby_audio_metadata");
    case Imf =>
      ImfByPlace(checks);
      assert (exists c :: c in checks && IsImfCheck(c)) <==> exists c :: c in checks && c.name == "imf_photon" && !c.notImf;
    case _ =>
  }

  /** Every registered risk applies to exactly the media it is about. */
  lemma RiskAppliesIff(i: nat, media: Media, checks: seq<Check>, model: map<string, string>, ai: AiState)
    requires i < |REGISTRY|
    ensures var entry := EntryOf(REGISTRY[i], media, checks, model, ai);
            && entry.risk == REGISTRY[i].id && (entry.applicable <==> IsOf(RuleFor(REGISTRY[i].id), media, checks))
            && (!entry.applicable ==> entry.status == "NOT_APPLICABLE")
            && (entry.applicable ==> entry.status == StatusOf(REGISTRY[i], checks, model, ai))
  {
    RegistryRule(i);
    RuleAppliesIff(REGISTRY[i].rule, media, checks);
  }

  // ───────── what a status means ─────────

  /** A check of the risk by an instrument: deterministic, hybrid, or of no stated source. */
  ghost predicate IsReading(d: Risk, c: Check) {
    c.name in d.checks && (c.source == None || c.source == Some("deterministic") || c.source == Some("hybrid"))
  }

  ghost predicate SomeReading(d: Risk, checks: seq<Check>, status: string) {
    exists c :: c in checks && IsReading(d, c) && c.status == status
  }

  /** Every reading of a risk that readings cover wholly passed, and there is one. */
  ghost predicate WhollyPassed(d: Risk, checks: seq<Check>) {
    && d.scope == Full && SomeReading(d, checks, "pass")
    && forall c :: c in checks && IsReading(d, c) ==> c.status == "pass"
  }

  /** The instruments leave the risk open. */
  ghost predicate IsOpen(d: Risk, checks: seq<Check>) {
    !SomeReading(d, checks, "fail") && !SomeReading(d, checks, "warn") && !WhollyPassed(d, checks)
  }

  /** The model speaks of it with this word. */
  ghost predicate ModelSays(d: Risk, model: map<string, string>, word: string) {
    d.id in model && model[d.id] == word
  }

  ghost predicate ModelIsSilent(d: Risk, model: map<string, string>) {
    d.id !in model || model[d.id] == ""
  }

  /** Risks no model may settle: certified ones, matters of intent, and what it judges unreliably. */
  ghost predicate MayNotSettle(d: Risk) { d.scope == Certification || d.scope == Intent || d.unreliable }

  ghost predicate SupportHas(d: Risk, checks: seq<Check>, status: string) {
    exists c :: c in checks && c.name in d.support && c.status == status
  }

  ghost predicate SupportPassed(d: Risk, checks: seq<Check>) {
    SupportHas(d, checks, "pass") && forall c :: c in checks && c.name in d.support ==> c.status == "pass"
  }

  /** Nobody said anything: the default answers. */
  ghost predicate IsUnanswered(d: Risk, checks: seq<Check>, model: map<string, string>) {
    && IsOpen(d, checks) && ModelIsSilent(d, model)
    && !SupportHas(d, checks, "fail") && !SupportHas(d, checks, "warn") && !SupportPassed(d, checks)
  }

  /** What the six statuses the validator gives mean. */
  ghost predicate Means(status: string, d: Risk, checks: seq<Check>, model: map<string, string>, ai: AiState) {
    if status == "CONFIRMED" then
      || (SomeReading(d, checks, "fail") && d.scope != Certification)
      || (IsOpen(d, checks) && ModelSays(d, model, "CONFIRMED") && !MayNotSettle(d))
    else if status == "SUSPECTED" then
      || (SomeReading(d, checks, "fail") && d.scope == Certification)
      || (SomeReading(d, checks, "warn") && !SomeReading(d, checks, "fail"))
      || (IsOpen(d, checks) && (ModelSays(d, model, "SUSPECTED") || (ModelSays(d, model, "CONFIRMED") && MayNotSettle(d))))
      || (IsOpen(d, checks) && ModelIsSilent(d, model) && (SupportHas(d, checks, "fail") || SupportHas(d, checks, "warn")))
    else if status == "CLEAR" then
      || WhollyPassed(d, checks)
      || (IsOpen(d, checks) && ModelSays(d, model, "CLEAR") && !MayNotSettle(d))
      || (IsOpen(d, checks) && ModelIsSilent(d, model) && SupportPassed(d, checks))
    else if status == "REVIEW_REQUIRED" then
      || (IsOpen(d, checks) && (ModelSays(d, model, "REVIEW_REQUIRED") || (ModelSays(d, model, "CLEAR") && MayNotSettle(d))))
      || (IsUnanswered(d, checks, model) && ai == Other && d.scope != Full)
    else if status == "UNVERIFIED" then
      || (IsOpen(d, checks) && ModelSays(d, model, "UNVERIFIED"))
      || (IsUnanswered(d, checks, model) && (ai == Unavailable || (ai == Other && d.scope == Full)))
    else if status == "BLOCKED" then
      || (IsOpen(d, checks) && ModelSays(d, model, "BLOCKED"))
      || (IsUnanswered(d, checks, model) && ai == Errored)
    else status != "" && IsOpen(d, checks) && ModelSays(d, model, status)
  }

  lemma InstrumentsByReading(d: Risk, checks: seq<Check>)
    ensures InstrumentVerdict(d, checks) ==
      if SomeReading(d, checks, "fail") then Some(if d.scope == Certification then "SUSPECTED" else "CONFIRMED")
      else if SomeReading(d, checks, "warn") then Some("SUSPECTED")
      else if WhollyPassed(d, checks) then Some("CLEAR") else None
  {
    forall c ensures Reads(d, c) <==> IsReading(d, c) {}
    assert (exists c :: c in checks && Reads(d, c) && IsBad(c)) <==> SomeReading(d, checks, "fail") || SomeReading(d, checks, "warn");
    assert (exists c :: c in checks && Reads(d, c) && c.status == "fail") <==> SomeReading(d, checks, "fail");
  }

  lemma SupportByCheck(d: Risk, checks: seq<Check>)
    ensures SupportVerdict(d, checks) ==
      if SupportHas(d, checks, "fail") || SupportHas(d, checks, "warn") then Some("SUSPECTED")
      else if SupportPassed(d, checks) then Some("CLEAR") else None
  {
    forall c ensures Supports(d, c) <==> c.name in d.support {}
    assert (exists c :: c in checks && Supports(d, c) && IsBad(c)) <==> SupportHas(d, checks, "fail") || SupportHas(d, checks, "warn");
  }

  lemma DecidedIsMeant(d: Risk, checks: seq<Check>, model: map<string, string>, ai: AiState, status: string)
    requires !IsOpen(d, checks)
    ensures StatusOf(d, checks, model, ai) == status <==> Means(status, d, checks, model, ai)
  {
    InstrumentsByReading(d, checks);
  }

  lemma ModelledIsMeant(d: Risk, checks: seq<Check>, model: map<string, string>, ai: AiState, status: string)
    requires IsOpen(d, checks) && !ModelIsSilent(d, model)
    ensures StatusOf(d, checks, model, ai) == status <==> Means(status, d, checks, model, ai)
  {
    InstrumentsByReading(d, checks);
  }

  lemma SilentIsMeant(d: Risk, checks: seq<Check>, model: map<string, string>, ai: AiState, status: string)
    requires IsOpen(d, checks) && ModelIsSilent(d, model)
    ensures StatusOf(d, checks, model, ai) == status <==> Means(status, d, checks, model, ai)
  {
    InstrumentsByReading(d, checks);
    SupportByCheck(d, checks);
  }

  /** A risk has a status if and only if it means what is so. */
  lemma StatusIffMeant(d: Risk, checks: seq<Check>, model: map<string, string>, ai: AiState, status: string)
    ensures StatusOf(d, checks, model, ai) == status <==> Means(status, d, checks, model, ai)
  {
    if !IsOpen(d, checks) {
      DecidedIsMeant(d, checks, model, ai, status);
    } else if ModelIsSilent(d, model) {
      SilentIsMeant(d, checks, model, ai, status);
    } else {
      ModelledIsMeant(d, checks, model, ai, status);
    }
  }

  /** The six statuses: three count a risk as assessed, three leave it unresolved. With the one of a
      risk that does not apply they are all the validator knows, and a reply's others are unverified. */
  lemma SixStatuses(e: Entry)
    ensures IsAssessed(e) <==> e.applicable && e.status in {"CLEAR", "CONFIRMED", "SUSPECTED"}
    ensures IsUnresolved(e) <==> e.applicable && e.status in {"REVIEW_REQUIRED", "UNVERIFIED", "BLOCKED"}
    ensures IsKnown(e.status) <==>
      e.status in {"CLEAR", "CONFIRMED", "SUSPECTED", "REVIEW_REQUIRED", "UNVERIFIED", "BLOCKED", "NOT_APPLICABLE"}
    ensures Normalised(e.status) ==
      if e.status in {"CLEAR", "CONFIRMED", "SUSPECTED", "REVIEW_REQUIRED", "UNVERIFIED", "BLOCKED"} then e.status else "UNVERIFIED"
  {
  }

  // ───────── the model's last word ─────────

  /** The pass whose dispositions count: the critic's if it is complete, else the informed one if it
      is, else the independent one. */
  ghost predicate Counts(reply: Reply, p: Pass) {
    || (reply.critic == Some(p) && p.complete)
    || (!(reply.critic.Some? && reply.critic.value.complete) && reply.informed == Some(p) && p.complete)
    || (!(reply.critic.Some? && reply.critic.value.complete) && !(reply.informed.Some? && reply.informed.value.complete)
        && reply.independent == Some(p))
  }

  lemma FinalPassCounts(reply: Reply, p: Pass)
    ensures FinalPass(Some(reply)) == Some(p) <==> Counts(reply, p)
  {
  }

  ghost predicate IsLastOn(dispositions: seq<(string, string)>, risk: string, k: int) {
    0 <= k < |dispositions| && dispositions[k].0 == risk && forall j :: k < j < |dispositions| ==> dispositions[j].0 != risk
  }

  lemma {:induction false} LastByRiskIsLast(dispositions: seq<(string, string)>, risk: string, k: nat)
    requires IsLastOn(dispositions, risk, k)
    ensures risk in LastByRisk(dispositions) && LastByRisk(dispositions)[risk] == dispositions[k].1
  {
    if k < |dispositions| - 1 {
      LastByRiskIsLast(DropLast(dispositions), risk, k);
    }
  }

  lemma {:induction false} UnmentionedIsAbsent(dispositions: seq<(string, string)>, risk: string)
    requires forall k :: 0 <= k < |dispositions| ==> dispositions[k].0 != risk
    ensures risk !in LastByRisk(dispositions)
  {
    if dispositions != [] {
      UnmentionedIsAbsent(DropLast(dispositions), risk);
    }
  }

  /** The model's word on a risk is the last disposition on it in the pass that counts. */
  lemma ModelSaysItsLastWord(reply: Reply, p: Pass, risk: string, k: int)
    requires Counts(reply, p)
    ensures IsLastOn(p.dispositions, risk, k) ==>
      risk in ModelDispositions(Some(reply)) && ModelDispositions(Some(reply))[risk] == p.dispositions[k].1
    ensures (forall j :: 0 <= j < |p.dispositions| ==> p.dispositions[j].0 != risk) ==> risk !in ModelDispositions(Some(reply))
  {
    FinalPassCounts(reply, p);
    if IsLastOn(p.dispositions, risk, k) { LastByRiskIsLast(p.dispositions, risk, k); }
    if forall j :: 0 <= j < |p.dispositions| ==> p.dispositions[j].0 != risk { UnmentionedIsAbsent(p.dispositions, risk); }
  }

  /** Without a reply, or without a pass that counts, the model says nothing. */
  lemma NoReplyNoWord(reply: Option<Reply>)
    requires reply.None? || forall p :: !Counts(reply.value, p)
    ensures ModelDispositions(reply) == map[] && SourceOf(reply) == []
  {
    if FinalPass(reply).Some? { FinalPassCounts(reply.value, FinalPass(reply).value); }
  }

  // ───────── what a model's findings become ─────────

  /** Each finding becomes a check under its risk's name: for information if it says so, and else a
      warning, a blocker too. */
  lemma FindingsBecomeWarnings(checks: seq<Check>, findings: seq<Finding>, k: nat)
    requires AnnotatesEach(checks, findings) && k < |findings|
    ensures |checks| == |findings|
    ensures checks[k].name == "agentic_" + findings[k].risk && checks[k].source == Some("agentic_ai")
    ensures checks[k].status == match findings[k].severity case Blocker => "warn" case Issue => "warn" case Fyi => "info"
    ensures SeverityStatus(findings[k].severity) == match findings[k].severity case Blocker => "fail" case Issue => "warn" case Fyi => "info"
  {
  }

  ghost predicate WarnedOnce(more: seq<Check>, risk: string) {
    exists i :: 0 <= i < |more| && more[i].name == "agentic_" + risk && more[i].status == "warn" && more[i].source == Some("agentic_ai")
      && forall j :: 0 <= j < |more| && j != i ==> more[j].name != "agentic_" + risk
  }

  /** A risk gets one more warning exactly when the model confirms or suspects it and no finding is on
      it; no other check is added. */
  lemma ExtrasAreSuspected(more: seq<Check>, findings: seq<Finding>, model: map<string, string>, risk: string)
    requires WarnsExtras(more, findings, model)
    ensures (risk in model && model[risk] in {"CONFIRMED", "SUSPECTED"} && forall f :: f in findings ==> f.risk != risk)
            <==> WarnedOnce(more, risk)
  {
    var risks :| WarnsEach(more, risks) && forall r :: r in risks <==> IsExtra(findings, model, r);
    if risk in risks {
      var i :| 0 <= i < |risks| && risks[i] == risk;
      assert more[i] == Annotation(risks[i], "warn");
      forall j | 0 <= j < |more| && j != i ensures more[j].name != "agentic_" + risk {
        NamesAreInjective(risks[j], risk);
      }
    }
    if i :| 0 <= i < |more| && more[i].name == "agentic_" + risk {
      NamesAreInjective(risks[i], risk);
      assert risks[i] in risks;
    }
  }
}
