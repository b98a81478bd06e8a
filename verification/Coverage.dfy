/** The risk-coverage validator (pipeline/qc/agentic.py): one entry for every registered risk, decided
    by instruments first and by an untrusted model reply only where they leave a gap. Statuses are
    kept as text, for a reply may hold any. */
module Coverage {
  import opened Basics

  datatype Scope = Certification | Partial | Human | Intent | Full

  datatype Rule = Always | Video | Audio | VideoAudio | TextOrAudio | Hdr | DolbyVision | DolbyAudio | Abr | Mxf | Imf

  datatype Risk = Risk(id: string, rule: Rule, checks: seq<string>, support: seq<string>, scope: Scope, unreliable: bool)

  const REGISTRY: seq<Risk> := [
    Risk("certified_pse", Video, ["pse_flash_risk"], [], Certification, false),
    Risk("dolby_vision_rpu_canvas", DolbyVision, ["hdr_dolby_vision"], [], Partial, false),
    Risk("hdr_metadata", Hdr, ["mediainfo_hdr", "container_metadata"], [], Partial, false),
    Risk("dolby_audio_internals", DolbyAudio, ["dolby_audio_metadata"], [], Partial, false),
    Risk("lip_sync", VideoAudio,
         ["avsync_offset", "lip_sync_container_offset", "lip_sync_drift_proxy", "hybrid_lip_sync"], [], Partial, true),
    Risk("dead_stuck_pixels", Video, [], [], Human, false),
    Risk("subtle_visual_artifacts", Video, ["decode", "black_frames", "freeze_frames"], [], Partial, false),
    Risk("creative_vs_defect", Video, ["ai_escalation"], [], Human, false),
    Risk("color_trim_intent", Video, ["reference_ssim", "reference_psnr", "reference_vmaf"], [], Intent, false),
    Risk("abr_playback", Abr, ["abr_manifest"], [], Partial, false),
    Risk("audio_transients", Audio, ["audio_clipping", "audio_silence", "audio_hum"], [], Partial, false),
    Risk("channel_assignment", Audio, ["channel_map", "audio_phase", "hybrid_channel_semantics"], [], Partial, true),
    Risk("spoken_language", Audio, [], ["ai_language"], Human, false),
    Risk("caption_localization", TextOrAudio, ["captions_present", "caption_timing", "caption_readability"],
         ["ai_caption_accuracy", "ai_caption_proofread"], Partial, false),
    Risk("editorial_continuity", Video, [], [], Human, false),
    Risk("as11_dpp_conformance", Mxf, ["mxf_op1a", "as11_dpp_metadata", "mediainfo_wrapper"], [], Partial, false),
    Risk("imf_edge_cases", Imf, ["imf_photon"], [], Full, false),
    Risk("encrypted_proprietary_streams", Always, ["decode"], [], Full, false)]

  /** A check of the report; without a source it counts as deterministic. `notImf` is its detail
      saying that the file is no IMF package. */
  datatype Check = Check(name: string, status: string, source: Option<string>, notImf: bool)

  /** What stream metadata and the file's key say, before the checks are looked at. */
  datatype Media = Media(
    video: bool, audio: bool, text: bool, hdr: bool, dolbyVision: bool, dolbyAudio: bool, abr: bool, mxf: bool, imf: bool)

  /** One pass of the model's inspection; dispositions are (risk, status) pairs in reply order. */
  datatype Pass = Pass(complete: bool, findings: seq<Finding>, dispositions: seq<(string, string)>)

  datatype Severity = Blocker | Issue | Fyi

  datatype Finding = Finding(risk: string, title: string, severity: Severity)

  datatype Reply = Reply(critic: Option<Pass>, informed: Option<Pass>, independent: Option<Pass>)

  datatype AiState = Errored | Unavailable | Other

  datatype Entry = Entry(risk: string, applicable: bool, status: string)

  datatype Report = Report(
    risks: seq<Entry>, applicable: nat, assessed: nat, unresolved: nat, modelComplete: bool,
    assessmentComplete: bool,         // nothing unresolved
    errors: seq<string>,              // risks whose status is none the validator knows, in order
    counts: map<string, nat>)         // applicable risks by status

  // ───────── applicability ─────────

  predicate HasCheck(checks: seq<Check>, name: string) { exists c :: c in checks && c.name == name }

  function Context(media: Media, checks: seq<Check>): Media {
    media.(hdr := media.hdr || HasCheck(checks, "mediainfo_hdr"),
           dolbyVision := media.dolbyVision || HasCheck(checks, "hdr_dolby_vision"),
           dolbyAudio := media.dolbyAudio || HasCheck(checks, "dolby_audio_metadata"),
           imf := media.imf || exists c :: c in checks && c.name == "imf_photon" && !c.notImf)
  }

  predicate Applies(rule: Rule, m: Media) {
    match rule
    case Always => true
    case Video => m.video
    case Audio => m.audio
    case VideoAudio => m.video && m.audio
    case TextOrAudio => m.text || m.audio
    case Hdr => m.hdr
    case DolbyVision => m.dolbyVision
    case DolbyAudio => m.dolbyAudio
    case Abr => m.abr
    case Mxf => m.mxf
    case Imf => m.imf
  }

  // ───────── who decides a risk ─────────

  predicate IsInstrument(c: Check) {
    c.source.None? || c.source.value == "deterministic" || c.source.value == "hybrid"
  }

  predicate Reads(d: Risk, c: Check) { c.name in d.checks && IsInstrument(c) }

  predicate IsBad(c: Check) { c.status == "warn" || c.status == "fail" }

  /** Instruments decide by a bad reading, or by all passing where they cover the whole risk. */
  function InstrumentVerdict(d: Risk, checks: seq<Check>): Option<string> {
    if exists c :: c in checks && Reads(d, c) && IsBad(c) then
      if !d.scope.Certification? && exists c :: c in checks && Reads(d, c) && c.status == "fail"
      then Some("CONFIRMED") else Some("SUSPECTED")
    else if d.scope.Full? && (exists c :: c in checks && Reads(d, c)) && forall c :: c in checks && Reads(d, c) ==> c.status == "pass"
    then Some("CLEAR")
    else None
  }

  predicate ModelMayNotSettle(d: Risk) { d.scope.Certification? || d.scope.Intent? || d.unreliable }

  function ModelVerdict(d: Risk, proposed: string): string {
    if ModelMayNotSettle(d) && proposed == "CLEAR" then "REVIEW_REQUIRED"
    else if ModelMayNotSettle(d) && proposed == "CONFIRMED" then "SUSPECTED"
    else proposed
  }

  predicate Supports(d: Risk, c: Check) { c.name in d.support }

  function SupportVerdict(d: Risk, checks: seq<Check>): Option<string> {
    if exists c :: c in checks && Supports(d, c) && IsBad(c) then Some("SUSPECTED")
    else if (exists c :: c in checks && Supports(d, c)) && forall c :: c in checks && Supports(d, c) ==> c.status == "pass"
    then Some("CLEAR")
    else None
  }

  function DefaultVerdict(d: Risk, ai: AiState): string {
    match ai
    case Errored => "BLOCKED"
    case Unavailable => "UNVERIFIED"
    case Other => if d.scope.Full? then "UNVERIFIED" else "REVIEW_REQUIRED"
  }

  /** An empty status from the model leaves the gap open. */
  function StatusOf(d: Risk, checks: seq<Check>, model: map<string, string>, ai: AiState): string {
    if InstrumentVerdict(d, checks).Some? then InstrumentVerdict(d, checks).value
    else if d.id in model && model[d.id] != "" then ModelVerdict(d, model[d.id])
    else if SupportVerdict(d, checks).Some? then SupportVerdict(d, checks).value
    else DefaultVerdict(d, ai)
  }

  function EntryOf(d: Risk, media: Media, checks: seq<Check>, model: map<string, string>, ai: AiState): Entry {
    if Applies(d.rule, Context(media, checks)) then Entry(d.id, true, StatusOf(d, checks, model, ai))
    else Entry(d.id, false, "NOT_APPLICABLE")
  }

  // ───────── the model's reply ─────────

  predicate IsComplete(p: Option<Pass>) { p.Some? && p.value.complete }

  /** The last complete pass; the independent one counts even when it is not complete. */
  function FinalPass(reply: Option<Reply>): Option<Pass> {
    if reply.None? then None
    else if IsComplete(reply.value.critic) then reply.value.critic
    else if IsComplete(reply.value.informed) then reply.value.informed
    else reply.value.independent
  }

  /** The last disposition on each risk. */
  function LastByRisk(dispositions: seq<(string, string)>): map<string, string> {
    if dispositions == [] then map[]
    else LastByRisk(DropLast(dispositions))[Last(dispositions).0 := Last(dispositions).1]
  }

  function ModelDispositions(reply: Option<Reply>): map<string, string> {
    if FinalPass(reply).None? then map[] else LastByRisk(FinalPass(reply).value.dispositions)
  }

  const ASSESSED := {"CLEAR", "CONFIRMED", "SUSPECTED"}
  const UNRESOLVED := {"REVIEW_REQUIRED", "UNVERIFIED", "BLOCKED"}

  /** The status a raw reply keeps once normalised (it comes upper-cased). */
  function Normalised(status: string): string {
    if status in ASSESSED || status in UNRESOLVED then status else "UNVERIFIED"
  }

  // ───────── non-interference ─────────

  /** No two replies disagree on a risk that an instrument decided. */
  lemma InstrumentsWin(d: Risk, media: Media, checks: seq<Check>, a: map<string, string>, b: map<string, string>, ai: AiState, ai': AiState)
    requires InstrumentVerdict(d, checks).Some?
    ensures EntryOf(d, media, checks, a, ai) == EntryOf(d, media, checks, b, ai')
  {
  }

  /** Names that start as those of model findings do; no registered check has one. */
  ghost predicate IsAgentic(name: string) { |name| >= 2 && name[0] == 'a' && name[1] == 'g' }

  ghost predicate IsClean(d: Risk) {
    (forall n :: n in d.checks ==> !IsAgentic(n)) && (forall n :: n in d.support ==> !IsAgentic(n))
  }

  lemma RegistryIsClean(i: nat)
    requires i < |REGISTRY|
    ensures IsClean(REGISTRY[i])
  {
  }

  /** The risks whose limits nothing here can certify away. */
  lemma NeverClearInRegistry(i: nat)
    requires i < |REGISTRY| && REGISTRY[i].id in {"certified_pse", "color_trim_intent", "lip_sync", "channel_assignment"}
    ensures ModelMayNotSettle(REGISTRY[i]) && !REGISTRY[i].scope.Full? && REGISTRY[i].support == []
  {
  }

  lemma UnsettledIsNeverClear(d: Risk, checks: seq<Check>, model: map<string, string>, ai: AiState)
    requires ModelMayNotSettle(d) && !d.scope.Full? && d.support == []
    ensures StatusOf(d, checks, model, ai) != "CLEAR"
  {
  }

  /** `certified_pse`, `color_trim_intent`, `lip_sync` and `channel_assignment` are never cleared. */
  lemma SomeRisksAreNeverClear(i: nat, media: Media, checks: seq<Check>, model: map<string, string>, ai: AiState)
    requires i < |REGISTRY| && REGISTRY[i].id in {"certified_pse", "color_trim_intent", "lip_sync", "channel_assignment"}
    ensures EntryOf(REGISTRY[i], media, checks, model, ai).status != "CLEAR"
  {
    NeverClearInRegistry(i);
    UnsettledIsNeverClear(REGISTRY[i], checks, model, ai);
  }

  // ───────── the reply's findings as checks of the report ─────────

  /** What model findings become: annotations that never fail a delivery. */
  ghost predicate IsAnnotation(c: Check) {
    IsAgentic(c.name) && c.source == Some("agentic_ai") && c.status in {"warn", "info"}
  }

  ghost predicate AreAnnotations(extra: seq<Check>) { forall c :: c in extra ==> IsAnnotation(c) }

  lemma AnnotationsAreNotRead(d: Risk, checks: seq<Check>, extra: seq<Check>)
    requires IsClean(d) && AreAnnotations(extra)
    ensures InstrumentVerdict(d, checks + extra) == InstrumentVerdict(d, checks)
    ensures SupportVerdict(d, checks + extra) == SupportVerdict(d, checks)
  {
    assert forall c :: c in checks + extra && Reads(d, c) <==> c in checks && Reads(d, c);
    assert forall c :: c in checks + extra && Supports(d, c) <==> c in checks && Supports(d, c);
  }

  lemma AnnotationsKeepContext(media: Media, checks: seq<Check>, extra: seq<Check>)
    requires AreAnnotations(extra)
    ensures Context(media, checks + extra) == Context(media, checks)
  {
    forall c | c in extra
      ensures c.name !in {"mediainfo_hdr", "hdr_dolby_vision", "dolby_audio_metadata", "imf_photon"} {
      assert IsAnnotation(c);
    }
  }

  /** A model's own annotations, added to the report, change no entry. */
  lemma AnnotationsChangeNothing(i: nat, media: Media, checks: seq<Check>, extra: seq<Check>, model: map<string, string>, ai: AiState)
    requires i < |REGISTRY| && AreAnnotations(extra)
    ensures EntryOf(REGISTRY[i], media, checks + extra, model, ai) == EntryOf(REGISTRY[i], media, checks, model, ai)
  {
    RegistryIsClean(i);
    AnnotationsAreNotRead(REGISTRY[i], checks, extra);
    AnnotationsKeepContext(media, checks, extra);
  }

  /** End to end: whatever two models reply, with their findings appended to the same checks, every
      risk an instrument decided gets the same entry, and every other the same applicability. */
  lemma RepliesDoNotInterfere(i: nat, media: Media, checks: seq<Check>, a: Option<Reply>, b: Option<Reply>,
      fromA: seq<Check>, fromB: seq<Check>, ai: AiState, ai': AiState)
    requires i < |REGISTRY| && AreAnnotations(fromA) && AreAnnotations(fromB)
    ensures var d := REGISTRY[i];
            var x := EntryOf(d, media, checks + fromA, ModelDispositions(a), ai);
            var y := EntryOf(d, media, checks + fromB, ModelDispositions(b), ai');
            && x.applicable == y.applicable == Applies(d.rule, Context(media, checks))
            && (InstrumentVerdict(d, checks).Some? ==> x == y)
  {
    AnnotationsChangeNothing(i, media, checks, fromA, ModelDispositions(a), ai);
    AnnotationsChangeNothing(i, media, checks, fromB, ModelDispositions(b), ai');
    if InstrumentVerdict(REGISTRY[i], checks).Some? {
      InstrumentsWin(REGISTRY[i], media, checks, ModelDispositions(a), ModelDispositions(b), ai, ai');
    }
  }

  // ───────── the counts ─────────

  predicate IsApplicable(e: Entry) { e.applicable }

  predicate IsAssessed(e: Entry) { e.applicable && e.status in ASSESSED }

  predicate IsUnresolved(e: Entry) { e.applicable && e.status in UNRESOLVED }

  function Count(risks: seq<Entry>, kind: Entry -> bool): nat {
    if risks == [] then 0 else Count(DropLast(risks), kind) + (if kind(Last(risks)) then 1 else 0)
  }

  lemma {:induction false} CountsAddUp(risks: seq<Entry>)
    ensures Count(risks, IsAssessed) + Count(risks, IsUnresolved) <= Count(risks, IsApplicable)
    ensures Count(risks, IsAssessed) + Count(risks, IsUnresolved) == Count(risks, IsApplicable)
            <==> forall e :: e in risks && e.applicable ==> IsAssessed(e) || IsUnresolved(e)
    decreases |risks|
  {
    if risks != [] {
      CountsAddUp(DropLast(risks));
      assert risks == DropLast(risks) + [Last(risks)];
    }
  }

  /** The model fills this risk's gap, with a status that is neither empty nor one of the six. */
  ghost predicate IsMiscounted(d: Risk, checks: seq<Check>, model: map<string, string>) {
    && InstrumentVerdict(d, checks).None? && d.id in model && model[d.id] != ""
    && model[d.id] !in ASSESSED && model[d.id] !in UNRESOLVED
  }

  lemma MiscountedIsNeither(d: Risk, checks: seq<Check>, model: map<string, string>, ai: AiState)
    ensures StatusOf(d, checks, model, ai) in ASSESSED || StatusOf(d, checks, model, ai) in UNRESOLVED
            <==> !IsMiscounted(d, checks, model)
  {
  }

  lemma NormalisedIsCounted(d: Risk, checks: seq<Check>, model: map<string, string>, raw: string)
    requires d.id in model && model[d.id] == Normalised(raw)
    ensures !IsMiscounted(d, checks, model)
  {
  }

  function Entries(media: Media, checks: seq<Check>, model: map<string, string>, ai: AiState): (risks: seq<Entry>)
    ensures |risks| == |REGISTRY|
    ensures forall i :: 0 <= i < |REGISTRY| ==> risks[i] == EntryOf(REGISTRY[i], media, checks, model, ai)
  {
    seq(|REGISTRY|, i requires 0 <= i < |REGISTRY| => EntryOf(REGISTRY[i], media, checks, model, ai))
  }

  /** Assessed and unresolved risks account for every applicable one exactly when no status the model
      supplies for a gap is outside the six; a normalised reply never supplies another. */
  lemma CountsAccountIffNormal(media: Media, checks: seq<Check>, model: map<string, string>, ai: AiState)
    ensures var risks := Entries(media, checks, model, ai);
            Count(risks, IsAssessed) + Count(risks, IsUnresolved) == Count(risks, IsApplicable)
            <==> forall i :: 0 <= i < |REGISTRY| && Applies(REGISTRY[i].rule, Context(media, checks)) ==>
                   !IsMiscounted(REGISTRY[i], checks, model)
  {
    var risks := Entries(media, checks, model, ai);
    CountsAddUp(risks);
    forall i | 0 <= i < |REGISTRY| ensures risks[i].applicable ==>
        (IsAssessed(risks[i]) || IsUnresolved(risks[i]) <==> !IsMiscounted(REGISTRY[i], checks, model))
    {
      MiscountedIsNeither(REGISTRY[i], checks, model, ai);
    }
    if forall e :: e in risks && e.applicable ==> IsAssessed(e) || IsUnresolved(e) {
      forall i | 0 <= i < |REGISTRY| && risks[i].applicable ensures !IsMiscounted(REGISTRY[i], checks, model) {
        assert risks[i] in risks;
      }
    }
  }

  lemma NormalisedRepliesAccount(media: Media, checks: seq<Check>, model: map<string, string>, ai: AiState)
    requires forall r :: r in model ==> model[r] == Normalised(model[r])
    ensures var risks := Entries(media, checks, model, ai);
            Count(risks, IsAssessed) + Count(risks, IsUnresolved) == Count(risks, IsApplicable)
  {
    CountsAccountIffNormal(media, checks, model, ai);
    forall i | 0 <= i < |REGISTRY| && REGISTRY[i].id in model ensures !IsMiscounted(REGISTRY[i], checks, model) {
      NormalisedIsCounted(REGISTRY[i], checks, model, model[REGISTRY[i].id]);
    }
  }

  /** A raw reply that was never normalised can leave a risk uncounted. */
  lemma RawStatusIsUncounted()
    ensures var model := map["encrypted_proprietary_streams" := "NOT_APPLICABLE"];
            var media := Media(false, false, false, false, false, false, false, false, false);
            var risks := Entries(media, [], model, Other);
            Count(risks, IsAssessed) + Count(risks, IsUnresolved) != Count(risks, IsApplicable)
  {
    var model := map["encrypted_proprietary_streams" := "NOT_APPLICABLE"];
    var media := Media(false, false, false, false, false, false, false, false, false);
    CountsAccountIffNormal(media, [], model, Other);
    assert IsMiscounted(REGISTRY[17], [], model);
  }

  // ───────── as the validator runs ─────────

  /** Collects a risk's readings, then decides: instruments, the model, support checks, the default. */
  method Assess(d: Risk, checks: seq<Check>, model: map<string, string>, ai: AiState) returns (status: string)
    ensures status == StatusOf(d, checks, model, ai)
  {
    var instrument, support: seq<Check> := [], [];
    for k := 0 to |checks|
      invariant forall c :: c in instrument <==> c in checks[..k] && Reads(d, c)
      invariant forall c :: c in support <==> c in checks[..k] && Supports(d, c)
    {
      if Reads(d, checks[k]) {
        instrument := instrument + [checks[k]];
      }
      if Supports(d, checks[k]) {
        support := support + [checks[k]];
      }
    }
    assert checks[..|checks|] == checks;
    status := Instrumental(d, instrument);
    ListsDecide(d, checks, instrument, support);
    if d.id in model && status == "" {
      status := model[d.id];
      if ModelMayNotSettle(d) {
        if status == "CLEAR" {
          status := "REVIEW_REQUIRED";
        } else if status == "CONFIRMED" {
          status := "SUSPECTED";
        }
      }
    }
    if status == "" && support != [] {
      if exists c :: c in support && IsBad(c) {
        status := "SUSPECTED";
      } else if forall c :: c in support ==> c.status == "pass" {
        status := "CLEAR";
      }
    }
    if status == "" {
      status := DefaultVerdict(d, ai);
    }
  }

  /** The instruments' part of the decision; "" when they leave a gap. */
  function Instrumental(d: Risk, instrument: seq<Check>): string {
    if exists c :: c in instrument && IsBad(c) then
      if !d.scope.Certification? && exists c :: c in instrument && c.status == "fail" then "CONFIRMED" else "SUSPECTED"
    else if d.scope.Full? && instrument != [] && forall c :: c in instrument ==> c.status == "pass" then "CLEAR"
    else ""
  }

  lemma ListsDecide(d: Risk, checks: seq<Check>, instrument: seq<Check>, support: seq<Check>)
    requires forall c :: c in instrument <==> c in checks && Reads(d, c)
    requires forall c :: c in support <==> c in checks && Supports(d, c)
    ensures InstrumentVerdict(d, checks) == if Instrumental(d, instrument) == "" then None else Some(Instrumental(d, instrument))
    ensures SupportVerdict(d, checks) ==
            if exists c :: c in support && IsBad(c) then Some("SUSPECTED")
            else if support != [] && forall c :: c in support ==> c.status == "pass" then Some("CLEAR") else None
  {
    if instrument != [] { assert instrument[0] in instrument; }
    if support != [] { assert support[0] in support; }
  }

  /** Entries of any registry, in its order. */
  ghost predicate AreEntries(risks: seq<Entry>, registry: seq<Risk>, media: Media, checks: seq<Check>, model: map<string, string>, ai: AiState) {
    |risks| <= |registry| && forall k :: 0 <= k < |risks| ==> risks[k] == EntryOf(registry[k], media, checks, model, ai)
  }

  method CoverRisk(d: Risk, media: Media, checks: seq<Check>, model: map<string, string>, ai: AiState) returns (entry: Entry)
    ensures entry == EntryOf(d, media, checks, model, ai)
  {
    entry := Entry(d.id, false, "NOT_APPLICABLE");
    if Applies(d.rule, Context(media, checks)) {
      var status := Assess(d, checks, model, ai);
      entry := Entry(d.id, true, status);
    }
  }

  method CoverAll(registry: seq<Risk>, media: Media, checks: seq<Check>, model: map<string, string>, ai: AiState) returns (risks: seq<Entry>)
    ensures |risks| == |registry| && AreEntries(risks, registry, media, checks, model, ai)
  {
    risks := [];
    for i := 0 to |registry|
      invariant |risks| == i && AreEntries(risks, registry, media, checks, model, ai)
    {
      var entry := CoverRisk(registry[i], media, checks, model, ai);
      risks := risks + [entry];
    }
  }

  function WithStatus(status: string): Entry -> bool { (e: Entry) => e.applicable && e.status == status }

  predicate IsKnown(status: string) { status in ASSESSED || status in UNRESOLVED || status == "NOT_APPLICABLE" }

  function Unknown(risks: seq<Entry>): seq<string> {
    if risks == [] then []
    else Unknown(DropLast(risks)) + if IsKnown(Last(risks).status) then [] else [Last(risks).risk]
  }

  /** The counter has exactly the statuses that occur among applicable risks, with their numbers. */
  ghost predicate CountsStatuses(counts: map<string, nat>, risks: seq<Entry>) {
    forall status :: Count(risks, WithStatus(status)) == if status in counts then counts[status] else 0
  }

  lemma CountOneMore(counts: map<string, nat>, risks: seq<Entry>, entry: Entry)
    requires CountsStatuses(counts, risks)
    ensures var one := if entry.status in counts then counts[entry.status] + 1 else 1;
            CountsStatuses(if entry.applicable then counts[entry.status := one] else counts, risks + [entry])
  {
    assert DropLast(risks + [entry]) == risks;
    var one := if entry.status in counts then counts[entry.status] + 1 else 1;
    var after := if entry.applicable then counts[entry.status := one] else counts;
    forall status ensures Count(risks + [entry], WithStatus(status)) == if status in after then after[status] else 0 {
      assert Count(risks, WithStatus(status)) == if status in counts then counts[status] else 0;
    }
  }

  method CountByStatus(risks: seq<Entry>) returns (counts: map<string, nat>)
    ensures CountsStatuses(counts, risks)
  {
    counts := map[];
    for i := 0 to |risks|
      invariant CountsStatuses(counts, risks[..i])
    {
      var entry := risks[i];
      CountOneMore(counts, risks[..i], entry);
      assert risks[..i + 1] == risks[..i] + [entry];
      if entry.applicable {
        counts := counts[entry.status := if entry.status in counts then counts[entry.status] + 1 else 1];
      }
    }
    assert risks[..|risks|] == risks;
  }

  method Tally(risks: seq<Entry>, model: map<string, string>) returns (applicable: nat, assessed: nat, unresolved: nat, modelComplete: bool)
    ensures applicable == Count(risks, IsApplicable)
    ensures assessed == Count(risks, IsAssessed) && unresolved == Count(risks, IsUnresolved)
    ensures modelComplete <==> forall i :: 0 <= i < |risks| && risks[i].applicable ==> risks[i].risk in model
  {
    applicable, assessed, unresolved, modelComplete := 0, 0, 0, true;
    for i := 0 to |risks|
      invariant applicable == Count(risks[..i], IsApplicable) && assessed == Count(risks[..i], IsAssessed)
      invariant unresolved == Count(risks[..i], IsUnresolved)
      invariant modelComplete <==> forall k :: 0 <= k < i && risks[k].applicable ==> risks[k].risk in model
    {
      var entry := risks[i];
      assert DropLast(risks[..i + 1]) == risks[..i] && Last(risks[..i + 1]) == entry;
      if entry.applicable {
        applicable := applicable + 1;
        assessed := assessed + if entry.status in ASSESSED then 1 else 0;
        unresolved := unresolved + if entry.status in UNRESOLVED then 1 else 0;
        modelComplete := modelComplete && entry.risk in model;
      }
    }
    assert risks[..|risks|] == risks;
  }

  lemma {:induction false} NothingUnresolved(risks: seq<Entry>)
    ensures Count(risks, IsUnresolved) == 0 <==> forall e :: e in risks ==> !IsUnresolved(e)
  {
    if risks != [] {
      NothingUnresolved(DropLast(risks));
      assert risks == DropLast(risks) + [Last(risks)];
    }
  }

  lemma {:induction false} UnknownRisks(risks: seq<Entry>)
    ensures Unknown(risks) == [] <==> forall e :: e in risks ==> IsKnown(e.status)
    ensures forall r :: r in Unknown(risks) <==> exists e :: e in risks && e.risk == r && !IsKnown(e.status)
  {
    if risks != [] {
      UnknownRisks(DropLast(risks));
      assert risks == DropLast(risks) + [Last(risks)];
      forall r ensures r in Unknown(risks) <==> exists e :: e in risks && e.risk == r && !IsKnown(e.status) {
        if r in Unknown(risks) {
          if r in Unknown(DropLast(risks)) {
            var e :| e in DropLast(risks) && e.risk == r && !IsKnown(e.status);
            assert e in risks;
          } else {
            assert Last(risks) in risks;
          }
        }
      }
    }
  }

  /** The report on a list of entries. */
  ghost predicate Summarizes(report: Report, model: map<string, string>) {
    var risks := report.risks;
    && report.applicable == Count(risks, IsApplicable)
    && report.assessed == Count(risks, IsAssessed) && report.unresolved == Count(risks, IsUnresolved)
    && (report.modelComplete <==> forall i :: 0 <= i < |risks| && risks[i].applicable ==> risks[i].risk in model)
    && (report.assessmentComplete <==> forall e :: e in risks ==> !IsUnresolved(e))
    && (report.errors == [] <==> forall e :: e in risks ==> IsKnown(e.status))
    && (forall r :: r in report.errors <==> exists e :: e in risks && e.risk == r && !IsKnown(e.status))
    && CountsStatuses(report.counts, risks)
  }

  method Summarize(risks: seq<Entry>, model: map<string, string>) returns (report: Report)
    ensures report.risks == risks && Summarizes(report, model)
  {
    var applicable, assessed, unresolved, modelComplete := Tally(risks, model);
    var counts := CountByStatus(risks);
    NothingUnresolved(risks);
    UnknownRisks(risks);
    report := Report(risks, applicable, assessed, unresolved, modelComplete, unresolved == 0, Unknown(risks), counts);
  }

  /** One entry for every registered risk, in order, and the summary of them. */
  method BuildCoverage(media: Media, checks: seq<Check>, reply: Option<Reply>, ai: AiState) returns (report: Report)
    ensures report.risks == Entries(media, checks, ModelDispositions(reply), ai)
    ensures Summarizes(report, ModelDispositions(reply))
  {
    var risks := CoverAll(REGISTRY, media, checks, ModelDispositions(reply), ai);
    report := Summarize(risks, ModelDispositions(reply));
  }

  function KeyOf(lower: string -> string, f: Finding): (string, string) { (f.risk, lower(f.title)) }

  function SourceOf(reply: Option<Reply>): seq<Finding> {
    if FinalPass(reply).None? then [] else FinalPass(reply).value.findings
  }

  /** Some finding kept at or before place `k` has this key. */
  ghost predicate HasKey(out: seq<Finding>, places: seq<nat>, k: nat, key: (string, string), lower: string -> string)
    requires |places| == |out|
  {
    exists i :: 0 <= i < |out| && places[i] <= k && KeyOf(lower, out[i]) == key
  }

  /** `out` keeps, in order, the places in `source` where a key occurs for the first time. */
  ghost predicate KeepsFirsts(source: seq<Finding>, n: nat, out: seq<Finding>, places: seq<nat>, lower: string -> string) {
    && n <= |source| && |places| == |out|
    && (forall i :: 0 <= i < |out| ==> places[i] < n && out[i] == source[places[i]])
    && (forall i, j :: 0 <= i < j < |out| ==> places[i] < places[j] && KeyOf(lower, out[i]) != KeyOf(lower, out[j]))
    && (forall k :: 0 <= k < n ==> HasKey(out, places, k, KeyOf(lower, source[k]), lower))
  }

  lemma KeyStays(out: seq<Finding>, places: seq<nat>, k: nat, key: (string, string), f: Finding, n: nat, lower: string -> string)
    requires |places| == |out| && HasKey(out, places, k, key, lower)
    ensures HasKey(out + [f], places + [n], k, key, lower)
  {
    var i :| 0 <= i < |out| && places[i] <= k && KeyOf(lower, out[i]) == key;
    assert (out + [f])[i] == out[i] && (places + [n])[i] == places[i];
  }

  lemma NewFirst(source: seq<Finding>, n: nat, out: seq<Finding>, places: seq<nat>, lower: string -> string)
    requires KeepsFirsts(source, n, out, places, lower) && n < |source|
    requires !HasKey(out, places, n, KeyOf(lower, source[n]), lower)
    ensures KeepsFirsts(source, n + 1, out + [source[n]], places + [n], lower)
  {
    var more, at := out + [source[n]], places + [n];
    forall k | 0 <= k < n + 1 ensures HasKey(more, at, k, KeyOf(lower, source[k]), lower) {
      if k < n {
        KeyStays(out, places, k, KeyOf(lower, source[k]), source[n], n, lower);
      } else {
        assert more[|out|] == source[n] && at[|out|] == n;
      }
    }
  }

  lemma OldKey(source: seq<Finding>, n: nat, out: seq<Finding>, places: seq<nat>, lower: string -> string)
    requires KeepsFirsts(source, n, out, places, lower) && n < |source|
    requires HasKey(out, places, n, KeyOf(lower, source[n]), lower)
    ensures KeepsFirsts(source, n + 1, out, places, lower)
  {
  }

  /** The keys of the findings kept so far. */
  function KeysOf(out: seq<Finding>, lower: string -> string): set<(string, string)> {
    set i | 0 <= i < |out| :: KeyOf(lower, out[i])
  }

  lemma KeysOfOneMore(out: seq<Finding>, f: Finding, lower: string -> string)
    ensures KeysOf(out + [f], lower) == KeysOf(out, lower) + {KeyOf(lower, f)}
  {
    var more := out + [f];
    assert more[|out|] == f;
    forall key | key in KeysOf(out, lower) ensures key in KeysOf(more, lower) {
      var i :| 0 <= i < |out| && key == KeyOf(lower, out[i]);
      assert more[i] == out[i];
    }
  }

  lemma KeyIsSeen(source: seq<Finding>, n: nat, out: seq<Finding>, places: seq<nat>, key: (string, string), lower: string -> string)
    requires KeepsFirsts(source, n, out, places, lower)
    ensures HasKey(out, places, n, key, lower) <==> key in KeysOf(out, lower)
  {
  }

  /** The final pass's findings: the first of each risk and title, in order. */
  method ReportableFindings(reply: Option<Reply>, lower: string -> string) returns (out: seq<Finding>)
    ensures exists places: seq<nat> :: KeepsFirsts(SourceOf(reply), |SourceOf(reply)|, out, places, lower)
  {
    out := [];
    ghost var places: seq<nat> := [];
    var source := SourceOf(reply);
    var seen: set<(string, string)> := {};
    for k := 0 to |source|
      invariant seen == KeysOf(out, lower)
      invariant KeepsFirsts(source, k, out, places, lower)
    {
      var f := source[k];
      KeyIsSeen(source, k, out, places, KeyOf(lower, f), lower);
      if KeyOf(lower, f) in seen {
        OldKey(source, k, out, places, lower);
      } else {
        NewFirst(source, k, out, places, lower);
        KeysOfOneMore(out, f, lower);
        out := out + [f];
        places := places + [k];
        seen := seen + {KeyOf(lower, f)};
      }
    }
  }

  function SeverityStatus(severity: Severity): string {
    match severity case Blocker => "fail" case Issue => "warn" case Fyi => "info"
  }

  function Annotation(risk: string, status: string): Check { Check("agentic_" + risk, status, Some("agentic_ai"), false) }

  predicate IsSuspicious(status: string) { status == "CONFIRMED" || status == "SUSPECTED" }

  /** A blocker is a warning: only instruments reject. */
  function Capped(severity: Severity): string { if severity.Fyi? then "info" else "warn" }

  /** One annotation for each finding, in order. */
  ghost predicate AnnotatesEach(checks: seq<Check>, findings: seq<Finding>) {
    |checks| == |findings| && forall k :: 0 <= k < |findings| ==> checks[k] == Annotation(findings[k].risk, Capped(findings[k].severity))
  }

  method AnnotateFindings(findings: seq<Finding>) returns (checks: seq<Check>)
    ensures AnnotatesEach(checks, findings)
  {
    checks := [];
    for k := 0 to |findings|
      invariant AnnotatesEach(checks, findings[..k])
    {
      var f := findings[k];
      var status := SeverityStatus(f.severity);
      if status == "fail" {
        status := "warn";
      }
      checks := checks + [Annotation(f.risk, status)];
    }
    assert findings[..|findings|] == findings;
  }

  /** A suspicious disposition on a risk that no finding names. */
  predicate IsExtra(findings: seq<Finding>, model: map<string, string>, risk: string) {
    risk in model && IsSuspicious(model[risk]) && forall f :: f in findings ==> f.risk != risk
  }

  /** One warning for each of the risks, in this order. */
  ghost predicate WarnsEach(more: seq<Check>, risks: seq<string>) {
    && |more| == |risks|
    && (forall i :: 0 <= i < |more| ==> more[i] == Annotation(risks[i], "warn"))
    && (forall i, j :: 0 <= i < j < |risks| ==> risks[i] != risks[j])
  }

  /** One warning for each extra risk and no other. */
  ghost predicate WarnsExtras(more: seq<Check>, findings: seq<Finding>, model: map<string, string>) {
    exists risks :: WarnsEach(more, risks) && forall r :: r in risks <==> IsExtra(findings, model, r)
  }

  method AnnotateExtras(findings: seq<Finding>, model: map<string, string>) returns (more: seq<Check>)
    ensures WarnsExtras(more, findings, model)
  {
    more := [];
    ghost var risks: seq<string> := [];
    var represented := set f | f in findings :: f.risk;
    var todo := model.Keys;
    while todo != {}
      invariant todo <= model.Keys
      invariant WarnsEach(more, risks)
      invariant forall r :: r in risks <==> r !in todo && IsExtra(findings, model, r)
      decreases |todo|
    {
      var risk :| risk in todo;
      assert risk in represented <==> exists f :: f in findings && f.risk == risk;
      if risk !in represented && IsSuspicious(model[risk]) {
        more := more + [Annotation(risk, "warn")];
        risks := risks + [risk];
      }
      todo := todo - {risk};
    }
  }

  /** One annotation for each finding with its capped status, then one warning for each risk that
      only a suspicious disposition raises. */
  method ChecksFromFindings(reply: Option<Reply>, findings: seq<Finding>) returns (checks: seq<Check>)
    ensures |checks| >= |findings| && AnnotatesEach(checks[..|findings|], findings)
    ensures WarnsExtras(checks[|findings|..], findings, ModelDispositions(reply))
  {
    checks := AnnotateFindings(findings);
    var more := AnnotateExtras(findings, ModelDispositions(reply));
    ghost var first := checks;
    checks := checks + more;
    assert checks[|findings|..] == more && checks[..|findings|] == first;
  }

  lemma NamesAreInjective(a: string, b: string)
    ensures "agentic_" + a == "agentic_" + b <==> a == b
  {
    assert ("agentic_" + a)[8..] == a && ("agentic_" + b)[8..] == b;
  }

  ghost predicate IsRaised(findings: seq<Finding>, model: map<string, string>, risk: string) {
    (exists f :: f in findings && f.risk == risk) || (risk in model && IsSuspicious(model[risk]))
  }

  /** Such checks never fail a delivery, and name exactly the risks a finding or a suspicious
      disposition raised. */
  lemma ChecksAreOfRaisedRisks(findings: seq<Finding>, model: map<string, string>, checks: seq<Check>, more: seq<Check>, risk: string)
    requires AnnotatesEach(checks, findings) && WarnsExtras(more, findings, model)
    ensures AreAnnotations(checks) && AreAnnotations(more)
    ensures (exists c :: c in checks + more && c.name == "agentic_" + risk) <==> IsRaised(findings, model, risk)
  {
    var risks :| WarnsEach(more, risks) && forall r :: r in risks <==> IsExtra(findings, model, r);
    forall c | c in checks ensures IsAnnotation(c) && exists f :: f in findings && c.name == "agentic_" + f.risk {
      var k :| 0 <= k < |checks| && checks[k] == c;
      assert findings[k] in findings;
    }
    forall c | c in more ensures IsAnnotation(c) && exists r :: r in risks && c.name == "agentic_" + r {
      var k :| 0 <= k < |more| && more[k] == c;
      assert risks[k] in risks;
    }
    RaisedIsNamed(findings, model, checks, more, risks, risk);
    if c :| c in checks + more && c.name == "agentic_" + risk {
      if c in checks {
        var f :| f in findings && c.name == "agentic_" + f.risk;
        NamesAreInjective(f.risk, risk);
      } else {
        var r :| r in risks && c.name == "agentic_" + r;
        NamesAreInjective(r, risk);
        assert IsExtra(findings, model, r);
      }
    }
  }

  lemma RaisedIsNamed(findings: seq<Finding>, model: map<string, string>, checks: seq<Check>, more: seq<Check>, risks: seq<string>, risk: string)
    requires AnnotatesEach(checks, findings) && WarnsEach(more, risks)
    requires forall r :: r in risks <==> IsExtra(findings, model, r)
    ensures IsRaised(findings, model, risk) ==> exists c :: c in checks + more && c.name == "agentic_" + risk
  {
    if f :| f in findings && f.risk == risk {
      var k :| 0 <= k < |findings| && findings[k] == f;
      assert checks[k] in checks + more && checks[k].name == "agentic_" + risk;
    } else if IsRaised(findings, model, risk) {
      assert IsExtra(findings, model, risk) && risk in risks;
      var k :| 0 <= k < |risks| && risks[k] == risk;
      assert more[k] in checks + more && more[k].name == "agentic_" + risk;
    }
  }
}
