/**
 * JUDGE and SPEAK payloads: how the three planners build them, what the producer
 * accepts as history, what makes a speech pair, and what the lifecycle reads from
 * a JUDGE. An optional field stands for a key that may be absent.
 */
module Payloads {
  import opened Wrappers
  import opened Lifecycle
  import opened Ledgers
  import M = Mastery

  datatype Verdict = Pass | Fail | Omitted | Abstain

  datatype Kind = Judge | Speak

  datatype Authority = SemanticModel | PolicyRule | DeterministicGate

  datatype Failure = WrongMeaning | WrongInterpretation | SemanticMisuse | CollocationMisuse | FormMisuse

  datatype Reason =
    | Policy(code: Code)
    | TargetAbsent
    | OffTopic
    | InsufficientLexicalEvidence
    | ResponseUnintelligible
    | SemanticUncertainty
    | ReviewerRejected
    | TranscriptionUncertain
    | TranscriptionFailed(failureCode: string)

  datatype Decision = Approve | Reject

  datatype SemanticStage = SemanticStage(assessorId: string, assessorVersion: string, digests: string)

  datatype ReviewStage = ReviewStage(reviewer: string, version: int, decision: Decision)

  datatype Transcription =
    | Success(approvedRef: string)
    | Uncertain
    | Failed(failureCode: string)

  datatype Provenance = Provenance(
    transcription: Option<Transcription>,
    targetPresent: Option<bool>,
    semantic: Option<SemanticStage>,
    review: Option<ReviewStage>,
    policy: bool)

  datatype Payload = Payload(
    attempt: AttemptId,
    channel: Channel,
    stimulus: string,
    outcome: Verdict,
    passed: bool,
    modelId: string,
    modelVersion: string,
    authority: Authority,
    provenance: Provenance,
    response: Option<string>,
    transcript: Option<string>,
    reason: Option<Reason>,
    failure: Option<Failure>,
    assessmentId: Option<AttemptId>,
    stimulusRef: Option<string>,
    novel: Option<bool>)

  const POLICY_ID := "t12-assessment-policy"
  const POLICY_VERSION := "1"
  const PRESENCE_GATE_ID := "d19-target-presence"
  const PRESENCE_GATE_VERSION := "1"

  predicate FailureFits(c: Channel, f: Failure) {
    match c
    case R => f == WrongMeaning
    case L => f == WrongInterpretation
    case _ => f == SemanticMisuse || f == CollocationMisuse || f == FormMisuse
  }

  predicate SemanticAbstention(r: Reason) {
    r in {OffTopic, InsufficientLexicalEvidence, ResponseUnintelligible, SemanticUncertainty, ReviewerRejected}
  }

  // -------------------------------------------------------------------------
  // Validators of the producer's history
  // -------------------------------------------------------------------------

  predicate NoLifecycleFields(p: Payload) {
    p.assessmentId.None? && p.stimulusRef.None? && p.novel.None?
  }

  predicate LifecycleFields(p: Payload) {
    p.assessmentId == Some(p.attempt) && p.stimulusRef == Some(p.stimulus) && p.novel.Some?
  }

  /** Which of the outcome's own keys are there: lifecycle fields, a failure code, a reason code. */
  predicate JudgeKeys(p: Payload) {
    match p.outcome
    case Pass => LifecycleFields(p) && p.failure.None? && p.reason.None?
    case Fail => LifecycleFields(p) && p.failure.Some? && p.reason.None?
    case _ => NoLifecycleFields(p) && p.failure.None? && p.reason.Some?
  }

  predicate SpeakKeys(p: Payload) {
    && NoLifecycleFields(p)
    && match p.outcome
       case Pass => p.failure.None? && p.reason.None?
       case Fail => p.failure.Some? && p.reason.None?
       case _ => p.failure.None? && p.reason.Some?
  }

  predicate AuthorityIs(p: Payload, kind: Authority, modelId: string, modelVersion: string) {
    p.authority == kind && p.modelId == modelId && p.modelVersion == modelVersion
  }

  predicate StageOk(s: SemanticStage) {
    s.assessorId != "" && s.assessorVersion != ""
  }

  predicate ReviewOk(r: ReviewStage) {
    r.reviewer != "" && r.version >= 1
  }

  /** A semantic result and the review it went through. */
  predicate SemanticClosure(p: Payload) {
    && p.provenance.semantic.Some? && StageOk(p.provenance.semantic.value)
    && p.provenance.review.Some? && ReviewOk(p.provenance.review.value)
    && (p.provenance.review.value.decision == Reject <==> p.reason == Some(ReviewerRejected))
    && match p.outcome
       case Abstain =>
         && p.reason.Some? && SemanticAbstention(p.reason.value)
         && p.provenance.policy && AuthorityIs(p, PolicyRule, POLICY_ID, POLICY_VERSION)
       case Omitted => false
       case _ =>
         && !p.provenance.policy
         && AuthorityIs(p, SemanticModel, p.provenance.semantic.value.assessorId,
                        p.provenance.semantic.value.assessorVersion)
         && (p.outcome == Fail ==> p.failure.Some? && FailureFits(p.channel, p.failure.value))
  }

  predicate AbsentClosure(p: Payload) {
    && p.outcome == Omitted && p.reason == Some(TargetAbsent)
    && p.provenance.semantic.None? && p.provenance.review.None? && !p.provenance.policy
    && AuthorityIs(p, DeterministicGate, PRESENCE_GATE_ID, PRESENCE_GATE_VERSION)
  }

  predicate PolicyJudge(p: Payload) {
    && p.channel != S && !p.passed
    && p.outcome == Abstain && p.reason.Some? && p.reason.value.Policy?
    && p.response.None? && p.transcript.None? && p.failure.None? && NoLifecycleFields(p)
    && AuthorityIs(p, PolicyRule, POLICY_ID, POLICY_VERSION)
    && p.provenance == Provenance(None, None, None, None, true)
  }

  predicate TextJudge(p: Payload) {
    && p.channel != S && p.passed == (p.outcome == Pass)
    && p.response.Some? && p.transcript.None? && JudgeKeys(p)
    && p.modelId != "" && p.modelVersion != ""
    && p.provenance.transcription.None?
    && if p.outcome == Omitted
       then p.channel == W && p.provenance.targetPresent == Some(false) && AbsentClosure(p)
       else p.provenance.targetPresent == (if p.channel == W then Some(true) else None) && SemanticClosure(p)
  }

  /** A reason that is a disposition code sends the payload to the policy validator. */
  predicate WrittenJudge(p: Payload) {
    if p.outcome == Abstain && p.reason.Some? && p.reason.value.Policy? then PolicyJudge(p) else TextJudge(p)
  }

  predicate TranscriptionClosure(p: Payload, reason: Reason) {
    && p.outcome == Abstain && p.reason == Some(reason)
    && p.provenance.targetPresent.None? && p.provenance.semantic.None? && p.provenance.review.None?
    && p.provenance.policy && AuthorityIs(p, PolicyRule, POLICY_ID, POLICY_VERSION)
  }

  predicate SpeechClosure(p: Payload) {
    match p.provenance.transcription
    case None => false
    case Some(Uncertain) => TranscriptionClosure(p, TranscriptionUncertain)
    case Some(Failed(code)) => TranscriptionClosure(p, TranscriptionFailed(code))
    case Some(Success(_)) =>
      (match p.provenance.targetPresent
       case None => false
       case Some(false) => AbsentClosure(p)
       case Some(true) => SemanticClosure(p))
  }

  predicate SpeechCommon(p: Payload) {
    && p.channel == S && p.passed == (p.outcome == Pass)
    && p.response.Some? && p.modelId != "" && p.modelVersion != ""
    && SpeechClosure(p)
  }

  predicate SpeechJudge(p: Payload) {
    SpeechCommon(p) && p.transcript.None? && JudgeKeys(p)
  }

  /** `textRef` names a transcript by its content. */
  predicate SpeakEvent(p: Payload, textRef: string -> string) {
    && SpeechCommon(p) && p.transcript.Some? && SpeakKeys(p)
    && match p.provenance.transcription
       case Some(Success(ref)) => p.transcript.value != "" && textRef(p.transcript.value) == ref
       case _ => p.transcript.value == ""
  }

  /** The history validator and its dispatch. */
  predicate ValidHistorical(kind: Kind, p: Payload, textRef: string -> string) {
    match kind
    case Speak => SpeakEvent(p, textRef)
    case Judge => if p.channel == S then SpeechJudge(p) else WrittenJudge(p)
  }

  /** Every JUDGE is accepted by exactly one of the four shapes, whatever dispatch would try. */
  lemma OneShape(p: Payload, textRef: string -> string)
    ensures !(PolicyJudge(p) && TextJudge(p))
    ensures !(SpeechJudge(p) && WrittenJudge(p))
    ensures !(SpeechJudge(p) && SpeakEvent(p, textRef))
    ensures ValidHistorical(Judge, p, textRef) <==> PolicyJudge(p) || TextJudge(p) || SpeechJudge(p)
  {
  }

  /** A valid FAIL names a failure of its channel: R and L have one, W and S share three. */
  lemma FailuresFitChannels(kind: Kind, p: Payload, textRef: string -> string)
    requires ValidHistorical(kind, p, textRef) && p.outcome == Fail
    ensures p.channel == R <==> p.failure == Some(WrongMeaning)
    ensures p.channel == L <==> p.failure == Some(WrongInterpretation)
    ensures p.channel == W || p.channel == S <==>
            p.failure in {Some(SemanticMisuse), Some(CollocationMisuse), Some(FormMisuse)}
  {
  }

  /** A valid verdict on meaning names its assessor, its reviewer and the version reviewed. */
  lemma VerdictsAreReviewed(kind: Kind, p: Payload, textRef: string -> string)
    requires ValidHistorical(kind, p, textRef) && (p.outcome == Pass || p.outcome == Fail)
    ensures p.provenance.semantic.Some? && p.provenance.review.Some?
    ensures p.provenance.review.value.decision == Approve
    ensures p.provenance.review.value.reviewer != "" && p.provenance.review.value.version >= 1
    ensures p.modelId == p.provenance.semantic.value.assessorId != ""
    ensures p.modelVersion == p.provenance.semantic.value.assessorVersion != ""
  {
  }

  // -------------------------------------------------------------------------
  // Companions
  // -------------------------------------------------------------------------

  predicate Companions(speak: Payload, judge: Payload) {
    && speak.attempt == judge.attempt && speak.channel == judge.channel && speak.stimulus == judge.stimulus
    && speak.outcome == judge.outcome && speak.passed == judge.passed
    && speak.modelId == judge.modelId && speak.modelVersion == judge.modelVersion
    && speak.authority == judge.authority && speak.provenance == judge.provenance
    && speak.response == judge.response
    && speak.failure == judge.failure && speak.reason == judge.reason
  }

  /** A SPEAK leaves its JUDGE no freedom but the novelty bit. */
  lemma SpeakDeterminesJudge(speak: Payload, judge: Payload, other: Payload)
    requires SpeechJudge(judge) && SpeechJudge(other) && Companions(speak, judge) && Companions(speak, other)
    ensures judge == other.(novel := judge.novel)
    ensures judge.outcome == Omitted || judge.outcome == Abstain ==> judge == other
  {
  }

  // -------------------------------------------------------------------------
  // Planners
  // -------------------------------------------------------------------------

  /** A captured attempt as the planners receive it. */
  datatype Evidence = Evidence(attempt: AttemptId, response: string, novel: bool)

  datatype SemanticResult =
    | Passed
    | FailedWith(code: Failure)
    | Abstained(reason: Reason)

  /** A reviewed semantic assessment. */
  datatype Material = Material(stage: SemanticStage, review: ReviewStage, result: SemanticResult)

  /** What importing and reviewing an assessment guarantees. */
  predicate Materialized(c: Channel, m: Material) {
    && StageOk(m.stage) && ReviewOk(m.review)
    && (m.review.decision == Reject <==> m.result == Abstained(ReviewerRejected))
    && match m.result
       case Passed => true
       case FailedWith(f) => FailureFits(c, f)
       case Abstained(r) => SemanticAbstention(r)
  }

  function Base(e: Evidence, outcome: Verdict, authority: Authority, modelId: string, modelVersion: string,
                provenance: Provenance): Payload {
    Payload(e.attempt, e.attempt.channel, e.attempt.stimulus, outcome, outcome == Pass, modelId, modelVersion,
            authority, provenance, Some(e.response), None, None, None, None, None, None)
  }

  function WithLifecycle(p: Payload, novel: bool): Payload {
    if p.outcome == Pass || p.outcome == Fail
    then p.(assessmentId := Some(p.attempt), stimulusRef := Some(p.stimulus), novel := Some(novel))
    else p
  }

  /** Authority, code and payload of a semantic result, shared by text and speech. */
  function FromMaterial(e: Evidence, m: Material, provenance: Provenance): Payload {
    var staged := provenance.(semantic := Some(m.stage), review := Some(m.review));
    match m.result
    case Passed => Base(e, Pass, SemanticModel, m.stage.assessorId, m.stage.assessorVersion, staged)
    case FailedWith(f) =>
      Base(e, Fail, SemanticModel, m.stage.assessorId, m.stage.assessorVersion, staged).(failure := Some(f))
    case Abstained(r) =>
      Base(e, Abstain, PolicyRule, POLICY_ID, POLICY_VERSION, staged.(policy := true)).(reason := Some(r))
  }

  function FromAbsence(e: Evidence, provenance: Provenance): Payload {
    Base(e, Omitted, DeterministicGate, PRESENCE_GATE_ID, PRESENCE_GATE_VERSION, provenance)
      .(reason := Some(TargetAbsent))
  }

  function FromPolicy(e: Evidence, reason: Reason, provenance: Provenance): Payload {
    Base(e, Abstain, PolicyRule, POLICY_ID, POLICY_VERSION, provenance.(policy := true)).(reason := Some(reason))
  }

  const NOTHING := Provenance(None, None, None, None, false)

  /** None: the evidence handed in does not fit the channel. */
  function PlanTextJudge(e: Evidence, semantic: Option<Material>, present: Option<bool>): Option<Payload> {
    if e.attempt.channel == S then None
    else if e.attempt.channel != W then
      if present.Some? || semantic.None? then None
      else Some(WithLifecycle(FromMaterial(e, semantic.value, NOTHING), e.novel))
    else
      match present
      case None => None
      case Some(false) =>
        if semantic.Some? then None else Some(FromAbsence(e, NOTHING.(targetPresent := Some(false))))
      case Some(true) =>
        if semantic.None? then None
        else Some(WithLifecycle(FromMaterial(e, semantic.value, NOTHING.(targetPresent := Some(true))), e.novel))
  }

  function PlanPolicyJudge(attempt: AttemptId, code: Code): Option<Payload> {
    if attempt.channel == S then None
    else
      Some(Payload(attempt, attempt.channel, attempt.stimulus, Abstain, false, POLICY_ID, POLICY_VERSION, PolicyRule,
                   NOTHING.(policy := true), None, None, Some(Policy(code)), None, None, None, None))
  }

  datatype SpeechPlan = SpeechPlan(speak: Payload, judge: Payload)

  /** The same facts once as SPEAK, with the transcript, and once as JUDGE, with the lifecycle fields. */
  function PlanSpeech(e: Evidence, t: Transcription, text: string, present: Option<bool>, semantic: Option<Material>)
    : Option<SpeechPlan>
  {
    if e.attempt.channel != S then None
    else
      var heard := NOTHING.(transcription := Some(t));
      match t
      case Uncertain =>
        if present.Some? || semantic.Some? then None
        else Some(Pair(FromPolicy(e, TranscriptionUncertain, heard), "", e.novel))
      case Failed(code) =>
        if present.Some? || semantic.Some? then None
        else Some(Pair(FromPolicy(e, TranscriptionFailed(code), heard), "", e.novel))
      case Success(_) =>
        (match present
         case None => None
         case Some(false) =>
           if semantic.Some? then None
           else Some(Pair(FromAbsence(e, heard.(targetPresent := Some(false))), text, e.novel))
         case Some(true) =>
           if semantic.None? then None
           else Some(Pair(FromMaterial(e, semantic.value, heard.(targetPresent := Some(true))), text, e.novel)))
  }

  function Pair(facts: Payload, text: string, novel: bool): SpeechPlan {
    SpeechPlan(facts.(transcript := Some(text)), WithLifecycle(facts, novel))
  }

  /** The deterministic stage in front of a semantic one: the target is there, where the channel asks for it. */
  function TextGate(c: Channel): Provenance {
    if c == W then NOTHING.(targetPresent := Some(true)) else NOTHING
  }

  lemma PassedTextIsValid(e: Evidence, m: Material, textRef: string -> string)
    requires e.attempt.channel != S && Materialized(e.attempt.channel, m) && m.result.Passed?
    ensures var p := WithLifecycle(FromMaterial(e, m, TextGate(e.attempt.channel)), e.novel);
            TextJudge(p) && ValidHistorical(Judge, p, textRef)
  {
  }

  lemma FailedTextIsValid(e: Evidence, m: Material, textRef: string -> string)
    requires e.attempt.channel != S && Materialized(e.attempt.channel, m) && m.result.FailedWith?
    ensures var p := WithLifecycle(FromMaterial(e, m, TextGate(e.attempt.channel)), e.novel);
            TextJudge(p) && ValidHistorical(Judge, p, textRef)
  {
  }

  lemma AbstainedTextIsValid(e: Evidence, m: Material, textRef: string -> string)
    requires e.attempt.channel != S && Materialized(e.attempt.channel, m) && m.result.Abstained?
    ensures var p := WithLifecycle(FromMaterial(e, m, TextGate(e.attempt.channel)), e.novel);
            TextJudge(p) && ValidHistorical(Judge, p, textRef)
  {
  }

  lemma AbsentTextIsValid(e: Evidence, textRef: string -> string)
    requires e.attempt.channel == W
    ensures var p := FromAbsence(e, NOTHING.(targetPresent := Some(false)));
            TextJudge(p) && ValidHistorical(Judge, p, textRef)
  {
  }

  /** What the text planner issues: a semantic result behind its gate, or the target's absence. */
  lemma TextPlanCases(e: Evidence, semantic: Option<Material>, present: Option<bool>)
    requires PlanTextJudge(e, semantic, present).Some?
    ensures e.attempt.channel != S
    ensures PlanTextJudge(e, semantic, present).value ==
            if semantic.Some? then WithLifecycle(FromMaterial(e, semantic.value, TextGate(e.attempt.channel)), e.novel)
            else FromAbsence(e, NOTHING.(targetPresent := Some(false)))
    ensures semantic.None? ==> e.attempt.channel == W
  {
  }

  /** Whatever the text planner issues on materialized evidence, the history validator accepts unchanged. */
  lemma TextPlansAreValid(e: Evidence, semantic: Option<Material>, present: Option<bool>, textRef: string -> string)
    requires semantic.Some? ==> Materialized(e.attempt.channel, semantic.value)
    requires PlanTextJudge(e, semantic, present).Some?
    ensures var p := PlanTextJudge(e, semantic, present).value;
            TextJudge(p) && ValidHistorical(Judge, p, textRef)
  {
    TextPlanCases(e, semantic, present);
    match semantic
    case None => AbsentTextIsValid(e, textRef);
    case Some(m) =>
      match m.result {
        case Passed => PassedTextIsValid(e, m, textRef);
        case FailedWith(_) => FailedTextIsValid(e, m, textRef);
        case Abstained(_) => AbstainedTextIsValid(e, m, textRef);
      }
  }

  lemma PolicyPlansAreValid(attempt: AttemptId, code: Code, textRef: string -> string)
    requires PlanPolicyJudge(attempt, code).Some?
    ensures var p := PlanPolicyJudge(attempt, code).value;
            PolicyJudge(p) && ValidHistorical(Judge, p, textRef)
  {
  }

  /** Both halves of a pair are accepted, and they are companions. */
  predicate PairIsValid(plan: SpeechPlan, textRef: string -> string) {
    && ValidHistorical(Speak, plan.speak, textRef) && ValidHistorical(Judge, plan.judge, textRef)
    && Companions(plan.speak, plan.judge)
  }

  /** Both halves of a speech plan are accepted, and they are companions. */
  lemma SpeechPlansAreValid(e: Evidence, t: Transcription, text: string, present: Option<bool>,
                            semantic: Option<Material>,
                            textRef: string -> string)
    requires semantic.Some? ==> Materialized(S, semantic.value)
    requires t.Success? ==> text != "" && textRef(text) == t.approvedRef
    requires PlanSpeech(e, t, text, present, semantic).Some?
    ensures PairIsValid(PlanSpeech(e, t, text, present, semantic).value, textRef)
  {
    match t
    case Uncertain => UnheardIsValid(e, t, TranscriptionUncertain, textRef);
    case Failed(code) => UnheardIsValid(e, t, TranscriptionFailed(code), textRef);
    case Success(_) =>
      if semantic.Some? {
        HeardIsValid(e, t, text, semantic.value, textRef);
      } else {
        AbsentIsValid(e, t, text, textRef);
      }
  }

  lemma UnheardIsValid(e: Evidence, t: Transcription, reason: Reason, textRef: string -> string)
    requires e.attempt.channel == S
    requires match t case Uncertain => reason == TranscriptionUncertain
                     case Failed(code) => reason == TranscriptionFailed(code)
                     case Success(_) => false
    ensures PairIsValid(Pair(FromPolicy(e, reason, NOTHING.(transcription := Some(t))), "", e.novel), textRef)
  {
  }

  lemma AbsentIsValid(e: Evidence, t: Transcription, text: string, textRef: string -> string)
    requires e.attempt.channel == S && t.Success? && text != "" && textRef(text) == t.approvedRef
    ensures var facts := FromAbsence(e, NOTHING.(transcription := Some(t), targetPresent := Some(false)));
            PairIsValid(Pair(facts, text, e.novel), textRef)
  {
  }

  lemma HeardIsValid(e: Evidence, t: Transcription, text: string, m: Material, textRef: string -> string)
    requires e.attempt.channel == S && t.Success? && text != "" && textRef(text) == t.approvedRef && Materialized(S, m)
    ensures var facts := FromMaterial(e, m, NOTHING.(transcription := Some(t), targetPresent := Some(true)));
            PairIsValid(Pair(facts, text, e.novel), textRef)
  {
    var facts := FromMaterial(e, m, NOTHING.(transcription := Some(t), targetPresent := Some(true)));
    MaterialCloses(e, m, NOTHING.(transcription := Some(t), targetPresent := Some(true)));
    assert SpeechCommon(facts);
  }

  /** A payload made of materialized evidence is closed semantically. */
  lemma MaterialCloses(e: Evidence, m: Material, provenance: Provenance)
    requires Materialized(e.attempt.channel, m) && !provenance.policy
    ensures SemanticClosure(FromMaterial(e, m, provenance))
    ensures FromMaterial(e, m, provenance).modelId != "" && FromMaterial(e, m, provenance).modelVersion != ""
  {
  }

  // -------------------------------------------------------------------------
  // What a plan says
  // -------------------------------------------------------------------------

  /** The facts of the attempt, and the lifecycle keys exactly on a verdict that counts. */
  predicate About(p: Payload, e: Evidence) {
    && p.attempt == e.attempt && p.channel == e.attempt.channel && p.stimulus == e.attempt.stimulus
    && p.response == Some(e.response)
    && (p.passed <==> p.outcome == Pass)
  }

  predicate CountsAs(p: Payload, novel: bool) {
    if p.outcome == Pass || p.outcome == Fail
    then p.assessmentId == Some(p.attempt) && p.stimulusRef == Some(p.stimulus) && p.novel == Some(novel)
    else p.assessmentId.None? && p.stimulusRef.None? && p.novel.None?
  }

  /** The verdict is that of the reviewed material, with its failure or its reason and in its name. */
  ghost predicate Repeats(p: Payload, m: Material) {
    && p.outcome != Omitted
    && (p.outcome == Pass <==> m.result == Passed)
    && (forall f :: p.outcome == Fail && p.failure == Some(f) <==> m.result == FailedWith(f))
    && (forall r :: p.outcome == Abstain && p.reason == Some(r) <==> m.result == Abstained(r))
    && p.provenance.semantic == Some(m.stage) && p.provenance.review == Some(m.review)
    && if m.result.Abstained?
       then p.provenance.policy && AuthorityIs(p, PolicyRule, POLICY_ID, POLICY_VERSION)
       else !p.provenance.policy && AuthorityIs(p, SemanticModel, m.stage.assessorId, m.stage.assessorVersion)
  }

  /** The verdict is that the target is absent, in the name of the gate. */
  predicate SaysAbsent(p: Payload) {
    && p.outcome == Omitted && p.reason == Some(TargetAbsent)
    && p.provenance.semantic.None? && p.provenance.review.None? && !p.provenance.policy
    && AuthorityIs(p, DeterministicGate, PRESENCE_GATE_ID, PRESENCE_GATE_VERSION)
  }

  /** The verdict is to abstain for the reason, in the name of the policy. */
  predicate Abstains(p: Payload, reason: Reason) {
    && p.outcome == Abstain && p.reason == Some(reason) && p.failure.None?
    && p.provenance.semantic.None? && p.provenance.review.None? && p.provenance.policy
    && AuthorityIs(p, PolicyRule, POLICY_ID, POLICY_VERSION)
  }

  /**
   * When a text JUDGE is issued, and what it says: the material's own verdict, or
   * that the target is absent.
   */
  lemma TextPlanSays(e: Evidence, semantic: Option<Material>, present: Option<bool>)
    ensures PlanTextJudge(e, semantic, present).Some? <==>
            match e.attempt.channel
            case S => false
            case W => present.Some? && (semantic.Some? <==> present.value)
            case _ => present.None? && semantic.Some?
    ensures PlanTextJudge(e, semantic, present).Some? ==>
              var p := PlanTextJudge(e, semantic, present).value;
              && About(p, e) && CountsAs(p, e.novel)
              && p.provenance.targetPresent == present && p.provenance.transcription.None? && p.transcript.None?
              && (if semantic.Some? then Repeats(p, semantic.value) else SaysAbsent(p))
  {
    if PlanTextJudge(e, semantic, present).Some? && semantic.Some? {
      MaterialSays(e, semantic.value, NOTHING.(targetPresent := present));
    }
  }

  lemma MaterialSays(e: Evidence, m: Material, provenance: Provenance)
    requires !provenance.policy
    ensures var p := FromMaterial(e, m, provenance);
            && About(p, e) && Repeats(p, m) && p.transcript.None?
            && p.provenance == provenance.(semantic := Some(m.stage), review := Some(m.review),
                                           policy := m.result.Abstained?)
  {
  }

  lemma PolicyPlanSays(attempt: AttemptId, code: Code)
    ensures PlanPolicyJudge(attempt, code).Some? <==> attempt.channel != S
    ensures PlanPolicyJudge(attempt, code).Some? ==>
              var p := PlanPolicyJudge(attempt, code).value;
              && p.attempt == attempt && p.channel == attempt.channel && p.stimulus == attempt.stimulus
              && Abstains(p, Policy(code)) && !p.passed && p.response.None? && p.transcript.None? && CountsAs(p, true)
  {
  }

  /** What both halves of a speech plan say, but for the lifecycle keys and the transcript. */
  ghost predicate SaysOfSpeech(p: Payload, e: Evidence, t: Transcription, present: Option<bool>,
                               semantic: Option<Material>)
  {
    && About(p, e)
    && p.provenance.transcription == Some(t) && p.provenance.targetPresent == present
    && match t
       case Uncertain => Abstains(p, TranscriptionUncertain)
       case Failed(code) => Abstains(p, TranscriptionFailed(code))
       case Success(_) => if semantic.Some? then Repeats(p, semantic.value) else SaysAbsent(p)
  }

  /**
   * When a speech pair is issued, and what both halves say. Only the SPEAK has the
   * transcript, and only the JUDGE counts.
   */
  lemma SpeechPlanSays(e: Evidence, t: Transcription, text: string, present: Option<bool>, semantic: Option<Material>)
    ensures PlanSpeech(e, t, text, present, semantic).Some? <==>
            && e.attempt.channel == S
            && if t.Success? then present.Some? && (semantic.Some? <==> present.value)
               else present.None? && semantic.None?
    ensures PlanSpeech(e, t, text, present, semantic).Some? ==>
              var plan := PlanSpeech(e, t, text, present, semantic).value;
              && SaysOfSpeech(plan.speak, e, t, present, semantic)
              && SaysOfSpeech(plan.judge, e, t, present, semantic)
              && plan.speak.transcript == Some(if t.Success? then text else "") && plan.judge.transcript.None?
              && NoLifecycleFields(plan.speak) && CountsAs(plan.judge, e.novel)
  {
    if PlanSpeech(e, t, text, present, semantic).Some? && semantic.Some? {
      MaterialSays(e, semantic.value, NOTHING.(transcription := Some(t), targetPresent := present));
    }
  }

  /** An issued text verdict reaches the lifecycle: as a pass, as a failure, or not at all. */
  lemma VerdictReachesLifecycle(e: Evidence, m: Material, present: Option<bool>, ts: int, now: int,
                                name: AttemptId -> string, textRef: string -> string)
    requires Materialized(e.attempt.channel, m) && PlanTextJudge(e, Some(m), present).Some?
    requires ts <= now && name(e.attempt) != "" && e.attempt.stimulus != ""
    ensures LifecycleAssessment(PlanTextJudge(e, Some(m), present).value, ts, now, name) ==
            if m.result.Abstained? then Ok(None)
            else Ok(Some(M.Assessment(e.attempt.channel, m.result.Passed?, name(e.attempt), e.attempt.stimulus,
                                      e.novel, ts)))
  {
    TextPlanSays(e, Some(m), present);
    TextPlansAreValid(e, Some(m), present, textRef);
    LifecycleAccepts(PlanTextJudge(e, Some(m), present).value, ts, now, name, textRef);
  }

  // -------------------------------------------------------------------------
  // What is valid was planned
  // -------------------------------------------------------------------------

  /** The payload is about the stimulus and channel of its attempt. */
  predicate Aligned(p: Payload) {
    p.channel == p.attempt.channel && p.stimulus == p.attempt.stimulus
  }

  /** The evidence a payload can have been planned on. */
  function EvidenceBehind(p: Payload): Evidence
    requires p.response.Some?
  {
    Evidence(p.attempt, p.response.value, p.novel.Some? && p.novel.value)
  }

  function ResultBehind(p: Payload): SemanticResult
    requires p.outcome == Fail ==> p.failure.Some?
    requires p.outcome == Abstain ==> p.reason.Some?
  {
    match p.outcome
    case Fail => FailedWith(p.failure.value)
    case Abstain => Abstained(p.reason.value)
    case _ => Passed
  }

  function MaterialBehind(p: Payload): Option<Material>
    requires SemanticClosure(p)
  {
    Some(Material(p.provenance.semantic.value, p.provenance.review.value, ResultBehind(p)))
  }

  /** Every text JUDGE that the history validator accepts is what the planner issues on some materialized evidence. */
  lemma ValidTextWasPlanned(p: Payload) returns (e: Evidence, semantic: Option<Material>, present: Option<bool>)
    requires TextJudge(p) && Aligned(p)
    ensures semantic.Some? ==> Materialized(e.attempt.channel, semantic.value)
    ensures PlanTextJudge(e, semantic, present) == Some(p)
  {
    e, present := EvidenceBehind(p), p.provenance.targetPresent;
    semantic := if p.outcome == Omitted then None else MaterialBehind(p);
  }

  lemma ValidPolicyWasPlanned(p: Payload)
    requires PolicyJudge(p) && Aligned(p)
    ensures PlanPolicyJudge(p.attempt, p.reason.value.code) == Some(p)
  {
  }

  /** And so is every speech JUDGE, behind some SPEAK. */
  lemma ValidSpeechWasPlanned(p: Payload, text: string)
    returns (e: Evidence, t: Transcription, present: Option<bool>, semantic: Option<Material>)
    requires SpeechJudge(p) && Aligned(p)
    ensures semantic.Some? ==> Materialized(S, semantic.value)
    ensures var plan := PlanSpeech(e, t, text, present, semantic); plan.Some? && plan.value.judge == p
  {
    e, t, present := EvidenceBehind(p), p.provenance.transcription.value, p.provenance.targetPresent;
    semantic := if t.Success? && present == Some(true) then MaterialBehind(p) else None;
  }

  /** And every SPEAK, with its transcript. */
  lemma ValidSpeakWasPlanned(p: Payload, textRef: string -> string)
    returns (e: Evidence, t: Transcription, text: string, present: Option<bool>, semantic: Option<Material>)
    requires SpeakEvent(p, textRef) && Aligned(p)
    ensures semantic.Some? ==> Materialized(S, semantic.value)
    ensures t.Success? ==> text != "" && textRef(text) == t.approvedRef
    ensures var plan := PlanSpeech(e, t, text, present, semantic); plan.Some? && plan.value.speak == p
  {
    e, t, present := EvidenceBehind(p), p.provenance.transcription.value, p.provenance.targetPresent;
    text := p.transcript.value;
    semantic := if t.Success? && present == Some(true) then MaterialBehind(p) else None;
  }

  // -------------------------------------------------------------------------
  // What the lifecycle reads
  // -------------------------------------------------------------------------

  datatype HistoryError = HistoryError

  predicate ClaimsLifecycle(p: Payload) {
    p.assessmentId.Some? || p.stimulusRef.Some? || p.novel.Some?
  }

  /** `name` turns an attempt identity into the string that the lifecycle compares. */
  function LifecycleAssessment(p: Payload, ts: int, now: int, name: AttemptId -> string)
    : Result<Option<M.Assessment>, HistoryError>
  {
    if p.passed != (p.outcome == Pass) then Err(HistoryError)
    else if p.outcome == Omitted || p.outcome == Abstain then
      if ClaimsLifecycle(p) then Err(HistoryError) else Ok(None)
    else if p.assessmentId.None? || p.stimulusRef.None? || p.novel.None? then Err(HistoryError)
    else if name(p.assessmentId.value) == "" || p.stimulusRef.value == "" || p.modelId == "" || p.modelVersion == ""
    then Err(HistoryError)
    else if now < ts then Err(HistoryError)
    else
      Ok(Some(M.Assessment(p.channel, p.passed, name(p.assessmentId.value), p.stimulusRef.value, p.novel.value, ts)))
  }

  /**
   * At any time after it was stamped, the lifecycle accepts every JUDGE of the
   * history, and reads an assessment from it exactly when it says PASS or FAIL.
   */
  lemma LifecycleAccepts(p: Payload, ts: int, now: int, name: AttemptId -> string, textRef: string -> string)
    requires ValidHistorical(Judge, p, textRef) && ts <= now
    requires name(p.attempt) != "" && p.stimulus != ""
    ensures LifecycleAssessment(p, ts, now, name).Ok?
    ensures LifecycleAssessment(p, ts, now, name).value.Some? <==> p.outcome == Pass || p.outcome == Fail
    ensures LifecycleAssessment(p, ts, now, name).value.Some? ==>
              var a := LifecycleAssessment(p, ts, now, name).value.value;
              && a.channel == p.channel && a.passed == (p.outcome == Pass)
              && a.id == name(p.attempt) && a.stimulus == p.stimulus
              && Some(a.novel) == p.novel && a.ts == ts
  {
  }
}
