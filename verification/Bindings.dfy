/**
 * What an emitted event has to do with the ledgers: its attempt was reserved once,
 * its response is the captured artifact, or its reason the disposal's code, and its
 * novelty bit is that of the reservation. The producer emits exactly what is so bound.
 */
module Bindings {
  import opened Wrappers
  import opened Lifecycle
  import opened Ledgers
  import opened Payloads
  import opened Producer
  import Plans = Payloads

  // -------------------------------------------------------------------------
  // What binds a payload, said of the records
  // -------------------------------------------------------------------------

  /** Reserved in the record `i` and in no other. */
  ghost predicate ReservedAt(h: Histories, a: AttemptId, i: nat) {
    && i < |h.exposures| && h.exposures[i].attempt == a
    && forall j :: 0 <= j < |h.exposures| && h.exposures[j].attempt == a ==> j == i
  }

  /** No reservation before `i` shows the same stimulus for the same unit and channel. */
  ghost predicate NovelAt(h: Histories, i: nat)
    requires i < |h.exposures|
  {
    var a := h.exposures[i].attempt;
    forall j :: 0 <= j < i ==>
      var b := h.exposures[j].attempt;
      !(b.unitKey == a.unitKey && b.channel == a.channel && b.stimulus == a.stimulus)
  }

  /** A receipt has the response, and no disposal has the attempt. */
  ghost predicate Answered(h: Histories, a: AttemptId, response: string) {
    && (exists r :: r in h.captures && r.attempt == a && r.artifact == response)
    && forall d :: d in h.dispositions ==> d.attempt != a
  }

  /** A disposal of the attempt gives the reason, and no receipt has the attempt. */
  ghost predicate Excused(h: Histories, a: AttemptId, reason: Option<Reason>) {
    && (exists d :: d in h.dispositions && d.attempt == a && reason == Some(Policy(d.code)))
    && forall r :: r in h.captures ==> r.attempt != a
  }

  ghost predicate Bound(h: Histories, kind: Kind, unitKey: string, p: Payload) {
    && unitKey == p.attempt.unitKey && p.channel == p.attempt.channel && p.stimulus == p.attempt.stimulus
    && (match p.response
        case Some(response) => Answered(h, p.attempt, response)
        case None => Excused(h, p.attempt, p.reason))
    && exists i: nat ::
         && ReservedAt(h, p.attempt, i)
         && (kind == Judge && (p.outcome == Pass || p.outcome == Fail) ==> p.novel == Some(NovelAt(h, i)))
  }

  ghost predicate EventBound(h: Histories, e: LogEvent) {
    e.Recorded? ==> Bound(h, e.kind, e.unitKey, e.payload)
  }

  // -------------------------------------------------------------------------
  // The correspondence is this binding
  // -------------------------------------------------------------------------

  lemma ReservedOnce(h: Histories, artifacts: set<string>, a: AttemptId)
    requires ValidHistories(h, artifacts)
    ensures Count(Exposed(h), a) == 1 <==> exists i: nat :: ReservedAt(h, a, i)
    ensures forall i: nat :: ReservedAt(h, a, i) ==> Novelty(Exposed(h), a) == Some(NovelAt(h, i))
  {
    CountIsMembership(Exposed(h), a);
    if a in Exposed(h) {
      var k: nat :| k < |Exposed(h)| && Exposed(h)[k] == a;
      forall j | 0 <= j < |h.exposures| && h.exposures[j].attempt == a ensures j == k {
        assert Exposed(h)[j] == Exposed(h)[k];
      }
      assert ReservedAt(h, a, k);
    }
    forall i: nat | ReservedAt(h, a, i) ensures Novelty(Exposed(h), a) == Some(NovelAt(h, i)) {
      assert Exposed(h)[i] == a;
      NoveltyAt(Exposed(h), i);
      FirstMeansNovel(h, i);
    }
  }

  lemma FirstMeansNovel(h: Histories, i: nat)
    requires i < |h.exposures|
    ensures FirstOfItsStimulus(Exposed(h), i) <==> NovelAt(h, i)
  {
    forall j | 0 <= j < i ensures Exposed(h)[j] == h.exposures[j].attempt && Exposed(h)[i] == h.exposures[i].attempt {
    }
  }

  lemma AnsweredIsCaptured(h: Histories, a: AttemptId, response: string)
    ensures Answered(h, a, response) <==> CapturedWith(h, a, Some(response))
  {
    ReceiptsListed(h);
    if forall d :: d in h.dispositions ==> d.attempt != a {
      CountDisposed(h, a);
    }
  }

  lemma ExcusedIsDisposed(h: Histories, a: AttemptId, reason: Option<Reason>)
    ensures Excused(h, a, reason) <==>
            reason.Some? && reason.value.Policy? && a !in Captured(h) && HasDisposal(h, a, reason.value.code)
  {
    ReceiptsListed(h);
    if a in Captured(h) {
      var r := ReceiptOf(h, a);
    }
    if reason.Some? && reason.value.Policy? && HasDisposal(h, a, reason.value.code) {
      var d :| d in h.dispositions && d.attempt == a && d.code == reason.value.code;
      assert reason == Some(Policy(d.code));
    }
  }

  /** On a payload that the history validator accepts, the producer's check is the binding. */
  lemma CorrespondsExactly(kind: Kind, unitKey: string, p: Payload, h: Histories, artifacts: set<string>,
                           textRef: string -> string)
    requires ValidHistories(h, artifacts) && ValidHistorical(kind, p, textRef)
    ensures Corresponds(kind, unitKey, p, h) <==> Bound(h, kind, unitKey, p)
  {
    ReservedOnce(h, artifacts, p.attempt);
    if p.response.Some? {
      AnsweredIsCaptured(h, p.attempt, p.response.value);
    } else {
      ExcusedIsDisposed(h, p.attempt, p.reason);
    }
  }

  // -------------------------------------------------------------------------
  // What the producer accepts and leaves
  // -------------------------------------------------------------------------

  lemma PlanCorrespondsExactly(plan: Planned, h: Histories, artifacts: set<string>, textRef: string -> string)
    requires ValidHistories(h, artifacts) && Issued(plan, textRef)
    ensures PlanCorresponds(plan, h) <==> forall e :: e in EventsOf(plan) ==> EventBound(h, e)
  {
    CorrespondsExactly(Judge, plan.unitKey, plan.judge, h, artifacts, textRef);
    match plan
    case JudgePlan(u, j) =>
      assert Recorded(Judge, u, j) in EventsOf(plan);
    case PairPlan(u, s, j) =>
      CorrespondsExactly(Speak, u, s, h, artifacts, textRef);
      var es := EventsOf(plan);
      assert es == [Recorded(Speak, u, s), Recorded(Judge, u, j)];
      assert es[0] in es && es[1] in es;
  }

  /**
   * A plan is accepted exactly when the ledgers bind its events and the log has of
   * its attempt a first part of them; then the rest of them is appended.
   */
  lemma AcceptedExactlyWhenBound(s: State, plan: Planned, artifacts: set<string>, textRef: string -> string)
    requires Holds(s, artifacts, textRef) && Issued(plan, textRef)
    ensures Emission(s.log, s.histories, artifacts, plan, textRef).Some? <==>
            && (forall e :: e in EventsOf(plan) ==> EventBound(s.histories, e))
            && Of(s.log, AttemptOf(plan)) <= EventsOf(plan)
    ensures Emission(s.log, s.histories, artifacts, plan, textRef).Some? ==>
              EventsOf(plan)
              == Of(s.log, AttemptOf(plan)) + Emission(s.log, s.histories, artifacts, plan, textRef).value
  {
    PlanCorrespondsExactly(plan, s.histories, artifacts, textRef);
    if Emission(s.log, s.histories, artifacts, plan, textRef).Some? {
      AcceptedIsUnderway(s, plan, artifacts, textRef);
    }
    if PlanCorresponds(plan, s.histories) && Underway(s.log, plan) {
      EmissionIsTheRest(s.log, s.histories, artifacts, plan, textRef);
    }
  }

  /** Whatever was emitted in a run from an empty log is bound by the ledgers of its end. */
  lemma EveryEventIsBound(h: Histories, moves: seq<Move>, s: State, artifacts: set<string>, textRef: string -> string)
    requires ValidHistories(h, artifacts) && Reaches(State([], h), moves, s, artifacts, textRef)
    ensures forall e :: e in s.log ==> EventBound(s.histories, e)
  {
    EveryRunFromEmpty(h, moves, s, artifacts, textRef);
    forall e | e in s.log ensures EventBound(s.histories, e) {
      assert EventOk(e, s.histories, textRef);
      if e.Recorded? {
        CorrespondsExactly(e.kind, e.unitKey, e.payload, s.histories, artifacts, textRef);
      }
    }
  }

  // -------------------------------------------------------------------------
  // Which logs and which plans are accepted
  // -------------------------------------------------------------------------

  /** The SPEAK and the JUDGE say the same of one attempt, but for transcript and lifecycle keys. */
  predicate AgreesWith(speak: LogEvent, judge: LogEvent) {
    && speak.Recorded? && judge.Recorded? && speak.kind == Speak && speak.unitKey == judge.unitKey
    && var p := judge.payload;
       speak.payload
       == p.(transcript := speak.payload.transcript, assessmentId := None, stimulusRef := None, novel := None)
  }

  ghost predicate Readable(log: seq<LogEvent>, h: Histories, textRef: string -> string) {
    && (forall e :: e in log && e.Recorded? ==> ValidHistorical(e.kind, e.payload, textRef) && EventBound(h, e))
    && (forall i, j :: 0 <= i < j < |log| && log[i].Recorded? && log[j].Recorded? ==>
          log[i].kind != log[j].kind || log[i].payload.attempt != log[j].payload.attempt)
    && forall e :: e in log && e.Recorded? && e.kind == Judge && e.payload.channel == S ==>
         exists s :: s in log && AgreesWith(s, e)
  }

  lemma CompanionsAgree(s: LogEvent, j: LogEvent, textRef: string -> string)
    requires SpeechJudgeEvent(j) && SpeechJudge(j.payload)
    requires s.Recorded? && s.kind == Speak ==> SpeakEvent(s.payload, textRef)
    ensures CompanionOf(s, j) <==> AgreesWith(s, j)
  {
  }

  /**
   * A log is accepted exactly when each event is valid and bound, no slot is filled
   * twice, and each speech JUDGE has a SPEAK that says the same.
   */
  lemma LogAcceptedExactlyWhen(log: seq<LogEvent>, h: Histories, artifacts: set<string>, textRef: string -> string)
    requires ValidHistories(h, artifacts)
    ensures ValidLog(log, h, textRef) <==> Readable(log, h, textRef)
  {
    forall e | e in log && e.Recorded? && ValidHistorical(e.kind, e.payload, textRef)
      ensures EventOk(e, h, textRef) <==> EventBound(h, e)
    {
      CorrespondsExactly(e.kind, e.unitKey, e.payload, h, artifacts, textRef);
    }
    if forall e :: e in log && e.Recorded? ==> ValidHistorical(e.kind, e.payload, textRef) {
      forall s, j | s in log && j in log && SpeechJudgeEvent(j) ensures CompanionOf(s, j) <==> AgreesWith(s, j) {
        CompanionsAgree(s, j, textRef);
      }
    }
  }

  /** Everything the planners make of reviewed evidence is issued. */
  lemma PlansAreIssued(unitKey: string, e: Plans.Evidence, semantic: Option<Material>, present: Option<bool>,
                       t: Transcription, text: string, code: Code, textRef: string -> string)
    requires semantic.Some? ==> Materialized(e.attempt.channel, semantic.value)
    requires t.Success? ==> text != "" && textRef(text) == t.approvedRef
    ensures var judge := PlanTextJudge(e, semantic, present);
            judge.Some? ==> Issued(JudgePlan(unitKey, judge.value), textRef)
    ensures var judge := PlanPolicyJudge(e.attempt, code);
            judge.Some? ==> Issued(JudgePlan(unitKey, judge.value), textRef)
    ensures var plan := PlanSpeech(e, t, text, present, semantic);
            plan.Some? ==> Issued(PairPlan(unitKey, plan.value.speak, plan.value.judge), textRef)
  {
    if PlanTextJudge(e, semantic, present).Some? {
      TextPlanSays(e, semantic, present);
      TextPlansAreValid(e, semantic, present, textRef);
    }
    if PlanPolicyJudge(e.attempt, code).Some? {
      PolicyPlansAreValid(e.attempt, code, textRef);
    }
    if PlanSpeech(e, t, text, present, semantic).Some? {
      SpeechPlanSays(e, t, text, present, semantic);
      SpeechPlansAreValid(e, t, text, present, semantic, textRef);
    }
  }
}
