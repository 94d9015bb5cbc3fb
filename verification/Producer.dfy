/**
 * Appending planned JUDGE and SPEAK/JUDGE evidence to the event log exactly once,
 * although the log takes one record at a time and an append may fail before or
 * after it was applied.
 */
module Producer {
  import opened Wrappers
  import opened Lifecycle
  import opened Ledgers
  import opened Payloads
  import opened Faults

  datatype LogEvent =
    | Recorded(kind: Kind, unitKey: string, payload: Payload)
    | Unrelated(tag: string)

  /** A speech plan appends two events, any other plan one. */
  datatype Planned =
    | JudgePlan(unitKey: string, judge: Payload)
    | PairPlan(unitKey: string, speak: Payload, judge: Payload)

  function AttemptOf(plan: Planned): AttemptId {
    plan.judge.attempt
  }

  function EventsOf(plan: Planned): seq<LogEvent> {
    match plan
    case JudgePlan(u, j) => [Recorded(Judge, u, j)]
    case PairPlan(u, s, j) => [Recorded(Speak, u, s), Recorded(Judge, u, j)]
  }

  /** What the planners issue. */
  predicate Issued(plan: Planned, textRef: string -> string) {
    match plan
    case JudgePlan(_, j) => j.channel != S && ValidHistorical(Judge, j, textRef)
    case PairPlan(_, s, j) =>
      ValidHistorical(Speak, s, textRef) && ValidHistorical(Judge, j, textRef) && j.channel == S && Companions(s, j)
  }

  // -------------------------------------------------------------------------
  // Correspondence with the ledgers
  // -------------------------------------------------------------------------

  predicate CapturedWith(h: Histories, a: AttemptId, response: Option<string>) {
    response.Some? && HasReceipt(h, a, response.value) && a !in Disposed(h)
  }

  predicate Corresponds(kind: Kind, unitKey: string, p: Payload, h: Histories) {
    var a := p.attempt;
    && Count(Exposed(h), a) == 1
    && unitKey == a.unitKey && p.channel == a.channel && p.stimulus == a.stimulus
    && (if kind == Speak || p.channel == S then p.channel == S && CapturedWith(h, a, p.response)
        else if p.response.Some? then CapturedWith(h, a, p.response)
        else
          && p.outcome == Abstain && p.reason.Some? && p.reason.value.Policy?
          && a !in Captured(h) && HasDisposal(h, a, p.reason.value.code))
    && (kind == Judge && (p.outcome == Pass || p.outcome == Fail) ==>
          p.assessmentId == Some(a) && p.stimulusRef == Some(p.stimulus) && p.novel == Novelty(Exposed(h), a))
  }

  // -------------------------------------------------------------------------
  // The validated history
  // -------------------------------------------------------------------------

  predicate InSlot(e: LogEvent, kind: Kind, a: AttemptId) {
    e.Recorded? && e.kind == kind && e.payload.attempt == a
  }

  predicate EventOk(e: LogEvent, h: Histories, textRef: string -> string) {
    e.Recorded? ==> ValidHistorical(e.kind, e.payload, textRef) && Corresponds(e.kind, e.unitKey, e.payload, h)
  }

  predicate OneSlot(e: LogEvent, f: LogEvent) {
    e.Recorded? && f.Recorded? && e.kind == f.kind && e.payload.attempt == f.payload.attempt
  }

  predicate SlotsDistinct(log: seq<LogEvent>) {
    forall i, j :: 0 <= i < j < |log| ==> !OneSlot(log[i], log[j])
  }

  predicate Accompanied(log: seq<LogEvent>, j: LogEvent) {
    exists s :: s in log && CompanionOf(s, j)
  }

  predicate CompanionOf(s: LogEvent, j: LogEvent) {
    && s.Recorded? && s.kind == Speak && j.Recorded? && j.kind == Judge
    && s.payload.attempt == j.payload.attempt
    && s.unitKey == j.unitKey && Companions(s.payload, j.payload)
  }

  predicate SpeechJudgeEvent(e: LogEvent) {
    e.Recorded? && e.kind == Judge && e.payload.channel == S
  }

  /** The strict history check, on events that were read completely. */
  predicate ValidLog(log: seq<LogEvent>, h: Histories, textRef: string -> string) {
    && (forall e :: e in log ==> EventOk(e, h, textRef))
    && SlotsDistinct(log)
    && (forall e :: e in log && SpeechJudgeEvent(e) ==> Accompanied(log, e))
  }

  datatype Slot = Missing | Exact | Conflicting

  function Classify(log: seq<LogEvent>, e: LogEvent): Slot
    requires e.Recorded?
  {
    if e in log then Exact
    else if exists f :: f in log && InSlot(f, e.kind, e.payload.attempt) then Conflicting
    else Missing
  }

  // -------------------------------------------------------------------------
  // Emission as a program of appends
  // -------------------------------------------------------------------------

  predicate PlanCorresponds(plan: Planned, h: Histories) {
    match plan
    case JudgePlan(u, j) => Corresponds(Judge, u, j, h)
    case PairPlan(u, s, j) => Corresponds(Speak, u, s, h) && Corresponds(Judge, u, j, h) && Companions(s, j)
  }

  /** What the slots of the plan leave to append; none when they hold something else. */
  function Next(log: seq<LogEvent>, plan: Planned): Option<seq<LogEvent>> {
    match plan
    case JudgePlan(u, j) =>
      (match Classify(log, Recorded(Judge, u, j))
       case Exact => Some([])
       case Conflicting => None
       case Missing => Some([Recorded(Judge, u, j)]))
    case PairPlan(u, s, j) =>
      var speak, judge := Recorded(Speak, u, s), Recorded(Judge, u, j);
      match (Classify(log, speak), Classify(log, judge))
      case (Conflicting, _) => None
      case (_, Conflicting) => None
      case (Missing, Exact) => None
      case (Exact, Exact) => Some([])
      case (Exact, Missing) => Some([judge])
      case (Missing, Missing) => Some([speak, judge])
  }

  /** The appends of one call, in order; none when the call refuses. */
  function Emission(log: seq<LogEvent>, h: Histories, artifacts: set<string>, plan: Planned, textRef: string -> string)
    : Option<seq<LogEvent>>
  {
    if !ValidHistories(h, artifacts) || !PlanCorresponds(plan, h) || !ValidLog(log, h, textRef) then None
    else Next(log, plan)
  }

  // -------------------------------------------------------------------------
  // Ledger growth
  // -------------------------------------------------------------------------

  lemma CorrespondenceGrows(kind: Kind, unitKey: string, p: Payload, h: Histories, h': Histories,
                            artifacts: set<string>)
    requires ValidHistories(h, artifacts) && ValidHistories(h', artifacts) && Grows(h, h')
    requires Corresponds(kind, unitKey, p, h)
    ensures Corresponds(kind, unitKey, p, h')
  {
    var a := p.attempt;
    CountIsMembership(Exposed(h), a);
    CountIsMembership(Exposed(h'), a);
    GrowthKeepsRecords(h, h', a);
    ExposedGrows(h, h');
    NoveltyIsStable(Exposed(h), Exposed(h')[|Exposed(h)|..], a);
    if CapturedWith(h, a, p.response) {
      StaysCaptured(h, h', artifacts, a, p.response.value);
    } else {
      StaysDisposed(h, h', artifacts, a, p.reason.value.code);
    }
  }

  lemma ExposedGrows(h: Histories, h': Histories)
    requires Grows(h, h')
    ensures Exposed(h') == Exposed(h) + Exposed(h')[|Exposed(h)|..]
  {
  }

  lemma StaysCaptured(h: Histories, h': Histories, artifacts: set<string>, a: AttemptId, ref: string)
    requires ValidHistories(h', artifacts) && Grows(h, h') && HasReceipt(h, a, ref)
    ensures HasReceipt(h', a, ref) && a !in Disposed(h')
  {
    GrowthKeepsRecords(h, h', a);
    ReceiptsListed(h');
    var r :| r in h'.captures && r.attempt == a && r.artifact == ref;
    forall d | d in h'.dispositions ensures d.attempt != a {
      assert DisposalBound(h', d);
    }
    CountDisposed(h', a);
  }

  lemma CountDisposed(h: Histories, a: AttemptId)
    requires forall d :: d in h.dispositions ==> d.attempt != a
    ensures a !in Disposed(h)
  {
    forall i | 0 <= i < |Disposed(h)| ensures Disposed(h)[i] != a {
      assert h.dispositions[i] in h.dispositions;
    }
  }

  lemma StaysDisposed(h: Histories, h': Histories, artifacts: set<string>, a: AttemptId, code: Code)
    requires ValidHistories(h', artifacts) && Grows(h, h') && HasDisposal(h, a, code)
    ensures HasDisposal(h', a, code) && a !in Captured(h')
  {
    GrowthKeepsRecords(h, h', a);
    var d :| d in h'.dispositions && d.attempt == a && d.code == code;
    assert DisposalBound(h', d);
  }

  /** Whatever the ledgers add, every event already emitted stays valid, novelty bit included. */
  lemma LogStaysValid(log: seq<LogEvent>, h: Histories, h': Histories, artifacts: set<string>,
                      textRef: string -> string)
    requires ValidHistories(h, artifacts) && ValidHistories(h', artifacts) && Grows(h, h')
    requires ValidLog(log, h, textRef)
    ensures ValidLog(log, h', textRef)
  {
    forall e | e in log ensures EventOk(e, h', textRef) {
      assert EventOk(e, h, textRef);
      if e.Recorded? {
        CorrespondenceGrows(e.kind, e.unitKey, e.payload, h, h', artifacts);
      }
    }
  }

  // -------------------------------------------------------------------------
  // Every cut of an emission keeps the log valid and in order
  // -------------------------------------------------------------------------

  /** A speech JUDGE comes after the SPEAK that it agrees with. */
  predicate InOrder(log: seq<LogEvent>) {
    forall j :: 0 <= j < |log| && SpeechJudgeEvent(log[j]) ==> Accompanied(log[..j], log[j])
  }

  lemma SlotFree(log: seq<LogEvent>, e: LogEvent)
    requires SlotsDistinct(log) && e.Recorded? && Classify(log, e) == Missing
    ensures SlotsDistinct(log + [e])
  {
    forall i | 0 <= i < |log| ensures !OneSlot(log[i], e) {
      assert log[i] in log;
      assert InSlot(log[i], e.kind, e.payload.attempt) <==> OneSlot(log[i], e);
    }
  }

  lemma AppendKeepsLog(log: seq<LogEvent>, e: LogEvent, h: Histories, textRef: string -> string)
    requires ValidLog(log, h, textRef) && InOrder(log) && EventOk(e, h, textRef)
    requires e.Recorded? ==> Classify(log, e) == Missing
    requires SpeechJudgeEvent(e) ==> Accompanied(log, e)
    ensures ValidLog(log + [e], h, textRef) && InOrder(log + [e])
  {
    var log' := log + [e];
    if e.Recorded? { SlotFree(log, e); }
    forall f | f in log' && SpeechJudgeEvent(f) ensures Accompanied(log', f) {
      var s :| s in log && CompanionOf(s, f);
      assert s in log';
    }
    forall j | 0 <= j < |log'| && SpeechJudgeEvent(log'[j]) ensures Accompanied(log'[..j], log'[j]) {
      if j < |log| {
        assert log'[..j] == log[..j];
      } else {
        assert log'[..j] == log;
      }
    }
  }

  predicate LogHolds(log: seq<LogEvent>, h: Histories, textRef: string -> string) {
    ValidLog(log, h, textRef) && InOrder(log)
  }

  lemma PlanEventsOk(plan: Planned, h: Histories, textRef: string -> string)
    requires Issued(plan, textRef) && PlanCorresponds(plan, h)
    ensures forall e :: e in EventsOf(plan) ==> EventOk(e, h, textRef)
  {
  }

  lemma JudgeEventOk(plan: Planned, h: Histories, textRef: string -> string)
    requires plan.JudgePlan? && Issued(plan, textRef) && PlanCorresponds(plan, h)
    ensures EventOk(Recorded(Judge, plan.unitKey, plan.judge), h, textRef)
    ensures !SpeechJudgeEvent(Recorded(Judge, plan.unitKey, plan.judge))
  {
  }

  lemma OtherKindStaysMissing(log: seq<LogEvent>, e: LogEvent, f: LogEvent)
    requires e.Recorded? && f.Recorded? && e.kind != f.kind && Classify(log, f) == Missing
    ensures Classify(log + [e], f) == Missing
  {
    forall x | x in log + [e] ensures !InSlot(x, f.kind, f.payload.attempt) {
      assert x == e || x in log;
    }
  }

  lemma PairAccompanied(log: seq<LogEvent>, plan: Planned, textRef: string -> string)
    requires plan.PairPlan? && Issued(plan, textRef) && Recorded(Speak, plan.unitKey, plan.speak) in log
    ensures Accompanied(log, Recorded(Judge, plan.unitKey, plan.judge))
  {
    assert CompanionOf(Recorded(Speak, plan.unitKey, plan.speak), Recorded(Judge, plan.unitKey, plan.judge));
  }

  lemma JudgeProgram(log: seq<LogEvent>, h: Histories, artifacts: set<string>, plan: Planned, textRef: string -> string)
    requires plan.JudgePlan? && Emission(log, h, artifacts, plan, textRef).Some?
    ensures var es := Emission(log, h, artifacts, plan, textRef).value;
            var judge := Recorded(Judge, plan.unitKey, plan.judge);
            && ValidHistories(h, artifacts) && PlanCorresponds(plan, h)
            && ((es == [] && judge in log) || (es == [judge] && Classify(log, judge) == Missing))
  {
  }

  lemma PairProgram(log: seq<LogEvent>, h: Histories, artifacts: set<string>, plan: Planned, textRef: string -> string)
    requires plan.PairPlan? && Emission(log, h, artifacts, plan, textRef).Some?
    ensures var es := Emission(log, h, artifacts, plan, textRef).value;
            var speak := Recorded(Speak, plan.unitKey, plan.speak);
            var judge := Recorded(Judge, plan.unitKey, plan.judge);
            && ValidHistories(h, artifacts) && PlanCorresponds(plan, h)
            && (|| (es == [] && speak in log && judge in log)
                || (es == [judge] && speak in log && Classify(log, judge) == Missing)
                || (es == [speak, judge] && Classify(log, speak) == Missing && Classify(log, judge) == Missing))
  {
  }

  /** Cut after any number of its appends, an emission leaves a valid log in order. */
  lemma CutEmissionKeepsLog(log: seq<LogEvent>, h: Histories, artifacts: set<string>, plan: Planned,
                            textRef: string -> string, n: nat)
    requires LogHolds(log, h, textRef) && Issued(plan, textRef)
    requires Emission(log, h, artifacts, plan, textRef).Some?
    requires n <= |Emission(log, h, artifacts, plan, textRef).value|
    ensures LogHolds(log + Emission(log, h, artifacts, plan, textRef).value[..n], h, textRef)
  {
    var es := Emission(log, h, artifacts, plan, textRef).value;
    if n == 0 {
      assert log + es[..0] == log;
    } else if plan.JudgePlan? {
      JudgeProgram(log, h, artifacts, plan, textRef);
      JudgeEventOk(plan, h, textRef);
      assert es[..n] == [Recorded(Judge, plan.unitKey, plan.judge)];
      AppendKeepsLog(log, Recorded(Judge, plan.unitKey, plan.judge), h, textRef);
    } else {
      PairProgram(log, h, artifacts, plan, textRef);
      PlanEventsOk(plan, h, textRef);
      CutPairKeepsLog(log, h, plan, es, textRef, n);
    }
  }

  lemma CutPairKeepsLog(log: seq<LogEvent>, h: Histories, plan: Planned, es: seq<LogEvent>, textRef: string -> string,
                        n: nat)
    requires LogHolds(log, h, textRef) && Issued(plan, textRef) && plan.PairPlan? && 0 < n <= |es|
    requires forall e :: e in EventsOf(plan) ==> EventOk(e, h, textRef)
    requires var speak, judge := Recorded(Speak, plan.unitKey, plan.speak), Recorded(Judge, plan.unitKey, plan.judge);
             || (es == [judge] && speak in log && Classify(log, judge) == Missing)
             || (es == [speak, judge] && Classify(log, speak) == Missing && Classify(log, judge) == Missing)
    ensures LogHolds(log + es[..n], h, textRef)
  {
    var speak, judge := Recorded(Speak, plan.unitKey, plan.speak), Recorded(Judge, plan.unitKey, plan.judge);
    if |es| == 1 {
      assert es[..1] == [judge];
      JudgeBehindSpeak(log, h, plan, textRef);
    } else {
      SpeakKeepsLog(log, h, plan, textRef);
      if n == 1 {
        assert es[..1] == [speak];
      } else {
        assert log + es[..2] == (log + [speak]) + [judge];
        JudgeBehindSpeak(log + [speak], h, plan, textRef);
      }
    }
  }

  lemma JudgeBehindSpeak(log: seq<LogEvent>, h: Histories, plan: Planned, textRef: string -> string)
    requires LogHolds(log, h, textRef) && plan.PairPlan? && Issued(plan, textRef)
    requires var speak, judge := Recorded(Speak, plan.unitKey, plan.speak), Recorded(Judge, plan.unitKey, plan.judge);
             EventOk(judge, h, textRef) && speak in log && Classify(log, judge) == Missing
    ensures LogHolds(log + [Recorded(Judge, plan.unitKey, plan.judge)], h, textRef)
  {
    PairAccompanied(log, plan, textRef);
    AppendKeepsLog(log, Recorded(Judge, plan.unitKey, plan.judge), h, textRef);
  }

  lemma SpeakKeepsLog(log: seq<LogEvent>, h: Histories, plan: Planned, textRef: string -> string)
    requires LogHolds(log, h, textRef) && plan.PairPlan? && Issued(plan, textRef)
    requires var speak, judge := Recorded(Speak, plan.unitKey, plan.speak), Recorded(Judge, plan.unitKey, plan.judge);
             EventOk(speak, h, textRef) && Classify(log, speak) == Missing && Classify(log, judge) == Missing
    ensures var speak, judge := Recorded(Speak, plan.unitKey, plan.speak), Recorded(Judge, plan.unitKey, plan.judge);
            LogHolds(log + [speak], h, textRef) && speak in log + [speak] && Classify(log + [speak], judge) == Missing
  {
    var speak, judge := Recorded(Speak, plan.unitKey, plan.speak), Recorded(Judge, plan.unitKey, plan.judge);
    AppendKeepsLog(log, speak, h, textRef);
    OtherKindStaysMissing(log, speak, judge);
  }

  // -------------------------------------------------------------------------
  // Exactly once
  // -------------------------------------------------------------------------

  /** The events of one attempt, in log order. */
  function Of(log: seq<LogEvent>, a: AttemptId): (out: seq<LogEvent>)
    ensures forall e :: e in out <==> e in log && e.Recorded? && e.payload.attempt == a
  {
    if log == [] then []
    else
      var last := log[|log| - 1];
      assert log == log[..|log| - 1] + [last];
      if last.Recorded? && last.payload.attempt == a then Of(log[..|log| - 1], a) + [last] else Of(log[..|log| - 1], a)
  }

  lemma {:induction false} OfAppends(log: seq<LogEvent>, es: seq<LogEvent>, a: AttemptId)
    ensures Of(log + es, a) == Of(log, a) + Of(es, a)
  {
    if es == [] {
      assert log + es == log;
    } else {
      assert (log + es)[..|log + es| - 1] == log + es[..|es| - 1];
      OfAppends(log, es[..|es| - 1], a);
    }
  }

  /** What the log has of the plan's attempt is how far the plan has come. */
  predicate Underway(log: seq<LogEvent>, plan: Planned) {
    Of(log, AttemptOf(plan)) <= EventsOf(plan)
  }

  lemma IssuedAttempts(plan: Planned, textRef: string -> string)
    requires Issued(plan, textRef)
    ensures forall e :: e in EventsOf(plan) ==> e.Recorded? && e.payload.attempt == AttemptOf(plan)
    ensures Of(EventsOf(plan), AttemptOf(plan)) == EventsOf(plan)
  {
    var es, a := EventsOf(plan), AttemptOf(plan);
    AllOfOne(es, a);
  }

  lemma {:induction false} AllOfOne(es: seq<LogEvent>, a: AttemptId)
    requires forall e :: e in es ==> e.Recorded? && e.payload.attempt == a
    ensures Of(es, a) == es
  {
    if es != [] {
      assert es == es[..|es| - 1] + [es[|es| - 1]];
      AllOfOne(es[..|es| - 1], a);
    }
  }

  lemma ClassifyByAttempt(log: seq<LogEvent>, e: LogEvent)
    requires e.Recorded?
    ensures Classify(log, e) == Classify(Of(log, e.payload.attempt), e)
  {
    var own := Of(log, e.payload.attempt);
    if f :| f in log && InSlot(f, e.kind, e.payload.attempt) {
      assert f in own;
    }
  }

  lemma NextByAttempt(log: seq<LogEvent>, plan: Planned, textRef: string -> string)
    requires Issued(plan, textRef)
    ensures Next(log, plan) == Next(Of(log, AttemptOf(plan)), plan)
  {
    match plan
    case JudgePlan(u, j) => ClassifyByAttempt(log, Recorded(Judge, u, j));
    case PairPlan(u, s, j) =>
      ClassifyByAttempt(log, Recorded(Speak, u, s));
      ClassifyByAttempt(log, Recorded(Judge, u, j));
  }

  lemma NextIsTheRest(own: seq<LogEvent>, plan: Planned, textRef: string -> string)
    requires Issued(plan, textRef) && own <= EventsOf(plan)
    ensures Next(own, plan) == Some(EventsOf(plan)[|own|..])
  {
    match plan
    case JudgePlan(u, j) => PartOfJudge(own, Recorded(Judge, u, j));
    case PairPlan(u, s, j) => PartOfPair(own, Recorded(Speak, u, s), Recorded(Judge, u, j));
  }

  lemma PartOfJudge(own: seq<LogEvent>, judge: LogEvent)
    requires judge.Recorded? && own <= [judge]
    ensures if own == [] then Classify(own, judge) == Missing && [judge][|own|..] == [judge]
            else Classify(own, judge) == Exact && [judge][|own|..] == []
  {
    assert own == [judge][..|own|];
    assert own == [] || own[0] == judge;
  }

  lemma PartOfPair(own: seq<LogEvent>, speak: LogEvent, judge: LogEvent)
    requires speak.Recorded? && judge.Recorded? && speak.kind != judge.kind && own <= [speak, judge]
    ensures Classify(own, speak) == if |own| >= 1 then Exact else Missing
    ensures Classify(own, judge) == if |own| == 2 then Exact else Missing
    ensures [speak, judge][|own|..] == if own == [] then [speak, judge] else if |own| == 1 then [judge] else []
  {
    assert own == [speak, judge][..|own|];
    if |own| == 1 {
      assert own == [speak];
    } else if |own| == 2 {
      assert own == [speak, judge];
    }
  }

  /**
   * From wherever a plan has come, the next call appends exactly the rest of it;
   * nothing once it is complete.
   */
  lemma EmissionIsTheRest(log: seq<LogEvent>, h: Histories, artifacts: set<string>, plan: Planned,
                          textRef: string -> string)
    requires ValidHistories(h, artifacts) && ValidLog(log, h, textRef)
    requires Issued(plan, textRef) && PlanCorresponds(plan, h) && Underway(log, plan)
    ensures Emission(log, h, artifacts, plan, textRef) == Some(EventsOf(plan)[|Of(log, AttemptOf(plan))|..])
  {
    NextByAttempt(log, plan, textRef);
    NextIsTheRest(Of(log, AttemptOf(plan)), plan, textRef);
  }

  /** Cut anywhere, a call leaves the plan further on its way, and complete if it was not cut. */
  lemma CutEmissionAdvances(log: seq<LogEvent>, h: Histories, artifacts: set<string>, plan: Planned,
                            textRef: string -> string, n: nat)
    requires ValidHistories(h, artifacts) && ValidLog(log, h, textRef)
    requires Issued(plan, textRef) && PlanCorresponds(plan, h) && Underway(log, plan)
    requires n <= |EventsOf(plan)| - |Of(log, AttemptOf(plan))|
    ensures var es := Emission(log, h, artifacts, plan, textRef).value;
            Of(log + es[..n], AttemptOf(plan)) == EventsOf(plan)[..|Of(log, AttemptOf(plan))| + n]
  {
    EmissionIsTheRest(log, h, artifacts, plan, textRef);
    RestAdvances(log, plan, textRef, n);
  }

  lemma RestAdvances(log: seq<LogEvent>, plan: Planned, textRef: string -> string, n: nat)
    requires Issued(plan, textRef) && Underway(log, plan) && n <= |EventsOf(plan)| - |Of(log, AttemptOf(plan))|
    ensures var es := EventsOf(plan)[|Of(log, AttemptOf(plan))|..];
            Of(log + es[..n], AttemptOf(plan)) == EventsOf(plan)[..|Of(log, AttemptOf(plan))| + n]
  {
    var own, a := Of(log, AttemptOf(plan)), AttemptOf(plan);
    IssuedAttempts(plan, textRef);
    SliceMembers(EventsOf(plan), |own|, n);
    OfGrows(log, EventsOf(plan)[|own|..][..n], a);
    PrefixGrows(EventsOf(plan), own, n);
  }

  lemma SliceMembers(events: seq<LogEvent>, k: nat, n: nat)
    requires k + n <= |events|
    ensures forall e :: e in events[k..][..n] ==> e in events
    ensures forall e :: e in events[k..] ==> e in events
  {
  }

  lemma OfGrows(log: seq<LogEvent>, es: seq<LogEvent>, a: AttemptId)
    requires forall e :: e in es ==> e.Recorded? && e.payload.attempt == a
    ensures Of(log + es, a) == Of(log, a) + es
  {
    OfAppends(log, es, a);
    AllOfOne(es, a);
  }

  lemma PrefixGrows(events: seq<LogEvent>, own: seq<LogEvent>, n: nat)
    requires own <= events && n <= |events| - |own|
    ensures own + events[|own|..][..n] == events[..|own| + n]
    ensures own + events[|own|..] == events
    ensures events[|own|..][..|events| - |own|] == events[|own|..] && events[|own|..][|events| - |own|..] == []
  {
  }

  /** A call for another attempt leaves this one alone. */
  lemma OtherAttemptsUntouched(log: seq<LogEvent>, es: seq<LogEvent>, other: Planned, a: AttemptId)
    requires AttemptOf(other) != a && forall e :: e in es ==> e.Recorded? && e.payload.attempt == AttemptOf(other)
    ensures Of(log + es, a) == Of(log, a)
  {
    OfAppends(log, es, a);
    NoneOfAnother(es, a);
  }

  lemma {:induction false} NoneOfAnother(es: seq<LogEvent>, a: AttemptId)
    requires forall e :: e in es ==> e.Recorded? && e.payload.attempt != a
    ensures Of(es, a) == []
  {
    if es != [] {
      assert es == es[..|es| - 1] + [es[|es| - 1]];
      NoneOfAnother(es[..|es| - 1], a);
    }
  }

  // -------------------------------------------------------------------------
  // Another plan for the same attempt
  // -------------------------------------------------------------------------

  /** With the same ledgers, a SPEAK has only one JUDGE that corresponds. */
  lemma OneJudgePerSpeak(speak: Payload, judge: Payload, other: Payload, unitKey: string, h: Histories)
    requires SpeechJudge(judge) && SpeechJudge(other) && Companions(speak, judge) && Companions(speak, other)
    requires Corresponds(Judge, unitKey, judge, h) && Corresponds(Judge, unitKey, other, h)
    ensures judge == other
  {
    SpeakDeterminesJudge(speak, judge, other);
  }

  lemma StartedWithSpeak(log: seq<LogEvent>, plan: Planned)
    requires Underway(log, plan) && Of(log, AttemptOf(plan)) != []
    ensures EventsOf(plan)[0] in log
  {
    var own := Of(log, AttemptOf(plan));
    assert own[0] in own && own[0] == EventsOf(plan)[0];
  }

  /** A plan whose first event is not the one in the log is refused. */
  lemma OtherStartRefused(log: seq<LogEvent>, plan: Planned, other: Planned)
    requires EventsOf(plan)[0] in log && AttemptOf(plan) == AttemptOf(other)
    requires EventsOf(plan)[0].payload.attempt == AttemptOf(plan)
    requires EventsOf(other)[0].kind == EventsOf(plan)[0].kind && EventsOf(other)[0].payload.attempt == AttemptOf(plan)
    requires EventsOf(other)[0] !in log
    ensures Next(log, other).None?
  {
    assert InSlot(EventsOf(plan)[0], EventsOf(other)[0].kind, EventsOf(other)[0].payload.attempt);
  }

  lemma SamePlanKind(plan: Planned, other: Planned, h: Histories, textRef: string -> string)
    requires Issued(plan, textRef) && Issued(other, textRef) && AttemptOf(plan) == AttemptOf(other)
    requires PlanCorresponds(plan, h) && PlanCorresponds(other, h)
    ensures plan.JudgePlan? <==> other.JudgePlan?
    ensures EventsOf(plan)[0].kind == EventsOf(other)[0].kind && plan.unitKey == other.unitKey
    ensures EventsOf(plan)[0].payload.attempt == EventsOf(other)[0].payload.attempt == AttemptOf(plan)
    ensures plan != other ==> EventsOf(plan)[0] != EventsOf(other)[0]
  {
    if plan.PairPlan? && plan.speak == other.speak {
      OneJudgePerSpeak(plan.speak, plan.judge, other.judge, plan.unitKey, h);
    }
  }

  lemma FirstIsUnique(log: seq<LogEvent>, e: LogEvent, f: LogEvent)
    requires SlotsDistinct(log) && e in log && e.Recorded? && f.Recorded? && OneSlot(e, f) && e != f
    ensures f !in log
  {
    if f in log {
      var i :| 0 <= i < |log| && log[i] == e;
      var j :| 0 <= j < |log| && log[j] == f;
      assert OneSlot(log[i], log[j]) && OneSlot(log[j], log[i]);
    }
  }

  /** Once a plan has started, every other plan for its attempt is refused. */
  lemma ConflictingPlanRefused(log: seq<LogEvent>, h: Histories, artifacts: set<string>, plan: Planned, other: Planned,
                               textRef: string -> string)
    requires LogHolds(log, h, textRef) && Issued(plan, textRef) && Issued(other, textRef)
    requires PlanCorresponds(plan, h) && AttemptOf(plan) == AttemptOf(other) && plan != other
    requires Underway(log, plan) && Of(log, AttemptOf(plan)) != []
    ensures Emission(log, h, artifacts, other, textRef).None?
  {
    if PlanCorresponds(other, h) {
      SamePlanKind(plan, other, h, textRef);
      StartedWithSpeak(log, plan);
      FirstIsUnique(log, EventsOf(plan)[0], EventsOf(other)[0]);
      OtherStartRefused(log, plan, other);
    }
  }

  // -------------------------------------------------------------------------
  // Whole runs
  // -------------------------------------------------------------------------

  /** A call cut after `n` appends, records of others, ledgers growing. */
  datatype Move =
    | EmitCall(plan: Planned, n: nat)
    | LogUnrelated(tag: string)
    | LedgersGrow(histories: Histories)

  datatype State = State(log: seq<LogEvent>, histories: Histories)

  predicate Legal(s: State, m: Move, artifacts: set<string>, textRef: string -> string) {
    match m
    case EmitCall(plan, n) =>
      && Issued(plan, textRef)
      && var es := Emission(s.log, s.histories, artifacts, plan, textRef); es.Some? ==> n <= |es.value|
    case LogUnrelated(_) => true
    case LedgersGrow(h) => ValidHistories(h, artifacts) && Grows(s.histories, h)
  }

  function Do(s: State, m: Move, artifacts: set<string>, textRef: string -> string): State
    requires Legal(s, m, artifacts, textRef)
  {
    match m
    case EmitCall(plan, n) =>
      (match Emission(s.log, s.histories, artifacts, plan, textRef)
       case None => s
       case Some(es) => s.(log := s.log + es[..n]))
    case LogUnrelated(tag) => s.(log := s.log + [Unrelated(tag)])
    case LedgersGrow(h) => s.(histories := h)
  }

  /** Every attempt has at most what one plan for it consists of, in order. */
  ghost predicate AttemptOk(s: State, a: AttemptId, textRef: string -> string) {
    Of(s.log, a) == [] || exists plan :: OwnsAttempt(s, a, plan, textRef)
  }

  ghost predicate OwnsAttempt(s: State, a: AttemptId, plan: Planned, textRef: string -> string) {
    AttemptOf(plan) == a && Issued(plan, textRef) && PlanCorresponds(plan, s.histories) && Underway(s.log, plan)
  }

  ghost predicate Holds(s: State, artifacts: set<string>, textRef: string -> string) {
    && ValidHistories(s.histories, artifacts)
    && LogHolds(s.log, s.histories, textRef)
    && forall a :: AttemptOk(s, a, textRef)
  }

  lemma PlanStaysCorresponding(plan: Planned, h: Histories, h': Histories, artifacts: set<string>)
    requires ValidHistories(h, artifacts) && ValidHistories(h', artifacts) && Grows(h, h') && PlanCorresponds(plan, h)
    ensures PlanCorresponds(plan, h')
  {
    CorrespondenceGrows(Judge, plan.unitKey, plan.judge, h, h', artifacts);
    if plan.PairPlan? {
      CorrespondenceGrows(Speak, plan.unitKey, plan.speak, h, h', artifacts);
    }
  }

  lemma GrowthKeepsHolds(s: State, h: Histories, artifacts: set<string>, textRef: string -> string)
    requires Holds(s, artifacts, textRef) && ValidHistories(h, artifacts) && Grows(s.histories, h)
    ensures Holds(s.(histories := h), artifacts, textRef)
  {
    var s' := s.(histories := h);
    LogStaysValid(s.log, s.histories, h, artifacts, textRef);
    forall a ensures AttemptOk(s', a, textRef) {
      assert AttemptOk(s, a, textRef);
      if Of(s.log, a) != [] {
        var plan :| OwnsAttempt(s, a, plan, textRef);
        PlanStaysCorresponding(plan, s.histories, h, artifacts);
        assert OwnsAttempt(s', a, plan, textRef);
      }
    }
  }

  lemma UnrelatedKeepsHolds(s: State, tag: string, artifacts: set<string>, textRef: string -> string)
    requires Holds(s, artifacts, textRef)
    ensures Holds(s.(log := s.log + [Unrelated(tag)]), artifacts, textRef)
  {
    var s' := s.(log := s.log + [Unrelated(tag)]);
    AppendKeepsLog(s.log, Unrelated(tag), s.histories, textRef);
    forall a ensures AttemptOk(s', a, textRef) {
      assert AttemptOk(s, a, textRef);
      assert (s.log + [Unrelated(tag)])[..|s.log|] == s.log;
      if Of(s.log, a) != [] {
        var plan :| OwnsAttempt(s, a, plan, textRef);
        assert OwnsAttempt(s', a, plan, textRef);
      }
    }
  }

  lemma EmissionIsOfPlan(log: seq<LogEvent>, h: Histories, artifacts: set<string>, plan: Planned,
                         textRef: string -> string)
    requires Issued(plan, textRef) && Emission(log, h, artifacts, plan, textRef).Some?
    ensures forall e :: e in Emission(log, h, artifacts, plan, textRef).value ==>
              e in EventsOf(plan) && e.Recorded? && e.payload.attempt == AttemptOf(plan)
  {
    IssuedAttempts(plan, textRef);
  }

  lemma AcceptedIsUnderway(s: State, plan: Planned, artifacts: set<string>, textRef: string -> string)
    requires Holds(s, artifacts, textRef) && Issued(plan, textRef)
    requires Emission(s.log, s.histories, artifacts, plan, textRef).Some?
    ensures PlanCorresponds(plan, s.histories) && Underway(s.log, plan)
  {
    var a := AttemptOf(plan);
    assert AttemptOk(s, a, textRef);
    if Of(s.log, a) != [] {
      var owner :| OwnsAttempt(s, a, owner, textRef);
      if owner != plan {
        ConflictingPlanRefused(s.log, s.histories, artifacts, owner, plan, textRef);
      }
    }
  }

  /** The attempt of the plan being emitted, after the cut. */
  lemma EmittedAttemptOk(s: State, plan: Planned, n: nat, artifacts: set<string>, textRef: string -> string)
    requires Holds(s, artifacts, textRef) && Issued(plan, textRef)
    requires var es := Emission(s.log, s.histories, artifacts, plan, textRef); es.Some? && n <= |es.value|
    ensures var es := Emission(s.log, s.histories, artifacts, plan, textRef).value;
            OwnsAttempt(s.(log := s.log + es[..n]), AttemptOf(plan), plan, textRef)
  {
    AcceptedIsUnderway(s, plan, artifacts, textRef);
    EmissionIsTheRest(s.log, s.histories, artifacts, plan, textRef);
    CutEmissionAdvances(s.log, s.histories, artifacts, plan, textRef, n);
  }

  lemma EmitKeepsHolds(s: State, plan: Planned, n: nat, artifacts: set<string>, textRef: string -> string)
    requires Holds(s, artifacts, textRef) && Issued(plan, textRef)
    requires var es := Emission(s.log, s.histories, artifacts, plan, textRef); es.Some? && n <= |es.value|
    ensures var es := Emission(s.log, s.histories, artifacts, plan, textRef).value;
            Holds(s.(log := s.log + es[..n]), artifacts, textRef)
  {
    var es := Emission(s.log, s.histories, artifacts, plan, textRef).value;
    var s' := s.(log := s.log + es[..n]);
    CutEmissionKeepsLog(s.log, s.histories, artifacts, plan, textRef, n);
    EmissionIsOfPlan(s.log, s.histories, artifacts, plan, textRef);
    forall a ensures AttemptOk(s', a, textRef) {
      if a == AttemptOf(plan) {
        EmittedAttemptOk(s, plan, n, artifacts, textRef);
      } else {
        assert AttemptOk(s, a, textRef);
        OtherAttemptsUntouched(s.log, es[..n], plan, a);
        if Of(s.log, a) != [] {
          var owner :| OwnsAttempt(s, a, owner, textRef);
          assert OwnsAttempt(s', a, owner, textRef);
        }
      }
    }
  }

  lemma MoveKeepsHolds(s: State, m: Move, artifacts: set<string>, textRef: string -> string)
    requires Holds(s, artifacts, textRef) && Legal(s, m, artifacts, textRef)
    ensures Holds(Do(s, m, artifacts, textRef), artifacts, textRef)
  {
    match m
    case EmitCall(plan, n) =>
      if Emission(s.log, s.histories, artifacts, plan, textRef).Some? {
        EmitKeepsHolds(s, plan, n, artifacts, textRef);
      }
    case LogUnrelated(tag) => UnrelatedKeepsHolds(s, tag, artifacts, textRef);
    case LedgersGrow(h) => GrowthKeepsHolds(s, h, artifacts, textRef);
  }

  ghost predicate Reaches(s: State, moves: seq<Move>, s': State, artifacts: set<string>, textRef: string -> string)
    decreases |moves|
  {
    if moves == [] then s == s'
    else
      && Legal(s, moves[0], artifacts, textRef)
      && Reaches(Do(s, moves[0], artifacts, textRef), moves[1..], s', artifacts, textRef)
  }

  /**
   * In every run, however its calls are cut: at most one SPEAK and one JUDGE per
   * attempt, all of one plan, a speech JUDGE always after its agreeing SPEAK.
   */
  lemma {:induction false} EveryRunHolds(s: State, moves: seq<Move>, s': State, artifacts: set<string>,
                                         textRef: string -> string)
    requires Holds(s, artifacts, textRef) && Reaches(s, moves, s', artifacts, textRef)
    ensures Holds(s', artifacts, textRef)
    decreases |moves|
  {
    if moves != [] {
      MoveKeepsHolds(s, moves[0], artifacts, textRef);
      EveryRunHolds(Do(s, moves[0], artifacts, textRef), moves[1..], s', artifacts, textRef);
    }
  }

  lemma EmptyHolds(h: Histories, artifacts: set<string>, textRef: string -> string)
    requires ValidHistories(h, artifacts)
    ensures Holds(State([], h), artifacts, textRef)
  {
    forall a ensures AttemptOk(State([], h), a, textRef) {
      assert Of([], a) == [];
    }
  }

  /** So from an empty log, beside whatever valid ledgers there are. */
  lemma EveryRunFromEmpty(h: Histories, moves: seq<Move>, s': State, artifacts: set<string>, textRef: string -> string)
    requires ValidHistories(h, artifacts) && Reaches(State([], h), moves, s', artifacts, textRef)
    ensures Holds(s', artifacts, textRef)
  {
    EmptyHolds(h, artifacts, textRef);
    EveryRunHolds(State([], h), moves, s', artifacts, textRef);
  }

  /** After a part of an emission, what is left of it is the next emission. */
  lemma RestAfterPart(log: seq<LogEvent>, h: Histories, artifacts: set<string>, plan: Planned,
                      textRef: string -> string, n: nat)
    requires ValidHistories(h, artifacts) && LogHolds(log, h, textRef)
    requires Issued(plan, textRef) && PlanCorresponds(plan, h) && Underway(log, plan)
    requires n <= |EventsOf(plan)| - |Of(log, AttemptOf(plan))|
    ensures var es := EventsOf(plan)[|Of(log, AttemptOf(plan))|..];
            && Emission(log, h, artifacts, plan, textRef) == Some(es)
            && Emission(log + es[..n], h, artifacts, plan, textRef) == Some(es[n..])
            && Of(log + es[..n], AttemptOf(plan)) == EventsOf(plan)[..|Of(log, AttemptOf(plan))| + n]
  {
    var own := Of(log, AttemptOf(plan));
    var es := EventsOf(plan)[|own|..];
    EmissionIsTheRest(log, h, artifacts, plan, textRef);
    CutEmissionKeepsLog(log, h, artifacts, plan, textRef, n);
    CutEmissionAdvances(log, h, artifacts, plan, textRef, n);
    EmissionIsTheRest(log + es[..n], h, artifacts, plan, textRef);
    assert EventsOf(plan)[|own| + n..] == es[n..];
  }

  lemma RestAfterAll(log: seq<LogEvent>, h: Histories, artifacts: set<string>, plan: Planned, textRef: string -> string)
    requires ValidHistories(h, artifacts) && LogHolds(log, h, textRef)
    requires Issued(plan, textRef) && PlanCorresponds(plan, h) && Underway(log, plan)
    ensures var own := Of(log, AttemptOf(plan));
            var es := EventsOf(plan)[|own|..];
            && own + es == EventsOf(plan) && Of(log + es, AttemptOf(plan)) == EventsOf(plan)
            && Emission(log + es, h, artifacts, plan, textRef) == Some([])
  {
    var own := Of(log, AttemptOf(plan));
    var es := EventsOf(plan)[|own|..];
    WholeRestAdvances(log, plan, textRef);
    WholeRestKeepsLog(log, h, artifacts, plan, textRef);
    NothingLeft(log + es, h, artifacts, plan, textRef);
  }

  lemma WholeRestAdvances(log: seq<LogEvent>, plan: Planned, textRef: string -> string)
    requires Issued(plan, textRef) && Underway(log, plan)
    ensures var own := Of(log, AttemptOf(plan));
            && own + EventsOf(plan)[|own|..] == EventsOf(plan)
            && Of(log + EventsOf(plan)[|own|..], AttemptOf(plan)) == EventsOf(plan)
  {
    var own := Of(log, AttemptOf(plan));
    PrefixGrows(EventsOf(plan), own, |EventsOf(plan)| - |own|);
    IssuedAttempts(plan, textRef);
    SliceMembers(EventsOf(plan), |own|, 0);
    OfGrows(log, EventsOf(plan)[|own|..], AttemptOf(plan));
  }

  lemma WholeRestKeepsLog(log: seq<LogEvent>, h: Histories, artifacts: set<string>, plan: Planned,
                          textRef: string -> string)
    requires ValidHistories(h, artifacts) && LogHolds(log, h, textRef)
    requires Issued(plan, textRef) && PlanCorresponds(plan, h) && Underway(log, plan)
    ensures LogHolds(log + EventsOf(plan)[|Of(log, AttemptOf(plan))|..], h, textRef)
  {
    var own := Of(log, AttemptOf(plan));
    PrefixGrows(EventsOf(plan), own, |EventsOf(plan)| - |own|);
    EmissionIsTheRest(log, h, artifacts, plan, textRef);
    CutEmissionKeepsLog(log, h, artifacts, plan, textRef, |EventsOf(plan)| - |own|);
  }

  lemma NothingLeft(log: seq<LogEvent>, h: Histories, artifacts: set<string>, plan: Planned, textRef: string -> string)
    requires ValidHistories(h, artifacts) && ValidLog(log, h, textRef)
    requires Issued(plan, textRef) && PlanCorresponds(plan, h) && Of(log, AttemptOf(plan)) == EventsOf(plan)
    ensures Emission(log, h, artifacts, plan, textRef) == Some([])
  {
    EmissionIsTheRest(log, h, artifacts, plan, textRef);
  }

  /**
   * Whenever a plan is accepted, the call that gets through leaves exactly the
   * plan's events for its attempt; what was cut before plus what is appended now
   * is one uninterrupted emission, and a further call appends nothing.
   */
  lemma AcceptedPlanIsCompleted(s: State, plan: Planned, artifacts: set<string>, textRef: string -> string)
    requires Holds(s, artifacts, textRef) && Issued(plan, textRef)
    requires Emission(s.log, s.histories, artifacts, plan, textRef).Some?
    ensures var es := Emission(s.log, s.histories, artifacts, plan, textRef).value;
            && Of(s.log, AttemptOf(plan)) + es == EventsOf(plan)
            && Of(s.log + es, AttemptOf(plan)) == EventsOf(plan)
            && Emission(s.log + es, s.histories, artifacts, plan, textRef) == Some([])
  {
    AcceptedIsUnderway(s, plan, artifacts, textRef);
    RestAfterAll(s.log, s.histories, artifacts, plan, textRef);
    EmissionIsTheRest(s.log, s.histories, artifacts, plan, textRef);
  }

  /** A cut call resumed is the call uncut: the second one appends what the first one left out. */
  lemma CutThenResumed(s: State, plan: Planned, n: nat, artifacts: set<string>, textRef: string -> string)
    requires Holds(s, artifacts, textRef) && Issued(plan, textRef)
    requires var es := Emission(s.log, s.histories, artifacts, plan, textRef); es.Some? && n <= |es.value|
    ensures var es := Emission(s.log, s.histories, artifacts, plan, textRef).value;
            Emission(s.log + es[..n], s.histories, artifacts, plan, textRef) == Some(es[n..])
  {
    AcceptedIsUnderway(s, plan, artifacts, textRef);
    EmissionIsTheRest(s.log, s.histories, artifacts, plan, textRef);
    RestAfterPart(s.log, s.histories, artifacts, plan, textRef, n);
  }

  // -------------------------------------------------------------------------
  // The producer itself
  // -------------------------------------------------------------------------

  /** The first `n` appends of a call were applied; `ok` says that it returned normally. */
  ghost predicate Emitted(before: seq<LogEvent>, after: seq<LogEvent>, es: Option<seq<LogEvent>>, n: nat, ok: bool) {
    if es.None? then after == before && !ok
    else n <= |es.value| && after == before + es.value[..n] && (ok ==> n == |es.value|)
  }

  class EventLog {
    var events: seq<LogEvent>
    // How each call to the log file will end, and how many there have been.
    const outcomes: nat -> Outcome
    var calls: nat

    constructor (outcomes: nat -> Outcome)
      ensures events == [] && this.outcomes == outcomes && calls == 0
    {
      events, this.outcomes, calls := [], outcomes, 0;
    }

    method Log(e: LogEvent) returns (ok: bool, ghost applied: bool)
      modifies this`events, this`calls
      ensures events == if applied then old(events) + [e] else old(events)
      ensures ok ==> applied
      ensures (ok <==> Clean(outcomes, old(calls), calls)) && old(calls) < calls
    {
      var outcome := outcomes(calls);
      calls := calls + 1;
      ok, applied := outcome == Applied, outcome != NotApplied;
      if outcome != NotApplied {
        events := events + [e];
      }
    }

    /** Reads the whole log and validates it against the ledgers; the read may fail. */
    method ValidatedHistory(h: Histories, textRef: string -> string) returns (ok: bool)
      modifies this`calls
      ensures ok <==> ValidLog(events, h, textRef) && Clean(outcomes, old(calls), calls)
      ensures old(calls) < calls
    {
      ok := outcomes(calls) == Applied && ValidLog(events, h, textRef);
      calls := calls + 1;
    }

    /** What the planned events find in their slots, once everything is validated. */
    method Prepare(h: Histories, artifacts: set<string>, plan: Planned, textRef: string -> string)
      returns (rest: Option<seq<LogEvent>>)
      modifies this`calls
      ensures rest.Some? ==> rest == Emission(events, h, artifacts, plan, textRef)
      ensures rest.Some? <==> Emission(events, h, artifacts, plan, textRef).Some? && Clean(outcomes, old(calls), calls)
      ensures old(calls) <= calls
    {
      var ok := ValidateHistories(h, artifacts);
      if ok { ok := ValidatedHistory(h, textRef); }
      rest := if ok && PlanCorresponds(plan, h) then Next(events, plan) else None;
    }

    /** Appends one missing JUDGE, or nothing on an exact rerun. */
    method EmitPlannedJudge(h: Histories, artifacts: set<string>, unitKey: string, judge: Payload,
                            textRef: string -> string)
      returns (ok: bool, ghost n: nat)
      modifies this`events, this`calls
      ensures var es := Emission(old(events), h, artifacts, JudgePlan(unitKey, judge), textRef);
              && Emitted(old(events), events, es, n, ok)
              && (ok <==> es.Some? && Clean(outcomes, old(calls), calls))
    {
      n := 0;
      var rest := Prepare(h, artifacts, JudgePlan(unitKey, judge), textRef);
      if rest.None? {
        return false, 0;
      }
      ok := true;
      if rest.value != [] {
        ghost var applied;
        ok, applied := Log(rest.value[0]);
        n := if applied then 1 else 0;
      }
    }

    /**
     * Appends what is missing of a SPEAK/JUDGE pair. Between the two the log is
     * read back: the SPEAK must be there exactly and no JUDGE of the attempt yet.
     */
    method EmitPlannedSpeechAssessment(h: Histories, artifacts: set<string>, unitKey: string, speak: Payload,
                                       judge: Payload, textRef: string -> string)
      returns (ok: bool, ghost n: nat)
      modifies this`events, this`calls
      ensures var plan := PairPlan(unitKey, speak, judge);
              var es := Emission(old(events), h, artifacts, plan, textRef);
              && Emitted(old(events), events, es, n, ok)
              && (ok ==> Clean(outcomes, old(calls), calls))
              && (ok ==> es.Some?)
              && (Issued(plan, textRef) && LogHolds(old(events), h, textRef) ==>
                    (ok <==> es.Some? && Clean(outcomes, old(calls), calls)))
    {
      n := 0;
      ghost var plan := PairPlan(unitKey, speak, judge);
      var rest := Prepare(h, artifacts, PairPlan(unitKey, speak, judge), textRef);
      if rest.None? {
        return false, 0;
      }
      if rest.value == [] {
        return true, 0;
      }
      if |rest.value| == 1 {
        ghost var applied;
        ok, applied := Log(rest.value[0]);
        n := if applied then 1 else 0;
        return;
      }
      SpeakIsConfirmed(events, h, artifacts, plan, textRef);
      ok, n := AppendConfirmed(h, rest.value[0], rest.value[1], textRef);
      assert rest.value == [rest.value[0], rest.value[1]];
    }

    /** Appends the SPEAK, and the JUDGE once the SPEAK is confirmed. */
    method AppendConfirmed(h: Histories, speak: LogEvent, judge: LogEvent, textRef: string -> string)
      returns (ok: bool, ghost n: nat)
      requires speak.Recorded?
      modifies this`events, this`calls
      ensures n <= 2 && events == old(events) + [speak, judge][..n] && (ok ==> n == 2)
      ensures ok <==> Confirmed(old(events) + [speak], h, speak, textRef) && Clean(outcomes, old(calls), calls)
      ensures old(calls) <= calls
    {
      ghost var applied;
      ok, applied := Log(speak);
      n := if applied then 1 else 0;
      if !ok {
        return;
      }
      var confirmed := ConfirmSpeakAppend(h, speak, textRef);
      if !confirmed {
        return false, n;
      }
      ok, applied := Log(judge);
      n := if applied then 2 else 1;
    }

    method ConfirmSpeakAppend(h: Histories, speak: LogEvent, textRef: string -> string) returns (ok: bool)
      requires speak.Recorded?
      modifies this`calls
      ensures ok <==> Confirmed(events, h, speak, textRef) && Clean(outcomes, old(calls), calls)
      ensures old(calls) < calls
    {
      ok := ValidatedHistory(h, textRef);
      ok := ok && Classify(events, speak) == Exact
            && !exists e :: e in events && InSlot(e, Judge, speak.payload.attempt);
    }
  }

  /** The log is valid, holds exactly this SPEAK of the attempt, and no JUDGE of it. */
  predicate Confirmed(log: seq<LogEvent>, h: Histories, speak: LogEvent, textRef: string -> string) {
    && ValidLog(log, h, textRef) && speak.Recorded? && Classify(log, speak) == Exact
    && !exists e :: e in log && InSlot(e, Judge, speak.payload.attempt)
  }

  /** In a valid log the confirmation between SPEAK and JUDGE only fails when its read fails. */
  lemma SpeakIsConfirmed(log: seq<LogEvent>, h: Histories, artifacts: set<string>, plan: Planned,
                         textRef: string -> string)
    requires plan.PairPlan? && Emission(log, h, artifacts, plan, textRef).Some?
    requires |Emission(log, h, artifacts, plan, textRef).value| == 2
    ensures var es := Emission(log, h, artifacts, plan, textRef).value;
            && es[0].Recorded?
            && (LogHolds(log, h, textRef) && Issued(plan, textRef) ==> Confirmed(log + [es[0]], h, es[0], textRef))
  {
    PairProgram(log, h, artifacts, plan, textRef);
    if LogHolds(log, h, textRef) && Issued(plan, textRef) {
      var es := Emission(log, h, artifacts, plan, textRef).value;
      CutEmissionKeepsLog(log, h, artifacts, plan, textRef, 1);
      assert es[..1] == [es[0]];
      AppendedIsExact(log, es[0]);
      OtherKindStaysMissing(log, es[0], es[1]);
      IssuedAttempts(plan, textRef);
    }
  }

  lemma AppendedIsExact(log: seq<LogEvent>, e: LogEvent)
    requires e.Recorded? && Classify(log, e) == Missing
    ensures Classify(log + [e], e) == Exact
  {
    assert e in log + [e];
  }
}
