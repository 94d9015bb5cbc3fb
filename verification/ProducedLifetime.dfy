/**
 * The two producers of one physical log: the assessment producer writes SPEAK and
 * JUDGE events, the reconciler its own records. What the reconciler reads from the
 * producer's events are exactly the produced assessments, so one of the two ways in
 * which evidence can stop a call never happens.
 */
module ProducedLifetime {
  import opened Wrappers
  import opened Lifecycle
  import opened Journal
  import opened Observation
  import opened Decision
  import opened DecisionFacts
  import opened Protocol
  import opened Safety
  import opened Recovery
  import opened Lifetime
  import opened Warrants
  import L = Ledgers
  import P = Producer
  import PM = ProducedMastery
  import M = Mastery

  /** A line of the physical log: a record of this unit's lifecycle, or a produced event of any unit. */
  datatype Line =
    | StateLine(plan: Plan, phase: Phase, ts: int)
    | EventLine(event: P.LogEvent, ts: int)

  /** The produced events, and when each was stamped. */
  function Events(lines: seq<Line>): seq<P.LogEvent> {
    if lines == [] then []
    else
      var rest, last := Events(lines[..|lines| - 1]), lines[|lines| - 1];
      if last.EventLine? then rest + [last.event] else rest
  }

  function Stamps(lines: seq<Line>): (stamps: seq<int>)
    ensures |stamps| == |Events(lines)|
  {
    if lines == [] then []
    else
      var rest, last := Stamps(lines[..|lines| - 1]), lines[|lines| - 1];
      if last.EventLine? then rest + [last.ts] else rest
  }

  /** What the lifecycle of the unit reads from one line: a record, an assessment, or nothing. */
  function EntryOf(line: Line, unitKey: string, name: L.AttemptId -> string): Option<Entry> {
    match line
    case StateLine(plan, phase, ts) => Some(StateEntry(plan, phase, ts))
    case EventLine(e, ts) =>
      if !e.Recorded? then None
      else
        match PM.ReadFrom(e, ts, unitKey, e.payload.channel, name)
        case None => None
        case Some(a) => Some(JudgeEntry(a))
  }

  /** The unit's part of the log, as the reconciler reads it. */
  function JournalOf(lines: seq<Line>, unitKey: string, name: L.AttemptId -> string): seq<Entry> {
    if lines == [] then []
    else
      var rest := JournalOf(lines[..|lines| - 1], unitKey, name);
      match EntryOf(lines[|lines| - 1], unitKey, name)
      case None => rest
      case Some(entry) => rest + [entry]
  }

  lemma ReadFromOwnChannel(e: P.LogEvent, ts: int, unitKey: string, c: Channel, name: L.AttemptId -> string)
    ensures PM.ReadFrom(e, ts, unitKey, c, name) ==
            if e.Recorded? && e.payload.channel == c then PM.ReadFrom(e, ts, unitKey, e.payload.channel, name) else None
    ensures PM.ReadFrom(e, ts, unitKey, c, name).Some? ==> PM.ReadFrom(e, ts, unitKey, c, name).value.channel == c
  {
  }

  /** The reconciler reads from the log exactly the assessments that were produced into it. */
  lemma {:induction false} ReadsWhatWasProduced(lines: seq<Line>, unitKey: string, c: Channel,
                                                name: L.AttemptId -> string)
    ensures AssessmentsOf(JournalOf(lines, unitKey, name), c)
         == PM.Produced(Events(lines), Stamps(lines), unitKey, c, name)
    decreases |lines|
  {
    if lines != [] {
      var init, last := lines[..|lines| - 1], lines[|lines| - 1];
      ReadsWhatWasProduced(init, unitKey, c, name);
      match last
      case StateLine(plan, phase, ts) =>
        AssessmentsOfAppends(JournalOf(init, unitKey, name), StateEntry(plan, phase, ts), c);
      case EventLine(e, ts) =>
        ReadFromOwnChannel(e, ts, unitKey, c, name);
        ProducedAppends(init, e, ts, unitKey, c, name);
        if EntryOf(last, unitKey, name).Some? {
          AssessmentsOfAppends(JournalOf(init, unitKey, name), EntryOf(last, unitKey, name).value, c);
        }
    }
  }

  lemma ProducedAppends(init: seq<Line>, e: P.LogEvent, ts: int, unitKey: string, c: Channel,
                        name: L.AttemptId -> string)
    ensures var before := PM.Produced(Events(init), Stamps(init), unitKey, c, name);
            PM.Produced(Events(init) + [e], Stamps(init) + [ts], unitKey, c, name) ==
            match PM.ReadFrom(e, ts, unitKey, c, name)
            case None => before
            case Some(a) => before + [a]
  {
    assert (Events(init) + [e])[..|Events(init)|] == Events(init);
    assert (Stamps(init) + [ts])[..|Stamps(init)|] == Stamps(init);
  }

  // -------------------------------------------------------------------------
  // No repeated identity
  // -------------------------------------------------------------------------

  /** The deployment's journal is read from a log whose events the producer would accept. */
  ghost predicate FromProducer(w: World, lines: seq<Line>, unitKey: string, name: L.AttemptId -> string,
                               h: L.Histories, artifacts: set<string>, textRef: string -> string) {
    && w.log == JournalOf(lines, unitKey, name) && PM.Injective(name)
    && L.ValidHistories(h, artifacts) && P.ValidLog(Events(lines), h, textRef)
  }

  lemma ProducedChannelDecides(w: World, lines: seq<Line>, unitKey: string, name: L.AttemptId -> string,
                               h: L.Histories, artifacts: set<string>, textRef: string -> string, c: Channel, now: int)
    requires Wired(w) && Observe(w, now).Ok? && c in w.note
    requires FromProducer(w, lines, unitKey, name, h, artifacts, textRef)
    ensures Placed(w, c) && DecideChannel(Observed(w, c, now), now).Ok?
  {
    ObservedChannels(w, now);
    ObservedAssessments(w, c, now);
    ReadsWhatWasProduced(lines, unitKey, c, name);
    var o := Observed(w, c, now);
    PM.ProducedMasteryIsExact(Events(lines), Stamps(lines), unitKey, c, name, h, artifacts, textRef, EntryInstant(o));
    OnlySelectionRefuses(o, now);
  }

  /** On a produced log an observed unit is always decided. */
  lemma ProducedIsDecided(w: World, lines: seq<Line>, unitKey: string, name: L.AttemptId -> string,
                          h: L.Histories, artifacts: set<string>, textRef: string -> string, now: int)
    requires Wired(w) && FromProducer(w, lines, unitKey, name, h, artifacts, textRef)
    ensures FreshDecision(w, now).Err? <==> Observe(w, now).Err?
    ensures FreshDecision(w, now).Err? ==> FreshDecision(w, now).error != DuplicateAssessmentId
  {
    if Observe(w, now).Ok? {
      forall c | c in w.note ensures Placed(w, c) && DecideChannel(Observed(w, c, now), now).Ok? {
        ProducedChannelDecides(w, lines, unitKey, name, h, artifacts, textRef, c, now);
      }
      AllOkDecides(w, now);
    }
  }

  /**
   * With a produced log the only evidence that can stop a call is a review history
   * that cannot be read; apart from that a call stops only at an aborted identity.
   */
  lemma OnlyReviewsStopACall(w: World, lines: seq<Line>, unitKey: string, name: L.AttemptId -> string,
                             h: L.Histories, artifacts: set<string>, textRef: string -> string, stage: Stage, now: int)
    requires InvAt(w, stage) && w.clock <= now && FromProducer(w, lines, unitKey, name, h, artifacts, textRef)
    requires Reconcile(w, now).verdict.Refused?
    ensures || (Reconcile(w, now).verdict.why == Unobservable(RevlogUnreadable) && !RevlogReadable(w.reviews, now))
            || (stage == Idle && Reconcile(w, now).verdict.why == IdentityReused)
  {
    OnlyEvidenceStopsACall(w, stage, now);
    if Reconcile(w, now).verdict.why.Unobservable? {
      ProducedIsDecided(w, lines, unitKey, name, h, artifacts, textRef, now);
      RefusalIsTheDecisions(w, stage, now);
    }
  }

  /** A refusal for evidence repeats what observation and decision say. */
  lemma RefusalIsTheDecisions(w: World, stage: Stage, now: int)
    requires InvAt(w, stage) && w.clock <= now
    requires Reconcile(w, now).verdict.Refused? && Reconcile(w, now).verdict.why.Unobservable?
    ensures FreshDecision(w, now) == Err(Reconcile(w, now).verdict.why.refusal)
    ensures FreshDecision(w, now).error == RevlogUnreadable <==> !RevlogReadable(w.reviews, now)
  {
    CallIsReported(w, stage, now);
    FreshProblem(w, now);
  }

  lemma CallIsReported(w: World, stage: Stage, now: int)
    requires InvAt(w, stage) && w.clock <= now
    requires Reconcile(w, now).verdict.Refused? && Reconcile(w, now).verdict.why.Unobservable?
    ensures FreshDecision(w, now) == Err(Reconcile(w, now).verdict.why.refusal) && HistoryReadable(w, now)
  {
    CallIsProgram(w, stage, now);
    ReportAt(w, stage, now);
    RefusedAsReported(w, stage, ProgramAt(w, stage, FreshDecision(w, now)), FreshDecision(w, now), now);
  }

  lemma RefusedAsReported(w: World, stage: Stage, run: Run, outcome: Result<Decided, Refusal>, now: int)
    requires Reported(w, stage, run, outcome, now) && w.clock <= now
    ensures run.verdict.Refused? && run.verdict.why.Unobservable? ==>
              outcome == Err(run.verdict.why.refusal) && HistoryReadable(w, now)
  {
  }

  /**
   * On a produced log a STABLE channel is planned to MASTERED exactly when any two of
   * its passes satisfy the documented rule and no lapse followed its entry.
   */
  lemma ProducedMasteredExactlyWhen(w: World, lines: seq<Line>, unitKey: string, name: L.AttemptId -> string,
                                    h: L.Histories, artifacts: set<string>, textRef: string -> string, now: int,
                                    c: Channel, entry: int)
    requires Wired(w) && FromProducer(w, lines, unitKey, name, h, artifacts, textRef) && FreshDecision(w, now).Ok?
    requires c in w.note && EnteredAt(w, c, entry)
    ensures Moves(FreshDecision(w, now).value.plans, c, Stable, Mastered) <==>
            && w.note[c] == Stable && After(LapseIds(w.reviews[c]), entry) == {}
            && exists i: nat, j: nat :: M.MasteryPair(Heard(w, c), entry, i, j)
  {
    MasteredExactlyWhen(w, now, c, entry);
    ReadsWhatWasProduced(lines, unitKey, c, name);
    PM.ProducedMasteryIsExact(Events(lines), Stamps(lines), unitKey, c, name, h, artifacts, textRef, entry);
    M.MasteryExactly(Heard(w, c), entry);
  }
}
