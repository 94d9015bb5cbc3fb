/**
 * Whole lifetimes of a deployment: reconcile calls cut anywhere, in between time
 * passing, new evidence and changed cards. The invariant holds throughout.
 */
module Lifetime {
  import opened Wrappers
  import opened Lifecycle
  import opened Journal
  import opened Observation
  import opened Decision
  import opened DecisionFacts
  import opened Protocol
  import opened Safety
  import opened Runs
  import opened Recovery
  import M = Mastery

  // -------------------------------------------------------------------------
  // One call
  // -------------------------------------------------------------------------

  function ProgramAt(w: World, stage: Stage, outcome: Result<Decided, Refusal>): Run
    requires Readable(w) && (stage.Group? ==> stage.evidence.DormancyAgreed?)
  {
    match stage
    case Idle => FreshRun(ViewOf(w).txs, outcome)
    case Single(p) => RecoverUngrouped(w, p, outcome)
    case Group(ev) => RecoverGroup(w, ViewOf(w).txs, ev, outcome)
  }

  lemma CallIsProgram(w: World, stage: Stage, now: int)
    requires InvAt(w, stage)
    ensures Reconcile(w, now) == if NoFutureState(w.log, now) then ProgramAt(w, stage, FreshDecision(w, now))
                                 else Refuse(JournalUnreadable)
  {
    WorkIsStage(ViewOf(w), stage);
    WorkIsDispatched(w, stage, now);
  }

  lemma WorkIsDispatched(w: World, stage: Stage, now: int)
    requires Readable(w) && (stage.Group? ==> stage.evidence.DormancyAgreed?)
    requires WorkOf(ViewOf(w).txs) == WorkAt(stage)
    ensures Reconcile(w, now) == if NoFutureState(w.log, now) then ProgramAt(w, stage, FreshDecision(w, now))
                                 else Refuse(JournalUnreadable)
  {
    assert Fold(w.log) == Some(ViewOf(w).txs);
  }

  lemma ProgramWalks(w: World, stage: Stage, now: int, ts: seq<int>)
    requires InvAt(w, stage)
    requires var es := ProgramAt(w, stage, FreshDecision(w, now)).effects; es != [] && |ts| <= |es|
    requires Ticking(w.clock, ts)
    ensures Walks(w, stage, ProgramAt(w, stage, FreshDecision(w, now)).effects, ts, Idle)
  {
    match stage
    case Idle => FreshWalks(w, now, ts);
    case Single(p) =>
      if w.note[p.id.channel] == p.id.from && FreshDecision(w, now).Ok? && Irrevocable(p) && w.reviewsInOrder {
        IrrevocableIsReproduced(w, p, now);
      }
      SingleWalks(w, p, FreshDecision(w, now), ts);
    case Group(ev) => GroupWalks(w, ev, FreshDecision(w, now), ts);
  }

  /**
   * Every effect of a call is allowed where it happens, wherever the call is
   * cut; after the last one nothing is pending.
   */
  lemma CallWalks(w: World, stage: Stage, now: int, ts: seq<int>)
    requires InvAt(w, stage) && |ts| <= |Reconcile(w, now).effects| && Ticking(w.clock, ts)
    ensures Walk(w, stage, Reconcile(w, now).effects, ts).Some?
    ensures InvAt(Exec(w, Reconcile(w, now).effects, ts), Walk(w, stage, Reconcile(w, now).effects, ts).value)
    ensures Reconcile(w, now).effects != [] && |ts| == |Reconcile(w, now).effects| ==>
              Walk(w, stage, Reconcile(w, now).effects, ts) == Some(Idle)
  {
    CallIsProgram(w, stage, now);
    if Reconcile(w, now).effects != [] {
      ProgramWalks(w, stage, now, ts);
    }
    WalkKeepsInvariant(w, stage, Reconcile(w, now).effects, ts);
  }

  // -------------------------------------------------------------------------
  // What a call reports
  // -------------------------------------------------------------------------

  lemma PlacedAtSource(w: World, ev: Evidence, now: int)
    requires Readable(w) && w.clock <= now && AllAtSource(ViewOf(w), ev)
    ensures HistoryReadable(w, now)
  {
    forall c | c in w.note ensures Placed(w, c) {
      assert SourceMember(ViewOf(w), ev, c);
    }
  }

  lemma PlacedWhenSettled(w: World, now: int)
    requires Readable(w) && w.clock <= now && Settled(ViewOf(w))
    ensures HistoryReadable(w, now)
  {
    forall c | c in w.note ensures Placed(w, c) {
      assert Agrees(ViewOf(w), c);
    }
  }

  predicate EvidenceProblem(why: Why) {
    why == Unobservable(RevlogUnreadable) || why == Unobservable(DuplicateAssessmentId)
  }

  lemma FreshProblem(w: World, now: int)
    requires Wired(w) && HistoryReadable(w, now) && FreshDecision(w, now).Err?
    ensures EvidenceProblem(Unobservable(FreshDecision(w, now).error))
    ensures FreshDecision(w, now).error == RevlogUnreadable <==> !RevlogReadable(w.reviews, now)
  {
    FreshRefusals(w, now);
  }

  lemma IdleReport(txs: Transactions, outcome: Result<Decided, Refusal>)
    ensures var run := FreshRun(txs, outcome);
            match run.verdict
            case Refused(Unobservable(e)) => outcome == Err(e)
            case Refused(why) =>
              why == IdentityReused && outcome.Ok? && exists p :: p in outcome.value.plans && p.id in txs
            case Done(committed, recovered, _, _) =>
              outcome.Ok? && recovered == [] && committed == IdsOf(outcome.value.plans)
            case Conflict(_) => false
  {
  }

  lemma SingleReport(w: World, p: Plan, outcome: Result<Decided, Refusal>)
    requires InvAt(w, Single(p))
    requires w.reviewsInOrder && w.note[p.id.channel] == p.id.from && outcome.Ok? && Irrevocable(p) ==>
               p in outcome.value.plans
    ensures var run := RecoverUngrouped(w, p, outcome);
            match run.verdict
            case Refused(why) =>
              && w.note[p.id.channel] == p.id.from
              && outcome.Err? && why == Unobservable(outcome.error) && run.effects == []
            case Done(committed, recovered, _, _) =>
              committed == recovered == [p.id] && run.effects != [] && Append(p, Abort) !in run.effects
            case Conflict(aborted) =>
              && aborted == [p.id] && run.effects == [Append(p, Abort)]
              && (w.reviewsInOrder ==> !Irrevocable(p))
  {
    if w.note[p.id.channel] == p.id.from {
      ProgramAtSource(w, p, outcome);
    } else {
      ProgramAtTarget(w, p, outcome);
    }
  }

  lemma GroupReport(w: World, ev: Evidence, outcome: Result<Decided, Refusal>)
    requires InvAt(w, Group(ev))
    ensures var run := RecoverGroup(w, ViewOf(w).txs, ev, outcome);
            match run.verdict
            case Refused(why) =>
              AllAtSource(ViewOf(w), ev) && outcome.Err? && why == Unobservable(outcome.error) && run.effects == []
            case Done(_, _, _, _) => run.effects != []
            case Conflict(aborted) =>
              run.effects != [] && aborted == IdsOf(WithTerminal(MemberPlans(ev), ViewOf(w).txs, None))
  {
    MembersAreActive(w, ev);
    PendingFound(ViewOf(w), ev);
    if AllAtSource(ViewOf(w), ev) {
      SourceReport(w, ev, outcome);
    } else {
      TargetReport(w, ev, outcome);
    }
  }

  lemma SomethingPends(v: View, ev: Evidence, todo: seq<Plan>)
    requires GroupPends(v, ev) && PendingMembers(v, ev, todo)
    ensures todo != []
  {
    var id :| id in Pending(v.txs);
    assert id in IdsOf(todo);
  }

  lemma SourceReport(w: World, ev: Evidence, outcome: Result<Decided, Refusal>)
    requires Readable(w) && GroupPends(ViewOf(w), ev) && AllAtSource(ViewOf(w), ev)
    requires ChannelsOf(MemberPlans(ev)) == Active(w)
    requires PendingMembers(ViewOf(w), ev, WithTerminal(MemberPlans(ev), ViewOf(w).txs, None))
    ensures var run := RecoverGroup(w, ViewOf(w).txs, ev, outcome);
            match run.verdict
            case Refused(why) => outcome.Err? && why == Unobservable(outcome.error) && run.effects == []
            case Done(_, _, _, _) => run.effects != []
            case Conflict(aborted) =>
              run.effects != [] && aborted == IdsOf(WithTerminal(MemberPlans(ev), ViewOf(w).txs, None))
  {
    SourceHasNoCommit(ViewOf(w), ev);
    SomethingPends(ViewOf(w), ev, WithTerminal(MemberPlans(ev), ViewOf(w).txs, None));
    GroupAtSourceProgram(w, ViewOf(w).txs, ev, outcome);
  }

  lemma TargetReport(w: World, ev: Evidence, outcome: Result<Decided, Refusal>)
    requires Readable(w) && GroupPends(ViewOf(w), ev) && AllAtTarget(ViewOf(w), ev)
    requires ChannelsOf(MemberPlans(ev)) == Active(w)
    requires PendingMembers(ViewOf(w), ev, WithTerminal(MemberPlans(ev), ViewOf(w).txs, None))
    ensures RecoverGroup(w, ViewOf(w).txs, ev, outcome).verdict.Done?
    ensures RecoverGroup(w, ViewOf(w).txs, ev, outcome).effects != []
  {
    TargetIsPrepared(ViewOf(w), ev);
    SomethingPends(ViewOf(w), ev, WithTerminal(MemberPlans(ev), ViewOf(w).txs, None));
    GroupAtTargetProgram(w, ViewOf(w).txs, ev, outcome);
  }

  /**
   * A call that gets through all its effects without a refusal leaves nothing
   * pending; one that refuses has done nothing.
   */
  lemma CallThatGetsThrough(w: World, stage: Stage, now: int, ts: seq<int>)
    requires InvAt(w, stage) && |ts| == |Reconcile(w, now).effects| && Ticking(w.clock, ts)
    ensures if Reconcile(w, now).verdict.Refused? then Reconcile(w, now).effects == []
            else InvAt(Exec(w, Reconcile(w, now).effects, ts), Idle)
  {
    CallWalks(w, stage, now, ts);
    CallIsProgram(w, stage, now);
    if NoFutureState(w.log, now) {
      ReportAt(w, stage, now);
    }
  }

  /** A refusal has done nothing and has its reason; a recovery that is not refused has done something. */
  predicate Reported(w: World, stage: Stage, run: Run, outcome: Result<Decided, Refusal>, now: int) {
    match run.verdict
    case Refused(Unobservable(e)) =>
      run.effects == [] && outcome == Err(e) && (w.clock <= now ==> HistoryReadable(w, now))
    case Refused(why) => run.effects == [] && why == IdentityReused && stage == Idle
    case Done(_, _, _, _) => stage == Idle || run.effects != []
    case Conflict(_) => stage != Idle && run.effects != []
  }

  lemma ReportIdle(w: World, now: int, outcome: Result<Decided, Refusal>)
    requires InvAt(w, Idle)
    ensures Reported(w, Idle, FreshRun(ViewOf(w).txs, outcome), outcome, now)
  {
    IdleReport(ViewOf(w).txs, outcome);
    if w.clock <= now { PlacedWhenSettled(w, now); }
  }

  lemma ReportSingle(w: World, p: Plan, now: int)
    requires InvAt(w, Single(p))
    ensures Reported(w, Single(p), RecoverUngrouped(w, p, FreshDecision(w, now)), FreshDecision(w, now), now)
  {
    if w.note[p.id.channel] == p.id.from {
      if FreshDecision(w, now).Ok? && Irrevocable(p) && w.reviewsInOrder { IrrevocableIsReproduced(w, p, now); }
      SingleIsPlaced(w, p);
    }
    SingleReport(w, p, FreshDecision(w, now));
  }

  lemma ReportGroup(w: World, ev: Evidence, now: int, outcome: Result<Decided, Refusal>)
    requires InvAt(w, Group(ev))
    ensures Reported(w, Group(ev), RecoverGroup(w, ViewOf(w).txs, ev, outcome), outcome, now)
  {
    GroupReport(w, ev, outcome);
    if w.clock <= now && AllAtSource(ViewOf(w), ev) { PlacedAtSource(w, ev, now); }
  }

  lemma ReportAt(w: World, stage: Stage, now: int)
    requires InvAt(w, stage)
    ensures Reported(w, stage, ProgramAt(w, stage, FreshDecision(w, now)), FreshDecision(w, now), now)
  {
    match stage
    case Idle => ReportIdle(w, now, FreshDecision(w, now));
    case Single(p) => ReportSingle(w, p, now);
    case Group(ev) => ReportGroup(w, ev, now, FreshDecision(w, now));
  }

  /**
   * The journal never gives a call a reason to stop: the only refusals left are
   * evidence that cannot be read, and a decision whose identity was used before.
   */
  lemma OnlyEvidenceStopsACall(w: World, stage: Stage, now: int)
    requires InvAt(w, stage) && w.clock <= now && Reconcile(w, now).verdict.Refused?
    ensures || EvidenceProblem(Reconcile(w, now).verdict.why)
            || (stage == Idle && Reconcile(w, now).verdict.why == IdentityReused)
  {
    CallIsProgram(w, stage, now);
    ReportAt(w, stage, now);
    if HistoryReadable(w, now) && FreshDecision(w, now).Err? {
      FreshProblem(w, now);
    }
  }

  // -------------------------------------------------------------------------
  // The world around the calls
  // -------------------------------------------------------------------------

  lemma EvidenceStaysShown(w: World, m: Move, p: Plan)
    requires Readable(w) && Legal(w, m) && !m.ReconcileCall? && Shown(w, p) && Do(w, m).reviewsInOrder
    ensures Shown(Do(w, m), p)
  {
    var c := p.id.channel;
    var at := Replay(w.log, c).value;
    match m
    case ReviewDone(d, r) =>
      if d == c && ReviewsShow(w.reviews[c], at, p.id) {
        NewerReviewStillShows(w.reviews[c], r, at, p.id);
      }
    case JudgeEmitted(a) =>
      ReplayAppends(w.log, JudgeEntry(a), c);
      AssessmentsOfAppends(w.log, JudgeEntry(a), c);
      JudgesSoFar(w, c, a);
      if a.channel == c && FailureShown(M.Ordered(AssessmentsOf(w.log, c)), at, p.id) {
        LaterJudgeStillShows(AssessmentsOf(w.log, c), a, at, p.id);
      }
    case _ =>
  }

  lemma JudgesSoFar(w: World, c: Channel, a: M.Assessment)
    requires NoFuture(w.log, w.clock) && w.clock <= a.ts
    ensures forall x :: x in AssessmentsOf(w.log, c) ==> x.ts <= a.ts
  {
    forall x | x in AssessmentsOf(w.log, c) ensures x.ts <= a.ts {
      assert JudgeEntry(x) in w.log;
    }
  }

  lemma JudgeReads(w: World, a: M.Assessment)
    requires Readable(w) && w.clock <= a.ts
    ensures Readable(Do(w, JudgeEmitted(a))) && ViewOf(Do(w, JudgeEmitted(a))) == ViewOf(w)
  {
    var w' := Do(w, JudgeEmitted(a));
    assert w'.log == w.log + [JudgeEntry(a)];
    FoldAppends(w.log, JudgeEntry(a));
    forall c | c in w.note ensures Replay(w'.log, c) == Replay(w.log, c) {
      ReplayAppends(w.log, JudgeEntry(a), c);
    }
    SameReplaysRead(w, w');
  }

  lemma SameReplaysRead(w: World, w': World)
    requires Readable(w) && Wired(w') && NoFuture(w'.log, w'.clock) && Fold(w'.log) == Fold(w.log)
    requires w'.note == w.note && w'.reviewsInOrder == w.reviewsInOrder
    requires forall c :: c in w.note ==> Replay(w'.log, c) == Replay(w.log, c)
    ensures Readable(w') && ViewOf(w') == ViewOf(w)
  {
    assert ViewOf(w').at == ViewOf(w).at;
  }

  lemma SurroundingsRead(w: World, m: Move)
    requires Readable(w) && Legal(w, m) && !m.ReconcileCall?
    ensures Readable(Do(w, m))
    ensures ViewOf(Do(w, m)) == ViewOf(w).(reviewsInOrder := Do(w, m).reviewsInOrder)
    ensures Do(w, m).reviewsInOrder ==> w.reviewsInOrder
  {
    match m
    case JudgeEmitted(a) => JudgeReads(w, a);
    case ReviewDone(c, r) =>
      assert Do(w, m).reviews.Keys == w.reviews.Keys;
      SameLogReads(w, Do(w, m));
    case CardChanged(c, card) =>
      assert Do(w, m).cards.Keys == w.cards.Keys;
      SameLogReads(w, Do(w, m));
    case TimePasses(_) => SameLogReads(w, Do(w, m));
    case LeechTagged(_) => SameLogReads(w, Do(w, m));
  }

  /** What holds of reviews in order holds of reviews in any order, but for what is never aborted. */
  lemma OrderForgotten(v: View, stage: Stage, still: bool)
    requires ViewHolds(v, stage) && (still ==> v.reviewsInOrder)
    ensures ViewHolds(v.(reviewsInOrder := still), stage)
  {
    match stage
    case Idle => AgreesInAnyOrder(v, still);
    case Single(p) => AgreesInAnyOrder(v, still);
    case Group(ev) => GroupInAnyOrder(v, ev, still);
  }

  lemma AgreesInAnyOrder(v: View, still: bool)
    ensures forall c :: Agrees(v.(reviewsInOrder := still), c) <==> Agrees(v, c)
  {
  }

  lemma GroupInAnyOrder(v: View, ev: Evidence, still: bool)
    requires GroupPends(v, ev)
    ensures GroupPends(v.(reviewsInOrder := still), ev)
  {
    var v' := v.(reviewsInOrder := still);
    if AllAtSource(v, ev) {
      forall c | c in v'.note ensures SourceMember(v', ev, c) {
        assert SourceMember(v, ev, c);
      }
    } else {
      forall c | c in v'.note ensures TargetMember(v', ev, c) {
        assert TargetMember(v, ev, c);
      }
    }
  }

  /** Nothing that happens around the calls disturbs the invariant or its stage. */
  lemma SurroundingsKeepInvariant(w: World, stage: Stage, m: Move)
    requires InvAt(w, stage) && Legal(w, m) && !m.ReconcileCall?
    ensures InvAt(Do(w, m), stage)
  {
    SurroundingsRead(w, m);
    OrderForgotten(ViewOf(w), stage, Do(w, m).reviewsInOrder);
    if stage.Single? && Shown(w, stage.plan) && Do(w, m).reviewsInOrder {
      EvidenceStaysShown(w, m, stage.plan);
    }
  }

  // -------------------------------------------------------------------------
  // Every reachable deployment
  // -------------------------------------------------------------------------

  lemma {:induction false} OnlyJudges(log: seq<Entry>, c: Channel)
    requires forall i :: 0 <= i < |log| ==> log[i].JudgeEntry?
    ensures Fold(log) == Some(map[]) && Replay(log, c) == Some(Start(c))
  {
    if log != [] {
      OnlyJudges(log[..|log| - 1], c);
    }
  }

  lemma InitialInvariant(w: World)
    requires Initial(w)
    ensures InvAt(w, Idle)
  {
    forall c: Channel ensures Fold(w.log) == Some(map[]) && Replay(w.log, c) == Some(Start(c)) {
      OnlyJudges(w.log, c);
    }
    var c :| c in w.note.Keys;
    OnlyJudges(w.log, c);
  }

  ghost predicate Invariant(w: World) {
    exists stage :: InvAt(w, stage)
  }

  lemma MoveKeepsInvariant(w: World, m: Move)
    requires Wired(w) && Legal(w, m) && Invariant(w)
    ensures Invariant(Do(w, m))
  {
    var stage :| InvAt(w, stage);
    match m
    case ReconcileCall(now, instants) => CallWalks(w, stage, now, instants);
    case _ => SurroundingsKeepInvariant(w, stage, m);
  }

  /** The invariant holds in every deployment that any lifetime can reach. */
  lemma {:induction false} ReachableInvariant(w: World, moves: seq<Move>, w': World)
    requires Invariant(w) && Reaches(w, moves, w')
    ensures Invariant(w')
    decreases |moves|
  {
    if moves != [] {
      MoveKeepsInvariant(w, moves[0]);
      ReachableInvariant(Do(w, moves[0]), moves[1..], w');
    }
  }

  lemma EveryLifetime(w: World, moves: seq<Move>, w': World)
    requires Initial(w) && Reaches(w, moves, w')
    ensures Invariant(w')
  {
    InitialInvariant(w);
    ReachableInvariant(w, moves, w');
  }
}
