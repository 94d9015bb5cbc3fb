/**
 * What a reconcile call that gets through has done: which transitions it committed
 * and aborted, said of what the stores warrant and where the note stood, and that
 * it reports exactly these.
 */
module Outcomes {
  import opened Wrappers
  import opened Lifecycle
  import opened Journal
  import opened Observation
  import opened Decision
  import opened DecisionFacts
  import opened Protocol
  import opened Safety
  import opened Recovery
  import opened Lifetime
  import opened Warrants
  import Consequences
  import G = GroupRuns
  import Runs

  // -------------------------------------------------------------------------
  // What a program appends and moves
  // -------------------------------------------------------------------------

  ghost predicate Appended(es: seq<Effect>, id: TransitionId, phase: Phase) {
    exists p :: Append(p, phase) in es && p.id == id
  }

  /** The records of a log after a whole program are those before it and those it appends. */
  lemma {:induction false} RecordsAfter(w: World, es: seq<Effect>, ts: seq<int>, id: TransitionId, phase: Phase)
    requires |ts| == |es|
    ensures Logged(Exec(w, es, ts).log, id, phase) <==> Logged(w.log, id, phase) || Appended(es, id, phase)
    decreases |es|
  {
    if es != [] {
      var e, w' := es[0], Apply(w, es[0], ts[0]);
      assert es == [e] + es[1..];
      RecordsAfter(w', es[1..], ts[1..], id, phase);
      RecordAfterOne(w, e, ts[0], id, phase);
      if e.Append? && e.phase == phase && e.plan.id == id {
        assert Append(e.plan, phase) in es;
      }
    }
  }

  lemma RecordAfterOne(w: World, e: Effect, t: int, id: TransitionId, phase: Phase)
    ensures Logged(Apply(w, e, t).log, id, phase) <==>
            Logged(w.log, id, phase) || (e.Append? && e.phase == phase && e.plan.id == id)
  {
    if e.Append? {
      var log := w.log + [StateEntry(e.plan, e.phase, t)];
      assert log[..|log| - 1] == w.log;
      LoggedAppends(log, id, phase);
    }
  }

  lemma AppendedInParts(a: seq<Effect>, b: seq<Effect>, id: TransitionId, phase: Phase)
    ensures Appended(a + b, id, phase) <==> Appended(a, id, phase) || Appended(b, id, phase)
  {
    if Appended(a, id, phase) {
      var p :| Append(p, phase) in a && p.id == id;
      assert Append(p, phase) in a + b;
    }
    if Appended(b, id, phase) {
      var p :| Append(p, phase) in b && p.id == id;
      assert Append(p, phase) in a + b;
    }
  }

  lemma AppendsAppend(plans: seq<Plan>, each: Phase, id: TransitionId, phase: Phase)
    ensures Appended(Appends(plans, each), id, phase) <==> phase == each && id in IdsOf(plans)
  {
    if phase == each && id in IdsOf(plans) {
      var i :| 0 <= i < |plans| && IdsOf(plans)[i] == id;
      assert Appends(plans, each)[i] == Append(plans[i], phase);
    }
    if Appended(Appends(plans, each), id, phase) {
      var p :| Append(p, phase) in Appends(plans, each) && p.id == id;
      var i :| 0 <= i < |plans| && Appends(plans, each)[i] == Append(p, phase);
      assert IdsOf(plans)[i] == id;
    }
  }

  lemma StepAppends(p: Plan, id: TransitionId, phase: Phase)
    ensures Appended(Step(p), id, phase) <==> phase == Commit && id == p.id
  {
    assert Step(p)[1] == Append(p, Commit);
  }

  lemma {:induction false} UngroupedAppends(plans: seq<Plan>, id: TransitionId, phase: Phase)
    ensures Appended(UngroupedEffects(plans), id, phase) <==> phase != Abort && id in IdsOf(plans)
  {
    if plans != [] {
      var first, rest := [Append(plans[0], Prepare)], UngroupedEffects(plans[1..]);
      assert first == Appends([plans[0]], Prepare);
      AppendsAppend([plans[0]], Prepare, id, phase);
      StepAppends(plans[0], id, phase);
      UngroupedAppends(plans[1..], id, phase);
      AppendedInParts(first, Step(plans[0]), id, phase);
      AppendedInParts(first + Step(plans[0]), rest, id, phase);
      assert IdsOf(plans) == [plans[0].id] + IdsOf(plans[1..]);
    }
  }

  lemma DormancyAppends(plans: seq<Plan>, todo: seq<Plan>, id: TransitionId, phase: Phase)
    requires phase != Prepare
    ensures Appended(DormancyEffects(plans, todo), id, phase) <==> phase == Commit && id in IdsOf(plans)
  {
    DormancyInParts(plans, todo);
    AppendsAppend(todo, Prepare, id, phase);
    AppendsAppend(plans, Commit, id, phase);
    AppendedInParts(G.MoveAll(plans), Appends(plans, Commit), id, phase);
    AppendedInParts(Appends(todo, Prepare), G.MoveAll(plans) + Appends(plans, Commit), id, phase);
  }

  /** Where the note stands after the program's updates. */
  function Renoted(note: map<Channel, LifeState>, es: seq<Effect>): map<Channel, LifeState>
    decreases |es|
  {
    if es == [] then note
    else Renoted(if es[0].SetStates? then note + es[0].states else note, es[1..])
  }

  lemma {:induction false} NoteAfter(w: World, es: seq<Effect>, ts: seq<int>)
    requires |ts| == |es|
    ensures Exec(w, es, ts).note == Renoted(w.note, es)
    decreases |es|
  {
    if es != [] {
      NoteAfter(Apply(w, es[0], ts[0]), es[1..], ts[1..]);
    }
  }

  lemma {:induction false} AppendsLeaveNote(note: map<Channel, LifeState>, plans: seq<Plan>, phase: Phase)
    ensures Renoted(note, Appends(plans, phase)) == note
  {
    if plans != [] {
      assert Appends(plans, phase)[1..] == Appends(plans[1..], phase);
      AppendsLeaveNote(note, plans[1..], phase);
    }
  }

  lemma {:induction false} RenotedInTurn(note: map<Channel, LifeState>, a: seq<Effect>, b: seq<Effect>)
    ensures Renoted(note, a + b) == Renoted(Renoted(note, a), b)
    decreases |a|
  {
    if a == [] {
      assert a + b == b;
    } else {
      assert (a + b)[0] == a[0] && (a + b)[1..] == a[1..] + b;
      RenotedInTurn(if a[0].SetStates? then note + a[0].states else note, a[1..], b);
    }
  }

  /** Committed channels show their targets, and no other channel has moved. */
  ghost predicate Moved(note: map<Channel, LifeState>, note': map<Channel, LifeState>, ids: seq<TransitionId>) {
    && (forall id :: id in ids ==> id.channel in note' && note'[id.channel] == id.to)
    && forall c :: Unnamed(ids, c) ==> (c in note' <==> c in note) && (c in note ==> note'[c] == note[c])
  }

  ghost predicate Unnamed(ids: seq<TransitionId>, c: Channel) {
    forall id :: id in ids ==> id.channel != c
  }

  lemma {:induction false} UngroupedMoves(note: map<Channel, LifeState>, plans: seq<Plan>)
    requires InChannelOrder(plans)
    ensures Moved(note, Renoted(note, UngroupedEffects(plans)), IdsOf(plans))
    decreases |plans|
  {
    if plans != [] {
      var p, rest := plans[0], plans[1..];
      var note' := note + map[p.id.channel := p.id.to];
      WholeMoves(note, p);
      assert UngroupedEffects(plans) == Runs.Whole(p) + UngroupedEffects(rest);
      RenotedInTurn(note, Runs.Whole(p), UngroupedEffects(rest));
      UngroupedMoves(note', rest);
      OthersBehind(plans);
      FirstThenRest(note, p.id, Renoted(note', UngroupedEffects(rest)), IdsOf(rest));
      assert IdsOf(plans) == [p.id] + IdsOf(rest);
    }
  }

  lemma StepMoves(note: map<Channel, LifeState>, p: Plan)
    ensures Renoted(note, Step(p)) == note + map[p.id.channel := p.id.to]
  {
    assert Step(p)[1..] == [Append(p, Commit)] && [Append(p, Commit)][1..] == [];
    assert Renoted(note + map[p.id.channel := p.id.to], [Append(p, Commit)]) == note + map[p.id.channel := p.id.to];
  }

  lemma WholeMoves(note: map<Channel, LifeState>, p: Plan)
    ensures Renoted(note, Runs.Whole(p)) == note + map[p.id.channel := p.id.to]
  {
    assert Runs.Whole(p)[1..] == Step(p);
    StepMoves(note, p);
  }

  lemma OthersBehind(plans: seq<Plan>)
    requires InChannelOrder(plans) && plans != []
    ensures Unnamed(IdsOf(plans[1..]), plans[0].id.channel)
  {
    forall id | id in IdsOf(plans[1..]) ensures id.channel != plans[0].id.channel {
      var i :| 0 <= i < |plans[1..]| && IdsOf(plans[1..])[i] == id;
      assert plans[1..][i] == plans[i + 1];
    }
  }

  lemma FirstThenRest(note: map<Channel, LifeState>, id: TransitionId, note': map<Channel, LifeState>,
                      ids: seq<TransitionId>)
    requires Unnamed(ids, id.channel) && Moved(note + map[id.channel := id.to], note', ids)
    ensures Moved(note, note', [id] + ids)
  {
    forall c | Unnamed([id] + ids, c) ensures (c in note' <==> c in note) && (c in note ==> note'[c] == note[c]) {
      assert id in [id] + ids;
      assert forall x :: x in ids ==> x in [id] + ids;
      assert Unnamed(ids, c);
    }
  }

  lemma DormancyMoves(note: map<Channel, LifeState>, plans: seq<Plan>, todo: seq<Plan>)
    requires forall p :: p in plans ==> p.id.to == Dormant
    ensures Renoted(note, DormancyEffects(plans, todo)) == note + AllTo(plans, Dormant)
    ensures Moved(note, note + AllTo(plans, Dormant), IdsOf(plans))
  {
    var moves := G.MoveAll(plans);
    DormancyInParts(plans, todo);
    RenotedInTurn(note, Appends(todo, Prepare), moves + Appends(plans, Commit));
    AppendsLeaveNote(note, todo, Prepare);
    RenotedInTurn(note, moves, Appends(plans, Commit));
    assert moves[1..][1..] == [];
    assert Renoted(note + AllTo(plans, Dormant), moves[1..]) == note + AllTo(plans, Dormant);
    AppendsLeaveNote(note + AllTo(plans, Dormant), plans, Commit);
    MembersMoved(note, plans);
  }

  lemma MembersMoved(note: map<Channel, LifeState>, plans: seq<Plan>)
    requires forall p :: p in plans ==> p.id.to == Dormant
    ensures Moved(note, note + AllTo(plans, Dormant), IdsOf(plans))
  {
    var ids := IdsOf(plans);
    forall id | id in ids ensures id.channel in ChannelsOf(plans) && id.to == Dormant {
      var i :| 0 <= i < |plans| && ids[i] == id;
      assert plans[i] in plans && ChannelsOf(plans)[i] == id.channel;
    }
    assert forall i :: 0 <= i < |ids| ==> ids[i] in ids && ids[i].channel == ChannelsOf(plans)[i];
  }

  // -------------------------------------------------------------------------
  // A report says what was done
  // -------------------------------------------------------------------------

  function CommittedBy(verdict: Verdict): seq<TransitionId> {
    if verdict.Done? then verdict.committed else []
  }

  function AbortedBy(verdict: Verdict): seq<TransitionId> {
    if verdict.Conflict? then verdict.aborted else []
  }

  /** The program commits, moves and aborts what its verdict says. */
  ghost predicate Truthful(note: map<Channel, LifeState>, run: Run) {
    && (forall id :: Appended(run.effects, id, Commit) <==> id in CommittedBy(run.verdict))
    && (forall id :: Appended(run.effects, id, Abort) <==> id in AbortedBy(run.verdict))
    && Moved(note, Renoted(note, run.effects), CommittedBy(run.verdict))
  }

  lemma RefusalIsTruthful(note: map<Channel, LifeState>, why: Why)
    ensures Truthful(note, Refuse(why))
  {
  }

  lemma AbortsAreTruthful(note: map<Channel, LifeState>, plans: seq<Plan>)
    ensures Truthful(note, Run(Appends(plans, Abort), Conflict(IdsOf(plans))))
  {
    forall id, phase ensures Appended(Appends(plans, Abort), id, phase) <==> phase == Abort && id in IdsOf(plans) {
      AppendsAppend(plans, Abort, id, phase);
    }
    AppendsLeaveNote(note, plans, Abort);
  }

  lemma UngroupedIsTruthful(note: map<Channel, LifeState>, plans: seq<Plan>, verdict: Verdict)
    requires InChannelOrder(plans) && verdict.Done? && verdict.committed == IdsOf(plans)
    ensures Truthful(note, Run(UngroupedEffects(plans), verdict))
  {
    forall id, phase
      ensures Appended(UngroupedEffects(plans), id, phase) <==> phase != Abort && id in IdsOf(plans)
    {
      UngroupedAppends(plans, id, phase);
    }
    UngroupedMoves(note, plans);
  }

  lemma DormancyIsTruthful(note: map<Channel, LifeState>, plans: seq<Plan>, todo: seq<Plan>, verdict: Verdict)
    requires (forall p :: p in plans ==> p.id.to == Dormant) && verdict.Done? && verdict.committed == IdsOf(plans)
    ensures Truthful(note, Run(DormancyEffects(plans, todo), verdict))
  {
    forall id, phase | phase != Prepare
      ensures Appended(DormancyEffects(plans, todo), id, phase) <==> phase == Commit && id in IdsOf(plans)
    {
      DormancyAppends(plans, todo, id, phase);
    }
    DormancyMoves(note, plans, todo);
  }

  lemma FreshIsTruthful(w: World, txs: Transactions, now: int)
    requires Wired(w)
    ensures Truthful(w.note, FreshRun(txs, FreshDecision(w, now)))
  {
    if FreshDecision(w, now).Ok? {
      FreshIsOrdered(w, now);
    }
    FreshRunIsTruthful(w.note, txs, FreshDecision(w, now));
  }

  ghost predicate Grouped(plans: seq<Plan>) {
    plans != [] && plans[0].group.Some?
  }

  lemma FreshIsOrdered(w: World, now: int)
    requires Wired(w) && FreshDecision(w, now).Ok?
    ensures var plans := FreshDecision(w, now).value.plans;
            InChannelOrder(plans) && (Grouped(plans) ==> forall p :: p in plans ==> p.id.to == Dormant)
  {
    FreshIsDecided(w, now);
    DecisionsMaterialize(Observe(w, now).value, now);
    if Grouped(FreshDecision(w, now).value.plans) {
      GroupsGoDormant(Observe(w, now).value, FreshDecision(w, now).value);
    }
  }

  lemma GroupsGoDormant(progress: UnitProgress, d: Decided)
    requires ValidDecision(progress, d) && Grouped(d.plans)
    ensures forall p :: p in d.plans ==> p.id.to == Dormant
  {
    assert d.plans[0] in d.plans;
  }

  lemma FreshRunIsTruthful(note: map<Channel, LifeState>, txs: Transactions, outcome: Result<Decided, Refusal>)
    requires outcome.Ok? ==>
               && InChannelOrder(outcome.value.plans)
               && (Grouped(outcome.value.plans) ==> forall p :: p in outcome.value.plans ==> p.id.to == Dormant)
    ensures Truthful(note, FreshRun(txs, outcome))
  {
    var run := FreshRun(txs, outcome);
    if run.verdict.Refused? {
      RefusalIsTruthful(note, run.verdict.why);
    } else if Grouped(outcome.value.plans) {
      DormancyIsTruthful(note, outcome.value.plans, outcome.value.plans, run.verdict);
    } else {
      UngroupedIsTruthful(note, outcome.value.plans, run.verdict);
    }
  }

  lemma StepIsTruthful(note: map<Channel, LifeState>, p: Plan, verdict: Verdict)
    requires verdict.Done? && verdict.committed == [p.id]
    ensures Truthful(note, Run(Step(p), verdict))
  {
    forall id, phase ensures Appended(Step(p), id, phase) <==> phase == Commit && id == p.id {
      StepAppends(p, id, phase);
    }
    StepMoves(note, p);
    assert forall id :: id in [p.id] <==> id == p.id;
    assert p.id in [p.id];
  }

  /** Commits of what the note already shows. */
  lemma CommitsAreTruthful(note: map<Channel, LifeState>, awake: seq<Effect>, plans: seq<Plan>, verdict: Verdict)
    requires |awake| <= 1 && forall e :: e in awake ==> e.SuspendCards?
    requires verdict.Done? && verdict.committed == IdsOf(plans)
    requires forall p :: p in plans ==> p.id.channel in note && note[p.id.channel] == p.id.to
    ensures Truthful(note, Run(awake + Appends(plans, Commit), verdict))
  {
    forall id, phase
      ensures Appended(awake + Appends(plans, Commit), id, phase) <==> phase == Commit && id in IdsOf(plans)
    {
      AppendedInParts(awake, Appends(plans, Commit), id, phase);
      AppendsAppend(plans, Commit, id, phase);
    }
    RenotedInTurn(note, awake, Appends(plans, Commit));
    assert awake != [] ==> awake[0] in awake && awake[1..] == [];
    AppendsLeaveNote(note, plans, Commit);
    forall id | id in IdsOf(plans) ensures id.channel in note && note[id.channel] == id.to {
      var i :| 0 <= i < |plans| && IdsOf(plans)[i] == id;
      assert plans[i] in plans;
    }
  }

  lemma SingleIsTruthful(w: World, p: Plan, outcome: Result<Decided, Refusal>)
    requires Wired(w) && p.id.channel in w.note
    ensures Truthful(w.note, RecoverUngrouped(w, p, outcome))
  {
    var run := RecoverUngrouped(w, p, outcome);
    match run.verdict
    case Refused(why) => RefusalIsTruthful(w.note, why);
    case Conflict(aborted) =>
      assert [Append(p, Abort)] == Appends([p], Abort) && IdsOf([p]) == [p.id];
      AbortsAreTruthful(w.note, [p]);
    case Done(committed, _, _, _) =>
      if w.note[p.id.channel] == p.id.from {
        StepIsTruthful(w.note, p, run.verdict);
      } else {
        assert [] + Appends([p], Commit) == [Append(p, Commit)] && IdsOf([p]) == [p.id];
        CommitsAreTruthful(w.note, [], [p], run.verdict);
      }
  }

  lemma GroupIsTruthful(w: World, ev: Evidence, outcome: Result<Decided, Refusal>)
    requires InvAt(w, Group(ev))
    ensures Truthful(w.note, RecoverGroup(w, ViewOf(w).txs, ev, outcome))
  {
    MembersAreActive(w, ev);
    if AllAtSource(ViewOf(w), ev) {
      SourceHasNoCommit(ViewOf(w), ev);
      SourceIsTruthful(w, ViewOf(w).txs, ev, outcome);
    } else {
      TargetIsPrepared(ViewOf(w), ev);
      TargetIsTruthful(w, ViewOf(w).txs, ev, outcome);
    }
  }

  lemma SourceIsTruthful(w: World, txs: Transactions, ev: Evidence, outcome: Result<Decided, Refusal>)
    requires Wired(w) && ev.DormancyAgreed? && ev.entries.Keys == w.note.Keys
    requires ChannelsOf(MemberPlans(ev)) == Active(w) && ShowsOnly(w.note, Mastered)
    requires WithTerminal(MemberPlans(ev), txs, Some(Commit)) == []
    ensures Truthful(w.note, RecoverGroup(w, txs, ev, outcome))
  {
    var run, plans := RecoverGroup(w, txs, ev, outcome), MemberPlans(ev);
    GroupAtSourceProgram(w, txs, ev, outcome);
    MembersGoDormant(ev);
    match run.verdict
    case Refused(why) => RefusalIsTruthful(w.note, why);
    case Conflict(_) => AbortsAreTruthful(w.note, WithTerminal(plans, txs, None));
    case Done(_, _, _, _) => DormancyIsTruthful(w.note, plans, WithoutTransaction(plans, txs), run.verdict);
  }

  lemma TargetIsTruthful(w: World, txs: Transactions, ev: Evidence, outcome: Result<Decided, Refusal>)
    requires Wired(w) && ev.DormancyAgreed? && ev.entries.Keys == w.note.Keys
    requires ChannelsOf(MemberPlans(ev)) == Active(w) && ShowsOnly(w.note, Dormant)
    requires WithTerminal(MemberPlans(ev), txs, Some(Abort)) == [] && WithoutTransaction(MemberPlans(ev), txs) == []
    ensures Truthful(w.note, RecoverGroup(w, txs, ev, outcome))
  {
    var run, pending := RecoverGroup(w, txs, ev, outcome), WithTerminal(MemberPlans(ev), txs, None);
    GroupAtTargetProgram(w, txs, ev, outcome);
    MembersGoDormant(ev);
    CommitsAreTruthful(w.note, if AwakeCards(w) == {} then [] else [SuspendCards(AwakeCards(w))], pending, run.verdict);
  }

  lemma MembersGoDormant(ev: Evidence)
    requires ev.DormancyAgreed?
    ensures forall p :: p in MemberPlans(ev) ==> p.id.to == Dormant && p.id.channel in ev.entries
  {
    forall p | p in MemberPlans(ev) ensures p.id.to == Dormant && p.id.channel in ev.entries {
      MemberIsListed(ev, p);
    }
  }

  /**
   * From `w` to `w'` exactly the transitions that the verdict names were committed or
   * aborted, the committed ones show their targets, and no other channel has moved.
   */
  ghost predicate Completed(w: World, w': World, verdict: Verdict) {
    && (forall id :: Logged(w'.log, id, Commit) <==> Logged(w.log, id, Commit) || id in CommittedBy(verdict))
    && (forall id :: Logged(w'.log, id, Abort) <==> Logged(w.log, id, Abort) || id in AbortedBy(verdict))
    && Moved(w.note, w'.note, CommittedBy(verdict))
  }

  /** A call that gets through has done what it reports. */
  lemma DoesWhatItReports(w: World, stage: Stage, now: int, ts: seq<int>)
    requires InvAt(w, stage) && |ts| == |Reconcile(w, now).effects|
    ensures Completed(w, Exec(w, Reconcile(w, now).effects, ts), Reconcile(w, now).verdict)
  {
    var run := Reconcile(w, now);
    CallIsTruthful(w, stage, now);
    forall id, phase
      ensures Logged(Exec(w, run.effects, ts).log, id, phase) <==>
              Logged(w.log, id, phase) || Appended(run.effects, id, phase)
    {
      RecordsAfter(w, run.effects, ts, id, phase);
    }
    NoteAfter(w, run.effects, ts);
  }

  lemma CallIsTruthful(w: World, stage: Stage, now: int)
    requires InvAt(w, stage)
    ensures Truthful(w.note, Reconcile(w, now))
  {
    CallIsProgram(w, stage, now);
    RefusalIsTruthful(w.note, JournalUnreadable);
    match stage
    case Idle => FreshIsTruthful(w, ViewOf(w).txs, now);
    case Single(p) => SingleIsTruthful(w, p, FreshDecision(w, now));
    case Group(ev) => GroupIsTruthful(w, ev, FreshDecision(w, now));
  }

  // -------------------------------------------------------------------------
  // With nothing pending
  // -------------------------------------------------------------------------

  /** The identity is that of a transition the stores warrant. */
  ghost predicate Called(w: World, now: int, id: TransitionId)
    requires Wired(w)
  {
    exists p :: Warranted(w, now, p) && p.id == id
  }

  /** Cards to wake: suspended, of channels that are warranted to leave DORMANT. */
  ghost predicate ToWake(w: World, now: int, c: Channel)
    requires Wired(w)
  {
    c in w.note && w.cards[c].suspended
    && exists p :: Warranted(w, now, p) && p.id.channel == c && p.id.from == Dormant && p.id.to == LifeState.Relapse
  }

  predicate Leech(w: World, c: Channel)
    requires Wired(w)
  {
    w.leech && c in w.note && w.cards[c].lapses >= 4
  }

  lemma ReadableNow(w: World, now: int)
    requires Readable(w) && w.clock <= now
    ensures NoFutureState(w.log, now)
  {
  }

  /** What a decision lists is what the stores call for. */
  ghost predicate Lists(w: World, now: int, d: Decided)
    requires Wired(w)
  {
    && (forall id :: id in IdsOf(d.plans) <==> Called(w, now, id))
    && (forall c :: c in d.reactivate <==> ToWake(w, now, c))
    && (forall c :: c in d.leechRescue <==> Leech(w, c))
  }

  lemma ListsAreCalledFor(w: World, now: int)
    requires Wired(w) && FreshDecision(w, now).Ok?
    ensures Lists(w, now, FreshDecision(w, now).value)
  {
    var d := FreshDecision(w, now).value;
    PlansAreWarranted(w, now);
    forall id ensures id in IdsOf(d.plans) <==> Called(w, now, id) {
      ListedById(d.plans, id);
    }
    forall c
      ensures c in d.reactivate <==> ToWake(w, now, c)
      ensures c in d.leechRescue <==> Leech(w, c)
    {
      WakesAndRescues(w, now, c);
    }
  }

  lemma ListedById(plans: seq<Plan>, id: TransitionId)
    ensures id in IdsOf(plans) <==> exists p :: p in plans && p.id == id
  {
    if p :| p in plans && p.id == id {
      var i :| 0 <= i < |plans| && plans[i] == p;
      assert IdsOf(plans)[i] == id;
    }
    if id in IdsOf(plans) {
      var i :| 0 <= i < |plans| && IdsOf(plans)[i] == id;
      assert plans[i] in plans;
    }
  }

  lemma WakesAndRescues(w: World, now: int, c: Channel)
    requires Wired(w) && FreshDecision(w, now).Ok?
    ensures c in FreshDecision(w, now).value.reactivate <==> ToWake(w, now, c)
    ensures c in FreshDecision(w, now).value.leechRescue <==> Leech(w, c)
  {
    SideEffectsAreWarranted(w, now, c);
    PlansAreWarranted(w, now);
    WakingMoves(w, now, c, FreshDecision(w, now).value.plans);
  }

  lemma WakingMoves(w: World, now: int, c: Channel, plans: seq<Plan>)
    requires Wired(w) && forall p :: p in plans <==> Warranted(w, now, p)
    ensures ToWake(w, now, c) <==>
            && c in w.note && w.note[c] == Dormant && w.cards[c].suspended
            && Moves(plans, c, Dormant, LifeState.Relapse)
  {
    if ToWake(w, now, c) {
      var p :| Warranted(w, now, p) && p.id.channel == c && p.id.from == Dormant && p.id.to == LifeState.Relapse;
      assert p in plans && w.note[c] == Dormant;
    }
  }

  /** What a call with nothing pending may say; `outcome` is the fresh decision. */
  ghost predicate FreshSays(w: World, now: int, outcome: Result<Decided, Refusal>, verdict: Verdict)
    requires Wired(w)
  {
    match verdict
    case Done(committed, recovered, reactivate, leechRescue) =>
      && (forall id :: id in committed <==> Called(w, now, id)) && recovered == []
      && (forall id :: Called(w, now, id) ==> !Logged(w.log, id, Abort))
      && (forall c :: c in reactivate <==> ToWake(w, now, c))
      && (forall c :: c in leechRescue <==> Leech(w, c))
    case Refused(Unobservable(e)) => outcome == Err(e)
    case Refused(why) => why == IdentityReused && exists id :: Called(w, now, id) && Logged(w.log, id, Abort)
    case Conflict(_) => false
  }

  /**
   * A call that finds nothing pending commits exactly what the stores warrant, and
   * refuses only when that cannot be told or was given up before.
   */
  lemma FreshDoes(w: World, now: int)
    requires InvAt(w, Idle) && w.clock <= now
    ensures FreshSays(w, now, FreshDecision(w, now), Reconcile(w, now).verdict)
  {
    CallIsProgram(w, Idle, now);
    ReadableNow(w, now);
    if FreshDecision(w, now).Ok? {
      ListsAreCalledFor(w, now);
      ReusedMeansAborted(w, now);
    }
    FreshRunSays(w, now, ViewOf(w).txs, FreshDecision(w, now));
  }

  lemma FreshRunSays(w: World, now: int, txs: Transactions, outcome: Result<Decided, Refusal>)
    requires Wired(w)
    requires outcome.Ok? ==>
               && Lists(w, now, outcome.value)
               && ((exists p :: p in outcome.value.plans && p.id in txs) <==>
                   exists id :: Called(w, now, id) && Logged(w.log, id, Abort))
    ensures FreshSays(w, now, outcome, FreshRun(txs, outcome).verdict)
  {
  }

  lemma ReusedMeansAborted(w: World, now: int)
    requires InvAt(w, Idle) && w.clock <= now && FreshDecision(w, now).Ok?
    ensures (exists p :: p in FreshDecision(w, now).value.plans && p.id in ViewOf(w).txs) <==>
            exists id :: Called(w, now, id) && Logged(w.log, id, Abort)
  {
    Consequences.RefusedExactlyWhenAborted(w, now);
    CallIsProgram(w, Idle, now);
    ReadableNow(w, now);
    IdleReport(ViewOf(w).txs, FreshDecision(w, now));
    AbortedIsCalled(w, now);
  }

  lemma AbortedIsCalled(w: World, now: int)
    requires Wired(w) && FreshDecision(w, now).Ok?
    ensures (exists p :: p in FreshDecision(w, now).value.plans && Logged(w.log, p.id, Abort)) <==>
            exists id :: Called(w, now, id) && Logged(w.log, id, Abort)
  {
    PlansAreWarranted(w, now);
    if p :| p in FreshDecision(w, now).value.plans && Logged(w.log, p.id, Abort) {
      assert Called(w, now, p.id);
    }
  }

  // -------------------------------------------------------------------------
  // With one transition pending
  // -------------------------------------------------------------------------

  /** What a call says that finds `p` pending. */
  ghost predicate RecoverySays(w: World, p: Plan, now: int, outcome: Result<Decided, Refusal>, verdict: Verdict)
    requires Wired(w) && p.id.channel in w.note
  {
    var c := p.id.channel;
    if w.note[c] == p.id.to then
      verdict == Done([p.id], [p.id], if p.id.from == Dormant && w.cards[c].suspended then [c] else [], [])
    else
      && w.note[c] == p.id.from
      && if outcome.Err? then verdict == Refused(Unobservable(outcome.error))
         else if !Warranted(w, now, p) then verdict == Conflict([p.id])
         else
           && verdict.Done? && verdict.committed == verdict.recovered == [p.id]
           && (forall d :: d in verdict.reactivate <==> ToWake(w, now, d))
           && (forall d :: d in verdict.leechRescue <==> Leech(w, d))
  }

  /**
   * A pending transition whose target the note shows is committed; one whose source
   * it shows is redone exactly when the stores still warrant it, and aborted otherwise.
   */
  lemma RecoveryDoes(w: World, p: Plan, now: int)
    requires InvAt(w, Single(p)) && w.clock <= now
    ensures p.id.channel in w.note && RecoverySays(w, p, now, FreshDecision(w, now), Reconcile(w, now).verdict)
  {
    CallIsProgram(w, Single(p), now);
    ReadableNow(w, now);
    SinglePends(w, p);
    if FreshDecision(w, now).Ok? {
      RedoneIfWarranted(w, p, now);
      ListsAreCalledFor(w, now);
    }
    RecoverUngroupedSays(w, p, now, FreshDecision(w, now));
  }

  lemma RecoverUngroupedSays(w: World, p: Plan, now: int, outcome: Result<Decided, Refusal>)
    requires Wired(w) && p.id.channel in w.note && p.id.from != p.id.to
    requires w.note[p.id.channel] == p.id.from || w.note[p.id.channel] == p.id.to
    requires outcome.Ok? ==>
               && Lists(w, now, outcome.value)
               && ((exists q :: q in outcome.value.plans && q.id == p.id && q.group.None?) <==> Warranted(w, now, p))
    ensures RecoverySays(w, p, now, outcome, RecoverUngrouped(w, p, outcome).verdict)
  {
  }

  lemma SinglePends(w: World, p: Plan)
    requires InvAt(w, Single(p))
    ensures p.id.channel in w.note && p.group.None? && p.id.from != p.id.to
    ensures w.note[p.id.channel] == p.id.from || w.note[p.id.channel] == p.id.to
  {
    assert PlanShape(w.note.Keys, p);
  }

  lemma RedoneIfWarranted(w: World, p: Plan, now: int)
    requires Wired(w) && FreshDecision(w, now).Ok? && p.group.None?
    ensures (exists q :: q in FreshDecision(w, now).value.plans && q.id == p.id && q.group.None?) <==>
            Warranted(w, now, p)
  {
    PlanIsWarranted(w, now, p);
    if q :| q in FreshDecision(w, now).value.plans && q.id == p.id && q.group.None? {
      assert q == p;
    }
  }

  // -------------------------------------------------------------------------
  // With a dormancy group pending
  // -------------------------------------------------------------------------

  /** Prepared and neither committed nor aborted. */
  ghost predicate Unfinished(w: World, id: TransitionId) {
    Logged(w.log, id, Prepare) && !Logged(w.log, id, Commit) && !Logged(w.log, id, Abort)
  }

  ghost predicate ExactlyUnfinished(w: World, ids: seq<TransitionId>) {
    forall id :: id in ids <==> Unfinished(w, id)
  }

  ghost predicate MemberAborted(w: World, ev: Evidence)
    requires ev.DormancyAgreed?
  {
    exists c :: c in ev.entries && Logged(w.log, MemberId(ev, c), Abort)
  }

  ghost predicate ExactlyMembers(ev: Evidence, ids: seq<TransitionId>)
    requires ev.DormancyAgreed?
  {
    forall id :: id in ids <==> id.channel in ev.entries && id == MemberId(ev, id.channel)
  }

  /** What a call says that finds the group pending. */
  ghost predicate GroupSays(w: World, ev: Evidence, now: int, outcome: Result<Decided, Refusal>, verdict: Verdict)
    requires Wired(w) && ev.DormancyAgreed?
  {
    if forall c :: c in w.note ==> w.note[c] == Dormant then
      && verdict.Done? && ExactlyUnfinished(w, verdict.committed) && verdict.recovered == verdict.committed
      && verdict.reactivate == [] && verdict.leechRescue == []
    else
      && (forall c :: c in w.note ==> w.note[c] == Mastered)
      && if MemberAborted(w, ev) then verdict.Conflict? && ExactlyUnfinished(w, verdict.aborted)
         else if outcome.Err? then verdict == Refused(Unobservable(outcome.error))
         else if !Together(w, now, ev) then verdict.Conflict? && ExactlyUnfinished(w, verdict.aborted)
         else
           && verdict.Done? && ExactlyMembers(ev, verdict.committed) && ExactlyUnfinished(w, verdict.recovered)
           && verdict.reactivate == [] && (forall d :: d in verdict.leechRescue <==> Leech(w, d))
  }

  /**
   * A pending group that the note shows DORMANT is committed as far as it is not;
   * one it shows MASTERED is completed exactly when no member was aborted and the
   * stores still warrant it, and its pending members are aborted otherwise.
   */
  lemma GroupRecoveryDoes(w: World, ev: Evidence, now: int)
    requires InvAt(w, Group(ev)) && w.clock <= now
    ensures ev.DormancyAgreed? && GroupSays(w, ev, now, FreshDecision(w, now), Reconcile(w, now).verdict)
  {
    CallIsProgram(w, Group(ev), now);
    ReadableNow(w, now);
    MembersAreActive(w, ev);
    if AllAtSource(ViewOf(w), ev) {
      SourceHasNoCommit(ViewOf(w), ev);
      SourceSays(w, ev, now);
    } else {
      TargetIsPrepared(ViewOf(w), ev);
      TargetSays(w, ev, now);
    }
  }

  lemma UnfinishedIsPending(w: World, id: TransitionId)
    requires Fold(w.log).Some?
    ensures id in Fold(w.log).value && Fold(w.log).value[id].terminal.None? <==> Unfinished(w, id)
  {
    FoldMeaning(w.log, id);
    if id in Fold(w.log).value { EveryTerminal(Fold(w.log).value[id].terminal); }
  }

  /** The members found pending are all that is unfinished. */
  lemma PendingAreUnfinished(w: World, ev: Evidence)
    requires InvAt(w, Group(ev))
    ensures ExactlyUnfinished(w, IdsOf(WithTerminal(MemberPlans(ev), ViewOf(w).txs, None)))
  {
    var v, todo := ViewOf(w), WithTerminal(MemberPlans(ev), ViewOf(w).txs, None);
    PendingFound(v, ev);
    forall id ensures id in IdsOf(todo) <==> Unfinished(w, id) {
      UnfinishedIsPending(w, id);
      ListedById(todo, id);
    }
  }

  lemma TargetSays(w: World, ev: Evidence, now: int)
    requires InvAt(w, Group(ev)) && ShowsOnly(w.note, Dormant) && ChannelsOf(MemberPlans(ev)) == Active(w)
    requires WithTerminal(MemberPlans(ev), ViewOf(w).txs, Some(Abort)) == []
    requires WithoutTransaction(MemberPlans(ev), ViewOf(w).txs) == []
    ensures var outcome := FreshDecision(w, now);
            GroupSays(w, ev, now, outcome, RecoverGroup(w, ViewOf(w).txs, ev, outcome).verdict)
  {
    PendingAreUnfinished(w, ev);
    TargetVerdict(w, ViewOf(w).txs, ev, FreshDecision(w, now));
  }

  lemma TargetVerdict(w: World, txs: Transactions, ev: Evidence, outcome: Result<Decided, Refusal>)
    requires Wired(w) && ev.DormancyAgreed? && ShowsOnly(w.note, Dormant) && ChannelsOf(MemberPlans(ev)) == Active(w)
    requires WithTerminal(MemberPlans(ev), txs, Some(Abort)) == [] && WithoutTransaction(MemberPlans(ev), txs) == []
    ensures var pending := IdsOf(WithTerminal(MemberPlans(ev), txs, None));
            RecoverGroup(w, txs, ev, outcome).verdict == Done(pending, pending, [], [])
  {
    OneStateOnly(w.note, Dormant, Mastered);
  }

  lemma OneStateOnly(note: map<Channel, LifeState>, state: LifeState, other: LifeState)
    requires note.Keys != {} && ShowsOnly(note, state) && state != other
    ensures !ShowsOnly(note, other)
  {
    var c :| c in note.Keys;
    assert note[c] != other;
  }

  lemma AbortIsFound(w: World, ev: Evidence)
    requires Fold(w.log).Some? && ev.DormancyAgreed?
    ensures WithTerminal(MemberPlans(ev), Fold(w.log).value, Some(Abort)) != [] <==> MemberAborted(w, ev)
  {
    var txs, found := Fold(w.log).value, WithTerminal(MemberPlans(ev), Fold(w.log).value, Some(Abort));
    if found != [] {
      var p := found[0];
      assert p in found;
      MemberIsListed(ev, p);
      FoldMeaning(w.log, p.id);
      assert Logged(w.log, MemberId(ev, p.id.channel), Abort);
    }
    if c :| c in ev.entries && Logged(w.log, MemberId(ev, c), Abort) {
      FoldMeaning(w.log, MemberId(ev, c));
      MemberIsListed(ev, MemberPlan(ev, c));
      assert MemberPlan(ev, c) in found;
    }
  }

  lemma MembersAreDecided(w: World, ev: Evidence, now: int)
    requires Wired(w) && FreshDecision(w, now).Ok? && ev.DormancyAgreed? && ev.entries.Keys == w.note.Keys
    ensures FreshDecision(w, now).value.plans == MemberPlans(ev) <==> Together(w, now, ev)
  {
    var plans := FreshDecision(w, now).value.plans;
    FreshIsDecided(w, now);
    TogetherIsDue(w, now, ev);
    if plans == MemberPlans(ev) {
      var c :| c in w.note.Keys;
      MemberIsListed(ev, MemberPlan(ev, c));
      PlanIsWarranted(w, now, MemberPlan(ev, c));
    }
  }

  lemma MembersExactly(ev: Evidence)
    requires ev.DormancyAgreed?
    ensures ExactlyMembers(ev, IdsOf(MemberPlans(ev)))
  {
    forall id ensures id in IdsOf(MemberPlans(ev)) <==> id.channel in ev.entries && id == MemberId(ev, id.channel) {
      ListedById(MemberPlans(ev), id);
      if id.channel in ev.entries { MemberIsListed(ev, MemberPlan(ev, id.channel)); }
      if p :| p in MemberPlans(ev) && p.id == id { MemberIsListed(ev, p); }
    }
  }

  /** With no member committed or aborted, those that have records are those unfinished. */
  lemma RecordedAreUnfinished(w: World, ev: Evidence)
    requires InvAt(w, Group(ev))
    requires WithTerminal(MemberPlans(ev), ViewOf(w).txs, Some(Commit)) == []
    requires WithTerminal(MemberPlans(ev), ViewOf(w).txs, Some(Abort)) == []
    ensures ExactlyUnfinished(w, IdsOf(WithTransaction(MemberPlans(ev), ViewOf(w).txs)))
  {
    var plans, txs := MemberPlans(ev), ViewOf(w).txs;
    PendingAreUnfinished(w, ev);
    forall p | p in plans && p.id in txs ensures txs[p.id].terminal.None? {
      assert p !in WithTerminal(plans, txs, Some(Commit)) && p !in WithTerminal(plans, txs, Some(Abort));
      NeverPrepared(w, p.id);
      EveryTerminal(txs[p.id].terminal);
    }
    forall id ensures id in IdsOf(WithTransaction(plans, txs)) <==> Unfinished(w, id) {
      ListedById(WithTransaction(plans, txs), id);
      ListedById(WithTerminal(plans, txs, None), id);
    }
  }

  lemma NeverPrepared(w: World, id: TransitionId)
    requires Fold(w.log).Some? && id in Fold(w.log).value
    ensures Fold(w.log).value[id].terminal != Some(Prepare)
  {
    FoldMeaning(w.log, id);
  }

  lemma SourceSays(w: World, ev: Evidence, now: int)
    requires InvAt(w, Group(ev)) && ShowsOnly(w.note, Mastered) && ChannelsOf(MemberPlans(ev)) == Active(w)
    requires WithTerminal(MemberPlans(ev), ViewOf(w).txs, Some(Commit)) == []
    ensures var outcome := FreshDecision(w, now);
            GroupSays(w, ev, now, outcome, RecoverGroup(w, ViewOf(w).txs, ev, outcome).verdict)
  {
    var txs := ViewOf(w).txs;
    PendingAreUnfinished(w, ev);
    AbortIsFound(w, ev);
    MembersExactly(ev);
    if FreshDecision(w, now).Ok? {
      MembersAreDecided(w, ev, now);
      ListsAreCalledFor(w, now);
    }
    if WithTerminal(MemberPlans(ev), txs, Some(Abort)) == [] {
      RecordedAreUnfinished(w, ev);
    }
    SourceVerdictSays(w, txs, ev, now, FreshDecision(w, now));
  }

  lemma SourceVerdictSays(w: World, txs: Transactions, ev: Evidence, now: int, outcome: Result<Decided, Refusal>)
    requires Wired(w) && ev.DormancyAgreed? && ShowsOnly(w.note, Mastered) && ChannelsOf(MemberPlans(ev)) == Active(w)
    requires WithTerminal(MemberPlans(ev), txs, Some(Commit)) == []
    requires WithTerminal(MemberPlans(ev), txs, Some(Abort)) != [] <==> MemberAborted(w, ev)
    requires ExactlyUnfinished(w, IdsOf(WithTerminal(MemberPlans(ev), txs, None)))
    requires ExactlyMembers(ev, IdsOf(MemberPlans(ev)))
    requires !MemberAborted(w, ev) ==> ExactlyUnfinished(w, IdsOf(WithTransaction(MemberPlans(ev), txs)))
    requires outcome.Ok? ==>
               && (outcome.value.plans == MemberPlans(ev) <==> Together(w, now, ev))
               && forall c :: c in outcome.value.leechRescue <==> Leech(w, c)
    ensures GroupSays(w, ev, now, outcome, RecoverGroup(w, txs, ev, outcome).verdict)
  {
    OneStateOnly(w.note, Mastered, Dormant);
  }

  // -------------------------------------------------------------------------
  // Any call
  // -------------------------------------------------------------------------

  /** What a call says of the deployment it finds. */
  ghost predicate Says(w: World, stage: Stage, now: int, verdict: Verdict)
    requires Wired(w)
  {
    match stage
    case Idle => FreshSays(w, now, FreshDecision(w, now), verdict)
    case Single(p) => p.id.channel in w.note && RecoverySays(w, p, now, FreshDecision(w, now), verdict)
    case Group(ev) => ev.DormancyAgreed? && GroupSays(w, ev, now, FreshDecision(w, now), verdict)
  }

  lemma CallSays(w: World, stage: Stage, now: int)
    requires InvAt(w, stage) && w.clock <= now
    ensures Says(w, stage, now, Reconcile(w, now).verdict)
  {
    match stage
    case Idle => FreshDoes(w, now);
    case Single(p) => RecoveryDoes(w, p, now);
    case Group(ev) => GroupRecoveryDoes(w, ev, now);
  }
}
