/**
 * What every reachable deployment satisfies, and when each durable effect may
 * happen. The invariant is stated for a stage: no operation pending, one
 * channel's transition pending, or one dormancy group pending.
 */
module Safety {
  import opened Wrappers
  import opened Lifecycle
  import opened Journal
  import opened Observation
  import opened DecisionFacts
  import opened Protocol

  datatype Stage =
    | Idle
    | Single(plan: Plan)
    | Group(evidence: Evidence)

  /**
   * What matters of a deployment: the note, the committed chains and the transactions,
   * and whether reviews came in order so far.
   */
  datatype View = View(
    note: map<Channel, LifeState>,
    at: map<Channel, Position>,
    txs: Transactions,
    reviewsInOrder: bool)

  predicate Readable(w: World) {
    && Wired(w)
    && NoFuture(w.log, w.clock)
    && Fold(w.log).Some?
    && forall c :: c in w.note ==> Replay(w.log, c).Some?
  }

  function ViewOf(w: World): View
    requires Readable(w)
  {
    View(w.note, map c | c in w.note :: Replay(w.log, c).value, Fold(w.log).value, w.reviewsInOrder)
  }

  // -------------------------------------------------------------------------
  // The invariant
  // -------------------------------------------------------------------------

  /** A transaction's plan is ungrouped, or a member of a group over all channels. */
  predicate PlanShape(channels: set<Channel>, p: Plan) {
    && p.id.channel in channels
    && EdgeAllowed(p.id.from, p.id.to)
    && (p.group.None? <==> p.id.trigger != DormancyElapsed)
    && (p.group.Some? ==>
          && p.id.evidence.DormancyAgreed?
          && p.id.evidence.entries.Keys == channels
          && p == MemberPlan(p.id.evidence, p.id.channel))
  }

  predicate ShapesOk(channels: set<Channel>, txs: Transactions) {
    forall id :: id in txs ==>
      txs[id].plan.id == id && PlanShape(channels, txs[id].plan) && txs[id].terminal != Some(Prepare)
  }

  predicate MemberStands(txs: Transactions, ev: Evidence, c: Channel)
    requires ev.DormancyAgreed? && c in ev.entries
  {
    MemberId(ev, c) in txs && txs[MemberId(ev, c)].terminal != Some(Abort)
  }

  predicate EveryMemberStands(txs: Transactions, ev: Evidence)
    requires ev.DormancyAgreed?
  {
    forall c :: c in ev.entries ==> MemberStands(txs, ev, c)
  }

  predicate CommittedMember(txs: Transactions, id: TransitionId) {
    id in txs && txs[id].terminal == Some(Commit) && txs[id].plan.group.Some? && id.evidence.DormancyAgreed?
  }

  /** A group with a COMMIT has every member prepared and none aborted. */
  predicate GroupsWhole(txs: Transactions) {
    forall id :: id in txs && CommittedMember(txs, id) ==> EveryMemberStands(txs, id.evidence)
  }

  /** Only revocable evidence is ever given up. */
  predicate AbortsRevocable(txs: Transactions) {
    forall id :: id in txs && txs[id].terminal == Some(Abort) ==> !Irrevocable(txs[id].plan)
  }

  predicate Open(txs: Transactions, p: Plan) {
    p.id in txs && txs[p.id] == Transaction(p, None)
  }

  /** The note holds what the committed chain says. */
  predicate Agrees(v: View, c: Channel) {
    c in v.note && c in v.at && v.note[c] == v.at[c].state
  }

  predicate Settled(v: View) {
    && Pending(v.txs) == {}
    && forall c :: c in v.note ==> Agrees(v, c)
  }

  predicate SinglePending(v: View, p: Plan) {
    var c := p.id.channel;
    && Pending(v.txs) == {p.id}
    && Open(v.txs, p)
    && p.group.None?
    && c in v.note && c in v.at
    && Continues(v.at[c], p)
    && (v.note[c] == p.id.from || v.note[c] == p.id.to)
    && forall d :: d in v.note && d != c ==> Agrees(v, d)
  }

  predicate Member(ev: Evidence, id: TransitionId) {
    ev.DormancyAgreed? && id.channel in ev.entries && id == MemberId(ev, id.channel)
  }

  /** The chain of the channel is still where the group was to take it from. */
  predicate BeforeGroup(v: View, ev: Evidence, c: Channel) {
    && ev.DormancyAgreed? && c in ev.entries && c in v.at
    && v.at[c].state == Mastered && v.at[c].episode == ev.entries[c]
  }

  /** The member has not committed and its note shows the source. */
  predicate SourceMember(v: View, ev: Evidence, c: Channel) {
    && BeforeGroup(v, ev, c)
    && c in v.note && v.note[c] == Mastered
    && (MemberId(ev, c) in v.txs ==> v.txs[MemberId(ev, c)].terminal != Some(Commit))
  }

  /** The member is prepared, is not aborted, and its note shows the target. */
  predicate TargetMember(v: View, ev: Evidence, c: Channel) {
    && ev.DormancyAgreed? && c in ev.entries && c in v.at
    && c in v.note && v.note[c] == Dormant
    && MemberStands(v.txs, ev, c)
    && if v.txs[MemberId(ev, c)].terminal == Some(Commit) then v.at[c].state == Dormant else BeforeGroup(v, ev, c)
  }

  predicate AllAtSource(v: View, ev: Evidence) {
    forall c :: c in v.note ==> SourceMember(v, ev, c)
  }

  predicate AllAtTarget(v: View, ev: Evidence) {
    forall c :: c in v.note ==> TargetMember(v, ev, c)
  }

  predicate GroupPends(v: View, ev: Evidence) {
    && ev.DormancyAgreed? && ev.entries.Keys == v.note.Keys
    && Pending(v.txs) != {}
    && (forall id :: id in Pending(v.txs) ==> Member(ev, id))
    && (AllAtSource(v, ev) || AllAtTarget(v, ev))
  }

  predicate StageHolds(v: View, stage: Stage) {
    match stage
    case Idle => Settled(v)
    case Single(p) => SinglePending(v, p)
    case Group(ev) => GroupPends(v, ev)
  }

  predicate HistoryHolds(v: View) {
    && v.note.Keys == v.at.Keys && v.note.Keys != {}
    && ShapesOk(v.note.Keys, v.txs)
    && GroupsWhole(v.txs)
    && (v.reviewsInOrder ==> AbortsRevocable(v.txs))
  }

  predicate ViewHolds(v: View, stage: Stage) {
    HistoryHolds(v) && StageHolds(v, stage)
  }

  /** With reviews in order: while the note shows the source of irrevocable evidence, the stores show the evidence. */
  predicate EvidenceKept(w: World, stage: Stage) {
    w.reviewsInOrder && stage.Single? && Irrevocable(stage.plan)
    && stage.plan.id.channel in w.note && w.note[stage.plan.id.channel] == stage.plan.id.from ==>
      Shown(w, stage.plan)
  }

  predicate InvAt(w: World, stage: Stage) {
    Readable(w) && var v := ViewOf(w); ViewHolds(v, stage) && EvidenceKept(w, stage)
  }

  // -------------------------------------------------------------------------
  // When an effect may happen
  // -------------------------------------------------------------------------

  predicate AllIn(v: View, state: LifeState) {
    forall c :: c in v.note ==> v.note[c] == state
  }

  /** Every member's card is suspended. */
  predicate AllSuspended(w: World) {
    forall c :: c in w.cards ==> w.cards[c].suspended
  }

  /** The group is due and this member of it was never tried. */
  predicate MayJoin(v: View, stage: Stage, ev: Evidence) {
    && ev.DormancyAgreed? && ev.entries.Keys == v.note.Keys
    && match stage
       case Idle =>
         forall c :: c in v.note ==> BeforeGroup(v, ev, c) && MemberId(ev, c) !in v.txs
       case Single(_) => false
       case Group(pending) =>
         && pending == ev && AllIn(v, Mastered)
         && forall c :: c in v.note && MemberId(ev, c) in v.txs ==> v.txs[MemberId(ev, c)].terminal.None?
  }

  predicate MayPrepare(v: View, stage: Stage, p: Plan) {
    && p.id !in v.txs
    && PlanShape(v.note.Keys, p)
    && if p.group.None? then stage == Idle && p.id.channel in v.at && Continues(v.at[p.id.channel], p)
       else MayJoin(v, stage, p.id.evidence)
  }

  predicate MayCommit(v: View, stage: Stage, p: Plan) {
    && Open(v.txs, p)
    && match stage
       case Idle => false
       case Single(q) => q == p && p.id.channel in v.note && v.note[p.id.channel] == p.id.to
       case Group(ev) => AllIn(v, Dormant)
  }

  predicate MayAbort(v: View, stage: Stage, p: Plan) {
    && Open(v.txs, p)
    && match stage
       case Idle => false
       case Single(q) =>
         && q == p && p.id.channel in v.note && v.note[p.id.channel] == p.id.from
         && (v.reviewsInOrder ==> !Irrevocable(p))
       case Group(ev) => AllIn(v, Mastered)
  }

  predicate MaySetStates(v: View, stage: Stage, states: map<Channel, LifeState>) {
    match stage
    case Idle => false
    case Single(p) =>
      && states == map[p.id.channel := p.id.to]
      && p.id.channel in v.note && v.note[p.id.channel] == p.id.from
    case Group(ev) =>
      && AllIn(v, Mastered)
      && states.Keys == v.note.Keys && (forall c :: c in states ==> states[c] == Dormant)
      && ev.DormancyAgreed? && ev.entries.Keys == v.note.Keys
      && forall c :: c in v.note ==> Open(v.txs, MemberPlan(ev, c))
  }

  /** Cards are suspended only once the whole group shows the target. */
  predicate MaySuspend(v: View, stage: Stage) {
    stage.Group? && AllIn(v, Dormant)
  }

  predicate ViewAllows(v: View, stage: Stage, e: Effect) {
    match e
    case Append(p, Prepare) => MayPrepare(v, stage, p)
    case Append(p, Commit) => MayCommit(v, stage, p)
    case Append(p, Abort) => MayAbort(v, stage, p)
    case SetStates(states) => MaySetStates(v, stage, states)
    case SuspendCards(_) => MaySuspend(v, stage)
  }

  /** Group COMMITs also wait for the cards, and irrevocable evidence must be there to be prepared. */
  predicate Allowed(w: World, stage: Stage, e: Effect) {
    && Readable(w)
    && var v := ViewOf(w);
    && ViewAllows(v, stage, e)
    && (e.Append? && e.phase == Prepare && Irrevocable(e.plan) ==> Shown(w, e.plan))
    && (e.Append? && e.phase == Commit && stage.Group? ==> AllSuspended(w))
  }

  function ViewAfter(v: View, e: Effect, t: int): View {
    match e
    case Append(p, phase) =>
      v.(txs := v.txs[p.id := Transaction(p, if phase == Prepare then None else Some(phase))],
         at := if phase == Commit then v.at[p.id.channel := Arrived(p, t)] else v.at)
    case SetStates(states) => v.(note := v.note + states)
    case SuspendCards(_) => v
  }

  function StageAfter(v: View, stage: Stage, e: Effect): Stage {
    match e
    case Append(p, Prepare) => if p.group.None? then Single(p) else Group(p.id.evidence)
    case Append(p, _) => if Pending(v.txs) <= {p.id} then Idle else stage
    case _ => stage
  }

  // -------------------------------------------------------------------------
  // The history under one more record
  // -------------------------------------------------------------------------

  lemma StandsAfterPrepare(txs: Transactions, p: Plan, ev: Evidence)
    requires ev.DormancyAgreed? && EveryMemberStands(txs, ev) && p.id !in txs
    ensures EveryMemberStands(txs[p.id := Transaction(p, None)], ev)
  {
    forall c | c in ev.entries ensures MemberStands(txs[p.id := Transaction(p, None)], ev, c) {
      assert MemberStands(txs, ev, c);
    }
  }

  lemma WholeAfterPrepare(txs: Transactions, p: Plan)
    requires GroupsWhole(txs) && p.id !in txs
    ensures GroupsWhole(txs[p.id := Transaction(p, None)])
  {
    var txs' := txs[p.id := Transaction(p, None)];
    forall id | CommittedMember(txs', id) ensures EveryMemberStands(txs', id.evidence) {
      assert CommittedMember(txs, id);
      StandsAfterPrepare(txs, p, id.evidence);
    }
  }

  lemma StandsAfterCommit(txs: Transactions, p: Plan, ev: Evidence)
    requires ev.DormancyAgreed? && EveryMemberStands(txs, ev)
    ensures EveryMemberStands(txs[p.id := Transaction(p, Some(Commit))], ev)
  {
    forall c | c in ev.entries ensures MemberStands(txs[p.id := Transaction(p, Some(Commit))], ev, c) {
      assert MemberStands(txs, ev, c);
    }
  }

  lemma WholeAfterCommit(txs: Transactions, p: Plan)
    requires GroupsWhole(txs)
    requires p.group.Some? && p.id.evidence.DormancyAgreed? ==> EveryMemberStands(txs, p.id.evidence)
    ensures GroupsWhole(txs[p.id := Transaction(p, Some(Commit))])
  {
    var txs' := txs[p.id := Transaction(p, Some(Commit))];
    forall id | CommittedMember(txs', id) ensures EveryMemberStands(txs', id.evidence) {
      assert id == p.id || CommittedMember(txs, id);
      StandsAfterCommit(txs, p, id.evidence);
    }
  }

  lemma StandsAfterAbort(txs: Transactions, p: Plan, ev: Evidence)
    requires ev.DormancyAgreed? && EveryMemberStands(txs, ev) && !Member(ev, p.id)
    ensures EveryMemberStands(txs[p.id := Transaction(p, Some(Abort))], ev)
  {
    forall c | c in ev.entries ensures MemberStands(txs[p.id := Transaction(p, Some(Abort))], ev, c) {
      assert MemberStands(txs, ev, c);
      assert MemberId(ev, c) != p.id by {
        assert MemberId(ev, c).channel == c;
      }
    }
  }

  lemma WholeAfterAbort(txs: Transactions, p: Plan)
    requires GroupsWhole(txs)
    requires forall id :: id in txs && CommittedMember(txs, id) ==> !Member(id.evidence, p.id)
    ensures GroupsWhole(txs[p.id := Transaction(p, Some(Abort))])
  {
    var txs' := txs[p.id := Transaction(p, Some(Abort))];
    forall id | CommittedMember(txs', id) ensures EveryMemberStands(txs', id.evidence) {
      assert CommittedMember(txs, id);
      StandsAfterAbort(txs, p, id.evidence);
    }
  }

  /** While a group shows the source, no COMMIT belongs to a group with its evidence. */
  lemma NoCommitAtSource(v: View, ev: Evidence, id: TransitionId)
    requires HistoryHolds(v) && AllAtSource(v, ev) && ev.DormancyAgreed?
    requires CommittedMember(v.txs, id)
    ensures id.evidence != ev
  {
    assert PlanShape(v.note.Keys, v.txs[id].plan);
    assert SourceMember(v, ev, id.channel);
  }

  lemma HistoryAfterAppend(v: View, p: Plan, phase: Phase, t: int)
    requires HistoryHolds(v) && PlanShape(v.note.Keys, p)
    requires GroupsWhole(ViewAfter(v, Append(p, phase), t).txs)
    requires phase == Abort && v.reviewsInOrder ==> !Irrevocable(p)
    ensures HistoryHolds(ViewAfter(v, Append(p, phase), t))
  {
    ShapesAfterAppend(v, p, phase, t);
    if v.reviewsInOrder {
      AbortsAfterAppend(v, p, phase, t);
    }
  }

  lemma ShapesAfterAppend(v: View, p: Plan, phase: Phase, t: int)
    requires ShapesOk(v.note.Keys, v.txs) && PlanShape(v.note.Keys, p)
    ensures ShapesOk(v.note.Keys, ViewAfter(v, Append(p, phase), t).txs)
  {
  }

  lemma AbortsAfterAppend(v: View, p: Plan, phase: Phase, t: int)
    requires AbortsRevocable(v.txs) && (phase == Abort ==> !Irrevocable(p))
    ensures AbortsRevocable(ViewAfter(v, Append(p, phase), t).txs)
  {
  }

  // -------------------------------------------------------------------------
  // Allowed effects keep the stage
  // -------------------------------------------------------------------------

  lemma PendingAfter(v: View, p: Plan, phase: Phase, t: int)
    ensures var pending := Pending(ViewAfter(v, Append(p, phase), t).txs);
            pending == if phase == Prepare then Pending(v.txs) + {p.id} else Pending(v.txs) - {p.id}
  {
  }

  lemma PrepareSingle(v: View, p: Plan, t: int)
    requires ViewHolds(v, Idle) && MayPrepare(v, Idle, p) && p.group.None?
    ensures StageHolds(ViewAfter(v, Append(p, Prepare), t), Single(p))
  {
    PendingAfter(v, p, Prepare, t);
    var v' := ViewAfter(v, Append(p, Prepare), t);
    forall d | d in v'.note ensures Agrees(v', d) {
      assert Agrees(v, d);
    }
  }

  lemma SourceUnlessCommitted(v: View, ev: Evidence, p: Plan, phase: Phase, t: int, c: Channel)
    requires SourceMember(v, ev, c) && phase != Commit
    ensures SourceMember(ViewAfter(v, Append(p, phase), t), ev, c)
  {
  }

  /** A pending group whose note shows the source is entirely at the source. */
  lemma SourceOf(v: View, ev: Evidence)
    requires GroupPends(v, ev) && AllIn(v, Mastered) && v.note.Keys != {}
    ensures AllAtSource(v, ev)
  {
    var c :| c in v.note.Keys;
    assert !TargetMember(v, ev, c);
  }

  lemma TargetOf(v: View, ev: Evidence)
    requires GroupPends(v, ev) && AllIn(v, Dormant) && v.note.Keys != {}
    ensures AllAtTarget(v, ev)
  {
    var c :| c in v.note.Keys;
    assert !SourceMember(v, ev, c);
  }

  lemma JoinsSource(v: View, stage: Stage, ev: Evidence)
    requires ViewHolds(v, stage) && MayJoin(v, stage, ev)
    ensures AllAtSource(v, ev)
    ensures forall id :: id in Pending(v.txs) ==> Member(ev, id)
  {
    if stage.Group? {
      SourceOf(v, ev);
    } else {
      forall c | c in v.note ensures SourceMember(v, ev, c) {
        assert Agrees(v, c) && BeforeGroup(v, ev, c);
      }
    }
  }

  lemma PrepareMember(v: View, ev: Evidence, p: Plan, t: int)
    requires AllAtSource(v, ev) && ev.DormancyAgreed? && ev.entries.Keys == v.note.Keys
    requires forall id :: id in Pending(v.txs) ==> Member(ev, id)
    requires Member(ev, p.id)
    ensures StageHolds(ViewAfter(v, Append(p, Prepare), t), Group(ev))
  {
    var v' := ViewAfter(v, Append(p, Prepare), t);
    PendingAfter(v, p, Prepare, t);
    forall c | c in v'.note ensures SourceMember(v', ev, c) {
      SourceUnlessCommitted(v, ev, p, Prepare, t, c);
    }
    GroupPendsAtSource(v', ev, Pending(v.txs) + {p.id});
  }

  lemma GroupPendsAtSource(v: View, ev: Evidence, pending: set<TransitionId>)
    requires ev.DormancyAgreed? && ev.entries.Keys == v.note.Keys
    requires Pending(v.txs) == pending && pending != {} && forall id :: id in pending ==> Member(ev, id)
    requires AllAtSource(v, ev)
    ensures StageHolds(v, Group(ev))
  {
  }

  lemma SettleSingle(v: View, p: Plan, phase: Phase, t: int)
    requires SinglePending(v, p) && phase != Prepare
    requires v.note[p.id.channel] == if phase == Commit then p.id.to else p.id.from
    ensures StageHolds(ViewAfter(v, Append(p, phase), t), StageAfter(v, Single(p), Append(p, phase)))
  {
    PendingAfter(v, p, phase, t);
    var v' := ViewAfter(v, Append(p, phase), t);
    forall d | d in v'.note ensures Agrees(v', d) {
      assert d != p.id.channel ==> Agrees(v, d);
    }
  }

  lemma OpenMember(v: View, ev: Evidence, p: Plan)
    requires HistoryHolds(v) && GroupPends(v, ev) && Open(v.txs, p)
    ensures PlanShape(v.note.Keys, p) && p.group.Some? && p.id.evidence == ev && p.id == MemberId(ev, p.id.channel)
  {
    assert p.id in Pending(v.txs);
    assert Member(ev, p.id);
    assert PlanShape(v.note.Keys, v.txs[p.id].plan);
  }

  lemma AbortMember(v: View, ev: Evidence, p: Plan, t: int)
    requires GroupPends(v, ev) && v.note.Keys != {} && AllIn(v, Mastered)
    ensures StageHolds(ViewAfter(v, Append(p, Abort), t), StageAfter(v, Group(ev), Append(p, Abort)))
  {
    SourceOf(v, ev);
    PendingAfter(v, p, Abort, t);
    var v' := ViewAfter(v, Append(p, Abort), t);
    forall c | c in v'.note ensures SourceMember(v', ev, c) {
      SourceUnlessCommitted(v, ev, p, Abort, t, c);
    }
    forall c | c in v'.note ensures Agrees(v', c) {
      assert SourceMember(v', ev, c);
    }
  }

  lemma TargetAfterCommit(v: View, ev: Evidence, p: Plan, t: int, c: Channel)
    requires TargetMember(v, ev, c) && Member(ev, p.id)
    ensures TargetMember(ViewAfter(v, Append(p, Commit), t), ev, c)
  {
    assert MemberId(ev, c) == p.id <==> c == p.id.channel;
  }

  lemma NotPending(txs: Transactions, id: TransitionId)
    requires id in txs && id !in Pending(txs)
    ensures txs[id].terminal.Some?
  {
  }

  lemma TargetSettles(v: View, ev: Evidence, c: Channel)
    requires TargetMember(v, ev, c)
    requires v.txs[MemberId(ev, c)].terminal.Some? && v.txs[MemberId(ev, c)].terminal != Some(Prepare)
    ensures Agrees(v, c)
  {
    var phase := v.txs[MemberId(ev, c)].terminal.value;
    assert phase.Commit? || phase.Abort?;
  }

  lemma CommitMember(v: View, ev: Evidence, p: Plan, t: int)
    requires GroupPends(v, ev) && v.note.Keys != {} && AllIn(v, Dormant) && Member(ev, p.id)
    requires forall id :: id in v.txs ==> v.txs[id].terminal != Some(Prepare)
    ensures StageHolds(ViewAfter(v, Append(p, Commit), t), StageAfter(v, Group(ev), Append(p, Commit)))
  {
    TargetOf(v, ev);
    TargetMembersAfterCommit(v, ev, p, t);
    PendingMembersAfterCommit(v, ev, p, t);
    TargetStage(ViewAfter(v, Append(p, Commit), t), ev);
  }

  lemma PendingMembersAfterCommit(v: View, ev: Evidence, p: Plan, t: int)
    requires forall id :: id in Pending(v.txs) ==> Member(ev, id)
    ensures var pending := Pending(ViewAfter(v, Append(p, Commit), t).txs);
            (pending == {} <==> Pending(v.txs) <= {p.id}) && forall id :: id in pending ==> Member(ev, id)
  {
    PendingAfter(v, p, Commit, t);
  }

  lemma TargetMembersAfterCommit(v: View, ev: Evidence, p: Plan, t: int)
    requires AllAtTarget(v, ev) && Member(ev, p.id)
    requires forall id :: id in v.txs ==> v.txs[id].terminal != Some(Prepare)
    ensures AllAtTarget(ViewAfter(v, Append(p, Commit), t), ev)
    ensures var txs := ViewAfter(v, Append(p, Commit), t).txs;
            forall id :: id in txs ==> txs[id].terminal != Some(Prepare)
  {
    var v' := ViewAfter(v, Append(p, Commit), t);
    forall c | c in v'.note ensures TargetMember(v', ev, c) {
      assert TargetMember(v, ev, c);
      TargetAfterCommit(v, ev, p, t, c);
    }
  }

  /** Once no member is pending, a group at the target has settled. */
  lemma TargetStage(v: View, ev: Evidence)
    requires AllAtTarget(v, ev) && ev.DormancyAgreed? && ev.entries.Keys == v.note.Keys
    requires forall id :: id in Pending(v.txs) ==> Member(ev, id)
    requires forall id :: id in v.txs ==> v.txs[id].terminal != Some(Prepare)
    ensures StageHolds(v, if Pending(v.txs) == {} then Idle else Group(ev))
  {
    if Pending(v.txs) == {} {
      forall c | c in v.note ensures Agrees(v, c) {
        assert TargetMember(v, ev, c);
        NotPending(v.txs, MemberId(ev, c));
        TargetSettles(v, ev, c);
      }
    }
  }

  lemma TargetUnderStates(v: View, states: map<Channel, LifeState>, ev: Evidence, t: int)
    requires AllAtSource(v, ev) && MaySetStates(v, Group(ev), states)
    ensures AllAtTarget(ViewAfter(v, SetStates(states), t), ev)
  {
    var v' := ViewAfter(v, SetStates(states), t);
    forall c | c in v'.note ensures TargetMember(v', ev, c) {
      assert c in v.note && SourceMember(v, ev, c) && Open(v.txs, MemberPlan(ev, c));
    }
  }

  lemma StatesKeepGroup(v: View, states: map<Channel, LifeState>, ev: Evidence, t: int)
    requires GroupPends(v, ev) && v.note.Keys != {} && MaySetStates(v, Group(ev), states)
    ensures GroupPends(ViewAfter(v, SetStates(states), t), ev)
  {
    SourceOf(v, ev);
    TargetUnderStates(v, states, ev, t);
    NoteKeepsChannels(v, states, t);
    StillPends(v, ViewAfter(v, SetStates(states), t), ev);
  }

  lemma NoteKeepsChannels(v: View, states: map<Channel, LifeState>, t: int)
    requires states.Keys <= v.note.Keys
    ensures var v' := ViewAfter(v, SetStates(states), t); v'.note.Keys == v.note.Keys && v'.txs == v.txs
  {
  }

  lemma StillPends(v: View, v': View, ev: Evidence)
    requires GroupPends(v, ev) && v'.txs == v.txs && v'.note.Keys == v.note.Keys && AllAtTarget(v', ev)
    ensures GroupPends(v', ev)
  {
  }

  lemma StatesKeepSingle(v: View, states: map<Channel, LifeState>, p: Plan, t: int)
    requires SinglePending(v, p) && MaySetStates(v, Single(p), states)
    ensures StageHolds(ViewAfter(v, SetStates(states), t), Single(p))
  {
    var v' := ViewAfter(v, SetStates(states), t);
    forall d | d in v'.note && d != p.id.channel ensures Agrees(v', d) {
      assert Agrees(v, d);
    }
  }

  lemma StatesKeepHistory(v: View, stage: Stage, states: map<Channel, LifeState>, t: int)
    requires HistoryHolds(v) && MaySetStates(v, stage, states)
    ensures HistoryHolds(ViewAfter(v, SetStates(states), t))
  {
    assert ViewAfter(v, SetStates(states), t).note.Keys == v.note.Keys;
  }

  lemma PrepareKeeps(v: View, stage: Stage, p: Plan, t: int)
    requires ViewHolds(v, stage) && MayPrepare(v, stage, p)
    ensures ViewHolds(ViewAfter(v, Append(p, Prepare), t), StageAfter(v, stage, Append(p, Prepare)))
  {
    WholeAfterPrepare(v.txs, p);
    HistoryAfterAppend(v, p, Prepare, t);
    if p.group.None? {
      PrepareSingle(v, p, t);
    } else {
      JoinsSource(v, stage, p.id.evidence);
      PrepareMember(v, p.id.evidence, p, t);
    }
  }

  lemma CommitKeeps(v: View, stage: Stage, p: Plan, t: int)
    requires ViewHolds(v, stage) && MayCommit(v, stage, p)
    ensures ViewHolds(ViewAfter(v, Append(p, Commit), t), StageAfter(v, stage, Append(p, Commit)))
  {
    assert PlanShape(v.note.Keys, v.txs[p.id].plan);
    if stage.Single? {
      WholeAfterCommit(v.txs, p);
      SettleSingle(v, p, Commit, t);
    } else {
      CommitKeepsGroup(v, stage.evidence, p, t);
    }
    HistoryAfterAppend(v, p, Commit, t);
  }

  lemma CommitKeepsGroup(v: View, ev: Evidence, p: Plan, t: int)
    requires ViewHolds(v, Group(ev)) && MayCommit(v, Group(ev), p)
    ensures GroupsWhole(ViewAfter(v, Append(p, Commit), t).txs)
    ensures StageHolds(ViewAfter(v, Append(p, Commit), t), StageAfter(v, Group(ev), Append(p, Commit)))
  {
    OpenMember(v, ev, p);
    CommitKeepsWhole(v, ev, p, t);
    CommitMember(v, ev, p, t);
  }

  lemma CommitKeepsWhole(v: View, ev: Evidence, p: Plan, t: int)
    requires GroupPends(v, ev) && v.note.Keys != {} && AllIn(v, Dormant) && GroupsWhole(v.txs)
    requires p.id.evidence == ev
    ensures GroupsWhole(ViewAfter(v, Append(p, Commit), t).txs)
  {
    TargetOf(v, ev);
    TargetsStand(v, ev);
    WholeAfterCommit(v.txs, p);
  }

  lemma TargetsStand(v: View, ev: Evidence)
    requires AllAtTarget(v, ev) && ev.DormancyAgreed? && ev.entries.Keys == v.note.Keys
    ensures EveryMemberStands(v.txs, ev)
  {
    forall c | c in ev.entries ensures MemberStands(v.txs, ev, c) {
      assert TargetMember(v, ev, c);
    }
  }

  lemma AbortKeeps(v: View, stage: Stage, p: Plan, t: int)
    requires ViewHolds(v, stage) && MayAbort(v, stage, p)
    ensures ViewHolds(ViewAfter(v, Append(p, Abort), t), StageAfter(v, stage, Append(p, Abort)))
  {
    assert PlanShape(v.note.Keys, v.txs[p.id].plan);
    if stage.Single? {
      forall id | id in v.txs && CommittedMember(v.txs, id) ensures !Member(id.evidence, p.id) {
      }
      WholeAfterAbort(v.txs, p);
      SettleSingle(v, p, Abort, t);
    } else {
      AbortKeepsGroup(v, stage.evidence, p, t);
    }
    HistoryAfterAppend(v, p, Abort, t);
  }

  lemma AbortKeepsGroup(v: View, ev: Evidence, p: Plan, t: int)
    requires ViewHolds(v, Group(ev)) && MayAbort(v, Group(ev), p)
    ensures GroupsWhole(ViewAfter(v, Append(p, Abort), t).txs) && !Irrevocable(p)
    ensures StageHolds(ViewAfter(v, Append(p, Abort), t), StageAfter(v, Group(ev), Append(p, Abort)))
  {
    OpenMember(v, ev, p);
    AbortKeepsWhole(v, ev, p, t);
    AbortMember(v, ev, p, t);
  }

  lemma AbortKeepsWhole(v: View, ev: Evidence, p: Plan, t: int)
    requires HistoryHolds(v) && GroupPends(v, ev) && AllIn(v, Mastered) && p.id.evidence == ev
    ensures GroupsWhole(ViewAfter(v, Append(p, Abort), t).txs)
  {
    SourceOf(v, ev);
    forall id | id in v.txs && CommittedMember(v.txs, id) ensures !Member(id.evidence, p.id) {
      NoCommitAtSource(v, ev, id);
    }
    WholeAfterAbort(v.txs, p);
  }

  lemma StatesKeep(v: View, stage: Stage, states: map<Channel, LifeState>, t: int)
    requires ViewHolds(v, stage) && MaySetStates(v, stage, states)
    ensures ViewHolds(ViewAfter(v, SetStates(states), t), stage)
  {
    StatesKeepHistory(v, stage, states, t);
    match stage
    case Single(p) => StatesKeepSingle(v, states, p, t);
    case Group(ev) => StatesKeepGroup(v, states, ev, t);
  }

  /** Every effect allowed by the view leaves a view in which the next stage holds. */
  lemma AllowedKeepsView(v: View, stage: Stage, e: Effect, t: int)
    requires ViewHolds(v, stage) && ViewAllows(v, stage, e)
    ensures ViewHolds(ViewAfter(v, e, t), StageAfter(v, stage, e))
  {
    match e
    case Append(p, Prepare) => PrepareKeeps(v, stage, p, t);
    case Append(p, Commit) => CommitKeeps(v, stage, p, t);
    case Append(p, Abort) => AbortKeeps(v, stage, p, t);
    case SetStates(states) => StatesKeep(v, stage, states, t);
    case SuspendCards(_) =>
  }

  // -------------------------------------------------------------------------
  // The stores follow the view
  // -------------------------------------------------------------------------

  /** A record the journal accepts where the chain stands. */
  predicate Acceptable(v: View, p: Plan, phase: Phase) {
    && p.id.channel in v.at
    && EdgeAllowed(p.id.from, p.id.to)
    && (phase == Prepare ==> p.id !in v.txs)
    && (phase != Prepare ==> Open(v.txs, p))
    && (phase == Commit ==> Continues(v.at[p.id.channel], p))
  }

  lemma ChainAfterAppend(w: World, p: Plan, phase: Phase, t: int, c: Channel)
    requires Readable(w) && c in w.note && Acceptable(ViewOf(w), p, phase)
    ensures Replay(w.log + [StateEntry(p, phase, t)], c) ==
            if phase == Commit && c == p.id.channel then Some(Arrived(p, t)) else Replay(w.log, c)
  {
    ReplayAppends(w.log, StateEntry(p, phase, t), c);
  }

  lemma AppendReads(w: World, p: Plan, phase: Phase, t: int)
    requires Readable(w) && w.clock <= t && Acceptable(ViewOf(w), p, phase)
    ensures Readable(Apply(w, Append(p, phase), t))
    ensures ViewOf(Apply(w, Append(p, phase), t)) == ViewAfter(ViewOf(w), Append(p, phase), t)
  {
    var w' := Apply(w, Append(p, phase), t);
    FoldAppends(w.log, StateEntry(p, phase, t));
    forall c | c in w.note
      ensures Replay(w'.log, c) ==
              if phase == Commit && c == p.id.channel then Some(Arrived(p, t)) else Replay(w.log, c)
    {
      ChainAfterAppend(w, p, phase, t, c);
    }
    AppendKeepsOrder(w, p, phase, t);
    assert ViewOf(w').at == ViewAfter(ViewOf(w), Append(p, phase), t).at;
  }

  lemma AppendKeepsOrder(w: World, p: Plan, phase: Phase, t: int)
    requires NoFuture(w.log, w.clock) && w.clock <= t
    ensures NoFuture(Apply(w, Append(p, phase), t).log, t)
  {
  }

  lemma SameLogReads(w: World, w': World)
    requires Readable(w) && w'.log == w.log && w.clock <= w'.clock
    requires w'.note.Keys == w.note.Keys && w'.cards.Keys == w.cards.Keys && w'.reviews.Keys == w.reviews.Keys
    ensures Readable(w') && ViewOf(w') == ViewOf(w).(note := w'.note, reviewsInOrder := w'.reviewsInOrder)
  {
    assert ViewOf(w').at == ViewOf(w).at;
  }

  lemma AllowedIsAcceptable(v: View, stage: Stage, p: Plan, phase: Phase)
    requires ViewHolds(v, stage) && ViewAllows(v, stage, Append(p, phase))
    ensures Acceptable(v, p, phase)
  {
    if phase != Prepare {
      assert PlanShape(v.note.Keys, v.txs[p.id].plan);
      if phase == Commit && stage.Group? {
        OpenMember(v, stage.evidence, p);
        TargetOf(v, stage.evidence);
        assert TargetMember(v, stage.evidence, p.id.channel);
      }
    }
  }

  lemma StatesKeepChannels(v: View, stage: Stage, states: map<Channel, LifeState>)
    requires MaySetStates(v, stage, states)
    ensures (v.note + states).Keys == v.note.Keys
  {
  }

  lemma EffectReads(w: World, stage: Stage, e: Effect, t: int)
    requires Readable(w) && ViewHolds(ViewOf(w), stage) && ViewAllows(ViewOf(w), stage, e) && w.clock <= t
    ensures Readable(Apply(w, e, t)) && ViewOf(Apply(w, e, t)) == ViewAfter(ViewOf(w), e, t)
  {
    match e
    case Append(p, phase) =>
      AllowedIsAcceptable(ViewOf(w), stage, p, phase);
      AppendReads(w, p, phase, t);
    case SetStates(states) =>
      StatesKeepChannels(ViewOf(w), stage, states);
      SameLogReads(w, Apply(w, e, t));
    case SuspendCards(cards) =>
      assert Apply(w, e, t).cards.Keys == w.cards.Keys;
      SameLogReads(w, Apply(w, e, t));
  }

  lemma ShownKept(w: World, w': World, p: Plan)
    requires Shown(w, p) && w'.reviews == w.reviews
    requires Replay(w'.log, p.id.channel) == Replay(w.log, p.id.channel)
    requires AssessmentsOf(w'.log, p.id.channel) == AssessmentsOf(w.log, p.id.channel)
    ensures Shown(w', p)
  {
  }

  lemma PreparedEvidenceShown(w: World, p: Plan, t: int)
    requires Readable(w) && Acceptable(ViewOf(w), p, Prepare) && Shown(w, p)
    ensures Shown(Apply(w, Append(p, Prepare), t), p)
  {
    AssessmentsOfAppends(w.log, StateEntry(p, Prepare, t), p.id.channel);
    ChainAfterAppend(w, p, Prepare, t, p.id.channel);
    ShownKept(w, Apply(w, Append(p, Prepare), t), p);
  }

  lemma NoSingleAfterTerminal(v: View, stage: Stage, p: Plan, phase: Phase)
    requires StageHolds(v, stage) && ViewAllows(v, stage, Append(p, phase)) && phase != Prepare
    ensures !StageAfter(v, stage, Append(p, phase)).Single?
  {
  }

  lemma EvidenceKeptBy(w: World, stage: Stage, e: Effect, t: int)
    requires Readable(w) && ViewHolds(ViewOf(w), stage) && ViewAllows(ViewOf(w), stage, e)
    requires w.reviewsInOrder && e.Append? && e.phase == Prepare && Irrevocable(e.plan) ==> Shown(w, e.plan)
    ensures EvidenceKept(Apply(w, e, t), StageAfter(ViewOf(w), stage, e))
  {
    match e
    case Append(p, phase) =>
      if phase != Prepare {
        NoSingleAfterTerminal(ViewOf(w), stage, p, phase);
      } else if w.reviewsInOrder && Irrevocable(p) {
        AllowedIsAcceptable(ViewOf(w), stage, p, Prepare);
        PreparedEvidenceShown(w, p, t);
      }
    case SetStates(states) => EdgesMove(ViewOf(w), stage);
    case SuspendCards(_) =>
  }

  lemma EdgesMove(v: View, stage: Stage)
    requires ViewHolds(v, stage)
    ensures stage.Single? ==> stage.plan.id.from != stage.plan.id.to
  {
    if stage.Single? {
      assert PlanShape(v.note.Keys, v.txs[stage.plan.id].plan);
    }
  }

  /** Every allowed effect leads from one invariant to the next. */
  lemma AllowedKeepsInvariant(w: World, stage: Stage, e: Effect, t: int)
    requires InvAt(w, stage) && Allowed(w, stage, e) && w.clock <= t
    ensures InvAt(Apply(w, e, t), StageAfter(ViewOf(w), stage, e))
  {
    EffectReads(w, stage, e, t);
    AllowedKeepsView(ViewOf(w), stage, e, t);
    EvidenceKeptBy(w, stage, e, t);
  }

  // -------------------------------------------------------------------------
  // Walking through a program
  // -------------------------------------------------------------------------

  /** The stage after the reached effects, if each was allowed where it happened. */
  function Walk(w: World, stage: Stage, es: seq<Effect>, ts: seq<int>): Option<Stage>
    requires |ts| <= |es|
    decreases |ts|
  {
    if ts == [] then Some(stage)
    else if !Allowed(w, stage, es[0]) || ts[0] < w.clock then None
    else Walk(Apply(w, es[0], ts[0]), StageAfter(ViewOf(w), stage, es[0]), es[1..], ts[1..])
  }

  lemma {:induction false} WalkKeepsInvariant(w: World, stage: Stage, es: seq<Effect>, ts: seq<int>)
    requires |ts| <= |es| && InvAt(w, stage) && Walk(w, stage, es, ts).Some?
    ensures InvAt(Exec(w, es, ts), Walk(w, stage, es, ts).value)
    decreases |ts|
  {
    if ts != [] {
      AllowedKeepsInvariant(w, stage, es[0], ts[0]);
      WalkKeepsInvariant(Apply(w, es[0], ts[0]), StageAfter(ViewOf(w), stage, es[0]), es[1..], ts[1..]);
    }
  }
}
