/**
 * The program of a reconcile call, in every stage: what it finds in the journal,
 * what it plans, and that all of it may be walked.
 */
module Recovery {
  import opened Wrappers
  import opened Lifecycle
  import opened Journal
  import opened Observation
  import opened Decision
  import opened DecisionFacts
  import opened Protocol
  import opened Safety
  import opened Runs
  import opened GroupRuns

  // -------------------------------------------------------------------------
  // The journal tells the stage
  // -------------------------------------------------------------------------

  /** A group's name gives its evidence away. */
  lemma GroupNamesEvidence(ev: Evidence, ev': Evidence)
    requires ev.DormancyAgreed? && ev'.DormancyAgreed? && ev.entries.Keys != {}
    requires MemberGroup(ev) == MemberGroup(ev')
    ensures ev == ev'
  {
    var c :| c in ev.entries.Keys;
    var cs, cs' := InOrder(ev.entries.Keys), InOrder(ev'.entries.Keys);
    assert c in cs;
    assert MemberGroup(ev).members[0] == MemberId(ev, cs[0]);
    assert MemberGroup(ev').members[0] == MemberId(ev', cs'[0]);
  }

  lemma SameGroupSameEvidence(channels: set<Channel>, txs: Transactions, i: TransitionId, j: TransitionId)
    requires ShapesOk(channels, txs) && i in txs && j in txs && channels != {}
    requires txs[i].plan.group.Some? && txs[i].plan.group == txs[j].plan.group
    ensures i.evidence == j.evidence && i.evidence.DormancyAgreed? && i.evidence.entries.Keys == channels
    ensures i == MemberId(i.evidence, i.channel) && j == MemberId(i.evidence, j.channel)
  {
    assert PlanShape(channels, txs[i].plan) && PlanShape(channels, txs[j].plan);
    GroupNamesEvidence(i.evidence, j.evidence);
  }

  lemma NeverMixed(v: View)
    requires HistoryHolds(v)
    ensures !Mixed(v.txs)
  {
    forall i, j | i in v.txs && j in v.txs && v.txs[i].plan.group.Some? && v.txs[i].plan.group == v.txs[j].plan.group
                  && v.txs[i].terminal == Some(Commit)
      ensures v.txs[j].terminal != Some(Abort)
    {
      SameGroupSameEvidence(v.note.Keys, v.txs, i, j);
      assert CommittedMember(v.txs, i);
      assert MemberStands(v.txs, i.evidence, j.channel);
    }
  }

  lemma PendingDescribes(v: View, ev: Evidence, id: TransitionId)
    requires HistoryHolds(v) && GroupPends(v, ev) && id in Pending(v.txs)
    ensures v.txs[id].plan.group == Some(MemberGroup(ev)) && id.evidence == ev
    ensures Describes(ev, MemberGroup(ev), v.txs)
  {
    assert Member(ev, id) && PlanShape(v.note.Keys, v.txs[id].plan);
    forall j | j in v.txs && v.txs[j].plan.group == Some(MemberGroup(ev))
      ensures j.channel in ev.entries && v.txs[j].plan == MemberPlan(ev, j.channel)
    {
      SameGroupSameEvidence(v.note.Keys, v.txs, id, j);
      assert PlanShape(v.note.Keys, v.txs[j].plan);
    }
  }

  function WorkAt(stage: Stage): Work {
    match stage
    case Idle => NothingPending
    case Single(p) => OnePending(p)
    case Group(ev) => GroupPending(ev)
  }

  lemma SingleWork(v: View, p: Plan)
    requires SinglePending(v, p) && !Mixed(v.txs)
    ensures WorkOf(v.txs) == OnePending(p)
  {
    assert p.id in Pending(v.txs);
  }

  lemma GroupWork(v: View, ev: Evidence)
    requires Pending(v.txs) != {} && !Mixed(v.txs)
    requires ev.DormancyAgreed? && Describes(ev, MemberGroup(ev), v.txs)
    requires forall id :: id in Pending(v.txs) ==> v.txs[id].plan.group == Some(MemberGroup(ev)) && id.evidence == ev
    ensures WorkOf(v.txs) == GroupPending(ev)
  {
  }

  /** What the journal says has to be finished is exactly what is pending. */
  lemma WorkIsStage(v: View, stage: Stage)
    requires ViewHolds(v, stage)
    ensures WorkOf(v.txs) == WorkAt(stage)
  {
    NeverMixed(v);
    match stage
    case Idle =>
    case Single(p) => SingleWork(v, p);
    case Group(ev) =>
      forall id | id in Pending(v.txs)
        ensures v.txs[id].plan.group == Some(MemberGroup(ev)) && id.evidence == ev
        ensures Describes(ev, MemberGroup(ev), v.txs)
      {
        PendingDescribes(v, ev, id);
      }
      GroupWork(v, ev);
  }

  // -------------------------------------------------------------------------
  // Fresh decisions
  // -------------------------------------------------------------------------

  lemma FreshIsDecided(w: World, now: int)
    requires Wired(w) && FreshDecision(w, now).Ok?
    ensures Observe(w, now).Ok? && Decide(Observe(w, now).value, now) == FreshDecision(w, now)
    ensures var progress := Observe(w, now).value;
            && Collect(ChoicesOf(progress, now), InOrder(progress.channels.Keys)).Ok?
            && FreshDecision(w, now).value == Settle(progress, Planned(progress, now), now)
  {
  }

  lemma ChannelRefusals(progress: UnitProgress, now: int)
    ensures forall c :: c in ChoicesOf(progress, now) && ChoicesOf(progress, now)[c].Err? ==>
                          ChoicesOf(progress, now)[c].error == DuplicateAssessmentId
  {
  }

  lemma DecideRefusals(progress: UnitProgress, now: int)
    requires DecisionInputOk(progress, now) && Decide(progress, now).Err?
    ensures Decide(progress, now).error == DuplicateAssessmentId
  {
    ChannelRefusals(progress, now);
    CollectRefusals(ChoicesOf(progress, now), InOrder(progress.channels.Keys));
  }

  /** Observation and decision together never produce what either validator refuses. */
  lemma FreshRefusals(w: World, now: int)
    requires Wired(w) && FreshDecision(w, now).Err?
    ensures Observe(w, now).Err? ==> FreshDecision(w, now).error == Observe(w, now).error
    ensures Observe(w, now).Ok? ==> FreshDecision(w, now).error == DuplicateAssessmentId
  {
    if Observe(w, now).Ok? {
      ObservedInputIsValid(w, now);
      if Decide(Observe(w, now).value, now).Ok? {
        DecisionsMaterialize(Observe(w, now).value, now);
      } else {
        DecideRefusals(Observe(w, now).value, now);
      }
    }
  }

  lemma {:induction false} CollectRefusals(choices: Choices, cs: seq<Channel>)
    requires forall c :: c in cs ==> c in choices
    requires forall c :: c in cs && choices[c].Err? ==> choices[c].error == DuplicateAssessmentId
    ensures Collect(choices, cs).Err? ==> Collect(choices, cs).error == DuplicateAssessmentId
  {
    if cs != [] {
      CollectRefusals(choices, cs[1..]);
    }
  }

  /** When every channel can decide, the unit can. */
  lemma AllOkDecides(w: World, now: int)
    requires Wired(w) && Observe(w, now).Ok?
    requires forall d :: d in w.note ==> Placed(w, d) && DecideChannel(Observed(w, d, now), now).Ok?
    ensures FreshDecision(w, now).Ok?
  {
    var progress := Observe(w, now).value;
    ObservedInputIsValid(w, now);
    ObservedChannels(w, now);
    PlannedMeaning(progress, now);
    forall d | d in progress.channels ensures ChoicesOf(progress, now)[d] == DecideChannel(Observed(w, d, now), now) {
    }
    DecisionsMaterialize(progress, now);
  }

  /** What one channel planned, seen from the stores. */
  lemma PlannedFromStores(w: World, now: int, p: Plan)
    requires Wired(w) && FreshDecision(w, now).Ok? && p in Planned(Observe(w, now).value, now)
    ensures p.group.None? && p.id.trigger != DormancyElapsed && p.id.channel in w.note
    ensures EdgeAllowed(p.id.from, p.id.to)
    ensures Placed(w, p.id.channel) && Continues(Replay(w.log, p.id.channel).value, p)
    ensures DecideChannel(Observed(w, p.id.channel, now), now) == Ok(Some(p))
    ensures Irrevocable(p) ==> Shown(w, p)
  {
    FreshIsDecided(w, now);
    var progress := Observe(w, now).value;
    PlannedMeaning(progress, now);
    ObservedChannels(w, now);
    assert Chosen(ChoicesOf(progress, now), p, p.id.channel) && OwnPlan(progress, p, p.id.channel);
    if Irrevocable(p) {
      ShownIsDecided(w, p, now);
    }
  }

  lemma ReadyFrom(w: World, p: Plan)
    requires Readable(w) && p.group.None? && p.id.trigger != DormancyElapsed && p.id.channel in w.note
    requires EdgeAllowed(p.id.from, p.id.to) && p.id !in Fold(w.log).value
    requires Continues(Replay(w.log, p.id.channel).value, p)
    requires Irrevocable(p) ==> Shown(w, p)
    ensures Ready(w, p)
  {
  }

  /** Fresh single transitions may all be prepared. */
  lemma PlannedAreReady(w: World, now: int)
    requires Readable(w) && FreshDecision(w, now).Ok?
    requires var planned := Planned(Observe(w, now).value, now); forall p :: p in planned ==> p.id !in Fold(w.log).value
    ensures var planned := Planned(Observe(w, now).value, now);
            InChannelOrder(planned) && forall p :: p in planned ==> Ready(w, p)
  {
    FreshIsDecided(w, now);
    PlannedMeaning(Observe(w, now).value, now);
    forall p | p in Planned(Observe(w, now).value, now) ensures Ready(w, p) {
      PlannedFromStores(w, now, p);
      ReadyFrom(w, p);
    }
  }

  /** A fresh dormancy group is due for every channel of the unit. */
  lemma DueFromStores(w: World, now: int)
    requires Readable(w) && FreshDecision(w, now).Ok?
    requires DormancyDue(Observe(w, now).value, Planned(Observe(w, now).value, now), now)
    ensures var ev := DormancyEvidence(Observe(w, now).value);
            && FreshDecision(w, now).value.plans == MemberPlans(ev)
            && ev.entries.Keys == w.note.Keys
            && forall c :: c in w.note ==> BeforeGroup(ViewOf(w), ev, c)
  {
    FreshIsDecided(w, now);
    ObservedChannels(w, now);
    var progress := Observe(w, now).value;
    forall c | c in w.note ensures BeforeGroup(ViewOf(w), DormancyEvidence(progress), c) {
      assert progress.channels[c] == Observed(w, c, now);
    }
  }

  // -------------------------------------------------------------------------
  // A whole dormancy group
  // -------------------------------------------------------------------------

  lemma MemberCloses(v: View, ev: Evidence, p: Plan, phase: Phase)
    requires phase != Prepare && GroupPends(v, ev) && AllIn(v, Under(phase)) && v.note.Keys == v.at.Keys
    requires MemberOf(ev, v.note.Keys, p) && Open(v.txs, p)
    ensures Acceptable(v, p, phase)
  {
    if phase == Commit {
      TargetOf(v, ev);
      assert TargetMember(v, ev, p.id.channel);
    }
  }

  predicate PendingMembers(v: View, ev: Evidence, todo: seq<Plan>) {
    && InChannelOrder(todo)
    && (forall p :: p in todo ==> MemberOf(ev, v.note.Keys, p) && Open(v.txs, p))
    && forall id :: id in Pending(v.txs) ==> id in IdsOf(todo)
  }

  lemma MembersClose(v: View, ev: Evidence, todo: seq<Plan>, phase: Phase)
    requires phase != Prepare && GroupPends(v, ev) && AllIn(v, Under(phase)) && v.note.Keys == v.at.Keys
    requires PendingMembers(v, ev, todo)
    ensures Closing(v, todo, phase) && todo != []
  {
    forall p | p in todo ensures Acceptable(v, p, phase) {
      MemberCloses(v, ev, p, phase);
    }
    var id :| id in Pending(v.txs);
    assert id in IdsOf(todo);
  }

  lemma AllOpenArePending(v: View, ev: Evidence)
    requires EveryMemberOpen(v, ev) && v.note.Keys != {}
    requires forall id :: id in Pending(v.txs) ==> Member(ev, id)
    ensures PendingMembers(v, ev, MemberPlans(ev))
  {
    MembersOf(ev, v.note.Keys);
    forall id | id in Pending(v.txs) ensures id in IdsOf(MemberPlans(ev)) {
      assert MemberPlan(ev, id.channel) in MemberPlans(ev);
    }
  }

  /** Moving the note, suspending the cards and committing, once every member is open. */
  lemma MoveAndCommitWalks(w: World, ev: Evidence, ts: seq<int>)
    requires InvAt(w, Group(ev)) && AllIn(ViewOf(w), Mastered) && EveryMemberOpen(ViewOf(w), ev)
    requires var plans := MemberPlans(ev); |ts| <= 2 + |plans|
    requires Ticking(w.clock, ts)
    ensures var plans := MemberPlans(ev); Walks(w, Group(ev), MoveAll(plans) + Appends(plans, Commit), ts, Idle)
  {
    var plans := MemberPlans(ev);
    MembersOf(ev, w.note.Keys);
    if |ts| <= 2 {
      MovesWalk(w, ev, plans, ts);
    }
    if |ts| >= 2 {
      CommitsAfterMoves(w, ev, ts);
    }
    WalksInTurn(w, Group(ev), MoveAll(plans), Group(ev), Appends(plans, Commit), ts, Idle);
  }

  lemma CommitsAfterMoves(w: World, ev: Evidence, ts: seq<int>)
    requires InvAt(w, Group(ev)) && AllIn(ViewOf(w), Mastered) && EveryMemberOpen(ViewOf(w), ev)
    requires 2 <= |ts| <= 2 + |MemberPlans(ev)| && Ticking(w.clock, ts)
    ensures var plans := MemberPlans(ev);
            && Walks(w, Group(ev), MoveAll(plans), ts[..2], Group(ev))
            && Walks(Exec(w, MoveAll(plans), ts[..2]), Group(ev), Appends(plans, Commit), ts[2..], Idle)
  {
    var plans := MemberPlans(ev);
    MembersOf(ev, w.note.Keys);
    TickingSplits(w.clock, ts, 2);
    MovesWalk(w, ev, plans, ts[..2]);
    After(w, Group(ev), MoveAll(plans), Group(ev), ts);
    CommitsWalk(Exec(w, MoveAll(plans), ts[..2]), ev, ts[2..]);
  }

  lemma CommitsWalk(w: World, ev: Evidence, ts: seq<int>)
    requires InvAt(w, Group(ev)) && AllIn(ViewOf(w), Dormant) && AllSuspended(w)
    requires EveryMemberOpen(ViewOf(w), ev)
    requires |ts| <= |MemberPlans(ev)| && Ticking(w.clock, ts)
    ensures Walks(w, Group(ev), Appends(MemberPlans(ev), Commit), ts, Idle)
  {
    OpenGroupPends(ViewOf(w), ev);
    PendingCommitsWalk(w, ev, MemberPlans(ev), ts);
  }

  lemma OpenGroupPends(v: View, ev: Evidence)
    requires ViewHolds(v, Group(ev)) && EveryMemberOpen(v, ev)
    ensures GroupPends(v, ev) && PendingMembers(v, ev, MemberPlans(ev))
  {
    AllOpenArePending(v, ev);
  }

  lemma PreparedThenMoved(w: World, stage: Stage, ev: Evidence, todo: seq<Plan>, ts: seq<int>)
    requires InvAt(w, stage) && Joining(ViewOf(w), stage, ev, todo) && (todo == [] ==> stage == Group(ev))
    requires |todo| <= |ts| <= |todo| + 2 + |MemberPlans(ev)| && Ticking(w.clock, ts)
    ensures Walks(w, stage, Appends(todo, Prepare), ts[..|todo|], Group(ev))
    ensures var plans, w' := MemberPlans(ev), Exec(w, Appends(todo, Prepare), ts[..|todo|]);
            Walks(w', Group(ev), MoveAll(plans) + Appends(plans, Commit), ts[|todo|..], Idle)
  {
    var w' := Exec(w, Appends(todo, Prepare), ts[..|todo|]);
    TickingSplits(w.clock, ts, |todo|);
    PreparesWalk(w, stage, ev, todo, ts[..|todo|]);
    After(w, stage, Appends(todo, Prepare), Group(ev), ts);
    AllPrepared(ViewOf(w'), ev);
    MoveAndCommitWalks(w', ev, ts[|todo|..]);
  }

  lemma DormancyInParts(plans: seq<Plan>, todo: seq<Plan>)
    ensures DormancyEffects(plans, todo) == Appends(todo, Prepare) + (MoveAll(plans) + Appends(plans, Commit))
  {
  }

  /** The whole group, from whatever members are not prepared yet. */
  lemma DormancyWalks(w: World, stage: Stage, ev: Evidence, todo: seq<Plan>, ts: seq<int>)
    requires InvAt(w, stage) && Joining(ViewOf(w), stage, ev, todo) && (todo == [] ==> stage == Group(ev))
    requires |ts| <= |DormancyEffects(MemberPlans(ev), todo)| && Ticking(w.clock, ts)
    ensures Walks(w, stage, DormancyEffects(MemberPlans(ev), todo), ts, Idle)
  {
    var plans := MemberPlans(ev);
    DormancyInParts(plans, todo);
    if |ts| <= |todo| {
      PreparesWalk(w, stage, ev, todo, ts);
    }
    if |ts| >= |todo| {
      PreparedThenMoved(w, stage, ev, todo, ts);
    }
    WalksInTurn(w, stage, Appends(todo, Prepare), Group(ev), MoveAll(plans) + Appends(plans, Commit), ts, Idle);
  }

  lemma FreshGroupJoins(v: View, ev: Evidence)
    requires ev.DormancyAgreed? && ev.entries.Keys == v.note.Keys && v.note.Keys != {}
    requires forall c :: c in v.note ==> BeforeGroup(v, ev, c)
    requires forall p :: p in MemberPlans(ev) ==> p.id !in v.txs
    ensures Joining(v, Idle, ev, MemberPlans(ev)) && MemberPlans(ev) != []
  {
    MembersOf(ev, v.note.Keys);
    forall c | c in v.note ensures MemberId(ev, c) !in v.txs && Listed(v, ev, MemberPlans(ev), c) {
      assert MemberPlan(ev, c) in MemberPlans(ev);
    }
  }

  // -------------------------------------------------------------------------
  // The fresh program
  // -------------------------------------------------------------------------

  lemma FreshGroupWalks(w: World, now: int, ts: seq<int>)
    requires InvAt(w, Idle) && FreshDecision(w, now).Ok?
    requires DormancyDue(Observe(w, now).value, Planned(Observe(w, now).value, now), now)
    requires forall p :: p in FreshDecision(w, now).value.plans ==> p.id !in ViewOf(w).txs
    requires var plans := FreshDecision(w, now).value.plans; |ts| <= |DormancyEffects(plans, plans)|
    requires Ticking(w.clock, ts)
    ensures var plans := FreshDecision(w, now).value.plans; Walks(w, Idle, DormancyEffects(plans, plans), ts, Idle)
  {
    DueFromStores(w, now);
    var ev := DormancyEvidence(Observe(w, now).value);
    FreshGroupJoins(ViewOf(w), ev);
    DormancyWalks(w, Idle, ev, MemberPlans(ev), ts);
  }

  lemma GroupedWhenDue(w: World, now: int)
    requires Readable(w) && FreshDecision(w, now).Ok?
    ensures var d, progress := FreshDecision(w, now).value, Observe(w, now).value;
            if DormancyDue(progress, Planned(progress, now), now)
            then d.plans != [] && d.plans[0].group.Some?
            else d.plans == Planned(progress, now) && (d.plans != [] ==> d.plans[0].group.None?)
  {
    FreshIsDecided(w, now);
    var d, progress := FreshDecision(w, now).value, Observe(w, now).value;
    if DormancyDue(progress, Planned(progress, now), now) {
      DueFromStores(w, now);
      MembersOf(DormancyEvidence(progress), w.note.Keys);
    } else if d.plans != [] {
      PlannedFromStores(w, now, d.plans[0]);
    }
  }

  /** What the fresh program consists of. */
  lemma FreshProgram(w: World, txs: Transactions, now: int)
    requires Readable(w)
    ensures var run := FreshRun(txs, FreshDecision(w, now));
            run.effects != [] ==>
              && FreshDecision(w, now).Ok?
              && var progress := Observe(w, now).value;
                 var planned := Planned(progress, now);
                 Materializes(txs, FreshDecision(w, now).value.plans, DormancyDue(progress, planned, now), planned,
                              run.effects)
  {
    if FreshDecision(w, now).Ok? {
      GroupedWhenDue(w, now);
      var progress := Observe(w, now).value;
      var planned := Planned(progress, now);
      FreshMaterializes(txs, FreshDecision(w, now), DormancyDue(progress, planned, now), planned);
    }
  }

  ghost predicate Materializes(txs: Transactions, plans: seq<Plan>, due: bool, planned: seq<Plan>,
                               effects: seq<Effect>) {
    && (forall p :: p in plans ==> p.id !in txs)
    && if due then effects == DormancyEffects(plans, plans)
       else effects == UngroupedEffects(planned) && plans == planned
  }

  lemma FreshMaterializes(txs: Transactions, outcome: Result<Decided, Refusal>, due: bool, planned: seq<Plan>)
    requires outcome.Ok?
    requires var plans := outcome.value.plans;
             if due then plans != [] && plans[0].group.Some?
             else plans == planned && (plans != [] ==> plans[0].group.None?)
    ensures var run := FreshRun(txs, outcome);
            run.effects != [] ==> Materializes(txs, outcome.value.plans, due, planned, run.effects)
  {
  }

  lemma FreshSinglesWalk(w: World, now: int, ts: seq<int>)
    requires InvAt(w, Idle) && FreshDecision(w, now).Ok?
    requires var planned := Planned(Observe(w, now).value, now);
             && (forall p :: p in planned ==> p.id !in ViewOf(w).txs)
             && |ts| <= |UngroupedEffects(planned)|
    requires Ticking(w.clock, ts)
    ensures Walks(w, Idle, UngroupedEffects(Planned(Observe(w, now).value, now)), ts, Idle)
  {
    PlannedAreReady(w, now);
    UngroupedWalks(w, Planned(Observe(w, now).value, now), ts);
  }

  lemma EffectsAreDecided(w: World, txs: Transactions, now: int)
    requires Wired(w) && FreshRun(txs, FreshDecision(w, now)).effects != []
    ensures FreshDecision(w, now).Ok?
  {
  }

  lemma FreshDueWalks(w: World, now: int, ts: seq<int>)
    requires InvAt(w, Idle) && FreshRun(ViewOf(w).txs, FreshDecision(w, now)).effects != [] && FreshDecision(w, now).Ok?
    requires DormancyDue(Observe(w, now).value, Planned(Observe(w, now).value, now), now)
    requires |ts| <= |FreshRun(ViewOf(w).txs, FreshDecision(w, now)).effects| && Ticking(w.clock, ts)
    ensures Walks(w, Idle, FreshRun(ViewOf(w).txs, FreshDecision(w, now)).effects, ts, Idle)
  {
    FreshProgram(w, ViewOf(w).txs, now);
    FreshGroupWalks(w, now, ts);
  }

  lemma FreshNotDueWalks(w: World, now: int, ts: seq<int>)
    requires InvAt(w, Idle) && FreshRun(ViewOf(w).txs, FreshDecision(w, now)).effects != [] && FreshDecision(w, now).Ok?
    requires !DormancyDue(Observe(w, now).value, Planned(Observe(w, now).value, now), now)
    requires |ts| <= |FreshRun(ViewOf(w).txs, FreshDecision(w, now)).effects| && Ticking(w.clock, ts)
    ensures Walks(w, Idle, FreshRun(ViewOf(w).txs, FreshDecision(w, now)).effects, ts, Idle)
  {
    FreshProgram(w, ViewOf(w).txs, now);
    FreshSinglesWalk(w, now, ts);
  }

  /** Every effect of a fresh program is allowed, and nothing is pending after the last. */
  lemma FreshWalks(w: World, now: int, ts: seq<int>)
    requires InvAt(w, Idle)
    requires |ts| <= |FreshRun(ViewOf(w).txs, FreshDecision(w, now)).effects| && Ticking(w.clock, ts)
    ensures Walks(w, Idle, FreshRun(ViewOf(w).txs, FreshDecision(w, now)).effects, ts, Idle)
  {
    if FreshRun(ViewOf(w).txs, FreshDecision(w, now)).effects != [] {
      EffectsAreDecided(w, ViewOf(w).txs, now);
      FreshSomeWalks(w, now, ts);
    }
  }

  lemma FreshSomeWalks(w: World, now: int, ts: seq<int>)
    requires InvAt(w, Idle) && FreshDecision(w, now).Ok? && FreshRun(ViewOf(w).txs, FreshDecision(w, now)).effects != []
    requires |ts| <= |FreshRun(ViewOf(w).txs, FreshDecision(w, now)).effects| && Ticking(w.clock, ts)
    ensures Walks(w, Idle, FreshRun(ViewOf(w).txs, FreshDecision(w, now)).effects, ts, Idle)
  {
    if DormancyDue(Observe(w, now).value, Planned(Observe(w, now).value, now), now) {
      FreshDueWalks(w, now, ts);
    } else {
      FreshNotDueWalks(w, now, ts);
    }
  }

  // -------------------------------------------------------------------------
  // Recovering one channel
  // -------------------------------------------------------------------------

  lemma SingleIsPlaced(w: World, p: Plan)
    requires InvAt(w, Single(p)) && w.note[p.id.channel] == p.id.from
    ensures forall c :: c in w.note ==> Placed(w, c)
  {
    forall c | c in w.note ensures Placed(w, c) {
      assert c != p.id.channel ==> Agrees(ViewOf(w), c);
    }
  }

  /** Irrevocable evidence is decided again. */
  lemma IrrevocableIsReproduced(w: World, p: Plan, now: int)
    requires InvAt(w, Single(p)) && w.note[p.id.channel] == p.id.from && Irrevocable(p) && w.reviewsInOrder
    requires FreshDecision(w, now).Ok?
    ensures p in FreshDecision(w, now).value.plans
  {
    SingleIsPlaced(w, p);
    FreshIsDecided(w, now);
    ShownIsDecided(w, p, now);
    ChosenIsPlanned(w, p, now);
  }

  /** What a channel decides alone is part of the unit's decision. */
  lemma ChosenIsPlanned(w: World, p: Plan, now: int)
    requires Wired(w) && FreshDecision(w, now).Ok? && p.id.channel in w.note && Placed(w, p.id.channel)
    requires DecideChannel(Observed(w, p.id.channel, now), now) == Ok(Some(p))
    ensures p in FreshDecision(w, now).value.plans
    ensures !DormancyDue(Observe(w, now).value, Planned(Observe(w, now).value, now), now)
  {
    FreshIsDecided(w, now);
    var progress := Observe(w, now).value;
    PlannedMeaning(progress, now);
    ObservedChannels(w, now);
    assert Chosen(ChoicesOf(progress, now), p, p.id.channel);
    assert p in Planned(progress, now);
  }

  lemma AbortWalks(w: World, p: Plan, ts: seq<int>)
    requires InvAt(w, Single(p)) && w.note[p.id.channel] == p.id.from
    requires w.reviewsInOrder ==> !Irrevocable(p)
    requires |ts| <= 1 && Ticking(w.clock, ts)
    ensures Walks(w, Single(p), [Append(p, Abort)], ts, Idle)
  {
    OneWalk(w, Single(p), Append(p, Abort), ts);
  }

  lemma ProgramAtSource(w: World, p: Plan, outcome: Result<Decided, Refusal>)
    requires Wired(w) && p.id.channel in w.note && w.note[p.id.channel] == p.id.from
    requires p.group.None? && (w.reviewsInOrder && outcome.Ok? && Irrevocable(p) ==> p in outcome.value.plans)
    ensures var run := RecoverUngrouped(w, p, outcome);
            || (run.effects == [] && run.verdict.Refused?)
            || (run.effects == Step(p) && run.verdict.Done?)
            || (run.effects == [Append(p, Abort)] && run.verdict == Conflict([p.id])
                && (w.reviewsInOrder ==> !Irrevocable(p)))
  {
  }

  lemma ProgramAtTarget(w: World, p: Plan, outcome: Result<Decided, Refusal>)
    requires InvAt(w, Single(p)) && w.note[p.id.channel] != p.id.from
    ensures w.note[p.id.channel] == p.id.to
    ensures RecoverUngrouped(w, p, outcome).effects == [Append(p, Commit)]
    ensures RecoverUngrouped(w, p, outcome).verdict.Done?
  {
  }

  /** Every effect of recovering one channel is allowed, and nothing is pending after the last. */
  lemma SingleWalks(w: World, p: Plan, outcome: Result<Decided, Refusal>, ts: seq<int>)
    requires InvAt(w, Single(p)) && RecoverUngrouped(w, p, outcome).effects != []
    requires w.reviewsInOrder && w.note[p.id.channel] == p.id.from && outcome.Ok? && Irrevocable(p) ==>
               p in outcome.value.plans
    requires |ts| <= |RecoverUngrouped(w, p, outcome).effects| && Ticking(w.clock, ts)
    ensures Walks(w, Single(p), RecoverUngrouped(w, p, outcome).effects, ts, Idle)
  {
    if w.note[p.id.channel] == p.id.from {
      ProgramAtSource(w, p, outcome);
      if RecoverUngrouped(w, p, outcome).effects == Step(p) {
        StepWalks(w, p, ts);
      } else {
        AbortWalks(w, p, ts);
      }
    } else {
      ProgramAtTarget(w, p, outcome);
      CommitWalks(w, p, ts);
    }
  }

  // -------------------------------------------------------------------------
  // Recovering a dormancy group
  // -------------------------------------------------------------------------

  lemma {:induction false} NoTerminals(plans: seq<Plan>, txs: Transactions, terminal: Option<Phase>)
    requires forall p :: p in plans && p.id in txs ==> txs[p.id].terminal != terminal
    ensures WithTerminal(plans, txs, terminal) == []
  {
    if plans != [] {
      assert plans == [plans[0]] + plans[1..];
      NoTerminals(plans[1..], txs, terminal);
    }
  }

  lemma {:induction false} NoneWithout(plans: seq<Plan>, txs: Transactions)
    requires forall p :: p in plans ==> p.id in txs
    ensures WithoutTransaction(plans, txs) == []
  {
    if plans != [] {
      assert plans == [plans[0]] + plans[1..];
      NoneWithout(plans[1..], txs);
    }
  }

  lemma OpenAsPlanned(v: View, ev: Evidence, p: Plan)
    requires ShapesOk(v.note.Keys, v.txs) && MemberOf(ev, v.note.Keys, p)
    requires p.id in v.txs && v.txs[p.id].terminal.None?
    ensures Open(v.txs, p)
  {
    assert PlanShape(v.note.Keys, v.txs[p.id].plan);
  }

  lemma PendingListed(v: View, ev: Evidence, todo: seq<Plan>)
    requires ev.DormancyAgreed? && ev.entries.Keys == v.note.Keys && v.note.Keys != {}
    requires forall id :: id in Pending(v.txs) ==> Member(ev, id)
    requires todo == WithTerminal(MemberPlans(ev), v.txs, None)
    ensures forall id :: id in Pending(v.txs) ==> id in IdsOf(todo)
  {
    MembersOf(ev, v.note.Keys);
    forall id | id in Pending(v.txs) ensures id in IdsOf(todo) {
      assert Member(ev, id);
      assert MemberPlan(ev, id.channel) in todo;
    }
  }

  /** The members that recovery finds pending are all that is pending. */
  lemma PendingFound(v: View, ev: Evidence)
    requires HistoryHolds(v) && GroupPends(v, ev)
    ensures PendingMembers(v, ev, WithTerminal(MemberPlans(ev), v.txs, None))
  {
    var todo := WithTerminal(MemberPlans(ev), v.txs, None);
    MembersOf(ev, v.note.Keys);
    TerminalsInOrder(MemberPlans(ev), v.txs, None);
    forall p | p in todo ensures MemberOf(ev, v.note.Keys, p) && Open(v.txs, p) {
      OpenAsPlanned(v, ev, p);
    }
    PendingListed(v, ev, todo);
  }

  lemma EveryTerminal(terminal: Option<Phase>)
    ensures terminal in {None, Some(Prepare), Some(Commit), Some(Abort)}
  {
    match terminal
    case None =>
    case Some(Prepare) =>
    case Some(Commit) =>
    case Some(Abort) =>
  }

  /** A group at its source that nobody aborted is completed from its unprepared members. */
  lemma UnfinishedJoins(v: View, ev: Evidence)
    requires HistoryHolds(v) && GroupPends(v, ev) && AllAtSource(v, ev)
    requires WithTerminal(MemberPlans(ev), v.txs, Some(Abort)) == []
    ensures Joining(v, Group(ev), ev, WithoutTransaction(MemberPlans(ev), v.txs))
  {
    var todo := WithoutTransaction(MemberPlans(ev), v.txs);
    SourceHasNoCommit(v, ev);
    forall c | c in ev.entries
      ensures Listed(v, ev, todo, c) && (MemberId(ev, c) in v.txs ==> v.txs[MemberId(ev, c)].terminal.None?)
    {
      MemberListed(v, ev, todo, c);
    }
    UnpreparedAreMembers(v, ev, todo);
  }

  lemma UnpreparedAreMembers(v: View, ev: Evidence, todo: seq<Plan>)
    requires ev.DormancyAgreed? && ev.entries.Keys == v.note.Keys && v.note.Keys != {}
    requires todo == WithoutTransaction(MemberPlans(ev), v.txs)
    ensures forall p :: p in todo ==> MemberOf(ev, v.note.Keys, p) && p.id !in v.txs
    ensures InChannelOrder(todo)
  {
    MembersOf(ev, v.note.Keys);
    UnpreparedInOrder(MemberPlans(ev), v.txs);
  }

  lemma MemberListed(v: View, ev: Evidence, todo: seq<Plan>, c: Channel)
    requires ShapesOk(v.note.Keys, v.txs) && AllAtSource(v, ev)
    requires ev.DormancyAgreed? && c in ev.entries && ev.entries.Keys == v.note.Keys
    requires WithTerminal(MemberPlans(ev), v.txs, Some(Abort)) == []
    requires todo == WithoutTransaction(MemberPlans(ev), v.txs)
    ensures Listed(v, ev, todo, c) && (MemberId(ev, c) in v.txs ==> v.txs[MemberId(ev, c)].terminal.None?)
  {
    var p := MemberPlan(ev, c);
    MembersOf(ev, v.note.Keys);
    assert p in MemberPlans(ev) && SourceMember(v, ev, c);
    assert p !in WithTerminal(MemberPlans(ev), v.txs, Some(Abort));
    if p.id in v.txs {
      EveryTerminal(v.txs[p.id].terminal);
      OpenAsPlanned(v, ev, p);
    }
  }

  /** What recovery does with a group whose note shows the source. */
  lemma GroupAtSourceProgram(w: World, txs: Transactions, ev: Evidence, outcome: Result<Decided, Refusal>)
    requires Wired(w) && ev.DormancyAgreed? && ev.entries.Keys == w.note.Keys
    requires ChannelsOf(MemberPlans(ev)) == Active(w) && ShowsOnly(w.note, Mastered)
    requires WithTerminal(MemberPlans(ev), txs, Some(Commit)) == []
    ensures var run, plans, pending :=
              RecoverGroup(w, txs, ev, outcome), MemberPlans(ev), WithTerminal(MemberPlans(ev), txs, None);
            || (run == Run(Appends(pending, Abort), Conflict(IdsOf(pending)))
                && (WithTerminal(plans, txs, Some(Abort)) != [] || (outcome.Ok? && outcome.value.plans != plans)))
            || (outcome.Err? && run == Refuse(Unobservable(outcome.error)))
            || (run.effects == DormancyEffects(plans, WithoutTransaction(plans, txs))
                && run.verdict.Done? && run.verdict.committed == IdsOf(plans)
                && WithTerminal(plans, txs, Some(Abort)) == [] && outcome.Ok? && outcome.value.plans == plans)
  {
  }

  lemma MembersAreActive(w: World, ev: Evidence)
    requires Wired(w) && ev.DormancyAgreed? && ev.entries.Keys == w.note.Keys
    ensures ChannelsOf(MemberPlans(ev)) == Active(w)
  {
    MemberPlansAreValid(ev);
  }

  /** What recovery does with a group whose note shows the target. */
  lemma GroupAtTargetProgram(w: World, txs: Transactions, ev: Evidence, outcome: Result<Decided, Refusal>)
    requires Wired(w) && ev.DormancyAgreed? && ev.entries.Keys == w.note.Keys
    requires ChannelsOf(MemberPlans(ev)) == Active(w) && ShowsOnly(w.note, Dormant)
    requires WithTerminal(MemberPlans(ev), txs, Some(Abort)) == [] && WithoutTransaction(MemberPlans(ev), txs) == []
    ensures var run, pending := RecoverGroup(w, txs, ev, outcome), WithTerminal(MemberPlans(ev), txs, None);
            && run.effects
            == (if AwakeCards(w) == {} then [] else [SuspendCards(AwakeCards(w))]) + Appends(pending, Commit)
            && run.verdict.Done? && run.verdict.committed == IdsOf(pending)
  {
    assert !ShowsOnly(w.note, Mastered) by {
      var c :| c in w.note.Keys;
      assert w.note[c] != Mastered;
    }
  }

  lemma SourceHasNoCommit(v: View, ev: Evidence)
    requires AllAtSource(v, ev) && ev.DormancyAgreed? && ev.entries.Keys == v.note.Keys && v.note.Keys != {}
    ensures WithTerminal(MemberPlans(ev), v.txs, Some(Commit)) == [] && AllIn(v, Mastered)
  {
    MembersOf(ev, v.note.Keys);
    forall p | p in MemberPlans(ev) && p.id in v.txs ensures v.txs[p.id].terminal != Some(Commit) {
      assert SourceMember(v, ev, p.id.channel);
    }
    NoTerminals(MemberPlans(ev), v.txs, Some(Commit));
    forall c | c in v.note ensures v.note[c] == Mastered {
      assert SourceMember(v, ev, c);
    }
  }

  lemma TargetIsPrepared(v: View, ev: Evidence)
    requires AllAtTarget(v, ev) && ev.DormancyAgreed? && ev.entries.Keys == v.note.Keys && v.note.Keys != {}
    ensures WithTerminal(MemberPlans(ev), v.txs, Some(Abort)) == [] && WithoutTransaction(MemberPlans(ev), v.txs) == []
    ensures AllIn(v, Dormant)
  {
    MembersOf(ev, v.note.Keys);
    forall p | p in MemberPlans(ev) ensures p.id in v.txs && v.txs[p.id].terminal != Some(Abort) {
      assert TargetMember(v, ev, p.id.channel);
    }
    NoTerminals(MemberPlans(ev), v.txs, Some(Abort));
    NoneWithout(MemberPlans(ev), v.txs);
    forall c | c in v.note ensures v.note[c] == Dormant {
      assert TargetMember(v, ev, c);
    }
  }

  lemma AbortsGroupWalks(w: World, ev: Evidence, ts: seq<int>)
    requires InvAt(w, Group(ev)) && AllIn(ViewOf(w), Mastered)
    requires |ts| <= |WithTerminal(MemberPlans(ev), ViewOf(w).txs, None)| && Ticking(w.clock, ts)
    ensures Walks(w, Group(ev), Appends(WithTerminal(MemberPlans(ev), ViewOf(w).txs, None), Abort), ts, Idle)
  {
    var todo := WithTerminal(MemberPlans(ev), ViewOf(w).txs, None);
    PendingFound(ViewOf(w), ev);
    MembersClose(ViewOf(w), ev, todo, Abort);
    TerminalsWalk(w, ev, todo, Abort, ts);
  }

  lemma PendingCommitsWalk(w: World, ev: Evidence, todo: seq<Plan>, ts: seq<int>)
    requires Readable(w) && GroupPends(ViewOf(w), ev) && AllIn(ViewOf(w), Dormant) && AllSuspended(w)
    requires PendingMembers(ViewOf(w), ev, todo) && |ts| <= |todo| && Ticking(w.clock, ts)
    ensures Walks(w, Group(ev), Appends(todo, Commit), ts, Idle)
  {
    MembersClose(ViewOf(w), ev, todo, Commit);
    TerminalsWalk(w, ev, todo, Commit, ts);
  }

  lemma CommitsAfterSuspension(w: World, ev: Evidence, todo: seq<Plan>, ts: seq<int>)
    requires Readable(w) && GroupPends(ViewOf(w), ev) && AllIn(ViewOf(w), Dormant)
    requires PendingMembers(ViewOf(w), ev, todo) && 0 < |ts| <= 1 + |todo| && Ticking(w.clock, ts)
    ensures Walks(Apply(w, SuspendCards(AwakeCards(w)), ts[0]), Group(ev), Appends(todo, Commit), ts[1..], Idle)
  {
    SuspensionSeen(w, AwakeCards(w), ts[0]);
    PendingCommitsWalk(Apply(w, SuspendCards(AwakeCards(w)), ts[0]), ev, todo, ts[1..]);
  }

  lemma SuspendThenWalks(w: World, ev: Evidence, cards: set<Channel>, rest: seq<Effect>, ts: seq<int>)
    requires Readable(w) && AllIn(ViewOf(w), Dormant) && |ts| <= 1 + |rest| && Ticking(w.clock, ts)
    requires ts != [] ==> Walks(Apply(w, SuspendCards(cards), ts[0]), Group(ev), rest, ts[1..], Idle)
    ensures Walks(w, Group(ev), [SuspendCards(cards)] + rest, ts, Idle)
  {
    if ts != [] {
      assert ([SuspendCards(cards)] + rest)[1..] == rest;
      Onward(w, Group(ev), [SuspendCards(cards)] + rest, ts, Idle);
    }
  }

  lemma GroupSourceWalks(w: World, ev: Evidence, outcome: Result<Decided, Refusal>, ts: seq<int>)
    requires InvAt(w, Group(ev)) && AllAtSource(ViewOf(w), ev)
    requires RecoverGroup(w, ViewOf(w).txs, ev, outcome).effects != []
    requires |ts| <= |RecoverGroup(w, ViewOf(w).txs, ev, outcome).effects| && Ticking(w.clock, ts)
    ensures Walks(w, Group(ev), RecoverGroup(w, ViewOf(w).txs, ev, outcome).effects, ts, Idle)
  {
    var v, run := ViewOf(w), RecoverGroup(w, ViewOf(w).txs, ev, outcome);
    SourceHasNoCommit(v, ev);
    MembersAreActive(w, ev);
    GroupAtSourceProgram(w, v.txs, ev, outcome);
    if run.verdict.Conflict? {
      AbortsGroupWalks(w, ev, ts);
    } else {
      UnfinishedJoins(v, ev);
      DormancyWalks(w, Group(ev), ev, WithoutTransaction(MemberPlans(ev), v.txs), ts);
    }
  }

  lemma GroupTargetWalks(w: World, ev: Evidence, outcome: Result<Decided, Refusal>, ts: seq<int>)
    requires InvAt(w, Group(ev)) && AllAtTarget(ViewOf(w), ev)
    requires |ts| <= |RecoverGroup(w, ViewOf(w).txs, ev, outcome).effects| && Ticking(w.clock, ts)
    ensures Walks(w, Group(ev), RecoverGroup(w, ViewOf(w).txs, ev, outcome).effects, ts, Idle)
  {
    var v := ViewOf(w);
    TargetIsPrepared(v, ev);
    MembersAreActive(w, ev);
    GroupAtTargetProgram(w, v.txs, ev, outcome);
    var todo := WithTerminal(MemberPlans(ev), v.txs, None);
    PendingFound(v, ev);
    if AwakeCards(w) == {} {
      assert [] + Appends(todo, Commit) == Appends(todo, Commit);
      AllAsleep(w);
      PendingCommitsWalk(w, ev, todo, ts);
    } else {
      if ts != [] {
        CommitsAfterSuspension(w, ev, todo, ts);
      }
      SuspendThenWalks(w, ev, AwakeCards(w), Appends(todo, Commit), ts);
    }
  }

  lemma AllAsleep(w: World)
    requires AwakeCards(w) == {}
    ensures AllSuspended(w)
  {
    forall c | c in w.cards ensures w.cards[c].suspended {
      assert c !in AwakeCards(w);
    }
  }

  /** Every effect of recovering a group is allowed, and nothing is pending after the last. */
  lemma GroupWalks(w: World, ev: Evidence, outcome: Result<Decided, Refusal>, ts: seq<int>)
    requires InvAt(w, Group(ev)) && RecoverGroup(w, ViewOf(w).txs, ev, outcome).effects != []
    requires |ts| <= |RecoverGroup(w, ViewOf(w).txs, ev, outcome).effects| && Ticking(w.clock, ts)
    ensures Walks(w, Group(ev), RecoverGroup(w, ViewOf(w).txs, ev, outcome).effects, ts, Idle)
  {
    if AllAtSource(ViewOf(w), ev) {
      GroupSourceWalks(w, ev, outcome, ts);
    } else {
      GroupTargetWalks(w, ev, outcome, ts);
    }
  }
}
