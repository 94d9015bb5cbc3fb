/**
 * Lifetimes without new evidence: calls cut anywhere, in between only time
 * passing. Nothing is ever aborted, and whatever was prepared gets committed.
 */
module Quiet {
  import opened Wrappers
  import opened Lifecycle
  import opened Journal
  import opened Observation
  import opened Decision
  import opened DecisionFacts
  import opened Protocol
  import opened Safety
  import opened Runs
  import opened GroupRuns
  import opened Recovery
  import opened Lifetime
  import Rv = Revlog

  // -------------------------------------------------------------------------
  // Pending work that a fresh decision would repeat
  // -------------------------------------------------------------------------

  /** The unit's decision at `t` is to make all of `plans` dormant. */
  ghost predicate DecidesGroup(w: World, plans: seq<Plan>, t: int) {
    Wired(w) &&
    match FreshDecision(w, t)
    case Err(_) => false
    case Ok(d) => d.plans == plans && d.suspend != []
  }

  /** The channel's own decision at `t` is `p`. */
  ghost predicate DecidesSingle(w: World, p: Plan, t: int) {
    && Wired(w) && p.id.channel in w.note && Placed(w, p.id.channel)
    && Rv.CardReadable(w.reviews[p.id.channel], t)
    && DecideChannel(Observed(w, p.id.channel, t), t) == Ok(Some(p))
  }

  ghost predicate NoMemberAborted(w: World, ev: Evidence)
    requires Readable(w) && ev.DormancyAgreed?
  {
    WithTerminal(MemberPlans(ev), ViewOf(w).txs, Some(Abort)) == []
  }

  /** What is pending at its source would be decided again, with the same identities. */
  ghost predicate Due(w: World, stage: Stage) {
    match stage
    case Idle => true
    case Single(p) => p.id.channel in w.note && w.note[p.id.channel] == p.id.from ==>
        DecidesSingle(w, p, w.clock)
    case Group(ev) =>
      Readable(w) && AllAtSource(ViewOf(w), ev) && ev.DormancyAgreed? ==>
        DecidesGroup(w, MemberPlans(ev), w.clock) && NoMemberAborted(w, ev)
  }

  // -------------------------------------------------------------------------
  // Decisions survive time and PREPARE records
  // -------------------------------------------------------------------------

  lemma SingleStillDecided(w: World, p: Plan, now: int, later: int)
    requires DecidesSingle(w, p, now) && now <= later
    ensures DecidesSingle(w, p, later)
  {
    ChannelPlanStable(w, p.id.channel, now, later);
  }

  /** Nothing a channel's decision is taken from differs. */
  ghost predicate SameEvidence(w: World, w': World, c: Channel) {
    && Wired(w) && Wired(w') && c in w.note && c in w'.note
    && w'.note[c] == w.note[c] && w'.cards[c] == w.cards[c] && w'.reviews[c] == w.reviews[c]
    && Replay(w'.log, c) == Replay(w.log, c)
    && AssessmentsOf(w'.log, c) == AssessmentsOf(w.log, c)
  }

  lemma SameEvidenceDecides(w: World, w': World, p: Plan, t: int)
    requires DecidesSingle(w, p, t) && SameEvidence(w, w', p.id.channel)
    ensures DecidesSingle(w', p, t)
  {
    assert Observed(w', p.id.channel, t) == Observed(w, p.id.channel, t);
  }

  lemma SuspendsWithGroup(progress: UnitProgress, d: Decided)
    requires ValidDecision(progress, d) && d.plans != []
    ensures d.suspend != [] <==> d.plans[0].group.Some?
  {
    assert d.plans[0] in d.plans;
    if exists p :: p in d.plans && p.group.Some? {
      assert |ChannelsOf(d.plans)| == |d.plans|;
    }
  }

  lemma FreshIsValid(w: World, now: int)
    requires Wired(w) && FreshDecision(w, now).Ok?
    ensures Observe(w, now).Ok? && ValidDecision(Observe(w, now).value, FreshDecision(w, now).value)
  {
  }

  lemma GroupNotEmpty(w: World, now: int)
    requires Wired(w) && FreshDecision(w, now).Ok? && FreshDecision(w, now).value.suspend != []
    ensures FreshDecision(w, now).value.plans != []
  {
  }

  lemma FreshAfterwards(w: World, now: int, later: int)
    requires Wired(w) && now <= later && FreshDecision(w, now).Ok? && FreshDecision(w, now).value.suspend != []
    ensures FreshDecision(w, later).Ok?
    ensures FreshDecision(w, later).value.plans == FreshDecision(w, now).value.plans
  {
    DecisionsStableInTime(w, now, later);
    DecisionsMaterialize(Observe(w, later).value, later);
  }

  lemma SuspendsAfterwards(w: World, now: int, later: int)
    requires Wired(w) && FreshDecision(w, now).Ok? && FreshDecision(w, now).value.suspend != []
    requires FreshDecision(w, later).Ok? && FreshDecision(w, later).value.plans == FreshDecision(w, now).value.plans
    ensures FreshDecision(w, later).value.suspend != []
  {
    GroupNotEmpty(w, now);
    FreshIsValid(w, now);
    FreshIsValid(w, later);
    SuspendsWithGroup(Observe(w, now).value, FreshDecision(w, now).value);
    SuspendsWithGroup(Observe(w, later).value, FreshDecision(w, later).value);
  }

  lemma GroupStillDecided(w: World, plans: seq<Plan>, now: int, later: int)
    requires DecidesGroup(w, plans, now) && now <= later
    ensures DecidesGroup(w, plans, later)
  {
    FreshAfterwards(w, now, later);
    SuspendsAfterwards(w, now, later);
  }

  /** The two deployments differ at most in their clock and in journal records that no snapshot shows. */
  ghost predicate SameStored(w: World, w': World) {
    && w'.note == w.note && w'.cards == w.cards && w'.reviews == w.reviews && w'.leech == w.leech
    && (forall c :: c in w.note ==>
          Replay(w'.log, c) == Replay(w.log, c) && AssessmentsOf(w'.log, c) == AssessmentsOf(w.log, c))
    && Fold(w'.log).Some? == Fold(w.log).Some?
  }

  lemma SameHistory(w: World, w': World, t: int)
    requires Wired(w) && SameStored(w, w') && HistoryReadable(w, t) && NoFuture(w'.log, t)
    ensures HistoryReadable(w', t) && Positions(w') == Positions(w)
  {
    forall c | c in w'.note ensures Placed(w', c) && Replay(w'.log, c) == Replay(w.log, c) {
      assert Placed(w, c);
    }
  }

  lemma SameSnapshot(w: World, w': World, summaries: map<Channel, Rv.Summary>, positions: map<Channel, Position>)
    requires Wired(w) && Wired(w') && SameStored(w, w') && summaries.Keys == positions.Keys == w.note.Keys
    ensures Snapshot(w', summaries, positions) == Snapshot(w, summaries, positions)
  {
    forall c | c in w.note
      ensures Progress(w', c, summaries[c], positions[c]) == Progress(w, c, summaries[c], positions[c])
    {
    }
    assert (map c | c in w'.note :: Progress(w', c, summaries[c], positions[c]))
        == (map c | c in w.note :: Progress(w, c, summaries[c], positions[c]));
  }

  lemma SameObservation(w: World, w': World, t: int)
    requires Wired(w) && SameStored(w, w') && Observe(w, t).Ok? && NoFuture(w'.log, t)
    ensures Wired(w') && Observe(w', t) == Observe(w, t)
  {
    SameHistory(w, w', t);
    SameSnapshot(w, w', Summaries(w.reviews, t), Positions(w));
  }

  lemma SameStores(w: World, w': World, t: int)
    requires Wired(w) && SameStored(w, w') && Observe(w, t).Ok? && NoFuture(w'.log, t)
    ensures Wired(w') && FreshDecision(w', t) == FreshDecision(w, t)
  {
    SameObservation(w, w', t);
  }

  lemma PrepareLeavesStored(w: World, p: Plan, t: int)
    requires Readable(w) && Acceptable(ViewOf(w), p, Prepare) && w.clock <= t
    ensures SameStored(w, Apply(w, Append(p, Prepare), t)) && NoFuture(Apply(w, Append(p, Prepare), t).log, t)
  {
    AppendReads(w, p, Prepare, t);
    forall c | c in w.note
      ensures AssessmentsOf(Apply(w, Append(p, Prepare), t).log, c) == AssessmentsOf(w.log, c)
      ensures Replay(Apply(w, Append(p, Prepare), t).log, c) == Replay(w.log, c)
    {
      ChainAfterAppend(w, p, Prepare, t, c);
      AssessmentsOfAppends(w.log, StateEntry(p, Prepare, t), c);
    }
  }

  // -------------------------------------------------------------------------
  // Cut programs leave their decision due
  // -------------------------------------------------------------------------

  predicate Preparable(v: View, todo: seq<Plan>) {
    InChannelOrder(todo) && forall p :: p in todo ==> Acceptable(v, p, Prepare)
  }

  lemma JoiningIsPreparable(v: View, stage: Stage, ev: Evidence, todo: seq<Plan>)
    requires Joining(v, stage, ev, todo) && v.note.Keys == v.at.Keys
    ensures Preparable(v, todo)
  {
    forall p | p in todo ensures Acceptable(v, p, Prepare) {
      assert MemberOf(ev, v.note.Keys, p);
    }
  }

  lemma StillPreparable(v: View, todo: seq<Plan>, t: int)
    requires Preparable(v, todo) && todo != []
    ensures Preparable(ViewAfter(v, Append(todo[0], Prepare), t), todo[1..])
  {
    var v' := ViewAfter(v, Append(todo[0], Prepare), t);
    LaterThanFirst(todo, todo[1..]);
    forall p | p in todo[1..] ensures Acceptable(v', p, Prepare) {
      var i :| 0 <= i < |todo[1..]| && todo[1..][i] == p;
      assert Acceptable(v, p, Prepare);
    }
  }

  lemma StoredInTurn(w: World, w': World, w'': World)
    requires SameStored(w, w') && SameStored(w', w'')
    ensures SameStored(w, w'')
  {
  }

  lemma PreparedFirst(w: World, todo: seq<Plan>, t: int)
    requires Readable(w) && Preparable(ViewOf(w), todo) && todo != [] && w.clock <= t
    ensures var w' := Apply(w, Append(todo[0], Prepare), t);
            SameStored(w, w') && Readable(w') && Preparable(ViewOf(w'), todo[1..])
  {
    assert todo[0] in todo && Acceptable(ViewOf(w), todo[0], Prepare);
    PrepareLeavesStored(w, todo[0], t);
    AppendReads(w, todo[0], Prepare, t);
    StillPreparable(ViewOf(w), todo, t);
  }

  lemma {:induction false} PreparesLeaveStored(w: World, todo: seq<Plan>, ts: seq<int>)
    requires Readable(w) && Preparable(ViewOf(w), todo) && |ts| <= |todo| && Ticking(w.clock, ts)
    ensures SameStored(w, Exec(w, Appends(todo, Prepare), ts)) && Readable(Exec(w, Appends(todo, Prepare), ts))
    ensures w.clock <= Exec(w, Appends(todo, Prepare), ts).clock
    decreases |todo|
  {
    if ts != [] {
      assert Appends(todo, Prepare)[1..] == Appends(todo[1..], Prepare);
      var w' := Apply(w, Append(todo[0], Prepare), ts[0]);
      PreparedFirst(w, todo, ts[0]);
      PreparesLeaveStored(w', todo[1..], ts[1..]);
      StoredInTurn(w, w', Exec(w, Appends(todo, Prepare), ts));
    }
  }

  lemma {:induction false} TickingForward(clock: int, ts: seq<int>)
    requires Ticking(clock, ts) && ts != []
    ensures clock <= ts[|ts| - 1]
    decreases |ts|
  {
    if |ts| > 1 {
      TickingForward(ts[0], ts[1..]);
    }
  }

  lemma SameStoresDecide(w: World, w': World, plans: seq<Plan>, t: int)
    requires SameStored(w, w') && DecidesGroup(w, plans, t) && NoFuture(w'.log, t)
    ensures DecidesGroup(w', plans, t)
  {
    FreshIsValid(w, t);
    SameStores(w, w', t);
  }

  lemma PreparesLeaveDecision(w: World, plans: seq<Plan>, todo: seq<Plan>, ts: seq<int>, now: int)
    requires Readable(w) && Preparable(ViewOf(w), todo) && DecidesGroup(w, plans, now)
    requires w.clock <= now && 0 < |ts| <= |todo| && Ticking(now, ts)
    ensures var w' := Exec(w, Appends(todo, Prepare), ts); DecidesGroup(w', plans, w'.clock)
  {
    var w' := Exec(w, Appends(todo, Prepare), ts);
    PreparesLeaveStored(w, todo, ts);
    ExecClock(w, Appends(todo, Prepare), ts);
    TickingForward(now, ts);
    GroupStillDecided(w, plans, now, w'.clock);
    SameStoresDecide(w, w', plans, w'.clock);
  }

  // -------------------------------------------------------------------------
  // Nothing aborts but an ABORT
  // -------------------------------------------------------------------------

  predicate NoAborts(es: seq<Effect>) {
    forall e :: e in es && e.Append? ==> e.phase != Abort
  }

  lemma AbortedBefore(w: World, e: Effect, t: int, id: TransitionId)
    requires e.Append? ==> e.phase != Abort
    requires Logged(Apply(w, e, t).log, id, Abort)
    ensures Logged(w.log, id, Abort)
  {
    var log' := Apply(w, e, t).log;
    if e.Append? {
      LoggedAppends(log', id, Abort);
      assert log'[..|log'| - 1] == w.log;
    }
  }

  /** A program without ABORT effects leaves no new ABORT record. */
  lemma {:induction false} NoNewAborts(w: World, es: seq<Effect>, ts: seq<int>, id: TransitionId)
    requires |ts| <= |es| && NoAborts(es)
    requires Logged(Exec(w, es, ts).log, id, Abort)
    ensures Logged(w.log, id, Abort)
    decreases |ts|
  {
    if ts != [] {
      NoNewAborts(Apply(w, es[0], ts[0]), es[1..], ts[1..], id);
      assert es[0] in es;
      AbortedBefore(w, es[0], ts[0], id);
    }
  }

  lemma MembersStillUnaborted(w: World, w': World, ev: Evidence)
    requires Readable(w) && Readable(w') && ev.DormancyAgreed? && NoMemberAborted(w, ev)
    requires forall id :: Logged(w'.log, id, Abort) ==> Logged(w.log, id, Abort)
    ensures NoMemberAborted(w', ev)
  {
    var plans := MemberPlans(ev);
    forall p | p in plans && p.id in ViewOf(w').txs ensures ViewOf(w').txs[p.id].terminal != Some(Abort) {
      FoldMeaning(w'.log, p.id);
      FoldMeaning(w.log, p.id);
      assert p !in WithTerminal(plans, ViewOf(w).txs, Some(Abort));
    }
    NoTerminals(plans, ViewOf(w').txs, Some(Abort));
  }

  // -------------------------------------------------------------------------
  // Programs cut anywhere
  // -------------------------------------------------------------------------

  lemma {:induction false} NoteKept(w: World, es: seq<Effect>, ts: seq<int>)
    requires |ts| <= |es| && forall e :: e in es ==> !e.SetStates?
    ensures Exec(w, es, ts).note == w.note
    decreases |ts|
  {
    if ts != [] {
      assert es[0] in es;
      NoteKept(Apply(w, es[0], ts[0]), es[1..], ts[1..]);
    }
  }

  lemma {:induction false} NeverSingle(w: World, stage: Stage, es: seq<Effect>, ts: seq<int>)
    requires |ts| <= |es| && Walk(w, stage, es, ts).Some? && !stage.Single?
    requires forall e :: e in es && e.Append? && e.phase == Prepare ==> e.plan.group.Some?
    ensures !Walk(w, stage, es, ts).value.Single?
    decreases |ts|
  {
    if ts != [] {
      assert es[0] in es;
      NeverSingle(Apply(w, es[0], ts[0]), StageAfter(ViewOf(w), stage, es[0]), es[1..], ts[1..]);
    }
  }

  /** Once the note has moved, no channel of it shows the source. */
  lemma MovedNote(w: World, plans: seq<Plan>, ts: seq<int>)
    requires Wired(w) && (forall c :: c in ChannelsOf(plans) <==> c in w.note)
    requires var es := MoveAll(plans) + Appends(plans, Commit); 0 < |ts| <= |es|
    ensures var w' := Exec(w, MoveAll(plans) + Appends(plans, Commit), ts);
            w'.note.Keys == w.note.Keys && forall c :: c in w'.note ==> w'.note[c] == Dormant
  {
    var es := MoveAll(plans) + Appends(plans, Commit);
    assert es[1..] == [SuspendCards(set c | c in ChannelsOf(plans))] + Appends(plans, Commit);
    NoteKept(Apply(w, es[0], ts[0]), es[1..], ts[1..]);
  }

  lemma NotAtSource(w: World, ev: Evidence)
    requires Readable(w) && forall c :: c in w.note ==> w.note[c] == Dormant
    ensures !AllAtSource(ViewOf(w), ev)
  {
    var c :| c in w.note.Keys;
    assert !SourceMember(ViewOf(w), ev, c);
  }

  lemma DormancyHasNoAborts(plans: seq<Plan>, todo: seq<Plan>)
    ensures NoAborts(DormancyEffects(plans, todo))
    ensures (forall p :: p in todo ==> p.group.Some?) ==>
              forall e :: e in DormancyEffects(plans, todo) && e.Append? && e.phase == Prepare ==> e.plan.group.Some?
  {
  }

  lemma PreparesHaveNoAborts(todo: seq<Plan>)
    ensures NoAborts(Appends(todo, Prepare))
  {
  }

  lemma PreparesAbortNobody(w: World, ev: Evidence, todo: seq<Plan>, ts: seq<int>)
    requires Readable(w) && ev.DormancyAgreed? && NoMemberAborted(w, ev) && |ts| <= |todo|
    requires Readable(Exec(w, Appends(todo, Prepare), ts))
    ensures NoMemberAborted(Exec(w, Appends(todo, Prepare), ts), ev)
  {
    var w' := Exec(w, Appends(todo, Prepare), ts);
    PreparesHaveNoAborts(todo);
    forall id | Logged(w'.log, id, Abort) ensures Logged(w.log, id, Abort) {
      NoNewAborts(w, Appends(todo, Prepare), ts, id);
    }
    MembersStillUnaborted(w, w', ev);
  }

  lemma GroupPrefixDue(w: World, ev: Evidence, todo: seq<Plan>, ts: seq<int>, now: int)
    requires Readable(w) && Preparable(ViewOf(w), todo) && ev.DormancyAgreed?
    requires DecidesGroup(w, MemberPlans(ev), now) && NoMemberAborted(w, ev)
    requires w.clock <= now && 0 < |ts| <= |todo| && Ticking(now, ts)
    ensures Due(Exec(w, Appends(todo, Prepare), ts), Group(ev))
  {
    PreparesLeaveDecision(w, MemberPlans(ev), todo, ts, now);
    PreparesLeaveStored(w, todo, ts);
    PreparesAbortNobody(w, ev, todo, ts);
  }

  lemma GroupPastPreparesDue(w: World, ev: Evidence, todo: seq<Plan>, ts: seq<int>)
    requires Readable(w) && ev.DormancyAgreed? && ev.entries.Keys == w.note.Keys && |todo| < |ts|
    requires |ts| <= |DormancyEffects(MemberPlans(ev), todo)|
    ensures var w' := Exec(w, DormancyEffects(MemberPlans(ev), todo), ts);
            w'.note.Keys == w.note.Keys && forall c :: c in w'.note ==> w'.note[c] == Dormant
  {
    var plans := MemberPlans(ev);
    var prepared := PastPrepares(w, plans, todo, ts);
    MembersOf(ev, w.note.Keys);
    MovedNote(prepared, plans, ts[|todo|..]);
  }

  lemma PastPrepares(w: World, plans: seq<Plan>, todo: seq<Plan>, ts: seq<int>) returns (prepared: World)
    requires Wired(w) && |todo| < |ts| <= |DormancyEffects(plans, todo)|
    ensures Wired(prepared) && prepared.note == w.note
    ensures |ts| - |todo| <= |MoveAll(plans) + Appends(plans, Commit)|
    ensures Exec(w, DormancyEffects(plans, todo), ts)
         == Exec(prepared, MoveAll(plans) + Appends(plans, Commit), ts[|todo|..])
  {
    var first, rest := Appends(todo, Prepare), MoveAll(plans) + Appends(plans, Commit);
    DormancyInParts(plans, todo);
    ExecConcat(w, first, rest, ts);
    NoteKept(w, first, ts[..|todo|]);
    WiredKept(w, first, ts[..|todo|]);
    prepared := Exec(w, first, ts[..|todo|]);
  }

  lemma {:induction false} WiredKept(w: World, es: seq<Effect>, ts: seq<int>)
    requires |ts| <= |es| && Wired(w) && forall e :: e in es ==> e.Append?
    ensures Wired(Exec(w, es, ts))
    decreases |ts|
  {
    if ts != [] {
      assert es[0] in es;
      WiredKept(Apply(w, es[0], ts[0]), es[1..], ts[1..]);
    }
  }

  /** A group's program, cut anywhere, leaves the group due. */
  lemma DormancyCutDue(w: World, stage: Stage, ev: Evidence, todo: seq<Plan>, ts: seq<int>, now: int)
    requires InvAt(w, stage) && Joining(ViewOf(w), stage, ev, todo) && (todo == [] ==> stage == Group(ev))
    requires DecidesGroup(w, MemberPlans(ev), now) && NoMemberAborted(w, ev)
    requires w.clock <= now && 0 < |ts| <= |DormancyEffects(MemberPlans(ev), todo)| && Ticking(now, ts)
    ensures var es := DormancyEffects(MemberPlans(ev), todo);
            Walk(w, stage, es, ts).Some? && Due(Exec(w, es, ts), Walk(w, stage, es, ts).value)
  {
    var plans := MemberPlans(ev);
    var es := DormancyEffects(plans, todo);
    var first, rest := Appends(todo, Prepare), MoveAll(plans) + Appends(plans, Commit);
    DormancyWalks(w, stage, ev, todo, ts);
    DormancyInParts(plans, todo);
    if |ts| <= |todo| {
      ExecConcat(w, first, rest, ts);
      WalkCutEarly(w, stage, first, rest, ts);
      PreparesWalk(w, stage, ev, todo, ts);
      JoiningIsPreparable(ViewOf(w), stage, ev, todo);
      GroupPrefixDue(w, ev, todo, ts, now);
    } else {
      GroupPastPreparesDue(w, ev, todo, ts);
      MemberPlansGrouped(ViewOf(w), ev, todo);
      DormancyHasNoAborts(plans, todo);
      NeverSingle(w, stage, es, ts);
      WalkKeepsInvariant(w, stage, es, ts);
      MovedIsDue(Exec(w, es, ts), Walk(w, stage, es, ts).value);
    }
  }

  lemma MemberPlansGrouped(v: View, ev: Evidence, todo: seq<Plan>)
    requires forall p :: p in todo ==> MemberOf(ev, v.note.Keys, p)
    ensures forall p :: p in todo ==> p.group.Some?
  {
  }

  lemma MovedIsDue(w: World, stage: Stage)
    requires Readable(w) && !stage.Single? && forall c :: c in w.note ==> w.note[c] == Dormant
    ensures Due(w, stage)
  {
    if stage.Group? {
      NotAtSource(w, stage.evidence);
    }
  }

  lemma PreparedSameEvidence(w: World, p: Plan, t: int)
    requires Readable(w) && Acceptable(ViewOf(w), p, Prepare) && w.clock <= t
    ensures SameEvidence(w, Apply(w, Append(p, Prepare), t), p.id.channel)
  {
    ChainAfterAppend(w, p, Prepare, t, p.id.channel);
    AssessmentsOfAppends(w.log, StateEntry(p, Prepare, t), p.id.channel);
  }

  lemma ReadyIsAcceptable(w: World, p: Plan)
    requires Ready(w, p)
    ensures Acceptable(ViewOf(w), p, Prepare)
  {
  }

  lemma PreparedIsDue(w: World, p: Plan, now: int, t: int)
    requires Ready(w, p) && DecidesSingle(w, p, now) && w.clock <= now <= t
    ensures Due(Apply(w, Append(p, Prepare), t), Single(p))
  {
    ReadyIsAcceptable(w, p);
    PreparedSameEvidence(w, p, t);
    SingleStillDecided(w, p, now, t);
    SameEvidenceDecides(w, Apply(w, Append(p, Prepare), t), p, t);
  }

  lemma SetIsDue(w: World, p: Plan, t: int)
    requires p.id.channel in w.note && p.id.from != p.id.to
    ensures Due(Apply(w, Step(p)[0], t), Single(p))
  {
  }

  lemma OnePrepared(w: World, p: Plan, ts: seq<int>)
    requires |ts| == 1
    ensures Exec(w, Whole(p), ts) == Apply(w, Append(p, Prepare), ts[0])
  {
  }

  lemma PreparedAndSet(w: World, p: Plan, ts: seq<int>)
    requires |ts| == 2
    ensures Exec(w, Whole(p), ts) == Apply(Apply(w, Append(p, Prepare), ts[0]), Step(p)[0], ts[1])
  {
    var w' := Apply(w, Append(p, Prepare), ts[0]);
    assert Whole(p)[1..] == Step(p);
    assert Exec(w', Step(p), ts[1..]) == Exec(Apply(w', Step(p)[0], ts[1]), Step(p)[1..], ts[1..][1..]);
  }

  lemma ReadyMoves(w: World, p: Plan)
    requires Ready(w, p)
    ensures p.id.from != p.id.to && p.id.channel in w.note
  {
  }

  lemma WholeCutDue(w: World, p: Plan, ts: seq<int>, now: int)
    requires InvAt(w, Idle) && Ready(w, p) && DecidesSingle(w, p, now)
    requires w.clock <= now && 0 < |ts| < 3 && Ticking(now, ts)
    ensures Due(Exec(w, Whole(p), ts), Single(p))
  {
    ReadyMoves(w, p);
    if |ts| == 1 {
      PreparedIsDue(w, p, now, ts[0]);
      OnePrepared(w, p, ts);
    } else {
      SetIsDue(Apply(w, Append(p, Prepare), ts[0]), p, ts[1]);
      PreparedAndSet(w, p, ts);
    }
  }

  lemma RestStillDecided(w: World, w': World, p: Plan, now: int)
    requires DecidesSingle(w, p, now) && SameFor(w, w', p.id.channel) && now <= w'.clock
    ensures DecidesSingle(w', p, w'.clock)
  {
    SingleStillDecided(w, p, now, w'.clock);
    SameEvidenceDecides(w, w', p, w'.clock);
  }

  lemma LaterIsElsewhere(plans: seq<Plan>, q: Plan)
    requires plans != [] && InChannelOrder(plans) && q in plans[1..]
    ensures q in plans && plans[0].id.channel != q.id.channel
  {
    LaterThanFirst(plans, [q]);
  }

  lemma LaterStaysReady(w: World, p: Plan, q: Plan, ts: seq<int>, now: int)
    requires InvAt(w, Idle) && Ready(w, p) && Ready(w, q) && DecidesSingle(w, q, now) && p.id.channel != q.id.channel
    requires w.clock <= now && |ts| == 3 && Ticking(now, ts)
    ensures var w' := Exec(w, Whole(p), ts); w'.clock == ts[2] && Ready(w', q) && DecidesSingle(w', q, ts[2])
  {
    var w' := Exec(w, Whole(p), ts);
    WholeWalks(w, p, ts);
    ExecClock(w, Whole(p), ts);
    OthersUntouched(p, q.id.channel);
    UntouchedByWalk(w, Idle, Whole(p), ts, q.id.channel);
    ReadyElsewhere(w, w', q);
    TickingForward(now, ts);
    RestStillDecided(w, w', q, now);
  }

  /** The state after one whole transition, seen by the plans that come later. */
  lemma RestAfterWhole(w: World, plans: seq<Plan>, ts: seq<int>, now: int)
    requires InvAt(w, Idle) && InChannelOrder(plans) && plans != []
    requires forall p :: p in plans ==> Ready(w, p) && DecidesSingle(w, p, now)
    requires w.clock <= now && |ts| == 3 && Ticking(now, ts)
    ensures var w' := Exec(w, Whole(plans[0]), ts);
            w'.clock == ts[2] && forall q :: q in plans[1..] ==> Ready(w', q) && DecidesSingle(w', q, ts[2])
  {
    assert plans[0] in plans;
    ExecClock(w, Whole(plans[0]), ts);
    forall q | q in plans[1..]
      ensures Ready(Exec(w, Whole(plans[0]), ts), q) && DecidesSingle(Exec(w, Whole(plans[0]), ts), q, ts[2])
    {
      LaterIsElsewhere(plans, q);
      LaterStaysReady(w, plans[0], q, ts, now);
    }
  }

  lemma FirstCutDue(w: World, p: Plan, ts: seq<int>, now: int)
    requires InvAt(w, Idle) && Ready(w, p) && DecidesSingle(w, p, now)
    requires w.clock <= now && 0 < |ts| <= 3 && Ticking(now, ts)
    ensures Walk(w, Idle, Whole(p), ts).Some?
    ensures Due(Exec(w, Whole(p), ts), Walk(w, Idle, Whole(p), ts).value)
  {
    if |ts| < 3 {
      WholeCutDue(w, p, ts, now);
      WholeCut(w, p, ts);
    } else {
      WholeWalks(w, p, ts);
    }
  }

  lemma SecondStart(w: World, p: Plan, ts: seq<int>, now: int)
    requires InvAt(w, Idle) && Ready(w, p) && w.clock <= now && |ts| >= 3 && Ticking(now, ts)
    ensures Walk(w, Idle, Whole(p), ts[..3]) == Some(Idle) && InvAt(Exec(w, Whole(p), ts[..3]), Idle)
    ensures Ticking(now, ts[..3]) && Ticking(ts[2], ts[3..])
  {
    TickingSplits(now, ts, 3);
    WholeWalks(w, p, ts[..3]);
    After(w, Idle, Whole(p), Idle, ts);
  }

  /** A list of single transitions, cut anywhere, leaves the pending one due. */
  lemma {:induction false} UngroupedCutDue(w: World, plans: seq<Plan>, ts: seq<int>, now: int)
    requires InvAt(w, Idle) && InChannelOrder(plans)
    requires forall p :: p in plans ==> Ready(w, p) && DecidesSingle(w, p, now)
    requires w.clock <= now && |ts| <= |UngroupedEffects(plans)| && Ticking(now, ts)
    ensures Walk(w, Idle, UngroupedEffects(plans), ts).Some?
    ensures Due(Exec(w, UngroupedEffects(plans), ts), Walk(w, Idle, UngroupedEffects(plans), ts).value)
    decreases |plans|, 1
  {
    if plans != [] && ts != [] {
      assert plans[0] in plans;
      if |ts| <= 3 {
        var first, rest := Whole(plans[0]), UngroupedEffects(plans[1..]);
        assert UngroupedEffects(plans) == first + rest;
        ExecConcat(w, first, rest, ts);
        WalkCutEarly(w, Idle, first, rest, ts);
        FirstCutDue(w, plans[0], ts, now);
      } else {
        LongCutDue(w, plans, ts, now);
      }
    }
  }

  /** A cut behind the first transition is a cut in the rest of the list. */
  lemma {:induction false} LongCutDue(w: World, plans: seq<Plan>, ts: seq<int>, now: int)
    requires InvAt(w, Idle) && InChannelOrder(plans) && plans != []
    requires forall p :: p in plans ==> Ready(w, p) && DecidesSingle(w, p, now)
    requires w.clock <= now && 3 < |ts| <= |UngroupedEffects(plans)| && Ticking(now, ts)
    ensures Walk(w, Idle, UngroupedEffects(plans), ts).Some?
    ensures Due(Exec(w, UngroupedEffects(plans), ts), Walk(w, Idle, UngroupedEffects(plans), ts).value)
    decreases |plans|, 0
  {
    var next := RestStart(w, plans, ts, now);
    UngroupedCutDue(next, plans[1..], ts[3..], ts[2]);
  }

  /** Where the rest of the list starts, and that it is due there. */
  lemma RestStart(w: World, plans: seq<Plan>, ts: seq<int>, now: int) returns (next: World)
    requires InvAt(w, Idle) && InChannelOrder(plans) && plans != []
    requires forall p :: p in plans ==> Ready(w, p) && DecidesSingle(w, p, now)
    requires w.clock <= now && 3 < |ts| <= |UngroupedEffects(plans)| && Ticking(now, ts)
    ensures InvAt(next, Idle) && InChannelOrder(plans[1..])
    ensures forall p :: p in plans[1..] ==> Ready(next, p) && DecidesSingle(next, p, ts[2])
    ensures next.clock <= ts[2] && |ts[3..]| <= |UngroupedEffects(plans[1..])| && Ticking(ts[2], ts[3..])
    ensures Walk(w, Idle, UngroupedEffects(plans), ts) == Walk(next, Idle, UngroupedEffects(plans[1..]), ts[3..])
    ensures Exec(w, UngroupedEffects(plans), ts) == Exec(next, UngroupedEffects(plans[1..]), ts[3..])
  {
    assert plans[0] in plans;
    SecondStart(w, plans[0], ts, now);
    RestAfterWhole(w, plans, ts[..3], now);
    next := BehindFirst(w, plans, ts);
  }

  lemma BehindFirst(w: World, plans: seq<Plan>, ts: seq<int>) returns (next: World)
    requires plans != [] && 3 < |ts| <= |UngroupedEffects(plans)|
    requires Walk(w, Idle, Whole(plans[0]), ts[..3]) == Some(Idle)
    ensures next == Exec(w, Whole(plans[0]), ts[..3])
    ensures |ts[3..]| <= |UngroupedEffects(plans[1..])|
    ensures Walk(w, Idle, UngroupedEffects(plans), ts) == Walk(next, Idle, UngroupedEffects(plans[1..]), ts[3..])
    ensures Exec(w, UngroupedEffects(plans), ts) == Exec(next, UngroupedEffects(plans[1..]), ts[3..])
  {
    var first, rest := Whole(plans[0]), UngroupedEffects(plans[1..]);
    assert UngroupedEffects(plans) == first + rest;
    ExecConcat(w, first, rest, ts);
    WalkConcat(w, Idle, first, rest, ts);
    next := Exec(w, first, ts[..3]);
  }

  // -------------------------------------------------------------------------
  // One call of a quiet lifetime
  // -------------------------------------------------------------------------

  lemma {:induction false} UngroupedHasNoAborts(plans: seq<Plan>)
    ensures NoAborts(UngroupedEffects(plans))
  {
    if plans != [] {
      UngroupedHasNoAborts(plans[1..]);
    }
  }

  lemma FreshHasNoAborts(txs: Transactions, outcome: Result<Decided, Refusal>)
    ensures NoAborts(FreshRun(txs, outcome).effects)
  {
    if outcome.Ok? {
      UngroupedHasNoAborts(outcome.value.plans);
      DormancyHasNoAborts(outcome.value.plans, outcome.value.plans);
    }
  }

  lemma DecidedIsReproduced(w: World, p: Plan, now: int)
    requires DecidesSingle(w, p, now) && FreshDecision(w, now).Ok?
    ensures p in FreshDecision(w, now).value.plans
  {
    ChosenIsPlanned(w, p, now);
  }

  lemma DueSingleIsReproduced(w: World, p: Plan, now: int)
    requires Due(w, Single(p)) && w.clock <= now && p.id.channel in w.note && w.note[p.id.channel] == p.id.from
    requires FreshDecision(w, now).Ok?
    ensures p in FreshDecision(w, now).value.plans
  {
    SingleStillDecided(w, p, w.clock, now);
    DecidedIsReproduced(w, p, now);
  }

  lemma StepHasNoAborts(p: Plan)
    ensures NoAborts(Step(p)) && NoAborts([Append(p, Commit)]) && NoAborts([])
  {
  }

  lemma DueSingleReport(w: World, p: Plan, outcome: Result<Decided, Refusal>)
    requires InvAt(w, Single(p))
    requires w.note[p.id.channel] == p.id.from && outcome.Ok? ==> p in outcome.value.plans
    ensures NoAborts(RecoverUngrouped(w, p, outcome).effects) && !RecoverUngrouped(w, p, outcome).verdict.Conflict?
  {
    StepHasNoAborts(p);
    if w.note[p.id.channel] != p.id.from {
      ProgramAtTarget(w, p, outcome);
    } else if outcome.Ok? {
      ReproducedSteps(w, p, outcome.value);
    }
  }

  lemma DueSingleHasNoAborts(w: World, p: Plan, now: int)
    requires InvAt(w, Single(p)) && Due(w, Single(p)) && w.clock <= now
    ensures var run := RecoverUngrouped(w, p, FreshDecision(w, now)); NoAborts(run.effects) && !run.verdict.Conflict?
  {
    if w.note[p.id.channel] == p.id.from && FreshDecision(w, now).Ok? {
      DueSingleIsReproduced(w, p, now);
    }
    DueSingleReport(w, p, FreshDecision(w, now));
  }

  lemma ReproducedSteps(w: World, p: Plan, d: Decided)
    requires Wired(w) && p.id.channel in w.note && w.note[p.id.channel] == p.id.from && p.group.None? && p in d.plans
    ensures RecoverUngrouped(w, p, Ok(d)).effects == Step(p) && RecoverUngrouped(w, p, Ok(d)).verdict.Done?
  {
  }

  lemma PendingHasNoAborts(pending: seq<Plan>, first: seq<Effect>)
    requires NoAborts(first)
    ensures NoAborts(first + Appends(pending, Commit))
  {
  }

  lemma DueSourceReport(w: World, ev: Evidence, outcome: Result<Decided, Refusal>)
    requires InvAt(w, Group(ev)) && AllAtSource(ViewOf(w), ev)
    requires NoMemberAborted(w, ev) && outcome.Ok? && outcome.value.plans == MemberPlans(ev)
    ensures var run, plans := RecoverGroup(w, ViewOf(w).txs, ev, outcome), MemberPlans(ev);
            run.verdict.Done? && run.effects == DormancyEffects(plans, WithoutTransaction(plans, ViewOf(w).txs))
  {
    MembersAreActive(w, ev);
    SourceHasNoCommit(ViewOf(w), ev);
    GroupAtSourceProgram(w, ViewOf(w).txs, ev, outcome);
  }

  lemma TargetHasNoAborts(w: World, txs: Transactions, ev: Evidence, outcome: Result<Decided, Refusal>)
    requires Wired(w) && ev.DormancyAgreed? && ev.entries.Keys == w.note.Keys
    requires forall c :: c in w.note ==> w.note[c] == Dormant
    requires WithTerminal(MemberPlans(ev), txs, Some(Abort)) == [] && WithoutTransaction(MemberPlans(ev), txs) == []
    ensures var run := RecoverGroup(w, txs, ev, outcome); run.verdict.Done? && NoAborts(run.effects)
  {
    MembersAreActive(w, ev);
    GroupAtTargetProgram(w, txs, ev, outcome);
    PendingHasNoAborts(WithTerminal(MemberPlans(ev), txs, None),
                       if AwakeCards(w) == {} then [] else [SuspendCards(AwakeCards(w))]);
  }

  lemma DueGroupOutcome(w: World, ev: Evidence, now: int)
    requires Readable(w) && Due(w, Group(ev)) && w.clock <= now && AllAtSource(ViewOf(w), ev) && ev.DormancyAgreed?
    ensures NoMemberAborted(w, ev) && DecidesGroup(w, MemberPlans(ev), now)
    ensures FreshDecision(w, now).Ok? && FreshDecision(w, now).value.plans == MemberPlans(ev)
  {
    GroupStillDecided(w, MemberPlans(ev), w.clock, now);
  }

  lemma DueGroupHasNoAborts(w: World, ev: Evidence, now: int)
    requires InvAt(w, Group(ev)) && Due(w, Group(ev)) && w.clock <= now
    ensures var run := RecoverGroup(w, ViewOf(w).txs, ev, FreshDecision(w, now));
            NoAborts(run.effects) && run.verdict.Done?
  {
    if AllAtSource(ViewOf(w), ev) {
      DueGroupOutcome(w, ev, now);
      DueSourceReport(w, ev, FreshDecision(w, now));
      DormancyHasNoAborts(MemberPlans(ev), WithoutTransaction(MemberPlans(ev), ViewOf(w).txs));
    } else {
      TargetIsPrepared(ViewOf(w), ev);
      TargetHasNoAborts(w, ViewOf(w).txs, ev, FreshDecision(w, now));
    }
  }

  /** A call that would decide its pending work again has no ABORT in its program. */
  lemma DueCallHasNoAborts(w: World, stage: Stage, now: int)
    requires InvAt(w, stage) && Due(w, stage) && w.clock <= now
    ensures NoAborts(Reconcile(w, now).effects) && !Reconcile(w, now).verdict.Conflict?
  {
    CallIsProgram(w, stage, now);
    match stage
    case Idle =>
      FreshHasNoAborts(ViewOf(w).txs, FreshDecision(w, now));
      IdleReport(ViewOf(w).txs, FreshDecision(w, now));
    case Single(p) => DueSingleHasNoAborts(w, p, now);
    case Group(ev) => DueGroupHasNoAborts(w, ev, now);
  }

  lemma DueFreshGroup(w: World, now: int, ts: seq<int>)
    requires InvAt(w, Idle) && FreshDecision(w, now).Ok? && w.clock <= now
    requires DormancyDue(Observe(w, now).value, Planned(Observe(w, now).value, now), now)
    requires forall p :: p in FreshDecision(w, now).value.plans ==> p.id !in ViewOf(w).txs
    requires var plans := FreshDecision(w, now).value.plans; 0 < |ts| <= |DormancyEffects(plans, plans)|
    requires Ticking(now, ts)
    ensures var plans := FreshDecision(w, now).value.plans;
            var es := DormancyEffects(plans, plans);
            Walk(w, Idle, es, ts).Some? && Due(Exec(w, es, ts), Walk(w, Idle, es, ts).value)
  {
    DueFromStores(w, now);
    var ev := DormancyEvidence(Observe(w, now).value);
    FreshGroupJoins(ViewOf(w), ev);
    FreshGroupDecides(w, now, ev);
    FreshMembersUnaborted(w, ev);
    DormancyCutDue(w, Idle, ev, MemberPlans(ev), ts, now);
  }

  lemma FreshGroupDecides(w: World, now: int, ev: Evidence)
    requires Wired(w) && FreshDecision(w, now).Ok? && ev.DormancyAgreed? && ev.entries.Keys == w.note.Keys
    requires FreshDecision(w, now).value.plans == MemberPlans(ev)
    ensures DecidesGroup(w, MemberPlans(ev), now)
  {
    MembersOf(ev, w.note.Keys);
    FreshIsValid(w, now);
    assert MemberPlans(ev)[0] in MemberPlans(ev);
    SuspendsWithGroup(Observe(w, now).value, FreshDecision(w, now).value);
  }

  lemma FreshMembersUnaborted(w: World, ev: Evidence)
    requires Readable(w) && ev.DormancyAgreed? && forall p :: p in MemberPlans(ev) ==> p.id !in ViewOf(w).txs
    ensures NoMemberAborted(w, ev)
  {
    NoTerminals(MemberPlans(ev), ViewOf(w).txs, Some(Abort));
  }

  lemma DueFreshSingles(w: World, now: int, ts: seq<int>)
    requires InvAt(w, Idle) && FreshDecision(w, now).Ok? && w.clock <= now
    requires var planned := Planned(Observe(w, now).value, now);
             && (forall p :: p in planned ==> p.id !in ViewOf(w).txs)
             && |ts| <= |UngroupedEffects(planned)|
    requires Ticking(now, ts)
    ensures var es := UngroupedEffects(Planned(Observe(w, now).value, now));
            Walk(w, Idle, es, ts).Some? && Due(Exec(w, es, ts), Walk(w, Idle, es, ts).value)
  {
    var planned := Planned(Observe(w, now).value, now);
    PlannedAreReady(w, now);
    forall p | p in planned ensures DecidesSingle(w, p, now) {
      PlannedFromStores(w, now, p);
      PlannedIsReadable(w, now, p.id.channel);
    }
    UngroupedCutDue(w, planned, ts, now);
  }

  lemma PlannedIsReadable(w: World, now: int, c: Channel)
    requires Wired(w) && FreshDecision(w, now).Ok? && c in w.note
    ensures Rv.CardReadable(w.reviews[c], now)
  {
  }

  lemma DueFresh(w: World, now: int, ts: seq<int>)
    requires InvAt(w, Idle) && w.clock <= now
    requires 0 < |ts| <= |FreshRun(ViewOf(w).txs, FreshDecision(w, now)).effects| && Ticking(now, ts)
    ensures var es := FreshRun(ViewOf(w).txs, FreshDecision(w, now)).effects;
            Walk(w, Idle, es, ts).Some? && Due(Exec(w, es, ts), Walk(w, Idle, es, ts).value)
  {
    FreshProgram(w, ViewOf(w).txs, now);
    if DormancyDue(Observe(w, now).value, Planned(Observe(w, now).value, now), now) {
      DueFreshGroup(w, now, ts);
    } else {
      DueFreshSingles(w, now, ts);
    }
  }

  lemma DueSingleCut(w: World, p: Plan, outcome: Result<Decided, Refusal>, ts: seq<int>)
    requires InvAt(w, Single(p))
    requires w.note[p.id.channel] == p.id.from && outcome.Ok? ==> p in outcome.value.plans
    requires 0 < |ts| <= |RecoverUngrouped(w, p, outcome).effects| && Ticking(w.clock, ts)
    ensures var es := RecoverUngrouped(w, p, outcome).effects;
            Walk(w, Single(p), es, ts).Some? && Due(Exec(w, es, ts), Walk(w, Single(p), es, ts).value)
  {
    SingleWalks(w, p, outcome, ts);
    if |ts| < |RecoverUngrouped(w, p, outcome).effects| {
      if w.note[p.id.channel] != p.id.from {
        ProgramAtTarget(w, p, outcome);
      } else {
        DueStepCut(w, p, outcome, ts);
      }
    }
  }

  lemma DueStepCut(w: World, p: Plan, outcome: Result<Decided, Refusal>, ts: seq<int>)
    requires InvAt(w, Single(p)) && w.note[p.id.channel] == p.id.from
    requires outcome.Ok? ==> p in outcome.value.plans
    requires 0 < |ts| < |RecoverUngrouped(w, p, outcome).effects| && Ticking(w.clock, ts)
    ensures var es := RecoverUngrouped(w, p, outcome).effects;
            Walk(w, Single(p), es, ts) == Some(Single(p)) && Due(Exec(w, es, ts), Single(p))
  {
    SingleIsUngrouped(w, p);
    ReproducedSteps(w, p, outcome.value);
    StepCutDue(w, p, ts);
  }

  lemma SingleIsUngrouped(w: World, p: Plan)
    requires InvAt(w, Single(p))
    ensures p.group.None? && p.id.channel in w.note && p.id.from != p.id.to
  {
    EdgesMove(ViewOf(w), Single(p));
  }

  lemma StepCutDue(w: World, p: Plan, ts: seq<int>)
    requires InvAt(w, Single(p)) && w.note[p.id.channel] == p.id.from && |ts| == 1 && Ticking(w.clock, ts)
    ensures Walk(w, Single(p), Step(p), ts) == Some(Single(p)) && Due(Exec(w, Step(p), ts), Single(p))
  {
    SingleIsUngrouped(w, p);
    StepCut(w, p, ts);
    SetIsDue(w, p, ts[0]);
  }

  lemma DueSourceCut(w: World, ev: Evidence, now: int, ts: seq<int>)
    requires InvAt(w, Group(ev)) && Due(w, Group(ev)) && AllAtSource(ViewOf(w), ev) && w.clock <= now
    requires 0 < |ts| <= |RecoverGroup(w, ViewOf(w).txs, ev, FreshDecision(w, now)).effects| && Ticking(now, ts)
    ensures var es := RecoverGroup(w, ViewOf(w).txs, ev, FreshDecision(w, now)).effects;
            Walk(w, Group(ev), es, ts).Some? && Due(Exec(w, es, ts), Walk(w, Group(ev), es, ts).value)
  {
    DueGroupOutcome(w, ev, now);
    DueSourceReport(w, ev, FreshDecision(w, now));
    UnfinishedJoins(ViewOf(w), ev);
    DormancyCutDue(w, Group(ev), ev, WithoutTransaction(MemberPlans(ev), ViewOf(w).txs), ts, now);
  }

  /** Nothing but suspensions and COMMITs. */
  predicate OnlyFinishes(es: seq<Effect>) {
    forall e :: e in es ==> !e.SetStates? && (e.Append? ==> e.phase == Commit)
  }

  lemma StaysMoved(w: World, stage: Stage, es: seq<Effect>, ts: seq<int>)
    requires InvAt(w, stage) && !stage.Single? && (forall c :: c in w.note ==> w.note[c] == Dormant)
    requires OnlyFinishes(es) && |ts| <= |es| && Walk(w, stage, es, ts).Some?
    ensures Due(Exec(w, es, ts), Walk(w, stage, es, ts).value)
  {
    NoteKept(w, es, ts);
    NeverSingle(w, stage, es, ts);
    WalkKeepsInvariant(w, stage, es, ts);
    MovedIsDue(Exec(w, es, ts), Walk(w, stage, es, ts).value);
  }

  lemma SuspensionAndCommitsFinish(awake: set<Channel>, pending: seq<Plan>)
    ensures OnlyFinishes((if awake == {} then [] else [SuspendCards(awake)]) + Appends(pending, Commit))
  {
  }

  lemma TargetProgram(w: World, ev: Evidence, outcome: Result<Decided, Refusal>)
    requires InvAt(w, Group(ev)) && !AllAtSource(ViewOf(w), ev)
    ensures AllIn(ViewOf(w), Dormant)
    ensures RecoverGroup(w, ViewOf(w).txs, ev, outcome).effects
         == (if AwakeCards(w) == {} then [] else [SuspendCards(AwakeCards(w))])
            + Appends(WithTerminal(MemberPlans(ev), ViewOf(w).txs, None), Commit)
  {
    MembersAreActive(w, ev);
    TargetIsPrepared(ViewOf(w), ev);
    GroupAtTargetProgram(w, ViewOf(w).txs, ev, outcome);
  }

  lemma TargetFinishes(w: World, ev: Evidence, outcome: Result<Decided, Refusal>)
    requires InvAt(w, Group(ev)) && !AllAtSource(ViewOf(w), ev)
    ensures AllIn(ViewOf(w), Dormant) && OnlyFinishes(RecoverGroup(w, ViewOf(w).txs, ev, outcome).effects)
  {
    TargetProgram(w, ev, outcome);
    SuspensionAndCommitsFinish(AwakeCards(w), WithTerminal(MemberPlans(ev), ViewOf(w).txs, None));
  }

  lemma TargetCutWalks(w: World, ev: Evidence, outcome: Result<Decided, Refusal>, ts: seq<int>)
    requires InvAt(w, Group(ev)) && Ticking(w.clock, ts)
    requires 0 < |ts| <= |RecoverGroup(w, ViewOf(w).txs, ev, outcome).effects|
    ensures Walk(w, Group(ev), RecoverGroup(w, ViewOf(w).txs, ev, outcome).effects, ts).Some?
  {
    GroupWalks(w, ev, outcome, ts);
  }

  lemma DueTargetCut(w: World, ev: Evidence, outcome: Result<Decided, Refusal>, ts: seq<int>)
    requires InvAt(w, Group(ev)) && !AllAtSource(ViewOf(w), ev)
    requires 0 < |ts| <= |RecoverGroup(w, ViewOf(w).txs, ev, outcome).effects| && Ticking(w.clock, ts)
    ensures var es := RecoverGroup(w, ViewOf(w).txs, ev, outcome).effects;
            Walk(w, Group(ev), es, ts).Some? && Due(Exec(w, es, ts), Walk(w, Group(ev), es, ts).value)
  {
    TargetFinishes(w, ev, outcome);
    TargetCutWalks(w, ev, outcome, ts);
    StaysMoved(w, Group(ev), RecoverGroup(w, ViewOf(w).txs, ev, outcome).effects, ts);
  }

  lemma DueProgramCut(w: World, stage: Stage, now: int, ts: seq<int>)
    requires InvAt(w, stage) && Due(w, stage) && w.clock <= now
    requires 0 < |ts| <= |ProgramAt(w, stage, FreshDecision(w, now)).effects| && Ticking(now, ts)
    ensures var es := ProgramAt(w, stage, FreshDecision(w, now)).effects;
            Walk(w, stage, es, ts).Some? && Due(Exec(w, es, ts), Walk(w, stage, es, ts).value)
  {
    match stage
    case Idle => DueFresh(w, now, ts);
    case Single(p) =>
      if w.note[p.id.channel] == p.id.from && FreshDecision(w, now).Ok? {
        DueSingleIsReproduced(w, p, now);
      }
      DueSingleCut(w, p, FreshDecision(w, now), ts);
    case Group(ev) =>
      if AllAtSource(ViewOf(w), ev) {
        DueSourceCut(w, ev, now, ts);
      } else {
        DueTargetCut(w, ev, FreshDecision(w, now), ts);
      }
  }

  /** A call cut anywhere leaves what is pending due. */
  lemma CallKeepsDue(w: World, stage: Stage, now: int, ts: seq<int>)
    requires InvAt(w, stage) && Due(w, stage) && w.clock <= now
    requires |ts| <= |Reconcile(w, now).effects| && Ticking(now, ts)
    ensures var es := Reconcile(w, now).effects;
            && Walk(w, stage, es, ts).Some?
            && InvAt(Exec(w, es, ts), Walk(w, stage, es, ts).value)
            && Due(Exec(w, es, ts), Walk(w, stage, es, ts).value)
  {
    CallWalks(w, stage, now, ts);
    CallIsProgram(w, stage, now);
    if ts != [] {
      DueProgramCut(w, stage, now, ts);
    }
  }

  // -------------------------------------------------------------------------
  // Quiet lifetimes
  // -------------------------------------------------------------------------

  /** Only calls and time; each call reads the clock that its records are stamped with. */
  ghost predicate QuietMove(w: World, m: Move) {
    match m
    case TimePasses(_) => true
    case ReconcileCall(now, instants) => w.clock <= now && Ticking(now, instants)
    case _ => false
  }

  ghost predicate QuietLife(w: World, moves: seq<Move>, w': World)
    decreases |moves|
  {
    if moves == [] then w == w'
    else Wired(w) && Legal(w, moves[0]) && QuietMove(w, moves[0]) && QuietLife(Do(w, moves[0]), moves[1..], w')
  }

  ghost predicate DueSomewhere(w: World) {
    exists stage :: InvAt(w, stage) && Due(w, stage)
  }

  lemma TimeKeepsDue(w: World, stage: Stage, clock: int)
    requires InvAt(w, stage) && Due(w, stage) && w.clock <= clock
    ensures InvAt(w.(clock := clock), stage) && Due(w.(clock := clock), stage)
  {
    var w' := w.(clock := clock);
    SurroundingsKeepInvariant(w, stage, TimePasses(clock));
    match stage
    case Idle =>
    case Single(p) => if w.note[p.id.channel] == p.id.from {
      SingleStillDecided(w, p, w.clock, clock);
      SameEvidenceDecides(w, w', p, clock);
    }
    case Group(ev) => if AllAtSource(ViewOf(w), ev) { TimeKeepsGroup(w, ev, clock); }
  }

  lemma TimeKeepsGroup(w: World, ev: Evidence, clock: int)
    requires Readable(w) && Readable(w.(clock := clock)) && ev.DormancyAgreed? && w.clock <= clock
    requires DecidesGroup(w, MemberPlans(ev), w.clock) && NoMemberAborted(w, ev)
    ensures DecidesGroup(w.(clock := clock), MemberPlans(ev), clock) && NoMemberAborted(w.(clock := clock), ev)
  {
    GroupStillDecided(w, MemberPlans(ev), w.clock, clock);
    SameStoresDecide(w, w.(clock := clock), MemberPlans(ev), clock);
  }

  lemma QuietMoveKeepsDue(w: World, m: Move)
    requires Wired(w) && Legal(w, m) && QuietMove(w, m) && DueSomewhere(w)
    ensures DueSomewhere(Do(w, m))
    ensures forall id :: Logged(Do(w, m).log, id, Abort) ==> Logged(w.log, id, Abort)
  {
    var stage :| InvAt(w, stage) && Due(w, stage);
    match m
    case TimePasses(clock) => TimeKeepsDue(w, stage, clock);
    case ReconcileCall(now, instants) =>
      CallKeepsDue(w, stage, now, instants);
      DueCallHasNoAborts(w, stage, now);
      forall id | Logged(Do(w, m).log, id, Abort) ensures Logged(w.log, id, Abort) {
        NoNewAborts(w, Reconcile(w, now).effects, instants, id);
      }
  }

  /**
   * Without new evidence no lifetime aborts anything, however often and
   * wherever its calls are cut.
   */
  lemma {:induction false} QuietLifeAbortsNothing(w: World, moves: seq<Move>, w': World)
    requires DueSomewhere(w) && QuietLife(w, moves, w')
    ensures DueSomewhere(w')
    ensures forall id :: Logged(w'.log, id, Abort) ==> Logged(w.log, id, Abort)
    decreases |moves|
  {
    if moves != [] {
      QuietMoveKeepsDue(w, moves[0]);
      QuietLifeAbortsNothing(Do(w, moves[0]), moves[1..], w');
    }
  }

  lemma {:induction false} RecordsStay(w: World, es: seq<Effect>, ts: seq<int>, id: TransitionId, phase: Phase)
    requires |ts| <= |es| && Logged(w.log, id, phase)
    ensures Logged(Exec(w, es, ts).log, id, phase)
    decreases |ts|
  {
    if ts != [] {
      var log' := Apply(w, es[0], ts[0]).log;
      if es[0].Append? {
        LoggedAppends(log', id, phase);
        assert log'[..|log'| - 1] == w.log;
      }
      RecordsStay(Apply(w, es[0], ts[0]), es[1..], ts[1..], id, phase);
    }
  }

  lemma FinishedIsCommitted(log: seq<Entry>, id: TransitionId)
    requires Fold(log).Some? && Logged(log, id, Prepare) && !Logged(log, id, Abort) && id !in Pending(Fold(log).value)
    ensures Logged(log, id, Commit)
  {
    FoldMeaning(log, id);
    NotPending(Fold(log).value, id);
    EveryTerminal(Fold(log).value[id].terminal);
  }

  /** The next call never aborts what a cut left prepared, and stops only at evidence that cannot be read. */
  lemma CutCallIsNotAborted(w: World, stage: Stage, now: int)
    requires InvAt(w, stage) && Due(w, stage) && w.clock <= now && stage != Idle
    ensures match Reconcile(w, now).verdict
            case Done(_, _, _, _) => true
            case Refused(why) => EvidenceProblem(why)
            case Conflict(_) => false
  {
    DueCallHasNoAborts(w, stage, now);
    if Reconcile(w, now).verdict.Refused? {
      OnlyEvidenceStopsACall(w, stage, now);
    }
  }

  /** If it gets through, everything that was pending is committed. */
  lemma CutCallIsFinished(w: World, stage: Stage, now: int, ts: seq<int>)
    requires InvAt(w, stage) && Due(w, stage) && w.clock <= now && Reconcile(w, now).verdict.Done?
    requires |ts| == |Reconcile(w, now).effects| && Ticking(w.clock, ts)
    ensures forall id :: id in Pending(Fold(w.log).value) ==>
                           Logged(Exec(w, Reconcile(w, now).effects, ts).log, id, Commit)
  {
    var es := Reconcile(w, now).effects;
    DueCallHasNoAborts(w, stage, now);
    CallThatGetsThrough(w, stage, now, ts);
    forall id | id in Pending(Fold(w.log).value) ensures Logged(Exec(w, es, ts).log, id, Commit) {
      PendingIsFinished(w, es, ts, id);
    }
  }

  lemma PendingIsFinished(w: World, es: seq<Effect>, ts: seq<int>, id: TransitionId)
    requires Fold(w.log).Some? && id in Pending(Fold(w.log).value) && NoAborts(es) && |ts| <= |es|
    requires InvAt(Exec(w, es, ts), Idle)
    ensures Logged(Exec(w, es, ts).log, id, Commit)
  {
    FoldMeaning(w.log, id);
    RecordsStay(w, es, ts, id, Prepare);
    if Logged(Exec(w, es, ts).log, id, Abort) {
      NoNewAborts(w, es, ts, id);
    }
    FinishedIsCommitted(Exec(w, es, ts).log, id);
  }

  /** A group that a cut left pending is always finished: its evidence was read when it was decided. */
  lemma CutGroupIsFinished(w: World, ev: Evidence, now: int)
    requires InvAt(w, Group(ev)) && Due(w, Group(ev)) && w.clock <= now
    ensures Reconcile(w, now).verdict.Done?
  {
    CallIsProgram(w, Group(ev), now);
    DueGroupHasNoAborts(w, ev, now);
  }
}
