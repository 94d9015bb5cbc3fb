/**
 * What the invariant means for the journal, the note and the cards, and exactly
 * when a call with nothing pending refuses its own decision.
 */
module Consequences {
  import opened Wrappers
  import opened Lifecycle
  import opened Journal
  import opened Observation
  import opened Decision
  import opened DecisionFacts
  import opened Protocol
  import opened Safety
  import opened Recovery
  import opened Lifetime
  import opened Quiet

  // -------------------------------------------------------------------------
  // The journal of a reachable deployment
  // -------------------------------------------------------------------------

  lemma RecordIsTransaction(log: seq<Entry>, i: nat)
    requires Fold(log).Some? && i < |log| && log[i].StateEntry?
    ensures log[i].plan.id in Fold(log).value && Fold(log).value[log[i].plan.id].plan == log[i].plan
    ensures log[i].phase != Prepare ==> Fold(log).value[log[i].plan.id].terminal == Some(log[i].phase)
  {
    PreparedPlanKept(log, i);
    FoldMeaning(log, log[i].plan.id);
    assert Holds(log, i, log[i].plan.id, log[i].phase);
  }

  /** No group has a COMMIT for one member and an ABORT for another. */
  lemma NoSplitGroups(w: World, i: nat, j: nat)
    requires Invariant(w) && i < |w.log| && j < |w.log|
    requires w.log[i].StateEntry? && w.log[j].StateEntry?
    requires w.log[i].plan.group.Some? && w.log[i].plan.group == w.log[j].plan.group
    ensures !(w.log[i].phase == Commit && w.log[j].phase == Abort)
  {
    var stage :| InvAt(w, stage);
    RecordIsTransaction(w.log, i);
    RecordIsTransaction(w.log, j);
    NeverMixed(ViewOf(w));
  }

  /** A committed group has prepared every channel of the unit. */
  lemma CommittedGroupIsWhole(w: World, i: nat, c: Channel)
    requires Invariant(w) && i < |w.log| && w.log[i].StateEntry? && w.log[i].phase == Commit
    requires w.log[i].plan.group.Some?
    requires c in w.note
    ensures var ev := w.log[i].plan.id.evidence;
            && ev.DormancyAgreed? && c in ev.entries
            && Logged(w.log, MemberId(ev, c), Prepare) && !Logged(w.log, MemberId(ev, c), Abort)
  {
    var stage :| InvAt(w, stage);
    var id := w.log[i].plan.id;
    RecordIsTransaction(w.log, i);
    assert PlanShape(w.note.Keys, ViewOf(w).txs[id].plan);
    assert CommittedMember(ViewOf(w).txs, id);
    assert MemberStands(ViewOf(w).txs, id.evidence, c);
    FoldMeaning(w.log, MemberId(id.evidence, c));
  }

  /** First reviews, lapses, failures and relapse reviews are never given up. */
  lemma IrrevocableIsNeverAborted(w: World, i: nat)
    requires Invariant(w) && w.reviewsInOrder && i < |w.log| && w.log[i].StateEntry? && w.log[i].phase == Abort
    ensures !Irrevocable(w.log[i].plan)
  {
    var stage :| InvAt(w, stage);
    RecordIsTransaction(w.log, i);
  }

  /**
   * From the records of any non-empty part of a group, reconstruction yields the
   * group's whole tuple of plans, and no other evidence describes them.
   */
  lemma AnyPartReconstructs(ev: Evidence, txs: Transactions, id: TransitionId)
    requires ev.DormancyAgreed? && ev.entries.Keys != {}
    requires forall j :: j in txs && txs[j].plan.group == Some(MemberGroup(ev)) ==>
               j.channel in ev.entries && txs[j].plan == MemberPlan(ev, j.channel)
    requires id in txs && txs[id].plan.id == id && txs[id].plan.group == Some(MemberGroup(ev))
    ensures Describes(id.evidence, MemberGroup(ev), txs) && MemberPlans(id.evidence) == MemberPlans(ev)
    ensures forall other :: Describes(other, MemberGroup(ev), txs) ==> other == ev
  {
    forall other | Describes(other, MemberGroup(ev), txs) ensures other == ev {
      GroupNamesEvidence(ev, other);
    }
  }

  // -------------------------------------------------------------------------
  // The note of a reachable deployment
  // -------------------------------------------------------------------------

  /** The channel's note holds the end of its committed chain. */
  predicate NoteFollows(w: World, c: Channel) {
    c in w.note && Replay(w.log, c).Some? && Replay(w.log, c).value.state == w.note[c]
  }

  /** A prepared, unfinished transition of the channel accounts for what its note holds. */
  ghost predicate Underway(w: World, c: Channel, p: Plan) {
    && p.id.channel == c && c in w.note && Replay(w.log, c).Some?
    && Logged(w.log, p.id, Prepare) && !Logged(w.log, p.id, Commit) && !Logged(w.log, p.id, Abort)
    && Continues(Replay(w.log, c).value, p)
    && w.note[c] == p.id.to
  }

  lemma UnderwayAtTarget(w: World, c: Channel, p: Plan)
    requires Readable(w) && c in w.note && Open(ViewOf(w).txs, p) && p.id.channel == c
    requires Continues(ViewOf(w).at[c], p) && w.note[c] == p.id.to
    ensures Underway(w, c, p)
  {
    FoldMeaning(w.log, p.id);
  }

  /**
   * Every channel's note holds the end of its committed chain, or the target of
   * the one prepared transition that would extend it.
   */
  lemma NoteFollowsOrIsUnderway(w: World, c: Channel)
    requires Invariant(w) && c in w.note
    ensures NoteFollows(w, c) || exists p :: Underway(w, c, p)
  {
    var stage :| InvAt(w, stage);
    match stage
    case Idle => assert Agrees(ViewOf(w), c);
    case Single(p) =>
      if c == p.id.channel && w.note[c] == p.id.to {
        UnderwayAtTarget(w, c, p);
      } else if c != p.id.channel {
        assert Agrees(ViewOf(w), c);
      }
    case Group(ev) => GroupFollowsOrIsUnderway(w, ev, c);
  }

  lemma GroupFollowsOrIsUnderway(w: World, ev: Evidence, c: Channel)
    requires InvAt(w, Group(ev)) && c in w.note
    ensures NoteFollows(w, c) || exists p :: Underway(w, c, p)
  {
    var v := ViewOf(w);
    if AllAtSource(v, ev) {
      assert SourceMember(v, ev, c);
    } else {
      assert TargetMember(v, ev, c);
      if v.txs[MemberId(ev, c)].terminal != Some(Commit) {
        TargetIsOpen(v, ev, c);
        UnderwayAtTarget(w, c, MemberPlan(ev, c));
      }
    }
  }

  lemma TargetIsOpen(v: View, ev: Evidence, c: Channel)
    requires ShapesOk(v.note.Keys, v.txs) && TargetMember(v, ev, c) && ev.entries.Keys == v.note.Keys
    requires v.txs[MemberId(ev, c)].terminal != Some(Commit)
    ensures Open(v.txs, MemberPlan(ev, c)) && Continues(v.at[c], MemberPlan(ev, c))
  {
    EveryTerminal(v.txs[MemberId(ev, c)].terminal);
    OpenAsPlanned(v, ev, MemberPlan(ev, c));
  }

  // -------------------------------------------------------------------------
  // The cards of a group
  // -------------------------------------------------------------------------

  lemma {:induction false} ReachedIsAllowed(w: World, stage: Stage, es: seq<Effect>, ts: seq<int>, k: nat)
    requires k < |ts| <= |es| && Walk(w, stage, es, ts).Some?
    ensures Walk(w, stage, es, ts[..k]).Some?
    ensures Allowed(Exec(w, es, ts[..k]), Walk(w, stage, es, ts[..k]).value, es[k])
    decreases |ts|
  {
    if k > 0 {
      ReachedIsAllowed(Apply(w, es[0], ts[0]), StageAfter(ViewOf(w), stage, es[0]), es[1..], ts[1..], k - 1);
      assert ts[..k][0] == ts[0] && ts[..k][1..] == ts[1..][..k - 1];
      assert Exec(w, es, ts[..k]) == Exec(Apply(w, es[0], ts[0]), es[1..], ts[1..][..k - 1]);
    }
  }

  lemma GroupCommitAllowed(w: World, stage: Stage, p: Plan)
    requires InvAt(w, stage) && Allowed(w, stage, Append(p, Commit)) && p.group.Some?
    ensures AllIn(ViewOf(w), Dormant) && AllSuspended(w)
  {
  }

  lemma SuspensionAllowed(w: World, stage: Stage, cards: set<Channel>)
    requires Allowed(w, stage, SuspendCards(cards))
    ensures AllIn(ViewOf(w), Dormant)
  {
  }

  /**
   * Wherever a call appends the COMMIT of a group member, the whole note is
   * DORMANT and every card suspended at that moment; and cards are only
   * suspended once the whole note is DORMANT.
   */
  lemma CommitsWaitForCards(w: World, stage: Stage, now: int, ts: seq<int>, k: nat)
    requires InvAt(w, stage) && k < |ts| <= |Reconcile(w, now).effects| && Ticking(w.clock, ts)
    ensures var es := Reconcile(w, now).effects;
            var here := Exec(w, es, ts[..k]);
            && (es[k].Append? && es[k].phase == Commit && es[k].plan.group.Some? ==>
                  (forall c :: c in here.note ==> here.note[c] == Dormant) && AllSuspended(here))
            && (es[k].SuspendCards? ==> forall c :: c in here.note ==> here.note[c] == Dormant)
  {
    var es := Reconcile(w, now).effects;
    CallWalks(w, stage, now, ts);
    ReachedIsAllowed(w, stage, es, ts, k);
    WalkKeepsInvariant(w, stage, es, ts[..k]);
    var here, at := Exec(w, es, ts[..k]), Walk(w, stage, es, ts[..k]).value;
    match es[k]
    case Append(p, Commit) => if p.group.Some? { GroupCommitAllowed(here, at, p); }
    case SuspendCards(cards) => SuspensionAllowed(here, at, cards);
    case _ =>
  }

  // -------------------------------------------------------------------------
  // A decision that was tried before
  // -------------------------------------------------------------------------

  /** How many transitions led to the episode. */
  function Depth(e: Episode): nat {
    match e
    case InitialNew(_) => 0
    case Entered(id) => Depth(id.episode) + 1
  }

  /** Committed transitions left earlier episodes than the one the chain is in. */
  lemma {:induction false} CommitsLieBehind(log: seq<Entry>, c: Channel, i: nat)
    requires Replay(log, c).Some? && i < |log| && CommitsOn(log[i], c)
    ensures Depth(log[i].plan.id.episode) < Depth(Replay(log, c).value.episode)
  {
    var init := log[..|log| - 1];
    if i < |init| {
      CommitsLieBehind(init, c, i);
    }
  }

  lemma CurrentIsNotCommitted(w: World, p: Plan)
    requires Readable(w) && p.id.channel in w.note && Continues(Replay(w.log, p.id.channel).value, p)
    ensures !Logged(w.log, p.id, Commit)
  {
    if Logged(w.log, p.id, Commit) {
      var i: nat :| Holds(w.log, i, p.id, Commit);
      CommitsLieBehind(w.log, p.id.channel, i);
    }
  }

  /** With nothing pending, an identity that still fits its chain was either never tried or aborted. */
  lemma TriedMeansAborted(w: World, p: Plan)
    requires InvAt(w, Idle) && p.id.channel in w.note && Continues(Replay(w.log, p.id.channel).value, p)
    ensures p.id in ViewOf(w).txs <==> Logged(w.log, p.id, Abort)
  {
    FoldMeaning(w.log, p.id);
    CurrentIsNotCommitted(w, p);
    if p.id in ViewOf(w).txs {
      NotPending(ViewOf(w).txs, p.id);
      EveryTerminal(ViewOf(w).txs[p.id].terminal);
    }
  }

  lemma DecidedFitsChain(w: World, now: int, p: Plan)
    requires Readable(w) && FreshDecision(w, now).Ok? && p in FreshDecision(w, now).value.plans
    ensures p.id.channel in w.note && Continues(Replay(w.log, p.id.channel).value, p)
  {
    FreshIsValid(w, now);
    ObservedChannels(w, now);
    assert SourceCurrent(Observe(w, now).value, p);
  }

  /**
   * A call with nothing pending refuses its decision exactly when the decision
   * repeats a transition that was aborted.
   */
  lemma RefusedExactlyWhenAborted(w: World, now: int)
    requires InvAt(w, Idle) && w.clock <= now
    ensures Reconcile(w, now).verdict == Refused(IdentityReused) <==>
            && FreshDecision(w, now).Ok?
            && exists p :: p in FreshDecision(w, now).value.plans && Logged(w.log, p.id, Abort)
  {
    CallIsProgram(w, Idle, now);
    if FreshDecision(w, now).Ok? {
      forall p | p in FreshDecision(w, now).value.plans ensures p.id in ViewOf(w).txs <==> Logged(w.log, p.id, Abort) {
        DecidedFitsChain(w, now, p);
        TriedMeansAborted(w, p);
      }
    }
    IdleReport(ViewOf(w).txs, FreshDecision(w, now));
  }

  /** A refused decision stays refused for as long as the evidence stays the same. */
  lemma RefusalLasts(w: World, now: int, later: int)
    requires InvAt(w, Idle) && w.clock <= now <= later
    requires Reconcile(w, now).verdict == Refused(IdentityReused)
    ensures Reconcile(w, later) == Refuse(IdentityReused)
  {
    CallIsProgram(w, Idle, now);
    CallIsProgram(w, Idle, later);
    IdleReport(ViewOf(w).txs, FreshDecision(w, now));
    FreshIsDecided(w, now);
    DecisionsStableInTime(w, now, later);
    DecisionsMaterialize(Observe(w, later).value, later);
  }
}
