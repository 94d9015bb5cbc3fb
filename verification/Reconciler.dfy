/**
 * The reconciler itself: one unit's two stores, changed effect by effect. Every
 * durable effect may fail before it is applied or after, and every read may
 * fail; a call then stops where it is, and stops nowhere else. Each method is
 * tied to the program of effects that it carries out.
 */
module Reconciler {
  import opened Wrappers
  import opened Faults
  import opened Lifecycle
  import opened Journal
  import opened Observation
  import opened Decision
  import opened Protocol
  import opened Safety
  import opened Recovery
  import opened Lifetime
  import opened Outcomes
  import Rv = Revlog

  /** `after` is where the first `|ts|` effects lead; `ok` says that nothing failed. */
  ghost predicate Did(before: World, after: World, es: seq<Effect>, ts: seq<int>, ok: bool) {
    && |ts| <= |es| && Ticking(before.clock, ts)
    && after == Exec(before, es, ts)
    && (ok ==> |ts| == |es|)
  }

  lemma DidMore(before: World, after: World, a: seq<Effect>, b: seq<Effect>, ts: seq<int>)
    requires Did(before, after, a, ts, false)
    ensures Did(before, after, a + b, ts, false)
  {
    Runs.ExecConcat(before, a, b, ts);
  }

  lemma {:induction false} TickingOn(clock: int, first: seq<int>, next: seq<int>)
    requires Ticking(clock, first) && Ticking(if first == [] then clock else first[|first| - 1], next)
    ensures Ticking(clock, first + next)
    decreases |first|
  {
    if first == [] {
      assert first + next == next;
    } else {
      if |first| > 1 { assert first[1..][|first| - 2] == first[|first| - 1]; }
      TickingOn(first[0], first[1..], next);
      assert (first + next)[1..] == first[1..] + next;
    }
  }

  lemma DidBoth(before: World, between: World, after: World, a: seq<Effect>, b: seq<Effect>,
                first: seq<int>, next: seq<int>, ok: bool)
    requires Did(before, between, a, first, true) && Did(between, after, b, next, ok)
    ensures Did(before, after, a + b, first + next, ok)
  {
    Runs.ExecConcat(before, a, b, first + next);
    assert (first + next)[..|a|] == first && (first + next)[|a|..] == next;
    Runs.ExecClock(before, a, first);
    TickingOn(before.clock, first, next);
  }

  lemma DidOne(before: World, e: Effect, t: int)
    requires before.clock <= t
    ensures Did(before, Apply(before, e, t), [e], [t], true)
  {
    assert [t][1..] == [];
  }

  /** An uninterrupted call returns a verdict; any failure returns none. */
  ghost predicate Carried(before: World, after: World, run: Run, ts: seq<int>, verdict: Option<Verdict>) {
    && Did(before, after, run.effects, ts, verdict.Some?)
    && (verdict.Some? ==> verdict.value == run.verdict)
  }

  class Deployment {
    var note: map<Channel, LifeState>
    var cards: map<Channel, Card>
    var reviews: map<Channel, seq<Rv.Review>>
    var log: seq<Entry>
    var leech: bool
    var clock: int
    // History that no method reads: whether reviews came in order before this call.
    const reviewsInOrder: bool
    // How each call to a store will end, and how many there have been.
    const outcomes: nat -> Outcome
    var calls: nat

    constructor (note: map<Channel, LifeState>, cards: map<Channel, Card>, reviews: map<Channel, seq<Rv.Review>>,
                 log: seq<Entry>, leech: bool, clock: int, reviewsInOrder: bool, outcomes: nat -> Outcome)
      ensures State() == World(note, cards, reviews, log, leech, clock, reviewsInOrder)
      ensures this.outcomes == outcomes && calls == 0
    {
      this.outcomes, calls := outcomes, 0;
      this.note, this.cards, this.reviews := note, cards, reviews;
      this.log, this.leech, this.clock, this.reviewsInOrder := log, leech, clock, reviewsInOrder;
    }

    function State(): World
      reads this
    {
      World(note, cards, reviews, log, leech, clock, reviewsInOrder)
    }

    // -----------------------------------------------------------------------
    // Durable effects, each with its three outcomes
    // -----------------------------------------------------------------------

    method AppendStateEvent(plan: Plan, phase: Phase) returns (ok: bool, ghost ts: seq<int>)
      modifies this`log, this`clock, this`calls
      ensures Did(old(State()), State(), [Append(plan, phase)], ts, ok)
      ensures ok <==> Clean(outcomes, old(calls), calls)
      ensures old(calls) <= calls
    {
      var outcome := outcomes(calls);
      calls := calls + 1;
      var now: int :| clock <= now;
      ok, ts := outcome == Applied, [];
      if outcome != NotApplied {
        clock := now;
        log := log + [StateEntry(plan, phase, clock)];
        ts := [clock];
        DidOne(old(State()), Append(plan, phase), clock);
      }
    }

    method UpdateNoteStates(states: map<Channel, LifeState>) returns (ok: bool, ghost ts: seq<int>)
      modifies this`note, this`clock, this`calls
      ensures Did(old(State()), State(), [SetStates(states)], ts, ok)
      ensures ok ==> note == old(note) + states
      ensures ok <==> Clean(outcomes, old(calls), calls)
      ensures old(calls) <= calls
    {
      var outcome := outcomes(calls);
      calls := calls + 1;
      var now: int :| clock <= now;
      ok, ts := outcome == Applied, [];
      if outcome != NotApplied {
        clock := now;
        note := note + states;
        ts := [clock];
        DidOne(old(State()), SetStates(states), clock);
      }
    }

    method SuspendAll(channels: set<Channel>) returns (ok: bool, ghost ts: seq<int>)
      modifies this`cards, this`clock, this`calls
      ensures Did(old(State()), State(), [SuspendCards(channels)], ts, ok)
      ensures ok ==> forall c :: c in cards ==>
                                   c in old(cards) && (c in channels || old(cards)[c].suspended ==> cards[c].suspended)
      ensures ok <==> Clean(outcomes, old(calls), calls)
      ensures old(calls) <= calls
    {
      var outcome := outcomes(calls);
      calls := calls + 1;
      var now: int :| clock <= now;
      ok, ts := outcome == Applied, [];
      if outcome != NotApplied {
        clock := now;
        cards := map c | c in cards :: if c in channels then cards[c].(suspended := true) else cards[c];
        ts := [clock];
        DidOne(old(State()), SuspendCards(channels), clock);
      }
    }

    /** A read of the note or of the cards, which may fail. */
    method Read() returns (ok: bool)
      modifies this`calls
      ensures ok <==> Clean(outcomes, old(calls), calls)
      ensures old(calls) <= calls
    {
      ok := outcomes(calls) == Applied;
      calls := calls + 1;
    }

    // -----------------------------------------------------------------------
    // Materialization
    // -----------------------------------------------------------------------

    method AppendAll(plans: seq<Plan>, phase: Phase) returns (ok: bool, ghost ts: seq<int>)
      modifies this`log, this`clock, this`calls
      ensures Did(old(State()), State(), Appends(plans, phase), ts, ok)
      ensures ok <==> Clean(outcomes, old(calls), calls)
      ensures old(calls) <= calls
    {
      ok, ts := true, [];
      ghost var start := State();
      for i := 0 to |plans|
        invariant note == old(note) && cards == old(cards) && reviews == old(reviews) && leech == old(leech)
        invariant Did(start, State(), Appends(plans[..i], phase), ts, true)
        invariant Clean(outcomes, old(calls), calls)
      {
        ghost var before := State();
        ghost var t;
        ok, t := AppendStateEvent(plans[i], phase);
        assert Appends(plans[..i + 1], phase) == Appends(plans[..i], phase) + [Append(plans[i], phase)];
        DidBoth(start, before, State(), Appends(plans[..i], phase), [Append(plans[i], phase)], ts, t, ok);
        ts := ts + t;
        if !ok {
          DidMore(start, State(), Appends(plans[..i + 1], phase), Appends(plans[i + 1..], phase), ts);
          assert Appends(plans, phase) == Appends(plans[..i + 1], phase) + Appends(plans[i + 1..], phase);
          return;
        }
      }
      assert plans[..|plans|] == plans;
      ok := true;
    }

    /** Target state into the note, read back, then the COMMIT. */
    method CompleteUngrouped(plan: Plan) returns (ok: bool, ghost ts: seq<int>)
      modifies this`log, this`note, this`clock, this`calls
      ensures Did(old(State()), State(), Step(plan), ts, ok)
      ensures ok <==> Clean(outcomes, old(calls), calls)
      ensures old(calls) <= calls
    {
      ghost var start := State();
      var states := map[plan.id.channel := plan.id.to];
      ok, ts := UpdateNoteStates(states);
      ghost var between := State();
      ghost var rest := [Append(plan, Commit)];
      assert Step(plan) == [SetStates(states)] + rest;
      if ok {
        var readable := Read();
        ok := readable && plan.id.channel in note && note[plan.id.channel] == plan.id.to;
      }
      if !ok {
        DidMore(start, State(), [SetStates(states)], rest, ts);
        return;
      }
      ghost var t;
      ok, t := AppendStateEvent(plan, Commit);
      DidBoth(start, between, State(), [SetStates(states)], rest, ts, t, ok);
      ts := ts + t;
    }

    method MaterializeUngrouped(plan: Plan) returns (ok: bool, ghost ts: seq<int>)
      modifies this`log, this`note, this`clock, this`calls
      ensures Did(old(State()), State(), [Append(plan, Prepare)] + Step(plan), ts, ok)
      ensures ok <==> Clean(outcomes, old(calls), calls)
      ensures old(calls) <= calls
    {
      ghost var start := State();
      ok, ts := AppendStateEvent(plan, Prepare);
      ghost var between := State();
      if !ok {
        DidMore(start, State(), [Append(plan, Prepare)], Step(plan), ts);
        return;
      }
      ghost var t;
      ok, t := CompleteUngrouped(plan);
      DidBoth(start, between, State(), [Append(plan, Prepare)], Step(plan), ts, t, ok);
      ts := ts + t;
    }

    method MaterializeEach(plans: seq<Plan>) returns (ok: bool, ghost ts: seq<int>)
      modifies this`log, this`note, this`clock, this`calls
      ensures Did(old(State()), State(), UngroupedEffects(plans), ts, ok)
      decreases |plans|
      ensures ok <==> Clean(outcomes, old(calls), calls)
      ensures old(calls) <= calls
    {
      ok, ts := true, [];
      ghost var start := State();
      var i := 0;
      while i < |plans|
        invariant 0 <= i <= |plans|
        invariant cards == old(cards) && reviews == old(reviews) && leech == old(leech)
        invariant Did(start, State(), UngroupedEffects(plans[..i]), ts, true)
        invariant ok && Clean(outcomes, old(calls), calls)
      {
        ghost var before := State();
        ghost var t;
        ok, t := MaterializeUngrouped(plans[i]);
        UngroupedSplit(plans, i);
        DidBoth(start, before, State(), UngroupedEffects(plans[..i]), [Append(plans[i], Prepare)] + Step(plans[i]),
                ts, t, ok);
        ts := ts + t;
        i := i + 1;
        if !ok {
          UngroupedConcat(plans[..i], plans[i..]);
          assert plans[..i] + plans[i..] == plans;
          DidMore(start, State(), UngroupedEffects(plans[..i]), UngroupedEffects(plans[i..]), ts);
          return;
        }
      }
      assert plans[..|plans|] == plans;
    }

    /** PREPARE what is not prepared, move the note, suspend the cards, read both back, COMMIT. */
    method MaterializeDormancy(plans: seq<Plan>, unprepared: seq<Plan>) returns (ok: bool, ghost ts: seq<int>)
      modifies this`log, this`note, this`cards, this`clock, this`calls
      ensures Did(old(State()), State(), DormancyEffects(plans, unprepared), ts, ok)
      ensures ok <==> Clean(outcomes, old(calls), calls)
      ensures old(calls) <= calls
    {
      ghost var start := State();
      var states, members := AllTo(plans, Dormant), set c | c in ChannelsOf(plans);
      ghost var prepares, move, suspend, commits :=
        Appends(unprepared, Prepare), [SetStates(states)], [SuspendCards(members)], Appends(plans, Commit);
      assert DormancyEffects(plans, unprepared) == prepares + (move + (suspend + commits));
      ok, ts := AppendAll(unprepared, Prepare);
      if !ok {
        DidMore(start, State(), prepares, move + (suspend + commits), ts);
        return;
      }
      ghost var prepared := State();
      ghost var t;
      ok, t := MoveAndCommit(plans);
      DidBoth(start, prepared, State(), prepares, move + (suspend + commits), ts, t, ok);
      ts := ts + t;
    }

    method MoveAndCommit(plans: seq<Plan>) returns (ok: bool, ghost ts: seq<int>)
      modifies this`log, this`note, this`cards, this`clock, this`calls
      ensures var members := set c | c in ChannelsOf(plans);
              Did(old(State()), State(),
                  [SetStates(AllTo(plans, Dormant))] + ([SuspendCards(members)] + Appends(plans, Commit)), ts, ok)
      ensures ok <==> Clean(outcomes, old(calls), calls)
      ensures old(calls) <= calls
    {
      ghost var start := State();
      var states, members := AllTo(plans, Dormant), set c | c in ChannelsOf(plans);
      ghost var move, rest := [SetStates(states)], [SuspendCards(members)] + Appends(plans, Commit);
      ok, ts := UpdateNoteStates(states);
      if ok {
        var readable := Read();
        ok := readable && forall c :: c in states ==> c in note && note[c] == states[c];
      }
      ghost var moved := State();
      if !ok {
        DidMore(start, State(), move, rest, ts);
        return;
      }
      ghost var t;
      ok, t := SuspendAndCommit(members, plans, members);
      DidBoth(start, moved, State(), move, rest, ts, t, ok);
      ts := ts + t;
    }

    /** Suspend `channels`, verify that every card of `members` is suspended, then COMMIT `plans`. */
    method SuspendAndCommit(channels: set<Channel>, plans: seq<Plan>, members: set<Channel>)
      returns (ok: bool, ghost ts: seq<int>)
      requires forall c :: c in members && c in cards ==> c in channels || cards[c].suspended
      modifies this`log, this`cards, this`clock, this`calls
      ensures Did(old(State()), State(), [SuspendCards(channels)] + Appends(plans, Commit), ts, ok)
      ensures ok <==> Clean(outcomes, old(calls), calls)
      ensures old(calls) <= calls
    {
      ghost var start := State();
      ghost var commits := Appends(plans, Commit);
      ok, ts := SuspendAll(channels);
      if ok {
        var readable := Read();
        ok := readable && forall c :: c in members && c in cards ==> cards[c].suspended;
      }
      ghost var suspended := State();
      if !ok {
        DidMore(start, State(), [SuspendCards(channels)], commits, ts);
        return;
      }
      ghost var t;
      ok, t := AppendAll(plans, Commit);
      DidBoth(start, suspended, State(), [SuspendCards(channels)], commits, ts, t, ok);
      ts := ts + t;
    }

    // -----------------------------------------------------------------------
    // Observation and decision
    // -----------------------------------------------------------------------

    method DecideFresh(now: int) returns (r: Result<Decided, Refusal>)
      requires Wired(State())
      ensures r == FreshDecision(State(), now)
    {
      var progress := ObserveUnit(State(), now);
      if progress.Err? {
        return Err(progress.error);
      }
      r := Decide(progress.value, now);
      if r.Ok? {
        var valid := ValidateMaterializationDecision(progress.value, r.value);
        if !valid {
          return Err(InvalidDecision);
        }
      }
    }

    /** A decision with nothing pending: refused if it repeats a journalled identity. */
    method MaterializeDecision(txs: Transactions, outcome: Result<Decided, Refusal>)
      returns (verdict: Option<Verdict>, ghost ts: seq<int>)
      modifies this`log, this`note, this`cards, this`clock, this`calls
      ensures Carried(old(State()), State(), FreshRun(txs, outcome), ts, verdict)
      ensures verdict.Some? <==> Clean(outcomes, old(calls), calls)
      ensures old(calls) <= calls
    {
      ts := [];
      if outcome.Err? {
        return Some(Refused(Unobservable(outcome.error))), [];
      }
      var d := outcome.value;
      if exists p :: p in d.plans && p.id in txs {
        return Some(Refused(IdentityReused)), [];
      }
      var ok;
      if d.plans != [] && d.plans[0].group.Some? {
        ok, ts := MaterializeDormancy(d.plans, d.plans);
      } else {
        ok, ts := MaterializeEach(d.plans);
      }
      verdict := if ok then Some(Done(IdsOf(d.plans), [], d.reactivate, d.leechRescue)) else None;
    }

    // -----------------------------------------------------------------------
    // Recovery
    // -----------------------------------------------------------------------

    method AbortPreparedPlans(plans: seq<Plan>) returns (verdict: Option<Verdict>, ghost ts: seq<int>)
      modifies this`log, this`clock, this`calls
      ensures Carried(old(State()), State(), Run(Appends(plans, Abort), Conflict(IdsOf(plans))), ts, verdict)
      ensures verdict.Some? <==> Clean(outcomes, old(calls), calls)
      ensures old(calls) <= calls
    {
      var ok;
      ok, ts := AppendAll(plans, Abort);
      verdict := if ok then Some(Conflict(IdsOf(plans))) else None;
    }

    /** At its source a pending transition is redone only if it is decided again; otherwise it is aborted. */
    method RecoverAtSource(p: Plan, outcome: Result<Decided, Refusal>)
      returns (verdict: Option<Verdict>, ghost ts: seq<int>)
      requires Wired(State()) && p.id.channel in note && note[p.id.channel] == p.id.from
      modifies this`log, this`note, this`clock, this`calls
      ensures Carried(old(State()), State(), RecoverUngrouped(old(State()), p, outcome), ts, verdict)
      ensures verdict.Some? <==> Clean(outcomes, old(calls), calls)
      ensures old(calls) <= calls
    {
      if outcome.Err? {
        return Some(Refused(Unobservable(outcome.error))), [];
      }
      var d := outcome.value;
      var ok;
      if exists q :: q in d.plans && q.id == p.id && q.group.None? {
        ok, ts := CompleteUngrouped(p);
        verdict := if ok then Some(Done([p.id], [p.id], d.reactivate, d.leechRescue)) else None;
      } else {
        ok, ts := AppendStateEvent(p, Abort);
        verdict := if ok then Some(Conflict([p.id])) else None;
      }
    }

    method RecoverOne(p: Plan, now: int) returns (verdict: Option<Verdict>, ghost ts: seq<int>)
      requires Wired(State())
      modifies this`log, this`note, this`clock, this`calls
      ensures Carried(old(State()), State(), RecoverUngrouped(old(State()), p, FreshDecision(old(State()), now)),
                      ts, verdict)
      ensures verdict.Some? <==> Clean(outcomes, old(calls), calls)
      ensures old(calls) <= calls
    {
      var c := p.id.channel;
      if c in note && note[c] == p.id.from {
        var outcome := DecideFresh(now);
        verdict, ts := RecoverAtSource(p, outcome);
      } else {
        verdict, ts := RecoverElsewhere(p, FreshDecision(State(), now));
      }
    }

    /** At its target it is committed; anywhere else it is aborted. */
    method RecoverElsewhere(p: Plan, ghost outcome: Result<Decided, Refusal>)
      returns (verdict: Option<Verdict>, ghost ts: seq<int>)
      requires Wired(State()) && !(p.id.channel in note && note[p.id.channel] == p.id.from)
      modifies this`log, this`note, this`clock, this`calls
      ensures Carried(old(State()), State(), RecoverUngrouped(old(State()), p, outcome), ts, verdict)
      ensures verdict.Some? <==> Clean(outcomes, old(calls), calls)
      ensures old(calls) <= calls
    {
      var c := p.id.channel;
      var ok;
      if c in note && note[c] == p.id.to {
        var reactivate := if p.id.from == Dormant && cards[c].suspended then [c] else [];
        ok, ts := AppendStateEvent(p, Commit);
        verdict := if ok then Some(Done([p.id], [p.id], reactivate, [])) else None;
      } else {
        ok, ts := AppendStateEvent(p, Abort);
        verdict := if ok then Some(Conflict([p.id])) else None;
      }
    }

    method RecoverDormancyGroup(txs: Transactions, ev: Evidence, now: int)
      returns (verdict: Option<Verdict>, ghost ts: seq<int>)
      requires Wired(State()) && ev.DormancyAgreed?
      modifies this`log, this`note, this`cards, this`clock, this`calls
      ensures Carried(old(State()), State(), RecoverGroup(old(State()), txs, ev, FreshDecision(old(State()), now)),
                      ts, verdict)
      ensures verdict.Some? <==> Clean(outcomes, old(calls), calls)
      ensures old(calls) <= calls
    {
      var plans := MemberPlans(ev);
      var pending := WithTerminal(plans, txs, None);
      var committed := WithTerminal(plans, txs, Some(Commit)) != [];
      ts := [];
      if ChannelsOf(plans) != Active(State()) {
        verdict := Some(Refused(ForeignMembers));
      } else if WithTerminal(plans, txs, Some(Abort)) != [] {
        verdict, ts := AbortPreparedPlans(pending);
      } else if ShowsOnly(note, Mastered) {
        if committed {
          verdict := Some(Refused(SourceAfterCommit));
        } else {
          var outcome := DecideFresh(now);
          verdict, ts := RecoverGroupAtSource(txs, plans, pending, outcome);
        }
      } else if ShowsOnly(note, Dormant) {
        verdict, ts := RecoverGroupAtTarget(txs, plans, pending);
      } else if committed {
        verdict := Some(Refused(MixedAfterCommit));
      } else {
        verdict, ts := AbortPreparedPlans(pending);
      }
    }

    method RecoverGroupAtSource(txs: Transactions, plans: seq<Plan>, pending: seq<Plan>, outcome: Result<Decided,
                                Refusal>)
      returns (verdict: Option<Verdict>, ghost ts: seq<int>)
      modifies this`log, this`note, this`cards, this`clock, this`calls
      ensures var aborting := Run(Appends(pending, Abort), Conflict(IdsOf(pending)));
              Carried(old(State()), State(), RecoverSource(txs, plans, aborting, outcome), ts, verdict)
      ensures verdict.Some? <==> Clean(outcomes, old(calls), calls)
      ensures old(calls) <= calls
    {
      if outcome.Err? {
        return Some(Refused(Unobservable(outcome.error))), [];
      }
      if outcome.value.plans != plans {
        verdict, ts := AbortPreparedPlans(pending);
        return;
      }
      var ok;
      ok, ts := MaterializeDormancy(plans, WithoutTransaction(plans, txs));
      verdict := if ok then Some(Done(IdsOf(plans), IdsOf(WithTransaction(plans, txs)), [], outcome.value.leechRescue))
                 else None;
    }

    method RecoverGroupAtTarget(txs: Transactions, plans: seq<Plan>, pending: seq<Plan>)
      returns (verdict: Option<Verdict>, ghost ts: seq<int>)
      modifies this`log, this`cards, this`clock, this`calls
      ensures Carried(old(State()), State(), RecoverTarget(old(State()), txs, plans, pending), ts, verdict)
      ensures verdict.Some? <==> Clean(outcomes, old(calls), calls)
      ensures old(calls) <= calls
    {
      if WithoutTransaction(plans, txs) != [] {
        return Some(Refused(TargetWithoutPrepare)), [];
      }
      var ok;
      ok, ts := FinishAtTarget(plans, pending);
      verdict := if ok then Some(Done(IdsOf(pending), IdsOf(pending), [], [])) else None;
    }

    /** The target is in the note already: suspend whatever card is awake, verify, commit. */
    method FinishAtTarget(plans: seq<Plan>, pending: seq<Plan>) returns (ok: bool, ghost ts: seq<int>)
      modifies this`log, this`cards, this`clock, this`calls
      ensures Did(old(State()), State(),
                  (if AwakeCards(old(State())) == {} then [] else [SuspendCards(AwakeCards(old(State())))])
                  + Appends(pending, Commit), ts, ok)
      ensures ok <==> Clean(outcomes, old(calls), calls)
      ensures old(calls) <= calls
    {
      var awake := AwakeCards(State());
      if awake == {} {
        assert [] + Appends(pending, Commit) == Appends(pending, Commit);
        ok, ts := AppendAll(pending, Commit);
      } else {
        ok, ts := SuspendAndCommit(awake, pending, set c | c in ChannelsOf(plans));
      }
    }

    // -----------------------------------------------------------------------
    // One call
    // -----------------------------------------------------------------------

    /** What the journal says has to be finished; the stage is what is really pending. */
    method PendingWork(txs: Transactions, ghost stage: Stage) returns (work: Work)
      requires InvAt(State(), stage) && Fold(log) == Some(txs)
      ensures work == WorkAt(stage)
    {
      WorkIsStage(ViewOf(State()), stage);
      if Mixed(txs) {
        return CannotTell(MixedTerminals);
      }
      var pending := Pending(txs);
      if pending == {} {
        return NothingPending;
      }
      var id :| id in pending;
      var group := txs[id].plan.group;
      PendingTells(State(), stage, id);
      OnlyPending(State(), stage, id);
      if (group.None? && pending != {id}) || exists j :: j in pending && txs[j].plan.group != group {
        return CannotTell(AmbiguousPending);
      }
      if group.None? {
        return OnePending(txs[id].plan);
      }
      if !Describes(id.evidence, group.value, txs) {
        return CannotTell(BrokenGroup);
      }
      work := GroupPending(id.evidence);
    }

    /** The work the journal leaves, or a fresh decision when it leaves none. */
    method CarryOut(txs: Transactions, work: Work, now: int) returns (verdict: Option<Verdict>, ghost ts: seq<int>)
      requires Wired(State()) && (work.GroupPending? ==> work.evidence.DormancyAgreed?)
      modifies this`log, this`note, this`cards, this`clock, this`calls
      ensures Carried(old(State()), State(), WorkRun(old(State()), txs, work, FreshDecision(old(State()), now)),
                      ts, verdict)
      ensures verdict.Some? <==> Clean(outcomes, old(calls), calls)
      ensures old(calls) <= calls
    {
      match work {
        case NothingPending =>
          var outcome := DecideFresh(now);
          verdict, ts := MaterializeDecision(txs, outcome);
        case OnePending(p) =>
          verdict, ts := RecoverOne(p, now);
        case GroupPending(ev) =>
          verdict, ts := RecoverDormancyGroup(txs, ev, now);
        case CannotTell(why) =>
          verdict, ts := Some(Refused(why)), [];
      }
    }

    /**
     * One call: recover first, and only with nothing to recover observe, decide
     * and materialize. The stores end where the reached effects lead, and in
     * every case the invariant holds again.
     */
    method ReconcileUnit(now: int) returns (verdict: Option<Verdict>, ghost ts: seq<int>)
      requires Invariant(State())
      modifies this`log, this`note, this`cards, this`clock, this`calls
      ensures Carried(old(State()), State(), Reconcile(old(State()), now), ts, verdict)
      ensures Invariant(State())
      ensures verdict.Some? ==> Completed(old(State()), State(), verdict.value)
      ensures verdict.Some? && old(clock) <= now ==>
                exists stage :: InvAt(old(State()), stage) && Says(old(State()), stage, now, verdict.value)
      ensures verdict.Some? <==> Clean(outcomes, old(calls), calls)
      ensures old(calls) <= calls
    {
      ghost var stage :| InvAt(State(), stage);
      ghost var before := State();
      CallIsWork(before, stage, now);
      verdict, ts := ReadAndCarryOut(now, stage);
      CallEnds(before, State(), stage, now, ts);
      if verdict.Some? {
        DoesWhatItReports(before, stage, now, ts);
        if before.clock <= now { CallSays(before, stage, now); }
      }
    }

    method ReadAndCarryOut(now: int, ghost stage: Stage) returns (verdict: Option<Verdict>, ghost ts: seq<int>)
      requires InvAt(State(), stage) && Fold(log).Some?
      requires WorkAt(stage).GroupPending? ==> WorkAt(stage).evidence.DormancyAgreed?
      modifies this`log, this`note, this`cards, this`clock, this`calls
      ensures Carried(old(State()), State(), CallRun(old(State()), WorkAt(stage), now), ts, verdict)
      ensures verdict.Some? <==> Clean(outcomes, old(calls), calls)
      ensures old(calls) <= calls
    {
      ts := [];
      var readable := Read();
      if !readable {
        return None, [];
      }
      var txs := JournalTransactions(log);
      if !NoFutureState(log, now) || txs.None? {
        return Some(Refused(JournalUnreadable)), [];
      }
      var work := PendingWork(txs.value, stage);
      verdict, ts := CarryOut(txs.value, work, now);
    }
  }

  function CallRun(w: World, work: Work, now: int): Run
    requires Wired(w) && Fold(w.log).Some? && (work.GroupPending? ==> work.evidence.DormancyAgreed?)
  {
    if NoFutureState(w.log, now) then WorkRun(w, Fold(w.log).value, work, FreshDecision(w, now))
    else Refuse(JournalUnreadable)
  }

  function WorkRun(w: World, txs: Transactions, work: Work, outcome: Result<Decided, Refusal>): Run
    requires Wired(w) && (work.GroupPending? ==> work.evidence.DormancyAgreed?)
  {
    match work
    case NothingPending => FreshRun(txs, outcome)
    case OnePending(p) => RecoverUngrouped(w, p, outcome)
    case GroupPending(ev) => RecoverGroup(w, txs, ev, outcome)
    case CannotTell(why) => Refuse(why)
  }

  lemma CallIsWork(w: World, stage: Stage, now: int)
    requires InvAt(w, stage)
    ensures Fold(w.log).Some? && (WorkAt(stage).GroupPending? ==> WorkAt(stage).evidence.DormancyAgreed?)
    ensures Reconcile(w, now) == CallRun(w, WorkAt(stage), now)
  {
    WorkIsStage(ViewOf(w), stage);
    GroupIsAgreed(ViewOf(w), stage);
    WorkDecides(w, WorkAt(stage), now);
  }

  lemma GroupIsAgreed(v: View, stage: Stage)
    requires ViewHolds(v, stage)
    ensures stage.Group? ==> stage.evidence.DormancyAgreed?
  {
  }

  lemma WorkDecides(w: World, work: Work, now: int)
    requires Wired(w) && Fold(w.log).Some? && WorkOf(Fold(w.log).value) == work
    requires work.GroupPending? ==> work.evidence.DormancyAgreed?
    ensures Reconcile(w, now) == CallRun(w, work, now)
  {
  }

  /** Wherever a call ends, the invariant holds. */
  lemma CallEnds(before: World, after: World, stage: Stage, now: int, ts: seq<int>)
    requires InvAt(before, stage) && Did(before, after, Reconcile(before, now).effects, ts, false)
    ensures Invariant(after)
  {
    CallWalks(before, stage, now, ts);
  }

  /** What is pending is one transition, or members of one group that its records describe. */
  lemma OnlyPending(w: World, stage: Stage, id: TransitionId)
    requires InvAt(w, stage) && id in Pending(ViewOf(w).txs)
    ensures var txs := ViewOf(w).txs;
            && (forall j :: j in Pending(txs) ==> txs[j].plan.group == txs[id].plan.group)
            && (stage.Single? ==> Pending(txs) == {id})
            && (stage.Group? ==> txs[id].plan.group.Some? && Describes(id.evidence, txs[id].plan.group.value, txs))
  {
    if stage.Group? {
      PendingDescribes(ViewOf(w), stage.evidence, id);
      forall j | j in Pending(ViewOf(w).txs) ensures ViewOf(w).txs[j].plan.group == ViewOf(w).txs[id].plan.group {
        PendingDescribes(ViewOf(w), stage.evidence, j);
      }
    }
  }

  /** Any pending identity tells the stage. */
  lemma PendingTells(w: World, stage: Stage, id: TransitionId)
    requires InvAt(w, stage) && id in Pending(ViewOf(w).txs)
    ensures !stage.Idle?
    ensures stage.Single? <==> ViewOf(w).txs[id].plan.group.None?
    ensures stage.Single? ==> stage.plan == ViewOf(w).txs[id].plan
    ensures stage.Group? ==> stage.evidence == id.evidence
  {
    if stage.Group? {
      PendingDescribes(ViewOf(w), stage.evidence, id);
    }
  }

  lemma {:induction false} UngroupedConcat(a: seq<Plan>, b: seq<Plan>)
    ensures UngroupedEffects(a + b) == UngroupedEffects(a) + UngroupedEffects(b)
  {
    if a == [] {
      assert a + b == b;
    } else {
      assert (a + b)[1..] == a[1..] + b;
      UngroupedConcat(a[1..], b);
    }
  }

  lemma UngroupedSplit(plans: seq<Plan>, i: nat)
    requires i < |plans|
    ensures UngroupedEffects(plans[..i + 1])
         == UngroupedEffects(plans[..i]) + ([Append(plans[i], Prepare)] + Step(plans[i]))
  {
    assert plans[..i + 1] == plans[..i] + [plans[i]];
    UngroupedConcat(plans[..i], [plans[i]]);
    assert [plans[i]][1..] == [];
    assert UngroupedEffects([plans[i]]) == [Append(plans[i], Prepare)] + Step(plans[i]);
  }
}
