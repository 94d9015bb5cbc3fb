/**
 * A lifetime after which a channel cannot move any more: a stability transition
 * is prepared, its card is suspended while the call is cut, recovery aborts it,
 * and from then on the same evidence is decided and refused at every call.
 */
module Wedge {
  import opened Wrappers
  import opened Lifecycle
  import opened Journal
  import opened Observation
  import opened Decision
  import opened DecisionFacts
  import opened Protocol
  import opened Safety
  import opened Runs
  import opened Recovery
  import opened Lifetime
  import opened Quiet
  import opened Consequences
  import Rv = Revlog

  /** The unit's only decision at `now` is a stability transition that was never tried. */
  ghost predicate GateDue(w: World, p: Plan, now: int) {
    && InvAt(w, Idle) && w.clock <= now
    && FreshDecision(w, now).Ok? && FreshDecision(w, now).value.plans == [p]
    && p.id.trigger == StabilityGate && p.id !in Fold(w.log).value
  }

  function Suspended(w: World, c: Channel): World
    requires c in w.cards
  {
    w.(cards := w.cards[c := w.cards[c].(suspended := true)])
  }

  /** The four moves: a cut call, the card suspended, the recovering call, the card put back. */
  function WedgingMoves(w: World, p: Plan, now: int): seq<Move>
    requires p.id.channel in w.cards
  {
    var c := p.id.channel;
    [ReconcileCall(now, [now]), CardChanged(c, w.cards[c].(suspended := true)),
     ReconcileCall(now, [now]), CardChanged(c, w.cards[c])]
  }

  /** What they leave behind: the same deployment with a PREPARE and an ABORT more. */
  function Wedged(w: World, p: Plan, now: int): World {
    w.(log := w.log + [StateEntry(p, Prepare, now)] + [StateEntry(p, Abort, now)], clock := now)
  }

  // -------------------------------------------------------------------------
  // The cut call
  // -------------------------------------------------------------------------

  lemma GateFacts(w: World, p: Plan, now: int)
    requires GateDue(w, p, now)
    ensures p.group.None? && p.id.channel in w.note && p.id.channel in w.cards
    ensures DecideChannel(Observed(w, p.id.channel, now), now) == Ok(Some(p))
    ensures w.note[p.id.channel] == Learning == p.id.from
    ensures p in Planned(Observe(w, now).value, now)
  {
    GroupedWhenDue(w, now);
    var progress := Observe(w, now).value;
    if DormancyDue(progress, Planned(progress, now), now) {
      DueFromStores(w, now);
    } else {
      assert p in Planned(progress, now);
      PlannedFromStores(w, now, p);
      GateFromLearning(Observed(w, p.id.channel, now), p, now);
    }
  }

  lemma GateFromLearning(o: ChannelProgress, p: Plan, now: int)
    requires DecideChannel(o, now) == Ok(Some(p)) && p.id.trigger == StabilityGate
    ensures o.state == Learning == p.id.from
  {
  }

  lemma CutIsPending(w: World, p: Plan, t: int)
    requires InvAt(w, Idle) && Ready(w, p) && w.clock <= t
    ensures InvAt(Apply(w, Append(p, Prepare), t), Single(p))
  {
    AllowedKeepsInvariant(w, Idle, Append(p, Prepare), t);
  }

  lemma GateIsReady(w: World, p: Plan, now: int)
    requires GateDue(w, p, now)
    ensures Ready(w, p)
  {
    GateFacts(w, p, now);
    PlannedFromStores(w, now, p);
    ReadyFrom(w, p);
  }

  lemma CutAfterPrepare(w: World, p: Plan, now: int)
    requires GateDue(w, p, now) && p.group.None?
    ensures Reconcile(w, now).effects != [] && Reconcile(w, now).effects[0] == Append(p, Prepare)
  {
    CallIsProgram(w, Idle, now);
    FreshOfOne(Fold(w.log).value, FreshDecision(w, now).value, p);
  }

  lemma FreshOfOne(txs: Transactions, d: Decided, p: Plan)
    requires d.plans == [p] && p.id !in txs && p.group.None?
    ensures FreshRun(txs, Ok(d)).effects != [] && FreshRun(txs, Ok(d)).effects[0] == Append(p, Prepare)
  {
  }

  // -------------------------------------------------------------------------
  // The recovering call
  // -------------------------------------------------------------------------

  lemma NotStableWhileSuspended(o: ChannelProgress, now: int)
    requires o.state == Learning && o.suspended
    ensures DecideChannel(o, now) == Ok(None)
  {
  }

  lemma PreparedSame(w: World, p: Plan, now: int, c: Channel)
    requires Readable(w) && c in w.note
    ensures Replay(Apply(w, Append(p, Prepare), now).log, c) == Replay(w.log, c)
    ensures AssessmentsOf(Apply(w, Append(p, Prepare), now).log, c) == AssessmentsOf(w.log, c)
  {
    ReplayAppends(w.log, StateEntry(p, Prepare, now), c);
    AssessmentsOfAppends(w.log, StateEntry(p, Prepare, now), c);
  }

  lemma SuspendedChoice(w: World, p: Plan, now: int, c: Channel)
    requires Readable(w) && c in w.note && Placed(w, c)
    requires p.id.channel in w.cards && w.note[p.id.channel] == Learning
    ensures var w' := Suspended(Apply(w, Append(p, Prepare), now), p.id.channel);
            && Wired(w') && Placed(w', c)
            && DecideChannel(Observed(w', c, now), now)
               == if c == p.id.channel then Ok(None) else DecideChannel(Observed(w, c, now), now)
  {
    var w' := Suspended(Apply(w, Append(p, Prepare), now), p.id.channel);
    PreparedSame(w, p, now, c);
    assert w'.cards.Keys == w.cards.Keys;
    if c == p.id.channel {
      NotStableWhileSuspended(Observed(w', c, now), now);
    } else {
      assert Observed(w', c, now) == Observed(w, c, now);
    }
  }

  lemma SuspendedObserves(w: World, p: Plan, now: int)
    requires InvAt(w, Single(p)) && p.id.channel in w.cards && w.note[p.id.channel] == p.id.from
    requires w.clock <= now && RevlogReadable(w.reviews, now)
    ensures var w' := Suspended(w, p.id.channel); InvAt(w', Single(p)) && Observe(w', now).Ok?
  {
    var w' := Suspended(w, p.id.channel);
    SurroundingsKeepInvariant(w, Single(p), CardChanged(p.id.channel, w.cards[p.id.channel].(suspended := true)));
    SingleIsPlaced(w', p);
  }

  lemma AllChannelsChose(w: World, now: int)
    requires Wired(w) && FreshDecision(w, now).Ok?
    ensures forall c :: c in w.note ==> Placed(w, c) && DecideChannel(Observed(w, c, now), now).Ok?
  {
    FreshIsDecided(w, now);
    ObservedChannels(w, now);
    PlannedMeaning(Observe(w, now).value, now);
    forall c | c in w.note ensures DecideChannel(Observed(w, c, now), now).Ok? {
      assert ChoicesOf(Observe(w, now).value, now)[c].Ok?;
    }
  }

  /** A decision with one channel LEARNING and undecided plans nothing for that channel. */
  lemma UndecidedIsNotPlanned(w: World, now: int, c: Channel)
    requires Wired(w) && Observe(w, now).Ok? && c in w.note && w.note[c] == Learning
    requires forall d :: d in w.note ==> Placed(w, d) && DecideChannel(Observed(w, d, now), now).Ok?
    requires DecideChannel(Observed(w, c, now), now) == Ok(None)
    ensures FreshDecision(w, now).Ok?
    ensures forall q :: q in FreshDecision(w, now).value.plans ==> q.id.channel != c
  {
    var progress := Observe(w, now).value;
    ObservedInputIsValid(w, now);
    ObservedChannels(w, now);
    PlannedMeaning(progress, now);
    var choices := ChoicesOf(progress, now);
    forall d | d in choices ensures choices[d] == DecideChannel(Observed(w, d, now), now) {
    }
    DecisionsMaterialize(progress, now);
    UndecidedNotChosen(choices, Planned(progress, now), c);
  }

  lemma UndecidedNotChosen(choices: Choices, planned: seq<Plan>, c: Channel)
    requires c in choices && choices[c] == Ok(None)
    requires forall p :: p in planned <==> Chosen(choices, p, p.id.channel)
    ensures forall q :: q in planned ==> q.id.channel != c
  {
  }

  lemma SuspendedPlansNothing(w: World, p: Plan, now: int)
    requires Readable(w) && FreshDecision(w, now).Ok? && p.id.channel in w.cards && w.note[p.id.channel] == Learning
    requires var w' := Suspended(Apply(w, Append(p, Prepare), now), p.id.channel); Wired(w') && Observe(w', now).Ok?
    ensures var w' := Suspended(Apply(w, Append(p, Prepare), now), p.id.channel);
            && FreshDecision(w', now).Ok?
            && forall q :: q in FreshDecision(w', now).value.plans ==> q.id.channel != p.id.channel
  {
    var w' := Suspended(Apply(w, Append(p, Prepare), now), p.id.channel);
    AllChannelsChose(w, now);
    forall c | c in w'.note
      ensures Placed(w', c) && DecideChannel(Observed(w', c, now), now)
                               == if c == p.id.channel then Ok(None) else DecideChannel(Observed(w, c, now), now)
    {
      SuspendedChoice(w, p, now, c);
    }
    UndecidedIsNotPlanned(w', now, p.id.channel);
  }

  lemma GateReviews(w: World, p: Plan, now: int)
    requires GateDue(w, p, now)
    ensures RevlogReadable(w.reviews, now)
  {
    FreshIsValid(w, now);
    ObservedChannels(w, now);
  }

  lemma RecoveryAborts(w: World, p: Plan, now: int)
    requires GateDue(w, p, now)
    ensures p.id.channel in w.cards
    ensures var w' := Suspended(Apply(w, Append(p, Prepare), now), p.id.channel);
            && InvAt(w', Single(p)) && w'.note[p.id.channel] == p.id.from
            && Reconcile(w', now).effects == [Append(p, Abort)]
  {
    GateFacts(w, p, now);
    GateIsReady(w, p, now);
    CutIsPending(w, p, now);
    GateReviews(w, p, now);
    var w1 := Apply(w, Append(p, Prepare), now);
    var w' := Suspended(w1, p.id.channel);
    SuspendedObserves(w1, p, now);
    SuspendedPlansNothing(w, p, now);
    AbortProgram(w', p, now);
  }

  lemma AbortProgram(w: World, p: Plan, now: int)
    requires InvAt(w, Single(p)) && w.note[p.id.channel] == p.id.from && w.clock <= now && FreshDecision(w, now).Ok?
    requires forall q :: q in FreshDecision(w, now).value.plans ==> q.id.channel != p.id.channel
    ensures Reconcile(w, now).effects == [Append(p, Abort)]
  {
    CallIsProgram(w, Single(p), now);
    NotReproducedAborts(w, p, FreshDecision(w, now).value);
  }

  lemma NotReproducedAborts(w: World, p: Plan, d: Decided)
    requires Wired(w) && p.id.channel in w.note && w.note[p.id.channel] == p.id.from
    requires forall q :: q in d.plans ==> q.id.channel != p.id.channel
    ensures RecoverUngrouped(w, p, Ok(d)).effects == [Append(p, Abort)]
  {
  }

  // -------------------------------------------------------------------------
  // Afterwards
  // -------------------------------------------------------------------------

  lemma AbortedIsIdle(w: World, p: Plan, t: int)
    requires InvAt(w, Single(p)) && w.note[p.id.channel] == p.id.from && !Irrevocable(p) && w.clock <= t
    ensures InvAt(Apply(w, Append(p, Abort), t), Idle)
  {
    AllowedKeepsInvariant(w, Single(p), Append(p, Abort), t);
  }

  /** The deployments on the way. */
  lemma WedgedInSteps(w: World, p: Plan, now: int)
    requires p.id.channel in w.cards
    ensures var c := p.id.channel;
            var w2 := Suspended(Apply(w, Append(p, Prepare), now), c);
            var w3 := Apply(w2, Append(p, Abort), now);
            w3.(cards := w3.cards[c := w.cards[c]]) == Wedged(w, p, now)
  {
    var c := p.id.channel;
    assert w.cards[c := w.cards[c].(suspended := true)][c := w.cards[c]] == w.cards;
  }

  ghost predicate Leads(w: World, m: Move, w': World) {
    Wired(w) && Legal(w, m) && Do(w, m) == w'
  }

  lemma CardLeads(w: World, c: Channel, card: Card)
    requires Wired(w) && c in w.cards
    ensures Leads(w, CardChanged(c, card), w.(cards := w.cards[c := card]))
  {
  }

  lemma AbortThenRestore(w: World, p: Plan, t: int, card: Card, w': World)
    requires InvAt(w, Single(p)) && w.note[p.id.channel] == p.id.from && !Irrevocable(p) && w.clock <= t
    requires Leads(Apply(w, Append(p, Abort), t), CardChanged(p.id.channel, card), w')
    ensures InvAt(w', Idle)
  {
    AbortedIsIdle(w, p, t);
    SurroundingsKeepInvariant(Apply(w, Append(p, Abort), t), Idle, CardChanged(p.id.channel, card));
  }

  lemma GateIsRevocable(w: World, p: Plan, now: int)
    requires GateDue(w, p, now)
    ensures !Irrevocable(p) && Wired(w)
  {
  }

  lemma RestoreLeads(w: World, p: Plan, now: int)
    requires Wired(w) && p.id.channel in w.cards
    ensures var w2 := Suspended(Apply(w, Append(p, Prepare), now), p.id.channel);
            w2.clock == now
            && Leads(Apply(w2, Append(p, Abort), now), CardChanged(p.id.channel, w.cards[p.id.channel]),
                     Wedged(w, p, now))
  {
    var w2 := Suspended(Apply(w, Append(p, Prepare), now), p.id.channel);
    assert w2.cards.Keys == w.cards.Keys;
    CardLeads(Apply(w2, Append(p, Abort), now), p.id.channel, w.cards[p.id.channel]);
    WedgedInSteps(w, p, now);
  }

  lemma WedgedInvariant(w: World, p: Plan, now: int)
    requires GateDue(w, p, now) && p.id.channel in w.cards
    ensures InvAt(Wedged(w, p, now), Idle)
  {
    RecoveryAborts(w, p, now);
    GateIsRevocable(w, p, now);
    RestoreLeads(w, p, now);
    AbortThenRestore(Suspended(Apply(w, Append(p, Prepare), now), p.id.channel), p, now, w.cards[p.id.channel],
                     Wedged(w, p, now));
  }

  lemma WedgedSameStored(w: World, p: Plan, now: int)
    requires Readable(w) && Readable(Wedged(w, p, now))
    ensures SameStored(w, Wedged(w, p, now))
  {
    var first := w.log + [StateEntry(p, Prepare, now)];
    forall c | c in w.note
      ensures Replay(Wedged(w, p, now).log, c) == Replay(w.log, c)
      ensures AssessmentsOf(Wedged(w, p, now).log, c) == AssessmentsOf(w.log, c)
    {
      ReplayAppends(w.log, StateEntry(p, Prepare, now), c);
      ReplayAppends(first, StateEntry(p, Abort, now), c);
      AssessmentsOfAppends(w.log, StateEntry(p, Prepare, now), c);
      AssessmentsOfAppends(first, StateEntry(p, Abort, now), c);
    }
  }

  /** From there on every call refuses the decision, although nothing but the journal has changed. */
  lemma WedgedForever(w: World, p: Plan, now: int, later: int)
    requires GateDue(w, p, now) && now <= later
    ensures Reconcile(Wedged(w, p, now), later) == Refuse(IdentityReused)
  {
    var w' := Wedged(w, p, now);
    GateFacts(w, p, now);
    WedgedInvariant(w, p, now);
    WedgedSameStored(w, p, now);
    FreshIsValid(w, now);
    SameStores(w, w', now);
    assert Holds(w'.log, |w.log| + 1, p.id, Abort);
    assert p in FreshDecision(w', now).value.plans;
    RefusedExactlyWhenAborted(w', now);
    RefusalLasts(w', now, later);
  }

  /** The four moves are a lifetime of the deployment, and this is where they end. */
  lemma SuspensionWedges(w: World, p: Plan, now: int)
    requires GateDue(w, p, now)
    ensures p.id.channel in w.cards
    ensures Reaches(w, WedgingMoves(w, p, now), Wedged(w, p, now))
    ensures forall later :: now <= later ==> Reconcile(Wedged(w, p, now), later) == Refuse(IdentityReused)
  {
    GateFacts(w, p, now);
    forall later | now <= later ensures Reconcile(Wedged(w, p, now), later) == Refuse(IdentityReused) {
      WedgedForever(w, p, now, later);
    }
    WedgingReaches(w, p, now);
  }

  lemma OneEffect(w: World, es: seq<Effect>, t: int)
    requires es != [] && w.clock <= t
    ensures Exec(w, es, [t]) == Apply(w, es[0], t) && Ticking(w.clock, [t])
  {
  }

  lemma LegalCall(w: World, now: int, t: int)
    requires Wired(w) && Reconcile(w, now).effects != [] && w.clock <= t
    ensures Legal(w, ReconcileCall(now, [t]))
    ensures Do(w, ReconcileCall(now, [t])) == Apply(w, Reconcile(w, now).effects[0], t)
  {
    OneEffect(w, Reconcile(w, now).effects, t);
  }

  lemma FourMoves(w: World, a: Move, w1: World, b: Move, w2: World, c: Move, w3: World, d: Move, w4: World)
    requires Leads(w, a, w1) && Leads(w1, b, w2) && Leads(w2, c, w3) && Leads(w3, d, w4)
    ensures Reaches(w, [a, b, c, d], w4)
  {
    assert Reaches(w3, [d], w4);
    assert [c, d][1..] == [d];
    assert Reaches(w2, [c, d], w4);
    assert [b, c, d][1..] == [c, d];
    assert Reaches(w1, [b, c, d], w4);
    assert [a, b, c, d][1..] == [b, c, d];
  }

  lemma CutLeads(w: World, p: Plan, now: int)
    requires GateDue(w, p, now) && p.group.None?
    ensures Leads(w, ReconcileCall(now, [now]), Apply(w, Append(p, Prepare), now))
  {
    CutAfterPrepare(w, p, now);
    LegalCall(w, now, now);
  }

  lemma RecoveryLeads(w: World, p: Plan, now: int)
    requires GateDue(w, p, now) && p.id.channel in w.cards
    ensures var w' := Suspended(Apply(w, Append(p, Prepare), now), p.id.channel);
            Leads(w', ReconcileCall(now, [now]), Apply(w', Append(p, Abort), now))
  {
    RecoveryAborts(w, p, now);
    LegalCall(Suspended(Apply(w, Append(p, Prepare), now), p.id.channel), now, now);
  }

  lemma WedgingReaches(w: World, p: Plan, now: int)
    requires GateDue(w, p, now) && p.id.channel in w.cards && p.group.None?
    ensures Reaches(w, WedgingMoves(w, p, now), Wedged(w, p, now))
  {
    var c, card := p.id.channel, w.cards[p.id.channel];
    var w1 := Apply(w, Append(p, Prepare), now);
    var w2 := Suspended(w1, c);
    var w3 := Apply(w2, Append(p, Abort), now);
    CutLeads(w, p, now);
    CardLeads(w1, c, card.(suspended := true));
    RecoveryLeads(w, p, now);
    RestoreLeads(w, p, now);
    FourMoves(w, ReconcileCall(now, [now]), w1, CardChanged(c, card.(suspended := true)), w2,
              ReconcileCall(now, [now]), w3, CardChanged(c, card), Wedged(w, p, now));
  }

  // -------------------------------------------------------------------------
  // A deployment to which this happens
  // -------------------------------------------------------------------------

  const REVIEWED := Rv.Review(1000, 3, Rv.REVLOG_TYPE_REVIEW)
  const LEARNT := Plan(TransitionId(R, New, Learning, FirstReview, InitialNew(R), FirstReviewSeen(1000)), None)
  const LEARNT_AT := 1_000_000
  const GATE_AT := LEARNT_AT + Days(STABLE_MIN_AGE_DAYS)
  const GATE := Plan(TransitionId(R, Learning, Stable, StabilityGate, Entered(LEARNT.id),
                                  StabilityShown(1000, 1000, None, 21, GATE_AT)), None)

  /** One channel, reviewed once and LEARNING since, with an interval of 21 days. */
  function ReviewedOnce(): World {
    World(map[R := Learning], map[R := Card(21, 0, false)], map[R := [REVIEWED]],
          [StateEntry(LEARNT, Prepare, LEARNT_AT), StateEntry(LEARNT, Commit, LEARNT_AT)], false, LEARNT_AT, true)
  }

  lemma ExampleJournal()
    ensures var w := ReviewedOnce();
            && Fold(w.log) == Some(map[LEARNT.id := Transaction(LEARNT, Some(Commit))])
            && Replay(w.log, R) == Some(Arrived(LEARNT, LEARNT_AT))
            && AssessmentsOf(w.log, R) == []
  {
    var first, second := StateEntry(LEARNT, Prepare, LEARNT_AT), StateEntry(LEARNT, Commit, LEARNT_AT);
    assert ReviewedOnce().log == ([] + [first]) + [second];
    assert EdgeAllowed(LEARNT.id.from, LEARNT.id.to);
    FoldAppends([], first);
    assert Fold([] + [first]) == Some(map[LEARNT.id := Transaction(LEARNT, None)]);
    FoldAppends([] + [first], second);
    assert map[LEARNT.id := Transaction(LEARNT, None)][LEARNT.id := Transaction(LEARNT, Some(Commit))]
        == map[LEARNT.id := Transaction(LEARNT, Some(Commit))];
    ReplayAppends([], first, R);
    ReplayAppends([] + [first], second, R);
    AssessmentsOfAppends([], first, R);
    AssessmentsOfAppends([] + [first], second, R);
  }

  lemma ExampleReads()
    ensures var w := ReviewedOnce();
            Readable(w) && ViewOf(w) == View(map[R := Learning], map[R := Arrived(LEARNT, LEARNT_AT)],
                                             map[LEARNT.id := Transaction(LEARNT, Some(Commit))], true)
  {
    var w := ReviewedOnce();
    ExampleJournal();
    assert w.note.Keys == {R} && w.cards.Keys == {R} && w.reviews.Keys == {R};
    assert w.note.Keys != {} by { assert R in w.note; }
    forall i | 0 <= i < |w.log| ensures Stamp(w.log[i]) <= w.clock {
      assert i == 0 || i == 1;
    }
    assert (map c | c in w.note :: Replay(w.log, c).value) == map[R := Arrived(LEARNT, LEARNT_AT)];
  }

  lemma ExampleInvariant()
    ensures InvAt(ReviewedOnce(), Idle)
  {
    ExampleReads();
    var v := ViewOf(ReviewedOnce());
    assert v.note.Keys == {R};
    assert PlanShape({R}, LEARNT);
    assert Agrees(v, R);
    assert Pending(v.txs) == {};
    assert ShapesOk(v.note.Keys, v.txs);
    assert HistoryHolds(v);
  }

  lemma FilterOfOne(r: Rv.Review)
    ensures forall keep: Rv.Review -> bool :: Rv.Filter([r], keep) == if keep(r) then [r] else []
  {
    forall keep: Rv.Review -> bool ensures Rv.Filter([r], keep) == if keep(r) then [r] else [] {
      Rv.FilterAppends([], r, keep);
    }
  }

  lemma ExampleReviews()
    ensures var s := Rv.Summarize([REVIEWED], GATE_AT);
            && s.first == Some(1000) && s.latest == Some(1000) && s.latestLapse == None
            && s.lapsesInWindow == 0 && s.ageDays == 21
    ensures Rv.CardReadable([REVIEWED], GATE_AT)
  {
    assert Rv.Ordered([REVIEWED]) == [REVIEWED];
    FilterOfOne(REVIEWED);
    assert Rv.LifecycleReviews([REVIEWED]) == [REVIEWED];
    assert Rv.Lapses([REVIEWED]) == [];
    assert Rv.CountSince([], GATE_AT - Days(STABLE_ZERO_LAPSE_WINDOW_DAYS)) == 0;
  }

  lemma ExampleObserves()
    ensures var w := ReviewedOnce(); Wired(w) && Placed(w, R) && Observe(w, GATE_AT).Ok?
  {
    var w := ReviewedOnce();
    ExampleJournal();
    ExampleReads();
    ExampleReviews();
    assert Placed(w, R);
    assert RevlogReadable(w.reviews, GATE_AT);
    assert HistoryReadable(w, GATE_AT);
  }

  lemma GateFollows(o: ChannelProgress)
    requires o.channel == R && o.state == Learning && o.episode == Entered(LEARNT.id) && !o.suspended
    requires o.interval == 21 && o.ageDays == 21 && o.lapsesInWindow == 0
    requires o.first == Some(1000) && o.latest == Some(1000) && o.latestLapse == None
    ensures DecideChannel(o, GATE_AT) == Ok(Some(GATE))
  {
  }

  lemma ExampleDecides()
    ensures var w := ReviewedOnce();
            Wired(w) && Placed(w, R) && DecideChannel(Observed(w, R, GATE_AT), GATE_AT) == Ok(Some(GATE))
  {
    ExampleJournal();
    ExampleReviews();
    ExampleObserves();
    GateFollows(Observed(ReviewedOnce(), R, GATE_AT));
  }

  lemma OneChannelOnePlan(plans: seq<Plan>, p: Plan)
    requires InChannelOrder(plans) && p in plans && forall q :: q in plans ==> q.id.channel == p.id.channel
    ensures plans == [p]
  {
    var cs := ChannelsOf(plans);
    forall c ensures c in cs <==> c in [p.id.channel] {
      if c in cs {
        var i :| 0 <= i < |cs| && cs[i] == c;
        assert plans[i] in plans;
      }
      var k :| 0 <= k < |plans| && plans[k] == p;
      assert cs[k] == p.id.channel;
    }
    SameChannelsSameOrder(cs, [p.id.channel]);
    assert |plans| == 1;
  }

  lemma OnlyChannelIsOk(w: World, p: Plan, now: int)
    requires Wired(w) && w.note.Keys == {p.id.channel} && Placed(w, p.id.channel) && Observe(w, now).Ok?
    requires DecideChannel(Observed(w, p.id.channel, now), now) == Ok(Some(p))
    ensures FreshDecision(w, now).Ok?
  {
    OneKey(w.note, p.id.channel);
    AllOkDecides(w, now);
  }

  lemma OneKey(note: map<Channel, LifeState>, c: Channel)
    requires note.Keys == {c}
    ensures forall d :: d in note ==> d == c
  {
    forall d | d in note ensures d == c {
      assert d in note.Keys;
    }
  }

  lemma DecidedInOrder(w: World, now: int)
    requires Wired(w) && FreshDecision(w, now).Ok?
    ensures InChannelOrder(FreshDecision(w, now).value.plans)
  {
    FreshIsValid(w, now);
  }

  lemma DecidedOnChannel(w: World, now: int, c: Channel)
    requires Readable(w) && FreshDecision(w, now).Ok? && w.note.Keys == {c}
    ensures forall q :: q in FreshDecision(w, now).value.plans ==> q.id.channel == c
  {
    FreshIsValid(w, now);
    ObservedChannels(w, now);
    PlansOnChannels(Observe(w, now).value, FreshDecision(w, now).value, c);
  }

  lemma PlansOnChannels(progress: UnitProgress, d: Decided, c: Channel)
    requires ValidDecision(progress, d) && progress.channels.Keys == {c}
    ensures forall q :: q in d.plans ==> q.id.channel == c
  {
    forall q | q in d.plans ensures q.id.channel == c {
      assert SourceCurrent(progress, q);
      assert q.id.channel in progress.channels.Keys;
    }
  }

  /** A unit whose only channel decides `p` decides `p`. */
  lemma OnlyChannelDecides(w: World, p: Plan, now: int)
    requires Readable(w) && w.note.Keys == {p.id.channel} && Placed(w, p.id.channel) && Observe(w, now).Ok?
    requires DecideChannel(Observed(w, p.id.channel, now), now) == Ok(Some(p))
    ensures FreshDecision(w, now).Ok?
    ensures FreshDecision(w, now).value.plans == [p]
  {
    OnlyChannelIsOk(w, p, now);
    ChosenIsPlanned(w, p, now);
    DecidedInOrder(w, now);
    DecidedOnChannel(w, now, p.id.channel);
    OneChannelOnePlan(FreshDecision(w, now).value.plans, p);
  }

  lemma NeverTried(p: Plan, q: Plan)
    requires p.id.trigger != q.id.trigger
    ensures p.id !in map[q.id := Transaction(q, Some(Commit))]
  {
  }

  lemma GateDueFrom(w: World, p: Plan, now: int)
    requires InvAt(w, Idle) && w.clock <= now && w.note.Keys == {p.id.channel} && Placed(w, p.id.channel)
    requires Observe(w, now).Ok? && DecideChannel(Observed(w, p.id.channel, now), now) == Ok(Some(p))
    requires p.id.trigger == StabilityGate && p.id !in Fold(w.log).value
    ensures GateDue(w, p, now)
  {
    OnlyChannelDecides(w, p, now);
  }

  lemma ExampleNote(w: World)
    requires w == ReviewedOnce()
    ensures w.note.Keys == {GATE.id.channel} && w.clock <= GATE_AT
    ensures Fold(w.log).Some? && GATE.id !in Fold(w.log).value
  {
    ExampleJournal();
    NeverTried(GATE, LEARNT);
  }

  // -------------------------------------------------------------------------
  // The same from the very beginning
  // -------------------------------------------------------------------------

  /** Before any call: the channel NEW, its one review done, nothing in the journal. */
  function BeforeAnyCall(): World {
    World(map[R := New], map[R := Card(21, 0, false)], map[R := [REVIEWED]], [], false, LEARNT_AT, true)
  }

  const FIRST_CALL := ReconcileCall(LEARNT_AT, [LEARNT_AT, LEARNT_AT, LEARNT_AT])

  lemma FirstReads()
    ensures var w := BeforeAnyCall();
            && Initial(w) && InvAt(w, Idle) && Placed(w, R) && w.note.Keys == {R}
            && Fold(w.log) == Some(map[]) && Replay(w.log, R) == Some(Start(R)) && AssessmentsOf(w.log, R) == []
  {
    var w := BeforeAnyCall();
    assert w.note.Keys == {R} && w.cards.Keys == {R} && w.reviews.Keys == {R};
    assert R in w.note;
    InitialInvariant(w);
  }

  lemma FirstReviews()
    ensures var s := Rv.Summarize([REVIEWED], LEARNT_AT);
            s.first == Some(1000) && s.latest == Some(1000) && s.latestLapse == None
    ensures Rv.CardReadable([REVIEWED], LEARNT_AT)
  {
    assert Rv.Ordered([REVIEWED]) == [REVIEWED];
    FilterOfOne(REVIEWED);
    assert Rv.LifecycleReviews([REVIEWED]) == [REVIEWED];
    assert Rv.Lapses([REVIEWED]) == [];
  }

  lemma FirstObserves()
    ensures var w := BeforeAnyCall(); Wired(w) && Placed(w, R) && Observe(w, LEARNT_AT).Ok?
  {
    var w := BeforeAnyCall();
    FirstReads();
    FirstReviews();
    assert RevlogReadable(w.reviews, LEARNT_AT);
    assert HistoryReadable(w, LEARNT_AT);
  }

  lemma LearntFollows(o: ChannelProgress)
    requires o.channel == R && o.state == New && o.episode == InitialNew(R) && o.first == Some(1000)
    ensures DecideChannel(o, LEARNT_AT) == Ok(Some(LEARNT))
  {
  }

  lemma FirstDecides()
    ensures var w := BeforeAnyCall();
            Wired(w) && FreshDecision(w, LEARNT_AT).Ok? && FreshDecision(w, LEARNT_AT).value.plans == [LEARNT]
  {
    var w := BeforeAnyCall();
    FirstReads();
    FirstReviews();
    FirstObserves();
    LearntFollows(Observed(w, R, LEARNT_AT));
    OnlyChannelDecides(w, LEARNT, LEARNT_AT);
  }

  lemma FirstProgram()
    ensures Wired(BeforeAnyCall()) && Reconcile(BeforeAnyCall(), LEARNT_AT).effects == Whole(LEARNT)
  {
    var w := BeforeAnyCall();
    FirstReads();
    FirstDecides();
    CallIsProgram(w, Idle, LEARNT_AT);
    FreshOfFirst(FreshDecision(w, LEARNT_AT).value);
  }

  lemma FreshOfFirst(d: Decided)
    requires d.plans == [LEARNT]
    ensures FreshRun(map[], Ok(d)).effects == Whole(LEARNT)
  {
    assert UngroupedEffects(d.plans[1..]) == [];
  }

  lemma FirstCallLearns()
    ensures Exec(BeforeAnyCall(), Whole(LEARNT), [LEARNT_AT, LEARNT_AT, LEARNT_AT]) == ReviewedOnce()
    ensures Ticking(LEARNT_AT, [LEARNT_AT, LEARNT_AT, LEARNT_AT])
  {
    var w, es, ts := BeforeAnyCall(), Whole(LEARNT), [LEARNT_AT, LEARNT_AT, LEARNT_AT];
    var w1 := Apply(w, es[0], LEARNT_AT);
    var w2 := Apply(w1, es[1], LEARNT_AT);
    assert ts[1..] == [LEARNT_AT, LEARNT_AT] && ts[1..][1..] == [LEARNT_AT] && ts[1..][1..][1..] == [];
    assert Ticking(LEARNT_AT, [LEARNT_AT]) && Ticking(LEARNT_AT, [LEARNT_AT, LEARNT_AT]);
    assert es[1..][0] == es[1] && es[1..][1..][0] == es[2];
    assert w2.note == map[R := Learning];
    assert Apply(w2, es[2], LEARNT_AT) == ReviewedOnce();
    assert Exec(w2, es[1..][1..], [LEARNT_AT]) == ReviewedOnce();
    assert Exec(w1, es[1..], [LEARNT_AT, LEARNT_AT]) == ReviewedOnce();
  }

  lemma FirstCallLeads()
    ensures Leads(BeforeAnyCall(), FIRST_CALL, ReviewedOnce())
  {
    FirstReads();
    FirstProgram();
    FirstCallLearns();
  }

  lemma ReviewedOnceWedges()
    ensures Wired(ReviewedOnce()) && GateDue(ReviewedOnce(), GATE, GATE_AT)
  {
    var w := ReviewedOnce();
    ExampleInvariant();
    ExampleNote(w);
    ExampleObserves();
    ExampleDecides();
    GateDueFrom(w, GATE, GATE_AT);
  }

  /** A concrete lifetime, from before the first call, that ends wedged. */
  lemma WedgedExample() returns (w: World, moves: seq<Move>, w': World)
    ensures Initial(w) && |moves| == 5 && Reaches(w, moves, w') && Wired(w')
    ensures forall later :: w'.clock <= later ==> Reconcile(w', later) == Refuse(IdentityReused)
  {
    var reviewed := ReviewedOnce();
    ReviewedOnceWedges();
    SuspensionWedges(reviewed, GATE, GATE_AT);
    w, w' := BeforeAnyCall(), Wedged(reviewed, GATE, GATE_AT);
    moves := [FIRST_CALL] + WedgingMoves(reviewed, GATE, GATE_AT);
    FirstReads();
    FirstCallLeads();
    OneMoreMove(w, FIRST_CALL, reviewed, WedgingMoves(reviewed, GATE, GATE_AT), w');
  }

  lemma OneMoreMove(w: World, m: Move, w1: World, moves: seq<Move>, w': World)
    requires Leads(w, m, w1) && Reaches(w1, moves, w')
    ensures Reaches(w, [m] + moves, w')
  {
    assert ([m] + moves)[1..] == moves;
  }
}
