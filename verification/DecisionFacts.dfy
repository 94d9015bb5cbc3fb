/**
 * What holds of every decision computed from an observed snapshot: it passes
 * both validators, and it is stable in time and under later evidence.
 */
module DecisionFacts {
  import opened Wrappers
  import opened Lifecycle
  import opened Journal
  import opened Observation
  import opened Decision
  import R = Revlog
  import M = Mastery

  function Observed(w: World, c: Channel, now: int): ChannelProgress
    requires Wired(w) && c in w.note && Placed(w, c)
  {
    Progress(w, c, R.Summarize(w.reviews[c], now), Replay(w.log, c).value)
  }

  lemma ObservedChannels(w: World, now: int)
    requires Wired(w) && Observe(w, now).Ok?
    ensures RevlogReadable(w.reviews, now) && HistoryReadable(w, now)
    ensures Observe(w, now).value.channels.Keys == w.note.Keys
    ensures Observe(w, now).value.allMasteredAt == AllMasteredAt(Observe(w, now).value.channels)
    ensures forall c :: c in w.note ==> Placed(w, c) && Observe(w, now).value.channels[c] == Observed(w, c, now)
  {
  }

  // -------------------------------------------------------------------------
  // The decision validator accepts every observed snapshot
  // -------------------------------------------------------------------------

  lemma ObservedOrder(rs: seq<R.Review>, now: int)
    requires R.CardReadable(rs, now)
    ensures R.Increasing(R.LifecycleReviews(rs)) && R.Increasing(R.Lapses(rs))
    ensures forall r :: r in R.LifecycleReviews(rs) ==> R.Instant(r.id) <= now
    ensures forall r :: r in R.Lapses(rs) ==> R.Instant(r.id) <= now
  {
    R.OrderedIsSorted(rs);
    R.FilterKeepsOrder(R.Ordered(rs), r => R.IsLifecycle(r));
    R.FilterKeepsOrder(R.LifecycleReviews(rs), r => R.IsLapse(r));
  }

  lemma ReadInstants(rs: seq<R.Review>, entered: Option<int>, now: int)
    requires R.Increasing(rs) && forall r :: r in rs ==> R.Instant(r.id) <= now
    ensures SeenBy(R.FirstId(rs), now) && SeenBy(R.LastId(rs), now)
    ensures rs != [] ==> R.FirstId(rs).value <= R.LastId(rs).value
    ensures SeenBy(R.FirstIdAfter(rs, entered), now) && AfterEntry(R.FirstIdAfter(rs, entered), entered)
  {
    if rs != [] { assert rs[0] in rs && rs[|rs| - 1] in rs; }
    if entered.Some? {
      R.FirstIdAfterIsEarliest(rs, entered.value);
    }
  }

  lemma ObservedReviews(rs: seq<R.Review>, now: int, entered: Option<int>)
    requires R.CardReadable(rs, now)
    ensures var s := R.Summarize(rs, now);
            && SeenBy(s.first, now) && SeenBy(s.latest, now) && SeenBy(s.latestLapse, now)
            && (s.first.Some? && s.latest.Some? ==> s.first.value <= s.latest.value)
            && s.ageDays >= 0
            && SeenBy(R.FirstIdAfter(s.lifecycle, entered), now)
            && AfterEntry(R.FirstIdAfter(s.lifecycle, entered), entered)
            && SeenBy(R.FirstIdAfter(s.lapses, entered), now) && AfterEntry(R.FirstIdAfter(s.lapses, entered), entered)
  {
    ObservedOrder(rs, now);
    ReadInstants(R.LifecycleReviews(rs), entered, now);
    ReadInstants(R.Lapses(rs), entered, now);
  }

  lemma ObservedEntry(w: World, c: Channel, now: int)
    requires Wired(w) && HistoryReadable(w, now) && c in w.note
    ensures var at := Replay(w.log, c).value;
            && Placed(w, c)
            && (w.note[c] == New <==> at.entered.None?)
            && (at.entered.Some? ==> at.entered.value <= now)
  {
    assert Placed(w, c);
    ReplayMeaning(w.log, c);
  }

  lemma ObservedAssessments(w: World, c: Channel, now: int)
    requires NoFuture(w.log, now)
    ensures forall a :: a in M.Ordered(AssessmentsOf(w.log, c)) ==> a.channel == c && a.ts <= now
    ensures M.Chronological(M.Ordered(AssessmentsOf(w.log, c)))
    ensures M.Ordered(M.Ordered(AssessmentsOf(w.log, c))) == M.Ordered(AssessmentsOf(w.log, c))
  {
    var xs := AssessmentsOf(w.log, c);
    M.OrderedIsChronological(xs);
    M.OrderedLeavesSorted(M.Ordered(xs));
    forall a | a in M.Ordered(xs) ensures a.channel == c && a.ts <= now {
      assert a in multiset(M.Ordered(xs));
      AssessmentsAreStamped(w.log, c, a, now);
    }
  }

  lemma AssessmentsAreStamped(log: seq<Entry>, c: Channel, a: M.Assessment, now: int)
    requires NoFuture(log, now) && a in AssessmentsOf(log, c)
    ensures a.channel == c && a.ts <= now
  {
    assert JudgeEntry(a) in log;
  }

  /** Every snapshot the observer returns satisfies the decision's own input checks. */
  lemma ObservedInputIsValid(w: World, now: int)
    requires Wired(w) && Observe(w, now).Ok?
    ensures DecisionInputOk(Observe(w, now).value, now)
  {
    ObservedChannels(w, now);
    var progress := Observe(w, now).value;
    forall c | c in progress.channels ensures ChannelInputOk(progress.channels[c], c, now) {
      ObservedEntry(w, c, now);
      ObservedReviews(w.reviews[c], now, Replay(w.log, c).value.entered);
      ObservedAssessments(w, c, now);
    }
    if progress.allMasteredAt.Some? {
      var cs := InOrder(progress.channels.Keys);
      AllMasteredEntries(progress, now);
    }
  }

  lemma AllMasteredEntries(progress: UnitProgress, now: int)
    requires forall c :: c in progress.channels ==> ChannelInputOk(progress.channels[c], c, now)
    requires progress.allMasteredAt == AllMasteredAt(progress.channels) && progress.allMasteredAt.Some?
    ensures progress.allMasteredAt.value <= now
    ensures forall c :: c in progress.channels ==>
              progress.channels[c].entered.Some? && progress.channels[c].entered.value <= progress.allMasteredAt.value
  {
    var cs := InOrder(progress.channels.Keys);
    var d :| d in progress.channels.Keys;
    assert d in cs;
    LatestEntryIsMaximum(progress.channels, cs);
  }

  // -------------------------------------------------------------------------
  // Plans, channel by channel
  // -------------------------------------------------------------------------

  predicate Chosen(choices: Choices, p: Plan, c: Channel) {
    c in choices && choices[c] == Ok(Some(p))
  }

  /** A chosen plan is an ungrouped plan for its channel, from where the channel is. */
  predicate OwnPlan(progress: UnitProgress, p: Plan, c: Channel) {
    && p.group.None? && p.id.trigger != DormancyElapsed
    && p.id.channel == c
    && SourceCurrent(progress, p)
  }

  lemma DecideChannelShape(p: ChannelProgress, now: int)
    requires DecideChannel(p, now).Ok? && DecideChannel(p, now).value.Some?
    ensures var plan := DecideChannel(p, now).value.value;
            && plan.group.None? && plan.id.trigger != DormancyElapsed
            && plan.id.channel == p.channel && plan.id.from == p.state && plan.id.episode == p.episode
            && EdgeAllowed(plan.id.from, plan.id.to)
  {
  }

  lemma ChoicesAreOwn(progress: UnitProgress, now: int)
    requires DecisionInputOk(progress, now)
    ensures forall c, p :: Chosen(ChoicesOf(progress, now), p, c) ==> OwnPlan(progress, p, c)
  {
    forall c, p | Chosen(ChoicesOf(progress, now), p, c) ensures OwnPlan(progress, p, c) {
      DecideChannelShape(progress.channels[c], now);
      assert ChannelInputOk(progress.channels[c], c, now);
    }
  }

  lemma {:induction false} CollectMeaning(choices: Choices, cs: seq<Channel>)
    requires forall c :: c in cs ==> c in choices
    requires forall i, j :: 0 <= i < j < |cs| ==> Rank(cs[i]) < Rank(cs[j])
    requires forall c, p :: Chosen(choices, p, c) ==> p.id.channel == c
    ensures Collect(choices, cs).Ok? <==> forall c :: c in cs ==> choices[c].Ok?
    ensures Collect(choices, cs).Ok? ==>
              var plans := Collect(choices, cs).value;
              && (forall p :: p in plans <==> Chosen(choices, p, p.id.channel) && p.id.channel in cs)
              && InChannelOrder(plans)
  {
    if cs != [] {
      assert cs == [cs[0]] + cs[1..];
      CollectMeaning(choices, cs[1..]);
      if Collect(choices, cs).Ok? && choices[cs[0]].value.Some? {
        assert Chosen(choices, choices[cs[0]].value.value, cs[0]);
        BehindFirstChannel(cs, Collect(choices, cs[1..]).value);
      }
    }
  }

  lemma BehindFirstChannel(cs: seq<Channel>, rest: seq<Plan>)
    requires cs != [] && forall i, j :: 0 <= i < j < |cs| ==> Rank(cs[i]) < Rank(cs[j])
    requires forall p :: p in rest ==> p.id.channel in cs[1..]
    ensures forall i :: 0 <= i < |rest| ==> Rank(cs[0]) < Rank(rest[i].id.channel)
  {
    forall i | 0 <= i < |rest| ensures Rank(cs[0]) < Rank(rest[i].id.channel) {
      assert rest[i] in rest;
      var k :| 0 <= k < |cs[1..]| && cs[1..][k] == rest[i].id.channel;
      assert cs[k + 1] == rest[i].id.channel;
    }
  }

  function Planned(progress: UnitProgress, now: int): seq<Plan>
    requires Collect(ChoicesOf(progress, now), InOrder(progress.channels.Keys)).Ok?
  {
    Collect(ChoicesOf(progress, now), InOrder(progress.channels.Keys)).value
  }

  /** What the channels planned, before dormancy is considered. */
  lemma PlannedMeaning(progress: UnitProgress, now: int)
    requires DecisionInputOk(progress, now)
    ensures var choices := ChoicesOf(progress, now);
            && (Collect(choices, InOrder(progress.channels.Keys)).Ok? <==> forall c :: c in choices ==> choices[c].Ok?)
            && (Collect(choices, InOrder(progress.channels.Keys)).Ok? ==>
                  && (forall p :: p in Planned(progress, now) <==> Chosen(choices, p, p.id.channel))
                  && (forall p :: p in Planned(progress, now) ==> OwnPlan(progress, p, p.id.channel))
                  && InChannelOrder(Planned(progress, now)))
  {
    ChoicesAreOwn(progress, now);
    CollectMeaning(ChoicesOf(progress, now), InOrder(progress.channels.Keys));
  }

  lemma MemberSourceCurrent(progress: UnitProgress)
    requires progress.allMasteredAt.Some?
    requires forall c :: c in progress.channels ==> progress.channels[c].state == Mastered
    ensures forall p :: p in MemberPlans(DormancyEvidence(progress)) ==> SourceCurrent(progress, p) && p.group.Some?
  {
    var ev := DormancyEvidence(progress);
    var cs := InOrder(ev.entries.Keys);
    forall p | p in MemberPlans(ev) ensures SourceCurrent(progress, p) && p.group.Some? {
      var i :| 0 <= i < |cs| && MemberPlans(ev)[i] == p;
      assert cs[i] in cs;
    }
  }

  /** Every computed decision passes the materialization validator. */
  lemma DecisionsMaterialize(progress: UnitProgress, now: int)
    requires Decide(progress, now).Ok?
    ensures ValidDecision(progress, Decide(progress, now).value)
  {
    PlannedMeaning(progress, now);
    var d := Decide(progress, now).value;
    if DormancyDue(progress, Planned(progress, now), now) {
      var ev := DormancyEvidence(progress);
      assert ev.entries.Keys == progress.channels.Keys;
      MemberPlansAreValid(ev);
      MemberSourceCurrent(progress);
      assert d.plans[0] in d.plans && d.plans[0].group.Some?;
    }
  }

  // -------------------------------------------------------------------------
  // Stability in time
  // -------------------------------------------------------------------------

  lemma {:induction false} FilterShrinks(rs: seq<R.Review>, keep: R.Review -> bool, fewer: R.Review -> bool)
    requires forall r :: fewer(r) ==> keep(r)
    ensures |R.Filter(rs, fewer)| <= |R.Filter(rs, keep)|
  {
    if rs != [] {
      FilterShrinks(rs[..|rs| - 1], keep, fewer);
    }
  }

  /** As time passes the card gets no younger and its recent lapses get no more. */
  lemma CountersMoveOneWay(rs: seq<R.Review>, now: int, later: int)
    requires R.CardReadable(rs, now) && now <= later
    ensures var s, s' := R.Summarize(rs, now), R.Summarize(rs, later);
            && s'.lapsesInWindow <= s.lapsesInWindow
            && s.ageDays <= s'.ageDays
            && s' == s.(lapsesInWindow := s'.lapsesInWindow, ageDays := s'.ageDays)
  {
    var window := Days(STABLE_ZERO_LAPSE_WINDOW_DAYS);
    FilterShrinks(R.Lapses(rs), (r: R.Review) => R.Instant(r.id) >= now - window,
                  (r: R.Review) => R.Instant(r.id) >= later - window);
    ObservedOrder(rs, now);
    ReadInstants(R.LifecycleReviews(rs), None, now);
  }

  /** On observed counters the age and lapse windows already lie past the boundary. */
  lemma CountersImplyBoundary(rs: seq<R.Review>, now: int)
    requires R.CardReadable(rs, now)
    requires var s := R.Summarize(rs, now);
             s.first.Some? && s.ageDays >= STABLE_MIN_AGE_DAYS && s.lapsesInWindow == 0
    ensures var s := R.Summarize(rs, now);
            now >= EligibilityBoundary(s.first.value, s.latestLapse)
  {
    var s := R.Summarize(rs, now);
    if s.latestLapse.Some? {
      var last := s.lapses[|s.lapses| - 1];
      assert last in s.lapses;
      var recent := R.Filter(s.lapses, (r: R.Review) => R.Instant(r.id) >= now - Days(STABLE_ZERO_LAPSE_WINDOW_DAYS));
      assert last !in recent;
    }
  }

  lemma StabilityKeptInTime(p: ChannelProgress, p': ChannelProgress, now: int, later: int)
    requires now <= later && StabilityEvidence(p, now).Some?
    requires p'.lapsesInWindow <= p.lapsesInWindow && 0 <= p'.lapsesInWindow && p.ageDays <= p'.ageDays
    requires p' == p.(lapsesInWindow := p'.lapsesInWindow, ageDays := p'.ageDays)
    ensures StabilityEvidence(p', later) == StabilityEvidence(p, now)
  {
  }

  /** A channel's plan, once due, stays due with the same identity. */
  lemma ChannelPlanStable(w: World, c: Channel, now: int, later: int)
    requires Wired(w) && now <= later && c in w.note && Placed(w, c)
    requires R.CardReadable(w.reviews[c], now)
    ensures var d, d' := DecideChannel(Observed(w, c, now), now), DecideChannel(Observed(w, c, later), later);
            && (d.Ok? <==> d'.Ok?)
            && (d.Ok? && d.value.Some? ==> d' == d)
            && (w.note[c] != Learning ==> d' == d)
  {
    CountersMoveOneWay(w.reviews[c], now, later);
    var p, p' := Observed(w, c, now), Observed(w, c, later);
    SameButCounters(p, p', now, later);
  }

  lemma SameButCounters(p: ChannelProgress, p': ChannelProgress, now: int, later: int)
    requires now <= later
    requires p'.lapsesInWindow <= p.lapsesInWindow && 0 <= p'.lapsesInWindow && p.ageDays <= p'.ageDays
    requires p' == p.(lapsesInWindow := p'.lapsesInWindow, ageDays := p'.ageDays)
    ensures var d, d' := DecideChannel(p, now), DecideChannel(p', later);
            && (d.Ok? <==> d'.Ok?)
            && (d.Ok? && d.value.Some? ==> d' == d)
            && (p.state != Learning ==> d' == d)
  {
    if p.state == Learning && StabilityEvidence(p, now).Some? {
      StabilityKeptInTime(p, p', now, later);
    }
  }

  lemma ReadableLater(w: World, now: int, later: int)
    requires Wired(w) && now <= later && Observe(w, now).Ok?
    ensures Observe(w, later).Ok?
  {
    ObservedChannels(w, now);
    RevlogReadableLater(w.reviews, now, later);
    HistoryReadableLater(w, now, later);
  }

  lemma RevlogReadableLater(reviews: map<Channel, seq<R.Review>>, now: int, later: int)
    requires now <= later && RevlogReadable(reviews, now)
    ensures RevlogReadable(reviews, later)
  {
  }

  lemma HistoryReadableLater(w: World, now: int, later: int)
    requires Wired(w) && now <= later && HistoryReadable(w, now)
    ensures HistoryReadable(w, later)
  {
  }

  lemma MasteredAtUnchanged(a: UnitProgress, b: UnitProgress)
    requires a.channels.Keys == b.channels.Keys
    requires forall c :: c in a.channels ==>
                 a.channels[c].state == b.channels[c].state && a.channels[c].entered == b.channels[c].entered
    ensures AllMasteredAt(a.channels) == AllMasteredAt(b.channels)
  {
    LatestEntryUnchanged(a.channels, b.channels, InOrder(a.channels.Keys));
  }

  lemma {:induction false} LatestEntryUnchanged(a: map<Channel, ChannelProgress>, b: map<Channel, ChannelProgress>,
                                                cs: seq<Channel>)
    requires forall c :: c in cs ==> c in a && c in b && a[c].entered == b[c].entered
    ensures LatestEntry(a, cs) == LatestEntry(b, cs)
  {
    if cs != [] {
      LatestEntryUnchanged(a, b, cs[1..]);
    }
  }

  /** One snapshot carries the choices of another over. */
  ghost predicate CarriesOver(a: UnitProgress, ca: Choices, b: UnitProgress, cb: Choices) {
    && a.channels.Keys == b.channels.Keys == ca.Keys == cb.Keys
    && a.allMasteredAt == b.allMasteredAt
    && (forall c :: c in a.channels ==> a.channels[c].state == b.channels[c].state)
    && (forall c :: c in a.channels ==> a.channels[c].episode == b.channels[c].episode)
    && (forall c, p :: Chosen(ca, p, c) ==> Chosen(cb, p, c))
    && (forall c, p :: Chosen(cb, p, c) && a.channels[c].state != Learning ==> Chosen(ca, p, c))
  }

  lemma ChoicesStable(w: World, now: int, later: int)
    requires Wired(w) && now <= later && Observe(w, now).Ok? && Observe(w, later).Ok?
    requires var a := Observe(w, now).value;
             forall c :: c in ChoicesOf(a, now) ==> ChoicesOf(a, now)[c].Ok?
    ensures var a, b := Observe(w, now).value, Observe(w, later).value;
            && CarriesOver(a, ChoicesOf(a, now), b, ChoicesOf(b, later))
            && forall c :: c in ChoicesOf(b, later) ==> ChoicesOf(b, later)[c].Ok?
  {
    ObservedChannels(w, now);
    ObservedChannels(w, later);
    var a, b := Observe(w, now).value, Observe(w, later).value;
    var ca, cb := ChoicesOf(a, now), ChoicesOf(b, later);
    forall c | c in w.note
      ensures SameChoice(a.channels[c], ca[c], b.channels[c], cb[c])
    {
      assert a.channels[c] == Observed(w, c, now) && b.channels[c] == Observed(w, c, later);
      ChannelPlanStable(w, c, now, later);
    }
    MasteredAtUnchanged(a, b);
    SameChoicesCarryOver(a, ca, b, cb);
  }

  ghost predicate SameChoice(p: ChannelProgress, d: Result<Option<Plan>, Refusal>, p': ChannelProgress,
                             d': Result<Option<Plan>, Refusal>) {
    && p.state == p'.state && p.episode == p'.episode && p.entered == p'.entered
    && (d.Ok? ==> d'.Ok?)
    && (d.Ok? && d.value.Some? ==> d' == d)
    && (p.state != Learning ==> d' == d)
  }

  lemma SameChoicesCarryOver(a: UnitProgress, ca: Choices, b: UnitProgress, cb: Choices)
    requires a.channels.Keys == b.channels.Keys == ca.Keys == cb.Keys && a.allMasteredAt == b.allMasteredAt
    requires forall c :: c in ca ==> ca[c].Ok?
    requires forall c :: c in ca ==> SameChoice(a.channels[c], ca[c], b.channels[c], cb[c])
    ensures CarriesOver(a, ca, b, cb) && forall c :: c in cb ==> cb[c].Ok?
  {
    forall c | c in ca ensures cb[c].Ok? && (ca[c].value.Some? ==> cb[c] == ca[c])
                            && a.channels[c].state == b.channels[c].state
                            && a.channels[c].episode == b.channels[c].episode
                            && (a.channels[c].state != Learning ==> cb[c] == ca[c])
    {
      assert SameChoice(a.channels[c], ca[c], b.channels[c], cb[c]);
    }
  }

  lemma SettledCarriesOver(a: UnitProgress, ca: Choices, pa: seq<Plan>, b: UnitProgress, cb: Choices, pb: seq<Plan>,
                           now: int, later: int)
    requires now <= later && CarriesOver(a, ca, b, cb)
    requires forall p :: p in pa <==> Chosen(ca, p, p.id.channel)
    requires forall p :: p in pb <==> Chosen(cb, p, p.id.channel)
    ensures forall p :: p in Settle(a, pa, now).plans ==> p in Settle(b, pb, later).plans
    ensures Settle(a, pa, now).suspend != [] ==> Settle(b, pb, later).plans == Settle(a, pa, now).plans
  {
    if DormancyDue(a, pa, now) {
      forall p ensures p !in pb {
        assert Chosen(cb, p, p.id.channel) ==> p in pa;
      }
      if pb != [] {
        NonEmptyHasMember(pb);
      }
      assert DormancyEvidence(a) == DormancyEvidence(b);
    } else if pa != [] {
      assert pa[0] in pa;
      assert pa[0] in pb;
    }
  }

  lemma NonEmptyHasMember(ys: seq<Plan>)
    requires ys != []
    ensures exists y :: y in ys
  {
    assert ys[0] in ys;
  }

  /**
   * Decisions are stable in time: with reviews, events and cards fixed, whatever
   * is planned at one instant is planned with the same identity at every later one.
   */
  lemma DecisionsStableInTime(w: World, now: int, later: int)
    requires Wired(w) && now <= later
    requires Observe(w, now).Ok? && Decide(Observe(w, now).value, now).Ok?
    ensures Observe(w, later).Ok? && Decide(Observe(w, later).value, later).Ok?
    ensures forall p :: p in Decide(Observe(w, now).value, now).value.plans ==>
                        p in Decide(Observe(w, later).value, later).value.plans
    ensures Decide(Observe(w, now).value, now).value.suspend != [] ==>
              Decide(Observe(w, later).value, later).value.plans == Decide(Observe(w, now).value, now).value.plans
  {
    ReadableLater(w, now, later);
    var a, b := Observe(w, now).value, Observe(w, later).value;
    var ca, cb := ChoicesOf(a, now), ChoicesOf(b, later);
    ObservedInputIsValid(w, later);
    PlannedMeaning(a, now);
    ChoicesStable(w, now, later);
    PlannedMeaning(b, later);
    SettledCarriesOver(a, ca, Planned(a, now), b, cb, Planned(b, later), now, later);
  }

  // -------------------------------------------------------------------------
  // Stability under later evidence
  // -------------------------------------------------------------------------

  /** Evidence of these triggers is the first of its kind and cannot be revoked by more. */
  predicate Irrevocable(p: Plan) {
    p.id.trigger in {FirstReview, ReviewLapse, AssessmentFail, RelapseReview}
  }

  predicate ReviewsShow(rs: seq<R.Review>, at: Position, id: TransitionId) {
    match id.trigger
    case FirstReview =>
      && id.from == New && id.to == Learning
      && R.FirstId(R.LifecycleReviews(rs)).Some?
      && id.evidence == FirstReviewSeen(R.FirstId(R.LifecycleReviews(rs)).value)
    case ReviewLapse =>
      && id.from == Stable && id.to == Learning
      && R.FirstIdAfter(R.Lapses(rs), at.entered).Some?
      && id.evidence == LapseSeen(R.FirstIdAfter(R.Lapses(rs), at.entered).value)
    case RelapseReview =>
      && id.from == Relapse && id.to == Learning
      && R.FirstIdAfter(R.LifecycleReviews(rs), at.entered).Some?
      && id.evidence == RelapseReviewSeen(R.FirstIdAfter(R.LifecycleReviews(rs), at.entered).value)
    case _ => false
  }

  predicate FailureShown(xs: seq<M.Assessment>, at: Position, id: TransitionId) {
    && id.trigger == AssessmentFail
    && (id.from == Mastered || id.from == Dormant) && id.to == LifeState.Relapse
    && at.entered.Some?
    && M.EarliestFailure(xs, at.entered.value).Some?
    && id.evidence == FailureSeen(M.EarliestFailure(xs, at.entered.value).value.id)
  }

  /** The stores still show the evidence that the plan quotes. */
  predicate Shown(w: World, p: Plan) {
    var c := p.id.channel;
    && c in w.reviews && Replay(w.log, c).Some? && Continues(Replay(w.log, c).value, p) && p.group.None?
    && (ReviewsShow(w.reviews[c], Replay(w.log, c).value, p.id)
        || FailureShown(M.Ordered(AssessmentsOf(w.log, c)), Replay(w.log, c).value, p.id))
  }

  /** The same, read from the snapshot of the channel. */
  predicate SnapshotShows(p: ChannelProgress, id: TransitionId) {
    match id.trigger
    case FirstReview =>
      p.state == New && id.to == Learning && p.first.Some? && id.evidence == FirstReviewSeen(p.first.value)
    case ReviewLapse =>
      && p.state == Stable && id.to == Learning
      && p.lapseAfterEntry.Some? && id.evidence == LapseSeen(p.lapseAfterEntry.value)
    case RelapseReview =>
      && p.state == LifeState.Relapse && id.to == Learning
      && p.reviewAfterEntry.Some? && id.evidence == RelapseReviewSeen(p.reviewAfterEntry.value)
    case AssessmentFail =>
      var failure := M.EarliestFailure(M.Ordered(p.assessments), EntryInstant(p));
      && (p.state == Mastered || p.state == Dormant) && id.to == LifeState.Relapse
      && failure.Some? && id.evidence == FailureSeen(failure.value.id)
    case _ => false
  }

  lemma SnapshotDecides(p: ChannelProgress, plan: Plan, now: int)
    requires Irrevocable(plan)
    ensures DecideChannel(p, now) == Ok(Some(plan)) <==>
            && plan.group.None? && plan.id.channel == p.channel
            && plan.id.from == p.state && plan.id.episode == p.episode
            && SnapshotShows(p, plan.id)
  {
  }

  lemma ShownInSnapshot(w: World, p: Plan, now: int)
    requires Wired(w) && Observe(w, now).Ok?
    requires p.id.channel in w.note && Placed(w, p.id.channel)
    ensures var at, o := Replay(w.log, p.id.channel).value, Observed(w, p.id.channel, now);
            Shown(w, p) <==>
            p.group.None? && p.id.from == o.state && p.id.episode == o.episode && SnapshotShows(o, p.id)
  {
    ObservedChannels(w, now);
    ObservedAssessments(w, p.id.channel, now);
    ObservedEntry(w, p.id.channel, now);
    var at, o := Replay(w.log, p.id.channel).value, Observed(w, p.id.channel, now);
    EvidenceInSnapshot(w.reviews[p.id.channel], M.Ordered(AssessmentsOf(w.log, p.id.channel)), at, o, p.id);
  }

  lemma EvidenceInSnapshot(rs: seq<R.Review>, xs: seq<M.Assessment>, at: Position, o: ChannelProgress, id: TransitionId)
    requires o.state == at.state && o.entered == at.entered && (at.state == New <==> at.entered.None?)
    requires o.first == R.FirstId(R.LifecycleReviews(rs))
    requires o.reviewAfterEntry == R.FirstIdAfter(R.LifecycleReviews(rs), at.entered)
    requires o.lapseAfterEntry == R.FirstIdAfter(R.Lapses(rs), at.entered)
    requires M.Ordered(o.assessments) == xs
    ensures id.from == at.state && SnapshotShows(o, id) <==>
            id.from == at.state && (ReviewsShow(rs, at, id) || FailureShown(xs, at, id))
  {
  }

  /** Shown evidence is what the channel decides on, at every instant. */
  lemma ShownIsDecided(w: World, p: Plan, now: int)
    requires Wired(w) && Observe(w, now).Ok?
    requires p.id.channel in w.note && Placed(w, p.id.channel) && Irrevocable(p)
    ensures Shown(w, p) <==> DecideChannel(Observed(w, p.id.channel, now), now) == Ok(Some(p))
  {
    ShownInSnapshot(w, p, now);
    SnapshotDecides(Observed(w, p.id.channel, now), p, now);
  }

  lemma NewerReviewStillShows(rs: seq<R.Review>, r: R.Review, at: Position, id: TransitionId)
    requires ReviewsShow(rs, at, id)
    requires R.DistinctIds(rs) && forall x :: x in rs ==> x.id < r.id
    ensures ReviewsShow(rs + [r], at, id)
  {
    R.NewerReviewKeepsFirsts(rs, r, at.entered);
  }

  lemma LaterJudgeStillShows(xs: seq<M.Assessment>, a: M.Assessment, at: Position, id: TransitionId)
    requires FailureShown(M.Ordered(xs), at, id)
    requires forall x :: x in xs ==> x.ts <= a.ts
    ensures FailureShown(M.Ordered(xs + [a]), at, id)
  {
    M.OrderedAppends(xs, a);
    M.EarliestFailureAppends(M.Ordered(xs), a, at.entered.value);
  }
}
