/**
 * When the stores warrant a transition, said of review rows, cards, assessments and
 * committed chains alone. A fresh decision plans exactly what is warranted.
 */
module Warrants {
  import opened Wrappers
  import opened Lifecycle
  import opened Journal
  import opened Observation
  import opened Decision
  import opened DecisionFacts
  import opened Protocol
  import opened Recovery
  import R = Revlog
  import M = Mastery

  // -------------------------------------------------------------------------
  // What the stores hold
  // -------------------------------------------------------------------------

  /** Anki's kinds 0, 1 and 2 are rows of scheduling; kind 3 is cram. */
  predicate Scheduling(r: R.Review) {
    0 <= r.kind <= 2
  }

  /** A review, kind 1, that was answered "again". */
  predicate Forgotten(r: R.Review) {
    r.kind == 1 && r.ease == 1
  }

  function ReviewIds(rs: seq<R.Review>): set<nat> {
    set r | r in rs && Scheduling(r) :: r.id
  }

  function LapseIds(rs: seq<R.Review>): set<nat> {
    set r | r in rs && Forgotten(r) :: r.id
  }

  /** The ids of rows after the instant; an id counts milliseconds. */
  function After(ids: set<nat>, t: int): set<nat> {
    set id | id in ids && id * 1000 > t
  }

  predicate Least(ids: set<nat>, id: nat) {
    id in ids && forall x :: x in ids ==> id <= x
  }

  predicate Greatest(ids: set<nat>, id: nat) {
    id in ids && forall x :: x in ids ==> x <= id
  }

  /** The assessments of a channel by instant, as far as the log has them. */
  function Heard(w: World, c: Channel): seq<M.Assessment> {
    M.Ordered(AssessmentsOf(w.log, c))
  }

  /** A novel failure after the entry. */
  predicate Fails(a: M.Assessment, entry: int) {
    a.novel && !a.passed && a.ts > entry
  }

  ghost predicate FirstFailure(xs: seq<M.Assessment>, entry: int, i: nat) {
    i < |xs| && Fails(xs[i], entry) && forall k :: 0 <= k < i ==> !Fails(xs[k], entry)
  }

  /** The channel has left NEW, and this is where and when its chain ends. */
  predicate EnteredAt(w: World, c: Channel, t: int) {
    Replay(w.log, c).Some? && Replay(w.log, c).value.entered == Some(t)
  }

  // -------------------------------------------------------------------------
  // What warrants a transition of one channel
  // -------------------------------------------------------------------------

  /** The passes that the earliest pair with an opener consists of. */
  ghost predicate Earned(xs: seq<M.Assessment>, entry: int, ev: Evidence) {
    exists i: nat, j: nat ::
      && M.AnchoredPair(xs, entry, i, j)
      && (forall i': nat, j': nat :: j' < j ==> !M.AnchoredPair(xs, entry, i', j'))
      && ev == PassesSelected([xs[i].id, xs[j].id], [xs[i].stimulus, xs[j].stimulus], xs[j].id)
  }

  /** No lapse in the last thirty days and a first review at least 21 days ago. */
  ghost predicate Steady(rs: seq<R.Review>, now: int) {
    && (exists first: nat :: Least(ReviewIds(rs), first) && now - first * 1000 >= Days(21))
    && forall lapse :: lapse in LapseIds(rs) ==> now - lapse * 1000 > Days(30)
  }

  /** The evidence quotes the rows and the instant from which the gate stands open. */
  ghost predicate Quotes(rs: seq<R.Review>, ev: Evidence) {
    && ev.StabilityShown?
    && Least(ReviewIds(rs), ev.first) && Greatest(ReviewIds(rs), ev.latest)
    && match ev.latestLapse
       case None => LapseIds(rs) == {} && ev.boundary == ev.first * 1000 + Days(21)
       case Some(lapse) =>
         && Greatest(LapseIds(rs), lapse)
         && ev.boundary >= ev.first * 1000 + Days(21) && ev.boundary >= lapse * 1000 + Days(30)
         && (ev.boundary == ev.first * 1000 + Days(21) || ev.boundary == lapse * 1000 + Days(30))
  }

  /** What rows, card and assessments say of one channel's transition by itself. */
  ghost predicate Calls(rs: seq<R.Review>, card: Card, entered: Option<int>, xs: seq<M.Assessment>, now: int,
                        id: TransitionId)
  {
    match id.trigger
    case FirstReview =>
      && id.from == New && id.to == Learning
      && id.evidence.FirstReviewSeen? && Least(ReviewIds(rs), id.evidence.reviewId)
    case StabilityGate =>
      && id.from == Learning && id.to == Stable
      && Steady(rs, now) && card.interval >= 21 && !card.suspended
      && Quotes(rs, id.evidence) && id.evidence.interval == card.interval
    case ReviewLapse =>
      && id.from == Stable && id.to == Learning && entered.Some?
      && id.evidence.LapseSeen? && Least(After(LapseIds(rs), entered.value), id.evidence.reviewId)
    case MasteryPass =>
      && id.from == Stable && id.to == Mastered && entered.Some?
      && After(LapseIds(rs), entered.value) == {} && Earned(xs, entered.value, id.evidence)
    case AssessmentFail =>
      && (id.from == Mastered || id.from == Dormant) && id.to == LifeState.Relapse && entered.Some?
      && exists i: nat :: FirstFailure(xs, entered.value, i) && id.evidence == FailureSeen(xs[i].id)
    case RelapseReview =>
      && id.from == LifeState.Relapse && id.to == Learning && entered.Some?
      && id.evidence.RelapseReviewSeen? && Least(After(ReviewIds(rs), entered.value), id.evidence.reviewId)
    case DormancyElapsed => false
  }

  /** What the stores say of it. */
  ghost predicate Alone(w: World, now: int, id: TransitionId)
    requires id.channel in w.reviews && id.channel in w.cards && Replay(w.log, id.channel).Some?
  {
    var c := id.channel;
    Calls(w.reviews[c], w.cards[c], Replay(w.log, c).value.entered, Heard(w, c), now, id)
  }

  // -------------------------------------------------------------------------
  // What warrants dormancy of the unit
  // -------------------------------------------------------------------------

  /** No novel assessment after the entry was failed. */
  ghost predicate Unfailed(w: World, c: Channel, entry: int) {
    forall a: M.Assessment :: JudgeEntry(a) in w.log && a.channel == c ==> !Fails(a, entry)
  }

  /** MASTERED at the instant, and never failed since. */
  ghost predicate Masters(w: World, c: Channel, t: int) {
    c in w.note && w.note[c] == Mastered && EnteredAt(w, c, t) && Unfailed(w, c, t)
  }

  /** Every channel is MASTERED, the last of them at `t`, and none has failed since. */
  ghost predicate MasteredSince(w: World, t: int) {
    && (forall c :: c in w.note ==> exists s :: s <= t && Masters(w, c, s))
    && exists c :: Masters(w, c, t)
  }

  ghost predicate Together(w: World, now: int, ev: Evidence) {
    && ev.DormancyAgreed?
    && MasteredSince(w, ev.masteredAt)
    && ev.boundary == ev.masteredAt + Days(30) && ev.boundary <= now
    && ev.entries.Keys == w.note.Keys
    && forall c :: c in w.note ==> Replay(w.log, c).Some? && ev.entries[c] == Replay(w.log, c).value.episode
  }

  /** The stores warrant the plan: alone, or as a member of the dormancy of the whole unit. */
  ghost predicate Warranted(w: World, now: int, p: Plan)
    requires Wired(w)
  {
    var c := p.id.channel;
    && c in w.note && Replay(w.log, c).Some?
    && p.id.from == w.note[c] && p.id.episode == Replay(w.log, c).value.episode
    && match p.group
       case None => Alone(w, now, p.id)
       case Some(g) =>
         && p.id.to == Dormant && p.id.trigger == DormancyElapsed
         && Together(w, now, p.id.evidence) && g == MemberGroup(p.id.evidence)
  }

  // -------------------------------------------------------------------------
  // What is read from the rows
  // -------------------------------------------------------------------------

  function IdsOfRows(rs: seq<R.Review>): set<nat> {
    set r | r in rs :: r.id
  }

  lemma RowsRead(rs: seq<R.Review>, now: int)
    requires R.CardReadable(rs, now)
    ensures R.Increasing(R.LifecycleReviews(rs)) && IdsOfRows(R.LifecycleReviews(rs)) == ReviewIds(rs)
    ensures R.Increasing(R.Lapses(rs)) && IdsOfRows(R.Lapses(rs)) == LapseIds(rs)
  {
    ObservedOrder(rs, now);
    RowsKept(rs, now);
    SameIds(R.LifecycleReviews(rs), set r | r in rs && Scheduling(r));
    SameIds(R.Lapses(rs), set r | r in rs && Forgotten(r));
  }

  lemma RowsKept(rs: seq<R.Review>, now: int)
    requires R.CardReadable(rs, now)
    ensures forall r :: r in R.LifecycleReviews(rs) <==> r in rs && Scheduling(r)
    ensures forall r :: r in R.Lapses(rs) <==> r in rs && Forgotten(r)
  {
    R.OrderedIsSorted(rs);
    forall r: R.Review
      ensures R.IsLifecycle(r) <==> Scheduling(r)
      ensures R.IsLapse(r) <==> Forgotten(r)
    {
    }
  }

  lemma SameIds(rs: seq<R.Review>, kept: set<R.Review>)
    requires forall r :: r in rs <==> r in kept
    ensures IdsOfRows(rs) == set r | r in kept :: r.id
  {
  }

  lemma EndsRead(rs: seq<R.Review>, id: nat)
    requires R.Increasing(rs)
    ensures R.FirstId(rs) == Some(id) <==> Least(IdsOfRows(rs), id)
    ensures R.LastId(rs) == Some(id) <==> Greatest(IdsOfRows(rs), id)
    ensures R.FirstId(rs).None? <==> IdsOfRows(rs) == {}
    ensures R.LastId(rs).None? <==> IdsOfRows(rs) == {}
  {
    if rs != [] {
      var first, last := rs[0], rs[|rs| - 1];
      assert first in rs && last in rs;
      assert first.id in IdsOfRows(rs) && last.id in IdsOfRows(rs);
      forall r | r in rs ensures first.id <= r.id <= last.id {
        var k :| 0 <= k < |rs| && rs[k] == r;
      }
    }
  }

  lemma FirstAfterRead(rs: seq<R.Review>, t: int, id: nat)
    requires R.Increasing(rs)
    ensures R.FirstIdAfter(rs, Some(t)) == Some(id) <==> Least(After(IdsOfRows(rs), t), id)
    ensures R.FirstIdAfter(rs, Some(t)).None? <==> After(IdsOfRows(rs), t) == {}
  {
    R.FirstIdAfterIsEarliest(rs, t);
    var found := R.FirstIdAfter(rs, Some(t));
    if found.Some? {
      assert found.value in After(IdsOfRows(rs), t);
    } else {
      assert forall r :: r in rs ==> R.Instant(r.id) <= t;
    }
  }

  lemma AgeRead(first: nat, now: int)
    ensures R.AgeDays(Some(first), now) >= STABLE_MIN_AGE_DAYS <==> now - first * 1000 >= Days(21)
  {
  }

  lemma WindowRead(rs: seq<R.Review>, now: int)
    requires R.CardReadable(rs, now)
    ensures R.Summarize(rs, now).lapsesInWindow == 0 <==>
            forall lapse :: lapse in LapseIds(rs) ==> now - lapse * 1000 > Days(30)
  {
    RowsRead(rs, now);
    var recent := R.Filter(R.Lapses(rs),
                           (r: R.Review) => R.Instant(r.id) >= now - Days(STABLE_ZERO_LAPSE_WINDOW_DAYS));
    if recent != [] {
      assert recent[0] in recent && recent[0] in R.Lapses(rs);
      assert recent[0].id in LapseIds(rs);
    } else {
      forall lapse | lapse in LapseIds(rs) ensures now - lapse * 1000 > Days(30) {
        assert lapse in IdsOfRows(R.Lapses(rs));
        var r :| r in R.Lapses(rs) && r.id == lapse;
        assert r !in recent;
      }
    }
  }

  lemma {:induction false} AsManyIdsAsRows(rs: seq<R.Review>)
    requires R.Increasing(rs)
    ensures |IdsOfRows(rs)| == |rs|
  {
    if rs != [] {
      var init, last := rs[..|rs| - 1], rs[|rs| - 1];
      AsManyIdsAsRows(init);
      assert rs == init + [last];
      assert IdsOfRows(rs) == IdsOfRows(init) + {last.id};
      assert last.id !in IdsOfRows(init);
    }
  }

  /** The counters of a card: the lapses of the last thirty days, and whole days since the first review. */
  lemma CountersSay(rs: seq<R.Review>, now: int)
    requires R.CardReadable(rs, now)
    ensures var s := R.Summarize(rs, now);
            && s.lapsesInWindow == |set id | id in LapseIds(rs) && now - id * 1000 <= Days(30)|
            && (forall first: nat :: Least(ReviewIds(rs), first) ==>
                  Days(s.ageDays) <= now - first * 1000 < Days(s.ageDays + 1))
  {
    RowsRead(rs, now);
    WindowCounts(rs, now);
    forall first: nat | Least(ReviewIds(rs), first)
      ensures var age := R.Summarize(rs, now).ageDays; Days(age) <= now - first * 1000 < Days(age + 1)
    {
      AgeCounts(rs, now, first);
    }
  }

  lemma AgeCounts(rs: seq<R.Review>, now: int, first: nat)
    requires R.Increasing(R.LifecycleReviews(rs)) && Least(IdsOfRows(R.LifecycleReviews(rs)), first)
    ensures var age := R.Summarize(rs, now).ageDays; Days(age) <= now - first * 1000 < Days(age + 1)
  {
    EndsRead(R.LifecycleReviews(rs), first);
    WholeDays(first, now);
  }

  lemma WholeDays(first: nat, now: int)
    ensures var age := R.AgeDays(Some(first), now); Days(age) <= now - first * 1000 < Days(age + 1)
  {
  }

  lemma WindowCounts(rs: seq<R.Review>, now: int)
    requires R.Increasing(R.Lapses(rs)) && IdsOfRows(R.Lapses(rs)) == LapseIds(rs)
    ensures R.Summarize(rs, now).lapsesInWindow == |set id | id in LapseIds(rs) && now - id * 1000 <= Days(30)|
  {
    var recent := R.Filter(R.Lapses(rs),
                           (r: R.Review) => R.Instant(r.id) >= now - Days(STABLE_ZERO_LAPSE_WINDOW_DAYS));
    R.FilterKeepsOrder(R.Lapses(rs), (r: R.Review) => R.Instant(r.id) >= now - Days(STABLE_ZERO_LAPSE_WINDOW_DAYS));
    AsManyIdsAsRows(recent);
    RecentIds(rs, recent, now);
  }

  lemma RecentIds(rs: seq<R.Review>, recent: seq<R.Review>, now: int)
    requires IdsOfRows(R.Lapses(rs)) == LapseIds(rs)
    requires forall r :: r in recent <==> r in R.Lapses(rs) && now - r.id * 1000 <= Days(30)
    ensures IdsOfRows(recent) == set id | id in LapseIds(rs) && now - id * 1000 <= Days(30)
  {
    forall id | id in LapseIds(rs) && now - id * 1000 <= Days(30) ensures id in IdsOfRows(recent) {
      assert id in IdsOfRows(R.Lapses(rs));
      var r :| r in R.Lapses(rs) && r.id == id;
      assert r in recent;
    }
    forall id | id in IdsOfRows(recent) ensures id in LapseIds(rs) && now - id * 1000 <= Days(30) {
      var r :| r in recent && r.id == id;
      assert r.id in IdsOfRows(R.Lapses(rs));
    }
  }

  /** The counters let the gate open exactly when the rows are steady. */
  lemma GateRead(rs: seq<R.Review>, o: ChannelProgress, now: int, ev: Evidence)
    requires R.CardReadable(rs, now) && o.interval >= 0
    requires var s := R.Summarize(rs, now);
             && o.lapsesInWindow == s.lapsesInWindow && o.ageDays == s.ageDays
             && o.first == s.first && o.latest == s.latest && o.latestLapse == s.latestLapse
    ensures StabilityEvidence(o, now) == Some(ev) <==>
            && Steady(rs, now) && o.interval >= 21 && !o.suspended
            && Quotes(rs, ev) && ev.interval == o.interval
  {
    RowsRead(rs, now);
    WindowRead(rs, now);
    if o.first.Some? {
      EndsRead(R.LifecycleReviews(rs), o.first.value);
      EndsRead(R.LifecycleReviews(rs), o.latest.value);
      AgeRead(o.first.value, now);
      if CountersStable(o) { CountersImplyBoundary(rs, now); }
      QuotesRead(rs, o, ev);
    } else {
      EndsRead(R.LifecycleReviews(rs), 0);
    }
  }

  lemma QuotesRead(rs: seq<R.Review>, o: ChannelProgress, ev: Evidence)
    requires R.Increasing(R.LifecycleReviews(rs)) && IdsOfRows(R.LifecycleReviews(rs)) == ReviewIds(rs)
    requires R.Increasing(R.Lapses(rs)) && IdsOfRows(R.Lapses(rs)) == LapseIds(rs)
    requires o.first == R.FirstId(R.LifecycleReviews(rs)) && o.latest == R.LastId(R.LifecycleReviews(rs))
    requires o.latestLapse == R.LastId(R.Lapses(rs)) && o.first.Some? && o.interval >= 0
    ensures Quotes(rs, ev) && ev.interval == o.interval <==>
            ev == StabilityShown(o.first.value, o.latest.value, o.latestLapse, o.interval,
                                 EligibilityBoundary(o.first.value, o.latestLapse))
  {
    EndsRead(R.LifecycleReviews(rs), o.first.value);
    EndsRead(R.LifecycleReviews(rs), o.latest.value);
    EndsRead(R.Lapses(rs), if o.latestLapse.Some? then o.latestLapse.value else 0);
    if ev.StabilityShown? {
      EndsRead(R.LifecycleReviews(rs), ev.first);
      EndsRead(R.LifecycleReviews(rs), ev.latest);
      EndsRead(R.Lapses(rs), if ev.latestLapse.Some? then ev.latestLapse.value else 0);
    }
  }

  lemma {:induction false} FailureRead(xs: seq<M.Assessment>, entry: int, a: M.Assessment)
    ensures M.EarliestFailure(xs, entry) == Some(a) <==> exists i: nat :: FirstFailure(xs, entry, i) && xs[i] == a
    ensures M.EarliestFailure(xs, entry).None? <==> forall x :: x in xs ==> !Fails(x, entry)
  {
    if xs != [] {
      assert xs == [xs[0]] + xs[1..];
      if Fails(xs[0], entry) {
        assert xs[0] in xs;
        assert FirstFailure(xs, entry, 0);
      } else {
        FailureRead(xs[1..], entry, a);
        LaterFailure(xs, entry, a);
      }
    }
  }

  lemma LaterFailure(xs: seq<M.Assessment>, entry: int, a: M.Assessment)
    requires xs != [] && !Fails(xs[0], entry)
    ensures (exists i: nat :: FirstFailure(xs[1..], entry, i) && xs[1..][i] == a) <==>
            exists i: nat :: FirstFailure(xs, entry, i) && xs[i] == a
  {
    if i: nat :| FirstFailure(xs, entry, i) && xs[i] == a {
      assert FirstFailure(xs[1..], entry, i - 1);
    }
    if i: nat :| FirstFailure(xs[1..], entry, i) && xs[1..][i] == a {
      forall k | 0 <= k < i + 1 ensures !Fails(xs[k], entry) {
        if k > 0 { assert xs[k] == xs[1..][k - 1]; }
      }
      assert FirstFailure(xs, entry, i + 1);
    }
  }

  lemma FailureQuoted(xs: seq<M.Assessment>, entry: int, ev: Evidence)
    ensures (exists i: nat :: FirstFailure(xs, entry, i) && ev == FailureSeen(xs[i].id)) <==>
            M.EarliestFailure(xs, entry).Some? && ev == FailureSeen(M.EarliestFailure(xs, entry).value.id)
  {
    var f := M.EarliestFailure(xs, entry);
    if f.Some? {
      FailureRead(xs, entry, f.value);
    }
    if i: nat :| FirstFailure(xs, entry, i) {
      FailureRead(xs, entry, xs[i]);
    }
  }

  lemma EarnedRead(xs: seq<M.Assessment>, entry: int, ev: Evidence)
    requires M.MasterySelection(xs, entry).Ok?
    ensures M.MasteryEvidence(xs, entry) == Ok(Some(ev)) <==> Earned(xs, entry, ev)
    ensures M.MasteryEvidence(xs, entry).Ok?
    ensures M.MasteryEvidence(xs, entry).value.Some? <==> exists i: nat, j: nat :: M.AnchoredPair(xs, entry, i, j)
  {
    M.MasteryExactly(xs, entry);
    if M.MasterySelection(xs, entry).value.Some? {
      var i: nat, j: nat :| && M.AnchoredPair(xs, entry, i, j)
                            && M.MasterySelection(xs, entry).value.value == [xs[i], xs[j]]
                            && forall i': nat, j': nat :: j' < j ==> !M.AnchoredPair(xs, entry, i', j');
      var q := M.Quoted([xs[i], xs[j]]);
      assert q.assessmentIds == [xs[i].id, xs[j].id] && q.stimuli == [xs[i].stimulus, xs[j].stimulus];
      forall i': nat, j': nat | M.AnchoredPair(xs, entry, i', j') && j' == j ensures i' == i {
        M.OneOpener(xs, entry, i, i', j);
      }
    }
  }

  // -------------------------------------------------------------------------
  // One channel
  // -------------------------------------------------------------------------

  /** The plan leads on from where the channel is. */
  predicate From(w: World, p: Plan, c: Channel) {
    && p.group.None? && p.id.channel == c && c in w.note && p.id.from == w.note[c]
    && Replay(w.log, c).Some? && p.id.episode == Replay(w.log, c).value.episode
  }

  /** The snapshot of a channel holds what rows, card, entry and assessments say. */
  ghost predicate ReadOff(o: ChannelProgress, rs: seq<R.Review>, card: Card, xs: seq<M.Assessment>, now: int) {
    && R.CardReadable(rs, now)
    && (o.state == New <==> o.entered.None?)
    && o.interval == card.interval && o.suspended == card.suspended
    && (var s := R.Summarize(rs, now);
        && o.lapsesInWindow == s.lapsesInWindow && o.ageDays == s.ageDays
        && o.first == s.first && o.latest == s.latest && o.latestLapse == s.latestLapse)
    && o.reviewAfterEntry == R.FirstIdAfter(R.LifecycleReviews(rs), o.entered)
    && o.lapseAfterEntry == R.FirstIdAfter(R.Lapses(rs), o.entered)
    && M.Ordered(o.assessments) == xs
  }

  predicate Leads(o: ChannelProgress, p: Plan) {
    p.group.None? && p.id.channel == o.channel && p.id.from == o.state && p.id.episode == o.episode
  }

  function QuotedReview(ev: Evidence): nat {
    match ev
    case FirstReviewSeen(id) => id
    case LapseSeen(id) => id
    case RelapseReviewSeen(id) => id
    case _ => 0
  }

  lemma NewCalls(o: ChannelProgress, rs: seq<R.Review>, card: Card, xs: seq<M.Assessment>, now: int, p: Plan)
    requires ReadOff(o, rs, card, xs, now) && o.state == New
    ensures DecideChannel(o, now) == Ok(Some(p)) <==> Leads(o, p) && Calls(rs, card, o.entered, xs, now, p.id)
  {
    FirstReviewRead(rs, now, QuotedReview(p.id.evidence));
  }

  lemma FirstReviewRead(rs: seq<R.Review>, now: int, id: nat)
    requires R.CardReadable(rs, now)
    ensures R.FirstId(R.LifecycleReviews(rs)) == Some(id) <==> Least(ReviewIds(rs), id)
  {
    RowsRead(rs, now);
    EndsRead(R.LifecycleReviews(rs), id);
  }

  lemma LearningCalls(o: ChannelProgress, rs: seq<R.Review>, card: Card, xs: seq<M.Assessment>, now: int, p: Plan)
    requires ReadOff(o, rs, card, xs, now) && o.state == Learning
    ensures DecideChannel(o, now) == Ok(Some(p)) <==> Leads(o, p) && Calls(rs, card, o.entered, xs, now, p.id)
  {
    GateRead(rs, o, now, p.id.evidence);
  }

  lemma RelapseCalls(o: ChannelProgress, rs: seq<R.Review>, card: Card, xs: seq<M.Assessment>, now: int, p: Plan)
    requires ReadOff(o, rs, card, xs, now) && o.state == LifeState.Relapse
    ensures DecideChannel(o, now) == Ok(Some(p)) <==> Leads(o, p) && Calls(rs, card, o.entered, xs, now, p.id)
  {
    ReviewAfterRead(rs, o.entered.value, now, QuotedReview(p.id.evidence));
    RelapseDecides(o, now, p);
    RelapseCalled(rs, card, o.entered, xs, now, p.id);
  }

  lemma ReviewAfterRead(rs: seq<R.Review>, t: int, now: int, id: nat)
    requires R.CardReadable(rs, now)
    ensures R.FirstIdAfter(R.LifecycleReviews(rs), Some(t)) == Some(id) <==> Least(After(ReviewIds(rs), t), id)
  {
    RowsRead(rs, now);
    FirstAfterRead(R.LifecycleReviews(rs), t, id);
  }

  lemma RelapseCalled(rs: seq<R.Review>, card: Card, entered: Option<int>, xs: seq<M.Assessment>, now: int,
                      id: TransitionId)
    requires entered.Some?
    ensures Calls(rs, card, entered, xs, now, id) && id.from == LifeState.Relapse <==>
            && id.from == LifeState.Relapse && id.to == Learning && id.trigger == RelapseReview
            && id.evidence.RelapseReviewSeen? && Least(After(ReviewIds(rs), entered.value), id.evidence.reviewId)
  {
  }

  lemma RelapseDecides(o: ChannelProgress, now: int, p: Plan)
    requires o.state == LifeState.Relapse
    ensures DecideChannel(o, now) == Ok(Some(p)) <==>
            && Leads(o, p) && p.id.to == Learning && p.id.trigger == RelapseReview
            && p.id.evidence.RelapseReviewSeen? && o.reviewAfterEntry == Some(p.id.evidence.reviewId)
  {
  }

  lemma StableCalls(o: ChannelProgress, rs: seq<R.Review>, card: Card, xs: seq<M.Assessment>, now: int, p: Plan)
    requires ReadOff(o, rs, card, xs, now) && o.state == Stable && DecideChannel(o, now).Ok?
    ensures DecideChannel(o, now) == Ok(Some(p)) <==> Leads(o, p) && Calls(rs, card, o.entered, xs, now, p.id)
  {
    LapseAfterRead(rs, o.entered.value, now, QuotedReview(p.id.evidence));
    StableCalled(rs, card, o.entered, xs, now, p.id);
    if o.lapseAfterEntry.None? {
      UnlapsedDecides(o, xs, now, p);
    } else {
      LapsedDecides(o, now, p);
    }
  }

  lemma LapseAfterRead(rs: seq<R.Review>, t: int, now: int, id: nat)
    requires R.CardReadable(rs, now)
    ensures R.FirstIdAfter(R.Lapses(rs), Some(t)) == Some(id) <==> Least(After(LapseIds(rs), t), id)
    ensures R.FirstIdAfter(R.Lapses(rs), Some(t)).None? <==> After(LapseIds(rs), t) == {}
  {
    RowsRead(rs, now);
    FirstAfterRead(R.Lapses(rs), t, id);
  }

  lemma StableCalled(rs: seq<R.Review>, card: Card, entered: Option<int>, xs: seq<M.Assessment>, now: int,
                     id: TransitionId)
    requires entered.Some?
    ensures Calls(rs, card, entered, xs, now, id) && id.from == Stable <==>
            && id.from == Stable
            && var lapses := After(LapseIds(rs), entered.value);
               if id.trigger == ReviewLapse
               then id.to == Learning && id.evidence.LapseSeen? && Least(lapses, id.evidence.reviewId)
               else
                 && id.trigger == MasteryPass && id.to == Mastered
                 && lapses == {} && Earned(xs, entered.value, id.evidence)
  {
  }

  lemma LapsedDecides(o: ChannelProgress, now: int, p: Plan)
    requires o.state == Stable && o.lapseAfterEntry.Some?
    ensures DecideChannel(o, now) == Ok(Some(p)) <==>
            && Leads(o, p) && p.id.to == Learning && p.id.trigger == ReviewLapse
            && p.id.evidence.LapseSeen? && o.lapseAfterEntry == Some(p.id.evidence.reviewId)
  {
  }

  lemma UnlapsedDecides(o: ChannelProgress, xs: seq<M.Assessment>, now: int, p: Plan)
    requires o.state == Stable && o.lapseAfterEntry.None? && o.entered.Some? && M.Ordered(o.assessments) == xs
    requires DecideChannel(o, now).Ok?
    ensures DecideChannel(o, now) == Ok(Some(p)) <==>
            Leads(o, p) && p.id.to == Mastered && p.id.trigger == MasteryPass
            && Earned(xs, o.entered.value, p.id.evidence)
  {
    EarnedRead(xs, o.entered.value, p.id.evidence);
  }

  lemma FailingCalls(o: ChannelProgress, rs: seq<R.Review>, card: Card, xs: seq<M.Assessment>, now: int, p: Plan)
    requires ReadOff(o, rs, card, xs, now) && o.state in {Mastered, Dormant}
    ensures DecideChannel(o, now) == Ok(Some(p)) <==> Leads(o, p) && Calls(rs, card, o.entered, xs, now, p.id)
  {
    FailureQuoted(xs, o.entered.value, p.id.evidence);
  }

  lemma SnapshotCalls(o: ChannelProgress, rs: seq<R.Review>, card: Card, xs: seq<M.Assessment>, now: int, p: Plan)
    requires ReadOff(o, rs, card, xs, now) && DecideChannel(o, now).Ok?
    ensures DecideChannel(o, now) == Ok(Some(p)) <==> Leads(o, p) && Calls(rs, card, o.entered, xs, now, p.id)
  {
    match o.state
    case New => NewCalls(o, rs, card, xs, now, p);
    case Learning => LearningCalls(o, rs, card, xs, now, p);
    case Stable => StableCalls(o, rs, card, xs, now, p);
    case Relapse => RelapseCalls(o, rs, card, xs, now, p);
    case _ => FailingCalls(o, rs, card, xs, now, p);
  }

  /** What a channel decides for itself is what its stores warrant by themselves. */
  lemma AloneIsDecided(w: World, c: Channel, now: int, p: Plan)
    requires Wired(w) && Observe(w, now).Ok? && c in w.note && Placed(w, c)
    requires DecideChannel(Observed(w, c, now), now).Ok?
    ensures DecideChannel(Observed(w, c, now), now) == Ok(Some(p)) <==> From(w, p, c) && Alone(w, now, p.id)
  {
    ObservedReadOff(w, c, now);
    SnapshotCalls(Observed(w, c, now), w.reviews[c], w.cards[c], Heard(w, c), now, p);
  }

  lemma ObservedReadOff(w: World, c: Channel, now: int)
    requires Wired(w) && Observe(w, now).Ok? && c in w.note && Placed(w, c)
    ensures ReadOff(Observed(w, c, now), w.reviews[c], w.cards[c], Heard(w, c), now)
  {
    ObservedChannels(w, now);
    ObservedEntry(w, c, now);
    ObservedAssessments(w, c, now);
  }

  // -------------------------------------------------------------------------
  // The unit
  // -------------------------------------------------------------------------

  lemma {:induction false} AssessmentsComplete(log: seq<Entry>, a: M.Assessment)
    requires JudgeEntry(a) in log
    ensures a in AssessmentsOf(log, a.channel)
  {
    var init, last := log[..|log| - 1], log[|log| - 1];
    assert log == init + [last];
    AssessmentsOfAppends(init, last, a.channel);
    if last != JudgeEntry(a) {
      AssessmentsComplete(init, a);
    }
  }

  lemma HeardIsLogged(w: World, c: Channel, a: M.Assessment)
    ensures a in Heard(w, c) <==> JudgeEntry(a) in w.log && a.channel == c
  {
    M.OrderedIsChronological(AssessmentsOf(w.log, c));
    assert a in Heard(w, c) <==> a in multiset(Heard(w, c));
    assert a in AssessmentsOf(w.log, c) <==> a in multiset(AssessmentsOf(w.log, c));
    if JudgeEntry(a) in w.log && a.channel == c {
      AssessmentsComplete(w.log, a);
    }
  }

  lemma UnfailedRead(w: World, c: Channel, t: int)
    ensures M.EarliestFailure(Heard(w, c), t).None? <==> Unfailed(w, c, t)
  {
    forall a: M.Assessment ensures a in Heard(w, c) <==> JudgeEntry(a) in w.log && a.channel == c {
      HeardIsLogged(w, c, a);
    }
    var any :| any == M.Assessment(c, true, "", "", true, 0);
    FailureRead(Heard(w, c), t, any);
  }

  /** A MASTERED channel plans nothing exactly when it has not failed. */
  lemma MasteredPlansNothing(w: World, c: Channel, now: int)
    requires Wired(w) && Observe(w, now).Ok? && c in w.note && Placed(w, c) && w.note[c] == Mastered
    ensures Replay(w.log, c).value.entered.Some?
    ensures DecideChannel(Observed(w, c, now), now) == Ok(None) <==>
            Unfailed(w, c, Replay(w.log, c).value.entered.value)
  {
    ObservedReadOff(w, c, now);
    UnfailedRead(w, c, Replay(w.log, c).value.entered.value);
  }

  lemma NothingPlanned(w: World, now: int)
    requires Wired(w) && FreshDecision(w, now).Ok?
    ensures Observe(w, now).Ok? && forall c :: c in w.note ==> Placed(w, c)
    ensures Planned(Observe(w, now).value, now) == [] <==>
            forall c :: c in w.note ==> DecideChannel(Observed(w, c, now), now) == Ok(None)
    ensures forall c :: c in w.note ==> DecideChannel(Observed(w, c, now), now).Ok?
    ensures forall p :: p in Planned(Observe(w, now).value, now) <==>
                        p.id.channel in w.note
                        && DecideChannel(Observed(w, p.id.channel, now), now) == Ok(Some(p))
  {
    FreshIsDecided(w, now);
    var progress := Observe(w, now).value;
    ObservedChannels(w, now);
    PlannedMeaning(progress, now);
    var planned := Planned(progress, now);
    forall c | c in w.note ensures ChoicesOf(progress, now)[c] == DecideChannel(Observed(w, c, now), now) {
    }
    forall p ensures p in planned <==>
                     p.id.channel in w.note && DecideChannel(Observed(w, p.id.channel, now), now) == Ok(Some(p))
    {
      assert p in planned <==> Chosen(ChoicesOf(progress, now), p, p.id.channel);
    }
    if planned != [] {
      assert planned[0] in planned;
    }
    ChoicesAreOwn(progress, now);
    forall c | c in w.note && DecideChannel(Observed(w, c, now), now) != Ok(None)
      ensures DecideChannel(Observed(w, c, now), now).value.value in planned
    {
      var p := ChoicesOf(progress, now)[c].value.value;
      assert Chosen(ChoicesOf(progress, now), p, c);
    }
  }

  /** Every channel is MASTERED and none has failed since. */
  ghost predicate AllMaster(w: World) {
    forall c :: c in w.note ==> exists s :: Masters(w, c, s)
  }

  /** What the snapshot says of the committed chains. */
  ghost predicate Chains(w: World, channels: map<Channel, ChannelProgress>) {
    && channels.Keys == w.note.Keys != {}
    && forall c :: c in w.note ==>
         && channels[c].state == w.note[c] && Replay(w.log, c).Some?
         && channels[c].entered == Replay(w.log, c).value.entered
         && channels[c].episode == Replay(w.log, c).value.episode
  }

  lemma ChainsObserved(w: World, now: int)
    requires Wired(w) && Observe(w, now).Ok?
    ensures Chains(w, Observe(w, now).value.channels)
  {
    ObservedChannels(w, now);
    forall c | c in w.note ensures Observe(w, now).value.channels[c] == Observed(w, c, now) {
    }
  }

  /** The last entry, as the snapshot has it. */
  ghost predicate LastOf(channels: map<Channel, ChannelProgress>, last: int) {
    && (forall c :: c in channels ==> channels[c].entered.Some? && channels[c].entered.value <= last)
    && exists c :: c in channels && channels[c].entered == Some(last)
  }

  lemma LastEntered(channels: map<Channel, ChannelProgress>)
    requires channels.Keys != {} && forall c :: c in channels ==> channels[c].state == Mastered
    requires forall c :: c in channels ==> channels[c].entered.Some?
    ensures AllMasteredAt(channels).Some? && LastOf(channels, AllMasteredAt(channels).value)
  {
    var cs := InOrder(channels.Keys);
    var any :| any in channels.Keys;
    assert any in cs;
    LatestEntryIsMaximum(channels, cs);
  }

  lemma MastersRead(w: World, channels: map<Channel, ChannelProgress>)
    requires Chains(w, channels) && AllMaster(w)
    ensures forall c :: c in channels ==> channels[c].state == Mastered && channels[c].entered.Some?
    ensures forall c, t :: Masters(w, c, t) <==> c in channels && channels[c].entered == Some(t)
  {
    forall c | c in channels
      ensures channels[c].state == Mastered && channels[c].entered.Some? && Masters(w, c, channels[c].entered.value)
    {
      var s :| Masters(w, c, s);
    }
  }

  lemma LastMastered(w: World, channels: map<Channel, ChannelProgress>, t: int)
    requires Chains(w, channels) && AllMaster(w)
    ensures MasteredSince(w, t) <==> AllMasteredAt(channels) == Some(t)
  {
    MastersRead(w, channels);
    LastEntered(channels);
    var last := AllMasteredAt(channels).value;
    LastIsSince(w, channels, last);
    if MasteredSince(w, t) {
      OneLast(w, channels, last, t);
    }
  }

  lemma LastIsSince(w: World, channels: map<Channel, ChannelProgress>, last: int)
    requires channels.Keys == w.note.Keys && LastOf(channels, last)
    requires forall c, t :: Masters(w, c, t) <==> c in channels && channels[c].entered == Some(t)
    ensures MasteredSince(w, last)
  {
    forall c | c in w.note ensures exists s :: s <= last && Masters(w, c, s) {
      assert Masters(w, c, channels[c].entered.value);
    }
    var d :| d in channels && channels[d].entered == Some(last);
    assert Masters(w, d, last);
  }

  lemma OneLast(w: World, channels: map<Channel, ChannelProgress>, last: int, t: int)
    requires channels.Keys == w.note.Keys && LastOf(channels, last) && MasteredSince(w, t)
    requires forall c, s :: Masters(w, c, s) <==> c in channels && channels[c].entered == Some(s)
    ensures t == last
  {
    var c :| Masters(w, c, t);
    var d :| d in channels && channels[d].entered == Some(last);
    var s :| s <= t && Masters(w, d, s);
  }

  lemma SinceMeansAll(w: World, t: int)
    requires MasteredSince(w, t)
    ensures AllMaster(w)
  {
    forall c | c in w.note ensures exists s :: Masters(w, c, s) {
      var s :| s <= t && Masters(w, c, s);
    }
  }

  lemma AllMasterRead(w: World, now: int)
    requires Wired(w) && FreshDecision(w, now).Ok?
    ensures AllMaster(w) <==>
            && (forall c :: c in w.note ==> w.note[c] == Mastered)
            && Planned(Observe(w, now).value, now) == []
  {
    NothingPlanned(w, now);
    forall c | c in w.note && w.note[c] == Mastered
      ensures DecideChannel(Observed(w, c, now), now) == Ok(None) <==> exists s :: Masters(w, c, s)
    {
      MasteredPlansNothing(w, c, now);
      var t := Replay(w.log, c).value.entered.value;
      if Unfailed(w, c, t) {
        assert Masters(w, c, t);
      }
    }
  }

  /** The unit is due for dormancy exactly when all of it has been MASTERED for thirty days and nothing failed. */
  lemma TogetherIsDue(w: World, now: int, ev: Evidence)
    requires Wired(w) && FreshDecision(w, now).Ok?
    ensures var progress := Observe(w, now).value;
            Together(w, now, ev) <==>
            DormancyDue(progress, Planned(progress, now), now) && ev == DormancyEvidence(progress)
  {
    var progress := Observe(w, now).value;
    FreshIsDecided(w, now);
    ObservedChannels(w, now);
    ChainsObserved(w, now);
    AllMasterRead(w, now);
    if ev.DormancyAgreed? && MasteredSince(w, ev.masteredAt) {
      SinceMeansAll(w, ev.masteredAt);
    }
    DueAsQuoted(w, progress, Planned(progress, now), now, ev);
  }

  lemma DueAsQuoted(w: World, progress: UnitProgress, planned: seq<Plan>, now: int, ev: Evidence)
    requires Chains(w, progress.channels) && progress.allMasteredAt == AllMasteredAt(progress.channels)
    requires AllMaster(w) <==> (forall c :: c in w.note ==> w.note[c] == Mastered) && planned == []
    requires ev.DormancyAgreed? && MasteredSince(w, ev.masteredAt) ==> AllMaster(w)
    ensures Together(w, now, ev) <==> DormancyDue(progress, planned, now) && ev == DormancyEvidence(progress)
  {
    DueWhenAllMaster(w, progress, planned, now);
    if AllMaster(w) && ev.DormancyAgreed? {
      LastMastered(w, progress.channels, ev.masteredAt);
      EpisodesQuoted(w, progress.channels, ev.entries);
      QuotesEvidence(progress, ev);
    }
  }

  lemma DueWhenAllMaster(w: World, progress: UnitProgress, planned: seq<Plan>, now: int)
    requires Chains(w, progress.channels)
    requires AllMaster(w) <==> (forall c :: c in w.note ==> w.note[c] == Mastered) && planned == []
    ensures DormancyDue(progress, planned, now) <==>
            AllMaster(w) && progress.allMasteredAt.Some? && progress.allMasteredAt.value + Days(30) <= now
  {
  }

  lemma QuotesEvidence(progress: UnitProgress, ev: Evidence)
    requires ev.DormancyAgreed?
    ensures progress.allMasteredAt.Some? && ev == DormancyEvidence(progress) <==>
            && progress.allMasteredAt == Some(ev.masteredAt) && ev.boundary == ev.masteredAt + Days(30)
            && ev.entries == map c | c in progress.channels :: progress.channels[c].episode
  {
  }

  lemma EpisodesQuoted(w: World, channels: map<Channel, ChannelProgress>, entries: map<Channel, Episode>)
    requires Chains(w, channels)
    ensures entries == (map c | c in channels :: channels[c].episode) <==>
            && entries.Keys == w.note.Keys
            && forall c :: c in w.note ==> Replay(w.log, c).Some? && entries[c] == Replay(w.log, c).value.episode
  {
  }

  lemma MemberIsListed(ev: Evidence, p: Plan)
    requires ev.DormancyAgreed?
    ensures p in MemberPlans(ev) <==> p.id.channel in ev.entries && p == MemberPlan(ev, p.id.channel)
  {
    var cs := InOrder(ev.entries.Keys);
    if p in MemberPlans(ev) {
      var i :| 0 <= i < |cs| && MemberPlans(ev)[i] == p;
      assert cs[i] in cs;
    }
    if p.id.channel in ev.entries && p == MemberPlan(ev, p.id.channel) {
      assert p.id.channel in cs;
      var i :| 0 <= i < |cs| && cs[i] == p.id.channel;
      assert MemberPlans(ev)[i] == p;
    }
  }

  lemma MemberIsWarranted(w: World, now: int, ev: Evidence, p: Plan)
    requires Wired(w) && Together(w, now, ev) && forall c :: c in w.note ==> w.note[c] == Mastered
    ensures p in MemberPlans(ev) <==> Warranted(w, now, p) && p.group.Some? && p.id.evidence == ev
  {
    MemberIsListed(ev, p);
  }

  /** A fresh decision plans exactly what the stores warrant. */
  lemma PlansAreWarranted(w: World, now: int)
    requires Wired(w) && FreshDecision(w, now).Ok?
    ensures forall p :: p in FreshDecision(w, now).value.plans <==> Warranted(w, now, p)
  {
    forall p ensures p in FreshDecision(w, now).value.plans <==> Warranted(w, now, p) {
      PlanIsWarranted(w, now, p);
    }
  }

  lemma PlanIsWarranted(w: World, now: int, p: Plan)
    requires Wired(w) && FreshDecision(w, now).Ok?
    ensures p in FreshDecision(w, now).value.plans <==> Warranted(w, now, p)
  {
    var progress := Observe(w, now).value;
    FreshIsDecided(w, now);
    TogetherIsDue(w, now, p.id.evidence);
    PlannedAlone(w, now, p);
    if DormancyDue(progress, Planned(progress, now), now) {
      var ev := DormancyEvidence(progress);
      TogetherIsDue(w, now, ev);
      AllMasterRead(w, now);
      MemberIsWarranted(w, now, ev, p);
    }
  }

  lemma PlannedAlone(w: World, now: int, p: Plan)
    requires Wired(w) && FreshDecision(w, now).Ok?
    ensures p in Planned(Observe(w, now).value, now) <==> Warranted(w, now, p) && p.group.None?
  {
    NothingPlanned(w, now);
    if p.id.channel in w.note {
      AloneIsDecided(w, p.id.channel, now, p);
    }
  }

  // -------------------------------------------------------------------------
  // When each edge is taken
  // -------------------------------------------------------------------------

  /** The plans take the channel from one state to another. */
  ghost predicate Moves(plans: seq<Plan>, c: Channel, from: LifeState, to: LifeState) {
    exists p :: p in plans && p.id.channel == c && p.id.from == from && p.id.to == to
  }

  /** The plan that takes the channel on from where it is, with the evidence. */
  function Onward(w: World, c: Channel, to: LifeState, trigger: Trigger, ev: Evidence): Plan
    requires c in w.note && Replay(w.log, c).Some?
  {
    Plan(TransitionId(c, w.note[c], to, trigger, Replay(w.log, c).value.episode, ev), None)
  }

  /** STABLE becomes MASTERED exactly on an earned pair of passes with no lapse since the entry. */
  lemma MasteredExactlyWhen(w: World, now: int, c: Channel, entry: int)
    requires Wired(w) && FreshDecision(w, now).Ok? && c in w.note && EnteredAt(w, c, entry)
    ensures Moves(FreshDecision(w, now).value.plans, c, Stable, Mastered) <==>
            && w.note[c] == Stable && After(LapseIds(w.reviews[c]), entry) == {}
            && exists i: nat, j: nat :: M.AnchoredPair(Heard(w, c), entry, i, j)
  {
    var plans := FreshDecision(w, now).value.plans;
    if p :| p in plans && p.id.channel == c && p.id.from == Stable && p.id.to == Mastered {
      PlanIsWarranted(w, now, p);
      MasteryShown(w, now, p, entry);
    }
    if w.note[c] == Stable && After(LapseIds(w.reviews[c]), entry) == {}
       && exists i: nat, j: nat :: M.AnchoredPair(Heard(w, c), entry, i, j) {
      var p := MasteryDue(w, now, c, entry);
      PlanIsWarranted(w, now, p);
    }
  }

  lemma MasteryShown(w: World, now: int, p: Plan, entry: int)
    requires Wired(w) && Warranted(w, now, p) && p.id.to == Mastered && EnteredAt(w, p.id.channel, entry)
    ensures w.note[p.id.channel] == Stable && After(LapseIds(w.reviews[p.id.channel]), entry) == {}
    ensures exists i: nat, j: nat :: M.AnchoredPair(Heard(w, p.id.channel), entry, i, j)
  {
  }

  lemma MasteryDue(w: World, now: int, c: Channel, entry: int) returns (p: Plan)
    requires Wired(w) && c in w.note && w.note[c] == Stable && EnteredAt(w, c, entry)
    requires After(LapseIds(w.reviews[c]), entry) == {}
    requires exists i: nat, j: nat :: M.AnchoredPair(Heard(w, c), entry, i, j)
    ensures Warranted(w, now, p) && p.id.channel == c && p.id.from == Stable && p.id.to == Mastered
  {
    var ev := EarliestEarned(Heard(w, c), entry);
    p := Onward(w, c, Mastered, MasteryPass, ev);
  }

  lemma EarliestEarned(xs: seq<M.Assessment>, entry: int) returns (ev: Evidence)
    requires exists i: nat, j: nat :: M.AnchoredPair(xs, entry, i, j)
    ensures Earned(xs, entry, ev)
  {
    var i: nat, j: nat :| M.AnchoredPair(xs, entry, i, j);
    i, j := EarliestPair(xs, entry, i, j);
    ev := PassesSelected([xs[i].id, xs[j].id], [xs[i].stimulus, xs[j].stimulus], xs[j].id);
  }

  lemma {:induction false} EarliestPair(xs: seq<M.Assessment>, entry: int, i: nat, j: nat) returns (a: nat, b: nat)
    requires M.AnchoredPair(xs, entry, i, j)
    ensures M.AnchoredPair(xs, entry, a, b)
    ensures forall i': nat, j': nat :: j' < b ==> !M.AnchoredPair(xs, entry, i', j')
    decreases j
  {
    a, b := i, j;
    if i': nat, j': nat :| j' < j && M.AnchoredPair(xs, entry, i', j') {
      a, b := EarliestPair(xs, entry, i', j');
    }
  }

  /** LEARNING becomes STABLE exactly when the card is awake and far apart, old enough and without recent lapse. */
  lemma StableExactlyWhen(w: World, now: int, c: Channel)
    requires Wired(w) && FreshDecision(w, now).Ok? && c in w.note
    ensures Moves(FreshDecision(w, now).value.plans, c, Learning, Stable) <==>
            && w.note[c] == Learning && w.cards[c].interval >= 21 && !w.cards[c].suspended
            && Steady(w.reviews[c], now)
  {
    FreshIsDecided(w, now);
    ObservedChannels(w, now);
    assert Placed(w, c);
    var plans := FreshDecision(w, now).value.plans;
    if p :| p in plans && p.id.channel == c && p.id.from == Learning && p.id.to == Stable {
      PlanIsWarranted(w, now, p);
      StabilityIsShown(w, now, p);
    }
    if w.note[c] == Learning && w.cards[c].interval >= 21 && !w.cards[c].suspended && Steady(w.reviews[c], now) {
      var p := StabilityDue(w, now, c);
      PlanIsWarranted(w, now, p);
    }
  }

  lemma StabilityIsShown(w: World, now: int, p: Plan)
    requires Wired(w) && Warranted(w, now, p) && p.id.to == Stable
    ensures var c := p.id.channel;
            && w.note[c] == Learning && w.cards[c].interval >= 21 && !w.cards[c].suspended
            && Steady(w.reviews[c], now)
  {
  }

  lemma StabilityDue(w: World, now: int, c: Channel) returns (p: Plan)
    requires Wired(w) && c in w.note && Placed(w, c) && R.CardReadable(w.reviews[c], now)
    requires w.note[c] == Learning && w.cards[c].interval >= 21 && !w.cards[c].suspended && Steady(w.reviews[c], now)
    ensures Warranted(w, now, p) && p.id.channel == c && p.id.from == Learning && p.id.to == Stable
  {
    var ev := SteadyQuoted(w.reviews[c], now, w.cards[c].interval);
    p := Onward(w, c, Stable, StabilityGate, ev);
  }

  lemma SteadyQuoted(rs: seq<R.Review>, now: int, interval: nat) returns (ev: Evidence)
    requires R.CardReadable(rs, now) && Steady(rs, now)
    ensures Quotes(rs, ev) && ev.interval == interval
  {
    RowsRead(rs, now);
    var first: nat :| Least(ReviewIds(rs), first);
    EndsRead(R.LifecycleReviews(rs), first);
    var latest := R.LastId(R.LifecycleReviews(rs)).value;
    EndsRead(R.LifecycleReviews(rs), latest);
    var lapse := R.LastId(R.Lapses(rs));
    EndsRead(R.Lapses(rs), if lapse.Some? then lapse.value else 0);
    ev := StabilityShown(first, latest, lapse, interval, EligibilityBoundary(first, lapse));
  }

  /** The unit becomes DORMANT as one, exactly thirty days after the last of it was MASTERED with no failure since. */
  lemma DormantExactlyWhen(w: World, now: int)
    requires Wired(w) && FreshDecision(w, now).Ok?
    ensures (exists p :: p in FreshDecision(w, now).value.plans && p.group.Some?) <==>
            exists t :: MasteredSince(w, t) && t + Days(30) <= now
    ensures (exists p :: p in FreshDecision(w, now).value.plans && p.group.Some?) ==>
              forall c :: c in w.note ==> Moves(FreshDecision(w, now).value.plans, c, Mastered, Dormant)
  {
    var plans := FreshDecision(w, now).value.plans;
    PlansAreWarranted(w, now);
    FreshIsDecided(w, now);
    ObservedChannels(w, now);
    if t :| MasteredSince(w, t) && t + Days(30) <= now {
      var ev := DormancyAgreed(map c | c in w.note :: assert Placed(w, c); Replay(w.log, c).value.episode,
                               t, t + Days(30));
      assert Together(w, now, ev);
      AllMove(w, now, ev);
    }
    if p :| p in plans && p.group.Some? {
      assert Together(w, now, p.id.evidence);
    }
  }

  lemma AllMove(w: World, now: int, ev: Evidence)
    requires Wired(w) && FreshDecision(w, now).Ok? && Together(w, now, ev)
    ensures forall c :: c in w.note ==> Moves(FreshDecision(w, now).value.plans, c, Mastered, Dormant)
    ensures exists p :: p in FreshDecision(w, now).value.plans && p.group.Some?
  {
    var plans := FreshDecision(w, now).value.plans;
    forall c | c in w.note ensures Moves(plans, c, Mastered, Dormant) {
      MemberCalled(w, now, ev, c);
      PlanIsWarranted(w, now, MemberPlan(ev, c));
    }
    var any :| any in w.note.Keys;
    MemberCalled(w, now, ev, any);
    PlanIsWarranted(w, now, MemberPlan(ev, any));
  }

  lemma MemberCalled(w: World, now: int, ev: Evidence, c: Channel)
    requires Wired(w) && Together(w, now, ev) && c in w.note
    ensures Warranted(w, now, MemberPlan(ev, c))
  {
    var s :| s <= ev.masteredAt && Masters(w, c, s);
  }

  /** What else a decision says: cards to suspend, cards to wake, leeches to rescue. */
  lemma SideEffectsAreWarranted(w: World, now: int, c: Channel)
    requires Wired(w) && FreshDecision(w, now).Ok?
    ensures var d := FreshDecision(w, now).value;
            && (c in d.suspend <==> c in w.note && exists p :: p in d.plans && p.group.Some?)
            && (c in d.reactivate <==>
                  && c in w.note && w.note[c] == Dormant && w.cards[c].suspended
                  && Moves(d.plans, c, Dormant, LifeState.Relapse))
            && (c in d.leechRescue <==> w.leech && c in w.note && w.cards[c].lapses >= 4)
  {
    FreshIsDecided(w, now);
    ObservedChannels(w, now);
    SuspendedWithGroup(w, now);
    if c in w.note {
      FailingMoves(w, now, c);
    }
  }

  lemma SuspendedWithGroup(w: World, now: int)
    requires Wired(w) && FreshDecision(w, now).Ok?
    ensures var d := FreshDecision(w, now).value;
            forall c :: c in d.suspend <==> c in w.note && exists p :: p in d.plans && p.group.Some?
  {
    FreshIsDecided(w, now);
    var progress := Observe(w, now).value;
    ObservedChannels(w, now);
    DecisionsMaterialize(progress, now);
    var d := FreshDecision(w, now).value;
    if DormancyDue(progress, Planned(progress, now), now) {
      var c :| c in w.note.Keys;
      MemberIsListed(DormancyEvidence(progress), MemberPlan(DormancyEvidence(progress), c));
    } else {
      forall p | p in d.plans ensures p.group.None? {
        PlannedAlone(w, now, p);
      }
    }
  }

  /** A DORMANT channel with a failure after its entry is always planned to RELAPSE. */
  lemma FailingMoves(w: World, now: int, c: Channel)
    requires Wired(w) && FreshDecision(w, now).Ok? && c in w.note && Placed(w, c) && Observe(w, now).Ok?
    ensures w.note[c] == Dormant ==>
              (NeedsReactivation(Observed(w, c, now)) <==>
                 w.cards[c].suspended && Moves(FreshDecision(w, now).value.plans, c, Dormant, LifeState.Relapse))
  {
    ObservedReadOff(w, c, now);
    var o, plans := Observed(w, c, now), FreshDecision(w, now).value.plans;
    if w.note[c] == Dormant {
      if p :| p in plans && p.id.channel == c && p.id.from == Dormant && p.id.to == LifeState.Relapse {
        PlanIsWarranted(w, now, p);
        FailureShownTo(w, now, p);
      }
      if NeedsReactivation(o) {
        var p := FailingDecides(o, now);
        ChosenIsPlanned(w, p, now);
      }
    }
  }

  lemma FailureShownTo(w: World, now: int, p: Plan)
    requires Wired(w) && Warranted(w, now, p) && p.id.to == LifeState.Relapse
    ensures Replay(w.log, p.id.channel).value.entered.Some?
    ensures M.EarliestFailure(Heard(w, p.id.channel), Replay(w.log, p.id.channel).value.entered.value).Some?
  {
    FailureQuoted(Heard(w, p.id.channel), Replay(w.log, p.id.channel).value.entered.value, p.id.evidence);
  }

  lemma FailingDecides(o: ChannelProgress, now: int) returns (p: Plan)
    requires NeedsReactivation(o)
    ensures DecideChannel(o, now) == Ok(Some(p))
    ensures p.id.channel == o.channel && p.id.from == Dormant && p.id.to == LifeState.Relapse
  {
    p := DecideChannel(o, now).value.value;
  }

  // -------------------------------------------------------------------------
  // When nothing can be decided
  // -------------------------------------------------------------------------

  /** No two novel assessments of the channel after its entry share an id. */
  ghost predicate Unrepeating(w: World, c: Channel) {
    forall t :: EnteredAt(w, c, t) ==> M.DistinctAssessments(Heard(w, c), t)
  }

  /** Rows of known kinds with an answer, none of them from the future, and no id twice on any cards. */
  ghost predicate Legible(reviews: map<Channel, seq<R.Review>>, now: int) {
    && (forall c, r :: c in reviews && r in reviews[c] ==> 1 <= r.ease <= 4 && 0 <= r.kind <= 3 && r.id * 1000 <= now)
    && (forall c, i, j :: c in reviews && 0 <= i < j < |reviews[c]| ==> reviews[c][i].id != reviews[c][j].id)
    && forall c, d, r, q :: c in reviews && d in reviews && c != d && r in reviews[c] && q in reviews[d] ==>
                              r.id != q.id
  }

  lemma LegibleIsReadable(reviews: map<Channel, seq<R.Review>>, now: int)
    ensures RevlogReadable(reviews, now) <==> Legible(reviews, now)
  {
    forall r: R.Review
      ensures R.Interpretable(r, now) <==> 1 <= r.ease <= 4 && 0 <= r.kind <= 3 && r.id * 1000 <= now
    {
    }
    if Legible(reviews, now) {
      forall c, d | c in reviews && d in reviews && c != d ensures R.Ids(reviews[c]) !! R.Ids(reviews[d]) {
      }
    }
    if RevlogReadable(reviews, now) {
      forall c, d, r, q | c in reviews && d in reviews && c != d && r in reviews[c] && q in reviews[d]
        ensures r.id != q.id
      {
        assert r.id in R.Ids(reviews[c]) && q.id in R.Ids(reviews[d]);
      }
    }
  }

  /** No record of the future, a journal in protocol, and chains that end where the note stands. */
  ghost predicate Coherent(w: World, now: int) {
    && (forall e :: e in w.log ==> Stamp(e) <= now)
    && (forall i: nat :: i < |w.log| ==> InProtocol(w.log, i))
    && forall c :: c in w.note ==>
         && (forall i: nat :: i < |w.log| ==> Linked(w.log, c, i))
         && Replay(w.log, c).Some? && Replay(w.log, c).value.state == w.note[c]
  }

  lemma CoherentIsReadable(w: World, now: int)
    ensures HistoryReadable(w, now) <==> Coherent(w, now)
  {
    ReadExactlyInProtocol(w.log);
    assert NoFuture(w.log, now) <==> forall e :: e in w.log ==> Stamp(e) <= now;
    if Fold(w.log).Some? {
      forall c | c in w.note
        ensures Replay(w.log, c).Some? <==> forall i: nat :: i < |w.log| ==> Linked(w.log, c, i)
      {
        ReplaysExactlyWhenLinked(w.log, c);
      }
    }
  }

  /**
   * A fresh decision is only ever missing because the rows or the history cannot be
   * read, or because assessments repeat an id.
   */
  lemma DecidedWhenReadable(w: World, now: int)
    requires Wired(w)
    ensures FreshDecision(w, now) == Err(RevlogUnreadable) <==> !Legible(w.reviews, now)
    ensures FreshDecision(w, now) == Err(HistoryUnreadable) <==> Legible(w.reviews, now) && !Coherent(w, now)
    ensures (&& Legible(w.reviews, now) && Coherent(w, now)
             && forall c :: c in w.note && w.note[c] == Stable ==> Unrepeating(w, c)) ==>
              FreshDecision(w, now).Ok?
  {
    LegibleIsReadable(w.reviews, now);
    CoherentIsReadable(w, now);
    if FreshDecision(w, now).Err? { FreshRefusals(w, now); }
    if Observe(w, now).Ok? && forall c :: c in w.note && w.note[c] == Stable ==> Unrepeating(w, c) {
      ObservedChannels(w, now);
      forall c | c in w.note ensures Placed(w, c) && DecideChannel(Observed(w, c, now), now).Ok? {
        ChannelDecides(w, c, now);
      }
      AllOkDecides(w, now);
    }
  }

  lemma ChannelDecides(w: World, c: Channel, now: int)
    requires Wired(w) && Observe(w, now).Ok? && c in w.note && Placed(w, c)
    requires w.note[c] == Stable ==> Unrepeating(w, c)
    ensures DecideChannel(Observed(w, c, now), now).Ok?
  {
    ObservedReadOff(w, c, now);
    if w.note[c] == Stable {
      var t := Replay(w.log, c).value.entered.value;
      assert EnteredAt(w, c, t);
      M.SelectNeverRefuses(Heard(w, c), t, 0, M.NO_STREAK, MASTERED_MIN_SESSION_PASSES);
    }
    OnlySelectionRefuses(Observed(w, c, now), now);
  }

  lemma OnlySelectionRefuses(o: ChannelProgress, now: int)
    requires o.state == Stable ==> M.MasterySelection(M.Ordered(o.assessments), EntryInstant(o)).Ok?
    ensures DecideChannel(o, now).Ok?
  {
  }
}
