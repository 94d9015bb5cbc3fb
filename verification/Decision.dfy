/**
 * The pure decision: at most one planned transition per channel, the dormancy
 * group over all channels, and the validator every decision must pass before it
 * may be materialized.
 */
module Decision {
  import opened Wrappers
  import opened Lifecycle
  import opened Observation
  import R = Revlog
  import M = Mastery

  datatype Decided = Decided(
    plans: seq<Plan>,
    suspend: seq<Channel>,
    reactivate: seq<Channel>,
    leechRescue: seq<Channel>)

  // -------------------------------------------------------------------------
  // Input validation
  // -------------------------------------------------------------------------

  predicate SeenBy(id: Option<nat>, now: int) {
    id.Some? ==> R.Instant(id.value) <= now
  }

  predicate AfterEntry(id: Option<nat>, entered: Option<int>) {
    id.Some? ==> entered.Some? && R.Instant(id.value) > entered.value
  }

  predicate ChannelInputOk(p: ChannelProgress, c: Channel, now: int) {
    && p.channel == c
    && p.interval >= 0 && p.lapsesTotal >= 0 && p.lapsesInWindow >= 0 && p.ageDays >= 0
    && (p.state == New <==> p.entered.None?)
    && (p.entered.Some? ==> p.entered.value <= now)
    && SeenBy(p.first, now) && SeenBy(p.latest, now) && SeenBy(p.latestLapse, now)
    && SeenBy(p.reviewAfterEntry, now) && SeenBy(p.lapseAfterEntry, now)
    && (p.first.Some? && p.latest.Some? ==> p.first.value <= p.latest.value)
    && AfterEntry(p.reviewAfterEntry, p.entered) && AfterEntry(p.lapseAfterEntry, p.entered)
    && (forall a :: a in p.assessments ==> a.channel == c && a.ts <= now)
  }

  predicate DecisionInputOk(progress: UnitProgress, now: int) {
    && (progress.allMasteredAt.Some? ==> progress.allMasteredAt.value <= now)
    && forall c :: c in progress.channels ==> ChannelInputOk(progress.channels[c], c, now)
  }

  // -------------------------------------------------------------------------
  // One channel
  // -------------------------------------------------------------------------

  function PlanTransition(p: ChannelProgress, to: LifeState, trigger: Trigger, evidence: Evidence): Plan {
    Plan(TransitionId(p.channel, p.state, to, trigger, p.episode, evidence), None)
  }

  function Max(a: int, b: int): int {
    if a < b then b else a
  }

  function EligibilityBoundary(first: nat, latestLapse: Option<nat>): int {
    var age := R.Instant(first) + Days(STABLE_MIN_AGE_DAYS);
    match latestLapse
    case None => age
    case Some(lapse) => Max(age, R.Instant(lapse) + Days(STABLE_ZERO_LAPSE_WINDOW_DAYS))
  }

  predicate CountersStable(p: ChannelProgress) {
    && p.interval >= STABLE_MIN_INTERVAL_DAYS
    && p.ageDays >= STABLE_MIN_AGE_DAYS
    && p.lapsesInWindow == 0
    && !p.suspended
    && p.first.Some?
    && p.latest.Some?
  }

  function StabilityEvidence(p: ChannelProgress, now: int): Option<Evidence> {
    if !CountersStable(p) then None
    else
      var boundary := EligibilityBoundary(p.first.value, p.latestLapse);
      if now < boundary then None
      else Some(StabilityShown(p.first.value, p.latest.value, p.latestLapse, p.interval, boundary))
  }

  /** The instant the current state was entered; valid input has one outside NEW. */
  function EntryInstant(p: ChannelProgress): int {
    match p.entered case Some(t) => t case None => 0
  }

  function DecideChannel(p: ChannelProgress, now: int): Result<Option<Plan>, Refusal> {
    match p.state
    case New =>
      if p.first.None? then Ok(None)
      else Ok(Some(PlanTransition(p, Learning, FirstReview, FirstReviewSeen(p.first.value))))
    case Learning =>
      (match StabilityEvidence(p, now)
       case None => Ok(None)
       case Some(ev) => Ok(Some(PlanTransition(p, Stable, StabilityGate, ev))))
    case Stable =>
      if p.lapseAfterEntry.Some? then
        Ok(Some(PlanTransition(p, Learning, ReviewLapse, LapseSeen(p.lapseAfterEntry.value))))
      else
        (match M.MasteryEvidence(M.Ordered(p.assessments), EntryInstant(p))
         case Err(_) => Err(DuplicateAssessmentId)
         case Ok(None) => Ok(None)
         case Ok(Some(ev)) => Ok(Some(PlanTransition(p, Mastered, MasteryPass, ev))))
    case Relapse =>
      if p.reviewAfterEntry.None? then Ok(None)
      else Ok(Some(PlanTransition(p, Learning, RelapseReview, RelapseReviewSeen(p.reviewAfterEntry.value))))
    case _ => // MASTERED and DORMANT
      (match M.EarliestFailure(M.Ordered(p.assessments), EntryInstant(p))
       case None => Ok(None)
       case Some(a) => Ok(Some(PlanTransition(p, Relapse, AssessmentFail, FailureSeen(a.id)))))
  }

  // -------------------------------------------------------------------------
  // The unit
  // -------------------------------------------------------------------------

  /** What every channel decides for itself. */
  type Choices = map<Channel, Result<Option<Plan>, Refusal>>

  function ChoicesOf(progress: UnitProgress, now: int): (choices: Choices)
    ensures choices.Keys == progress.channels.Keys
  {
    map c | c in progress.channels :: DecideChannel(progress.channels[c], now)
  }

  /** The plans of `cs` in order, or the first refusal. */
  function Collect(choices: Choices, cs: seq<Channel>): Result<seq<Plan>, Refusal>
    requires forall c :: c in cs ==> c in choices
  {
    if cs == [] then Ok([])
    else
      match choices[cs[0]]
      case Err(e) => Err(e)
      case Ok(plan) =>
        match Collect(choices, cs[1..])
        case Err(e) => Err(e)
        case Ok(rest) => Ok(if plan.None? then rest else [plan.value] + rest)
  }

  predicate NeedsReactivation(p: ChannelProgress) {
    && p.state == Dormant && p.suspended
    && M.EarliestFailure(M.Ordered(p.assessments), EntryInstant(p)).Some?
  }

  predicate DormancyDue(progress: UnitProgress, planned: seq<Plan>, now: int) {
    && progress.channels.Keys != {}
    && (forall c :: c in progress.channels ==> progress.channels[c].state == Mastered)
    && planned == []
    && progress.allMasteredAt.Some?
    && now >= progress.allMasteredAt.value + Days(MASTERED_TO_DORMANT_DAYS)
  }

  function DormancyEvidence(progress: UnitProgress): Evidence
    requires progress.allMasteredAt.Some?
  {
    DormancyAgreed(
      map c | c in progress.channels :: progress.channels[c].episode,
      progress.allMasteredAt.value,
      progress.allMasteredAt.value + Days(MASTERED_TO_DORMANT_DAYS))
  }

  /** Channel plans as collected, unless the whole unit is due for dormancy. */
  function Settle(progress: UnitProgress, planned: seq<Plan>, now: int): Decided {
    var due := DormancyDue(progress, planned, now);
    Decided(
      if due then MemberPlans(DormancyEvidence(progress)) else planned,
      if due then InOrder(progress.channels.Keys) else [],
      InOrder(set c | c in progress.channels && NeedsReactivation(progress.channels[c])),
      if progress.leech
      then InOrder(set c | c in progress.channels && progress.channels[c].lapsesTotal >= LEECH_LAPSE_THRESHOLD)
      else [])
  }

  function Decide(progress: UnitProgress, now: int): Result<Decided, Refusal> {
    if !DecisionInputOk(progress, now) then Err(DecisionInputInvalid)
    else
      match Collect(ChoicesOf(progress, now), InOrder(progress.channels.Keys))
      case Err(e) => Err(e)
      case Ok(planned) => Ok(Settle(progress, planned, now))
  }

  // -------------------------------------------------------------------------
  // The materialization validator
  // -------------------------------------------------------------------------

  function EvidenceOf(plan: Plan): Evidence {
    plan.id.evidence
  }

  /** The shape every dormancy group must have, whoever produced it. */
  predicate ValidGroup(plans: seq<Plan>) {
    && plans != []
    && EvidenceOf(plans[0]).DormancyAgreed?
    && plans[0].group == Some(GroupId(IdsOf(plans)))
    && (forall c :: c in EvidenceOf(plans[0]).entries <==> c in ChannelsOf(plans))
    && forall p :: p in plans ==> ValidMember(p, plans[0])
  }

  predicate ValidMember(p: Plan, first: Plan)
    requires EvidenceOf(first).DormancyAgreed?
  {
    && p.group == first.group
    && EvidenceOf(p) == EvidenceOf(first)
    && p.id.channel in EvidenceOf(first).entries
    && p.id.episode == EvidenceOf(first).entries[p.id.channel]
    && p.id.from == Mastered && p.id.to == Dormant && p.id.trigger == DormancyElapsed
  }

  function IdsOf(plans: seq<Plan>): (ids: seq<TransitionId>)
    ensures |ids| == |plans| && forall i :: 0 <= i < |ids| ==> ids[i] == plans[i].id
  {
    seq(|plans|, i requires 0 <= i < |plans| => plans[i].id)
  }

  predicate SourceCurrent(progress: UnitProgress, plan: Plan) {
    && EdgeAllowed(plan.id.from, plan.id.to)
    && plan.id.channel in progress.channels
    && plan.id.from == progress.channels[plan.id.channel].state
    && plan.id.episode == progress.channels[plan.id.channel].episode
  }

  predicate InChannelOrder(plans: seq<Plan>) {
    forall i, j :: 0 <= i < j < |plans| ==> Rank(plans[i].id.channel) < Rank(plans[j].id.channel)
  }

  function ChannelsOf(plans: seq<Plan>): (cs: seq<Channel>)
    ensures |cs| == |plans| && forall i :: 0 <= i < |cs| ==> cs[i] == plans[i].id.channel
  {
    seq(|plans|, i requires 0 <= i < |plans| => plans[i].id.channel)
  }

  predicate ValidDecision(progress: UnitProgress, d: Decided) {
    && (forall p :: p in d.plans ==> SourceCurrent(progress, p))
    && InChannelOrder(d.plans)
    && if exists p :: p in d.plans && p.group.Some?
       then (forall p :: p in d.plans ==> p.group.Some?) && ValidGroup(d.plans) && d.suspend == ChannelsOf(d.plans)
       else d.suspend == []
  }

  predicate NoneGrouped(plans: seq<Plan>) {
    forall p :: p in plans ==> p.group.None?
  }

  predicate AllGrouped(plans: seq<Plan>) {
    forall p :: p in plans ==> p.group.Some?
  }

  lemma OnePlanMore(plans: seq<Plan>, i: nat)
    requires i < |plans|
    ensures forall p :: p in plans[..i + 1] <==> p in plans[..i] || p == plans[i]
    ensures InChannelOrder(plans[..i + 1]) <==>
            InChannelOrder(plans[..i]) && (i == 0 || Rank(plans[i - 1].id.channel) < Rank(plans[i].id.channel))
    ensures NoneGrouped(plans[..i + 1]) <==> NoneGrouped(plans[..i]) && plans[i].group.None?
    ensures AllGrouped(plans[..i + 1]) <==> AllGrouped(plans[..i]) && plans[i].group.Some?
  {
    assert plans[..i + 1] == plans[..i] + [plans[i]];
  }

  lemma OutOfOrder(plans: seq<Plan>, i: nat)
    requires 0 < i < |plans| && Rank(plans[i].id.channel) <= Rank(plans[i - 1].id.channel)
    ensures !InChannelOrder(plans)
  {
  }

  /** The validator as a scan over the planned transitions. */
  method ValidateMaterializationDecision(progress: UnitProgress, d: Decided) returns (ok: bool)
    ensures ok <==> ValidDecision(progress, d)
  {
    var last: int := -1;
    var grouped := 0;
    for i := 0 to |d.plans|
      invariant forall p :: p in d.plans[..i] ==> SourceCurrent(progress, p)
      invariant InChannelOrder(d.plans[..i])
      invariant last == if i == 0 then -1 else Rank(d.plans[i - 1].id.channel)
      invariant 0 <= grouped <= i
      invariant grouped == 0 <==> NoneGrouped(d.plans[..i])
      invariant grouped == i <==> AllGrouped(d.plans[..i])
    {
      var plan := d.plans[i];
      OnePlanMore(d.plans, i);
      if !SourceCurrent(progress, plan) {
        return false;
      }
      if Rank(plan.id.channel) <= last {
        OutOfOrder(d.plans, i);
        return false;
      }
      last := Rank(plan.id.channel);
      if plan.group.Some? {
        grouped := grouped + 1;
      }
    }
    assert d.plans[..|d.plans|] == d.plans;
    if grouped > 0 {
      ok := grouped == |d.plans| && ValidGroup(d.plans) && d.suspend == ChannelsOf(d.plans);
    } else {
      ok := d.suspend == [];
    }
  }

  // -------------------------------------------------------------------------
  // Groups are determined by their evidence
  // -------------------------------------------------------------------------

  lemma MemberPlansAreValid(ev: Evidence)
    requires ev.DormancyAgreed? && ev.entries.Keys != {}
    ensures ValidGroup(MemberPlans(ev)) && InChannelOrder(MemberPlans(ev))
    ensures ChannelsOf(MemberPlans(ev)) == InOrder(ev.entries.Keys)
    ensures EvidenceOf(MemberPlans(ev)[0]) == ev
  {
    var cs := InOrder(ev.entries.Keys);
    var plans := MemberPlans(ev);
    assert cs != [] by {
      var c :| c in ev.entries.Keys;
      assert c in cs;
    }
    assert IdsOf(plans) == MemberGroup(ev).members;
    assert ChannelsOf(plans) == cs;
    forall p | p in plans ensures ValidMember(p, plans[0]) {
      var i :| 0 <= i < |plans| && plans[i] == p;
      assert cs[i] in cs;
    }
  }

  /** A valid group in channel order is nothing but the member plans of its evidence. */
  lemma ValidGroupIsMemberPlans(plans: seq<Plan>)
    requires ValidGroup(plans) && InChannelOrder(plans)
    ensures plans == MemberPlans(EvidenceOf(plans[0]))
  {
    var ev := EvidenceOf(plans[0]);
    var cs := InOrder(ev.entries.Keys);
    SameChannelsSameOrder(ChannelsOf(plans), cs);
    forall i | 0 <= i < |plans| ensures plans[i].id == MemberId(ev, cs[i]) {
      assert ValidMember(plans[i], plans[0]);
    }
    assert IdsOf(plans) == MemberGroup(ev).members;
    forall i | 0 <= i < |plans| ensures plans[i] == MemberPlan(ev, cs[i]) {
      assert ValidMember(plans[i], plans[0]);
    }
  }

  predicate ByRank(cs: seq<Channel>) {
    forall i, j :: 0 <= i < j < |cs| ==> Rank(cs[i]) < Rank(cs[j])
  }

  lemma FirstHasLeastRank(cs: seq<Channel>, c: Channel)
    requires ByRank(cs) && c in cs
    ensures Rank(cs[0]) <= Rank(c)
  {
    var i :| 0 <= i < |cs| && cs[i] == c;
  }

  lemma TailMembers(cs: seq<Channel>, c: Channel)
    requires ByRank(cs) && cs != []
    ensures c in cs[1..] <==> c in cs && c != cs[0]
  {
    assert cs == [cs[0]] + cs[1..];
    if c in cs[1..] {
      var k :| 0 <= k < |cs| - 1 && cs[k + 1] == c;
    }
  }

  lemma SameTails(a: seq<Channel>, b: seq<Channel>)
    requires a != [] && b != [] && a[0] == b[0] && ByRank(a) && ByRank(b) && forall c :: c in a <==> c in b
    ensures forall c :: c in a[1..] <==> c in b[1..]
  {
    forall c ensures c in a[1..] <==> c in b[1..] {
      TailMembers(a, c);
      TailMembers(b, c);
    }
  }

  lemma SomeMember(cs: seq<Channel>)
    ensures cs != [] ==> cs[0] in cs
    ensures cs == [] <==> forall c :: c !in cs
  {
    if cs != [] {
      assert cs[0] in cs;
    }
  }

  /** Two ordered channel lists with the same members are the same list. */
  lemma {:induction false} SameChannelsSameOrder(a: seq<Channel>, b: seq<Channel>)
    requires ByRank(a) && ByRank(b) && forall c :: c in a <==> c in b
    ensures a == b
  {
    SomeMember(a);
    SomeMember(b);
    if a != [] {
      FirstHasLeastRank(a, b[0]);
      FirstHasLeastRank(b, a[0]);
      assert a[0] == b[0];
      SameTails(a, b);
      SameChannelsSameOrder(a[1..], b[1..]);
      assert a == [a[0]] + a[1..] && b == [b[0]] + b[1..];
    }
  }
}
