/**
 * The vocabulary of the lifecycle reconciler: channels, states, allowed edges,
 * transition identities and plans.
 *
 * A transition identity is the tuple it is computed from, so two identities
 * are equal exactly when all their components are. Instants are integers in
 * microseconds.
 */
module Lifecycle {
  import opened Wrappers

  datatype Channel = R | L | W | S

  const CHANNELS: seq<Channel> := [R, L, W, S]

  datatype LifeState = New | Learning | Stable | Mastered | Dormant | Relapse

  datatype Trigger =
    | FirstReview
    | StabilityGate
    | ReviewLapse
    | MasteryPass
    | AssessmentFail
    | DormancyElapsed
    | RelapseReview

  const STABLE_MIN_INTERVAL_DAYS := 21
  const STABLE_MIN_AGE_DAYS := 21
  const STABLE_ZERO_LAPSE_WINDOW_DAYS := 30
  const MASTERED_MIN_SESSION_PASSES := 2
  const MASTERED_MIN_DELAY_BETWEEN_PASSES_DAYS := 7
  const MASTERED_TO_DORMANT_DAYS := 30
  const LEECH_LAPSE_THRESHOLD := 4
  const MICROSECONDS_PER_DAY := 86400 * 1_000_000

  function Days(n: int): int {
    n * MICROSECONDS_PER_DAY
  }

  /** The allowed lifecycle edges. */
  predicate EdgeAllowed(from: LifeState, to: LifeState) {
    (from, to) in {
      (New, Learning),
      (Learning, Stable),
      (Stable, Mastered),
      (Mastered, Dormant),
      (Dormant, Relapse),
      (Relapse, Learning),
      (Stable, Learning),
      (Mastered, Relapse)
    }
  }

  /** What one stay in a state is called: the transition that entered it. */
  datatype Episode =
    | InitialNew(channel: Channel)
    | Entered(id: TransitionId)

  /** The evidence a decision quotes, one shape per trigger. */
  datatype Evidence =
    | FirstReviewSeen(reviewId: nat)
    | StabilityShown(first: nat, latest: nat, latestLapse: Option<nat>, interval: nat, boundary: int)
    | LapseSeen(reviewId: nat)
    | PassesSelected(assessmentIds: seq<string>, stimuli: seq<string>, decisive: string)
    | FailureSeen(assessmentId: string)
    | DormancyAgreed(entries: map<Channel, Episode>, masteredAt: int, boundary: int)
    | RelapseReviewSeen(reviewId: nat)

  datatype TransitionId = TransitionId(
    channel: Channel,
    from: LifeState,
    to: LifeState,
    trigger: Trigger,
    episode: Episode,
    evidence: Evidence)

  /**
   * A dormancy group is named by its members' identities. They are listed in
   * channel order, so equal names mean equal sets of members.
   */
  datatype GroupId = GroupId(members: seq<TransitionId>)

  datatype Plan = Plan(id: TransitionId, group: Option<GroupId>)

  // -------------------------------------------------------------------------
  // Channels in their frozen order
  // -------------------------------------------------------------------------

  function Rank(c: Channel): nat {
    match c case R => 0 case L => 1 case W => 2 case S => 3
  }

  /** The members of `keep`, in channel order. */
  function InOrder(keep: set<Channel>): (cs: seq<Channel>)
    ensures forall c :: c in cs <==> c in keep
    ensures forall i, j :: 0 <= i < j < |cs| ==> Rank(cs[i]) < Rank(cs[j])
  {
    EveryChannelListed();
    Kept(CHANNELS, keep)
  }

  lemma EveryChannelListed()
    ensures forall c: Channel :: c in CHANNELS
  {
    forall c: Channel ensures c in CHANNELS {
      assert CHANNELS[Rank(c)] == c;
    }
  }

  /** The members of `cs` that are in `keep`, in the order of `cs`. */
  function Kept(cs: seq<Channel>, keep: set<Channel>): (kept: seq<Channel>)
    requires forall i, j :: 0 <= i < j < |cs| ==> Rank(cs[i]) < Rank(cs[j])
    ensures forall c :: c in kept <==> c in cs && c in keep
    ensures forall i, j :: 0 <= i < j < |kept| ==> Rank(kept[i]) < Rank(kept[j])
  {
    if cs == [] then []
    else
      var rest := Kept(cs[1..], keep);
      assert forall k :: 0 <= k < |rest| ==> rest[k] in cs[1..];
      if cs[0] in keep then [cs[0]] + rest else rest
  }

  // -------------------------------------------------------------------------
  // Dormancy groups
  // -------------------------------------------------------------------------

  /** The identity of one member of the group that `ev` describes. */
  function MemberId(ev: Evidence, c: Channel): TransitionId
    requires ev.DormancyAgreed? && c in ev.entries
  {
    TransitionId(c, Mastered, Dormant, DormancyElapsed, ev.entries[c], ev)
  }

  function MemberGroup(ev: Evidence): GroupId
    requires ev.DormancyAgreed?
  {
    var cs := InOrder(ev.entries.Keys);
    GroupId(seq(|cs|, i requires 0 <= i < |cs| => MemberId(ev, cs[i])))
  }

  function MemberPlan(ev: Evidence, c: Channel): Plan
    requires ev.DormancyAgreed? && c in ev.entries
  {
    Plan(MemberId(ev, c), Some(MemberGroup(ev)))
  }

  /** All member plans of a dormancy group, in channel order. */
  function MemberPlans(ev: Evidence): (plans: seq<Plan>)
    requires ev.DormancyAgreed?
    ensures |plans| == |InOrder(ev.entries.Keys)|
    ensures forall i :: 0 <= i < |plans| ==> plans[i] == MemberPlan(ev, InOrder(ev.entries.Keys)[i])
  {
    var cs := InOrder(ev.entries.Keys);
    seq(|cs|, i requires 0 <= i < |cs| => MemberPlan(ev, cs[i]))
  }
}
