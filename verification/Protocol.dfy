/**
 * One reconcile call as a program of durable effects: recover what the journal
 * left pending, otherwise observe, decide and materialize. A call that stops or
 * fails anywhere has carried out a prefix of its program.
 */
module Protocol {
  import opened Wrappers
  import opened Lifecycle
  import opened Journal
  import opened Observation
  import opened Decision
  import M = Mastery

  // -------------------------------------------------------------------------
  // Durable effects
  // -------------------------------------------------------------------------

  datatype Effect =
    | Append(plan: Plan, phase: Phase)
    | SetStates(states: map<Channel, LifeState>)
    | SuspendCards(cards: set<Channel>)

  /** What an effect leaves behind when it is applied at instant `t`. */
  function Apply(w: World, e: Effect, t: int): World {
    match e
    case Append(plan, phase) => w.(log := w.log + [StateEntry(plan, phase, t)], clock := t)
    case SetStates(states) => w.(note := w.note + states, clock := t)
    case SuspendCards(cards) =>
      w.(cards := map c | c in w.cards :: if c in cards then w.cards[c].(suspended := true) else w.cards[c],
         clock := t)
  }

  /** The effects that were reached, one instant for each of them. */
  function Exec(w: World, es: seq<Effect>, ts: seq<int>): World
    requires |ts| <= |es|
    decreases |ts|
  {
    if ts == [] then w else Exec(Apply(w, es[0], ts[0]), es[1..], ts[1..])
  }

  /** The clock of the log never runs backwards. */
  predicate Ticking(clock: int, ts: seq<int>)
    decreases |ts|
  {
    ts == [] || (clock <= ts[0] && Ticking(ts[0], ts[1..]))
  }

  // -------------------------------------------------------------------------
  // Programs
  // -------------------------------------------------------------------------

  function Appends(plans: seq<Plan>, phase: Phase): (es: seq<Effect>)
    ensures |es| == |plans| && forall i :: 0 <= i < |es| ==> es[i] == Append(plans[i], phase)
  {
    seq(|plans|, i requires 0 <= i < |plans| => Append(plans[i], phase))
  }

  function Step(plan: Plan): seq<Effect> {
    [SetStates(map[plan.id.channel := plan.id.to]), Append(plan, Commit)]
  }

  function UngroupedEffects(plans: seq<Plan>): seq<Effect> {
    if plans == [] then []
    else [Append(plans[0], Prepare)] + Step(plans[0]) + UngroupedEffects(plans[1..])
  }

  function AllTo(plans: seq<Plan>, state: LifeState): map<Channel, LifeState> {
    map c | c in ChannelsOf(plans) :: state
  }

  function DormancyEffects(plans: seq<Plan>, unprepared: seq<Plan>): seq<Effect> {
    Appends(unprepared, Prepare)
    + [SetStates(AllTo(plans, Dormant)), SuspendCards(set c | c in ChannelsOf(plans))]
    + Appends(plans, Commit)
  }

  datatype Why =
    | JournalUnreadable
    | MixedTerminals
    | AmbiguousPending
    | BrokenGroup
    | ForeignMembers
    | SourceAfterCommit
    | TargetWithoutPrepare
    | MixedAfterCommit
    | Unobservable(refusal: Refusal)
    | IdentityReused

  datatype Verdict =
    | Done(committed: seq<TransitionId>, recovered: seq<TransitionId>,
           reactivate: seq<Channel>, leechRescue: seq<Channel>)
    | Conflict(aborted: seq<TransitionId>)
    | Refused(why: Why)

  datatype Run = Run(effects: seq<Effect>, verdict: Verdict)

  function Refuse(why: Why): Run {
    Run([], Refused(why))
  }

  // ---- fresh -----------------------------------------------------------------

  /** Observation and decision, as both the fresh path and recovery use them. */
  function FreshDecision(w: World, now: int): Result<Decided, Refusal>
    requires Wired(w)
  {
    match Observe(w, now)
    case Err(e) => Err(e)
    case Ok(progress) =>
      match Decide(progress, now)
      case Err(e) => Err(e)
      case Ok(d) => if ValidDecision(progress, d) then Ok(d) else Err(InvalidDecision)
  }

  /** Materialization of a decision when nothing is pending. */
  function FreshRun(txs: Transactions, outcome: Result<Decided, Refusal>): Run {
    match outcome
    case Err(e) => Refuse(Unobservable(e))
    case Ok(d) =>
      if exists p :: p in d.plans && p.id in txs then Refuse(IdentityReused)
      else if d.plans != [] && d.plans[0].group.Some? then
        Run(DormancyEffects(d.plans, d.plans), Done(IdsOf(d.plans), [], d.reactivate, d.leechRescue))
      else
        Run(UngroupedEffects(d.plans), Done(IdsOf(d.plans), [], d.reactivate, d.leechRescue))
  }

  // ---- recovery of one channel ---------------------------------------------------

  /** `outcome` is what observation and decision say now; it is asked for at the source only. */
  function RecoverUngrouped(w: World, p: Plan, outcome: Result<Decided, Refusal>): Run
    requires Wired(w)
  {
    var c := p.id.channel;
    if c in w.note && w.note[c] == p.id.from then
      match outcome
      case Err(e) => Refuse(Unobservable(e))
      case Ok(d) =>
        if exists q :: q in d.plans && q.id == p.id && q.group.None? then
          Run(Step(p), Done([p.id], [p.id], d.reactivate, d.leechRescue))
        else
          Run([Append(p, Abort)], Conflict([p.id]))
    else if c in w.note && w.note[c] == p.id.to then
      Run([Append(p, Commit)],
          Done([p.id], [p.id], if p.id.from == Dormant && w.cards[c].suspended then [c] else [], []))
    else
      Run([Append(p, Abort)], Conflict([p.id]))
  }

  // ---- recovery of a dormancy group ------------------------------------------------

  /** The plans that have a transaction with the given terminal, in channel order. */
  function WithTerminal(plans: seq<Plan>, txs: Transactions, terminal: Option<Phase>): (out: seq<Plan>)
    ensures forall p :: p in out <==> p in plans && p.id in txs && txs[p.id].terminal == terminal
  {
    if plans == [] then []
    else
      assert plans == [plans[0]] + plans[1..];
      var rest := WithTerminal(plans[1..], txs, terminal);
      if plans[0].id in txs && txs[plans[0].id].terminal == terminal then [plans[0]] + rest else rest
  }

  function WithoutTransaction(plans: seq<Plan>, txs: Transactions): (out: seq<Plan>)
    ensures forall p :: p in out <==> p in plans && p.id !in txs
  {
    if plans == [] then []
    else
      assert plans == [plans[0]] + plans[1..];
      var rest := WithoutTransaction(plans[1..], txs);
      if plans[0].id !in txs then [plans[0]] + rest else rest
  }

  function WithTransaction(plans: seq<Plan>, txs: Transactions): (out: seq<Plan>)
    ensures forall p :: p in out <==> p in plans && p.id in txs
  {
    if plans == [] then []
    else
      assert plans == [plans[0]] + plans[1..];
      var rest := WithTransaction(plans[1..], txs);
      if plans[0].id in txs then [plans[0]] + rest else rest
  }

  /** `ev` describes the group `g`, and every transaction of `g` is one of its members. */
  predicate Describes(ev: Evidence, g: GroupId, txs: Transactions) {
    && ev.DormancyAgreed?
    && ev.entries.Keys != {}
    && MemberGroup(ev) == g
    && forall id :: id in txs && txs[id].plan.group == Some(g) ==>
         id.channel in ev.entries && txs[id].plan == MemberPlan(ev, id.channel)
  }

  function AwakeCards(w: World): set<Channel> {
    set c | c in w.cards && !w.cards[c].suspended
  }

  /** No member has committed and the note shows the source: finish the group or give it up. */
  function RecoverSource(txs: Transactions, plans: seq<Plan>, aborting: Run, outcome: Result<Decided, Refusal>): Run {
    match outcome
    case Err(e) => Refuse(Unobservable(e))
    case Ok(d) =>
      if d.plans != plans then aborting
      else
        Run(DormancyEffects(plans, WithoutTransaction(plans, txs)),
            Done(IdsOf(plans), IdsOf(WithTransaction(plans, txs)), [], d.leechRescue))
  }

  /** The note shows the target: suspend what is awake and commit what is pending. */
  function RecoverTarget(w: World, txs: Transactions, plans: seq<Plan>, pending: seq<Plan>): Run {
    if WithoutTransaction(plans, txs) != [] then Refuse(TargetWithoutPrepare)
    else
      Run((if AwakeCards(w) == {} then [] else [SuspendCards(AwakeCards(w))]) + Appends(pending, Commit),
          Done(IdsOf(pending), IdsOf(pending), [], []))
  }

  predicate ShowsOnly(note: map<Channel, LifeState>, state: LifeState) {
    forall c :: c in note ==> note[c] == state
  }

  function RecoverGroup(w: World, txs: Transactions, ev: Evidence, outcome: Result<Decided, Refusal>): Run
    requires Wired(w) && ev.DormancyAgreed?
  {
    var plans := MemberPlans(ev);
    var pending := WithTerminal(plans, txs, None);
    var aborting := Run(Appends(pending, Abort), Conflict(IdsOf(pending)));
    var committed := WithTerminal(plans, txs, Some(Commit)) != [];
    if ChannelsOf(plans) != Active(w) then Refuse(ForeignMembers)
    else if WithTerminal(plans, txs, Some(Abort)) != [] then aborting
    else if ShowsOnly(w.note, Mastered) then
      if committed then Refuse(SourceAfterCommit) else RecoverSource(txs, plans, aborting, outcome)
    else if ShowsOnly(w.note, Dormant) then RecoverTarget(w, txs, plans, pending)
    else if committed then Refuse(MixedAfterCommit)
    else aborting
  }

  // ---- the whole call ----------------------------------------------------------

  predicate Mixed(txs: Transactions) {
    exists i, j :: i in txs && j in txs
      && txs[i].plan.group.Some? && txs[i].plan.group == txs[j].plan.group
      && txs[i].terminal == Some(Commit) && txs[j].terminal == Some(Abort)
  }

  function Pending(txs: Transactions): set<TransitionId> {
    set id | id in txs && txs[id].terminal.None?
  }

  datatype Work =
    | NothingPending
    | OnePending(plan: Plan)
    | GroupPending(evidence: Evidence)
    | CannotTell(why: Why)

  /** What the journal says has to be finished first. */
  ghost function WorkOf(txs: Transactions): Work {
    var pending := Pending(txs);
    if Mixed(txs) then CannotTell(MixedTerminals)
    else if pending == {} then NothingPending
    else
      var id :| id in pending;
      var group := txs[id].plan.group;
      if forall j :: j in pending ==> txs[j].plan.group.None? then
        if pending == {id} then OnePending(txs[id].plan) else CannotTell(AmbiguousPending)
      else if group.None? || exists j :: j in pending && txs[j].plan.group != group then CannotTell(AmbiguousPending)
      else if Describes(id.evidence, group.value, txs) then GroupPending(id.evidence)
      else CannotTell(BrokenGroup)
  }

  /** The effects of one call of the reconciler, and what it reports when it gets through them all. */
  ghost function Reconcile(w: World, now: int): Run
    requires Wired(w)
  {
    if !NoFutureState(w.log, now) || Fold(w.log).None? then Refuse(JournalUnreadable)
    else
      var txs := Fold(w.log).value;
      match WorkOf(txs)
      case CannotTell(why) => Refuse(why)
      case NothingPending => FreshRun(txs, FreshDecision(w, now))
      case OnePending(p) => RecoverUngrouped(w, p, FreshDecision(w, now))
      case GroupPending(ev) => RecoverGroup(w, txs, ev, FreshDecision(w, now))
  }

  // -------------------------------------------------------------------------
  // Runs of the whole deployment
  // -------------------------------------------------------------------------

  /**
   * One step of the world around a unit: a reconcile call cut after some of its
   * effects, time passing, evidence arriving, scheduling data changing.
   */
  datatype Move =
    | ReconcileCall(now: int, instants: seq<int>)
    | TimePasses(clock: int)
    | ReviewDone(channel: Channel, review: Revlog.Review)
    | JudgeEmitted(assessment: M.Assessment)
    | CardChanged(channel: Channel, card: Card)
    | LeechTagged(leech: bool)

  import Revlog

  /** The review's id is above all ids of its card. */
  predicate NewestReview(w: World, c: Channel, r: Revlog.Review)
    requires c in w.reviews
  {
    Revlog.DistinctIds(w.reviews[c]) && forall x :: x in w.reviews[c] ==> x.id < r.id
  }

  /** Assessments come with the log's clock; reviews come as they please, also late and with any id. */
  ghost predicate Legal(w: World, m: Move)
    requires Wired(w)
  {
    match m
    case ReconcileCall(now, instants) => |instants| <= |Reconcile(w, now).effects| && Ticking(w.clock, instants)
    case TimePasses(clock) => w.clock <= clock
    case ReviewDone(c, r) => c in w.reviews
    case JudgeEmitted(a) => w.clock <= a.ts
    case CardChanged(c, _) => c in w.cards
    case LeechTagged(_) => true
  }

  ghost function Do(w: World, m: Move): (w': World)
    requires Wired(w) && Legal(w, m)
  {
    match m
    case ReconcileCall(now, instants) => Exec(w, Reconcile(w, now).effects, instants)
    case TimePasses(clock) => w.(clock := clock)
    case ReviewDone(c, r) =>
      w.(reviews := w.reviews[c := w.reviews[c] + [r]],
         reviewsInOrder := w.reviewsInOrder && NewestReview(w, c, r))
    case JudgeEmitted(a) => w.(log := w.log + [JudgeEntry(a)], clock := a.ts)
    case CardChanged(c, card) => w.(cards := w.cards[c := card])
    case LeechTagged(leech) => w.(leech := leech)
  }

  /** A deployment before the reconciler ever ran: every enabled channel is NEW. */
  predicate Initial(w: World) {
    && Wired(w) && w.reviewsInOrder
    && (forall c :: c in w.note ==> w.note[c] == New)
    && (forall i :: 0 <= i < |w.log| ==> w.log[i].JudgeEntry? && w.log[i].assessment.ts <= w.clock)
  }

  /** `w'` is reached from `w` by the moves, each legal where it is made. */
  ghost predicate Reaches(w: World, moves: seq<Move>, w': World)
    decreases |moves|
  {
    if moves == [] then w == w'
    else Wired(w) && Legal(w, moves[0]) && Reaches(Do(w, moves[0]), moves[1..], w')
  }
}
