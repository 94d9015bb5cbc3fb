/**
 * Evidence may also arrive while a call is under way. The call's program was made
 * from what the call read when it began; between any two of its effects reviews and
 * JUDGEs may be added, cards and the leech tag may change, time may pass. The
 * invariant holds after every single one of these steps.
 */
module Interleaving {
  import opened Wrappers
  import opened Lifecycle
  import opened Journal
  import opened Observation
  import opened DecisionFacts
  import opened Protocol
  import opened Safety
  import opened Lifetime
  import opened Consequences
  import opened Readbacks
  import M = Mastery

  // -------------------------------------------------------------------------
  // An effect while the evidence grows
  // -------------------------------------------------------------------------

  /** Allowed, but for what the cards, and reviews out of order, show at the moment. */
  predicate Possible(w: World, stage: Stage, e: Effect) {
    && Readable(w) && ViewAllows(ViewOf(w), stage, e)
    && (w.reviewsInOrder && e.Append? && e.phase == Prepare && Irrevocable(e.plan) ==> Shown(w, e.plan))
  }

  lemma PossibleKeepsInvariant(w: World, stage: Stage, e: Effect, t: int)
    requires InvAt(w, stage) && Possible(w, stage, e) && w.clock <= t
    ensures InvAt(Apply(w, e, t), StageAfter(ViewOf(w), stage, e))
  {
    EffectReads(w, stage, e, t);
    AllowedKeepsView(ViewOf(w), stage, e, t);
    EvidenceKeptBy(w, stage, e, t);
  }

  /** Whatever the channel's reviews and assessments showed before, they show now. */
  ghost predicate StillShows(w: World, w': World, c: Channel) {
    && (c in w.reviews && c in w'.reviews ==>
          forall at, id :: ReviewsShow(w.reviews[c], at, id) ==> ReviewsShow(w'.reviews[c], at, id))
    && forall at, id :: FailureShown(M.Ordered(AssessmentsOf(w.log, c)), at, id) ==>
                          FailureShown(M.Ordered(AssessmentsOf(w'.log, c)), at, id)
  }

  /** The same note and journal, later, with more evidence; in order, it still shows what it showed. */
  ghost predicate Grown(w: World, w': World) {
    && Readable(w) && Readable(w') && w.clock <= w'.clock
    && ViewOf(w') == ViewOf(w).(reviewsInOrder := w'.reviewsInOrder)
    && (w'.reviewsInOrder ==> w.reviewsInOrder && forall c: Channel :: StillShows(w, w', c))
  }

  lemma GrownShows(w: World, w': World, p: Plan)
    requires Grown(w, w') && Shown(w, p) && w'.reviewsInOrder
    ensures Shown(w', p)
  {
    var c := p.id.channel;
    assert StillShows(w, w', c);
    assert c in w.note && ViewOf(w).at[c] == ViewOf(w').at[c];
  }

  lemma SurroundingsStillShow(w: World, m: Move, c: Channel)
    requires Readable(w) && Legal(w, m) && !m.ReconcileCall? && Do(w, m).reviewsInOrder
    ensures StillShows(w, Do(w, m), c)
  {
    match m
    case ReviewDone(d, r) =>
      forall at, id | d == c && ReviewsShow(w.reviews[c], at, id) ensures ReviewsShow(w.reviews[c] + [r], at, id) {
        NewerReviewStillShows(w.reviews[c], r, at, id);
      }
    case JudgeEmitted(a) =>
      AssessmentsOfAppends(w.log, JudgeEntry(a), c);
      JudgesSoFar(w, c, a);
      forall at, id | a.channel == c && FailureShown(M.Ordered(AssessmentsOf(w.log, c)), at, id)
        ensures FailureShown(M.Ordered(AssessmentsOf(w.log, c) + [a]), at, id)
      {
        LaterJudgeStillShows(AssessmentsOf(w.log, c), a, at, id);
      }
    case _ =>
  }

  lemma GrownAround(w: World, w': World, m: Move)
    requires Grown(w, w') && Legal(w', m) && !m.ReconcileCall?
    ensures Grown(w, Do(w', m))
  {
    SurroundingsRead(w', m);
    if Do(w', m).reviewsInOrder {
      forall c: Channel ensures StillShows(w, Do(w', m), c) {
        SurroundingsStillShow(w', m, c);
        assert StillShows(w, w', c);
      }
    }
  }

  lemma EffectsShowTheSame(w: World, e: Effect, t: int, c: Channel)
    ensures Apply(w, e, t).reviews == w.reviews
    ensures AssessmentsOf(Apply(w, e, t).log, c) == AssessmentsOf(w.log, c)
  {
    if e.Append? {
      AssessmentsOfAppends(w.log, StateEntry(e.plan, e.phase, t), c);
    }
  }

  /** What is allowed with reviews in order is allowed without. */
  lemma AllowsInAnyOrder(v: View, still: bool, stage: Stage, e: Effect)
    requires ViewAllows(v, stage, e) && (still ==> v.reviewsInOrder)
    ensures ViewAllows(v.(reviewsInOrder := still), stage, e)
  {
    var v' := v.(reviewsInOrder := still);
    match e
    case Append(p, Prepare) =>
      if p.group.Some? {
        assert forall c :: BeforeGroup(v, p.id.evidence, c) ==> BeforeGroup(v', p.id.evidence, c);
      }
    case _ =>
  }

  lemma GrownPossible(w: World, w': World, stage: Stage, e: Effect)
    requires Grown(w, w') && Allowed(w, stage, e)
    ensures Possible(w', stage, e)
  {
    AllowsInAnyOrder(ViewOf(w), w'.reviewsInOrder, stage, e);
    if w'.reviewsInOrder && e.Append? && e.phase == Prepare && Irrevocable(e.plan) {
      GrownShows(w, w', e.plan);
    }
  }

  lemma GrownEffect(w: World, w': World, stage: Stage, e: Effect, t: int)
    requires Grown(w, w') && ViewHolds(ViewOf(w), stage) && ViewAllows(ViewOf(w), stage, e) && w'.clock <= t
    ensures Grown(Apply(w, e, t), Apply(w', e, t))
  {
    GrownReads(w, w', stage, e, t);
    if w'.reviewsInOrder {
      EffectStillShows(w, w', e, t);
    }
  }

  lemma GrownReads(w: World, w': World, stage: Stage, e: Effect, t: int)
    requires Readable(w) && Readable(w') && ViewOf(w') == ViewOf(w).(reviewsInOrder := w'.reviewsInOrder)
    requires (w'.reviewsInOrder ==> w.reviewsInOrder) && w.clock <= t && w'.clock <= t
    requires ViewHolds(ViewOf(w), stage) && ViewAllows(ViewOf(w), stage, e)
    ensures Readable(Apply(w, e, t)) && Readable(Apply(w', e, t))
    ensures ViewOf(Apply(w', e, t)) == ViewOf(Apply(w, e, t)).(reviewsInOrder := w'.reviewsInOrder)
  {
    AllowsInAnyOrder(ViewOf(w), w'.reviewsInOrder, stage, e);
    OrderForgotten(ViewOf(w), stage, w'.reviewsInOrder);
    EffectReads(w, stage, e, t);
    EffectReads(w', stage, e, t);
  }

  lemma EffectStillShows(w: World, w': World, e: Effect, t: int)
    requires forall c: Channel :: StillShows(w, w', c)
    ensures forall c: Channel :: StillShows(Apply(w, e, t), Apply(w', e, t), c)
  {
    forall c: Channel ensures StillShows(Apply(w, e, t), Apply(w', e, t), c) {
      EffectsShowTheSame(w, e, t, c);
      EffectsShowTheSame(w', e, t, c);
      assert StillShows(w, w', c);
    }
  }

  // -------------------------------------------------------------------------
  // Step by step
  // -------------------------------------------------------------------------

  /**
   * A call begins, its next effect is applied, its next read shows what it must, it
   * stops where it is, or something happens around it.
   */
  datatype Beat =
    | Begin(now: int)
    | Effected(t: int)
    | Seen
    | Stopped
    | Around(move: Move)

  /**
   * The deployment, what the call under way still has to do, and the deployment as it
   * was when this call last saw all cards suspended.
   */
  datatype Scene = Scene(world: World, rest: seq<Task>, looked: Option<World>)

  /** What a read must show for the call to go on. */
  predicate Shows(w: World, t: Task) {
    match t
    case Act(_) => false
    case SeeStates(states) => forall c :: c in states ==> c in w.note && w.note[c] == states[c]
    case SeeDormant => ShowsOnly(w.note, Dormant)
    case SeeSuspended => AllSuspended(w)
  }

  ghost predicate MayBeat(s: Scene, b: Beat) {
    && Wired(s.world)
    && match b
       case Begin(_) => s.rest == []
       case Effected(t) => s.rest != [] && s.rest[0].Act? && s.world.clock <= t
       case Seen => s.rest != [] && Shows(s.world, s.rest[0])
       case Stopped => true
       case Around(m) => !m.ReconcileCall? && Legal(s.world, m)
  }

  ghost function DoBeat(s: Scene, b: Beat): Scene
    requires MayBeat(s, b)
  {
    match b
    case Begin(now) => Scene(s.world, TasksOf(Reconcile(s.world, now).effects, false, false), None)
    case Effected(t) => s.(world := Apply(s.world, s.rest[0].effect, t), rest := s.rest[1..])
    case Seen => DoSeen(s)
    case Stopped => s.(rest := [])
    case Around(m) => s.(world := Do(s.world, m))
  }

  ghost predicate Plays(s: Scene, beats: seq<Beat>, s': Scene)
    decreases |beats|
  {
    if beats == [] then s == s' else MayBeat(s, beats[0]) && Plays(DoBeat(s, beats[0]), beats[1..], s')
  }

  /** From `w` on the rest of the program is allowed effect by effect, whenever they are applied. */
  ghost predicate Plannable(w: World, stage: Stage, rest: seq<Effect>) {
    forall ts: seq<int> {:trigger Ticking(w.clock, ts)} ::
      |ts| <= |rest| && Ticking(w.clock, ts) ==> Walk(w, stage, rest, ts).Some?
  }

  /** The deployment is one in which the rest was planned, with more evidence. */
  ghost predicate Follows(s: Scene, stage: Stage, planned: World) {
    && InvAt(s.world, stage) && InvAt(planned, stage)
    && Grown(planned, s.world) && Plannable(planned, stage, EffectsOf(s.rest)) && Guarded(s.rest, s.looked)
  }

  lemma NothingToPlan(w: World, stage: Stage)
    ensures Plannable(w, stage, [])
  {
  }

  lemma GrownFromItself(w: World)
    requires Readable(w)
    ensures Grown(w, w)
  {
  }

  lemma CallIsPlannable(w: World, stage: Stage, now: int)
    requires InvAt(w, stage)
    ensures Plannable(w, stage, Reconcile(w, now).effects)
  {
    forall ts: seq<int> | |ts| <= |Reconcile(w, now).effects| && Ticking(w.clock, ts)
      ensures Walk(w, stage, Reconcile(w, now).effects, ts).Some?
    {
      CallWalks(w, stage, now, ts);
    }
  }

  lemma FirstIsAllowed(w: World, stage: Stage, rest: seq<Effect>, t: int)
    requires Plannable(w, stage, rest) && rest != [] && w.clock <= t
    ensures Allowed(w, stage, rest[0])
  {
    assert Ticking(w.clock, [t]);
  }

  lemma RestIsPlannable(w: World, stage: Stage, rest: seq<Effect>, t: int)
    requires Plannable(w, stage, rest) && rest != [] && w.clock <= t && Allowed(w, stage, rest[0])
    ensures Plannable(Apply(w, rest[0], t), StageAfter(ViewOf(w), stage, rest[0]), rest[1..])
  {
    forall ts: seq<int> | |ts| <= |rest[1..]| && Ticking(Apply(w, rest[0], t).clock, ts)
      ensures Walk(Apply(w, rest[0], t), StageAfter(ViewOf(w), stage, rest[0]), rest[1..], ts).Some?
    {
      assert ([t] + ts)[1..] == ts;
      assert Ticking(w.clock, [t] + ts);
    }
  }

  lemma EffectFollows(s: Scene, stage: Stage, planned: World, t: int)
    requires Follows(s, stage, planned) && s.rest != [] && s.rest[0].Act? && s.world.clock <= t
    ensures var e := s.rest[0].effect;
            Follows(s.(world := Apply(s.world, e, t), rest := s.rest[1..]), StageAfter(ViewOf(planned), stage, e),
                    Apply(planned, e, t))
  {
    var e := s.rest[0].effect;
    FirstOfTasks(s.rest);
    PlannedOn(planned, stage, EffectsOf(s.rest), t);
    WorldOn(planned, s.world, stage, e, t);
  }

  lemma FirstOfTasks(rest: seq<Task>)
    requires rest != [] && rest[0].Act?
    ensures EffectsOf(rest) != [] && EffectsOf(rest)[0] == rest[0].effect
    ensures EffectsOf(rest)[1..] == EffectsOf(rest[1..])
  {
  }

  lemma PlannedOn(planned: World, stage: Stage, es: seq<Effect>, t: int)
    requires InvAt(planned, stage) && Plannable(planned, stage, es) && es != [] && planned.clock <= t
    ensures Allowed(planned, stage, es[0])
    ensures var next, stage' := Apply(planned, es[0], t), StageAfter(ViewOf(planned), stage, es[0]);
            InvAt(next, stage') && Plannable(next, stage', es[1..])
  {
    FirstIsAllowed(planned, stage, es, t);
    RestIsPlannable(planned, stage, es, t);
    AllowedKeepsInvariant(planned, stage, es[0], t);
  }

  lemma WorldOn(planned: World, w: World, stage: Stage, e: Effect, t: int)
    requires InvAt(planned, stage) && InvAt(w, stage) && Grown(planned, w) && Allowed(planned, stage, e) && w.clock <= t
    ensures InvAt(Apply(w, e, t), StageAfter(ViewOf(planned), stage, e))
    ensures Grown(Apply(planned, e, t), Apply(w, e, t))
  {
    GrownPossible(planned, w, stage, e);
    GrownEffect(planned, w, stage, e, t);
    PossibleKeepsInvariant(w, stage, e, t);
    assert StageAfter(ViewOf(w), stage, e) == StageAfter(ViewOf(planned), stage, e);
  }

  /** Where the cards are to be seen suspended before a group COMMIT, the note is DORMANT. */
  lemma LookMeetsDormant(planned: World, stage: Stage, rest: seq<Task>)
    requires InvAt(planned, stage) && Plannable(planned, stage, EffectsOf(rest))
    requires |rest| > 1 && rest[0].SeeSuspended? && OnlyGroupCommits(rest[1..])
    ensures ShowsOnly(planned.note, Dormant)
  {
    EffectBehindLook(rest);
    CommitSeesDormant(planned, stage, EffectsOf(rest));
  }

  lemma SameNote(planned: World, w: World)
    requires Grown(planned, w)
    ensures w.note == planned.note
  {
    assert ViewOf(w).note == ViewOf(planned).note;
  }

  lemma EffectBehindLook(rest: seq<Task>)
    requires |rest| > 1 && rest[0].SeeSuspended? && OnlyGroupCommits(rest[1..])
    ensures EffectsOf(rest) != [] && IsGroupCommit(EffectsOf(rest)[0])
  {
    var behind := rest[1..];
    assert behind[0].Act? && IsGroupCommit(behind[0].effect);
    assert EffectsOf(behind)[0] == behind[0].effect;
    assert EffectsOf(rest) == [] + EffectsOf(behind);
  }

  lemma CommitSeesDormant(planned: World, stage: Stage, es: seq<Effect>)
    requires InvAt(planned, stage) && Plannable(planned, stage, es) && es != [] && IsGroupCommit(es[0])
    ensures ShowsOnly(planned.note, Dormant)
  {
    FirstIsAllowed(planned, stage, es, planned.clock);
    GroupCommitAllowed(planned, stage, es[0].plan);
  }

  lemma SeenFollows(s: Scene, stage: Stage, planned: World)
    requires Follows(s, stage, planned) && s.rest != [] && Shows(s.world, s.rest[0])
    ensures Follows(DoSeen(s), stage, planned)
  {
    assert EffectsOf(s.rest) == EffectsOf(s.rest[1..]);
    if s.rest[0].SeeSuspended? {
      if |s.rest| > 1 {
        LookMeetsDormant(planned, stage, s.rest);
        SameNote(planned, s.world);
      }
      GuardedByLook(s.rest[1..], s.world);
    }
  }

  function DoSeen(s: Scene): Scene
    requires s.rest != []
  {
    s.(rest := s.rest[1..], looked := if s.rest[0].SeeSuspended? then Some(s.world) else s.looked)
  }

  lemma AroundFollows(s: Scene, stage: Stage, planned: World, m: Move)
    requires Follows(s, stage, planned) && Legal(s.world, m) && !m.ReconcileCall?
    ensures Follows(s.(world := Do(s.world, m)), stage, planned)
  {
    GrownAround(planned, s.world, m);
    SurroundingsKeepInvariant(s.world, stage, m);
  }

  lemma BeginFollows(w: World, stage: Stage, now: int)
    requires InvAt(w, stage)
    ensures Follows(Scene(w, TasksOf(Reconcile(w, now).effects, false, false), None), stage, w)
  {
    GrownFromItself(w);
    CallIsPlannable(w, stage, now);
    CallCommitsLast(w, stage, now);
    TasksKeepEffects(Reconcile(w, now).effects, false, false);
    TasksAreGuarded(Reconcile(w, now).effects, false);
  }

  lemma BeatFollows(s: Scene, stage: Stage, planned: World, b: Beat) returns (stage': Stage, planned': World)
    requires Follows(s, stage, planned) && MayBeat(s, b)
    ensures Follows(DoBeat(s, b), stage', planned')
  {
    stage', planned' := stage, planned;
    match b
    case Begin(now) =>
      BeginFollows(s.world, stage, now);
      planned' := s.world;
    case Effected(t) =>
      EffectFollows(s, stage, planned, t);
      stage', planned' := StageAfter(ViewOf(planned), stage, s.rest[0].effect), Apply(planned, s.rest[0].effect, t);
    case Seen => SeenFollows(s, stage, planned);
    case Stopped => NothingToPlan(planned, stage);
    case Around(m) => AroundFollows(s, stage, planned, m);
  }

  lemma {:induction false} PlayFollows(s: Scene, beats: seq<Beat>, s': Scene, stage: Stage, planned: World)
    returns (stage': Stage, planned': World)
    requires Follows(s, stage, planned) && Plays(s, beats, s')
    ensures Follows(s', stage', planned')
    decreases |beats|
  {
    if beats == [] {
      stage', planned' := stage, planned;
    } else {
      stage', planned' := BeatFollows(s, stage, planned, beats[0]);
      stage', planned' := PlayFollows(DoBeat(s, beats[0]), beats[1..], s', stage', planned');
    }
  }

  /** No call yet. */
  function Opening(w: World): Scene {
    Scene(w, [], None)
  }

  lemma OpeningFollows(w: World)
    requires Initial(w)
    ensures Follows(Opening(w), Idle, w)
  {
    InitialInvariant(w);
    GrownFromItself(w);
    NothingToPlan(w, Idle);
  }

  /**
   * From a deployment before the first call, whatever happens between any two durable
   * effects: the invariant holds after every step, so also wherever a call is cut.
   */
  lemma EveryInterleaving(w: World, beats: seq<Beat>, s': Scene)
    requires Initial(w) && Plays(Opening(w), beats, s')
    ensures Invariant(s'.world)
  {
    OpeningFollows(w);
    var stage, planned := PlayFollows(Opening(w), beats, s', Idle, w);
  }

  // -------------------------------------------------------------------------
  // What was seen before a group COMMIT
  // -------------------------------------------------------------------------

  /**
   * Whatever happens in between, a member of a dormancy group is only committed when
   * the call before saw every note DORMANT and every card suspended.
   */
  lemma GroupCommitsFollowALook(w: World, beats: seq<Beat>, s': Scene, t: int)
    requires Initial(w) && Plays(Opening(w), beats, s')
    requires MayBeat(s', Effected(t)) && IsGroupCommit(s'.rest[0].effect)
    ensures s'.looked.Some? && Asleep(s'.looked.value)
  {
    OpeningFollows(w);
    var stage, planned := PlayFollows(Opening(w), beats, s', Idle, w);
  }

  /** No call begins in these beats. */
  predicate OneCall(beats: seq<Beat>) {
    forall i :: 0 <= i < |beats| ==> !beats[i].Begin?
  }

  /** What was looked at is the deployment at an earlier moment of the same call. */
  lemma {:induction false} LookedDuringTheCall(s: Scene, beats: seq<Beat>, s': Scene) returns (k: nat, moment: Scene)
    requires Plays(s, beats, s') && s'.looked.Some?
    ensures k <= |beats|
    ensures (OneCall(beats) && s.looked == s'.looked)
         || (Plays(s, beats[..k], moment) && Some(moment.world) == s'.looked && OneCall(beats[k..]))
    decreases |beats|
  {
    if beats == [] {
      k, moment := 0, s;
    } else {
      k, moment := LookedDuringTheCall(DoBeat(s, beats[0]), beats[1..], s');
      if OneCall(beats[1..]) && DoBeat(s, beats[0]).looked == s'.looked {
        k, moment := 0, s;
        assert beats[0..] == beats && beats[..0] == [];
        assert forall i :: 1 <= i < |beats| ==> beats[i] == beats[1..][i - 1];
      } else {
        assert beats[..k + 1][1..] == beats[1..][..k] && beats[k + 1..] == beats[1..][k..];
        k := k + 1;
      }
    }
  }
}
