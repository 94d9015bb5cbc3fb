/**
 * The reads between a call's effects: a note that was written is read back, and no
 * member of a dormancy group is committed before the note was seen DORMANT and every
 * card suspended.
 */
module Readbacks {
  import opened Wrappers
  import opened Lifecycle
  import opened Journal
  import opened Observation
  import opened Decision
  import opened Protocol
  import opened Safety
  import opened Recovery
  import opened Lifetime
  import opened Quiet

  /** What a call does next: an effect, or a read that stops it unless it shows what it must. */
  datatype Task =
    | Act(effect: Effect)
    | SeeStates(states: map<Channel, LifeState>)
    | SeeDormant
    | SeeSuspended

  predicate IsGroupCommit(e: Effect) {
    e.Append? && e.phase == Commit && e.plan.group.Some?
  }

  /**
   * The effects with the reads between them. `noted` says that the note was read since
   * the call began or wrote it, `seen` that all cards were seen suspended since then.
   */
  function TasksOf(es: seq<Effect>, noted: bool, seen: bool): seq<Task> {
    if es == [] then []
    else
      var e, note := es[0], if noted then [] else [SeeDormant];
      match e
      case SetStates(states) => [Act(e), SeeStates(states)] + TasksOf(es[1..], true, false)
      case SuspendCards(_) => note + [Act(e)] + TasksOf(es[1..], true, false)
      case Append(_, _) =>
        if IsGroupCommit(e)
        then note + (if seen then [] else [SeeSuspended]) + [Act(e)] + TasksOf(es[1..], true, true)
        else [Act(e)] + TasksOf(es[1..], noted, seen)
  }

  /** The effects among the tasks. */
  function EffectsOf(tasks: seq<Task>): seq<Effect> {
    if tasks == [] then []
    else (if tasks[0].Act? then [tasks[0].effect] else []) + EffectsOf(tasks[1..])
  }

  /** The reads leave the effects as they are. */
  lemma {:induction false} TasksKeepEffects(es: seq<Effect>, noted: bool, seen: bool)
    ensures EffectsOf(TasksOf(es, noted, seen)) == es
  {
    if es != [] {
      var e, note := es[0], if noted then [] else [SeeDormant];
      assert es == [e] + es[1..];
      match e
      case SetStates(states) =>
        TasksKeepEffects(es[1..], true, false);
        var behind := [SeeStates(states)] + TasksOf(es[1..], true, false);
        FirstRead(SeeStates(states), TasksOf(es[1..], true, false));
        FirstEffect([], e, behind);
        assert [] + [Act(e)] + behind == [Act(e), SeeStates(states)] + TasksOf(es[1..], true, false);
      case SuspendCards(_) =>
        TasksKeepEffects(es[1..], true, false);
        FirstEffect(note, e, TasksOf(es[1..], true, false));
      case Append(_, _) =>
        if IsGroupCommit(e) {
          var look := if seen then [] else [SeeSuspended];
          TasksKeepEffects(es[1..], true, true);
          FirstEffect(note + look, e, TasksOf(es[1..], true, true));
        } else {
          TasksKeepEffects(es[1..], noted, seen);
          FirstEffect([], e, TasksOf(es[1..], noted, seen));
          assert [] + [Act(e)] == [Act(e)];
        }
    }
  }

  /** Reads in front of an effect, and more tasks behind it. */
  lemma {:induction false} FirstEffect(before: seq<Task>, e: Effect, tasks: seq<Task>)
    requires forall i :: 0 <= i < |before| ==> !before[i].Act?
    ensures EffectsOf(before + [Act(e)] + tasks) == [e] + EffectsOf(tasks)
  {
    var all := before + [Act(e)] + tasks;
    if before == [] {
      assert all == [Act(e)] + tasks && all[1..] == tasks;
    } else {
      assert all[0] == before[0] && all[1..] == before[1..] + [Act(e)] + tasks;
      FirstEffect(before[1..], e, tasks);
    }
  }

  lemma FirstRead(read: Task, tasks: seq<Task>)
    requires !read.Act?
    ensures EffectsOf([read] + tasks) == EffectsOf(tasks)
  {
    assert ([read] + tasks)[1..] == tasks;
  }

  // -------------------------------------------------------------------------
  // No group COMMIT before the cards were seen
  // -------------------------------------------------------------------------

  /** Every note DORMANT and every card suspended. */
  predicate Asleep(w: World) {
    ShowsOnly(w.note, Dormant) && AllSuspended(w)
  }

  predicate OnlyGroupCommits(tasks: seq<Task>) {
    forall i :: 0 <= i < |tasks| ==> tasks[i].Act? && IsGroupCommit(tasks[i].effect)
  }

  /** Group COMMITs come behind a look that saw all asleep, or behind a look that is still to come. */
  predicate Guarded(tasks: seq<Task>, looked: Option<World>) {
    tasks == [] ||
    match tasks[0]
    case Act(e) => (IsGroupCommit(e) ==> looked.Some? && Asleep(looked.value)) && Guarded(tasks[1..], looked)
    case SeeSuspended => OnlyGroupCommits(tasks[1..])
    case _ => Guarded(tasks[1..], looked)
  }

  lemma {:induction false} GuardedByLook(tasks: seq<Task>, looked: World)
    requires OnlyGroupCommits(tasks) && (tasks != [] ==> Asleep(looked))
    ensures Guarded(tasks, Some(looked))
  {
    if tasks != [] {
      GuardedByLook(tasks[1..], looked);
    }
  }

  /** Behind a group COMMIT there are only group COMMITs. */
  predicate CommitsLast(es: seq<Effect>) {
    forall i, j :: 0 <= i < j < |es| && IsGroupCommit(es[i]) ==> IsGroupCommit(es[j])
  }

  lemma {:induction false} CommitsOnlyAct(es: seq<Effect>)
    requires forall i :: 0 <= i < |es| ==> IsGroupCommit(es[i])
    ensures OnlyGroupCommits(TasksOf(es, true, true))
  {
    if es != [] {
      CommitsOnlyAct(es[1..]);
      assert TasksOf(es, true, true) == [Act(es[0])] + TasksOf(es[1..], true, true);
    }
  }

  lemma {:induction false} TasksAreGuarded(es: seq<Effect>, noted: bool)
    requires CommitsLast(es)
    ensures Guarded(TasksOf(es, noted, false), None)
  {
    if es != [] {
      var e := es[0];
      if IsGroupCommit(e) {
        FirstCommit(es, noted);
      } else {
        var noted' := noted || !e.Append?;
        var tasks := TasksOf(es[1..], noted', false);
        TasksAreGuarded(es[1..], noted');
        match e
        case SetStates(states) => BehindTwo(Act(e), SeeStates(states), tasks);
        case SuspendCards(_) =>
          if noted { BehindOne(Act(e), tasks); } else { BehindTwo(SeeDormant, Act(e), tasks); }
        case Append(_, _) => BehindOne(Act(e), tasks);
      }
    }
  }

  predicate Harmless(t: Task) {
    match t
    case Act(e) => !IsGroupCommit(e)
    case SeeSuspended => false
    case _ => true
  }

  lemma BehindOne(t: Task, tasks: seq<Task>)
    requires Guarded(tasks, None) && Harmless(t)
    ensures Guarded([t] + tasks, None)
  {
    assert ([t] + tasks)[1..] == tasks;
  }

  lemma BehindTwo(t: Task, u: Task, tasks: seq<Task>)
    requires Guarded(tasks, None) && Harmless(t) && Harmless(u)
    ensures Guarded([t, u] + tasks, None) && Guarded([t] + [u] + tasks, None)
  {
    BehindOne(u, tasks);
    BehindOne(t, [u] + tasks);
    assert [t, u] + tasks == [t] + ([u] + tasks) && [t] + [u] + tasks == [t] + ([u] + tasks);
  }

  lemma FirstCommit(es: seq<Effect>, noted: bool)
    requires es != [] && CommitsLast(es) && IsGroupCommit(es[0])
    ensures Guarded(TasksOf(es, noted, false), None)
  {
    var behind := [Act(es[0])] + TasksOf(es[1..], true, true);
    forall j | 0 <= j < |es[1..]| ensures IsGroupCommit(es[1..][j]) {
      assert es[1..][j] == es[j + 1];
    }
    CommitsOnlyAct(es[1..]);
    assert OnlyGroupCommits(behind);
    var look := [SeeSuspended] + behind;
    assert look[1..] == behind && Guarded(look, None);
    if noted {
      assert TasksOf(es, noted, false) == look;
    } else {
      BehindOne(SeeDormant, look);
      assert TasksOf(es, noted, false) == [SeeDormant] + look;
    }
  }

  // -------------------------------------------------------------------------
  // Every call's program
  // -------------------------------------------------------------------------

  lemma DormancyCommitsLast(plans: seq<Plan>, unprepared: seq<Plan>)
    requires forall p :: p in plans ==> p.group.Some?
    ensures CommitsLast(DormancyEffects(plans, unprepared))
  {
  }

  lemma {:induction false} UngroupedHasNoGroupCommits(plans: seq<Plan>)
    requires forall p :: p in plans ==> p.group.None?
    ensures forall i :: 0 <= i < |UngroupedEffects(plans)| ==> !IsGroupCommit(UngroupedEffects(plans)[i])
  {
    if plans != [] {
      assert plans[0] in plans;
      UngroupedHasNoGroupCommits(plans[1..]);
    }
  }

  lemma FreshCommitsLast(txs: Transactions, outcome: Result<Decided, Refusal>)
    requires outcome.Ok? && (exists p :: p in outcome.value.plans && p.group.Some?) ==>
               forall p :: p in outcome.value.plans ==> p.group.Some?
    ensures CommitsLast(FreshRun(txs, outcome).effects)
  {
    if outcome.Ok? {
      var plans := outcome.value.plans;
      if plans != [] && plans[0].group.Some? {
        assert plans[0] in plans;
        DormancyCommitsLast(plans, plans);
      } else {
        assert plans != [] ==> plans[0] in plans;
        UngroupedHasNoGroupCommits(plans);
      }
    }
  }

  lemma AbortsCommitNothing(plans: seq<Plan>)
    ensures CommitsLast(Appends(plans, Abort))
  {
  }

  lemma SuspensionThenCommits(awake: set<Channel>, pending: seq<Plan>)
    requires forall p :: p in pending ==> p.group.Some?
    ensures CommitsLast((if awake == {} then [] else [SuspendCards(awake)]) + Appends(pending, Commit))
  {
  }

  lemma MembersGrouped(ev: Evidence)
    requires ev.DormancyAgreed?
    ensures forall p :: p in MemberPlans(ev) ==> p.group.Some?
  {
  }

  lemma SourceCommitsLast(w: World, txs: Transactions, ev: Evidence, outcome: Result<Decided, Refusal>)
    requires Wired(w) && ev.DormancyAgreed? && ev.entries.Keys == w.note.Keys
    requires ShowsOnly(w.note, Mastered) && WithTerminal(MemberPlans(ev), txs, Some(Commit)) == []
    ensures CommitsLast(RecoverGroup(w, txs, ev, outcome).effects)
  {
    MembersAreActive(w, ev);
    MembersGrouped(ev);
    AbortsCommitNothing(WithTerminal(MemberPlans(ev), txs, None));
    DormancyCommitsLast(MemberPlans(ev), WithoutTransaction(MemberPlans(ev), txs));
    GroupAtSourceProgram(w, txs, ev, outcome);
  }

  lemma GroupCommitsLast(w: World, ev: Evidence, outcome: Result<Decided, Refusal>)
    requires InvAt(w, Group(ev))
    ensures CommitsLast(RecoverGroup(w, ViewOf(w).txs, ev, outcome).effects)
  {
    if AllAtSource(ViewOf(w), ev) {
      SourceHasNoCommit(ViewOf(w), ev);
      SourceCommitsLast(w, ViewOf(w).txs, ev, outcome);
    } else {
      TargetProgram(w, ev, outcome);
      MembersGrouped(ev);
      SuspensionThenCommits(AwakeCards(w), WithTerminal(MemberPlans(ev), ViewOf(w).txs, None));
    }
  }

  lemma SingleCommitsLast(w: World, p: Plan, outcome: Result<Decided, Refusal>)
    requires Wired(w)
    ensures CommitsLast(RecoverUngrouped(w, p, outcome).effects)
  {
  }

  lemma FreshCallCommitsLast(w: World, txs: Transactions, now: int)
    requires Wired(w)
    ensures CommitsLast(FreshRun(txs, FreshDecision(w, now)).effects)
  {
    if FreshDecision(w, now).Ok? {
      FreshIsValid(w, now);
    }
    FreshCommitsLast(txs, FreshDecision(w, now));
  }

  /** No call appends anything but group COMMITs behind a group COMMIT. */
  lemma CallCommitsLast(w: World, stage: Stage, now: int)
    requires InvAt(w, stage)
    ensures CommitsLast(Reconcile(w, now).effects)
  {
    CallIsProgram(w, stage, now);
    match stage
    case Idle => FreshCallCommitsLast(w, ViewOf(w).txs, now);
    case Single(p) => SingleCommitsLast(w, p, FreshDecision(w, now));
    case Group(ev) => GroupCommitsLast(w, ev, FreshDecision(w, now));
  }
}
