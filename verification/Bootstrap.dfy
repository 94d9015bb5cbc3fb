/**
 * Creating a deployment: several processes may race for one data root, any of them may
 * fail or die between any two effects, and a human may clear a lock whose holder is gone.
 */
module Bootstrap {
  import opened Wrappers
  import opened Faults

  datatype Entry =
    | Artifacts
    | Sessions
    | Journal
    | Exposures
    | Captures
    | Dispositions
    | Transcriptions
    | Identity
    | Temporary(process: nat)

  /** The durable entries in the order they are created; the identity comes after them all. */
  const ORDER: seq<Entry> := [Artifacts, Sessions, Journal, Exposures, Captures, Dispositions, Transcriptions]

  /** Where a process stands; a process that ended is Done, Failed or Dead. */
  datatype Phase =
    | Checked
    | NoRoot
    | Rooted
    | Unrecorded
    | Locked
    | Building(made: nat)
    | Validated
    | Staging
    | Staged
    | Unlinking(linked: bool)
    | ReadingBack
    | Releasing(published: bool)
    | Finishing
    | Done
    | Failed
    | Dead

  /** The root, its lock, who made each entry, and the processes started so far. */
  datatype State = State(root: bool, lock: Option<nat>, entries: map<Entry, nat>, phases: map<nat, Phase>)

  const START := State(false, None, map[], map[])

  datatype Action =
    | CheckPreconditions(process: nat)
    | LookForRoot(process: nat)
    | MakeRoot(process: nat, outcome: Outcome)
    | CreateLock(process: nat, outcome: Outcome)
    | RecordLock(process: nat, ok: bool)
    | DropLock(process: nat, outcome: Outcome)
    | CheckResidue(process: nat)
    | Create(process: nat, outcome: Outcome)
    | Validate(process: nat, ok: bool)
    | LookForIdentity(process: nat)
    | MakeTemporary(process: nat, outcome: Outcome)
    | Link(process: nat, written: bool, outcome: Outcome)
    | RemoveTemporary(process: nat, outcome: Outcome)
    | ReadBack(process: nat, ok: bool)
    | CheckMissing(process: nat)
    | Die(process: nat)
    | ClearLock

  predicate Ended(phase: Phase) {
    phase.Done? || phase.Failed? || phase.Dead?
  }

  function At(s: State, p: nat): Option<Phase> {
    if p in s.phases then Some(s.phases[p]) else None
  }

  predicate May(s: State, a: Action) {
    match a
    case CheckPreconditions(p) => p !in s.phases
    case LookForRoot(p) => At(s, p) == Some(Checked)
    case MakeRoot(p, _) => At(s, p) == Some(NoRoot)
    case CreateLock(p, _) => At(s, p) == Some(Rooted)
    case RecordLock(p, _) => At(s, p) == Some(Unrecorded)
    case DropLock(p, _) => At(s, p).Some? && At(s, p).value.Releasing?
    case CheckResidue(p) => At(s, p) == Some(Locked)
    case Create(p, _) => At(s, p).Some? && At(s, p).value.Building? && At(s, p).value.made < |ORDER|
    case Validate(p, _) => At(s, p) == Some(Building(|ORDER|))
    case LookForIdentity(p) => At(s, p) == Some(Validated)
    case MakeTemporary(p, _) => At(s, p) == Some(Staging)
    case Link(p, _, _) => At(s, p) == Some(Staged)
    case RemoveTemporary(p, _) => At(s, p).Some? && At(s, p).value.Unlinking?
    case ReadBack(p, _) => At(s, p) == Some(ReadingBack)
    case CheckMissing(p) => At(s, p) == Some(Finishing)
    case Die(p) => At(s, p).Some? && !Ended(At(s, p).value)
    case ClearLock => s.lock.Some? && At(s, s.lock.value).Some? && Ended(At(s, s.lock.value).value)
  }

  function To(s: State, p: nat, phase: Phase): State {
    s.(phases := s.phases[p := phase])
  }

  /** An exclusive creation by a process: an entry that exists already is an error. */
  function Make(s: State, p: nat, e: Entry, outcome: Outcome, success: Phase, failure: Phase): State {
    if e in s.entries || outcome.NotApplied? then To(s, p, failure)
    else To(s.(entries := s.entries[e := p]), p, if outcome.Applied? then success else failure)
  }

  function Act(s: State, a: Action): State
    requires May(s, a)
  {
    match a
    case CheckPreconditions(p) => To(s, p, if s.root && s.entries != map[] then Failed else Checked)
    case LookForRoot(p) => To(s, p, if !s.root then NoRoot else if s.entries != map[] then Failed else Rooted)
    case MakeRoot(p, outcome) =>
      if s.root || outcome.NotApplied? then To(s, p, Failed)
      else To(s.(root := true), p, if outcome.Applied? then Rooted else Failed)
    case CreateLock(p, outcome) =>
      if s.lock.Some? || outcome.NotApplied? then To(s, p, Failed)
      else To(s.(lock := Some(p)), p, if outcome.Applied? then Unrecorded else Failed)
    case RecordLock(p, ok) => To(s, p, if ok then Locked else Releasing(false))
    case DropLock(p, outcome) =>
      To(if outcome.NotApplied? then s else s.(lock := None), p,
         if outcome.Applied? && s.phases[p].published then Finishing else Failed)
    case CheckResidue(p) => To(s, p, if s.entries != map[] then Releasing(false) else Building(0))
    case Create(p, outcome) =>
      var made := s.phases[p].made;
      Make(s, p, ORDER[made], outcome, Building(made + 1), Releasing(false))
    case Validate(p, ok) => To(s, p, if ok then Validated else Releasing(false))
    case LookForIdentity(p) => To(s, p, if Identity in s.entries then Releasing(false) else Staging)
    case MakeTemporary(p, outcome) => Make(s, p, Temporary(p), outcome, Staged, Releasing(false))
    case Link(p, written, outcome) =>
      if !written then To(s, p, Unlinking(false))
      else Make(s, p, Identity, outcome, Unlinking(true), Unlinking(false))
    case RemoveTemporary(p, outcome) =>
      To(if outcome.NotApplied? then s else s.(entries := s.entries - {Temporary(p)}), p,
         if outcome.Applied? && s.phases[p].linked then ReadingBack else Releasing(false))
    case ReadBack(p, ok) =>
      To(s, p, Releasing(ok && Identity in s.entries && s.entries[Identity] == p))
    case CheckMissing(p) => To(s, p, if Complete(s.entries) then Done else Failed)
    case Die(p) => To(s, p, Dead)
    case ClearLock => s.(lock := None)
  }

  function Run(s: State, actions: seq<Action>): State
    decreases |actions|
  {
    if actions == [] || !May(s, actions[0]) then s else Run(Act(s, actions[0]), actions[1..])
  }

  predicate Complete(entries: map<Entry, nat>) {
    Identity in entries && forall i :: 0 <= i < |ORDER| ==> ORDER[i] in entries
  }

  // -------------------------------------------------------------------------
  // What every step keeps
  // -------------------------------------------------------------------------

  /** From creating the lock to dropping it. */
  predicate Inside(phase: Phase) {
    match phase
    case Unrecorded | Locked | Building(_) | Validated | Staging | Staged
         | Unlinking(_) | ReadingBack | Releasing(_) => true
    case _ => false
  }

  /** The root as one process has built it so far: its own first entries, in order, and no other. */
  predicate BuiltBy(entries: map<Entry, nat>, p: nat, made: nat) {
    && made <= |ORDER|
    && (forall i :: 0 <= i < made ==> ORDER[i] in entries)
    && (forall e <- entries :: entries[e] == p && e in ORDER[..made])
  }

  /** What the root holds when a process is at each phase. */
  predicate Fits(s: State, p: nat, phase: Phase) {
    match phase
    case Building(made) => BuiltBy(s.entries, p, made)
    case Validated | Staging => BuiltBy(s.entries, p, |ORDER|)
    case Staged => Identity !in s.entries && MadeAllOf(s.entries, p)
    case Unlinking(linked) => MadeAllOf(s.entries, p) && (linked ==> Identity in s.entries)
    case ReadingBack => MadeAllOf(s.entries, p) && Identity in s.entries
    case Releasing(published) => published ==> Published(s.entries, p)
    case Finishing | Done => Published(s.entries, p)
    case _ => true
  }

  /** All entries are there, and all that is there is the work of this process. */
  predicate MadeAllOf(entries: map<Entry, nat>, p: nat) {
    && (forall i :: 0 <= i < |ORDER| ==> ORDER[i] in entries)
    && (forall e <- entries :: entries[e] == p)
  }

  predicate Published(entries: map<Entry, nat>, p: nat) {
    Complete(entries) && entries[Identity] == p
  }

  predicate OneMaker(entries: map<Entry, nat>) {
    forall d <- entries, e <- entries :: entries[d] == entries[e]
  }

  ghost predicate Inv(s: State) {
    && (forall p <- s.phases :: Inside(s.phases[p]) ==> s.lock == Some(p))
    && (s.lock.Some? ==> s.lock.value in s.phases)
    && (forall p <- s.phases :: Fits(s, p, s.phases[p]))
    && OneMaker(s.entries)
    && (Identity in s.entries ==> Complete(s.entries))
  }

  /** A step that changes no entry and at most gives up the lock. */
  lemma QuietStep(s: State, p: nat, phase: Phase, s': State)
    requires Inv(s) && s' == To(s, p, phase).(root := s'.root)
    requires Inside(phase) ==> s.lock == Some(p)
    requires Fits(s, p, phase)
    ensures Inv(s')
  {
    forall q <- s'.phases ensures Fits(s', q, s'.phases[q]) && (Inside(s'.phases[q]) ==> s'.lock == Some(q)) {
      assert q != p ==> q in s.phases && Fits(s, q, s.phases[q]);
    }
  }

  lemma LockStep(s: State, p: nat, phase: Phase, s': State)
    requires Inv(s) && p in s.phases && s' == To(s, p, phase).(lock := s'.lock)
    requires s.lock.None? || s.lock == Some(p)
    requires s'.lock == Some(p) || (s'.lock.None? && !Inside(phase))
    requires Fits(s, p, phase)
    ensures Inv(s')
  {
    forall q <- s'.phases ensures Fits(s', q, s'.phases[q]) && (Inside(s'.phases[q]) ==> s'.lock == Some(q)) {
      assert q != p ==> q in s.phases && Fits(s, q, s.phases[q]) && !Inside(s.phases[q]);
    }
  }

  /** Only the process inside changes entries, and it takes no published one away. */
  lemma EntryStep(s: State, p: nat, phase: Phase, s': State)
    requires Inv(s) && p in s.phases && Inside(s.phases[p]) && s' == To(s, p, phase).(entries := s'.entries)
    requires Inside(phase) && Fits(s', p, phase) && OneMaker(s'.entries)
    requires Identity in s'.entries ==> Complete(s'.entries)
    requires forall q :: Published(s.entries, q) ==> Published(s'.entries, q)
    ensures Inv(s')
  {
    forall q <- s'.phases ensures Fits(s', q, s'.phases[q]) && (Inside(s'.phases[q]) ==> s'.lock == Some(q)) {
      assert q != p ==> q in s.phases && Fits(s, q, s.phases[q]) && !Inside(s.phases[q]);
    }
  }

  lemma CreateStep(s: State, p: nat, outcome: Outcome)
    requires Inv(s) && May(s, Create(p, outcome))
    ensures Inv(Act(s, Create(p, outcome)))
    ensures ORDER[s.phases[p].made] !in s.entries
  {
    var made := s.phases[p].made;
    var s' := Act(s, Create(p, outcome));
    OneMoreBuilt(s.entries, p, made);
    if outcome.NotApplied? {
      QuietStep(s, p, Releasing(false), s');
    } else {
      EntryStep(s, p, s'.phases[p], s');
    }
  }

  lemma OneMoreBuilt(entries: map<Entry, nat>, p: nat, made: nat)
    requires BuiltBy(entries, p, made) && made < |ORDER|
    ensures ORDER[made] !in entries
    ensures BuiltBy(entries[ORDER[made] := p], p, made + 1)
    ensures Identity !in entries && OneMaker(entries[ORDER[made] := p]) && Identity !in entries[ORDER[made] := p]
  {
    assert ORDER[made] !in ORDER[..made];
    assert ORDER[..made + 1] == ORDER[..made] + [ORDER[made]];
    assert Identity !in ORDER;
  }

  lemma TemporaryStep(s: State, p: nat, outcome: Outcome)
    requires Inv(s) && May(s, MakeTemporary(p, outcome))
    ensures Inv(Act(s, MakeTemporary(p, outcome)))
  {
    var s' := Act(s, MakeTemporary(p, outcome));
    assert Fits(s, p, Staging) && Identity !in ORDER;
    EntryStep(s, p, s'.phases[p], s');
  }

  lemma LinkStep(s: State, p: nat, written: bool, outcome: Outcome)
    requires Inv(s) && May(s, Link(p, written, outcome))
    ensures Inv(Act(s, Link(p, written, outcome)))
    ensures Identity !in s.entries
  {
    var s' := Act(s, Link(p, written, outcome));
    assert Fits(s, p, Staged);
    EntryStep(s, p, s'.phases[p], s');
  }

  lemma RemoveStep(s: State, p: nat, outcome: Outcome)
    requires Inv(s) && May(s, RemoveTemporary(p, outcome))
    ensures Inv(Act(s, RemoveTemporary(p, outcome)))
  {
    var s' := Act(s, RemoveTemporary(p, outcome));
    assert Fits(s, p, s.phases[p]);
    EntryStep(s, p, s'.phases[p], s');
  }

  predicate Plain(a: Action) {
    match a
    case Create(_, _) | MakeTemporary(_, _) | Link(_, _, _) | RemoveTemporary(_, _) => false
    case CreateLock(_, _) | DropLock(_, _) | ClearLock => false
    case _ => true
  }

  lemma PlainStep(s: State, a: Action)
    requires Inv(s) && May(s, a) && Plain(a)
    ensures Inv(Act(s, a))
  {
    var s' := Act(s, a);
    PlainFits(s, a);
    QuietStep(s, a.process, s'.phases[a.process], s');
  }

  lemma PlainFits(s: State, a: Action)
    requires Inv(s) && May(s, a) && Plain(a)
    ensures var phase := Act(s, a).phases[a.process];
            Fits(s, a.process, phase) && (Inside(phase) ==> s.lock == Some(a.process))
  {
    assert a.process in s.phases ==> Fits(s, a.process, s.phases[a.process]);
  }

  lemma LockingStep(s: State, a: Action)
    requires Inv(s) && May(s, a) && (a.CreateLock? || a.DropLock?)
    ensures Inv(Act(s, a))
  {
    var s' := Act(s, a);
    if a.CreateLock? && s.lock.Some? {
      QuietStep(s, a.process, Failed, s');
    } else {
      LockStep(s, a.process, s'.phases[a.process], s');
    }
  }

  lemma ActKeepsInv(s: State, a: Action)
    requires Inv(s) && May(s, a)
    ensures Inv(Act(s, a))
  {
    var s' := Act(s, a);
    match a
    case Create(p, outcome) => CreateStep(s, p, outcome);
    case MakeTemporary(p, outcome) => TemporaryStep(s, p, outcome);
    case Link(p, written, outcome) => LinkStep(s, p, written, outcome);
    case RemoveTemporary(p, outcome) => RemoveStep(s, p, outcome);
    case CreateLock(_, _) => LockingStep(s, a);
    case DropLock(_, _) => LockingStep(s, a);
    case ClearLock =>
    case _ => PlainStep(s, a);
  }

  // -------------------------------------------------------------------------
  // Whole runs
  // -------------------------------------------------------------------------

  lemma {:induction false} RunKeepsInv(s: State, actions: seq<Action>)
    requires Inv(s)
    ensures Inv(Run(s, actions))
    decreases |actions|
  {
    if actions != [] && May(s, actions[0]) {
      ActKeepsInv(s, actions[0]);
      RunKeepsInv(Act(s, actions[0]), actions[1..]);
    }
  }

  /**
   * However bootstraps race, fail and die: an identity is only ever there with every
   * durable entry, all of one process's making; and whoever succeeds is that process.
   */
  lemma EveryRace(actions: seq<Action>)
    ensures var s := Run(START, actions);
            && (Identity in s.entries ==> Complete(s.entries))
            && OneMaker(s.entries)
            && (forall p <- s.phases :: s.phases[p].Done? ==> Published(s.entries, p))
            && (forall p <- s.phases, q <- s.phases :: Inside(s.phases[p]) && Inside(s.phases[q]) ==> p == q)
  {
    RunKeepsInv(START, actions);
    var s := Run(START, actions);
    assert forall p <- s.phases :: s.phases[p].Done? ==> Fits(s, p, s.phases[p]);
  }

  /** At most one process ever succeeds. */
  lemma OnlyOneSucceeds(actions: seq<Action>, p: nat, q: nat)
    requires At(Run(START, actions), p) == Some(Done) && At(Run(START, actions), q) == Some(Done)
    ensures p == q
  {
    EveryRace(actions);
  }

  lemma StepKeepsMaker(s: State, a: Action, e: Entry)
    requires Inv(s) && May(s, a) && e in s.entries && !e.Temporary?
    ensures e in Act(s, a).entries && Act(s, a).entries[e] == s.entries[e]
  {
    if a.Create? {
      NothingInTheWay(s, a.process);
    } else if a.Link? {
      LinkStep(s, a.process, a.written, a.outcome);
    }
  }

  /** What is published stays as it is. */
  lemma {:induction false} PublishedForGood(s: State, actions: seq<Action>, p: nat)
    requires Inv(s) && Published(s.entries, p)
    ensures Published(Run(s, actions).entries, p)
    decreases |actions|
  {
    if actions != [] && May(s, actions[0]) {
      var s' := Act(s, actions[0]);
      forall e <- s.entries | !e.Temporary? ensures e in s'.entries && s'.entries[e] == s.entries[e] {
        StepKeepsMaker(s, actions[0], e);
      }
      ActKeepsInv(s, actions[0]);
      PublishedForGood(s', actions[1..], p);
    }
  }

  /** Whoever made what is in the root has ended. */
  predicate Abandoned(s: State) {
    s.entries != map[] && forall e <- s.entries :: At(s, s.entries[e]).Some? && Ended(At(s, s.entries[e]).value)
  }

  /** In an abandoned root nobody creates, publishes or removes anything. */
  lemma AbandonedStep(s: State, a: Action)
    requires Inv(s) && May(s, a) && Abandoned(s)
    ensures Act(s, a).entries == s.entries && Abandoned(Act(s, a))
  {
    var e :| e in s.entries;
    if a.ClearLock? {
    } else {
      var p := a.process;
      assert p != s.entries[e];
      if p in s.phases {
        NoPartOfIt(s, p);
      }
    }
  }

  /** A process that made nothing of an abandoned root is not building in it. */
  lemma NoPartOfIt(s: State, p: nat)
    requires Inv(s) && Abandoned(s) && p in s.phases && !Ended(s.phases[p])
    ensures match s.phases[p]
            case Building(_) | Validated | Staging | Staged | Unlinking(_) | ReadingBack => false
            case _ => true
  {
    var e :| e in s.entries;
    assert Fits(s, p, s.phases[p]);
  }

  /**
   * A partly built root is never adopted: once its builder has ended, whatever runs
   * after leaves every entry as it is, and no identity is ever added.
   */
  lemma {:induction false} AbandonedRootIsNeverAdopted(s: State, actions: seq<Action>)
    requires Inv(s) && Abandoned(s)
    ensures Run(s, actions).entries == s.entries
    decreases |actions|
  {
    if actions != [] && May(s, actions[0]) {
      AbandonedStep(s, actions[0]);
      ActKeepsInv(s, actions[0]);
      AbandonedRootIsNeverAdopted(Act(s, actions[0]), actions[1..]);
    }
  }

  /**
   * The refusals that cannot happen under the lock: a durable entry, a ledger or an
   * identity that is there already, and an entry missing at the end.
   */
  lemma NothingInTheWay(s: State, p: nat)
    requires Inv(s) && p in s.phases
    ensures match s.phases[p]
            case Building(made) => forall i :: made <= i < |ORDER| ==> ORDER[i] !in s.entries
            case Validated | Staged => Identity !in s.entries
            case Finishing => Complete(s.entries)
            case ReadingBack => Identity in s.entries && s.entries[Identity] == p
            case _ => true
  {
    assert Fits(s, p, s.phases[p]);
    assert Identity !in ORDER;
  }

  // -------------------------------------------------------------------------
  // An undisturbed bootstrap
  // -------------------------------------------------------------------------

  /** What a process does next when nothing fails. */
  function NextAction(p: nat, phase: Option<Phase>): Action {
    match phase
    case None => CheckPreconditions(p)
    case Some(Checked) => LookForRoot(p)
    case Some(NoRoot) => MakeRoot(p, Applied)
    case Some(Rooted) => CreateLock(p, Applied)
    case Some(Unrecorded) => RecordLock(p, true)
    case Some(Locked) => CheckResidue(p)
    case Some(Building(made)) => if made < |ORDER| then Create(p, Applied) else Validate(p, true)
    case Some(Validated) => LookForIdentity(p)
    case Some(Staging) => MakeTemporary(p, Applied)
    case Some(Staged) => Link(p, true, Applied)
    case Some(Unlinking(_)) => RemoveTemporary(p, Applied)
    case Some(ReadingBack) => ReadBack(p, true)
    case Some(Releasing(_)) => DropLock(p, Applied)
    case _ => CheckMissing(p)
  }

  function Left(phase: Option<Phase>): nat {
    match phase
    case None => 22
    case Some(Checked) => 21
    case Some(NoRoot) => 20
    case Some(Rooted) => 19
    case Some(Unrecorded) => 18
    case Some(Locked) => 17
    case Some(Building(made)) => if made <= 7 then 16 - made else 0
    case Some(Validated) => 8
    case Some(Staging) => 7
    case Some(Staged) => 6
    case Some(Unlinking(_)) => 5
    case Some(ReadingBack) => 4
    case Some(Releasing(_)) => 3
    case Some(Finishing) => 2
    case _ => 1
  }

  /** The phases a bootstrap goes through when nothing fails. */
  predicate OnTrack(s: State, p: nat) {
    match At(s, p)
    case None => s.lock.None? && s.entries == map[]
    case Some(Checked) | Some(NoRoot) | Some(Rooted) =>
      s.lock.None? && s.entries == map[] && (At(s, p) == Some(NoRoot) ==> !s.root)
    case Some(Unrecorded) | Some(Locked) => s.entries == map[]
    case Some(Unlinking(linked)) => linked
    case Some(Releasing(published)) => published
    case Some(Failed) | Some(Dead) => false
    case _ => true
  }

  /** Nothing stands in the way of the next step of a process on track. */
  ghost predicate Clear(s: State, p: nat) {
    match At(s, p)
    case Some(Building(made)) => made <= |ORDER| && (made < |ORDER| ==> ORDER[made] !in s.entries)
    case Some(Validated) | Some(Staged) => Identity !in s.entries
    case Some(Staging) => Temporary(p) !in s.entries
    case Some(Finishing) => Complete(s.entries)
    case Some(ReadingBack) => Identity in s.entries && s.entries[Identity] == p
    case _ => true
  }

  lemma TheWayIsClear(s: State, p: nat)
    requires Inv(s)
    ensures Clear(s, p)
  {
    if p in s.phases {
      NothingInTheWay(s, p);
      assert Fits(s, p, s.phases[p]);
      assert Temporary(p) !in ORDER;
    }
  }

  lemma OnTrackStep(s: State, p: nat)
    requires Clear(s, p) && OnTrack(s, p) && At(s, p) != Some(Done)
    ensures var a := NextAction(p, At(s, p));
            May(s, a) && OnTrack(Act(s, a), p) && Left(At(Act(s, a), p)) < Left(At(s, p))
  {
  }

  /** Into an empty and unlocked root, a bootstrap that nothing disturbs succeeds. */
  lemma {:induction false} UndisturbedBootstrapSucceeds(s: State, p: nat) returns (actions: seq<Action>)
    requires Inv(s) && OnTrack(s, p)
    ensures At(Run(s, actions), p) == Some(Done) && Published(Run(s, actions).entries, p)
    decreases Left(At(s, p))
  {
    if At(s, p) == Some(Done) {
      actions := [];
      assert Fits(s, p, Done);
    } else {
      TheWayIsClear(s, p);
      OnTrackStep(s, p);
      var a := NextAction(p, At(s, p));
      ActKeepsInv(s, a);
      var more := UndisturbedBootstrapSucceeds(Act(s, a), p);
      actions := [a] + more;
      assert actions[1..] == more;
    }
  }
}
