/**
 * Committing one vocabulary unit as a note, guarded by an intent log: COMMIT_INTENT
 * before the note is added, acceptance after, explicit repair or abandonment when
 * a call was lost in between. There is one writer, adding a note is atomic, and
 * every call may fail before or after it was applied.
 */
module Forge {
  import opened Wrappers
  import opened Faults

  datatype Mark =
    | Intent
    | Accepted(note: nat)
    | Abandoned
    | Uncertain
    | Rejected(outcome: string)

  datatype Event = Event(unitKey: string, attempt: string, mark: Mark)

  /** The log and the notes; a note's id is its place, its content its unit key. */
  datatype Store = Store(events: seq<Event>, notes: seq<string>)

  /** Attempt ids are 8 to 128 letters, digits, dots, underscores and hyphens. */
  predicate ValidAttempt(a: string) {
    8 <= |a| <= 128 && forall i :: 0 <= i < |a| ==> AttemptCharacter(a[i])
  }

  predicate AttemptCharacter(c: char) {
    'A' <= c <= 'Z' || 'a' <= c <= 'z' || '0' <= c <= '9' || c in {'.', '_', '-'}
  }

  // -------------------------------------------------------------------------
  // Reading the log
  // -------------------------------------------------------------------------

  /** How many intents, acceptances and abandonments an attempt has. */
  datatype Tally = Tally(intents: nat, acceptances: nat, abandonments: nat)

  const UNUSED := Tally(0, 0, 0)
  const PENDING := Tally(1, 0, 0)

  function Count(t: Tally, mark: Mark): Tally {
    match mark
    case Intent => t.(intents := t.intents + 1)
    case Accepted(_) => t.(acceptances := t.acceptances + 1)
    case Abandoned => t.(abandonments := t.abandonments + 1)
    case _ => t
  }

  function TallyOf(events: seq<Event>, a: string): Tally {
    if events == [] then UNUSED
    else
      var last := events[|events| - 1];
      var before := TallyOf(events[..|events| - 1], a);
      if last.attempt == a then Count(before, last.mark) else before
  }

  predicate Used(events: seq<Event>, a: string) {
    exists e :: e in events && e.attempt == a
  }

  /** An attempt id that can be allocated. */
  predicate Fresh(events: seq<Event>, a: string) {
    ValidAttempt(a) && !Used(events, a)
  }

  predicate IntendedFor(events: seq<Event>, a: string, u: string) {
    Event(u, a, Intent) in events
  }

  predicate Confused(t: Tally) {
    t.intents != 1 || t.acceptances > 1 || t.abandonments > 1 || (t.acceptances > 0 && t.abandonments > 0)
  }

  ghost predicate AmbiguousFor(events: seq<Event>, u: string) {
    exists a :: IntendedFor(events, a, u) && (!ValidAttempt(a) || Confused(TallyOf(events, a)))
  }

  predicate PendingFor(events: seq<Event>, a: string, u: string) {
    IntendedFor(events, a, u) && ValidAttempt(a) && TallyOf(events, a) == PENDING
  }

  datatype PendingIntent = NoIntent | OneIntent(attempt: string) | AmbiguousIntent

  function AttemptsIn(events: seq<Event>): (out: set<string>)
    ensures forall a :: a in out <==> Used(events, a)
  {
    set e | e in events :: e.attempt
  }

  /** Looks at every attempt of the log; more than one pending is as bad as a confused one. */
  method InspectPendingIntent(events: seq<Event>, u: string) returns (r: PendingIntent)
    ensures r.OneIntent? ==> PendingFor(events, r.attempt, u)
    ensures r.OneIntent? ==> forall a :: PendingFor(events, a, u) ==> a == r.attempt
    ensures r.NoIntent? ==> forall a :: !PendingFor(events, a, u)
    ensures r.AmbiguousIntent? <==>
              AmbiguousFor(events, u) || exists a, b :: a != b && PendingFor(events, a, u) && PendingFor(events, b, u)
  {
    var todo := AttemptsIn(events);
    ghost var done: set<string> := {};
    var ambiguous := false;
    var pending: seq<string> := [];
    while todo != {}
      invariant done + todo == AttemptsIn(events) && done !! todo
      invariant ambiguous <==> exists a :: a in done && IntendedFor(events, a, u)
                                           && (!ValidAttempt(a) || Confused(TallyOf(events, a)))
      invariant forall a :: a in pending <==> a in done && PendingFor(events, a, u)
      invariant forall i, j :: 0 <= i < j < |pending| ==> pending[i] != pending[j]
      decreases todo
    {
      var a :| a in todo;
      todo := todo - {a};
      ghost var before := done;
      done := done + {a};
      if IntendedFor(events, a, u) {
        if !ValidAttempt(a) || Confused(TallyOf(events, a)) {
          ambiguous := true;
        } else if TallyOf(events, a) == PENDING {
          assert a !in pending;
          pending := pending + [a];
        }
      }
    }
    forall a, v | IntendedFor(events, a, v) ensures a in done {
      assert Event(v, a, Intent) in events;
      assert Used(events, a);
    }
    if ambiguous {
      return AmbiguousIntent;
    }
    if |pending| > 1 {
      assert pending[0] in pending && pending[1] in pending;
      return AmbiguousIntent;
    }
    if |pending| == 1 {
      assert forall a :: a in pending ==> a == pending[0];
      assert pending[0] in pending;
      return OneIntent(pending[0]);
    }
    r := NoIntent;
  }

  function NotesOf(notes: seq<string>, u: string): (ids: seq<nat>)
    ensures forall n: nat :: n in ids <==> n < |notes| && notes[n] == u
    ensures forall i, j :: 0 <= i < j < |ids| ==> ids[i] < ids[j]
  {
    if notes == [] then []
    else
      var last := |notes| - 1;
      var rest := NotesOf(notes[..last], u);
      assert forall k :: 0 <= k < |rest| ==> rest[k] in rest;
      if notes[last] == u then rest + [last] else rest
  }

  lemma TallyAppends(events: seq<Event>, e: Event, a: string)
    ensures TallyOf(events + [e], a) ==
            if e.attempt == a then Count(TallyOf(events, a), e.mark) else TallyOf(events, a)
  {
    assert (events + [e])[..|events|] == events;
  }

  lemma {:induction false} UnusedTally(events: seq<Event>, a: string)
    requires !Used(events, a)
    ensures TallyOf(events, a) == UNUSED
  {
    if events != [] {
      var init, last := events[..|events| - 1], events[|events| - 1];
      assert last in events;
      forall e | e in init ensures e.attempt != a { assert e in events; }
      UnusedTally(init, a);
    }
  }

  // -------------------------------------------------------------------------
  // The invariant
  // -------------------------------------------------------------------------

  /** An attempt was meant for one unit, and ended at most once, if it was meant at all. */
  predicate Sound(events: seq<Event>, a: string) {
    var t := TallyOf(events, a);
    && t.intents <= 1
    && t.acceptances + t.abandonments <= t.intents
    && (t.intents == 1 ==> ValidAttempt(a))
  }

  /** Meant for the unit and not given up. */
  predicate Live(events: seq<Event>, a: string, u: string) {
    IntendedFor(events, a, u) && TallyOf(events, a).abandonments == 0
  }

  ghost predicate EveryAttemptSound(events: seq<Event>) {
    && (forall a :: Sound(events, a))
    && (forall a, u :: IntendedFor(events, a, u) ==> TallyOf(events, a).intents == 1)
    && (forall a, u, v :: IntendedFor(events, a, u) && IntendedFor(events, a, v) ==> u == v)
  }

  ghost predicate OneLive(events: seq<Event>) {
    forall a, b, u :: Live(events, a, u) && Live(events, b, u) ==> a == b
  }

  ghost predicate NotesIntended(s: Store) {
    forall u :: u in s.notes ==> exists a :: Live(s.events, a, u)
  }

  ghost predicate AcceptedHaveNotes(s: Store) {
    forall a, u :: IntendedFor(s.events, a, u) && TallyOf(s.events, a).acceptances > 0 ==> u in s.notes
  }

  ghost predicate OneNoteEach(notes: seq<string>) {
    forall i, j :: 0 <= i < j < |notes| ==> notes[i] != notes[j]
  }

  ghost predicate Inv(s: Store) {
    && EveryAttemptSound(s.events)
    && OneLive(s.events)
    && OneNoteEach(s.notes)
    && NotesIntended(s)
    && AcceptedHaveNotes(s)
  }

  // -------------------------------------------------------------------------
  // Durable actions and when they may happen
  // -------------------------------------------------------------------------

  datatype Action =
    | Intend(attempt: string, unitKey: string)
    | AddNote(unitKey: string)
    | Accept(attempt: string, unitKey: string, note: nat)
    | Abandon(attempt: string, unitKey: string)
    | Remark(event: Event)

  function EventOf(x: Action): Event
    requires !x.AddNote?
  {
    match x
    case Intend(a, u) => Event(u, a, Intent)
    case Accept(a, u, n) => Event(u, a, Accepted(n))
    case Abandon(a, u) => Event(u, a, Abandoned)
    case Remark(e) => e
  }

  function Act(s: Store, x: Action): Store {
    if x.AddNote? then s.(notes := s.notes + [x.unitKey]) else s.(events := s.events + [EventOf(x)])
  }

  ghost predicate May(s: Store, x: Action) {
    match x
    case Intend(a, u) => Fresh(s.events, a) && u !in s.notes && forall b :: !PendingFor(s.events, b, u)
    case AddNote(u) => u !in s.notes && exists a :: PendingFor(s.events, a, u)
    case Accept(a, u, n) => PendingFor(s.events, a, u) && n < |s.notes| && s.notes[n] == u
    case Abandon(a, u) => PendingFor(s.events, a, u) && u !in s.notes
    case Remark(e) => e.mark.Uncertain? || e.mark.Rejected?
  }

  /** The actions are allowed one after the other and lead from `s` to `s'`. */
  ghost predicate Performs(s: Store, xs: seq<Action>, s': Store)
    decreases |xs|
  {
    if xs == [] then s == s' else May(s, xs[0]) && Performs(Act(s, xs[0]), xs[1..], s')
  }

  lemma {:induction false} PerformsMore(s: Store, xs: seq<Action>, s': Store, x: Action)
    requires Performs(s, xs, s') && May(s', x)
    ensures Performs(s, xs + [x], Act(s', x))
    decreases |xs|
  {
    if xs == [] {
      assert xs + [x] == [x];
      assert Performs(Act(s', x), [x][1..], Act(s', x));
    } else {
      assert (xs + [x])[1..] == xs[1..] + [x];
      PerformsMore(Act(s, xs[0]), xs[1..], s', x);
    }
  }

  // -------------------------------------------------------------------------
  // Actions keep the invariant
  // -------------------------------------------------------------------------

  lemma IntendedAppends(events: seq<Event>, e: Event, a: string, u: string)
    ensures IntendedFor(events + [e], a, u) <==> IntendedFor(events, a, u) || e == Event(u, a, Intent)
  {
  }

  lemma IntentKeepsSound(events: seq<Event>, a: string, u: string)
    requires EveryAttemptSound(events) && ValidAttempt(a) && !Used(events, a)
    ensures EveryAttemptSound(events + [Event(u, a, Intent)])
  {
    var e := Event(u, a, Intent);
    UnusedTally(events, a);
    forall b ensures Sound(events + [e], b) {
      TallyAppends(events, e, b);
      assert Sound(events, b);
    }
    forall b, v | IntendedFor(events + [e], b, v) ensures TallyOf(events + [e], b).intents == 1 {
      TallyAppends(events, e, b);
      IntendedAppends(events, e, b, v);
    }
    forall b, v, w | IntendedFor(events + [e], b, v) && IntendedFor(events + [e], b, w) ensures v == w {
      IntendedAppends(events, e, b, v);
      IntendedAppends(events, e, b, w);
    }
  }

  /** A unit without a pending attempt and without a note has no live attempt. */
  lemma NothingLive(s: Store, u: string, a: string)
    requires Inv(s) && u !in s.notes && forall b :: !PendingFor(s.events, b, u)
    ensures !Live(s.events, a, u)
  {
    assert Sound(s.events, a) && !PendingFor(s.events, a, u);
    assert IntendedFor(s.events, a, u) ==> TallyOf(s.events, a).acceptances == 0;
  }

  lemma IntentKeepsInv(s: Store, a: string, u: string)
    requires Inv(s) && May(s, Intend(a, u))
    ensures Inv(Act(s, Intend(a, u)))
  {
    var e, s' := Event(u, a, Intent), Act(s, Intend(a, u));
    IntentKeepsSound(s.events, a, u);
    UnusedTally(s.events, a);
    forall b, c, v | Live(s'.events, b, v) && Live(s'.events, c, v) ensures b == c {
      LiveAfterIntent(s, a, u, b, v);
      LiveAfterIntent(s, a, u, c, v);
    }
    forall v | v in s'.notes ensures exists b :: Live(s'.events, b, v) {
      var b :| Live(s.events, b, v);
      TallyAppends(s.events, e, b);
      IntendedAppends(s.events, e, b, v);
      assert Live(s'.events, b, v);
    }
    forall b, v | IntendedFor(s'.events, b, v) && TallyOf(s'.events, b).acceptances > 0 ensures v in s'.notes {
      TallyAppends(s.events, e, b);
      IntendedAppends(s.events, e, b, v);
    }
  }

  lemma LiveAfterIntent(s: Store, a: string, u: string, b: string, v: string)
    requires Inv(s) && May(s, Intend(a, u)) && Live(Act(s, Intend(a, u)).events, b, v)
    ensures if v == u then b == a else Live(s.events, b, v)
  {
    var e := Event(u, a, Intent);
    TallyAppends(s.events, e, b);
    IntendedAppends(s.events, e, b, v);
    if v == u && b != a {
      NothingLive(s, u, b);
    }
  }

  lemma NoteKeepsInv(s: Store, u: string)
    requires Inv(s) && May(s, AddNote(u))
    ensures Inv(Act(s, AddNote(u)))
  {
    var s' := Act(s, AddNote(u));
    forall v | v in s'.notes ensures exists b :: Live(s'.events, b, v) {
      if v == u {
        var a :| PendingFor(s.events, a, u);
        assert Live(s'.events, a, u);
      }
    }
  }

  /** An attempt's end, or a remark, leaves every intent where it was. */
  lemma EndKeepsSound(events: seq<Event>, e: Event)
    requires EveryAttemptSound(events) && !e.mark.Intent?
    requires e.mark.Accepted? || e.mark.Abandoned? ==> TallyOf(events, e.attempt) == PENDING
    ensures EveryAttemptSound(events + [e])
    ensures forall a, u :: IntendedFor(events + [e], a, u) <==> IntendedFor(events, a, u)
  {
    forall a, u ensures IntendedFor(events + [e], a, u) <==> IntendedFor(events, a, u) {
      IntendedAppends(events, e, a, u);
    }
    forall a ensures Sound(events + [e], a) && TallyOf(events + [e], a).intents == TallyOf(events, a).intents {
      TallyAppends(events, e, a);
      assert Sound(events, a);
    }
  }

  lemma EndKeepsInv(s: Store, e: Event)
    requires Inv(s) && !e.mark.Intent?
    requires e.mark.Accepted? || e.mark.Abandoned? ==> PendingFor(s.events, e.attempt, e.unitKey)
    requires e.mark.Accepted? ==> e.unitKey in s.notes
    requires e.mark.Abandoned? ==> e.unitKey !in s.notes
    ensures Inv(s.(events := s.events + [e]))
  {
    var s' := s.(events := s.events + [e]);
    EndKeepsSound(s.events, e);
    forall a ensures TallyOf(s'.events, a).abandonments >= TallyOf(s.events, a).abandonments
      ensures a != e.attempt || !e.mark.Abandoned? ==>
                TallyOf(s'.events, a).abandonments == TallyOf(s.events, a).abandonments
      ensures a != e.attempt || !e.mark.Accepted? ==>
                TallyOf(s'.events, a).acceptances == TallyOf(s.events, a).acceptances
    {
      TallyAppends(s.events, e, a);
    }
    forall a, b, u | Live(s'.events, a, u) && Live(s'.events, b, u) ensures a == b {
      assert Live(s.events, a, u) && Live(s.events, b, u);
    }
    forall u | u in s'.notes ensures exists a :: Live(s'.events, a, u) {
      var a :| Live(s.events, a, u);
      assert e.mark.Abandoned? && a == e.attempt ==> u == e.unitKey;
      assert Live(s'.events, a, u);
    }
  }

  /** Every allowed action keeps the invariant. */
  lemma ActionKeepsInv(s: Store, x: Action)
    requires Inv(s) && May(s, x)
    ensures Inv(Act(s, x))
  {
    match x
    case Intend(a, u) => IntentKeepsInv(s, a, u);
    case AddNote(u) => NoteKeepsInv(s, u);
    case _ => EndKeepsInv(s, EventOf(x));
  }

  lemma {:induction false} RunKeepsInv(s: Store, xs: seq<Action>, s': Store)
    requires Inv(s) && Performs(s, xs, s')
    ensures Inv(s')
    decreases |xs|
  {
    if xs != [] {
      ActionKeepsInv(s, xs[0]);
      RunKeepsInv(Act(s, xs[0]), xs[1..], s');
    }
  }

  /** Histories that any run produces are never ambiguous. */
  lemma NeverAmbiguous(s: Store, u: string)
    requires Inv(s)
    ensures !AmbiguousFor(s.events, u)
    ensures forall a, b :: PendingFor(s.events, a, u) && PendingFor(s.events, b, u) ==> a == b
  {
    forall a | IntendedFor(s.events, a, u) ensures ValidAttempt(a) && !Confused(TallyOf(s.events, a)) {
      assert Sound(s.events, a);
    }
    forall a, b | PendingFor(s.events, a, u) && PendingFor(s.events, b, u) ensures a == b {
      assert Live(s.events, a, u) && Live(s.events, b, u);
    }
  }

  lemma {:induction false} NoNotesOf(notes: seq<string>, u: string)
    requires u !in notes
    ensures NotesOf(notes, u) == []
  {
    if notes != [] {
      assert notes[|notes| - 1] in notes;
      forall k | 0 <= k < |notes| - 1 ensures notes[k] != u { assert notes[k] in notes; }
      NoNotesOf(notes[..|notes| - 1], u);
    }
  }

  lemma {:induction false} AtMostOneNote(notes: seq<string>, u: string)
    requires OneNoteEach(notes)
    ensures |NotesOf(notes, u)| <= 1
  {
    if notes != [] {
      var init, last := notes[..|notes| - 1], notes[|notes| - 1];
      AtMostOneNote(init, u);
      if last == u {
        NoNotesOf(init, u);
      }
    }
  }

  // -------------------------------------------------------------------------
  // The calls
  // -------------------------------------------------------------------------

  /** What the human and the validators say about a generated unit. */
  datatype Judgment =
    | Invalid(outcome: string)
    | Declined
    | Confirmed

  datatype ForgeResult =
    | Created(note: nat)
    | EvidenceGap(attempt: string, note: nat)
    | CommitUncertain(attempt: string)
    | PendingAmbiguous
    | RejectedResult(outcome: string)
    | Aborted(outcome: string)

  datatype RepairResult =
    | Repaired(note: nat)
    | AbandonedNow
    | AlreadyResolved(accepted: bool)
    | NoNote
    | HistoryAmbiguous
    | IntentMissing
    | NotesAmbiguous
    | RepairRequired(note: nat)
    | Unavailable(outcome: string)

  datatype AttemptHistory =
    | Confusing
    | Unmeant
    | Ended(accepted: bool)
    | Waiting(unitKey: string)

  ghost predicate Tells(read: seq<Event>, a: string, h: AttemptHistory) {
    var t := TallyOf(read, a);
    match h
    case Confusing =>
      t.intents > 1 || t.acceptances > 1 || t.abandonments > 1 || (t.acceptances > 0 && t.abandonments > 0)
    case Unmeant => t.intents != 1 || forall u :: !IntendedFor(read, a, u)
    case Ended(accepted) =>
      && t.intents == 1 && (exists u :: IntendedFor(read, a, u))
      && if accepted then t.acceptances == 1 && t.abandonments == 0 else t.acceptances == 0 && t.abandonments == 1
    case Waiting(u) => IntendedFor(read, a, u) && t == PENDING
  }

  /** The attempt was meant for some unit and has ended. */
  ghost predicate HasEnded(events: seq<Event>, a: string) {
    exists u :: IntendedFor(events, a, u) && !PendingFor(events, a, u)
  }

  /** The attempt is pending for a unit that has a note, or has none. */
  ghost predicate Waits(s: Store, a: string, noted: bool) {
    exists u :: PendingFor(s.events, a, u) && (u in s.notes <==> noted)
  }

  ghost predicate NeverMeant(events: seq<Event>, a: string) {
    forall u :: !IntendedFor(events, a, u)
  }

  ghost predicate NonePending(events: seq<Event>, u: string) {
    forall a :: !PendingFor(events, a, u)
  }

  /** Invalid as generated, or, with nothing pending, a duplicate or declined. */
  ghost predicate Rejectable(s: Store, u: string, judgment: Judgment) {
    judgment.Invalid? || (NonePending(s.events, u) && (u in s.notes || judgment.Declined?))
  }

  function Grounds(s: Store, u: string, judgment: Judgment): string {
    if judgment.Invalid? then judgment.outcome else if u in s.notes then "DUPLICATE" else "HUMAN_DECLINED"
  }

  /** What is said of a pending attempt: that its evidence is missing, or that its note is. */
  predicate SaysPending(r: ForgeResult, notes: seq<string>, u: string, a: string, clean: bool) {
    if !clean then r.Aborted?
    else if u in notes then r.EvidenceGap? && r.attempt == a && r.note < |notes| && notes[r.note] == u
    else r == CommitUncertain(a)
  }

  /** A commit that something was lost of names its own attempt and tells what the store holds of it. */
  ghost predicate SaysUncertain(r: ForgeResult, s: Store, u: string, candidate: string, done: seq<Action>,
                                judgment: Judgment, clean: bool)
  {
    && (r.EvidenceGap? || r.CommitUncertain? ==>
          && judgment.Confirmed? && !clean && r.attempt == candidate && done != [] && done[0] == Intend(candidate, u))
    && (r.EvidenceGap? ==> IntendedFor(s.events, candidate, u) && r.note < |s.notes| && s.notes[r.note] == u)
    && (r.CommitUncertain? ==> PendingFor(s.events, candidate, u))
    && (r.Aborted? ==> done == [] || done == [Intend(candidate, u)] || (|done| == 1 && done[0].Remark?))
  }

  lemma InvalidIsUnmeant(s: Store, a: string)
    requires EveryAttemptSound(s.events) && !ValidAttempt(a)
    ensures NeverMeant(s.events, a) && !HasEnded(s.events, a) && forall noted :: !Waits(s, a, noted)
  {
    assert Sound(s.events, a);
  }

  /** In sound logs no history is confusing, and the others tell whether the attempt is pending. */
  lemma SoundHistory(s: Store, a: string, h: AttemptHistory)
    requires EveryAttemptSound(s.events) && Tells(s.events, a, h)
    ensures !h.Confusing?
    ensures h.Unmeant? <==> NeverMeant(s.events, a)
    ensures h.Ended? <==> HasEnded(s.events, a)
    ensures h.Waiting? ==> PendingFor(s.events, a, h.unitKey)
    ensures forall noted :: Waits(s, a, noted) <==> h.Waiting? && (h.unitKey in s.notes <==> noted)
  {
    assert Sound(s.events, a);
  }

  class Workshop {
    var events: seq<Event>
    var notes: seq<string>
    // How each call to the log and to the gateway will end, and how many there have been.
    const outcomes: nat -> Outcome
    var calls: nat

    constructor (outcomes: nat -> Outcome)
      ensures State() == Store([], []) && this.outcomes == outcomes && calls == 0
    {
      events, notes := [], [];
      this.outcomes, calls := outcomes, 0;
    }

    function State(): Store
      reads this
    {
      Store(events, notes)
    }

    method LogEvent(e: Event) returns (ok: bool, ghost applied: bool)
      modifies this`events, this`calls
      ensures events == if applied then old(events) + [e] else old(events)
      ensures ok ==> applied
      ensures (ok <==> Clean(outcomes, old(calls), calls)) && old(calls) <= calls
    {
      var outcome := outcomes(calls);
      calls := calls + 1;
      ok, applied := outcome == Applied, outcome != NotApplied;
      if outcome != NotApplied {
        events := events + [e];
      }
    }

    /** The gateway adds one note or none; its answer may be lost. */
    method AddOneNote(u: string) returns (note: Option<nat>, ghost applied: bool)
      modifies this`notes, this`calls
      ensures notes == if applied then old(notes) + [u] else old(notes)
      ensures note.Some? ==> applied && note.value == |old(notes)|
      ensures (note.Some? <==> Clean(outcomes, old(calls), calls)) && old(calls) <= calls
    {
      var outcome := outcomes(calls);
      calls := calls + 1;
      applied := outcome != NotApplied;
      note := if outcome == Applied then Some(|notes|) else None;
      if outcome != NotApplied {
        notes := notes + [u];
      }
    }

    method FindNotes(u: string) returns (ids: Option<seq<nat>>)
      modifies this`calls
      ensures ids.Some? ==> ids.value == NotesOf(notes, u)
      ensures (ids.Some? <==> Clean(outcomes, old(calls), calls)) && old(calls) <= calls
    {
      ids := if outcomes(calls) == Applied then Some(NotesOf(notes, u)) else None;
      calls := calls + 1;
    }

    method ReadEvents() returns (read: Option<seq<Event>>)
      modifies this`calls
      ensures read.Some? ==> read.value == events
      ensures (read.Some? <==> Clean(outcomes, old(calls), calls)) && old(calls) <= calls
    {
      read := if outcomes(calls) == Applied then Some(events) else None;
      calls := calls + 1;
    }

    /** A fresh attempt id: well-formed and nowhere in the log. */
    method AllocateAttempt(candidate: string) returns (a: Option<string>)
      modifies this`calls
      ensures a.Some? ==> a.value == candidate
      ensures a.Some? <==> ValidAttempt(candidate) && !Used(events, candidate) && Clean(outcomes, old(calls), calls)
      ensures old(calls) <= calls
    {
      var read := ReadEvents();
      if read.None? || !ValidAttempt(candidate) || candidate in AttemptsIn(read.value) {
        return None;
      }
      a := Some(candidate);
    }

    method EmitRejection(u: string, candidate: string, outcome: string)
      returns (r: ForgeResult, ghost done: seq<Action>)
      modifies this`events, this`calls
      ensures Performs(old(State()), done, State())
      ensures done == [] || done == [Remark(Event(u, candidate, Rejected(outcome)))]
      ensures r.RejectedResult? || r.Aborted?
      ensures r.RejectedResult? <==> Fresh(old(events), candidate) && Clean(outcomes, old(calls), calls)
      ensures old(calls) <= calls
      ensures r.RejectedResult? ==> r.outcome == outcome && done == [Remark(Event(u, candidate, Rejected(outcome)))]
    {
      done := [];
      var a := AllocateAttempt(candidate);
      if a.None? {
        return Aborted("ATTEMPT_ID_INVALID"), [];
      }
      var e := Event(u, a.value, Rejected(outcome));
      ghost var before := State();
      var ok;
      ghost var applied;
      ok, applied := LogEvent(e);
      if applied {
        done := [Remark(e)];
        PerformsMore(before, [], before, Remark(e));
        assert [] + [Remark(e)] == [Remark(e)];
      }
      r := if ok then RejectedResult(outcome) else Aborted("EVENTLOG_UNAVAILABLE");
    }

    /**
     * Commits one unit. The note is added only while its own intent is the one
     * pending for the unit, and reported as created only with its acceptance. A
     * rejection is reported exactly when it was called for and logged.
     */
    method ForgeUnit(u: string, judgment: Judgment, candidate: string) returns (r: ForgeResult, ghost done: seq<Action>)
      requires Inv(State())
      modifies this`events, this`notes, this`calls
      ensures Inv(State()) && Performs(old(State()), done, State())
      ensures r != PendingAmbiguous
      ensures r.Created? <==>
                && judgment.Confirmed? && u !in old(notes) && Fresh(old(events), candidate)
                && NonePending(old(events), u) && Clean(outcomes, old(calls), calls)
      ensures r.Created? ==>
                && r.note < |notes| && notes[r.note] == u
                && done == [Intend(candidate, u), AddNote(u), Accept(candidate, u, r.note)]
      ensures r.RejectedResult? <==>
                && Rejectable(old(State()), u, judgment) && Fresh(old(events), candidate)
                && Clean(outcomes, old(calls), calls)
      ensures r.RejectedResult? ==>
                && r.outcome == Grounds(old(State()), u, judgment)
                && done == [Remark(Event(u, candidate, Rejected(r.outcome)))]
      ensures !judgment.Invalid? ==>
                forall a :: PendingFor(old(events), a, u) ==>
                              done == [] && SaysPending(r, notes, u, a, Clean(outcomes, old(calls), calls))
      ensures judgment.Invalid? || NonePending(old(events), u) ==>
                SaysUncertain(r, State(), u, candidate, done, judgment, Clean(outcomes, old(calls), calls))
      ensures r.Aborted? ==>
                && notes == old(notes)
                && (!Clean(outcomes, old(calls), calls) || !Fresh(old(events), candidate))
    {
      done := [];
      ghost var start := State();
      if judgment.Invalid? {
        r, done := EmitRejection(u, candidate, judgment.outcome);
        RunKeepsInv(start, done, State());
        return;
      }
      var read := ReadEvents();
      if read.None? {
        return Aborted("EVENTLOG_UNAVAILABLE"), [];
      }
      NeverAmbiguous(start, u);
      var pending := InspectPendingIntent(read.value, u);
      if pending.OneIntent? {
        r := ReportPending(u, pending.attempt);
        return;
      }
      var ids := FindNotes(u);
      if ids.None? {
        return Aborted("ANKI_READ_FAILED"), [];
      }
      NoNoteListed(notes, u);
      r, done := RejectOrCommit(u, judgment.Declined?, candidate, ids.value != []);
    }

    /** What is known of a pending attempt, from the notes there are. */
    method ReportPending(u: string, a: string) returns (r: ForgeResult)
      requires Inv(State())
      modifies this`calls
      ensures SaysPending(r, notes, u, a, Clean(outcomes, old(calls), calls)) && old(calls) <= calls
    {
      AtMostOneNote(notes, u);
      NoNoteListed(notes, u);
      var ids := FindNotes(u);
      if ids.None? {
        return Aborted("ANKI_READ_FAILED");
      }
      if ids.value != [] { assert ids.value[0] in NotesOf(notes, u); }
      r := if ids.value == [] then CommitUncertain(a)
           else if |ids.value| == 1 then EvidenceGap(a, ids.value[0])
           else PendingAmbiguous;
    }

    /** With nothing pending: a duplicate or a declined unit is rejected, any other committed. */
    method RejectOrCommit(u: string, declined: bool, candidate: string, duplicate: bool)
      returns (r: ForgeResult, ghost done: seq<Action>)
      requires Inv(State()) && NonePending(events, u) && (duplicate <==> u in notes)
      modifies this`events, this`notes, this`calls
      ensures Inv(State()) && Performs(old(State()), done, State()) && old(calls) <= calls
      ensures r.Created? <==>
                !duplicate && !declined && Fresh(old(events), candidate) && Clean(outcomes, old(calls), calls)
      ensures r.Created? ==>
                && r.note < |notes| && notes[r.note] == u
                && done == [Intend(candidate, u), AddNote(u), Accept(candidate, u, r.note)]
      ensures r.RejectedResult? <==>
                (duplicate || declined) && Fresh(old(events), candidate) && Clean(outcomes, old(calls), calls)
      ensures r.RejectedResult? ==>
                && r.outcome == (if duplicate then "DUPLICATE" else "HUMAN_DECLINED")
                && done == [Remark(Event(u, candidate, Rejected(r.outcome)))]
      ensures SaysUncertain(r, State(), u, candidate, done, if declined then Declined else Confirmed,
                            Clean(outcomes, old(calls), calls))
      ensures r.Aborted? ==>
                && notes == old(notes)
                && (!Clean(outcomes, old(calls), calls) || !Fresh(old(events), candidate))
      ensures r != PendingAmbiguous
    {
      done := [];
      ghost var start := State();
      if duplicate || declined {
        r, done := EmitRejection(u, candidate, if duplicate then "DUPLICATE" else "HUMAN_DECLINED");
        RunKeepsInv(start, done, State());
        return;
      }
      var a := AllocateAttempt(candidate);
      if a.None? {
        return Aborted("ATTEMPT_ID_INVALID"), [];
      }
      r, done := CommitUnit(u, candidate);
    }

    /** Intent, note, acceptance; whatever is lost on the way stays for recovery. */
    method CommitUnit(u: string, a: string) returns (r: ForgeResult, ghost done: seq<Action>)
      requires Inv(State()) && May(State(), Intend(a, u))
      modifies this`events, this`notes, this`calls
      ensures (r.Created? <==> Clean(outcomes, old(calls), calls)) && old(calls) <= calls
      ensures Inv(State()) && Performs(old(State()), done, State())
      ensures r != PendingAmbiguous
      ensures r.Created? ==>
                && r.note < |notes| && notes[r.note] == u
                && done == [Intend(a, u), AddNote(u), Accept(a, u, r.note)]
      ensures r.EvidenceGap? ==>
                r.attempt == a && IntendedFor(events, a, u) && r.note < |notes| && notes[r.note] == u
      ensures r.CommitUncertain? ==> r.attempt == a && PendingFor(events, a, u)
      ensures r.EvidenceGap? || r.CommitUncertain? ==> done != [] && done[0] == Intend(a, u)
      ensures r.Aborted? ==> notes == old(notes) && done <= [Intend(a, u)]
      ensures !r.RejectedResult?
    {
      done := [];
      ghost var start := State();
      IntentIsPending(start, a, u);
      var ok;
      ok, done := LogAction(Event(u, a, Intent), Intend(a, u), start, []);
      if !ok {
        return Aborted("EVENTLOG_UNAVAILABLE"), done;
      }
      r, done := AddAndSettle(u, a, start, done);
    }

    method AddAndSettle(u: string, a: string, ghost start: Store, ghost before: seq<Action>)
      returns (r: ForgeResult, ghost done: seq<Action>)
      requires Inv(State()) && Performs(start, before, State()) && PendingFor(events, a, u) && u !in notes
      modifies this`events, this`notes, this`calls
      ensures Inv(State()) && Performs(start, done, State())
      ensures (r.Created? <==> Clean(outcomes, old(calls), calls)) && old(calls) <= calls
      ensures r.Created? ==> done == before + [AddNote(u), Accept(a, u, r.note)]
      ensures before <= done
      ensures r == CommitUncertain(a) || r.Created? || (r.EvidenceGap? && r.attempt == a)
      ensures !r.CommitUncertain? ==> r.note < |notes| && notes[r.note] == u
      ensures r.CommitUncertain? ==> PendingFor(events, a, u)
      ensures IntendedFor(events, a, u)
    {
      var note;
      note, done := AddAction(u, start, before);
      r, done := SettleUnit(u, a, note, start, done);
    }

    /** What is logged once the note was asked for: its acceptance, or that its fate is not known. */
    method SettleUnit(u: string, a: string, note: Option<nat>, ghost start: Store, ghost before: seq<Action>)
      returns (r: ForgeResult, ghost done: seq<Action>)
      requires Inv(State()) && Performs(start, before, State()) && PendingFor(events, a, u)
      requires note.Some? ==> note.value < |notes| && notes[note.value] == u
      modifies this`events, this`calls
      ensures (r.Created? <==> note.Some? && Clean(outcomes, old(calls), calls)) && old(calls) <= calls
      ensures Inv(State()) && Performs(start, done, State())
      ensures if note.None? then r == CommitUncertain(a)
              else r == Created(note.value) || r == EvidenceGap(a, note.value)
      ensures r.Created? ==> done == before + [Accept(a, u, note.value)]
      ensures before <= done
      ensures r.CommitUncertain? ==> PendingFor(events, a, u)
      ensures IntendedFor(events, a, u)
    {
      done := before;
      var ok;
      if note.None? {
        RemarkKeepsPending(events, Event(u, a, Uncertain), u);
        ok, done := LogAction(Event(u, a, Uncertain), Remark(Event(u, a, Uncertain)), start, before);
        return CommitUncertain(a), done;
      }
      ok, done := LogAction(Event(u, a, Accepted(note.value)), Accept(a, u, note.value), start, before);
      r := if ok then Created(note.value) else EvidenceGap(a, note.value);
    }

    /** Adds the note behind what was done since `start`, if the gateway takes it. */
    method AddAction(u: string, ghost start: Store, ghost before: seq<Action>)
      returns (note: Option<nat>, ghost done: seq<Action>)
      requires Inv(State()) && Performs(start, before, State()) && May(State(), AddNote(u))
      modifies this`notes, this`calls
      ensures (note.Some? <==> Clean(outcomes, old(calls), calls)) && old(calls) <= calls
      ensures Inv(State()) && Performs(start, done, State())
      ensures before <= done
      ensures note.Some? ==> done == before + [AddNote(u)] && note.value < |notes| && notes[note.value] == u
    {
      ghost var here := State();
      ghost var applied;
      note, applied := AddOneNote(u);
      done := before;
      if applied {
        PerformsMore(start, before, here, AddNote(u));
        ActionKeepsInv(here, AddNote(u));
        done := before + [AddNote(u)];
      }
    }

    /** Logs one action behind those done since `start`, if the log takes it. */
    method LogAction(e: Event, ghost x: Action, ghost start: Store, ghost before: seq<Action>)
      returns (ok: bool, ghost done: seq<Action>)
      requires Inv(State()) && Performs(start, before, State()) && May(State(), x) && !x.AddNote? && EventOf(x) == e
      modifies this`events, this`calls
      ensures (ok <==> Clean(outcomes, old(calls), calls)) && old(calls) <= calls
      ensures Inv(State()) && Performs(start, done, State())
      ensures (done == before && events == old(events)) || (done == before + [x] && events == old(events) + [e])
      ensures ok ==> done == before + [x] && events == old(events) + [e]
    {
      ghost var here := State();
      ghost var applied;
      ok, applied := LogEvent(e);
      done := before;
      if applied {
        PerformsMore(start, before, here, x);
        ActionKeepsInv(here, x);
        done := before + [x];
      }
    }

    // -----------------------------------------------------------------------
    // Recovery
    // -----------------------------------------------------------------------

    /** The unit an attempt was meant for, if it was meant at all, and how it ended. */
    method HistoryForAttempt(read: seq<Event>, a: string) returns (h: AttemptHistory)
      ensures Tells(read, a, h)
    {
      var t := TallyOf(read, a);
      if t.intents > 1 || t.acceptances > 1 || t.abandonments > 1 || (t.acceptances > 0 && t.abandonments > 0) {
        return Confusing;
      }
      var meant: Option<string> := None;
      for i := 0 to |read|
        invariant meant.Some? ==> IntendedFor(read, a, meant.value)
        invariant meant.None? ==> forall k :: 0 <= k < i ==> !(read[k].attempt == a && read[k].mark == Intent)
      {
        if read[i].attempt == a && read[i].mark == Intent {
          assert read[i] == Event(read[i].unitKey, a, Intent);
          meant := Some(read[i].unitKey);
        }
      }
      if t.intents != 1 || meant.None? {
        return Unmeant;
      }
      h := if t.acceptances > 0 || t.abandonments > 0 then Ended(t.acceptances > 0) else Waiting(meant.value);
    }

    /** Writes the one acceptance that is missing, from the durable intent and the one note there is. */
    method RepairEvidence(a: string) returns (r: RepairResult, ghost done: seq<Action>)
      requires Inv(State())
      modifies this`events, this`calls
      ensures Inv(State()) && Performs(old(State()), done, State())
      ensures r != HistoryAmbiguous && r != NotesAmbiguous
      ensures r.Repaired? <==> Waits(old(State()), a, true) && Clean(outcomes, old(calls), calls)
      ensures r.NoNote? <==> Waits(old(State()), a, false) && Clean(outcomes, old(calls), calls)
      ensures r.AlreadyResolved? <==> HasEnded(old(events), a) && Clean(outcomes, old(calls), calls)
      ensures r.IntentMissing? <==>
                ValidAttempt(a) && NeverMeant(old(events), a) && Clean(outcomes, old(calls), calls)
      ensures r.AlreadyResolved? ==>
                if r.accepted then TallyOf(events, a).acceptances == 1 else TallyOf(events, a).abandonments == 1
      ensures !r.Repaired? && Clean(outcomes, old(calls), calls) ==> done == []
      ensures r.Repaired? ==> |done| == 1
      ensures done != [] ==>
                && |done| == 1 && done[0].Accept? && PendingFor(old(events), a, done[0].unitKey)
                && done[0].attempt == a && done[0].note < |notes| && notes[done[0].note] == done[0].unitKey
                && (r.Repaired? ==> r.note == done[0].note)
    {
      done := [];
      if !ValidAttempt(a) {
        InvalidIsUnmeant(State(), a);
        return Unavailable("ATTEMPT_ID_INVALID"), [];
      }
      var read := ReadEvents();
      if read.None? {
        return Unavailable("EVENTLOG_UNAVAILABLE"), [];
      }
      var history := HistoryForAttempt(read.value, a);
      SoundHistory(State(), a, history);
      match history {
        case Confusing => r := HistoryAmbiguous;
        case Unmeant => r := IntentMissing;
        case Ended(accepted) => r := AlreadyResolved(accepted);
        case Waiting(u) => r, done := AcceptFound(u, a);
      }
    }

    /** Looks for the pending unit's note and logs its acceptance. */
    method AcceptFound(u: string, a: string) returns (r: RepairResult, ghost done: seq<Action>)
      requires Inv(State()) && PendingFor(events, a, u)
      modifies this`events, this`calls
      ensures Inv(State()) && Performs(old(State()), done, State())
      ensures r.Repaired? <==> u in notes && Clean(outcomes, old(calls), calls)
      ensures r.NoNote? <==> u !in notes && Clean(outcomes, old(calls), calls)
      ensures r.Repaired? || r.NoNote? || r.Unavailable?
      ensures old(calls) <= calls
      ensures done == [] || exists n: nat :: n < |notes| && notes[n] == u && done == [Accept(a, u, n)]
      ensures r.NoNote? ==> done == []
      ensures r.Repaired? ==> done == [Accept(a, u, r.note)]
    {
      done := [];
      var ids := FindNotes(u);
      if ids.None? {
        return Unavailable("ANKI_READ_FAILED"), [];
      }
      AtMostOneNote(notes, u);
      NoNoteListed(notes, u);
      if ids.value == [] {
        return NoNote, [];
      }
      if |ids.value| > 1 {
        return NotesAmbiguous, [];
      }
      var note := ids.value[0];
      assert note in NotesOf(notes, u);
      var ok;
      ok, done := LogAction(Event(u, a, Accepted(note)), Accept(a, u, note), State(), []);
      r := if ok then Repaired(note) else Unavailable("ACCEPTANCE_UNWRITABLE");
    }

    /** Gives a pending intent up, but only once no note of its unit exists. */
    method AbandonIntent(a: string, reason: string) returns (r: RepairResult, ghost done: seq<Action>)
      requires Inv(State())
      modifies this`events, this`calls
      ensures Inv(State()) && Performs(old(State()), done, State())
      ensures r != HistoryAmbiguous && r != NotesAmbiguous
      ensures r == AbandonedNow <==>
                reason != "" && Waits(old(State()), a, false) && Clean(outcomes, old(calls), calls)
      ensures r.RepairRequired? <==>
                reason != "" && Waits(old(State()), a, true) && Clean(outcomes, old(calls), calls)
      ensures r.AlreadyResolved? <==>
                reason != "" && HasEnded(old(events), a) && Clean(outcomes, old(calls), calls)
      ensures r.IntentMissing? <==>
                && reason != "" && ValidAttempt(a) && NeverMeant(old(events), a)
                && Clean(outcomes, old(calls), calls)
      ensures r.AlreadyResolved? ==>
                if r.accepted then TallyOf(events, a).acceptances == 1 else TallyOf(events, a).abandonments == 1
      ensures r.RepairRequired? ==> r.note < |notes| && PendingFor(events, a, notes[r.note])
      ensures r == AbandonedNow ==> |done| == 1
      ensures r != AbandonedNow && Clean(outcomes, old(calls), calls) ==> done == []
      ensures done != [] ==>
                && |done| == 1 && done[0].Abandon? && done[0].attempt == a && done[0].unitKey !in notes
                && PendingFor(old(events), a, done[0].unitKey)
    {
      done := [];
      if !ValidAttempt(a) || reason == "" {
        if !ValidAttempt(a) { InvalidIsUnmeant(State(), a); }
        return Unavailable("REQUEST_INVALID"), [];
      }
      var read := ReadEvents();
      if read.None? {
        return Unavailable("EVENTLOG_UNAVAILABLE"), [];
      }
      var history := HistoryForAttempt(read.value, a);
      SoundHistory(State(), a, history);
      match history {
        case Confusing => r := HistoryAmbiguous;
        case Unmeant => r := IntentMissing;
        case Ended(accepted) => r := AlreadyResolved(accepted);
        case Waiting(u) => r, done := AbandonUnlessFound(u, a);
      }
    }

    /** Looks for the pending unit's note and gives the intent up when there is none. */
    method AbandonUnlessFound(u: string, a: string) returns (r: RepairResult, ghost done: seq<Action>)
      requires Inv(State()) && PendingFor(events, a, u)
      modifies this`events, this`calls
      ensures Inv(State()) && Performs(old(State()), done, State())
      ensures r == AbandonedNow <==> u !in notes && Clean(outcomes, old(calls), calls)
      ensures r.RepairRequired? <==> u in notes && Clean(outcomes, old(calls), calls)
      ensures r.RepairRequired? ==> r.note < |notes| && notes[r.note] == u && done == [] && events == old(events)
      ensures r == AbandonedNow || r.RepairRequired? || r.Unavailable?
      ensures old(calls) <= calls
      ensures done == [] || (u !in notes && done == [Abandon(a, u)])
      ensures r == AbandonedNow ==> done == [Abandon(a, u)]
    {
      done := [];
      var ids := FindNotes(u);
      if ids.None? {
        return Unavailable("ANKI_READ_FAILED"), [];
      }
      AtMostOneNote(notes, u);
      NoNoteListed(notes, u);
      if ids.value != [] {
        assert ids.value[0] in NotesOf(notes, u);
        return if |ids.value| == 1 then RepairRequired(ids.value[0]) else NotesAmbiguous, [];
      }
      var ok;
      ok, done := LogAction(Event(u, a, Abandoned), Abandon(a, u), State(), []);
      r := if ok then AbandonedNow else Unavailable("EVENTLOG_UNAVAILABLE");
    }
  }

  lemma NoNoteListed(notes: seq<string>, u: string)
    ensures NotesOf(notes, u) == [] <==> u !in notes
  {
    if u !in notes {
      NoNotesOf(notes, u);
    } else {
      var n :| 0 <= n < |notes| && notes[n] == u;
      assert n in NotesOf(notes, u);
    }
  }

  lemma RemarkKeepsPending(events: seq<Event>, e: Event, u: string)
    requires PendingFor(events, e.attempt, u) && e.mark.Uncertain?
    ensures PendingFor(events + [e], e.attempt, u)
  {
    TallyAppends(events, e, e.attempt);
  }

  lemma IntentIsPending(s: Store, a: string, u: string)
    requires May(s, Intend(a, u))
    ensures PendingFor(Act(s, Intend(a, u)).events, a, u)
  {
    UnusedTally(s.events, a);
    TallyAppends(s.events, Event(u, a, Intent), a);
  }

  // -------------------------------------------------------------------------
  // Whole lifetimes
  // -------------------------------------------------------------------------

  lemma NothingYet()
    ensures Inv(Store([], []))
  {
    forall a ensures TallyOf([], a) == UNUSED {
    }
  }

  /**
   * Whatever is done in whatever order from an empty start: at most one note per
   * unit, every note with a live intent of its own, at most one pending intent
   * per unit, at most one acceptance or abandonment per intent, no ambiguity.
   */
  lemma EveryLifetime(xs: seq<Action>, s: Store, u: string, a: string)
    requires Performs(Store([], []), xs, s)
    ensures |NotesOf(s.notes, u)| <= 1
    ensures u in s.notes ==> exists b :: IntendedFor(s.events, b, u) && TallyOf(s.events, b).abandonments == 0
    ensures forall b, c :: PendingFor(s.events, b, u) && PendingFor(s.events, c, u) ==> b == c
    ensures TallyOf(s.events, a).acceptances + TallyOf(s.events, a).abandonments <= TallyOf(s.events, a).intents <= 1
    ensures !AmbiguousFor(s.events, u)
  {
    NothingYet();
    RunKeepsInv(Store([], []), xs, s);
    AtMostOneNote(s.notes, u);
    NeverAmbiguous(s, u);
    assert Sound(s.events, a);
    if u in s.notes {
      var b :| Live(s.events, b, u);
    }
  }

  /** A note is only ever added while an intent for its unit is pending, and none is added twice. */
  lemma {:induction false} NotesFollowIntents(s: Store, xs: seq<Action>, s': Store, k: nat) returns (before: Store)
    requires Performs(s, xs, s') && k < |xs| && xs[k].AddNote?
    ensures Performs(s, xs[..k], before) && xs[k].unitKey !in before.notes
    ensures exists a :: PendingFor(before.events, a, xs[k].unitKey)
    decreases k
  {
    if k == 0 {
      before := s;
      assert xs[..0] == [];
    } else {
      before := NotesFollowIntents(Act(s, xs[0]), xs[1..], s', k - 1);
      assert xs[..k][1..] == xs[1..][..k - 1];
    }
  }

  /** Repair and abandonment between them can always resolve a pending intent. */
  lemma PendingIsResolvable(s: Store, a: string, u: string)
    requires Inv(s) && PendingFor(s.events, a, u)
    ensures u in s.notes ==> exists n :: May(s, Accept(a, u, n)) && !PendingFor(Act(s, Accept(a, u, n)).events, a, u)
    ensures u !in s.notes ==> May(s, Abandon(a, u)) && !PendingFor(Act(s, Abandon(a, u)).events, a, u)
  {
    if u in s.notes {
      var n :| 0 <= n < |s.notes| && s.notes[n] == u;
      TallyAppends(s.events, Event(u, a, Accepted(n)), a);
      assert May(s, Accept(a, u, n));
    } else {
      TallyAppends(s.events, Event(u, a, Abandoned), a);
    }
  }
}
