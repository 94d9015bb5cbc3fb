/**
 * Dormancy groups, effect by effect: preparing the members, moving the whole
 * note and suspending the cards, committing or aborting the members.
 */
module GroupRuns {
  import opened Wrappers
  import opened Lifecycle
  import opened Journal
  import opened Observation
  import opened Decision
  import opened DecisionFacts
  import opened Protocol
  import opened Safety
  import opened Runs

  // -------------------------------------------------------------------------
  // Member lists
  // -------------------------------------------------------------------------

  lemma {:induction false} TerminalsInOrder(plans: seq<Plan>, txs: Transactions, terminal: Option<Phase>)
    requires InChannelOrder(plans)
    ensures InChannelOrder(WithTerminal(plans, txs, terminal))
  {
    if plans != [] {
      var rest := WithTerminal(plans[1..], txs, terminal);
      TerminalsInOrder(plans[1..], txs, terminal);
      LaterThanFirst(plans, rest);
    }
  }

  lemma {:induction false} UnpreparedInOrder(plans: seq<Plan>, txs: Transactions)
    requires InChannelOrder(plans)
    ensures InChannelOrder(WithoutTransaction(plans, txs))
  {
    if plans != [] {
      var rest := WithoutTransaction(plans[1..], txs);
      UnpreparedInOrder(plans[1..], txs);
      LaterThanFirst(plans, rest);
    }
  }

  lemma LaterThanFirst(plans: seq<Plan>, rest: seq<Plan>)
    requires plans != [] && InChannelOrder(plans) && forall p :: p in rest ==> p in plans[1..]
    ensures forall i :: 0 <= i < |rest| ==> Rank(plans[0].id.channel) < Rank(rest[i].id.channel)
  {
    forall i | 0 <= i < |rest| ensures Rank(plans[0].id.channel) < Rank(rest[i].id.channel) {
      assert rest[i] in plans[1..];
      var k :| 0 <= k < |plans[1..]| && plans[1..][k] == rest[i];
      assert plans[k + 1] == rest[i];
    }
  }

  lemma MembersOf(ev: Evidence, channels: set<Channel>)
    requires ev.DormancyAgreed? && ev.entries.Keys == channels && channels != {}
    ensures InChannelOrder(MemberPlans(ev)) && MemberPlans(ev) != []
    ensures forall p :: p in MemberPlans(ev) <==> p.id.channel in channels && p == MemberPlan(ev, p.id.channel)
    ensures forall c :: c in ChannelsOf(MemberPlans(ev)) <==> c in channels
  {
    MemberPlansAreValid(ev);
    var cs, plans := InOrder(channels), MemberPlans(ev);
    forall p ensures p in plans <==> p.id.channel in channels && p == MemberPlan(ev, p.id.channel) {
      if p in plans {
        var i :| 0 <= i < |plans| && plans[i] == p;
        assert cs[i] in cs;
      }
      if p.id.channel in channels && p == MemberPlan(ev, p.id.channel) {
        assert p.id.channel in cs;
        var i :| 0 <= i < |cs| && cs[i] == p.id.channel;
        assert plans[i] == p;
      }
    }
  }

  // -------------------------------------------------------------------------
  // Preparing the members
  // -------------------------------------------------------------------------

  predicate MemberOf(ev: Evidence, channels: set<Channel>, p: Plan) {
    ev.DormancyAgreed? && ev.entries.Keys == channels && p.id.channel in channels && p == MemberPlan(ev, p.id.channel)
  }

  predicate Listed(v: View, ev: Evidence, todo: seq<Plan>, c: Channel)
    requires ev.DormancyAgreed? && c in ev.entries
  {
    Open(v.txs, MemberPlan(ev, c)) || MemberPlan(ev, c) in todo
  }

  /** The members still to be prepared; all others are prepared and pending. */
  predicate Joining(v: View, stage: Stage, ev: Evidence, todo: seq<Plan>) {
    && MayJoin(v, stage, ev)
    && InChannelOrder(todo)
    && (forall p :: p in todo ==> MemberOf(ev, v.note.Keys, p) && p.id !in v.txs)
    && forall c :: c in ev.entries ==> Listed(v, ev, todo, c)
  }

  lemma MayPrepareNext(v: View, stage: Stage, ev: Evidence, todo: seq<Plan>)
    requires Joining(v, stage, ev, todo) && todo != []
    ensures MayPrepare(v, stage, todo[0]) && !Irrevocable(todo[0]) && todo[0].group.Some?
    ensures todo[0].id.evidence == ev
  {
    assert MemberOf(ev, v.note.Keys, todo[0]);
  }

  lemma JoinedAtSource(v: View, stage: Stage, ev: Evidence)
    requires ViewHolds(v, stage) && MayJoin(v, stage, ev)
    ensures AllIn(v, Mastered)
    ensures forall c :: c in v.note && MemberId(ev, c) in v.txs ==> v.txs[MemberId(ev, c)].terminal.None?
  {
    if stage.Idle? {
      forall c | c in v.note ensures v.note[c] == Mastered {
        assert Agrees(v, c) && BeforeGroup(v, ev, c);
      }
    }
  }

  lemma JoinsOn(v: View, ev: Evidence, p: Plan, t: int)
    requires ev.DormancyAgreed? && ev.entries.Keys == v.note.Keys && AllIn(v, Mastered)
    requires forall c :: c in v.note && MemberId(ev, c) in v.txs ==> v.txs[MemberId(ev, c)].terminal.None?
    ensures MayJoin(ViewAfter(v, Append(p, Prepare), t), Group(ev), ev)
  {
  }

  lemma ListedOn(v: View, ev: Evidence, todo: seq<Plan>, t: int, c: Channel)
    requires ev.DormancyAgreed? && c in ev.entries && todo != [] && Listed(v, ev, todo, c)
    requires todo[0].id !in v.txs
    ensures Listed(ViewAfter(v, Append(todo[0], Prepare), t), ev, todo[1..], c)
  {
    if MemberPlan(ev, c) in todo && MemberPlan(ev, c) != todo[0] {
      assert MemberPlan(ev, c) in todo[1..];
    }
  }

  lemma NotYetPrepared(v: View, todo: seq<Plan>, t: int, p: Plan)
    requires InChannelOrder(todo) && todo != [] && p in todo[1..] && p.id !in v.txs
    ensures p.id !in ViewAfter(v, Append(todo[0], Prepare), t).txs
  {
    LaterThanFirst(todo, todo[1..]);
  }

  lemma JoiningOn(v: View, stage: Stage, ev: Evidence, todo: seq<Plan>, t: int)
    requires ViewHolds(v, stage) && Joining(v, stage, ev, todo) && todo != []
    ensures Joining(ViewAfter(v, Append(todo[0], Prepare), t), Group(ev), ev, todo[1..])
  {
    var v' := ViewAfter(v, Append(todo[0], Prepare), t);
    JoinedAtSource(v, stage, ev);
    JoinsOn(v, ev, todo[0], t);
    TodoOn(v, ev, todo, t);
    forall c | c in ev.entries ensures Listed(v', ev, todo[1..], c) {
      ListedOn(v, ev, todo, t, c);
    }
  }

  lemma TodoOn(v: View, ev: Evidence, todo: seq<Plan>, t: int)
    requires InChannelOrder(todo) && todo != []
    requires forall p :: p in todo ==> MemberOf(ev, v.note.Keys, p) && p.id !in v.txs
    ensures InChannelOrder(todo[1..])
    ensures var v' := ViewAfter(v, Append(todo[0], Prepare), t);
            forall p :: p in todo[1..] ==> MemberOf(ev, v'.note.Keys, p) && p.id !in v'.txs
  {
    forall p | p in todo[1..] ensures p.id !in ViewAfter(v, Append(todo[0], Prepare), t).txs {
      NotYetPrepared(v, todo, t, p);
    }
  }

  lemma JoinNext(w: World, stage: Stage, ev: Evidence, todo: seq<Plan>, t: int)
    requires Readable(w) && ViewHolds(ViewOf(w), stage) && Joining(ViewOf(w), stage, ev, todo) && todo != []
    requires w.clock <= t
    ensures Allowed(w, stage, Append(todo[0], Prepare))
    ensures StageAfter(ViewOf(w), stage, Append(todo[0], Prepare)) == Group(ev)
    ensures Readable(Apply(w, Append(todo[0], Prepare), t))
    ensures Joining(ViewOf(Apply(w, Append(todo[0], Prepare), t)), Group(ev), ev, todo[1..])
  {
    MayPrepareNext(ViewOf(w), stage, ev, todo);
    EffectReads(w, stage, Append(todo[0], Prepare), t);
    JoiningOn(ViewOf(w), stage, ev, todo, t);
  }

  lemma {:induction false} PreparesWalk(w: World, stage: Stage, ev: Evidence, todo: seq<Plan>, ts: seq<int>)
    requires InvAt(w, stage) && Joining(ViewOf(w), stage, ev, todo) && (todo == [] ==> stage == Group(ev))
    requires |ts| <= |todo| && Ticking(w.clock, ts)
    ensures Walks(w, stage, Appends(todo, Prepare), ts, Group(ev))
    ensures ts != [] ==> Walk(w, stage, Appends(todo, Prepare), ts) == Some(Group(ev))
    ensures |ts| == |todo| ==>
              var w' := Exec(w, Appends(todo, Prepare), ts);
              Readable(w') && Joining(ViewOf(w'), Group(ev), ev, [])
    decreases |todo|
  {
    if ts != [] {
      var next := JoinStep(w, stage, ev, todo, ts);
      PreparesWalk(next, Group(ev), ev, todo[1..], ts[1..]);
    }
  }

  lemma JoinStep(w: World, stage: Stage, ev: Evidence, todo: seq<Plan>, ts: seq<int>) returns (next: World)
    requires InvAt(w, stage) && Joining(ViewOf(w), stage, ev, todo)
    requires 0 < |ts| <= |todo| && Ticking(w.clock, ts)
    ensures InvAt(next, Group(ev)) && Joining(ViewOf(next), Group(ev), ev, todo[1..]) && Ticking(next.clock, ts[1..])
    ensures Walk(w, stage, Appends(todo, Prepare), ts) == Walk(next, Group(ev), Appends(todo[1..], Prepare), ts[1..])
    ensures Exec(w, Appends(todo, Prepare), ts) == Exec(next, Appends(todo[1..], Prepare), ts[1..])
  {
    JoinNext(w, stage, ev, todo, ts[0]);
    AllowedKeepsInvariant(w, stage, Append(todo[0], Prepare), ts[0]);
    FirstPrepare(w, stage, todo, ts);
    next := Apply(w, Append(todo[0], Prepare), ts[0]);
  }

  lemma FirstPrepare(w: World, stage: Stage, todo: seq<Plan>, ts: seq<int>)
    requires 0 < |ts| <= |todo| && w.clock <= ts[0] && Allowed(w, stage, Append(todo[0], Prepare))
    ensures var next := Apply(w, Append(todo[0], Prepare), ts[0]);
            && Walk(w, stage, Appends(todo, Prepare), ts)
            == Walk(next, StageAfter(ViewOf(w), stage, Append(todo[0], Prepare)), Appends(todo[1..], Prepare), ts[1..])
            && Exec(w, Appends(todo, Prepare), ts) == Exec(next, Appends(todo[1..], Prepare), ts[1..])
  {
    assert Appends(todo, Prepare)[1..] == Appends(todo[1..], Prepare);
  }

  // -------------------------------------------------------------------------
  // Moving the note and suspending the cards
  // -------------------------------------------------------------------------

  function MoveAll(plans: seq<Plan>): seq<Effect> {
    [SetStates(AllTo(plans, Dormant)), SuspendCards(set c | c in ChannelsOf(plans))]
  }

  predicate EveryMemberOpen(v: View, ev: Evidence) {
    && ev.DormancyAgreed? && ev.entries.Keys == v.note.Keys
    && forall c :: c in ev.entries ==> Open(v.txs, MemberPlan(ev, c))
  }

  lemma AllPrepared(v: View, ev: Evidence)
    requires Joining(v, Group(ev), ev, [])
    ensures AllIn(v, Mastered) && EveryMemberOpen(v, ev)
  {
    forall c | c in ev.entries ensures Open(v.txs, MemberPlan(ev, c)) {
      assert Listed(v, ev, [], c);
    }
  }

  lemma MayMoveAll(v: View, ev: Evidence, plans: seq<Plan>)
    requires AllIn(v, Mastered) && EveryMemberOpen(v, ev)
    requires forall c :: c in ChannelsOf(plans) <==> c in v.note
    ensures MaySetStates(v, Group(ev), AllTo(plans, Dormant))
    ensures AllIn(v.(note := v.note + AllTo(plans, Dormant)), Dormant)
  {
    assert AllTo(plans, Dormant).Keys == v.note.Keys;
  }

  lemma Moved(w: World, ev: Evidence, plans: seq<Plan>, t: int)
    requires Readable(w) && ViewHolds(ViewOf(w), Group(ev)) && w.clock <= t
    requires AllIn(ViewOf(w), Mastered) && EveryMemberOpen(ViewOf(w), ev)
    requires forall c :: c in ChannelsOf(plans) <==> c in w.note
    ensures Allowed(w, Group(ev), SetStates(AllTo(plans, Dormant)))
    ensures var w' := Apply(w, SetStates(AllTo(plans, Dormant)), t);
            && Readable(w') && ViewOf(w') == ViewOf(w).(note := w.note + AllTo(plans, Dormant))
            && AllIn(ViewOf(w'), Dormant)
            && w'.cards == w.cards && w'.note.Keys == w.note.Keys
  {
    MayMoveAll(ViewOf(w), ev, plans);
    EffectReads(w, Group(ev), SetStates(AllTo(plans, Dormant)), t);
  }

  lemma MovesWalk(w: World, ev: Evidence, plans: seq<Plan>, ts: seq<int>)
    requires Readable(w) && ViewHolds(ViewOf(w), Group(ev))
    requires AllIn(ViewOf(w), Mastered) && EveryMemberOpen(ViewOf(w), ev)
    requires forall c :: c in ChannelsOf(plans) <==> c in w.note
    requires |ts| <= 2 && Ticking(w.clock, ts)
    ensures Walks(w, Group(ev), MoveAll(plans), ts, Group(ev))
    ensures |ts| == 2 ==>
              var w' := Exec(w, MoveAll(plans), ts);
              && Readable(w') && AllIn(ViewOf(w'), Dormant) && AllSuspended(w')
              && ViewOf(w').txs == ViewOf(w).txs && w'.note.Keys == w.note.Keys
  {
    if ts != [] {
      Moved(w, ev, plans, ts[0]);
      SuspensionAfterMove(w, Apply(w, SetStates(AllTo(plans, Dormant)), ts[0]), ev, plans, ts);
    }
  }

  lemma SuspensionAfterMove(w: World, moved: World, ev: Evidence, plans: seq<Plan>, ts: seq<int>)
    requires 0 < |ts| <= 2 && Ticking(w.clock, ts) && moved == Apply(w, SetStates(AllTo(plans, Dormant)), ts[0])
    requires Allowed(w, Group(ev), SetStates(AllTo(plans, Dormant)))
    requires Readable(moved) && AllIn(ViewOf(moved), Dormant)
    requires forall c :: c in moved.cards ==> c in ChannelsOf(plans)
    ensures Walks(w, Group(ev), MoveAll(plans), ts, Group(ev))
    ensures |ts| == 2 ==>
              var w' := Exec(w, MoveAll(plans), ts);
              Readable(w') && ViewOf(w') == ViewOf(moved) && AllSuspended(w')
  {
    var cards := set c | c in ChannelsOf(plans);
    FirstMove(w, Group(ev), plans, cards, ts, Group(ev));
    SuspendWalks(moved, ev, cards, ts[1..]);
  }

  /** Once the note is moved, the suspension is all that is left of the two. */
  lemma FirstMove(w: World, stage: Stage, plans: seq<Plan>, cards: set<Channel>, ts: seq<int>, end: Stage)
    requires 0 < |ts| <= 2 && Ticking(w.clock, ts) && cards == (set c | c in ChannelsOf(plans))
    requires Allowed(w, stage, SetStates(AllTo(plans, Dormant)))
    ensures var move := SetStates(AllTo(plans, Dormant));
            var moved := Apply(w, move, ts[0]);
            && (Walks(moved, StageAfter(ViewOf(w), stage, move), [SuspendCards(cards)], ts[1..], end) ==>
                  Walks(w, stage, MoveAll(plans), ts, end))
            && Exec(w, MoveAll(plans), ts) == Exec(moved, [SuspendCards(cards)], ts[1..])
  {
    assert MoveAll(plans) == [SetStates(AllTo(plans, Dormant)), SuspendCards(cards)];
    FirstOfTwo(w, stage, SetStates(AllTo(plans, Dormant)), SuspendCards(cards), ts, end);
  }

  lemma FirstOfTwo(w: World, stage: Stage, e: Effect, f: Effect, ts: seq<int>, end: Stage)
    requires 0 < |ts| <= 2 && Ticking(w.clock, ts) && Allowed(w, stage, e)
    ensures var next := Apply(w, e, ts[0]);
            && (Walks(next, StageAfter(ViewOf(w), stage, e), [f], ts[1..], end) ==> Walks(w, stage, [e, f], ts, end))
            && Exec(w, [e, f], ts) == Exec(next, [f], ts[1..])
  {
    assert [e, f][1..] == [f];
  }

  lemma SuspendWalks(w: World, ev: Evidence, cards: set<Channel>, ts: seq<int>)
    requires Readable(w) && AllIn(ViewOf(w), Dormant) && |ts| <= 1 && Ticking(w.clock, ts)
    requires forall c :: c in w.cards && !w.cards[c].suspended ==> c in cards
    ensures Walks(w, Group(ev), [SuspendCards(cards)], ts, Group(ev))
    ensures |ts| == 1 ==>
              var w' := Exec(w, [SuspendCards(cards)], ts);
              Readable(w') && ViewOf(w') == ViewOf(w) && AllSuspended(w')
  {
    OneWalk(w, Group(ev), SuspendCards(cards), ts);
    if ts != [] {
      SuspensionSeen(w, cards, ts[0]);
    }
  }

  /** Suspending every card that is awake leaves all of them suspended and the view as it was. */
  lemma SuspensionSeen(w: World, cards: set<Channel>, t: int)
    requires Readable(w) && w.clock <= t
    requires forall c :: c in w.cards && !w.cards[c].suspended ==> c in cards
    ensures var w' := Apply(w, SuspendCards(cards), t);
            Readable(w') && ViewOf(w') == ViewOf(w) && AllSuspended(w')
  {
    var w' := Apply(w, SuspendCards(cards), t);
    assert w'.cards.Keys == w.cards.Keys;
    SameLogReads(w, w');
  }

  // -------------------------------------------------------------------------
  // Committing or aborting the members
  // -------------------------------------------------------------------------

  function Under(phase: Phase): LifeState {
    if phase == Commit then Dormant else Mastered
  }

  /** The pending members are exactly `todo`, and the note stands where `phase` wants it. */
  predicate Closing(v: View, todo: seq<Plan>, phase: Phase) {
    && phase != Prepare
    && AllIn(v, Under(phase))
    && InChannelOrder(todo)
    && (forall p :: p in todo ==> Acceptable(v, p, phase))
    && forall id :: id in Pending(v.txs) ==> id in IdsOf(todo)
  }

  lemma StillAcceptable(v: View, p: Plan, q: Plan, phase: Phase, t: int)
    requires Acceptable(v, q, phase) && phase != Prepare && p.id.channel != q.id.channel
    ensures Acceptable(ViewAfter(v, Append(p, phase), t), q, phase)
  {
  }

  lemma ClosingOn(v: View, todo: seq<Plan>, phase: Phase, t: int)
    requires Closing(v, todo, phase) && todo != []
    ensures Closing(ViewAfter(v, Append(todo[0], phase), t), todo[1..], phase)
  {
    var v' := ViewAfter(v, Append(todo[0], phase), t);
    LaterThanFirst(todo, todo[1..]);
    forall p | p in todo[1..] ensures Acceptable(v', p, phase) {
      var i :| 0 <= i < |todo[1..]| && todo[1..][i] == p;
      StillAcceptable(v, todo[0], p, phase, t);
    }
    PendingAfter(v, todo[0], phase, t);
    forall id | id in Pending(v'.txs) ensures id in IdsOf(todo[1..]) {
      assert id in IdsOf(todo) && id != todo[0].id;
      var i :| 0 <= i < |todo| && IdsOf(todo)[i] == id;
      assert IdsOf(todo[1..])[i - 1] == id;
    }
  }

  lemma StageOnceClosed(v: View, stage: Stage, todo: seq<Plan>, phase: Phase, t: int)
    requires Closing(v, todo, phase) && todo != []
    ensures StageAfter(v, stage, Append(todo[0], phase)) == if |todo| == 1 then Idle else stage
  {
    if |todo| == 1 {
      forall id | id in Pending(v.txs) ensures id == todo[0].id {
      }
    } else {
      assert todo[1] in todo && Acceptable(v, todo[1], phase);
      assert todo[1].id in Pending(v.txs);
      assert todo[1].id != todo[0].id by {
        assert Rank(todo[0].id.channel) < Rank(todo[1].id.channel);
      }
    }
  }

  lemma ClosesNext(w: World, ev: Evidence, todo: seq<Plan>, phase: Phase, t: int)
    requires Readable(w) && Closing(ViewOf(w), todo, phase) && todo != [] && w.clock <= t
    requires phase == Commit ==> AllSuspended(w)
    ensures Allowed(w, Group(ev), Append(todo[0], phase)) && Readable(Apply(w, Append(todo[0], phase), t))
    ensures Closing(ViewOf(Apply(w, Append(todo[0], phase), t)), todo[1..], phase)
  {
    assert todo[0] in todo && Acceptable(ViewOf(w), todo[0], phase);
    AppendReads(w, todo[0], phase, t);
    ClosingOn(ViewOf(w), todo, phase, t);
  }

  lemma {:induction false} TerminalsWalk(w: World, ev: Evidence, todo: seq<Plan>, phase: Phase, ts: seq<int>)
    requires Readable(w) && Closing(ViewOf(w), todo, phase) && todo != []
    requires phase == Commit ==> AllSuspended(w)
    requires |ts| <= |todo| && Ticking(w.clock, ts)
    ensures Walks(w, Group(ev), Appends(todo, phase), ts, Idle)
    decreases |todo|
  {
    if ts != [] {
      ClosesNext(w, ev, todo, phase, ts[0]);
      StageOnceClosed(ViewOf(w), Group(ev), todo, phase, ts[0]);
      if |todo| > 1 {
        TerminalsWalk(Apply(w, Append(todo[0], phase), ts[0]), ev, todo[1..], phase, ts[1..]);
      }
      assert Appends(todo, phase)[1..] == Appends(todo[1..], phase);
      Onward(w, Group(ev), Appends(todo, phase), ts, Idle);
    }
  }
}
