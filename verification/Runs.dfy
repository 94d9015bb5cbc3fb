/**
 * Every durable effect of a reconcile call is allowed where it happens, wherever
 * the call is cut. So the invariant holds in every reachable deployment, the
 * recovery's "manual intervention" branches are never taken, and a call that
 * gets through leaves nothing pending.
 */
module Runs {
  import opened Wrappers
  import opened Lifecycle
  import opened Journal
  import opened Observation
  import opened Decision
  import opened DecisionFacts
  import opened Protocol
  import opened Safety

  // -------------------------------------------------------------------------
  // Walking, effect by effect
  // -------------------------------------------------------------------------

  lemma Advance(w: World, stage: Stage, es: seq<Effect>, ts: seq<int>)
    requires InvAt(w, stage) && 0 < |ts| <= |es| && Ticking(w.clock, ts)
    requires Allowed(w, stage, es[0])
    ensures InvAt(Apply(w, es[0], ts[0]), StageAfter(ViewOf(w), stage, es[0]))
    ensures Walk(w, stage, es, ts)
         == Walk(Apply(w, es[0], ts[0]), StageAfter(ViewOf(w), stage, es[0]), es[1..], ts[1..])
    ensures Exec(w, es, ts) == Exec(Apply(w, es[0], ts[0]), es[1..], ts[1..])
    ensures Ticking(Apply(w, es[0], ts[0]).clock, ts[1..])
  {
    AllowedKeepsInvariant(w, stage, es[0], ts[0]);
  }

  lemma Tails(a: seq<Effect>, b: seq<Effect>, ts: seq<int>)
    requires a != [] && ts != []
    ensures (a + b)[0] == a[0] && (a + b)[1..] == a[1..] + b
    ensures |ts| >= |a| ==> ts[..|a|][1..] == ts[1..][..|a| - 1] && ts[1..][|a| - 1..] == ts[|a|..]
  {
  }

  /** A program in two parts is executed part by part, */
  lemma {:induction false} ExecConcat(w: World, a: seq<Effect>, b: seq<Effect>, ts: seq<int>)
    requires |ts| <= |a| + |b|
    ensures |ts| <= |a| ==> Exec(w, a + b, ts) == Exec(w, a, ts)
    ensures |ts| >= |a| ==> Exec(w, a + b, ts) == Exec(Exec(w, a, ts[..|a|]), b, ts[|a|..])
    decreases |ts|
  {
    if a == [] {
      assert a + b == b && ts[0..] == ts;
    } else if ts != [] {
      Tails(a, b, ts);
      ExecConcat(Apply(w, a[0], ts[0]), a[1..], b, ts[1..]);
    }
  }

  /** and walked part by part: cut in the first part, */
  lemma {:induction false} WalkCutEarly(w: World, stage: Stage, a: seq<Effect>, b: seq<Effect>, ts: seq<int>)
    requires |ts| <= |a|
    ensures Walk(w, stage, a + b, ts) == Walk(w, stage, a, ts)
    decreases |ts|
  {
    if ts != [] {
      Tails(a, b, ts);
      if Allowed(w, stage, a[0]) {
        WalkCutEarly(Apply(w, a[0], ts[0]), StageAfter(ViewOf(w), stage, a[0]), a[1..], b, ts[1..]);
      }
    }
  }

  /** or behind it. */
  lemma {:induction false} WalkConcat(w: World, stage: Stage, a: seq<Effect>, b: seq<Effect>, ts: seq<int>)
    requires |a| <= |ts| <= |a| + |b| && Walk(w, stage, a, ts[..|a|]).Some?
    ensures Walk(w, stage, a + b, ts) == Walk(Exec(w, a, ts[..|a|]), Walk(w, stage, a, ts[..|a|]).value, b, ts[|a|..])
    decreases |ts|
  {
    if a == [] {
      assert a + b == b && ts[0..] == ts;
    } else {
      Tails(a, b, ts);
      WalkConcat(Apply(w, a[0], ts[0]), StageAfter(ViewOf(w), stage, a[0]), a[1..], b, ts[1..]);
    }
  }

  lemma {:induction false} TickingSplits(clock: int, ts: seq<int>, n: nat)
    requires Ticking(clock, ts) && n <= |ts|
    ensures Ticking(clock, ts[..n])
    ensures Ticking(if n == 0 then clock else ts[n - 1], ts[n..])
    decreases n
  {
    if n > 0 {
      TickingSplits(ts[0], ts[1..], n - 1);
      assert ts[..n][1..] == ts[1..][..n - 1] && ts[n..] == ts[1..][n - 1..];
    } else {
      assert ts[0..] == ts;
    }
  }

  lemma {:induction false} ExecClock(w: World, es: seq<Effect>, ts: seq<int>)
    requires |ts| <= |es|
    ensures Exec(w, es, ts).clock == if ts == [] then w.clock else ts[|ts| - 1]
    decreases |ts|
  {
    if ts != [] {
      ExecClock(Apply(w, es[0], ts[0]), es[1..], ts[1..]);
    }
  }

  /** The walk succeeds, and ends in `end` when nothing is cut off. */
  predicate Walks(w: World, stage: Stage, es: seq<Effect>, ts: seq<int>, end: Stage)
    requires |ts| <= |es|
  {
    && Walk(w, stage, es, ts).Some?
    && (|ts| == |es| ==> Walk(w, stage, es, ts) == Some(end))
  }

  /** Two walks in a row; the second is only needed when the first is not cut. */
  lemma WalksInTurn(w: World, stage: Stage, a: seq<Effect>, middle: Stage, b: seq<Effect>, ts: seq<int>, end: Stage)
    requires InvAt(w, stage) && |ts| <= |a| + |b| && Ticking(w.clock, ts)
    requires |ts| <= |a| ==> Walks(w, stage, a, ts, middle)
    requires |ts| >= |a| ==> Walks(w, stage, a, ts[..|a|], middle)
    requires |ts| >= |a| ==> Walks(Exec(w, a, ts[..|a|]), middle, b, ts[|a|..], end)
    ensures Walks(w, stage, a + b, ts, end)
  {
    if |ts| <= |a| {
      WalkCutEarly(w, stage, a, b, ts);
    }
    if |ts| >= |a| {
      WalkConcat(w, stage, a, b, ts);
    }
  }

  lemma After(w: World, stage: Stage, a: seq<Effect>, middle: Stage, ts: seq<int>)
    requires InvAt(w, stage) && |ts| >= |a| && Ticking(w.clock, ts)
    requires Walks(w, stage, a, ts[..|a|], middle)
    ensures InvAt(Exec(w, a, ts[..|a|]), middle)
    ensures Ticking(Exec(w, a, ts[..|a|]).clock, ts[|a|..])
  {
    TickingAfter(w, a, ts);
    WalkKeepsInvariant(w, stage, a, ts[..|a|]);
  }

  lemma TickingAfter(w: World, a: seq<Effect>, ts: seq<int>)
    requires |ts| >= |a| && Ticking(w.clock, ts)
    ensures Ticking(Exec(w, a, ts[..|a|]).clock, ts[|a|..])
  {
    TickingSplits(w.clock, ts, |a|);
    ExecClock(w, a, ts[..|a|]);
  }

  lemma OneWalk(w: World, stage: Stage, e: Effect, ts: seq<int>)
    requires Allowed(w, stage, e) && |ts| <= 1 && Ticking(w.clock, ts)
    ensures Walks(w, stage, [e], ts, StageAfter(ViewOf(w), stage, e))
    ensures |ts| == 1 ==> Exec(w, [e], ts) == Apply(w, e, ts[0])
  {
  }

  /** A walk from the first effect on. */
  lemma Onward(w: World, stage: Stage, es: seq<Effect>, ts: seq<int>, end: Stage)
    requires 0 < |ts| <= |es| && Ticking(w.clock, ts) && Allowed(w, stage, es[0])
    requires Walks(Apply(w, es[0], ts[0]), StageAfter(ViewOf(w), stage, es[0]), es[1..], ts[1..], end)
    ensures Walks(w, stage, es, ts, end)
    ensures Exec(w, es, ts) == Exec(Apply(w, es[0], ts[0]), es[1..], ts[1..])
  {
  }

  // -------------------------------------------------------------------------
  // What an effect on other channels leaves alone
  // -------------------------------------------------------------------------

  predicate Touches(e: Effect, c: Channel) {
    match e
    case Append(p, _) => p.id.channel == c
    case SetStates(states) => c in states
    case SuspendCards(cards) => c in cards
  }

  /** Nothing that concerns the channel differs between the two deployments. */
  ghost predicate SameFor(w: World, w': World, c: Channel) {
    && Readable(w) && Readable(w') && w.note.Keys == w'.note.Keys && c in w.note
    && w'.note[c] == w.note[c] && w'.cards[c] == w.cards[c] && w'.reviews[c] == w.reviews[c]
    && Replay(w'.log, c) == Replay(w.log, c)
    && AssessmentsOf(w'.log, c) == AssessmentsOf(w.log, c)
    && SameTransactions(Fold(w.log).value, Fold(w'.log).value, c)
  }

  ghost predicate SameTransactions(txs: Transactions, txs': Transactions, c: Channel) {
    forall id: TransitionId :: id.channel == c ==> (id in txs <==> id in txs') && (id in txs ==> txs'[id] == txs[id])
  }

  lemma UntouchedByAppend(w: World, p: Plan, phase: Phase, t: int, c: Channel)
    requires Readable(w) && Acceptable(ViewOf(w), p, phase) && w.clock <= t && c in w.note && p.id.channel != c
    ensures SameFor(w, Apply(w, Append(p, phase), t), c)
  {
    AppendReads(w, p, phase, t);
    ChainAfterAppend(w, p, phase, t, c);
    AssessmentsOfAppends(w.log, StateEntry(p, phase, t), c);
  }

  lemma UntouchedByStates(w: World, states: map<Channel, LifeState>, t: int, c: Channel)
    requires Readable(w) && w.clock <= t && c in w.note && c !in states && states.Keys <= w.note.Keys
    ensures SameFor(w, Apply(w, SetStates(states), t), c)
  {
    var w' := Apply(w, SetStates(states), t);
    assert w'.note.Keys == w.note.Keys;
    SameLogReads(w, w');
  }

  lemma UntouchedBySuspension(w: World, cards: set<Channel>, t: int, c: Channel)
    requires Readable(w) && w.clock <= t && c in w.note && c !in cards
    ensures SameFor(w, Apply(w, SuspendCards(cards), t), c)
  {
    var w' := Apply(w, SuspendCards(cards), t);
    assert w'.cards.Keys == w.cards.Keys;
    SameLogReads(w, w');
  }

  lemma UntouchedByEffect(w: World, stage: Stage, e: Effect, t: int, c: Channel)
    requires Readable(w) && ViewHolds(ViewOf(w), stage) && ViewAllows(ViewOf(w), stage, e) && w.clock <= t
    requires c in w.note && !Touches(e, c)
    ensures SameFor(w, Apply(w, e, t), c)
  {
    match e
    case Append(p, phase) =>
      AllowedIsAcceptable(ViewOf(w), stage, p, phase);
      UntouchedByAppend(w, p, phase, t, c);
    case SetStates(states) =>
      StatesKeepChannels(ViewOf(w), stage, states);
      UntouchedByStates(w, states, t, c);
    case SuspendCards(cards) => UntouchedBySuspension(w, cards, t, c);
  }

  lemma SameForInTurn(w: World, w': World, w'': World, c: Channel)
    requires SameFor(w, w', c) && SameFor(w', w'', c)
    ensures SameFor(w, w'', c)
  {
  }

  /** A program leaves alone every channel that none of its effects names. */
  lemma {:induction false} UntouchedByWalk(w: World, stage: Stage, es: seq<Effect>, ts: seq<int>, c: Channel)
    requires InvAt(w, stage) && |ts| <= |es| && Walk(w, stage, es, ts).Some?
    requires c in w.note && forall e :: e in es ==> !Touches(e, c)
    ensures SameFor(w, Exec(w, es, ts), c)
    decreases |ts|
  {
    if ts != [] {
      var w' := Apply(w, es[0], ts[0]);
      AllowedKeepsInvariant(w, stage, es[0], ts[0]);
      UntouchedByEffect(w, stage, es[0], ts[0], c);
      UntouchedByWalk(w', StageAfter(ViewOf(w), stage, es[0]), es[1..], ts[1..], c);
      SameForInTurn(w, w', Exec(w, es, ts), c);
    }
  }

  // -------------------------------------------------------------------------
  // Single transitions
  // -------------------------------------------------------------------------

  predicate Ready(w: World, p: Plan) {
    && Readable(w)
    && p.group.None?
    && MayPrepare(ViewOf(w), Idle, p)
    && (Irrevocable(p) ==> Shown(w, p))
  }

  lemma ReadyElsewhere(w: World, w': World, p: Plan)
    requires Ready(w, p) && SameFor(w, w', p.id.channel)
    ensures Ready(w', p)
  {
  }

  lemma AtSourceStep(w: World, p: Plan)
    requires InvAt(w, Single(p)) && w.note[p.id.channel] == p.id.from
    ensures Allowed(w, Single(p), Step(p)[0])
  {
  }

  lemma AtTargetCommit(w: World, p: Plan)
    requires InvAt(w, Single(p)) && w.note[p.id.channel] == p.id.to
    ensures Allowed(w, Single(p), Append(p, Commit))
    ensures StageAfter(ViewOf(w), Single(p), Append(p, Commit)) == Idle
  {
  }

  lemma TargetReached(w: World, p: Plan, t: int)
    requires InvAt(w, Single(p)) && w.note[p.id.channel] == p.id.from && w.clock <= t
    ensures InvAt(Apply(w, Step(p)[0], t), Single(p)) && Apply(w, Step(p)[0], t).note[p.id.channel] == p.id.to
  {
    AtSourceStep(w, p);
    AllowedKeepsInvariant(w, Single(p), Step(p)[0], t);
  }

  lemma CommitWalks(w: World, p: Plan, ts: seq<int>)
    requires InvAt(w, Single(p)) && w.note[p.id.channel] == p.id.to
    requires |ts| <= 1 && Ticking(w.clock, ts)
    ensures Walks(w, Single(p), [Append(p, Commit)], ts, Idle)
  {
    AtTargetCommit(w, p);
    OneWalk(w, Single(p), Append(p, Commit), ts);
  }

  /** Setting the note and committing, from a prepared transition at its source. */
  lemma StepWalks(w: World, p: Plan, ts: seq<int>)
    requires InvAt(w, Single(p)) && w.note[p.id.channel] == p.id.from
    requires |ts| <= 2 && Ticking(w.clock, ts)
    ensures Walks(w, Single(p), Step(p), ts, Idle)
  {
    if ts != [] {
      AtSourceStep(w, p);
      TargetReached(w, p, ts[0]);
      CommitWalks(Apply(w, Step(p)[0], ts[0]), p, ts[1..]);
      FirstStep(w, p, ts);
    }
  }

  lemma FirstStep(w: World, p: Plan, ts: seq<int>)
    requires 0 < |ts| <= 2 && Ticking(w.clock, ts) && Allowed(w, Single(p), Step(p)[0])
    requires Walks(Apply(w, Step(p)[0], ts[0]), Single(p), [Append(p, Commit)], ts[1..], Idle)
    ensures Walks(w, Single(p), Step(p), ts, Idle)
  {
    assert Step(p)[1..] == [Append(p, Commit)];
    Onward(w, Single(p), Step(p), ts, Idle);
  }

  function Whole(p: Plan): seq<Effect> {
    [Append(p, Prepare)] + Step(p)
  }

  lemma WholeWalks(w: World, p: Plan, ts: seq<int>)
    requires InvAt(w, Idle) && Ready(w, p) && |ts| <= 3 && Ticking(w.clock, ts)
    ensures Walks(w, Idle, Whole(p), ts, Idle)
  {
    if ts != [] {
      Advance(w, Idle, Whole(p), ts);
      var w' := Apply(w, Append(p, Prepare), ts[0]);
      SourceWhenReady(w, p, ts[0]);
      assert Whole(p)[1..] == Step(p);
      StepWalks(w', p, ts[1..]);
    }
  }

  /** Cut short, the transition is the one pending. */
  lemma WholeCut(w: World, p: Plan, ts: seq<int>)
    requires InvAt(w, Idle) && Ready(w, p) && 0 < |ts| < 3 && Ticking(w.clock, ts)
    ensures Walk(w, Idle, Whole(p), ts) == Some(Single(p))
  {
    var w' := Apply(w, Append(p, Prepare), ts[0]);
    Advance(w, Idle, Whole(p), ts);
    SourceWhenReady(w, p, ts[0]);
    assert Whole(p)[1..] == Step(p);
    StepCut(w', p, ts[1..]);
  }

  lemma StepCut(w: World, p: Plan, ts: seq<int>)
    requires InvAt(w, Single(p)) && w.note[p.id.channel] == p.id.from && |ts| < 2 && Ticking(w.clock, ts)
    ensures Walk(w, Single(p), Step(p), ts) == Some(Single(p))
  {
    AtSourceStep(w, p);
  }

  lemma SourceWhenReady(w: World, p: Plan, t: int)
    requires InvAt(w, Idle) && Ready(w, p)
    ensures Apply(w, Append(p, Prepare), t).note[p.id.channel] == p.id.from
  {
    assert Agrees(ViewOf(w), p.id.channel);
  }

  lemma OthersUntouched(p: Plan, c: Channel)
    requires c != p.id.channel
    ensures forall e :: e in Whole(p) ==> !Touches(e, c)
  {
  }

  /** The planned transitions of one call, one after the other. */
  lemma {:induction false} UngroupedWalks(w: World, plans: seq<Plan>, ts: seq<int>)
    requires InvAt(w, Idle) && InChannelOrder(plans) && forall p :: p in plans ==> Ready(w, p)
    requires |ts| <= |UngroupedEffects(plans)| && Ticking(w.clock, ts)
    ensures Walks(w, Idle, UngroupedEffects(plans), ts, Idle)
    decreases |plans|
  {
    if plans != [] {
      var p, rest := plans[0], plans[1..];
      assert UngroupedEffects(plans) == Whole(p) + UngroupedEffects(rest);
      if |ts| <= 3 {
        WholeWalks(w, p, ts);
      }
      if |ts| >= 3 {
        TickingSplits(w.clock, ts, 3);
        WholeWalks(w, p, ts[..3]);
        After(w, Idle, Whole(p), Idle, ts);
        var w' := Exec(w, Whole(p), ts[..3]);
        forall q | q in rest ensures Ready(w', q) {
          var i :| 0 <= i < |rest| && rest[i] == q;
          assert Rank(plans[0].id.channel) < Rank(plans[i + 1].id.channel);
          assert Ready(w, plans[i + 1]);
          OthersUntouched(p, q.id.channel);
          UntouchedByWalk(w, Idle, Whole(p), ts[..3], q.id.channel);
          ReadyElsewhere(w, w', q);
        }
        UngroupedWalks(w', rest, ts[3..]);
      }
      WalksInTurn(w, Idle, Whole(p), Idle, UngroupedEffects(rest), ts, Idle);
    }
  }
}
