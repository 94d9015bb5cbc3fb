/**
 * The lifecycle journal inside the event log: PREPARE, COMMIT and ABORT records
 * folded into transactions, and the committed chain of each channel.
 */
module Journal {
  import opened Wrappers
  import opened Lifecycle
  import opened Mastery

  datatype Phase = Prepare | Commit | Abort

  /** One unit's part of the event log. */
  datatype Entry =
    | StateEntry(plan: Plan, phase: Phase, ts: int)
    | JudgeEntry(assessment: Assessment)

  function Stamp(e: Entry): int {
    match e
    case StateEntry(_, _, ts) => ts
    case JudgeEntry(a) => a.ts
  }

  datatype Transaction = Transaction(plan: Plan, terminal: Option<Phase>)

  type Transactions = map<TransitionId, Transaction>

  /** One record applied to the transactions read so far; none refuses the journal. */
  function Record(txs: Transactions, plan: Plan, phase: Phase): Option<Transactions> {
    if !EdgeAllowed(plan.id.from, plan.id.to) then None
    else if phase == Prepare then
      if plan.id in txs then None else Some(txs[plan.id := Transaction(plan, None)])
    else if plan.id !in txs || txs[plan.id].plan != plan || txs[plan.id].terminal.Some? then None
    else Some(txs[plan.id := Transaction(plan, Some(phase))])
  }

  function Fold(log: seq<Entry>): Option<Transactions> {
    if log == [] then Some(map[])
    else
      match Fold(log[..|log| - 1])
      case None => None
      case Some(txs) =>
        match log[|log| - 1]
        case JudgeEntry(_) => Some(txs)
        case StateEntry(plan, phase, _) => Record(txs, plan, phase)
  }

  /** The journal as the reconciler reads it, record by record. */
  method JournalTransactions(log: seq<Entry>) returns (txs: Option<Transactions>)
    ensures txs == Fold(log)
  {
    var journal: Transactions := map[];
    for i := 0 to |log|
      invariant Fold(log[..i]) == Some(journal)
    {
      assert log[..i + 1][..i] == log[..i];
      if log[i].StateEntry? {
        var plan, phase := log[i].plan, log[i].phase;
        if !EdgeAllowed(plan.id.from, plan.id.to) {
          RefusedStaysRefused(log, i + 1);
          return None;
        }
        if phase == Prepare {
          if plan.id in journal {
            RefusedStaysRefused(log, i + 1);
            return None;
          }
          journal := journal[plan.id := Transaction(plan, None)];
        } else {
          if plan.id !in journal || journal[plan.id].plan != plan || journal[plan.id].terminal.Some? {
            RefusedStaysRefused(log, i + 1);
            return None;
          }
          journal := journal[plan.id := Transaction(plan, Some(phase))];
        }
      }
    }
    assert log[..|log|] == log;
    txs := Some(journal);
  }

  lemma {:induction false} RefusedStaysRefused(log: seq<Entry>, n: nat)
    requires n <= |log| && Fold(log[..n]).None?
    ensures Fold(log).None?
  {
    if n == |log| {
      assert log[..n] == log;
    } else {
      assert log[..|log| - 1][..n] == log[..n];
      RefusedStaysRefused(log[..|log| - 1], n);
    }
  }

  lemma FoldAppends(log: seq<Entry>, e: Entry)
    ensures Fold(log + [e]) ==
            match Fold(log)
            case None => None
            case Some(txs) => (match e
                               case JudgeEntry(_) => Some(txs)
                               case StateEntry(plan, phase, _) => Record(txs, plan, phase))
  {
    assert (log + [e])[..|log|] == log;
  }

  // -------------------------------------------------------------------------
  // What a readable journal guarantees
  // -------------------------------------------------------------------------

  predicate Holds(log: seq<Entry>, i: nat, id: TransitionId, phase: Phase) {
    i < |log| && log[i].StateEntry? && log[i].plan.id == id && log[i].phase == phase
  }

  ghost predicate Logged(log: seq<Entry>, id: TransitionId, phase: Phase) {
    exists i: nat :: Holds(log, i, id, phase)
  }

  lemma LoggedAppends(log: seq<Entry>, id: TransitionId, phase: Phase)
    requires log != []
    ensures Logged(log, id, phase) <==>
            Logged(log[..|log| - 1], id, phase) || Holds(log, |log| - 1, id, phase)
  {
    var init := log[..|log| - 1];
    if Logged(log, id, phase) {
      var i: nat :| Holds(log, i, id, phase);
      assert i < |init| ==> Holds(init, i, id, phase);
    }
    if Logged(init, id, phase) {
      var i: nat :| Holds(init, i, id, phase);
      assert Holds(log, i, id, phase);
    }
  }

  /** The transaction of an identity says exactly which records the log has for it. */
  lemma {:induction false} FoldMeaning(log: seq<Entry>, id: TransitionId)
    requires Fold(log).Some?
    ensures var txs := Fold(log).value;
            && (id in txs <==> Logged(log, id, Prepare))
            && (id in txs ==> txs[id].plan.id == id && EdgeAllowed(id.from, id.to) && txs[id].terminal != Some(Prepare))
            && ((id in txs && txs[id].terminal == Some(Commit)) <==> Logged(log, id, Commit))
            && ((id in txs && txs[id].terminal == Some(Abort)) <==> Logged(log, id, Abort))
  {
    if log != [] {
      var init := log[..|log| - 1];
      FoldMeaning(init, id);
      LoggedAppends(log, id, Prepare);
      LoggedAppends(log, id, Commit);
      LoggedAppends(log, id, Abort);
    }
  }

  /**
   * In a readable journal no identity is prepared twice, terminated twice, or
   * both committed and aborted, and a terminal always follows its PREPARE and
   * repeats the prepared plan.
   */
  lemma {:induction false} EveryRecordOnce(log: seq<Entry>, i: nat, j: nat)
    requires Fold(log).Some?
    requires i < j < |log| && log[i].StateEntry? && log[j].StateEntry?
    requires log[i].plan.id == log[j].plan.id
    ensures log[i].phase == Prepare && log[j].phase != Prepare && log[i].plan == log[j].plan
  {
    var init := log[..|log| - 1];
    if j < |init| {
      EveryRecordOnce(init, i, j);
    } else {
      var id := log[j].plan.id;
      FoldMeaning(init, id);
      assert Holds(init, i, id, log[i].phase);
      PreparedPlanKept(init, i);
    }
  }

  lemma {:induction false} PreparedPlanKept(log: seq<Entry>, i: nat)
    requires Fold(log).Some? && i < |log| && log[i].StateEntry?
    ensures log[i].plan.id in Fold(log).value
    ensures Fold(log).value[log[i].plan.id].plan == log[i].plan
  {
    var init := log[..|log| - 1];
    if i < |init| {
      PreparedPlanKept(init, i);
    }
  }

  /** The record at `i` is allowed by those before it: a first PREPARE, or the one end of its PREPARE. */
  ghost predicate InProtocol(log: seq<Entry>, i: nat)
    requires i < |log|
  {
    log[i].StateEntry? ==>
      var id := log[i].plan.id;
      && EdgeAllowed(id.from, id.to)
      && if log[i].phase == Prepare then forall j: nat, phase :: j < i ==> !Holds(log, j, id, phase)
         else
           && (exists j: nat :: j < i && Holds(log, j, id, Prepare) && log[j].plan == log[i].plan)
           && forall j: nat, phase :: j < i && Holds(log, j, id, phase) ==> phase == Prepare
  }

  lemma InProtocolBefore(log: seq<Entry>, n: nat, i: nat)
    requires i < n <= |log|
    ensures InProtocol(log[..n], i) <==> InProtocol(log, i)
  {
    if log[i].StateEntry? {
      var id := log[i].plan.id;
      forall j: nat, phase | j < i ensures Holds(log[..n], j, id, phase) <==> Holds(log, j, id, phase) {
      }
    }
  }

  /** The last record is taken exactly when those before it allow it. */
  lemma LastInProtocol(log: seq<Entry>)
    requires log != [] && Fold(log[..|log| - 1]).Some?
    ensures Fold(log).Some? <==> InProtocol(log, |log| - 1)
  {
    var n := |log| - 1;
    var init, last := log[..n], log[n];
    if last.StateEntry? {
      var id := last.plan.id;
      FoldMeaning(init, id);
      forall j: nat, phase | j < n ensures Holds(log, j, id, phase) <==> Holds(init, j, id, phase) {
      }
      forall phase ensures Logged(init, id, phase) <==> exists j: nat :: j < n && Holds(log, j, id, phase) {
        if j: nat :| Holds(init, j, id, phase) {
          assert Holds(log, j, id, phase);
        }
        if j: nat :| j < n && Holds(log, j, id, phase) {
          assert Holds(init, j, id, phase);
        }
      }
      forall j: nat | j < n && Holds(log, j, id, Prepare) ensures Fold(init).value[id].plan == log[j].plan {
        PreparedPlanKept(init, j);
      }
      OnlyThreePhases(last.phase);
      forall j: nat, phase | j < n && Holds(log, j, id, phase) ensures Logged(init, id, phase) {
        OnlyThreePhases(phase);
      }
      assert last.phase == Prepare ==> (id !in Fold(init).value <==>
                                          forall j: nat, phase :: j < n ==> !Holds(log, j, id, phase));
      if id in Fold(init).value && Fold(init).value[id].terminal.Some? {
        OnlyThreePhases(Fold(init).value[id].terminal.value);
        var end := Fold(init).value[id].terminal.value;
        assert Logged(init, id, end) && end != Prepare;
        var j: nat :| j < n && Holds(log, j, id, end);
      }
      assert id in Fold(init).value ==>
               (Fold(init).value[id].terminal.None? <==>
                  forall j: nat, phase :: j < n && Holds(log, j, id, phase) ==> phase == Prepare);
    }
  }

  lemma OnlyThreePhases(phase: Phase)
    ensures phase == Prepare || phase == Commit || phase == Abort
  {
  }

  /** The journal is read exactly when every record is allowed by those before it. */
  lemma {:induction false} ReadExactlyInProtocol(log: seq<Entry>)
    ensures Fold(log).Some? <==> forall i: nat :: i < |log| ==> InProtocol(log, i)
  {
    if log != [] {
      var n := |log| - 1;
      ReadExactlyInProtocol(log[..n]);
      forall i: nat | i < n ensures InProtocol(log[..n], i) <==> InProtocol(log, i) {
        InProtocolBefore(log, n, i);
      }
      if Fold(log[..n]).Some? {
        LastInProtocol(log);
      }
    }
  }

  // -------------------------------------------------------------------------
  // The committed chain of a channel
  // -------------------------------------------------------------------------

  datatype Position = Position(state: LifeState, episode: Episode, entered: Option<int>)

  function Start(c: Channel): Position {
    Position(New, InitialNew(c), None)
  }

  predicate Continues(at: Position, plan: Plan) {
    plan.id.from == at.state && plan.id.episode == at.episode
  }

  function Arrived(plan: Plan, ts: int): Position {
    Position(plan.id.to, Entered(plan.id), Some(ts))
  }

  predicate CommitsOn(e: Entry, c: Channel) {
    e.StateEntry? && e.phase == Commit && e.plan.id.channel == c
  }

  /** Where the COMMITs of a channel lead; none when they do not form a chain. */
  function Replay(log: seq<Entry>, c: Channel): Option<Position> {
    if log == [] then Some(Start(c))
    else
      var last := log[|log| - 1];
      match Replay(log[..|log| - 1], c)
      case None => None
      case Some(at) =>
        if !CommitsOn(last, c) then Some(at)
        else if !Continues(at, last.plan) then None
        else Some(Arrived(last.plan, last.ts))
  }

  /** The chain as the reconciler walks it: committed records first, then link by link. */
  method EpisodeProvenance(log: seq<Entry>, c: Channel) returns (at: Option<Position>)
    ensures at == Replay(log, c)
  {
    var current := Start(c);
    for i := 0 to |log|
      invariant Replay(log[..i], c) == Some(current)
    {
      assert log[..i + 1][..i] == log[..i];
      if CommitsOn(log[i], c) {
        if log[i].plan.id.from != current.state || log[i].plan.id.episode != current.episode {
          BrokenStaysBroken(log, i + 1, c);
          return None;
        }
        current := Position(log[i].plan.id.to, Entered(log[i].plan.id), Some(log[i].ts));
      }
    }
    assert log[..|log|] == log;
    at := Some(current);
  }

  lemma {:induction false} BrokenStaysBroken(log: seq<Entry>, n: nat, c: Channel)
    requires n <= |log| && Replay(log[..n], c).None?
    ensures Replay(log, c).None?
  {
    if n == |log| {
      assert log[..n] == log;
    } else {
      assert log[..|log| - 1][..n] == log[..n];
      BrokenStaysBroken(log[..|log| - 1], n, c);
    }
  }

  lemma ReplayAppends(log: seq<Entry>, e: Entry, c: Channel)
    ensures Replay(log + [e], c) ==
            match Replay(log, c)
            case None => None
            case Some(at) =>
              if !CommitsOn(e, c) then Some(at)
              else if !Continues(at, e.plan) then None
              else Some(Arrived(e.plan, e.ts))
  {
    assert (log + [e])[..|log|] == log;
  }

  /**
   * A channel that has left NEW was entered by its last COMMIT, whose instant is
   * its entry; a channel with no COMMIT is still in its initial episode.
   */
  lemma {:induction false} ReplayMeaning(log: seq<Entry>, c: Channel)
    requires Fold(log).Some? && Replay(log, c).Some?
    ensures var at := Replay(log, c).value;
            && (at.entered.None? <==> at.state == New)
            && (at.entered.None? <==> at == Start(c))
            && (at.entered.None? <==> forall i: nat :: i < |log| ==> !CommitsOn(log[i], c))
            && (at.entered.Some? ==> exists i: nat :: i < |log| && CommitsOn(log[i], c)
                                                   && at == Arrived(log[i].plan, log[i].ts)
                                                   && forall j :: i < j < |log| ==> !CommitsOn(log[j], c))
  {
    if log != [] {
      var init, last := log[..|log| - 1], log[|log| - 1];
      ReplayMeaning(init, c);
      if CommitsOn(last, c) {
        FoldMeaning(log, last.plan.id);
        assert Holds(log, |log| - 1, last.plan.id, Commit);
        assert EdgeAllowed(last.plan.id.from, last.plan.id.to);
        assert CommitsOn(log[|log| - 1], c);
      } else {
        if Replay(init, c).value.entered.Some? {
          var i: nat :| i < |init| && CommitsOn(init[i], c)
                        && Replay(init, c).value == Arrived(init[i].plan, init[i].ts)
                        && forall j :: i < j < |init| ==> !CommitsOn(init[j], c);
          assert log[i] == init[i];
          forall j | i < j < |log| ensures !CommitsOn(log[j], c) {
            if j < |init| { assert log[j] == init[j]; }
          }
        } else {
          forall i: nat | i < |log| ensures !CommitsOn(log[i], c) {
            if i < |init| { assert log[i] == init[i]; }
          }
        }
      }
    }
  }

  /** The COMMIT at `i` goes on where the one before it on the channel ended, the first one from NEW. */
  ghost predicate Linked(log: seq<Entry>, c: Channel, i: nat)
    requires i < |log|
  {
    CommitsOn(log[i], c) ==>
      var id := log[i].plan.id;
      || ((forall j :: 0 <= j < i ==> !CommitsOn(log[j], c)) && id.from == New && id.episode == InitialNew(c))
      || exists j: nat ::
           LastCommit(log, c, i, j) && id.from == log[j].plan.id.to && id.episode == Entered(log[j].plan.id)
  }

  /** Before `i` the last COMMIT of the channel is at `j`. */
  ghost predicate LastCommit(log: seq<Entry>, c: Channel, i: nat, j: nat)
    requires i <= |log|
  {
    j < i && CommitsOn(log[j], c) && forall k :: j < k < i ==> !CommitsOn(log[k], c)
  }

  lemma LinkedBefore(log: seq<Entry>, c: Channel, n: nat, i: nat)
    requires i < n <= |log|
    ensures Linked(log[..n], c, i) <==> Linked(log, c, i)
  {
    forall j: nat ensures LastCommit(log[..n], c, i, j) <==> LastCommit(log, c, i, j) {
    }
  }

  lemma LastLinked(log: seq<Entry>, c: Channel)
    requires log != [] && Fold(log).Some? && Replay(log[..|log| - 1], c).Some?
    ensures Replay(log, c).Some? <==> Linked(log, c, |log| - 1)
  {
    var n := |log| - 1;
    var init := log[..n];
    assert Fold(init).Some?;
    ReplayMeaning(init, c);
    var at := Replay(init, c).value;
    if at.entered.Some? {
      var i: nat :| i < |init| && CommitsOn(init[i], c) && at == Arrived(init[i].plan, init[i].ts)
                    && forall j :: i < j < |init| ==> !CommitsOn(init[j], c);
      assert LastCommit(log, c, n, i);
      forall j: nat | LastCommit(log, c, n, j) ensures j == i {
        assert CommitsOn(init[j], c);
      }
    } else {
      forall j | 0 <= j < n ensures !CommitsOn(log[j], c) {
        assert init[j] == log[j];
      }
    }
  }

  /** A channel of a readable journal has a replay exactly when its COMMITs form one chain. */
  lemma {:induction false} ReplaysExactlyWhenLinked(log: seq<Entry>, c: Channel)
    requires Fold(log).Some?
    ensures Replay(log, c).Some? <==> forall i: nat :: i < |log| ==> Linked(log, c, i)
  {
    if log != [] {
      var n := |log| - 1;
      ReplaysExactlyWhenLinked(log[..n], c);
      forall i: nat | i < n ensures Linked(log[..n], c, i) <==> Linked(log, c, i) {
        LinkedBefore(log, c, n, i);
      }
      if Replay(log[..n], c).Some? {
        LastLinked(log, c);
      }
    }
  }

  // -------------------------------------------------------------------------
  // Assessments
  // -------------------------------------------------------------------------

  /** The assessments of a channel, in log order. */
  function AssessmentsOf(log: seq<Entry>, c: Channel): (out: seq<Assessment>)
    ensures forall a :: a in out ==> a.channel == c && JudgeEntry(a) in log
  {
    if log == [] then []
    else
      var last := log[|log| - 1];
      assert log == log[..|log| - 1] + [last];
      var rest := AssessmentsOf(log[..|log| - 1], c);
      if last.JudgeEntry? && last.assessment.channel == c then rest + [last.assessment] else rest
  }

  lemma AssessmentsOfAppends(log: seq<Entry>, e: Entry, c: Channel)
    ensures AssessmentsOf(log + [e], c) ==
            if e.JudgeEntry? && e.assessment.channel == c then AssessmentsOf(log, c) + [e.assessment]
            else AssessmentsOf(log, c)
  {
    assert (log + [e])[..|log|] == log;
  }
}
