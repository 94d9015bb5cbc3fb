/**
 * The assessments that a produced log carries into the lifecycle: novel ones show
 * pairwise distinct stimuli and have distinct identities, which is what the
 * mastery selection needs to be complete and never to refuse.
 */
module ProducedMastery {
  import opened Wrappers
  import opened Lifecycle
  import opened Ledgers
  import opened Payloads
  import opened Producer
  import M = Mastery

  /** What the lifecycle reads from one log event of a unit and channel. */
  function ReadFrom(e: LogEvent, ts: int, unitKey: string, c: Channel,
                    name: AttemptId -> string): Option<M.Assessment> {
    if e.Recorded? && e.kind == Judge && e.unitKey == unitKey && e.payload.channel == c then
      match LifecycleAssessment(e.payload, ts, ts, name)
      case Ok(found) => found
      case Err(_) => None
    else None
  }

  function Produced(log: seq<LogEvent>, stamps: seq<int>, unitKey: string, c: Channel, name: AttemptId -> string)
    : (out: seq<M.Assessment>)
    requires |stamps| == |log|
    decreases |log|
  {
    if log == [] then []
    else
      var n := |log| - 1;
      var rest := Produced(log[..n], stamps[..n], unitKey, c, name);
      match ReadFrom(log[n], stamps[n], unitKey, c, name)
      case None => rest
      case Some(a) => rest + [a]
  }

  ghost predicate Injective(name: AttemptId -> string) {
    forall a, b :: name(a) == name(b) ==> a == b
  }

  /** Where an assessment was read from. */
  lemma {:induction false} ProducedFrom(log: seq<LogEvent>, stamps: seq<int>, unitKey: string, c: Channel,
                                        name: AttemptId -> string, a: M.Assessment) returns (k: nat)
    requires |stamps| == |log| && a in Produced(log, stamps, unitKey, c, name)
    ensures k < |log| && ReadFrom(log[k], stamps[k], unitKey, c, name) == Some(a)
    decreases |log|
  {
    var n := |log| - 1;
    if ReadFrom(log[n], stamps[n], unitKey, c, name) == Some(a) {
      k := n;
    } else {
      k := ProducedFrom(log[..n], stamps[..n], unitKey, c, name, a);
    }
  }

  /** A novel assessment names the first reservation of its unit, channel and stimulus. */
  lemma NovelNamesFirst(e: LogEvent, ts: int, unitKey: string, c: Channel, name: AttemptId -> string, h: Histories,
                        textRef: string -> string)
    requires EventOk(e, h, textRef) && ReadFrom(e, ts, unitKey, c, name).Some?
    requires ReadFrom(e, ts, unitKey, c, name).value.novel
    ensures var a, assessment := e.payload.attempt, ReadFrom(e, ts, unitKey, c, name).value;
            && a.unitKey == unitKey && a.channel == c && a.stimulus == assessment.stimulus
            && assessment.id == name(a) && Novelty(Exposed(h), a) == Some(true)
  {
  }

  /** Two novel assessments of one unit and channel, from two events, differ in stimulus and in identity. */
  lemma NovelEventsDiffer(log: seq<LogEvent>, i: nat, j: nat, ti: int, tj: int, unitKey: string, c: Channel,
                          name: AttemptId -> string, h: Histories, artifacts: set<string>, textRef: string -> string)
    requires ValidHistories(h, artifacts) && ValidLog(log, h, textRef) && Injective(name) && i < j < |log|
    requires ReadFrom(log[i], ti, unitKey, c, name).Some? && ReadFrom(log[j], tj, unitKey, c, name).Some?
    requires ReadFrom(log[i], ti, unitKey, c, name).value.novel && ReadFrom(log[j], tj, unitKey, c, name).value.novel
    ensures ReadFrom(log[i], ti, unitKey, c, name).value.stimulus
                != ReadFrom(log[j], tj, unitKey, c, name).value.stimulus
    ensures ReadFrom(log[i], ti, unitKey, c, name).value.id != ReadFrom(log[j], tj, unitKey, c, name).value.id
  {
    assert log[i] in log && log[j] in log;
    NovelNamesFirst(log[i], ti, unitKey, c, name, h, textRef);
    NovelNamesFirst(log[j], tj, unitKey, c, name, h, textRef);
    var a, b := log[i].payload.attempt, log[j].payload.attempt;
    assert !OneSlot(log[i], log[j]);
    if SameStimulus(a, b) {
      var x, y := IndexOf(Exposed(h), a), IndexOf(Exposed(h), b);
      OnlyTheFirstIsNovel(Exposed(h), x, y);
    }
  }

  predicate NovelApart(xs: seq<M.Assessment>) {
    forall i, j :: 0 <= i < j < |xs| && xs[i].novel && xs[j].novel ==>
                     xs[i].stimulus != xs[j].stimulus && xs[i].id != xs[j].id
  }

  lemma {:induction false} ProducedAreApart(log: seq<LogEvent>, stamps: seq<int>, whole: seq<LogEvent>, unitKey: string,
                                            c: Channel, name: AttemptId -> string, h: Histories, artifacts: set<string>,
                                            textRef: string -> string)
    requires |stamps| == |log| && log <= whole
    requires ValidHistories(h, artifacts) && ValidLog(whole, h, textRef) && Injective(name)
    ensures NovelApart(Produced(log, stamps, unitKey, c, name))
    decreases |log|
  {
    if log != [] {
      var n := |log| - 1;
      var rest := Produced(log[..n], stamps[..n], unitKey, c, name);
      ProducedAreApart(log[..n], stamps[..n], whole, unitKey, c, name, h, artifacts, textRef);
      var last := ReadFrom(log[n], stamps[n], unitKey, c, name);
      if last.Some? {
        forall i | 0 <= i < |rest| && rest[i].novel && last.value.novel
          ensures rest[i].stimulus != last.value.stimulus && rest[i].id != last.value.id
        {
          var k := ProducedFrom(log[..n], stamps[..n], unitKey, c, name, rest[i]);
          assert whole[k] == log[k] && whole[n] == log[n];
          NovelEventsDiffer(whole, k, n, stamps[k], stamps[n], unitKey, c, name, h, artifacts, textRef);
        }
      }
    }
  }

  // -------------------------------------------------------------------------
  // In the order the lifecycle reads them
  // -------------------------------------------------------------------------

  lemma {:induction false} OrderedKeepsMembers(xs: seq<M.Assessment>)
    ensures multiset(M.Ordered(xs)) == multiset(xs)
  {
    if xs != [] {
      OrderedKeepsMembers(xs[..|xs| - 1]);
      M.InsertKeepsMembers(M.Ordered(xs[..|xs| - 1]), xs[|xs| - 1]);
      assert xs == xs[..|xs| - 1] + [xs[|xs| - 1]];
    }
  }

  lemma {:induction false} TwoPlaces(xs: seq<M.Assessment>, x: M.Assessment) returns (i: nat, j: nat)
    requires multiset(xs)[x] >= 2
    ensures i < j < |xs| && xs[i] == x && xs[j] == x
  {
    var init, last := xs[..|xs| - 1], xs[|xs| - 1];
    assert xs == init + [last];
    if last == x {
      assert x in multiset(init);
      i :| 0 <= i < |init| && init[i] == x;
      j := |xs| - 1;
    } else {
      i, j := TwoPlaces(init, x);
    }
  }

  lemma ApartInAnyOrder(xs: seq<M.Assessment>, ys: seq<M.Assessment>)
    requires NovelApart(xs) && multiset(ys) == multiset(xs)
    ensures NovelApart(ys)
  {
    forall i, j | 0 <= i < j < |ys| && ys[i].novel && ys[j].novel
      ensures ys[i].stimulus != ys[j].stimulus && ys[i].id != ys[j].id
    {
      var x, y := ys[i], ys[j];
      if x == y {
        TwiceInMultiset(ys, i, j);
        var k, l := TwoPlaces(xs, x);
      } else {
        assert x in multiset(ys) && y in multiset(ys);
        assert x in xs && y in xs;
        var k :| 0 <= k < |xs| && xs[k] == x;
        var l :| 0 <= l < |xs| && xs[l] == y;
        assert k < l || l < k;
      }
    }
  }

  lemma TwiceInMultiset(xs: seq<M.Assessment>, i: nat, j: nat)
    requires i < j < |xs| && xs[i] == xs[j]
    ensures multiset(xs)[xs[i]] >= 2
  {
    assert xs == xs[..j] + xs[j..];
    assert xs[i] in xs[..j] && xs[j] in xs[j..];
    assert xs[i] in multiset(xs[..j]) && xs[i] in multiset(xs[j..]);
  }

  /**
   * On a produced log the mastery selection never refuses for a repeated identity,
   * and grants mastery exactly when two passes satisfy the rule.
   */
  lemma ProducedMasteryIsExact(log: seq<LogEvent>, stamps: seq<int>, unitKey: string, c: Channel,
                               name: AttemptId -> string,
                               h: Histories, artifacts: set<string>, textRef: string -> string, entry: int)
    requires |stamps| == |log| && ValidHistories(h, artifacts) && ValidLog(log, h, textRef) && Injective(name)
    ensures var xs := M.Ordered(Produced(log, stamps, unitKey, c, name));
            && M.MasterySelection(xs, entry).Ok?
            && (M.MasterySelection(xs, entry).value.Some? <==> exists i: nat, j: nat :: M.MasteryPair(xs, entry, i, j))
  {
    var raw := Produced(log, stamps, unitKey, c, name);
    var xs := M.Ordered(raw);
    ProducedAreApart(log, stamps, log, unitKey, c, name, h, artifacts, textRef);
    OrderedKeepsMembers(raw);
    ApartInAnyOrder(raw, xs);
    M.OrderedIsChronological(raw);
    M.SelectNeverRefuses(xs, entry, 0, M.NO_STREAK, MASTERED_MIN_SESSION_PASSES);
    M.MasteryCompleteOnDistinctStimuli(xs, entry);
  }
}
