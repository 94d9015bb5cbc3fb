/**
 * Assessments of one channel: their order, the mastery selection, and the
 * earliest failure after a state entry.
 */
module Mastery {
  import opened Wrappers
  import opened Lifecycle

  datatype Assessment = Assessment(
    channel: Channel,
    passed: bool,
    id: string,
    stimulus: string,
    novel: bool,
    ts: int)

  datatype DuplicateAssessment = DuplicateAssessment

  // -------------------------------------------------------------------------
  // Order: by instant, equal instants in log order
  // -------------------------------------------------------------------------

  predicate Chronological(xs: seq<Assessment>) {
    forall i, j :: 0 <= i < j < |xs| ==> xs[i].ts <= xs[j].ts
  }

  function Insert(xs: seq<Assessment>, a: Assessment): (out: seq<Assessment>) {
    if xs == [] || xs[|xs| - 1].ts <= a.ts then xs + [a]
    else Insert(xs[..|xs| - 1], a) + [xs[|xs| - 1]]
  }

  function Ordered(xs: seq<Assessment>): (out: seq<Assessment>) {
    if xs == [] then [] else Insert(Ordered(xs[..|xs| - 1]), xs[|xs| - 1])
  }

  lemma {:induction false} InsertKeepsMembers(xs: seq<Assessment>, a: Assessment)
    ensures multiset(Insert(xs, a)) == multiset(xs) + multiset{a}
  {
    if xs == [] || xs[|xs| - 1].ts <= a.ts {
    } else {
      InsertKeepsMembers(xs[..|xs| - 1], a);
      assert xs == xs[..|xs| - 1] + [xs[|xs| - 1]];
    }
  }

  lemma {:induction false} InsertKeepsOrder(xs: seq<Assessment>, a: Assessment)
    requires Chronological(xs)
    ensures Chronological(Insert(xs, a))
  {
    if xs == [] || xs[|xs| - 1].ts <= a.ts {
    } else {
      var init, last := xs[..|xs| - 1], xs[|xs| - 1];
      InsertKeepsOrder(init, a);
      InsertKeepsMembers(init, a);
      var out := Insert(init, a);
      forall k | 0 <= k < |out| ensures out[k].ts <= last.ts {
        assert out[k] in multiset(out);
      }
    }
  }

  lemma {:induction false} OrderedIsChronological(xs: seq<Assessment>)
    ensures Chronological(Ordered(xs))
    ensures multiset(Ordered(xs)) == multiset(xs)
  {
    if xs != [] {
      var init, last := xs[..|xs| - 1], xs[|xs| - 1];
      OrderedIsChronological(init);
      InsertKeepsOrder(Ordered(init), last);
      InsertKeepsMembers(Ordered(init), last);
      assert xs == init + [last];
    }
  }

  lemma {:induction false} OrderedLeavesSorted(xs: seq<Assessment>)
    requires Chronological(xs)
    ensures Ordered(xs) == xs
  {
    if xs != [] {
      OrderedLeavesSorted(xs[..|xs| - 1]);
    }
  }

  lemma OrderedAppends(xs: seq<Assessment>, a: Assessment)
    requires forall x :: x in xs ==> x.ts <= a.ts
    ensures Ordered(xs + [a]) == Ordered(xs) + [a]
  {
    OrderedIsChronological(xs);
    assert (xs + [a])[..|xs|] == xs;
    if Ordered(xs) != [] {
      var last := Ordered(xs)[|Ordered(xs)| - 1];
      assert last in multiset(Ordered(xs));
    }
  }

  // -------------------------------------------------------------------------
  // Mastery selection
  // -------------------------------------------------------------------------

  /** The running selection inside the current failure-free run. */
  datatype Streak = Streak(selected: seq<Assessment>, stimuli: set<string>, ids: set<string>)

  const NO_STREAK := Streak([], {}, {})

  predicate Counts(a: Assessment, entry: int) {
    a.ts > entry && a.novel
  }

  predicate TooSoon(s: Streak, a: Assessment) {
    s.selected != []
    && a.ts - s.selected[|s.selected| - 1].ts < Days(MASTERED_MIN_DELAY_BETWEEN_PASSES_DAYS)
  }

  /** The selection from position `n` on: `k` spaced passes, none, or a refusal. */
  function Select(xs: seq<Assessment>, entry: int, n: nat, s: Streak,
                  k: nat): Result<Option<seq<Assessment>>, DuplicateAssessment>
    requires n <= |xs|
    decreases |xs| - n
  {
    if n == |xs| then Ok(None)
    else
      var a := xs[n];
      if !Counts(a, entry) then Select(xs, entry, n + 1, s, k)
      else if a.id in s.ids then Err(DuplicateAssessment)
      else if !a.passed then Select(xs, entry, n + 1, NO_STREAK, k)
      else
        var seen := s.(ids := s.ids + {a.id});
        if a.stimulus in s.stimuli || TooSoon(s, a) then Select(xs, entry, n + 1, seen, k)
        else
          var grown := seen.(selected := s.selected + [a], stimuli := s.stimuli + {a.stimulus});
          if |grown.selected| == k then Ok(Some(grown.selected))
          else Select(xs, entry, n + 1, grown, k)
  }

  function MasterySelection(xs: seq<Assessment>, entry: int): Result<Option<seq<Assessment>>, DuplicateAssessment> {
    Select(xs, entry, 0, NO_STREAK, MASTERED_MIN_SESSION_PASSES)
  }

  function Quoted(selected: seq<Assessment>): Evidence
    requires selected != []
  {
    PassesSelected(
      seq(|selected|, i requires 0 <= i < |selected| => selected[i].id),
      seq(|selected|, i requires 0 <= i < |selected| => selected[i].stimulus),
      selected[|selected| - 1].id)
  }

  function MasteryEvidence(xs: seq<Assessment>, entry: int): Result<Option<Evidence>, DuplicateAssessment> {
    match MasterySelection(xs, entry)
    case Err(e) => Err(e)
    case Ok(None) => Ok(None)
    case Ok(Some(selected)) => if selected == [] then Ok(None) else Ok(Some(Quoted(selected)))
  }

  /** The scan as the reconciler runs it. */
  method FindMasteryEvidence(xs: seq<Assessment>, entry: int)
    returns (r: Result<Option<Evidence>, DuplicateAssessment>)
    ensures r == MasteryEvidence(xs, entry)
  {
    var selected: seq<Assessment> := [];
    var stimuli: set<string> := {};
    var ids: set<string> := {};
    for n := 0 to |xs|
      invariant MasterySelection(xs, entry)
             == Select(xs, entry, n, Streak(selected, stimuli, ids), MASTERED_MIN_SESSION_PASSES)
    {
      var a := xs[n];
      if a.ts <= entry || !a.novel {
        continue;
      }
      if a.id in ids {
        return Err(DuplicateAssessment);
      }
      ids := ids + {a.id};
      if !a.passed {
        selected, stimuli, ids := [], {}, {};
        continue;
      }
      if a.stimulus in stimuli {
        continue;
      }
      if selected != [] && a.ts - selected[|selected| - 1].ts < Days(MASTERED_MIN_DELAY_BETWEEN_PASSES_DAYS) {
        continue;
      }
      selected := selected + [a];
      stimuli := stimuli + {a.stimulus};
      if |selected| == MASTERED_MIN_SESSION_PASSES {
        return Ok(Some(Quoted(selected)));
      }
    }
    r := Ok(None);
  }

  // -------------------------------------------------------------------------
  // What the selection means
  // -------------------------------------------------------------------------

  predicate CountedPass(xs: seq<Assessment>, entry: int, i: nat) {
    i < |xs| && Counts(xs[i], entry) && xs[i].passed
  }

  predicate CountedFailure(xs: seq<Assessment>, entry: int, i: nat) {
    i < |xs| && Counts(xs[i], entry) && !xs[i].passed
  }

  /** No counted failure strictly between the two positions. */
  ghost predicate SameRun(xs: seq<Assessment>, entry: int, i: nat, j: nat) {
    forall k: nat :: i < k < j ==> !CountedFailure(xs, entry, k)
  }

  /** Two counted passes of one run that satisfy the mastery rule. */
  ghost predicate MasteryPair(xs: seq<Assessment>, entry: int, i: nat, j: nat) {
    && i < j
    && CountedPass(xs, entry, i)
    && CountedPass(xs, entry, j)
    && SameRun(xs, entry, i, j)
    && xs[i].stimulus != xs[j].stimulus
    && xs[j].ts - xs[i].ts >= Days(MASTERED_MIN_DELAY_BETWEEN_PASSES_DAYS)
  }

  /** `i` is the first counted pass of its run. */
  ghost predicate OpensRun(xs: seq<Assessment>, entry: int, i: nat) {
    && CountedPass(xs, entry, i)
    && forall k: nat :: k < i && CountedPass(xs, entry, k) ==> !SameRun(xs, entry, k, i)
  }

  /** A mastery pair whose first member opens the run. */
  ghost predicate AnchoredPair(xs: seq<Assessment>, entry: int, i: nat, j: nat) {
    MasteryPair(xs, entry, i, j) && OpensRun(xs, entry, i)
  }

  /** The streak is exactly the opening pass of the run that reaches position `n`. */
  ghost predicate StreakAt(xs: seq<Assessment>, entry: int, n: nat, s: Streak) {
    && n <= |xs|
    && |s.selected| <= 1
    && s.stimuli == (set a | a in s.selected :: a.stimulus)
    && (s.selected == [] ==> forall k: nat :: k < n && CountedPass(xs, entry, k) ==> !SameRun(xs, entry, k, n))
    && (s.selected != [] ==>
          exists i: nat :: i < n && OpensRun(xs, entry, i) && SameRun(xs, entry, i, n) && s.selected == [xs[i]])
    && forall i: nat, j: nat :: j < n ==> !AnchoredPair(xs, entry, i, j)
  }

  /** In one run only one pass opens it. */
  lemma OneOpener(xs: seq<Assessment>, entry: int, i: nat, i': nat, n: nat)
    requires i < n && i' < n
    requires OpensRun(xs, entry, i) && SameRun(xs, entry, i, n)
    requires OpensRun(xs, entry, i') && SameRun(xs, entry, i', n)
    ensures i == i'
  {
    if i < i' {
      assert SameRun(xs, entry, i, i');
    } else if i' < i {
      assert SameRun(xs, entry, i', i);
    }
  }

  lemma PassedOver(xs: seq<Assessment>, entry: int, n: nat, s: Streak, s': Streak)
    requires n < |xs| && StreakAt(xs, entry, n, s)
    requires s'.selected == s.selected && s'.stimuli == s.stimuli
    requires !CountedFailure(xs, entry, n)
    requires CountedPass(xs, entry, n) ==> s.selected != []
    requires forall i: nat :: !AnchoredPair(xs, entry, i, n)
    ensures StreakAt(xs, entry, n + 1, s')
  {
    forall k: nat | k < n ensures SameRun(xs, entry, k, n + 1) <==> SameRun(xs, entry, k, n) {
    }
    if s.selected == [] {
      forall k: nat | k < n + 1 && CountedPass(xs, entry, k) ensures !SameRun(xs, entry, k, n + 1) {
        assert k < n;
      }
    } else {
      var i: nat :| i < n && OpensRun(xs, entry, i) && SameRun(xs, entry, i, n) && s.selected == [xs[i]];
      assert SameRun(xs, entry, i, n + 1);
    }
  }

  lemma RunBroken(xs: seq<Assessment>, entry: int, n: nat, s: Streak)
    requires n < |xs| && StreakAt(xs, entry, n, s)
    requires CountedFailure(xs, entry, n)
    ensures StreakAt(xs, entry, n + 1, NO_STREAK)
  {
    forall k: nat | k < n + 1 && CountedPass(xs, entry, k) ensures !SameRun(xs, entry, k, n + 1) {
      assert k < n < n + 1 && CountedFailure(xs, entry, n);
    }
  }

  lemma RunOpened(xs: seq<Assessment>, entry: int, n: nat, s: Streak, s': Streak)
    requires n < |xs| && StreakAt(xs, entry, n, s)
    requires CountedPass(xs, entry, n) && s.selected == []
    requires s'.selected == [xs[n]] && s'.stimuli == {xs[n].stimulus}
    ensures StreakAt(xs, entry, n + 1, s')
  {
    assert OpensRun(xs, entry, n);
    assert SameRun(xs, entry, n, n + 1);
  }

  /** The least end an anchored pair can have, counted from position `n`. */
  ghost predicate Decides(xs: seq<Assessment>, entry: int, selected: seq<Assessment>) {
    exists i: nat, j: nat ::
      && AnchoredPair(xs, entry, i, j)
      && selected == [xs[i], xs[j]]
      && forall i': nat, j': nat :: j' < j ==> !AnchoredPair(xs, entry, i', j')
  }

  /** What a selection says about the pairs there are. */
  ghost predicate Means(xs: seq<Assessment>, entry: int, r: Result<Option<seq<Assessment>>, DuplicateAssessment>) {
    r.Ok? ==>
      && (r.value.None? ==> forall i: nat, j: nat :: !AnchoredPair(xs, entry, i, j))
      && (r.value.Some? ==> Decides(xs, entry, r.value.value))
  }

  /** A counted pass with no run open opens one. */
  lemma OpenRun(xs: seq<Assessment>, entry: int, n: nat, s: Streak) returns (grown: Streak)
    requires n < |xs| && StreakAt(xs, entry, n, s) && s.selected == []
    requires Counts(xs[n], entry) && xs[n].id !in s.ids && xs[n].passed
    ensures StreakAt(xs, entry, n + 1, grown)
    ensures Select(xs, entry, n, s, MASTERED_MIN_SESSION_PASSES)
         == Select(xs, entry, n + 1, grown, MASTERED_MIN_SESSION_PASSES)
  {
    var a := xs[n];
    assert s.stimuli == {};
    grown := Streak(s.selected + [a], s.stimuli + {a.stimulus}, s.ids + {a.id});
    RunOpened(xs, entry, n, s, grown);
  }

  /** One assessment further: the selection is decided, or goes on with another streak. */
  lemma SelectStep(xs: seq<Assessment>, entry: int, n: nat, s: Streak) returns (next: Option<Streak>)
    requires n < |xs| && StreakAt(xs, entry, n, s)
    ensures next.Some? ==>
              && StreakAt(xs, entry, n + 1, next.value)
              && Select(xs, entry, n, s, MASTERED_MIN_SESSION_PASSES)
              == Select(xs, entry, n + 1, next.value, MASTERED_MIN_SESSION_PASSES)
    ensures next.None? ==> Means(xs, entry, Select(xs, entry, n, s, MASTERED_MIN_SESSION_PASSES))
  {
    var a := xs[n];
    if !Counts(a, entry) {
      PassedOver(xs, entry, n, s, s);
      next := Some(s);
    } else if a.id in s.ids {
      next := None;
    } else if !a.passed {
      RunBroken(xs, entry, n, s);
      next := Some(NO_STREAK);
    } else if s.selected == [] {
      var grown := OpenRun(xs, entry, n, s);
      next := Some(grown);
    } else {
      SelectWithAnchor(xs, entry, n, s);
      if a.stimulus in s.stimuli || TooSoon(s, a) {
        var seen := s.(ids := s.ids + {a.id});
        PassedOver(xs, entry, n, s, seen);
        next := Some(seen);
      } else {
        next := None;
      }
    }
  }

  lemma {:induction false} SelectMeaning(xs: seq<Assessment>, entry: int, n: nat, s: Streak)
    requires StreakAt(xs, entry, n, s)
    ensures Means(xs, entry, Select(xs, entry, n, s, MASTERED_MIN_SESSION_PASSES))
    decreases |xs| - n
  {
    if n == |xs| {
      NothingSelected(xs, entry, s);
      assert Select(xs, entry, n, s, MASTERED_MIN_SESSION_PASSES) == Ok(None);
    } else {
      var next := SelectStep(xs, entry, n, s);
      if next.Some? {
        SelectMeaning(xs, entry, n + 1, next.value);
        SameMeaning(xs, entry, Select(xs, entry, n + 1, next.value, MASTERED_MIN_SESSION_PASSES),
                    Select(xs, entry, n, s, MASTERED_MIN_SESSION_PASSES));
      }
    }
  }

  lemma SameMeaning(xs: seq<Assessment>, entry: int, r: Result<Option<seq<Assessment>>, DuplicateAssessment>,
                    r': Result<Option<seq<Assessment>>, DuplicateAssessment>)
    requires Means(xs, entry, r) && r == r'
    ensures Means(xs, entry, r')
  {
  }

  lemma NothingSelected(xs: seq<Assessment>, entry: int, s: Streak)
    requires StreakAt(xs, entry, |xs|, s)
    ensures Means(xs, entry, Ok(None))
  {
    forall i: nat, j: nat ensures !AnchoredPair(xs, entry, i, j) {
      if j < |xs| {
        assert !AnchoredPair(xs, entry, i, j);
      }
    }
  }

  /** With an open run, position `n` completes a pair exactly when the code says so. */
  lemma SelectWithAnchor(xs: seq<Assessment>, entry: int, n: nat, s: Streak)
    requires n < |xs| && StreakAt(xs, entry, n, s)
    requires CountedPass(xs, entry, n) && s.selected != []
    ensures xs[n].stimulus in s.stimuli || TooSoon(s, xs[n]) ==> forall i: nat :: !AnchoredPair(xs, entry, i, n)
    ensures !(xs[n].stimulus in s.stimuli || TooSoon(s, xs[n])) ==> Decides(xs, entry, s.selected + [xs[n]])
  {
    var i: nat :| i < n && OpensRun(xs, entry, i) && SameRun(xs, entry, i, n) && s.selected == [xs[i]];
    assert s.stimuli == {xs[i].stimulus} by {
      assert forall a :: a in s.selected <==> a == xs[i];
    }
    forall i': nat | AnchoredPair(xs, entry, i', n) ensures i' == i {
      OneOpener(xs, entry, i, i', n);
    }
    if !(xs[n].stimulus in s.stimuli || TooSoon(s, xs[n])) {
      assert AnchoredPair(xs, entry, i, n);
    }
  }

  /**
   * Exactly when mastery is granted: some counted pass at least seven days
   * after the pass that opened its failure-free run, on another stimulus. The
   * earliest such pass is the decisive one.
   */
  lemma MasteryExactly(xs: seq<Assessment>, entry: int)
    requires MasterySelection(xs, entry).Ok?
    ensures MasterySelection(xs, entry).value.Some? <==> exists i: nat, j: nat :: AnchoredPair(xs, entry, i, j)
    ensures MasterySelection(xs, entry).value.Some? ==> Decides(xs, entry, MasterySelection(xs, entry).value.value)
  {
    SelectMeaning(xs, entry, 0, NO_STREAK);
  }

  /** Whatever is granted satisfies the documented rule. */
  lemma MasterySound(xs: seq<Assessment>, entry: int) returns (i: nat, j: nat)
    requires MasterySelection(xs, entry).Ok? && MasterySelection(xs, entry).value.Some?
    ensures MasteryPair(xs, entry, i, j)
    ensures MasteryEvidence(xs, entry)
         == Ok(Some(PassesSelected([xs[i].id, xs[j].id], [xs[i].stimulus, xs[j].stimulus], xs[j].id)))
  {
    MasteryExactly(xs, entry);
    i, j :| AnchoredPair(xs, entry, i, j) && MasterySelection(xs, entry).value.value == [xs[i], xs[j]];
    var q := Quoted([xs[i], xs[j]]);
    assert q.assessmentIds == [xs[i].id, xs[j].id];
    assert q.stimuli == [xs[i].stimulus, xs[j].stimulus];
  }

  /** Counted assessments show pairwise distinct stimuli. */
  ghost predicate DistinctStimuli(xs: seq<Assessment>, entry: int) {
    forall i, j :: 0 <= i < j < |xs| && Counts(xs[i], entry) && Counts(xs[j], entry) ==>
                     xs[i].stimulus != xs[j].stimulus
  }

  /** Counted assessments carry pairwise distinct ids. */
  ghost predicate DistinctAssessments(xs: seq<Assessment>, entry: int) {
    forall i, j :: 0 <= i < j < |xs| && Counts(xs[i], entry) && Counts(xs[j], entry) ==> xs[i].id != xs[j].id
  }

  /** The opener of the run that a counted pass belongs to. */
  lemma {:induction false} RunHasOpener(xs: seq<Assessment>, entry: int, i: nat, n: nat) returns (o: nat)
    requires i < n && CountedPass(xs, entry, i) && SameRun(xs, entry, i, n)
    ensures o <= i && OpensRun(xs, entry, o) && SameRun(xs, entry, o, n)
  {
    if OpensRun(xs, entry, i) {
      o := i;
    } else {
      var k: nat :| k < i && CountedPass(xs, entry, k) && SameRun(xs, entry, k, i);
      assert SameRun(xs, entry, k, n);
      o := RunHasOpener(xs, entry, k, n);
    }
  }

  /**
   * The selection is greedy, so it can miss a pair in general; with pairwise
   * distinct stimuli it grants mastery exactly when any rule-satisfying pair exists.
   */
  lemma MasteryCompleteOnDistinctStimuli(xs: seq<Assessment>, entry: int)
    requires Chronological(xs) && DistinctStimuli(xs, entry)
    requires MasterySelection(xs, entry).Ok?
    ensures MasterySelection(xs, entry).value.Some? <==> exists i: nat, j: nat :: MasteryPair(xs, entry, i, j)
  {
    MasteryExactly(xs, entry);
    if MasterySelection(xs, entry).value.Some? {
      var i: nat, j: nat :| AnchoredPair(xs, entry, i, j);
      assert MasteryPair(xs, entry, i, j);
    }
    forall i: nat, j: nat | MasteryPair(xs, entry, i, j)
      ensures exists o: nat :: AnchoredPair(xs, entry, o, j)
    {
      var o := RunHasOpener(xs, entry, i, j);
      assert xs[o].ts <= xs[i].ts;
      assert AnchoredPair(xs, entry, o, j);
    }
  }

  /** A repeated stimulus can hide a valid pair behind the pass that opened the run. */
  lemma RepeatedStimulusHidesAPair()
    ensures var day := Days(1);
            var xs := [Assessment(R, true, "1", "A", true, day),
                       Assessment(R, true, "2", "B", true, 2 * day),
                       Assessment(R, true, "3", "A", true, 9 * day)];
            && MasteryPair(xs, 0, 1, 2)
            && MasterySelection(xs, 0) == Ok(None)
  {
    var day := Days(1);
    var xs := [Assessment(R, true, "1", "A", true, day),
               Assessment(R, true, "2", "B", true, 2 * day),
               Assessment(R, true, "3", "A", true, 9 * day)];
    var s1 := Streak([xs[0]], {"A"}, {"1"});
    assert NO_STREAK.selected + [xs[0]] == [xs[0]];
    assert Select(xs, 0, 3, Streak([xs[0]], {"A"}, {"1", "2", "3"}), MASTERED_MIN_SESSION_PASSES) == Ok(None);
    assert {"1"} + {"2"} + {"3"} == {"1", "2", "3"};
    assert Select(xs, 0, 2, Streak([xs[0]], {"A"}, {"1"} + {"2"}), MASTERED_MIN_SESSION_PASSES) == Ok(None);
    assert Select(xs, 0, 1, s1, MASTERED_MIN_SESSION_PASSES) == Ok(None);
    assert {} + {"A"} == {"A"} && {} + {"1"} == {"1"};
  }

  /** The refusal never fires when counted assessments have distinct ids. */
  lemma {:induction false} SelectNeverRefuses(xs: seq<Assessment>, entry: int, n: nat, s: Streak, k: nat)
    requires n <= |xs| && DistinctAssessments(xs, entry)
    requires forall id :: id in s.ids ==> exists i :: 0 <= i < n && Counts(xs[i], entry) && xs[i].id == id
    ensures Select(xs, entry, n, s, k).Ok?
    decreases |xs| - n
  {
    if n < |xs| && Counts(xs[n], entry) {
      var a := xs[n];
      var seen := s.(ids := s.ids + {a.id});
      SelectNeverRefuses(xs, entry, n + 1, NO_STREAK, k);
      SelectNeverRefuses(xs, entry, n + 1, seen, k);
      SelectNeverRefuses(xs, entry, n + 1,
                         seen.(selected := s.selected + [a], stimuli := s.stimuli + {a.stimulus}), k);
    } else if n < |xs| {
      SelectNeverRefuses(xs, entry, n + 1, s, k);
    }
  }

  /** Later assessments never change a selection that was already made. */
  lemma {:induction false} SelectionIsFinal(xs: seq<Assessment>, a: Assessment, entry: int, n: nat, s: Streak, k: nat)
    requires n <= |xs|
    requires Select(xs, entry, n, s, k).Ok? && Select(xs, entry, n, s, k).value.Some?
    ensures Select(xs + [a], entry, n, s, k) == Select(xs, entry, n, s, k)
    decreases |xs| - n
  {
    var b := xs[n];
    assert (xs + [a])[n] == b;
    if !Counts(b, entry) {
      SelectionIsFinal(xs, a, entry, n + 1, s, k);
    } else if !b.passed {
      SelectionIsFinal(xs, a, entry, n + 1, NO_STREAK, k);
    } else {
      var seen := s.(ids := s.ids + {b.id});
      if b.stimulus in s.stimuli || TooSoon(s, b) {
        SelectionIsFinal(xs, a, entry, n + 1, seen, k);
      } else {
        var grown := seen.(selected := s.selected + [b], stimuli := s.stimuli + {b.stimulus});
        if |grown.selected| != k {
          SelectionIsFinal(xs, a, entry, n + 1, grown, k);
        }
      }
    }
  }

  // -------------------------------------------------------------------------
  // Earliest failure
  // -------------------------------------------------------------------------

  function EarliestFailure(xs: seq<Assessment>, entry: int): Option<Assessment> {
    if xs == [] then None
    else if Counts(xs[0], entry) && !xs[0].passed then Some(xs[0])
    else EarliestFailure(xs[1..], entry)
  }

  lemma {:induction false} EarliestFailureAppends(xs: seq<Assessment>, a: Assessment, entry: int)
    requires EarliestFailure(xs, entry).Some?
    ensures EarliestFailure(xs + [a], entry) == EarliestFailure(xs, entry)
  {
    if !(Counts(xs[0], entry) && !xs[0].passed) {
      assert (xs + [a])[1..] == xs[1..] + [a];
      EarliestFailureAppends(xs[1..], a, entry);
    }
  }

  lemma {:induction false} EarliestFailureMeaning(xs: seq<Assessment>, entry: int)
    requires Chronological(xs)
    ensures var f := EarliestFailure(xs, entry);
            && (f.Some? <==> exists a :: a in xs && Counts(a, entry) && !a.passed)
            && (f.Some? ==> f.value in xs && Counts(f.value, entry) && !f.value.passed)
            && (f.Some? ==> forall a :: a in xs && Counts(a, entry) && !a.passed ==> f.value.ts <= a.ts)
  {
    if xs != [] {
      assert xs == [xs[0]] + xs[1..];
      if Counts(xs[0], entry) && !xs[0].passed {
        assert xs[0] in xs;
        forall a | a in xs ensures xs[0].ts <= a.ts {
          var k :| 0 <= k < |xs| && xs[k] == a;
        }
      } else {
        EarliestFailureMeaning(xs[1..], entry);
      }
    }
  }
}
