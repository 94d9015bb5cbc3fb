/**
 * The mastery selection for any number of passes: what it selects is a chain of
 * spaced passes of one failure-free run, and on distinct stimuli it selects one
 * whenever there is one.
 */
module MasteryChain {
  import opened Wrappers
  import opened Lifecycle
  import opened Mastery

  // -------------------------------------------------------------------------
  // Chains
  // -------------------------------------------------------------------------

  predicate Spaced(xs: seq<Assessment>, i: nat, j: nat) {
    i < |xs| && j < |xs| && xs[j].ts - xs[i].ts >= Days(MASTERED_MIN_DELAY_BETWEEN_PASSES_DAYS)
  }

  /** Counted passes at these positions, in order, neighbours at least seven days apart. */
  predicate Passes(xs: seq<Assessment>, entry: int, chain: seq<nat>) {
    && (forall j :: 0 <= j < |chain| ==> CountedPass(xs, entry, chain[j]))
    && (forall i, j :: 0 <= i < j < |chain| ==> chain[i] < chain[j])
    && (forall j :: 0 < j < |chain| ==> Spaced(xs, chain[j - 1], chain[j]))
  }

  /** Up to position `n` no failure comes behind the chain's first pass. */
  ghost predicate OpenAt(xs: seq<Assessment>, entry: int, chain: seq<nat>, n: nat) {
    && (forall j :: 0 <= j < |chain| ==> chain[j] < n)
    && (chain != [] ==> SameRun(xs, entry, chain[0], n))
  }

  predicate OtherStimuli(xs: seq<Assessment>, chain: seq<nat>)
    requires forall j :: 0 <= j < |chain| ==> chain[j] < |xs|
  {
    forall i, j :: 0 <= i < j < |chain| ==> xs[chain[i]].stimulus != xs[chain[j]].stimulus
  }

  /** What mastery asks for: so many spaced passes of one run, all on different stimuli. */
  ghost predicate Chain(xs: seq<Assessment>, entry: int, chain: seq<nat>) {
    && Passes(xs, entry, chain) && OtherStimuli(xs, chain)
    && (chain != [] ==> SameRun(xs, entry, chain[0], chain[|chain| - 1]))
  }

  function Picked(xs: seq<Assessment>, chain: seq<nat>): (picked: seq<Assessment>)
    requires forall j :: 0 <= j < |chain| ==> chain[j] < |xs|
    ensures |picked| == |chain| && forall j :: 0 <= j < |chain| ==> picked[j] == xs[chain[j]]
  {
    seq(|chain|, j requires 0 <= j < |chain| => xs[chain[j]])
  }

  // -------------------------------------------------------------------------
  // What is selected
  // -------------------------------------------------------------------------

  /** The running selection is the chain at these positions. */
  ghost predicate Follows(xs: seq<Assessment>, entry: int, n: nat, s: Streak, chain: seq<nat>) {
    && n <= |xs| && Passes(xs, entry, chain) && OtherStimuli(xs, chain) && OpenAt(xs, entry, chain, n)
    && s.selected == Picked(xs, chain)
    && forall x :: x in s.stimuli <==> exists j :: 0 <= j < |chain| && xs[chain[j]].stimulus == x
  }

  lemma Later(xs: seq<Assessment>, entry: int, n: nat, s: Streak, s': Streak, chain: seq<nat>)
    requires n < |xs| && Follows(xs, entry, n, s, chain) && !CountedFailure(xs, entry, n)
    requires s'.selected == s.selected && s'.stimuli == s.stimuli
    ensures Follows(xs, entry, n + 1, s', chain)
  {
  }

  lemma LongerChain(xs: seq<Assessment>, entry: int, n: nat, chain: seq<nat>)
    requires n < |xs| && Passes(xs, entry, chain) && OtherStimuli(xs, chain) && OpenAt(xs, entry, chain, n)
    requires CountedPass(xs, entry, n) && (chain != [] ==> Spaced(xs, chain[|chain| - 1], n))
    requires forall j :: 0 <= j < |chain| ==> xs[chain[j]].stimulus != xs[n].stimulus
    ensures Passes(xs, entry, chain + [n]) && OtherStimuli(xs, chain + [n]) && OpenAt(xs, entry, chain + [n], n + 1)
  {
    var longer := chain + [n];
    forall j | 0 < j < |longer| ensures Spaced(xs, longer[j - 1], longer[j]) {
      assert j == |chain| || Spaced(xs, chain[j - 1], chain[j]);
    }
  }

  lemma StimuliGrow(xs: seq<Assessment>, n: nat, stimuli: set<string>, chain: seq<nat>)
    requires n < |xs| && forall j :: 0 <= j < |chain| ==> chain[j] < |xs|
    requires forall x :: x in stimuli <==> exists j :: 0 <= j < |chain| && xs[chain[j]].stimulus == x
    ensures var longer := chain + [n];
            forall x :: x in stimuli + {xs[n].stimulus} <==>
                        exists j :: 0 <= j < |longer| && xs[longer[j]].stimulus == x
  {
    var longer := chain + [n];
    forall x | x in stimuli + {xs[n].stimulus} ensures exists j :: 0 <= j < |longer| && xs[longer[j]].stimulus == x {
      if x in stimuli {
        var j :| 0 <= j < |chain| && xs[chain[j]].stimulus == x;
        assert longer[j] == chain[j];
      } else {
        assert longer[|chain|] == n;
      }
    }
  }

  lemma Extended(xs: seq<Assessment>, entry: int, n: nat, s: Streak, s': Streak, chain: seq<nat>)
    requires n < |xs| && Follows(xs, entry, n, s, chain) && CountedPass(xs, entry, n)
    requires xs[n].stimulus !in s.stimuli && !TooSoon(s, xs[n])
    requires s'.selected == s.selected + [xs[n]] && s'.stimuli == s.stimuli + {xs[n].stimulus}
    ensures Follows(xs, entry, n + 1, s', chain + [n])
  {
    LongerChain(xs, entry, n, chain);
    StimuliGrow(xs, n, s.stimuli, chain);
    assert s'.selected == Picked(xs, chain + [n]);
  }

  lemma NothingFollowsYet(xs: seq<Assessment>, entry: int, n: nat)
    requires n <= |xs|
    ensures Follows(xs, entry, n, NO_STREAK, [])
  {
  }

  /** The selection is the chain, and its last pass is the one at position `n`. */
  ghost predicate Made(xs: seq<Assessment>, entry: int, n: nat, k: nat, selected: seq<Assessment>, chain: seq<nat>) {
    Chain(xs, entry, chain) && 0 < |chain| == k && chain[k - 1] == n && selected == Picked(xs, chain)
  }

  /** One assessment further: the selection is made, refused, or goes on with another chain. */
  lemma ChainStep(xs: seq<Assessment>, entry: int, n: nat, s: Streak, k: nat, chain: seq<nat>)
    returns (next: Option<Streak>, chain': seq<nat>)
    requires n < |xs| && Follows(xs, entry, n, s, chain)
    ensures next.Some? ==>
              && Follows(xs, entry, n + 1, next.value, chain')
              && (xs[n].stimulus !in s.stimuli || !Counts(xs[n], entry) ==>
                    next.value.selected == AfterPosition(xs, entry, n, s))
              && Select(xs, entry, n, s, k) == Select(xs, entry, n + 1, next.value, k)
              && (|s.selected| < k ==> |next.value.selected| < k)
    ensures next.None? && Select(xs, entry, n, s, k).Ok? ==>
              && Select(xs, entry, n, s, k).value.Some?
              && Made(xs, entry, n, k, Select(xs, entry, n, s, k).value.value, chain')
  {
    var a := xs[n];
    var seen := s.(ids := s.ids + {a.id});
    if !Counts(a, entry) {
      Later(xs, entry, n, s, s, chain);
      next, chain' := Some(s), chain;
    } else if a.id in s.ids {
      next, chain' := None, chain;
    } else if !a.passed {
      NothingFollowsYet(xs, entry, n + 1);
      next, chain' := Some(NO_STREAK), [];
    } else if a.stimulus in s.stimuli || TooSoon(s, a) {
      Later(xs, entry, n, s, seen, chain);
      next, chain' := Some(seen), chain;
    } else {
      var grown := seen.(selected := s.selected + [a], stimuli := s.stimuli + {a.stimulus});
      Extended(xs, entry, n, s, grown, chain);
      chain' := chain + [n];
      next := if |grown.selected| == k then None else Some(grown);
    }
  }

  /** Whatever is selected is a chain of `k` passes, and quotes them in order. */
  lemma {:induction false} SelectIsChain(xs: seq<Assessment>, entry: int, n: nat, s: Streak, k: nat, chain: seq<nat>)
    returns (found: seq<nat>, last: nat)
    requires Follows(xs, entry, n, s, chain)
    requires Select(xs, entry, n, s, k).Ok? && Select(xs, entry, n, s, k).value.Some?
    ensures Made(xs, entry, last, k, Select(xs, entry, n, s, k).value.value, found)
    decreases |xs| - n
  {
    var next, chain' := ChainStep(xs, entry, n, s, k, chain);
    if next.Some? {
      found, last := SelectIsChain(xs, entry, n + 1, next.value, k, chain');
    } else {
      found, last := chain', n;
    }
  }

  // -------------------------------------------------------------------------
  // What is not missed
  // -------------------------------------------------------------------------

  /** Every chain that is still open ends no earlier than as many selected passes. */
  ghost predicate Ahead(xs: seq<Assessment>, entry: int, n: nat, s: Streak) {
    forall chain :: Passes(xs, entry, chain) && OpenAt(xs, entry, chain, n) ==> AheadOf(xs, s, chain)
  }

  predicate AheadOf(xs: seq<Assessment>, s: Streak, chain: seq<nat>) {
    && |chain| <= |s.selected|
    && (chain != [] ==> chain[|chain| - 1] < |xs| && s.selected[|chain| - 1].ts <= xs[chain[|chain| - 1]].ts)
  }

  /** No chain of `k` passes ends before position `n`. */
  ghost predicate NoneYet(xs: seq<Assessment>, entry: int, n: nat, k: nat) {
    forall chain :: Chain(xs, entry, chain) && |chain| == k && chain != [] ==> chain[k - 1] >= n
  }

  /** The chain without its last pass. */
  lemma Shorter(xs: seq<Assessment>, entry: int, chain: seq<nat>, n: nat)
    requires Passes(xs, entry, chain) && chain != [] && OpenAt(xs, entry, chain, n + 1) && chain[|chain| - 1] == n
    ensures Passes(xs, entry, chain[..|chain| - 1]) && OpenAt(xs, entry, chain[..|chain| - 1], n)
    ensures |chain| > 1 ==> Spaced(xs, chain[|chain| - 2], n)
  {
    var init := chain[..|chain| - 1];
    forall j | 0 < j < |init| ensures Spaced(xs, init[j - 1], init[j]) {
      assert Spaced(xs, chain[j - 1], chain[j]);
    }
    if |chain| > 1 {
      assert Spaced(xs, chain[|chain| - 2], chain[|chain| - 1]);
    }
  }

  /** A chain that is open behind position `n` was open before it, or ends there. */
  lemma StillOpen(xs: seq<Assessment>, entry: int, chain: seq<nat>, n: nat)
    requires Passes(xs, entry, chain) && OpenAt(xs, entry, chain, n + 1)
    ensures chain == [] || chain[|chain| - 1] == n || OpenAt(xs, entry, chain, n)
    ensures chain != [] ==> CountedPass(xs, entry, chain[|chain| - 1])
  {
  }

  lemma AheadWithoutPass(xs: seq<Assessment>, entry: int, n: nat, s: Streak, s': Streak)
    requires n < |xs| && Ahead(xs, entry, n, s) && !CountedPass(xs, entry, n) && s'.selected == s.selected
    ensures Ahead(xs, entry, n + 1, s')
  {
    forall chain | Passes(xs, entry, chain) && OpenAt(xs, entry, chain, n + 1) ensures AheadOf(xs, s', chain) {
      StillOpen(xs, entry, chain, n);
      assert AheadOf(xs, s, chain);
    }
  }

  lemma OpenMeansNoFailure(xs: seq<Assessment>, entry: int, chain: seq<nat>, n: nat)
    requires Passes(xs, entry, chain) && OpenAt(xs, entry, chain, n + 1)
    ensures chain != [] ==> !CountedFailure(xs, entry, n)
  {
    if chain != [] {
      assert CountedPass(xs, entry, chain[0]);
    }
  }

  lemma AheadAfterFailure(xs: seq<Assessment>, entry: int, n: nat)
    requires n < |xs| && CountedFailure(xs, entry, n)
    ensures Ahead(xs, entry, n + 1, NO_STREAK)
  {
    forall chain | Passes(xs, entry, chain) && OpenAt(xs, entry, chain, n + 1) ensures chain == [] {
      OpenMeansNoFailure(xs, entry, chain, n);
    }
  }

  lemma AheadAfterPass(xs: seq<Assessment>, entry: int, n: nat, s: Streak, s': Streak, chain: seq<nat>)
    requires n < |xs| && Chronological(xs) && Ahead(xs, entry, n, s) && Follows(xs, entry, n, s, chain)
    requires if TooSoon(s, xs[n]) then s'.selected == s.selected else s'.selected == s.selected + [xs[n]]
    ensures Ahead(xs, entry, n + 1, s')
  {
    forall other | Passes(xs, entry, other) && OpenAt(xs, entry, other, n + 1) ensures AheadOf(xs, s', other) {
      StillOpen(xs, entry, other, n);
      if other != [] && other[|other| - 1] == n {
        Shorter(xs, entry, other, n);
        AheadAtEnd(xs, entry, n, s, s', chain, other);
      } else {
        assert OpenAt(xs, entry, other, n);
        assert AheadOf(xs, s, other);
      }
    }
  }

  /** A chain that ends at position `n` is behind the selection too. */
  lemma AheadAtEnd(xs: seq<Assessment>, entry: int, n: nat, s: Streak, s': Streak, chain: seq<nat>, other: seq<nat>)
    requires n < |xs| && Chronological(xs) && Ahead(xs, entry, n, s) && Follows(xs, entry, n, s, chain)
    requires if TooSoon(s, xs[n]) then s'.selected == s.selected else s'.selected == s.selected + [xs[n]]
    requires other != [] && other[|other| - 1] == n
    requires Passes(xs, entry, other[..|other| - 1]) && OpenAt(xs, entry, other[..|other| - 1], n)
    requires |other| > 1 ==> Spaced(xs, other[|other| - 2], n)
    ensures AheadOf(xs, s', other)
  {
    var init := other[..|other| - 1];
    assert AheadOf(xs, s, init);
    if init != [] {
      assert init[|init| - 1] == other[|other| - 2];
    }
    if |init| < |s.selected| {
      assert s.selected[|init|] == xs[chain[|init|]] && chain[|init|] < n;
    }
  }

  lemma FreshStimulus(xs: seq<Assessment>, entry: int, n: nat, s: Streak, chain: seq<nat>)
    requires n < |xs| && DistinctStimuli(xs, entry) && Follows(xs, entry, n, s, chain) && Counts(xs[n], entry)
    ensures xs[n].stimulus !in s.stimuli
  {
    forall j | 0 <= j < |chain| ensures xs[chain[j]].stimulus != xs[n].stimulus {
      assert CountedPass(xs, entry, chain[j]) && chain[j] < n;
    }
  }

  /** On distinct stimuli the selection stays ahead, whatever the next assessment is. */
  lemma AheadOn(xs: seq<Assessment>, entry: int, n: nat, s: Streak, k: nat, chain: seq<nat>, next: Streak)
    requires n < |xs| && Chronological(xs) && DistinctStimuli(xs, entry)
    requires Follows(xs, entry, n, s, chain) && Ahead(xs, entry, n, s)
    requires next.selected == AfterPosition(xs, entry, n, s)
    ensures Ahead(xs, entry, n + 1, next)
  {
    if CountedFailure(xs, entry, n) {
      AheadAfterFailure(xs, entry, n);
      assert forall other :: AheadOf(xs, NO_STREAK, other) ==> AheadOf(xs, next, other);
    } else if CountedPass(xs, entry, n) {
      AheadAfterPass(xs, entry, n, s, next, chain);
    } else {
      AheadWithoutPass(xs, entry, n, s, next);
    }
  }

  /** What is selected behind position `n`, when no stimulus repeats. */
  function AfterPosition(xs: seq<Assessment>, entry: int, n: nat, s: Streak): seq<Assessment>
    requires n < |xs|
  {
    var a := xs[n];
    if !Counts(a, entry) then s.selected
    else if !a.passed then []
    else if TooSoon(s, a) then s.selected
    else s.selected + [a]
  }

  lemma NoneYetOn(xs: seq<Assessment>, entry: int, n: nat, k: nat, next: Streak)
    requires n < |xs| && NoneYet(xs, entry, n, k) && Ahead(xs, entry, n + 1, next) && |next.selected| < k
    ensures NoneYet(xs, entry, n + 1, k)
  {
    forall chain | Chain(xs, entry, chain) && |chain| == k && chain != [] ensures chain[k - 1] >= n + 1 {
      if chain[k - 1] == n {
        EndsBehindSelection(xs, entry, n, chain, next);
      }
    }
  }

  lemma EndsBehindSelection(xs: seq<Assessment>, entry: int, n: nat, chain: seq<nat>, next: Streak)
    requires n < |xs| && Ahead(xs, entry, n + 1, next)
    requires Chain(xs, entry, chain) && chain != [] && chain[|chain| - 1] == n
    ensures |chain| <= |next.selected|
  {
    assert CountedPass(xs, entry, n);
    forall j | 0 <= j < |chain| ensures chain[j] < n + 1 {
      assert j == |chain| - 1 || chain[j] < chain[|chain| - 1];
    }
    assert SameRun(xs, entry, chain[0], n + 1);
    assert AheadOf(xs, next, chain);
  }

  lemma EndsInside(xs: seq<Assessment>, entry: int, chain: seq<nat>)
    requires Passes(xs, entry, chain) && chain != []
    ensures chain[|chain| - 1] < |xs|
  {
    assert CountedPass(xs, entry, chain[|chain| - 1]);
  }

  lemma {:induction false} SelectFindsChain(xs: seq<Assessment>, entry: int, n: nat, s: Streak, k: nat, chain: seq<nat>)
    requires n <= |xs| && Chronological(xs) && DistinctStimuli(xs, entry) && Select(xs, entry, n, s, k).Ok?
    requires Follows(xs, entry, n, s, chain) && Ahead(xs, entry, n, s) && NoneYet(xs, entry, n, k) && |s.selected| < k
    ensures Select(xs, entry, n, s, k).value.Some? <==> exists c :: Chain(xs, entry, c) && |c| == k
    decreases |xs| - n
  {
    if n == |xs| {
      forall c | Chain(xs, entry, c) && |c| == k ensures false {
        EndsInside(xs, entry, c);
      }
    } else {
      var next, chain' := ChainStep(xs, entry, n, s, k, chain);
      if next.Some? {
        if Counts(xs[n], entry) {
          FreshStimulus(xs, entry, n, s, chain);
        }
        AheadOn(xs, entry, n, s, k, chain, next.value);
        NoneYetOn(xs, entry, n, k, next.value);
        SelectFindsChain(xs, entry, n + 1, next.value, k, chain');
      } else {
        assert Chain(xs, entry, chain') && |chain'| == k;
      }
    }
  }

  /** Whatever is selected for `k` passes is a chain that the rule asks for. */
  lemma SelectionIsChain(xs: seq<Assessment>, entry: int, k: nat) returns (chain: seq<nat>)
    requires Select(xs, entry, 0, NO_STREAK, k).Ok? && Select(xs, entry, 0, NO_STREAK, k).value.Some?
    ensures Chain(xs, entry, chain) && |chain| == k > 0
    ensures Select(xs, entry, 0, NO_STREAK, k).value.value == Picked(xs, chain)
  {
    NothingFollowsYet(xs, entry, 0);
    var last;
    chain, last := SelectIsChain(xs, entry, 0, NO_STREAK, k, []);
  }

  /** And on distinct stimuli there is a selection exactly when there is a chain. */
  lemma SelectionFindsChains(xs: seq<Assessment>, entry: int, k: nat)
    requires Chronological(xs) && DistinctStimuli(xs, entry) && Select(xs, entry, 0, NO_STREAK, k).Ok? && k > 0
    ensures Select(xs, entry, 0, NO_STREAK, k).value.Some? <==> exists c :: Chain(xs, entry, c) && |c| == k
  {
    NothingFollowsYet(xs, entry, 0);
    SelectFindsChain(xs, entry, 0, NO_STREAK, k, []);
  }
}
