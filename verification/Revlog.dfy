/**
 * Review history of one card: validation, ordering, and the few numbers a
 * decision reads from it.
 */
module Revlog {
  import opened Wrappers
  import opened Lifecycle

  datatype Review = Review(id: nat, ease: int, kind: int)

  const REVLOG_EASE_AGAIN := 1
  const REVLOG_TYPE_LEARNING := 0
  const REVLOG_TYPE_REVIEW := 1
  const REVLOG_TYPE_RELEARNING := 2
  const REVLOG_TYPE_CRAM := 3

  /** A review id is an epoch instant in milliseconds. */
  function Instant(id: nat): int {
    id * 1000
  }

  predicate Interpretable(r: Review, now: int) {
    && 1 <= r.ease <= 4
    && r.kind in {REVLOG_TYPE_LEARNING, REVLOG_TYPE_REVIEW, REVLOG_TYPE_RELEARNING, REVLOG_TYPE_CRAM}
    && Instant(r.id) <= now
  }

  predicate IsLifecycle(r: Review) {
    r.kind in {REVLOG_TYPE_LEARNING, REVLOG_TYPE_REVIEW, REVLOG_TYPE_RELEARNING}
  }

  predicate IsLapse(r: Review) {
    r.kind == REVLOG_TYPE_REVIEW && r.ease == REVLOG_EASE_AGAIN
  }

  // -------------------------------------------------------------------------
  // Ordering by id
  // -------------------------------------------------------------------------

  predicate Increasing(rs: seq<Review>) {
    forall i, j :: 0 <= i < j < |rs| ==> rs[i].id < rs[j].id
  }

  predicate DistinctIds(rs: seq<Review>) {
    forall i, j :: 0 <= i < j < |rs| ==> rs[i].id != rs[j].id
  }

  /** Insertion from the right, as a stable sort by id would place `r`. */
  function Insert(rs: seq<Review>, r: Review): (out: seq<Review>)
    ensures |out| == |rs| + 1
  {
    if rs == [] || rs[|rs| - 1].id <= r.id then rs + [r]
    else Insert(rs[..|rs| - 1], r) + [rs[|rs| - 1]]
  }

  function Ordered(rs: seq<Review>): (out: seq<Review>)
    ensures |out| == |rs|
  {
    if rs == [] then [] else Insert(Ordered(rs[..|rs| - 1]), rs[|rs| - 1])
  }

  lemma {:induction false} InsertKeepsMembers(rs: seq<Review>, r: Review)
    ensures forall x :: x in Insert(rs, r) <==> x in rs || x == r
  {
    if rs == [] || rs[|rs| - 1].id <= r.id {
    } else {
      InsertKeepsMembers(rs[..|rs| - 1], r);
      assert rs == rs[..|rs| - 1] + [rs[|rs| - 1]];
    }
  }

  lemma {:induction false} InsertKeepsOrder(rs: seq<Review>, r: Review)
    requires Increasing(rs)
    requires forall x :: x in rs ==> x.id != r.id
    ensures Increasing(Insert(rs, r))
  {
    if rs == [] || rs[|rs| - 1].id <= r.id {
    } else {
      var init, last := rs[..|rs| - 1], rs[|rs| - 1];
      InsertKeepsOrder(init, r);
      InsertKeepsMembers(init, r);
      var out := Insert(init, r);
      forall k | 0 <= k < |out| ensures out[k].id < last.id {
        assert out[k] in out;
      }
    }
  }

  /** Ordering keeps exactly the reviews it is given and puts them in id order. */
  lemma {:induction false} OrderedIsSorted(rs: seq<Review>)
    requires DistinctIds(rs)
    ensures Increasing(Ordered(rs))
    ensures forall x :: x in Ordered(rs) <==> x in rs
  {
    if rs != [] {
      var init, last := rs[..|rs| - 1], rs[|rs| - 1];
      OrderedIsSorted(init);
      forall x | x in Ordered(init) ensures x.id != last.id {
        OtherIdBefore(rs, x);
      }
      InsertKeepsOrder(Ordered(init), last);
      InsertKeepsMembers(Ordered(init), last);
      assert rs == init + [last];
    }
  }

  lemma OtherIdBefore(rs: seq<Review>, x: Review)
    requires DistinctIds(rs) && rs != [] && x in rs[..|rs| - 1]
    ensures x.id != rs[|rs| - 1].id
  {
    var k :| 0 <= k < |rs| - 1 && rs[k] == x;
  }

  /** A review newer than all others is placed last. */
  lemma {:induction false} OrderedAppends(rs: seq<Review>, r: Review)
    requires DistinctIds(rs)
    requires forall x :: x in rs ==> x.id < r.id
    ensures Ordered(rs + [r]) == Ordered(rs) + [r]
  {
    OrderedIsSorted(rs);
    assert (rs + [r])[..|rs|] == rs;
    if Ordered(rs) != [] {
      assert Ordered(rs)[|rs| - 1] in Ordered(rs);
    }
  }

  // -------------------------------------------------------------------------
  // What is read from an ordered history
  // -------------------------------------------------------------------------

  function Filter(rs: seq<Review>, keep: Review -> bool): (out: seq<Review>)
    ensures forall x :: x in out <==> x in rs && keep(x)
  {
    if rs == [] then []
    else
      assert rs == rs[..|rs| - 1] + [rs[|rs| - 1]];
      var rest := Filter(rs[..|rs| - 1], keep);
      if keep(rs[|rs| - 1]) then rest + [rs[|rs| - 1]] else rest
  }

  lemma {:induction false} FilterKeepsOrder(rs: seq<Review>, keep: Review -> bool)
    requires Increasing(rs)
    ensures Increasing(Filter(rs, keep))
  {
    if rs != [] {
      var init, last := rs[..|rs| - 1], rs[|rs| - 1];
      FilterKeepsOrder(init, keep);
      var kept := Filter(init, keep);
      forall k | 0 <= k < |kept| ensures kept[k].id < last.id {
        assert kept[k] in init;
      }
    }
  }

  lemma FilterAppends(rs: seq<Review>, r: Review, keep: Review -> bool)
    ensures Filter(rs + [r], keep) == if keep(r) then Filter(rs, keep) + [r] else Filter(rs, keep)
  {
    assert (rs + [r])[..|rs|] == rs;
  }

  function LifecycleReviews(rs: seq<Review>): seq<Review> {
    Filter(Ordered(rs), r => IsLifecycle(r))
  }

  function Lapses(rs: seq<Review>): seq<Review> {
    Filter(LifecycleReviews(rs), r => IsLapse(r))
  }

  function FirstId(rs: seq<Review>): Option<nat> {
    if rs == [] then None else Some(rs[0].id)
  }

  function LastId(rs: seq<Review>): Option<nat> {
    if rs == [] then None else Some(rs[|rs| - 1].id)
  }

  /** The first review strictly after a state entry; none before the first entry. */
  function FirstIdAfter(rs: seq<Review>, entry: Option<int>): Option<nat> {
    if entry.None? || rs == [] then None
    else if Instant(rs[0].id) > entry.value then Some(rs[0].id)
    else FirstIdAfter(rs[1..], entry)
  }

  function CountSince(rs: seq<Review>, start: int): (n: nat)
  {
    |Filter(rs, (r: Review) => Instant(r.id) >= start)|
  }

  function AgeDays(first: Option<nat>, now: int): int {
    if first.None? then 0 else (now - Instant(first.value)) / MICROSECONDS_PER_DAY
  }

  datatype Summary = Summary(
    first: Option<nat>,
    latest: Option<nat>,
    latestLapse: Option<nat>,
    lifecycle: seq<Review>,
    lapses: seq<Review>,
    lapsesInWindow: nat,
    ageDays: int)

  function Summarize(rs: seq<Review>, now: int): Summary {
    var lifecycle := LifecycleReviews(rs);
    var lapses := Lapses(rs);
    Summary(
      FirstId(lifecycle),
      LastId(lifecycle),
      LastId(lapses),
      lifecycle,
      lapses,
      CountSince(lapses, now - Days(STABLE_ZERO_LAPSE_WINDOW_DAYS)),
      AgeDays(FirstId(lifecycle), now))
  }

  predicate CardReadable(rs: seq<Review>, now: int) {
    && (forall r :: r in rs ==> Interpretable(r, now))
    && DistinctIds(rs)
  }

  function Ids(rs: seq<Review>): set<nat> {
    set r | r in rs :: r.id
  }

  /**
   * Reads the rows of one card. `seen` are the ids of the cards read before,
   * because an id may not repeat anywhere in the note.
   */
  method ReadCard(rows: seq<Review>, seen: set<nat>, now: int)
    returns (summary: Option<Summary>, seen': set<nat>)
    ensures summary.Some? <==> CardReadable(rows, now) && Ids(rows) !! seen
    ensures summary.Some? ==> summary.value == Summarize(rows, now)
    ensures summary.Some? ==> seen' == seen + Ids(rows)
  {
    seen' := seen;
    var parsed: seq<Review> := [];
    for i := 0 to |rows|
      invariant parsed == rows[..i]
      invariant CardReadable(rows[..i], now)
      invariant Ids(rows[..i]) !! seen
      invariant seen' == seen + Ids(rows[..i])
    {
      var row := rows[i];
      assert rows[..i + 1] == rows[..i] + [row];
      if !Interpretable(row, now) || row.id in seen' {
        if Interpretable(row, now) && row.id !in seen {
          var r :| r in rows[..i] && r.id == row.id;
          var k :| 0 <= k < i && rows[k] == r;
          assert rows[k].id == rows[i].id;
        }
        return None, seen';
      }
      parsed := parsed + [row];
      seen' := seen' + {row.id};
    }
    assert rows[..|rows|] == rows;
    summary := Some(Summarize(parsed, now));
  }

  // -------------------------------------------------------------------------
  // Meaning
  // -------------------------------------------------------------------------

  lemma {:induction false} FirstIdAfterIsEarliest(rs: seq<Review>, entry: int)
    requires Increasing(rs)
    ensures var found := FirstIdAfter(rs, Some(entry));
            && (found.Some? <==> exists r :: r in rs && Instant(r.id) > entry)
            && (found.Some? ==> exists r :: r in rs && r.id == found.value)
            && (found.Some? ==> Instant(found.value) > entry)
            && (found.Some? ==> forall r :: r in rs && Instant(r.id) > entry ==> found.value <= r.id)
  {
    if rs != [] {
      assert rs == [rs[0]] + rs[1..];
      if Instant(rs[0].id) > entry {
        assert rs[0] in rs;
        forall r | r in rs ensures rs[0].id <= r.id {
          var k :| 0 <= k < |rs| && rs[k] == r;
        }
      } else {
        FirstIdAfterIsEarliest(rs[1..], entry);
      }
    }
  }

  lemma {:induction false} FirstIdAfterAppends(rs: seq<Review>, r: Review, entry: Option<int>)
    requires FirstIdAfter(rs, entry).Some?
    ensures FirstIdAfter(rs + [r], entry) == FirstIdAfter(rs, entry)
  {
    if Instant(rs[0].id) <= entry.value {
      assert (rs + [r])[1..] == rs[1..] + [r];
      FirstIdAfterAppends(rs[1..], r, entry);
    }
  }

  /** What one newer review leaves untouched: everything that was first. */
  lemma NewerReviewKeepsFirsts(rs: seq<Review>, r: Review, entry: Option<int>)
    requires DistinctIds(rs)
    requires forall x :: x in rs ==> x.id < r.id
    ensures FirstId(LifecycleReviews(rs)).Some? ==>
              FirstId(LifecycleReviews(rs + [r])) == FirstId(LifecycleReviews(rs))
    ensures FirstIdAfter(LifecycleReviews(rs), entry).Some? ==>
              FirstIdAfter(LifecycleReviews(rs + [r]), entry) == FirstIdAfter(LifecycleReviews(rs), entry)
    ensures FirstIdAfter(Lapses(rs), entry).Some? ==>
              FirstIdAfter(Lapses(rs + [r]), entry) == FirstIdAfter(Lapses(rs), entry)
  {
    OrderedAppends(rs, r);
    FilterAppends(Ordered(rs), r, x => IsLifecycle(x));
    if IsLifecycle(r) {
      if FirstIdAfter(LifecycleReviews(rs), entry).Some? {
        FirstIdAfterAppends(LifecycleReviews(rs), r, entry);
      }
      FilterAppends(LifecycleReviews(rs), r, x => IsLapse(x));
      if IsLapse(r) && FirstIdAfter(Lapses(rs), entry).Some? {
        FirstIdAfterAppends(Lapses(rs), r, entry);
      }
    }
  }
}
