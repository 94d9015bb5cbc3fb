/**
 * The three append-only assessment ledgers, exposures, captures and dispositions,
 * and the invariants that hold across them. An attempt identity is the tuple it
 * is computed from.
 */
module Ledgers {
  import opened Wrappers
  import opened Lifecycle

  datatype AttemptId = AttemptId(session: string, ordinal: nat, unitKey: string, channel: Channel, stimulus: string)

  datatype Reservation = Reservation(attempt: AttemptId, reservedAt: int, stimulusArtifact: string)

  datatype Receipt = Receipt(attempt: AttemptId, capturedAt: int, artifact: string)

  datatype Code = Refusal | ExplicitSkip | NoResponse | InvalidArtifact | InfrastructureFailure

  datatype Disposal = Disposal(attempt: AttemptId, disposedAt: int, code: Code)

  datatype Histories = Histories(exposures: seq<Reservation>, captures: seq<Receipt>, dispositions: seq<Disposal>)

  function Exposed(h: Histories): (ids: seq<AttemptId>)
    ensures |ids| == |h.exposures| && forall i :: 0 <= i < |ids| ==> ids[i] == h.exposures[i].attempt
  {
    seq(|h.exposures|, i requires 0 <= i < |h.exposures| => h.exposures[i].attempt)
  }

  function Captured(h: Histories): (ids: seq<AttemptId>)
    ensures |ids| == |h.captures| && forall i :: 0 <= i < |ids| ==> ids[i] == h.captures[i].attempt
  {
    seq(|h.captures|, i requires 0 <= i < |h.captures| => h.captures[i].attempt)
  }

  function Disposed(h: Histories): (ids: seq<AttemptId>)
    ensures |ids| == |h.dispositions| && forall i :: 0 <= i < |ids| ==> ids[i] == h.dispositions[i].attempt
  {
    seq(|h.dispositions|, i requires 0 <= i < |h.dispositions| => h.dispositions[i].attempt)
  }

  // -------------------------------------------------------------------------
  // Validity
  // -------------------------------------------------------------------------

  predicate Distinct(ids: seq<AttemptId>) {
    forall i, j :: 0 <= i < j < |ids| ==> ids[i] != ids[j]
  }

  predicate CaptureBound(h: Histories, artifacts: set<string>, r: Receipt) {
    r.attempt in Exposed(h) && r.artifact in artifacts
  }

  predicate DisposalBound(h: Histories, d: Disposal) {
    d.attempt in Exposed(h) && d.attempt.channel != S && d.attempt !in Captured(h)
  }

  predicate ValidHistories(h: Histories, artifacts: set<string>) {
    && Distinct(Exposed(h)) && Distinct(Captured(h)) && Distinct(Disposed(h))
    && (forall r :: r in h.captures ==> CaptureBound(h, artifacts, r))
    && (forall d :: d in h.dispositions ==> DisposalBound(h, d))
  }

  function Count(ids: seq<AttemptId>, a: AttemptId): nat {
    if ids == [] then 0
    else Count(ids[..|ids| - 1], a) + if ids[|ids| - 1] == a then 1 else 0
  }

  lemma {:induction false} CountIsMembership(ids: seq<AttemptId>, a: AttemptId)
    requires Distinct(ids)
    ensures Count(ids, a) == if a in ids then 1 else 0
  {
    if ids != [] {
      var init, last := ids[..|ids| - 1], ids[|ids| - 1];
      CountIsMembership(init, a);
      assert ids == init + [last];
      assert last !in init;
    }
  }

  /** Reads a ledger's slots, refusing the second record of a slot. */
  method ReadSlots(ids: seq<AttemptId>) returns (ok: bool)
    ensures ok <==> Distinct(ids)
  {
    var slots: set<AttemptId> := {};
    for i := 0 to |ids|
      invariant slots == set a | a in ids[..i]
      invariant Distinct(ids[..i])
    {
      assert ids[..i + 1] == ids[..i] + [ids[i]];
      if ids[i] in slots {
        var k :| 0 <= k < i && ids[..i][k] == ids[i];
        assert ids[k] == ids[i];
        return false;
      }
      slots := slots + {ids[i]};
    }
    assert ids[..|ids|] == ids;
    ok := true;
  }

  method CountAttempts(ids: seq<AttemptId>) returns (counts: map<AttemptId, nat>)
    ensures forall a :: (if a in counts then counts[a] else 0) == Count(ids, a)
  {
    counts := map[];
    for i := 0 to |ids|
      invariant forall a :: (if a in counts then counts[a] else 0) == Count(ids[..i], a)
    {
      assert ids[..i + 1][..i] == ids[..i];
      counts := counts[ids[i] := (if ids[i] in counts then counts[ids[i]] else 0) + 1];
    }
    assert ids[..|ids|] == ids;
  }

  /** Every receipt binds exactly one exposure and an artifact that can be read. */
  method ValidateCaptureBindings(h: Histories, artifacts: set<string>) returns (ok: bool)
    requires Distinct(Exposed(h))
    ensures ok <==> forall r :: r in h.captures ==> CaptureBound(h, artifacts, r)
  {
    var counts := CountAttempts(Exposed(h));
    for i := 0 to |h.captures|
      invariant forall k :: 0 <= k < i ==> CaptureBound(h, artifacts, h.captures[k])
    {
      var r := h.captures[i];
      CountIsMembership(Exposed(h), r.attempt);
      if (if r.attempt in counts then counts[r.attempt] else 0) != 1 || r.artifact !in artifacts {
        assert r in h.captures && !CaptureBound(h, artifacts, r);
        return false;
      }
    }
    ok := true;
  }

  /** Every disposition binds exactly one R, L or W exposure and no capture. */
  method ValidateDispositionBindings(h: Histories) returns (ok: bool)
    requires Distinct(Exposed(h)) && Distinct(Captured(h))
    ensures ok <==> forall d :: d in h.dispositions ==> DisposalBound(h, d)
  {
    var exposed := CountAttempts(Exposed(h));
    var captured := CountAttempts(Captured(h));
    for i := 0 to |h.dispositions|
      invariant forall k :: 0 <= k < i ==> DisposalBound(h, h.dispositions[k])
    {
      var d := h.dispositions[i];
      CountIsMembership(Exposed(h), d.attempt);
      CountIsMembership(Captured(h), d.attempt);
      if (if d.attempt in exposed then exposed[d.attempt] else 0) != 1
         || d.attempt.channel == S
         || (if d.attempt in captured then captured[d.attempt] else 0) != 0 {
        assert d in h.dispositions && !DisposalBound(h, d);
        return false;
      }
    }
    ok := true;
  }

  /** The one boundary that every fresh write is validated through. */
  method ValidateHistories(h: Histories, artifacts: set<string>) returns (ok: bool)
    ensures ok <==> ValidHistories(h, artifacts)
  {
    ok := ReadSlots(Exposed(h));
    if ok { ok := ReadSlots(Captured(h)); }
    if ok { ok := ValidateCaptureBindings(h, artifacts); }
    if ok { ok := ReadSlots(Disposed(h)); }
    if ok { ok := ValidateDispositionBindings(h); }
  }

  // -------------------------------------------------------------------------
  // Growth
  // -------------------------------------------------------------------------

  /** Nothing is ever taken from a ledger or from the artifact store. */
  predicate Grows(h: Histories, h': Histories) {
    h.exposures <= h'.exposures && h.captures <= h'.captures && h.dispositions <= h'.dispositions
  }

  lemma GrowthIsTransitive(a: Histories, b: Histories, c: Histories)
    requires Grows(a, b) && Grows(b, c)
    ensures Grows(a, c)
  {
  }

  datatype Status =
    | Unreserved
    | Reserved
    | CapturedAs(artifact: string)
    | DisposedAs(code: Code)

  predicate HasReceipt(h: Histories, a: AttemptId, artifact: string) {
    exists r :: r in h.captures && r.attempt == a && r.artifact == artifact
  }

  predicate HasDisposal(h: Histories, a: AttemptId, code: Code) {
    exists d :: d in h.dispositions && d.attempt == a && d.code == code
  }

  /** Where an attempt stands, as the records of valid histories tell it. */
  ghost predicate Stands(h: Histories, a: AttemptId, s: Status) {
    match s
    case Unreserved => a !in Exposed(h) && a !in Captured(h) && a !in Disposed(h)
    case Reserved => a in Exposed(h) && a !in Captured(h) && a !in Disposed(h)
    case CapturedAs(artifact) => a in Exposed(h) && HasReceipt(h, a, artifact) && a !in Disposed(h)
    case DisposedAs(code) => a in Exposed(h) && a !in Captured(h) && HasDisposal(h, a, code)
  }

  lemma ReceiptOf(h: Histories, a: AttemptId) returns (r: Receipt)
    requires a in Captured(h)
    ensures r in h.captures && r.attempt == a
  {
    var i :| 0 <= i < |Captured(h)| && Captured(h)[i] == a;
    r := h.captures[i];
  }

  lemma DisposalOf(h: Histories, a: AttemptId) returns (d: Disposal)
    requires a in Disposed(h)
    ensures d in h.dispositions && d.attempt == a
  {
    var i :| 0 <= i < |Disposed(h)| && Disposed(h)[i] == a;
    d := h.dispositions[i];
  }

  lemma ReceiptsListed(h: Histories)
    ensures forall r :: r in h.captures ==> r.attempt in Captured(h)
    ensures forall d :: d in h.dispositions ==> d.attempt in Disposed(h)
    ensures forall e :: e in h.exposures ==> e.attempt in Exposed(h)
  {
    forall r | r in h.captures ensures r.attempt in Captured(h) {
      var i :| 0 <= i < |h.captures| && h.captures[i] == r;
      assert Captured(h)[i] == r.attempt;
    }
    forall d | d in h.dispositions ensures d.attempt in Disposed(h) {
      var i :| 0 <= i < |h.dispositions| && h.dispositions[i] == d;
      assert Disposed(h)[i] == d.attempt;
    }
    forall e | e in h.exposures ensures e.attempt in Exposed(h) {
      var i :| 0 <= i < |h.exposures| && h.exposures[i] == e;
      assert Exposed(h)[i] == e.attempt;
    }
  }

  lemma OneReceipt(h: Histories, r: Receipt, r': Receipt)
    requires Distinct(Captured(h)) && r in h.captures && r' in h.captures && r.attempt == r'.attempt
    ensures r == r'
  {
    var i :| 0 <= i < |h.captures| && h.captures[i] == r;
    var j :| 0 <= j < |h.captures| && h.captures[j] == r';
    assert Captured(h)[i] == Captured(h)[j];
  }

  lemma OneDisposal(h: Histories, d: Disposal, d': Disposal)
    requires Distinct(Disposed(h)) && d in h.dispositions && d' in h.dispositions && d.attempt == d'.attempt
    ensures d == d'
  {
    var i :| 0 <= i < |h.dispositions| && h.dispositions[i] == d;
    var j :| 0 <= j < |h.dispositions| && h.dispositions[j] == d';
    assert Disposed(h)[i] == Disposed(h)[j];
  }

  /** In valid histories every attempt stands somewhere, and in one place only. */
  lemma ExactlyOneStatus(h: Histories, artifacts: set<string>, a: AttemptId) returns (s: Status)
    requires ValidHistories(h, artifacts)
    ensures Stands(h, a, s)
    ensures forall s' :: Stands(h, a, s') ==> s' == s
  {
    ReceiptsListed(h);
    if a in Captured(h) {
      var r := ReceiptOf(h, a);
      s := CapturedAs(r.artifact);
      assert CaptureBound(h, artifacts, r);
      forall d | d in h.dispositions ensures d.attempt != a { assert DisposalBound(h, d); }
      if a in Disposed(h) { var d := DisposalOf(h, a); }
      forall s' | Stands(h, a, s') ensures s' == s {
        if s'.CapturedAs? {
          var r' :| r' in h.captures && r'.attempt == a && r'.artifact == s'.artifact;
          OneReceipt(h, r, r');
        }
      }
    } else if a in Disposed(h) {
      var d := DisposalOf(h, a);
      s := DisposedAs(d.code);
      assert DisposalBound(h, d);
      forall s' | Stands(h, a, s') ensures s' == s {
        if s'.DisposedAs? {
          var d' :| d' in h.dispositions && d'.attempt == a && d'.code == s'.code;
          OneDisposal(h, d, d');
        }
      }
    } else {
      s := if a in Exposed(h) then Reserved else Unreserved;
      forall s' | Stands(h, a, s') ensures s' == s {
      }
    }
  }

  /** The only ways an attempt may change: reserved once, then ended once. */
  predicate Advances(s: Status, s': Status) {
    s == s' || s.Unreserved? || (s.Reserved? && !s'.Unreserved?)
  }

  lemma GrowthKeepsRecords(h: Histories, h': Histories, a: AttemptId)
    requires Grows(h, h')
    ensures a in Exposed(h) ==> a in Exposed(h')
    ensures forall artifact :: HasReceipt(h, a, artifact) ==> HasReceipt(h', a, artifact)
    ensures forall code :: HasDisposal(h, a, code) ==> HasDisposal(h', a, code)
  {
    if a in Exposed(h) {
      var i :| 0 <= i < |Exposed(h)| && Exposed(h)[i] == a;
      assert h'.exposures[i] == h.exposures[i] && Exposed(h')[i] == a;
    }
    forall artifact | HasReceipt(h, a, artifact) ensures HasReceipt(h', a, artifact) {
      var r :| r in h.captures && r.attempt == a && r.artifact == artifact;
      assert r in h'.captures;
    }
    forall code | HasDisposal(h, a, code) ensures HasDisposal(h', a, code) {
      var d :| d in h.dispositions && d.attempt == a && d.code == code;
      assert d in h'.dispositions;
    }
  }

  /**
   * However valid histories grow, an attempt only moves from unreserved to
   * reserved to exactly one of captured or disposed, and then never again.
   */
  lemma StatusOnlyAdvances(h: Histories, h': Histories, artifacts: set<string>, a: AttemptId, s: Status, s': Status)
    requires ValidHistories(h, artifacts) && ValidHistories(h', artifacts) && Grows(h, h')
    requires Stands(h, a, s) && Stands(h', a, s')
    ensures Advances(s, s')
  {
    GrowthKeepsRecords(h, h', a);
    var only := ExactlyOneStatus(h', artifacts, a);
    ReceiptsListed(h');
    match s
    case CapturedAs(artifact) =>
      var r :| r in h'.captures && r.attempt == a && r.artifact == artifact;
      forall d | d in h'.dispositions ensures d.attempt != a { assert DisposalBound(h', d); }
      if a in Disposed(h') { var d := DisposalOf(h', a); }
      assert Stands(h', a, CapturedAs(artifact));
    case DisposedAs(code) =>
      var d :| d in h'.dispositions && d.attempt == a && d.code == code;
      assert DisposalBound(h', d);
      assert Stands(h', a, DisposedAs(code));
    case _ =>
  }

  // -------------------------------------------------------------------------
  // Novelty
  // -------------------------------------------------------------------------

  predicate SameStimulus(a: AttemptId, b: AttemptId) {
    a.unitKey == b.unitKey && a.channel == b.channel && a.stimulus == b.stimulus
  }

  predicate FirstOfItsStimulus(ids: seq<AttemptId>, i: nat)
    requires i < |ids|
  {
    forall j :: 0 <= j < i ==> !SameStimulus(ids[j], ids[i])
  }

  function IndexOf(ids: seq<AttemptId>, a: AttemptId): (i: nat)
    requires a in ids
    ensures i < |ids| && ids[i] == a && a !in ids[..i]
  {
    if ids[0] == a then 0
    else
      assert ids == [ids[0]] + ids[1..];
      var rest := IndexOf(ids[1..], a);
      assert ids[..rest + 1] == [ids[0]] + ids[1..][..rest];
      rest + 1
  }

  /** The novelty bit of a reserved attempt; none unless it is reserved exactly once. */
  function Novelty(ids: seq<AttemptId>, a: AttemptId): Option<bool> {
    if Count(ids, a) != 1 || a !in ids then None
    else Some(FirstOfItsStimulus(ids, IndexOf(ids, a)))
  }

  lemma CountOneMore(ids: seq<AttemptId>, i: nat, a: AttemptId)
    requires i < |ids|
    ensures Count(ids[..i + 1], a) == Count(ids[..i], a) + if ids[i] == a then 1 else 0
    ensures a in ids[..i + 1] <==> a in ids[..i] || ids[i] == a
  {
    assert ids[..i + 1] == ids[..i] + [ids[i]];
    assert ids[..i + 1][..i] == ids[..i];
  }

  method NoveltyForReservedAttempt(ids: seq<AttemptId>, a: AttemptId) returns (novel: Option<bool>)
    ensures novel == Novelty(ids, a)
  {
    var at, matching := 0, 0;
    for i := 0 to |ids|
      invariant matching == Count(ids[..i], a)
      invariant matching == 0 <==> a !in ids[..i]
      invariant matching == 1 ==> 0 <= at < i && ids[at] == a && a !in ids[..at]
    {
      CountOneMore(ids, i, a);
      if ids[i] == a {
        if matching == 0 { at := i; }
        matching := matching + 1;
      }
    }
    assert ids[..|ids|] == ids;
    if matching != 1 {
      return None;
    }
    FirstIndex(ids, a, at);
    for j := 0 to at
      invariant forall k :: 0 <= k < j ==> !SameStimulus(ids[k], a)
    {
      if SameStimulus(ids[j], a) {
        return Some(false);
      }
    }
    novel := Some(true);
  }

  lemma {:induction false} FirstIndex(ids: seq<AttemptId>, a: AttemptId, at: nat)
    requires at < |ids| && ids[at] == a && a !in ids[..at]
    ensures a in ids && IndexOf(ids, a) == at
  {
    if at > 0 {
      assert ids[0] == ids[..at][0] && ids[..at] == [ids[0]] + ids[1..][..at - 1];
      FirstIndex(ids[1..], a, at - 1);
    }
  }

  lemma NoveltyAt(ids: seq<AttemptId>, i: nat)
    requires Distinct(ids) && i < |ids|
    ensures Novelty(ids, ids[i]) == Some(FirstOfItsStimulus(ids, i))
  {
    CountIsMembership(ids, ids[i]);
    assert IndexOf(ids, ids[i]) == i;
  }

  /** The bit of a reserved attempt never changes as reservations are added. */
  lemma NoveltyIsStable(ids: seq<AttemptId>, more: seq<AttemptId>, a: AttemptId)
    requires Distinct(ids + more) && a in ids
    ensures Novelty(ids + more, a) == Novelty(ids, a) && Novelty(ids, a).Some?
  {
    var i := IndexOf(ids, a);
    assert Distinct(ids) by {
      forall i, j | 0 <= i < j < |ids| ensures ids[i] != ids[j] {
        assert (ids + more)[i] != (ids + more)[j];
      }
    }
    NoveltyAt(ids, i);
    NoveltyAt(ids + more, i);
    assert (ids + more)[i] == a && forall k :: 0 <= k < i ==> (ids + more)[k] == ids[k];
    assert FirstOfItsStimulus(ids + more, i) <==> FirstOfItsStimulus(ids, i);
  }

  /** Of all reservations of one unit, channel and stimulus, exactly the first is novel. */
  lemma OnlyTheFirstIsNovel(ids: seq<AttemptId>, i: nat, j: nat)
    requires Distinct(ids) && i < |ids| && j < |ids| && SameStimulus(ids[i], ids[j])
    requires Novelty(ids, ids[i]) == Some(true) && Novelty(ids, ids[j]) == Some(true)
    ensures i == j
  {
    NoveltyAt(ids, i);
    NoveltyAt(ids, j);
    assert SameStimulus(ids[j], ids[i]);
  }

  /** And there is one: whatever was reserved at all has a first reservation. */
  lemma {:induction false} SomeReservationIsNovel(ids: seq<AttemptId>, i: nat) returns (first: nat)
    requires Distinct(ids) && i < |ids|
    ensures first <= i && SameStimulus(ids[first], ids[i]) && Novelty(ids, ids[first]) == Some(true)
    decreases i
  {
    NoveltyAt(ids, i);
    if FirstOfItsStimulus(ids, i) {
      first := i;
    } else {
      var j :| 0 <= j < i && SameStimulus(ids[j], ids[i]);
      first := SomeReservationIsNovel(ids, j);
    }
  }
}
