/**
 * Reserving an exposure, capturing a response, recording why there is none. Every
 * append has three outcomes: not applied and raising, applied and raising,
 * applied. Every read may fail. Each operation tells which durable deeds it did.
 */
module Intake {
  import opened Wrappers
  import opened Lifecycle
  import opened Ledgers
  import opened Faults

  /** What a learner handed in; bytes stand for the artifact they are stored as. */
  datatype Submission =
    | NoBytes
    | Undecodable(bytes: string)
    | Blank(bytes: string)
    | Answer(bytes: string)

  datatype CaptureEnd =
    | CaptureDone(receipt: Receipt)
    | CommitFailed // the receipt is known not to be in the ledger
    | CaptureRaised

  datatype Closing = ClosedByCapture(receipt: Receipt) | ClosedByDisposal(disposal: Disposal) | ClosingRaised

  function WithExposure(h: Histories, r: Reservation): Histories {
    h.(exposures := h.exposures + [r])
  }

  function WithCapture(h: Histories, r: Receipt): Histories {
    h.(captures := h.captures + [r])
  }

  function WithDisposal(h: Histories, d: Disposal): Histories {
    h.(dispositions := h.dispositions + [d])
  }

  // -------------------------------------------------------------------------
  // Single records keep the histories valid
  // -------------------------------------------------------------------------

  lemma RecordedIsReserved(h: Histories, artifacts: set<string>, a: AttemptId)
    requires ValidHistories(h, artifacts) && (a in Captured(h) || a in Disposed(h))
    ensures a in Exposed(h)
  {
    if a in Captured(h) {
      var r := ReceiptOf(h, a);
      assert CaptureBound(h, artifacts, r);
    } else {
      var d := DisposalOf(h, a);
      assert DisposalBound(h, d);
    }
  }

  lemma NothingWithoutReservation(h: Histories, artifacts: set<string>, a: AttemptId)
    requires ValidHistories(h, artifacts)
    ensures a in Captured(h) || a in Disposed(h) ==> a in Exposed(h)
  {
    if a in Captured(h) || a in Disposed(h) {
      RecordedIsReserved(h, artifacts, a);
    }
  }

  lemma DistinctAppends(ids: seq<AttemptId>, a: AttemptId)
    requires Distinct(ids) && a !in ids
    ensures Distinct(ids + [a])
  {
  }

  lemma ExposureKeepsValid(h: Histories, artifacts: set<string>, r: Reservation)
    requires ValidHistories(h, artifacts) && r.attempt !in Exposed(h)
    ensures ValidHistories(WithExposure(h, r), artifacts) && Grows(h, WithExposure(h, r))
    ensures Stands(WithExposure(h, r), r.attempt, Reserved)
  {
    var h' := WithExposure(h, r);
    assert Exposed(h') == Exposed(h) + [r.attempt] && Captured(h') == Captured(h) && Disposed(h') == Disposed(h);
    DistinctAppends(Exposed(h), r.attempt);
    forall c | c in h'.captures ensures CaptureBound(h', artifacts, c) { assert CaptureBound(h, artifacts, c); }
    forall d | d in h'.dispositions ensures DisposalBound(h', d) { assert DisposalBound(h, d); }
    NothingWithoutReservation(h, artifacts, r.attempt);
  }

  lemma CaptureKeepsValid(h: Histories, artifacts: set<string>, r: Receipt)
    requires ValidHistories(h, artifacts) && Stands(h, r.attempt, Reserved) && r.artifact in artifacts
    ensures ValidHistories(WithCapture(h, r), artifacts) && Grows(h, WithCapture(h, r))
    ensures Stands(WithCapture(h, r), r.attempt, CapturedAs(r.artifact))
  {
    var h' := WithCapture(h, r);
    assert Exposed(h') == Exposed(h) && Captured(h') == Captured(h) + [r.attempt] && Disposed(h') == Disposed(h);
    DistinctAppends(Captured(h), r.attempt);
    forall c | c in h'.captures ensures CaptureBound(h', artifacts, c) {
      assert c == r || CaptureBound(h, artifacts, c);
    }
    ReceiptsListed(h);
    forall d | d in h'.dispositions ensures DisposalBound(h', d) {
      assert DisposalBound(h, d);
      assert d.attempt in Disposed(h);
    }
    assert r in h'.captures;
  }

  lemma DisposalKeepsValid(h: Histories, artifacts: set<string>, d: Disposal)
    requires ValidHistories(h, artifacts) && Stands(h, d.attempt, Reserved) && d.attempt.channel != S
    ensures ValidHistories(WithDisposal(h, d), artifacts) && Grows(h, WithDisposal(h, d))
    ensures Stands(WithDisposal(h, d), d.attempt, DisposedAs(d.code))
  {
    var h' := WithDisposal(h, d);
    assert Exposed(h') == Exposed(h) && Captured(h') == Captured(h) && Disposed(h') == Disposed(h) + [d.attempt];
    DistinctAppends(Disposed(h), d.attempt);
    forall c | c in h'.captures ensures CaptureBound(h', artifacts, c) { assert CaptureBound(h, artifacts, c); }
    forall x | x in h'.dispositions ensures DisposalBound(h', x) {
      assert x == d || DisposalBound(h, x);
    }
    assert d in h'.dispositions;
  }

  /** More artifacts never hurt. */
  lemma ArtifactsKeepValid(h: Histories, artifacts: set<string>, more: set<string>)
    requires ValidHistories(h, artifacts) && artifacts <= more
    ensures ValidHistories(h, more)
  {
    forall c | c in h.captures ensures CaptureBound(h, more, c) { assert CaptureBound(h, artifacts, c); }
  }

  // -------------------------------------------------------------------------
  // Durable deeds
  // -------------------------------------------------------------------------

  /** The three ledgers and the stored artifacts. */
  datatype Ledgered = Ledgered(histories: Histories, artifacts: set<string>)

  const EMPTY := Ledgered(Histories([], [], []), {})

  datatype Deed =
    | Reserve(reservation: Reservation)
    | KeepArtifact(bytes: string)
    | Capture(receipt: Receipt)
    | Dispose(disposal: Disposal)

  ghost predicate May(s: Ledgered, d: Deed) {
    match d
    case Reserve(r) => r.attempt !in Exposed(s.histories) && r.stimulusArtifact in s.artifacts
    case KeepArtifact(_) => true
    case Capture(r) => Stands(s.histories, r.attempt, Reserved) && r.artifact in s.artifacts
    case Dispose(x) => Stands(s.histories, x.attempt, Reserved) && x.attempt.channel != S
  }

  function Act(s: Ledgered, d: Deed): Ledgered {
    match d
    case Reserve(r) => s.(histories := WithExposure(s.histories, r))
    case KeepArtifact(bytes) => s.(artifacts := s.artifacts + {bytes})
    case Capture(r) => s.(histories := WithCapture(s.histories, r))
    case Dispose(x) => s.(histories := WithDisposal(s.histories, x))
  }

  /** The deeds are allowed one after the other and lead from `s` to `s'`. */
  ghost predicate Performs(s: Ledgered, deeds: seq<Deed>, s': Ledgered)
    decreases |deeds|
  {
    if deeds == [] then s == s' else May(s, deeds[0]) && Performs(Act(s, deeds[0]), deeds[1..], s')
  }

  /** On valid ledgers these deeds were done; on others nothing was. */
  ghost predicate Did(valid: bool, s: Ledgered, done: seq<Deed>, s': Ledgered) {
    if valid then Performs(s, done, s') && ValidHistories(s'.histories, s'.artifacts) else done == [] && s' == s
  }

  lemma DeedKeepsValid(s: Ledgered, d: Deed)
    requires ValidHistories(s.histories, s.artifacts) && May(s, d)
    ensures ValidHistories(Act(s, d).histories, Act(s, d).artifacts)
    ensures Grows(s.histories, Act(s, d).histories) && s.artifacts <= Act(s, d).artifacts
  {
    match d
    case Reserve(r) => ExposureKeepsValid(s.histories, s.artifacts, r);
    case KeepArtifact(bytes) => ArtifactsKeepValid(s.histories, s.artifacts, s.artifacts + {bytes});
    case Capture(r) => CaptureKeepsValid(s.histories, s.artifacts, r);
    case Dispose(x) => DisposalKeepsValid(s.histories, s.artifacts, x);
  }

  lemma OneDeed(s: Ledgered, d: Deed)
    requires May(s, d)
    ensures Performs(s, [d], Act(s, d))
  {
    assert Performs(Act(s, d), [d][1..], Act(s, d));
  }

  lemma {:induction false} PerformsBoth(s: Ledgered, a: seq<Deed>, m: Ledgered, b: seq<Deed>, s': Ledgered)
    requires Performs(s, a, m) && Performs(m, b, s')
    ensures Performs(s, a + b, s')
    decreases |a|
  {
    if a == [] {
      assert a + b == b;
    } else {
      assert (a + b)[1..] == a[1..] + b;
      PerformsBoth(Act(s, a[0]), a[1..], m, b, s');
    }
  }

  /** A one-use authorization to display, issued only after its reservation was read back. */
  class DisplayPermit {
    const attempt: AttemptId
    const novel: bool
    var consumed: bool

    constructor (attempt: AttemptId, novel: bool)
      ensures this.attempt == attempt && this.novel == novel && !consumed
    {
      this.attempt, this.novel, this.consumed := attempt, novel, false;
    }

    method Consume() returns (ok: bool)
      modifies this
      ensures ok <==> !old(consumed)
      ensures consumed
    {
      ok := !consumed;
      consumed := true;
    }
  }

  class Store {
    var histories: Histories
    var artifacts: set<string>
    // How each call to the files will end, and how many there have been.
    const outcomes: nat -> Outcome
    var calls: nat
    // Which of the calls that raise do so in the name of the ledger.
    const ledgerErrors: nat -> bool

    constructor (outcomes: nat -> Outcome, ledgerErrors: nat -> bool)
      ensures Valid() && State() == EMPTY
      ensures this.outcomes == outcomes && this.ledgerErrors == ledgerErrors && calls == 0
    {
      histories, artifacts := Histories([], [], []), {};
      this.outcomes, this.ledgerErrors, calls := outcomes, ledgerErrors, 0;
    }

    /** From the call numbered `n` on: all is read and the artifact kept, the receipt is refused, all is read again. */
    predicate RefusesReceipt(n: nat) {
      outcomes(n) == Applied && outcomes(n + 1) == Applied && RefusesAppend(n + 2)
    }

    predicate RefusesAppend(n: nat) {
      outcomes(n) == NotApplied && ledgerErrors(n) && outcomes(n + 1) == Applied
    }

    function State(): Ledgered
      reads this
    {
      Ledgered(histories, artifacts)
    }

    ghost predicate Valid()
      reads this
    {
      ValidHistories(histories, artifacts)
    }

    /** Reads and validates all three ledgers; the read may fail. */
    method Validate() returns (ok: bool)
      modifies this`calls
      ensures ok <==> Valid() && Clean(outcomes, old(calls), calls)
      ensures calls == old(calls) + 1
    {
      ok := outcomes(calls) == Applied;
      calls := calls + 1;
      if ok {
        ok := ValidateHistories(histories, artifacts);
      }
    }

    // -----------------------------------------------------------------------
    // Appends
    // -----------------------------------------------------------------------

    method AppendExposure(r: Reservation) returns (ok: bool)
      modifies this`histories, this`calls
      ensures histories == old(histories) || histories == WithExposure(old(histories), r)
      ensures ok ==> histories == WithExposure(old(histories), r)
      ensures (ok <==> Clean(outcomes, old(calls), calls)) && old(calls) < calls
    {
      var outcome := outcomes(calls);
      calls := calls + 1;
      ok := outcome == Applied;
      if outcome != NotApplied {
        histories := WithExposure(histories, r);
      }
    }

    method AppendCapture(r: Receipt) returns (ok: bool)
      modifies this`histories, this`calls
      ensures histories == if outcomes(old(calls)) == NotApplied then old(histories) else WithCapture(old(histories), r)
      ensures (ok <==> Clean(outcomes, old(calls), calls)) && calls == old(calls) + 1
    {
      var outcome := outcomes(calls);
      calls := calls + 1;
      ok := outcome == Applied;
      if outcome != NotApplied {
        histories := WithCapture(histories, r);
      }
    }

    method AppendDisposal(d: Disposal) returns (ok: bool)
      modifies this`histories, this`calls
      ensures histories == old(histories) || histories == WithDisposal(old(histories), d)
      ensures ok ==> histories == WithDisposal(old(histories), d)
      ensures (ok <==> Clean(outcomes, old(calls), calls)) && old(calls) < calls
    {
      var outcome := outcomes(calls);
      calls := calls + 1;
      ok := outcome == Applied;
      if outcome != NotApplied {
        histories := WithDisposal(histories, d);
      }
    }

    method PutArtifact(bytes: string) returns (ok: bool, ghost applied: bool)
      modifies this`artifacts, this`calls
      ensures artifacts == if applied then old(artifacts) + {bytes} else old(artifacts)
      ensures ok ==> applied
      ensures (ok <==> Clean(outcomes, old(calls), calls)) && calls == old(calls) + 1
    {
      var outcome := outcomes(calls);
      calls := calls + 1;
      ok, applied := outcome == Applied, outcome != NotApplied;
      if outcome != NotApplied {
        artifacts := artifacts + {bytes};
      }
    }

    // -----------------------------------------------------------------------
    // Reservation
    // -----------------------------------------------------------------------

    /**
     * Reserves one manifest item. A permit comes back exactly when nothing failed,
     * the attempt was not reserved and its stimulus is stored; then its reservation
     * is in the ledger and it carries the right novelty bit.
     */
    method ReserveExposure(item: AttemptId, stimulusArtifact: string, now: int)
      returns (permit: Option<DisplayPermit>, ghost done: seq<Deed>)
      modifies this`histories, this`calls
      ensures Did(old(Valid()), old(State()), done, State())
      ensures done == [] || done == [Reserve(Reservation(item, now, stimulusArtifact))]
      ensures permit.Some? <==>
                && old(Valid()) && item !in old(Exposed(histories)) && stimulusArtifact in old(artifacts)
                && Clean(outcomes, old(calls), calls)
      ensures permit.Some? ==>
                && done != []
                && fresh(permit.value) && permit.value.attempt == item && !permit.value.consumed
                && old(Stands(histories, item, Unreserved)) && Stands(histories, item, Reserved)
                && Novelty(Exposed(histories), item) == Some(permit.value.novel)
    {
      done := [];
      var ok := Validate();
      if !ok || item in Exposed(histories) || stimulusArtifact !in artifacts {
        return None, [];
      }
      var r := Reservation(item, now, stimulusArtifact);
      ghost var before := State();
      ExposureKeepsValid(before.histories, artifacts, r);
      NoRecordsBefore(before.histories, artifacts, item);
      ok := AppendExposure(r);
      if State() != before {
        done := [Reserve(r)];
        OneDeed(before, Reserve(r));
      }
      if ok { ok := Validate(); }
      if !ok {
        return None, done;
      }
      var novel := NoveltyForReservedAttempt(Exposed(histories), item);
      LastIsReservedOnce(before.histories, r);
      var issued := new DisplayPermit(item, novel.value);
      permit := Some(issued);
    }

    // -----------------------------------------------------------------------
    // Capture
    // -----------------------------------------------------------------------

    /** Whether a terminal record may still be written for the permit's attempt. */
    method MayEnd(permit: DisplayPermit) returns (ok: bool)
      modifies this`calls
      ensures ok <==>
                && Valid() && permit.consumed && Stands(histories, permit.attempt, Reserved)
                && Clean(outcomes, old(calls), calls)
      ensures calls == old(calls) + 1
    {
      ok := Validate();
      if ok {
        var counts := CountAttempts(Exposed(histories));
        CountIsMembership(Exposed(histories), permit.attempt);
        ok := permit.consumed
              && permit.attempt in counts && counts[permit.attempt] == 1
              && permit.attempt !in Captured(histories)
              && permit.attempt !in Disposed(histories);
      }
    }

    /**
     * Captures the exact bytes, if nothing fails. CommitFailed is reported exactly when
     * the ledger refused the receipt of an open R, L or W attempt and, read back, does
     * not hold it.
     */
    method CaptureResponse(permit: DisplayPermit, bytes: string, now: int)
      returns (end: CaptureEnd, ghost done: seq<Deed>)
      modifies this`histories, this`artifacts, this`calls
      ensures Did(old(Valid()), old(State()), done, State())
      ensures done <= [KeepArtifact(bytes), Capture(Receipt(permit.attempt, now, bytes))]
      ensures end.CaptureDone? <==>
                && old(Valid()) && permit.consumed && old(Stands(histories, permit.attempt, Reserved))
                && Clean(outcomes, old(calls), calls)
      ensures end.CaptureDone? ==>
                && end.receipt == Receipt(permit.attempt, now, bytes) && |done| == 2
                && Stands(histories, permit.attempt, CapturedAs(bytes))
      ensures end.CommitFailed? <==>
                && old(Valid()) && permit.consumed && old(Stands(histories, permit.attempt, Reserved))
                && permit.attempt.channel != S && RefusesReceipt(old(calls))
      ensures end.CommitFailed? ==>
                && Valid() && |done| == 1
                && histories == old(histories) && Stands(histories, permit.attempt, Reserved)
      ensures old(calls) < calls
    {
      var ok := MayEnd(permit);
      if !ok {
        return CaptureRaised, [];
      }
      end, done := CaptureOpen(permit, bytes, now);
    }

    /** Keeps the artifact of an open attempt, then its receipt. */
    method CaptureOpen(permit: DisplayPermit, bytes: string, now: int) returns (end: CaptureEnd, ghost done: seq<Deed>)
      requires Valid() && permit.consumed && Stands(histories, permit.attempt, Reserved)
      modifies this`histories, this`artifacts, this`calls
      ensures Did(true, old(State()), done, State())
      ensures done <= [KeepArtifact(bytes), Capture(Receipt(permit.attempt, now, bytes))]
      ensures end.CaptureDone? <==> Clean(outcomes, old(calls), calls)
      ensures end.CaptureDone? ==>
                && end.receipt == Receipt(permit.attempt, now, bytes) && |done| == 2
                && Stands(histories, permit.attempt, CapturedAs(bytes))
      ensures end.CommitFailed? <==>
                permit.attempt.channel != S && outcomes(old(calls)) == Applied && RefusesAppend(old(calls) + 1)
      ensures end.CommitFailed? ==>
                Valid() && |done| == 1 && histories == old(histories) && Stands(histories, permit.attempt, Reserved)
      ensures old(calls) < calls
    {
      done := [];
      ghost var start := State();
      var ok;
      ghost var applied;
      ok, applied := PutArtifact(bytes);
      ArtifactsKeepValid(histories, start.artifacts, artifacts);
      if applied {
        done := [KeepArtifact(bytes)];
        OneDeed(start, KeepArtifact(bytes));
      }
      if !ok {
        return CaptureRaised, done;
      }
      ghost var more;
      end, more := CommitReceipt(Receipt(permit.attempt, now, bytes));
      PerformsBoth(start, done, Act(start, KeepArtifact(bytes)), more, State());
      done := done + more;
    }

    /** Appends the receipt of an open attempt; when the ledger refuses it, looks whether it is there. */
    method CommitReceipt(r: Receipt) returns (end: CaptureEnd, ghost done: seq<Deed>)
      requires Valid() && Stands(histories, r.attempt, Reserved) && r.artifact in artifacts
      modifies this`histories, this`calls
      ensures Did(true, old(State()), done, State())
      ensures done == if histories == old(histories) then [] else [Capture(r)]
      ensures end.CaptureDone? <==> Clean(outcomes, old(calls), calls)
      ensures end.CaptureDone? ==>
                end.receipt == r && done != [] && Stands(histories, r.attempt, CapturedAs(r.artifact))
      ensures end.CommitFailed? <==> r.attempt.channel != S && RefusesAppend(old(calls))
      ensures end.CommitFailed? ==> histories == old(histories)
      ensures old(calls) < calls
    {
      done := [];
      CaptureKeepsValid(histories, artifacts, r);
      CaptureIsSeen(histories, r);
      ghost var before := State();
      var ok := AppendCapture(r);
      if State() != before {
        done := [Capture(r)];
        OneDeed(before, Capture(r));
      }
      if ok {
        return CaptureDone(r), done;
      }
      if !ledgerErrors(calls - 1) {
        return CaptureRaised, done;
      }
      ok := Validate();
      if ok && r.attempt in Exposed(histories) && r.attempt.channel != S
         && r.attempt !in Captured(histories) && r.attempt !in Disposed(histories) {
        return CommitFailed, done;
      }
      end := CaptureRaised;
    }

    // -----------------------------------------------------------------------
    // Dispositions
    // -----------------------------------------------------------------------

    /** An infrastructure failure is recorded only on the strength of a bounded commit failure. */
    method RecordDisposition(permit: DisplayPermit, code: Code, commitFailed: bool, now: int)
      returns (disposal: Option<Disposal>, ghost done: seq<Deed>)
      modifies this`histories, this`calls
      ensures Did(old(Valid()), old(State()), done, State())
      ensures done == [] || done == [Dispose(Disposal(permit.attempt, now, code))]
      ensures done != [] ==> (code == InfrastructureFailure <==> commitFailed)
      ensures disposal.Some? <==>
                && (code == InfrastructureFailure <==> commitFailed) && permit.attempt.channel != S
                && old(Valid()) && permit.consumed && old(Stands(histories, permit.attempt, Reserved))
                && Clean(outcomes, old(calls), calls)
      ensures disposal.Some? ==>
                && disposal.value == Disposal(permit.attempt, now, code) && done != []
                && Stands(histories, permit.attempt, DisposedAs(code))
      ensures old(calls) <= calls
    {
      done := [];
      if (code == InfrastructureFailure) != commitFailed {
        return None, [];
      }
      var ok := MayEnd(permit);
      if !ok || permit.attempt.channel == S {
        return None, [];
      }
      var d := Disposal(permit.attempt, now, code);
      ghost var before := State();
      DisposalKeepsValid(histories, artifacts, d);
      ok := AppendDisposal(d);
      if State() != before {
        done := [Dispose(d)];
        OneDeed(before, Dispose(d));
      }
      disposal := if ok then Some(d) else None;
    }

    // -----------------------------------------------------------------------
    // Closing a text submission
    // -----------------------------------------------------------------------

    /**
     * Returning normally, it has left exactly one terminal record of the attempt:
     * the exact bytes captured, or the reason there is nothing to capture.
     */
    method CloseTextSubmission(raw: Submission, permit: DisplayPermit, capturedAt: int, disposedAt: int)
      returns (closing: Closing, ghost done: seq<Deed>)
      modifies this`histories, this`artifacts, this`calls
      ensures Did(old(Valid()), old(State()), done, State())
      ensures forall d :: Dispose(d) in done ==>
                            d.attempt == permit.attempt && d.disposedAt == disposedAt && Explains(d.code, raw)
      ensures !raw.Answer? ==> done == [] || (|done| == 1 && done[0].Dispose?)
      ensures raw.Answer? ==>
                var kept := KeepArtifact(raw.bytes);
                || done <= [kept, Capture(Receipt(permit.attempt, capturedAt, raw.bytes))]
                || (|done| == 2 && done[0] == kept && done[1].Dispose?)
      ensures closing.ClosedByCapture? ==>
                && raw.Answer? && closing.receipt == Receipt(permit.attempt, capturedAt, raw.bytes)
                && Stands(histories, permit.attempt, CapturedAs(raw.bytes))
      ensures closing.ClosedByDisposal? ==>
                && closing.disposal.attempt == permit.attempt && closing.disposal.disposedAt == disposedAt
                && Explains(closing.disposal.code, raw) && Dispose(closing.disposal) in done
                && (raw.Answer? ==> RefusesReceipt(old(calls)))
                && Stands(histories, permit.attempt, DisposedAs(closing.disposal.code))
      ensures raw.Answer? && Clean(outcomes, old(calls), calls) ==>
                (closing.ClosedByCapture? <==>
                   old(Valid()) && permit.consumed && old(Stands(histories, permit.attempt, Reserved)))
      ensures !raw.Answer? && Clean(outcomes, old(calls), calls) ==>
                (closing.ClosedByDisposal? <==>
                   && old(Valid()) && permit.consumed && old(Stands(histories, permit.attempt, Reserved))
                   && permit.attempt.channel != S)
    {
      if !raw.Answer? {
        var disposal;
        disposal, done := RecordDisposition(permit, CodeFor(raw), false, disposedAt);
        return if disposal.Some? then ClosedByDisposal(disposal.value) else ClosingRaised, done;
      }
      var end;
      ghost var start := State();
      end, done := CaptureResponse(permit, raw.bytes, capturedAt);
      match end {
        case CaptureDone(receipt) => closing := ClosedByCapture(receipt);
        case CaptureRaised => closing := ClosingRaised;
        case CommitFailed =>
          var disposal;
          ghost var more;
          ghost var kept := State();
          disposal, more := RecordDisposition(permit, InfrastructureFailure, true, disposedAt);
          PerformsBoth(start, done, kept, more, State());
          done := done + more;
          closing := if disposal.Some? then ClosedByDisposal(disposal.value) else ClosingRaised;
      }
    }
  }

  /** Which code tells what a submission was, when no capture does. */
  predicate Explains(code: Code, raw: Submission) {
    && (code == NoResponse <==> raw.NoBytes? || raw.Blank?)
    && (code == InvalidArtifact <==> raw.Undecodable?)
    && (code == InfrastructureFailure <==> raw.Answer?)
  }

  /** What a submission without a capture is recorded as. */
  function CodeFor(raw: Submission): Code {
    match raw
    case NoBytes => NoResponse
    case Blank(_) => NoResponse
    case Undecodable(_) => InvalidArtifact
    case Answer(_) => InfrastructureFailure
  }

  lemma LastIsReservedOnce(h: Histories, r: Reservation)
    requires Distinct(Exposed(WithExposure(h, r)))
    ensures Novelty(Exposed(WithExposure(h, r)), r.attempt).Some?
  {
    assert Exposed(WithExposure(h, r)) == Exposed(h) + [r.attempt];
    NoveltyAt(Exposed(WithExposure(h, r)), |Exposed(h)|);
  }

  lemma NoRecordsBefore(h: Histories, artifacts: set<string>, a: AttemptId)
    requires ValidHistories(h, artifacts) && a !in Exposed(h)
    ensures Stands(h, a, Unreserved)
  {
    NothingWithoutReservation(h, artifacts, a);
  }

  lemma CaptureIsSeen(h: Histories, r: Receipt)
    ensures r.attempt in Captured(WithCapture(h, r))
  {
    ReceiptsListed(WithCapture(h, r));
    assert r in WithCapture(h, r).captures;
  }

  // -------------------------------------------------------------------------
  // Whole runs
  // -------------------------------------------------------------------------

  /** A run only lets the ledgers and the store of artifacts grow, and keeps them valid. */
  lemma {:induction false} RunKeepsValid(s: Ledgered, deeds: seq<Deed>, s': Ledgered)
    requires ValidHistories(s.histories, s.artifacts) && Performs(s, deeds, s')
    ensures ValidHistories(s'.histories, s'.artifacts)
    ensures Grows(s.histories, s'.histories) && s.artifacts <= s'.artifacts
    decreases |deeds|
  {
    if deeds != [] {
      var next := Act(s, deeds[0]);
      DeedKeepsValid(s, deeds[0]);
      RunKeepsValid(next, deeds[1..], s');
      GrowthIsTransitive(s.histories, next.histories, s'.histories);
    }
  }

  /** In every run of allowed deeds an attempt's status only advances. */
  lemma RunOnlyAdvances(s: Ledgered, deeds: seq<Deed>, s': Ledgered, a: AttemptId, status: Status, status': Status)
    requires ValidHistories(s.histories, s.artifacts) && Performs(s, deeds, s')
    requires Stands(s.histories, a, status) && Stands(s'.histories, a, status')
    ensures Advances(status, status')
  {
    RunKeepsValid(s, deeds, s');
    ArtifactsKeepValid(s.histories, s.artifacts, s'.artifacts);
    StatusOnlyAdvances(s.histories, s'.histories, s'.artifacts, a, status, status');
  }

  /** Whatever was done in whatever order from empty ledgers: every attempt stands somewhere, in one place only. */
  lemma EveryIntakeRun(deeds: seq<Deed>, s: Ledgered, a: AttemptId) returns (status: Status)
    requires Performs(EMPTY, deeds, s)
    ensures ValidHistories(s.histories, s.artifacts)
    ensures Stands(s.histories, a, status) && forall other :: Stands(s.histories, a, other) ==> other == status
  {
    RunKeepsValid(EMPTY, deeds, s);
    status := ExactlyOneStatus(s.histories, s.artifacts, a);
  }

  /** An attempt written off for an infrastructure failure has no durable capture, now or later. */
  lemma WrittenOffIsNotCaptured(s: Ledgered, deeds: seq<Deed>, s': Ledgered, a: AttemptId)
    requires ValidHistories(s.histories, s.artifacts) && Performs(s, deeds, s')
    requires HasDisposal(s.histories, a, InfrastructureFailure)
    ensures a !in Captured(s'.histories)
  {
    RunKeepsValid(s, deeds, s');
    GrowthKeepsRecords(s.histories, s'.histories, a);
    var d :| d in s'.histories.dispositions && d.attempt == a && d.code == InfrastructureFailure;
    assert DisposalBound(s'.histories, d);
  }
}
