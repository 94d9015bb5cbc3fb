/**
 * Writing a corpus scan to the log: one ENCOUNTER for each unit, source and month,
 * however often the emission is cut short and started again.
 */
module CorpusEmission {
  import opened Wrappers
  import opened Faults

  /** Unit keys in their order; lemma and unit type travel together as the unit's description. */
  datatype Count = Count(unit: nat, description: string, count: nat)

  datatype ScanResult = ScanResult(source: string, month: string, digest: string, fileCount: nat, counts: seq<Count>)

  /** The identity an ENCOUNTER is recorded under. */
  datatype Id = Id(source: string, month: string, unit: nat)

  datatype Encounter = Encounter(id: Id, unit: nat, source: string, month: string, digest: string, fileCount: nat,
                                 description: string, count: nat)

  /** Of the log's records, this producer's ENCOUNTERs: readable ones, and malformed ones. */
  datatype Record = Other | Readable(encounter: Encounter) | Malformed

  // -------------------------------------------------------------------------
  // Plans
  // -------------------------------------------------------------------------

  predicate ValidResult(r: ScanResult) {
    forall i, j :: 0 <= i < j < |r.counts| ==> r.counts[i].unit < r.counts[j].unit
  }

  function Planned(r: ScanResult, c: Count): Encounter {
    Encounter(Id(r.source, r.month, c.unit), c.unit, r.source, r.month, r.digest, r.fileCount, c.description, c.count)
  }

  function Plans(r: ScanResult): (plans: seq<Encounter>)
    ensures |plans| == |r.counts|
    ensures forall i :: 0 <= i < |plans| ==> plans[i] == Planned(r, r.counts[i])
  {
    seq(|r.counts|, i requires 0 <= i < |r.counts| => Planned(r, r.counts[i]))
  }

  // -------------------------------------------------------------------------
  // The history
  // -------------------------------------------------------------------------

  predicate Sound(record: Record) {
    match record
    case Other => true
    case Readable(e) => e.id == Id(e.source, e.month, e.unit)
    case Malformed => false
  }

  /** Two encounters one log may hold: other identities, and one file count for one corpus. */
  predicate Compatible(d: Encounter, e: Encounter) {
    d.id != e.id && (d.source == e.source && d.month == e.month && d.digest == e.digest ==> d.fileCount == e.fileCount)
  }

  predicate Coherent(log: seq<Record>) {
    && (forall i :: 0 <= i < |log| ==> Sound(log[i]))
    && (forall i, j :: 0 <= i < j < |log| && log[i].Readable? && log[j].Readable? ==>
          Compatible(log[i].encounter, log[j].encounter))
  }

  /** A recorded scan of the same source and month is a scan of the same corpus. */
  predicate SameCorpus(r: ScanResult, e: Encounter) {
    e.source == r.source && e.month == r.month ==> e.digest == r.digest && e.fileCount == r.fileCount
  }

  predicate HistoryOk(log: seq<Record>, r: ScanResult) {
    Coherent(log) && SameCorpora(log, r)
  }

  ghost predicate Indexes(history: map<Id, Encounter>, log: seq<Record>) {
    && (forall id <- history :: Readable(history[id]) in log && history[id].id == id)
    && (forall i :: 0 <= i < |log| && log[i].Readable? ==>
          log[i].encounter.id in history && history[log[i].encounter.id] == log[i].encounter)
  }

  datatype Corpus = Corpus(source: string, month: string, digest: string)

  function CorpusOf(e: Encounter): Corpus {
    Corpus(e.source, e.month, e.digest)
  }

  ghost predicate CountsFiles(files: map<Corpus, nat>, log: seq<Record>) {
    && (forall c <- files :: exists e :: Readable(e) in log && CorpusOf(e) == c && e.fileCount == files[c])
    && (forall e :: Readable(e) in log ==> CorpusOf(e) in files && files[CorpusOf(e)] == e.fileCount)
  }

  lemma Indexed(history: map<Id, Encounter>, log: seq<Record>, e: Encounter)
    requires Indexes(history, log) && e.id !in history
    ensures Indexes(history[e.id := e], log + [Readable(e)])
  {
  }

  lemma Filed(files: map<Corpus, nat>, log: seq<Record>, e: Encounter)
    requires CountsFiles(files, log) && (CorpusOf(e) in files ==> files[CorpusOf(e)] == e.fileCount)
    ensures CountsFiles(files[CorpusOf(e) := e.fileCount], log + [Readable(e)])
  {
    var more, files' := log + [Readable(e)], files[CorpusOf(e) := e.fileCount];
    assert Readable(e) in more;
    forall c <- files' ensures exists d :: Readable(d) in more && CorpusOf(d) == c && d.fileCount == files'[c] {
      if c != CorpusOf(e) {
        var d :| Readable(d) in log && CorpusOf(d) == c && d.fileCount == files[c];
        assert Readable(d) in more;
      }
    }
  }

  /** What the two indexes let through fits behind the log. */
  lemma Admitted(history: map<Id, Encounter>, files: map<Corpus, nat>, log: seq<Record>, e: Encounter)
    requires Indexes(history, log) && CountsFiles(files, log) && Coherent(log)
    requires Sound(Readable(e)) && e.id !in history
    requires CorpusOf(e) in files ==> files[CorpusOf(e)] == e.fileCount
    ensures Coherent(log + [Readable(e)])
  {
    forall i | 0 <= i < |log| && log[i].Readable? ensures Compatible(log[i].encounter, e) {
      assert Readable(log[i].encounter) in log;
    }
  }

  lemma Clash(log: seq<Record>, i: nat, d: Encounter)
    requires i < |log| && log[i].Readable? && Readable(d) in log[..i] && !Compatible(d, log[i].encounter)
    ensures !Coherent(log)
  {
    var j :| 0 <= j < i && log[..i][j] == Readable(d);
    assert log[j] == Readable(d);
  }

  lemma OtherIsPassed(history: map<Id, Encounter>, files: map<Corpus, nat>, log: seq<Record>)
    requires Indexes(history, log) && CountsFiles(files, log) && Coherent(log)
    ensures Indexes(history, log + [Other]) && CountsFiles(files, log + [Other]) && Coherent(log + [Other])
  {
    OtherIsNotFiled(files, log);
    OtherIsNotIndexed(history, log);
    OtherIsCoherent(log);
  }

  lemma OtherIsNotIndexed(history: map<Id, Encounter>, log: seq<Record>)
    requires Indexes(history, log)
    ensures Indexes(history, log + [Other])
  {
  }

  lemma OtherIsCoherent(log: seq<Record>)
    requires Coherent(log)
    ensures Coherent(log + [Other])
  {
  }

  lemma OtherIsNotFiled(files: map<Corpus, nat>, log: seq<Record>)
    requires CountsFiles(files, log)
    ensures CountsFiles(files, log + [Other])
  {
    forall c <- files
      ensures exists d :: Readable(d) in log + [Other] && CorpusOf(d) == c && d.fileCount == files[c]
    {
      var d :| Readable(d) in log && CorpusOf(d) == c && d.fileCount == files[c];
      assert Readable(d) in log + [Other];
    }
  }

  predicate SameCorpora(log: seq<Record>, r: ScanResult) {
    forall i :: 0 <= i < |log| && log[i].Readable? ==> SameCorpus(r, log[i].encounter)
  }

  /** Both indexes kept while one encounter is read, or why the log must be refused. */
  method Admit(log: seq<Record>, i: nat, history: map<Id, Encounter>, files: map<Corpus, nat>)
    returns (ok: bool, history': map<Id, Encounter>, files': map<Corpus, nat>)
    requires i < |log| && log[i].Readable?
    requires Coherent(log[..i]) && Indexes(history, log[..i]) && CountsFiles(files, log[..i])
    ensures ok ==> Coherent(log[..i + 1]) && Indexes(history', log[..i + 1]) && CountsFiles(files', log[..i + 1])
    ensures !ok ==> !Coherent(log)
  {
    var e := log[i].encounter;
    assert log[..i + 1] == log[..i] + [log[i]];
    ok, history', files' := false, history, files;
    if !Sound(log[i]) {
      return;
    }
    if e.id in history {
      Clash(log, i, history[e.id]);
      return;
    }
    if CorpusOf(e) in files && files[CorpusOf(e)] != e.fileCount {
      ghost var d :| Readable(d) in log[..i] && CorpusOf(d) == CorpusOf(e) && d.fileCount == files[CorpusOf(e)];
      Clash(log, i, d);
      return;
    }
    Admitted(history, files, log[..i], e);
    Indexed(history, log[..i], e);
    Filed(files, log[..i], e);
    ok, history', files' := true, history[e.id := e], files[CorpusOf(e) := e.fileCount];
  }

  /** Reads the whole history into an index, and refuses one this result does not fit. */
  method ValidatedHistory(log: seq<Record>, r: ScanResult) returns (history: Option<map<Id, Encounter>>)
    ensures history.Some? <==> HistoryOk(log, r)
    ensures history.Some? ==> Indexes(history.value, log)
  {
    var byId: map<Id, Encounter> := map[];
    var files: map<Corpus, nat> := map[];
    var i := 0;
    while i < |log|
      invariant 0 <= i <= |log|
      invariant Coherent(log[..i]) && SameCorpora(log[..i], r)
      invariant Indexes(byId, log[..i]) && CountsFiles(files, log[..i])
    {
      assert log[..i + 1] == log[..i] + [log[i]];
      match log[i] {
        case Malformed =>
          assert !Sound(log[i]);
          return None;
        case Readable(e) =>
          var ok;
          ok, byId, files := Admit(log, i, byId, files);
          if !ok || !SameCorpus(r, e) {
            return None;
          }
        case Other =>
          OtherIsPassed(byId, files, log[..i]);
      }
      i := i + 1;
    }
    assert log[..i] == log;
    history := Some(byId);
  }

  // -------------------------------------------------------------------------
  // Emission
  // -------------------------------------------------------------------------

  ghost predicate Recorded(log: seq<Record>, id: Id) {
    exists e :: Readable(e) in log && e.id == id
  }

  /** The plans the log holds nothing for yet, in their order. */
  ghost function Missing(plans: seq<Encounter>, log: seq<Record>): seq<Encounter> {
    if plans == [] then []
    else (if Recorded(log, plans[0].id) then [] else [plans[0]]) + Missing(plans[1..], log)
  }

  ghost function Existing(plans: seq<Encounter>, log: seq<Record>): seq<Id> {
    if plans == [] then []
    else (if Recorded(log, plans[0].id) then [plans[0].id] else []) + Existing(plans[1..], log)
  }

  /** What is recorded for a plan is the plan. */
  ghost predicate Agrees(log: seq<Record>, plans: seq<Encounter>) {
    forall i :: 0 <= i < |plans| && Recorded(log, plans[i].id) ==> Readable(plans[i]) in log
  }

  ghost predicate Fits(log: seq<Record>, r: ScanResult) {
    ValidResult(r) && HistoryOk(log, r) && Agrees(log, Plans(r))
  }

  function Records(encounters: seq<Encounter>): (records: seq<Record>)
    ensures |records| == |encounters|
    ensures forall i :: 0 <= i < |records| ==> records[i] == Readable(encounters[i])
  {
    seq(|encounters|, i requires 0 <= i < |encounters| => Readable(encounters[i]))
  }

  function Ids(encounters: seq<Encounter>): (ids: seq<Id>)
    ensures |ids| == |encounters|
    ensures forall i :: 0 <= i < |ids| ==> ids[i] == encounters[i].id
  {
    seq(|encounters|, i requires 0 <= i < |encounters| => encounters[i].id)
  }

  datatype Preflight = Refused | Ready(missing: seq<Encounter>, existing: seq<Id>)

  datatype Report = Report(appended: seq<Id>, existing: seq<Id>)

  /** How many of the appends from this one on reach the log before one fails. */
  function Landed(append: nat -> Outcome, i: nat, n: nat): (landed: nat)
    requires i <= n
    ensures landed <= n - i
    decreases n - i
  {
    if i == n then 0
    else
      match append(i)
      case NotApplied => 0
      case AppliedThenRaised => 1
      case Applied => 1 + Landed(append, i + 1, n)
  }

  method CheckResult(r: ScanResult) returns (ok: bool)
    ensures ok <==> ValidResult(r)
  {
    var i := 1;
    while i < |r.counts|
      invariant forall j, k :: 0 <= j < k < i && k < |r.counts| ==> r.counts[j].unit < r.counts[k].unit
    {
      if r.counts[i].unit <= r.counts[i - 1].unit {
        return false;
      }
      i := i + 1;
    }
    ok := true;
  }

  lemma RecordedIsIndexed(history: map<Id, Encounter>, log: seq<Record>, plan: Encounter)
    requires Indexes(history, log)
    ensures plan.id in history <==> Recorded(log, plan.id)
    ensures plan.id in history ==> (history[plan.id] == plan <==> Readable(plan) in log)
  {
  }

  lemma {:induction false} MissingOneMore(plans: seq<Encounter>, plan: Encounter, log: seq<Record>)
    ensures Missing(plans + [plan], log) == Missing(plans, log) + if Recorded(log, plan.id) then [] else [plan]
  {
    if plans == [] {
      assert plans + [plan] == [plan];
      OnePlan(plan, log);
    } else {
      assert (plans + [plan])[0] == plans[0] && (plans + [plan])[1..] == plans[1..] + [plan];
      MissingOneMore(plans[1..], plan, log);
      var first := if Recorded(log, plans[0].id) then [] else [plans[0]];
      var last := if Recorded(log, plan.id) then [] else [plan];
      assert first + (Missing(plans[1..], log) + last) == first + Missing(plans[1..], log) + last;
    }
  }

  lemma {:induction false} ExistingOneMore(plans: seq<Encounter>, plan: Encounter, log: seq<Record>)
    ensures Existing(plans + [plan], log) == Existing(plans, log) + if Recorded(log, plan.id) then [plan.id] else []
  {
    if plans == [] {
      assert plans + [plan] == [plan];
      OnePlan(plan, log);
    } else {
      assert (plans + [plan])[0] == plans[0] && (plans + [plan])[1..] == plans[1..] + [plan];
      ExistingOneMore(plans[1..], plan, log);
      var first := if Recorded(log, plans[0].id) then [plans[0].id] else [];
      var last := if Recorded(log, plan.id) then [plan.id] else [];
      assert first + (Existing(plans[1..], log) + last) == first + Existing(plans[1..], log) + last;
    }
  }

  lemma OnePlan(plan: Encounter, log: seq<Record>)
    ensures Missing([plan], log) == if Recorded(log, plan.id) then [] else [plan]
    ensures Existing([plan], log) == if Recorded(log, plan.id) then [plan.id] else []
  {
    assert [plan][1..] == [];
    assert Missing([], log) == [] && Existing([], log) == [];
  }

  class EventStore {
    var log: seq<Record>

    method RunPreflight(r: ScanResult) returns (preflight: Preflight)
      ensures preflight.Ready? <==> Fits(log, r)
      ensures preflight.Ready? ==>
              preflight.missing == Missing(Plans(r), log) && preflight.existing == Existing(Plans(r), log)
    {
      var ok := CheckResult(r);
      if !ok {
        return Refused;
      }
      var plans := Plans(r);
      var history := ValidatedHistory(log, r);
      if history.None? {
        return Refused;
      }
      var missing: seq<Encounter>, existing: seq<Id> := [], [];
      var i := 0;
      while i < |plans|
        invariant 0 <= i <= |plans|
        invariant Agrees(log, plans[..i])
        invariant missing == Missing(plans[..i], log) && existing == Existing(plans[..i], log)
      {
        var plan := plans[i];
        RecordedIsIndexed(history.value, log, plan);
        assert plans[..i + 1] == plans[..i] + [plan];
        MissingOneMore(plans[..i], plan, log);
        ExistingOneMore(plans[..i], plan, log);
        if plan.id !in history.value {
          missing := missing + [plan];
        } else if history.value[plan.id] != plan {
          return Refused;
        } else {
          existing := existing + [plan.id];
        }
        i := i + 1;
      }
      assert plans[..i] == plans;
      preflight := Ready(missing, existing);
    }

    /** One record after the other, until an append fails. */
    method AppendAll(missing: seq<Encounter>, append: nat -> Outcome) returns (appended: seq<Id>, ok: bool)
      modifies this
      ensures log == old(log) + Records(missing[..Landed(append, 0, |missing|)])
      ensures ok <==> Clean(append, 0, |missing|)
      ensures ok ==> log == old(log) + Records(missing) && appended == Ids(missing)
    {
      appended := [];
      var i := 0;
      while i < |missing|
        invariant 0 <= i <= |missing|
        invariant log == old(log) + Records(missing[..i]) && appended == Ids(missing[..i])
        invariant Clean(append, 0, i)
        invariant Landed(append, 0, |missing|) == i + Landed(append, i, |missing|)
      {
        RecordsOneMore(missing, i);
        if append(i).NotApplied? {
          return appended, false;
        }
        log := log + [Readable(missing[i])];
        if append(i).AppliedThenRaised? {
          return appended, false;
        }
        appended := appended + [missing[i].id];
        i := i + 1;
      }
      assert missing[..i] == missing;
      ok := true;
    }

    /** Checks the history first, then appends what is missing from it. */
    method EmitScan(r: ScanResult, append: nat -> Outcome) returns (report: Option<Report>)
      modifies this
      ensures !Fits(old(log), r) ==> log == old(log) && report.None?
      ensures Fits(old(log), r) ==>
                var missing := Missing(Plans(r), old(log));
                && log == old(log) + Records(missing[..Landed(append, 0, |missing|)])
                && (report.Some? <==> Clean(append, 0, |missing|))
      ensures report.Some? ==>
                && log == old(log) + Records(Missing(Plans(r), old(log)))
                && report.value == Report(Ids(Missing(Plans(r), old(log))), Existing(Plans(r), old(log)))
    {
      var preflight := RunPreflight(r);
      if preflight.Refused? {
        return None;
      }
      var appended, ok := AppendAll(preflight.missing, append);
      report := if ok then Some(Report(appended, preflight.existing)) else None;
    }
  }

  lemma RecordsOneMore(encounters: seq<Encounter>, i: nat)
    requires i < |encounters|
    ensures Records(encounters[..i + 1]) == Records(encounters[..i]) + [Readable(encounters[i])]
    ensures Ids(encounters[..i + 1]) == Ids(encounters[..i]) + [encounters[i].id]
  {
  }

  // -------------------------------------------------------------------------
  // Cut and started again
  // -------------------------------------------------------------------------

  lemma {:induction false} MissingMembers(plans: seq<Encounter>, log: seq<Record>, e: Encounter)
    ensures e in Missing(plans, log) <==> e in plans && !Recorded(log, e.id)
  {
    if plans != [] {
      MissingMembers(plans[1..], log, e);
      assert plans == [plans[0]] + plans[1..];
    }
  }

  ghost predicate Distinct(encounters: seq<Encounter>) {
    forall i, j :: 0 <= i < j < |encounters| ==> encounters[i].id != encounters[j].id
  }

  lemma RecordedNext(log: seq<Record>, e: Encounter, id: Id)
    ensures Recorded(log + [Readable(e)], id) <==> Recorded(log, id) || e.id == id
  {
    if Recorded(log, id) {
      var d :| Readable(d) in log && d.id == id;
      assert Readable(d) in log + [Readable(e)];
    }
    assert Readable(e) in log + [Readable(e)];
  }

  /** One more record behind the log takes exactly its own plan off what is missing. */
  lemma {:induction false} MissingNext(plans: seq<Encounter>, log: seq<Record>, e: Encounter)
    requires Distinct(plans) && Missing(plans, log) != [] && e == Missing(plans, log)[0]
    ensures Missing(plans, log + [Readable(e)]) == Missing(plans, log)[1..]
  {
    RecordedNext(log, e, plans[0].id);
    if Recorded(log, plans[0].id) {
      MissingNext(plans[1..], log, e);
    } else {
      MissingWithout(plans[1..], log, e);
    }
  }

  lemma {:induction false} MissingWithout(plans: seq<Encounter>, log: seq<Record>, e: Encounter)
    requires forall i :: 0 <= i < |plans| ==> plans[i].id != e.id
    ensures Missing(plans, log + [Readable(e)]) == Missing(plans, log)
  {
    if plans != [] {
      RecordedNext(log, e, plans[0].id);
      MissingWithout(plans[1..], log, e);
    }
  }

  lemma PlansDistinct(r: ScanResult)
    requires ValidResult(r)
    ensures Distinct(Plans(r))
  {
  }

  /** A planned record fits behind a log the result fits. */
  lemma PlanFits(log: seq<Record>, r: ScanResult, e: Encounter)
    requires Fits(log, r) && e in Missing(Plans(r), log)
    ensures Fits(log + [Readable(e)], r)
  {
    MissingMembers(Plans(r), log, e);
    PlanIsCompatible(log, r, e);
    var plans, more := Plans(r), log + [Readable(e)];
    forall i | 0 <= i < |plans| && Recorded(more, plans[i].id) ensures Readable(plans[i]) in more {
      RecordedNext(log, e, plans[i].id);
    }
  }

  lemma PlanIsCompatible(log: seq<Record>, r: ScanResult, e: Encounter)
    requires HistoryOk(log, r) && e in Plans(r) && !Recorded(log, e.id)
    ensures HistoryOk(log + [Readable(e)], r)
  {
    forall i | 0 <= i < |log| && log[i].Readable? ensures Compatible(log[i].encounter, e) {
      assert Readable(log[i].encounter) in log;
      assert SameCorpus(r, log[i].encounter);
    }
  }

  /** An emission cut after any append leaves exactly the rest still missing. */
  lemma {:induction false} CutEmission(log: seq<Record>, r: ScanResult, k: nat)
    requires Fits(log, r) && k <= |Missing(Plans(r), log)|
    ensures Fits(log + Records(Missing(Plans(r), log)[..k]), r)
    ensures Missing(Plans(r), log + Records(Missing(Plans(r), log)[..k])) == Missing(Plans(r), log)[k..]
  {
    var missing := Missing(Plans(r), log);
    if k == 0 {
      assert log + Records(missing[..0]) == log;
    } else {
      CutEmission(log, r, k - 1);
      RecordsOneMore(missing, k - 1);
      var before := log + Records(missing[..k - 1]);
      assert before + [Readable(missing[k - 1])] == log + Records(missing[..k]);
      assert missing[k - 1..][0] == missing[k - 1] && missing[k - 1..][1..] == missing[k..];
      OneMoreEmitted(before, r);
    }
  }

  lemma OneMoreEmitted(log: seq<Record>, r: ScanResult)
    requires Fits(log, r) && Missing(Plans(r), log) != []
    ensures var missing := Missing(Plans(r), log);
            && Fits(log + [Readable(missing[0])], r)
            && Missing(Plans(r), log + [Readable(missing[0])]) == missing[1..]
  {
    PlansDistinct(r);
    PlanFits(log, r, Missing(Plans(r), log)[0]);
    MissingNext(Plans(r), log, Missing(Plans(r), log)[0]);
  }

  /** What a run of the emission leaves in the log, when its first `k` appends land. */
  ghost function Emitted(log: seq<Record>, r: ScanResult, k: nat): seq<Record> {
    var missing := Missing(Plans(r), log);
    if Fits(log, r) then log + Records(missing[..if k <= |missing| then k else |missing|]) else log
  }

  ghost function EmittedOver(log: seq<Record>, r: ScanResult, cuts: seq<nat>): seq<Record>
    decreases |cuts|
  {
    if cuts == [] then log else EmittedOver(Emitted(log, r, cuts[0]), r, cuts[1..])
  }

  lemma OneCut(log: seq<Record>, r: ScanResult, cut: nat)
    requires Fits(log, r)
    ensures var after := Emitted(log, r, cut);
            Fits(after, r) && after + Records(Missing(Plans(r), after)) == log + Records(Missing(Plans(r), log))
  {
    var missing := Missing(Plans(r), log);
    var k := if cut <= |missing| then cut else |missing|;
    CutEmission(log, r, k);
    RecordsSplit(log, missing, k);
  }

  lemma RecordsSplit(log: seq<Record>, encounters: seq<Encounter>, k: nat)
    requires k <= |encounters|
    ensures log + Records(encounters[..k]) + Records(encounters[k..]) == log + Records(encounters)
  {
  }

  /**
   * However often it is cut, and wherever, an emission that is at last let through
   * leaves what one uninterrupted run would have left.
   */
  lemma {:induction false} CutAndRestarted(log: seq<Record>, r: ScanResult, cuts: seq<nat>)
    requires Fits(log, r)
    ensures var cut := EmittedOver(log, r, cuts);
            Fits(cut, r) && cut + Records(Missing(Plans(r), cut)) == log + Records(Missing(Plans(r), log))
    decreases |cuts|
  {
    if cuts != [] {
      OneCut(log, r, cuts[0]);
      CutAndRestarted(Emitted(log, r, cuts[0]), r, cuts[1..]);
    }
  }

  ghost predicate ExactlyOnce(log: seq<Record>, e: Encounter) {
    Readable(e) in log && forall i, j :: 0 <= i < j < |log| && log[i].Readable? && log[j].Readable? ==>
                             !(log[i].encounter.id == e.id && log[j].encounter.id == e.id)
  }

  /** After a run that is let through, each plan is recorded exactly once, and nothing is missing. */
  lemma CompletedEmission(log: seq<Record>, r: ScanResult)
    requires Fits(log, r)
    ensures var after := log + Records(Missing(Plans(r), log));
            && Fits(after, r) && Missing(Plans(r), after) == []
            && (forall e :: e in Plans(r) ==> ExactlyOnce(after, e))
  {
    var missing := Missing(Plans(r), log);
    var after := log + Records(missing);
    assert missing[..|missing|] == missing;
    CutEmission(log, r, |missing|);
    forall e | e in Plans(r) ensures ExactlyOnce(after, e) {
      MissingMembers(Plans(r), after, e);
      assert Recorded(after, e.id);
    }
  }

  /** The encounter is about the counted unit, for the scan's source and month. */
  predicate Counts(e: Encounter, r: ScanResult, c: Count) {
    e.source == r.source && e.month == r.month && e.unit == c.unit
  }

  /** The encounter says of the scan's count what the scan says. */
  predicate Carries(e: Encounter, r: ScanResult, c: Count) {
    && Counts(e, r, c)
    && e.digest == r.digest && e.fileCount == r.fileCount
    && e.description == c.description && e.count == c.count
  }

  /**
   * A completed emission has one record of each counted unit for the scan's source and
   * month, which carries that count; whatever it added carries a count of the scan.
   */
  lemma EveryCountIsRecorded(log: seq<Record>, r: ScanResult)
    requires Fits(log, r)
    ensures var after := log + Records(Missing(Plans(r), log));
            && (forall c :: c in r.counts ==> exists e :: Readable(e) in after && Carries(e, r, c))
            && (forall c, e :: c in r.counts && Readable(e) in after && Counts(e, r, c) ==> Carries(e, r, c))
            && (forall e :: Readable(e) in after && Readable(e) !in log ==>
                  exists c :: c in r.counts && Carries(e, r, c))
  {
    var missing := Missing(Plans(r), log);
    var after := log + Records(missing);
    CompletedEmission(log, r);
    forall c | c in r.counts ensures Readable(Planned(r, c)) in after && Carries(Planned(r, c), r, c) {
      var i :| 0 <= i < |r.counts| && r.counts[i] == c;
      assert Plans(r)[i] in Plans(r);
    }
    forall c, e | c in r.counts && Readable(e) in after && Counts(e, r, c)
      ensures Carries(e, r, c)
    {
      OneRecordEach(after, e, Planned(r, c));
    }
    forall e | Readable(e) in after && Readable(e) !in log ensures exists c :: c in r.counts && Carries(e, r, c) {
      var k :| 0 <= k < |Records(missing)| && Records(missing)[k] == Readable(e);
      assert missing[k] in missing;
      MissingMembers(Plans(r), log, e);
      var i :| 0 <= i < |Plans(r)| && Plans(r)[i] == e;
      assert r.counts[i] in r.counts;
    }
  }

  /** In a coherent log the identity tells the record. */
  lemma OneRecordEach(log: seq<Record>, d: Encounter, e: Encounter)
    requires Coherent(log) && Readable(d) in log && Readable(e) in log
    requires d.source == e.source && d.month == e.month && d.unit == e.unit
    ensures d == e
  {
    var i :| 0 <= i < |log| && log[i] == Readable(d);
    var j :| 0 <= j < |log| && log[j] == Readable(e);
    assert Sound(log[i]) && Sound(log[j]);
    assert !(i < j) && !(j < i);
  }

  lemma IdsSplit(encounters: seq<Encounter>)
    requires encounters != []
    ensures multiset(Ids(encounters)) == multiset{encounters[0].id} + multiset(Ids(encounters[1..]))
  {
    assert Ids(encounters) == [encounters[0].id] + Ids(encounters[1..]);
  }

  ghost function ReportedIds(plans: seq<Encounter>, log: seq<Record>): multiset<Id> {
    multiset(Ids(Missing(plans, log))) + multiset(Existing(plans, log))
  }

  lemma ReportedSplit(plans: seq<Encounter>, log: seq<Record>)
    requires plans != []
    ensures ReportedIds(plans, log) == multiset{plans[0].id} + ReportedIds(plans[1..], log)
  {
    if Recorded(log, plans[0].id) {
      assert Missing(plans, log) == Missing(plans[1..], log);
      assert Existing(plans, log) == [plans[0].id] + Existing(plans[1..], log);
    } else {
      assert Missing(plans, log) == [plans[0]] + Missing(plans[1..], log);
      assert Missing(plans, log)[1..] == Missing(plans[1..], log);
      IdsSplit(Missing(plans, log));
      assert Existing(plans, log) == Existing(plans[1..], log);
    }
  }

  /** What a run appends and what it finds are together exactly its plans' identities. */
  lemma {:induction false} ReportPartitions(plans: seq<Encounter>, log: seq<Record>)
    ensures ReportedIds(plans, log) == multiset(Ids(plans))
  {
    if plans != [] {
      ReportPartitions(plans[1..], log);
      ReportedSplit(plans, log);
      IdsSplit(plans);
    }
  }

  /** Scans of other months or sources may be emitted in between. */
  lemma OtherScansFit(log: seq<Record>, r: ScanResult, other: ScanResult, e: Encounter)
    requires Fits(log, r) && Fits(log, other) && (r.source != other.source || r.month != other.month)
    requires e in Missing(Plans(other), log)
    ensures Fits(log + [Readable(e)], r)
  {
    MissingMembers(Plans(other), log, e);
    PlanIsCompatible(log, other, e);
    var plans, more := Plans(r), log + [Readable(e)];
    forall i | 0 <= i < |plans| && Recorded(more, plans[i].id) ensures Readable(plans[i]) in more {
      RecordedNext(log, e, plans[i].id);
    }
  }

  /** Once one record of a month is there, a scan of another corpus for that month is refused. */
  lemma MonthIsImmutable(log: seq<Record>, r: ScanResult, e: Encounter, other: ScanResult)
    requires Readable(e) in log && Fits(log, r) && e.source == r.source && e.month == r.month
    requires other.source == r.source && other.month == r.month
    requires other.digest != r.digest || other.fileCount != r.fileCount
    ensures !Fits(log, other)
  {
    var i :| 0 <= i < |log| && log[i] == Readable(e);
    assert SameCorpus(r, log[i].encounter);
  }

  /** What emissions of any scans, each cut anywhere, leave in the log. */
  ghost function AfterEmissions(log: seq<Record>, runs: seq<(ScanResult, nat)>): seq<Record>
    decreases |runs|
  {
    if runs == [] then log else AfterEmissions(Emitted(log, runs[0].0, runs[0].1), runs[1..])
  }

  /** Over any emissions of any scans no identity is recorded twice, and nothing recorded is lost. */
  lemma {:induction false} EveryEmissionLife(log: seq<Record>, runs: seq<(ScanResult, nat)>)
    requires Coherent(log)
    ensures Coherent(AfterEmissions(log, runs))
    ensures log <= AfterEmissions(log, runs)
    decreases |runs|
  {
    if runs != [] {
      var (r, k) := runs[0];
      if Fits(log, r) {
        var n := |Missing(Plans(r), log)|;
        CutEmission(log, r, if k <= n then k else n);
      }
      EveryEmissionLife(Emitted(log, r, k), runs[1..]);
    }
  }
}
