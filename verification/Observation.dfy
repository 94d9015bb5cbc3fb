/**
 * The two stores of one unit, the note in Anki and the event log, and the
 * read-only snapshot a decision is computed from.
 */
module Observation {
  import opened Wrappers
  import opened Lifecycle
  import opened Journal
  import R = Revlog
  import M = Mastery

  datatype Card = Card(interval: nat, lapses: nat, suspended: bool)

  /**
   * `note` holds the state field of every enabled channel, `cards` and
   * `reviews` the one card each of them has. `reviewsInOrder` is history that no
   * call reads: every review so far came with an id above those before it.
   */
  datatype World = World(
    note: map<Channel, LifeState>,
    cards: map<Channel, Card>,
    reviews: map<Channel, seq<R.Review>>,
    log: seq<Entry>,
    leech: bool,
    clock: int,
    reviewsInOrder: bool)

  /** A note that the loader accepts: enabled channels exist and each has one card. */
  predicate Wired(w: World) {
    && w.note.Keys != {}
    && w.cards.Keys == w.note.Keys
    && w.reviews.Keys == w.note.Keys
  }

  function Active(w: World): seq<Channel> {
    InOrder(w.note.Keys)
  }

  datatype Refusal =
    | RevlogUnreadable
    | HistoryUnreadable
    | DecisionInputInvalid
    | DuplicateAssessmentId
    | InvalidDecision

  datatype ChannelProgress = ChannelProgress(
    channel: Channel,
    state: LifeState,
    interval: int,
    lapsesTotal: int,
    lapsesInWindow: int,
    ageDays: int,
    suspended: bool,
    first: Option<nat>,
    latest: Option<nat>,
    latestLapse: Option<nat>,
    episode: Episode,
    entered: Option<int>,
    reviewAfterEntry: Option<nat>,
    lapseAfterEntry: Option<nat>,
    assessments: seq<M.Assessment>)

  datatype UnitProgress = UnitProgress(
    channels: map<Channel, ChannelProgress>,
    allMasteredAt: Option<int>,
    leech: bool)

  // -------------------------------------------------------------------------
  // Readability
  // -------------------------------------------------------------------------

  predicate RevlogReadable(reviews: map<Channel, seq<R.Review>>, now: int) {
    && (forall c :: c in reviews ==> R.CardReadable(reviews[c], now))
    && (forall c, d :: c in reviews && d in reviews && c != d ==> R.Ids(reviews[c]) !! R.Ids(reviews[d]))
  }

  /** No record of the unit is dated after `now`. */
  predicate NoFuture(log: seq<Entry>, now: int) {
    forall i :: 0 <= i < |log| ==> Stamp(log[i]) <= now
  }

  /** The same for the journal records alone, which is all that recovery reads. */
  predicate NoFutureState(log: seq<Entry>, now: int) {
    forall i :: 0 <= i < |log| && log[i].StateEntry? ==> Stamp(log[i]) <= now
  }

  /** The committed chain of a channel leads to the state the note holds. */
  predicate Placed(w: World, c: Channel)
    requires c in w.note
  {
    var at := Replay(w.log, c);
    at.Some? && at.value.state == w.note[c]
  }

  predicate HistoryReadable(w: World, now: int) {
    && NoFuture(w.log, now)
    && Fold(w.log).Some?
    && forall c :: c in w.note ==> Placed(w, c)
  }

  // -------------------------------------------------------------------------
  // Observation
  // -------------------------------------------------------------------------

  function Progress(w: World, c: Channel, s: R.Summary, at: Position): ChannelProgress
    requires Wired(w) && c in w.note
  {
    ChannelProgress(
      c,
      w.note[c],
      w.cards[c].interval,
      w.cards[c].lapses,
      s.lapsesInWindow,
      s.ageDays,
      w.cards[c].suspended,
      s.first,
      s.latest,
      s.latestLapse,
      at.episode,
      at.entered,
      R.FirstIdAfter(s.lifecycle, at.entered),
      R.FirstIdAfter(s.lapses, at.entered),
      M.Ordered(AssessmentsOf(w.log, c)))
  }

  /** The latest entry, over channels that all have one. */
  function LatestEntry(channels: map<Channel, ChannelProgress>, cs: seq<Channel>): Option<int>
    requires forall c :: c in cs ==> c in channels
  {
    if cs == [] then None
    else
      var rest := LatestEntry(channels, cs[1..]);
      match channels[cs[0]].entered
      case None => rest
      case Some(t) => if rest.None? || rest.value < t then Some(t) else rest
  }

  function AllMasteredAt(channels: map<Channel, ChannelProgress>): Option<int> {
    if channels.Keys != {} && forall c :: c in channels ==> channels[c].state == Mastered
    then LatestEntry(channels, InOrder(channels.Keys))
    else None
  }

  function Summaries(reviews: map<Channel, seq<R.Review>>, now: int): map<Channel, R.Summary> {
    map c | c in reviews :: R.Summarize(reviews[c], now)
  }

  function Positions(w: World): map<Channel, Position>
    requires forall c :: c in w.note ==> Placed(w, c)
  {
    map c | c in w.note :: assert Placed(w, c); Replay(w.log, c).value
  }

  function Snapshot(w: World, summaries: map<Channel, R.Summary>, positions: map<Channel, Position>): UnitProgress
    requires Wired(w) && summaries.Keys == positions.Keys == w.note.Keys
  {
    var channels := map c | c in w.note :: Progress(w, c, summaries[c], positions[c]);
    UnitProgress(channels, AllMasteredAt(channels), w.leech)
  }

  function Observe(w: World, now: int): Result<UnitProgress, Refusal>
    requires Wired(w)
  {
    if !RevlogReadable(w.reviews, now) then Err(RevlogUnreadable)
    else if !HistoryReadable(w, now) then Err(HistoryUnreadable)
    else Ok(Snapshot(w, Summaries(w.reviews, now), Positions(w)))
  }

  /** Card after card: the summaries read, or none at the first card that cannot be trusted. */
  function ReadFrom(reviews: map<Channel, seq<R.Review>>, todo: seq<Channel>, seen: set<nat>,
                    read: map<Channel, R.Summary>, now: int): Option<map<Channel, R.Summary>>
    requires forall c :: c in todo ==> c in reviews
  {
    if todo == [] then Some(read)
    else
      var c := todo[0];
      if R.CardReadable(reviews[c], now) && R.Ids(reviews[c]) !! seen
      then ReadFrom(reviews, todo[1..], seen + R.Ids(reviews[c]), read[c := R.Summarize(reviews[c], now)], now)
      else None
  }

  /** Reads the review rows of every card, refusing an id seen on any other card. */
  method LoadRevlog(reviews: map<Channel, seq<R.Review>>, now: int) returns (summaries: Option<map<Channel, R.Summary>>)
    ensures summaries == if RevlogReadable(reviews, now) then Some(Summaries(reviews, now)) else None
  {
    var todo := InOrder(reviews.Keys);
    ReadFromMeaning(reviews, now);
    var seen: set<nat> := {};
    var read: map<Channel, R.Summary> := map[];
    while todo != []
      invariant forall c :: c in todo ==> c in reviews
      invariant ReadFrom(reviews, InOrder(reviews.Keys), {}, map[], now) == ReadFrom(reviews, todo, seen, read, now)
      decreases todo
    {
      var c := todo[0];
      var summary, seen' := R.ReadCard(reviews[c], seen, now);
      if summary.None? {
        return None;
      }
      todo, seen, read := todo[1..], seen', read[c := summary.value];
    }
    summaries := Some(read);
  }

  predicate Unrepeated(cs: seq<Channel>) {
    forall i, j :: 0 <= i < j < |cs| ==> cs[i] != cs[j]
  }

  /** The cards of `cs` can be read together and with nothing in `seen`. */
  ghost predicate ReadableFrom(reviews: map<Channel, seq<R.Review>>, cs: seq<Channel>, seen: set<nat>, now: int) {
    && (forall c :: c in cs ==> c in reviews && R.CardReadable(reviews[c], now) && R.Ids(reviews[c]) !! seen)
    && (forall c, d :: c in cs && d in cs && c != d ==> R.Ids(reviews[c]) !! R.Ids(reviews[d]))
  }

  lemma ReadableOneByOne(reviews: map<Channel, seq<R.Review>>, cs: seq<Channel>, seen: set<nat>, now: int)
    requires cs != [] && Unrepeated(cs) && forall c :: c in cs ==> c in reviews
    ensures ReadableFrom(reviews, cs, seen, now) <==>
            && R.CardReadable(reviews[cs[0]], now) && R.Ids(reviews[cs[0]]) !! seen
            && ReadableFrom(reviews, cs[1..], seen + R.Ids(reviews[cs[0]]), now)
  {
    assert cs == [cs[0]] + cs[1..];
    assert forall c :: c in cs[1..] ==> c != cs[0];
  }

  lemma {:induction false} ReadFromOutcome(reviews: map<Channel, seq<R.Review>>, cs: seq<Channel>, seen: set<nat>,
                                           read: map<Channel, R.Summary>, now: int)
    requires Unrepeated(cs) && forall c :: c in cs ==> c in reviews
    ensures ReadFrom(reviews, cs, seen, read, now) ==
            if ReadableFrom(reviews, cs, seen, now)
            then Some(read + map c | c in cs :: R.Summarize(reviews[c], now)) else None
  {
    if cs == [] {
      assert read + map[] == read;
    } else {
      ReadableOneByOne(reviews, cs, seen, now);
      var c := cs[0];
      var s := R.Summarize(reviews[c], now);
      ReadFromOutcome(reviews, cs[1..], seen + R.Ids(reviews[c]), read[c := s], now);
      SummariesOneByOne(reviews, cs, read, now);
    }
  }

  lemma SummariesOneByOne(reviews: map<Channel, seq<R.Review>>, cs: seq<Channel>, read: map<Channel, R.Summary>,
                          now: int)
    requires cs != [] && Unrepeated(cs) && forall c :: c in cs ==> c in reviews
    ensures read[cs[0] := R.Summarize(reviews[cs[0]], now)] + (map c | c in cs[1..] :: R.Summarize(reviews[c], now))
         == read + (map c | c in cs :: R.Summarize(reviews[c], now))
  {
    assert cs == [cs[0]] + cs[1..];
  }

  lemma ReadFromMeaning(reviews: map<Channel, seq<R.Review>>, now: int)
    ensures ReadFrom(reviews, InOrder(reviews.Keys), {}, map[], now)
         == if RevlogReadable(reviews, now) then Some(Summaries(reviews, now)) else None
  {
    var cs := InOrder(reviews.Keys);
    ReadFromOutcome(reviews, cs, {}, map[], now);
    ReadableTogether(reviews, cs, now);
    SummariesOfAll(reviews, cs, now);
  }

  lemma ReadableTogether(reviews: map<Channel, seq<R.Review>>, cs: seq<Channel>, now: int)
    requires forall c :: c in cs <==> c in reviews
    ensures ReadableFrom(reviews, cs, {}, now) <==> RevlogReadable(reviews, now)
  {
  }

  lemma SummariesOfAll(reviews: map<Channel, seq<R.Review>>, cs: seq<Channel>, now: int)
    requires forall c :: c in cs <==> c in reviews
    ensures map[] + (map c | c in cs :: R.Summarize(reviews[c], now)) == Summaries(reviews, now)
  {
  }

  /** Walks the committed chain of every channel against the state the note holds. */
  method LoadEpisodes(w: World) returns (positions: Option<map<Channel, Position>>)
    ensures positions == if forall c :: c in w.note ==> Placed(w, c) then Some(Positions(w)) else None
  {
    var todo := w.note.Keys;
    ghost var done: set<Channel> := {};
    var walked: map<Channel, Position> := map[];
    while todo != {}
      invariant done !! todo && done + todo == w.note.Keys
      invariant walked.Keys == done
      invariant forall c :: c in done ==> Placed(w, c) && walked[c] == Replay(w.log, c).value
      decreases todo
    {
      var c :| c in todo;
      var at := EpisodeProvenance(w.log, c);
      if at.None? || at.value.state != w.note[c] {
        assert !Placed(w, c);
        return None;
      }
      todo, done, walked := todo - {c}, done + {c}, walked[c := at.value];
    }
    assert walked == Positions(w);
    positions := Some(walked);
  }

  /** The read-only snapshot, card by card and record by record. */
  method ObserveUnit(w: World, now: int) returns (r: Result<UnitProgress, Refusal>)
    requires Wired(w)
    ensures r == Observe(w, now)
  {
    var summaries := LoadRevlog(w.reviews, now);
    if summaries.None? {
      return Err(RevlogUnreadable);
    }
    var txs := JournalTransactions(w.log);
    var positions := LoadEpisodes(w);
    if !NoFuture(w.log, now) || txs.None? || positions.None? {
      return Err(HistoryUnreadable);
    }
    r := Ok(Snapshot(w, summaries.value, positions.value));
  }

  // -------------------------------------------------------------------------
  // Facts about the latest entry
  // -------------------------------------------------------------------------

  lemma {:induction false} LatestEntryIsMaximum(channels: map<Channel, ChannelProgress>, cs: seq<Channel>)
    requires cs != [] && forall c :: c in cs ==> c in channels && channels[c].entered.Some?
    ensures LatestEntry(channels, cs).Some?
    ensures forall c :: c in cs ==> channels[c].entered.value <= LatestEntry(channels, cs).value
    ensures exists c :: c in cs && channels[c].entered == LatestEntry(channels, cs)
  {
    assert cs[0] in cs;
    if |cs| > 1 {
      LatestEntryIsMaximum(channels, cs[1..]);
      assert cs == [cs[0]] + cs[1..];
    } else {
      assert cs[1..] == [];
      assert forall c :: c in cs ==> c == cs[0];
    }
  }
}
