/**
 * Finding a word, a chunk or a frame in a token sequence, and counting
 * non-overlapping occurrences. Tokens are compared, never looked into.
 */
module Matcher {
  import opened Wrappers

  type Token = string

  const CHUNK_MAX_INSERTED_TOKENS := 2
  const FRAME_SLOT_MIN_TOKENS := 1
  const FRAME_SLOT_MAX_TOKENS := 6
  const FRAME_MIN_FIXED_TOKENS := 2

  datatype Pattern =
    | Word(token: Token)
    | Chunk(tokens: seq<Token>)
    | Frame(before: seq<Token>, after: seq<Token>)

  predicate ValidPattern(p: Pattern) {
    match p
    case Word(_) => true
    case Chunk(tokens) => |tokens| >= 2
    case Frame(before, after) => before != [] && after != [] && |before| + |after| >= FRAME_MIN_FIXED_TOKENS
  }

  // -------------------------------------------------------------------------
  // Occurrences, declaratively
  // -------------------------------------------------------------------------

  /** The positions `f`, from `s` up to but not including `e`, carry `t` in order. */
  predicate Carries(t: seq<Token>, text: seq<Token>, s: nat, e: nat, f: seq<nat>)
    requires e <= |text|
  {
    && |f| == |t|
    && (forall i, j :: 0 <= i < j < |f| ==> f[i] < f[j])
    && (forall i :: 0 <= i < |f| ==> s <= f[i] < e && text[f[i]] == t[i])
  }

  ghost predicate Within(t: seq<Token>, text: seq<Token>, s: nat, e: nat)
    requires e <= |text|
  {
    exists f: seq<nat> :: Carries(t, text, s, e, f)
  }

  predicate At(tokens: seq<Token>, text: seq<Token>, s: nat) {
    s + |tokens| <= |text| && forall i :: 0 <= i < |tokens| ==> text[s + i] == tokens[i]
  }

  predicate SlotFits(text: seq<Token>, before: seq<Token>, after: seq<Token>, s: nat, slot: nat) {
    At(after, text, s + |before| + slot)
  }

  predicate FrameAt(text: seq<Token>, before: seq<Token>, after: seq<Token>, s: nat, e: nat, slot: nat) {
    && FRAME_SLOT_MIN_TOKENS <= slot <= FRAME_SLOT_MAX_TOKENS
    && e + 1 == s + |before| + slot + |after|
    && At(before, text, s) && SlotFits(text, before, after, s, slot)
  }

  predicate ChunkEnds(text: seq<Token>, t: seq<Token>, s: nat, e: nat)
    requires |t| >= 2 && s <= e < |text|
  {
    text[s] == t[0] && text[e] == t[|t| - 1] && e + 1 - s <= |t| + CHUNK_MAX_INSERTED_TOKENS
  }

  /**
   * A word is its token. A chunk starts and ends with its first and last token,
   * holds its tokens in order, and at most two more. A frame is its fixed tokens
   * around a slot of one to six.
   */
  ghost predicate Occurs(text: seq<Token>, p: Pattern, s: nat, e: nat)
    requires ValidPattern(p)
  {
    && s <= e < |text|
    && match p
       case Word(token) => s == e && text[s] == token
       case Chunk(tokens) => ChunkEnds(text, tokens, s, e) && Within(tokens, text, s, e + 1)
       case Frame(before, after) => exists slot: nat :: FrameAt(text, before, after, s, e, slot)
  }

  /** The least end of an occurrence that starts at `s`; none when none does. */
  ghost predicate LeastEnd(text: seq<Token>, p: Pattern, s: nat, end: Option<nat>)
    requires ValidPattern(p)
  {
    match end
    case None => forall e: nat :: !Occurs(text, p, s, e)
    case Some(e) => Occurs(text, p, s, e) && forall e': nat :: Occurs(text, p, s, e') ==> e <= e'
  }

  // -------------------------------------------------------------------------
  // The longest prefix that a window carries
  // -------------------------------------------------------------------------

  function Longest(t: seq<Token>, text: seq<Token>, s: nat, e: nat): (n: nat)
    requires e <= |text|
    ensures n <= |t|
    decreases e
  {
    if e <= s then 0
    else
      var n := Longest(t, text, s, e - 1);
      if n < |t| && text[e - 1] == t[n] then n + 1 else n
  }

  lemma {:induction false} LongestIsCarried(t: seq<Token>, text: seq<Token>, s: nat, e: nat) returns (f: seq<nat>)
    requires e <= |text|
    ensures Carries(t[..Longest(t, text, s, e)], text, s, e, f)
    decreases e
  {
    if e <= s {
      f := [];
    } else {
      f := LongestIsCarried(t, text, s, e - 1);
      var n := Longest(t, text, s, e - 1);
      if n < |t| && text[e - 1] == t[n] {
        assert t[..n + 1] == t[..n] + [t[n]];
        f := f + [e - 1];
      }
    }
  }

  lemma {:induction false} NothingLongerIsCarried(t: seq<Token>, text: seq<Token>, s: nat, e: nat, f: seq<nat>)
    requires e <= |text| && |f| <= |t| && Carries(t[..|f|], text, s, e, f)
    ensures |f| <= Longest(t, text, s, e)
    decreases e
  {
    var k := |f|;
    if k > 0 {
      if f[k - 1] == e - 1 {
        assert t[..k][..k - 1] == t[..k - 1];
        assert Carries(t[..k - 1], text, s, e - 1, f[..k - 1]);
        NothingLongerIsCarried(t, text, s, e - 1, f[..k - 1]);
      } else {
        forall i | 0 <= i < k ensures f[i] < e - 1 {
          assert i < k - 1 ==> f[i] < f[k - 1];
        }
        NothingLongerIsCarried(t, text, s, e - 1, f);
      }
    }
  }

  lemma WithinIsLongest(t: seq<Token>, text: seq<Token>, s: nat, e: nat)
    requires e <= |text|
    ensures Within(t, text, s, e) <==> Longest(t, text, s, e) == |t|
  {
    assert t[..|t|] == t;
    if Longest(t, text, s, e) == |t| {
      var f := LongestIsCarried(t, text, s, e);
      assert Carries(t, text, s, e, f);
    }
    if f: seq<nat> :| Carries(t, text, s, e, f) {
      NothingLongerIsCarried(t, text, s, e, f);
    }
  }

  lemma {:induction false} LongestGrowsSlowly(t: seq<Token>, text: seq<Token>, s: nat, x: nat, e: nat)
    requires x <= e <= |text|
    ensures Longest(t, text, s, x) <= Longest(t, text, s, e) <= Longest(t, text, s, x) + (e - x)
    decreases e
  {
    if x < e {
      LongestGrowsSlowly(t, text, s, x, e - 1);
    }
  }

  /** More text in front does not hurt. */
  lemma WithinLongerWindow(t: seq<Token>, text: seq<Token>, s: nat, s': nat, e: nat)
    requires s <= s' && e <= |text| && Within(t, text, s', e)
    ensures Within(t, text, s, e)
  {
    var f: seq<nat> :| Carries(t, text, s', e, f);
    assert Carries(t, text, s, e, f);
  }

  // -------------------------------------------------------------------------
  // Matching at one start
  // -------------------------------------------------------------------------

  lemma ChunkOccurs(text: seq<Token>, t: seq<Token>, s: nat, e: nat)
    requires |t| >= 2
    ensures Occurs(text, Chunk(t), s, e) <==>
            s <= e < |text| && ChunkEnds(text, t, s, e) && Longest(t, text, s, e + 1) == |t|
  {
    if s <= e < |text| {
      WithinIsLongest(t, text, s, e + 1);
    }
  }

  /** While a window does not carry the whole chunk, no occurrence ends inside it. */
  lemma NoEarlierEnd(text: seq<Token>, t: seq<Token>, s: nat, x: nat, e: nat)
    requires |t| >= 2 && x <= |text| && Longest(t, text, s, x) < |t| && e < x
    ensures !Occurs(text, Chunk(t), s, e)
  {
    ChunkOccurs(text, t, s, e);
    LongestGrowsSlowly(t, text, s, e + 1, x);
  }

  /** Once three tokens were inserted, no end is near enough. */
  lemma TooManyInserted(text: seq<Token>, t: seq<Token>, s: nat, x: nat, e: nat)
    requires |t| >= 2 && s <= x <= |text| && Longest(t, text, s, x) < |t|
    requires x - s - Longest(t, text, s, x) > CHUNK_MAX_INSERTED_TOKENS
    ensures !Occurs(text, Chunk(t), s, e)
  {
    if e < x {
      NoEarlierEnd(text, t, s, x, e);
    } else if e < |text| {
      ChunkOccurs(text, t, s, e);
      LongestGrowsSlowly(t, text, s, x, e + 1);
    }
  }

  /** One pass over the text from the start, taking every token of the chunk as early as possible. */
  method ChunkMatchEnd(text: seq<Token>, t: seq<Token>, start: nat) returns (end: Option<nat>)
    requires |t| >= 2 && start < |text|
    ensures LeastEnd(text, Chunk(t), start, end)
  {
    if text[start] != t[0] {
      return None;
    }
    var targetIndex, textIndex, inserted := 1, start + 1, 0;
    while targetIndex < |t| && textIndex < |text|
      invariant start < textIndex <= |text| && 1 <= targetIndex <= |t|
      invariant Longest(t, text, start, textIndex) == targetIndex
      invariant textIndex - start == targetIndex + inserted && 0 <= inserted <= CHUNK_MAX_INSERTED_TOKENS
      invariant targetIndex == |t| ==> text[textIndex - 1] == t[|t| - 1] && Longest(t, text, start, textIndex - 1) < |t|
    {
      if text[textIndex] == t[targetIndex] {
        targetIndex := targetIndex + 1;
      } else {
        inserted := inserted + 1;
        if inserted > CHUNK_MAX_INSERTED_TOKENS {
          forall e: nat ensures !Occurs(text, Chunk(t), start, e) {
            TooManyInserted(text, t, start, textIndex + 1, e);
          }
          return None;
        }
      }
      textIndex := textIndex + 1;
    }
    if targetIndex == |t| {
      ChunkOccurs(text, t, start, textIndex - 1);
      forall e: nat | e < textIndex - 1 ensures !Occurs(text, Chunk(t), start, e) {
        NoEarlierEnd(text, t, start, textIndex - 1, e);
      }
      return Some(textIndex - 1);
    }
    forall e: nat | e < |text| ensures !Occurs(text, Chunk(t), start, e) {
      NoEarlierEnd(text, t, start, textIndex, e);
    }
    end := None;
  }

  /** A slice of the text that may reach past its end. */
  function Slice(text: seq<Token>, lo: nat, hi: nat): seq<Token>
    requires lo <= hi
  {
    if |text| <= lo then [] else if |text| <= hi then text[lo..] else text[lo..hi]
  }

  lemma SliceIsAt(tokens: seq<Token>, text: seq<Token>, s: nat)
    requires tokens != []
    ensures Slice(text, s, s + |tokens|) == tokens <==> At(tokens, text, s)
  {
    var w := Slice(text, s, s + |tokens|);
    if |w| == |tokens| {
      assert w == text[s..s + |tokens|];
      if At(tokens, text, s) {
        forall i | 0 <= i < |tokens| ensures w[i] == tokens[i] {
          assert w[i] == text[s + i];
        }
        assert w == tokens;
      }
    }
  }

  lemma NoFrame(text: seq<Token>, before: seq<Token>, after: seq<Token>, s: nat)
    requires ValidPattern(Frame(before, after))
    requires !At(before, text, s)
             || forall k: nat :: FRAME_SLOT_MIN_TOKENS <= k <= FRAME_SLOT_MAX_TOKENS ==>
                                   !SlotFits(text, before, after, s, k)
    ensures LeastEnd(text, Frame(before, after), s, None)
  {
    forall e: nat ensures !Occurs(text, Frame(before, after), s, e) {
      forall slot: nat ensures !FrameAt(text, before, after, s, e, slot) {
      }
    }
  }

  lemma SmallestSlot(text: seq<Token>, before: seq<Token>, after: seq<Token>, s: nat, slot: nat)
    requires ValidPattern(Frame(before, after))
    requires FRAME_SLOT_MIN_TOKENS <= slot <= FRAME_SLOT_MAX_TOKENS && At(before, text, s)
    requires SlotFits(text, before, after, s, slot)
    requires forall k: nat :: FRAME_SLOT_MIN_TOKENS <= k < slot ==> !SlotFits(text, before, after, s, k)
    ensures LeastEnd(text, Frame(before, after), s, Some(s + |before| + slot + |after| - 1))
  {
    var e := s + |before| + slot + |after| - 1;
    assert FrameAt(text, before, after, s, e, slot);
    forall e': nat | Occurs(text, Frame(before, after), s, e') ensures e <= e' {
      var other: nat :| FrameAt(text, before, after, s, e', other);
    }
  }

  method SliceMatches(tokens: seq<Token>, text: seq<Token>, s: nat) returns (ok: bool)
    requires tokens != []
    ensures ok <==> At(tokens, text, s)
  {
    SliceIsAt(tokens, text, s);
    ok := Slice(text, s, s + |tokens|) == tokens;
  }

  /** Tries slot sizes from the smallest up. */
  method SmallestSlotSize(text: seq<Token>, before: seq<Token>, after: seq<Token>, start: nat)
    returns (size: Option<nat>)
    requires after != []
    ensures size.Some? ==> FRAME_SLOT_MIN_TOKENS <= size.value <= FRAME_SLOT_MAX_TOKENS
    ensures size.Some? ==> SlotFits(text, before, after, start, size.value)
    ensures var bound := if size.Some? then size.value else FRAME_SLOT_MAX_TOKENS + 1;
            forall k: nat :: FRAME_SLOT_MIN_TOKENS <= k < bound ==> !SlotFits(text, before, after, start, k)
  {
    for slot := FRAME_SLOT_MIN_TOKENS to FRAME_SLOT_MAX_TOKENS + 1
      invariant forall k: nat :: FRAME_SLOT_MIN_TOKENS <= k < slot ==> !SlotFits(text, before, after, start, k)
    {
      var fits := SliceMatches(after, text, start + |before| + slot);
      if fits {
        return Some(slot);
      }
    }
    size := None;
  }

  method FrameMatchEnd(text: seq<Token>, before: seq<Token>, after: seq<Token>, start: nat) returns (end: Option<nat>)
    requires ValidPattern(Frame(before, after)) && start < |text|
    ensures LeastEnd(text, Frame(before, after), start, end)
  {
    var starts := SliceMatches(before, text, start);
    if !starts {
      NoFrame(text, before, after, start);
      return None;
    }
    var size := SmallestSlotSize(text, before, after, start);
    if size.None? {
      NoFrame(text, before, after, start);
      return None;
    }
    SmallestSlot(text, before, after, start, size.value);
    end := Some(start + |before| + size.value + |after| - 1);
  }

  /** One start of any pattern. */
  method MatchEnd(text: seq<Token>, p: Pattern, start: nat) returns (end: Option<nat>)
    requires ValidPattern(p) && start < |text|
    ensures LeastEnd(text, p, start, end)
  {
    match p {
      case Word(token) => end := if text[start] == token then Some(start) else None;
      case Chunk(tokens) => end := ChunkMatchEnd(text, tokens, start);
      case Frame(before, after) => end := FrameMatchEnd(text, before, after, start);
    }
  }

  // -------------------------------------------------------------------------
  // All spans
  // -------------------------------------------------------------------------

  datatype Span = Span(start: nat, end: nat)

  predicate StartsAt(spans: seq<Span>, s: nat) {
    exists x :: x in spans && x.start == s
  }

  predicate ByStart(spans: seq<Span>) {
    forall i, j :: 0 <= i < j < |spans| ==> spans[i].start < spans[j].start
  }

  /** One span, with its least end, for every start below `n` at which an occurrence begins. */
  ghost predicate SpansBelow(text: seq<Token>, p: Pattern, n: nat, spans: seq<Span>)
    requires ValidPattern(p)
  {
    && ByStart(spans)
    && (forall x :: x in spans ==> x.start < n && LeastEnd(text, p, x.start, Some(x.end)))
    && (forall s: nat, e: nat :: s < n && Occurs(text, p, s, e) ==> StartsAt(spans, s))
  }

  lemma OneMoreStart(text: seq<Token>, p: Pattern, n: nat, spans: seq<Span>, end: Option<nat>)
    requires ValidPattern(p) && SpansBelow(text, p, n, spans) && LeastEnd(text, p, n, end)
    ensures SpansBelow(text, p, n + 1, if end.Some? then spans + [Span(n, end.value)] else spans)
  {
    var spans' := if end.Some? then spans + [Span(n, end.value)] else spans;
    assert forall k :: 0 <= k < |spans| ==> spans[k] in spans;
    forall s: nat, e: nat | s < n + 1 && Occurs(text, p, s, e) ensures StartsAt(spans', s) {
      if s < n {
        var x :| x in spans && x.start == s;
        assert x in spans';
      } else {
        assert Span(n, end.value) in spans';
      }
    }
  }

  /** None: the unit is not a valid word, chunk or frame. */
  method UnitMatchSpans(text: seq<Token>, p: Pattern) returns (spans: Option<seq<Span>>)
    ensures spans.Some? <==> ValidPattern(p)
    ensures spans.Some? ==> SpansBelow(text, p, |text|, spans.value)
  {
    if !ValidPattern(p) {
      return None;
    }
    var found: seq<Span> := [];
    for start := 0 to |text|
      invariant SpansBelow(text, p, start, found)
    {
      var end := MatchEnd(text, p, start);
      OneMoreStart(text, p, start, found, end);
      if end.Some? {
        found := found + [Span(start, end.value)];
      }
    }
    spans := Some(found);
  }

  /** A unit is contained in a text exactly when some occurrence of it is. */
  method ContainsUnit(text: seq<Token>, p: Pattern) returns (contained: Option<bool>)
    ensures contained.Some? <==> ValidPattern(p)
    ensures contained.Some? ==> (contained.value <==> exists s: nat, e: nat :: Occurs(text, p, s, e))
  {
    var spans := UnitMatchSpans(text, p);
    if spans.None? {
      return None;
    }
    contained := Some(spans.value != []);
    if spans.value != [] {
      var x := spans.value[0];
      assert x in spans.value && Occurs(text, p, x.start, x.end);
    } else {
      assert forall s :: !StartsAt(spans.value, s);
    }
  }

  // -------------------------------------------------------------------------
  // Least ends never run backwards
  // -------------------------------------------------------------------------

  lemma ChunkEndsMonotone(text: seq<Token>, t: seq<Token>, s: nat, e: nat, s': nat, e': nat)
    requires |t| >= 2 && s < s' && LeastEnd(text, Chunk(t), s, Some(e)) && Occurs(text, Chunk(t), s', e')
    ensures e <= e'
  {
    WithinLongerWindow(t, text, s, s', e' + 1);
    assert e' < e ==> Occurs(text, Chunk(t), s, e');
  }

  lemma FrameEndsMonotone(text: seq<Token>, before: seq<Token>, after: seq<Token>, s: nat, e: nat, s': nat, e': nat)
    requires ValidPattern(Frame(before, after)) && s < s'
    requires LeastEnd(text, Frame(before, after), s, Some(e)) && Occurs(text, Frame(before, after), s', e')
    ensures e <= e'
  {
    var slot: nat :| FrameAt(text, before, after, s, e, slot);
    var slot': nat :| FrameAt(text, before, after, s', e', slot');
    assert e' < e ==> FrameAt(text, before, after, s, e', slot' + (s' - s));
    assert e' < e ==> Occurs(text, Frame(before, after), s, e');
  }

  /** An occurrence that starts later never ends before the least end of an earlier start. */
  lemma EndsMonotone(text: seq<Token>, p: Pattern, s: nat, e: nat, s': nat, e': nat)
    requires ValidPattern(p) && s < s' && LeastEnd(text, p, s, Some(e)) && Occurs(text, p, s', e')
    ensures e <= e'
  {
    match p
    case Word(_) =>
    case Chunk(t) => ChunkEndsMonotone(text, t, s, e, s', e');
    case Frame(before, after) => FrameEndsMonotone(text, before, after, s, e, s', e');
  }

  // -------------------------------------------------------------------------
  // Counting spans that do not overlap
  // -------------------------------------------------------------------------

  /** Leftmost first: every span that starts where the last one taken has ended. */
  function Taken(spans: seq<Span>, next: nat): (out: seq<Span>) {
    if spans == [] then []
    else if spans[0].start < next then Taken(spans[1..], next)
    else [spans[0]] + Taken(spans[1..], spans[0].end + 1)
  }

  /** One after the other, none touching the next. */
  predicate Apart(xs: seq<Span>) {
    forall i, j :: 0 <= i < j < |xs| ==> xs[i].end < xs[j].start
  }

  predicate From(xs: seq<Span>, next: nat) {
    forall x :: x in xs ==> next <= x.start <= x.end
  }

  lemma {:induction false} TakenAreApart(spans: seq<Span>, next: nat)
    requires From(spans, 0)
    ensures From(Taken(spans, next), next) && Apart(Taken(spans, next))
    ensures forall x :: x in Taken(spans, next) ==> x in spans
  {
    if spans != [] {
      assert spans == [spans[0]] + spans[1..];
      assert spans[0] in spans;
      TakenAreApart(spans[1..], next);
      TakenAreApart(spans[1..], spans[0].end + 1);
      var rest := Taken(spans[1..], spans[0].end + 1);
      assert forall k :: 0 <= k < |rest| ==> rest[k] in rest;
    }
  }

  predicate EndsInOrder(spans: seq<Span>) {
    forall i, j :: 0 <= i < j < |spans| ==> spans[i].end <= spans[j].end
  }

  /** Some span starts where `x` does and ends no later. */
  predicate Listed(spans: seq<Span>, x: Span) {
    exists y :: y in spans && y.start == x.start && y.end <= x.end
  }

  lemma ListedInRest(spans: seq<Span>, x: Span)
    requires spans != [] && Listed(spans, x) && spans[0].start < x.start
    ensures Listed(spans[1..], x)
  {
    var y :| y in spans && y.start == x.start && y.end <= x.end;
    assert spans == [spans[0]] + spans[1..];
    assert y in spans[1..];
  }

  lemma FirstEndsFirst(spans: seq<Span>, x: Span)
    requires spans != [] && EndsInOrder(spans) && Listed(spans, x)
    ensures spans[0].end <= x.end
  {
    var y :| y in spans && y.start == x.start && y.end <= x.end;
    var k :| 0 <= k < |spans| && spans[k] == y;
  }

  /** A family all of whose spans are listed. */
  predicate Family(spans: seq<Span>, next: nat, xs: seq<Span>) {
    From(xs, next) && Apart(xs) && forall x :: x in xs ==> Listed(spans, x)
  }

  predicate Ordered(spans: seq<Span>) {
    ByStart(spans) && EndsInOrder(spans) && From(spans, 0)
  }

  lemma RestIsOrdered(spans: seq<Span>)
    requires Ordered(spans) && spans != []
    ensures Ordered(spans[1..]) && spans[0].start <= spans[0].end
  {
    assert spans == [spans[0]] + spans[1..];
    assert spans[0] in spans;
  }

  lemma SkippedFirst(spans: seq<Span>, next: nat, xs: seq<Span>)
    requires spans != [] && Family(spans, next, xs) && spans[0].start < next
    ensures Family(spans[1..], next, xs)
  {
    forall x | x in xs ensures Listed(spans[1..], x) { ListedInRest(spans, x); }
  }

  lemma TakenFirst(spans: seq<Span>, next: nat, xs: seq<Span>)
    requires Ordered(spans) && spans != [] && Family(spans, next, xs) && xs != []
    ensures Family(spans[1..], spans[0].end + 1, xs[1..])
  {
    assert xs[0] in xs && Listed(spans, xs[0]) && spans[0] in spans;
    FirstEndsFirst(spans, xs[0]);
    forall x | x in xs[1..] ensures spans[0].end + 1 <= x.start <= x.end && Listed(spans[1..], x) {
      var k :| 0 <= k < |xs[1..]| && xs[1..][k] == x;
      assert xs[0].end < xs[k + 1].start && xs[k + 1] in xs;
      ListedInRest(spans, x);
    }
  }

  lemma NothingListed(next: nat, xs: seq<Span>)
    requires Family([], next, xs)
    ensures xs == []
  {
    if xs != [] {
      assert Listed([], xs[0]) by { assert xs[0] in xs; }
    }
  }

  /** No family of disjoint listed spans is larger than the one taken from the left. */
  lemma {:induction false} NothingBeatsTaken(spans: seq<Span>, next: nat, xs: seq<Span>)
    requires Ordered(spans) && Family(spans, next, xs)
    ensures |xs| <= |Taken(spans, next)|
    decreases |spans|
  {
    if spans == [] {
      NothingListed(next, xs);
    } else if xs != [] {
      RestIsOrdered(spans);
      if spans[0].start < next {
        SkippedFirst(spans, next, xs);
        NothingBeatsTaken(spans[1..], next, xs);
      } else {
        TakenFirst(spans, next, xs);
        NothingBeatsTaken(spans[1..], spans[0].end + 1, xs[1..]);
      }
    }
  }

  /** Counts spans left to right, skipping what overlaps the last one counted. */
  method CountSpans(spans: seq<Span>) returns (count: nat)
    ensures count == |Taken(spans, 0)|
  {
    count := 0;
    var next: nat := 0;
    for i := 0 to |spans|
      invariant count + |Taken(spans[i..], next)| == |Taken(spans, 0)|
    {
      assert spans[i..][1..] == spans[i + 1..];
      if spans[i].start >= next {
        count := count + 1;
        next := spans[i].end + 1;
      }
    }
  }

  // -------------------------------------------------------------------------
  // Counting occurrences
  // -------------------------------------------------------------------------

  /** A family of pairwise disjoint occurrences, listed from left to right. */
  ghost predicate DisjointOccurrences(text: seq<Token>, p: Pattern, xs: seq<Span>)
    requires ValidPattern(p)
  {
    Apart(xs) && forall x :: x in xs ==> Occurs(text, p, x.start, x.end)
  }

  lemma SpansInOrder(text: seq<Token>, p: Pattern, spans: seq<Span>)
    requires ValidPattern(p) && SpansBelow(text, p, |text|, spans)
    ensures EndsInOrder(spans) && From(spans, 0)
  {
    forall i, j | 0 <= i < j < |spans| ensures spans[i].end <= spans[j].end {
      assert spans[i] in spans && spans[j] in spans;
      EndsMonotone(text, p, spans[i].start, spans[i].end, spans[j].start, spans[j].end);
    }
  }

  lemma OccurrencesAreListed(text: seq<Token>, p: Pattern, spans: seq<Span>, xs: seq<Span>)
    requires ValidPattern(p) && SpansBelow(text, p, |text|, spans) && DisjointOccurrences(text, p, xs)
    ensures From(xs, 0) && forall x :: x in xs ==> Listed(spans, x)
  {
    forall x | x in xs ensures x.start <= x.end && Listed(spans, x) {
      assert Occurs(text, p, x.start, x.end);
      assert StartsAt(spans, x.start);
      var y :| y in spans && y.start == x.start;
      assert LeastEnd(text, p, y.start, Some(y.end));
    }
  }

  lemma TakenAreOccurrences(text: seq<Token>, p: Pattern, spans: seq<Span>)
    requires ValidPattern(p) && SpansBelow(text, p, |text|, spans)
    ensures DisjointOccurrences(text, p, Taken(spans, 0))
  {
    SpansInOrder(text, p, spans);
    TakenAreApart(spans, 0);
  }

  /**
   * The count is the largest number of pairwise disjoint occurrences in the block:
   * so many fit, and no family has more.
   */
  method CountUnitOccurrences(text: seq<Token>, p: Pattern) returns (count: Option<nat>)
    ensures count.Some? <==> ValidPattern(p)
    ensures count.Some? ==> exists xs :: DisjointOccurrences(text, p, xs) && |xs| == count.value
    ensures count.Some? ==> forall xs :: DisjointOccurrences(text, p, xs) ==> |xs| <= count.value
  {
    var spans := UnitMatchSpans(text, p);
    if spans.None? {
      return None;
    }
    var n := CountSpans(spans.value);
    TakenAreOccurrences(text, p, spans.value);
    SpansInOrder(text, p, spans.value);
    forall xs | DisjointOccurrences(text, p, xs) ensures |xs| <= n {
      OccurrencesAreListed(text, p, spans.value, xs);
      NothingBeatsTaken(spans.value, 0, xs);
    }
    count := Some(n);
  }
}
