/**
 * The bytes under the log: lines, the tail read before an append, the strict and the
 * lenient read, and what an append that is cut short leaves behind.
 */
module LogFile {
  import opened Wrappers

  newtype Byte = x: int | 0 <= x < 256

  type Bytes = seq<Byte>

  const NEWLINE: Byte := 10

  // -------------------------------------------------------------------------
  // Lines
  // -------------------------------------------------------------------------

  function Split(data: Bytes): (parts: seq<Bytes>)
    ensures parts != []
  {
    if data == [] then [[]]
    else
      var rest := Split(data[1..]);
      if data[0] == NEWLINE then [[]] + rest else [[data[0]] + rest[0]] + rest[1..]
  }

  function Last<T>(s: seq<T>): T
    requires s != []
  {
    s[|s| - 1]
  }

  /** The lines of a file; a newline at the very end does not start another. */
  function Lines(data: Bytes): seq<Bytes> {
    var parts := Split(data);
    if Last(parts) == [] then parts[..|parts| - 1] else parts
  }

  lemma {:induction false} SplitAtNewline(a: Bytes, b: Bytes)
    ensures Split(a + [NEWLINE] + b) == Split(a) + Split(b)
  {
    if a == [] {
      assert ([NEWLINE] + b)[1..] == b && a + [NEWLINE] + b == [NEWLINE] + b;
    } else {
      assert (a + [NEWLINE] + b)[1..] == a[1..] + [NEWLINE] + b;
      SplitAtNewline(a[1..], b);
    }
  }

  lemma {:induction false} OneLine(line: Bytes)
    requires NEWLINE !in line
    ensures Split(line) == [line]
  {
    if line != [] {
      OneLine(line[1..]);
      assert [line[0]] + line[1..] == line;
    }
  }

  lemma LastPart(a: Bytes, b: Bytes)
    requires NEWLINE !in b
    ensures Last(Split(a + [NEWLINE] + b)) == b
  {
    SplitAtNewline(a, b);
    OneLine(b);
  }

  predicate Terminated(data: Bytes) {
    data != [] && Last(data) == NEWLINE
  }

  lemma TerminatedLines(front: Bytes)
    ensures Lines(front + [NEWLINE]) == Split(front)
  {
    assert front + [NEWLINE] + [] == front + [NEWLINE];
    SplitAtNewline(front, []);
    assert Split([]) == [[]];
    assert (Split(front) + [[]])[..|Split(front)|] == Split(front);
  }

  // -------------------------------------------------------------------------
  // Reading the last line backward
  // -------------------------------------------------------------------------

  method FindLastNewline(chunk: Bytes) returns (at: Option<nat>)
    ensures at.None? ==> NEWLINE !in chunk
    ensures at.Some? ==> at.value < |chunk| && chunk[at.value] == NEWLINE && NEWLINE !in chunk[at.value + 1..]
  {
    var i := |chunk|;
    while i > 0
      invariant 0 <= i <= |chunk| && NEWLINE !in chunk[i..]
    {
      i := i - 1;
      if chunk[i] == NEWLINE {
        return Some(i);
      }
      assert chunk[i..] == [chunk[i]] + chunk[i + 1..];
    }
    assert chunk[0..] == chunk;
    at := None;
  }

  function JoinReversed(chunks: seq<Bytes>): Bytes {
    if chunks == [] then [] else Last(chunks) + JoinReversed(chunks[..|chunks| - 1])
  }

  lemma JoinOneMore(chunks: seq<Bytes>, chunk: Bytes)
    ensures JoinReversed(chunks + [chunk]) == chunk + JoinReversed(chunks)
  {
    assert (chunks + [chunk])[..|chunks|] == chunks;
  }

  datatype Tail = Empty | Unterminated | Line(bytes: Bytes)

  /** The last line, however large the chunks it is read in. */
  method ReadTrailingRecord(data: Bytes, chunkSize: nat) returns (tail: Tail)
    requires chunkSize >= 1
    ensures tail.Empty? <==> data == []
    ensures tail.Unterminated? <==> data != [] && !Terminated(data)
    ensures tail.Line? ==> Lines(data) != [] && tail.bytes == Last(Lines(data))
  {
    if data == [] {
      return Empty;
    }
    if data[|data| - 1] != NEWLINE {
      return Unterminated;
    }
    var position := |data| - 1;
    var chunks: seq<Bytes> := [];
    while position > 0
      invariant 0 <= position < |data| && ReadBack(data, chunks, position)
    {
      var readSize := if chunkSize <= position then chunkSize else position;
      var chunk := data[position - readSize..position];
      var newline := FindLastNewline(chunk);
      if newline.Some? {
        LastChunk(data, chunks, position - readSize, newline.value + 1, position);
        chunks := chunks + [chunk[newline.value + 1..]];
        return Line(JoinReversed(chunks));
      }
      NextChunk(data, chunks, position - readSize, position);
      chunks := chunks + [chunk];
      position := position - readSize;
    }
    OnlyLine(data);
    tail := Line(JoinReversed(chunks));
  }

  /** The chunks read so far make up the end of the last line. */
  ghost predicate ReadBack(data: Bytes, chunks: seq<Bytes>, position: nat) {
    && position < |data|
    && JoinReversed(chunks) == data[position..|data| - 1] && NEWLINE !in data[position..|data| - 1]
  }

  lemma NextChunk(data: Bytes, chunks: seq<Bytes>, lo: nat, hi: nat)
    requires lo <= hi && ReadBack(data, chunks, hi) && NEWLINE !in data[lo..hi]
    ensures ReadBack(data, chunks + [data[lo..hi]], lo)
  {
    JoinOneMore(chunks, data[lo..hi]);
    assert data[lo..hi] + data[hi..|data| - 1] == data[lo..|data| - 1];
  }

  lemma SliceOfSlice(data: Bytes, lo: nat, skip: nat, hi: nat)
    requires 0 < skip && lo + skip <= hi <= |data|
    ensures data[lo..hi][skip..] == data[lo + skip..hi] && data[lo..hi][skip - 1] == data[lo + skip - 1]
  {
  }

  lemma LastChunk(data: Bytes, chunks: seq<Bytes>, lo: nat, skip: nat, hi: nat)
    requires Terminated(data) && 0 < skip && lo + skip <= hi && ReadBack(data, chunks, hi)
    requires data[lo..hi][skip - 1] == NEWLINE && NEWLINE !in data[lo..hi][skip..]
    ensures Lines(data) != [] && Last(Lines(data)) == JoinReversed(chunks + [data[lo..hi][skip..]])
  {
    SliceOfSlice(data, lo, skip, hi);
    NextChunk(data, chunks, lo + skip, hi);
    LineAfter(data, lo + skip);
  }

  lemma LineAfter(data: Bytes, start: nat)
    requires Terminated(data) && 0 < start < |data| && data[start - 1] == NEWLINE
    requires NEWLINE !in data[start..|data| - 1]
    ensures Lines(data) != [] && Last(Lines(data)) == data[start..|data| - 1]
  {
    var front, line := data[..start - 1], data[start..|data| - 1];
    assert data[..|data| - 1] == front + [NEWLINE] + line && data == data[..|data| - 1] + [NEWLINE];
    TerminatedLines(data[..|data| - 1]);
    LastPart(front, line);
  }

  lemma OnlyLine(data: Bytes)
    requires Terminated(data) && NEWLINE !in data[0..|data| - 1]
    ensures Lines(data) != [] && Last(Lines(data)) == data[0..|data| - 1]
  {
    assert data == data[0..|data| - 1] + [NEWLINE];
    TerminatedLines(data[0..|data| - 1]);
    OneLine(data[0..|data| - 1]);
  }

  // -------------------------------------------------------------------------
  // Reading the whole log
  // -------------------------------------------------------------------------

  /** What one line says: a record, no JSON at all, or JSON that is no event. */
  datatype Decoded<E> = Record(event: E) | Malformed | BadEnvelope

  datatype Reading<E> = Events(events: seq<E>, warned: bool) | Corrupt

  /** The lenient read skips a final line that is no JSON, with a warning; it stops at any other bad line. */
  function ReadFrom<E>(lines: seq<Bytes>, decode: Bytes -> Decoded<E>): Reading<E> {
    if lines == [] then Events([], false)
    else
      match decode(lines[0])
      case Record(e) => AfterRecords([e], ReadFrom(lines[1..], decode))
      case Malformed => if |lines| == 1 then Events([], true) else Corrupt
      case BadEnvelope => Corrupt
  }

  function AfterRecords<E>(events: seq<E>, rest: Reading<E>): Reading<E> {
    match rest
    case Events(more, warned) => Events(events + more, warned)
    case Corrupt => Corrupt
  }

  method Read<E>(data: Bytes, decode: Bytes -> Decoded<E>) returns (reading: Reading<E>)
    ensures reading == ReadFrom(Lines(data), decode)
  {
    var lines := Lines(data);
    var events: seq<E> := [];
    var index := 0;
    while index < |lines|
      invariant 0 <= index <= |lines|
      invariant ReadFrom(lines, decode) == AfterRecords(events, ReadFrom(lines[index..], decode))
    {
      var line := lines[index];
      FirstLine(lines[index..], decode, events);
      assert lines[index..][1..] == lines[index + 1..];
      match decode(line) {
        case Record(e) => events := events + [e];
        case Malformed => return if index + 1 == |lines| then Events(events, true) else Corrupt;
        case BadEnvelope => return Corrupt;
      }
      index := index + 1;
    }
    reading := Events(events, false);
  }

  lemma FirstLine<E>(lines: seq<Bytes>, decode: Bytes -> Decoded<E>, events: seq<E>)
    requires lines != []
    ensures AfterRecords(events, ReadFrom(lines, decode)) ==
            match decode(lines[0])
            case Record(e) => AfterRecords(events + [e], ReadFrom(lines[1..], decode))
            case Malformed => if |lines| == 1 then Events(events, true) else Corrupt
            case BadEnvelope => Corrupt
  {
    if decode(lines[0]).Record? {
      AfterAfter(events, [decode(lines[0]).event], ReadFrom(lines[1..], decode));
    } else {
      assert events + [] == events;
    }
  }

  lemma AfterAfter<E>(a: seq<E>, b: seq<E>, rest: Reading<E>)
    ensures AfterRecords(a, AfterRecords(b, rest)) == AfterRecords(a + b, rest)
  {
    if rest.Events? {
      assert a + (b + rest.events) == a + b + rest.events;
    }
  }

  /** The strict read: the final line terminated, and no warning. */
  method ReadStrict<E>(data: Bytes, decode: Bytes -> Decoded<E>) returns (reading: Reading<E>)
    ensures reading == Strict(data, decode)
  {
    if data != [] && data[|data| - 1] != NEWLINE {
      return Corrupt;
    }
    var read := Read(data, decode);
    CleanRead(Lines(data), decode);
    reading := if read.Events? && !read.warned then read else Corrupt;
  }

  predicate AllRecords<E>(lines: seq<Bytes>, decode: Bytes -> Decoded<E>) {
    forall i :: 0 <= i < |lines| ==> decode(lines[i]).Record?
  }

  function EventsOf<E>(lines: seq<Bytes>, decode: Bytes -> Decoded<E>): (events: seq<E>)
    requires AllRecords(lines, decode)
    ensures |events| == |lines|
  {
    seq(|lines|, i requires 0 <= i < |lines| => decode(lines[i]).event)
  }

  /** The strict read takes exactly the files whose every line is terminated and an event. */
  function Strict<E>(data: Bytes, decode: Bytes -> Decoded<E>): Reading<E> {
    if (data == [] || Terminated(data)) && AllRecords(Lines(data), decode)
    then Events(EventsOf(Lines(data), decode), false)
    else Corrupt
  }

  lemma {:induction false} CleanRead<E>(lines: seq<Bytes>, decode: Bytes -> Decoded<E>)
    ensures var reading := ReadFrom(lines, decode);
            if AllRecords(lines, decode) then reading == Events(EventsOf(lines, decode), false)
            else reading.Events? ==> reading.warned
  {
    if lines != [] {
      CleanRead(lines[1..], decode);
      if decode(lines[0]).Record? && AllRecords(lines[1..], decode) {
        assert AllRecords(lines, decode) by {
          forall i | 0 <= i < |lines| ensures decode(lines[i]).Record? {
            assert i > 0 ==> lines[i] == lines[1..][i - 1];
          }
        }
        assert [decode(lines[0]).event] + EventsOf(lines[1..], decode) == EventsOf(lines, decode);
      }
    }
  }

  // -------------------------------------------------------------------------
  // Appending
  // -------------------------------------------------------------------------

  /** A line an append may write: an event in one line, no shorter part of which is JSON. */
  ghost predicate Writable<E>(line: Bytes, decode: Bytes -> Decoded<E>) {
    && NEWLINE !in line
    && decode(line).Record?
    && NoShorterJson(line, decode)
  }

  ghost predicate NoShorterJson<E>(line: Bytes, decode: Bytes -> Decoded<E>) {
    forall n: nat {:trigger line[..n]} :: n < |line| ==> decode(line[..n]).Malformed?
  }

  /** The first bytes of an append that reach the disk. */
  function Cut(line: Bytes, bytes: nat): Bytes {
    if bytes <= |line| then line[..bytes] else line + [NEWLINE]
  }

  /** The log looks at its last line before it writes behind it. */
  predicate Appendable<E>(data: Bytes, decode: Bytes -> Decoded<E>) {
    data == [] || (Terminated(data) && Lines(data) != [] && decode(Last(Lines(data))).Record?)
  }

  class Log<E> {
    var data: Bytes

    /** Appends one line; some first part of it reaches the disk, and the call may fail even so. */
    method Append(line: Bytes, decode: Bytes -> Decoded<E>, chunkSize: nat, bytes: nat, fails: bool) returns (ok: bool)
      requires chunkSize >= 1
      modifies this
      ensures data == Appended(old(data), line, decode, bytes)
      ensures ok <==> Appendable(old(data), decode) && bytes > |line| && !fails
    {
      var tail := ReadTrailingRecord(data, chunkSize);
      if tail.Unterminated? || (tail.Line? && !decode(tail.bytes).Record?) {
        return false;
      }
      data := data + Cut(line, bytes);
      ok := bytes > |line| && !fails;
    }
  }

  function Appended<E>(data: Bytes, line: Bytes, decode: Bytes -> Decoded<E>, bytes: nat): Bytes {
    if Appendable(data, decode) then data + Cut(line, bytes) else data
  }

  /** Behind terminated lines, more bytes are more lines. */
  lemma LinesAppend(data: Bytes, more: Bytes)
    requires data == [] || Terminated(data)
    ensures Lines(data + more) == Lines(data) + Lines(more)
  {
    if data == [] {
      assert data + more == more;
    } else {
      var front := data[..|data| - 1];
      assert data == front + [NEWLINE] && data + more == front + [NEWLINE] + more;
      TerminatedLines(front);
      SplitAtNewline(front, more);
      assert Last(Split(front) + Split(more)) == Last(Split(more));
    }
  }

  lemma CutLines(line: Bytes, bytes: nat)
    requires NEWLINE !in line
    ensures Lines(Cut(line, bytes)) == if bytes == 0 then []
                                       else if bytes <= |line| then [line[..bytes]] else [line]
  {
    if bytes <= |line| {
      OneLine(line[..bytes]);
    } else {
      TerminatedLines(line);
      OneLine(line);
    }
  }

  /**
   * Cut anywhere, an append leaves a log that reads strictly as before, or with the
   * one new event, or not at all.
   */
  lemma CutAppendReads<E>(data: Bytes, line: Bytes, decode: Bytes -> Decoded<E>, bytes: nat)
    requires Strict(data, decode).Events? && Writable(line, decode)
    ensures Appendable(data, decode)
    ensures var events := Strict(data, decode).events;
            Strict(Appended(data, line, decode, bytes), decode) ==
            if bytes == 0 then Events(events, false)
            else if bytes <= |line| then Corrupt
            else Events(events + [decode(line).event], false)
  {
    StrictIsAppendable(data, decode);
    LinesAppend(data, Cut(line, bytes));
    CutLines(line, bytes);
    if bytes == 0 {
      assert data + Cut(line, bytes) == data;
    } else if bytes > |line| {
      var lines := Lines(data) + [line];
      assert EventsOf(lines, decode) == EventsOf(Lines(data), decode) + [decode(line).event];
    }
  }

  lemma StrictIsAppendable<E>(data: Bytes, decode: Bytes -> Decoded<E>)
    requires Strict(data, decode).Events?
    ensures Appendable(data, decode)
  {
    if data != [] {
      LinesNotEmpty(data);
    }
  }

  lemma LinesNotEmpty(data: Bytes)
    requires Terminated(data)
    ensures Lines(data) != []
  {
    assert data == data[..|data| - 1] + [NEWLINE];
    TerminatedLines(data[..|data| - 1]);
  }

  // -------------------------------------------------------------------------
  // Every life of a log
  // -------------------------------------------------------------------------

  datatype Attempt = Attempt(line: Bytes, bytes: nat)

  predicate Torn(a: Attempt) {
    0 < a.bytes <= |a.line|
  }

  function AfterAttempts<E>(data: Bytes, attempts: seq<Attempt>, decode: Bytes -> Decoded<E>): Bytes
    decreases |attempts|
  {
    if attempts == [] then data
    else AfterAttempts(Appended(data, attempts[0].line, decode, attempts[0].bytes), attempts[1..], decode)
  }

  /** The events of the appends that arrived whole before the first torn one. */
  function Arrived<E>(attempts: seq<Attempt>, decode: Bytes -> Decoded<E>): seq<E>
    decreases |attempts|
  {
    if attempts == [] || Torn(attempts[0]) then []
    else
      var decoded := decode(attempts[0].line);
      (if attempts[0].bytes > 0 && decoded.Record? then [decoded.event] else []) + Arrived(attempts[1..], decode)
  }

  predicate SomeTorn(attempts: seq<Attempt>) {
    exists i :: 0 <= i < |attempts| && Torn(attempts[i])
  }

  ghost predicate AllWritable<E>(attempts: seq<Attempt>, decode: Bytes -> Decoded<E>) {
    forall i :: 0 <= i < |attempts| ==> Writable(attempts[i].line, decode)
  }

  /** A log that reads strictly as these events, unless torn, and leniently as these and at most one more. */
  ghost predicate ReadsAs<E>(data: Bytes, decode: Bytes -> Decoded<E>, events: seq<E>, torn: bool) {
    var lenient := ReadFrom(Lines(data), decode);
    && Strict(data, decode) == (if torn then Corrupt else Events(events, false))
    && lenient.Events? && events <= lenient.events && |lenient.events| <= |events| + 1
  }

  lemma {:induction false} FrozenOnceTorn<E>(data: Bytes, attempts: seq<Attempt>, decode: Bytes -> Decoded<E>)
    requires !Appendable(data, decode)
    ensures AfterAttempts(data, attempts, decode) == data
    decreases |attempts|
  {
    if attempts != [] {
      FrozenOnceTorn(data, attempts[1..], decode);
    }
  }

  /**
   * Over any appends, each cut anywhere: a strict read gives exactly the events that
   * arrived whole, unless some append was torn, and then it refuses for good. A
   * lenient read still gives those events, and at most the torn one besides.
   */
  lemma {:induction false} EveryLogLife<E>(data: Bytes, events: seq<E>, attempts: seq<Attempt>,
                                           decode: Bytes -> Decoded<E>)
    requires Strict(data, decode) == Events(events, false) && AllWritable(attempts, decode)
    ensures ReadsAs(AfterAttempts(data, attempts, decode), decode, events + Arrived(attempts, decode),
                    SomeTorn(attempts))
    decreases |attempts|
  {
    if attempts == [] {
      Untouched(data, events, decode);
    } else if Torn(attempts[0]) {
      TornStart(data, attempts, decode);
    } else {
      var next, more := WholeStart(data, events, attempts, decode);
      SomeTornTail(attempts);
      EveryLogLife(next, events + more, attempts[1..], decode);
      Regroup(events, more, Arrived(attempts[1..], decode));
    }
  }

  lemma Regroup<E>(a: seq<E>, b: seq<E>, c: seq<E>)
    ensures a + b + c == a + (b + c)
  {
  }

  lemma Untouched<E>(data: Bytes, events: seq<E>, decode: Bytes -> Decoded<E>)
    requires Strict(data, decode) == Events(events, false)
    ensures ReadsAs(data, decode, events + [], false)
  {
    CleanRead(Lines(data), decode);
    assert events + [] == events;
  }

  lemma WholeStart<E>(data: Bytes, events: seq<E>, attempts: seq<Attempt>, decode: Bytes -> Decoded<E>)
    returns (next: Bytes, more: seq<E>)
    requires Strict(data, decode) == Events(events, false)
    requires attempts != [] && !Torn(attempts[0]) && Writable(attempts[0].line, decode)
    ensures Strict(next, decode) == Events(events + more, false)
    ensures AfterAttempts(data, attempts, decode) == AfterAttempts(next, attempts[1..], decode)
    ensures Arrived(attempts, decode) == more + Arrived(attempts[1..], decode)
  {
    var a := attempts[0];
    next := Appended(data, a.line, decode, a.bytes);
    more := if a.bytes == 0 then [] else [decode(a.line).event];
    CutAppendReads(data, a.line, decode, a.bytes);
    assert events + [] == events;
  }

  lemma SomeTornTail(attempts: seq<Attempt>)
    requires attempts != [] && !Torn(attempts[0])
    ensures SomeTorn(attempts) == SomeTorn(attempts[1..])
  {
    if SomeTorn(attempts) {
      var i :| 0 <= i < |attempts| && Torn(attempts[i]);
      assert attempts[1..][i - 1] == attempts[i];
    }
  }

  lemma TornStart<E>(data: Bytes, attempts: seq<Attempt>, decode: Bytes -> Decoded<E>)
    requires attempts != [] && Torn(attempts[0]) && Strict(data, decode).Events? && Writable(attempts[0].line, decode)
    ensures ReadsAs(AfterAttempts(data, attempts, decode), decode,
                    Strict(data, decode).events + Arrived(attempts, decode), true)
  {
    var a := attempts[0];
    StrictIsAppendable(data, decode);
    TornIsNotAppendable(data, a.line, decode, a.bytes);
    FrozenOnceTorn(data + Cut(a.line, a.bytes), attempts[1..], decode);
    TornLenient(data, a.line, decode, a.bytes);
    assert Strict(data, decode).events + [] == Strict(data, decode).events;
  }

  lemma TornIsNotAppendable<E>(data: Bytes, line: Bytes, decode: Bytes -> Decoded<E>, bytes: nat)
    requires 0 < bytes <= |line| && NEWLINE !in line
    ensures !Appendable(data + Cut(line, bytes), decode) && Strict(data + Cut(line, bytes), decode).Corrupt?
  {
    assert Last(data + Cut(line, bytes)) == line[bytes - 1];
  }

  lemma {:induction false} ReadAppend<E>(lines: seq<Bytes>, last: Bytes, decode: Bytes -> Decoded<E>)
    requires AllRecords(lines, decode)
    ensures ReadFrom(lines + [last], decode) == AfterRecords(EventsOf(lines, decode), ReadFrom([last], decode))
  {
    if lines == [] {
      assert lines + [last] == [last];
    } else {
      assert (lines + [last])[1..] == lines[1..] + [last];
      ReadAppend(lines[1..], last, decode);
      assert EventsOf(lines, decode) == [decode(lines[0]).event] + EventsOf(lines[1..], decode);
      FirstLine(lines + [last], decode, []);
    }
  }

  /** A lenient read of a torn log drops the torn line, or takes it when only its newline is missing. */
  lemma TornLenient<E>(data: Bytes, line: Bytes, decode: Bytes -> Decoded<E>, bytes: nat)
    requires Strict(data, decode).Events? && Writable(line, decode) && 0 < bytes <= |line|
    ensures ReadFrom(Lines(data + Cut(line, bytes)), decode) ==
            if bytes == |line| then Events(Strict(data, decode).events + [decode(line).event], false)
            else Events(Strict(data, decode).events, true)
  {
    LinesAppend(data, Cut(line, bytes));
    CutLines(line, bytes);
    ReadAppend(Lines(data), line[..bytes], decode);
    assert line[..|line|] == line;
    assert [line[..bytes]][1..] == [];
  }
}
