/**
 * The files under the three ledgers: one canonical record a line, read strictly and
 * read back after every append.
 */
module CanonicalFile {
  import opened Wrappers
  import opened LogFile

  const RETURN: Byte := 13

  datatype Flaw = UnterminatedEnd | Blank | Invalid | NotCanonical

  /** Where the first physical line ends: behind a newline, a return, or both. */
  function LineEnd(data: Bytes): (end: nat)
    requires data != []
    ensures 0 < end <= |data|
  {
    if data[0] == NEWLINE || |data| == 1 then 1
    else if data[0] == RETURN then if data[1] == NEWLINE then 2 else 1
    else 1 + LineEnd(data[1..])
  }

  /** What is decoded from one physical line, if it is exactly what its record is written as. */
  function ReadLine<R(==)>(line: Bytes, decode: Bytes -> Option<R>, encode: R -> Bytes): Result<R, Flaw>
    requires line != []
  {
    var body := line[..|line| - 1];
    if body == [] then Err(Blank)
    else
      match decode(body)
      case None => Err(Invalid)
      case Some(record) => if line == encode(record) + [NEWLINE] then Ok(record) else Err(NotCanonical)
  }

  function ReadLines<R(==)>(data: Bytes, decode: Bytes -> Option<R>, encode: R -> Bytes): Result<seq<R>, Flaw> {
    if data == [] then Ok([])
    else
      var end := LineEnd(data);
      match ReadLine(data[..end], decode, encode)
      case Err(flaw) => Err(flaw)
      case Ok(record) => After([record], ReadLines(data[end..], decode, encode))
  }

  function After<R>(records: seq<R>, rest: Result<seq<R>, Flaw>): Result<seq<R>, Flaw> {
    match rest
    case Ok(more) => Ok(records + more)
    case Err(flaw) => Err(flaw)
  }

  function History<R(==)>(data: Bytes, decode: Bytes -> Option<R>, encode: R -> Bytes): Result<seq<R>, Flaw> {
    if data != [] && data[|data| - 1] != NEWLINE then Err(UnterminatedEnd) else ReadLines(data, decode, encode)
  }

  method ReadStrictCanonical<R(==)>(data: Bytes, decode: Bytes -> Option<R>, encode: R -> Bytes)
    returns (history: Result<seq<R>, Flaw>)
    ensures history == History(data, decode, encode)
  {
    if data != [] && data[|data| - 1] != NEWLINE {
      return Err(UnterminatedEnd);
    }
    var records: seq<R> := [];
    var position := 0;
    AfterNothing(ReadLines(data, decode, encode));
    assert data[0..] == data;
    while position < |data|
      invariant 0 <= position <= |data|
      invariant ReadLines(data, decode, encode) == After(records, ReadLines(data[position..], decode, encode))
    {
      var rest := data[position..];
      var end := LineEnd(rest);
      var line := ReadLine(rest[..end], decode, encode);
      if line.Err? {
        return Err(line.error);
      }
      AfterAfter(records, [line.value], ReadLines(rest[end..], decode, encode));
      assert rest[end..] == data[position + end..];
      records := records + [line.value];
      position := position + end;
    }
    assert records + [] == records;
    history := Ok(records);
  }

  lemma AfterNothing<R>(rest: Result<seq<R>, Flaw>)
    ensures After([], rest) == rest
  {
    if rest.Ok? {
      assert [] + rest.value == rest.value;
    }
  }

  lemma AfterAfter<R>(a: seq<R>, b: seq<R>, rest: Result<seq<R>, Flaw>)
    ensures After(a, After(b, rest)) == After(a + b, rest)
  {
    if rest.Ok? {
      assert a + (b + rest.value) == a + b + rest.value;
    }
  }

  // -------------------------------------------------------------------------
  // Reading undoes writing, and reads nothing else
  // -------------------------------------------------------------------------

  function WriteAll<R>(records: seq<R>, encode: R -> Bytes): Bytes {
    if records == [] then [] else encode(records[0]) + [NEWLINE] + WriteAll(records[1..], encode)
  }

  /** Every record is read back from its own line, and no record is written over two. */
  ghost predicate GoodCodec<R(!new)>(decode: Bytes -> Option<R>, encode: R -> Bytes) {
    forall r :: decode(encode(r)) == Some(r) && encode(r) != [] && NEWLINE !in encode(r) && RETURN !in encode(r)
  }

  lemma {:induction false} LineEndOf(line: Bytes, rest: Bytes)
    requires NEWLINE !in line && RETURN !in line
    ensures LineEnd(line + [NEWLINE] + rest) == |line| + 1
  {
    if line != [] {
      assert (line + [NEWLINE] + rest)[1..] == line[1..] + [NEWLINE] + rest;
      LineEndOf(line[1..], rest);
    }
  }

  lemma {:induction false} WrittenIsRead<R(!new)>(records: seq<R>, decode: Bytes -> Option<R>, encode: R -> Bytes)
    requires GoodCodec(decode, encode)
    ensures ReadLines(WriteAll(records, encode), decode, encode) == Ok(records)
    ensures records != [] ==> Terminated(WriteAll(records, encode))
  {
    if records != [] {
      var line, rest := encode(records[0]), WriteAll(records[1..], encode);
      WrittenIsRead(records[1..], decode, encode);
      LineEndOf(line, rest);
      FirstLineRead(records[0], rest, decode, encode);
      assert [records[0]] + records[1..] == records;
    }
  }

  lemma FirstLineRead<R(!new)>(record: R, rest: Bytes, decode: Bytes -> Option<R>, encode: R -> Bytes)
    requires GoodCodec(decode, encode)
    ensures ReadLines(encode(record) + [NEWLINE] + rest, decode, encode)
         == After([record], ReadLines(rest, decode, encode))
  {
    var line := encode(record);
    var data := line + [NEWLINE] + rest;
    LineEndOf(line, rest);
    assert data[..|line| + 1] == line + [NEWLINE] && data[|line| + 1..] == rest;
    assert (line + [NEWLINE])[..|line|] == line;
  }

  lemma {:induction false} ReadIsWritten<R>(data: Bytes, decode: Bytes -> Option<R>, encode: R -> Bytes)
    requires ReadLines(data, decode, encode).Ok?
    ensures data == WriteAll(ReadLines(data, decode, encode).value, encode)
  {
    if data != [] {
      var end := LineEnd(data);
      ReadIsWritten(data[end..], decode, encode);
      assert data == data[..end] + data[end..];
    }
  }

  /** A file reads as a history exactly when it is that history written down, byte for byte. */
  lemma ReadsExactlyWhatWasWritten<R(!new)>(data: Bytes, records: seq<R>, decode: Bytes -> Option<R>,
                                     encode: R -> Bytes)
    requires GoodCodec(decode, encode)
    ensures History(data, decode, encode) == Ok(records) <==> data == WriteAll(records, encode)
  {
    WrittenIsRead(records, decode, encode);
    if History(data, decode, encode) == Ok(records) {
      ReadIsWritten(data, decode, encode);
    }
  }

  // -------------------------------------------------------------------------
  // Appending
  // -------------------------------------------------------------------------

  lemma {:induction false} WriteOneMore<R>(records: seq<R>, r: R, encode: R -> Bytes)
    ensures WriteAll(records + [r], encode) == WriteAll(records, encode) + encode(r) + [NEWLINE]
  {
    if records == [] {
      assert records + [r] == [r] && [r][1..] == [];
    } else {
      assert (records + [r])[1..] == records[1..] + [r];
      WriteOneMore(records[1..], r, encode);
    }
  }

  predicate EndsWith<R(==)>(data: Bytes, r: R, decode: Bytes -> Option<R>, encode: R -> Bytes) {
    var history := History(data, decode, encode);
    history.Ok? && history.value != [] && Last(history.value) == r
  }

  class Ledger<R(!new, ==)> {
    var data: Bytes

    /** Appends one record, of which the first bytes reach the disk, and reads the whole file back. */
    method Append(r: R, decode: Bytes -> Option<R>, encode: R -> Bytes, bytes: nat, fails: bool) returns (ok: bool)
      modifies this
      ensures data == old(data) + Cut(encode(r), bytes)
      ensures ok <==> !fails && EndsWith(data, r, decode, encode)
    {
      data := data + Cut(encode(r), bytes);
      if fails {
        return false;
      }
      var history := ReadStrictCanonical(data, decode, encode);
      ok := history.Ok? && history.value != [] && Last(history.value) == r;
    }
  }

  /** Cut anywhere, an append leaves a ledger that reads as before, or with the record, or not at all. */
  lemma CutRecordReads<R(!new)>(records: seq<R>, r: R, bytes: nat, decode: Bytes -> Option<R>, encode: R -> Bytes)
    requires GoodCodec(decode, encode)
    ensures History(WriteAll(records, encode) + Cut(encode(r), bytes), decode, encode) ==
            if bytes == 0 then Ok(records)
            else if bytes <= |encode(r)| then Err(UnterminatedEnd)
            else Ok(records + [r])
  {
    var data := WriteAll(records, encode) + Cut(encode(r), bytes);
    if bytes == 0 {
      assert data == WriteAll(records, encode);
      ReadsExactlyWhatWasWritten(data, records, decode, encode);
    } else if bytes <= |encode(r)| {
      assert data[|data| - 1] == encode(r)[bytes - 1];
    } else {
      WriteOneMore(records, r, encode);
      assert data == WriteAll(records, encode) + encode(r) + [NEWLINE];
      ReadsExactlyWhatWasWritten(data, records + [r], decode, encode);
    }
  }

  /**
   * When the file reads back with the appended record last, the file it was appended
   * to was sound, and has grown by that record alone.
   */
  lemma ReadbackVouchesForTheFile<R(!new)>(data: Bytes, r: R, decode: Bytes -> Option<R>, encode: R -> Bytes)
    requires GoodCodec(decode, encode)
    requires EndsWith(data + encode(r) + [NEWLINE], r, decode, encode)
    ensures var after := History(data + encode(r) + [NEWLINE], decode, encode);
            History(data, decode, encode) == Ok(after.value[..|after.value| - 1])
  {
    var whole := data + encode(r) + [NEWLINE];
    var records := History(whole, decode, encode).value;
    var before := records[..|records| - 1];
    ReadsExactlyWhatWasWritten(whole, records, decode, encode);
    assert records == before + [r];
    WriteOneMore(before, r, encode);
    var n := |WriteAll(before, encode)|;
    assert whole[..n] == WriteAll(before, encode) && whole[..|data|] == data && n == |data|;
    ReadsExactlyWhatWasWritten(data, before, decode, encode);
  }
}
