/**
The CRI log writer (pkg/server/agents/logger.go).  A container's output is cut
into lines of bounded length; each becomes one record "timestamp stream line"
that is appended to the log file in a single write.
*/
module Logger {
  import opened Wrappers
  import opened Seqs

  const SPACE: byte := 32
  const EOL: byte := 10
  const CR: byte := 13

  /** Length of Go's RFC3339Nano layout, which no timestamp of a four-digit year exceeds. */
  const TIMESTAMP_LEN := 35
  const PIPE_BUF_SIZE := 4096

  const STDOUT: seq<byte> := [115, 116, 100, 111, 117, 116]
  const STDERR: seq<byte> := [115, 116, 100, 101, 114, 114]

  const BUF_SIZE := PIPE_BUF_SIZE - TIMESTAMP_LEN - |STDOUT| - 2 - 1

  // ---------------------------------------------------------------- lines

  function DropCr(line: seq<byte>): seq<byte> {
    if line != [] && line[|line| - 1] == CR then line[..|line| - 1] else line
  }

  datatype Chunk = Chunk(line: seq<byte>, rest: seq<byte>)

  /**
  What bufio's ReadLine takes from a nonempty input through a buffer of
  BUF_SIZE bytes: a line without its terminator, or a full buffer, of which a
  final "\r" is put back because it may belong to a "\r\n", or what is left.
  */
  function Cut(input: seq<byte>): (c: Chunk)
    requires input != []
    ensures |c.rest| < |input| && |c.line| <= BUF_SIZE
    ensures EOL !in c.line
  {
    var k := IndexOf(input, EOL, 0);
    if k < |input| && k < BUF_SIZE then Chunk(DropCr(input[..k]), input[k + 1..])
    else if |input| < BUF_SIZE then Chunk(input, [])
    else if input[BUF_SIZE - 1] == CR then Chunk(input[..BUF_SIZE - 1], input[BUF_SIZE - 1..])
    else Chunk(input[..BUF_SIZE], input[BUF_SIZE..])
  }

  /** The input without its "\n" and "\r\n" terminators: what the log is to preserve. */
  function Strip(input: seq<byte>): seq<byte> {
    if input == [] then []
    else if input[0] == EOL then Strip(input[1..])
    else if |input| >= 2 && input[0] == CR && input[1] == EOL then Strip(input[2..])
    else [input[0]] + Strip(input[1..])
  }

  lemma {:induction false} StripLine(a: seq<byte>, rest: seq<byte>)
    requires EOL !in a
    ensures Strip(a + [EOL] + rest) == DropCr(a) + Strip(rest)
    decreases |a|
  {
    hide Strip, DropCr;
    if a == [] || a == [CR] {
      StripTerminator(a, rest);
    } else {
      StripLine(a[1..], rest);
      StripFurther(a, rest);
    }
  }

  lemma StripTerminator(a: seq<byte>, rest: seq<byte>)
    requires a == [] || a == [CR]
    ensures Strip(a + [EOL] + rest) == DropCr(a) + Strip(rest)
  {
    var s := a + [EOL] + rest;
    assert s[|a| + 1..] == rest;
  }

  lemma StripFurther(a: seq<byte>, rest: seq<byte>)
    requires EOL !in a && a != [] && a != [CR]
    requires Strip(a[1..] + [EOL] + rest) == DropCr(a[1..]) + Strip(rest)
    ensures Strip(a + [EOL] + rest) == DropCr(a) + Strip(rest)
  {
    hide Strip, DropCr;
    var tail := a[1..] + [EOL] + rest;
    StripFirst(a, tail);
    DropCrFirst(a);
    assert a + [EOL] + rest == [a[0]] + tail;
    assert [a[0]] + (DropCr(a[1..]) + Strip(rest)) == [a[0]] + DropCr(a[1..]) + Strip(rest);
  }

  lemma DropCrFirst(a: seq<byte>)
    requires a != [] && a != [CR]
    ensures DropCr(a) == [a[0]] + DropCr(a[1..])
  {
  }

  lemma StripFirst(a: seq<byte>, tail: seq<byte>)
    requires a != [] && EOL !in a && a != [CR] && (|a| >= 2 ==> tail != [] && tail[0] == a[1])
    ensures Strip([a[0]] + tail) == [a[0]] + Strip(tail)
  {
    var s := [a[0]] + tail;
    assert s[1..] == tail && s[0] in a;
    assert |a| >= 2 ==> s[1] in a;
  }

  lemma {:induction false} StripChunk(a: seq<byte>, rest: seq<byte>)
    requires EOL !in a
    requires a != [] && a[|a| - 1] == CR ==> rest == [] || rest[0] != EOL
    ensures Strip(a + rest) == a + Strip(rest)
    decreases |a|
  {
    var s := a + rest;
    if a == [] {
      assert s == rest;
    } else {
      assert s[1..] == a[1..] + rest && s[0] == a[0];
      assert |a| >= 2 ==> s[1] == a[1] && a[1] in a;
      StripChunk(a[1..], rest);
    }
  }

  /** Cutting loses nothing but terminators. */
  lemma CutStrips(input: seq<byte>)
    requires input != []
    ensures Strip(input) == Cut(input).line + Strip(Cut(input).rest)
  {
    var k := IndexOf(input, EOL, 0);
    var c := Cut(input);
    if k < |input| && k < BUF_SIZE {
      assert input == input[..k] + [EOL] + input[k + 1..];
      StripLine(input[..k], input[k + 1..]);
    } else {
      assert input == c.line + c.rest;
      StripChunk(c.line, c.rest);
    }
  }

  // -------------------------------------------------------------- records

  datatype Record = Record(timestamp: seq<byte>, stream: seq<byte>, payload: seq<byte>)

  predicate TimestampOk(t: seq<byte>) {
    |t| <= TIMESTAMP_LEN && SPACE !in t && EOL !in t
  }

  predicate RecordOk(r: Record) {
    TimestampOk(r.timestamp) && (r.stream == STDOUT || r.stream == STDERR) && EOL !in r.payload
  }

  predicate RecordsOk(rs: seq<Record>) {
    forall i :: 0 <= i < |rs| ==> RecordOk(rs[i])
  }

  function Encode(r: Record): seq<byte> {
    r.timestamp + [SPACE] + r.stream + [SPACE] + r.payload + [EOL]
  }

  function EncodeAll(rs: seq<Record>): seq<byte> {
    if rs == [] then [] else Encode(rs[0]) + EncodeAll(rs[1..])
  }

  /** The records of an input, the i-th stamped `clock(i)`. */
  function Records(input: seq<byte>, stream: seq<byte>, clock: nat -> seq<byte>, i: nat): seq<Record>
    decreases |input|
  {
    if input == [] then []
    else [Record(clock(i), stream, Cut(input).line)] + Records(Cut(input).rest, stream, clock, i + 1)
  }

  function Payloads(rs: seq<Record>): seq<byte> {
    if rs == [] then [] else rs[0].payload + Payloads(rs[1..])
  }

  /** The records whose write succeeds, the i-th being number `from + i`. */
  function Written(rs: seq<Record>, writes: nat -> bool, from: nat): seq<Record> {
    if rs == [] then []
    else (if writes(from) then [rs[0]] else []) + Written(rs[1..], writes, from + 1)
  }

  // -------------------------------------------------------------- parsing

  /** The three fields of a line, split at its first two spaces. */
  function ParseLine(line: seq<byte>): Option<Record> {
    var i := IndexOf(line, SPACE, 0);
    if i == |line| then None
    else
      var j := IndexOf(line, SPACE, i + 1);
      if j == |line| then None
      else Some(Record(line[..i], line[i + 1..j], line[j + 1..]))
  }

  /** The records of a log file: its lines, each split into fields. */
  function ParseFile(data: seq<byte>): seq<Option<Record>>
    decreases |data|
  {
    var k := IndexOf(data, EOL, 0);
    if k == |data| then [] else [ParseLine(data[..k])] + ParseFile(data[k + 1..])
  }

  lemma ThreeFields(a: seq<byte>, b: seq<byte>, c: seq<byte>)
    requires SPACE !in a && SPACE !in b
    ensures ParseLine(a + [SPACE] + b + [SPACE] + c) == Some(Record(a, b, c))
  {
    hide IndexOf;
    var line := a + [SPACE] + b + [SPACE] + c;
    var i := |a|;
    var j := i + 1 + |b|;
    assert line[..i] == a && line[i] == SPACE;
    assert line[i + 1..j] == b && line[j] == SPACE;
    assert line[j + 1..] == c;
    assert forall n :: 0 <= n < i ==> line[n] == a[n];
    IndexIs(line, SPACE, 0, i);
    assert forall n :: i + 1 <= n < j ==> line[n] == b[n - i - 1];
    IndexIs(line, SPACE, i + 1, j);
  }

  lemma StreamHasNoSpace(stream: seq<byte>)
    requires stream == STDOUT || stream == STDERR
    ensures SPACE !in stream && EOL !in stream
  {
  }

  lemma ParseEncodedLine(r: Record)
    requires RecordOk(r)
    ensures var e := Encode(r); ParseLine(e[..|e| - 1]) == Some(r)
  {
    hide ParseLine;
    StreamHasNoSpace(r.stream);
    ThreeFields(r.timestamp, r.stream, r.payload);
    var e := Encode(r);
    assert e[..|e| - 1] == r.timestamp + [SPACE] + r.stream + [SPACE] + r.payload;
  }

  lemma ParseOneRecord(r: Record, rest: seq<byte>)
    requires RecordOk(r)
    ensures ParseFile(Encode(r) + rest) == [Some(r)] + ParseFile(rest)
  {
    hide IndexOf, ParseLine;
    StreamHasNoSpace(r.stream);
    var e := Encode(r);
    var data := e + rest;
    var k := |e| - 1;
    assert EOL !in e[..k] by {
      assert e[..k] == r.timestamp + [SPACE] + r.stream + [SPACE] + r.payload;
    }
    assert data[..k] == e[..k] && data[k] == EOL && data[k + 1..] == rest;
    assert forall n :: 0 <= n < k ==> data[n] == e[..k][n];
    IndexIs(data, EOL, 0, k);
    ParseEncodedLine(r);
  }

  function Somes(rs: seq<Record>): seq<Option<Record>> {
    seq(|rs|, i requires 0 <= i < |rs| => Some(rs[i]))
  }

  /** Reading back what was appended recovers every record, in order. */
  lemma {:induction false} ParseEncoded(rs: seq<Record>)
    requires RecordsOk(rs)
    ensures ParseFile(EncodeAll(rs)) == Somes(rs)
    decreases |rs|
  {
    if rs != [] {
      assert EncodeAll(rs) == Encode(rs[0]) + EncodeAll(rs[1..]);
      assert Somes(rs) == [Some(rs[0])] + Somes(rs[1..]);
      hide ParseFile, Encode, EncodeAll, RecordOk, Somes;
      ParseOneRecord(rs[0], EncodeAll(rs[1..]));
      ParseEncoded(rs[1..]);
    }
  }

  // -------------------------------------------------------------- results

  ghost predicate ClockOk(clock: nat -> seq<byte>) {
    forall i :: TimestampOk(clock(i))
  }

  lemma {:induction false} RecordsAreOk(input: seq<byte>, stream: seq<byte>, clock: nat -> seq<byte>, i: nat)
    requires ClockOk(clock) && (stream == STDOUT || stream == STDERR)
    ensures RecordsOk(Records(input, stream, clock, i))
    ensures forall n :: 0 <= n < |Records(input, stream, clock, i)| ==>
      Records(input, stream, clock, i)[n].stream == stream && |Records(input, stream, clock, i)[n].payload| <= BUF_SIZE
    decreases |input|
  {
    if input != [] {
      RecordsAreOk(Cut(input).rest, stream, clock, i + 1);
    }
  }

  /** Every record fits into one atomic write. */
  lemma RecordFitsPipe(input: seq<byte>, stream: seq<byte>, clock: nat -> seq<byte>, n: nat)
    requires ClockOk(clock) && (stream == STDOUT || stream == STDERR) && n < |Records(input, stream, clock, 0)|
    ensures |Encode(Records(input, stream, clock, 0)[n])| <= 4096
  {
    RecordsAreOk(input, stream, clock, 0);
  }

  lemma {:induction false} PayloadsAreStripped(input: seq<byte>, stream: seq<byte>, clock: nat -> seq<byte>, i: nat)
    ensures Payloads(Records(input, stream, clock, i)) == Strip(input)
    decreases |input|
  {
    if input != [] {
      CutStrips(input);
      PayloadsAreStripped(Cut(input).rest, stream, clock, i + 1);
      var rs := Records(input, stream, clock, i);
      assert rs[1..] == Records(Cut(input).rest, stream, clock, i + 1);
    }
  }

  /**
  Log round trip.  With every write done, splitting the file into lines and
  each line into three fields recovers every record, and the payloads together
  are the input without exactly its "\n" and "\r\n" terminators.
  */
  lemma LogRoundTrip(input: seq<byte>, stream: seq<byte>, clock: nat -> seq<byte>, writes: nat -> bool)
    requires ClockOk(clock) && (stream == STDOUT || stream == STDERR) && forall i :: writes(i)
    ensures var rs := Records(input, stream, clock, 0);
            ParseFile(EncodeAll(Written(rs, writes, 0))) == Somes(rs) && Payloads(rs) == Strip(input)
  {
    AllWritten(Records(input, stream, clock, 0), writes, 0);
    RecordsAreOk(input, stream, clock, 0);
    ParseEncoded(Records(input, stream, clock, 0));
    PayloadsAreStripped(input, stream, clock, 0);
  }

  lemma {:induction false} AllWritten(rs: seq<Record>, writes: nat -> bool, from: nat)
    requires forall i :: from <= i ==> writes(i)
    ensures Written(rs, writes, from) == rs
  {
    if rs != [] {
      AllWritten(rs[1..], writes, from + 1);
    }
  }

  lemma {:induction false} WrittenOk(rs: seq<Record>, stream: seq<byte>, writes: nat -> bool, from: nat)
    requires RecordsOk(rs) && AllOf(rs, stream)
    ensures RecordsOk(Written(rs, writes, from)) && AllOf(Written(rs, writes, from), stream)
  {
    if rs != [] {
      WrittenOk(rs[1..], stream, writes, from + 1);
    }
  }

  // ------------------------------------------------------------- line structure

  /** A line of less than 4052 bytes is one record, without its terminator. */
  lemma LineIsOneRecord(line: seq<byte>, rest: seq<byte>, stream: seq<byte>, clock: nat -> seq<byte>, i: nat)
    requires 10 !in line && |line| < 4052
    ensures Records(line + [10] + rest, stream, clock, i) ==
      [Record(clock(i), stream, WithoutCr(line))] + Records(rest, stream, clock, i + 1)
  {
    var input := line + [EOL] + rest;
    IndexIs(input, EOL, 0, |line|);
    assert input[..|line|] == line && input[|line| + 1..] == rest;
  }

  /** One carriage return at the end belongs to the terminator. */
  function WithoutCr(line: seq<byte>): (r: seq<byte>)
    ensures line == r || line == r + [13]
    ensures line != [] && line[|line| - 1] == 13 <==> line == r + [13]
  {
    DropCr(line)
  }

  /** What is left at the end, without a terminator, is one record if it has less than 4052 bytes. */
  lemma EndIsOneRecord(line: seq<byte>, stream: seq<byte>, clock: nat -> seq<byte>, i: nat)
    requires 10 !in line && 0 < |line| < 4052
    ensures Records(line, stream, clock, i) == [Record(clock(i), stream, line)]
  {
    IndexIs(line, EOL, 0, |line|);
    assert Records([], stream, clock, i + 1) == [];
  }

  /**
  A longer line is cut, without losing a byte, into records of 4052 bytes, or
  of 4051 where the last of these is a carriage return, which may belong to
  the terminator.
  */
  lemma LongLineIsCut(input: seq<byte>, stream: seq<byte>, clock: nat -> seq<byte>, i: nat)
    requires |input| >= 4052 && 10 !in input[..4052]
    ensures var n := if input[4051] == 13 then 4051 else 4052;
      Records(input, stream, clock, i) ==
        [Record(clock(i), stream, input[..n])] + Records(input[n..], stream, clock, i + 1)
  {
    var k := IndexOf(input, EOL, 0);
    assert input == input[..4052] + input[4052..];
    assert forall n :: 0 <= n < 4052 ==> input[n] in input[..4052];
    assert k >= 4052;
  }

  /** The bytes of a record: timestamp, stream and line, separated by spaces and ended by a newline. */
  lemma RecordBytes(t: seq<byte>, stream: seq<byte>, line: seq<byte>)
    ensures Encode(Record(t, stream, line)) == t + [32] + stream + [32] + line + [10]
    ensures forall i :: 0 <= i < 6 ==> STDOUT[i] as char == "stdout"[i] && STDERR[i] as char == "stderr"[i]
  {
  }

  /** `c` interleaves `a` and `b`. */
  predicate IsMerge<T(==)>(a: seq<T>, b: seq<T>, c: seq<T>)
    decreases |c|
  {
    if c == [] then a == [] && b == []
    else
      || (a != [] && c[0] == a[0] && IsMerge(a[1..], b, c[1..]))
      || (b != [] && c[0] == b[0] && IsMerge(a, b[1..], c[1..]))
  }

  function Select(rs: seq<Option<Record>>, stream: seq<byte>): seq<Record> {
    if rs == [] then []
    else (if rs[0].Some? && rs[0].value.stream == stream then [rs[0].value] else []) + Select(rs[1..], stream)
  }

  predicate AllOf(rs: seq<Record>, stream: seq<byte>) {
    forall i :: 0 <= i < |rs| ==> rs[i].stream == stream
  }

  lemma SelectStep(c: seq<Record>, s: seq<byte>)
    requires c != []
    ensures Select(Somes(c), s) == (if c[0].stream == s then [c[0]] else []) + Select(Somes(c[1..]), s)
  {
    assert Somes(c)[1..] == Somes(c[1..]);
  }

  lemma {:induction false} MergeSelects(a: seq<Record>, b: seq<Record>, c: seq<Record>, sa: seq<byte>, sb: seq<byte>)
    requires IsMerge(a, b, c) && AllOf(a, sa) && AllOf(b, sb) && sa != sb
    ensures Select(Somes(c), sa) == a && Select(Somes(c), sb) == b
    decreases |c|
  {
    if c != [] {
      SelectStep(c, sa);
      SelectStep(c, sb);
      hide Select, Somes;
      if a != [] && c[0] == a[0] && IsMerge(a[1..], b, c[1..]) {
        MergeSelects(a[1..], b, c[1..], sa, sb);
      } else {
        MergeSelects(a, b[1..], c[1..], sa, sb);
      }
    }
  }

  lemma {:induction false} MergeOk(a: seq<Record>, b: seq<Record>, c: seq<Record>)
    requires IsMerge(a, b, c) && RecordsOk(a) && RecordsOk(b)
    ensures RecordsOk(c)
    decreases |c|
  {
    if c != [] {
      if a != [] && c[0] == a[0] && IsMerge(a[1..], b, c[1..]) {
        MergeOk(a[1..], b, c[1..]);
      } else {
        MergeOk(a, b[1..], c[1..]);
      }
    }
  }

  /** What one logger has appended, for whichever writes succeeded. */
  function Appended(input: seq<byte>, stream: seq<byte>, clock: nat -> seq<byte>, writes: nat -> bool): seq<Record> {
    Written(Records(input, stream, clock, 0), writes, 0)
  }

  /**
  Log interleaving.  However the two loggers of a container interleave their
  record appends, parsing the file and selecting a stream gives back exactly
  what the logger of that stream wrote, in order.
  */
  lemma LogInterleaving(out: seq<byte>, err: seq<byte>, clock: nat -> seq<byte>, clock2: nat -> seq<byte>,
                        writes: nat -> bool, writes2: nat -> bool, file: seq<Record>)
    requires ClockOk(clock) && ClockOk(clock2)
    requires IsMerge(Appended(out, STDOUT, clock, writes), Appended(err, STDERR, clock2, writes2), file)
    ensures Select(ParseFile(EncodeAll(file)), STDOUT) == Appended(out, STDOUT, clock, writes)
    ensures Select(ParseFile(EncodeAll(file)), STDERR) == Appended(err, STDERR, clock2, writes2)
  {
    var a, b := Appended(out, STDOUT, clock, writes), Appended(err, STDERR, clock2, writes2);
    RecordsAreOk(out, STDOUT, clock, 0);
    RecordsAreOk(err, STDERR, clock2, 0);
    WrittenOk(Records(out, STDOUT, clock, 0), STDOUT, writes, 0);
    WrittenOk(Records(err, STDERR, clock2, 0), STDERR, writes2, 0);
    MergeOk(a, b, file);
    ParseEncoded(file);
    assert STDOUT[3] != STDERR[3];
    MergeSelects(a, b, file, STDOUT, STDERR);
  }

  // ------------------------------------------------------------- the loop

  class LineReader {
    var input: seq<byte>

    constructor (data: seq<byte>)
      ensures input == data
    {
      input := data;
    }

    /** ReadLine: None at the end of the input. */
    method ReadLine() returns (line: Option<seq<byte>>)
      modifies this
      ensures old(input) == [] ==> line.None? && input == []
      ensures old(input) != [] ==> line == Some(Cut(old(input)).line) && input == Cut(old(input)).rest
    {
      if input == [] {
        return None;
      }
      var n := 0;
      while n < |input| && n < BUF_SIZE && input[n] != EOL
        invariant 0 <= n <= |input| && n <= BUF_SIZE && IndexOf(input, EOL, 0) == IndexOf(input, EOL, n)
      {
        n := n + 1;
      }
      if n == |input| || n == BUF_SIZE {
        // No terminator in the buffer: hand out what is there, but never split a "\r\n".
        if n == BUF_SIZE && input[n - 1] == CR {
          n := n - 1;
        }
        assert n == |input| ==> input[..n] == input && input[n..] == [];
        line := Some(input[..n]);
        input := input[n..];
      } else {
        assert n > 0 ==> input[..n][n - 1] == input[n - 1] && input[..n][..n - 1] == input[..n - 1];
        line := Some(if n > 0 && input[n - 1] == CR then input[..n - 1] else input[..n]);
        input := input[n + 1..];
      }
    }
  }

  class LogFile {
    var data: seq<byte>

    constructor ()
      ensures data == []
    {
      data := [];
    }

    method Append(bytes: seq<byte>)
      modifies this
      ensures data == old(data) + bytes
    {
      data := data + bytes;
    }
  }

  /** What redirectLogs appends, line by line. */
  function Emit(input: seq<byte>, stream: seq<byte>, clock: nat -> seq<byte>, writes: nat -> bool, i: nat): seq<byte>
    decreases |input|
  {
    if input == [] then []
    else (if writes(i) then Encode(Record(clock(i), stream, Cut(input).line)) else [])
         + Emit(Cut(input).rest, stream, clock, writes, i + 1)
  }

  lemma {:induction false} EmitIsEncoded(input: seq<byte>, stream: seq<byte>, clock: nat -> seq<byte>,
                                         writes: nat -> bool, i: nat)
    ensures Emit(input, stream, clock, writes, i) == EncodeAll(Written(Records(input, stream, clock, i), writes, i))
    decreases |input|
  {
    hide Cut, Encode;
    if input != [] {
      EmitIsEncoded(Cut(input).rest, stream, clock, writes, i + 1);
      var rs := Records(input, stream, clock, i);
      assert rs[1..] == Records(Cut(input).rest, stream, clock, i + 1);
      if writes(i) {
        assert Written(rs, writes, i)[1..] == Written(rs[1..], writes, i + 1);
      } else {
        assert Written(rs, writes, i) == Written(rs[1..], writes, i + 1);
      }
    }
  }

  /** redirectLogs: one record per line read, until the end of the input; a failed write is skipped. */
  method RedirectLogs(r: LineReader, file: LogFile, stream: seq<byte>, clock: nat -> seq<byte>, writes: nat -> bool)
    modifies r, file
    ensures r.input == []
    ensures file.data == old(file.data) + EncodeAll(Written(Records(old(r.input), stream, clock, 0), writes, 0))
  {
    var i := 0;
    EmitIsEncoded(r.input, stream, clock, writes, 0);
    while true
      invariant file.data + Emit(r.input, stream, clock, writes, i)
             == old(file.data) + Emit(old(r.input), stream, clock, writes, 0)
      decreases |r.input|
    {
      var line := r.ReadLine();
      if line.None? {
        return;
      }
      var data := clock(i) + [SPACE] + stream + [SPACE] + line.value + [EOL];
      if writes(i) {
        file.Append(data);
      }
      i := i + 1;
    }
  }
}
