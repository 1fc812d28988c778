/**
The append-only accounting ledger: a header line, then one digest-chained record per line.
The JSON encoding and the digest are parameters; `Codec.Lawful` says all that is used of them.
*/
module AccountingLog {
  import opened Values
  import opened SchedulerState

  type Byte = b: nat | b < 256
  type Bytes = seq<Byte>
  type Digest = string

  const NEWLINE: Byte := 10
  const SCHEMA: nat := 1

  datatype Checkpoint = Checkpoint(version: nat, installation: string, sequence: nat, digest: Digest)

  datatype Store = Store(
    schema: nat,
    providers: map<string, ProviderState>,
    checkpoint: Option<Checkpoint>)

  datatype Header = Header(version: nat, installation: string)

  datatype Record = Record(sequence: nat, previous: Digest, state: Store, digest: Digest)

  /** Checkpoint k certifies the first k states. */
  datatype Log = Log(checkpoints: seq<Checkpoint>, states: seq<Store>)

  datatype Codec = Codec(
    header: Header -> Bytes,
    readHeader: Bytes -> Option<Header>,
    record: Record -> Bytes,
    readRecord: Bytes -> Option<Record>,
    checkpoint: Checkpoint -> Bytes,
    readCheckpoint: Bytes -> Option<Checkpoint>,
    store: Store -> Bytes,
    readStore: Bytes -> Option<Store>,
    body: (nat, Digest, Store) -> Bytes,
    digest: Bytes -> Digest)
  {
    /** Parsing undoes encoding, and what is written to the ledger is a single line. */
    ghost predicate Parses() {
      && (forall h :: readHeader(header(h)) == Some(h) && NEWLINE !in header(h))
      && (forall r :: readRecord(record(r)) == Some(r) && NEWLINE !in record(r))
      && (forall k :: readCheckpoint(checkpoint(k)) == Some(k) && checkpoint(k) != [])
      && (forall s :: readStore(store(s)) == Some(s))
    }

    /** Neither record bodies nor digests collide. */
    ghost predicate CollisionFree() {
      && (forall n, d, s, n', d', s' :: body(n, d, s) == body(n', d', s') ==> n == n' && d == d' && s == s')
      && (forall x, y :: digest(x) == digest(y) ==> x == y)
    }

    ghost predicate Lawful() {
      Parses() && CollisionFree()
    }
  }

  const EMPTY_STORE := Store(SCHEMA, map[], None)

  predicate ValidStore(s: Store) {
    forall id <- s.providers :: ValidProvider(id, s.providers[id])
  }

  predicate IsHexDigit(c: char) {
    '0' <= c <= '9' || 'a' <= c <= 'f' || 'A' <= c <= 'F'
  }

  predicate ValidHeader(h: Header) {
    h.version == SCHEMA && |h.installation| == 32 && forall c <- h.installation :: IsHexDigit(c)
  }

  // ---------------------------------------------------------------- Lines

  /** The lines of a text, separated (not terminated) by newlines; there is always at least one. */
  function Split(b: Bytes): (lines: seq<Bytes>)
    ensures |lines| >= 1
  {
    if b == [] then [[]]
    else
      var rest := Split(b[1..]);
      if b[0] == NEWLINE then [[]] + rest else [[b[0]] + rest[0]] + rest[1..]
  }

  lemma {:induction false} SplitSingleLine(line: Bytes)
    requires NEWLINE !in line
    ensures Split(line) == [line]
  {
    if line != [] {
      SplitSingleLine(line[1..]);
      assert line == [line[0]] + line[1..];
    }
  }

  lemma {:induction false} SplitAppendLine(b: Bytes, line: Bytes)
    requires NEWLINE !in line
    ensures Split(b + [NEWLINE] + line) == Split(b) + [line]
  {
    var whole := b + [NEWLINE] + line;
    if b == [] {
      assert whole[1..] == line;
      SplitSingleLine(line);
    } else {
      assert whole[1..] == b[1..] + [NEWLINE] + line;
      SplitAppendLine(b[1..], line);
    }
  }

  // ---------------------------------------------------------------- Reading

  function RecordDigest(c: Codec, sequence: nat, previous: Digest, state: Store): Digest {
    c.digest(c.body(sequence, previous, state))
  }

  function NewRecord(c: Codec, sequence: nat, previous: Digest, state: Store): Record {
    Record(sequence, previous, state, RecordDigest(c, sequence, previous, state))
  }

  function ReadFirstLine(c: Codec, line: Bytes): Option<Log> {
    match c.readHeader(line)
    case None => None
    case Some(h) =>
      if ValidHeader(h)
      then Some(Log([Checkpoint(h.version, h.installation, 0, c.digest(line))], []))
      else None
  }

  predicate Continues(c: Codec, previous: Checkpoint, r: Record) {
    && r.sequence == previous.sequence + 1
    && r.previous == previous.digest
    && r.state.schema == SCHEMA
    && r.state.checkpoint.None?
    && r.digest == RecordDigest(c, r.sequence, r.previous, r.state)
    && ValidStore(r.state)
  }

  function ReadNextLine(c: Codec, log: Log, line: Bytes): Option<Log>
    requires log.checkpoints != []
  {
    var previous := log.checkpoints[|log.checkpoints| - 1];
    match c.readRecord(line)
    case None => None
    case Some(r) =>
      if Continues(c, previous, r)
      then Some(Log(log.checkpoints + [previous.(sequence := r.sequence, digest := r.digest)],
                    log.states + [r.state]))
      else None
  }

  function ReadLines(c: Codec, lines: seq<Bytes>): (r: Option<Log>)
    requires lines != []
    ensures r.Some? ==> |r.value.checkpoints| == |r.value.states| + 1 == |lines|
  {
    if |lines| == 1 then ReadFirstLine(c, lines[0])
    else
      match ReadLines(c, lines[..|lines| - 1])
      case None => None
      case Some(log) => ReadNextLine(c, log, lines[|lines| - 1])
  }

  /** What a ledger's bytes say, or None when they must be refused. */
  function LogOf(c: Codec, bytes: Bytes): (r: Option<Log>)
    ensures r.Some? ==> |r.value.checkpoints| == |r.value.states| + 1
  {
    if bytes == [] || bytes[|bytes| - 1] != NEWLINE then None
    else ReadLines(c, Split(bytes[..|bytes| - 1]))
  }

  lemma {:induction false} RefusedPrefix(c: Codec, lines: seq<Bytes>, n: nat)
    requires 0 < n <= |lines| && ReadLines(c, lines[..n]).None?
    ensures ReadLines(c, lines).None?
    decreases |lines|
  {
    if n < |lines| {
      var shorter := lines[..|lines| - 1];
      assert shorter[..n] == lines[..n];
      RefusedPrefix(c, shorter, n);
    } else {
      assert lines[..n] == lines;
    }
  }

  /** The reader itself: one pass over the lines, refusing at the first bad one. */
  method ReadLog(c: Codec, bytes: Bytes) returns (r: Option<Log>)
    ensures r == LogOf(c, bytes)
  {
    if bytes == [] || bytes[|bytes| - 1] != NEWLINE {
      return None;
    }
    var lines := Split(bytes[..|bytes| - 1]);
    var header := c.readHeader(lines[0]);
    if header.None? || !ValidHeader(header.value) {
      assert lines[..1] == [lines[0]];
      RefusedPrefix(c, lines, 1);
      return None;
    }
    var h := header.value;
    var checkpoints := [Checkpoint(h.version, h.installation, 0, c.digest(lines[0]))];
    var states: seq<Store> := [];
    assert lines[..1] == [lines[0]];
    for i := 1 to |lines|
      invariant |checkpoints| == i
      invariant ReadLines(c, lines[..i]) == Some(Log(checkpoints, states))
    {
      assert lines[..i + 1][..i] == lines[..i];
      var record := c.readRecord(lines[i]);
      var previous := checkpoints[|checkpoints| - 1];
      if record.None? || !Continues(c, previous, record.value) {
        RefusedPrefix(c, lines, i + 1);
        return None;
      }
      checkpoints := checkpoints + [previous.(sequence := record.value.sequence, digest := record.value.digest)];
      states := states + [record.value.state];
    }
    assert lines[..|lines|] == lines;
    r := Some(Log(checkpoints, states));
  }

  // ---------------------------------------------------------------- The digest chain

  /** The digest that certifies a header line followed by these states. */
  function ChainDigest(c: Codec, head: Bytes, states: seq<Store>): Digest {
    if states == [] then c.digest(head)
    else
      var n := |states| - 1;
      RecordDigest(c, n + 1, ChainDigest(c, head, states[..n]), states[n])
  }

  function CheckpointFor(c: Codec, h: Header, head: Bytes, states: seq<Store>): Checkpoint {
    Checkpoint(h.version, h.installation, |states|, ChainDigest(c, head, states))
  }

  predicate WritableState(s: Store) {
    s.schema == SCHEMA && s.checkpoint.None? && ValidStore(s)
  }

  /** An accepted log is determined by its header line and its states: its checkpoints are the chain over them. */
  ghost predicate IsChain(c: Codec, h: Header, head: Bytes, log: Log) {
    && ValidHeader(h)
    && (forall s <- log.states :: WritableState(s))
    && |log.checkpoints| == |log.states| + 1
    && forall k :: 0 <= k <= |log.states| ==> log.checkpoints[k] == CheckpointFor(c, h, head, log.states[..k])
  }

  lemma {:induction false} AcceptedLinesAreChained(c: Codec, lines: seq<Bytes>)
    requires lines != [] && ReadLines(c, lines).Some?
    ensures c.readHeader(lines[0]).Some?
    ensures IsChain(c, c.readHeader(lines[0]).value, lines[0], ReadLines(c, lines).value)
  {
    if |lines| > 1 {
      var shorter := lines[..|lines| - 1];
      AcceptedLinesAreChained(c, shorter);
      var before, after := ReadLines(c, shorter).value, ReadLines(c, lines).value;
      var h := c.readHeader(lines[0]).value;
      var n := |before.states|;
      assert before.states[..n] == before.states;
      assert after.states[..n + 1] == after.states;
      forall k | 0 <= k <= n + 1
        ensures after.checkpoints[k] == CheckpointFor(c, h, lines[0], after.states[..k])
      {
        if k <= n {
          assert after.states[..k] == before.states[..k];
        }
      }
    }
  }

  predicate Validates(cp: Checkpoint, log: Log) {
    cp.sequence < |log.checkpoints| && log.checkpoints[cp.sequence] == cp
  }

  lemma {:induction false} EqualDigestsEqualHistories(c: Codec, head: Bytes, states: seq<Store>, head': Bytes, states': seq<Store>)
    requires c.CollisionFree() && |states| == |states'|
    requires ChainDigest(c, head, states) == ChainDigest(c, head', states')
    ensures head == head' && states == states'
  {
    if states != [] {
      var n := |states| - 1;
      var x := c.body(n + 1, ChainDigest(c, head, states[..n]), states[n]);
      var y := c.body(n + 1, ChainDigest(c, head', states'[..n]), states'[n]);
      assert x == y;
      EqualDigestsEqualHistories(c, head, states[..n], head', states'[..n]);
      assert states == states[..n] + [states[n]];
      assert states' == states'[..n] + [states'[n]];
    }
  }

  lemma ChainsAgree(c: Codec, h: Header, head: Bytes, log: Log, log': Log, n: nat)
    requires IsChain(c, h, head, log) && IsChain(c, h, head, log')
    requires n <= |log.states| && n <= |log'.states| && log.states[..n] == log'.states[..n]
    ensures log.checkpoints[..n + 1] == log'.checkpoints[..n + 1]
  {
    forall k | 0 <= k <= n
      ensures log.checkpoints[k] == log'.checkpoints[k]
    {
      assert log.states[..k] == log.states[..n][..k] == log'.states[..k];
    }
  }

  lemma ChainsShareHistory(c: Codec, cp: Checkpoint, h: Header, head: Bytes, log: Log, h': Header, head': Bytes, log': Log)
    requires c.CollisionFree() && IsChain(c, h, head, log) && IsChain(c, h', head', log')
    requires Validates(cp, log) && Validates(cp, log')
    ensures head == head' && log.states[..cp.sequence] == log'.states[..cp.sequence]
  {
    EqualDigestsEqualHistories(c, head, log.states[..cp.sequence], head', log'.states[..cp.sequence]);
  }

  /** One checkpoint cannot certify two different histories. */
  lemma CheckpointPinsHistory(c: Codec, cp: Checkpoint, b1: Bytes, b2: Bytes)
    requires c.CollisionFree() && LogOf(c, b1).Some? && LogOf(c, b2).Some?
    requires Validates(cp, LogOf(c, b1).value) && Validates(cp, LogOf(c, b2).value)
    ensures Split(b1[..|b1| - 1])[0] == Split(b2[..|b2| - 1])[0]
    ensures LogOf(c, b1).value.states[..cp.sequence] == LogOf(c, b2).value.states[..cp.sequence]
    ensures LogOf(c, b1).value.checkpoints[..cp.sequence + 1] == LogOf(c, b2).value.checkpoints[..cp.sequence + 1]
  {
    var l1, l2 := Split(b1[..|b1| - 1]), Split(b2[..|b2| - 1]);
    var log1, log2 := LogOf(c, b1).value, LogOf(c, b2).value;
    AcceptedLinesAreChained(c, l1);
    AcceptedLinesAreChained(c, l2);
    var h1, h2 := c.readHeader(l1[0]).value, c.readHeader(l2[0]).value;
    ChainsShareHistory(c, cp, h1, l1[0], log1, h2, l2[0], log2);
    ChainsAgree(c, h1, l1[0], log1, log2, cp.sequence);
  }

  // ---------------------------------------------------------------- What the program writes

  function RecordLine(c: Codec, head: Bytes, states: seq<Store>, next: Store): Bytes {
    c.record(NewRecord(c, |states| + 1, ChainDigest(c, head, states), next)) + [NEWLINE]
  }

  function LedgerBytes(c: Codec, h: Header, states: seq<Store>): Bytes {
    if states == [] then c.header(h) + [NEWLINE]
    else
      var n := |states| - 1;
      LedgerBytes(c, h, states[..n]) + RecordLine(c, c.header(h), states[..n], states[n])
  }

  function LedgerLog(c: Codec, h: Header, states: seq<Store>): Log {
    Log(seq(|states| + 1, k requires 0 <= k <= |states| => CheckpointFor(c, h, c.header(h), states[..k])), states)
  }

  lemma {:induction false} LedgerEndsInNewline(c: Codec, h: Header, states: seq<Store>)
    ensures LedgerBytes(c, h, states) != []
    ensures LedgerBytes(c, h, states)[|LedgerBytes(c, h, states)| - 1] == NEWLINE
  {
  }

  lemma LedgerExtends(c: Codec, h: Header, states: seq<Store>, next: Store)
    ensures LedgerBytes(c, h, states + [next]) == LedgerBytes(c, h, states) + RecordLine(c, c.header(h), states, next)
    ensures LedgerLog(c, h, states + [next]) ==
            Log(LedgerLog(c, h, states).checkpoints + [CheckpointFor(c, h, c.header(h), states + [next])], states + [next])
  {
    var longer := states + [next];
    assert longer[..|states|] == states;
    forall k | 0 <= k <= |states|
      ensures longer[..k] == states[..k]
    {
    }
    assert longer[..|longer|] == longer;
  }

  /** One more line is read by one more step of the reader. */
  lemma ReadAppended(c: Codec, b: Bytes, line: Bytes)
    requires b != [] && b[|b| - 1] == NEWLINE && LogOf(c, b).Some? && NEWLINE !in line
    ensures LogOf(c, b + line + [NEWLINE]) == ReadNextLine(c, LogOf(c, b).value, line)
  {
    var body := b[..|b| - 1];
    var longer := b + line + [NEWLINE];
    assert longer[..|longer| - 1] == body + [NEWLINE] + line;
    SplitAppendLine(body, line);
    assert (Split(body) + [line])[..|Split(body)|] == Split(body);
  }

  lemma ReadFirst(c: Codec, h: Header)
    requires c.Parses() && ValidHeader(h)
    ensures LogOf(c, LedgerBytes(c, h, [])) == Some(LedgerLog(c, h, []))
  {
    var head := c.header(h);
    assert (head + [NEWLINE])[..|head|] == head;
    SplitSingleLine(head);
    assert LedgerLog(c, h, []).checkpoints == [CheckpointFor(c, h, head, [])];
  }

  lemma DigestExtends(c: Codec, head: Bytes, states: seq<Store>, next: Store)
    ensures ChainDigest(c, head, states + [next]) == RecordDigest(c, |states| + 1, ChainDigest(c, head, states), next)
  {
    assert (states + [next])[..|states|] == states;
  }

  lemma NextRecordReads(c: Codec, h: Header, states: seq<Store>, next: Store)
    requires c.Parses() && WritableState(next)
    ensures var record := NewRecord(c, |states| + 1, ChainDigest(c, c.header(h), states), next);
            && NEWLINE !in c.record(record)
            && ReadNextLine(c, LedgerLog(c, h, states), c.record(record)) == Some(LedgerLog(c, h, states + [next]))
  {
    assert states[..|states|] == states;
    DigestExtends(c, c.header(h), states, next);
    LedgerExtends(c, h, states, next);
  }

  lemma ReadAnother(c: Codec, h: Header, states: seq<Store>, next: Store)
    requires c.Parses() && WritableState(next)
    requires LogOf(c, LedgerBytes(c, h, states)) == Some(LedgerLog(c, h, states))
    ensures LogOf(c, LedgerBytes(c, h, states + [next])) == Some(LedgerLog(c, h, states + [next]))
  {
    var head := c.header(h);
    var record := NewRecord(c, |states| + 1, ChainDigest(c, head, states), next);
    var b := LedgerBytes(c, h, states);
    LedgerEndsInNewline(c, h, states);
    LedgerExtends(c, h, states, next);
    assert b + RecordLine(c, head, states, next) == b + c.record(record) + [NEWLINE];
    NextRecordReads(c, h, states, next);
    ReadAppended(c, b, c.record(record));
  }

  lemma ReadLast(c: Codec, h: Header, states: seq<Store>, front: seq<Store>, last: Store)
    requires c.Parses() && WritableState(last) && states == front + [last]
    ensures LogOf(c, LedgerBytes(c, h, front)) == Some(LedgerLog(c, h, front)) ==>
              LogOf(c, LedgerBytes(c, h, states)) == Some(LedgerLog(c, h, states))
  {
    if LogOf(c, LedgerBytes(c, h, front)) == Some(LedgerLog(c, h, front)) {
      ReadAnother(c, h, front, last);
    }
  }

  lemma {:induction false} LedgerReads(c: Codec, h: Header, states: seq<Store>)
    requires c.Parses() && ValidHeader(h) && forall s <- states :: WritableState(s)
    ensures LogOf(c, LedgerBytes(c, h, states)) == Some(LedgerLog(c, h, states))
  {
    if states == [] {
      ReadFirst(c, h);
    } else {
      var front, last := states[..|states| - 1], states[|states| - 1];
      LedgerReads(c, h, front);
      ReadLast(c, h, states, front, last);
    }
  }

  /** Nothing unwritable is ever accepted. */
  lemma AcceptedIsWritable(c: Codec, b: Bytes)
    requires LogOf(c, b).Some?
    ensures forall s <- LogOf(c, b).value.states :: WritableState(s)
    ensures var first := LogOf(c, b).value.checkpoints[0]; ValidHeader(Header(first.version, first.installation))
  {
    AcceptedLinesAreChained(c, Split(b[..|b| - 1]));
  }

  /** Reading back exactly what was written, for exactly the valid headers and histories. */
  lemma LedgerRoundTrip(c: Codec, h: Header, states: seq<Store>)
    requires c.Parses()
    ensures LogOf(c, LedgerBytes(c, h, states)) == Some(LedgerLog(c, h, states))
            <==> ValidHeader(h) && forall s <- states :: WritableState(s)
  {
    var bytes, log := LedgerBytes(c, h, states), LedgerLog(c, h, states);
    if LogOf(c, bytes) == Some(log) {
      AcceptedIsWritable(c, bytes);
      assert Header(log.checkpoints[0].version, log.checkpoints[0].installation) == h;
    }
    if ValidHeader(h) && forall s <- states :: WritableState(s) {
      LedgerReads(c, h, states);
    }
  }

  /** A ledger whose last line was cut anywhere inside is refused. */
  lemma TornLineRefused(c: Codec, h: Header, states: seq<Store>, next: Store, k: nat)
    requires c.Parses() && 0 < k < |RecordLine(c, c.header(h), states, next)|
    ensures NEWLINE !in RecordLine(c, c.header(h), states, next)[..k]
    ensures LogOf(c, LedgerBytes(c, h, states) + RecordLine(c, c.header(h), states, next)[..k]).None?
  {
    var record := NewRecord(c, |states| + 1, ChainDigest(c, c.header(h), states), next);
    assert RecordLine(c, c.header(h), states, next)[..k] == c.record(record)[..k];
  }

  /** An append cut after k bytes is the old ledger, the new ledger, or refused. */
  lemma TornAppend(c: Codec, h: Header, states: seq<Store>, next: Store, k: nat)
    requires c.Parses() && ValidHeader(h) && (forall s <- states :: WritableState(s)) && WritableState(next)
    requires k <= |RecordLine(c, c.header(h), states, next)|
    ensures LogOf(c, LedgerBytes(c, h, states) + RecordLine(c, c.header(h), states, next)[..k]) ==
            if k == 0 then Some(LedgerLog(c, h, states))
            else if k == |RecordLine(c, c.header(h), states, next)| then Some(LedgerLog(c, h, states + [next]))
            else None
  {
    var b, line := LedgerBytes(c, h, states), RecordLine(c, c.header(h), states, next);
    LedgerReads(c, h, states);
    if k == 0 {
      assert b + line[..k] == b;
    } else if k == |line| {
      assert line[..k] == line;
      LedgerExtends(c, h, states, next);
      ReadAnother(c, h, states, next);
    } else {
      TornLineRefused(c, h, states, next, k);
    }
  }
}
