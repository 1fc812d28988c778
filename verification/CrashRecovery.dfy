/**
When a crash is recoverable. A start is accepted after any crash exactly when the ledger does not end in an
incomplete line, provided that every start and save was calm: it found synced what its own writes rely on.
*/
module CrashRecovery {
  import opened Values
  import opened SchedulerState
  import opened AccountingLog
  import opened Recovery
  import opened CrashRuns
  import opened CrashRefinement

  predicate Torn(d: Disk) {
    d.ledger.now.Some? && (d.ledger.now.value == [] || d.ledger.now.value[|d.ledger.now.value| - 1] != NEWLINE)
  }

  predicate ZeroStore(s: Store) {
    forall id <- s.providers :: ZeroAccounting(s.providers[id])
  }

  predicate AllZero(states: seq<Store>) {
    forall s <- states :: ZeroStore(s)
  }

  // ---------------------------------------------------------------- Exactly when a start is accepted

  /** On a written recovery set: no torn line, and without a snapshot nothing may have been accounted yet. */
  predicate Usable(d: Disk, states: seq<Store>, tail: Bytes) {
    && tail == []
    && (d.snapshot.now.Some? ==> d.marker.now.Some?)
    && (d.snapshot.now.None? ==>
          && d.backup.now.None?
          && |states| <= 1
          && (d.marker.now.None? ==> states == [])
          && AllZero(states))
  }

  lemma ZeroMeansNothingStarted(c: Codec, h: Header, states: seq<Store>)
    ensures NothingStarted(LedgerLog(c, h, states)) <==> |states| <= 1 && AllZero(states)
  {
  }

  lemma ShapedMarkerValidates(c: Codec, d: Disk, h: Header, states: seq<Store>)
    requires c.Parses() && d.marker.now.Some? && MarkerOk(c, h, states, d.marker.now)
    ensures MarkerValidates(c, d, LedgerLog(c, h, states))
  {
  }

  lemma ShapedSnapshotMatches(c: Codec, d: Disk, h: Header, states: seq<Store>, attempted: set<Store>)
    requires c.Parses() && d.snapshot.now.Some? && SnapshotOk(c, h, states, attempted, d.snapshot.now)
    ensures BaseStore(c, d, LedgerLog(c, h, states)).Some?
  {
  }

  lemma TornIsRefused(c: Codec, d: Disk, identity: string, h: Header, states: seq<Store>, tail: Bytes)
    requires c.Parses() && LedgerOk(c, d, h, states, tail) && tail != []
    ensures Open(c, d, identity).Refused?
  {
    ShapedLedgerReads(c, d, h, states, tail);
  }

  lemma FreshAcceptedIffUsable(c: Codec, d: Disk, identity: string, h: Header, states: seq<Store>, attempted: set<Store>)
    requires c.Parses() && Shape(c, d, h, states, [], attempted) && Fresh(d)
    ensures Open(c, d, identity).Accepted? <==> Usable(d, states, [])
  {
    ShapedLedgerReads(c, d, h, states, []);
  }

  lemma ExistingAcceptedIffUsable(c: Codec, d: Disk, identity: string, h: Header, states: seq<Store>, attempted: set<Store>)
    requires c.Parses() && Shape(c, d, h, states, [], attempted) && !Fresh(d)
    ensures Open(c, d, identity).Accepted? <==> Usable(d, states, [])
  {
    ShapedLedgerReads(c, d, h, states, []);
    ZeroMeansNothingStarted(c, h, states);
    if d.marker.now.Some? {
      ShapedMarkerValidates(c, d, h, states);
    }
    if d.snapshot.now.Some? {
      ShapedSnapshotMatches(c, d, h, states, attempted);
    }
  }

  lemma AcceptedIffUsable(c: Codec, d: Disk, identity: string, h: Header, states: seq<Store>, tail: Bytes, attempted: set<Store>)
    requires c.Parses() && Shape(c, d, h, states, tail, attempted)
    ensures Open(c, d, identity).Accepted? <==> Usable(d, states, tail)
  {
    if tail != [] {
      TornIsRefused(c, d, identity, h, states, tail);
    } else if Fresh(d) {
      FreshAcceptedIffUsable(c, d, identity, h, states, attempted);
    } else {
      ExistingAcceptedIffUsable(c, d, identity, h, states, attempted);
    }
  }

  // ---------------------------------------------------------------- Runs over synced files

  function Possible(e: Entry): set<Content> { e.older + {e.now} }

  function SequenceOf(c: Codec, content: Content): nat {
    if content.Some? && c.readCheckpoint(content.value).Some? then c.readCheckpoint(content.value).value.sequence else 0
  }

  function CitedSequence(c: Codec, content: Content): nat {
    if content.Some? && c.readStore(content.value).Some? && c.readStore(content.value).value.checkpoint.Some?
    then c.readStore(content.value).value.checkpoint.value.sequence
    else 0
  }

  predicate Covers(c: Codec, d: Disk, h: Header, states: seq<Store>, k: nat) {
    k <= |states| && |LedgerBytes(c, h, states[..k])| <= d.synced
  }

  predicate LineEndsAt(c: Codec, h: Header, states: seq<Store>, m: nat, n: nat) {
    m <= |states| && n == |LedgerBytes(c, h, states[..m])|
  }

  /** The synced part of the ledger ends between two lines, or within a cut one that no start reads past. */
  predicate SyncedAtLine(c: Codec, d: Disk, h: Header, states: seq<Store>) {
    d.synced > |LedgerBytes(c, h, states)| || exists m | 0 <= m <= |states| :: LineEndsAt(c, h, states, m, d.synced)
  }

  /** Whatever a power loss leaves of the other files, the synced part of the ledger reaches that far. */
  predicate Durable(c: Codec, d: Disk, h: Header, states: seq<Store>) {
    && SyncedAtLine(c, d, h, states)
    && (forall content <- Possible(d.marker) :: Covers(c, d, h, states, SequenceOf(c, content)))
    && (forall content <- Possible(d.snapshot) :: Covers(c, d, h, states, CitedSequence(c, content)))
    && (None in Possible(d.snapshot) ==>
          && Possible(d.backup) == {None}
          && |states| <= 1 && AllZero(states)
          && (None in Possible(d.marker) ==> states == []))
    && (Possible(d.snapshot) != {None} ==> None !in Possible(d.marker))
    && (None in d.ledger.older ==> Possible(d.marker) == Possible(d.backup) == Possible(d.snapshot) == {None})
  }

  predicate DurableShape(c: Codec, d: Disk, h: Header, states: seq<Store>, tail: Bytes, attempted: set<Store>) {
    Shape(c, d, h, states, tail, attempted) && Durable(c, d, h, states)
  }

  lemma SyncingKeepsDurable(c: Codec, d: Disk, h: Header, states: seq<Store>, tail: Bytes)
    requires LedgerOk(c, d, h, states, tail) && Durable(c, d, h, states)
    ensures Durable(c, Perform(d, SyncDirectory), h, states)
    ensures Durable(c, Perform(d, SyncLedger), h, states)
  {
    assert states[..|states|] == states;
    if tail == [] {
      assert LedgerBytes(c, h, states) + tail == LedgerBytes(c, h, states);
      assert LineEndsAt(c, h, states, |states|, Perform(d, SyncLedger).synced);
    }
  }

  /** Which atomic replacements are safe on a durable disk. */
  predicate SafeWrite(c: Codec, d: Disk, h: Header, states: seq<Store>, attempted: set<Store>, file: File, bytes: Bytes) {
    match file
    case Ledger => false
    case Marker =>
      && MarkerOk(c, h, states, Some(bytes)) && Covers(c, d, h, states, SequenceOf(c, Some(bytes)))
      && None !in d.ledger.older
    case Backup => None !in Possible(d.snapshot) && None !in d.ledger.older
    case Snapshot =>
      && SnapshotOk(c, h, states, attempted, Some(bytes)) && Covers(c, d, h, states, CitedSequence(c, Some(bytes)))
      && None !in Possible(d.marker) && None !in d.ledger.older
  }

  lemma RenamedEntries(d: Disk, file: File, bytes: Bytes)
    requires file != Ledger
    ensures var d' := Perform(d, Rename(file, bytes));
            && Possible(d'.marker) == Possible(d.marker) + (if file == Marker then {Some(bytes)} else {})
            && Possible(d'.backup) == Possible(d.backup) + (if file == Backup then {Some(bytes)} else {})
            && Possible(d'.snapshot) == Possible(d.snapshot) + (if file == Snapshot then {Some(bytes)} else {})
            && d'.ledger == d.ledger && d'.synced == d.synced
  {
  }

  lemma RenameKeepsDurable(c: Codec, d: Disk, h: Header, states: seq<Store>, tail: Bytes, attempted: set<Store>, file: File, bytes: Bytes)
    requires DurableShape(c, d, h, states, tail, attempted)
    requires SafeWrite(c, d, h, states, attempted, file, bytes)
    ensures DurableShape(c, Perform(d, Rename(file, bytes)), h, states, tail, attempted)
  {
    RenameKeepsShape(c, d, h, states, tail, attempted, file, bytes);
    RenamedIsDurable(c, d, h, states, attempted, file, bytes);
  }

  lemma RenamedIsDurable(c: Codec, d: Disk, h: Header, states: seq<Store>, attempted: set<Store>, file: File, bytes: Bytes)
    requires Durable(c, d, h, states) && SafeWrite(c, d, h, states, attempted, file, bytes)
    ensures Durable(c, Perform(d, Rename(file, bytes)), h, states)
  {
    RenamedEntries(d, file, bytes);
  }

  lemma AtomicWriteKeepsDurable(c: Codec, d: Disk, h: Header, states: seq<Store>, tail: Bytes, attempted: set<Store>,
                                file: File, bytes: Bytes, n: nat, k: nat)
    requires DurableShape(c, d, h, states, tail, attempted)
    requires SafeWrite(c, d, h, states, attempted, file, bytes)
    ensures var plan := [Rename(file, bytes), SyncDirectory];
            && DurableShape(c, Interrupted(d, plan, n, k), h, states, tail, attempted)
            && DurableShape(c, PerformAll(d, plan), h, states, tail, attempted)
  {
    InterruptedRename(d, file, bytes, n, k);
    RenameKeepsDurable(c, d, h, states, tail, attempted, file, bytes);
    var d' := Perform(d, Rename(file, bytes));
    SyncingKeepsShape(c, d', h, states, tail, attempted);
    SyncingKeepsDurable(c, d', h, states, tail);
  }

  /** A record may be appended while a snapshot exists, or as the first, zero, record. */
  predicate SafeAppend(d: Disk, states: seq<Store>, next: Store) {
    None in Possible(d.snapshot) ==> states == [] && ZeroStore(next) && None !in Possible(d.marker)
  }

  lemma LongerHistorySyncedAtLine(c: Codec, d: Disk, h: Header, states: seq<Store>, next: Store)
    requires LedgerOk(c, d, h, states, []) && SyncedAtLine(c, d, h, states)
    ensures SyncedAtLine(c, Perform(d, Append(RecordLine(c, c.header(h), states, next))), h, states + [next])
  {
    assert LedgerBytes(c, h, states) + [] == LedgerBytes(c, h, states);
    var m :| 0 <= m <= |states| && LineEndsAt(c, h, states, m, d.synced);
    assert (states + [next])[..m] == states[..m];
    assert LineEndsAt(c, h, states + [next], m, d.synced);
  }

  lemma AppendWholeKeepsDurable(c: Codec, d: Disk, h: Header, states: seq<Store>, next: Store)
    requires LedgerOk(c, d, h, states, []) && Durable(c, d, h, states) && SafeAppend(d, states, next)
    ensures Durable(c, Perform(d, Append(RecordLine(c, c.header(h), states, next))), h, states + [next])
  {
    var longer := states + [next];
    forall k: nat | k <= |states| ensures longer[..k] == states[..k] {
    }
    LongerHistorySyncedAtLine(c, d, h, states, next);
  }

  lemma AppendTornKeepsDurable(c: Codec, d: Disk, h: Header, states: seq<Store>, line: Bytes)
    requires Durable(c, d, h, states)
    ensures Durable(c, Perform(d, Append(line)), h, states)
  {
  }

  lemma {:induction false} LongerHistoryLongerLedger(c: Codec, h: Header, states: seq<Store>, m: nat)
    requires m <= |states|
    ensures |LedgerBytes(c, h, states[..m])| <= |LedgerBytes(c, h, states)|
    decreases |states|
  {
    if m == |states| {
      assert states[..m] == states;
    } else {
      var last := |states| - 1;
      LongerHistoryLongerLedger(c, h, states[..last], m);
      assert states[..last][..m] == states[..m];
    }
  }

  /** If the first k records fit in the synced part, they fit in any prefix that keeps it. */
  lemma CoveredWithinPrefix(c: Codec, d: Disk, d': Disk, h: Header, states: seq<Store>, m: nat, k: nat)
    requires Covers(c, d, h, states, k) && m <= |states| && d'.ledger.now.Some?
    requires d.synced <= |d'.ledger.now.value| == d'.synced
    requires |LedgerBytes(c, h, states[..m])| <= |d'.ledger.now.value|
    requires m < |states| ==> |d'.ledger.now.value| < |LedgerBytes(c, h, states[..m + 1])|
    ensures Covers(c, d', h, states[..m], k)
  {
    if k > m {
      assert states[..k][..m + 1] == states[..m + 1];
      LongerHistoryLongerLedger(c, h, states[..k], m + 1);
      assert false;
    }
    assert states[..m][..k] == states[..k];
  }

  lemma PowerLossChoosesPossible(d: Disk, d': Disk)
    requires PowerLoss(d, d')
    ensures Possible(d'.marker) == {d'.marker.now} <= Possible(d.marker)
    ensures Possible(d'.backup) == {d'.backup.now} <= Possible(d.backup)
    ensures Possible(d'.snapshot) == {d'.snapshot.now} <= Possible(d.snapshot)
  {
  }

  lemma ShorterHistoryDurable(c: Codec, d: Disk, d': Disk, h: Header, states: seq<Store>, m: nat)
    requires Durable(c, d, h, states) && PowerLoss(d, d') && d'.ledger.now.Some? && m <= |states|
    requires d.synced <= |d'.ledger.now.value| == d'.synced
    requires |LedgerBytes(c, h, states[..m])| <= |d'.ledger.now.value|
    requires m < |states| ==> |d'.ledger.now.value| < |LedgerBytes(c, h, states[..m + 1])|
    ensures Durable(c, d', h, states[..m])
  {
    PowerLossChoosesPossible(d, d');
    CoveredWithinPrefix(c, d, d', h, states, m, SequenceOf(c, d'.marker.now));
    CoveredWithinPrefix(c, d, d', h, states, m, CitedSequence(c, d'.snapshot.now));
    assert states[..m][..m] == states[..m];
    if d'.synced == |LedgerBytes(c, h, states[..m])| {
      assert LineEndsAt(c, h, states[..m], m, d'.synced);
    }
  }

  lemma DurableHistoryShape(c: Codec, d': Disk, h: Header, states: seq<Store>, m: nat, tail: Bytes, attempted: set<Store>)
    requires m <= |states| && LedgerOk(c, d', h, states[..m], tail) && Durable(c, d', h, states[..m])
    requires MarkerOk(c, h, states, d'.marker.now) && d'.marker.older == {}
    requires SnapshotOk(c, h, states, attempted, d'.snapshot.now) && d'.snapshot.older == {}
    ensures Shape(c, d', h, states[..m], tail, attempted)
  {
    assert d'.marker.now in Possible(d'.marker) && d'.snapshot.now in Possible(d'.snapshot);
    ShorterHistoryMarker(c, h, states, m, d'.marker.now);
    ShorterHistorySnapshot(c, h, states, m, attempted, d'.snapshot.now);
  }

  /** On a durable disk no power loss strands a file ahead of the ledger. */
  lemma PowerLossKeepsDurable(c: Codec, d: Disk, d': Disk, h: Header, states: seq<Store>, tail: Bytes, attempted: set<Store>)
    returns (m: nat, tail': Bytes)
    requires c.Parses() && DurableShape(c, d, h, states, tail, attempted) && PowerLoss(d, d')
    requires d'.ledger.now.Some?
    ensures m <= |states|
    ensures DurableShape(c, d', h, states[..m], tail', attempted)
  {
    m, tail' := PowerLossLedger(c, d, d', h, states, tail);
    ShorterHistoryDurable(c, d, d', h, states, m);
    DurableHistoryShape(c, d', h, states, m, tail', attempted);
  }

  lemma PowerLossOfNewLedgerIsBlank(c: Codec, d: Disk, d': Disk, h: Header, states: seq<Store>)
    requires Durable(c, d, h, states) && d.ledger.now.Some? && PowerLoss(d, d') && d'.ledger.now.None?
    ensures Blank(d')
  {
    PowerLossChoosesPossible(d, d');
  }

  // ---------------------------------------------------------------- Saving over synced files

  lemma LedgerWriteKeepsDurable(c: Codec, d: Disk, h: Header, states: seq<Store>, attempted: set<Store>, next: Store, n: nat, k: nat)
    returns (states': seq<Store>, tail: Bytes)
    requires c.Parses() && DurableShape(c, d, h, states, [], attempted) && SafeAppend(d, states, next)
    requires next in attempted && WritableState(next) && Committed(states).providers.Keys <= next.providers.Keys
    ensures var plan := [Append(RecordLine(c, c.header(h), states, next)), SyncLedger];
            && DurableShape(c, Interrupted(d, plan, n, k), h, states', tail, attempted)
            && (n >= 2 ==> states' == states + [next] && tail == [])
  {
    var line := RecordLine(c, c.header(h), states, next);
    InterruptedAppend(d, line, n, k);
    if n == 0 && k < |line| {
      AppendTornKeepsShape(c, d, h, states, attempted, next, k);
      AppendTornKeepsDurable(c, d, h, states, line[..k]);
      return states, line[..k];
    } else if n == 0 && k > |line| {
      return states, [];
    } else {
      assert line[..|line|] == line;
      AppendWholeKeepsShape(c, d, h, states, attempted, next);
      AppendWholeKeepsDurable(c, d, h, states, next);
      var d' := Perform(d, Append(line));
      SyncingKeepsShape(c, d', h, states + [next], [], attempted);
      SyncingKeepsDurable(c, d', h, states + [next], []);
      return states + [next], [];
    }
  }

  /** Every byte of the ledger is synced, and its directory entry too. */
  predicate LedgerSynced(d: Disk) {
    d.ledger.now.Some? && d.synced == |d.ledger.now.value| && d.ledger.older == {}
  }

  lemma MarkerAtLastIsSafe(c: Codec, d: Disk, h: Header, states: seq<Store>, attempted: set<Store>)
    requires c.Parses() && LedgerOk(c, d, h, states, []) && LedgerSynced(d)
    ensures SafeWrite(c, d, h, states, attempted, Marker, MarkerAt(c, h, states, |states|))
  {
    MarkerAtIsOk(c, h, states, |states|);
    assert states[..|states|] == states;
  }

  lemma RenameKeepsLedgerSynced(d: Disk, file: File, bytes: Bytes)
    requires LedgerSynced(d) && file != Ledger
    ensures LedgerSynced(PerformAll(d, [Rename(file, bytes), SyncDirectory]))
  {
    InterruptedRename(d, file, bytes, 2, 0);
  }

  /** Writing the marker for the whole history, cut short anywhere or finished. */
  lemma MarkLastKeepsDurable(c: Codec, d: Disk, h: Header, states: seq<Store>, attempted: set<Store>, n: nat, k: nat)
    requires c.Parses() && DurableShape(c, d, h, states, [], attempted) && LedgerSynced(d)
    ensures var plan := [Rename(Marker, MarkerAt(c, h, states, |states|)), SyncDirectory];
            && DurableShape(c, Interrupted(d, plan, n, k), h, states, [], attempted)
            && DurableShape(c, PerformAll(d, plan), h, states, [], attempted)
  {
    MarkerAtLastIsSafe(c, d, h, states, attempted);
    AtomicWriteKeepsDurable(c, d, h, states, [], attempted, Marker, MarkerAt(c, h, states, |states|), n, k);
  }

  /** The ledger part done, the marker part cut short anywhere. */
  lemma MarkWrittenRecord(c: Codec, d: Disk, h: Header, states: seq<Store>, attempted: set<Store>, next: Store, n: nat, k: nat)
    requires c.Parses() && DurableShape(c, d, h, states, [], attempted) && SafeAppend(d, states, next)
    requires next in attempted && WritableState(next) && Committed(states).providers.Keys <= next.providers.Keys
    ensures var longer := states + [next];
            var d' := PerformAll(d, [Append(RecordLine(c, c.header(h), states, next)), SyncLedger]);
            var mark := [Rename(Marker, MarkerAt(c, h, longer, |longer|)), SyncDirectory];
            && DurableShape(c, Interrupted(d', mark, n, k), h, longer, [], attempted)
            && LedgerSynced(PerformAll(d', mark))
  {
    var longer := states + [next];
    var line := RecordLine(c, c.header(h), states, next);
    var append := [Append(line), SyncLedger];
    var states', tail := LedgerWriteKeepsDurable(c, d, h, states, attempted, next, 2, 0);
    InterruptedAppend(d, line, 2, 0);
    var d' := PerformAll(d, append);
    assert DurableShape(c, d', h, longer, [], attempted);
    MarkLastKeepsDurable(c, d', h, longer, attempted, n, k);
    RenameKeepsLedgerSynced(d', Marker, MarkerAt(c, h, longer, |longer|));
  }

  lemma RecordWriteKeepsDurable(c: Codec, d: Disk, h: Header, states: seq<Store>, attempted: set<Store>, next: Store, n: nat, k: nat)
    returns (states': seq<Store>, tail: Bytes)
    requires c.Parses() && DurableShape(c, d, h, states, [], attempted) && SafeAppend(d, states, next)
    requires next in attempted && WritableState(next) && Committed(states).providers.Keys <= next.providers.Keys
    ensures var longer := states + [next];
            var plan := [Append(RecordLine(c, c.header(h), states, next)), SyncLedger]
                      + [Rename(Marker, MarkerAt(c, h, longer, |longer|)), SyncDirectory];
            && DurableShape(c, Interrupted(d, plan, n, k), h, states', tail, attempted)
            && (n >= 4 ==> states' == longer && tail == [] && LedgerSynced(PerformAll(d, plan)))
  {
    var longer := states + [next];
    var line := RecordLine(c, c.header(h), states, next);
    var append, mark := [Append(line), SyncLedger], [Rename(Marker, MarkerAt(c, h, longer, |longer|)), SyncDirectory];
    InterruptedConcat(d, append, mark, n, k);
    PerformConcat(d, append, mark);
    if n < 2 {
      states', tail := LedgerWriteKeepsDurable(c, d, h, states, attempted, next, n, k);
    } else {
      states', tail := longer, [];
      MarkWrittenRecord(c, d, h, states, attempted, next, n - 2, k);
    }
  }

  lemma RecordPlanIs(c: Codec, h: Header, states: seq<Store>, m: Memory, store: Store)
    requires m.checkpoint == CheckpointFor(c, h, c.header(h), states) && NeedsRecord(m, store)
    ensures var longer := states + [Core(store)];
            RecordPlan(c, m, store) ==
            [Append(RecordLine(c, c.header(h), states, Core(store))), SyncLedger]
            + [Rename(Marker, MarkerAt(c, h, longer, |longer|)), SyncDirectory]
  {
    var longer := states + [Core(store)];
    NextRecordContinues(c, h, states, m, store);
    assert longer[..|longer|] == longer;
  }

  lemma RecordPlanKeepsDurable(c: Codec, d: Disk, h: Header, states: seq<Store>, attempted: set<Store>, m: Memory, store: Store, n: nat, k: nat)
    returns (states': seq<Store>, tail: Bytes)
    requires c.Parses() && DurableShape(c, d, h, states, [], attempted) && LedgerSynced(d)
    requires m.checkpoint == CheckpointFor(c, h, c.header(h), states)
    requires Core(store) in attempted && WritableState(Core(store))
    requires Committed(states).providers.Keys <= store.providers.Keys
    requires NeedsRecord(m, store) ==> SafeAppend(d, states, Core(store))
    ensures var plan := RecordPlan(c, m, store);
            && DurableShape(c, Interrupted(d, plan, n, k), h, states', tail, attempted)
            && (n >= |plan| ==>
                  && states' == (if NeedsRecord(m, store) then states + [Core(store)] else states) && tail == []
                  && LedgerSynced(PerformAll(d, plan)))
  {
    if NeedsRecord(m, store) {
      RecordPlanIs(c, h, states, m, store);
      states', tail := RecordWriteKeepsDurable(c, d, h, states, attempted, Core(store), n, k);
    } else {
      states', tail := states, [];
    }
  }

  lemma BackupIsSafe(c: Codec, d: Disk, h: Header, states: seq<Store>, attempted: set<Store>, bytes: Bytes)
    requires None !in Possible(d.snapshot) && LedgerSynced(d)
    ensures SafeWrite(c, d, h, states, attempted, Backup, bytes)
  {
  }

  lemma BackupPlanKeepsDurable(c: Codec, d: Disk, d0: Disk, h: Header, states: seq<Store>, attempted: set<Store>, n: nat, k: nat)
    requires DurableShape(c, d, h, states, [], attempted) && LedgerSynced(d)
    requires d0.snapshot.now.Some? ==> None !in Possible(d.snapshot)
    ensures DurableShape(c, Interrupted(d, BackupPlan(d0), n, k), h, states, [], attempted)
    ensures DurableShape(c, PerformAll(d, BackupPlan(d0)), h, states, [], attempted)
  {
    if d0.snapshot.now.Some? {
      BackupIsSafe(c, d, h, states, attempted, d0.snapshot.now.value);
      AtomicWriteKeepsDurable(c, d, h, states, [], attempted, Backup, d0.snapshot.now.value, n, k);
    }
  }

  lemma BackupPlanKeepsLedgerSynced(d: Disk, d0: Disk)
    requires LedgerSynced(d)
    ensures LedgerSynced(PerformAll(d, BackupPlan(d0)))
  {
    if d0.snapshot.now.Some? {
      RenameKeepsLedgerSynced(d, Backup, d0.snapshot.now.value);
    }
  }

  lemma SavedSnapshotIsSafe(c: Codec, d: Disk, h: Header, states: seq<Store>, attempted: set<Store>, bytes: Bytes)
    requires SnapshotOk(c, h, states, attempted, Some(bytes)) && CitedSequence(c, Some(bytes)) == |states|
    requires LedgerOk(c, d, h, states, []) && LedgerSynced(d) && None !in Possible(d.marker)
    ensures SafeWrite(c, d, h, states, attempted, Snapshot, bytes)
  {
    assert states[..|states|] == states;
  }

  /**
  A save that can be cut short anywhere: a power loss cannot take the marker away; and if it can leave no snapshot
  then there is none yet, and only a first record is added that accounts for nothing.
  */
  predicate CalmSave(c: Codec, m: Memory, d: Disk, store: Store) {
    MayPersist(c, m, d, store) ==>
      && None !in Possible(d.marker)
      && (None in Possible(d.snapshot) ==>
            d.snapshot.now.None? && (NeedsRecord(m, store) ==> m.checkpoint.sequence == 0 && ZeroStore(store)))
  }

  lemma CalmIsSafeAppend(c: Codec, d: Disk, states: seq<Store>, m: Memory, store: Store)
    requires m.checkpoint.sequence == |states|
    requires MayPersist(c, m, d, store) && CalmSave(c, m, d, store)
    ensures NeedsRecord(m, store) ==> SafeAppend(d, states, Core(store))
    ensures ValidStore(store)
  {
  }

  /** After the record part: the backup part, then the snapshot. */
  lemma SnapshotPartKeepsDurable(c: Codec, d: Disk, d0: Disk, h: Header, states: seq<Store>, attempted: set<Store>, bytes: Bytes, n: nat, k: nat)
    requires c.Parses() && DurableShape(c, d, h, states, [], attempted) && LedgerSynced(d)
    requires d0.snapshot.now.Some? ==> None !in Possible(d.snapshot)
    requires None !in Possible(d.marker)
    requires SnapshotOk(c, h, states, attempted, Some(bytes)) && CitedSequence(c, Some(bytes)) == |states|
    ensures var plan := BackupPlan(d0) + [Rename(Snapshot, bytes), SyncDirectory];
            DurableShape(c, Interrupted(d, plan, n, k), h, states, [], attempted)
  {
    var backup, snapshot := BackupPlan(d0), [Rename(Snapshot, bytes), SyncDirectory];
    InterruptedConcat(d, backup, snapshot, n, k);
    BackupPlanKeepsDurable(c, d, d0, h, states, attempted, n, k);
    BackupPlanKeepsLedgerSynced(d, d0);
    if n >= |backup| {
      BackupPlanKeepsMarker(d, d0);
      SavedSnapshotIsSafe(c, PerformAll(d, backup), h, states, attempted, bytes);
      AtomicWriteKeepsDurable(c, PerformAll(d, backup), h, states, [], attempted, Snapshot, bytes, n - |backup|, k);
    }
  }

  lemma BackupPlanKeepsMarker(d: Disk, d0: Disk)
    requires None !in Possible(d.marker)
    ensures None !in Possible(PerformAll(d, BackupPlan(d0)).marker)
  {
    if d0.snapshot.now.Some? {
      InterruptedRename(d, Backup, d0.snapshot.now.value, 2, 0);
    }
  }

  lemma RecordPlanKeepsEntries(c: Codec, m: Memory, d: Disk, store: Store)
    requires MayPersist(c, m, d, store) && CalmSave(c, m, d, store)
    ensures var d' := PerformAll(d, RecordPlan(c, m, store));
            && None !in Possible(d'.marker)
            && (d.snapshot.now.Some? ==> None !in Possible(d'.snapshot))
  {
    if NeedsRecord(m, store) {
      var line := c.record(NextRecord(c, m, store)) + [NEWLINE];
      var append := [Append(line), SyncLedger];
      var bytes := c.checkpoint(NextCheckpoint(c, m, store));
      assert RecordPlan(c, m, store) == append + [Rename(Marker, bytes), SyncDirectory];
      PerformConcat(d, append, [Rename(Marker, bytes), SyncDirectory]);
      InterruptedAppend(d, line, 2, 0);
      InterruptedRename(PerformAll(d, append), Marker, bytes, 2, 0);
    }
  }

  lemma SavedCites(c: Codec, m: Memory, store: Store)
    requires c.Parses()
    ensures CitedSequence(c, Some(c.store(Saved(c, m, store)))) == NextCheckpoint(c, m, store).sequence
  {
  }

  /** The backup and snapshot parts of a save, once its record part is done. */
  lemma SaveRestKeepsDurable(c: Codec, d: Disk, h: Header, states: seq<Store>, states': seq<Store>, attempted: set<Store>,
                             m: Memory, store: Store, n: nat, k: nat)
    requires c.Parses() && MayPersist(c, m, d, store) && CalmSave(c, m, d, store)
    requires m.checkpoint == CheckpointFor(c, h, c.header(h), states) && m.committed == Committed(states)
    requires Core(store) in attempted && store.schema == SCHEMA && store.providers.Keys != {}
    requires m.committed.providers.Keys <= store.providers.Keys
    requires states' == if NeedsRecord(m, store) then states + [Core(store)] else states
    requires var d' := PerformAll(d, RecordPlan(c, m, store));
             DurableShape(c, d', h, states', [], attempted) && LedgerSynced(d')
    ensures var d' := PerformAll(d, RecordPlan(c, m, store));
            var rest := BackupPlan(d) + [Rename(Snapshot, c.store(Saved(c, m, store))), SyncDirectory];
            DurableShape(c, Interrupted(d', rest, n, k), h, states', [], attempted)
  {
    RecordPlanKeepsEntries(c, m, d, store);
    SavedSnapshotOk(c, h, states, attempted, m, store);
    SavedCites(c, m, store);
    SnapshotPartKeepsDurable(c, PerformAll(d, RecordPlan(c, m, store)), d, h, states', attempted,
                             c.store(Saved(c, m, store)), n, k);
  }

  /** Backup and snapshot, after the record. */
  function SnapshotPlan(c: Codec, m: Memory, d: Disk, store: Store): seq<Action> {
    BackupPlan(d) + [Rename(Snapshot, c.store(Saved(c, m, store))), SyncDirectory]
  }

  lemma SavePlanIs(c: Codec, m: Memory, d: Disk, store: Store)
    requires MayPersist(c, m, d, store)
    ensures Persist(c, m, d, store).plan == RecordPlan(c, m, store) + SnapshotPlan(c, m, d, store)
  {
  }

  lemma SavePartsKeepDurable(c: Codec, d: Disk, h: Header, states: seq<Store>, attempted: set<Store>, m: Memory, store: Store, n: nat, k: nat)
    returns (states': seq<Store>, tail: Bytes)
    requires c.Parses() && DurableShape(c, d, h, states, [], attempted) && LedgerSynced(d)
    requires m.checkpoint == CheckpointFor(c, h, c.header(h), states) && m.committed == Committed(states)
    requires Core(store) in attempted && store.schema == SCHEMA && store.providers.Keys != {}
    requires m.committed.providers.Keys <= store.providers.Keys
    requires MayPersist(c, m, d, store) && CalmSave(c, m, d, store)
    ensures DurableShape(c, Interrupted(d, RecordPlan(c, m, store) + SnapshotPlan(c, m, d, store), n, k), h, states', tail, attempted)
    ensures n >= |RecordPlan(c, m, store)| ==>
              states' == (if NeedsRecord(m, store) then states + [Core(store)] else states) && tail == []
  {
    InterruptedConcat(d, RecordPlan(c, m, store), SnapshotPlan(c, m, d, store), n, k);
    CalmIsSafeAppend(c, d, states, m, store);
    states', tail := RecordPlanKeepsDurable(c, d, h, states, attempted, m, store, n, k);
    if n >= |RecordPlan(c, m, store)| {
      RecordPlanDone(c, d, m, store, n, k);
      SaveRestKeepsDurable(c, d, h, states, states', attempted, m, store, n - |RecordPlan(c, m, store)|, k);
    }
  }

  lemma SavePlanKeepsDurable(c: Codec, d: Disk, h: Header, states: seq<Store>, attempted: set<Store>, m: Memory, store: Store, n: nat, k: nat)
    returns (states': seq<Store>, tail: Bytes)
    requires c.Parses() && DurableShape(c, d, h, states, [], attempted) && LedgerSynced(d)
    requires m.checkpoint == CheckpointFor(c, h, c.header(h), states) && m.committed == Committed(states)
    requires Core(store) in attempted && store.schema == SCHEMA && store.providers.Keys != {}
    requires m.committed.providers.Keys <= store.providers.Keys
    requires MayPersist(c, m, d, store) && CalmSave(c, m, d, store)
    ensures DurableShape(c, Interrupted(d, Persist(c, m, d, store).plan, n, k), h, states', tail, attempted)
    ensures n >= |Persist(c, m, d, store).plan| ==>
              states' == (if NeedsRecord(m, store) then states + [Core(store)] else states) && tail == []
  {
    SavePlanIs(c, m, d, store);
    states', tail := SavePartsKeepDurable(c, d, h, states, attempted, m, store, n, k);
  }

  lemma RecordPlanDone(c: Codec, d: Disk, m: Memory, store: Store, n: nat, k: nat)
    requires n >= |RecordPlan(c, m, store)|
    ensures Interrupted(d, RecordPlan(c, m, store), n, k) == PerformAll(d, RecordPlan(c, m, store))
  {
  }

  // ---------------------------------------------------------------- Calm runs

  /**
  A start that can be cut short anywhere: if it has to bring the marker up to date it finds the ledger synced, and
  what it then saves, if anything, it saves calmly.
  */
  predicate CalmStart(c: Codec, d: Disk, identity: string, next: Store) {
    var o := Open(c, d, identity);
    o.Accepted? ==>
      && (o.plan != [] ==> Blank(d) || LedgerSynced(d))
      && (StartSaves(c, o, next) ==> CalmSave(c, o.memory, PerformAll(d, o.plan), next))
  }

  predicate Calm(c: Codec, w: World, e: Event) {
    match e
    case Start(identity, next, _, _) => CalmStart(c, w.disk, identity, next)
    case Save(store, _, _) => w.live.Some? ==> CalmSave(c, w.live.value.memory, w.disk, store)
    case _ => true
  }

  ghost predicate CalmlyReaches(c: Codec, w: World, events: seq<Event>, w': World)
    decreases |events|
  {
    if events == [] then w' == w
    else Enabled(c, w, events[0]) && Calm(c, w, events[0]) && CalmlyReaches(c, Step(c, w, events[0]), events[1..], w')
  }

  ghost predicate Running(c: Codec, w: World, h: Header, states: seq<Store>, tail: Bytes) {
    Written(c, w, h, states, tail) && Durable(c, w.disk, h, states)
  }

  ghost predicate Sound(c: Codec, w: World) {
    || (Blank(w.disk) && EMPTY_STORE in w.attempted && w.live.None?)
    || (exists h, states, tail :: Running(c, w, h, states, tail))
  }

  lemma RunningIsSound(c: Codec, w: World, h: Header, states: seq<Store>, tail: Bytes)
    requires Running(c, w, h, states, tail)
    ensures Sound(c, w)
  {
  }

  /** A marker for the whole history is covered, so the ledger is synced. */
  lemma MarkedLedgerSynced(c: Codec, d: Disk, h: Header, states: seq<Store>, attempted: set<Store>)
    requires c.Parses() && DurableShape(c, d, h, states, [], attempted)
    requires d.marker.now == Some(MarkerAt(c, h, states, |states|))
    ensures LedgerSynced(d)
  {
    assert d.marker.now in Possible(d.marker);
    assert states[..|states|] == states;
    assert LedgerBytes(c, h, states) + [] == LedgerBytes(c, h, states);
    assert SequenceOf(c, d.marker.now) == |states|;
    assert d.ledger.older == {} by {
      assert d.ledger.older <= {None};
    }
  }

  lemma AttemptMoreDurable(c: Codec, d: Disk, h: Header, states: seq<Store>, tail: Bytes, few: set<Store>, many: set<Store>)
    requires DurableShape(c, d, h, states, tail, few) && few <= many
    ensures DurableShape(c, d, h, states, tail, many)
  {
    AttemptMore(c, d, h, states, tail, few, many);
  }

  lemma AcknowledgedKeepsRunning(c: Codec, w: World, store: Store, h: Header, states: seq<Store>, tail: Bytes)
    returns (states': seq<Store>)
    requires c.Parses() && Running(c, w, h, states, tail)
    requires w.live.Some? && Grows(w.live.value.store, store)
    requires MayPersist(c, w.live.value.memory, w.disk, store) && CalmSave(c, w.live.value.memory, w.disk, store)
    ensures var p := Persist(c, w.live.value.memory, w.disk, store);
            Running(c, World(PerformAll(w.disk, p.plan), Some(Live(p.memory, p.store)), {Core(store)}), h, states', [])
  {
    var m := w.live.value.memory;
    var attempted := w.attempted + {Core(store)};
    var plan := Persist(c, m, w.disk, store).plan;
    MarkedLedgerSynced(c, w.disk, h, states, w.attempted);
    AttemptMoreDurable(c, w.disk, h, states, tail, w.attempted, attempted);
    var t: Bytes;
    states', t := SavePlanKeepsDurable(c, w.disk, h, states, attempted, m, store, |plan|, 0);
    var again := AcknowledgedKeepsWritten(c, w, store, h, states, tail);
    SavedFiles(c, m, w.disk, store);
  }

  lemma SaveKeepsRunning(c: Codec, w: World, store: Store, n: nat, k: nat, h: Header, states: seq<Store>, tail: Bytes)
    returns (states': seq<Store>, tail': Bytes)
    requires c.Parses() && Running(c, w, h, states, tail)
    requires w.live.Some? && Grows(w.live.value.store, store) && CalmSave(c, w.live.value.memory, w.disk, store)
    ensures Running(c, SaveStep(c, w, w.live.value, store, n, k), h, states', tail')
  {
    var live := w.live.value;
    match Persist(c, live.memory, w.disk, store) {
      case Rejected => return states, tail;
      case Planned(plan, memory, saved) =>
        if n < |plan| {
          MarkedLedgerSynced(c, w.disk, h, states, w.attempted);
          AttemptMoreDurable(c, w.disk, h, states, tail, w.attempted, w.attempted + {Core(store)});
          states', tail' := SavePlanKeepsDurable(c, w.disk, h, states, w.attempted + {Core(store)}, live.memory, store, n, k);
        } else {
          states' := AcknowledgedKeepsRunning(c, w, store, h, states, tail);
          tail' := [];
        }
    }
  }

  lemma MarkerPlanKeepsDurable(c: Codec, d: Disk, h: Header, states: seq<Store>, attempted: set<Store>, n: nat, k: nat)
    requires c.Parses() && DurableShape(c, d, h, states, [], attempted) && LedgerSynced(d)
    ensures var plan := MarkerPlan(c, d, CheckpointFor(c, h, c.header(h), states));
            && DurableShape(c, Interrupted(d, plan, n, k), h, states, [], attempted)
            && DurableShape(c, PerformAll(d, plan), h, states, [], attempted)
  {
    assert states[..|states|] == states;
    MarkLastKeepsDurable(c, d, h, states, attempted, n, k);
  }

  /** A start's own writes, which leave a marker that is never ahead of the ledger. */
  lemma OpenKeepsDurable(c: Codec, d: Disk, identity: string, h: Header, states: seq<Store>, tail: Bytes, attempted: set<Store>, n: nat, k: nat)
    requires c.Parses() && DurableShape(c, d, h, states, tail, attempted)
    requires Open(c, d, identity).Accepted? && (Open(c, d, identity).plan != [] ==> LedgerSynced(d))
    ensures var o := Open(c, d, identity);
            && DurableShape(c, Interrupted(d, o.plan, n, k), h, states, tail, attempted)
            && DurableShape(c, PerformAll(d, o.plan), h, states, tail, attempted)
  {
    OpenReads(c, d, identity, h, states, tail, attempted);
    if Open(c, d, identity).plan != [] {
      MarkerPlanKeepsDurable(c, d, h, states, attempted, n, k);
    }
  }

  lemma FirstLedgerDurable(c: Codec, h: Header, attempted: set<Store>)
    requires c.Parses() && ValidHeader(h) && EMPTY_STORE in attempted
    ensures DurableShape(c, Perform(BLANK, Rename(Ledger, LedgerBytes(c, h, []))), h, [], [], attempted)
  {
    FirstLedgerShape(c, h, attempted);
    assert LineEndsAt(c, h, [], 0, |LedgerBytes(c, h, [])|);
  }

  lemma OpenBlankDurable(c: Codec, identity: string, attempted: set<Store>, n: nat, k: nat)
    requires c.Parses() && ValidHeader(Header(SCHEMA, identity)) && EMPTY_STORE in attempted
    ensures var o, h := Open(c, BLANK, identity), Header(SCHEMA, identity);
            && o.Accepted?
            && (n > 0 ==> DurableShape(c, Interrupted(BLANK, o.plan, n, k), h, [], [], attempted))
            && DurableShape(c, PerformAll(BLANK, o.plan), h, [], [], attempted)
            && Settled(PerformAll(BLANK, o.plan))
            && PerformAll(BLANK, o.plan).snapshot.now.None?
  {
    var h := Header(SCHEMA, identity);
    var o := Open(c, BLANK, identity);
    var ledger, marker := LedgerBytes(c, h, []), MarkerAt(c, h, [], 0);
    LedgerReads(c, h, []);
    assert LastCheckpoint(LedgerLog(c, h, [])) == CheckpointFor(c, h, c.header(h), []);
    var p, q := [Rename(Ledger, ledger), SyncDirectory], [Rename(Marker, marker), SyncDirectory];
    assert o.plan == p + q;
    InterruptedConcat(BLANK, p, q, n, k);
    PerformConcat(BLANK, p, q);
    InterruptedRename(BLANK, Ledger, ledger, n, k);
    FirstLedgerDurable(c, h, attempted);
    SyncingKeepsShape(c, Perform(BLANK, Rename(Ledger, ledger)), h, [], [], attempted);
    SyncingKeepsDurable(c, Perform(BLANK, Rename(Ledger, ledger)), h, [], []);
    MarkLastKeepsDurable(c, PerformAll(BLANK, p), h, [], attempted, if n >= 2 then n - 2 else 0, k);
    InterruptedRename(PerformAll(BLANK, p), Marker, marker, 2, 0);
  }

  /** Sound, whether the process goes on or ends here. */
  ghost predicate SoundlySaved(c: Codec, w: World) { Sound(c, w) && Sound(c, w.(live := None)) }

  lemma StartSaveKeepsSound(c: Codec, running: World, next: Store, n: nat, k: nat, h: Header, states: seq<Store>, tail: Bytes)
    returns (saved: World)
    requires c.Parses() && Running(c, running, h, states, tail)
    requires running.live.Some? && Grows(running.live.value.store, next)
    requires CalmSave(c, running.live.value.memory, running.disk, next)
    ensures saved == SaveStep(c, running, running.live.value, next, n, k) && SoundlySaved(c, saved)
  {
    var states', tail' := SaveKeepsRunning(c, running, next, n, k, h, states, tail);
    saved := SaveStep(c, running, running.live.value, next, n, k);
    RunningIsSound(c, saved, h, states', tail');
    RunningIsSound(c, saved.(live := None), h, states', tail');
  }

  /** What a start does after its own writes; `running` is the world once they are done. */
  lemma StartFromKeepsSound(c: Codec, w: World, stopped: World, running: World, o: Opening, next: Store, n: nat, k: nat, saved: World)
    requires o.Accepted?
    requires n < |o.plan| ==> stopped == w.(disk := Interrupted(w.disk, o.plan, n, k)) && Sound(c, stopped)
    requires running == World(PerformAll(w.disk, o.plan), Some(Live(o.memory, o.store)), w.attempted)
    requires n >= |o.plan| && StartSaves(c, o, next) ==>
               saved == SaveStep(c, running, running.live.value, next, n - |o.plan|, k) && SoundlySaved(c, saved)
    requires Sound(c, running)
    ensures Sound(c, StartFrom(c, w, o, next, n, k))
  {
  }

  /** A start from its own writes on; `stopped` is the world if it stopped within them. */
  lemma StartGoesOn(c: Codec, w: World, stopped: World, o: Opening, next: Store, n: nat, k: nat, h: Header, states: seq<Store>, tail: Bytes)
    requires c.Parses() && o.Accepted? && Grows(o.store, next)
    requires n < |o.plan| ==> stopped == w.(disk := Interrupted(w.disk, o.plan, n, k)) && Sound(c, stopped)
    requires Running(c, World(PerformAll(w.disk, o.plan), Some(Live(o.memory, o.store)), w.attempted), h, states, tail)
    requires StartSaves(c, o, next) ==> CalmSave(c, o.memory, PerformAll(w.disk, o.plan), next)
    ensures Sound(c, StartFrom(c, w, o, next, n, k))
  {
    var running := World(PerformAll(w.disk, o.plan), Some(Live(o.memory, o.store)), w.attempted);
    RunningIsSound(c, running, h, states, tail);
    var saved := running;
    if n >= |o.plan| && StartSaves(c, o, next) {
      saved := StartSaveKeepsSound(c, running, next, n - |o.plan|, k, h, states, tail);
    }
    StartFromKeepsSound(c, w, stopped, running, o, next, n, k, saved);
  }

  lemma StartKeepsSound(c: Codec, w: World, identity: string, next: Store, n: nat, k: nat)
    requires c.Parses() && Sound(c, w)
    requires Enabled(c, w, Start(identity, next, n, k)) && CalmStart(c, w.disk, identity, next)
    ensures Sound(c, StartStep(c, w, identity, next, n, k))
  {
    var o := Open(c, w.disk, identity);
    if o.Refused? {
    } else if Blank(w.disk) {
      assert w.disk == BLANK;
      var h := Header(SCHEMA, identity);
      OpenBlank(c, identity, w.attempted, n, k);
      OpenBlankDurable(c, identity, w.attempted, n, k);
      var stopped := w.(disk := Interrupted(w.disk, o.plan, n, k));
      if 0 < n < |o.plan| {
        RunningIsSound(c, stopped, h, [], []);
      }
      StartGoesOn(c, w, stopped, o, next, n, k, h, [], []);
    } else {
      var h, states, tail :| Running(c, w, h, states, tail);
      OpenKeepsShape(c, w.disk, identity, h, states, tail, w.attempted, n, k);
      OpenKeepsDurable(c, w.disk, identity, h, states, tail, w.attempted, n, k);
      var stopped := w.(disk := Interrupted(w.disk, o.plan, n, k));
      RunningIsSound(c, stopped, h, states, tail);
      StartGoesOn(c, w, stopped, o, next, n, k, h, states, tail);
    }
  }

  lemma LosePowerKeepsSound(c: Codec, w: World, d': Disk)
    requires c.Parses() && Sound(c, w) && PowerLoss(w.disk, d')
    ensures Sound(c, World(d', None, w.attempted))
  {
    if !Blank(w.disk) {
      var h, states, tail :| Running(c, w, h, states, tail);
      if d'.ledger.now.None? {
        PowerLossOfNewLedgerIsBlank(c, w.disk, d', h, states);
        PowerLossChoosesPossible(w.disk, d');
        assert SnapshotOk(c, h, states, w.attempted, None);
      } else {
        var m, tail' := PowerLossKeepsDurable(c, w.disk, d', h, states, tail, w.attempted);
        RunningIsSound(c, World(d', None, w.attempted), h, states[..m], tail');
      }
    }
  }

  lemma StepKeepsSound(c: Codec, w: World, e: Event)
    requires c.Parses() && Sound(c, w) && Enabled(c, w, e) && Calm(c, w, e)
    ensures Sound(c, Step(c, w, e))
  {
    match e {
      case Start(identity, next, n, k) => StartKeepsSound(c, w, identity, next, n, k);
      case LosePower(outcome) => LosePowerKeepsSound(c, w, outcome);
      case Kill =>
        if !Blank(w.disk) {
          var h, states, tail :| Running(c, w, h, states, tail);
          RunningIsSound(c, w.(live := None), h, states, tail);
        }
      case Save(store, n, k) =>
        if w.live.Some? {
          var h, states, tail :| Running(c, w, h, states, tail);
          var states', tail' := SaveKeepsRunning(c, w, store, n, k, h, states, tail);
          RunningIsSound(c, SaveStep(c, w, w.live.value, store, n, k), h, states', tail');
        }
    }
  }

  lemma {:induction false} CalmRunKeepsSound(c: Codec, w: World, events: seq<Event>, w': World)
    requires c.Parses() && Sound(c, w) && CalmlyReaches(c, w, events, w')
    ensures Sound(c, w')
    decreases |events|
  {
    if events != [] {
      StepKeepsSound(c, w, events[0]);
      CalmRunKeepsSound(c, Step(c, w, events[0]), events[1..], w');
    }
  }

  lemma SoundOpensUnlessTorn(c: Codec, w: World, identity: string)
    requires c.Parses() && Sound(c, w) && ValidHeader(Header(SCHEMA, identity))
    ensures Open(c, w.disk, identity).Accepted? <==> !Torn(w.disk)
  {
    if Blank(w.disk) {
      assert w.disk == BLANK;
      OpenBlank(c, identity, w.attempted, 0, 0);
    } else {
      var h, states, tail :| Running(c, w, h, states, tail);
      AcceptedIffUsable(c, w.disk, identity, h, states, tail, w.attempted);
      assert w.disk.snapshot.now in Possible(w.disk.snapshot) && w.disk.marker.now in Possible(w.disk.marker);
      assert w.disk.backup.now in Possible(w.disk.backup);
      LedgerEndsInNewline(c, h, states);
      var b := LedgerBytes(c, h, states);
      if tail == [] {
        assert b + tail == b;
      } else {
        assert (b + tail)[|b + tail| - 1] == tail[|tail| - 1];
      }
    }
  }

  /** In every calm run, at every crash point, the next start is accepted unless the ledger ends in a cut line. */
  lemma EveryCalmCrashRecovers(c: Codec, events: seq<Event>, w: World, identity: string)
    requires c.Parses() && CalmlyReaches(c, INITIAL, events, w) && ValidHeader(Header(SCHEMA, identity))
    ensures Open(c, w.disk, identity).Accepted? <==> !Torn(w.disk)
  {
    CalmRunKeepsSound(c, INITIAL, events, w);
    SoundOpensUnlessTorn(c, w, identity);
  }
}
