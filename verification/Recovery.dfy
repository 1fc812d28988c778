/**
The scheduler's recovery set on disk, and the two operations that write it, as the plans of file
actions they carry out. An operation can be cut short after any action; a power loss can then undo
what was not synced.
*/
module Recovery {
  import opened Values
  import opened SchedulerState
  import opened AccountingLog

  // ---------------------------------------------------------------- Disk

  datatype File = Ledger | Marker | Backup | Snapshot

  type Content = Option<Bytes>

  /** What a reader sees now, and what a power loss may bring back until the directory is synced. */
  datatype Entry = Entry(now: Content, older: set<Content>)

  /** Only the ledger is written in place: its first `synced` bytes survive a power loss. */
  datatype Disk = Disk(ledger: Entry, synced: nat, marker: Entry, backup: Entry, snapshot: Entry)

  datatype Action =
    | Append(line: Bytes)
    | SyncLedger
    | Rename(file: File, bytes: Bytes)
    | SyncDirectory

  const ABSENT := Entry(None, {})
  const BLANK := Disk(ABSENT, 0, ABSENT, ABSENT, ABSENT)

  function Replace(e: Entry, bytes: Bytes): Entry {
    Entry(Some(bytes), e.older + {e.now})
  }

  function SyncEntry(e: Entry): Entry { e.(older := {}) }

  /** A temporary file is written and synced before each rename, so a renamed content is whole. */
  function Perform(d: Disk, a: Action): Disk {
    match a
    case Append(line) =>
      if d.ledger.now.Some? then d.(ledger := d.ledger.(now := Some(d.ledger.now.value + line))) else d
    case SyncLedger =>
      if d.ledger.now.Some? then d.(synced := |d.ledger.now.value|) else d
    case Rename(Ledger, bytes) => d.(ledger := Replace(d.ledger, bytes), synced := |bytes|)
    case Rename(Marker, bytes) => d.(marker := Replace(d.marker, bytes))
    case Rename(Backup, bytes) => d.(backup := Replace(d.backup, bytes))
    case Rename(Snapshot, bytes) => d.(snapshot := Replace(d.snapshot, bytes))
    case SyncDirectory =>
      d.(ledger := SyncEntry(d.ledger), marker := SyncEntry(d.marker),
         backup := SyncEntry(d.backup), snapshot := SyncEntry(d.snapshot))
  }

  function PerformAll(d: Disk, plan: seq<Action>): Disk
    decreases |plan|
  {
    if plan == [] then d else PerformAll(Perform(d, plan[0]), plan[1..])
  }

  /** The plan stopped before action n; if that was an append, k of its bytes may already be written. */
  function Interrupted(d: Disk, plan: seq<Action>, n: nat, k: nat): Disk {
    if n >= |plan| then PerformAll(d, plan)
    else
      var d' := PerformAll(d, plan[..n]);
      if plan[n].Append? && k <= |plan[n].line| then Perform(d', Append(plan[n].line[..k])) else d'
  }

  lemma {:induction false} PerformConcat(d: Disk, p: seq<Action>, q: seq<Action>)
    ensures PerformAll(d, p + q) == PerformAll(PerformAll(d, p), q)
    decreases |p|
  {
    if p == [] {
      assert p + q == q;
    } else {
      PerformConcat(Perform(d, p[0]), p[1..], q);
      assert (p + q)[1..] == p[1..] + q;
    }
  }

  lemma InterruptedConcat(d: Disk, p: seq<Action>, q: seq<Action>, n: nat, k: nat)
    ensures Interrupted(d, p + q, n, k) ==
            if n < |p| then Interrupted(d, p, n, k) else Interrupted(PerformAll(d, p), q, n - |p|, k)
  {
    PerformConcat(d, p, q);
    if n < |p| {
      assert (p + q)[..n] == p[..n];
    } else if n < |p| + |q| {
      assert (p + q)[..n] == p + q[..n - |p|];
      PerformConcat(d, p, q[..n - |p|]);
    }
  }

  lemma InterruptedRename(d: Disk, file: File, bytes: Bytes, n: nat, k: nat)
    ensures var plan := [Rename(file, bytes), SyncDirectory];
            && (n == 0 ==> Interrupted(d, plan, n, k) == d)
            && (n == 1 ==> Interrupted(d, plan, n, k) == Perform(d, Rename(file, bytes)))
            && (n >= 2 ==> Interrupted(d, plan, n, k) == PerformAll(d, plan))
            && PerformAll(d, plan) == Perform(Perform(d, Rename(file, bytes)), SyncDirectory)
  {
    var plan := [Rename(file, bytes), SyncDirectory];
    assert plan[1..] == [SyncDirectory] && plan[1..][1..] == [];
    assert plan[..1] == [plan[0]] && plan[..1][1..] == [];
    assert PerformAll(d, plan[..1]) == PerformAll(Perform(d, plan[0]), []);
    assert PerformAll(Perform(d, plan[0]), plan[1..]) == Perform(Perform(d, plan[0]), SyncDirectory);
  }

  lemma InterruptedAppend(d: Disk, line: Bytes, n: nat, k: nat)
    ensures var plan := [Append(line), SyncLedger];
            && (n == 0 ==> Interrupted(d, plan, n, k) == if k <= |line| then Perform(d, Append(line[..k])) else d)
            && (n == 1 ==> Interrupted(d, plan, n, k) == Perform(d, Append(line)))
            && (n >= 2 ==> Interrupted(d, plan, n, k) == PerformAll(d, plan))
            && PerformAll(d, plan) == Perform(Perform(d, Append(line)), SyncLedger)
  {
    var plan := [Append(line), SyncLedger];
    assert plan[1..] == [SyncLedger] && plan[1..][1..] == [];
    assert plan[..1] == [plan[0]] && plan[..1][1..] == [];
    assert PerformAll(d, plan[..1]) == PerformAll(Perform(d, plan[0]), []);
    assert PerformAll(Perform(d, plan[0]), plan[1..]) == Perform(Perform(d, plan[0]), SyncLedger);
  }

  predicate Settled(d: Disk) {
    && d.ledger.older == d.marker.older == d.backup.older == d.snapshot.older == {}
    && d.synced == (if d.ledger.now.Some? then |d.ledger.now.value| else 0)
  }

  predicate EntryOutcome(e: Entry, now: Content) {
    now == e.now || now in e.older
  }

  predicate LedgerOutcome(d: Disk, now: Content) {
    || now in d.ledger.older
    || (d.ledger.now.None? && now.None?)
    || (&& d.ledger.now.Some? && now.Some?
        && d.synced <= |now.value| <= |d.ledger.now.value|
        && now.value == d.ledger.now.value[..|now.value|])
  }

  /** After a power loss every file is one of its possible contents, and nothing is pending. */
  predicate PowerLoss(d: Disk, d': Disk) {
    && Settled(d')
    && LedgerOutcome(d, d'.ledger.now)
    && EntryOutcome(d.marker, d'.marker.now)
    && EntryOutcome(d.backup, d'.backup.now)
    && EntryOutcome(d.snapshot, d'.snapshot.now)
  }

  // ---------------------------------------------------------------- Opening

  /** What the running scheduler remembers of the recovery set. */
  datatype Memory = Memory(
    checkpoint: Checkpoint,
    committed: Store,
    snapshotDigest: Option<Digest>,
    ledgerLen: nat,
    poisoned: bool)

  datatype Opening = Refused | Accepted(plan: seq<Action>, memory: Memory, store: Store, recovered: bool)

  function StoreAccounting(s: Store): map<string, Accounting> {
    map id <- s.providers :: AccountingOf(s.providers[id])
  }

  function ReplayStore(s: Store, recorded: Store): Store {
    s.(providers := map id <- s.providers.Keys + recorded.providers.Keys ::
      if id !in recorded.providers then s.providers[id]
      else if id !in s.providers then recorded.providers[id]
      else Replay(s.providers[id], recorded.providers[id]))
  }

  function LastState(log: Log): Store {
    if log.states == [] then EMPTY_STORE else log.states[|log.states| - 1]
  }

  function LastCheckpoint(log: Log): Checkpoint
    requires log.checkpoints != []
  {
    log.checkpoints[|log.checkpoints| - 1]
  }

  predicate Fresh(d: Disk) {
    d.snapshot.now.None? && d.marker.now.None? && d.backup.now.None?
  }

  predicate NothingStarted(log: Log) {
    && |log.states| <= 1
    && forall s <- log.states :: forall id <- s.providers :: ZeroAccounting(s.providers[id])
  }

  function MarkerOf(c: Codec, d: Disk): Option<Checkpoint> {
    if d.marker.now.Some? then c.readCheckpoint(d.marker.now.value) else None
  }

  function DiskLog(c: Codec, d: Disk): (r: Option<Log>)
    ensures r.Some? ==> |r.value.checkpoints| == |r.value.states| + 1
  {
    if d.ledger.now.Some? then LogOf(c, d.ledger.now.value) else None
  }

  predicate MarkerValidates(c: Codec, d: Disk, log: Log) {
    var marker := MarkerOf(c, d);
    marker.Some? && d.marker.now.value != [] && Validates(marker.value, log)
  }

  /** The snapshot cites a record of the log and agrees with it on accounting. */
  predicate SnapshotMatches(s: Store, log: Log) {
    && s.checkpoint.Some?
    && Validates(s.checkpoint.value, log)
    && 1 <= s.checkpoint.value.sequence <= |log.states|
    && StoreAccounting(log.states[s.checkpoint.value.sequence - 1]) == StoreAccounting(s)
  }

  /** The state an existing recovery set starts from, before replaying newer records. */
  function BaseStore(c: Codec, d: Disk, log: Log): Option<Store> {
    match d.snapshot.now
    case Some(bytes) =>
      var s := c.readStore(bytes);
      if s.Some? && s.value.schema == SCHEMA && ValidStore(s.value) && SnapshotMatches(s.value, log) then s else None
    case None =>
      if d.backup.now.None? && NothingStarted(log) then Some(LastState(log)) else None
  }

  function NewLedger(c: Codec, identity: string): Bytes {
    c.header(Header(SCHEMA, identity)) + [NEWLINE]
  }

  function Digested(c: Codec, content: Content): Option<Digest> {
    if content.Some? then Some(c.digest(content.value)) else None
  }

  function MarkerPlan(c: Codec, d: Disk, last: Checkpoint): seq<Action> {
    if d.marker.now == Some(c.checkpoint(last)) then []
    else [Rename(Marker, c.checkpoint(last)), SyncDirectory]
  }

  function OpenFresh(c: Codec, d: Disk, identity: string): Opening {
    var creates := d.ledger.now.None?;
    var bytes := if creates then NewLedger(c, identity) else d.ledger.now.value;
    match LogOf(c, bytes)
    case None => Refused
    case Some(log) =>
      if log.states != [] then Refused
      else
        var last := LastCheckpoint(log);
        Accepted(
          (if creates then [Rename(Ledger, bytes), SyncDirectory] else []) + MarkerPlan(c, d, last),
          Memory(last, EMPTY_STORE, None, |bytes|, false),
          EMPTY_STORE.(checkpoint := Some(last)),
          false)
  }

  function OpenExisting(c: Codec, d: Disk): Opening {
    match DiskLog(c, d)
    case None => Refused
    case Some(log) =>
      if !MarkerValidates(c, d, log) then Refused
      else
        match BaseStore(c, d, log)
        case None => Refused
        case Some(base) =>
          var last := LastCheckpoint(log);
          var recovered := log.states != [] && base.checkpoint != Some(last);
          var store := if recovered then ReplayStore(base, LastState(log)) else base;
          Accepted(
            MarkerPlan(c, d, last),
            Memory(last, LastState(log), Digested(c, d.snapshot.now), |d.ledger.now.value|, false),
            store.(checkpoint := Some(last)),
            recovered)
  }

  function Open(c: Codec, d: Disk, identity: string): Opening {
    if Fresh(d) then OpenFresh(c, d, identity) else OpenExisting(c, d)
  }

  // ---------------------------------------------------------------- Persisting

  datatype Persisting = Rejected | Planned(plan: seq<Action>, memory: Memory, store: Store)

  predicate NeedsRecord(m: Memory, store: Store) {
    StoreAccounting(store) != StoreAccounting(m.committed)
  }

  predicate MayPersist(c: Codec, m: Memory, d: Disk, store: Store) {
    && !m.poisoned
    && ValidStore(store)
    && Digested(c, d.snapshot.now) == m.snapshotDigest
    && MarkerOf(c, d) == Some(m.checkpoint)
    && d.ledger.now.Some? && |d.ledger.now.value| == m.ledgerLen
    && (NeedsRecord(m, store) ==> m.checkpoint.sequence < U64_MAX)
  }

  function NextRecord(c: Codec, m: Memory, store: Store): Record {
    NewRecord(c, m.checkpoint.sequence + 1, m.checkpoint.digest, store.(checkpoint := None))
  }

  function NextCheckpoint(c: Codec, m: Memory, store: Store): Checkpoint {
    if NeedsRecord(m, store)
    then m.checkpoint.(sequence := m.checkpoint.sequence + 1, digest := NextRecord(c, m, store).digest)
    else m.checkpoint
  }

  function RecordPlan(c: Codec, m: Memory, store: Store): seq<Action> {
    if NeedsRecord(m, store) then
      [Append(c.record(NextRecord(c, m, store)) + [NEWLINE]), SyncLedger,
       Rename(Marker, c.checkpoint(NextCheckpoint(c, m, store))), SyncDirectory]
    else []
  }

  function BackupPlan(d: Disk): seq<Action> {
    if d.snapshot.now.Some? then [Rename(Backup, d.snapshot.now.value), SyncDirectory] else []
  }

  function Saved(c: Codec, m: Memory, store: Store): Store {
    store.(checkpoint := Some(NextCheckpoint(c, m, store)))
  }

  /** Ledger and marker first, then the backup, then the snapshot: the order every crash argument rests on. */
  function Persist(c: Codec, m: Memory, d: Disk, store: Store): Persisting {
    if !MayPersist(c, m, d, store) then Rejected
    else
      var grown := if NeedsRecord(m, store) then |c.record(NextRecord(c, m, store))| + 1 else 0;
      var bytes := c.store(Saved(c, m, store));
      Planned(
        RecordPlan(c, m, store) + BackupPlan(d) + [Rename(Snapshot, bytes), SyncDirectory],
        Memory(NextCheckpoint(c, m, store),
               if NeedsRecord(m, store) then store.(checkpoint := None) else m.committed,
               Some(c.digest(bytes)),
               m.ledgerLen + grown,
               false),
        Saved(c, m, store))
  }

  function Poison(m: Memory): Memory { m.(poisoned := true) }

  lemma RecordPlanOutcome(c: Codec, m: Memory, d: Disk, store: Store)
    requires d.ledger.now.Some?
    ensures var d' := PerformAll(d, RecordPlan(c, m, store));
            if NeedsRecord(m, store) then
              && d'.ledger.now == Some(d.ledger.now.value + (c.record(NextRecord(c, m, store)) + [NEWLINE]))
              && d'.marker == Entry(Some(c.checkpoint(NextCheckpoint(c, m, store))), {})
              && d'.synced == |d'.ledger.now.value|
              && d'.snapshot.now == d.snapshot.now && d'.backup.now == d.backup.now
            else d' == d
  {
    if NeedsRecord(m, store) {
      var line := c.record(NextRecord(c, m, store)) + [NEWLINE];
      var bytes := c.checkpoint(NextCheckpoint(c, m, store));
      var append := [Append(line), SyncLedger];
      var mark := [Rename(Marker, bytes), SyncDirectory];
      assert RecordPlan(c, m, store) == append + mark;
      PerformConcat(d, append, mark);
      InterruptedAppend(d, line, 2, 0);
      InterruptedRename(PerformAll(d, append), Marker, bytes, 2, 0);
    }
  }

  lemma BackupPlanOutcome(d: Disk, d0: Disk)
    ensures var d' := PerformAll(d, BackupPlan(d0));
            && d'.ledger.now == d.ledger.now && d'.marker.now == d.marker.now && d'.snapshot.now == d.snapshot.now
            && d'.synced == d.synced
            && (d0.snapshot.now.Some? ==> d'.backup == Entry(d0.snapshot.now, {}))
            && (d0.snapshot.now.None? ==> d' == d)
  {
    if d0.snapshot.now.Some? {
      InterruptedRename(d, Backup, d0.snapshot.now.value, 2, 0);
    }
  }

  /** When every action of a save succeeded, nothing is pending and each file holds what the memory says. */
  lemma SavedFiles(c: Codec, m: Memory, d: Disk, store: Store)
    requires MayPersist(c, m, d, store)
    ensures var d' := PerformAll(d, Persist(c, m, d, store).plan);
            && d'.ledger.older == d'.marker.older == d'.backup.older == {}
            && d'.snapshot == Entry(Some(c.store(Saved(c, m, store))), {})
            && d'.ledger.now == (if NeedsRecord(m, store)
                                 then Some(d.ledger.now.value + (c.record(NextRecord(c, m, store)) + [NEWLINE]))
                                 else d.ledger.now)
            && d'.marker.now == (if NeedsRecord(m, store) then Some(c.checkpoint(NextCheckpoint(c, m, store))) else d.marker.now)
            && d'.synced == (if NeedsRecord(m, store) then |d'.ledger.now.value| else d.synced)
  {
    var bytes := c.store(Saved(c, m, store));
    var record, backup, snapshot := RecordPlan(c, m, store), BackupPlan(d), [Rename(Snapshot, bytes), SyncDirectory];
    PerformConcat(d, record + backup, snapshot);
    PerformConcat(d, record, backup);
    RecordPlanOutcome(c, m, d, store);
    BackupPlanOutcome(PerformAll(d, record), d);
    InterruptedRename(PerformAll(d, record + backup), Snapshot, bytes, 2, 0);
  }

  // ---------------------------------------------------------------- The backup, at every cut

  lemma RecordCut(c: Codec, m: Memory, d: Disk, store: Store, n: nat, k: nat)
    ensures var d' := Interrupted(d, RecordPlan(c, m, store), n, k);
            d'.snapshot.now == d.snapshot.now && d'.backup.now == d.backup.now
  {
    if NeedsRecord(m, store) {
      var line := c.record(NextRecord(c, m, store)) + [NEWLINE];
      var bytes := c.checkpoint(NextCheckpoint(c, m, store));
      var append, mark := [Append(line), SyncLedger], [Rename(Marker, bytes), SyncDirectory];
      assert RecordPlan(c, m, store) == append + mark;
      InterruptedConcat(d, append, mark, n, k);
      InterruptedAppend(d, line, n, k);
      InterruptedAppend(d, line, 2, 0);
      InterruptedRename(PerformAll(d, append), Marker, bytes, if n >= 2 then n - 2 else 0, k);
    }
  }

  lemma BackupCut(d: Disk, d0: Disk, n: nat, k: nat)
    ensures var d' := Interrupted(d, BackupPlan(d0), n, k);
            && d'.snapshot.now == d.snapshot.now
            && (d0.snapshot.now.None? ==> d'.backup.now == d.backup.now)
            && (d0.snapshot.now.Some? ==> d'.backup.now == d.backup.now || d'.backup.now == d0.snapshot.now)
  {
    if d0.snapshot.now.Some? {
      InterruptedRename(d, Backup, d0.snapshot.now.value, n, k);
    }
  }

  lemma SnapshotCut(d: Disk, bytes: Bytes, n: nat, k: nat)
    ensures var d' := Interrupted(d, [Rename(Snapshot, bytes), SyncDirectory], n, k);
            && d'.backup.now == d.backup.now && (d.backup.older == {} ==> d'.backup.older == {})
            && (d'.snapshot.now == d.snapshot.now || d'.snapshot.now == Some(bytes))
  {
    InterruptedRename(d, Snapshot, bytes, n, k);
  }

  /**
  The old snapshot is never the only copy that goes: at every cut of a save over one, as long as the snapshot is still
  that one the backup is as found or already a copy of it; and once it is another, the copy is there, and durable. A
  first save leaves the backup alone.
  */
  lemma BackupBeforeSnapshot(c: Codec, m: Memory, d: Disk, store: Store, n: nat, k: nat)
    requires MayPersist(c, m, d, store)
    ensures var d' := Interrupted(d, Persist(c, m, d, store).plan, n, k);
            && (d.snapshot.now.None? ==> d'.backup.now == d.backup.now)
            && (d.snapshot.now.Some? ==>
                  && (d'.backup.now == d.backup.now || d'.backup.now == d.snapshot.now)
                  && (d'.snapshot.now != d.snapshot.now ==> d'.backup == Entry(d.snapshot.now, {})))
  {
    var bytes := c.store(Saved(c, m, store));
    var record, backup, snapshot := RecordPlan(c, m, store), BackupPlan(d), [Rename(Snapshot, bytes), SyncDirectory];
    assert Persist(c, m, d, store).plan == record + backup + snapshot;
    InterruptedConcat(d, record + backup, snapshot, n, k);
    InterruptedConcat(d, record, backup, n, k);
    PerformConcat(d, record, backup);
    RecordCut(c, m, d, store, n, k);
    RecordPlanOutcome(c, m, d, store);
    var d1 := PerformAll(d, record);
    BackupCut(d1, d, if n >= |record| then n - |record| else 0, k);
    BackupPlanOutcome(d1, d);
    SnapshotCut(PerformAll(d, record + backup), bytes, if n >= |record + backup| then n - |record + backup| else 0, k);
  }

  /** So a power loss after that finds the copy too. */
  lemma BackupSurvives(c: Codec, m: Memory, d: Disk, store: Store, n: nat, k: nat, d': Disk)
    requires MayPersist(c, m, d, store) && d.snapshot.now.Some?
    requires PowerLoss(Interrupted(d, Persist(c, m, d, store).plan, n, k), d')
    requires Interrupted(d, Persist(c, m, d, store).plan, n, k).snapshot.now != d.snapshot.now
    ensures d'.backup.now == d.snapshot.now
  {
    BackupBeforeSnapshot(c, m, d, store, n, k);
  }

  /**
  After a complete save nothing is pending: the snapshot holds the state with its checkpoint, the backup the snapshot
  found, or what it held if there was none, and ledger and marker one record more if the accounting changed.
  */
  lemma SaveOutcome(c: Codec, m: Memory, d: Disk, store: Store)
    requires MayPersist(c, m, d, store)
    ensures var d' := PerformAll(d, Persist(c, m, d, store).plan);
            && d'.ledger.older == d'.marker.older == {}
            && d'.snapshot == Entry(Some(c.store(Saved(c, m, store))), {})
            && d'.backup == Entry(if d.snapshot.now.Some? then d.snapshot.now else d.backup.now, {})
            && d'.ledger.now == (if NeedsRecord(m, store)
                                 then Some(d.ledger.now.value + (c.record(NextRecord(c, m, store)) + [NEWLINE]))
                                 else d.ledger.now)
            && d'.marker.now == (if NeedsRecord(m, store) then Some(c.checkpoint(NextCheckpoint(c, m, store))) else d.marker.now)
            && d'.synced == (if NeedsRecord(m, store) then |d'.ledger.now.value| else d.synced)
  {
    SavedFiles(c, m, d, store);
    BackupAfterAll(c, m, d, store);
  }

  lemma BackupAfterAll(c: Codec, m: Memory, d: Disk, store: Store)
    requires MayPersist(c, m, d, store)
    ensures PerformAll(d, Persist(c, m, d, store).plan).backup.now == if d.snapshot.now.Some? then d.snapshot.now else d.backup.now
  {
    var bytes := c.store(Saved(c, m, store));
    var record, backup, snapshot := RecordPlan(c, m, store), BackupPlan(d), [Rename(Snapshot, bytes), SyncDirectory];
    PerformConcat(d, record + backup, snapshot);
    PerformConcat(d, record, backup);
    RecordPlanOutcome(c, m, d, store);
    BackupPlanOutcome(PerformAll(d, record), d);
    InterruptedRename(PerformAll(d, record + backup), Snapshot, bytes, 2, 0);
  }
}
