/** Every step of a run keeps the shape of the recovery set, and what a start reads from it was attempted. */
module CrashRefinement {
  import opened Values
  import opened SchedulerState
  import opened AccountingLog
  import opened Recovery
  import opened CrashRuns

  // ---------------------------------------------------------------- Saving

  lemma LedgerWriteKeepsShape(c: Codec, d: Disk, h: Header, states: seq<Store>, attempted: set<Store>, next: Store, n: nat, k: nat)
    returns (states': seq<Store>, tail: Bytes)
    requires c.Parses() && Shape(c, d, h, states, [], attempted)
    requires next in attempted && WritableState(next) && Committed(states).providers.Keys <= next.providers.Keys
    ensures var plan := [Append(RecordLine(c, c.header(h), states, next)), SyncLedger];
            && Shape(c, Interrupted(d, plan, n, k), h, states', tail, attempted)
            && (n >= 2 ==> states' == states + [next] && tail == [])
  {
    var line := RecordLine(c, c.header(h), states, next);
    InterruptedAppend(d, line, n, k);
    if n == 0 && k < |line| {
      AppendTornKeepsShape(c, d, h, states, attempted, next, k);
      return states, line[..k];
    } else if n == 0 && k > |line| {
      return states, [];
    } else {
      assert line[..|line|] == line;
      AppendWholeKeepsShape(c, d, h, states, attempted, next);
      SyncingKeepsShape(c, Perform(d, Append(line)), h, states + [next], [], attempted);
      return states + [next], [];
    }
  }

  /** What the next record, its checkpoint and its line are, in terms of the history. */
  lemma NextRecordContinues(c: Codec, h: Header, states: seq<Store>, m: Memory, store: Store)
    requires m.checkpoint == CheckpointFor(c, h, c.header(h), states) && NeedsRecord(m, store)
    ensures c.record(NextRecord(c, m, store)) + [NEWLINE] == RecordLine(c, c.header(h), states, Core(store))
    ensures NextCheckpoint(c, m, store) == CheckpointFor(c, h, c.header(h), states + [Core(store)])
  {
    assert (states + [Core(store)])[..|states|] == states;
  }

  lemma RecordPlanKeepsShape(c: Codec, d: Disk, h: Header, states: seq<Store>, attempted: set<Store>, m: Memory, store: Store, n: nat, k: nat)
    returns (states': seq<Store>, tail: Bytes)
    requires c.Parses() && Shape(c, d, h, states, [], attempted)
    requires m.checkpoint == CheckpointFor(c, h, c.header(h), states)
    requires Core(store) in attempted && WritableState(Core(store))
    requires Committed(states).providers.Keys <= store.providers.Keys
    ensures Shape(c, Interrupted(d, RecordPlan(c, m, store), n, k), h, states', tail, attempted)
    ensures n >= |RecordPlan(c, m, store)| ==>
              states' == (if NeedsRecord(m, store) then states + [Core(store)] else states) && tail == []
  {
    if !NeedsRecord(m, store) {
      return states, [];
    }
    var next := Core(store);
    NextRecordContinues(c, h, states, m, store);
    var longer := states + [next];
    var append := [Append(RecordLine(c, c.header(h), states, next)), SyncLedger];
    var mark := [Rename(Marker, MarkerAt(c, h, longer, |longer|)), SyncDirectory];
    assert longer[..|longer|] == longer;
    assert RecordPlan(c, m, store) == append + mark;
    InterruptedConcat(d, append, mark, n, k);
    states', tail := LedgerWriteKeepsShape(c, d, h, states, attempted, next, n, k);
    if n >= 2 {
      MarkerAtIsOk(c, h, longer, |longer|);
      AtomicWriteKeepsShape(c, PerformAll(d, append), h, longer, [], attempted, Marker, MarkerAt(c, h, longer, |longer|), n - 2, k);
    }
  }

  lemma BackupPlanKeepsShape(c: Codec, d: Disk, d0: Disk, h: Header, states: seq<Store>, attempted: set<Store>, n: nat, k: nat)
    requires Shape(c, d, h, states, [], attempted)
    ensures Shape(c, Interrupted(d, BackupPlan(d0), n, k), h, states, [], attempted)
    ensures Shape(c, PerformAll(d, BackupPlan(d0)), h, states, [], attempted)
  {
    if d0.snapshot.now.Some? {
      AtomicWriteKeepsShape(c, d, h, states, [], attempted, Backup, d0.snapshot.now.value, n, k);
    }
  }

  /** The saved snapshot cites the last record and agrees with it. */
  lemma SavedSnapshotOk(c: Codec, h: Header, states: seq<Store>, attempted: set<Store>, m: Memory, store: Store)
    requires c.Parses() && ValidStore(store) && store.schema == SCHEMA && store.providers.Keys != {}
    requires m.checkpoint == CheckpointFor(c, h, c.header(h), states) && m.committed == Committed(states)
    requires Core(store) in attempted
    ensures var states' := if NeedsRecord(m, store) then states + [Core(store)] else states;
            && SnapshotOk(c, h, states', attempted, Some(c.store(Saved(c, m, store))))
            && StoreAccounting(Committed(states')) == StoreAccounting(store)
            && NextCheckpoint(c, m, store) == CheckpointFor(c, h, c.header(h), states')
  {
    var states' := if NeedsRecord(m, store) then states + [Core(store)] else states;
    if NeedsRecord(m, store) {
      NextRecordContinues(c, h, states, m, store);
    }
    assert StoreAccounting(Core(store)) == StoreAccounting(store);
    assert StoreAccounting(Committed(states')) == StoreAccounting(store);
    assert StoreAccounting(store).Keys == store.providers.Keys;
    assert states'[..|states'|] == states';
    assert Core(Saved(c, m, store)) == Core(store);
    assert StoreAccounting(Saved(c, m, store)) == StoreAccounting(store);
  }

  lemma SavePlanKeepsShape(c: Codec, d: Disk, h: Header, states: seq<Store>, attempted: set<Store>, m: Memory, store: Store, n: nat, k: nat)
    returns (states': seq<Store>, tail: Bytes)
    requires c.Parses() && Shape(c, d, h, states, [], attempted)
    requires m.checkpoint == CheckpointFor(c, h, c.header(h), states) && m.committed == Committed(states)
    requires Core(store) in attempted && ValidStore(store) && store.schema == SCHEMA && store.providers.Keys != {}
    requires m.committed.providers.Keys <= store.providers.Keys
    requires MayPersist(c, m, d, store)
    ensures var plan := Persist(c, m, d, store).plan;
            && Shape(c, Interrupted(d, plan, n, k), h, states', tail, attempted)
            && (n >= |plan| ==> states' == (if NeedsRecord(m, store) then states + [Core(store)] else states) && tail == [])
  {
    var bytes := c.store(Saved(c, m, store));
    var record, backup, snapshot := RecordPlan(c, m, store), BackupPlan(d), [Rename(Snapshot, bytes), SyncDirectory];
    InterruptedConcat(d, record + backup, snapshot, n, k);
    InterruptedConcat(d, record, backup, n, k);
    PerformConcat(d, record, backup);
    states', tail := RecordPlanKeepsShape(c, d, h, states, attempted, m, store, n, k);
    if n >= |record| {
      assert Interrupted(d, record, n, k) == PerformAll(d, record);
      BackupPlanKeepsShape(c, PerformAll(d, record), d, h, states', attempted, n - |record|, k);
      if n >= |record| + |backup| {
        SavedSnapshotOk(c, h, states, attempted, m, store);
        AtomicWriteKeepsShape(c, PerformAll(d, record + backup), h, states', [], attempted, Snapshot, bytes,
                              n - |record| - |backup|, k);
      }
    }
  }

  // ---------------------------------------------------------------- An acknowledged save

  /** After an acknowledged save only the saved state counts as attempted. */
  lemma AcknowledgedKeepsWritten(c: Codec, w: World, store: Store, h: Header, states: seq<Store>, tail: Bytes)
    returns (states': seq<Store>)
    requires c.Parses() && Written(c, w, h, states, tail)
    requires w.live.Some? && MayPersist(c, w.live.value.memory, w.disk, store)
    requires Grows(w.live.value.store, store)
    ensures var p := Persist(c, w.live.value.memory, w.disk, store);
            && states' == (if NeedsRecord(w.live.value.memory, store) then states + [Core(store)] else states)
            && Written(c, World(PerformAll(w.disk, p.plan), Some(Live(p.memory, p.store)), {Core(store)}), h, states', [])
  {
    var m, d := w.live.value.memory, w.disk;
    var p := Persist(c, m, d, store);
    var attempted := w.attempted + {Core(store)};
    AttemptMore(c, d, h, states, tail, w.attempted, attempted);
    var n := |p.plan|;
    var t: Bytes;
    states', t := SavePlanKeepsShape(c, d, h, states, attempted, m, store, n, 0);
    SavedFiles(c, m, d, store);
    SavedSnapshotOk(c, h, states, {Core(store)}, m, store);
    assert states'[..|states'|] == states';
    var d' := PerformAll(d, p.plan);
    assert Shape(c, d', h, states', [], {Core(store)});
    assert LiveOk(c, d', h, states', [], Live(p.memory, p.store));
  }

  /** A save keeps the recovery set well formed, however far it gets. */
  lemma SaveKeepsWritten(c: Codec, w: World, store: Store, n: nat, k: nat, h: Header, states: seq<Store>, tail: Bytes)
    returns (states': seq<Store>, tail': Bytes)
    requires c.Parses() && Written(c, w, h, states, tail)
    requires w.live.Some? && Grows(w.live.value.store, store)
    ensures Written(c, SaveStep(c, w, w.live.value, store, n, k), h, states', tail')
  {
    var live := w.live.value;
    match Persist(c, live.memory, w.disk, store) {
      case Rejected => return states, tail;
      case Planned(plan, memory, saved) =>
        if n < |plan| {
          AttemptMore(c, w.disk, h, states, tail, w.attempted, w.attempted + {Core(store)});
          states', tail' := SavePlanKeepsShape(c, w.disk, h, states, w.attempted + {Core(store)}, live.memory, store, n, k);
        } else {
          states' := AcknowledgedKeepsWritten(c, w, store, h, states, tail);
          tail' := [];
        }
    }
  }

  // ---------------------------------------------------------------- Starting

  /** Accounting and triggers come from one attempted state, the plan from another. */
  ghost predicate IsMergeOfAttempts(store: Store, attempted: set<Store>) {
    exists base, recent :: base in attempted && recent in attempted && Core(store) == ReplayStore(base, recent)
  }

  lemma ReplayOfItself(s: Store)
    ensures ReplayStore(s, s) == s
  {
    assert ReplayStore(s, s).providers == s.providers;
  }

  lemma MergeWitness(store: Store, base: Store, recent: Store, attempted: set<Store>)
    requires base in attempted && recent in attempted && Core(store) == ReplayStore(base, recent)
    ensures IsMergeOfAttempts(store, attempted)
  {
  }

  lemma ShapedLedgerReads(c: Codec, d: Disk, h: Header, states: seq<Store>, tail: Bytes)
    requires c.Parses() && LedgerOk(c, d, h, states, tail)
    ensures DiskLog(c, d) == if tail == [] then Some(LedgerLog(c, h, states)) else None
    ensures LastState(LedgerLog(c, h, states)) == Committed(states)
    ensures LastCheckpoint(LedgerLog(c, h, states)) == CheckpointFor(c, h, c.header(h), states)
  {
    var b := LedgerBytes(c, h, states);
    LedgerReads(c, h, states);
    assert states[..|states|] == states;
    if tail == [] {
      assert b + tail == b;
    } else {
      assert (b + tail)[|b + tail| - 1] == tail[|tail| - 1];
    }
  }

  lemma EqualAccountingEqualKeys(s: Store, t: Store)
    requires StoreAccounting(s) == StoreAccounting(t)
    ensures s.providers.Keys == t.providers.Keys
  {
    assert StoreAccounting(s).Keys == s.providers.Keys;
    assert StoreAccounting(t).Keys == t.providers.Keys;
  }

  /** The state an accepted start begins from, and how far behind the last record it may be. */
  lemma BaseWasAttempted(c: Codec, d: Disk, h: Header, states: seq<Store>, tail: Bytes, attempted: set<Store>)
    requires c.Parses() && Shape(c, d, h, states, tail, attempted)
    requires BaseStore(c, d, LedgerLog(c, h, states)).Some?
    ensures var base := BaseStore(c, d, LedgerLog(c, h, states)).value;
            && Core(base) in attempted
            && (states == [] || base.checkpoint == Some(CheckpointFor(c, h, c.header(h), states)) || Committed(states) in attempted)
            && (base.providers.Keys <= Committed(states).providers.Keys)
            && (states == [] || base.checkpoint == Some(CheckpointFor(c, h, c.header(h), states))
                ==> base.providers.Keys == Committed(states).providers.Keys)
  {
    var base := BaseStore(c, d, LedgerLog(c, h, states)).value;
    assert states[..|states|] == states;
    if d.snapshot.now.Some? {
      var j := base.checkpoint.value.sequence;
      EqualAccountingEqualKeys(states[j - 1], base);
    }
  }

  lemma OpenExistingStore(c: Codec, d: Disk, h: Header, states: seq<Store>, attempted: set<Store>, o: Opening)
    requires c.Parses() && Shape(c, d, h, states, [], attempted)
    requires DiskLog(c, d) == Some(LedgerLog(c, h, states))
    requires o == OpenExisting(c, d) && o.Accepted?
    ensures IsMergeOfAttempts(o.store, attempted)
    ensures o.store.providers.Keys == Committed(states).providers.Keys
  {
    ShapedLedgerReads(c, d, h, states, []);
    BaseWasAttempted(c, d, h, states, [], attempted);
    var base := BaseStore(c, d, LedgerLog(c, h, states)).value;
    if o.recovered {
      assert Core(o.store) == ReplayStore(Core(base), Committed(states));
      MergeWitness(o.store, Core(base), Committed(states), attempted);
    } else {
      ReplayOfItself(Core(base));
      assert Core(o.store) == Core(base);
      MergeWitness(o.store, Core(base), Core(base), attempted);
    }
  }

  /** What an accepted start of an existing recovery set hands back. */
  lemma OpenExistingReads(c: Codec, d: Disk, h: Header, states: seq<Store>, tail: Bytes, attempted: set<Store>)
    requires c.Parses() && Shape(c, d, h, states, tail, attempted)
    requires OpenExisting(c, d).Accepted?
    ensures var o := OpenExisting(c, d);
            && tail == []
            && o.memory == Memory(CheckpointFor(c, h, c.header(h), states), Committed(states),
                                  Digested(c, d.snapshot.now), |d.ledger.now.value|, false)
            && o.plan == MarkerPlan(c, d, o.memory.checkpoint)
            && IsMergeOfAttempts(o.store, attempted)
            && o.store.providers.Keys == Committed(states).providers.Keys
  {
    ShapedLedgerReads(c, d, h, states, tail);
    OpenExistingStore(c, d, h, states, attempted, OpenExisting(c, d));
  }

  /** The same for any start that finds a ledger, fresh or not. */
  lemma OpenReads(c: Codec, d: Disk, identity: string, h: Header, states: seq<Store>, tail: Bytes, attempted: set<Store>)
    requires c.Parses() && Shape(c, d, h, states, tail, attempted)
    requires Open(c, d, identity).Accepted?
    ensures var o := Open(c, d, identity);
            && tail == []
            && o.memory == Memory(CheckpointFor(c, h, c.header(h), states), Committed(states),
                                  Digested(c, d.snapshot.now), |d.ledger.now.value|, false)
            && o.plan == MarkerPlan(c, d, o.memory.checkpoint)
            && IsMergeOfAttempts(o.store, attempted)
            && o.store.providers.Keys == Committed(states).providers.Keys
  {
    if Fresh(d) {
      ShapedLedgerReads(c, d, h, states, tail);
      ReplayOfItself(EMPTY_STORE);
      MergeWitness(Open(c, d, identity).store, EMPTY_STORE, EMPTY_STORE, attempted);
    } else {
      OpenExistingReads(c, d, h, states, tail, attempted);
    }
  }

  lemma MarkerPlanKeepsShape(c: Codec, d: Disk, h: Header, states: seq<Store>, tail: Bytes, attempted: set<Store>, n: nat, k: nat)
    requires c.Parses() && Shape(c, d, h, states, tail, attempted)
    ensures var plan := MarkerPlan(c, d, CheckpointFor(c, h, c.header(h), states));
            var d' := PerformAll(d, plan);
            && Shape(c, Interrupted(d, plan, n, k), h, states, tail, attempted)
            && Shape(c, d', h, states, tail, attempted)
            && d'.marker.now == Some(MarkerAt(c, h, states, |states|))
            && d'.ledger.now == d.ledger.now && d'.snapshot.now == d.snapshot.now
  {
    var bytes := MarkerAt(c, h, states, |states|);
    assert states[..|states|] == states;
    MarkerAtIsOk(c, h, states, |states|);
    if d.marker.now != Some(bytes) {
      AtomicWriteKeepsShape(c, d, h, states, tail, attempted, Marker, bytes, n, k);
      InterruptedRename(d, Marker, bytes, 2, 0);
    }
  }

  /** A start's own writes keep the shape, and when they are all done its memory agrees with the disk. */
  lemma OpenKeepsShape(c: Codec, d: Disk, identity: string, h: Header, states: seq<Store>, tail: Bytes, attempted: set<Store>, n: nat, k: nat)
    requires c.Parses() && Shape(c, d, h, states, tail, attempted)
    requires Open(c, d, identity).Accepted?
    ensures var o := Open(c, d, identity);
            && Shape(c, Interrupted(d, o.plan, n, k), h, states, tail, attempted)
            && Shape(c, PerformAll(d, o.plan), h, states, tail, attempted)
            && LiveOk(c, PerformAll(d, o.plan), h, states, tail, Live(o.memory, o.store))
  {
    OpenReads(c, d, identity, h, states, tail, attempted);
    MarkerPlanKeepsShape(c, d, h, states, tail, attempted, n, k);
  }

  lemma FirstLedgerShape(c: Codec, h: Header, attempted: set<Store>)
    requires c.Parses() && ValidHeader(h) && EMPTY_STORE in attempted
    ensures Shape(c, Perform(BLANK, Rename(Ledger, LedgerBytes(c, h, []))), h, [], [], attempted)
  {
    var b := LedgerBytes(c, h, []);
    assert b + [] == b;
  }

  /** The first start on an empty directory, cut short anywhere or finished. */
  lemma OpenBlank(c: Codec, identity: string, attempted: set<Store>, n: nat, k: nat)
    requires c.Parses() && ValidHeader(Header(SCHEMA, identity)) && EMPTY_STORE in attempted
    ensures var o, h := Open(c, BLANK, identity), Header(SCHEMA, identity);
            && o.Accepted?
            && (n == 0 ==> Interrupted(BLANK, o.plan, n, k) == BLANK)
            && (n > 0 ==> Shape(c, Interrupted(BLANK, o.plan, n, k), h, [], [], attempted))
            && Shape(c, PerformAll(BLANK, o.plan), h, [], [], attempted)
            && LiveOk(c, PerformAll(BLANK, o.plan), h, [], [], Live(o.memory, o.store))
            && IsMergeOfAttempts(o.store, attempted)
  {
    var h := Header(SCHEMA, identity);
    var o := Open(c, BLANK, identity);
    var ledger, marker := LedgerBytes(c, h, []), MarkerAt(c, h, [], 0);
    LedgerReads(c, h, []);
    assert LastCheckpoint(LedgerLog(c, h, [])) == CheckpointFor(c, h, c.header(h), []);
    var p, q := [Rename(Ledger, ledger), SyncDirectory], [Rename(Marker, marker), SyncDirectory];
    assert o.plan == p + q;
    InterruptedConcat(BLANK, p, q, n, k);
    PerformConcat(BLANK, p, q);
    InterruptedRename(BLANK, Ledger, ledger, n, k);
    FirstLedgerShape(c, h, attempted);
    SyncingKeepsShape(c, Perform(BLANK, Rename(Ledger, ledger)), h, [], [], attempted);
    MarkerAtIsOk(c, h, [], 0);
    if n >= 2 {
      AtomicWriteKeepsShape(c, PerformAll(BLANK, p), h, [], [], attempted, Marker, marker, n - 2, k);
    }
    AtomicWriteKeepsShape(c, PerformAll(BLANK, p), h, [], [], attempted, Marker, marker, 2, k);
    InterruptedRename(PerformAll(BLANK, p), Marker, marker, 2, 0);
    ReplayOfItself(EMPTY_STORE);
    MergeWitness(o.store, EMPTY_STORE, EMPTY_STORE, attempted);
  }

  lemma WrittenIsGood(c: Codec, w: World, h: Header, states: seq<Store>, tail: Bytes)
    requires Written(c, w, h, states, tail)
    ensures Good(c, w)
  {
  }

  /** Good, whether the process goes on or ends here. */
  ghost predicate GoodEitherWay(c: Codec, w: World) { Good(c, w) && Good(c, w.(live := None)) }

  /** The save a start ends with; a start whose save fails leaves nothing running. */
  lemma StartSaveKeepsGood(c: Codec, w: World, opening: Opening, next: Store, n: nat, k: nat, h: Header, states: seq<Store>, tail: Bytes)
    returns (saved: World)
    requires c.Parses() && opening.Accepted? && Grows(opening.store, next)
    requires w.live == Some(Live(opening.memory, opening.store)) && Written(c, w, h, states, tail)
    ensures saved == SaveStep(c, w, w.live.value, next, n, k) && GoodEitherWay(c, saved)
  {
    var states', tail' := SaveKeepsWritten(c, w, next, n, k, h, states, tail);
    saved := SaveStep(c, w, w.live.value, next, n, k);
    WrittenIsGood(c, saved, h, states', tail');
    WrittenIsGood(c, saved.(live := None), h, states', tail');
  }

  /** The ways a start may end: within its own writes, with nothing to save, or with a save. */
  lemma StartEndsGood(c: Codec, w: World, stopped: World, running: World, o: Opening, next: Store, n: nat, k: nat, saved: World)
    requires o.Accepted?
    requires n < |o.plan| ==> stopped == w.(disk := Interrupted(w.disk, o.plan, n, k)) && Good(c, stopped)
    requires running == World(PerformAll(w.disk, o.plan), Some(Live(o.memory, o.store)), w.attempted) && Good(c, running)
    requires n >= |o.plan| ==>
               saved == SaveStep(c, running, running.live.value, next, n - |o.plan|, k) && GoodEitherWay(c, saved)
    ensures Good(c, StartFrom(c, w, o, next, n, k))
  {
  }

  /** What a start leaves if it writes a snapshot, once its own writes are done. */
  lemma ReadyKeepsGood(c: Codec, running: World, o: Opening, next: Store, n: nat, k: nat, h: Header, states: seq<Store>, tail: Bytes)
    returns (saved: World)
    requires c.Parses() && o.Accepted? && Grows(o.store, next)
    requires running.live == Some(Live(o.memory, o.store)) && Written(c, running, h, states, tail)
    ensures n >= |o.plan| ==>
              saved == SaveStep(c, running, running.live.value, next, n - |o.plan|, k) && GoodEitherWay(c, saved)
    ensures Good(c, running)
  {
    saved := running;
    WrittenIsGood(c, running, h, states, tail);
    if n >= |o.plan| {
      saved := StartSaveKeepsGood(c, running, o, next, n - |o.plan|, k, h, states, tail);
    }
  }

  lemma StartKeepsGood(c: Codec, w: World, identity: string, next: Store, n: nat, k: nat)
    requires c.Parses() && Good(c, w) && Enabled(c, w, Start(identity, next, n, k))
    ensures Good(c, StartStep(c, w, identity, next, n, k))
  {
    var o := Open(c, w.disk, identity);
    if o.Refused? {
    } else if Blank(w.disk) {
      assert w.disk == BLANK;
      var h := Header(SCHEMA, identity);
      OpenBlank(c, identity, w.attempted, n, k);
      var stopped := w.(disk := Interrupted(w.disk, o.plan, n, k));
      if 0 < n < |o.plan| {
        WrittenIsGood(c, stopped, h, [], []);
      }
      var running := World(PerformAll(w.disk, o.plan), Some(Live(o.memory, o.store)), w.attempted);
      var saved := ReadyKeepsGood(c, running, o, next, n, k, h, [], []);
      StartEndsGood(c, w, stopped, running, o, next, n, k, saved);
    } else {
      var h, states, tail :| Written(c, w, h, states, tail);
      OpenKeepsShape(c, w.disk, identity, h, states, tail, w.attempted, n, k);
      var stopped := w.(disk := Interrupted(w.disk, o.plan, n, k));
      WrittenIsGood(c, stopped, h, states, tail);
      var running := World(PerformAll(w.disk, o.plan), Some(Live(o.memory, o.store)), w.attempted);
      var saved := ReadyKeepsGood(c, running, o, next, n, k, h, states, tail);
      StartEndsGood(c, w, stopped, running, o, next, n, k, saved);
    }
  }

  // ---------------------------------------------------------------- Losing power

  lemma PrefixWithoutLastByte(before: Bytes, record: Bytes, last: Byte, tail: Bytes, n: nat)
    requires n <= |before| + |record|
    ensures (before + (record + [last]) + tail)[..n] == (before + record)[..n]
  {
  }

  lemma PrefixBeyond(before: Bytes, tail: Bytes, n: nat)
    requires |before| <= n <= |before| + |tail|
    ensures (before + tail)[..n] == before + tail[..n - |before|]
  {
  }

  /** A prefix that ends within the last line is a prefix of the ledger before it and that line's record. */
  lemma WithinLastLine(c: Codec, h: Header, states: seq<Store>, tail: Bytes, n: nat) returns (record: Bytes)
    requires c.Parses() && states != [] && n < |LedgerBytes(c, h, states)|
    ensures NEWLINE !in record && n <= |LedgerBytes(c, h, states[..|states| - 1])| + |record|
    ensures (LedgerBytes(c, h, states) + tail)[..n] == (LedgerBytes(c, h, states[..|states| - 1]) + record)[..n]
  {
    var last := |states| - 1;
    record := c.record(NewRecord(c, last + 1, ChainDigest(c, c.header(h), states[..last]), states[last]));
    PrefixWithoutLastByte(LedgerBytes(c, h, states[..last]), record, NEWLINE, tail, n);
  }

  lemma PrefixesOfFront(states: seq<Store>, m: nat)
    requires m < |states|
    ensures states[..|states| - 1][..m] == states[..m]
    ensures m < |states| - 1 ==> states[..|states| - 1][..m + 1] == states[..m + 1]
    ensures m == |states| - 1 ==> states[..m + 1] == states
  {
  }

  /** Any prefix of a written ledger that keeps the header line is a shorter written ledger. */
  lemma {:induction false} LedgerPrefix(c: Codec, h: Header, states: seq<Store>, tail: Bytes, n: nat)
    returns (m: nat, tail': Bytes)
    requires c.Parses() && NEWLINE !in tail
    requires |LedgerBytes(c, h, [])| <= n <= |LedgerBytes(c, h, states)| + |tail|
    ensures m <= |states| && NEWLINE !in tail'
    ensures (LedgerBytes(c, h, states) + tail)[..n] == LedgerBytes(c, h, states[..m]) + tail'
    ensures m < |states| ==> n < |LedgerBytes(c, h, states[..m + 1])|
    decreases |states|
  {
    if n >= |LedgerBytes(c, h, states)| {
      m, tail' := |states|, tail[..n - |LedgerBytes(c, h, states)|];
      assert states[..|states|] == states;
      PrefixBeyond(LedgerBytes(c, h, states), tail, n);
    } else {
      var record := WithinLastLine(c, h, states, tail, n);
      m, tail' := LedgerPrefix(c, h, states[..|states| - 1], record, n);
      PrefixesOfFront(states, m);
    }
  }

  lemma NoLedgerIsBlankOrDead(c: Codec, d: Disk)
    requires Settled(d) && d.ledger.now.None?
    ensures Blank(d) || Dead(c, d)
  {
    if !Fresh(d) {
      forall identity ensures Open(c, d, identity).Refused? {
      }
    }
  }

  /** A checkpoint beyond the end of the ledger, or a cut last line, refuses every start. */
  lemma BehindOrTornIsDead(c: Codec, d: Disk, h: Header, states: seq<Store>, tail: Bytes)
    requires c.Parses() && Settled(d) && LedgerOk(c, d, h, states, tail)
    requires || tail != []
             || (MarkerOf(c, d).Some? && MarkerOf(c, d).value.sequence > |states|)
             || (&& d.snapshot.now.Some? && c.readStore(d.snapshot.now.value).Some?
                 && c.readStore(d.snapshot.now.value).value.checkpoint.Some?
                 && c.readStore(d.snapshot.now.value).value.checkpoint.value.sequence > |states|)
    ensures Dead(c, d)
  {
    ShapedLedgerReads(c, d, h, states, tail);
    forall identity ensures Open(c, d, identity).Refused? {
    }
  }

  lemma ShorterHistoryMarker(c: Codec, h: Header, states: seq<Store>, m: nat, content: Content)
    requires m <= |states| && MarkerOk(c, h, states, content)
    requires content.Some? ==> c.readCheckpoint(content.value).value.sequence <= m
    ensures MarkerOk(c, h, states[..m], content)
  {
    if content.Some? {
      var k := c.readCheckpoint(content.value).value.sequence;
      assert states[..m][..k] == states[..k];
    }
  }

  lemma ShorterHistorySnapshot(c: Codec, h: Header, states: seq<Store>, m: nat, attempted: set<Store>, content: Content)
    requires m <= |states| && SnapshotOk(c, h, states, attempted, content)
    requires content.Some? ==> c.readStore(content.value).value.checkpoint.value.sequence <= m
    ensures SnapshotOk(c, h, states[..m], attempted, content)
  {
    if content.Some? {
      var j := c.readStore(content.value).value.checkpoint.value.sequence;
      assert states[..m][..j] == states[..j];
    }
  }

  /** The ledger a power loss leaves is the longest whole history that fits, and a cut line. */
  lemma PowerLossLedger(c: Codec, d: Disk, d': Disk, h: Header, states: seq<Store>, tail: Bytes)
    returns (m: nat, tail': Bytes)
    requires c.Parses() && LedgerOk(c, d, h, states, tail)
    requires PowerLoss(d, d') && d'.ledger.now.Some?
    ensures m <= |states| && LedgerOk(c, d', h, states[..m], tail')
    ensures d.synced <= |d'.ledger.now.value| == d'.synced
    ensures m < |states| ==> |d'.ledger.now.value| < |LedgerBytes(c, h, states[..m + 1])|
  {
    m, tail' := LedgerPrefix(c, h, states, tail, |d'.ledger.now.value|);
  }

  /** A power loss leaves a shorter history that still fits together, or a recovery set no start accepts. */
  lemma PowerLossKeepsShape(c: Codec, d: Disk, d': Disk, h: Header, states: seq<Store>, tail: Bytes, attempted: set<Store>)
    returns (m: nat, tail': Bytes)
    requires c.Parses() && Shape(c, d, h, states, tail, attempted)
    requires PowerLoss(d, d') && d'.ledger.now.Some?
    ensures m <= |states|
    ensures Shape(c, d', h, states[..m], tail', attempted) || Dead(c, d')
  {
    m, tail' := PowerLossLedger(c, d, d', h, states, tail);
    assert MarkerOk(c, h, states, d'.marker.now);
    assert SnapshotOk(c, h, states, attempted, d'.snapshot.now);
    var behind :=
      || (d'.marker.now.Some? && c.readCheckpoint(d'.marker.now.value).value.sequence > m)
      || (d'.snapshot.now.Some? && c.readStore(d'.snapshot.now.value).value.checkpoint.value.sequence > m);
    if behind {
      BehindOrTornIsDead(c, d', h, states[..m], tail');
    } else {
      ShorterHistoryMarker(c, h, states, m, d'.marker.now);
      ShorterHistorySnapshot(c, h, states, m, attempted, d'.snapshot.now);
    }
  }

  lemma PowerLossKeepsGood(c: Codec, w: World, d': Disk)
    requires c.Parses() && Good(c, w) && PowerLoss(w.disk, d')
    ensures Good(c, World(d', None, w.attempted))
  {
    var after := World(d', None, w.attempted);
    if Blank(w.disk) {
      assert Blank(d');
    } else if w.live.None? && Dead(c, w.disk) {
      assert d' == w.disk by {
        if d'.ledger.now.Some? {
          assert d'.ledger.now.value == w.disk.ledger.now.value;
        }
      }
    } else {
      var h, states, tail :| Written(c, w, h, states, tail);
      if d'.ledger.now.None? {
        NoLedgerIsBlankOrDead(c, d');
        if Blank(d') {
          assert SnapshotOk(c, h, states, w.attempted, None);
        }
      } else {
        var m, tail' := PowerLossKeepsShape(c, w.disk, d', h, states, tail, w.attempted);
        if !Dead(c, d') {
          WrittenIsGood(c, after, h, states[..m], tail');
        }
      }
    }
  }

  // ---------------------------------------------------------------- Whole runs

  lemma StepKeepsGood(c: Codec, w: World, e: Event)
    requires c.Parses() && Good(c, w) && Enabled(c, w, e)
    ensures Good(c, Step(c, w, e))
  {
    match e {
      case Start(identity, next, n, k) => StartKeepsGood(c, w, identity, next, n, k);
      case LosePower(outcome) => PowerLossKeepsGood(c, w, outcome);
      case Kill =>
        if !Blank(w.disk) && !(w.live.None? && Dead(c, w.disk)) {
          var h, states, tail :| Written(c, w, h, states, tail);
          WrittenIsGood(c, w.(live := None), h, states, tail);
        }
      case Save(store, n, k) =>
        if w.live.Some? {
          var h, states, tail :| Written(c, w, h, states, tail);
          var states', tail' := SaveKeepsWritten(c, w, store, n, k, h, states, tail);
          WrittenIsGood(c, SaveStep(c, w, w.live.value, store, n, k), h, states', tail');
        }
    }
  }

  lemma {:induction false} RunKeepsGood(c: Codec, w: World, events: seq<Event>, w': World)
    requires c.Parses() && Good(c, w) && Reaches(c, w, events, w')
    ensures Good(c, w')
    decreases |events|
  {
    if events != [] {
      StepKeepsGood(c, w, events[0]);
      RunKeepsGood(c, Step(c, w, events[0]), events[1..], w');
    }
  }

  /** A start that is accepted hands back states attempted since the last acknowledged save. */
  lemma GoodOpensToAttempts(c: Codec, w: World, identity: string)
    requires c.Parses() && Good(c, w) && ValidHeader(Header(SCHEMA, identity))
    requires Open(c, w.disk, identity).Accepted?
    ensures var o := Open(c, w.disk, identity);
            && IsMergeOfAttempts(o.store, w.attempted)
            && StoreAccounting(o.store) == StoreAccounting(o.memory.committed)
  {
    var o := Open(c, w.disk, identity);
    if Blank(w.disk) {
      assert w.disk == BLANK;
      OpenBlank(c, identity, w.attempted, 0, 0);
    } else {
      var h, states, tail :| Written(c, w, h, states, tail);
      OpenReads(c, w.disk, identity, h, states, tail, w.attempted);
      AcceptedAccounting(c, w.disk, identity);
    }
  }

  /** Every provider of the one is in the other, with the same accounting. */
  predicate AgreesOn(s: Store, recorded: Store) {
    && (forall id <- recorded.providers ::
          id in s.providers && AccountingOf(s.providers[id]) == AccountingOf(recorded.providers[id]))
    && (s.providers.Keys == recorded.providers.Keys ==> StoreAccounting(s) == StoreAccounting(recorded))
  }

  lemma EqualAccountingAgrees(s: Store, recorded: Store)
    requires StoreAccounting(s) == StoreAccounting(recorded)
    ensures AgreesOn(s, recorded)
  {
    forall id <- recorded.providers
      ensures id in s.providers && AccountingOf(s.providers[id]) == AccountingOf(recorded.providers[id])
    {
      assert StoreAccounting(recorded)[id] == StoreAccounting(s)[id];
    }
  }

  lemma ReplayedAgrees(s: Store, recorded: Store)
    ensures AgreesOn(ReplayStore(s, recorded), recorded)
  {
  }

  /** A snapshot at the last record agrees with it. */
  lemma LastSnapshotAgrees(c: Codec, d: Disk, log: Log)
    requires DiskLog(c, d) == Some(log) && BaseStore(c, d, log).Some?
    requires log.states == [] || BaseStore(c, d, log).value.checkpoint == Some(LastCheckpoint(log))
    ensures AgreesOn(BaseStore(c, d, log).value, LastState(log))
  {
    var base := BaseStore(c, d, log).value;
    if d.snapshot.now.Some? {
      AcceptedLinesAreChained(c, Split(d.ledger.now.value[..|d.ledger.now.value| - 1]));
      assert LastCheckpoint(log).sequence == |log.states|;
    }
    EqualAccountingAgrees(base, LastState(log));
  }

  /** On any disk at all, an accepted start agrees with the last complete record on every provider it holds. */
  lemma AcceptedAccounting(c: Codec, d: Disk, identity: string)
    requires Open(c, d, identity).Accepted?
    ensures AgreesOn(Open(c, d, identity).store, Open(c, d, identity).memory.committed)
  {
    if !Fresh(d) {
      var log := DiskLog(c, d).value;
      var base := BaseStore(c, d, log).value;
      if Open(c, d, identity).recovered {
        ReplayedAgrees(base, LastState(log));
      } else {
        LastSnapshotAgrees(c, d, log);
      }
    }
  }

  /**
  A start that finds newer records takes from the last of them what was accounted and which triggers are latched, and
  from the snapshot the plan, its policy and its random state; the clock seen is the later one. A provider that only
  one of them knows is taken as it is there.
  */
  lemma RecoveredProviderIs(c: Codec, d: Disk, identity: string, id: string)
    requires Open(c, d, identity).Accepted? && Open(c, d, identity).recovered
    requires d.snapshot.now.Some?
    ensures c.readStore(d.snapshot.now.value).Some?
    ensures var o, planned := Open(c, d, identity), c.readStore(d.snapshot.now.value).value.providers;
            var recorded := o.memory.committed.providers;
            && o.store.providers.Keys == planned.Keys + recorded.Keys
            && (id in planned && id !in recorded ==> o.store.providers[id] == planned[id])
            && (id in recorded && id !in planned ==> o.store.providers[id] == recorded[id])
            && (id in planned && id in recorded ==>
                  var q, b, r := o.store.providers[id], planned[id], recorded[id];
                  && AccountingOf(q) == AccountingOf(r) && q.triggers == r.triggers
                  && q.slots == b.slots && q.rng == b.rng && q.policyDailyMax == b.policyDailyMax
                  && q.policyMinSpacing == b.policyMinSpacing && q.policyJitter == b.policyJitter
                  && q.lastObserved == if b.lastObserved < r.lastObserved then r.lastObserved else b.lastObserved)
  {
  }

  /** Any other start takes the snapshot as it is, with the checkpoint of the last record. */
  lemma UnrecoveredStoreIs(c: Codec, d: Disk, identity: string)
    requires Open(c, d, identity).Accepted? && !Open(c, d, identity).recovered && d.snapshot.now.Some?
    ensures c.readStore(d.snapshot.now.value).Some?
    ensures var o := Open(c, d, identity);
            o.store == c.readStore(d.snapshot.now.value).value.(checkpoint := Some(o.memory.checkpoint))
  {
  }

  /** The main result: every run from an empty directory, every crash point, every later start. */
  lemma CrashRefinement(c: Codec, events: seq<Event>, w: World, identity: string)
    requires c.Parses() && Reaches(c, INITIAL, events, w)
    requires ValidHeader(Header(SCHEMA, identity)) && Open(c, w.disk, identity).Accepted?
    ensures var o := Open(c, w.disk, identity);
            && IsMergeOfAttempts(o.store, w.attempted)
            && StoreAccounting(o.store) == StoreAccounting(o.memory.committed)
  {
    RunKeepsGood(c, INITIAL, events, w);
    GoodOpensToAttempts(c, w, identity);
  }

  /** After an acknowledged save, a start hands back exactly the saved state, until another save is tried. */
  lemma AcknowledgedStateReturns(c: Codec, events: seq<Event>, w: World, store: Store, identity: string)
    requires c.Parses() && Reaches(c, INITIAL, events, w) && w.attempted == {store}
    requires ValidHeader(Header(SCHEMA, identity)) && Open(c, w.disk, identity).Accepted?
    ensures Core(Open(c, w.disk, identity).store) == store
  {
    CrashRefinement(c, events, w, identity);
    ReplayOfItself(store);
  }

  /** A save that failed in any way leaves a memory that never writes again. */
  lemma FailedSaveWritesNoMore(c: Codec, w: World, first: Store, n: nat, k: nat, second: Store, n': nat, k': nat)
    requires w.live.Some?
    requires var p := Persist(c, w.live.value.memory, w.disk, first); p.Rejected? || n < |p.plan|
    ensures var failed := SaveStep(c, w, w.live.value, first, n, k);
            && failed.live.Some?
            && SaveStep(c, failed, failed.live.value, second, n', k').disk == failed.disk
            && SaveStep(c, failed, failed.live.value, second, n', k').live.value.memory.poisoned
  {
  }
}
