/**
Exactly when a start or a save can be cut short anywhere and still leave a recovery set that the next start
accepts, unless its ledger ends in a cut line; and runs in which it is not so.
*/
module CrashLimits {
  import opened Values
  import opened SchedulerState
  import opened AccountingLog
  import opened Recovery
  import opened CrashRuns
  import opened CrashRefinement
  import opened CrashRecovery

  // ---------------------------------------------------------------- Crash-safe saves

  /** However far the save gets and whatever a power loss then leaves, the next start is refused only for a cut line. */
  ghost predicate CrashSafeSave(c: Codec, w: World, store: Store, identity: string)
    requires w.live.Some?
  {
    forall n: nat, k: nat, d' :: PowerLoss(SaveStep(c, w, w.live.value, store, n, k).disk, d') ==>
                                   (Open(c, d', identity).Accepted? <==> !Torn(d'))
  }

  /** The same of a start. */
  ghost predicate CrashSafeStart(c: Codec, w: World, identity: string, next: Store) {
    forall n: nat, k: nat, d' :: PowerLoss(StartStep(c, w, identity, next, n, k).disk, d') ==>
                                   (Open(c, d', identity).Accepted? <==> !Torn(d'))
  }

  /** The whole ledger, this marker, the visible backup, and no snapshot. */
  function Fallen(d: Disk, marker: Content): Disk {
    Disk(Entry(d.ledger.now, {}), if d.ledger.now.Some? then |d.ledger.now.value| else 0,
         Entry(marker, {}), Entry(d.backup.now, {}), ABSENT)
  }

  lemma FallenShape(c: Codec, d: Disk, marker: Content, h: Header, states: seq<Store>, attempted: set<Store>)
    requires Shape(c, d, h, states, [], attempted) && marker in Possible(d.marker) && None in Possible(d.snapshot)
    ensures PowerLoss(d, Fallen(d, marker)) && Shape(c, Fallen(d, marker), h, states, [], attempted)
  {
    assert LedgerBytes(c, h, states) + [] == LedgerBytes(c, h, states);
    assert d.ledger.now.value[..|d.ledger.now.value|] == d.ledger.now.value;
  }

  lemma ShapedIsNotTorn(c: Codec, d: Disk, h: Header, states: seq<Store>, attempted: set<Store>)
    requires Shape(c, d, h, states, [], attempted)
    ensures !Torn(d)
  {
    LedgerEndsInNewline(c, h, states);
    assert LedgerBytes(c, h, states) + [] == LedgerBytes(c, h, states);
  }

  /** What a power loss can leave, and no start accepts although the ledger is whole. */
  predicate Strands(c: Codec, d: Disk, d': Disk, identity: string) {
    PowerLoss(d, d') && Open(c, d', identity).Refused? && !Torn(d')
  }

  lemma UnusableStrands(c: Codec, d: Disk, marker: Content, identity: string, h: Header, states: seq<Store>, attempted: set<Store>)
    requires c.Parses() && Shape(c, d, h, states, [], attempted) && marker in Possible(d.marker) && None in Possible(d.snapshot)
    requires !Usable(Fallen(d, marker), states, [])
    ensures Strands(c, d, Fallen(d, marker), identity)
  {
    FallenShape(c, d, marker, h, states, attempted);
    AcceptedIffUsable(c, Fallen(d, marker), identity, h, states, [], attempted);
    ShapedIsNotTorn(c, Fallen(d, marker), h, states, attempted);
  }

  lemma FirstAction(d: Disk, plan: seq<Action>)
    requires |plan| > 1 && !plan[1].Append?
    ensures Interrupted(d, plan, 1, 0) == Perform(d, plan[0])
  {
    assert plan[..1] == [plan[0]];
    assert PerformAll(d, [plan[0]]) == PerformAll(Perform(d, plan[0]), [plan[0]][1..]);
  }

  /** The disk once a record is appended, not yet synced. */
  lemma RecordAppended(c: Codec, w: World, store: Store, h: Header, states: seq<Store>) returns (d: Disk)
    requires c.Parses() && Written(c, w, h, states, []) && w.live.Some? && Grows(w.live.value.store, store)
    requires MayPersist(c, w.live.value.memory, w.disk, store) && NeedsRecord(w.live.value.memory, store)
    ensures d == SaveStep(c, w, w.live.value, store, 1, 0).disk
    ensures Shape(c, d, h, states + [Core(store)], [], w.attempted + {Core(store)})
    ensures d.marker == w.disk.marker && d.snapshot == w.disk.snapshot && d.backup == w.disk.backup
    ensures d.synced == w.disk.synced
  {
    var m, next := w.live.value.memory, Core(store);
    FirstAction(w.disk, Persist(c, m, w.disk, store).plan);
    NextRecordContinues(c, h, states, m, store);
    AttemptMore(c, w.disk, h, states, [], w.attempted, w.attempted + {next});
    AppendWholeKeepsShape(c, w.disk, h, states, w.attempted + {next}, next);
    d := Perform(w.disk, Append(RecordLine(c, c.header(h), states, next)));
  }

  /** The record appended, not yet synced, while no snapshot or no marker is certain. */
  lemma AppendStrands(c: Codec, w: World, store: Store, identity: string, h: Header, states: seq<Store>, marker: Content)
    requires c.Parses() && Running(c, w, h, states, []) && w.live.Some? && Grows(w.live.value.store, store)
    requires MayPersist(c, w.live.value.memory, w.disk, store) && NeedsRecord(w.live.value.memory, store)
    requires None in Possible(w.disk.snapshot) && marker in Possible(w.disk.marker)
    requires marker.None? || states != [] || !ZeroStore(store)
    ensures var d := SaveStep(c, w, w.live.value, store, 1, 0).disk; Strands(c, d, Fallen(d, marker), identity)
  {
    var next := Core(store);
    var attempted := w.attempted + {next};
    var d := RecordAppended(c, w, store, h, states);
    assert next in states + [next] && (ZeroStore(next) <==> ZeroStore(store));
    UnusableStrands(c, d, marker, identity, h, states + [next], attempted);
  }

  /** The backup renamed while the snapshot it copies is not yet certain. */
  lemma BackupStrands(c: Codec, w: World, store: Store, identity: string, h: Header, states: seq<Store>)
    requires c.Parses() && Running(c, w, h, states, []) && w.live.Some? && Grows(w.live.value.store, store)
    requires MayPersist(c, w.live.value.memory, w.disk, store) && !NeedsRecord(w.live.value.memory, store)
    requires None in Possible(w.disk.snapshot) && w.disk.snapshot.now.Some?
    ensures var d := SaveStep(c, w, w.live.value, store, 1, 0).disk; Strands(c, d, Fallen(d, d.marker.now), identity)
  {
    var m, d := w.live.value.memory, w.disk;
    FirstAction(d, Persist(c, m, d, store).plan);
    RenameKeepsShape(c, d, h, states, [], w.attempted, Backup, d.snapshot.now.value);
    var d1 := Perform(d, Rename(Backup, d.snapshot.now.value));
    UnusableStrands(c, d1, d1.marker.now, identity, h, states, w.attempted);
  }

  lemma FirstSaveNeedsRecord(c: Codec, m: Memory, store: Store, states: seq<Store>)
    requires m.committed == Committed(states) && states == [] && store.providers.Keys != {}
    ensures NeedsRecord(m, store)
  {
    if !NeedsRecord(m, store) {
      EqualAccountingEqualKeys(store, EMPTY_STORE);
    }
  }

  lemma UncalmSaveStrands(c: Codec, w: World, store: Store, identity: string, h: Header, states: seq<Store>, tail: Bytes)
    returns (d': Disk)
    requires c.Parses() && Running(c, w, h, states, tail) && w.live.Some? && Grows(w.live.value.store, store)
    requires !CalmSave(c, w.live.value.memory, w.disk, store)
    ensures Strands(c, SaveStep(c, w, w.live.value, store, 1, 0).disk, d', identity)
  {
    var m, d := w.live.value.memory, w.disk;
    var d1 := SaveStep(c, w, w.live.value, store, 1, 0).disk;
    if None in Possible(d.marker) {
      FirstSaveNeedsRecord(c, m, store, states);
      AppendStrands(c, w, store, identity, h, states, None);
      d' := Fallen(d1, None);
    } else if NeedsRecord(m, store) {
      assert states[..|states|] == states;
      AppendStrands(c, w, store, identity, h, states, d.marker.now);
      d' := Fallen(d1, d.marker.now);
    } else {
      BackupStrands(c, w, store, identity, h, states);
      d' := Fallen(d1, d1.marker.now);
    }
  }

  lemma CalmSaveIsSafe(c: Codec, w: World, store: Store, identity: string)
    requires c.Parses() && Sound(c, w) && ValidHeader(Header(SCHEMA, identity)) && w.live.Some?
    requires Enabled(c, w, Save(store, 0, 0)) && CalmSave(c, w.live.value.memory, w.disk, store)
    ensures CrashSafeSave(c, w, store, identity)
  {
    forall n: nat, k: nat, d' | PowerLoss(SaveStep(c, w, w.live.value, store, n, k).disk, d')
      ensures Open(c, d', identity).Accepted? <==> !Torn(d')
    {
      StepKeepsSound(c, w, Save(store, n, k));
      var w' := Step(c, w, Save(store, n, k));
      LosePowerKeepsSound(c, w', d');
      SoundOpensUnlessTorn(c, World(d', None, w'.attempted), identity);
    }
  }

  /** A save can be cut short anywhere exactly if it is calm. */
  lemma SaveIsCrashSafeIffCalm(c: Codec, w: World, store: Store, identity: string)
    requires c.Parses() && Sound(c, w) && ValidHeader(Header(SCHEMA, identity)) && w.live.Some?
    requires Enabled(c, w, Save(store, 0, 0))
    ensures CrashSafeSave(c, w, store, identity) <==> CalmSave(c, w.live.value.memory, w.disk, store)
  {
    if CalmSave(c, w.live.value.memory, w.disk, store) {
      CalmSaveIsSafe(c, w, store, identity);
    } else {
      var h, states, tail :| Running(c, w, h, states, tail);
      var d' := UncalmSaveStrands(c, w, store, identity, h, states, tail);
    }
  }

  /** After an acknowledged save nothing is pending, and every later save is calm. */
  lemma CalmAfterASave(c: Codec, w: World, store: Store, again: Store)
    requires c.Parses() && Sound(c, w) && w.live.Some? && Grows(w.live.value.store, store)
    requires MayPersist(c, w.live.value.memory, w.disk, store)
    ensures var p := Persist(c, w.live.value.memory, w.disk, store);
            CalmSave(c, p.memory, PerformAll(w.disk, p.plan), again)
  {
    SavedFiles(c, w.live.value.memory, w.disk, store);
  }

  // ---------------------------------------------------------------- Crash-safe starts

  lemma {:induction false} LongerHistoryPrefix(c: Codec, h: Header, states: seq<Store>, m: nat)
    requires m <= |states|
    ensures LedgerBytes(c, h, states[..m]) <= LedgerBytes(c, h, states)
    decreases |states|
  {
    if m == |states| {
      assert states[..m] == states;
    } else {
      var last := |states| - 1;
      LongerHistoryPrefix(c, h, states[..last], m);
      assert states[..last][..m] == states[..m];
    }
  }

  /** What a power loss leaves of a disk of which only the first m records are synced. */
  function FallenTo(c: Codec, started: Disk, h: Header, states: seq<Store>, m: nat): Disk
    requires m <= |states|
  {
    Disk(Entry(Some(LedgerBytes(c, h, states[..m])), {}), |LedgerBytes(c, h, states[..m])|,
         Entry(started.marker.now, {}), Entry(started.backup.now, {}), Entry(started.snapshot.now, {}))
  }

  /** A marker for the whole history over a shorter ledger is never accepted again. */
  lemma StrandedMarkerIsDead(c: Codec, started: Disk, h: Header, states: seq<Store>, m: nat, attempted: set<Store>)
    requires c.Parses() && Shape(c, started, h, states, [], attempted) && m < |states|
    requires started.marker.now == Some(MarkerAt(c, h, states, |states|))
    requires started.synced == |LedgerBytes(c, h, states[..m])|
    ensures var d' := FallenTo(c, started, h, states, m); Dead(c, d') && !Torn(d')
  {
    var d' := FallenTo(c, started, h, states, m);
    assert LedgerBytes(c, h, states[..m]) + [] == LedgerBytes(c, h, states[..m]);
    assert states[..|states|] == states;
    assert KeysGrow(states[..m]);
    assert LedgerOk(c, d', h, states[..m], []);
    BehindOrTornIsDead(c, d', h, states[..m], []);
    LedgerEndsInNewline(c, h, states[..m]);
  }

  lemma UnsyncedLedgerMayFall(c: Codec, started: Disk, h: Header, states: seq<Store>, m: nat, attempted: set<Store>)
    requires c.Parses() && Shape(c, started, h, states, [], attempted) && m < |states|
    requires started.synced == |LedgerBytes(c, h, states[..m])|
    ensures PowerLoss(started, FallenTo(c, started, h, states, m))
  {
    LongerHistoryPrefix(c, h, states, m);
    assert LedgerBytes(c, h, states) + [] == LedgerBytes(c, h, states);
  }

  /** The disk once the marker is renamed. */
  lemma MarkerRenamed(c: Codec, d: Disk, identity: string, h: Header, states: seq<Store>, tail: Bytes, attempted: set<Store>)
    returns (d1: Disk)
    requires c.Parses() && Shape(c, d, h, states, tail, attempted) && Open(c, d, identity).Accepted?
    requires Open(c, d, identity).plan != []
    ensures d1 == Interrupted(d, Open(c, d, identity).plan, 1, 0) && Shape(c, d1, h, states, [], attempted)
    ensures d1.ledger == d.ledger && d1.synced == d.synced
    ensures d1.marker.now == Some(MarkerAt(c, h, states, |states|))
  {
    OpenReads(c, d, identity, h, states, tail, attempted);
    OpenKeepsShape(c, d, identity, h, states, tail, attempted, 1, 0);
    InterruptedRename(d, Marker, c.checkpoint(Open(c, d, identity).memory.checkpoint), 1, 0);
    d1 := Interrupted(d, Open(c, d, identity).plan, 1, 0);
    assert states[..|states|] == states;
  }

  lemma MarkerAheadStrands(c: Codec, d: Disk, h: Header, states: seq<Store>, attempted: set<Store>, identity: string) returns (d': Disk)
    requires c.Parses() && Shape(c, d, h, states, [], attempted) && SyncedAtLine(c, d, h, states)
    requires d.marker.now == Some(MarkerAt(c, h, states, |states|)) && d.synced < |LedgerBytes(c, h, states)|
    ensures Strands(c, d, d', identity)
  {
    var m :| 0 <= m <= |states| && LineEndsAt(c, h, states, m, d.synced);
    assert states[..|states|] == states;
    UnsyncedLedgerMayFall(c, d, h, states, m, attempted);
    StrandedMarkerIsDead(c, d, h, states, m, attempted);
    d' := FallenTo(c, d, h, states, m);
  }

  lemma MarkerAloneStrands(c: Codec, d: Disk, identity: string) returns (d': Disk)
    requires d.marker.now.Some? && None in d.ledger.older
    ensures Strands(c, d, d', identity)
  {
    d' := Disk(ABSENT, 0, Entry(d.marker.now, {}), Entry(d.backup.now, {}), Entry(d.snapshot.now, {}));
  }

  /** The marker renamed ahead of a ledger that is not synced. */
  lemma MarkerStrands(c: Codec, w: World, identity: string, h: Header, states: seq<Store>, tail: Bytes) returns (d': Disk)
    requires c.Parses() && Running(c, w, h, states, tail) && Open(c, w.disk, identity).Accepted?
    requires Open(c, w.disk, identity).plan != [] && !LedgerSynced(w.disk)
    ensures Strands(c, Interrupted(w.disk, Open(c, w.disk, identity).plan, 1, 0), d', identity)
  {
    var d1 := MarkerRenamed(c, w.disk, identity, h, states, tail, w.attempted);
    assert LedgerBytes(c, h, states) + [] == LedgerBytes(c, h, states);
    if d1.synced < |LedgerBytes(c, h, states)| {
      d' := MarkerAheadStrands(c, d1, h, states, w.attempted, identity);
    } else {
      d' := MarkerAloneStrands(c, d1, identity);
    }
  }

  lemma UncalmStartStrands(c: Codec, w: World, identity: string, next: Store, h: Header, states: seq<Store>, tail: Bytes, n: nat)
    returns (d': Disk)
    requires c.Parses() && Open(c, w.disk, identity).Accepted? && StartSaves(c, Open(c, w.disk, identity), next)
    requires var o := Open(c, w.disk, identity);
             && Grows(o.store, next) && n == |o.plan| + 1
             && Running(c, World(PerformAll(w.disk, o.plan), Some(Live(o.memory, o.store)), w.attempted), h, states, tail)
             && !CalmSave(c, o.memory, PerformAll(w.disk, o.plan), next)
    ensures Strands(c, StartStep(c, w, identity, next, n, 0).disk, d', identity)
  {
    var o := Open(c, w.disk, identity);
    var running := World(PerformAll(w.disk, o.plan), Some(Live(o.memory, o.store)), w.attempted);
    StartStopsInSave(c, w, o, running, next, 1, 0);
    d' := UncalmSaveStrands(c, running, next, identity, h, states, tail);
  }

  lemma UncalmStartIsUnsafe(c: Codec, w: World, identity: string, next: Store)
    requires c.Parses() && Sound(c, w)
    requires Enabled(c, w, Start(identity, next, 0, 0)) && !CalmStart(c, w.disk, identity, next)
    ensures !CrashSafeStart(c, w, identity, next)
  {
    var o := Open(c, w.disk, identity);
    if Blank(w.disk) {
      assert w.disk == BLANK;
      OpenBlank(c, identity, w.attempted, 0, 0);
      OpenBlankDurable(c, identity, w.attempted, 0, 0);
      var d' := UncalmStartStrands(c, w, identity, next, Header(SCHEMA, identity), [], [], |o.plan| + 1);
    } else {
      var h, states, tail :| Running(c, w, h, states, tail);
      if o.plan != [] && !LedgerSynced(w.disk) {
        var d' := MarkerStrands(c, w, identity, h, states, tail);
        MarkerPlanHasTwo(c, w, identity, h, states, tail);
        assert StartStep(c, w, identity, next, 1, 0).disk == Interrupted(w.disk, o.plan, 1, 0);
      } else {
        OpenKeepsShape(c, w.disk, identity, h, states, tail, w.attempted, 0, 0);
        OpenKeepsDurable(c, w.disk, identity, h, states, tail, w.attempted, 0, 0);
        var d' := UncalmStartStrands(c, w, identity, next, h, states, tail, |o.plan| + 1);
      }
    }
  }

  lemma MarkerPlanHasTwo(c: Codec, w: World, identity: string, h: Header, states: seq<Store>, tail: Bytes)
    requires c.Parses() && Running(c, w, h, states, tail) && Open(c, w.disk, identity).Accepted?
    ensures |Open(c, w.disk, identity).plan| == 2 || Open(c, w.disk, identity).plan == []
  {
    OpenReads(c, w.disk, identity, h, states, tail, w.attempted);
  }

  lemma CalmStartIsSafe(c: Codec, w: World, identity: string, next: Store)
    requires c.Parses() && Sound(c, w)
    requires Enabled(c, w, Start(identity, next, 0, 0)) && CalmStart(c, w.disk, identity, next)
    ensures CrashSafeStart(c, w, identity, next)
  {
    forall n: nat, k: nat, d' | PowerLoss(StartStep(c, w, identity, next, n, k).disk, d')
      ensures Open(c, d', identity).Accepted? <==> !Torn(d')
    {
      StartKeepsSound(c, w, identity, next, n, k);
      var w' := StartStep(c, w, identity, next, n, k);
      LosePowerKeepsSound(c, w', d');
      SoundOpensUnlessTorn(c, World(d', None, w'.attempted), identity);
    }
  }

  /** A start can be cut short anywhere exactly if it is calm: on every disk that calm runs leave, synced or not. */
  lemma StartIsCrashSafeIffCalm(c: Codec, w: World, identity: string, next: Store)
    requires c.Parses() && Sound(c, w) && Enabled(c, w, Start(identity, next, 0, 0))
    ensures CrashSafeStart(c, w, identity, next) <==> CalmStart(c, w.disk, identity, next)
  {
    if CalmStart(c, w.disk, identity, next) {
      CalmStartIsSafe(c, w, identity, next);
    } else {
      UncalmStartIsUnsafe(c, w, identity, next);
    }
  }

  lemma MarkerPlanKeepsCertain(c: Codec, d: Disk, last: Checkpoint)
    requires None !in Possible(d.marker) && None !in Possible(d.snapshot)
    ensures var d' := PerformAll(d, MarkerPlan(c, d, last)); None !in Possible(d'.marker) && None !in Possible(d'.snapshot)
  {
    InterruptedRename(d, Marker, c.checkpoint(last), 2, 0);
  }

  lemma CertainIsCalm(c: Codec, d: Disk, identity: string, next: Store, d': Disk)
    requires Open(c, d, identity).Accepted? && LedgerSynced(d)
    requires d' == PerformAll(d, Open(c, d, identity).plan) && None !in Possible(d'.marker) && None !in Possible(d'.snapshot)
    ensures CalmStart(c, d, identity, next)
  {
  }

  lemma SyncedStartIsCalm(c: Codec, w: World, identity: string, next: Store, h: Header, states: seq<Store>)
    requires c.Parses() && Running(c, w, h, states, []) && Open(c, w.disk, identity).Accepted? && LedgerSynced(w.disk)
    requires w.disk.marker.older == w.disk.snapshot.older == {} && w.disk.marker.now.Some? && w.disk.snapshot.now.Some?
    ensures CalmStart(c, w.disk, identity, next)
  {
    var o := Open(c, w.disk, identity);
    OpenReads(c, w.disk, identity, h, states, [], w.attempted);
    MarkerPlanKeepsCertain(c, w.disk, o.memory.checkpoint);
    CertainIsCalm(c, w.disk, identity, next, PerformAll(w.disk, o.plan));
  }

  lemma UnsyncedStartIsNotCalm(c: Codec, w: World, identity: string, next: Store, h: Header, states: seq<Store>)
    requires c.Parses() && Running(c, w, h, states, []) && Open(c, w.disk, identity).Accepted? && !LedgerSynced(w.disk)
    ensures !CalmStart(c, w.disk, identity, next)
  {
    OpenReads(c, w.disk, identity, h, states, [], w.attempted);
    assert states[..|states|] == states;
    if Open(c, w.disk, identity).plan == [] {
      MarkedLedgerSynced(c, w.disk, h, states, w.attempted);
    }
  }

  /** With a marker and a snapshot in place, that is whether every record of the ledger is synced. */
  lemma StartNeedsSyncedRecords(c: Codec, w: World, identity: string, next: Store, h: Header, states: seq<Store>, m: nat)
    requires c.Parses() && Running(c, w, h, states, []) && Enabled(c, w, Start(identity, next, 0, 0))
    requires w.disk.ledger.older == w.disk.marker.older == w.disk.snapshot.older == {}
    requires w.disk.marker.now.Some? && w.disk.snapshot.now.Some?
    requires LineEndsAt(c, h, states, m, w.disk.synced)
    ensures CrashSafeStart(c, w, identity, next) <==> m == |states|
  {
    RunningIsSound(c, w, h, states, []);
    StartIsCrashSafeIffCalm(c, w, identity, next);
    AcceptedIffUsable(c, w.disk, identity, h, states, [], w.attempted);
    SyncedIffLastLine(c, w.disk, h, states, m);
    if m == |states| {
      SyncedStartIsCalm(c, w, identity, next, h, states);
    } else {
      UnsyncedStartIsNotCalm(c, w, identity, next, h, states);
    }
  }

  lemma SyncedIffLastLine(c: Codec, d: Disk, h: Header, states: seq<Store>, m: nat)
    requires LedgerOk(c, d, h, states, []) && d.ledger.older == {} && LineEndsAt(c, h, states, m, d.synced)
    ensures LedgerSynced(d) <==> m == |states|
  {
    assert LedgerBytes(c, h, states) + [] == LedgerBytes(c, h, states);
    assert states[..|states|] == states;
    if m < |states| {
      ShorterHistoryShorterLedger(c, h, states, m);
    }
  }

  lemma ShorterHistoryShorterLedger(c: Codec, h: Header, states: seq<Store>, m: nat)
    requires m < |states|
    ensures |LedgerBytes(c, h, states[..m])| < |LedgerBytes(c, h, states)|
  {
    var last := |states| - 1;
    LongerHistoryLongerLedger(c, h, states[..last], m);
    assert states[..last][..m] == states[..m];
  }

  // ---------------------------------------------------------------- A second record before the first snapshot

  /** The record part of a save over a settled disk, and nothing of its snapshot part. */
  lemma StopBeforeSnapshot(c: Codec, running: World, next: Store, k: nat, h: Header, states: seq<Store>)
    requires c.Parses() && Written(c, running, h, states, []) && Settled(running.disk)
    requires running.live.Some? && Grows(running.live.value.store, next)
    requires running.disk.snapshot.now.None? && running.disk.backup.now.None?
    requires var m := running.live.value.memory;
             MayPersist(c, m, running.disk, next) && NeedsRecord(m, next)
    ensures var w' := SaveStep(c, running, running.live.value, next, 4, k);
            && Shape(c, w'.disk, h, states + [Core(next)], [], running.attempted + {Core(next)})
            && Settled(w'.disk)
            && w'.disk.snapshot.now.None? && w'.disk.backup.now.None? && w'.disk.marker.now.Some?
            && w'.live.Some? && w'.live.value.memory.poisoned
            && w'.attempted == running.attempted + {Core(next)}
  {
    var m, d := running.live.value.memory, running.disk;
    var record := RecordPlan(c, m, next);
    var rest := [Rename(Snapshot, c.store(Saved(c, m, next))), SyncDirectory];
    assert Persist(c, m, d, next).plan == record + rest;
    InterruptedConcat(d, record, rest, 4, k);
    assert PerformAll(PerformAll(d, record), rest[..0]) == PerformAll(d, record);
    AttemptMore(c, d, h, states, [], running.attempted, running.attempted + {Core(next)});
    var states', tail := RecordPlanKeepsShape(c, d, h, states, running.attempted + {Core(next)}, m, next, 4, k);
    RecordPlanSettles(c, m, d, next);
  }

  lemma RecordPlanSettles(c: Codec, m: Memory, d: Disk, store: Store)
    requires Settled(d) && d.ledger.now.Some? && NeedsRecord(m, store)
    ensures var d' := PerformAll(d, RecordPlan(c, m, store));
            Settled(d') && d'.snapshot.now == d.snapshot.now && d'.backup.now == d.backup.now && d'.marker.now.Some?
  {
    var line := c.record(NextRecord(c, m, store)) + [NEWLINE];
    var bytes := c.checkpoint(NextCheckpoint(c, m, store));
    var append := [Append(line), SyncLedger];
    assert RecordPlan(c, m, store) == append + [Rename(Marker, bytes), SyncDirectory];
    PerformConcat(d, append, [Rename(Marker, bytes), SyncDirectory]);
    InterruptedAppend(d, line, 2, 0);
    InterruptedRename(PerformAll(d, append), Marker, bytes, 2, 0);
  }

  /** A record beyond the first, or one that accounts for something, before any snapshot: no later start is accepted. */
  lemma SecondRecordBeforeSnapshotRefused(c: Codec, d: Disk, identity: string, h: Header, states: seq<Store>, next: Store, attempted: set<Store>)
    requires c.Parses() && Shape(c, d, h, states + [next], [], attempted) && d.snapshot.now.None?
    requires states != [] || !ZeroStore(next)
    ensures Open(c, d, identity).Refused? && !Torn(d)
  {
    AcceptedIffUsable(c, d, identity, h, states + [next], [], attempted);
    ShapedIsNotTorn(c, d, h, states + [next], attempted);
  }

  /** The world in which a start over a written, settled disk begins its save. */
  lemma StartReady(c: Codec, w: World, identity: string, h: Header, states: seq<Store>, tail: Bytes)
    requires c.Parses() && Written(c, w, h, states, tail) && Settled(w.disk) && Open(c, w.disk, identity).Accepted?
    ensures var o := Open(c, w.disk, identity);
            var running := World(PerformAll(w.disk, o.plan), Some(Live(o.memory, o.store)), w.attempted);
            && tail == []
            && Written(c, running, h, states, []) && Settled(running.disk)
            && running.disk.snapshot.now == w.disk.snapshot.now && running.disk.backup.now == w.disk.backup.now
            && o.memory.committed == Committed(states) && o.memory.checkpoint.sequence == |states|
            && o.memory.snapshotDigest == Digested(c, w.disk.snapshot.now)
  {
    OpenReads(c, w.disk, identity, h, states, tail, w.attempted);
    OpenKeepsShape(c, w.disk, identity, h, states, tail, w.attempted, 0, 0);
    MarkerPlanSettles(c, w.disk, Open(c, w.disk, identity).memory.checkpoint);
    MarkerPlanKeepsBackup(c, w.disk, Open(c, w.disk, identity).memory.checkpoint);
  }

  lemma MarkerPlanSettles(c: Codec, d: Disk, last: Checkpoint)
    requires Settled(d)
    ensures var d' := PerformAll(d, MarkerPlan(c, d, last));
            Settled(d') && d'.snapshot.now == d.snapshot.now
  {
    InterruptedRename(d, Marker, c.checkpoint(last), 2, 0);
  }

  lemma MarkerPlanKeepsBackup(c: Codec, d: Disk, last: Checkpoint)
    ensures PerformAll(d, MarkerPlan(c, d, last)).backup.now == d.backup.now
  {
    InterruptedRename(d, Marker, c.checkpoint(last), 2, 0);
  }

  lemma MayPersistFromWritten(c: Codec, running: World, next: Store, h: Header, states: seq<Store>)
    requires c.Parses() && Written(c, running, h, states, []) && running.live.Some? && !running.live.value.memory.poisoned
    requires ValidStore(next) && |states| < U64_MAX
    ensures MayPersist(c, running.live.value.memory, running.disk, next)
  {
    assert states[..|states|] == states;
  }

  lemma StartStopsInSave(c: Codec, w: World, o: Opening, running: World, next: Store, j: nat, k: nat)
    requires o.Accepted? && StartSaves(c, o, next)
    requires running == World(PerformAll(w.disk, o.plan), Some(Live(o.memory, o.store)), w.attempted)
    ensures StartFrom(c, w, o, next, |o.plan| + j, k).disk == SaveStep(c, running, running.live.value, next, j, k).disk
    ensures StartFrom(c, w, o, next, |o.plan| + j, k).attempted == SaveStep(c, running, running.live.value, next, j, k).attempted
  {
  }

  lemma UncalmSaveIsRefused(c: Codec, running: World, next: Store, identity: string, h: Header, states: seq<Store>)
    requires c.Parses() && Written(c, running, h, states, []) && Settled(running.disk)
    requires running.live.Some? && !running.live.value.memory.poisoned && Grows(running.live.value.store, next) && ValidStore(next)
    requires running.disk.snapshot.now.None? && running.disk.backup.now.None?
    requires NeedsRecord(running.live.value.memory, next) && (states != [] || !ZeroStore(next)) && |states| <= 1
    ensures var w' := SaveStep(c, running, running.live.value, next, 4, 0);
            Settled(w'.disk) && w'.disk.marker.now.Some? && Open(c, w'.disk, identity).Refused? && !Torn(w'.disk)
  {
    MayPersistFromWritten(c, running, next, h, states);
    StopBeforeSnapshot(c, running, next, 0, h, states);
    var w' := SaveStep(c, running, running.live.value, next, 4, 0);
    SecondRecordBeforeSnapshotRefused(c, w'.disk, identity, h, states, Core(next), w'.attempted);
  }

  lemma UncalmFromReady(c: Codec, w: World, o: Opening, running: World, next: Store, identity: string, h: Header, states: seq<Store>)
    requires c.Parses() && o.Accepted? && Grows(o.store, next) && ValidStore(next) && !o.memory.poisoned
    requires running == World(PerformAll(w.disk, o.plan), Some(Live(o.memory, o.store)), w.attempted)
    requires Written(c, running, h, states, []) && Settled(running.disk)
    requires running.disk.snapshot.now.None? && running.disk.backup.now.None? && o.memory.snapshotDigest.None?
    requires NeedsRecord(o.memory, next) && (states != [] || !ZeroStore(next)) && |states| <= 1
    ensures var d' := StartFrom(c, w, o, next, |o.plan| + 4, 0).disk;
            Settled(d') && d'.marker.now.Some? && Open(c, d', identity).Refused? && !Torn(d')
  {
    UncalmSaveIsRefused(c, running, next, identity, h, states);
    StartStopsInSave(c, w, o, running, next, 4, 0);
  }

  /** The first start on an empty directory, stopped between its first record and its first snapshot. */
  lemma StoppedFirstStart(c: Codec, identity: string, next: Store)
    requires c.Parses() && ValidHeader(Header(SCHEMA, identity))
    requires Open(c, BLANK, identity).Accepted? && Grows(Open(c, BLANK, identity).store, next) && ValidStore(next)
    ensures var o, w' := Open(c, BLANK, identity), StartStep(c, INITIAL, identity, next, |Open(c, BLANK, identity).plan| + 4, 0);
            && Written(c, w', Header(SCHEMA, identity), [Core(next)], []) && w'.live.None?
            && Settled(w'.disk)
            && w'.disk.snapshot.now.None? && w'.disk.backup.now.None? && w'.disk.marker.now.Some?
  {
    var h, o := Header(SCHEMA, identity), Open(c, BLANK, identity);
    OpenBlank(c, identity, {EMPTY_STORE}, 0, 0);
    OpenBlankDurable(c, identity, {EMPTY_STORE}, 0, 0);
    FirstStartStops(c, o, next, h);
  }

  lemma FirstStartStops(c: Codec, o: Opening, next: Store, h: Header)
    requires c.Parses() && o.Accepted? && Grows(o.store, next) && ValidStore(next) && !o.memory.poisoned
    requires var running := World(PerformAll(BLANK, o.plan), Some(Live(o.memory, o.store)), {EMPTY_STORE});
             Written(c, running, h, [], []) && Settled(running.disk) && running.disk.snapshot.now.None?
    requires PerformAll(BLANK, o.plan).backup.now.None? && o.memory.snapshotDigest.None?
    ensures var w' := StartFrom(c, INITIAL, o, next, |o.plan| + 4, 0);
            && Written(c, w', h, [Core(next)], []) && w'.live.None?
            && Settled(w'.disk)
            && w'.disk.snapshot.now.None? && w'.disk.backup.now.None? && w'.disk.marker.now.Some?
  {
    var running := World(PerformAll(BLANK, o.plan), Some(Live(o.memory, o.store)), {EMPTY_STORE});
    if !NeedsRecord(o.memory, next) {
      EqualAccountingEqualKeys(next, EMPTY_STORE);
    }
    MayPersistFromWritten(c, running, next, h, []);
    StopBeforeSnapshot(c, running, next, 0, h, []);
    StartStopsInSave(c, INITIAL, o, running, next, 4, 0);
    assert [] + [Core(next)] == [Core(next)];
  }

  /**
  Two stops during installation, with an accounting change between them: the ledger is whole, nothing was ever
  started, and still every later start is refused.
  */
  lemma TwoStopsDuringInstallation(c: Codec, identity: string, first: Store, second: Store, w1: World, w2: World)
    requires c.Parses() && ValidHeader(Header(SCHEMA, identity))
    requires ZeroStore(first) && StoreAccounting(first) != StoreAccounting(second)
    requires ValidStore(first) && ValidStore(second)
    requires Open(c, BLANK, identity).Accepted?
    requires var plan := Open(c, BLANK, identity).plan;
             Enabled(c, INITIAL, Start(identity, first, |plan| + 4, 0))
             && w1 == StartStep(c, INITIAL, identity, first, |plan| + 4, 0)
    requires var o := Open(c, w1.disk, identity);
             o.Accepted? ==>
               Grows(o.store, second) && w2 == StartStep(c, w1, identity, second, |o.plan| + 4, 0)
    ensures Open(c, w1.disk, identity).Accepted?
    ensures w2.disk.marker.now.Some? && Open(c, w2.disk, identity).Refused? && !Torn(w2.disk)
  {
    var h := Header(SCHEMA, identity);
    OpenBlank(c, identity, {EMPTY_STORE}, 0, 0);
    StoppedFirstStart(c, identity, first);
    AcceptedIffUsable(c, w1.disk, identity, h, [Core(first)], [], w1.attempted);
    StartReady(c, w1, identity, h, [Core(first)], []);
    var o := Open(c, w1.disk, identity);
    var running := World(PerformAll(w1.disk, o.plan), Some(Live(o.memory, o.store)), w1.attempted);
    assert StoreAccounting(Core(first)) == StoreAccounting(first);
    UncalmFromReady(c, w1, o, running, second, identity, h, [Core(first)]);
  }

  // ---------------------------------------------------------------- A start over an unsynced ledger

  /** A first start that runs to its end. */
  lemma FirstStartCompletes(c: Codec, identity: string, first: Store)
    requires c.Parses() && ValidHeader(Header(SCHEMA, identity)) && ValidStore(first)
    requires Enabled(c, INITIAL, Start(identity, first, 0, 0)) && Open(c, BLANK, identity).Accepted?
    ensures var w := StartStep(c, INITIAL, identity, first, |Open(c, BLANK, identity).plan| + 6, 0);
            && w.live.Some? && !w.live.value.memory.poisoned && Core(w.live.value.store) == Core(first)
            && Written(c, w, Header(SCHEMA, identity), [Core(first)], [])
            && Settled(w.disk) && w.disk.snapshot.now.Some?
  {
    var h, o := Header(SCHEMA, identity), Open(c, BLANK, identity);
    OpenBlank(c, identity, {EMPTY_STORE}, 0, 0);
    OpenBlankDurable(c, identity, {EMPTY_STORE}, 0, 0);
    var running := World(PerformAll(BLANK, o.plan), Some(Live(o.memory, o.store)), {EMPTY_STORE});
    FirstSaveNeedsRecord(c, o.memory, first, []);
    MayPersistFromWritten(c, running, first, h, []);
    FirstSaveCompletes(c, running, first, h);
  }

  lemma FirstSaveCompletes(c: Codec, running: World, first: Store, h: Header)
    requires c.Parses() && Written(c, running, h, [], []) && running.live.Some? && Settled(running.disk)
    requires Grows(running.live.value.store, first) && MayPersist(c, running.live.value.memory, running.disk, first)
    requires NeedsRecord(running.live.value.memory, first) && running.disk.snapshot.now.None?
    ensures var w := SaveStep(c, running, running.live.value, first, 6, 0);
            && w.live.Some? && !w.live.value.memory.poisoned && Core(w.live.value.store) == Core(first)
            && Written(c, w, h, [Core(first)], [])
            && Settled(w.disk) && w.disk.snapshot.now.Some?
  {
    var states := AcknowledgedKeepsWritten(c, running, first, h, [], []);
    SavedFiles(c, running.live.value.memory, running.disk, first);
    assert [] + [Core(first)] == [Core(first)];
  }

  /** A record appended and not synced, over a disk on which all else is. */
  lemma UnsyncedRecord(c: Codec, w: World, second: Store, h: Header, states: seq<Store>)
    requires c.Parses() && Written(c, w, h, states, []) && w.live.Some? && !w.live.value.memory.poisoned
    requires Settled(w.disk) && |states| < U64_MAX
    requires Grows(w.live.value.store, second) && ValidStore(second) && NeedsRecord(w.live.value.memory, second)
    ensures var w' := SaveStep(c, w, w.live.value, second, 1, 0);
            && Shape(c, w'.disk, h, states + [Core(second)], [], w'.attempted)
            && w'.disk.synced == |LedgerBytes(c, h, states)|
            && w'.disk.marker.now == Some(MarkerAt(c, h, states, |states|))
            && w'.disk.snapshot == w.disk.snapshot && w'.live.Some?
  {
    MayPersistFromWritten(c, w, second, h, states);
    var d := RecordAppended(c, w, second, h, states);
    assert LedgerBytes(c, h, states) + [] == LedgerBytes(c, h, states);
  }

  /** The start that then finds it has to bring the marker up to date. */
  lemma MarkerIsBehind(c: Codec, d: Disk, identity: string, h: Header, states: seq<Store>, next: Store, attempted: set<Store>)
    requires c.Parses() && Shape(c, d, h, states + [next], [], attempted) && d.snapshot.now.Some?
    requires d.marker.now == Some(MarkerAt(c, h, states, |states|))
    ensures var o, longer := Open(c, d, identity), states + [next];
            o.Accepted? && o.plan == [Rename(Marker, MarkerAt(c, h, longer, |longer|)), SyncDirectory]
  {
    var longer := states + [next];
    AcceptedIffUsable(c, d, identity, h, longer, [], attempted);
    OpenReads(c, d, identity, h, longer, [], attempted);
    assert longer[..|longer|] == longer && states[..|states|] == states;
    assert SequenceOf(c, d.marker.now) == |states|;
    assert SequenceOf(c, Some(MarkerAt(c, h, longer, |longer|))) == |longer|;
  }

  /** A start that renames the marker and stops, then a power loss that drops the unsynced record. */
  lemma StoppedStartIsStranded(c: Codec, w: World, identity: string, third: Store, h: Header, states: seq<Store>, m: nat)
    requires c.Parses() && Shape(c, w.disk, h, states, [], w.attempted) && m < |states|
    requires w.disk.synced == |LedgerBytes(c, h, states[..m])| && w.live.None?
    requires Open(c, w.disk, identity).Accepted?
    requires Open(c, w.disk, identity).plan == [Rename(Marker, MarkerAt(c, h, states, |states|)), SyncDirectory]
    ensures var d := StartStep(c, w, identity, third, 1, 0).disk;
            var d' := FallenTo(c, d, h, states, m);
            PowerLoss(d, d') && Dead(c, d') && !Torn(d')
  {
    OpenKeepsShape(c, w.disk, identity, h, states, [], w.attempted, 1, 0);
    InterruptedRename(w.disk, Marker, MarkerAt(c, h, states, |states|), 1, 0);
    var d := StartStep(c, w, identity, third, 1, 0).disk;
    UnsyncedLedgerMayFall(c, d, h, states, m, w.attempted);
    StrandedMarkerIsDead(c, d, h, states, m, w.attempted);
  }

  lemma OneEventFirst(c: Codec, w: World, e: Event, events: seq<Event>, w': World)
    requires Enabled(c, w, e) && Reaches(c, Step(c, w, e), events, w')
    ensures Reaches(c, w, [e] + events, w')
  {
    assert ([e] + events)[1..] == events;
  }

  /**
  A run from an empty directory whose last disk no start ever accepts, although its ledger is whole: a process is
  killed between writing and syncing a record, the next one stops within its start, and then power is lost.
  */
  lemma UnsyncedStartStrandsTheMarker(c: Codec, identity: string, first: Store, second: map<string, ProviderState>)
    returns (events: seq<Event>, w: World)
    requires c.Parses() && ValidHeader(Header(SCHEMA, identity)) && ValidStore(first)
    requires Enabled(c, INITIAL, Start(identity, first, 0, 0))
    requires first.providers.Keys <= second.Keys && ValidStore(Store(SCHEMA, second, None))
    requires StoreAccounting(Store(SCHEMA, second, None)) != StoreAccounting(first)
    ensures Reaches(c, INITIAL, events, w) && Dead(c, w.disk) && !Torn(w.disk)
  {
    OpenBlank(c, identity, {EMPTY_STORE}, 0, 0);
    var start := Start(identity, first, |Open(c, BLANK, identity).plan| + 6, 0);
    FirstStartCompletes(c, identity, first);
    var w1 := Step(c, INITIAL, start);
    var store := Store(SCHEMA, second, w1.live.value.store.checkpoint);
    assert StoreAccounting(store) == StoreAccounting(Store(SCHEMA, second, None));
    assert StoreAccounting(Core(first)) == StoreAccounting(first);
    events, w := FromFirstStart(c, w1, identity, Header(SCHEMA, identity), [Core(first)], store);
    OneEventFirst(c, INITIAL, start, events, w);
    events := [start] + events;
  }

  lemma FromFirstStart(c: Codec, w: World, identity: string, h: Header, states: seq<Store>, store: Store)
    returns (events: seq<Event>, w': World)
    requires c.Parses() && ValidHeader(Header(SCHEMA, identity))
    requires Written(c, w, h, states, []) && w.live.Some? && !w.live.value.memory.poisoned
    requires Settled(w.disk) && w.disk.snapshot.now.Some? && |states| < U64_MAX
    requires Grows(w.live.value.store, store) && ValidStore(store) && NeedsRecord(w.live.value.memory, store)
    ensures Reaches(c, w, events, w') && Dead(c, w'.disk) && !Torn(w'.disk)
  {
    UnsyncedRecord(c, w, store, h, states);
    var save := Save(store, 1, 0);
    var w2 := Step(c, w, save);
    MarkerIsBehind(c, w2.disk, identity, h, states, Core(store), w2.attempted);
    var w3 := Step(c, w2, Kill);
    events, w' := FromUnsyncedRecord(c, w3, identity, h, states, Core(store));
    OneEventFirst(c, w2, Kill, events, w');
    OneEventFirst(c, w, save, [Kill] + events, w');
    events := [save] + ([Kill] + events);
  }

  lemma FromUnsyncedRecord(c: Codec, w: World, identity: string, h: Header, states: seq<Store>, next: Store)
    returns (events: seq<Event>, w': World)
    requires c.Parses() && ValidHeader(Header(SCHEMA, identity)) && w.live.None? && next.providers.Keys != {}
    requires var longer := states + [next];
             && Shape(c, w.disk, h, longer, [], w.attempted)
             && w.disk.synced == |LedgerBytes(c, h, states)|
             && Open(c, w.disk, identity).Accepted?
             && Open(c, w.disk, identity).plan == [Rename(Marker, MarkerAt(c, h, longer, |longer|)), SyncDirectory]
    ensures Reaches(c, w, events, w') && Dead(c, w'.disk) && !Torn(w'.disk)
  {
    var longer, o := states + [next], Open(c, w.disk, identity);
    assert longer[..|states|] == states;
    OpenReads(c, w.disk, identity, h, longer, [], w.attempted);
    var third := o.store.(schema := SCHEMA);
    StoppedStartIsStranded(c, w, identity, third, h, longer, |states|);
    var start := Start(identity, third, 1, 0);
    var w4 := Step(c, w, start);
    var lost := LosePower(FallenTo(c, w4.disk, h, longer, |states|));
    w' := Step(c, w4, lost);
    events := [start, lost];
    assert events[1..] == [lost] && [lost][1..] == [];
    assert Reaches(c, w', [], w');
    assert Reaches(c, w4, [lost], w');
  }
}
