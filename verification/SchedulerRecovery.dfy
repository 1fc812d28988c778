/**
Recoverability and validity for the scheduler over its files: every save it makes is accepted, and every crash of a
calm run is recoverable. Whether a start is calm is told from what it finds: the disk, the clock and the policy.
*/
module SchedulerRecovery {
  import opened Values
  import opened SchedulerState
  import opened AccountingLog
  import opened Recovery
  import Admission
  import opened SchedulerOnDisk
  import Files = CrashRuns
  import Crash = CrashRefinement
  import Rec = CrashRecovery
  import CrashLimits
  import Runs = AdmissionRuns
  import Valid = ValidRuns

  type Policy = Admission.Policy

  // ---------------------------------------------------------------- Saves are never invalid

  ghost predicate StoresValid(files: Files.World) {
    && (forall s <- files.attempted :: ValidStore(s))
    && (files.live.Some? ==> ValidStore(files.live.value.store))
  }

  lemma ReplayedValid(base: Store, recent: Store)
    requires ValidStore(base) && ValidStore(recent)
    ensures ValidStore(ReplayStore(base, recent))
  {
    var s := ReplayStore(base, recent);
    forall id <- s.providers ensures ValidProvider(id, s.providers[id]) {
      if id in base.providers {
        assert ValidProvider(id, base.providers[id]);
      }
      if id in recent.providers {
        assert ValidProvider(id, recent.providers[id]);
      }
    }
  }

  lemma WithValid(s: Store, id: string, p: ProviderState)
    requires ValidStore(s) && ValidProvider(id, p)
    ensures ValidStore(With(s, id, p))
  {
  }

  /** What an accepted start hands back is valid. */
  lemma OpenedValid(c: Codec, files: Files.World, identity: string)
    requires c.Parses() && FilesOk(c, files) && StoresValid(files)
    requires ValidHeader(Header(SCHEMA, identity)) && Open(c, files.disk, identity).Accepted?
    ensures ValidStore(Open(c, files.disk, identity).store)
  {
    var store := Open(c, files.disk, identity).store;
    Crash.GoodOpensToAttempts(c, files, identity);
    var b, r :| b in files.attempted && r in files.attempted && Files.Core(store) == ReplayStore(b, r);
    ReplayedValid(b, r);
    assert Files.Core(store).providers == store.providers;
  }

  /** A healthy memory turns a valid store down only when the record numbers have run out. */
  lemma HealthyAccepts(c: Codec, files: Files.World, store: Store)
    requires c.Parses() && Files.Good(c, files) && Healthy(files) && ValidStore(store)
    ensures var m := files.live.value.memory;
            Persist(c, m, files.disk, store).Rejected? <==> NeedsRecord(m, store) && m.checkpoint.sequence >= U64_MAX
  {
    var h, states, tail :| Files.Written(c, files, h, states, tail);
    assert states[..|states|] == states;
  }

  /** Every save of an operation, as far as it gets, is accepted unless the record numbers have run out. */
  ghost predicate AcceptsAll(c: Codec, files: Files.World, id: string, saves: seq<ProviderState>, stops: seq<Stop>)
    requires Healthy(files) && |stops| >= |saves|
    decreases |saves|
  {
    saves == [] ||
    var live := files.live.value;
    var store := With(live.store, id, saves[0]);
    var next := Files.SaveStep(c, files, live, store, stops[0].n, stops[0].k);
    && ValidStore(store)
    && (Persist(c, live.memory, files.disk, store).Rejected? ==> live.memory.checkpoint.sequence >= U64_MAX)
    && (Healthy(next) ==> AcceptsAll(c, next, id, saves[1..], stops[1..]))
  }

  lemma SaveKeepsStoresValid(c: Codec, files: Files.World, store: Store, stop: Stop)
    requires StoresValid(files) && Healthy(files) && ValidStore(store)
    ensures var next := Files.SaveStep(c, files, files.live.value, store, stop.n, stop.k);
            StoresValid(next) && StoresValid(next.(live := None))
  {
    assert ValidStore(Files.Core(store));
  }

  lemma {:induction false} SavesAreAccepted(c: Codec, files: Files.World, id: string, saves: seq<ProviderState>, stops: seq<Stop>)
    requires c.Parses() && FilesOk(c, files) && Healthy(files) && StoresValid(files) && |stops| >= |saves|
    requires forall s <- saves :: ValidProvider(id, s)
    ensures AcceptsAll(c, files, id, saves, stops)
    ensures StoresValid(SaveAll(c, files, id, saves, stops).0)
    decreases |saves|
  {
    if saves != [] {
      var store := With(files.live.value.store, id, saves[0]);
      WithValid(files.live.value.store, id, saves[0]);
      HealthyAccepts(c, files, store);
      SaveKeepsFilesOk(c, files, id, saves[0], stops[0]);
      SaveKeepsStoresValid(c, files, store, stops[0]);
      var next := Files.SaveStep(c, files, files.live.value, store, stops[0].n, stops[0].k);
      if Healthy(next) {
        SavesAreAccepted(c, next, id, saves[1..], stops[1..]);
      }
    }
  }

  /** Clocks at least a day before the end of the calendar. */
  predicate Dated(m: Moment, d: Deed) { Valid.InCalendar(d.now) }

  lemma OperationSavesValid(id: string, w: World, e: Event, a: Runs.World, c: Codec)
    requires id != "" && e.Operate? && Enabled(c, id, w, e) && Refines(c, id, w, a) && Valid.WellFormedInv(a)
    requires Valid.InCalendar(e.now)
    ensures forall s <- Runs.EffectOf(w.running.value, w.policy, e.op, e.now).saves :: ValidProvider(id, s)
  {
    var effect := Runs.EffectOf(w.running.value, w.policy, e.op, e.now);
    Valid.OpWellFormed(w.running.value, w.policy, e.op, e.now);
    forall s <- effect.saves ensures ValidProvider(id, s) {
      assert s in Runs.Outcomes(effect);
      Valid.WellFormedIsValid(id, s);
    }
  }

  lemma MergedStartsValid(id: string, base: Option<ProviderState>, recent: Option<ProviderState>, recovered: bool,
                          policy: Policy, now: Time, seed: bv64)
    requires id != "" && Admission.ValidPolicy(policy) && Valid.InCalendar(now)
    requires base.Some? ==> Valid.WellFormed(base.value)
    requires recent.Some? ==> Valid.WellFormed(recent.value)
    ensures ValidProvider(id, Admission.Startup(Runs.Merge(base, recent), recovered, policy, now, seed))
  {
    Valid.StartupWellFormed(Runs.Merge(base, recent), recovered, policy, now, seed);
    Valid.WellFormedIsValid(id, Admission.Startup(Runs.Merge(base, recent), recovered, policy, now, seed));
  }

  lemma StartedIsValid(c: Codec, id: string, w: World, e: Event, a: Runs.World)
    requires c.Parses() && id != "" && e.Begin? && Enabled(c, id, w, e) && Refines(c, id, w, a) && Valid.WellFormedInv(a)
    requires Valid.InCalendar(e.now) && StoresValid(w.files) && Open(c, w.files.disk, e.identity).Accepted?
    ensures var o := Open(c, w.files.disk, e.identity);
            ValidStore(o.store) && ValidStore(With(o.store, id, Started(o, id, e.policy, e.now, e.seed)))
  {
    var o := Open(c, w.files.disk, e.identity);
    var base, recent := OpenFindsMerge(c, id, w.files, e.identity, a.attempted);
    MergedStartsValid(id, base, recent, o.recovered, e.policy, e.now, e.seed);
    OpenedValid(c, w.files, e.identity);
    WithValid(o.store, id, Started(o, id, e.policy, e.now, e.seed));
  }

  lemma StartKeepsStoresValid(c: Codec, files: Files.World, o: Opening, next: Store, stop: Stop)
    requires StoresValid(files) && o.Accepted? && !o.memory.poisoned && ValidStore(o.store) && ValidStore(next)
    ensures StoresValid(Files.StartFrom(c, files, o, next, stop.n, stop.k))
  {
    if stop.n >= |o.plan| {
      var running := Files.World(PerformAll(files.disk, o.plan), Some(Files.Live(o.memory, o.store)), files.attempted);
      SaveKeepsStoresValid(c, running, next, Stop(stop.n - |o.plan|, stop.k));
    }
  }

  lemma StepKeepsStoresValid(c: Codec, id: string, w: World, e: Event, a: Runs.World)
    requires c.Parses() && id != "" && Refines(c, id, w, a) && Valid.WellFormedInv(a) && StoresValid(w.files)
    requires Enabled(c, id, w, e) && Fits(w, e, Dated)
    ensures StoresValid(Step(c, id, w, e).files)
  {
    match e {
      case Operate(op, now, stops) =>
        OperationSavesValid(id, w, e, a, c);
        SavesAreAccepted(c, w.files, id, Runs.EffectOf(w.running.value, w.policy, op, now).saves, stops);
      case Begin(identity, policy, now, seed, stop) =>
        var o := Open(c, w.files.disk, identity);
        if o.Accepted? {
          StartedIsValid(c, id, w, e, a);
          StartKeepsStoresValid(c, w.files, o, With(o.store, id, Started(o, id, policy, now, seed)), stop);
        }
      case Kill =>
      case LosePower(_) =>
    }
  }

  lemma AbstractRunsStayWellFormed(policy: Policy, t0: Time, events: seq<Runs.Event>, a: Runs.World)
    requires Runs.Reaches(Runs.Initial(policy, t0), events, a, Abstractly(Dated))
    ensures Valid.WellFormedInv(a)
  {
    Weakened(Runs.Initial(policy, t0), events, a, Abstractly(Dated), Valid.Dated);
    Valid.RunKeepsWellFormed(Runs.Initial(policy, t0), events, a);
  }

  lemma {:induction false} RunKeepsStoresValid(c: Codec, id: string, policy: Policy, t0: Time, w: World, es: seq<Event>, w': World,
                                               events: seq<Runs.Event>, a: Runs.World)
    returns (events': seq<Runs.Event>, a': Runs.World)
    requires c.Parses() && id != "" && Refines(c, id, w, a) && StoresValid(w.files) && Reaches(c, id, w, es, w', Dated)
    requires Runs.Reaches(Runs.Initial(policy, t0), events, a, Abstractly(Dated))
    ensures Runs.Reaches(Runs.Initial(policy, t0), events', a', Abstractly(Dated))
    ensures Refines(c, id, w', a') && StoresValid(w'.files)
    decreases |es|
  {
    if es == [] {
      events', a' := events, a;
    } else {
      AbstractRunsStayWellFormed(policy, t0, events, a);
      StepKeepsStoresValid(c, id, w, es[0], a);
      var events1, a1 := StepRefines(c, id, w, es[0], Dated, Runs.Initial(policy, t0), events, a);
      events', a' := RunKeepsStoresValid(c, id, policy, t0, Step(c, id, w, es[0]), es[1..], w', events1, a1);
    }
  }

  lemma ValidAlways(c: Codec, id: string, policy: Policy, t0: Time, es: seq<Event>, w: World) returns (a: Runs.World)
    requires c.Parses() && id != "" && Reaches(c, id, Initial(policy, t0), es, w, Dated)
    ensures Refines(c, id, w, a) && Valid.WellFormedInv(a) && StoresValid(w.files)
  {
    var start := Runs.Initial(policy, t0);
    assert Files.Blank(Files.INITIAL.disk);
    var events: seq<Runs.Event>;
    events, a := RunKeepsStoresValid(c, id, policy, t0, Initial(policy, t0), es, w, [], start);
    AbstractRunsStayWellFormed(policy, t0, events, a);
  }

  /**
  No save of a healthy scheduler is turned down: after any run, every save of every operation, as far as it gets,
  is of a valid store and is carried out unless the record numbers have run out.
  */
  lemma SavesAreNeverRejected(c: Codec, id: string, policy: Policy, t0: Time, es: seq<Event>, w: World, e: Event)
    requires c.Parses() && id != "" && Reaches(c, id, Initial(policy, t0), es, w, Dated)
    requires e.Operate? && Enabled(c, id, w, e) && Fits(w, e, Dated)
    ensures AcceptsAll(c, w.files, id, Runs.EffectOf(w.running.value, w.policy, e.op, e.now).saves, e.stops)
  {
    var a := ValidAlways(c, id, policy, t0, es, w);
    OperationSavesValid(id, w, e, a, c);
    SavesAreAccepted(c, w.files, id, Runs.EffectOf(w.running.value, w.policy, e.op, e.now).saves, e.stops);
  }

  /** Nor is the save of a start. */
  lemma StartsAreNeverRejected(c: Codec, id: string, policy: Policy, t0: Time, es: seq<Event>, w: World, e: Event)
    requires c.Parses() && id != "" && Reaches(c, id, Initial(policy, t0), es, w, Dated)
    requires e.Begin? && Enabled(c, id, w, e) && Fits(w, e, Dated) && Open(c, w.files.disk, e.identity).Accepted?
    ensures var o := Open(c, w.files.disk, e.identity);
            var next := With(o.store, id, Started(o, id, e.policy, e.now, e.seed));
            && ValidStore(next)
            && (Persist(c, o.memory, PerformAll(w.files.disk, o.plan), next).Rejected? ==>
                  o.memory.checkpoint.sequence >= U64_MAX)
  {
    var a := ValidAlways(c, id, policy, t0, es, w);
    StartedIsValid(c, id, w, e, a);
    var o := Open(c, w.files.disk, e.identity);
    var next := With(o.store, id, Started(o, id, e.policy, e.now, e.seed));
    var running := ReadyWorld(c, w.files, e.identity);
    HealthyAccepts(c, running, next);
  }

  /** The files and memory of a start once its own writes are done. */
  lemma ReadyWorld(c: Codec, files: Files.World, identity: string) returns (running: Files.World)
    requires c.Parses() && Files.Good(c, files) && ValidHeader(Header(SCHEMA, identity))
    requires Open(c, files.disk, identity).Accepted?
    ensures var o := Open(c, files.disk, identity);
            && running == Files.World(PerformAll(files.disk, o.plan), Some(Files.Live(o.memory, o.store)), files.attempted)
            && Files.Good(c, running) && Healthy(running)
  {
    var o := Open(c, files.disk, identity);
    running := Files.World(PerformAll(files.disk, o.plan), Some(Files.Live(o.memory, o.store)), files.attempted);
    if Files.Blank(files.disk) {
      assert files.disk == BLANK;
      Crash.OpenBlank(c, identity, files.attempted, 0, 0);
      Crash.WrittenIsGood(c, running, Header(SCHEMA, identity), [], []);
    } else {
      var h, states, tail :| Files.Written(c, files, h, states, tail);
      Crash.OpenKeepsShape(c, files.disk, identity, h, states, tail, files.attempted, 0, 0);
      Crash.WrittenIsGood(c, running, h, states, tail);
    }
  }

  // ---------------------------------------------------------------- Calm starts

  /** A start that leaves what the ledger records of its provider as it is: no new day, no forgotten deferral. */
  predicate KeepsAccounting(found: Option<ProviderState>, policy: Policy, now: Time) {
    && found.Some?
    && Day(now) <= found.value.day
    && (Admission.PolicyChanged(found.value, policy) && policy.dailyMax == 0 ==> found.value.deferred.None?)
  }

  lemma StartupAccounting(found: Option<ProviderState>, recovered: bool, policy: Policy, now: Time, seed: bv64)
    requires Admission.ValidPolicy(policy)
    ensures var p := Admission.Startup(found, recovered, policy, now, seed);
            && (found.None? ==> ZeroAccounting(p))
            && (found.Some? ==> (AccountingOf(p) == AccountingOf(found.value) <==> KeepsAccounting(found, policy, now)))
  {
  }

  /**
  What a start needs of the disk, the clock and the policy to be cut short anywhere. If it brings the marker up to
  date, a synced ledger; afterwards a marker no power loss takes away; and a snapshot likewise, or else an
  installation whose first record is not yet written, or is not to be followed by a second.
  */
  predicate CalmBegin(c: Codec, id: string, d: Disk, identity: string, policy: Policy, now: Time) {
    var o := Open(c, d, identity);
    o.Accepted? ==>
      var ready := PerformAll(d, o.plan);
      && (o.plan != [] ==> Files.Blank(d) || Rec.LedgerSynced(d))
      && None !in Rec.Possible(ready.marker)
      && (None in Rec.Possible(ready.snapshot) ==>
            && d.snapshot.now.None?
            && (o.memory.checkpoint.sequence == 0 || KeepsAccounting(ProviderOf(o.store, id), policy, now)))
  }

  lemma StartsOnRecord(s: Store, committed: Store, id: string, p: ProviderState)
    requires StoreAccounting(s) == StoreAccounting(committed)
    ensures StoreAccounting(With(s, id, p)) == StoreAccounting(committed)
            <==> ProviderOf(s, id).Some? && AccountingOf(p) == AccountingOf(ProviderOf(s, id).value)
  {
    var t := With(s, id, p);
    assert id in StoreAccounting(t) && StoreAccounting(t)[id] == AccountingOf(p);
    if ProviderOf(s, id).Some? && AccountingOf(p) == AccountingOf(s.providers[id]) {
      assert StoreAccounting(t) == StoreAccounting(s);
    }
    assert id in StoreAccounting(s) ==> StoreAccounting(s)[id] == AccountingOf(s.providers[id]);
  }

  /** Whether a start adds a record. */
  lemma StartNeedsRecord(c: Codec, id: string, files: Files.World, identity: string, policy: Policy, now: Time, seed: bv64)
    requires c.Parses() && Files.Good(c, files) && ValidHeader(Header(SCHEMA, identity)) && Admission.ValidPolicy(policy)
    requires Open(c, files.disk, identity).Accepted?
    ensures var o := Open(c, files.disk, identity);
            var next := With(o.store, id, Started(o, id, policy, now, seed));
            NeedsRecord(o.memory, next) <==> !KeepsAccounting(ProviderOf(o.store, id), policy, now)
  {
    var o := Open(c, files.disk, identity);
    Crash.GoodOpensToAttempts(c, files, identity);
    StartupAccounting(ProviderOf(o.store, id), o.recovered, policy, now, seed);
    StartsOnRecord(o.store, o.memory.committed, id, Started(o, id, policy, now, seed));
  }

  /** Before the first record there is no provider to find, and a new one accounts for nothing. */
  lemma FirstRecordIsZero(c: Codec, id: string, files: Files.World, identity: string, policy: Policy, now: Time, seed: bv64)
    requires c.Parses() && Files.Good(c, files) && ValidHeader(Header(SCHEMA, identity)) && Admission.ValidPolicy(policy)
    requires Open(c, files.disk, identity).Accepted? && Open(c, files.disk, identity).memory.checkpoint.sequence == 0
    ensures var o := Open(c, files.disk, identity);
            Rec.ZeroStore(With(o.store, id, Started(o, id, policy, now, seed)))
  {
    var o := Open(c, files.disk, identity);
    if Files.Blank(files.disk) {
      assert files.disk == BLANK;
      Crash.OpenBlank(c, identity, files.attempted, 0, 0);
    } else {
      var h, states, tail :| Files.Written(c, files, h, states, tail);
      Crash.OpenReads(c, files.disk, identity, h, states, tail, files.attempted);
    }
    assert o.store.providers.Keys == {};
    StartupAccounting(None, o.recovered, policy, now, seed);
  }

  /** For a start that saves, this is exactly being calm, so exactly being safe to cut short. */
  lemma BeginIsCalmIff(c: Codec, id: string, files: Files.World, identity: string, policy: Policy, now: Time, seed: bv64)
    requires c.Parses() && Rec.Sound(c, files) && ValidHeader(Header(SCHEMA, identity)) && Admission.ValidPolicy(policy)
    requires Open(c, files.disk, identity).Accepted?
    ensures var o := Open(c, files.disk, identity);
            var next := With(o.store, id, Started(o, id, policy, now, seed));
            && (CalmBegin(c, id, files.disk, identity, policy, now) ==> Rec.CalmStart(c, files.disk, identity, next))
            && (Rec.CalmStart(c, files.disk, identity, next) && Files.StartSaves(c, o, next)
                && MayPersist(c, o.memory, PerformAll(files.disk, o.plan), next)
                ==> CalmBegin(c, id, files.disk, identity, policy, now))
  {
    SoundIsGood(c, files);
    StartNeedsRecord(c, id, files, identity, policy, now, seed);
    var o := Open(c, files.disk, identity);
    if o.memory.checkpoint.sequence == 0 {
      FirstRecordIsZero(c, id, files, identity, policy, now, seed);
    }
    OpenKeepsSnapshot(c, files, identity);
  }

  lemma SoundIsGood(c: Codec, files: Files.World)
    requires Rec.Sound(c, files)
    ensures Files.Good(c, files)
  {
    if !Files.Blank(files.disk) {
      var h, states, tail :| Rec.Running(c, files, h, states, tail);
    }
  }

  lemma OpenKeepsSnapshot(c: Codec, files: Files.World, identity: string)
    requires c.Parses() && Files.Good(c, files) && ValidHeader(Header(SCHEMA, identity))
    requires Open(c, files.disk, identity).Accepted?
    ensures PerformAll(files.disk, Open(c, files.disk, identity).plan).snapshot.now == files.disk.snapshot.now
  {
    if Files.Blank(files.disk) {
      assert files.disk == BLANK;
      Rec.OpenBlankDurable(c, identity, files.attempted, 0, 0);
    } else {
      var h, states, tail :| Files.Written(c, files, h, states, tail);
      Crash.OpenReads(c, files.disk, identity, h, states, tail, files.attempted);
      Crash.MarkerPlanKeepsShape(c, files.disk, h, states, tail, files.attempted, 0, 0);
    }
  }

  // ---------------------------------------------------------------- Calm runs

  /** A power loss takes neither the marker nor the snapshot away. */
  predicate Certain(d: Disk) { None !in Rec.Possible(d.marker) && None !in Rec.Possible(d.snapshot) }

  ghost predicate SoundFiles(c: Codec, files: Files.World) {
    && Rec.Sound(c, files)
    && (forall s <- files.attempted :: s.schema == SCHEMA)
    && (files.live.Some? ==> Healthy(files) && files.live.value.store.schema == SCHEMA && Certain(files.disk))
  }

  lemma SavedIsCertain(c: Codec, m: Memory, d: Disk, store: Store)
    requires MayPersist(c, m, d, store)
    ensures Certain(PerformAll(d, Persist(c, m, d, store).plan))
  {
    SavedFiles(c, m, d, store);
  }

  lemma HealthySaveIsCertain(c: Codec, files: Files.World, store: Store, stop: Stop)
    requires Healthy(files)
    ensures var next := Files.SaveStep(c, files, files.live.value, store, stop.n, stop.k);
            Healthy(next) ==> Certain(next.disk)
  {
    if MayPersist(c, files.live.value.memory, files.disk, store) {
      SavedIsCertain(c, files.live.value.memory, files.disk, store);
    }
  }

  lemma CertainSaveKeepsSound(c: Codec, files: Files.World, store: Store, stop: Stop)
    requires c.Parses() && Rec.Sound(c, files) && files.live.Some? && Certain(files.disk)
    requires Files.Grows(files.live.value.store, store)
    ensures var next := Files.SaveStep(c, files, files.live.value, store, stop.n, stop.k);
            Rec.Sound(c, next) && Rec.Sound(c, next.(live := None))
  {
    Rec.StepKeepsSound(c, files, Files.Save(store, stop.n, stop.k));
    Rec.StepKeepsSound(c, Files.SaveStep(c, files, files.live.value, store, stop.n, stop.k), Files.Kill);
  }

  /** Once marker and snapshot are certain, every save is calm and leaves them so. */
  lemma CertainSave(c: Codec, files: Files.World, id: string, p: ProviderState, stop: Stop)
    requires c.Parses() && SoundFiles(c, files) && Healthy(files)
    ensures var store := With(files.live.value.store, id, p);
            var next := Files.SaveStep(c, files, files.live.value, store, stop.n, stop.k);
            && next.live.Some? && SoundFiles(c, next.(live := None)) && (Healthy(next) ==> SoundFiles(c, next))
  {
    var store := With(files.live.value.store, id, p);
    WithProvider(files.live.value.store, id, p);
    assert files.live.value.store == files.live.value.store.(schema := SCHEMA);
    SoundIsGood(c, files);
    SaveKeepsFilesOk(c, files, id, p, stop);
    CertainSaveKeepsSound(c, files, store, stop);
    HealthySaveIsCertain(c, files, store, stop);
  }

  lemma {:induction false} SavesKeepSound(c: Codec, files: Files.World, id: string, saves: seq<ProviderState>, stops: seq<Stop>)
    requires c.Parses() && SoundFiles(c, files) && Healthy(files) && |stops| >= |saves|
    ensures SoundFiles(c, SaveAll(c, files, id, saves, stops).0)
    decreases |saves|
  {
    if saves != [] {
      CertainSave(c, files, id, saves[0], stops[0]);
      var next := Files.SaveStep(c, files, files.live.value, With(files.live.value.store, id, saves[0]), stops[0].n, stops[0].k);
      if Healthy(next) {
        SavesKeepSound(c, next, id, saves[1..], stops[1..]);
      }
    }
  }

  /** What a calm start leaves is certain if it goes on running. */
  lemma StartedIsCertain(c: Codec, files: Files.World, o: Opening, next: Store, stop: Stop)
    requires o.Accepted? && files.live.None? && !o.memory.poisoned
    requires var ready := PerformAll(files.disk, o.plan);
             && None !in Rec.Possible(ready.marker)
             && (None in Rec.Possible(ready.snapshot) ==> o.memory.snapshotDigest.None?)
    ensures var after := Files.StartFrom(c, files, o, next, stop.n, stop.k);
            after.live.Some? ==> Certain(after.disk)
  {
    var ready := PerformAll(files.disk, o.plan);
    if stop.n >= |o.plan| && MayPersist(c, o.memory, ready, next) {
      SavedIsCertain(c, o.memory, ready, next);
    }
  }

  lemma BeginKeepsSound(c: Codec, id: string, w: World, e: Event)
    requires c.Parses() && SoundFiles(c, w.files) && e.Begin? && Enabled(c, id, w, e)
    requires CalmBegin(c, id, w.files.disk, e.identity, e.policy, e.now) && Open(c, w.files.disk, e.identity).Accepted?
    ensures SoundFiles(c, Step(c, id, w, e).files)
  {
    var o := Open(c, w.files.disk, e.identity);
    var p := Started(o, id, e.policy, e.now, e.seed);
    SoundIsGood(c, w.files);
    OpenedSchema(c, w.files, e.identity);
    BeginIsCalmIff(c, id, w.files, e.identity, e.policy, e.now, e.seed);
    OpenedDigest(c, w.files, e.identity);
    StartKeepsSoundFiles(c, w.files, e.identity, id, p, e.stop);
  }

  lemma StartKeepsSoundFiles(c: Codec, files: Files.World, identity: string, id: string, p: ProviderState, stop: Stop)
    requires c.Parses() && SoundFiles(c, files) && files.live.None? && ValidHeader(Header(SCHEMA, identity))
    requires Open(c, files.disk, identity).Accepted? && Open(c, files.disk, identity).store.schema == SCHEMA
    requires var o := Open(c, files.disk, identity);
             var ready := PerformAll(files.disk, o.plan);
             && !o.memory.poisoned && None !in Rec.Possible(ready.marker)
             && (None in Rec.Possible(ready.snapshot) ==> o.memory.snapshotDigest.None?)
             && Rec.CalmStart(c, files.disk, identity, With(o.store, id, p))
    ensures var o := Open(c, files.disk, identity);
            SoundFiles(c, Files.StartFrom(c, files, o, With(o.store, id, p), stop.n, stop.k))
  {
    var o := Open(c, files.disk, identity);
    var next := With(o.store, id, p);
    WithProvider(o.store, id, p);
    assert o.store == o.store.(schema := SCHEMA);
    Rec.StartKeepsSound(c, files, identity, next, stop.n, stop.k);
    StartFromOutcome(c, files, o, next, stop);
    StartedIsCertain(c, files, o, next, stop);
  }

  lemma OpenedSchema(c: Codec, files: Files.World, identity: string)
    requires c.Parses() && Files.Good(c, files) && (forall s <- files.attempted :: s.schema == SCHEMA)
    requires ValidHeader(Header(SCHEMA, identity)) && Open(c, files.disk, identity).Accepted?
    ensures Open(c, files.disk, identity).store.schema == SCHEMA
  {
    var store := Open(c, files.disk, identity).store;
    Crash.GoodOpensToAttempts(c, files, identity);
    var b, r :| b in files.attempted && r in files.attempted && Files.Core(store) == ReplayStore(b, r);
    assert store.schema == Files.Core(store).schema == b.schema;
  }

  lemma OpenedDigest(c: Codec, files: Files.World, identity: string)
    requires c.Parses() && Files.Good(c, files) && ValidHeader(Header(SCHEMA, identity))
    requires Open(c, files.disk, identity).Accepted?
    ensures var m := Open(c, files.disk, identity).memory;
            !m.poisoned && (files.disk.snapshot.now.None? ==> m.snapshotDigest.None?)
  {
  }

  /** Every start is calm; saves then are of themselves. */
  predicate Calmly(c: Codec, id: string, w: World, e: Event) {
    e.Begin? ==> CalmBegin(c, id, w.files.disk, e.identity, e.policy, e.now)
  }

  ghost predicate CalmlyReaches(c: Codec, id: string, w: World, events: seq<Event>, w': World)
    decreases |events|
  {
    if events == [] then w' == w
    else Enabled(c, id, w, events[0]) && Calmly(c, id, w, events[0])
         && CalmlyReaches(c, id, Step(c, id, w, events[0]), events[1..], w')
  }

  lemma CalmStepKeepsSound(c: Codec, id: string, w: World, e: Event)
    requires c.Parses() && SoundFiles(c, w.files) && Enabled(c, id, w, e) && Calmly(c, id, w, e)
    ensures SoundFiles(c, Step(c, id, w, e).files)
  {
    match e {
      case Operate(op, now, stops) =>
        SavesKeepSound(c, w.files, id, Runs.EffectOf(w.running.value, w.policy, op, now).saves, stops);
      case Begin(identity, policy, now, seed, stop) =>
        if Open(c, w.files.disk, identity).Accepted? {
          BeginKeepsSound(c, id, w, e);
        }
      case Kill => Rec.StepKeepsSound(c, w.files, Files.Kill);
      case LosePower(outcome) => Rec.StepKeepsSound(c, w.files, Files.LosePower(outcome));
    }
  }

  lemma {:induction false} CalmRunKeepsSound(c: Codec, id: string, w: World, es: seq<Event>, w': World)
    requires c.Parses() && SoundFiles(c, w.files) && CalmlyReaches(c, id, w, es, w')
    ensures SoundFiles(c, w'.files)
    decreases |es|
  {
    if es != [] {
      CalmStepKeepsSound(c, id, w, es[0]);
      CalmRunKeepsSound(c, id, Step(c, id, w, es[0]), es[1..], w');
    }
  }

  /**
  In every run of the scheduler whose starts were calm, cut short at any file action, with any kills and power losses,
  the next start is accepted unless the ledger ends in a cut line.
  */
  lemma EveryCalmCrashRecoversOnDisk(c: Codec, id: string, policy: Policy, t0: Time, es: seq<Event>, w: World, identity: string)
    requires c.Parses() && CalmlyReaches(c, id, Initial(policy, t0), es, w) && ValidHeader(Header(SCHEMA, identity))
    ensures Open(c, w.files.disk, identity).Accepted? <==> !Rec.Torn(w.files.disk)
  {
    assert Files.Blank(Files.INITIAL.disk);
    CalmRunKeepsSound(c, id, Initial(policy, t0), es, w);
    Rec.SoundOpensUnlessTorn(c, w.files, identity);
  }

  // ---------------------------------------------------------------- Midnight during installation

  predicate Anyhow(m: Moment, d: Deed) { true }

  /** What the first start reconciles is valid, new, and accounts for nothing. */
  lemma FirstStartFound(c: Codec, id: string, identity: string, policy: Policy, now: Time, seed: bv64)
    requires c.Parses() && id != "" && ValidHeader(Header(SCHEMA, identity)) && Admission.ValidPolicy(policy) && Valid.InCalendar(now)
    requires Open(c, BLANK, identity).Accepted?
    ensures var o := Open(c, BLANK, identity);
            var p := Started(o, id, policy, now, seed);
            var next := With(o.store, id, p);
            && Valid.WellFormed(p) && p.day == Day(now)
            && Files.Grows(o.store, next) && ValidStore(next) && Rec.ZeroStore(next)
  {
    var o := Open(c, BLANK, identity);
    Crash.OpenBlank(c, identity, {EMPTY_STORE}, 0, 0);
    assert o.store.providers.Keys == {};
    var p := Started(o, id, policy, now, seed);
    Valid.StartupWellFormed(None, o.recovered, policy, now, seed);
    Valid.WellFormedIsValid(id, p);
    StartupAccounting(None, o.recovered, policy, now, seed);
    WithProvider(o.store, id, p);
    assert o.store == o.store.(schema := SCHEMA);
  }

  /** A start after the first one stopped finds what that one recorded. */
  lemma StoppedStartOpens(c: Codec, files: Files.World, identity: string, s1: Store)
    requires c.Parses() && ValidHeader(Header(SCHEMA, identity)) && files.disk.snapshot.now.None?
    requires Files.Written(c, files, Header(SCHEMA, identity), [Files.Core(s1)], [])
    requires files.disk.backup.now.None? && files.disk.marker.now.Some? && Rec.ZeroStore(s1)
    ensures var o := Open(c, files.disk, identity);
            o.Accepted? && o.store.providers == s1.providers && o.store.schema == SCHEMA
  {
    var h, states := Header(SCHEMA, identity), [Files.Core(s1)];
    Rec.AcceptedIffUsable(c, files.disk, identity, h, states, [], files.attempted);
    Crash.ShapedLedgerReads(c, files.disk, h, states, []);
    Crash.ReplayOfItself(Files.Core(s1));
    assert WritableState(Files.Core(s1));
  }

  lemma SecondStartFound(o: Opening, id: string, p1: ProviderState, policy: Policy, now: Time, seed: bv64)
    requires o.Accepted? && o.store.schema == SCHEMA && ProviderOf(o.store, id) == Some(p1) && ValidStore(o.store)
    requires id != "" && Admission.ValidPolicy(policy) && Valid.InCalendar(now) && Valid.WellFormed(p1) && p1.day < Day(now)
    ensures var p := Started(o, id, policy, now, seed);
            p.day == Day(now) && Files.Grows(o.store, With(o.store, id, p)) && ValidStore(With(o.store, id, p))
  {
    var p := Started(o, id, policy, now, seed);
    Valid.StartupWellFormed(Some(p1), o.recovered, policy, now, seed);
    Valid.WellFormedIsValid(id, p);
    WithProvider(o.store, id, p);
    assert o.store == o.store.(schema := SCHEMA);
  }

  lemma DayMatters(s: Store, t: Store, id: string)
    requires id in s.providers && id in t.providers && s.providers[id].day != t.providers[id].day
    ensures StoreAccounting(s) != StoreAccounting(t)
  {
    assert StoreAccounting(s)[id].day != StoreAccounting(t)[id].day;
  }

  /** The first start, stopped between its record and its snapshot. */
  lemma FirstStop(c: Codec, id: string, identity: string, policy: Policy, now: Time, seed: bv64) returns (e: Event, s: Store)
    requires c.Parses() && id != "" && ValidHeader(Header(SCHEMA, identity)) && Admission.ValidPolicy(policy) && Valid.InCalendar(now)
    ensures Open(c, BLANK, identity).Accepted?
    ensures e == Begin(identity, policy, now, seed, Stop(|Open(c, BLANK, identity).plan| + 4, 0))
    ensures Enabled(c, id, Initial(policy, now), e)
    ensures var o := Open(c, BLANK, identity);
            && s == With(o.store, id, Started(o, id, policy, now, seed))
            && Files.Grows(o.store, s) && ValidStore(s) && Rec.ZeroStore(s)
            && Valid.WellFormed(s.providers[id]) && s.providers[id].day == Day(now)
            && var w := Step(c, id, Initial(policy, now), e);
            && w.files == Files.StartStep(c, Files.INITIAL, identity, s, |o.plan| + 4, 0)
            && w.files.live.None? && w.log == [] && w.files.disk.snapshot.now.None?
            && Open(c, w.files.disk, identity).Accepted?
            && Open(c, w.files.disk, identity).store.providers == s.providers
            && Open(c, w.files.disk, identity).store.schema == SCHEMA
  {
    Crash.OpenBlank(c, identity, {EMPTY_STORE}, 0, 0);
    var o := Open(c, BLANK, identity);
    e := Begin(identity, policy, now, seed, Stop(|o.plan| + 4, 0));
    s := With(o.store, id, Started(o, id, policy, now, seed));
    FirstStartFound(c, id, identity, policy, now, seed);
    CrashLimits.StoppedFirstStart(c, identity, s);
    StoppedStartOpens(c, Step(c, id, Initial(policy, now), e).files, identity, s);
  }

  /**
  Two starts from an empty directory on two days, each stopped between its record and its snapshot: the ledger is
  whole, no test was ever started, and no later start is accepted.
  */
  lemma MidnightDuringInstallation(c: Codec, id: string, identity: string, policy: Policy, t1: Time, seed1: bv64, t2: Time, seed2: bv64)
    returns (es: seq<Event>, w: World)
    requires c.Parses() && id != "" && ValidHeader(Header(SCHEMA, identity)) && Admission.ValidPolicy(policy)
    requires Valid.InCalendar(t1) && Valid.InCalendar(t2) && Day(t1) < Day(t2)
    ensures |es| == 2 && es[0].Begin? && es[0].now == t1 && es[1].Begin? && es[1].now == t2
    ensures Reaches(c, id, Initial(policy, t1), es, w, Anyhow) && w.log == []
    ensures (forall other :: Open(c, w.files.disk, other).Refused?) && !Rec.Torn(w.files.disk)
  {
    var first, s1 := FirstStop(c, id, identity, policy, t1, seed1);
    var w1 := Step(c, id, Initial(policy, t1), first);
    var second: Event;
    second, w := SecondStop(c, id, identity, policy, w1, s1, t2, seed2);
    es := [first, second];
    TwoSteps(c, id, Initial(policy, t1), first, second);
  }

  lemma TwoSteps(c: Codec, id: string, w: World, first: Event, second: Event)
    requires Enabled(c, id, w, first) && Enabled(c, id, Step(c, id, w, first), second)
    ensures Reaches(c, id, w, [first, second], Step(c, id, Step(c, id, w, first), second), Anyhow)
  {
    var w1 := Step(c, id, w, first);
    var w2 := Step(c, id, w1, second);
    assert [first, second][1..] == [second] && [second][1..] == [];
    assert Reaches(c, id, w2, [], w2, Anyhow);
    assert Reaches(c, id, w1, [second], w2, Anyhow);
  }

  lemma SecondStop(c: Codec, id: string, identity: string, policy: Policy, w1: World, s1: Store, now: Time, seed: bv64)
    returns (e: Event, w: World)
    requires c.Parses() && id != "" && ValidHeader(Header(SCHEMA, identity)) && Admission.ValidPolicy(policy) && Valid.InCalendar(now)
    requires Open(c, BLANK, identity).Accepted? && Files.Grows(Open(c, BLANK, identity).store, s1)
    requires w1.files == Files.StartStep(c, Files.INITIAL, identity, s1, |Open(c, BLANK, identity).plan| + 4, 0)
    requires w1.files.live.None? && w1.log == []
    requires ValidStore(s1) && Rec.ZeroStore(s1) && id in s1.providers
    requires Valid.WellFormed(s1.providers[id]) && s1.providers[id].day < Day(now)
    requires var o := Open(c, w1.files.disk, identity);
             o.Accepted? && o.store.providers == s1.providers && o.store.schema == SCHEMA
    ensures e.Begin? && e.now == now && Enabled(c, id, w1, e) && w == Step(c, id, w1, e) && w.log == []
    ensures (forall other :: Open(c, w.files.disk, other).Refused?) && !Rec.Torn(w.files.disk)
  {
    var o := Open(c, w1.files.disk, identity);
    var p := Started(o, id, policy, now, seed);
    var s2 := With(o.store, id, p);
    SecondStartFound(o, id, s1.providers[id], policy, now, seed);
    e := Begin(identity, policy, now, seed, Stop(|o.plan| + 4, 0));
    w := Step(c, id, w1, e);
    DayMatters(s1, s2, id);
    CrashLimits.TwoStopsDuringInstallation(c, identity, s1, s2, w1.files,
                                           Files.StartStep(c, w1.files, identity, s2, |o.plan| + 4, 0));
    forall other ensures Open(c, w.files.disk, other).Refused? {
      assert Open(c, w.files.disk, other) == Open(c, w.files.disk, identity);
    }
  }
}
